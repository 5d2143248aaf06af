# Meta Web 3.0 landing page: mind-map panels and shell navigation in Dafny

This project models the two pieces of the landing page that carry logic.

- **The mind-map panel.** It is written four times, once per section: DAO, DeFi, Trade and NFT. Each copy is the same code over a different constant node dataset. The model has one generic module, `MindMap` in `mind_map.dfy`, and four instances:
  - `DaoMap` (`dao_map.dfy`);
  - `DefiMap` (`defi_map.dfy`);
  - `TradeMap` (`trade_map.dfy`);
  - `NftMap` (`nft_map.dfy`).

  Each instance holds its panel's `nodes` array, the ids whose detail panel has body text, the ids of its use-case cards, and whether its lines carry the arrowhead marker. The generic module covers:
  - how lines are derived from each node's `connections` (a `find` per id; unresolved ids are skipped);
  - the three-tier line emphasis;
  - node emphasis (selected over hovered over plain);
  - `getSizeClass`;
  - the detail-panel lookup;
  - the entry stagger;
  - the trend colour of the metric rows;
  - the `Panel` class, whose `hoveredNode`, `selectedNode` and `expandedCard` fields are updated by the mouse and click handlers.
- **The shell (`App`).** `Shell` in `shell.dfy` models:
  - the `sections` table;
  - `handleSectionClick`, which toggles `activeSection` and starts the return animation;
  - the reveal flags `isLoading`, `logoLoaded`, `buttonsLoaded` and `isReturning`, driven by fixed 300/800/1500 ms schedules;
  - the dispatch from `activeSection` to a panel.

  Time is discrete. A `setTimeout` call becomes a `Timer` with an absolute due time. `Sweep` replays the timers millisecond by millisecond, firing those due at the same millisecond in registration order. A generic lemma turns any schedule that never sets the same flag twice into closed form. That lemma gives the mount and return sequences.

`wrappers.dfy` holds the `Option` type that stands for the source's `T | null`.

## Model

| member | source | states |
|---|---|---|
| `MindMap.IndexOf` | src/components/NFTMindMap.tsx:86 | The `find` by id: `None` exactly when no node has the id; otherwise the first node with that id |
| `MindMap.Find` | src/components/NFTMindMap.tsx:86 | The node `find` returns: `undefined` exactly when the id is not a node id; otherwise a node of the list with that id, and no earlier node has it |
| `MindMap.FindUnique` | src/components/NFTMindMap.tsx:12-41 | With distinct ids, looking up a node's own id returns that node |
| `MindMap.SegmentsFrom` | src/components/NFTMindMap.tsx:85-93 | A node yields at most one line per connection id; each starts at that node's coordinates, carries its id as the key's first part and has the panel's arrowhead setting |
| `MindMap.SegmentsOf` | src/components/NFTMindMap.tsx:84-93 | The lines of a list of nodes are at most as many as their declared connection ids, all with the panel's arrowhead setting |
| `MindMap.Segments` | src/components/NFTMindMap.tsx:84-93 | A panel draws at most one line per declared connection id, all with its arrowhead setting |
| `MindMap.Key` | src/components/NFTMindMap.tsx:93 | The React key splits into the source id, a dash at the source id's length, and the target id |
| `MindMap.SegmentsSound` | src/components/NFTMindMap.tsx:84-93 | Every drawn line runs from a node to a node that node lists in `connections`, and ends at the looked-up target's coordinates |
| `MindMap.SegmentsFromSound` | src/components/NFTMindMap.tsx:85-93 | The same, for the lines of one node |
| `MindMap.SegmentsComplete` | src/components/NFTMindMap.tsx:84-93 | Each (node, connection id) pair whose target exists is drawn, at the position fixed by node order and then connection order |
| `MindMap.SegmentsFromComplete` | src/components/NFTMindMap.tsx:85-93 | The same for one node: connection `j`, if it resolves, is drawn from that node right after the lines of the connections before it |
| `MindMap.SegmentsCount` | src/components/NFTMindMap.tsx:84-93 | Lines drawn plus unresolved ids equals the number of declared connection ids |
| `MindMap.SegmentsFromCount` | src/components/NFTMindMap.tsx:85-93 | The same count, for one node's `connections` |
| `MindMap.DanglingDrawsNothing` | src/components/NFTMindMap.tsx:86-87 | An id that names no node is the target of no line; it is skipped without an error |
| `MindMap.AllResolveDrawsEvery` | src/components/NFTMindMap.tsx:84-93 | When every id resolves, there is exactly one line per declared connection id |
| `MindMap.AllResolveCountsNothing` | src/components/NFTMindMap.tsx:86-87 | When every id resolves, no id is unresolved |
| `MindMap.ResolvedConnsCountNothing` | src/components/NFTMindMap.tsx:86-87 | The same, for one `connections` list |
| `MindMap.OneUnresolvedIn` | src/components/NFTMindMap.tsx:86-87 | One unresolved id in a `connections` list is counted once |
| `MindMap.OneUnresolvedOf` | src/components/NFTMindMap.tsx:86-87 | One unresolved id in the whole dataset is counted once |
| `MindMap.OneDanglingDrawsOneFewer` | src/components/NFTMindMap.tsx:84-93 | With exactly one dangling id, one line fewer than the declared ids is drawn |
| `MindMap.KeyedAt` | src/components/NFTMindMap.tsx:84-93 | A resolving connection of a node is drawn as a line from that node whose key is the node id, a dash and the connection id |
| `MindMap.MutualDrawsTwo` | src/components/NFTMindMap.tsx:84-96 | Two nodes that list each other give two distinct lines, keyed `a-b` and `b-a`; nothing merges them |
| `MindMap.SegmentsFromAppend` | src/components/NFTMindMap.tsx:85 | Deriving lines distributes over concatenation of a `connections` list |
| `MindMap.SegmentsOfAppend` | src/components/NFTMindMap.tsx:84 | Deriving lines distributes over concatenation of the node list |
| `MindMap.ArrowheadDecorates` | src/components/TradeMindMap.tsx:81-107 | The arrowhead marker changes no line: with or without it, the same lines are drawn in the same order |
| `MindMap.ArrowheadFromDecorates` | src/components/TradeMindMap.tsx:107 | The same, for one node's lines |
| `MindMap.TierOf` | src/components/NFTMindMap.tsx:89-102 | A line is highlighted iff the hovered node is an endpoint. It is selection-adjacent iff not highlighted and the selected node is an endpoint. Otherwise it is plain. Hover wins over selection |
| `MindMap.StrokeOf` | src/components/NFTMindMap.tsx:99-102 | Width 2 and a solid stroke exactly for a highlighted line, width 1 and dashed exactly for any other. Opacity is 0.6 exactly when highlighted, 0.4 exactly when selection-adjacent, 0.2 exactly when plain |
| `MindMap.OpacityOrdered` | src/components/NFTMindMap.tsx:101 | Opacity is 0.6 for highlighted, 0.4 for selection-adjacent and 0.2 for plain, strictly decreasing |
| `MindMap.NoHoverNoHighlight` | src/components/NFTMindMap.tsx:89-102 | With nothing hovered, no line is highlighted, and lines touching the selection are selection-adjacent |
| `MindMap.SizeClassOf` | src/components/NFTMindMap.tsx:43-50 | `large` and `small` get their own classes; every other string, `medium` included, gets the medium class |
| `MindMap.ViewOf` | src/components/NFTMindMap.tsx:130-159 | A node looks selected iff it is selected, and hovered iff hovered but not selected. The label shows iff it is hovered or selected. Only large nodes have a pulse ring, active iff the label shows. The dot shows iff the node is selected. The size class is the node's |
| `MindMap.AtMostOneSelected` | src/components/NFTMindMap.tsx:130-159 | With distinct ids, no two nodes show the selection dot, and no two look hovered |
| `MindMap.DetailOf` | src/components/NFTMindMap.tsx:167-213 | The panel exists iff the selection is set and is not the empty string, which JavaScript treats as false. It has body text iff the id is one of the four with a body. Its title exists iff the id is a node, and is then that node's label |
| `MindMap.DetailTitle` | src/components/NFTMindMap.tsx:167-173 | With unique ids, selecting a node shows its own label, with a body iff its id has one; if its id is empty, no panel shows |
| `MindMap.DetailShown` | src/components/NFTMindMap.tsx:167-173 | In a well-formed dataset (unique, non-empty ids), selecting any node always shows a panel titled with its label |
| `MindMap.Toggle` | src/components/NFTMindMap.tsx:127 | The click toggle: clears the slot iff it held this id, otherwise sets it to this id |
| `MindMap.ToggleTwiceRestores` | src/components/NFTMindMap.tsx:127 | Two clicks on the same node restore the prior selection when nothing, or that node, was selected |
| `MindMap.ToggleTwiceFromOther` | src/components/NFTMindMap.tsx:127 | When another node was selected, two clicks on a node leave nothing selected, not the other node |
| `MindMap.TrendColorOf` | src/components/NFTMindMap.tsx:406-410 | Green iff the trend starts with `+`; red iff it starts with `-`; gray otherwise, the empty string included |
| `MindMap.StartedCount` | src/components/NFTMindMap.tsx:120 | At time `t`, node `i` has started its entry animation iff `100*i <= t` |
| `MindMap.EntryDelay` | src/components/NFTMindMap.tsx:120 | Node `i` starts its entry animation after a whole number of 100 ms steps, `i` of them |
| `MindMap.Panel.constructor` | src/components/NFTMindMap.tsx:9-11 | Hover, selection and expanded card all start as `null` |
| `MindMap.Panel.MouseEnter` | src/components/NFTMindMap.tsx:125 | Hover becomes the node's id, which is a node id |
| `MindMap.Panel.MouseLeave` | src/components/NFTMindMap.tsx:126 | Hover becomes `null`, whichever node was hovered |
| `MindMap.Panel.Click` | src/components/NFTMindMap.tsx:127 | The selection is toggled for the node's id; only the selection changes, and it stays `null` or a node id |
| `MindMap.Panel.ClickCard` | src/components/NFTMindMap.tsx:267 | The expanded card is toggled for the card id; hover and selection do not change, and the slot holds at most one card id |
| `MindMap.Panel.Lines` | src/components/NFTMindMap.tsx:84-108 | One drawn line per derived segment, in order; width 2 exactly on lines touching the hovered node, and each line's whole stroke is the one its tier for the current hover and selection gives |
| `MindMap.Panel.Details` | src/components/NFTMindMap.tsx:167-171 | The detail panel exists iff a non-empty id is selected, and then always has a title |
| `NftMap.IdsUnique` | src/components/NFTMindMap.tsx:12-41 | The NFT node ids are pairwise distinct |
| `NftMap.IdsNotBlank` | src/components/NFTMindMap.tsx:12-41 | No NFT node id is the empty string |
| `NftMap.CoordinatesOnCanvas` | src/components/NFTMindMap.tsx:12-41 | Every NFT node's `x` and `y` lie in [0, 100] |
| `NftMap.NodesWellFormed` | src/components/NFTMindMap.tsx:12-41 | NFT ids are distinct and non-empty, coordinates lie in [0, 100], and every size is one `getSizeClass` names |
| `NftMap.BodiesAreNodes` | src/components/NFTMindMap.tsx:174-213 | digital-art, digital-products, certification and marketplace, the ids with a detail body, are all nodes |
| `NftMap.RoyaltiesDrawsNothing` | src/components/NFTMindMap.tsx:84-93 | `royalties`, listed by digital-art on line 14, names no node and `find` returns nothing for it. No line ends at it. It is the only dropped id, so exactly one line fewer than declared is drawn |
| `NftMap.ArtCreationDrawnTwice` | src/components/NFTMindMap.tsx:14-20 | digital-art and creation list each other and are drawn as two lines, `digital-art-creation` and `creation-digital-art` |
| `TradeMap.IdsUnique` | src/components/TradeMindMap.tsx:13-42 | The trading node ids are pairwise distinct |
| `TradeMap.IdsNotBlank` | src/components/TradeMindMap.tsx:13-42 | No trading node id is the empty string |
| `TradeMap.NodesWellFormed` | src/components/TradeMindMap.tsx:13-42 | Trading ids are distinct and non-empty, coordinates lie in [0, 100], and sizes are known |
| `TradeMap.EveryConnectionDrawn` | src/components/TradeMindMap.tsx:13-42 | Every connection id resolves, so the number of lines equals the total length of all `connections` lists |
| `TradeMap.SpotOrderbookDrawnTwice` | src/components/TradeMindMap.tsx:15-21 | spot and orderbook list each other and are drawn as two lines, `spot-orderbook` and `orderbook-spot` |
| `TradeMap.ArrowheadOnEveryLine` | src/components/TradeMindMap.tsx:81-107 | Every trading line carries the arrowhead, whatever its tier; without the marker the same lines are drawn |
| `TradeMap.BodiesAreNodes` | src/components/TradeMindMap.tsx:176-215 | spot, futures, portfolio and analytics, the ids with a detail body, are all nodes |
| `DaoMap.IdsUnique` | src/components/DAOMindMap.tsx:13-35 | The ten DAO node ids are pairwise distinct |
| `DaoMap.IdsNotBlank` | src/components/DAOMindMap.tsx:13-35 | No DAO node id is the empty string |
| `DaoMap.NodesWellFormed` | src/components/DAOMindMap.tsx:13-35 | DAO ids are distinct and non-empty, coordinates lie in [0, 100], and sizes are known |
| `DaoMap.EveryConnectionDrawn` | src/components/DAOMindMap.tsx:13-35 | Every connection id resolves, so each declared pair gives exactly one line |
| `DaoMap.GovernanceProposalsDrawnTwice` | src/components/DAOMindMap.tsx:15-18 | governance and proposals list each other and are drawn as two overlapping lines |
| `DaoMap.BodiesAreNodes` | src/components/DAOMindMap.tsx:168-207 | governance, treasury, community and token, the ids with a detail body, are all nodes |
| `DefiMap.IdsUnique` | src/components/DeFiMindMap.tsx:13-42 | The DeFi node ids are pairwise distinct |
| `DefiMap.IdsNotBlank` | src/components/DeFiMindMap.tsx:13-42 | No DeFi node id is the empty string |
| `DefiMap.CoordinatesOnCanvas` | src/components/DeFiMindMap.tsx:13-42 | Every DeFi node's `x` and `y` lie in [0, 100] |
| `DefiMap.NodesWellFormed` | src/components/DeFiMindMap.tsx:13-42 | DeFi ids are distinct and non-empty, coordinates lie in [0, 100], and sizes are known |
| `DefiMap.EveryConnectionDrawn` | src/components/DeFiMindMap.tsx:13-42 | Every connection id resolves, so one line is drawn per declared connection id |
| `DefiMap.LendingCollateralDrawnTwice` | src/components/DeFiMindMap.tsx:15-19 | lending and collateral list each other and are drawn as two lines |
| `DefiMap.StaggerIsForNodesOnly` | src/components/DeFiMindMap.tsx:81-117 | At mount only the first node has started its entry, yet the line to collateral, the third node, is already drawn. The last node starts at 1600 ms |
| `DefiMap.BodiesAreNodes` | src/components/DeFiMindMap.tsx:169-208 | lending, dex, staking and yield, the ids with a detail body, are all nodes |
| `Shell.ButtonOf` | src/App.tsx:52-57 | Every section has a button in the `sections` table |
| `Shell.ButtonDelay` | src/App.tsx:140 | Button `i` is revealed after 200 ms plus `i` steps of 150 ms |
| `Shell.SectionsTable` | src/App.tsx:52-57 | Each section appears once. Button `i` sits at `90*i` degrees, and each button's reveal delay is 150 ms after the previous one's |
| `Shell.NextActive` | src/App.tsx:49 | The new active section is `null` iff the argument equals the current section or is `null`; otherwise it is the argument |
| `Shell.StartsReturn` | src/App.tsx:38 | The return animation starts exactly when a section is open and the click closes it by some argument other than its own section, that is, by `null` |
| `Shell.OwnButtonClosesQuietly` | src/App.tsx:38-49 | Clicking the open section's own button closes it without the return animation; the close button (`null`) closes it with the animation |
| `Shell.ButtonSequences` | src/App.tsx:37-50 | From home, a button opens its section. A second click on it goes home, and a click on another button switches to that section; no button click animates |
| `Shell.Set` | src/App.tsx:13-16 | A setter changes its own flag to the given value and no other flag |
| `Shell.MountTimers` | src/App.tsx:26-28 | The mount effect's timers set three different flags, all belong to the effect, and all fall due within the first 1500 ms |
| `Shell.ReturnTimers` | src/App.tsx:45-47 | The return timers set three different flags, all belong to the return animation, and all fall due within 1500 ms after the click |
| `Shell.ReturnTimersOf` | src/App.tsx:30-34 | The cleanup keeps exactly the return-animation timers, each of which was pending |
| `Shell.CleanupKeepsReturnTimers` | src/App.tsx:30-34 | The cleanup cancels the three mount timers and none of the return timers |
| `Shell.FireAt` | src/App.tsx:26-28 | Firing at `t` changes nothing when no timer is due at `t` |
| `Shell.Sweep` | src/App.tsx:26-28 | Running the clock over `(start, stop]` changes nothing when no timer falls due in that interval |
| `Shell.FireAtKeeps` | src/App.tsx:26-28 | A flag that no timer due at `t` sets keeps its value when `t` fires |
| `Shell.FireAtLastWins` | src/App.tsx:26-28 | Among the timers due at `t`, the last registered one that sets a flag decides its value |
| `Shell.SweepUntouched` | src/App.tsx:26-28 | A flag that no pending timer sets keeps its value however long the clock runs |
| `Shell.FireAtDistinct` | src/App.tsx:26-28 | When no two timers set the same flag, firing at `t` sets each flag whose timer is due at `t` and leaves the others alone |
| `Shell.SweepDistinct` | src/App.tsx:26-28 | When no two timers set the same flag, a flag holds its timer's value after `(start, stop]` iff the timer fell due in it; untimed flags keep their value |
| `Shell.SweepSkipsPast` | src/App.tsx:26-28 | Timers that fell due before `start` have no effect after it |
| `Shell.SweepSplits` | src/App.tsx:26-28 | Running the clock to `mid` and then to `stop` is running it to `stop` |
| `Shell.MountSequence` | src/App.tsx:20-28 | After mount at 0, at time `t`: `logoLoaded` iff `t >= 300`, `buttonsLoaded` iff `t >= 800`, `isLoading` iff `t < 1500`, and `isReturning` is false |
| `Shell.MountFlagsSettle` | src/App.tsx:20-28 | Each mount flag changes once: once the logo, the buttons or the end of loading has appeared, it stays |
| `Shell.StartReturn` | src/App.tsx:40-42 | The return click sets `isReturning` and clears `logoLoaded` and `buttonsLoaded`, leaving `isLoading` as it was |
| `Shell.ReturnSequence` | src/App.tsx:40-47 | A return begun at `c`, once every earlier timer (the reveal's or an earlier return's) has fallen due: the logo is back at `c+300`, the buttons at `c+800`, and returning ends at `c+1500`; the spent timers do nothing |
| `Shell.FirstReturnSequence` | src/App.tsx:40-47 | The same for the first return after mount, begun once loading is over, when the three reveal timers are spent |
| `Shell.PointerBlocked` | src/App.tsx:88 | The main content ignores the pointer exactly while `isLoading` or `isReturning` is set |
| `Shell.PointerBlockedAtMount` | src/App.tsx:86-88 | After mount, the main content ignores the pointer exactly during the first 1500 ms, at every time `t` |
| `Shell.PointerBlockedDuringReturn` | src/App.tsx:86-88 | During a return begun at `c` once every earlier timer has fallen due, the main content ignores the pointer exactly until `c+1500` (given `isLoading` is off at `c`, which it is once the reveal's timers are spent) |
| `Shell.ReleasedAt` | src/App.tsx:86-88 | With loading off and never set, the pointer is free at `stop` when the last timer due then that names `isReturning` clears it |
| `Shell.OverlappingReturnReleasesEarly` | src/App.tsx:45-47 | A second return begun less than 1500 ms after a first one is released by the first one's timer at `first+1500`, before its own `c+1500` |
| `Shell.RenderMindMap` | src/App.tsx:60-73 | A panel is shown iff a section is active. Every panel's dataset is well formed, and the arrowhead marker is on exactly for Trade |
| `Shell.RenderDistinguishes` | src/App.tsx:60-73 | Different sections render different panels |
| `Shell.App.Mount` | src/App.tsx:12-28 | No section is active, the flags are in their reset state, and the three mount timers are pending |
| `Shell.App.HandleSectionClick` | src/App.tsx:37-50 | The active section is updated by the toggle. Iff a section was open and the argument is `null`, the return flags are set and the three return timers are added; otherwise flags and timers stay unchanged |
| `Shell.App.Close` | src/App.tsx:63-69 | A panel's close button returns home with the return animation |
| `Shell.App.AdvanceTo` | src/App.tsx:26-47 | Letting the clock run to `t` leaves the flags as the sweep of the pending timers over the elapsed interval |
| `Shell.App.Unmount` | src/App.tsx:30-34 | The cleanup cancels the mount timers only; the return timers stay pending |
| `Shell.App.Blocked` | src/App.tsx:86-88 | The component ignores the pointer now exactly while it is loading or returning |
| `Shell.App.Overlay` | src/App.tsx:218-226 | The mind-map overlay is shown iff a section is active |

## Behaviour worth knowing

- **Double click.** Two clicks on the same node restore the prior selection only when nothing, or that same node, was selected (`MindMap.ToggleTwiceRestores`). If another node was selected, two clicks leave nothing selected (`MindMap.ToggleTwiceFromOther`).
- **Selection-adjacent lines are dashed.** Only highlighted lines are solid. Every other line is dashed, selection-adjacent ones included (`MindMap.StrokeOf`).
- **An empty id would show no panel.** The detail panel renders under `selectedNode && ...`, and an empty string is false in JavaScript, so selecting a node whose id is `""` would show nothing (`MindMap.DetailOf`). No dataset has such an id (`NftMap.IdsNotBlank` and its three siblings), so every node of every panel shows its panel when selected (`MindMap.DetailShown`).
- **Mouse-leave is unconditional.** It clears the hover even when the pointer has already entered another node (`MindMap.Panel.MouseLeave`).
- **No de-duplication or fade-in for lines.** Lines are never de-duplicated, and they have no fade-in tied to the node stagger (`MindMap.MutualDrawsTwo`, `DefiMap.StaggerIsForNodesOnly`).
- **Return timers are never cancelled.** Returns are not debounced. Each return click adds three timers that nothing cancels, and the model keeps them all (`Shell.App.HandleSectionClick`, `Shell.App.Unmount`). `pointer-events-none` does not stop key presses, so a second return can start while the first is still running; the first return's timer then frees the pointer before the second return's animation is over (`Shell.OverlappingReturnReleasesEarly`).

## Left out

- Markup, Tailwind class strings, icons and CSS animations. Class choices are small enumerations (`EdgeTier`, `Stroke`, `SizeClass`, `NodeLook`, `TrendColor`), not strings.
- The percentage-to-pixel projection. Coordinates stay the integer percentages of the dataset; the `${x}%` strings are laid out by the browser.
- The `cos()`/`sin()` button transforms of `App`. That trigonometry is evaluated by the browser in floating point.
- Real `setTimeout` scheduling and React's render timing. Time is a discrete millisecond clock driven by `Shell.App.AdvanceTo`, and a state update takes effect at once.
- Marketing copy, metric values, pricing tiers and the card texts: static literals with no behaviour.
- The detail bodies' text. `Detail.hasBody` records only whether a body exists.
- The card expansion content: only the `expandedCard` slot is modelled.
- `vite.config.ts` and the rest of the build setup: not part of this model.
- `Shell.PointerBlockedDuringReturn`: stated, like `Shell.ReturnSequence`, only for a return begun once every earlier timer has fallen due. When returns overlap, the earlier return's `isReturning := false` timer releases the pointer early; `Shell.OverlappingReturnReleasesEarly` shows one such case, and no general closed form is proved.
- `Shell.ReturnSequence`: stated for a return begun once every earlier timer has fallen due. A return begun earlier, before the reveal's or a previous return's timers are spent, overlaps them. `Sweep` still defines that state, but no closed form is proved for it.
- The metric rows' own stagger of `(index + 3) * 100` ms: a presentation delay with no state.
