/**
 * The application shell (src/App.tsx): the four-way section toggle with its
 * return animation, the reveal flags driven by fixed millisecond schedules,
 * and the dispatch from the active section to its mind-map panel.
 *
 * Time is discrete: a scheduled update is a `Timer` with an absolute due
 * time, and the flags at time `t` are what replaying every timer due in
 * `(start, t]`, millisecond by millisecond and in registration order within a
 * millisecond, makes of the flags at `start` (`Sweep`).
 */
module Shell {
  import opened Wrappers
  import opened MindMap
  import NftMap
  import TradeMap
  import DaoMap
  import DefiMap

  /** `Section` without its `null` case, which is `None` of an `Option<Section>`. */
  datatype Section = Dao | Defi | Trade | Nft

  /** An entry of the `sections` table: the button's section, caption and angle in degrees. */
  datatype NavButton = NavButton(section: Section, caption: string, angle: int)

  const Sections: seq<NavButton> := [
    NavButton(Dao, "DAO", 0),
    NavButton(Defi, "DeFi", 90),
    NavButton(Trade, "Trade", 180),
    NavButton(Nft, "NFT", 270)
  ]

  /** The `transitionDelay` of the button at `index`, in milliseconds. */
  function ButtonDelay(index: nat): (r: nat)
    ensures r >= 200 && (r - 200) % 150 == 0 && (r - 200) / 150 == index
  {
    index * 150 + 200
  }

  /** The button that shows section `s`. */
  function ButtonOf(s: Section): (r: nat)
    ensures r < |Sections| && Sections[r].section == s
  {
    match s
    case Dao => 0
    case Defi => 1
    case Trade => 2
    case Nft => 3
  }

  /** Each section has exactly one button, the buttons sit a quarter turn
      apart in table order, and each is revealed 150 ms after the previous. */
  lemma SectionsTable()
    ensures forall i, j :: 0 <= i < j < |Sections| ==> Sections[i].section != Sections[j].section
    ensures forall i :: 0 <= i < |Sections| ==> Sections[i].angle == 90 * i
    ensures forall i :: 0 <= i < |Sections| ==> ButtonOf(Sections[i].section) == i
    ensures forall i :: 0 < i < |Sections| ==> ButtonDelay(i) == ButtonDelay(i - 1) + 150
  {
  }

  // ---------------------------------------------------------------------------
  // The section toggle
  // ---------------------------------------------------------------------------

  /** The new `activeSection` after `handleSectionClick(clicked)`. */
  function NextActive(active: Option<Section>, clicked: Option<Section>): (r: Option<Section>)
    ensures r.None? <==> clicked == active || clicked.None?
    ensures r.Some? ==> r == clicked && r != active
  {
    if active == clicked then None else clicked
  }

  /** Whether `handleSectionClick(clicked)` starts the return animation. */
  predicate StartsReturn(active: Option<Section>, clicked: Option<Section>)
    ensures StartsReturn(active, clicked) <==> active.Some? && clicked != active && NextActive(active, clicked).None?
  {
    active.Some? && clicked.None?
  }

  /** Clicking the open section's own button closes it too, but without the
      return animation; only the close button (`null`) animates. */
  lemma OwnButtonClosesQuietly(s: Section)
    ensures NextActive(Some(s), Some(s)) == None && !StartsReturn(Some(s), Some(s))
    ensures NextActive(Some(s), None) == None && StartsReturn(Some(s), None)
  {
  }

  /** From the home screen a button opens its section; a second click on the
      same button returns home, a click on another switches to it. */
  lemma {:induction false} ButtonSequences(s: Section, other: Section)
    requires other != s
    ensures NextActive(NextActive(None, Some(s)), Some(s)) == None
    ensures NextActive(NextActive(None, Some(s)), Some(other)) == Some(other)
    ensures !StartsReturn(None, Some(s)) && !StartsReturn(Some(s), Some(other))
  {
    assert NextActive(None, Some(s)) == Some(s);
  }

  // ---------------------------------------------------------------------------
  // Flags and timers
  // ---------------------------------------------------------------------------

  /** The four boolean `useState` slots besides `activeSection`. */
  datatype Flags = Flags(isLoading: bool, logoLoaded: bool, buttonsLoaded: bool, isReturning: bool)

  /** Names a slot of `Flags`, as a setter names the slot it updates. */
  datatype Flag = Loading | LogoLoaded | ButtonsLoaded | Returning

  function Get(f: Flags, flag: Flag): bool
  {
    match flag
    case Loading => f.isLoading
    case LogoLoaded => f.logoLoaded
    case ButtonsLoaded => f.buttonsLoaded
    case Returning => f.isReturning
  }

  /** Calling the setter of `flag` with `value`. */
  function Set(f: Flags, flag: Flag, value: bool): (r: Flags)
    ensures Get(r, flag) == value
    ensures forall other :: other != flag ==> Get(r, other) == Get(f, other)
  {
    match flag
    case Loading => f.(isLoading := value)
    case LogoLoaded => f.(logoLoaded := value)
    case ButtonsLoaded => f.(buttonsLoaded := value)
    case Returning => f.(isReturning := value)
  }

  /** Which `setTimeout` call registered a timer: the mount effect's (which
      its cleanup cancels) or the return animation's (which nothing cancels). */
  datatype Origin = MountEffect | ReturnAnimation

  /** A pending `setTimeout(() => set<flag>(value), delay)`, due at an absolute time. */
  datatype Timer = Timer(due: int, flag: Flag, value: bool, origin: Origin)

  /** What the mount effect sets before scheduling anything. */
  const Reset: Flags := Flags(true, false, false, false)

  /** The mount effect's three timers. */
  function MountTimers(): (r: seq<Timer>)
    ensures FlagsDistinct(r)
    ensures forall i :: 0 <= i < |r| ==> r[i].origin == MountEffect && 0 < r[i].due <= 1500
  {
    [Timer(300, LogoLoaded, true, MountEffect),
     Timer(800, ButtonsLoaded, true, MountEffect),
     Timer(1500, Loading, false, MountEffect)]
  }

  /** The return animation's three timers, registered at time `now`. */
  function ReturnTimers(now: int): (r: seq<Timer>)
    ensures FlagsDistinct(r)
    ensures forall i :: 0 <= i < |r| ==> r[i].origin == ReturnAnimation && now < r[i].due <= now + 1500
  {
    [Timer(now + 300, LogoLoaded, true, ReturnAnimation),
     Timer(now + 800, ButtonsLoaded, true, ReturnAnimation),
     Timer(now + 1500, Returning, false, ReturnAnimation)]
  }

  /** No two timers of `timers` set the same slot. */
  ghost predicate FlagsDistinct(timers: seq<Timer>)
  {
    forall i, j :: 0 <= i < j < |timers| ==> timers[i].flag != timers[j].flag
  }

  /** The timers of `timers` that the mount effect's cleanup does not cancel, in order. */
  function ReturnTimersOf(timers: seq<Timer>): (r: seq<Timer>)
    ensures |r| <= |timers|
    ensures forall k :: 0 <= k < |r| ==> r[k].origin == ReturnAnimation && r[k] in timers
    ensures forall k :: 0 <= k < |timers| && timers[k].origin == ReturnAnimation ==> timers[k] in r
    decreases |timers|
  {
    if timers == [] then []
    else if timers[0].origin == ReturnAnimation then [timers[0]] + ReturnTimersOf(timers[1..])
    else ReturnTimersOf(timers[1..])
  }

  /** Once mounted, the return timers registered by any clicks survive the cleanup. */
  lemma CleanupKeepsReturnTimers(c: int)
    ensures ReturnTimersOf(MountTimers() + ReturnTimers(c)) == ReturnTimers(c)
    ensures ReturnTimersOf(MountTimers()) == []
  {
    ReturnTimersOfAppend(MountTimers(), ReturnTimers(c));
    ReturnTimersOfUniform(MountTimers());
    ReturnTimersOfUniform(ReturnTimers(c));
  }

  lemma {:induction false} ReturnTimersOfAppend(a: seq<Timer>, b: seq<Timer>)
    ensures ReturnTimersOf(a + b) == ReturnTimersOf(a) + ReturnTimersOf(b)
    decreases |a|
  {
    if a == [] {
      assert a + b == b;
    } else {
      assert (a + b)[0] == a[0] && (a + b)[1..] == a[1..] + b;
      ReturnTimersOfAppend(a[1..], b);
      if a[0].origin == ReturnAnimation {
        assert ReturnTimersOf(a + b) == [a[0]] + ReturnTimersOf(a[1..] + b);
      } else {
        assert ReturnTimersOf(a + b) == ReturnTimersOf(a[1..] + b);
      }
    }
  }

  /** The cleanup cancels a batch of mount timers entirely and keeps a batch of return timers whole. */
  lemma {:induction false} ReturnTimersOfUniform(timers: seq<Timer>)
    ensures (forall k :: 0 <= k < |timers| ==> timers[k].origin == MountEffect) ==> ReturnTimersOf(timers) == []
    ensures (forall k :: 0 <= k < |timers| ==> timers[k].origin == ReturnAnimation) ==> ReturnTimersOf(timers) == timers
    decreases |timers|
  {
    if timers != [] {
      ReturnTimersOfUniform(timers[1..]);
      assert timers == [timers[0]] + timers[1..];
    }
  }

  /** Fires, in registration order, the timers of `timers` due at `t`. */
  function FireAt(f: Flags, timers: seq<Timer>, t: int): (r: Flags)
    ensures (forall i :: 0 <= i < |timers| ==> timers[i].due != t) ==> r == f
    decreases |timers|
  {
    if timers == [] then f
    else FireAt(if timers[0].due == t then Set(f, timers[0].flag, timers[0].value) else f, timers[1..], t)
  }

  /** The flags at time `stop`, from the flags `f` at time `start`, when `timers`
      are all that is scheduled. */
  function Sweep(f: Flags, timers: seq<Timer>, start: int, stop: int): (r: Flags)
    ensures (forall i :: 0 <= i < |timers| ==> timers[i].due <= start || stop < timers[i].due) ==> r == f
    decreases stop - start
  {
    if stop <= start then f else FireAt(Sweep(f, timers, start, stop - 1), timers, stop)
  }

  /** A slot that no timer due at `t` names keeps its value when `t` fires. */
  lemma {:induction false} FireAtKeeps(f: Flags, timers: seq<Timer>, t: int, flag: Flag)
    requires forall i :: 0 <= i < |timers| ==> timers[i].flag != flag || timers[i].due != t
    ensures Get(FireAt(f, timers, t), flag) == Get(f, flag)
    decreases |timers|
  {
    if timers != [] {
      var g := if timers[0].due == t then Set(f, timers[0].flag, timers[0].value) else f;
      FireAtKeeps(g, timers[1..], t, flag);
    }
  }

  /** Among the timers due at `t`, the last one naming a slot decides it. */
  lemma {:induction false} FireAtLastWins(f: Flags, timers: seq<Timer>, t: int, i: nat)
    requires i < |timers| && timers[i].due == t
    requires forall j :: i < j < |timers| ==> timers[j].flag != timers[i].flag || timers[j].due != t
    ensures Get(FireAt(f, timers, t), timers[i].flag) == timers[i].value
    decreases |timers|
  {
    var g := if timers[0].due == t then Set(f, timers[0].flag, timers[0].value) else f;
    if i == 0 {
      assert forall j :: 0 <= j < |timers[1..]| ==> timers[1..][j].flag != timers[0].flag || timers[1..][j].due != t;
      FireAtKeeps(g, timers[1..], t, timers[0].flag);
    } else {
      FireAtLastWins(g, timers[1..], t, i - 1);
    }
  }

  /** A slot that no timer names keeps its value however long the clock runs. */
  lemma {:induction false} SweepUntouched(f: Flags, timers: seq<Timer>, start: int, stop: int, flag: Flag)
    requires forall i :: 0 <= i < |timers| ==> timers[i].flag != flag
    ensures Get(Sweep(f, timers, start, stop), flag) == Get(f, flag)
    decreases stop - start
  {
    if stop > start {
      SweepUntouched(f, timers, start, stop - 1, flag);
      FireAtKeeps(Sweep(f, timers, start, stop - 1), timers, stop, flag);
    }
  }

  /** With distinct slots, firing at `t` sets each slot whose timer is due at
      `t` and leaves every other slot alone. */
  lemma {:induction false} FireAtDistinct(f: Flags, timers: seq<Timer>, t: int)
    requires FlagsDistinct(timers)
    ensures forall i :: 0 <= i < |timers| ==>
      Get(FireAt(f, timers, t), timers[i].flag) == if timers[i].due == t then timers[i].value else Get(f, timers[i].flag)
    ensures forall flag :: (forall i :: 0 <= i < |timers| ==> timers[i].flag != flag) ==>
      (Get(FireAt(f, timers, t), flag) == Get(f, flag))
    decreases |timers|
  {
    if timers != [] {
      var g := if timers[0].due == t then Set(f, timers[0].flag, timers[0].value) else f;
      var rest := timers[1..];
      assert FlagsDistinct(rest) by {
        forall i, j | 0 <= i < j < |rest| ensures rest[i].flag != rest[j].flag {
          assert rest[i] == timers[i + 1] && rest[j] == timers[j + 1];
        }
      }
      FireAtDistinct(g, rest, t);
      forall i | 0 <= i < |timers|
        ensures Get(FireAt(f, timers, t), timers[i].flag) == if timers[i].due == t then timers[i].value else Get(f, timers[i].flag)
      {
        if i == 0 {
          forall k | 0 <= k < |rest| ensures rest[k].flag != timers[0].flag {
            assert rest[k] == timers[k + 1];
          }
        } else {
          assert timers[i] == rest[i - 1];
        }
      }
      forall flag | (forall i :: 0 <= i < |timers| ==> timers[i].flag != flag)
        ensures Get(FireAt(f, timers, t), flag) == Get(f, flag)
      {
        assert timers[0].flag != flag;
        forall k | 0 <= k < |rest| ensures rest[k].flag != flag {
          assert rest[k] == timers[k + 1];
        }
      }
    }
  }

  /** With distinct slots, a slot ends up with its timer's value exactly when
      the timer fell due in `(start, stop]`, and slots without a timer keep
      their value. */
  lemma {:induction false} SweepDistinct(f: Flags, timers: seq<Timer>, start: int, stop: int)
    decreases stop - start
    requires FlagsDistinct(timers)
    ensures forall i :: 0 <= i < |timers| ==>
      Get(Sweep(f, timers, start, stop), timers[i].flag) == if start < timers[i].due <= stop then timers[i].value else Get(f, timers[i].flag)
    ensures forall flag :: (forall i :: 0 <= i < |timers| ==> timers[i].flag != flag) ==>
      (Get(Sweep(f, timers, start, stop), flag) == Get(f, flag))
  {
    if stop > start {
      SweepDistinct(f, timers, start, stop - 1);
      FireAtDistinct(Sweep(f, timers, start, stop - 1), timers, stop);
    }
  }

  /** Timers that fell due before `t` do not fire at `t`. */
  lemma {:induction false} FireAtSkipsPast(f: Flags, past: seq<Timer>, timers: seq<Timer>, t: int)
    requires forall i :: 0 <= i < |past| ==> past[i].due < t
    ensures FireAt(f, past + timers, t) == FireAt(f, timers, t)
    decreases |past|
  {
    if past == [] {
      assert past + timers == timers;
    } else {
      assert (past + timers)[0] == past[0] && (past + timers)[1..] == past[1..] + timers;
      FireAtSkipsPast(f, past[1..], timers, t);
      assert FireAt(f, past + timers, t) == FireAt(f, past[1..] + timers, t);
    }
  }

  /** Timers that fell due by `start` play no part in what follows `start`. */
  lemma {:induction false} SweepSkipsPast(f: Flags, past: seq<Timer>, timers: seq<Timer>, start: int, stop: int)
    requires forall i :: 0 <= i < |past| ==> past[i].due <= start
    ensures Sweep(f, past + timers, start, stop) == Sweep(f, timers, start, stop)
    decreases stop - start
  {
    if stop > start {
      SweepSkipsPast(f, past, timers, start, stop - 1);
      FireAtSkipsPast(Sweep(f, timers, start, stop - 1), past, timers, stop);
    }
  }

  /** Sweeping to `mid` and then on to `stop` is sweeping to `stop`. */
  lemma {:induction false} SweepSplits(f: Flags, timers: seq<Timer>, start: int, mid: int, stop: int)
    requires start <= mid <= stop
    ensures Sweep(Sweep(f, timers, start, mid), timers, mid, stop) == Sweep(f, timers, start, stop)
    decreases stop - mid
  {
    if stop > mid {
      SweepSplits(f, timers, start, mid, stop - 1);
    }
  }

  /** The reveal after mounting at 0: the logo appears at 300 ms, the buttons
      at 800 ms, loading ends at 1500 ms, and nothing is returning. */
  lemma MountSequence(t: int)
    ensures Sweep(Reset, MountTimers(), 0, t) == Flags(t < 1500, t >= 300, t >= 800, false)
  {
    var r := Sweep(Reset, MountTimers(), 0, t);
    SweepDistinct(Reset, MountTimers(), 0, t);
    assert Get(r, MountTimers()[0].flag) == r.logoLoaded;
    assert Get(r, MountTimers()[1].flag) == r.buttonsLoaded;
    assert Get(r, MountTimers()[2].flag) == r.isLoading;
    assert forall i :: 0 <= i < |MountTimers()| ==> MountTimers()[i].flag != Returning;
    assert Get(r, Returning) == r.isReturning;
  }

  /** Each slot changes once during the reveal: once set, a flag keeps its value. */
  lemma MountFlagsSettle(t1: int, t2: int)
    requires t1 <= t2
    ensures Sweep(Reset, MountTimers(), 0, t1).logoLoaded ==> Sweep(Reset, MountTimers(), 0, t2).logoLoaded
    ensures Sweep(Reset, MountTimers(), 0, t1).buttonsLoaded ==> Sweep(Reset, MountTimers(), 0, t2).buttonsLoaded
    ensures !Sweep(Reset, MountTimers(), 0, t1).isLoading ==> !Sweep(Reset, MountTimers(), 0, t2).isLoading
  {
    MountSequence(t1);
    MountSequence(t2);
  }

  /** What `handleSectionClick(null)` sets at once when a section is open. */
  function StartReturn(f: Flags): (r: Flags)
    ensures r.isReturning && !r.logoLoaded && !r.buttonsLoaded && r.isLoading == f.isLoading
  {
    f.(isReturning := true, logoLoaded := false, buttonsLoaded := false)
  }

  /** A return animation started at `c`, once every earlier timer (`past`:
      the reveal's, earlier returns') has fallen due: the logo comes back at
      `c + 300`, the buttons at `c + 800`, and returning ends at `c + 1500`;
      the spent timers change nothing. */
  lemma ReturnSequence(f: Flags, past: seq<Timer>, c: int, t: int)
    requires forall i :: 0 <= i < |past| ==> past[i].due <= c
    requires c <= t
    ensures Sweep(StartReturn(f), past + ReturnTimers(c), c, t)
      == Flags(f.isLoading, t >= c + 300, t >= c + 800, t < c + 1500)
  {
    var g := StartReturn(f);
    SweepSkipsPast(g, past, ReturnTimers(c), c, t);
    var r := Sweep(g, ReturnTimers(c), c, t);
    SweepDistinct(g, ReturnTimers(c), c, t);
    assert Get(r, ReturnTimers(c)[0].flag) == r.logoLoaded;
    assert Get(r, ReturnTimers(c)[1].flag) == r.buttonsLoaded;
    assert Get(r, ReturnTimers(c)[2].flag) == r.isReturning;
    assert forall i :: 0 <= i < |ReturnTimers(c)| ==> ReturnTimers(c)[i].flag != Loading;
    assert Get(r, Loading) == r.isLoading;
  }

  /** The first return after mounting, begun once loading is over: the
      reveal's three timers are then all spent. */
  lemma FirstReturnSequence(f: Flags, c: int, t: int)
    requires 1500 <= c <= t
    ensures Sweep(StartReturn(f), MountTimers() + ReturnTimers(c), c, t)
      == Flags(f.isLoading, t >= c + 300, t >= c + 800, t < c + 1500)
  {
    ReturnSequence(f, MountTimers(), c, t);
  }

  /** The main content ignores the pointer while loading or returning; when
      that is, over time, is stated by `PointerBlockedAtMount`,
      `PointerBlockedDuringReturn` and `OverlappingReturnReleasesEarly`. */
  predicate PointerBlocked(f: Flags)
    ensures PointerBlocked(f) <==> Get(f, Loading) || Get(f, Returning)
  {
    f.isLoading || f.isReturning
  }

  /** After mounting, the pointer is blocked exactly for the first 1500 ms. */
  lemma PointerBlockedAtMount(t: int)
    ensures PointerBlocked(Sweep(Reset, MountTimers(), 0, t)) <==> t < 1500
  {
    MountSequence(t);
  }

  /** During a return begun at `c` the pointer is blocked exactly until
      `c + 1500`, or for good if loading was still on. */
  lemma PointerBlockedDuringReturn(f: Flags, past: seq<Timer>, c: int, t: int)
    requires forall i :: 0 <= i < |past| ==> past[i].due <= c
    requires c <= t
    ensures PointerBlocked(Sweep(StartReturn(f), past + ReturnTimers(c), c, t)) <==> f.isLoading || t < c + 1500
  {
    ReturnSequence(f, past, c, t);
  }

  /** The pointer is free at `stop` when loading is off, no timer sets it,
      and the last timer due at `stop` that names `isReturning` clears it. */
  lemma ReleasedAt(g: Flags, timers: seq<Timer>, start: int, stop: int, i: nat)
    requires start < stop && !g.isLoading
    requires forall j :: 0 <= j < |timers| ==> timers[j].flag != Loading
    requires i < |timers| && timers[i].due == stop && timers[i].flag == Returning && !timers[i].value
    requires forall j :: i < j < |timers| ==> timers[j].flag != Returning || timers[j].due != stop
    ensures !PointerBlocked(Sweep(g, timers, start, stop))
  {
    var h := Sweep(g, timers, start, stop - 1);
    SweepUntouched(g, timers, start, stop - 1, Loading);
    FireAtKeeps(h, timers, stop, Loading);
    FireAtLastWins(h, timers, stop, i);
  }

  /** Returns are not debounced and the first return's timers stay pending:
      a second return at `c`, before the first one's 1500 ms are over, is
      released by the first one's `isReturning := false` at `first + 1500`,
      before its own `c + 1500`. */
  lemma OverlappingReturnReleasesEarly(f: Flags, first: int, c: int)
    requires first < c < first + 1500 && !f.isLoading
    ensures !PointerBlocked(Sweep(StartReturn(f), ReturnTimers(first) + ReturnTimers(c), c, first + 1500))
  {
    var timers := ReturnTimers(first) + ReturnTimers(c);
    assert timers[2] == Timer(first + 1500, Returning, false, ReturnAnimation);
    assert timers[3..] == ReturnTimers(c);
    ReleasedAt(StartReturn(f), timers, c, first + 1500, 2);
  }

  // ---------------------------------------------------------------------------
  // Dispatch
  // ---------------------------------------------------------------------------

  /** `renderMindMap`: the panel of the active section, nothing at home. */
  function RenderMindMap(active: Option<Section>): (r: Option<PanelConfig>)
    ensures r.Some? <==> active.Some?
    ensures r.Some? ==> WellFormed(r.value.nodes)
    ensures r.Some? ==> (r.value.arrowheads <==> active == Some(Trade))
  {
    match active
    case None => None
    case Some(Dao) => DaoMap.NodesWellFormed(); Some(DaoMap.Config())
    case Some(Defi) => DefiMap.NodesWellFormed(); Some(DefiMap.Config())
    case Some(Trade) => TradeMap.NodesWellFormed(); Some(TradeMap.Config())
    case Some(Nft) => NftMap.NodesWellFormed(); Some(NftMap.Config())
  }

  /** Different sections show different panels. */
  lemma RenderDistinguishes(a: Section, b: Section)
    requires a != b
    ensures RenderMindMap(Some(a)) != RenderMindMap(Some(b))
  {
    var ra, rb := RenderMindMap(Some(a)), RenderMindMap(Some(b));
    assert ra.value.bodyIds[0] != rb.value.bodyIds[0];
  }

  // ---------------------------------------------------------------------------
  // The component
  // ---------------------------------------------------------------------------

  /** The `App` component with its clock and its pending timers. */
  class App {
    var activeSection: Option<Section>
    var flags: Flags
    var now: int
    var pending: seq<Timer>

    /** Mounting at time 0: the `useState` initial values, which the effect
        resets to the same values, and the effect's three timers. */
    constructor Mount()
      ensures activeSection == None && flags == Reset && now == 0 && pending == MountTimers()
    {
      activeSection := None;
      flags := Reset;
      now := 0;
      pending := MountTimers();
    }

    /** `handleSectionClick(clicked)` at the current time. */
    method HandleSectionClick(clicked: Option<Section>)
      modifies this
      ensures activeSection == NextActive(old(activeSection), clicked)
      ensures now == old(now)
      ensures StartsReturn(old(activeSection), clicked) ==>
        flags == StartReturn(old(flags)) && pending == old(pending) + ReturnTimers(now)
      ensures !StartsReturn(old(activeSection), clicked) ==>
        flags == old(flags) && pending == old(pending)
    {
      if StartsReturn(activeSection, clicked) {
        flags := StartReturn(flags);
        pending := pending + ReturnTimers(now);
      }
      activeSection := NextActive(activeSection, clicked);
    }

    /** A panel's `onClose`, which exists only while that panel is shown. */
    method Close()
      requires activeSection.Some?
      modifies this
      ensures activeSection == None && now == old(now)
      ensures flags == StartReturn(old(flags)) && pending == old(pending) + ReturnTimers(now)
    {
      HandleSectionClick(None);
    }

    /** Lets time run to `t`, firing every timer that falls due on the way. */
    method AdvanceTo(t: int)
      requires now <= t
      modifies this`now, this`flags
      ensures now == t && flags == Sweep(old(flags), pending, old(now), t)
    {
      ghost var start, f0 := now, flags;
      while now < t
        invariant start <= now <= t
        invariant flags == Sweep(f0, pending, start, now)
        decreases t - now
      {
        now := now + 1;
        flags := FireAt(flags, pending, now);
      }
    }

    /** The effect's cleanup: cancels the mount timers; the return timers stay. */
    method Unmount()
      modifies this`pending
      ensures pending == ReturnTimersOf(old(pending))
    {
      pending := ReturnTimersOf(pending);
    }

    /** Whether the main content ignores the pointer now (see
        `PointerBlockedAtMount` and `PointerBlockedDuringReturn`). */
    predicate Blocked()
      reads this
      ensures Blocked() <==> flags.isLoading || flags.isReturning
    {
      PointerBlocked(flags)
    }

    /** The panel shown now, if any. */
    function Overlay(): (r: Option<PanelConfig>)
      reads this
      ensures r.Some? <==> activeSection.Some?
    {
      RenderMindMap(activeSection)
    }
  }
}
