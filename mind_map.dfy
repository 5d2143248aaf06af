/**
 * The interaction model shared by the four topic panels (DAO, DeFi, Trade, NFT):
 * a constant node dataset, the edge segments derived from it, the three-tier
 * edge emphasis, the node emphasis, the detail-panel lookup, the entry stagger
 * and the hover / selection / expanded-card state that the panel's handlers
 * update. Each panel module instantiates it with its own dataset.
 */
module MindMap {
  import opened Wrappers

  // ---------------------------------------------------------------------------
  // Dataset
  // ---------------------------------------------------------------------------

  /** One node record: `caption` is the record's `label` field (a reserved word
      in Dafny); `x`/`y` are percentages of the map box; `size` is kept as the
      string the record spells, because the size lookup has a default branch;
      `connections` are the ids this node declares edges to, in order. */
  datatype Node = Node(id: string, caption: string, x: int, y: int, size: string, connections: seq<string>)

  /** The ids of a dataset, in dataset order. */
  function Ids(nodes: seq<Node>): (r: seq<string>)
    ensures |r| == |nodes|
    ensures forall i :: 0 <= i < |nodes| ==> r[i] == nodes[i].id
  {
    seq(|nodes|, i requires 0 <= i < |nodes| => nodes[i].id)
  }

  ghost predicate IdsDistinct(nodes: seq<Node>) {
    forall i, j :: 0 <= i < j < |nodes| ==> nodes[i].id != nodes[j].id
  }

  ghost predicate CoordinatesInRange(nodes: seq<Node>) {
    forall i :: 0 <= i < |nodes| ==> 0 <= nodes[i].x <= 100 && 0 <= nodes[i].y <= 100
  }

  predicate KnownSize(size: string) {
    size == "large" || size == "medium" || size == "small"
  }

  ghost predicate SizesKnown(nodes: seq<Node>) {
    forall i :: 0 <= i < |nodes| ==> KnownSize(nodes[i].size)
  }

  /** Every declared connection of `ns` names a node of `all`. */
  ghost predicate AllResolve(all: seq<Node>, ns: seq<Node>) {
    forall i, j :: 0 <= i < |ns| && 0 <= j < |ns[i].connections| ==> ns[i].connections[j] in Ids(all)
  }

  /** No id is the empty string, which JavaScript treats as false. */
  ghost predicate IdsNonEmpty(nodes: seq<Node>) {
    forall i :: 0 <= i < |nodes| ==> nodes[i].id != ""
  }

  /** What the panels rely on of a dataset: unique non-empty ids, on-canvas
      coordinates and sizes the size lookup names explicitly. */
  ghost predicate WellFormed(nodes: seq<Node>) {
    IdsDistinct(nodes) && IdsNonEmpty(nodes) && CoordinatesInRange(nodes) && SizesKnown(nodes)
  }

  // ---------------------------------------------------------------------------
  // Lookup: `nodes.find(n => n.id === id)`
  // ---------------------------------------------------------------------------

  /** Index of the first node carrying `id`. */
  function IndexOf(nodes: seq<Node>, id: string): (r: Option<nat>)
    ensures r.None? <==> id !in Ids(nodes)
    ensures r.Some? ==> r.value < |nodes| && nodes[r.value].id == id
    ensures r.Some? ==> forall k :: 0 <= k < r.value ==> nodes[k].id != id
  {
    if nodes == [] then None
    else if nodes[0].id == id then Some(0)
    else
      match IndexOf(nodes[1..], id)
      case None =>
        assert forall k :: 0 <= k < |nodes| ==> nodes[k].id != id by {
          forall k | 0 <= k < |nodes| ensures nodes[k].id != id {
            if k > 0 { assert Ids(nodes[1..])[k - 1] == nodes[k].id; }
          }
        }
        None
      case Some(k) => Some(k + 1)
  }

  /** `Array.prototype.find` by id: the first node with that id, or nothing. */
  function Find(nodes: seq<Node>, id: string): (r: Option<Node>)
    ensures r.None? <==> id !in Ids(nodes)
    ensures r.Some? ==> r.value.id == id && r.value in nodes
    ensures r.Some? ==> exists i :: 0 <= i < |nodes| && nodes[i] == r.value && forall k :: 0 <= k < i ==> nodes[k].id != id
  {
    match IndexOf(nodes, id)
    case None => None
    case Some(i) => Some(nodes[i])
  }

  /** With unique ids, `find` returns the node at the index carrying the id. */
  lemma FindUnique(nodes: seq<Node>, i: nat)
    requires IdsDistinct(nodes) && i < |nodes|
    ensures Find(nodes, nodes[i].id) == Some(nodes[i])
  {
    assert Ids(nodes)[i] == nodes[i].id;
  }

  // ---------------------------------------------------------------------------
  // Edge derivation
  // ---------------------------------------------------------------------------

  /** One drawn line: React key parts, both end points in percent, and whether
      the panel attaches its decorative arrowhead marker. */
  datatype Segment = Segment(source: string, target: string, x1: int, y1: int, x2: int, y2: int, arrowhead: bool)

  /** The React key `${node.id}-${connId}`: the source id, a dash, the target id. */
  function Key(s: Segment): (r: string)
    ensures |r| == |s.source| + 1 + |s.target|
    ensures r[..|s.source|] == s.source && r[|s.source|] == '-' && r[|s.source| + 1..] == s.target
  {
    s.source + "-" + s.target
  }

  /** The segments of node `n` for the connection ids `conns`, in order; an id
      that `find` does not resolve yields nothing. */
  function SegmentsFrom(all: seq<Node>, n: Node, conns: seq<string>, arrowheads: bool): (r: seq<Segment>)
    ensures |r| <= |conns|
    ensures forall k :: 0 <= k < |r| ==> r[k].source == n.id && r[k].x1 == n.x && r[k].y1 == n.y && r[k].arrowhead == arrowheads
  {
    if conns == [] then []
    else
      var rest := SegmentsFrom(all, n, conns[1..], arrowheads);
      match Find(all, conns[0])
      case None => rest
      case Some(t) => [Segment(n.id, conns[0], n.x, n.y, t.x, t.y, arrowheads)] + rest
  }

  /** The nested `nodes.map(node => node.connections.map(...))`: node order, then
      connection order, looked up in `all`. */
  function SegmentsOf(all: seq<Node>, ns: seq<Node>, arrowheads: bool): (r: seq<Segment>)
    ensures |r| <= TotalConnections(ns)
    ensures forall k :: 0 <= k < |r| ==> r[k].arrowhead == arrowheads
  {
    if ns == [] then []
    else SegmentsFrom(all, ns[0], ns[0].connections, arrowheads) + SegmentsOf(all, ns[1..], arrowheads)
  }

  /** All segments a panel draws for its dataset. */
  function Segments(nodes: seq<Node>, arrowheads: bool): (r: seq<Segment>)
    ensures |r| <= TotalConnections(nodes)
    ensures forall k :: 0 <= k < |r| ==> r[k].arrowhead == arrowheads
  {
    SegmentsOf(nodes, nodes, arrowheads)
  }

  /** Sum of the lengths of all `connections` lists. */
  function TotalConnections(ns: seq<Node>): nat {
    if ns == [] then 0 else |ns[0].connections| + TotalConnections(ns[1..])
  }

  /** How many of `conns` name no node of `all`. */
  function UnresolvedIn(all: seq<Node>, conns: seq<string>): nat {
    if conns == [] then 0
    else (if conns[0] in Ids(all) then 0 else 1) + UnresolvedIn(all, conns[1..])
  }

  function UnresolvedOf(all: seq<Node>, ns: seq<Node>): nat {
    if ns == [] then 0 else UnresolvedIn(all, ns[0].connections) + UnresolvedOf(all, ns[1..])
  }

  /** `s` is a line of node `n`: it starts at `n`, ends at the node `find`
      returns for one of `n`'s connection ids, and carries the panel's marker. */
  ghost predicate DrawnFrom(all: seq<Node>, n: Node, s: Segment, arrowheads: bool) {
    && s.source == n.id && s.x1 == n.x && s.y1 == n.y
    && s.target in n.connections
    && Find(all, s.target).Some?
    && s.x2 == Find(all, s.target).value.x && s.y2 == Find(all, s.target).value.y
    && s.arrowhead == arrowheads
  }

  lemma {:induction false} SegmentsFromSound(all: seq<Node>, n: Node, conns: seq<string>, arrowheads: bool)
    requires forall c :: c in conns ==> c in n.connections
    ensures forall s :: s in SegmentsFrom(all, n, conns, arrowheads) ==> DrawnFrom(all, n, s, arrowheads)
  {
    if conns != [] {
      SegmentsFromSound(all, n, conns[1..], arrowheads);
    }
  }

  /** Every drawn segment comes from a declared connection whose target exists. */
  lemma {:induction false} SegmentsSound(all: seq<Node>, ns: seq<Node>, arrowheads: bool)
    ensures forall s :: s in SegmentsOf(all, ns, arrowheads) ==> exists n :: n in ns && DrawnFrom(all, n, s, arrowheads)
  {
    if ns != [] {
      SegmentsFromSound(all, ns[0], ns[0].connections, arrowheads);
      SegmentsSound(all, ns[1..], arrowheads);
      forall s | s in SegmentsOf(all, ns, arrowheads)
        ensures exists n :: n in ns && DrawnFrom(all, n, s, arrowheads)
      {
        if s in SegmentsFrom(all, ns[0], ns[0].connections, arrowheads) {
          assert DrawnFrom(all, ns[0], s, arrowheads);
        } else {
          assert s in SegmentsOf(all, ns[1..], arrowheads);
          var n :| n in ns[1..] && DrawnFrom(all, n, s, arrowheads);
          assert n in ns;
        }
      }
    }
  }

  /** A connection id that names no node produces no segment and no error. */
  lemma DanglingDrawsNothing(all: seq<Node>, ns: seq<Node>, arrowheads: bool, id: string)
    requires id !in Ids(all)
    ensures forall s :: s in SegmentsOf(all, ns, arrowheads) ==> s.target != id
  {
    SegmentsSound(all, ns, arrowheads);
  }

  lemma {:induction false} SegmentsFromAppend(all: seq<Node>, n: Node, xs: seq<string>, ys: seq<string>, arrowheads: bool)
    ensures SegmentsFrom(all, n, xs + ys, arrowheads) == SegmentsFrom(all, n, xs, arrowheads) + SegmentsFrom(all, n, ys, arrowheads)
  {
    if xs == [] {
      assert xs + ys == ys;
    } else {
      assert (xs + ys)[0] == xs[0] && (xs + ys)[1..] == xs[1..] + ys;
      SegmentsFromAppend(all, n, xs[1..], ys, arrowheads);
    }
  }

  lemma {:induction false} SegmentsOfAppend(all: seq<Node>, xs: seq<Node>, ys: seq<Node>, arrowheads: bool)
    ensures SegmentsOf(all, xs + ys, arrowheads) == SegmentsOf(all, xs, arrowheads) + SegmentsOf(all, ys, arrowheads)
  {
    if xs == [] {
      assert xs + ys == ys;
    } else {
      assert (xs + ys)[0] == xs[0] && (xs + ys)[1..] == xs[1..] + ys;
      SegmentsOfAppend(all, xs[1..], ys, arrowheads);
    }
  }

  /** Completeness and order: the connection `j` of node `i`, when it resolves,
      is drawn at the position right after the segments of all earlier nodes
      and of this node's earlier connections. */
  lemma SegmentsComplete(all: seq<Node>, ns: seq<Node>, arrowheads: bool, i: nat, j: nat)
    requires i < |ns| && j < |ns[i].connections|
    requires ns[i].connections[j] in Ids(all)
    ensures var k := |SegmentsOf(all, ns[..i], arrowheads)| + |SegmentsFrom(all, ns[i], ns[i].connections[..j], arrowheads)|;
      && k < |SegmentsOf(all, ns, arrowheads)|
      && SegmentsOf(all, ns, arrowheads)[k].source == ns[i].id
      && SegmentsOf(all, ns, arrowheads)[k].target == ns[i].connections[j]
  {
    var n := ns[i];
    assert ns == ns[..i] + ([n] + ns[i + 1..]);
    SegmentsOfAppend(all, ns[..i], [n] + ns[i + 1..], arrowheads);
    assert ([n] + ns[i + 1..])[1..] == ns[i + 1..];
    SegmentsFromComplete(all, n, n.connections, arrowheads, j);
  }

  /** The one-node half of `SegmentsComplete`. */
  lemma SegmentsFromComplete(all: seq<Node>, n: Node, conns: seq<string>, arrowheads: bool, j: nat)
    requires j < |conns| && conns[j] in Ids(all)
    ensures var k := |SegmentsFrom(all, n, conns[..j], arrowheads)|;
      && k < |SegmentsFrom(all, n, conns, arrowheads)|
      && SegmentsFrom(all, n, conns, arrowheads)[k].source == n.id
      && SegmentsFrom(all, n, conns, arrowheads)[k].target == conns[j]
  {
    assert conns == conns[..j] + conns[j..];
    SegmentsFromAppend(all, n, conns[..j], conns[j..], arrowheads);
    assert conns[j..][0] == conns[j];
    assert Find(all, conns[j]).Some?;
  }

  /** Each resolving (node, connection) pair is drawn once and nothing else is:
      the segment count is the connection count less the unresolved ids. */
  lemma {:induction false} SegmentsFromCount(all: seq<Node>, n: Node, conns: seq<string>, arrowheads: bool)
    ensures |SegmentsFrom(all, n, conns, arrowheads)| + UnresolvedIn(all, conns) == |conns|
  {
    if conns != [] {
      SegmentsFromCount(all, n, conns[1..], arrowheads);
    }
  }

  lemma {:induction false} SegmentsCount(all: seq<Node>, ns: seq<Node>, arrowheads: bool)
    ensures |SegmentsOf(all, ns, arrowheads)| + UnresolvedOf(all, ns) == TotalConnections(ns)
  {
    if ns != [] {
      SegmentsFromCount(all, ns[0], ns[0].connections, arrowheads);
      SegmentsCount(all, ns[1..], arrowheads);
    }
  }

  lemma {:induction false} ResolvedConnsCountNothing(all: seq<Node>, conns: seq<string>)
    requires forall j :: 0 <= j < |conns| ==> conns[j] in Ids(all)
    ensures UnresolvedIn(all, conns) == 0
  {
    if conns != [] {
      assert conns[0] in Ids(all);
      ResolvedConnsCountNothing(all, conns[1..]);
    }
  }

  lemma {:induction false} AllResolveCountsNothing(all: seq<Node>, ns: seq<Node>)
    requires AllResolve(all, ns)
    ensures UnresolvedOf(all, ns) == 0
  {
    if ns != [] {
      ResolvedConnsCountNothing(all, ns[0].connections);
      assert AllResolve(all, ns[1..]) by {
        forall i, j | 0 <= i < |ns[1..]| && 0 <= j < |ns[1..][i].connections|
          ensures ns[1..][i].connections[j] in Ids(all)
        {
          assert ns[1..][i] == ns[i + 1];
        }
      }
      AllResolveCountsNothing(all, ns[1..]);
    }
  }

  /** When every connection resolves, one segment is drawn per declared id. */
  lemma AllResolveDrawsEvery(nodes: seq<Node>, arrowheads: bool)
    requires AllResolve(nodes, nodes)
    ensures |Segments(nodes, arrowheads)| == TotalConnections(nodes)
  {
    AllResolveCountsNothing(nodes, nodes);
    SegmentsCount(nodes, nodes, arrowheads);
  }

  lemma {:induction false} OneUnresolvedIn(all: seq<Node>, conns: seq<string>, j0: nat)
    requires j0 < |conns| && conns[j0] !in Ids(all)
    requires forall j :: 0 <= j < |conns| && j != j0 ==> conns[j] in Ids(all)
    ensures UnresolvedIn(all, conns) == 1
  {
    if j0 == 0 {
      ResolvedConnsCountNothing(all, conns[1..]);
    } else {
      assert conns[0] in Ids(all);
      OneUnresolvedIn(all, conns[1..], j0 - 1);
    }
  }

  lemma {:induction false} OneUnresolvedOf(all: seq<Node>, ns: seq<Node>, i0: nat, j0: nat)
    requires i0 < |ns| && j0 < |ns[i0].connections| && ns[i0].connections[j0] !in Ids(all)
    requires forall i, j :: 0 <= i < |ns| && 0 <= j < |ns[i].connections| && (i, j) != (i0, j0) ==> ns[i].connections[j] in Ids(all)
    ensures UnresolvedOf(all, ns) == 1
  {
    if i0 == 0 {
      OneUnresolvedIn(all, ns[0].connections, j0);
      assert AllResolve(all, ns[1..]) by {
        forall i, j | 0 <= i < |ns[1..]| && 0 <= j < |ns[1..][i].connections|
          ensures ns[1..][i].connections[j] in Ids(all)
        {
          assert ns[1..][i] == ns[i + 1];
        }
      }
      AllResolveCountsNothing(all, ns[1..]);
    } else {
      ResolvedConnsCountNothing(all, ns[0].connections);
      forall i, j | 0 <= i < |ns[1..]| && 0 <= j < |ns[1..][i].connections| && (i, j) != (i0 - 1, j0)
        ensures ns[1..][i].connections[j] in Ids(all)
      {
        assert ns[1..][i] == ns[i + 1];
      }
      OneUnresolvedOf(all, ns[1..], i0 - 1, j0);
    }
  }

  /** A dataset with exactly one unresolved connection draws one segment fewer
      than it declares. */
  lemma OneDanglingDrawsOneFewer(nodes: seq<Node>, arrowheads: bool, i0: nat, j0: nat)
    requires i0 < |nodes| && j0 < |nodes[i0].connections| && nodes[i0].connections[j0] !in Ids(nodes)
    requires forall i, j :: 0 <= i < |nodes| && 0 <= j < |nodes[i].connections| && (i, j) != (i0, j0) ==> nodes[i].connections[j] in Ids(nodes)
    ensures |Segments(nodes, arrowheads)| + 1 == TotalConnections(nodes)
  {
    OneUnresolvedOf(nodes, nodes, i0, j0);
    SegmentsCount(nodes, nodes, arrowheads);
  }

  /** The line for connection `i` of node `a` sits at the position
      `SegmentsComplete` names and is keyed by the two ids. */
  lemma KeyedAt(nodes: seq<Node>, arrowheads: bool, a: nat, i: nat) returns (k: nat)
    requires a < |nodes| && i < |nodes[a].connections| && nodes[a].connections[i] in Ids(nodes)
    ensures k < |Segments(nodes, arrowheads)|
    ensures Segments(nodes, arrowheads)[k].source == nodes[a].id
    ensures Key(Segments(nodes, arrowheads)[k]) == nodes[a].id + "-" + nodes[a].connections[i]
  {
    SegmentsComplete(nodes, nodes, arrowheads, a, i);
    k := |SegmentsOf(nodes, nodes[..a], arrowheads)| + |SegmentsFrom(nodes, nodes[a], nodes[a].connections[..i], arrowheads)|;
    var s := Segments(nodes, arrowheads)[k];
    assert s.source == nodes[a].id && s.target == nodes[a].connections[i];
    assert Key(s) == s.source + "-" + s.target;
  }

  /** Edges are not merged by node pair: when `a` lists `b` and `b` lists `a`,
      two distinct segments are drawn, keyed `a-b` and `b-a`. */
  lemma MutualDrawsTwo(nodes: seq<Node>, arrowheads: bool, a: nat, i: nat, b: nat, j: nat)
    requires a < |nodes| && b < |nodes| && nodes[a].id != nodes[b].id
    requires i < |nodes[a].connections| && nodes[a].connections[i] == nodes[b].id
    requires j < |nodes[b].connections| && nodes[b].connections[j] == nodes[a].id
    ensures exists k1, k2 ::
      && 0 <= k1 < |Segments(nodes, arrowheads)| && 0 <= k2 < |Segments(nodes, arrowheads)| && k1 != k2
      && Key(Segments(nodes, arrowheads)[k1]) == nodes[a].id + "-" + nodes[b].id
      && Key(Segments(nodes, arrowheads)[k2]) == nodes[b].id + "-" + nodes[a].id
  {
    assert Ids(nodes)[a] == nodes[a].id && Ids(nodes)[b] == nodes[b].id;
    var k1 := KeyedAt(nodes, arrowheads, a, i);
    var k2 := KeyedAt(nodes, arrowheads, b, j);
  }

  lemma {:induction false} ArrowheadFromDecorates(all: seq<Node>, n: Node, conns: seq<string>)
    ensures |SegmentsFrom(all, n, conns, true)| == |SegmentsFrom(all, n, conns, false)|
    ensures forall k :: 0 <= k < |SegmentsFrom(all, n, conns, true)| ==>
      SegmentsFrom(all, n, conns, true)[k] == SegmentsFrom(all, n, conns, false)[k].(arrowhead := true)
  {
    if conns != [] {
      ArrowheadFromDecorates(all, n, conns[1..]);
    }
  }

  /** The arrowhead marker only decorates: with or without it the same
      segments are drawn, in the same order. */
  lemma {:induction false} ArrowheadDecorates(all: seq<Node>, ns: seq<Node>)
    ensures |SegmentsOf(all, ns, true)| == |SegmentsOf(all, ns, false)|
    ensures forall k :: 0 <= k < |SegmentsOf(all, ns, true)| ==>
      SegmentsOf(all, ns, true)[k] == SegmentsOf(all, ns, false)[k].(arrowhead := true)
  {
    if ns != [] {
      ArrowheadFromDecorates(all, ns[0], ns[0].connections);
      ArrowheadDecorates(all, ns[1..]);
    }
  }

  // ---------------------------------------------------------------------------
  // Edge emphasis
  // ---------------------------------------------------------------------------

  datatype EdgeTier = Highlighted | SelectedAdjacent | Plain

  /** `isHighlighted` (the hovered id is an end point) wins over `isSelected`
      (the selected id is an end point). */
  function TierOf(hovered: Option<string>, selected: Option<string>, s: Segment): (r: EdgeTier)
    ensures r == Highlighted <==> hovered == Some(s.source) || hovered == Some(s.target)
    ensures r == SelectedAdjacent <==>
      !(hovered == Some(s.source) || hovered == Some(s.target)) && (selected == Some(s.source) || selected == Some(s.target))
    ensures r == Plain <==> hovered !in {Some(s.source), Some(s.target)} && selected !in {Some(s.source), Some(s.target)}
  {
    if hovered == Some(s.source) || hovered == Some(s.target) then Highlighted
    else if selected == Some(s.source) || selected == Some(s.target) then SelectedAdjacent
    else Plain
  }

  /** Stroke attributes of a line: width in px, opacity in tenths, dashed or solid. */
  datatype Stroke = Stroke(width: nat, opacityTenths: nat, dashed: bool)

  /** strokeWidth 2/1, opacity 0.6/0.4/0.2, dash "0"/"5,5". */
  function StrokeOf(t: EdgeTier): (r: Stroke)
    ensures r.width == 2 <==> t == Highlighted
    ensures r.width == 1 <==> t != Highlighted
    ensures r.dashed <==> t != Highlighted
    ensures r.opacityTenths == 6 <==> t == Highlighted
    ensures r.opacityTenths == 4 <==> t == SelectedAdjacent
    ensures r.opacityTenths == 2 <==> t == Plain
  {
    match t
    case Highlighted => Stroke(2, 6, false)
    case SelectedAdjacent => Stroke(1, 4, true)
    case Plain => Stroke(1, 2, true)
  }

  /** Opacity falls strictly from highlighted to selected-adjacent to plain. */
  lemma OpacityOrdered()
    ensures StrokeOf(Highlighted).opacityTenths == 6 && StrokeOf(SelectedAdjacent).opacityTenths == 4 && StrokeOf(Plain).opacityTenths == 2
    ensures StrokeOf(Highlighted).opacityTenths > StrokeOf(SelectedAdjacent).opacityTenths > StrokeOf(Plain).opacityTenths
  {
  }

  /** Once the pointer has left every node, no segment is highlighted, and the
      segments touching the selected node are exactly the ones drawn at the
      middle opacity. */
  lemma NoHoverNoHighlight(selected: Option<string>, segs: seq<Segment>)
    ensures forall s :: s in segs ==> TierOf(None, selected, s) != Highlighted
    ensures forall s :: s in segs ==>
      (StrokeOf(TierOf(None, selected, s)).opacityTenths == 4 <==> selected.Some? && selected.value in {s.source, s.target})
  {
  }

  // ---------------------------------------------------------------------------
  // Node emphasis and size
  // ---------------------------------------------------------------------------

  datatype SizeClass = LargeClass | MediumClass | SmallClass

  /** `getSizeClass`: large, medium and small map to their classes; any other
      string gets the medium class. */
  function SizeClassOf(size: string): (r: SizeClass)
    ensures r == LargeClass <==> size == "large"
    ensures r == SmallClass <==> size == "small"
    ensures r == MediumClass <==> !(size == "large" || size == "small")
  {
    if size == "large" then LargeClass
    else if size == "medium" then MediumClass
    else if size == "small" then SmallClass
    else MediumClass
  }

  datatype NodeLook = SelectedLook | HoveredLook | PlainLook

  /** What one node shows: its fill and shadow, its size class, whether its
      label is visible, its pulse ring (present on large nodes only; `Some(true)`
      when it animates) and the selection dot. */
  datatype NodeView = NodeView(look: NodeLook, sizeClass: SizeClass, labelShown: bool, pulse: Option<bool>, dot: bool)

  function ViewOf(n: Node, hovered: Option<string>, selected: Option<string>): (r: NodeView)
    ensures r.look == SelectedLook <==> selected == Some(n.id)
    ensures r.look == HoveredLook <==> selected != Some(n.id) && hovered == Some(n.id)
    ensures r.labelShown <==> hovered == Some(n.id) || selected == Some(n.id)
    ensures r.labelShown <==> r.look != PlainLook
    ensures r.pulse.Some? <==> n.size == "large"
    ensures r.pulse.Some? ==> (r.pulse.value <==> r.labelShown)
    ensures r.dot <==> selected == Some(n.id)
    ensures r.sizeClass == SizeClassOf(n.size)
  {
    var look := if selected == Some(n.id) then SelectedLook
                else if hovered == Some(n.id) then HoveredLook
                else PlainLook;
    var emphasized := hovered == Some(n.id) || selected == Some(n.id);
    NodeView(look, SizeClassOf(n.size), emphasized, if n.size == "large" then Some(emphasized) else None, selected == Some(n.id))
  }

  /** With unique ids at most one node carries the selection look and dot, and
      at most one other node the hover look. */
  lemma {:induction false} AtMostOneSelected(nodes: seq<Node>, hovered: Option<string>, selected: Option<string>, i: nat, j: nat)
    requires IdsDistinct(nodes) && i < |nodes| && j < |nodes| && i != j
    ensures !(ViewOf(nodes[i], hovered, selected).dot && ViewOf(nodes[j], hovered, selected).dot)
    ensures !(ViewOf(nodes[i], hovered, selected).look == HoveredLook && ViewOf(nodes[j], hovered, selected).look == HoveredLook)
  {
    if i < j {
      assert nodes[i].id != nodes[j].id;
    } else {
      assert nodes[j].id != nodes[i].id;
    }
  }

  // ---------------------------------------------------------------------------
  // Detail panel
  // ---------------------------------------------------------------------------

  /** The panel's title (the `?.label` of the found node) and whether one of
      the hand-written body blocks matches the selected id. */
  datatype Detail = Detail(title: Option<string>, hasBody: bool)

  /** The panel renders under `selectedNode && ...`, so an empty id, which is
      falsy, shows no panel. */
  function DetailOf(nodes: seq<Node>, bodyIds: seq<string>, selected: Option<string>): (r: Option<Detail>)
    ensures r.Some? <==> selected.Some? && selected.value != ""
    ensures r.Some? ==> (r.value.hasBody <==> selected.value in bodyIds)
    ensures r.Some? ==> (r.value.title.Some? <==> selected.value in Ids(nodes))
    ensures r.Some? && r.value.title.Some? ==>
      exists i :: 0 <= i < |nodes| && nodes[i].id == selected.value && nodes[i].caption == r.value.title.value
  {
    match selected
    case None => None
    case Some(id) =>
      if id == "" then None
      else
        var title := match Find(nodes, id) case None => None case Some(n) => Some(n.caption);
        Some(Detail(title, id in bodyIds))
  }

  /** With unique ids the title is the label of the node carrying the id,
      unless that id is empty and no panel shows. */
  lemma DetailTitle(nodes: seq<Node>, bodyIds: seq<string>, i: nat)
    requires IdsDistinct(nodes) && i < |nodes|
    ensures DetailOf(nodes, bodyIds, Some(nodes[i].id))
      == if nodes[i].id == "" then None else Some(Detail(Some(nodes[i].caption), nodes[i].id in bodyIds))
  {
    FindUnique(nodes, i);
  }

  /** In a well-formed dataset selecting any node shows its panel, titled
      with its label. */
  lemma DetailShown(nodes: seq<Node>, bodyIds: seq<string>, i: nat)
    requires WellFormed(nodes) && i < |nodes|
    ensures DetailOf(nodes, bodyIds, Some(nodes[i].id)) == Some(Detail(Some(nodes[i].caption), nodes[i].id in bodyIds))
  {
    DetailTitle(nodes, bodyIds, i);
  }

  // ---------------------------------------------------------------------------
  // Toggles and the metric trend colour
  // ---------------------------------------------------------------------------

  /** `cur === id ? null : id`, the update both node clicks and card clicks use. */
  function Toggle(cur: Option<string>, id: string): (r: Option<string>)
    ensures r.None? <==> cur == Some(id)
    ensures r.Some? ==> r.value == id
  {
    if cur == Some(id) then None else Some(id)
  }

  /** Clicking the same id twice restores the state from before, provided
      nothing or that same id was current. */
  lemma ToggleTwiceRestores(cur: Option<string>, id: string)
    requires cur == None || cur == Some(id)
    ensures Toggle(Toggle(cur, id), id) == cur
  {
  }

  /** From another current id, two clicks on `id` leave nothing current: the
      first replaces the old id, the second clears. */
  lemma ToggleTwiceFromOther(other: string, id: string)
    requires other != id
    ensures Toggle(Some(other), id) == Some(id)
    ensures Toggle(Toggle(Some(other), id), id) == None
  {
  }

  datatype TrendColor = Green | Red | Gray

  /** `trend.startsWith('+')` green, else `startsWith('-')` red, else gray. */
  function TrendColorOf(trend: string): (r: TrendColor)
    ensures r == Green <==> |trend| > 0 && trend[0] == '+'
    ensures r == Red <==> |trend| > 0 && trend[0] == '-'
    ensures r == Gray <==> trend == [] || (trend[0] != '+' && trend[0] != '-')
  {
    if |trend| > 0 && trend[0] == '+' then Green
    else if |trend| > 0 && trend[0] == '-' then Red
    else Gray
  }

  // ---------------------------------------------------------------------------
  // Entry stagger
  // ---------------------------------------------------------------------------

  /** The `animationDelay` of the node at `index`, in ms. Segments carry no delay. */
  function EntryDelay(index: nat): (r: nat)
    ensures r % 100 == 0 && r / 100 == index
  {
    index * 100
  }

  /** How many nodes of an `n`-node dataset have started their entry animation
      at `t` ms after mount: always a prefix in dataset order. */
  function StartedCount(n: nat, t: int): (r: nat)
    ensures r <= n
    ensures forall i :: 0 <= i < n ==> (i < r <==> EntryDelay(i) <= t)
  {
    if t < 0 then 0
    else if t / 100 + 1 < n then t / 100 + 1
    else n
  }

  // ---------------------------------------------------------------------------
  // One mounted panel and its handlers
  // ---------------------------------------------------------------------------

  /** What distinguishes one panel from another: its dataset, the ids with a
      detail body, its use-case cards and whether its lines carry arrowheads. */
  datatype PanelConfig = PanelConfig(nodes: seq<Node>, bodyIds: seq<string>, cardIds: seq<string>, arrowheads: bool)

  /** The state one mounted panel keeps, updated by its handlers. */
  class Panel {
    const nodes: seq<Node>
    const bodyIds: seq<string>
    const cardIds: seq<string>
    const arrowheads: bool
    var hoveredNode: Option<string>
    var selectedNode: Option<string>
    var expandedCard: Option<string>

    /** Only per-node handlers set hover and selection, only card handlers
        set the expanded card. */
    ghost predicate Valid()
      reads this
    {
      && (hoveredNode.Some? ==> hoveredNode.value in Ids(nodes))
      && (selectedNode.Some? ==> selectedNode.value in Ids(nodes))
      && (expandedCard.Some? ==> expandedCard.value in cardIds)
    }

    /** Mounting: the three `useState(null)` slots. */
    constructor (config: PanelConfig)
      ensures Valid()
      ensures PanelConfig(nodes, bodyIds, cardIds, arrowheads) == config
      ensures hoveredNode == None && selectedNode == None && expandedCard == None
    {
      nodes, bodyIds, cardIds, arrowheads := config.nodes, config.bodyIds, config.cardIds, config.arrowheads;
      hoveredNode, selectedNode, expandedCard := None, None, None;
    }

    /** `onMouseEnter` of the node at index `i`. */
    method MouseEnter(i: nat)
      requires Valid() && i < |nodes|
      modifies this`hoveredNode
      ensures Valid()
      ensures hoveredNode == Some(nodes[i].id)
    {
      assert Ids(nodes)[i] == nodes[i].id;
      hoveredNode := Some(nodes[i].id);
    }

    /** `onMouseLeave` of the node at index `i`: clears the hover whichever node
        is hovered, even one the pointer entered after leaving `i`. */
    method MouseLeave(i: nat)
      requires Valid() && i < |nodes|
      modifies this`hoveredNode
      ensures Valid()
      ensures hoveredNode == None
    {
      hoveredNode := None;
    }

    /** `onClick` of the node at index `i`. */
    method Click(i: nat)
      requires Valid() && i < |nodes|
      modifies this`selectedNode
      ensures Valid()
      ensures selectedNode == Toggle(old(selectedNode), nodes[i].id)
    {
      assert Ids(nodes)[i] == nodes[i].id;
      selectedNode := Toggle(selectedNode, nodes[i].id);
    }

    /** `onClick` of the use-case card `card`; hover and selection stay as they are. */
    method ClickCard(card: string)
      requires Valid() && card in cardIds
      modifies this`expandedCard
      ensures Valid()
      ensures expandedCard == Toggle(old(expandedCard), card)
    {
      expandedCard := Toggle(expandedCard, card);
    }

    /** The lines as drawn in the current state: each segment with its stroke. */
    function Lines(): (r: seq<(Segment, Stroke)>)
      reads this
      ensures |r| == |Segments(nodes, arrowheads)|
      ensures forall k :: 0 <= k < |r| ==> r[k].0 == Segments(nodes, arrowheads)[k]
      ensures forall k :: 0 <= k < |r| ==> (r[k].1.width == 2 <==> hoveredNode.Some? && hoveredNode.value in {r[k].0.source, r[k].0.target})
      ensures forall k :: 0 <= k < |r| ==> r[k].1 == StrokeOf(TierOf(hoveredNode, selectedNode, r[k].0))
    {
      var segs, h, sel := Segments(nodes, arrowheads), hoveredNode, selectedNode;
      seq(|segs|, k requires 0 <= k < |segs| => (segs[k], StrokeOf(TierOf(h, sel, segs[k]))))
    }

    /** The detail panel in the current state. */
    function Details(): (r: Option<Detail>)
      reads this
      ensures r.Some? <==> selectedNode.Some? && selectedNode.value != ""
      ensures Valid() && r.Some? ==> r.value.title.Some?
    {
      DetailOf(nodes, bodyIds, selectedNode)
    }
  }
}
