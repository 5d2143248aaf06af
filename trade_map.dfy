/**
 * The Trade panel (src/components/TradeMindMap.tsx): its node dataset, the ids whose detail panel has body
 * text, the use-case cards, and the facts about them that the generic model
 * turns into statements about what the panel draws.
 */
module TradeMap {
  import opened Wrappers
  import opened MindMap

  // The entries of the `nodes` array (lines 13-42).
  const Spot: Node := Node("spot", "Spot Trading", 20, 20, "large", ["orderbook", "market", "limit"])
  const Futures: Node := Node("futures", "Futures", 80, 20, "large", ["leverage", "margin", "funding"])
  const Options: Node := Node("options", "Options", 20, 80, "large", ["calls", "puts", "greeks"])
  const Perpetual: Node := Node("perpetual", "Perpetual", 80, 80, "large", ["funding", "leverage", "liquidation"])
  const Orderbook: Node := Node("orderbook", "Order Book", 10, 35, "medium", ["spot", "market", "limit"])
  const Market: Node := Node("market", "Market Orders", 30, 35, "small", ["spot", "orderbook"])
  const Limit: Node := Node("limit", "Limit Orders", 20, 50, "small", ["spot", "orderbook"])
  const Leverage: Node := Node("leverage", "Leverage", 70, 35, "medium", ["futures", "perpetual", "margin"])
  const Margin: Node := Node("margin", "Margin", 90, 35, "medium", ["futures", "leverage", "liquidation"])
  const Funding: Node := Node("funding", "Funding Rate", 80, 50, "small", ["futures", "perpetual"])
  const Calls: Node := Node("calls", "Call Options", 10, 65, "small", ["options", "greeks"])
  const Puts: Node := Node("puts", "Put Options", 30, 65, "small", ["options", "greeks"])
  const Greeks: Node := Node("greeks", "Greeks", 20, 95, "small", ["options", "calls", "puts"])
  const Liquidation: Node := Node("liquidation", "Liquidation", 90, 65, "medium", ["perpetual", "margin"])
  const Portfolio: Node := Node("portfolio", "Portfolio", 50, 50, "large", ["risk", "pnl", "analytics"])
  const Risk: Node := Node("risk", "Risk Mgmt", 40, 65, "medium", ["portfolio", "stop"])
  const Pnl: Node := Node("pnl", "P&L", 60, 65, "medium", ["portfolio", "analytics"])
  const Analytics: Node := Node("analytics", "Analytics", 50, 35, "medium", ["portfolio", "pnl"])
  const Stop: Node := Node("stop", "Stop Loss", 40, 80, "small", ["risk"])

  /** The `nodes` array, in source order. */
  const Nodes: seq<Node> := [Spot, Futures, Options, Perpetual, Orderbook, Market, Limit, Leverage, Margin, Funding, Calls, Puts, Greeks, Liquidation, Portfolio, Risk, Pnl, Analytics, Stop]

  /** The ids with a hand-written detail body (lines 176-215). */
  const BodyIds: seq<string> := ["spot", "futures", "portfolio", "analytics"]

  /** The ids of the use-case cards that toggle `expandedCard` (lines 267, 299, 331). */
  const CardIds: seq<string> := ["business-account", "tax-free", "loss-recovery"]

  /** Whether the lines carry the `markerEnd` arrowhead. */
  const Arrowheads: bool := true

  /** The panel as the generic model sees it. */
  function Config(): PanelConfig {
    PanelConfig(Nodes, BodyIds, CardIds, Arrowheads)
  }

  lemma IdsAre()
    ensures Ids(Nodes) == ["spot", "futures", "options", "perpetual", "orderbook", "market", "limit", "leverage", "margin", "funding", "calls", "puts", "greeks", "liquidation", "portfolio", "risk", "pnl", "analytics", "stop"]
  {
  }

  lemma IdsUnique()
    ensures IdsDistinct(Nodes)
  {
  }

  lemma IdsNotBlank()
    ensures IdsNonEmpty(Nodes)
  {
  }

  lemma CoordinatesOnCanvas()
    ensures CoordinatesInRange(Nodes)
  {
  }

  lemma SizesNamed()
    ensures SizesKnown(Nodes)
  {
  }

  /** Ids are unique and non-empty, every coordinate lies in [0,100] and
      every size is one the size lookup names. */
  lemma NodesWellFormed()
    ensures WellFormed(Nodes)
  {
    IdsUnique();
    IdsNotBlank();
    CoordinatesOnCanvas();
    SizesNamed();
  }

  /** Every id with a detail body is a node, so every body can be shown. */
  lemma BodiesAreNodes()
    ensures forall b :: b in BodyIds ==> b in Ids(Nodes)
  {
    IdsAre();
  }

  lemma ConnectionsResolve()
    ensures AllResolve(Nodes, Nodes)
  {
    IdsAre();
  }

  /** Every connection id names a node, so one segment is drawn per declared id. */
  lemma EveryConnectionDrawn()
    ensures |Segments(Nodes, Arrowheads)| == TotalConnections(Nodes)
  {
    ConnectionsResolve();
    AllResolveDrawsEvery(Nodes, Arrowheads);
  }

  lemma SpotOrderbookListed()
    ensures Nodes[0].id == "spot" && Nodes[0].connections[0] == "orderbook"
    ensures Nodes[4].id == "orderbook" && Nodes[4].connections[0] == "spot"
  {
  }

  /** spot lists orderbook and orderbook lists spot: two segments are drawn, keyed
      `spot-orderbook` and `orderbook-spot`, not merged into one. */
  lemma SpotOrderbookDrawnTwice()
    ensures exists k1, k2 ::
      && 0 <= k1 < |Segments(Nodes, Arrowheads)| && 0 <= k2 < |Segments(Nodes, Arrowheads)| && k1 != k2
      && Key(Segments(Nodes, Arrowheads)[k1]) == "spot-orderbook"
      && Key(Segments(Nodes, Arrowheads)[k2]) == "orderbook-spot"
  {
    SpotOrderbookListed();
    assert "spot" + "-" + "orderbook" == "spot-orderbook";
    assert "orderbook" + "-" + "spot" == "orderbook-spot";
    MutualDrawsTwo(Nodes, Arrowheads, 0, 0, 4, 0);
  }

  /** The arrowhead is attached to every drawn line, whatever its tier, and
      removing it would leave the same lines in the same order. */
  lemma ArrowheadOnEveryLine()
    ensures forall s :: s in Segments(Nodes, Arrowheads) ==> s.arrowhead
    ensures |Segments(Nodes, true)| == |Segments(Nodes, false)|
    ensures forall k :: 0 <= k < |Segments(Nodes, true)| ==>
      Segments(Nodes, true)[k] == Segments(Nodes, false)[k].(arrowhead := true)
  {
    SegmentsSound(Nodes, Nodes, Arrowheads);
    ArrowheadDecorates(Nodes, Nodes);
  }
}
