/**
 * The DeFi panel (src/components/DeFiMindMap.tsx): its node dataset, the ids whose detail panel has body
 * text, the use-case cards, and the facts about them that the generic model
 * turns into statements about what the panel draws.
 */
module DefiMap {
  import opened Wrappers
  import opened MindMap

  // The entries of the `nodes` array (lines 13-42).
  const Lending: Node := Node("lending", "Lending", 25, 15, "large", ["collateral", "interest", "liquidation"])
  const Dex: Node := Node("dex", "DEX", 75, 15, "large", ["amm", "liquidity", "fees"])
  const Collateral: Node := Node("collateral", "Collateral", 15, 35, "medium", ["lending", "liquidation"])
  const Interest: Node := Node("interest", "Interest", 35, 35, "small", ["lending", "yield"])
  const Liquidation: Node := Node("liquidation", "Liquidation", 25, 55, "small", ["lending", "collateral"])
  const Amm: Node := Node("amm", "AMM", 85, 35, "medium", ["dex", "liquidity"])
  const Liquidity: Node := Node("liquidity", "Liquidity", 65, 35, "medium", ["dex", "amm", "yield", "fees"])
  const Fees: Node := Node("fees", "Fees", 75, 55, "small", ["dex", "liquidity"])
  const Yield: Node := Node("yield", "Yield Farming", 50, 25, "large", ["interest", "liquidity", "staking", "rewards"])
  const Staking: Node := Node("staking", "Staking", 40, 45, "medium", ["yield", "rewards"])
  const Rewards: Node := Node("rewards", "Rewards", 60, 45, "medium", ["yield", "staking"])
  const Derivatives: Node := Node("derivatives", "Derivatives", 20, 75, "medium", ["options", "futures"])
  const Options: Node := Node("options", "Options", 10, 85, "small", ["derivatives"])
  const Futures: Node := Node("futures", "Futures", 30, 85, "small", ["derivatives"])
  const Insurance: Node := Node("insurance", "Insurance", 80, 75, "medium", ["risk", "coverage"])
  const Risk: Node := Node("risk", "Risk Mgmt", 70, 85, "small", ["insurance"])
  const Coverage: Node := Node("coverage", "Coverage", 90, 85, "small", ["insurance"])

  /** The `nodes` array, in source order. */
  const Nodes: seq<Node> := [Lending, Dex, Collateral, Interest, Liquidation, Amm, Liquidity, Fees, Yield, Staking, Rewards, Derivatives, Options, Futures, Insurance, Risk, Coverage]

  /** The ids with a hand-written detail body (lines 169-208). */
  const BodyIds: seq<string> := ["lending", "dex", "staking", "yield"]

  /** The ids of the use-case cards that toggle `expandedCard` (lines 238, 270, 302). */
  const CardIds: seq<string> := ["wallet", "staking", "reserve"]

  /** Whether the lines carry the `markerEnd` arrowhead. */
  const Arrowheads: bool := false

  /** The panel as the generic model sees it. */
  function Config(): PanelConfig {
    PanelConfig(Nodes, BodyIds, CardIds, Arrowheads)
  }

  lemma IdsAre()
    ensures Ids(Nodes) == ["lending", "dex", "collateral", "interest", "liquidation", "amm", "liquidity", "fees", "yield", "staking", "rewards", "derivatives", "options", "futures", "insurance", "risk", "coverage"]
  {
  }

  lemma IdsUnique()
    ensures IdsDistinct(Nodes)
  {
  }

  lemma IdsNotBlank()
    ensures IdsNonEmpty(Nodes)
  {
  }

  lemma CoordinatesOnCanvas()
    ensures CoordinatesInRange(Nodes)
  {
  }

  lemma SizesNamed()
    ensures SizesKnown(Nodes)
  {
  }

  /** Ids are unique and non-empty, every coordinate lies in [0,100] and
      every size is one the size lookup names. */
  lemma NodesWellFormed()
    ensures WellFormed(Nodes)
  {
    IdsUnique();
    IdsNotBlank();
    CoordinatesOnCanvas();
    SizesNamed();
  }

  /** Every id with a detail body is a node, so every body can be shown. */
  lemma BodiesAreNodes()
    ensures forall b :: b in BodyIds ==> b in Ids(Nodes)
  {
    IdsAre();
  }

  lemma ConnectionsResolve()
    ensures AllResolve(Nodes, Nodes)
  {
    IdsAre();
  }

  /** Every connection id names a node, so one segment is drawn per declared id. */
  lemma EveryConnectionDrawn()
    ensures |Segments(Nodes, Arrowheads)| == TotalConnections(Nodes)
  {
    ConnectionsResolve();
    AllResolveDrawsEvery(Nodes, Arrowheads);
  }

  lemma LendingCollateralListed()
    ensures Nodes[0].id == "lending" && Nodes[0].connections[0] == "collateral"
    ensures Nodes[2].id == "collateral" && Nodes[2].connections[0] == "lending"
  {
  }

  /** lending lists collateral and collateral lists lending: two segments are drawn, keyed
      `lending-collateral` and `collateral-lending`, not merged into one. */
  lemma LendingCollateralDrawnTwice()
    ensures exists k1, k2 ::
      && 0 <= k1 < |Segments(Nodes, Arrowheads)| && 0 <= k2 < |Segments(Nodes, Arrowheads)| && k1 != k2
      && Key(Segments(Nodes, Arrowheads)[k1]) == "lending-collateral"
      && Key(Segments(Nodes, Arrowheads)[k2]) == "collateral-lending"
  {
    LendingCollateralListed();
    assert "lending" + "-" + "collateral" == "lending-collateral";
    assert "collateral" + "-" + "lending" == "collateral-lending";
    MutualDrawsTwo(Nodes, Arrowheads, 0, 0, 2, 0);
  }

  /** The entry stagger covers nodes only: at mount only the first node has
      started, yet the line from lending to collateral (the third node) is
      already drawn; the last node starts at 1600 ms. */
  lemma StaggerIsForNodesOnly()
    ensures StartedCount(|Nodes|, 0) == 1
    ensures exists k :: 0 <= k < |Segments(Nodes, Arrowheads)| && Segments(Nodes, Arrowheads)[k].target == "collateral"
    ensures StartedCount(|Nodes|, 1599) == |Nodes| - 1 && StartedCount(|Nodes|, 1600) == |Nodes|
  {
    LendingToCollateralDrawn();
  }

  lemma CollateralIsNode()
    ensures "collateral" in Ids(Nodes)
  {
    IdsAre();
  }

  lemma LendingToCollateralDrawn()
    ensures exists k :: 0 <= k < |Segments(Nodes, Arrowheads)| && Segments(Nodes, Arrowheads)[k].target == "collateral"
  {
    LendingCollateralListed();
    CollateralIsNode();
    SegmentsComplete(Nodes, Nodes, Arrowheads, 0, 0);
    assert Nodes[..0] == [] && Nodes[0].connections[..0] == [];
    assert Segments(Nodes, Arrowheads)[0].target == "collateral";
  }
}
