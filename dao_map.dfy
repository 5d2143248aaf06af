/**
 * The DAO panel (src/components/DAOMindMap.tsx): its node dataset, the ids whose detail panel has body
 * text, the use-case cards, and the facts about them that the generic model
 * turns into statements about what the panel draws.
 */
module DaoMap {
  import opened Wrappers
  import opened MindMap

  // The entries of the `nodes` array (lines 13-35).
  const Governance: Node := Node("governance", "Governance", 50, 20, "large", ["proposals", "voting", "treasury"])
  const Proposals: Node := Node("proposals", "Proposals", 20, 35, "medium", ["governance", "community", "voting"])
  const Voting: Node := Node("voting", "Voting", 80, 35, "medium", ["governance", "token", "execution"])
  const Community: Node := Node("community", "Community", 15, 60, "large", ["proposals", "treasury", "delegates"])
  const Delegates: Node := Node("delegates", "Delegates", 35, 75, "small", ["community", "voting"])
  const Treasury: Node := Node("treasury", "Treasury", 50, 80, "large", ["governance", "community", "token", "multisig"])
  const Multisig: Node := Node("multisig", "Multi-Sig", 70, 70, "small", ["treasury", "execution"])
  const Token: Node := Node("token", "Token", 85, 60, "large", ["voting", "treasury", "rewards"])
  const Rewards: Node := Node("rewards", "Rewards", 90, 45, "small", ["token", "execution"])
  const Execution: Node := Node("execution", "Execution", 65, 50, "medium", ["voting", "multisig", "rewards"])

  /** The `nodes` array, in source order. */
  const Nodes: seq<Node> := [Governance, Proposals, Voting, Community, Delegates, Treasury, Multisig, Token, Rewards, Execution]

  /** The ids with a hand-written detail body (lines 168-207). */
  const BodyIds: seq<string> := ["governance", "treasury", "community", "token"]

  /** The ids of the use-case cards that toggle `expandedCard` (lines 259, 291, 323). */
  const CardIds: seq<string> := ["community", "token", "digital"]

  /** Whether the lines carry the `markerEnd` arrowhead. */
  const Arrowheads: bool := false

  /** The panel as the generic model sees it. */
  function Config(): PanelConfig {
    PanelConfig(Nodes, BodyIds, CardIds, Arrowheads)
  }

  lemma IdsAre()
    ensures Ids(Nodes) == ["governance", "proposals", "voting", "community", "delegates", "treasury", "multisig", "token", "rewards", "execution"]
  {
  }

  lemma IdsUnique()
    ensures IdsDistinct(Nodes)
  {
  }

  lemma IdsNotBlank()
    ensures IdsNonEmpty(Nodes)
  {
  }

  lemma CoordinatesOnCanvas()
    ensures CoordinatesInRange(Nodes)
  {
  }

  lemma SizesNamed()
    ensures SizesKnown(Nodes)
  {
  }

  /** Ids are unique and non-empty, every coordinate lies in [0,100] and
      every size is one the size lookup names. */
  lemma NodesWellFormed()
    ensures WellFormed(Nodes)
  {
    IdsUnique();
    IdsNotBlank();
    CoordinatesOnCanvas();
    SizesNamed();
  }

  /** Every id with a detail body is a node, so every body can be shown. */
  lemma BodiesAreNodes()
    ensures forall b :: b in BodyIds ==> b in Ids(Nodes)
  {
    IdsAre();
  }

  lemma ConnectionsResolve()
    ensures AllResolve(Nodes, Nodes)
  {
    IdsAre();
  }

  /** Every connection id names a node, so one segment is drawn per declared id. */
  lemma EveryConnectionDrawn()
    ensures |Segments(Nodes, Arrowheads)| == TotalConnections(Nodes)
  {
    ConnectionsResolve();
    AllResolveDrawsEvery(Nodes, Arrowheads);
  }

  lemma GovernanceProposalsListed()
    ensures Nodes[0].id == "governance" && Nodes[0].connections[0] == "proposals"
    ensures Nodes[1].id == "proposals" && Nodes[1].connections[0] == "governance"
  {
  }

  /** governance lists proposals and proposals lists governance: two segments are drawn, keyed
      `governance-proposals` and `proposals-governance`, not merged into one. */
  lemma GovernanceProposalsDrawnTwice()
    ensures exists k1, k2 ::
      && 0 <= k1 < |Segments(Nodes, Arrowheads)| && 0 <= k2 < |Segments(Nodes, Arrowheads)| && k1 != k2
      && Key(Segments(Nodes, Arrowheads)[k1]) == "governance-proposals"
      && Key(Segments(Nodes, Arrowheads)[k2]) == "proposals-governance"
  {
    GovernanceProposalsListed();
    assert "governance" + "-" + "proposals" == "governance-proposals";
    assert "proposals" + "-" + "governance" == "proposals-governance";
    MutualDrawsTwo(Nodes, Arrowheads, 0, 0, 1, 0);
  }
}
