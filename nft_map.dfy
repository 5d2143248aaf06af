/**
 * The NFT panel (src/components/NFTMindMap.tsx): its node dataset, the ids whose detail panel has body
 * text, the use-case cards, and the facts about them that the generic model
 * turns into statements about what the panel draws.
 */
module NftMap {
  import opened Wrappers
  import opened MindMap

  // The entries of the `nodes` array (lines 12-41).
  const DigitalArt: Node := Node("digital-art", "Digital Art", 15, 15, "large", ["creation", "marketplace", "royalties"])
  const DigitalProducts: Node := Node("digital-products", "Digital Products", 85, 15, "large", ["utility", "licensing", "distribution"])
  const Certification: Node := Node("certification", "Product Certification", 15, 85, "large", ["verification", "tracking", "authenticity"])
  const Marketplace: Node := Node("marketplace", "NFT Marketplace", 85, 85, "large", ["trading", "auctions", "collections"])
  const Creation: Node := Node("creation", "Art Creation", 25, 30, "medium", ["digital-art", "minting"])
  const Minting: Node := Node("minting", "Minting", 35, 20, "small", ["creation", "metadata"])
  const Metadata: Node := Node("metadata", "Metadata", 15, 35, "small", ["creation", "minting"])
  const Utility: Node := Node("utility", "Utility NFTs", 75, 30, "medium", ["digital-products", "access"])
  const Licensing: Node := Node("licensing", "Licensing", 85, 35, "small", ["digital-products"])
  const Distribution: Node := Node("distribution", "Distribution", 95, 25, "small", ["digital-products"])
  const Access: Node := Node("access", "Access Rights", 75, 45, "small", ["utility"])
  const Verification: Node := Node("verification", "Verification", 25, 70, "medium", ["certification", "blockchain"])
  const Tracking: Node := Node("tracking", "Supply Chain", 15, 65, "small", ["certification"])
  const Authenticity: Node := Node("authenticity", "Authenticity", 35, 80, "small", ["certification", "verification"])
  const Blockchain: Node := Node("blockchain", "Blockchain Proof", 25, 95, "small", ["verification"])
  const Trading: Node := Node("trading", "Trading", 75, 70, "medium", ["marketplace", "pricing"])
  const Auctions: Node := Node("auctions", "Auctions", 95, 75, "small", ["marketplace"])
  const Collections: Node := Node("collections", "Collections", 85, 95, "small", ["marketplace", "trading"])
  const Pricing: Node := Node("pricing", "Dynamic Pricing", 75, 95, "small", ["trading"])

  /** The `nodes` array, in source order. */
  const Nodes: seq<Node> := [DigitalArt, DigitalProducts, Certification, Marketplace, Creation, Minting, Metadata, Utility, Licensing, Distribution, Access, Verification, Tracking, Authenticity, Blockchain, Trading, Auctions, Collections, Pricing]

  /** The ids with a hand-written detail body (lines 174-213). */
  const BodyIds: seq<string> := ["digital-art", "digital-products", "certification", "marketplace"]

  /** The ids of the use-case cards that toggle `expandedCard` (lines 267, 299, 331). */
  const CardIds: seq<string> := ["digital-art", "digital-products", "certification"]

  /** Whether the lines carry the `markerEnd` arrowhead. */
  const Arrowheads: bool := false

  /** The panel as the generic model sees it. */
  function Config(): PanelConfig {
    PanelConfig(Nodes, BodyIds, CardIds, Arrowheads)
  }

  lemma IdsAre()
    ensures Ids(Nodes) == ["digital-art", "digital-products", "certification", "marketplace", "creation", "minting", "metadata", "utility", "licensing", "distribution", "access", "verification", "tracking", "authenticity", "blockchain", "trading", "auctions", "collections", "pricing"]
  {
  }

  lemma IdsUnique()
    ensures IdsDistinct(Nodes)
  {
  }

  lemma IdsNotBlank()
    ensures IdsNonEmpty(Nodes)
  {
  }

  lemma CoordinatesOnCanvas()
    ensures CoordinatesInRange(Nodes)
  {
  }

  lemma SizesNamed()
    ensures SizesKnown(Nodes)
  {
  }

  /** Ids are unique and non-empty, every coordinate lies in [0,100] and
      every size is one the size lookup names. */
  lemma NodesWellFormed()
    ensures WellFormed(Nodes)
  {
    IdsUnique();
    IdsNotBlank();
    CoordinatesOnCanvas();
    SizesNamed();
  }

  /** Every id with a detail body is a node, so every body can be shown. */
  lemma BodiesAreNodes()
    ensures forall b :: b in BodyIds ==> b in Ids(Nodes)
  {
    IdsAre();
  }

  /** `'royalties'` on the digital-art node names no node: it draws nothing,
      raises nothing, and it is the only declared id that is dropped. */
  lemma RoyaltiesDrawsNothing()
    ensures "royalties" !in Ids(Nodes) && Find(Nodes, "royalties") == None
    ensures forall s :: s in Segments(Nodes, Arrowheads) ==> s.target != "royalties"
    ensures |Segments(Nodes, Arrowheads)| + 1 == TotalConnections(Nodes)
  {
    RoyaltiesUnknown();
    DanglingDrawsNothing(Nodes, Nodes, Arrowheads, "royalties");
    RoyaltiesCounted();
  }

  lemma RoyaltiesUnknown()
    ensures "royalties" !in Ids(Nodes)
  {
    IdsAre();
  }

  lemma RoyaltiesCounted()
    ensures |Segments(Nodes, Arrowheads)| + 1 == TotalConnections(Nodes)
  {
    RoyaltiesListed();
    RoyaltiesUnknown();
    OthersResolve();
    OneDanglingDrawsOneFewer(Nodes, Arrowheads, 0, 2);
  }

  lemma RoyaltiesListed()
    ensures Nodes[0].id == "digital-art" && Nodes[0].connections[2] == "royalties"
  {
  }

  lemma OthersResolve()
    ensures forall i, j :: 0 <= i < |Nodes| && 0 <= j < |Nodes[i].connections| && (i, j) != (0, 2) ==>
      Nodes[i].connections[j] in Ids(Nodes)
  {
    IdsAre();
  }

  lemma ArtCreationListed()
    ensures Nodes[0].id == "digital-art" && Nodes[0].connections[0] == "creation"
    ensures Nodes[4].id == "creation" && Nodes[4].connections[0] == "digital-art"
  {
  }

  /** digital-art lists creation and creation lists digital-art: two segments are drawn, keyed
      `digital-art-creation` and `creation-digital-art`, not merged into one. */
  lemma ArtCreationDrawnTwice()
    ensures exists k1, k2 ::
      && 0 <= k1 < |Segments(Nodes, Arrowheads)| && 0 <= k2 < |Segments(Nodes, Arrowheads)| && k1 != k2
      && Key(Segments(Nodes, Arrowheads)[k1]) == "digital-art-creation"
      && Key(Segments(Nodes, Arrowheads)[k2]) == "creation-digital-art"
  {
    ArtCreationListed();
    assert "digital-art" + "-" + "creation" == "digital-art-creation";
    assert "creation" + "-" + "digital-art" == "creation-digital-art";
    MutualDrawsTwo(Nodes, Arrowheads, 0, 0, 4, 0);
  }
}
