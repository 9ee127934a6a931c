/**
 * `ChemistryKnowledgeGraph` (feature_modules/intelligence/knowledge_graph.py): a
 * fixed directed graph of chemistry concepts with a relationship label on each
 * edge, and the queries over it.
 *
 * The networkx `DiGraph` is kept as its nodes and its edges in insertion order;
 * predecessors, edge data and the adjacency of `to_undirected()` are derived from
 * those orders the way networkx derives them (dictionaries in insertion order, a
 * repeated edge updating its data in place).
 */
module KnowledgeGraph {
  import opened Wrappers
  import LearningPath
  import GraphSearch

  datatype Relationship =
    | Contains | Forms | Produces | DependsOn | Requires | Inhibits | Causes
    | Stabilizes | Follows | UsuallyFollows | CompetesWith | PrerequisiteFor

  /** The `relationship` attribute as written in the graph. */
  function RelationshipName(r: Relationship): string {
    match r
    case Contains => "contains"
    case Forms => "forms"
    case Produces => "produces"
    case DependsOn => "depends_on"
    case Requires => "requires"
    case Inhibits => "inhibits"
    case Causes => "causes"
    case Stabilizes => "stabilizes"
    case Follows => "follows"
    case UsuallyFollows => "usually_follows"
    case CompetesWith => "competes_with"
    case PrerequisiteFor => "prerequisite_for"
  }

  datatype Edge = Edge(source: string, target: string, relationship: Relationship)

  /** The nodes and the `add_edge` calls, each in the order made. */
  datatype Graph = Graph(nodes: seq<string>, edges: seq<Edge>)

  /** The graph `_build_chemistry_knowledge_graph` builds. Every node is added before
      the edges that touch it. */
  const ChemistryGraph: Graph := Graph(
    ["organic_chemistry", "reaction_mechanisms", "stereochemistry", "electronic_effects",
     "SN1", "carbocation", "racemization", "carbocation_stability",
     "SN2", "backside_attack", "inversion", "steric_hindrance",
     "NGP", "neighboring_group", "rate_enhancement",
     "E1", "E2", "Zaitsev_rule", "Hofmann_rule", "anti_periplanar"],
    [Edge("reaction_mechanisms", "SN1", Contains),
     Edge("SN1", "carbocation", Forms),
     Edge("SN1", "racemization", Produces),
     Edge("carbocation", "carbocation_stability", DependsOn),
     Edge("reaction_mechanisms", "SN2", Contains),
     Edge("SN2", "backside_attack", Requires),
     Edge("SN2", "inversion", Produces),
     Edge("steric_hindrance", "SN2", Inhibits),
     Edge("reaction_mechanisms", "NGP", Contains),
     Edge("NGP", "neighboring_group", Requires),
     Edge("NGP", "rate_enhancement", Causes),
     Edge("neighboring_group", "carbocation", Stabilizes),
     Edge("reaction_mechanisms", "E1", Contains),
     Edge("reaction_mechanisms", "E2", Contains),
     Edge("E1", "carbocation", Forms),
     Edge("E1", "Zaitsev_rule", Follows),
     Edge("E2", "Zaitsev_rule", UsuallyFollows),
     Edge("E2", "anti_periplanar", Requires),
     Edge("SN1", "E1", CompetesWith),
     Edge("SN2", "E2", CompetesWith),
     Edge("carbocation_stability", "SN1", PrerequisiteFor),
     Edge("stereochemistry", "SN2", PrerequisiteFor)])

  /** `concept in self.graph`. */
  predicate HasNode(g: Graph, c: string) {
    c in g.nodes
  }

  // ------------------------------------------------------------ predecessors

  /** The sources of edges into `c`, each once, in the order of its first edge. */
  function Predecessors(edges: seq<Edge>, c: string): (ps: seq<string>)
    ensures forall p :: p in ps <==> exists e :: e in edges && e.source == p && e.target == c
    ensures LearningPath.Distinct(ps)
  {
    if edges == [] then []
    else
      var init := Predecessors(edges[..|edges| - 1], c);
      var e := edges[|edges| - 1];
      assert forall x :: x in edges <==> x in edges[..|edges| - 1] || x == e;
      if e.target == c && e.source !in init then init + [e.source] else init
  }

  /** The data of edge `u -> v`: the relationship of its last `add_edge`. */
  function EdgeLabel(edges: seq<Edge>, u: string, v: string): (r: Option<Relationship>)
    ensures r.Some? <==> exists e :: e in edges && e.source == u && e.target == v
    ensures r.Some? ==> Edge(u, v, r.value) in edges
  {
    if edges == [] then None
    else
      var e := edges[|edges| - 1];
      assert forall x :: x in edges <==> x in edges[..|edges| - 1] || x == e;
      if e.source == u && e.target == v then Some(e.relationship)
      else EdgeLabel(edges[..|edges| - 1], u, v)
  }

  /** The concepts of `ps`, in order, whose edge into `c` is "prerequisite_for". */
  function PrerequisitesAmong(edges: seq<Edge>, c: string, ps: seq<string>): (r: seq<string>)
    ensures forall p :: p in r <==> p in ps && EdgeLabel(edges, p, c) == Some(PrerequisiteFor)
  {
    if ps == [] then []
    else
      var init := PrerequisitesAmong(edges, c, ps[..|ps| - 1]);
      var p := ps[|ps| - 1];
      assert forall x :: x in ps <==> x in ps[..|ps| - 1] || x == p;
      if EdgeLabel(edges, p, c) == Some(PrerequisiteFor) then init + [p] else init
  }

  /** What `find_prerequisite_concepts` returns. */
  function Prerequisites(g: Graph, c: string): seq<string> {
    if !HasNode(g, c) then [] else PrerequisitesAmong(g.edges, c, Predecessors(g.edges, c))
  }

  /** A known concept's prerequisites are exactly the predecessors whose edge into it
      is labelled "prerequisite_for" (by its last `add_edge`), each once; an unknown
      concept has none. */
  lemma PrerequisitesRules(g: Graph, c: string)
    ensures !HasNode(g, c) ==> Prerequisites(g, c) == []
    ensures HasNode(g, c) ==> forall p :: p in Prerequisites(g, c) <==> EdgeLabel(g.edges, p, c) == Some(PrerequisiteFor)
  {
  }

  /** `find_prerequisite_concepts`: the loop over the predecessors. */
  method FindPrerequisiteConcepts(g: Graph, concept: string) returns (prerequisites: seq<string>)
    ensures prerequisites == Prerequisites(g, concept)
  {
    if concept !in g.nodes {
      return [];
    }
    var preds := Predecessors(g.edges, concept);
    prerequisites := [];
    var i := 0;
    while i < |preds|
      invariant 0 <= i <= |preds|
      invariant prerequisites == PrerequisitesAmong(g.edges, concept, preds[..i])
    {
      assert preds[..i + 1][..i] == preds[..i];
      if EdgeLabel(g.edges, preds[i], concept) == Some(PrerequisiteFor) {
        prerequisites := prerequisites + [preds[i]];
      }
      i := i + 1;
    }
    assert preds[..i] == preds;
  }

  /** Edges `n` to `m - 1` that do not point at `c` add no predecessor of `c`. */
  lemma {:induction false} PredecessorsUnchanged(edges: seq<Edge>, m: int, n: int, c: string)
    requires 0 <= n <= m <= |edges|
    requires forall k :: n <= k < m ==> edges[k].target != c
    ensures Predecessors(edges[..m], c) == Predecessors(edges[..n], c)
    decreases m
  {
    if n < m {
      assert edges[..m][..m - 1] == edges[..m - 1];
      PredecessorsUnchanged(edges, m - 1, n, c);
    }
  }

  /** A concept with two distinct predecessors, of which only the second has a
      "prerequisite_for" edge into it, has that one prerequisite. */
  lemma OnePrerequisiteOfTwo(g: Graph, c: string, a: string, b: string)
    requires HasNode(g, c) && Predecessors(g.edges, c) == [a, b]
    requires EdgeLabel(g.edges, a, c) != Some(PrerequisiteFor)
    requires EdgeLabel(g.edges, b, c) == Some(PrerequisiteFor)
    ensures Prerequisites(g, c) == [b]
  {
    var ps := [a, b];
    assert ps[..1] == [a] && ps[..1][..0] == [];
    assert PrerequisitesAmong(g.edges, c, ps[..1]) == [];
  }

  /** The data of edge `u -> v` in the first `m` edges is that of the last of them,
      `edges[k]`, that goes from `u` to `v`. */
  lemma {:induction false} LastEdgeLabel(edges: seq<Edge>, m: int, k: int, u: string, v: string)
    requires 0 <= k < m <= |edges| && edges[k].source == u && edges[k].target == v
    requires forall j :: k < j < m ==> edges[j].source != u || edges[j].target != v
    ensures EdgeLabel(edges[..m], u, v) == Some(edges[k].relationship)
    decreases m
  {
    assert edges[..m][..m - 1] == edges[..m - 1];
    if k < m - 1 {
      LastEdgeLabel(edges, m - 1, k, u, v);
    }
  }

  /** Only the first edge and the 21st point at SN1. */
  lemma EdgesIntoSn1(g: Graph)
    requires g == ChemistryGraph
    ensures forall k :: 0 <= k < |g.edges| && k != 0 && k != 20 ==> g.edges[k].target != "SN1"
    ensures g.edges[0] == Edge("reaction_mechanisms", "SN1", Contains)
    ensures g.edges[20] == Edge("carbocation_stability", "SN1", PrerequisiteFor)
  {
    assert "SN2" != "SN1" by { assert "SN2"[2] != "SN1"[2]; }
    assert "NGP" != "SN1" by { assert "NGP"[0] != "SN1"[0]; }
  }

  /** SN1's incoming edges come from `reaction_mechanisms` and then from
      `carbocation_stability`. */
  lemma Sn1Predecessors(g: Graph)
    requires g == ChemistryGraph
    ensures Predecessors(g.edges, "SN1") == ["reaction_mechanisms", "carbocation_stability"]
  {
    var es := g.edges;
    EdgesIntoSn1(g);
    assert es[..|es|] == es;
    PredecessorsUnchanged(es, |es|, 21, "SN1");
    assert es[..21][..20] == es[..20];
    PredecessorsUnchanged(es, 20, 1, "SN1");
    assert es[..1][..0] == [];
  }

  /** The edge `reaction_mechanisms -> SN1` is not "prerequisite_for". */
  lemma ReactionMechanismsContainsSn1(g: Graph)
    requires g == ChemistryGraph
    ensures EdgeLabel(g.edges, "reaction_mechanisms", "SN1") != Some(PrerequisiteFor)
  {
    assert Edge("reaction_mechanisms", "SN1", PrerequisiteFor) !in g.edges;
  }

  /** The edge `carbocation_stability -> SN1` is "prerequisite_for". */
  lemma CarbocationStabilityPrecedesSn1(g: Graph)
    requires g == ChemistryGraph
    ensures EdgeLabel(g.edges, "carbocation_stability", "SN1") == Some(PrerequisiteFor)
  {
    EdgesIntoSn1(g);
    LastEdgeLabel(g.edges, |g.edges|, 20, "carbocation_stability", "SN1");
    assert g.edges[..|g.edges|] == g.edges;
  }

  lemma Sn1Known(g: Graph)
    requires g == ChemistryGraph
    ensures HasNode(g, "SN1")
  {
    assert g.nodes[4] == "SN1";
  }

  /** SN1 has one prerequisite, carbocation stability: of its two incoming edges
      only the second is "prerequisite_for". */
  lemma Sn1Prerequisite(g: Graph)
    requires g == ChemistryGraph
    ensures Prerequisites(g, "SN1") == ["carbocation_stability"]
  {
    Sn1Known(g);
    Sn1Predecessors(g);
    ReactionMechanismsContainsSn1(g);
    CarbocationStabilityPrecedesSn1(g);
    OnePrerequisiteOfTwo(g, "SN1", "reaction_mechanisms", "carbocation_stability");
  }

  // ----------------------------------------------------------- learning path

  /** Every concept named by the graph: its nodes and the ends of its edges. */
  function Names(g: Graph): set<string> {
    (set n | n in g.nodes) + (set e | e in g.edges :: e.source) + (set e | e in g.edges :: e.target)
  }

  lemma NamesClosed(g: Graph)
    ensures LearningPath.Closed(c => Prerequisites(g, c), Names(g))
  {
    forall c, p | c in Names(g) && p in Prerequisites(g, c) ensures p in Names(g) {
      var e :| e in g.edges && e.source == p && e.target == c;
    }
  }

  /** The walk over `find_prerequisite_concepts` from `target`. */
  function PathOf(g: Graph, target: string): seq<string>
    requires target in Names(g)
  {
    NamesClosed(g);
    LearningPath.PathTo(c => Prerequisites(g, c), Names(g), target)
  }

  /** `recommend_learning_path`: [] for an unknown target; otherwise the walk over
      `find_prerequisite_concepts`. */
  method RecommendLearningPath(g: Graph, target: string) returns (path: seq<string>)
    ensures !HasNode(g, target) ==> path == []
    ensures HasNode(g, target) ==> path == PathOf(g, target)
  {
    if target !in g.nodes {
      return [];
    }
    NamesClosed(g);
    path := LearningPath.LearningPathFor(c => Prerequisites(g, c), Names(g), target);
  }

  /** A rank under which the knowledge graph's two "prerequisite_for" edges point
      upwards. */
  function ChemistryRank(c: string): nat {
    if c == "SN1" || c == "SN2" then 1 else 0
  }

  /** A graph whose "prerequisite_for" edges all point up a rank is ranked. */
  lemma RankedByEdges(g: Graph, rank: string -> nat)
    requires forall e :: e in g.edges && e.relationship == PrerequisiteFor ==> rank(e.source) < rank(e.target)
    ensures LearningPath.Ranked(c => Prerequisites(g, c), Names(g), rank)
  {
    forall c, p | c in Names(g) && p in Prerequisites(g, c) ensures rank(p) < rank(c) {
      assert Edge(p, c, PrerequisiteFor) in g.edges;
    }
  }

  lemma ChemistryGraphRanked()
    ensures LearningPath.Ranked(c => Prerequisites(ChemistryGraph, c), Names(ChemistryGraph), ChemistryRank)
  {
    var es := ChemistryGraph.edges;
    forall e | e in es && e.relationship == PrerequisiteFor ensures ChemistryRank(e.source) < ChemistryRank(e.target) {
      var k :| 0 <= k < |es| && es[k] == e;
      assert k == 20 || k == 21;
    }
    RankedByEdges(ChemistryGraph, ChemistryRank);
  }

  /** The path for a known target has no repeats, ends with the target, and holds
      every prerequisite of each concept on it; in a ranked graph every prerequisite
      comes before the concept that needs it. */
  lemma PathOfProperties(g: Graph, target: string, rank: string -> nat)
    requires HasNode(g, target)
    ensures var path := PathOf(g, target);
      && LearningPath.Distinct(path)
      && path != [] && path[|path| - 1] == target
      && LearningPath.Complete(c => Prerequisites(g, c), path)
      && (LearningPath.Ranked(c => Prerequisites(g, c), Names(g), rank) ==>
            LearningPath.InOrder(c => Prerequisites(g, c), path))
  {
    NamesClosed(g);
    LearningPath.PathProperties(c => Prerequisites(g, c), Names(g), target, rank);
  }

  /** For any known target of the chemistry graph the recommended path lists every
      prerequisite before the concept that needs it. */
  lemma RecommendedPathInOrder(target: string)
    requires HasNode(ChemistryGraph, target)
    ensures LearningPath.InOrder(c => Prerequisites(ChemistryGraph, c), PathOf(ChemistryGraph, target))
  {
    ChemistryGraphRanked();
    PathOfProperties(ChemistryGraph, target, ChemistryRank);
  }

  // ------------------------------------------------------- related concepts

  /** The targets of edges out of `u`, each once, in the order of its first edge. */
  function Successors(edges: seq<Edge>, u: string): seq<string> {
    if edges == [] then []
    else
      var init := Successors(edges[..|edges| - 1], u);
      var e := edges[|edges| - 1];
      if e.source == u && e.target !in init then init + [e.target] else init
  }

  /** The `(u, v)` pairs `to_undirected()` adds, for the nodes in order and the
      successors of each in order. */
  function UndirectedPairs(g: Graph, nodes: seq<string>): seq<(string, string)> {
    if nodes == [] then []
    else
      UndirectedPairs(g, nodes[..|nodes| - 1])
      + PairsFrom(nodes[|nodes| - 1], Successors(g.edges, nodes[|nodes| - 1]))
  }

  function PairsFrom(u: string, vs: seq<string>): seq<(string, string)> {
    if vs == [] then [] else [(u, vs[0])] + PairsFrom(u, vs[1..])
  }

  /** The neighbours of `x` in the undirected graph, in the order its adjacency
      dictionary acquired them. */
  function NeighboursIn(pairs: seq<(string, string)>, x: string): seq<string> {
    if pairs == [] then []
    else
      var init := NeighboursIn(pairs[..|pairs| - 1], x);
      var (u, v) := pairs[|pairs| - 1];
      if u == x && v !in init then init + [v]
      else if v == x && u !in init then init + [u]
      else init
  }

  function Adj(g: Graph, x: string): seq<string> {
    NeighboursIn(UndirectedPairs(g, g.nodes), x)
  }

  /** `find_related_concepts`: [] for an unknown concept; otherwise the search over
      the undirected graph, whose stable sort by distance leaves the level order as
      it is. Together the three properties make each distance the length of a
      shortest undirected path. */
  method FindRelatedConcepts(g: Graph, concept: string, maxDistance: int) returns (related: seq<(string, int)>)
    ensures !HasNode(g, concept) ==> related == []
    ensures GraphSearch.Listed(related, concept, maxDistance)
    ensures GraphSearch.Reached(x => Adj(g, x), concept, related)
    ensures HasNode(g, concept) ==> GraphSearch.Exhaustive(x => Adj(g, x), concept, maxDistance, related)
  {
    if concept !in g.nodes {
      return [];
    }
    related := GraphSearch.Search(x => Adj(g, x), concept, maxDistance);
  }

  // --------------------------------------------------------- relationships

  const NotFoundMessage: string := "Concepts not found in knowledge base."

  /** `explain_concept_relationship` where the shortest path has at most two
      concepts: the message for an unknown concept, the one-node path from a concept
      to itself, and the relationship of a direct edge (`concept1 -> concept2` first,
      else `concept2 -> concept1`). `None` when the two known, distinct concepts share
      no edge: then networkx either finds a longer path or raises `NetworkXNoPath`,
      and neither message is part of this model. */
  function ExplainConceptRelationship(g: Graph, c1: string, c2: string): (r: Option<string>)
    ensures !HasNode(g, c1) || !HasNode(g, c2) ==> r == Some(NotFoundMessage)
    ensures HasNode(g, c1) && HasNode(g, c2) && c1 == c2 ==>
      r == Some(c1 + " connects to " + c1 + " through: " + c1)
    ensures HasNode(g, c1) && HasNode(g, c2) && c1 != c2 && EdgeLabel(g.edges, c1, c2).Some? ==>
      r == Some(c1 + " is " + RelationshipName(EdgeLabel(g.edges, c1, c2).value) + " " + c2)
    ensures HasNode(g, c1) && HasNode(g, c2) && c1 != c2 && EdgeLabel(g.edges, c1, c2).None?
            && EdgeLabel(g.edges, c2, c1).Some? ==>
      r == Some(c1 + " is " + RelationshipName(EdgeLabel(g.edges, c2, c1).value) + " " + c2)
    ensures r.None? <==> HasNode(g, c1) && HasNode(g, c2) && c1 != c2
                         && EdgeLabel(g.edges, c1, c2).None? && EdgeLabel(g.edges, c2, c1).None?
  {
    if !HasNode(g, c1) || !HasNode(g, c2) then Some(NotFoundMessage)
    else if c1 == c2 then Some(c1 + " connects to " + c2 + " through: " + c1)
    else if EdgeLabel(g.edges, c1, c2).Some? then
      Some(c1 + " is " + RelationshipName(EdgeLabel(g.edges, c1, c2).value) + " " + c2)
    else if EdgeLabel(g.edges, c2, c1).Some? then
      Some(c1 + " is " + RelationshipName(EdgeLabel(g.edges, c2, c1).value) + " " + c2)
    else None
  }

  // ------------------------------------------------------------- mechanism

  /** The substrate dictionary: `leaving_group_quality` and `carbon_type` when
      present, and the truth value of `neighboring_group` (false when absent). */
  datatype SubstrateFeatures = SubstrateFeatures(
    leavingGroupQuality: Option<string>, carbonType: Option<string>, neighboringGroup: bool)

  /** The conditions dictionary: each entry when present. */
  datatype ReactionConditions = ReactionConditions(
    nucleophileStrength: Option<string>, solvent: Option<string>,
    temperature: Option<string>, baseStrength: Option<string>)

  const NgpAnswer: string := "NGP - The neighboring group will participate and accelerate the reaction"
  const E1Answer: string := "E1 likely - strong base + polar protic solvent + tertiary substrate"
  const Sn1Answer: string := "SN1 likely - polar protic solvent + tertiary carbocation is stable"
  const E2TertiaryAnswer: string := "E2 likely - strong nucleophile can act as base on tertiary substrate"
  const Sn2Answer: string := "SN2 likely - primary substrate + good nucleophile + little steric hindrance"
  const E2PrimaryAnswer: string := "E2 likely - strong base on primary substrate"
  const MixedAnswer: string :=
    "Mixed mechanisms possible - SN2/E2 or SN1/E1 depending on exact conditions. Need more info."
  const UnknownAnswer: string := "Unable to determine mechanism with certainty - need more information"

  /** `infer_mechanism`. A neighbouring group decides alone; a secondary substrate is
      always mixed; a tertiary one gives E1 or SN1 in a polar protic solvent with a
      good leaving group (by the base), and otherwise E2 with a strong nucleophile; a
      primary one (also the default) gives SN2 with a strong or moderate
      nucleophile, and otherwise E2 with a strong base; anything else cannot be
      determined. The temperature is read and never used. */
  function InferMechanism(s: SubstrateFeatures, r: ReactionConditions): (answer: string)
    ensures s.neighboringGroup ==> answer == NgpAnswer
    ensures !s.neighboringGroup && s.carbonType == Some("secondary") ==> answer == MixedAnswer
    ensures var good := s.leavingGroupQuality.GetOr("poor") in ["good", "excellent"];
      var protic := r.solvent == Some("polar_protic");
      !s.neighboringGroup && s.carbonType == Some("tertiary") ==>
        answer == (if protic && good then (if r.baseStrength == Some("strong") then E1Answer else Sn1Answer)
                   else if r.nucleophileStrength == Some("strong") then E2TertiaryAnswer
                   else UnknownAnswer)
    ensures !s.neighboringGroup && s.carbonType.GetOr("primary") == "primary" ==>
      answer == (if r.nucleophileStrength.GetOr("weak") in ["strong", "moderate"] then Sn2Answer
                 else if r.baseStrength == Some("strong") then E2PrimaryAnswer
                 else UnknownAnswer)
    ensures !s.neighboringGroup && s.carbonType.GetOr("primary") !in ["tertiary", "primary", "secondary"] ==>
      answer == UnknownAnswer
  {
    var hasGoodLeavingGroup := s.leavingGroupQuality.GetOr("poor") in ["good", "excellent"];
    var substrateType := s.carbonType.GetOr("primary");
    var nucleophileStrength := r.nucleophileStrength.GetOr("weak");
    var isPolarProtic := r.solvent.GetOr("polar_aprotic") == "polar_protic";
    var baseStrength := r.baseStrength.GetOr("weak");
    if s.neighboringGroup then NgpAnswer
    else if substrateType == "tertiary" && isPolarProtic && hasGoodLeavingGroup then
      (if baseStrength == "strong" then E1Answer else Sn1Answer)
    else if substrateType == "tertiary" && nucleophileStrength == "strong" then E2TertiaryAnswer
    else if substrateType == "primary" && nucleophileStrength in ["strong", "moderate"] then Sn2Answer
    else if substrateType == "primary" && baseStrength == "strong" then E2PrimaryAnswer
    else if substrateType == "secondary" then MixedAnswer
    else UnknownAnswer
  }

  /** The temperature never changes the answer. */
  lemma TemperatureIrrelevant(s: SubstrateFeatures, r: ReactionConditions, t: Option<string>)
    ensures InferMechanism(s, r.(temperature := t)) == InferMechanism(s, r)
  {
  }
}
