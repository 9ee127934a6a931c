/**
 * The rule-based helpers of advanced_features.py (feature_modules/advanced): the
 * concept dependency tree (a fixed prerequisite table and the depth-first learning
 * path over it), the Hindi/Hinglish explanation helpers, the offline cache summary,
 * and the time-of-day greeting.
 */
module AdvancedFeatures {
  import LearningPath

  // ------------------------------------------------------ dependency tree

  /** `ConceptDependencyTree.get_prerequisites`: the fixed table, [] for any other
      concept. */
  function GetPrerequisites(concept: string): seq<string> {
    if concept == "SN1" then ["carbocation_stability", "leaving_groups", "kinetics"]
    else if concept == "SN2" then ["stereochemistry", "nucleophiles", "steric_effects"]
    else if concept == "NGP" then ["SN1", "carbocation_stability", "resonance"]
    else if concept == "E1" then ["carbocation_stability", "elimination_basics", "Zaitsev_rule"]
    else if concept == "E2" then ["stereochemistry", "anti_periplanar", "base_strength"]
    else []
  }

  /** The five concepts the table knows. */
  const KnownConcepts: set<string> := {"SN1", "SN2", "NGP", "E1", "E2"}

  /** Every concept the table names. */
  const TableConcepts: set<string> := KnownConcepts + {
    "carbocation_stability", "leaving_groups", "kinetics", "stereochemistry", "nucleophiles",
    "steric_effects", "resonance", "elimination_basics", "Zaitsev_rule", "anti_periplanar",
    "base_strength"}

  /** A known concept has three distinct prerequisites, none of them itself; any other
      concept has none. */
  lemma PrerequisitesTable(concept: string)
    ensures concept in KnownConcepts <==> GetPrerequisites(concept) != []
    ensures concept in KnownConcepts ==>
      |GetPrerequisites(concept)| == 3 && LearningPath.Distinct(GetPrerequisites(concept))
      && concept !in GetPrerequisites(concept)
  {
  }

  /** The concepts a learning path for `target` can reach. */
  function Universe(target: string): set<string> {
    TableConcepts + {target}
  }

  lemma UniverseClosed(target: string)
    ensures LearningPath.Closed(GetPrerequisites, Universe(target))
  {
  }

  /** Reactions rank above their prerequisites, and NGP above SN1. */
  function Rank(c: string): nat {
    if c == "NGP" then 2 else if c in KnownConcepts then 1 else 0
  }

  lemma UniverseRanked(target: string)
    ensures LearningPath.Ranked(GetPrerequisites, Universe(target), Rank)
  {
    forall c, p | c in Universe(target) && p in GetPrerequisites(c) ensures Rank(p) < Rank(c) {
      assert c in KnownConcepts;
    }
  }

  /** The depth-first walk over the table from `target`. */
  function PathFor(target: string): seq<string> {
    UniverseClosed(target);
    LearningPath.PathTo(GetPrerequisites, Universe(target), target)
  }

  /** `get_learning_path`: the nested `build_path` from `target_concept`. */
  method GetLearningPath(targetConcept: string) returns (path: seq<string>)
    ensures path == PathFor(targetConcept)
  {
    UniverseClosed(targetConcept);
    path := LearningPath.LearningPathFor(GetPrerequisites, Universe(targetConcept), targetConcept);
  }

  /** The learning path's promise: no repeats, the target last, and every
      prerequisite of a concept on the path earlier on the path. */
  lemma LearningPathProperties(target: string)
    ensures var path := PathFor(target);
      && LearningPath.Distinct(path)
      && path != [] && path[|path| - 1] == target
      && LearningPath.InOrder(GetPrerequisites, path)
  {
    UniverseClosed(target);
    UniverseRanked(target);
    LearningPath.PathProperties(GetPrerequisites, Universe(target), target, Rank);
  }

  /** A concept outside the table is its own whole learning path. */
  lemma UnknownConceptPath(target: string)
    requires target !in KnownConcepts
    ensures PathFor(target) == [target]
  {
    UniverseClosed(target);
    assert GetPrerequisites(target) == [];
    assert LearningPath.WalkAll(GetPrerequisites, Universe(target), [], 0, {target}, []) == ({target}, []);
  }

  /** The leaves of the SN1 and NGP subtrees. */
  lemma NgpLeaves()
    ensures GetPrerequisites("carbocation_stability") == []
    ensures GetPrerequisites("leaving_groups") == []
    ensures GetPrerequisites("kinetics") == []
    ensures GetPrerequisites("resonance") == []
  {
  }

  /** The walk into SN1 from NGP appends SN1's three prerequisites, then SN1. */
  lemma Sn1WalkFromNgp(U: set<string>)
    requires LearningPath.Closed(GetPrerequisites, U)
    requires {"NGP", "SN1", "carbocation_stability", "leaving_groups", "kinetics"} <= U
    ensures LearningPath.Walk(GetPrerequisites, U, "SN1", {"NGP"}, [])
      == ({"NGP"} + {"SN1"} + {"carbocation_stability"} + {"leaving_groups"} + {"kinetics"},
          ["carbocation_stability", "leaving_groups", "kinetics", "SN1"])
  {
    var sn1 := ["carbocation_stability", "leaving_groups", "kinetics"];
    assert GetPrerequisites("SN1") == sn1;
    NgpLeaves();
    var v0 := {"NGP"} + {"SN1"};
    var v1, p1 := v0 + {sn1[0]}, [sn1[0]];
    var v2, p2 := v1 + {sn1[1]}, p1 + [sn1[1]];
    var v3, p3 := v2 + {sn1[2]}, p2 + [sn1[2]];
    LeafStep(U, sn1, 0, v0, []);
    assert [] + [sn1[0]] == p1;
    LeafStep(U, sn1, 1, v1, p1);
    LeafStep(U, sn1, 2, v2, p2);
    assert p3 == sn1;
    assert LearningPath.WalkAll(GetPrerequisites, U, sn1, 0, v0, []) == (v3, sn1);
    assert "SN1" !in sn1;
    Enter(U, "SN1", {"NGP"}, []);
    assert LearningPath.Walk(GetPrerequisites, U, "SN1", {"NGP"}, []) == (v3, sn1 + ["SN1"]);
    assert v3 == {"NGP"} + {"SN1"} + {"carbocation_stability"} + {"leaving_groups"} + {"kinetics"};
    assert sn1 + ["SN1"] == ["carbocation_stability", "leaving_groups", "kinetics", "SN1"];
  }

  /** NGP: SN1's prerequisites, then SN1, then resonance (carbocation stability is
      already on the path), then NGP. */
  lemma NgpWalk(U: set<string>)
    requires LearningPath.Closed(GetPrerequisites, U)
    requires {"NGP", "SN1", "carbocation_stability", "leaving_groups", "kinetics", "resonance"} <= U
    ensures LearningPath.Walk(GetPrerequisites, U, "NGP", {}, []).1
      == ["carbocation_stability", "leaving_groups", "kinetics", "SN1", "resonance", "NGP"]
  {
    var ngp := ["SN1", "carbocation_stability", "resonance"];
    assert GetPrerequisites("NGP") == ngp;
    NgpLeaves();
    Sn1WalkFromNgp(U);
    var v1 := {"NGP"} + {"SN1"} + {"carbocation_stability"} + {"leaving_groups"} + {"kinetics"};
    var p1 := ["carbocation_stability", "leaving_groups", "kinetics", "SN1"];
    Enter(U, "NGP", {}, []);
    assert {} + {"NGP"} == {"NGP"};
    Step(U, ngp, 0, {"NGP"}, []);
    Step(U, ngp, 1, v1, p1);
    LeafStep(U, ngp, 2, v1, p1);
  }

  lemma NgpLearningPath()
    ensures PathFor("NGP") == ["carbocation_stability", "leaving_groups", "kinetics", "SN1", "resonance", "NGP"]
  {
    UniverseClosed("NGP");
    NgpWalk(Universe("NGP"));
  }

  /** A concept not yet visited: the walk over its prerequisites, then the concept
      itself unless it is already on the path. */
  lemma Enter(universe: set<string>, c: string, visited: set<string>, path: seq<string>)
    requires LearningPath.Closed(GetPrerequisites, universe) && c in universe && visited <= universe
    requires c !in visited
    ensures LearningPath.Walk(GetPrerequisites, universe, c, visited, path)
      == var r := LearningPath.WalkAll(GetPrerequisites, universe, GetPrerequisites(c), 0, visited + {c}, path);
         (r.0, if c in r.1 then r.1 else r.1 + [c])
  {
  }

  /** One step of the loop over a prerequisite list. */
  lemma Step(universe: set<string>, cs: seq<string>, i: nat, visited: set<string>, path: seq<string>)
    requires LearningPath.Closed(GetPrerequisites, universe) && i < |cs| && visited <= universe
    requires forall x :: x in cs ==> x in universe
    ensures LearningPath.WalkAll(GetPrerequisites, universe, cs, i, visited, path)
      == var r := LearningPath.Walk(GetPrerequisites, universe, cs[i], visited, path);
         LearningPath.WalkAll(GetPrerequisites, universe, cs, i + 1, r.0, r.1)
  {
  }

  /** A step over a concept without prerequisites, not yet visited, appends it; the
      last such step ends the loop. */
  lemma LeafStep(universe: set<string>, cs: seq<string>, i: nat, visited: set<string>, path: seq<string>)
    requires LearningPath.Closed(GetPrerequisites, universe) && i < |cs| && visited <= universe
    requires forall x :: x in cs ==> x in universe
    requires GetPrerequisites(cs[i]) == [] && cs[i] !in visited && cs[i] !in path
    ensures LearningPath.WalkAll(GetPrerequisites, universe, cs, i, visited, path)
      == LearningPath.WalkAll(GetPrerequisites, universe, cs, i + 1, visited + {cs[i]}, path + [cs[i]])
    ensures i + 1 == |cs| ==>
      LearningPath.WalkAll(GetPrerequisites, universe, cs, i, visited, path) == (visited + {cs[i]}, path + [cs[i]])
  {
    assert LearningPath.WalkAll(GetPrerequisites, universe, [], 0, visited + {cs[i]}, path) == (visited + {cs[i]}, path);
  }

  /** What `visualize_dependency_tree` reports. */
  datatype DependencyTree = DependencyTree(root: string, prerequisites: seq<string>,
                                           dependents: seq<string>, depth: int)

  /** `visualize_dependency_tree`: the concept's prerequisites, the fixed dependents
      list, and the length of its learning path as the depth, which is at least 1
      and exactly 1 for a concept outside the table. */
  method VisualizeDependencyTree(concept: string) returns (tree: DependencyTree)
    ensures tree.root == concept && tree.prerequisites == GetPrerequisites(concept)
    ensures tree.dependents == ["advanced_topics"]
    ensures tree.depth == |PathFor(concept)|
    ensures tree.depth >= 1
    ensures concept !in KnownConcepts ==> tree.depth == 1
  {
    var path := GetLearningPath(concept);
    LearningPathProperties(concept);
    if concept !in KnownConcepts {
      UnknownConceptPath(concept);
    }
    tree := DependencyTree(concept, GetPrerequisites(concept), ["advanced_topics"], |path|);
  }

  // -------------------------------------------------------------- language

  const HindiTag: string := "[Hindi] "
  const HinglishReminder: string := " (याद रखें: SN1 reaction में carbocation बनता है)"

  /** `MultiLanguageSupport.translate_explanation`. */
  function TranslateExplanation(text: string, targetLang: string): (r: string)
    ensures targetLang == "hindi" ==>
      |r| == |HindiTag| + |text| && r[..|HindiTag|] == HindiTag && r[|HindiTag|..] == text
    ensures targetLang == "hinglish" ==>
      |r| == |text| + |HinglishReminder| && r[..|text|] == text && r[|text|..] == HinglishReminder
    ensures targetLang != "hindi" && targetLang != "hinglish" ==> r == text
  {
    if targetLang == "hindi" then HindiTag + text
    else if targetLang == "hinglish" then text + HinglishReminder
    else text
  }

  /** The explanation survives translation: dropping the tag or the reminder gives
      it back, for every language. */
  lemma TranslationKeepsText(text: string, targetLang: string)
    ensures var r := TranslateExplanation(text, targetLang);
      |r| >= |text| && (r[..|text|] == text || r[|r| - |text|..] == text)
  {
    var r := TranslateExplanation(text, targetLang);
    if targetLang == "hindi" {
      assert r[|r| - |text|..] == r[|HindiTag|..];
    }
  }

  /** An English and Hindi rendering of a term. */
  datatype BilingualTerm = BilingualTerm(en: string, hi: string)

  const BilingualTable: map<string, BilingualTerm> := map[
    "carbocation" := BilingualTerm("carbocation", "कार्बोकैटायन"),
    "SN1" := BilingualTerm("nucleophilic substitution", "न्यूक्लियोफिलिक प्रतिस्थापन"),
    "leaving_group" := BilingualTerm("leaving group", "छोड़ने वाला समूह")]

  /** `get_bilingual_terms`: the table entry, or the concept itself in both languages. */
  function GetBilingualTerms(concept: string): (t: BilingualTerm)
    ensures concept in BilingualTable ==> t == BilingualTable[concept]
    ensures concept !in BilingualTable ==> t == BilingualTerm(concept, concept)
  {
    if concept in BilingualTable then BilingualTable[concept] else BilingualTerm(concept, concept)
  }

  /** Only three terms are translated; any other concept comes back unchanged, in
      English and in Hindi. */
  lemma BilingualFallback(concept: string)
    requires concept != "carbocation" && concept != "SN1" && concept != "leaving_group"
    ensures GetBilingualTerms(concept) == BilingualTerm(concept, concept)
  {
  }

  // ---------------------------------------------------------- offline mode

  /** One entry of `cached_items`. */
  datatype CachedItem = CachedItem(topic: string, problems: int, explanations: int, sizeMb: real)

  /** The dictionary `cache_content_for_offline` returns. */
  datatype CacheSummary = CacheSummary(cachedTopics: int, totalProblems: int, totalSizeMb: real, expiryDays: int)

  const ItemSizeMb: real := 5.2

  function TotalProblems(items: seq<CachedItem>): int {
    if items == [] then 0 else TotalProblems(items[..|items| - 1]) + items[|items| - 1].problems
  }

  function TotalSize(items: seq<CachedItem>): real {
    if items == [] then 0.0 else TotalSize(items[..|items| - 1]) + items[|items| - 1].sizeMb
  }

  /** Items of 20 problems and 5.2 MB each add up to 20 and 5.2 per item. */
  lemma {:induction false} TotalsOfUniformItems(items: seq<CachedItem>)
    requires forall k :: 0 <= k < |items| ==> items[k].problems == 20 && items[k].sizeMb == ItemSizeMb
    ensures TotalProblems(items) == 20 * |items|
    ensures TotalSize(items) == ItemSizeMb * |items| as real
  {
    if items != [] {
      TotalsOfUniformItems(items[..|items| - 1]);
    }
  }

  /** `OfflineModeCache.cache_content_for_offline`: one cached item per topic, in
      order, and the totals over them. */
  method CacheContentForOffline(topics: seq<string>) returns (summary: CacheSummary)
    ensures summary == CacheSummary(|topics|, 20 * |topics|, ItemSizeMb * |topics| as real, 7)
  {
    var cachedItems: seq<CachedItem> := [];
    var i := 0;
    while i < |topics|
      invariant 0 <= i <= |topics| && |cachedItems| == i
      invariant forall k :: 0 <= k < i ==> cachedItems[k] == CachedItem(topics[k], 20, 20, ItemSizeMb)
    {
      cachedItems := cachedItems + [CachedItem(topics[i], 20, 20, ItemSizeMb)];
      i := i + 1;
    }
    TotalsOfUniformItems(cachedItems);
    summary := CacheSummary(|topics|, TotalProblems(cachedItems), TotalSize(cachedItems), 7);
  }

  // ----------------------------------------------------------- personality

  /** `AIPersonality.get_personalized_greeting`. */
  function GetPersonalizedGreeting(userName: string, timeOfDay: string): string
  {
    if timeOfDay == "morning" then "Good morning " + userName + "! ☀️ Ready to conquer some chemistry?"
    else if timeOfDay == "afternoon" then "Hey " + userName + "! 🌤️ Let's keep that momentum going!"
    else if timeOfDay == "evening" then "Evening " + userName + "! 🌙 Perfect time for focused practice!"
    else if timeOfDay == "night" then "Burning the midnight oil, " + userName + "? 🌟 Respect the dedication!"
    else "Hello " + userName + "!"
  }

  /** `w` occurs in `s`. */
  predicate Mentions(s: string, w: string) {
    exists i :: 0 <= i <= |s| && w <= s[i..]
  }

  /** Every greeting, for every time of day, names the user; a time of day outside
      the four known ones gets the plain `Hello <name>!`. */
  lemma GreetingNamesUser(userName: string, timeOfDay: string)
    ensures Mentions(GetPersonalizedGreeting(userName, timeOfDay), userName)
    ensures timeOfDay !in {"morning", "afternoon", "evening", "night"} ==>
      GetPersonalizedGreeting(userName, timeOfDay) == "Hello " + userName + "!"
  {
    var r := GetPersonalizedGreeting(userName, timeOfDay);
    var opening :=
      if timeOfDay == "morning" then "Good morning "
      else if timeOfDay == "afternoon" then "Hey "
      else if timeOfDay == "evening" then "Evening "
      else if timeOfDay == "night" then "Burning the midnight oil, "
      else "Hello ";
    assert userName <= r[|opening|..];
  }
}
