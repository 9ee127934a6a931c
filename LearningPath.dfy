/**
 * The learning-path search shared by `recommend_learning_path` (knowledge_graph.py)
 * and `get_learning_path` (advanced_features.py): a depth-first walk over the
 * prerequisites of a concept that appends each concept after its own
 * prerequisites, skipping concepts already visited.
 *
 * `prereqs` is the lookup each caller uses (graph predecessors along
 * "prerequisite_for" edges, or a fixed table), and `universe` is a finite set of
 * concepts closed under it, which bounds the walk.
 */
module LearningPath {

  /** Every prerequisite of a concept of `universe` is in `universe`. */
  predicate Closed(prereqs: string -> seq<string>, universe: set<string>) {
    forall c, p :: c in universe && p in prereqs(c) ==> p in universe
  }

  /** Prerequisites have a smaller rank than their dependents: the relation has no
      cycle within `universe`. */
  predicate Ranked(prereqs: string -> seq<string>, universe: set<string>, rank: string -> nat) {
    forall c, p :: c in universe && p in prereqs(c) ==> rank(p) < rank(c)
  }

  predicate Distinct(s: seq<string>) {
    forall i, j :: 0 <= i < j < |s| ==> s[i] != s[j]
  }

  function Elems(s: seq<string>): set<string> {
    set x | x in s
  }

  /** Every prerequisite of a concept on the path is on the path. */
  predicate Complete(prereqs: string -> seq<string>, path: seq<string>) {
    forall i, p :: 0 <= i < |path| && p in prereqs(path[i]) ==> p in path
  }

  /** Every prerequisite of a concept on the path comes before it. */
  predicate InOrder(prereqs: string -> seq<string>, path: seq<string>) {
    forall i, p :: 0 <= i < |path| && p in prereqs(path[i]) ==> p in path[..i]
  }

  /** The nested `build_path(concept)` on the `visited` set and `path` list it closes
      over: what the two are afterwards. */
  function Walk(prereqs: string -> seq<string>, universe: set<string>, c: string,
                visited: set<string>, path: seq<string>): (r: (set<string>, seq<string>))
    requires Closed(prereqs, universe) && c in universe && visited <= universe
    ensures visited <= r.0 <= universe && c in r.0
    decreases universe - visited, 0
  {
    if c in visited then (visited, path)
    else
      var (v, p) := WalkAll(prereqs, universe, prereqs(c), 0, visited + {c}, path);
      (v, if c in p then p else p + [c])
  }

  /** The loop over `prereqs[i..]` inside `build_path`. */
  function WalkAll(prereqs: string -> seq<string>, universe: set<string>, cs: seq<string>, i: nat,
                   visited: set<string>, path: seq<string>): (r: (set<string>, seq<string>))
    requires Closed(prereqs, universe) && i <= |cs| && visited <= universe
    requires forall x :: x in cs ==> x in universe
    ensures visited <= r.0 <= universe
    ensures forall k :: i <= k < |cs| ==> cs[k] in r.0
    decreases universe - visited, |cs| - i + 1
  {
    if i == |cs| then (visited, path)
    else
      var (v, p) := Walk(prereqs, universe, cs[i], visited, path);
      WalkAll(prereqs, universe, cs, i + 1, v, p)
  }

  /** The path for `target`, starting from nothing visited. */
  function PathTo(prereqs: string -> seq<string>, universe: set<string>, target: string): seq<string>
    requires Closed(prereqs, universe) && target in universe
  {
    Walk(prereqs, universe, target, {}, []).1
  }

  /** What holds of `visited` and `path` between calls: `visited` is the path plus
      the concepts whose call has not finished (`stack`), and every prerequisite of a
      concept on the path has been visited. */
  predicate Good(prereqs: string -> seq<string>, visited: set<string>, path: seq<string>, stack: set<string>) {
    && Distinct(path)
    && visited == Elems(path) + stack
    && stack !! Elems(path)
    && (forall i, p :: 0 <= i < |path| && p in prereqs(path[i]) ==> p in visited)
  }

  lemma ExtendGood(prereqs: string -> seq<string>, v: set<string>, p: seq<string>, stack: set<string>, c: string)
    requires Good(prereqs, v, p, stack + {c}) && c !in stack
    requires forall q :: q in prereqs(c) ==> q in v
    ensures Good(prereqs, v, p + [c], stack)
  {
    var p' := p + [c];
    assert Elems(p') == Elems(p) + {c};
    forall i, j | 0 <= i < j < |p'| ensures p'[i] != p'[j] {
      if j == |p| {
        assert p'[i] in Elems(p);
      }
    }
  }

  lemma InOrderSnoc(prereqs: string -> seq<string>, p: seq<string>, c: string)
    requires InOrder(prereqs, p)
    requires forall q :: q in prereqs(c) ==> q in p
    ensures InOrder(prereqs, p + [c])
  {
    var p' := p + [c];
    forall i, q | 0 <= i < |p'| && q in prereqs(p'[i]) ensures q in p'[..i] {
      if i < |p| {
        assert p'[..i] == p[..i];
      } else {
        assert p'[..i] == p;
      }
    }
  }

  /** The invariant survives a call, the path only grows, the concept has been
      visited, and a concept not visited before is appended last. When the relation
      is ranked and every unfinished call is for a concept of higher rank,
      prerequisites stay in front of their dependents. */
  lemma {:induction false} WalkKeepsGood(prereqs: string -> seq<string>, universe: set<string>, c: string,
                                         visited: set<string>, path: seq<string>, stack: set<string>,
                                         rank: string -> nat)
    requires Closed(prereqs, universe) && c in universe && visited <= universe
    requires Good(prereqs, visited, path, stack)
    requires Ranked(prereqs, universe, rank) ==>
      InOrder(prereqs, path) && stack <= universe && forall s :: s in stack ==> rank(c) < rank(s)
    ensures var r := Walk(prereqs, universe, c, visited, path);
      && Good(prereqs, r.0, r.1, stack)
      && |path| <= |r.1| && r.1[..|path|] == path
      && (c !in visited ==> |r.1| > |path| && r.1[|r.1| - 1] == c)
      && (Ranked(prereqs, universe, rank) ==> InOrder(prereqs, r.1))
    decreases universe - visited, 0
  {
    if c !in visited {
      var stack' := stack + {c};
      assert Good(prereqs, visited + {c}, path, stack');
      WalkAllKeepsGood(prereqs, universe, prereqs(c), 0, visited + {c}, path, stack', rank);
      var (v, p) := WalkAll(prereqs, universe, prereqs(c), 0, visited + {c}, path);
      assert c !in Elems(p);
      assert forall q :: q in prereqs(c) ==> q in v by {
        forall q | q in prereqs(c) ensures q in v {
          var k :| 0 <= k < |prereqs(c)| && prereqs(c)[k] == q;
        }
      }
      ExtendGood(prereqs, v, p, stack, c);
      if Ranked(prereqs, universe, rank) {
        forall q | q in prereqs(c) ensures q in p {
          assert q in v && rank(q) < rank(c);
        }
        InOrderSnoc(prereqs, p, c);
      }
      assert (p + [c])[..|path|] == p[..|path|];
    }
  }

  lemma {:induction false} WalkAllKeepsGood(prereqs: string -> seq<string>, universe: set<string>, cs: seq<string>,
                                            i: nat, visited: set<string>, path: seq<string>, stack: set<string>,
                                            rank: string -> nat)
    requires Closed(prereqs, universe) && i <= |cs| && visited <= universe
    requires forall x :: x in cs ==> x in universe
    requires Good(prereqs, visited, path, stack)
    requires Ranked(prereqs, universe, rank) ==>
      InOrder(prereqs, path) && stack <= universe
      && forall s, x :: s in stack && x in cs ==> rank(x) < rank(s)
    ensures var r := WalkAll(prereqs, universe, cs, i, visited, path);
      && Good(prereqs, r.0, r.1, stack)
      && |path| <= |r.1| && r.1[..|path|] == path
      && (Ranked(prereqs, universe, rank) ==> InOrder(prereqs, r.1))
    decreases universe - visited, |cs| - i + 1
  {
    if i < |cs| {
      WalkKeepsGood(prereqs, universe, cs[i], visited, path, stack, rank);
      var (v, p) := Walk(prereqs, universe, cs[i], visited, path);
      WalkAllKeepsGood(prereqs, universe, cs, i + 1, v, p, stack, rank);
      var r := WalkAll(prereqs, universe, cs, i + 1, v, p);
      assert r.1[..|path|] == r.1[..|p|][..|path|];
    }
  }

  /** The path has no repeats, ends with the target, and holds every prerequisite of
      each concept on it; when the prerequisite relation has no cycle, every
      prerequisite comes before its dependent. */
  lemma PathProperties(prereqs: string -> seq<string>, universe: set<string>, target: string, rank: string -> nat)
    requires Closed(prereqs, universe) && target in universe
    ensures var path := PathTo(prereqs, universe, target);
      && Distinct(path)
      && path != [] && path[|path| - 1] == target
      && Complete(prereqs, path)
      && (forall x :: x in path ==> x in universe)
      && (Ranked(prereqs, universe, rank) ==> InOrder(prereqs, path))
  {
    assert Good(prereqs, {}, [], {});
    WalkKeepsGood(prereqs, universe, target, {}, [], {}, rank);
    var r := Walk(prereqs, universe, target, {}, []);
    forall x | x in r.1 ensures x in universe {
      assert x in Elems(r.1);
    }
    forall i, p | 0 <= i < |r.1| && p in prereqs(r.1[i]) ensures p in r.1 {
      assert p in Elems(r.1);
    }
  }

  /** `build_path`, recursive over the prerequisites as the source is. */
  method BuildPath(prereqs: string -> seq<string>, ghost universe: set<string>, concept: string,
                   visited: set<string>, path: seq<string>)
    returns (visited': set<string>, path': seq<string>)
    requires Closed(prereqs, universe) && concept in universe && visited <= universe
    ensures (visited', path') == Walk(prereqs, universe, concept, visited, path)
    decreases universe - visited, 0
  {
    if concept in visited {
      return visited, path;
    }
    visited' := visited + {concept};
    path' := path;
    var cs := prereqs(concept);
    var i := 0;
    while i < |cs|
      invariant 0 <= i <= |cs|
      invariant visited + {concept} <= visited' <= universe
      invariant WalkAll(prereqs, universe, cs, 0, visited + {concept}, path)
             == WalkAll(prereqs, universe, cs, i, visited', path')
    {
      visited', path' := BuildPath(prereqs, universe, cs[i], visited', path');
      i := i + 1;
    }
    if concept !in path' {
      path' := path' + [concept];
    }
  }

  /** The learning path for `target`. */
  method LearningPathFor(prereqs: string -> seq<string>, ghost universe: set<string>, target: string)
    returns (path: seq<string>)
    requires Closed(prereqs, universe) && target in universe
    ensures path == PathTo(prereqs, universe, target)
  {
    var _, p := BuildPath(prereqs, universe, target, {}, []);
    path := p;
  }
}
