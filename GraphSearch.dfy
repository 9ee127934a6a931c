/**
 * The breadth-first search of networkx's `single_source_shortest_path_length` with a
 * cutoff, as `find_related_concepts` (knowledge_graph.py) uses it: the concepts
 * within `maxDistance` undirected steps of a start concept, with their distances,
 * in the order the search finds them.
 *
 * `adj` gives each concept's neighbours in adjacency order.
 */
module GraphSearch {

  /** The related-concept list is well formed: each concept once, never the start
      concept, with a distance in `[1, maxDistance]`, by non-decreasing distance. */
  predicate Listed(related: seq<(string, int)>, concept: string, maxDistance: int) {
    && (forall k :: 0 <= k < |related| ==> related[k].0 != concept && 1 <= related[k].1 <= maxDistance)
    && (forall k1, k2 :: 0 <= k1 < k2 < |related| ==>
          related[k1].1 <= related[k2].1 && related[k1].0 != related[k2].0)
  }

  /** Entry `k` is reached: it neighbours the start concept at distance 1, or a
      listed concept one step nearer. */
  predicate ReachedAt(adj: string -> seq<string>, concept: string, related: seq<(string, int)>, k: int)
    requires 0 <= k < |related|
  {
    || (related[k].1 == 1 && related[k].0 in adj(concept))
    || exists k2 :: 0 <= k2 < |related| && related[k2].1 == related[k].1 - 1 && related[k].0 in adj(related[k2].0)
  }

  /** Each listed distance is reached. */
  predicate Reached(adj: string -> seq<string>, concept: string, related: seq<(string, int)>) {
    forall k :: 0 <= k < |related| ==> ReachedAt(adj, concept, related, k)
  }

  /** Concept `n` is listed with a distance of at most `d`. */
  predicate ListedWithin(related: seq<(string, int)>, n: string, d: int) {
    exists k :: 0 <= k < |related| && related[k].0 == n && related[k].1 <= d
  }

  /** No neighbour is missed: the start concept's neighbours are listed at distance 1
      (when the cutoff allows any), and a neighbour of a concept listed nearer than
      the cutoff is listed at most one step further. */
  predicate Exhaustive(adj: string -> seq<string>, concept: string, maxDistance: int,
                       related: seq<(string, int)>) {
    && (1 <= maxDistance ==>
          forall n :: n in adj(concept) && n != concept ==> ListedWithin(related, n, 1))
    && (forall k, n :: 0 <= k < |related| && related[k].1 < maxDistance && n in adj(related[k].0) && n != concept ==>
          ListedWithin(related, n, related[k].1 + 1))
  }

  /** What holds between the levels of the breadth-first search: the bookkeeping of
      distances and positions, and a witness for each distance. */
  ghost predicate Searched(adj: string -> seq<string>, concept: string, level: int, seen: set<string>,
                           related: seq<(string, int)>, dist: map<string, int>,
                           pos: map<string, int>, via: seq<int>) {
    Indexed(concept, level, seen, related, dist, pos) && Witnessed(adj, concept, related, via)
  }

  /** `seen` is the set of keys of the distance map `dist`; `related` lists every
      seen concept but the start exactly once (at index `pos[n]`), with its distance,
      by non-decreasing distance; and each distance is at most `level`. */
  ghost predicate Indexed(concept: string, level: int, seen: set<string>,
                          related: seq<(string, int)>, dist: map<string, int>, pos: map<string, int>) {
    && seen == dist.Keys && concept in dist && dist[concept] == 0
    && (forall k :: 0 <= k < |related| ==>
          related[k].0 in dist && dist[related[k].0] == related[k].1 && related[k].0 != concept
          && related[k].0 in pos && pos[related[k].0] == k)
    && (forall n :: n in dist && n != concept ==> n in pos && 0 <= pos[n] < |related| && related[pos[n]].0 == n)
    && (forall k1, k2 :: 0 <= k1 < k2 < |related| ==> related[k1].1 <= related[k2].1)
    && (forall n :: n in dist ==> 0 <= dist[n] <= level && (n != concept ==> 1 <= dist[n]))
  }

  /** Each listed concept is a neighbour of the start (`via[k] == -1`) at distance 1,
      or of the concept at index `via[k]`, one step nearer. */
  ghost predicate Witnessed(adj: string -> seq<string>, concept: string, related: seq<(string, int)>, via: seq<int>) {
    && |via| == |related|
    && (forall k {:trigger via[k]} :: 0 <= k < |via| ==>
          (via[k] == -1 && related[k].1 == 1 && related[k].0 in adj(concept))
          || (0 <= via[k] < |related| && related[via[k]].1 == related[k].1 - 1
              && related[k].0 in adj(related[via[k]].0)))
  }

  /** The distances of `before` are kept in `after`. */
  ghost predicate Extends(before: map<string, int>, after: map<string, int>) {
    forall n :: n in before ==> n in after && after[n] == before[n]
  }

  /** The step from concept `v` to its neighbour `w`, as an entry of `via`. */
  ghost function ViaOf(concept: string, v: string, pos: map<string, int>): int {
    if v == concept || v !in pos then -1 else pos[v]
  }

  /** Seeing a neighbour `w` of a concept `v` at distance `level - 1` for the first
      time, at distance `level`. */
  lemma SearchAdd(adj: string -> seq<string>, concept: string, level: int, v: string, w: string,
                  seen: set<string>, related: seq<(string, int)>, dist: map<string, int>,
                  pos: map<string, int>, via: seq<int>)
    requires 1 <= level && Searched(adj, concept, level, seen, related, dist, pos, via)
    requires v in dist && dist[v] == level - 1 && w in adj(v) && w !in seen
    ensures Searched(adj, concept, level, seen + {w}, related + [(w, level)], dist[w := level],
                     pos[w := |related|], via + [ViaOf(concept, v, pos)])
  {
    var related', via' := related + [(w, level)], via + [ViaOf(concept, v, pos)];
    assert related'[|related|] == (w, level);
    forall k {:trigger via'[k]} | 0 <= k < |via'|
      ensures (via'[k] == -1 && related'[k].1 == 1 && related'[k].0 in adj(concept))
        || (0 <= via'[k] < |related'| && related'[via'[k]].1 == related'[k].1 - 1
            && related'[k].0 in adj(related'[via'[k]].0))
    {
      if k < |via| {
        assert via'[k] == via[k] && related'[k] == related[k];
        if via[k] != -1 {
          assert related'[via[k]] == related[via[k]];
        }
      } else if v != concept {
        assert related'[pos[v]] == related[pos[v]];
      }
    }
  }

  /** The inner loop of the search: the neighbours of `v` not yet seen, at distance
      `level`. */
  method Expand(adj: string -> seq<string>, concept: string, level: int, v: string,
                seen: set<string>, nextlevel: seq<string>, related: seq<(string, int)>,
                ghost dist: map<string, int>, ghost pos: map<string, int>, ghost via: seq<int>)
    returns (seen': set<string>, nextlevel': seq<string>, related': seq<(string, int)>,
             ghost dist': map<string, int>, ghost pos': map<string, int>, ghost via': seq<int>)
    requires 1 <= level && Searched(adj, concept, level, seen, related, dist, pos, via)
    requires v in dist && dist[v] == level - 1
    requires forall n :: n in nextlevel <==> n in dist && dist[n] == level
    ensures Searched(adj, concept, level, seen', related', dist', pos', via') && Extends(dist, dist')
    ensures forall n :: n in dist' && n !in dist ==> dist'[n] == level
    ensures forall n :: n in nextlevel' <==> n in dist' && dist'[n] == level
    ensures forall n :: n in adj(v) ==> n in dist' && dist'[n] <= level
  {
    seen', nextlevel', related', dist', pos', via' := seen, nextlevel, related, dist, pos, via;
    var ns := adj(v);
    var t := 0;
    while t < |ns|
      invariant 0 <= t <= |ns|
      invariant Searched(adj, concept, level, seen', related', dist', pos', via') && Extends(dist, dist')
      invariant forall n :: n in dist' && n !in dist ==> dist'[n] == level
      invariant v in dist' && dist'[v] == level - 1
      invariant forall n :: n in nextlevel' <==> n in dist' && dist'[n] == level
      invariant forall n :: n in ns[..t] ==> n in dist' && dist'[n] <= level
    {
      var w := ns[t];
      if w !in seen' {
        SearchAdd(adj, concept, level, v, w, seen', related', dist', pos', via');
        via' := via' + [ViaOf(concept, v, pos')];
        pos' := pos'[w := |related'|];
        seen' := seen' + {w};
        nextlevel' := nextlevel' + [w];
        related' := related' + [(w, level)];
        dist' := dist'[w := level];
      }
      assert ns[..t + 1] == ns[..t] + [w];
      t := t + 1;
    }
    assert ns[..t] == ns;
  }

  /** One level of the search: every concept of `thislevel` (the concepts at distance
      `level - 1`) expanded in turn. */
  method ExpandLevel(adj: string -> seq<string>, concept: string, level: int, thislevel: seq<string>,
                     seen: set<string>, related: seq<(string, int)>,
                     ghost dist: map<string, int>, ghost pos: map<string, int>, ghost via: seq<int>)
    returns (seen': set<string>, nextlevel: seq<string>, related': seq<(string, int)>,
             ghost dist': map<string, int>, ghost pos': map<string, int>, ghost via': seq<int>)
    requires 1 <= level && Searched(adj, concept, level, seen, related, dist, pos, via)
    requires forall n :: n in thislevel ==> n in dist && dist[n] == level - 1
    requires forall n :: n in dist ==> dist[n] < level
    ensures Searched(adj, concept, level, seen', related', dist', pos', via')
    ensures Extends(dist, dist') && forall n :: n in dist' && n !in dist ==> dist'[n] == level
    ensures forall n :: n in nextlevel <==> n in dist' && dist'[n] == level
    ensures forall i, n :: 0 <= i < |thislevel| && n in adj(thislevel[i]) ==> n in dist' && dist'[n] <= level
  {
    seen', related', dist', pos', via' := seen, related, dist, pos, via;
    nextlevel := [];
    var j := 0;
    while j < |thislevel|
      invariant 0 <= j <= |thislevel|
      invariant Searched(adj, concept, level, seen', related', dist', pos', via') && Extends(dist, dist')
      invariant forall n :: n in dist' && n !in dist ==> dist'[n] == level
      invariant forall n :: n in nextlevel <==> n in dist' && dist'[n] == level
      invariant forall i, n :: 0 <= i < j && n in adj(thislevel[i]) ==> n in dist' && dist'[n] <= level
    {
      assert thislevel[j] in dist;
      ghost var before := dist';
      seen', nextlevel, related', dist', pos', via' :=
        Expand(adj, concept, level, thislevel[j], seen', nextlevel, related', dist', pos', via');
      ExpandedOne(adj, level, thislevel, j, dist, before, dist');
      j := j + 1;
    }
  }

  /** What holds at one level holds at the next, before its concepts are seen. */
  lemma SearchedRaise(adj: string -> seq<string>, concept: string, level: int, seen: set<string>,
                      related: seq<(string, int)>, dist: map<string, int>, pos: map<string, int>, via: seq<int>)
    requires Searched(adj, concept, level - 1, seen, related, dist, pos, via)
    ensures Searched(adj, concept, level, seen, related, dist, pos, via)
    ensures forall n :: n in dist ==> dist[n] < level
  {
  }

  /** The level's bookkeeping after expanding `thislevel[j]`, which took the
      distances from `before` to `after`. */
  lemma ExpandedOne(adj: string -> seq<string>, level: int, thislevel: seq<string>, j: int,
                    dist: map<string, int>, before: map<string, int>, after: map<string, int>)
    requires 0 <= j < |thislevel|
    requires Extends(dist, before) && forall n :: n in before && n !in dist ==> before[n] == level
    requires forall i, n :: 0 <= i < j && n in adj(thislevel[i]) ==> n in before && before[n] <= level
    requires Extends(before, after) && forall n :: n in after && n !in before ==> after[n] == level
    requires forall n :: n in adj(thislevel[j]) ==> n in after && after[n] <= level
    ensures Extends(dist, after) && forall n :: n in after && n !in dist ==> after[n] == level
    ensures forall i, n :: 0 <= i < j + 1 && n in adj(thislevel[i]) ==> n in after && after[n] <= level
  {
  }

  /** After a level, every neighbour of a concept nearer than `level` has a distance
      at most one more. */
  lemma LevelComplete(adj: string -> seq<string>, level: int, thislevel: seq<string>,
                      dist: map<string, int>, dist': map<string, int>)
    requires Extends(dist, dist') && forall n :: n in dist' && n !in dist ==> dist'[n] == level
    requires forall n :: n in thislevel <==> n in dist && dist[n] == level - 1
    requires forall m, n :: m in dist && dist[m] < level - 1 && n in adj(m) ==> n in dist && dist[n] <= dist[m] + 1
    requires forall i, n :: 0 <= i < |thislevel| && n in adj(thislevel[i]) ==> n in dist' && dist'[n] <= level
    requires forall n :: n in dist ==> dist[n] <= level - 1
    ensures forall m, n :: m in dist' && dist'[m] < level && n in adj(m) ==> n in dist' && dist'[n] <= dist'[m] + 1
  {
    forall m, n | m in dist' && dist'[m] < level && n in adj(m) ensures n in dist' && dist'[n] <= dist'[m] + 1 {
      assert m in dist;
      if dist[m] < level - 1 {
        assert n in dist;
      } else {
        assert m in thislevel;
        var i :| 0 <= i < |thislevel| && thislevel[i] == m;
      }
    }
  }

  /** `single_source_shortest_path_length` of networkx with a cutoff, followed by
      dropping the start concept: a breadth-first search level by level, each level
      in the order the previous one was found and each concept's neighbours in
      adjacency order. */
  method Search(adj: string -> seq<string>, concept: string, maxDistance: int) returns (related: seq<(string, int)>)
    ensures Listed(related, concept, maxDistance)
    ensures Reached(adj, concept, related)
    ensures Exhaustive(adj, concept, maxDistance, related)
  {
    related := [];
    var seen: set<string> := {concept};
    var nextlevel: seq<string> := [concept];
    var level := 0;
    ghost var dist: map<string, int> := map[concept := 0];
    ghost var pos: map<string, int> := map[];
    ghost var via: seq<int> := [];
    while nextlevel != [] && maxDistance > level
      invariant 0 <= level && (level == 0 || level <= maxDistance)
      invariant Searched(adj, concept, level, seen, related, dist, pos, via)
      invariant forall n :: n in nextlevel <==> n in dist && dist[n] == level
      invariant forall m, n :: m in dist && dist[m] < level && n in adj(m) ==> n in dist && dist[n] <= dist[m] + 1
      decreases maxDistance - level
    {
      level := level + 1;
      seen, nextlevel, related, dist, pos, via := SearchLevel(adj, concept, level, nextlevel, seen, related, dist, pos, via);
    }
    SearchDone(adj, concept, level, maxDistance, seen, nextlevel, related, dist, pos, via);
  }

  /** One turn of the search loop: the concepts at distance `level`, found from
      those at `level - 1`. */
  method SearchLevel(adj: string -> seq<string>, concept: string, level: int, thislevel: seq<string>,
                     seen: set<string>, related: seq<(string, int)>,
                     ghost dist: map<string, int>, ghost pos: map<string, int>, ghost via: seq<int>)
    returns (seen': set<string>, nextlevel: seq<string>, related': seq<(string, int)>,
             ghost dist': map<string, int>, ghost pos': map<string, int>, ghost via': seq<int>)
    requires 1 <= level && Searched(adj, concept, level - 1, seen, related, dist, pos, via)
    requires forall n :: n in thislevel <==> n in dist && dist[n] == level - 1
    requires forall m, n :: m in dist && dist[m] < level - 1 && n in adj(m) ==> n in dist && dist[n] <= dist[m] + 1
    ensures Searched(adj, concept, level, seen', related', dist', pos', via')
    ensures forall n :: n in nextlevel <==> n in dist' && dist'[n] == level
    ensures forall m, n :: m in dist' && dist'[m] < level && n in adj(m) ==> n in dist' && dist'[n] <= dist'[m] + 1
  {
    SearchedRaise(adj, concept, level, seen, related, dist, pos, via);
    seen', nextlevel, related', dist', pos', via' := ExpandLevel(adj, concept, level, thislevel, seen, related, dist, pos, via);
    LevelComplete(adj, level, thislevel, dist, dist');
  }

  /** The search's invariants, once it stops, in terms of the list alone. */
  lemma SearchDone(adj: string -> seq<string>, concept: string, level: int, maxDistance: int,
                   seen: set<string>, nextlevel: seq<string>, related: seq<(string, int)>,
                   dist: map<string, int>, pos: map<string, int>, via: seq<int>)
    requires 0 <= level && (level == 0 || level <= maxDistance)
    requires Searched(adj, concept, level, seen, related, dist, pos, via)
    requires forall n :: n in nextlevel <==> n in dist && dist[n] == level
    requires forall m, n :: m in dist && dist[m] < level && n in adj(m) ==> n in dist && dist[n] <= dist[m] + 1
    requires nextlevel == [] || maxDistance <= level
    ensures Listed(related, concept, maxDistance)
    ensures Reached(adj, concept, related)
    ensures Exhaustive(adj, concept, maxDistance, related)
  {
    SearchListed(adj, concept, level, maxDistance, seen, related, dist, pos, via);
    SearchReached(adj, concept, level, seen, related, dist, pos, via);
    SearchExhaustive(adj, concept, level, maxDistance, seen, nextlevel, related, dist, pos, via);
  }

  /** The search's invariants give the well-formed list. */
  lemma SearchListed(adj: string -> seq<string>, concept: string, level: int, maxDistance: int,
                     seen: set<string>, related: seq<(string, int)>,
                     dist: map<string, int>, pos: map<string, int>, via: seq<int>)
    requires level == 0 || level <= maxDistance
    requires Searched(adj, concept, level, seen, related, dist, pos, via)
    ensures Listed(related, concept, maxDistance)
  {
    forall k | 0 <= k < |related| ensures related[k].0 != concept && 1 <= related[k].1 <= maxDistance {
      assert related[k].0 in dist;
    }
  }

  /** The `via` bookkeeping gives the reaching neighbour of each entry. */
  lemma SearchReached(adj: string -> seq<string>, concept: string, level: int,
                      seen: set<string>, related: seq<(string, int)>,
                      dist: map<string, int>, pos: map<string, int>, via: seq<int>)
    requires Searched(adj, concept, level, seen, related, dist, pos, via)
    ensures Reached(adj, concept, related)
  {
    forall k | 0 <= k < |related| ensures ReachedAt(adj, concept, related, k) {
      if via[k] != -1 {
        var k2 := via[k];
        assert related[k2].1 == related[k].1 - 1 && related[k].0 in adj(related[k2].0);
      }
    }
  }

  /** Once the search stops, with no level left or at the cutoff, no neighbour is
      missed. */
  lemma SearchExhaustive(adj: string -> seq<string>, concept: string, level: int, maxDistance: int,
                         seen: set<string>, nextlevel: seq<string>, related: seq<(string, int)>,
                         dist: map<string, int>, pos: map<string, int>, via: seq<int>)
    requires 0 <= level && (level == 0 || level <= maxDistance)
    requires Searched(adj, concept, level, seen, related, dist, pos, via)
    requires forall n :: n in nextlevel <==> n in dist && dist[n] == level
    requires forall m, n :: m in dist && dist[m] < level && n in adj(m) ==> n in dist && dist[n] <= dist[m] + 1
    requires nextlevel == [] || maxDistance <= level
    ensures Exhaustive(adj, concept, maxDistance, related)
  {
    if 1 <= maxDistance {
      assert concept !in nextlevel;
      forall n | n in adj(concept) && n != concept ensures ListedWithin(related, n, 1) {
        assert related[pos[n]] == (n, 1);
      }
    }
    forall k, n | 0 <= k < |related| && related[k].1 < maxDistance && n in adj(related[k].0) && n != concept
      ensures ListedWithin(related, n, related[k].1 + 1)
    {
      var m := related[k].0;
      assert m !in nextlevel ==> dist[m] < level;
      assert related[pos[n]].0 == n;
    }
  }
}
