/**
 * The vote dictionary of `_count_votes` (multi_agent.py) and the "first maximal
 * element" rule of Python's `max`, which decides both tie-breaks of the debate.
 *
 * A Python dict keeps insertion order, so it is modelled as a list of (label,
 * count) pairs: `Lookup` is `votes.get(label, 0)` and `Assign` is
 * `votes[label] = count`, which overwrites an existing entry in place and appends
 * a new one at the end.
 */
module Votes {

  type VoteTable = seq<(string, nat)>

  /** `votes.get(label, 0)`. */
  function Lookup(v: VoteTable, choice: string): nat
    decreases |v|
  {
    if v == [] then 0 else if v[0].0 == choice then v[0].1 else Lookup(v[1..], choice)
  }

  /** `votes[label] = count`. */
  function Assign(v: VoteTable, choice: string, count: nat): (r: VoteTable)
    ensures |r| > 0
    decreases |v|
  {
    if v == [] then [(choice, count)]
    else if v[0].0 == choice then [(choice, count)] + v[1..]
    else [v[0]] + Assign(v[1..], choice, count)
  }

  /** `list(votes.keys())`. */
  function Labels(v: VoteTable): (ls: seq<string>)
    ensures |ls| == |v|
    ensures forall j :: 0 <= j < |v| ==> ls[j] == v[j].0
    decreases |v|
  {
    if v == [] then [] else [v[0].0] + Labels(v[1..])
  }

  /** `sum(votes.values())`. */
  function Total(v: VoteTable): nat
    decreases |v|
  {
    if v == [] then 0 else v[0].1 + Total(v[1..])
  }

  predicate NoDuplicates(xs: seq<string>) {
    forall i, j :: 0 <= i < j < |xs| ==> xs[i] != xs[j]
  }

  /** The votes for the answers `xs`, counted in order as `_count_votes` does. */
  function Tally(xs: seq<string>): (v: VoteTable)
    ensures xs != [] ==> |v| > 0
    decreases |xs|
  {
    if xs == [] then []
    else
      var t := Tally(xs[..|xs| - 1]);
      var a := xs[|xs| - 1];
      Assign(t, a, Lookup(t, a) + 1)
  }

  /** Reference definition of key order: the distinct labels of `xs` in order of
      first appearance. */
  function FirstSeen(xs: seq<string>): seq<string>
    decreases |xs|
  {
    if xs == [] then []
    else
      var d := FirstSeen(xs[..|xs| - 1]);
      if xs[|xs| - 1] in d then d else d + [xs[|xs| - 1]]
  }

  lemma {:induction false} LookupAssign(v: VoteTable, choice: string, count: nat, other: string)
    ensures Lookup(Assign(v, choice, count), other) == if other == choice then count else Lookup(v, other)
    decreases |v|
  {
    if v != [] && v[0].0 != choice {
      LookupAssign(v[1..], choice, count, other);
      assert Assign(v, choice, count)[1..] == Assign(v[1..], choice, count);
    }
  }

  lemma {:induction false} LabelsAssign(v: VoteTable, choice: string, count: nat)
    ensures Labels(Assign(v, choice, count)) == if choice in Labels(v) then Labels(v) else Labels(v) + [choice]
    decreases |v|
  {
    if v != [] && v[0].0 != choice {
      LabelsAssign(v[1..], choice, count);
      assert Assign(v, choice, count)[1..] == Assign(v[1..], choice, count);
      assert Labels(v) == [v[0].0] + Labels(v[1..]);
      assert choice in Labels(v) <==> choice in Labels(v[1..]);
    }
  }

  lemma {:induction false} TotalAssign(v: VoteTable, choice: string, count: nat)
    ensures Total(Assign(v, choice, count)) + Lookup(v, choice) == Total(v) + count
    decreases |v|
  {
    if v != [] && v[0].0 != choice {
      TotalAssign(v[1..], choice, count);
      assert Assign(v, choice, count)[1..] == Assign(v[1..], choice, count);
    }
  }

  /** In a table without repeated labels the first match is the only one. */
  lemma {:induction false} LookupAt(v: VoteTable, k: nat)
    requires k < |v| && NoDuplicates(Labels(v))
    ensures Lookup(v, v[k].0) == v[k].1
    decreases k
  {
    if k > 0 {
      assert Labels(v)[0] != Labels(v)[k];
      var w := v[1..];
      assert Labels(w) == Labels(v)[1..];
      LookupAt(w, k - 1);
    }
  }

  /** `FirstSeen` has no repeats and holds exactly the labels that occur in `xs`. */
  lemma {:induction false} FirstSeenFacts(xs: seq<string>)
    ensures NoDuplicates(FirstSeen(xs))
    ensures forall l :: l in FirstSeen(xs) <==> l in xs
    decreases |xs|
  {
    if xs != [] {
      var init := xs[..|xs| - 1];
      FirstSeenFacts(init);
      assert xs == init + [xs[|xs| - 1]];
    }
  }

  /** The tally's keys are the answers in order of first appearance. */
  lemma {:induction false} TallyLabels(xs: seq<string>)
    ensures Labels(Tally(xs)) == FirstSeen(xs)
    decreases |xs|
  {
    if xs != [] {
      var init := xs[..|xs| - 1];
      var a := xs[|xs| - 1];
      var t := Tally(init);
      TallyLabels(init);
      LabelsAssign(t, a, Lookup(t, a) + 1);
    }
  }

  /** Each answer is counted as often as it occurs. */
  lemma {:induction false} TallyCounts(xs: seq<string>, l: string)
    ensures Lookup(Tally(xs), l) == multiset(xs)[l]
    decreases |xs|
  {
    if xs != [] {
      var init := xs[..|xs| - 1];
      var a := xs[|xs| - 1];
      var t := Tally(init);
      TallyCounts(init, l);
      LookupAssign(t, a, Lookup(t, a) + 1, l);
      assert xs == init + [a];
      assert multiset(xs) == multiset(init) + multiset{a};
    }
  }

  /** The counts add up to the number of answers. */
  lemma {:induction false} TallyTotal(xs: seq<string>)
    ensures Total(Tally(xs)) == |xs|
    decreases |xs|
  {
    if xs != [] {
      var init := xs[..|xs| - 1];
      var a := xs[|xs| - 1];
      var t := Tally(init);
      TallyTotal(init);
      TotalAssign(t, a, Lookup(t, a) + 1);
    }
  }

  /** What `_count_votes` returns: the keys are the distinct answers in order of first
      appearance, each with its number of occurrences, and the counts add up to the
      number of responses. */
  lemma TallyFacts(xs: seq<string>)
    ensures Labels(Tally(xs)) == FirstSeen(xs)
    ensures NoDuplicates(Labels(Tally(xs)))
    ensures forall l :: Lookup(Tally(xs), l) == multiset(xs)[l]
    ensures forall l :: l in Labels(Tally(xs)) <==> l in xs
    ensures Total(Tally(xs)) == |xs|
  {
    FirstSeenFacts(xs);
    TallyLabels(xs);
    TallyTotal(xs);
    forall l ensures Lookup(Tally(xs), l) == multiset(xs)[l] {
      TallyCounts(xs, l);
    }
  }

  /** All answers equal is the same as a single key in the tally. */
  lemma UnanimityIsOneLabel(xs: seq<string>)
    ensures |Tally(xs)| == 1 <==> xs != [] && forall i :: 0 <= i < |xs| ==> xs[i] == xs[0]
  {
    TallyFacts(xs);
    var ls := Labels(Tally(xs));
    if xs != [] && forall i :: 0 <= i < |xs| ==> xs[i] == xs[0] {
      forall j | 0 <= j < |ls| ensures ls[j] == xs[0] {
        assert ls[j] in xs;
      }
      assert xs[0] in ls;
    }
    if |Tally(xs)| == 1 {
      forall i | 0 <= i < |xs| ensures xs[i] == xs[0] {
        assert xs[i] in ls && xs[0] in ls;
      }
    }
  }

  /** Python's `max(xs, key=key)`: scan left to right, replacing the candidate only
      when a strictly larger key appears; the result is the first maximal element. */
  function FirstMaxBy<T>(xs: seq<T>, key: T -> int): (k: nat)
    requires |xs| > 0
    ensures k < |xs|
    ensures forall j :: 0 <= j < |xs| ==> key(xs[j]) <= key(xs[k])
    ensures forall j :: 0 <= j < k ==> key(xs[j]) < key(xs[k])
    decreases |xs|
  {
    if |xs| == 1 then 0
    else
      var b := FirstMaxBy(xs[..|xs| - 1], key);
      if key(xs[|xs| - 1]) > key(xs[b]) then |xs| - 1 else b
  }

  /** The label `max(votes.items(), key=lambda x: x[1])[0]` picks for the answers
      `xs`: it occurs at least as often as any other answer, and every answer seen
      for the first time before it (the keys are in first-seen order) occurs
      strictly less often. */
  lemma MajorityLabel(xs: seq<string>)
    requires xs != []
    ensures var t := Tally(xs);
      var k := FirstMaxBy(t, (e: (string, nat)) => e.1);
      var winner := t[k].0;
      && winner in xs
      && (forall l :: multiset(xs)[l] <= multiset(xs)[winner])
      && Labels(t) == FirstSeen(xs)
      && (forall j :: 0 <= j < k ==> multiset(xs)[t[j].0] < multiset(xs)[winner])
  {
    var t := Tally(xs);
    var key := (e: (string, nat)) => e.1;
    var k := FirstMaxBy(t, key);
    TallyFacts(xs);
    LookupAt(t, k);
    assert Labels(t)[k] == t[k].0;
    forall l ensures multiset(xs)[l] <= multiset(xs)[t[k].0] {
      if l in Labels(t) {
        var j :| 0 <= j < |t| && Labels(t)[j] == l;
        LookupAt(t, j);
        assert key(t[j]) <= key(t[k]);
      } else {
        assert multiset(xs)[l] == 0 by {
          assert l !in xs;
        }
      }
    }
    forall j | 0 <= j < k ensures multiset(xs)[t[j].0] < multiset(xs)[t[k].0] {
      LookupAt(t, j);
      assert key(t[j]) < key(t[k]);
    }
  }

  /** The labels of two tables one after the other. */
  lemma {:induction false} LabelsAppend(a: VoteTable, b: VoteTable)
    ensures Labels(a + b) == Labels(a) + Labels(b)
    decreases |a|
  {
    if a != [] {
      assert (a + b)[1..] == a[1..] + b;
      LabelsAppend(a[1..], b);
    }
  }

  /** The labels of a table are those of all but its last entry, then the last one. */
  lemma LabelsSnocEq(v: VoteTable)
    requires v != []
    ensures Labels(v) == Labels(v[..|v| - 1]) + [v[|v| - 1].0]
  {
    var init, last := v[..|v| - 1], v[|v| - 1];
    assert v == init + [last];
    LabelsAppend(init, [last]);
  }

  /** Dropping the last element of a list without repeats leaves one without
      repeats, and the dropped element is not among the rest. */
  lemma NoDuplicatesSnoc(xs: seq<string>, x: string)
    requires NoDuplicates(xs + [x])
    ensures NoDuplicates(xs) && x !in xs
  {
    var ys := xs + [x];
    forall i | 0 <= i < |xs|
      ensures xs[i] != x
    {
      assert ys[i] == xs[i] && ys[|xs|] == x;
    }
    forall i, j | 0 <= i < j < |xs|
      ensures xs[i] != xs[j]
    {
      assert ys[i] == xs[i] && ys[j] == xs[j];
    }
  }

  /** Dropping the last entry of a table without repeated labels leaves one
      without repeated labels, and the dropped label is not among the rest. */
  lemma LabelsSnoc(v: VoteTable)
    requires v != [] && NoDuplicates(Labels(v))
    ensures NoDuplicates(Labels(v[..|v| - 1]))
    ensures v[|v| - 1].0 !in Labels(v[..|v| - 1])
  {
    LabelsSnocEq(v);
    NoDuplicatesSnoc(Labels(v[..|v| - 1]), v[|v| - 1].0);
  }
}
