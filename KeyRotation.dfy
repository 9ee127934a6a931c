/**
 * Round-robin selection over a non-empty list of API keys, as done by
 * `ChemistryAgent.get_next_key` and `ContentGenerator.get_next_key`:
 * return `keys[index]`, then move the index to `(index + 1) % len(keys)`.
 */
module KeyRotation {

  /** The index after one selection. */
  function Advance(i: nat, n: nat): (j: nat)
    requires n > 0
    ensures j < n
  {
    (i + 1) % n
  }

  /** The index after `k` selections starting from index `i`. */
  function AdvanceBy(i: nat, n: nat, k: nat): (j: nat)
    requires n > 0
    decreases k
  {
    if k == 0 then i else Advance(AdvanceBy(i, n, k - 1), n)
  }

  /** After `k` selections the index is `(i + k) % n`: the key used by the `k`-th
      selection (counting from 0) is `keys[(i + k) % n]`. */
  lemma {:induction false} AdvanceByIsModular(i: nat, n: nat, k: nat)
    requires n > 0 && i < n
    ensures AdvanceBy(i, n, k) == (i + k) % n
    decreases k
  {
    if k > 0 {
      var p := i + k - 1;
      var prev := AdvanceBy(i, n, k - 1);
      AdvanceByIsModular(i, n, k - 1);
      assert prev == p % n;
      assert AdvanceBy(i, n, k) == (prev + 1) % n;
      ModSuccessor(p, n);
      assert p + 1 == i + k;
    }
  }

  /** Taking one key and then `k` more is taking `k + 1` keys. */
  lemma {:induction false} AdvanceByShift(i: nat, n: nat, k: nat)
    requires n > 0
    ensures AdvanceBy(Advance(i, n), n, k) == AdvanceBy(i, n, k + 1)
    decreases k
  {
    if k > 0 {
      AdvanceByShift(i, n, k - 1);
    }
  }

  lemma ModSuccessor(p: nat, n: nat)
    requires n > 0
    ensures (p % n + 1) % n == (p + 1) % n
  {
    var q, r := p / n, p % n;
    if r + 1 < n {
      ModUnique(r + 1, 0, r + 1, n);
      ModUnique(p + 1, q, r + 1, n);
    } else {
      ModUnique(n, 1, 0, n);
      assert p + 1 == (q + 1) * n + 0 by {
        assert (q + 1) * n == q * n + n;
      }
      ModUnique(p + 1, q + 1, 0, n);
    }
  }

  /** The key at index `m` is reached after `(m - i) mod n` selections. */
  lemma RoundRobinReaches(i: nat, n: nat, m: nat)
    requires n > 0 && i < n && m < n
    ensures var k := (m + n - i) % n; k < n && AdvanceBy(i, n, k) == m
  {
    var k := (m + n - i) % n;
    if m >= i {
      ModUnique(m + n - i, 1, m - i, n);
      assert k == m - i;
      assert i + k == m;
      ModUnique(m, 0, m, n);
    } else {
      ModUnique(m + n - i, 0, m + n - i, n);
      assert k == m + n - i;
      assert i + k == m + n;
      ModUnique(m + n, 1, m, n);
    }
    assert (i + k) % n == m;
    AdvanceByIsModular(i, n, k);
  }

  /** The first `n` selections all pick different keys. */
  lemma RoundRobinDistinct(i: nat, n: nat)
    requires n > 0 && i < n
    ensures forall k1, k2 :: 0 <= k1 < k2 < n ==> AdvanceBy(i, n, k1) != AdvanceBy(i, n, k2)
  {
    forall k1, k2 | 0 <= k1 < k2 < n
      ensures AdvanceBy(i, n, k1) != AdvanceBy(i, n, k2)
    {
      AdvanceByIsModular(i, n, k1);
      AdvanceByIsModular(i, n, k2);
      ModEqualWithinWindow(i + k1, i + k2, n);
    }
  }

  /** Fairness: starting anywhere, `n` consecutive selections use every key exactly once. */
  lemma RoundRobinUsesEveryKey(i: nat, n: nat, m: nat)
    requires n > 0 && i < n && m < n
    ensures var k := (m + n - i) % n; k < n && AdvanceBy(i, n, k) == m
    ensures forall k1, k2 :: 0 <= k1 < k2 < n ==> AdvanceBy(i, n, k1) != AdvanceBy(i, n, k2)
  {
    RoundRobinReaches(i, n, m);
    RoundRobinDistinct(i, n);
  }

  lemma ModEqualWithinWindow(a: nat, b: nat, n: nat)
    requires n > 0 && a < b < a + n
    ensures a % n != b % n
  {
    var qa, qb := a / n, b / n;
    if a % n == b % n {
      var d := qb - qa;
      assert b - a == d * n by {
        assert a == qa * n + a % n;
        assert b == qb * n + b % n;
        assert qb * n - qa * n == d * n;
      }
      MultipleOutsideWindow(d, n);
    }
  }

  lemma MulNonneg(a: int, b: int)
    requires a >= 0 && b >= 0
    ensures a * b >= 0
  {}

  /** A non-zero multiple of `n` is at least `n` away from zero. */
  lemma MultipleOutsideWindow(d: int, n: int)
    requires n > 0
    ensures d >= 1 ==> d * n >= n
    ensures d <= 0 ==> d * n <= 0
    ensures d <= -1 ==> d * n <= -n
  {
    if d >= 1 {
      MulNonneg(d - 1, n);
      assert d * n == (d - 1) * n + n;
    } else if d <= -1 {
      MulNonneg(-d - 1, n);
      assert d * n == -((-d - 1) * n) - n;
    } else {
      assert d == 0;
    }
  }

  /** Euclidean division is unique: `q * n + r` with `0 <= r < n` has quotient `q`, remainder `r`. */
  lemma ModUnique(x: int, q: int, r: int, n: int)
    requires n > 0 && 0 <= r < n && x == q * n + r
    ensures x % n == r && x / n == q
  {
    var q0, r0 := x / n, x % n;
    var d := q - q0;
    assert d * n == r0 - r by {
      assert x == q0 * n + r0;
      assert q * n - q0 * n == (q - q0) * n;
    }
    MultipleOutsideWindow(d, n);
  }
}
