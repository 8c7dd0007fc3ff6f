/** Sequence-number arithmetic modulo 8 or 128, written without `%` so that it stays linear. */
module Modular {
  /** `x mod m` for `x < 2 * m`. */
  function Wrap(x: nat, m: nat): nat {
    if x < m then x else x - m
  }

  /** Number of increments that lead from `a` to `b` modulo `m`. */
  function Gap(a: nat, b: nat, m: nat): nat {
    if a <= b then b - a else if a <= b + m then b + m - a else 0
  }

  function Min(a: nat, b: nat): nat {
    if a <= b then a else b
  }

  /** The source's `(x + 1) % modulus`. */
  lemma WrapIsMod(x: nat, m: nat)
    requires m > 0 && x < 2 * m
    ensures Wrap(x, m) == x % m
  {
    if x >= m {
      assert x == 1 * m + (x - m);
      assert x % m == x - m;
    }
  }

  /** Gap and Wrap are the two directions of the same walk round the circle. */
  lemma GapWrap(a: nat, b: nat, m: nat)
    requires a < m && b < m
    ensures Gap(a, b, m) < m && Wrap(a + Gap(a, b, m), m) == b
    ensures Gap(a, b, m) == (b - a) % m
  {
    if a <= b {
      ModUnique(b - a, 0, b - a, m);
    } else {
      ModUnique(b - a, -1, b + m - a, m);
    }
  }

  /** One step of a walk from `a` towards `b`. */
  lemma GapNext(a: nat, b: nat, m: nat)
    requires a < m && b < m && a != b
    ensures Wrap(a + 1, m) < m && Gap(Wrap(a + 1, m), b, m) + 1 == Gap(a, b, m)
    ensures Wrap(a + 1, m) == (a + 1) % m
  {
    WrapIsMod(a + 1, m);
  }

  lemma WrapNext(a: nat, k: nat, m: nat)
    requires a < m && k < m
    ensures Wrap(Wrap(a + k, m) + 1, m) == Wrap(a + k + 1, m)
  {
  }

  /** Congruence: an absolute counter and its remainder advance together. */
  lemma AddMod(n: nat, k: nat, m: nat)
    requires m > 0 && k < m
    ensures (n + k) % m == Wrap(n % m + k, m)
  {
    var q, r := n / m, n % m;
    assert n == q * m + r;
    if r + k < m {
      assert n + k == q * m + (r + k);
      ModUnique(n + k, q, r + k, m);
    } else {
      assert n + k == (q + 1) * m + (r + k - m);
      ModUnique(n + k, q + 1, r + k - m, m);
    }
  }

  lemma ModUnique(x: int, q: int, r: nat, m: nat)
    requires m > 0 && r < m && x == q * m + r
    ensures x % m == r && x / m == q
  {
    MulCancel(q, x / m, r, x % m, m);
  }

  lemma MulCancel(p: int, q: int, r: nat, t: nat, m: nat)
    requires r < m && t < m && p * m + r == q * m + t
    ensures p == q && r == t
  {
    assert (q - p) * m == q * m - p * m;
    MulAtLeast(q - p, m);
  }

  lemma MulAtLeast(d: int, m: nat)
    ensures d >= 1 ==> d * m >= m
    ensures d <= -1 ==> d * m + m <= 0
  {
    if d >= 1 {
      assert (d - 1) * m >= 0;
    } else if d <= -1 {
      assert (-d - 1) * m >= 0;
    }
  }

  /** Two numbers less than `m` apart with the same remainder are equal. */
  lemma ModInjective(x: nat, y: nat, m: nat)
    requires m > 0 && x % m == y % m
    requires x < y + m && y < x + m
    ensures x == y
  {
    assert (x / m - y / m) * m == (x / m) * m - (y / m) * m == x - y;
    MulAtLeast(x / m - y / m, m);
  }

  /** The gap between two remainders is the distance of the absolute counters. */
  lemma GapOfMod(n: nat, k: nat, m: nat)
    requires m > 0 && k < m
    ensures Gap(n % m, (n + k) % m, m) == k
  {
    AddMod(n, k, m);
  }
}
