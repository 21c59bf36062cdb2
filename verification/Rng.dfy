/**
 * The seeded draws and how they are scaled to integers. The keyed hash behind a draw is not modelled: a round's draws are
 * an arbitrary stream that gives every cursor one of 2^52 equally spaced values.
 */
module Rng {
  import opened Arithmetic

  const DRAWS: nat := 0x10_0000_0000_0000
  type Draw = v: nat | v < DRAWS
  type Stream = nat -> Draw

  /** The draw as a fraction in [0, 1). */
  function SeededFloat(v: Draw): (x: real)
    ensures 0.0 <= x < 1.0
  {
    v as real / DRAWS as real
  }

  /** floor(v / range * n): the draw scaled to one of n values. */
  function Scale(v: nat, n: nat, range: nat): (k: nat)
    requires v < range && n > 0
    ensures k < n
  {
    ScaleInRange(v, n, range);
    v * n / range
  }

  lemma ScaleInRange(v: nat, n: nat, range: nat)
    requires v < range && n > 0
    ensures 0 <= v * n / range < n
  {
    var k := v * n / range;
    DivBounds(v * n, range);
    MulMonotone(v + 1, range, n);
    assert (v + 1) * n == v * n + n && n * range == range * n;
    Cancel(k, n, range);
  }

  /** An integer between min and max, both included. */
  function SeededInt(v: Draw, min: int, max: int): (k: int)
    requires min <= max
    ensures min <= k <= max
  {
    min + Scale(v, max - min + 1, DRAWS)
  }

  /** The least draw that is scaled to k or more. */
  function Boundary(k: nat, n: nat, range: nat): nat
    requires n > 0
  {
    (k * range + n - 1) / n
  }

  lemma ScaleBoundary(v: nat, k: nat, n: nat, range: nat)
    requires v < range && n > 0
    ensures Scale(v, n, range) >= k <==> v >= Boundary(k, n, range)
  {
    var s, b := Scale(v, n, range), Boundary(k, n, range);
    DivBounds(v * n, range);
    BoundaryBounds(k, n, range);
    if s >= k {
      MulMonotone(k, s, range);
      assert (v + 1) * n == v * n + n;
      Cancel(b, v + 1, n);
    } else {
      MulMonotone(s + 1, k, range);
      assert (s + 1) * range == s * range + range;
      Cancel(v, b, n);
    }
  }

  lemma BoundaryBounds(k: nat, n: nat, range: nat)
    requires n > 0
    ensures k * range <= Boundary(k, n, range) * n < k * range + n
  {
    DivBounds(k * range + n - 1, n);
  }

  function DrawsScaledTo(k: nat, n: nat, range: nat): set<nat>
    requires n > 0
  {
    set v: nat | v < range && Scale(v, n, range) == k
  }

  predicate AtLeast(v: nat, lo: nat) {
    lo <= v
  }

  function Interval(lo: nat, hi: nat): set<nat> {
    set v: nat | v < hi && AtLeast(v, lo)
  }

  lemma {:induction false} IntervalSize(lo: nat, hi: nat)
    requires lo <= hi
    ensures |Interval(lo, hi)| == hi - lo
  {
    if lo < hi {
      IntervalSize(lo, hi - 1);
      assert Interval(lo, hi) == Interval(lo, hi - 1) + {hi - 1};
    } else {
      assert Interval(lo, hi) == {};
    }
  }

  /** The number of draws below a real bound. */
  lemma DrawsBelow(bound: real, draws: set<nat>)
    requires 0.0 <= bound <= DRAWS as real
    requires forall v: nat :: v in draws <==> v < DRAWS && v as real < bound
    ensures bound <= |draws| as real < bound + 1.0
  {
    var count := if bound == bound.Floor as real then bound.Floor else bound.Floor + 1;
    assert draws == Interval(0, count);
    IntervalSize(0, count);
  }

  /** The number of draws up to a real bound, the bound included. */
  lemma DrawsUpTo(bound: real, draws: set<nat>)
    requires 0.0 <= bound < DRAWS as real
    requires forall v: nat :: v in draws <==> v < DRAWS && v as real <= bound
    ensures bound < |draws| as real <= bound + 1.0
  {
    assert draws == Interval(0, bound.Floor + 1);
    IntervalSize(0, bound.Floor + 1);
  }

  lemma DrawsAreAnInterval(k: nat, n: nat, range: nat)
    requires k < n
    ensures Boundary(k, n, range) <= Boundary(k + 1, n, range) <= range
    ensures DrawsScaledTo(k, n, range) == Interval(Boundary(k, n, range), Boundary(k + 1, n, range))
  {
    var lo, hi := Boundary(k, n, range), Boundary(k + 1, n, range);
    BoundaryBounds(k, n, range);
    BoundaryBounds(k + 1, n, range);
    MulMonotone(k + 1, n, range);
    assert (k + 1) * range == k * range + range;
    assert (hi + 1) * n == hi * n + n && (range + 1) * n == range * n + n && n * range == range * n;
    Cancel(lo, hi + 1, n);
    Cancel(hi, range + 1, n);
    forall v: nat | v < range
      ensures Scale(v, n, range) == k <==> lo <= v < hi
    {
      ScaleBoundary(v, k, n, range);
      ScaleBoundary(v, k + 1, n, range);
    }
  }

  /** Every value receives floor(range / n) of the draws, or one more: scaling is as even as it can be. */
  lemma DrawsPerValue(k: nat, n: nat, range: nat)
    requires k < n
    ensures range / n <= |DrawsScaledTo(k, n, range)| <= range / n + 1
  {
    var lo, hi := Boundary(k, n, range), Boundary(k + 1, n, range);
    DrawsAreAnInterval(k, n, range);
    IntervalSize(lo, hi);
    BoundaryBounds(k, n, range);
    BoundaryBounds(k + 1, n, range);
    GapBounds(lo, hi, k, n, range);
  }

  lemma GapBounds(lo: nat, hi: nat, k: nat, n: nat, range: nat)
    requires n > 0
    requires k * range <= lo * n < k * range + n
    requires (k + 1) * range <= hi * n < (k + 1) * range + n
    ensures range / n <= hi - lo <= range / n + 1
  {
    DivBounds(range, n);
    var c, q := hi - lo, range / n;
    assert (k + 1) * range == k * range + range;
    assert c * n == hi * n - lo * n;
    assert (c + 1) * n == c * n + n && (q + 2) * n == q * n + 2 * n;
    Cancel(q, c + 1, n);
    Cancel(c, q + 2, n);
  }

  /** What f comes to over the draws below n. */
  function SumBelow(n: nat, f: nat -> int): int {
    if n == 0 then 0 else SumBelow(n - 1, f) + f(n - 1)
  }

  /** Paying m on the draws that win and nothing on the others comes to m for each of them. */
  lemma {:induction false} SumOfWins(n: nat, f: nat -> int, wins: set<nat>, m: int)
    requires forall v: nat :: v < n ==> f(v) == if v in wins then m else 0
    requires forall v <- wins :: v < n
    ensures SumBelow(n, f) == m * |wins|
  {
    if n == 0 {
      assert wins == {};
    } else {
      var fewer := wins - {n - 1};
      SumOfWins(n - 1, f, fewer, m);
      if n - 1 in wins {
        assert m * |wins| == m * |fewer| + m;
      } else {
        assert fewer == wins;
      }
    }
  }

  /** The draws below n that h sends to k. */
  function DrawsTo(n: nat, h: nat -> nat, k: nat): set<nat> {
    set v: nat | v < n && h(v) == k
  }

  /** What g comes to over the values below m, each weighted by its draws. */
  function Weighted(n: nat, h: nat -> nat, m: nat, g: nat -> int): int {
    if m == 0 then 0 else Weighted(n, h, m - 1, g) + |DrawsTo(n, h, m - 1)| * g(m - 1)
  }

  lemma OneMoreDraw(n: nat, h: nat -> nat, k: nat)
    ensures |DrawsTo(n + 1, h, k)| == |DrawsTo(n, h, k)| + if h(n) == k then 1 else 0
  {
    if h(n) == k {
      assert DrawsTo(n + 1, h, k) == DrawsTo(n, h, k) + {n};
    } else {
      assert DrawsTo(n + 1, h, k) == DrawsTo(n, h, k);
    }
  }

  lemma {:induction false} WeightedStep(n: nat, h: nat -> nat, m: nat, g: nat -> int)
    ensures Weighted(n + 1, h, m, g) == Weighted(n, h, m, g) + if h(n) < m then g(h(n)) else 0
  {
    if m > 0 {
      WeightedStep(n, h, m - 1, g);
      OneMoreDraw(n, h, m - 1);
      var c, x := |DrawsTo(n, h, m - 1)|, g(m - 1);
      assert (c + 1) * x == c * x + x;
    }
    hide DrawsTo;
  }

  lemma {:induction false} WeightedNone(h: nat -> nat, m: nat, g: nat -> int)
    ensures Weighted(0, h, m, g) == 0
  {
    if m > 0 {
      WeightedNone(h, m - 1, g);
      assert DrawsTo(0, h, m - 1) == {};
    }
  }

  /** Adding up by draw or by value comes to the same. */
  lemma {:induction false} SumByValue(n: nat, f: nat -> int, h: nat -> nat, m: nat, g: nat -> int)
    requires forall v: nat :: v < n ==> h(v) < m && f(v) == g(h(v))
    ensures SumBelow(n, f) == Weighted(n, h, m, g)
  {
    if n == 0 {
      WeightedNone(h, m, g);
    } else {
      SumByValue(n - 1, f, h, m, g);
      WeightedStep(n - 1, h, m, g);
    }
    hide Weighted;
  }
}
