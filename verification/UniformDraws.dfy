/**
 * Uniform draws against equally likely index lists. 2^52 is a multiple of few n, so scaled draws are only nearly uniform; what
 * that can move an average by is less than a ten-million-millionth for a Mines board.
 */
module UniformDraws {
  import opened Arithmetic
  import opened Boards
  import opened Layouts
  import opened Mines
  import opened MinesRound
  import opened Rng
  import opened Sums

  /** The share of the draws that are scaled to k among 0..n-1. */
  function Weight(k: nat, n: nat): real
    requires k < n
  {
    |DrawsScaledTo(k, n, DRAWS)| as real / DRAWS as real
  }

  function Ending(j: nat, f: seq<nat> -> real): seq<nat> -> real {
    js => f(js + [j])
  }

  /** The expected value of f over the index lists for n positions when every draw is uniform and independent of the others. */
  function Expected(n: nat, f: seq<nat> -> real): real
    decreases n, n + 1
  {
    if n == 0 then f([]) else ExpectedBelow(n, n, f)
  }

  /** The part of it from lists that end in an index below k. */
  function ExpectedBelow(n: nat, k: nat, f: seq<nat> -> real): real
    requires 0 < n && k <= n
    decreases n, k
  {
    if k == 0 then 0.0 else ExpectedBelow(n, k - 1, f) + Times(Weight(k - 1, n), Expected(n - 1, Ending(k - 1, f)))
  }

  lemma ExpectedUnfold(n: nat, k: nat, f: seq<nat> -> real)
    requires 0 < n && k <= n
    ensures Expected(0, f) == f([]) && Expected(n, f) == ExpectedBelow(n, n, f) && ExpectedBelow(n, 0, f) == 0.0
    ensures k > 0 ==> ExpectedBelow(n, k, f) == ExpectedBelow(n, k - 1, f) + Times(Weight(k - 1, n), Expected(n - 1, Ending(k - 1, f)))
  {
  }

  /** n draws, as a share of all. */
  function Gap(n: nat): real {
    n as real / DRAWS as real
  }

  /** n times the weight of an index. */
  function Multiple(k: nat, n: nat): real
    requires k < n
  {
    n as real * Weight(k, n)
  }

  /** That is one, to within n draws. */
  lemma WeightIsNearlyEven(k: nat, n: nat)
    requires k < n
    ensures 1.0 - Gap(n) <= Multiple(k, n) <= 1.0 + Gap(n)
  {
    var c := |DrawsScaledTo(k, n, DRAWS)|;
    DrawsPerValue(k, n, DRAWS);
    DivBounds(DRAWS, n);
    MulMonotone(DRAWS / n, c, n);
    MulMonotone(c, DRAWS / n + 1, n);
    assert (DRAWS / n + 1) * n == (DRAWS / n) * n + n;
    RealOfProduct(c, n);
    hide DrawsScaledTo;
    WeightTimes(c as real, n as real, DRAWS as real, Weight(k, n));
  }

  lemma WeightTimes(c: real, n: real, all: real, weight: real)
    requires all > 0.0 && weight == c / all && all - n <= c * n <= all + n
    ensures 1.0 - n / all <= n * weight <= 1.0 + n / all
  {
    var share := n / all;
    assert share * all == n && weight * all == c;
    assert (n * weight) * all == c * n;
    assert (1.0 - share) * all == all - n && (1.0 + share) * all == all + n;
    RealCancel(1.0 - share, n * weight, all);
    RealCancel(n * weight, 1.0 + share, all);
  }

  /** The lists that end in an index below k, by their last index. */
  lemma TotalBelow(n: nat, k: nat, f: seq<nat> -> real)
    requires 0 < n && 0 < k
    ensures Total(Extensions(AllIndices(n - 1), k), f)
         == Total(Extensions(AllIndices(n - 1), k - 1), f) + Total(AllIndices(n - 1), Ending(k - 1, f))
  {
    var shorter := AllIndices(n - 1);
    assert Extensions(shorter, k) == Extensions(shorter, k - 1) + Map(shorter, Append(k - 1));
    hide AllIndices;
    TotalConcat(Extensions(shorter, k - 1), Map(shorter, Append(k - 1)), f);
    TotalMap(shorter, Append(k - 1), f, Ending(k - 1, f));
  }

  function High(n: nat): real {
    if n == 0 then 1.0 else Times(High(n - 1), 1.0 + Gap(n))
  }

  function Low(n: nat): real {
    if n == 0 then 1.0 else Times(Low(n - 1), 1.0 - Gap(n))
  }

  /** What uniform draws can move an average of n positions by. */
  function Drift(n: nat): real {
    (n * (n + 1)) as real / 2.0 / DRAWS as real
  }

  predicate Between(low: real, high: real, total: real, x: real) {
    Times(low, total) <= x <= Times(high, total)
  }

  ghost predicate NotNegative(n: nat, f: seq<nat> -> real) {
    forall js <- AllIndices(n) :: f(js) >= 0.0
  }

  lemma {:induction false} TotalNotNegative<T>(xs: seq<T>, f: T -> real)
    requires forall x <- xs :: f(x) >= 0.0
    ensures Total(xs, f) >= 0.0
  {
    if xs != [] {
      TotalNotNegative(xs[1..], f);
    }
  }

  lemma EndingNotNegative(n: nat, k: nat, f: seq<nat> -> real)
    requires 0 < n && k < n && NotNegative(n, f)
    ensures NotNegative(n - 1, Ending(k, f))
  {
    forall js <- AllIndices(n - 1)
      ensures Ending(k, f)(js) >= 0.0
    {
      ExtensionsContain(AllIndices(n - 1), n, js + [k]);
      assert (js + [k])[..|js + [k]| - 1] == js;
    }
  }

  lemma LowIsPositive(n: nat)
    requires n < DRAWS
    ensures Low(n) > 0.0 && High(n) > 0.0
  {
    if n > 0 {
      LowIsPositive(n - 1);
      GapBelowOne(n);
      hide Gap;
      PositiveTimes(Low(n - 1), 1.0 - Gap(n));
      PositiveTimes(High(n - 1), 1.0 + Gap(n));
    }
    hide Times;
  }

  lemma PositiveTimes(x: real, y: real)
    requires x > 0.0 && y > 0.0
    ensures Times(x, y) > 0.0
  {
  }

  lemma GapBelowOne(n: nat)
    requires n < DRAWS
    ensures 0.0 <= Gap(n) < 1.0
  {
  }

  function Scaled(n: nat, x: real): real {
    Factorial(n) as real * x
  }

  lemma ScaledStep(n: nat, k: nat, e: real, rest: real)
    requires k < n
    ensures Scaled(n, rest + Times(Weight(k, n), e)) == Scaled(n, rest) + Times(Multiple(k, n), Scaled(n - 1, e))
  {
    RealOfProduct(n, Factorial(n - 1));
    var a, b, w := n as real, Factorial(n - 1) as real, Weight(k, n);
    assert Factorial(n) as real == a * b;
    hide Factorial;
    hide Weight;
    Distribute(a, b, w, e, rest);
  }

  lemma ScaledBelow(n: nat, k: nat, f: seq<nat> -> real)
    requires 0 < k <= n
    ensures Scaled(n, ExpectedBelow(n, k, f))
         == Scaled(n, ExpectedBelow(n, k - 1, f)) + Times(Multiple(k - 1, n), Scaled(n - 1, Expected(n - 1, Ending(k - 1, f))))
  {
    hide *;
    ExpectedUnfold(n, k, f);
    ScaledStep(n, k - 1, Expected(n - 1, Ending(k - 1, f)), ExpectedBelow(n, k - 1, f));
  }

  lemma Distribute(a: real, b: real, w: real, e: real, rest: real)
    ensures a * b * (rest + w * e) == a * b * rest + a * w * (b * e)
  {
    var c := a * b;
    assert c * (rest + w * e) == c * rest + c * (w * e);
    assert c * (w * e) == a * w * (b * e);
  }

  lemma BoundsStep(n: nat)
    requires n > 0
    ensures High(n) == Times(High(n - 1), 1.0 + Gap(n)) && Low(n) == Times(Low(n - 1), 1.0 - Gap(n))
  {
  }

  lemma LessTimes(a: real, y: real, keep: real, share: real)
    requires a <= y && 0.0 <= keep <= share && y >= 0.0
    ensures keep * a <= share * y
  {
    RealMulMonotone(a, y, keep);
    RealMulMonotone(keep, share, y);
  }

  lemma Regroup(x: real, y: real, z: real)
    ensures Times(Times(x, y), z) == y * Times(x, z)
  {
  }

  lemma TimesBetween(low: real, high: real, x: real, t: real, y: real, share: real)
    requires Between(low, high, t, y) && t >= 0.0 && low >= 0.0 && 0.0 <= x <= 1.0 && 1.0 - x <= share <= 1.0 + x
    ensures Between(Times(low, 1.0 - x), Times(high, 1.0 + x), t, Times(share, y))
  {
    RealMulMonotone(0.0, low, t);
    assert Times(low, t) >= 0.0;
    TimesIs(share, y);
    Regroup(low, 1.0 - x, t);
    Regroup(high, 1.0 + x, t);
    hide Times;
    LessTimes(Times(low, t), y, 1.0 - x, share);
    LessTimes(y, Times(high, t), share, 1.0 + x);
  }

  lemma SumBetween(low: real, high: real, t: real, y: real, u: real, z: real)
    requires Between(low, high, t, y) && Between(low, high, u, z)
    ensures Between(low, high, t + u, y + z)
  {
    assert low * (t + u) == low * t + low * u && high * (t + u) == high * t + high * u;
  }

  /** Lists that end in an index below k, against their even share. */
  lemma {:induction false} BelowIsNearlyEven(n: nat, k: nat, f: seq<nat> -> real)
    requires 0 < n < DRAWS && k <= n && NotNegative(n, f)
    ensures Between(Low(n), High(n), Total(Extensions(AllIndices(n - 1), k), f), Scaled(n, ExpectedBelow(n, k, f)))
    decreases n, k
  {
    hide *;
    if k == 0 {
      ExpectedUnfold(n, k, f);
      NothingBelow(n, f);
    } else {
      var t, e := Total(AllIndices(n - 1), Ending(k - 1, f)), Expected(n - 1, Ending(k - 1, f));
      BelowIsNearlyEven(n, k - 1, f);
      EndingNotNegative(n, k - 1, f);
      IsNearlyEven(n - 1, Ending(k - 1, f));
      TotalIsNotNegative(n - 1, Ending(k - 1, f));
      LowIsPositive(n - 1);
      GapBelowOne(n);
      WeightIsNearlyEven(k - 1, n);
      BoundsStep(n);
      TimesBetween(Low(n - 1), High(n - 1), Gap(n), t, Scaled(n - 1, e), Multiple(k - 1, n));
      ScaledBelow(n, k, f);
      TotalBelow(n, k, f);
      SumBetween(Low(n), High(n), Total(Extensions(AllIndices(n - 1), k - 1), f), Scaled(n, ExpectedBelow(n, k - 1, f)),
                 t, Times(Multiple(k - 1, n), Scaled(n - 1, e)));
    }
  }

  lemma NothingBelow(n: nat, f: seq<nat> -> real)
    requires n > 0
    ensures Between(Low(n), High(n), Total(Extensions(AllIndices(n - 1), 0), f), Scaled(n, 0.0))
  {
    assert Total(Extensions(AllIndices(n - 1), 0), f) == 0.0;
    hide High;
    hide Low;
  }

  lemma TotalIsNotNegative(n: nat, f: seq<nat> -> real)
    requires NotNegative(n, f)
    ensures Total(AllIndices(n), f) >= 0.0
  {
    TotalNotNegative(AllIndices(n), f);
  }

  lemma AllIndicesUnfold(n: nat, f: seq<nat> -> real)
    ensures n > 0 ==> AllIndices(n) == Extensions(AllIndices(n - 1), n)
    ensures n == 0 ==> Scaled(n, Expected(n, f)) == f([]) == Total(AllIndices(n), f) && Low(n) == High(n) == 1.0
  {
    TotalOne(f);
  }

  lemma TotalOne(f: seq<nat> -> real)
    ensures Total([[]], f) == f([])
  {
    var one: seq<seq<nat>> := [[]];
    assert one[1..] == [];
  }

  /** n! times the expected value of a value that is never negative is its total over the index lists, to within two factors. */
  lemma {:induction false} IsNearlyEven(n: nat, f: seq<nat> -> real)
    requires n < DRAWS && NotNegative(n, f)
    ensures Between(Low(n), High(n), Total(AllIndices(n), f), Scaled(n, Expected(n, f)))
    decreases n, n + 1
  {
    hide *;
    AllIndicesUnfold(n, f);
    if n > 0 {
      BelowIsNearlyEven(n, n, f);
      ExpectedUnfold(n, n, f);
    } else {
      BetweenSame(Total(AllIndices(n), f));
    }
  }

  lemma BetweenSame(x: real)
    ensures Between(1.0, 1.0, x, x)
  {
  }

  /** The two factors: one falls short of 1 by at most the drift, and the other exceeds 1 by no more than makes up for it. */
  lemma {:induction false} DriftBounds(n: nat)
    requires n < DRAWS
    ensures Low(n) >= 1.0 - Drift(n) && Times(High(n), Low(n)) <= 1.0 && Low(n) <= 1.0
  {
    if n > 0 {
      hide *;
      DriftBounds(n - 1);
      BoundsStep(n);
      LowIsPositive(n - 1);
      GapBelowOne(n);
      DriftStep(n);
      DriftArithmetic(Low(n - 1), High(n - 1), Gap(n), Drift(n - 1));
    } else {
      DriftStart();
    }
  }

  lemma DriftStart()
    ensures Drift(0) == 0.0 && Low(0) == High(0) == Times(High(0), Low(0)) == 1.0
  {
  }

  lemma DriftStep(n: nat)
    requires n > 0
    ensures Drift(n) == Drift(n - 1) + Gap(n)
  {
    assert n * (n + 1) == (n - 1) * n + 2 * n;
  }

  lemma DriftArithmetic(low: real, high: real, x: real, drift: real)
    requires 0.0 < low <= 1.0 && high > 0.0 && 0.0 <= x < 1.0 && low >= 1.0 - drift && Times(high, low) <= 1.0
    ensures 1.0 - (drift + x) <= Times(low, 1.0 - x) <= 1.0
    ensures Times(Times(high, 1.0 + x), Times(low, 1.0 - x)) <= 1.0
  {
    LowShrinks(low, x);
    PositiveTimes(high, low);
    FactorsShrink(Times(high, low), x);
    PairUp(high, low, x);
    hide Times;
  }

  lemma LowShrinks(low: real, x: real)
    requires 0.0 < low <= 1.0 && 0.0 <= x < 1.0
    ensures low - x <= Times(low, 1.0 - x) <= low
  {
    RealMulMonotone(0.0, x, low);
    RealMulMonotone(low, 1.0, x);
    assert low * (1.0 - x) == low - low * x;
  }

  lemma PairUp(high: real, low: real, x: real)
    ensures Times(Times(high, 1.0 + x), Times(low, 1.0 - x)) == Times(Times(high, low), 1.0 - x * x)
  {
    var both := high * low;
    assert high * (1.0 + x) * (low * (1.0 - x)) == both * ((1.0 + x) * (1.0 - x));
    assert (1.0 + x) * (1.0 - x) == 1.0 - x * x;
  }

  lemma FactorsShrink(both: real, x: real)
    requires 0.0 < both <= 1.0
    ensures Times(both, 1.0 - x * x) <= 1.0
  {
    var square := x * x;
    RealMulMonotone(0.0, square, both);
    assert both * (1.0 - square) == both - both * square;
  }

  /** Neither falls short of the other by more than the drift, as a share. */
  predicate NearlyEqual(drift: real, x: real, y: real) {
    (1.0 - drift) * y <= x && (1.0 - drift) * x <= y
  }

  lemma NearlyEqualIs(drift: real, x: real, y: real)
    ensures NearlyEqual(drift, x, y) <==> (1.0 - drift) * y <= x && (1.0 - drift) * x <= y
  {
  }

  /** Uniform draws move the average of a value that is never negative by no more than the drift. */
  lemma UniformDrawsMoveLittle(n: nat, f: seq<nat> -> real)
    requires n < DRAWS && Drift(n) < 1.0 && NotNegative(n, f)
    ensures |AllIndices(n)| > 0
    ensures NearlyEqual(Drift(n), Expected(n, f), Total(AllIndices(n), f) / |AllIndices(n)| as real)
  {
    hide *;
    AllIndicesAreDistinct(n);
    IsNearlyEven(n, f);
    DriftBounds(n);
    LowIsPositive(n);
    TotalIsNotNegative(n, f);
    ScaledIs(n, Expected(n, f));
    BetweenMeans(Low(n), High(n), Total(AllIndices(n), f), Scaled(n, Expected(n, f)));
    MeanArithmetic(Low(n), High(n), 1.0 - Drift(n), Factorial(n) as real, Total(AllIndices(n), f), Expected(n, f));
    NearlyEqualIs(Drift(n), Expected(n, f), Total(AllIndices(n), f) / Factorial(n) as real);
  }

  lemma ScaledIs(n: nat, x: real)
    ensures Scaled(n, x) == Factorial(n) as real * x
  {
    hide Factorial;
  }

  lemma BetweenMeans(low: real, high: real, total: real, x: real)
    requires Between(low, high, total, x)
    ensures low * total <= x <= high * total
  {
    TimesIs(low, total);
    TimesIs(high, total);
  }

  lemma MeanArithmetic(low: real, high: real, keep: real, lists: real, total: real, expected: real)
    requires lists > 0.0 && total >= 0.0 && low > 0.0 && 0.0 < keep <= low && Times(high, low) <= 1.0
    requires low * total <= lists * expected <= high * total
    ensures keep * (total / lists) <= expected && keep * expected <= total / lists
  {
    var mean, x := total / lists, lists * expected;
    TimesIs(high, low);
    assert mean * lists == total;
    LowTimes(low, high, total, x);
    RealMulMonotone(keep, low, total);
    RealMulMonotone(keep, low, x);
    hide *;
    PerList(keep, mean, expected, lists, total, x);
  }

  lemma PerList(keep: real, mean: real, expected: real, lists: real, total: real, x: real)
    requires lists > 0.0 && mean * lists == total && x == lists * expected && keep * total <= x && keep * x <= total
    ensures keep * mean <= expected && keep * expected <= mean
  {
    assert keep * mean * lists == keep * total;
    RealCancel(keep * mean, expected, lists);
    assert keep * expected * lists == keep * x;
    RealCancel(keep * expected, mean, lists);
  }

  lemma LowTimes(low: real, high: real, total: real, x: real)
    requires total >= 0.0 && low > 0.0 && high * low <= 1.0 && low * total <= x <= high * total
    ensures x >= 0.0 && low * x <= total
  {
    RealMulMonotone(0.0, low, total);
    RealMulMonotone(x, high * total, low);
    assert high * total * low == high * low * total;
    RealMulMonotone(high * low, 1.0, total);
  }

  /** The draws that are scaled to an index below k, as a share of all. */
  function Below(k: nat, n: nat): real
    requires n > 0
  {
    Boundary(k, n, DRAWS) as real / DRAWS as real
  }

  lemma BelowStep(n: nat, k: nat)
    requires k < n
    ensures Below(k + 1, n) == Below(k, n) + Weight(k, n) && Below(0, n) == 0.0 && Below(n, n) == 1.0
  {
    var lo, hi := Boundary(k, n, DRAWS), Boundary(k + 1, n, DRAWS);
    DrawsAreAnInterval(k, n, DRAWS);
    IntervalSize(lo, hi);
    DivIs(n - 1, n, 0);
    DivIs(n * DRAWS + n - 1, n, DRAWS);
    hide DrawsScaledTo;
    assert hi as real / DRAWS as real == lo as real / DRAWS as real + (hi - lo) as real / DRAWS as real;
  }

  lemma {:induction false} ConstantBelow(n: nat, k: nat, f: seq<nat> -> real, c: real)
    requires 0 < n && k <= n && forall js :: f(js) == c
    ensures ExpectedBelow(n, k, f) == Times(c, Below(k, n))
    decreases n, k
  {
    hide *;
    ExpectedUnfold(n, k, f);
    if k == 0 {
      BelowStep(n, 0);
      TimesIs(c, 0.0);
    } else {
      ConstantBelow(n, k - 1, f, c);
      BelowStep(n, k - 1);
      EndingConstant(k - 1, f, c);
      ExpectedConstant(n - 1, Ending(k - 1, f), c);
      TimesAdd(c, Below(k - 1, n), Weight(k - 1, n));
    }
  }

  lemma EndingConstant(k: nat, f: seq<nat> -> real, c: real)
    requires forall js :: f(js) == c
    ensures forall js :: Ending(k, f)(js) == c
  {
  }

  lemma TimesAdd(c: real, x: real, y: real)
    ensures Times(c, x + y) == Times(c, x) + Times(y, c)
  {
  }

  /** The weights of the index lists come to one. */
  lemma {:induction false} ExpectedConstant(n: nat, f: seq<nat> -> real, c: real)
    requires forall js :: f(js) == c
    ensures Expected(n, f) == c
    decreases n, n + 1
  {
    hide *;
    if n == 0 {
      ExpectedUnfold(1, 1, f);
    } else {
      ExpectedUnfold(n, n, f);
      ConstantBelow(n, n, f, c);
      BelowStep(n, n - 1);
      TimesIs(c, 1.0);
    }
  }

  /** Only the value at index lists matters. */
  lemma {:induction false} ExpectedSame(n: nat, f: seq<nat> -> real, g: seq<nat> -> real)
    requires forall js <- AllIndices(n) :: f(js) == g(js)
    ensures Expected(n, f) == Expected(n, g)
    decreases n, n + 1
  {
    hide *;
    if n == 0 {
      NoIndices();
      ExpectedUnfold(1, 1, f);
      ExpectedUnfold(1, 1, g);
    } else {
      ExpectedUnfold(n, n, f);
      ExpectedUnfold(n, n, g);
      ExpectedSameBelow(n, n, f, g);
    }
  }

  lemma NoIndices()
    ensures [] in AllIndices(0)
  {
  }

  lemma {:induction false} ExpectedSameBelow(n: nat, k: nat, f: seq<nat> -> real, g: seq<nat> -> real)
    requires 0 < n && k <= n && forall js <- AllIndices(n) :: f(js) == g(js)
    ensures ExpectedBelow(n, k, f) == ExpectedBelow(n, k, g)
    decreases n, k
  {
    hide *;
    ExpectedUnfold(n, k, f);
    ExpectedUnfold(n, k, g);
    if k > 0 {
      ExpectedSameBelow(n, k - 1, f, g);
      EndingSame(n, k - 1, f, g);
      ExpectedSame(n - 1, Ending(k - 1, f), Ending(k - 1, g));
    }
  }

  lemma EndingSame(n: nat, k: nat, f: seq<nat> -> real, g: seq<nat> -> real)
    requires k < n && forall js <- AllIndices(n) :: f(js) == g(js)
    ensures forall js <- AllIndices(n - 1) :: Ending(k, f)(js) == Ending(k, g)(js)
  {
    forall js <- AllIndices(n - 1)
      ensures Ending(k, f)(js) == Ending(k, g)(js)
    {
      ExtensionsContain(AllIndices(n - 1), n, js + [k]);
      assert (js + [k])[..|js + [k]| - 1] == js;
    }
  }

  lemma WorthNotNegative(tiles: nat, plan: Plan, stake: nat, edge: real, mines: set<nat>)
    requires edge <= 1.0
    ensures Worth(tiles, plan, stake, edge)(mines) >= 0.0
  {
    if |mines| < tiles {
      UnroundedNotNegative(MinesRound.Play(Start(tiles, mines), plan, stake, edge), stake, edge);
    }
    hide MinesRound.Play;
    hide UnroundedPayout;
  }

  lemma UnroundedNotNegative(final: Round, stake: nat, edge: real)
    requires edge <= 1.0
    ensures UnroundedPayout(final, stake, edge) >= 0.0
  {
    if final.status == CashedOut && |final.revealed| + |final.mines| <= final.tiles {
      FairNotNegative(final.tiles, |final.mines|, |final.revealed|, edge);
      NotNegativeTimes(stake as real, FairMultiplier(final.tiles, |final.mines|, |final.revealed|, edge));
    }
    hide FairMultiplier;
  }

  lemma NotNegativeTimes(x: real, y: real)
    requires x >= 0.0 && y >= 0.0
    ensures x * y >= 0.0
  {
  }

  lemma FairNotNegative(tiles: nat, mines: nat, revealed: nat, edge: real)
    requires revealed + mines <= tiles && edge <= 1.0
    ensures FairMultiplier(tiles, mines, revealed, edge) >= 0.0
  {
    var odds, m := SurvivalOdds(tiles, mines, revealed), FairMultiplier(tiles, mines, revealed, edge);
    FairMultiplierIs(tiles, mines, revealed, edge);
    hide SurvivalOdds;
    assert m * odds == 1.0 - edge;
    if m < 0.0 {
      RealMulStrict(m, 0.0, odds);
    }
  }

  lemma PlacedNotNegative(tiles: nat, mines: nat, plan: Plan, stake: nat, edge: real)
    requires mines <= tiles && edge <= 1.0
    ensures NotNegative(tiles, Over(Placement(tiles, mines), Worth(tiles, plan, stake, edge)))
  {
    hide Worth;
    hide Placement;
    forall js <- AllIndices(tiles)
      ensures Over(Placement(tiles, mines), Worth(tiles, plan, stake, edge))(js) >= 0.0
    {
      WorthNotNegative(tiles, plan, stake, edge, Placement(tiles, mines)(js));
    }
    hide AllIndices;
  }

  /** The stake less the edge. */
  function Kept(stake: nat, edge: real): real {
    (1.0 - edge) * stake as real
  }

  lemma KeptIs(stake: nat, edge: real, lists: real)
    ensures (1.0 - edge) * stake as real * lists == Kept(stake, edge) * lists
  {
  }

  /** With uniform draws a plan's unrounded return is (1 - edge) stake to within the drift of the board, as a share of it. */
  lemma NoPlanBeatsTheDraws(tiles: nat, mines: nat, plan: Plan, stake: nat, edge: real)
    requires mines < tiles < DRAWS && Drift(tiles) < 1.0 && edge <= 1.0 && Picks(plan, tiles, mines, []).Some?
    ensures NearlyEqual(Drift(tiles), Expected(tiles, Over(Placement(tiles, mines), Worth(tiles, plan, stake, edge))), Kept(stake, edge))
  {
    hide *;
    var worth := Over(Placement(tiles, mines), Worth(tiles, plan, stake, edge));
    NoPlanBeatsTheShuffle(tiles, mines, plan, stake, edge);
    PlacedNotNegative(tiles, mines, plan, stake, edge);
    UniformDrawsMoveLittle(tiles, worth);
    KeptIs(stake, edge, |AllIndices(tiles)| as real);
    QuotientIs(Total(AllIndices(tiles), worth), |AllIndices(tiles)| as real, Kept(stake, edge));
  }

  /** For the 25 tiles of Mines the drift is 325 draws of 2^52. */
  lemma MinesDrift()
    ensures Drift(25) == 325.0 / DRAWS as real < 0.0000000000001
  {
  }
}
