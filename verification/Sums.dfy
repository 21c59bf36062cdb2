/** Sums and counts over finite lists, the vocabulary of every conservation and expectation claim. */
module Sums {
  function Sum<T>(xs: seq<T>, f: T -> int): int {
    if xs == [] then 0 else f(xs[0]) + Sum(xs[1..], f)
  }

  lemma {:induction false} SumConcat<T>(xs: seq<T>, ys: seq<T>, f: T -> int)
    ensures Sum(xs + ys, f) == Sum(xs, f) + Sum(ys, f)
  {
    if xs == [] {
      assert xs + ys == ys;
    } else {
      assert (xs + ys)[1..] == xs[1..] + ys;
      SumConcat(xs[1..], ys, f);
    }
  }

  lemma SumOne<T>(x: T, f: T -> int)
    ensures Sum([x], f) == f(x)
  {
    assert [x][1..] == [];
  }

  lemma SumAppend<T>(xs: seq<T>, x: T, f: T -> int)
    ensures Sum(xs + [x], f) == Sum(xs, f) + f(x)
  {
    SumConcat(xs, [x], f);
  }

  lemma {:induction false} SumUpdate<T>(xs: seq<T>, i: nat, x: T, f: T -> int)
    requires i < |xs|
    ensures Sum(xs[i := x], f) == Sum(xs, f) - f(xs[i]) + f(x)
  {
    if i > 0 {
      assert xs[i := x][1..] == xs[1..][i - 1 := x];
      SumUpdate(xs[1..], i - 1, x, f);
    } else {
      assert xs[i := x][1..] == xs[1..];
    }
  }

  lemma {:induction false} SumSame<T>(xs: seq<T>, f: T -> int, g: T -> int)
    requires forall x <- xs :: f(x) == g(x)
    ensures Sum(xs, f) == Sum(xs, g)
  {
    if xs != [] {
      SumSame(xs[1..], f, g);
    }
  }

  lemma {:induction false} SumOfZeros<T>(xs: seq<T>, f: T -> int)
    requires forall x <- xs :: f(x) == 0
    ensures Sum(xs, f) == 0
  {
    if xs != [] {
      SumOfZeros(xs[1..], f);
    }
  }

  lemma {:induction false} SumNonNegative<T>(xs: seq<T>, f: T -> int)
    requires forall x <- xs :: 0 <= f(x)
    ensures 0 <= Sum(xs, f)
    ensures forall x <- xs :: f(x) <= Sum(xs, f)
  {
    if xs != [] {
      SumNonNegative(xs[1..], f);
    }
  }

  /** Like Sum, over the reals. */
  function Total<T>(xs: seq<T>, f: T -> real): real {
    if xs == [] then 0.0 else f(xs[0]) + Total(xs[1..], f)
  }

  lemma {:induction false} TotalConcat<T>(xs: seq<T>, ys: seq<T>, f: T -> real)
    ensures Total(xs + ys, f) == Total(xs, f) + Total(ys, f)
  {
    if xs == [] {
      assert xs + ys == ys;
    } else {
      assert (xs + ys)[1..] == xs[1..] + ys;
      TotalConcat(xs[1..], ys, f);
    }
  }

  lemma {:induction false} TotalSame<T>(xs: seq<T>, f: T -> real, g: T -> real)
    requires forall x <- xs :: f(x) == g(x)
    ensures Total(xs, f) == Total(xs, g)
  {
    if xs != [] {
      TotalSame(xs[1..], f, g);
    }
  }

  lemma {:induction false} TotalMap<S, T>(xs: seq<S>, h: S -> T, f: T -> real, g: S -> real)
    requires forall x <- xs :: g(x) == f(h(x))
    ensures Total(Map(xs, h), f) == Total(xs, g)
  {
    if xs != [] {
      assert Map(xs, h)[1..] == Map(xs[1..], h);
      TotalMap(xs[1..], h, f, g);
    }
  }

  lemma {:induction false} TotalScale<T>(xs: seq<T>, c: real, f: T -> real)
    ensures Total(xs, x => c * f(x)) == c * Total(xs, f)
  {
    if xs != [] {
      TotalScale(xs[1..], c, f);
    }
  }

  lemma {:induction false} TotalAdd<T>(xs: seq<T>, f: T -> real, g: T -> real)
    ensures Total(xs, x => f(x) + g(x)) == Total(xs, f) + Total(xs, g)
  {
    if xs != [] {
      TotalAdd(xs[1..], f, g);
    }
  }

  /** How many elements satisfy a predicate. */
  function Count<T>(xs: seq<T>, p: T -> bool): nat {
    if xs == [] then 0 else (if p(xs[0]) then 1 else 0) + Count(xs[1..], p)
  }

  lemma {:induction false} CountConcat<T>(xs: seq<T>, ys: seq<T>, p: T -> bool)
    ensures Count(xs + ys, p) == Count(xs, p) + Count(ys, p)
  {
    if xs == [] {
      assert xs + ys == ys;
    } else {
      assert (xs + ys)[1..] == xs[1..] + ys;
      CountConcat(xs[1..], ys, p);
    }
  }

  lemma CountAppend<T>(xs: seq<T>, x: T, p: T -> bool)
    ensures Count(xs + [x], p) == Count(xs, p) + if p(x) then 1 else 0
  {
    CountConcat(xs, [x], p);
    assert [x][1..] == [];
  }

  lemma {:induction false} CountUpdate<T>(xs: seq<T>, i: nat, x: T, p: T -> bool)
    requires i < |xs|
    ensures Count(xs[i := x], p) == Count(xs, p) - (if p(xs[i]) then 1 else 0) + (if p(x) then 1 else 0)
  {
    if i > 0 {
      assert xs[i := x][1..] == xs[1..][i - 1 := x];
      CountUpdate(xs[1..], i - 1, x, p);
    } else {
      assert xs[i := x][1..] == xs[1..];
    }
  }

  lemma {:induction false} CountMap<S, T>(xs: seq<S>, h: S -> T, p: T -> bool, q: S -> bool)
    requires forall x <- xs :: q(x) == p(h(x))
    ensures Count(Map(xs, h), p) == Count(xs, q)
  {
    if xs != [] {
      assert Map(xs, h)[1..] == Map(xs[1..], h);
      CountMap(xs[1..], h, p, q);
    }
  }

  lemma {:induction false} CountSame<T>(xs: seq<T>, p: T -> bool, q: T -> bool)
    requires forall x <- xs :: p(x) == q(x)
    ensures Count(xs, p) == Count(xs, q)
  {
    if xs != [] {
      CountSame(xs[1..], p, q);
    }
  }

  lemma {:induction false} CountNone<T>(xs: seq<T>, p: T -> bool)
    requires forall x <- xs :: !p(x)
    ensures Count(xs, p) == 0
  {
    if xs != [] {
      CountNone(xs[1..], p);
    }
  }

  lemma {:induction false} CountZero<T>(xs: seq<T>, p: T -> bool)
    ensures Count(xs, p) == 0 <==> forall x <- xs :: !p(x)
  {
    if xs != [] {
      CountZero(xs[1..], p);
      assert xs == [xs[0]] + xs[1..];
    }
  }

  lemma {:induction false} CountAll<T>(xs: seq<T>, p: T -> bool)
    requires forall x <- xs :: p(x)
    ensures Count(xs, p) == |xs|
  {
    if xs != [] {
      CountAll(xs[1..], p);
    }
  }

  lemma {:induction false} CountComplement<T>(xs: seq<T>, p: T -> bool, q: T -> bool)
    requires forall x <- xs :: p(x) == !q(x)
    ensures Count(xs, p) + Count(xs, q) == |xs|
  {
    if xs != [] {
      CountComplement(xs[1..], p, q);
    }
  }

  /** Paying `c` to the elements that qualify and nothing to the rest totals `c` times their count. */
  lemma {:induction false} TotalOfConstant<T>(xs: seq<T>, f: T -> real, p: T -> bool, c: real)
    requires forall x <- xs :: f(x) == if p(x) then c else 0.0
    ensures Total(xs, f) == c * Count(xs, p) as real
  {
    if xs != [] {
      TotalOfConstant(xs[1..], f, p, c);
    }
  }

  function Map<S, T>(xs: seq<S>, h: S -> T): (ys: seq<T>)
    ensures |ys| == |xs|
    ensures forall i :: 0 <= i < |xs| ==> ys[i] == h(xs[i])
  {
    seq(|xs|, i requires 0 <= i < |xs| => h(xs[i]))
  }

  ghost predicate Distinct<T(!new)>(xs: seq<T>) {
    forall i, j :: 0 <= i < j < |xs| ==> xs[i] != xs[j]
  }

  function MapsTo<S, T(==)>(h: S -> T, y: T): S -> bool {
    x => h(x) == y
  }

  function Pulled<S, T(==)>(h: S -> T, f: T -> real, groups: seq<T>): S -> real {
    x => if h(x) in groups then f(h(x)) else 0.0
  }

  function OnlyAt<S, T(==)>(h: S -> T, y: T, c: real): S -> real {
    x => if h(x) == y then c else 0.0
  }

  lemma {:induction false} TotalZero<T>(xs: seq<T>, f: T -> real)
    requires forall x <- xs :: f(x) == 0.0
    ensures Total(xs, f) == 0.0
  {
    if xs != [] {
      TotalZero(xs[1..], f);
    }
  }

  lemma PulledAt<S, T(!new)>(h: S -> T, f: T -> real, groups: seq<T>, x: S)
    requires Distinct(groups) && groups != []
    ensures Pulled(h, f, groups)(x) == Pulled(h, f, groups[1..])(x) + OnlyAt(h, groups[0], f(groups[0]))(x)
  {
    assert groups == [groups[0]] + groups[1..];
  }

  lemma OnlyAtMapsTo<S, T(!new)>(h: S -> T, y: T, c: real, x: S)
    ensures OnlyAt(h, y, c)(x) == if MapsTo(h, y)(x) then c else 0.0
  {
  }

  lemma PulledSplits<S, T(!new)>(xs: seq<S>, h: S -> T, f: T -> real, groups: seq<T>)
    requires Distinct(groups) && groups != []
    ensures Total(xs, Pulled(h, f, groups))
         == Total(xs, Pulled(h, f, groups[1..])) + f(groups[0]) * Count(xs, MapsTo(h, groups[0])) as real
  {
    hide *;
    var y, rest := groups[0], groups[1..];
    var split := x => Pulled(h, f, rest)(x) + OnlyAt(h, y, f(y))(x);
    forall x <- xs
      ensures Pulled(h, f, groups)(x) == split(x)
      ensures OnlyAt(h, y, f(y))(x) == if MapsTo(h, y)(x) then f(y) else 0.0
    {
      PulledAt(h, f, groups, x);
      OnlyAtMapsTo(h, y, f(y), x);
    }
    TotalSame(xs, Pulled(h, f, groups), split);
    TotalAdd(xs, Pulled(h, f, rest), OnlyAt(h, y, f(y)));
    TotalOfConstant(xs, OnlyAt(h, y, f(y)), MapsTo(h, y), f(y));
  }

  lemma TotalUnfold<T>(xs: seq<T>, f: T -> real)
    requires xs != []
    ensures Total(xs, f) == f(xs[0]) + Total(xs[1..], f)
  {
  }

  lemma NoGroups<S, T(!new)>(xs: seq<S>, h: S -> T, f: T -> real)
    ensures Total(xs, Pulled(h, f, [])) == 0.0 == Total([], f)
  {
    TotalZero(xs, Pulled(h, f, []));
  }

  lemma DistinctTail<T(!new)>(xs: seq<T>)
    requires Distinct(xs) && xs != []
    ensures Distinct(xs[1..])
  {
  }

  /** If every group is the image of equally many elements, totals over the elements and over the groups agree. */
  lemma {:induction false} Regroup<S, T(!new)>(xs: seq<S>, h: S -> T, f: T -> real, groups: seq<T>, size: nat)
    requires Distinct(groups)
    requires forall y <- groups :: Count(xs, MapsTo(h, y)) == size
    ensures Total(xs, Pulled(h, f, groups)) == size as real * Total(groups, f)
  {
    hide *;
    if groups == [] {
      NoGroups(xs, h, f);
    } else {
      DistinctTail(groups);
      Regroup(xs, h, f, groups[1..], size);
      PulledSplits(xs, h, f, groups);
      TotalUnfold(groups, f);
      var c, t := size as real, Total(groups[1..], f);
      assert c * (f(groups[0]) + t) == f(groups[0]) * c + c * t;
    }
  }

  function Hitting<T>(h: T -> int, k: int): T -> bool {
    x => h(x) == k
  }

  /** What g comes to over the values below m, each weighted by how many elements have it. */
  function Grouped<T>(xs: seq<T>, h: T -> int, m: nat, g: int -> int): int {
    if m == 0 then 0 else Grouped(xs, h, m - 1, g) + Count(xs, Hitting(h, m - 1)) * g(m - 1)
  }

  lemma {:induction false} GroupedNone<T>(h: T -> int, m: nat, g: int -> int)
    ensures Grouped([], h, m, g) == 0
  {
    if m > 0 {
      GroupedNone(h, m - 1, g);
    }
  }

  lemma {:induction false} GroupedStep<T>(xs: seq<T>, h: T -> int, m: nat, g: int -> int)
    requires xs != []
    ensures Grouped(xs, h, m, g) == Grouped(xs[1..], h, m, g) + if 0 <= h(xs[0]) < m then g(h(xs[0])) else 0
  {
    if m > 0 {
      GroupedStep(xs, h, m - 1, g);
      var more, rest, x := if h(xs[0]) == m - 1 then 1 else 0, Count(xs[1..], Hitting(h, m - 1)), g(m - 1);
      assert Count(xs, Hitting(h, m - 1)) == more + rest;
      assert (more + rest) * x == more * x + rest * x;
    }
  }

  /** Adding up by element or by value comes to the same. */
  lemma {:induction false} SumGrouped<T>(xs: seq<T>, f: T -> int, h: T -> int, m: nat, g: int -> int)
    requires forall x <- xs :: 0 <= h(x) < m && f(x) == g(h(x))
    ensures Sum(xs, f) == Grouped(xs, h, m, g)
  {
    hide Grouped;
    if xs == [] {
      GroupedNone(h, m, g);
    } else {
      SumGrouped(xs[1..], f, h, m, g);
      GroupedStep(xs, h, m, g);
    }
  }

  lemma {:induction false} TotalIsSum<T>(xs: seq<T>, f: T -> real, g: T -> int)
    requires forall x <- xs :: f(x) == g(x) as real
    ensures Total(xs, f) == Sum(xs, g) as real
  {
    if xs != [] {
      TotalIsSum(xs[1..], f, g);
    }
  }
}
