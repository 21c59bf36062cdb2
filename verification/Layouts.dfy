/** Factorials, binomial coefficients and the list of all ways to hide `m` traps under `n` tiles. */
module Layouts {
  import opened Arithmetic
  import opened Sums

  function Factorial(n: nat): (f: nat)
    ensures f > 0
  {
    if n == 0 then 1 else n * Factorial(n - 1)
  }

  /** Pascal's triangle: the number of m-element subsets of n tiles. */
  function Choose(n: nat, m: nat): (c: nat)
    ensures m <= n ==> c > 0
    ensures m > n ==> c == 0
  {
    if m == 0 then 1
    else if n == 0 then 0
    else Choose(n - 1, m) + Choose(n - 1, m - 1)
  }

  /** Every member is one of the tiles 0..n-1. */
  predicate Within(traps: set<nat>, n: nat) {
    forall t <- traps :: t < n
  }

  function With(tile: nat): set<nat> -> set<nat> {
    traps => traps + {tile}
  }

  /** Every placement of m traps among the tiles 0..n-1. */
  function AllLayouts(n: nat, m: nat): seq<set<nat>> {
    if m == 0 then [{}]
    else if n == 0 then []
    else AllLayouts(n - 1, m) + Map(AllLayouts(n - 1, m - 1), With(n - 1))
  }

  lemma LayoutAt(n: nat, m: nat, i: nat)
    requires n > 0 && m > 0 && i < |AllLayouts(n, m)|
    ensures |AllLayouts(n, m)| == |AllLayouts(n - 1, m)| + |AllLayouts(n - 1, m - 1)|
    ensures AllLayouts(n, m)[i] == if i < |AllLayouts(n - 1, m)| then AllLayouts(n - 1, m)[i]
                                   else AllLayouts(n - 1, m - 1)[i - |AllLayouts(n - 1, m)|] + {n - 1}
  {
  }

  lemma LayoutsOfNone(n: nat, m: nat)
    ensures AllLayouts(n, 0) == [{}]
    ensures m > 0 ==> AllLayouts(0, m) == []
    ensures n > 0 && m > 0 ==> |AllLayouts(n, m)| == |AllLayouts(n - 1, m)| + |AllLayouts(n - 1, m - 1)|
  {
  }

  lemma WithinGrows(traps: set<nat>, n: nat)
    requires Within(traps, n)
    ensures Within(traps, n + 1)
    ensures Within(traps + {n}, n + 1) && |traps + {n}| == |traps| + 1
  {
    assert n !in traps;
  }

  lemma WithinShrinks(traps: set<nat>, n: nat)
    requires Within(traps, n + 1)
    ensures Within(traps - {n}, n)
    ensures n !in traps ==> Within(traps, n)
    ensures n in traps ==> |traps - {n}| == |traps| - 1 && (traps - {n}) + {n} == traps
  {
  }

  lemma EmptyIsWithin(traps: set<nat>, n: nat)
    ensures Within({}, n)
    ensures Within(traps, 0) ==> traps == {}
  {
  }

  lemma {:induction false} LayoutsAreSubsets(n: nat, m: nat, i: nat)
    requires i < |AllLayouts(n, m)|
    ensures Within(AllLayouts(n, m)[i], n) && |AllLayouts(n, m)[i]| == m
  {
    hide *;
    LayoutsOfNone(n, m);
    if m == 0 {
      EmptyIsWithin({}, n);
    } else {
      LayoutAt(n, m, i);
      var k := |AllLayouts(n - 1, m)|;
      if i < k {
        LayoutsAreSubsets(n - 1, m, i);
        WithinGrows(AllLayouts(n - 1, m)[i], n - 1);
      } else {
        LayoutsAreSubsets(n - 1, m - 1, i - k);
        WithinGrows(AllLayouts(n - 1, m - 1)[i - k], n - 1);
      }
    }
  }

  lemma {:induction false} SubsetsAreLayouts(n: nat, m: nat, traps: set<nat>) returns (i: nat)
    requires Within(traps, n) && |traps| == m
    ensures i < |AllLayouts(n, m)| && AllLayouts(n, m)[i] == traps
  {
    hide *;
    LayoutsOfNone(n, m);
    EmptyIsWithin(traps, n);
    if m == 0 {
      i := 0;
    } else {
      WithinShrinks(traps, n - 1);
      if n - 1 in traps {
        var j := SubsetsAreLayouts(n - 1, m - 1, traps - {n - 1});
        i := |AllLayouts(n - 1, m)| + j;
      } else {
        i := SubsetsAreLayouts(n - 1, m, traps);
      }
      LayoutAt(n, m, i);
    }
  }

  /** The list holds exactly the m-element sets of tiles. */
  lemma AllLayoutsIsComplete(n: nat, m: nat, traps: set<nat>)
    ensures traps in AllLayouts(n, m) <==> Within(traps, n) && |traps| == m
  {
    if traps in AllLayouts(n, m) {
      var i :| 0 <= i < |AllLayouts(n, m)| && AllLayouts(n, m)[i] == traps;
      LayoutsAreSubsets(n, m, i);
    }
    if Within(traps, n) && |traps| == m {
      var i := SubsetsAreLayouts(n, m, traps);
    }
  }

  lemma LastIsNew(n: nat, m: nat, i: nat)
    requires n > 0 && m > 0 && i < |AllLayouts(n - 1, m - 1)|
    ensures Map(AllLayouts(n - 1, m - 1), With(n - 1))[i] - {n - 1} == AllLayouts(n - 1, m - 1)[i]
    ensures n - 1 in Map(AllLayouts(n - 1, m - 1), With(n - 1))[i]
  {
    LayoutsAreSubsets(n - 1, m - 1, i);
  }

  lemma LastIsAbsent(n: nat, m: nat, i: nat)
    requires n > 0 && i < |AllLayouts(n - 1, m)|
    ensures n - 1 !in AllLayouts(n - 1, m)[i]
  {
    LayoutsAreSubsets(n - 1, m, i);
  }

  ghost predicate Apart<T(!new)>(xs: seq<T>, ys: seq<T>) {
    forall i, j :: 0 <= i < |xs| && 0 <= j < |ys| ==> xs[i] != ys[j]
  }

  lemma DistinctConcat<T(!new)>(xs: seq<T>, ys: seq<T>)
    requires Distinct(xs) && Distinct(ys)
    requires Apart(xs, ys)
    ensures Distinct(xs + ys)
  {
  }

  lemma MappedAreDistinct(n: nat, m: nat)
    requires n > 0 && m > 0 && Distinct(AllLayouts(n - 1, m - 1))
    ensures Distinct(Map(AllLayouts(n - 1, m - 1), With(n - 1)))
  {
    var mapped := Map(AllLayouts(n - 1, m - 1), With(n - 1));
    forall i, j | 0 <= i < j < |mapped|
      ensures mapped[i] != mapped[j]
    {
      LastIsNew(n, m, i);
      LastIsNew(n, m, j);
    }
  }

  lemma MappedDiffer(n: nat, m: nat)
    requires n > 0 && m > 0
    ensures Apart(AllLayouts(n - 1, m), Map(AllLayouts(n - 1, m - 1), With(n - 1)))
  {
    var without, mapped := AllLayouts(n - 1, m), Map(AllLayouts(n - 1, m - 1), With(n - 1));
    forall i, j | 0 <= i < |without| && 0 <= j < |mapped|
      ensures without[i] != mapped[j]
    {
      LastIsAbsent(n, m, i);
      LastIsNew(n, m, j);
    }
  }

  /** ... each of them once, so there are C(n, m). */
  lemma {:induction false} AllLayoutsAreDistinct(n: nat, m: nat)
    ensures Distinct(AllLayouts(n, m))
    ensures |AllLayouts(n, m)| == Choose(n, m)
  {
    if m == 0 || n == 0 {
      return;
    }
    hide Distinct;
    hide Choose;
    AllLayoutsAreDistinct(n - 1, m);
    AllLayoutsAreDistinct(n - 1, m - 1);
    MappedAreDistinct(n, m);
    MappedDiffer(n, m);
    DistinctConcat(AllLayouts(n - 1, m), Map(AllLayouts(n - 1, m - 1), With(n - 1)));
    Pascal(n, m);
  }

  function Avoids(picks: set<nat>): set<nat> -> bool {
    traps => traps !! picks
  }

  lemma {:induction false} WithinIsSmall(picks: set<nat>, n: nat)
    requires Within(picks, n)
    ensures |picks| <= n
  {
    if n == 0 {
      assert picks == {};
    } else {
      WithinIsSmall(picks - {n - 1}, n - 1);
    }
  }

  lemma WithoutLast(picks: set<nat>, n: nat) returns (rest: set<nat>)
    requires n > 0 && Within(picks, n)
    ensures rest == picks - {n - 1} && Within(rest, n - 1) && |rest| <= n - 1
    ensures if n - 1 in picks then |picks| == |rest| + 1 else picks == rest
  {
    rest := picks - {n - 1};
    WithinIsSmall(rest, n - 1);
  }

  /** Exactly C(n-r, m) layouts leave r given tiles free of traps. */
  lemma {:induction false} LayoutsAvoiding(n: nat, m: nat, picks: set<nat>)
    requires Within(picks, n)
    ensures |picks| <= n
    ensures Count(AllLayouts(n, m), Avoids(picks)) == Choose(n - |picks|, m)
  {
    hide *;
    WithinIsSmall(picks, n);
    if m == 0 || n == 0 {
      LayoutsAvoidingNothing(n, m, picks);
    } else {
      var rest := WithoutLast(picks, n);
      LayoutsAvoiding(n - 1, m, rest);
      LayoutsAvoiding(n - 1, m - 1, rest);
      AvoidingSplits(n, m, picks, rest);
      var k := n - 1 - |rest|;
      if n - 1 in picks {
        assert n - |picks| == k;
        assert Count(AllLayouts(n, m), Avoids(picks)) == Choose(k, m);
      } else {
        Pascal(k + 1, m);
        assert n - |picks| == k + 1;
        assert Count(AllLayouts(n, m), Avoids(picks)) == Choose(k, m) + Choose(k, m - 1);
      }
    }
  }

  lemma LayoutsAvoidingNothing(n: nat, m: nat, picks: set<nat>)
    requires m == 0 || n == 0
    requires |picks| <= n
    ensures Count(AllLayouts(n, m), Avoids(picks)) == Choose(n - |picks|, m)
  {
    if m == 0 {
      assert AllLayouts(n, m) == [{}];
    }
  }

  lemma Pascal(n: nat, m: nat)
    requires n > 0 && m > 0
    ensures Choose(n, m) == Choose(n - 1, m) + Choose(n - 1, m - 1)
  {
  }

  lemma AvoidingSplits(n: nat, m: nat, picks: set<nat>, rest: set<nat>)
    requires n > 0 && m > 0 && rest == picks - {n - 1}
    ensures Count(AllLayouts(n, m), Avoids(picks))
         == Count(AllLayouts(n - 1, m), Avoids(rest))
            + if n - 1 in picks then 0 else Count(AllLayouts(n - 1, m - 1), Avoids(rest))
  {
    CountConcat(AllLayouts(n - 1, m), Map(AllLayouts(n - 1, m - 1), With(n - 1)), Avoids(picks));
    AvoidingWithout(n, m, picks);
    AvoidingWithLast(n, m, picks);
    assert n - 1 !in picks ==> rest == picks;
  }

  lemma AvoidingWithout(n: nat, m: nat, picks: set<nat>)
    requires n > 0
    ensures Count(AllLayouts(n - 1, m), Avoids(picks)) == Count(AllLayouts(n - 1, m), Avoids(picks - {n - 1}))
  {
    var xs := AllLayouts(n - 1, m);
    forall traps <- xs
      ensures Avoids(picks)(traps) == Avoids(picks - {n - 1})(traps)
    {
      var i :| 0 <= i < |xs| && xs[i] == traps;
      LayoutsAreSubsets(n - 1, m, i);
    }
    CountSame(xs, Avoids(picks), Avoids(picks - {n - 1}));
  }

  lemma AvoidingWithLast(n: nat, m: nat, picks: set<nat>)
    requires n > 0 && m > 0
    ensures Count(Map(AllLayouts(n - 1, m - 1), With(n - 1)), Avoids(picks))
         == if n - 1 in picks then 0 else Count(AllLayouts(n - 1, m - 1), Avoids(picks))
  {
    var xs := AllLayouts(n - 1, m - 1);
    if n - 1 in picks {
      forall traps <- Map(xs, With(n - 1))
        ensures !Avoids(picks)(traps)
      {
        var i :| 0 <= i < |xs| && Map(xs, With(n - 1))[i] == traps;
        assert n - 1 in traps;
      }
      CountNone(Map(xs, With(n - 1)), Avoids(picks));
    } else {
      CountMap(xs, With(n - 1), Avoids(picks), Avoids(picks));
    }
  }

  /** The absorption identity C(n, m) * (n - m) == n * C(n-1, m). */
  lemma {:induction false} Absorption(n: nat, m: nat)
    requires m < n
    ensures Choose(n, m) * (n - m) == n * Choose(n - 1, m)
  {
    if m == 0 {
    } else if m == n - 1 {
      Absorption(n - 1, m - 1);
      assert Choose(n - 1, m) == 1 by { ChooseAll(n - 1); }
      ChooseAllButOne(n);
    } else {
      Absorption(n - 1, m);
      Absorption(n - 1, m - 1);
      AbsorptionStep(n, n - m, Choose(n - 1, m), Choose(n - 1, m - 1), Choose(n - 2, m), Choose(n - 2, m - 1));
    }
  }

  lemma AbsorptionStep(n: int, d: int, a: int, e: int, b: int, c: int)
    requires a == b + c && a * (d - 1) == (n - 1) * b && e * d == (n - 1) * c
    ensures (a + e) * d == n * a
  {
    calc {
      (a + e) * d;
      a * (d - 1) + a + e * d;
      (n - 1) * b + (n - 1) * c + a;
      { assert (n - 1) * b + (n - 1) * c == (n - 1) * (b + c); }
      (n - 1) * a + a;
      n * a;
    }
  }

  lemma {:induction false} ChooseAll(n: nat)
    ensures Choose(n, n) == 1
  {
    if n > 0 {
      ChooseAll(n - 1);
    }
  }

  lemma {:induction false} ChooseAllButOne(n: nat)
    requires n > 0
    ensures Choose(n, n - 1) == n
  {
    if n > 1 {
      ChooseAllButOne(n - 1);
      ChooseAll(n - 1);
    }
  }

  /** C(n, r+1) * (r+1) == C(n, r) * (n-r). */
  lemma {:induction false} ChooseStep(n: nat, r: nat)
    requires r < n
    ensures Choose(n, r + 1) * (r + 1) == Choose(n, r) * (n - r)
  {
    if r == 0 {
      ChooseOne(n);
    } else if r == n - 1 {
      ChooseAll(n);
      ChooseAllButOne(n);
    } else {
      ChooseStep(n - 1, r);
      ChooseStep(n - 1, r - 1);
      Pascal(n, r + 1);
      Pascal(n, r);
      ChooseStepSum(n, r, Choose(n - 1, r + 1), Choose(n - 1, r), Choose(n - 1, r - 1));
    }
  }

  lemma ChooseStepSum(n: int, r: int, a: int, b: int, c: int)
    requires a * (r + 1) == b * (n - 1 - r) && b * r == c * (n - r)
    ensures (a + b) * (r + 1) == (b + c) * (n - r)
  {
    assert (a + b) * (r + 1) == a * (r + 1) + b * (r + 1);
    assert (b + c) * (n - r) == b * (n - 1 - r) + b + c * (n - r);
    assert b * (r + 1) == b * r + b;
  }

  lemma ChooseNone(n: nat)
    ensures Choose(n, 0) == 1
  {
  }

  lemma {:induction false} ChooseOne(n: nat)
    ensures Choose(n, 1) == n
  {
    if n > 0 {
      ChooseOne(n - 1);
    }
  }

  /** These are the first numbers C(n, 0), C(n, 1), ... of a row of Pascal's triangle. */
  predicate IsRow(n: nat, row: seq<nat>) {
    && 0 < |row| <= n + 1 && row[0] == 1
    && forall k :: 0 <= k < |row| - 1 ==> row[k + 1] * (k + 1) == row[k] * (n - k)
  }

  lemma {:induction false} RowIsChoose(n: nat, row: seq<nat>, k: nat)
    requires IsRow(n, row) && k < |row|
    ensures Choose(n, k) == row[k]
  {
    if k == 0 {
      ChooseNone(n);
    } else {
      RowIsChoose(n, row, k - 1);
      ChooseStep(n, k - 1);
      hide Choose;
      assert row[k] * k == row[k - 1] * (n - (k - 1));
      DivIs(row[k] * k, k, row[k]);
      DivIs(Choose(n, k) * k, k, Choose(n, k));
    }
  }
}
