/** Every shuffle index list, and how often each placement of traps comes out of the shuffle. */
module Boards {
  import opened Layouts
  import opened Shuffle
  import opened Sums

  function Append(j: nat): seq<nat> -> seq<nat> {
    js => js + [j]
  }

  /** The lists in `shorter`, each extended by every index below k. */
  function Extensions(shorter: seq<seq<nat>>, k: nat): seq<seq<nat>> {
    if k == 0 then [] else Extensions(shorter, k - 1) + Map(shorter, Append(k - 1))
  }

  /** Every index list for n positions. */
  function AllIndices(n: nat): seq<seq<nat>> {
    if n == 0 then [[]] else Extensions(AllIndices(n - 1), n)
  }

  lemma {:induction false} ExtensionsContain(shorter: seq<seq<nat>>, k: nat, js: seq<nat>)
    ensures js in Extensions(shorter, k) <==> js != [] && js[..|js| - 1] in shorter && js[|js| - 1] < k
  {
    if k > 0 {
      ExtensionsContain(shorter, k - 1, js);
      var block := Map(shorter, Append(k - 1));
      if js in block {
        var i :| 0 <= i < |block| && block[i] == js;
        assert js[..|js| - 1] == shorter[i];
      }
      if js != [] && js[..|js| - 1] in shorter && js[|js| - 1] == k - 1 {
        var i :| 0 <= i < |shorter| && shorter[i] == js[..|js| - 1];
        assert block[i] == js;
      }
    }
  }

  /** The list holds exactly the index lists for n positions ... */
  lemma {:induction false} AllIndicesIsComplete(n: nat, js: seq<nat>)
    ensures js in AllIndices(n) <==> |js| == n && IsIndices(js)
  {
    if n > 0 {
      ExtensionsContain(AllIndices(n - 1), n, js);
      if js != [] {
        AllIndicesIsComplete(n - 1, js[..|js| - 1]);
      }
    }
  }

  lemma {:induction false} ExtensionsAreDistinct(shorter: seq<seq<nat>>, k: nat)
    requires Distinct(shorter)
    ensures Distinct(Extensions(shorter, k))
    ensures |Extensions(shorter, k)| == k * |shorter|
  {
    if k > 0 {
      ExtensionsAreDistinct(shorter, k - 1);
      var before, block := Extensions(shorter, k - 1), Map(shorter, Append(k - 1));
      forall i, j | 0 <= i < |before| && 0 <= j < |block|
        ensures before[i] != block[j]
      {
        ExtensionsContain(shorter, k - 1, before[i]);
      }
      forall i, j | 0 <= i < j < |block|
        ensures block[i] != block[j]
      {
        assert block[i][..|block[i]| - 1] == shorter[i] && block[j][..|block[j]| - 1] == shorter[j];
      }
      DistinctConcat(before, block);
    }
  }

  /** ... each of them once, so there are n! of them. */
  lemma {:induction false} AllIndicesAreDistinct(n: nat)
    ensures Distinct(AllIndices(n))
    ensures |AllIndices(n)| == Factorial(n)
  {
    if n > 0 {
      AllIndicesAreDistinct(n - 1);
      ExtensionsAreDistinct(AllIndices(n - 1), n);
    }
  }

  /** The items at the first m places of a shuffle. */
  function FirstOf<T(==)>(items: seq<T>, m: nat, js: seq<nat>): set<T>
    requires |js| == |items| && IsIndices(js) && m <= |items|
  {
    set x <- Shuffled(items, js)[..m]
  }

  /** Whether shuffling with these indices puts exactly `chosen` in the first m places. */
  function Yields<T(==)>(items: seq<T>, m: nat, chosen: set<T>): seq<nat> -> bool {
    js => |js| == |items| && IsIndices(js) && m <= |items| && FirstOf(items, m, js) == chosen
  }

  function Outside<T(==)>(chosen: set<T>): T -> bool {
    x => x !in chosen
  }

  lemma {:induction false} CountOutside<T(!new)>(items: seq<T>, chosen: set<T>)
    requires Distinct(items) && forall x <- chosen :: x in items
    ensures Count(items, Outside(chosen)) + |chosen| == |items|
  {
    if items == [] {
      assert chosen == {};
    } else {
      var rest := chosen - {items[0]};
      forall x <- rest
        ensures x in items[1..]
      {
      }
      CountOutside(items[1..], rest);
      CountSame(items[1..], Outside(chosen), Outside(rest));
    }
  }

  lemma ShuffledTail<T(!new)>(items: seq<T>, m: nat, js: seq<nat>, j: nat)
    requires |js| + 1 == |items| && IsIndices(js) && m < |items| && j < |items|
    ensures IsIndices(js + [j])
    ensures FirstOf(items, m, js + [j]) == FirstOf(Rest(items, j), m, js)
  {
    assert (js + [j])[..|items| - 1] == js;
    ShuffledUnfold(items, js + [j]);
    assert Shuffled(items, js + [j])[..m] == Shuffled(Rest(items, j), js)[..m];
  }

  lemma FirstOfContains<T(!new)>(items: seq<T>, m: nat, js: seq<nat>)
    requires |js| == |items| && IsIndices(js) && m <= |items|
    ensures forall x <- FirstOf(items, m, js) :: x in items
  {
    ShuffledIsPermutation(items, js);
    forall x <- FirstOf(items, m, js)
      ensures x in items
    {
      assert x in multiset(Shuffled(items, js));
    }
  }

  /** The item that is placed last is not among the first m, whatever happens before it. */
  lemma YieldsStep<T(!new)>(items: seq<T>, m: nat, chosen: set<T>, js: seq<nat>, j: nat)
    requires Distinct(items) && m < |items| && j < |items| && js in AllIndices(|items| - 1)
    ensures Yields(items, m, chosen)(Append(j)(js)) == (items[j] !in chosen && Yields(Rest(items, j), m, chosen)(js))
  {
    hide *;
    AllIndicesIsComplete(|items| - 1, js);
    LastIsNotFirst(items, m, js, j);
    ShuffledTail(items, m, js, j);
    YieldsUnfold(items, m, chosen, js + [j]);
    YieldsUnfold(Rest(items, j), m, chosen, js);
    AppendUnfold(js, j);
  }

  lemma YieldsUnfold<T>(items: seq<T>, m: nat, chosen: set<T>, js: seq<nat>)
    requires |js| == |items| && IsIndices(js) && m <= |items|
    ensures Yields(items, m, chosen)(js) == (FirstOf(items, m, js) == chosen)
  {
  }

  lemma AppendUnfold(js: seq<nat>, j: nat)
    ensures Append(j)(js) == js + [j]
  {
  }

  lemma LastIsNotFirst<T(!new)>(items: seq<T>, m: nat, js: seq<nat>, j: nat)
    requires Distinct(items) && m < |items| && j < |items| && |js| + 1 == |items| && IsIndices(js)
    ensures items[j] !in FirstOf(Rest(items, j), m, js)
  {
    hide *;
    FirstOfContains(Rest(items, j), m, js);
    RestIsDistinct(items, j);
  }

  /** Each index list that first moves an unchosen item away has `each` ways to continue. */
  ghost predicate EachContinues<T(!new)>(items: seq<T>, m: nat, chosen: set<T>, each: nat)
    requires items != []
  {
    forall j: nat | j < |items| && items[j] !in chosen ::
      Count(AllIndices(|items| - 1), Yields(Rest(items, j), m, chosen)) == each
  }

  lemma {:induction false} CountExtensions<T(!new)>(items: seq<T>, m: nat, chosen: set<T>, k: nat, each: nat)
    requires Distinct(items) && m < |items| && k <= |items| && EachContinues(items, m, chosen, each)
    ensures Count(Extensions(AllIndices(|items| - 1), k), Yields(items, m, chosen))
         == Count(items[..k], Outside(chosen)) * each
  {
    hide *;
    var shorter, y := AllIndices(|items| - 1), Yields(items, m, chosen);
    if k == 0 {
      NoExtensions(shorter, y);
      NoneCounted(items[..0], Outside(chosen));
    } else {
      CountBlock(items, m, chosen, k - 1, each);
      CountPrefix(items, chosen, k);
      ExtensionsUnfold(shorter, k);
      CountExtensions(items, m, chosen, k - 1, each);
      CountConcat(Extensions(shorter, k - 1), Map(shorter, Append(k - 1)), y);
      var before := Count(items[..k - 1], Outside(chosen));
      assert (before + 1) * each == before * each + each;
    }
  }

  lemma NoExtensions(shorter: seq<seq<nat>>, p: seq<nat> -> bool)
    ensures Count(Extensions(shorter, 0), p) == 0
  {
  }

  lemma NoneCounted<T>(xs: seq<T>, p: T -> bool)
    requires xs == []
    ensures Count(xs, p) == 0
  {
  }

  lemma ExtensionsUnfold(shorter: seq<seq<nat>>, k: nat)
    requires k > 0
    ensures Extensions(shorter, k) == Extensions(shorter, k - 1) + Map(shorter, Append(k - 1))
  {
  }

  lemma CountPrefix<T>(items: seq<T>, chosen: set<T>, k: nat)
    requires 0 < k <= |items|
    ensures Count(items[..k], Outside(chosen))
         == Count(items[..k - 1], Outside(chosen)) + if items[k - 1] in chosen then 0 else 1
  {
    assert items[..k] == items[..k - 1] + [items[k - 1]];
    CountConcat(items[..k - 1], [items[k - 1]], Outside(chosen));
  }

  lemma EachUnfold<T(!new)>(items: seq<T>, m: nat, chosen: set<T>, j: nat, each: nat)
    requires j < |items| && EachContinues(items, m, chosen, each) && items[j] !in chosen
    ensures Count(AllIndices(|items| - 1), Yields(Rest(items, j), m, chosen)) == each
  {
  }

  lemma CountBlock<T(!new)>(items: seq<T>, m: nat, chosen: set<T>, j: nat, each: nat)
    requires Distinct(items) && m < |items| && j < |items| && EachContinues(items, m, chosen, each)
    ensures Count(Map(AllIndices(|items| - 1), Append(j)), Yields(items, m, chosen))
         == if items[j] in chosen then 0 else each
  {
    if items[j] !in chosen {
      EachUnfold(items, m, chosen, j, each);
    }
    hide *;
    var shorter := AllIndices(|items| - 1);
    forall js <- shorter
      ensures Yields(items, m, chosen)(Append(j)(js)) == (items[j] !in chosen && Yields(Rest(items, j), m, chosen)(js))
    {
      YieldsStep(items, m, chosen, js, j);
    }
    if items[j] in chosen {
      CountMap(shorter, Append(j), Yields(items, m, chosen), js => false);
      CountNone(shorter, js => false);
    } else {
      CountMap(shorter, Append(j), Yields(items, m, chosen), Yields(Rest(items, j), m, chosen));
    }
  }

  /** When all items are chosen, every index list yields them. */
  lemma AllItemsChosen<T(!new)>(items: seq<T>, chosen: set<T>)
    requires Distinct(items) && |chosen| == |items| && forall x <- chosen :: x in items
    ensures Count(AllIndices(|items|), Yields(items, |items|, chosen)) == Factorial(|items|)
  {
    hide *;
    var n := |items|;
    CountOutside(items, chosen);
    forall js <- AllIndices(n)
      ensures Yields(items, n, chosen)(js)
    {
      AllIndicesIsComplete(n, js);
      FirstOfAll(items, js);
      forall i: nat | i < n
        ensures items[i] in chosen
      {
        NoneOutside(items, chosen, i);
      }
      assert FirstOf(items, n, js) == chosen;
      YieldsUnfold(items, n, chosen, js);
    }
    CountAll(AllIndices(n), Yields(items, n, chosen));
    AllIndicesAreDistinct(n);
  }

  lemma FirstOfAll<T(!new)>(items: seq<T>, js: seq<nat>)
    requires |js| == |items| && IsIndices(js)
    ensures forall x :: x in FirstOf(items, |items|, js) <==> x in items
  {
    ShuffledIsPermutation(items, js);
    var shuffled := Shuffled(items, js);
    assert shuffled[..|items|] == shuffled;
    forall x
      ensures x in shuffled <==> x in items
    {
      assert x in shuffled <==> x in multiset(shuffled);
      assert x in items <==> x in multiset(items);
    }
  }

  lemma NoneOutside<T(!new)>(items: seq<T>, chosen: set<T>, i: nat)
    requires Count(items, Outside(chosen)) == 0 && i < |items|
    ensures items[i] in chosen
  {
    assert items == items[..i] + items[i..];
    CountConcat(items[..i], items[i..], Outside(chosen));
  }

  /** Every choice of m of n different items comes from exactly m! (n-m)! of the n! index lists. */
  lemma {:induction false} IndicesPerChoice<T(!new)>(items: seq<T>, m: nat, chosen: set<T>)
    requires Distinct(items) && m <= |items| && |chosen| == m && forall x <- chosen :: x in items
    ensures Count(AllIndices(|items|), Yields(items, m, chosen)) == Factorial(m) * Factorial(|items| - m)
    decreases |items|
  {
    hide *;
    var n := |items|;
    if m == n {
      AllItemsChosen(items, chosen);
      FactorialOfZero();
    } else {
      var each := Factorial(m) * Factorial(n - 1 - m);
      forall j: nat | j < n && items[j] !in chosen
        ensures Count(AllIndices(n - 1), Yields(Rest(items, j), m, chosen)) == each
      {
        ChosenRemain(items, j, chosen);
        IndicesPerChoice(Rest(items, j), m, chosen);
      }
      EachIntro(items, m, chosen, each);
      CountExtensions(items, m, chosen, n, each);
      assert items[..n] == items;
      CountOutside(items, chosen);
      FactorialStep(n, m);
      AllIndicesUnfold(n);
    }
  }

  lemma FactorialOfZero()
    ensures Factorial(0) == 1
  {
  }

  lemma EachIntro<T(!new)>(items: seq<T>, m: nat, chosen: set<T>, each: nat)
    requires items != []
    requires forall j: nat | j < |items| && items[j] !in chosen ::
      Count(AllIndices(|items| - 1), Yields(Rest(items, j), m, chosen)) == each
    ensures EachContinues(items, m, chosen, each)
  {
  }

  lemma AllIndicesUnfold(n: nat)
    requires n > 0
    ensures AllIndices(n) == Extensions(AllIndices(n - 1), n)
  {
  }

  lemma Reorder(k: int, a: int, b: int)
    ensures k * (a * b) == a * (k * b)
  {
  }

  lemma FactorialStep(n: nat, m: nat)
    requires m < n
    ensures (n - m) * (Factorial(m) * Factorial(n - 1 - m)) == Factorial(m) * Factorial(n - m)
  {
    var a, b, k := Factorial(m), Factorial(n - 1 - m), n - m;
    assert Factorial(k) == k * b;
    hide *;
    Reorder(k, a, b);
  }

  lemma ChosenRemain<T(!new)>(items: seq<T>, j: nat, chosen: set<T>)
    requires Distinct(items) && j < |items| && items[j] !in chosen && forall x <- chosen :: x in items
    ensures Distinct(Rest(items, j)) && forall x <- chosen :: x in Rest(items, j)
  {
    RestIsDistinct(items, j);
    forall x <- chosen
      ensures x in Rest(items, j)
    {
      var k :| 0 <= k < |items| && items[k] == x;
      var i := if k == |items| - 1 then j else k;
      RestAt(items, j, i);
    }
  }

  function Positions(n: nat): (tiles: seq<nat>)
    ensures |tiles| == n && forall i :: 0 <= i < n ==> tiles[i] == i
  {
    seq(n, i requires 0 <= i < n => i)
  }

  /** The trap placement an index list lays out: the first m places of the shuffled tiles. */
  function Placement(n: nat, m: nat): seq<nat> -> set<nat>
    requires m <= n
  {
    js => if |js| == n && IsIndices(js) then FirstOf(Positions(n), m, js) else {}
  }

  lemma PlacementIsYield(n: nat, m: nat, traps: set<nat>, js: seq<nat>)
    requires m <= n && js in AllIndices(n)
    ensures MapsTo(Placement(n, m), traps)(js) == Yields(Positions(n), m, traps)(js)
  {
    AllIndicesIsComplete(n, js);
  }

  lemma PlacementCount(n: nat, m: nat, traps: set<nat>)
    requires m <= n && Within(traps, n) && |traps| == m
    ensures Count(AllIndices(n), MapsTo(Placement(n, m), traps)) == Factorial(m) * Factorial(n - m)
  {
    forall js <- AllIndices(n)
      ensures MapsTo(Placement(n, m), traps)(js) == Yields(Positions(n), m, traps)(js)
    {
      PlacementIsYield(n, m, traps, js);
    }
    CountSame(AllIndices(n), MapsTo(Placement(n, m), traps), Yields(Positions(n), m, traps));
    forall x <- traps
      ensures x in Positions(n)
    {
      assert Positions(n)[x] == x;
    }
    IndicesPerChoice(Positions(n), m, traps);
  }

  lemma PlacementIsLayout(n: nat, m: nat, js: seq<nat>)
    requires m <= n && |js| == n && IsIndices(js)
    ensures Within(Placement(n, m)(js), n) && |Placement(n, m)(js)| == m
  {
    var tiles := Positions(n);
    var shuffled := Shuffled(tiles, js);
    ShuffledIsPermutation(tiles, js);
    FirstOfContains(tiles, m, js);
    PermutationIsDistinct(tiles, shuffled);
    DistinctSize(shuffled[..m]);
  }

  lemma {:induction false} PermutationIsDistinct<T(!new)>(xs: seq<T>, ys: seq<T>)
    requires multiset(xs) == multiset(ys) && Distinct(xs)
    ensures Distinct(ys)
  {
    forall i, j | 0 <= i < j < |ys|
      ensures ys[i] != ys[j]
    {
      if ys[i] == ys[j] {
        assert ys == ys[..i] + [ys[i]] + ys[i + 1..j] + [ys[j]] + ys[j + 1..];
        assert multiset(ys)[ys[i]] >= 2;
        AtMostOnce(xs, ys[i]);
      }
    }
  }

  lemma {:induction false} AtMostOnce<T(!new)>(xs: seq<T>, x: T)
    requires Distinct(xs)
    ensures multiset(xs)[x] <= 1
    ensures x !in xs ==> multiset(xs)[x] == 0
  {
    if xs != [] {
      assert xs == [xs[0]] + xs[1..];
      AtMostOnce(xs[1..], x);
    }
  }

  lemma {:induction false} DistinctSize<T(!new)>(xs: seq<T>)
    requires Distinct(xs)
    ensures |(set x <- xs)| == |xs|
  {
    if xs != [] {
      DistinctSize(xs[1..]);
      assert (set x <- xs) == (set x <- xs[1..]) + {xs[0]};
    }
  }

  function Over<T>(h: seq<nat> -> set<nat>, f: set<nat> -> T): seq<nat> -> T {
    js => f(h(js))
  }

  /** Totals over all index lists are m! (n-m)! times totals over all placements: each is equally likely. */
  lemma PlacementsAreEquallyLikely(n: nat, m: nat, f: set<nat> -> real)
    requires m <= n
    ensures Total(AllIndices(n), Over(Placement(n, m), f))
         == (Factorial(m) * Factorial(n - m)) as real * Total(AllLayouts(n, m), f)
  {
    hide *;
    var h, layouts := Placement(n, m), AllLayouts(n, m);
    AllLayoutsAreDistinct(n, m);
    forall traps <- layouts
      ensures Count(AllIndices(n), MapsTo(h, traps)) == Factorial(m) * Factorial(n - m)
    {
      AllLayoutsIsComplete(n, m, traps);
      PlacementCount(n, m, traps);
    }
    Regroup(AllIndices(n), h, f, layouts, Factorial(m) * Factorial(n - m));
    forall js <- AllIndices(n)
      ensures Over(h, f)(js) == Pulled(h, f, layouts)(js)
    {
      AllIndicesIsComplete(n, js);
      PlacementIsLayout(n, m, js);
      AllLayoutsIsComplete(n, m, h(js));
      PulledAtGroup(h, f, layouts, js);
    }
    TotalSame(AllIndices(n), Over(h, f), Pulled(h, f, layouts));
  }

  lemma PulledAtGroup(h: seq<nat> -> set<nat>, f: set<nat> -> real, groups: seq<set<nat>>, js: seq<nat>)
    requires h(js) in groups
    ensures Pulled(h, f, groups)(js) == Over(h, f)(js)
  {
  }

  /** n! == C(n, m) m! (n-m)!, read off the shuffle. */
  lemma ChooseFactorial(n: nat, m: nat)
    requires m <= n
    ensures Factorial(n) == Factorial(m) * Factorial(n - m) * Choose(n, m)
  {
    hide *;
    var one: set<nat> -> real := traps => 1.0;
    PlacementsAreEquallyLikely(n, m, one);
    AllIndicesAreDistinct(n);
    AllLayoutsAreDistinct(n, m);
    TotalOfOnes(AllIndices(n), Placement(n, m), one);
    CountTotal(AllLayouts(n, m), one);
    var a, b := Factorial(m) * Factorial(n - m), Choose(n, m);
    assert a as real * b as real == (a * b) as real;
  }

  lemma TotalOfOnes(xs: seq<seq<nat>>, h: seq<nat> -> set<nat>, one: set<nat> -> real)
    requires forall traps :: one(traps) == 1.0
    ensures Total(xs, Over(h, one)) == |xs| as real
  {
    CountTotal(xs, Over(h, one));
  }

  lemma {:induction false} CountTotal<T>(xs: seq<T>, f: T -> real)
    requires forall x <- xs :: f(x) == 1.0
    ensures Total(xs, f) == |xs| as real
  {
    if xs != [] {
      CountTotal(xs[1..], f);
    }
  }
}
