/**
 * The board of a forced loss in Mines: which tiles it mines whatever is drawn, how evenly the other mines are spread, and hence
 * against which picks the loss is certain.
 */
module ForcedBoards {
  import opened Arithmetic
  import opened Boards
  import opened Layouts
  import opened Mines
  import opened MinesGrid
  import opened Rng
  import opened Shuffle
  import opened Streams
  import opened Sums

  function Members<T(==)>(xs: seq<T>): set<T> {
    set x <- xs
  }

  /** The first k items of a shuffle that are not in `hot`. */
  function ColdFirst<T(==)>(items: seq<T>, k: nat, hot: set<T>, js: seq<nat>): set<T>
    requires |js| == |items| && IsIndices(js)
  {
    var cold := Filter(Shuffled(items, js), Outside(hot));
    Members(cold[..Least(k, |cold|)])
  }

  /** Whether these are the chosen ones. */
  function ColdYields<T(==)>(items: seq<T>, k: nat, hot: set<T>, chosen: set<T>): seq<nat> -> bool {
    js => |js| == |items| && IsIndices(js) && ColdFirst(items, k, hot, js) == chosen
  }

  function In<T(==)>(hot: set<T>): T -> bool {
    x => x in hot
  }

  lemma {:induction false} FilterAppend<T>(xs: seq<T>, x: T, p: T -> bool)
    ensures Filter(xs + [x], p) == Filter(xs, p) + if p(x) then [x] else []
  {
    if xs == [] {
      assert [x][1..] == [];
      assert [] + [x] == [x];
    } else {
      assert (xs + [x])[1..] == xs[1..] + [x];
      FilterAppend(xs[1..], x, p);
    }
  }

  lemma WithoutOne<T(!new)>(xs: seq<T>, ys: seq<T>, k: nat)
    requires multiset(xs) == multiset(ys) && xs != [] && k < |ys| && ys[k] == xs[0]
    ensures multiset(xs[1..]) == multiset(ys[..k] + ys[k + 1..])
  {
    assert xs == [xs[0]] + xs[1..];
    assert ys == ys[..k] + [ys[k]] + ys[k + 1..];
    var rest := ys[..k] + ys[k + 1..];
    assert multiset(xs) == multiset{xs[0]} + multiset(xs[1..]);
    assert multiset(ys) == multiset{xs[0]} + multiset(rest);
    assert multiset(xs[1..]) == multiset(xs) - multiset{xs[0]} && multiset(rest) == multiset(ys) - multiset{xs[0]};
  }

  lemma CountWithout<T>(ys: seq<T>, k: nat, p: T -> bool)
    requires k < |ys|
    ensures Count(ys, p) == Count(ys[..k] + ys[k + 1..], p) + if p(ys[k]) then 1 else 0
  {
    assert ys == ys[..k] + [ys[k]] + ys[k + 1..];
    CountAppend(ys[..k], ys[k], p);
    CountConcat(ys[..k] + [ys[k]], ys[k + 1..], p);
    CountConcat(ys[..k], ys[k + 1..], p);
    hide Count;
  }

  lemma {:induction false} CountOfMultiset<T(!new)>(xs: seq<T>, ys: seq<T>, p: T -> bool)
    requires multiset(xs) == multiset(ys)
    ensures Count(xs, p) == Count(ys, p)
    decreases |xs|
  {
    if xs == [] {
      assert |multiset(ys)| == 0;
      assert ys == [];
    } else {
      assert xs[0] in multiset(ys);
      var k :| 0 <= k < |ys| && ys[k] == xs[0];
      WithoutOne(xs, ys, k);
      CountOfMultiset(xs[1..], ys[..k] + ys[k + 1..], p);
      CountWithout(ys, k, p);
    }
  }

  /** A shuffle keeps the number of cold items. */
  lemma ColdCount<T(!new)>(items: seq<T>, hot: set<T>, js: seq<nat>)
    requires |js| == |items| && IsIndices(js)
    ensures |Filter(Shuffled(items, js), Outside(hot))| == Count(items, Outside(hot))
  {
    ShuffledIsPermutation(items, js);
    CountOfMultiset(Shuffled(items, js), items, Outside(hot));
    hide Shuffled;
    hide Filter;
    hide Count;
  }

  lemma FilterTail<T(!new)>(items: seq<T>, p: T -> bool, js: seq<nat>, j: nat)
    requires |js| + 1 == |items| && IsIndices(js) && j < |items|
    ensures IsIndices(js + [j])
    ensures Filter(Shuffled(items, js + [j]), p) == Filter(Shuffled(Rest(items, j), js), p) + if p(items[j]) then [items[j]] else []
  {
    assert (js + [j])[..|items| - 1] == js;
    ShuffledUnfold(items, js + [j]);
    FilterAppend(Shuffled(Rest(items, j), js), items[j], p);
    hide Filter;
    hide Shuffled;
    hide Rest;
  }

  lemma ColdFirstIs<T>(items: seq<T>, k: nat, hot: set<T>, js: seq<nat>)
    requires |js| == |items| && IsIndices(js) && k <= |Filter(Shuffled(items, js), Outside(hot))|
    ensures ColdFirst(items, k, hot, js) == Members(Filter(Shuffled(items, js), Outside(hot))[..k])
  {
    hide Filter;
    hide Shuffled;
  }

  /** What the item that is placed last means for the first k cold ones. */
  lemma ColdTail<T(!new)>(items: seq<T>, k: nat, hot: set<T>, js: seq<nat>, j: nat)
    requires Distinct(items) && |js| + 1 == |items| && IsIndices(js) && j < |items| && k < Count(items, Outside(hot))
    ensures IsIndices(js + [j])
    ensures ColdFirst(items, k, hot, js + [j]) == ColdFirst(Rest(items, j), k, hot, js)
    ensures items[j] !in ColdFirst(Rest(items, j), k, hot, js)
  {
    hide *;
    var before := Filter(Shuffled(Rest(items, j), js), Outside(hot));
    FilterTail(items, Outside(hot), js, j);
    var all := Filter(Shuffled(items, js + [j]), Outside(hot));
    ColdCount(items, hot, js + [j]);
    FirstOfLonger(before, all, items[j], Outside(hot)(items[j]), k);
    ColdFirstIs(items, k, hot, js + [j]);
    ColdFirstIs(Rest(items, j), k, hot, js);
    NotAmongCold(items, js, j, hot, k);
  }

  lemma FirstOfLonger<T>(before: seq<T>, all: seq<T>, x: T, more: bool, k: nat)
    requires all == before + (if more then [x] else []) && k < |all|
    ensures k <= |before| && all[..k] == before[..k]
  {
  }

  lemma NotAmongCold<T(!new)>(items: seq<T>, js: seq<nat>, j: nat, hot: set<T>, k: nat)
    requires Distinct(items) && |js| + 1 == |items| && IsIndices(js) && j < |items|
    requires k <= |Filter(Shuffled(Rest(items, j), js), Outside(hot))|
    ensures items[j] !in Members(Filter(Shuffled(Rest(items, j), js), Outside(hot))[..k])
  {
    LastIsNotShuffled(items, js, j);
    hide Filter;
    hide Shuffled;
    hide Rest;
  }

  lemma LastIsNotShuffled<T(!new)>(items: seq<T>, js: seq<nat>, j: nat)
    requires Distinct(items) && |js| + 1 == |items| && IsIndices(js) && j < |items|
    ensures items[j] !in Shuffled(Rest(items, j), js)
  {
    FirstOfAll(Rest(items, j), js);
    RestIsDistinct(items, j);
    assert Shuffled(Rest(items, j), js)[..|items| - 1] == Shuffled(Rest(items, j), js);
  }

  lemma ColdYieldsUnfold<T>(items: seq<T>, k: nat, hot: set<T>, chosen: set<T>, js: seq<nat>)
    requires |js| == |items| && IsIndices(js)
    ensures ColdYields(items, k, hot, chosen)(js) == (ColdFirst(items, k, hot, js) == chosen)
  {
    hide ColdFirst;
  }

  lemma ColdStep<T(!new)>(items: seq<T>, k: nat, hot: set<T>, chosen: set<T>, js: seq<nat>, j: nat)
    requires Distinct(items) && j < |items| && js in AllIndices(|items| - 1) && k < Count(items, Outside(hot))
    ensures ColdYields(items, k, hot, chosen)(Append(j)(js))
         == (items[j] !in chosen && ColdYields(Rest(items, j), k, hot, chosen)(js))
  {
    hide *;
    AllIndicesIsComplete(|items| - 1, js);
    ColdTail(items, k, hot, js, j);
    ColdYieldsUnfold(items, k, hot, chosen, js + [j]);
    ColdYieldsUnfold(Rest(items, j), k, hot, chosen, js);
    AppendUnfold(js, j);
  }

  /** How many index lists continue after the j-th item has been moved away. */
  function Continues<T(!new)>(items: seq<T>, k: nat, hot: set<T>, chosen: set<T>, j: nat): nat
    requires j < |items|
  {
    Count(AllIndices(|items| - 1), ColdYields(Rest(items, j), k, hot, chosen))
  }

  /** As many for each hot item, and as many for each cold one that is not chosen. */
  ghost predicate Evenly<T(!new)>(items: seq<T>, k: nat, hot: set<T>, chosen: set<T>, afterHot: nat, afterCold: nat) {
    forall j: nat | j < |items| && items[j] !in chosen ::
      Continues(items, k, hot, chosen, j) == if items[j] in hot then afterHot else afterCold
  }

  lemma ColdBlock<T(!new)>(items: seq<T>, k: nat, hot: set<T>, chosen: set<T>, j: nat)
    requires Distinct(items) && j < |items| && k < Count(items, Outside(hot))
    ensures Count(Map(AllIndices(|items| - 1), Append(j)), ColdYields(items, k, hot, chosen))
         == if items[j] in chosen then 0 else Continues(items, k, hot, chosen, j)
  {
    ContinuesIs(items, k, hot, chosen, j);
    hide *;
    var shorter := AllIndices(|items| - 1);
    forall js <- shorter
      ensures ColdYields(items, k, hot, chosen)(Append(j)(js)) == (items[j] !in chosen && ColdYields(Rest(items, j), k, hot, chosen)(js))
    {
      ColdStep(items, k, hot, chosen, js, j);
    }
    if items[j] in chosen {
      CountMap(shorter, Append(j), ColdYields(items, k, hot, chosen), js => false);
      CountNone(shorter, js => false);
    } else {
      CountMap(shorter, Append(j), ColdYields(items, k, hot, chosen), ColdYields(Rest(items, j), k, hot, chosen));
    }
  }

  lemma ContinuesIs<T(!new)>(items: seq<T>, k: nat, hot: set<T>, chosen: set<T>, j: nat)
    requires j < |items|
    ensures Continues(items, k, hot, chosen, j) == Count(AllIndices(|items| - 1), ColdYields(Rest(items, j), k, hot, chosen))
  {
  }

  lemma EvenlyAt<T(!new)>(items: seq<T>, k: nat, hot: set<T>, chosen: set<T>, afterHot: nat, afterCold: nat, j: nat)
    requires Evenly(items, k, hot, chosen, afterHot, afterCold) && j < |items| && items[j] !in chosen
    ensures Continues(items, k, hot, chosen, j) == if items[j] in hot then afterHot else afterCold
  {
    hide Continues;
  }

  lemma PrefixCounts<T>(items: seq<T>, hot: set<T>, chosen: set<T>, n: nat)
    requires n < |items|
    ensures Count(items[..n + 1], In(hot)) == Count(items[..n], In(hot)) + if items[n] in hot then 1 else 0
    ensures Count(items[..n + 1], Outside(hot + chosen)) == Count(items[..n], Outside(hot + chosen)) + if items[n] in hot + chosen then 0 else 1
  {
    assert items[..n + 1] == items[..n] + [items[n]];
    CountAppend(items[..n], items[n], In(hot));
    CountAppend(items[..n], items[n], Outside(hot + chosen));
  }

  lemma {:induction false} ColdExtensions<T(!new)>(items: seq<T>, k: nat, hot: set<T>, chosen: set<T>, n: nat, afterHot: nat, afterCold: nat)
    requires Distinct(items) && n <= |items| && items != [] && k < Count(items, Outside(hot)) && hot !! chosen
    requires Evenly(items, k, hot, chosen, afterHot, afterCold)
    ensures Count(Extensions(AllIndices(|items| - 1), n), ColdYields(items, k, hot, chosen))
         == Count(items[..n], In(hot)) * afterHot + Count(items[..n], Outside(hot + chosen)) * afterCold
  {
    hide *;
    var shorter, y := AllIndices(|items| - 1), ColdYields(items, k, hot, chosen);
    if n == 0 {
      NoExtensions(shorter, y);
      NoneCounted(items[..0], In(hot));
      NoneCounted(items[..0], Outside(hot + chosen));
    } else {
      ColdExtensions(items, k, hot, chosen, n - 1, afterHot, afterCold);
      ColdBlock(items, k, hot, chosen, n - 1);
      ExtensionsUnfold(shorter, n);
      CountConcat(Extensions(shorter, n - 1), Map(shorter, Append(n - 1)), y);
      PrefixCounts(items, hot, chosen, n - 1);
      if items[n - 1] !in chosen {
        EvenlyAt(items, k, hot, chosen, afterHot, afterCold, n - 1);
      }
      OneMore(Count(items[..n - 1], In(hot)), afterHot);
      OneMore(Count(items[..n - 1], Outside(hot + chosen)), afterCold);
    }
  }

  lemma OneMore(x: nat, y: nat)
    ensures (x + 1) * y == x * y + y
  {
  }

  lemma AllColdChosen<T(!new)>(items: seq<T>, k: nat, hot: set<T>, chosen: set<T>)
    requires Distinct(items) && k == Count(items, Outside(hot)) && hot !! chosen && |chosen| == k && forall x <- chosen :: x in items
    ensures Count(AllIndices(|items|), ColdYields(items, k, hot, chosen)) == Factorial(|items|)
  {
    forall js <- AllIndices(|items|)
      ensures ColdYields(items, k, hot, chosen)(js)
    {
      AllIndicesIsComplete(|items|, js);
      ColdFirstOfAll(items, hot, chosen, js);
    }
    hide ColdYields;
    CountAll(AllIndices(|items|), ColdYields(items, k, hot, chosen));
    AllIndicesAreDistinct(|items|);
  }

  lemma ColdFirstOfAll<T(!new)>(items: seq<T>, hot: set<T>, chosen: set<T>, js: seq<nat>)
    requires Distinct(items) && |js| == |items| && IsIndices(js) && hot !! chosen && forall x <- chosen :: x in items
    requires |chosen| == Count(items, Outside(hot))
    ensures ColdFirst(items, |chosen|, hot, js) == chosen
  {
    var p := Outside(hot);
    var cold := Filter(Shuffled(items, js), p);
    ColdCount(items, hot, js);
    assert cold[..|chosen|] == cold;
    ShuffledIsPermutation(items, js);
    PermutationIsDistinct(items, Shuffled(items, js));
    FilterIsDistinct(Shuffled(items, js), p);
    DistinctSize(cold);
    FirstOfAll(items, js);
    assert Shuffled(items, js)[..|items|] == Shuffled(items, js);
    forall x <- chosen
      ensures x in cold
    {
      FilterHolds(Shuffled(items, js), p, x);
    }
    SameSize(chosen, Members(cold));
    hide Filter;
    hide Count;
  }

  lemma {:induction false} FilterHolds<T(!new)>(xs: seq<T>, p: T -> bool, x: T)
    requires x in xs && p(x)
    ensures x in Filter(xs, p)
  {
    if xs[0] != x {
      FilterHolds(xs[1..], p, x);
    }
  }

  lemma SameSize<T>(a: set<T>, b: set<T>)
    requires a <= b && |a| == |b|
    ensures a == b
  {
    assert b == a + (b - a);
    assert |b| == |a| + |b - a|;
  }

  lemma RestCount<T(!new)>(items: seq<T>, j: nat, p: T -> bool)
    requires j < |items|
    ensures Count(items, p) == Count(Rest(items, j), p) + if p(items[j]) then 1 else 0
  {
    var last := |items| - 1;
    var swapped := Swapped(items, last, j);
    assert swapped == Rest(items, j) + [items[j]];
    CountOfMultiset(items, swapped, p);
    CountAppend(Rest(items, j), items[j], p);
    hide Count;
  }

  /** Items are hot, chosen, or cold and not chosen. */
  lemma {:induction false} CountParts<T>(items: seq<T>, hot: set<T>, chosen: set<T>)
    requires hot !! chosen
    ensures Count(items, Outside(hot)) == Count(items, Outside(hot + chosen)) + Count(items, In(chosen))
    ensures Count(items, In(hot)) + Count(items, Outside(hot)) == |items|
  {
    if items != [] {
      CountParts(items[1..], hot, chosen);
    }
  }

  lemma ChosenCount<T(!new)>(items: seq<T>, hot: set<T>, chosen: set<T>)
    requires Distinct(items) && hot !! chosen && forall x <- chosen :: x in items
    ensures Count(items, Outside(hot)) == Count(items, Outside(hot + chosen)) + |chosen|
    ensures Count(items, In(hot)) + Count(items, Outside(hot)) == |items|
  {
    CountParts(items, hot, chosen);
    CountOutside(items, chosen);
    CountComplement(items, In(chosen), Outside(chosen));
    hide Count;
    hide Distinct;
  }

  lemma SomeCounted<T>(items: seq<T>, p: T -> bool) returns (j: nat)
    requires Count(items, p) > 0
    ensures j < |items| && p(items[j])
  {
    CountZero(items, p);
    j :| j < |items| && p(items[j]);
  }

  lemma SameFactor(a: nat, b: nat, c: nat)
    requires a * c == b * c && c > 0
    ensures a == b
  {
    DivIs(a * c, c, a);
    DivIs(b * c, c, b);
  }

  lemma ColdArithmetic(h: nat, c: nat, k: nat, afterHot: nat, afterCold: nat, some: nat, fewer: nat, each: nat)
    requires k < c && some * (c - k) == c * fewer
    requires (h > 0 ==> afterHot * some == each) && afterCold * fewer == each
    ensures (h * afterHot + (c - k) * afterCold) * some == (h + c) * each
  {
    assert h * afterHot * some == h * (afterHot * some);
    assert h * afterHot * some == h * each;
    assert (c - k) * afterCold * some == afterCold * (some * (c - k));
    assert afterCold * (c * fewer) == c * (afterCold * fewer);
  }

  /** All choices of k cold items come first equally often: each from n! / C(c, k) of the n! index lists, c being the cold items. */
  lemma {:induction false} ColdChoices<T(!new)>(items: seq<T>, k: nat, hot: set<T>, chosen: set<T>)
    requires Distinct(items) && hot !! chosen && |chosen| == k && forall x <- chosen :: x in items
    ensures k <= Count(items, Outside(hot))
    ensures Count(AllIndices(|items|), ColdYields(items, k, hot, chosen)) * Choose(Count(items, Outside(hot)), k) == Factorial(|items|)
    decreases |items|
  {
    hide *;
    ChosenCount(items, hot, chosen);
    var n, c := |items|, Count(items, Outside(hot));
    if k == c {
      AllColdChosen(items, k, hot, chosen);
      ChooseAll(c);
    } else {
      forall j: nat | j < n && items[j] !in chosen
        ensures Continues(items, k, hot, chosen, j) * Choose(if items[j] in hot then c else c - 1, k) == Factorial(n - 1)
      {
        ChosenRemain(items, j, chosen);
        RestCount(items, j, Outside(hot));
        OutsideIs(hot, items[j]);
        ColdChoices(Rest(items, j), k, hot, chosen);
        ContinuesIs(items, k, hot, chosen, j);
      }
      var afterHot, afterCold := ColdWays(items, k, hot, chosen, c);
      ColdExtensions(items, k, hot, chosen, n, afterHot, afterCold);
      assert items[..n] == items;
      AllIndicesUnfold(n);
      Absorption(c, k);
      ColdArithmetic(Count(items, In(hot)), c, k, afterHot, afterCold, Choose(c, k), Choose(c - 1, k), Factorial(n - 1));
      FactorialUnfold(n);
    }
  }

  lemma OutsideIs<T>(hot: set<T>, x: T)
    ensures Outside(hot)(x) == (x !in hot) && In(hot)(x) == (x in hot)
  {
  }

  lemma FactorialUnfold(n: nat)
    requires n > 0
    ensures Factorial(n) == n * Factorial(n - 1)
  {
  }

  lemma ColdWays<T(!new)>(items: seq<T>, k: nat, hot: set<T>, chosen: set<T>, c: nat) returns (afterHot: nat, afterCold: nat)
    requires items != [] && k < c == Count(items, Outside(hot)) && Count(items, Outside(hot + chosen)) > 0 && hot !! chosen
    requires forall j: nat | j < |items| && items[j] !in chosen ::
      Continues(items, k, hot, chosen, j) * Choose(if items[j] in hot then c else c - 1, k) == Factorial(|items| - 1)
    ensures Evenly(items, k, hot, chosen, afterHot, afterCold)
    ensures Count(items, In(hot)) > 0 ==> afterHot * Choose(c, k) == Factorial(|items| - 1)
    ensures afterCold * Choose(c - 1, k) == Factorial(|items| - 1)
  {
    hide Continues;
    hide Choose;
    hide Factorial;
    afterHot := 0;
    if Count(items, In(hot)) > 0 {
      var j := SomeCounted(items, In(hot));
      afterHot := Continues(items, k, hot, chosen, j);
    }
    var i := SomeCounted(items, Outside(hot + chosen));
    afterCold := Continues(items, k, hot, chosen, i);
    forall j: nat | j < |items| && items[j] !in chosen
      ensures Continues(items, k, hot, chosen, j) == if items[j] in hot then afterHot else afterCold
    {
      if items[j] in hot {
        HotIsCounted(items, hot, j);
        SameFactor(Continues(items, k, hot, chosen, j), afterHot, Choose(c, k));
      } else {
        SameFactor(Continues(items, k, hot, chosen, j), afterCold, Choose(c - 1, k));
      }
    }
    hide Count;
  }

  lemma HotIsCounted<T>(items: seq<T>, hot: set<T>, j: nat)
    requires j < |items| && items[j] in hot
    ensures Count(items, In(hot)) > 0
  {
    CountZero(items, In(hot));
    assert items[j] in items && In(hot)(items[j]);
  }

  /** The tiles that a forced loss mines first, in order. */
  const FIRST_MINED: seq<nat> := [12, 0, 4, 20, 24, 6, 8, 16, 18]

  /** The number of mines asked for, kept between 1 and 24. */
  function MinesLaid(mineCount: int): (m: nat)
    ensures 1 <= m <= 24
  {
    if mineCount < 1 then 1 else if mineCount > 24 then 24 else mineCount
  }

  /** The ones among them that a forced loss with this many mines always mines. */
  function AlwaysMined(mines: nat): set<nat> {
    set i | 0 <= i < 9 && i < mines :: FIRST_MINED[i]
  }

  function FewerThanTen(mines: nat): nat {
    if mines < 9 then mines else 9
  }

  /** The board of a forced loss: the hot spots that come first, and the first of the other tiles in the shuffle. */
  lemma ForcedLossIs(mineCount: int, stream: Stream)
    ensures var m, js := MinesLaid(mineCount), Indices(stream, 0, MINES_TILE_COUNT);
            var hot := AlwaysMined(m);
            BuildMinesGrid(mineCount, stream, Decided(false)) == hot + ColdFirst(Positions(MINES_TILE_COUNT), m - FewerThanTen(m), hot, js)
  {
    var m, js := MinesLaid(mineCount), Indices(stream, 0, MINES_TILE_COUNT);
    var first := HOT_SPOTS[..Least(m, |HOT_SPOTS|)];
    assert AsSet(first) == AlwaysMined(m) by {
      forall t
        ensures t in AsSet(first) <==> t in AlwaysMined(m)
      {
        if t in first {
          var i :| 0 <= i < |first| && first[i] == t;
          assert FIRST_MINED[i] == t;
        }
      }
    }
    var cold := Filter(Shuffled(Positions(MINES_TILE_COUNT), js), Outside(AlwaysMined(m)));
    assert AsSet(first + cold[..Least(m - |first|, |cold|)]) == AsSet(first) + Members(cold[..Least(m - |first|, |cold|)]);
    hide Shuffled;
    hide Filter;
    hide Indices;
  }

  lemma AlwaysMinedSize(m: nat)
    ensures |AlwaysMined(m)| == FewerThanTen(m) && forall t <- AlwaysMined(m) :: t < MINES_TILE_COUNT
  {
    var first := FIRST_MINED[..FewerThanTen(m)];
    assert FIRST_MINED == HOT_SPOTS;
    HotSpotsAreTiles(FewerThanTen(m));
    DistinctMembers(first);
    forall t
      ensures t in AlwaysMined(m) <==> t in Members(first)
    {
      if t in AlwaysMined(m) {
        var i :| 0 <= i < 9 && i < m && FIRST_MINED[i] == t;
        assert first[i] == t;
      }
    }
    assert AlwaysMined(m) == Members(first);
  }

  lemma DistinctMembers<T(!new)>(xs: seq<T>)
    requires Distinct(xs)
    ensures |Members(xs)| == |xs|
  {
    DistinctSize(xs);
  }

  lemma ColdFirstIsCold<T(!new)>(items: seq<T>, k: nat, hot: set<T>, js: seq<nat>)
    requires |js| == |items| && IsIndices(js)
    ensures ColdFirst(items, k, hot, js) !! hot
    ensures k == 0 ==> ColdFirst(items, k, hot, js) == {}
  {
    hide Shuffled;
    var cold := Filter(Shuffled(items, js), Outside(hot));
    forall x <- ColdFirst(items, k, hot, js)
      ensures x !in hot
    {
      assert x in cold && Outside(hot)(x);
    }
  }

  /**
   * On a forced loss the first of the nine hot spots, as many as there are mines, are mined whatever is drawn; with up to nine
   * mines there is no other mine, so the board does not depend on the draws at all.
   */
  lemma ForcedLossMinesHotSpots(mineCount: int, stream: Stream)
    ensures var m, grid := MinesLaid(mineCount), BuildMinesGrid(mineCount, stream, Decided(false));
            && (forall i :: 0 <= i < 9 && i < m ==> FIRST_MINED[i] in grid)
            && (m <= 9 ==> grid == AlwaysMined(m))
  {
    var m, js := MinesLaid(mineCount), Indices(stream, 0, MINES_TILE_COUNT);
    ForcedLossIs(mineCount, stream);
    ColdFirstIsCold(Positions(MINES_TILE_COUNT), m - FewerThanTen(m), AlwaysMined(m), js);
    hide BuildMinesGrid;
    hide ColdFirst;
    hide Indices;
  }

  /** Whether these draws lay this board on a forced loss. */
  function LaysForced(mineCount: int, grid: set<nat>): seq<nat> -> bool {
    js => BuildMinesGrid(mineCount, StreamFor(js, 0), Decided(false)) == grid
  }

  lemma LaysForcedMeans(mineCount: int, grid: set<nat>, js: seq<nat>)
    ensures LaysForced(mineCount, grid)(js) == (BuildMinesGrid(mineCount, StreamFor(js, 0), Decided(false)) == grid)
  {
    hide BuildMinesGrid;
    hide StreamFor;
  }

  lemma ListedIndices(js: seq<nat>)
    requires js in AllIndices(MINES_TILE_COUNT)
    ensures |js| == MINES_TILE_COUNT && IsIndices(js) && Indices(StreamFor(js, 0), 0, MINES_TILE_COUNT) == js
  {
    AllIndicesIsComplete(MINES_TILE_COUNT, js);
    assert MINES_TILE_COUNT <= DRAWS;
    StreamDrawsIndices(js, 0);
    hide AllIndices;
    hide StreamFor;
    hide Indices;
  }

  lemma SameBesides(hot: set<nat>, x: set<nat>, y: set<nat>)
    requires x !! hot && y !! hot
    ensures hot + x == hot + y <==> x == y
  {
    assert hot + x - hot == x && hot + y - hot == y;
  }

  lemma LaysForcedIs(mineCount: int, chosen: set<nat>, js: seq<nat>)
    requires js in AllIndices(MINES_TILE_COUNT) && chosen !! AlwaysMined(MinesLaid(mineCount))
    ensures var m := MinesLaid(mineCount);
            m >= FewerThanTen(m)
            && LaysForced(mineCount, AlwaysMined(m) + chosen)(js)
               == ColdYields(Positions(MINES_TILE_COUNT), m - FewerThanTen(m), AlwaysMined(m), chosen)(js)
  {
    hide *;
    var m, tiles := MinesLaid(mineCount), Positions(MINES_TILE_COUNT);
    ClampIsCount(mineCount);
    var k: nat := m - FewerThanTen(m);
    ListedIndices(js);
    LaysForcedMeans(mineCount, AlwaysMined(m) + chosen, js);
    ForcedLossIs(mineCount, StreamFor(js, 0));
    ColdFirstIsCold(tiles, k, AlwaysMined(m), js);
    ColdYieldsUnfold(tiles, k, AlwaysMined(m), chosen, js);
    SameBesides(AlwaysMined(m), ColdFirst(tiles, k, AlwaysMined(m), js), chosen);
  }

  /**
   * The mines beyond those are spread evenly: every set of as many of the other tiles comes from the same number of index lists,
   * n! over the number of such sets.
   */
  lemma ForcedLossSpreadsRest(mineCount: int, chosen: set<nat>)
    requires var m := MinesLaid(mineCount);
             chosen !! AlwaysMined(m) && |chosen| == m - FewerThanTen(m) && forall t <- chosen :: t < MINES_TILE_COUNT
    ensures var m := MinesLaid(mineCount);
            Count(AllIndices(MINES_TILE_COUNT), LaysForced(mineCount, AlwaysMined(m) + chosen))
            * Choose(MINES_TILE_COUNT - FewerThanTen(m), m - FewerThanTen(m)) == Factorial(MINES_TILE_COUNT)
  {
    hide *;
    var m, tiles := MinesLaid(mineCount), Positions(MINES_TILE_COUNT);
    ClampIsCount(mineCount);
    forall js <- AllIndices(MINES_TILE_COUNT)
      ensures LaysForced(mineCount, AlwaysMined(m) + chosen)(js) == ColdYields(tiles, m - FewerThanTen(m), AlwaysMined(m), chosen)(js)
    {
      LaysForcedIs(mineCount, chosen, js);
    }
    CountSame(AllIndices(MINES_TILE_COUNT), LaysForced(mineCount, AlwaysMined(m) + chosen),
              ColdYields(tiles, m - FewerThanTen(m), AlwaysMined(m), chosen));
    TilesInPositions(chosen);
    AlwaysMinedSize(m);
    TilesInPositions(AlwaysMined(m));
    CountOutside(tiles, AlwaysMined(m));
    ColdChoices(tiles, m - FewerThanTen(m), AlwaysMined(m), chosen);
  }

  lemma ClampIsCount(mineCount: int)
    ensures 1 <= MinesLaid(mineCount) <= 24 && MINES_TILE_COUNT == 25
    ensures FewerThanTen(MinesLaid(mineCount)) <= MinesLaid(mineCount) && FewerThanTen(MinesLaid(mineCount)) <= 9
  {
  }

  lemma TilesInPositions(tiles: set<nat>)
    requires forall t <- tiles :: t < MINES_TILE_COUNT
    ensures Distinct(Positions(MINES_TILE_COUNT)) && forall t <- tiles :: t in Positions(MINES_TILE_COUNT)
  {
    forall t <- tiles
      ensures t in Positions(MINES_TILE_COUNT)
    {
      assert Positions(MINES_TILE_COUNT)[t] == t;
    }
  }

  lemma {:induction false} SubsetOfSize(tiles: set<nat>, k: nat) returns (some: set<nat>)
    requires k <= |tiles|
    ensures some <= tiles && |some| == k
  {
    if k == |tiles| {
      some := tiles;
    } else {
      var t :| t in tiles;
      some := SubsetOfSize(tiles - {t}, k);
    }
  }

  /** A forced loss is certain against a pick, whatever is drawn, exactly if it is one of the hot spots mined first. */
  lemma ForcedLossHitsExactly(mineCount: int, tile: nat)
    requires tile < MINES_TILE_COUNT
    ensures (forall stream :: tile in BuildMinesGrid(mineCount, stream, Decided(false)))
       <==> tile in AlwaysMined(MinesLaid(mineCount))
  {
    hide *;
    var m := MinesLaid(mineCount);
    if tile in AlwaysMined(m) {
      forall stream
        ensures tile in BuildMinesGrid(mineCount, stream, Decided(false))
      {
        ForcedLossIs(mineCount, stream);
      }
    } else {
      var stream := ForcedLossMisses(mineCount, tile);
    }
  }

  lemma ForcedLossMisses(mineCount: int, tile: nat) returns (stream: Stream)
    requires tile < MINES_TILE_COUNT && tile !in AlwaysMined(MinesLaid(mineCount))
    ensures tile !in BuildMinesGrid(mineCount, stream, Decided(false))
  {
    hide *;
    var m := MinesLaid(mineCount);
    ClampIsCount(mineCount);
    var k: nat := m - FewerThanTen(m);
    var chosen := ColdTilesBut(m, tile, k);
    ForcedLossSpreadsRest(mineCount, chosen);
    FactorialIsPositive(MINES_TILE_COUNT);
    CountZero(AllIndices(MINES_TILE_COUNT), LaysForced(mineCount, AlwaysMined(m) + chosen));
    var js :| js in AllIndices(MINES_TILE_COUNT) && LaysForced(mineCount, AlwaysMined(m) + chosen)(js);
    stream := StreamFor(js, 0);
    LaysForcedMeans(mineCount, AlwaysMined(m) + chosen, js);
  }

  lemma ColdTilesBut(m: nat, tile: nat, k: nat) returns (chosen: set<nat>)
    requires tile < MINES_TILE_COUNT && tile !in AlwaysMined(m) && m <= 24 && k == m - FewerThanTen(m)
    ensures chosen !! AlwaysMined(m) && |chosen| == k && tile !in chosen && forall t <- chosen :: t < MINES_TILE_COUNT
  {
    AlwaysMinedSize(m);
    IntervalSize(0, MINES_TILE_COUNT);
    var tiles := Interval(0, MINES_TILE_COUNT);
    assert MINES_TILE_COUNT == 25;
    hide AlwaysMined;
    OthersSize(tiles, AlwaysMined(m), tile);
    chosen := SubsetOfSize(tiles - AlwaysMined(m) - {tile}, k);
  }

  lemma FactorialIsPositive(n: nat)
    ensures Factorial(n) > 0
  {
  }

  lemma OthersSize(tiles: set<nat>, hot: set<nat>, tile: nat)
    requires hot <= tiles && tile in tiles && tile !in hot
    ensures |tiles - hot - {tile}| == |tiles| - |hot| - 1
  {
  }
}
