/** The odds of an honest Keno draw: every ten spots are equally likely, and what each number of picks returns follows. */
module KenoOdds {
  import opened Arithmetic
  import opened Boards
  import opened Layouts
  import opened MinesGrid
  import opened Rng
  import opened Shuffle
  import opened Streams
  import opened Sums
  import opened TableGames

  /** The round that these indices deal. */
  function Dealt(picks: seq<nat>, cap: int, js: seq<nat>): KenoResult {
    ResolveKeno(picks, StreamFor(js, 0), Honest, cap)
  }

  function DealtSpots(picks: seq<nat>, cap: int, js: seq<nat>): set<nat> {
    AsSet(Dealt(picks, cap, js).drawn)
  }

  /** Whether they bring up exactly these spots. */
  function BringsUp(picks: seq<nat>, cap: int, chosen: set<nat>): seq<nat> -> bool {
    js => DealtSpots(picks, cap, js) == chosen
  }

  lemma DrawnFirst(picks: seq<nat>, cap: int, js: seq<nat>)
    requires js in AllIndices(KENO_SPOT_COUNT)
    ensures |js| == KENO_SPOT_COUNT && IsIndices(js)
    ensures Dealt(picks, cap, js).drawn == Shuffled(Spots(), js)[..KENO_DRAW_COUNT]
  {
    AllIndicesIsComplete(KENO_SPOT_COUNT, js);
    assert KENO_SPOT_COUNT == 50 <= DRAWS;
    StreamDrawsIndices(js, 0);
    KenoResultIs(picks, StreamFor(js, 0), Honest, cap);
    hide ResolveKeno;
    hide AllIndices;
    hide Indices;
    hide StreamFor;
  }

  lemma BringsUpMeans(picks: seq<nat>, cap: int, chosen: set<nat>, js: seq<nat>)
    ensures BringsUp(picks, cap, chosen)(js) == (DealtSpots(picks, cap, js) == chosen)
  {
    hide DealtSpots;
  }

  lemma DealtSpotsAre(picks: seq<nat>, cap: int, js: seq<nat>)
    ensures DealtSpots(picks, cap, js) == AsSet(Dealt(picks, cap, js).drawn)
  {
    hide Dealt;
    hide AsSet;
  }

  lemma FirstOfIs(items: seq<nat>, m: nat, js: seq<nat>)
    requires |js| == |items| && IsIndices(js) && m <= |items|
    ensures FirstOf(items, m, js) == AsSet(Shuffled(items, js)[..m])
  {
    hide Shuffled;
  }

  lemma BringsUpIsYield(picks: seq<nat>, cap: int, chosen: set<nat>, js: seq<nat>)
    requires js in AllIndices(KENO_SPOT_COUNT)
    ensures BringsUp(picks, cap, chosen)(js) == Yields(Spots(), KENO_DRAW_COUNT, chosen)(js)
  {
    KenoNumbers();
    hide *;
    DrawnFirst(picks, cap, js);
    BringsUpMeans(picks, cap, chosen, js);
    DealtSpotsAre(picks, cap, js);
    YieldsUnfold(Spots(), KENO_DRAW_COUNT, chosen, js);
    FirstOfIs(Spots(), KENO_DRAW_COUNT, js);
  }

  /** Every ten different spots come up on the same number of index lists. */
  lemma TenSpotsAreEquallyLikely(picks: seq<nat>, cap: int, chosen: set<nat>)
    requires |chosen| == KENO_DRAW_COUNT && forall spot <- chosen :: 1 <= spot <= KENO_SPOT_COUNT
    ensures Count(AllIndices(KENO_SPOT_COUNT), BringsUp(picks, cap, chosen))
         == Factorial(KENO_DRAW_COUNT) * Factorial(KENO_SPOT_COUNT - KENO_DRAW_COUNT)
  {
    KenoNumbers();
    hide *;
    SpotsAreDistinct(picks);
    ChosenAreSpots(chosen);
    forall js <- AllIndices(KENO_SPOT_COUNT)
      ensures BringsUp(picks, cap, chosen)(js) == Yields(Spots(), KENO_DRAW_COUNT, chosen)(js)
    {
      BringsUpIsYield(picks, cap, chosen, js);
    }
    CountSame(AllIndices(KENO_SPOT_COUNT), BringsUp(picks, cap, chosen), Yields(Spots(), KENO_DRAW_COUNT, chosen));
    IndicesPerChoice(Spots(), KENO_DRAW_COUNT, chosen);
  }

  lemma ChosenAreSpots(chosen: set<nat>)
    requires forall spot <- chosen :: 1 <= spot <= KENO_SPOT_COUNT
    ensures forall spot <- chosen :: spot in Spots()
  {
    forall spot <- chosen
      ensures spot in Spots()
    {
      assert Spots()[spot - 1] == spot;
    }
  }

  lemma KenoNumbers()
    ensures KENO_SPOT_COUNT == 50 && KENO_DRAW_COUNT == 10
  {
  }

  /** How many of the picks are among these spots. */
  function HitCount(picks: seq<nat>, drawn: seq<nat>): nat {
    |HitSet(picks, drawn)|
  }

  function HitSet(picks: seq<nat>, drawn: seq<nat>): set<nat> {
    set spot <- picks | spot in drawn
  }

  lemma {:induction false} HitsAreCounted(picks: seq<nat>, drawn: seq<nat>)
    requires Distinct(picks)
    ensures |Hits(picks, drawn)| == HitCount(picks, drawn)
  {
    var p := (spot: nat) => IsOneOf(drawn, spot);
    CountIsSize(picks, p);
    assert (set spot <- picks | p(spot)) == HitSet(picks, drawn);
  }

  lemma {:induction false} CountIsSize(xs: seq<nat>, p: nat -> bool)
    requires Distinct(xs)
    ensures Count(xs, p) == |set x <- xs | p(x)|
  {
    if xs == [] {
      assert (set x <- xs | p(x)) == {};
    } else {
      CountIsSize(xs[1..], p);
      var rest, all := set x <- xs[1..] | p(x), set x <- xs | p(x);
      assert xs[0] !in rest;
      assert all == if p(xs[0]) then rest + {xs[0]} else rest;
    }
  }

  /** Honest or decided, the pay is the table's entry for the hits, up to the cap. */
  lemma PaysItsHits(picks: seq<nat>, stream: Stream, forced: Forced, cap: int)
    requires ValidPicks(picks)
    ensures var r := ResolveKeno(picks, stream, forced, cap);
            var entry := KenoPayout(|picks|, HitCount(picks, r.drawn));
            r.multiplier == if cap < entry then cap else entry
  {
    HitsAreCounted(picks, KenoDrawn(picks, stream, forced));
    hide KenoDrawn;
    hide KenoPayout;
    hide Hits;
    hide HitCount;
  }

  /** The same spots as tiles numbered from 0. */
  function AsTiles(picks: seq<nat>): set<nat> {
    Lowered(AsSet(picks))
  }

  function Lowered(spots: set<nat>): set<nat> {
    set spot <- spots | spot > 0 :: spot - 1
  }

  lemma LoweredHas(spots: set<nat>, tile: nat)
    ensures tile in Lowered(spots) <==> tile + 1 in spots
  {
    if tile + 1 in spots {
      assert tile == (tile + 1) - 1;
    }
  }

  /** A layout that holds h of the tiles. */
  function Meets(tiles: set<nat>, h: int): set<nat> -> bool {
    layout => |layout * tiles| == h
  }

  function Ways(n: int, k: int): nat {
    if n < 0 || k < 0 then 0 else Choose(n, k)
  }

  lemma PascalWays(n: nat, k: int)
    requires n > 0
    ensures Ways(n, k) == Ways(n - 1, k) + Ways(n - 1, k - 1)
  {
    if k == 0 {
      ChooseNone(n);
      ChooseNone(n - 1);
    }
  }

  lemma WithMeets(layout: set<nat>, tiles: set<nat>, n: nat, h: int)
    requires forall t <- layout :: t < n
    ensures Meets(tiles, h)(With(n)(layout)) == if n in tiles then Meets(tiles - {n}, h - 1)(layout) else Meets(tiles, h)(layout)
  {
    var all := With(n)(layout);
    if n in tiles {
      assert all * tiles == layout * (tiles - {n}) + {n};
      assert n !in layout * (tiles - {n});
    } else {
      assert all * tiles == layout * tiles;
    }
  }

  lemma WithoutMeets(layout: set<nat>, tiles: set<nat>, n: nat, h: int)
    requires forall t <- layout :: t < n
    ensures Meets(tiles, h)(layout) == Meets(tiles - {n}, h)(layout)
  {
    assert layout * tiles == layout * (tiles - {n});
  }

  lemma LayoutsBelow(n: nat, m: nat, layout: set<nat>)
    requires layout in AllLayouts(n, m)
    ensures forall t <- layout :: t < n
  {
    AllLayoutsIsComplete(n, m, layout);
    hide AllLayouts;
  }

  lemma CountWithout(n: nat, m: nat, tiles: set<nat>, h: int)
    ensures Count(AllLayouts(n, m), Meets(tiles, h)) == Count(AllLayouts(n, m), Meets(tiles - {n}, h))
  {
    forall layout <- AllLayouts(n, m)
      ensures Meets(tiles, h)(layout) == Meets(tiles - {n}, h)(layout)
    {
      LayoutsBelow(n, m, layout);
      WithoutMeets(layout, tiles, n, h);
    }
    hide AllLayouts;
    hide Meets;
    CountSame(AllLayouts(n, m), Meets(tiles, h), Meets(tiles - {n}, h));
  }

  lemma CountWith(n: nat, m: nat, tiles: set<nat>, h: int)
    ensures Count(Map(AllLayouts(n, m), With(n)), Meets(tiles, h))
         == Count(AllLayouts(n, m), if n in tiles then Meets(tiles - {n}, h - 1) else Meets(tiles, h))
  {
    var q := if n in tiles then Meets(tiles - {n}, h - 1) else Meets(tiles, h);
    forall layout <- AllLayouts(n, m)
      ensures q(layout) == Meets(tiles, h)(With(n)(layout))
    {
      LayoutsBelow(n, m, layout);
      WithMeets(layout, tiles, n, h);
    }
    hide AllLayouts;
    hide Meets;
    hide With;
    CountMap(AllLayouts(n, m), With(n), Meets(tiles, h), q);
  }

  lemma LayoutsUnfold(n: nat, m: nat)
    requires n > 0 && m > 0
    ensures AllLayouts(n, m) == AllLayouts(n - 1, m) + Map(AllLayouts(n - 1, m - 1), With(n - 1))
  {
  }

  /** Of the layouts of m tiles, C(p, h) C(n - p, m - h) hold h of p given ones. */
  lemma {:induction false} LayoutsMeeting(n: nat, m: nat, tiles: set<nat>, h: int)
    requires forall t <- tiles :: t < n
    ensures |tiles| <= n
    ensures Count(AllLayouts(n, m), Meets(tiles, h)) == Ways(|tiles|, h) * Ways(n - |tiles|, m - h)
    decreases n, m
  {
    hide *;
    if n == 0 || m == 0 {
      FewLayouts(n, m, tiles, h);
    } else {
      var fewer := tiles - {n - 1};
      var p := |fewer|;
      FewerTiles(tiles, n - 1);
      LayoutsUnfold(n, m);
      CountConcat(AllLayouts(n - 1, m), Map(AllLayouts(n - 1, m - 1), With(n - 1)), Meets(tiles, h));
      CountWithout(n - 1, m, tiles, h);
      CountWith(n - 1, m - 1, tiles, h);
      LayoutsMeeting(n - 1, m, fewer, h);
      LayoutsMeeting(n - 1, m - 1, fewer, if n - 1 in tiles then h - 1 else h);
      if n - 1 in tiles {
        PascalWays(p + 1, h);
        FirstSplit(Ways(p, h), Ways(p, h - 1), Ways(n - 1 - p, m - h));
      } else {
        PascalWays(n - p, m - h);
        SecondSplit(Ways(p, h), Ways(n - 1 - p, m - h), Ways(n - 1 - p, m - h - 1));
      }
    }
  }

  lemma FirstSplit(a: nat, b: nat, c: nat)
    ensures (a + b) * c == a * c + b * c
  {
  }

  lemma SecondSplit(a: nat, b: nat, c: nat)
    ensures a * (b + c) == a * b + a * c
  {
  }

  lemma FewerTiles(tiles: set<nat>, n: nat)
    requires forall t <- tiles :: t < n + 1
    ensures forall t <- tiles - {n} :: t < n
    ensures |tiles| == |tiles - {n}| + if n in tiles then 1 else 0
    ensures n !in tiles ==> tiles - {n} == tiles
  {
    if n in tiles {
      assert tiles == (tiles - {n}) + {n};
    } else {
      assert tiles - {n} == tiles;
    }
  }

  lemma FewLayouts(n: nat, m: nat, tiles: set<nat>, h: int)
    requires (n == 0 || m == 0) && forall t <- tiles :: t < n
    ensures |tiles| <= n
    ensures Count(AllLayouts(n, m), Meets(tiles, h)) == Ways(|tiles|, h) * Ways(n - |tiles|, m - h)
  {
    WithinIsSmall(tiles, n);
    ChooseNone(|tiles|);
    ChooseNone(n - |tiles|);
    var none: set<nat> := {};
    if m == 0 {
      assert AllLayouts(n, m) == [none];
      assert none * tiles == none;
      assert [none][1..] == [];
      assert Count([none], Meets(tiles, h)) == if h == 0 then 1 else 0;
    } else {
      assert AllLayouts(n, m) == [];
      assert tiles == none;
    }
  }

  lemma {:induction false} ShuffledMap<S, T>(items: seq<S>, h: S -> T, js: seq<nat>)
    requires |js| == |items| && IsIndices(js)
    ensures Shuffled(Map(items, h), js) == Map(Shuffled(items, js), h)
    decreases |items|
  {
    if items != [] {
      var j := js[|items| - 1];
      assert Rest(Map(items, h), j) == Map(Rest(items, j), h);
      ShuffledMap(Rest(items, j), h, js[..|items| - 1]);
      ShuffledUnfold(items, js);
      ShuffledUnfold(Map(items, h), js);
      hide Rest;
      hide Shuffled;
    }
  }

  function Next(): nat -> nat {
    tile => tile + 1
  }

  lemma SpotsAreTiles()
    ensures Spots() == Map(Positions(KENO_SPOT_COUNT), Next())
  {
  }

  /** The spots dealt are the first tiles of the shuffle of a board of that size, numbered from 1. */
  lemma DealtAreTiles(picks: seq<nat>, cap: int, js: seq<nat>)
    requires js in AllIndices(KENO_SPOT_COUNT)
    ensures KENO_DRAW_COUNT <= KENO_SPOT_COUNT
    ensures forall spot: nat :: spot in Dealt(picks, cap, js).drawn
              <==> spot > 0 && spot - 1 in Placement(KENO_SPOT_COUNT, KENO_DRAW_COUNT)(js)
  {
    KenoNumbers();
    hide *;
    DrawnFirst(picks, cap, js);
    SpotsAreTiles();
    ShuffledMap(Positions(KENO_SPOT_COUNT), Next(), js);
    FirstShifted(Shuffled(Positions(KENO_SPOT_COUNT), js), KENO_DRAW_COUNT, Dealt(picks, cap, js).drawn);
    PlacementHas(KENO_SPOT_COUNT, KENO_DRAW_COUNT, js);
  }

  lemma FirstShifted(shuffled: seq<nat>, k: nat, drawn: seq<nat>)
    requires k <= |shuffled| && drawn == Map(shuffled, Next())[..k]
    ensures forall spot: nat :: spot in drawn <==> spot > 0 && spot - 1 in shuffled[..k]
  {
    ShiftedMembers(shuffled[..k], drawn);
  }

  lemma PlacementHas(n: nat, m: nat, js: seq<nat>)
    requires m <= n == |js| && IsIndices(js)
    ensures forall t :: t in Placement(n, m)(js) <==> t in Shuffled(Positions(n), js)[..m]
  {
    hide Shuffled;
    hide Positions;
  }

  lemma ShiftedMembers(first: seq<nat>, drawn: seq<nat>)
    requires |drawn| == |first| && forall i :: 0 <= i < |first| ==> drawn[i] == first[i] + 1
    ensures forall spot: nat :: spot in drawn <==> spot > 0 && spot - 1 in first
  {
    forall spot: nat
      ensures spot in drawn <==> spot > 0 && spot - 1 in first
    {
      if spot in drawn {
        var i :| 0 <= i < |drawn| && drawn[i] == spot;
        assert first[i] == spot - 1;
      }
      if spot > 0 && spot - 1 in first {
        var i :| 0 <= i < |first| && first[i] == spot - 1;
        assert drawn[i] == spot;
      }
    }
  }

  lemma {:induction false} LoweredSize(spots: set<nat>)
    requires 0 !in spots
    ensures |Lowered(spots)| == |spots|
  {
    if spots != {} {
      var x :| x in spots;
      var rest := spots - {x};
      LoweredSize(rest);
      forall t: nat
        ensures t in Lowered(spots) <==> t in Lowered(rest) + {x - 1}
      {
        LoweredHas(spots, t);
        LoweredHas(rest, t);
      }
      LoweredHas(rest, x - 1);
      hide Lowered;
      assert Lowered(spots) == Lowered(rest) + {x - 1};
    } else {
      assert Lowered(spots) == {};
    }
  }

  lemma HitsOnTiles(picks: seq<nat>, drawn: seq<nat>, layout: set<nat>)
    requires ValidPicks(picks) && forall spot: nat :: spot in drawn <==> spot > 0 && spot - 1 in layout
    ensures HitCount(picks, drawn) == |layout * AsTiles(picks)|
  {
    var hits := HitSet(picks, drawn);
    LoweredSize(hits);
    forall t: nat
      ensures t in Lowered(hits) <==> t in layout * AsTiles(picks)
    {
      LoweredHas(hits, t);
      LoweredHas(AsSet(picks), t);
    }
    hide HitSet;
    hide Lowered;
    assert Lowered(hits) == layout * AsTiles(picks);
  }

  lemma TilesOfPicks(picks: seq<nat>)
    requires ValidPicks(picks)
    ensures |AsTiles(picks)| == |picks| && forall t <- AsTiles(picks) :: t < KENO_SPOT_COUNT
  {
    assert Distinct(picks);
    DistinctSize(picks);
    assert AsSet(picks) == set spot <- picks;
    assert 0 !in AsSet(picks);
    LoweredSize(AsSet(picks));
    forall t <- AsTiles(picks)
      ensures t < KENO_SPOT_COUNT
    {
      LoweredHas(AsSet(picks), t);
    }
  }

  /** What the round that these indices deal is paid. */
  function DealPays(picks: seq<nat>, cap: int): seq<nat> -> real {
    js => DealtPay(picks, cap, js) as real
  }

  function DealtPay(picks: seq<nat>, cap: int, js: seq<nat>): int {
    Dealt(picks, cap, js).multiplier
  }

  /** What ten spots are paid, by the picks among them. */
  function LayoutPays(picks: seq<nat>): set<nat> -> real {
    layout => KenoPayout(|picks|, |layout * AsTiles(picks)|) as real
  }

  lemma DealPaysLayout(picks: seq<nat>, cap: int, js: seq<nat>)
    requires ValidPicks(picks) && cap >= 100000 && js in AllIndices(KENO_SPOT_COUNT)
    ensures KENO_DRAW_COUNT <= KENO_SPOT_COUNT
    ensures DealPays(picks, cap)(js) == Over(Placement(KENO_SPOT_COUNT, KENO_DRAW_COUNT), LayoutPays(picks))(js)
  {
    KenoNumbers();
    hide *;
    DealtAreTiles(picks, cap, js);
    var layout := Placement(KENO_SPOT_COUNT, KENO_DRAW_COUNT)(js);
    HitsOnTiles(picks, Dealt(picks, cap, js).drawn, layout);
    DealtPays(picks, cap, js);
    DealPaysIs(picks, cap, js);
    LayoutPaysIs(picks, js, KENO_SPOT_COUNT, KENO_DRAW_COUNT);
  }

  lemma DealtPays(picks: seq<nat>, cap: int, js: seq<nat>)
    requires ValidPicks(picks) && cap >= 100000
    ensures DealtPay(picks, cap, js) == KenoPayout(|picks|, HitCount(picks, Dealt(picks, cap, js).drawn))
  {
    PaysItsHits(picks, StreamFor(js, 0), Honest, cap);
    PayoutBound(|picks|, HitCount(picks, Dealt(picks, cap, js).drawn));
    hide ResolveKeno;
    hide KenoPayout;
    hide HitCount;
    hide StreamFor;
  }

  lemma DealPaysIs(picks: seq<nat>, cap: int, js: seq<nat>)
    ensures DealPays(picks, cap)(js) == DealtPay(picks, cap, js) as real
  {
    hide DealtPay;
  }

  lemma LayoutPaysIs(picks: seq<nat>, js: seq<nat>, n: nat, m: nat)
    requires m <= n
    ensures Over(Placement(n, m), LayoutPays(picks))(js) == KenoPayout(|picks|, |Placement(n, m)(js) * AsTiles(picks)|) as real
  {
    hide KenoPayout;
    hide Placement;
    hide AsTiles;
  }

  lemma PayoutBound(picks: nat, hits: nat)
    ensures 0 <= KenoPayout(picks, hits) <= 100000
  {
  }

  function HitsOf(picks: seq<nat>): set<nat> -> int {
    layout => |layout * AsTiles(picks)|
  }

  function PayoutFor(picks: nat): int -> int {
    h => if h < 0 then 0 else KenoPayout(picks, h)
  }

  /** What the layouts with fewer than m hits are paid together. */
  function HitsTotal(picks: nat, m: nat): int {
    if m == 0 then 0 else HitsTotal(picks, m - 1) + Ways(picks, m - 1) * Ways(50 - picks, 11 - m) * PayoutFor(picks)(m - 1)
  }

  lemma {:induction false} GroupedIsHits(picks: seq<nat>, m: nat)
    requires ValidPicks(picks)
    ensures Grouped(AllLayouts(KENO_SPOT_COUNT, KENO_DRAW_COUNT), HitsOf(picks), m, PayoutFor(|picks|)) == HitsTotal(|picks|, m)
  {
    hide *;
    KenoNumbers();
    PickCount(picks);
    HitsTotalUnfold(|picks|, m);
    GroupedUnfold(AllLayouts(KENO_SPOT_COUNT, KENO_DRAW_COUNT), HitsOf(picks), m, PayoutFor(|picks|));
    if m > 0 {
      GroupedIsHits(picks, m - 1);
      CountHitting(picks, m - 1);
      SameTerm(Count(AllLayouts(KENO_SPOT_COUNT, KENO_DRAW_COUNT), Hitting(HitsOf(picks), m - 1)), Ways(|picks|, m - 1),
               Ways(50 - |picks|, 10 - (m - 1)), PayoutFor(|picks|)(m - 1));
    }
  }

  lemma CountHitting(picks: seq<nat>, h: int)
    requires ValidPicks(picks)
    ensures Count(AllLayouts(KENO_SPOT_COUNT, KENO_DRAW_COUNT), Hitting(HitsOf(picks), h)) == Ways(|picks|, h) * Ways(50 - |picks|, 10 - h)
  {
    hide *;
    KenoNumbers();
    TilesOfPicks(picks);
    LayoutsMeeting(KENO_SPOT_COUNT, KENO_DRAW_COUNT, AsTiles(picks), h);
    MeetsIsHitting(picks, h);
  }

  lemma SameTerm(c: nat, a: nat, b: nat, x: int)
    requires c == a * b
    ensures c * x == a * b * x
  {
  }

  lemma HitsTotalUnfold(picks: nat, m: nat)
    ensures HitsTotal(picks, 0) == 0
    ensures m > 0 ==> HitsTotal(picks, m) == HitsTotal(picks, m - 1) + Ways(picks, m - 1) * Ways(50 - picks, 10 - (m - 1)) * PayoutFor(picks)(m - 1)
  {
    hide PayoutFor;
    hide Ways;
  }

  lemma GroupedUnfold<T>(xs: seq<T>, h: T -> int, m: nat, g: int -> int)
    ensures Grouped(xs, h, 0, g) == 0
    ensures m > 0 ==> Grouped(xs, h, m, g) == Grouped(xs, h, m - 1, g) + Count(xs, Hitting(h, m - 1)) * g(m - 1)
  {
    hide Count;
    hide Hitting;
  }

  lemma MeetsIsHitting(picks: seq<nat>, h: int)
    ensures Count(AllLayouts(KENO_SPOT_COUNT, KENO_DRAW_COUNT), Hitting(HitsOf(picks), h))
         == Count(AllLayouts(KENO_SPOT_COUNT, KENO_DRAW_COUNT), Meets(AsTiles(picks), h))
  {
    hide AsTiles;
    hide AllLayouts;
    CountSame(AllLayouts(KENO_SPOT_COUNT, KENO_DRAW_COUNT), Hitting(HitsOf(picks), h), Meets(AsTiles(picks), h));
  }

  /** What all ten-spot draws together pay on this many picks, in hundredths of the stake. */
  function KenoTotal(picks: nat): int {
    match picks
    case 1 => 813564431064
    case 2 => 641493289800
    case 3 => 509421141900
    case 4 => 463256105400
    case 5 => 239348406000
    case 6 => 247140513400
    case 7 => 175765458400
    case 8 => 67067308000
    case 9 => 80568804800
    case 10 => 140241468000
    case _ => 0
  }

  lemma OneMoreHit(picks: nat, h: nat, own: seq<nat>, rest: seq<nat>)
    requires h <= 10 && IsRow(picks, own) && picks <= 10 && IsRow(50 - picks, rest)
    requires KenoPayout(picks, h) == 0 || (h < |own| && 10 - h < |rest|)
    ensures HitsTotal(picks, 0) == 0
    ensures HitsTotal(picks, h + 1)
         == HitsTotal(picks, h) + if KenoPayout(picks, h) == 0 then 0 else own[h] * rest[10 - h] * KenoPayout(picks, h)
  {
    if KenoPayout(picks, h) != 0 {
      RowIsChoose(picks, own, h);
      RowIsChoose(50 - picks, rest, 10 - h);
    }
    HitsTotalUnfold(picks, h + 1);
    hide Choose;
    hide KenoPayout;
    hide HitsTotal;
    hide IsRow;
  }

  lemma AllHits(picks: nat, own: seq<nat>, rest: seq<nat>)
    requires 1 <= picks <= 10 && IsRow(picks, own) && |own| == picks + 1 && IsRow(50 - picks, rest)
    requires forall h: nat :: h <= 10 && KenoPayout(picks, h) > 0 ==> h < |own| && 10 - h < |rest|
    ensures HitsTotal(picks, 11) == PaidHits(picks, own, rest, 11)
  {
    hide IsRow;
    PaidUpTo(picks, own, rest, 11);
  }

  /** The same sum, with the numbers of ways looked up in the rows. */
  function PaidHits(picks: nat, own: seq<nat>, rest: seq<nat>, m: nat): int {
    if m == 0 || m > 11 then 0
    else
      PaidHits(picks, own, rest, m - 1)
      + if KenoPayout(picks, m - 1) == 0 || m > |own| || 11 - m >= |rest| then 0 else own[m - 1] * rest[11 - m] * KenoPayout(picks, m - 1)
  }

  lemma {:induction false} PaidUpTo(picks: nat, own: seq<nat>, rest: seq<nat>, m: nat)
    requires m <= 11 && 1 <= picks <= 10 && IsRow(picks, own) && |own| == picks + 1 && IsRow(50 - picks, rest)
    requires forall h: nat :: h <= 10 && KenoPayout(picks, h) > 0 ==> h < |own| && 10 - h < |rest|
    ensures HitsTotal(picks, m) == PaidHits(picks, own, rest, m)
  {
    if m == 0 {
      HitsTotalUnfold(picks, 0);
    } else {
      PaidUpTo(picks, own, rest, m - 1);
      PayoutBound(picks, m - 1);
      OneMoreHit(picks, m - 1, own, rest);
    }
    hide KenoPayout;
    hide HitsTotal;
    hide IsRow;
  }

  lemma OnePicked(picks: nat, m: nat)
    requires picks == 1 && m == 11
    ensures HitsTotal(picks, m) == 813564431064
  {
    hide HitsTotal;
    hide Ways;
    hide Choose;
    var own: seq<nat> := [1, 1];
    var rest: seq<nat> := [1, 49, 1176, 18424, 211876, 1906884, 13983816, 85900584, 450978066, 2054455634];
    AllHits(picks, own, rest);
    hide IsRow;
    assert PaidHits(picks, own, rest, 1) == 0;
    assert PaidHits(picks, own, rest, 2) == 813564431064;
    assert PaidHits(picks, own, rest, 4) == 813564431064;
    assert PaidHits(picks, own, rest, 6) == 813564431064;
    assert PaidHits(picks, own, rest, 8) == 813564431064;
    assert PaidHits(picks, own, rest, 10) == 813564431064;
  }

  lemma TwoPicked(picks: nat, m: nat)
    requires picks == 2 && m == 11
    ensures HitsTotal(picks, m) == 641493289800
  {
    hide HitsTotal;
    hide Ways;
    hide Choose;
    var own: seq<nat> := [1, 2, 1];
    var rest: seq<nat> := [1, 48, 1128, 17296, 194580, 1712304, 12271512, 73629072, 377348994];
    AllHits(picks, own, rest);
    hide IsRow;
    assert PaidHits(picks, own, rest, 2) == 0;
    assert PaidHits(picks, own, rest, 3) == 641493289800;
    assert PaidHits(picks, own, rest, 5) == 641493289800;
    assert PaidHits(picks, own, rest, 7) == 641493289800;
    assert PaidHits(picks, own, rest, 9) == 641493289800;
  }

  lemma ThreePicked(picks: nat, m: nat)
    requires picks == 3 && m == 11
    ensures HitsTotal(picks, m) == 509421141900
  {
    hide HitsTotal;
    hide Ways;
    hide Choose;
    var own: seq<nat> := [1, 3, 3, 1];
    var rest: seq<nat> := [1, 47, 1081, 16215, 178365, 1533939, 10737573, 62891499, 314457495];
    AllHits(picks, own, rest);
    hide IsRow;
    assert PaidHits(picks, own, rest, 2) == 0;
    assert PaidHits(picks, own, rest, 3) == 207541946700;
    assert PaidHits(picks, own, rest, 4) == 509421141900;
    assert PaidHits(picks, own, rest, 6) == 509421141900;
    assert PaidHits(picks, own, rest, 8) == 509421141900;
    assert PaidHits(picks, own, rest, 10) == 509421141900;
  }

  lemma FourPicked(picks: nat, m: nat)
    requires picks == 4 && m == 11
    ensures HitsTotal(picks, m) == 463256105400
  {
    hide HitsTotal;
    hide Ways;
    hide Choose;
    var own: seq<nat> := [1, 4, 6, 4, 1];
    var rest: seq<nat> := [1, 46, 1035, 15180, 163185, 1370754, 9366819, 53524680, 260932815];
    AllHits(picks, own, rest);
    hide IsRow;
    assert PaidHits(picks, own, rest, 2) == 0;
    assert PaidHits(picks, own, rest, 3) == 250495502400;
    assert PaidHits(picks, own, rest, 4) == 378954734400;
    assert PaidHits(picks, own, rest, 5) == 463256105400;
    assert PaidHits(picks, own, rest, 7) == 463256105400;
    assert PaidHits(picks, own, rest, 9) == 463256105400;
  }

  lemma FivePicked(picks: nat, m: nat)
    requires picks == 5 && m == 11
    ensures HitsTotal(picks, m) == 239348406000
  {
    hide HitsTotal;
    hide Ways;
    hide Choose;
    var own: seq<nat> := [1, 5, 10, 10, 5, 1];
    var rest: seq<nat> := [1, 45, 990, 14190, 148995, 1221759, 8145060, 45379620];
    AllHits(picks, own, rest);
    hide IsRow;
    assert PaidHits(picks, own, rest, 3) == 0;
    assert PaidHits(picks, own, rest, 4) == 149752746000;
    assert PaidHits(picks, own, rest, 5) == 202695636000;
    assert PaidHits(picks, own, rest, 6) == 239348406000;
    assert PaidHits(picks, own, rest, 8) == 239348406000;
    assert PaidHits(picks, own, rest, 10) == 239348406000;
  }

  lemma SixPicked(picks: nat, m: nat)
    requires picks == 6 && m == 11
    ensures HitsTotal(picks, m) == 247140513400
  {
    hide HitsTotal;
    hide Ways;
    hide Choose;
    var own: seq<nat> := [1, 6, 15, 20, 15, 6, 1];
    var rest: seq<nat> := [1, 44, 946, 13244, 135751, 1086008, 7059052, 38320568];
    AllHits(picks, own, rest);
    hide IsRow;
    assert PaidHits(picks, own, rest, 3) == 0;
    assert PaidHits(picks, own, rest, 4) == 153282272000;
    assert PaidHits(picks, own, rest, 5) == 206225162000;
    assert PaidHits(picks, own, rest, 6) == 237502192400;
    assert PaidHits(picks, own, rest, 7) == 247140513400;
    assert PaidHits(picks, own, rest, 9) == 247140513400;
  }

  lemma SevenPicked(picks: nat, m: nat)
    requires picks == 7 && m == 11
    ensures HitsTotal(picks, m) == 175765458400
  {
    hide HitsTotal;
    hide Ways;
    hide Choose;
    var own: seq<nat> := [1, 7, 21, 35, 35, 21, 7, 1];
    var rest: seq<nat> := [1, 43, 903, 12341, 123410, 962598, 6096454];
    AllHits(picks, own, rest);
    hide IsRow;
    assert PaidHits(picks, own, rest, 3) == 0;
    assert PaidHits(picks, own, rest, 4) == 0;
    assert PaidHits(picks, own, rest, 5) == 128025534000;
    assert PaidHits(picks, own, rest, 6) == 164411738400;
    assert PaidHits(picks, own, rest, 7) == 174778178400;
    assert PaidHits(picks, own, rest, 8) == 175765458400;
    assert PaidHits(picks, own, rest, 10) == 175765458400;
  }

  lemma EightPicked(picks: nat, m: nat)
    requires picks == 8 && m == 11
    ensures HitsTotal(picks, m) == 67067308000
  {
    hide HitsTotal;
    hide Ways;
    hide Choose;
    var own: seq<nat> := [1, 8, 28, 56, 70, 56, 28, 8, 1];
    var rest: seq<nat> := [1, 42, 861, 11480, 111930, 850668];
    AllHits(picks, own, rest);
    hide IsRow;
    assert PaidHits(picks, own, rest, 3) == 0;
    assert PaidHits(picks, own, rest, 5) == 0;
    assert PaidHits(picks, own, rest, 6) == 47637408000;
    assert PaidHits(picks, own, rest, 7) == 63307608000;
    assert PaidHits(picks, own, rest, 8) == 66981208000;
    assert PaidHits(picks, own, rest, 9) == 67067308000;
  }

  lemma NinePicked(picks: nat, m: nat)
    requires picks == 9 && m == 11
    ensures HitsTotal(picks, m) == 80568804800
  {
    hide HitsTotal;
    hide Ways;
    hide Choose;
    var own: seq<nat> := [1, 9, 36, 84, 126, 126, 84, 36, 9, 1];
    var rest: seq<nat> := [1, 41, 820, 10660, 101270, 749398];
    AllHits(picks, own, rest);
    hide IsRow;
    assert PaidHits(picks, own, rest, 3) == 0;
    assert PaidHits(picks, own, rest, 5) == 0;
    assert PaidHits(picks, own, rest, 6) == 56654488800;
    assert PaidHits(picks, own, rest, 7) == 75369184800;
    assert PaidHits(picks, own, rest, 8) == 79974304800;
    assert PaidHits(picks, own, rest, 9) == 80564704800;
    assert PaidHits(picks, own, rest, 10) == 80568804800;
  }

  lemma TenPicked(picks: nat, m: nat)
    requires picks == 10 && m == 11
    ensures HitsTotal(picks, m) == 140241468000
  {
    hide HitsTotal;
    hide Ways;
    hide Choose;
    var own: seq<nat> := [1, 10, 45, 120, 210, 252, 210, 120, 45, 10, 1];
    var rest: seq<nat> := [1, 40, 780, 9880, 91390, 658008];
    AllHits(picks, own, rest);
    hide IsRow;
    assert PaidHits(picks, own, rest, 3) == 0;
    assert PaidHits(picks, own, rest, 5) == 0;
    assert PaidHits(picks, own, rest, 6) == 82909008000;
    assert PaidHits(picks, own, rest, 7) == 128969568000;
    assert PaidHits(picks, own, rest, 8) == 138454368000;
    assert PaidHits(picks, own, rest, 9) == 140209368000;
    assert PaidHits(picks, own, rest, 10) == 140241368000;
    assert PaidHits(picks, own, rest, 11) == 140241468000;
  }

  lemma HitsTotals(picks: nat, m: nat)
    requires 1 <= picks <= 10 && m == 11
    ensures HitsTotal(picks, m) == KenoTotal(picks)
  {
    hide HitsTotal;
    match picks
    case 1 => OnePicked(picks, m);
    case 2 => TwoPicked(picks, m);
    case 3 => ThreePicked(picks, m);
    case 4 => FourPicked(picks, m);
    case 5 => FivePicked(picks, m);
    case 6 => SixPicked(picks, m);
    case 7 => SevenPicked(picks, m);
    case 8 => EightPicked(picks, m);
    case 9 => NinePicked(picks, m);
    case 10 => TenPicked(picks, m);
  }

  lemma TenOfFifty(n: nat, k: nat)
    requires n == 50 && k == 10
    ensures Choose(n, k) == 10272278170
  {
    hide Choose;
    RowIsChoose(n, [1, 50, 1225, 19600, 230300, 2118760, 15890700, 99884400, 536878650, 2505433700, 10272278170], k);
  }

  /** The draws are as many as ten-spot layouts, each from equally many index lists. */
  lemma ReturnPerLayout(picks: seq<nat>, cap: int)
    requires ValidPicks(picks) && cap >= 100000
    ensures KENO_DRAW_COUNT <= KENO_SPOT_COUNT
    ensures Total(AllIndices(KENO_SPOT_COUNT), DealPays(picks, cap))
         == (Factorial(KENO_DRAW_COUNT) * Factorial(KENO_SPOT_COUNT - KENO_DRAW_COUNT)) as real
            * Total(AllLayouts(KENO_SPOT_COUNT, KENO_DRAW_COUNT), LayoutPays(picks))
  {
    KenoNumbers();
    hide *;
    var h := Placement(KENO_SPOT_COUNT, KENO_DRAW_COUNT);
    forall js <- AllIndices(KENO_SPOT_COUNT)
      ensures DealPays(picks, cap)(js) == Over(h, LayoutPays(picks))(js)
    {
      DealPaysLayout(picks, cap, js);
    }
    TotalSame(AllIndices(KENO_SPOT_COUNT), DealPays(picks, cap), Over(h, LayoutPays(picks)));
    PlacementsAreEquallyLikely(KENO_SPOT_COUNT, KENO_DRAW_COUNT, LayoutPays(picks));
  }

  /** What a layout is paid, as a whole number of hundredths. */
  function LayoutHundredths(picks: seq<nat>): set<nat> -> int {
    layout => KenoPayout(|picks|, |layout * AsTiles(picks)|)
  }

  lemma LayoutAt(picks: seq<nat>, layout: set<nat>)
    requires |layout| == KENO_DRAW_COUNT
    ensures LayoutPays(picks)(layout) == LayoutHundredths(picks)(layout) as real
    ensures 0 <= HitsOf(picks)(layout) < 11 && LayoutHundredths(picks)(layout) == PayoutFor(|picks|)(HitsOf(picks)(layout))
  {
    SubsetSize(layout * AsTiles(picks), layout);
    hide KenoPayout;
    hide AsTiles;
  }

  lemma SubsetSize(some: set<nat>, all: set<nat>)
    requires some <= all
    ensures |some| <= |all|
  {
    assert all == some + (all - some);
  }

  lemma LayoutsTotal(picks: seq<nat>)
    requires ValidPicks(picks)
    ensures Total(AllLayouts(KENO_SPOT_COUNT, KENO_DRAW_COUNT), LayoutPays(picks)) == KenoTotal(|picks|) as real
  {
    KenoNumbers();
    hide *;
    var layouts := AllLayouts(KENO_SPOT_COUNT, KENO_DRAW_COUNT);
    forall layout <- layouts
      ensures LayoutPays(picks)(layout) == LayoutHundredths(picks)(layout) as real
      ensures 0 <= HitsOf(picks)(layout) < 11 && LayoutHundredths(picks)(layout) == PayoutFor(|picks|)(HitsOf(picks)(layout))
    {
      AllLayoutsIsComplete(KENO_SPOT_COUNT, KENO_DRAW_COUNT, layout);
      LayoutAt(picks, layout);
    }
    TotalIsSum(layouts, LayoutPays(picks), LayoutHundredths(picks));
    SumGrouped(layouts, LayoutHundredths(picks), HitsOf(picks), 11, PayoutFor(|picks|));
    GroupedIsHits(picks, 11);
    PickCount(picks);
    HitsTotals(|picks|, 11);
  }

  /**
   * Averaged over all index lists an honest draw is paid KenoTotal over C(50, 10): between 6 and 80 percent of the stake, less the
   * more spots are picked up to eight, wherever the cap lets every entry pay. The house edge plays no part in it.
   */
  lemma KenoReturn(picks: seq<nat>, cap: int)
    requires ValidPicks(picks) && cap >= 100000
    ensures Total(AllIndices(KENO_SPOT_COUNT), DealPays(picks, cap)) * Choose(KENO_SPOT_COUNT, KENO_DRAW_COUNT) as real
         == KenoTotal(|picks|) as real * |AllIndices(KENO_SPOT_COUNT)| as real
    ensures 6 * Choose(KENO_SPOT_COUNT, KENO_DRAW_COUNT) < KenoTotal(|picks|) < 80 * Choose(KENO_SPOT_COUNT, KENO_DRAW_COUNT)
  {
    hide *;
    KenoNumbers();
    PickCount(picks);
    ReturnPerLayout(picks, cap);
    LayoutsTotal(picks);
    AllIndicesAreDistinct(KENO_SPOT_COUNT);
    TenOfFifty(KENO_SPOT_COUNT, KENO_DRAW_COUNT);
    KenoFactorials();
    TotalsInRange(|picks|);
    AverageIs(Factorial(KENO_DRAW_COUNT) * Factorial(KENO_SPOT_COUNT - KENO_DRAW_COUNT),
              Choose(KENO_SPOT_COUNT, KENO_DRAW_COUNT), Factorial(KENO_SPOT_COUNT),
              KenoTotal(|picks|) as real, Total(AllIndices(KENO_SPOT_COUNT), DealPays(picks, cap)));
  }

  lemma KenoFactorials()
    ensures Factorial(KENO_SPOT_COUNT)
         == Factorial(KENO_DRAW_COUNT) * Factorial(KENO_SPOT_COUNT - KENO_DRAW_COUNT) * Choose(KENO_SPOT_COUNT, KENO_DRAW_COUNT)
  {
    hide *;
    KenoNumbers();
    ChooseFactorial(KENO_SPOT_COUNT, KENO_DRAW_COUNT);
  }

  lemma TotalsInRange(picks: nat)
    requires 1 <= picks <= 10
    ensures 6 * 10272278170 < KenoTotal(picks) < 80 * 10272278170
  {
  }

  lemma AverageIs(each: nat, ways: nat, all: nat, total: real, paid: real)
    requires all == each * ways && paid == each as real * total
    ensures paid * ways as real == total * all as real
  {
    RealOfProduct(each, ways);
  }
}
