/** Wheel, Plinko and Keno: games that look a multiplier up in a table. Multipliers are in hundredths. */
module TableGames {
  import opened Boards
  import opened Layouts
  import opened MinesGrid
  import opened Rng
  import opened Shuffle
  import opened Sums

  datatype Risk = Low | Middle | High

  function WheelSegments(risk: Risk): (segments: seq<int>)
    ensures |segments| == 12
  {
    match risk
    case Low => [0, 120, 150, 120, 0, 150, 120, 200, 0, 120, 150, 120]
    case Middle => [0, 150, 200, 0, 300, 150, 0, 200, 500, 0, 150, 300]
    case High => [0, 0, 0, 0, 500, 0, 0, 1000, 0, 0, 0, 5000]
  }

  function Above(table: seq<int>, least: int): nat -> bool {
    (i: nat) => i < |table| && table[i] >= least
  }

  function Below(table: seq<int>, least: int): nat -> bool {
    (i: nat) => i < |table| && table[i] < least
  }

  /** The entries a decision may choose from; the other side when there are none. */
  function Pool(table: seq<int>, least: int, win: bool): seq<nat> {
    var winning := Filter(Positions(|table|), Above(table, least));
    var losing := Filter(Positions(|table|), Below(table, least));
    if win then if winning != [] then winning else losing
    else if losing != [] then losing else winning
  }

  /** When both sides have an entry, the pool holds only entries on the side of the decision. */
  lemma PoolHonoursDecision(table: seq<int>, least: int, win: bool, above: nat, below: nat)
    requires above < |table| && table[above] >= least && below < |table| && table[below] < least
    ensures Pool(table, least, win) != []
    ensures forall i <- Pool(table, least, win) :: i < |table| && ((table[i] >= least) <==> win)
  {
    assert Positions(|table|)[above] == above && Positions(|table|)[below] == below;
    FilterKeeps(Positions(|table|), Above(table, least), above);
    FilterKeeps(Positions(|table|), Below(table, least), below);
  }

  lemma {:induction false} FilterKeeps<T(!new)>(xs: seq<T>, p: T -> bool, x: T)
    requires x in xs && p(x)
    ensures x in Filter(xs, p)
  {
    if xs[0] != x {
      FilterKeeps(xs[1..], p, x);
    }
  }

  datatype WheelResult = WheelResult(won: bool, multiplier: int, segment: nat)

  function WheelSegment(risk: Risk, draw: Draw, forced: Forced): nat {
    match forced
    case Honest => SeededInt(draw, 0, |WheelSegments(risk)| - 1)
    case Decided(win) =>
      var chosen := Pool(WheelSegments(risk), 101, win);
      if chosen == [] then 0 else chosen[SeededInt(draw, 0, |chosen| - 1)]
  }

  function ResolveWheel(risk: Risk, draw: Draw, forced: Forced): WheelResult {
    var segments, segment := WheelSegments(risk), WheelSegment(risk, draw, forced);
    var multiplier := if segment < |segments| then segments[segment] else 0;
    WheelResult(multiplier > 0, multiplier, segment)
  }

  /** A decision is honoured for every draw, on a segment of the wheel. */
  lemma WheelDecisionHonoured(risk: Risk, draw: Draw, win: bool)
    ensures var r := ResolveWheel(risk, draw, Decided(win));
            r.won == win && r.segment < |WheelSegments(risk)| && r.multiplier == WheelSegments(risk)[r.segment]
  {
    var segments := WheelSegments(risk);
    PoolHonoursDecision(segments, 101, win, 11 - (if risk == High then 0 else 4), 0);
    var chosen := Pool(segments, 101, win);
    var pick := SeededInt(draw, 0, |chosen| - 1);
    assert chosen[pick] in chosen;
    assert forall i: nat :: i < |segments| ==> segments[i] == 0 || segments[i] > 101;
  }

  /** An honest spin gives each of the twelve segments a twelfth of the draws, to within one draw. */
  lemma WheelIsEven(risk: Risk, segment: nat)
    requires segment < 12
    ensures DRAWS / 12 <= |(set v: nat | v < DRAWS && ResolveWheel(risk, v, Honest).segment == segment)| <= DRAWS / 12 + 1
  {
    assert (set v: nat | v < DRAWS && ResolveWheel(risk, v, Honest).segment == segment) == DrawsScaledTo(segment, 12, DRAWS);
    DrawsPerValue(segment, 12, DRAWS);
  }

  datatype Rows = Eight | Twelve | Sixteen

  function RowCount(rows: Rows): nat {
    match rows
    case Eight => 8
    case Twelve => 12
    case Sixteen => 16
  }

  function PlinkoBuckets(risk: Risk, rows: Rows): (buckets: seq<int>)
    ensures |buckets| == RowCount(rows) + 1
  {
    match (risk, rows)
    case (Low, Eight) => [560, 210, 110, 100, 50, 100, 110, 210, 560]
    case (Low, Twelve) => [1000, 300, 160, 140, 110, 100, 50, 100, 110, 140, 160, 300, 1000]
    case (Low, Sixteen) => [1600, 900, 200, 140, 140, 120, 110, 100, 50, 100, 110, 120, 140, 140, 200, 900, 1600]
    case (Middle, Eight) => [1300, 300, 130, 70, 40, 70, 130, 300, 1300]
    case (Middle, Twelve) => [3300, 1100, 400, 200, 110, 60, 30, 60, 110, 200, 400, 1100, 3300]
    case (Middle, Sixteen) => [11000, 4100, 1000, 500, 300, 150, 100, 50, 30, 50, 100, 150, 300, 500, 1000, 4100, 11000]
    case (High, Eight) => [2900, 400, 150, 30, 20, 30, 150, 400, 2900]
    case (High, Twelve) => [17000, 2400, 810, 200, 70, 20, 20, 20, 70, 200, 810, 2400, 17000]
    case (High, Sixteen) => [100000, 13000, 2600, 900, 400, 200, 20, 20, 20, 20, 20, 200, 400, 900, 2600, 13000, 100000]
  }

  function Steps(rights: set<nat>): nat -> int {
    (i: nat) => if i in rights then 1 else 0
  }

  /** A path of 0s and 1s with the given number of steps to the right, at shuffled places. */
  function PlinkoPathForBucket(rows: nat, bucket: nat, stream: Stream): seq<int>
    requires bucket <= rows
  {
    Map(Positions(rows), Steps(Placement(rows, bucket)(Indices(stream, 80, rows))))
  }

  function Identity(): int -> int {
    x => x
  }

  lemma {:induction false} StepsSum(tiles: seq<nat>, rights: set<nat>)
    ensures Sum(Map(tiles, Steps(rights)), Identity()) + Count(tiles, Outside(rights)) == |tiles|
  {
    if tiles != [] {
      assert Map(tiles, Steps(rights))[1..] == Map(tiles[1..], Steps(rights));
      StepsSum(tiles[1..], rights);
    }
  }

  /** The path always sums to its bucket. */
  lemma PathSumsToBucket(rows: nat, bucket: nat, stream: Stream)
    requires bucket <= rows
    ensures |PlinkoPathForBucket(rows, bucket, stream)| == rows
    ensures Sum(PlinkoPathForBucket(rows, bucket, stream), Identity()) == bucket
  {
    var js := Indices(stream, 80, rows);
    var rights := Placement(rows, bucket)(js);
    PlacementIsLayout(rows, bucket, js);
    forall i <- rights
      ensures i in Positions(rows)
    {
      assert Positions(rows)[i] == i;
    }
    CountOutside(Positions(rows), rights);
    StepsSum(Positions(rows), rights);
  }

  datatype PlinkoResult = PlinkoResult(won: bool, multiplier: int, bucket: nat, path: seq<int>)

  function HalfStep(stream: Stream): nat -> int {
    (i: nat) => if SeededFloat(stream(i)) < 0.5 then 0 else 1
  }

  function ResolvePlinko(risk: Risk, rows: Rows, stream: Stream, forced: Forced, maxMultiplier: int): PlinkoResult {
    var n, buckets := RowCount(rows), PlinkoBuckets(risk, rows);
    match forced
    case Honest =>
      var path := Map(Positions(n), HalfStep(stream));
      HonestBucket(n, stream);
      PlinkoPays(buckets, Sum(path, Identity()), path, maxMultiplier)
    case Decided(win) =>
      var pool := Pool(buckets, 100, win);
      PlinkoPool(risk, rows, win);
      var bucket := pool[SeededInt(stream(90), 0, |pool| - 1)];
      assert bucket in pool;
      PlinkoPays(buckets, bucket, PlinkoPathForBucket(n, bucket, stream), maxMultiplier)
  }

  function PlinkoPays(buckets: seq<int>, bucket: nat, path: seq<int>, maxMultiplier: int): PlinkoResult
    requires bucket < |buckets|
  {
    var multiplier := if maxMultiplier < buckets[bucket] then maxMultiplier else buckets[bucket];
    PlinkoResult(multiplier > 0, multiplier, bucket, path)
  }

  lemma {:induction false} HonestSum(tiles: seq<nat>, stream: Stream)
    ensures 0 <= Sum(Map(tiles, HalfStep(stream)), Identity()) <= |tiles|
  {
    if tiles != [] {
      assert Map(tiles, HalfStep(stream))[1..] == Map(tiles[1..], HalfStep(stream));
      HonestSum(tiles[1..], stream);
    }
  }

  lemma HonestBucket(n: nat, stream: Stream)
    ensures 0 <= Sum(Map(Positions(n), HalfStep(stream)), Identity()) <= n
  {
    HonestSum(Positions(n), stream);
  }

  lemma PlinkoPool(risk: Risk, rows: Rows, win: bool)
    ensures var pool, buckets := Pool(PlinkoBuckets(risk, rows), 100, win), PlinkoBuckets(risk, rows);
            pool != [] && forall i <- pool :: i < |buckets| && ((buckets[i] >= 100) <==> win)
  {
    PoolHonoursDecision(PlinkoBuckets(risk, rows), 100, win, 0, RowCount(rows) / 2);
  }

  /**
   * For every stream the path leads to the bucket, and a decided round pays at least the stake exactly if a win is forced
   * and the cap allows it. The won flag says only that something is paid, which every bucket does under a positive cap.
   */
  lemma PlinkoDecisionHonoured(risk: Risk, rows: Rows, stream: Stream, forced: Forced, maxMultiplier: int)
    ensures var r := ResolvePlinko(risk, rows, stream, forced, maxMultiplier);
            && (r.won <==> maxMultiplier > 0)
            && |r.path| == RowCount(rows) && Sum(r.path, Identity()) == r.bucket <= RowCount(rows)
            && (forced.Decided? ==> (r.multiplier >= 100 <==> forced.win && maxMultiplier >= 100))
  {
    PlinkoPaysSomething(risk, rows);
    hide PlinkoBuckets;
    hide Pool;
    hide RowCount;
    hide PlinkoPathForBucket;
    var n, buckets := RowCount(rows), PlinkoBuckets(risk, rows);
    match forced
    case Honest =>
      HonestBucket(n, stream);
    case Decided(win) =>
      PlinkoPool(risk, rows, win);
      var pool := Pool(buckets, 100, win);
      var bucket := pool[SeededInt(stream(90), 0, |pool| - 1)];
      assert bucket in pool;
      PathSumsToBucket(n, bucket, stream);
  }

  predicate AllPay(buckets: seq<int>) {
    forall i :: 0 <= i < |buckets| ==> buckets[i] > 0
  }

  lemma PlinkoPaysSomething(risk: Risk, rows: Rows)
    ensures AllPay(PlinkoBuckets(risk, rows))
  {
    match risk
    case Low => PlinkoLow(rows);
    case Middle => PlinkoMiddle(rows);
    case High => PlinkoHigh(rows);
  }

  lemma PlinkoLow(rows: Rows)
    ensures AllPay(PlinkoBuckets(Low, rows))
  {
  }

  lemma PlinkoMiddle(rows: Rows)
    ensures AllPay(PlinkoBuckets(Middle, rows))
  {
  }

  lemma PlinkoHigh(rows: Rows)
    ensures AllPay(PlinkoBuckets(High, rows))
  {
  }

  const KENO_SPOT_COUNT: nat := 50
  const KENO_DRAW_COUNT: nat := 10

  /** The pay table: entry h of row p pays h hits on p picks. */
  function KenoPayout(picks: nat, hits: nat): int {
    var row: seq<int> :=
      match picks
      case 1 => [0, 396]
      case 2 => [0, 0, 1700]
      case 3 => [0, 0, 220, 4800]
      case 4 => [0, 0, 160, 600, 9000]
      case 5 => [0, 0, 0, 330, 1300, 30000]
      case 6 => [0, 0, 0, 200, 500, 4800, 71000]
      case 7 => [0, 0, 0, 0, 600, 1800, 12000, 80000]
      case 8 => [0, 0, 0, 0, 0, 1000, 5000, 40000, 100000]
      case 9 => [0, 0, 0, 0, 0, 600, 2200, 12000, 80000, 100000]
      case 10 => [0, 0, 0, 0, 0, 500, 2400, 8000, 50000, 80000, 100000]
      case _ => [];
    if hits < |row| then row[hits] else 0
  }

  /** The least number of hits that pays. */
  function KenoMinPayingHits(picks: nat): nat {
    match picks
    case 1 => 1
    case 2 => 2
    case 3 => 2
    case 4 => 2
    case 5 => 3
    case 6 => 3
    case 7 => 4
    case 8 => 5
    case 9 => 5
    case 10 => 5
    case _ => picks
  }

  lemma KenoPaysFrom(picks: nat, hits: nat)
    requires 1 <= picks <= 10 && hits <= picks
    ensures KenoPayout(picks, hits) > 0 <==> hits >= KenoMinPayingHits(picks)
    ensures 1 <= KenoMinPayingHits(picks) <= picks && KenoMinPayingHits(picks) <= 5
  {
  }

  function Spots(): (pool: seq<nat>)
    ensures |pool| == KENO_SPOT_COUNT && forall i :: 0 <= i < |pool| ==> pool[i] == i + 1
  {
    seq(KENO_SPOT_COUNT, i requires 0 <= i < KENO_SPOT_COUNT => i + 1)
  }

  predicate IsOneOf(spots: seq<nat>, spot: nat) {
    spot in spots
  }

  function Hits(picks: seq<nat>, drawn: seq<nat>): seq<nat> {
    Filter(picks, (spot: nat) => IsOneOf(drawn, spot))
  }

  predicate ValidPicks(picks: seq<nat>) {
    1 <= |picks| <= 10
    && (forall i, j :: 0 <= i < j < |picks| ==> picks[i] != picks[j])
    && (forall spot <- picks :: 1 <= spot <= KENO_SPOT_COUNT)
  }

  /** How many hits a decision deals. */
  function DealtHits(picks: nat, draw: Draw, win: bool): (hits: nat)
  {
    var need := KenoMinPayingHits(picks);
    if win then need else SeededInt(draw, 0, if need >= 1 then need - 1 else 0)
  }

  function ShuffledAt(spots: seq<nat>, stream: Stream, offset: nat): (shuffled: seq<nat>)
    ensures |shuffled| == |spots|
  {
    Shuffled(spots, Indices(stream, offset, |spots|))
  }

  /** slice(0, k): all of a shorter list, none of it when k is not positive. */
  function FirstFew(spots: seq<nat>, k: int): seq<nat> {
    if k < 0 then [] else if k < |spots| then spots[..k] else spots
  }

  function Unpicked(picks: seq<nat>): seq<nat> {
    Filter(Spots(), Outside(AsSet(picks)))
  }

  /** The ten spots drawn, in dealt order. */
  function KenoDrawn(picks: seq<nat>, stream: Stream, forced: Forced): seq<nat> {
    var others := Unpicked(picks);
    match forced
    case Honest => FirstFew(ShuffledAt(Spots(), stream, 0), KENO_DRAW_COUNT)
    case Decided(win) =>
      var hits := DealtHits(|picks|, stream(70), win);
      FirstFew(ShuffledAt(picks, stream, 20), hits) + FirstFew(ShuffledAt(others, stream, 40), KENO_DRAW_COUNT - hits)
  }

  datatype KenoResult = KenoResult(won: bool, multiplier: int, drawn: seq<nat>, hits: seq<nat>)

  function ResolveKeno(picks: seq<nat>, stream: Stream, forced: Forced, maxMultiplier: int): KenoResult {
    var drawn := KenoDrawn(picks, stream, forced);
    var hits := Hits(picks, drawn);
    var pays := KenoPayout(|picks|, |hits|);
    var multiplier := if maxMultiplier < pays then maxMultiplier else pays;
    KenoResult(multiplier > 0, multiplier, drawn, hits)
  }

  lemma ShuffledAtIsDistinct(spots: seq<nat>, stream: Stream, offset: nat)
    requires Distinct(spots)
    ensures Distinct(ShuffledAt(spots, stream, offset))
    ensures forall spot :: spot in ShuffledAt(spots, stream, offset) <==> spot in spots
  {
    var js := Indices(stream, offset, |spots|);
    ShuffledIsPermutation(spots, js);
    PermutationIsDistinct(spots, Shuffled(spots, js));
    forall spot
      ensures spot in Shuffled(spots, js) <==> spot in spots
    {
      assert spot in multiset(Shuffled(spots, js)) <==> spot in Shuffled(spots, js);
      assert spot in multiset(spots) <==> spot in spots;
    }
  }

  lemma FirstFewIsDistinct(spots: seq<nat>, k: int)
    requires Distinct(spots) && 0 <= k <= |spots|
    ensures Distinct(FirstFew(spots, k)) && |FirstFew(spots, k)| == k
    ensures forall spot <- FirstFew(spots, k) :: spot in spots
  {
  }

  predicate AllIn(xs: seq<nat>, ys: seq<nat>) {
    forall x <- xs :: x in ys
  }

  predicate NoneIn(xs: seq<nat>, ys: seq<nat>) {
    forall x <- xs :: x !in ys
  }

  /** Dealing hits from the picks and misses from outside them gives that many hits, all different. */
  lemma HitsAreDealt(picks: seq<nat>, dealt: seq<nat>, missed: seq<nat>)
    requires Distinct(picks) && Distinct(dealt) && Distinct(missed)
    requires AllIn(dealt, picks) && NoneIn(missed, picks)
    ensures |Hits(picks, dealt + missed)| == |dealt|
    ensures Distinct(dealt + missed)
  {
    var p := (spot: nat) => IsOneOf(dealt + missed, spot);
    CountComplement(picks, p, Outside(AsSet(dealt)));
    CountOutside(picks, AsSet(dealt));
    DistinctSize(dealt);
    forall i, j | 0 <= i < |dealt| && 0 <= j < |missed|
      ensures dealt[i] != missed[j]
    {
      assert dealt[i] in dealt && missed[j] in missed;
    }
    DistinctConcat(dealt, missed);
  }

  lemma DealtAreSpots(picks: seq<nat>, others: seq<nat>, dealt: seq<nat>, missed: seq<nat>, spots: seq<nat>)
    requires AllIn(dealt, picks) && AllIn(missed, others) && AllIn(picks, spots) && AllIn(others, spots)
    requires NoneIn(others, picks)
    ensures AllIn(dealt + missed, spots) && NoneIn(missed, picks)
  {
  }

  lemma SpotsAreDistinct(picks: seq<nat>)
    ensures Distinct(Spots())
    ensures ValidPicks(picks) ==> Distinct(picks) && |picks| <= 10 && AllIn(picks, Spots())
    ensures forall spot <- Spots() :: 1 <= spot <= KENO_SPOT_COUNT
  {
    if ValidPicks(picks) {
      forall spot <- picks
        ensures spot in Spots()
      {
        assert Spots()[spot - 1] == spot;
      }
    }
  }

  lemma OthersAreTheRest(picks: seq<nat>)
    requires ValidPicks(picks)
    ensures var others := Unpicked(picks);
            && Distinct(others) && |others| == KENO_SPOT_COUNT - |picks|
            && NoneIn(others, picks) && AllIn(others, Spots())
  {
    hide Filter;
    hide Count;
    hide Distinct;
    SpotsAreDistinct(picks);
    FilterIsDistinct(Spots(), Outside(AsSet(picks)));
    CountOutside(Spots(), AsSet(picks));
    DistinctSize(picks);
  }

  lemma DealtHitsBounds(picks: nat, draw: Draw, win: bool)
    requires 1 <= picks <= 10
    ensures var hits := DealtHits(picks, draw, win);
            hits <= picks && hits <= 5 && (hits >= KenoMinPayingHits(picks) <==> win)
  {
    KenoPaysFrom(picks, 0);
  }

  lemma ForcedKenoDraw(picks: seq<nat>, stream: Stream, win: bool)
    requires ValidPicks(picks)
    ensures var drawn := KenoDrawn(picks, stream, Decided(win));
            && |drawn| == KENO_DRAW_COUNT && Distinct(drawn)
            && AllIn(drawn, Spots())
            && |Hits(picks, drawn)| == DealtHits(|picks|, stream(70), win)
  {
    hide *;
    var others, hits := Unpicked(picks), DealtHits(|picks|, stream(70), win);
    KenoReady(picks, hits, stream(70), win);
    KenoDrawnIs(picks, stream, win);
    DealBoth(picks, others, Spots(), stream, hits, KENO_DRAW_COUNT);
  }

  lemma KenoReady(picks: seq<nat>, hits: nat, draw: Draw, win: bool)
    requires ValidPicks(picks) && hits == DealtHits(|picks|, draw, win)
    ensures Distinct(picks) && AllIn(picks, Spots())
    ensures Distinct(Unpicked(picks)) && AllIn(Unpicked(picks), Spots()) && NoneIn(Unpicked(picks), picks)
    ensures hits <= |picks| && hits <= KENO_DRAW_COUNT <= hits + |Unpicked(picks)|
  {
    assert KENO_DRAW_COUNT == 10 && KENO_SPOT_COUNT == 50;
    hide *;
    SpotsAreDistinct(picks);
    PickCount(picks);
    DealtHitsBounds(|picks|, draw, win);
    OthersAreTheRest(picks);
  }

  /** Dealing from the picks and from the rest gives different spots, as many hits as were dealt from the picks. */
  lemma DealBoth(picks: seq<nat>, others: seq<nat>, spots: seq<nat>, stream: Stream, hits: nat, k: nat)
    requires Distinct(picks) && Distinct(others) && AllIn(picks, spots) && AllIn(others, spots) && NoneIn(others, picks)
    requires hits <= |picks| && hits <= k <= hits + |others|
    ensures var drawn := FirstFew(ShuffledAt(picks, stream, 20), hits) + FirstFew(ShuffledAt(others, stream, 40), k - hits);
            |drawn| == k && Distinct(drawn) && AllIn(drawn, spots) && |Hits(picks, drawn)| == hits
  {
    hide *;
    var dealt := DealFrom(picks, stream, 20, hits);
    var missed := DealFrom(others, stream, 40, k - hits);
    DealtAreSpots(picks, others, dealt, missed, spots);
    HitsAreDealt(picks, dealt, missed);
  }

  lemma DealFrom(spots: seq<nat>, stream: Stream, offset: nat, k: nat) returns (dealt: seq<nat>)
    requires Distinct(spots) && k <= |spots|
    ensures dealt == FirstFew(ShuffledAt(spots, stream, offset), k)
    ensures Distinct(dealt) && |dealt| == k && AllIn(dealt, spots)
  {
    hide FirstFew;
    hide ShuffledAt;
    hide Distinct;
    dealt := FirstFew(ShuffledAt(spots, stream, offset), k);
    ShuffledAtIsDistinct(spots, stream, offset);
    FirstFewIsDistinct(ShuffledAt(spots, stream, offset), k);
  }

  lemma PickCount(picks: seq<nat>)
    requires ValidPicks(picks)
    ensures 1 <= |picks| <= 10
  {
  }

  lemma KenoDrawnIs(picks: seq<nat>, stream: Stream, win: bool)
    ensures var hits := DealtHits(|picks|, stream(70), win);
            KenoDrawn(picks, stream, Decided(win))
            == FirstFew(ShuffledAt(picks, stream, 20), hits)
               + FirstFew(ShuffledAt(Unpicked(picks), stream, 40), KENO_DRAW_COUNT - hits)
  {
    hide DealtHits;
    hide FirstFew;
    hide ShuffledAt;
    hide Filter;
  }

  /**
   * For every stream: ten different spots of the fifty are drawn; a decision deals exactly its number of hits, and the
   * round is won exactly if a win is forced and the cap lets anything be paid.
   */
  lemma KenoDecisionHonoured(picks: seq<nat>, stream: Stream, forced: Forced, maxMultiplier: int)
    requires ValidPicks(picks)
    ensures var r := ResolveKeno(picks, stream, forced, maxMultiplier);
            && |r.drawn| == KENO_DRAW_COUNT && Distinct(r.drawn)
            && AllIn(r.drawn, Spots())
            && (forced.Decided? ==> |r.hits| == DealtHits(|picks|, stream(70), forced.win))
            && (forced.Decided? ==> (r.won <==> forced.win && maxMultiplier > 0))
  {
    assert KENO_DRAW_COUNT == 10 && KENO_SPOT_COUNT == 50;
    hide *;
    KenoResultIs(picks, stream, forced, maxMultiplier);
    PickCount(picks);
    SpotsAreDistinct(picks);
    match forced
    case Honest =>
      var drawn := DealFrom(Spots(), stream, 0, KENO_DRAW_COUNT);
    case Decided(win) =>
      ForcedKenoDraw(picks, stream, win);
      DealtHitsBounds(|picks|, stream(70), win);
      KenoPaysFrom(|picks|, DealtHits(|picks|, stream(70), win));
  }

  lemma KenoResultIs(picks: seq<nat>, stream: Stream, forced: Forced, maxMultiplier: int)
    ensures var r := ResolveKeno(picks, stream, forced, maxMultiplier);
            && r.drawn == KenoDrawn(picks, stream, forced) && r.hits == Hits(picks, r.drawn)
            && (r.won <==> KenoPayout(|picks|, |r.hits|) > 0 && maxMultiplier > 0)
            && (forced == Honest ==> r.drawn == FirstFew(ShuffledAt(Spots(), stream, 0), KENO_DRAW_COUNT))
  {
    hide DealtHits;
    hide FirstFew;
    hide ShuffledAt;
    hide Filter;
    hide KenoPayout;
  }
}
