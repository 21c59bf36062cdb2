/** How a decided round looks: on the side of the decision every outcome comes up equally often, as far as the draws can be divided. */
module ForcedRounds {
  import opened Arithmetic
  import opened Boards
  import opened Cursors
  import opened KenoOdds
  import opened Layouts
  import opened MinesGrid
  import opened PlinkoOdds
  import opened Rng
  import opened RollGames
  import opened Shuffle
  import opened Streams
  import opened Sums
  import opened TableGames

  /** As many draws lie in a stretch as it is wide, to within one. */
  lemma DrawsBetween(lo: real, hi: real, draws: set<nat>)
    requires 0.0 <= lo <= hi <= DRAWS as real
    requires forall v: nat :: v in draws <==> v < DRAWS && lo <= v as real < hi
    ensures hi - lo - 1.0 < |draws| as real < hi - lo + 1.0
  {
    var first, last := Ceiling(lo), Ceiling(hi);
    assert draws == Interval(first, last);
    IntervalSize(first, last);
  }

  /** The draws that a band of this start and width rounds to n hundredths. */
  function SpreadTo(start: real, width: real, n: int): set<nat> {
    set v: nat | v < DRAWS && Hundredths(start + Spread(SeededFloat(v), width)) == n
  }

  /** Draws to a hundredth of a band of this width. */
  function PerHundredth(width: real): real {
    if width > 0.0 then DRAWS as real / (100.0 * width) else 0.0
  }

  /** Where a draw falls, counted in draws: n hundredths of a band begin that many draws for each of them. */
  lemma DrawFallsAt(v: Draw, width: real, y: real)
    requires width > 0.0
    ensures y <= 100.0 * Spread(SeededFloat(v), width) <==> Times(y, PerHundredth(width)) <= v as real
  {
    var scale, per, spread := 100.0 * width, PerHundredth(width), 100.0 * Spread(SeededFloat(v), width);
    ProductOfShare(v as real, DRAWS as real, scale, SeededFloat(v));
    assert spread == SeededFloat(v) * scale;
    assert DRAWS as real > 0.0;
    ShareOrder(y, spread, v as real, DRAWS as real, scale, per);
  }

  lemma ProductOfShare(v: real, all: real, scale: real, share: real)
    requires all > 0.0 && share == v / all
    ensures share * scale * all == v * scale
  {
    assert share * all == v;
    assert share * scale * all == (share * all) * scale;
  }

  lemma ShareOrder(y: real, spread: real, v: real, all: real, scale: real, per: real)
    requires all > 0.0 && scale > 0.0 && per == all / scale && spread * all == v * scale
    ensures y <= spread <==> Times(y, per) <= v
  {
    Quotient(all, scale, per);
    assert Times(y, per) * scale == y * all by { assert y * per * scale == y * (per * scale); }
    Compare(spread, y, all);
    Compare(v, Times(y, per), scale);
    hide Times;
  }

  lemma SpreadRange(start: real, width: real, n: int, v: Draw)
    requires width > 0.0
    ensures Hundredths(start + Spread(SeededFloat(v), width)) == n
       <==> && Times(n as real - 0.5 - 100.0 * start, PerHundredth(width)) <= v as real
            && v as real < Times(n as real + 0.5 - 100.0 * start, PerHundredth(width))
  {
    var spread := Spread(SeededFloat(v), width);
    DrawFallsAt(v, width, n as real - 0.5 - 100.0 * start);
    DrawFallsAt(v, width, n as real + 0.5 - 100.0 * start);
    assert Hundredths(start + spread) == n <==> n as real - 0.5 - 100.0 * start <= 100.0 * spread < n as real + 0.5 - 100.0 * start;
    hide *;
  }

  lemma OneHundredth(y: real, per: real)
    ensures Times(y + 1.0, per) == Times(y, per) + per
  {
  }

  lemma StretchInRange(lo: real, hi: real, width: real)
    requires width > 0.0 && 0.0 <= lo <= hi <= 100.0 * width
    ensures 0.0 <= Times(lo, PerHundredth(width)) <= Times(hi, PerHundredth(width)) <= DRAWS as real
  {
    var per := PerHundredth(width);
    assert DRAWS as real > 0.0;
    Quotient(DRAWS as real, 100.0 * width, per);
    RealMulMonotone(0.0, lo, per);
    RealMulMonotone(lo, hi, per);
    RealMulMonotone(hi, 100.0 * width, per);
  }

  /** Every hundredth that lies wholly in the band gets the same share of the draws, to within one. */
  lemma SpreadIsEven(start: real, width: real, n: int)
    requires 100.0 * start + 0.5 <= n as real <= 100.0 * (start + width) - 0.5
    ensures width > 0.0 && -1.0 < |SpreadTo(start, width, n)| as real - DRAWS as real / (100.0 * width) < 1.0
  {
    var lo, per := n as real - 0.5 - 100.0 * start, PerHundredth(width);
    assert per == DRAWS as real / (100.0 * width);
    forall v: nat
      ensures v in SpreadTo(start, width, n) <==> v < DRAWS && Times(lo, per) <= v as real < Times(lo + 1.0, per)
    {
      if v < DRAWS {
        SpreadRange(start, width, n, v);
      }
    }
    StretchInRange(lo, lo + 1.0, width);
    hide *;
    DrawsBetween(Times(lo, per), Times(lo + 1.0, per), SpreadTo(start, width, n));
    OneHundredth(lo, per);
  }

  /** The band that a decided roll of the dice is drawn from. */
  function BandStart(target: real, direction: Direction, win: bool): real {
    if win == (direction == Under) then 0.0 else if win then target + 0.01 else target
  }

  function BandWidth(target: real, direction: Direction, win: bool): real {
    if win == (direction == Under) then target - 0.01 else 99.99 - target
  }

  function RollsTo(target: real, direction: Direction, edge: real, win: bool, roll: int): set<nat> {
    set v: nat | v < DRAWS && ResolveDice(target, direction, v, edge, Decided(win)).roll == roll
  }

  lemma RollIsSpread(target: real, direction: Direction, edge: real, win: bool, roll: int, v: Draw)
    requires ValidTarget(target) && 0 < roll < 9999
    ensures ResolveDice(target, direction, v, edge, Decided(win)).roll == roll
       <==> Hundredths(BandStart(target, direction, win) + Spread(SeededFloat(v), BandWidth(target, direction, win))) == roll
  {
    hide FairRoll;
    hide Spread;
    hide Hundredths;
    assert 0.0 + Spread(SeededFloat(v), target - 0.01) == Spread(SeededFloat(v), target - 0.01);
  }

  /**
   * Every roll wholly in the band of a decision comes up on the same share of the draws, to within one draw: all but 99.99, which also
   * stands for what is rounded to 100.
   */
  lemma ForcedRollIsEven(target: real, direction: Direction, edge: real, win: bool, roll: int)
    requires ValidTarget(target) && roll < 9999
    requires var start, width := BandStart(target, direction, win), BandWidth(target, direction, win);
             100.0 * start + 0.5 <= roll as real <= 100.0 * (start + width) - 0.5
    ensures var rolls := |RollsTo(target, direction, edge, win, roll)| as real;
            -1.0 < rolls - DRAWS as real / (100.0 * BandWidth(target, direction, win)) < 1.0
  {
    forall v: nat
      ensures v in RollsTo(target, direction, edge, win, roll)
         <==> v in SpreadTo(BandStart(target, direction, win), BandWidth(target, direction, win), roll)
    {
      if v < DRAWS {
        RollIsSpread(target, direction, edge, win, roll, v);
      }
      hide ResolveDice;
      hide Hundredths;
    }
    hide *;
    assert RollsTo(target, direction, edge, win, roll) == SpreadTo(BandStart(target, direction, win), BandWidth(target, direction, win), roll);
    SpreadIsEven(BandStart(target, direction, win), BandWidth(target, direction, win), roll);
  }

  function ResultsTo(selected: real, edge: real, cap: real, win: bool, result: int): set<nat> {
    set v: nat | v < DRAWS && ResolveLimbo(selected, v, edge, Decided(win), cap).result == result
  }

  lemma ResultIsSpread(selected: real, edge: real, cap: real, win: bool, result: int, v: Draw)
    requires !win ==> LimboTarget(selected, cap) >= 1.01
    ensures var target := LimboTarget(selected, cap);
            ResolveLimbo(selected, v, edge, Decided(win), cap).result
            == if win then Hundredths(target + Spread(SeededFloat(v), cap - target)) else Hundredths(1.0 + Spread(SeededFloat(v), target - 1.01))
  {
    hide Spread;
    hide Hundredths;
  }

  /**
   * A forced Limbo win shows every hundredth between the target and the cap equally often, and a forced loss every one between 1 and
   * a hundredth below the target, to within one draw.
   */
  lemma ForcedResultIsEven(selected: real, edge: real, cap: real, win: bool, result: int)
    requires var target := LimboTarget(selected, cap);
             if win then 100.0 * target + 0.5 <= result as real <= 100.0 * cap - 0.5
             else 100.0 + 0.5 <= result as real <= 100.0 * (target - 0.01) - 0.5
    ensures var target := LimboTarget(selected, cap);
            var width := if win then cap - target else target - 1.01;
            width > 0.0 && -1.0 < |ResultsTo(selected, edge, cap, win, result)| as real - DRAWS as real / (100.0 * width) < 1.0
  {
    var target := LimboTarget(selected, cap);
    var start, width := if win then target else 1.0, if win then cap - target else target - 1.01;
    forall v: nat
      ensures v in ResultsTo(selected, edge, cap, win, result) <==> v in SpreadTo(start, width, result)
    {
      if v < DRAWS {
        ResultIsSpread(selected, edge, cap, win, result, v);
      }
      hide ResolveLimbo;
      hide Hundredths;
    }
    hide *;
    assert ResultsTo(selected, edge, cap, win, result) == SpreadTo(start, width, result);
    SpreadIsEven(start, width, result);
  }

  /** The entries of a table on the side of a decision. */
  function SideOf(table: seq<int>, least: int, win: bool): set<nat> {
    set i: nat | i < |table| && (table[i] >= least <==> win)
  }

  /** The draws by which a decision picks this entry. */
  function PicksEntry(table: seq<int>, least: int, win: bool, i: nat): set<nat> {
    set v: nat | v < DRAWS && PickedFrom(Pool(table, least, win), v) == Some(i)
  }

  datatype Picked = None | Some(entry: nat)

  function PickedFrom(pool: seq<nat>, v: Draw): Picked {
    if pool == [] then None else Some(pool[SeededInt(v, 0, |pool| - 1)])
  }

  lemma PositionsAreDistinct(n: nat)
    ensures Distinct(Positions(n)) && forall i: nat :: i in Positions(n) <==> i < n
  {
    forall i: nat
      ensures i in Positions(n) <==> i < n
    {
      if i < n {
        assert Positions(n)[i] == i;
      }
    }
  }

  lemma PoolIsSide(table: seq<int>, least: int, win: bool)
    requires SideOf(table, least, win) != {}
    ensures var pool := Pool(table, least, win);
            Distinct(pool) && AsSet(pool) == SideOf(table, least, win) && |pool| == |SideOf(table, least, win)|
  {
    var p := if win then Above(table, least) else Below(table, least);
    var side := Filter(Positions(|table|), p);
    PositionsAreDistinct(|table|);
    FilterIsDistinct(Positions(|table|), p);
    forall i: nat
      ensures i in side <==> i in SideOf(table, least, win)
    {
      if i < |table| && p(i) {
        FilterKeeps(Positions(|table|), p, i);
      }
    }
    hide Filter;
    assert side != [] by {
      var i :| i in SideOf(table, least, win);
      assert i in side;
    }
    assert Pool(table, least, win) == side;
    hide Pool;
    hide Distinct;
    DistinctSize(side);
    assert AsSet(side) == SideOf(table, least, win);
  }

  /** Each entry on the side of the decision is picked by the same number of draws, to within one. */
  lemma PoolIsEven(table: seq<int>, least: int, win: bool, i: nat)
    requires i in SideOf(table, least, win)
    ensures var k := |SideOf(table, least, win)|;
            k > 0 && DRAWS / k <= |PicksEntry(table, least, win, i)| <= DRAWS / k + 1
  {
    var pool := Pool(table, least, win);
    PoolIsSide(table, least, win);
    hide Pool;
    hide SideOf;
    assert i in pool;
    var at: nat :| at < |pool| && pool[at] == i;
    forall v: nat
      ensures v in PicksEntry(table, least, win, i) <==> v in DrawsScaledTo(at, |pool|, DRAWS)
    {
      hide Scale;
    }
    assert PicksEntry(table, least, win, i) == DrawsScaledTo(at, |pool|, DRAWS);
    DrawsPerValue(at, |pool|, DRAWS);
  }

  /** The segments that win, or those that lose. */
  function SegmentsOf(risk: Risk, win: bool): set<nat> {
    set k: nat | k < 12 && (WheelSegments(risk)[k] > 0 <==> win)
  }

  lemma SegmentsAreSide(risk: Risk, win: bool)
    ensures SegmentsOf(risk, win) == SideOf(WheelSegments(risk), 101, win)
  {
    assert forall k: nat :: k < 12 ==> (WheelSegments(risk)[k] > 0 <==> WheelSegments(risk)[k] >= 101);
  }

  function SpinsTo(risk: Risk, win: bool, segment: nat): set<nat> {
    set v: nat | v < DRAWS && ResolveWheel(risk, v, Decided(win)).segment == segment
  }

  /** A decided spin stops on each segment of its side equally often, to within one draw. */
  lemma ForcedSpinIsEven(risk: Risk, win: bool, segment: nat)
    requires segment in SegmentsOf(risk, win)
    ensures var k := |SegmentsOf(risk, win)|;
            k > 0 && DRAWS / k <= |SpinsTo(risk, win, segment)| <= DRAWS / k + 1
  {
    SegmentsAreSide(risk, win);
    PoolIsEven(WheelSegments(risk), 101, win, segment);
    PoolIsSide(WheelSegments(risk), 101, win);
    hide WheelSegments;
    hide Pool;
    hide SideOf;
    hide SegmentsOf;
    forall v: nat
      ensures v in SpinsTo(risk, win, segment) <==> v in PicksEntry(WheelSegments(risk), 101, win, segment)
    {
      hide SeededInt;
    }
    assert SpinsTo(risk, win, segment) == PicksEntry(WheelSegments(risk), 101, win, segment);
  }

  /** The draws at cursor 90, the others being fixed, that send a decided ball to this bucket. */
  function BallsTo(risk: Risk, rows: Rows, s: Stream, cap: int, win: bool, bucket: nat): set<nat> {
    set v: nat | v < DRAWS && ResolvePlinko(risk, rows, Put(s, 90, v), Decided(win), cap).bucket == bucket
  }

  /** A decided ball falls into each bucket of its side, those that pay at least the stake or the others, equally often. */
  lemma ForcedBucketIsEven(risk: Risk, rows: Rows, s: Stream, cap: int, win: bool, bucket: nat)
    requires bucket in SideOf(PlinkoBuckets(risk, rows), 100, win)
    ensures var k := |SideOf(PlinkoBuckets(risk, rows), 100, win)|;
            k > 0 && DRAWS / k <= |BallsTo(risk, rows, s, cap, win, bucket)| <= DRAWS / k + 1
  {
    PoolIsEven(PlinkoBuckets(risk, rows), 100, win, bucket);
    hide SideOf;
    forall v: nat
      ensures v in BallsTo(risk, rows, s, cap, win, bucket) <==> v in PicksEntry(PlinkoBuckets(risk, rows), 100, win, bucket)
    {
      if v < DRAWS {
        ForcedBall(risk, rows, Put(s, 90, v), cap, win);
      }
      hide ResolvePlinko;
      hide PickedFrom;
      hide Pool;
    }
    assert BallsTo(risk, rows, s, cap, win, bucket) == PicksEntry(PlinkoBuckets(risk, rows), 100, win, bucket);
  }

  lemma ForcedBall(risk: Risk, rows: Rows, s: Stream, cap: int, win: bool)
    ensures var r := ResolvePlinko(risk, rows, s, Decided(win), cap);
            && PickedFrom(Pool(PlinkoBuckets(risk, rows), 100, win), s(90)) == Some(r.bucket)
            && r.bucket <= RowCount(rows) && r.path == PlinkoPathForBucket(RowCount(rows), r.bucket, s)
  {
    PlinkoPool(risk, rows, win);
    hide PlinkoBuckets;
    hide Pool;
    hide SeededInt;
    hide PlinkoPathForBucket;
  }

  /** The stream with the draws from a cursor on replaced by ones that select these indices. */
  function PutIndices(s: Stream, offset: nat, js: seq<nat>): Stream {
    (cursor: nat) => if offset <= cursor < offset + |js| then StreamFor(js, offset)(cursor) else s(cursor)
  }

  lemma PutIndicesDraws(s: Stream, offset: nat, js: seq<nat>)
    requires IsIndices(js) && |js| <= DRAWS
    ensures Indices(PutIndices(s, offset, js), offset, |js|) == js
  {
    StreamDrawsIndices(js, offset);
    hide StreamFor;
    SameIndices(PutIndices(s, offset, js), StreamFor(js, offset), offset, |js|);
    hide Indices;
  }

  /** The steps to the right. */
  function Rights(path: seq<int>): set<nat> {
    set i: nat | i < |path| && path[i] == 1
  }

  lemma {:induction false} RightsAreSum(path: seq<int>)
    requires IsPath(path)
    ensures |Rights(path)| == Sum(path, Identity()) && Within(Rights(path), |path|)
  {
    if path == [] {
      assert Rights(path) == {};
    } else {
      var last := |path| - 1;
      RightsAreSum(path[..last]);
      SumAppend(path[..last], path[last], Identity());
      assert path == path[..last] + [path[last]];
      assert Rights(path) == Rights(path[..last]) + if path[last] == 1 then {last} else {};
    }
  }

  /** Whether these indices lay this path to the bucket. */
  function Takes(n: nat, bucket: nat, s: Stream, path: seq<int>): seq<nat> -> bool
    requires bucket <= n
  {
    js => PlinkoPathForBucket(n, bucket, PutIndices(s, 80, js)) == path
  }

  lemma PathIsPlacement(n: nat, bucket: nat, s: Stream, path: seq<int>, js: seq<nat>)
    requires bucket <= n && n <= DRAWS && IsPath(path) && |path| == n && js in AllIndices(n)
    ensures Takes(n, bucket, s, path)(js) == MapsTo(Placement(n, bucket), Rights(path))(js)
  {
    AllIndicesIsComplete(n, js);
    PutIndicesDraws(s, 80, js);
    PlacementIsLayout(n, bucket, js);
    hide AllIndices;
    hide Indices;
    hide StreamFor;
    hide Placement;
    var laid, taken := Placement(n, bucket)(js), PlinkoPathForBucket(n, bucket, PutIndices(s, 80, js));
    assert taken == Map(Positions(n), Steps(laid));
    assert forall i: nat :: i < n ==> taken[i] == if i in laid then 1 else 0;
    if taken == path {
      assert laid == Rights(path);
    }
    if laid == Rights(path) {
      assert taken == path;
    }
  }

  /** Every path to the bucket of a decided ball is laid by the same number of index lists. */
  lemma ForcedPathsAreEquallyLikely(n: nat, s: Stream, path: seq<int>, bucket: nat)
    requires n <= DRAWS && IsPath(path) && |path| == n && bucket == Sum(path, Identity())
    ensures bucket <= n
    ensures Count(AllIndices(n), Takes(n, bucket, s, path)) == Factorial(bucket) * Factorial(n - bucket)
  {
    hide *;
    RightsAreSum(path);
    WithinIsSmall(Rights(path), n);
    forall js <- AllIndices(n)
      ensures Takes(n, bucket, s, path)(js) == MapsTo(Placement(n, bucket), Rights(path))(js)
    {
      PathIsPlacement(n, bucket, s, path, js);
    }
    CountSame(AllIndices(n), Takes(n, bucket, s, path), MapsTo(Placement(n, bucket), Rights(path)));
    PlacementCount(n, bucket, Rights(path));
  }

  /** The spots drawn that were not picked. */
  function MissSet(picks: seq<nat>, drawn: seq<nat>): set<nat> {
    set spot <- drawn | spot !in picks
  }

  /** A decided draw hits the first spots of the shuffled picks and misses with the first of the other spots. */
  lemma DealtParts(picks: seq<nat>, s: Stream, win: bool, cap: int)
    requires ValidPicks(picks)
    ensures var r, hits := ResolveKeno(picks, s, Decided(win), cap), DealtHits(|picks|, s(70), win);
            && hits <= |picks| && hits <= KENO_DRAW_COUNT <= hits + |Unpicked(picks)|
            && HitSet(picks, r.drawn) == AsSet(ShuffledAt(picks, s, 20)[..hits])
            && MissSet(picks, r.drawn) == AsSet(ShuffledAt(Unpicked(picks), s, 40)[..KENO_DRAW_COUNT - hits])
  {
    hide *;
    var hits := DealtHits(|picks|, s(70), win);
    KenoReady(picks, hits, s(70), win);
    KenoResultIs(picks, s, Decided(win), cap);
    KenoDrawnIs(picks, s, win);
    ShuffledAtIsDistinct(picks, s, 20);
    ShuffledAtIsDistinct(Unpicked(picks), s, 40);
    FirstParts(picks, Unpicked(picks), ShuffledAt(picks, s, 20), ShuffledAt(Unpicked(picks), s, 40), hits, KENO_DRAW_COUNT - hits);
  }

  lemma FirstParts(picks: seq<nat>, others: seq<nat>, dealt: seq<nat>, missed: seq<nat>, h: nat, m: nat)
    requires h <= |dealt| && m <= |missed| && NoneIn(others, picks)
    requires (forall spot :: spot in dealt <==> spot in picks) && (forall spot :: spot in missed <==> spot in others)
    ensures var drawn := FirstFew(dealt, h) + FirstFew(missed, m);
            HitSet(picks, drawn) == AsSet(dealt[..h]) && MissSet(picks, drawn) == AsSet(missed[..m])
  {
    assert FirstFew(dealt, h) == dealt[..h] && FirstFew(missed, m) == missed[..m];
    assert forall spot <- dealt[..h] :: spot in picks;
    assert forall spot <- missed[..m] :: spot !in picks;
  }

  /** The picks that a decided draw hits, and the spots it misses with. */
  function SpotsHit(picks: seq<nat>, s: Stream, win: bool, cap: int): set<nat> {
    HitSet(picks, ResolveKeno(picks, s, Decided(win), cap).drawn)
  }

  function SpotsMissed(picks: seq<nat>, s: Stream, win: bool, cap: int): set<nat> {
    MissSet(picks, ResolveKeno(picks, s, Decided(win), cap).drawn)
  }

  lemma SpotsAre(picks: seq<nat>, s: Stream, win: bool, cap: int)
    ensures SpotsHit(picks, s, win, cap) == HitSet(picks, ResolveKeno(picks, s, Decided(win), cap).drawn)
    ensures SpotsMissed(picks, s, win, cap) == MissSet(picks, ResolveKeno(picks, s, Decided(win), cap).drawn)
  {
    hide ResolveKeno;
    hide HitSet;
    hide MissSet;
  }

  /** Whether these indices let a decided draw hit exactly these picks. */
  function HitsWith(picks: seq<nat>, s: Stream, win: bool, cap: int, chosen: set<nat>): seq<nat> -> bool {
    js => SpotsHit(picks, PutIndices(s, 20, js), win, cap) == chosen
  }

  lemma HitsWithMeans(picks: seq<nat>, s: Stream, win: bool, cap: int, chosen: set<nat>, js: seq<nat>)
    ensures HitsWith(picks, s, win, cap, chosen)(js) == (SpotsHit(picks, PutIndices(s, 20, js), win, cap) == chosen)
  {
    hide SpotsHit;
    hide PutIndices;
  }

  lemma OtherDrawsStay(s: Stream, offset: nat, js: seq<nat>, cursor: nat)
    requires cursor < offset || offset + |js| <= cursor
    ensures PutIndices(s, offset, js)(cursor) == s(cursor)
  {
    hide StreamFor;
  }

  lemma ShuffledWith(items: seq<nat>, s: Stream, offset: nat, js: seq<nat>)
    requires js in AllIndices(|items|) && |items| <= 50
    ensures |js| == |items| && IsIndices(js)
    ensures ShuffledAt(items, PutIndices(s, offset, js), offset) == Shuffled(items, js)
  {
    AllIndicesIsComplete(|items|, js);
    assert DRAWS >= 50;
    PutIndicesDraws(s, offset, js);
    hide AllIndices;
    hide Indices;
    hide PutIndices;
    hide Shuffled;
  }

  /** Every choice of the dealt number of hits among the picks comes from the same number of index lists. */
  lemma ForcedHitsAreEquallyLikely(picks: seq<nat>, s: Stream, win: bool, cap: int, chosen: set<nat>)
    requires ValidPicks(picks) && |chosen| == DealtHits(|picks|, s(70), win) && forall spot <- chosen :: spot in picks
    ensures |chosen| <= |picks|
    ensures Count(AllIndices(|picks|), HitsWith(picks, s, win, cap, chosen)) == Factorial(|chosen|) * Factorial(|picks| - |chosen|)
  {
    hide *;
    var hits := |chosen|;
    KenoReady(picks, hits, s(70), win);
    PickCount(picks);
    forall js <- AllIndices(|picks|)
      ensures HitsWith(picks, s, win, cap, chosen)(js) == Yields(picks, hits, chosen)(js)
    {
      ShuffledWith(picks, s, 20, js);
      HitsWithMeans(picks, s, win, cap, chosen, js);
      OtherDrawsStay(s, 20, js, 70);
      SpotsAre(picks, PutIndices(s, 20, js), win, cap);
      DealtParts(picks, PutIndices(s, 20, js), win, cap);
      YieldsUnfold(picks, hits, chosen, js);
      FirstOfIs(picks, hits, js);
    }
    CountSame(AllIndices(|picks|), HitsWith(picks, s, win, cap, chosen), Yields(picks, hits, chosen));
    IndicesPerChoice(picks, hits, chosen);
  }

  /** Whether these indices let a forced win miss with exactly these spots. */
  function MissesWith(picks: seq<nat>, s: Stream, cap: int, chosen: set<nat>): seq<nat> -> bool {
    js => SpotsMissed(picks, PutIndices(s, 40, js), true, cap) == chosen
  }

  lemma MissesWithMeans(picks: seq<nat>, s: Stream, cap: int, chosen: set<nat>, js: seq<nat>)
    ensures MissesWith(picks, s, cap, chosen)(js) == (SpotsMissed(picks, PutIndices(s, 40, js), true, cap) == chosen)
  {
    hide SpotsMissed;
    hide PutIndices;
  }

  lemma WinDealsLeast(picks: nat, draw: Draw)
    ensures DealtHits(picks, draw, true) == KenoMinPayingHits(picks)
  {
  }

  /** On a forced win so does every choice of the misses among the spots not picked; a forced loss also counts its hits by these draws. */
  lemma ForcedMissesAreEquallyLikely(picks: seq<nat>, s: Stream, cap: int, chosen: set<nat>)
    requires ValidPicks(picks) && |chosen| + KenoMinPayingHits(|picks|) == KENO_DRAW_COUNT
    requires forall spot <- chosen :: spot in Unpicked(picks)
    ensures |chosen| <= |Unpicked(picks)| == KENO_SPOT_COUNT - |picks|
    ensures Count(AllIndices(|Unpicked(picks)|), MissesWith(picks, s, cap, chosen))
         == Factorial(|chosen|) * Factorial(|Unpicked(picks)| - |chosen|)
  {
    KenoNumbers();
    hide *;
    var others := Unpicked(picks);
    WinDealsLeast(|picks|, s(70));
    KenoReady(picks, DealtHits(|picks|, s(70), true), s(70), true);
    OthersAreTheRest(picks);
    PickCount(picks);
    forall js <- AllIndices(|others|)
      ensures MissesWith(picks, s, cap, chosen)(js) == Yields(others, |chosen|, chosen)(js)
    {
      ShuffledWith(others, s, 40, js);
      MissesWithMeans(picks, s, cap, chosen, js);
      SpotsAre(picks, PutIndices(s, 40, js), true, cap);
      WinDealsLeast(|picks|, PutIndices(s, 40, js)(70));
      DealtParts(picks, PutIndices(s, 40, js), true, cap);
      YieldsUnfold(others, |chosen|, chosen, js);
      FirstOfIs(others, |chosen|, js);
    }
    CountSame(AllIndices(|others|), MissesWith(picks, s, cap, chosen), Yields(others, |chosen|, chosen));
    IndicesPerChoice(others, |chosen|, chosen);
  }
}
