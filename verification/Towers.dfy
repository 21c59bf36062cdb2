/** Towers: how many traps a floor hides, what a climb pays, and the grid. */
module Towers {
  import opened Arithmetic
  import opened Boards
  import opened Layouts
  import opened Rng
  import opened Shuffle
  import opened Sums
  import opened MinesGrid

  datatype Difficulty = Easy | Medium | Hard | Expert

  datatype Config = Config(tiles: nat, mines: nat, rows: nat)

  function TowersConfig(difficulty: Difficulty): (c: Config)
    ensures 0 < c.mines < c.tiles <= 4
  {
    match difficulty
    case Easy => Config(4, 1, 10)
    case Medium => Config(3, 2, 10)
    case Hard => Config(2, 1, 10)
    case Expert => Config(3, 2, 6)
  }

  /** How often an Easy floor hides two or three traps instead of one. */
  const EASY_TRAP_VARY: real := 0.45

  function EasyTrapsOnFloor(roll: Draw): nat {
    var x := SeededFloat(roll);
    if x >= EASY_TRAP_VARY then 1
    else if x < EASY_TRAP_VARY / 2.0 then 3
    else 2
  }

  function RollsWith(traps: nat): set<nat> {
    set v: nat | v < DRAWS && EasyTrapsOnFloor(v) == traps
  }

  /** The rolls of an Easy floor realise the shares 55, 22.5 and 22.5 percent to within one of the 2^52 draws. */
  lemma EasyTrapRolls()
    ensures -1.0 < |RollsWith(1)| as real - (1.0 - EASY_TRAP_VARY) * DRAWS as real < 1.0
    ensures -1.0 < |RollsWith(2)| as real - EASY_TRAP_VARY / 2.0 * DRAWS as real < 1.0
    ensures -1.0 < |RollsWith(3)| as real - EASY_TRAP_VARY / 2.0 * DRAWS as real < 1.0
  {
    var few, some := (DRAWS * 9 + 39) / 40, (DRAWS * 9 + 19) / 20;
    assert RollsWith(3) == Interval(0, few);
    assert RollsWith(2) == Interval(few, some);
    assert RollsWith(1) == Interval(some, DRAWS);
    IntervalSize(0, few);
    IntervalSize(few, some);
    IntervalSize(some, DRAWS);
  }

  /** A number of traps and the share of floors that hide so many. */
  datatype TrapShare = TrapShare(traps: nat, share: real)

  function TrapShares(difficulty: Difficulty): seq<TrapShare> {
    if difficulty == Easy then
      [TrapShare(1, 1.0 - EASY_TRAP_VARY), TrapShare(2, EASY_TRAP_VARY / 2.0), TrapShare(3, EASY_TRAP_VARY / 2.0)]
    else [TrapShare(TowersConfig(difficulty).mines, 1.0)]
  }

  function SurviveRate(difficulty: Difficulty): (rate: real)
    ensures 0.0 < rate < 1.0
  {
    var c := TowersConfig(difficulty);
    if difficulty != Easy then (c.tiles - c.mines) as real / c.tiles as real
    else
      var half := EASY_TRAP_VARY / 2.0;
      (1.0 - EASY_TRAP_VARY) * 0.75 + half * 0.5 + half * 0.25
  }

  lemma EasySurviveRate()
    ensures SurviveRate(Easy) == 93.0 / 160.0
  {
  }

  function Power(x: real, n: nat): (p: real)
    ensures x > 0.0 ==> p > 0.0
  {
    if n == 0 then 1.0 else x * Power(x, n - 1)
  }

  function FairTowers(difficulty: Difficulty, climbed: nat, edge: real): real {
    (1.0 - edge) / Power(SurviveRate(difficulty), climbed)
  }

  /** In hundredths. */
  function TowersMultiplier(difficulty: Difficulty, climbed: int, edge: real): int {
    if climbed <= 0 then 0 else Hundredths(FairTowers(difficulty, climbed, edge))
  }

  /** The odds of clearing a whole tower that a climb to the top is paid by. */
  lemma WholeTowerOdds(difficulty: Difficulty)
    ensures Power(SurviveRate(difficulty), TowersConfig(difficulty).rows)
         == match difficulty
            case Easy => Power(93.0 / 160.0, 10)
            case Medium => 1.0 / 59049.0
            case Hard => 1.0 / 1024.0
            case Expert => 1.0 / 729.0
  {
    if difficulty == Hard {
      assert Power(0.5, 5) == 1.0 / 32.0;
    } else if difficulty != Easy {
      assert Power(1.0 / 3.0, 4) == 1.0 / 81.0;
    }
  }

  function FloorCursor(row: nat): nat {
    (row + 1) * 40
  }

  function TrapCount(difficulty: Difficulty, stream: Stream, row: nat): (traps: nat)
    ensures 0 < traps < TowersConfig(difficulty).tiles
  {
    if difficulty == Easy then EasyTrapsOnFloor(stream(FloorCursor(row))) else TowersConfig(difficulty).mines
  }

  function Floor(difficulty: Difficulty, stream: Stream, row: nat): set<nat> {
    var tiles := TowersConfig(difficulty).tiles;
    AsSet(Shuffled(Positions(tiles), Indices(stream, FloorCursor(row), tiles))[..TrapCount(difficulty, stream, row)])
  }

  /** The trap layouts of the floors, bottom first. A forced result does not reach them. */
  function BuildTowersGrid(difficulty: Difficulty, stream: Stream, rows: nat): (grid: seq<set<nat>>)
    ensures |grid| == rows
  {
    seq(rows, row requires 0 <= row < rows => Floor(difficulty, stream, row))
  }

  /** Every floor has its number of traps, on its own tiles, and at least one safe tile. */
  lemma FloorHasSafeTile(difficulty: Difficulty, stream: Stream, row: nat)
    ensures var tiles := TowersConfig(difficulty).tiles;
            && Within(Floor(difficulty, stream, row), tiles)
            && |Floor(difficulty, stream, row)| == TrapCount(difficulty, stream, row) < tiles
            && exists tile: nat :: tile < tiles && tile !in Floor(difficulty, stream, row)
  {
    var tiles := TowersConfig(difficulty).tiles;
    var js := Indices(stream, FloorCursor(row), tiles);
    var traps := Floor(difficulty, stream, row);
    PlacementIsLayout(tiles, TrapCount(difficulty, stream, row), js);
    assert traps == Placement(tiles, TrapCount(difficulty, stream, row))(js);
    if forall tile: nat :: tile < tiles ==> tile in traps {
      FullSize(traps, tiles);
    }
  }

  lemma {:induction false} FullSize(traps: set<nat>, n: nat)
    requires forall tile: nat :: tile < n ==> tile in traps
    ensures |traps| >= n
  {
    if n > 0 {
      FullSize(traps - {n - 1}, n - 1);
    }
  }

  /** The expected value of f over one floor: each number of traps by its share, its layouts evenly. */
  function FloorTotal(difficulty: Difficulty, f: set<nat> -> real): real {
    SharesTotal(TowersConfig(difficulty).tiles, TrapShares(difficulty), f)
  }

  function SharesTotal(tiles: nat, shares: seq<TrapShare>, f: set<nat> -> real): real
    requires forall s <- shares :: s.traps <= tiles
  {
    if shares == [] then 0.0
    else
      shares[0].share / Choose(tiles, shares[0].traps) as real * Total(AllLayouts(tiles, shares[0].traps), f)
      + SharesTotal(tiles, shares[1..], f)
  }

  /** Pays v when the tile is safe. */
  function IfSafe(tile: nat, v: real): set<nat> -> real {
    traps => if tile in traps then 0.0 else v
  }

  function SafeShare(tiles: nat, shares: seq<TrapShare>): real
    requires tiles > 0
  {
    if shares == [] then 0.0
    else shares[0].share * ((tiles - shares[0].traps) as real / tiles as real) + SafeShare(tiles, shares[1..])
  }

  lemma LayoutsWithSafeTile(tiles: nat, traps: nat, tile: nat, v: real)
    requires tile < tiles && traps < tiles
    ensures Total(AllLayouts(tiles, traps), IfSafe(tile, v)) / Choose(tiles, traps) as real
         == v * ((tiles - traps) as real / tiles as real)
  {
    hide *;
    var layouts := AllLayouts(tiles, traps);
    forall traps' <- layouts
      ensures IfSafe(tile, v)(traps') == if Avoids({tile})(traps') then v else 0.0
    {
      SafeMeansAvoids(tile, v, traps');
    }
    TotalOfConstant(layouts, IfSafe(tile, v), Avoids({tile}), v);
    assert Within({tile}, tiles) by { OneWithin(tile, tiles); }
    LayoutsAvoiding(tiles, traps, {tile});
    Absorption(tiles, traps);
    ShareOfLayouts(v, Choose(tiles - 1, traps), Choose(tiles, traps), tiles - traps, tiles);
  }

  lemma SafeMeansAvoids(tile: nat, v: real, traps: set<nat>)
    ensures IfSafe(tile, v)(traps) == if Avoids({tile})(traps) then v else 0.0
  {
  }

  lemma OneWithin(tile: nat, tiles: nat)
    requires tile < tiles
    ensures Within({tile}, tiles)
  {
  }

  lemma ShareOfLayouts(v: real, safe: nat, all: nat, num: nat, den: nat)
    requires all * num == den * safe && den > 0 && all > 0
    ensures v * safe as real / all as real == v * (num as real / den as real)
  {
    RealOfProduct(all, num);
    RealOfProduct(den, safe);
    RealShare(v, all as real, safe as real, num as real, den as real, num as real / den as real);
  }

  lemma RealShare(v: real, a: real, s: real, n: real, d: real, q: real)
    requires a * n == d * s && d > 0.0 && a > 0.0 && q == n / d
    ensures v * s / a == v * q
  {
    QuotientTimes(n, d, q);
    assert s * d == a * q * d by { assert a * n == a * (q * d) == a * q * d; }
    RealCancelEqual(s, a * q, d);
    assert v * s == v * q * a by { assert v * s == v * (a * q) == v * q * a; }
    QuotientIs(v * s, a, v * q);
  }

  lemma QuotientTimes(n: real, d: real, q: real)
    requires d > 0.0 && q == n / d
    ensures n == q * d
  {
  }

  lemma {:induction false} SharesWithSafeTile(tiles: nat, shares: seq<TrapShare>, tile: nat, v: real)
    requires tile < tiles && forall s <- shares :: s.traps < tiles
    ensures SharesTotal(tiles, shares, IfSafe(tile, v)) == v * SafeShare(tiles, shares)
  {
    hide *;
    SharesUnfold(tiles, shares, IfSafe(tile, v));
    if shares != [] {
      SharesWithSafeTile(tiles, shares[1..], tile, v);
      LayoutsWithSafeTile(tiles, shares[0].traps, tile, v);
      SumOfShares(shares[0].share, Total(AllLayouts(tiles, shares[0].traps), IfSafe(tile, v)),
                  Choose(tiles, shares[0].traps) as real, v, (tiles - shares[0].traps) as real / tiles as real,
                  SafeShare(tiles, shares[1..]));
    }
  }

  lemma SharesUnfold(tiles: nat, shares: seq<TrapShare>, f: set<nat> -> real)
    requires tiles > 0 && forall s <- shares :: s.traps < tiles
    ensures shares == [] ==> SharesTotal(tiles, shares, f) == 0.0 == SafeShare(tiles, shares)
    ensures shares != [] ==>
              && Choose(tiles, shares[0].traps) > 0
              && SharesTotal(tiles, shares, f)
                 == shares[0].share / Choose(tiles, shares[0].traps) as real * Total(AllLayouts(tiles, shares[0].traps), f)
                    + SharesTotal(tiles, shares[1..], f)
              && SafeShare(tiles, shares)
                 == shares[0].share * ((tiles - shares[0].traps) as real / tiles as real) + SafeShare(tiles, shares[1..])
  {
    hide AllLayouts;
    hide Total;
    hide Choose;
  }

  lemma SumOfShares(share: real, t: real, c: real, v: real, safe: real, rest: real)
    requires c > 0.0 && t / c == v * safe
    ensures share / c * t + v * rest == v * (share * safe + rest)
  {
    assert share / c * t == share * (t / c);
  }

  /** The survive rate is the weighted share of (number of traps, layout) pairs that leave a given tile safe. */
  lemma SurviveRateIsSafeShare(difficulty: Difficulty, tile: nat, v: real)
    requires tile < TowersConfig(difficulty).tiles
    ensures FloorTotal(difficulty, IfSafe(tile, v)) == v * SurviveRate(difficulty)
  {
    hide *;
    FloorTotalIs(difficulty, IfSafe(tile, v));
    SharesWithSafeTile(TowersConfig(difficulty).tiles, TrapShares(difficulty), tile, v);
    SafeShareIsSurviveRate(difficulty);
  }

  lemma FloorTotalIs(difficulty: Difficulty, f: set<nat> -> real)
    ensures forall s <- TrapShares(difficulty) :: s.traps < TowersConfig(difficulty).tiles
    ensures FloorTotal(difficulty, f) == SharesTotal(TowersConfig(difficulty).tiles, TrapShares(difficulty), f)
  {
    hide SharesTotal;
  }

  lemma SafeShareIsSurviveRate(difficulty: Difficulty)
    ensures SafeShare(TowersConfig(difficulty).tiles, TrapShares(difficulty)) == SurviveRate(difficulty)
  {
    var shares, tiles := TrapShares(difficulty), TowersConfig(difficulty).tiles;
    if difficulty == Easy {
      assert shares[1..][1..] == [TrapShare(3, EASY_TRAP_VARY / 2.0)];
      assert SafeShare(4, shares[1..][1..]) == EASY_TRAP_VARY / 2.0 * 0.25;
      assert SafeShare(4, shares[1..]) == EASY_TRAP_VARY / 2.0 * 0.5 + EASY_TRAP_VARY / 2.0 * 0.25;
    } else {
      assert SafeShare(tiles, shares[1..]) == 0.0;
    }
  }
}
