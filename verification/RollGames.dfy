/** Dice, Coin Flip and Limbo: games settled by one draw. Rolls and multipliers are in hundredths. */
module RollGames {
  import opened Arithmetic
  import opened MinesGrid
  import opened Rng

  datatype Direction = Over | Under
  datatype Side = Heads | Tails

  function Min(a: real, b: real): real {
    if b < a then b else a
  }

  /** The lower bound first, so the upper one wins when they cross. */
  function ClampReal(value: real, min: real, max: real): real {
    Min(max, Larger(min, value))
  }

  function FairRoll(winChance: real, edge: real): int {
    if winChance <= 0.0 then 0 else Hundredths((1.0 - edge) / winChance)
  }

  function DiceWinChance(target: real, direction: Direction): real {
    if direction == Under then target / 100.0 else (100.0 - target) / 100.0
  }

  /** The draw spread over a band of the given width. */
  function Spread(float: real, width: real): (x: real)
    ensures 0.0 <= float < 1.0 && 0.0 <= width ==> 0.0 <= x <= width
    ensures float == 0.0 ==> x == 0.0
  {
    if 0.0 <= float < 1.0 && 0.0 <= width then ScaledFloat(float, width); float * width else float * width
  }

  lemma ScaledFloat(float: real, width: real)
    requires 0.0 <= float < 1.0 && 0.0 <= width
    ensures 0.0 <= float * width <= width
  {
    RealMulMonotone(0.0, float, width);
    RealMulMonotone(float, 1.0, width);
  }

  /** The roll before it is clamped to 0.00-99.99. */
  function RawRoll(target: real, direction: Direction, float: real, forced: Forced): int {
    var below := Hundredths(Spread(float, Larger(target - 0.01, 0.0)));
    match forced
    case Honest => Hundredths(float * 100.0)
    case Decided(true) =>
      if direction == Under then below else Hundredths(target + 0.01 + Spread(float, 99.99 - target))
    case Decided(false) =>
      if direction == Under then Hundredths(target + Spread(float, 99.99 - target)) else below
  }

  datatype DiceResult = DiceResult(won: bool, multiplier: int, roll: int)

  function ResolveDice(target: real, direction: Direction, draw: Draw, edge: real, forced: Forced): DiceResult {
    var roll := Clamp(RawRoll(target, direction, SeededFloat(draw), forced), 0, 9999);
    var x := roll as real / 100.0;
    var won := if direction == Under then x < target else x > target;
    DiceResult(won, if won then FairRoll(DiceWinChance(target, direction), edge) else 0, roll)
  }

  predicate ValidTarget(target: real) {
    2.0 <= target <= 98.0
  }

  /** The unrounded roll lies in its band, so the rounded one is within half a hundredth of it. */
  lemma RollBand(target: real, direction: Direction, float: real, win: bool)
    requires ValidTarget(target) && 0.0 <= float < 1.0
    ensures var roll := RawRoll(target, direction, float, Decided(win)) as real;
            if win == (direction == Under) then -0.5 < roll <= 100.0 * target - 0.5
            else if win then 100.0 * target + 0.5 < roll <= 10000.5
            else 100.0 * target - 0.5 < roll <= 9999.5
  {
    hide Hundredths;
    hide Spread;
    HundredthsError(Spread(float, Larger(target - 0.01, 0.0)));
    HundredthsError(target + 0.01 + Spread(float, 99.99 - target));
    HundredthsError(target + Spread(float, 99.99 - target));
  }

  /** Every decision but a forced loss on "under" is honoured for every draw and every target. */
  lemma DiceDecisionHonoured(target: real, direction: Direction, draw: Draw, edge: real, win: bool)
    requires ValidTarget(target) && (win || direction == Over)
    ensures ResolveDice(target, direction, draw, edge, Decided(win)).won == win
  {
    RollBand(target, direction, SeededFloat(draw), win);
    hide RawRoll;
    hide FairRoll;
  }

  /** A forced loss on "under" is honoured for every draw exactly when rounding does not lower the target. */
  lemma DiceForcedLossUnder(target: real, edge: real)
    requires ValidTarget(target)
    ensures (forall draw: Draw :: !ResolveDice(target, Under, draw, edge, Decided(false)).won) <==> Round2(target) >= target
  {
    DiceLowestRoll(target, edge);
    if Round2(target) >= target {
      forall draw: Draw
        ensures !ResolveDice(target, Under, draw, edge, Decided(false)).won
      {
        DiceRollAtLeastTarget(target, draw, edge);
      }
    }
  }

  lemma DiceLowestRoll(target: real, edge: real)
    requires ValidTarget(target)
    ensures ResolveDice(target, Under, 0, edge, Decided(false)).won <==> Round2(target) < target
  {
    hide FairRoll;
    assert SeededFloat(0) == 0.0;
    assert RawRoll(target, Under, 0.0, Decided(false)) == Hundredths(target);
    Round2Error(target);
  }

  lemma DiceRollAtLeastTarget(target: real, draw: Draw, edge: real)
    requires ValidTarget(target) && Round2(target) >= target
    ensures !ResolveDice(target, Under, draw, edge, Decided(false)).won
  {
    hide FairRoll;
    var float := SeededFloat(draw);
    Round2Monotone(target, target + Spread(float, 99.99 - target));
    assert RawRoll(target, Under, float, Decided(false)) >= Hundredths(target);
  }

  /** A forced loss that wins: the target 50.004 with the lowest draw rolls 50.00. */
  lemma DiceForcedLossCanWin()
    ensures ResolveDice(50.004, Under, 0, 0.02, Decided(false)) == DiceResult(true, 196, 5000)
  {
    assert SeededFloat(0) == 0.0;
    assert Hundredths(50.004) == 5000;
    assert 1.95 < (1.0 - 0.02) / (50.004 / 100.0) < 1.961;
  }

  /** So a target in whole hundredths has every decision honoured. */
  lemma WholeTargetIsHonoured(hundredths: int, direction: Direction, draw: Draw, edge: real, win: bool)
    requires 200 <= hundredths <= 9800
    ensures ResolveDice(hundredths as real / 100.0, direction, draw, edge, Decided(win)).won == win
  {
    var target := hundredths as real / 100.0;
    if win || direction == Over {
      DiceDecisionHonoured(target, direction, draw, edge, win);
    } else {
      Round2Exact(hundredths);
      DiceForcedLossUnder(target, edge);
    }
  }

  /** The draws that win an honest roll. */
  function WinningDraws(target: real, direction: Direction): set<nat> {
    set v: nat | v < DRAWS && ResolveDice(target, direction, v, 0.0, Honest).won
  }

  function Ceiling(x: real): int {
    if x == x.Floor as real then x.Floor else x.Floor + 1
  }

  /** An honest roll wins below, or from, this many ten-thousandths of the range. */
  function DiceBoundary(target: real, direction: Direction): real {
    if direction == Under then Ceiling(100.0 * target) as real - 0.5 else (100.0 * target).Floor as real + 0.5
  }

  lemma HonestRoll(target: real, direction: Direction, v: Draw)
    requires ValidTarget(target)
    ensures ResolveDice(target, direction, v, 0.0, Honest).won
       <==> ((v as real < DRAWS as real * DiceBoundary(target, direction) / 10000.0) == (direction == Under))
  {
    hide FairRoll;
    var x := 100.0 * target;
    var raw := Hundredths(SeededFloat(v) * 100.0);
    assert 0 <= raw <= 10000;
    assert raw as real < x <==> raw < Ceiling(x);
    assert raw as real > x <==> raw > x.Floor;
    assert raw < Ceiling(x) <==> SeededFloat(v) * 10000.0 < Ceiling(x) as real - 0.5;
    assert raw > x.Floor <==> SeededFloat(v) * 10000.0 >= x.Floor as real + 0.5;
  }

  lemma BoundaryInRange(target: real, direction: Direction)
    requires ValidTarget(target)
    ensures 0.0 <= DRAWS as real * DiceBoundary(target, direction) / 10000.0 <= DRAWS as real
  {
  }

  lemma UnderCount(target: real)
    requires ValidTarget(target)
    ensures var bound := DRAWS as real * DiceBoundary(target, Under) / 10000.0;
            bound <= |WinningDraws(target, Under)| as real < bound + 1.0
  {
    forall v: Draw
      ensures v in WinningDraws(target, Under) <==> v as real < DRAWS as real * DiceBoundary(target, Under) / 10000.0
    {
      HonestRoll(target, Under, v);
    }
    BoundaryInRange(target, Under);
    hide ResolveDice;
    hide DiceBoundary;
    DrawsBelow(DRAWS as real * DiceBoundary(target, Under) / 10000.0, WinningDraws(target, Under));
  }

  lemma OverCount(target: real)
    requires ValidTarget(target)
    ensures var bound := DRAWS as real * DiceBoundary(target, Over) / 10000.0;
            DRAWS as real - bound - 1.0 < |WinningDraws(target, Over)| as real <= DRAWS as real - bound
  {
    var wins := WinningDraws(target, Over);
    var losses := Interval(0, DRAWS) - wins;
    forall v: Draw
      ensures v in losses <==> v as real < DRAWS as real * DiceBoundary(target, Over) / 10000.0
    {
      HonestRoll(target, Over, v);
    }
    BoundaryInRange(target, Over);
    hide ResolveDice;
    hide DiceBoundary;
    DrawsBelow(DRAWS as real * DiceBoundary(target, Over) / 10000.0, losses);
    IntervalSize(0, DRAWS);
    assert wins <= Interval(0, DRAWS);
    assert |losses| == DRAWS - |wins|;
  }

  /** By how many draws rounding the roll moves the wins away from the advertised chance. */
  function DiceExcess(target: real, direction: Direction): real {
    var gap := DiceBoundary(target, direction) - 100.0 * target;
    DRAWS as real * (if direction == Under then gap else -gap) / 10000.0
  }

  /** What a caller can check: rounding does not move the target towards the winning side; a half counts for neither. */
  predicate RoundsFairly(target: real, direction: Direction) {
    if direction == Under then Round2(target) >= target
    else Round2(target) <= target || 100.0 * target - (100.0 * target).Floor as real == 0.5
  }

  /**
   * For every target the draws that win are, to within one draw, the advertised chance plus the excess, and the excess is
   * positive exactly if rounding moves the target towards the winning side. So the advertised chance is kept, to within one
   * draw, exactly by the targets that round fairly.
   */
  lemma DiceWinsAsAdvertised(target: real, direction: Direction)
    requires ValidTarget(target)
    ensures var over := |WinningDraws(target, direction)| as real - DiceWinChance(target, direction) * DRAWS as real;
            var excess := DiceExcess(target, direction);
            && (direction == Under ==> excess <= over < excess + 1.0)
            && (direction == Over ==> excess - 1.0 < over <= excess)
            && -0.5 * DRAWS as real / 10000.0 <= excess <= 0.5 * DRAWS as real / 10000.0
    ensures DiceExcess(target, direction) <= 0.0 <==> RoundsFairly(target, direction)
  {
    hide *;
    ExcessIsShift(target, direction);
    ExcessSign(target, direction);
    if direction == Under {
      UnderCount(target);
    } else {
      OverCount(target);
    }
  }

  lemma ExcessIsShift(target: real, direction: Direction)
    requires ValidTarget(target)
    ensures var bound := DRAWS as real * DiceBoundary(target, direction) / 10000.0;
            DiceWinChance(target, direction) * DRAWS as real + DiceExcess(target, direction)
            == if direction == Under then bound else DRAWS as real - bound
    ensures -0.5 * DRAWS as real / 10000.0 <= DiceExcess(target, direction) <= 0.5 * DRAWS as real / 10000.0
  {
  }

  lemma ExcessSign(target: real, direction: Direction)
    requires ValidTarget(target)
    ensures DiceExcess(target, direction) <= 0.0 <==> RoundsFairly(target, direction)
  {
    var x := 100.0 * target;
    RoundingSide(x);
    SignOfShare(if direction == Under then DiceBoundary(target, direction) - x else x - DiceBoundary(target, direction));
    assert target * 100.0 == x;
    assert Round2(target) >= target <==> (x + 0.5).Floor as real >= x;
    assert Round2(target) <= target <==> (x + 0.5).Floor as real <= x;
    hide Ceiling;
  }

  lemma RoundingSide(x: real)
    ensures Ceiling(x) as real - 0.5 <= x <==> (x + 0.5).Floor as real >= x
    ensures x <= x.Floor as real + 0.5 <==> (x + 0.5).Floor as real <= x || x - x.Floor as real == 0.5
  {
    var n := x.Floor;
    var rounded := if x - n as real < 0.5 then n else n + 1;
    FloorIs(x + 0.5, rounded);
    RoundedSide(x, n, rounded, Ceiling(x));
  }

  lemma FloorIs(x: real, n: int)
    requires n as real <= x < n as real + 1.0
    ensures x.Floor == n
  {
  }

  lemma RoundedSide(x: real, floor: int, rounded: int, ceiling: int)
    requires floor as real <= x < floor as real + 1.0
    requires ceiling == if x == floor as real then floor else floor + 1
    requires rounded == if x - floor as real < 0.5 then floor else floor + 1
    ensures ceiling as real - 0.5 <= x <==> rounded as real >= x
    ensures x <= floor as real + 0.5 <==> rounded as real <= x || x - floor as real == 0.5
  {
  }

  lemma SignOfShare(gap: real)
    ensures DRAWS as real * gap / 10000.0 <= 0.0 <==> gap <= 0.0
  {
  }

  /** A valid target whose wins exceed the advertised chance by more than forty thousand million of the 2^52 draws. */
  lemma DiceCanWinMore()
    ensures ValidTarget(50.004) && !RoundsFairly(50.004, Under)
    ensures |WinningDraws(50.004, Under)| as real > DiceWinChance(50.004, Under) * DRAWS as real + 40_000_000_000.0
  {
    DiceWinsAsAdvertised(50.004, Under);
    assert Ceiling(5000.4) == 5001;
    assert Hundredths(50.004) == 5000;
    hide WinningDraws;
  }

  /** A target in whole hundredths wins on at most its chance, and on no less than half a hundredth of a percent below it. */
  lemma WholeTargetWins(hundredths: int, direction: Direction)
    requires 200 <= hundredths <= 9800
    ensures var target := hundredths as real / 100.0;
            var chance := DiceWinChance(target, direction);
            var wins := |WinningDraws(target, direction)| as real;
            chance * DRAWS as real - DRAWS as real / 20000.0 - 1.0 <= wins <= chance * DRAWS as real
  {
    var target := hundredths as real / 100.0;
    WholeTargetExcess(hundredths, direction);
    hide *;
    DiceWinsAsAdvertised(target, direction);
  }

  lemma WholeTargetExcess(hundredths: int, direction: Direction)
    requires 200 <= hundredths <= 9800
    ensures ValidTarget(hundredths as real / 100.0)
    ensures DiceExcess(hundredths as real / 100.0, direction) == -(DRAWS as real / 20000.0) < -1.0
  {
    assert 100.0 * (hundredths as real / 100.0) == hundredths as real;
  }

  /** The chance that a bet on the target is sold with. */
  function AdvertisedChance(target: real, direction: Direction): real {
    if direction == Under then target / 100.0 else 1.0 - target / 100.0
  }

  /** A win pays the inverse of that chance less the edge, rounded, however the roll was decided; a loss pays nothing. */
  lemma DicePaysFair(target: real, direction: Direction, draw: Draw, edge: real, forced: Forced)
    requires ValidTarget(target)
    ensures var r := ResolveDice(target, direction, draw, edge, forced);
            r.multiplier == if r.won then Hundredths((1.0 - edge) / AdvertisedChance(target, direction)) else 0
  {
    hide RawRoll;
    hide Hundredths;
    assert DiceWinChance(target, direction) == AdvertisedChance(target, direction);
  }

  /** What an honest roll pays on a unit stake, draw by draw, in hundredths. */
  function DicePays(target: real, direction: Direction, edge: real): nat -> int {
    (v: nat) => if v < DRAWS then ResolveDice(target, direction, v, edge, Honest).multiplier else 0
  }

  /** All draws together pay the fair multiplier once for each draw that wins. */
  lemma DiceTotal(target: real, direction: Direction, edge: real)
    requires ValidTarget(target)
    ensures SumBelow(DRAWS, DicePays(target, direction, edge))
         == Hundredths((1.0 - edge) / AdvertisedChance(target, direction)) * |WinningDraws(target, direction)|
  {
    var m := Hundredths((1.0 - edge) / AdvertisedChance(target, direction));
    forall v: nat | v < DRAWS
      ensures DicePays(target, direction, edge)(v) == if v in WinningDraws(target, direction) then m else 0
    {
      DicePaysFair(target, direction, v, edge, Honest);
      WinsAtAnyEdge(target, direction, v, edge);
    }
    hide ResolveDice;
    hide Hundredths;
    hide AdvertisedChance;
    hide SumBelow;
    SumOfWins(DRAWS, DicePays(target, direction, edge), WinningDraws(target, direction), m);
  }

  lemma WinsAtAnyEdge(target: real, direction: Direction, v: Draw, edge: real)
    ensures ResolveDice(target, direction, v, edge, Honest).won == ResolveDice(target, direction, v, 0.0, Honest).won
  {
    hide FairRoll;
    hide RawRoll;
  }

  /**
   * Over all draws an honest roll pays (1 - edge) for each of them, plus the multiplier on the excess of its wins, to within the
   * rounding of the multiplier and one draw: for every valid target, direction and edge.
   */
  lemma DiceReturn(target: real, direction: Direction, edge: real)
    requires ValidTarget(target)
    ensures var paid := SumBelow(DRAWS, DicePays(target, direction, edge)) as real / 100.0;
            var m := Round2((1.0 - edge) / AdvertisedChance(target, direction));
            var slack := 0.005 * AdvertisedChance(target, direction) * DRAWS as real;
            var gap := paid - (1.0 - edge) * DRAWS as real - m * DiceExcess(target, direction);
            if direction == Under then Min(0.0, m) - slack <= gap <= Larger(0.0, m) + slack
            else -Larger(0.0, m) - slack <= gap <= slack - Min(0.0, m)
  {
    hide *;
    ChanceIs(target, direction);
    var m := Round2((1.0 - edge) / AdvertisedChance(target, direction));
    var wins, chance := |WinningDraws(target, direction)| as real, AdvertisedChance(target, direction);
    DiceWinsAsAdvertised(target, direction);
    DiceTotal(target, direction, edge);
    PaidIs(Hundredths((1.0 - edge) / chance), |WinningDraws(target, direction)|, (1.0 - edge) / chance);
    MultiplierPays(chance, edge);
    assert DRAWS as real > 0.0 by { DrawsArePositive(); }
    ReturnGap(wins, chance, DRAWS as real, DiceExcess(target, direction), m, 1.0 - edge, direction);
  }

  lemma DrawsArePositive()
    ensures DRAWS > 0
  {
  }

  lemma ChanceIs(target: real, direction: Direction)
    requires ValidTarget(target)
    ensures DiceWinChance(target, direction) == AdvertisedChance(target, direction) > 0.0
  {
  }

  lemma PaidIs(hundredths: int, wins: nat, fair: real)
    requires hundredths == Hundredths(fair)
    ensures (hundredths * wins) as real / 100.0 == wins as real * Round2(fair)
  {
    RealOfProduct(hundredths, wins);
    hide Hundredths;
  }

  lemma MultiplierPays(chance: real, edge: real)
    requires chance > 0.0
    ensures -0.005 * chance <= chance * Round2((1.0 - edge) / chance) - (1.0 - edge) <= 0.005 * chance
  {
    Round2Error((1.0 - edge) / chance);
    Quotient(1.0 - edge, chance, (1.0 - edge) / chance);
    hide *;
    NearlyTimes((1.0 - edge) / chance, Round2((1.0 - edge) / chance), chance, 1.0 - edge);
  }

  lemma NearlyTimes(fair: real, m: real, chance: real, keep: real)
    requires chance > 0.0 && fair * chance == keep && fair - 0.005 <= m <= fair + 0.005
    ensures -0.005 * chance <= chance * m - keep <= 0.005 * chance
  {
    SlackIs(m - fair, 0.005, chance);
    Difference(m, fair, chance);
    TimesIs(0.005, chance);
    TimesIs(m - fair, chance);
  }

  lemma Difference(x: real, y: real, factor: real)
    ensures Times(x - y, factor) == factor * x - y * factor
  {
  }

  lemma ReturnGap(wins: real, chance: real, all: real, excess: real, m: real, keep: real, direction: Direction)
    requires all > 0.0 && -0.005 * chance <= chance * m - keep <= 0.005 * chance
    requires direction == Under ==> 0.0 <= wins - chance * all - excess < 1.0
    requires direction == Over ==> -1.0 < wins - chance * all - excess <= 0.0
    ensures var gap, slack := wins * m - keep * all - m * excess, 0.005 * chance * all;
            if direction == Under then Min(0.0, m) - slack <= gap <= Larger(0.0, m) + slack
            else -Larger(0.0, m) - slack <= gap <= slack - Min(0.0, m)
  {
    var over, off := wins - chance * all - excess, chance * m - keep;
    GapIs(wins, chance, all, excess, m, keep);
    SlackIs(off, 0.005 * chance, all);
    BetweenZeroAndOne(if direction == Under then over else -over, m);
    NegatedTimes(over, m);
    TimesIs(over, m);
    TimesIs(off, all);
    TimesIs(0.005 * chance, all);
    var gap := wins * m - keep * all - m * excess;
    assert gap == Times(over, m) + Times(off, all);
    hide *;
    assert -Times(0.005 * chance, all) <= Times(off, all) <= Times(0.005 * chance, all);
  }

  lemma SlackIs(off: real, bound: real, all: real)
    requires all > 0.0 && -bound <= off <= bound
    ensures -Times(bound, all) <= Times(off, all) <= Times(bound, all)
  {
    RealMulMonotone(-bound, off, all);
    RealMulMonotone(off, bound, all);
    NegatedTimes(bound, all);
  }

  lemma GapIs(wins: real, chance: real, all: real, excess: real, m: real, keep: real)
    ensures wins * m - keep * all - m * excess == (wins - chance * all - excess) * m + (chance * m - keep) * all
  {
    var a := chance * all;
    assert (wins - a - excess) * m == wins * m - a * m - excess * m;
    assert a * m == chance * m * all;
    assert (chance * m - keep) * all == chance * m * all - keep * all;
  }

  lemma BetweenZeroAndOne(x: real, m: real)
    requires 0.0 <= x <= 1.0
    ensures Min(0.0, m) <= Times(x, m) <= Larger(0.0, m)
  {
    NegatedTimes(x, m);
    ShareOf(x, if m >= 0.0 then m else -m);
    NegatedFactor(x, m);
    hide Times;
  }

  lemma ShareOf(x: real, m: real)
    requires 0.0 <= x <= 1.0 && m >= 0.0
    ensures 0.0 <= Times(x, m) <= m
  {
    RealMulMonotone(0.0, x, m);
    RealMulMonotone(x, 1.0, m);
  }

  lemma NegatedFactor(x: real, m: real)
    ensures Times(x, -m) == -Times(x, m)
  {
  }

  lemma NegatedTimes(x: real, m: real)
    ensures Times(-x, m) == -Times(x, m)
  {
  }

  datatype CoinResult = CoinResult(won: bool, multiplier: int, side: Side)

  function ResolveCoinFlip(pick: Side, draw: Draw, edge: real, forced: Forced): CoinResult {
    var natural := if SeededFloat(draw) < 0.5 then Heads else Tails;
    var opposite := if pick == Heads then Tails else Heads;
    var side := match forced
      case Honest => natural
      case Decided(win) => if win then pick else opposite;
    CoinResult(side == pick, if side == pick then FairRoll(0.5, edge) else 0, side)
  }

  function CoinWins(pick: Side): set<nat> {
    set v: nat | v < DRAWS && ResolveCoinFlip(pick, v, 0.0, Honest).won
  }

  /** A decision is honoured, and an honest flip wins on exactly half of the draws. */
  lemma CoinFlipIsEven(pick: Side, draw: Draw, edge: real, win: bool)
    ensures ResolveCoinFlip(pick, draw, edge, Decided(win)).won == win
    ensures 2 * |CoinWins(pick)| == DRAWS
  {
    if pick == Heads {
      assert CoinWins(pick) == Interval(0, DRAWS / 2);
      IntervalSize(0, DRAWS / 2);
    } else {
      assert CoinWins(pick) == Interval(DRAWS / 2, DRAWS);
      IntervalSize(DRAWS / 2, DRAWS);
    }
  }

  /** What an honest flip pays on a unit stake, draw by draw, in hundredths. */
  function CoinPays(pick: Side, edge: real): nat -> int {
    (v: nat) => if v < DRAWS then ResolveCoinFlip(pick, v, edge, Honest).multiplier else 0
  }

  /** A win pays twice the stake less the edge, rounded, however it was decided; over all draws a flip returns 1 - edge but for that. */
  lemma CoinReturn(pick: Side, draw: Draw, edge: real, forced: Forced)
    ensures var r := ResolveCoinFlip(pick, draw, edge, forced);
            r.multiplier == if r.won then Hundredths(2.0 * (1.0 - edge)) else 0
    ensures 2 * SumBelow(DRAWS, CoinPays(pick, edge)) == DRAWS * Hundredths(2.0 * (1.0 - edge))
    ensures var paid, all := SumBelow(DRAWS, CoinPays(pick, edge)) as real / 100.0, DRAWS as real;
            (1.0 - edge) * all - 0.0025 * all <= paid <= (1.0 - edge) * all + 0.0025 * all
  {
    HundredthsError(2.0 * (1.0 - edge));
    DrawsArePositive();
    hide *;
    var m := Hundredths(2.0 * (1.0 - edge));
    CoinFlipIsEven(pick, draw, edge, true);
    CoinWinPays(pick, draw, edge, forced);
    forall v: nat | v < DRAWS
      ensures CoinPays(pick, edge)(v) == if v in CoinWins(pick) then m else 0
    {
      CoinPaysAt(pick, edge, v);
    }
    CoinWinsAreDraws(pick);
    SumOfWins(DRAWS, CoinPays(pick, edge), CoinWins(pick), m);
    TwiceAsMany(SumBelow(DRAWS, CoinPays(pick, edge)), m, |CoinWins(pick)|, DRAWS);
    CoinShare(SumBelow(DRAWS, CoinPays(pick, edge)) as real, m as real, DRAWS as real, 1.0 - edge);
  }

  lemma CoinPaysAt(pick: Side, edge: real, v: nat)
    requires v < DRAWS
    ensures CoinPays(pick, edge)(v) == if v in CoinWins(pick) then Hundredths(2.0 * (1.0 - edge)) else 0
  {
    CoinWinPays(pick, v, edge, Honest);
    hide ResolveCoinFlip;
    hide Hundredths;
  }

  lemma CoinWinsAreDraws(pick: Side)
    ensures forall v <- CoinWins(pick) :: v < DRAWS
  {
    hide ResolveCoinFlip;
  }

  lemma TwiceAsMany(total: int, m: int, wins: nat, all: nat)
    requires total == m * wins && 2 * wins == all
    ensures 2 * total == all * m && 2.0 * total as real == all as real * m as real
  {
    RealOfProduct(all, m);
  }

  lemma Triple(x: real, y: real, z: real)
    ensures x * y * z == x * (y * z)
  {
  }

  lemma CoinShare(total: real, m: real, all: real, keep: real)
    requires 2.0 * total == all * m && 100.0 * (2.0 * keep) - 0.5 < m <= 100.0 * (2.0 * keep) + 0.5 && all > 0.0
    ensures keep * all - 0.0025 * all <= total / 100.0 <= keep * all + 0.0025 * all
  {
    SlackIs(m - 200.0 * keep, 0.5, all);
    Difference(m, 200.0 * keep, all);
    TimesIs(0.5, all);
    TimesIs(m - 200.0 * keep, all);
    Triple(200.0, keep, all);
  }

  lemma HalfChance(edge: real)
    ensures (1.0 - edge) / 0.5 == 2.0 * (1.0 - edge)
  {
  }

  lemma CoinWinPays(pick: Side, v: Draw, edge: real, forced: Forced)
    ensures var r := ResolveCoinFlip(pick, v, edge, forced);
            r.multiplier == if r.won then Hundredths(2.0 * (1.0 - edge)) else 0
    ensures ResolveCoinFlip(pick, v, edge, Honest).won == ResolveCoinFlip(pick, v, 0.0, Honest).won
  {
    HalfChance(edge);
    hide Hundredths;
  }

  datatype LimboResult = LimboResult(won: bool, multiplier: int, result: int)

  function LimboTarget(target: real, maxMultiplier: real): real {
    ClampReal(target, 1.01, maxMultiplier)
  }

  function LimboDraw(target: real, float: real, edge: real, forced: Forced, maxMultiplier: real): int {
    match forced
    case Honest => Hundredths(ClampReal((1.0 - edge) / Larger(float, 0.000000001), 1.0, maxMultiplier))
    case Decided(true) => Hundredths(ClampReal(target + Spread(float, maxMultiplier - target), target, maxMultiplier))
    case Decided(false) => Hundredths(ClampReal(1.0 + Spread(float, target - 1.01), 1.0, target - 0.01))
  }

  function ResolveLimbo(selected: real, draw: Draw, edge: real, forced: Forced, maxMultiplier: real): LimboResult {
    var target := LimboTarget(selected, maxMultiplier);
    var result := LimboDraw(target, SeededFloat(draw), edge, forced, maxMultiplier);
    var won := result as real / 100.0 >= target;
    LimboResult(won, if won then Hundredths(target) else 0, result)
  }

  /** A forced loss is honoured for every draw, whatever the target. */
  lemma LimboForcedLoss(selected: real, draw: Draw, edge: real, maxMultiplier: real)
    ensures !ResolveLimbo(selected, draw, edge, Decided(false), maxMultiplier).won
  {
    hide Hundredths;
    var target := LimboTarget(selected, maxMultiplier);
    HundredthsError(ClampReal(1.0 + Spread(SeededFloat(draw), target - 1.01), 1.0, target - 0.01));
  }

  /** A forced win is honoured for every draw exactly when rounding does not lower the clamped target. */
  lemma LimboForcedWin(selected: real, edge: real, maxMultiplier: real)
    ensures (forall draw: Draw :: ResolveLimbo(selected, draw, edge, Decided(true), maxMultiplier).won)
       <==> Round2(LimboTarget(selected, maxMultiplier)) >= LimboTarget(selected, maxMultiplier)
  {
    var target := LimboTarget(selected, maxMultiplier);
    LimboWinRolls(target, 0, edge, maxMultiplier);
    assert SeededFloat(0) == 0.0;
    assert ResolveLimbo(selected, 0, edge, Decided(true), maxMultiplier).result == Hundredths(target);
    forall draw: Draw
      ensures ResolveLimbo(selected, draw, edge, Decided(true), maxMultiplier).result >= Hundredths(target)
    {
      LimboWinRolls(target, draw, edge, maxMultiplier);
    }
  }

  lemma LimboWinRolls(target: real, draw: Draw, edge: real, maxMultiplier: real)
    requires target <= maxMultiplier
    ensures LimboDraw(target, SeededFloat(draw), edge, Decided(true), maxMultiplier) >= Hundredths(target)
    ensures SeededFloat(draw) == 0.0 ==> LimboDraw(target, SeededFloat(draw), edge, Decided(true), maxMultiplier) == Hundredths(target)
  {
    Round2Monotone(target, ClampReal(target + Spread(SeededFloat(draw), maxMultiplier - target), target, maxMultiplier));
  }

  /** A forced win that loses: the target 1.504 with the lowest draw yields 1.50. */
  lemma LimboForcedWinCanLose()
    ensures ResolveLimbo(1.504, 0, 0.02, Decided(true), 100.0) == LimboResult(false, 0, 150)
  {
    assert SeededFloat(0) == 0.0;
    assert Hundredths(1.504) == 150;
  }

  /** So with target and cap in whole hundredths every decision is honoured. */
  lemma WholeLimboTargetIsHonoured(target: int, cap: int, draw: Draw, edge: real, win: bool)
    ensures ResolveLimbo(target as real / 100.0, draw, edge, Decided(win), cap as real / 100.0).won == win
  {
    var selected, maxMultiplier := target as real / 100.0, cap as real / 100.0;
    if win {
      var raised := if target < 101 then 101 else target;
      var clamped := if cap < raised then cap else raised;
      assert LimboTarget(selected, maxMultiplier) == clamped as real / 100.0;
      Round2Exact(clamped);
      LimboForcedWin(selected, edge, maxMultiplier);
    } else {
      LimboForcedLoss(selected, draw, edge, maxMultiplier);
    }
  }

  function HonestLimboWins(selected: real, edge: real, maxMultiplier: real): set<nat> {
    set v: nat | v < DRAWS && ResolveLimbo(selected, v, edge, Honest, maxMultiplier).won
  }

  /** The least number of hundredths that reaches x. */
  function HundredthsUp(x: real): (n: int)
    ensures 100.0 * x <= n as real < 100.0 * x + 1.0
  {
    -(-(100.0 * x)).Floor
  }

  /** Half a hundredth below them, which is all a result needs to be rounded up to the target. */
  function NearTarget(target: real): real {
    (HundredthsUp(target) as real - 0.5) / 100.0
  }

  lemma NearTargetBounds(target: real)
    ensures target - 0.005 <= NearTarget(target) < target + 0.005
    ensures target >= 1.01 ==> NearTarget(target) > 1.0
  {
  }

  /** The honest result before it is rounded. */
  function LimboQuotient(float: real, edge: real): real {
    (1.0 - edge) / Larger(float, 0.000000001)
  }

  lemma RoundsTo(x: real, target: real)
    ensures Hundredths(x) as real / 100.0 >= target <==> x >= NearTarget(target)
  {
    var n := HundredthsUp(target);
    assert Hundredths(x) as real / 100.0 >= target <==> Hundredths(x) >= n;
    assert Hundredths(x) >= n <==> x * 100.0 + 0.5 >= n as real;
    hide Hundredths;
    hide HundredthsUp;
  }

  lemma ClampReaches(q: real, s: real, cap: real)
    requires s > 1.0
    ensures ClampReal(q, 1.0, cap) >= s <==> q >= s && cap >= s
  {
  }

  lemma QuotientIsShare(float: real, edge: real, s: real)
    requires s > 0.0
    ensures LimboQuotient(float, edge) >= s <==> float * s <= 1.0 - edge && s * 0.000000001 <= 1.0 - edge
  {
    var u := Larger(float, 0.000000001);
    Quotient(1.0 - edge, u, LimboQuotient(float, edge));
    Compare(LimboQuotient(float, edge), s, u);
    FloorOfDraw(float, u, s, 1.0 - edge);
    hide LimboQuotient;
  }

  /** An honest result can only come up to a target within the cap and within (1 - edge) * 10^9. */
  predicate Reachable(s: real, edge: real, maxMultiplier: real) {
    s <= maxMultiplier && s * 0.000000001 <= 1.0 - edge
  }

  lemma HonestLimbo(selected: real, maxMultiplier: real, v: Draw, edge: real)
    requires LimboTarget(selected, maxMultiplier) >= 1.01
    ensures var s := NearTarget(LimboTarget(selected, maxMultiplier));
            ResolveLimbo(selected, v, edge, Honest, maxMultiplier).won <==> Reachable(s, edge, maxMultiplier) && SeededFloat(v) * s <= 1.0 - edge
  {
    var target := LimboTarget(selected, maxMultiplier);
    var q, s := LimboQuotient(SeededFloat(v), edge), NearTarget(target);
    HonestResult(selected, maxMultiplier, v, edge);
    hide *;
    ReachableIs(s, edge, maxMultiplier);
    NearTargetBounds(target);
    ClampReaches(q, s, maxMultiplier);
    RoundsTo(ClampReal(q, 1.0, maxMultiplier), target);
    QuotientIsShare(SeededFloat(v), edge, s);
  }

  lemma ReachableIs(s: real, edge: real, maxMultiplier: real)
    ensures Reachable(s, edge, maxMultiplier) <==> s <= maxMultiplier && s * 0.000000001 <= 1.0 - edge
  {
  }

  lemma HonestResult(selected: real, maxMultiplier: real, v: Draw, edge: real)
    ensures ResolveLimbo(selected, v, edge, Honest, maxMultiplier).won
       <==> Hundredths(ClampReal(LimboQuotient(SeededFloat(v), edge), 1.0, maxMultiplier)) as real / 100.0 >= LimboTarget(selected, maxMultiplier)
  {
    hide Hundredths;
    hide SeededFloat;
  }

  lemma FloorOfDraw(float: real, u: real, s: real, keep: real)
    requires s > 0.0 && u == Larger(float, 0.000000001)
    ensures s * u <= keep <==> float * s <= keep && s * 0.000000001 <= keep
  {
    RealMulMonotone(float, u, s);
    RealMulMonotone(0.000000001, u, s);
  }

  lemma Quotient(a: real, b: real, q: real)
    requires b > 0.0 && q == a / b
    ensures q * b == a
  {
  }

  /** Scaling by a positive factor keeps the order. */
  lemma Compare(x: real, y: real, factor: real)
    requires factor > 0.0
    ensures x >= y <==> x * factor >= y * factor
  {
    if x >= y {
      RealMulMonotone(y, x, factor);
    } else {
      RealMulStrict(x, y, factor);
    }
  }

  /**
   * The draws that win an honest round at a target from 1.01 up are, to within one, the share that reaches half a hundredth below
   * the next whole hundredth; no draw wins where the cap or the least draw keep every result below that.
   */
  lemma HonestLimboShare(selected: real, edge: real, maxMultiplier: real)
    requires edge >= 0.0 && LimboTarget(selected, maxMultiplier) >= 1.01
    ensures var s := NearTarget(LimboTarget(selected, maxMultiplier));
            var wins, all := |HonestLimboWins(selected, edge, maxMultiplier)| as real, DRAWS as real;
            if Reachable(s, edge, maxMultiplier) then (1.0 - edge) * all < wins * s <= (1.0 - edge) * all + s else wins == 0.0
  {
    hide *;
    var s, wins := NearTarget(LimboTarget(selected, maxMultiplier)), HonestLimboWins(selected, edge, maxMultiplier);
    NearTargetBounds(LimboTarget(selected, maxMultiplier));
    ReachableIs(s, edge, maxMultiplier);
    forall v: nat
      ensures v in wins <==> v < DRAWS && Reachable(s, edge, maxMultiplier) && SeededFloat(v) * s <= 1.0 - edge
    {
      LimboWinIs(selected, edge, maxMultiplier, v);
      if v < DRAWS {
        HonestLimbo(selected, maxMultiplier, v, edge);
      }
    }
    if Reachable(s, edge, maxMultiplier) {
      LimboShareOfDraws(s, edge, wins);
    } else {
      assert wins == {};
    }
  }

  lemma LimboShareOfDraws(s: real, edge: real, wins: set<nat>)
    requires 1.0 < s && 0.0 <= edge <= 1.0
    requires forall v: nat :: v in wins <==> v < DRAWS && SeededFloat(v) * s <= 1.0 - edge
    ensures (1.0 - edge) * DRAWS as real < |wins| as real * s <= (1.0 - edge) * DRAWS as real + s
  {
    hide *;
    LimboBoundIs(s, edge);
    forall v: nat
      ensures v in wins <==> v < DRAWS && v as real <= LimboBound(s, edge)
    {
      if v < DRAWS {
        DrawReaches(v, s, edge);
      }
    }
    DrawsUpTo(LimboBound(s, edge), wins);
    CountTimes(|wins| as real, LimboBound(s, edge), s);
    TimesIs(|wins| as real, s);
    TimesIs(1.0 - edge, DRAWS as real);
  }

  /** An honest round wins up to this draw. */
  function LimboBound(s: real, edge: real): real {
    if s <= 0.0 then 0.0 else (1.0 - edge) * DRAWS as real / s
  }

  lemma LimboBoundIs(s: real, edge: real)
    requires 1.0 < s && 0.0 <= edge <= 1.0
    ensures Times(LimboBound(s, edge), s) == Times(1.0 - edge, DRAWS as real)
    ensures 0.0 <= LimboBound(s, edge) < DRAWS as real
  {
    Quotient((1.0 - edge) * DRAWS as real, s, LimboBound(s, edge));
    TimesIs(LimboBound(s, edge), s);
    TimesIs(1.0 - edge, DRAWS as real);
    assert DRAWS > 0;
    hide *;
    BoundBelowAll(1.0 - edge, s, DRAWS as real, LimboBound(s, edge));
  }

  lemma DrawReaches(v: Draw, s: real, edge: real)
    requires 1.0 < s && 0.0 <= edge <= 1.0
    ensures SeededFloat(v) * s <= 1.0 - edge <==> v as real <= LimboBound(s, edge)
  {
    FloatTimesAll(v);
    TimesIs(SeededFloat(v), s);
    LimboBoundIs(s, edge);
    assert DRAWS > 0;
    hide *;
    FloatReaches(SeededFloat(v), v as real, s, 1.0 - edge, DRAWS as real, LimboBound(s, edge));
  }

  lemma LimboWinIs(selected: real, edge: real, maxMultiplier: real, v: nat)
    ensures v in HonestLimboWins(selected, edge, maxMultiplier) <==> v < DRAWS && ResolveLimbo(selected, v, edge, Honest, maxMultiplier).won
  {
    hide ResolveLimbo;
  }

  lemma FloatTimesAll(v: Draw)
    ensures Times(SeededFloat(v), DRAWS as real) == v as real
  {
  }

  lemma TimesOrder(x: real, y: real, factor: real)
    requires factor > 0.0
    ensures x >= y <==> Times(x, factor) >= Times(y, factor)
  {
    Compare(x, y, factor);
  }

  lemma BoundBelowAll(keep: real, s: real, all: real, bound: real)
    requires 0.0 <= keep <= 1.0 < s && all > 0.0 && Times(bound, s) == Times(keep, all)
    ensures 0.0 <= bound < all
  {
    TimesSmall(keep, s, all);
    hide *;
    TimesOrder(bound, 0.0, s);
    TimesOrder(bound, all, s);
  }

  lemma TimesSmall(keep: real, s: real, all: real)
    requires 0.0 <= keep <= 1.0 < s && all > 0.0
    ensures Times(0.0, s) == 0.0 <= Times(keep, all) < Times(all, s)
  {
    RealMulMonotone(0.0, keep, all);
    RealMulStrict(keep, s, all);
    Commute(s, all);
  }

  lemma Commute(x: real, y: real)
    ensures x * y == y * x
  {
  }

  lemma FloatReaches(float: real, v: real, s: real, keep: real, all: real, bound: real)
    requires s > 0.0 && all > 0.0 && Times(float, all) == v && Times(bound, s) == Times(keep, all)
    ensures Times(float, s) <= keep <==> v <= bound
  {
    TimesSwap(float, s, all);
    hide *;
    TimesOrder(keep, Times(float, s), all);
    TimesOrder(bound, v, s);
  }

  lemma TimesSwap(x: real, y: real, z: real)
    ensures Times(Times(x, y), z) == Times(Times(x, z), y)
  {
  }

  lemma CountTimes(count: real, bound: real, s: real)
    requires s > 0.0 && bound < count <= bound + 1.0
    ensures Times(bound, s) < Times(count, s) <= Times(bound, s) + s
  {
    TimesSuccessor(bound, s);
    hide *;
    TimesOrder(bound, count, s);
    TimesOrder(bound + 1.0, count, s);
  }

  lemma TimesSuccessor(x: real, y: real)
    ensures Times(x + 1.0, y) == Times(x, y) + y
  {
  }

  /** What a target pays and what a result needs differ by half a hundredth, up or down with the rounding of the target. */
  lemma PaidAgainstNeeded(target: real)
    ensures Round2(target) >= target ==> Round2(target) == NearTarget(target) + 0.005
    ensures Round2(target) < target ==> Round2(target) == NearTarget(target) - 0.005
  {
    HundredthsError(target);
    var h, n := Hundredths(target), HundredthsUp(target);
    hide Hundredths;
    hide HundredthsUp;
    assert h == n || h == n - 1;
  }

  /** What a round pays on average, over the share 1 - edge that it should, but for the granularity of the draws. */
  function LimboFactor(target: real): real {
    if NearTarget(target) > 0.0 then Round2(target) / NearTarget(target) else 0.0
  }

  lemma LimboFactorIs(target: real)
    requires target >= 1.01
    ensures LimboFactor(target) * NearTarget(target) == Round2(target) > 0.0
    ensures LimboFactor(target) > 1.0 <==> Round2(target) >= target
    ensures Round2(target) >= target ==> LimboFactor(target) == Round2(target) / (Round2(target) - 0.005)
    ensures Round2(target) < target ==> LimboFactor(target) == Round2(target) / (Round2(target) + 0.005)
  {
    NearTargetBounds(target);
    PaidAgainstNeeded(target);
    Quotient(Round2(target), NearTarget(target), LimboFactor(target));
    hide Round2;
    hide NearTarget;
    Compare(1.0, LimboFactor(target), NearTarget(target));
  }

  /** A win pays the clamped target, rounded, however it was decided; a loss pays nothing. */
  lemma LimboPaysTarget(selected: real, draw: Draw, edge: real, forced: Forced, maxMultiplier: real)
    ensures var r := ResolveLimbo(selected, draw, edge, forced, maxMultiplier);
            var target := if selected < 1.01 then 1.01 else selected;
            r.multiplier == if r.won then Hundredths(if maxMultiplier < target then maxMultiplier else target) else 0
  {
    hide Hundredths;
    hide LimboDraw;
  }

  /** What an honest round pays on a unit stake, draw by draw, in hundredths. */
  function LimboPays(selected: real, edge: real, maxMultiplier: real): nat -> int {
    (v: nat) => if v < DRAWS then ResolveLimbo(selected, v, edge, Honest, maxMultiplier).multiplier else 0
  }

  /** What all draws together pay. */
  function LimboTotal(selected: real, edge: real, maxMultiplier: real): real {
    SumBelow(DRAWS, LimboPays(selected, edge, maxMultiplier)) as real / 100.0
  }

  lemma LimboPaysAt(selected: real, edge: real, maxMultiplier: real, v: nat)
    requires v < DRAWS
    ensures LimboPays(selected, edge, maxMultiplier)(v)
         == if v in HonestLimboWins(selected, edge, maxMultiplier) then Hundredths(LimboTarget(selected, maxMultiplier)) else 0
  {
    LimboPaysTarget(selected, v, edge, Honest, maxMultiplier);
    hide ResolveLimbo;
    hide Hundredths;
  }

  lemma WinsAreDraws(selected: real, edge: real, maxMultiplier: real)
    ensures forall v <- HonestLimboWins(selected, edge, maxMultiplier) :: v < DRAWS
  {
    hide ResolveLimbo;
  }

  lemma LimboTotalUnfold(selected: real, edge: real, maxMultiplier: real)
    ensures LimboTotal(selected, edge, maxMultiplier) == SumBelow(DRAWS, LimboPays(selected, edge, maxMultiplier)) as real / 100.0
  {
    hide SumBelow;
    hide LimboPays;
  }

  lemma LimboTotalIs(selected: real, edge: real, maxMultiplier: real)
    ensures LimboTotal(selected, edge, maxMultiplier)
         == |HonestLimboWins(selected, edge, maxMultiplier)| as real * Round2(LimboTarget(selected, maxMultiplier))
  {
    hide *;
    forall v: nat | v < DRAWS
      ensures LimboPays(selected, edge, maxMultiplier)(v)
           == if v in HonestLimboWins(selected, edge, maxMultiplier) then Hundredths(LimboTarget(selected, maxMultiplier)) else 0
    {
      LimboPaysAt(selected, edge, maxMultiplier, v);
    }
    WinsAreDraws(selected, edge, maxMultiplier);
    SumOfWins(DRAWS, LimboPays(selected, edge, maxMultiplier), HonestLimboWins(selected, edge, maxMultiplier),
              Hundredths(LimboTarget(selected, maxMultiplier)));
    LimboTotalUnfold(selected, edge, maxMultiplier);
    PaidIs(Hundredths(LimboTarget(selected, maxMultiplier)), |HonestLimboWins(selected, edge, maxMultiplier)|,
           LimboTarget(selected, maxMultiplier));
  }

  /**
   * To within what one draw pays, an honest round at a reachable target returns (1 - edge) times a factor: target /
   * (target - 0.005), so more than 1 - edge, exactly if rounding does not lower the target, and less otherwise.
   */
  lemma HonestLimboReturn(selected: real, edge: real, maxMultiplier: real)
    requires edge >= 0.0 && LimboTarget(selected, maxMultiplier) >= 1.01
    requires Reachable(NearTarget(LimboTarget(selected, maxMultiplier)), edge, maxMultiplier)
    ensures var target := LimboTarget(selected, maxMultiplier);
            var paid, factor := Round2(target), LimboFactor(target);
            var back, due := LimboTotal(selected, edge, maxMultiplier), (1.0 - edge) * DRAWS as real;
            && due * factor < back <= due * factor + paid
            && (factor > 1.0 <==> paid >= target)
            && factor == if paid >= target then paid / (paid - 0.005) else paid / (paid + 0.005)
  {
    hide *;
    var target := LimboTarget(selected, maxMultiplier);
    var wins, due := |HonestLimboWins(selected, edge, maxMultiplier)| as real, (1.0 - edge) * DRAWS as real;
    HonestLimboShare(selected, edge, maxMultiplier);
    LimboTotalIs(selected, edge, maxMultiplier);
    LimboFactorIs(target);
    NearTargetBounds(target);
    TimesFactor(wins, due, NearTarget(target), LimboFactor(target), Round2(target));
  }

  lemma TimesFactor(wins: real, due: real, s: real, factor: real, paid: real)
    requires s > 0.0 && paid > 0.0 && factor * s == paid && due < wins * s <= due + s
    ensures due * factor < wins * paid <= due * factor + paid
  {
    FactorPositive(factor, s);
    assert wins * paid == (wins * s) * factor;
    RealMulStrict(due, wins * s, factor);
    RealMulMonotone(wins * s, due + s, factor);
    assert (due + s) * factor == due * factor + paid;
  }

  lemma FactorPositive(factor: real, s: real)
    requires s > 0.0 && factor * s > 0.0
    ensures factor > 0.0
  {
    if factor <= 0.0 {
      RealMulMonotone(factor, 0.0, s);
    }
  }

  /**
   * For targets up to some millions one draw weighs less than half a hundredth: an honest round then returns more than 1 - edge
   * exactly if rounding does not lower the target.
   */
  lemma HonestLimboReturnsMore(selected: real, edge: real, maxMultiplier: real)
    requires edge >= 0.0 && LimboTarget(selected, maxMultiplier) >= 1.01
    requires Reachable(NearTarget(LimboTarget(selected, maxMultiplier)), edge, maxMultiplier)
    ensures var target := LimboTarget(selected, maxMultiplier);
            NearTarget(target) * Round2(target) <= 0.005 * ((1.0 - edge) * DRAWS as real) ==>
              (LimboTotal(selected, edge, maxMultiplier) > (1.0 - edge) * DRAWS as real <==> Round2(target) >= target)
  {
    hide *;
    var target := LimboTarget(selected, maxMultiplier);
    var due, wins := (1.0 - edge) * DRAWS as real, |HonestLimboWins(selected, edge, maxMultiplier)| as real;
    LimboTotalIs(selected, edge, maxMultiplier);
    HonestLimboShare(selected, edge, maxMultiplier);
    NearTargetBounds(target);
    PaidAgainstNeeded(target);
    if Round2(target) >= target {
      MoreThanDue(wins, due, NearTarget(target), Round2(target));
    } else if NearTarget(target) * Round2(target) <= 0.005 * due {
      AtMostDue(wins, due, NearTarget(target), Round2(target));
    }
  }

  lemma MoreThanDue(wins: real, due: real, s: real, paid: real)
    requires wins >= 0.0 && due < wins * s && paid == s + 0.005
    ensures wins * paid > due
  {
    assert wins * paid == wins * s + 0.005 * wins;
  }

  lemma AtMostDue(wins: real, due: real, s: real, paid: real)
    requires s > 0.0 && paid == s - 0.005 && wins * s <= due + s && s * paid <= 0.005 * due && paid >= 0.0
    ensures wins * paid <= due
  {
    RealMulMonotone(wins * s, due + s, paid);
    assert wins * paid * s == (wins * s) * paid;
    assert (due + s) * paid == due * s - 0.005 * due + s * paid;
    RealCancel(wins * paid, due, s);
  }

  /** The target 1.014 needs results of 1.015 and pays 1.01: at an edge of two percent it returns less than 98 percent. */
  lemma LimboCanReturnLess()
    ensures LimboTotal(1.014, 0.02, 100.0) < 0.98 * DRAWS as real
  {
    hide *;
    Example();
    HonestLimboShare(1.014, 0.02, 100.0);
    LimboTotalIs(1.014, 0.02, 100.0);
    LessThanDue(|HonestLimboWins(1.014, 0.02, 100.0)| as real, NearTarget(1.014), Round2(1.014), DRAWS as real,
                LimboTotal(1.014, 0.02, 100.0));
  }

  lemma Example()
    ensures NearTarget(1.014) == 1.015 && Round2(1.014) == 1.01 && LimboTarget(1.014, 100.0) == 1.014
    ensures Reachable(NearTarget(1.014), 0.02, 100.0) && DRAWS > 1000
  {
  }

  lemma LessThanDue(wins: real, s: real, paid: real, all: real, total: real)
    requires wins * s <= (1.0 - 0.02) * all + s && total == wins * paid && s == 1.015 && paid == 1.01 && all > 1000.0
    ensures total < 0.98 * all
  {
    SameProduct(wins, s, 1.015);
    SameProduct(wins, paid, 1.01);
  }

  lemma SameProduct(x: real, y: real, z: real)
    requires y == z
    ensures x * y == x * z
  {
  }

  /** Targets that no draw wins: one beyond what the least draw yields, and one whose next hundredth is above the cap. */
  lemma LimboCanBeUnwinnable()
    ensures HonestLimboWins(2000000000.0, 0.02, 5000000000.0) == {} && HonestLimboWins(1.014, 0.02, 1.014) == {}
  {
    assert HundredthsUp(1.014) == 102;
    assert HundredthsUp(2000000000.0) == 200000000000;
    HonestLimboShare(2000000000.0, 0.02, 5000000000.0);
    HonestLimboShare(1.014, 0.02, 1.014);
    hide HonestLimboWins;
  }
}
