/** How an admin rule or a difficulty setting decides a round before it is rolled. */
module Control {
  import opened Arithmetic
  import opened MinesGrid
  import opened Options
  import opened Rng

  datatype Mode = Off | Bias | ForceWin | ForceLoss

  /** `maxWin` caps the multiplier of a win, in hundredths; 0 or none is no cap. */
  datatype ControlRule = ControlRule(mode: Mode, winRate: Option<real>, forceRounds: int, maxWin: Option<nat>)

  function DecideForcedResult(rule: Option<ControlRule>, draw: Draw): Forced {
    match rule
    case None => Honest
    case Some(r) =>
      match r.mode
      case Off => Honest
      case Bias =>
        if r.winRate.None? || r.winRate.value < 0.0 || r.winRate.value > 1.0 then Honest
        else Decided(SeededFloat(draw) < r.winRate.value)
      case ForceWin => if r.forceRounds <= 0 then Honest else Decided(true)
      case ForceLoss => if r.forceRounds <= 0 then Honest else Decided(false)
  }

  /** Difficulty is a loss percentage; 0 leaves the round on fair odds. */
  function DecideFromDifficulty(loss: int, draw: Draw): Forced {
    if loss <= 0 then Honest
    else if loss >= 100 then Decided(false)
    else DecideForcedResult(Some(ControlRule(Bias, Some((100 - loss) as real / 100.0), 0, None)), draw)
  }

  /** The player's setting wins over the game's. */
  function EffectiveDifficulty(profile: Option<int>, game: int): int {
    match profile
    case Some(d) => Clamp(d, 0, 100)
    case None => Clamp(game, 0, 100)
  }

  /** The whole number nearest to x, as Math.round yields it. */
  function Nearest(x: real): int {
    (x + 0.5).Floor
  }

  /** The player's settings per game are stored as they came and rounded here; the others are whole. */
  function WalletDifficultyForGame<Slug(==)>(difficulty: Option<int>, perGame: map<Slug, real>, slug: Slug): Option<int> {
    if slug in perGame then Some(Clamp(Nearest(perGame[slug]), 0, 100))
    else match difficulty
      case Some(d) => Some(Clamp(d, 0, 100))
      case None => None
  }

  /** An admin rule that decides wins over any difficulty. */
  function ResolveControl(rule: Option<ControlRule>, profile: Option<int>, game: int, draw: Draw): Forced {
    var fromUser := DecideForcedResult(rule, draw);
    if fromUser != Honest then fromUser
    else DecideFromDifficulty(EffectiveDifficulty(profile, game), draw)
  }

  datatype Roll = Roll(won: bool, multiplier: nat)

  function ApplyWinCap(roll: Roll, rule: Option<ControlRule>): Roll {
    if !roll.won || rule.None? || rule.value.maxWin.None? || rule.value.maxWin.value == 0 then roll
    else if roll.multiplier <= rule.value.maxWin.value then roll
    else roll.(multiplier := rule.value.maxWin.value)
  }

  /** Only a win above the cap is changed, and to exactly the cap: what is paid never exceeds cap or roll. */
  lemma WinCapHolds(roll: Roll, rule: Option<ControlRule>)
    ensures var capped := ApplyWinCap(roll, rule);
            var cap := if rule.Some? && rule.value.maxWin.Some? then rule.value.maxWin.value else 0;
            && capped.won == roll.won
            && capped.multiplier == (if roll.won && 0 < cap < roll.multiplier then cap else roll.multiplier)
            && ApplyWinCap(capped, rule) == capped
  {
  }

  function BiasedWins(rule: ControlRule): set<nat> {
    set v: nat | v < DRAWS && DecideForcedResult(Some(rule), v) == Decided(true)
  }

  /** A bias decides every round and wins on its rate of the draws, to within one; a rate outside 0 to 1 decides nothing. */
  lemma BiasWinsAtRate(rule: ControlRule)
    requires rule.mode == Bias && rule.winRate.Some?
    ensures var rate := rule.winRate.value;
            if 0.0 <= rate <= 1.0 then
              && (forall v: Draw :: DecideForcedResult(Some(rule), v).Decided?)
              && rate * DRAWS as real <= |BiasedWins(rule)| as real < rate * DRAWS as real + 1.0
            else forall v: Draw :: DecideForcedResult(Some(rule), v) == Honest
  {
    var rate := rule.winRate.value;
    if 0.0 <= rate <= 1.0 {
      var all := DRAWS as real;
      RealMulMonotone(0.0, rate, all);
      RealMulMonotone(rate, 1.0, all);
      forall v: nat
        ensures v in BiasedWins(rule) <==> v < DRAWS && v as real < rate * all
      {
        if v < DRAWS {
          BelowRate(v, rate);
        }
      }
      DrawsBelow(rate * all, BiasedWins(rule));
    }
  }

  lemma BelowRate(v: Draw, rate: real)
    ensures SeededFloat(v) < rate <==> v as real < rate * DRAWS as real
  {
    var x, all := SeededFloat(v), DRAWS as real;
    assert x * all == v as real;
    if x < rate {
      RealMulStrict(x, rate, all);
    } else {
      RealMulMonotone(rate, x, all);
    }
  }

  function LosingDraws(loss: int): set<nat> {
    set v: nat | v < DRAWS && DecideFromDifficulty(loss, v) == Decided(false)
  }

  /** A difficulty of 1 to 99 decides every round and loses its percentage of the draws, to within one draw. */
  lemma DifficultyIsLossPercent(loss: int)
    requires 0 < loss < 100
    ensures forall v: Draw :: DecideFromDifficulty(loss, v).Decided?
    ensures -1.0 < |LosingDraws(loss)| as real - loss as real / 100.0 * DRAWS as real <= 0.0
  {
    var bound := ((100 - loss) * DRAWS + 99) / 100;
    DivBounds((100 - loss) * DRAWS + 99, 100);
    forall v: nat | v < DRAWS
      ensures DecideFromDifficulty(loss, v) == Decided(v < bound)
    {
      assert SeededFloat(v) < (100 - loss) as real / 100.0 <==> v * 100 < (100 - loss) * DRAWS;
    }
    assert LosingDraws(loss) == Interval(bound, DRAWS);
    IntervalSize(bound, DRAWS);
  }
}
