/**
 * How the rounds of a player are decided from the stored settings: by an admin's rule, or by the first difficulty that is set for
 * the player on the game, for the player, or for the game.
 */
module Deciding {
  import opened Accounts
  import opened Arithmetic
  import opened Control
  import opened MinesGrid
  import opened MinesRound
  import opened Options
  import opened Play
  import opened PlayChecks
  import opened PlayReplay
  import opened Rng

  /** The loss percentage that applies, to the nearest whole one. An explicit 0 of the player counts, however hard the game is. */
  function FirstSetting(db: Db, user: UserId, game: nat): int
    requires game < |db.games|
  {
    var w, g := WalletOf(db, user), db.games[game];
    if g.slug in w.perGame then (w.perGame[g.slug] + 0.5).Floor else if w.difficulty.Some? then w.difficulty.value else g.difficulty
  }

  /** A round that loses this percentage of the control draws: none of it is decided at 0 or less, all of it is lost at 100 or more. */
  function AtPercentage(loss: int, draw: Draw): Forced {
    if loss <= 0 then Honest
    else Decided(loss < 100 && 100 * draw < (100 - loss) * DRAWS)
  }

  /** Whether a rule decides rounds at all. */
  predicate Decides(rule: Option<ControlRule>) {
    rule.Some?
    && match rule.value.mode
       case Off => false
       case Bias => rule.value.winRate.Some? && 0.0 <= rule.value.winRate.value <= 1.0
       case ForceWin => rule.value.forceRounds > 0
       case ForceLoss => rule.value.forceRounds > 0
  }

  lemma UndecidedRule(rule: Option<ControlRule>, draw: Draw)
    ensures DecideForcedResult(rule, draw) == Honest <==> !Decides(rule)
  {
  }

  lemma BelowPercentage(loss: int, draw: Draw)
    ensures SeededFloat(draw) < (100 - loss) as real / 100.0 <==> 100 * draw < (100 - loss) * DRAWS
  {
    BelowRate(draw, (100 - loss) as real / 100.0);
    assert (100 - loss) as real / 100.0 * DRAWS as real == ((100 - loss) * DRAWS) as real / 100.0;
  }

  /** Where no rule decides, the first setting that is present does. */
  lemma SettingDecides(db: Db, user: UserId, game: nat, draw: Draw)
    requires game < |db.games| && !Decides(GetControlRule(db, user, game))
    ensures Decision(db, user, game, draw) == AtPercentage(FirstSetting(db, user, game), draw)
  {
    UndecidedRule(GetControlRule(db, user, game), draw);
    BelowPercentage(FirstSetting(db, user, game), draw);
    hide GetControlRule;
    hide SeededFloat;
    hide DRAWS;
  }

  /** The draws on which the control decision of a player's round on a game is this. */
  function DecidedAs(db: Db, user: UserId, game: nat, forced: Forced): set<nat>
    requires game < |db.games|
  {
    set v: nat | v < DRAWS && Decision(db, user, game, v) == forced
  }

  /**
   * Among players whom no rule decides, the first setting present loses its percentage of the control draws to within one draw
   * and wins the others; 0 or less leaves every round honest, 100 or more loses every round.
   */
  lemma FirstSettingDecides(db: Db, user: UserId, game: nat)
    requires game < |db.games| && !Decides(GetControlRule(db, user, game))
    ensures var loss := FirstSetting(db, user, game);
            var lost, won := DecidedAs(db, user, game, Decided(false)), DecidedAs(db, user, game, Decided(true));
            if loss <= 0 then forall v: Draw :: Decision(db, user, game, v) == Honest
            else if loss >= 100 then forall v: Draw :: Decision(db, user, game, v) == Decided(false)
            else
              && |lost| + |won| == DRAWS
              && -1.0 < |lost| as real - loss as real / 100.0 * DRAWS as real <= 0.0
  {
    var loss := FirstSetting(db, user, game);
    forall v: Draw
      ensures Decision(db, user, game, v) == AtPercentage(loss, v)
    {
      SettingDecides(db, user, game, v);
    }
    hide Decision;
    hide FirstSetting;
    if 0 < loss < 100 {
      var bound := ((100 - loss) * DRAWS + 99) / 100;
      DivBounds((100 - loss) * DRAWS + 99, 100);
      assert DecidedAs(db, user, game, Decided(false)) == Interval(bound, DRAWS);
      assert DecidedAs(db, user, game, Decided(true)) == Interval(0, bound);
      IntervalSize(bound, DRAWS);
      IntervalSize(0, bound);
    }
  }

  /** A rule that decides: a bias wins at its rate, to within one draw, and a metered rule always, whatever the settings. */
  lemma RuleDecides(db: Db, user: UserId, game: nat)
    requires game < |db.games| && Decides(GetControlRule(db, user, game))
    ensures var rule := GetControlRule(db, user, game).value;
            var lost, won := DecidedAs(db, user, game, Decided(false)), DecidedAs(db, user, game, Decided(true));
            if rule.mode == Bias then
              && |lost| + |won| == DRAWS
              && 0.0 <= |won| as real - rule.winRate.value * DRAWS as real < 1.0
            else forall v: Draw :: Decision(db, user, game, v) == Decided(rule.mode == ForceWin)
  {
    var rule := GetControlRule(db, user, game).value;
    forall v: Draw
      ensures Decision(db, user, game, v) == DecideForcedResult(Some(rule), v) != Honest
    {
      UndecidedRule(Some(rule), v);
    }
    hide Decision;
    hide GetControlRule;
    if rule.mode == Bias {
      BiasWinsAtRate(rule);
      var lost, won := DecidedAs(db, user, game, Decided(false)), DecidedAs(db, user, game, Decided(true));
      assert won == BiasedWins(rule);
      assert lost + won == Interval(0, DRAWS) && lost !! won;
      IntervalSize(0, DRAWS);
    }
  }

  /** An engine that gives a decided round the result it was decided to have. */
  predicate Honours(engine: Forced -> Roll) {
    engine(Decided(true)).won && !engine(Decided(false)).won
  }

  /** The control draws on which the bet that a request stores has this status. */
  function StoredAs(db: Db, user: UserId, session: nat, slug: Slug, stake: real, engine: Forced -> Roll, status: Status): set<nat> {
    set v: nat | v < DRAWS
                 && var after := PlaceBet(db, user, session, slug, stake, true, engine, v).0;
                    |after.bets| == |db.bets| + 1 && after.bets[|db.bets|].status == status
  }

  lemma StoredStatus(db: Db, user: UserId, session: nat, slug: Slug, stake: real, engine: Forced -> Roll, draw: Draw)
    requires slug.Instant? && CanPlay(db, user, session, slug) && CanStake(db, user, db.games[db.sessions[session].game], stake)
    ensures var (after, reply) := PlaceBet(db, user, session, slug, stake, true, engine, draw);
            && reply == Ok(Decision(db, user, db.sessions[session].game, draw)) && |after.bets| == |db.bets| + 1
            && after.bets[|db.bets|].status == if engine(reply.value).won then Won else Lost
  {
    BetAcceptedExactly(db, user, session, slug, stake, true, engine, draw);
    BetStored(db, user, session, slug, stake, true, engine, draw);
    PlacedDecision(db, user, session, slug, stake, engine, draw);
    hide PlaceBet;
    hide Decision;
    hide GetControlRule;
    hide CanPlay;
    hide CanStake;
    hide PayoutCents;
    hide Hundredths;
  }

  lemma PlacedDecision(db: Db, user: UserId, session: nat, slug: Slug, stake: real, engine: Forced -> Roll, draw: Draw)
    requires CanPlay(db, user, session, slug) && PlaceBet(db, user, session, slug, stake, true, engine, draw).1.Ok?
    ensures PlaceBet(db, user, session, slug, stake, true, engine, draw).1.value == Decision(db, user, db.sessions[session].game, draw)
  {
    DecisionOfReady(db, user, db.sessions[session].game, draw);
    hide Decision;
    hide Settle;
    hide ApplyWinCap;
    hide ParseStake;
    hide GetControlRule;
  }

  /**
   * So of the bets that an accepted request stores, one for each control draw, as many are lost as decisions are losses, and the
   * others won, wherever every round is decided.
   */
  lemma StoredBetsFollowDecisions(db: Db, user: UserId, session: nat, slug: Slug, stake: real, engine: Forced -> Roll)
    requires slug.Instant? && CanPlay(db, user, session, slug) && CanStake(db, user, db.games[db.sessions[session].game], stake) && Honours(engine)
    requires forall v: Draw :: Decision(db, user, db.sessions[session].game, v).Decided?
    ensures StoredAs(db, user, session, slug, stake, engine, Lost) == DecidedAs(db, user, db.sessions[session].game, Decided(false))
    ensures StoredAs(db, user, session, slug, stake, engine, Won) == DecidedAs(db, user, db.sessions[session].game, Decided(true))
  {
    forall v: Draw
      ensures v in StoredAs(db, user, session, slug, stake, engine, Lost) <==> v in DecidedAs(db, user, db.sessions[session].game, Decided(false))
      ensures v in StoredAs(db, user, session, slug, stake, engine, Won) <==> v in DecidedAs(db, user, db.sessions[session].game, Decided(true))
    {
      StoredStatus(db, user, session, slug, stake, engine, v);
    }
    hide PlaceBet;
    hide Decision;
    hide CanPlay;
    hide CanStake;
  }

  /** The stored bets of a player whom no rule decides: lost at the percentage of the first setting present. */
  lemma StoredBetsLose(db: Db, user: UserId, session: nat, slug: Slug, stake: real, engine: Forced -> Roll)
    requires slug.Instant? && CanPlay(db, user, session, slug) && CanStake(db, user, db.games[db.sessions[session].game], stake) && Honours(engine)
    requires !Decides(GetControlRule(db, user, db.sessions[session].game)) && 0 < FirstSetting(db, user, db.sessions[session].game)
    ensures var loss, lost := FirstSetting(db, user, db.sessions[session].game), StoredAs(db, user, session, slug, stake, engine, Lost);
            if loss >= 100 then |lost| == DRAWS else -1.0 < |lost| as real - loss as real / 100.0 * DRAWS as real <= 0.0
  {
    var game := db.sessions[session].game;
    FirstSettingDecides(db, user, game);
    forall v: Draw
      ensures Decision(db, user, game, v).Decided?
    {
      SettingDecides(db, user, game, v);
    }
    StoredBetsFollowDecisions(db, user, session, slug, stake, engine);
    if FirstSetting(db, user, game) >= 100 {
      assert DecidedAs(db, user, game, Decided(false)) == Interval(0, DRAWS);
      IntervalSize(0, DRAWS);
    }
    hide Decision;
    hide FirstSetting;
    hide StoredAs;
    hide CanPlay;
    hide CanStake;
    hide Decides;
  }

  /** The same for a grid round: what is laid out is what the board for the decision says, and nothing else. */
  lemma StoredBoardFollowsDecision(db: Db, user: UserId, session: nat, slug: Slug, stake: real, valid: bool, board: Forced -> Board, draw: Draw)
    requires StartRound(db, user, session, slug, stake, valid, board, draw).1.Ok?
    ensures CanPlay(db, user, session, slug)
    ensures var (first, reply) := StartRound(db, user, session, slug, stake, valid, board, draw);
            reply.value < |first.bets| && first.bets[reply.value].board == board(Decision(db, user, db.sessions[session].game, draw))
  {
    StartedBet(db, user, session, slug, stake, valid, board, draw);
    CanPlayIsRequired(db, user, session, slug);
    hide StartRound;
    hide Decision;
    hide RequireOpenSession;
    hide CanPlay;
  }
}
