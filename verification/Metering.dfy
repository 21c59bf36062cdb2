/** How an admin's metered rule is spent over a run of requests. */
module Metering {
  import opened Accounts
  import opened Control
  import opened Deciding
  import opened Options
  import opened MinesGrid
  import opened Play
  import opened Arithmetic
  import opened Mines
  import opened Rng
  import opened Towers

  /** Two tables of control rows that assign the same rows to the same players and games. */
  predicate SameScope(before: seq<ControlRow>, after: seq<ControlRow>) {
    |before| == |after| && forall i :: 0 <= i < |before| ==> after[i] == before[i].(rule := after[i].rule)
  }

  lemma {:induction false} SameFirst(before: seq<ControlRow>, after: seq<ControlRow>, user: UserId, game: Option<nat>, from: nat)
    requires SameScope(before, after) && from <= |before|
    ensures FirstRow(after, OwnRow(user, game), from) == FirstRow(before, OwnRow(user, game), from)
    decreases |before| - from
  {
    if from < |before| {
      SameFirst(before, after, user, game, from + 1);
    }
  }

  lemma SameGovernor(before: seq<ControlRow>, after: seq<ControlRow>, user: UserId, game: nat)
    requires SameScope(before, after)
    ensures GoverningRow(after, user, game) == GoverningRow(before, user, game)
  {
    SameFirst(before, after, user, Some(game), 0);
    SameFirst(before, after, user, None, 0);
  }

  /** An instant bet that is accepted on a game that row c governs for its player. */
  predicate Governed(db: Db, req: Request, c: nat) {
    req.PlaceBetReq?
    && PlaceBet(db, req.user, req.session, req.slug, req.stake, req.valid, req.engine, req.draw).1.Ok?
    && GoverningRow(db.controls, req.user, RequireOpenSession(db, req.user, req.session, req.slug).value) == c
  }

  /** How the service decided such a bet. */
  function DecisionOn(db: Db, req: Request, c: nat): Forced
    requires Governed(db, req, c)
  {
    PlaceBet(db, req.user, req.session, req.slug, req.stake, req.valid, req.engine, req.draw).1.value
  }

  /** How the difficulty settings alone would have decided it. */
  function FallbackOn(db: Db, req: Request, c: nat): Forced
    requires Governed(db, req, c)
  {
    AtPercentage(FirstSetting(db, req.user, RequireOpenSession(db, req.user, req.session, req.slug).value), req.draw)
  }

  predicate Metered(rule: ControlRule) {
    rule.mode == ForceWin || rule.mode == ForceLoss
  }

  function RoundsLeft(rule: ControlRule): nat {
    if rule.forceRounds > 0 then rule.forceRounds else 0
  }

  function SpentOnce(rule: ControlRule): ControlRule {
    if rule.forceRounds > 0 then rule.(forceRounds := rule.forceRounds - 1) else rule
  }

  /** Only an accepted instant bet spends a round, and only on the row that governs it. */
  lemma ConsumeSpends(db: Db, user: UserId, game: nat, c: nat)
    requires c < |db.controls| && Metered(db.controls[c].rule)
    ensures var after := ConsumeForcedRound(db, user, game);
            && SameScope(db.controls, after.controls)
            && after.controls[c].rule
               == if GoverningRow(db.controls, user, game) == c then SpentOnce(db.controls[c].rule) else db.controls[c].rule
  {
    hide GoverningRow;
  }

  /** An accepted instant bet changes the controls by consuming one forced round, a rejected one not at all. */
  lemma PlaceBetControls(db: Db, user: UserId, session: nat, slug: Slug, stake: real, valid: bool, engine: Forced -> Roll, draw: Draw)
    ensures var (after, reply) := PlaceBet(db, user, session, slug, stake, valid, engine, draw);
            var game := RequireOpenSession(db, user, session, slug);
            if reply.Err? then after.controls == db.controls
            else
              && game.Ok? && after.controls == ConsumeForcedRound(db, user, game.value).controls
              && reply.value == Decision(db, user, game.value, draw)
  {
    hide GoverningRow;
    hide ApplyWinCap;
    hide ParseStake;
    hide NextNonce;
    hide PlacedRows;
    hide PayoutCents;
    hide ResolveControl;
  }

  lemma DecisionIsMetered(db: Db, user: UserId, game: nat, draw: Draw)
    requires game < |db.games| && GoverningRow(db.controls, user, game) < |db.controls|
    requires Metered(db.controls[GoverningRow(db.controls, user, game)].rule)
    ensures var rule := db.controls[GoverningRow(db.controls, user, game)].rule;
            Decision(db, user, game, draw)
            == if rule.forceRounds > 0 then Decided(rule.mode == ForceWin) else AtPercentage(FirstSetting(db, user, game), draw)
  {
    if db.controls[GoverningRow(db.controls, user, game)].rule.forceRounds <= 0 {
      SettingDecides(db, user, game, draw);
    }
    hide GoverningRow;
    hide DecideFromDifficulty;
    hide EffectiveDifficulty;
    hide WalletDifficultyForGame;
    hide AtPercentage;
    hide FirstSetting;
  }

  lemma StartRoundLeavesControls(db: Db, user: UserId, session: nat, slug: Slug, stake: real, valid: bool, board: Forced -> Board,
                                 draw: Draw)
    ensures StartRound(db, user, session, slug, stake, valid, board, draw).0.controls == db.controls
  {
    hide Decision;
    hide ParseStake;
    hide NextNonce;
    hide RequireOpenSession;
  }

  lemma CashOutLeavesControls(db: Db, user: UserId, session: nat, slug: Slug, bet: nat)
    ensures CashOutRound(db, user, session, slug, bet).0.controls == db.controls
  {
    hide PayoutCents;
    hide RequireOpenSession;
  }

  lemma RevealLeavesControls(db: Db, user: UserId, session: nat, bet: nat, tile: int)
    ensures RevealMines(db, user, session, bet, tile).0.controls == db.controls
    ensures RevealTowers(db, user, session, bet, tile).0.controls == db.controls
  {
    forall next: Db, slug
      ensures CashOutRound(next, user, session, slug, bet).0.controls == next.controls
    {
      CashOutLeavesControls(next, user, session, slug, bet);
    }
    hide CashOutRound;
    hide MinesMultiplier;
    hide TowersMultiplier;
    hide RequireOpenSession;
  }

  /** Grid rounds, sessions and deposits consume no forced round. */
  lemma OthersLeaveControls(db: Db, req: Request)
    requires !req.PlaceBetReq?
    ensures Handle(db, req).controls == db.controls
  {
    hide StartRound;
    hide RevealMines;
    hide RevealTowers;
    hide CashOutRound;
    match req
    case StartMinesReq(user, session, stake, mineCount, stream, draw) =>
      StartRoundLeavesControls(db, user, session, MinesGame, stake, 1 <= mineCount <= 24, MinesBoardFor(mineCount, stream), draw);
    case StartTowersReq(user, session, stake, level, stream, draw) =>
      StartRoundLeavesControls(db, user, session, TowersGame, stake, true, TowersBoardFor(level, stream), draw);
    case RevealMinesReq(user, session, bet, tile) => RevealLeavesControls(db, user, session, bet, tile);
    case RevealTowersReq(user, session, bet, tile) => RevealLeavesControls(db, user, session, bet, tile);
    case CashOutMinesReq(user, session, bet) => CashOutLeavesControls(db, user, session, MinesGame, bet);
    case CashOutTowersReq(user, session, bet) => CashOutLeavesControls(db, user, session, TowersGame, bet);
    case _ =>
  }

  /** One request: row c loses a round exactly if it governed an accepted instant bet, and decided it if it had one. */
  lemma HandleMeters(db: Db, req: Request, c: nat)
    requires c < |db.controls| && Metered(db.controls[c].rule)
    ensures var rule, after := db.controls[c].rule, Handle(db, req);
            && SameScope(db.controls, after.controls)
            && after.controls[c].rule == (if Governed(db, req, c) then SpentOnce(rule) else rule)
            && (Governed(db, req, c) ==>
                  DecisionOn(db, req, c) == if rule.forceRounds > 0 then Decided(rule.mode == ForceWin) else FallbackOn(db, req, c))
  {
    if req.PlaceBetReq? {
      var game := RequireOpenSession(db, req.user, req.session, req.slug);
      PlaceBetControls(db, req.user, req.session, req.slug, req.stake, req.valid, req.engine, req.draw);
      if game.Ok? {
        ConsumeSpends(db, req.user, game.value, c);
        if GoverningRow(db.controls, req.user, game.value) == c {
          DecisionIsMetered(db, req.user, game.value, req.draw);
        }
      }
    } else {
      OthersLeaveControls(db, req);
    }
    hide PlaceBet;
    hide GoverningRow;
    hide RequireOpenSession;
    hide Decision;
    hide ConsumeForcedRound;
    hide AtPercentage;
    hide FirstSetting;
    hide StartRound;
    hide RevealMines;
    hide RevealTowers;
    hide CashOutRound;
    hide CreditDeposit;
    hide StartSession;
  }

  /** The decisions of the accepted instant bets that row c governs, in the order of a run. */
  function Decisions(db: Db, reqs: seq<Request>, c: nat): seq<Forced>
    decreases |reqs|
  {
    if reqs == [] then []
    else (if Governed(db, reqs[0], c) then [DecisionOn(db, reqs[0], c)] else []) + Decisions(Handle(db, reqs[0]), reqs[1..], c)
  }

  /** What the difficulty settings alone would have decided for the same bets. */
  function Fallbacks(db: Db, reqs: seq<Request>, c: nat): seq<Forced>
    decreases |reqs|
  {
    if reqs == [] then []
    else (if Governed(db, reqs[0], c) then [FallbackOn(db, reqs[0], c)] else []) + Fallbacks(Handle(db, reqs[0]), reqs[1..], c)
  }

  /** The first r of them carry the rule's decision, the others fall back to the difficulty settings. */
  predicate MeteredDecisions(decisions: seq<Forced>, fallbacks: seq<Forced>, win: bool, r: nat) {
    && |decisions| == |fallbacks|
    && forall j :: 0 <= j < |decisions| ==> decisions[j] == if j < r then Decided(win) else fallbacks[j]
  }

  predicate Spent(before: ControlRule, after: ControlRule, k: nat) {
    && after == before.(forceRounds := after.forceRounds)
    && RoundsLeft(after) == if RoundsLeft(before) > k then RoundsLeft(before) - k else 0
  }

  lemma MeteredStep(decision: Forced, fallback: Forced, decisions: seq<Forced>, fallbacks: seq<Forced>, win: bool, r: nat)
    requires decision == if r > 0 then Decided(win) else fallback
    requires MeteredDecisions(decisions, fallbacks, win, if r > 0 then r - 1 else 0)
    ensures MeteredDecisions([decision] + decisions, [fallback] + fallbacks, win, r)
  {
  }

  /**
   * A metered rule with r rounds left forces exactly the first min(r, k) of the k accepted instant bets it governs in
   * a run, later ones fall back to the difficulty settings, and nothing but those bets uses its rounds up. The rows keep
   * their scope, so the same row governs a player's game throughout.
   */
  lemma {:induction false} RuleIsMetered(db: Db, reqs: seq<Request>, c: nat)
    requires c < |db.controls| && Metered(db.controls[c].rule)
    ensures var rule, last, k := db.controls[c].rule, Run(db, reqs), |Decisions(db, reqs, c)|;
            && SameScope(db.controls, last.controls)
            && Spent(rule, last.controls[c].rule, k)
            && MeteredDecisions(Decisions(db, reqs, c), Fallbacks(db, reqs, c), rule.mode == ForceWin, RoundsLeft(rule))
    decreases |reqs|
  {
    if reqs != [] {
      HandleMeters(db, reqs[0], c);
      var next := Handle(db, reqs[0]);
      RuleIsMetered(next, reqs[1..], c);
      if Governed(db, reqs[0], c) {
        MeteredStep(DecisionOn(db, reqs[0], c), FallbackOn(db, reqs[0], c), Decisions(next, reqs[1..], c), Fallbacks(next, reqs[1..], c),
                    db.controls[c].rule.mode == ForceWin, RoundsLeft(db.controls[c].rule));
      }
    }
    hide Handle;
    hide Governed;
    hide MeteredDecisions;
    hide DecisionOn;
    hide FallbackOn;
  }

  /** A row that may answer for a player's game: the game's own, or one for every game if the game has none of its own. */
  predicate MayGovern(controls: seq<ControlRow>, user: UserId, game: nat, i: nat) {
    && i < |controls| && controls[i].user == user
    && (controls[i].game == Some(game)
        || (controls[i].game == None && forall j :: 0 <= j < |controls| ==> !OwnRow(user, Some(game))(controls[j])))
  }

  predicate UniqueScopes(controls: seq<ControlRow>) {
    forall i, j :: 0 <= i < j < |controls| ==> controls[i].user != controls[j].user || controls[i].game != controls[j].game
  }

  lemma {:induction false} FirstRowIsFirst(rows: seq<ControlRow>, p: ControlRow -> bool, from: nat)
    requires from <= |rows|
    ensures forall j :: from <= j < FirstRow(rows, p, from) ==> !p(rows[j])
    decreases |rows| - from
  {
    if from < |rows| && !p(rows[from]) {
      FirstRowIsFirst(rows, p, from + 1);
    }
  }

  /** The row taken is one that may govern, if there is any; with one row per scope it is the only one. */
  lemma GovernorIsDetermined(controls: seq<ControlRow>, user: UserId, game: nat, i: nat)
    ensures GoverningRow(controls, user, game) < |controls| ==> MayGovern(controls, user, game, GoverningRow(controls, user, game))
    ensures MayGovern(controls, user, game, i) ==> GoverningRow(controls, user, game) < |controls|
    ensures UniqueScopes(controls) && MayGovern(controls, user, game, i) ==> i == GoverningRow(controls, user, game)
  {
    FirstRowIsFirst(controls, OwnRow(user, Some(game)), 0);
    FirstRowIsFirst(controls, OwnRow(user, None), 0);
    var own, any := FirstRow(controls, OwnRow(user, Some(game)), 0), FirstRow(controls, OwnRow(user, None), 0);
    hide FirstRow;
  }

  /** ... and the rows that may govern a player's game, in whatever order a query lists them, are the same after any run. */
  lemma {:induction false} GovernorsStay(db: Db, reqs: seq<Request>, user: UserId, game: nat, i: nat)
    ensures MayGovern(Run(db, reqs).controls, user, game, i) <==> MayGovern(db.controls, user, game, i)
    ensures GoverningRow(Run(db, reqs).controls, user, game) == GoverningRow(db.controls, user, game)
    decreases |reqs|
  {
    if reqs != [] {
      ScopeStays(db, reqs[0]);
      SameGovernor(db.controls, Handle(db, reqs[0]).controls, user, game);
      SameMayGovern(db.controls, Handle(db, reqs[0]).controls, user, game, i);
      GovernorsStay(Handle(db, reqs[0]), reqs[1..], user, game, i);
    }
    hide Handle;
    hide GoverningRow;
    hide MayGovern;
  }

  lemma SameMayGovern(before: seq<ControlRow>, after: seq<ControlRow>, user: UserId, game: nat, i: nat)
    requires SameScope(before, after)
    ensures MayGovern(after, user, game, i) <==> MayGovern(before, user, game, i)
  {
    forall j | 0 <= j < |before|
      ensures OwnRow(user, Some(game))(after[j]) == OwnRow(user, Some(game))(before[j])
    {
    }
  }

  lemma ScopeStays(db: Db, req: Request)
    ensures SameScope(db.controls, Handle(db, req).controls)
  {
    if req.PlaceBetReq? {
      PlaceBetControls(db, req.user, req.session, req.slug, req.stake, req.valid, req.engine, req.draw);
    } else {
      OthersLeaveControls(db, req);
    }
    hide PlaceBet;
    hide GoverningRow;
    hide RequireOpenSession;
    hide StartRound;
    hide RevealMines;
    hide RevealTowers;
    hide CashOutRound;
    hide CreditDeposit;
    hide StartSession;
    hide Decision;
  }
}
