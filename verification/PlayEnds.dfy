/** Which open rounds can still be finished, and what becomes of the others. */
module PlayEnds {
  import opened Accounts
  import opened Arithmetic
  import opened Control
  import opened Mines
  import opened MinesGrid
  import opened MinesRound
  import opened Options
  import opened Play
  import opened PlayChecks
  import opened PlayMoney
  import opened PlayReplay
  import opened PlayRounds
  import opened PlayRuns
  import opened PlaySafety
  import opened Rng
  import opened Sums
  import opened Towers
  import opened TowersRound
  import C = ClimbPlans
  import P = PlayPlans

  /** The round's session is still open, and its game is active and not under maintenance. */
  predicate CanFinish(db: Db, i: nat) {
    && i < |db.bets| && db.bets[i].session < |db.sessions|
    && var s := db.sessions[db.bets[i].session];
       !s.ended && s.game < |db.games| && db.games[s.game].isActive && !db.games[s.game].underMaintenance
  }

  predicate IsOpenBet(db: Db, i: nat) {
    i < |db.bets| && db.bets[i].status == Open
  }

  /** Sessions keep their player and game, and an ended one stays ended. */
  predicate SessionsPersist(before: seq<Session>, after: seq<Session>) {
    |before| <= |after|
    && forall s :: 0 <= s < |before| ==> after[s].user == before[s].user && after[s].game == before[s].game
                                         && (before[s].ended ==> after[s].ended)
  }

  /** Only the totals of sessions change. */
  predicate SessionsKept(before: seq<Session>, after: seq<Session>) {
    |before| == |after|
    && forall s :: 0 <= s < |before| ==> after[s].user == before[s].user && after[s].game == before[s].game && after[s].ended == before[s].ended
  }

  lemma PlaceBetSessions(db: Db, user: UserId, session: nat, slug: Slug, stake: real, valid: bool, engine: Forced -> Roll, draw: Draw)
    ensures SessionsKept(db.sessions, PlaceBet(db, user, session, slug, stake, valid, engine, draw).0.sessions)
  {
    hide GoverningRow;
    hide Decision;
    hide ApplyWinCap;
    hide ParseStake;
    hide NextNonce;
    hide PayoutCents;
    hide GetControlRule;
    hide PlacedRows;
    hide RequireOpenSession;
  }

  lemma StartRoundSessions(db: Db, user: UserId, session: nat, slug: Slug, stake: real, valid: bool, board: Forced -> Board, draw: Draw)
    ensures SessionsKept(db.sessions, StartRound(db, user, session, slug, stake, valid, board, draw).0.sessions)
  {
    hide Decision;
    hide ParseStake;
    hide NextNonce;
    hide RequireOpenSession;
  }

  lemma CashOutSessions(db: Db, user: UserId, session: nat, slug: Slug, bet: nat)
    ensures SessionsKept(db.sessions, CashOutRound(db, user, session, slug, bet).0.sessions)
  {
    hide PayoutCents;
    hide RequireOpenSession;
  }

  lemma RevealSessions(db: Db, user: UserId, session: nat, bet: nat, tile: int)
    ensures SessionsKept(db.sessions, RevealMines(db, user, session, bet, tile).0.sessions)
    ensures SessionsKept(db.sessions, RevealTowers(db, user, session, bet, tile).0.sessions)
  {
    forall next: Db, slug
      ensures SessionsKept(next.sessions, CashOutRound(next, user, session, slug, bet).0.sessions)
    {
      CashOutSessions(next, user, session, slug, bet);
    }
    hide CashOutRound;
    hide MinesMultiplier;
    hide TowersMultiplier;
    hide RequireOpenSession;
  }

  lemma HandleSessions(db: Db, req: Request)
    ensures SessionsPersist(db.sessions, Handle(db, req).sessions)
  {
    hide PlaceBet;
    hide StartRound;
    hide RevealMines;
    hide RevealTowers;
    hide CashOutRound;
    match req
    case PlaceBetReq(user, session, slug, stake, valid, engine, draw) => PlaceBetSessions(db, user, session, slug, stake, valid, engine, draw);
    case StartMinesReq(user, session, stake, mineCount, stream, draw) =>
      StartRoundSessions(db, user, session, MinesGame, stake, 1 <= mineCount <= 24, MinesBoardFor(mineCount, stream), draw);
    case StartTowersReq(user, session, stake, level, stream, draw) =>
      StartRoundSessions(db, user, session, TowersGame, stake, true, TowersBoardFor(level, stream), draw);
    case RevealMinesReq(user, session, bet, tile) => RevealSessions(db, user, session, bet, tile);
    case RevealTowersReq(user, session, bet, tile) => RevealSessions(db, user, session, bet, tile);
    case CashOutMinesReq(user, session, bet) => CashOutSessions(db, user, session, MinesGame, bet);
    case CashOutTowersReq(user, session, bet) => CashOutSessions(db, user, session, TowersGame, bet);
    case _ =>
  }

  /** A move is accepted only in a round that can be finished. */
  lemma MoveNeedsSession(db: Db, req: Request, i: nat)
    requires MoveOf(db, req, i) != []
    ensures CanFinish(db, i)
  {
    hide LoseRound;
    hide SafePick;
    hide PayRound;
    hide MinesMultiplier;
    hide TowersMultiplier;
    hide PayoutCents;
    hide TowersConfig;
  }

  /** A request leaves a round that cannot be finished exactly as it is, and unfinishable. */
  lemma HandleLeavesStranded(db: Db, req: Request, i: nat)
    requires Inv(db) && IsOpenBet(db, i) && !CanFinish(db, i)
    ensures i < |Handle(db, req).bets| && Handle(db, req).bets[i] == db.bets[i] && !CanFinish(Handle(db, req), i)
  {
    StoredLinked(db, i);
    HandleReplays(db, req, i);
    HandleSessions(db, req);
    hide Handle;
    hide Inv;
    hide Replays;
    if MoveOf(db, req, i) != [] {
      MoveNeedsSession(db, req, i);
    }
    hide MoveOf;
    ReplaysNothing(db.bets[i], Handle(db, req).bets[i], db.games[db.bets[i].game].edge);
  }

  lemma StoredLinked(db: Db, i: nat)
    requires Inv(db) && i < |db.bets|
    ensures LinkedBet(db.wallets, db.sessions, db.bets[i])
  {
    hide Money;
    hide Totals;
    hide OneOpen;
    hide Nonces;
    hide Rounds;
  }

  /** Whatever anybody does, such a round stays open as it is for ever. */
  lemma {:induction false} StrandedStays(db: Db, reqs: seq<Request>, i: nat)
    requires Inv(db) && IsOpenBet(db, i) && !CanFinish(db, i)
    ensures i < |Run(db, reqs).bets| && Run(db, reqs).bets[i] == db.bets[i]
    decreases |reqs|
  {
    RunUnfold(db, reqs);
    if reqs != [] {
      HandleLeavesStranded(db, reqs[0], i);
      HandleKeeps(db, reqs[0]);
      hide Inv;
      hide Handle;
      hide CanFinish;
      StrandedStays(Handle(db, reqs[0]), reqs[1..], i);
    }
    hide Run;
  }

  /** A round that can be finished is in play for its player. */
  lemma CanFinishInPlay(db: Db, i: nat)
    requires Inv(db) && IsOpenBet(db, i) && CanFinish(db, i)
    ensures var b := db.bets[i];
            && (b.board.MinesBoard? ==> P.InPlay(db, b.user, b.session, i))
            && (b.board.TowersBoard? ==> C.InPlay(db, b.user, b.session, i))
            && !b.board.NoBoard?
  {
    StoredLinked(db, i);
    StoredBetOk(db, i);
    hide Inv;
    hide Legal;
    hide LegalClimb;
  }

  /** Once something has been picked, cashing out ends the round; before that, picking tile 0 picks something. */
  lemma MinesSteps(r: Round, stake: nat, edge: real)
    requires r.status == Open && r.tiles > 0
    ensures r.revealed != [] ==> Step(r, CashOut, stake, edge).status == CashedOut
    ensures r.revealed == [] ==> Step(r, Reveal(0), stake, edge).revealed != []
  {
    hide MinesMultiplier;
    hide PayoutCents;
  }

  lemma ClimbSteps(c: Climb, stake: nat, edge: real)
    requires c.status == Open && |c.grid| > 0
    ensures c.picks != [] ==> ClimbStep(c, CashOut, stake, edge).status == CashedOut
    ensures c.picks == [] ==> ClimbStep(c, Reveal(0), stake, edge).picks != []
  {
    hide TowersMultiplier;
    hide PayoutCents;
  }

  lemma CashOutMinesEnds(db: Db, user: UserId, session: nat, i: nat)
    requires Inv(db) && P.InPlay(db, user, session, i) && PicksOn(db.bets[i].board) != []
    ensures i < |Handle(db, CashOutMinesReq(user, session, i)).bets|
    ensures Handle(db, CashOutMinesReq(user, session, i)).bets[i].status != Open
  {
    P.RoundInPlay(db, user, session, i);
    P.HandleMoves(db, user, session, i, CashOut);
    P.MovesMeans(db, user, session, i, CashOut, Handle(db, P.RequestFor(user, session, i, CashOut)));
    MinesSteps(AsMines(db.bets[i]), db.bets[i].stake, db.games[db.bets[i].game].edge);
    hide Inv;
    hide Handle;
    hide Step;
    hide P.InPlay;
    hide P.Moves;
    hide MovableMines;
  }

  lemma CashOutTowersEnds(db: Db, user: UserId, session: nat, i: nat)
    requires Inv(db) && C.InPlay(db, user, session, i) && PicksOn(db.bets[i].board) != []
    ensures i < |Handle(db, CashOutTowersReq(user, session, i)).bets|
    ensures Handle(db, CashOutTowersReq(user, session, i)).bets[i].status != Open
  {
    C.RoundInPlay(db, user, session, i);
    C.HandleMoves(db, user, session, i, CashOut);
    C.MovesMeans(db, user, session, i, CashOut, Handle(db, C.RequestFor(user, session, i, CashOut)));
    ClimbSteps(AsClimb(db.bets[i]), db.bets[i].stake, db.games[db.bets[i].game].edge);
    hide Inv;
    hide Handle;
    hide ClimbStep;
    hide C.InPlay;
    hide C.Moves;
    hide MovableTowers;
  }

  lemma PickMines(db: Db, user: UserId, session: nat, i: nat)
    requires Inv(db) && P.InPlay(db, user, session, i) && PicksOn(db.bets[i].board) == []
    ensures var next := Handle(db, RevealMinesReq(user, session, i, 0));
            i < |next.bets| && (next.bets[i].status == Open ==> P.InPlay(next, user, session, i) && PicksOn(next.bets[i].board) != [])
  {
    P.RoundInPlay(db, user, session, i);
    P.HandleMoves(db, user, session, i, Reveal(0));
    P.MovesMeans(db, user, session, i, Reveal(0), Handle(db, P.RequestFor(user, session, i, Reveal(0))));
    MinesSteps(AsMines(db.bets[i]), db.bets[i].stake, db.games[db.bets[i].game].edge);
    hide Inv;
    hide Handle;
    hide Step;
    hide P.InPlay;
    hide P.Moves;
    hide MovableMines;
  }

  lemma PickTowers(db: Db, user: UserId, session: nat, i: nat)
    requires Inv(db) && C.InPlay(db, user, session, i) && PicksOn(db.bets[i].board) == []
    ensures var next := Handle(db, RevealTowersReq(user, session, i, 0));
            i < |next.bets| && (next.bets[i].status == Open ==> C.InPlay(next, user, session, i) && PicksOn(next.bets[i].board) != [])
  {
    C.RoundInPlay(db, user, session, i);
    C.HandleMoves(db, user, session, i, Reveal(0));
    C.MovesMeans(db, user, session, i, Reveal(0), Handle(db, C.RequestFor(user, session, i, Reveal(0))));
    ClimbSteps(AsClimb(db.bets[i]), db.bets[i].stake, db.games[db.bets[i].game].edge);
    hide Inv;
    hide Handle;
    hide ClimbStep;
    hide C.InPlay;
    hide C.Moves;
    hide MovableTowers;
  }

  ghost predicate Closes(db: Db, reqs: seq<Request>, i: nat) {
    i < |Run(db, reqs).bets| && Run(db, reqs).bets[i].status != Open
  }

  lemma OneCloses(db: Db, req: Request, i: nat)
    requires i < |Handle(db, req).bets| && Handle(db, req).bets[i].status != Open
    ensures Closes(db, [req], i)
  {
    assert [req][1..] == [];
    RunUnfold(db, [req]);
    RunUnfold(Handle(db, req), []);
    hide Run;
    hide Handle;
  }

  lemma ThenCloses(db: Db, req: Request, rest: seq<Request>, i: nat)
    requires Closes(Handle(db, req), rest, i)
    ensures Closes(db, [req] + rest, i)
  {
    assert ([req] + rest)[1..] == rest;
    hide Handle;
  }

  /** Two requests by its player are enough to finish a round that can be finished. */
  lemma FinishingRun(db: Db, i: nat) returns (reqs: seq<Request>)
    requires Inv(db) && IsOpenBet(db, i) && CanFinish(db, i)
    ensures Closes(db, reqs, i)
  {
    CanFinishInPlay(db, i);
    var b := db.bets[i];
    var mines := b.board.MinesBoard?;
    var pay := if mines then CashOutMinesReq(b.user, b.session, i) else CashOutTowersReq(b.user, b.session, i);
    var pick := if mines then RevealMinesReq(b.user, b.session, i, 0) else RevealTowersReq(b.user, b.session, i, 0);
    var started := PicksOn(b.board) != [];
    hide *;
    if started {
      if mines { CashOutMinesEnds(db, b.user, b.session, i); } else { CashOutTowersEnds(db, b.user, b.session, i); }
      OneCloses(db, pay, i);
      return [pay];
    }
    if mines { PickMines(db, b.user, b.session, i); } else { PickTowers(db, b.user, b.session, i); }
    var next := Handle(db, pick);
    if next.bets[i].status != Open {
      OneCloses(db, pick, i);
      return [pick];
    }
    HandleKeeps(db, pick);
    if mines { CashOutMinesEnds(next, b.user, b.session, i); } else { CashOutTowersEnds(next, b.user, b.session, i); }
    OneCloses(next, pay, i);
    ThenCloses(db, pick, [pay], i);
    reqs := [pick] + [pay];
  }

  /** An open round can still be brought to an end exactly if its session is open and its game can be played. */
  lemma FinishableExactly(db: Db, i: nat)
    requires Inv(db) && IsOpenBet(db, i)
    ensures (exists reqs :: Closes(db, reqs, i)) <==> CanFinish(db, i)
  {
    if CanFinish(db, i) {
      var reqs := FinishingRun(db, i);
    } else {
      forall reqs
        ensures !Closes(db, reqs, i)
      {
        StrandedStays(db, reqs, i);
      }
    }
    hide Inv;
    hide CanFinish;
    hide Run;
  }

  /** A stranded round blocks its player from the game for good: no round of it can be started again. */
  lemma StrandedBlocksGame(db: Db, reqs: seq<Request>, i: nat, session: nat, slug: Slug, stake: real, valid: bool, board: Forced -> Board,
                           draw: Draw)
    requires Inv(db) && IsOpenBet(db, i) && !CanFinish(db, i)
    ensures var later, b := Run(db, reqs), db.bets[i];
            var owned := RequireOpenSession(later, b.user, session, slug);
            owned.Ok? && owned.value == b.game ==>
              var reply := StartRound(later, b.user, session, slug, stake, valid, board, draw).1;
              reply.Err? && (valid && ParseStake(stake, later.games[owned.value]).Ok? ==> reply == Err(RoundInProgress))
  {
    var later, b := Run(db, reqs), db.bets[i];
    StrandedStays(db, reqs, i);
    hide Run;
    hide Inv;
    CountZero(later.bets, IsOpenOn(b.user, b.game));
    assert b in later.bets && IsOpenOn(b.user, b.game)(b);
    hide Count;
    hide RequireOpenSession;
    hide ParseStake;
    hide Decision;
    hide OpenRound;
  }

  /** ... and its stake stays locked. */
  lemma StrandedStaysLocked(db: Db, reqs: seq<Request>, i: nat)
    requires Inv(db) && IsOpenBet(db, i) && !CanFinish(db, i)
    ensures WalletOf(Run(db, reqs), db.bets[i].user).locked >= db.bets[i].stake
  {
    StrandedStays(db, reqs, i);
    RunKeeps(db, reqs);
    hide Run;
    hide Inv;
    UnlockNeverClips(Run(db, reqs), i);
    hide Unlocked;
  }

  /** Opening a new session of a game strands the round that the player has open on it. */
  lemma NewSessionStrands(db: Db, i: nat)
    requires Inv(db) && IsOpenBet(db, i) && CanFinish(db, i)
    requires (db.bets[i].user, db.bets[i].game) !in db.excluded
    ensures var after := StartSession(db, db.bets[i].user, db.bets[i].game);
            IsOpenBet(after, i) && !CanFinish(after, i)
  {
    StoredLinked(db, i);
    hide Inv;
  }

  /** A service with one Mines game and no player yet. */
  const OneGame: Db := Db([Game(MinesGame, 1, 10000, 0.02, 0, true, false)], {}, [], map[], [], [], [])

  /** Player 0 deposits 10.00 and opens a session of it. */
  const DepositAndOpen: seq<Request> := [QuoteReq(0, 1000), CreditReq(0), StartSessionReq(0, 0)]

  function ReadyToPlay(): Db {
    Db(OneGame.games, {}, [], map[0 := Wallet(1000, 0, 0, 0, 1000, false, None, map[])], [], [Session(0, 0, 0, 0, 0, false)],
       [Tx(0, DepositTx, Confirmed, 1000)])
  }

  lemma ReadyIsReached()
    ensures Run(OneGame, DepositAndOpen) == ReadyToPlay() && Inv(ReadyToPlay())
  {
    var a := Handle(OneGame, QuoteReq(0, 1000));
    var b := Handle(a, CreditReq(0));
    var c := Handle(b, StartSessionReq(0, 0));
    assert a == OneGame.(ledger := [Tx(0, DepositTx, Pending, 1000)]);
    assert b == a.(ledger := [Tx(0, DepositTx, Confirmed, 1000)], wallets := map[0 := Wallet(1000, 0, 0, 0, 1000, false, None, map[])]);
    assert c == b.(sessions := [Session(0, 0, 0, 0, 0, false)]);
    assert c == ReadyToPlay();
    RunUnfold(OneGame, DepositAndOpen);
    RunUnfold(a, DepositAndOpen[1..]);
    RunUnfold(b, DepositAndOpen[2..]);
    RunUnfold(c, []);
    FreshIsInv(OneGame);
    RunKeeps(OneGame, DepositAndOpen);
    hide Inv;
    hide Handle;
    hide Run;
  }

  /** A round of 1.00 on three mines, after which the player opens the game again. */
  lemma StrandedInput(stream: Stream, control: Draw)
    ensures var started := Handle(ReadyToPlay(), StartMinesReq(0, 0, 1.0, 3, stream, control));
            var last := Handle(started, StartSessionReq(0, 0));
            IsOpenBet(started, 0) && CanFinish(started, 0) && IsOpenBet(last, 0) && !CanFinish(last, 0) && Inv(last)
  {
    var ready := ReadyToPlay();
    var req := StartMinesReq(0, 0, 1.0, 3, stream, control);
    ReadyIsReached();
    HandleKeeps(ready, req);
    HandleKeeps(Handle(ready, req), StartSessionReq(0, 0));
    FirstRound(stream, control);
    hide Inv;
    hide ReadyToPlay;
    hide StartMines;
    NewSessionStrands(Handle(ready, req), 0);
  }

  lemma FirstRound(stream: Stream, control: Draw)
    ensures var started := StartMines(ReadyToPlay(), 0, 0, 1.0, 3, stream, control).0;
            IsOpenBet(started, 0) && CanFinish(started, 0) && (started.bets[0].user, started.bets[0].game) !in started.excluded
  {
    var ready := ReadyToPlay();
    var board := MinesBoardFor(3, stream);
    assert Hundredths(1.0) == 100;
    assert CanPlay(ready, 0, 0, MinesGame) && CanStake(ready, 0, ready.games[0], 1.0);
    RoundStartedExactly(ready, 0, 0, MinesGame, 1.0, true, board, control);
    StartRoundKeepsExcluded(ready, 0, 0, MinesGame, 1.0, true, board, control);
    StartRoundOpens(ready, 0, 0, MinesGame, 1.0, true, board, control);
    hide StartRound;
    hide MinesBoardFor;
    hide Hundredths;
  }

  lemma StartRoundKeepsExcluded(db: Db, user: UserId, session: nat, slug: Slug, stake: real, valid: bool, board: Forced -> Board, draw: Draw)
    ensures StartRound(db, user, session, slug, stake, valid, board, draw).0.excluded == db.excluded
  {
    hide Decision;
    hide ParseStake;
    hide NextNonce;
    hide RequireOpenSession;
  }

  /** A round that has just been started can be finished. */
  lemma StartRoundOpens(db: Db, user: UserId, session: nat, slug: Slug, stake: real, valid: bool, board: Forced -> Board, draw: Draw)
    ensures var (after, reply) := StartRound(db, user, session, slug, stake, valid, board, draw);
            reply.Ok? ==> reply.value == |db.bets| && IsOpenBet(after, reply.value) && CanFinish(after, reply.value)
  {
    hide Decision;
    hide ParseStake;
    hide NextNonce;
  }
}
