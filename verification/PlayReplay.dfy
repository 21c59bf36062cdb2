/** The stored round of a grid game is a pure replay of the moves the service accepted on it. */
module PlayReplay {
  import opened Accounts
  import opened Arithmetic
  import opened Control
  import opened Mines
  import opened MinesGrid
  import opened MinesRound
  import opened Play
  import opened PlayMoney
  import opened PlayRounds
  import opened PlayRuns
  import opened PlaySafety
  import opened Rng
  import opened Towers
  import opened TowersRound

  /** The move that a request makes on bet i, if it is one and is accepted. */
  function MoveOf(db: Db, req: Request, i: nat): seq<Move> {
    match req
    case RevealMinesReq(user, session, bet, tile) =>
      if bet == i && tile >= 0 && RevealMines(db, user, session, bet, tile).1.Ok? then [Reveal(tile)] else []
    case RevealTowersReq(user, session, bet, tile) =>
      if bet == i && tile >= 0 && RevealTowers(db, user, session, bet, tile).1.Ok? then [Reveal(tile)] else []
    case CashOutMinesReq(user, session, bet) =>
      if bet == i && CashOutRound(db, user, session, MinesGame, bet).1.Ok? then [CashOut] else []
    case CashOutTowersReq(user, session, bet) =>
      if bet == i && CashOutRound(db, user, session, TowersGame, bet).1.Ok? then [CashOut] else []
    case _ => []
  }

  /** The moves accepted on bet i in the course of a run. */
  function MovesOn(db: Db, reqs: seq<Request>, i: nat): seq<Move>
    decreases |reqs|
  {
    if reqs == [] then [] else MoveOf(db, reqs[0], i) + MovesOn(Handle(db, reqs[0]), reqs[1..], i)
  }

  /** The parts of a bet that never change. */
  predicate SameTerms(a: Bet, b: Bet) {
    && a.user == b.user && a.game == b.game && a.session == b.session && a.stake == b.stake && a.nonce == b.nonce
    && a.controlled == b.controlled
  }

  /** b is what the accepted moves make of the bet a. */
  ghost predicate Replays(a: Bet, b: Bet, moves: seq<Move>, edge: real) {
    && SameTerms(a, b)
    && match a.board
       case NoBoard => b == a
       case MinesBoard(_, _) => b.board.MinesBoard? && AsMines(b) == Replay(AsMines(a), moves, a.stake, edge)
       case TowersBoard(_, _, _) => b.board.TowersBoard? && AsClimb(b) == ReplayClimb(AsClimb(a), moves, a.stake, edge)
  }

  lemma NoMoveReplays(a: Bet, edge: real)
    ensures Replays(a, a, [], edge)
  {
  }

  lemma ReplayOne(r: Round, move: Move, stake: nat, edge: real)
    ensures Replay(r, [move], stake, edge) == Step(r, move, stake, edge)
  {
    assert [move][1..] == [];
    hide Step;
  }

  lemma ReplayClimbOne(c: Climb, move: Move, stake: nat, edge: real)
    ensures ReplayClimb(c, [move], stake, edge) == ClimbStep(c, move, stake, edge)
  {
    assert [move][1..] == [];
    hide ClimbStep;
  }

  lemma RevealReplays(a: Bet, tile: nat, edge: real)
    requires a.board.MinesBoard? && a.status == Open && tile < MINES_TILE_COUNT && tile !in a.board.revealed
    ensures Replays(a, RevealedMinesBet(a, tile, edge), [Reveal(tile)], edge)
  {
    RevealIsStep(a, tile, edge);
    ReplayOne(AsMines(a), Reveal(tile), a.stake, edge);
    hide Replay;
    hide Step;
    hide MinesMultiplier;
    hide PayoutCents;
  }

  lemma ClimbReplays(a: Bet, tile: nat, edge: real)
    requires a.board.TowersBoard? && a.status == Open && tile < TowersConfig(a.board.level).tiles
    requires |a.board.picks| < |a.board.grid| == TowersConfig(a.board.level).rows
    ensures Replays(a, ClimbedBet(a, tile, edge), [Reveal(tile)], edge)
  {
    ClimbIsStep(a, tile, edge);
    ReplayClimbOne(AsClimb(a), Reveal(tile), a.stake, edge);
    hide ReplayClimb;
    hide ClimbStep;
    hide TowersMultiplier;
    hide PayoutCents;
  }

  lemma CashOutReplays(a: Bet, edge: real)
    requires a.status == Open && PicksOn(a.board) != []
    ensures Replays(a, PaidBet(a), [CashOut], edge)
  {
    PaidIsStep(a, edge);
    assert [CashOut][1..] == [];
    hide Step;
    hide ClimbStep;
    hide PayoutCents;
  }

  lemma {:induction false} ReplayConcat(r: Round, xs: seq<Move>, ys: seq<Move>, stake: nat, edge: real)
    ensures Replay(r, xs + ys, stake, edge) == Replay(Replay(r, xs, stake, edge), ys, stake, edge)
    decreases |xs|
  {
    hide Step;
    if xs == [] {
      assert xs + ys == ys;
    } else {
      assert (xs + ys)[1..] == xs[1..] + ys;
      ReplayConcat(Step(r, xs[0], stake, edge), xs[1..], ys, stake, edge);
    }
  }

  lemma {:induction false} ReplayClimbConcat(c: Climb, xs: seq<Move>, ys: seq<Move>, stake: nat, edge: real)
    ensures ReplayClimb(c, xs + ys, stake, edge) == ReplayClimb(ReplayClimb(c, xs, stake, edge), ys, stake, edge)
    decreases |xs|
  {
    hide ClimbStep;
    if xs == [] {
      assert xs + ys == ys;
    } else {
      assert (xs + ys)[1..] == xs[1..] + ys;
      ReplayClimbConcat(ClimbStep(c, xs[0], stake, edge), xs[1..], ys, stake, edge);
    }
  }

  lemma ReplaysThen(a: Bet, b: Bet, c: Bet, xs: seq<Move>, ys: seq<Move>, edge: real)
    requires Replays(a, b, xs, edge) && Replays(b, c, ys, edge)
    ensures Replays(a, c, xs + ys, edge)
  {
    if a.board.MinesBoard? {
      ReplayConcat(AsMines(a), xs, ys, a.stake, edge);
    } else if a.board.TowersBoard? {
      ReplayClimbConcat(AsClimb(a), xs, ys, a.stake, edge);
    }
    hide Replay;
    hide ReplayClimb;
  }

  predicate OnlyAddsBets(db: Db, after: Db) {
    db.bets <= after.bets && after.games == db.games
  }

  lemma PlaceBetAdds(db: Db, user: UserId, session: nat, slug: Slug, stake: real, valid: bool, engine: Forced -> Roll, draw: Draw)
    ensures OnlyAddsBets(db, PlaceBet(db, user, session, slug, stake, valid, engine, draw).0)
  {
    hide GoverningRow;
    hide Decision;
    hide ApplyWinCap;
    hide ParseStake;
    hide NextNonce;
    hide PayoutCents;
    hide GetControlRule;
    hide PlacedRows;
  }

  lemma StartRoundAdds(db: Db, user: UserId, session: nat, slug: Slug, stake: real, valid: bool, board: Forced -> Board, draw: Draw)
    ensures OnlyAddsBets(db, StartRound(db, user, session, slug, stake, valid, board, draw).0)
  {
    hide Decision;
    hide ParseStake;
    hide NextNonce;
  }

  /** Requests that are no moves only ever add bets; none changes the games. */
  lemma OthersAddBets(db: Db, req: Request)
    requires !req.RevealMinesReq? && !req.RevealTowersReq? && !req.CashOutMinesReq? && !req.CashOutTowersReq?
    ensures OnlyAddsBets(db, Handle(db, req))
  {
    hide PlaceBet;
    hide StartRound;
    match req
    case PlaceBetReq(user, session, slug, stake, valid, engine, draw) => PlaceBetAdds(db, user, session, slug, stake, valid, engine, draw);
    case StartMinesReq(user, session, stake, mineCount, stream, draw) =>
      StartRoundAdds(db, user, session, MinesGame, stake, 1 <= mineCount <= 24, MinesBoardFor(mineCount, stream), draw);
    case StartTowersReq(user, session, stake, level, stream, draw) =>
      StartRoundAdds(db, user, session, TowersGame, stake, true, TowersBoardFor(level, stream), draw);
    case _ =>
  }

  lemma StoredBetOk(db: Db, i: nat)
    requires Inv(db) && i < |db.bets|
    ensures BetOk(db.games, db.bets[i]) && db.bets[i].game < |db.games|
  {
    hide LegalClimb;
    hide Legal;
    hide Money;
    hide Totals;
    hide OneOpen;
    hide Nonces;
    hide Linked;
    hide DepositsOk;
  }

  lemma RevealMinesReplays(db: Db, user: UserId, session: nat, bet: nat, tile: int, i: nat)
    requires Inv(db) && i < |db.bets| && db.bets[i].game < |db.games|
    ensures var (after, reply) := RevealMines(db, user, session, bet, tile);
            && after.games == db.games && i < |after.bets|
            && Replays(db.bets[i], after.bets[i], if bet == i && tile >= 0 && reply.Ok? then [Reveal(tile)] else [],
                       db.games[db.bets[i].game].edge)
  {
    RevealMinesMoves(db, user, session, bet, tile);
    hide Inv;
    hide RevealMines;
    hide BetOk;
    hide Replays;
    NoMoveReplays(db.bets[i], db.games[db.bets[i].game].edge);
    if bet == i && RevealMines(db, user, session, bet, tile).1.Ok? {
      RevealReplays(db.bets[i], tile, db.games[db.bets[i].game].edge);
    }
    hide RevealedMinesBet;
  }

  lemma RevealTowersReplays(db: Db, user: UserId, session: nat, bet: nat, tile: int, i: nat)
    requires Inv(db) && i < |db.bets| && db.bets[i].game < |db.games|
    ensures var (after, reply) := RevealTowers(db, user, session, bet, tile);
            && after.games == db.games && i < |after.bets|
            && Replays(db.bets[i], after.bets[i], if bet == i && tile >= 0 && reply.Ok? then [Reveal(tile)] else [],
                       db.games[db.bets[i].game].edge)
  {
    RevealTowersMoves(db, user, session, bet, tile);
    hide Inv;
    hide RevealTowers;
    hide LegalClimb;
    hide Legal;
    hide Replays;
    NoMoveReplays(db.bets[i], db.games[db.bets[i].game].edge);
    if bet == i && RevealTowers(db, user, session, bet, tile).1.Ok? {
      ClimbReplays(db.bets[i], tile, db.games[db.bets[i].game].edge);
    }
    hide ClimbedBet;
    hide BetOk;
  }

  lemma CashOutReplaysIn(db: Db, user: UserId, session: nat, slug: Slug, bet: nat, i: nat)
    requires Inv(db) && i < |db.bets| && db.bets[i].game < |db.games|
    ensures var (after, reply) := CashOutRound(db, user, session, slug, bet);
            && after.games == db.games && i < |after.bets|
            && Replays(db.bets[i], after.bets[i], if bet == i && reply.Ok? then [CashOut] else [], db.games[db.bets[i].game].edge)
  {
    CashOutMoves(db, user, session, slug, bet);
    hide Inv;
    hide CashOutRound;
    hide BetOk;
    hide Replays;
    NoMoveReplays(db.bets[i], db.games[db.bets[i].game].edge);
    if bet == i && CashOutRound(db, user, session, slug, bet).1.Ok? {
      CashOutReplays(db.bets[i], db.games[db.bets[i].game].edge);
    }
    hide PaidBet;
  }

  /** One request makes of a stored bet what its accepted move does. */
  lemma HandleReplays(db: Db, req: Request, i: nat)
    requires Inv(db) && i < |db.bets|
    ensures i < |Handle(db, req).bets| && db.bets[i].game < |db.games| && Handle(db, req).games == db.games
    ensures Replays(db.bets[i], Handle(db, req).bets[i], MoveOf(db, req, i), db.games[db.bets[i].game].edge)
  {
    StoredBetOk(db, i);
    if req.RevealMinesReq? {
      RevealMinesReplays(db, req.user, req.session, req.bet, req.tile, i);
    } else if req.RevealTowersReq? {
      RevealTowersReplays(db, req.user, req.session, req.bet, req.tile, i);
    } else if req.CashOutMinesReq? {
      CashOutReplaysIn(db, req.user, req.session, MinesGame, req.bet, i);
    } else if req.CashOutTowersReq? {
      CashOutReplaysIn(db, req.user, req.session, TowersGame, req.bet, i);
    } else {
      OthersAddBets(db, req);
      NoMoveReplays(db.bets[i], db.games[db.bets[i].game].edge);
      hide Handle;
    }
    hide Inv;
    hide BetOk;
    hide Replays;
    hide RevealMines;
    hide RevealTowers;
    hide CashOutRound;
    hide PlaceBet;
    hide StartRound;
    hide CreditDeposit;
    hide MoveDeposit;
    hide StartSession;
    hide EndSession;
    hide QuoteDeposit;
  }

  /**
   * Whatever the run, a stored round is the replay of the moves that were accepted on it, at the edge of its game and
   * its own stake; an instant bet never changes.
   */
  lemma {:induction false} RunReplays(db: Db, reqs: seq<Request>, i: nat)
    requires Inv(db) && i < |db.bets|
    ensures i < |Run(db, reqs).bets| && db.bets[i].game < |db.games| && Run(db, reqs).games == db.games
    ensures Replays(db.bets[i], Run(db, reqs).bets[i], MovesOn(db, reqs, i), db.games[db.bets[i].game].edge)
    decreases |reqs|
  {
    StoredBetOk(db, i);
    var edge := db.games[db.bets[i].game].edge;
    RunUnfold(db, reqs);
    MovesUnfold(db, reqs, i);
    if reqs == [] {
      NoMoveReplays(db.bets[i], edge);
    } else {
      var next := Handle(db, reqs[0]);
      HandleReplays(db, reqs[0], i);
      HandleKeeps(db, reqs[0]);
      RunReplays(next, reqs[1..], i);
      ReplaysTerms(db.bets[i], next.bets[i], MoveOf(db, reqs[0], i), edge);
      hide *;
      ReplaysThen(db.bets[i], next.bets[i], Run(next, reqs[1..]).bets[i], MoveOf(db, reqs[0], i), MovesOn(next, reqs[1..], i), edge);
    }
  }

  lemma MovesUnfold(db: Db, reqs: seq<Request>, i: nat)
    ensures MovesOn(db, reqs, i) == if reqs == [] then [] else MoveOf(db, reqs[0], i) + MovesOn(Handle(db, reqs[0]), reqs[1..], i)
  {
    hide MoveOf;
    hide Handle;
  }

  lemma ReplaysTerms(a: Bet, b: Bet, moves: seq<Move>, edge: real)
    requires Replays(a, b, moves, edge)
    ensures a.game == b.game
  {
    hide Replay;
    hide ReplayClimb;
  }

  /** The bet that an accepted start of a round stores. */
  lemma StartedBet(db: Db, user: UserId, session: nat, slug: Slug, stake: real, valid: bool, board: Forced -> Board, draw: Draw)
    requires StartRound(db, user, session, slug, stake, valid, board, draw).1.Ok?
    ensures var (first, reply) := StartRound(db, user, session, slug, stake, valid, board, draw);
            var game := RequireOpenSession(db, user, session, slug);
            && valid && game.Ok? && first.games == db.games
            && reply.value == |db.bets| < |first.bets|
            && var b := first.bets[reply.value];
               && b.user == user && b.game == game.value && b.session == session && b.stake as int == Hundredths(stake)
               && b.status == Open && b.multiplier == 0 == b.payout
               && b.board == board(Decision(db, user, game.value, draw))
  {
    hide Decision;
    DecisionOfReady(db, user, RequireOpenSession(db, user, session, slug).value, draw);
  }

  /** Creating the wallet does not change how the round is decided. */
  lemma DecisionOfReady(db: Db, user: UserId, game: nat, draw: Draw)
    requires game < |db.games|
    ensures Decision(GetOrCreate(db, user), user, game, draw) == Decision(db, user, game, draw)
  {
  }

  /** Whatever follows an accepted start, the round stored for it is the replay, on the board laid then, of the accepted moves. */
  lemma MinesRoundReplays(db: Db, user: UserId, session: nat, stake: real, mineCount: int, stream: Stream, draw: Draw,
                          reqs: seq<Request>)
    requires Inv(db) && StartMines(db, user, session, stake, mineCount, stream, draw).1.Ok?
    ensures var (first, reply) := StartMines(db, user, session, stake, mineCount, stream, draw);
            var game := RequireOpenSession(db, user, session, MinesGame).value;
            var i, last, laid := reply.value, Run(first, reqs), BuildMinesGrid(mineCount, stream, Decision(db, user, game, draw));
            && i < |last.bets| && last.bets[i].board.MinesBoard? && last.bets[i].stake as int == Hundredths(stake)
            && AsMines(last.bets[i])
               == Replay(Start(MINES_TILE_COUNT, laid), MovesOn(first, reqs, i), last.bets[i].stake, db.games[game].edge)
  {
    var board := MinesBoardFor(mineCount, stream);
    StartMinesKeeps(db, user, session, stake, mineCount, stream, draw);
    StartedBet(db, user, session, MinesGame, stake, 1 <= mineCount <= 24, board, draw);
    var (first, reply) := StartMines(db, user, session, stake, mineCount, stream, draw);
    hide Inv;
    hide StartRound;
    hide Run;
    hide MovesOn;
    hide Replay;
    hide Decision;
    hide BuildMinesGrid;
    RunReplays(first, reqs, reply.value);
  }

  lemma TowersRoundReplays(db: Db, user: UserId, session: nat, stake: real, level: Difficulty, stream: Stream, draw: Draw,
                           reqs: seq<Request>)
    requires Inv(db) && StartTowers(db, user, session, stake, level, stream, draw).1.Ok?
    ensures var (first, reply) := StartTowers(db, user, session, stake, level, stream, draw);
            var game := RequireOpenSession(db, user, session, TowersGame).value;
            var i, last, laid := reply.value, Run(first, reqs), BuildTowersGrid(level, stream, TowersConfig(level).rows);
            && i < |last.bets| && last.bets[i].board.TowersBoard? && last.bets[i].stake as int == Hundredths(stake)
            && AsClimb(last.bets[i])
               == ReplayClimb(StartClimb(level, laid), MovesOn(first, reqs, i), last.bets[i].stake, db.games[game].edge)
  {
    var board := TowersBoardFor(level, stream);
    StartTowersKeeps(db, user, session, stake, level, stream, draw);
    StartedBet(db, user, session, TowersGame, stake, true, board, draw);
    var (first, reply) := StartTowers(db, user, session, stake, level, stream, draw);
    hide Inv;
    hide StartRound;
    hide Run;
    hide MovesOn;
    hide ReplayClimb;
    hide Decision;
    hide BuildTowersGrid;
    RunReplays(first, reqs, reply.value);
  }

  /** A bet that is not open accepts no move. */
  lemma FinishedAcceptsNothing(db: Db, req: Request, i: nat)
    requires Inv(db) && i < |db.bets| && db.bets[i].status != Open
    ensures MoveOf(db, req, i) == []
  {
    match req
    case RevealMinesReq(user, session, bet, tile) => RevealMinesMoves(db, user, session, bet, tile);
    case RevealTowersReq(user, session, bet, tile) => RevealTowersMoves(db, user, session, bet, tile);
    case CashOutMinesReq(user, session, bet) => CashOutMoves(db, user, session, MinesGame, bet);
    case CashOutTowersReq(user, session, bet) => CashOutMoves(db, user, session, TowersGame, bet);
    case _ =>
    hide Inv;
    hide BetOk;
    hide RevealMines;
    hide RevealTowers;
    hide CashOutRound;
    hide RevealedMinesBet;
    hide ClimbedBet;
    hide Closed;
  }

  lemma ReplaysNothing(a: Bet, b: Bet, edge: real)
    requires Replays(a, b, [], edge)
    ensures b == a
  {
  }

  /**
   * As long as one request runs at a time, a bet that is won, lost or cashed out never changes again; in particular no round
   * is paid twice. RoundPayments says what is left of this when requests overlap.
   */
  lemma {:induction false} FinishedBetsStay(db: Db, reqs: seq<Request>, i: nat)
    requires Inv(db) && i < |db.bets| && db.bets[i].status != Open
    ensures i < |Run(db, reqs).bets| && Run(db, reqs).bets[i] == db.bets[i]
    decreases |reqs|
  {
    RunUnfold(db, reqs);
    if reqs != [] {
      HandleReplays(db, reqs[0], i);
      HandleKeeps(db, reqs[0]);
      FinishedAcceptsNothing(db, reqs[0], i);
      ReplaysNothing(db.bets[i], Handle(db, reqs[0]).bets[i], db.games[db.bets[i].game].edge);
      hide *;
      FinishedBetsStay(Handle(db, reqs[0]), reqs[1..], i);
    }
  }
}
