/** A player who follows a plan through the service gets what the plan is worth on the board that was laid. */
module PlayPlans {
  import opened Accounts
  import opened Arithmetic
  import opened Mines
  import opened MinesGrid
  import opened MinesRound
  import opened Play
  import opened PlayReplay
  import opened PlayRounds
  import opened PlayRuns
  import opened PlaySafety
  import opened Rng

  function RequestFor(user: UserId, session: nat, bet: nat, move: Move): Request {
    match move
    case Reveal(tile) => RevealMinesReq(user, session, bet, tile)
    case CashOut => CashOutMinesReq(user, session, bet)
  }

  /** The player sends the plan's next move until the round is over, a move is rejected, or n requests have been sent. */
  function Served(db: Db, user: UserId, session: nat, bet: nat, plan: Plan, n: nat): Db
    decreases n
  {
    if n == 0 || bet >= |db.bets| || db.bets[bet].status != Open then db
    else
      var next := Handle(db, RequestFor(user, session, bet, plan(PicksOn(db.bets[bet].board))));
      if next == db then db else Served(next, user, session, bet, plan, n - 1)
  }

  /** A player's own round in a session that is open. */
  predicate InPlay(db: Db, user: UserId, session: nat, bet: nat) {
    && RequireOpenSession(db, user, session, MinesGame).Ok? && FindRound(db, user, session, bet).Ok?
  }

  /** What a move does to the player's round: the replay's step, and nothing at all if that rejects it. */
  ghost predicate Moves(db: Db, user: UserId, session: nat, bet: nat, move: Move, after: Db) {
    && MovableMines(db, bet) && db.bets[bet].game < |db.games| == |after.games| && after.games == db.games
    && bet < |after.bets| && after.bets[bet].board.MinesBoard? && SameTerms(db.bets[bet], after.bets[bet])
    && var r, stake, edge := AsMines(db.bets[bet]), db.bets[bet].stake, db.games[db.bets[bet].game].edge;
       && AsMines(after.bets[bet]) == Step(r, move, stake, edge)
       && (after == db <==> Step(r, move, stake, edge) == r)
       && (after.bets[bet].status == Open ==> InPlay(after, user, session, bet))
  }

  /** A tile that is covered and on the board is never refused, any other is. */
  lemma RevealAccepted(db: Db, user: UserId, session: nat, bet: nat, tile: nat)
    requires InPlay(db, user, session, bet) && MovableMines(db, bet)
    ensures RevealMines(db, user, session, bet, tile).1.Ok? <==> tile < MINES_TILE_COUNT && tile !in db.bets[bet].board.revealed
  {
    var b := db.bets[bet];
    var game := RequireOpenSession(db, user, session, MinesGame).value;
    PickStillFound(db, user, session, MinesGame, bet, tile, MinesMultiplier(MINES_TILE_COUNT, |b.board.mines|, |b.board.revealed| + 1, EdgeOf(db, game)));
    hide BetOk;
    hide MinesMultiplier;
    hide RequireOpenSession;
    hide PayRound;
  }

  /** Only a move that closes the round touches the session. */
  lemma StaysInPlay(db: Db, user: UserId, session: nat, bet: nat, b: Bet, after: Db)
    requires InPlay(db, user, session, bet) && MovesTo(db, bet, b, after) && b.status == Open
    ensures InPlay(after, user, session, bet)
  {
  }

  lemma RevealMoves(db: Db, user: UserId, session: nat, bet: nat, tile: nat)
    requires Inv(db) && InPlay(db, user, session, bet)
    ensures Moves(db, user, session, bet, Reveal(tile), RevealMines(db, user, session, bet, tile).0)
  {
    FoundMines(db, user, session, bet);
    StoredBetOk(db, bet);
    RevealAccepted(db, user, session, bet, tile);
    RevealMinesMoves(db, user, session, bet, tile);
    var (after, reply) := RevealMines(db, user, session, bet, tile);
    if reply.Ok? {
      var b := db.bets[bet];
      var edge := db.games[b.game].edge;
      RevealIsStep(b, tile, edge);
      RevealChanges(b, tile, edge);
      if RevealedMinesBet(b, tile, edge).status == Open {
        StaysInPlay(db, user, session, bet, RevealedMinesBet(b, tile, edge), after);
      }
    }
    hide Inv;
    hide BetOk;
    hide InPlay;
    hide RevealMines;
    hide RevealedMinesBet;
    hide Step;
  }

  lemma RevealChanges(b: Bet, tile: nat, edge: real)
    requires b.board.MinesBoard?
    ensures var after := RevealedMinesBet(b, tile, edge);
            after.board.MinesBoard? && |after.board.revealed| == |b.board.revealed| + 1 && SameTerms(b, after)
  {
    hide MinesMultiplier;
    hide PayoutCents;
  }

  lemma CashOutAccepted(db: Db, user: UserId, session: nat, bet: nat)
    requires InPlay(db, user, session, bet) && MovableMines(db, bet)
    ensures CashOutRound(db, user, session, MinesGame, bet).1.Ok? <==> db.bets[bet].board.revealed != []
  {
    hide BetOk;
    hide RequireOpenSession;
    hide PayRound;
    hide PayoutCents;
  }

  lemma CashOutMovesRound(db: Db, user: UserId, session: nat, bet: nat)
    requires Inv(db) && InPlay(db, user, session, bet)
    ensures Moves(db, user, session, bet, CashOut, CashOutRound(db, user, session, MinesGame, bet).0)
  {
    FoundMines(db, user, session, bet);
    StoredBetOk(db, bet);
    CashOutAccepted(db, user, session, bet);
    CashOutMoves(db, user, session, MinesGame, bet);
    var (after, reply) := CashOutRound(db, user, session, MinesGame, bet);
    if reply.Ok? {
      PaidIsStep(db.bets[bet], db.games[db.bets[bet].game].edge);
      PaidChanges(db.bets[bet]);
    } else {
      NothingToPay(AsMines(db.bets[bet]), db.bets[bet].stake, db.games[db.bets[bet].game].edge);
    }
    hide Inv;
    hide BetOk;
    hide InPlay;
    hide CashOutRound;
    hide PaidBet;
    hide Step;
  }

  lemma PaidChanges(b: Bet)
    ensures var after := PaidBet(b);
            after.board == b.board && after.status == CashedOut && SameTerms(b, after)
  {
  }

  lemma NothingToPay(r: Round, stake: nat, edge: real)
    requires r.revealed == []
    ensures Step(r, CashOut, stake, edge) == r
  {
  }

  lemma HandleIs(db: Db, user: UserId, session: nat, bet: nat, move: Move)
    ensures Handle(db, RequestFor(user, session, bet, move))
         == match move
            case Reveal(tile) => RevealMines(db, user, session, bet, tile).0
            case CashOut => CashOutRound(db, user, session, MinesGame, bet).0
  {
    hide RevealMines;
    hide CashOutRound;
  }

  /** Each request of the plan makes the replay's step. */
  lemma HandleMoves(db: Db, user: UserId, session: nat, bet: nat, move: Move)
    requires Inv(db) && InPlay(db, user, session, bet)
    ensures Moves(db, user, session, bet, move, Handle(db, RequestFor(user, session, bet, move)))
  {
    hide *;
    HandleIs(db, user, session, bet, move);
    match move
    case Reveal(tile) => RevealMoves(db, user, session, bet, tile);
    case CashOut => CashOutMovesRound(db, user, session, bet);
  }

  lemma OpenRoundIsOngoing(db: Db, bet: nat)
    requires MovableMines(db, bet)
    ensures Ongoing(AsMines(db.bets[bet]))
  {
  }

  lemma RoundInPlay(db: Db, user: UserId, session: nat, bet: nat)
    requires Inv(db) && InPlay(db, user, session, bet)
    ensures MovableMines(db, bet) && bet < |db.bets| && db.bets[bet].status == Open && db.bets[bet].board.MinesBoard?
    ensures db.bets[bet].game < |db.games| && Ongoing(AsMines(db.bets[bet]))
  {
    FoundMines(db, user, session, bet);
    StoredBetOk(db, bet);
    OpenRoundIsOngoing(db, bet);
    hide *;
    MovableUnfold(db, bet);
  }

  lemma MovableUnfold(db: Db, bet: nat)
    requires MovableMines(db, bet)
    ensures bet < |db.bets| && db.bets[bet].status == Open && db.bets[bet].board.MinesBoard?
  {
    hide BetOk;
  }

  /** One more pick has been made by any move that leaves the round open and is not rejected. */
  lemma OpenStepPicks(r: Round, move: Move, stake: nat, edge: real)
    requires r.status == Open && Step(r, move, stake, edge) != r && Step(r, move, stake, edge).status == Open
    ensures |Step(r, move, stake, edge).revealed| == |r.revealed| + 1
    ensures Step(r, move, stake, edge).tiles == r.tiles && Step(r, move, stake, edge).mines == r.mines
  {
    hide MinesMultiplier;
  }

  lemma ServedUnfold(db: Db, user: UserId, session: nat, bet: nat, plan: Plan, n: nat)
    requires n > 0 && bet < |db.bets| && db.bets[bet].status == Open
    ensures var next := Handle(db, RequestFor(user, session, bet, plan(PicksOn(db.bets[bet].board))));
            Served(db, user, session, bet, plan, n) == if next == db then db else Served(next, user, session, bet, plan, n - 1)
  {
    hide Handle;
  }

  lemma ServedOver(db: Db, user: UserId, session: nat, bet: nat, plan: Plan, n: nat)
    requires bet < |db.bets| && db.bets[bet].status != Open
    ensures Served(db, user, session, bet, plan, n) == db
  {
  }

  /**
   * Whatever plan a player follows through the service, the stored round ends as the plan's play on the board that was laid
   * does. So what no plan can change about the play, it cannot change about the service.
   */
  lemma {:induction false} ServiceFollowsPlan(db: Db, user: UserId, session: nat, bet: nat, plan: Plan, n: nat)
    requires Inv(db) && InPlay(db, user, session, bet)
    requires n + |PicksOn(db.bets[bet].board)| >= MINES_TILE_COUNT
    ensures MovableMines(db, bet) && db.bets[bet].game < |db.games| && Ongoing(AsMines(db.bets[bet]))
    ensures var last := Served(db, user, session, bet, plan, n);
            && bet < |last.bets| && last.bets[bet].board.MinesBoard?
            && AsMines(last.bets[bet])
               == MinesRound.Play(AsMines(db.bets[bet]), plan, db.bets[bet].stake, db.games[db.bets[bet].game].edge)
    decreases n
  {
    hide *;
    RoundInPlay(db, user, session, bet);
    var b := db.bets[bet];
    var r, edge := AsMines(b), db.games[b.game].edge;
    var move := plan(PicksOn(b.board));
    var next := Handle(db, RequestFor(user, session, bet, move));
    MinesBetIs(b);
    HandleMoves(db, user, session, bet, move);
    HandleKeeps(db, RequestFor(user, session, bet, move));
    MovesMeans(db, user, session, bet, move, next);
    ServedUnfold(db, user, session, bet, plan, n);
    PlayUnfold(r, plan, b.stake, edge);
    if next != db {
      MinesBetIs(next.bets[bet]);
      if next.bets[bet].status == Open {
        OpenStepPicks(r, move, b.stake, edge);
        ServiceFollowsPlan(next, user, session, bet, plan, n - 1);
      } else {
        ServedOver(next, user, session, bet, plan, n - 1);
      }
    }
  }

  lemma MinesBetIs(b: Bet)
    requires b.board.MinesBoard?
    ensures AsMines(b).status == b.status && AsMines(b).revealed == PicksOn(b.board) && AsMines(b).tiles == MINES_TILE_COUNT
    ensures Ongoing(AsMines(b)) ==> |PicksOn(b.board)| < MINES_TILE_COUNT
  {
  }

  lemma MovesMeans(db: Db, user: UserId, session: nat, bet: nat, move: Move, after: Db)
    requires Moves(db, user, session, bet, move, after)
    ensures MovableMines(db, bet) && db.bets[bet].board.MinesBoard? && db.bets[bet].status == Open
    ensures db.bets[bet].game < |db.games| && after.games == db.games
    ensures bet < |after.bets| && after.bets[bet].board.MinesBoard?
    ensures after.bets[bet].stake == db.bets[bet].stake && after.bets[bet].game == db.bets[bet].game
    ensures var r, stake, edge := AsMines(db.bets[bet]), db.bets[bet].stake, db.games[db.bets[bet].game].edge;
            && AsMines(after.bets[bet]) == Step(r, move, stake, edge)
            && (after == db <==> Step(r, move, stake, edge) == r)
            && (after.bets[bet].status == Open ==> InPlay(after, user, session, bet))
  {
    hide Step;
    hide InPlay;
    hide BetOk;
  }

  /** A round that has just been started is in play. */
  lemma StartedInPlay(db: Db, user: UserId, session: nat, stake: real, mineCount: int, stream: Stream, draw: Draw)
    requires StartMines(db, user, session, stake, mineCount, stream, draw).1.Ok?
    ensures var (first, reply) := StartMines(db, user, session, stake, mineCount, stream, draw);
            InPlay(first, user, session, reply.value)
  {
    hide Decision;
    hide ParseStake;
    hide NextNonce;
    hide BuildMinesGrid;
  }

  /** Starting a round and following a plan is worth what the plan is worth on the mines that the round's draws lay. */
  lemma PlanThroughService(db: Db, user: UserId, session: nat, stake: real, mineCount: int, stream: Stream, draw: Draw, plan: Plan)
    requires Inv(db) && StartMines(db, user, session, stake, mineCount, stream, draw).1.Ok?
    ensures var (first, reply) := StartMines(db, user, session, stake, mineCount, stream, draw);
            var game := RequireOpenSession(db, user, session, MinesGame).value;
            var i, edge, laid := reply.value, db.games[game].edge, BuildMinesGrid(mineCount, stream, Decision(db, user, game, draw));
            var last := Served(first, user, session, i, plan, MINES_TILE_COUNT);
            && i < |last.bets| && last.bets[i].board.MinesBoard? && i < |first.bets|
            && UnroundedPayout(AsMines(last.bets[i]), first.bets[i].stake, edge) == Worth(MINES_TILE_COUNT, plan, first.bets[i].stake, edge)(laid)
  {
    var (first, reply) := StartMines(db, user, session, stake, mineCount, stream, draw);
    StartMinesKeeps(db, user, session, stake, mineCount, stream, draw);
    StartedInPlay(db, user, session, stake, mineCount, stream, draw);
    StartedBet(db, user, session, MinesGame, stake, 1 <= mineCount <= 24, MinesBoardFor(mineCount, stream), draw);
    hide StartRound;
    hide Inv;
    hide InPlay;
    hide Served;
    hide Decision;
    hide BuildMinesGrid;
    hide RequireOpenSession;
    hide MinesRound.Play;
    hide UnroundedPayout;
    hide BetOk;
    ServiceFollowsPlan(first, user, session, reply.value, plan, MINES_TILE_COUNT);
    assert Ongoing(Start(MINES_TILE_COUNT, first.bets[reply.value].board.mines));
  }
}
