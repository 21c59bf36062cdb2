/** The same for Towers: a plan followed through the service is worth what it is worth on the grid that was laid. */
module ClimbPlans {
  import opened Accounts
  import opened Arithmetic
  import opened MinesRound
  import opened Play
  import opened PlayReplay
  import opened PlayRounds
  import opened PlayRuns
  import opened PlaySafety
  import opened Rng
  import opened Towers
  import opened TowersRound

  function RequestFor(user: UserId, session: nat, bet: nat, move: Move): Request {
    match move
    case Reveal(tile) => RevealTowersReq(user, session, bet, tile)
    case CashOut => CashOutTowersReq(user, session, bet)
  }

  /** The player sends the plan's next move until the round is over, a move is rejected, or n requests have been sent. */
  function Served(db: Db, user: UserId, session: nat, bet: nat, plan: Plan, n: nat): Db
    decreases n
  {
    if n == 0 || bet >= |db.bets| || db.bets[bet].status != Open then db
    else
      var next := Handle(db, RequestFor(user, session, bet, plan(PicksOn(db.bets[bet].board))));
      if next == db then db else Served(next, user, session, bet, plan, n - 1)
  }

  function FloorsLeft(board: Board): int {
    if board.TowersBoard? then |board.grid| - |board.picks| else 0
  }

  /** A player's own round in a session that is open. */
  predicate InPlay(db: Db, user: UserId, session: nat, bet: nat) {
    && RequireOpenSession(db, user, session, TowersGame).Ok? && FindRound(db, user, session, bet).Ok?
  }

  /** What a move does to the player's round: the replay's step, and nothing at all if that rejects it. */
  ghost predicate Moves(db: Db, user: UserId, session: nat, bet: nat, move: Move, after: Db) {
    && MovableTowers(db, bet) && db.bets[bet].game < |db.games| == |after.games| && after.games == db.games
    && bet < |after.bets| && after.bets[bet].board.TowersBoard? && SameTerms(db.bets[bet], after.bets[bet])
    && var r, stake, edge := AsClimb(db.bets[bet]), db.bets[bet].stake, db.games[db.bets[bet].game].edge;
       && AsClimb(after.bets[bet]) == ClimbStep(r, move, stake, edge)
       && (after == db <==> ClimbStep(r, move, stake, edge) == r)
       && (after.bets[bet].status == Open ==> InPlay(after, user, session, bet))
  }

  /** Every tile of the next floor is accepted, nothing else is. */
  lemma RevealAccepted(db: Db, user: UserId, session: nat, bet: nat, tile: nat)
    requires InPlay(db, user, session, bet) && MovableTowers(db, bet)
    ensures RevealTowers(db, user, session, bet, tile).1.Ok? <==> tile < TowersConfig(db.bets[bet].board.level).tiles
  {
    var b := db.bets[bet];
    var game := RequireOpenSession(db, user, session, TowersGame).value;
    PickStillFound(db, user, session, TowersGame, bet, tile, TowersMultiplier(b.board.level, |b.board.picks| + 1, EdgeOf(db, game)));
    hide BetOk;
    hide TowersMultiplier;
    hide RequireOpenSession;
    hide PayRound;
  }

  /** Only a move that closes the round touches the session. */
  lemma StaysInPlay(db: Db, user: UserId, session: nat, bet: nat, b: Bet, after: Db)
    requires InPlay(db, user, session, bet) && MovesTo(db, bet, b, after) && b.status == Open
    ensures InPlay(after, user, session, bet)
  {
  }

  lemma RevealMoves(db: Db, user: UserId, session: nat, bet: nat, tile: nat)
    requires Inv(db) && InPlay(db, user, session, bet)
    ensures Moves(db, user, session, bet, Reveal(tile), RevealTowers(db, user, session, bet, tile).0)
  {
    FoundTowers(db, user, session, bet);
    StoredBetOk(db, bet);
    RevealAccepted(db, user, session, bet, tile);
    RevealTowersMoves(db, user, session, bet, tile);
    var (after, reply) := RevealTowers(db, user, session, bet, tile);
    if reply.Ok? {
      var b := db.bets[bet];
      var edge := db.games[b.game].edge;
      ClimbIsStep(b, tile, edge);
      RevealChanges(b, tile, edge);
      if ClimbedBet(b, tile, edge).status == Open {
        StaysInPlay(db, user, session, bet, ClimbedBet(b, tile, edge), after);
      }
    }
    hide Inv;
    hide BetOk;
    hide InPlay;
    hide RevealTowers;
    hide ClimbedBet;
    hide ClimbStep;
  }

  lemma RevealChanges(b: Bet, tile: nat, edge: real)
    requires b.board.TowersBoard?
    ensures var after := ClimbedBet(b, tile, edge);
            after.board.TowersBoard? && |after.board.picks| == |b.board.picks| + 1 && SameTerms(b, after)
  {
    hide TowersMultiplier;
    hide PayoutCents;
  }

  lemma CashOutAccepted(db: Db, user: UserId, session: nat, bet: nat)
    requires InPlay(db, user, session, bet) && MovableTowers(db, bet)
    ensures CashOutRound(db, user, session, TowersGame, bet).1.Ok? <==> db.bets[bet].board.picks != []
  {
    hide BetOk;
    hide RequireOpenSession;
    hide PayRound;
    hide PayoutCents;
  }

  lemma CashOutMovesRound(db: Db, user: UserId, session: nat, bet: nat)
    requires Inv(db) && InPlay(db, user, session, bet)
    ensures Moves(db, user, session, bet, CashOut, CashOutRound(db, user, session, TowersGame, bet).0)
  {
    FoundTowers(db, user, session, bet);
    StoredBetOk(db, bet);
    CashOutAccepted(db, user, session, bet);
    CashOutMoves(db, user, session, TowersGame, bet);
    var (after, reply) := CashOutRound(db, user, session, TowersGame, bet);
    if reply.Ok? {
      PaidIsStep(db.bets[bet], db.games[db.bets[bet].game].edge);
      PaidChanges(db.bets[bet]);
    } else {
      NothingToPay(AsClimb(db.bets[bet]), db.bets[bet].stake, db.games[db.bets[bet].game].edge);
    }
    hide Inv;
    hide BetOk;
    hide InPlay;
    hide CashOutRound;
    hide PaidBet;
    hide ClimbStep;
  }

  lemma PaidChanges(b: Bet)
    ensures var after := PaidBet(b);
            after.board == b.board && after.status == CashedOut && SameTerms(b, after)
  {
  }

  lemma NothingToPay(r: Climb, stake: nat, edge: real)
    requires r.picks == []
    ensures ClimbStep(r, CashOut, stake, edge) == r
  {
  }

  lemma HandleIs(db: Db, user: UserId, session: nat, bet: nat, move: Move)
    ensures Handle(db, RequestFor(user, session, bet, move))
         == match move
            case Reveal(tile) => RevealTowers(db, user, session, bet, tile).0
            case CashOut => CashOutRound(db, user, session, TowersGame, bet).0
  {
    hide RevealTowers;
    hide CashOutRound;
  }

  /** Each request of the plan makes the replay's step. */
  lemma HandleMoves(db: Db, user: UserId, session: nat, bet: nat, move: Move)
    requires Inv(db) && InPlay(db, user, session, bet)
    ensures Moves(db, user, session, bet, move, Handle(db, RequestFor(user, session, bet, move)))
  {
    hide *;
    HandleIs(db, user, session, bet, move);
    match move
    case Reveal(tile) => RevealMoves(db, user, session, bet, tile);
    case CashOut => CashOutMovesRound(db, user, session, bet);
  }

  lemma OpenRoundIsClimbing(db: Db, bet: nat)
    requires MovableTowers(db, bet)
    ensures Climbing(AsClimb(db.bets[bet]))
  {
  }

  lemma RoundInPlay(db: Db, user: UserId, session: nat, bet: nat)
    requires Inv(db) && InPlay(db, user, session, bet)
    ensures MovableTowers(db, bet) && bet < |db.bets| && db.bets[bet].status == Open && db.bets[bet].board.TowersBoard?
    ensures db.bets[bet].game < |db.games| && Climbing(AsClimb(db.bets[bet]))
  {
    FoundTowers(db, user, session, bet);
    StoredBetOk(db, bet);
    OpenRoundIsClimbing(db, bet);
    hide *;
    MovableUnfold(db, bet);
  }

  lemma MovableUnfold(db: Db, bet: nat)
    requires MovableTowers(db, bet)
    ensures bet < |db.bets| && db.bets[bet].status == Open && db.bets[bet].board.TowersBoard?
  {
    hide BetOk;
  }

  /** One more pick has been made by any move that leaves the round open and is not rejected. */
  lemma OpenStepPicks(r: Climb, move: Move, stake: nat, edge: real)
    requires r.status == Open && ClimbStep(r, move, stake, edge) != r && ClimbStep(r, move, stake, edge).status == Open
    ensures |ClimbStep(r, move, stake, edge).picks| == |r.picks| + 1
    ensures ClimbStep(r, move, stake, edge).grid == r.grid
  {
    hide TowersMultiplier;
  }

  lemma ServedUnfold(db: Db, user: UserId, session: nat, bet: nat, plan: Plan, n: nat)
    requires n > 0 && bet < |db.bets| && db.bets[bet].status == Open
    ensures var next := Handle(db, RequestFor(user, session, bet, plan(PicksOn(db.bets[bet].board))));
            Served(db, user, session, bet, plan, n) == if next == db then db else Served(next, user, session, bet, plan, n - 1)
  {
    hide Handle;
  }

  lemma ServedOver(db: Db, user: UserId, session: nat, bet: nat, plan: Plan, n: nat)
    requires bet < |db.bets| && db.bets[bet].status != Open
    ensures Served(db, user, session, bet, plan, n) == db
  {
  }

  /**
   * Whatever plan a player follows through the service, the stored round ends as the plan's play on the board that was laid
   * does. So what no plan can change about the play, it cannot change about the service.
   */
  lemma {:induction false} ServiceFollowsPlan(db: Db, user: UserId, session: nat, bet: nat, plan: Plan, n: nat)
    requires Inv(db) && InPlay(db, user, session, bet)
    requires n >= FloorsLeft(db.bets[bet].board)
    ensures MovableTowers(db, bet) && db.bets[bet].game < |db.games| && Climbing(AsClimb(db.bets[bet]))
    ensures var last := Served(db, user, session, bet, plan, n);
            && bet < |last.bets| && last.bets[bet].board.TowersBoard?
            && AsClimb(last.bets[bet])
               == PlayClimb(AsClimb(db.bets[bet]), plan, db.bets[bet].stake, db.games[db.bets[bet].game].edge)
    decreases n
  {
    hide *;
    RoundInPlay(db, user, session, bet);
    var b := db.bets[bet];
    var r, edge := AsClimb(b), db.games[b.game].edge;
    var move := plan(PicksOn(b.board));
    var next := Handle(db, RequestFor(user, session, bet, move));
    TowersBetIs(b);
    HandleMoves(db, user, session, bet, move);
    HandleKeeps(db, RequestFor(user, session, bet, move));
    MovesMeans(db, user, session, bet, move, next);
    ServedUnfold(db, user, session, bet, plan, n);
    PlayClimbUnfold(r, plan, b.stake, edge);
    if next != db {
      TowersBetIs(next.bets[bet]);
      if next.bets[bet].status == Open {
        OpenStepPicks(r, move, b.stake, edge);
        ServiceFollowsPlan(next, user, session, bet, plan, n - 1);
      } else {
        ServedOver(next, user, session, bet, plan, n - 1);
      }
    }
  }

  lemma TowersBetIs(b: Bet)
    requires b.board.TowersBoard?
    ensures AsClimb(b).status == b.status && AsClimb(b).picks == PicksOn(b.board)
    ensures FloorsLeft(b.board) == |AsClimb(b).grid| - |AsClimb(b).picks|
    ensures Climbing(AsClimb(b)) ==> FloorsLeft(b.board) > 0
  {
  }

  lemma MovesMeans(db: Db, user: UserId, session: nat, bet: nat, move: Move, after: Db)
    requires Moves(db, user, session, bet, move, after)
    ensures MovableTowers(db, bet) && db.bets[bet].board.TowersBoard? && db.bets[bet].status == Open
    ensures db.bets[bet].game < |db.games| && after.games == db.games
    ensures bet < |after.bets| && after.bets[bet].board.TowersBoard?
    ensures after.bets[bet].stake == db.bets[bet].stake && after.bets[bet].game == db.bets[bet].game
    ensures var r, stake, edge := AsClimb(db.bets[bet]), db.bets[bet].stake, db.games[db.bets[bet].game].edge;
            && AsClimb(after.bets[bet]) == ClimbStep(r, move, stake, edge)
            && (after == db <==> ClimbStep(r, move, stake, edge) == r)
            && (after.bets[bet].status == Open ==> InPlay(after, user, session, bet))
  {
    hide ClimbStep;
    hide InPlay;
    hide BetOk;
  }

  /** A round that has just been started is in play. */
  lemma StartedInPlay(db: Db, user: UserId, session: nat, stake: real, level: Difficulty, stream: Stream, draw: Draw)
    requires StartTowers(db, user, session, stake, level, stream, draw).1.Ok?
    ensures var (first, reply) := StartTowers(db, user, session, stake, level, stream, draw);
            InPlay(first, user, session, reply.value)
  {
    hide Decision;
    hide ParseStake;
    hide NextNonce;
    hide BuildTowersGrid;
  }

  /** Starting a round and following a plan is worth what the plan is worth on the grid that the round's draws lay. */
  lemma PlanThroughService(db: Db, user: UserId, session: nat, stake: real, level: Difficulty, stream: Stream, draw: Draw, plan: Plan)
    requires Inv(db) && StartTowers(db, user, session, stake, level, stream, draw).1.Ok?
    ensures var (first, reply) := StartTowers(db, user, session, stake, level, stream, draw);
            var game := RequireOpenSession(db, user, session, TowersGame).value;
            var i, edge, laid := reply.value, db.games[game].edge, BuildTowersGrid(level, stream, TowersConfig(level).rows);
            var last := Served(first, user, session, i, plan, TowersConfig(level).rows);
            && i < |last.bets| && last.bets[i].board.TowersBoard? && i < |first.bets|
            && UnroundedClimb(AsClimb(last.bets[i]), first.bets[i].stake, edge) == ClimbWorth(level, plan, first.bets[i].stake, edge)(laid)
  {
    var (first, reply) := StartTowers(db, user, session, stake, level, stream, draw);
    StartTowersKeeps(db, user, session, stake, level, stream, draw);
    StartedInPlay(db, user, session, stake, level, stream, draw);
    StartedBet(db, user, session, TowersGame, stake, true, TowersBoardFor(level, stream), draw);
    hide StartRound;
    hide Inv;
    hide InPlay;
    hide Served;
    hide Decision;
    hide BuildTowersGrid;
    hide RequireOpenSession;
    hide PlayClimb;
    hide UnroundedClimb;
    hide BetOk;
    ServiceFollowsPlan(first, user, session, reply.value, plan, TowersConfig(level).rows);
    assert Climbing(StartClimb(level, first.bets[reply.value].board.grid));
  }
}
