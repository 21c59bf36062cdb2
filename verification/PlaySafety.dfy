/** What every run of requests keeps, from the first player on. */
module PlaySafety {
  import opened Accounts
  import opened Arithmetic
  import opened Mines
  import opened MinesRound
  import opened Play
  import opened PlayMoney
  import opened PlayRounds
  import opened PlayRuns
  import opened Sums
  import opened Towers
  import opened TowersRound

  /** The bet at i goes from one round to the next by b, and nothing else moves but its user's money and session. */
  ghost predicate MovesTo(db: Db, i: nat, b: Bet, after: Db) {
    i < |db.bets| && SameRound(db, i, b) && b.session < |db.sessions| && after == Closed(db, i, b)
  }

  /** The open round a player may move on at i: a bet on a board of the session's game. */
  ghost predicate MovableMines(db: Db, i: nat) {
    && i < |db.bets| && BetOk(db.games, db.bets[i]) && db.bets[i].status == Open && db.bets[i].payout == 0
    && db.bets[i].board.MinesBoard?
  }

  ghost predicate MovableTowers(db: Db, i: nat) {
    && i < |db.bets| && BetOk(db.games, db.bets[i]) && db.bets[i].status == Open && db.bets[i].payout == 0
    && db.bets[i].board.TowersBoard?
  }

  lemma FoundMines(db: Db, user: UserId, session: nat, i: nat)
    requires Inv(db) && RequireOpenSession(db, user, session, MinesGame).Ok? && FindRound(db, user, session, i).Ok?
    ensures MovableMines(db, i) && db.bets[i].session == session < |db.sessions| && db.bets[i].user in db.wallets
    ensures db.bets[i].game == RequireOpenSession(db, user, session, MinesGame).value
  {
    FoundRound(db, user, session, MinesGame, i);
    hide Inv;
    hide RequireOpenSession;
    hide Legal;
    hide LegalClimb;
  }

  lemma FoundTowers(db: Db, user: UserId, session: nat, i: nat)
    requires Inv(db) && RequireOpenSession(db, user, session, TowersGame).Ok? && FindRound(db, user, session, i).Ok?
    ensures MovableTowers(db, i) && db.bets[i].session == session < |db.sessions| && db.bets[i].user in db.wallets
    ensures db.bets[i].game == RequireOpenSession(db, user, session, TowersGame).value
  {
    FoundRound(db, user, session, TowersGame, i);
    hide Inv;
    hide RequireOpenSession;
    hide Legal;
    hide LegalClimb;
  }

  /** A pick leaves the session and the round's row where a cash-out looks for them. */
  lemma PickStillFound(db: Db, user: UserId, session: nat, slug: Slug, i: nat, tile: nat, multiplier: int)
    requires FindRound(db, user, session, i).Ok? && !db.bets[i].board.NoBoard?
    ensures var next := SafePick(db, i, tile, multiplier);
            && RequireOpenSession(next, user, session, slug) == RequireOpenSession(db, user, session, slug)
            && FindRound(next, user, session, i) == Ok(i) && PicksOn(next.bets[i].board) != []
            && next.bets[i].stake == db.bets[i].stake
  {
  }

  lemma CashOutFound(db: Db, user: UserId, session: nat, slug: Slug, i: nat)
    requires RequireOpenSession(db, user, session, slug).Ok? && FindRound(db, user, session, i).Ok?
    requires PicksOn(db.bets[i].board) != []
    ensures CashOutRound(db, user, session, slug, i).0 == PayRound(db, i)
    ensures CashOutRound(db, user, session, slug, i).1.Ok?
  {
    hide RequireOpenSession;
    hide PayRound;
    hide PayoutCents;
  }

  /**
   * A rejected reveal changes nothing; an accepted one makes exactly the replay's move of that round. In particular
   * the cash-out that the last safe pick triggers never fails.
   */
  lemma RevealMinesMoves(db: Db, user: UserId, session: nat, i: nat, tile: int)
    requires Inv(db)
    ensures var (after, reply) := RevealMines(db, user, session, i, tile);
            if reply.Err? then after == db
            else
              && MovableMines(db, i) && 0 <= tile < MINES_TILE_COUNT && tile !in db.bets[i].board.revealed
              && var b := RevealedMinesBet(db.bets[i], tile, db.games[db.bets[i].game].edge);
                 MovesTo(db, i, b, after) && reply == Ok(b.status)
  {
    var owned := RequireOpenSession(db, user, session, MinesGame);
    if 0 <= tile < MINES_TILE_COUNT && owned.Ok? && FindRound(db, user, session, i).Ok? {
      FoundMines(db, user, session, i);
      var b := db.bets[i];
      var edge := db.games[b.game].edge;
      var multiplier := MinesMultiplier(MINES_TILE_COUNT, |b.board.mines|, |b.board.revealed| + 1, edge);
      hide BetOk;
      hide RequireOpenSession;
      hide MinesMultiplier;
      LoseIsClosed(db, i, tile);
      PickIsClosed(db, i, tile, multiplier);
      PickThenPayIsClosed(db, i, tile, multiplier);
      PickStillFound(db, user, session, MinesGame, i, tile, multiplier);
      CashOutFound(SafePick(db, i, tile, multiplier), user, session, MinesGame, i);
      hide Inv;
      hide LoseRound;
      hide SafePick;
      hide CashOutRound;
      hide PayRound;
      hide Closed;
      hide PayoutCents;
    }
  }

  lemma RevealTowersMoves(db: Db, user: UserId, session: nat, i: nat, tile: int)
    requires Inv(db)
    ensures var (after, reply) := RevealTowers(db, user, session, i, tile);
            if reply.Err? then after == db
            else
              && MovableTowers(db, i) && 0 <= tile < TowersConfig(db.bets[i].board.level).tiles
              && |db.bets[i].board.picks| < |db.bets[i].board.grid|
              && var b := ClimbedBet(db.bets[i], tile, db.games[db.bets[i].game].edge);
                 MovesTo(db, i, b, after) && reply == Ok(b.status)
  {
    var owned := RequireOpenSession(db, user, session, TowersGame);
    if owned.Err? || FindRound(db, user, session, i).Err? {
      return;
    }
    FoundTowers(db, user, session, i);
    var b := db.bets[i];
    if tile < 0 || tile >= TowersConfig(b.board.level).tiles {
      return;
    }
    var edge := db.games[b.game].edge;
    var multiplier := TowersMultiplier(b.board.level, |b.board.picks| + 1, edge);
    hide LegalClimb;
    hide RequireOpenSession;
    hide TowersMultiplier;
    LoseIsClosed(db, i, tile);
    PickIsClosed(db, i, tile, multiplier);
    PickThenPayIsClosed(db, i, tile, multiplier);
    PickStillFound(db, user, session, TowersGame, i, tile, multiplier);
    CashOutFound(SafePick(db, i, tile, multiplier), user, session, TowersGame, i);
    hide Inv;
    hide LoseRound;
    hide SafePick;
    hide CashOutRound;
    hide PayRound;
    hide Closed;
    hide PayoutCents;
    hide TowersConfig;
  }

  /** A rejected cash-out changes nothing; an accepted one pays the stored multiplier once. */
  lemma CashOutMoves(db: Db, user: UserId, session: nat, slug: Slug, i: nat)
    requires Inv(db)
    ensures var (after, reply) := CashOutRound(db, user, session, slug, i);
            if reply.Err? then after == db
            else
              && i < |db.bets| && PicksOn(db.bets[i].board) != [] && BetOk(db.games, db.bets[i]) && db.bets[i].payout == 0
              && MovesTo(db, i, PaidBet(db.bets[i]), after) && reply == Ok(PaidBet(db.bets[i]).payout)
  {
    if RequireOpenSession(db, user, session, slug).Ok? && FindRound(db, user, session, i).Ok? {
      FoundRound(db, user, session, slug, i);
      PayIsClosed(db, i);
      hide BetOk;
      hide Inv;
      hide RequireOpenSession;
      hide PayRound;
      hide Closed;
      hide PayoutCents;
    }
  }

  lemma MoveKeeps(db: Db, i: nat, b: Bet, after: Db)
    requires Inv(db) && MovesTo(db, i, b, after) && BetOk(db.games, b)
    requires db.bets[i].payout == 0 && (b.status != CashedOut ==> b.payout == 0)
    ensures Inv(after)
  {
    hide Inv;
    hide BetOk;
    ClosedKeeps(db, i, b);
  }

  lemma RevealMinesKeeps(db: Db, user: UserId, session: nat, i: nat, tile: int)
    requires Inv(db)
    ensures Inv(RevealMines(db, user, session, i, tile).0)
  {
    RevealMinesMoves(db, user, session, i, tile);
    var (after, reply) := RevealMines(db, user, session, i, tile);
    if reply.Ok? {
      InvFair(db);
      var edge := db.games[db.bets[i].game].edge;
      RevealedBetOk(db.games, db.bets[i], tile);
      RevealedStatus(db.bets[i], tile, edge);
      hide *;
      MoveKeeps(db, i, RevealedMinesBet(db.bets[i], tile, edge), after);
    }
  }

  lemma InvFair(db: Db)
    requires Inv(db)
    ensures FairGames(db.games)
  {
    hide Money;
    hide Totals;
    hide OneOpen;
    hide Nonces;
    hide Rounds;
    hide Linked;
    hide FairGames;
  }

  lemma RevealedStatus(b: Bet, tile: nat, edge: real)
    requires b.status == Open && b.payout == 0
    ensures b.board.MinesBoard? ==> RevealedMinesBet(b, tile, edge).status != CashedOut ==> RevealedMinesBet(b, tile, edge).payout == 0
    ensures b.board.TowersBoard? ==> ClimbedBet(b, tile, edge).status != CashedOut ==> ClimbedBet(b, tile, edge).payout == 0
    ensures PaidBet(b).status == CashedOut
  {
  }

  lemma RevealTowersKeeps(db: Db, user: UserId, session: nat, i: nat, tile: int)
    requires Inv(db)
    ensures Inv(RevealTowers(db, user, session, i, tile).0)
  {
    RevealTowersMoves(db, user, session, i, tile);
    var (after, reply) := RevealTowers(db, user, session, i, tile);
    if reply.Ok? {
      InvFair(db);
      var edge := db.games[db.bets[i].game].edge;
      ClimbedBetOk(db.games, db.bets[i], tile);
      RevealedStatus(db.bets[i], tile, edge);
      hide *;
      MoveKeeps(db, i, ClimbedBet(db.bets[i], tile, edge), after);
    }
  }

  lemma CashOutKeeps(db: Db, user: UserId, session: nat, slug: Slug, i: nat)
    requires Inv(db)
    ensures Inv(CashOutRound(db, user, session, slug, i).0)
  {
    CashOutMoves(db, user, session, slug, i);
    var (after, reply) := CashOutRound(db, user, session, slug, i);
    if reply.Ok? {
      PaidBetOk(db.games, db.bets[i]);
      RevealedStatus(db.bets[i], 0, 0.0);
      hide *;
      MoveKeeps(db, i, PaidBet(db.bets[i]), after);
    }
  }

  /** Changing no more than which sessions are ended, or adding a session with no bets. */
  predicate SessionsOnly(before: seq<Session>, after: seq<Session>) {
    && |before| <= |after|
    && (forall s: nat :: s < |before| ==> after[s] == before[s].(ended := after[s].ended))
    && (forall s: nat :: |before| <= s < |after| ==> SameTotals(Session(0, 0, 0, 0, 0, false), after[s]))
  }

  lemma SessionsOnlyKeeps(db: Db, after: Db)
    requires Inv(db) && after == db.(sessions := after.sessions) && SessionsOnly(db.sessions, after.sessions)
    ensures Inv(after)
  {
    TotalsSessionsOnly(db.sessions, db.bets, after.sessions);
    forall i | 0 <= i < |after.bets|
      ensures LinkedBet(after.wallets, after.sessions, after.bets[i])
    {
      assert LinkedBet(db.wallets, db.sessions, db.bets[i]);
    }
    hide Money;
    hide Totals;
    hide OneOpen;
    hide Nonces;
    hide Rounds;
    hide LinkedBet;
  }

  lemma StartSessionKeeps(db: Db, user: UserId, game: nat)
    requires Inv(db)
    ensures Inv(StartSession(db, user, game))
  {
    hide Inv;
    SessionsOnlyKeeps(db, StartSession(db, user, game));
  }

  lemma EndSessionKeeps(db: Db, user: UserId, session: nat)
    requires Inv(db)
    ensures Inv(EndSession(db, user, session))
  {
    hide Inv;
    SessionsOnlyKeeps(db, EndSession(db, user, session));
  }

  /** A change to the ledger that leaves confirmed rows and their sums as they are. */
  lemma LedgerKeeps(db: Db, ledger: seq<Tx>)
    requires Inv(db) && DepositsOk(ledger)
    requires forall x :: Sum(ledger, DepositOf(x)) == Sum(db.ledger, DepositOf(x)) && Sum(ledger, AmountOf(x)) == Sum(db.ledger, AmountOf(x))
    ensures Inv(db.(ledger := ledger))
  {
    forall x
      ensures Funds(db.wallets, db.bets, ledger, x)
    {
      assert Funds(db.wallets, db.bets, db.ledger, x);
    }
    hide Sum;
    hide Totals;
    hide OneOpen;
    hide Nonces;
    hide Rounds;
    hide Linked;
  }

  lemma QuoteKeeps(db: Db, user: UserId, amount: nat)
    requires Inv(db)
    ensures Inv(QuoteDeposit(db, user, amount))
  {
    var tx := Tx(user, DepositTx, Pending, amount);
    forall x
      ensures Sum(db.ledger + [tx], DepositOf(x)) == Sum(db.ledger, DepositOf(x))
      ensures Sum(db.ledger + [tx], AmountOf(x)) == Sum(db.ledger, AmountOf(x))
    {
      SumAppend(db.ledger, tx, DepositOf(x));
      SumAppend(db.ledger, tx, AmountOf(x));
    }
    InvDeposits(db);
    hide Inv;
    hide Sum;
    LedgerKeeps(db, db.ledger + [tx]);
  }

  lemma InvDeposits(db: Db)
    requires Inv(db)
    ensures DepositsOk(db.ledger)
  {
    hide Money;
    hide Totals;
    hide OneOpen;
    hide Nonces;
    hide Rounds;
    hide Linked;
    hide DepositsOk;
  }

  lemma MoveDepositKeeps(db: Db, i: nat, status: TxStatus)
    requires Inv(db)
    ensures Inv(MoveDeposit(db, i, status))
  {
    if i < |db.ledger| && db.ledger[i].kind == DepositTx && db.ledger[i].status == Pending && status != Confirmed {
      var tx := db.ledger[i].(status := status);
      forall x
        ensures Sum(db.ledger[i := tx], DepositOf(x)) == Sum(db.ledger, DepositOf(x))
        ensures Sum(db.ledger[i := tx], AmountOf(x)) == Sum(db.ledger, AmountOf(x))
      {
        SumUpdate(db.ledger, i, tx, DepositOf(x));
        SumUpdate(db.ledger, i, tx, AmountOf(x));
      }
      InvDeposits(db);
      hide Inv;
      hide Sum;
      LedgerKeeps(db, db.ledger[i := tx]);
    }
  }

  lemma CreditKeeps(db: Db, i: nat)
    requires Inv(db)
    ensures Inv(CreditDeposit(db, i))
  {
    if Creditable(db.ledger, i) {
      var tx := db.ledger[i].(status := Confirmed);
      var ledger := db.ledger[i := tx];
      var d := Delta(0, 0, 0, tx.amount, tx.amount);
      InvDeposits(db);
      InvMoney(db, tx.user);
      forall x
        ensures BetsGrow(db.bets, db.bets, tx.user, x, d) && LedgerGrows(db.ledger, ledger, tx.user, x, d)
      {
        TxUpdated(db.ledger, i, tx, x, d);
      }
      hide Sum;
      MoneyMoves(db.wallets, db.bets, db.ledger, db.bets, ledger, tx.user, d);
      CreditIs(db, i);
      assert DepositsOk(ledger);
      hide Money;
      hide DepositsOk;
      WalletAdded(db, CreditDeposit(db, i), tx.user);
    }
  }

  lemma InvMoney(db: Db, user: UserId)
    requires Inv(db)
    ensures Money(db.wallets, db.bets, db.ledger) && WalletIn(db.wallets, user).balance >= 0
  {
    assert Funds(db.wallets, db.bets, db.ledger, user);
    hide Sum;
    hide Totals;
    hide OneOpen;
    hide Nonces;
    hide Rounds;
    hide Linked;
  }

  lemma CreditIs(db: Db, i: nat)
    requires Creditable(db.ledger, i)
    ensures var tx := db.ledger[i].(status := Confirmed);
            var d := Delta(0, 0, 0, tx.amount, tx.amount);
            CreditDeposit(db, i) == db.(wallets := db.wallets[tx.user := Grown(WalletIn(db.wallets, tx.user), d)],
                                        ledger := db.ledger[i := tx])
  {
  }

  lemma WalletAdded(db: Db, after: Db, user: UserId)
    requires Inv(db) && after == db.(wallets := after.wallets, ledger := after.ledger)
    requires Money(after.wallets, after.bets, after.ledger) && DepositsOk(after.ledger)
    requires user in after.wallets && forall x :: x in db.wallets ==> x in after.wallets
    ensures Inv(after)
  {
    forall i | 0 <= i < |after.bets|
      ensures LinkedBet(after.wallets, after.sessions, after.bets[i])
    {
      assert LinkedBet(db.wallets, db.sessions, db.bets[i]);
    }
    hide Money;
    hide Totals;
    hide OneOpen;
    hide Nonces;
    hide Rounds;
    hide DepositsOk;
  }

  /** Whatever the request, the tables stay in order. */
  lemma HandleKeeps(db: Db, req: Request)
    requires Inv(db)
    ensures Inv(Handle(db, req))
  {
    hide Inv;
    hide StartSession;
    hide EndSession;
    hide PlaceBet;
    hide StartMines;
    hide StartTowers;
    hide RevealMines;
    hide RevealTowers;
    hide CashOutRound;
    hide QuoteDeposit;
    hide CreditDeposit;
    hide MoveDeposit;
    match req
    case StartSessionReq(user, game) => StartSessionKeeps(db, user, game);
    case EndSessionReq(user, session) => EndSessionKeeps(db, user, session);
    case PlaceBetReq(user, session, slug, stake, valid, engine, draw) => PlaceBetKeeps(db, user, session, slug, stake, valid, engine, draw);
    case StartMinesReq(user, session, stake, mineCount, stream, draw) => StartMinesKeeps(db, user, session, stake, mineCount, stream, draw);
    case StartTowersReq(user, session, stake, level, stream, draw) => StartTowersKeeps(db, user, session, stake, level, stream, draw);
    case RevealMinesReq(user, session, bet, tile) => RevealMinesKeeps(db, user, session, bet, tile);
    case RevealTowersReq(user, session, bet, tile) => RevealTowersKeeps(db, user, session, bet, tile);
    case CashOutMinesReq(user, session, bet) => CashOutKeeps(db, user, session, MinesGame, bet);
    case CashOutTowersReq(user, session, bet) => CashOutKeeps(db, user, session, TowersGame, bet);
    case QuoteReq(user, amount) => QuoteKeeps(db, user, amount);
    case CreditReq(deposit) => CreditKeeps(db, deposit);
    case FlagReq(deposit) => MoveDepositKeeps(db, deposit, Review);
    case CancelReq(deposit) => MoveDepositKeeps(db, deposit, Cancelled);
  }

  /** Every run keeps the tables in order. */
  lemma {:induction false} RunKeeps(db: Db, reqs: seq<Request>)
    requires Inv(db)
    ensures Inv(Run(db, reqs))
    decreases |reqs|
  {
    RunUnfold(db, reqs);
    hide *;
    if reqs != [] {
      HandleKeeps(db, reqs[0]);
      RunKeeps(Handle(db, reqs[0]), reqs[1..]);
    }
  }

  lemma RunUnfold(db: Db, reqs: seq<Request>)
    ensures Run(db, reqs) == if reqs == [] then db else Run(Handle(db, reqs[0]), reqs[1..])
  {
    hide Handle;
  }

  /**
   * Whatever players do, from the first one on: what is locked is the stakes of the open rounds, the balance is what was
   * deposited less what was staked plus what was won, it is never negative and is what the ledger says; a session's totals
   * are those of its bets, and its counter is the number of its bets plus the number of those cashed out; one round at most is open per player and game; and nonces count up from 1.
   */
  lemma EveryRunBalances(db: Db, reqs: seq<Request>, user: UserId, session: nat)
    requires Fresh(db)
    ensures var last := Run(db, reqs);
            var w := WalletIn(last.wallets, user);
            && w.locked == Sum(last.bets, OpenStake(user))
            && w.wagered == Sum(last.bets, StakeOf(user)) && w.won == Sum(last.bets, PayoutOf(user))
            && w.deposited == Sum(last.ledger, DepositOf(user))
            && 0 <= w.balance == w.deposited - w.wagered + w.won == Sum(last.ledger, AmountOf(user))
            && (session < |last.sessions| ==> last.sessions[session].staked == Sum(last.bets, StakeIn(session))
                                              && last.sessions[session].won == Sum(last.bets, PayoutIn(session))
                                              && last.sessions[session].betCount
                                                 == Count(last.bets, IsIn(session)) + Count(last.bets, IsCashedIn(session)))
            && OneOpen(last.bets) && Nonces(last.bets)
  {
    var last := Run(db, reqs);
    FreshIsInv(db);
    RunKeeps(db, reqs);
    assert Funds(last.wallets, last.bets, last.ledger, user);
    assert session < |last.sessions| ==> SessionFunds(last.sessions, last.bets, session);
    BumpsAreBetsAndCashOuts(last.bets, session);
    hide Run;
    hide Sum;
    hide Rounds;
    hide Linked;
    hide OneOpen;
    hide Nonces;
    hide Fresh;
  }

  /** The session's counter is the number of its bets exactly as long as none of them has been cashed out. */
  lemma CounterIsBetsUntilCashOut(db: Db, session: nat)
    requires Inv(db) && session < |db.sessions|
    ensures db.sessions[session].betCount == Count(db.bets, IsIn(session)) <==> forall b <- db.bets :: !IsCashedIn(session)(b)
  {
    assert SessionFunds(db.sessions, db.bets, session);
    hide Inv;
    hide Sum;
    hide Count;
    BumpsAreBetsAndCashOuts(db.bets, session);
    CountZero(db.bets, IsCashedIn(session));
  }
}
