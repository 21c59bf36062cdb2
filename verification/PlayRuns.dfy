/** Every request keeps the books, the rounds and the nonces in order; so every run of requests does. */
module PlayRuns {
  import opened Accounts
  import opened Arithmetic
  import opened Control
  import opened MinesGrid
  import opened MinesRound
  import opened Play
  import opened PlayMoney
  import opened PlayRounds
  import opened Rng
  import opened Sums
  import opened Towers

  /** A bet belongs to the user and game of its session, and its user has a wallet. */
  predicate LinkedBet(wallets: map<UserId, Wallet>, sessions: seq<Session>, b: Bet) {
    && b.user in wallets && b.session < |sessions|
    && sessions[b.session].user == b.user && sessions[b.session].game == b.game
  }

  ghost predicate Linked(wallets: map<UserId, Wallet>, sessions: seq<Session>, bets: seq<Bet>) {
    forall i :: 0 <= i < |bets| ==> LinkedBet(wallets, sessions, bets[i])
  }

  predicate DepositsOk(ledger: seq<Tx>) {
    forall i :: 0 <= i < |ledger| ==> ledger[i].kind == DepositTx ==> ledger[i].amount >= 0
  }

  ghost predicate Inv(db: Db) {
    && FairGames(db.games)
    && Money(db.wallets, db.bets, db.ledger)
    && Totals(db.sessions, db.bets)
    && OneOpen(db.bets)
    && Nonces(db.bets)
    && Rounds(db.games, db.bets)
    && Linked(db.wallets, db.sessions, db.bets)
    && DepositsOk(db.ledger)
  }

  /** A service that has seen no player yet. */
  predicate Fresh(db: Db) {
    FairGames(db.games) && db.wallets == map[] && db.bets == [] && db.sessions == [] && db.ledger == []
  }

  lemma FreshIsInv(db: Db)
    requires Fresh(db)
    ensures Inv(db)
  {
    forall user
      ensures Funds(db.wallets, db.bets, db.ledger, user)
    {
    }
  }

  lemma GetOrCreateKeeps(db: Db, user: UserId)
    requires Inv(db)
    ensures Inv(GetOrCreate(db, user)) && WalletOf(GetOrCreate(db, user), user) == WalletOf(db, user)
  {
    var after := GetOrCreate(db, user);
    forall x
      ensures Funds(after.wallets, after.bets, after.ledger, x)
    {
      assert Funds(db.wallets, db.bets, db.ledger, x);
    }
    forall i | 0 <= i < |db.bets|
      ensures LinkedBet(after.wallets, after.sessions, after.bets[i])
    {
      assert LinkedBet(db.wallets, db.sessions, db.bets[i]);
    }
  }

  function Bumped(sessions: seq<Session>, s: nat, staked: int, won: int): seq<Session>
    requires s < |sessions|
  {
    sessions[s := sessions[s].(betCount := sessions[s].betCount + 1, staked := sessions[s].staked + staked, won := sessions[s].won + won)]
  }

  function PlacedDelta(bet: Bet): Delta {
    Delta(if bet.status == Open then bet.stake else 0, bet.stake, bet.payout, 0, bet.payout - bet.stake)
  }

  /** What placing a bet does to the tables, controls aside. */
  function Placed(db: Db, bet: Bet): Db
    requires bet.session < |db.sessions|
  {
    db.(wallets := db.wallets[bet.user := Grown(WalletOf(db, bet.user), PlacedDelta(bet))],
        bets := db.bets + [bet],
        ledger := db.ledger + PlacedRows(bet),
        sessions := Bumped(db.sessions, bet.session, bet.stake, bet.payout))
  }

  lemma PlacedMoney(db: Db, bet: Bet)
    requires Money(db.wallets, db.bets, db.ledger) && bet.session < |db.sessions|
    requires bet.payout >= 0 && WalletOf(db, bet.user).balance >= bet.stake
    ensures Money(Placed(db, bet).wallets, Placed(db, bet).bets, Placed(db, bet).ledger)
  {
    var d := PlacedDelta(bet);
    forall x
      ensures BetsGrow(db.bets, db.bets + [bet], bet.user, x, d)
      ensures LedgerGrows(db.ledger, db.ledger + PlacedRows(bet), bet.user, x, d)
    {
      BetAppended(db.bets, bet, x, d);
      PlacedLedger(db.ledger, bet, x);
    }
    hide Sum;
    MoneyMoves(db.wallets, db.bets, db.ledger, db.bets + [bet], db.ledger + PlacedRows(bet), bet.user, d);
  }

  lemma PlacedLedger(ledger: seq<Tx>, bet: Bet, x: UserId)
    requires bet.payout >= 0
    ensures LedgerGrows(ledger, ledger + PlacedRows(bet), bet.user, x, PlacedDelta(bet))
  {
    var stake := Tx(bet.user, StakeTx, Confirmed, -(bet.stake as int));
    TxAppended(ledger, stake, x, Delta(0, 0, 0, 0, -(bet.stake as int)));
    if bet.payout > 0 {
      var pay := Tx(bet.user, PayoutTx, Confirmed, bet.payout);
      TxAppended(ledger + [stake], pay, x, Delta(0, 0, 0, 0, bet.payout));
      assert ledger + PlacedRows(bet) == ledger + [stake] + [pay];
    } else {
      assert ledger + PlacedRows(bet) == ledger + [stake];
    }
    hide Sum;
  }

  /** Placing a bet that is covered, numbered and sound keeps everything. */
  lemma PlacedKeeps(db: Db, bet: Bet)
    requires Inv(db) && bet.session < |db.sessions| && WalletOf(db, bet.user).balance >= bet.stake
    requires db.sessions[bet.session].user == bet.user && db.sessions[bet.session].game == bet.game
    requires bet.nonce == NextNonce(db, bet.user) && BetOk(db.games, bet) && bet.status != CashedOut
    requires bet.status == Open ==> Count(db.bets, IsOpenOn(bet.user, bet.game)) == 0
    ensures Inv(Placed(db, bet))
  {
    var after := Placed(db, bet);
    PlacedMoney(db, bet);
    TotalsBetAppended(db.sessions, db.bets, bet, after.sessions);
    OneOpenAppended(db.bets, bet);
    NoncesAppended(db.bets, bet);
    hide BetOk;
    hide Funds;
    hide SessionFunds;
    hide NonceAt;
    forall i | 0 <= i < |after.bets|
      ensures LinkedBet(after.wallets, after.sessions, after.bets[i])
    {
      assert i < |db.bets| ==> LinkedBet(db.wallets, db.sessions, db.bets[i]);
    }
  }

  function ClosedDelta(b: Bet): Delta {
    Delta(if b.status == Open then 0 else -(b.stake as int), 0, b.payout, 0, b.payout)
  }

  /** What moving an open round on does to the tables. */
  function Closed(db: Db, i: nat, b: Bet): Db
    requires i < |db.bets| && b.session < |db.sessions|
  {
    db.(wallets := db.wallets[b.user := Grown(WalletOf(db, b.user), ClosedDelta(b))],
        bets := db.bets[i := b],
        ledger := if b.status == CashedOut then db.ledger + [Tx(b.user, PayoutTx, Confirmed, b.payout)] else db.ledger,
        sessions := if b.status == CashedOut then Bumped(db.sessions, b.session, 0, b.payout) else db.sessions)
  }

  /** The bet b is the round at i after a move. */
  predicate SameRound(db: Db, i: nat, b: Bet)
    requires i < |db.bets|
  {
    var a := db.bets[i];
    && a.status == Open && a.user == b.user && a.game == b.game && a.session == b.session
    && a.stake == b.stake && a.nonce == b.nonce
  }

  lemma ClosedMoney(db: Db, i: nat, b: Bet)
    requires Inv(db) && i < |db.bets| && SameRound(db, i, b) && b.session < |db.sessions|
    requires b.payout >= 0 && (b.status != CashedOut ==> b.payout == 0) && db.bets[i].payout == 0
    ensures Money(Closed(db, i, b).wallets, Closed(db, i, b).bets, Closed(db, i, b).ledger)
  {
    var d, after := ClosedDelta(b), Closed(db, i, b);
    forall x
      ensures BetsGrow(db.bets, after.bets, b.user, x, d) && LedgerGrows(db.ledger, after.ledger, b.user, x, d)
    {
      BetUpdated(db.bets, i, b, x, d);
      if b.status == CashedOut {
        TxAppended(db.ledger, Tx(b.user, PayoutTx, Confirmed, b.payout), x, d);
      }
    }
    assert Funds(db.wallets, db.bets, db.ledger, b.user);
    hide Sum;
    MoneyMoves(db.wallets, db.bets, db.ledger, after.bets, after.ledger, b.user, d);
  }

  /** Moving an open round on, to a sound bet, keeps everything. */
  lemma ClosedKeeps(db: Db, i: nat, b: Bet)
    requires Inv(db) && i < |db.bets| && SameRound(db, i, b) && b.session < |db.sessions|
    requires BetOk(db.games, b) && (b.status != CashedOut ==> b.payout == 0) && db.bets[i].payout == 0
    ensures Inv(Closed(db, i, b))
  {
    var after := Closed(db, i, b);
    ClosedMoney(db, i, b);
    TotalsBetUpdated(db.sessions, db.bets, i, b, after.sessions);
    OneOpenUpdated(db.bets, i, b);
    NoncesUpdated(db.bets, i, b);
    hide BetOk;
    hide Funds;
    hide SessionFunds;
    hide NonceAt;
    forall k | 0 <= k < |after.bets|
      ensures LinkedBet(after.wallets, after.sessions, after.bets[k])
    {
      assert LinkedBet(db.wallets, db.sessions, db.bets[k]);
    }
  }

  /** The stake of an open round is locked, so releasing it never has to be clipped at zero. */
  lemma UnlockNeverClips(db: Db, i: nat)
    requires Inv(db) && i < |db.bets| && db.bets[i].status == Open
    ensures var b := db.bets[i];
            && b.user in db.wallets && WalletOf(db, b.user).locked >= b.stake
            && Unlocked(WalletOf(db, b.user), b.stake).locked == WalletOf(db, b.user).locked - b.stake
  {
    var b := db.bets[i];
    assert LinkedBet(db.wallets, db.sessions, b);
    assert Funds(db.wallets, db.bets, db.ledger, b.user);
    SumNonNegative(db.bets, OpenStake(b.user));
    assert b in db.bets;
    hide Sum;
  }

  function SettledBet(db: Db, user: UserId, session: nat, game: nat, stake: nat, roll: Roll, controlled: bool): Bet {
    Bet(user, game, session, stake, roll.multiplier, if roll.won then PayoutCents(stake, roll.multiplier) else 0,
        if roll.won then Won else Lost, NoBoard, NextNonce(db, user), controlled)
  }

  lemma SettleIsPlaced(db: Db, user: UserId, session: nat, game: nat, stake: nat, roll: Roll, controlled: bool)
    requires user in db.wallets && session < |db.sessions|
    ensures var after := Settle(db, user, session, game, stake, roll, controlled);
            after == Placed(db, SettledBet(db, user, session, game, stake, roll, controlled)).(controls := after.controls)
  {
    hide PayoutCents;
    hide NextNonce;
    hide GoverningRow;
    hide PlacedRows;
  }

  function OpenedBet(db: Db, user: UserId, session: nat, game: nat, stake: nat, board: Board, controlled: bool): Bet {
    Bet(user, game, session, stake, 0, 0, Open, board, NextNonce(db, user), controlled)
  }

  lemma OpenRoundIsPlaced(db: Db, user: UserId, session: nat, game: nat, stake: nat, board: Board, controlled: bool)
    requires user in db.wallets && session < |db.sessions|
    ensures OpenRound(db, user, session, game, stake, board, controlled)
         == Placed(db, OpenedBet(db, user, session, game, stake, board, controlled))
  {
    var stakeTx := Tx(user, StakeTx, Confirmed, -(stake as int));
    assert [stakeTx] + [] == [stakeTx];
    hide NextNonce;
  }

  /** Settling an instant bet that is covered keeps everything. */
  lemma SettleKeeps(db: Db, user: UserId, session: nat, game: nat, stake: nat, roll: Roll, controlled: bool)
    requires Inv(db) && user in db.wallets && session < |db.sessions| && game < |db.games|
    requires db.sessions[session].user == user && db.sessions[session].game == game && db.games[game].slug.Instant?
    requires WalletOf(db, user).balance >= stake
    ensures Inv(Settle(db, user, session, game, stake, roll, controlled))
  {
    var bet := SettledBet(db, user, session, game, stake, roll, controlled);
    PayoutNotNegative(stake, roll.multiplier);
    assert BetOk(db.games, bet);
    SettleIsPlaced(db, user, session, game, stake, roll, controlled);
    hide BetOk;
    PlacedKeeps(db, bet);
    hide *;
    KeptWithControls(Placed(db, bet), Settle(db, user, session, game, stake, roll, controlled));
  }

  lemma KeptWithControls(db: Db, after: Db)
    requires Inv(db) && after == db.(controls := after.controls)
    ensures Inv(after)
  {
    hide Money;
    hide Totals;
    hide OneOpen;
    hide Nonces;
    hide Rounds;
    hide Linked;
    hide DepositsOk;
  }

  lemma PlaceBetKeeps(db: Db, user: UserId, session: nat, slug: Slug, stake: real, valid: bool, engine: Forced -> Roll, draw: Draw)
    requires Inv(db)
    ensures Inv(PlaceBet(db, user, session, slug, stake, valid, engine, draw).0)
  {
    GetOrCreateKeeps(db, user);
    var ready := GetOrCreate(db, user);
    var owned := RequireOpenSession(db, user, session, slug);
    var (after, reply) := PlaceBet(db, user, session, slug, stake, valid, engine, draw);
    if reply.Ok? {
      var cents := ParseStake(stake, db.games[owned.value]).value;
      var forced := Decision(ready, user, owned.value, draw);
      var roll := ApplyWinCap(engine(forced), GetControlRule(ready, user, owned.value));
      hide Decision;
      hide GetControlRule;
      hide ApplyWinCap;
      hide Inv;
      SettleKeeps(ready, user, session, owned.value, cents, roll, forced != Honest);
    }
  }

  /** A new bet of a game with this slug, on one of these boards, that nothing has been picked or paid on. */
  predicate IsNew(games: seq<Game>, slug: Slug, board: Board, b: Bet) {
    && b.board == board && b.game < |games| && games[b.game].slug == slug
    && b.status == Open && b.multiplier == 0 == b.payout
  }

  ghost predicate SoundBoards(games: seq<Game>, slug: Slug, board: Forced -> Board) {
    forall forced, b: Bet :: IsNew(games, slug, board(forced), b) ==> BetOk(games, b)
  }

  lemma StartRoundKeeps(db: Db, user: UserId, session: nat, slug: Slug, stake: real, valid: bool, board: Forced -> Board, draw: Draw)
    requires Inv(db) && SoundBoards(db.games, slug, board)
    ensures Inv(StartRound(db, user, session, slug, stake, valid, board, draw).0)
  {
    GetOrCreateKeeps(db, user);
    var ready := GetOrCreate(db, user);
    var owned := RequireOpenSession(db, user, session, slug);
    var (after, reply) := StartRound(db, user, session, slug, stake, valid, board, draw);
    if reply.Ok? {
      var cents := ParseStake(stake, db.games[owned.value]).value;
      var forced := Decision(ready, user, owned.value, draw);
      var bet := OpenedBet(ready, user, session, owned.value, cents, board(forced), forced != Honest);
      OpenRoundIsPlaced(ready, user, session, owned.value, cents, board(forced), forced != Honest);
      hide Decision;
      hide Inv;
      hide BetOk;
      assert IsNew(db.games, slug, board(forced), bet);
      PlacedKeeps(ready, bet);
    }
  }

  lemma StartMinesKeeps(db: Db, user: UserId, session: nat, stake: real, mineCount: int, stream: Stream, draw: Draw)
    requires Inv(db)
    ensures Inv(StartMines(db, user, session, stake, mineCount, stream, draw).0)
  {
    hide Inv;
    hide BetOk;
    forall forced, b: Bet | IsNew(db.games, MinesGame, MinesBoardFor(mineCount, stream)(forced), b)
      ensures BetOk(db.games, b)
    {
      NewMinesBetOk(db.games, b, mineCount, stream, forced);
    }
    StartRoundKeeps(db, user, session, MinesGame, stake, 1 <= mineCount <= 24, MinesBoardFor(mineCount, stream), draw);
  }

  lemma StartTowersKeeps(db: Db, user: UserId, session: nat, stake: real, level: Difficulty, stream: Stream, draw: Draw)
    requires Inv(db)
    ensures Inv(StartTowers(db, user, session, stake, level, stream, draw).0)
  {
    hide Inv;
    hide BetOk;
    forall forced, b: Bet | IsNew(db.games, TowersGame, TowersBoardFor(level, stream)(forced), b)
      ensures BetOk(db.games, b)
    {
      NewTowersBetOk(db.games, b, level, stream, forced);
    }
    StartRoundKeeps(db, user, session, TowersGame, stake, true, TowersBoardFor(level, stream), draw);
  }

  lemma LoseIsClosed(db: Db, i: nat, tile: nat)
    requires Inv(db) && i < |db.bets| && db.bets[i].status == Open && db.bets[i].session < |db.sessions|
    ensures LoseRound(db, i, tile) == Closed(db, i, LostBet(db.bets[i], tile))
  {
    UnlockNeverClips(db, i);
    hide Inv;
  }

  lemma PayIsClosed(db: Db, i: nat)
    requires Inv(db) && i < |db.bets| && db.bets[i].status == Open && db.bets[i].session < |db.sessions|
    ensures PayRound(db, i) == Closed(db, i, PaidBet(db.bets[i]))
  {
    UnlockNeverClips(db, i);
    hide Inv;
    hide PayoutCents;
  }

  lemma PickIsClosed(db: Db, i: nat, tile: nat, multiplier: int)
    requires i < |db.bets| && db.bets[i].status == Open && db.bets[i].session < |db.sessions|
    requires db.bets[i].user in db.wallets && db.bets[i].payout == 0
    ensures SafePick(db, i, tile, multiplier) == Closed(db, i, PickedBet(db.bets[i], tile, multiplier))
  {
  }

  /** The last safe pick and the cash-out it triggers are one move of the round. */
  lemma PickThenPayIsClosed(db: Db, i: nat, tile: nat, multiplier: int)
    requires Inv(db) && i < |db.bets| && db.bets[i].status == Open && db.bets[i].session < |db.sessions|
    ensures PayRound(SafePick(db, i, tile, multiplier), i) == Closed(db, i, PaidBet(PickedBet(db.bets[i], tile, multiplier)))
  {
    UnlockNeverClips(db, i);
    hide Inv;
    hide PayoutCents;
    var b := PickedBet(db.bets[i], tile, multiplier);
    assert db.bets[i := b][i := PaidBet(b)] == db.bets[i := PaidBet(b)];
  }

  /** The open round a request addresses. */
  lemma FoundRound(db: Db, user: UserId, session: nat, slug: Slug, i: nat)
    requires Inv(db) && RequireOpenSession(db, user, session, slug).Ok? && FindRound(db, user, session, i).Ok?
    ensures i < |db.bets|
    ensures var b := db.bets[i];
            && b.session == session < |db.sessions| && b.status == Open && b.payout == 0 && b.user in db.wallets
            && BetOk(db.games, b) && b.game == RequireOpenSession(db, user, session, slug).value
            && db.games[b.game].slug == slug
  {
    assert BetOk(db.games, db.bets[i]);
    assert LinkedBet(db.wallets, db.sessions, db.bets[i]);
    hide Money;
    hide Totals;
    hide OneOpen;
    hide Nonces;
  }
}
