/**
 * The play service on values: the tables it reads and writes, and what one request makes of them. One request is one
 * step here; the README of the service describes a bet as one transaction.
 */
module Play {
  import opened Accounts
  import opened Arithmetic
  import opened Control
  import opened Mines
  import opened MinesGrid
  import opened MinesRound
  import opened Options
  import opened Rng
  import opened Sums
  import opened Towers

  datatype InstantGame = Dice | CoinFlip | Limbo | Wheel | Plinko | Keno
  datatype Slug = Instant(game: InstantGame) | MinesGame | TowersGame

  /** Money is in cents; `edge` is a fraction. A game is identified by its place in the table. */
  datatype Game = Game(slug: Slug, minBet: int, maxBet: int, edge: real, difficulty: int, isActive: bool, underMaintenance: bool)

  datatype Wallet = Wallet(balance: int, locked: int, wagered: int, won: int, deposited: int, isLocked: bool,
                           difficulty: Option<int>, perGame: map<Slug, real>)

  /** What the server laid out for a bet and what the player has picked so far. */
  datatype Board = NoBoard | MinesBoard(mines: set<nat>, revealed: seq<nat>)
                 | TowersBoard(level: Difficulty, grid: seq<set<nat>>, picks: seq<nat>)

  datatype Bet = Bet(user: UserId, game: nat, session: nat, stake: nat, multiplier: int, payout: int, status: Status,
                     board: Board, nonce: nat, controlled: bool)

  datatype Session = Session(user: UserId, game: nat, betCount: nat, staked: int, won: int, ended: bool)

  datatype TxKind = StakeTx | PayoutTx | DepositTx
  datatype Tx = Tx(user: UserId, kind: TxKind, status: TxStatus, amount: int)

  datatype ControlRow = ControlRow(user: UserId, game: Option<nat>, rule: ControlRule)

  datatype Db = Db(games: seq<Game>, excluded: set<(UserId, nat)>, controls: seq<ControlRow>, wallets: map<UserId, Wallet>,
                   bets: seq<Bet>, sessions: seq<Session>, ledger: seq<Tx>)

  datatype Error = NotInstant | NoSession | SessionEnded | WrongGame | GameUnavailable | InvalidSelection | InvalidStake
                 | BelowMinimum | AboveMaximum | RoundInProgress | WalletLocked | Insufficient | InvalidTile
                 | RoundNotFound | RoundFinished | AlreadyRevealed | TowerClear | NothingRevealed

  datatype Reply<T> = Ok(value: T) | Err(error: Error)

  const NewWallet: Wallet := Wallet(0, 0, 0, 0, 0, false, None, map[])

  function WalletOf(db: Db, user: UserId): Wallet {
    if user in db.wallets then db.wallets[user] else NewWallet
  }

  function GetOrCreate(db: Db, user: UserId): Db {
    db.(wallets := db.wallets[user := WalletOf(db, user)])
  }

  /** UPDATE ... WHERE user_id = user: touches nothing when there is no such wallet. */
  function SetWallet(db: Db, user: UserId, wallet: Wallet): Db {
    if user in db.wallets then db.(wallets := db.wallets[user := wallet]) else db
  }

  function BumpSession(db: Db, session: nat, staked: int, won: int): Db {
    if session < |db.sessions| then
      var s := db.sessions[session];
      db.(sessions := db.sessions[session := s.(betCount := s.betCount + 1, staked := s.staked + staked, won := s.won + won)])
    else db
  }

  function AddBet(db: Db, bet: Bet): Db {
    db.(bets := db.bets + [bet])
  }

  function AddTx(db: Db, tx: Tx): Db {
    db.(ledger := db.ledger + [tx])
  }

  /** The game of an open session of this user, or why there is none. */
  function RequireOpenSession(db: Db, user: UserId, session: nat, slug: Slug): (game: Reply<nat>)
    ensures game.Ok? ==> game.value < |db.games| && session < |db.sessions| && db.sessions[session].game == game.value
                         && db.sessions[session].user == user && db.games[game.value].slug == slug
  {
    if session >= |db.sessions| || db.sessions[session].user != user then Err(NoSession)
    else
      var s := db.sessions[session];
      if s.game >= |db.games| then Err(NoSession)
      else if s.ended then Err(SessionEnded)
      else if db.games[s.game].slug != slug then Err(WrongGame)
      else if !db.games[s.game].isActive || db.games[s.game].underMaintenance then Err(GameUnavailable)
      else Ok(s.game)
  }

  /** The stake in cents. */
  function ParseStake(input: real, game: Game): Reply<nat> {
    var stake := Hundredths(input);
    if stake <= 0 then Err(InvalidStake)
    else if stake < game.minBet then Err(BelowMinimum)
    else if stake > game.maxBet then Err(AboveMaximum)
    else Ok(stake)
  }

  function IsBetOf(user: UserId): Bet -> bool {
    (bet: Bet) => bet.user == user
  }

  function NextNonce(db: Db, user: UserId): nat {
    Count(db.bets, IsBetOf(user)) + 1
  }

  /** The first row at or after `from` that satisfies p, or |rows|. */
  function FirstRow(rows: seq<ControlRow>, p: ControlRow -> bool, from: nat): (i: nat)
    requires from <= |rows|
    ensures from <= i <= |rows|
    ensures i < |rows| ==> p(rows[i])
    decreases |rows| - from
  {
    if from == |rows| || p(rows[from]) then from else FirstRow(rows, p, from + 1)
  }

  function OwnRow(user: UserId, game: Option<nat>): ControlRow -> bool {
    (row: ControlRow) => row.user == user && row.game == game
  }

  /** The control row that governs a user's bets on a game: the game's own row, else the first that covers every game. */
  function GoverningRow(controls: seq<ControlRow>, user: UserId, game: nat): (i: nat)
    ensures i <= |controls|
  {
    var own := FirstRow(controls, OwnRow(user, Some(game)), 0);
    if own < |controls| then own else FirstRow(controls, OwnRow(user, None), 0)
  }

  function GetControlRule(db: Db, user: UserId, game: nat): Option<ControlRule> {
    var i := GoverningRow(db.controls, user, game);
    if i < |db.controls| then Some(db.controls[i].rule) else None
  }

  function ConsumeForcedRound(db: Db, user: UserId, game: nat): Db {
    var i := GoverningRow(db.controls, user, game);
    if i < |db.controls| && (db.controls[i].rule.mode == ForceWin || db.controls[i].rule.mode == ForceLoss)
       && db.controls[i].rule.forceRounds > 0
    then db.(controls := db.controls[i := db.controls[i].(rule := db.controls[i].rule.(forceRounds := db.controls[i].rule.forceRounds - 1))])
    else db
  }

  /** How this round is decided before it is rolled. */
  function Decision(db: Db, user: UserId, game: nat, draw: Draw): Forced
    requires game < |db.games|
  {
    var wallet := WalletOf(db, user);
    ResolveControl(GetControlRule(db, user, game), WalletDifficultyForGame(wallet.difficulty, wallet.perGame, db.games[game].slug),
                   db.games[game].difficulty, draw)
  }

  function StartSession(db: Db, user: UserId, game: nat): Db {
    if game >= |db.games| || !db.games[game].isActive || db.games[game].underMaintenance || (user, game) in db.excluded then db
    else db.(sessions := Map(db.sessions, Closing(user, game)) + [Session(user, game, 0, 0, 0, false)])
  }

  function Closing(user: UserId, game: nat): Session -> Session {
    (s: Session) => if s.user == user && s.game == game then s.(ended := true) else s
  }

  function EndSession(db: Db, user: UserId, session: nat): Db {
    if session < |db.sessions| && db.sessions[session].user == user
    then db.(sessions := db.sessions[session := db.sessions[session].(ended := true)])
    else db
  }

  /** The ledger rows of a new bet: its stake and, if it was settled at once, what it won. */
  function PlacedRows(bet: Bet): seq<Tx> {
    [Tx(bet.user, StakeTx, Confirmed, -(bet.stake as int))]
    + if bet.payout > 0 then [Tx(bet.user, PayoutTx, Confirmed, bet.payout)] else []
  }

  /** An instant bet once its stake is known to be covered: debit and credit in one update, bet, ledger rows, totals. */
  function Settle(db: Db, user: UserId, session: nat, game: nat, stake: nat, roll: Roll, controlled: bool): Db {
    var payout := if roll.won then PayoutCents(stake, roll.multiplier) else 0;
    var w := WalletOf(db, user);
    var bet := Bet(user, game, session, stake, roll.multiplier, payout, if roll.won then Won else Lost, NoBoard,
                   NextNonce(db, user), controlled);
    var paid := SetWallet(db, user, w.(balance := w.balance + payout - stake, wagered := w.wagered + stake, won := w.won + payout));
    var logged := AddBet(paid, bet).(ledger := db.ledger + PlacedRows(bet));
    ConsumeForcedRound(BumpSession(logged, session, stake, payout), user, game)
  }

  /** `engine` is what the resolver makes of the round's seeds for either decision. */
  function PlaceBet(db: Db, user: UserId, session: nat, slug: Slug, stakeInput: real, valid: bool,
                    engine: Forced -> Roll, draw: Draw): (Db, Reply<Forced>)
  {
    if !slug.Instant? then (db, Err(NotInstant))
    else
      var owned := RequireOpenSession(db, user, session, slug);
      if owned.Err? then (db, Err(owned.error))
      else if !valid then (db, Err(InvalidSelection))
      else
        var game := owned.value;
        var stake := ParseStake(stakeInput, db.games[game]);
        if stake.Err? then (db, Err(stake.error))
        else
          var ready := GetOrCreate(db, user);
          if WalletOf(ready, user).isLocked then (ready, Err(WalletLocked))
          else
            var forced := Decision(ready, user, game, draw);
            var roll := ApplyWinCap(engine(forced), GetControlRule(ready, user, game));
            if WalletOf(ready, user).balance < stake.value then (ready, Err(Insufficient))
            else (Settle(ready, user, session, game, stake.value, roll, forced != Honest), Ok(forced))
  }

  function IsOpenOn(user: UserId, game: nat): Bet -> bool {
    (bet: Bet) => bet.user == user && bet.game == game && bet.status == Open
  }

  /** A grid round once its stake is known to be covered. */
  function OpenRound(db: Db, user: UserId, session: nat, game: nat, stake: nat, board: Board, controlled: bool): Db {
    var w := WalletOf(db, user);
    var bet := Bet(user, game, session, stake, 0, 0, Open, board, NextNonce(db, user), controlled);
    var debited := SetWallet(db, user, w.(balance := w.balance - stake, locked := w.locked + stake, wagered := w.wagered + stake));
    BumpSession(AddTx(AddBet(debited, bet), Tx(user, StakeTx, Confirmed, -(stake as int))), session, stake, 0)
  }

  /** startMines and startTowers differ only in the board they lay out for a decision. */
  function StartRound(db: Db, user: UserId, session: nat, slug: Slug, stakeInput: real, valid: bool,
                      board: Forced -> Board, draw: Draw): (Db, Reply<nat>)
  {
    var owned := RequireOpenSession(db, user, session, slug);
    if owned.Err? then (db, Err(owned.error))
    else if !valid then (db, Err(InvalidSelection))
    else
      var game := owned.value;
      var stake := ParseStake(stakeInput, db.games[game]);
      if stake.Err? then (db, Err(stake.error))
      else if Count(db.bets, IsOpenOn(user, game)) > 0 then (db, Err(RoundInProgress))
      else
        var ready := GetOrCreate(db, user);
        if WalletOf(ready, user).isLocked then (ready, Err(WalletLocked))
        else
          var forced := Decision(ready, user, game, draw);
          if WalletOf(ready, user).balance < stake.value then (ready, Err(Insufficient))
          else (OpenRound(ready, user, session, game, stake.value, board(forced), forced != Honest), Ok(|db.bets|))
  }

  function MinesBoardFor(mineCount: int, stream: Stream): Forced -> Board {
    forced => MinesBoard(BuildMinesGrid(mineCount, stream, forced), [])
  }

  function TowersBoardFor(level: Difficulty, stream: Stream): Forced -> Board {
    forced => TowersBoard(level, BuildTowersGrid(level, stream, TowersConfig(level).rows), [])
  }

  function StartMines(db: Db, user: UserId, session: nat, stakeInput: real, mineCount: int, stream: Stream, draw: Draw): (Db, Reply<nat>) {
    StartRound(db, user, session, MinesGame, stakeInput, 1 <= mineCount <= 24, MinesBoardFor(mineCount, stream), draw)
  }

  function StartTowers(db: Db, user: UserId, session: nat, stakeInput: real, level: Difficulty, stream: Stream, draw: Draw): (Db, Reply<nat>) {
    StartRound(db, user, session, TowersGame, stakeInput, true, TowersBoardFor(level, stream), draw)
  }

  /** A user's open round in a session. */
  function FindRound(db: Db, user: UserId, session: nat, bet: nat): Reply<nat> {
    if bet >= |db.bets| || db.bets[bet].user != user || db.bets[bet].session != session then Err(RoundNotFound)
    else if db.bets[bet].status != Open then Err(RoundFinished)
    else Ok(bet)
  }

  function Unlocked(w: Wallet, stake: nat): Wallet {
    w.(locked := if w.locked - stake < 0 then 0 else w.locked - stake)
  }

  function WithPick(board: Board, tile: nat): Board {
    match board
    case NoBoard => board
    case MinesBoard(mines, revealed) => MinesBoard(mines, revealed + [tile])
    case TowersBoard(level, grid, picks) => TowersBoard(level, grid, picks + [tile])
  }

  /** The pick hit a trap: the stake is released and the bet closed. */
  function LoseRound(db: Db, bet: nat, tile: nat): Db
    requires bet < |db.bets|
  {
    var b := db.bets[bet];
    var released := SetWallet(db, b.user, Unlocked(WalletOf(db, b.user), b.stake));
    released.(bets := released.bets[bet := b.(status := Lost, multiplier := 0, payout := 0, board := WithPick(b.board, tile))])
  }

  function SafePick(db: Db, bet: nat, tile: nat, multiplier: int): Db
    requires bet < |db.bets|
  {
    db.(bets := db.bets[bet := db.bets[bet].(multiplier := multiplier, board := WithPick(db.bets[bet].board, tile))])
  }

  /** The player's picks on a board. */
  function PicksOn(board: Board): seq<nat> {
    match board
    case NoBoard => []
    case MinesBoard(mines, revealed) => revealed
    case TowersBoard(level, grid, picks) => picks
  }

  function PayRound(db: Db, bet: nat): Db
    requires bet < |db.bets|
  {
    var b, w := db.bets[bet], WalletOf(db, db.bets[bet].user);
    var payout := PayoutCents(b.stake, b.multiplier);
    var credited := SetWallet(db, b.user, Unlocked(w, b.stake).(balance := w.balance + payout, won := w.won + payout));
    var closed := credited.(bets := credited.bets[bet := b.(status := CashedOut, payout := payout)]);
    BumpSession(AddTx(closed, Tx(b.user, PayoutTx, Confirmed, payout)), b.session, 0, payout)
  }

  /** cashOutMines and cashOutTowers, which differ only in the game they ask for. */
  function CashOutRound(db: Db, user: UserId, session: nat, slug: Slug, bet: nat): (Db, Reply<int>) {
    var owned := RequireOpenSession(db, user, session, slug);
    if owned.Err? then (db, Err(owned.error))
    else
      var found := FindRound(db, user, session, bet);
      if found.Err? then (db, Err(found.error))
      else if PicksOn(db.bets[bet].board) == [] then (db, Err(NothingRevealed))
      else (PayRound(db, bet), Ok(PayoutCents(db.bets[bet].stake, db.bets[bet].multiplier)))
  }

  /**
   * The reply is the round's status after the reveal. A round of a Mines session always has a Mines board, so the guard on
   * the board is never the one that refuses.
   */
  function RevealMines(db: Db, user: UserId, session: nat, bet: nat, tile: int): (Db, Reply<Status>) {
    if tile < 0 || tile >= MINES_TILE_COUNT then (db, Err(InvalidTile))
    else
      var owned := RequireOpenSession(db, user, session, MinesGame);
      if owned.Err? then (db, Err(owned.error))
      else
        var found := FindRound(db, user, session, bet);
        if found.Err? then (db, Err(found.error))
        else if !db.bets[bet].board.MinesBoard? then (db, Err(RoundNotFound))
        else
          var board := db.bets[bet].board;
          if tile in board.revealed then (db, Err(AlreadyRevealed))
          else if tile in board.mines then (LoseRound(db, bet, tile), Ok(Lost))
          else
            var picks := |board.revealed| + 1;
            var next := SafePick(db, bet, tile, MinesMultiplier(MINES_TILE_COUNT, |board.mines|, picks, EdgeOf(db, owned.value)));
            if picks >= MINES_TILE_COUNT - |board.mines| then
              var (paid, reply) := CashOutRound(next, user, session, MinesGame, bet);
              (paid, if reply.Ok? then Ok(CashedOut) else Err(reply.error))
            else (next, Ok(Open))
  }

  function RevealTowers(db: Db, user: UserId, session: nat, bet: nat, tile: int): (Db, Reply<Status>) {
    var owned := RequireOpenSession(db, user, session, TowersGame);
    if owned.Err? then (db, Err(owned.error))
    else
      var found := FindRound(db, user, session, bet);
      if found.Err? then (db, Err(found.error))
      else if !db.bets[bet].board.TowersBoard? then (db, Err(RoundNotFound))
      else
        var board := db.bets[bet].board;
        var config, row := TowersConfig(board.level), |board.picks|;
        if tile < 0 || tile >= config.tiles then (db, Err(InvalidTile))
        else if row >= config.rows then (db, Err(TowerClear))
        else if row < |board.grid| && tile in board.grid[row] then (LoseRound(db, bet, tile), Ok(Lost))
        else
          var next := SafePick(db, bet, tile, TowersMultiplier(board.level, row + 1, EdgeOf(db, owned.value)));
          if row + 1 >= config.rows then
            var (paid, reply) := CashOutRound(next, user, session, TowersGame, bet);
            (paid, if reply.Ok? then Ok(CashedOut) else Err(reply.error))
          else (next, Ok(Open))
  }

  function EdgeOf(db: Db, game: nat): real {
    if game < |db.games| then db.games[game].edge else 0.0
  }

  /** A deposit quote: a pending ledger row. */
  function QuoteDeposit(db: Db, user: UserId, amount: nat): Db {
    AddTx(db, Tx(user, DepositTx, Pending, amount))
  }

  predicate IsDeposit(ledger: seq<Tx>, id: nat) {
    id < |ledger| && ledger[id].kind == DepositTx
  }

  predicate HasStatus(ledger: seq<Tx>, id: nat, status: TxStatus) {
    IsDeposit(ledger, id) && ledger[id].status == status
  }

  predicate Creditable(ledger: seq<Tx>, id: nat) {
    HasStatus(ledger, id, Pending) || HasStatus(ledger, id, Review)
  }

  function CreditDeposit(db: Db, i: nat): Db {
    if !Creditable(db.ledger, i) then db
    else
      var tx := db.ledger[i];
      var ready := GetOrCreate(db.(ledger := db.ledger[i := tx.(status := Confirmed)]), tx.user);
      var w := WalletOf(ready, tx.user);
      SetWallet(ready, tx.user, w.(balance := w.balance + tx.amount, deposited := w.deposited + tx.amount))
  }

  /** flagDepositForReview and cancelUnpaid: a pending deposit leaves for another status. */
  function MoveDeposit(db: Db, i: nat, status: TxStatus): Db {
    if i < |db.ledger| && db.ledger[i].kind == DepositTx && db.ledger[i].status == Pending && status != Confirmed
    then db.(ledger := db.ledger[i := db.ledger[i].(status := status)])
    else db
  }

  datatype Request =
    | StartSessionReq(user: UserId, game: nat)
    | EndSessionReq(user: UserId, session: nat)
    | PlaceBetReq(user: UserId, session: nat, slug: Slug, stake: real, valid: bool, engine: Forced -> Roll, draw: Draw)
    | StartMinesReq(user: UserId, session: nat, stake: real, mineCount: int, stream: Stream, draw: Draw)
    | StartTowersReq(user: UserId, session: nat, stake: real, level: Difficulty, stream: Stream, draw: Draw)
    | RevealMinesReq(user: UserId, session: nat, bet: nat, tile: int)
    | RevealTowersReq(user: UserId, session: nat, bet: nat, tile: int)
    | CashOutMinesReq(user: UserId, session: nat, bet: nat)
    | CashOutTowersReq(user: UserId, session: nat, bet: nat)
    | QuoteReq(user: UserId, amount: nat)
    | CreditReq(deposit: nat)
    | FlagReq(deposit: nat)
    | CancelReq(deposit: nat)

  function Handle(db: Db, req: Request): Db {
    match req
    case StartSessionReq(user, game) => StartSession(db, user, game)
    case EndSessionReq(user, session) => EndSession(db, user, session)
    case PlaceBetReq(user, session, slug, stake, valid, engine, draw) =>
      PlaceBet(db, user, session, slug, stake, valid, engine, draw).0
    case StartMinesReq(user, session, stake, mineCount, stream, draw) => StartMines(db, user, session, stake, mineCount, stream, draw).0
    case StartTowersReq(user, session, stake, level, stream, draw) => StartTowers(db, user, session, stake, level, stream, draw).0
    case RevealMinesReq(user, session, bet, tile) => RevealMines(db, user, session, bet, tile).0
    case RevealTowersReq(user, session, bet, tile) => RevealTowers(db, user, session, bet, tile).0
    case CashOutMinesReq(user, session, bet) => CashOutRound(db, user, session, MinesGame, bet).0
    case CashOutTowersReq(user, session, bet) => CashOutRound(db, user, session, TowersGame, bet).0
    case QuoteReq(user, amount) => QuoteDeposit(db, user, amount)
    case CreditReq(deposit) => CreditDeposit(db, deposit)
    case FlagReq(deposit) => MoveDeposit(db, deposit, Review)
    case CancelReq(deposit) => MoveDeposit(db, deposit, Cancelled)
  }

  /** The tables after a sequence of requests. */
  function Run(db: Db, reqs: seq<Request>): Db
    decreases |reqs|
  {
    if reqs == [] then db else Run(Handle(db, reqs[0]), reqs[1..])
  }
}
