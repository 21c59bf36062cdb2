/** What the open-round queries tell a player who comes back to a round. */
module PlayQueries {
  import opened Accounts
  import opened Mines
  import opened MinesRound
  import opened Options
  import opened Play
  import opened PlayMoney
  import opened PlayRounds
  import opened PlayRuns
  import opened Towers

  /** `multiplier` and `next` are recomputed from the picks, not read from the bet. */
  datatype OpenRoundView = OpenRoundView(bet: nat, picks: seq<nat>, multiplier: int, next: int)

  /** What a player is told about a round after a request: the board and the payout only once it is finished. */
  datatype RoundState = RoundState(bet: nat, status: Status, picks: seq<nat>, multiplier: int, next: int, board: Option<Board>,
                                   payout: Option<int>, balance: Option<int>)

  /** The multiplier that n picks on a board buy. */
  function MultiplierOn(board: Board, n: nat, edge: real): int {
    match board
    case NoBoard => 0
    case MinesBoard(mines, _) => MinesMultiplier(MINES_TILE_COUNT, |mines|, n, edge)
    case TowersBoard(level, _, _) => TowersMultiplier(level, n, edge)
  }

  function Shown(bet: nat, b: Bet, edge: real, balance: int): RoundState {
    var picks := PicksOn(b.board);
    if b.status == Open then RoundState(bet, Open, picks, b.multiplier, MultiplierOn(b.board, |picks| + 1, edge), None, None, None)
    else RoundState(bet, b.status, picks, b.multiplier, 0, Some(b.board), Some(b.payout), if b.status == CashedOut then Some(balance) else None)
  }

  /** While a round is open, what its player is told does not depend on where the mines or traps are. */
  lemma OpenRoundHidesBoard(bet: nat, b: Bet, mines: set<nat>, grid: seq<set<nat>>, edge: real, balance: int)
    requires b.status == Open
    ensures b.board.MinesBoard? && |mines| == |b.board.mines|
            ==> Shown(bet, b.(board := b.board.(mines := mines)), edge, balance) == Shown(bet, b, edge, balance)
    ensures b.board.TowersBoard? ==> Shown(bet, b.(board := b.board.(grid := grid)), edge, balance) == Shown(bet, b, edge, balance)
  {
    hide MinesMultiplier;
    hide TowersMultiplier;
  }

  /** The edge of the game that an open session is for. */
  function SessionEdge(db: Db, user: UserId, session: nat, slug: Slug): real {
    var owned := RequireOpenSession(db, user, session, slug);
    if owned.Ok? then db.games[owned.value].edge else 0.0
  }

  /** What a player is told about an instant bet. */
  datatype Receipt = Receipt(won: bool, stake: nat, multiplier: int, payout: int, nonce: nat, balance: int)

  function ReceiptOf(b: Bet, balance: int): Receipt {
    Receipt(b.status == Won, b.stake, b.multiplier, b.payout, b.nonce, balance)
  }

  /** A session with its newest bets, at most fifty. */
  datatype SessionView = SessionView(session: nat, ended: bool, betCount: nat, staked: int, won: int, history: seq<nat>)

  const HISTORY_LIMIT: nat := 50

  /** The newest of the first n bets that belong to a session, newest first. */
  function History(bets: seq<Bet>, session: nat, n: nat, limit: nat): (ids: seq<nat>)
    requires n <= |bets|
    ensures |ids| <= limit && forall k :: 0 <= k < |ids| ==> ids[k] < n && bets[ids[k]].session == session
    ensures forall i, j :: 0 <= i < j < |ids| ==> ids[i] > ids[j]
    decreases n
  {
    if n == 0 || limit == 0 then []
    else if bets[n - 1].session == session then [n - 1] + History(bets, session, n - 1, limit - 1)
    else History(bets, session, n - 1, limit)
  }

  /** Unless it is full, a history leaves out no bet of its session. */
  lemma {:induction false} HistoryIsComplete(bets: seq<Bet>, session: nat, n: nat, limit: nat, i: nat)
    requires i < n <= |bets| && bets[i].session == session && |History(bets, session, n, limit)| < limit
    ensures i in History(bets, session, n, limit)
    decreases n
  {
    if i < n - 1 {
      HistoryIsComplete(bets, session, n - 1, if bets[n - 1].session == session then limit - 1 else limit, i);
    }
  }

  function ViewSession(db: Db, session: nat): SessionView
    requires session < |db.sessions|
  {
    var s := db.sessions[session];
    SessionView(session, s.ended, s.betCount, s.staked, s.won, History(db.bets, session, |db.bets|, HISTORY_LIMIT))
  }

  predicate IsOpenHere(b: Bet, user: UserId, game: nat, session: nat) {
    b.user == user && b.game == game && b.session == session && b.status == Open
  }

  /** The newest of the first n bets that is an open round of this session. */
  function NewestOpen(bets: seq<Bet>, user: UserId, game: nat, session: nat, n: nat): (i: Option<nat>)
    requires n <= |bets|
    ensures i.Some? ==> i.value < n && IsOpenHere(bets[i.value], user, game, session)
    ensures forall k :: (if i.Some? then i.value + 1 else 0) <= k < n ==> !IsOpenHere(bets[k], user, game, session)
  {
    if n == 0 then None
    else if IsOpenHere(bets[n - 1], user, game, session) then Some(n - 1)
    else NewestOpen(bets, user, game, session, n - 1)
  }

  function ViewMines(bet: nat, b: Bet, edge: real): OpenRoundView {
    var mines := if b.board.MinesBoard? then |b.board.mines| else 0;
    var picks := PicksOn(b.board);
    OpenRoundView(bet, picks, MinesMultiplier(MINES_TILE_COUNT, mines, |picks|, edge),
                  MinesMultiplier(MINES_TILE_COUNT, mines, |picks| + 1, edge))
  }

  function ViewTowers(bet: nat, b: Bet, edge: real): OpenRoundView {
    var level := if b.board.TowersBoard? then b.board.level else Easy;
    var picks := PicksOn(b.board);
    OpenRoundView(bet, picks, TowersMultiplier(level, |picks|, edge), TowersMultiplier(level, |picks| + 1, edge))
  }

  function GetOpen(db: Db, user: UserId, session: nat, slug: Slug): Reply<Option<OpenRoundView>> {
    var owned := RequireOpenSession(db, user, session, slug);
    if owned.Err? then Err(owned.error)
    else
      var found := NewestOpen(db.bets, user, owned.value, session, |db.bets|);
      var edge := EdgeOf(db, owned.value);
      if found.None? then Ok(None)
      else if slug == MinesGame then Ok(Some(ViewMines(found.value, db.bets[found.value], edge)))
      else Ok(Some(ViewTowers(found.value, db.bets[found.value], edge)))
  }

  /** The query answers with the round, and with nothing exactly if the session has no open one. */
  lemma GetOpenFinds(db: Db, user: UserId, session: nat, slug: Slug)
    requires Inv(db) && GetOpen(db, user, session, slug).Ok?
    ensures var game, view := RequireOpenSession(db, user, session, slug).value, GetOpen(db, user, session, slug).value;
            if view.None? then forall i: nat :: i < |db.bets| ==> !IsOpenHere(db.bets[i], user, game, session)
            else
              forall i: nat :: i < |db.bets| ==> (IsOpenHere(db.bets[i], user, game, session) <==> i == view.value.bet)
  {
    InvOneOpen(db);
    var owned := RequireOpenSession(db, user, session, slug);
    var found := NewestOpen(db.bets, user, owned.value, session, |db.bets|);
    hide Inv;
    hide MinesMultiplier;
    hide TowersMultiplier;
    hide RequireOpenSession;
  }

  lemma InvOneOpen(db: Db)
    requires Inv(db)
    ensures OneOpen(db.bets)
  {
    hide Money;
    hide Totals;
    hide OneOpen;
    hide Nonces;
    hide Rounds;
    hide Linked;
    hide DepositsOk;
  }

  /**
   * The recomputed multiplier is the one stored with the bet, and the quoted next one is what a safe pick will store:
   * the query never shows a figure that the cash-out would not pay.
   */
  lemma GetOpenAgreesWithStored(db: Db, user: UserId, session: nat, slug: Slug, tile: nat)
    requires Inv(db) && (slug == MinesGame || slug == TowersGame)
    requires GetOpen(db, user, session, slug).Ok? && GetOpen(db, user, session, slug).value.Some?
    ensures var view := GetOpen(db, user, session, slug).value.value;
            && view.bet < |db.bets|
            && var b := db.bets[view.bet];
               var edge := db.games[b.game].edge;
               && view.picks == PicksOn(b.board) && view.multiplier == b.multiplier
               && (b.board.MinesBoard? && tile !in b.board.mines ==> RevealedMinesBet(b, tile, edge).multiplier == view.next)
               && (b.board.TowersBoard? && |b.board.picks| < |b.board.grid| && tile !in b.board.grid[|b.board.picks|]
                   ==> ClimbedBet(b, tile, edge).multiplier == view.next)
  {
    var view := GetOpen(db, user, session, slug).value.value;
    var b := db.bets[view.bet];
    StoredOpen(db, view.bet);
    hide Inv;
    hide MinesMultiplier;
    hide TowersMultiplier;
  }

  lemma StoredOpen(db: Db, i: nat)
    requires Inv(db) && i < |db.bets| && db.bets[i].status == Open
    ensures var b := db.bets[i];
            && b.game < |db.games|
            && match b.board
               case NoBoard => false
               case MinesBoard(mines, revealed) =>
                 db.games[b.game].slug == MinesGame
                 && b.multiplier == MinesMultiplier(MINES_TILE_COUNT, |mines|, |revealed|, db.games[b.game].edge)
               case TowersBoard(level, grid, picks) =>
                 db.games[b.game].slug == TowersGame
                 && b.multiplier == TowersMultiplier(level, |picks|, db.games[b.game].edge)
  {
    assert BetOk(db.games, db.bets[i]);
    hide Money;
    hide Totals;
    hide OneOpen;
    hide Nonces;
    hide Linked;
    hide Rounds;
    hide MinesMultiplier;
    hide TowersMultiplier;
  }
}
