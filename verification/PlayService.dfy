/**
 * The play service as it is written: a sequence of reads and updates per request, on tables that live in the object.
 * Each request is proved to have exactly the effect and the reply of its description on values.
 */
module Service {
  import opened Accounts
  import opened Arithmetic
  import opened Control
  import opened Mines
  import opened MinesGrid
  import opened MinesRound
  import opened Options
  import opened Play
  import opened PlayQueries
  import opened PlayReplay
  import opened PlayRounds
  import opened PlayRuns
  import opened Rng
  import opened Sums
  import opened Towers

  class PlayService {
    const games: seq<Game>
    const excluded: set<(UserId, nat)>
    var controls: seq<ControlRow>
    var wallets: map<UserId, Wallet>
    var bets: seq<Bet>
    var sessions: seq<Session>
    var ledger: seq<Tx>

    function Snapshot(): Db
      reads this
    {
      Db(games, excluded, controls, wallets, bets, sessions, ledger)
    }

    constructor (games: seq<Game>, excluded: set<(UserId, nat)>, controls: seq<ControlRow>)
      requires FairGames(games)
      ensures Fresh(Snapshot()) && Snapshot().games == games && Snapshot().excluded == excluded && Snapshot().controls == controls
    {
      this.games, this.excluded, this.controls := games, excluded, controls;
      wallets, bets, sessions, ledger := map[], [], [], [];
    }

    method GetOrCreateWallet(user: UserId) returns (wallet: Wallet)
      modifies `wallets
      ensures Snapshot() == GetOrCreate(old(Snapshot()), user)
      ensures user in wallets && wallet == wallets[user]
    {
      if user !in wallets {
        wallets := wallets[user := NewWallet];
      }
      wallet := wallets[user];
      assert old(wallets)[user := wallet] == wallets;
    }

    method Bump(session: nat, staked: int, won: int)
      modifies `sessions
      ensures Snapshot() == BumpSession(old(Snapshot()), session, staked, won)
    {
      if session < |sessions| {
        var s := sessions[session];
        sessions := sessions[session := s.(betCount := s.betCount + 1, staked := s.staked + staked, won := s.won + won)];
      }
    }

    method SpendForcedRound(row: nat, rule: Option<ControlRule>)
      requires row < |controls| ==> rule == Some(controls[row].rule)
      requires row >= |controls| ==> rule == None
      modifies `controls
      ensures forall user, game :: GoverningRow(old(controls), user, game) == row
                ==> Snapshot() == ConsumeForcedRound(old(Snapshot()), user, game)
    {
      hide GoverningRow;
      if rule.None? {
        return;
      }
      if rule.value.mode != ForceWin && rule.value.mode != ForceLoss {
        return;
      }
      if rule.value.forceRounds <= 0 {
        return;
      }
      var left := controls[row].rule.forceRounds - 1;
      controls := controls[row := controls[row].(rule := controls[row].rule.(forceRounds := if left > 0 then left else 0))];
    }

    method OpenSession(user: UserId, game: nat) returns (session: Option<nat>, view: Option<SessionView>)
      modifies `sessions
      ensures session.Some? ==> session.value < |sessions| && view == Some(ViewSession(Snapshot(), session.value))
      ensures Snapshot() == StartSession(old(Snapshot()), user, game)
      ensures session.Some? <==> |sessions| > |old(sessions)|
      ensures session.Some? ==> session.value + 1 == |sessions| && !sessions[session.value].ended
      ensures session.Some? ==> forall s :: 0 <= s < session.value && sessions[s].user == user && sessions[s].game == game
                                            ==> sessions[s].ended
    {
      if game >= |games| || !games[game].isActive || games[game].underMaintenance {
        return None, None;
      }
      if (user, game) in excluded {
        return None, None;
      }
      sessions := Map(sessions, Closing(user, game));
      sessions := sessions + [Session(user, game, 0, 0, 0, false)];
      session := Some(|sessions| - 1);
      view := Some(ViewSession(Snapshot(), |sessions| - 1));
    }

    method CloseSession(user: UserId, session: nat) returns (ok: bool)
      modifies `sessions
      ensures Snapshot() == EndSession(old(Snapshot()), user, session)
      ensures ok <==> session < |sessions| && sessions[session].user == user
      ensures ok ==> sessions[session].ended
    {
      if session >= |sessions| || sessions[session].user != user {
        return false;
      }
      if !sessions[session].ended {
        sessions := sessions[session := sessions[session].(ended := true)];
      } else {
        assert sessions[session := sessions[session].(ended := true)] == sessions;
      }
      return true;
    }

    /** From the guarded wallet update on: the bet is logged and totalled, and the rule's round used up. */
    method Record(user: UserId, session: nat, game: nat, stake: nat, nonce: nat, result: Roll, payout: int, controlled: bool,
                  row: nat, rule: Option<ControlRule>)
      requires user in wallets && nonce == NextNonce(Snapshot(), user) && row == GoverningRow(controls, user, game)
      requires rule == (if row < |controls| then Some(controls[row].rule) else None)
      requires payout == if result.won then PayoutCents(stake, result.multiplier) else 0
      modifies `controls, `wallets, `bets, `sessions, `ledger
      ensures Snapshot() == Settle(old(Snapshot()), user, session, game, stake, result, controlled)
      ensures bets == old(bets) + [Play.Bet(user, game, session, stake, result.multiplier, payout, if result.won then Won else Lost, NoBoard,
                                            nonce, controlled)]
      ensures user in wallets
    {
      hide GoverningRow;
      hide ConsumeForcedRound;
      hide NextNonce;
      hide PayoutCents;
      wallets := wallets[user := wallets[user].(balance := wallets[user].balance + payout - stake,
                                                wagered := wallets[user].wagered + stake,
                                                won := wallets[user].won + payout)];
      bets := bets + [Play.Bet(user, game, session, stake, result.multiplier, payout, if result.won then Won else Lost, NoBoard,
                               nonce, controlled)];
      ledger := ledger + ([Tx(user, StakeTx, Confirmed, -(stake as int))]
                          + if payout > 0 then [Tx(user, PayoutTx, Confirmed, payout)] else []);
      Bump(session, stake, payout);
      SpendForcedRound(row, rule);
    }

    method PlaceBet(user: UserId, session: nat, slug: Slug, stakeInput: real, valid: bool, engine: Forced -> Roll, draw: Draw)
      returns (reply: Reply<Forced>, receipt: Option<Receipt>)
      modifies `controls, `wallets, `bets, `sessions, `ledger
      ensures reply.Ok? ==> |bets| > 0 && user in wallets && receipt == Some(ReceiptOf(bets[|bets| - 1], wallets[user].balance))
      ensures (Snapshot(), reply) == Play.PlaceBet(old(Snapshot()), user, session, slug, stakeInput, valid, engine, draw)
    {
      hide GoverningRow;
      hide ResolveControl;
      hide ApplyWinCap;
      hide ParseStake;
      hide NextNonce;
      hide PayoutCents;
      hide WalletDifficultyForGame;
      hide Settle;
      if !slug.Instant? {
        return Err(NotInstant), None;
      }
      var owned := RequireOpenSession(Snapshot(), user, session, slug);
      hide RequireOpenSession;
      if owned.Err? {
        return Err(owned.error), None;
      }
      var gameId := owned.value;
      var game := games[gameId];
      if !valid {
        return Err(InvalidSelection), None;
      }
      var stakeCheck := ParseStake(stakeInput, game);
      if stakeCheck.Err? {
        return Err(stakeCheck.error), None;
      }
      var stake := stakeCheck.value;
      var wallet := GetOrCreateWallet(user);
      if wallet.isLocked {
        return Err(WalletLocked), None;
      }
      var nonce := NextNonce(Snapshot(), user);
      var row := GoverningRow(controls, user, gameId);
      var rule := if row < |controls| then Some(controls[row].rule) else None;
      var forced := ResolveControl(rule, WalletDifficultyForGame(wallet.difficulty, wallet.perGame, game.slug), game.difficulty, draw);
      var result := ApplyWinCap(engine(forced), rule);
      var payout := if result.won then PayoutCents(stake, result.multiplier) else 0;
      if wallets[user].balance < stake {
        return Err(Insufficient), None;
      }
      Record(user, session, gameId, stake, nonce, result, payout, forced != Honest, row, rule);
      return Ok(forced), Some(Receipt(result.won, stake, result.multiplier, payout, nonce, wallets[user].balance));
    }

    /** startMines and startTowers, which differ only in the board they lay out for a decision. */
    method StartRound(user: UserId, session: nat, slug: Slug, stakeInput: real, valid: bool, board: Forced -> Board, draw: Draw)
      returns (reply: Reply<nat>)
      modifies `wallets, `bets, `sessions, `ledger
      ensures (Snapshot(), reply) == Play.StartRound(old(Snapshot()), user, session, slug, stakeInput, valid, board, draw)
    {
      hide GoverningRow;
      hide ResolveControl;
      hide ParseStake;
      hide NextNonce;
      hide WalletDifficultyForGame;
      hide OpenRound;
      hide Count;
      var owned := RequireOpenSession(Snapshot(), user, session, slug);
      hide RequireOpenSession;
      if owned.Err? {
        return Err(owned.error);
      }
      var gameId := owned.value;
      var game := games[gameId];
      if !valid {
        return Err(InvalidSelection);
      }
      var stakeCheck := ParseStake(stakeInput, game);
      if stakeCheck.Err? {
        return Err(stakeCheck.error);
      }
      var stake := stakeCheck.value;
      if Count(bets, IsOpenOn(user, gameId)) > 0 {
        return Err(RoundInProgress);
      }
      var wallet := GetOrCreateWallet(user);
      if wallet.isLocked {
        return Err(WalletLocked);
      }
      var nonce := NextNonce(Snapshot(), user);
      var row := GoverningRow(controls, user, gameId);
      var rule := if row < |controls| then Some(controls[row].rule) else None;
      var forced := ResolveControl(rule, WalletDifficultyForGame(wallet.difficulty, wallet.perGame, game.slug), game.difficulty, draw);
      var laid := board(forced);
      if wallets[user].balance < stake {
        return Err(Insufficient);
      }
      reply := Ok(|bets|);
      RecordRound(user, session, gameId, stake, nonce, laid, forced != Honest);
    }

    /** From the guarded wallet update on: the stake is locked, the open bet logged and totalled. */
    method RecordRound(user: UserId, session: nat, game: nat, stake: nat, nonce: nat, board: Board, controlled: bool)
      requires user in wallets && nonce == NextNonce(Snapshot(), user)
      modifies `wallets, `bets, `sessions, `ledger
      ensures Snapshot() == OpenRound(old(Snapshot()), user, session, game, stake, board, controlled)
    {
      hide NextNonce;
      wallets := wallets[user := wallets[user].(balance := wallets[user].balance - stake, locked := wallets[user].locked + stake,
                                                wagered := wallets[user].wagered + stake)];
      bets := bets + [Play.Bet(user, game, session, stake, 0, 0, Open, board, nonce, controlled)];
      ledger := ledger + [Tx(user, StakeTx, Confirmed, -(stake as int))];
      Bump(session, stake, 0);
    }

    /** UPDATE of the wallet that releases a stake and pays out; GREATEST keeps what is locked from going below zero. */
    method Release(user: UserId, stake: nat, payout: int)
      modifies `wallets
      ensures var w := WalletOf(old(Snapshot()), user);
              Snapshot() == SetWallet(old(Snapshot()), user,
                                      Unlocked(w, stake).(balance := w.balance + payout, won := w.won + payout))
    {
      if user in wallets {
        var w := wallets[user];
        var locked := if w.locked - stake > 0 then w.locked - stake else 0;
        wallets := wallets[user := w.(balance := w.balance + payout, locked := locked, won := w.won + payout)];
      }
    }

    method StartMines(user: UserId, session: nat, stakeInput: real, mineCount: int, stream: Stream, draw: Draw)
      returns (reply: Reply<nat>, shown: Option<RoundState>)
      modifies `wallets, `bets, `sessions, `ledger
      ensures (Snapshot(), reply) == Play.StartMines(old(Snapshot()), user, session, stakeInput, mineCount, stream, draw)
      ensures reply.Ok? ==> reply.value < |bets|
                            && shown == Some(Shown(reply.value, bets[reply.value], SessionEdge(old(Snapshot()), user, session, MinesGame), 0))
    {
      shown := None;
      ghost var db := Snapshot();
      reply := StartRound(user, session, MinesGame, stakeInput, 1 <= mineCount <= 24, MinesBoardFor(mineCount, stream), draw);
      if reply.Ok? {
        NewMinesIsShown(db, user, session, stakeInput, mineCount, stream, draw);
        hide Shown;
        hide Play.StartRound;
        hide RequireOpenSession;
        hide MinesMultiplier;
        var edge := SessionEdge(Snapshot(), user, session, MinesGame);
        shown := Some(RoundState(reply.value, Open, [], 0, MinesMultiplier(MINES_TILE_COUNT, mineCount, 1, edge), None, None, None));
      }
    }

    method StartTowers(user: UserId, session: nat, stakeInput: real, level: Difficulty, stream: Stream, draw: Draw)
      returns (reply: Reply<nat>, shown: Option<RoundState>)
      modifies `wallets, `bets, `sessions, `ledger
      ensures (Snapshot(), reply) == Play.StartTowers(old(Snapshot()), user, session, stakeInput, level, stream, draw)
      ensures reply.Ok? ==> reply.value < |bets|
                            && shown == Some(Shown(reply.value, bets[reply.value], SessionEdge(old(Snapshot()), user, session, TowersGame), 0))
    {
      shown := None;
      ghost var db := Snapshot();
      reply := StartRound(user, session, TowersGame, stakeInput, true, TowersBoardFor(level, stream), draw);
      if reply.Ok? {
        NewTowersIsShown(db, user, session, stakeInput, level, stream, draw);
        hide Shown;
        hide Play.StartRound;
        hide RequireOpenSession;
        hide TowersMultiplier;
        var edge := SessionEdge(Snapshot(), user, session, TowersGame);
        shown := Some(RoundState(reply.value, Open, [], 0, TowersMultiplier(level, 1, edge), None, None, None));
      }
    }

    /** cashOutMines and cashOutTowers, which differ only in the game they ask for. */
    method CashOut(user: UserId, session: nat, slug: Slug, id: nat) returns (reply: Reply<int>, shown: Option<RoundState>)
      modifies `wallets, `bets, `sessions, `ledger
      ensures (Snapshot(), reply) == CashOutRound(old(Snapshot()), user, session, slug, id)
      ensures reply.Ok? ==> id < |bets| && bets[id].status == CashedOut
                            && shown == Some(Shown(id, bets[id], SessionEdge(old(Snapshot()), user, session, slug), WalletOf(Snapshot(), user).balance))
    {
      hide PayoutCents;
      var owned := RequireOpenSession(Snapshot(), user, session, slug);
      hide RequireOpenSession;
      if owned.Err? {
        return Err(owned.error), None;
      }
      if id >= |bets| || bets[id].user != user || bets[id].session != session {
        return Err(RoundNotFound), None;
      }
      var bet := bets[id];
      if bet.status != Open {
        return Err(RoundFinished), None;
      }
      if PicksOn(bet.board) == [] {
        return Err(NothingRevealed), None;
      }
      var payout := PayoutCents(bet.stake, bet.multiplier);
      Release(user, bet.stake, payout);
      bets := bets[id := bet.(status := CashedOut, payout := payout)];
      ledger := ledger + [Tx(user, PayoutTx, Confirmed, payout)];
      Bump(session, 0, payout);
      var balance := if user in wallets then wallets[user].balance else 0;
      return Ok(payout), Some(RoundState(id, CashedOut, PicksOn(bet.board), bet.multiplier, 0, Some(bet.board), Some(payout), Some(balance)));
    }

    method RevealMines(user: UserId, session: nat, id: nat, tile: int) returns (reply: Reply<Status>, shown: Option<RoundState>)
      modifies `wallets, `bets, `sessions, `ledger
      ensures (Snapshot(), reply) == Play.RevealMines(old(Snapshot()), user, session, id, tile)
      ensures reply.Ok? ==> id < |bets|
                            && shown == Some(Shown(id, bets[id], SessionEdge(old(Snapshot()), user, session, MinesGame), WalletOf(Snapshot(), user).balance))
    {
      hide MinesMultiplier;
      hide CashOutRound;
      if tile < 0 || tile >= MINES_TILE_COUNT {
        return Err(InvalidTile), None;
      }
      var owned := RequireOpenSession(Snapshot(), user, session, MinesGame);
      hide RequireOpenSession;
      if owned.Err? {
        return Err(owned.error), None;
      }
      if id >= |bets| || bets[id].user != user || bets[id].session != session {
        return Err(RoundNotFound), None;
      }
      var bet := bets[id];
      if bet.status != Open {
        return Err(RoundFinished), None;
      }
      if !bet.board.MinesBoard? {
        return Err(RoundNotFound), None;
      }
      var mines, revealed := bet.board.mines, bet.board.revealed;
      if tile in revealed {
        return Err(AlreadyRevealed), None;
      }
      if tile in mines {
        Release(user, bet.stake, 0);
        bets := bets[id := bet.(status := Lost, multiplier := 0, payout := 0, board := MinesBoard(mines, revealed + [tile]))];
        return Ok(Lost), Some(RoundState(id, Lost, revealed + [tile], 0, 0, Some(MinesBoard(mines, revealed + [tile])), Some(0), None));
      }
      var next := revealed + [tile];
      var multiplier := MinesMultiplier(MINES_TILE_COUNT, |mines|, |next|, games[owned.value].edge);
      bets := bets[id := bet.(multiplier := multiplier, board := MinesBoard(mines, next))];
      if |next| >= MINES_TILE_COUNT - |mines| {
        var paid, told := CashOut(user, session, MinesGame, id);
        if paid.Ok? {
          return Ok(CashedOut), told;
        }
        return Err(paid.error), None;
      }
      var further := MinesMultiplier(MINES_TILE_COUNT, |mines|, |next| + 1, games[owned.value].edge);
      return Ok(Open), Some(RoundState(id, Open, next, multiplier, further, None, None, None));
    }

    method RevealTowers(user: UserId, session: nat, id: nat, tile: int) returns (reply: Reply<Status>, shown: Option<RoundState>)
      modifies `wallets, `bets, `sessions, `ledger
      ensures (Snapshot(), reply) == Play.RevealTowers(old(Snapshot()), user, session, id, tile)
      ensures reply.Ok? ==> id < |bets|
                            && shown == Some(Shown(id, bets[id], SessionEdge(old(Snapshot()), user, session, TowersGame), WalletOf(Snapshot(), user).balance))
    {
      hide TowersMultiplier;
      hide CashOutRound;
      var owned := RequireOpenSession(Snapshot(), user, session, TowersGame);
      hide RequireOpenSession;
      if owned.Err? {
        return Err(owned.error), None;
      }
      if id >= |bets| || bets[id].user != user || bets[id].session != session {
        return Err(RoundNotFound), None;
      }
      var bet := bets[id];
      if bet.status != Open {
        return Err(RoundFinished), None;
      }
      if !bet.board.TowersBoard? {
        return Err(RoundNotFound), None;
      }
      var level, grid, picks := bet.board.level, bet.board.grid, bet.board.picks;
      var config, row := TowersConfig(level), |picks|;
      if tile < 0 || tile >= config.tiles {
        return Err(InvalidTile), None;
      }
      if row >= config.rows {
        return Err(TowerClear), None;
      }
      var traps := if row < |grid| then grid[row] else {};
      if tile in traps {
        Release(user, bet.stake, 0);
        bets := bets[id := bet.(status := Lost, multiplier := 0, payout := 0, board := TowersBoard(level, grid, picks + [tile]))];
        return Ok(Lost), Some(RoundState(id, Lost, picks + [tile], 0, 0, Some(TowersBoard(level, grid, picks + [tile])), Some(0), None));
      }
      var next := picks + [tile];
      var multiplier := TowersMultiplier(level, |next|, games[owned.value].edge);
      bets := bets[id := bet.(multiplier := multiplier, board := TowersBoard(level, grid, next))];
      if |next| >= config.rows {
        var paid, told := CashOut(user, session, TowersGame, id);
        if paid.Ok? {
          return Ok(CashedOut), told;
        }
        return Err(paid.error), None;
      }
      var further := TowersMultiplier(level, |next| + 1, games[owned.value].edge);
      return Ok(Open), Some(RoundState(id, Open, next, multiplier, further, None, None, None));
    }
  }

  lemma NewMinesIsShown(db: Db, user: UserId, session: nat, stake: real, mineCount: int, stream: Stream, draw: Draw)
    requires Play.StartMines(db, user, session, stake, mineCount, stream, draw).1.Ok?
    ensures var (first, reply) := Play.StartMines(db, user, session, stake, mineCount, stream, draw);
            var edge := SessionEdge(db, user, session, MinesGame);
            && reply.value < |first.bets| && mineCount >= 0
            && SessionEdge(first, user, session, MinesGame) == edge
            && Shown(reply.value, first.bets[reply.value], edge, 0)
               == RoundState(reply.value, Open, [], 0, MinesMultiplier(MINES_TILE_COUNT, mineCount, 1, edge), None, None, None)
  {
    StartedBet(db, user, session, MinesGame, stake, 1 <= mineCount <= 24, MinesBoardFor(mineCount, stream), draw);
    var forced := Decision(db, user, RequireOpenSession(db, user, session, MinesGame).value, draw);
    GridHasMineCount(mineCount, stream, forced);
    StartedSession(db, user, session, MinesGame, stake, 1 <= mineCount <= 24, MinesBoardFor(mineCount, stream), draw);
    hide Play.StartRound;
    hide RequireOpenSession;
    hide MinesMultiplier;
    hide Decision;
    hide BuildMinesGrid;
  }

  lemma NewTowersIsShown(db: Db, user: UserId, session: nat, stake: real, level: Difficulty, stream: Stream, draw: Draw)
    requires Play.StartTowers(db, user, session, stake, level, stream, draw).1.Ok?
    ensures var (first, reply) := Play.StartTowers(db, user, session, stake, level, stream, draw);
            var edge := SessionEdge(db, user, session, TowersGame);
            && reply.value < |first.bets| && SessionEdge(first, user, session, TowersGame) == edge
            && Shown(reply.value, first.bets[reply.value], edge, 0)
               == RoundState(reply.value, Open, [], 0, TowersMultiplier(level, 1, edge), None, None, None)
  {
    StartedBet(db, user, session, TowersGame, stake, true, TowersBoardFor(level, stream), draw);
    StartedSession(db, user, session, TowersGame, stake, true, TowersBoardFor(level, stream), draw);
    hide Play.StartRound;
    hide RequireOpenSession;
    hide TowersMultiplier;
    hide Decision;
    hide BuildTowersGrid;
  }

  lemma StartedSession(db: Db, user: UserId, session: nat, slug: Slug, stake: real, valid: bool, board: Forced -> Board, draw: Draw)
    ensures RequireOpenSession(Play.StartRound(db, user, session, slug, stake, valid, board, draw).0, user, session, slug)
         == RequireOpenSession(db, user, session, slug)
  {
    hide Decision;
    hide ParseStake;
    hide NextNonce;
  }
}
