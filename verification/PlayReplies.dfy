/** What replies say is what happens to the money: receipts, the figures of an open round, and the payout of a cash-out. */
module PlayReplies {
  import opened Accounts
  import opened Arithmetic
  import opened Control
  import opened Mines
  import opened MinesGrid
  import opened MinesRound
  import opened Options
  import C = ClimbPlans
  import P = PlayPlans
  import opened Play
  import opened PlayChecks
  import opened PlayMoney
  import opened PlayQueries
  import opened PlayRounds
  import opened PlayRuns
  import opened PlaySafety
  import opened Rng
  import opened Sums
  import opened Towers

  /** The receipt of an accepted instant bet: its payout is the wallet's gain plus the stake, and its multiplier the one that pays it. */
  lemma ReceiptIsMoney(db: Db, user: UserId, session: nat, slug: Slug, stake: real, valid: bool, engine: Forced -> Roll, draw: Draw)
    requires PlaceBet(db, user, session, slug, stake, valid, engine, draw).1.Ok?
    ensures var (after, reply) := PlaceBet(db, user, session, slug, stake, valid, engine, draw);
            |after.bets| == |db.bets| + 1
            && var balance := WalletOf(after, user).balance;
               var r := ReceiptOf(after.bets[|db.bets|], balance);
               && r.payout - r.stake == balance - WalletOf(db, user).balance && r.balance == balance
               && r.stake as int == Hundredths(stake) && r.won == engine(reply.value).won
               && r.payout == (if r.won then PayoutCents(r.stake, r.multiplier) else 0)
               && r.nonce == NextNonce(db, user)
  {
    BetStored(db, user, session, slug, stake, valid, engine, draw);
    PlacedMoney(db, user, session, slug, stake, valid, engine, draw);
    hide PlaceBet;
    hide PayoutCents;
    hide Hundredths;
    hide GetControlRule;
    hide NextNonce;
  }

  lemma PlacedMoney(db: Db, user: UserId, session: nat, slug: Slug, stake: real, valid: bool, engine: Forced -> Roll, draw: Draw)
    requires PlaceBet(db, user, session, slug, stake, valid, engine, draw).1.Ok?
    ensures var (after, reply) := PlaceBet(db, user, session, slug, stake, valid, engine, draw);
            |after.bets| == |db.bets| + 1
            && var b := after.bets[|db.bets|];
               WalletOf(after, user).balance - WalletOf(db, user).balance == b.payout - b.stake && b.nonce == NextNonce(db, user)
  {
    hide RequireOpenSession;
    hide Decision;
    hide ApplyWinCap;
    hide ParseStake;
    hide PayoutCents;
    hide GoverningRow;
    hide PlacedRows;
  }

  /** What a player is shown of a round after a request. */
  function ShownRound(db: Db, user: UserId, session: nat, slug: Slug, bet: nat): RoundState
    requires bet < |db.bets|
  {
    Shown(bet, db.bets[bet], SessionEdge(db, user, session, slug), WalletOf(db, user).balance)
  }

  /** A cash-out pays the multiplier shown: what is shown of it is the rise in balance, and the board it was played on. */
  lemma CashOutShown(db: Db, user: UserId, session: nat, slug: Slug, bet: nat)
    requires Inv(db) && CashOutRound(db, user, session, slug, bet).1.Ok?
    ensures var (after, reply) := CashOutRound(db, user, session, slug, bet);
            bet < |db.bets| && bet < |after.bets|
            && var shown := ShownRound(after, user, session, slug, bet);
               && shown.payout == Some(reply.value) && shown.balance == Some(WalletOf(after, user).balance)
               && reply.value == WalletOf(after, user).balance - WalletOf(db, user).balance
               && reply.value == PayoutCents(db.bets[bet].stake, shown.multiplier)
               && shown.board == Some(db.bets[bet].board) && shown.status == CashedOut
  {
    CashOutMoves(db, user, session, slug, bet);
    CashOutMoney(db, user, session, slug, bet);
    hide Inv;
    hide PayoutCents;
    hide SessionEdge;
  }

  lemma CashOutMoney(db: Db, user: UserId, session: nat, slug: Slug, bet: nat)
    requires Inv(db) && CashOutRound(db, user, session, slug, bet).1.Ok?
    ensures var (after, reply) := CashOutRound(db, user, session, slug, bet);
            && WalletOf(after, user).balance - WalletOf(db, user).balance == reply.value
            && bet < |db.bets| && bet < |after.bets| && after.bets[bet] == PaidBet(db.bets[bet])
  {
    OwnerHasWallet(db, bet);
    hide Inv;
    hide RequireOpenSession;
    hide PayoutCents;
  }

  lemma OwnerHasWallet(db: Db, bet: nat)
    requires Inv(db)
    ensures bet < |db.bets| ==> db.bets[bet].user in db.wallets
  {
    hide Money;
    hide Totals;
    hide OneOpen;
    hide Nonces;
    hide Rounds;
  }

  /**
   * The figures shown of a Mines round in play are what it pays: a cash-out pays the multiplier shown, and the next safe pick stores
   * the next one shown.
   */
  lemma MinesShown(db: Db, user: UserId, session: nat, bet: nat, tile: int)
    requires Inv(db) && P.InPlay(db, user, session, bet)
    ensures bet < |db.bets| && db.bets[bet].board.MinesBoard?
    ensures var shown := ShownRound(db, user, session, MinesGame, bet);
            var (after, reply) := RevealMines(db, user, session, bet, tile);
            && (shown.picks != [] ==> CashOutRound(db, user, session, MinesGame, bet).1 == Ok(PayoutCents(db.bets[bet].stake, shown.multiplier)))
            && (reply.Ok? && reply.value != Lost ==> bet < |after.bets| && after.bets[bet].multiplier == shown.next)
            && shown.picks == db.bets[bet].board.revealed && shown.board == None
  {
    P.RoundInPlay(db, user, session, bet);
    RevealMinesMoves(db, user, session, bet, tile);
    SessionOf(db, user, session, MinesGame, bet);
    hide Inv;
    hide RequireOpenSession;
    hide RevealMines;
    hide MinesMultiplier;
    hide TowersMultiplier;
    hide PayoutCents;
    hide BetOk;
  }

  lemma SessionOf(db: Db, user: UserId, session: nat, slug: Slug, bet: nat)
    requires Inv(db) && RequireOpenSession(db, user, session, slug).Ok? && FindRound(db, user, session, bet).Ok?
    ensures bet < |db.bets| && db.bets[bet].game == RequireOpenSession(db, user, session, slug).value < |db.games|
    ensures SessionEdge(db, user, session, slug) == db.games[db.bets[bet].game].edge
  {
    hide Money;
    hide Totals;
    hide OneOpen;
    hide Nonces;
    hide Rounds;
  }

  /** The same for Towers. */
  lemma TowersShown(db: Db, user: UserId, session: nat, bet: nat, tile: int)
    requires Inv(db) && C.InPlay(db, user, session, bet)
    ensures bet < |db.bets| && db.bets[bet].board.TowersBoard?
    ensures var shown := ShownRound(db, user, session, TowersGame, bet);
            var (after, reply) := RevealTowers(db, user, session, bet, tile);
            && (shown.picks != [] ==> CashOutRound(db, user, session, TowersGame, bet).1 == Ok(PayoutCents(db.bets[bet].stake, shown.multiplier)))
            && (reply.Ok? && reply.value != Lost ==> bet < |after.bets| && after.bets[bet].multiplier == shown.next)
            && shown.picks == db.bets[bet].board.picks && shown.board == None
  {
    C.RoundInPlay(db, user, session, bet);
    RevealTowersMoves(db, user, session, bet, tile);
    SessionOf(db, user, session, TowersGame, bet);
    hide Inv;
    hide RequireOpenSession;
    hide RevealTowers;
    hide MinesMultiplier;
    hide TowersMultiplier;
    hide PayoutCents;
    hide BetOk;
  }

  lemma {:induction false} HistoryIsNewest(bets: seq<Bet>, session: nat, n: nat, limit: nat, i: nat)
    requires i < n <= |bets| && bets[i].session == session && i !in History(bets, session, n, limit)
    ensures var ids := History(bets, session, n, limit);
            |ids| == limit && forall id <- ids :: i < id
    decreases n
  {
    if limit > 0 && i < n - 1 {
      HistoryIsNewest(bets, session, n - 1, if bets[n - 1].session == session then limit - 1 else limit, i);
    }
  }

  /** What is shown of a session: what its bets staked and won, and the newest of them, newest first, fifty where there are as many. */
  lemma SessionShown(db: Db, session: nat, i: nat)
    requires Inv(db) && session < |db.sessions|
    ensures var view := ViewSession(db, session);
            && view.staked == Sum(db.bets, StakeIn(session)) && view.won == Sum(db.bets, PayoutIn(session))
            && |view.history| <= 50 && (forall j, k :: 0 <= j < k < |view.history| ==> view.history[j] > view.history[k])
            && (i in view.history ==> i < |db.bets| && db.bets[i].session == session)
            && (i < |db.bets| && db.bets[i].session == session && i !in view.history
                ==> |view.history| == 50 && forall id <- view.history :: i < id)
  {
    SessionSums(db, session);
    var ids := History(db.bets, session, |db.bets|, HISTORY_LIMIT);
    if i < |db.bets| && db.bets[i].session == session && i !in ids {
      HistoryIsNewest(db.bets, session, |db.bets|, HISTORY_LIMIT, i);
    }
    hide Inv;
    hide Sum;
  }

  lemma SessionSums(db: Db, session: nat)
    requires Inv(db) && session < |db.sessions|
    ensures db.sessions[session].staked == Sum(db.bets, StakeIn(session)) && db.sessions[session].won == Sum(db.bets, PayoutIn(session))
  {
    assert SessionFunds(db.sessions, db.bets, session);
    hide Money;
    hide OneOpen;
    hide Nonces;
    hide Rounds;
    hide Sum;
  }

  /** A finished climb or board as it is shown after a hit: nothing paid, everything laid open, and no balance, which has not moved. */
  predicate ShownLost(db: Db, after: Db, user: UserId, session: nat, slug: Slug, bet: nat, tile: nat) {
    && bet < |db.bets| && bet < |after.bets|
    && ShownRound(after, user, session, slug, bet)
       == RoundState(bet, Lost, PicksOn(db.bets[bet].board) + [tile], 0, 0, Some(WithPick(db.bets[bet].board, tile)), Some(0), None)
    && WalletOf(after, user).balance == WalletOf(db, user).balance
  }

  lemma LossShown(db: Db, user: UserId, session: nat, bet: nat, tile: int)
    requires Inv(db)
    ensures var (after, reply) := RevealMines(db, user, session, bet, tile);
            reply == Ok(Lost) ==> 0 <= tile && ShownLost(db, after, user, session, MinesGame, bet, tile)
    ensures var (after, reply) := RevealTowers(db, user, session, bet, tile);
            reply == Ok(Lost) ==> 0 <= tile && ShownLost(db, after, user, session, TowersGame, bet, tile)
  {
    hide RequireOpenSession;
    hide Inv;
    hide MinesMultiplier;
    hide TowersMultiplier;
    hide TowersConfig;
    hide CashOutRound;
  }
}
