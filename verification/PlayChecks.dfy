/** When the service accepts a bet, and what it then stores. */
module PlayChecks {
  import opened Accounts
  import opened Arithmetic
  import opened Control
  import opened MinesGrid
  import opened MinesRound
  import opened Play
  import opened Rng
  import opened Sums

  /** A player's open session of a game with this slug that can be played. */
  predicate CanPlay(db: Db, user: UserId, session: nat, slug: Slug) {
    && session < |db.sessions|
    && var s := db.sessions[session];
       && s.user == user && !s.ended && s.game < |db.games|
       && var g := db.games[s.game];
          g.slug == slug && g.isActive && !g.underMaintenance
  }

  /** The stake in cents is positive, within the game's limits, and covered by a wallet that is not locked. */
  predicate CanStake(db: Db, user: UserId, game: Game, input: real) {
    var cents, w := Hundredths(input), WalletOf(db, user);
    cents > 0 && game.minBet <= cents <= game.maxBet && !w.isLocked && w.balance >= cents
  }

  lemma CanPlayIsRequired(db: Db, user: UserId, session: nat, slug: Slug)
    ensures RequireOpenSession(db, user, session, slug).Ok? <==> CanPlay(db, user, session, slug)
    ensures CanPlay(db, user, session, slug) ==> RequireOpenSession(db, user, session, slug).value == db.sessions[session].game
  {
  }

  /** An instant bet is accepted exactly if it may be played and staked; any other request takes no money and adds no row. */
  lemma BetAcceptedExactly(db: Db, user: UserId, session: nat, slug: Slug, stake: real, valid: bool, engine: Forced -> Roll, draw: Draw)
    ensures var (after, reply) := PlaceBet(db, user, session, slug, stake, valid, engine, draw);
            && (reply.Ok? <==> slug.Instant? && valid && CanPlay(db, user, session, slug)
                               && CanStake(db, user, db.games[db.sessions[session].game], stake))
            && (reply.Err? ==> after.(wallets := db.wallets) == db && (after == db || after == GetOrCreate(db, user)))
  {
    CanPlayIsRequired(db, user, session, slug);
    hide RequireOpenSession;
    hide CanPlay;
    hide Decision;
    hide ApplyWinCap;
    hide Settle;
    hide GetControlRule;
    hide Hundredths;
  }

  /** A grid round is started exactly if, besides, no round of the player is open on the game. */
  lemma RoundStartedExactly(db: Db, user: UserId, session: nat, slug: Slug, stake: real, valid: bool, board: Forced -> Board, draw: Draw)
    ensures var (after, reply) := StartRound(db, user, session, slug, stake, valid, board, draw);
            && (reply.Ok? <==> valid && CanPlay(db, user, session, slug) && CanStake(db, user, db.games[db.sessions[session].game], stake)
                               && forall b <- db.bets :: !IsOpenOn(user, db.sessions[session].game)(b))
            && (reply.Err? ==> after.(wallets := db.wallets) == db && (after == db || after == GetOrCreate(db, user)))
  {
    CanPlayIsRequired(db, user, session, slug);
    if CanPlay(db, user, session, slug) {
      CountZero(db.bets, IsOpenOn(user, db.sessions[session].game));
    }
    hide RequireOpenSession;
    hide CanPlay;
    hide Decision;
    hide OpenRound;
    hide Hundredths;
    hide Count;
  }

  /** What an accepted instant bet stores: its stake, the roll under its decision up to the rule's cap, and the rounded payout. */
  lemma BetStored(db: Db, user: UserId, session: nat, slug: Slug, stake: real, valid: bool, engine: Forced -> Roll, draw: Draw)
    requires PlaceBet(db, user, session, slug, stake, valid, engine, draw).1.Ok?
    ensures var (after, reply) := PlaceBet(db, user, session, slug, stake, valid, engine, draw);
            var rule := GetControlRule(db, user, db.sessions[session].game);
            var cap := if rule.Some? && rule.value.maxWin.Some? then rule.value.maxWin.value else 0;
            var roll := engine(reply.value);
            && |after.bets| == |db.bets| + 1
            && var b := after.bets[|db.bets|];
               && b.user == user && b.session == session && b.stake as int == Hundredths(stake)
               && b.status == (if roll.won then Won else Lost)
               && b.multiplier == (if roll.won && 0 < cap < roll.multiplier then cap else roll.multiplier)
               && b.payout == (if roll.won then PayoutCents(b.stake, b.multiplier) else 0)
               && (b.controlled <==> reply.value != Honest)
  {
    var (after, reply) := PlaceBet(db, user, session, slug, stake, valid, engine, draw);
    CanPlayIsRequired(db, user, session, slug);
    WinCapHolds(engine(reply.value), GetControlRule(db, user, db.sessions[session].game));
    hide RequireOpenSession;
    hide CanPlay;
    hide Decision;
    hide ApplyWinCap;
    hide Hundredths;
    hide PayoutCents;
    hide GoverningRow;
    hide NextNonce;
    hide PlacedRows;
  }

  /** Still to be decided: a deposit that is pending or in review. */
  predicate CanBeCredited(ledger: seq<Tx>, i: nat) {
    i < |ledger| && ledger[i].kind == DepositTx && ledger[i].status in {Pending, Review}
  }

  /** A deposit is credited exactly from pending or review, which moves its row and its player's balance and deposits, and only once. */
  lemma CreditedExactly(db: Db, i: nat)
    ensures var after := CreditDeposit(db, i);
            && (!CanBeCredited(db.ledger, i) ==> after == db)
            && (CanBeCredited(db.ledger, i) ==>
                  var tx := db.ledger[i];
                  var w := WalletOf(db, tx.user);
                  && after.ledger == db.ledger[i := tx.(status := Confirmed)]
                  && after.wallets == db.wallets[tx.user := w.(balance := w.balance + tx.amount, deposited := w.deposited + tx.amount)]
                  && after.(ledger := db.ledger, wallets := db.wallets) == db)
            && CreditDeposit(after, i) == after
  {
  }
}
