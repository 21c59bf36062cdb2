/** Where the money is: wallets, sessions and the ledger agree with the bets, over every run of requests. */
module PlayMoney {
  import opened Accounts
  import opened MinesRound
  import opened Play
  import opened Sums

  function OpenStake(user: UserId): Bet -> int {
    (b: Bet) => if b.user == user && b.status == Open then b.stake else 0
  }

  function StakeOf(user: UserId): Bet -> int {
    (b: Bet) => if b.user == user then b.stake else 0
  }

  function PayoutOf(user: UserId): Bet -> int {
    (b: Bet) => if b.user == user then b.payout else 0
  }

  function DepositOf(user: UserId): Tx -> int {
    (t: Tx) => if t.user == user && t.kind == DepositTx && t.status == Confirmed then t.amount else 0
  }

  function AmountOf(user: UserId): Tx -> int {
    (t: Tx) => if t.user == user && t.status == Confirmed then t.amount else 0
  }

  function StakeIn(session: nat): Bet -> int {
    (b: Bet) => if b.session == session then b.stake else 0
  }

  function PayoutIn(session: nat): Bet -> int {
    (b: Bet) => if b.session == session then b.payout else 0
  }

  /** How often a bet counts in a session: once when placed, and a grid bet once more when cashed out. */
  function BumpsIn(session: nat): Bet -> int {
    (b: Bet) => if b.session != session then 0 else if b.status == CashedOut then 2 else 1
  }

  function IsIn(session: nat): Bet -> bool {
    (b: Bet) => b.session == session
  }

  function IsCashedIn(session: nat): Bet -> bool {
    (b: Bet) => b.session == session && b.status == CashedOut
  }

  /** So the counter is the number of bets plus the number of cashed-out ones. */
  lemma {:induction false} BumpsAreBetsAndCashOuts(bets: seq<Bet>, session: nat)
    ensures Sum(bets, BumpsIn(session)) == Count(bets, IsIn(session)) + Count(bets, IsCashedIn(session))
  {
    if bets != [] {
      BumpsAreBetsAndCashOuts(bets[1..], session);
    }
  }

  function WalletIn(wallets: map<UserId, Wallet>, user: UserId): Wallet {
    if user in wallets then wallets[user] else NewWallet
  }

  /**
   * A user's wallet: what is locked is the stakes of the open bets, the totals are those of the bets and the confirmed
   * deposits, and the balance is what came in less what was staked plus what was won, as the ledger has it.
   */
  predicate Funds(wallets: map<UserId, Wallet>, bets: seq<Bet>, ledger: seq<Tx>, user: UserId) {
    var w := WalletIn(wallets, user);
    && w.locked == Sum(bets, OpenStake(user))
    && w.wagered == Sum(bets, StakeOf(user))
    && w.won == Sum(bets, PayoutOf(user))
    && w.deposited == Sum(ledger, DepositOf(user))
    && w.balance == w.deposited - w.wagered + w.won
    && w.balance == Sum(ledger, AmountOf(user))
    && w.balance >= 0
  }

  ghost predicate Money(wallets: map<UserId, Wallet>, bets: seq<Bet>, ledger: seq<Tx>) {
    forall user :: Funds(wallets, bets, ledger, user)
  }

  /** How much the sums over one user's rows grow in a step. */
  datatype Delta = Delta(locked: int, staked: int, won: int, deposited: int, amount: int)

  function Grown(w: Wallet, d: Delta): Wallet {
    w.(balance := w.balance + d.amount, locked := w.locked + d.locked, wagered := w.wagered + d.staked,
       won := w.won + d.won, deposited := w.deposited + d.deposited)
  }

  predicate BetsGrow(before: seq<Bet>, after: seq<Bet>, user: UserId, x: UserId, d: Delta) {
    && Sum(after, OpenStake(x)) == Sum(before, OpenStake(x)) + (if x == user then d.locked else 0)
    && Sum(after, StakeOf(x)) == Sum(before, StakeOf(x)) + (if x == user then d.staked else 0)
    && Sum(after, PayoutOf(x)) == Sum(before, PayoutOf(x)) + (if x == user then d.won else 0)
  }

  predicate LedgerGrows(before: seq<Tx>, after: seq<Tx>, user: UserId, x: UserId, d: Delta) {
    && Sum(after, DepositOf(x)) == Sum(before, DepositOf(x)) + (if x == user then d.deposited else 0)
    && Sum(after, AmountOf(x)) == Sum(before, AmountOf(x)) + (if x == user then d.amount else 0)
  }

  /** A wallet that moves with its user's rows keeps the books. */
  lemma MoneyMoves(wallets: map<UserId, Wallet>, bets: seq<Bet>, ledger: seq<Tx>, bets': seq<Bet>, ledger': seq<Tx>,
                   user: UserId, d: Delta)
    requires Money(wallets, bets, ledger)
    requires forall x :: BetsGrow(bets, bets', user, x, d) && LedgerGrows(ledger, ledger', user, x, d)
    requires d.amount == d.deposited - d.staked + d.won
    requires WalletIn(wallets, user).balance + d.amount >= 0
    ensures Money(wallets[user := Grown(WalletIn(wallets, user), d)], bets', ledger')
  {
    var wallets' := wallets[user := Grown(WalletIn(wallets, user), d)];
    forall x
      ensures Funds(wallets', bets', ledger', x)
    {
      assert Funds(wallets, bets, ledger, x);
      assert BetsGrow(bets, bets', user, x, d) && LedgerGrows(ledger, ledger', user, x, d);
    }
  }

  lemma BetAppended(bets: seq<Bet>, bet: Bet, x: UserId, d: Delta)
    requires d.staked == bet.stake && d.won == bet.payout && d.locked == if bet.status == Open then bet.stake else 0
    ensures BetsGrow(bets, bets + [bet], bet.user, x, d)
  {
    SumAppend(bets, bet, OpenStake(x));
    SumAppend(bets, bet, StakeOf(x));
    SumAppend(bets, bet, PayoutOf(x));
  }

  lemma BetUpdated(bets: seq<Bet>, i: nat, bet: Bet, x: UserId, d: Delta)
    requires i < |bets| && bet.user == bets[i].user && bet.stake == bets[i].stake
    requires d.staked == 0 && d.won == bet.payout - bets[i].payout
    requires d.locked == (if bet.status == Open then bet.stake else 0) - (if bets[i].status == Open then bet.stake else 0)
    ensures BetsGrow(bets, bets[i := bet], bet.user, x, d)
  {
    SumUpdate(bets, i, bet, OpenStake(x));
    SumUpdate(bets, i, bet, StakeOf(x));
    SumUpdate(bets, i, bet, PayoutOf(x));
  }

  lemma TxAppended(ledger: seq<Tx>, tx: Tx, x: UserId, d: Delta)
    requires d.amount == (if tx.status == Confirmed then tx.amount else 0)
    requires d.deposited == (if tx.status == Confirmed && tx.kind == DepositTx then tx.amount else 0)
    ensures LedgerGrows(ledger, ledger + [tx], tx.user, x, d)
  {
    SumAppend(ledger, tx, DepositOf(x));
    SumAppend(ledger, tx, AmountOf(x));
  }

  lemma TxUpdated(ledger: seq<Tx>, i: nat, tx: Tx, x: UserId, d: Delta)
    requires i < |ledger| && tx.user == ledger[i].user && tx.kind == ledger[i].kind == DepositTx
    requires d.amount == d.deposited
             == (if tx.status == Confirmed then tx.amount else 0) - (if ledger[i].status == Confirmed then ledger[i].amount else 0)
    ensures LedgerGrows(ledger, ledger[i := tx], tx.user, x, d)
  {
    SumUpdate(ledger, i, tx, DepositOf(x));
    SumUpdate(ledger, i, tx, AmountOf(x));
  }

  /** A session's totals are those of its bets. */
  predicate SessionFunds(sessions: seq<Session>, bets: seq<Bet>, s: nat)
    requires s < |sessions|
  {
    && sessions[s].staked == Sum(bets, StakeIn(s))
    && sessions[s].won == Sum(bets, PayoutIn(s))
    && sessions[s].betCount == Sum(bets, BumpsIn(s))
  }

  ghost predicate Totals(sessions: seq<Session>, bets: seq<Bet>) {
    && (forall s: nat :: s < |sessions| ==> SessionFunds(sessions, bets, s))
    && (forall i :: 0 <= i < |bets| ==> bets[i].session < |sessions|)
  }

  lemma TotalsBetAppended(sessions: seq<Session>, bets: seq<Bet>, bet: Bet, sessions': seq<Session>)
    requires Totals(sessions, bets) && bet.session < |sessions| == |sessions'| && bet.status != CashedOut
    requires forall s: nat :: s < |sessions| && s != bet.session ==> sessions'[s] == sessions[s]
    requires sessions'[bet.session].staked == sessions[bet.session].staked + bet.stake
    requires sessions'[bet.session].won == sessions[bet.session].won + bet.payout
    requires sessions'[bet.session].betCount == sessions[bet.session].betCount + 1
    ensures Totals(sessions', bets + [bet])
  {
    var bets' := bets + [bet];
    forall s: nat | s < |sessions'|
      ensures SessionFunds(sessions', bets', s)
    {
      assert SessionFunds(sessions, bets, s);
      SumAppend(bets, bet, StakeIn(s));
      SumAppend(bets, bet, PayoutIn(s));
      SumAppend(bets, bet, BumpsIn(s));
    }
  }

  lemma TotalsBetUpdated(sessions: seq<Session>, bets: seq<Bet>, i: nat, bet: Bet, sessions': seq<Session>)
    requires Totals(sessions, bets) && i < |bets| && |sessions| == |sessions'|
    requires bet.session == bets[i].session && bet.stake == bets[i].stake && bets[i].status != CashedOut
    requires forall s: nat :: s < |sessions| && s != bet.session ==> sessions'[s] == sessions[s]
    requires sessions'[bet.session].staked == sessions[bet.session].staked
    requires sessions'[bet.session].won == sessions[bet.session].won + bet.payout - bets[i].payout
    requires sessions'[bet.session].betCount == sessions[bet.session].betCount + if bet.status == CashedOut then 1 else 0
    ensures Totals(sessions', bets[i := bet])
  {
    var bets' := bets[i := bet];
    forall s: nat | s < |sessions'|
      ensures SessionFunds(sessions', bets', s)
    {
      assert SessionFunds(sessions, bets, s);
      SumUpdate(bets, i, bet, StakeIn(s));
      SumUpdate(bets, i, bet, PayoutIn(s));
      SumUpdate(bets, i, bet, BumpsIn(s));
    }
  }

  predicate SameTotals(a: Session, b: Session) {
    a.staked == b.staked && a.won == b.won && a.betCount == b.betCount
  }

  lemma TotalsSessionsOnly(sessions: seq<Session>, bets: seq<Bet>, sessions': seq<Session>)
    requires Totals(sessions, bets) && |sessions| <= |sessions'|
    requires forall s: nat :: s < |sessions| ==> SameTotals(sessions[s], sessions'[s])
    requires forall s: nat :: |sessions| <= s < |sessions'| ==> SameTotals(Session(0, 0, 0, 0, 0, false), sessions'[s])
    ensures Totals(sessions', bets)
  {
    forall s: nat | s < |sessions'|
      ensures SessionFunds(sessions', bets, s)
    {
      if s < |sessions| {
        assert SessionFunds(sessions, bets, s) && SameTotals(sessions[s], sessions'[s]);
      } else {
        assert SameTotals(Session(0, 0, 0, 0, 0, false), sessions'[s]);
        NothingIn(bets, s);
      }
    }
  }

  lemma {:induction false} NothingIn(bets: seq<Bet>, s: nat)
    requires forall i :: 0 <= i < |bets| ==> bets[i].session < s
    ensures Sum(bets, StakeIn(s)) == 0 == Sum(bets, PayoutIn(s)) && Sum(bets, BumpsIn(s)) == 0
  {
    if bets != [] {
      NothingIn(bets[1..], s);
    }
  }
}
