/**
 * The money-moving requests as processes that run one SQL statement at a time, in any order. A statement reads and
 * writes the tables atomically; nothing is assumed about what other processes do between two statements of a request.
 */
module Interleaving {
  import opened Accounts
  import opened Arithmetic
  import opened Play
  import opened PlayMoney
  import opened PlayRounds
  import opened Sums

  /** An instant bet, whose payout the engine has fixed, or the start of a grid round. */
  datatype Job = Instant(user: UserId, stake: nat, payout: nat) | Grid(user: UserId, stake: nat)

  /** What a player does with a grid round; which tile is hit and what a safe one is worth is left open. */
  datatype RoundMove = Hit | Safe(multiplier: nat, last: bool) | Pay

  /** What money and nonces need to know of a bet's row; only a grid round's multiplier and picks matter, and only it is ever open. */
  datatype BetRow = BetRow(user: UserId, nonce: nat, stake: nat, multiplier: nat, picks: nat, isOpen: bool)

  /** The statement a process is about to run, with what it remembers from the ones before. */
  datatype Process =
    | Finished
    | SelectWallet(job: Job) | InsertWallet(job: Job) | RefetchWallet(job: Job) | CountBets(job: Job)
    | Debit(job: Job, nonce: nat) | InsertBet(job: Job, nonce: nat) | InsertStake(job: Job)
    | SelectBet(bet: nat, move: RoundMove)
    | ReleaseStake(bet: nat, user: UserId, stake: nat, picks: nat) | CloseLost(bet: nat, user: UserId, stake: nat, picks: nat)
    | StorePick(bet: nat, multiplier: nat, picks: nat, last: bool)
    | PayWallet(bet: nat, user: UserId, stake: nat, payout: nat) | ClosePaid(bet: nat, user: UserId, stake: nat, payout: nat)
    | InsertPayout(user: UserId, payout: nat)
    | SelectDeposit(id: nat) | ClaimDeposit(id: nat, was: TxStatus)
    | EnsureWallet(id: nat, user: UserId, amount: int, was: TxStatus)
    | ApplyDeposit(id: nat, user: UserId, amount: int, was: TxStatus)
    | UndoClaim(id: nat, was: TxStatus) | StampBalance(id: nat, balance: int)
    | SelectForFlag(id: nat) | FlagDeposit(id: nat) | CancelDeposit(id: nat)

  /** `applied` lists the deposits, and `paid` the grid bets, whose amount reached a wallet, in order. */
  datatype State = State(wallets: map<UserId, Wallet>, ledger: seq<Tx>, bets: seq<BetRow>, processes: seq<Process>, applied: seq<nat>,
                         paid: seq<nat>)

  datatype Write =
    | Nothing
    | PutWallet(user: UserId, wallet: Wallet)
    | CreditWallet(user: UserId, wallet: Wallet, id: nat)
    | PayoutWallet(user: UserId, wallet: Wallet, at: nat)
    | AddRows(rows: seq<Tx>)
    | SetStatus(id: nat, status: TxStatus)
    | AddBet(bet: BetRow)
    | PutBet(at: nat, bet: BetRow)

  function JobPayout(job: Job): nat {
    match job
    case Instant(_, _, payout) => payout
    case Grid(_, _) => 0
  }

  function Debited(w: Wallet, job: Job): Wallet {
    w.(balance := w.balance - job.stake + JobPayout(job), wagered := w.wagered + job.stake, won := w.won + JobPayout(job),
       locked := if job.Grid? then w.locked + job.stake else w.locked)
  }

  function NewRow(job: Job, nonce: nat): BetRow {
    BetRow(job.user, nonce, job.stake, 0, 0, job.Grid?)
  }

  function IsRowOf(user: UserId): BetRow -> bool {
    (row: BetRow) => row.user == user
  }

  function JobRows(job: Job): seq<Tx> {
    [Tx(job.user, StakeTx, Confirmed, -(job.stake as int))]
    + if JobPayout(job) > 0 then [Tx(job.user, PayoutTx, Confirmed, JobPayout(job))] else []
  }

  function PayoutFor(bet: BetRow): (payout: nat) {
    PayoutNotNegative(bet.stake, bet.multiplier);
    PayoutCents(bet.stake, bet.multiplier)
  }

  /** One statement of a process: what it writes, and the statement that comes next. */
  function Statement(s: State, p: Process): (Write, Process) {
    match p
    case Finished => (Nothing, Finished)
    case SelectWallet(job) => (Nothing, if job.user in s.wallets then CountBets(job) else InsertWallet(job))
    case InsertWallet(job) =>
      if job.user in s.wallets then (Nothing, RefetchWallet(job)) else (PutWallet(job.user, NewWallet), CountBets(job))
    case RefetchWallet(job) => (Nothing, if job.user in s.wallets then CountBets(job) else Finished)
    case CountBets(job) => (Nothing, Debit(job, Count(s.bets, IsRowOf(job.user)) + 1))
    case Debit(job, nonce) =>
      if job.user in s.wallets && s.wallets[job.user].balance >= job.stake
      then (PutWallet(job.user, Debited(s.wallets[job.user], job)), InsertBet(job, nonce)) else (Nothing, Finished)
    case InsertBet(job, nonce) => (AddBet(NewRow(job, nonce)), InsertStake(job))
    case InsertStake(job) => (AddRows(JobRows(job)), Finished)
    case SelectBet(bet, move) =>
      if bet >= |s.bets| || !s.bets[bet].isOpen then (Nothing, Finished)
      else
        var b := s.bets[bet];
        (match move
         case Hit => (Nothing, ReleaseStake(bet, b.user, b.stake, b.picks + 1))
         case Safe(multiplier, last) => (Nothing, StorePick(bet, multiplier, b.picks + 1, last))
         case Pay => (Nothing, if b.picks == 0 then Finished else PayWallet(bet, b.user, b.stake, PayoutFor(b))))
    case ReleaseStake(bet, user, stake, picks) =>
      (if user in s.wallets then PutWallet(user, Unlocked(s.wallets[user], stake)) else Nothing, CloseLost(bet, user, stake, picks))
    case CloseLost(bet, _, _, picks) =>
      (if bet < |s.bets| then PutBet(bet, s.bets[bet].(multiplier := 0, picks := picks, isOpen := false)) else Nothing, Finished)
    case StorePick(bet, multiplier, picks, last) =>
      (if bet < |s.bets| then PutBet(bet, s.bets[bet].(multiplier := multiplier, picks := picks)) else Nothing,
       if last then SelectBet(bet, Pay) else Finished)
    case PayWallet(bet, user, stake, payout) =>
      (if user in s.wallets
       then PayoutWallet(user, Unlocked(s.wallets[user], stake).(balance := s.wallets[user].balance + payout,
                                                                 won := s.wallets[user].won + payout), bet)
       else Nothing,
       ClosePaid(bet, user, stake, payout))
    case ClosePaid(bet, user, _, payout) =>
      (if bet < |s.bets| then PutBet(bet, s.bets[bet].(isOpen := false)) else Nothing, InsertPayout(user, payout))
    case InsertPayout(user, payout) => (AddRows([Tx(user, PayoutTx, Confirmed, payout)]), Finished)
    case SelectDeposit(id) => (Nothing, if Creditable(s.ledger, id) then ClaimDeposit(id, s.ledger[id].status) else Finished)
    case ClaimDeposit(id, was) =>
      if Creditable(s.ledger, id) then (SetStatus(id, Confirmed), EnsureWallet(id, s.ledger[id].user, s.ledger[id].amount, was))
      else (Nothing, Finished)
    case EnsureWallet(id, user, amount, was) =>
      (if user in s.wallets then Nothing else PutWallet(user, NewWallet), ApplyDeposit(id, user, amount, was))
    case ApplyDeposit(id, user, amount, was) =>
      if user in s.wallets then
        var w := s.wallets[user];
        var credited := w.(balance := w.balance + amount, deposited := w.deposited + amount);
        (CreditWallet(user, credited, id), StampBalance(id, credited.balance))
      else (Nothing, UndoClaim(id, was))
    case UndoClaim(id, was) => (if id < |s.ledger| then SetStatus(id, was) else Nothing, Finished)
    case StampBalance(id, balance) => (Nothing, Finished)
    case SelectForFlag(id) => (Nothing, if HasStatus(s.ledger, id, Pending) then FlagDeposit(id) else Finished)
    case FlagDeposit(id) => (if HasStatus(s.ledger, id, Pending) then SetStatus(id, Review) else Nothing, Finished)
    case CancelDeposit(id) => (if HasStatus(s.ledger, id, Pending) then SetStatus(id, Cancelled) else Nothing, Finished)
  }

  function Written(s: State, w: Write): State {
    match w
    case Nothing => s
    case PutWallet(user, wallet) => s.(wallets := s.wallets[user := wallet])
    case CreditWallet(user, wallet, id) => s.(wallets := s.wallets[user := wallet], applied := s.applied + [id])
    case PayoutWallet(user, wallet, bet) => s.(wallets := s.wallets[user := wallet], paid := s.paid + [bet])
    case AddRows(rows) => s.(ledger := s.ledger + rows)
    case SetStatus(id, status) => if id < |s.ledger| then s.(ledger := s.ledger[id := s.ledger[id].(status := status)]) else s
    case AddBet(bet) => s.(bets := s.bets + [bet])
    case PutBet(at, bet) => if at < |s.bets| then s.(bets := s.bets[at := bet]) else s
  }

  /** A request that is about to run its first statement. */
  predicate IsRequest(p: Process) {
    p.SelectWallet? || p.SelectBet? || p.SelectDeposit? || p.SelectForFlag? || p.CancelDeposit?
  }

  predicate MayBeRefused(p: Process) {
    p.CountBets? || p.SelectBet?
  }

  datatype Act = Run(k: nat) | Spawn(request: Process) | Reject(k: nat) | Quote(user: UserId, amount: nat)

  /**
   * One step of the system: a process runs its next statement, a request arrives, a request is turned down before its
   * stake is taken (a locked wallet, say) or before it reads its round (an ended session), or a deposit is quoted.
   */
  function Next(s: State, act: Act): State {
    match act
    case Run(k) =>
      if k < |s.processes| then
        var (write, p) := Statement(s, s.processes[k]);
        Written(s, write).(processes := s.processes[k := p])
      else s
    case Spawn(request) => if IsRequest(request) then s.(processes := s.processes + [request]) else s
    case Reject(k) =>
      if k < |s.processes| && MayBeRefused(s.processes[k]) then s.(processes := s.processes[k := Finished]) else s
    case Quote(user, amount) => s.(ledger := s.ledger + [Tx(user, DepositTx, Pending, amount)])
  }

  function RunAll(s: State, acts: seq<Act>): State
    decreases |acts|
  {
    if acts == [] then s else RunAll(Next(s, acts[0]), acts[1..])
  }

  const Empty: State := State(map[], [], [], [], [], [])

  /** What a process has moved in a user's wallet but not yet in the ledger, or the other way round with a minus. */
  function InFlight(user: UserId): Process -> int {
    (p: Process) =>
      match p
      case InsertBet(job, _) => if job.user == user then JobPayout(job) - job.stake else 0
      case InsertStake(job) => if job.user == user then JobPayout(job) - job.stake else 0
      case ClosePaid(_, u, _, payout) => if u == user then payout else 0
      case InsertPayout(u, payout) => if u == user then payout else 0
      case EnsureWallet(_, u, amount, _) => if u == user then -amount else 0
      case ApplyDeposit(_, u, amount, _) => if u == user then -amount else 0
      case _ => 0
  }

  /** What a process has claimed for a user and not yet applied. */
  function Unapplied(user: UserId): Process -> int {
    (p: Process) =>
      match p
      case EnsureWallet(_, u, amount, _) => if u == user then amount else 0
      case ApplyDeposit(_, u, amount, _) => if u == user then amount else 0
      case _ => 0
  }

  function Holds(id: nat): Process -> bool {
    (p: Process) => (p.EnsureWallet? || p.ApplyDeposit?) && p.id == id
  }

  function IsId(id: nat): nat -> bool {
    x => x == id
  }

  /** One user's books: the balance is the confirmed rows plus what is in flight, and it is never negative. */
  predicate Books(wallets: map<UserId, Wallet>, ledger: seq<Tx>, processes: seq<Process>, user: UserId) {
    var w := WalletIn(wallets, user);
    && w.balance == Sum(ledger, AmountOf(user)) + Sum(processes, InFlight(user))
    && w.deposited == Sum(ledger, DepositOf(user)) - Sum(processes, Unapplied(user))
    && w.balance == w.deposited - w.wagered + w.won
    && w.balance >= 0
  }

  /** A confirmed deposit was claimed once: it is applied or held by the one process that will apply it. */
  predicate ClaimedOnce(s: State, id: nat) {
    Count(s.applied, IsId(id)) + Count(s.processes, Holds(id)) == if HasStatus(s.ledger, id, Confirmed) then 1 else 0
  }

  predicate Remembers(s: State, p: Process) {
    match p
    case InsertBet(job, _) => job.user in s.wallets
    case StorePick(_, _, picks, _) => picks > 0
    case ReleaseStake(_, user, _, _) => user in s.wallets
    case PayWallet(_, user, _, _) => user in s.wallets
    case EnsureWallet(id, user, amount, _) => HasStatus(s.ledger, id, Confirmed) && s.ledger[id].user == user && s.ledger[id].amount == amount
    case ApplyDeposit(id, user, amount, _) =>
      HasStatus(s.ledger, id, Confirmed) && s.ledger[id].user == user && s.ledger[id].amount == amount && user in s.wallets
    case UndoClaim(_, _) => false
    case _ => true
  }

  /** Players with bets have wallets, and deposits are not negative. */
  predicate Sound(s: State) {
    && (forall k :: 0 <= k < |s.bets| ==> s.bets[k].user in s.wallets)
    && (forall k :: 0 <= k < |s.ledger| ==> s.ledger[k].kind == DepositTx ==> s.ledger[k].amount >= 0)
  }

  ghost predicate Inv(s: State) {
    && (forall user :: Books(s.wallets, s.ledger, s.processes, user))
    && (forall id :: ClaimedOnce(s, id))
    && (forall k :: 0 <= k < |s.processes| ==> Remembers(s, s.processes[k]))
    && Sound(s)
  }

  lemma EmptyIsInv()
    ensures Inv(Empty)
  {
  }

  /** How a write changes a user's sum over the ledger. */
  function RowsDelta(s: State, w: Write, f: Tx -> int): int {
    match w
    case AddRows(rows) => Sum(rows, f)
    case SetStatus(id, status) => if id < |s.ledger| then f(s.ledger[id].(status := status)) - f(s.ledger[id]) else 0
    case _ => 0
  }

  lemma WriteMovesSum(s: State, w: Write, f: Tx -> int)
    ensures Sum(Written(s, w).ledger, f) == Sum(s.ledger, f) + RowsDelta(s, w, f)
  {
    match w
    case AddRows(rows) => SumConcat(s.ledger, rows, f);
    case SetStatus(id, status) =>
      if id < |s.ledger| {
        SumUpdate(s.ledger, id, s.ledger[id].(status := status), f);
      }
    case _ =>
  }

  function WalletAfter(s: State, w: Write, user: UserId): Wallet {
    WalletIn(Written(s, w).wallets, user)
  }

  /** A statement moves a user's wallet by what it moves in the ledger and what it puts in or takes out of flight. */
  predicate Balanced(s: State, p: Process, user: UserId) {
    var (write, next) := Statement(s, p);
    var before, after := WalletIn(s.wallets, user), WalletAfter(s, write, user);
    && after.balance - before.balance == RowsDelta(s, write, AmountOf(user)) + InFlight(user)(next) - InFlight(user)(p)
    && after.deposited - before.deposited
       == RowsDelta(s, write, DepositOf(user)) - Unapplied(user)(next) + Unapplied(user)(p)
    && (before.balance == before.deposited - before.wagered + before.won ==> after.balance == after.deposited - after.wagered + after.won)
    && (before.balance >= 0 ==> after.balance >= 0)
  }

  lemma JobRowsSum(job: Job, user: UserId)
    ensures Sum(JobRows(job), AmountOf(user)) == if job.user == user then JobPayout(job) - job.stake else 0
    ensures Sum(JobRows(job), DepositOf(user)) == 0
  {
    var stake, pay := Tx(job.user, StakeTx, Confirmed, -(job.stake as int)), Tx(job.user, PayoutTx, Confirmed, JobPayout(job));
    SumOne(stake, AmountOf(user));
    SumOne(stake, DepositOf(user));
    SumAppend([stake], pay, AmountOf(user));
    SumAppend([stake], pay, DepositOf(user));
    assert JobRows(job) == if JobPayout(job) > 0 then [stake] + [pay] else [stake];
    hide Sum;
  }

  predicate MovesStake(p: Process) {
    p.CountBets? || p.Debit? || p.InsertBet? || p.InsertStake? || p.SelectWallet? || p.InsertWallet? || p.RefetchWallet?
  }

  predicate MovesPayout(p: Process) {
    p.SelectBet? || p.ReleaseStake? || p.CloseLost? || p.StorePick? || p.PayWallet? || p.ClosePaid? || p.InsertPayout?
  }

  /** Taking a stake, with the payout of an instant bet. */
  lemma DebitBalances(s: State, p: Process, user: UserId)
    requires p.Debit?
    ensures Balanced(s, p, user)
  {
    hide Count;
    hide Sum;
    hide JobRows;
    hide PayoutFor;
  }

  lemma StakeBalances(s: State, p: Process, user: UserId)
    requires Remembers(s, p) && MovesStake(p) && !p.Debit?
    ensures Balanced(s, p, user)
  {
    if p.InsertStake? {
      JobRowsSum(p.job, user);
    }
    hide Count;
    hide Sum;
    hide JobRows;
    hide Debited;
  }

  /** Paying a round. */
  lemma PayBalances(s: State, p: Process, user: UserId)
    requires p.PayWallet? && Remembers(s, p)
    ensures Balanced(s, p, user)
  {
    hide Count;
    hide Sum;
    hide PayoutFor;
  }

  lemma PayoutBalances(s: State, p: Process, user: UserId)
    requires Remembers(s, p) && MovesPayout(p) && !p.PayWallet?
    ensures Balanced(s, p, user)
  {
    if p.InsertPayout? {
      SumOne(Tx(p.user, PayoutTx, Confirmed, p.payout), AmountOf(user));
      SumOne(Tx(p.user, PayoutTx, Confirmed, p.payout), DepositOf(user));
    }
    hide Count;
    hide Sum;
    hide PayoutFor;
  }

  lemma DepositBalances(s: State, p: Process, user: UserId)
    requires Remembers(s, p) && Sound(s) && !MovesStake(p) && !MovesPayout(p)
    ensures Balanced(s, p, user)
  {
    hide Count;
    hide Debited;
    hide Unlocked;
    hide PayoutFor;
    hide JobRows;
    hide NewRow;
    hide Sum;
  }

  lemma StatementBalances(s: State, p: Process, user: UserId)
    requires Inv(s) && Remembers(s, p)
    ensures Balanced(s, p, user)
  {
    hide Balanced;
    hide Books;
    hide ClaimedOnce;
    if p.Debit? {
      DebitBalances(s, p, user);
    } else if p.PayWallet? {
      PayBalances(s, p, user);
    } else if MovesStake(p) {
      StakeBalances(s, p, user);
    } else if MovesPayout(p) {
      PayoutBalances(s, p, user);
    } else {
      DepositBalances(s, p, user);
    }
  }

  lemma RunKeepsBooks(s: State, k: nat, user: UserId)
    requires Inv(s) && k < |s.processes|
    ensures var after := Next(s, Run(k));
            Books(after.wallets, after.ledger, after.processes, user)
  {
    var p := s.processes[k];
    var (write, next) := Statement(s, p);
    assert Books(s.wallets, s.ledger, s.processes, user);
    StatementBalances(s, p, user);
    WriteMovesSum(s, write, AmountOf(user));
    WriteMovesSum(s, write, DepositOf(user));
    SumUpdate(s.processes, k, next, InFlight(user));
    SumUpdate(s.processes, k, next, Unapplied(user));
    hide *;
    BooksMove(s, k, write, next, user);
  }

  lemma BooksMove(s: State, k: nat, write: Write, next: Process, user: UserId)
    requires k < |s.processes| && Statement(s, s.processes[k]) == (write, next)
    requires Books(s.wallets, s.ledger, s.processes, user) && Balanced(s, s.processes[k], user)
    requires Sum(Written(s, write).ledger, AmountOf(user)) == Sum(s.ledger, AmountOf(user)) + RowsDelta(s, write, AmountOf(user))
    requires Sum(Written(s, write).ledger, DepositOf(user)) == Sum(s.ledger, DepositOf(user)) + RowsDelta(s, write, DepositOf(user))
    requires Sum(s.processes[k := next], InFlight(user))
          == Sum(s.processes, InFlight(user)) - InFlight(user)(s.processes[k]) + InFlight(user)(next)
    requires Sum(s.processes[k := next], Unapplied(user))
          == Sum(s.processes, Unapplied(user)) - Unapplied(user)(s.processes[k]) + Unapplied(user)(next)
    ensures var after := Next(s, Run(k));
            Books(after.wallets, after.ledger, after.processes, user)
  {
    hide Statement;
    hide Sum;
    hide RowsDelta;
    hide WalletIn;
    hide Written;
    hide InFlight;
    hide Unapplied;
  }

  /** Later tables: no wallet or row is gone, rows keep their terms, and confirmed and cancelled are final. */
  ghost predicate Extends(s: State, t: State) {
    && (forall user :: user in s.wallets ==> user in t.wallets)
    && |s.ledger| <= |t.ledger|
    && (forall k :: 0 <= k < |s.ledger| ==> RowEvolves(s.ledger[k], t.ledger[k]))
  }

  predicate RowEvolves(before: Tx, after: Tx) {
    && after == before.(status := after.status)
    && (before.status == Confirmed || before.status == Cancelled ==> after == before)
    && (before.status == Review ==> after.status == Review || after.status == Confirmed)
  }

  lemma StatementExtends(s: State, p: Process)
    requires Remembers(s, p)
    ensures Extends(s, Written(s, Statement(s, p).0))
  {
    hide Count;
    hide JobRows;
    hide PayoutFor;
  }

  lemma RemembersStays(s: State, t: State, p: Process)
    requires Remembers(s, p) && Extends(s, t)
    ensures Remembers(t, p)
  {
  }

  lemma RemembersNext(s: State, p: Process)
    requires Remembers(s, p) && Sound(s)
    ensures Remembers(Written(s, Statement(s, p).0), Statement(s, p).1)
  {
    hide Count;
    hide JobRows;
    hide PayoutFor;
  }

  function One(b: bool): nat {
    if b then 1 else 0
  }

  function AppliedNow(w: Write, id: nat): nat {
    One(w.CreditWallet? && w.id == id)
  }

  /** A deposit becomes confirmed exactly when a process takes hold of it, and leaves its hands by being applied. */
  lemma StatementClaims(s: State, p: Process, id: nat)
    requires Remembers(s, p)
    ensures var (write, next) := Statement(s, p);
            AppliedNow(write, id) + One(Holds(id)(next)) + One(HasStatus(s.ledger, id, Confirmed))
            == One(Holds(id)(p)) + One(HasStatus(Written(s, write).ledger, id, Confirmed))
  {
    hide JobRows;
    hide PayoutFor;
    if p.InsertStake? {
      RowsAreNoDeposits(p.job);
    }
  }

  lemma RowsAreNoDeposits(job: Job)
    ensures forall row <- JobRows(job) :: row.kind != DepositTx
  {
  }

  lemma AppliedCount(s: State, w: Write, id: nat)
    ensures Count(Written(s, w).applied, IsId(id)) == Count(s.applied, IsId(id)) + AppliedNow(w, id)
  {
    if w.CreditWallet? {
      CountAppend(s.applied, w.id, IsId(id));
    }
  }

  lemma RunKeepsClaims(s: State, k: nat, id: nat)
    requires Inv(s) && k < |s.processes|
    ensures ClaimedOnce(Next(s, Run(k)), id)
  {
    var p := s.processes[k];
    var (write, next) := Statement(s, p);
    assert ClaimedOnce(s, id);
    StatementClaims(s, p, id);
    AppliedCount(s, write, id);
    CountUpdate(s.processes, k, next, Holds(id));
    NextRun(s, k);
    hide Inv;
    hide Statement;
    hide Count;
    hide Holds;
    hide HasStatus;
    hide Next;
    hide Written;
    hide AppliedNow;
  }

  lemma NextRun(s: State, k: nat)
    requires k < |s.processes|
    ensures var (write, next) := Statement(s, s.processes[k]);
            var t, after := Written(s, write), Next(s, Run(k));
            && after == t.(processes := s.processes[k := next]) && t.processes == s.processes
  {
    hide Statement;
  }

  /** What a write must not break. */
  predicate SoundWrite(s: State, w: Write) {
    match w
    case AddRows(rows) => forall row <- rows :: row.kind == DepositTx ==> row.amount >= 0
    case AddBet(bet) => bet.user in s.wallets
    case PutBet(at, bet) => at < |s.bets| ==> bet.user == s.bets[at].user
    case _ => true
  }

  lemma StatementWritesSoundly(s: State, p: Process)
    requires Remembers(s, p)
    ensures SoundWrite(s, Statement(s, p).0)
  {
    if p.InsertStake? {
      RowsAreNoDeposits(p.job);
    }
    hide Count;
    hide JobRows;
    hide PayoutFor;
  }

  lemma StatementIsSound(s: State, p: Process)
    requires Remembers(s, p) && Sound(s)
    ensures Sound(Written(s, Statement(s, p).0))
  {
    StatementWritesSoundly(s, p);
    hide *;
    WriteIsSound(s, Statement(s, p).0);
  }

  lemma WriteIsSound(s: State, w: Write)
    requires Sound(s) && SoundWrite(s, w)
    ensures Sound(Written(s, w))
  {
  }

  /** One statement keeps the invariant, whichever process runs it. */
  lemma RunKeeps(s: State, k: nat)
    requires Inv(s) && k < |s.processes|
    ensures Inv(Next(s, Run(k)))
  {
    var p := s.processes[k];
    var (write, next) := Statement(s, p);
    var t, after := Written(s, write), Next(s, Run(k));
    NextRun(s, k);
    StatementIsSound(s, p);
    StatementExtends(s, p);
    RemembersNext(s, p);
    hide Statement;
    hide Next;
    hide Written;
    hide Books;
    hide ClaimedOnce;
    hide Sound;
    hide Extends;
    forall user
      ensures Books(after.wallets, after.ledger, after.processes, user)
    {
      RunKeepsBooks(s, k, user);
    }
    forall id
      ensures ClaimedOnce(after, id)
    {
      RunKeepsClaims(s, k, id);
    }
    SoundIgnoresProcesses(t, after.processes);
    forall j | 0 <= j < |after.processes|
      ensures Remembers(after, after.processes[j])
    {
      if j != k {
        RemembersStays(s, t, s.processes[j]);
      }
      RemembersIgnoresProcesses(t, after.processes, after.processes[j]);
    }
    hide Remembers;
  }

  lemma SoundIgnoresProcesses(s: State, processes: seq<Process>)
    ensures Sound(s.(processes := processes)) == Sound(s)
  {
  }

  lemma RemembersIgnoresProcesses(s: State, processes: seq<Process>, p: Process)
    ensures Remembers(s.(processes := processes), p) == Remembers(s, p)
  {
  }

  /** Processes that hold nothing come and go without a trace in the books. */
  lemma IdleProcess(p: Process, user: UserId, id: nat)
    requires IsRequest(p) || p.Finished? || MayBeRefused(p)
    ensures InFlight(user)(p) == 0 == Unapplied(user)(p) && !Holds(id)(p)
  {
  }

  lemma SpawnKeeps(s: State, request: Process)
    requires Inv(s) && IsRequest(request)
    ensures Inv(s.(processes := s.processes + [request]))
  {
    var after := s.(processes := s.processes + [request]);
    forall user
      ensures Books(after.wallets, after.ledger, after.processes, user)
    {
      assert Books(s.wallets, s.ledger, s.processes, user);
      IdleProcess(request, user, 0);
      SumAppend(s.processes, request, InFlight(user));
      SumAppend(s.processes, request, Unapplied(user));
    }
    forall id
      ensures ClaimedOnce(after, id)
    {
      assert ClaimedOnce(s, id);
      IdleProcess(request, 0, id);
      CountAppend(s.processes, request, Holds(id));
    }
    hide Books;
    hide ClaimedOnce;
    forall j | 0 <= j < |after.processes|
      ensures Remembers(after, after.processes[j])
    {
      if j < |s.processes| {
        RemembersIgnoresProcesses(s, after.processes, s.processes[j]);
      }
    }
  }

  lemma RejectKeeps(s: State, k: nat)
    requires Inv(s) && k < |s.processes| && MayBeRefused(s.processes[k])
    ensures Inv(s.(processes := s.processes[k := Finished]))
  {
    var after := s.(processes := s.processes[k := Finished]);
    forall user
      ensures Books(after.wallets, after.ledger, after.processes, user)
    {
      assert Books(s.wallets, s.ledger, s.processes, user);
      IdleProcess(s.processes[k], user, 0);
      SumUpdate(s.processes, k, Finished, InFlight(user));
      SumUpdate(s.processes, k, Finished, Unapplied(user));
    }
    forall id
      ensures ClaimedOnce(after, id)
    {
      assert ClaimedOnce(s, id);
      IdleProcess(s.processes[k], 0, id);
      CountUpdate(s.processes, k, Finished, Holds(id));
    }
    hide Books;
    hide ClaimedOnce;
    forall j | 0 <= j < |after.processes|
      ensures Remembers(after, after.processes[j])
    {
      RemembersIgnoresProcesses(s, after.processes, s.processes[j]);
    }
  }

  lemma QuoteKeeps(s: State, user: UserId, amount: nat)
    requires Inv(s)
    ensures Inv(Next(s, Quote(user, amount)))
  {
    var tx, after := Tx(user, DepositTx, Pending, amount), Next(s, Quote(user, amount));
    forall x
      ensures Books(after.wallets, after.ledger, after.processes, x)
    {
      assert Books(s.wallets, s.ledger, s.processes, x);
      SumAppend(s.ledger, tx, AmountOf(x));
      SumAppend(s.ledger, tx, DepositOf(x));
    }
    forall id
      ensures ClaimedOnce(after, id)
    {
      assert ClaimedOnce(s, id);
    }
    hide Books;
    hide ClaimedOnce;
    forall j | 0 <= j < |after.processes|
      ensures Remembers(after, after.processes[j])
    {
      RemembersStays(s, after, s.processes[j]);
    }
  }

  lemma NextKeeps(s: State, act: Act)
    requires Inv(s)
    ensures Inv(Next(s, act))
  {
    hide Inv;
    hide Statement;
    match act
    case Run(k) =>
      if k < |s.processes| {
        RunKeeps(s, k);
      }
    case Spawn(request) =>
      if IsRequest(request) {
        SpawnKeeps(s, request);
      }
    case Reject(k) =>
      if k < |s.processes| && MayBeRefused(s.processes[k]) {
        RejectKeeps(s, k);
      }
    case Quote(user, amount) => QuoteKeeps(s, user, amount);
  }

  /** Every interleaving of any number of requests keeps the invariant. */
  lemma {:induction false} RunAllKeeps(s: State, acts: seq<Act>)
    requires Inv(s)
    ensures Inv(RunAll(s, acts))
    decreases |acts|
  {
    hide Inv;
    hide Next;
    if acts != [] {
      NextKeeps(s, acts[0]);
      RunAllKeeps(Next(s, acts[0]), acts[1..]);
    }
  }

  ghost predicate AllFinished(s: State) {
    forall p <- s.processes :: p.Finished?
  }

  /**
   * Whatever the interleaving: no balance is ever negative, it differs from the confirmed rows exactly by what unfinished
   * requests have in flight, and from the totals not at all. Once all requests have finished the ledger and the wallet agree.
   */
  lemma BalanceAgreesWithLedger(acts: seq<Act>, user: UserId)
    ensures var s := RunAll(Empty, acts);
            var w := WalletIn(s.wallets, user);
            && w.balance >= 0
            && w.balance == Sum(s.ledger, AmountOf(user)) + Sum(s.processes, InFlight(user))
            && w.deposited == Sum(s.ledger, DepositOf(user)) - Sum(s.processes, Unapplied(user))
            && w.balance == w.deposited - w.wagered + w.won
            && (AllFinished(s) ==> w.balance == Sum(s.ledger, AmountOf(user)) && w.deposited == Sum(s.ledger, DepositOf(user)))
  {
    var s := RunAll(Empty, acts);
    EmptyIsInv();
    RunAllKeeps(Empty, acts);
    assert Books(s.wallets, s.ledger, s.processes, user);
    hide Inv;
    hide RunAll;
    if AllFinished(s) {
      SumOfZeros(s.processes, InFlight(user));
      SumOfZeros(s.processes, Unapplied(user));
    }
    hide Sum;
  }

  /**
   * Whatever the interleaving of credits, flags and cancellations, a deposit reaches a wallet at most once, and only if it
   * is confirmed; once all requests have finished, a confirmed one has reached it. The roll-back of a claim is dead code.
   */
  lemma DepositAppliedOnce(acts: seq<Act>, id: nat)
    ensures var s := RunAll(Empty, acts);
            && Count(s.applied, IsId(id)) <= (if HasStatus(s.ledger, id, Confirmed) then 1 else 0)
            && (AllFinished(s) ==> Count(s.applied, IsId(id)) == if HasStatus(s.ledger, id, Confirmed) then 1 else 0)
            && forall p <- s.processes :: !p.UndoClaim?
  {
    var s := RunAll(Empty, acts);
    EmptyIsInv();
    RunAllKeeps(Empty, acts);
    assert ClaimedOnce(s, id);
    forall p <- s.processes
      ensures !p.UndoClaim?
    {
      assert Remembers(s, p);
    }
    hide Inv;
    hide RunAll;
    if AllFinished(s) {
      CountNone(s.processes, Holds(id));
    }
    hide Count;
    hide HasStatus;
  }

  /** Confirmed and cancelled are final, a deposit in review can only be confirmed, and wallets and rows stay. */
  lemma {:induction false} StatusesAreFinal(s: State, acts: seq<Act>)
    requires Inv(s)
    ensures Extends(s, RunAll(s, acts))
    decreases |acts|
  {
    if acts != [] {
      NextKeeps(s, acts[0]);
      NextExtends(s, acts[0]);
      StatusesAreFinal(Next(s, acts[0]), acts[1..]);
      ExtendsChain(s, Next(s, acts[0]), RunAll(Next(s, acts[0]), acts[1..]));
    }
    hide Inv;
    hide Next;
    hide RowEvolves;
  }

  lemma NextExtends(s: State, act: Act)
    requires Inv(s)
    ensures Extends(s, Next(s, act))
  {
    if act.Run? && act.k < |s.processes| {
      NextRun(s, act.k);
      StatementExtends(s, s.processes[act.k]);
    }
    hide Statement;
    hide Written;
    hide Inv;
  }

  lemma ExtendsChain(s: State, t: State, u: State)
    requires Extends(s, t) && Extends(t, u)
    ensures Extends(s, u)
  {
    forall k | 0 <= k < |s.ledger|
      ensures RowEvolves(s.ledger[k], u.ledger[k])
    {
      assert RowEvolves(s.ledger[k], t.ledger[k]) && RowEvolves(t.ledger[k], u.ledger[k]);
    }
  }
}
