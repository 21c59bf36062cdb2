/** Left alone, a process of the statement-level machine does what the request-level description says in one step. */
module Atomicity {
  import opened Accounts
  import opened Arithmetic
  import opened Control
  import opened Interleaving
  import opened MinesRound
  import opened Play
  import opened Sums

  /** The tables that requests change. */
  datatype Tables = Tables(wallets: map<UserId, Wallet>, ledger: seq<Tx>, bets: seq<BetRow>)

  function TablesOf(s: State): Tables {
    Tables(s.wallets, s.ledger, s.bets)
  }

  /** n statements of process k with nothing in between. */
  function Alone(s: State, k: nat, n: nat): State
    decreases n
  {
    if n == 0 then s else Alone(Next(s, Act.Run(k)), k, n - 1)
  }

  predicate At(s: State, k: nat, p: Process) {
    k < |s.processes| && s.processes[k] == p
  }

  /** Process k is finished after n statements of its own and leaves these tables. */
  predicate Ends(s: State, k: nat, n: nat, tables: Tables) {
    At(Alone(s, k, n), k, Finished) && TablesOf(Alone(s, k, n)) == tables
  }

  /** Its next statement leaves these tables and takes it to `next`. */
  predicate Goes(s: State, k: nat, next: Process, tables: Tables) {
    At(Next(s, Act.Run(k)), k, next) && TablesOf(Next(s, Act.Run(k))) == tables
  }

  lemma {:induction false} EndsFinished(s: State, k: nat, n: nat)
    requires At(s, k, Finished)
    ensures Ends(s, k, n, TablesOf(s))
    decreases n
  {
    if n > 0 {
      assert s.processes[k := Finished] == s.processes;
      EndsFinished(s, k, n - 1);
    }
  }

  lemma EndsAfter(s: State, k: nat, n: nat, tables: Tables)
    requires Ends(Next(s, Act.Run(k)), k, n, tables)
    ensures Ends(s, k, n + 1, tables)
  {
    hide Next;
  }

  /** The effect of the statement a process is at. */
  lemma StatementGoes(s: State, k: nat, p: Process)
    requires At(s, k, p)
    ensures Goes(s, k, Statement(s, p).1, TablesOf(Written(s, Statement(s, p).0)))
  {
    NextRun(s, k);
    hide Statement;
    hide Written;
    hide Next;
  }

  /** The last statement of a request. */
  lemma LastStatement(s: State, k: nat, tables: Tables)
    requires Goes(s, k, Finished, tables)
    ensures Ends(s, k, 1, tables)
  {
    EndsFinished(Next(s, Act.Run(k)), k, 0);
    EndsAfter(s, k, 0, tables);
    hide Next;
    hide Ends;
  }

  /** The money's view of a stored bet; the multiplier and picks of an instant bet play no part in it. */
  predicate Mirrors(row: BetRow, b: Bet) {
    && row.user == b.user && row.nonce == b.nonce && row.stake == b.stake && (row.isOpen <==> b.status == Open)
    && (b.board.NoBoard? || (row.multiplier as int == b.multiplier && row.picks == |PicksOn(b.board)|))
  }

  /** These are the tables of the request-level description. */
  ghost predicate Shows(tables: Tables, db: Db) {
    && tables.wallets == db.wallets && tables.ledger == db.ledger && |tables.bets| == |db.bets|
    && forall i :: 0 <= i < |db.bets| ==> Mirrors(tables.bets[i], db.bets[i])
  }

  /** Left alone, process k is finished after n statements and leaves the tables of `db`. */
  ghost predicate Leaves(s: State, k: nat, n: nat, db: Db) {
    At(Alone(s, k, n), k, Finished) && Shows(TablesOf(Alone(s, k, n)), db)
  }

  lemma EndsLeaves(s: State, k: nat, n: nat, tables: Tables, db: Db)
    requires Ends(s, k, n, tables) && Shows(tables, db)
    ensures Leaves(s, k, n, db)
  {
    hide Alone;
    hide Shows;
  }

  function CreditedTo(wallets: map<UserId, Wallet>, user: UserId, amount: int): map<UserId, Wallet> {
    var w := if user in wallets then wallets[user] else NewWallet;
    wallets[user := w.(balance := w.balance + amount, deposited := w.deposited + amount)]
  }

  function Ensured(wallets: map<UserId, Wallet>, user: UserId): map<UserId, Wallet> {
    if user in wallets then wallets else wallets[user := NewWallet]
  }

  lemma CreditedAfterEnsured(wallets: map<UserId, Wallet>, user: UserId, amount: int)
    ensures CreditedTo(Ensured(wallets, user), user, amount) == CreditedTo(wallets, user, amount)
    ensures user in Ensured(wallets, user)
  {
  }

  lemma ApplyGoes(s: State, k: nat, id: nat, user: UserId, amount: int, was: TxStatus)
    requires At(s, k, ApplyDeposit(id, user, amount, was)) && user in s.wallets
    ensures Goes(s, k, StampBalance(id, s.wallets[user].balance + amount), TablesOf(s).(wallets := CreditedTo(s.wallets, user, amount)))
  {
    StatementGoes(s, k, ApplyDeposit(id, user, amount, was));
    hide Next;
  }

  lemma StampGoes(s: State, k: nat, id: nat, balance: int)
    requires At(s, k, StampBalance(id, balance))
    ensures Goes(s, k, Finished, TablesOf(s))
  {
    StatementGoes(s, k, StampBalance(id, balance));
    hide Next;
  }

  lemma EnsureGoes(s: State, k: nat, id: nat, user: UserId, amount: int, was: TxStatus)
    requires At(s, k, EnsureWallet(id, user, amount, was))
    ensures Goes(s, k, ApplyDeposit(id, user, amount, was), TablesOf(s).(wallets := Ensured(s.wallets, user)))
  {
    StatementGoes(s, k, EnsureWallet(id, user, amount, was));
    hide Next;
  }

  lemma ClaimGoes(s: State, k: nat, id: nat, was: TxStatus)
    requires At(s, k, ClaimDeposit(id, was)) && Creditable(s.ledger, id)
    ensures var tx := s.ledger[id].(status := Confirmed);
            Goes(s, k, EnsureWallet(id, tx.user, tx.amount, was), TablesOf(s).(ledger := s.ledger[id := tx]))
  {
    StatementGoes(s, k, ClaimDeposit(id, was));
    hide Next;
  }

  lemma SelectDepositGoes(s: State, k: nat, id: nat)
    requires At(s, k, SelectDeposit(id))
    ensures Goes(s, k, if Creditable(s.ledger, id) then ClaimDeposit(id, s.ledger[id].status) else Finished, TablesOf(s))
  {
    StatementGoes(s, k, SelectDeposit(id));
    hide Next;
  }

  lemma GoesMeans(s: State, k: nat, next: Process, tables: Tables)
    requires Goes(s, k, next, tables)
    ensures var t := Next(s, Act.Run(k));
            At(t, k, next) && t.wallets == tables.wallets && t.ledger == tables.ledger && t.bets == tables.bets && TablesOf(t) == tables
  {
    hide Next;
  }

  lemma ApplyAlone(s: State, k: nat, id: nat, user: UserId, amount: int, was: TxStatus)
    requires At(s, k, ApplyDeposit(id, user, amount, was)) && user in s.wallets
    ensures Ends(s, k, 2, TablesOf(s).(wallets := CreditedTo(s.wallets, user, amount)))
  {
    hide *;
    var t, tables := Next(s, Act.Run(k)), TablesOf(s).(wallets := CreditedTo(s.wallets, user, amount));
    var balance := s.wallets[user].balance + amount;
    ApplyGoes(s, k, id, user, amount, was);
    GoesMeans(s, k, StampBalance(id, balance), tables);
    StampGoes(t, k, id, balance);
    LastStatement(t, k, tables);
    EndsAfter(s, k, 1, tables);
  }

  lemma EnsureAlone(s: State, k: nat, id: nat, user: UserId, amount: int, was: TxStatus)
    requires At(s, k, EnsureWallet(id, user, amount, was))
    ensures Ends(s, k, 3, TablesOf(s).(wallets := CreditedTo(s.wallets, user, amount)))
  {
    hide *;
    var t, tables := Next(s, Act.Run(k)), TablesOf(s).(wallets := CreditedTo(s.wallets, user, amount));
    EnsureGoes(s, k, id, user, amount, was);
    GoesMeans(s, k, ApplyDeposit(id, user, amount, was), TablesOf(s).(wallets := Ensured(s.wallets, user)));
    CreditedAfterEnsured(s.wallets, user, amount);
    ApplyAlone(t, k, id, user, amount, was);
    EndsAfter(s, k, 2, tables);
  }

  lemma ClaimAlone(s: State, k: nat, id: nat, was: TxStatus)
    requires At(s, k, ClaimDeposit(id, was)) && Creditable(s.ledger, id) && id < |s.ledger|
    ensures var tx := s.ledger[id].(status := Confirmed);
            Ends(s, k, 4, TablesOf(s).(wallets := CreditedTo(s.wallets, tx.user, tx.amount), ledger := s.ledger[id := tx]))
  {
    hide *;
    var tx := s.ledger[id].(status := Confirmed);
    ClaimGoes(s, k, id, was);
    GoesMeans(s, k, EnsureWallet(id, tx.user, tx.amount, was), TablesOf(s).(ledger := s.ledger[id := tx]));
    EnsureAlone(Next(s, Act.Run(k)), k, id, tx.user, tx.amount, was);
    TablesAre(s);
    EndsAfter(s, k, 3, TablesOf(s).(wallets := CreditedTo(s.wallets, tx.user, tx.amount), ledger := s.ledger[id := tx]));
  }

  lemma TablesAre(s: State)
    ensures TablesOf(s) == Tables(s.wallets, s.ledger, s.bets)
  {
  }

  /** Crediting a deposit: five statements, or one request. */
  lemma CreditAlone(s: State, k: nat, id: nat, db: Db)
    requires At(s, k, SelectDeposit(id)) && Shows(TablesOf(s), db)
    ensures Leaves(s, k, 5, CreditDeposit(db, id))
  {
    hide *;
    var t := Next(s, Act.Run(k));
    var after := CreditDeposit(db, id);
    var tables := Tables(after.wallets, after.ledger, s.bets);
    CreditIs(db, id);
    TablesAre(s);
    ShowsMeans(TablesOf(s), db);
    SelectDepositGoes(s, k, id);
    if Creditable(s.ledger, id) {
      GoesMeans(s, k, ClaimDeposit(id, s.ledger[id].status), TablesOf(s));
      ClaimAlone(t, k, id, s.ledger[id].status);
    } else {
      GoesMeans(s, k, Finished, TablesOf(s));
      EndsFinished(t, k, 4);
    }
    EndsAfter(s, k, 4, tables);
    SameBetsShow(TablesOf(s), db, tables, after);
    EndsLeaves(s, k, 5, tables, after);
  }

  lemma ShowsMeans(tables: Tables, db: Db)
    requires Shows(tables, db)
    ensures tables.wallets == db.wallets && tables.ledger == db.ledger && |tables.bets| == |db.bets|
    ensures forall i :: 0 <= i < |db.bets| ==> Mirrors(tables.bets[i], db.bets[i])
  {
    hide Mirrors;
  }

  lemma SameBetsShow(before: Tables, db: Db, tables: Tables, after: Db)
    requires Shows(before, db) && tables.bets == before.bets && after.bets == db.bets
    requires tables.wallets == after.wallets && tables.ledger == after.ledger
    ensures Shows(tables, after)
  {
    hide Mirrors;
  }

  lemma CreditIs(db: Db, id: nat)
    ensures Creditable(db.ledger, id) ==> id < |db.ledger|
    ensures CreditDeposit(db, id).bets == db.bets
    ensures var after := CreditDeposit(db, id);
            if Creditable(db.ledger, id) then
              var tx := db.ledger[id].(status := Confirmed);
              after.ledger == db.ledger[id := tx] && after.wallets == CreditedTo(db.wallets, tx.user, tx.amount)
            else after == db
  {
  }

  /** Flagging a deposit: two statements, or one request. */
  lemma FlagAlone(s: State, k: nat, id: nat, db: Db)
    requires At(s, k, SelectForFlag(id)) && Shows(TablesOf(s), db)
    ensures Leaves(s, k, 2, MoveDeposit(db, id, Review))
  {
    var t, tables := Next(s, Act.Run(k)), TablesOf(s).(ledger := MoveDeposit(db, id, Review).ledger);
    StatementGoes(s, k, SelectForFlag(id));
    if HasStatus(s.ledger, id, Pending) {
      StatementGoes(t, k, FlagDeposit(id));
      hide Next;
      LastStatement(t, k, tables);
    } else {
      hide Next;
      EndsFinished(t, k, 1);
    }
    hide Ends;
    hide Shows;
    hide Leaves;
    ShowsMeans(TablesOf(s), db);
    EndsAfter(s, k, 1, tables);
    SameBetsShow(TablesOf(s), db, tables, MoveDeposit(db, id, Review));
    EndsLeaves(s, k, 2, tables, MoveDeposit(db, id, Review));
  }

  /** Cancelling one: a single statement either way. */
  lemma CancelAlone(s: State, k: nat, id: nat, db: Db)
    requires At(s, k, CancelDeposit(id)) && Shows(TablesOf(s), db)
    ensures Leaves(s, k, 1, MoveDeposit(db, id, Cancelled))
  {
    var tables := TablesOf(s).(ledger := MoveDeposit(db, id, Cancelled).ledger);
    StatementGoes(s, k, CancelDeposit(id));
    hide Next;
    LastStatement(s, k, tables);
    hide Ends;
    hide Shows;
    hide Leaves;
    ShowsMeans(TablesOf(s), db);
    SameBetsShow(TablesOf(s), db, tables, MoveDeposit(db, id, Cancelled));
    EndsLeaves(s, k, 1, tables, MoveDeposit(db, id, Cancelled));
  }

  /** The wallets after the account has been created if need be and the stake taken if covered. */
  function StakedFrom(wallets: map<UserId, Wallet>, job: Job): map<UserId, Wallet> {
    var w := if job.user in wallets then wallets[job.user] else NewWallet;
    wallets[job.user := if w.balance >= job.stake then Debited(w, job) else w]
  }

  predicate Covered(wallets: map<UserId, Wallet>, job: Job) {
    (if job.user in wallets then wallets[job.user] else NewWallet).balance >= job.stake
  }

  /** The row that a job adds to these. */
  function RowFor(bets: seq<BetRow>, job: Job): BetRow {
    NewRow(job, Count(bets, IsRowOf(job.user)) + 1)
  }

  /** What an instant bet or the start of a grid round leaves. */
  function JobTables(before: Tables, job: Job): Tables {
    if Covered(before.wallets, job)
    then Tables(StakedFrom(before.wallets, job), before.ledger + JobRows(job), before.bets + [RowFor(before.bets, job)])
    else before.(wallets := StakedFrom(before.wallets, job))
  }

  lemma StakedAfterEnsured(wallets: map<UserId, Wallet>, job: Job)
    ensures StakedFrom(Ensured(wallets, job.user), job) == StakedFrom(wallets, job)
    ensures Covered(Ensured(wallets, job.user), job) == Covered(wallets, job)
    ensures job.user in Ensured(wallets, job.user)
  {
    hide Debited;
  }

  lemma InsertBetAlone(s: State, k: nat, job: Job, nonce: nat)
    requires At(s, k, InsertBet(job, nonce))
    ensures Ends(s, k, 2, TablesOf(s).(ledger := s.ledger + JobRows(job), bets := s.bets + [NewRow(job, nonce)]))
  {
    var t := Next(s, Act.Run(k));
    StatementGoes(s, k, InsertBet(job, nonce));
    StatementGoes(t, k, InsertStake(job));
    hide Next;
    hide JobRows;
    LastStatement(t, k, TablesOf(s).(ledger := s.ledger + JobRows(job), bets := s.bets + [NewRow(job, nonce)]));
    hide Ends;
    EndsAfter(s, k, 1, TablesOf(s).(ledger := s.ledger + JobRows(job), bets := s.bets + [NewRow(job, nonce)]));
  }

  lemma DebitGoes(s: State, k: nat, job: Job, nonce: nat)
    requires At(s, k, Debit(job, nonce)) && job.user in s.wallets
    ensures Goes(s, k, if Covered(s.wallets, job) then InsertBet(job, nonce) else Finished, TablesOf(s).(wallets := StakedFrom(s.wallets, job)))
  {
    StatementGoes(s, k, Debit(job, nonce));
    assert s.wallets[job.user := s.wallets[job.user]] == s.wallets;
    hide Next;
    hide Debited;
  }

  lemma DebitAlone(s: State, k: nat, job: Job)
    requires At(s, k, Debit(job, Count(s.bets, IsRowOf(job.user)) + 1)) && job.user in s.wallets
    ensures Ends(s, k, 3, JobTables(TablesOf(s), job))
  {
    hide *;
    var t, nonce := Next(s, Act.Run(k)), Count(s.bets, IsRowOf(job.user)) + 1;
    var staked := TablesOf(s).(wallets := StakedFrom(s.wallets, job));
    DebitGoes(s, k, job, nonce);
    JobTablesAre(s, job);
    TablesAre(s);
    if Covered(s.wallets, job) {
      GoesMeans(s, k, InsertBet(job, nonce), staked);
      InsertBetAlone(t, k, job, nonce);
    } else {
      GoesMeans(s, k, Finished, staked);
      EndsFinished(t, k, 2);
    }
    EndsAfter(s, k, 2, JobTables(TablesOf(s), job));
  }

  lemma JobTablesAre(s: State, job: Job)
    ensures JobTables(TablesOf(s), job)
         == if Covered(s.wallets, job)
            then Tables(StakedFrom(s.wallets, job), s.ledger + JobRows(job),
                        s.bets + [NewRow(job, Count(s.bets, IsRowOf(job.user)) + 1)])
            else Tables(StakedFrom(s.wallets, job), s.ledger, s.bets)
  {
    hide StakedFrom;
    hide Covered;
    hide JobRows;
    hide NewRow;
  }

  lemma CountGoes(s: State, k: nat, job: Job)
    requires At(s, k, CountBets(job))
    ensures Goes(s, k, Debit(job, Count(s.bets, IsRowOf(job.user)) + 1), TablesOf(s))
  {
    StatementGoes(s, k, CountBets(job));
    hide Next;
  }

  lemma CountAlone(s: State, k: nat, job: Job)
    requires At(s, k, CountBets(job)) && job.user in s.wallets
    ensures Ends(s, k, 4, JobTables(TablesOf(s), job))
  {
    hide *;
    CountGoes(s, k, job);
    TablesAre(s);
    GoesMeans(s, k, Debit(job, Count(s.bets, IsRowOf(job.user)) + 1), TablesOf(s));
    DebitAlone(Next(s, Act.Run(k)), k, job);
    EndsAfter(s, k, 3, JobTables(TablesOf(s), job));
  }

  lemma SelectWalletGoes(s: State, k: nat, job: Job)
    requires At(s, k, SelectWallet(job))
    ensures Goes(s, k, if job.user in s.wallets then CountBets(job) else InsertWallet(job), TablesOf(s))
  {
    StatementGoes(s, k, SelectWallet(job));
    hide Next;
  }

  lemma InsertWalletGoes(s: State, k: nat, job: Job)
    requires At(s, k, InsertWallet(job)) && job.user !in s.wallets
    ensures Goes(s, k, CountBets(job), TablesOf(s).(wallets := Ensured(s.wallets, job.user)))
  {
    StatementGoes(s, k, InsertWallet(job));
    hide Next;
  }

  lemma {:induction false} EndsLonger(s: State, k: nat, n: nat, tables: Tables)
    requires Ends(s, k, n, tables)
    ensures Ends(s, k, n + 1, tables)
    decreases n
  {
    if n > 0 {
      EndsLonger(Next(s, Act.Run(k)), k, n - 1, tables);
    } else {
      EndsFinished(s, k, 1);
    }
    hide Next;
  }

  /** An instant bet or the start of a grid round, covered or not: at most six statements. */
  lemma JobAlone(s: State, k: nat, job: Job)
    requires At(s, k, SelectWallet(job))
    ensures Ends(s, k, 6, JobTables(TablesOf(s), job))
  {
    hide *;
    var t := Next(s, Act.Run(k));
    SelectWalletGoes(s, k, job);
    TablesAre(s);
    if job.user in s.wallets {
      GoesMeans(s, k, CountBets(job), TablesOf(s));
      CountAlone(t, k, job);
      EndsLonger(t, k, 4, JobTables(TablesOf(s), job));
    } else {
      GoesMeans(s, k, InsertWallet(job), TablesOf(s));
      InsertWalletGoes(t, k, job);
      var u := Next(t, Act.Run(k));
      GoesMeans(t, k, CountBets(job), TablesOf(t).(wallets := Ensured(t.wallets, job.user)));
      StakedAfterEnsured(t.wallets, job);
      TablesAre(t);
      CountAlone(u, k, job);
      JobTablesAre(u, job);
      JobTablesAre(s, job);
      EndsAfter(t, k, 4, JobTables(TablesOf(s), job));
    }
    EndsAfter(s, k, 5, JobTables(TablesOf(s), job));
  }

  /** The request-level outcome of an instant bet that has passed its checks. */
  function BetOutcome(db: Db, user: UserId, session: nat, game: nat, stake: nat, roll: Roll, controlled: bool): Db {
    if WalletOf(db, user).balance >= stake then Settle(GetOrCreate(db, user), user, session, game, stake, roll, controlled)
    else GetOrCreate(db, user)
  }

  predicate IsJobFor(job: Job, user: UserId, stake: nat, roll: Roll) {
    && job.Instant? && job.user == user && job.stake == stake
    && job.payout as int == if roll.won then PayoutCents(stake, roll.multiplier) else 0
  }

  lemma SettleTables(db: Db, user: UserId, session: nat, game: nat, stake: nat, roll: Roll, controlled: bool, job: Job)
    requires IsJobFor(job, user, stake, roll) && user in db.wallets && db.wallets[user].balance >= stake
    ensures var after := Settle(db, user, session, game, stake, roll, controlled);
            && after.wallets == StakedFrom(db.wallets, job) && after.ledger == db.ledger + JobRows(job)
            && |after.bets| == |db.bets| + 1 && after.bets[..|db.bets|] == db.bets
            && Mirrors(NewRow(job, NextNonce(db, user)), after.bets[|db.bets|])
  {
    hide PayoutCents;
    hide NextNonce;
    hide GoverningRow;
  }

  lemma OpenTables(db: Db, user: UserId, session: nat, game: nat, stake: nat, board: Board, controlled: bool)
    requires PicksOn(board) == [] && user in db.wallets && db.wallets[user].balance >= stake
    ensures var job, after := Grid(user, stake), OpenRound(db, user, session, game, stake, board, controlled);
            && after.wallets == StakedFrom(db.wallets, job) && after.ledger == db.ledger + JobRows(job)
            && |after.bets| == |db.bets| + 1 && after.bets[..|db.bets|] == db.bets
            && Mirrors(NewRow(job, NextNonce(db, user)), after.bets[|db.bets|])
  {
    hide NextNonce;
  }

  lemma ReadyTables(db: Db, user: UserId, job: Job)
    requires job.user == user
    ensures var ready := GetOrCreate(db, user);
            && user in ready.wallets && ready.wallets[user] == WalletOf(db, user) && ready.ledger == db.ledger && ready.bets == db.bets
            && StakedFrom(ready.wallets, job) == StakedFrom(db.wallets, job)
            && (Covered(db.wallets, job) <==> WalletOf(db, user).balance >= job.stake)
            && (!Covered(db.wallets, job) ==> ready.wallets == StakedFrom(db.wallets, job))
  {
    hide Debited;
  }

  lemma {:induction false} SameCount(rows: seq<BetRow>, bets: seq<Bet>, user: UserId)
    requires |rows| == |bets| && forall i :: 0 <= i < |bets| ==> Mirrors(rows[i], bets[i])
    ensures Count(rows, IsRowOf(user)) == Count(bets, IsBetOf(user))
  {
    if rows != [] {
      assert Mirrors(rows[0], bets[0]);
      SameCount(rows[1..], bets[1..], user);
    }
    hide Mirrors;
  }

  /** The tables of a job are those of the request that stores the row it adds. */
  lemma JobShows(before: Tables, db: Db, job: Job, after: Db)
    requires Shows(before, db)
    requires after.wallets == StakedFrom(db.wallets, job)
    requires Covered(db.wallets, job) ==>
               && after.ledger == db.ledger + JobRows(job)
               && |after.bets| == |db.bets| + 1 && after.bets[..|db.bets|] == db.bets
               && Mirrors(NewRow(job, NextNonce(db, job.user)), after.bets[|db.bets|])
    requires !Covered(db.wallets, job) ==> after.ledger == db.ledger && after.bets == db.bets
    ensures Shows(JobTables(before, job), after)
  {
    SameCount(before.bets, db.bets, job.user);
    hide StakedFrom;
    hide Covered;
    hide JobRows;
    hide NewRow;
    hide Mirrors;
    hide Count;
    forall i | 0 <= i < |after.bets|
      ensures Mirrors(JobTables(before, job).bets[i], after.bets[i])
    {
      if i < |db.bets| {
        assert after.bets[i] == db.bets[i];
      }
    }
  }

  /** Whether an instant bet is placed as one request or statement by statement, covered or not, the tables end up the same. */
  lemma BetAlone(s: State, k: nat, db: Db, user: UserId, session: nat, game: nat, stake: nat, roll: Roll, controlled: bool, job: Job)
    requires Shows(TablesOf(s), db) && IsJobFor(job, user, stake, roll) && At(s, k, SelectWallet(job))
    ensures Leaves(s, k, 6, BetOutcome(db, user, session, game, stake, roll, controlled))
  {
    hide *;
    JobAlone(s, k, job);
    BetShows(TablesOf(s), db, user, session, game, stake, roll, controlled, job);
    EndsLeaves(s, k, 6, JobTables(TablesOf(s), job), BetOutcome(db, user, session, game, stake, roll, controlled));
  }

  lemma BetShows(before: Tables, db: Db, user: UserId, session: nat, game: nat, stake: nat, roll: Roll, controlled: bool, job: Job)
    requires Shows(before, db) && IsJobFor(job, user, stake, roll)
    ensures Shows(JobTables(before, job), BetOutcome(db, user, session, game, stake, roll, controlled))
  {
    hide *;
    IsJobMeans(job, user, stake, roll);
    ReadyTables(db, user, job);
    BetOutcomeIs(db, user, session, game, stake, roll, controlled);
    if Covered(db.wallets, job) {
      SettleTables(GetOrCreate(db, user), user, session, game, stake, roll, controlled, job);
      NextNonceReady(db, user);
    }
    JobShows(before, db, job, BetOutcome(db, user, session, game, stake, roll, controlled));
  }

  lemma IsJobMeans(job: Job, user: UserId, stake: nat, roll: Roll)
    requires IsJobFor(job, user, stake, roll)
    ensures job.user == user && job.stake == stake
  {
  }

  lemma BetOutcomeIs(db: Db, user: UserId, session: nat, game: nat, stake: nat, roll: Roll, controlled: bool)
    ensures BetOutcome(db, user, session, game, stake, roll, controlled)
         == if WalletOf(db, user).balance >= stake then Settle(GetOrCreate(db, user), user, session, game, stake, roll, controlled)
            else GetOrCreate(db, user)
  {
    hide Settle;
    hide GetOrCreate;
  }

  lemma NextNonceReady(db: Db, user: UserId)
    ensures NextNonce(GetOrCreate(db, user), user) == NextNonce(db, user)
  {
  }

  function StartOutcome(db: Db, user: UserId, session: nat, game: nat, stake: nat, board: Board, controlled: bool): Db {
    if WalletOf(db, user).balance >= stake then OpenRound(GetOrCreate(db, user), user, session, game, stake, board, controlled)
    else GetOrCreate(db, user)
  }

  lemma StartOutcomeIs(db: Db, user: UserId, session: nat, game: nat, stake: nat, board: Board, controlled: bool)
    ensures StartOutcome(db, user, session, game, stake, board, controlled)
         == if WalletOf(db, user).balance >= stake then OpenRound(GetOrCreate(db, user), user, session, game, stake, board, controlled)
            else GetOrCreate(db, user)
  {
    hide OpenRound;
    hide GetOrCreate;
  }

  lemma StartShows(before: Tables, db: Db, user: UserId, session: nat, game: nat, stake: nat, board: Board, controlled: bool)
    requires Shows(before, db) && PicksOn(board) == []
    ensures Shows(JobTables(before, Grid(user, stake)), StartOutcome(db, user, session, game, stake, board, controlled))
  {
    hide *;
    ReadyTables(db, user, Grid(user, stake));
    StartOutcomeIs(db, user, session, game, stake, board, controlled);
    if Covered(db.wallets, Grid(user, stake)) {
      OpenTables(GetOrCreate(db, user), user, session, game, stake, board, controlled);
      NextNonceReady(db, user);
    }
    JobShows(before, db, Grid(user, stake), StartOutcome(db, user, session, game, stake, board, controlled));
  }

  /** The same for the start of a grid round on a board without picks. */
  lemma GridAlone(s: State, k: nat, db: Db, user: UserId, session: nat, game: nat, stake: nat, board: Board, controlled: bool)
    requires Shows(TablesOf(s), db) && PicksOn(board) == [] && At(s, k, SelectWallet(Grid(user, stake)))
    ensures Leaves(s, k, 6, StartOutcome(db, user, session, game, stake, board, controlled))
  {
    hide *;
    JobAlone(s, k, Grid(user, stake));
    StartShows(TablesOf(s), db, user, session, game, stake, board, controlled);
    EndsLeaves(s, k, 6, JobTables(TablesOf(s), Grid(user, stake)), StartOutcome(db, user, session, game, stake, board, controlled));
  }

  /** One changed bet. */
  lemma PutShows(before: Tables, db: Db, i: nat, row: BetRow, tables: Tables, after: Db)
    requires Shows(before, db) && i < |db.bets| && tables.bets == before.bets[i := row]
    requires |after.bets| == |db.bets| && Mirrors(row, after.bets[i]) && forall j :: 0 <= j < |db.bets| && j != i ==> after.bets[j] == db.bets[j]
    requires tables.wallets == after.wallets && tables.ledger == after.ledger
    ensures Shows(tables, after)
  {
    hide Mirrors;
  }

  /** A round that a reveal or a cash-out finds open, as stored. */
  ghost predicate Playing(s: State, db: Db, i: nat) {
    && Shows(TablesOf(s), db) && i < |db.bets| && db.bets[i].status == Open && !db.bets[i].board.NoBoard? && db.bets[i].user in db.wallets
    && db.bets[i].multiplier >= 0
  }

  lemma PlayingMeans(s: State, db: Db, i: nat)
    requires Playing(s, db, i)
    ensures i < |s.bets| == |db.bets| && Mirrors(s.bets[i], db.bets[i]) && s.wallets == db.wallets && s.ledger == db.ledger
    ensures s.bets[i].isOpen && s.bets[i].user in s.wallets && !db.bets[i].board.NoBoard?
  {
  }

  /** A hit: the stake is released and the round closed, in three statements or one request. */
  lemma HitAlone(s: State, k: nat, i: nat, db: Db, tile: nat)
    requires At(s, k, SelectBet(i, Hit)) && Playing(s, db, i)
    ensures Leaves(s, k, 3, LoseRound(db, i, tile))
  {
    hide *;
    PlayingMeans(s, db, i);
    var row := s.bets[i].(multiplier := 0, picks := s.bets[i].picks + 1, isOpen := false);
    var tables := TablesOf(s).(wallets := LoseRound(db, i, tile).wallets, bets := s.bets[i := row]);
    HitEnds(s, k, i, db, tile);
    LoseShows(s, db, i, tile, row, tables);
    EndsLeaves(s, k, 3, tables, LoseRound(db, i, tile));
  }

  lemma LoseShows(s: State, db: Db, i: nat, tile: nat, row: BetRow, tables: Tables)
    requires Playing(s, db, i) && i < |s.bets| && row == s.bets[i].(multiplier := 0, picks := s.bets[i].picks + 1, isOpen := false)
    requires tables == TablesOf(s).(wallets := LoseRound(db, i, tile).wallets, bets := s.bets[i := row])
    ensures Shows(tables, LoseRound(db, i, tile))
  {
    PlayingMeans(s, db, i);
    PutShows(TablesOf(s), db, i, row, tables, LoseRound(db, i, tile));
    hide Shows;
  }

  lemma HitEnds(s: State, k: nat, i: nat, db: Db, tile: nat)
    requires At(s, k, SelectBet(i, Hit)) && db.wallets == s.wallets && i < |s.bets| && i < |db.bets| && Mirrors(s.bets[i], db.bets[i])
    requires s.bets[i].isOpen && s.bets[i].user in s.wallets
    ensures var row := s.bets[i].(multiplier := 0, picks := s.bets[i].picks + 1, isOpen := false);
            Ends(s, k, 3, TablesOf(s).(wallets := LoseRound(db, i, tile).wallets, bets := s.bets[i := row]))
  {
    var b := s.bets[i];
    var t := Next(s, Act.Run(k));
    var u := Next(t, Act.Run(k));
    var tables := TablesOf(s).(wallets := LoseRound(db, i, tile).wallets, bets := s.bets[i := b.(multiplier := 0, picks := b.picks + 1, isOpen := false)]);
    StatementGoes(s, k, SelectBet(i, Hit));
    StatementGoes(t, k, ReleaseStake(i, b.user, b.stake, b.picks + 1));
    StatementGoes(u, k, CloseLost(i, b.user, b.stake, b.picks + 1));
    hide Next;
    LastStatement(u, k, tables);
    hide Ends;
    EndsAfter(t, k, 1, tables);
    EndsAfter(s, k, 2, tables);
  }

  /** The first two statements of a safe pick. */
  lemma PickGoes(s: State, k: nat, i: nat, multiplier: nat, last: bool)
    requires At(s, k, SelectBet(i, Safe(multiplier, last))) && i < |s.bets| && s.bets[i].isOpen
    ensures var t := Next(s, Act.Run(k));
            var row := s.bets[i].(multiplier := multiplier, picks := s.bets[i].picks + 1);
            Goes(t, k, if last then SelectBet(i, Pay) else Finished, TablesOf(s).(bets := s.bets[i := row]))
  {
    var t := Next(s, Act.Run(k));
    StatementGoes(s, k, SelectBet(i, Safe(multiplier, last)));
    StatementGoes(t, k, StorePick(i, multiplier, s.bets[i].picks + 1, last));
    hide Next;
  }

  lemma PickShows(s: State, db: Db, i: nat, tile: nat, multiplier: nat)
    requires Playing(s, db, i) && i < |s.bets|
    ensures var row := s.bets[i].(multiplier := multiplier, picks := s.bets[i].picks + 1);
            Shows(TablesOf(s).(bets := s.bets[i := row]), SafePick(db, i, tile, multiplier))
  {
    PlayingMeans(s, db, i);
    var row := s.bets[i].(multiplier := multiplier, picks := s.bets[i].picks + 1);
    PutShows(TablesOf(s), db, i, row, TablesOf(s).(bets := s.bets[i := row]), SafePick(db, i, tile, multiplier));
    hide Shows;
  }

  /** A safe pick: the round's figures are stored, in two statements or one request. */
  lemma SafeAlone(s: State, k: nat, i: nat, db: Db, tile: nat, multiplier: nat)
    requires At(s, k, SelectBet(i, Safe(multiplier, false))) && Playing(s, db, i)
    ensures Leaves(s, k, 2, SafePick(db, i, tile, multiplier))
  {
    hide *;
    PlayingMeans(s, db, i);
    var t := Next(s, Act.Run(k));
    var tables := TablesOf(s).(bets := s.bets[i := s.bets[i].(multiplier := multiplier, picks := s.bets[i].picks + 1)]);
    PickGoes(s, k, i, multiplier, false);
    PickShows(s, db, i, tile, multiplier);
    LastStatement(t, k, tables);
    EndsAfter(s, k, 1, tables);
    EndsLeaves(s, k, 2, tables, SafePick(db, i, tile, multiplier));
  }

  /** The last safe pick: the figures are stored and the round cashed out, in six statements or one request. */
  lemma LastPickAlone(s: State, k: nat, i: nat, db: Db, tile: nat, multiplier: nat)
    requires At(s, k, SelectBet(i, Safe(multiplier, true))) && Playing(s, db, i)
    ensures Leaves(s, k, 6, PayRound(SafePick(db, i, tile, multiplier), i))
  {
    hide *;
    PlayingMeans(s, db, i);
    var t := Next(s, Act.Run(k));
    var u, picked := Next(t, Act.Run(k)), SafePick(db, i, tile, multiplier);
    var tables := TablesOf(s).(bets := s.bets[i := s.bets[i].(multiplier := multiplier, picks := s.bets[i].picks + 1)]);
    PickGoes(s, k, i, multiplier, true);
    GoesMeans(t, k, SelectBet(i, Pay), tables);
    PickShows(s, db, i, tile, multiplier);
    PickedPlays(s, db, i, tile, multiplier, u);
    CashOutAlone(u, k, i, picked);
    LeavesAfter(t, k, 4, PayRound(picked, i));
    LeavesAfter(s, k, 5, PayRound(picked, i));
  }

  lemma PickedPlays(s: State, db: Db, i: nat, tile: nat, multiplier: nat, u: State)
    requires Playing(s, db, i) && Shows(TablesOf(u), SafePick(db, i, tile, multiplier))
    ensures var picked := SafePick(db, i, tile, multiplier);
            i < |picked.bets| && Playing(u, picked, i) && PicksOn(picked.bets[i].board) != []
  {
    hide Shows;
  }

  lemma LeavesAfter(s: State, k: nat, n: nat, db: Db)
    requires Leaves(Next(s, Act.Run(k)), k, n, db)
    ensures Leaves(s, k, n + 1, db)
  {
    hide Next;
    hide Shows;
  }

  /** A cash-out: paid, closed and logged in four statements or one request. */
  lemma CashOutAlone(s: State, k: nat, i: nat, db: Db)
    requires At(s, k, SelectBet(i, Pay)) && Playing(s, db, i) && PicksOn(db.bets[i].board) != []
    ensures Leaves(s, k, 4, PayRound(db, i))
  {
    hide *;
    PlayingMeans(s, db, i);
    var tables := Tables(PayRound(db, i).wallets, PayRound(db, i).ledger, s.bets[i := s.bets[i].(isOpen := false)]);
    PayGoes(s, k, i, db);
    PayAlone(Next(s, Act.Run(k)), k, i, db);
    EndsAfter(s, k, 3, tables);
    PaidShows(s, db, i, tables);
    EndsLeaves(s, k, 4, tables, PayRound(db, i));
  }

  /** A round that is closed or without picks is left alone. */
  lemma NoCashOutAlone(s: State, k: nat, i: nat, db: Db)
    requires At(s, k, SelectBet(i, Pay)) && Shows(TablesOf(s), db)
    requires i >= |db.bets| || db.bets[i].status != Open || (!db.bets[i].board.NoBoard? && PicksOn(db.bets[i].board) == [])
    ensures Leaves(s, k, 1, db)
  {
    StatementGoes(s, k, SelectBet(i, Pay));
    assert i < |db.bets| ==> Mirrors(s.bets[i], db.bets[i]);
    hide Next;
    hide Ends;
    hide Shows;
    hide Leaves;
    LastStatement(s, k, TablesOf(s));
    EndsLeaves(s, k, 1, TablesOf(s), db);
  }

  lemma PayGoes(s: State, k: nat, i: nat, db: Db)
    requires At(s, k, SelectBet(i, Pay)) && i < |s.bets| && i < |db.bets| && Mirrors(s.bets[i], db.bets[i]) && s.bets[i].isOpen
    requires !db.bets[i].board.NoBoard? && PicksOn(db.bets[i].board) != []
    ensures var t := Next(s, Act.Run(k));
            At(t, k, PayWallet(i, s.bets[i].user, s.bets[i].stake, PayoutFor(s.bets[i]))) && TablesOf(t) == TablesOf(s)
            && t.bets == s.bets && t.wallets == s.wallets && t.ledger == s.ledger
  {
    StatementGoes(s, k, SelectBet(i, Pay));
    hide Next;
    hide PayoutFor;
  }

  lemma PaidShows(s: State, db: Db, i: nat, tables: Tables)
    requires Playing(s, db, i) && i < |s.bets|
    requires tables == Tables(PayRound(db, i).wallets, PayRound(db, i).ledger, s.bets[i := s.bets[i].(isOpen := false)])
    ensures Shows(tables, PayRound(db, i))
  {
    PlayingMeans(s, db, i);
    PutShows(TablesOf(s), db, i, s.bets[i].(isOpen := false), tables, PayRound(db, i));
    hide Shows;
    hide PayoutCents;
  }

  lemma PayAlone(s: State, k: nat, i: nat, db: Db)
    requires i < |s.bets| && i < |db.bets| && Mirrors(s.bets[i], db.bets[i]) && !db.bets[i].board.NoBoard? && s.bets[i].user in s.wallets
    requires db.wallets == s.wallets && db.ledger == s.ledger
    requires At(s, k, PayWallet(i, s.bets[i].user, s.bets[i].stake, PayoutFor(s.bets[i])))
    ensures Ends(s, k, 3, Tables(PayRound(db, i).wallets, PayRound(db, i).ledger, s.bets[i := s.bets[i].(isOpen := false)]))
  {
    var b, payout := s.bets[i], PayoutFor(s.bets[i]);
    var t := Next(s, Act.Run(k));
    var u := Next(t, Act.Run(k));
    var tables := Tables(PayRound(db, i).wallets, PayRound(db, i).ledger, s.bets[i := b.(isOpen := false)]);
    StatementGoes(s, k, PayWallet(i, b.user, b.stake, payout));
    StatementGoes(t, k, ClosePaid(i, b.user, b.stake, payout));
    StatementGoes(u, k, InsertPayout(b.user, payout));
    hide Next;
    hide PayoutCents;
    LastStatement(u, k, tables);
    hide Ends;
    EndsAfter(t, k, 1, tables);
    EndsAfter(s, k, 2, tables);
  }
}
