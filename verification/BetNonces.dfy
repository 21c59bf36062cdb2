/**
 * Nonces one statement at a time. A bet's nonce is one more than the number of its player's bets, counted some statements
 * before the bet is stored: two placements under way can take the same one, and nothing else repeats one.
 */
module BetNonces {
  import opened Accounts
  import opened Interleaving
  import opened MinesRound
  import opened Play
  import opened PlayRounds
  import opened Schedules
  import opened Sums

  /** A placement that has counted the player's bets and not stored its own. */
  predicate Placing(p: Process, user: UserId) {
    (p.Debit? || p.InsertBet?) && p.job.user == user
  }

  /** A stored bet as far as its nonce is concerned. */
  function AsBet(row: BetRow): Bet {
    Bet(row.user, 0, 0, row.stake, row.multiplier, 0, if row.isOpen then Open else Won, NoBoard, row.nonce, false)
  }

  ghost predicate Numbered(rows: seq<BetRow>) {
    Nonces(Map(rows, AsBet))
  }

  function NextFor(rows: seq<BetRow>, user: UserId): nat {
    Count(rows, IsRowOf(user)) + 1
  }

  /** A placement under way still has the number that the next bet of its player gets. */
  predicate Fresh(s: State, p: Process) {
    p.Debit? || p.InsertBet? ==> p.nonce == NextFor(s.bets, p.job.user)
  }

  predicate Clash(p: Process, q: Process) {
    (p.Debit? || p.InsertBet?) && Placing(q, p.job.user)
  }

  ghost predicate InTurn(s: State) {
    && Numbered(s.bets)
    && (forall k :: 0 <= k < |s.processes| ==> Fresh(s, s.processes[k]))
    && (forall j, k :: 0 <= j < |s.processes| && 0 <= k < |s.processes| && j != k ==> !Clash(s.processes[j], s.processes[k]))
  }

  /** A player's bets are counted only when no other placement of that player is between its count and its insert. */
  predicate Allowed(s: State, act: Act) {
    act.Run? && act.k < |s.processes| && s.processes[act.k].CountBets? ==>
      forall j :: 0 <= j < |s.processes| && j != act.k ==> !Placing(s.processes[j], s.processes[act.k].job.user)
  }

  lemma SameNumber(rows: seq<BetRow>, user: UserId)
    ensures Count(Map(rows, AsBet), IsBetOf(user)) == Count(rows, IsRowOf(user))
  {
    CountMap(rows, AsBet, IsBetOf(user), IsRowOf(user));
  }

  lemma RowAppended(rows: seq<BetRow>, row: BetRow, user: UserId)
    requires Numbered(rows) && row.nonce == NextFor(rows, row.user)
    ensures Numbered(rows + [row]) && NextFor(rows + [row], user) == NextFor(rows, user) + if row.user == user then 1 else 0
  {
    assert Map(rows + [row], AsBet) == Map(rows, AsBet) + [AsBet(row)];
    SameNumber(rows, row.user);
    NoncesAppended(Map(rows, AsBet), AsBet(row));
    CountAppend(rows, row, IsRowOf(user));
    hide Nonces;
    hide Count;
  }

  lemma RowUpdated(rows: seq<BetRow>, i: nat, row: BetRow, user: UserId)
    requires Numbered(rows) && i < |rows| && row.user == rows[i].user && row.nonce == rows[i].nonce
    ensures Numbered(rows[i := row]) && NextFor(rows[i := row], user) == NextFor(rows, user)
  {
    assert Map(rows[i := row], AsBet) == Map(rows, AsBet)[i := AsBet(row)];
    NoncesUpdated(Map(rows, AsBet), i, AsBet(row));
    CountUpdate(rows, i, row, IsRowOf(user));
    hide Nonces;
    hide Count;
  }

  /** Only an insert adds a bet, and no statement changes a stored user or nonce. */
  predicate KeepsRow(s: State, p: Process, w: Write) {
    match w
    case AddBet(bet) => p.InsertBet? && bet.user == p.job.user && bet.nonce == p.nonce
    case PutBet(at, bet) => at < |s.bets| ==> bet.user == s.bets[at].user && bet.nonce == s.bets[at].nonce
    case _ => true
  }

  lemma StatementKeepsRow(s: State, p: Process)
    ensures KeepsRow(s, p, Statement(s, p).0) && (p.InsertBet? <==> Statement(s, p).0.AddBet?)
  {
    hide Count;
    hide PayoutFor;
    hide JobRows;
  }

  lemma StatementOnBets(s: State, p: Process, user: UserId)
    requires Numbered(s.bets) && Fresh(s, p)
    ensures var t := Written(s, Statement(s, p).0);
            && Numbered(t.bets) && NextFor(t.bets, user) == NextFor(s.bets, user) + if p.InsertBet? && p.job.user == user then 1 else 0
  {
    var write := Statement(s, p).0;
    StatementKeepsRow(s, p);
    if write.AddBet? {
      RowAppended(s.bets, write.bet, user);
    } else if write.PutBet? && write.at < |s.bets| {
      RowUpdated(s.bets, write.at, write.bet, user);
    }
    hide Numbered;
    hide Count;
    hide Statement;
  }

  lemma StatementOnPlacement(s: State, p: Process)
    requires Fresh(s, p)
    ensures var next := Statement(s, p).1;
            && (next.Debit? || next.InsertBet? ==> next.nonce == NextFor(s.bets, next.job.user) && !p.InsertBet?)
            && (next.Debit? || next.InsertBet? ==> p.CountBets? || p.Debit?)
            && ((next.Debit? || next.InsertBet?) && (p.CountBets? || p.Debit?) ==> next.job == p.job)
  {
    hide Count;
    hide PayoutFor;
    hide JobRows;
  }

  lemma RunKeepsInTurn(s: State, k: nat)
    requires InTurn(s) && Allowed(s, Act.Run(k)) && k < |s.processes|
    ensures InTurn(Next(s, Act.Run(k)))
  {
    var p, after := s.processes[k], Next(s, Act.Run(k));
    assert Fresh(s, p);
    NextRun(s, k);
    StatementOnPlacement(s, p);
    StatementOnBets(s, p, 0);
    hide Statement;
    hide Next;
    hide Written;
    hide Numbered;
    hide NextFor;
    forall j | 0 <= j < |after.processes|
      ensures Fresh(after, after.processes[j])
    {
      var q := after.processes[j];
      if q.Debit? || q.InsertBet? {
        StatementOnBets(s, p, q.job.user);
        assert j != k ==> Fresh(s, s.processes[j]) && !Clash(p, s.processes[j]);
      }
    }
    forall i, j | 0 <= i < |after.processes| && 0 <= j < |after.processes| && i != j
      ensures !Clash(after.processes[i], after.processes[j])
    {
      assert !Clash(s.processes[i], s.processes[j]);
      assert !Clash(s.processes[j], s.processes[i]);
    }
  }

  lemma NextKeepsInTurn(s: State, act: Act)
    requires InTurn(s) && Allowed(s, act)
    ensures InTurn(Next(s, act))
  {
    if act.Run? && act.k < |s.processes| {
      RunKeepsInTurn(s, act.k);
      return;
    }
    hide Numbered;
    hide Count;
    var t := Next(s, act);
    forall k | 0 <= k < |t.processes|
      ensures Fresh(t, t.processes[k])
    {
      assert k < |s.processes| ==> Fresh(s, s.processes[k]);
    }
    forall i, j | 0 <= i < |t.processes| && 0 <= j < |t.processes| && i != j
      ensures !Clash(t.processes[i], t.processes[j])
    {
      assert i < |s.processes| && j < |s.processes| ==> !Clash(s.processes[i], s.processes[j]);
    }
  }

  /** A run in which no two placements of one player overlap between count and insert. */
  predicate OnePlacementAtATime(s: State, acts: seq<Act>)
    decreases |acts|
  {
    acts == [] || (Allowed(s, acts[0]) && OnePlacementAtATime(Next(s, acts[0]), acts[1..]))
  }

  lemma {:induction false} RunAllKeepsInTurn(s: State, acts: seq<Act>)
    requires InTurn(s) && OnePlacementAtATime(s, acts)
    ensures InTurn(RunAll(s, acts))
    decreases |acts|
  {
    hide InTurn;
    hide Next;
    hide Allowed;
    if acts != [] {
      NextKeepsInTurn(s, acts[0]);
      RunAllKeepsInTurn(Next(s, acts[0]), acts[1..]);
    }
  }

  /** In such a run, whatever else interleaves, a player's nonces rise bet by bet, from 1 to the number of bets at most. */
  lemma NoncesRiseInTurn(acts: seq<Act>, i: nat, j: nat)
    requires OnePlacementAtATime(Empty, acts)
    requires i < j < |RunAll(Empty, acts).bets| && RunAll(Empty, acts).bets[i].user == RunAll(Empty, acts).bets[j].user
    ensures var bets := RunAll(Empty, acts).bets;
            1 <= bets[i].nonce < bets[j].nonce <= Count(bets, IsRowOf(bets[j].user))
  {
    RunAllKeepsInTurn(Empty, acts);
    var bets := RunAll(Empty, acts).bets;
    hide RunAll;
    hide Nonces;
    NoncesRise(Map(bets, AsBet), i, j);
    SameNumber(bets, bets[j].user);
    hide Count;
  }

  /** And every number up to the number of bets is the nonce of one of them. */
  lemma NonceIsGivenInTurn(acts: seq<Act>, user: UserId, n: nat) returns (i: nat)
    requires OnePlacementAtATime(Empty, acts) && 1 <= n <= Count(RunAll(Empty, acts).bets, IsRowOf(user))
    ensures var bets := RunAll(Empty, acts).bets;
            i < |bets| && bets[i].user == user && bets[i].nonce == n
  {
    RunAllKeepsInTurn(Empty, acts);
    var bets := RunAll(Empty, acts).bets;
    hide RunAll;
    hide Nonces;
    SameNumber(bets, user);
    assert Map(bets, AsBet)[..|bets|] == Map(bets, AsBet);
    hide Count;
    i := NonceIsGiven(Map(bets, AsBet), user, n, |bets|);
  }

  predicate AboutToCount(s: State, k: nat, job: Job) {
    k < |s.processes| && s.processes[k] == CountBets(job)
  }

  predicate CanPay(s: State, user: UserId, amount: int) {
    user in s.wallets && s.wallets[user].balance >= amount
  }

  /** Both placements count, then both take their stakes, then both store their bets. */
  function Together(j: nat, k: nat): seq<Act> {
    [Act.Run(j), Act.Run(k)] + [Act.Run(j), Act.Run(k)] + [Act.Run(j), Act.Run(k)]
  }

  predicate BothAt(s: State, j: nat, k: nat, p: Process, q: Process) {
    j < |s.processes| && k < |s.processes| && s.processes[j] == p && s.processes[k] == q
  }

  lemma BothCount(s: State, j: nat, k: nat, first: Job, second: Job, n: nat)
    requires j != k && BothAt(s, j, k, CountBets(first), CountBets(second)) && first.user == second.user
    requires n == NextFor(s.bets, first.user)
    ensures var t := RunAll(s, [Act.Run(j), Act.Run(k)]);
            BothAt(t, j, k, Debit(first, n), Debit(second, n)) && t.bets == s.bets && t.wallets == s.wallets
  {
    TwoMore(s, Act.Run(j), Act.Run(k));
    hide RunAll;
    hide Count;
  }

  lemma BothDebit(s: State, j: nat, k: nat, first: Job, second: Job, n: nat)
    requires j != k && BothAt(s, j, k, Debit(first, n), Debit(second, n)) && first.user == second.user
    requires CanPay(s, first.user, first.stake + second.stake)
    ensures var t := RunAll(s, [Act.Run(j), Act.Run(k)]);
            BothAt(t, j, k, InsertBet(first, n), InsertBet(second, n)) && t.bets == s.bets
  {
    TwoMore(s, Act.Run(j), Act.Run(k));
    hide RunAll;
    hide Count;
  }

  lemma BothInsert(s: State, j: nat, k: nat, first: Job, second: Job, n: nat)
    requires j != k && BothAt(s, j, k, InsertBet(first, n), InsertBet(second, n))
    ensures RunAll(s, [Act.Run(j), Act.Run(k)]).bets == s.bets + [NewRow(first, n), NewRow(second, n)]
  {
    TwoMore(s, Act.Run(j), Act.Run(k));
    hide RunAll;
    hide Count;
    hide NewRow;
  }

  /**
   * And it takes no more than an overlap: wherever two placements of one player are about to count and both stakes are
   * covered, an order of their statements, and of nobody else's, stores two bets with the same nonce.
   */
  lemma TwoPlacementsShareNonce(s: State, j: nat, k: nat, first: Job, second: Job)
    requires j != k && AboutToCount(s, j, first) && AboutToCount(s, k, second) && first.user == second.user
    requires CanPay(s, first.user, first.stake + second.stake)
    ensures var n := NextFor(s.bets, first.user);
            RunAll(s, Together(j, k)).bets == s.bets + [NewRow(first, n), NewRow(second, n)]
  {
    var n := NextFor(s.bets, first.user);
    var turn := [Act.Run(j), Act.Run(k)];
    hide RunAll;
    hide NextFor;
    hide NewRow;
    BothCount(s, j, k, first, second, n);
    var t := RunAll(s, turn);
    BothDebit(t, j, k, first, second, n);
    var u := RunAll(t, turn);
    BothInsert(u, j, k, first, second, n);
    RunAllConcat(s, turn, turn);
    RunAllConcat(s, turn + turn, turn);
  }

  /** Two bets of 0.50 come in and look for the wallet. */
  const Betting: seq<Act> :=
    [Spawn(SelectWallet(Job.Instant(0, 50, 0))), Act.Run(1), Spawn(SelectWallet(Job.Instant(0, 50, 0))), Act.Run(2)]

  lemma BothReady(s: State)
    requires s == Claimed(map[0 := Rich], Finished, [0])
    ensures var t := RunAll(s, Betting);
            AboutToCount(t, 1, Job.Instant(0, 50, 0)) && AboutToCount(t, 2, Job.Instant(0, 50, 0)) && CanPay(t, 0, 100) && t.bets == []
  {
    var acts, job := Betting, Job.Instant(0, 50, 0);
    Onward(s, acts, 0);
    hide RunAll;
    Then(s, acts, 0, s, s.(processes := [Finished, SelectWallet(job)]));
    Then(s, acts, 1, s.(processes := [Finished, SelectWallet(job)]), s.(processes := [Finished, CountBets(job)]));
    Then(s, acts, 2, s.(processes := [Finished, CountBets(job)]), s.(processes := [Finished, CountBets(job), SelectWallet(job)]));
    Then(s, acts, 3, s.(processes := [Finished, CountBets(job), SelectWallet(job)]), s.(processes := [Finished, CountBets(job), CountBets(job)]));
    assert acts[..4] == acts;
  }

  /** An input: a player deposits 1.00 and places two bets of 0.50 at once; both get nonce 1. */
  lemma OverlappingBetsShareNonce()
    ensures var bets := RunAll(Empty, Funding + Betting + Together(1, 2)).bets;
            |bets| == 2 && bets[0].user == bets[1].user && bets[0].nonce == bets[1].nonce == 1
  {
    Funded();
    BothReady(RunAll(Empty, Funding));
    RunAllConcat(Empty, Funding, Betting);
    RunAllConcat(Empty, Funding + Betting, Together(1, 2));
    hide RunAll;
    hide Together;
    TwoPlacementsShareNonce(RunAll(Empty, Funding + Betting), 1, 2, Job.Instant(0, 50, 0), Job.Instant(0, 50, 0));
  }
}
