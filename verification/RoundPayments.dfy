/**
 * How often a grid round is paid when its requests overlap. A cash-out reads the round and later pays and closes it without
 * looking again: two cash-outs under way can both pay, and nothing else pays a round twice, however many reveals overlap it.
 */
module RoundPayments {
  import opened Accounts
  import opened Interleaving
  import opened Options
  import opened Play
  import opened PlayMoney
  import opened Schedules
  import opened Sums

  /** The round that an unfinished cash-out acts on, asked for by the player or set off by the last safe pick. */
  function CashesOut(p: Process): Option<nat> {
    match p
    case SelectBet(bet, Pay) => Some(bet)
    case SelectBet(bet, Safe(_, last)) => if last then Some(bet) else None
    case StorePick(bet, _, _, last) => if last then Some(bet) else None
    case PayWallet(bet, _, _, _) => Some(bet)
    case ClosePaid(bet, _, _, _) => Some(bet)
    case _ => None
  }

  predicate Rivals(p: Process, q: Process) {
    CashesOut(p).Some? && CashesOut(p) == CashesOut(q)
  }

  /** How often a round's payout has reached a wallet. */
  function TimesPaid(s: State, bet: nat): nat {
    Count(s.paid, IsId(bet))
  }

  predicate NoRivals(processes: seq<Process>) {
    forall j, k :: 0 <= j < |processes| && 0 <= k < |processes| && j != k ==> !Rivals(processes[j], processes[k])
  }

  predicate ClosesPaid(p: Process, bet: nat) {
    p.ClosePaid? && p.bet == bet
  }

  /** A round is paid at most once, and while it is paid and still open, some process is about to close it. */
  predicate PaidOnce(s: State, bet: nat) {
    && TimesPaid(s, bet) <= 1
    && (TimesPaid(s, bet) == 1 ==> bet < |s.bets|)
    && (TimesPaid(s, bet) == 1 && bet < |s.bets| && s.bets[bet].isOpen
        ==> exists k :: 0 <= k < |s.processes| && ClosesPaid(s.processes[k], bet))
  }

  /** A process that is about to pay a round has found it stored and unpaid. */
  predicate MayPay(s: State, p: Process) {
    match p
    case PayWallet(bet, _, _, _) => bet < |s.bets| && TimesPaid(s, bet) == 0
    case ClosePaid(bet, _, _, _) => bet < |s.bets|
    case _ => true
  }

  ghost predicate Calm(s: State) {
    && NoRivals(s.processes)
    && (forall k :: 0 <= k < |s.processes| ==> MayPay(s, s.processes[k]))
    && (forall bet :: PaidOnce(s, bet))
  }

  lemma StatementStaysOn(s: State, p: Process)
    ensures CashesOut(Statement(s, p).1) == None || CashesOut(Statement(s, p).1) == CashesOut(p)
  {
    hide PayoutFor;
    hide JobRows;
    hide Count;
  }

  /** Rounds are neither removed nor reopened, and only a payment pays. */
  predicate RoundGoesOn(s: State, t: State, bet: nat) {
    && (bet < |s.bets| ==> bet < |t.bets| && (t.bets[bet].isOpen ==> s.bets[bet].isOpen))
    && TimesPaid(t, bet) == TimesPaid(s, bet)
  }

  lemma StatementGoesOn(s: State, p: Process, bet: nat)
    requires !(p.PayWallet? && p.bet == bet)
    ensures RoundGoesOn(s, Written(s, Statement(s, p).0), bet)
  {
    var write := Statement(s, p).0;
    if write.PayoutWallet? {
      CountAppend(s.paid, write.at, IsId(bet));
    }
    hide PayoutFor;
    hide JobRows;
    hide Count;
  }

  /** Paying: once more, and the process is about to close the round. */
  lemma StatementPays(s: State, p: Process)
    requires p.PayWallet?
    ensures var (write, next) := Statement(s, p);
            var t := Written(s, write);
            && t.bets == s.bets && ClosesPaid(next, p.bet)
            && TimesPaid(t, p.bet) == TimesPaid(s, p.bet) + if p.user in s.wallets then 1 else 0
  {
    if p.user in s.wallets {
      CountAppend(s.paid, p.bet, IsId(p.bet));
    }
    hide Count;
  }

  lemma StatementCloses(s: State, p: Process, bet: nat)
    requires ClosesPaid(p, bet) && bet < |s.bets|
    ensures var t := Written(s, Statement(s, p).0);
            |t.bets| == |s.bets| && !t.bets[bet].isOpen
  {
  }

  lemma PaidIgnoresProcesses(s: State, processes: seq<Process>, p: Process, bet: nat)
    ensures TimesPaid(s.(processes := processes), bet) == TimesPaid(s, bet)
    ensures MayPay(s.(processes := processes), p) == MayPay(s, p)
  {
  }

  lemma RunKeepsPaidOnce(s: State, k: nat, bet: nat)
    requires Calm(s) && k < |s.processes|
    ensures PaidOnce(Next(s, Act.Run(k)), bet)
  {
    var p, after := s.processes[k], Next(s, Act.Run(k));
    var (write, next) := Statement(s, p);
    var t := Written(s, write);
    NextRun(s, k);
    assert PaidOnce(s, bet) && MayPay(s, p);
    PaidIgnoresProcesses(t, after.processes, p, bet);
    hide Calm;
    hide Statement;
    hide Next;
    hide Written;
    hide TimesPaid;
    if p.PayWallet? && p.bet == bet {
      StatementPays(s, p);
      assert after.processes[k] == next;
      return;
    }
    StatementGoesOn(s, p, bet);
    if ClosesPaid(p, bet) {
      StatementCloses(s, p, bet);
      return;
    }
    forall j | 0 <= j < |s.processes|
      ensures ClosesPaid(s.processes[j], bet) ==> ClosesPaid(after.processes[j], bet)
    {
    }
  }

  /** A cash-out that finds its round open finds it unpaid: whoever paid it would be about to close it, and a rival. */
  lemma OpenIsUnpaid(s: State, k: nat, bet: nat)
    requires Calm(s) && k < |s.processes| && CashesOut(s.processes[k]) == Some(bet) && !ClosesPaid(s.processes[k], bet)
    requires bet < |s.bets| && s.bets[bet].isOpen
    ensures TimesPaid(s, bet) == 0
  {
    assert PaidOnce(s, bet);
    forall j | 0 <= j < |s.processes|
      ensures !ClosesPaid(s.processes[j], bet)
    {
      if j != k {
        assert !Rivals(s.processes[j], s.processes[k]);
      }
    }
    hide TimesPaid;
  }

  lemma RunKeepsMayPay(s: State, k: nat, j: nat)
    requires Calm(s) && k < |s.processes| && j < |s.processes|
    ensures MayPay(Next(s, Act.Run(k)), Next(s, Act.Run(k)).processes[j])
  {
    var p, q := s.processes[k], Next(s, Act.Run(k)).processes[j];
    var (write, next) := Statement(s, p);
    var t := Written(s, write);
    NextRun(s, k);
    PaidIgnoresProcesses(t, Next(s, Act.Run(k)).processes, q, 0);
    hide Next;
    if j == k {
      NextMayPay(s, k);
    } else if q.PayWallet? || q.ClosePaid? {
      assert MayPay(s, q) && !Rivals(p, q);
      hide Statement;
      hide Written;
      StatementGoesOn(s, p, q.bet);
    }
    hide Calm;
    hide Statement;
    hide Written;
    hide TimesPaid;
  }

  lemma NextMayPay(s: State, k: nat)
    requires Calm(s) && k < |s.processes|
    ensures var (write, next) := Statement(s, s.processes[k]);
            MayPay(Written(s, write), next)
  {
    var p := s.processes[k];
    assert MayPay(s, p);
    if p.SelectBet? && p.move.Pay? && p.bet < |s.bets| && s.bets[p.bet].isOpen {
      OpenIsUnpaid(s, k, p.bet);
    }
    hide Calm;
    hide PayoutFor;
    hide JobRows;
    hide Count;
  }

  lemma RunKeepsCalm(s: State, k: nat)
    requires Calm(s) && k < |s.processes|
    ensures Calm(Next(s, Act.Run(k)))
  {
    var after := Next(s, Act.Run(k));
    NextRun(s, k);
    StatementStaysOn(s, s.processes[k]);
    forall i, j | 0 <= i < |after.processes| && 0 <= j < |after.processes| && i != j
      ensures !Rivals(after.processes[i], after.processes[j])
    {
      assert !Rivals(s.processes[i], s.processes[j]);
    }
    forall j | 0 <= j < |after.processes|
      ensures MayPay(after, after.processes[j])
    {
      RunKeepsMayPay(s, k, j);
    }
    forall bet
      ensures PaidOnce(after, bet)
    {
      RunKeepsPaidOnce(s, k, bet);
    }
    hide Next;
    hide Statement;
    hide CashesOut;
    hide MayPay;
    hide PaidOnce;
  }

  /** Processes that are no closing of a round come and go. */
  lemma OthersKeepCalm(s: State, t: State)
    requires Calm(s) && NoRivals(t.processes) && t.bets == s.bets && t.paid == s.paid && |t.processes| >= |s.processes|
    requires forall k :: 0 <= k < |s.processes| && t.processes[k] != s.processes[k] ==> !s.processes[k].ClosePaid?
    requires forall k :: 0 <= k < |t.processes| && (k >= |s.processes| || t.processes[k] != s.processes[k])
               ==> !t.processes[k].PayWallet? && !t.processes[k].ClosePaid?
    ensures Calm(t)
  {
    forall bet
      ensures PaidOnce(t, bet)
    {
      assert PaidOnce(s, bet);
      forall k | 0 <= k < |s.processes|
        ensures ClosesPaid(s.processes[k], bet) ==> ClosesPaid(t.processes[k], bet)
      {
      }
    }
    forall k | 0 <= k < |t.processes|
      ensures MayPay(t, t.processes[k])
    {
      assert k < |s.processes| ==> MayPay(s, s.processes[k]);
    }
    hide Count;
    hide NoRivals;
  }

  /** A cash-out of a round on which no other is under way; reveals may come in at any time. */
  predicate Allowed(s: State, act: Act) {
    act.Spawn? ==> forall k :: 0 <= k < |s.processes| ==> !Rivals(act.request, s.processes[k])
  }

  lemma NextKeepsCalm(s: State, act: Act)
    requires Calm(s) && Allowed(s, act)
    ensures Calm(Next(s, act))
  {
    var t := Next(s, act);
    if act.Run? && act.k < |s.processes| {
      RunKeepsCalm(s, act.k);
      return;
    }
    forall i, j | 0 <= i < |t.processes| && 0 <= j < |t.processes| && i != j
      ensures !Rivals(t.processes[i], t.processes[j])
    {
      if i < |s.processes| && j < |s.processes| {
        assert !Rivals(s.processes[i], s.processes[j]);
      } else if j < |s.processes| {
        assert !Rivals(act.request, s.processes[j]);
      } else {
        assert !Rivals(act.request, s.processes[i]);
      }
    }
    OthersKeepCalm(s, t);
    hide Calm;
  }

  /** A run in which no two unfinished cash-outs act on one round. */
  predicate OneCashOutAtATime(s: State, acts: seq<Act>)
    decreases |acts|
  {
    acts == [] || (Allowed(s, acts[0]) && OneCashOutAtATime(Next(s, acts[0]), acts[1..]))
  }

  lemma {:induction false} RunAllKeepsCalm(s: State, acts: seq<Act>)
    requires Calm(s) && OneCashOutAtATime(s, acts)
    ensures Calm(RunAll(s, acts))
    decreases |acts|
  {
    hide Calm;
    hide Next;
    hide Allowed;
    if acts != [] {
      NextKeepsCalm(s, acts[0]);
      RunAllKeepsCalm(Next(s, acts[0]), acts[1..]);
    }
  }

  /**
   * Under every statement order in which no two unfinished cash-outs act on one round, each round's payout reaches a wallet at
   * most once. Reveals of the round, bets, credits and flags may interleave with the cash-out as they like.
   */
  lemma RoundPaidOnce(acts: seq<Act>, bet: nat)
    requires OneCashOutAtATime(Empty, acts)
    ensures TimesPaid(RunAll(Empty, acts), bet) <= 1
  {
    assert Calm(Empty);
    RunAllKeepsCalm(Empty, acts);
    assert PaidOnce(RunAll(Empty, acts), bet);
    hide RunAll;
    hide TimesPaid;
  }

  /** A cash-out under way that has not paid yet. */
  predicate Owes(p: Process, bet: nat) {
    CashesOut(p) == Some(bet) && !p.ClosePaid?
  }

  predicate InPlay(s: State, bet: nat) {
    bet < |s.bets| && s.bets[bet].isOpen && s.bets[bet].picks > 0
  }

  predicate AtPayment(s: State, k: nat, bet: nat) {
    k < |s.processes| && s.processes[k].PayWallet? && s.processes[k].bet == bet
  }

  /** Process j has gone on by itself, up to paying the round, and left the round in play. */
  predicate Advanced(s: State, t: State, j: nat, bet: nat) {
    && InPlay(t, bet) && t.paid == s.paid && |t.processes| == |s.processes| && AtPayment(t, j, bet)
    && forall i :: 0 <= i < |s.processes| && i != j ==> t.processes[i] == s.processes[i]
  }

  /** How many statements a cash-out is away from paying. */
  function Away(p: Process): nat {
    if p.SelectBet? then if p.move.Pay? then 1 else 3
    else if p.StorePick? then 2
    else 0
  }

  lemma OneCloser(s: State, j: nat, bet: nat)
    requires j < |s.processes| && Owes(s.processes[j], bet) && InPlay(s, bet) && Away(s.processes[j]) > 0
    requires Remembers(s, s.processes[j])
    ensures var t := Next(s, Act.Run(j));
            && InPlay(t, bet) && t.paid == s.paid && |t.processes| == |s.processes|
            && Owes(t.processes[j], bet) && Away(t.processes[j]) < Away(s.processes[j])
            && forall i :: 0 <= i < |s.processes| && i != j ==> t.processes[i] == s.processes[i]
  {
    hide PayoutFor;
  }

  lemma {:induction false} Advance(s: State, j: nat, bet: nat) returns (acts: seq<Act>)
    requires Inv(s) && j < |s.processes| && Owes(s.processes[j], bet) && InPlay(s, bet)
    ensures Advanced(s, RunAll(s, acts), j, bet) && Inv(RunAll(s, acts))
    ensures forall act <- acts :: act == Act.Run(j)
    decreases Away(s.processes[j])
  {
    if Away(s.processes[j]) == 0 {
      acts := [];
    } else {
      assert Remembers(s, s.processes[j]);
      OneCloser(s, j, bet);
      NextKeeps(s, Act.Run(j));
      hide Inv;
      hide Next;
      var rest := Advance(Next(s, Act.Run(j)), j, bet);
      acts := [Act.Run(j)] + rest;
      RunAllFirst(s, Act.Run(j), rest);
      hide RunAll;
    }
  }

  /** A payment goes through whatever has become of the round. */
  lemma PaymentGoesThrough(s: State, k: nat, bet: nat)
    requires Inv(s) && AtPayment(s, k, bet)
    ensures var t := Next(s, Act.Run(k));
            && Inv(t) && TimesPaid(t, bet) == TimesPaid(s, bet) + 1
            && |t.processes| == |s.processes| && forall i :: 0 <= i < |s.processes| && i != k ==> t.processes[i] == s.processes[i]
  {
    assert Remembers(s, s.processes[k]);
    NextKeeps(s, Act.Run(k));
    NextRun(s, k);
    StatementPays(s, s.processes[k]);
    PaidIgnoresProcesses(Written(s, Statement(s, s.processes[k]).0), Next(s, Act.Run(k)).processes, s.processes[k], bet);
    hide Inv;
    hide Next;
    hide Statement;
    hide Written;
    hide TimesPaid;
  }

  /**
   * And it takes no more than that: wherever two cash-outs of an open round with a pick are under way and neither has paid,
   * an order of their statements, and of nobody else's, pays the round twice.
   */
  lemma TwoOwingPayTwice(s: State, j: nat, k: nat, bet: nat) returns (acts: seq<Act>)
    requires Inv(s) && j < |s.processes| && k < |s.processes| && j != k
    requires Owes(s.processes[j], bet) && Owes(s.processes[k], bet) && InPlay(s, bet)
    ensures forall act <- acts :: act == Act.Run(j) || act == Act.Run(k)
    ensures TimesPaid(RunAll(s, acts), bet) == TimesPaid(s, bet) + 2
  {
    var first := Advance(s, j, bet);
    var t := RunAll(s, first);
    AdvancedKeepsOther(s, t, j, k, bet);
    var second := Advance(t, k, bet);
    var u := RunAll(t, second);
    AdvancedKeepsOther(t, u, k, j, bet);
    hide *;
    BothPayments(u, j, k, bet);
    acts := first + second + [Act.Run(j), Act.Run(k)];
    RunAllConcat(s, first + second, [Act.Run(j), Act.Run(k)]);
    RunAllConcat(s, first, second);
    SamePaid(s, u, bet);
  }

  lemma SamePaid(s: State, t: State, bet: nat)
    requires s.paid == t.paid
    ensures TimesPaid(s, bet) == TimesPaid(t, bet)
  {
  }

  lemma AdvancedKeepsOther(s: State, t: State, j: nat, k: nat, bet: nat)
    requires Advanced(s, t, j, bet) && k < |s.processes| && k != j
    ensures k < |t.processes| && t.processes[k] == s.processes[k] && InPlay(t, bet) && t.paid == s.paid && AtPayment(t, j, bet)
    ensures AtPayment(s, k, bet) ==> AtPayment(t, k, bet)
  {
  }

  lemma BothPayments(s: State, j: nat, k: nat, bet: nat)
    requires Inv(s) && j != k && AtPayment(s, j, bet) && AtPayment(s, k, bet)
    ensures TimesPaid(RunAll(s, [Act.Run(j), Act.Run(k)]), bet) == TimesPaid(s, bet) + 2
  {
    hide Inv;
    hide Next;
    hide RunAll;
    PaymentGoesThrough(s, j, bet);
    PaymentGoesThrough(Next(s, Act.Run(j)), k, bet);
    TwoMore(s, Act.Run(j), Act.Run(k));
  }

  /** The deposit of 1.00 is staked on a grid round. */
  const Starting: seq<Act> := [Spawn(SelectWallet(Grid(0, 100))), Act.Run(1), Act.Run(1), Act.Run(1), Act.Run(1), Act.Run(1)]
  /** A safe pick makes the round worth 2.00, and two cash-outs come in. */
  const Picking: seq<Act> :=
    [Spawn(SelectBet(0, Safe(200, false))), Act.Run(2), Act.Run(2), Spawn(SelectBet(0, Pay)), Spawn(SelectBet(0, Pay))]
  /** Both read the round before either closes it. */
  const Paying: seq<Act> := [Act.Run(3), Act.Run(4), Act.Run(3), Act.Run(4)]

  const Staked: Wallet := NewWallet.(locked := 100, wagered := 100, deposited := 100)
  /** The state once the round is in play, for processes that come after the first two. */
  function Round(multiplier: nat, picks: nat, more: seq<Process>): State {
    State(map[0 := Staked], Paid + [Tx(0, StakeTx, Confirmed, -100)], [BetRow(0, 1, 100, multiplier, picks, true)],
          [Finished, Finished] + more, [0], [])
  }

  /** The second process while it stakes the deposit. */
  function Staking(w: Wallet, bets: seq<BetRow>, p: Process): State {
    State(map[0 := w], Paid, bets, [Finished, p], [0], [])
  }

  lemma CountSteps(s: State, job: Job)
    requires s == Claimed(map[0 := Rich], Finished, [0]) && job == Grid(0, 100)
    ensures Next(s, Spawn(SelectWallet(job))) == Staking(Rich, [], SelectWallet(job))
    ensures Next(Staking(Rich, [], SelectWallet(job)), Act.Run(1)) == Staking(Rich, [], CountBets(job))
    ensures Next(Staking(Rich, [], CountBets(job)), Act.Run(1)) == Staking(Rich, [], Debit(job, 1))
  {
  }

  lemma ToDebit(s: State, acts: seq<Act>)
    requires acts == Starting && s == Claimed(map[0 := Rich], Finished, [0])
    ensures RunAll(s, acts[..3]) == Staking(Rich, [], Debit(Grid(0, 100), 1))
  {
    var job := Grid(0, 100);
    CountSteps(s, job);
    hide RunAll;
    hide Next;
    hide Staking;
    hide Claimed;
    Onward(s, acts, 0);
    Then(s, acts, 0, s, Staking(Rich, [], SelectWallet(job)));
    Then(s, acts, 1, Staking(Rich, [], SelectWallet(job)), Staking(Rich, [], CountBets(job)));
    Then(s, acts, 2, Staking(Rich, [], CountBets(job)), Staking(Rich, [], Debit(job, 1)));
  }

  lemma DebitStep()
    ensures Next(Staking(Rich, [], Debit(Grid(0, 100), 1)), Act.Run(1)) == Staking(Staked, [], InsertBet(Grid(0, 100), 1))
  {
    var s := Staking(Rich, [], Debit(Grid(0, 100), 1));
    assert s.processes[1] == Debit(Grid(0, 100), 1);
    assert map[0 := Rich][0 := Staked] == map[0 := Staked];
    assert [Finished, Debit(Grid(0, 100), 1)][1 := InsertBet(Grid(0, 100), 1)] == [Finished, InsertBet(Grid(0, 100), 1)];
  }

  lemma BetStep(row: BetRow)
    requires row == BetRow(0, 1, 100, 0, 0, true)
    ensures Next(Staking(Staked, [], InsertBet(Grid(0, 100), 1)), Act.Run(1)) == Staking(Staked, [row], InsertStake(Grid(0, 100)))
  {
  }

  lemma StakeStep(row: BetRow)
    requires row == BetRow(0, 1, 100, 0, 0, true)
    ensures Next(Staking(Staked, [row], InsertStake(Grid(0, 100))), Act.Run(1)) == Round(0, 0, [])
  {
    assert JobRows(Grid(0, 100)) == [Tx(0, StakeTx, Confirmed, -100)];
  }

  lemma FromDebit(s: State, acts: seq<Act>)
    requires acts == Starting && RunAll(s, acts[..3]) == Staking(Rich, [], Debit(Grid(0, 100), 1))
    ensures RunAll(s, acts[..6]) == Round(0, 0, [])
  {
    hide RunAll;
    var job, row := Grid(0, 100), BetRow(0, 1, 100, 0, 0, true);
    DebitStep();
    BetStep(row);
    StakeStep(row);
    hide Next;
    Then(s, acts, 3, Staking(Rich, [], Debit(job, 1)), Staking(Staked, [], InsertBet(job, 1)));
    Then(s, acts, 4, Staking(Staked, [], InsertBet(job, 1)), Staking(Staked, [row], InsertStake(job)));
    Then(s, acts, 5, Staking(Staked, [row], InsertStake(job)), Round(0, 0, []));
  }

  lemma Started(s: State)
    requires s == Claimed(map[0 := Rich], Finished, [0])
    ensures RunAll(s, Starting) == Round(0, 0, [])
  {
    hide RunAll;
    ToDebit(s, Starting);
    FromDebit(s, Starting);
    assert Starting[..6] == Starting;
  }

  lemma Picked(s: State)
    requires s == Round(0, 0, [])
    ensures RunAll(s, Picking) == Round(200, 1, [Finished, SelectBet(0, Pay), SelectBet(0, Pay)])
  {
    hide RunAll;
    var acts := Picking;
    Onward(s, acts, 0);
    Then(s, acts, 0, s, Round(0, 0, [SelectBet(0, Safe(200, false))]));
    Then(s, acts, 1, Round(0, 0, [SelectBet(0, Safe(200, false))]), Round(0, 0, [StorePick(0, 200, 1, false)]));
    Then(s, acts, 2, Round(0, 0, [StorePick(0, 200, 1, false)]), Round(200, 1, [Finished]));
    Then(s, acts, 3, Round(200, 1, [Finished]), Round(200, 1, [Finished, SelectBet(0, Pay)]));
    Then(s, acts, 4, Round(200, 1, [Finished, SelectBet(0, Pay)]), Round(200, 1, [Finished, SelectBet(0, Pay), SelectBet(0, Pay)]));
    assert acts[..5] == acts;
  }

  lemma BothRead(s: State, acts: seq<Act>)
    requires acts == Paying && s == Round(200, 1, [Finished, SelectBet(0, Pay), SelectBet(0, Pay)])
    ensures RunAll(s, acts[..2]) == Round(200, 1, [Finished, PayWallet(0, 0, 100, 200), PayWallet(0, 0, 100, 200)])
  {
    hide RunAll;
    var due := PayWallet(0, 0, 100, 200);
    Onward(s, acts, 0);
    assert PayoutFor(s.bets[0]) == 200;
    Then(s, acts, 0, s, Round(200, 1, [Finished, due, SelectBet(0, Pay)]));
    Then(s, acts, 1, Round(200, 1, [Finished, due, SelectBet(0, Pay)]), Round(200, 1, [Finished, due, due]));
  }

  lemma BothPay(s: State, acts: seq<Act>)
    requires acts == Paying
    requires RunAll(s, acts[..2]) == Round(200, 1, [Finished, PayWallet(0, 0, 100, 200), PayWallet(0, 0, 100, 200)])
    ensures var last := RunAll(s, acts[..4]);
            last.paid == [0, 0] && WalletIn(last.wallets, 0).won == 400
  {
    hide RunAll;
    var due := PayWallet(0, 0, 100, 200);
    var t := Round(200, 1, [Finished, ClosePaid(0, 0, 100, 200), due])
               .(wallets := map[0 := Staked.(balance := 200, won := 200, locked := 0)], paid := [0]);
    Then(s, acts, 2, Round(200, 1, [Finished, due, due]), t);
    Onward(s, acts, 3);
  }

  lemma PaidTwice(s: State)
    requires s == Round(200, 1, [Finished, SelectBet(0, Pay), SelectBet(0, Pay)])
    ensures var last := RunAll(s, Paying);
            last.paid == [0, 0] && WalletIn(last.wallets, 0).won == 400
  {
    hide RunAll;
    BothRead(s, Paying);
    BothPay(s, Paying);
    assert Paying[..4] == Paying;
  }

  /** An input: a player deposits 1.00, stakes it, makes one safe pick and asks for two cash-outs; the round of 2.00 pays 4.00. */
  lemma TwoCashOutsPayTwice()
    ensures var last := RunAll(Empty, Funding + Starting + Picking + Paying);
            TimesPaid(last, 0) == 2 && WalletIn(last.wallets, 0).won == 400
  {
    Funded();
    Started(RunAll(Empty, Funding));
    Picked(RunAll(RunAll(Empty, Funding), Starting));
    RunAllConcat(Empty, Funding, Starting);
    RunAllConcat(Empty, Funding + Starting, Picking);
    RunAllConcat(Empty, Funding + Starting + Picking, Paying);
    hide *;
    PaidTwice(RunAll(Empty, Funding + Starting + Picking));
    CountTwo(RunAll(Empty, Funding + Starting + Picking + Paying));
  }

  lemma CountTwo(s: State)
    requires s.paid == [0, 0]
    ensures TimesPaid(s, 0) == 2
  {
    var none: seq<nat> := [];
    CountAppend(none, 0, IsId(0));
    CountAppend(none + [0], 0, IsId(0));
    assert none + [0] + [0] == s.paid;
  }
}
