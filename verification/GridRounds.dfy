/**
 * Grid rounds one statement at a time, under the discipline that no two unfinished processes act on one round: what a process
 * has read of its round is then still so when it updates it.
 */
module GridRounds {
  import opened Accounts
  import opened Interleaving
  import opened Options
  import opened Sums

  /** The grid bet a process reads or updates from its next statement on. */
  function ActsOn(p: Process): Option<nat> {
    match p
    case SelectBet(bet, _) => Some(bet)
    case ReleaseStake(bet, _, _, _) => Some(bet)
    case CloseLost(bet, _, _, _) => Some(bet)
    case StorePick(bet, _, _, _) => Some(bet)
    case PayWallet(bet, _, _, _) => Some(bet)
    case ClosePaid(bet, _, _, _) => Some(bet)
    case _ => None
  }

  predicate Apart(p: Process, q: Process) {
    ActsOn(p).None? || ActsOn(p) != ActsOn(q)
  }

  predicate Exclusive(processes: seq<Process>) {
    forall j, k :: 0 <= j < |processes| && 0 <= k < |processes| && j != k ==> Apart(processes[j], processes[k])
  }

  /** What a process on a round may rely on. */
  predicate Acting(s: State, p: Process) {
    match p
    case SelectBet(_, _) => true
    case ReleaseStake(bet, user, stake, _) => IsOpenBet(s, bet, user, stake)
    case CloseLost(bet, user, stake, _) => IsOpenBet(s, bet, user, stake)
    case PayWallet(bet, user, stake, _) => IsOpenBet(s, bet, user, stake)
    case StorePick(bet, _, _, _) => bet < |s.bets| && s.bets[bet].isOpen
    case ClosePaid(bet, user, stake, _) => IsOpenBet(s, bet, user, stake)
    case _ => true
  }

  predicate IsOpenBet(s: State, bet: nat, user: UserId, stake: nat) {
    bet < |s.bets| && s.bets[bet].isOpen && s.bets[bet].user == user && s.bets[bet].stake == stake
  }

  predicate IsClosing(p: Process, bet: nat) {
    (p.CloseLost? || p.ClosePaid?) && p.bet == bet
  }

  ghost predicate Orderly(s: State) {
    && Exclusive(s.processes)
    && (forall k :: 0 <= k < |s.processes| ==> Acting(s, s.processes[k]))
  }

  /** A request on a round that nobody else is acting on. */
  predicate Allowed(s: State, act: Act) {
    act.Spawn? ==> forall k :: 0 <= k < |s.processes| ==> Apart(act.request, s.processes[k])
  }

  /** A round as another process left it. */
  predicate SameRoundAt(s: State, t: State, bet: nat) {
    bet < |s.bets| ==> bet < |t.bets| && t.bets[bet] == s.bets[bet]
  }

  /** A statement changes no round but the one its process acts on. */
  lemma StatementTouchesOwn(s: State, p: Process, bet: nat)
    requires ActsOn(p) != Some(bet)
    ensures SameRoundAt(s, Written(s, Statement(s, p).0), bet)
  {
    hide PayoutFor;
    hide JobRows;
    hide Count;
  }

  lemma StatementStaysOn(s: State, p: Process)
    ensures ActsOn(Statement(s, p).1) == None || ActsOn(Statement(s, p).1) == ActsOn(p)
  {
    hide PayoutFor;
    hide JobRows;
  }

  lemma ActingStays(s: State, t: State, p: Process)
    requires Acting(s, p) && (ActsOn(p).Some? ==> SameRoundAt(s, t, ActsOn(p).value))
    ensures Acting(t, p)
  {
  }

  /** What a process relies on at its next statement, given that nobody else acts on its round. */
  lemma StatementActs(s: State, k: nat)
    requires Orderly(s) && k < |s.processes| && Remembers(s, s.processes[k])
    ensures var (write, next) := Statement(s, s.processes[k]);
            Acting(Written(s, write), next)
  {
    assert Acting(s, s.processes[k]);
    hide PayoutFor;
    hide JobRows;
    hide Count;
    hide Orderly;
  }

  lemma RunKeepsExclusive(s: State, k: nat)
    requires Exclusive(s.processes) && k < |s.processes|
    ensures Exclusive(Next(s, Act.Run(k)).processes)
  {
    var (write, next) := Statement(s, s.processes[k]);
    var after := Next(s, Act.Run(k)).processes;
    NextRun(s, k);
    StatementStaysOn(s, s.processes[k]);
    hide Statement;
    hide Next;
    forall i, j | 0 <= i < |after| && 0 <= j < |after| && i != j
      ensures Apart(after[i], after[j])
    {
      assert Apart(s.processes[i], s.processes[j]);
    }
    hide ActsOn;
  }

  lemma RunKeepsActing(s: State, k: nat, j: nat)
    requires Orderly(s) && k < |s.processes| && j < |s.processes| && Remembers(s, s.processes[k])
    ensures Acting(Next(s, Act.Run(k)), Next(s, Act.Run(k)).processes[j])
  {
    var p := s.processes[k];
    var (write, next) := Statement(s, p);
    var t, after := Written(s, write), Next(s, Act.Run(k));
    NextRun(s, k);
    if j == k {
      StatementActs(s, k);
    } else {
      var q := s.processes[j];
      assert Apart(q, p) && Acting(s, q);
      if ActsOn(q).Some? {
        StatementTouchesOwn(s, p, ActsOn(q).value);
      }
      ActingStays(s, t, q);
    }
    hide Statement;
    hide Next;
    hide Written;
    hide Orderly;
    ActingIgnoresProcesses(t, after.processes, after.processes[j]);
  }

  lemma ActingIgnoresProcesses(s: State, processes: seq<Process>, p: Process)
    ensures Acting(s.(processes := processes), p) == Acting(s, p)
  {
  }

  lemma RunKeepsOrderly(s: State, k: nat)
    requires Inv(s) && Orderly(s) && k < |s.processes|
    ensures Orderly(Next(s, Act.Run(k)))
  {
    var after := Next(s, Act.Run(k));
    assert Remembers(s, s.processes[k]);
    NextRun(s, k);
    RunKeepsExclusive(s, k);
    hide Inv;
    hide Next;
    hide Statement;
    hide Remembers;
    hide Exclusive;
    hide Acting;
    forall j | 0 <= j < |after.processes|
      ensures Acting(after, after.processes[j])
    {
      RunKeepsActing(s, k, j);
    }
  }

  /** A process that only begins, or leaves before it has taken a stake, disturbs no round. */
  lemma SpawnKeepsOrderly(s: State, request: Process)
    requires Orderly(s) && IsRequest(request) && Allowed(s, Spawn(request))
    ensures Orderly(s.(processes := s.processes + [request]))
  {
    var after := s.(processes := s.processes + [request]);
    forall i, j | 0 <= i < |after.processes| && 0 <= j < |after.processes| && i != j
      ensures Apart(after.processes[i], after.processes[j])
    {
      if i < |s.processes| && j < |s.processes| {
        assert Apart(s.processes[i], s.processes[j]);
      } else if j < |s.processes| {
        assert Apart(request, s.processes[j]);
      } else {
        assert Apart(request, s.processes[i]);
      }
    }
    forall k | 0 <= k < |after.processes|
      ensures Acting(after, after.processes[k])
    {
      if k < |s.processes| {
        ActingIgnoresProcesses(s, after.processes, s.processes[k]);
      }
    }
    hide IsClosing;
    hide ActsOn;
  }

  lemma RejectKeepsOrderly(s: State, k: nat)
    requires Orderly(s) && k < |s.processes| && MayBeRefused(s.processes[k])
    ensures Orderly(s.(processes := s.processes[k := Finished]))
  {
    var after := s.(processes := s.processes[k := Finished]);
    forall i, j | 0 <= i < |after.processes| && 0 <= j < |after.processes| && i != j
      ensures Apart(after.processes[i], after.processes[j])
    {
      assert Apart(s.processes[i], s.processes[j]);
    }
    forall j | 0 <= j < |after.processes|
      ensures Acting(after, after.processes[j])
    {
      ActingIgnoresProcesses(s, after.processes, s.processes[j]);
    }
  }

  lemma QuoteKeepsOrderly(s: State, user: UserId, amount: nat)
    requires Orderly(s)
    ensures Orderly(Next(s, Quote(user, amount)))
  {
    var after := Next(s, Quote(user, amount));
    forall k | 0 <= k < |after.processes|
      ensures Acting(after, after.processes[k])
    {
      assert Acting(s, s.processes[k]);
    }
  }

  lemma NextKeepsOrderly(s: State, act: Act)
    requires Inv(s) && Orderly(s) && Allowed(s, act)
    ensures Orderly(Next(s, act))
  {
    hide Inv;
    hide Orderly;
    hide Allowed;
    hide Statement;
    match act
    case Run(k) =>
      if k < |s.processes| {
        RunKeepsOrderly(s, k);
      }
    case Spawn(request) =>
      if IsRequest(request) {
        SpawnKeepsOrderly(s, request);
      }
    case Reject(k) =>
      if k < |s.processes| && MayBeRefused(s.processes[k]) {
        RejectKeepsOrderly(s, k);
      }
    case Quote(user, amount) => QuoteKeepsOrderly(s, user, amount);
  }

  /** A run in which no request comes in on a round that another is still acting on. */
  predicate OneAtATime(s: State, acts: seq<Act>)
    decreases |acts|
  {
    acts == [] || (Allowed(s, acts[0]) && OneAtATime(Next(s, acts[0]), acts[1..]))
  }

  lemma {:induction false} RunAllKeepsOrderly(s: State, acts: seq<Act>)
    requires Inv(s) && Orderly(s) && OneAtATime(s, acts)
    ensures Orderly(RunAll(s, acts))
    decreases |acts|
  {
    hide Inv;
    hide Orderly;
    hide Next;
    hide Allowed;
    if acts != [] {
      NextKeeps(s, acts[0]);
      NextKeepsOrderly(s, acts[0]);
      RunAllKeepsOrderly(Next(s, acts[0]), acts[1..]);
    }
  }

  lemma EmptyIsOrderly()
    ensures Orderly(Empty)
  {
  }
}
