/** The locked balance one statement at a time: under the discipline of GridRounds it is the stakes of the open rounds. */
module GridLocks {
  import opened Accounts
  import opened GridRounds
  import opened Interleaving
  import opened Options
  import opened PlayMoney
  import opened Sums

  /** Some process has moved the round's stake out of the locked balance and is about to close it. */
  ghost predicate Closing(processes: seq<Process>, bet: nat) {
    exists k :: 0 <= k < |processes| && IsClosing(processes[k], bet)
  }

  /** The stake a round still locks for a user. */
  ghost function Share(s: State, user: UserId, bet: nat): nat {
    if bet < |s.bets| && s.bets[bet].isOpen && s.bets[bet].user == user && !Closing(s.processes, bet) then s.bets[bet].stake else 0
  }

  /** The stakes that the first n rounds lock. */
  ghost function Held(s: State, user: UserId, n: nat): nat {
    if n == 0 then 0 else Held(s, user, n - 1) + Share(s, user, n - 1)
  }

  /** A stake that is locked already while its round has yet to be stored. */
  function Entering(user: UserId): Process -> int {
    (p: Process) => if p.InsertBet? && p.job.Grid? && p.job.user == user then p.job.stake else 0
  }

  ghost predicate Locks(s: State, user: UserId) {
    WalletIn(s.wallets, user).locked == Held(s, user, |s.bets|) + Sum(s.processes, Entering(user))
  }

  lemma {:induction false} HeldAtLeast(s: State, user: UserId, n: nat, bet: nat)
    requires bet < n
    ensures Held(s, user, n) >= Share(s, user, bet)
  {
    hide Share;
    if bet < n - 1 {
      HeldAtLeast(s, user, n - 1, bet);
    }
  }

  /** If only one round's share changes, what is held changes by that much. */
  lemma {:induction false} HeldChanges(s: State, t: State, user: UserId, n: nat, bet: nat)
    requires forall b: nat :: b < n && b != bet ==> Share(t, user, b) == Share(s, user, b)
    ensures Held(t, user, n) == Held(s, user, n) + (if bet < n then Share(t, user, bet) - Share(s, user, bet) else 0)
  {
    hide Share;
    if n > 0 {
      HeldChanges(s, t, user, n - 1, bet);
    }
  }

  /** Whether a round is being closed changes only with the process that acts on it. */
  lemma ClosingStays(processes: seq<Process>, k: nat, next: Process, bet: nat)
    requires k < |processes| && !IsClosing(processes[k], bet) && !IsClosing(next, bet)
    ensures Closing(processes[k := next], bet) <==> Closing(processes, bet)
  {
    var after := processes[k := next];
    forall j | 0 <= j < |processes|
      ensures IsClosing(after[j], bet) == IsClosing(processes[j], bet)
    {
    }
    hide IsClosing;
  }

  /** On the round that a process acts on, nobody else is closing. */
  lemma ClosingIsOwn(processes: seq<Process>, k: nat, next: Process, bet: nat)
    requires Exclusive(processes) && k < |processes| && ActsOn(processes[k]) == Some(bet)
    ensures Closing(processes, bet) <==> IsClosing(processes[k], bet)
    ensures Closing(processes[k := next], bet) <==> IsClosing(next, bet)
  {
    forall j | 0 <= j < |processes| && j != k
      ensures !IsClosing(processes[j], bet)
    {
      assert Apart(processes[j], processes[k]);
    }
    assert processes[k := next][k] == next;
  }

  /** How one statement moves a user's locked balance, and the share of the round it acts on. */
  lemma StatementLocks(s: State, p: Process, user: UserId)
    requires Acting(s, p) && Remembers(s, p)
    requires p.ReleaseStake? || p.PayWallet? ==> p.user in s.wallets && s.wallets[p.user].locked >= p.stake
    ensures var (write, next) := Statement(s, p);
            var t := Written(s, write);
            WalletIn(t.wallets, user).locked - WalletIn(s.wallets, user).locked
            == (if (p.ReleaseStake? || p.PayWallet?) && p.user == user then -(p.stake as int) else 0)
               + Entering(user)(next) - Entering(user)(p)
               + (if p.InsertBet? && p.job.Grid? && p.job.user == user then p.job.stake else 0)
  {
    hide PayoutFor;
    hide JobRows;
  }

  /** The stake that a process is about to release is locked, so the release is never clipped at zero. */
  lemma ReleaseIsCovered(s: State, k: nat)
    requires Inv(s) && Orderly(s) && k < |s.processes| && (s.processes[k].ReleaseStake? || s.processes[k].PayWallet?)
    requires Locks(s, s.processes[k].user)
    ensures var p := s.processes[k];
            p.user in s.wallets && s.wallets[p.user].locked >= p.stake
  {
    var p := s.processes[k];
    assert Acting(s, p) && Remembers(s, p);
    ClosingIsOwn(s.processes, k, p, p.bet);
    HeldAtLeast(s, p.user, |s.bets|, p.bet);
    EnteringNotNegative(s.processes, p.user);
    hide Inv;
    hide Orderly;
    hide Held;
    hide Closing;
  }

  lemma EnteringNotNegative(processes: seq<Process>, user: UserId)
    ensures Sum(processes, Entering(user)) >= 0
  {
    SumNonNegative(processes, Entering(user));
  }

  /** Rounds that the process does not act on keep their share. */
  lemma OtherShares(s: State, k: nat, user: UserId, bet: nat)
    requires Orderly(s) && k < |s.processes| && bet < |s.bets| && ActsOn(s.processes[k]) != Some(bet)
    ensures Share(Next(s, Act.Run(k)), user, bet) == Share(s, user, bet)
  {
    var p := s.processes[k];
    var (write, next) := Statement(s, p);
    NextRun(s, k);
    StatementTouchesOwn(s, p, bet);
    StatementStaysOn(s, p);
    NotClosing(p, bet);
    NotClosing(next, bet);
    ClosingStays(s.processes, k, next, bet);
    hide Statement;
    hide Written;
    hide Next;
    hide Closing;
    hide Orderly;
    hide ActsOn;
  }

  lemma NotClosing(p: Process, bet: nat)
    ensures ActsOn(p) != Some(bet) ==> !IsClosing(p, bet)
  {
  }

  /** The round it acts on loses its share exactly when the stake is released. */
  lemma OwnShare(s: State, k: nat, user: UserId, bet: nat)
    requires Orderly(s) && k < |s.processes| && bet < |s.bets| && ActsOn(s.processes[k]) == Some(bet) && Remembers(s, s.processes[k])
    ensures var p := s.processes[k];
            Share(Next(s, Act.Run(k)), user, bet) - Share(s, user, bet)
            == if (p.ReleaseStake? || p.PayWallet?) && p.user == user then -(p.stake as int) else 0
  {
    var p := s.processes[k];
    var (write, next) := Statement(s, p);
    assert Acting(s, p);
    NextRun(s, k);
    ClosingIsOwn(s.processes, k, next, bet);
    OwnRound(s, p, bet);
    hide Statement;
    hide Written;
    hide Next;
    hide Closing;
    hide Orderly;
  }

  lemma OwnRound(s: State, p: Process, bet: nat)
    requires bet < |s.bets| && ActsOn(p) == Some(bet) && Acting(s, p) && Remembers(s, p)
    ensures var (write, next) := Statement(s, p);
            var t := Written(s, write);
            && |t.bets| == |s.bets| && t.bets[bet].user == s.bets[bet].user && t.bets[bet].stake == s.bets[bet].stake
            && (p.ReleaseStake? || p.PayWallet? ==> IsClosing(next, bet) && s.bets[bet].isOpen && !IsClosing(p, bet)
                                                    && p.user == s.bets[bet].user && p.stake == s.bets[bet].stake)
            && (IsClosing(p, bet) ==> !t.bets[bet].isOpen)
            && (!p.ReleaseStake? && !p.PayWallet? && !IsClosing(p, bet) ==> !IsClosing(next, bet) && t.bets[bet].isOpen == s.bets[bet].isOpen)
  {
    hide PayoutFor;
  }

  /** A new round brings its stake with it. */
  lemma NewShare(s: State, k: nat, user: UserId)
    requires Orderly(s) && k < |s.processes| && s.processes[k].InsertBet?
    ensures var after := Next(s, Act.Run(k));
            && |after.bets| == |s.bets| + 1
            && Share(after, user, |s.bets|) == if s.processes[k].job.Grid? && s.processes[k].job.user == user then s.processes[k].job.stake else 0
  {
    var after := Next(s, Act.Run(k));
    forall j | 0 <= j < |after.processes|
      ensures !IsClosing(after.processes[j], |s.bets|)
    {
      assert Acting(s, s.processes[j]);
    }
  }

  /** Other statements add no round. */
  lemma NoNewRound(s: State, k: nat)
    requires k < |s.processes| && !s.processes[k].InsertBet?
    ensures |Next(s, Act.Run(k)).bets| == |s.bets|
  {
    hide PayoutFor;
    hide JobRows;
  }

  lemma HeldMoves(s: State, k: nat, user: UserId)
    requires Inv(s) && Orderly(s) && k < |s.processes|
    ensures var p, after := s.processes[k], Next(s, Act.Run(k));
            Held(after, user, |after.bets|) - Held(s, user, |s.bets|)
            == (if (p.ReleaseStake? || p.PayWallet?) && p.user == user then -(p.stake as int) else 0)
               + (if p.InsertBet? && p.job.Grid? && p.job.user == user then p.job.stake else 0)
  {
    var p, after, n := s.processes[k], Next(s, Act.Run(k)), |s.bets|;
    assert Remembers(s, p) && Acting(s, p);
    var own := if ActsOn(p).Some? then ActsOn(p).value else n;
    forall b: nat | b < n && b != own
      ensures Share(after, user, b) == Share(s, user, b)
    {
      OtherShares(s, k, user, b);
    }
    HeldChanges(s, after, user, n, own);
    if p.InsertBet? {
      NewShare(s, k, user);
    } else {
      NoNewRound(s, k);
      if ActsOn(p).Some? && own < n {
        OwnShare(s, k, user, own);
      }
    }
    hide Share;
    hide Next;
    hide Orderly;
    hide Inv;
  }

  lemma RunKeepsLocks(s: State, k: nat, user: UserId)
    requires Inv(s) && Orderly(s) && k < |s.processes| && forall u :: Locks(s, u)
    ensures Locks(Next(s, Act.Run(k)), user)
  {
    var p := s.processes[k];
    var (write, next) := Statement(s, p);
    assert Acting(s, p) && Remembers(s, p) && Locks(s, user);
    if p.ReleaseStake? || p.PayWallet? {
      ReleaseIsCovered(s, k);
    }
    StatementLocks(s, p, user);
    HeldMoves(s, k, user);
    SumUpdate(s.processes, k, next, Entering(user));
    NextRun(s, k);
    hide Inv;
    hide Orderly;
    hide Next;
    hide Statement;
    hide Written;
    hide Held;
    hide Sum;
    hide Entering;
    hide Acting;
    hide Remembers;
  }

  ghost predicate AllLocks(s: State) {
    forall user :: Locks(s, user)
  }

  /** Requests that come and go without acting keep what is locked. */
  lemma IdleKeepsLocks(s: State, t: State, user: UserId)
    requires Locks(s, user) && t.wallets == s.wallets && t.bets == s.bets
    requires forall bet :: Closing(t.processes, bet) <==> Closing(s.processes, bet)
    requires Sum(t.processes, Entering(user)) == Sum(s.processes, Entering(user))
    ensures Locks(t, user)
  {
    forall b: nat
      ensures Share(t, user, b) == Share(s, user, b)
    {
    }
    hide Share;
    hide Closing;
    HeldChanges(s, t, user, |s.bets|, |s.bets|);
  }

  lemma SpawnKeepsLocks(s: State, request: Process)
    requires AllLocks(s) && IsRequest(request)
    ensures AllLocks(s.(processes := s.processes + [request]))
  {
    var t := s.(processes := s.processes + [request]);
    forall bet
      ensures Closing(t.processes, bet) <==> Closing(s.processes, bet)
    {
      assert forall j :: 0 <= j < |s.processes| ==> t.processes[j] == s.processes[j];
      if Closing(s.processes, bet) {
        var j :| 0 <= j < |s.processes| && IsClosing(s.processes[j], bet);
        assert IsClosing(t.processes[j], bet);
      }
    }
    hide Closing;
    forall user
      ensures Locks(t, user)
    {
      assert Locks(s, user);
      SumAppend(s.processes, request, Entering(user));
      IdleKeepsLocks(s, t, user);
    }
    hide Locks;
  }

  lemma RejectKeepsLocks(s: State, k: nat)
    requires AllLocks(s) && k < |s.processes| && MayBeRefused(s.processes[k])
    ensures AllLocks(s.(processes := s.processes[k := Finished]))
  {
    var t := s.(processes := s.processes[k := Finished]);
    forall bet
      ensures Closing(t.processes, bet) <==> Closing(s.processes, bet)
    {
      ClosingStays(s.processes, k, Finished, bet);
    }
    hide Closing;
    forall user
      ensures Locks(t, user)
    {
      assert Locks(s, user);
      SumUpdate(s.processes, k, Finished, Entering(user));
      IdleKeepsLocks(s, t, user);
    }
    hide Locks;
  }

  lemma NextKeepsLocks(s: State, act: Act)
    requires Inv(s) && Orderly(s) && AllLocks(s)
    ensures AllLocks(Next(s, act))
  {
    hide Inv;
    hide Orderly;
    hide Statement;
    match act
    case Run(k) =>
      if k < |s.processes| {
        forall user
          ensures Locks(Next(s, act), user)
        {
          RunKeepsLocks(s, k, user);
        }
        hide Next;
        hide Locks;
      }
    case Spawn(request) =>
      hide AllLocks;
      if IsRequest(request) {
        SpawnKeepsLocks(s, request);
      }
    case Reject(k) =>
      hide AllLocks;
      if k < |s.processes| && MayBeRefused(s.processes[k]) {
        RejectKeepsLocks(s, k);
      }
    case Quote(user, amount) =>
      forall u
        ensures Locks(Next(s, act), u)
      {
        assert Locks(s, u);
        IdleKeepsLocks(s, Next(s, act), u);
      }
      hide Locks;
  }

  lemma {:induction false} RunAllKeepsLocks(s: State, acts: seq<Act>)
    requires Inv(s) && Orderly(s) && AllLocks(s) && OneAtATime(s, acts)
    ensures AllLocks(RunAll(s, acts)) && Orderly(RunAll(s, acts)) && Inv(RunAll(s, acts))
    decreases |acts|
  {
    hide Inv;
    hide Orderly;
    hide AllLocks;
    hide Next;
    hide Allowed;
    if acts != [] {
      NextKeeps(s, acts[0]);
      NextKeepsOrderly(s, acts[0]);
      NextKeepsLocks(s, acts[0]);
      RunAllKeepsLocks(Next(s, acts[0]), acts[1..]);
    }
  }

  function OpenGridStake(user: UserId): BetRow -> int {
    (b: BetRow) => if b.isOpen && b.user == user then b.stake else 0
  }

  lemma {:induction false} HeldIsSum(s: State, user: UserId, n: nat)
    requires n <= |s.bets| && forall bet :: !Closing(s.processes, bet)
    ensures Held(s, user, n) == Sum(s.bets[..n], OpenGridStake(user))
  {
    if n > 0 {
      HeldIsSum(s, user, n - 1);
      assert s.bets[..n] == s.bets[..n - 1] + [s.bets[n - 1]];
      SumAppend(s.bets[..n - 1], s.bets[n - 1], OpenGridStake(user));
    }
    hide Closing;
    hide Sum;
  }

  /**
   * Under every statement order in which no two unfinished processes act on one round, a locked balance is the stakes of the
   * open rounds plus and minus what is in flight, exactly their stakes once all requests have finished, and a release of a
   * stake is never clipped at zero.
   */
  lemma LockedIsOpenStakes(acts: seq<Act>, user: UserId)
    requires OneAtATime(Empty, acts)
    ensures var s := RunAll(Empty, acts);
            && WalletIn(s.wallets, user).locked == Held(s, user, |s.bets|) + Sum(s.processes, Entering(user))
            && (AllFinished(s) ==> WalletIn(s.wallets, user).locked == Sum(s.bets, OpenGridStake(user)))
            && (forall p <- s.processes :: (p.ReleaseStake? || p.PayWallet?) && p.user == user
                                           ==> WalletIn(s.wallets, user).locked >= p.stake)
  {
    hide *;
    EmptyHolds();
    RunAllKeepsLocks(Empty, acts);
    LocksMean(RunAll(Empty, acts), user);
    if AllFinished(RunAll(Empty, acts)) {
      FinishedLocks(RunAll(Empty, acts), user);
    }
  }

  lemma LocksMean(s: State, user: UserId)
    requires AllLocks(s) && Inv(s) && Orderly(s)
    ensures WalletIn(s.wallets, user).locked == Held(s, user, |s.bets|) + Sum(s.processes, Entering(user))
    ensures forall p <- s.processes :: (p.ReleaseStake? || p.PayWallet?) && p.user == user ==> WalletIn(s.wallets, user).locked >= p.stake
  {
    assert Locks(s, user);
    hide Inv;
    hide Orderly;
    hide Held;
    hide Sum;
    hide AllLocks;
    forall k | 0 <= k < |s.processes| && (s.processes[k].ReleaseStake? || s.processes[k].PayWallet?) && s.processes[k].user == user
      ensures WalletIn(s.wallets, user).locked >= s.processes[k].stake
    {
      ReleaseIsCovered(s, k);
    }
  }

  lemma NobodyCloses(processes: seq<Process>, bet: nat)
    requires forall p <- processes :: p.Finished?
    ensures !Closing(processes, bet)
  {
    forall k | 0 <= k < |processes|
      ensures !IsClosing(processes[k], bet)
    {
      assert processes[k] in processes;
    }
  }

  lemma FinishedLocks(s: State, user: UserId)
    requires AllFinished(s)
    ensures Held(s, user, |s.bets|) == Sum(s.bets, OpenGridStake(user)) && Sum(s.processes, Entering(user)) == 0
  {
    forall bet
      ensures !Closing(s.processes, bet)
    {
      NobodyCloses(s.processes, bet);
    }
    SumOfZeros(s.processes, Entering(user));
    hide Closing;
    HeldIsSum(s, user, |s.bets|);
    assert s.bets[..|s.bets|] == s.bets;
    hide Sum;
    hide Held;
  }

  lemma EmptyHolds()
    ensures Inv(Empty) && Orderly(Empty) && AllLocks(Empty)
  {
    EmptyIsInv();
    EmptyIsOrderly();
    hide Inv;
    hide Orderly;
  }
}
