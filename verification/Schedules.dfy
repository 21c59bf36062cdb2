/** Runs of the statement machine put together from shorter ones, and a first one that credits a player. */
module Schedules {
  import opened Accounts
  import opened Interleaving
  import opened Play

  lemma RunAllFirst(s: State, act: Act, rest: seq<Act>)
    ensures RunAll(s, [act] + rest) == RunAll(Next(s, act), rest)
  {
    assert ([act] + rest)[1..] == rest;
    hide Next;
  }

  lemma {:induction false} RunAllConcat(s: State, acts: seq<Act>, more: seq<Act>)
    ensures RunAll(s, acts + more) == RunAll(RunAll(s, acts), more)
    decreases |acts|
  {
    hide Next;
    if acts == [] {
      assert acts + more == more;
    } else {
      assert acts + more == [acts[0]] + (acts[1..] + more);
      RunAllFirst(s, acts[0], acts[1..] + more);
      RunAllConcat(Next(s, acts[0]), acts[1..], more);
    }
  }

  lemma TwoMore(s: State, a: Act, b: Act)
    ensures RunAll(s, [a, b]) == Next(Next(s, a), b)
  {
    assert [a, b] == [a] + [b] && [b] == [b] + [];
    RunAllFirst(s, a, [b]);
    RunAllFirst(Next(s, a), b, []);
    assert RunAll(Next(Next(s, a), b), []) == Next(Next(s, a), b);
    hide Next;
    hide RunAll;
  }

  lemma Onward(s: State, acts: seq<Act>, i: nat)
    requires i < |acts|
    ensures RunAll(s, acts[..0]) == s && RunAll(s, acts[..i + 1]) == Next(RunAll(s, acts[..i]), acts[i])
  {
    assert acts[..i + 1] == acts[..i] + ([acts[i]] + []);
    RunAllConcat(s, acts[..i], [acts[i]] + []);
    RunAllFirst(RunAll(s, acts[..i]), acts[i], []);
    var t := Next(RunAll(s, acts[..i]), acts[i]);
    assert RunAll(t, []) == t;
    hide Next;
  }

  /** One more act leads from one state of a run to the next. */
  lemma Then(s: State, acts: seq<Act>, i: nat, t: State, u: State)
    requires i < |acts| && RunAll(s, acts[..i]) == t && Next(t, acts[i]) == u
    ensures RunAll(s, acts[..i + 1]) == u
  {
    Onward(s, acts, i);
  }

  /** A deposit of 1.00 is quoted and credited. */
  const Funding: seq<Act> :=
    [Quote(0, 100), Spawn(SelectDeposit(0)), Act.Run(0), Act.Run(0), Act.Run(0), Act.Run(0), Act.Run(0)]

  const Rich: Wallet := NewWallet.(balance := 100, deposited := 100)
  const Paid: seq<Tx> := [Tx(0, DepositTx, Confirmed, 100)]

  function Quoted(p: Process): State {
    State(map[], [Tx(0, DepositTx, Pending, 100)], [], [p], [], [])
  }

  function Claimed(wallets: map<UserId, Wallet>, p: Process, applied: seq<nat>): State {
    State(wallets, Paid, [], [p], applied, [])
  }

  lemma QuoteSteps()
    ensures Next(Empty, Quote(0, 100)) == Quoted(Finished).(processes := [])
    ensures Next(Quoted(Finished).(processes := []), Spawn(SelectDeposit(0))) == Quoted(SelectDeposit(0))
    ensures Next(Quoted(SelectDeposit(0)), Act.Run(0)) == Quoted(ClaimDeposit(0, Pending))
  {
  }

  lemma ClaimStep()
    ensures Next(Quoted(ClaimDeposit(0, Pending)), Act.Run(0)) == Claimed(map[], EnsureWallet(0, 0, 100, Pending), [])
  {
  }

  lemma ToClaim(acts: seq<Act>)
    requires acts == Funding
    ensures RunAll(Empty, acts[..4]) == Claimed(map[], EnsureWallet(0, 0, 100, Pending), [])
  {
    hide RunAll;
    QuoteSteps();
    ClaimStep();
    Onward(Empty, acts, 0);
    hide Next;
    Then(Empty, acts, 0, Empty, Quoted(Finished).(processes := []));
    Then(Empty, acts, 1, Quoted(Finished).(processes := []), Quoted(SelectDeposit(0)));
    Then(Empty, acts, 2, Quoted(SelectDeposit(0)), Quoted(ClaimDeposit(0, Pending)));
    Then(Empty, acts, 3, Quoted(ClaimDeposit(0, Pending)), Claimed(map[], EnsureWallet(0, 0, 100, Pending), []));
  }

  lemma EnsureStep(due: Process)
    requires due == ApplyDeposit(0, 0, 100, Pending)
    ensures Next(Claimed(map[], EnsureWallet(0, 0, 100, Pending), []), Act.Run(0)) == Claimed(map[0 := NewWallet], due, [])
  {
    assert map[][0 := NewWallet] == map[0 := NewWallet];
  }

  lemma ApplyStep(due: Process)
    requires due == ApplyDeposit(0, 0, 100, Pending)
    ensures Next(Claimed(map[0 := NewWallet], due, []), Act.Run(0)) == Claimed(map[0 := Rich], StampBalance(0, 100), [0])
  {
    assert map[0 := NewWallet][0 := Rich] == map[0 := Rich];
  }

  lemma StampStep()
    ensures Next(Claimed(map[0 := Rich], StampBalance(0, 100), [0]), Act.Run(0)) == Claimed(map[0 := Rich], Finished, [0])
  {
  }

  lemma FromClaim(acts: seq<Act>)
    requires acts == Funding && RunAll(Empty, acts[..4]) == Claimed(map[], EnsureWallet(0, 0, 100, Pending), [])
    ensures RunAll(Empty, acts[..7]) == Claimed(map[0 := Rich], Finished, [0])
  {
    var due := ApplyDeposit(0, 0, 100, Pending);
    EnsureStep(due);
    ApplyStep(due);
    StampStep();
    hide RunAll;
    hide Next;
    hide Claimed;
    Then(Empty, acts, 4, Claimed(map[], EnsureWallet(0, 0, 100, Pending), []), Claimed(map[0 := NewWallet], due, []));
    Then(Empty, acts, 5, Claimed(map[0 := NewWallet], due, []), Claimed(map[0 := Rich], StampBalance(0, 100), [0]));
    Then(Empty, acts, 6, Claimed(map[0 := Rich], StampBalance(0, 100), [0]), Claimed(map[0 := Rich], Finished, [0]));
  }

  lemma Funded()
    ensures RunAll(Empty, Funding) == Claimed(map[0 := Rich], Finished, [0])
  {
    hide RunAll;
    ToClaim(Funding);
    FromClaim(Funding);
    assert Funding[..7] == Funding;
  }
}
