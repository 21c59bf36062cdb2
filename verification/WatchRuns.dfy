/**
 * Runs of chain scans and simulate scans, interleaved deposit by deposit with each other, with new quotes and with other
 * processes that take deposits out of the watcher's hands.
 */
module WatchRuns {
  import opened Arithmetic
  import opened Accounts
  import opened Coins
  import opened Options
  import opened Sums
  import opened Watch

  /** A scan under way: what it read when it began, how far it is, and the hashes it no longer accepts. */
  datatype Scanning = Scanning(pending: seq<Entry>, next: nat, credited: set<string>)

  /** At most one scan of each mode is under way, as the two flags ensure. */
  datatype State = State(deposits: seq<Deposit>, scans: map<Mode, Scanning>)

  datatype Act =
    | Begin(mode: Mode)
    | Step(mode: Mode, w: World)
    | Quote(user: UserId, deposit: Deposit)
    | Elsewhere(id: nat, status: TxStatus, meta: Metadata)

  /** Another process confirms, flags or cancels a deposit that the watcher has not confirmed; a rehearsal stays one. */
  predicate MayMove(d: Deposit, status: TxStatus, meta: Metadata) {
    IsCreditable(d) && status != Pending && (meta.simulate.Some? <==> d.meta.simulate.Some?)
  }

  function Next(s: State, act: Act): State {
    match act
    case Begin(mode) =>
      if mode in s.scans then s
      else s.(scans := s.scans[mode := Scanning(PendingEntries(s.deposits, |s.deposits|), 0, CreditedHashes(s.deposits))])
    case Step(mode, w) =>
      if mode !in s.scans then s
      else
        var scan := s.scans[mode];
        if scan.next >= |scan.pending| then s.(scans := s.scans - {mode})
        else
          var (deposits, hashes) := Inspected(s.deposits, scan.pending[scan.next], scan.pending, scan.credited, mode, w);
          State(deposits, s.scans[mode := scan.(next := scan.next + 1, credited := hashes)])
    case Quote(user, deposit) =>
      s.(deposits := s.deposits + [deposit.(user := user, status := Pending, creditedBy := None)])
    case Elsewhere(id, status, meta) =>
      if id < |s.deposits| && MayMove(s.deposits[id], status, meta)
      then s.(deposits := s.deposits[id := s.deposits[id].(status := status, meta := meta)]) else s
  }

  function RunWatch(s: State, acts: seq<Act>): State
    decreases |acts|
  {
    if acts == [] then s else RunWatch(Next(s, acts[0]), acts[1..])
  }

  const Idle: State := State([], map[])

  predicate ByChain(d: Deposit) {
    d.status == Confirmed && d.creditedBy == Some(Chain)
  }

  /** No two deposits confirmed by chain scans carry the same hash. */
  ghost predicate HashesDiffer(deposits: seq<Deposit>) {
    forall i, j :: 0 <= i < j < |deposits| && ByChain(deposits[i]) && ByChain(deposits[j]) && deposits[i].meta.txHash != ""
             ==> deposits[i].meta.txHash != deposits[j].meta.txHash
  }

  /** A chain scan under way knows all their hashes. */
  predicate Knows(deposits: seq<Deposit>, credited: set<string>) {
    forall d <- deposits :: ByChain(d) && d.meta.txHash != "" ==> d.meta.txHash in credited
  }

  /** An entry still to be inspected: the row is of the kind it was, and nobody has touched it while it is pending. */
  predicate Current(deposits: seq<Deposit>, mode: Mode, e: Entry) {
    && e.id < |deposits| && (deposits[e.id].meta.simulate.Some? <==> e.read.meta.simulate.Some?)
    && (Handles(mode, e.read) && deposits[e.id].status == Pending ==> deposits[e.id].meta == e.read.meta)
    && (Handles(mode, e.read) ==> !ByChain(deposits[e.id]))
  }

  predicate InStep(deposits: seq<Deposit>, mode: Mode, scan: Scanning) {
    && scan.next <= |scan.pending|
    && (forall i, j :: 0 <= i < j < |scan.pending| ==> scan.pending[i].id > scan.pending[j].id)
    && (forall k :: scan.next <= k < |scan.pending| ==> Current(deposits, mode, scan.pending[k]))
  }

  /** Chain scans confirm real payments only. */
  predicate Kinds(deposits: seq<Deposit>) {
    forall d <- deposits :: d.creditedBy == Some(Chain) ==> d.status == Confirmed && d.meta.simulate.None?
  }

  ghost predicate Inv(s: State) {
    && HashesDiffer(s.deposits)
    && Kinds(s.deposits)
    && (forall mode :: mode in s.scans ==> InStep(s.deposits, mode, s.scans[mode]))
    && (Chain in s.scans ==> Knows(s.deposits, s.scans[Chain].credited))
  }

  /** What a verdict can do to a row that no chain scan has confirmed. */
  lemma CarriedRow(row: Deposit, read: Deposit, verdict: Verdict, mode: Mode)
    requires !ByChain(row) && (row.creditedBy == Some(Chain) ==> row.status == Confirmed)
    requires Handles(mode, read) && (row.meta.simulate.Some? <==> read.meta.simulate.Some?)
    ensures var (after, hashes) := Carried(row, read, verdict, mode);
            && (after.meta.simulate.Some? <==> read.meta.simulate.Some?)
            && (after.creditedBy == Some(Chain) ==> ByChain(after) && mode == Chain)
            && (ByChain(after) ==> verdict.Credit? && after.meta.txHash == verdict.payment.hash && hashes == {verdict.payment.hash})
  {
  }

  lemma CreditIsFresh(deposits: seq<Deposit>, entry: Entry, pending: seq<Entry>, credited: set<string>, mode: Mode, w: World)
    requires Judge(deposits, entry, pending, credited, mode, w).Credit?
    ensures Judge(deposits, entry, pending, credited, mode, w).payment.hash !in credited
  {
    hide Reasons;
    hide Incoming;
    hide FirstOfKind;
  }

  /** A scan records, flags or credits no payment whose hash a deposit had already spent, or was under review for, when it began. */
  lemma SpentHashesAreSkipped(before: seq<Deposit>, deposits: seq<Deposit>, entry: Entry, pending: seq<Entry>, credited: set<string>,
                              mode: Mode, w: World, d: Deposit)
    requires CreditedHashes(before) <= credited && d in before && d.meta.txHash != ""
    requires d.status == Confirmed || d.status == TxStatus.Review
    requires HasPayment(Judge(deposits, entry, pending, credited, mode, w))
    ensures Judge(deposits, entry, pending, credited, mode, w).payment.hash != d.meta.txHash
  {
    assert d.meta.txHash in CreditedHashes(before);
    hide CreditedHashes;
    hide Reasons;
    hide Incoming;
    hide FirstOfKind;
  }

  /** A rehearsed payment only moves forward and never past what is required, and is complete once enough time has passed. */
  lemma RehearsalCountsUp(entry: Entry, required: int, now: int)
    requires entry.read.meta.simulate.Some?
    ensures var body, p := entry.read.meta.simulate.value, SimulatedIncoming(entry, required, now);
            var appearAt := if body.appearAt.Some? then body.appearAt.value else entry.read.createdAt + 8000;
            && (p.Some? ==> p.value.amount == body.amount > 0.0 && p.value.hash != "" && now >= appearAt
                            && p.value.confirmations <= required && body.confirmations < p.value.confirmations
                            && 0 < p.value.confirmations && 4000 * (p.value.confirmations - 1) <= now - appearAt)
            && (body.amount > 0.0 && body.confirmations < required && 0 < required && now >= appearAt + 4000 * (required - 1)
                ==> p.Some? && p.value.confirmations == required)
  {
    hide Digits;
  }

  /** Putting a row with a new hash, or one that no chain scan confirmed, keeps the hashes apart. */
  lemma HashesStayApart(deposits: seq<Deposit>, id: nat, row: Deposit)
    requires HashesDiffer(deposits) && id < |deposits| && !ByChain(deposits[id])
    requires ByChain(row) && row.meta.txHash != "" ==> forall d <- deposits :: ByChain(d) && d.meta.txHash != "" ==> d.meta.txHash != row.meta.txHash
    ensures HashesDiffer(deposits[id := row])
  {
    var after := deposits[id := row];
    forall i, j | 0 <= i < j < |after| && ByChain(after[i]) && ByChain(after[j]) && after[i].meta.txHash != ""
      ensures after[i].meta.txHash != after[j].meta.txHash
    {
      assert i != id ==> deposits[i] in deposits;
      assert j != id ==> deposits[j] in deposits;
    }
  }

  /** The inspection of the entry a scan has reached. */
  lemma InspectKeeps(deposits: seq<Deposit>, mode: Mode, scan: Scanning, w: World)
    requires HashesDiffer(deposits) && Kinds(deposits) && InStep(deposits, mode, scan) && scan.next < |scan.pending|
    requires mode == Chain ==> Knows(deposits, scan.credited)
    ensures var (after, hashes) := Inspected(deposits, scan.pending[scan.next], scan.pending, scan.credited, mode, w);
            HashesDiffer(after) && Kinds(after) && (mode == Chain ==> Knows(after, hashes))
  {
    var entry := scan.pending[scan.next];
    assert Current(deposits, mode, entry);
    if Handles(mode, entry.read) {
      var row := deposits[entry.id];
      assert row in deposits;
      var verdict := Judge(deposits, entry, scan.pending, scan.credited, mode, w);
      var (after, hashes) := Carried(row, entry.read, verdict, mode);
      CarriedRow(row, entry.read, verdict, mode);
      if verdict.Credit? {
        CreditIsFresh(deposits, entry, scan.pending, scan.credited, mode, w);
      }
      hide Carried;
      hide Judge;
      hide HashesDiffer;
      HashesStayApart(deposits, entry.id, after);
    }
  }

  /** Inspecting one entry leaves the other entries of both scans as they were. */
  lemma OthersStayCurrent(deposits: seq<Deposit>, mode: Mode, e: Entry, id: nat, row: Deposit)
    requires Current(deposits, mode, e) && id < |deposits|
    requires row.meta.simulate.Some? <==> deposits[id].meta.simulate.Some?
    requires id != e.id || !Handles(mode, deposits[id])
    ensures Current(deposits[id := row], mode, e)
  {
  }

  lemma StepStaysInStep(deposits: seq<Deposit>, mode: Mode, scan: Scanning, w: World)
    requires Kinds(deposits) && InStep(deposits, mode, scan) && scan.next < |scan.pending|
    ensures var (after, hashes) := Inspected(deposits, scan.pending[scan.next], scan.pending, scan.credited, mode, w);
            && InStep(after, mode, scan.(next := scan.next + 1, credited := hashes))
            && forall other: Mode, o :: other != mode && InStep(deposits, other, o) ==> InStep(after, other, o)
  {
    var entry := scan.pending[scan.next];
    assert Current(deposits, mode, entry);
    var (after, hashes) := Inspected(deposits, entry, scan.pending, scan.credited, mode, w);
    if Handles(mode, entry.read) {
      var row := deposits[entry.id];
      assert row in deposits;
      var verdict := Judge(deposits, entry, scan.pending, scan.credited, mode, w);
      CarriedRow(row, entry.read, verdict, mode);
      hide Carried;
      hide Judge;
      hide Current;
      forall k | scan.next + 1 <= k < |scan.pending|
        ensures Current(after, mode, scan.pending[k])
      {
        OthersStayCurrent(deposits, mode, scan.pending[k], entry.id, after[entry.id]);
      }
      forall other: Mode, o | other != mode && InStep(deposits, other, o)
        ensures InStep(after, other, o)
      {
        forall k | o.next <= k < |o.pending|
          ensures Current(after, other, o.pending[k])
        {
          OthersStayCurrent(deposits, other, o.pending[k], entry.id, after[entry.id]);
        }
      }
    }
  }

  lemma BeginIsInStep(deposits: seq<Deposit>, mode: Mode)
    requires Kinds(deposits)
    ensures var scan := Scanning(PendingEntries(deposits, |deposits|), 0, CreditedHashes(deposits));
            InStep(deposits, mode, scan) && Knows(deposits, scan.credited)
  {
    ReadEntries(deposits, mode);
    AllHashesKnown(deposits);
    hide *;
    EntriesInStep(deposits, mode, PendingEntries(deposits, |deposits|), CreditedHashes(deposits));
  }

  lemma EntriesInStep(deposits: seq<Deposit>, mode: Mode, entries: seq<Entry>, credited: set<string>)
    requires forall i, j :: 0 <= i < j < |entries| ==> entries[i].id > entries[j].id
    requires forall e <- entries :: Current(deposits, mode, e)
    ensures InStep(deposits, mode, Scanning(entries, 0, credited))
  {
    hide Current;
  }

  lemma ReadEntries(deposits: seq<Deposit>, mode: Mode)
    requires Kinds(deposits)
    ensures forall e <- PendingEntries(deposits, |deposits|) :: Current(deposits, mode, e)
  {
    hide PendingEntries;
    forall e <- PendingEntries(deposits, |deposits|)
      ensures Current(deposits, mode, e)
    {
      assert deposits[e.id] in deposits;
    }
  }

  lemma AllHashesKnown(deposits: seq<Deposit>)
    ensures Knows(deposits, CreditedHashes(deposits))
  {
  }

  /** Rows that other processes change or add keep every scan in step. */
  lemma ElsewhereStaysCurrent(deposits: seq<Deposit>, id: nat, status: TxStatus, meta: Metadata, mode: Mode, e: Entry)
    requires Kinds(deposits) && id < |deposits| && MayMove(deposits[id], status, meta) && Current(deposits, mode, e)
    ensures Current(deposits[id := deposits[id].(status := status, meta := meta)], mode, e)
  {
    assert deposits[id] in deposits;
  }

  lemma ElsewhereKeeps(s: State, id: nat, status: TxStatus, meta: Metadata)
    requires Inv(s) && id < |s.deposits| && MayMove(s.deposits[id], status, meta)
    ensures Inv(s.(deposits := s.deposits[id := s.deposits[id].(status := status, meta := meta)]))
  {
    var row := s.deposits[id].(status := status, meta := meta);
    var after := s.deposits[id := row];
    assert s.deposits[id] in s.deposits;
    HashesStayApart(s.deposits, id, row);
    forall mode | mode in s.scans
      ensures InStep(after, mode, s.scans[mode])
    {
      forall k | s.scans[mode].next <= k < |s.scans[mode].pending|
        ensures Current(after, mode, s.scans[mode].pending[k])
      {
        ElsewhereStaysCurrent(s.deposits, id, status, meta, mode, s.scans[mode].pending[k]);
      }
    }
    hide HashesDiffer;
    hide Current;
  }

  lemma QuoteKeeps(s: State, d: Deposit)
    requires Inv(s) && d.status == Pending && d.creditedBy == None
    ensures Inv(s.(deposits := s.deposits + [d]))
  {
    var after := s.deposits + [d];
    forall mode | mode in s.scans
      ensures InStep(after, mode, s.scans[mode])
    {
      forall k | s.scans[mode].next <= k < |s.scans[mode].pending|
        ensures Current(after, mode, s.scans[mode].pending[k])
      {
        assert Current(s.deposits, mode, s.scans[mode].pending[k]);
      }
    }
  }

  lemma StepKeeps(s: State, mode: Mode, w: World)
    requires Inv(s)
    ensures Inv(Next(s, Step(mode, w)))
  {
    hide HashesDiffer;
    hide Kinds;
    hide Knows;
    hide InStep;
    if mode in s.scans {
      InStepUnfold(s.deposits, mode, s.scans[mode]);
      if s.scans[mode].next < |s.scans[mode].pending| {
        InspectKeeps(s.deposits, mode, s.scans[mode], w);
        StepStaysInStep(s.deposits, mode, s.scans[mode], w);
        hide Inspected;
        if mode == Simulate {
          StepSimulateKnows(s, w);
        }
      }
    }
  }

  lemma InStepUnfold(deposits: seq<Deposit>, mode: Mode, scan: Scanning)
    requires InStep(deposits, mode, scan)
    ensures scan.next <= |scan.pending|
  {
  }

  /** A simulate scan confirms nothing that a chain scan would have to know. */
  lemma StepSimulateKnows(s: State, w: World)
    requires Inv(s) && Simulate in s.scans && s.scans[Simulate].next < |s.scans[Simulate].pending|
    ensures var scan := s.scans[Simulate];
            var after := Inspected(s.deposits, scan.pending[scan.next], scan.pending, scan.credited, Simulate, w).0;
            Chain in s.scans ==> Knows(after, s.scans[Chain].credited)
  {
    var scan := s.scans[Simulate];
    var entry := scan.pending[scan.next];
    assert InStep(s.deposits, Simulate, scan);
    assert Current(s.deposits, Simulate, entry);
    if Handles(Simulate, entry.read) {
      assert s.deposits[entry.id] in s.deposits;
      CarriedRow(s.deposits[entry.id], entry.read, Judge(s.deposits, entry, scan.pending, scan.credited, Simulate, w), Simulate);
    }
    hide Carried;
    hide Judge;
    hide InStep;
    hide HashesDiffer;
  }

  lemma NextKeeps(s: State, act: Act)
    requires Inv(s)
    ensures Inv(Next(s, act))
  {
    match act
    case Begin(mode) =>
      if mode !in s.scans {
        BeginIsInStep(s.deposits, mode);
      }
      hide InStep;
      hide HashesDiffer;
      hide Knows;
      hide Kinds;
    case Step(mode, w) =>
      StepKeeps(s, mode, w);
      hide Inv;
      hide Next;
    case Quote(user, deposit) =>
      QuoteKeeps(s, deposit.(user := user, status := Pending, creditedBy := None));
      hide Inv;
    case Elsewhere(id, status, meta) =>
      if id < |s.deposits| && MayMove(s.deposits[id], status, meta) {
        ElsewhereKeeps(s, id, status, meta);
      }
      hide Inv;
      hide MayMove;
  }

  lemma {:induction false} RunWatchKeeps(s: State, acts: seq<Act>)
    requires Inv(s)
    ensures Inv(RunWatch(s, acts))
    decreases |acts|
  {
    hide Inv;
    hide Next;
    if acts != [] {
      NextKeeps(s, acts[0]);
      RunWatchKeeps(Next(s, acts[0]), acts[1..]);
    }
  }

  lemma IdleIsInv()
    ensures Inv(Idle)
  {
  }

  /**
   * Whatever the scans find, in whatever order deposits are inspected, and even if several of them wait on one address, no
   * transaction hash is attached to two deposits that chain scans confirmed.
   */
  lemma ChainHashesAreUnique(acts: seq<Act>)
    ensures HashesDiffer(RunWatch(Idle, acts).deposits)
  {
    IdleIsInv();
    RunWatchKeeps(Idle, acts);
    hide RunWatch;
    hide HashesDiffer;
    hide Kinds;
    hide InStep;
    hide Knows;
  }

  /** The explorers list transfers of more than nothing. */
  ghost predicate Positive(w: World) {
    forall id: nat, p: Payment :: w.lookup(id).Found? && p in w.lookup(id).payments ==> p.amount > 0.0
  }

  predicate PaidFor(d: Deposit) {
    PaymentSeen(d.meta) && d.status != Cancelled
  }

  predicate HasPayment(verdict: Verdict) {
    verdict.Note? || verdict.Flag? || verdict.Credit?
  }

  lemma IncomingIsPositive(entry: Entry, required: int, mode: Mode, w: World)
    requires Positive(w)
    ensures Incoming(entry, required, mode, w).Found? ==> forall p <- Incoming(entry, required, mode, w).payments :: p.amount > 0.0
  {
    hide Digits;
  }

  /** The watcher gives up only on deposits without a recorded payment, and records only real payments. */
  lemma JudgeIsCareful(deposits: seq<Deposit>, entry: Entry, pending: seq<Entry>, credited: set<string>, mode: Mode, w: World)
    requires Positive(w)
    ensures var verdict := Judge(deposits, entry, pending, credited, mode, w);
            (verdict.Cancel? ==> !PaymentSeen(entry.read.meta)) && (HasPayment(verdict) ==> verdict.payment.amount > 0.0)
  {
    if entry.read.coin.Some? {
      IncomingIsPositive(entry, RequiredFor(entry.read, entry.read.coin.value), mode, w);
    }
    hide Reasons;
    hide Incoming;
    hide FirstOfKind;
    hide Positive;
  }

  /** A failed lookup confirms, flags and records nothing, but an expired deposit without a recorded payment is still given up. */
  lemma FailedLookupOnlyCancels(deposits: seq<Deposit>, entry: Entry, pending: seq<Entry>, credited: set<string>, w: World)
    requires w.lookup(entry.id).Failed? && entry.read.coin.Some? && entry.read.address.Some?
    ensures Judge(deposits, entry, pending, credited, Chain, w)
         == if w.now > Deadline(entry.read) && !PaymentSeen(entry.read.meta) then Cancel else Pass
  {
    hide Reasons;
  }

  lemma CarriedStaysPaid(row: Deposit, read: Deposit, verdict: Verdict, mode: Mode)
    requires PaidFor(row) && (row.status == Pending ==> row.meta == read.meta)
    requires (verdict.Cancel? ==> !PaymentSeen(read.meta)) && (HasPayment(verdict) ==> verdict.payment.amount > 0.0)
    ensures PaidFor(Carried(row, read, verdict, mode).0)
  {
  }

  lemma StepKeepsPaid(s: State, mode: Mode, w: World, i: nat)
    requires Inv(s) && Positive(w) && i < |s.deposits| && PaidFor(s.deposits[i])
    ensures i < |Next(s, Step(mode, w)).deposits| && PaidFor(Next(s, Step(mode, w)).deposits[i])
  {
    if mode in s.scans && s.scans[mode].next < |s.scans[mode].pending| {
      var scan := s.scans[mode];
      var entry := scan.pending[scan.next];
      assert InStep(s.deposits, mode, scan);
      assert Current(s.deposits, mode, entry);
      if Handles(mode, entry.read) && entry.id == i {
        JudgeIsCareful(s.deposits, entry, scan.pending, scan.credited, mode, w);
        CarriedStaysPaid(s.deposits[i], entry.read, Judge(s.deposits, entry, scan.pending, scan.credited, mode, w), mode);
      }
    }
    hide InStep;
    hide HashesDiffer;
    hide Judge;
    hide Carried;
    hide PaidFor;
  }

  predicate LeavesAlone(act: Act, i: nat) {
    act.Elsewhere? ==> act.id != i
  }

  ghost predicate Watched(acts: seq<Act>, i: nat) {
    forall act <- acts :: LeavesAlone(act, i) && (act.Step? ==> Positive(act.w))
  }

  /** Once a payment is recorded, no scan cancels the deposit, however late it is and whatever later lookups say or fail to say. */
  lemma {:induction false} PaidIsNeverCancelled(s: State, acts: seq<Act>, i: nat)
    requires Inv(s) && i < |s.deposits| && PaidFor(s.deposits[i]) && Watched(acts, i)
    ensures i < |RunWatch(s, acts).deposits| && PaidFor(RunWatch(s, acts).deposits[i])
    decreases |acts|
  {
    if acts != [] {
      assert LeavesAlone(acts[0], i);
      if acts[0].Step? {
        StepKeepsPaid(s, acts[0].mode, acts[0].w, i);
      } else {
        NextPaid(s, acts[0], i);
      }
      NextKeeps(s, acts[0]);
      RestIsWatched(acts, i);
      hide *;
      RunWatchUnfold(s, acts);
      PaidIsNeverCancelled(Next(s, acts[0]), acts[1..], i);
    } else {
      hide Inv;
      hide PaidFor;
    }
  }

  lemma RestIsWatched(acts: seq<Act>, i: nat)
    requires Watched(acts, i) && acts != []
    ensures Watched(acts[1..], i)
  {
  }

  lemma RunWatchUnfold(s: State, acts: seq<Act>)
    ensures RunWatch(s, acts) == if acts == [] then s else RunWatch(Next(s, acts[0]), acts[1..])
  {
    hide Next;
  }

  lemma NextPaid(s: State, act: Act, i: nat)
    requires i < |s.deposits| && PaidFor(s.deposits[i]) && LeavesAlone(act, i) && !act.Step?
    ensures i < |Next(s, act).deposits| && PaidFor(Next(s, act).deposits[i])
  {
    hide PaidFor;
    hide CreditedHashes;
    hide PendingEntries;
  }

  /** The confirmations that the quote named, or else those its coin needs. */
  function Needed(d: Deposit, coin: Coin): int {
    if d.meta.required.Some? then d.meta.required.value
    else match coin case BTC => 3 case LTC => 6 case SOL => 32 case _ => 12
  }

  /** The match window that the quote named, or else the larger of the coin's floor and its tolerance on the amount. */
  function Spacer(d: Deposit, coin: Coin): real {
    if d.meta.window.Some? then d.meta.window.value
    else Larger(Meta(coin).floor, d.expected * Meta(coin).tolerance)
  }

  lemma TermsAre(d: Deposit, coin: Coin)
    ensures RequiredFor(d, coin) == Needed(d, coin) && WindowFor(d, coin) == Spacer(d, coin)
  {
    if d.expected <= 0.0 {
      RealMulMonotone(d.expected, 0.0, Meta(coin).tolerance);
    }
  }

  /** A matching payment that nothing speaks against: enough confirmations, in time, alone on its address, unsuspicious. */
  predicate Clear(deposits: seq<Deposit>, entry: Entry, pending: seq<Entry>, p: Payment, coin: Coin, w: World) {
    var d := entry.read;
    && p.confirmations >= Needed(d, coin)
    && (w.now <= Deadline(d) || PaymentSeen(d.meta))
    && (forall other <- pending :: other.id != entry.id && other.read.address == d.address
                             ==> !Near(other.read.expected, p.amount, Spacer(d, coin)))
    && (w.now - d.userCreatedAt >= 1_800_000 || d.usd < 500_00)
    && (w.totalDeposited(d.user) > 0 || d.usd < 1000_00)
    && Count(deposits, RecentOf(d.user, w.now - 600_000)) < 3
  }

  lemma NoReasons(deposits: seq<Deposit>, entry: Entry, pending: seq<Entry>, coin: Coin, p: Payment, w: World)
    ensures Reasons(deposits, entry, pending, coin, p.amount, w) == [] && p.confirmations >= RequiredFor(entry.read, coin)
       <==> Clear(deposits, entry, pending, p, coin, w)
  {
    var d := entry.read;
    TermsAre(d, coin);
    NothingListed(w.now > Deadline(d) && !PaymentSeen(d.meta), ExpiredPayment);
    NothingListed(Collides(entry, pending, p.amount, WindowFor(d, coin)), SharedAddressCollision);
    NothingListed(w.now - d.userCreatedAt < 1_800_000 && d.usd >= 500_00, NewAccountLarge);
    NothingListed(w.totalDeposited(d.user) <= 0 && d.usd >= 1000_00, LargeFirstDeposit);
    NothingListed(Count(deposits, RecentOf(d.user, w.now - 600_000)) >= 3, RapidDeposits);
    hide If;
    hide Count;
    hide Near;
    hide WindowFor;
    hide RequiredFor;
    hide Needed;
    hide Spacer;
    hide Deadline;
  }

  lemma NothingListed(b: bool, reason: Reason)
    ensures If(b, reason) == [] <==> !b
  {
  }

  /** The first unspent payment that matches the quote, if it is clear. */
  function ClearPayment(deposits: seq<Deposit>, entry: Entry, pending: seq<Entry>, credited: set<string>, mode: Mode, w: World)
    : Option<Payment>
  {
    if entry.read.coin.None? || entry.read.address.None? then None
    else
      var coin := entry.read.coin.value;
      var answer := Incoming(entry, RequiredFor(entry.read, coin), mode, w);
      if answer.Failed? then None
      else
        var p := FirstOfKind(answer.payments, Match, entry.read.expected, coin, credited);
        if p.Some? && Clear(deposits, entry, pending, p.value, coin, w) then p else None
  }

  /** The watcher confirms a deposit exactly if it is still creditable and its payment is clear, and records that payment. */
  lemma ConfirmsExactlyClearPayments(deposits: seq<Deposit>, entry: Entry, pending: seq<Entry>, credited: set<string>, mode: Mode, w: World)
    requires entry.id < |deposits| && Handles(mode, entry.read)
    ensures var before, after := deposits[entry.id], Inspected(deposits, entry, pending, credited, mode, w).0[entry.id];
            var clear := ClearPayment(deposits, entry, pending, credited, mode, w);
            && (before.status != Confirmed && after.status == Confirmed <==> IsCreditable(before) && clear.Some?)
            && (before.status != Confirmed && after.status == Confirmed ==> after.meta == Paid(after.meta, clear.value))
  {
    if entry.read.coin.Some? {
      var coin := entry.read.coin.value;
      var answer := Incoming(entry, RequiredFor(entry.read, coin), mode, w);
      if answer.Found? {
        var p := FirstOfKind(answer.payments, Match, entry.read.expected, coin, credited);
        if p.Some? {
          NoReasons(deposits, entry, pending, coin, p.value, w);
          ClearEnough(deposits, entry, pending, p.value, coin, w);
        }
      }
    }
    hide Reasons;
    hide Incoming;
    hide FirstOfKind;
    hide Clear;
    hide PaymentSeen;
    hide RequiredFor;
    hide Deadline;
  }

  lemma ClearEnough(deposits: seq<Deposit>, entry: Entry, pending: seq<Entry>, p: Payment, coin: Coin, w: World)
    ensures Clear(deposits, entry, pending, p, coin, w) ==> p.confirmations >= RequiredFor(entry.read, coin)
  {
    TermsAre(entry.read, coin);
    hide Needed;
    hide Spacer;
    hide Near;
  }

  /** The remaining steps of a scan of n entries from the k-th on, and the one that ends it. */
  function Steps(mode: Mode, at: nat -> World, k: nat, n: nat): seq<Act>
    requires k <= n
    decreases n - k
  {
    [Step(mode, at(k))] + if k == n then [] else Steps(mode, at, k + 1, n)
  }

  lemma StepsUnfold(mode: Mode, at: nat -> World, k: nat, n: nat)
    requires k <= n
    ensures var steps := Steps(mode, at, k, n);
            steps != [] && steps[0] == Step(mode, at(k)) && steps[1..] == if k == n then [] else Steps(mode, at, k + 1, n)
  {
  }

  /** One step of a scan is one round of the loop; the step after the last ends it. */
  lemma LoopStep(s: State, mode: Mode, at: nat -> World)
    requires mode in s.scans && s.scans[mode].next <= |s.scans[mode].pending|
    ensures var scan := s.scans[mode];
            var next := Next(s, Step(mode, at(scan.next)));
            && next.scans - {mode} == s.scans - {mode}
            && if scan.next < |scan.pending| then
                 && mode in next.scans && next.scans[mode].pending == scan.pending && next.scans[mode].next == scan.next + 1
                 && ScanFrom(s.deposits, scan.pending, scan.next, scan.credited, mode, at)
                    == ScanFrom(next.deposits, scan.pending, scan.next + 1, next.scans[mode].credited, mode, at)
               else
                 && next.scans == s.scans - {mode}
                 && ScanFrom(s.deposits, scan.pending, scan.next, scan.credited, mode, at) == next.deposits
  {
    hide Inspected;
  }

  /** The watcher's loop is the run in which no other process comes between the steps of its scan. */
  lemma {:induction false} LoopIsRun(s: State, mode: Mode, at: nat -> World)
    requires mode in s.scans && s.scans[mode].next <= |s.scans[mode].pending|
    ensures var scan := s.scans[mode];
            var last := RunWatch(s, Steps(mode, at, scan.next, |scan.pending|));
            && last.deposits == ScanFrom(s.deposits, scan.pending, scan.next, scan.credited, mode, at)
            && last.scans == s.scans - {mode}
    decreases |s.scans[mode].pending| - s.scans[mode].next
  {
    hide *;
    var scan := s.scans[mode];
    var n := |scan.pending|;
    var next := Next(s, Step(mode, at(scan.next)));
    StepsUnfold(mode, at, scan.next, n);
    RunWatchUnfold(s, Steps(mode, at, scan.next, n));
    LoopStep(s, mode, at);
    if scan.next < n {
      LoopIsRun(next, mode, at);
    } else {
      RunWatchUnfold(next, []);
    }
  }

  /** So a scan by the watcher is one of the runs above. */
  lemma ScanIsRun(deposits: seq<Deposit>, mode: Mode, at: nat -> World)
    ensures var n := |PendingEntries(deposits, |deposits|)|;
            RunWatch(State(deposits, map[]), [Begin(mode)] + Steps(mode, at, 0, n)) == State(Scan(deposits, mode, at), map[])
  {
    var s := State(deposits, map[]);
    var begun := Next(s, Begin(mode));
    var n := |PendingEntries(deposits, |deposits|)|;
    assert ([Begin(mode)] + Steps(mode, at, 0, n))[1..] == Steps(mode, at, 0, n);
    RunWatchUnfold(s, [Begin(mode)] + Steps(mode, at, 0, n));
    hide PendingEntries;
    hide CreditedHashes;
    LoopIsRun(begun, mode, at);
    assert begun.scans - {mode} == map[];
    hide RunWatch;
    hide Steps;
    hide ScanFrom;
  }

  /** A run in the course of which a scan stays under way. */
  predicate KeepsScanning(s: State, mode: Mode, acts: seq<Act>)
    decreases |acts|
  {
    mode in s.scans && (acts == [] || KeepsScanning(Next(s, acts[0]), mode, acts[1..]))
  }

  lemma NextKeepsCredited(s: State, act: Act, mode: Mode)
    requires mode in s.scans && mode in Next(s, act).scans
    ensures s.scans[mode].credited <= Next(s, act).scans[mode].credited
  {
    hide Judge;
    hide Carried;
    hide PendingEntries;
    hide CreditedHashes;
  }

  lemma {:induction false} CreditedGrows(s: State, mode: Mode, acts: seq<Act>)
    requires KeepsScanning(s, mode, acts)
    ensures mode in s.scans && mode in RunWatch(s, acts).scans && s.scans[mode].credited <= RunWatch(s, acts).scans[mode].credited
    decreases |acts|
  {
    if acts != [] {
      CreditedGrows(Next(s, acts[0]), mode, acts[1..]);
      NextKeepsCredited(s, acts[0], mode);
    }
    hide Next;
  }

  /**
   * A hash that a deposit had spent, or was under review for, when a scan began is spent for the whole scan: whatever comes in
   * between, no entry is recorded, flagged or confirmed with it.
   */
  lemma SpentHashesStaySpent(s: State, mode: Mode, acts: seq<Act>, w: World, d: Deposit)
    requires mode !in s.scans && KeepsScanning(Next(s, Begin(mode)), mode, acts)
    requires d in s.deposits && d.meta.txHash != "" && (d.status == Confirmed || d.status == TxStatus.Review)
    ensures var later := RunWatch(Next(s, Begin(mode)), acts);
            && mode in later.scans
            && var scan := later.scans[mode];
               scan.next < |scan.pending| ==>
                 var verdict := Judge(later.deposits, scan.pending[scan.next], scan.pending, scan.credited, mode, w);
                 HasPayment(verdict) ==> verdict.payment.hash != d.meta.txHash
  {
    var begun := Next(s, Begin(mode));
    CreditedGrows(begun, mode, acts);
    var later := RunWatch(begun, acts);
    var scan := later.scans[mode];
    assert CreditedHashes(s.deposits) <= scan.credited;
    hide RunWatch;
    hide Next;
    hide CreditedHashes;
    hide Judge;
    if scan.next < |scan.pending| && HasPayment(Judge(later.deposits, scan.pending[scan.next], scan.pending, scan.credited, mode, w)) {
      SpentHashesAreSkipped(s.deposits, later.deposits, scan.pending[scan.next], scan.pending, scan.credited, mode, w, d);
    }
  }

  /** Every lookup fails. */
  ghost predicate NothingFound(w: World) {
    forall id: nat :: w.lookup(id).Failed?
  }

  /** Scans of the chain alone, all of whose lookups fail. */
  ghost predicate Blind(acts: seq<Act>) {
    forall act <- acts :: (act.Begin? && act.mode == Chain) || (act.Step? && act.mode == Chain && NothingFound(act.w))
  }

  /** What a failing chain scan can do to a deposit. */
  predicate GivenUp(before: Deposit, after: Deposit) {
    after.status == before.status || (before.status == Pending && after.status == Cancelled)
  }

  lemma BlindStep(s: State, act: Act, i: nat)
    requires Blind([act]) && i < |s.deposits|
    ensures i < |Next(s, act).deposits| && GivenUp(s.deposits[i], Next(s, act).deposits[i])
  {
    assert act in [act];
    if act.Step? && act.mode in s.scans && s.scans[act.mode].next < |s.scans[act.mode].pending| {
      var scan := s.scans[act.mode];
      var entry := scan.pending[scan.next];
      if entry.read.coin.Some? && entry.read.address.Some? {
        FailedLookupOnlyCancels(s.deposits, entry, scan.pending, scan.credited, act.w);
      } else {
        UnknownCoinPasses(s.deposits, entry, scan.pending, scan.credited, act.w);
      }
    }
    hide Judge;
    hide PendingEntries;
    hide CreditedHashes;
  }

  lemma UnknownCoinPasses(deposits: seq<Deposit>, entry: Entry, pending: seq<Entry>, credited: set<string>, w: World)
    requires entry.read.coin.None? || entry.read.address.None?
    ensures Judge(deposits, entry, pending, credited, Chain, w) == Pass
  {
    hide Reasons;
    hide Incoming;
  }

  /** While all lookups fail, chain scans confirm and flag nothing, however long they go on; they can only cancel. */
  lemma {:induction false} BlindScansConfirmNothing(s: State, acts: seq<Act>, i: nat)
    requires Blind(acts) && i < |s.deposits|
    ensures i < |RunWatch(s, acts).deposits| && GivenUp(s.deposits[i], RunWatch(s, acts).deposits[i])
    decreases |acts|
  {
    RunWatchUnfold(s, acts);
    if acts != [] {
      assert Blind([acts[0]]) && Blind(acts[1..]);
      BlindStep(s, acts[0], i);
      BlindScansConfirmNothing(Next(s, acts[0]), acts[1..], i);
    }
    hide Next;
    hide RunWatch;
    hide Blind;
  }

  /**
   * Whatever has happened before, other processes touching the deposit included, no step of a scan cancels a deposit that has a
   * payment on record, and none loses the record.
   */
  lemma ScansNeverCancelPaid(acts: seq<Act>, mode: Mode, w: World, i: nat)
    requires Positive(w) && i < |RunWatch(Idle, acts).deposits| && PaidFor(RunWatch(Idle, acts).deposits[i])
    ensures var after := Next(RunWatch(Idle, acts), Step(mode, w));
            i < |after.deposits| && PaidFor(after.deposits[i])
  {
    IdleIsInv();
    RunWatchKeeps(Idle, acts);
    hide *;
    StepKeepsPaid(RunWatch(Idle, acts), mode, w, i);
  }
}
