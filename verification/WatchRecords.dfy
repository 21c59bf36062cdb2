/** When a scan records a payment and when it gives a deposit up, row by row, and what a payment that was listed once is good for. */
module WatchRecords {
  import opened Accounts
  import opened Coins
  import opened Options
  import opened Watch
  import opened WatchRuns

  /** The payments that a lookup lists for a deposit; none if it fails. */
  function Listed(entry: Entry, coin: Coin, mode: Mode, w: World): seq<Payment> {
    match Incoming(entry, RequiredFor(entry.read, coin), mode, w)
    case Found(payments) => payments
    case Failed => []
  }

  /** The first unspent payment that matches the quote, or else the first one that is near it. */
  function Sought(entry: Entry, credited: set<string>, mode: Mode, w: World): Option<Payment> {
    if entry.read.coin.None? || entry.read.address.None? then None
    else
      var coin, expected := entry.read.coin.value, entry.read.expected;
      var payments := Listed(entry, coin, mode, w);
      var exact := FirstOfKind(payments, Match, expected, coin, credited);
      if exact.Some? then exact else FirstOfKind(payments, Kind.Review, expected, coin, credited)
  }

  /** The payment counts for a quote in this way and has not been used up. */
  predicate Counts(p: Payment, kind: Kind, expected: real, coin: Coin, credited: set<string>) {
    p.hash !in credited && ClassifyReceived(expected, p.amount, coin) == kind
  }

  /** It is the first of its kind that was listed. */
  lemma {:induction false} SoughtIsFirst(payments: seq<Payment>, kind: Kind, expected: real, coin: Coin, credited: set<string>, i: nat)
    requires i < |payments| && Counts(payments[i], kind, expected, coin, credited)
    requires forall k :: 0 <= k < i ==> !Counts(payments[k], kind, expected, coin, credited)
    ensures FirstOfKind(payments, kind, expected, coin, credited) == Some(payments[i])
  {
    if i > 0 {
      SoughtIsFirst(payments[1..], kind, expected, coin, credited, i - 1);
    }
    hide ClassifyReceived;
  }

  lemma {:induction false} DigitsDiffer(m: nat, n: nat)
    requires m != n
    ensures Digits(m) != Digits(n)
  {
    DigitsEnd(m);
    DigitsEnd(n);
    if m >= 10 && n >= 10 && m % 10 == n % 10 {
      DigitsDiffer(m / 10, n / 10);
    }
    hide Digits;
  }

  lemma DigitsEnd(n: nat)
    ensures |Digits(n)| > 0 && Digits(n)[|Digits(n)| - 1] == ['0', '1', '2', '3', '4', '5', '6', '7', '8', '9'][n % 10]
    ensures Digits(n)[..|Digits(n)| - 1] == if n < 10 then "" else Digits(n / 10)
    ensures n >= 10 ==> |Digits(n / 10)| > 0
  {
    if n >= 10 {
      assert |Digits(n / 10)| > 0;
    }
  }

  /** A rehearsed payment has the hash it was set up with; rehearsals that were set up without one never share theirs. */
  lemma RehearsedHashes(entry: Entry, required: int, now: int, other: Entry, otherRequired: int, later: int)
    requires SimulatedIncoming(entry, required, now).Some? && SimulatedIncoming(other, otherRequired, later).Some?
    ensures var hash := SimulatedIncoming(entry, required, now).value.hash;
            && (entry.read.meta.simulate.value.hash != "" ==> hash == entry.read.meta.simulate.value.hash)
            && (entry.read.meta.simulate.value.hash == other.read.meta.simulate.value.hash == "" && entry.id != other.id
                ==> hash != SimulatedIncoming(other, otherRequired, later).value.hash)
  {
    if entry.id != other.id {
      DigitsDiffer(entry.id, other.id);
    }
    hide Digits;
    var name, otherName := "sim_" + Digits(entry.id), "sim_" + Digits(other.id);
    assert name[4..] == Digits(entry.id) && otherName[4..] == Digits(other.id);
  }

  /** It still lacks confirmations. */
  function Unconfirmed(entry: Entry, credited: set<string>, mode: Mode, w: World): Option<Payment> {
    var p := Sought(entry, credited, mode, w);
    if p.Some? && p.value.confirmations < Needed(entry.read, entry.read.coin.value) then p else None
  }

  /** The metadata say of the payment what would be recorded of it, as far as the watcher compares. */
  predicate Said(meta: Metadata, p: Payment) {
    meta.txHash == p.hash && (if meta.confirmations.Some? then meta.confirmations.value else -1) == p.confirmations
  }

  /** A pending deposit that nobody has touched since the scan read it. */
  predicate Untouched(deposits: seq<Deposit>, entry: Entry) {
    entry.id < |deposits| && deposits[entry.id].status == Pending && deposits[entry.id].meta == entry.read.meta
  }

  /** The metadata with a payment on record; a rehearsal counts its confirmations there too. */
  predicate Records(before: Metadata, after: Metadata, p: Payment) {
    && after.txHash == p.hash && after.received == p.amount && after.confirmations == Some(p.confirmations)
    && after.expiresAt == before.expiresAt && after.required == before.required && after.window == before.window
    && (before.simulate.None? ==> after.simulate.None?)
    && (before.simulate.Some? ==> after.simulate == Some(before.simulate.value.(confirmations := p.confirmations)))
  }

  lemma NotesUnconfirmed(deposits: seq<Deposit>, entry: Entry, pending: seq<Entry>, credited: set<string>, mode: Mode, w: World)
    ensures var short, verdict := Unconfirmed(entry, credited, mode, w), Judge(deposits, entry, pending, credited, mode, w);
            && (verdict.Note? <==> short.Some?)
            && (short.Some? ==> verdict == Note(short.value))
  {
    if entry.read.coin.Some? {
      TermsAre(entry.read, entry.read.coin.value);
    }
    hide Needed;
    hide Reasons;
    hide Incoming;
    hide FirstOfKind;
    hide PaymentSeen;
    hide RequiredFor;
    hide Deadline;
  }

  /**
   * A scan leaves an untouched deposit pending and changes its record exactly if its first unspent match, or else near payment,
   * lacks confirmations and is not on record yet; the row then carries hash, amount and confirmations and nothing else new.
   */
  lemma RecordsExactly(deposits: seq<Deposit>, entry: Entry, pending: seq<Entry>, credited: set<string>, mode: Mode, w: World)
    requires Untouched(deposits, entry) && Handles(mode, entry.read)
    ensures var before, after := deposits[entry.id], Inspected(deposits, entry, pending, credited, mode, w).0[entry.id];
            var short := Unconfirmed(entry, credited, mode, w);
            && (after.status == Pending && after != before <==> short.Some? && !Said(before.meta, short.value))
            && (short.Some? ==> after == before.(meta := after.meta) && Said(after.meta, short.value))
            && (short.Some? && !Said(before.meta, short.value) ==> Records(before.meta, after.meta, short.value))
  {
    NotesUnconfirmed(deposits, entry, pending, credited, mode, w);
    hide Judge;
    hide Unconfirmed;
  }

  /** Past the row's own expiry, or an hour after the quote if it names none. */
  predicate Late(d: Deposit, now: int) {
    match d.meta.expiresAt
    case Some(t) => now > t
    case None => now > d.createdAt + 60 * 60 * 1000
  }

  /** Nothing that was listed and not spent comes near the quote. */
  predicate NothingCounts(entry: Entry, coin: Coin, credited: set<string>, mode: Mode, w: World) {
    forall p <- Listed(entry, coin, mode, w) :: p.hash in credited || ClassifyReceived(entry.read.expected, p.amount, coin) == Ignore
  }

  lemma CancelsLate(deposits: seq<Deposit>, entry: Entry, pending: seq<Entry>, credited: set<string>, mode: Mode, w: World)
    ensures Judge(deposits, entry, pending, credited, mode, w).Cancel?
       <==> && entry.read.coin.Some? && entry.read.address.Some? && Late(entry.read, w.now)
            && entry.read.meta.received <= 0.0 && (entry.read.meta.confirmations.Some? ==> entry.read.meta.confirmations.value <= 0)
            && NothingCounts(entry, entry.read.coin.value, credited, mode, w)
  {
    if entry.read.coin.Some? {
      var coin := entry.read.coin.value;
      var payments := Listed(entry, coin, mode, w);
      NothingOfKind(payments, entry.read.expected, coin, credited);
    }
    assert QUOTE_MS == 60 * 60 * 1000;
    hide Reasons;
    hide Incoming;
    hide FirstOfKind;
    hide RequiredFor;
    hide ClassifyReceived;
  }

  lemma NothingOfKind(payments: seq<Payment>, expected: real, coin: Coin, credited: set<string>)
    ensures FirstOfKind(payments, Match, expected, coin, credited).None? && FirstOfKind(payments, Kind.Review, expected, coin, credited).None?
       <==> forall p <- payments :: p.hash in credited || ClassifyReceived(expected, p.amount, coin) == Ignore
  {
    var exact, near := FirstOfKind(payments, Match, expected, coin, credited), FirstOfKind(payments, Kind.Review, expected, coin, credited);
    hide ClassifyReceived;
  }

  /**
   * A scan cancels a deposit exactly if it is still pending, past its own expiry or else an hour after the quote, without a payment
   * on record, and nothing unspent that was listed counts for it.
   */
  lemma CancelsExactly(deposits: seq<Deposit>, entry: Entry, pending: seq<Entry>, credited: set<string>, mode: Mode, w: World)
    requires entry.id < |deposits| && Handles(mode, entry.read)
    ensures var before, after := deposits[entry.id], Inspected(deposits, entry, pending, credited, mode, w).0[entry.id];
            before.status != Cancelled && after.status == Cancelled
            <==> && before.status == Pending && entry.read.coin.Some? && entry.read.address.Some? && Late(entry.read, w.now)
                 && entry.read.meta.received <= 0.0 && (entry.read.meta.confirmations.Some? ==> entry.read.meta.confirmations.value <= 0)
                 && NothingCounts(entry, entry.read.coin.value, credited, mode, w)
    ensures var before, after := deposits[entry.id], Inspected(deposits, entry, pending, credited, mode, w).0[entry.id];
            before.status != Cancelled && after.status == Cancelled ==> after == before.(status := Cancelled, meta := entry.read.meta)
  {
    CancelsLate(deposits, entry, pending, credited, mode, w);
    hide Judge;
    hide Late;
    hide NothingCounts;
  }

  /** An unspent payment that counts for the entry has been listed. */
  predicate Lists(entry: Entry, credited: set<string>, mode: Mode, w: World, p: Payment) {
    && entry.read.coin.Some? && entry.read.address.Some? && p in Listed(entry, entry.read.coin.value, mode, w)
    && p.hash !in credited && ClassifyReceived(entry.read.expected, p.amount, entry.read.coin.value) != Ignore
  }

  /** What is on record of a payment includes its amount. */
  predicate WholeRecord(meta: Metadata) {
    PaymentSeen(meta) || (meta.txHash == "" && meta.confirmations.None?)
  }

  lemma ListedIsJudged(deposits: seq<Deposit>, entry: Entry, pending: seq<Entry>, credited: set<string>, mode: Mode, w: World, p: Payment)
    requires Lists(entry, credited, mode, w, p)
    ensures var verdict, sought := Judge(deposits, entry, pending, credited, mode, w), Sought(entry, credited, mode, w);
            HasPayment(verdict) && sought.Some? && verdict.payment == sought.value
  {
    NothingOfKind(Listed(entry, entry.read.coin.value, mode, w), entry.read.expected, entry.read.coin.value, credited);
    hide Reasons;
    hide Incoming;
    hide FirstOfKind;
    hide ClassifyReceived;
    hide PaymentSeen;
    hide RequiredFor;
    hide Deadline;
  }

  lemma CarriedIsPaid(row: Deposit, read: Deposit, verdict: Verdict, mode: Mode)
    requires HasPayment(verdict) && verdict.payment.amount > 0.0 && verdict.payment.hash != ""
    requires row.status == Pending && row.meta == read.meta && WholeRecord(read.meta)
    ensures PaidFor(Carried(row, read, verdict, mode).0)
  {
  }

  /** Explorers list transfers of more than nothing under a hash of their own. */
  ghost predicate RealTransfers(w: World) {
    Positive(w) && forall id: nat, p: Payment :: w.lookup(id).Found? && p in w.lookup(id).payments ==> p.hash != ""
  }

  lemma SoughtIsListed(entry: Entry, credited: set<string>, w: World)
    requires Sought(entry, credited, Chain, w).Some? && RealTransfers(w)
    ensures Sought(entry, credited, Chain, w).value.amount > 0.0 && Sought(entry, credited, Chain, w).value.hash != ""
  {
    var coin := entry.read.coin.value;
    var p := Sought(entry, credited, Chain, w).value;
    assert p in Listed(entry, coin, Chain, w);
    hide FirstOfKind;
    hide ClassifyReceived;
  }

  /**
   * A pending deposit for which a scan has found an unspent payment listed, once and at whatever time, is never cancelled by a scan
   * afterwards: however long the lookups fail or return nothing, as long as no other process cancels it or erases the record.
   */
  lemma ListedOnceIsNeverCancelled(s: State, w: World, p: Payment, acts: seq<Act>)
    requires Inv(s) && Chain in s.scans && s.scans[Chain].next < |s.scans[Chain].pending|
    requires var scan := s.scans[Chain];
             var entry := scan.pending[scan.next];
             && entry.id < |s.deposits| && s.deposits[entry.id].status == Pending && Handles(Chain, entry.read)
             && Lists(entry, scan.credited, Chain, w, p) && WholeRecord(s.deposits[entry.id].meta)
             && Watched(acts, entry.id)
    requires RealTransfers(w)
    ensures var i, last := s.scans[Chain].pending[s.scans[Chain].next].id, RunWatch(Next(s, Step(Chain, w)), acts);
            i < |last.deposits| && last.deposits[i].status != Cancelled && PaymentSeen(last.deposits[i].meta)
  {
    var scan := s.scans[Chain];
    var entry := scan.pending[scan.next];
    StepRecords(s, w, p);
    NextKeeps(s, Step(Chain, w));
    hide Next;
    hide Inv;
    PaidIsNeverCancelled(Next(s, Step(Chain, w)), acts, entry.id);
    hide RunWatch;
    hide PaymentSeen;
  }

  lemma StepRecords(s: State, w: World, p: Payment)
    requires Inv(s) && Chain in s.scans && s.scans[Chain].next < |s.scans[Chain].pending|
    requires var scan := s.scans[Chain];
             var entry := scan.pending[scan.next];
             && entry.id < |s.deposits| && s.deposits[entry.id].status == Pending && Handles(Chain, entry.read)
             && Lists(entry, scan.credited, Chain, w, p) && WholeRecord(s.deposits[entry.id].meta)
    requires RealTransfers(w)
    ensures var i, after := s.scans[Chain].pending[s.scans[Chain].next].id, Next(s, Step(Chain, w)).deposits;
            i < |after| && PaidFor(after[i])
  {
    var scan := s.scans[Chain];
    var entry := scan.pending[scan.next];
    assert InStep(s.deposits, Chain, scan);
    assert Current(s.deposits, Chain, entry);
    ListedIsJudged(s.deposits, entry, scan.pending, scan.credited, Chain, w, p);
    SoughtIsListed(entry, scan.credited, w);
    CarriedIsPaid(s.deposits[entry.id], entry.read, Judge(s.deposits, entry, scan.pending, scan.credited, Chain, w), Chain);
    hide InStep;
    hide HashesDiffer;
    hide Judge;
    hide Carried;
    hide PaidFor;
    hide Lists;
    hide Sought;
  }

  ghost predicate RealRun(acts: seq<Act>, i: nat) {
    forall act <- acts :: LeavesAlone(act, i) && (act.Step? ==> RealTransfers(act.w))
  }

  lemma VerdictIsReal(deposits: seq<Deposit>, entry: Entry, pending: seq<Entry>, credited: set<string>, mode: Mode, w: World)
    requires RealTransfers(w)
    ensures var verdict := Judge(deposits, entry, pending, credited, mode, w);
            HasPayment(verdict) ==> verdict.payment.amount > 0.0
  {
    JudgeIsCareful(deposits, entry, pending, credited, mode, w);
    hide Judge;
  }

  lemma CarriedIsWhole(row: Deposit, read: Deposit, verdict: Verdict, mode: Mode)
    requires HasPayment(verdict) ==> verdict.payment.amount > 0.0
    requires WholeRecord(row.meta) && (row.status == Pending ==> row.meta == read.meta)
    ensures WholeRecord(Carried(row, read, verdict, mode).0.meta)
  {
  }

  lemma NextKeepsWhole(s: State, act: Act, i: nat)
    requires Inv(s) && i < |s.deposits| && WholeRecord(s.deposits[i].meta) && LeavesAlone(act, i) && (act.Step? ==> RealTransfers(act.w))
    ensures i < |Next(s, act).deposits| && WholeRecord(Next(s, act).deposits[i].meta)
  {
    if act.Step? && act.mode in s.scans && s.scans[act.mode].next < |s.scans[act.mode].pending| {
      var scan := s.scans[act.mode];
      var entry := scan.pending[scan.next];
      assert InStep(s.deposits, act.mode, scan);
      assert Current(s.deposits, act.mode, entry);
      if Handles(act.mode, entry.read) && entry.id == i {
        VerdictIsReal(s.deposits, entry, scan.pending, scan.credited, act.mode, act.w);
        CarriedIsWhole(s.deposits[i], entry.read, Judge(s.deposits, entry, scan.pending, scan.credited, act.mode, act.w), act.mode);
      }
    }
    hide InStep;
    hide HashesDiffer;
    hide Judge;
    hide Carried;
    hide WholeRecord;
    hide PendingEntries;
    hide CreditedHashes;
    hide RealTransfers;
  }

  lemma {:induction false} RunKeepsWhole(s: State, acts: seq<Act>, i: nat)
    requires Inv(s) && i < |s.deposits| && WholeRecord(s.deposits[i].meta) && RealRun(acts, i)
    ensures i < |RunWatch(s, acts).deposits| && WholeRecord(RunWatch(s, acts).deposits[i].meta) && Inv(RunWatch(s, acts))
    decreases |acts|
  {
    if acts != [] {
      assert acts[0] in acts;
      NextKeepsWhole(s, acts[0], i);
      NextKeeps(s, acts[0]);
      assert RealRun(acts[1..], i);
      hide *;
      RunWatchUnfold(s, acts);
      RunKeepsWhole(Next(s, acts[0]), acts[1..], i);
    } else {
      hide Inv;
      hide WholeRecord;
    }
  }

  /** The scan of the chain is at this deposit, which is pending, and finds an unspent payment that counts for it listed. */
  predicate FindsListed(s: State, i: nat, w: World, p: Payment) {
    && Chain in s.scans && s.scans[Chain].next < |s.scans[Chain].pending|
    && var entry := s.scans[Chain].pending[s.scans[Chain].next];
       && entry.id == i < |s.deposits| && s.deposits[i].status == Pending && Handles(Chain, entry.read)
       && Lists(entry, s.scans[Chain].credited, Chain, w, p)
  }

  /**
   * Over whole runs: once a scan has found a payment listed for a pending deposit that was quoted with nothing on record, no scan
   * cancels the deposit, whatever came before and whatever comes after, other processes leaving it alone.
   */
  lemma ListedOverRuns(s: State, before: seq<Act>, w: World, p: Payment, acts: seq<Act>, i: nat)
    requires Inv(s) && i < |s.deposits| && s.deposits[i].meta.txHash == "" && s.deposits[i].meta.confirmations.None?
    requires RealRun(before, i) && RealTransfers(w) && Watched(acts, i) && FindsListed(RunWatch(s, before), i, w, p)
    ensures var last := RunWatch(Next(RunWatch(s, before), Step(Chain, w)), acts);
            i < |last.deposits| && last.deposits[i].status != Cancelled && PaymentSeen(last.deposits[i].meta)
  {
    RunKeepsWhole(s, before, i);
    hide Inv;
    hide RunWatch;
    hide Lists;
    hide RealTransfers;
    hide RealRun;
    hide Watched;
    hide PaymentSeen;
    ListedOnceIsNeverCancelled(RunWatch(s, before), w, p, acts);
  }
}
