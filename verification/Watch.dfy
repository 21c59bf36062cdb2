/** What the deposit watcher makes of one pending deposit: the rows it reads, its verdict, and how it is carried out. */
module Watch {
  import opened Accounts
  import opened Coins
  import opened Options
  import opened Sums

  datatype Mode = Chain | Simulate

  /** A rehearsed payment that counts up its own confirmations. */
  datatype Rehearsal = Rehearsal(amount: real, hash: string, confirmations: int, appearAt: Option<int>)

  /** Amounts are in coins, times in milliseconds; a missing hash is "". */
  datatype Metadata = Metadata(simulate: Option<Rehearsal>, txHash: string, received: real, confirmations: Option<int>,
                               expiresAt: Option<int>, required: Option<int>, window: Option<real>)

  /** A deposit row, known by its place in the table; an unknown coin is None and a missing amount 0. */
  datatype Deposit = Deposit(user: UserId, coin: Option<Coin>, address: Option<string>, usd: int, expected: real, createdAt: int,
                             userCreatedAt: int, status: TxStatus, meta: Metadata, creditedBy: Option<Mode>)

  datatype Payment = Payment(hash: string, amount: real, confirmations: int)
  datatype Lookup = Failed | Found(payments: seq<Payment>)

  /** What the watcher learns from outside: the time, the explorers' answers and what players have deposited so far. */
  datatype World = World(now: int, lookup: nat -> Lookup, totalDeposited: UserId -> int)

  /** A pending deposit as it was read when the scan began. */
  datatype Entry = Entry(id: nat, read: Deposit)

  const QUOTE_MS: int := 3_600_000

  function Deadline(d: Deposit): int {
    match d.meta.expiresAt
    case Some(t) => t
    case None => d.createdAt + QUOTE_MS
  }

  predicate PaymentSeen(meta: Metadata) {
    meta.received > 0.0 || (meta.confirmations.Some? && meta.confirmations.value > 0)
  }

  function RequiredFor(d: Deposit, coin: Coin): int {
    match d.meta.required
    case Some(n) => n
    case None => Meta(coin).confirmations
  }

  function WindowFor(d: Deposit, coin: Coin): real {
    match d.meta.window
    case Some(x) => x
    case None => MatchWindowFor(coin, d.expected)
  }

  function Digits(n: nat): string {
    if n < 10 then [['0', '1', '2', '3', '4', '5', '6', '7', '8', '9'][n]]
    else Digits(n / 10) + [['0', '1', '2', '3', '4', '5', '6', '7', '8', '9'][n % 10]]
  }

  /** One more rehearsed confirmation every four seconds, eight seconds after the quote at the earliest. */
  function SimulatedIncoming(entry: Entry, required: int, now: int): Option<Payment> {
    match entry.read.meta.simulate
    case None => None
    case Some(body) =>
      var appearAt := if body.appearAt.Some? then body.appearAt.value else entry.read.createdAt + 8000;
      if body.amount <= 0.0 || now < appearAt then None
      else
        var current := if body.confirmations > 0 then body.confirmations else 0;
        var ticks := 1 + (now - appearAt) / 4000;
        var due := if required < ticks then required else ticks;
        if due <= current then None
        else Some(Payment(if body.hash == "" then "sim_" + Digits(entry.id) else body.hash, body.amount, due))
  }

  function Incoming(entry: Entry, required: int, mode: Mode, w: World): Lookup {
    match mode
    case Chain => w.lookup(entry.id)
    case Simulate =>
      match SimulatedIncoming(entry, required, w.now)
      case Some(p) => Found([p])
      case None => Found([])
  }

  /** The first payment of this kind that no deposit has been credited with. */
  function FirstOfKind(payments: seq<Payment>, kind: Kind, expected: real, coin: Coin, credited: set<string>): (p: Option<Payment>)
    ensures p.Some? ==> p.value in payments && p.value.hash !in credited && ClassifyReceived(expected, p.value.amount, coin) == kind
    ensures p.None? ==> forall q <- payments :: q.hash in credited || ClassifyReceived(expected, q.amount, coin) != kind
  {
    if payments == [] then None
    else if payments[0].hash !in credited && ClassifyReceived(expected, payments[0].amount, coin) == kind then Some(payments[0])
    else FirstOfKind(payments[1..], kind, expected, coin, credited)
  }

  predicate Near(x: real, y: real, window: real) {
    (if x < y then y - x else x - y) <= window
  }

  /** Another deposit that was pending when the scan began expects about this amount on the same address. */
  predicate Collides(entry: Entry, pending: seq<Entry>, amount: real, window: real) {
    exists other <- pending :: other.id != entry.id && other.read.address == entry.read.address && Near(other.read.expected, amount, window)
  }

  function RecentOf(user: UserId, since: int): Deposit -> bool {
    (d: Deposit) => d.user == user && d.createdAt > since
  }

  datatype Reason = ExpiredPayment | SharedAddressCollision | NewAccountLarge | LargeFirstDeposit | RapidDeposits

  function If(b: bool, reason: Reason): seq<Reason> {
    if b then [reason] else []
  }

  /** Why a matching payment is held for review. */
  function Reasons(deposits: seq<Deposit>, entry: Entry, pending: seq<Entry>, coin: Coin, amount: real, w: World): seq<Reason> {
    var d := entry.read;
    If(w.now > Deadline(d) && !PaymentSeen(d.meta), ExpiredPayment)
    + If(Collides(entry, pending, amount, WindowFor(d, coin)), SharedAddressCollision)
    + If(w.now - d.userCreatedAt < 1_800_000 && d.usd >= 500_00, NewAccountLarge)
    + If(w.totalDeposited(d.user) <= 0 && d.usd >= 1000_00, LargeFirstDeposit)
    + If(Count(deposits, RecentOf(d.user, w.now - 600_000)) >= 3, RapidDeposits)
  }

  /** `Note` records a payment that still lacks confirmations. */
  datatype Verdict = Pass | Cancel | Note(payment: Payment) | Flag(payment: Payment) | Credit(payment: Payment)

  function Judge(deposits: seq<Deposit>, entry: Entry, pending: seq<Entry>, credited: set<string>, mode: Mode, w: World): Verdict {
    var d := entry.read;
    if d.coin.None? || d.address.None? then Pass
    else
      var coin := d.coin.value;
      var required := RequiredFor(d, coin);
      var answer := Incoming(entry, required, mode, w);
      var payments := if answer.Found? then answer.payments else [];
      var exact := FirstOfKind(payments, Match, d.expected, coin, credited);
      var near := FirstOfKind(payments, Kind.Review, d.expected, coin, credited);
      if w.now > Deadline(d) && !PaymentSeen(d.meta) && exact.None? && near.None? then Cancel
      else if answer.Failed? then Pass
      else if exact.None? && near.Some? then if near.value.confirmations < required then Note(near.value) else Flag(near.value)
      else if exact.None? then Pass
      else if exact.value.confirmations < required then Note(exact.value)
      else if Reasons(deposits, entry, pending, coin, exact.value.amount, w) != [] then Flag(exact.value)
      else Credit(exact.value)
  }

  function Paid(meta: Metadata, p: Payment): Metadata {
    meta.(txHash := p.hash, received := p.amount, confirmations := Some(p.confirmations))
  }

  /** UPDATE of the row's metadata from what was read when the scan began; skipped if it says the same already. */
  function Progressed(row: Deposit, read: Deposit, p: Payment): Deposit {
    var had := if read.meta.confirmations.Some? then read.meta.confirmations.value else -1;
    if had == p.confirmations && read.meta.txHash == p.hash then row
    else
      var simulate := match read.meta.simulate case Some(body) => Some(body.(confirmations := p.confirmations)) case None => None;
      row.(meta := Paid(read.meta, p).(simulate := simulate))
  }

  function Flagged(row: Deposit, p: Payment): Deposit {
    if row.status == Pending then row.(status := TxStatus.Review, meta := Paid(row.meta, p)) else row
  }

  predicate IsCreditable(row: Deposit) {
    row.status == Pending || row.status == TxStatus.Review
  }

  function Credited(row: Deposit, p: Payment, mode: Mode): Deposit {
    if IsCreditable(row) then row.(status := Confirmed, meta := Paid(row.meta, p), creditedBy := Some(mode)) else row
  }

  function Expired(row: Deposit, read: Deposit): Deposit {
    if row.status == Pending then row.(status := Cancelled, meta := read.meta) else row
  }

  /** The row after a verdict, and the hash that the scan must not accept again. */
  function Carried(row: Deposit, read: Deposit, verdict: Verdict, mode: Mode): (Deposit, set<string>) {
    match verdict
    case Pass => (row, {})
    case Cancel => (Expired(row, read), {})
    case Note(p) => (Progressed(row, read, p), {})
    case Flag(p) => (Flagged(Progressed(row, read, p), p), {})
    case Credit(p) =>
      var noted := Progressed(row, read, p);
      (Credited(noted, p, mode), if IsCreditable(noted) then {p.hash} else {})
  }

  /** Each scan handles its own kind of deposit only. */
  predicate Handles(mode: Mode, d: Deposit) {
    d.meta.simulate.Some? <==> mode == Simulate
  }

  /** Inspecting one deposit of a scan. */
  function Inspected(deposits: seq<Deposit>, entry: Entry, pending: seq<Entry>, credited: set<string>, mode: Mode, w: World)
    : (seq<Deposit>, set<string>)
  {
    if entry.id >= |deposits| || !Handles(mode, entry.read) then (deposits, credited)
    else
      var verdict := Judge(deposits, entry, pending, credited, mode, w);
      var (row, hashes) := Carried(deposits[entry.id], entry.read, verdict, mode);
      (deposits[entry.id := row], credited + hashes)
  }

  /** The pending deposits, newest first, as a scan reads them. */
  function PendingEntries(deposits: seq<Deposit>, n: nat): (entries: seq<Entry>)
    requires n <= |deposits|
    ensures forall e <- entries :: e.id < n && e.read == deposits[e.id] && e.read.status == Pending
    ensures Distinct(entries)
    ensures forall i, j :: 0 <= i < j < |entries| ==> entries[i].id > entries[j].id
    ensures forall i :: 0 <= i < n && deposits[i].status == Pending ==> Entry(i, deposits[i]) in entries
  {
    if n == 0 then []
    else
      (if deposits[n - 1].status == Pending then [Entry(n - 1, deposits[n - 1])] else []) + PendingEntries(deposits, n - 1)
  }

  /** The non-empty hashes of the deposits that are confirmed or in review. */
  function CreditedHashes(deposits: seq<Deposit>): set<string> {
    set d <- deposits | (d.status == Confirmed || d.status == TxStatus.Review) && d.meta.txHash != "" :: d.meta.txHash
  }

  /** A scan from its k-th entry on, when no other process runs in between; `at` is the world each entry is inspected in. */
  function ScanFrom(deposits: seq<Deposit>, pending: seq<Entry>, k: nat, credited: set<string>, mode: Mode, at: nat -> World): seq<Deposit>
    requires k <= |pending|
    decreases |pending| - k
  {
    if k == |pending| then deposits
    else
      var (next, hashes) := Inspected(deposits, pending[k], pending, credited, mode, at(k));
      ScanFrom(next, pending, k + 1, hashes, mode, at)
  }

  function Scan(deposits: seq<Deposit>, mode: Mode, at: nat -> World): seq<Deposit> {
    ScanFrom(deposits, PendingEntries(deposits, |deposits|), 0, CreditedHashes(deposits), mode, at)
  }
}
