/**
 * One payment and two deposits of one address. A scan keeps the hashes it has confirmed deposits with from its later entries, but
 * not the ones it has put in review, so within one scan a payment can hold one deposit and confirm another.
 */
module SharedPayments {
  import opened Accounts
  import opened Coins
  import opened Options
  import opened Sums
  import opened Watch
  import opened WatchRuns

  /** The first unspent payment that matches the quote, or else the first that is near it, if it is confirmed but held back. */
  function HeldPayment(deposits: seq<Deposit>, entry: Entry, pending: seq<Entry>, credited: set<string>, mode: Mode, w: World)
    : Option<Payment>
  {
    if entry.read.coin.None? || entry.read.address.None? then None
    else
      var coin, expected := entry.read.coin.value, entry.read.expected;
      var answer := Incoming(entry, RequiredFor(entry.read, coin), mode, w);
      if answer.Failed? then None
      else
        var exact := FirstOfKind(answer.payments, Match, expected, coin, credited);
        var near := FirstOfKind(answer.payments, Kind.Review, expected, coin, credited);
        if exact.Some? then
          if exact.value.confirmations >= RequiredFor(entry.read, coin) && !Clear(deposits, entry, pending, exact.value, coin, w) then exact
          else None
        else if near.Some? && near.value.confirmations >= RequiredFor(entry.read, coin) then near
        else None
  }

  /** It is flagged exactly then. */
  lemma FlagsHeldPayments(deposits: seq<Deposit>, entry: Entry, pending: seq<Entry>, credited: set<string>, mode: Mode, w: World)
    ensures var held, verdict := HeldPayment(deposits, entry, pending, credited, mode, w), Judge(deposits, entry, pending, credited, mode, w);
            verdict.Flag? <==> held.Some?
    ensures var held, verdict := HeldPayment(deposits, entry, pending, credited, mode, w), Judge(deposits, entry, pending, credited, mode, w);
            held.Some? ==> verdict == Flag(held.value)
  {
    if entry.read.coin.Some? {
      var coin := entry.read.coin.value;
      var answer := Incoming(entry, RequiredFor(entry.read, coin), mode, w);
      if answer.Found? {
        var p := FirstOfKind(answer.payments, Match, entry.read.expected, coin, credited);
        if p.Some? {
          NoReasons(deposits, entry, pending, coin, p.value, w);
        }
      }
    }
    hide Reasons;
    hide Incoming;
    hide FirstOfKind;
    hide Clear;
    hide PaymentSeen;
    hide RequiredFor;
    hide Deadline;
  }

  /** The same for a payment that confirms. */
  lemma CreditsClearPayments(deposits: seq<Deposit>, entry: Entry, pending: seq<Entry>, credited: set<string>, mode: Mode, w: World)
    ensures var clear, verdict := ClearPayment(deposits, entry, pending, credited, mode, w), Judge(deposits, entry, pending, credited, mode, w);
            verdict.Credit? <==> clear.Some?
    ensures var clear, verdict := ClearPayment(deposits, entry, pending, credited, mode, w), Judge(deposits, entry, pending, credited, mode, w);
            clear.Some? ==> verdict == Credit(clear.value)
  {
    if entry.read.coin.Some? {
      var coin := entry.read.coin.value;
      var answer := Incoming(entry, RequiredFor(entry.read, coin), mode, w);
      if answer.Found? {
        var p := FirstOfKind(answer.payments, Match, entry.read.expected, coin, credited);
        if p.Some? {
          NoReasons(deposits, entry, pending, coin, p.value, w);
          ClearEnough(deposits, entry, pending, p.value, coin, w);
        }
      }
    }
    hide Reasons;
    hide Incoming;
    hide FirstOfKind;
    hide Clear;
    hide PaymentSeen;
    hide RequiredFor;
    hide Deadline;
  }

  /** Two entries inspected one after the other, as two steps of one scan. */
  function InspectedBoth(deposits: seq<Deposit>, first: Entry, second: Entry, pending: seq<Entry>, credited: set<string>, mode: Mode,
                         w: World, later: World): seq<Deposit>
  {
    var (mid, hashes) := Inspected(deposits, first, pending, credited, mode, w);
    Inspected(mid, second, pending, hashes, mode, later).0
  }

  /** The row has been put in review, or confirmed, with the payment. */
  predicate PutInReview(before: Deposit, after: Deposit, hash: string) {
    before.status == Pending && after.status == TxStatus.Review && after.meta.txHash == hash
  }

  predicate Confirms(before: Deposit, after: Deposit, hash: string) {
    before.status != Confirmed && after.status == Confirmed && after.meta.txHash == hash
  }

  lemma {:induction false} SameRecent(deposits: seq<Deposit>, i: nat, row: Deposit, user: UserId, since: int)
    requires i < |deposits| && row.user == deposits[i].user && row.createdAt == deposits[i].createdAt
    ensures Count(deposits[i := row], RecentOf(user, since)) == Count(deposits, RecentOf(user, since))
  {
    CountUpdate(deposits, i, row, RecentOf(user, since));
    hide Count;
  }

  /** Inspecting another deposit changes nothing about whether a payment is clear. */
  lemma StillClear(deposits: seq<Deposit>, i: nat, row: Deposit, entry: Entry, pending: seq<Entry>, credited: set<string>, mode: Mode, w: World)
    requires i < |deposits| && row.user == deposits[i].user && row.createdAt == deposits[i].createdAt
    ensures ClearPayment(deposits[i := row], entry, pending, credited, mode, w) == ClearPayment(deposits, entry, pending, credited, mode, w)
  {
    SameRecent(deposits, i, row, entry.read.user, w.now - 600_000);
    hide Count;
    hide RecentOf;
    hide Near;
    hide Incoming;
    hide FirstOfKind;
    hide PaymentSeen;
    hide RequiredFor;
    hide Deadline;
  }

  lemma FirstEffect(deposits: seq<Deposit>, first: Entry, pending: seq<Entry>, credited: set<string>, mode: Mode, w: World, hash: string)
    requires first.id < |deposits| && Handles(mode, first.read)
    ensures var (mid, hashes) := Inspected(deposits, first, pending, credited, mode, w);
            var held := HeldPayment(deposits, first, pending, credited, mode, w);
            && |mid| == |deposits| && mid == deposits[first.id := mid[first.id]]
            && mid[first.id].user == deposits[first.id].user && mid[first.id].createdAt == deposits[first.id].createdAt
            && (PutInReview(deposits[first.id], mid[first.id], hash)
                <==> deposits[first.id].status == Pending && held.Some? && held.value.hash == hash)
            && (held.Some? ==> hashes == credited)
  {
    FlagsHeldPayments(deposits, first, pending, credited, mode, w);
    hide Judge;
    hide HeldPayment;
  }

  lemma SecondEffect(deposits: seq<Deposit>, second: Entry, pending: seq<Entry>, credited: set<string>, mode: Mode, w: World, hash: string)
    requires second.id < |deposits| && Handles(mode, second.read)
    ensures var (last, hashes) := Inspected(deposits, second, pending, credited, mode, w);
            var clear := ClearPayment(deposits, second, pending, credited, mode, w);
            && |last| == |deposits| && last == deposits[second.id := last[second.id]]
            && (Confirms(deposits[second.id], last[second.id], hash)
                <==> IsCreditable(deposits[second.id]) && clear.Some? && clear.value.hash == hash)
  {
    CreditsClearPayments(deposits, second, pending, credited, mode, w);
    hide Judge;
    hide ClearPayment;
  }

  /**
   * One payment puts one deposit in review and confirms the next exactly if the first is pending and would be held for it, and the
   * second creditable and clear of it, both judged by the hashes known before the first: a flag spends nothing.
   */
  lemma HoldsAndConfirmsExactly(deposits: seq<Deposit>, first: Entry, second: Entry, pending: seq<Entry>, credited: set<string>, mode: Mode,
                                w: World, later: World, hash: string)
    requires first.id < |deposits| && second.id < |deposits| && first.id != second.id && Handles(mode, first.read) && Handles(mode, second.read)
    ensures var last := InspectedBoth(deposits, first, second, pending, credited, mode, w, later);
            var held := HeldPayment(deposits, first, pending, credited, mode, w);
            var clear := ClearPayment(deposits, second, pending, credited, mode, later);
            |last| == |deposits|
            && (PutInReview(deposits[first.id], last[first.id], hash) && Confirms(deposits[second.id], last[second.id], hash)
                <==> && deposits[first.id].status == Pending && held.Some? && held.value.hash == hash
                     && IsCreditable(deposits[second.id]) && clear.Some? && clear.value.hash == hash)
  {
    FirstEffect(deposits, first, pending, credited, mode, w, hash);
    var (mid, hashes) := Inspected(deposits, first, pending, credited, mode, w);
    SecondEffect(mid, second, pending, hashes, mode, later, hash);
    StillClear(deposits, first.id, mid[first.id], second, pending, credited, mode, later);
    hide Inspected;
    hide HeldPayment;
    hide ClearPayment;
  }

  /** A confirmation does spend: no later entry of the scan is judged by the hash. */
  lemma ConfirmationSpends(deposits: seq<Deposit>, first: Entry, second: Entry, pending: seq<Entry>, credited: set<string>, mode: Mode,
                           w: World, later: World, hash: string)
    requires first.id < |deposits| && second.id < |deposits| && first.id != second.id && Handles(mode, first.read) && Handles(mode, second.read)
    ensures var (mid, hashes) := Inspected(deposits, first, pending, credited, mode, w);
            |mid| == |deposits| && (Confirms(deposits[first.id], mid[first.id], hash) ==>
              var verdict := Judge(mid, second, pending, hashes, mode, later);
              HasPayment(verdict) ==> verdict.payment.hash != hash)
  {
    var (mid, hashes) := Inspected(deposits, first, pending, credited, mode, w);
    SecondEffect(deposits, first, pending, credited, mode, w, hash);
    CreditsClearPayments(deposits, first, pending, credited, mode, w);
    JudgeSkips(mid, second, pending, hashes, mode, later);
    hide Judge;
    hide ClearPayment;
  }

  lemma JudgeSkips(deposits: seq<Deposit>, entry: Entry, pending: seq<Entry>, credited: set<string>, mode: Mode, w: World)
    ensures var verdict := Judge(deposits, entry, pending, credited, mode, w);
            HasPayment(verdict) ==> verdict.payment.hash !in credited
  {
    hide Reasons;
    hide Incoming;
    hide PaymentSeen;
    hide RequiredFor;
    hide Deadline;
  }

  /** Both lookups return this one payment, unspent and confirmed often enough for either deposit. */
  predicate OneGoodPayment(first: Entry, second: Entry, credited: set<string>, w: World, later: World, p: Payment) {
    && first.read.coin.Some? && second.read.coin.Some? && first.read.address.Some? && second.read.address.Some?
    && w.lookup(first.id) == Found([p]) && later.lookup(second.id) == Found([p]) && p.hash !in credited
    && p.confirmations >= RequiredFor(first.read, first.read.coin.value)
    && p.confirmations >= RequiredFor(second.read, second.read.coin.value)
  }

  function KindFor(entry: Entry, p: Payment): Kind {
    if entry.read.coin.Some? then ClassifyReceived(entry.read.expected, p.amount, entry.read.coin.value) else Ignore
  }

  predicate ClearFor(deposits: seq<Deposit>, entry: Entry, pending: seq<Entry>, p: Payment, w: World) {
    entry.read.coin.Some? && KindFor(entry, p) == Match && Clear(deposits, entry, pending, p, entry.read.coin.value, w)
  }

  lemma FirstOfOne(p: Payment, kind: Kind, expected: real, coin: Coin, credited: set<string>)
    requires p.hash !in credited
    ensures FirstOfKind([p], kind, expected, coin, credited) == if ClassifyReceived(expected, p.amount, coin) == kind then Some(p) else None
  {
    assert [p][1..] == [];
    hide ClassifyReceived;
  }

  lemma OnePaymentHeld(deposits: seq<Deposit>, entry: Entry, pending: seq<Entry>, credited: set<string>, w: World, p: Payment)
    requires entry.read.coin.Some? && entry.read.address.Some? && w.lookup(entry.id) == Found([p]) && p.hash !in credited
    requires p.confirmations >= RequiredFor(entry.read, entry.read.coin.value)
    ensures HeldPayment(deposits, entry, pending, credited, Chain, w)
         == if KindFor(entry, p) != Ignore && !ClearFor(deposits, entry, pending, p, w) then Some(p) else None
    ensures ClearPayment(deposits, entry, pending, credited, Chain, w) == if ClearFor(deposits, entry, pending, p, w) then Some(p) else None
  {
    FirstOfOne(p, Match, entry.read.expected, entry.read.coin.value, credited);
    FirstOfOne(p, Kind.Review, entry.read.expected, entry.read.coin.value, credited);
    hide Clear;
    hide FirstOfKind;
    hide ClassifyReceived;
    hide RequiredFor;
  }

  /**
   * A single good payment holds one pending deposit and confirms the next exactly if it counts for the first without being clear,
   * and is clear for the second.
   */
  lemma OnePaymentServesTwo(deposits: seq<Deposit>, first: Entry, second: Entry, pending: seq<Entry>, credited: set<string>,
                            w: World, later: World, p: Payment)
    requires first.id < |deposits| && second.id < |deposits| && first.id != second.id && Handles(Chain, first.read) && Handles(Chain, second.read)
    requires OneGoodPayment(first, second, credited, w, later, p)
    ensures var last := InspectedBoth(deposits, first, second, pending, credited, Chain, w, later);
            |last| == |deposits|
            && (PutInReview(deposits[first.id], last[first.id], p.hash) && Confirms(deposits[second.id], last[second.id], p.hash)
                <==> && deposits[first.id].status == Pending && KindFor(first, p) != Ignore && !ClearFor(deposits, first, pending, p, w)
                     && IsCreditable(deposits[second.id]) && ClearFor(deposits, second, pending, p, later))
  {
    HoldsAndConfirmsExactly(deposits, first, second, pending, credited, Chain, w, later, p.hash);
    OnePaymentHeld(deposits, first, pending, credited, w, p);
    OnePaymentHeld(deposits, second, pending, credited, later, p);
    hide HeldPayment;
    hide ClearPayment;
    hide InspectedBoth;
    hide KindFor;
    hide ClearFor;
  }

  const NoPayment: Metadata := Metadata(None, "", 0.0, None, Some(1000), None, None)

  /** Quotes of 1.00 and, later, 1.30 BTC on one address. */
  const SmallQuote: Deposit := Deposit(0, Some(BTC), Some("addr"), 100, 1.0, 0, 0, Pending, NoPayment, None)
  const LargeQuote: Deposit := Deposit(1, Some(BTC), Some("addr"), 100, 1.3, 0, 0, Pending, NoPayment, None)

  /** A payment of 1.11 BTC has come in. */
  const Arrived: Payment := Payment("tx", 1.11, 3)

  function Seen(): World {
    World(500, id => Found([Arrived]), user => 1)
  }

  /** The same for every entry of a scan. */
  function Steady(w: World): nat -> World {
    k => w
  }

  lemma InspectionOrder()
    ensures PendingEntries([SmallQuote, LargeQuote], 2) == [Entry(1, LargeQuote), Entry(0, SmallQuote)]
    ensures CreditedHashes([SmallQuote, LargeQuote]) == {}
  {
    assert PendingEntries([SmallQuote, LargeQuote], 0) == [];
    assert PendingEntries([SmallQuote, LargeQuote], 1) == [Entry(0, SmallQuote)];
  }

  lemma ScanIsBoth()
    ensures Scan([SmallQuote, LargeQuote], Chain, Steady(Seen()))
         == InspectedBoth([SmallQuote, LargeQuote], Entry(1, LargeQuote), Entry(0, SmallQuote),
                          [Entry(1, LargeQuote), Entry(0, SmallQuote)], {}, Chain, Seen(), Seen())
  {
    InspectionOrder();
    ScanOfTwo([SmallQuote, LargeQuote], Entry(1, LargeQuote), Entry(0, SmallQuote), {}, Chain, Steady(Seen()));
    assert |[SmallQuote, LargeQuote]| == 2;
    hide PendingEntries;
    hide CreditedHashes;
    hide ScanFrom;
    hide InspectedBoth;
  }

  lemma ScanOfTwo(deposits: seq<Deposit>, first: Entry, second: Entry, credited: set<string>, mode: Mode, at: nat -> World)
    ensures ScanFrom(deposits, [first, second], 0, credited, mode, at)
         == InspectedBoth(deposits, first, second, [first, second], credited, mode, at(0), at(1))
  {
    hide Inspected;
    var pending := [first, second];
    var (mid, hashes) := Inspected(deposits, first, pending, credited, mode, at(0));
    var (last, all) := Inspected(mid, second, pending, hashes, mode, at(1));
    assert ScanFrom(last, pending, 2, all, mode, at) == last;
    assert ScanFrom(mid, pending, 1, hashes, mode, at) == last;
    assert ScanFrom(deposits, pending, 0, credited, mode, at) == last;
  }

  lemma LargeIsHeld()
    ensures var pending := [Entry(1, LargeQuote), Entry(0, SmallQuote)];
            KindFor(Entry(1, LargeQuote), Arrived) == Match && !ClearFor([SmallQuote, LargeQuote], Entry(1, LargeQuote), pending, Arrived, Seen())
  {
    var pending := [Entry(1, LargeQuote), Entry(0, SmallQuote)];
    assert pending[1] in pending && Near(1.0, 1.11, WindowFor(LargeQuote, BTC));
  }

  lemma SmallIsClear()
    ensures var pending := [Entry(1, LargeQuote), Entry(0, SmallQuote)];
            ClearFor([SmallQuote, LargeQuote], Entry(0, SmallQuote), pending, Arrived, Seen())
  {
    var deposits, since := [SmallQuote, LargeQuote], -599_500;
    assert deposits == [SmallQuote] + [LargeQuote];
    CountConcat([SmallQuote], [LargeQuote], RecentOf(0, since));
    hide Count;
    TwoAreFew(deposits, RecentOf(0, since));
  }

  lemma TwoAreFew(deposits: seq<Deposit>, p: Deposit -> bool)
    requires |deposits| == 2
    ensures Count(deposits, p) < 3
  {
    assert Count(deposits[1..][1..], p) == 0;
    assert Count(deposits[1..], p) <= 1;
  }

  /** An input: one scan puts the deposit of 1.30 in review with the payment of 1.11, and then confirms the one of 1.00 with it. */
  lemma OnePaymentTwice()
    ensures var last := Scan([SmallQuote, LargeQuote], Chain, Steady(Seen()));
            && |last| == 2 && last[1].status == TxStatus.Review && last[0].status == Confirmed
            && last[1].meta.txHash == last[0].meta.txHash == "tx"
  {
    ScanIsBoth();
    LargeIsHeld();
    SmallIsClear();
    OnePaymentServesTwo([SmallQuote, LargeQuote], Entry(1, LargeQuote), Entry(0, SmallQuote),
                        [Entry(1, LargeQuote), Entry(0, SmallQuote)], {}, Seen(), Seen(), Arrived);
    hide Scan;
    hide InspectedBoth;
    hide ClearFor;
    hide KindFor;
  }
}
