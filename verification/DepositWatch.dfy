/** The watcher as it is written: flags, a loop over the pending deposits and a set of hashes that grows as it goes. */
module DepositWatch {
  import opened Accounts
  import opened Coins
  import opened Options
  import opened Watch

  class Watcher {
    var deposits: seq<Deposit>
    var running: bool
    var simulating: bool

    constructor ()
      ensures deposits == [] && !running && !simulating
    {
      deposits, running, simulating := [], false, false;
    }

    /** A tick while a scan of its kind is under way does nothing; otherwise it scans and leaves the flag down. */
    method Tick(at: nat -> World)
      modifies this
      ensures deposits == if old(running) then old(deposits) else Scan(old(deposits), Chain, at)
      ensures running == old(running) && simulating == old(simulating)
    {
      if running {
        return;
      }
      running := true;
      ScanPending(Chain, at);
      running := false;
    }

    method SimulateTick(at: nat -> World)
      modifies this
      ensures deposits == if old(simulating) then old(deposits) else Scan(old(deposits), Simulate, at)
      ensures running == old(running) && simulating == old(simulating)
    {
      if simulating {
        return;
      }
      simulating := true;
      ScanPending(Simulate, at);
      simulating := false;
    }

    method ScanPending(mode: Mode, at: nat -> World)
      modifies `deposits
      ensures deposits == Scan(old(deposits), mode, at)
    {
      var pending := PendingEntries(deposits, |deposits|);
      var creditedHashes := CreditedHashes(deposits);
      var k := 0;
      while k < |pending|
        invariant k <= |pending| && |deposits| == |old(deposits)|
        invariant ScanFrom(deposits, pending, k, creditedHashes, mode, at) == Scan(old(deposits), mode, at)
      {
        var entry := pending[k];
        if Handles(mode, entry.read) {
          creditedHashes := Inspect(entry, pending, creditedHashes, mode, at(k));
        }
        k := k + 1;
      }
    }

    method Inspect(entry: Entry, pending: seq<Entry>, creditedHashes: set<string>, mode: Mode, w: World) returns (hashes: set<string>)
      requires entry.id < |deposits| && Handles(mode, entry.read)
      modifies `deposits
      ensures (deposits, hashes) == Inspected(old(deposits), entry, pending, creditedHashes, mode, w)
      ensures |deposits| == |old(deposits)|
    {
      hide Deadline;
      hide PaymentSeen;
      hide RequiredFor;
      hide Progressed;
      hide Flagged;
      hide Expired;
      hide Credited;
      hide Incoming;
      hide FirstOfKind;
      hide Reasons;
      hashes := creditedHashes;
      assert deposits[entry.id := deposits[entry.id]] == deposits && hashes + {} == hashes;
      var deposit := entry.read;
      if deposit.coin.None? || deposit.address.None? {
        return;
      }
      var coin := deposit.coin.value;
      var required := RequiredFor(deposit, coin);
      var pastDeadline := w.now > Deadline(deposit);
      var seenAlready := PaymentSeen(deposit.meta);
      var answer := Incoming(entry, required, mode, w);
      var incoming := if answer.Found? then answer.payments else [];
      var exact := FirstOfKind(incoming, Match, deposit.expected, coin, creditedHashes);
      var near := FirstOfKind(incoming, Kind.Review, deposit.expected, coin, creditedHashes);
      if pastDeadline && !seenAlready && exact.None? && near.None? {
        CancelUnpaid(entry);
        return;
      }
      if answer.Failed? {
        return;
      }
      if exact.None? && near.Some? {
        Progress(entry, near.value);
        if near.value.confirmations < required {
          return;
        }
        FlagForReview(entry.id, near.value);
        assert deposits == old(deposits)[entry.id := deposits[entry.id]];
        return;
      }
      if exact.None? {
        return;
      }
      var reasons := Reasons(deposits, entry, pending, coin, exact.value.amount, w);
      Progress(entry, exact.value);
      if exact.value.confirmations < required {
        return;
      }
      if |reasons| > 0 {
        FlagForReview(entry.id, exact.value);
        assert deposits == old(deposits)[entry.id := deposits[entry.id]];
        return;
      }
      var credited := CreditDeposit(entry.id, exact.value, mode);
      assert deposits == old(deposits)[entry.id := deposits[entry.id]];
      if credited {
        hashes := hashes + {exact.value.hash};
      }
    }

    method Progress(entry: Entry, payment: Payment)
      requires entry.id < |deposits|
      modifies `deposits
      ensures deposits == old(deposits)[entry.id := Progressed(old(deposits)[entry.id], entry.read, payment)]
    {
      var read := entry.read.meta;
      var had := if read.confirmations.Some? then read.confirmations.value else -1;
      if had != payment.confirmations || read.txHash != payment.hash {
        var simulate := match read.simulate case Some(body) => Some(body.(confirmations := payment.confirmations)) case None => None;
        deposits := deposits[entry.id := deposits[entry.id].(meta := read.(simulate := simulate, txHash := payment.hash,
                                                                           received := payment.amount,
                                                                           confirmations := Some(payment.confirmations)))];
      }
    }

    method FlagForReview(id: nat, payment: Payment)
      requires id < |deposits|
      modifies `deposits
      ensures deposits == old(deposits)[id := Flagged(old(deposits)[id], payment)]
    {
      var current := deposits[id];
      if current.status != Pending {
        return;
      }
      deposits := deposits[id := current.(status := TxStatus.Review, meta := Paid(current.meta, payment))];
    }

    method CreditDeposit(id: nat, payment: Payment, mode: Mode) returns (credited: bool)
      requires id < |deposits|
      modifies `deposits
      ensures deposits == old(deposits)[id := Credited(old(deposits)[id], payment, mode)]
      ensures credited == IsCreditable(old(deposits)[id])
    {
      var current := deposits[id];
      if current.status != Pending && current.status != TxStatus.Review {
        return false;
      }
      deposits := deposits[id := current.(status := Confirmed, meta := Paid(current.meta, payment), creditedBy := Some(mode))];
      return true;
    }

    method CancelUnpaid(entry: Entry)
      requires entry.id < |deposits|
      modifies `deposits
      ensures deposits == old(deposits)[entry.id := Expired(old(deposits)[entry.id], entry.read)]
    {
      if deposits[entry.id].status == Pending {
        deposits := deposits[entry.id := deposits[entry.id].(status := Cancelled, meta := entry.read.meta)];
      }
    }
  }
}
