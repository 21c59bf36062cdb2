/**
 * Crediting and flagging deposits as it is written, statement by statement, on the wallets and the ledger. With nothing in
 * between, the second look of a credit always agrees with the first and its roll-back is never reached; Interleaving has both.
 */
module Credit {
  import opened Accounts
  import opened Atomicity
  import opened Options
  import opened Play

  class DepositDesk {
    var wallets: map<UserId, Wallet>
    var ledger: seq<Tx>

    /** These tables together with whatever else the database holds. */
    ghost function Within(db: Db): Db
      reads this
    {
      db.(wallets := wallets, ledger := ledger)
    }

    constructor ()
      ensures wallets == map[] && ledger == []
    {
      wallets, ledger := map[], [];
    }

    method CreditDeposit(id: nat) returns (credited: Option<Tx>)
      modifies this
      ensures forall db :: Within(db) == Play.CreditDeposit(old(Within(db)), id)
      ensures credited.Some? <==> Creditable(old(ledger), id)
      ensures credited.Some? ==> HasStatus(ledger, id, Confirmed) && credited.value == ledger[id]
    {
      forall db {
        CreditIs(old(Within(db)), id);
      }
      hide Play.CreditDeposit;
      if !Creditable(ledger, id) {
        return None;
      }
      ledger := ledger[id := ledger[id].(status := Confirmed)];
      var claimed := ledger[id];
      if claimed.user !in wallets {
        wallets := wallets[claimed.user := NewWallet];
      }
      var w := wallets[claimed.user];
      wallets := wallets[claimed.user := w.(balance := w.balance + claimed.amount, deposited := w.deposited + claimed.amount)];
      assert wallets == CreditedTo(old(wallets), claimed.user, claimed.amount);
      return Some(claimed);
    }

    method FlagDepositForReview(id: nat) returns (flagged: bool)
      modifies `ledger
      ensures forall db :: Within(db) == MoveDeposit(old(Within(db)), id, Review)
      ensures flagged <==> HasStatus(old(ledger), id, Pending)
    {
      if !HasStatus(ledger, id, Pending) {
        return false;
      }
      ledger := ledger[id := ledger[id].(status := Review)];
      return true;
    }

    method CancelUnpaid(id: nat)
      modifies `ledger
      ensures forall db :: Within(db) == MoveDeposit(old(Within(db)), id, Cancelled)
    {
      if HasStatus(ledger, id, Pending) {
        ledger := ledger[id := ledger[id].(status := Cancelled)];
      }
    }
  }
}
