/** The identifiers and states that wallets and deposits share. */
module Accounts {
  type UserId = nat
  datatype TxStatus = Pending | Review | Confirmed | Cancelled
}
