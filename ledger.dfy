/** The identifiers and the transaction sum type shared by the whole program (src/ledger.rs). */
module Ledger {

  /** A client identifier is a `u16`. */
  type ClientId = c: int | 0 <= c < 0x1_0000

  /** A transaction identifier is a `u32`. */
  type TxId = t: int | 0 <= t < 0x1_0000_0000

  /** Monetary amounts are exact minor units rather than `f64`. */
  type Amount = int

  /** Each of the operations the ledger may be asked to process. */
  datatype Transaction =
    | Deposit(client: ClientId, tx: TxId, amount: Amount)
    | Withdrawal(client: ClientId, tx: TxId, amount: Amount)
    | Dispute(client: ClientId, tx: TxId)
    | Resolve(client: ClientId, tx: TxId)
    | ChargeBack(client: ClientId, tx: TxId)
}
