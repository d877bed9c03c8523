/**
 * An earlier copy of the record conversion (src/core.rs). It has its own
 * transaction and record types, spells the last variant `Chargeback`, and
 * reports a missing amount as a generic deserialisation error.
 */
module Core {
  import opened Wrappers
  import opened TypeWords
  import Ledger
  import Csv

  datatype Error =
    | TransDeError(message: string)
    | UnknownTransactionType(message: string)

  datatype Transaction =
    | Deposit(client: Ledger.ClientId, tx: Ledger.TxId, amount: Ledger.Amount)
    | Withdrawal(client: Ledger.ClientId, tx: Ledger.TxId, amount: Ledger.Amount)
    | Dispute(client: Ledger.ClientId, tx: Ledger.TxId)
    | Resolve(client: Ledger.ClientId, tx: Ledger.TxId)
    | Chargeback(client: Ledger.ClientId, tx: Ledger.TxId)

  datatype CsvTransaction = CsvTransaction(t: string, client: Ledger.ClientId, tx: Ledger.TxId, amount: Option<Ledger.Amount>)

  /** The kind of record a transaction of this copy is read from. */
  function TransactionKind(x: Transaction): Kind
  {
    match x
    case Deposit(_, _, _) => DepositKind
    case Withdrawal(_, _, _) => WithdrawalKind
    case Dispute(_, _) => DisputeKind
    case Resolve(_, _) => ResolveKind
    case Chargeback(_, _) => ChargeBackKind
  }

  /** Classifies a record by its lower-cased type word, as `Csv.TryInto` does. */
  function TryFrom(value: CsvTransaction): (r: Result<Transaction, Error>)
    ensures r.Success? ==> r.value.client == value.client && r.value.tx == value.tx
    ensures r.Success? ==> KindOf(value.t) == Some(TransactionKind(r.value))
    ensures r.Success? && (r.value.Deposit? || r.value.Withdrawal?) ==> value.amount == Some(r.value.amount)
    ensures (r.Failure? && r.error.TransDeError?)
        <==> (KindOf(value.t) in {Some(DepositKind), Some(WithdrawalKind)} && value.amount.None?)
    ensures (r.Failure? && r.error.UnknownTransactionType?) <==> KindOf(value.t).None?
  {
    var CsvTransaction(t, client, tx, amount) := value;
    match KindOf(t)
    case Some(DepositKind) =>
      if amount.Some? then Success(Deposit(client, tx, amount.value))
      else Failure(TransDeError("amount absent from deposit"))
    case Some(WithdrawalKind) =>
      if amount.Some? then Success(Withdrawal(client, tx, amount.value))
      else Failure(TransDeError("amount absent from withdrawal"))
    case Some(DisputeKind) => Success(Dispute(client, tx))
    case Some(ResolveKind) => Success(Resolve(client, tx))
    case Some(ChargeBackKind) => Success(Chargeback(client, tx))
    case None => Failure(UnknownTransactionType("Unknown type: " + t))
  }

  /** The variant of this copy that corresponds to a `Ledger.Transaction`. */
  function FromLedger(x: Ledger.Transaction): Transaction
  {
    match x
    case Deposit(c, t, a) => Deposit(c, t, a)
    case Withdrawal(c, t, a) => Withdrawal(c, t, a)
    case Dispute(c, t) => Dispute(c, t)
    case Resolve(c, t) => Resolve(c, t)
    case ChargeBack(c, t) => Chargeback(c, t)
  }

  /** The error of this copy that corresponds to a `Csv.Error`. */
  function FromCsvError(e: Csv.Error): Error
  {
    match e
    case MissingAmount(m) => TransDeError(m)
    case UnknownTransactionType(m) => UnknownTransactionType(m)
  }

  /**
   * The two copies agree on every record: the same transaction up to the
   * variant's name, a missing amount as `TransDeError` with the same message,
   * and the same unknown-type error.
   */
  lemma TryFromAgreesWithCsv(value: CsvTransaction)
    ensures var r := Csv.TryInto(Csv.CsvTransaction(value.t, value.client, value.tx, value.amount));
      TryFrom(value) == (if r.Success? then Success(FromLedger(r.value)) else Failure(FromCsvError(r.error)))
  {
  }

  /** Re-spelling the type word in another case gives the same transaction. */
  lemma TryFromIgnoresCase(value: CsvTransaction, t': string)
    requires Lower(t') == Lower(value.t)
    requires TryFrom(value).Success?
    ensures TryFrom(value.(t := t')) == TryFrom(value)
  {
  }
}
