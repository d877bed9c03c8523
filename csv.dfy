/**
 * The conversion of a deserialised input record into a `Transaction`
 * (src/csv.rs), and the column list of the output.
 */
module Csv {
  import opened Wrappers
  import opened Ledger
  import opened TypeWords

  /** The ways a record can fail to become a transaction. */
  datatype Error =
    | MissingAmount(message: string)
    | UnknownTransactionType(message: string)

  /** A record as read from the input: the `amount` column may be absent. */
  datatype CsvTransaction = CsvTransaction(t: string, client: ClientId, tx: TxId, amount: Option<Amount>)

  /** The kind of record a transaction is read from. */
  function TransactionKind(x: Transaction): Kind
  {
    match x
    case Deposit(_, _, _) => DepositKind
    case Withdrawal(_, _, _) => WithdrawalKind
    case Dispute(_, _) => DisputeKind
    case Resolve(_, _) => ResolveKind
    case ChargeBack(_, _) => ChargeBackKind
  }

  /** Whether records of kind `k` must carry an amount. */
  predicate NeedsAmount(k: Kind)
  {
    k == DepositKind || k == WithdrawalKind
  }

  /**
   * Classifies a record by its lower-cased type word. Deposits and
   * withdrawals need an amount; disputes, resolutions and chargebacks ignore
   * whatever amount the record holds.
   */
  function TryInto(record: CsvTransaction): (r: Result<Transaction, Error>)
    ensures r.Success? ==> r.value.client == record.client && r.value.tx == record.tx
    ensures r.Success? ==> KindOf(record.t) == Some(TransactionKind(r.value))
    ensures r.Success? && (r.value.Deposit? || r.value.Withdrawal?) ==> record.amount == Some(r.value.amount)
    ensures (r.Failure? && r.error.MissingAmount?)
        <==> (KindOf(record.t).Some? && NeedsAmount(KindOf(record.t).value) && record.amount.None?)
    ensures (r.Failure? && r.error.UnknownTransactionType?) <==> KindOf(record.t).None?
  {
    var CsvTransaction(t, client, tx, amount) := record;
    match KindOf(t)
    case Some(DepositKind) =>
      if amount.Some? then Success(Deposit(client, tx, amount.value))
      else Failure(MissingAmount("amount absent from deposit"))
    case Some(WithdrawalKind) =>
      if amount.Some? then Success(Withdrawal(client, tx, amount.value))
      else Failure(MissingAmount("amount absent from withdrawal"))
    case Some(DisputeKind) => Success(Dispute(client, tx))
    case Some(ResolveKind) => Success(Resolve(client, tx))
    case Some(ChargeBackKind) => Success(ChargeBack(client, tx))
    case None => Failure(UnknownTransactionType("Unknown type: " + t))
  }

  /** What a record must hold for a given transaction to be read from it. */
  predicate Describes(record: CsvTransaction, x: Transaction)
  {
    && Lower(record.t) == Word(TransactionKind(x))
    && record.client == x.client
    && record.tx == x.tx
    && (x.Deposit? || x.Withdrawal? ==> record.amount == Some(x.amount))
  }

  /** Every transaction read from a record is described by that record. */
  lemma TryIntoSound(record: CsvTransaction)
    requires TryInto(record).Success?
    ensures Describes(record, TryInto(record).value)
  {
  }

  /** Every record that describes a transaction is read as exactly that transaction. */
  lemma TryIntoComplete(record: CsvTransaction, x: Transaction)
    requires Describes(record, x)
    ensures TryInto(record) == Success(x)
  {
  }

  /** A deposit or withdrawal record with no amount is refused with the matching message. */
  lemma TryIntoMissingAmount(record: CsvTransaction)
    requires record.amount.None?
    ensures KindOf(record.t) == Some(DepositKind) ==>
      TryInto(record) == Failure(MissingAmount("amount absent from deposit"))
    ensures KindOf(record.t) == Some(WithdrawalKind) ==>
      TryInto(record) == Failure(MissingAmount("amount absent from withdrawal"))
  {
  }

  /** An unknown word is refused, and the message quotes the word as written. */
  lemma TryIntoUnknown(record: CsvTransaction)
    requires forall k: Kind :: Lower(record.t) != Word(k)
    ensures TryInto(record) == Failure(UnknownTransactionType("Unknown type: " + record.t))
  {
  }

  /** Re-spelling the type word in another case changes nothing but an unknown word's message. */
  lemma TryIntoIgnoresCase(record: CsvTransaction, t': string)
    requires Lower(t') == Lower(record.t)
    ensures TryInto(record.(t := t')).Success? == TryInto(record).Success?
    ensures TryInto(record).Success? || TryInto(record).error.MissingAmount? ==>
      TryInto(record.(t := t')) == TryInto(record)
    ensures TryInto(record).Failure? && TryInto(record).error.UnknownTransactionType? ==>
      TryInto(record.(t := t')) == Failure(UnknownTransactionType("Unknown type: " + t'))
  {
  }

  /** The record's own lower-cased word gives the same transaction. */
  lemma TryIntoLowered(record: CsvTransaction)
    requires TryInto(record).Success?
    ensures TryInto(record.(t := Lower(record.t))) == TryInto(record)
  {
    LowerIdempotent(record.t);
  }

  /** The columns of the output, in order. */
  function Headers(): (h: seq<string>)
    ensures |h| == 5
    ensures h[0] == "client" && h[4] == "locked"
    ensures h[1] == "available" && h[2] == "held" && h[3] == "total"
    ensures forall i, j :: 0 <= i < j < |h| ==> h[i] != h[j]
  {
    ["client", "available", "held", "total", "locked"]
  }
}
