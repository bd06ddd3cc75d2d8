/**
 * Conversion of a parsed input row into a transaction event. Reading and
 * decoding the row itself is not part of this model.
 */
module CsvRecords {
  import opened Ids
  import opened Decimals
  import opened Results
  import T = Transactions

  /** The `type` column of a row. */
  datatype TxType = Deposit | Withdrawal | Dispute | Resolve | Chargeback

  /** One input row; the amount column may be empty. */
  datatype TransactionRecord = TransactionRecord(txType: TxType, client: ClientId, tx: TxId, amount: Option<Decimal>)

  /** A deposit or withdrawal row without an amount. */
  datatype RecordError = RecordError

  /** The row type an event comes from. */
  function TypeOf(t: T.Transaction): TxType
  {
    match t
    case Deposit(_, _, _) => Deposit
    case Withdrawal(_, _, _) => Withdrawal
    case Dispute(_, _) => Dispute
    case Resolve(_, _) => Resolve
    case Chargeback(_, _) => Chargeback
  }

  /**
   * `TryFrom<TransactionRecord> for Transaction`: fails exactly for a deposit
   * or withdrawal without an amount; otherwise copies id and client, keeps
   * the row type, and keeps the amount only for money-moving rows.
   */
  function TryFrom(record: TransactionRecord): (r: Result<T.Transaction, RecordError>)
    ensures r.Err? <==> (record.txType == Deposit || record.txType == Withdrawal) && record.amount.None?
    ensures r.Ok? ==> r.value.Id() == record.tx && r.value.Client() == record.client
    ensures r.Ok? ==> TypeOf(r.value) == record.txType
    ensures r.Ok? && r.value.MovesMoney() ==> r.value.Amount() == record.amount
    ensures r.Ok? && !r.value.MovesMoney() ==> r.value.Amount() == None
  {
    var id := record.tx;
    var client := record.client;
    match record.txType
    case Deposit =>
      (match record.amount
       case Some(amount) => Ok(T.Deposit(id, client, amount))
       case None => Err(RecordError))
    case Withdrawal =>
      (match record.amount
       case Some(amount) => Ok(T.Withdrawal(id, client, amount))
       case None => Err(RecordError))
    case Dispute => Ok(T.Dispute(id, client))
    case Resolve => Ok(T.Resolve(id, client))
    case Chargeback => Ok(T.Chargeback(id, client))
  }

  /** The row an event would be read from: the inverse of `TryFrom`. */
  function ToRecord(t: T.Transaction): TransactionRecord
  {
    TransactionRecord(TypeOf(t), t.client, t.id, t.Amount())
  }

  /** Every event survives the trip through its row. */
  lemma EventRoundTrip(t: T.Transaction)
    ensures TryFrom(ToRecord(t)) == Ok(t)
  {
  }

  /**
   * A row that converts comes back from its event unchanged, except that a
   * dispute, resolve or chargeback row loses its amount.
   */
  lemma RecordRoundTrip(record: TransactionRecord)
    requires TryFrom(record).Ok?
    ensures ToRecord(TryFrom(record).value)
         == if record.txType == Deposit || record.txType == Withdrawal then record
            else record.(amount := None)
  {
  }
}
