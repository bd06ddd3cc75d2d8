/** Client and transaction identifiers: `u16` and `u32`. */
module Ids {
  type ClientId = x: int | 0 <= x < 0x1_0000
  type TxId = x: int | 0 <= x < 0x1_0000_0000
}

/** The five transaction events and the dispute lifecycle of a deposit. */
module Transactions {
  import opened Ids
  import opened Decimals
  import opened Results

  datatype Transaction =
    | Deposit(id: TxId, client: ClientId, amount: Decimal)
    | Withdrawal(id: TxId, client: ClientId, amount: Decimal)
    | Dispute(id: TxId, client: ClientId)
    | Resolve(id: TxId, client: ClientId)
    | Chargeback(id: TxId, client: ClientId)
  {
    /** The transaction id the event carries or refers to. */
    function Id(): (r: TxId)
      ensures r == this.id
    {
      match this
      case Deposit(id, _, _) => id
      case Withdrawal(id, _, _) => id
      case Dispute(id, _) => id
      case Resolve(id, _) => id
      case Chargeback(id, _) => id
    }

    /** The client the event is addressed to. */
    function Client(): (r: ClientId)
      ensures r == this.client
    {
      match this
      case Deposit(_, client, _) => client
      case Withdrawal(_, client, _) => client
      case Dispute(_, client) => client
      case Resolve(_, client) => client
      case Chargeback(_, client) => client
    }

    /** The amount, present exactly for the two money-moving events. */
    function Amount(): (r: Option<Decimal>)
      ensures r.Some? <==> (Deposit? || Withdrawal?)
      ensures r.Some? ==> r.value == this.amount
    {
      match this
      case Deposit(_, _, amount) => Some(amount)
      case Withdrawal(_, _, amount) => Some(amount)
      case _ => None
    }

    /** Deposits and withdrawals move money and mint a new transaction id. */
    predicate MovesMoney()
    {
      Deposit? || Withdrawal?
    }
  }

  /** Only money-moving events are ever stored in an account's history. */
  type StoredTx = t: Transaction | t.MovesMoney() witness Deposit(0, 0, 0.0)

  /** The amount of a stored event: the `unwrap()` that cannot fail. */
  function StoredAmount(t: StoredTx): (r: Decimal)
    ensures t.Amount() == Some(r)
  {
    t.amount
  }

  /** Where a deposit stands in its dispute lifecycle. */
  datatype TransactionState = Normal | Disputed | ResolvedOrChargedback
  {
    /** Position in the forward-only order Normal, Disputed, ResolvedOrChargedback. */
    function Rank(): nat
    {
      match this
      case Normal => 0
      case Disputed => 1
      case ResolvedOrChargedback => 2
    }
  }

  /** The lifecycle has exactly three states, told apart by their rank. */
  lemma StatesDeterminedByRank(s: TransactionState, t: TransactionState)
    ensures s.Rank() == t.Rank() <==> s == t
    ensures s == Normal || s == Disputed || s == ResolvedOrChargedback
  {
  }
}
