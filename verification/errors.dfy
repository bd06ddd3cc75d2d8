/** The error values an account or the ledger returns for a rejected event. */
module Errors {
  import opened Ids
  import opened Decimals

  /**
   * One constructor per error kind. The "already resolved or charged back"
   * case is `DisputedSolved`, the name the account code raises.
   */
  datatype Error =
    | Unauthorized(requester: ClientId, owner: ClientId)
    | Locked(account: ClientId)
    | Overflow(addend: Decimal, balance: Decimal)
    | InsufficientFunds(account: ClientId)
    | TransactionNotFound(tx: TxId, account: ClientId)
    | NotInDispute(tx: TxId)
    | AlreadyDisputed(tx: TxId)
    | AmountTooLow
    | DuplicateTxId(tx: TxId)
    | DisputedSolved(tx: TxId)
}
