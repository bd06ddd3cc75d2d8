/**
 * One client's account: balances, lock flag, the history of money-moving
 * events and the dispute state of each deposit.
 */
module Accounts {
  import opened Ids
  import opened Decimals
  import opened Results
  import opened Errors
  import opened Transactions

  datatype Account = Account(
    id: ClientId,
    available: Decimal,
    held: Decimal,
    total: Decimal,
    locked: bool,
    transactions: map<TxId, StoredTx>,
    txState: map<TxId, TransactionState>)

  /** What `process_tx` returns: `Result<(), Error>`. */
  type Status = Result<(), Error>

  /** The status of one call together with the account it leaves behind. */
  datatype Step = Step(status: Status, account: Account)

  /**
   * The invariant every reachable account keeps: the total is the sum of the
   * two balances, and every tracked dispute state belongs to a stored event.
   */
  predicate Valid(a: Account)
  {
    && a.total == a.available + a.held
    && a.txState.Keys <= a.transactions.Keys
  }

  /** Every tracked dispute state belongs to a stored Deposit. */
  predicate HistoryOk(a: Account)
  {
    forall id :: id in a.txState ==> id in a.transactions && a.transactions[id].Deposit?
  }

  /** The id a money-moving event carries is not yet in the history. */
  predicate FreshId(a: Account, tx: Transaction)
  {
    tx.MovesMoney() ==> tx.Id() !in a.transactions
  }

  /**
   * Dispute states only move forward, one step at a time, and a newly
   * tracked id starts at Normal.
   */
  predicate StatesAdvance(a: Account, b: Account)
  {
    && a.txState.Keys <= b.txState.Keys
    && (forall id :: id in a.txState ==>
          a.txState[id].Rank() <= b.txState[id].Rank() <= a.txState[id].Rank() + 1)
    && (forall id :: id in b.txState && id !in a.txState ==> b.txState[id] == Normal)
  }

  /** `Account::new`: zero balances, unlocked, empty history. */
  function New(id: ClientId): (a: Account)
    ensures a.id == id && !a.locked
    ensures a.available == 0.0 && a.held == 0.0
    ensures a.transactions == map[] && a.txState == map[]
    ensures Valid(a) && HistoryOk(a)
  {
    Account(id, 0.0, 0.0, 0.0, false, map[], map[])
  }

  /** `compute_total`: re-establishes the total and touches nothing else. */
  function ComputeTotal(a: Account): (b: Account)
    ensures b.total == b.available + b.held
    ensures b.(total := a.total) == a
  {
    a.(total := a.available + a.held)
  }

  /** The amount a deposit or withdrawal actually applies: `rescale(4)` when the scale exceeds four. */
  function Rescaled(amount: Decimal): (r: Decimal)
    ensures HasScaleAtMost4(r)
    ensures r == Rescale4(amount)
  {
    if HasScaleAtMost4(amount) then
      RescaleKeepsFourDigitValues(amount);
      amount
    else Rescale4(amount)
  }

  /**
   * `deposit`: rejects a non-positive amount, then credits the rescaled
   * amount to `available` with an overflow check and marks the id Normal.
   * Both errors leave the account as it was.
   */
  function ApplyDeposit(a: Account, id: TxId, amount: Decimal): (s: Step)
    ensures amount <= 0.0 ==> s == Step(Err(AmountTooLow), a)
    ensures amount > 0.0 && !InRange(a.available + Rescale4(amount))
            ==> s == Step(Err(Overflow(Rescale4(amount), a.available)), a)
    ensures s.status.Ok? <==> amount > 0.0 && InRange(a.available + Rescale4(amount))
    ensures s.status.Ok? ==>
              && s.account.available == a.available + Rescale4(amount)
              && s.account.held == a.held
              && s.account.total == s.account.available + s.account.held
              && s.account.txState == a.txState[id := Normal]
              && s.account.(available := a.available, total := a.total, txState := a.txState) == a
  {
    if amount <= 0.0 then Step(Err(AmountTooLow), a)
    else
      var amount := Rescaled(amount);
      match CheckedAdd(a.available, amount)
      case None => Step(Err(Overflow(amount, a.available)), a)
      case Some(sum) =>
        Step(Ok(()), ComputeTotal(a.(available := sum)).(txState := a.txState[id := Normal]))
  }

  /**
   * `withdrawal`: rejects a non-positive amount, and an amount above
   * `available` (compared before rescaling); otherwise debits the rescaled
   * amount. It never creates a dispute state.
   */
  function ApplyWithdrawal(a: Account, amount: Decimal): (s: Step)
    ensures amount <= 0.0 ==> s == Step(Err(AmountTooLow), a)
    ensures amount > 0.0 && amount > a.available ==> s == Step(Err(InsufficientFunds(a.id)), a)
    ensures s.status.Ok? <==> 0.0 < amount <= a.available
    ensures s.status.Ok? ==>
              && s.account.available == a.available - Rescale4(amount)
              && s.account.held == a.held
              && s.account.total == s.account.available + s.account.held
              && s.account.(available := a.available, total := a.total) == a
  {
    if amount <= 0.0 then Step(Err(AmountTooLow), a)
    else if amount <= a.available then
      var amount := Rescaled(amount);
      Step(Ok(()), ComputeTotal(a.(available := a.available - amount)))
    else Step(Err(InsufficientFunds(a.id)), a)
  }

  /**
   * `dispute`: only a Normal id can be disputed. The state becomes Disputed
   * before the stored amount moves from `available` to `held`, so an
   * overflow of `held` leaves the id Disputed with the balances unmoved.
   */
  function ApplyDispute(a: Account, id: TxId): (s: Step)
    ensures id !in a.txState ==> s == Step(Err(TransactionNotFound(id, a.id)), a)
    ensures id in a.txState && a.txState[id] == Disputed ==> s == Step(Err(AlreadyDisputed(id)), a)
    ensures id in a.txState && a.txState[id] == ResolvedOrChargedback ==> s == Step(Err(DisputedSolved(id)), a)
    ensures id in a.txState && a.txState[id] == Normal && id in a.transactions ==>
              var amount := StoredAmount(a.transactions[id]);
              var marked := a.(txState := a.txState[id := Disputed]);
              && (InRange(a.held + amount) ==>
                    s == Step(Ok(()), marked.(held := a.held + amount, available := a.available - amount)))
              && (!InRange(a.held + amount) ==> s == Step(Err(Overflow(amount, a.held)), marked))
    ensures s.account.(txState := a.txState) == a || s.status.Ok?
  {
    if id !in a.txState then Step(Err(TransactionNotFound(id, a.id)), a)
    else
      match a.txState[id]
      case Disputed => Step(Err(AlreadyDisputed(id)), a)
      case ResolvedOrChargedback => Step(Err(DisputedSolved(id)), a)
      case Normal =>
        var marked := a.(txState := a.txState[id := Disputed]);
        if id !in marked.transactions then Step(Err(TransactionNotFound(id, marked.id)), marked)
        else
          var amount := StoredAmount(marked.transactions[id]);
          match CheckedAdd(marked.held, amount)
          case None => Step(Err(Overflow(amount, marked.held)), marked)
          case Some(held) => Step(Ok(()), marked.(held := held, available := marked.available - amount))
  }

  /**
   * `resolve`: only a Disputed id can be resolved. The state becomes
   * ResolvedOrChargedback before the stored amount moves from `held` back
   * to `available`, so an overflow of `available` leaves it committed.
   */
  function ApplyResolve(a: Account, id: TxId): (s: Step)
    ensures id !in a.txState ==> s == Step(Err(TransactionNotFound(id, a.id)), a)
    ensures id in a.txState && a.txState[id] == Normal ==> s == Step(Err(NotInDispute(id)), a)
    ensures id in a.txState && a.txState[id] == ResolvedOrChargedback ==> s == Step(Err(DisputedSolved(id)), a)
    ensures id in a.txState && a.txState[id] == Disputed && id in a.transactions ==>
              var amount := StoredAmount(a.transactions[id]);
              var marked := a.(txState := a.txState[id := ResolvedOrChargedback]);
              && (InRange(a.available + amount) ==>
                    s == Step(Ok(()), marked.(available := a.available + amount, held := a.held - amount)))
              && (!InRange(a.available + amount) ==> s == Step(Err(Overflow(amount, a.available)), marked))
    ensures s.account.(txState := a.txState) == a || s.status.Ok?
  {
    if id !in a.txState then Step(Err(TransactionNotFound(id, a.id)), a)
    else
      match a.txState[id]
      case ResolvedOrChargedback => Step(Err(DisputedSolved(id)), a)
      case Normal => Step(Err(NotInDispute(id)), a)
      case Disputed =>
        var marked := a.(txState := a.txState[id := ResolvedOrChargedback]);
        if id !in marked.transactions then Step(Err(TransactionNotFound(id, marked.id)), marked)
        else
          var amount := StoredAmount(marked.transactions[id]);
          match CheckedAdd(marked.available, amount)
          case None => Step(Err(Overflow(amount, marked.available)), marked)
          case Some(available) => Step(Ok(()), marked.(available := available, held := marked.held - amount))
  }

  /**
   * `chargeback`: only a Disputed id can be charged back. The stored amount
   * leaves `held`, the total is recomputed and the account is locked.
   */
  function ApplyChargeback(a: Account, id: TxId): (s: Step)
    ensures id !in a.txState ==> s == Step(Err(TransactionNotFound(id, a.id)), a)
    ensures id in a.txState && a.txState[id] == Normal ==> s == Step(Err(NotInDispute(id)), a)
    ensures id in a.txState && a.txState[id] == ResolvedOrChargedback ==> s == Step(Err(DisputedSolved(id)), a)
    ensures id in a.txState && a.txState[id] == Disputed && id in a.transactions ==>
              var amount := StoredAmount(a.transactions[id]);
              && s.status.Ok?
              && s.account.held == a.held - amount
              && s.account.available == a.available
              && s.account.total == s.account.available + s.account.held
              && s.account.locked
              && s.account.txState == a.txState[id := ResolvedOrChargedback]
              && s.account.transactions == a.transactions
    ensures s.account.(txState := a.txState) == a || s.status.Ok?
  {
    if id !in a.txState then Step(Err(TransactionNotFound(id, a.id)), a)
    else
      match a.txState[id]
      case ResolvedOrChargedback => Step(Err(DisputedSolved(id)), a)
      case Normal => Step(Err(NotInDispute(id)), a)
      case Disputed =>
        var marked := a.(txState := a.txState[id := ResolvedOrChargedback]);
        if id !in marked.transactions then Step(Err(TransactionNotFound(id, marked.id)), marked)
        else
          var amount := StoredAmount(marked.transactions[id]);
          Step(Ok(()), ComputeTotal(marked.(held := marked.held - amount)).(locked := true))
  }

  /**
   * `Account::process_tx`: ownership is checked first, then the lock, then
   * the rules of the event's kind. A successful deposit or withdrawal is
   * stored in the history with its raw amount.
   */
  function ProcessTx(a: Account, tx: Transaction): (s: Step)
    ensures tx.Client() != a.id ==> s == Step(Err(Unauthorized(tx.Client(), a.id)), a)
    ensures tx.Client() == a.id && a.locked ==> s == Step(Err(Locked(a.id)), a)
    ensures s.account.id == a.id
    ensures a.locked ==> s.account == a
    ensures s.status.Err? && !tx.MovesMoney() ==> s.account.(txState := a.txState) == a
    ensures s.status.Err? && tx.MovesMoney() ==> s.account == a
    ensures tx.MovesMoney() && s.status.Ok? ==> s.account.transactions == a.transactions[tx.Id() := tx]
    ensures !tx.MovesMoney() ==> s.account.transactions == a.transactions
    ensures tx.Withdrawal? ==> s.account.txState == a.txState
    ensures tx.Deposit? && s.status.Ok? ==>
              && s.account.available == a.available + Rescale4(tx.amount)
              && s.account.held == a.held
              && s.account.txState == a.txState[tx.Id() := Normal]
    ensures tx.Withdrawal? && s.status.Ok? ==>
              s.account.available == a.available - Rescale4(tx.amount) && s.account.held == a.held
  {
    if tx.Client() != a.id then Step(Err(Unauthorized(tx.Client(), a.id)), a)
    else if a.locked then Step(Err(Locked(a.id)), a)
    else
      match tx
      case Deposit(id, _, amount) =>
        var s := ApplyDeposit(a, id, amount);
        if s.status.Ok? then Step(Ok(()), s.account.(transactions := s.account.transactions[id := tx]))
        else s
      case Withdrawal(id, _, amount) =>
        var s := ApplyWithdrawal(a, amount);
        if s.status.Ok? then Step(Ok(()), s.account.(transactions := s.account.transactions[id := tx]))
        else s
      case Dispute(id, _) => ApplyDispute(a, id)
      case Resolve(id, _) => ApplyResolve(a, id)
      case Chargeback(id, _) => ApplyChargeback(a, id)
  }

  /**
   * `total == available + held` and "every dispute state has a stored event"
   * hold after every call, whatever its status.
   */
  lemma ProcessTxKeepsValid(a: Account, tx: Transaction)
    ensures Valid(a) ==> Valid(ProcessTx(a, tx).account)
  {
  }

  /**
   * Every dispute state keeps a stored Deposit behind it, provided a
   * money-moving event does not reuse an id already in the history.
   */
  lemma ProcessTxKeepsHistory(a: Account, tx: Transaction)
    requires FreshId(a, tx)
    ensures HistoryOk(a) ==> HistoryOk(ProcessTx(a, tx).account)
  {
  }

  /**
   * Dispute states move forward one step at a time, provided a deposit does
   * not reuse an id that already has a state.
   */
  lemma ProcessTxAdvancesStates(a: Account, tx: Transaction)
    requires tx.Deposit? ==> tx.Id() !in a.txState
    ensures StatesAdvance(a, ProcessTx(a, tx).account)
  {
    var b := ProcessTx(a, tx).account;
    if tx.Client() == a.id && !a.locked {
      match tx
      case Deposit(id, _, _) =>
        assert b.txState == a.txState || b.txState == a.txState[id := Normal];
      case Withdrawal(_, _, _) =>
        assert b.txState == a.txState;
      case Dispute(id, _) =>
        assert b.txState == a.txState || (id in a.txState && a.txState[id] == Normal
                                          && b.txState == a.txState[id := Disputed]);
      case Resolve(id, _) =>
        assert b.txState == a.txState || (id in a.txState && a.txState[id] == Disputed
                                          && b.txState == a.txState[id := ResolvedOrChargedback]);
      case Chargeback(id, _) =>
        assert b.txState == a.txState || (id in a.txState && a.txState[id] == Disputed
                                          && b.txState == a.txState[id := ResolvedOrChargedback]);
    }
  }

  /** Only a successful chargeback locks an account. */
  lemma OnlyChargebackLocks(a: Account, tx: Transaction)
    requires !a.locked
    ensures ProcessTx(a, tx).account.locked ==> tx.Chargeback? && ProcessTx(a, tx).status.Ok?
  {
  }

  /**
   * Dispute followed by resolve puts both balances back where they were and
   * closes the id's lifecycle.
   */
  lemma DisputeThenResolveRestores(a: Account, id: TxId)
    requires !a.locked && id in a.txState && a.txState[id] == Normal && id in a.transactions
    requires InRange(a.held + StoredAmount(a.transactions[id])) && InRange(a.available)
    ensures var d := ProcessTx(a, Dispute(id, a.id));
            var r := ProcessTx(d.account, Resolve(id, a.id));
            && d.status.Ok? && r.status.Ok?
            && r.account.available == a.available && r.account.held == a.held
            && r.account.total == a.total && !r.account.locked
            && r.account.txState == a.txState[id := ResolvedOrChargedback]
  {
  }

  /**
   * Dispute followed by chargeback takes the stored amount out of the
   * account for good, leaves `held` as it was before the dispute, and locks.
   */
  lemma DisputeThenChargebackLocks(a: Account, id: TxId)
    requires Valid(a)
    requires !a.locked && id in a.txState && a.txState[id] == Normal && id in a.transactions
    requires InRange(a.held + StoredAmount(a.transactions[id]))
    ensures var amount := StoredAmount(a.transactions[id]);
            var d := ProcessTx(a, Dispute(id, a.id));
            var c := ProcessTx(d.account, Chargeback(id, a.id));
            && d.status.Ok? && c.status.Ok?
            && c.account.held == a.held
            && c.account.available == a.available - amount
            && c.account.total == a.total - amount
            && c.account.locked
            && c.account.txState == a.txState[id := ResolvedOrChargedback]
  {
  }

  /**
   * Deposit, dispute and resolve on a fresh account. The deposit credits the
   * rescaled amount, but the dispute moves the raw amount recorded with the
   * event, so in between `available` is off by the rounding difference.
   */
  lemma DepositDisputeResolveOnFreshAccount(client: ClientId, id: TxId, amount: Decimal)
    requires 0.0 < amount && InRange(amount) && InRange(Rescale4(amount))
    ensures var d := ProcessTx(New(client), Deposit(id, client, amount));
            var p := ProcessTx(d.account, Dispute(id, client));
            var r := ProcessTx(p.account, Resolve(id, client));
            && d.status.Ok? && d.account.available == Rescale4(amount) && d.account.held == 0.0
            && d.account.transactions[id] == Deposit(id, client, amount)
            && p.status.Ok? && p.account.held == amount && p.account.available == Rescale4(amount) - amount
            && p.account.total == Rescale4(amount)
            && r.status.Ok? && r.account.available == Rescale4(amount) && r.account.held == 0.0
  {
  }

  /**
   * An overflow of `held` during a dispute still commits the Disputed state,
   * so the id can then be resolved although no funds were ever held for it.
   */
  lemma DisputeOverflowCommitsState(a: Account, id: TxId)
    requires !a.locked && id in a.txState && a.txState[id] == Normal && id in a.transactions
    requires !InRange(a.held + StoredAmount(a.transactions[id]))
    ensures var d := ProcessTx(a, Dispute(id, a.id));
            && d.status == Err(Overflow(StoredAmount(a.transactions[id]), a.held))
            && d.account.txState[id] == Disputed
            && d.account.available == a.available && d.account.held == a.held
            && ProcessTx(d.account, Dispute(id, a.id)).status == Err(AlreadyDisputed(id))
  {
  }
}
