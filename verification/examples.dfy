/**
 * The account and ledger unit scenarios, stated for every client, id and
 * amount of the shape the scenario uses.
 */
module Examples {
  import opened Ids
  import opened Decimals
  import opened Results
  import opened Errors
  import opened Transactions
  import Accounts
  import Ledgers

  /** An amount a deposit credits exactly: positive, representable, at most four digits. */
  predicate Plain(x: Decimal)
  {
    0.0 < x && InRange(x) && HasScaleAtMost4(x)
  }

  /**
   * Deposit then withdraw the same amount: both succeed, the account ends
   * empty, and only the deposit has a dispute state.
   */
  lemma DepositThenWithdraw(c: ClientId, id1: TxId, id2: TxId, x: Decimal)
    requires Plain(x) && id1 != id2
    ensures var d := Accounts.ProcessTx(Accounts.New(c), Deposit(id1, c, x));
            var w := Accounts.ProcessTx(d.account, Withdrawal(id2, c, x));
            && d.status.Ok? && d.account.available == x && d.account.held == 0.0 && d.account.total == x
            && !d.account.locked && d.account.txState == map[id1 := Normal]
            && w.status.Ok? && w.account.available == 0.0 && w.account.held == 0.0 && w.account.total == 0.0
            && id2 in w.account.transactions && id2 !in w.account.txState
  {
    RescaleKeepsFourDigitValues(x);
  }

  /**
   * Deposit, dispute, chargeback: the funds are held, then removed, and the
   * account locks and rejects the next event.
   */
  lemma DisputeAndChargeback(c: ClientId, id: TxId, x: Decimal, next: Transaction)
    requires Plain(x) && next.Client() == c
    ensures var d := Accounts.ProcessTx(Accounts.New(c), Deposit(id, c, x));
            var p := Accounts.ProcessTx(d.account, Dispute(id, c));
            var k := Accounts.ProcessTx(p.account, Chargeback(id, c));
            && p.status.Ok? && p.account.available == 0.0 && p.account.held == x && p.account.total == x
            && k.status.Ok? && k.account.available == 0.0 && k.account.held == 0.0 && k.account.total == 0.0
            && k.account.locked && k.account.txState[id] == ResolvedOrChargedback
            && Accounts.ProcessTx(k.account, next) == Accounts.Step(Err(Locked(c)), k.account)
  {
    RescaleKeepsFourDigitValues(x);
  }

  /** The error table of the dispute lifecycle on one deposit. */
  lemma LifecycleErrors(c: ClientId, id: TxId, x: Decimal)
    requires Plain(x)
    ensures var e := Accounts.New(c);
            var d := Accounts.ProcessTx(e, Deposit(id, c, x)).account;
            var p := Accounts.ProcessTx(d, Dispute(id, c)).account;
            var r := Accounts.ProcessTx(p, Resolve(id, c)).account;
            && Accounts.ProcessTx(e, Dispute(id, c)).status == Err(TransactionNotFound(id, c))
            && Accounts.ProcessTx(e, Resolve(id, c)).status == Err(TransactionNotFound(id, c))
            && Accounts.ProcessTx(e, Chargeback(id, c)).status == Err(TransactionNotFound(id, c))
            && Accounts.ProcessTx(d, Resolve(id, c)).status == Err(NotInDispute(id))
            && Accounts.ProcessTx(d, Chargeback(id, c)).status == Err(NotInDispute(id))
            && Accounts.ProcessTx(p, Dispute(id, c)).status == Err(AlreadyDisputed(id))
            && Accounts.ProcessTx(r, Dispute(id, c)).status == Err(DisputedSolved(id))
            && Accounts.ProcessTx(r, Chargeback(id, c)).status == Err(DisputedSolved(id))
  {
    RescaleKeepsFourDigitValues(x);
  }

  /** Rejections that leave a new account untouched. */
  lemma RejectedEvents(c: ClientId, other: ClientId, id: TxId, x: Decimal)
    requires other != c && x > 0.0
    ensures var a := Accounts.New(c);
            && Accounts.ProcessTx(a, Deposit(id, other, x)) == Accounts.Step(Err(Unauthorized(other, c)), a)
            && Accounts.ProcessTx(a, Deposit(id, c, 0.0)) == Accounts.Step(Err(AmountTooLow), a)
            && Accounts.ProcessTx(a, Withdrawal(id, c, -x)) == Accounts.Step(Err(AmountTooLow), a)
            && Accounts.ProcessTx(a, Withdrawal(id, c, x)) == Accounts.Step(Err(InsufficientFunds(c)), a)
  {
  }

  /**
   * Depositing the largest value succeeds; any further positive deposit
   * overflows and leaves the balance at the maximum.
   */
  lemma DepositOverflow(c: ClientId, id1: TxId, id2: TxId, y: Decimal)
    requires Plain(y)
    ensures var d := Accounts.ProcessTx(Accounts.New(c), Deposit(id1, c, MAX));
            var e := Accounts.ProcessTx(d.account, Deposit(id2, c, y));
            && d.status.Ok? && d.account.available == MAX
            && e == Accounts.Step(Err(Overflow(y, MAX)), d.account)
  {
    assert HasScaleAtMost4(MAX) by {
      assert MAX * UNITS_PER_WHOLE == 792281625142643375935439503350000 as real;
    }
    RescaleKeepsFourDigitValues(MAX);
    RescaleKeepsFourDigitValues(y);
  }

  /**
   * A deposit below half of the fourth digit passes the positivity check but
   * credits nothing once rescaled; disputing it then drives `available`
   * below zero by the raw amount.
   */
  lemma TinyDepositDisputed(c: ClientId, id: TxId, x: Decimal)
    requires 0.0 < x < 0.00005
    ensures var d := Accounts.ProcessTx(Accounts.New(c), Deposit(id, c, x));
            var p := Accounts.ProcessTx(d.account, Dispute(id, c));
            && d.status.Ok? && d.account.available == 0.0
            && p.status.Ok? && p.account.available == -x && p.account.held == x
  {
    assert Rescale4(x) == 0.0 by {
      assert (x * UNITS_PER_WHOLE + 0.5).Floor == 0;
    }
  }

  /**
   * The same deposit id from another client is rejected, and the second
   * client's account is created anyway, empty.
   */
  lemma DuplicateDeposit(c1: ClientId, c2: ClientId, id: TxId, x: Decimal, y: Decimal)
    requires Plain(x) && c1 != c2
    ensures var l := Ledgers.ProcessTx(Ledgers.New(), Deposit(id, c1, x));
            var again := Ledgers.ProcessTx(l.ledger, Deposit(id, c2, y));
            && l.status.Ok?
            && again.status == Err(DuplicateTxId(id))
            && again.ledger.accounts.Keys == {c1, c2}
            && again.ledger.accounts[c2] == Accounts.New(c2)
  {
    RescaleKeepsFourDigitValues(x);
  }

  /** A dispute for an unknown client fails but still creates the client's account. */
  lemma DisputeCreatesAccount(c: ClientId, id: TxId)
    ensures var s := Ledgers.ProcessTx(Ledgers.New(), Dispute(id, c));
            && s.status == Err(TransactionNotFound(id, c))
            && s.ledger.accounts == map[c := Accounts.New(c)]
            && s.ledger.used == {}
  {
  }
}
