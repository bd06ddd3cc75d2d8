# ledger-rs in Dafny

A model of the transaction core of `ledger-rs`, a processor that applies a
stream of client events (deposit, withdrawal, dispute, resolve, chargeback)
to per-client accounts and reports the final balances.

The model has two layers, as the program does:

- **Account** (`account.dfy`, module `Accounts`). It holds one client's
  `available`, `held` and `total` balances, the `locked` flag, the history
  of stored deposits and withdrawals (`transactions`), and the dispute state
  of each deposit (`txState`). `ProcessTx` checks ownership first, then the
  lock, then the rules of the event's kind. Each kind is a pure function
  `ApplyDeposit`, `ApplyWithdrawal`, `ApplyDispute`, `ApplyResolve` or
  `ApplyChargeback` that returns the status together with the new account.
- **Ledger** (`ledger.dfy`, module `Ledgers`). It maps client ids to
  accounts and keeps the set of ids already used by a deposit or
  withdrawal. `ProcessTx` creates the client's account on first sight. It
  rejects a reused deposit/withdrawal id with `DuplicateTxId`. It marks a
  new id used before delegating, and it returns the account's status
  unchanged.

Supporting modules:

- `transaction.dfy` holds the `u16`/`u32` id types, the event datatype with
  its `id()`/`client()`/`amount()` accessors, and the three-state dispute
  lifecycle.
- `errors.dfy` holds the error kinds.
- `csv_record.dfy` holds the row-to-event conversion.
- `decimals.dfy` holds the decimal arithmetic the core relies on.
- `examples.dfy` restates the unit scenarios as lemmas over all clients,
  ids and amounts of the scenario's shape.

Modelling choices:

- **Decimal.** A `Decimal` is its exact value, a `real`. `checked_add` fails
  exactly when the magnitude of the sum exceeds `Decimal::MAX` = 2^96 - 1.
  `rescale(4)` rounds to four fractional digits, a midpoint rounding away
  from zero. The code's guard `scale() > 4` becomes "the value needs more
  than four digits". At the value level both forms agree, because rescaling
  a value that already has at most four digits leaves it unchanged
  (`RescaleKeepsFourDigitValues`).
- **Stored events.** Only deposits and withdrawals are ever inserted into
  the history. The history's value type is therefore the subset
  `StoredTx` of money-moving events. The `tx.amount().unwrap()` of
  dispute, resolve and chargeback cannot fail, and it is the total
  function `StoredAmount`.
- **Raw amount versus rescaled amount.** The deposit credits the rescaled
  amount, but the event stored in the history keeps the raw one. A later
  dispute, resolve or chargeback moves that raw amount. This is modelled
  as written. `DepositDisputeResolveOnFreshAccount` and
  `TinyDepositDisputed` show the consequence: between dispute and resolve,
  `available` is off by the rounding difference.
- **Partial commit.** Dispute and resolve write the new dispute state before
  the checked addition. An `Overflow` therefore leaves the state advanced
  with the balances unmoved. `DisputeOverflowCommitsState` shows this.
- **Error names.** The "already resolved or charged back" error is
  `DisputedSolved`, the name `src/account.rs` raises. `src/error.rs:26`
  declares it as `AlreadyChargedBack`. The model follows the account code.
- **Ledger in the library.** `Ledger` is modelled as part of the library,
  as `src/main.rs` and the doc examples in `src/ledger.rs` use it.
  `src/lib.rs` itself does not declare the module.
- **Where each invariant holds.** At the account level, `total == available
  + held` always holds after a call, whatever its status. So does "every
  dispute state has a stored event". The stronger "every dispute state has
  a stored Deposit" needs ids that are not reused. A withdrawal that
  reuses a deposit's id overwrites the stored deposit. The ledger's
  used-id set rules this out, so `Ledgers.Valid` carries all three.

## Model

| member | source | states |
|---|---|---|
| Decimals.CheckedAdd | src/account.rs:68-71 | the sum is returned exactly when its magnitude stays within `Decimal::MAX`, otherwise nothing |
| Decimals.Rescale4 | src/account.rs:65-67 | rescaling yields at most four fractional digits, is within half a unit of the fourth digit of the input, and keeps the sign |
| Decimals.RescaleKeepsFourDigitValues | src/account.rs:65-67 | rescaling a value that already has at most four digits returns it unchanged, so the `scale() > 4` guard does not change the value applied |
| Transactions.Transaction.Id | src/transaction.rs:38-46 | `id()` is the `id` field of every one of the five events |
| Transactions.Transaction.Client | src/transaction.rs:48-56 | `client()` is the `client` field of every one of the five events |
| Transactions.Transaction.Amount | src/transaction.rs:58-63 | `amount()` is present exactly for deposits and withdrawals and is then their amount; it is absent for dispute, resolve and chargeback |
| Transactions.StoredAmount | src/account.rs:105-107 | the `unwrap()` of a stored event's amount always has a value to return |
| Transactions.StatesDeterminedByRank | src/transaction.rs:30-35 | there are exactly three states, and the rank tells them apart |
| CsvRecords.TryFrom | src/csv_record.rs:30-48 | conversion fails exactly for a deposit or withdrawal row without an amount; otherwise id, client and row type carry over, money-moving rows keep their amount and the others drop it |
| CsvRecords.EventRoundTrip | src/csv_record.rs:33-46 | converting the row of any event gives back that event |
| CsvRecords.RecordRoundTrip | src/csv_record.rs:33-46 | a row that converts comes back unchanged from its event, except that a lifecycle row loses its amount |
| Accounts.New | src/account.rs:21-31 | a new account has zero balances, is unlocked, has an empty history, and satisfies both account invariants |
| Accounts.ComputeTotal | src/account.rs:169-171 | afterwards the total is the sum of the balances and nothing else has changed |
| Accounts.Rescaled | src/account.rs:65-67 | the amount applied has at most four digits and equals the rescaled value, whether or not the guard fires |
| Accounts.ApplyDeposit | src/account.rs:61-75 | a non-positive amount gives `AmountTooLow`, an overflowing credit gives `Overflow` (rescaled amount, old balance), both with the account unchanged; on success the rescaled amount is added to `available`, the total is recomputed and the id is marked Normal |
| Accounts.ApplyWithdrawal | src/account.rs:77-91 | a non-positive amount gives `AmountTooLow`, a raw amount above `available` gives `InsufficientFunds`, both unchanged; on success the rescaled amount leaves `available`, the total is recomputed, and no dispute state is touched |
| Accounts.ApplyDispute | src/account.rs:93-117 | missing id gives `TransactionNotFound`, Disputed gives `AlreadyDisputed`, ResolvedOrChargedback gives `DisputedSolved`, all unchanged; from Normal the id becomes Disputed and the stored raw amount moves from `available` to `held`, or, if `held` would overflow, `Overflow` with the state change kept |
| Accounts.ApplyResolve | src/account.rs:119-143 | missing id, Normal and ResolvedOrChargedback give `TransactionNotFound`, `NotInDispute`, `DisputedSolved` unchanged; from Disputed the id is closed and the stored amount moves from `held` back to `available`, or `Overflow` with the state change kept |
| Accounts.ApplyChargeback | src/account.rs:145-167 | the same guard table as resolve; from Disputed the id is closed, the stored amount leaves `held`, the total is recomputed and the account is locked |
| Accounts.ProcessTx | src/account.rs:33-59 | an event for another client gives `Unauthorized` before the lock is checked; a locked account answers `Locked` and never changes; a rejected deposit or withdrawal writes nothing; a successful one stores the raw event; lifecycle events never touch the history and withdrawals never touch dispute states |
| Accounts.ProcessTxKeepsValid | src/account.rs:33-171 | `total == available + held` and "every dispute state has a stored event" survive every call, including failing ones |
| Accounts.ProcessTxKeepsHistory | src/account.rs:41-54 | every dispute state keeps a stored Deposit behind it as long as money-moving events bring fresh ids |
| Accounts.ProcessTxAdvancesStates | src/account.rs:93-155 | dispute states only move forward one step at a time, and a newly tracked id starts at Normal |
| Accounts.OnlyChargebackLocks | src/account.rs:145-167 | an unlocked account becomes locked only through a successful chargeback |
| Accounts.DisputeThenResolveRestores | src/account.rs:93-143 | dispute followed by resolve restores `available`, `held` and `total` and closes the id |
| Accounts.DisputeThenChargebackLocks | src/account.rs:93-167 | dispute followed by chargeback restores `held`, removes the stored amount from `available` and `total`, and locks |
| Accounts.DepositDisputeResolveOnFreshAccount | src/account.rs:41-143 | on a new account, the deposit credits the rescaled amount and stores the raw event; the dispute holds the raw amount; the resolve brings `available` back to the rescaled amount with nothing held |
| Accounts.DisputeOverflowCommitsState | src/account.rs:93-111 | a dispute whose `held` update overflows reports `Overflow` yet leaves the id Disputed, so a second dispute is `AlreadyDisputed` |
| Ledgers.New | src/ledger.rs:17-22 | a new ledger has no accounts and no used ids and satisfies the ledger invariant |
| Ledgers.AccountFor | src/ledger.rs:40-43 | an event is routed to the stored account of its client, or to a new one if there is none |
| Ledgers.ProcessTx | src/ledger.rs:37-54 | the client's account exists afterwards even when the event fails; a reused deposit/withdrawal id gives `DuplicateTxId` with no account and no used-set change; a new one is marked used whatever the account answers; lifecycle events leave the used set alone; the account's status is returned unchanged; with keys matching ids, `Unauthorized` never arises |
| Ledgers.ProcessTxKeepsValid | src/ledger.rs:37-54 | keys match ids, every account stays valid with a Deposit behind each dispute state, and every stored id is in the used set |
| Ledgers.GetAccounts | src/ledger.rs:75-77 | every stored account is listed; with keys matching ids every listed account is the one stored under its id and there is exactly one per client |
| Ledgers.OneAccountPerClient | src/ledger.rs:5-8 | a map whose accounts are keyed by their own ids has as many distinct accounts as keys |
| Ledgers.Run | src/main.rs:64-80 | processing events in order only adds accounts and used ids, and keeps the ledger invariant |
| Ledgers.RunGrowsByEvents | src/ledger.rs:40-50 | after a run the clients with accounts are exactly the old ones plus those the events named, and the used ids are exactly the old ones plus every deposit/withdrawal id seen |
| Ledgers.SecondUseRejected | src/ledger.rs:45-50 | once a deposit or withdrawal id has been seen, any later deposit or withdrawal with that id, for any client, is `DuplicateTxId` |
| Ledgers.LockedAccountIsInert | src/account.rs:33-39 | a locked account stays exactly as it is through any sequence of later events |
| Ledgers.DisputeStatesAdvance | src/ledger.rs:45-52 | through the ledger every dispute state of every account only moves forward |
| Examples.DepositThenWithdraw | src/account.rs:205-229 | deposit then withdraw the same amount leaves the account empty, with a dispute state only for the deposit |
| Examples.DisputeAndChargeback | src/account.rs:289-378 | deposit, dispute and chargeback hold then remove the funds, lock the account, and the next event is `Locked` |
| Examples.LifecycleErrors | src/account.rs:418-522 | the error table of dispute, resolve and chargeback on a missing, Normal, Disputed and closed id |
| Examples.RejectedEvents | src/account.rs:320-416 | `Unauthorized`, `AmountTooLow` and `InsufficientFunds` leave a new account untouched |
| Examples.DepositOverflow | src/account.rs:524-545 | a deposit of `Decimal::MAX` succeeds, and under the model's exact `checked_add` any further positive deposit (the test uses 2) is `Overflow` with the balance kept |
| Examples.TinyDepositDisputed | src/account.rs:61-117 | a deposit below half of the fourth digit credits nothing, yet disputing it makes `available` negative by the raw amount |
| Examples.DuplicateDeposit | src/ledger.rs:86-104 | a reused deposit id from another client is `DuplicateTxId`, and that client's account is still created, empty |
| Examples.DisputeCreatesAccount | src/ledger.rs:26-34 | a dispute for an unknown client fails with `TransactionNotFound` but creates the client's account and consumes no id |

## Left out

- Reading and writing CSV, command-line parsing, sorted output and logging
  (`src/main.rs`) are I/O. `Ledgers.Run` stands for the driver loop's
  order of calls only.
- The `serde`/`csv` attributes are library behaviour. So is the
  `HashMap` iteration order of `get_accounts`, which is modelled as a set.
- The error message strings of `src/error.rs` are left out.
- Decimal arithmetic is exact in the model. `rust_decimal` rounds sums that
  need more than 28 significant digits. Its unchecked `+=`/`-=`, and the
  unchecked `+` of `compute_total` (`src/account.rs:170`), panic on
  overflow; for example, deposit `Decimal::MAX`, dispute it, and deposit
  `Decimal::MAX` again. None of these is modelled.
- Examples.DepositOverflow: the claim that every further positive deposit
  overflows holds for the exact sum of the model; the library may round a
  sum such as `MAX + 0.0001` back to `MAX` instead of failing. The test's
  own input of 2 is covered either way.
- Decimals.Rescale4: the rounding mode (midpoint away from zero) is the
  model's reading of the decimal library. The properties of the account
  use only the four-digit result and the half-unit error bound, except
  the concrete consequences shown by `TinyDepositDisputed`.
- The integration tests (`tests/intergration.rs`) depend on data files
  that are not part of this model.
