/**
 * The ledger: every client's account plus the set of transaction ids
 * already used by a deposit or withdrawal anywhere.
 */
module Ledgers {
  import opened Ids
  import opened Errors
  import opened Results
  import opened Transactions
  import Accounts

  datatype Ledger = Ledger(accounts: map<ClientId, Accounts.Account>, used: set<TxId>)

  /** The status of one call together with the ledger it leaves behind. */
  datatype Step = Step(status: Accounts.Status, ledger: Ledger)

  /** Every account is stored under its own client id. */
  predicate KeysMatchIds(l: Ledger)
  {
    forall c :: c in l.accounts ==> l.accounts[c].id == c
  }

  /**
   * The ledger invariant: keys match ids, every account is valid and has a
   * deposit behind each dispute state, and every stored id is marked used.
   */
  predicate Valid(l: Ledger)
  {
    && KeysMatchIds(l)
    && (forall c :: c in l.accounts ==>
          && Accounts.Valid(l.accounts[c])
          && Accounts.HistoryOk(l.accounts[c])
          && l.accounts[c].transactions.Keys <= l.used)
  }

  /** `Ledger::new`: no accounts, no used ids. */
  function New(): (l: Ledger)
    ensures l.accounts == map[] && l.used == {}
    ensures Valid(l)
  {
    Ledger(map[], {})
  }

  /** The account an event for `client` is routed to, created on first sight. */
  function AccountFor(l: Ledger, client: ClientId): (a: Accounts.Account)
    ensures client in l.accounts ==> a == l.accounts[client]
    ensures client !in l.accounts ==> a == Accounts.New(client)
  {
    if client in l.accounts then l.accounts[client] else Accounts.New(client)
  }

  /**
   * `Ledger::process_tx`: creates the client's account if it is missing,
   * rejects a deposit or withdrawal whose id was used before (without
   * touching the account), marks a new id used before delegating, and
   * returns the account's status unchanged.
   */
  function ProcessTx(l: Ledger, tx: Transaction): (s: Step)
    ensures s.ledger.accounts.Keys == l.accounts.Keys + {tx.Client()}
    ensures forall c :: c in l.accounts && c != tx.Client() ==> s.ledger.accounts[c] == l.accounts[c]
    ensures tx.MovesMoney() && tx.Id() in l.used ==>
              && s.status == Err(DuplicateTxId(tx.Id()))
              && s.ledger == Ledger(l.accounts[tx.Client() := AccountFor(l, tx.Client())], l.used)
    ensures tx.MovesMoney() && tx.Id() !in l.used ==>
              && s.ledger.used == l.used + {tx.Id()}
              && Accounts.Step(s.status, s.ledger.accounts[tx.Client()])
                 == Accounts.ProcessTx(AccountFor(l, tx.Client()), tx)
    ensures !tx.MovesMoney() ==>
              && s.ledger.used == l.used
              && Accounts.Step(s.status, s.ledger.accounts[tx.Client()])
                 == Accounts.ProcessTx(AccountFor(l, tx.Client()), tx)
    ensures KeysMatchIds(l) ==> KeysMatchIds(s.ledger) && !(s.status.Err? && s.status.error.Unauthorized?)
  {
    var id := tx.Id();
    var client := tx.Client();
    var account := AccountFor(l, client);
    var accounts := l.accounts[client := account];
    if tx.MovesMoney() then
      if id in l.used then Step(Err(DuplicateTxId(id)), Ledger(accounts, l.used))
      else
        var used := l.used + {id};
        var r := Accounts.ProcessTx(account, tx);
        Step(r.status, Ledger(accounts[client := r.account], used))
    else
      var r := Accounts.ProcessTx(account, tx);
      Step(r.status, Ledger(accounts[client := r.account], l.used))
  }

  /** Processing an event keeps the ledger invariant. */
  lemma ProcessTxKeepsValid(l: Ledger, tx: Transaction)
    ensures Valid(l) ==> Valid(ProcessTx(l, tx).ledger)
  {
    if Valid(l) {
      var s := ProcessTx(l, tx);
      var c := tx.Client();
      var a := AccountFor(l, c);
      Accounts.ProcessTxKeepsValid(a, tx);
      if tx.MovesMoney() && tx.Id() !in l.used {
        assert Accounts.FreshId(a, tx);
        Accounts.ProcessTxKeepsHistory(a, tx);
      } else if !tx.MovesMoney() {
        Accounts.ProcessTxKeepsHistory(a, tx);
      }
      assert Accounts.Valid(s.ledger.accounts[c]) && Accounts.HistoryOk(s.ledger.accounts[c]);
      assert s.ledger.accounts[c].transactions.Keys <= s.ledger.used;
    }
  }

  /**
   * `get_accounts`: every stored account, in no particular order. When keys
   * match ids there is exactly one account per client seen.
   */
  function GetAccounts(l: Ledger): (r: set<Accounts.Account>)
    ensures forall c :: c in l.accounts ==> l.accounts[c] in r
    ensures KeysMatchIds(l) ==> forall a :: a in r ==> a.id in l.accounts && l.accounts[a.id] == a
    ensures KeysMatchIds(l) ==> |r| == |l.accounts|
  {
    CountAccounts(l);
    l.accounts.Values
  }

  lemma CountAccounts(l: Ledger)
    ensures KeysMatchIds(l) ==> |l.accounts.Values| == |l.accounts|
  {
    if KeysMatchIds(l) {
      OneAccountPerClient(l.accounts);
    }
  }

  /** A map whose values are keyed by their own ids has as many values as keys. */
  lemma {:induction false} OneAccountPerClient(m: map<ClientId, Accounts.Account>)
    requires forall c :: c in m ==> m[c].id == c
    ensures |m.Values| == |m|
    decreases |m|
  {
    if m != map[] {
      var c :| c in m;
      var rest := m - {c};
      OneAccountPerClient(rest);
      assert m.Values == rest.Values + {m[c]} by {
        forall a | a in m.Values ensures a in rest.Values + {m[c]} {
          var k :| k in m && m[k] == a;
          if k != c {
            assert rest[k] == a;
          }
        }
        forall a | a in rest.Values ensures a in m.Values {
          var k :| k in rest && rest[k] == a;
          assert m[k] == a;
        }
      }
      assert m[c] !in rest.Values;
      assert m.Keys == rest.Keys + {c};
    }
  }

  /** Processes events one after another, as a driver reading them in order would. */
  function Run(l: Ledger, txs: seq<Transaction>): (r: Ledger)
    ensures l.accounts.Keys <= r.accounts.Keys
    ensures l.used <= r.used
    ensures Valid(l) ==> Valid(r)
    decreases |txs|
  {
    if |txs| == 0 then l
    else
      ProcessTxKeepsValid(l, txs[0]);
      Run(ProcessTx(l, txs[0]).ledger, txs[1..])
  }

  /** The clients the events address. */
  function Clients(txs: seq<Transaction>): set<ClientId>
  {
    set i | 0 <= i < |txs| :: txs[i].Client()
  }

  /** The ids of the money-moving events. */
  function MoneyIds(txs: seq<Transaction>): set<TxId>
  {
    set i | 0 <= i < |txs| && txs[i].MovesMoney() :: txs[i].Id()
  }

  /**
   * After a run the ledger holds an account for exactly the clients it had
   * plus those the events addressed, and the used set has grown by exactly
   * the money-moving ids, accepted or not.
   */
  lemma {:induction false} RunGrowsByEvents(l: Ledger, txs: seq<Transaction>)
    ensures Run(l, txs).accounts.Keys == l.accounts.Keys + Clients(txs)
    ensures Run(l, txs).used == l.used + MoneyIds(txs)
    decreases |txs|
  {
    if |txs| > 0 {
      var next := ProcessTx(l, txs[0]).ledger;
      RunGrowsByEvents(next, txs[1..]);
      ClientsOfCons(txs);
      MoneyIdsOfCons(txs);
    }
  }

  lemma ClientsOfCons(txs: seq<Transaction>)
    requires |txs| > 0
    ensures Clients(txs) == {txs[0].Client()} + Clients(txs[1..])
  {
    forall c | c in Clients(txs) ensures c in {txs[0].Client()} + Clients(txs[1..]) {
      var i :| 0 <= i < |txs| && txs[i].Client() == c;
      if i > 0 {
        assert txs[1..][i - 1] == txs[i];
      }
    }
    forall c | c in Clients(txs[1..]) ensures c in Clients(txs) {
      var i :| 0 <= i < |txs[1..]| && txs[1..][i].Client() == c;
      assert txs[i + 1] == txs[1..][i];
    }
  }

  lemma MoneyIdsOfCons(txs: seq<Transaction>)
    requires |txs| > 0
    ensures MoneyIds(txs) == (if txs[0].MovesMoney() then {txs[0].Id()} else {}) + MoneyIds(txs[1..])
  {
    forall id | id in MoneyIds(txs)
      ensures id in (if txs[0].MovesMoney() then {txs[0].Id()} else {}) + MoneyIds(txs[1..])
    {
      var i :| 0 <= i < |txs| && txs[i].MovesMoney() && txs[i].Id() == id;
      if i > 0 {
        assert txs[1..][i - 1] == txs[i];
      }
    }
    forall id | id in MoneyIds(txs[1..]) ensures id in MoneyIds(txs) {
      var i :| 0 <= i < |txs[1..]| && txs[1..][i].MovesMoney() && txs[1..][i].Id() == id;
      assert txs[i + 1] == txs[1..][i];
    }
  }

  /**
   * Once any deposit or withdrawal with some id has been seen, every later
   * deposit or withdrawal with that id, for any client, is a duplicate.
   */
  lemma SecondUseRejected(l: Ledger, txs: seq<Transaction>, i: nat, tx: Transaction)
    requires i < |txs| && txs[i].MovesMoney()
    requires tx.MovesMoney() && tx.Id() == txs[i].Id()
    ensures ProcessTx(Run(l, txs), tx).status == Err(DuplicateTxId(tx.Id()))
  {
    RunGrowsByEvents(l, txs);
    assert tx.Id() in MoneyIds(txs);
  }

  /**
   * A locked account never changes again, whatever events follow, including
   * events for other clients and duplicates.
   */
  lemma {:induction false} LockedAccountIsInert(l: Ledger, txs: seq<Transaction>, c: ClientId)
    requires c in l.accounts && l.accounts[c].locked
    ensures c in Run(l, txs).accounts && Run(l, txs).accounts[c] == l.accounts[c]
    decreases |txs|
  {
    if |txs| > 0 {
      LockedAccountIsInert(ProcessTx(l, txs[0]).ledger, txs[1..], c);
    }
  }

  /**
   * Through the ledger, the dispute state of every id only ever moves
   * forward: Normal, then Disputed, then ResolvedOrChargedback.
   */
  lemma DisputeStatesAdvance(l: Ledger, tx: Transaction, c: ClientId)
    requires Valid(l) && c in l.accounts
    ensures Accounts.StatesAdvance(l.accounts[c], ProcessTx(l, tx).ledger.accounts[c])
  {
    if c == tx.Client() && !(tx.MovesMoney() && tx.Id() in l.used) {
      Accounts.ProcessTxAdvancesStates(l.accounts[c], tx);
    }
  }
}
