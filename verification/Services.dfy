/** The tables as the services update them, and the two services every other one builds on. A database
    transaction is a snapshot taken before and restored on failure. */
module Services {
  import opened Types
  import opened Ledger
  import opened Holds
  import HoldSpec = Holds
  import opened Settlement
  import opened Books
  import opened Exchange

  class Database {
    var markets: Markets
    var accounts: Accounts
    var holds: Holds
    var journal: seq<LedgerTx>
    var orders: seq<OrderRow>
    var trades: seq<Trade>
    var deposits: seq<Deposit>
    var withdrawals: seq<Withdrawal>

    constructor (markets: Markets)
      ensures this.markets == markets && Snapshot() == Init(markets).tables
    {
      this.markets := markets;
      accounts, holds, journal, orders, trades, deposits, withdrawals := map[], map[], [], [], [], [], [];
    }

    function Snapshot(): Tables
      reads this
    {
      Tables(accounts, holds, journal, orders, trades, deposits, withdrawals)
    }

    /** Rolls the tables back to a snapshot. */
    method Restore(t: Tables)
      modifies this
      ensures Snapshot() == t && markets == old(markets)
    {
      accounts, holds, journal, orders := t.accounts, t.holds, t.journal, t.orders;
      trades, deposits, withdrawals := t.trades, t.deposits, t.withdrawals;
    }
  }

  class LedgerService {
    const db: Database

    constructor (db: Database)
      ensures this.db == db
    {
      this.db := db;
    }

    /** Accounts are created on first use. */
    method GetOrCreateAccount(k: AccountKey)
      modifies db`accounts
      ensures db.accounts == Touch(old(db.accounts), k)
    {
      if k !in db.accounts {
        db.accounts := db.accounts[k := Account(0.0, 0.0)];
      }
      assert db.accounts == Touch(old(db.accounts), k);
    }

    /** Adds up the legs, refusing the first that is not positive. */
    method Check(entries: seq<Entry>) returns (error: Option<Error>)
      ensures error == if |entries| < 2 || !AllPositive(entries) then Some(InvalidLedgerEntry)
                       else if Total(entries, Debit) != Total(entries, Credit) then Some(LedgerImbalance)
                       else None
    {
      if |entries| < 2 {
        return Some(InvalidLedgerEntry);
      }
      var debits, credits := 0.0, 0.0;
      for i := 0 to |entries|
        invariant forall j | 0 <= j < i :: entries[j].amount > 0.0
        invariant debits + Total(entries[i..], Debit) == Total(entries, Debit)
        invariant credits + Total(entries[i..], Credit) == Total(entries, Credit)
      {
        if entries[i].amount <= 0.0 {
          return Some(InvalidLedgerEntry);
        }
        if entries[i].direction == Debit {
          debits := debits + entries[i].amount;
        } else {
          credits := credits + entries[i].amount;
        }
      }
      error := if debits != credits then Some(LedgerImbalance) else None;
    }

    /** Moves one leg onto its account; users may not overdraw, system accounts may. */
    method ApplyToBalance(e: Entry) returns (error: Option<Error>)
      modifies db`accounts
      ensures var applied := ApplyEntry(old(db.accounts), e);
              if applied.Ok? then error == None && db.accounts == applied.value
              else error == Some(applied.error) && db.accounts == old(db.accounts)
    {
      if e.account !in db.accounts {
        return Some(NotFound);
      }
      var account := db.accounts[e.account];
      if e.direction == Credit {
        db.accounts := db.accounts[e.account := account.(available := account.available + e.amount)];
        return None;
      }
      if e.account.owner.User? && account.available < e.amount {
        return Some(InsufficientBalance);
      }
      db.accounts := db.accounts[e.account := account.(available := account.available - e.amount)];
      return None;
    }

    /** Checks the transaction, then records and applies its legs one at a time, up to the first that
        fails. */
    method PostTransaction(kind: Kind, entries: seq<Entry>) returns (error: Option<Error>)
      modifies db`accounts, db`journal
      ensures var posted := PostEntries(old(db.accounts), entries);
              if posted.Ok? then
                error == None && db.accounts == posted.value && db.journal == old(db.journal) + [LedgerTx(kind, entries)]
              else error == Some(posted.error)
    {
      error := Check(entries);
      if error.Some? {
        return;
      }
      ghost var journal := db.journal;
      db.journal := db.journal + [LedgerTx(kind, [])];
      for i := 0 to |entries|
        invariant error == None
        invariant db.journal == journal + [LedgerTx(kind, entries[..i])]
        invariant ApplyAll(db.accounts, entries[i..]) == ApplyAll(old(db.accounts), entries)
      {
        var last := |db.journal| - 1;
        db.journal := db.journal[last := LedgerTx(kind, db.journal[last].entries + [entries[i]])];
        assert entries[..i + 1] == entries[..i] + [entries[i]];
        assert entries[i..][0] == entries[i] && entries[i..][1..] == entries[i + 1..];
        error := ApplyToBalance(entries[i]);
        if error.Some? {
          return;
        }
      }
      assert entries[..|entries|] == entries && entries[|entries|..] == [];
    }

    /** Credits test funds to a user out of TEST_LIQUIDITY. */
    method GrantTestLiquidity(userId: UserId, asset: AssetId, amount: real) returns (error: Option<Error>)
      modifies db`accounts, db`journal
      ensures var r := PostTransfer(old(db.Snapshot()), Grant, SystemKey(TestLiquidity, asset), UserKey(userId, asset), amount);
              if r.Ok? then error == None && db.Snapshot() == r.value else error == Some(r.error)
      ensures forall s: State | s.tables == old(db.Snapshot()) ::
                var step := ApplyGrant(s, userId, asset, amount);
                error == step.error && (error.None? ==> step.state == s.(tables := db.Snapshot()))
    {
      var system, user := SystemKey(TestLiquidity, asset), UserKey(userId, asset);
      GetOrCreateAccount(system);
      GetOrCreateAccount(user);
      error := PostTransaction(Grant, [Entry(system, Debit, amount), Entry(user, Credit, amount)]);
    }
  }

  class BalancesService {
    const db: Database
    const ledger: LedgerService

    constructor (db: Database, ledger: LedgerService)
      ensures this.db == db && this.ledger == ledger
    {
      this.db, this.ledger := db, ledger;
    }

    /** Available to locked, and an active hold, if that much is available. */
    method LockFunds(k: AccountKey, orderId: OrderId, amount: real) returns (error: Option<Error>)
      requires ledger.db == db
      modifies db`accounts, db`holds
      ensures var r := HoldSpec.LockFunds(old(db.accounts), old(db.holds), k, orderId, amount);
              if r.Ok? then error == None && (db.accounts, db.holds) == r.value else error == Some(r.error)
    {
      ledger.GetOrCreateAccount(k);
      var account := db.accounts[k];
      if account.available < amount {
        return Some(InsufficientBalance);
      }
      db.accounts := db.accounts[k := Account(account.available - amount, account.locked + amount)];
      db.holds := db.holds[orderId := Hold(k, amount, Active)];
      assert db.accounts == Unlock(old(db.accounts), k, -amount);
      return None;
    }

    /** Locked back to available; flipping the hold's status is what guards against doing it twice. */
    method ReleaseHold(orderId: OrderId) returns (error: Option<Error>)
      requires orderId in db.holds ==> db.holds[orderId].account in db.accounts
      modifies db`accounts, db`holds
      ensures var r := HoldSpec.ReleaseHold(old(db.accounts), old(db.holds), orderId);
              if r.Ok? then error == None && (db.accounts, db.holds) == r.value else error == Some(r.error)
    {
      if orderId !in db.holds {
        return Some(HoldNotFound);
      }
      var hold := db.holds[orderId];
      if hold.status != Active {
        return None;
      }
      db.holds := db.holds[orderId := hold.(status := Released)];
      var account := db.accounts[hold.account];
      db.accounts := db.accounts[hold.account := Account(account.available + hold.amount, account.locked - hold.amount)];
      return None;
    }

    /** Part of a hold back to available; a stale hold is left alone. */
    method ReduceHold(orderId: OrderId, amount: real)
      requires orderId in db.holds ==> db.holds[orderId].account in db.accounts
      modifies db`accounts, db`holds
      ensures (db.accounts, db.holds) == HoldSpec.ReduceHold(old(db.accounts), old(db.holds), orderId, amount)
    {
      if orderId !in db.holds || db.holds[orderId].status != Active || amount <= 0.0 {
        return;
      }
      var hold := db.holds[orderId];
      var account := db.accounts[hold.account];
      db.accounts := db.accounts[hold.account := Account(account.available + amount, account.locked - amount)];
      var remaining := hold.amount - amount;
      db.holds := db.holds[orderId := if remaining <= 0.0 then hold.(amount := 0.0, status := Consumed) else hold.(amount := remaining)];
    }
  }
}
