/** Deposits, withdrawals and admin adjustments: one database transaction around one ledger posting. */
module WalletsServices {
  import opened Types
  import opened Ledger
  import opened Settlement
  import opened Books
  import opened Exchange
  import ExchangeSpec = Exchange
  import opened Services

  /** The transaction committed `r`, or was rolled back with its error. */
  ghost predicate Committed(before: Tables, after: Tables, error: Option<Error>, r: Result<Tables>) {
    if r.Ok? then error == None && after == r.value else error == Some(r.error) && after == before
  }

  /** In whatever state of engines and waiting orders, the outcome is that of a step of the exchange. */
  ghost predicate IsStep(markets: Markets, before: Tables, after: Tables, error: Option<Error>, step: State -> Reply) {
    forall s: State | s.markets == markets && s.tables == before ::
      step(s) == Reply(s.(tables := after), error)
  }

  class WalletsService {
    const db: Database
    const ledger: LedgerService

    constructor (db: Database, ledger: LedgerService)
      ensures this.db == db && this.ledger == ledger
    {
      this.db, this.ledger := db, ledger;
    }

    method CreateDeposit(userId: UserId, asset: AssetId, amount: real) returns (error: Option<Error>)
      modifies db`deposits
      ensures IsStep(db.markets, old(db.Snapshot()), db.Snapshot(), error, s => ApplyCreateDeposit(s, userId, asset, amount))
      ensures amount <= 0.0 ==> error == Some(BadRequest) && db.deposits == old(db.deposits)
      ensures amount > 0.0 ==> error == None && db.deposits == old(db.deposits) + [Deposit(userId, asset, amount, Pending)]
    {
      if amount <= 0.0 {
        return Some(BadRequest);
      }
      db.deposits := db.deposits + [Deposit(userId, asset, amount, Pending)];
      return None;
    }

    /** Credits a pending deposit and confirms it; one already processed is left alone. */
    method ConfirmDeposit(depositId: nat) returns (error: Option<Error>)
      requires ledger.db == db
      modifies db
      ensures db.markets == old(db.markets)
      ensures Committed(old(db.Snapshot()), db.Snapshot(), error, Confirm(old(db.Snapshot()), depositId))
      ensures IsStep(db.markets, old(db.Snapshot()), db.Snapshot(), error, s => Exec(s, ExchangeSpec.ConfirmDeposit(depositId)))
    {
      var before := db.Snapshot();
      if depositId >= |db.deposits| {
        return Some(NotFound);
      }
      var deposit := db.deposits[depositId];
      if deposit.status != Pending {
        return None;
      }
      var system, account := SystemKey(TestLiquidity, deposit.asset), UserKey(deposit.userId, deposit.asset);
      ledger.GetOrCreateAccount(system);
      ledger.GetOrCreateAccount(account);
      error := ledger.PostTransaction(DepositIn, [Entry(system, Debit, deposit.amount), Entry(account, Credit, deposit.amount)]);
      if error.Some? {
        db.Restore(before);
        return;
      }
      db.deposits := db.deposits[depositId := deposit.(status := Confirmed)];
    }

    /** Debits the user into WITHDRAWAL_SUSPENSE and records the withdrawal. */
    method CreateWithdrawal(userId: UserId, asset: AssetId, amount: real) returns (error: Option<Error>)
      requires ledger.db == db
      modifies db
      ensures db.markets == old(db.markets)
      ensures IsStep(db.markets, old(db.Snapshot()), db.Snapshot(), error, s => ApplyWithdraw(s, userId, asset, amount))
      ensures amount <= 0.0 ==> error == Some(BadRequest) && db.Snapshot() == old(db.Snapshot())
      ensures amount > 0.0 ==> Committed(old(db.Snapshot()), db.Snapshot(), error, Reported(Debited(old(db.Snapshot()), userId, asset, amount)))
    {
      if amount <= 0.0 {
        return Some(BadRequest);
      }
      var before := db.Snapshot();
      var account, suspense := UserKey(userId, asset), SystemKey(WithdrawalSuspense, asset);
      ledger.GetOrCreateAccount(account);
      ledger.GetOrCreateAccount(suspense);
      error := ledger.PostTransaction(WithdrawalOut, [Entry(account, Debit, amount), Entry(suspense, Credit, amount)]);
      if error.Some? {
        db.Restore(before);
        return Some(LackIsBadRequest(error.value));
      }
      db.withdrawals := db.withdrawals + [Withdrawal(userId, asset, amount)];
    }
  }

  lemma TouchInAnyOrder(accounts: Accounts, k: AccountKey, l: AccountKey)
    ensures Touch(Touch(accounts, k), l) == Touch(Touch(accounts, l), k)
  {
  }

  class AdminService {
    const db: Database
    const ledger: LedgerService

    constructor (db: Database, ledger: LedgerService)
      ensures this.db == db && this.ledger == ledger
    {
      this.db, this.ledger := db, ledger;
    }

    /** Credits or debits the user against ADMIN_ADJUSTMENT, by the sign of the amount. */
    method CreateBalanceAdjustment(userId: UserId, asset: AssetId, amount: real) returns (error: Option<Error>)
      requires ledger.db == db
      modifies db
      ensures db.markets == old(db.markets)
      ensures IsStep(db.markets, old(db.Snapshot()), db.Snapshot(), error, s => ApplyAdjust(s, userId, asset, amount))
      ensures amount == 0.0 ==> error == Some(BadRequest) && db.Snapshot() == old(db.Snapshot())
      ensures amount > 0.0 ==>
                Committed(old(db.Snapshot()), db.Snapshot(), error,
                          Reported(PostTransfer(old(db.Snapshot()), Adjustment, SystemKey(AdminAdjustment, asset), UserKey(userId, asset), amount)))
      ensures amount < 0.0 ==>
                Committed(old(db.Snapshot()), db.Snapshot(), error,
                          Reported(PostTransfer(old(db.Snapshot()), Adjustment, UserKey(userId, asset), SystemKey(AdminAdjustment, asset), -amount)))
    {
      hide PostEntries, Touch;
      if amount == 0.0 {
        return Some(BadRequest);
      }
      var before := db.Snapshot();
      var account, system := UserKey(userId, asset), SystemKey(AdminAdjustment, asset);
      ledger.GetOrCreateAccount(account);
      ledger.GetOrCreateAccount(system);
      TouchInAnyOrder(before.accounts, account, system);
      var magnitude := if amount > 0.0 then amount else -amount;
      error := ledger.PostTransaction(Adjustment,
        if amount > 0.0 then [Entry(system, Debit, magnitude), Entry(account, Credit, magnitude)]
        else [Entry(account, Debit, magnitude), Entry(system, Credit, magnitude)]);
      if error.Some? {
        db.Restore(before);
        return Some(LackIsBadRequest(error.value));
      }
    }
  }
}
