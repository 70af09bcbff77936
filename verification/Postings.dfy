/** Money in and out, operation by operation: when each succeeds, whose balance moves, which way and by how much,
    and what it records. */
module Postings {
  import opened Types
  import opened Sums
  import Matching
  import opened Ledger
  import opened Holds
  import opened Settlement
  import opened FillProofs
  import opened Books
  import opened EngineSpec
  import opened Exchange
  import opened Transfers
  import opened Backing
  import opened Interleaving
  import opened Reconciliation

  /** The accounts of `t'` are those of `t` with `amount` taken from one and given to another; what is locked
      stays. */
  ghost predicate Moves(t: Tables, t': Tables, payer: AccountKey, payee: AccountKey, amount: real) {
    forall k ::
      && At(t'.accounts, k).locked == At(t.accounts, k).locked
      && At(t'.accounts, k).available ==
         At(t.accounts, k).available + (if k == payee then amount else 0.0) - (if k == payer then amount else 0.0)
  }

  /** Nothing but accounts and journal has changed, and the journal by one transaction of the kind. */
  ghost predicate Posted(t: Tables, t': Tables, kind: Kind) {
    && t' == t.(accounts := t'.accounts, journal := t'.journal)
    && |t'.journal| == |t.journal| + 1 && t'.journal[..|t.journal|] == t.journal && t'.journal[|t.journal|].kind == kind
  }

  lemma TransferMoves(t: Tables, kind: Kind, payer: AccountKey, payee: AccountKey, amount: real)
    requires Money(t.accounts, t.holds, t.journal) && payer != payee && payer.asset == payee.asset
    ensures var r := PostTransfer(t, kind, payer, payee, amount);
            && (r.Ok? <==> amount > 0.0 && (payer.owner.User? ==> At(t.accounts, payer).available >= amount))
            && (r.Err? ==> r.error == if amount > 0.0 then InsufficientBalance else InvalidLedgerEntry)
            && (r.Ok? ==> Moves(t, r.value, payer, payee, amount) && Posted(t, r.value, kind))
  {
    hide Money, At;
    TransferKeepsMoney(t, kind, payer, payee, amount);
    if PostTransfer(t, kind, payer, payee, amount).Ok? {
      PostsOne(t, kind, payer, payee, amount);
    } else {
      TransferFails(t, kind, payer, payee, amount);
    }
  }

  lemma PostsOne(t: Tables, kind: Kind, payer: AccountKey, payee: AccountKey, amount: real)
    requires PostTransfer(t, kind, payer, payee, amount).Ok?
    ensures Posted(t, PostTransfer(t, kind, payer, payee, amount).value, kind)
  {
    hide PostEntries;
  }

  lemma TransferFails(t: Tables, kind: Kind, payer: AccountKey, payee: AccountKey, amount: real)
    requires PostTransfer(t, kind, payer, payee, amount).Err? && payer != payee && payer.asset == payee.asset
    ensures PostTransfer(t, kind, payer, payee, amount).error == if amount > 0.0 then InsufficientBalance else InvalidLedgerEntry
  {
    hide AllPositive, Total, PerAsset;
    TransferNets(payer, payee, amount);
    var accounts := Touch(Touch(t.accounts, payer), payee);
    var d, c := Entry(payer, Debit, amount), Entry(payee, Credit, amount);
    assert [d, c][1..] == [c] && [c][1..] == [];
    if ApplyEntry(accounts, d).Ok? {
      var debited := ApplyEntry(accounts, d).value;
      assert ApplyAll(debited, [c]) == ApplyAll(ApplyEntry(debited, c).value, []);
    }
  }

  /** An operation that goes through changes the tables only, and one that is refused nothing at all. */
  ghost predicate TablesOnly(s: State, r: Reply) {
    r.state == if r.error.Some? then s else s.(tables := r.state.tables)
  }

  /** A grant succeeds exactly for a positive amount, and moves it from TEST_LIQUIDITY to the user. */
  lemma GrantMoves(s: State, userId: UserId, asset: AssetId, amount: real)
    requires Booked(s.markets, s.tables)
    ensures var r := Exec(s, GrantFunds(userId, asset, amount));
            && TablesOnly(s, r)
            && (r.error == if amount > 0.0 then None else Some(InvalidLedgerEntry))
            && (r.error.None? ==>
                  && Moves(s.tables, r.state.tables, SystemKey(TestLiquidity, asset), UserKey(userId, asset), amount)
                  && Posted(s.tables, r.state.tables, Grant))
  {
    hide PostTransfer, Moves, Posted, Money, Reconciled;
    TransferMoves(s.tables, Grant, SystemKey(TestLiquidity, asset), UserKey(userId, asset), amount);
  }

  /** An adjustment succeeds exactly if it is positive, or negative and the user has that much available. It
      changes what the user has available by exactly the amount, sign included, ADMIN_ADJUSTMENT by the
      opposite, and no other account. */
  lemma AdjustMoves(s: State, userId: UserId, asset: AssetId, amount: real)
    requires Booked(s.markets, s.tables)
    ensures var r, user := Exec(s, Adjust(userId, asset, amount)), UserKey(userId, asset);
            && TablesOnly(s, r)
            && (r.error.None? <==> amount > 0.0 || (amount < 0.0 && At(s.tables.accounts, user).available >= -amount))
            && (r.error.Some? ==> r.error.value == BadRequest)
            && (r.error.None? ==>
                  && Moves(s.tables, r.state.tables, SystemKey(AdminAdjustment, asset), user, amount)
                  && Posted(s.tables, r.state.tables, Adjustment))
  {
    hide PostTransfer, Posted, Money, Reconciled, At;
    var user, system := UserKey(userId, asset), SystemKey(AdminAdjustment, asset);
    TransferMoves(s.tables, Adjustment, system, user, amount);
    TransferMoves(s.tables, Adjustment, user, system, -amount);
  }

  /** A withdrawal succeeds exactly for a positive amount that the user has available, moves it into
      WITHDRAWAL_SUSPENSE and is recorded. */
  lemma WithdrawMoves(s: State, userId: UserId, asset: AssetId, amount: real)
    requires Booked(s.markets, s.tables)
    ensures var r, user := Exec(s, Withdraw(userId, asset, amount)), UserKey(userId, asset);
            && TablesOnly(s, r)
            && (r.error.None? <==> amount > 0.0 && At(s.tables.accounts, user).available >= amount)
            && (r.error.Some? ==> r.error.value == BadRequest)
            && (r.error.None? ==>
                  && Moves(s.tables, r.state.tables, user, SystemKey(WithdrawalSuspense, asset), amount)
                  && r.state.tables.withdrawals == s.tables.withdrawals + [Withdrawal(userId, asset, amount)]
                  && Posted(s.tables, r.state.tables.(withdrawals := s.tables.withdrawals), WithdrawalOut))
  {
    hide PostTransfer, Posted, Money, Reconciled, At;
    TransferMoves(s.tables, WithdrawalOut, UserKey(userId, asset), SystemKey(WithdrawalSuspense, asset), amount);
    var posted := PostTransfer(s.tables, WithdrawalOut, UserKey(userId, asset), SystemKey(WithdrawalSuspense, asset), amount);
    if posted.Ok? {
      KeepsWithdrawals(s.tables, posted.value, WithdrawalOut, Withdrawal(userId, asset, amount));
    }
  }

  lemma KeepsWithdrawals(t: Tables, t': Tables, kind: Kind, w: Withdrawal)
    requires Posted(t, t', kind)
    ensures t'.(withdrawals := t.withdrawals + [w]).(withdrawals := t.withdrawals) == t'
    ensures t'.deposits == t.deposits && t'.withdrawals == t.withdrawals
  {
  }

  /** A deposit is taken down for a positive amount, and moves nothing yet. */
  lemma CreateDepositRecords(s: State, userId: UserId, asset: AssetId, amount: real)
    ensures var r := Exec(s, CreateDeposit(userId, asset, amount));
            && (r.error == if amount > 0.0 then None else Some(BadRequest))
            && r.state == if amount > 0.0
                          then s.(tables := s.tables.(deposits := s.tables.deposits + [Deposit(userId, asset, amount, Pending)]))
                          else s
  {
  }

  /** Confirming finds the deposit or not; one that is pending moves its amount from TEST_LIQUIDITY to its user
      and becomes CONFIRMED; one that is not pending any more is left alone. */
  lemma ConfirmMoves(s: State, id: nat)
    requires Booked(s.markets, s.tables)
    ensures var r := Exec(s, ConfirmDeposit(id));
            && TablesOnly(s, r)
            && (id >= |s.tables.deposits| ==> r.error == Some(NotFound))
            && (id < |s.tables.deposits| ==>
                  var d := s.tables.deposits[id];
                  if d.status == Confirmed then r.error.None? && r.state == s
                  else
                    && (r.error == if d.amount > 0.0 then None else Some(InvalidLedgerEntry))
                    && (r.error.None? ==>
                          && Moves(s.tables, r.state.tables, SystemKey(TestLiquidity, d.asset), UserKey(d.userId, d.asset), d.amount)
                          && r.state.tables.deposits == s.tables.deposits[id := Deposit(d.userId, d.asset, d.amount, Confirmed)]
                          && Posted(s.tables, r.state.tables.(deposits := s.tables.deposits), DepositIn)))
  {
    hide PostTransfer, Posted, Money, Reconciled, At;
    if id < |s.tables.deposits| && s.tables.deposits[id].status == Pending {
      var d := s.tables.deposits[id];
      TransferMoves(s.tables, DepositIn, SystemKey(TestLiquidity, d.asset), UserKey(d.userId, d.asset), d.amount);
      var posted := PostTransfer(s.tables, DepositIn, SystemKey(TestLiquidity, d.asset), UserKey(d.userId, d.asset), d.amount);
      if posted.Ok? {
        KeepsDeposits(s.tables, posted.value, DepositIn, s.tables.deposits[id := d.(status := Confirmed)]);
      }
    }
  }

  lemma KeepsDeposits(t: Tables, t': Tables, kind: Kind, deposits: seq<Deposit>)
    requires Posted(t, t', kind)
    ensures t'.(deposits := deposits).(deposits := t.deposits) == t' && t'.deposits == t.deposits
  {
  }

  // ---------------------------------------------------------------------------
  // What a posting refuses
  // ---------------------------------------------------------------------------

  /** The legs of one direction, from a position on. */
  ghost function Legs(entries: seq<Entry>, direction: Direction, start: nat): map<nat, real> {
    map i: nat | start <= i < |entries| && entries[i].direction == direction :: entries[i].amount
  }

  lemma {:induction false} TotalIsSum(entries: seq<Entry>, direction: Direction, start: nat)
    requires start <= |entries|
    ensures Total(entries[start..], direction) == Sum(Legs(entries, direction, start))
    decreases |entries| - start
  {
    if start < |entries| {
      TotalIsSum(entries, direction, start + 1);
      assert entries[start..][1..] == entries[start + 1..] && entries[start..][0] == entries[start];
      var more := Legs(entries, direction, start + 1);
      if entries[start].direction == direction {
        SumUpdate(more, start, entries[start].amount);
        assert Legs(entries, direction, start) == more[start := entries[start].amount];
      } else {
        assert Legs(entries, direction, start) == more;
      }
    } else {
      assert Legs(entries, direction, start) == map[];
    }
  }

  /** A posting is refused as invalid exactly for fewer than two legs or one that is not positive, as unbalanced
      exactly if its debits do not add up to its credits, and otherwise only where an account is missing or a
      user lacks the funds. */
  lemma PostRefusesIff(accounts: Accounts, entries: seq<Entry>)
    ensures var r := PostEntries(accounts, entries);
            var invalid := |entries| < 2 || exists e :: e in entries && e.amount <= 0.0;
            var unequal := Sum(Legs(entries, Debit, 0)) != Sum(Legs(entries, Credit, 0));
            && (r == Err(InvalidLedgerEntry) <==> invalid)
            && (r == Err(LedgerImbalance) <==> !invalid && unequal)
            && (!invalid && !unequal ==> r.Ok? || r.error == NotFound || r.error == InsufficientBalance)
  {
    hide Total, ApplyAll;
    TotalIsSum(entries, Debit, 0);
    TotalIsSum(entries, Credit, 0);
    assert entries[0..] == entries;
    ApplyRefuses(accounts, entries);
  }

  lemma {:induction false} ApplyRefuses(accounts: Accounts, entries: seq<Entry>)
    ensures var r := ApplyAll(accounts, entries); r.Ok? || r.error == NotFound || r.error == InsufficientBalance
  {
    if entries != [] && ApplyEntry(accounts, entries[0]).Ok? {
      ApplyRefuses(ApplyEntry(accounts, entries[0]).value, entries[1..]);
    }
  }

  // ---------------------------------------------------------------------------
  // Every run
  // ---------------------------------------------------------------------------

  ghost predicate DepositsPositive(t: Tables) {
    forall d | d in t.deposits :: d.amount > 0.0
  }

  /** Of all operations only these two touch the deposits. */
  lemma DepositsStay(s: State, op: Op)
    requires !op.CreateDeposit? && !op.ConfirmDeposit?
    ensures Exec(s, op).state.tables.deposits == s.tables.deposits
  {
    hide ResolvePrice, AcceptsQuantity, ReleaseHold, EngineSpec.Cancel, EngineSpec.Submit, PostEntries, TransferEntries, Rebuild,
      CloseRemainder, SettleAll;
    if op.SubmitOrder? {
      SettlingKeepsDeposits(s, op.id);
    }
  }

  lemma SettlingKeepsDeposits(s: State, id: OrderId)
    ensures ApplySubmit(s, id).state.tables.deposits == s.tables.deposits
  {
    hide EngineSpec.Submit, SettleAll, ReduceHold;
    if id in s.pending && id < |s.tables.orders| {
      var row := s.tables.orders[id];
      if row.market in s.engines && Acceptable(InputOf(id, row)) {
        AllSettledKeepsDeposits(s.tables, row.market, s.pending[id], EngineSpec.Submit(s.engines[row.market], InputOf(id, row)).1.fills);
      }
    }
  }

  lemma {:induction false} AllSettledKeepsDeposits(t: Tables, mid: MarketId, m: Market, fills: seq<Matching.Fill>)
    ensures SettleAll(t, mid, m, fills).Ok? ==> SettleAll(t, mid, m, fills).value.deposits == t.deposits
    decreases |fills|
  {
    hide PostEntries, FillEntries, TouchFillAccounts, Unreserve;
    if fills != [] && SettleFill(t, mid, m, fills[0]).Ok? {
      AllSettledKeepsDeposits(SettleFill(t, mid, m, fills[0]).value, mid, m, fills[1..]);
    }
  }

  lemma StepKeepsDepositsPositive(s: State, op: Op)
    requires Booked(s.markets, s.tables) && DepositsPositive(s.tables)
    ensures DepositsPositive(Exec(s, op).state.tables)
  {
    hide Booked, Exec, Moves, Posted;
    match op
    case CreateDeposit(userId, asset, amount) => CreateDepositRecords(s, userId, asset, amount);
    case ConfirmDeposit(id) => ConfirmMoves(s, id);
    case _ => DepositsStay(s, op);
  }

  lemma {:induction false} RunKeepsDepositsPositive(s: State, ops: seq<Op>)
    requires Sound(Quiet(s)) && DepositsPositive(s.tables)
    ensures DepositsPositive(Run(s, ops).tables)
    decreases |ops|
  {
    hide Sound, Backed, Exec, DepositsPositive;
    if ops != [] {
      SoundIsBacked(Quiet(s));
      assert Booked(s.markets, s.tables) by { BackedIsBooked(s.markets, s.tables); }
      StepKeepsDepositsPositive(s, ops[0]);
      StepKeepsSound(s, ops[0]);
      RunKeepsDepositsPositive(Exec(s, ops[0]).state, ops[1..]);
    }
  }

  lemma BackedIsBooked(markets: Markets, t: Tables)
    requires Backed(markets, t)
    ensures Booked(markets, t)
  {
    hide Booked, RowsBacked, TradesFit, TradesValid;
  }

  /** In every reachable state, confirming a deposit that was taken down cannot fail, and credits its user with
      its amount exactly once. */
  lemma EveryRunConfirmsOnce(markets: Markets, ops: seq<Op>, id: nat)
    requires id < |Run(Init(markets), ops).tables.deposits|
    ensures var s := Run(Init(markets), ops);
            var r, d := Exec(s, ConfirmDeposit(id)), s.tables.deposits[id];
            && r.error.None? && id < |r.state.tables.deposits| && r.state.tables.deposits[id] == d.(status := Confirmed)
            && Exec(r.state, ConfirmDeposit(id)) == Done(r.state)
            && Moves(s.tables, r.state.tables, SystemKey(TestLiquidity, d.asset), UserKey(d.userId, d.asset),
                     if d.status == Pending then d.amount else 0.0)
  {
    hide Booked, Backed, Sound, Run, Posted;
    EveryRunIsBooked(markets, ops);
    StartIsSound(markets);
    RunKeepsDepositsPositive(Init(markets), ops);
    var s := Run(Init(markets), ops);
    ConfirmMoves(s, id);
    ConfirmedOnce(Exec(s, ConfirmDeposit(id)).state, id);
  }

  lemma ConfirmedOnce(s: State, id: nat)
    requires id < |s.tables.deposits| && s.tables.deposits[id].status == Confirmed
    ensures Exec(s, ConfirmDeposit(id)) == Done(s)
  {
  }
}
