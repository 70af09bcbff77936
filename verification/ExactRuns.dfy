/** Over every run on suitable markets, every amount ever stored is exact: decimal rounding never
    happens, and quantities stay whole steps. */
module ExactRuns {
  import opened Types
  import opened BookSide
  import opened Matching
  import opened MatchingFacts
  import opened EngineSpec
  import opened Ledger
  import opened Holds
  import opened Settlement
  import opened FillProofs
  import opened Books
  import opened Submission
  import opened Exchange
  import opened Transfers
  import opened Safety
  import opened OrderHistory
  import opened AgreementRuns
  import opened Backing
  import opened Interleaving
  import opened Reconciliation
  import opened DecimalRules
  import opened Exactness

  predicate SameGrid(m: Market, m': Market) {
    m'.tickSize == m.tickSize && m'.quantityStep == m.quantityStep
  }

  ghost predicate EngineOnGrid(m: Market, e: Engine) {
    MakersOnGrid(m, e.bids) && MakersOnGrid(m, e.asks)
  }

  ghost predicate PendingOnGrid(markets: Markets, orders: seq<OrderRow>, id: OrderId, m: Market) {
    && id < |orders| && orders[id].market in markets
    && Grid(m) && SameGrid(m, markets[orders[id].market])
  }

  ghost predicate ExactState(s: State) {
    && (forall mid | mid in s.markets :: Grid(s.markets[mid]))
    && (forall mid | mid in s.engines :: mid in s.markets && EngineOnGrid(s.markets[mid], s.engines[mid]))
    && (forall id | id in s.pending :: PendingOnGrid(s.markets, s.tables.orders, id, s.pending[id]))
    && ExactTables(s.markets, s.tables)
  }

  /** Amounts and fee rates come in with no more places than their columns keep. */
  predicate ExactInput(op: Op) {
    match op
    case GrantFunds(_, _, amount) => Exact(amount)
    case CreateDeposit(_, _, amount) => Exact(amount)
    case Withdraw(_, _, amount) => Exact(amount)
    case Adjust(_, _, amount) => Exact(amount)
    case UpdateMarket(_, _, makerFee, takerFee) =>
      (makerFee.Some? ==> Places(makerFee.value, FEE_PLACES)) && (takerFee.Some? ==> Places(takerFee.value, FEE_PLACES))
    case _ => true
  }

  // ---------------------------------------------------------------------------
  // Submitting
  // ---------------------------------------------------------------------------

  lemma GridChanges(markets: Markets, markets': Markets, t: Tables)
    requires ExactTables(markets, t)
    requires forall mid | mid in markets :: mid in markets' && SameGrid(markets[mid], markets'[mid])
    ensures ExactTables(markets', t)
  {
    hide ExactMoney, Multiple, Tenths;
  }

  /** The fills of a submission are on the grid, between orders of its market. */
  lemma OutcomeOnGrid(s: State, id: OrderId)
    requires Sound(Quiet(s)) && ExactState(s) && id in s.pending
    ensures id < |s.tables.orders| && s.tables.orders[id].market in s.engines
    ensures var row, o, m := s.tables.orders[id], OutcomeOf(s, id), s.pending[id];
            && Grid(m) && FillsOnGrid(m, s.tables.orders, row.market, o.fills)
            && MakersOnGrid(m, o.makers) && Multiple(o.remaining, m.quantityStep)
  {
    hide Sound, Multiple, Grid, Match, EngineValid, FillOnGrid, ExactMoney, Tenths, WithinLimit;
    PendingIsWhole(Quiet(s), id);
    assert PendingOnGrid(s.markets, s.tables.orders, id, s.pending[id]);
    var row, m := s.tables.orders[id], s.pending[id];
    var t, makers := TakerOf(InputOf(id, row)), SideOf(s.engines[row.market], Opposite(row.side));
    assert EngineOnGrid(s.markets[row.market], s.engines[row.market]);
    assert RowOnGrid(s.markets[row.market], row);
    MatchOnGrid(m, t, makers, row.quantity);
    OutcomeKnown(s, id);
    forall f | f in OutcomeOf(s, id).fills
      ensures f.makerOrderId < |s.tables.orders| && f.takerOrderId < |s.tables.orders|
      ensures s.tables.orders[f.makerOrderId].market == row.market && s.tables.orders[f.takerOrderId].market == row.market
    {
      assert FillKnown(s.tables.orders, row.market, f);
    }
  }

  lemma OutcomeKnown(s: State, id: OrderId)
    requires Sound(Quiet(s)) && id in s.pending && id < |s.tables.orders| && s.tables.orders[id].market in s.engines
    ensures AllKnown(s.tables.orders, s.tables.orders[id].market, OutcomeOf(s, id).fills) && OutcomeOf(s, id).remaining >= 0.0
  {
    hide Sound, Match, SideValid, AllKnown, SideKnown;
    PendingIsWhole(Quiet(s), id);
    var row := s.tables.orders[id];
    var e, makers := s.engines[row.market], SideOf(s.engines[row.market], Opposite(row.side));
    EngineIsKnown(Quiet(s), row.market);
    MatchedIsKnown(s.tables.orders, row.market, TakerOf(InputOf(id, row)), makers, row.quantity);
    MembersReduced(Opposite(row.side), makers);
    MatchConserves(TakerOf(InputOf(id, row)), makers, row.quantity);
  }

  lemma CloseExact(markets: Markets, t: Tables, id: OrderId, result: SubmitResult)
    requires ExactTables(markets, t) && id < |t.orders|
    requires t.orders[id].market in markets && Grid(markets[t.orders[id].market])
    requires Multiple(result.remaining, markets[t.orders[id].market].quantityStep)
    ensures ExactTables(markets, CloseRemainder(t, id, result))
  {
    hide Places, Multiple, Grid, Tenths, ReduceHold, ReserveOf;
    var r := t.orders[id];
    ReserveExact(markets[r.market], r, result.remaining);
    ReduceExact(t.accounts, t.holds, id, ReserveOf(r, result.remaining));
  }

  /** A settled submission writes exact amounts only. */
  lemma SettlementExact(s: State, id: OrderId)
    requires Sound(Quiet(s)) && ExactState(s) && id in s.pending
    ensures id < |s.tables.orders| && s.tables.orders[id].market in s.engines
    ensures SettlementOf(s, id).Ok? ==> ExactTables(s.markets, SettlementOf(s, id).value)
  {
    hide Sound, ExactTables, Multiple, Grid, Match, SettleAll, CloseRemainder, EngineOnGrid, FillOnGrid, SettlementOf;
    OutcomeOnGrid(s, id);
    assert PendingOnGrid(s.markets, s.tables.orders, id, s.pending[id]);
    var row, markets := s.tables.orders[id], MarketsOf(s, id);
    GridChanges(s.markets, markets, s.tables);
    OutcomeKnown(s, id);
    SettlementCloses(s, id);
    if SettlementOf(s, id).Ok? {
      SettleAllExact(markets, s.tables, row.market, OutcomeOf(s, id).fills);
      var settled := SettleAll(s.tables, row.market, s.pending[id], OutcomeOf(s, id).fills).value;
      SettlingKeepsMarkets(s.tables, row.market, s.pending[id], OutcomeOf(s, id).fills);
      if CancelledRemainder(ResultOf(s, id).status) {
        CloseExact(markets, settled, id, ResultOf(s, id));
      }
      GridChanges(markets, s.markets, SettlementOf(s, id).value);
    }
  }

  lemma {:induction false} SettlingKeepsMarkets(t: Tables, mid: MarketId, m: Market, fills: seq<Fill>)
    requires SettleAll(t, mid, m, fills).Ok?
    ensures var orders' := SettleAll(t, mid, m, fills).value.orders;
            |orders'| == |t.orders| && forall i | 0 <= i < |t.orders| :: orders'[i].market == t.orders[i].market
    decreases |fills|
  {
    hide PostEntries, TouchFillAccounts, FillEntries, Unreserve;
    if fills != [] {
      SettlingKeepsMarkets(SettleFill(t, mid, m, fills[0]).value, mid, m, fills[1..]);
    }
  }

  lemma EngineStaysOnGrid(s: State, id: OrderId)
    requires Sound(Quiet(s)) && ExactState(s) && id in s.pending
    ensures id < |s.tables.orders| && s.tables.orders[id].market in s.engines && s.tables.orders[id].market in s.markets
    ensures var row := s.tables.orders[id];
            && Acceptable(InputOf(id, row))
            && EngineOnGrid(s.markets[row.market], EngineSpec.Submit(s.engines[row.market], InputOf(id, row)).0)
  {
    hide Sound, Multiple, Grid, Match, Insert, FillOnGrid, ExactMoney, Tenths;
    OutcomeOnGrid(s, id);
    PendingIsWhole(Quiet(s), id);
    assert PendingOnGrid(s.markets, s.tables.orders, id, s.pending[id]);
    var row := s.tables.orders[id];
    var m, e, input, o := s.markets[row.market], s.engines[row.market], InputOf(id, row), OutcomeOf(s, id);
    assert EngineOnGrid(m, e) && RowOnGrid(m, row);
    if Stays(input, o.remaining, o.stopped) {
      InsertMembers(input.side, SideOf(e, input.side), Remainder(input, o.remaining, e.sequence + 1));
    }
  }

  lemma SubmitKeepsExact(s: State, id: OrderId)
    requires Sound(Quiet(s)) && ExactState(s)
    ensures ExactState(ApplySubmit(s, id).state)
  {
    hide Sound, ExactTables, Grid, EngineOnGrid, SettlementOf, Match, EngineSpec.Submit, ApplySubmit;
    if id !in s.pending {
      RejectedSubmit(s, id);
      return;
    }
    SettlementExact(s, id);
    EngineStaysOnGrid(s, id);
    SubmittedState(s, id);
    PendingIsWhole(Quiet(s), id);
    var s' := ApplySubmit(s, id).state;
    MarketsStay(s, id);
    forall other | other in s'.pending ensures PendingOnGrid(s'.markets, s'.tables.orders, other, s'.pending[other]) {
      assert PendingOnGrid(s.markets, s.tables.orders, other, s.pending[other]);
    }
  }

  lemma MarketsStay(s: State, id: OrderId)
    requires Sound(Quiet(s)) && id in s.pending
    ensures var orders, orders' := s.tables.orders, ApplySubmit(s, id).state.tables.orders;
            |orders'| >= |orders| && forall i | 0 <= i < |orders| :: orders'[i].market == orders[i].market
  {
    hide Sound, Exec;
    StepKeepsSound(s, SubmitOrder(id));
    SubmitIsExec(s, id);
    forall i | 0 <= i < |s.tables.orders| ensures ApplySubmit(s, id).state.tables.orders[i].market == s.tables.orders[i].market {
      assert Onward(s.tables.orders[i], ApplySubmit(s, id).state.tables.orders[i]);
    }
  }

  // ---------------------------------------------------------------------------
  // The other operations
  // ---------------------------------------------------------------------------

  lemma NewRowOnGrid(m: Market, e: Engine, userId: UserId, r: Request)
    requires EngineOnGrid(m, e) && AcceptsQuantity(m, r) && ResolvePrice(m, e, r).Ok?
    ensures RowOnGrid(m, NewRow(userId, r, ResolvePrice(m, e, r).value))
  {
    hide Multiple, IsMultipleOf, Tenths, Notional;
    IsMultipleOfIff(r.quantity, m.quantityStep);
    MultipleZero(m.quantityStep);
    var price := ResolvePrice(m, e, r).value;
    if r.orderType == Limit {
      IsMultipleOfIff(price, m.tickSize);
      OnTickIsTenths(price, m.tickSize);
    } else {
      var best := SideOf(e, Opposite(r.side))[0];
      assert best in SideOf(e, Opposite(r.side));
      OnTickIsTenths(best.price, m.tickSize);
    }
  }

  lemma CreateExact(markets: Markets, t: Tables, row: OrderRow)
    requires ExactTables(markets, t) && row.market in markets
    requires Grid(markets[row.market]) && RowOnGrid(markets[row.market], row)
    requires CreateAndLock(t, markets[row.market], row).Ok?
    ensures ExactTables(markets, CreateAndLock(t, markets[row.market], row).value)
  {
    hide Places, Multiple, Tenths, Grid, ReserveOf, Unlock;
    var m := markets[row.market];
    ReserveExact(m, row, row.quantity);
    UnlockExact(t.accounts, LockKey(m, row), ReserveOf(row, row.quantity));
  }

  lemma PlaceKeepsExact(s: State, userId: UserId, r: Request)
    requires ExactState(s)
    ensures ExactState(ApplyPlace(s, userId, r).state)
  {
    hide Multiple, Grid, ExactTables, EngineOnGrid, CreateAndLock, ResolvePrice, AcceptsQuantity, Notional;
    if ApplyPlace(s, userId, r).error.None? {
      var m, e := s.markets[r.market], s.engines[r.market];
      NewRowOnGrid(m, e, userId, r);
      var row := NewRow(userId, r, ResolvePrice(m, e, r).value);
      CreateExact(s.markets, s.tables, row);
      CreatedOrders(s.tables, m, row);
      var s' := ApplyPlace(s, userId, r).state;
      forall id | id in s'.pending ensures PendingOnGrid(s'.markets, s'.tables.orders, id, s'.pending[id]) {
        assert id in s.pending ==> PendingOnGrid(s.markets, s.tables.orders, id, s.pending[id]);
      }
    }
  }

  lemma CreatedOrders(t: Tables, m: Market, row: OrderRow)
    requires CreateAndLock(t, m, row).Ok?
    ensures CreateAndLock(t, m, row).value.orders == t.orders + [row]
  {
  }

  lemma CancelKeepsExact(s: State, userId: UserId, id: OrderId)
    requires Sound(Quiet(s)) && ExactState(s)
    ensures ExactState(ApplyCancel(s, userId, id).state)
  {
    hide Sound, Places, Multiple, Tenths, Grid, EngineSpec.Cancel, ReleaseHold, EngineValid, Uncrossed;
    var s' := ApplyCancel(s, userId, id).state;
    if ApplyCancel(s, userId, id).error.None? {
      var row := s.tables.orders[id];
      ReleaseExact(s.tables.accounts, s.tables.holds, id);
      if row.market in s.engines {
        EngineIsValid(Quiet(s), row.market);
        assert EngineOnGrid(s.markets[row.market], s.engines[row.market]);
        CancelRemoves(s.engines[row.market], id);
      }
      forall other | other in s'.pending ensures PendingOnGrid(s'.markets, s'.tables.orders, other, s'.pending[other]) {
        assert PendingOnGrid(s.markets, s.tables.orders, other, s.pending[other]);
      }
    }
  }

  lemma ReleaseExact(accounts: Accounts, holds: Holds, id: OrderId)
    requires ExactMoney(accounts, holds, []) && ReleaseHold(accounts, holds, id).Ok?
    ensures var r := ReleaseHold(accounts, holds, id).value; ExactMoney(r.0, r.1, [])
  {
    hide Places, Unlock;
    UnlockExact(accounts, holds[id].account, holds[id].amount);
  }

  lemma TransferExact(t: Tables, kind: Kind, from: AccountKey, to: AccountKey, amount: real)
    requires ExactMoney(t.accounts, t.holds, t.journal) && Exact(amount) && PostTransfer(t, kind, from, to, amount).Ok?
    ensures var t' := PostTransfer(t, kind, from, to, amount).value; ExactMoney(t'.accounts, t'.holds, t'.journal)
  {
    hide Places, Touch, ApplyAll;
    TouchExact(t.accounts, from);
    TouchExact(Touch(t.accounts, from), to);
    PostingExact(Touch(Touch(t.accounts, from), to), TransferEntries(from, to, amount));
  }

  lemma DepositsKeepExact(s: State, op: Op)
    requires ExactState(s) && ExactInput(op)
    requires op.CreateDeposit? || op.ConfirmDeposit?
    ensures ExactState(Exec(s, op).state)
  {
    hide Places, Grid, EngineOnGrid, RowsOnGrid, PostEntries, ExactMoney, ExactTrade;
    match op
    case CreateDeposit(userId, asset, amount) =>
    case ConfirmDeposit(id) =>
      if id < |s.tables.deposits| {
        var d := s.tables.deposits[id];
        assert d in s.tables.deposits;
        TransferExactIf(s.tables, DepositIn, SystemKey(TestLiquidity, d.asset), UserKey(d.userId, d.asset), d.amount);
      }
  }

  /** A posted transfer of an exact amount, with whatever exact withdrawals. */
  lemma FundsKeepExact(s: State, r: Result<Tables>, withdrawals: seq<Withdrawal>)
    requires ExactState(s)
    requires r.Ok? ==> ExactMoney(r.value.accounts, r.value.holds, r.value.journal)
                       && r.value == s.tables.(accounts := r.value.accounts, journal := r.value.journal)
    requires forall w | w in withdrawals :: Exact(w.amount)
    ensures r.Ok? ==> ExactState(s.(tables := r.value)) && ExactState(s.(tables := r.value.(withdrawals := withdrawals)))
  {
    hide Places, Grid, EngineOnGrid, RowsOnGrid, ExactMoney, ExactTrade;
  }

  lemma MoneyKeepsExact(s: State, op: Op)
    requires ExactState(s) && ExactInput(op)
    requires op.GrantFunds? || op.Withdraw? || op.Adjust?
    ensures ExactState(Exec(s, op).state)
  {
    hide ExactState, Places, Grid, PostTransfer, ExactMoney;
    var t := s.tables;
    MoneyIsExact(s);
    match op
    case GrantFunds(userId, asset, amount) =>
      var r := TransferOf(t, Grant, SystemKey(TestLiquidity, asset), UserKey(userId, asset), amount);
      FundsKeepExact(s, r, t.withdrawals);
    case Withdraw(userId, asset, amount) =>
      var r := TransferOf(t, WithdrawalOut, UserKey(userId, asset), SystemKey(WithdrawalSuspense, asset), amount);
      FundsKeepExact(s, r, t.withdrawals + [Withdrawal(userId, asset, amount)]);
    case Adjust(userId, asset, amount) =>
      NegatedExact(amount);
      var r := TransferOf(t, Adjustment, SystemKey(AdminAdjustment, asset), UserKey(userId, asset), amount);
      FundsKeepExact(s, r, t.withdrawals);
      r := TransferOf(t, Adjustment, UserKey(userId, asset), SystemKey(AdminAdjustment, asset), -amount);
      FundsKeepExact(s, r, t.withdrawals);
  }

  lemma MoneyIsExact(s: State)
    requires ExactState(s)
    ensures ExactMoney(s.tables.accounts, s.tables.holds, s.tables.journal)
    ensures forall w | w in s.tables.withdrawals :: Exact(w.amount)
  {
    hide Places, Grid, EngineOnGrid, RowsOnGrid, ExactMoney, ExactTrade;
  }

  /** The outcome of a transfer. */
  lemma TransferOf(t: Tables, kind: Kind, from: AccountKey, to: AccountKey, amount: real) returns (r: Result<Tables>)
    requires ExactMoney(t.accounts, t.holds, t.journal) && Exact(amount)
    ensures r == PostTransfer(t, kind, from, to, amount)
    ensures r.Ok? ==> ExactMoney(r.value.accounts, r.value.holds, r.value.journal)
                      && r.value == t.(accounts := r.value.accounts, journal := r.value.journal)
  {
    hide ExactMoney, Places, PostEntries, Touch;
    TransferExactIf(t, kind, from, to, amount);
    r := PostTransfer(t, kind, from, to, amount);
  }

  lemma TransferExactIf(t: Tables, kind: Kind, from: AccountKey, to: AccountKey, amount: real)
    requires ExactMoney(t.accounts, t.holds, t.journal) && Exact(amount)
    ensures var r := PostTransfer(t, kind, from, to, amount);
            r.Ok? ==> ExactMoney(r.value.accounts, r.value.holds, r.value.journal)
  {
    hide ExactMoney, Places, PostTransfer;
    if PostTransfer(t, kind, from, to, amount).Ok? {
      TransferExact(t, kind, from, to, amount);
    }
  }

  lemma NegatedExact(x: real)
    requires Exact(x)
    ensures Exact(-x)
  {
    ZeroExact();
    PlacesSum(0.0, x, NUMERIC_SCALE);
  }

  lemma RestartKeepsExact(s: State)
    requires Sound(Quiet(s)) && ExactState(s)
    ensures ExactState(ApplyRestart(s).state)
  {
    hide Sound, Multiple, Grid, ExactMoney, RebuildSide, SideValid, RowValid, Tenths;
    SoundRowsValid(s);
    forall mid | mid in s.markets ensures EngineOnGrid(s.markets[mid], Rebuild(s.tables.orders, mid)) {
      RebuildSideValid(s.tables.orders, mid, Buy);
      RebuildSideValid(s.tables.orders, mid, Sell);
    }
  }

  lemma UpdateKeepsExact(s: State, id: MarketId, status: Option<MarketStatus>, makerFee: Option<real>, takerFee: Option<real>)
    requires ExactState(s) && ExactInput(UpdateMarket(id, status, makerFee, takerFee))
    ensures ExactState(ApplyUpdateMarket(s, id, status, makerFee, takerFee).state)
  {
    hide ExactTables, Places, Multiple;
    if id in s.markets {
      var s' := ApplyUpdateMarket(s, id, status, makerFee, takerFee).state;
      var m: Market := s.markets[id];
      var dt: nat, ds: nat :| GridPlaces(m, dt, ds);
      assert GridPlaces(s'.markets[id], dt, ds);
      GridChanges(s.markets, s'.markets, s.tables);
      forall other | other in s'.pending ensures PendingOnGrid(s'.markets, s'.tables.orders, other, s'.pending[other]) {
        assert PendingOnGrid(s.markets, s.tables.orders, other, s.pending[other]);
      }
    }
  }

  lemma StepKeepsExact(s: State, op: Op)
    requires Sound(Quiet(s)) && ExactState(s) && ExactInput(op)
    ensures ExactState(Exec(s, op).state)
  {
    hide Sound, ExactState, ApplyPlace, ApplySubmit, ApplyCancel, ApplyUpdateMarket, ApplyRestart, ApplyGrant, ApplyCreateDeposit,
      ApplyWithdraw, ApplyAdjust, Confirm;
    match op
    case Place(userId, request) => PlaceKeepsExact(s, userId, request);
    case SubmitOrder(id) => SubmitKeepsExact(s, id);
    case CancelOrder(userId, id) => CancelKeepsExact(s, userId, id);
    case UpdateMarket(id, status, makerFee, takerFee) => UpdateKeepsExact(s, id, status, makerFee, takerFee);
    case Restart => RestartKeepsExact(s);
    case CreateDeposit(_, _, _) => DepositsKeepExact(s, op);
    case ConfirmDeposit(_) => DepositsKeepExact(s, op);
    case _ => MoneyKeepsExact(s, op);
  }

  lemma {:induction false} RunKeepsExact(s: State, ops: seq<Op>)
    requires Sound(Quiet(s)) && ExactState(s) && forall op | op in ops :: ExactInput(op)
    ensures ExactState(Run(s, ops))
    decreases |ops|
  {
    hide Sound, ExactState, Exec, ExactInput;
    if ops != [] {
      assert ops[0] in ops && forall op | op in ops[1..] :: op in ops;
      StepKeepsExact(s, ops[0]);
      StepKeepsSound(s, ops[0]);
      RunKeepsExact(Exec(s, ops[0]).state, ops[1..]);
    }
  }

  predicate Fits(x: real) {
    -(Pow10(NUMERIC_INTEGER_DIGITS) as real) < x < Pow10(NUMERIC_INTEGER_DIGITS) as real
  }

  /** `x` stands in a column of the tables. */
  ghost predicate StoredAmount(t: Tables, x: real) {
    || (exists k :: k in t.accounts && (x == t.accounts[k].available || x == t.accounts[k].locked))
    || (exists id :: id in t.holds && x == t.holds[id].amount)
    || (exists tx, e :: tx in t.journal && e in tx.entries && x == e.amount)
    || (exists r :: r in t.orders && (x == r.price || x == r.quantity || x == r.filled || x == r.remaining))
    || (exists tr :: tr in t.trades && (x == tr.price || x == tr.quantity || x == tr.quoteAmount || x == tr.makerFee || x == tr.takerFee))
    || (exists d :: d in t.deposits && x == d.amount)
    || (exists w :: w in t.withdrawals && x == w.amount)
  }

  lemma StoredIsExact(markets: Markets, t: Tables, x: real)
    requires ExactTables(markets, t) && StoredAmount(t, x)
    requires forall mid | mid in markets :: Grid(markets[mid])
    ensures Exact(x)
  {
    hide Places, Grid, RowOnGrid;
    forall r | r in t.orders ensures Exact(r.price) && Exact(r.quantity) && Exact(r.filled) && Exact(r.remaining) {
      RowExact(markets[r.market], r);
    }
  }

  /** On markets whose tick and step leave room for a fee rate within 18 places, every run keeps every
      order on the grid and every stored amount exact; what fits 18 integer digits is stored unrounded. */
  lemma EveryRunIsExact(markets: Markets, ops: seq<Op>, x: real)
    requires forall mid | mid in markets :: Grid(markets[mid])
    requires forall op | op in ops :: ExactInput(op)
    ensures var s := Run(Init(markets), ops);
            && ExactTables(s.markets, s.tables)
            && (StoredAmount(s.tables, x) ==> Exact(x) && (Fits(x) ==> Stored(x) == Some(x) && FitsPrecision(x)))
  {
    hide Sound, Grid, Places, ExactTables, StoredAmount;
    StartIsSound(markets);
    InitIsExact(markets);
    RunKeepsExact(Init(markets), ops);
    var s := Run(Init(markets), ops);
    if StoredAmount(s.tables, x) {
      StoredIsExact(s.markets, s.tables, x);
      if Fits(x) {
        ExactIsUnrounded(x);
      }
    }
  }

  lemma InitIsExact(markets: Markets)
    requires forall mid | mid in markets :: Grid(markets[mid])
    ensures ExactState(Init(markets))
  {
    hide Grid;
  }

  /** As long as less than 10^18 of an asset is in the users' hands, every user balance in it, and every
      active hold on it, is stored unrounded. */
  lemma EveryRunFits(markets: Markets, ops: seq<Op>, k: AccountKey, id: OrderId)
    requires forall mid | mid in markets :: Grid(markets[mid])
    requires forall op | op in ops :: ExactInput(op)
    requires k.owner.User? && Issued(Run(Init(markets), ops), k.asset) < Pow10(NUMERIC_INTEGER_DIGITS) as real
    ensures var t := Run(Init(markets), ops).tables;
            && Stored(At(t.accounts, k).available) == Some(At(t.accounts, k).available)
            && Stored(At(t.accounts, k).locked) == Some(At(t.accounts, k).locked)
            && (id in t.holds && t.holds[id].status == Active && t.holds[id].account == k ==>
                  Stored(t.holds[id].amount) == Some(t.holds[id].amount))
  {
    hide Booked, Backed, Grid, Places, Stored, Issued, Pow10, ExactTrade;
    EveryRunIsBooked(markets, ops);
    EveryRunIsExact(markets, ops, 0.0);
    var s := Run(Init(markets), ops);
    NoUserOwnsMore(s, k);
    HoldFitsLocked(s, k, id);
    ZeroExact();
    BelowBound(At(s.tables.accounts, k).available);
    BelowBound(At(s.tables.accounts, k).locked);
    if id in s.tables.holds && s.tables.holds[id].status == Active && s.tables.holds[id].account == k {
      BelowBound(s.tables.holds[id].amount);
    }
  }

  lemma HoldFitsLocked(s: State, k: AccountKey, id: OrderId)
    requires Booked(s.markets, s.tables)
    ensures id in s.tables.holds && s.tables.holds[id].status == Active && s.tables.holds[id].account == k ==>
              0.0 <= s.tables.holds[id].amount <= At(s.tables.accounts, k).locked
  {
    LockedNonNegative(s.tables.accounts, s.tables.holds, k);
  }

  lemma BelowBound(x: real)
    requires Exact(x) && 0.0 <= x < Pow10(NUMERIC_INTEGER_DIGITS) as real
    ensures Stored(x) == Some(x)
  {
    hide Places, Stored;
    ExactIsUnrounded(x);
  }
}
