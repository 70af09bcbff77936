/** The steps that touch the tables outside settlement: order lifecycle, market terms, and money
    coming in and going out. */
module Transfers {
  import opened Types
  import opened Ledger
  import opened Holds
  import opened Settlement
  import opened FillProofs
  import opened Books
  import opened EngineSpec
  import opened Exchange

  // ---------------------------------------------------------------------------
  // Orders placed, closed and cancelled
  // ---------------------------------------------------------------------------

  lemma {:induction false} UntradedOrder(markets: Markets, orders: seq<OrderRow>, trades: seq<Trade>, i: OrderId)
    requires TradesValid(markets, orders, trades) && i >= |orders|
    ensures TradedQuantity(trades, i) == 0.0 && TradedQuote(trades, i) == 0.0
  {
    if trades != [] {
      assert trades[|trades| - 1] in trades && TradeRecorded(markets, orders, trades[|trades| - 1]);
      UntradedOrder(markets, orders, trades[..|trades| - 1], i);
    }
  }

  /** `orders'` has moved orders along without filling any, and perhaps added unfilled ones. */
  ghost predicate NothingFilled(orders: seq<OrderRow>, orders': seq<OrderRow>) {
    && AllOnward(orders, orders')
    && (forall i | 0 <= i < |orders| :: orders'[i].filled == orders[i].filled)
    && (forall i | |orders| <= i < |orders'| :: orders'[i].filled == 0.0)
  }

  lemma NothingFilledKeepsTrades(markets: Markets, orders: seq<OrderRow>, orders': seq<OrderRow>, trades: seq<Trade>)
    requires TradesFit(orders, trades) && TradesValid(markets, orders, trades) && NothingFilled(orders, orders')
    ensures TradesFit(orders', trades) && TradesValid(markets, orders', trades)
  {
    TradesStay(markets, markets, orders, orders', trades);
    forall i: OrderId | i < |orders'|
      ensures orders'[i].filled == TradedQuantity(trades, i) && Protected(orders'[i], TradedQuote(trades, i))
    {
      if i < |orders| {
        assert Onward(orders[i], orders'[i]);
      } else {
        UntradedOrder(markets, orders, trades, i);
      }
    }
  }

  /** Trades and journal keep their meaning while orders move along without a fill. */
  lemma LifecycleKeepsHistory(markets: Markets, t: Tables, t': Tables)
    requires TradesFit(t.orders, t.trades) && TradesValid(markets, t.orders, t.trades) && Reconciled(markets, t)
    requires t' == t.(accounts := t'.accounts, holds := t'.holds, orders := t'.orders) && NothingFilled(t.orders, t'.orders)
    ensures TradesFit(t'.orders, t'.trades) && TradesValid(markets, t'.orders, t'.trades) && Reconciled(markets, t')
  {
    hide TradesFit, Onward;
    NothingFilledKeepsTrades(markets, t.orders, t'.orders, t.trades);
    forall k ensures TradeFlow(markets, t'.orders, t.trades, k) == TradeFlow(markets, t.orders, t.trades, k) {
      TradeFlowStable(markets, markets, t.orders, t'.orders, t.trades, k);
    }
  }

  /** Moving orders along without a fill keeps the tables valid as long as the holds follow. */
  lemma LifecycleKeepsTables(markets: Markets, t: Tables, t': Tables)
    requires TablesValid(markets, t)
    requires t' == t.(accounts := t'.accounts, holds := t'.holds, orders := t'.orders)
    requires Money(t'.accounts, t'.holds, t'.journal)
    requires OrdersValid(markets, t'.holds, t'.orders) && NothingFilled(t.orders, t'.orders)
    ensures TablesValid(markets, t')
  {
    hide Money, OrdersValid, TradesFit, TradesValid, Reconciled, NothingFilled;
    LifecycleKeepsHistory(markets, t, t');
  }

  lemma OrdersStay(orders: seq<OrderRow>)
    ensures SameOrders(orders, orders)
  {
  }

  /** Changing fees or status of a market leaves the tables valid. */
  lemma TermsKeepTables(markets: Markets, markets': Markets, t: Tables)
    requires TablesValid(markets, t) && SameTerms(markets, markets')
    ensures TablesValid(markets', t)
  {
    hide Money, TradesFit, RowValid;
    OrdersStay(t.orders);
    TradesStay(markets, markets', t.orders, t.orders, t.trades);
    forall k ensures TradeFlow(markets', t.orders, t.trades, k) == TradeFlow(markets, t.orders, t.trades, k) {
      TradeFlowStable(markets, markets', t.orders, t.orders, t.trades, k);
    }
    forall i: OrderId | i < |t.orders| ensures OrderValid(markets', t.holds, t.orders, i) {
      assert OrderValid(markets, t.holds, t.orders, i);
    }
  }

  /** Placing an order succeeds exactly when what it reserves is available, and then that much, and
      nothing else, moves from available to locked. */
  lemma PlaceKeepsTables(markets: Markets, t: Tables, row: OrderRow)
    requires TablesValid(markets, t) && row.market in markets
    requires row.price > 0.0 && row.quantity > 0.0 && row.filled == 0.0 && row.remaining == row.quantity
    requires row.status == Open && row.rejectReason.None?
    ensures var m := markets[row.market];
            var k, amount, created := LockKey(m, row), ReserveOf(row, row.quantity), CreateAndLock(t, m, row);
            && (created.Ok? <==> At(t.accounts, k).available >= amount)
            && (created.Ok? ==>
                  && TablesValid(markets, created.value)
                  && created.value.orders == t.orders + [row]
                  && At(created.value.accounts, k) == Account(At(t.accounts, k).available - amount, At(t.accounts, k).locked + amount)
                  && forall x | x != k :: At(created.value.accounts, x) == At(t.accounts, x))
  {
    hide TradesFit, TradesValid, Reconciled, ActiveSum, Conserved, NoOverdraft;
    var m, id := markets[row.market], |t.orders|;
    var k, amount, created := LockKey(m, row), ReserveOf(row, row.quantity), CreateAndLock(t, m, row);
    ReserveSplits(row, row.quantity, 0.0);
    assert id !in t.holds;
    if created.Ok? {
      var t' := created.value;
      LockKeeps(t.accounts, t.holds, k, id, amount);
      PlacedOrdersValid(markets, t.holds, t.orders, row);
      assert Money(t'.accounts, t'.holds, t'.journal) by { hide HoldsMatch; }
      LifecycleKeepsTables(markets, t, t') by { hide OrdersValid, Money, TablesValid; }
    }
  }

  lemma PlacedOrdersValid(markets: Markets, holds: Holds, orders: seq<OrderRow>, row: OrderRow)
    requires OrdersValid(markets, holds, orders) && row.market in markets
    requires RowValid(row) && row.status == Open
    ensures OrdersValid(markets, holds[|orders| := Hold(LockKey(markets[row.market], row), ReserveOf(row, row.remaining), Active)],
                        orders + [row])
  {
    var holds' := holds[|orders| := Hold(LockKey(markets[row.market], row), ReserveOf(row, row.remaining), Active)];
    forall i: OrderId | i < |orders + [row]| ensures OrderValid(markets, holds', orders + [row], i) {
      assert i < |orders| ==> OrderValid(markets, holds, orders, i);
    }
  }

  /** Cancelling a live order gives back all it still holds, and nothing else moves. */
  lemma CancelKeepsTables(markets: Markets, t: Tables, id: OrderId)
    requires TablesValid(markets, t) && id < |t.orders| && Live(t.orders[id])
    ensures t.orders[id].market in markets
    ensures ReleaseHold(t.accounts, t.holds, id).Ok?
    ensures var r, released := t.orders[id], ReleaseHold(t.accounts, t.holds, id).value;
            var k, amount := LockKey(markets[r.market], r), ReserveOf(r, r.remaining);
            && TablesValid(markets, t.(accounts := released.0, holds := released.1, orders := t.orders[id := r.(status := Cancelled)]))
            && At(released.0, k) == Account(At(t.accounts, k).available + amount, At(t.accounts, k).locked - amount)
            && forall x | x != k :: At(released.0, x) == At(t.accounts, x)
  {
    hide TradesFit, TradesValid, Reconciled, ActiveSum, Conserved, NoOverdraft, ReserveOf, SameOrder;
    assert OrderValid(markets, t.holds, t.orders, id);
    ReleaseKeeps(t.accounts, t.holds, id);
    var r, released := t.orders[id], ReleaseHold(t.accounts, t.holds, id).value;
    var t' := t.(accounts := released.0, holds := released.1, orders := t.orders[id := r.(status := Cancelled)]);
    ClosedOrdersValid(markets, t.holds, t.orders, id, r.(status := Cancelled), t.holds[id].(status := Released));
    assert Money(t'.accounts, t'.holds, t'.journal) by { hide HoldsMatch; }
    LifecycleKeepsTables(markets, t, t') by { hide OrdersValid, Money, TablesValid; }
  }

  lemma ClosedOrdersValid(markets: Markets, holds: Holds, orders: seq<OrderRow>, id: OrderId, row: OrderRow, h: Hold)
    requires OrdersValid(markets, holds, orders) && id < |orders|
    requires row.market in markets && RowValid(row) && HoldFits(markets[row.market], h, row)
    requires SameOrder(orders[id], row) && row.filled == orders[id].filled
    ensures OrdersValid(markets, holds[id := h], orders[id := row])
    ensures NothingFilled(orders, orders[id := row])
  {
    var holds', orders' := holds[id := h], orders[id := row];
    forall i: OrderId | i < |orders'| ensures OrderValid(markets, holds', orders', i) {
      assert OrderValid(markets, holds, orders, i);
    }
  }

  /** Closing the remainder of a submission gives back all the order still holds. */
  lemma CloseRemainderKeepsTables(markets: Markets, t: Tables, id: OrderId, result: SubmitResult)
    requires TablesValid(markets, t) && id < |t.orders| && Live(t.orders[id])
    requires result.remaining == t.orders[id].remaining
    ensures t.orders[id].market in markets
    ensures var t', r := CloseRemainder(t, id, result), t.orders[id];
            var k, amount := LockKey(markets[r.market], r), ReserveOf(r, r.remaining);
            && TablesValid(markets, t')
            && At(t'.accounts, k) == Account(At(t.accounts, k).available + amount, At(t.accounts, k).locked - amount)
            && forall x | x != k :: At(t'.accounts, x) == At(t.accounts, x)
  {
    hide TradesFit, TradesValid, Reconciled, ActiveSum, Conserved, NoOverdraft, ReserveOf;
    assert OrderValid(markets, t.holds, t.orders, id);
    var r, h := t.orders[id], t.holds[id];
    ReserveSplits(r, r.remaining, 0.0);
    ReduceKeeps(t.accounts, t.holds, id, h.amount);
    var t' := CloseRemainder(t, id, result);
    ClosedOrdersValid(markets, t.holds, t.orders, id, t'.orders[id], Hold(h.account, 0.0, Consumed));
    assert Money(t'.accounts, t'.holds, t'.journal) by { hide HoldsMatch; }
    LifecycleKeepsTables(markets, t, t') by { hide OrdersValid, Money, TablesValid; }
  }

  // ---------------------------------------------------------------------------
  // Transfers
  // ---------------------------------------------------------------------------

  /** The payer of a transfer can pay; a system account always can. */
  predicate CanPay(accounts: Accounts, from: AccountKey, amount: real) {
    amount > 0.0 && (from.owner.User? ==> At(accounts, from).available >= amount)
  }

  lemma TransferNets(from: AccountKey, to: AccountKey, amount: real)
    requires from != to && from.asset == to.asset
    ensures var entries := TransferEntries(from, to, amount);
            && (forall k :: EntriesNet(entries, k) == Transfer(from, to, amount, k))
            && PerAsset(entries)
            && Total(entries, Debit) == Total(entries, Credit)
            && (AllPositive(entries) <==> amount > 0.0)
            && |entries| == 2
  {
    var d, c := Entry(from, Debit, amount), Entry(to, Credit, amount);
    NetsOne(d);
    NetsOne(c);
    NetsTwo(d, c);
    assert d in [d, c];
  }

  lemma TransferApplies(accounts: Accounts, from: AccountKey, to: AccountKey, amount: real)
    requires from in accounts && to in accounts && from != to
    ensures ApplyAll(accounts, TransferEntries(from, to, amount)).Ok? <==>
              (from.owner.User? ==> At(accounts, from).available >= amount)
  {
    var d, c := Entry(from, Debit, amount), Entry(to, Credit, amount);
    assert [d, c][1..] == [c] && [c][1..] == [];
    var first := ApplyEntry(accounts, d);
    if first.Ok? {
      assert ApplyAll(first.value, [c]).Ok? <==> ApplyEntry(first.value, c).Ok?;
    }
  }

  /** A transfer goes through exactly when the payer can pay, and then moves exactly the amount. */
  lemma TransferKeepsMoney(t: Tables, kind: Kind, from: AccountKey, to: AccountKey, amount: real)
    requires Money(t.accounts, t.holds, t.journal) && from != to && from.asset == to.asset
    ensures var posted := PostTransfer(t, kind, from, to, amount);
            && (posted.Ok? <==> CanPay(t.accounts, from, amount))
            && (posted.Ok? ==>
                  && Money(posted.value.accounts, t.holds, posted.value.journal)
                  && forall k :: At(posted.value.accounts, k) ==
                       Account(At(t.accounts, k).available + Transfer(from, to, amount, k), At(t.accounts, k).locked))
  {
    hide Money, TransferEntries, EntriesNet, Transfer, PerAsset;
    var entries, posted := TransferEntries(from, to, amount), PostTransfer(t, kind, from, to, amount);
    TouchKeepsMoney(t.accounts, t.holds, t.journal, from);
    TouchKeepsMoney(Touch(t.accounts, from), t.holds, t.journal, to);
    var touched := Touch(Touch(t.accounts, from), to);
    assert SameAt(t.accounts, touched);
    TransferNets(from, to, amount);
    TransferApplies(touched, from, to, amount);
    if posted.Ok? {
      PostKeepsMoney(touched, t.holds, t.journal, kind, entries);
      ApplyAllEffect(touched, entries);
    }
  }

  lemma TransferKeepsJournal(t: Tables, kind: Kind, from: AccountKey, to: AccountKey, amount: real, k: AccountKey, other: Kind)
    requires PostTransfer(t, kind, from, to, amount).Ok? && from != to && from.asset == to.asset
    ensures KindNet(PostTransfer(t, kind, from, to, amount).value.journal, other, k) ==
            KindNet(t.journal, other, k) + if other == kind then Transfer(from, to, amount, k) else 0.0
  {
    hide KindNet, Transfer, EntriesNet;
    KindNetSnoc(t.journal, LedgerTx(kind, TransferEntries(from, to, amount)));
    TransferNets(from, to, amount);
  }

  /** The money invariant holds, and the journal says what the business tables say. */
  ghost predicate Booked(markets: Markets, t: Tables) {
    Money(t.accounts, t.holds, t.journal) && Reconciled(markets, t)
  }

  /** Nothing but accounts, journal, deposits and withdrawals has changed. */
  ghost predicate OnlyFunds(t: Tables, t': Tables) {
    t' == t.(accounts := t'.accounts, journal := t'.journal, deposits := t'.deposits, withdrawals := t'.withdrawals)
  }

  lemma ValidIsBooked(markets: Markets, t: Tables)
    requires TablesValid(markets, t)
    ensures Booked(markets, t)
  {
  }

  lemma BookedTables(markets: Markets, t: Tables, t': Tables)
    requires TablesValid(markets, t) && Booked(markets, t') && OnlyFunds(t, t')
    ensures TablesValid(markets, t')
  {
    hide Money, OrdersValid, TradesFit, TradesValid, Reconciled;
  }

  /** What a transfer leaves to be reconciled with the business tables. */
  lemma TransferKeepsTables(markets: Markets, t: Tables, t': Tables, kind: Kind, from: AccountKey, to: AccountKey, amount: real)
    requires Booked(markets, t) && from != to && from.asset == to.asset
    requires PostTransfer(t, kind, from, to, amount).Ok?
    requires var p := PostTransfer(t, kind, from, to, amount).value;
             t' == t.(accounts := p.accounts, journal := p.journal, deposits := t'.deposits, withdrawals := t'.withdrawals)
    requires kind == Grant || kind == Adjustment || kind == DepositIn || kind == WithdrawalOut
    requires WellShaped(LedgerTx(kind, TransferEntries(from, to, amount)))
    requires forall k :: DepositFlow(t'.deposits, k) ==
                         DepositFlow(t.deposits, k) + if kind == DepositIn then Transfer(from, to, amount, k) else 0.0
    requires forall k :: WithdrawalFlow(t'.withdrawals, k) ==
                         WithdrawalFlow(t.withdrawals, k) + if kind == WithdrawalOut then Transfer(from, to, amount, k) else 0.0
    ensures Booked(markets, t') && OnlyFunds(t, t')
  {
    hide Money, KindNet, TradeFlow, DepositFlow, WithdrawalFlow, Transfer, WellShaped, TransferEntries, PerAsset, ApplyAll;
    assert Balanced(TransferEntries(from, to, amount)) by { TransferNets(from, to, amount); }
    hide Balanced;
    TransferKeepsMoney(t, kind, from, to, amount);
    forall k, other ensures KindNet(t'.journal, other, k) ==
                            KindNet(t.journal, other, k) + if other == kind then Transfer(from, to, amount, k) else 0.0
    {
      TransferKeepsJournal(t, kind, from, to, amount, k, other);
    }
  }

  /** Granting credits the user out of TEST_LIQUIDITY. */
  lemma GrantKeepsTables(markets: Markets, t: Tables, userId: UserId, asset: AssetId, amount: real)
    requires Booked(markets, t)
    ensures var posted := PostTransfer(t, Grant, SystemKey(TestLiquidity, asset), UserKey(userId, asset), amount);
            posted.Ok? ==> Booked(markets, posted.value) && OnlyFunds(t, posted.value)
  {
    hide Booked;
    var from, to := SystemKey(TestLiquidity, asset), UserKey(userId, asset);
    var posted := PostTransfer(t, Grant, from, to, amount);
    if posted.Ok? {
      TransferKeepsTables(markets, t, posted.value, Grant, from, to, amount);
    }
  }

  /** Adjustments move between the user and ADMIN_ADJUSTMENT, whichever pays. */
  lemma AdjustKeepsTables(markets: Markets, t: Tables, from: AccountKey, to: AccountKey, amount: real)
    requires Booked(markets, t) && from.asset == to.asset
    requires (from.owner.User? && to.owner == System(AdminAdjustment)) || (from.owner == System(AdminAdjustment) && to.owner.User?)
    ensures var posted := PostTransfer(t, Adjustment, from, to, amount);
            posted.Ok? ==> Booked(markets, posted.value) && OnlyFunds(t, posted.value)
  {
    hide Booked;
    var posted := PostTransfer(t, Adjustment, from, to, amount);
    if posted.Ok? {
      TransferKeepsTables(markets, t, posted.value, Adjustment, from, to, amount);
    }
  }

  lemma {:induction false} ConfirmingCounts(deposits: seq<Deposit>, id: nat, k: AccountKey)
    requires id < |deposits| && deposits[id].status == Pending
    ensures var d := deposits[id];
            DepositFlow(deposits[id := d.(status := Confirmed)], k) ==
            DepositFlow(deposits, k) + Transfer(SystemKey(TestLiquidity, d.asset), UserKey(d.userId, d.asset), d.amount, k)
  {
    var n, deposits' := |deposits| - 1, deposits[id := deposits[id].(status := Confirmed)];
    if id == n {
      assert deposits'[..n] == deposits[..n];
    } else {
      assert deposits'[..n] == deposits[..n][id := deposits[id].(status := Confirmed)];
      ConfirmingCounts(deposits[..n], id, k);
    }
  }

  /** Confirming credits a pending deposit, once; a second confirmation changes nothing. */
  lemma ConfirmKeepsTables(markets: Markets, t: Tables, id: nat)
    requires Booked(markets, t) && Confirm(t, id).Ok?
    ensures id < |t.deposits|
    ensures var t' := Confirm(t, id).value;
            && Booked(markets, t') && OnlyFunds(t, t')
            && t'.deposits == t.deposits[id := t.deposits[id].(status := Confirmed)]
            && Confirm(t', id) == Ok(t')
            && (t.deposits[id].status == Confirmed ==> t' == t)
  {
    hide Booked;
    var d, t' := t.deposits[id], Confirm(t, id).value;
    if d.status == Pending {
      var from, to := SystemKey(TestLiquidity, d.asset), UserKey(d.userId, d.asset);
      forall k ensures DepositFlow(t'.deposits, k) == DepositFlow(t.deposits, k) + Transfer(from, to, d.amount, k) {
        ConfirmingCounts(t.deposits, id, k);
      }
      hide DepositFlow, WithdrawalFlow, Transfer;
      TransferKeepsTables(markets, t, t', DepositIn, from, to, d.amount);
    } else {
      assert t.deposits[id := d] == t.deposits;
    }
  }

  lemma WithdrawalsSnoc(withdrawals: seq<Withdrawal>, w: Withdrawal)
    ensures forall k :: WithdrawalFlow(withdrawals + [w], k) ==
                        WithdrawalFlow(withdrawals, k)
                        + Transfer(UserKey(w.userId, w.asset), SystemKey(WithdrawalSuspense, w.asset), w.amount, k)
  {
    assert (withdrawals + [w])[..|withdrawals|] == withdrawals;
  }

  /** A withdrawal is recorded exactly when it is debited. */
  lemma WithdrawKeepsTables(markets: Markets, t: Tables, userId: UserId, asset: AssetId, amount: real)
    requires Booked(markets, t) && Debited(t, userId, asset, amount).Ok?
    ensures var t' := Debited(t, userId, asset, amount).value; Booked(markets, t') && OnlyFunds(t, t')
  {
    hide Booked;
    WithdrawalsSnoc(t.withdrawals, Withdrawal(userId, asset, amount));
    hide WithdrawalFlow, DepositFlow, Transfer;
    TransferKeepsTables(markets, t, Debited(t, userId, asset, amount).value, WithdrawalOut,
                        UserKey(userId, asset), SystemKey(WithdrawalSuspense, asset), amount);
  }

  /** A deposit counts only once it is confirmed. */
  lemma CreateDepositKeepsTables(markets: Markets, t: Tables, d: Deposit)
    requires Booked(markets, t) && d.status == Pending
    ensures var t' := t.(deposits := t.deposits + [d]); Booked(markets, t') && OnlyFunds(t, t')
  {
    hide Money, TradeFlow, KindNet;
    assert (t.deposits + [d])[..|t.deposits|] == t.deposits;
  }

  /** Money coming in and going out keeps the books, and changes nothing else. */
  lemma FundsKeepBooked(s: State, op: Op)
    requires Booked(s.markets, s.tables)
    requires op.GrantFunds? || op.CreateDeposit? || op.ConfirmDeposit? || op.Withdraw? || op.Adjust?
    ensures var s' := Exec(s, op).state;
            s' == s.(tables := s'.tables) && Booked(s.markets, s'.tables) && OnlyFunds(s.tables, s'.tables)
  {
    hide Booked, PostEntries, TransferEntries;
    match op
    case GrantFunds(userId, asset, amount) =>
      GrantKeepsTables(s.markets, s.tables, userId, asset, amount);
    case CreateDeposit(userId, asset, amount) =>
      CreateDepositKeepsTables(s.markets, s.tables, Deposit(userId, asset, amount, Pending));
    case ConfirmDeposit(id) =>
      if Confirm(s.tables, id).Ok? {
        ConfirmKeepsTables(s.markets, s.tables, id);
      }
    case Withdraw(userId, asset, amount) =>
      if Debited(s.tables, userId, asset, amount).Ok? {
        WithdrawKeepsTables(s.markets, s.tables, userId, asset, amount);
      }
    case Adjust(userId, asset, amount) =>
      AdjustKeepsTables(s.markets, s.tables, SystemKey(AdminAdjustment, asset), UserKey(userId, asset), amount);
      AdjustKeepsTables(s.markets, s.tables, UserKey(userId, asset), SystemKey(AdminAdjustment, asset), -amount);
  }
}
