/** A user's account, order by order: what the user's own orders, deposits, withdrawals, grants and
    adjustments moved, and what the user's own live orders reserve, is all there is. */
module OwnerAccounts {
  import opened Types
  import opened Sums
  import opened Ledger
  import opened Holds
  import opened Settlement
  import opened FillProofs
  import opened Books
  import opened Exchange
  import opened Transfers
  import opened Backing
  import opened Interleaving
  import opened OrderHistory
  import opened Reconciliation

  /** What the trades of the user's own orders, among the first `n`, have added to account `k`. */
  ghost function OwnFlow(markets: Markets, orders: seq<OrderRow>, trades: seq<Trade>, userId: UserId, k: AccountKey, n: nat): real
    requires n <= |orders|
  {
    if n == 0 then 0.0 else
      OwnFlow(markets, orders, trades, userId, k, n - 1)
      + if orders[n - 1].userId == userId then OrderFlow(markets, orders, trades, n - 1, k) else 0.0
  }

  /** What the user's own orders, among the first `n`, hold on account `k`. */
  ghost function OwnReserve(holds: Holds, orders: seq<OrderRow>, userId: UserId, k: AccountKey, n: nat): real
    requires n <= |orders|
  {
    if n == 0 then 0.0 else
      OwnReserve(holds, orders, userId, k, n - 1)
      + if orders[n - 1].userId == userId && n - 1 in holds then Weight(holds[n - 1], k) else 0.0
  }

  // ---------------------------------------------------------------------------
  // Trades partition by order
  // ---------------------------------------------------------------------------

  /** Whether the trade involves an order of the user among the first `n`. */
  ghost predicate OwnTrade(orders: seq<OrderRow>, tr: Trade, userId: UserId, n: nat)
    requires tr.makerOrderId < |orders| && tr.takerOrderId < |orders|
  {
    || (tr.makerOrderId < n && orders[tr.makerOrderId].userId == userId)
    || (tr.takerOrderId < n && orders[tr.takerOrderId].userId == userId)
  }

  lemma {:induction false} OwnFlowNone(markets: Markets, orders: seq<OrderRow>, userId: UserId, k: AccountKey, n: nat)
    requires n <= |orders|
    ensures OwnFlow(markets, orders, [], userId, k, n) == 0.0
  {
    if n > 0 {
      OwnFlowNone(markets, orders, userId, k, n - 1);
    }
  }

  /** One more trade counts once, on the one order of the user it involves. */
  lemma {:induction false} OwnFlowSnoc(
    markets: Markets, orders: seq<OrderRow>, older: seq<Trade>, tr: Trade, userId: UserId, k: AccountKey, n: nat)
    requires TradeRecorded(markets, orders, tr) && n <= |orders|
    ensures OwnFlow(markets, orders, older + [tr], userId, k, n) ==
            OwnFlow(markets, orders, older, userId, k, n)
            + if OwnTrade(orders, tr, userId, n) then Flow(markets[tr.market], RecordedDeal(orders, tr), k) else 0.0
  {
    hide Flow, RecordedDeal, TradeRecorded, OrderFlow;
    RecordedOrders(markets, orders, tr);
    if n > 0 {
      OwnFlowSnoc(markets, orders, older, tr, userId, k, n - 1);
      OrderFlowSnoc(markets, orders, older, tr, n - 1, k);
    }
  }

  lemma OrderFlowSnoc(markets: Markets, orders: seq<OrderRow>, older: seq<Trade>, tr: Trade, i: OrderId, k: AccountKey)
    requires tr.market in markets
    ensures OrderFlow(markets, orders, older + [tr], i, k) ==
            OrderFlow(markets, orders, older, i, k)
            + if Involves(tr, i) then Flow(markets[tr.market], RecordedDeal(orders, tr), k) else 0.0
  {
    assert (older + [tr])[..|older|] == older;
  }

  /** A trade moves nothing for a user who has neither order. */
  lemma TradeSparesOthers(markets: Markets, orders: seq<OrderRow>, tr: Trade, userId: UserId, asset: AssetId)
    requires TradeRecorded(markets, orders, tr) && !OwnTrade(orders, tr, userId, |orders|)
    ensures Flow(markets[tr.market], RecordedDeal(orders, tr), UserKey(userId, asset)) == 0.0
  {
  }

  /** What all trades moved on a user's account is what the user's own orders moved. */
  lemma {:induction false} TradesPartition(markets: Markets, orders: seq<OrderRow>, trades: seq<Trade>, userId: UserId, asset: AssetId)
    requires TradesValid(markets, orders, trades)
    ensures TradeFlow(markets, orders, trades, UserKey(userId, asset)) ==
            OwnFlow(markets, orders, trades, userId, UserKey(userId, asset), |orders|)
  {
    hide Flow, RecordedDeal, TradeRecorded;
    var k := UserKey(userId, asset);
    if trades == [] {
      OwnFlowNone(markets, orders, userId, k, |orders|);
    } else {
      var older, tr := trades[..|trades| - 1], trades[|trades| - 1];
      assert trades == older + [tr] && tr in trades && TradeRecorded(markets, orders, tr);
      RecordedOrders(markets, orders, tr);
      TradesPartition(markets, orders, older, userId, asset);
      OwnFlowSnoc(markets, orders, older, tr, userId, k, |orders|);
      if !OwnTrade(orders, tr, userId, |orders|) {
        TradeSparesOthers(markets, orders, tr, userId, asset);
      }
    }
  }

  lemma RecordedOrders(markets: Markets, orders: seq<OrderRow>, tr: Trade)
    requires TradeRecorded(markets, orders, tr)
    ensures tr.market in markets && tr.makerOrderId < |orders| && tr.takerOrderId < |orders|
    ensures orders[tr.makerOrderId].userId != orders[tr.takerOrderId].userId
  {
  }

  // ---------------------------------------------------------------------------
  // Reserves partition by order
  // ---------------------------------------------------------------------------

  ghost function HoldsBelow(holds: Holds, n: nat): Holds {
    map id | id in holds && id < n :: holds[id]
  }

  lemma {:induction false} ReservesPartition(
    markets: Markets, holds: Holds, orders: seq<OrderRow>, userId: UserId, asset: AssetId, n: nat)
    requires RowsBacked(markets, holds, orders) && n <= |orders|
    ensures ActiveSum(HoldsBelow(holds, n), UserKey(userId, asset)) == OwnReserve(holds, orders, userId, UserKey(userId, asset), n)
  {
    hide RowValid, ReserveOf;
    var k := UserKey(userId, asset);
    if n == 0 {
      assert Weights(HoldsBelow(holds, 0), k) == map[];
    } else {
      var id: OrderId := n - 1;
      assert RowBacked(markets, holds, orders, id);
      ReservesPartition(markets, holds, orders, userId, asset, n - 1);
      ActiveSumUpdate(HoldsBelow(holds, n - 1), id, holds[id], k);
      assert HoldsBelow(holds, n) == HoldsBelow(holds, n - 1)[id := holds[id]];
    }
  }

  lemma AllHoldsBelow(markets: Markets, holds: Holds, orders: seq<OrderRow>)
    requires RowsBacked(markets, holds, orders)
    ensures HoldsBelow(holds, |orders|) == holds
  {
  }

  // ---------------------------------------------------------------------------
  // Every run
  // ---------------------------------------------------------------------------

  /** What came into and went out of account `k` other than by trading. */
  ghost function OutsideFlow(t: Tables, k: AccountKey): real {
    DepositFlow(t.deposits, k) + WithdrawalFlow(t.withdrawals, k) + KindNet(t.journal, Grant, k) + KindNet(t.journal, Adjustment, k)
  }

  lemma AccountsForOwner(s: State, userId: UserId, asset: AssetId)
    requires Backed(s.markets, s.tables)
    ensures var t, k := s.tables, UserKey(userId, asset);
            && Balance(t.accounts, k) == OwnFlow(s.markets, t.orders, t.trades, userId, k, |t.orders|) + OutsideFlow(t, k)
            && At(t.accounts, k).locked == OwnReserve(t.holds, t.orders, userId, k, |t.orders|)
  {
    hide TradeFlow, DepositFlow, WithdrawalFlow, KindNet, Net, TradesFit, WellShaped, Balanced, Balance, Conserved,
      NoOverdraft, RowBacked, TradeRecorded;
    var t, k := s.tables, UserKey(userId, asset);
    NetByKind(t.journal, k);
    TradesPartition(s.markets, t.orders, t.trades, userId, asset);
    ReservesPartition(s.markets, t.holds, t.orders, userId, asset, |t.orders|);
    AllHoldsBelow(s.markets, t.holds, t.orders);
  }

  /** In every reachable state a user's account holds exactly what the user's own orders traded and what
      came in and went out besides; what is locked is the reserves of the user's own orders; and all the
      rest is available. With the cost of each order known, every price improvement is there. */
  lemma EveryRunAccountsForOwners(markets: Markets, ops: seq<Op>, userId: UserId, asset: AssetId)
    ensures var s := Run(Init(markets), ops);
            var t, k := s.tables, UserKey(userId, asset);
            var traded := OwnFlow(s.markets, t.orders, t.trades, userId, k, |t.orders|);
            var reserved := OwnReserve(t.holds, t.orders, userId, k, |t.orders|);
            && Balance(t.accounts, k) == traded + OutsideFlow(t, k)
            && At(t.accounts, k) == Account(traded + OutsideFlow(t, k) - reserved, reserved)
  {
    hide Backed, Booked, OwnFlow, OwnReserve, OutsideFlow, Run, Init;
    EveryRunIsBooked(markets, ops);
    AccountsForOwner(Run(Init(markets), ops), userId, asset);
  }
}
