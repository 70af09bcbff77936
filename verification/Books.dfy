/** The invariant of the database tables: orders, holds, trades and business tables against the money. */
module Books {
  import opened Types
  import opened Matching
  import opened Ledger
  import opened Holds
  import opened Settlement
  import opened FillProofs

  type Markets = map<MarketId, Market>

  // ---------------------------------------------------------------------------
  // Orders and their holds
  // ---------------------------------------------------------------------------

  ghost predicate OrderValid(markets: Markets, holds: Holds, orders: seq<OrderRow>, i: OrderId)
    requires i < |orders|
  {
    && orders[i].market in markets
    && i in holds
    && RowValid(orders[i])
    && HoldFits(markets[orders[i].market], holds[i], orders[i])
  }

  ghost predicate OrdersValid(markets: Markets, holds: Holds, orders: seq<OrderRow>) {
    && (forall i: OrderId | i < |orders| :: OrderValid(markets, holds, orders, i))
    && (forall i | i in holds :: i < |orders|)
  }

  /** The terms of `r` stand, and no fill was taken back. */
  ghost predicate Onward(r: OrderRow, r': OrderRow) {
    && r' == r.(filled := r'.filled, remaining := r'.remaining, status := r'.status, rejectReason := r'.rejectReason)
    && r.filled <= r'.filled
  }

  ghost predicate AllOnward(orders: seq<OrderRow>, orders': seq<OrderRow>) {
    && |orders| <= |orders'|
    && forall i | 0 <= i < |orders| :: Onward(orders[i], orders'[i])
  }

  /** `r'` is `r`, perhaps further along, and a finished order does not change at all. */
  ghost predicate SameOrder(r: OrderRow, r': OrderRow) {
    && Onward(r, r')
    && (Live(r) || r' == r)
  }

  /** `orders'` are the orders of `orders`, perhaps further along, perhaps with new ones after them. */
  ghost predicate SameOrders(orders: seq<OrderRow>, orders': seq<OrderRow>) {
    && |orders| <= |orders'|
    && forall i | 0 <= i < |orders| :: SameOrder(orders[i], orders'[i])
  }

  lemma SameIsOnward(orders: seq<OrderRow>, orders': seq<OrderRow>)
    requires SameOrders(orders, orders')
    ensures AllOnward(orders, orders')
  {
    hide Onward;
    forall i | 0 <= i < |orders| ensures Onward(orders[i], orders'[i]) {
      assert SameOrder(orders[i], orders'[i]);
    }
  }

  // ---------------------------------------------------------------------------
  // Orders and their trades
  // ---------------------------------------------------------------------------

  ghost predicate Involves(tr: Trade, i: OrderId) {
    tr.makerOrderId == i || tr.takerOrderId == i
  }

  /** How much of order `i` has traded, as maker or taker. */
  ghost function TradedQuantity(trades: seq<Trade>, i: OrderId): real {
    if trades == [] then 0.0 else
    var last := trades[|trades| - 1];
    TradedQuantity(trades[..|trades| - 1], i) + if Involves(last, i) then last.quantity else 0.0
  }

  /** The quote that changed hands for order `i`. */
  ghost function TradedQuote(trades: seq<Trade>, i: OrderId): real {
    if trades == [] then 0.0 else
    var last := trades[|trades| - 1];
    TradedQuote(trades[..|trades| - 1], i) + if Involves(last, i) then last.quoteAmount else 0.0
  }

  /** A limit buy never paid more than its limit, a limit sell never got less. */
  ghost predicate Protected(r: OrderRow, quote: real) {
    r.orderType == Limit ==> if r.side == Buy then quote <= r.price * r.filled else quote >= r.price * r.filled
  }

  ghost predicate TradesFit(orders: seq<OrderRow>, trades: seq<Trade>) {
    forall i: OrderId | i < |orders| ::
      orders[i].filled == TradedQuantity(trades, i) && Protected(orders[i], TradedQuote(trades, i))
  }

  /** A trade between a buy and a sell order of one market and of different users, at the maker's price. */
  ghost predicate TradeRecorded(markets: Markets, orders: seq<OrderRow>, tr: Trade) {
    && tr.market in markets && tr.makerOrderId < |orders| && tr.takerOrderId < |orders|
    && var maker, taker := orders[tr.makerOrderId], orders[tr.takerOrderId];
    && maker.market == tr.market && taker.market == tr.market
    && maker.side == Opposite(taker.side)
    && tr.buyerId == (if maker.side == Buy then maker.userId else taker.userId)
    && tr.sellerId == (if maker.side == Buy then taker.userId else maker.userId)
    && tr.buyerId != tr.sellerId
    && tr.quantity > 0.0 && tr.price == maker.price && tr.quoteAmount == Notional(tr.price, tr.quantity)
  }

  ghost predicate TradesValid(markets: Markets, orders: seq<OrderRow>, trades: seq<Trade>) {
    forall tr | tr in trades :: TradeRecorded(markets, orders, tr)
  }

  /** Recorded trades stay recorded while their orders move on. */
  lemma TradesStay(markets: Markets, markets': Markets, orders: seq<OrderRow>, orders': seq<OrderRow>, trades: seq<Trade>)
    requires TradesValid(markets, orders, trades) && markets'.Keys == markets.Keys && AllOnward(orders, orders')
    ensures TradesValid(markets', orders', trades)
  {
    hide Notional;
    forall tr | tr in trades ensures TradeRecorded(markets', orders', tr) {
      assert TradeRecorded(markets, orders, tr);
      assert Onward(orders[tr.makerOrderId], orders'[tr.makerOrderId]);
      assert Onward(orders[tr.takerOrderId], orders'[tr.takerOrderId]);
    }
  }

  // ---------------------------------------------------------------------------
  // The journal and the business tables
  // ---------------------------------------------------------------------------

  /** Credits minus debits of an account in the transactions of one kind. */
  ghost function KindNet(journal: seq<LedgerTx>, kind: Kind, k: AccountKey): real {
    if journal == [] then 0.0 else
    var last := journal[|journal| - 1];
    KindNet(journal[..|journal| - 1], kind, k) + if last.kind == kind then EntriesNet(last.entries, k) else 0.0
  }

  /** The deal a trade row records; which of its two fees is the buyer's depends on the maker's side. */
  ghost function RecordedDeal(orders: seq<OrderRow>, tr: Trade): Deal {
    var makerIsBuyer := tr.makerOrderId < |orders| && orders[tr.makerOrderId].side == Buy;
    Deal(tr.buyerId, tr.sellerId, tr.quantity, tr.quoteAmount,
         if makerIsBuyer then tr.makerFee else tr.takerFee,
         if makerIsBuyer then tr.takerFee else tr.makerFee)
  }

  /** What the recorded trades say account `k` has gained. */
  ghost function TradeFlow(markets: Markets, orders: seq<OrderRow>, trades: seq<Trade>, k: AccountKey): real {
    if trades == [] then 0.0 else
    var last := trades[|trades| - 1];
    TradeFlow(markets, orders, trades[..|trades| - 1], k)
    + if last.market in markets then Flow(markets[last.market], RecordedDeal(orders, last), k) else 0.0
  }

  /** What a transfer of `amount` from one account to another adds to account `k`. */
  ghost function Transfer(from: AccountKey, to: AccountKey, amount: real, k: AccountKey): real {
    On(k, from, -amount) + On(k, to, amount)
  }

  ghost function DepositFlow(deposits: seq<Deposit>, k: AccountKey): real {
    if deposits == [] then 0.0 else
    var last := deposits[|deposits| - 1];
    DepositFlow(deposits[..|deposits| - 1], k)
    + if last.status == Confirmed
      then Transfer(SystemKey(TestLiquidity, last.asset), UserKey(last.userId, last.asset), last.amount, k) else 0.0
  }

  ghost function WithdrawalFlow(withdrawals: seq<Withdrawal>, k: AccountKey): real {
    if withdrawals == [] then 0.0 else
    var last := withdrawals[|withdrawals| - 1];
    WithdrawalFlow(withdrawals[..|withdrawals| - 1], k)
    + Transfer(UserKey(last.userId, last.asset), SystemKey(WithdrawalSuspense, last.asset), last.amount, k)
  }

  /** The two legs of a transfer. */
  function TransferEntries(from: AccountKey, to: AccountKey, amount: real): seq<Entry> {
    [Entry(from, Debit, amount), Entry(to, Credit, amount)]
  }

  /** Grants come out of TEST_LIQUIDITY; adjustments move between a user and ADMIN_ADJUSTMENT. */
  ghost predicate WellShaped(tx: LedgerTx) {
    && (tx.kind == Grant ==>
          |tx.entries| == 2 && var to := tx.entries[1].account;
          to.owner.User? && tx.entries == TransferEntries(SystemKey(TestLiquidity, to.asset), to, tx.entries[1].amount))
    && (tx.kind == Adjustment ==>
          |tx.entries| == 2 && var from, to := tx.entries[0].account, tx.entries[1].account;
          && tx.entries == TransferEntries(from, to, tx.entries[1].amount) && from.asset == to.asset
          && ((from.owner.User? && to.owner == System(AdminAdjustment)) || (from.owner == System(AdminAdjustment) && to.owner.User?)))
  }

  /** The journal says, kind by kind, what the business tables say, and each of its transactions balances. */
  ghost predicate Reconciled(markets: Markets, t: Tables) {
    && (forall k :: KindNet(t.journal, TradeFill, k) == TradeFlow(markets, t.orders, t.trades, k))
    && (forall k :: KindNet(t.journal, DepositIn, k) == DepositFlow(t.deposits, k))
    && (forall k :: KindNet(t.journal, WithdrawalOut, k) == WithdrawalFlow(t.withdrawals, k))
    && (forall tx | tx in t.journal :: WellShaped(tx) && Balanced(tx.entries))
  }

  ghost predicate TablesValid(markets: Markets, t: Tables) {
    && Money(t.accounts, t.holds, t.journal)
    && OrdersValid(markets, t.holds, t.orders)
    && TradesFit(t.orders, t.trades)
    && TradesValid(markets, t.orders, t.trades)
    && Reconciled(markets, t)
  }

  // ---------------------------------------------------------------------------
  // Extending the histories
  // ---------------------------------------------------------------------------

  lemma KindNetSnoc(journal: seq<LedgerTx>, tx: LedgerTx)
    ensures forall kind, k :: KindNet(journal + [tx], kind, k) ==
                              KindNet(journal, kind, k) + if tx.kind == kind then EntriesNet(tx.entries, k) else 0.0
  {
    assert (journal + [tx])[..|journal|] == journal;
  }

  lemma TradesSnoc(markets: Markets, orders: seq<OrderRow>, trades: seq<Trade>, tr: Trade)
    requires tr.market in markets
    ensures forall i :: TradedQuantity(trades + [tr], i) ==
                        TradedQuantity(trades, i) + if Involves(tr, i) then tr.quantity else 0.0
    ensures forall i :: TradedQuote(trades + [tr], i) ==
                        TradedQuote(trades, i) + if Involves(tr, i) then tr.quoteAmount else 0.0
    ensures forall k :: TradeFlow(markets, orders, trades + [tr], k) ==
                        TradeFlow(markets, orders, trades, k) + Flow(markets[tr.market], RecordedDeal(orders, tr), k)
  {
    assert (trades + [tr])[..|trades|] == trades;
  }

  /** Markets keep their asset pair; fees and status may change. */
  ghost predicate SameTerms(markets: Markets, markets': Markets) {
    && markets'.Keys == markets.Keys
    && forall id | id in markets :: markets'[id].base == markets[id].base && markets'[id].quote == markets[id].quote
  }

  /** Recorded trades keep their meaning while orders move on and fees change. */
  lemma {:induction false} TradeFlowStable(
    markets: Markets, markets': Markets, orders: seq<OrderRow>, orders': seq<OrderRow>, trades: seq<Trade>, k: AccountKey)
    requires SameTerms(markets, markets') && AllOnward(orders, orders') && TradesValid(markets, orders, trades)
    ensures TradeFlow(markets', orders', trades, k) == TradeFlow(markets, orders, trades, k)
  {
    if trades != [] {
      var last := trades[|trades| - 1];
      assert last in trades && TradeRecorded(markets, orders, last) && Onward(orders[last.makerOrderId], orders'[last.makerOrderId]);
      TradeFlowStable(markets, markets', orders, orders', trades[..|trades| - 1], k);
    }
  }

  // ---------------------------------------------------------------------------
  // A settled fill keeps the tables valid
  // ---------------------------------------------------------------------------

  /** The taker's own limit allows the fill. */
  ghost predicate WithinLimit(orders: seq<OrderRow>, f: Fill)
    requires f.takerOrderId < |orders|
  {
    var taker := orders[f.takerOrderId];
    taker.orderType == Limit ==> Crosses(taker.side, taker.price, f.price)
  }

  lemma BackedFill(markets: Markets, t: Tables, mid: MarketId, f: Fill)
    requires OrdersValid(markets, t.holds, t.orders) && FillReady(t.orders, mid, f)
    ensures mid in markets && FillBacked(t, mid, markets[mid], f)
  {
    assert OrderValid(markets, t.holds, t.orders, f.makerOrderId);
    assert OrderValid(markets, t.holds, t.orders, f.takerOrderId);
  }

  ghost function OrdersAfter(orders: seq<OrderRow>, f: Fill): seq<OrderRow>
    requires f.makerOrderId < |orders| && f.takerOrderId < |orders|
  {
    ApplyFill(ApplyFill(orders, f.makerOrderId, f.quantity), f.takerOrderId, f.quantity)
  }

  lemma FillKeepsOrders(markets: Markets, t: Tables, mid: MarketId, f: Fill)
    requires OrdersValid(markets, t.holds, t.orders) && FillReady(t.orders, mid, f)
    ensures f.makerOrderId in t.holds && f.takerOrderId in t.holds
    ensures OrdersValid(markets, HoldsAfter(t, f), OrdersAfter(t.orders, f))
    ensures SameOrders(t.orders, OrdersAfter(t.orders, f))
  {
    hide RowValid, HoldFits, ReserveOf;
    BackedFill(markets, t, mid, f);
    FillToRow(markets[mid], t.holds[f.makerOrderId], t.orders[f.makerOrderId], f.quantity);
    FillToRow(markets[mid], t.holds[f.takerOrderId], t.orders[f.takerOrderId], f.quantity);
    var orders', holds' := OrdersAfter(t.orders, f), HoldsAfter(t, f);
    forall i: OrderId | i < |orders'| ensures OrderValid(markets, holds', orders', i) {
      assert OrderValid(markets, t.holds, t.orders, i);
    }
  }

  lemma FillKeepsTrades(markets: Markets, orders: seq<OrderRow>, trades: seq<Trade>, mid: MarketId, f: Fill, tr: Trade)
    requires TradesFit(orders, trades) && FillKnown(orders, mid, f) && WithinLimit(orders, f) && mid in markets
    requires tr.market == mid && tr.makerOrderId == f.makerOrderId && tr.takerOrderId == f.takerOrderId
    requires tr.quantity == f.quantity && tr.quoteAmount == f.quoteAmount
    ensures TradesFit(OrdersAfter(orders, f), trades + [tr])
  {
    TradesSnoc(markets, orders, trades, tr);
    var orders' := OrdersAfter(orders, f);
    forall i: OrderId | i < |orders'|
      ensures orders'[i].filled == TradedQuantity(trades + [tr], i) && Protected(orders'[i], TradedQuote(trades + [tr], i))
    {
      if i == f.makerOrderId || i == f.takerOrderId {
        ProtectedStep(orders[i], TradedQuote(trades, i), f.price, f.quantity);
      }
    }
  }

  lemma ProtectedStep(r: OrderRow, quote: real, price: real, quantity: real)
    requires Protected(r, quote) && quantity > 0.0
    requires r.orderType == Limit ==> Crosses(r.side, r.price, price)
    ensures Protected(ApplyFillToOrder(r, quantity), quote + price * quantity)
  {
    assert r.price * (r.filled + quantity) == r.price * r.filled + r.price * quantity;
    assert r.price * quantity - price * quantity == (r.price - price) * quantity;
  }

  /** What a settled fill writes: one balanced transaction, one trade, two rows. */
  lemma FillWrites(t: Tables, mid: MarketId, m: Market, f: Fill)
    requires FillKnown(t.orders, mid, f) && SettleFill(t, mid, m, f).Ok?
    ensures var d, t' := DealOf(m, t.orders, f), SettleFill(t, mid, m, f).value;
            var tr := TradeOf(mid, f, d, t.orders[f.makerOrderId].side == Buy);
            && t'.journal == t.journal + [LedgerTx(TradeFill, FillEntries(m, d))] && Balanced(FillEntries(m, d))
            && t'.trades == t.trades + [tr] && t'.orders == OrdersAfter(t.orders, f)
            && t'.deposits == t.deposits && t'.withdrawals == t.withdrawals
            && RecordedDeal(t'.orders, tr) == d
  {
    hide FillEntries, TouchFillAccounts, Unreserve, ApplyAll, PerAsset, AllPositive, Fee, Notional;
    FillEntriesNet(m, DealOf(m, t.orders, f));
  }

  lemma FillKeepsReconciled(markets: Markets, t: Tables, mid: MarketId, f: Fill)
    requires Reconciled(markets, t) && TradesValid(markets, t.orders, t.trades) && mid in markets
    requires FillKnown(t.orders, mid, f) && SettleFill(t, mid, markets[mid], f).Ok?
    requires AllOnward(t.orders, OrdersAfter(t.orders, f))
    ensures Reconciled(markets, SettleFill(t, mid, markets[mid], f).value)
  {
    hide SettleFill, KindNet, TradeFlow, Flow, EntriesNet, DepositFlow, WithdrawalFlow, Balanced, TradesValid, AllOnward,
      FillEntries, OrdersAfter;
    var d, t' := DealOf(markets[mid], t.orders, f), SettleFill(t, mid, markets[mid], f).value;
    var tx, tr := LedgerTx(TradeFill, FillEntries(markets[mid], d)), TradeOf(mid, f, d, t.orders[f.makerOrderId].side == Buy);
    FillWrites(t, mid, markets[mid], f);
    KindNetSnoc(t.journal, tx);
    FillEntriesNet(markets[mid], d);
    TradesSnoc(markets, t'.orders, t.trades, tr);
    forall k ensures TradeFlow(markets, t'.orders, t.trades, k) == TradeFlow(markets, t.orders, t.trades, k) {
      TradeFlowStable(markets, markets, t.orders, t'.orders, t.trades, k) by { ItsOwnTerms(markets); }
    }
  }

  lemma ItsOwnTerms(markets: Markets)
    ensures SameTerms(markets, markets)
  {
  }

  lemma FillIsRecorded(markets: Markets, t: Tables, mid: MarketId, f: Fill, tr: Trade)
    requires TradesValid(markets, t.orders, t.trades) && mid in markets && FillKnown(t.orders, mid, f)
    requires AllOnward(t.orders, OrdersAfter(t.orders, f))
    requires tr == TradeOf(mid, f, DealOf(markets[mid], t.orders, f), t.orders[f.makerOrderId].side == Buy)
    ensures TradesValid(markets, OrdersAfter(t.orders, f), t.trades + [tr])
  {
    hide Notional;
    TradesStay(markets, markets, t.orders, OrdersAfter(t.orders, f), t.trades);
    assert TradeRecorded(markets, OrdersAfter(t.orders, f), tr);
  }

  /** A settled fill keeps every table in step with every other. */
  lemma FillKeepsTables(markets: Markets, t: Tables, mid: MarketId, f: Fill)
    requires TablesValid(markets, t) && FillReady(t.orders, mid, f) && WithinLimit(t.orders, f)
    ensures mid in markets
    ensures SettleFill(t, mid, markets[mid], f).Ok? ==>
              var t' := SettleFill(t, mid, markets[mid], f).value;
              TablesValid(markets, t') && t'.orders == OrdersAfter(t.orders, f) && SameOrders(t.orders, t'.orders)
  {
    BackedFill(markets, t, mid, f);
    var m := markets[mid];
    if SettleFill(t, mid, m, f).Ok? {
      var t' := SettleFill(t, mid, m, f).value;
      var tr := TradeOf(mid, f, DealOf(m, t.orders, f), t.orders[f.makerOrderId].side == Buy);
      assert t'.orders == OrdersAfter(t.orders, f) && t'.trades == t.trades + [tr];
      hide SettleFill, Money, OrdersValid, Reconciled, TradesFit, SameOrder, TradesValid;
      FillKeepsMoney(t, mid, m, f);
      FillKeepsOrders(markets, t, mid, f);
      SameIsOnward(t.orders, OrdersAfter(t.orders, f));
      FillKeepsTrades(markets, t.orders, t.trades, mid, f, tr);
      FillKeepsReconciled(markets, t, mid, f);
      FillIsRecorded(markets, t, mid, f, tr);
    }
  }
}
