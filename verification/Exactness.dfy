/** On a grid of ticks and steps with few enough decimals, every amount a submission writes is exact. */
module Exactness {
  import opened Types
  import opened BookSide
  import opened Matching
  import opened MatchingFacts
  import opened Ledger
  import opened Holds
  import opened Settlement
  import opened FillProofs
  import opened Books
  import opened Exchange
  import opened DecimalRules

  const FEE_PLACES: nat := 6

  /** The tick has `dt` places and the step `ds`, leaving room for a fee rate within 18. */
  predicate GridPlaces(m: Market, dt: nat, ds: nat) {
    dt + ds + FEE_PLACES <= NUMERIC_SCALE && Places(m.tickSize, dt) && Places(m.quantityStep, ds)
  }

  ghost predicate Grid(m: Market) {
    && m.tickSize > 0.0 && m.quantityStep > 0.0
    && (exists dt: nat, ds: nat :: GridPlaces(m, dt, ds))
    && Places(m.makerFee, FEE_PLACES) && Places(m.takerFee, FEE_PLACES)
  }

  lemma SmallPowers()
    ensures Pow10(1) == 10 && Pow10(2) == 100 && Pow10(3) == 1000 && Pow10(4) == 10000 && Pow10(5) == 100000
    ensures Pow10(6) == 1000000
  {
    assert Pow10(2) == 10 * Pow10(1) && Pow10(3) == 10 * Pow10(2) && Pow10(4) == 10 * Pow10(3);
    assert Pow10(5) == 10 * Pow10(4) && Pow10(6) == 10 * Pow10(5);
  }

  /** The three seeded markets are such grids. */
  lemma SeededMarketsQualify(m: Market)
    requires (m.tickSize, m.quantityStep) in {(0.10, 0.00001), (0.01, 0.0001), (0.001, 0.01)}
    requires m.makerFee == 0.001 && m.takerFee == 0.001
    ensures Grid(m)
  {
    SmallPowers();
    if m.tickSize == 0.10 {
      assert GridPlaces(m, 1, 5);
    } else if m.tickSize == 0.01 {
      assert GridPlaces(m, 2, 4);
    } else {
      assert GridPlaces(m, 3, 2);
    }
  }

  /** A price in tenths of a tick, as the slippage buffer on a market buy makes it. */
  ghost predicate Tenths(price: real, tick: real) {
    Multiple(Notional(price, 10.0), tick)
  }

  // ---------------------------------------------------------------------------
  // Amounts on the grid
  // ---------------------------------------------------------------------------

  /** `isMultipleOf` accepts exactly the whole multiples of a positive step. */
  lemma IsMultipleOfIff(value: real, step: real)
    ensures IsMultipleOf(value, step) <==> step > 0.0 && Multiple(value, step)
  {
    if step > 0.0 {
      if IsMultipleOf(value, step) {
        assert Steps(value, (value / step).Floor, step);
      }
      if Multiple(value, step) {
        var k :| Steps(value, k, step);
        assert value / step == k as real;
      }
    }
  }

  lemma QuantityExact(m: Market, q: real)
    requires Grid(m) && Multiple(q, m.quantityStep)
    ensures Exact(q)
  {
    var dt: nat, ds: nat :| GridPlaces(m, dt, ds);
    hide Places, Multiple;
    MultiplePlaces(q, m.quantityStep, ds);
    PlacesMore(q, ds, NUMERIC_SCALE);
  }

  lemma TenthPlaces(price: real, d: nat)
    requires Places(Notional(price, 10.0), d)
    ensures Places(price, d + 1)
  {
    var p := Pow10(d) as real;
    NotionalLaws(price, 10.0, p);
    WholeProduct(10, Pow10(d));
  }

  lemma PriceExact(m: Market, price: real)
    requires Grid(m) && Tenths(price, m.tickSize)
    ensures Exact(price)
  {
    var dt: nat, ds: nat :| GridPlaces(m, dt, ds);
    hide Places, Multiple, Notional;
    MultiplePlaces(Notional(price, 10.0), m.tickSize, dt);
    TenthPlaces(price, dt);
    PlacesMore(price, dt + 1, NUMERIC_SCALE);
  }

  lemma NotionalExact(m: Market, price: real, q: real)
    requires Grid(m) && Tenths(price, m.tickSize) && Multiple(q, m.quantityStep)
    ensures Exact(Notional(price, q))
  {
    var dt: nat, ds: nat :| GridPlaces(m, dt, ds);
    hide Places, Multiple, Notional;
    MultiplePlaces(q, m.quantityStep, ds);
    MultiplePlaces(Notional(price, 10.0), m.tickSize, dt);
    TenthPlaces(price, dt);
    PlacesProduct(price, dt + 1, q, ds);
    PlacesMore(Notional(price, q), dt + 1 + ds, NUMERIC_SCALE);
  }

  lemma FeesExact(m: Market, price: real, q: real, rate: real)
    requires Grid(m) && Multiple(price, m.tickSize) && Multiple(q, m.quantityStep) && Places(rate, FEE_PLACES)
    ensures Exact(Fee(q, rate)) && Exact(Fee(Notional(price, q), rate))
  {
    var dt: nat, ds: nat :| GridPlaces(m, dt, ds);
    hide Places, Multiple, Notional, Fee;
    MultiplePlaces(q, m.quantityStep, ds);
    MultiplePlaces(price, m.tickSize, dt);
    PlacesProduct(price, dt, q, ds);
    PlacesProduct(q, ds, rate, FEE_PLACES);
    PlacesProduct(Notional(price, q), dt + ds, rate, FEE_PLACES);
    PlacesMore(Notional(q, rate), ds + FEE_PLACES, NUMERIC_SCALE);
    PlacesMore(Notional(Notional(price, q), rate), dt + ds + FEE_PLACES, NUMERIC_SCALE);
    FeeIsProduct(q, rate);
    FeeIsProduct(Notional(price, q), rate);
  }

  lemma FeeIsProduct(amount: real, rate: real)
    ensures Fee(amount, rate) == Notional(amount, rate)
  {
  }

  lemma OnTickIsTenths(price: real, tick: real)
    requires Multiple(price, tick)
    ensures Tenths(price, tick)
    ensures Tenths(Notional(price, MARKET_ORDER_SLIPPAGE_BUFFER), tick)
  {
    var k :| Steps(price, k, tick);
    assert Steps(Notional(price, 10.0), 10 * k, tick);
    assert Notional(Notional(price, MARKET_ORDER_SLIPPAGE_BUFFER), 10.0) == Notional(price, 11.0);
    assert Steps(Notional(price, 11.0), 11 * k, tick);
  }

  // ---------------------------------------------------------------------------
  // Exact tables
  // ---------------------------------------------------------------------------

  ghost predicate ExactAccounts(accounts: Accounts) {
    forall k | k in accounts :: Exact(accounts[k].available) && Exact(accounts[k].locked)
  }

  ghost predicate ExactEntries(entries: seq<Entry>) {
    forall e | e in entries :: Exact(e.amount)
  }

  ghost predicate ExactMoney(accounts: Accounts, holds: Holds, journal: seq<LedgerTx>) {
    && ExactAccounts(accounts)
    && (forall id | id in holds :: Exact(holds[id].amount))
    && (forall tx | tx in journal :: ExactEntries(tx.entries))
  }

  /** An order whose quantities are whole steps and whose price is on the tick, or, for a market order,
      in tenths of it. */
  ghost predicate RowOnGrid(m: Market, r: OrderRow) {
    && Multiple(r.quantity, m.quantityStep) && Multiple(r.filled, m.quantityStep) && Multiple(r.remaining, m.quantityStep)
    && Tenths(r.price, m.tickSize) && (r.orderType == Limit ==> Multiple(r.price, m.tickSize))
  }

  ghost predicate RowsOnGrid(markets: Markets, orders: seq<OrderRow>) {
    forall i | 0 <= i < |orders| :: orders[i].market in markets && RowOnGrid(markets[orders[i].market], orders[i])
  }

  ghost predicate ExactTrade(tr: Trade) {
    Exact(tr.price) && Exact(tr.quantity) && Exact(tr.quoteAmount) && Exact(tr.makerFee) && Exact(tr.takerFee)
  }

  ghost predicate ExactTables(markets: Markets, t: Tables) {
    && ExactMoney(t.accounts, t.holds, t.journal)
    && RowsOnGrid(markets, t.orders)
    && (forall tr | tr in t.trades :: ExactTrade(tr))
    && (forall d | d in t.deposits :: Exact(d.amount))
    && (forall w | w in t.withdrawals :: Exact(w.amount))
  }

  lemma ZeroExact()
    ensures Exact(0.0)
  {
    WholePlaces(0, NUMERIC_SCALE);
  }

  lemma TouchExact(accounts: Accounts, k: AccountKey)
    requires ExactAccounts(accounts)
    ensures ExactAccounts(Touch(accounts, k))
  {
    ZeroExact();
  }

  lemma UnlockExact(accounts: Accounts, k: AccountKey, amount: real)
    requires ExactAccounts(accounts) && Exact(amount)
    ensures ExactAccounts(Unlock(accounts, k, amount)) && ExactAccounts(Unlock(accounts, k, -amount))
  {
    ZeroExact();
    var a := At(accounts, k);
    assert Exact(a.available) && Exact(a.locked);
    hide Places;
    PlacesSum(a.available, amount, NUMERIC_SCALE);
    PlacesSum(a.locked, amount, NUMERIC_SCALE);
  }

  lemma {:induction false} PostingExact(accounts: Accounts, entries: seq<Entry>)
    requires ExactAccounts(accounts) && ExactEntries(entries) && ApplyAll(accounts, entries).Ok?
    ensures ExactAccounts(ApplyAll(accounts, entries).value)
    decreases |entries|
  {
    hide Places;
    if entries != [] {
      var e := entries[0];
      assert e in entries && forall x | x in entries[1..] :: x in entries;
      PlacesSum(accounts[e.account].available, e.amount, NUMERIC_SCALE);
      PostingExact(ApplyEntry(accounts, e).value, entries[1..]);
    }
  }

  lemma ReduceExact(accounts: Accounts, holds: Holds, id: OrderId, amount: real)
    requires ExactMoney(accounts, holds, []) && Exact(amount)
    ensures var (accounts', holds') := ReduceHold(accounts, holds, id, amount); ExactMoney(accounts', holds', [])
  {
    ZeroExact();
    hide Places;
    if id in holds && holds[id].status == Active && amount > 0.0 {
      UnlockExact(accounts, holds[id].account, amount);
      PlacesSum(holds[id].amount, amount, NUMERIC_SCALE);
    }
  }

  // ---------------------------------------------------------------------------
  // A settled fill
  // ---------------------------------------------------------------------------

  ghost predicate FillOnGrid(m: Market, f: Fill) {
    Multiple(f.quantity, m.quantityStep) && Multiple(f.price, m.tickSize) && f.quoteAmount == Notional(f.price, f.quantity)
  }

  ghost predicate ExactDeal(d: Deal) {
    Exact(d.quantity) && Exact(d.quoteAmount) && Exact(d.buyerFee) && Exact(d.sellerFee)
  }

  lemma DealExact(m: Market, orders: seq<OrderRow>, f: Fill)
    requires Grid(m) && FillOnGrid(m, f) && f.makerOrderId < |orders| && f.takerOrderId < |orders|
    ensures ExactDeal(DealOf(m, orders, f))
  {
    hide Places, Multiple, Notional, Fee, Grid;
    GridFees(m);
    QuantityExact(m, f.quantity);
    OnTickIsTenths(f.price, m.tickSize);
    NotionalExact(m, f.price, f.quantity);
    FeesExact(m, f.price, f.quantity, m.makerFee);
    FeesExact(m, f.price, f.quantity, m.takerFee);
  }

  lemma GridFees(m: Market)
    requires Grid(m)
    ensures Places(m.makerFee, FEE_PLACES) && Places(m.takerFee, FEE_PLACES)
  {
  }

  lemma EntriesExact(m: Market, d: Deal)
    requires ExactDeal(d)
    ensures ExactEntries(FillEntries(m, d))
  {
    hide Places;
    PlacesSum(d.quoteAmount, d.sellerFee, NUMERIC_SCALE);
    PlacesSum(d.quantity, d.buyerFee, NUMERIC_SCALE);
  }

  lemma TouchAllExact(accounts: Accounts, m: Market, d: Deal)
    requires ExactAccounts(accounts)
    ensures ExactAccounts(TouchFillAccounts(accounts, m, d))
  {
    hide ExactAccounts, Touch;
    TouchExact(accounts, UserKey(d.buyer, m.base));
    var a1 := Touch(accounts, UserKey(d.buyer, m.base));
    TouchExact(a1, UserKey(d.buyer, m.quote));
    var a2 := Touch(a1, UserKey(d.buyer, m.quote));
    TouchExact(a2, UserKey(d.seller, m.base));
    var a3 := Touch(a2, UserKey(d.seller, m.base));
    TouchExact(a3, UserKey(d.seller, m.quote));
    var a4 := Touch(a3, UserKey(d.seller, m.quote));
    TouchExact(a4, SystemKey(FeeRevenue, m.base));
    TouchExact(Touch(a4, SystemKey(FeeRevenue, m.base)), SystemKey(FeeRevenue, m.quote));
  }

  lemma ReserveExact(m: Market, r: OrderRow, q: real)
    requires Grid(m) && RowOnGrid(m, r) && Multiple(q, m.quantityStep)
    ensures Exact(ReserveOf(r, q))
  {
    hide Places, Multiple, Notional, Tenths;
    NotionalExact(m, r.price, q);
    QuantityExact(m, q);
  }

  lemma UnreserveExact(accounts: Accounts, holds: Holds, b: OrderId, rb: real, s: OrderId, rs: real)
    requires ExactMoney(accounts, holds, []) && Exact(rb) && Exact(rs)
    ensures var (accounts', holds') := Unreserve(accounts, holds, b, rb, s, rs); ExactMoney(accounts', holds', [])
  {
    hide Places, ReduceHold, ExactMoney;
    ReduceExact(accounts, holds, b, rb);
    var (accounts', holds') := ReduceHold(accounts, holds, b, rb);
    ReduceExact(accounts', holds', s, rs);
  }

  lemma FilledOnGrid(m: Market, r: OrderRow, q: real)
    requires RowOnGrid(m, r) && Multiple(q, m.quantityStep)
    ensures RowOnGrid(m, ApplyFillToOrder(r, q))
  {
    hide Multiple, Tenths;
    MultipleSum(r.filled, q, m.quantityStep);
    MultipleSum(r.remaining, q, m.quantityStep);
  }

  lemma FillRowsOnGrid(markets: Markets, orders: seq<OrderRow>, mid: MarketId, f: Fill)
    requires RowsOnGrid(markets, orders) && mid in markets && Multiple(f.quantity, markets[mid].quantityStep)
    requires f.makerOrderId < |orders| && f.takerOrderId < |orders|
    requires orders[f.makerOrderId].market == mid && orders[f.takerOrderId].market == mid
    ensures RowsOnGrid(markets, OrdersAfter(orders, f))
  {
    hide RowOnGrid, Multiple;
    FilledOnGrid(markets[mid], orders[f.makerOrderId], f.quantity);
    var booked := ApplyFill(orders, f.makerOrderId, f.quantity);
    FilledOnGrid(markets[mid], booked[f.takerOrderId], f.quantity);
  }

  /** A settled fill writes exact amounts only. */
  lemma SettleFillExact(markets: Markets, t: Tables, mid: MarketId, f: Fill)
    requires mid in markets && Grid(markets[mid]) && ExactTables(markets, t) && FillOnGrid(markets[mid], f)
    requires f.makerOrderId < |t.orders| && f.takerOrderId < |t.orders|
    requires t.orders[f.makerOrderId].market == mid && t.orders[f.takerOrderId].market == mid
    requires SettleFill(t, mid, markets[mid], f).Ok?
    ensures ExactTables(markets, SettleFill(t, mid, markets[mid], f).value)
    ensures SettleFill(t, mid, markets[mid], f).value.orders == OrdersAfter(t.orders, f)
  {
    hide Places, Multiple, Grid, RowOnGrid, FillEntries, TouchFillAccounts, Unreserve, ReserveOf, ApplyAll, AllPositive;
    var m, b, s := markets[mid], BuyerOf(t.orders, f), SellerOf(t.orders, f);
    var rb, rs := ReserveOf(t.orders[b], f.quantity), ReserveOf(t.orders[s], f.quantity);
    ReserveExact(m, t.orders[b], f.quantity);
    ReserveExact(m, t.orders[s], f.quantity);
    UnreserveExact(t.accounts, t.holds, b, rb, s, rs);
    var accounts := Unreserve(t.accounts, t.holds, b, rb, s, rs).0;
    var deal := DealOf(m, t.orders, f);
    DealExact(m, t.orders, f);
    OnTickIsTenths(f.price, m.tickSize);
    PriceExact(m, f.price);
    EntriesExact(m, deal);
    TouchAllExact(accounts, m, deal);
    PostingExact(TouchFillAccounts(accounts, m, deal), FillEntries(m, deal));
    FillRowsOnGrid(markets, t.orders, mid, f);
  }

  /** Every column of an order on the grid is exact. */
  lemma RowExact(m: Market, r: OrderRow)
    requires Grid(m) && RowOnGrid(m, r)
    ensures Exact(r.price) && Exact(r.quantity) && Exact(r.filled) && Exact(r.remaining)
  {
    hide Places, Multiple, Tenths, Grid;
    PriceExact(m, r.price);
    QuantityExact(m, r.quantity);
    QuantityExact(m, r.filled);
    QuantityExact(m, r.remaining);
  }

  /** What settling needs of the fills: on the grid, between orders of the market. */
  ghost predicate FillsOnGrid(m: Market, orders: seq<OrderRow>, mid: MarketId, fills: seq<Fill>) {
    forall f | f in fills ::
      && FillOnGrid(m, f) && f.makerOrderId < |orders| && f.takerOrderId < |orders|
      && orders[f.makerOrderId].market == mid && orders[f.takerOrderId].market == mid
  }

  lemma {:induction false} SettleAllExact(markets: Markets, t: Tables, mid: MarketId, fills: seq<Fill>)
    requires mid in markets && Grid(markets[mid]) && ExactTables(markets, t)
    requires FillsOnGrid(markets[mid], t.orders, mid, fills)
    requires SettleAll(t, mid, markets[mid], fills).Ok?
    ensures ExactTables(markets, SettleAll(t, mid, markets[mid], fills).value)
    decreases |fills|
  {
    hide ExactTables, Grid, FillOnGrid, SettleFill;
    if fills != [] {
      assert fills[0] in fills && forall f | f in fills[1..] :: f in fills;
      SettleFillExact(markets, t, mid, fills[0]);
      SettleAllExact(markets, SettleFill(t, mid, markets[mid], fills[0]).value, mid, fills[1..]);
    }
  }

  // ---------------------------------------------------------------------------
  // Matching on the grid
  // ---------------------------------------------------------------------------

  ghost predicate MakersOnGrid(m: Market, s: seq<Maker>) {
    forall o | o in s :: Multiple(o.remaining, m.quantityStep) && Multiple(o.price, m.tickSize)
  }

  /** Matching whole steps against whole steps trades and leaves whole steps. */
  lemma {:induction false} MatchOnGrid(m: Market, t: Taker, makers: seq<Maker>, quantity: real)
    requires MakersOnGrid(m, makers) && Multiple(quantity, m.quantityStep)
    ensures var o := Match(t, makers, quantity);
            && (forall f | f in o.fills :: FillOnGrid(m, f))
            && MakersOnGrid(m, o.makers) && Multiple(o.remaining, m.quantityStep)
    decreases |makers|
  {
    hide Multiple;
    if quantity > 0.0 && makers != [] && MayTrade(t, makers[0]) {
      var best := makers[0];
      assert makers == [best] + makers[1..] && best in makers;
      MultipleSum(quantity, best.remaining, m.quantityStep);
      MultipleSum(best.remaining, quantity, m.quantityStep);
      MultipleSum(quantity, quantity, m.quantityStep);
      MultipleSum(best.remaining, best.remaining, m.quantityStep);
      var q := Min(best.remaining, quantity);
      if best.remaining - q == 0.0 {
        MatchOnGrid(m, t, makers[1..], quantity - q);
      }
    }
  }
}
