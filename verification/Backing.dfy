/** What the tables keep whatever is interleaved with what: a weaker relation between order rows and
    their holds than `TablesValid`, which every single transaction preserves by itself. */
module Backing {
  import opened Types
  import opened Matching
  import opened Ledger
  import opened Holds
  import opened Settlement
  import opened FillProofs
  import opened Books
  import opened EngineSpec
  import opened Exchange
  import opened Transfers

  /** A hold stands on the account its order pays from; while it is active, its order is live and it is
      exactly the reserve of what remains. A live order may have lost its hold. */
  ghost predicate HoldBacks(m: Market, h: Hold, r: OrderRow) {
    && h.account == LockKey(m, r)
    && (h.status == Active ==> Live(r) && h.amount == ReserveOf(r, r.remaining))
  }

  ghost predicate RowBacked(markets: Markets, holds: Holds, orders: seq<OrderRow>, i: OrderId)
    requires i < |orders|
  {
    && orders[i].market in markets
    && i in holds
    && RowValid(orders[i])
    && HoldBacks(markets[orders[i].market], holds[i], orders[i])
  }

  ghost predicate RowsBacked(markets: Markets, holds: Holds, orders: seq<OrderRow>) {
    && (forall i: OrderId | i < |orders| :: RowBacked(markets, holds, orders, i))
    && (forall i | i in holds :: i < |orders|)
  }

  ghost predicate Backed(markets: Markets, t: Tables) {
    && Booked(markets, t)
    && RowsBacked(markets, t.holds, t.orders)
    && TradesFit(t.orders, t.trades)
    && TradesValid(markets, t.orders, t.trades)
  }

  /** Valid tables are backed. */
  lemma ValidIsBacked(markets: Markets, t: Tables)
    requires TablesValid(markets, t)
    ensures Backed(markets, t)
  {
    hide Money, TradesFit, TradesValid, Reconciled, RowValid, ReserveOf;
    forall i: OrderId | i < |t.orders| ensures RowBacked(markets, t.holds, t.orders, i) {
      assert OrderValid(markets, t.holds, t.orders, i);
    }
  }

  lemma OnlyFundsKeepsBacked(markets: Markets, t: Tables, t': Tables)
    requires Backed(markets, t) && Booked(markets, t') && OnlyFunds(t, t')
    ensures Backed(markets, t')
  {
    hide Booked, RowsBacked, TradesFit, TradesValid;
  }

  /** Changing fees or status of markets leaves the tables backed. */
  lemma TermsKeepBacked(markets: Markets, markets': Markets, t: Tables)
    requires Backed(markets, t) && SameTerms(markets, markets')
    ensures Backed(markets', t)
  {
    hide Money, TradesFit, RowValid, ReserveOf;
    OrdersStay(t.orders);
    SameIsOnward(t.orders, t.orders);
    TradesStay(markets, markets', t.orders, t.orders, t.trades);
    forall k ensures TradeFlow(markets', t.orders, t.trades, k) == TradeFlow(markets, t.orders, t.trades, k) {
      TradeFlowStable(markets, markets', t.orders, t.orders, t.trades, k);
    }
    forall i: OrderId | i < |t.orders| ensures RowBacked(markets', t.holds, t.orders, i) {
      assert RowBacked(markets, t.holds, t.orders, i);
    }
  }

  // ---------------------------------------------------------------------------
  // Orders placed, cancelled and closed
  // ---------------------------------------------------------------------------

  /** One row moves along without a fill, and its hold follows. */
  lemma RowMovesBacked(markets: Markets, t: Tables, t': Tables, id: OrderId, row: OrderRow, h: Hold)
    requires Backed(markets, t) && id < |t.orders| && row.market in markets
    requires Onward(t.orders[id], row) && row.filled == t.orders[id].filled
    requires RowValid(row) && HoldBacks(markets[row.market], h, row)
    requires t' == t.(accounts := t'.accounts, holds := t.holds[id := h], orders := t.orders[id := row])
    requires Money(t'.accounts, t'.holds, t'.journal)
    ensures Backed(markets, t') && AllOnward(t.orders, t'.orders)
  {
    hide Money, TradesFit, TradesValid, Reconciled, RowValid, HoldBacks;
    LifecycleKeepsHistory(markets, t, t');
    forall i: OrderId | i < |t'.orders| ensures RowBacked(markets, t'.holds, t'.orders, i) {
      assert RowBacked(markets, t.holds, t.orders, i);
    }
  }

  lemma BackedRow(markets: Markets, t: Tables, id: OrderId)
    requires Backed(markets, t) && id < |t.orders|
    ensures var r := t.orders[id];
            && r.market in markets && id in t.holds && RowValid(r) && HoldBacks(markets[r.market], t.holds[id], r)
  {
    assert RowBacked(markets, t.holds, t.orders, id);
  }

  /** Cancelling a live row, whether or not it still holds anything. */
  lemma CancelKeepsBacked(markets: Markets, t: Tables, id: OrderId)
    requires Backed(markets, t) && id < |t.orders| && Live(t.orders[id])
    ensures ReleaseHold(t.accounts, t.holds, id).Ok?
    ensures var r, released := t.orders[id], ReleaseHold(t.accounts, t.holds, id).value;
            var t' := t.(accounts := released.0, holds := released.1, orders := t.orders[id := r.(status := Cancelled)]);
            Backed(markets, t') && AllOnward(t.orders, t'.orders)
  {
    hide TradesFit, TradesValid, Reconciled, ActiveSum, Conserved, NoOverdraft, RowsBacked;
    BackedRow(markets, t, id);
    ReleaseKeeps(t.accounts, t.holds, id);
    var r, released := t.orders[id], ReleaseHold(t.accounts, t.holds, id).value;
    var t' := t.(accounts := released.0, holds := released.1, orders := t.orders[id := r.(status := Cancelled)]);
    assert Money(t'.accounts, t'.holds, t'.journal) by { hide HoldsMatch; }
    assert released.1 == t.holds[id := released.1[id]];
    RowMovesBacked(markets, t, t', id, r.(status := Cancelled), released.1[id]) by { hide Money; }
  }

  /** The hold once `amount` has been given back, if there is still something to give. */
  function Given(h: Hold, amount: real): Hold {
    if h.status == Active then Less(h, amount) else h
  }

  lemma GiveKeepsMoney(accounts: Accounts, holds: Holds, journal: seq<LedgerTx>, id: OrderId, amount: real)
    requires Money(accounts, holds, journal) && id in holds
    requires holds[id].status == Active ==> 0.0 < amount <= holds[id].amount
    ensures var (accounts', holds') := ReduceHold(accounts, holds, id, amount);
            && Money(accounts', holds', journal)
            && holds' == holds[id := Given(holds[id], amount)]
  {
    hide Money;
    if holds[id].status == Active {
      ReduceKeepsMoney(accounts, holds, journal, id, amount);
    }
  }

  /** Giving back the slice of a quantity. */
  lemma SliceFits(m: Market, h: Hold, r: OrderRow, quantity: real)
    requires RowValid(r) && HoldBacks(m, h, r) && 0.0 < quantity <= r.remaining
    ensures h.status == Active ==> 0.0 < ReserveOf(r, quantity) <= h.amount
    ensures h.status == Active ==> (ReserveOf(r, quantity) == h.amount <==> quantity == r.remaining)
    ensures h.status == Active ==> Given(h, ReserveOf(r, quantity)).amount == ReserveOf(r, r.remaining - quantity)
  {
    ReserveSplits(r, r.remaining, quantity);
    ReserveSplits(r, quantity, 0.0);
    if quantity < r.remaining {
      ReserveSplits(r, r.remaining - quantity, 0.0);
    }
  }

  /** Closing the remainder of a row that is not closed yet. */
  lemma CloseKeepsBacked(markets: Markets, t: Tables, id: OrderId, result: SubmitResult)
    requires Backed(markets, t) && id < |t.orders| && t.orders[id].rejectReason.None?
    requires result.remaining == t.orders[id].remaining > 0.0
    ensures var t' := CloseRemainder(t, id, result);
            Backed(markets, t') && AllOnward(t.orders, t'.orders) && t'.orders[id].rejectReason.Some?
  {
    hide TradesFit, TradesValid, Reconciled, Money, RowsBacked, ReduceHold;
    BackedRow(markets, t, id);
    var r, h, t' := t.orders[id], t.holds[id], CloseRemainder(t, id, result);
    SliceFits(markets[r.market], h, r, result.remaining);
    GiveKeepsMoney(t.accounts, t.holds, t.journal, id, ReserveOf(r, result.remaining));
    RowMovesBacked(markets, t, t', id, t'.orders[id], Given(h, ReserveOf(r, result.remaining)));
  }

  /** Creating a row and locking its reserve. */
  lemma CreateKeepsBacked(markets: Markets, t: Tables, m: Market, row: OrderRow)
    requires Backed(markets, t) && row.market in markets
    requires m.base == markets[row.market].base && m.quote == markets[row.market].quote
    requires row.price > 0.0 && row.quantity > 0.0 && row.filled == 0.0 && row.remaining == row.quantity
    requires row.status == Open && row.rejectReason.None?
    requires CreateAndLock(t, m, row).Ok?
    ensures var t' := CreateAndLock(t, m, row).value;
            Backed(markets, t') && t'.orders == t.orders + [row] && AllOnward(t.orders, t'.orders)
  {
    hide TradesFit, TradesValid, Reconciled, ActiveSum, Conserved, NoOverdraft;
    var k, amount, t' := LockKey(m, row), ReserveOf(row, row.quantity), CreateAndLock(t, m, row).value;
    ReserveSplits(row, row.quantity, 0.0);
    assert |t.orders| !in t.holds;
    LockKeeps(t.accounts, t.holds, k, |t.orders|, amount);
    assert Money(t'.accounts, t'.holds, t'.journal) by { hide HoldsMatch, RowsBacked; }
    CreatedRowsBacked(markets, t.holds, t.orders, m, row);
    hide Money, RowsBacked;
    LifecycleKeepsHistory(markets, t, t');
  }

  lemma CreatedRowsBacked(markets: Markets, holds: Holds, orders: seq<OrderRow>, m: Market, row: OrderRow)
    requires RowsBacked(markets, holds, orders) && row.market in markets
    requires m.base == markets[row.market].base && m.quote == markets[row.market].quote
    requires RowValid(row) && row.status == Open
    ensures RowsBacked(markets, holds[|orders| := Hold(LockKey(m, row), ReserveOf(row, row.remaining), Active)], orders + [row])
  {
    var holds' := holds[|orders| := Hold(LockKey(m, row), ReserveOf(row, row.remaining), Active)];
    forall i: OrderId | i < |orders + [row]| ensures RowBacked(markets, holds', orders + [row], i) {
      assert i < |orders| ==> RowBacked(markets, holds, orders, i);
    }
  }

  // ---------------------------------------------------------------------------
  // One fill
  // ---------------------------------------------------------------------------

  /** What may still be filled of a row: nothing once the engine's own verdict has closed it. */
  function Room(r: OrderRow): real {
    if r.rejectReason.Some? then 0.0 else r.remaining
  }

  /** Both rows have room for the fill. */
  ghost predicate FillFitsIn(orders: seq<OrderRow>, f: Fill)
    requires f.makerOrderId < |orders| && f.takerOrderId < |orders|
  {
    f.quantity <= Room(orders[f.makerOrderId]) && f.quantity <= Room(orders[f.takerOrderId])
  }

  lemma FillToBackedRow(m: Market, h: Hold, r: OrderRow, quantity: real)
    requires RowValid(r) && HoldBacks(m, h, r) && 0.0 < quantity <= Room(r)
    ensures var r' := ApplyFillToOrder(r, quantity);
            && RowValid(r') && HoldBacks(m, Given(h, ReserveOf(r, quantity)), r')
            && Onward(r, r') && Room(r') == Room(r) - quantity
    ensures h.status == Active ==> 0.0 < ReserveOf(r, quantity) <= h.amount
  {
    hide ReserveOf;
    SliceFits(m, h, r, quantity);
    ReserveIsOfTerms(r, ApplyFillToOrder(r, quantity), r.remaining - quantity);
  }

  lemma ReserveIsOfTerms(r: OrderRow, r': OrderRow, quantity: real)
    requires r'.side == r.side && r'.price == r.price
    ensures ReserveOf(r', quantity) == ReserveOf(r, quantity)
  {
  }

  /** The holds after a fill: each side gives back what it still holds of its reserve for the quantity. */
  ghost function HoldsGiven(t: Tables, f: Fill): Holds
    requires f.makerOrderId < |t.orders| && f.takerOrderId < |t.orders|
    requires f.makerOrderId in t.holds && f.takerOrderId in t.holds
  {
    var b, s := BuyerOf(t.orders, f), SellerOf(t.orders, f);
    t.holds[b := Given(t.holds[b], ReserveOf(t.orders[b], f.quantity))][s := Given(t.holds[s], ReserveOf(t.orders[s], f.quantity))]
  }

  /** Row and hold of one side of a fill. */
  lemma FillRow(markets: Markets, t: Tables, mid: MarketId, f: Fill, i: OrderId)
    requires Backed(markets, t) && FillKnown(t.orders, mid, f) && FillFitsIn(t.orders, f)
    requires i == f.makerOrderId || i == f.takerOrderId
    ensures mid in markets && i in t.holds
    ensures var r, h, m := t.orders[i], t.holds[i], markets[mid];
            var r' := ApplyFillToOrder(r, f.quantity);
            && RowValid(r') && HoldBacks(m, Given(h, ReserveOf(r, f.quantity)), r')
            && Onward(r, r') && Room(r') == Room(r) - f.quantity
            && (h.status == Active ==> 0.0 < ReserveOf(r, f.quantity) <= h.amount)
  {
    hide Booked, TradesFit, TradesValid, RowsBacked, Room, HoldBacks, RowValid, ReserveOf, Onward;
    BackedRow(markets, t, i);
    FillToBackedRow(markets[mid], t.holds[i], t.orders[i], f.quantity);
  }

  /** Both slices given back, as far as they are still held. */
  lemma GiveBothKeepsMoney(accounts: Accounts, holds: Holds, journal: seq<LedgerTx>, b: OrderId, rb: real, s: OrderId, rs: real)
    requires Money(accounts, holds, journal) && b in holds && s in holds && b != s
    requires holds[b].status == Active ==> 0.0 < rb <= holds[b].amount
    requires holds[s].status == Active ==> 0.0 < rs <= holds[s].amount
    ensures var (accounts', holds') := Unreserve(accounts, holds, b, rb, s, rs);
            Money(accounts', holds', journal) && holds' == holds[b := Given(holds[b], rb)][s := Given(holds[s], rs)]
  {
    hide Money, ReduceHold, Given;
    GiveKeepsMoney(accounts, holds, journal, b, rb);
    var (accounts1, holds1) := ReduceHold(accounts, holds, b, rb);
    GiveKeepsMoney(accounts1, holds1, journal, s, rs);
  }

  /** A posted deal keeps the money invariant, wherever the funds come from. */
  lemma PostedDealKeepsMoney(accounts: Accounts, holds: Holds, journal: seq<LedgerTx>, m: Market, d: Deal)
    requires Money(accounts, holds, journal)
    requires PostEntries(TouchFillAccounts(accounts, m, d), FillEntries(m, d)).Ok?
    ensures Money(PostEntries(TouchFillAccounts(accounts, m, d), FillEntries(m, d)).value, holds,
                  journal + [LedgerTx(TradeFill, FillEntries(m, d))])
  {
    hide Money, PostEntries, FillEntries, TouchFillAccounts, Flow;
    TouchAllKeeps(accounts, holds, journal, m, d);
    FillEntriesNet(m, d);
    PostKeepsMoney(TouchFillAccounts(accounts, m, d), holds, journal, TradeFill, FillEntries(m, d));
  }

  /** What the order still holds for the quantity: its reserve, or nothing once the hold is gone. */
  function HeldFor(t: Tables, i: OrderId, quantity: real): real
    requires i < |t.orders| && i in t.holds
  {
    if t.holds[i].status == Active then ReserveOf(t.orders[i], quantity) else 0.0
  }

  /** What a party can pay with: what is available, and what its order still holds for the quantity. */
  function Means(t: Tables, i: OrderId, k: AccountKey, quantity: real): real
    requires i < |t.orders| && i in t.holds
  {
    At(t.accounts, k).available + HeldFor(t, i, quantity)
  }

  lemma GiveMoves(accounts: Accounts, holds: Holds, id: OrderId, amount: real, k: AccountKey)
    requires id in holds && (holds[id].status == Active ==> 0.0 < amount)
    ensures At(ReduceHold(accounts, holds, id, amount).0, k).available ==
            At(accounts, k).available + if holds[id].status == Active then On(k, holds[id].account, amount) else 0.0
  {
  }

  lemma GiveBothMoves(accounts: Accounts, holds: Holds, b: OrderId, rb: real, s: OrderId, rs: real, k: AccountKey)
    requires b in holds && s in holds && b != s
    requires (holds[b].status == Active ==> 0.0 < rb) && (holds[s].status == Active ==> 0.0 < rs)
    ensures At(Unreserve(accounts, holds, b, rb, s, rs).0, k).available ==
            At(accounts, k).available + (if holds[b].status == Active then On(k, holds[b].account, rb) else 0.0)
            + (if holds[s].status == Active then On(k, holds[s].account, rs) else 0.0)
  {
    hide At;
    GiveMoves(accounts, holds, b, rb, k);
    var (accounts1, holds1) := ReduceHold(accounts, holds, b, rb);
    assert holds1[s] == holds[s];
    GiveMoves(accounts1, holds1, s, rs, k);
  }

  /** The two payers of a fill, their accounts, and that neither account is the other's. */
  lemma FillPayers(markets: Markets, t: Tables, mid: MarketId, f: Fill)
    requires Backed(markets, t) && FillKnown(t.orders, mid, f)
    ensures mid in markets && f.makerOrderId in t.holds && f.takerOrderId in t.holds
    ensures var b, s, d, m := BuyerOf(t.orders, f), SellerOf(t.orders, f), DealOf(markets[mid], t.orders, f), markets[mid];
            && b != s && d.buyer != d.seller && d.quoteAmount == f.quoteAmount && d.quantity == f.quantity
            && t.holds[b].account == UserKey(d.buyer, m.quote) && t.holds[s].account == UserKey(d.seller, m.base)
            && t.orders[s].side == Sell
  {
    hide Booked, TradesFit, TradesValid, RowValid, ReserveOf, Fee, Notional;
    assert RowBacked(markets, t.holds, t.orders, f.makerOrderId);
    assert RowBacked(markets, t.holds, t.orders, f.takerOrderId);
  }

  lemma BackedMoney(markets: Markets, t: Tables)
    requires Backed(markets, t)
    ensures Money(t.accounts, t.holds, t.journal)
  {
    hide Money, RowsBacked, TradesFit, TradesValid, Reconciled;
  }

  /** Once both slices are given back, each side has its means available. */
  lemma FillGives(markets: Markets, t: Tables, mid: MarketId, f: Fill)
    requires Backed(markets, t) && FillKnown(t.orders, mid, f) && FillFitsIn(t.orders, f)
    ensures mid in markets && f.makerOrderId in t.holds && f.takerOrderId in t.holds
    ensures var b, s, m := BuyerOf(t.orders, f), SellerOf(t.orders, f), markets[mid];
            && Unreserve(t.accounts, t.holds, b, ReserveOf(t.orders[b], f.quantity), s, ReserveOf(t.orders[s], f.quantity))
               == (Unreserved(t, f), HoldsGiven(t, f))
            && Money(Unreserved(t, f), HoldsGiven(t, f), t.journal)
            && At(Unreserved(t, f), UserKey(t.orders[b].userId, m.quote)).available ==
               Means(t, b, UserKey(t.orders[b].userId, m.quote), f.quantity)
            && At(Unreserved(t, f), UserKey(t.orders[s].userId, m.base)).available ==
               Means(t, s, UserKey(t.orders[s].userId, m.base), f.quantity)
  {
    FillRow(markets, t, mid, f, f.makerOrderId);
    FillRow(markets, t, mid, f, f.takerOrderId);
    FillPayers(markets, t, mid, f);
    hide Backed, Booked, Money, FillFitsIn, Unreserve, RowValid, HoldBacks, ReserveOf, Room, Onward, Given, ApplyFillToOrder, Notional,
      At;
    assert Money(t.accounts, t.holds, t.journal) by { BackedMoney(markets, t); }
    var b, s, m := BuyerOf(t.orders, f), SellerOf(t.orders, f), markets[mid];
    var rb, rs := ReserveOf(t.orders[b], f.quantity), ReserveOf(t.orders[s], f.quantity);
    GiveBothKeepsMoney(t.accounts, t.holds, t.journal, b, rb, s, rs);
    GiveBothMoves(t.accounts, t.holds, b, rb, s, rs, UserKey(t.orders[b].userId, m.quote));
    GiveBothMoves(t.accounts, t.holds, b, rb, s, rs, UserKey(t.orders[s].userId, m.base));
  }

  /** What settling a fill comes to once the slices are given back. */
  lemma SettlesByPosting(t: Tables, mid: MarketId, m: Market, f: Fill, accounts: Accounts, holds: Holds)
    requires FillKnown(t.orders, mid, f)
    requires var b, s := BuyerOf(t.orders, f), SellerOf(t.orders, f);
             Unreserve(t.accounts, t.holds, b, ReserveOf(t.orders[b], f.quantity), s, ReserveOf(t.orders[s], f.quantity))
             == (accounts, holds)
    ensures var d, r := DealOf(m, t.orders, f), SettleFill(t, mid, m, f);
            var posted := PostEntries(TouchFillAccounts(accounts, m, d), FillEntries(m, d));
            && r.Ok? == posted.Ok?
            && (r.Ok? ==> r.value.accounts == posted.value && r.value.holds == holds
                          && r.value.journal == t.journal + [LedgerTx(TradeFill, FillEntries(m, d))])
  {
    hide PostEntries, FillEntries, TouchFillAccounts, Unreserve, ReserveOf, Fee, Notional, ApplyFill;
  }

  /** A settled fill keeps the money invariant, whoever still holds what. */
  lemma FillKeepsMoneyBacked(markets: Markets, t: Tables, mid: MarketId, f: Fill)
    requires Backed(markets, t) && FillKnown(t.orders, mid, f) && FillFitsIn(t.orders, f)
    ensures mid in markets && f.makerOrderId in t.holds && f.takerOrderId in t.holds
    ensures SettleFill(t, mid, markets[mid], f).Ok? ==>
              var t' := SettleFill(t, mid, markets[mid], f).value;
              && Money(t'.accounts, t'.holds, t'.journal)
              && t'.holds == HoldsGiven(t, f)
  {
    hide Money, Backed, FillFitsIn, PostEntries, FillEntries, TouchFillAccounts, Unreserve, Unreserved, SettleFill, ReserveOf, Fee,
      Notional, HoldsGiven, At;
    FillGives(markets, t, mid, f);
    SettlesByPosting(t, mid, markets[mid], f, Unreserved(t, f), HoldsGiven(t, f));
    if SettleFill(t, mid, markets[mid], f).Ok? {
      PostedDealKeepsMoney(Unreserved(t, f), HoldsGiven(t, f), t.journal, markets[mid], DealOf(markets[mid], t.orders, f));
    }
  }

  lemma FillKeepsRows(markets: Markets, t: Tables, mid: MarketId, f: Fill)
    requires Backed(markets, t) && FillKnown(t.orders, mid, f) && FillFitsIn(t.orders, f)
    ensures f.makerOrderId in t.holds && f.takerOrderId in t.holds
    ensures RowsBacked(markets, HoldsGiven(t, f), OrdersAfter(t.orders, f))
    ensures AllOnward(t.orders, OrdersAfter(t.orders, f)) && |OrdersAfter(t.orders, f)| == |t.orders|
    ensures forall i: OrderId | i < |t.orders| ::
              Room(OrdersAfter(t.orders, f)[i]) ==
              Room(t.orders[i]) - if i == f.makerOrderId || i == f.takerOrderId then f.quantity else 0.0
  {
    FillRow(markets, t, mid, f, f.makerOrderId);
    FillRow(markets, t, mid, f, f.takerOrderId);
    hide Booked, TradesFit, TradesValid, RowValid, HoldBacks, ReserveOf, Room, Given, ApplyFillToOrder;
    var orders', holds' := OrdersAfter(t.orders, f), HoldsGiven(t, f);
    forall i: OrderId | i < |orders'| ensures RowBacked(markets, holds', orders', i) {
      assert RowBacked(markets, t.holds, t.orders, i);
    }
  }

  /** A settled fill keeps the tables backed and takes its quantity off the room of its two rows, whether
      they are still live and funded or not. */
  lemma FillKeepsBacked(markets: Markets, t: Tables, mid: MarketId, f: Fill)
    requires Backed(markets, t) && FillKnown(t.orders, mid, f) && WithinLimit(t.orders, f) && FillFitsIn(t.orders, f)
    ensures mid in markets
    ensures SettleFill(t, mid, markets[mid], f).Ok? ==>
              var t' := SettleFill(t, mid, markets[mid], f).value;
              && Backed(markets, t') && t'.orders == OrdersAfter(t.orders, f) && AllOnward(t.orders, t'.orders)
              && |t'.orders| == |t.orders|
              && (forall i: OrderId | i < |t.orders| ::
                    Room(t'.orders[i]) == Room(t.orders[i]) - if i == f.makerOrderId || i == f.takerOrderId then f.quantity else 0.0)
  {
    FillKeepsMoneyBacked(markets, t, mid, f);
    FillKeepsRows(markets, t, mid, f);
    var m := markets[mid];
    if SettleFill(t, mid, m, f).Ok? {
      var t' := SettleFill(t, mid, m, f).value;
      var tr := TradeOf(mid, f, DealOf(m, t.orders, f), t.orders[f.makerOrderId].side == Buy);
      assert t'.orders == OrdersAfter(t.orders, f) && t'.trades == t.trades + [tr];
      hide SettleFill, Money, RowsBacked, Reconciled, TradesFit, Onward, TradesValid, OrdersAfter, HoldsGiven, Room;
      FillKeepsTrades(markets, t.orders, t.trades, mid, f, tr);
      FillKeepsReconciled(markets, t, mid, f);
      FillIsRecorded(markets, t, mid, f, tr);
    }
  }

  // ---------------------------------------------------------------------------
  // When a fill settles
  // ---------------------------------------------------------------------------

  /** Whatever became of its orders since it was matched, a fill settles if and only if no fee takes a whole
      receipt and each side can pay out of what it has available and what its order still holds. */
  lemma FillSettlesBackedIff(markets: Markets, t: Tables, mid: MarketId, f: Fill)
    requires Backed(markets, t) && FillKnown(t.orders, mid, f) && FillFitsIn(t.orders, f)
    ensures mid in markets && f.makerOrderId in t.holds && f.takerOrderId in t.holds
    ensures var b, s, m := BuyerOf(t.orders, f), SellerOf(t.orders, f), markets[mid];
            SettleFill(t, mid, m, f).Ok? <==>
              && Chargeable(DealOf(m, t.orders, f))
              && Means(t, b, UserKey(t.orders[b].userId, m.quote), f.quantity) >= f.quoteAmount
              && Means(t, s, UserKey(t.orders[s].userId, m.base), f.quantity) >= f.quantity
  {
    hide Money, RowsBacked, TradesFit, TradesValid, Booked, PostEntries, FillEntries, TouchFillAccounts, Unreserve, Unreserved, SettleFill,
      ReserveOf, Fee, Notional, HoldsGiven, At, Means, Chargeable, FillFitsIn, Flow;
    FillGives(markets, t, mid, f);
    FillPayers(markets, t, mid, f);
    SettlesByPosting(t, mid, markets[mid], f, Unreserved(t, f), HoldsGiven(t, f));
    MoveDeal(Unreserved(t, f), HoldsGiven(t, f), t.journal, markets[mid], DealOf(markets[mid], t.orders, f));
  }

  /** A buyer's reserve for a quantity covers any price within its limit. */
  lemma ReserveCovers(r: OrderRow, f: Fill)
    requires r.side == Buy && f.price <= r.price && f.quantity > 0.0 && f.quoteAmount == Notional(f.price, f.quantity)
    ensures ReserveOf(r, f.quantity) >= f.quoteAmount
  {
    assert r.price * f.quantity - f.price * f.quantity == (r.price - f.price) * f.quantity;
  }

  /** In any interleaving, a fill of two orders that still hold their reserves cannot lack funds, unless the
      taker is a market buy. */
  lemma HeldFillSettles(markets: Markets, t: Tables, mid: MarketId, f: Fill)
    requires Backed(markets, t) && FillKnown(t.orders, mid, f) && FillFitsIn(t.orders, f) && WithinLimit(t.orders, f)
    requires mid in markets && Chargeable(DealOf(markets[mid], t.orders, f))
    requires f.makerOrderId in t.holds && t.holds[f.makerOrderId].status == Active
    requires f.takerOrderId in t.holds && t.holds[f.takerOrderId].status == Active
    requires t.orders[f.takerOrderId].side == Sell || t.orders[f.takerOrderId].orderType == Limit
    ensures SettleFill(t, mid, markets[mid], f).Ok?
  {
    hide Backed, FillFitsIn, Chargeable, SettleFill, ReserveOf, Notional, At;
    FillSettlesBackedIff(markets, t, mid, f);
    FillPayers(markets, t, mid, f);
    var b, s, m := BuyerOf(t.orders, f), SellerOf(t.orders, f), markets[mid];
    UserHasNoDebt(markets, t, UserKey(t.orders[b].userId, m.quote));
    UserHasNoDebt(markets, t, UserKey(t.orders[s].userId, m.base));
    ReserveCovers(t.orders[b], f);
    assert ReserveOf(t.orders[s], f.quantity) == f.quantity by { SellerReserve(t.orders[s], f.quantity); }
  }

  lemma SellerReserve(r: OrderRow, quantity: real)
    requires r.side == Sell
    ensures ReserveOf(r, quantity) == quantity
  {
  }

  lemma UserHasNoDebt(markets: Markets, t: Tables, k: AccountKey)
    requires Backed(markets, t) && k.owner.User?
    ensures At(t.accounts, k).available >= 0.0
  {
    BackedMoney(markets, t);
    AvailableNonNegative(t.accounts, k);
  }
}
