/** The database tables of the trading core and the settlement of one fill. */
module Settlement {
  import opened Types
  import opened Matching
  import opened Ledger
  import opened Holds

  datatype MarketStatus = ActiveMarket | Halted | CancelOnly | Disabled

  datatype Market = Market(
    base: AssetId,
    quote: AssetId,
    tickSize: real,
    quantityStep: real,
    minimumQuantity: real,
    minimumNotional: real,
    makerFee: real,
    takerFee: real,
    status: MarketStatus)

  datatype OrderStatus = Open | PartiallyFilled | Filled | Cancelled

  datatype RejectReason = SelfTradePrevented | NoLiquidity

  datatype OrderRow = OrderRow(
    userId: UserId,
    market: MarketId,
    side: Side,
    orderType: OrderType,
    price: real,
    quantity: real,
    filled: real,
    remaining: real,
    status: OrderStatus,
    rejectReason: Option<RejectReason>)

  datatype Trade = Trade(
    market: MarketId,
    makerOrderId: OrderId,
    takerOrderId: OrderId,
    buyerId: UserId,
    sellerId: UserId,
    price: real,
    quantity: real,
    quoteAmount: real,
    makerFee: real,
    takerFee: real)

  datatype DepositStatus = Pending | Confirmed

  datatype Deposit = Deposit(userId: UserId, asset: AssetId, amount: real, status: DepositStatus)

  datatype Withdrawal = Withdrawal(userId: UserId, asset: AssetId, amount: real)

  /** Rows stand in creation order, so an order's id is its position. */
  datatype Tables = Tables(
    accounts: Accounts,
    holds: Holds,
    journal: seq<LedgerTx>,
    orders: seq<OrderRow>,
    trades: seq<Trade>,
    deposits: seq<Deposit>,
    withdrawals: seq<Withdrawal>)

  /** What an order reserves for `quantity`: quote at its own price for a buy, base for a sell. */
  function Reserve(side: Side, price: real, quantity: real): real {
    if side == Buy then Notional(price, quantity) else quantity
  }

  function ReserveOf(row: OrderRow, quantity: real): real {
    Reserve(row.side, row.price, quantity)
  }

  /** The account an order's funds are reserved on. */
  function LockKey(m: Market, row: OrderRow): AccountKey {
    UserKey(row.userId, if row.side == Buy then m.quote else m.base)
  }

  // ---------------------------------------------------------------------------
  // One fill
  // ---------------------------------------------------------------------------

  /** Who buys, who sells and what each is charged. */
  datatype Deal = Deal(buyer: UserId, seller: UserId, quantity: real, quoteAmount: real, buyerFee: real, sellerFee: real)

  function DealOf(m: Market, orders: seq<OrderRow>, f: Fill): Deal
    requires f.makerOrderId < |orders| && f.takerOrderId < |orders|
  {
    var maker, taker := orders[f.makerOrderId], orders[f.takerOrderId];
    if maker.side == Buy then
      Deal(maker.userId, taker.userId, f.quantity, f.quoteAmount, Fee(f.quantity, m.makerFee), Fee(f.quoteAmount, m.takerFee))
    else
      Deal(taker.userId, maker.userId, f.quantity, f.quoteAmount, Fee(f.quantity, m.takerFee), Fee(f.quoteAmount, m.makerFee))
  }

  function TradeOf(mid: MarketId, f: Fill, d: Deal, makerIsBuyer: bool): Trade {
    Trade(mid, f.makerOrderId, f.takerOrderId, d.buyer, d.seller, f.price, f.quantity, f.quoteAmount,
          if makerIsBuyer then d.buyerFee else d.sellerFee,
          if makerIsBuyer then d.sellerFee else d.buyerFee)
  }

  /** A receipt, less the fee when there is one. */
  function Credits(receiver: AccountKey, feeAccount: AccountKey, amount: real, fee: real): seq<Entry> {
    if fee > 0.0 then [Entry(receiver, Credit, amount - fee), Entry(feeAccount, Credit, fee)]
    else [Entry(receiver, Credit, amount)]
  }

  /** The legs of a TRADE_FILL: both sides pay, then each receives what the other paid. */
  function FillEntries(m: Market, d: Deal): seq<Entry> {
    [Entry(UserKey(d.buyer, m.quote), Debit, d.quoteAmount), Entry(UserKey(d.seller, m.base), Debit, d.quantity)]
    + Credits(UserKey(d.seller, m.quote), SystemKey(FeeRevenue, m.quote), d.quoteAmount, d.sellerFee)
    + Credits(UserKey(d.buyer, m.base), SystemKey(FeeRevenue, m.base), d.quantity, d.buyerFee)
  }

  function TouchFillAccounts(accounts: Accounts, m: Market, d: Deal): Accounts {
    Touch(Touch(Touch(Touch(Touch(Touch(accounts,
      UserKey(d.buyer, m.base)), UserKey(d.buyer, m.quote)),
      UserKey(d.seller, m.base)), UserKey(d.seller, m.quote)),
      SystemKey(FeeRevenue, m.base)), SystemKey(FeeRevenue, m.quote))
  }

  function ApplyFillToOrder(row: OrderRow, quantity: real): OrderRow {
    row.(filled := row.filled + quantity,
         remaining := row.remaining - quantity,
         status := if row.remaining - quantity <= 0.0 then Filled else PartiallyFilled)
  }

  function ApplyFill(orders: seq<OrderRow>, id: OrderId, quantity: real): seq<OrderRow>
    requires id < |orders|
  {
    orders[id := ApplyFillToOrder(orders[id], quantity)]
  }

  function BuyerOf(orders: seq<OrderRow>, f: Fill): OrderId
    requires f.makerOrderId < |orders|
  {
    if orders[f.makerOrderId].side == Buy then f.makerOrderId else f.takerOrderId
  }

  function SellerOf(orders: seq<OrderRow>, f: Fill): OrderId
    requires f.makerOrderId < |orders|
  {
    if orders[f.makerOrderId].side == Buy then f.takerOrderId else f.makerOrderId
  }

  /** Gives back the slices that the buyer's and the seller's hold set aside. */
  function Unreserve(accounts: Accounts, holds: Holds, b: OrderId, rb: real, s: OrderId, rs: real): (Accounts, Holds) {
    var (accounts', holds') := ReduceHold(accounts, holds, b, rb);
    ReduceHold(accounts', holds', s, rs)
  }

  /** Unreserves what the fill needs on both sides, moves it, and books the fill on both orders. */
  function SettleFill(t: Tables, mid: MarketId, m: Market, f: Fill): Result<Tables> {
    if f.makerOrderId >= |t.orders| || f.takerOrderId >= |t.orders| then Err(NotFound) else
    var b, s := BuyerOf(t.orders, f), SellerOf(t.orders, f);
    var (accounts', holds') :=
      Unreserve(t.accounts, t.holds, b, ReserveOf(t.orders[b], f.quantity), s, ReserveOf(t.orders[s], f.quantity));
    var deal := DealOf(m, t.orders, f);
    var posted := PostEntries(TouchFillAccounts(accounts', m, deal), FillEntries(m, deal));
    if posted.Err? then Err(posted.error) else
    Ok(t.(accounts := posted.value,
          holds := holds',
          journal := t.journal + [LedgerTx(TradeFill, FillEntries(m, deal))],
          orders := ApplyFill(ApplyFill(t.orders, f.makerOrderId, f.quantity), f.takerOrderId, f.quantity),
          trades := t.trades + [TradeOf(mid, f, deal, t.orders[f.makerOrderId].side == Buy)]))
  }

  /** Settles the fills of one submission in order; the transaction fails with the first that fails. */
  function SettleAll(t: Tables, mid: MarketId, m: Market, fills: seq<Fill>): Result<Tables>
    decreases |fills|
  {
    if fills == [] then Ok(t) else
    var first := SettleFill(t, mid, m, fills[0]);
    if first.Err? then first else SettleAll(first.value, mid, m, fills[1..])
  }

  lemma NothingToSettle(t: Tables, mid: MarketId, m: Market)
    ensures SettleAll(t, mid, m, []) == Ok(t)
  {
  }

  // ---------------------------------------------------------------------------
  // What a deal moves
  // ---------------------------------------------------------------------------

  ghost function On(k: AccountKey, account: AccountKey, amount: real): real {
    if k == account then amount else 0.0
  }

  /** What a deal adds to account `k`. */
  ghost function Flow(m: Market, d: Deal, k: AccountKey): real {
    On(k, UserKey(d.buyer, m.quote), -d.quoteAmount)
    + On(k, UserKey(d.seller, m.base), -d.quantity)
    + On(k, UserKey(d.seller, m.quote), d.quoteAmount - Max(0.0, d.sellerFee))
    + On(k, SystemKey(FeeRevenue, m.quote), Max(0.0, d.sellerFee))
    + On(k, UserKey(d.buyer, m.base), d.quantity - Max(0.0, d.buyerFee))
    + On(k, SystemKey(FeeRevenue, m.base), Max(0.0, d.buyerFee))
  }

  lemma CreditsNet(receiver: AccountKey, feeAccount: AccountKey, amount: real, fee: real)
    ensures var es := Credits(receiver, feeAccount, amount, fee);
            && (forall k :: EntriesNet(es, k) ==
                            On(k, receiver, amount - Max(0.0, fee)) + On(k, feeAccount, Max(0.0, fee)))
            && Total(es, Credit) == amount && Total(es, Debit) == 0.0
            && (receiver.asset == feeAccount.asset ==>
                  forall asset :: AssetNet(es, asset) == if asset == receiver.asset then amount else 0.0)
            && (forall e | e in es :: e.direction == Credit && e.account in {receiver, feeAccount})
            && (AllPositive(es) <==> fee < amount && amount > 0.0)
  {
    var whole := Entry(receiver, Credit, amount);
    var net, charge := Entry(receiver, Credit, amount - fee), Entry(feeAccount, Credit, fee);
    NetsOne(whole);
    NetsOne(net);
    NetsOne(charge);
    NetsTwo(net, charge);
    if fee > 0.0 {
      assert net in Credits(receiver, feeAccount, amount, fee);
    } else {
      assert whole in Credits(receiver, feeAccount, amount, fee);
    }
  }

  /** The legs of a fill move exactly the deal and balance in each asset by themselves. */
  lemma FillEntriesNet(m: Market, d: Deal)
    ensures forall k :: EntriesNet(FillEntries(m, d), k) == Flow(m, d, k)
    ensures PerAsset(FillEntries(m, d))
    ensures Total(FillEntries(m, d), Debit) == Total(FillEntries(m, d), Credit)
  {
    var d1, d2 := Entry(UserKey(d.buyer, m.quote), Debit, d.quoteAmount), Entry(UserKey(d.seller, m.base), Debit, d.quantity);
    var quote := Credits(UserKey(d.seller, m.quote), SystemKey(FeeRevenue, m.quote), d.quoteAmount, d.sellerFee);
    var base := Credits(UserKey(d.buyer, m.base), SystemKey(FeeRevenue, m.base), d.quantity, d.buyerFee);
    CreditsNet(UserKey(d.seller, m.quote), SystemKey(FeeRevenue, m.quote), d.quoteAmount, d.sellerFee);
    CreditsNet(UserKey(d.buyer, m.base), SystemKey(FeeRevenue, m.base), d.quantity, d.buyerFee);
    hide Credits;
    NetsOne(d1);
    NetsOne(d2);
    NetsTwo(d1, d2);
    NetsConcat([d1, d2], quote);
    NetsConcat([d1, d2] + quote, base);
  }
}
