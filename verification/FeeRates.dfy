/** What a fill costs and brings each side: the maker rate is the resting order's and the taker rate the
    incoming one's, whichever of them buys, and each is charged on what that side receives. */
module FeeRates {
  import opened Types
  import opened BookSide
  import opened Matching
  import opened EngineSpec
  import opened Ledger
  import opened Holds
  import opened Settlement
  import opened FillProofs
  import opened Books
  import opened Exchange
  import opened Transfers
  import opened Backing
  import opened Interleaving
  import opened Safety
  import opened OrderHistory
  import opened AgreementRuns
  import opened ExactRuns

  /** What an order gives for a quantity at a price, and what it gets. */
  function Gives(r: OrderRow, price: real, quantity: real): real {
    if r.side == Buy then price * quantity else quantity
  }

  function Gets(r: OrderRow, price: real, quantity: real): real {
    if r.side == Buy then quantity else price * quantity
  }

  /** The accounts an order gives from and gets on, and the one its fee goes to. */
  function GivesFrom(m: Market, r: OrderRow): AccountKey {
    UserKey(r.userId, if r.side == Buy then m.quote else m.base)
  }

  function GetsOn(m: Market, r: OrderRow): AccountKey {
    UserKey(r.userId, if r.side == Buy then m.base else m.quote)
  }

  function FeeAccount(m: Market, r: OrderRow): AccountKey {
    SystemKey(FeeRevenue, if r.side == Buy then m.base else m.quote)
  }

  /** What an order's side of a fill adds to account `k`; a fee that is not positive is not charged. */
  ghost function SideMoves(m: Market, r: OrderRow, given: real, got: real, fee: real, k: AccountKey): real {
    var charged := if fee > 0.0 then fee else 0.0;
    (if k == GivesFrom(m, r) then -given else 0.0)
    + (if k == GetsOn(m, r) then got - charged else 0.0)
    + (if k == FeeAccount(m, r) then charged else 0.0)
  }

  /** The same for a fill of a quantity at a price, charged at `rate` on what the order gets. */
  ghost function OrderMoves(m: Market, r: OrderRow, rate: real, price: real, quantity: real, k: AccountKey): real {
    var got := Gets(r, price, quantity);
    SideMoves(m, r, Gives(r, price, quantity), got, got * rate, k)
  }

  /** The trade of a fill: its orders, users, price and quantity, and on each side the fee at that side's rate
      on what that side gets. */
  ghost predicate Charges(orders: seq<OrderRow>, mid: MarketId, m: Market, f: Fill, tr: Trade) {
    && f.makerOrderId < |orders| && f.takerOrderId < |orders|
    && var maker, taker := orders[f.makerOrderId], orders[f.takerOrderId];
    && tr.market == mid && tr.makerOrderId == f.makerOrderId && tr.takerOrderId == f.takerOrderId
    && tr.buyerId == (if maker.side == Buy then maker.userId else taker.userId)
    && tr.sellerId == (if maker.side == Buy then taker.userId else maker.userId)
    && tr.price == maker.price && tr.quantity == f.quantity && tr.quoteAmount == maker.price * f.quantity
    && tr.makerFee == Gets(maker, maker.price, f.quantity) * m.makerFee
    && tr.takerFee == Gets(taker, maker.price, f.quantity) * m.takerFee
  }

  /** A settled fill appends one trade, which charges each side at its own rate. */
  lemma FillCharges(t: Tables, mid: MarketId, m: Market, f: Fill)
    requires FillKnown(t.orders, mid, f) && SettleFill(t, mid, m, f).Ok?
    ensures var trades := SettleFill(t, mid, m, f).value.trades;
            |trades| == |t.trades| + 1 && trades[..|t.trades|] == t.trades && Charges(t.orders, mid, m, f, trades[|t.trades|])
  {
    hide SettleFill, FillEntries, Balanced, RecordedDeal, OrdersAfter;
    FillWrites(t, mid, m, f);
  }

  // ---------------------------------------------------------------------------
  // The accounts
  // ---------------------------------------------------------------------------

  lemma GivingBackKeepsBalances(accounts: Accounts, holds: Holds, b: OrderId, rb: real, s: OrderId, rs: real, k: AccountKey)
    ensures Balance(Unreserve(accounts, holds, b, rb, s, rs).0, k) == Balance(accounts, k)
  {
  }

  lemma SidesMoveTheDeal(m: Market, d: Deal, buyer: OrderRow, seller: OrderRow, k: AccountKey)
    requires buyer.side == Buy && seller.side == Sell && buyer.userId == d.buyer && seller.userId == d.seller
    ensures Flow(m, d, k) ==
            SideMoves(m, buyer, d.quoteAmount, d.quantity, d.buyerFee, k) + SideMoves(m, seller, d.quantity, d.quoteAmount, d.sellerFee, k)
  {
  }

  lemma DealMoves(m: Market, orders: seq<OrderRow>, mid: MarketId, f: Fill, k: AccountKey)
    requires FillKnown(orders, mid, f)
    ensures var maker, taker := orders[f.makerOrderId], orders[f.takerOrderId];
            Flow(m, DealOf(m, orders, f), k) ==
            OrderMoves(m, maker, m.makerFee, f.price, f.quantity, k) + OrderMoves(m, taker, m.takerFee, f.price, f.quantity, k)
  {
    hide Flow, SideMoves, Fee;
    var b, s, d := BuyerOf(orders, f), SellerOf(orders, f), DealOf(m, orders, f);
    FeeIsShare(f.quantity, m.makerFee);
    FeeIsShare(f.quantity, m.takerFee);
    FeeIsShare(f.quoteAmount, m.makerFee);
    FeeIsShare(f.quoteAmount, m.takerFee);
    SidesMoveTheDeal(m, d, orders[b], orders[s], k);
    var maker, taker := orders[f.makerOrderId], orders[f.takerOrderId];
    if maker.side == Buy {
      OrderMovesIs(m, maker, m.makerFee, f.price, f.quantity, k, f.quoteAmount, f.quantity, d.buyerFee);
      OrderMovesIs(m, taker, m.takerFee, f.price, f.quantity, k, f.quantity, f.quoteAmount, d.sellerFee);
    } else {
      OrderMovesIs(m, maker, m.makerFee, f.price, f.quantity, k, f.quantity, f.quoteAmount, d.sellerFee);
      OrderMovesIs(m, taker, m.takerFee, f.price, f.quantity, k, f.quoteAmount, f.quantity, d.buyerFee);
    }
  }

  lemma OrderMovesIs(
    m: Market, r: OrderRow, rate: real, price: real, quantity: real, k: AccountKey, given: real, got: real, fee: real)
    requires given == Gives(r, price, quantity) && got == Gets(r, price, quantity) && fee == got * rate
    ensures OrderMoves(m, r, rate, price, quantity, k) == SideMoves(m, r, given, got, fee, k)
  {
  }

  lemma FeeIsShare(amount: real, rate: real)
    ensures Fee(amount, rate) == amount * rate
  {
  }

  /** A settled fill changes every balance by exactly what its two orders give and get, each charged at its own
      rate, and FEE_REVENUE by those charges. */
  lemma FillPaysEachSide(t: Tables, mid: MarketId, m: Market, f: Fill, k: AccountKey)
    requires FillKnown(t.orders, mid, f) && SettleFill(t, mid, m, f).Ok?
    ensures var maker, taker := t.orders[f.makerOrderId], t.orders[f.takerOrderId];
            Balance(SettleFill(t, mid, m, f).value.accounts, k) ==
            Balance(t.accounts, k)
            + OrderMoves(m, maker, m.makerFee, maker.price, f.quantity, k) + OrderMoves(m, taker, m.takerFee, maker.price, f.quantity, k)
  {
    var b, s, d := BuyerOf(t.orders, f), SellerOf(t.orders, f), DealOf(m, t.orders, f);
    var rb, rs := ReserveOf(t.orders[b], f.quantity), ReserveOf(t.orders[s], f.quantity);
    var (accounts, holds) := Unreserve(t.accounts, t.holds, b, rb, s, rs);
    SettlesByPosting(t, mid, m, f, accounts, holds);
    GivingBackKeepsBalances(t.accounts, t.holds, b, rb, s, rs, k);
    DealMoves(m, t.orders, mid, f, k);
    PostedDealMoves(accounts, m, d, k);
  }

  lemma PostedDealMoves(accounts: Accounts, m: Market, d: Deal, k: AccountKey)
    requires PostEntries(TouchFillAccounts(accounts, m, d), FillEntries(m, d)).Ok?
    ensures Balance(PostEntries(TouchFillAccounts(accounts, m, d), FillEntries(m, d)).value, k) == Balance(accounts, k) + Flow(m, d, k)
  {
    var touched := TouchFillAccounts(accounts, m, d);
    TouchedAlike(accounts, m, d, k);
    hide FillEntries, TouchFillAccounts, Flow, At;
    FillEntriesNet(m, d);
    ApplyAllEffect(touched, FillEntries(m, d));
  }

  lemma TouchedAlike(accounts: Accounts, m: Market, d: Deal, k: AccountKey)
    ensures At(TouchFillAccounts(accounts, m, d), k) == At(accounts, k)
  {
  }

  // ---------------------------------------------------------------------------
  // Submissions and runs
  // ---------------------------------------------------------------------------

  /** The trades a settlement adds, one per fill, in order. */
  ghost predicate AllCharged(orders: seq<OrderRow>, mid: MarketId, m: Market, fills: seq<Fill>, trades: seq<Trade>, trades': seq<Trade>) {
    && |trades'| == |trades| + |fills| && trades'[..|trades|] == trades
    && forall j | 0 <= j < |fills| :: Charges(orders, mid, m, fills[j], trades'[|trades| + j])
  }

  lemma FillMovesOn(t: Tables, mid: MarketId, m: Market, f: Fill)
    requires FillKnown(t.orders, mid, f) && SettleFill(t, mid, m, f).Ok?
    ensures var orders' := SettleFill(t, mid, m, f).value.orders; |orders'| == |t.orders| && AllOnward(t.orders, orders')
  {
    hide SettleFill, FillEntries, Balanced, RecordedDeal;
    FillWrites(t, mid, m, f);
  }

  lemma ChargesStay(orders: seq<OrderRow>, orders': seq<OrderRow>, mid: MarketId, m: Market, f: Fill, tr: Trade)
    requires Charges(orders', mid, m, f, tr) && AllOnward(orders, orders') && |orders'| == |orders|
    ensures Charges(orders, mid, m, f, tr)
  {
    assert Onward(orders[f.makerOrderId], orders'[f.makerOrderId]) && Onward(orders[f.takerOrderId], orders'[f.takerOrderId]);
  }

  lemma ChargedCons(
    orders: seq<OrderRow>, mid: MarketId, m: Market, f: Fill, rest: seq<Fill>, trades: seq<Trade>, trades1: seq<Trade>, trades2: seq<Trade>)
    requires |trades1| == |trades| + 1 && trades1[..|trades|] == trades && Charges(orders, mid, m, f, trades1[|trades|])
    requires AllCharged(orders, mid, m, rest, trades1, trades2)
    ensures AllCharged(orders, mid, m, [f] + rest, trades, trades2)
  {
    hide Charges;
    assert trades2[..|trades|] == trades2[..|trades1|][..|trades|];
    forall j | 0 <= j < |[f] + rest| ensures Charges(orders, mid, m, ([f] + rest)[j], trades2[|trades| + j]) {
      if j == 0 {
        assert trades2[|trades|] == trades2[..|trades1|][|trades|];
      } else {
        assert Charges(orders, mid, m, rest[j - 1], trades2[|trades1| + (j - 1)]);
      }
    }
  }

  lemma {:induction false} SettlingCharges(t: Tables, mid: MarketId, m: Market, fills: seq<Fill>)
    requires AllKnown(t.orders, mid, fills) && SettleAll(t, mid, m, fills).Ok?
    ensures AllCharged(t.orders, mid, m, fills, t.trades, SettleAll(t, mid, m, fills).value.trades)
    decreases |fills|
  {
    hide SettleFill, Charges, AllKnown, Onward;
    if fills != [] {
      var f, rest := fills[0], fills[1..];
      assert fills == [f] + rest;
      FirstKnown(t.orders, mid, f, rest);
      var t1 := SettleFill(t, mid, m, f).value;
      FillCharges(t, mid, m, f);
      FillMovesOn(t, mid, m, f);
      AllKnownStays(t.orders, t1.orders, mid, rest);
      SettlingCharges(t1, mid, m, rest);
      var t2 := SettleAll(t1, mid, m, rest).value;
      forall j | 0 <= j < |rest| ensures Charges(t.orders, mid, m, rest[j], t2.trades[|t1.trades| + j]) {
        ChargesStay(t.orders, t1.orders, mid, m, rest[j], t2.trades[|t1.trades| + j]);
      }
      ChargedCons(t.orders, mid, m, f, rest, t.trades, t1.trades, t2.trades);
    }
  }

  lemma FirstKnown(orders: seq<OrderRow>, mid: MarketId, f: Fill, rest: seq<Fill>)
    requires AllKnown(orders, mid, [f] + rest)
    ensures FillKnown(orders, mid, f) && AllKnown(orders, mid, rest)
  {
    hide FillKnown, WithinLimit;
    var fills := [f] + rest;
    assert f in fills && forall g | g in rest :: g in fills;
  }

  /** The whole settling transaction charges every fill at the rates of the market row it is given. */
  lemma SettlementCharges(t: Tables, mid: MarketId, m: Market, id: OrderId, result: SubmitResult)
    requires AllKnown(t.orders, mid, result.fills) && Settle(t, mid, m, id, result).Ok?
    ensures AllCharged(t.orders, mid, m, result.fills, t.trades, Settle(t, mid, m, id, result).value.trades)
  {
    hide SettleAll, AllKnown, AllCharged, ReduceHold;
    SettlingCharges(t, mid, m, result.fills);
  }

  /** A submission that goes through adds one trade per fill of its match, each side charged at its rate in the
      market row read when the order was placed; one that fails, and every other operation, adds none. */
  lemma SubmissionCharges(s: State, id: OrderId)
    requires Sound(Quiet(s)) && id in s.pending
    ensures id < |s.tables.orders| && s.tables.orders[id].market in s.engines
    ensures var mid, fills, r := s.tables.orders[id].market, OutcomeOf(s, id).fills, Exec(s, SubmitOrder(id));
            if r.error.None? then AllCharged(s.tables.orders, mid, s.pending[id], fills, s.tables.trades, r.state.tables.trades)
            else r.state.tables.trades == s.tables.trades
  {
    hide Sound, Match, AllKnown, AllCharged, Settle, ApplySubmit;
    PendingIsWhole(Quiet(s), id);
    OutcomeKnown(s, id);
    SubmitCommits(s, id);
    SubmitIsExec(s, id);
    SettlesTheOutcome(s, id);
    var row := s.tables.orders[id];
    if SettlementOf(s, id).Ok? {
      SettlementCharges(s.tables, row.market, s.pending[id], id, ResultOf(s, id));
    }
  }

  lemma SettlesTheOutcome(s: State, id: OrderId)
    requires id in s.pending && id < |s.tables.orders| && s.tables.orders[id].market in s.engines
    ensures SettlementOf(s, id) == Settle(s.tables, s.tables.orders[id].market, s.pending[id], id, ResultOf(s, id))
    ensures ResultOf(s, id).fills == OutcomeOf(s, id).fills
  {
    hide Settle, Match;
  }

  lemma OnlySubmissionsTrade(s: State, op: Op)
    requires !op.SubmitOrder?
    ensures Exec(s, op).state.tables.trades == s.tables.trades
  {
    hide ResolvePrice, AcceptsQuantity, ReleaseHold, EngineSpec.Cancel, PostEntries, TransferEntries, Rebuild;
  }

  /** The market row read at placement stays with the order while it waits. */
  lemma PendingKept(s: State, op: Op, id: OrderId)
    requires Sound(Quiet(s)) && id < |s.tables.orders|
    ensures var s' := Exec(s, op).state;
            && id < |s'.tables.orders| && s'.tables.orders[id].market == s.tables.orders[id].market
            && (id in s'.pending ==> id in s.pending && s'.pending[id] == s.pending[id])
  {
    hide Sound, ApplyCancel, PostEntries, CreateAndLock, EngineSpec.Submit, Settle, Rebuild;
    StepKeepsSound(s, op);
    assert Onward(s.tables.orders[id], Exec(s, op).state.tables.orders[id]);
    PendingAfter(s, op, id);
  }

  lemma PendingAfter(s: State, op: Op, id: OrderId)
    requires id < |s.tables.orders|
    ensures id in Exec(s, op).state.pending ==> id in s.pending && Exec(s, op).state.pending[id] == s.pending[id]
  {
    hide ResolvePrice, AcceptsQuantity, ReleaseHold, EngineSpec.Cancel, PostEntries, TransferEntries, Rebuild, CreateAndLock,
      EngineSpec.Submit, Settle;
  }

  lemma {:induction false} PendingKeptOverRun(s: State, ops: seq<Op>, id: OrderId)
    requires Sound(Quiet(s)) && id < |s.tables.orders|
    ensures var s' := Run(s, ops);
            && id < |s'.tables.orders| && s'.tables.orders[id].market == s.tables.orders[id].market
            && (id in s'.pending ==> id in s.pending && s'.pending[id] == s.pending[id])
    decreases |ops|
  {
    hide Sound, Exec;
    if ops != [] {
      var s' := Exec(s, ops[0]).state;
      PendingKept(s, ops[0], id);
      StepKeepsSound(s, ops[0]);
      PendingKeptOverRun(s', ops[1..], id);
    }
  }

  lemma PlacedWaits(s: State, userId: UserId, r: Request)
    requires Exec(s, Place(userId, r)).error.None?
    ensures var s', n := Exec(s, Place(userId, r)).state, |s.tables.orders|;
            && r.market in s.markets && n in s'.pending && s'.pending[n] == s.markets[r.market]
            && n < |s'.tables.orders| && s'.tables.orders[n].market == r.market
  {
    hide ResolvePrice, AcceptsQuantity;
  }

  /** In every run: an order placed in some reachable state and submitted after whatever else has happened,
      a change of fees included, is charged as the taker, and charges its makers, at the rates its market had
      when it was placed. */
  lemma EveryRunChargesItsRates(markets: Markets, before: seq<Op>, userId: UserId, r: Request, between: seq<Op>)
    requires Exec(Run(Init(markets), before), Place(userId, r)).error.None?
    requires |Run(Init(markets), before).tables.orders| in
             Run(Exec(Run(Init(markets), before), Place(userId, r)).state, between).pending
    ensures var s0 := Run(Init(markets), before);
            var s, n := Run(Exec(s0, Place(userId, r)).state, between), |s0.tables.orders|;
            var late := Exec(s, SubmitOrder(n));
            && r.market in s0.markets && n < |s.tables.orders| && s.tables.orders[n].market == r.market && r.market in s.engines
            && (late.error.None? ==>
                  AllCharged(s.tables.orders, r.market, s0.markets[r.market], OutcomeOf(s, n).fills, s.tables.trades,
                             late.state.tables.trades))
  {
    hide Sound, Exec, Run, AllCharged, OutcomeOf;
    EveryRunIsSound(markets, before);
    var s0 := Run(Init(markets), before);
    PlacedWaits(s0, userId, r);
    StepKeepsSound(s0, Place(userId, r));
    var s1 := Exec(s0, Place(userId, r)).state;
    PendingKeptOverRun(s1, between, |s0.tables.orders|);
    RunKeepsSound(s1, between);
    SubmissionCharges(Run(s1, between), |s0.tables.orders|);
  }
}
