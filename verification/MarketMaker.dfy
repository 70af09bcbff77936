/** The market maker's ladder, and why its own quotes never meet. */
module MarketMakers {
  import opened Types
  import opened BookSide
  import opened Matching
  import opened EngineSpec
  import opened Ledger
  import opened Holds
  import opened Settlement
  import opened FillProofs
  import opened Books
  import opened Submission
  import opened Exchange
  import ExchangeSpec = Exchange
  import opened Transfers
  import opened Safety
  import opened OrderHistory
  import opened Agreement
  import opened AgreementRuns
  import opened Services
  import opened MatchingServices
  import opened OrdersServices
  import opened Interleaving

  // ---------------------------------------------------------------------------
  // The ladder
  // ---------------------------------------------------------------------------

  const MARKET_MAKER_LEVEL_OFFSETS_BPS: seq<real> := [2.0, 5.0, 10.0]

  /** `k` ticks. */
  function Ticks(k: int, tick: real): real {
    k as real * tick
  }

  function RoundDownToTick(price: real, tick: real): real
    requires tick > 0.0
  {
    Ticks((price / tick).Floor, tick)
  }

  function RoundUpToTick(price: real, tick: real): real
    requires tick > 0.0
  {
    Ticks(-((-(price / tick)).Floor), tick)
  }

  function BidPrice(reference: real, tick: real, bps: real): real
    requires tick > 0.0
  {
    RoundDownToTick(reference * (1.0 - bps / 10000.0), tick)
  }

  function AskPrice(reference: real, tick: real, bps: real): real
    requires tick > 0.0
  {
    RoundUpToTick(reference * (1.0 + bps / 10000.0), tick)
  }

  lemma TicksAligned(k: int, tick: real)
    requires tick > 0.0
    ensures IsMultipleOf(Ticks(k, tick), tick)
  {
    assert Ticks(k, tick) / tick == k as real;
  }

  lemma NotionalOrder(x: real, y: real, tick: real)
    requires tick > 0.0
    ensures x <= y ==> Notional(x, tick) <= Notional(y, tick)
    ensures x < y ==> Notional(x, tick) < Notional(y, tick)
    ensures Notional(x + 1.0, tick) == Notional(x, tick) + tick
    ensures Notional(0.0, tick) == 0.0
  {
    assert Notional(y, tick) - Notional(x, tick) == Notional(y - x, tick);
    if x < y {
      PositiveNotional(y - x, tick);
    }
  }

  lemma PositiveNotional(x: real, y: real)
    requires x > 0.0 && y > 0.0
    ensures Notional(x, y) > 0.0
  {
  }

  /** The whole ticks in a price of `q` ticks. */
  lemma WholeTicks(q: real, tick: real, price: real)
    requires tick > 0.0 && Notional(q, tick) == price
    ensures Ticks(q.Floor, tick) <= price < Ticks(q.Floor, tick) + tick
    ensures price >= 0.0 ==> q.Floor >= 0
  {
    assert Ticks(q.Floor, tick) == Notional(q.Floor as real, tick);
    hide Ticks, Notional;
    NotionalOrder(q.Floor as real, q, tick);
    NotionalOrder(q, q.Floor as real + 1.0, tick);
    NotionalOrder(q, 0.0, tick);
  }

  lemma FloorTicks(price: real, tick: real)
    requires tick > 0.0
    ensures Ticks((price / tick).Floor, tick) <= price < Ticks((price / tick).Floor, tick) + tick
    ensures price >= 0.0 ==> (price / tick).Floor >= 0
  {
    assert Notional(price / tick, tick) == price;
    hide Ticks, Notional;
    WholeTicks(price / tick, tick, price);
  }

  lemma NegativeTicks(k: int, price: real, tick: real)
    requires tick > 0.0
    ensures Ticks(-k, tick) == -Ticks(k, tick) && -(price / tick) == (-price) / tick
    ensures k >= 0 ==> Ticks(k, tick) >= 0.0
  {
    var x, y := price / tick, (-price) / tick;
    assert (x + y) * tick == x * tick + y * tick == 0.0;
  }

  /** Rounding down gives the largest multiple of the tick that is not above the price, rounding up the
      smallest that is not below it. */
  lemma RoundsToTick(price: real, tick: real)
    requires tick > 0.0
    ensures IsMultipleOf(RoundDownToTick(price, tick), tick) && IsMultipleOf(RoundUpToTick(price, tick), tick)
    ensures RoundDownToTick(price, tick) <= price < RoundDownToTick(price, tick) + tick
    ensures RoundUpToTick(price, tick) - tick < price <= RoundUpToTick(price, tick)
    ensures price >= 0.0 ==> RoundDownToTick(price, tick) >= 0.0
  {
    hide IsMultipleOf, Ticks;
    var down, negated := (price / tick).Floor, (-(price / tick)).Floor;
    FloorTicks(price, tick);
    FloorTicks(-price, tick);
    NegativeTicks(down, price, tick);
    NegativeTicks(negated, price, tick);
    TicksAligned(down, tick);
    TicksAligned(-negated, tick);
  }

  lemma OffsetBrackets(reference: real, offset: real)
    requires reference > 0.0 && 0.0 < offset < 1.0
    ensures 0.0 < reference * (1.0 - offset) < reference < reference * (1.0 + offset)
  {
    assert reference * offset > 0.0 && reference * (1.0 - offset) > 0.0;
    assert reference * (1.0 - offset) == reference - reference * offset;
    assert reference * (1.0 + offset) == reference + reference * offset;
  }

  /** Whatever the positive reference price and the tick, every bid of the ladder is aligned, not
      negative and below the reference, every ask aligned and above it; rounding costs less than a tick. */
  lemma LadderBracketsReference(reference: real, tick: real, bps: real)
    requires reference > 0.0 && tick > 0.0 && bps in MARKET_MAKER_LEVEL_OFFSETS_BPS
    ensures var bid, ask := BidPrice(reference, tick, bps), AskPrice(reference, tick, bps);
            && IsMultipleOf(bid, tick) && IsMultipleOf(ask, tick)
            && 0.0 <= bid < reference < ask
            && reference * (1.0 - bps / 10000.0) - tick < bid
            && ask < reference * (1.0 + bps / 10000.0) + tick
  {
    hide IsMultipleOf, RoundDownToTick, RoundUpToTick;
    var offset := bps / 10000.0;
    assert 0.0 < offset < 1.0;
    OffsetBrackets(reference, offset);
    RoundsToTick(reference * (1.0 - offset), tick);
    RoundsToTick(reference * (1.0 + offset), tick);
  }

  /** A relative error of at most one in 10^5; 50 significant digits are far closer. */
  predicate Nearly(x: real, y: real) {
    0.99999 * y <= x <= 1.00001 * y
  }

  lemma QuotientBounds(price: real, tick: real, quotient: real)
    requires tick > 0.0 && price >= 0.0 && Nearly(quotient, price / tick)
    ensures 0.99999 * price <= Notional(quotient, tick) <= 1.00001 * price
    ensures quotient >= 0.0
  {
    var q := price / tick;
    QuotientTimes(price, tick);
    ScaledQuotient(0.99999, q, tick);
    ScaledQuotient(1.00001, q, tick);
    hide Notional;
    NotionalOrder(0.99999 * q, quotient, tick);
    NotionalOrder(quotient, 1.00001 * q, tick);
    WholeTicks(q, tick, price);
  }

  lemma QuotientTimes(price: real, tick: real)
    requires tick > 0.0
    ensures Notional(price / tick, tick) == price
  {
  }

  lemma ScaledQuotient(c: real, q: real, tick: real)
    ensures Notional(c * q, tick) == c * Notional(q, tick)
  {
    assert (c * q) * tick == c * (q * tick);
  }

  lemma TickBounds(quotient: real, tick: real)
    requires tick > 0.0 && quotient >= 0.0
    ensures 0.0 <= Ticks(quotient.Floor, tick) <= Notional(quotient, tick) <= Ticks(-((-quotient).Floor), tick)
  {
    assert Ticks(quotient.Floor, tick) == Notional(quotient.Floor as real, tick);
    assert Ticks(-((-quotient).Floor), tick) == Notional((-((-quotient).Floor)) as real, tick);
    hide Ticks, Notional;
    NotionalOrder(0.0, quotient.Floor as real, tick);
    NotionalOrder(quotient.Floor as real, quotient, tick);
    NotionalOrder(quotient, (-((-quotient).Floor)) as real, tick);
  }

  /** The ladder survives the rounding of the decimal library: whatever the product with the offset, the
      quotient by the tick and the product with the tick are rounded to, as long as each is off by at most
      one in 10^5, every bid stays below the reference and every ask above it. */
  lemma LadderSurvivesRounding(
    reference: real, tick: real, bps: real,
    low: real, lowQuotient: real, bid: real, high: real, highQuotient: real, ask: real)
    requires reference > 0.0 && tick > 0.0 && bps in MARKET_MAKER_LEVEL_OFFSETS_BPS
    requires Nearly(low, reference * (1.0 - bps / 10000.0)) && Nearly(lowQuotient, low / tick)
    requires Nearly(high, reference * (1.0 + bps / 10000.0)) && Nearly(highQuotient, high / tick)
    requires Nearly(bid, Ticks(lowQuotient.Floor, tick)) && Nearly(ask, Ticks(-((-highQuotient).Floor), tick))
    ensures 0.0 <= bid < reference < ask
  {
    hide Ticks, Notional;
    OffsetBrackets(reference, bps / 10000.0);
    assert low >= 0.0 && high >= 0.0;
    QuotientBounds(low, tick, lowQuotient);
    QuotientBounds(high, tick, highQuotient);
    TickBounds(lowQuotient, tick);
    TickBounds(highQuotient, tick);
    if bps == 2.0 {
    } else if bps == 5.0 {
    } else {
      assert bps == 10.0;
    }
  }

  // ---------------------------------------------------------------------------
  // Quotes on both sides of one price never meet
  // ---------------------------------------------------------------------------

  predicate OnRightSide(side: Side, price: real, reference: real) {
    if side == Buy then price < reference else price > reference
  }

  /** Every live order of the user in the market is a limit order on its own side of the reference. */
  ghost predicate QuotesApart(orders: seq<OrderRow>, userId: UserId, mid: MarketId, reference: real) {
    forall i | 0 <= i < |orders| && orders[i].userId == userId && orders[i].market == mid && Live(orders[i]) ::
      orders[i].orderType == Limit && OnRightSide(orders[i].side, orders[i].price, reference)
  }

  lemma {:induction false} NeverMeetsOwn(t: Taker, makers: seq<Maker>, quantity: real)
    requires forall m | m in makers && m.userId == t.userId :: !Reaches(t, m)
    ensures !Match(t, makers, quantity).stopped
    decreases |makers|
  {
    if makers != [] {
      assert makers == [makers[0]] + makers[1..];
      if quantity > 0.0 && MayTrade(t, makers[0]) {
        NeverMeetsOwn(t, makers[1..], quantity - Min(makers[0].remaining, quantity));
      }
    }
  }

  /** Such an order is never stopped for self-trade. */
  lemma ApartNeverStops(s: State, id: OrderId, reference: real)
    requires Inv(s) && id in s.pending && id < |s.tables.orders|
    requires QuotesApart(s.tables.orders, s.tables.orders[id].userId, s.tables.orders[id].market, reference)
    ensures s.tables.orders[id].market in s.engines && !OutcomeOf(s, id).stopped
  {
    hide TablesValid, Match, EngineValid;
    WaitingIsSubmitted(s, id);
    assert Waiting(s.markets, s.engines, s.tables.orders, id, s.pending[id]);
    var row := s.tables.orders[id];
    var t, makers := TakerOf(InputOf(id, row)), SideOf(s.engines[row.market], Opposite(row.side));
    assert OnRightSide(row.side, row.price, reference);
    forall m | m in makers && m.userId == t.userId ensures !Reaches(t, m) {
      assert EntryAgrees(s.tables.orders, row.market, Opposite(row.side), m);
      assert OnRightSide(Opposite(row.side), m.price, reference);
    }
    NeverMeetsOwn(t, makers, row.quantity);
  }

  /** The user places nothing in the market but limit orders on their own side of the reference. */
  predicate PlacesApart(op: Op, userId: UserId, mid: MarketId, reference: real) {
    op.Place? && op.userId == userId && op.request.market == mid ==>
      && op.request.orderType == Limit
      && (op.request.price.Some? ==> OnRightSide(op.request.side, op.request.price.value, reference))
  }

  lemma NewRows(s: State, op: Op)
    requires Inv(s) && Enabled(s, op)
    ensures var orders, orders' := s.tables.orders, Exec(s, op).state.tables.orders;
            && SameOrders(orders, orders')
            && (|orders'| == |orders|
                || (op.Place? && orders'[..|orders|] == orders && |orders'| == |orders| + 1
                    && op.request.market in s.markets && op.request.market in s.engines
                    && var price := ResolvePrice(s.markets[op.request.market], s.engines[op.request.market], op.request);
                    && price.Ok? && orders'[|orders|] == NewRow(op.userId, op.request, price.value)))
  {
    hide Inv, TablesValid, Synced, Settle, PostEntries, LockFunds, ReleaseHold, Settles, Match, ResolvePrice, AcceptsQuantity,
      ApplySubmit, IsMultipleOf, EngineSpec.Cancel, EngineSpec.Submit;
    StepMovesForward(s, op);
    if op.SubmitOrder? {
      if op.id in s.pending {
        SubmittedRows(s, op.id);
      } else {
        RejectedSubmit(s, op.id);
      }
    }
  }

  lemma SubmittedRows(s: State, id: OrderId)
    requires Inv(s) && id in s.pending
    ensures |ApplySubmit(s, id).state.tables.orders| == |s.tables.orders|
  {
    hide Inv, TablesValid, SettlementOf, EngineInSync, Settles, Match, SameOrders, EngineSpec.Submit;
    SubmissionSettlesIff(s, id);
    SubmitCommits(s, id);
  }

  lemma StepKeepsApart(s: State, op: Op, userId: UserId, mid: MarketId, reference: real)
    requires Inv(s) && Enabled(s, op) && QuotesApart(s.tables.orders, userId, mid, reference)
    requires PlacesApart(op, userId, mid, reference)
    ensures QuotesApart(Exec(s, op).state.tables.orders, userId, mid, reference)
  {
    hide Inv, Exec, ResolveMarketReservePrice;
    NewRows(s, op);
    var orders, orders' := s.tables.orders, Exec(s, op).state.tables.orders;
    forall i | 0 <= i < |orders'| && orders'[i].userId == userId && orders'[i].market == mid && Live(orders'[i])
      ensures orders'[i].orderType == Limit && OnRightSide(orders'[i].side, orders'[i].price, reference)
    {
      if i < |orders| {
        assert SameOrder(orders[i], orders'[i]);
      }
    }
  }

  predicate AllPlacedApart(ops: seq<Op>, userId: UserId, mid: MarketId, reference: real) {
    forall op | op in ops :: PlacesApart(op, userId, mid, reference)
  }

  /** However others trade in between, a user who quotes only on both sides of one price never trips
      self-trade prevention in that market. */
  lemma {:induction false} RunNeverStops(s: State, ops: seq<Op>, id: OrderId, userId: UserId, mid: MarketId, reference: real)
    requires Inv(s) && AllEnabled(s, ops) && QuotesApart(s.tables.orders, userId, mid, reference)
    requires AllPlacedApart(ops, userId, mid, reference)
    requires var s' := Run(s, ops);
             id in s'.pending && id < |s'.tables.orders| && s'.tables.orders[id].userId == userId && s'.tables.orders[id].market == mid
    ensures var s' := Run(s, ops); mid in s'.engines && !OutcomeOf(s', id).stopped
    decreases |ops|
  {
    hide Inv, Exec, QuotesApart, PlacesApart, OutcomeOf;
    if ops == [] {
      ApartNeverStops(s, id, reference);
    } else {
      assert forall op | op in ops[1..] :: op in ops;
      StepKeepsApart(s, ops[0], userId, mid, reference);
      StepKeepsInv(s, ops[0]);
      RunNeverStops(Exec(s, ops[0]).state, ops[1..], id, userId, mid, reference);
    }
  }

  // ---------------------------------------------------------------------------
  // One refresh
  // ---------------------------------------------------------------------------

  predicate OwnOpen(row: OrderRow, userId: UserId, mid: MarketId) {
    row.userId == userId && row.market == mid && Live(row)
  }

  /** Cancels the user's open orders in the market among the first `n`, newest first. */
  function CancelOwn(s: State, userId: UserId, mid: MarketId, n: nat): State
    decreases n
  {
    if n == 0 then s else
    var s' := if n - 1 < |s.tables.orders| && OwnOpen(s.tables.orders[n - 1], userId, mid)
              then ApplyCancel(s, userId, n - 1).state else s;
    CancelOwn(s', userId, mid, n - 1)
  }

  function QuoteRequest(mid: MarketId, side: Side, price: real, quantity: real): Request {
    Request(mid, side, Limit, Some(price), quantity)
  }

  /** Places one quote; a rejected one is skipped. */
  function PlaceQuote(s: State, userId: UserId, r: Request): State {
    var placed := ApplyPlace(s, userId, r);
    if placed.error.Some? then s else ApplySubmit(placed.state, |s.tables.orders|).state
  }

  /** Places a bid and an ask at each offset. */
  function PlaceLadder(s: State, userId: UserId, mid: MarketId, quantity: real, reference: real, tick: real, offsets: seq<real>): State
    requires tick > 0.0
    decreases |offsets|
  {
    if offsets == [] then s else
    var s1 := PlaceQuote(s, userId, QuoteRequest(mid, Buy, BidPrice(reference, tick, offsets[0]), quantity));
    var s2 := PlaceQuote(s1, userId, QuoteRequest(mid, Sell, AskPrice(reference, tick, offsets[0]), quantity));
    PlaceLadder(s2, userId, mid, quantity, reference, tick, offsets[1..])
  }

  /** Takes down the user's quotes in the market and puts up a ladder around the reference. */
  function Refresh(s: State, userId: UserId, mid: MarketId, quantity: real, reference: real): State
    requires mid in s.markets && s.markets[mid].tickSize > 0.0
  {
    PlaceLadder(CancelOwn(s, userId, mid, |s.tables.orders|), userId, mid, quantity, reference, s.markets[mid].tickSize,
                MARKET_MAKER_LEVEL_OFFSETS_BPS)
  }

  /** The quote is rejected, or its submission is not stopped for self-trade. */
  ghost predicate QuoteClean(s: State, userId: UserId, r: Request) {
    var placed, id := ApplyPlace(s, userId, r), |s.tables.orders|;
    placed.error.None? ==>
      && id < |placed.state.tables.orders| && placed.state.tables.orders[id].market in placed.state.engines
      && !OutcomeOf(placed.state, id).stopped
  }

  ghost predicate LadderClean(s: State, userId: UserId, mid: MarketId, quantity: real, reference: real, tick: real, offsets: seq<real>)
    requires tick > 0.0
    decreases |offsets|
  {
    offsets != [] ==>
      var bid := QuoteRequest(mid, Buy, BidPrice(reference, tick, offsets[0]), quantity);
      var ask := QuoteRequest(mid, Sell, AskPrice(reference, tick, offsets[0]), quantity);
      && QuoteClean(s, userId, bid)
      && QuoteClean(PlaceQuote(s, userId, bid), userId, ask)
      && LadderClean(PlaceQuote(PlaceQuote(s, userId, bid), userId, ask), userId, mid, quantity, reference, tick, offsets[1..])
  }

  /** None of the waiting orders is the user's. */
  ghost predicate NoneWaiting(s: State, userId: UserId) {
    forall id | id in s.pending :: id < |s.tables.orders| && s.tables.orders[id].userId != userId
  }

  /** The user has no order under way, and live quotes stand apart. */
  ghost predicate Quoting(s: State, userId: UserId, mid: MarketId, reference: real) {
    Inv(s) && NoneWaiting(s, userId) && QuotesApart(s.tables.orders, userId, mid, reference)
  }

  lemma QuoteStaysApart(s: State, userId: UserId, mid: MarketId, side: Side, price: real, quantity: real, reference: real)
    requires Quoting(s, userId, mid, reference) && OnRightSide(side, price, reference)
    ensures var r := QuoteRequest(mid, side, price, quantity);
            QuoteClean(s, userId, r) && Quoting(PlaceQuote(s, userId, r), userId, mid, reference)
  {
    hide Inv, QuotesApart, ApplyPlace, ApplySubmit, OutcomeOf, Exec;
    var r, id := QuoteRequest(mid, side, price, quantity), |s.tables.orders|;
    var placed := ApplyPlace(s, userId, r);
    PlaceIsExec(s, userId, r);
    StepKeepsInv(s, Place(userId, r));
    StepKeepsApart(s, Place(userId, r), userId, mid, reference);
    if placed.error.None? {
      SubmitIsExec(placed.state, id);
      PlacedOne(s, userId, r);
      ApartNeverStops(placed.state, id, reference);
      StepKeepsInv(placed.state, SubmitOrder(id));
      StepKeepsApart(placed.state, SubmitOrder(id), userId, mid, reference);
      SubmittedOne(s, placed.state, id);
      StaysFree(s, placed.state, ApplySubmit(placed.state, id).state, userId) by {
        StepMovesForward(s, Place(userId, r));
        StepMovesForward(placed.state, SubmitOrder(id));
      }
    } else {
      RejectedPlace(s, userId, r);
    }
  }

  lemma RejectedPlace(s: State, userId: UserId, r: Request)
    requires ApplyPlace(s, userId, r).error.Some?
    ensures ApplyPlace(s, userId, r).state == s
  {
    hide LockFunds, ResolvePrice, AcceptsQuantity;
  }

  lemma StaysFree(s: State, s1: State, s2: State, userId: UserId)
    requires NoneWaiting(s, userId) && s2.pending.Keys == s.pending.Keys
    requires SameOrders(s.tables.orders, s1.tables.orders) && SameOrders(s1.tables.orders, s2.tables.orders)
    ensures NoneWaiting(s2, userId)
  {
    forall id | id in s2.pending ensures id < |s2.tables.orders| && s2.tables.orders[id].userId != userId {
      assert SameOrder(s.tables.orders[id], s1.tables.orders[id]);
      assert SameOrder(s1.tables.orders[id], s2.tables.orders[id]);
    }
  }

  lemma PlaceIsExec(s: State, userId: UserId, r: Request)
    ensures Exec(s, Place(userId, r)) == ApplyPlace(s, userId, r)
  {
  }

  lemma PlacedOne(s: State, userId: UserId, r: Request)
    requires ApplyPlace(s, userId, r).error.None?
    ensures var s' := ApplyPlace(s, userId, r).state;
            && |s'.tables.orders| == |s.tables.orders| + 1 && s'.pending.Keys == s.pending.Keys + {|s.tables.orders|}
            && s'.tables.orders[|s.tables.orders|].userId == userId && s'.tables.orders[|s.tables.orders|].market == r.market
  {
    hide LockFunds, ResolvePrice, AcceptsQuantity;
  }

  lemma SubmittedOne(s: State, placed: State, id: OrderId)
    requires Inv(s) && Inv(placed) && id == |s.tables.orders| && placed.pending.Keys == s.pending.Keys + {id}
    ensures ApplySubmit(placed, id).state.pending.Keys == s.pending.Keys
  {
    hide Inv, Settle, EngineSpec.Submit, ApplySubmit, Submitted, EngineInSync;
    WaitingIsSubmitted(placed, id);
    WaitingIsKnown(s);
    SubmittedState(placed, id);
  }

  /** Cancelling takes every open order of the user in the market off the book. */
  lemma {:induction false} CancelOwnClears(s: State, userId: UserId, mid: MarketId, n: nat)
    requires Inv(s) && NoneWaiting(s, userId) && n <= |s.tables.orders|
    requires forall i | n <= i < |s.tables.orders| :: !OwnOpen(s.tables.orders[i], userId, mid)
    ensures var s' := CancelOwn(s, userId, mid, n);
            && Inv(s') && NoneWaiting(s', userId) && s'.pending == s.pending && s'.markets == s.markets
            && |s'.tables.orders| == |s.tables.orders|
            && forall i | 0 <= i < |s'.tables.orders| :: !OwnOpen(s'.tables.orders[i], userId, mid)
    decreases n
  {
    hide Inv, ApplyCancel;
    if n > 0 {
      if OwnOpen(s.tables.orders[n - 1], userId, mid) {
        CancelOne(s, userId, n - 1);
        CancelOwnClears(ApplyCancel(s, userId, n - 1).state, userId, mid, n - 1);
      } else {
        CancelOwnClears(s, userId, mid, n - 1);
      }
    }
  }

  lemma CancelOne(s: State, userId: UserId, id: OrderId)
    requires Inv(s) && NoneWaiting(s, userId)
    requires id < |s.tables.orders| && s.tables.orders[id].userId == userId && Live(s.tables.orders[id])
    ensures var r := ApplyCancel(s, userId, id);
            && r.error.None? && Inv(r.state) && r.state.pending == s.pending && r.state.markets == s.markets && NoneWaiting(r.state, userId)
            && r.state.tables.orders == s.tables.orders[id := s.tables.orders[id].(status := Cancelled)]
  {
    hide Inv, ReleaseHold, EngineSpec.Cancel;
    CancelKeepsInv(s, userId, id);
  }

  lemma {:induction false} LadderStaysApart(
    s: State, userId: UserId, mid: MarketId, quantity: real, reference: real, tick: real, offsets: seq<real>)
    requires Quoting(s, userId, mid, reference) && reference > 0.0 && tick > 0.0
    requires forall bps | bps in offsets :: bps in MARKET_MAKER_LEVEL_OFFSETS_BPS
    ensures LadderClean(s, userId, mid, quantity, reference, tick, offsets)
    ensures Quoting(PlaceLadder(s, userId, mid, quantity, reference, tick, offsets), userId, mid, reference)
    decreases |offsets|
  {
    hide Quoting, QuoteClean, PlaceQuote, BidPrice, AskPrice, IsMultipleOf;
    if offsets != [] {
      var bps := offsets[0];
      assert bps in offsets && forall b | b in offsets[1..] :: b in offsets;
      LadderBracketsReference(reference, tick, bps);
      var bid, ask := BidPrice(reference, tick, bps), AskPrice(reference, tick, bps);
      QuoteStaysApart(s, userId, mid, Buy, bid, quantity, reference);
      var s1 := PlaceQuote(s, userId, QuoteRequest(mid, Buy, bid, quantity));
      QuoteStaysApart(s1, userId, mid, Sell, ask, quantity, reference);
      var s2 := PlaceQuote(s1, userId, QuoteRequest(mid, Sell, ask, quantity));
      LadderStaysApart(s2, userId, mid, quantity, reference, tick, offsets[1..]);
    }
  }

  /** Whatever the book and the positive reference price, no quote of a refresh meets another: no
      submission of it is ever stopped for self-trade, and its live quotes bracket the reference. */
  lemma RefreshNeverStopsItself(s: State, userId: UserId, mid: MarketId, quantity: real, reference: real)
    requires Inv(s) && NoneWaiting(s, userId) && mid in s.markets && s.markets[mid].tickSize > 0.0 && reference > 0.0
    ensures LadderClean(CancelOwn(s, userId, mid, |s.tables.orders|), userId, mid, quantity, reference, s.markets[mid].tickSize,
                        MARKET_MAKER_LEVEL_OFFSETS_BPS)
    ensures Quoting(Refresh(s, userId, mid, quantity, reference), userId, mid, reference)
  {
    hide Inv, LadderClean, PlaceLadder, CancelOwn;
    CancelOwnClears(s, userId, mid, |s.tables.orders|);
    LadderStaysApart(CancelOwn(s, userId, mid, |s.tables.orders|), userId, mid, quantity, reference, s.markets[mid].tickSize,
                     MARKET_MAKER_LEVEL_OFFSETS_BPS);
  }

  class MarketMakerService {
    const orders: OrdersService
    const botUserId: UserId

    constructor (orders: OrdersService, botUserId: UserId)
      ensures this.orders == orders && this.botUserId == botUserId
    {
      this.orders, this.botUserId := orders, botUserId;
    }

    /** Cancels the bot's open orders in the market, newest first. */
    method CancelOwnOpenOrders(mid: MarketId)
      requires orders.Valid()
      modifies orders.db, orders.matching.Repr
      ensures orders.Valid()
      ensures orders.View() == CancelOwn(old(orders.View()), botUserId, mid, |old(orders.db.orders)|)
    {
      hide Sound, ApplyCancel, MatchingService.Valid, MatchingService.Engines;
      orders.matching.Footprint();
      var n: nat := |orders.db.orders|;
      while n > 0
        invariant orders.Valid() && orders.matching !in orders.matching.Repr
        invariant orders.matching.Repr == old(orders.matching.Repr)
        invariant n <= |old(orders.db.orders)|
        invariant CancelOwn(orders.View(), botUserId, mid, n) ==
                  CancelOwn(old(orders.View()), botUserId, mid, |old(orders.db.orders)|)
      {
        n := n - 1;
        if n < |orders.db.orders| && OwnOpen(orders.db.orders[n], botUserId, mid) {
          var _ := orders.CancelOrder(botUserId, n);
        }
      }
    }

    /** Places one quote; a rejected one is skipped. */
    method Quote(mid: MarketId, side: Side, price: real, quantity: real)
      requires orders.Valid()
      modifies orders.db, orders.matching.Repr
      ensures orders.Valid()
      ensures orders.View() == PlaceQuote(old(orders.View()), botUserId, QuoteRequest(mid, side, price, quantity))
    {
      hide Sound, ApplyPlace, ApplySubmit, MatchingService.Valid, MatchingService.Engines;
      var _ := orders.CreateOrder(botUserId, QuoteRequest(mid, side, price, quantity));
    }

    /** Takes down the bot's quotes and puts up a fresh ladder around the reference price. */
    method RefreshMarket(mid: MarketId, quantity: real, reference: real)
      requires orders.Valid()
      requires mid in orders.db.markets && orders.db.markets[mid].tickSize > 0.0
      modifies orders.db, orders.matching.Repr
      ensures orders.Valid()
      ensures orders.View() == Refresh(old(orders.View()), botUserId, mid, quantity, reference)
    {
      hide Sound, PlaceQuote, MatchingService.Valid, MatchingService.Engines, BidPrice, AskPrice, CancelOwn;
      orders.matching.Footprint();
      var tick := orders.db.markets[mid].tickSize;
      CancelOwnOpenOrders(mid);
      var offsets := MARKET_MAKER_LEVEL_OFFSETS_BPS;
      for i := 0 to |offsets|
        invariant orders.Valid() && orders.matching !in orders.matching.Repr
        invariant orders.matching.Repr == old(orders.matching.Repr)
        invariant PlaceLadder(orders.View(), botUserId, mid, quantity, reference, tick, offsets[i..]) ==
                  Refresh(old(orders.View()), botUserId, mid, quantity, reference)
      {
        assert offsets[i..][0] == offsets[i] && offsets[i..][1..] == offsets[i + 1..];
        Quote(mid, Buy, BidPrice(reference, tick, offsets[i]), quantity);
        Quote(mid, Sell, AskPrice(reference, tick, offsets[i]), quantity);
      }
      assert offsets[|offsets|..] == [];
    }
  }
}
