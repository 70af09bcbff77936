/** The life of an order over a run: how it moves along, how it ends, and what it costs its owner. */
module OrderHistory {
  import opened Types
  import opened BookSide
  import opened Matching
  import opened MatchingFacts
  import opened EngineSpec
  import opened Ledger
  import opened Holds
  import opened Settlement
  import opened FillProofs
  import opened Books
  import opened Submission
  import opened Exchange
  import opened Transfers
  import opened Safety
  import opened Backing
  import opened Interleaving

  // ---------------------------------------------------------------------------
  // Moving along
  // ---------------------------------------------------------------------------

  lemma SameOrdersChain(a: seq<OrderRow>, b: seq<OrderRow>, c: seq<OrderRow>)
    requires SameOrders(a, b) && SameOrders(b, c)
    ensures SameOrders(a, c)
  {
    forall i | 0 <= i < |a| ensures SameOrder(a[i], c[i]) {
      assert SameOrder(a[i], b[i]) && SameOrder(b[i], c[i]);
    }
  }

  /** No operation changes the terms of an order, takes back a fill, or touches a finished order. */
  lemma StepMovesForward(s: State, op: Op)
    requires Inv(s) && Enabled(s, op)
    ensures SameOrders(s.tables.orders, Exec(s, op).state.tables.orders)
  {
    hide TablesValid, Synced, EngineSpec.Submit, Settle, PostEntries, LockFunds, ReleaseHold, Settles, Match;
    match op
    case SubmitOrder(id) =>
      OrdersStay(s.tables.orders);
      if id in s.pending {
        SubmissionSettlesIff(s, id);
        SubmitCommits(s, id);
      }
    case _ =>
  }

  lemma SubmitCommits(s: State, id: OrderId)
    requires id in s.pending && id < |s.tables.orders| && s.tables.orders[id].market in s.engines
    requires Acceptable(InputOf(id, s.tables.orders[id]))
    ensures ApplySubmit(s, id).state.tables == if SettlementOf(s, id).Ok? then SettlementOf(s, id).value else s.tables
    ensures ApplySubmit(s, id).error.None? <==> SettlementOf(s, id).Ok?
  {
    hide Settle, OwnSide, Match;
  }

  lemma {:induction false} RunMovesForward(s: State, ops: seq<Op>)
    requires Inv(s) && AllEnabled(s, ops)
    ensures SameOrders(s.tables.orders, Run(s, ops).tables.orders)
    decreases |ops|
  {
    hide Inv, Exec, SameOrder;
    if ops == [] {
      OrdersStay(s.tables.orders);
    } else {
      var s' := Exec(s, ops[0]).state;
      StepMovesForward(s, ops[0]);
      StepKeepsInv(s, ops[0]);
      RunMovesForward(s', ops[1..]);
      SameOrdersChain(s.tables.orders, s'.tables.orders, Run(s', ops[1..]).tables.orders);
    }
  }

  /** What an order row, its hold and its trades say about each other. */
  ghost predicate OrderKept(t: Tables, i: OrderId)
    requires i < |t.orders|
  {
    var r := t.orders[i];
    && 0.0 <= r.filled && 0.0 <= r.remaining && r.filled + r.remaining == r.quantity
    && r.filled == TradedQuantity(t.trades, i)
    && (r.status == Filled <==> r.remaining == 0.0)
    && (r.status == Open ==> r.filled == 0.0)
    && (r.status == PartiallyFilled ==> r.filled > 0.0 && r.remaining > 0.0)
    && i in t.holds
    && (t.holds[i].status == Active ==> Live(r) && t.holds[i].amount == ReserveOf(r, r.remaining))
  }

  lemma BackedOrder(markets: Markets, t: Tables, i: OrderId)
    requires Backed(markets, t) && i < |t.orders|
    ensures OrderKept(t, i) && t.orders[i].market in markets
    ensures t.holds[i].account == LockKey(markets[t.orders[i].market], t.orders[i])
    ensures Protected(t.orders[i], TradedQuote(t.trades, i))
  {
    hide Booked, TradesValid, RowsBacked, ReserveOf, Protected;
    BackedRow(markets, t, i);
  }

  /** In every reachable state, and from it over every further run, an order's terms stand, its fills only
      grow, are what its trades add up to, and leave the rest of its quantity; its status says how far it
      is; and what it still holds is the reserve of what remains, and nothing once it is finished. */
  lemma EveryRunKeepsOrders(markets: Markets, before: seq<Op>, after: seq<Op>, i: OrderId)
    requires i < |Run(Init(markets), before).tables.orders|
    ensures var s := Run(Init(markets), before);
            var s' := Run(s, after);
            && i < |s'.tables.orders| && OrderKept(s'.tables, i) && Onward(s.tables.orders[i], s'.tables.orders[i])
  {
    hide Sound, OrderKept, Backed, Run, Init, Onward;
    EveryRunIsSound(markets, before);
    var s := Run(Init(markets), before);
    RunKeepsSound(s, after);
    SoundIsBacked(Quiet(Run(s, after)));
    BackedOrder(Run(s, after).markets, Run(s, after).tables, i);
  }

  /** Where no waiting order is cancelled, a finished order moreover never changes, and every live one holds
      its reserve. */
  lemma EveryRunFinishesOrders(markets: Markets, before: seq<Op>, after: seq<Op>, i: OrderId)
    requires PairsDistinct(markets) && AllEnabled(Init(markets), before) && AllEnabled(Run(Init(markets), before), after)
    requires i < |Run(Init(markets), before).tables.orders|
    ensures var s := Run(Init(markets), before);
            var s' := Run(s, after);
            && i < |s'.tables.orders| && i in s'.tables.holds
            && var r, r' := s.tables.orders[i], s'.tables.orders[i];
            && (!Live(r) ==> r' == r)
            && (Live(r') <==> s'.tables.holds[i].status == Active)
  {
    hide Inv, TablesValid;
    EveryRunIsSafe(markets, before);
    var s := Run(Init(markets), before);
    RunMovesForward(s, after);
    RunKeepsInv(s, after);
    OrderFacts(Run(s, after), i);
  }

  lemma OrderFacts(s: State, i: OrderId)
    requires Inv(s) && i < |s.tables.orders|
    ensures var r := s.tables.orders[i];
            && RowValid(r) && i in s.tables.holds && r.market in s.markets
            && HoldFits(s.markets[r.market], s.tables.holds[i], r)
            && r.filled == TradedQuantity(s.tables.trades, i)
            && Protected(r, TradedQuote(s.tables.trades, i))
  {
    assert OrderValid(s.markets, s.tables.holds, s.tables.orders, i);
  }

  // ---------------------------------------------------------------------------
  // Ending
  // ---------------------------------------------------------------------------

  /** The status of a settled order row is the one the engine reported. */
  predicate StatusMatches(row: OrderRow, result: SubmitResult) {
    match result.status
    case FullyFilled => row.status == Filled
    case Rests => row.status == Open
    case RestsPartlyFilled => row.status == PartiallyFilled
    case _ =>
      && row.status == Cancelled
      && row.rejectReason == Some(if result.selfTradePrevented then SelfTradePrevented else NoLiquidity)
  }

  lemma SomethingFilled(t: Taker, makers: seq<Maker>, quantity: real)
    requires forall m | m in makers :: m.remaining > 0.0
    requires quantity >= 0.0 && Match(t, makers, quantity).fills != []
    ensures Match(t, makers, quantity).remaining < quantity
  {
    MatchIsFair(t, makers, quantity);
    MatchConserves(t, makers, quantity);
    var fills := Match(t, makers, quantity).fills;
    assert fills[0] in fills && forall f | f in fills[1..] :: f in fills;
    FilledNonNegative(fills[1..]);
  }

  /** Once the fills are settled, what the row has left is what the engine reported. */
  lemma SettledTaker(s: State, id: OrderId)
    requires Inv(s) && id in s.pending
    ensures id < |s.tables.orders| && s.tables.orders[id].market in s.engines
    ensures var row, o := s.tables.orders[id], OutcomeOf(s, id);
            var settled := SettleAll(s.tables, row.market, s.pending[id], o.fills);
            && row.status == Open
            && 0.0 <= o.remaining <= row.quantity && (o.fills != [] ==> o.remaining < row.quantity)
            && (settled.Ok? ==>
                  && id < |settled.value.orders|
                  && RowValid(settled.value.orders[id]) && settled.value.orders[id].remaining == o.remaining
                  && settled.value.orders[id].quantity == row.quantity
                  && settled.value.orders[id].orderType == row.orderType
                  && (o.remaining > 0.0 ==> Live(settled.value.orders[id])))
  {
    hide Money, TradesFit, TradesValid, Reconciled, HoldFits, SideValid, SideAgrees, EngineInSync, SettleAll, Match, Settles,
      Untouched, EngineSpec.Submit;
    WaitingIsSubmitted(s, id);
    assert Waiting(s.markets, s.engines, s.tables.orders, id, s.pending[id]);
    var row, o, taker := s.tables.orders[id], OutcomeOf(s, id), TakerOf(InputOf(id, s.tables.orders[id]));
    var makers := SideOf(s.engines[row.market], Opposite(row.side));
    MembersReduced(Opposite(row.side), makers);
    MatchConserves(taker, makers, row.quantity);
    if o.fills != [] {
      SomethingFilled(taker, makers, row.quantity);
    }
    SettlesMatch(MarketsOf(s, id), s.tables, row.market, taker, makers, row.quantity);
    var settled := SettleAll(s.tables, row.market, s.pending[id], o.fills);
    if settled.Ok? {
      assert OrderValid(MarketsOf(s, id), settled.value.holds, settled.value.orders, id);
      assert SameOrder(s.tables.orders[id], settled.value.orders[id]);
    }
  }

  /** A settled submission leaves the row in the state the engine reported; in particular a market
      order always ends FILLED or CANCELLED. */
  lemma SettledRowFollowsEngine(s: State, id: OrderId)
    requires Inv(s) && id in s.pending && id < |s.tables.orders| && s.tables.orders[id].market in s.engines
    requires SettlementOf(s, id).Ok?
    ensures id < |SettlementOf(s, id).value.orders|
    ensures var r', o := SettlementOf(s, id).value.orders[id], OutcomeOf(s, id);
            && StatusMatches(r', ResultOf(s, id))
            && r'.remaining == o.remaining
            && (r'.orderType == MarketOrder ==> r'.status == Filled || r'.status == Cancelled)
  {
    hide Inv, SettleAll, MatchOf, SettlementOf, RowValid, StatusMatches, Live;
    SettledTaker(s, id);
    SettlementCloses(s, id);
    NothingToSettle(s.tables, s.tables.orders[id].market, s.pending[id]);
    var settled := SettleAll(s.tables, s.tables.orders[id].market, s.pending[id], OutcomeOf(s, id).fills).value;
    StatusFits(InputOf(id, s.tables.orders[id]), OutcomeOf(s, id), settled, id);
  }

  /** The row after settlement and, where the engine cancelled the remainder, after closing. */
  lemma StatusFits(input: Input, o: Outcome, settled: Tables, id: OrderId)
    requires id < |settled.orders|
    requires var r := settled.orders[id];
             && RowValid(r) && r.remaining == o.remaining && r.quantity == input.quantity
             && (o.remaining > 0.0 ==> Live(r))
             && (o.fills == [] ==> r.status == Open) && (o.fills != [] ==> o.remaining < r.quantity)
             && r.orderType == input.orderType
    ensures var result := SubmitResult(id, Finalize(input, o.remaining, o.fills != [], o.stopped), o.fills, o.remaining, o.stopped);
            var t' := if CancelledRemainder(result.status) then CloseRemainder(settled, id, result) else settled;
            && StatusMatches(t'.orders[id], result)
            && t'.orders[id].remaining == o.remaining
            && (t'.orders[id].orderType == MarketOrder ==> t'.orders[id].status == Filled || t'.orders[id].status == Cancelled)
  {
  }

  lemma SettlementCloses(s: State, id: OrderId)
    requires id in s.pending && id < |s.tables.orders| && s.tables.orders[id].market in s.engines
    requires OutcomeOf(s, id).remaining >= 0.0
    ensures var result := ResultOf(s, id);
            var settled := SettleAll(s.tables, s.tables.orders[id].market, s.pending[id], result.fills);
            && SettlementOf(s, id).Ok? == settled.Ok?
            && (settled.Ok? && id < |settled.value.orders| ==>
                  SettlementOf(s, id).value ==
                    if CancelledRemainder(result.status) then CloseRemainder(settled.value, id, result) else settled.value)
  {
    hide SettleAll, Match, CloseRemainder;
  }

  // ---------------------------------------------------------------------------
  // What an order costs its owner
  // ---------------------------------------------------------------------------

  /** What the trades of order `i` have added to account `k`. */
  ghost function OrderFlow(markets: Markets, orders: seq<OrderRow>, trades: seq<Trade>, i: OrderId, k: AccountKey): real {
    if trades == [] then 0.0 else
    var last := trades[|trades| - 1];
    OrderFlow(markets, orders, trades[..|trades| - 1], i, k)
    + if Involves(last, i) && last.market in markets then Flow(markets[last.market], RecordedDeal(orders, last), k) else 0.0
  }

  /** The positive fees order `i` was charged out of what it received. */
  ghost function FeesPaid(orders: seq<OrderRow>, trades: seq<Trade>, i: OrderId): real {
    if trades == [] then 0.0 else
    var last := trades[|trades| - 1];
    FeesPaid(orders, trades[..|trades| - 1], i)
    + if last.makerOrderId == i then Max(0.0, last.makerFee) else if last.takerOrderId == i then Max(0.0, last.takerFee) else 0.0
  }

  /** The two accounts an order trades on: what it pays with and what it receives. */
  function PaysFrom(m: Market, r: OrderRow): AccountKey {
    UserKey(r.userId, if r.side == Buy then m.quote else m.base)
  }

  function ReceivesOn(m: Market, r: OrderRow): AccountKey {
    UserKey(r.userId, if r.side == Buy then m.base else m.quote)
  }

  lemma TradeOnOrder(m: Market, orders: seq<OrderRow>, tr: Trade, i: OrderId)
    requires i < |orders| && m.base != m.quote && Involves(tr, i)
    requires TradeRecorded(map[tr.market := m], orders, tr)
    ensures var r, d := orders[i], RecordedDeal(orders, tr);
            var paid := if r.side == Buy then tr.quoteAmount else tr.quantity;
            var received := if r.side == Buy then tr.quantity else tr.quoteAmount;
            var fee := Max(0.0, if tr.makerOrderId == i then tr.makerFee else tr.takerFee);
            Flow(m, d, PaysFrom(m, r)) == -paid && Flow(m, d, ReceivesOn(m, r)) == received - fee
  {
    hide Notional;
  }

  /** Over its trades, an order pays exactly what was traded, out of one account, and receives exactly
      what was traded less its fees, on the other. */
  lemma {:induction false} OrderPaysItsTrades(markets: Markets, orders: seq<OrderRow>, trades: seq<Trade>, i: OrderId)
    requires TradesValid(markets, orders, trades) && PairsDistinct(markets)
    requires i < |orders| && orders[i].market in markets
    ensures var r, m := orders[i], markets[orders[i].market];
            var base, quote := TradedQuantity(trades, i), TradedQuote(trades, i);
            && OrderFlow(markets, orders, trades, i, PaysFrom(m, r)) == -(if r.side == Buy then quote else base)
            && OrderFlow(markets, orders, trades, i, ReceivesOn(m, r)) ==
                 (if r.side == Buy then base else quote) - FeesPaid(orders, trades, i)
  {
    hide Flow, RecordedDeal, Max;
    if trades != [] {
      var last := trades[|trades| - 1];
      assert TradeRecorded(markets, orders, last);
      OrderPaysItsTrades(markets, orders, trades[..|trades| - 1], i);
      if Involves(last, i) {
        TradeOnOrder(markets[last.market], orders, last, i);
      }
    }
  }

  /** What the order has paid and received, the protection of its limit, and what it still reserves. */
  ghost predicate LimitProtected(s: State, i: OrderId)
    requires i < |s.tables.orders|
  {
    var t, r := s.tables, s.tables.orders[i];
    && r.market in s.markets && i in t.holds
    && var m := s.markets[r.market];
    && var pays := OrderFlow(s.markets, t.orders, t.trades, i, PaysFrom(m, r));
    && var gets := OrderFlow(s.markets, t.orders, t.trades, i, ReceivesOn(m, r)) + FeesPaid(t.orders, t.trades, i);
    && (if r.side == Buy then -pays == TradedQuote(t.trades, i) && gets == r.filled
        else -pays == r.filled && gets == TradedQuote(t.trades, i))
    && (r.orderType == Limit ==>
          if r.side == Buy then -pays <= r.price * r.filled else gets >= r.price * r.filled)
    && Weight(t.holds[i], PaysFrom(m, r)) == (if t.holds[i].status == Active then ReserveOf(r, r.remaining) else 0.0)
    && (!Live(r) ==> Weight(t.holds[i], PaysFrom(m, r)) == 0.0)
  }

  lemma OrderIsProtected(s: State, i: OrderId)
    requires Backed(s.markets, s.tables) && PairsDistinct(s.markets) && i < |s.tables.orders|
    ensures LimitProtected(s, i)
  {
    hide Booked, RowsBacked, TradesFit, OrderFlow, FeesPaid, TradedQuote, TradedQuantity, ReserveOf;
    BackedOrder(s.markets, s.tables, i);
    OrderPaysItsTrades(s.markets, s.tables.orders, s.tables.trades, i);
  }

  lemma StepKeepsTerms(s: State, op: Op)
    ensures SameTerms(s.markets, Exec(s, op).state.markets)
  {
    hide EngineSpec.Submit, Settle, Confirm, Debited, PostTransfer, ReleaseHold, CreateAndLock;
  }

  /** Markets come and go with nothing but their fees and status changed. */
  lemma {:induction false} RunKeepsTerms(s: State, ops: seq<Op>)
    ensures SameTerms(s.markets, Run(s, ops).markets)
    decreases |ops|
  {
    hide Exec;
    if ops != [] {
      StepKeepsTerms(s, ops[0]);
      RunKeepsTerms(Exec(s, ops[0]).state, ops[1..]);
    }
  }

  /** In every reachable state, a limit buy has cost its owner exactly its fills and at most its limit on
      each unit; a limit sell has brought in, before fees, at least its limit on each unit; and once the
      order is finished it reserves nothing. */
  lemma EveryRunProtectsLimits(markets: Markets, ops: seq<Op>, i: OrderId)
    requires PairsDistinct(markets) && i < |Run(Init(markets), ops).tables.orders|
    ensures LimitProtected(Run(Init(markets), ops), i)
  {
    hide Sound, Backed, LimitProtected, Run;
    EveryRunIsSound(markets, ops);
    SoundIsBacked(Quiet(Run(Init(markets), ops)));
    RunKeepsTerms(Init(markets), ops);
    OrderIsProtected(Run(Init(markets), ops), i);
  }
}
