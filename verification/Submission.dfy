/** Settling what the engine matched: the fills of one submission against the tables. */
module Submission {
  import opened Types
  import opened BookSide
  import opened Matching
  import opened MatchingFacts
  import opened Ledger
  import opened Holds
  import opened Settlement
  import opened FillProofs
  import opened Books

  /** A resting order has a live limit row with the same owner, side and price, and no more left in
      the book than in the row. */
  ghost predicate EntryAgrees(orders: seq<OrderRow>, mid: MarketId, side: Side, o: Maker) {
    && o.id < |orders|
    && var r := orders[o.id];
    && r.market == mid && r.side == side && r.orderType == Limit && Live(r)
    && r.price == o.price && r.userId == o.userId
    && 0.0 < o.remaining <= r.remaining
  }

  ghost predicate SideAgrees(orders: seq<OrderRow>, mid: MarketId, side: Side, s: seq<Maker>) {
    forall o | o in s :: EntryAgrees(orders, mid, side, o)
  }

  /** The order being submitted, with `remaining` of it still to fill. */
  ghost predicate TakerAgrees(orders: seq<OrderRow>, mid: MarketId, t: Taker, remaining: real) {
    && t.id < |orders|
    && var r := orders[t.id];
    && r.market == mid && r.side == t.side && r.userId == t.userId
    && t.limit == (if r.orderType == Limit then Some(r.price) else None)
    && r.remaining == remaining && (remaining > 0.0 ==> Live(r))
  }

  /** Orders outside the submission stand as they were. */
  ghost predicate Untouched(orders: seq<OrderRow>, orders': seq<OrderRow>, t: Taker, makers: seq<Maker>) {
    && |orders'| == |orders|
    && forall i | 0 <= i < |orders| && i != t.id && i !in Ids(makers) :: orders'[i] == orders[i]
  }

  /** A buyer with `available` quote, whose reserve gives back `price` per unit, can pay every fill. */
  ghost predicate Solvent(price: real, available: real, fills: seq<Fill>)
    decreases |fills|
  {
    fills != [] ==>
      var left := available + Notional(price, fills[0].quantity) - fills[0].quoteAmount;
      left >= 0.0 && Solvent(price, left, fills[1..])
  }

  /** The exact condition under which the fills of a submission settle. */
  ghost predicate Settles(t: Tables, m: Market, taker: Taker, fills: seq<Fill>)
    requires taker.id < |t.orders|
  {
    fills != [] ==>
      && m.makerFee < 1.0 && m.takerFee < 1.0
      && (taker.side == Buy ==>
            Solvent(t.orders[taker.id].price, At(t.accounts, UserKey(taker.userId, m.quote)).available, fills))
  }

  lemma MatchedFillReady(markets: Markets, t: Tables, mid: MarketId, taker: Taker, best: Maker, quantity: real, remaining: real)
    requires OrdersValid(markets, t.holds, t.orders)
    requires EntryAgrees(t.orders, mid, Opposite(taker.side), best) && TakerAgrees(t.orders, mid, taker, remaining)
    requires MayTrade(taker, best) && taker.id != best.id
    requires 0.0 < quantity <= best.remaining && quantity <= remaining
    ensures var f := FillAgainst(taker, best, quantity);
            FillReady(t.orders, mid, f) && WithinLimit(t.orders, f) && f.quoteAmount > 0.0
  {
    assert OrderValid(markets, t.holds, t.orders, best.id);
    assert Notional(best.price, quantity) > 0.0;
  }

  lemma FeeBelowReceipt(amount: real, rate: real)
    requires amount > 0.0
    ensures Fee(amount, rate) < amount <==> rate < 1.0
  {
    assert amount - amount * rate == amount * (1.0 - rate);
    if rate < 1.0 {
      assert amount * (1.0 - rate) > 0.0;
    } else {
      assert amount * (rate - 1.0) >= 0.0;
    }
  }

  lemma FeesBelowOne(orders: seq<OrderRow>, m: Market, f: Fill)
    requires f.makerOrderId < |orders| && f.takerOrderId < |orders|
    requires f.quantity > 0.0 && f.quoteAmount > 0.0
    ensures Chargeable(DealOf(m, orders, f)) <==> m.makerFee < 1.0 && m.takerFee < 1.0
  {
    hide Fee;
    FeeBelowReceipt(f.quantity, m.makerFee);
    FeeBelowReceipt(f.quantity, m.takerFee);
    FeeBelowReceipt(f.quoteAmount, m.makerFee);
    FeeBelowReceipt(f.quoteAmount, m.takerFee);
  }

  lemma TakerLeft(t: Tables, mid: MarketId, m: Market, f: Fill)
    requires FillReady(t.orders, mid, f) && Money(t.accounts, t.holds, t.journal)
    ensures var taker := t.orders[f.takerOrderId];
            if taker.side == Buy then
              BuyerLeft(t, m, f) == At(t.accounts, UserKey(taker.userId, m.quote)).available
                                    + Notional(taker.price, f.quantity) - f.quoteAmount
            else BuyerLeft(t, m, f) >= 0.0
  {
    AvailableNonNegative(t.accounts, UserKey(t.orders[f.makerOrderId].userId, m.quote));
    hide Money, NoOverdraft, Notional;
  }

  /** What the taker's available quote would be after paying for a fill out of its reserve. */
  ghost function LeftAfter(t: Tables, m: Market, f: Fill): real
    requires f.takerOrderId < |t.orders|
  {
    var taker := t.orders[f.takerOrderId];
    At(t.accounts, UserKey(taker.userId, m.quote)).available + Notional(taker.price, f.quantity) - f.quoteAmount
  }

  /** A matched fill settles exactly when no fee eats a whole receipt and a buying taker can pay. */
  lemma MatchedFillSettlesIff(t: Tables, mid: MarketId, m: Market, f: Fill)
    requires Money(t.accounts, t.holds, t.journal) && FillBacked(t, mid, m, f) && f.quoteAmount > 0.0
    ensures var taker := t.orders[f.takerOrderId];
            && (SettleFill(t, mid, m, f).Ok? <==>
                  m.makerFee < 1.0 && m.takerFee < 1.0 && (taker.side == Buy ==> LeftAfter(t, m, f) >= 0.0))
            && (SettleFill(t, mid, m, f).Ok? && taker.side == Buy && m.base != m.quote ==>
                  At(SettleFill(t, mid, m, f).value.accounts, UserKey(taker.userId, m.quote)).available == LeftAfter(t, m, f))
  {
    FeesBelowOne(t.orders, m, f);
    TakerLeft(t, mid, m, f);
    hide SettleFill, Money, Chargeable, BuyerLeft, HoldsAfter, RowValid, HoldFits, Notional, Fee;
    FillSettlesIff(t, mid, m, f);
    if SettleFill(t, mid, m, f).Ok? {
      FillKeepsMoney(t, mid, m, f);
    }
  }

  lemma SideTail(side: Side, best: Maker, worse: seq<Maker>)
    requires SideValid(side, [best] + worse)
    ensures Ids([best] + worse) == {best.id} + Ids(worse)
    ensures SideValid(side, worse) && best.remaining > 0.0
    ensures forall o | o in worse :: Precedes(side, best, o)
  {
    assert ([best] + worse)[0] == best && ([best] + worse)[1..] == worse;
  }

  /** After a fill, the rest of the opposing side and the taker still agree with their rows. */
  lemma FillKeepsAgreement(
    orders: seq<OrderRow>, mid: MarketId, taker: Taker, best: Maker, worse: seq<Maker>, quantity: real, remaining: real)
    requires SideAgrees(orders, mid, Opposite(taker.side), [best] + worse) && TakerAgrees(orders, mid, taker, remaining)
    requires SideValid(Opposite(taker.side), [best] + worse)
    requires taker.id != best.id && taker.id !in Ids(worse)
    requires 0.0 < quantity <= best.remaining && quantity <= remaining
    ensures best.id < |orders| && taker.id < |orders|
    ensures var orders' := OrdersAfter(orders, FillAgainst(taker, best, quantity));
            && SideAgrees(orders', mid, Opposite(taker.side), worse)
            && (quantity < best.remaining ==>
                  EntryAgrees(orders', mid, Opposite(taker.side), best.(remaining := best.remaining - quantity)))
            && TakerAgrees(orders', mid, taker, remaining - quantity)
            && Untouched(orders, orders', taker, [best] + worse)
  {
    hide SideValid;
    SideTail(Opposite(taker.side), best, worse);
    assert best in [best] + worse;
    assert EntryAgrees(orders, mid, Opposite(taker.side), best);
    var orders' := OrdersAfter(orders, FillAgainst(taker, best, quantity));
    forall o | o in worse ensures EntryAgrees(orders', mid, Opposite(taker.side), o) {
      assert o in [best] + worse;
      assert Precedes(Opposite(taker.side), best, o) && o.id in Ids(worse);
      assert EntryAgrees(orders, mid, Opposite(taker.side), o);
    }
  }

  /** What the matcher hands to settlement, and in which state. */
  ghost predicate Submitted(markets: Markets, t: Tables, mid: MarketId, taker: Taker, makers: seq<Maker>, remaining: real) {
    && TablesValid(markets, t) && mid in markets && markets[mid].base != markets[mid].quote
    && SideValid(Opposite(taker.side), makers)
    && SideAgrees(t.orders, mid, Opposite(taker.side), makers)
    && TakerAgrees(t.orders, mid, taker, remaining)
    && taker.id !in Ids(makers)
    && remaining >= 0.0
  }

  /** The step of `SettlesMatch`: one matched fill, settled or not. */
  lemma SettleStep(markets: Markets, t: Tables, mid: MarketId, taker: Taker, best: Maker, worse: seq<Maker>, remaining: real)
    requires Submitted(markets, t, mid, taker, [best] + worse, remaining)
    requires remaining > 0.0 && MayTrade(taker, best)
    ensures var m, q := markets[mid], Min(best.remaining, remaining);
            var f, key := FillAgainst(taker, best, q), UserKey(taker.userId, m.quote);
            var left := At(t.accounts, key).available + Notional(t.orders[taker.id].price, q) - f.quoteAmount;
            && (SettleFill(t, mid, m, f).Ok? <==>
                  m.makerFee < 1.0 && m.takerFee < 1.0 && (taker.side == Buy ==> left >= 0.0))
            && (SettleFill(t, mid, m, f).Ok? ==>
                  var t' := SettleFill(t, mid, m, f).value;
                  && Submitted(markets, t', mid, taker, worse, remaining - q)
                  && SameOrders(t.orders, t'.orders)
                  && Untouched(t.orders, t'.orders, taker, [best] + worse)
                  && (q < best.remaining ==>
                        EntryAgrees(t'.orders, mid, Opposite(taker.side), best.(remaining := best.remaining - q)))
                  && (taker.side == Buy ==> At(t'.accounts, key).available == left))
  {
    hide SettleFill, Money, OrdersValid, TradesFit, TradesValid, Reconciled, SideValid, Notional, SameOrders,
      FillBacked, FillReady, WithinLimit, Untouched, OrdersAfter, EntryAgrees, MayTrade, Ids;
    var m, q := markets[mid], Min(best.remaining, remaining);
    var f := FillAgainst(taker, best, q);
    SideTail(Opposite(taker.side), best, worse);
    assert best in [best] + worse;
    MatchedFillReady(markets, t, mid, taker, best, q, remaining);
    BackedFill(markets, t, mid, f);
    MatchedFillSettlesIff(t, mid, m, f);
    FillKeepsTables(markets, t, mid, f);
    FillKeepsAgreement(t.orders, mid, taker, best, worse, q, remaining);
  }

  /** What holds once all fills of a submission are settled: `left` is the opposing side after it. */
  ghost predicate SettledTo(
    markets: Markets, t: Tables, t': Tables, mid: MarketId, taker: Taker, makers: seq<Maker>, left: seq<Maker>, remaining: real)
  {
    && Submitted(markets, t', mid, taker, left, remaining)
    && SameOrders(t.orders, t'.orders)
    && Untouched(t.orders, t'.orders, taker, makers)
  }

  /** The fills settle exactly under `Settles`, and then tables and opposing side are in step again. */
  ghost predicate SettlesProperly(markets: Markets, t: Tables, mid: MarketId, taker: Taker, makers: seq<Maker>, o: Outcome)
    requires mid in markets && taker.id < |t.orders|
  {
    var settled := SettleAll(t, mid, markets[mid], o.fills);
    && (settled.Ok? <==> Settles(t, markets[mid], taker, o.fills))
    && (settled.Ok? ==> SettledTo(markets, t, settled.value, mid, taker, makers, o.makers, o.remaining))
  }

  lemma SettlesNothing(markets: Markets, t: Tables, mid: MarketId, taker: Taker, makers: seq<Maker>, remaining: real)
    requires Submitted(markets, t, mid, taker, makers, remaining)
    ensures SettlesProperly(markets, t, mid, taker, makers, Outcome([], makers, remaining, false))
    ensures SettlesProperly(markets, t, mid, taker, makers, Outcome([], makers, remaining, true))
  {
    hide TablesValid, SideValid, SideAgrees;
  }

  /** Settling the rest after a step is settling the whole. */
  lemma SettledThen(
    markets: Markets, t: Tables, t1: Tables, t2: Tables, mid: MarketId, taker: Taker,
    best: Maker, worse: seq<Maker>, left: seq<Maker>, remaining: real)
    requires SameOrders(t.orders, t1.orders) && Untouched(t.orders, t1.orders, taker, [best] + worse)
    requires SettledTo(markets, t1, t2, mid, taker, worse, left, remaining)
    ensures SettledTo(markets, t, t2, mid, taker, [best] + worse, left, remaining)
  {
    hide Submitted;
    assert forall i | i !in Ids([best] + worse) :: i !in Ids(worse);
    forall i | 0 <= i < |t.orders| ensures SameOrder(t.orders[i], t2.orders[i]) {
      assert SameOrder(t.orders[i], t1.orders[i]) && SameOrder(t1.orders[i], t2.orders[i]);
    }
  }

  lemma SettlesCons(t: Tables, mid: MarketId, m: Market, taker: Taker, f: Fill, rest: seq<Fill>)
    requires taker.id < |t.orders|
    requires var left := At(t.accounts, UserKey(taker.userId, m.quote)).available
                         + Notional(t.orders[taker.id].price, f.quantity) - f.quoteAmount;
             var settled := SettleFill(t, mid, m, f);
             && (settled.Ok? <==> m.makerFee < 1.0 && m.takerFee < 1.0 && (taker.side == Buy ==> left >= 0.0))
             && (settled.Ok? ==>
                   && taker.id < |settled.value.orders|
                   && settled.value.orders[taker.id].price == t.orders[taker.id].price
                   && (taker.side == Buy ==> At(settled.value.accounts, UserKey(taker.userId, m.quote)).available == left)
                   && (SettleAll(settled.value, mid, m, rest).Ok? <==> Settles(settled.value, m, taker, rest)))
    ensures SettleAll(t, mid, m, [f] + rest).Ok? <==> Settles(t, m, taker, [f] + rest)
    ensures SettleAll(t, mid, m, [f] + rest) ==
            if SettleFill(t, mid, m, f).Err? then SettleFill(t, mid, m, f)
            else SettleAll(SettleFill(t, mid, m, f).value, mid, m, rest)
  {
    hide SettleFill, Notional, At;
    assert ([f] + rest)[1..] == rest && ([f] + rest)[0] == f;
  }

  /** A maker taken in full: the rest of the side settles after it. */
  lemma SettlesFull(
    markets: Markets, t: Tables, mid: MarketId, taker: Taker, best: Maker, worse: seq<Maker>, remaining: real, rest: Outcome)
    requires Submitted(markets, t, mid, taker, [best] + worse, remaining)
    requires MayTrade(taker, best) && 0.0 < best.remaining <= remaining
    requires var settled := SettleFill(t, mid, markets[mid], FillAgainst(taker, best, best.remaining));
             settled.Ok? && Submitted(markets, settled.value, mid, taker, worse, remaining - best.remaining) ==>
               SettlesProperly(markets, settled.value, mid, taker, worse, rest)
    ensures SettlesProperly(markets, t, mid, taker, [best] + worse,
                            rest.(fills := [FillAgainst(taker, best, best.remaining)] + rest.fills))
  {
    hide TablesValid, SideValid, SideAgrees, SettleFill, SettleAll, Settles, SettledTo, Notional, MayTrade,
      EntryAgrees, SameOrder, Untouched;
    var f := FillAgainst(taker, best, best.remaining);
    SettleStep(markets, t, mid, taker, best, worse, remaining);
    SettlesCons(t, mid, markets[mid], taker, f, rest.fills) by {
      if SettleFill(t, mid, markets[mid], f).Ok? {
        SamePrice(t.orders, SettleFill(t, mid, markets[mid], f).value.orders, taker.id);
      }
    }
    if SettleFill(t, mid, markets[mid], f).Ok? {
      var t1 := SettleFill(t, mid, markets[mid], f).value;
      if SettleAll(t1, mid, markets[mid], rest.fills).Ok? {
        SettledThen(markets, t, t1, SettleAll(t1, mid, markets[mid], rest.fills).value, mid, taker, best, worse, rest.makers, rest.remaining);
      }
    }
  }

  lemma SamePrice(orders: seq<OrderRow>, orders': seq<OrderRow>, id: OrderId)
    requires SameOrders(orders, orders') && id < |orders|
    ensures orders'[id].price == orders[id].price
  {
    assert SameOrder(orders[id], orders'[id]);
  }

  /** A maker taken in part: the taker is filled and the maker keeps the rest. */
  lemma SettlesPartly(
    markets: Markets, t: Tables, mid: MarketId, taker: Taker, best: Maker, worse: seq<Maker>, remaining: real)
    requires Submitted(markets, t, mid, taker, [best] + worse, remaining)
    requires MayTrade(taker, best) && 0.0 < remaining < best.remaining
    ensures SettlesProperly(markets, t, mid, taker, [best] + worse,
                            Outcome([FillAgainst(taker, best, remaining)],
                                    [best.(remaining := best.remaining - remaining)] + worse, 0.0, false))
  {
    hide TablesValid, SideValid, SettleFill, SettleAll, Settles, Notional, MayTrade, EntryAgrees, SameOrder, Untouched;
    var f, m := FillAgainst(taker, best, remaining), markets[mid];
    SettleStep(markets, t, mid, taker, best, worse, remaining);
    ReducedHeadValid(Opposite(taker.side), best, worse, best.remaining - remaining);
    SettlesCons(t, mid, m, taker, f, []) by {
      if SettleFill(t, mid, m, f).Ok? {
        SamePrice(t.orders, SettleFill(t, mid, m, f).value.orders, taker.id);
        NothingSettles(SettleFill(t, mid, m, f).value, mid, m, taker);
      }
    }
    assert [f] + [] == [f];
    if SettleFill(t, mid, m, f).Ok? {
      NothingSettles(SettleFill(t, mid, m, f).value, mid, m, taker);
    }
  }

  lemma NothingSettles(t: Tables, mid: MarketId, m: Market, taker: Taker)
    requires taker.id < |t.orders|
    ensures SettleAll(t, mid, m, []) == Ok(t) && Settles(t, m, taker, [])
  {
  }

  lemma ReducedHeadValid(side: Side, best: Maker, worse: seq<Maker>, remaining: real)
    requires SideValid(side, [best] + worse) && remaining > 0.0
    ensures SideValid(side, [best.(remaining := remaining)] + worse)
    ensures Ids([best.(remaining := remaining)] + worse) == Ids([best] + worse)
  {
    SideTail(side, best, worse);
    var reduced := best.(remaining := remaining);
    assert ([reduced] + worse)[0] == reduced && ([reduced] + worse)[1..] == worse;
    SideTail(side, reduced, worse);
  }

  /** The fills of a submission settle exactly under `Settles`, and then tables and opposing side
      are in step again: every fill finds what it debits, by induction over the matching. */
  lemma {:induction false} SettlesMatch(markets: Markets, t: Tables, mid: MarketId, taker: Taker, makers: seq<Maker>, remaining: real)
    requires Submitted(markets, t, mid, taker, makers, remaining)
    ensures SettlesProperly(markets, t, mid, taker, makers, Match(taker, makers, remaining))
    decreases |makers|
  {
    hide TablesValid, SideValid, SettlesProperly, SettleFill;
    if remaining <= 0.0 || makers == [] || !MayTrade(taker, makers[0]) {
      SettlesNothing(markets, t, mid, taker, makers, remaining);
      return;
    }
    var best, worse := makers[0], makers[1..];
    assert makers == [best] + worse;
    if best.remaining <= remaining {
      assert EntryAgrees(t.orders, mid, Opposite(taker.side), best);
      var f := FillAgainst(taker, best, best.remaining);
      var settled := SettleFill(t, mid, markets[mid], f);
      if settled.Ok? && Submitted(markets, settled.value, mid, taker, worse, remaining - best.remaining) {
        SettlesMatch(markets, settled.value, mid, taker, worse, remaining - best.remaining);
      }
      SettlesFull(markets, t, mid, taker, best, worse, remaining, Match(taker, worse, remaining - best.remaining));
    } else {
      SettlesPartly(markets, t, mid, taker, best, worse, remaining);
    }
  }
}
