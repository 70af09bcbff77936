/** Book and rows agree: as long as settlements go through, each engine holds exactly the live limit
    orders of its market, with exactly what is left of them. */
module Agreement {
  import opened Types
  import opened BookSide
  import opened Matching
  import opened MatchingFacts
  import opened EngineSpec
  import opened Ledger
  import opened Holds
  import opened Settlement
  import opened FillProofs
  import opened Books
  import opened Submission
  import opened Exchange
  import opened Transfers
  import opened Safety
  import opened OrderHistory

  /** The side holds exactly the live limit orders that are not waiting for submission. */
  ghost predicate Lists(orders: seq<OrderRow>, pending: set<OrderId>, mid: MarketId, side: Side, s: seq<Maker>) {
    forall i: OrderId :: i in Ids(s) <==> i < |orders| && RestsIn(orders[i], mid, side) && i !in pending
  }

  /** Each resting order has left what its row has left. */
  ghost predicate SameRemaining(orders: seq<OrderRow>, s: seq<Maker>) {
    forall o | o in s :: o.id < |orders| && o.remaining == orders[o.id].remaining
  }

  ghost predicate Mirrors(orders: seq<OrderRow>, pending: set<OrderId>, mid: MarketId, e: Engine) {
    && Lists(orders, pending, mid, Buy, e.bids) && SameRemaining(orders, e.bids)
    && Lists(orders, pending, mid, Sell, e.asks) && SameRemaining(orders, e.asks)
    && Uncrossed(e)
  }

  /** Every engine mirrors the rows of its market, is not crossed, and no market order is left open. */
  ghost predicate InStep(s: State) {
    && (forall mid | mid in s.engines :: Mirrors(s.tables.orders, s.pending.Keys, mid, s.engines[mid]))
    && (forall i: OrderId | i < |s.tables.orders| && s.tables.orders[i].orderType == MarketOrder ::
          Live(s.tables.orders[i]) ==> i in s.pending)
  }

  // ---------------------------------------------------------------------------
  // The rows after a settlement
  // ---------------------------------------------------------------------------

  /** The rows with the fills booked on them. */
  ghost function FillsBooked(orders: seq<OrderRow>, fills: seq<Fill>): (booked: seq<OrderRow>)
    ensures |booked| == |orders|
    decreases |fills|
  {
    if fills == [] || fills[0].makerOrderId >= |orders| || fills[0].takerOrderId >= |orders| then orders
    else FillsBooked(OrdersAfter(orders, fills[0]), fills[1..])
  }

  lemma {:induction false} SettlingBooksFills(t: Tables, mid: MarketId, m: Market, fills: seq<Fill>)
    requires SettleAll(t, mid, m, fills).Ok?
    ensures SettleAll(t, mid, m, fills).value.orders == FillsBooked(t.orders, fills)
    decreases |fills|
  {
    if fills != [] {
      SettlingBooksFills(SettleFill(t, mid, m, fills[0]).value, mid, m, fills[1..]);
    }
  }

  /** What booking the fills of a match does to the makers' rows: those still on the side have what the
      side says, the others are finished. */
  ghost predicate Booked(orders': seq<OrderRow>, makers: seq<Maker>, left: seq<Maker>) {
    && SameRemaining(orders', left)
    && (forall m | m in makers && m.id !in Ids(left) :: m.id < |orders'| && !Live(orders'[m.id]))
  }

  lemma FillsBookedCons(orders: seq<OrderRow>, f: Fill, rest: seq<Fill>)
    requires f.makerOrderId < |orders| && f.takerOrderId < |orders|
    ensures FillsBooked(orders, [f] + rest) == FillsBooked(OrdersAfter(orders, f), rest)
  {
    assert ([f] + rest)[1..] == rest;
  }

  lemma NothingBooked(orders: seq<OrderRow>)
    ensures FillsBooked(orders, []) == orders
  {
  }

  lemma UnknownUnbooked(orders: seq<OrderRow>, f: Fill, rest: seq<Fill>)
    requires f.makerOrderId >= |orders| || f.takerOrderId >= |orders|
    ensures FillsBooked(orders, [f] + rest) == orders
  {
  }

  lemma {:induction false} BookingElsewhere(orders: seq<OrderRow>, t: Taker, makers: seq<Maker>, quantity: real, i: OrderId)
    requires forall m | m in makers :: m.remaining > 0.0
    requires i != t.id && i !in Ids(makers) && i < |orders|
    ensures var orders' := FillsBooked(orders, Match(t, makers, quantity).fills);
            |orders'| == |orders| && orders'[i] == orders[i]
    decreases |makers|
  {
    hide FillsBooked, Match, MayTrade;
    if quantity <= 0.0 || makers == [] || !MayTrade(t, makers[0]) {
      NoMatch(t, makers, quantity);
      NothingBooked(orders);
      return;
    }
    var best, worse := makers[0], makers[1..];
    assert makers == [best] + worse && best in makers && forall m | m in worse :: m in makers;
    MatchCons(t, best, worse, quantity);
    var f := FillAgainst(t, best, Min(best.remaining, quantity));
    var rest := if best.remaining <= quantity then Match(t, worse, quantity - best.remaining).fills else [];
    assert Match(t, makers, quantity).fills == [f] + rest;
    if best.id < |orders| && t.id < |orders| {
      FillsBookedCons(orders, f, rest);
      if best.remaining <= quantity {
        BookingElsewhere(OrdersAfter(orders, f), t, worse, quantity - best.remaining, i);
      } else {
        NothingBooked(OrdersAfter(orders, f));
      }
    } else {
      UnknownUnbooked(orders, f, rest);
    }
  }

  lemma NoMatch(t: Taker, makers: seq<Maker>, quantity: real)
    requires quantity <= 0.0 || makers == [] || !MayTrade(t, makers[0])
    ensures Match(t, makers, quantity).fills == [] && Match(t, makers, quantity).makers == makers
    ensures Match(t, makers, quantity).remaining == quantity
  {
  }

  /** Booking the fills keeps rows and side equal. */
  lemma {:induction false} MatchIsBooked(orders: seq<OrderRow>, t: Taker, makers: seq<Maker>, quantity: real)
    requires SideValid(Opposite(t.side), makers) && SameRemaining(orders, makers)
    requires t.id < |orders| && t.id !in Ids(makers)
    ensures var o := Match(t, makers, quantity); Booked(FillsBooked(orders, o.fills), makers, o.makers)
    decreases |makers|
  {
    hide SideValid;
    if quantity <= 0.0 || makers == [] || !MayTrade(t, makers[0]) {
      return;
    }
    var best, worse := makers[0], makers[1..];
    assert makers == [best] + worse;
    SideTail(Opposite(t.side), best, worse);
    assert best in makers && forall m | m in worse :: m in makers && m.id in Ids(makers);
    if best.remaining <= quantity {
      BookFull(orders, t, best, worse, quantity);
    } else {
      BookPart(orders, t, best, worse, quantity);
    }
  }

  lemma SameRemainingCons(orders: seq<OrderRow>, o: Maker, s: seq<Maker>)
    ensures SameRemaining(orders, [o] + s) <==> SameRemaining(orders, s) && o.id < |orders| && o.remaining == orders[o.id].remaining
  {
    assert o in [o] + s && forall m | m in s :: m in [o] + s;
  }

  /** A fill books nothing on the rows of other makers. */
  lemma WorseUnbooked(orders: seq<OrderRow>, f: Fill, worse: seq<Maker>)
    requires SameRemaining(orders, worse)
    requires f.makerOrderId < |orders| && f.takerOrderId < |orders|
    requires f.makerOrderId !in Ids(worse) && f.takerOrderId !in Ids(worse)
    ensures SameRemaining(OrdersAfter(orders, f), worse)
  {
    forall o | o in worse ensures o.remaining == OrdersAfter(orders, f)[o.id].remaining {
      assert o.id in Ids(worse);
    }
  }

  lemma BookedCons(orders': seq<OrderRow>, best: Maker, worse: seq<Maker>, left: seq<Maker>)
    requires Booked(orders', worse, left) && best.id < |orders'| && !Live(orders'[best.id])
    ensures Booked(orders', [best] + worse, left)
  {
  }

  lemma BookFull(orders: seq<OrderRow>, t: Taker, best: Maker, worse: seq<Maker>, quantity: real)
    requires SideValid(Opposite(t.side), worse) && SameRemaining(orders, [best] + worse)
    requires t.id < |orders| && t.id != best.id && t.id !in Ids(worse) && best.id !in Ids(worse)
    requires MayTrade(t, best) && 0.0 < best.remaining <= quantity
    ensures var o := Match(t, [best] + worse, quantity); Booked(FillsBooked(orders, o.fills), [best] + worse, o.makers)
    decreases |worse| + 1, 0
  {
    hide SideValid, SameRemaining, Booked, FillsBooked, Match, Ids, MayTrade;
    SameRemainingCons(orders, best, worse);
    MatchCons(t, best, worse, quantity);
    var f, rest := FillAgainst(t, best, best.remaining), Match(t, worse, quantity - best.remaining);
    var orders1 := OrdersAfter(orders, f);
    WorseUnbooked(orders, f, worse);
    MatchIsBooked(orders1, t, worse, quantity - best.remaining);
    MembersReduced(Opposite(t.side), worse);
    BookingElsewhere(orders1, t, worse, quantity - best.remaining, best.id);
    FillsBookedCons(orders, f, rest.fills);
    BookedCons(FillsBooked(orders1, rest.fills), best, worse, rest.makers);
  }

  lemma BookPart(orders: seq<OrderRow>, t: Taker, best: Maker, worse: seq<Maker>, quantity: real)
    requires SameRemaining(orders, [best] + worse)
    requires t.id < |orders| && t.id != best.id && t.id !in Ids(worse) && best.id !in Ids(worse)
    requires MayTrade(t, best) && 0.0 < quantity < best.remaining
    ensures var o := Match(t, [best] + worse, quantity); Booked(FillsBooked(orders, o.fills), [best] + worse, o.makers)
  {
    hide SameRemaining, FillsBooked, Match, MayTrade;
    SameRemainingCons(orders, best, worse);
    MatchCons(t, best, worse, quantity);
    var f, reduced := FillAgainst(t, best, quantity), best.(remaining := best.remaining - quantity);
    WorseUnbooked(orders, f, worse);
    SameRemainingCons(OrdersAfter(orders, f), reduced, worse);
    FillsBookedCons(orders, f, []);
    assert [f] == [f] + [];
    NothingBooked(OrdersAfter(orders, f));
    assert reduced in [reduced] + worse && forall m | m in worse :: m in [reduced] + worse;
  }

  // ---------------------------------------------------------------------------
  // A settled submission
  // ---------------------------------------------------------------------------

  lemma BookedBut(orders: seq<OrderRow>, orders': seq<OrderRow>, makers: seq<Maker>, left: seq<Maker>, id: OrderId)
    requires Booked(orders, makers, left) && |orders'| == |orders|
    requires forall i | 0 <= i < |orders| && i != id :: orders'[i] == orders[i]
    requires id !in Ids(makers) && Ids(left) <= Ids(makers)
    ensures Booked(orders', makers, left)
  {
    assert forall m | m in makers :: m.id in Ids(makers);
    assert forall m | m in left :: m.id in Ids(left);
  }

  lemma ClosingTouchesOne(t: Tables, id: OrderId, result: SubmitResult)
    requires id < |t.orders|
    ensures var orders' := CloseRemainder(t, id, result).orders;
            |orders'| == |t.orders| && forall i | 0 <= i < |t.orders| && i != id :: orders'[i] == t.orders[i]
  {
  }

  /** After a settled submission the makers' rows say what the engine says. */
  lemma SettledMakersBooked(s: State, id: OrderId)
    requires Inv(s) && id in s.pending && id < |s.tables.orders| && s.tables.orders[id].market in s.engines
    requires var row := s.tables.orders[id];
             SameRemaining(s.tables.orders, SideOf(s.engines[row.market], Opposite(row.side)))
    requires SettlementOf(s, id).Ok?
    ensures var row := s.tables.orders[id];
            Booked(SettlementOf(s, id).value.orders, SideOf(s.engines[row.market], Opposite(row.side)), OutcomeOf(s, id).makers)
  {
    hide Inv, SettlementOf, FillsBooked, Booked, Match, CloseRemainder, SameRemaining, SettleAll, TablesValid, EngineInSync,
      EngineSpec.Submit, SideAgrees;
    var t, row, m, o := s.tables, s.tables.orders[id], s.pending[id], OutcomeOf(s, id);
    var makers := SideOf(s.engines[row.market], Opposite(row.side));
    WaitingIsSubmitted(s, id);
    SettledTaker(s, id);
    SettlementCloses(s, id);
    SettlingBooksFills(t, row.market, m, o.fills);
    MatchIsBooked(t.orders, TakerOf(InputOf(id, row)), makers, row.quantity);
    var settled := SettleAll(t, row.market, m, o.fills).value;
    if CancelledRemainder(ResultOf(s, id).status) {
      ClosingTouchesOne(settled, id, ResultOf(s, id));
      MatchKeepsSide(TakerOf(InputOf(id, row)), makers, row.quantity);
      IdsReduced(o.makers, makers);
      BookedBut(settled.orders, SettlementOf(s, id).value.orders, makers, o.makers, id);
    }
  }

  /** The opposing side lists exactly the opposing orders that are still live. */
  lemma OpposingLists(orders: seq<OrderRow>, orders': seq<OrderRow>, pending: set<OrderId>, mid: MarketId, side: Side,
                      makers: seq<Maker>, left: seq<Maker>, id: OrderId)
    requires Lists(orders, pending, mid, side, makers) && SameOrders(orders, orders') && |orders'| == |orders|
    requires id < |orders| && orders[id].side != side
    requires Booked(orders', makers, left) && SideAgrees(orders', mid, side, left) && Ids(left) <= Ids(makers)
    ensures Lists(orders', pending - {id}, mid, side, left)
  {
    forall i: OrderId
      ensures i in Ids(left) <==> i < |orders'| && RestsIn(orders'[i], mid, side) && i !in pending - {id}
    {
      if i < |orders| {
        assert SameOrder(orders[i], orders'[i]);
      }
      if i in Ids(left) {
        var o :| o in left && o.id == i;
        assert EntryAgrees(orders', mid, side, o);
      } else if i in Ids(makers) {
        var o :| o in makers && o.id == i;
      }
    }
  }

  /** The taker's own side lists exactly its live orders, the taker's remainder included if it rests. */
  lemma OwnLists(orders: seq<OrderRow>, orders': seq<OrderRow>, pending: set<OrderId>, mid: MarketId, side: Side,
                 own: seq<Maker>, own': seq<Maker>, id: OrderId, stays: bool)
    requires Lists(orders, pending, mid, side, own) && |orders'| == |orders|
    requires id < |orders| && id !in Ids(own)
    requires forall i | 0 <= i < |orders| && i != id && orders[i].side == side :: orders'[i] == orders[i]
    requires forall i | 0 <= i < |orders| :: orders'[i].side == orders[i].side
    requires stays <==> RestsIn(orders'[id], mid, side)
    requires Ids(own') == Ids(own) + if stays then {id} else {}
    ensures Lists(orders', pending - {id}, mid, side, own')
  {
  }

  lemma OwnSideIds(input: Input, own: seq<Maker>, remaining: real, stopped: bool, sequence: nat)
    requires Acceptable(input)
    ensures var own' := OwnSide(input, own, remaining, stopped, sequence);
            && Ids(own') == Ids(own) + (if Stays(input, remaining, stopped) then {input.id} else {})
            && (forall o | o in own' :: o in own || (Stays(input, remaining, stopped) && o == Remainder(input, remaining, sequence)))
  {
    if Stays(input, remaining, stopped) {
      InsertMembers(input.side, own, Remainder(input, remaining, sequence));
    }
  }

  lemma OwnRemaining(orders: seq<OrderRow>, orders': seq<OrderRow>, mid: MarketId, side: Side, own: seq<Maker>, own': seq<Maker>, id: OrderId, o: Maker)
    requires SameRemaining(orders, own) && SideAgrees(orders, mid, side, own) && |orders'| == |orders| && id !in Ids(own)
    requires forall i | 0 <= i < |orders| && i != id && orders[i].side == side :: orders'[i] == orders[i]
    requires forall x | x in own' :: x in own || (x == o && id < |orders'| && o.id == id && o.remaining == orders'[id].remaining)
    ensures SameRemaining(orders', own')
  {
    forall x | x in own' ensures x.id < |orders'| && x.remaining == orders'[x.id].remaining {
      if x in own {
        assert EntryAgrees(orders, mid, side, x) && x.id in Ids(own);
      }
    }
  }

  lemma SideIds(orders: seq<OrderRow>, mid: MarketId, side: Side, s: seq<Maker>)
    requires SideAgrees(orders, mid, side, s)
    ensures forall i | i in Ids(s) :: i < |orders| && orders[i].side == side && orders[i].market == mid
  {
    forall o | o in s ensures o.id < |orders| && orders[o.id].side == side && orders[o.id].market == mid {
      assert EntryAgrees(orders, mid, side, o);
    }
  }

  /** What a settled submission leaves of the rows. */
  ghost predicate RowsAfter(orders: seq<OrderRow>, orders': seq<OrderRow>, input: Input, o: Outcome, makers: seq<Maker>) {
    && SameOrders(orders, orders') && |orders'| == |orders| && input.id < |orders|
    && Untouched(orders, orders', TakerOf(input), makers)
    && Booked(orders', makers, o.makers)
    && orders'[input.id].remaining == o.remaining
    && (Live(orders'[input.id]) <==> Stays(input, o.remaining, o.stopped))
  }

  lemma SettledRows(s: State, id: OrderId)
    requires Inv(s) && id in s.pending && id < |s.tables.orders| && s.tables.orders[id].market in s.engines
    requires var row := s.tables.orders[id];
             SameRemaining(s.tables.orders, SideOf(s.engines[row.market], Opposite(row.side)))
    requires SettlementOf(s, id).Ok?
    ensures var row := s.tables.orders[id];
            RowsAfter(s.tables.orders, SettlementOf(s, id).value.orders, InputOf(id, row), OutcomeOf(s, id),
                      SideOf(s.engines[row.market], Opposite(row.side)))
  {
    hide Inv, SettlementOf, Booked, SameRemaining, TablesValid, EngineInSync, EngineSpec.Submit, Match, MatchOf, SameOrder;
    SubmissionSettlesIff(s, id);
    SettledRowFollowsEngine(s, id);
    SettledMakersBooked(s, id);
  }

  /** The market's engine mirrors the rows again. */
  lemma SubmitMirrors(orders: seq<OrderRow>, orders': seq<OrderRow>, pending: set<OrderId>, mid: MarketId, e: Engine, input: Input)
    requires EngineInSync(orders, mid, e) && Mirrors(orders, pending, mid, e)
    requires Acceptable(input) && FreshId(e, input.id)
    requires RowsAfter(orders, orders', input, MatchOf(e, input), SideOf(e, Opposite(input.side)))
    requires orders[input.id].market == mid && orders[input.id].side == input.side && orders[input.id].orderType == input.orderType
    requires EngineInSync(orders', mid, EngineSpec.Submit(e, input).0)
    ensures Mirrors(orders', pending - {input.id}, mid, EngineSpec.Submit(e, input).0)
  {
    hide SideValid, Lists, SameRemaining, SideAgrees, Match, Insert, EngineValid, Uncrossed, SameOrder;
    var o, own, makers := MatchOf(e, input), SideOf(e, input.side), SideOf(e, Opposite(input.side));
    SubmitKeepsUncrossed(e, input);
    SidesReduced(e, input);
    SideIds(orders, mid, Opposite(input.side), makers);
    SameTermsOf(orders, orders');
    OpposingLists(orders, orders', pending, mid, Opposite(input.side), makers, o.makers, input.id);
    OwnSideIds(input, own, o.remaining, o.stopped, e.sequence + 1);
    var own' := OwnSide(input, own, o.remaining, o.stopped, e.sequence + 1);
    OwnLists(orders, orders', pending, mid, input.side, own, own', input.id, Stays(input, o.remaining, o.stopped));
    var rest := if Stays(input, o.remaining, o.stopped) then Remainder(input, o.remaining, e.sequence + 1)
                else Maker(input.id, input.userId, input.side, 0.0, o.remaining, 0);
    OwnRemaining(orders, orders', mid, input.side, own, own', input.id, rest);
  }

  lemma SidesReduced(e: Engine, input: Input)
    requires EngineValid(e) && Acceptable(input)
    ensures Ids(MatchOf(e, input).makers) <= Ids(SideOf(e, Opposite(input.side)))
  {
    MatchKeepsSide(TakerOf(input), SideOf(e, Opposite(input.side)), input.quantity);
    IdsReduced(MatchOf(e, input).makers, SideOf(e, Opposite(input.side)));
  }

  lemma SameTermsOf(orders: seq<OrderRow>, orders': seq<OrderRow>)
    requires SameOrders(orders, orders')
    ensures forall i | 0 <= i < |orders| ::
              orders'[i].market == orders[i].market && orders'[i].side == orders[i].side && orders'[i].orderType == orders[i].orderType
  {
    forall i | 0 <= i < |orders|
      ensures orders'[i].market == orders[i].market && orders'[i].side == orders[i].side && orders'[i].orderType == orders[i].orderType
    {
      assert SameOrder(orders[i], orders'[i]);
    }
  }

  /** An engine keeps mirroring its market while the rows of that market stand. */
  lemma MirrorsElsewhere(
    orders: seq<OrderRow>, orders': seq<OrderRow>, pending: set<OrderId>, pending': set<OrderId>, mid: MarketId, e: Engine)
    requires Mirrors(orders, pending, mid, e) && |orders| <= |orders'|
    requires forall i | 0 <= i < |orders| :: orders'[i].market == orders[i].market
    requires forall i: OrderId | i < |orders| && orders[i].market == mid :: orders'[i] == orders[i] && (i in pending' <==> i in pending)
    requires forall i: OrderId | |orders| <= i < |orders'| :: i in pending'
    ensures Mirrors(orders', pending', mid, e)
  {
    hide Uncrossed;
    ListsStay(orders, orders', pending, pending', mid, Buy, e.bids);
    ListsStay(orders, orders', pending, pending', mid, Sell, e.asks);
  }

  lemma ListsStay(
    orders: seq<OrderRow>, orders': seq<OrderRow>, pending: set<OrderId>, pending': set<OrderId>, mid: MarketId, side: Side, s: seq<Maker>)
    requires Lists(orders, pending, mid, side, s) && SameRemaining(orders, s) && |orders| <= |orders'|
    requires forall i | 0 <= i < |orders| :: orders'[i].market == orders[i].market
    requires forall i: OrderId | i < |orders| && orders[i].market == mid :: orders'[i] == orders[i] && (i in pending' <==> i in pending)
    requires forall i: OrderId | |orders| <= i < |orders'| :: i in pending'
    ensures Lists(orders', pending', mid, side, s) && SameRemaining(orders', s)
  {
    forall o | o in s ensures o.remaining == orders'[o.id].remaining {
      assert o.id in Ids(s);
    }
  }
}
