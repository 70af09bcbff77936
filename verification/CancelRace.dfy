/** An order cancelled after it was placed and before it is submitted. What its submission then does, and
    exactly when it does nothing. */
module CancelRace {
  import opened Types
  import opened BookSide
  import opened Matching
  import opened MatchingFacts
  import opened EngineSpec
  import opened Ledger
  import opened Holds
  import opened Settlement
  import opened FillProofs
  import opened Books
  import opened Submission
  import opened Exchange
  import opened Transfers
  import opened Safety
  import opened OrderHistory
  import opened Agreement
  import opened AgreementRuns
  import opened MatchingEngines

  /** The exchange once the owner has cancelled an order that still waits. */
  function AfterCancel(s: State, id: OrderId): State
    requires id < |s.tables.orders|
  {
    ApplyCancel(s, s.tables.orders[id].userId, id).state
  }

  /** The cancel succeeds, finds nothing on the book, and leaves the order waiting. */
  lemma CancelFindsNothing(s: State, id: OrderId)
    requires Inv(s) && id in s.pending
    ensures id < |s.tables.orders| && s.tables.orders[id].market in s.engines && s.tables.orders[id].market in s.markets
    ensures var row, c := s.tables.orders[id], AfterCancel(s, id);
            && ApplyCancel(s, row.userId, id).error.None?
            && c == s.(tables := c.tables)
            && c.tables == s.tables.(accounts := c.tables.accounts, holds := c.tables.holds,
                                     orders := s.tables.orders[id := row.(status := Cancelled)])
            && TablesValid(c.markets, c.tables)
            && id in c.tables.holds && c.tables.holds[id].status == Released
            && Acceptable(InputOf(id, row)) && InputOf(id, c.tables.orders[id]) == InputOf(id, row)
  {
    hide TablesValid, EngineInSync, EngineSpec.Cancel, FreshId, Submitted;
    WaitingFacts(s, id);
    WaitingIsSubmitted(s, id);
    CancelKeepsTables(s.markets, s.tables, id);
    OrderFacts(s, id);
    var row := s.tables.orders[id];
    CancelAbsent(s.engines[row.market], id);
    assert s.engines[row.market := s.engines[row.market]] == s.engines;
  }

  lemma CancelAbsent(e: Engine, id: OrderId)
    requires FreshId(e, id)
    ensures EngineSpec.Cancel(e, id) == e
  {
    DeleteAbsentIf(e.asks, id);
  }

  /** What the late submission does, settled or not. */
  ghost function LateSettlement(s: State, id: OrderId): Result<Tables>
    requires id in s.pending && id < |s.tables.orders| && s.tables.orders[id].market in s.engines
  {
    Settle(AfterCancel(s, id).tables, s.tables.orders[id].market, s.pending[id], id, ResultOf(s, id))
  }

  lemma LateSubmission(s: State, id: OrderId)
    requires Inv(s) && id in s.pending
    ensures id < |s.tables.orders| && s.tables.orders[id].market in s.engines
    ensures var row, c, r := s.tables.orders[id], AfterCancel(s, id), LateSettlement(s, id);
            && Acceptable(InputOf(id, row))
            && ApplySubmit(c, id).state == s.(
                 engines := s.engines[row.market := EngineSpec.Submit(s.engines[row.market], InputOf(id, row)).0],
                 pending := s.pending - {id},
                 tables := if r.Ok? then r.value else c.tables)
            && (ApplySubmit(c, id).error.None? <==> r.Ok?)
  {
    hide Inv, TablesValid, Match, OwnSide, Settle, SettleAll, ApplyCancel;
    CancelFindsNothing(s, id);
    SubmittedState(AfterCancel(s, id), id);
    SubmitCommits(AfterCancel(s, id), id);
  }

  // ---------------------------------------------------------------------------
  // The book
  // ---------------------------------------------------------------------------

  lemma UniqueIds(side: Side, best: Maker, worse: seq<Maker>, o: Maker)
    requires SideValid(side, [best] + worse) && o in [best] + worse && o.id == best.id
    ensures o == best
  {
    SideTail(side, best, worse);
    forall m | m in worse ensures m.id != best.id {
      assert Precedes(side, best, m);
    }
  }

  lemma MatchMovesIff(t: Taker, makers: seq<Maker>, quantity: real)
    requires SideValid(Opposite(t.side), makers)
    ensures Match(t, makers, quantity).makers == makers <==> Match(t, makers, quantity).fills == []
  {
    hide SideValid;
    var o := Match(t, makers, quantity);
    if o.fills == [] {
      NoMatchIfNone(t, makers, quantity);
    } else {
      FirstMakerMoved(t, makers, quantity);
      var best, worse := makers[0], makers[1..];
      assert makers == [best] + worse && best in makers && best.id in Ids(makers);
      if o.makers == makers {
        var x :| x in makers && x.id == best.id && x.remaining < best.remaining;
        UniqueIds(Opposite(t.side), best, worse, x);
      }
    }
  }

  lemma NoMatchIfNone(t: Taker, makers: seq<Maker>, quantity: real)
    requires Match(t, makers, quantity).fills == []
    ensures Match(t, makers, quantity).makers == makers
  {
  }

  lemma OwnMovesIff(input: Input, own: seq<Maker>, remaining: real, stopped: bool, sequence: nat)
    requires Acceptable(input) && input.id !in Ids(own)
    ensures OwnSide(input, own, remaining, stopped, sequence) == own <==> !Stays(input, remaining, stopped)
  {
    OwnSideIds(input, own, remaining, stopped, sequence);
  }

  /** What the owner of the order can read off the opposing side beforehand: a market order finds nobody
      there, or itself first; a limit order finds itself first, at a price it crosses. */
  predicate MeetsNobody(row: OrderRow, opposing: seq<Maker>) {
    if row.orderType == MarketOrder then opposing == [] || opposing[0].userId == row.userId
    else opposing != [] && opposing[0].userId == row.userId && Crosses(row.side, row.price, opposing[0].price)
  }

  /** The head of the opposing side decides whether a submission does anything to the book. */
  lemma HeadDecides(id: OrderId, row: OrderRow, opposing: seq<Maker>)
    requires row.quantity > 0.0
    ensures var input := InputOf(id, row);
            var o := Match(TakerOf(input), opposing, row.quantity);
            o.fills == [] && !Stays(input, o.remaining, o.stopped) <==> MeetsNobody(row, opposing)
  {
  }

  /** The late submission leaves the book alone if and only if a market order finds the opposing side empty
      or headed by its owner's order, or a limit order crosses a head that is its owner's. */
  lemma LateSubmissionMovesBookIff(s: State, id: OrderId)
    requires Inv(s) && id in s.pending
    ensures id < |s.tables.orders| && s.tables.orders[id].market in s.engines
    ensures var row, o := s.tables.orders[id], OutcomeOf(s, id);
            var e, s' := s.engines[row.market], ApplySubmit(AfterCancel(s, id), id).state;
            && row.market in s'.engines
            && (s'.engines[row.market].bids == e.bids && s'.engines[row.market].asks == e.asks <==>
                  MeetsNobody(row, SideOf(e, Opposite(row.side))))
            && (o.fills == [] && !Stays(InputOf(id, row), o.remaining, o.stopped) <==> MeetsNobody(row, SideOf(e, Opposite(row.side))))
            && (forall mid | mid in s.engines && mid != row.market :: mid in s'.engines && s'.engines[mid] == s.engines[mid])
  {
    hide Inv, TablesValid, SideValid, Match, OwnSide, Stays, ApplySubmit, AfterCancel, LateSettlement, SideAgrees, MeetsNobody;
    WaitingIsSubmitted(s, id);
    WaitingUnfilled(s, id);
    LateSubmission(s, id);
    var row, o := s.tables.orders[id], OutcomeOf(s, id);
    var e, input := s.engines[row.market], InputOf(id, row);
    HeadDecides(id, row, SideOf(e, Opposite(row.side)));
    MatchMovesIff(TakerOf(input), SideOf(e, Opposite(row.side)), row.quantity);
    OwnMovesIff(input, SideOf(e, row.side), o.remaining, o.stopped, e.sequence + 1);
  }

  // ---------------------------------------------------------------------------
  // The row and the trades
  // ---------------------------------------------------------------------------

  lemma {:induction false} SettlingRecords(t: Tables, mid: MarketId, m: Market, fills: seq<Fill>)
    requires SettleAll(t, mid, m, fills).Ok?
    ensures |SettleAll(t, mid, m, fills).value.trades| == |t.trades| + |fills|
    decreases |fills|
  {
    if fills != [] {
      SettlingRecords(SettleFill(t, mid, m, fills[0]).value, mid, m, fills[1..]);
    }
  }

  /** Booking fills on a taker adds them up, whatever the row's status was. */
  lemma {:induction false} TakerBooked(orders: seq<OrderRow>, t: Taker, makers: seq<Maker>, quantity: real)
    requires forall m | m in makers :: m.remaining > 0.0 && m.id < |orders|
    requires t.id < |orders| && t.id !in Ids(makers) && quantity >= 0.0 && orders[t.id].remaining == quantity
    ensures var o := Match(t, makers, quantity);
            var r' := FillsBooked(orders, o.fills)[t.id];
            && r'.remaining == o.remaining && r'.filled == orders[t.id].filled + FilledQuantity(o.fills)
            && (o.fills == [] ==> r' == orders[t.id])
            && (o.fills != [] ==> r'.status == if o.remaining <= 0.0 then Filled else PartiallyFilled)
    decreases |makers|
  {
    hide FillsBooked, Match, MayTrade;
    if quantity <= 0.0 || makers == [] || !MayTrade(t, makers[0]) {
      NoMatch(t, makers, quantity);
      NothingBooked(orders);
      return;
    }
    var best, worse := makers[0], makers[1..];
    assert makers == [best] + worse && best in makers && forall m | m in worse :: m in makers && m.id in Ids(makers);
    assert best.id in Ids(makers);
    MatchCons(t, best, worse, quantity);
    var q := Min(best.remaining, quantity);
    var f := FillAgainst(t, best, q);
    var rest := if best.remaining <= quantity then Match(t, worse, quantity - q) else Outcome([], worse, 0.0, false);
    assert Match(t, makers, quantity).fills == [f] + rest.fills && Match(t, makers, quantity).remaining == rest.remaining;
    assert ([f] + rest.fills)[1..] == rest.fills;
    var orders1 := OrdersAfter(orders, f);
    assert orders1[t.id] == ApplyFillToOrder(orders[t.id], q);
    FillsBookedCons(orders, f, rest.fills);
    if best.remaining <= quantity {
      TakerBooked(orders1, t, worse, quantity - q);
    } else {
      NothingBooked(orders1);
    }
  }

  lemma LateFillsBooked(s: State, id: OrderId)
    requires Inv(s) && id in s.pending
    ensures id < |s.tables.orders| && s.tables.orders[id].market in s.engines
    ensures var row, o, c := s.tables.orders[id], OutcomeOf(s, id), AfterCancel(s, id).tables;
            var settled := SettleAll(c, row.market, s.pending[id], o.fills);
            && 0.0 <= o.remaining && (o.fills == [] ==> settled.Ok?)
            && (settled.Ok? ==>
                  && |settled.value.trades| == |s.tables.trades| + |o.fills|
                  && |settled.value.orders| == |s.tables.orders|
                  && settled.value.orders[id].remaining == o.remaining
                  && settled.value.orders[id].filled == FilledQuantity(o.fills)
                  && (o.fills == [] ==> settled.value == c)
                  && (o.fills != [] ==> settled.value.orders[id].status == if o.remaining <= 0.0 then Filled else PartiallyFilled))
  {
    hide Inv, TablesValid, SideValid, Match, SettleAll, FillsBooked, AfterCancel, EngineInSync, FilledQuantity, SideAgrees, RowValid;
    WaitingIsSubmitted(s, id);
    CancelFindsNothing(s, id);
    OrderFacts(s, id);
    WaitingUnfilled(s, id);
    var row, o, c := s.tables.orders[id], OutcomeOf(s, id), AfterCancel(s, id).tables;
    var t, makers := TakerOf(InputOf(id, row)), SideOf(s.engines[row.market], Opposite(row.side));
    MembersReduced(Opposite(row.side), makers);
    MakersInMarket(s.tables.orders, row.market, Opposite(row.side), makers);
    MatchConserves(t, makers, row.quantity);
    forall m | m in makers ensures m.id < |c.orders| {
      assert m.id in Ids(makers);
    }
    NothingToSettle(c, row.market, s.pending[id]);
    if SettleAll(c, row.market, s.pending[id], o.fills).Ok? {
      TakerBooked(c.orders, t, makers, row.quantity);
      SettlingRecords(c, row.market, s.pending[id], o.fills);
      SettlingBooksFills(c, row.market, s.pending[id], o.fills);
    }
  }

  lemma WaitingUnfilled(s: State, id: OrderId)
    requires Inv(s) && id in s.pending
    ensures id < |s.tables.orders|
    ensures s.tables.orders[id].filled == 0.0 && s.tables.orders[id].remaining == s.tables.orders[id].quantity > 0.0
  {
    WaitingFacts(s, id);
    OrderFacts(s, id);
  }

  lemma LateCloses(s: State, id: OrderId)
    requires Inv(s) && id in s.pending && id < |s.tables.orders| && s.tables.orders[id].market in s.engines
    requires OutcomeOf(s, id).remaining >= 0.0
    ensures var result, c := ResultOf(s, id), AfterCancel(s, id).tables;
            var settled := SettleAll(c, s.tables.orders[id].market, s.pending[id], result.fills);
            && LateSettlement(s, id).Ok? == settled.Ok?
            && (settled.Ok? && id < |settled.value.orders| ==>
                  LateSettlement(s, id).value ==
                    if CancelledRemainder(result.status) then CloseRemainder(settled.value, id, result) else settled.value)
  {
    hide SettleAll, Match, CloseRemainder, AfterCancel, Inv;
  }

  /** Matching nothing, the late submission settles, leaves the row CANCELLED and adds no trade; the funds
      stay where the cancel put them. Matching something, it either fails, or books its fills on the
      cancelled row, which ends as the engine reports: the order lives on. */
  lemma LateSubmissionRevives(s: State, id: OrderId)
    requires Inv(s) && id in s.pending
    ensures id < |s.tables.orders| && s.tables.orders[id].market in s.engines
    ensures var o, c, late := OutcomeOf(s, id), AfterCancel(s, id), ApplySubmit(AfterCancel(s, id), id);
            var t' := late.state.tables;
            && |t'.orders| == |s.tables.orders|
            && (o.fills == [] ==>
                  && late.error.None? && t'.orders[id].status == Cancelled && t'.orders[id].filled == 0.0
                  && t'.trades == s.tables.trades && t'.accounts == c.tables.accounts && t'.holds == c.tables.holds)
            && (o.fills != [] && late.error.None? ==>
                  && |t'.trades| == |s.tables.trades| + |o.fills|
                  && t'.orders[id].filled == FilledQuantity(o.fills) > 0.0
                  && StatusMatches(t'.orders[id], ResultOf(s, id)))
            && (o.fills != [] && late.error.Some? ==> t' == c.tables)
  {
    hide Inv, TablesValid, SideValid, Match, SettleAll, FillsBooked, AfterCancel, EngineInSync, EngineSpec.Submit, ApplySubmit,
      LateSettlement, FilledQuantity, SideAgrees;
    WaitingIsSubmitted(s, id);
    CancelFindsNothing(s, id);
    WaitingUnfilled(s, id);
    LateSubmission(s, id);
    LateFillsBooked(s, id);
    LateCloses(s, id);
    FilledSomething(s, id);
  }

  lemma FilledSomething(s: State, id: OrderId)
    requires Inv(s) && id in s.pending && id < |s.tables.orders| && s.tables.orders[id].market in s.engines
    ensures OutcomeOf(s, id).fills != [] ==> FilledQuantity(OutcomeOf(s, id).fills) > 0.0
  {
    hide Inv, TablesValid, SideValid, Match, EngineInSync, SideAgrees;
    WaitingIsSubmitted(s, id);
    var row := s.tables.orders[id];
    var t, makers := TakerOf(InputOf(id, row)), SideOf(s.engines[row.market], Opposite(row.side));
    MembersReduced(Opposite(row.side), makers);
    MatchConserves(t, makers, row.quantity);
    if OutcomeOf(s, id).fills != [] {
      SomethingFilled(t, makers, row.quantity);
    }
  }

  /** Matching nothing and resting, the cancelled order is stranded: it stands on the book with its row
      cancelled and its funds back with the owner, and the invariant is gone. */
  lemma CancelBeforeSubmitStrands(s: State, id: OrderId)
    requires Inv(s) && id in s.pending
    ensures id < |s.tables.orders| && s.tables.orders[id].market in s.engines
    ensures var row, o, late := s.tables.orders[id], OutcomeOf(s, id), ApplySubmit(AfterCancel(s, id), id);
            o.fills == [] && Stays(InputOf(id, row), o.remaining, o.stopped) ==>
              && late.error.None? && |late.state.tables.orders| == |s.tables.orders|
              && late.state.tables.orders[id].status == Cancelled
              && row.market in late.state.engines && id in Ids(SideOf(late.state.engines[row.market], row.side))
              && !Inv(late.state)
  {
    hide Inv, TablesValid, SideValid, Match, Insert, Stays, AfterCancel, LateSettlement, ApplySubmit, EngineInSync, SideAgrees;
    WaitingIsSubmitted(s, id);
    LateSubmission(s, id);
    LateSubmissionRevives(s, id);
    var row, o := s.tables.orders[id], OutcomeOf(s, id);
    var e, input, late := s.engines[row.market], InputOf(id, row), ApplySubmit(AfterCancel(s, id), id).state;
    OwnSideIds(input, SideOf(e, row.side), o.remaining, o.stopped, e.sequence + 1);
    if o.fills == [] && Stays(input, o.remaining, o.stopped) {
      Stranded(late, id, row.market, row.side);
    }
  }

  lemma Stranded(s: State, id: OrderId, mid: MarketId, side: Side)
    requires id < |s.tables.orders| && s.tables.orders[id].status == Cancelled
    requires mid in s.engines && id in Ids(SideOf(s.engines[mid], side))
    ensures !Inv(s)
  {
    var o :| o in SideOf(s.engines[mid], side) && o.id == id;
    hide TablesValid, EngineValid;
    assert !EntryAgrees(s.tables.orders, mid, side, o);
    assert !EngineInSync(s.tables.orders, mid, s.engines[mid]);
  }
}
