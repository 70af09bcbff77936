/** The invariant of the whole exchange, kept by every operation and so by every run: whatever is
    placed, matched, settled or fails to settle, cancelled, deposited, withdrawn or restarted. */
module Safety {
  import opened Types
  import opened BookSide
  import opened Matching
  import opened MatchingFacts
  import opened EngineSpec
  import opened Ledger
  import opened Holds
  import opened Settlement
  import opened FillProofs
  import opened Books
  import opened Submission
  import opened Exchange
  import opened Transfers

  type Engines = map<MarketId, Engine>

  /** An engine is well formed and every order in it is backed by a live row. */
  ghost predicate EngineInSync(orders: seq<OrderRow>, mid: MarketId, e: Engine) {
    EngineValid(e) && SideAgrees(orders, mid, Buy, e.bids) && SideAgrees(orders, mid, Sell, e.asks)
  }

  /** A placed order that its engine has not seen yet. */
  ghost predicate Waiting(markets: Markets, engines: Engines, orders: seq<OrderRow>, id: OrderId, m: Market) {
    && id < |orders|
    && var r := orders[id];
    && r.status == Open
    && r.market in markets && r.market in engines
    && m.base == markets[r.market].base && m.quote == markets[r.market].quote
    && FreshId(engines[r.market], id)
  }

  ghost predicate Synced(markets: Markets, engines: Engines, orders: seq<OrderRow>, pending: map<OrderId, Market>) {
    && engines.Keys == markets.Keys
    && (forall mid | mid in engines :: EngineInSync(orders, mid, engines[mid]))
    && (forall id | id in pending :: Waiting(markets, engines, orders, id, pending[id]))
  }

  ghost predicate PairsDistinct(markets: Markets) {
    forall mid | mid in markets :: markets[mid].base != markets[mid].quote
  }

  ghost predicate Inv(s: State) {
    && TablesValid(s.markets, s.tables)
    && PairsDistinct(s.markets)
    && Synced(s.markets, s.engines, s.tables.orders, s.pending)
  }

  // ---------------------------------------------------------------------------
  // Engines and rows
  // ---------------------------------------------------------------------------

  lemma AgreesApart(orders: seq<OrderRow>, orders': seq<OrderRow>, mid: MarketId, side: Side, s: seq<Maker>)
    requires SideAgrees(orders, mid, side, s) && |orders| <= |orders'|
    requires forall i | 0 <= i < |orders| && i in Ids(s) :: orders'[i] == orders[i]
    ensures SideAgrees(orders', mid, side, s)
  {
    forall o | o in s ensures EntryAgrees(orders', mid, side, o) {
      assert EntryAgrees(orders, mid, side, o) && o.id in Ids(s);
    }
  }

  /** Rows of one market may change without disturbing the engines of the others. */
  lemma SyncedElsewhere(
    markets: Markets, engines: Engines, orders: seq<OrderRow>, pending: map<OrderId, Market>,
    mid: MarketId, e': Engine, orders': seq<OrderRow>, pending': map<OrderId, Market>, touched: set<OrderId>)
    requires Synced(markets, engines, orders, pending) && mid in markets
    requires |orders| <= |orders'|
    requires forall i | 0 <= i < |orders| && i !in touched :: orders'[i] == orders[i]
    requires forall i | i in touched :: i < |orders| && orders[i].market == mid
    requires EngineInSync(orders', mid, e')
    requires forall id | id in pending' :: id in pending && pending'[id] == pending[id] && id !in touched && FreshId(e', id)
    ensures Synced(markets, engines[mid := e'], orders', pending')
  {
    hide EngineValid;
    forall other | other in engines && other != mid ensures EngineInSync(orders', other, engines[other]) {
      assert EngineInSync(orders, other, engines[other]);
      NotTouched(orders, other, Buy, engines[other].bids, mid, touched);
      NotTouched(orders, other, Sell, engines[other].asks, mid, touched);
      AgreesApart(orders, orders', other, Buy, engines[other].bids);
      AgreesApart(orders, orders', other, Sell, engines[other].asks);
    }
    forall id | id in pending' ensures Waiting(markets, engines[mid := e'], orders', id, pending'[id]) {
      assert Waiting(markets, engines, orders, id, pending[id]);
    }
  }

  lemma NotTouched(orders: seq<OrderRow>, other: MarketId, side: Side, s: seq<Maker>, mid: MarketId, touched: set<OrderId>)
    requires SideAgrees(orders, other, side, s) && other != mid
    requires forall i | i in touched :: i < |orders| && orders[i].market == mid
    ensures Ids(s) !! touched
  {
    forall o | o in s ensures o.id !in touched {
      assert EntryAgrees(orders, other, side, o);
    }
  }

  // ---------------------------------------------------------------------------
  // Submitting
  // ---------------------------------------------------------------------------

  lemma AgreesReduced(orders: seq<OrderRow>, mid: MarketId, side: Side, makers: seq<Maker>, left: seq<Maker>)
    requires SideAgrees(orders, mid, side, makers)
    requires SideValid(side, left)
    requires forall m' | m' in left :: exists m :: m in makers && ReducedFrom(m', m)
    ensures SideAgrees(orders, mid, side, left)
  {
    MembersReduced(side, left);
    forall m' | m' in left ensures EntryAgrees(orders, mid, side, m') {
      var m :| m in makers && ReducedFrom(m', m);
      assert EntryAgrees(orders, mid, side, m);
    }
  }

  /** The engine after a submission agrees with the rows after it, whether they were settled or not. */
  lemma SubmitInSync(orders: seq<OrderRow>, orders': seq<OrderRow>, mid: MarketId, e: Engine, input: Input)
    requires EngineInSync(orders, mid, e) && Acceptable(input) && FreshId(e, input.id)
    requires Untouched(orders, orders', TakerOf(input), SideOf(e, Opposite(input.side)))
    requires var o := MatchOf(e, input);
             && SideAgrees(orders', mid, Opposite(input.side), o.makers)
             && (Stays(input, o.remaining, o.stopped) ==>
                   EntryAgrees(orders', mid, input.side, Remainder(input, o.remaining, e.sequence + 1)))
    ensures EngineInSync(orders', mid, EngineSpec.Submit(e, input).0)
  {
    var o, own := MatchOf(e, input), SideOf(e, input.side);
    SubmitKeepsValid(e, input);
    hide EngineValid, EntryAgrees, Match;
    assert Ids(own) !! Ids(SideOf(e, Opposite(input.side))) && input.id !in Ids(own) by { SidesApart(e); }
    AgreesApart(orders, orders', mid, input.side, own);
    if Stays(input, o.remaining, o.stopped) {
      InsertMembers(input.side, own, Remainder(input, o.remaining, e.sequence + 1));
    }
  }

  lemma SidesApart(e: Engine)
    requires EngineValid(e)
    ensures Ids(e.bids) !! Ids(e.asks)
  {
  }

  /** A submission adds at most its own id to the engine. */
  lemma SubmitIds(e: Engine, input: Input)
    requires EngineValid(e) && Acceptable(input) && FreshId(e, input.id)
    ensures var e', o := EngineSpec.Submit(e, input).0, MatchOf(e, input);
            && Ids(e'.bids) + Ids(e'.asks) <= Ids(e.bids) + Ids(e.asks) + {input.id}
            && (!Stays(input, o.remaining, o.stopped) ==> FreshId(e', input.id))
  {
    hide SideValid, Match, Insert, ReducedFrom;
    var t, o, opposing := TakerOf(input), MatchOf(e, input), SideOf(e, Opposite(input.side));
    MatchKeepsSide(t, opposing, input.quantity);
    IdsReduced(o.makers, opposing);
    if Stays(input, o.remaining, o.stopped) {
      InsertMembers(input.side, SideOf(e, input.side), Remainder(input, o.remaining, e.sequence + 1));
    }
  }

  ghost function MarketsOf(s: State, id: OrderId): Markets
    requires id in s.pending && id < |s.tables.orders|
  {
    s.markets[s.tables.orders[id].market := s.pending[id]]
  }

  /** What the invariant says of a waiting order: its row, its engine, and its market. */
  lemma WaitingFacts(s: State, id: OrderId)
    requires Inv(s) && id in s.pending
    ensures id < |s.tables.orders|
    ensures var row := s.tables.orders[id];
            && Waiting(s.markets, s.engines, s.tables.orders, id, s.pending[id])
            && row.market in s.engines && row.market in s.markets
            && EngineInSync(s.tables.orders, row.market, s.engines[row.market])
            && SameTerms(s.markets, MarketsOf(s, id)) && PairsDistinct(s.markets)
            && TablesValid(s.markets, s.tables)
  {
    hide TablesValid, EngineInSync;
    assert Waiting(s.markets, s.engines, s.tables.orders, id, s.pending[id]);
    assert EngineInSync(s.tables.orders, s.tables.orders[id].market, s.engines[s.tables.orders[id].market]);
  }

  lemma WaitingIsKnown(s: State)
    requires Inv(s)
    ensures forall id | id in s.pending :: id < |s.tables.orders|
  {
    hide TablesValid, EngineInSync;
    forall id | id in s.pending ensures id < |s.tables.orders| {
      assert Waiting(s.markets, s.engines, s.tables.orders, id, s.pending[id]);
    }
  }

  /** The row of a waiting order is whole. */
  lemma WaitingRow(markets: Markets, t: Tables, id: OrderId)
    requires TablesValid(markets, t) && id < |t.orders| && t.orders[id].status == Open
    ensures var row := t.orders[id];
            && row.quantity > 0.0 && row.remaining == row.quantity
            && Acceptable(InputOf(id, row)) && TakerAgrees(t.orders, row.market, TakerOf(InputOf(id, row)), row.quantity)
  {
    assert OrderValid(markets, t.holds, t.orders, id);
    hide Money, TradesFit, TradesValid, Reconciled, HoldFits;
  }

  /** A waiting order is exactly what its engine and the settlement expect. */
  lemma WaitingIsSubmitted(s: State, id: OrderId)
    requires Inv(s) && id in s.pending
    ensures id < |s.tables.orders|
    ensures var row := s.tables.orders[id];
            var mid, input := row.market, InputOf(id, row);
            && mid in s.engines && mid in s.markets && SameTerms(s.markets, MarketsOf(s, id))
            && EngineInSync(s.tables.orders, mid, s.engines[mid])
            && Acceptable(input) && FreshId(s.engines[mid], id)
            && Submitted(MarketsOf(s, id), s.tables, mid, TakerOf(input), SideOf(s.engines[mid], Opposite(row.side)), row.quantity)
  {
    hide Inv, TablesValid, SideValid, SideAgrees, TakerAgrees;
    WaitingFacts(s, id);
    WaitingRow(s.markets, s.tables, id);
    TermsKeepTables(s.markets, MarketsOf(s, id), s.tables);
  }

  /** The outcome of matching a waiting order. */
  ghost function OutcomeOf(s: State, id: OrderId): Outcome
    requires id < |s.tables.orders| && s.tables.orders[id].market in s.engines
  {
    MatchOf(s.engines[s.tables.orders[id].market], InputOf(id, s.tables.orders[id]))
  }

  /** An unsettled submission leaves the rows alone: the engine has run ahead of them, but no further
      than they allow. */
  lemma UnsettledInSync(s: State, id: OrderId)
    requires Inv(s) && id in s.pending
    ensures id < |s.tables.orders|
    ensures var row := s.tables.orders[id];
            && row.market in s.engines && Acceptable(InputOf(id, row))
            && EngineInSync(s.tables.orders, row.market, EngineSpec.Submit(s.engines[row.market], InputOf(id, row)).0)
  {
    WaitingIsSubmitted(s, id);
    hide Inv, TablesValid;
    var row := s.tables.orders[id];
    var mid, input, orders := row.market, InputOf(id, row), s.tables.orders;
    var e := s.engines[mid];
    var makers, o := SideOf(e, Opposite(row.side)), MatchOf(e, input);
    MatchKeepsSide(TakerOf(input), makers, input.quantity);
    MembersReduced(Opposite(row.side), makers);
    MatchConserves(TakerOf(input), makers, input.quantity);
    AgreesReduced(orders, mid, Opposite(row.side), makers, o.makers);
    hide Match, SideAgrees;
    SubmitInSync(orders, orders, mid, e, input);
  }

  /** The tables after a settled submission, whose remainder rests, is closed, or is nothing. */
  lemma ClosingKeeps(markets: Markets, t: Tables, mid: MarketId, input: Input, o: Outcome, settled: Tables, makers: seq<Maker>)
    requires Acceptable(input)
    requires SettledTo(markets, t, settled, mid, TakerOf(input), makers, o.makers, o.remaining)
    ensures input.id < |settled.orders|
    ensures var result := SubmitResult(input.id, Finalize(input, o.remaining, o.fills != [], o.stopped), o.fills, o.remaining, o.stopped);
            var t' := if CancelledRemainder(result.status) then CloseRemainder(settled, input.id, result) else settled;
            && TablesValid(markets, t')
            && SameOrders(t.orders, t'.orders)
            && Untouched(t.orders, t'.orders, TakerOf(input), makers)
            && (CancelledRemainder(result.status) ==> !Stays(input, o.remaining, o.stopped))
            && (forall i | 0 <= i < |settled.orders| && i != input.id :: t'.orders[i] == settled.orders[i])
            && (!CancelledRemainder(result.status) ==> t' == settled)
  {
    hide TablesValid, SideValid, SideAgrees;
    var result := SubmitResult(input.id, Finalize(input, o.remaining, o.fills != [], o.stopped), o.fills, o.remaining, o.stopped);
    if CancelledRemainder(result.status) {
      CloseRemainderKeepsTables(markets, settled, input.id, result);
      var t' := CloseRemainder(settled, input.id, result);
      forall i | 0 <= i < |t.orders| ensures SameOrder(t.orders[i], t'.orders[i]) {
        assert SameOrder(t.orders[i], settled.orders[i]);
      }
    }
  }

  /** Once settled, the engine and the rows are back in step. */
  lemma SettledInSync(s: State, id: OrderId, t': Tables)
    requires Inv(s) && id in s.pending && id < |s.tables.orders| && s.tables.orders[id].market in s.engines
    requires var row, o := s.tables.orders[id], OutcomeOf(s, id);
             var makers := SideOf(s.engines[row.market], Opposite(row.side));
             && Untouched(s.tables.orders, t'.orders, TakerOf(InputOf(id, row)), makers)
             && SideAgrees(t'.orders, row.market, Opposite(row.side), o.makers)
             && (Stays(InputOf(id, row), o.remaining, o.stopped) ==>
                   TakerAgrees(t'.orders, row.market, TakerOf(InputOf(id, row)), o.remaining))
    ensures var row := s.tables.orders[id];
            && Acceptable(InputOf(id, row))
            && EngineInSync(t'.orders, row.market, EngineSpec.Submit(s.engines[row.market], InputOf(id, row)).0)
  {
    WaitingIsSubmitted(s, id);
    hide Inv, TablesValid, SideAgrees;
    var row := s.tables.orders[id];
    var e, input := s.engines[row.market], InputOf(id, row);
    MembersReduced(Opposite(row.side), SideOf(e, Opposite(row.side)));
    MatchConserves(TakerOf(input), SideOf(e, Opposite(row.side)), input.quantity);
    hide Match, EngineValid, SideValid;
    SubmitInSync(s.tables.orders, t'.orders, row.market, e, input);
  }

  /** What the submission of a waiting order reports. */
  ghost function ResultOf(s: State, id: OrderId): SubmitResult
    requires id < |s.tables.orders| && s.tables.orders[id].market in s.engines
  {
    var o, input := OutcomeOf(s, id), InputOf(id, s.tables.orders[id]);
    SubmitResult(id, Finalize(input, o.remaining, o.fills != [], o.stopped), o.fills, o.remaining, o.stopped)
  }

  ghost function SettlementOf(s: State, id: OrderId): Result<Tables>
    requires id in s.pending && id < |s.tables.orders| && s.tables.orders[id].market in s.engines
  {
    Settle(s.tables, s.tables.orders[id].market, s.pending[id], id, ResultOf(s, id))
  }

  /** The settlement of a waiting order goes through exactly when no fee eats a whole receipt and a
      buyer can pay every fill; it then leaves the tables valid and in step with the engine. */
  lemma SubmissionSettlesIff(s: State, id: OrderId)
    requires Inv(s) && id in s.pending
    ensures id < |s.tables.orders| && s.tables.orders[id].market in s.engines
    ensures var row, r := s.tables.orders[id], SettlementOf(s, id);
            var e, input := s.engines[row.market], InputOf(id, row);
            && Acceptable(input)
            && (r.Ok? <==> Settles(s.tables, s.pending[id], TakerOf(input), ResultOf(s, id).fills))
            && (r.Ok? ==>
                  && TablesValid(s.markets, r.value)
                  && SameOrders(s.tables.orders, r.value.orders)
                  && Untouched(s.tables.orders, r.value.orders, TakerOf(input), SideOf(e, Opposite(row.side)))
                  && EngineInSync(r.value.orders, row.market, EngineSpec.Submit(e, input).0))
  {
    hide Inv, TablesValid, EngineInSync, SideValid, CloseRemainder, SettleAll, Match, Settles,
      SameOrders, EngineSpec.Submit;
    WaitingIsSubmitted(s, id);
    var row, t, m := s.tables.orders[id], s.tables, s.pending[id];
    var mid, input, o := row.market, InputOf(id, row), OutcomeOf(s, id);
    var makers := SideOf(s.engines[mid], Opposite(row.side));
    SettlesMatch(MarketsOf(s, id), t, mid, TakerOf(input), makers, row.quantity);
    var settled := SettleAll(t, mid, m, o.fills);
    if settled.Ok? {
      ClosingKeeps(MarketsOf(s, id), t, mid, input, o, settled.value, makers);
      var t' := SettlementOf(s, id).value;
      TermsKeepTables(MarketsOf(s, id), s.markets, t');
      AgreesApart(settled.value.orders, t'.orders, mid, Opposite(row.side), o.makers);
      SettledInSync(s, id, t');
    }
  }

  lemma MakersInMarket(orders: seq<OrderRow>, mid: MarketId, side: Side, makers: seq<Maker>)
    requires SideAgrees(orders, mid, side, makers)
    ensures forall i | i in Ids(makers) :: i < |orders| && orders[i].market == mid
  {
    forall o | o in makers ensures o.id < |orders| && orders[o.id].market == mid {
      assert EntryAgrees(orders, mid, side, o);
    }
  }

  lemma WaitingStaysFresh(s: State, id: OrderId)
    requires Inv(s) && id in s.pending
    ensures id < |s.tables.orders|
    ensures var row := s.tables.orders[id];
            && row.market in s.engines && Acceptable(InputOf(id, row))
            && var e' := EngineSpec.Submit(s.engines[row.market], InputOf(id, row)).0;
               forall other | other in s.pending && other != id ::
                 && other !in Ids(SideOf(s.engines[row.market], Opposite(row.side)))
                 && FreshId(e', other)
  {
    WaitingIsSubmitted(s, id);
    var row := s.tables.orders[id];
    var e, input := s.engines[row.market], InputOf(id, row);
    SubmitIds(e, input);
    hide TablesValid, EngineValid, EngineSpec.Submit, MatchOf;
    forall other | other in s.pending && other != id
      ensures other !in Ids(e.bids) && other !in Ids(e.asks)
    {
      assert Waiting(s.markets, s.engines, s.tables.orders, other, s.pending[other]);
      MakersInMarket(s.tables.orders, row.market, Buy, e.bids);
      MakersInMarket(s.tables.orders, row.market, Sell, e.asks);
    }
  }

  lemma SubmitIsExec(s: State, id: OrderId)
    ensures Exec(s, SubmitOrder(id)) == ApplySubmit(s, id)
  {
  }

  lemma RejectedSubmit(s: State, id: OrderId)
    requires id !in s.pending
    ensures ApplySubmit(s, id) == Reject(s, NotFound)
  {
  }

  /** Submitting keeps the invariant, whether the settlement goes through or is rolled back. */
  lemma SubmitKeepsInv(s: State, id: OrderId)
    requires Inv(s)
    ensures Inv(ApplySubmit(s, id).state)
  {
    hide TablesValid, EngineInSync, Settle, FreshId, SameOrders, Settles, Match, OwnSide;
    if id !in s.pending { return; }
    SubmissionSettlesIff(s, id);
    UnsettledInSync(s, id);
    WaitingStaysFresh(s, id);
    var row, r := s.tables.orders[id], SettlementOf(s, id);
    var mid := row.market;
    var makers := SideOf(s.engines[mid], Opposite(row.side));
    var e' := EngineSpec.Submit(s.engines[mid], InputOf(id, row)).0;
    WaitingIsSubmitted(s, id);
    MakersInMarket(s.tables.orders, mid, Opposite(row.side), makers);
    SyncedElsewhere(s.markets, s.engines, s.tables.orders, s.pending, mid, e',
                    if r.Ok? then r.value.orders else s.tables.orders, s.pending - {id}, Ids(makers) + {id});
  }

  // ---------------------------------------------------------------------------
  // Placing and cancelling
  // ---------------------------------------------------------------------------

  /** Best prices are positive. */
  lemma RestingPriced(s: State, mid: MarketId, side: Side)
    requires Inv(s) && mid in s.engines && SideOf(s.engines[mid], side) != []
    ensures SideOf(s.engines[mid], side)[0].price > 0.0
  {
    var best := SideOf(s.engines[mid], side)[0];
    assert EngineInSync(s.tables.orders, mid, s.engines[mid]);
    assert best in SideOf(s.engines[mid], side) && EntryAgrees(s.tables.orders, mid, side, best);
    assert OrderValid(s.markets, s.tables.holds, s.tables.orders, best.id);
  }

  lemma SyncedMore(
    markets: Markets, engines: Engines, orders: seq<OrderRow>, pending: map<OrderId, Market>, row: OrderRow, m: Market)
    requires Synced(markets, engines, orders, pending)
    requires row.market in markets && row.status == Open && m == markets[row.market]
    ensures Synced(markets, engines, orders + [row], pending[|orders| := m])
  {
    hide EngineValid;
    forall mid | mid in engines ensures EngineInSync(orders + [row], mid, engines[mid]) {
      assert EngineInSync(orders, mid, engines[mid]);
      AgreesApart(orders, orders + [row], mid, Buy, engines[mid].bids);
      AgreesApart(orders, orders + [row], mid, Sell, engines[mid].asks);
    }
    var id, pending' := |orders|, pending[|orders| := m];
    forall other | other in pending' ensures Waiting(markets, engines, orders + [row], other, pending'[other]) {
      if other == id {
        assert EngineInSync(orders, row.market, engines[row.market]);
        MakersKnown(orders, row.market, Buy, engines[row.market].bids);
        MakersKnown(orders, row.market, Sell, engines[row.market].asks);
      } else {
        assert Waiting(markets, engines, orders, other, pending[other]);
      }
    }
  }

  lemma MakersKnown(orders: seq<OrderRow>, mid: MarketId, side: Side, makers: seq<Maker>)
    requires SideAgrees(orders, mid, side, makers)
    ensures |orders| !in Ids(makers)
  {
    forall o | o in makers ensures o.id != |orders| {
      assert EntryAgrees(orders, mid, side, o);
    }
  }

  lemma PlaceKeepsInv(s: State, userId: UserId, r: Request)
    requires Inv(s)
    ensures Inv(ApplyPlace(s, userId, r).state)
  {
    hide TablesValid, CreateAndLock, EngineInSync, Synced;
    if ApplyPlace(s, userId, r).error.None? {
      var m := s.markets[r.market];
      if r.orderType == MarketOrder {
        RestingPriced(s, r.market, Opposite(r.side));
      }
      var row := NewRow(userId, r, ResolvePrice(m, s.engines[r.market], r).value);
      PlaceKeepsTables(s.markets, s.tables, row);
      SyncedMore(s.markets, s.engines, s.tables.orders, s.pending, row, m);
    }
  }

  lemma CancelInSync(orders: seq<OrderRow>, mid: MarketId, e: Engine, id: OrderId)
    requires EngineInSync(orders, mid, e) && id < |orders|
    ensures EngineInSync(orders[id := orders[id].(status := Cancelled)], mid, EngineSpec.Cancel(e, id))
    ensures FreshId(EngineSpec.Cancel(e, id), id)
    ensures var e' := EngineSpec.Cancel(e, id); Ids(e'.bids) <= Ids(e.bids) && Ids(e'.asks) <= Ids(e.asks)
  {
    hide SideValid, Delete, EngineSpec.Cancel, Uncrossed;
    CancelRemoves(e, id);
    var e', orders' := EngineSpec.Cancel(e, id), orders[id := orders[id].(status := Cancelled)];
    forall o | o in e'.bids ensures EntryAgrees(orders', mid, Buy, o) {
      assert EntryAgrees(orders, mid, Buy, o);
    }
    forall o | o in e'.asks ensures EntryAgrees(orders', mid, Sell, o) {
      assert EntryAgrees(orders, mid, Sell, o);
    }
  }

  lemma CancelKeepsInv(s: State, userId: UserId, id: OrderId)
    requires Inv(s) && id !in s.pending
    ensures Inv(ApplyCancel(s, userId, id).state)
    ensures ApplyCancel(s, userId, id).error.None? <==>
              id < |s.tables.orders| && s.tables.orders[id].userId == userId && Live(s.tables.orders[id])
  {
    hide TablesValid, EngineInSync, EngineSpec.Cancel, ReleaseHold, FreshId;
    if id < |s.tables.orders| && s.tables.orders[id].userId == userId && Live(s.tables.orders[id]) {
      CancelKeepsTables(s.markets, s.tables, id);
      var row := s.tables.orders[id];
      var e := s.engines[row.market];
      CancelInSync(s.tables.orders, row.market, e, id);
      FreshStays(s, row.market, EngineSpec.Cancel(e, id));
      SyncedElsewhere(s.markets, s.engines, s.tables.orders, s.pending, row.market, EngineSpec.Cancel(e, id),
                      s.tables.orders[id := row.(status := Cancelled)], s.pending, {id});
    }
  }

  /** An order that waits for one market stays out of an engine that only lost orders; one that waits
      for another was never in it. */
  lemma FreshStays(s: State, mid: MarketId, e': Engine)
    requires Inv(s) && mid in s.engines
    requires Ids(e'.bids) <= Ids(s.engines[mid].bids) && Ids(e'.asks) <= Ids(s.engines[mid].asks)
    ensures forall id | id in s.pending :: FreshId(e', id)
  {
    var e := s.engines[mid];
    assert EngineInSync(s.tables.orders, mid, e);
    MakersInMarket(s.tables.orders, mid, Buy, e.bids);
    MakersInMarket(s.tables.orders, mid, Sell, e.asks);
    hide TablesValid, EngineInSync;
    forall id | id in s.pending ensures FreshId(e', id) {
      assert Waiting(s.markets, s.engines, s.tables.orders, id, s.pending[id]);
    }
  }

  // ---------------------------------------------------------------------------
  // Restart and market changes
  // ---------------------------------------------------------------------------

  /** A rebuilt side is well formed and agrees exactly with its rows. */
  lemma {:induction false} RebuildSideValid(orders: seq<OrderRow>, mid: MarketId, side: Side)
    requires forall i | 0 <= i < |orders| :: RowValid(orders[i])
    ensures var s := RebuildSide(orders, mid, side);
            && SideValid(side, s)
            && (forall o :: o in s <==> exists i: OrderId :: i < |orders| && RestsIn(orders[i], mid, side) && o == RestoredMaker(i, orders[i]))
  {
    if orders != [] {
      var i := |orders| - 1;
      var older, o := RebuildSide(orders[..i], mid, side), RestoredMaker(i, orders[i]);
      RebuildSideValid(orders[..i], mid, side);
      assert forall j | 0 <= j < i :: orders[..i][j] == orders[j];
      if RestsIn(orders[i], mid, side) {
        InsertMembers(side, older, o);
        InsertValid(side, older, o);
      }
    }
  }

  lemma RebuildInSync(orders: seq<OrderRow>, mid: MarketId)
    requires forall i | 0 <= i < |orders| :: RowValid(orders[i])
    ensures EngineInSync(orders, mid, Rebuild(orders, mid))
  {
    hide SideValid, RebuildSide;
    RebuildSideValid(orders, mid, Buy);
    RebuildSideValid(orders, mid, Sell);
  }

  lemma RestartKeepsInv(s: State)
    requires Inv(s)
    ensures Inv(ApplyRestart(s).state)
  {
    hide TablesValid, EngineInSync, Rebuild;
    RowsValid(s);
    forall mid | mid in s.markets ensures EngineInSync(s.tables.orders, mid, Rebuild(s.tables.orders, mid)) {
      RebuildInSync(s.tables.orders, mid);
    }
  }

  lemma RowsValid(s: State)
    requires Inv(s)
    ensures forall i | 0 <= i < |s.tables.orders| :: RowValid(s.tables.orders[i])
  {
    forall i: OrderId | i < |s.tables.orders| ensures RowValid(s.tables.orders[i]) {
      assert OrderValid(s.markets, s.tables.holds, s.tables.orders, i);
    }
  }

  lemma UpdateMarketKeepsInv(s: State, id: MarketId, status: Option<MarketStatus>, makerFee: Option<real>, takerFee: Option<real>)
    requires Inv(s)
    ensures Inv(ApplyUpdateMarket(s, id, status, makerFee, takerFee).state)
  {
    hide TablesValid, EngineInSync;
    if id in s.markets {
      var s' := ApplyUpdateMarket(s, id, status, makerFee, takerFee).state;
      TermsKeepTables(s.markets, s'.markets, s.tables);
      forall other | other in s.pending
        ensures Waiting(s'.markets, s.engines, s.tables.orders, other, s.pending[other])
      {
        assert Waiting(s.markets, s.engines, s.tables.orders, other, s.pending[other]);
      }
    }
  }

  // ---------------------------------------------------------------------------
  // Every run
  // ---------------------------------------------------------------------------

  lemma MoneyKeepsInv(s: State, op: Op)
    requires Inv(s)
    requires op.GrantFunds? || op.CreateDeposit? || op.ConfirmDeposit? || op.Withdraw? || op.Adjust?
    ensures Inv(Exec(s, op).state)
  {
    hide TablesValid, Synced, PostEntries, TransferEntries, PairsDistinct, Booked;
    var s' := Exec(s, op).state;
    assert Booked(s.markets, s.tables) by { ValidIsBooked(s.markets, s.tables); }
    FundsKeepBooked(s, op);
    BookedTables(s.markets, s.tables, s'.tables);
  }

  /** Every operation keeps the invariant, whether it goes through or is rejected. */
  lemma StepKeepsInv(s: State, op: Op)
    requires Inv(s) && Enabled(s, op)
    ensures Inv(Exec(s, op).state)
  {
    hide Inv, ApplyPlace, ApplySubmit, ApplyCancel, ApplyUpdateMarket, ApplyRestart, ApplyGrant, ApplyCreateDeposit,
      ApplyWithdraw, ApplyAdjust, Confirm;
    match op
    case Place(userId, request) => PlaceKeepsInv(s, userId, request);
    case SubmitOrder(id) => SubmitKeepsInv(s, id);
    case CancelOrder(userId, id) => CancelKeepsInv(s, userId, id);
    case UpdateMarket(id, status, makerFee, takerFee) => UpdateMarketKeepsInv(s, id, status, makerFee, takerFee);
    case Restart => RestartKeepsInv(s);
    case _ => MoneyKeepsInv(s, op);
  }

  lemma InitHasInv(markets: Markets)
    requires PairsDistinct(markets)
    ensures Inv(Init(markets))
  {
    var s := Init(markets);
    forall k ensures ActiveSum(s.tables.holds, k) == 0.0 {
      assert Weights(s.tables.holds, k) == map[];
    }
    forall asset ensures AssetTotal(s.tables.accounts, asset) == 0.0 {
      assert AssetWeights(s.tables.accounts, asset) == map[];
    }
  }

  lemma {:induction false} RunKeepsInv(s: State, ops: seq<Op>)
    requires Inv(s) && AllEnabled(s, ops)
    ensures Inv(Run(s, ops))
    decreases |ops|
  {
    hide Inv, Exec;
    if ops != [] {
      StepKeepsInv(s, ops[0]);
      RunKeepsInv(Exec(s, ops[0]).state, ops[1..]);
    }
  }

  /** From an empty exchange, every run of enabled operations stays within the invariant. */
  lemma EveryRunIsSafe(markets: Markets, ops: seq<Op>)
    requires PairsDistinct(markets) && AllEnabled(Init(markets), ops)
    ensures Inv(Run(Init(markets), ops))
  {
    InitHasInv(markets);
    RunKeepsInv(Init(markets), ops);
  }
}
