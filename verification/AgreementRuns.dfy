/** Book and rows stay in step over every run whose settlements go through, and a settlement that
    fails is exactly what takes them apart. */
module AgreementRuns {
  import opened Types
  import opened BookSide
  import opened Matching
  import opened MatchingFacts
  import opened EngineSpec
  import opened Ledger
  import opened Holds
  import opened Settlement
  import opened FillProofs
  import opened Books
  import opened Submission
  import opened Exchange
  import opened Transfers
  import opened Safety
  import opened OrderHistory
  import opened Solvency
  import opened Agreement

  lemma SubmitKeepsInStep(s: State, id: OrderId)
    requires Inv(s) && InStep(s) && id in s.pending && id < |s.tables.orders| && s.tables.orders[id].market in s.engines
    requires SettlementOf(s, id).Ok?
    ensures InStep(ApplySubmit(s, id).state)
  {
    hide TablesValid, SettlementOf, RowsAfter, Mirrors, EngineInSync, Match, OwnSide, SameOrder, StatusMatches, EngineValid;
    SubmissionSettlesIff(s, id);
    WaitingIsSubmitted(s, id);
    var row, t' := s.tables.orders[id], SettlementOf(s, id).value;
    var mid, input, e := row.market, InputOf(id, row), s.engines[row.market];
    SubmittedState(s, id);
    var s' := ApplySubmit(s, id).state;
    var pending' := s.pending.Keys - {id};
    assert s'.pending.Keys == pending';
    MakersMirrored(s, id);
    SettledRows(s, id);
    SettledRowFollowsEngine(s, id);
    SubmitMirrors(s.tables.orders, t'.orders, s.pending.Keys, mid, e, input);
    SubmitSparesOthers(s, id);
    forall other | other in s'.engines ensures Mirrors(s'.tables.orders, s'.pending.Keys, other, s'.engines[other]) {
      if other != mid {
        MirrorsElsewhere(s.tables.orders, t'.orders, s.pending.Keys, pending', other, s.engines[other]);
      }
    }
    SettledMarketRows(s, id);
  }

  lemma SubmittedState(s: State, id: OrderId)
    requires id in s.pending && id < |s.tables.orders| && s.tables.orders[id].market in s.engines
    requires Acceptable(InputOf(id, s.tables.orders[id]))
    ensures var row, r := s.tables.orders[id], SettlementOf(s, id);
            ApplySubmit(s, id).state == s.(
              engines := s.engines[row.market := EngineSpec.Submit(s.engines[row.market], InputOf(id, row)).0],
              pending := s.pending - {id},
              tables := if r.Ok? then r.value else s.tables)
  {
    hide Settle, Match, OwnSide;
  }

  lemma MakersMirrored(s: State, id: OrderId)
    requires InStep(s) && id < |s.tables.orders| && s.tables.orders[id].market in s.engines
    ensures var row := s.tables.orders[id];
            var e := s.engines[row.market];
            && Mirrors(s.tables.orders, s.pending.Keys, row.market, e)
            && SameRemaining(s.tables.orders, SideOf(e, Opposite(row.side)))
            && Lists(s.tables.orders, s.pending.Keys, row.market, Opposite(row.side), SideOf(e, Opposite(row.side)))
  {
  }

  /** A settled submission leaves the rows of other markets alone. */
  lemma SubmitSparesOthers(s: State, id: OrderId)
    requires Inv(s) && id in s.pending && id < |s.tables.orders| && s.tables.orders[id].market in s.engines
    requires SettlementOf(s, id).Ok?
    ensures var orders, orders' := s.tables.orders, SettlementOf(s, id).value.orders;
            && |orders'| == |orders|
            && (forall i | 0 <= i < |orders| :: orders'[i].market == orders[i].market)
            && (forall i: OrderId | i < |orders| && orders[i].market != orders[id].market ::
                  orders'[i] == orders[i] && (i in s.pending.Keys - {id} <==> i in s.pending))
  {
    hide TablesValid, SettlementOf, Match, SameOrder, EngineSpec.Submit, SideAgrees, EngineInSync, Settles, Inv;
    SubmissionSettlesIff(s, id);
    WaitingIsSubmitted(s, id);
    var row := s.tables.orders[id];
    SideIds(s.tables.orders, row.market, Opposite(row.side), SideOf(s.engines[row.market], Opposite(row.side)));
    SameTermsOf(s.tables.orders, SettlementOf(s, id).value.orders);
  }

  /** A settled market order is finished, and no other market row was open. */
  lemma SettledMarketRows(s: State, id: OrderId)
    requires Inv(s) && InStep(s) && id in s.pending && id < |s.tables.orders| && s.tables.orders[id].market in s.engines
    requires SettlementOf(s, id).Ok?
    ensures var orders' := SettlementOf(s, id).value.orders;
            forall i: OrderId | i < |orders'| && orders'[i].orderType == MarketOrder :: Live(orders'[i]) ==> i in s.pending && i != id
  {
    hide Inv, TablesValid, SettlementOf, Match, Mirrors, EngineSpec.Submit, EngineInSync, Settles, Untouched;
    SubmissionSettlesIff(s, id);
    SettledRowFollowsEngine(s, id);
    SameTermsOf(s.tables.orders, SettlementOf(s, id).value.orders);
    SubmitSparesOthers(s, id);
    var orders, orders' := s.tables.orders, SettlementOf(s, id).value.orders;
    forall i: OrderId | i < |orders'| && orders'[i].orderType == MarketOrder && Live(orders'[i]) ensures i in s.pending && i != id {
      assert SameOrder(orders[i], orders'[i]);
    }
  }

  // ---------------------------------------------------------------------------
  // A failed settlement
  // ---------------------------------------------------------------------------

  lemma FirstMakerMoved(t: Taker, makers: seq<Maker>, quantity: real)
    requires SideValid(Opposite(t.side), makers) && Match(t, makers, quantity).fills != []
    ensures makers != []
    ensures var left := Match(t, makers, quantity).makers;
            makers[0].id !in Ids(left) || exists o :: o in left && o.id == makers[0].id && o.remaining < makers[0].remaining
  {
    var best, worse := makers[0], makers[1..];
    assert makers == [best] + worse;
    SideTail(Opposite(t.side), best, worse);
    MatchCons(t, best, worse, quantity);
    if best.remaining <= quantity {
      var rest := Match(t, worse, quantity - best.remaining);
      MatchKeepsSide(t, worse, quantity - best.remaining);
      IdsReduced(rest.makers, worse);
    } else {
      assert [best.(remaining := best.remaining - quantity)] + worse == Match(t, makers, quantity).makers;
      var reduced := Match(t, makers, quantity).makers[0];
      assert reduced in Match(t, makers, quantity).makers;
    }
  }

  /** When a settlement fails, the engine has taken from a maker whose row is as before. */
  lemma FailureBreaksStep(s: State, id: OrderId)
    requires Inv(s) && InStep(s) && id in s.pending && id < |s.tables.orders| && s.tables.orders[id].market in s.engines
    requires SettlementOf(s, id).Err?
    ensures !InStep(ApplySubmit(s, id).state)
  {
    hide Inv, TablesValid, SettlementOf, Match, OwnSide, SideValid, FilledQuantity, QuoteTotal, Uncrossed, EngineInSync, SideAgrees;
    SubmissionSettlesExactlyWhen(s, id);
    WaitingIsSubmitted(s, id);
    var row := s.tables.orders[id];
    var mid, input, e := row.market, InputOf(id, row), s.engines[row.market];
    var makers := SideOf(e, Opposite(row.side));
    MakersMirrored(s, id);
    SubmittedState(s, id);
    var s' := ApplySubmit(s, id).state;
    assert s'.tables == s.tables && s'.engines[mid] == EngineSpec.Submit(e, input).0;
    var left := OutcomeOf(s, id).makers;
    FirstMakerMoved(TakerOf(input), makers, row.quantity);
    assert makers[0] in makers && makers[0].id in Ids(makers);
    assert SideOf(s'.engines[mid], Opposite(row.side)) == left;
    assert !Mirrors(s.tables.orders, s'.pending.Keys, mid, s'.engines[mid]);
  }

  /** Book and rows stay in step exactly when the submission can be paid for. */
  lemma StaysInStepIff(s: State, id: OrderId)
    requires Inv(s) && InStep(s) && id in s.pending
    ensures id < |s.tables.orders| && s.tables.orders[id].market in s.engines
    ensures InStep(ApplySubmit(s, id).state) <==> CanSettle(s, id)
  {
    hide Inv, InStep, SettlementOf, ApplySubmit, CanSettle;
    WaitingIsSubmitted(s, id);
    SubmissionSettlesExactlyWhen(s, id);
    if SettlementOf(s, id).Ok? {
      SubmitKeepsInStep(s, id);
    } else {
      FailureBreaksStep(s, id);
    }
  }

  // ---------------------------------------------------------------------------
  // The other operations
  // ---------------------------------------------------------------------------

  lemma PlaceKeepsInStep(s: State, userId: UserId, r: Request)
    requires Inv(s) && InStep(s)
    ensures InStep(ApplyPlace(s, userId, r).state)
  {
    hide Inv, Mirrors, LockFunds;
    var s' := ApplyPlace(s, userId, r).state;
    if ApplyPlace(s, userId, r).error.None? {
      assert s'.pending.Keys == s.pending.Keys + {|s.tables.orders|};
      forall mid | mid in s'.engines ensures Mirrors(s'.tables.orders, s'.pending.Keys, mid, s'.engines[mid]) {
        MirrorsElsewhere(s.tables.orders, s'.tables.orders, s.pending.Keys, s'.pending.Keys, mid, s.engines[mid]);
      }
    }
  }

  lemma CancelMirrors(orders: seq<OrderRow>, pending: set<OrderId>, mid: MarketId, e: Engine, id: OrderId)
    requires EngineInSync(orders, mid, e) && Mirrors(orders, pending, mid, e)
    requires id < |orders| && orders[id].market == mid
    ensures Mirrors(orders[id := orders[id].(status := Cancelled)], pending, mid, EngineSpec.Cancel(e, id))
  {
    hide SideValid, Delete, EngineSpec.Cancel, Uncrossed, SideAgrees;
    CancelRemoves(e, id);
    var e', orders' := EngineSpec.Cancel(e, id), orders[id := orders[id].(status := Cancelled)];
    assert Ids(e'.bids) == Ids(e.bids) - {id} && Ids(e'.asks) == Ids(e.asks) - {id};
  }

  lemma CancelKeepsInStep(s: State, userId: UserId, id: OrderId)
    requires Inv(s) && InStep(s) && id !in s.pending
    ensures InStep(ApplyCancel(s, userId, id).state)
  {
    hide TablesValid, Mirrors, EngineInSync, EngineSpec.Cancel, ReleaseHold;
    var s' := ApplyCancel(s, userId, id).state;
    if ApplyCancel(s, userId, id).error.None? {
      var row, orders' := s.tables.orders[id], s'.tables.orders;
      CancelKeepsTables(s.markets, s.tables, id);
      assert EngineInSync(s.tables.orders, row.market, s.engines[row.market]);
      CancelMirrors(s.tables.orders, s.pending.Keys, row.market, s.engines[row.market], id);
      forall mid | mid in s'.engines ensures Mirrors(orders', s'.pending.Keys, mid, s'.engines[mid]) {
        if mid != row.market {
          MirrorsElsewhere(s.tables.orders, orders', s.pending.Keys, s.pending.Keys, mid, s.engines[mid]);
        }
      }
    }
  }

  lemma RebuiltSideMirrors(orders: seq<OrderRow>, mid: MarketId, side: Side)
    requires forall i | 0 <= i < |orders| :: RowValid(orders[i])
    ensures var s := RebuildSide(orders, mid, side); Lists(orders, {}, mid, side, s) && SameRemaining(orders, s)
  {
    hide SideValid, RebuildSide, RowValid;
    RebuildSideValid(orders, mid, side);
    var s := RebuildSide(orders, mid, side);
    forall i: OrderId | i < |orders| && RestsIn(orders[i], mid, side) ensures i in Ids(s) {
      assert RestoredMaker(i, orders[i]) in s;
    }
  }

  /** Rebuilding from rows that an uncrossed engine mirrors gives an uncrossed engine. */
  lemma RebuildMirrors(orders: seq<OrderRow>, mid: MarketId, e: Engine)
    requires forall i | 0 <= i < |orders| :: RowValid(orders[i])
    requires EngineInSync(orders, mid, e) && Mirrors(orders, {}, mid, e)
    ensures Mirrors(orders, {}, mid, Rebuild(orders, mid))
  {
    hide SideValid, RebuildSide, RowValid, Lists, SameRemaining, Uncrossed, SideAgrees;
    RebuiltSideMirrors(orders, mid, Buy);
    RebuiltSideMirrors(orders, mid, Sell);
    RebuildInSync(orders, mid);
    var e' := Rebuild(orders, mid);
    UncrossedEverywhere(e);
    UncrossedEverywhere(e');
    forall b', a' | b' in e'.bids && a' in e'.asks ensures b'.price < a'.price {
      var b := SameOrderIn(orders, mid, Buy, e.bids, e'.bids, b');
      var a := SameOrderIn(orders, mid, Sell, e.asks, e'.asks, a');
    }
  }

  /** Two sides that list the same rows hold the same orders. */
  lemma SameOrderIn(orders: seq<OrderRow>, mid: MarketId, side: Side, s: seq<Maker>, s': seq<Maker>, o': Maker) returns (o: Maker)
    requires Lists(orders, {}, mid, side, s) && SideAgrees(orders, mid, side, s)
    requires Lists(orders, {}, mid, side, s') && SideAgrees(orders, mid, side, s') && o' in s'
    ensures o in s && o.id == o'.id && o.price == o'.price && o.userId == o'.userId
  {
    assert o'.id in Ids(s');
    assert o'.id in Ids(s);
    o :| o in s && o.id == o'.id;
    assert EntryAgrees(orders, mid, side, o) && EntryAgrees(orders, mid, side, o');
  }

  lemma RestartKeepsInStep(s: State)
    requires Inv(s) && InStep(s) && s.pending == map[]
    ensures InStep(ApplyRestart(s).state)
  {
    hide TablesValid, Mirrors, EngineInSync, Rebuild;
    RowsValid(s);
    var s' := ApplyRestart(s).state;
    assert s.pending.Keys == {} && s'.pending.Keys == {};
    forall mid | mid in s'.engines ensures Mirrors(s'.tables.orders, s'.pending.Keys, mid, s'.engines[mid]) {
      assert EngineInSync(s.tables.orders, mid, s.engines[mid]);
      RebuildMirrors(s.tables.orders, mid, s.engines[mid]);
    }
  }

  // ---------------------------------------------------------------------------
  // Runs
  // ---------------------------------------------------------------------------

  /** A submission whose settlement goes through; a restart with no submission under way. */
  ghost predicate Settled(s: State, op: Op) {
    && (op.SubmitOrder? ==> ApplySubmit(s, op.id).error.None? || op.id !in s.pending)
    && (op.Restart? ==> s.pending == map[])
  }

  ghost predicate AllSettled(s: State, ops: seq<Op>)
    decreases |ops|
  {
    ops != [] ==> Settled(s, ops[0]) && AllSettled(Exec(s, ops[0]).state, ops[1..])
  }

  lemma StepKeepsInStep(s: State, op: Op)
    requires Inv(s) && InStep(s) && Enabled(s, op) && Settled(s, op)
    ensures InStep(Exec(s, op).state)
  {
    hide Inv, Mirrors, ApplyPlace, ApplyCancel, ApplyRestart, Settle, SettlementOf, Match, OwnSide, PostEntries, EngineInSync,
      TablesValid;
    match op
    case Place(userId, request) => PlaceKeepsInStep(s, userId, request);
    case SubmitOrder(id) =>
      if id in s.pending {
        WaitingIsSubmitted(s, id);
        SubmitCommits(s, id);
        SubmitKeepsInStep(s, id);
      }
    case CancelOrder(userId, id) => CancelKeepsInStep(s, userId, id);
    case Restart => RestartKeepsInStep(s);
    case _ =>
  }

  lemma {:induction false} RunKeepsInStep(s: State, ops: seq<Op>)
    requires Inv(s) && InStep(s) && AllEnabled(s, ops) && AllSettled(s, ops)
    ensures Inv(Run(s, ops)) && InStep(Run(s, ops))
    decreases |ops|
  {
    hide Inv, InStep, Exec, Enabled, Settled;
    if ops != [] {
      StepKeepsInv(s, ops[0]);
      StepKeepsInStep(s, ops[0]);
      RunKeepsInStep(Exec(s, ops[0]).state, ops[1..]);
    }
  }

  /** Over every run whose settlements go through, each book holds exactly the live limit orders of its
      market, priced, owned and remaining as their rows say; it is never crossed; and no submitted market
      order stays open. */
  lemma EveryRunStaysInStep(markets: Markets, ops: seq<Op>)
    requires PairsDistinct(markets) && AllEnabled(Init(markets), ops) && AllSettled(Init(markets), ops)
    ensures InStep(Run(Init(markets), ops))
    ensures var s := Run(Init(markets), ops);
            forall mid | mid in s.engines ::
              EngineInSync(s.tables.orders, mid, s.engines[mid]) && Uncrossed(s.engines[mid])
  {
    InitHasInv(markets);
    RunKeepsInStep(Init(markets), ops);
  }

  /** From any state such a run reaches, the next submission keeps book and rows in step if and only if it
      can be paid for; otherwise it reports an error. */
  lemma EveryRunStaysInStepIff(markets: Markets, ops: seq<Op>, id: OrderId)
    requires PairsDistinct(markets) && AllEnabled(Init(markets), ops) && AllSettled(Init(markets), ops)
    requires id in Run(Init(markets), ops).pending
    ensures var s := Run(Init(markets), ops);
            && id < |s.tables.orders| && s.tables.orders[id].market in s.engines
            && (InStep(ApplySubmit(s, id).state) <==> CanSettle(s, id))
            && (ApplySubmit(s, id).error.None? <==> CanSettle(s, id))
  {
    hide Inv, InStep, SettlementOf, ApplySubmit, CanSettle;
    var s := Run(Init(markets), ops);
    InitHasInv(markets);
    InitInStep(markets);
    RunKeepsInStep(Init(markets), ops);
    StaysInStepIff(s, id);
    EveryRunSettlesExactlyWhen(markets, ops, id);
  }

  lemma InitInStep(markets: Markets)
    ensures InStep(Init(markets))
  {
  }
}
