/** Adding the live rows oldest first rebuilds the running books: in runs that submit orders in the
    order they were placed, age is what the queues are sorted by. */
module Rebuilding {
  import opened Types
  import opened BookSide
  import opened Matching
  import opened MatchingFacts
  import opened EngineSpec
  import opened Ledger
  import opened Holds
  import opened Settlement
  import opened FillProofs
  import opened Books
  import opened Submission
  import opened Exchange
  import opened Transfers
  import opened Safety
  import opened OrderHistory
  import opened Agreement
  import opened AgreementRuns
  import opened Restarts

  /** At one price, older orders stand first. */
  ghost predicate Aged(s: seq<Maker>) {
    s != [] ==>
      && (forall m | m in s[1..] :: m.price == s[0].price ==> s[0].id < m.id)
      && Aged(s[1..])
  }

  lemma AgedCons(o: Maker, s: seq<Maker>)
    ensures Aged([o] + s) <==> Aged(s) && forall m | m in s :: m.price == o.price ==> o.id < m.id
  {
    assert ([o] + s)[1..] == s;
  }

  lemma {:induction false} InsertKeepsAged(side: Side, s: seq<Maker>, o: Maker)
    requires SideValid(side, s) && Aged(s) && forall m | m in s :: m.id < o.id
    ensures Aged(Insert(side, s, o))
  {
    if s == [] {
    } else if Better(side, o.price, s[0].price) {
      WorseHaveOtherPrice(side, s, o.price);
      AgedCons(o, s);
    } else {
      assert s == [s[0]] + s[1..];
      InsertKeepsAged(side, s[1..], o);
      InsertMembers(side, s[1..], o);
      AgedCons(s[0], Insert(side, s[1..], o));
    }
  }

  lemma {:induction false} DeleteKeepsAged(s: seq<Maker>, id: OrderId)
    requires Aged(s)
    ensures Aged(Delete(s, id)) && forall m | m in Delete(s, id) :: m in s
  {
    if s != [] {
      assert s == [s[0]] + s[1..];
      if s[0].id != id {
        DeleteKeepsAged(s[1..], id);
        AgedCons(s[0], Delete(s[1..], id));
      }
    }
  }

  lemma {:induction false} MatchKeepsAged(t: Taker, makers: seq<Maker>, quantity: real)
    requires Aged(makers)
    ensures Aged(Match(t, makers, quantity).makers)
    decreases |makers|
  {
    if makers != [] && quantity > 0.0 && MayTrade(t, makers[0]) {
      var q := Min(makers[0].remaining, quantity);
      if makers[0].remaining - q == 0.0 {
        MatchKeepsAged(t, makers[1..], quantity - q);
      } else {
        AgedCons(makers[0].(remaining := makers[0].remaining - q), makers[1..]);
      }
    }
  }

  lemma {:induction false} RebuildIsAged(orders: seq<OrderRow>, mid: MarketId, side: Side)
    requires forall i | 0 <= i < |orders| :: RowValid(orders[i])
    ensures Aged(RebuildSide(orders, mid, side))
  {
    hide SideValid, RowValid, Aged;
    if orders == [] {
      NoneAged();
    } else {
      var i := |orders| - 1;
      RebuildIsAged(orders[..i], mid, side);
      RebuildSideValid(orders[..i], mid, side);
      if RestsIn(orders[i], mid, side) {
        InsertKeepsAged(side, RebuildSide(orders[..i], mid, side), RestoredMaker(i, orders[i]));
      }
    }
  }

  lemma NoneAged()
    ensures Aged([])
  {
  }

  // ---------------------------------------------------------------------------
  // Price and age leave one order
  // ---------------------------------------------------------------------------

  /** The resting orders without their stamps. */
  ghost function Images(s: seq<Maker>): set<Maker> {
    set m | m in s :: Unstamped(m)
  }

  lemma ImagesCons(o: Maker, s: seq<Maker>)
    ensures Images([o] + s) == {Unstamped(o)} + Images(s)
  {
    assert o in [o] + s && forall m | m in s :: m in [o] + s;
  }

  /** `x` is served before `y`: better priced, or older at the same price. */
  ghost predicate Before(side: Side, x: Maker, y: Maker) {
    Better(side, x.price, y.price) || (x.price == y.price && x.id < y.id)
  }

  lemma HeadIsFirst(side: Side, s: seq<Maker>, image: Maker)
    requires s != [] && SideValid(side, s) && Aged(s) && image in Images(s)
    ensures image == Unstamped(s[0]) || Before(side, s[0], image)
  {
    assert s == [s[0]] + s[1..];
    var m :| m in s && Unstamped(m) == image;
    if m != s[0] {
      assert m in s[1..];
    }
  }

  lemma TailImages(side: Side, s: seq<Maker>)
    requires s != [] && SideValid(side, s)
    ensures Images(s[1..]) == Images(s) - {Unstamped(s[0])}
  {
    assert s == [s[0]] + s[1..];
    ImagesCons(s[0], s[1..]);
    SideTail(side, s[0], s[1..]);
    forall m | m in s[1..] ensures Unstamped(m) != Unstamped(s[0]) {
      assert Precedes(side, s[0], m);
    }
  }

  /** Two well-formed, aged sides with the same orders are the same list. */
  lemma {:induction false} OneOrderOnly(side: Side, s: seq<Maker>, s': seq<Maker>)
    requires SideValid(side, s) && SideValid(side, s') && Aged(s) && Aged(s')
    requires Images(s) == Images(s')
    ensures Plain(s) == Plain(s')
    decreases |s|
  {
    hide Images;
    if s == [] || s' == [] {
      NoImages(s);
      NoImages(s');
      return;
    }
    HeadImage(s);
    HeadImage(s');
    HeadIsFirst(side, s, Unstamped(s'[0]));
    HeadIsFirst(side, s', Unstamped(s[0]));
    TailImages(side, s);
    TailImages(side, s');
    OneOrderOnly(side, s[1..], s'[1..]);
  }

  lemma NoImages(s: seq<Maker>)
    ensures s == [] <==> Images(s) == {}
  {
    if s != [] {
      HeadImage(s);
    }
  }

  lemma HeadImage(s: seq<Maker>)
    requires s != []
    ensures Unstamped(s[0]) in Images(s)
  {
    assert s[0] in s;
  }

  /** A side that mirrors its rows holds their images. */
  lemma MirroredImages(orders: seq<OrderRow>, mid: MarketId, side: Side, s: seq<Maker>)
    requires Lists(orders, {}, mid, side, s) && SameRemaining(orders, s) && SideAgrees(orders, mid, side, s)
    requires SideValid(side, s)
    ensures forall x :: x in Images(s) <==> exists i: OrderId :: i < |orders| && RestsIn(orders[i], mid, side) && x == RestoredMaker(i, orders[i])
  {
    MembersReduced(side, s);
    forall o | o in s ensures Unstamped(o) == RestoredMaker(o.id, orders[o.id]) && RestsIn(orders[o.id], mid, side) {
      assert EntryAgrees(orders, mid, side, o);
    }
    forall i: OrderId | i < |orders| && RestsIn(orders[i], mid, side) ensures RestoredMaker(i, orders[i]) in Images(s) {
      assert i in Ids(s);
      var o :| o in s && o.id == i;
      assert Unstamped(o) in Images(s);
    }
  }

  lemma RebuiltSideAlike(orders: seq<OrderRow>, mid: MarketId, side: Side, s: seq<Maker>)
    requires forall i | 0 <= i < |orders| :: RowValid(orders[i])
    requires SideValid(side, s) && Aged(s) && SideAgrees(orders, mid, side, s)
    requires Lists(orders, {}, mid, side, s) && SameRemaining(orders, s)
    ensures Plain(RebuildSide(orders, mid, side)) == Plain(s)
  {
    hide RowValid, SideValid, Aged, RebuildSide, Plain, Images, Lists, SameRemaining, SideAgrees;
    var s' := RebuildSide(orders, mid, side);
    RebuildSideValid(orders, mid, side);
    RebuildIsAged(orders, mid, side);
    RebuiltSideMirrors(orders, mid, side);
    RebuiltSideAgrees(orders, mid, side);
    MirroredImages(orders, mid, side, s);
    MirroredImages(orders, mid, side, s');
    assert Images(s) == Images(s');
    OneOrderOnly(side, s', s);
  }

  lemma RebuiltSideAgrees(orders: seq<OrderRow>, mid: MarketId, side: Side)
    requires forall i | 0 <= i < |orders| :: RowValid(orders[i])
    ensures SideAgrees(orders, mid, side, RebuildSide(orders, mid, side))
  {
    hide SideValid, RebuildSide;
    RebuildSideValid(orders, mid, side);
  }

  // ---------------------------------------------------------------------------
  // Age over runs
  // ---------------------------------------------------------------------------

  ghost predicate Older(orders: seq<OrderRow>, pending: set<OrderId>, mid: MarketId, s: seq<Maker>) {
    forall o, id | o in s && id in pending && id < |orders| && orders[id].market == mid :: o.id < id
  }

  ghost predicate EngineAged(orders: seq<OrderRow>, pending: set<OrderId>, mid: MarketId, e: Engine) {
    && Aged(e.bids) && Aged(e.asks)
    && Older(orders, pending, mid, e.bids) && Older(orders, pending, mid, e.asks)
  }

  /** Queues stand in order of age, and every waiting order is younger than the book it is meant for. */
  ghost predicate AgedState(s: State) {
    forall mid | mid in s.engines :: EngineAged(s.tables.orders, s.pending.Keys, mid, s.engines[mid])
  }

  /** Orders of one market are submitted in the order they were placed. */
  ghost predicate InTurn(s: State, op: Op) {
    op.SubmitOrder? && op.id in s.pending && op.id < |s.tables.orders| ==>
      forall id | id in s.pending && id < op.id && id < |s.tables.orders| ::
        s.tables.orders[id].market != s.tables.orders[op.id].market
  }

  lemma OlderStays(orders: seq<OrderRow>, orders': seq<OrderRow>, pending: set<OrderId>, pending': set<OrderId>, mid: MarketId, s: seq<Maker>)
    requires Older(orders, pending, mid, s) && |orders| <= |orders'|
    requires forall i | 0 <= i < |orders| :: orders'[i].market == orders[i].market
    requires forall id | id in pending' :: id in pending || id >= |orders|
    requires forall o | o in s :: o.id < |orders|
    ensures Older(orders', pending', mid, s)
  {
  }

  lemma KnownIds(orders: seq<OrderRow>, mid: MarketId, side: Side, s: seq<Maker>)
    requires SideAgrees(orders, mid, side, s)
    ensures forall o | o in s :: o.id < |orders|
  {
    forall o | o in s ensures o.id < |orders| {
      assert EntryAgrees(orders, mid, side, o);
    }
  }

  lemma AgedStays(s: State, s': State, mid: MarketId)
    requires Inv(s) && AgedState(s) && mid in s.engines && mid in s'.engines && s'.engines[mid] == s.engines[mid]
    requires SameOrders(s.tables.orders, s'.tables.orders)
    requires forall id | id in s'.pending :: id in s.pending || id >= |s.tables.orders|
    ensures EngineAged(s'.tables.orders, s'.pending.Keys, mid, s'.engines[mid])
  {
    hide TablesValid, SideAgrees, EngineValid, Older, Aged;
    var e := s.engines[mid];
    assert EngineInSync(s.tables.orders, mid, e);
    KnownIds(s.tables.orders, mid, Buy, e.bids);
    KnownIds(s.tables.orders, mid, Sell, e.asks);
    SameTermsOf(s.tables.orders, s'.tables.orders);
    OlderStays(s.tables.orders, s'.tables.orders, s.pending.Keys, s'.pending.Keys, mid, e.bids);
    OlderStays(s.tables.orders, s'.tables.orders, s.pending.Keys, s'.pending.Keys, mid, e.asks);
  }

  lemma ReducedOlder(orders: seq<OrderRow>, orders': seq<OrderRow>, pending: set<OrderId>, pending': set<OrderId>, mid: MarketId,
                     s: seq<Maker>, s': seq<Maker>)
    requires Older(orders, pending, mid, s) && pending' <= pending && Ids(s') <= Ids(s)
    requires |orders'| == |orders| && forall i | 0 <= i < |orders| :: orders'[i].market == orders[i].market
    ensures Older(orders', pending', mid, s')
  {
    forall o, id | o in s' && id in pending' && id < |orders'| && orders'[id].market == mid ensures o.id < id {
      assert o.id in Ids(s');
      var m :| m in s && m.id == o.id;
    }
  }

  /** Settled or not, a submission keeps the rows in place and changes one engine. */
  lemma SubmittedFrame(s: State, id: OrderId)
    requires Inv(s) && id in s.pending
    ensures id < |s.tables.orders| && s.tables.orders[id].market in s.engines && Acceptable(InputOf(id, s.tables.orders[id]))
    ensures var row, s' := s.tables.orders[id], ApplySubmit(s, id).state;
            && SameOrders(s.tables.orders, s'.tables.orders) && |s'.tables.orders| == |s.tables.orders|
            && s'.pending.Keys == s.pending.Keys - {id}
            && s'.engines == s.engines[row.market := EngineSpec.Submit(s.engines[row.market], InputOf(id, row)).0]
  {
    hide Inv, TablesValid, SettlementOf, EngineInSync, EngineSpec.Submit, Settles, Match, ApplySubmit;
    SubmissionSettlesIff(s, id);
    SubmittedState(s, id);
    OrdersStay(s.tables.orders);
  }

  lemma SubmitKeepsAged(s: State, id: OrderId)
    requires Inv(s) && AgedState(s) && InTurn(s, SubmitOrder(id)) && id in s.pending
    ensures AgedState(ApplySubmit(s, id).state)
  {
    hide Inv, InTurn, EngineAged, ApplySubmit, SameOrders, EngineSpec.Submit;
    SubmittedFrame(s, id);
    var row, s' := s.tables.orders[id], ApplySubmit(s, id).state;
    SubmitAges(s, id, s'.tables.orders, s'.pending.Keys);
    forall mid | mid in s'.engines ensures EngineAged(s'.tables.orders, s'.pending.Keys, mid, s'.engines[mid]) {
      if mid != row.market {
        AgedStays(s, s', mid);
      }
    }
  }

  lemma SubmitAges(s: State, id: OrderId, orders': seq<OrderRow>, pending': set<OrderId>)
    requires Inv(s) && AgedState(s) && InTurn(s, SubmitOrder(id)) && id in s.pending
    requires SameOrders(s.tables.orders, orders') && |orders'| == |s.tables.orders| && pending' == s.pending.Keys - {id}
    ensures id < |s.tables.orders|
    ensures var row := s.tables.orders[id];
            && row.market in s.engines && Acceptable(InputOf(id, row))
            && EngineAged(orders', pending', row.market, EngineSpec.Submit(s.engines[row.market], InputOf(id, row)).0)
  {
    hide TablesValid, Match, SideAgrees, Inv, Aged, Older, Insert, SideValid;
    WaitingIsSubmitted(s, id);
    SameTermsOf(s.tables.orders, orders');
    var orders, row := s.tables.orders, s.tables.orders[id];
    var mid, input, e := row.market, InputOf(id, row), s.engines[row.market];
    var o, own, makers := MatchOf(e, input), SideOf(e, input.side), SideOf(e, Opposite(input.side));
    assert EngineAged(orders, s.pending.Keys, mid, e);
    MatchKeepsAged(TakerOf(input), makers, input.quantity);
    SidesReduced(e, input);
    ReducedOlder(orders, orders', s.pending.Keys, pending', mid, makers, o.makers);
    ReducedOlder(orders, orders', s.pending.Keys, pending', mid, own, own);
    OlderThan(orders, s.pending.Keys, mid, own, id);
    if Stays(input, o.remaining, o.stopped) {
      var rest := Remainder(input, o.remaining, e.sequence + 1);
      InsertKeepsAged(input.side, own, rest);
      InsertedOlder(orders', pending', mid, input.side, own, rest);
    }
  }

  lemma OlderThan(orders: seq<OrderRow>, pending: set<OrderId>, mid: MarketId, s: seq<Maker>, id: OrderId)
    requires Older(orders, pending, mid, s) && id in pending && id < |orders| && orders[id].market == mid
    ensures forall m | m in s :: m.id < id
  {
  }

  lemma InsertedOlder(orders: seq<OrderRow>, pending: set<OrderId>, mid: MarketId, side: Side, s: seq<Maker>, o: Maker)
    requires Older(orders, pending, mid, s)
    requires forall id | id in pending && id < |orders| && orders[id].market == mid :: o.id < id
    ensures Older(orders, pending, mid, Insert(side, s, o))
  {
    InsertMembers(side, s, o);
  }

  lemma CancelKeepsAged(s: State, userId: UserId, id: OrderId)
    requires Inv(s) && AgedState(s) && id !in s.pending
    ensures AgedState(ApplyCancel(s, userId, id).state)
  {
    hide TablesValid, EngineInSync, EngineSpec.Cancel, ReleaseHold, EngineAged, Inv;
    var s' := ApplyCancel(s, userId, id).state;
    StepMovesForward(s, CancelOrder(userId, id));
    if ApplyCancel(s, userId, id).error.None? {
      var mid := s.tables.orders[id].market;
      forall other | other in s'.engines ensures EngineAged(s'.tables.orders, s'.pending.Keys, other, s'.engines[other]) {
        if other == mid {
          CancelAges(s.tables.orders, s'.tables.orders, s.pending.Keys, mid, s.engines[mid], id);
        } else {
          AgedStays(s, s', other);
        }
      }
    }
  }

  lemma CancelAges(orders: seq<OrderRow>, orders': seq<OrderRow>, pending: set<OrderId>, mid: MarketId, e: Engine, id: OrderId)
    requires EngineAged(orders, pending, mid, e) && SameOrders(orders, orders') && |orders'| == |orders|
    ensures EngineAged(orders', pending, mid, EngineSpec.Cancel(e, id))
  {
    hide Older, Aged, Delete;
    SameTermsOf(orders, orders');
    DeleteKeepsAged(e.bids, id);
    DeleteKeepsAged(e.asks, id);
    var e' := EngineSpec.Cancel(e, id);
    ReducedOlder(orders, orders', pending, pending, mid, e.bids, e'.bids);
    ReducedOlder(orders, orders', pending, pending, mid, e.asks, e'.asks);
  }

  lemma RestartKeepsAged(s: State)
    requires Inv(s) && s.pending == map[]
    ensures AgedState(ApplyRestart(s).state)
  {
    hide TablesValid, Aged, RebuildSide;
    RowsValid(s);
    forall mid | mid in s.markets ensures EngineAged(s.tables.orders, {}, mid, Rebuild(s.tables.orders, mid)) {
      RebuildIsAged(s.tables.orders, mid, Buy);
      RebuildIsAged(s.tables.orders, mid, Sell);
    }
    assert ApplyRestart(s).state.pending.Keys == {};
  }

  lemma StepKeepsAged(s: State, op: Op)
    requires Inv(s) && AgedState(s) && Enabled(s, op) && Settled(s, op) && InTurn(s, op)
    ensures AgedState(Exec(s, op).state)
  {
    hide TablesValid, EngineAged, ApplySubmit, ApplyCancel, ApplyRestart, LockFunds, PostEntries, Inv;
    var s' := Exec(s, op).state;
    StepMovesForward(s, op);
    match op
    case SubmitOrder(id) =>
      if id in s.pending {
        SubmitKeepsAged(s, id);
      } else {
        assert ApplySubmit(s, id).state == s by { RejectedSubmit(s, id); }
      }
    case CancelOrder(userId, id) => CancelKeepsAged(s, userId, id);
    case Restart => RestartKeepsAged(s);
    case _ =>
      forall mid | mid in s'.engines ensures EngineAged(s'.tables.orders, s'.pending.Keys, mid, s'.engines[mid]) {
        AgedStays(s, s', mid);
      }
  }

  ghost predicate AllInTurn(s: State, ops: seq<Op>)
    decreases |ops|
  {
    ops != [] ==> InTurn(s, ops[0]) && AllInTurn(Exec(s, ops[0]).state, ops[1..])
  }

  lemma {:induction false} RunKeepsAged(s: State, ops: seq<Op>)
    requires Inv(s) && InStep(s) && AgedState(s) && AllEnabled(s, ops) && AllSettled(s, ops) && AllInTurn(s, ops)
    ensures Inv(Run(s, ops)) && InStep(Run(s, ops)) && AgedState(Run(s, ops))
    decreases |ops|
  {
    hide Inv, InStep, AgedState, Exec, Enabled, Settled, InTurn;
    if ops != [] {
      StepKeepsInv(s, ops[0]);
      StepKeepsInStep(s, ops[0]);
      StepKeepsAged(s, ops[0]);
      RunKeepsAged(Exec(s, ops[0]).state, ops[1..]);
    }
  }

  // ---------------------------------------------------------------------------
  // Restarting is invisible
  // ---------------------------------------------------------------------------

  lemma {:induction false} PlainAged(s: seq<Maker>)
    ensures Aged(Plain(s)) <==> Aged(s)
  {
    if s != [] {
      assert s == [s[0]] + s[1..];
      PlainAged(s[1..]);
      PlainCons(s[0], s[1..]);
      AgedCons(s[0], s[1..]);
      AgedCons(Unstamped(s[0]), Plain(s[1..]));
      PlainMembers(s[1..]);
      UnstampedMembers(s[1..]);
    }
  }

  lemma {:induction false} UnstampedMembers(s: seq<Maker>)
    ensures forall m | m in s :: Unstamped(m) in Plain(s)
  {
    if s != [] {
      assert s == [s[0]] + s[1..];
      UnstampedMembers(s[1..]);
    }
  }

  /** Every queue stands in order of age. */
  ghost predicate QueuesAged(s: State) {
    forall mid | mid in s.engines :: Aged(s.engines[mid].bids) && Aged(s.engines[mid].asks)
  }

  lemma RebuiltAlikeIff(orders: seq<OrderRow>, mid: MarketId, e: Engine)
    requires forall i | 0 <= i < |orders| :: RowValid(orders[i])
    requires EngineInSync(orders, mid, e) && Mirrors(orders, {}, mid, e)
    ensures Alike(e, Rebuild(orders, mid)) <==> Aged(e.bids) && Aged(e.asks)
  {
    hide RowValid, Aged, RebuildSide, Lists, SameRemaining, SideAgrees, SideValid, Plain, Uncrossed;
    RebuildIsAged(orders, mid, Buy);
    RebuildIsAged(orders, mid, Sell);
    PlainAged(e.bids);
    PlainAged(e.asks);
    PlainAged(RebuildSide(orders, mid, Buy));
    PlainAged(RebuildSide(orders, mid, Sell));
    if Aged(e.bids) && Aged(e.asks) {
      RebuiltSideAlike(orders, mid, Buy, e.bids);
      RebuiltSideAlike(orders, mid, Sell, e.asks);
    }
  }

  /** Every engine answers every later sequence of submissions and cancellations as the other would. */
  ghost predicate AnswersSame(s: State, s': State) {
    s'.engines.Keys == s.engines.Keys && forall mid | mid in s.engines :: AnswersAlike(s.engines[mid], s'.engines[mid])
  }

  lemma RestartedEngines(s: State)
    requires Inv(s)
    ensures ApplyRestart(s).state.engines.Keys == s.engines.Keys
    ensures forall mid | mid in s.engines ::
              ApplyRestart(s).state.engines[mid] == Rebuild(s.tables.orders, mid)
              && EngineValid(s.engines[mid]) && EngineValid(Rebuild(s.tables.orders, mid))
  {
    hide TablesValid, Rebuild, EngineValid;
    RowsValid(s);
    forall mid | mid in s.engines ensures EngineValid(s.engines[mid]) && EngineValid(Rebuild(s.tables.orders, mid)) {
      assert EngineInSync(s.tables.orders, mid, s.engines[mid]);
      RebuildInSync(s.tables.orders, mid);
    }
  }

  /** Where book and rows are in step and nothing is under way, a restart is invisible if and only if every
      queue stands in the order its orders were placed. If one does not, some later sequence of submissions
      and cancellations is answered differently. */
  lemma RestartInvisibleIff(s: State)
    requires Inv(s) && InStep(s) && s.pending == map[]
    ensures Indistinguishable(s, ApplyRestart(s).state) <==> QueuesAged(s)
    ensures AnswersSame(s, ApplyRestart(s).state) <==> QueuesAged(s)
  {
    hide TablesValid, Aged, Rebuild, Mirrors, EngineInSync, EngineValid, Alike, AnswersAlike;
    RowsValid(s);
    RestartedEngines(s);
    assert s.pending.Keys == {};
    forall mid | mid in s.engines
      ensures Alike(s.engines[mid], Rebuild(s.tables.orders, mid)) <==> Aged(s.engines[mid].bids) && Aged(s.engines[mid].asks)
      ensures AnswersAlike(s.engines[mid], Rebuild(s.tables.orders, mid)) <==> Alike(s.engines[mid], Rebuild(s.tables.orders, mid))
    {
      assert EngineInSync(s.tables.orders, mid, s.engines[mid]);
      RebuiltAlikeIff(s.tables.orders, mid, s.engines[mid]);
      AlikeIffAnswersAlike(s.engines[mid], Rebuild(s.tables.orders, mid));
    }
  }

  /** The same after every run whose settlements went through. */
  lemma EveryRestartIsInvisibleIff(markets: Markets, ops: seq<Op>)
    requires PairsDistinct(markets) && AllEnabled(Init(markets), ops) && AllSettled(Init(markets), ops)
    requires Run(Init(markets), ops).pending == map[]
    ensures var s := Run(Init(markets), ops);
            && (Indistinguishable(s, Exec(s, Restart).state) <==> QueuesAged(s))
            && (AnswersSame(s, Exec(s, Restart).state) <==> QueuesAged(s))
  {
    hide Inv, InStep, Indistinguishable, QueuesAged, AnswersSame;
    InitHasInv(markets);
    InitInStep(markets);
    RunKeepsInStep(Init(markets), ops);
    RestartInvisibleIff(Run(Init(markets), ops));
  }

  lemma RestartRebuilds(s: State)
    requires Inv(s) && InStep(s) && AgedState(s) && s.pending == map[]
    ensures Indistinguishable(s, ApplyRestart(s).state)
  {
    hide Inv, InStep, Aged, Older;
    RestartInvisibleIff(s);
  }

  /** After any run whose settlements went through and whose orders were submitted in turn, a restart
      with nothing under way rebuilds every book as it stood, engines answer every later sequence of
      submissions and cancellations as they would have, and the tables after any later run are the same. */
  lemma RestartIsInvisible(markets: Markets, before: seq<Op>, after: seq<Op>, mid: MarketId, later: seq<EngineOp>)
    requires PairsDistinct(markets) && mid in markets
    requires AllEnabled(Init(markets), before) && AllSettled(Init(markets), before) && AllInTurn(Init(markets), before)
    requires Run(Init(markets), before).pending == map[]
    ensures var s := Run(Init(markets), before);
            var s' := Exec(s, Restart).state;
            && mid in s.engines && mid in s'.engines
            && Alike(s.engines[mid], s'.engines[mid])
            && Answers(s.engines[mid], later) == Answers(s'.engines[mid], later)
            && Run(s, after).tables == Run(s', after).tables
  {
    hide Inv, InStep, AgedState, Alike;
    InitHasInv(markets);
    InitIsAged(markets);
    var s0 := Init(markets);
    RunKeepsAged(s0, before);
    var s := Run(s0, before);
    var s' := Exec(s, Restart).state;
    RestartRebuilds(s);
    RunKeepsTerms(s0, before);
    EnginesOf(s);
    AlikeAnswerAlike(s.engines[mid], s'.engines[mid], later);
    RunIndistinguishable(s, s', after);
  }

  lemma EnginesOf(s: State)
    requires Inv(s)
    ensures s.engines.Keys == s.markets.Keys
  {
  }

  lemma InitIsAged(markets: Markets)
    ensures InStep(Init(markets)) && AgedState(Init(markets))
  {
  }
}
