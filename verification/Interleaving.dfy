/** The exchange with its operations taken apart into the single transactions and engine calls they consist
    of, which may interleave in any way: an order is created, matched and settled in separate steps, and
    cancelling closes the row and takes the order off the book separately. What every such interleaving
    keeps, without any condition, and with it every run of whole operations. */
module Interleaving {
  import opened Types
  import opened Sums
  import opened BookSide
  import opened Matching
  import opened MatchingFacts
  import opened EngineSpec
  import opened Ledger
  import opened Holds
  import opened Settlement
  import opened FillProofs
  import opened Books
  import opened Exchange
  import opened Transfers
  import opened Backing
  import Submission
  import Safety

  // ---------------------------------------------------------------------------
  // The machine
  // ---------------------------------------------------------------------------

  /** What an engine has matched and the tables have not settled yet, with the market row read when the order
      was placed. */
  datatype Flight = Flight(mid: MarketId, market: Market, result: SubmitResult)

  datatype Machine = Machine(core: State, flights: map<OrderId, Flight>)

  datatype Action =
    | CreateRow(userId: UserId, request: Request, price: real, market: Market)
    | MatchOrder(id: OrderId)
    | SettleFlight(id: OrderId)
    | CloseRow(userId: UserId, id: OrderId)
    | Unlist(mid: MarketId, id: OrderId)
    | Whole(op: Op)

  /** The transaction that creates an order and locks its reserve; the price was resolved, and the market row
      read, at some earlier moment. */
  function Create(s: State, userId: UserId, r: Request, price: real, m: Market): State {
    if r.market !in s.markets || r.market !in s.engines || price <= 0.0 || r.quantity <= 0.0
       || m.base != s.markets[r.market].base || m.quote != s.markets[r.market].quote then s else
    var created := CreateAndLock(s.tables, m, NewRow(userId, r, price));
    if created.Err? then s else s.(tables := created.value, pending := s.pending[|s.tables.orders| := m])
  }

  /** The engine call: it moves at once, and the result waits to be settled. */
  function MatchNow(c: Machine, id: OrderId): Machine {
    var s := c.core;
    if id !in s.pending || id >= |s.tables.orders| then c else
    var row := s.tables.orders[id];
    if row.market !in s.engines || !Acceptable(InputOf(id, row)) then c else
    var (engine, result) := EngineSpec.Submit(s.engines[row.market], InputOf(id, row));
    Machine(s.(engines := s.engines[row.market := engine], pending := s.pending - {id}),
            c.flights[id := Flight(row.market, s.pending[id], result)])
  }

  /** The settling transaction, which commits or leaves the tables alone. */
  function SettleNow(c: Machine, id: OrderId): Machine {
    if id !in c.flights then c else
    var f, s := c.flights[id], c.core;
    var settled := Settle(s.tables, f.mid, f.market, id, f.result);
    Machine(if settled.Ok? then s.(tables := settled.value) else s, c.flights - {id})
  }

  /** The transaction of a cancellation. */
  function Close(s: State, userId: UserId, id: OrderId): State {
    if id >= |s.tables.orders| || s.tables.orders[id].userId != userId || !Live(s.tables.orders[id]) then s else
    var t := s.tables;
    var released := ReleaseHold(t.accounts, t.holds, id);
    if released.Err? then s
    else s.(tables := t.(accounts := released.value.0, holds := released.value.1,
                         orders := t.orders[id := t.orders[id].(status := Cancelled)]))
  }

  /** The engine call of a cancellation. */
  function TakeOff(s: State, mid: MarketId, id: OrderId): State {
    if mid !in s.engines then s else s.(engines := s.engines[mid := EngineSpec.Cancel(s.engines[mid], id)])
  }

  function Act(c: Machine, a: Action): Machine {
    match a
    case CreateRow(userId, request, price, market) => c.(core := Create(c.core, userId, request, price, market))
    case MatchOrder(id) => MatchNow(c, id)
    case SettleFlight(id) => SettleNow(c, id)
    case CloseRow(userId, id) => c.(core := Close(c.core, userId, id))
    case Unlist(mid, id) => c.(core := TakeOff(c.core, mid, id))
    case Whole(op) =>
      if op.Place? || op.SubmitOrder? || op.CancelOrder? then c
      else Machine(Exec(c.core, op).state, if op.Restart? then map[] else c.flights)
  }

  function ActAll(c: Machine, actions: seq<Action>): Machine
    decreases |actions|
  {
    if actions == [] then c else ActAll(Act(c, actions[0]), actions[1..])
  }

  /** The actions a whole operation consists of. */
  function Actions(s: State, op: Op): seq<Action> {
    match op
    case Place(userId, r) =>
      if r.market in s.markets && r.market in s.engines && ApplyPlace(s, userId, r).error.None?
         && ResolvePrice(s.markets[r.market], s.engines[r.market], r).Ok?
      then [CreateRow(userId, r, ResolvePrice(s.markets[r.market], s.engines[r.market], r).value, s.markets[r.market])] else []
    case SubmitOrder(id) => [MatchOrder(id), SettleFlight(id)]
    case CancelOrder(userId, id) =>
      if ApplyCancel(s, userId, id).error.None? && id < |s.tables.orders|
      then [CloseRow(userId, id), Unlist(s.tables.orders[id].market, id)] else []
    case _ => [Whole(op)]
  }

  function AllActions(s: State, ops: seq<Op>): seq<Action>
    decreases |ops|
  {
    if ops == [] then [] else Actions(s, ops[0]) + AllActions(Exec(s, ops[0]).state, ops[1..])
  }

  // ---------------------------------------------------------------------------
  // What is promised of an order
  // ---------------------------------------------------------------------------

  /** What a side lists of order `i`. */
  ghost function Listed(s: seq<Maker>, i: OrderId): real {
    if s == [] then 0.0 else (if s[0].id == i then s[0].remaining else 0.0) + Listed(s[1..], i)
  }

  ghost function ListedIn(e: Engine, i: OrderId): real {
    Listed(e.bids, i) + Listed(e.asks, i)
  }

  /** What fills take of order `i`, as maker or taker. */
  ghost function Demand(fills: seq<Fill>, i: OrderId): real {
    if fills == [] then 0.0 else
    (if fills[0].makerOrderId == i || fills[0].takerOrderId == i then fills[0].quantity else 0.0) + Demand(fills[1..], i)
  }

  /** The engine has dropped a remainder, which settlement will close. */
  predicate Closing(result: SubmitResult) {
    CancelledRemainder(result.status) && result.remaining > 0.0
  }

  /** What the result for order `id` takes of order `i`: its fills, and the remainder it closes. */
  ghost function Owed(id: OrderId, result: SubmitResult, i: OrderId): real {
    Demand(result.fills, i) + if i == id && Closing(result) then result.remaining else 0.0
  }

  ghost function Shares(engines: map<MarketId, Engine>, i: OrderId): map<MarketId, real> {
    map mid | mid in engines :: ListedIn(engines[mid], i)
  }

  ghost function InBooks(engines: map<MarketId, Engine>, i: OrderId): real {
    Sum(Shares(engines, i))
  }

  ghost function Dues(flights: map<OrderId, Flight>, i: OrderId): map<OrderId, real> {
    map id | id in flights :: Owed(id, flights[id].result, i)
  }

  ghost function InFlight(flights: map<OrderId, Flight>, i: OrderId): real {
    Sum(Dues(flights, i))
  }

  /** What books, matches under way and waiting submissions may still take of order `i`. */
  ghost function Promised(c: Machine, i: OrderId): real
    requires i < |c.core.tables.orders|
  {
    InBooks(c.core.engines, i) + InFlight(c.flights, i)
    + if i in c.core.pending then c.core.tables.orders[i].quantity else 0.0
  }

  // ---------------------------------------------------------------------------
  // The invariant
  // ---------------------------------------------------------------------------

  /** A resting order has a limit row with the same owner, side and price; the row may be closed already. */
  ghost predicate EntryKnown(orders: seq<OrderRow>, mid: MarketId, side: Side, o: Maker) {
    && o.id < |orders|
    && var r := orders[o.id];
    && r.market == mid && r.side == side && r.orderType == Limit && r.price == o.price && r.userId == o.userId
  }

  ghost predicate SideKnown(orders: seq<OrderRow>, mid: MarketId, side: Side, s: seq<Maker>) {
    forall o | o in s :: EntryKnown(orders, mid, side, o)
  }

  ghost predicate EngineKnown(orders: seq<OrderRow>, mid: MarketId, e: Engine) {
    EngineValid(e) && SideKnown(orders, mid, Buy, e.bids) && SideKnown(orders, mid, Sell, e.asks)
  }

  ghost predicate SamePair(markets: Markets, mid: MarketId, m: Market) {
    mid in markets && m.base == markets[mid].base && m.quote == markets[mid].quote
  }

  ghost predicate PendingKnown(markets: Markets, orders: seq<OrderRow>, id: OrderId, m: Market) {
    && id < |orders| && SamePair(markets, orders[id].market, m)
    && orders[id].price > 0.0 && orders[id].quantity > 0.0
  }

  ghost predicate AllKnown(orders: seq<OrderRow>, mid: MarketId, fills: seq<Fill>) {
    forall f | f in fills :: FillKnown(orders, mid, f) && WithinLimit(orders, f)
  }

  ghost predicate FlightKnown(markets: Markets, orders: seq<OrderRow>, id: OrderId, f: Flight) {
    && id < |orders| && SamePair(markets, f.mid, f.market)
    && AllKnown(orders, f.mid, f.result.fills)
    && (Closing(f.result) ==> Owed(id, f.result, id) == orders[id].quantity)
  }

  ghost predicate EnginesKnown(orders: seq<OrderRow>, engines: map<MarketId, Engine>) {
    forall mid | mid in engines :: EngineKnown(orders, mid, engines[mid])
  }

  ghost predicate AllPendingKnown(markets: Markets, orders: seq<OrderRow>, pending: map<OrderId, Market>) {
    forall id | id in pending :: PendingKnown(markets, orders, id, pending[id])
  }

  ghost predicate FlightsKnown(markets: Markets, orders: seq<OrderRow>, flights: map<OrderId, Flight>) {
    forall id | id in flights :: FlightKnown(markets, orders, id, flights[id])
  }

  /** No order is promised more often than it has room for. */
  ghost predicate WithinRoom(c: Machine) {
    forall i: OrderId | i < |c.core.tables.orders| :: Promised(c, i) <= Room(c.core.tables.orders[i])
  }

  ghost predicate Sound(c: Machine) {
    var s := c.core;
    && Backed(s.markets, s.tables)
    && s.engines.Keys == s.markets.Keys
    && EnginesKnown(s.tables.orders, s.engines)
    && AllPendingKnown(s.markets, s.tables.orders, s.pending)
    && FlightsKnown(s.markets, s.tables.orders, c.flights)
    && WithinRoom(c)
  }

  // ---------------------------------------------------------------------------
  // Counting
  // ---------------------------------------------------------------------------

  lemma {:induction false} ListedNonNegative(s: seq<Maker>, i: OrderId)
    requires forall m | m in s :: m.remaining > 0.0
    ensures Listed(s, i) >= 0.0
    ensures i in Ids(s) <==> Listed(s, i) > 0.0
  {
    if s != [] {
      assert s == [s[0]] + s[1..];
      assert s[0] in s && forall m | m in s[1..] :: m in s;
      ListedNonNegative(s[1..], i);
    }
  }

  lemma {:induction false} InsertListed(side: Side, s: seq<Maker>, o: Maker, i: OrderId)
    ensures Listed(Insert(side, s, o), i) == Listed(s, i) + if o.id == i then o.remaining else 0.0
  {
    if s == [] || Better(side, o.price, s[0].price) {
      assert ([o] + s)[1..] == s;
    } else {
      InsertListed(side, s[1..], o, i);
      assert ([s[0]] + Insert(side, s[1..], o))[1..] == Insert(side, s[1..], o);
    }
  }

  lemma {:induction false} DeleteListed(s: seq<Maker>, id: OrderId, i: OrderId)
    requires forall m | m in s :: m.remaining > 0.0
    ensures Listed(Delete(s, id), i) <= Listed(s, i)
  {
    if s != [] {
      assert s[0] in s && forall m | m in s[1..] :: m in s;
      if s[0].id != id {
        DeleteListed(s[1..], id, i);
        assert ([s[0]] + Delete(s[1..], id))[1..] == Delete(s[1..], id);
      }
    }
  }

  lemma {:induction false} DemandNonNegative(fills: seq<Fill>, i: OrderId)
    requires forall f | f in fills :: f.quantity > 0.0
    ensures Demand(fills, i) >= 0.0
  {
    if fills != [] {
      assert fills[0] in fills && forall f | f in fills[1..] :: f in fills;
      DemandNonNegative(fills[1..], i);
    }
  }

  lemma DemandCons(f: Fill, rest: seq<Fill>, i: OrderId)
    ensures Demand([f] + rest, i) == (if f.makerOrderId == i || f.takerOrderId == i then f.quantity else 0.0) + Demand(rest, i)
  {
    assert ([f] + rest)[1..] == rest;
  }

  lemma ListedCons(o: Maker, s: seq<Maker>, i: OrderId)
    ensures Listed([o] + s, i) == (if o.id == i then o.remaining else 0.0) + Listed(s, i)
  {
    assert ([o] + s)[1..] == s;
  }

  /** What the fills take of the makers, the book loses; the taker's fills are what it no longer has. */
  lemma {:induction false} MatchMoves(t: Taker, makers: seq<Maker>, quantity: real, i: OrderId)
    requires forall m | m in makers :: m.remaining > 0.0
    requires quantity >= 0.0 && t.id !in Ids(makers)
    ensures var o := Match(t, makers, quantity);
            Demand(o.fills, i) + Listed(o.makers, i) == Listed(makers, i) + if i == t.id then quantity - o.remaining else 0.0
    decreases |makers|
  {
    hide Match, MayTrade, Notional, Listed, Demand;
    if quantity <= 0.0 || makers == [] || !MayTrade(t, makers[0]) {
      MatchesNothing(t, makers, quantity);
      NothingDemanded(i);
      return;
    }
    var best, worse := makers[0], makers[1..];
    assert makers == [best] + worse && best in makers && forall m | m in worse :: m in makers && m.id in Ids(makers);
    assert best.id in Ids(makers);
    MatchCons(t, best, worse, quantity);
    ListedCons(best, worse, i);
    if best.remaining <= quantity {
      var rest := Match(t, worse, quantity - best.remaining);
      MatchMoves(t, worse, quantity - best.remaining, i);
      DemandCons(FillAgainst(t, best, best.remaining), rest.fills, i);
    } else {
      assert [FillAgainst(t, best, quantity)] == [FillAgainst(t, best, quantity)] + [];
      DemandCons(FillAgainst(t, best, quantity), [], i);
      ListedCons(best.(remaining := best.remaining - quantity), worse, i);
      NothingDemanded(i);
    }
  }

  lemma MatchesNothing(t: Taker, makers: seq<Maker>, quantity: real)
    requires quantity >= 0.0 && (quantity <= 0.0 || makers == [] || !MayTrade(t, makers[0]))
    ensures var o := Match(t, makers, quantity); o.fills == [] && o.makers == makers && o.remaining == quantity
  {
  }

  lemma NothingDemanded(i: OrderId)
    ensures Demand([], i) == 0.0
  {
  }

  /** A submission moves what was waiting into the book, into fills, or into a remainder to be closed. */
  lemma SubmitMoves(e: Engine, input: Input, i: OrderId)
    requires EngineValid(e) && Acceptable(input) && FreshId(e, input.id)
    ensures var (e', result) := EngineSpec.Submit(e, input);
            ListedIn(e', i) + Owed(input.id, result, i) == ListedIn(e, i) + if i == input.id then input.quantity else 0.0
    ensures var result := EngineSpec.Submit(e, input).1;
            Closing(result) ==> Owed(input.id, result, input.id) == input.quantity
  {
    hide SideValid, Match, Insert, Listed, Demand;
    var t, o, makers, own := TakerOf(input), MatchOf(e, input), SideOf(e, Opposite(input.side)), SideOf(e, input.side);
    MembersReduced(Opposite(input.side), makers);
    MembersReduced(input.side, own);
    MatchConserves(t, makers, input.quantity);
    MatchMoves(t, makers, input.quantity, i);
    MatchMoves(t, makers, input.quantity, input.id);
    ListedNonNegative(makers, input.id);
    MatchKeepsSide(t, makers, input.quantity);
    MembersReduced(Opposite(input.side), o.makers);
    IdsReduced(o.makers, makers);
    ListedNonNegative(o.makers, input.id);
    if Stays(input, o.remaining, o.stopped) {
      InsertListed(input.side, own, Remainder(input, o.remaining, e.sequence + 1), i);
    }
  }

  lemma ListedInNonNegative(e: Engine, i: OrderId)
    requires EngineValid(e)
    ensures ListedIn(e, i) >= 0.0
    ensures FreshId(e, i) <==> ListedIn(e, i) <= 0.0
  {
    MembersReduced(Buy, e.bids);
    MembersReduced(Sell, e.asks);
    ListedNonNegative(e.bids, i);
    ListedNonNegative(e.asks, i);
  }

  lemma BooksNonNegative(orders: seq<OrderRow>, engines: map<MarketId, Engine>, i: OrderId)
    requires EnginesKnown(orders, engines)
    ensures InBooks(engines, i) >= 0.0
    ensures forall mid | mid in engines :: ListedIn(engines[mid], i) <= InBooks(engines, i)
  {
    hide EngineValid, SideKnown, ListedIn;
    forall mid | mid in engines ensures ListedIn(engines[mid], i) >= 0.0 {
      assert EngineKnown(orders, mid, engines[mid]);
      ListedInNonNegative(engines[mid], i);
    }
    SumNonNegative(Shares(engines, i));
    forall mid | mid in engines ensures ListedIn(engines[mid], i) <= InBooks(engines, i) {
      assert Shares(engines, i)[mid] == ListedIn(engines[mid], i);
    }
  }

  lemma OwedNonNegative(markets: Markets, orders: seq<OrderRow>, id: OrderId, f: Flight, i: OrderId)
    requires FlightKnown(markets, orders, id, f)
    ensures Owed(id, f.result, i) >= 0.0
  {
    forall g | g in f.result.fills ensures g.quantity > 0.0 {
      assert FillKnown(orders, f.mid, g);
    }
    DemandNonNegative(f.result.fills, i);
  }

  lemma FlightsNonNegative(markets: Markets, orders: seq<OrderRow>, flights: map<OrderId, Flight>, i: OrderId)
    requires FlightsKnown(markets, orders, flights)
    ensures InFlight(flights, i) >= 0.0
    ensures forall id | id in flights :: 0.0 <= Owed(id, flights[id].result, i) <= InFlight(flights, i)
  {
    hide FlightKnown, Owed;
    forall id | id in flights ensures Owed(id, flights[id].result, i) >= 0.0 {
      OwedNonNegative(markets, orders, id, flights[id], i);
    }
    SumNonNegative(Dues(flights, i));
    forall id | id in flights ensures Owed(id, flights[id].result, i) <= InFlight(flights, i) {
      assert Dues(flights, i)[id] == Owed(id, flights[id].result, i);
    }
  }

  lemma EngineMoves(engines: map<MarketId, Engine>, mid: MarketId, e: Engine, i: OrderId)
    requires mid in engines
    ensures InBooks(engines[mid := e], i) == InBooks(engines, i) - ListedIn(engines[mid], i) + ListedIn(e, i)
  {
    SumUpdate(Shares(engines, i), mid, ListedIn(e, i));
    assert Shares(engines[mid := e], i) == Shares(engines, i)[mid := ListedIn(e, i)];
  }

  lemma FlightStarts(flights: map<OrderId, Flight>, id: OrderId, f: Flight, i: OrderId)
    ensures InFlight(flights[id := f], i) ==
            InFlight(flights, i) - (if id in flights then Owed(id, flights[id].result, i) else 0.0) + Owed(id, f.result, i)
  {
    SumUpdate(Dues(flights, i), id, Owed(id, f.result, i));
    assert Dues(flights[id := f], i) == Dues(flights, i)[id := Owed(id, f.result, i)];
  }

  lemma FlightEnds(flights: map<OrderId, Flight>, id: OrderId, i: OrderId)
    requires id in flights
    ensures InFlight(flights - {id}, i) == InFlight(flights, i) - Owed(id, flights[id].result, i)
  {
    SumRemove(Dues(flights, i), id);
    assert Dues(flights - {id}, i) == Dues(flights, i) - {id};
  }

  // ---------------------------------------------------------------------------
  // Rows move on
  // ---------------------------------------------------------------------------

  lemma OnwardChain(a: seq<OrderRow>, b: seq<OrderRow>, c: seq<OrderRow>)
    requires AllOnward(a, b) && AllOnward(b, c)
    ensures AllOnward(a, c)
  {
    forall i | 0 <= i < |a| ensures Onward(a[i], c[i]) {
      assert Onward(a[i], b[i]) && Onward(b[i], c[i]);
    }
  }

  lemma AllKnownStays(orders: seq<OrderRow>, orders': seq<OrderRow>, mid: MarketId, fills: seq<Fill>)
    requires AllKnown(orders, mid, fills) && AllOnward(orders, orders')
    ensures AllKnown(orders', mid, fills)
  {
    hide Notional;
    forall f | f in fills ensures FillKnown(orders', mid, f) && WithinLimit(orders', f) {
      assert FillKnown(orders, mid, f) && WithinLimit(orders, f);
      assert Onward(orders[f.makerOrderId], orders'[f.makerOrderId]) && Onward(orders[f.takerOrderId], orders'[f.takerOrderId]);
    }
  }

  lemma SideKnownStays(orders: seq<OrderRow>, orders': seq<OrderRow>, mid: MarketId, side: Side, s: seq<Maker>)
    requires SideKnown(orders, mid, side, s) && AllOnward(orders, orders')
    ensures SideKnown(orders', mid, side, s)
  {
    forall o | o in s ensures EntryKnown(orders', mid, side, o) {
      assert EntryKnown(orders, mid, side, o) && Onward(orders[o.id], orders'[o.id]);
    }
  }

  /** Books, waiting orders and matches under way stay known while rows move on and fees change. */
  lemma KnownStays(
    markets: Markets, markets': Markets, orders: seq<OrderRow>, orders': seq<OrderRow>,
    engines: map<MarketId, Engine>, pending: map<OrderId, Market>, flights: map<OrderId, Flight>)
    requires SameTerms(markets, markets') && AllOnward(orders, orders')
    requires EnginesKnown(orders, engines) && AllPendingKnown(markets, orders, pending) && FlightsKnown(markets, orders, flights)
    ensures EnginesKnown(orders', engines) && AllPendingKnown(markets', orders', pending) && FlightsKnown(markets', orders', flights)
  {
    hide EngineValid, SideKnown, AllKnown, Owed;
    forall mid | mid in engines ensures EngineKnown(orders', mid, engines[mid]) {
      assert EngineKnown(orders, mid, engines[mid]);
      SideKnownStays(orders, orders', mid, Buy, engines[mid].bids);
      SideKnownStays(orders, orders', mid, Sell, engines[mid].asks);
    }
    forall id | id in pending ensures PendingKnown(markets', orders', id, pending[id]) {
      assert PendingKnown(markets, orders, id, pending[id]) && Onward(orders[id], orders'[id]);
    }
    forall id | id in flights ensures FlightKnown(markets', orders', id, flights[id]) {
      assert FlightKnown(markets, orders, id, flights[id]) && Onward(orders[id], orders'[id]);
      AllKnownStays(orders, orders', flights[id].mid, flights[id].result.fills);
    }
  }

  // ---------------------------------------------------------------------------
  // Settling
  // ---------------------------------------------------------------------------

  /** The tables after settling, with exactly the fills taken off the room of every row. */
  ghost predicate SettledBacked(markets: Markets, t: Tables, t': Tables, fills: seq<Fill>) {
    && Backed(markets, t') && |t'.orders| == |t.orders| && AllOnward(t.orders, t'.orders)
    && forall i: OrderId | i < |t.orders| :: Room(t'.orders[i]) == Room(t.orders[i]) - Demand(fills, i)
  }

  lemma SettledNothing(markets: Markets, t: Tables)
    requires Backed(markets, t)
    ensures SettledBacked(markets, t, t, [])
  {
    hide Backed;
    OrdersStay(t.orders);
    SameIsOnward(t.orders, t.orders);
  }

  lemma FirstFillFits(orders: seq<OrderRow>, mid: MarketId, f: Fill, rest: seq<Fill>)
    requires AllKnown(orders, mid, [f] + rest)
    requires forall i: OrderId | i < |orders| :: Demand([f] + rest, i) <= Room(orders[i])
    ensures FillKnown(orders, mid, f) && WithinLimit(orders, f) && FillFitsIn(orders, f) && AllKnown(orders, mid, rest)
    ensures forall i :: Demand(rest, i) >= 0.0
  {
    hide WithinLimit, Room, Notional, Demand;
    var fills := [f] + rest;
    assert f in fills && forall g | g in rest :: g in fills;
    forall g | g in rest ensures FillKnown(orders, mid, g) && WithinLimit(orders, g) {
      assert g in fills;
    }
    assert FillKnown(orders, mid, f) && WithinLimit(orders, f);
    forall i
      ensures Demand(rest, i) >= 0.0
      ensures Demand(fills, i) == (if f.makerOrderId == i || f.takerOrderId == i then f.quantity else 0.0) + Demand(rest, i)
    {
      DemandNonNegative(rest, i);
      DemandCons(f, rest, i);
    }
  }

  /** Fills that every row has room for leave the tables backed, whatever became of their orders since they
      were matched. */
  lemma {:induction false} SettlingKeepsBacked(markets: Markets, t: Tables, mid: MarketId, fills: seq<Fill>)
    requires Backed(markets, t) && mid in markets && AllKnown(t.orders, mid, fills)
    requires forall i: OrderId | i < |t.orders| :: Demand(fills, i) <= Room(t.orders[i])
    ensures SettleAll(t, mid, markets[mid], fills).Ok? ==>
              SettledBacked(markets, t, SettleAll(t, mid, markets[mid], fills).value, fills)
    decreases |fills|
  {
    hide Backed, SettleFill, AllKnown, FillKnown, WithinLimit, FillFitsIn, Room, Demand, OrdersAfter, Onward;
    if fills == [] {
      SettledNothing(markets, t);
      return;
    }
    var f, rest := fills[0], fills[1..];
    assert fills == [f] + rest;
    FirstFillFits(t.orders, mid, f, rest);
    FillKeepsBacked(markets, t, mid, f);
    var first := SettleFill(t, mid, markets[mid], f);
    if first.Ok? {
      AllKnownStays(t.orders, first.value.orders, mid, rest);
      forall i: OrderId | i < |t.orders|
        ensures Demand(fills, i) == (if f.makerOrderId == i || f.takerOrderId == i then f.quantity else 0.0) + Demand(rest, i)
      {
        DemandCons(f, rest, i);
      }
      SettlingKeepsBacked(markets, first.value, mid, rest);
      var all := SettleAll(first.value, mid, markets[mid], rest);
      if all.Ok? {
        OnwardChain(t.orders, first.value.orders, all.value.orders);
      }
    }
  }

  lemma RoomWithinQuantity(markets: Markets, t: Tables, i: OrderId)
    requires Backed(markets, t) && i < |t.orders|
    ensures Room(t.orders[i]) <= t.orders[i].quantity && 0.0 <= Room(t.orders[i])
  {
    hide Booked, TradesFit, TradesValid, HoldBacks;
    BackedRow(markets, t, i);
  }

  /** The whole settling transaction. */
  lemma SettleKeepsBacked(markets: Markets, t: Tables, mid: MarketId, id: OrderId, result: SubmitResult)
    requires Backed(markets, t) && mid in markets && AllKnown(t.orders, mid, result.fills) && id < |t.orders|
    requires forall i: OrderId | i < |t.orders| :: Owed(id, result, i) <= Room(t.orders[i])
    requires Closing(result) ==> Owed(id, result, id) == t.orders[id].quantity
    ensures Settle(t, mid, markets[mid], id, result).Ok? ==>
              var t' := Settle(t, mid, markets[mid], id, result).value;
              && Backed(markets, t') && |t'.orders| == |t.orders| && AllOnward(t.orders, t'.orders)
              && forall i: OrderId | i < |t.orders| :: Room(t'.orders[i]) >= Room(t.orders[i]) - Owed(id, result, i)
  {
    hide Backed, SettleAll, AllKnown, Demand, Onward, ReduceHold;
    SettlingKeepsBacked(markets, t, mid, result.fills);
    RoomWithinQuantity(markets, t, id);
    var settled := SettleAll(t, mid, markets[mid], result.fills);
    if settled.Ok? && Closing(result) {
      CloseKeepsBacked(markets, settled.value, id, result);
      OnwardChain(t.orders, settled.value.orders, CloseRemainder(settled.value, id, result).orders);
    }
  }

  // ---------------------------------------------------------------------------
  // Every action keeps the invariant
  // ---------------------------------------------------------------------------

  lemma {:induction false} NoDemand(orders: seq<OrderRow>, mid: MarketId, fills: seq<Fill>, i: OrderId)
    requires AllKnown(orders, mid, fills) && i >= |orders|
    ensures Demand(fills, i) == 0.0
  {
    if fills != [] {
      assert fills[0] in fills && FillKnown(orders, mid, fills[0]) && forall f | f in fills[1..] :: f in fills;
      NoDemand(orders, mid, fills[1..], i);
    }
  }

  /** Nothing is promised of an order that does not exist yet. */
  lemma NothingPromised(c: Machine)
    requires Sound(c)
    ensures InBooks(c.core.engines, |c.core.tables.orders|) == 0.0 && InFlight(c.flights, |c.core.tables.orders|) == 0.0
  {
    hide Backed, WithinRoom, EngineValid, AllKnown, Listed, Demand;
    var s, n := c.core, |c.core.tables.orders|;
    forall mid | mid in s.engines ensures ListedIn(s.engines[mid], n) == 0.0 {
      var e := s.engines[mid];
      assert EngineKnown(s.tables.orders, mid, e);
      forall o | o in e.bids || o in e.asks ensures o.id < n {
        assert EntryKnown(s.tables.orders, mid, Buy, o) || EntryKnown(s.tables.orders, mid, Sell, o);
      }
      ListedInNonNegative(e, n);
    }
    SumZero(Shares(s.engines, n));
    forall id | id in c.flights ensures Owed(id, c.flights[id].result, n) == 0.0 {
      assert FlightKnown(s.markets, s.tables.orders, id, c.flights[id]);
      NoDemand(s.tables.orders, c.flights[id].mid, c.flights[id].result.fills, n);
    }
    SumZero(Dues(c.flights, n));
  }

  lemma CreateKeepsSound(c: Machine, userId: UserId, r: Request, price: real, m: Market)
    requires Sound(c)
    ensures Sound(c.(core := Create(c.core, userId, r, price, m)))
    ensures AllOnward(c.core.tables.orders, Create(c.core, userId, r, price, m).tables.orders)
  {
    hide Backed, EnginesKnown, FlightsKnown, CreateAndLock, InBooks, InFlight;
    var s, s' := c.core, Create(c.core, userId, r, price, m);
    OrdersStay(s.tables.orders);
    SameIsOnward(s.tables.orders, s.tables.orders);
    if s' != s {
      var row, n := NewRow(userId, r, price), |s.tables.orders|;
      CreateKeepsBacked(s.markets, s.tables, m, row);
      ItsOwnTerms(s.markets);
      KnownStays(s.markets, s.markets, s.tables.orders, s'.tables.orders, s.engines, s.pending, c.flights);
      NothingPromised(c);
      forall i: OrderId | i < |s'.tables.orders|
        ensures Promised(c.(core := s'), i) <= Room(s'.tables.orders[i])
      {
        if i < n {
          assert Promised(c, i) <= Room(s.tables.orders[i]);
        }
      }
    }
  }

  /** A waiting order is whole, and no engine lists it. */
  lemma PendingIsWhole(c: Machine, id: OrderId)
    requires Sound(c) && id in c.core.pending
    ensures var s := c.core;
            && id < |s.tables.orders| && s.tables.orders[id].market in s.engines
            && Acceptable(InputOf(id, s.tables.orders[id]))
            && FreshId(s.engines[s.tables.orders[id].market], id)
            && PendingKnown(s.markets, s.tables.orders, id, s.pending[id])
  {
    hide Backed, EngineValid, SideKnown, FlightKnown, InFlight, InBooks, ListedIn, FreshId;
    var s := c.core;
    assert PendingKnown(s.markets, s.tables.orders, id, s.pending[id]);
    assert Promised(c, id) <= Room(s.tables.orders[id]);
    RoomWithinQuantity(s.markets, s.tables, id);
    BooksNonNegative(s.tables.orders, s.engines, id);
    FlightsNonNegative(s.markets, s.tables.orders, c.flights, id);
    var mid := s.tables.orders[id].market;
    assert EngineKnown(s.tables.orders, mid, s.engines[mid]);
    ListedInNonNegative(s.engines[mid], id);
  }

  /** What an engine matches is known to the rows, and so is what it lists afterwards. */
  lemma SubmitKeepsKnown(orders: seq<OrderRow>, mid: MarketId, e: Engine, id: OrderId)
    requires EngineKnown(orders, mid, e) && id < |orders| && orders[id].market == mid
    requires Acceptable(InputOf(id, orders[id])) && FreshId(e, id)
    ensures var (e', result) := EngineSpec.Submit(e, InputOf(id, orders[id]));
            EngineKnown(orders, mid, e') && AllKnown(orders, mid, result.fills)
  {
    hide EngineValid, Match, Insert;
    var input := InputOf(id, orders[id]);
    var o, own, makers := MatchOf(e, input), SideOf(e, input.side), SideOf(e, Opposite(input.side));
    SubmitKeepsValid(e, input);
    assert SideValid(Opposite(input.side), makers) by { BothSidesValid(e); }
    hide SideValid;
    MatchKeepsSide(TakerOf(input), makers, input.quantity);
    forall m' | m' in o.makers ensures EntryKnown(orders, mid, Opposite(input.side), m') {
      var m :| m in makers && ReducedFrom(m', m);
      assert EntryKnown(orders, mid, Opposite(input.side), m);
    }
    if Stays(input, o.remaining, o.stopped) {
      InsertMembers(input.side, own, Remainder(input, o.remaining, e.sequence + 1));
    }
    MatchedIsKnown(orders, mid, TakerOf(input), makers, input.quantity);
  }

  lemma BothSidesValid(e: Engine)
    requires EngineValid(e)
    ensures SideValid(Buy, e.bids) && SideValid(Sell, e.asks)
  {
  }

  lemma MatchedIsKnown(orders: seq<OrderRow>, mid: MarketId, t: Taker, makers: seq<Maker>, quantity: real)
    requires SideKnown(orders, mid, Opposite(t.side), makers) && SideValid(Opposite(t.side), makers)
    requires t.id < |orders|
    requires var r := orders[t.id];
             && r.market == mid && r.side == t.side && r.userId == t.userId
             && t.limit == if r.orderType == Limit then Some(r.price) else None
    ensures AllKnown(orders, mid, Match(t, makers, quantity).fills)
  {
    hide Match, SideValid;
    MembersReduced(Opposite(t.side), makers);
    MatchIsFair(t, makers, quantity);
    forall f | f in Match(t, makers, quantity).fills ensures FillKnown(orders, mid, f) && WithinLimit(orders, f) {
      assert FairFill(t, makers, f);
      var m :| m in makers && m.id == f.makerOrderId && m.price == f.price && m.userId == f.makerUserId;
      assert EntryKnown(orders, mid, Opposite(t.side), m);
    }
  }

  /** Matching moves what was waiting into the book and into flight; what is promised stays as it was. */
  lemma MatchKeepsPromises(c: Machine, id: OrderId, i: OrderId)
    requires Sound(c) && id in c.core.pending && i < |c.core.tables.orders|
    ensures Promised(MatchNow(c, id), i) <= Promised(c, i)
  {
    hide Backed, SideKnown, FlightKnown, ListedIn, Owed, EngineSpec.Submit, FreshId, InBooks, InFlight, EngineValid, WithinRoom;
    PendingIsWhole(c, id);
    var s := c.core;
    var row := s.tables.orders[id];
    var e := s.engines[row.market];
    var (e', result) := EngineSpec.Submit(e, InputOf(id, row));
    assert EngineKnown(s.tables.orders, row.market, e);
    SubmitMoves(e, InputOf(id, row), i);
    EngineMoves(s.engines, row.market, e', i);
    FlightStarts(c.flights, id, Flight(row.market, s.pending[id], result), i);
    FlightsNonNegative(s.markets, s.tables.orders, c.flights, i);
  }

  lemma MatchKeepsKnown(c: Machine, id: OrderId)
    requires Sound(c) && id in c.core.pending
    ensures var c' := MatchNow(c, id);
            && EnginesKnown(c'.core.tables.orders, c'.core.engines) && c'.core.engines.Keys == c.core.engines.Keys
            && AllPendingKnown(c'.core.markets, c'.core.tables.orders, c'.core.pending)
            && FlightsKnown(c'.core.markets, c'.core.tables.orders, c'.flights)
  {
    hide Backed, EngineKnown, AllKnown, Owed, EngineSpec.Submit, FreshId, WithinRoom;
    PendingIsWhole(c, id);
    var s := c.core;
    var row := s.tables.orders[id];
    assert EngineKnown(s.tables.orders, row.market, s.engines[row.market]);
    KnownIsValid(s.tables.orders, row.market, s.engines[row.market]);
    SubmitKeepsKnown(s.tables.orders, row.market, s.engines[row.market], id);
    SubmitMoves(s.engines[row.market], InputOf(id, row), id);
    var c' := MatchNow(c, id);
    forall other | other in c'.flights ensures FlightKnown(s.markets, s.tables.orders, other, c'.flights[other]) {
      assert other != id ==> FlightKnown(s.markets, s.tables.orders, other, c.flights[other]);
    }
    forall other | other in c'.core.pending ensures PendingKnown(s.markets, s.tables.orders, other, c'.core.pending[other]) {
      assert PendingKnown(s.markets, s.tables.orders, other, s.pending[other]);
    }
  }

  lemma KnownIsValid(orders: seq<OrderRow>, mid: MarketId, e: Engine)
    requires EngineKnown(orders, mid, e)
    ensures EngineValid(e)
  {
  }

  lemma MatchTouchesNoTable(c: Machine, id: OrderId)
    ensures MatchNow(c, id).core.tables == c.core.tables && MatchNow(c, id).core.markets == c.core.markets
  {
    hide EngineSpec.Submit;
  }

  lemma MatchKeepsSound(c: Machine, id: OrderId)
    requires Sound(c)
    ensures Sound(MatchNow(c, id))
  {
    hide Backed, EnginesKnown, AllPendingKnown, FlightsKnown, Promised;
    if id in c.core.pending {
      MatchKeepsKnown(c, id);
      MatchTouchesNoTable(c, id);
      forall i: OrderId | i < |c.core.tables.orders| ensures Promised(MatchNow(c, id), i) <= Room(c.core.tables.orders[i]) {
        MatchKeepsPromises(c, id, i);
        assert Promised(c, i) <= Room(c.core.tables.orders[i]);
      }
    }
  }

  /** A market row read earlier, in its place among the markets. */
  function With(markets: Markets, mid: MarketId, m: Market): Markets {
    markets[mid := m]
  }

  lemma WithSameTerms(markets: Markets, mid: MarketId, m: Market)
    requires SamePair(markets, mid, m)
    ensures SameTerms(markets, With(markets, mid, m)) && SameTerms(With(markets, mid, m), markets)
    ensures mid in With(markets, mid, m) && With(markets, mid, m)[mid] == m
  {
  }

  /** What the match under way for `id` takes is within the room of every row. */
  lemma FlightFits(c: Machine, id: OrderId, i: OrderId)
    requires Sound(c) && id in c.flights && i < |c.core.tables.orders|
    ensures 0.0 <= Owed(id, c.flights[id].result, i) <= Room(c.core.tables.orders[i])
  {
    hide Backed, EngineKnown, FlightKnown, Owed, InBooks, InFlight;
    var s := c.core;
    assert Promised(c, i) <= Room(s.tables.orders[i]);
    BooksNonNegative(s.tables.orders, s.engines, i);
    FlightsNonNegative(s.markets, s.tables.orders, c.flights, i);
    if i in s.pending {
      assert PendingKnown(s.markets, s.tables.orders, i, s.pending[i]);
    }
  }

  lemma SettleBacks(c: Machine, id: OrderId)
    requires Sound(c) && id in c.flights
    ensures var s, f := c.core, c.flights[id];
            var r := Settle(s.tables, f.mid, f.market, id, f.result);
            r.Ok? ==>
              && Backed(s.markets, r.value) && |r.value.orders| == |s.tables.orders| && AllOnward(s.tables.orders, r.value.orders)
              && forall i: OrderId | i < |s.tables.orders| ::
                   Room(r.value.orders[i]) >= Room(s.tables.orders[i]) - Owed(id, f.result, i)
  {
    hide Backed, EngineKnown, AllKnown, Owed, WithinRoom, Settle, SameTerms, With, Onward;
    var s, f := c.core, c.flights[id];
    assert FlightKnown(s.markets, s.tables.orders, id, f);
    var markets := With(s.markets, f.mid, f.market);
    WithSameTerms(s.markets, f.mid, f.market);
    TermsKeepBacked(s.markets, markets, s.tables);
    forall i: OrderId | i < |s.tables.orders| ensures Owed(id, f.result, i) <= Room(s.tables.orders[i]) {
      FlightFits(c, id, i);
    }
    SettleKeepsBacked(markets, s.tables, f.mid, id, f.result);
    var r := Settle(s.tables, f.mid, f.market, id, f.result);
    if r.Ok? {
      TermsKeepBacked(markets, s.markets, r.value);
    }
  }

  /** Settling, or failing to settle, takes a match out of flight. */
  lemma FlightLands(c: Machine, id: OrderId, i: OrderId)
    requires Sound(c) && id in c.flights && i < |c.core.tables.orders|
    ensures InFlight(c.flights - {id}, i) == InFlight(c.flights, i) - Owed(id, c.flights[id].result, i)
  {
    FlightEnds(c.flights, id, i);
  }

  lemma SettleKeepsSound(c: Machine, id: OrderId)
    requires Sound(c)
    ensures Sound(SettleNow(c, id)) && AllOnward(c.core.tables.orders, SettleNow(c, id).core.tables.orders)
  {
    hide Backed, EnginesKnown, FlightKnown, Owed, InBooks, InFlight, Settle, Room, Onward;
    var s, c' := c.core, SettleNow(c, id);
    OrdersStay(s.tables.orders);
    SameIsOnward(s.tables.orders, s.tables.orders);
    if id in c.flights {
      SettleBacks(c, id);
      ItsOwnTerms(s.markets);
      assert FlightsKnown(s.markets, s.tables.orders, c'.flights) by {
        forall other | other in c'.flights ensures FlightKnown(s.markets, s.tables.orders, other, c'.flights[other]) {
          assert FlightKnown(s.markets, s.tables.orders, other, c.flights[other]);
        }
      }
      KnownStays(s.markets, s.markets, s.tables.orders, c'.core.tables.orders, s.engines, s.pending, c'.flights);
      forall i: OrderId | i < |s.tables.orders| ensures Promised(c', i) <= Room(c'.core.tables.orders[i]) {
        assert Promised(c, i) <= Room(s.tables.orders[i]);
        FlightLands(c, id, i);
        FlightFits(c, id, i);
        assert Onward(s.tables.orders[i], c'.core.tables.orders[i]);
        OnwardQuantity(s.tables.orders[i], c'.core.tables.orders[i]);
      }
    }
  }

  lemma OnwardQuantity(r: OrderRow, r': OrderRow)
    requires Onward(r, r')
    ensures r'.quantity == r.quantity
  {
  }

  lemma CloseKeepsSound(c: Machine, userId: UserId, id: OrderId)
    requires Sound(c)
    ensures Sound(c.(core := Close(c.core, userId, id)))
    ensures AllOnward(c.core.tables.orders, Close(c.core, userId, id).tables.orders)
  {
    hide Backed, EnginesKnown, FlightsKnown, InBooks, InFlight, ReleaseHold, Onward;
    var s, s' := c.core, Close(c.core, userId, id);
    OrdersStay(s.tables.orders);
    SameIsOnward(s.tables.orders, s.tables.orders);
    if s' != s {
      CancelKeepsBacked(s.markets, s.tables, id);
      ItsOwnTerms(s.markets);
      KnownStays(s.markets, s.markets, s.tables.orders, s'.tables.orders, s.engines, s.pending, c.flights);
      forall i: OrderId | i < |s.tables.orders| ensures Promised(c.(core := s'), i) <= Room(s'.tables.orders[i]) {
        assert Promised(c, i) <= Room(s.tables.orders[i]);
      }
    }
  }

  lemma CancelKeepsKnown(orders: seq<OrderRow>, mid: MarketId, e: Engine, id: OrderId)
    requires EngineKnown(orders, mid, e)
    ensures EngineKnown(orders, mid, EngineSpec.Cancel(e, id))
    ensures forall i :: ListedIn(EngineSpec.Cancel(e, id), i) <= ListedIn(e, i)
  {
    hide EngineValid, EngineSpec.Cancel, Delete, Uncrossed;
    CancelRemoves(e, id);
    var e' := EngineSpec.Cancel(e, id);
    forall o | o in e'.bids ensures EntryKnown(orders, mid, Buy, o) {
      assert EntryKnown(orders, mid, Buy, o);
    }
    forall o | o in e'.asks ensures EntryKnown(orders, mid, Sell, o) {
      assert EntryKnown(orders, mid, Sell, o);
    }
    forall i ensures ListedIn(e', i) <= ListedIn(e, i) {
      CancelListed(e, id, i);
    }
  }

  lemma CancelListed(e: Engine, id: OrderId, i: OrderId)
    requires EngineValid(e)
    ensures ListedIn(EngineSpec.Cancel(e, id), i) <= ListedIn(e, i)
  {
    hide SideValid, Delete, Listed;
    MembersReduced(Buy, e.bids);
    MembersReduced(Sell, e.asks);
    DeleteListed(e.bids, id, i);
    DeleteListed(e.asks, id, i);
  }

  lemma TakeOffKeepsSound(c: Machine, mid: MarketId, id: OrderId)
    requires Sound(c)
    ensures Sound(c.(core := TakeOff(c.core, mid, id)))
  {
    hide Backed, EngineKnown, AllPendingKnown, FlightsKnown, InBooks, InFlight, ListedIn, EngineSpec.Cancel;
    var s := c.core;
    if mid in s.engines {
      assert EngineKnown(s.tables.orders, mid, s.engines[mid]);
      CancelKeepsKnown(s.tables.orders, mid, s.engines[mid], id);
      var s' := TakeOff(s, mid, id);
      forall i: OrderId | i < |s.tables.orders| ensures Promised(c.(core := s'), i) <= Room(s.tables.orders[i]) {
        EngineMoves(s.engines, mid, s'.engines[mid], i);
        assert Promised(c, i) <= Room(s.tables.orders[i]);
      }
    }
  }

  lemma FundsKeepSound(c: Machine, op: Op)
    requires Sound(c)
    requires op.GrantFunds? || op.CreateDeposit? || op.ConfirmDeposit? || op.Withdraw? || op.Adjust?
    ensures Sound(c.(core := Exec(c.core, op).state))
    ensures Exec(c.core, op).state.tables.orders == c.core.tables.orders
  {
    hide Booked, RowsBacked, TradesFit, TradesValid, EnginesKnown, AllPendingKnown, FlightsKnown, InBooks, InFlight, Exec;
    var s, s' := c.core, Exec(c.core, op).state;
    FundsKeepBooked(s, op);
    OnlyFundsKeepsBacked(s.markets, s.tables, s'.tables);
    forall i: OrderId | i < |s.tables.orders| ensures Promised(c.(core := s'), i) <= Room(s.tables.orders[i]) {
      assert Promised(c, i) <= Room(s.tables.orders[i]);
    }
  }

  lemma UpdateKeepsSound(c: Machine, id: MarketId, status: Option<MarketStatus>, makerFee: Option<real>, takerFee: Option<real>)
    requires Sound(c)
    ensures Sound(c.(core := ApplyUpdateMarket(c.core, id, status, makerFee, takerFee).state))
  {
    hide Backed, EnginesKnown, AllPendingKnown, FlightsKnown, InBooks, InFlight, Onward;
    var s, s' := c.core, ApplyUpdateMarket(c.core, id, status, makerFee, takerFee).state;
    assert SameTerms(s.markets, s'.markets);
    TermsKeepBacked(s.markets, s'.markets, s.tables);
    OrdersStay(s.tables.orders);
    SameIsOnward(s.tables.orders, s.tables.orders);
    KnownStays(s.markets, s'.markets, s.tables.orders, s.tables.orders, s.engines, s.pending, c.flights);
    forall i: OrderId | i < |s.tables.orders| ensures Promised(c.(core := s'), i) <= Room(s.tables.orders[i]) {
      assert Promised(c, i) <= Room(s.tables.orders[i]);
    }
  }

  // ---------------------------------------------------------------------------
  // Restart
  // ---------------------------------------------------------------------------

  lemma {:induction false} RebuiltListed(orders: seq<OrderRow>, mid: MarketId, side: Side, i: OrderId)
    ensures Listed(RebuildSide(orders, mid, side), i) ==
            if i < |orders| && RestsIn(orders[i], mid, side) then orders[i].remaining else 0.0
  {
    hide Insert;
    if orders != [] {
      var n := |orders| - 1;
      RebuiltListed(orders[..n], mid, side, i);
      if RestsIn(orders[n], mid, side) {
        InsertListed(side, RebuildSide(orders[..n], mid, side), RestoredMaker(n, orders[n]), i);
      }
    }
  }

  /** Rebuilt books list a live limit row once, in the book of its market. */
  lemma RebuiltWithinRoom(markets: Markets, orders: seq<OrderRow>, engines: map<MarketId, Engine>, i: OrderId)
    requires engines == map mid | mid in markets :: Rebuild(orders, mid)
    requires i < |orders| && RowValid(orders[i])
    ensures InBooks(engines, i) <= Room(orders[i])
  {
    hide RebuildSide, Listed;
    var shares, own := Shares(engines, i), orders[i].market;
    forall mid | mid in engines
      ensures shares[mid] == if mid == own && orders[i].orderType == Limit && Live(orders[i]) then orders[i].remaining else 0.0
    {
      RebuiltListed(orders, mid, Buy, i);
      RebuiltListed(orders, mid, Sell, i);
    }
    if own in engines {
      SumRemove(shares, own);
      SumZero(shares - {own});
    } else {
      SumZero(shares);
    }
  }

  lemma RebuiltKnown(orders: seq<OrderRow>, mid: MarketId)
    requires forall i | 0 <= i < |orders| :: RowValid(orders[i])
    ensures EngineKnown(orders, mid, Rebuild(orders, mid))
  {
    hide SideValid, RebuildSide, RowValid;
    Safety.RebuildInSync(orders, mid);
    var e := Rebuild(orders, mid);
    forall o | o in e.bids ensures EntryKnown(orders, mid, Buy, o) {
      assert Submission.EntryAgrees(orders, mid, Buy, o);
    }
    forall o | o in e.asks ensures EntryKnown(orders, mid, Sell, o) {
      assert Submission.EntryAgrees(orders, mid, Sell, o);
    }
  }

  lemma NoFlights(i: OrderId)
    ensures InFlight(map[], i) == 0.0
  {
    assert Dues(map[], i) == map[];
  }

  lemma RestartKeepsSound(c: Machine)
    requires Sound(c)
    ensures Sound(Machine(ApplyRestart(c.core).state, map[]))
  {
    hide TradesFit, TradesValid, Booked, HoldBacks, RowValid, EngineKnown, InBooks, InFlight, Rebuild;
    var s, s' := c.core, ApplyRestart(c.core).state;
    forall i: OrderId | i < |s.tables.orders| ensures RowValid(s.tables.orders[i]) {
      BackedRow(s.markets, s.tables, i);
    }
    forall mid | mid in s.markets ensures EngineKnown(s.tables.orders, mid, Rebuild(s.tables.orders, mid)) {
      RebuiltKnown(s.tables.orders, mid);
    }
    forall i: OrderId | i < |s.tables.orders| ensures Promised(Machine(s', map[]), i) <= Room(s.tables.orders[i]) {
      RebuiltWithinRoom(s.markets, s.tables.orders, s'.engines, i);
      NoFlights(i);
    }
  }

  // ---------------------------------------------------------------------------
  // Every interleaving
  // ---------------------------------------------------------------------------

  lemma WholeKeepsSound(c: Machine, op: Op)
    requires Sound(c)
    ensures Sound(Act(c, Whole(op))) && AllOnward(c.core.tables.orders, Act(c, Whole(op)).core.tables.orders)
  {
    hide Sound, ApplyGrant, ApplyCreateDeposit, ApplyWithdraw, ApplyAdjust, Confirm, ApplyRestart, ApplyUpdateMarket, Onward;
    OrdersStay(c.core.tables.orders);
    SameIsOnward(c.core.tables.orders, c.core.tables.orders);
    match op
    case Place(_, _) =>
    case SubmitOrder(_) =>
    case CancelOrder(_, _) =>
    case UpdateMarket(id, status, makerFee, takerFee) =>
      UpdateKeepsSound(c, id, status, makerFee, takerFee);
      UpdateTouchesNoTable(c.core, id, status, makerFee, takerFee);
    case Restart => RestartKeepsSound(c);
      RestartTouchesNoTable(c.core);
    case _ => FundsKeepSound(c, op);
  }

  lemma UpdateTouchesNoTable(s: State, id: MarketId, status: Option<MarketStatus>, makerFee: Option<real>, takerFee: Option<real>)
    ensures ApplyUpdateMarket(s, id, status, makerFee, takerFee).state.tables == s.tables
  {
  }

  lemma RestartTouchesNoTable(s: State)
    ensures ApplyRestart(s).state.tables == s.tables
  {
  }

  /** Every action keeps the invariant, whatever it is interleaved with, and no order's terms change or fills
      are taken back. */
  lemma ActKeepsSound(c: Machine, a: Action)
    requires Sound(c)
    ensures Sound(Act(c, a)) && AllOnward(c.core.tables.orders, Act(c, a).core.tables.orders)
  {
    hide Sound, Create, MatchNow, SettleNow, Close, TakeOff, Exec, Onward;
    OrdersStay(c.core.tables.orders);
    SameIsOnward(c.core.tables.orders, c.core.tables.orders);
    match a
    case CreateRow(userId, request, price, market) => CreateKeepsSound(c, userId, request, price, market);
    case MatchOrder(id) =>
      MatchKeepsSound(c, id);
      MatchTouchesNoTable(c, id);
    case SettleFlight(id) => SettleKeepsSound(c, id);
    case CloseRow(userId, id) => CloseKeepsSound(c, userId, id);
    case Unlist(mid, id) =>
      TakeOffKeepsSound(c, mid, id);
      assert TakeOff(c.core, mid, id).tables == c.core.tables by { TakeOffTouchesNoTable(c.core, mid, id); }
    case Whole(op) => WholeKeepsSound(c, op);
  }

  lemma TakeOffTouchesNoTable(s: State, mid: MarketId, id: OrderId)
    ensures TakeOff(s, mid, id).tables == s.tables
  {
  }

  lemma {:induction false} ActionsKeepSound(c: Machine, actions: seq<Action>)
    requires Sound(c)
    ensures Sound(ActAll(c, actions)) && AllOnward(c.core.tables.orders, ActAll(c, actions).core.tables.orders)
    decreases |actions|
  {
    hide Sound, Act, Onward;
    if actions == [] {
      OrdersStay(c.core.tables.orders);
      SameIsOnward(c.core.tables.orders, c.core.tables.orders);
    } else {
      var c' := Act(c, actions[0]);
      ActKeepsSound(c, actions[0]);
      ActionsKeepSound(c', actions[1..]);
      OnwardChain(c.core.tables.orders, c'.core.tables.orders, ActAll(c', actions[1..]).core.tables.orders);
    }
  }

  function Start(markets: Markets): Machine {
    Machine(Init(markets), map[])
  }

  lemma StartIsSound(markets: Markets)
    ensures Sound(Start(markets))
  {
    var s := Init(markets);
    forall k ensures ActiveSum(s.tables.holds, k) == 0.0 {
      assert Weights(s.tables.holds, k) == map[];
    }
    forall asset ensures AssetTotal(s.tables.accounts, asset) == 0.0 {
      assert AssetWeights(s.tables.accounts, asset) == map[];
    }
  }

  /** Every interleaving of transactions and engine calls, from an empty exchange with whatever markets, keeps
      tables, books, waiting orders and matches under way within the invariant. */
  lemma EveryInterleavingIsSound(markets: Markets, actions: seq<Action>)
    ensures Sound(ActAll(Start(markets), actions))
  {
    hide Sound, Act, ActAll, Start;
    StartIsSound(markets);
    ActionsKeepSound(Start(markets), actions);
  }

  // ---------------------------------------------------------------------------
  // Runs of whole operations are interleavings
  // ---------------------------------------------------------------------------

  function Quiet(s: State): Machine {
    Machine(s, map[])
  }

  lemma ActsNone(c: Machine)
    ensures ActAll(c, []) == c
  {
  }

  lemma ActsOne(c: Machine, a: Action)
    ensures ActAll(c, [a]) == Act(c, a)
  {
    hide Act;
    assert [a][1..] == [];
  }

  lemma ActsTwo(c: Machine, a: Action, b: Action)
    ensures ActAll(c, [a, b]) == Act(Act(c, a), b)
  {
    hide Act;
    assert [a, b][1..] == [b];
    ActsOne(Act(c, a), b);
  }

  lemma {:induction false} ActsConcat(c: Machine, a: seq<Action>, b: seq<Action>)
    ensures ActAll(c, a + b) == ActAll(ActAll(c, a), b)
    decreases |a|
  {
    hide Act;
    if a == [] {
      assert a + b == b;
    } else {
      assert (a + b)[1..] == a[1..] + b;
      ActsConcat(Act(c, a[0]), a[1..], b);
    }
  }

  lemma BestPriced(c: Machine, mid: MarketId, side: Side)
    requires Sound(c) && mid in c.core.engines && SideOf(c.core.engines[mid], side) != []
    ensures SideOf(c.core.engines[mid], side)[0].price > 0.0
  {
    hide Booked, TradesFit, TradesValid, RowsBacked, HoldBacks, EngineValid, InBooks, InFlight;
    var s := c.core;
    var best := SideOf(s.engines[mid], side)[0];
    assert EngineKnown(s.tables.orders, mid, s.engines[mid]);
    assert best in SideOf(s.engines[mid], side) && EntryKnown(s.tables.orders, mid, side, best);
    BackedRow(s.markets, s.tables, best.id);
  }

  lemma PlaceIsActions(s: State, userId: UserId, r: Request)
    requires Sound(Quiet(s))
    ensures ActAll(Quiet(s), Actions(s, Place(userId, r))) == Quiet(ApplyPlace(s, userId, r).state)
  {
    hide Sound, CreateAndLock, IsMultipleOf;
    ActsNone(Quiet(s));
    if Actions(s, Place(userId, r)) != [] {
      var m := s.markets[r.market];
      var price := ResolvePrice(m, s.engines[r.market], r).value;
      if r.orderType == MarketOrder {
        BestPriced(Quiet(s), r.market, Opposite(r.side));
      }
      ActsOne(Quiet(s), CreateRow(userId, r, price, m));
    }
  }

  lemma SubmitIsActions(s: State, id: OrderId)
    ensures ActAll(Quiet(s), Actions(s, SubmitOrder(id))) == Quiet(ApplySubmit(s, id).state)
  {
    hide EngineSpec.Submit, Settle;
    ActsTwo(Quiet(s), MatchOrder(id), SettleFlight(id));
    var c := MatchNow(Quiet(s), id);
    if id in c.flights {
      assert c.flights - {id} == map[];
    } else {
      assert c.flights == map[];
    }
  }

  lemma CancelIsActions(s: State, userId: UserId, id: OrderId)
    ensures ActAll(Quiet(s), Actions(s, CancelOrder(userId, id))) == Quiet(ApplyCancel(s, userId, id).state)
  {
    hide EngineSpec.Cancel, ReleaseHold;
    ActsNone(Quiet(s));
    if Actions(s, CancelOrder(userId, id)) != [] {
      ActsTwo(Quiet(s), CloseRow(userId, id), Unlist(s.tables.orders[id].market, id));
    }
  }

  /** A whole operation is its actions, one right after the other. */
  lemma StepIsActions(s: State, op: Op)
    requires Sound(Quiet(s))
    ensures ActAll(Quiet(s), Actions(s, op)) == Quiet(Exec(s, op).state)
  {
    hide Sound, ActAll, ApplyPlace, ApplySubmit, ApplyCancel, ApplyGrant, ApplyCreateDeposit, ApplyWithdraw, ApplyAdjust, Confirm,
      ApplyRestart, ApplyUpdateMarket;
    match op
    case Place(userId, r) => PlaceIsActions(s, userId, r);
    case SubmitOrder(id) => SubmitIsActions(s, id);
    case CancelOrder(userId, id) => CancelIsActions(s, userId, id);
    case _ => ActsOne(Quiet(s), Whole(op));
  }

  lemma {:induction false} RunIsActions(s: State, ops: seq<Op>)
    requires Sound(Quiet(s))
    ensures ActAll(Quiet(s), AllActions(s, ops)) == Quiet(Run(s, ops))
    decreases |ops|
  {
    hide Sound, Actions, Exec, Act;
    if ops != [] {
      var s' := Exec(s, ops[0]).state;
      StepIsActions(s, ops[0]);
      ActionsKeepSound(Quiet(s), Actions(s, ops[0]));
      RunIsActions(s', ops[1..]);
      ActsConcat(Quiet(s), Actions(s, ops[0]), AllActions(s', ops[1..]));
    }
  }

  /** Every run of whole operations is an interleaving, in which nothing is left in flight. */
  lemma EveryRunIsAnInterleaving(markets: Markets, ops: seq<Op>)
    ensures ActAll(Start(markets), AllActions(Init(markets), ops)) == Quiet(Run(Init(markets), ops))
  {
    StartIsSound(markets);
    RunIsActions(Init(markets), ops);
  }

  /** From any sound state, every run stays sound, keeps the terms of its orders and takes back no fill. */
  lemma RunKeepsSound(s: State, ops: seq<Op>)
    requires Sound(Quiet(s))
    ensures Sound(Quiet(Run(s, ops))) && AllOnward(s.tables.orders, Run(s, ops).tables.orders)
  {
    hide Sound, Run, AllActions, ActAll, Onward;
    RunIsActions(s, ops);
    ActionsKeepSound(Quiet(s), AllActions(s, ops));
  }

  /** Every run from an empty exchange is sound, with no condition on its operations or its markets. */
  lemma EveryRunIsSound(markets: Markets, ops: seq<Op>)
    ensures Sound(Quiet(Run(Init(markets), ops)))
  {
    hide Sound, Run, Init;
    StartIsSound(markets);
    RunKeepsSound(Init(markets), ops);
  }

  lemma StepKeepsSound(s: State, op: Op)
    requires Sound(Quiet(s))
    ensures Sound(Quiet(Exec(s, op).state)) && AllOnward(s.tables.orders, Exec(s, op).state.tables.orders)
  {
    hide Sound, Exec, Actions, ActAll, Onward;
    StepIsActions(s, op);
    ActionsKeepSound(Quiet(s), Actions(s, op));
  }

  lemma SoundIsBacked(c: Machine)
    requires Sound(c)
    ensures Backed(c.core.markets, c.core.tables)
  {
  }

  lemma EngineIsKnown(c: Machine, mid: MarketId)
    requires Sound(c) && mid in c.core.engines
    ensures var e := c.core.engines[mid];
            && SideKnown(c.core.tables.orders, mid, Buy, e.bids) && SideKnown(c.core.tables.orders, mid, Sell, e.asks)
            && SideValid(Buy, e.bids) && SideValid(Sell, e.asks)
  {
    hide Backed, AllPendingKnown, FlightsKnown, WithinRoom, SideValid, SideKnown;
    assert EngineKnown(c.core.tables.orders, mid, c.core.engines[mid]);
  }

  lemma EngineIsValid(c: Machine, mid: MarketId)
    requires Sound(c) && mid in c.core.engines
    ensures EngineValid(c.core.engines[mid])
  {
    hide Backed, AllPendingKnown, FlightsKnown, WithinRoom, EngineValid, SideKnown;
    assert EngineKnown(c.core.tables.orders, mid, c.core.engines[mid]);
  }

  lemma SoundRowsValid(s: State)
    requires Sound(Quiet(s))
    ensures forall i | 0 <= i < |s.tables.orders| :: RowValid(s.tables.orders[i])
  {
    hide Booked, TradesFit, TradesValid, RowValid, HoldBacks, EnginesKnown, AllPendingKnown, FlightsKnown, WithinRoom;
    forall i: OrderId | i < |s.tables.orders| ensures RowValid(s.tables.orders[i]) {
      BackedRow(s.markets, s.tables, i);
    }
  }

  lemma SoundKeys(s: State)
    requires Sound(Quiet(s))
    ensures s.engines.Keys == s.markets.Keys
  {
  }
}
