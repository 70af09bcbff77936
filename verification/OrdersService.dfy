/** Placing and cancelling orders, against the state machine of `Exchange.dfy`. */
module OrdersServices {
  import opened Types
  import opened BookSide
  import opened EngineSpec
  import opened Ledger
  import opened Holds
  import HoldSpec = Holds
  import opened Settlement
  import opened FillProofs
  import opened Books
  import opened OrderBooks
  import opened MatchingEngines
  import opened Exchange
  import ExchangeSpec = Exchange
  import opened Transfers
  import opened Backing
  import opened Interleaving
  import Acceptance
  import opened Services
  import opened WalletsServices
  import opened MatchingServices

  class OrdersService {
    const db: Database
    const balances: BalancesService
    const matching: MatchingService
    /** Orders that other requests have placed and not yet submitted. */
    ghost var waiting: map<OrderId, Market>

    constructor (db: Database, balances: BalancesService, matching: MatchingService)
      ensures this.db == db && this.balances == balances && this.matching == matching && waiting == map[]
    {
      this.db, this.balances, this.matching, waiting := db, balances, matching, map[];
    }

    /** The exchange as a request finds it. */
    ghost function View(): State
      reads this, db, matching, matching.Repr
      requires matching.Valid()
    {
      State(db.markets, matching.Engines(), db.Snapshot(), waiting)
    }

    ghost predicate Valid()
      reads this, db, matching, matching.Repr
    {
      && this !in matching.Repr && matching.Valid() && matching.db == db && balances.db == db && balances.ledger.db == db
      && Sound(Quiet(View()))
    }

    /** The best opposing price, with room for slippage on a buy. */
    method ResolveMarketReservePrice(r: Request) returns (price: Result<real>)
      requires matching.Valid() && r.market in matching.engines
      ensures price == ExchangeSpec.ResolveMarketReservePrice(matching.Engines()[r.market], r.side)
    {
      var bids, asks := matching.engines[r.market].book.Snapshot(20);
      var opposing := if r.side == Buy then asks else bids;
      if opposing == [] {
        return Err(BadRequest);
      }
      return Ok(if r.side == Buy then Notional(opposing[0].price, MARKET_ORDER_SLIPPAGE_BUFFER) else opposing[0].price);
    }

    /** Checks the request and finds the price to reserve at. */
    method CheckRequest(r: Request) returns (price: Result<real>)
      requires matching.Valid() && matching.engines.Keys == db.markets.Keys
      ensures price == Priced(db.markets, matching.Engines(), r)
      ensures matching.Engines().Keys == db.markets.Keys
      ensures price.Ok? <==>
                r.market in db.markets && Acceptance.Stands(db.markets[r.market], matching.Engines()[r.market], r)
      ensures price.Ok? ==> price.value == Acceptance.ReservePrice(matching.Engines()[r.market], r)
    {
      hide MatchingEngine.Valid, MatchingEngine.View, OrderBook.Valid, OrderBook.Orders, ExchangeSpec.ResolveMarketReservePrice,
        ResolveLimitPrice, IsMultipleOf, Acceptance.Stands, Acceptance.ReservePrice;
      matching.Footprint();
      PricedIff(db.markets, matching.Engines(), r);
      if r.market !in db.markets {
        return Err(NotFound);
      }
      var m := db.markets[r.market];
      if m.status != ActiveMarket || r.quantity <= 0.0 || !IsMultipleOf(r.quantity, m.quantityStep) || r.quantity < m.minimumQuantity {
        return Err(BadRequest);
      }
      if r.orderType == Limit {
        price := ResolveLimitPrice(m, r.price);
      } else {
        price := ResolveMarketReservePrice(r);
      }
      if price.Ok? && Notional(price.value, r.quantity) < m.minimumNotional {
        return Err(BadRequest);
      }
    }

    /** Creates the order and locks its funds in one transaction. */
    method PlaceOrder(userId: UserId, r: Request, price: real) returns (error: Option<Error>)
      requires balances.db == db && balances.ledger.db == db && r.market in db.markets
      modifies db
      ensures db.markets == old(db.markets)
      ensures Committed(old(db.Snapshot()), db.Snapshot(), error,
                        Reported(CreateAndLock(old(db.Snapshot()), db.markets[r.market], NewRow(userId, r, price))))
    {
      var before := db.Snapshot();
      var row, id := NewRow(userId, r, price), |db.orders|;
      var m := db.markets[r.market];
      db.orders := db.orders + [row];
      error := balances.LockFunds(LockKey(m, row), id, ReserveOf(row, r.quantity));
      if error.Some? {
        db.Restore(before);
        return Some(LackIsBadRequest(error.value));
      }
    }

    /** Places an order, then submits it to its engine and settles what it matches. */
    method CreateOrder(userId: UserId, r: Request) returns (error: Option<Error>)
      requires Valid()
      modifies db, matching.Repr
      ensures Valid()
      ensures var placed := ApplyPlace(old(View()), userId, r);
              if placed.error.Some? then error == placed.error && View() == old(View())
              else
                var done := ApplySubmit(placed.state, |old(db.orders)|);
                error == done.error && View() == done.state
    {
      hide Sound, CreateAndLock, MatchingService.Apart, Notional, IsMultipleOf, ResolveLimitPrice, Settle, EngineSpec.Submit,
        MatchingEngine.Valid, MatchingEngine.View, MatchingService.Valid, MatchingService.Engines, HoldsHaveAccounts, FreshId,
        ApplyPlace, ApplySubmit;
      matching.Footprint();
      ghost var before := View();
      EnginesMatchMarkets(before);
      var price := CheckRequest(r);
      PlacePriced(before, userId, r);
      if price.Err? {
        return Some(price.error);
      }
      var m, id := db.markets[r.market], |db.orders|;
      error := PlaceOrder(userId, r, price.value);
      if error.Some? {
        return;
      }
      ghost var placed := ApplyPlace(before, userId, r).state;
      PlacingKeepsSound(before, userId, r);
      PlacedIsReady(placed, id);
      WaitingIsEarlier(before);
      assert placed.pending - {id} == before.pending;
      error := matching.SubmitAndSettle(id, m);
      SubmitCommitted(placed, id);
      SubmittingKeepsSound(placed, id);
    }

    /** Closes a live order of the user, gives back what it still holds, and takes it off the book. */
    method CancelOrder(userId: UserId, id: OrderId) returns (error: Option<Error>)
      requires Valid()
      modifies db, matching.Repr
      ensures Valid()
      ensures var done := ApplyCancel(old(View()), userId, id); error == done.error && View() == done.state
    {
      hide Sound, MatchingService.Apart, EngineSpec.Cancel, MatchingEngine.Valid, MatchingEngine.View, HoldSpec.ReleaseHold,
        MatchingService.Valid, MatchingService.Engines;
      matching.Footprint();
      ghost var start := View();
      CancellingKeepsSound(start, userId, id);
      CancelFacts(start, id);
      if id >= |db.orders| || db.orders[id].userId != userId {
        return Some(NotFound);
      }
      var order, before := db.orders[id], db.Snapshot();
      if !Live(order) {
        return Some(Conflict);
      }
      db.orders := db.orders[id := order.(status := Cancelled)];
      error := balances.ReleaseHold(id);
      if error.Some? {
        db.Restore(before);
        return;
      }
      matching.CancelResting(order.market, id);
    }
  }

  lemma PlacingKeepsSound(s: State, userId: UserId, r: Request)
    requires Sound(Quiet(s))
    ensures Sound(Quiet(ApplyPlace(s, userId, r).state))
  {
    hide Sound, ApplyPlace, AllOnward;
    StepKeepsSound(s, Place(userId, r));
  }

  lemma SubmittingKeepsSound(s: State, id: OrderId)
    requires Sound(Quiet(s))
    ensures Sound(Quiet(ApplySubmit(s, id).state))
  {
    hide Sound, ApplySubmit, AllOnward;
    StepKeepsSound(s, SubmitOrder(id));
  }

  lemma CancellingKeepsSound(s: State, userId: UserId, id: OrderId)
    requires Sound(Quiet(s))
    ensures Sound(Quiet(ApplyCancel(s, userId, id).state))
  {
    hide Sound, ApplyCancel, AllOnward;
    StepKeepsSound(s, ExchangeSpec.CancelOrder(userId, id));
  }

  lemma CancelFacts(s: State, id: OrderId)
    requires Sound(Quiet(s))
    ensures HoldsHaveAccounts(s.tables)
  {
  }

  lemma WaitingIsEarlier(s: State)
    requires Sound(Quiet(s))
    ensures forall id | id in s.pending :: id < |s.tables.orders|
  {
    hide Backed, EnginesKnown, FlightsKnown, WithinRoom;
    forall id | id in s.pending ensures id < |s.tables.orders| {
      assert PendingKnown(s.markets, s.tables.orders, id, s.pending[id]);
    }
  }

  /** What the checks of an order request come to. */
  function Priced(markets: Markets, engines: map<MarketId, Engine>, r: Request): Result<real> {
    if r.market !in markets || r.market !in engines then Err(NotFound)
    else if !AcceptsQuantity(markets[r.market], r) then Err(BadRequest)
    else
      var price := ResolvePrice(markets[r.market], engines[r.market], r);
      if price.Ok? && Notional(price.value, r.quantity) < markets[r.market].minimumNotional then Err(BadRequest) else price
  }

  /** A request is priced if and only if it stands. */
  lemma PricedIff(markets: Markets, engines: map<MarketId, Engine>, r: Request)
    requires engines.Keys == markets.Keys
    ensures Priced(markets, engines, r).Ok? <==> r.market in markets && Acceptance.Stands(markets[r.market], engines[r.market], r)
    ensures Priced(markets, engines, r).Ok? ==>
              r.market in markets && Priced(markets, engines, r).value == Acceptance.ReservePrice(engines[r.market], r)
  {
    hide Acceptance.Stands, Acceptance.ReservePrice, AcceptsQuantity, ResolvePrice, Notional;
    if r.market in markets {
      Acceptance.StandsIff(markets[r.market], engines[r.market], r);
      Acceptance.PriceStandsIff(markets[r.market], engines[r.market], r);
    }
  }

  lemma EnginesMatchMarkets(s: State)
    requires Sound(Quiet(s))
    ensures s.engines.Keys == s.markets.Keys
  {
  }

  /** Placing is pricing, then creating and locking. */
  lemma PlacePriced(s: State, userId: UserId, r: Request)
    ensures var price, placed := Priced(s.markets, s.engines, r), ApplyPlace(s, userId, r);
            if price.Err? then placed == Reply(s, Some(price.error))
            else
              && r.market in s.markets
              && var m := s.markets[r.market];
              && var created := Reported(CreateAndLock(s.tables, m, NewRow(userId, r, price.value)));
              if created.Err? then placed == Reply(s, Some(created.error))
              else placed == Reply(s.(tables := created.value, pending := s.pending[|s.tables.orders| := m]), None)
  {
    hide CreateAndLock, ResolvePrice, AcceptsQuantity, Notional;
  }

  lemma PlacedIsReady(s: State, id: OrderId)
    requires Sound(Quiet(s)) && id in s.pending
    ensures id < |s.tables.orders| && HoldsHaveAccounts(s.tables)
    ensures var row := s.tables.orders[id];
            Acceptable(InputOf(id, row)) && row.market in s.engines && FreshId(s.engines[row.market], id)
  {
    hide Sound;
    CancelFacts(s, id);
    PendingIsWhole(Quiet(s), id);
  }

  lemma SubmitCommitted(s: State, id: OrderId)
    requires id in s.pending && id < |s.tables.orders| && s.tables.orders[id].market in s.engines
    requires Acceptable(InputOf(id, s.tables.orders[id]))
    ensures var row := s.tables.orders[id];
            var (e', result) := EngineSpec.Submit(s.engines[row.market], InputOf(id, row));
            var r := Settle(s.tables, row.market, s.pending[id], id, result);
            ApplySubmit(s, id) == Commit(s.(engines := s.engines[row.market := e'], pending := s.pending - {id}), r)
  {
    hide Settle, EngineSpec.Submit;
  }
}
