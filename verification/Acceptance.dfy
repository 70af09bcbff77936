/** Which orders are accepted, at what price, and what accepting one does: read off the request, the market row,
    the best opposing price and the user's funds. */
module Acceptance {
  import opened Types
  import opened BookSide
  import opened EngineSpec
  import opened Ledger
  import opened Holds
  import opened Settlement
  import opened FillProofs
  import opened Books
  import opened Exchange
  import opened DecimalRules
  import opened Exactness

  /** A positive whole number of steps. */
  ghost predicate WholeSteps(value: real, step: real) {
    step > 0.0 && exists n: nat :: n > 0 && Steps(value, n, step)
  }

  lemma WholeStepsIff(value: real, step: real)
    ensures WholeSteps(value, step) <==> value > 0.0 && IsMultipleOf(value, step)
  {
    IsMultipleOfIff(value, step);
    if value > 0.0 && IsMultipleOf(value, step) {
      var k :| Steps(value, k, step);
      PositiveSteps(value, k, step);
      var n: nat := k;
      assert Steps(value, n, step);
    } else if WholeSteps(value, step) {
      var n: nat :| n > 0 && Steps(value, n, step);
      PositiveSteps(value, n, step);
    }
  }

  lemma PositiveSteps(value: real, k: int, step: real)
    requires step > 0.0 && Steps(value, k, step)
    ensures value > 0.0 <==> k > 0
  {
    if k <= 0 {
      assert k as real * step <= 0.0;
    } else {
      assert k as real * step > 0.0;
    }
  }

  /** The best opposing price: the lowest ask for a buy, the highest bid for a sell. */
  function BestOpposing(e: Engine, side: Side): Option<real> {
    if side == Buy then (if e.asks == [] then None else Some(e.asks[0].price))
    else (if e.bids == [] then None else Some(e.bids[0].price))
  }

  /** The price an order is reserved at: its limit, 1.10 times the best ask, or the best bid. */
  function ReservePrice(e: Engine, r: Request): real {
    if r.orderType == Limit then (if r.price.Some? then r.price.value else 0.0)
    else if BestOpposing(e, r.side).None? then 0.0
    else if r.side == Buy then 1.10 * BestOpposing(e, r.side).value else BestOpposing(e, r.side).value
  }

  /** A limit order names a positive whole number of ticks; a market order finds someone opposite. */
  ghost predicate PriceStands(m: Market, e: Engine, r: Request) {
    if r.orderType == Limit then r.price.Some? && WholeSteps(r.price.value, m.tickSize) else BestOpposing(e, r.side).Some?
  }

  /** What the market asks of a request. */
  ghost predicate Stands(m: Market, e: Engine, r: Request) {
    && m.status == ActiveMarket
    && WholeSteps(r.quantity, m.quantityStep) && r.quantity >= m.minimumQuantity
    && PriceStands(m, e, r)
    && ReservePrice(e, r) * r.quantity >= m.minimumNotional
  }

  /** What the order locks, and where: the notional in quote for a buy, the quantity in base for a sell. */
  function Locks(r: Request, price: real): real {
    if r.side == Buy then price * r.quantity else r.quantity
  }

  function LocksOn(m: Market, userId: UserId, r: Request): AccountKey {
    UserKey(userId, if r.side == Buy then m.quote else m.base)
  }

  /** The row of a new order. */
  predicate RowOf(row: OrderRow, userId: UserId, r: Request, price: real) {
    && row.userId == userId && row.market == r.market && row.side == r.side && row.orderType == r.orderType
    && row.quantity == r.quantity && row.price == price
    && row.filled == 0.0 && row.remaining == r.quantity && row.status == Open && row.rejectReason.None?
  }

  lemma PriceStandsIff(m: Market, e: Engine, r: Request)
    ensures ResolvePrice(m, e, r).Ok? <==> PriceStands(m, e, r)
    ensures ResolvePrice(m, e, r).Ok? ==> ResolvePrice(m, e, r).value == ReservePrice(e, r)
    ensures ResolvePrice(m, e, r).Err? ==> ResolvePrice(m, e, r).error == BadRequest
  {
    hide WholeSteps, IsMultipleOf;
    if r.price.Some? {
      WholeStepsIff(r.price.value, m.tickSize);
    }
  }

  lemma StandsIff(m: Market, e: Engine, r: Request)
    ensures var price := ResolvePrice(m, e, r);
            AcceptsQuantity(m, r) && price.Ok? && Notional(price.value, r.quantity) >= m.minimumNotional <==> Stands(m, e, r)
  {
    hide WholeSteps, IsMultipleOf, ResolvePrice, PriceStands, ReservePrice;
    WholeStepsIff(r.quantity, m.quantityStep);
    PriceStandsIff(m, e, r);
  }

  /** What an accepted order changes: one row, one hold, one account, and that it now waits with the market row
      it was checked against. */
  ghost predicate Accepted(s: State, s': State, userId: UserId, r: Request) {
    && r.market in s.markets && r.market in s.engines
    && var m, n, price := s.markets[r.market], |s.tables.orders|, ReservePrice(s.engines[r.market], r);
    && var k, amount := LocksOn(m, userId, r), Locks(r, price);
    && s' == s.(tables := s.tables.(accounts := s'.tables.accounts, holds := s.tables.holds[n := Hold(k, amount, Active)],
                                    orders := s'.tables.orders),
                pending := s.pending[n := m])
    && |s'.tables.orders| == n + 1 && s'.tables.orders[..n] == s.tables.orders && RowOf(s'.tables.orders[n], userId, r, price)
    && At(s'.tables.accounts, k) == Account(At(s.tables.accounts, k).available - amount, At(s.tables.accounts, k).locked + amount)
    && forall x | x != k :: At(s'.tables.accounts, x) == At(s.tables.accounts, x)
  }

  lemma Creates(t: Tables, m: Market, row: OrderRow)
    ensures var k, amount, r := LockKey(m, row), ReserveOf(row, row.quantity), CreateAndLock(t, m, row);
            && (r.Ok? <==> At(t.accounts, k).available >= amount)
            && (r.Err? ==> r.error == InsufficientBalance)
            && (r.Ok? ==>
                  && r.value == t.(accounts := r.value.accounts, holds := t.holds[|t.orders| := Hold(k, amount, Active)],
                                   orders := t.orders + [row])
                  && At(r.value.accounts, k) == Account(At(t.accounts, k).available - amount, At(t.accounts, k).locked + amount)
                  && forall x | x != k :: At(r.value.accounts, x) == At(t.accounts, x))
  {
    hide ReserveOf, LockKey;
    var k, amount := LockKey(m, row), ReserveOf(row, row.quantity);
    var a, accounts' := At(t.accounts, k), Unlock(t.accounts, k, -amount);
    assert a.available + -amount == a.available - amount && a.locked - -amount == a.locked + amount;
    assert accounts' == t.accounts[k := Account(a.available - amount, a.locked + amount)];
    assert LockFunds(t.accounts, t.holds, k, |t.orders|, amount) ==
           if a.available < amount then Err(InsufficientBalance)
           else Ok((accounts', t.holds[|t.orders| := Hold(k, amount, Active)]));
  }

  /** The row, the reserve and the account of a new order. */
  lemma NewRowLocks(m: Market, userId: UserId, r: Request, price: real)
    ensures var row := NewRow(userId, r, price);
            && RowOf(row, userId, r, price) && LockKey(m, row) == LocksOn(m, userId, r) && ReserveOf(row, row.quantity) == Locks(r, price)
  {
  }

  /** A request for a known market is refused unless it stands and its reserve can be locked. */
  lemma PlacesAs(s: State, userId: UserId, r: Request)
    requires r.market in s.markets && r.market in s.engines
    ensures var m, e := s.markets[r.market], s.engines[r.market];
            var created := CreateAndLock(s.tables, m, NewRow(userId, r, ReservePrice(e, r)));
            ApplyPlace(s, userId, r) ==
              if !Stands(m, e, r) || created.Err? then Reject(s, BadRequest)
              else Done(s.(tables := created.value, pending := s.pending[|s.tables.orders| := m]))
  {
    hide Stands, ResolvePrice, AcceptsQuantity, ReservePrice, CreateAndLock, Notional;
    var m, e := s.markets[r.market], s.engines[r.market];
    StandsIff(m, e, r);
    PriceStandsIff(m, e, r);
    Creates(s.tables, m, NewRow(userId, r, ReservePrice(e, r)));
  }

  /** The order is accepted if and only if its market is known, open for orders and satisfied with quantity,
      price and notional, and its user has available what it locks. An accepted order becomes a row with its
      own terms and a hold on its own account; a rejected one changes nothing. */
  lemma PlacedIff(s: State, userId: UserId, r: Request)
    ensures var p := Exec(s, Place(userId, r));
            && (p.error.None? <==>
                  && r.market in s.markets && r.market in s.engines
                  && var m, e := s.markets[r.market], s.engines[r.market];
                  && Stands(m, e, r)
                  && At(s.tables.accounts, LocksOn(m, userId, r)).available >= Locks(r, ReservePrice(e, r)))
            && (p.error.None? ==> Accepted(s, p.state, userId, r))
            && (p.error.Some? ==>
                  p.state == s && p.error.value == if r.market in s.markets && r.market in s.engines then BadRequest else NotFound)
  {
    hide Stands, ReservePrice, At, CreateAndLock, NewRow, ReserveOf, LockKey, Locks, LocksOn, RowOf, ApplyPlace;
    if r.market in s.markets && r.market in s.engines {
      var m, e := s.markets[r.market], s.engines[r.market];
      var row := NewRow(userId, r, ReservePrice(e, r));
      NewRowLocks(m, userId, r, ReservePrice(e, r));
      Creates(s.tables, m, row);
      PlacesAs(s, userId, r);
    } else {
      UnknownMarket(s, userId, r);
    }
  }

  lemma UnknownMarket(s: State, userId: UserId, r: Request)
    requires r.market !in s.markets || r.market !in s.engines
    ensures ApplyPlace(s, userId, r) == Reject(s, NotFound)
  {
  }
}
