/** What a refresh of the market maker puts up: for each offset one bid and one ask, placed and submitted in
    turn, each missing exactly if its placement was rejected. */
module Quotes {
  import opened Types
  import opened BookSide
  import opened EngineSpec
  import opened Ledger
  import opened Holds
  import opened Settlement
  import opened FillProofs
  import opened Books
  import opened Exchange
  import opened Transfers
  import opened Safety
  import opened Backing
  import opened Interleaving
  import opened MarketMakers
  import Acceptance

  // ---------------------------------------------------------------------------
  // The requests
  // ---------------------------------------------------------------------------

  predicate OnTick(price: real, k: int, tick: real) {
    price == k as real * tick
  }

  /** The largest whole number of ticks that is not above `x`. */
  ghost predicate TickAtOrBelow(price: real, x: real, tick: real) {
    (exists k :: OnTick(price, k, tick)) && price <= x < price + tick
  }

  /** The smallest whole number of ticks that is not below `x`. */
  ghost predicate TickAtOrAbove(price: real, x: real, tick: real) {
    (exists k :: OnTick(price, k, tick)) && price - tick < x <= price
  }

  ghost predicate BidAt(r: Request, mid: MarketId, quantity: real, reference: real, tick: real, bps: real) {
    && r.market == mid && r.side == Buy && r.orderType == Limit && r.quantity == quantity
    && r.price.Some? && TickAtOrBelow(r.price.value, reference * (1.0 - bps / 10000.0), tick)
  }

  ghost predicate AskAt(r: Request, mid: MarketId, quantity: real, reference: real, tick: real, bps: real) {
    && r.market == mid && r.side == Sell && r.orderType == Limit && r.quantity == quantity
    && r.price.Some? && TickAtOrAbove(r.price.value, reference * (1.0 + bps / 10000.0), tick)
  }

  /** A bid and an ask for every offset, in the order of the offsets. */
  ghost predicate LadderOf(
    requests: seq<Request>, mid: MarketId, quantity: real, reference: real, tick: real, offsets: seq<real>)
  {
    && |requests| == 2 * |offsets|
    && (forall i | 0 <= i < |offsets| :: BidAt(requests[2 * i], mid, quantity, reference, tick, offsets[i]))
    && (forall i | 0 <= i < |offsets| :: AskAt(requests[2 * i + 1], mid, quantity, reference, tick, offsets[i]))
  }

  /** Places one order and, if it is accepted, submits it. */
  function QuoteOne(s: State, userId: UserId, r: Request): State {
    var placed := Exec(s, Place(userId, r));
    if placed.error.Some? then s else Exec(placed.state, SubmitOrder(|s.tables.orders|)).state
  }

  /** One after the other. */
  function QuoteAll(s: State, userId: UserId, requests: seq<Request>): State
    decreases |requests|
  {
    if requests == [] then s else QuoteAll(QuoteOne(s, userId, requests[0]), userId, requests[1..])
  }

  lemma TickPrice(p: real, k: int, tick: real)
    requires OnTick(p, k, tick)
    ensures p == Notional(k as real, tick)
  {
  }

  lemma TicksApart(p: real, j: int, q: real, k: int, tick: real)
    requires tick > 0.0 && OnTick(p, j, tick) && OnTick(q, k, tick) && p > q
    ensures p >= q + tick
  {
    hide OnTick, Notional;
    TickPrice(p, j, tick);
    TickPrice(q, k, tick);
    if j <= k {
      NotionalOrder(j as real, k as real, tick);
    } else {
      OneTickMore(k as real, j as real, tick);
    }
  }

  lemma OneTickMore(x: real, y: real, tick: real)
    requires tick > 0.0 && x + 1.0 <= y
    ensures Notional(x, tick) + tick <= Notional(y, tick)
  {
    hide Notional;
    NotionalOrder(x, y, tick);
    NotionalOrder(x + 1.0, y, tick);
  }

  /** Two prices with these properties are one. */
  lemma TickIsUnique(p: real, q: real, x: real, tick: real)
    requires tick > 0.0
    ensures TickAtOrBelow(p, x, tick) && TickAtOrBelow(q, x, tick) ==> p == q
    ensures TickAtOrAbove(p, x, tick) && TickAtOrAbove(q, x, tick) ==> p == q
  {
    hide OnTick;
    if (exists k :: OnTick(p, k, tick)) && (exists k :: OnTick(q, k, tick)) {
      var j, k :| OnTick(p, j, tick) && OnTick(q, k, tick);
      if p > q {
        TicksApart(p, j, q, k, tick);
      } else if q > p {
        TicksApart(q, k, p, j, tick);
      }
    }
  }

  // ---------------------------------------------------------------------------
  // The ladder is those requests
  // ---------------------------------------------------------------------------

  lemma RoundsRight(x: real, tick: real)
    requires tick > 0.0
    ensures TickAtOrBelow(RoundDownToTick(x, tick), x, tick) && TickAtOrAbove(RoundUpToTick(x, tick), x, tick)
  {
    hide OnTick, RoundDownToTick, RoundUpToTick, IsMultipleOf;
    RoundsToTick(x, tick);
    RoundedIsOnTick(x, tick);
  }

  lemma RoundedIsOnTick(x: real, tick: real)
    requires tick > 0.0
    ensures OnTick(RoundDownToTick(x, tick), (x / tick).Floor, tick) && OnTick(RoundUpToTick(x, tick), -((-(x / tick)).Floor), tick)
  {
  }

  lemma BidIsAt(mid: MarketId, quantity: real, reference: real, tick: real, bps: real)
    requires tick > 0.0
    ensures BidAt(QuoteRequest(mid, Buy, BidPrice(reference, tick, bps), quantity), mid, quantity, reference, tick, bps)
    ensures AskAt(QuoteRequest(mid, Sell, AskPrice(reference, tick, bps), quantity), mid, quantity, reference, tick, bps)
  {
    hide TickAtOrBelow, TickAtOrAbove, RoundDownToTick, RoundUpToTick;
    RoundsRight(reference * (1.0 - bps / 10000.0), tick);
    RoundsRight(reference * (1.0 + bps / 10000.0), tick);
  }

  lemma QuoteIsOne(s: State, userId: UserId, r: Request)
    ensures PlaceQuote(s, userId, r) == QuoteOne(s, userId, r)
  {
    hide ApplyPlace, ApplySubmit;
  }

  lemma QuoteCons(s: State, userId: UserId, r: Request, rest: seq<Request>)
    ensures QuoteAll(s, userId, [r] + rest) == QuoteAll(QuoteOne(s, userId, r), userId, rest)
  {
    hide QuoteOne;
    assert ([r] + rest)[1..] == rest;
  }

  lemma LadderCons(
    bid: Request, ask: Request, rest: seq<Request>, mid: MarketId, quantity: real, reference: real, tick: real, bps: real, more: seq<real>)
    requires BidAt(bid, mid, quantity, reference, tick, bps) && AskAt(ask, mid, quantity, reference, tick, bps)
    requires LadderOf(rest, mid, quantity, reference, tick, more)
    ensures LadderOf([bid] + ([ask] + rest), mid, quantity, reference, tick, [bps] + more)
  {
    hide BidAt, AskAt;
    var requests, offsets := [bid] + ([ask] + rest), [bps] + more;
    forall i | 0 <= i < |offsets|
      ensures BidAt(requests[2 * i], mid, quantity, reference, tick, offsets[i])
      ensures AskAt(requests[2 * i + 1], mid, quantity, reference, tick, offsets[i])
    {
      if i > 0 {
        assert requests[2 * i] == rest[2 * (i - 1)] && requests[2 * i + 1] == rest[2 * (i - 1) + 1] && offsets[i] == more[i - 1];
      }
    }
  }

  /** The bid and the ask of each offset, in order. */
  function LadderRequests(mid: MarketId, quantity: real, reference: real, tick: real, offsets: seq<real>): (requests: seq<Request>)
    requires tick > 0.0
    decreases |offsets|
  {
    if offsets == [] then [] else
    [QuoteRequest(mid, Buy, BidPrice(reference, tick, offsets[0]), quantity)]
    + ([QuoteRequest(mid, Sell, AskPrice(reference, tick, offsets[0]), quantity)]
       + LadderRequests(mid, quantity, reference, tick, offsets[1..]))
  }

  /** They are what they should be. */
  lemma {:induction false} LadderIsRight(mid: MarketId, quantity: real, reference: real, tick: real, offsets: seq<real>)
    requires tick > 0.0
    ensures LadderOf(LadderRequests(mid, quantity, reference, tick, offsets), mid, quantity, reference, tick, offsets)
    decreases |offsets|
  {
    hide BidAt, AskAt, BidPrice, AskPrice, QuoteRequest;
    if offsets != [] {
      var bid := QuoteRequest(mid, Buy, BidPrice(reference, tick, offsets[0]), quantity);
      var ask := QuoteRequest(mid, Sell, AskPrice(reference, tick, offsets[0]), quantity);
      BidIsAt(mid, quantity, reference, tick, offsets[0]);
      LadderIsRight(mid, quantity, reference, tick, offsets[1..]);
      LadderCons(bid, ask, LadderRequests(mid, quantity, reference, tick, offsets[1..]), mid, quantity, reference, tick,
                 offsets[0], offsets[1..]);
      assert offsets == [offsets[0]] + offsets[1..];
    }
  }

  /** The ladder places a bid and an ask for every offset, in order. */
  lemma {:induction false} LadderQuotes(
    s: State, userId: UserId, mid: MarketId, quantity: real, reference: real, tick: real, offsets: seq<real>)
    requires tick > 0.0
    ensures PlaceLadder(s, userId, mid, quantity, reference, tick, offsets) ==
            QuoteAll(s, userId, LadderRequests(mid, quantity, reference, tick, offsets))
    decreases |offsets|
  {
    hide PlaceQuote, QuoteOne, BidPrice, AskPrice, QuoteRequest;
    if offsets != [] {
      var bid := QuoteRequest(mid, Buy, BidPrice(reference, tick, offsets[0]), quantity);
      var ask := QuoteRequest(mid, Sell, AskPrice(reference, tick, offsets[0]), quantity);
      var s1 := PlaceQuote(s, userId, bid);
      var s2 := PlaceQuote(s1, userId, ask);
      var rest := LadderRequests(mid, quantity, reference, tick, offsets[1..]);
      LadderQuotes(s2, userId, mid, quantity, reference, tick, offsets[1..]);
      QuoteIsOne(s, userId, bid);
      QuoteIsOne(s1, userId, ask);
      QuoteCons(s, userId, bid, [ask] + rest);
      QuoteCons(s1, userId, ask, rest);
    }
  }

  // ---------------------------------------------------------------------------
  // The rows they append
  // ---------------------------------------------------------------------------

  /** The row has the terms of the request. */
  predicate HasTerms(row: OrderRow, userId: UserId, r: Request) {
    && row.userId == userId && row.market == r.market && row.side == r.side && row.orderType == r.orderType
    && row.quantity == r.quantity && (r.orderType == Limit ==> r.price == Some(row.price))
  }

  /** The exchange when the `i`-th request is placed, and whether it is accepted. */
  function Before(s: State, userId: UserId, requests: seq<Request>, i: nat): State
    requires i <= |requests|
  {
    QuoteAll(s, userId, requests[..i])
  }

  predicate IsAccepted(s: State, userId: UserId, requests: seq<Request>, i: nat)
    requires i < |requests|
  {
    Exec(Before(s, userId, requests, i), Place(userId, requests[i])).error.None?
  }

  lemma SubmittingAddsNone(s: State, id: OrderId)
    requires Sound(Quiet(s))
    ensures |Exec(s, SubmitOrder(id)).state.tables.orders| == |s.tables.orders|
  {
    hide Sound, Backed, FlightKnown, EngineSpec.Submit, Settle, Owed, Onward;
    var c := MatchNow(Quiet(s), id);
    SubmitIsActions(s, id);
    ActsTwo(Quiet(s), MatchOrder(id), SettleFlight(id));
    MatchKeepsSound(Quiet(s), id);
    MatchTouchesNoTable(Quiet(s), id);
    if id in c.flights {
      SettleBacks(c, id);
    }
  }

  /** An accepted request appends its row, a rejected one nothing; earlier rows keep their terms. */
  lemma QuoteAppends(s: State, userId: UserId, r: Request)
    requires Sound(Quiet(s))
    ensures var s', n := QuoteOne(s, userId, r), |s.tables.orders|;
            && Sound(Quiet(s')) && AllOnward(s.tables.orders, s'.tables.orders)
            && |s'.tables.orders| == n + (if Exec(s, Place(userId, r)).error.None? then 1 else 0)
            && (Exec(s, Place(userId, r)).error.None? ==> HasTerms(s'.tables.orders[n], userId, r))
  {
    hide Sound, Exec, Onward, Acceptance.Stands, Acceptance.ReservePrice;
    var placed, n := Exec(s, Place(userId, r)), |s.tables.orders|;
    StepKeepsSound(s, Place(userId, r));
    Acceptance.PlacedIff(s, userId, r);
    if placed.error.None? {
      if r.orderType == Limit {
        LimitIsReserved(s, userId, r);
      }
      StepKeepsSound(placed.state, SubmitOrder(n));
      SubmittingAddsNone(placed.state, n);
      OnwardChain(s.tables.orders, placed.state.tables.orders, QuoteOne(s, userId, r).tables.orders);
      assert Onward(placed.state.tables.orders[n], QuoteOne(s, userId, r).tables.orders[n]);
      TermsStay(placed.state.tables.orders[n], QuoteOne(s, userId, r).tables.orders[n], userId, r);
    }
  }

  lemma LimitIsReserved(s: State, userId: UserId, r: Request)
    requires Exec(s, Place(userId, r)).error.None? && r.orderType == Limit
    ensures r.market in s.engines && r.price == Some(Acceptance.ReservePrice(s.engines[r.market], r))
  {
    hide Acceptance.WholeSteps, Exec;
    Acceptance.PlacedIff(s, userId, r);
  }

  lemma TermsStay(row: OrderRow, row': OrderRow, userId: UserId, r: Request)
    requires Onward(row, row') && HasTerms(row, userId, r)
    ensures HasTerms(row', userId, r)
  {
  }

  lemma {:induction false} QuotesKeepSound(s: State, userId: UserId, requests: seq<Request>)
    requires Sound(Quiet(s))
    ensures var s' := QuoteAll(s, userId, requests); Sound(Quiet(s')) && AllOnward(s.tables.orders, s'.tables.orders)
    decreases |requests|
  {
    hide Sound, QuoteOne, Onward;
    if requests == [] {
      OrdersStay(s.tables.orders);
      SameIsOnward(s.tables.orders, s.tables.orders);
    } else {
      var s1 := QuoteOne(s, userId, requests[0]);
      QuoteAppends(s, userId, requests[0]);
      QuotesKeepSound(s1, userId, requests[1..]);
      OnwardChain(s.tables.orders, s1.tables.orders, QuoteAll(s1, userId, requests[1..]).tables.orders);
    }
  }

  lemma {:induction false} QuotesConcat(s: State, userId: UserId, a: seq<Request>, b: seq<Request>)
    ensures QuoteAll(s, userId, a + b) == QuoteAll(QuoteAll(s, userId, a), userId, b)
    decreases |a|
  {
    hide QuoteOne;
    if a == [] {
      assert a + b == b;
    } else {
      assert (a + b)[1..] == a[1..] + b;
      QuotesConcat(QuoteOne(s, userId, a[0]), userId, a[1..], b);
    }
  }

  lemma NextIsOne(s: State, userId: UserId, requests: seq<Request>, i: nat)
    requires i < |requests|
    ensures Before(s, userId, requests, i + 1) == QuoteOne(Before(s, userId, requests, i), userId, requests[i])
  {
    hide QuoteOne;
    assert requests[..i + 1] == requests[..i] + [requests[i]];
    QuotesConcat(s, userId, requests[..i], [requests[i]]);
    QuoteCons(Before(s, userId, requests, i), userId, requests[i], []);
    assert [requests[i]] + [] == [requests[i]];
  }

  /** The `i`-th request adds one row, with its terms, if it is accepted, and none if it is rejected. */
  ghost predicate Quoted(s: State, s': State, userId: UserId, requests: seq<Request>, i: nat)
    requires i < |requests|
  {
    var n := |Before(s, userId, requests, i).tables.orders|;
    && |Before(s, userId, requests, i + 1).tables.orders| == n + (if IsAccepted(s, userId, requests, i) then 1 else 0)
    && (IsAccepted(s, userId, requests, i) ==> n < |s'.tables.orders| && HasTerms(s'.tables.orders[n], userId, requests[i]))
  }

  lemma EveryRequestQuotes(s: State, userId: UserId, requests: seq<Request>, i: nat)
    requires Sound(Quiet(s)) && i < |requests|
    ensures Quoted(s, QuoteAll(s, userId, requests), userId, requests, i)
  {
    hide Sound, QuoteOne, QuoteAll, Exec, Onward, HasTerms;
    var before, after, s' := Before(s, userId, requests, i), Before(s, userId, requests, i + 1), QuoteAll(s, userId, requests);
    QuotesKeepSound(s, userId, requests[..i]);
    NextIsOne(s, userId, requests, i);
    QuoteAppends(before, userId, requests[i]);
    assert requests == requests[..i + 1] + requests[i + 1..];
    QuotesConcat(s, userId, requests[..i + 1], requests[i + 1..]);
    QuotesKeepSound(after, userId, requests[i + 1..]);
    if IsAccepted(s, userId, requests, i) {
      var n := |before.tables.orders|;
      assert Onward(after.tables.orders[n], s'.tables.orders[n]);
      TermsStay(after.tables.orders[n], s'.tables.orders[n], userId, requests[i]);
    }
  }

  /** Where every request is accepted, the new rows are the requests, in order. */
  lemma {:induction false} AllAcceptedCount(s: State, userId: UserId, requests: seq<Request>, i: nat)
    requires Sound(Quiet(s)) && i <= |requests|
    requires forall j | 0 <= j < |requests| :: IsAccepted(s, userId, requests, j)
    ensures |Before(s, userId, requests, i).tables.orders| == |s.tables.orders| + i
  {
    hide Sound, Exec, HasTerms, QuoteOne, IsAccepted;
    if i == 0 {
      assert requests[..0] == [];
    } else {
      AllAcceptedCount(s, userId, requests, i - 1);
      EveryRequestQuotes(s, userId, requests, i - 1);
    }
  }

  // ---------------------------------------------------------------------------
  // The refresh
  // ---------------------------------------------------------------------------

  lemma CancelIsExec(s: State, userId: UserId, id: OrderId)
    ensures Exec(s, CancelOrder(userId, id)) == ApplyCancel(s, userId, id)
  {
  }

  lemma CancelsOne(s: State, userId: UserId, id: OrderId)
    requires Sound(Quiet(s)) && id < |s.tables.orders| && s.tables.orders[id].userId == userId && Live(s.tables.orders[id])
    ensures var s' := ApplyCancel(s, userId, id).state;
            && Sound(Quiet(s')) && s'.markets == s.markets
            && s'.tables.orders == s.tables.orders[id := s.tables.orders[id].(status := Cancelled)]
  {
    hide Sound, Exec, EngineSpec.Cancel, ReleaseHold;
    StepKeepsSound(s, CancelOrder(userId, id));
    CancelIsExec(s, userId, id);
    SoundIsBacked(Quiet(s));
    CancelKeepsBacked(s.markets, s.tables, id);
  }

  /** Taking down the user's quotes cancels the user's open orders of the market among the first `n`, and leaves
      every other order as it is. */
  lemma {:induction false} CancelOwnCancels(s: State, userId: UserId, mid: MarketId, n: nat)
    requires Sound(Quiet(s)) && n <= |s.tables.orders|
    ensures var s' := CancelOwn(s, userId, mid, n);
            && Sound(Quiet(s')) && s'.markets == s.markets && |s'.tables.orders| == |s.tables.orders|
            && forall i | 0 <= i < |s.tables.orders| ::
                 var r := s.tables.orders[i];
                 s'.tables.orders[i] ==
                   if i < n && r.userId == userId && r.market == mid && Live(r) then r.(status := Cancelled) else r
    decreases n
  {
    hide Sound, ApplyCancel;
    if n > 0 {
      if OwnOpen(s.tables.orders[n - 1], userId, mid) {
        CancelsOne(s, userId, n - 1);
        CancelOwnCancels(ApplyCancel(s, userId, n - 1).state, userId, mid, n - 1);
      } else {
        CancelOwnCancels(s, userId, mid, n - 1);
      }
    }
  }

  /** The exchange once the user's quotes in the market are taken down. */
  function Cleared(s: State, userId: UserId, mid: MarketId): State {
    CancelOwn(s, userId, mid, |s.tables.orders|)
  }

  /** What a refresh asks for. */
  function RefreshRequests(mid: MarketId, quantity: real, reference: real, tick: real): seq<Request>
    requires tick > 0.0
  {
    LadderRequests(mid, quantity, reference, tick, MARKET_MAKER_LEVEL_OFFSETS_BPS)
  }

  /** A refresh first cancels the user's open orders of the market and nothing else. Then it places, for each
      offset in turn, one limit buy at the tick at or below the reference less the offset and one limit sell at
      the tick at or above the reference plus it, each for the quantity. Every one that is accepted becomes a
      row with these terms and every one that is rejected none; where all are accepted, the new rows are the
      ladder. */
  lemma RefreshPutsUpTheLadder(s: State, userId: UserId, mid: MarketId, quantity: real, reference: real)
    requires Sound(Quiet(s)) && mid in s.markets && s.markets[mid].tickSize > 0.0
    ensures var tick, cleared := s.markets[mid].tickSize, Cleared(s, userId, mid);
            && Sound(Quiet(cleared)) && |cleared.tables.orders| == |s.tables.orders|
            && (forall i | 0 <= i < |s.tables.orders| ::
                  var r := s.tables.orders[i];
                  cleared.tables.orders[i] == if r.userId == userId && r.market == mid && Live(r) then r.(status := Cancelled) else r)
            && LadderOf(RefreshRequests(mid, quantity, reference, tick), mid, quantity, reference, tick, [2.0, 5.0, 10.0])
    ensures var requests, cleared := RefreshRequests(mid, quantity, reference, s.markets[mid].tickSize), Cleared(s, userId, mid);
            var s' := Refresh(s, userId, mid, quantity, reference);
            && s' == QuoteAll(cleared, userId, requests)
            && (forall i | 0 <= i < |requests| :: Quoted(cleared, s', userId, requests, i))
            && ((forall i | 0 <= i < |requests| :: IsAccepted(cleared, userId, requests, i)) ==>
                  && |s'.tables.orders| == |s.tables.orders| + |requests|
                  && forall i | 0 <= i < |requests| :: HasTerms(s'.tables.orders[|s.tables.orders| + i], userId, requests[i]))
  {
    hide Sound, CancelOwn, PlaceLadder, QuoteAll, HasTerms, LadderOf, Quoted, IsAccepted, Before, LadderRequests;
    var cleared, requests := Cleared(s, userId, mid), RefreshRequests(mid, quantity, reference, s.markets[mid].tickSize);
    CancelOwnCancels(s, userId, mid, |s.tables.orders|);
    LadderIsRight(mid, quantity, reference, s.markets[mid].tickSize, MARKET_MAKER_LEVEL_OFFSETS_BPS);
    LadderQuotes(cleared, userId, mid, quantity, reference, s.markets[mid].tickSize, MARKET_MAKER_LEVEL_OFFSETS_BPS);
    var s' := QuoteAll(cleared, userId, requests);
    forall i | 0 <= i < |requests| ensures Quoted(cleared, s', userId, requests, i) {
      EveryRequestQuotes(cleared, userId, requests, i);
    }
    if forall i | 0 <= i < |requests| :: IsAccepted(cleared, userId, requests, i) {
      LadderStands(cleared, userId, requests);
    }
  }

  lemma LadderStands(s: State, userId: UserId, requests: seq<Request>)
    requires Sound(Quiet(s)) && forall i | 0 <= i < |requests| :: IsAccepted(s, userId, requests, i)
    ensures var s' := QuoteAll(s, userId, requests);
            && |s'.tables.orders| == |s.tables.orders| + |requests|
            && forall i | 0 <= i < |requests| :: HasTerms(s'.tables.orders[|s.tables.orders| + i], userId, requests[i])
  {
    hide Sound, HasTerms, QuoteOne, IsAccepted, Exec, QuoteAll;
    AllAcceptedCount(s, userId, requests, |requests|);
    assert requests[..|requests|] == requests;
    forall i | 0 <= i < |requests|
      ensures HasTerms(QuoteAll(s, userId, requests).tables.orders[|s.tables.orders| + i], userId, requests[i])
    {
      AllAcceptedCount(s, userId, requests, i);
      EveryRequestQuotes(s, userId, requests, i);
    }
  }
}
