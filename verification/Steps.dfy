/** What cancelling, restarting and changing a market do, stated from the outside. */
module Steps {
  import opened Types
  import opened BookSide
  import opened Matching
  import opened EngineSpec
  import opened Ledger
  import opened Holds
  import opened Settlement
  import opened FillProofs
  import opened Books
  import opened Exchange
  import opened Transfers
  import opened Backing
  import opened Interleaving
  import opened FeeRates
  import Safety
  import Verdicts
  import Rebuilding

  /** The book of one side without an order, and otherwise as it was. */
  ghost predicate Without(before: seq<Maker>, after: seq<Maker>, id: OrderId) {
    exists a, b ::
      && after == a + b && (forall m | m in after :: m.id != id)
      && (before == a + b || exists m: Maker :: m.id == id && before == a + [m] + b)
  }

  lemma TakenOut(a: seq<Maker>, m: Maker, b: seq<Maker>)
    requires forall x | x in a + b :: x.id != m.id
    ensures Without(a + [m] + b, a + b, m.id)
  {
  }

  lemma DeleteIsWithout(s: seq<Maker>, id: OrderId)
    requires forall i, j | 0 <= i < j < |s| :: s[i].id != s[j].id
    ensures Without(s, Delete(s, id), id)
  {
    hide Without, Delete, Ids;
    if forall i | 0 <= i < |s| :: s[i].id != id {
      AbsentStays(s, id);
    } else {
      var i :| 0 <= i < |s| && s[i].id == id;
      var a, b := s[..i], s[i + 1..];
      assert s == a + [s[i]] + b;
      forall x: Maker | x in a + b ensures x.id != id {
        var j :| 0 <= j < |a + b| && (a + b)[j] == x;
        assert x == if j < i then s[j] else s[j + 1];
      }
      DeleteSplit(a, s[i], b);
      TakenOut(a, s[i], b);
    }
  }

  lemma AbsentStays(s: seq<Maker>, id: OrderId)
    requires forall i | 0 <= i < |s| :: s[i].id != id
    ensures Delete(s, id) == s && Without(s, s, id)
  {
    assert id !in Ids(s);
    DeleteAbsent(s, id);
    UntouchedIsWithout(s, id);
  }

  lemma {:induction false} IdsOnce(side: Side, s: seq<Maker>)
    requires SideValid(side, s)
    ensures forall i, j | 0 <= i < j < |s| :: s[i].id != s[j].id
  {
    if s != [] {
      IdsOnce(side, s[1..]);
      forall i, j | 0 <= i < j < |s| ensures s[i].id != s[j].id {
        if i == 0 {
          assert s[1..][j - 1] == s[j] && s[j] in s[1..];
        } else {
          assert s[i] == s[1..][i - 1] && s[j] == s[1..][j - 1];
        }
      }
    }
  }

  /** What an order still has reserved, and where. */
  function Reserved(r: OrderRow): real {
    if r.side == Buy then r.price * r.remaining else r.remaining
  }

  function ReservedOn(m: Market, r: OrderRow): AccountKey {
    UserKey(r.userId, if r.side == Buy then m.quote else m.base)
  }

  /** A cancelled order: its row is closed and nothing else of it changes; what an active hold still reserved is
      available again, and the hold released; it is off the book of its market, and no other book moves. */
  ghost predicate CancelledOrder(s: State, s': State, id: OrderId)
    requires id < |s.tables.orders|
  {
    var r, t, t' := s.tables.orders[id], s.tables, s'.tables;
    && r.market in s.markets && r.market in s.engines && id in t.holds
    && s' == s.(tables := t', engines := s'.engines)
    && t' == t.(accounts := t'.accounts, holds := t'.holds, orders := t.orders[id := r.(status := Cancelled)])
    && (if t.holds[id].status == Active then
          && var k := ReservedOn(s.markets[r.market], r);
          && t'.holds == t.holds[id := Hold(k, Reserved(r), Released)]
          && At(t'.accounts, k) == Account(At(t.accounts, k).available + Reserved(r), At(t.accounts, k).locked - Reserved(r))
          && forall x | x != k :: At(t'.accounts, x) == At(t.accounts, x)
        else t'.holds == t.holds && t'.accounts == t.accounts)
    && s'.engines.Keys == s.engines.Keys
    && (forall mid | mid in s.engines && mid != r.market :: s'.engines[mid] == s.engines[mid])
    && var e, e' := s.engines[r.market], s'.engines[r.market];
    Without(e.bids, e'.bids, id) && Without(e.asks, e'.asks, id) && e'.sequence == e.sequence
  }

  /** A cancellation is refused as not found for an unknown order or another user's, as a conflict for a finished
      one, and otherwise goes through. */
  lemma CancelledIff(s: State, userId: UserId, id: OrderId)
    requires Sound(Quiet(s))
    ensures var r := Exec(s, CancelOrder(userId, id));
            if id >= |s.tables.orders| || s.tables.orders[id].userId != userId then r == Reply(s, Some(NotFound))
            else if s.tables.orders[id].status == Filled || s.tables.orders[id].status == Cancelled then r == Reply(s, Some(Conflict))
            else r.error.None? && CancelledOrder(s, r.state, id)
  {
    hide Sound, EngineSpec.Cancel, Without;
    SoundKeys(s);
    if id < |s.tables.orders| && s.tables.orders[id].userId == userId && Live(s.tables.orders[id]) {
      var row := s.tables.orders[id];
      CancellableRow(s, id);
      CancelTakesOff(Quiet(s), row.market, id);
    }
  }

  lemma CancellableRow(s: State, id: OrderId)
    requires Sound(Quiet(s)) && id < |s.tables.orders|
    ensures var r := s.tables.orders[id];
            && r.market in s.markets && id in s.tables.holds
            && var h := s.tables.holds[id];
            h.status == Active ==> h == Hold(ReservedOn(s.markets[r.market], r), Reserved(r), Active)
  {
    hide Sound, Backed, RowValid;
    SoundIsBacked(Quiet(s));
    BackedRow(s.markets, s.tables, id);
  }

  lemma CancelTakesOff(c: Machine, mid: MarketId, id: OrderId)
    requires Sound(c) && mid in c.core.engines
    ensures var e, e' := c.core.engines[mid], EngineSpec.Cancel(c.core.engines[mid], id);
            Without(e.bids, e'.bids, id) && Without(e.asks, e'.asks, id) && e'.sequence == e.sequence
  {
    hide Sound, SideValid, Delete, Without;
    var e := c.core.engines[mid];
    EngineIsValid(c, mid);
    EngineIsKnown(c, mid);
    IdsOnce(Buy, e.bids);
    IdsOnce(Sell, e.asks);
    DeleteIsWithout(e.bids, id);
    DeleteIsWithout(e.asks, id);
    UntouchedIsWithout(e.bids, id);
    UntouchedIsWithout(e.asks, id);
    assert Ids(e.bids) !! Ids(e.asks);
  }

  lemma UntouchedIsWithout(s: seq<Maker>, id: OrderId)
    ensures id !in Ids(s) ==> Without(s, s, id)
  {
    if id !in Ids(s) {
      assert s == s + [] && forall m | m in s :: m.id in Ids(s);
    }
  }

  /** A rebuilt book side: its orders, price-time ordered, older first at each price. */
  ghost predicate RebuiltSide(orders: seq<OrderRow>, mid: MarketId, side: Side, book: seq<Maker>) {
    && SideValid(side, book)
    && (forall i, j | 0 <= i < j < |book| && book[i].price == book[j].price :: book[i].id < book[j].id)
    && forall o :: o in book <==>
         exists i: OrderId ::
           && i < |orders|
           && var r := orders[i];
           && r.market == mid && r.side == side && r.orderType == Limit && (r.status == Open || r.status == PartiallyFilled)
           && o == Maker(i, r.userId, side, r.price, r.remaining, 0)
  }

  lemma {:induction false} AgedInOrder(s: seq<Maker>)
    requires Rebuilding.Aged(s)
    ensures forall i, j | 0 <= i < j < |s| && s[i].price == s[j].price :: s[i].id < s[j].id
  {
    if s != [] {
      AgedInOrder(s[1..]);
      forall i, j | 0 <= i < j < |s| && s[i].price == s[j].price ensures s[i].id < s[j].id {
        if i == 0 {
          assert s[1..][j - 1] == s[j] && s[j] in s[1..];
        } else {
          assert s[i] == s[1..][i - 1] && s[j] == s[1..][j - 1];
        }
      }
    }
  }

  lemma SideIsRebuilt(orders: seq<OrderRow>, mid: MarketId, side: Side)
    requires forall i | 0 <= i < |orders| :: RowValid(orders[i])
    ensures RebuiltSide(orders, mid, side, RebuildSide(orders, mid, side))
  {
    hide SideValid, RowValid, RebuildSide, Rebuilding.Aged;
    var book := RebuildSide(orders, mid, side);
    Safety.RebuildSideValid(orders, mid, side);
    Rebuilding.RebuildIsAged(orders, mid, side);
    AgedInOrder(book);
    forall i: OrderId | i < |orders| && RestsIn(orders[i], mid, side)
      ensures RestoredMaker(i, orders[i]) == Maker(i, orders[i].userId, side, orders[i].price, orders[i].remaining, 0)
    {
    }
  }

  /** A restart always goes through: it touches no table, drops what was under way, and lists in every market
      exactly the live limit orders with what remains of them, older first at each price. */
  lemma RestartLists(s: State, mid: MarketId)
    requires Sound(Quiet(s)) && mid in s.markets
    ensures var r := Exec(s, Restart);
            && r.error.None? && r.state == s.(engines := r.state.engines, pending := map[])
            && r.state.engines.Keys == s.markets.Keys
            && RebuiltSide(s.tables.orders, mid, Buy, r.state.engines[mid].bids)
            && RebuiltSide(s.tables.orders, mid, Sell, r.state.engines[mid].asks)
  {
    hide Sound, RebuildSide, RebuiltSide;
    SoundRowsValid(s);
    SideIsRebuilt(s.tables.orders, mid, Buy);
    SideIsRebuilt(s.tables.orders, mid, Sell);
  }

  /** Changing a market sets exactly what is given, of exactly that market, and refuses an unknown one. */
  lemma UpdateSets(s: State, mid: MarketId, status: Option<MarketStatus>, makerFee: Option<real>, takerFee: Option<real>)
    ensures var r := Exec(s, UpdateMarket(mid, status, makerFee, takerFee));
            if mid !in s.markets then r == Reply(s, Some(NotFound))
            else
              && r.error.None? && r.state == s.(markets := r.state.markets) && r.state.markets.Keys == s.markets.Keys
              && (forall other | other in s.markets && other != mid :: r.state.markets[other] == s.markets[other])
              && var m, m' := s.markets[mid], r.state.markets[mid];
              && m' == m.(status := m'.status, makerFee := m'.makerFee, takerFee := m'.takerFee)
              && m'.status == (if status.Some? then status.value else m.status)
              && m'.makerFee == (if makerFee.Some? then makerFee.value else m.makerFee)
              && m'.takerFee == (if takerFee.Some? then takerFee.value else m.takerFee)
  {
  }

  // ---------------------------------------------------------------------------
  // Submitting
  // ---------------------------------------------------------------------------

  /** The row once `quantity` of it has been filled. */
  function FilledBy(r: OrderRow, quantity: real): OrderRow {
    if quantity > 0.0 then
      r.(filled := r.filled + quantity, remaining := r.remaining - quantity,
         status := if r.remaining - quantity <= 0.0 then Filled else PartiallyFilled)
    else r
  }

  ghost predicate RowsFilled(orders: seq<OrderRow>, orders': seq<OrderRow>, fills: seq<Fill>) {
    && |orders'| == |orders|
    && forall i: OrderId | i < |orders| :: orders'[i] == FilledBy(orders[i], Demand(fills, i))
  }

  lemma OneFillBooks(t: Tables, mid: MarketId, m: Market, f: Fill)
    requires FillKnown(t.orders, mid, f) && SettleFill(t, mid, m, f).Ok?
    ensures RowsFilled(t.orders, SettleFill(t, mid, m, f).value.orders, [f])
    ensures AllOnward(t.orders, SettleFill(t, mid, m, f).value.orders)
  {
    hide SettleFill, FillEntries, Balanced, RecordedDeal, Demand;
    FillWrites(t, mid, m, f);
    forall i: OrderId | i < |t.orders|
      ensures Demand([f], i) == if f.makerOrderId == i || f.takerOrderId == i then f.quantity else 0.0
    {
      assert [f] == [f] + [];
      DemandCons(f, [], i);
      NothingDemanded(i);
    }
  }

  lemma FilledTwice(r: OrderRow, a: real, b: real)
    requires a >= 0.0 && b >= 0.0
    ensures FilledBy(FilledBy(r, a), b) == FilledBy(r, a + b)
  {
  }

  lemma {:induction false} SettlingFillsRows(t: Tables, mid: MarketId, m: Market, fills: seq<Fill>)
    requires AllKnown(t.orders, mid, fills) && SettleAll(t, mid, m, fills).Ok?
    ensures RowsFilled(t.orders, SettleAll(t, mid, m, fills).value.orders, fills)
    decreases |fills|
  {
    hide SettleFill, AllKnown, Onward, FilledBy, Demand, FillKnown;
    if fills == [] {
      forall i: OrderId | i < |t.orders| ensures t.orders[i] == FilledBy(t.orders[i], Demand(fills, i)) {
        NothingDemanded(i);
        FilledByNone(t.orders[i]);
      }
      return;
    }
    var f, rest := fills[0], fills[1..];
    assert fills == [f] + rest;
    FirstKnown(t.orders, mid, f, rest);
    var t1 := SettleFill(t, mid, m, f).value;
    OneFillBooks(t, mid, m, f);
    AllKnownStays(t.orders, t1.orders, mid, rest);
    SettlingFillsRows(t1, mid, m, rest);
    var t2 := SettleAll(t1, mid, m, rest).value;
    forall i: OrderId | i < |t.orders| ensures t2.orders[i] == FilledBy(t.orders[i], Demand(fills, i)) {
      FirstThenRest(t.orders, mid, f, rest, i);
      FilledTwice(t.orders[i], Demand([f], i), Demand(rest, i));
      assert t1.orders[i] == FilledBy(t.orders[i], Demand([f], i));
    }
  }

  lemma FilledByNone(r: OrderRow)
    ensures FilledBy(r, 0.0) == r
  {
  }

  lemma FirstThenRest(orders: seq<OrderRow>, mid: MarketId, f: Fill, rest: seq<Fill>, i: OrderId)
    requires AllKnown(orders, mid, [f] + rest)
    ensures Demand([f] + rest, i) == Demand([f], i) + Demand(rest, i) && Demand([f], i) >= 0.0 && Demand(rest, i) >= 0.0
  {
    hide Demand, WithinLimit;
    var fills := [f] + rest;
    forall g | g in fills ensures g.quantity > 0.0 {
      assert FillKnown(orders, mid, g);
    }
    assert f in fills && forall g | g in rest :: g in fills;
    DemandNonNegative([f], i);
    DemandNonNegative(rest, i);
    DemandCons(f, rest, i);
    assert [f] == [f] + [];
    DemandCons(f, [], i);
    NothingDemanded(i);
  }

  /** The row of the submitted order once its fills are booked: closed, with the reason, if the engine dropped
      what remained of it. */
  function Concluded(r: OrderRow, result: SubmitResult): OrderRow {
    if result.remaining > 0.0 && (r.orderType == MarketOrder || result.selfTradePrevented) then
      r.(status := Cancelled, rejectReason := Some(if result.selfTradePrevented then SelfTradePrevented else NoLiquidity))
    else r
  }

  /** A submission moves only the engine of its market and takes the order off the waiting list. If it goes
      through, every row is filled by exactly what the fills take of it, and the order's own row is closed
      exactly if a remainder was dropped, which is that of a market order or of one that met its own user; if it
      fails, no table changes. */
  lemma SubmissionBooks(s: State, id: OrderId)
    requires Sound(Quiet(s)) && id in s.pending
    ensures id < |s.tables.orders| && s.tables.orders[id].market in s.engines && Acceptable(InputOf(id, s.tables.orders[id]))
    ensures var r, row := Exec(s, SubmitOrder(id)), s.tables.orders[id];
            var (e', result) := EngineSpec.Submit(s.engines[row.market], InputOf(id, row));
            && r.state == s.(tables := r.state.tables, engines := s.engines[row.market := e'], pending := s.pending - {id})
            && (r.error.Some? ==> r.state.tables == s.tables)
            && (r.error.None? ==>
                  && |r.state.tables.orders| == |s.tables.orders|
                  && forall i: OrderId | i < |s.tables.orders| ::
                       var filled := FilledBy(s.tables.orders[i], Demand(result.fills, i));
                       r.state.tables.orders[i] == if i == id then Concluded(filled, result) else filled)
  {
    hide Sound, EngineSpec.Submit, AllKnown, FilledBy, Demand, Settle;
    PendingIsWhole(Quiet(s), id);
    Submits(s, id);
    var row := s.tables.orders[id];
    var (e', result) := EngineSpec.Submit(s.engines[row.market], InputOf(id, row));
    if Settle(s.tables, row.market, s.pending[id], id, result).Ok? {
      EngineIsKnownAt(s, row.market);
      SubmitKeepsKnown(s.tables.orders, row.market, s.engines[row.market], id);
      SettledRows(s.tables, row.market, s.pending[id], id, InputOf(id, row), s.engines[row.market]);
    }
  }

  lemma EngineIsKnownAt(s: State, mid: MarketId)
    requires Sound(Quiet(s)) && mid in s.engines
    ensures EngineKnown(s.tables.orders, mid, s.engines[mid]) && EngineValid(s.engines[mid])
  {
    hide Backed, AllPendingKnown, FlightsKnown, WithinRoom, EngineValid, SideKnown;
    assert EngineKnown(s.tables.orders, mid, s.engines[mid]);
  }

  lemma Submits(s: State, id: OrderId)
    requires id in s.pending && id < |s.tables.orders| && s.tables.orders[id].market in s.engines
    requires Acceptable(InputOf(id, s.tables.orders[id]))
    ensures var r, row := Exec(s, SubmitOrder(id)), s.tables.orders[id];
            var (e', result) := EngineSpec.Submit(s.engines[row.market], InputOf(id, row));
            var settled := Settle(s.tables, row.market, s.pending[id], id, result);
            && r.state == s.(tables := if settled.Ok? then settled.value else s.tables,
                             engines := s.engines[row.market := e'], pending := s.pending - {id})
            && (r.error.None? <==> settled.Ok?)
  {
    hide EngineSpec.Submit, Settle;
  }

  lemma SettledRows(t: Tables, mid: MarketId, m: Market, id: OrderId, input: Input, e: Engine)
    requires EngineValid(e) && Acceptable(input) && FreshId(e, id) && id < |t.orders| && input == InputOf(id, t.orders[id])
    requires var result := EngineSpec.Submit(e, input).1;
             AllKnown(t.orders, mid, result.fills) && Settle(t, mid, m, id, result).Ok?
    ensures var result := EngineSpec.Submit(e, input).1;
            var orders' := Settle(t, mid, m, id, result).value.orders;
            && |orders'| == |t.orders|
            && forall i: OrderId | i < |t.orders| ::
                 var filled := FilledBy(t.orders[i], Demand(result.fills, i));
                 orders'[i] == if i == id then Concluded(filled, result) else filled
  {
    hide AllKnown, EngineValid, EngineSpec.Submit, SettleAll, Demand, FreshId, ReduceHold, ReserveOf, Verdicts.Listed;
    var result := EngineSpec.Submit(e, input).1;
    SettlingFillsRows(t, mid, m, result.fills);
    Verdicts.SubmissionStatus(e, input);
    Verdicts.SubmissionRests(e, input, 0.0);
    FilledKeepsType(t.orders[id], Demand(result.fills, id));
  }

  lemma FilledKeepsType(r: OrderRow, quantity: real)
    ensures FilledBy(r, quantity).orderType == r.orderType
  {
  }
}
