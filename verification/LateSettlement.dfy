/** Settling an order whose hold is already released: every fill is paid out of what its owner has
    available, and the settlement goes through exactly when that covers all of them. */
module LateSettlements {
  import opened Types
  import opened BookSide
  import opened Matching
  import opened MatchingFacts
  import opened EngineSpec
  import opened Ledger
  import opened Holds
  import opened Settlement
  import opened FillProofs
  import opened Books
  import opened Submission
  import opened Exchange
  import opened Transfers
  import opened Safety
  import opened OrderHistory
  import opened Agreement
  import opened CancelRace

  /** What a fill takes from the taker, and from where. */
  function PaidBy(side: Side, f: Fill): real {
    if side == Buy then f.quoteAmount else f.quantity
  }

  ghost function PaidFor(side: Side, fills: seq<Fill>): real {
    if side == Buy then QuoteTotal(fills) else FilledQuantity(fills)
  }

  function PayKey(m: Market, t: Taker): AccountKey {
    UserKey(t.userId, if t.side == Buy then m.quote else m.base)
  }

  /** A resting order with its row and hold. */
  ghost predicate MakerBacked(t: Tables, mid: MarketId, m: Market, side: Side, o: Maker) {
    && EntryAgrees(t.orders, mid, side, o)
    && o.id in t.holds && RowValid(t.orders[o.id]) && HoldFits(m, t.holds[o.id], t.orders[o.id])
  }

  ghost predicate AllBacked(t: Tables, mid: MarketId, m: Market, side: Side, s: seq<Maker>) {
    forall o | o in s :: MakerBacked(t, mid, m, side, o)
  }

  /** The taker's row is of its side and owner, and reserves nothing. */
  ghost predicate Unfunded(t: Tables, taker: Taker) {
    && taker.id < |t.orders| && t.orders[taker.id].side == taker.side && t.orders[taker.id].userId == taker.userId
    && (taker.id in t.holds ==> t.holds[taker.id].status != Active)
  }

  /** The accounts and holds once the maker's slice is given back; the taker has none to give. */
  lemma OnlyMakerUnreserves(t: Tables, mid: MarketId, m: Market, taker: Taker, best: Maker, q: real)
    requires Money(t.accounts, t.holds, t.journal) && MakerBacked(t, mid, m, Opposite(taker.side), best) && Unfunded(t, taker)
    requires taker.id != best.id && 0.0 < q <= best.remaining
    ensures var f, h, amount := FillAgainst(taker, best, q), t.holds[best.id], ReserveOf(t.orders[best.id], q);
            var b, s := BuyerOf(t.orders, f), SellerOf(t.orders, f);
            var u := Unreserve(t.accounts, t.holds, b, ReserveOf(t.orders[b], q), s, ReserveOf(t.orders[s], q));
            && 0.0 < amount <= h.amount && h.status == Active && h.account == LockKey(m, t.orders[best.id])
            && u.1 == t.holds[best.id := Less(h, amount)]
            && Money(u.0, u.1, t.journal)
            && (forall k :: At(u.0, k).available == At(t.accounts, k).available + On(k, h.account, amount))
  {
    var h, amount := t.holds[best.id], ReserveOf(t.orders[best.id], q);
    FillToRow(m, h, t.orders[best.id], q);
    hide Money, RowValid, ReserveOf;
    ReduceKeepsMoney(t.accounts, t.holds, t.journal, best.id, amount);
  }

  /** The accounts and holds with both slices given back. */
  function UnreservedFor(t: Tables, f: Fill): (Accounts, Holds)
    requires f.makerOrderId < |t.orders| && f.takerOrderId < |t.orders|
  {
    var b, s := BuyerOf(t.orders, f), SellerOf(t.orders, f);
    Unreserve(t.accounts, t.holds, b, ReserveOf(t.orders[b], f.quantity), s, ReserveOf(t.orders[s], f.quantity))
  }

  /** Both parties of a fill, and what the maker's side has to pay with. */
  lemma LateParties(t: Tables, mid: MarketId, m: Market, taker: Taker, best: Maker, q: real)
    requires Money(t.accounts, t.holds, t.journal) && MakerBacked(t, mid, m, Opposite(taker.side), best) && Unfunded(t, taker)
    requires m.base != m.quote && taker.id != best.id && taker.userId != best.userId && 0.0 < q <= best.remaining
    ensures var f, key := FillAgainst(taker, best, q), PayKey(m, taker);
            var u, d := UnreservedFor(t, f), DealOf(m, t.orders, f);
            && Money(u.0, u.1, t.journal) && d.buyer != d.seller && d.quantity == q && d.quoteAmount == f.quoteAmount > 0.0
            && u.1 == t.holds[best.id := Less(t.holds[best.id], ReserveOf(t.orders[best.id], q))]
            && At(u.0, key).available == At(t.accounts, key).available
            && (if taker.side == Buy
                then UserKey(d.buyer, m.quote) == key && At(u.0, UserKey(d.seller, m.base)).available >= d.quantity
                else UserKey(d.seller, m.base) == key && At(u.0, UserKey(d.buyer, m.quote)).available >= d.quoteAmount)
  {
    var f := FillAgainst(taker, best, q);
    OnlyMakerUnreserves(t, mid, m, taker, best, q);
    PositiveQuote(t, mid, m, Opposite(taker.side), best, q);
    OwnerNonNegative(t, best.userId, m.base);
    OwnerNonNegative(t, best.userId, m.quote);
    ReserveIsPaid(t.orders[best.id], f);
    hide Money, Unreserve, RowValid, HoldFits, ReserveOf, Fee, Notional;
  }

  /** What the deal of such a fill does to the account the taker pays from. */
  lemma LateDealMoves(m: Market, d: Deal, taker: Taker)
    requires m.base != m.quote && d.buyer != d.seller && taker.userId == (if taker.side == Buy then d.buyer else d.seller)
    ensures Flow(m, d, PayKey(m, taker)) == -(if taker.side == Buy then d.quoteAmount else d.quantity)
  {
  }

  /** A fill of such a taker settles exactly when fees are below one and what the taker has available pays
      for it; the maker's side is covered as ever. */
  lemma LateFillSettlesIff(t: Tables, mid: MarketId, m: Market, taker: Taker, best: Maker, q: real)
    requires Money(t.accounts, t.holds, t.journal) && MakerBacked(t, mid, m, Opposite(taker.side), best) && Unfunded(t, taker)
    requires m.base != m.quote && taker.id != best.id && taker.userId != best.userId && 0.0 < q <= best.remaining
    ensures var f, key := FillAgainst(taker, best, q), PayKey(m, taker);
            var r := SettleFill(t, mid, m, f);
            && PaidBy(taker.side, f) > 0.0
            && (r.Ok? <==> m.makerFee < 1.0 && m.takerFee < 1.0 && At(t.accounts, key).available >= PaidBy(taker.side, f))
            && (r.Ok? ==>
                  && Money(r.value.accounts, r.value.holds, r.value.journal)
                  && r.value.orders == OrdersAfter(t.orders, f)
                  && r.value.holds == t.holds[best.id := Less(t.holds[best.id], ReserveOf(t.orders[best.id], q))]
                  && At(r.value.accounts, key).available == At(t.accounts, key).available - PaidBy(taker.side, f))
  {
    hide Money, PostEntries, FillEntries, TouchFillAccounts, Unreserve, RowValid, HoldFits, ReserveOf, Chargeable, Fee, Notional, Flow,
      At, Less;
    var f := FillAgainst(taker, best, q);
    LateParties(t, mid, m, taker, best, q);
    var u, d := UnreservedFor(t, f), DealOf(m, t.orders, f);
    FeesBelowOne(t.orders, m, f);
    MoveDeal(u.0, u.1, t.journal, m, d);
    LateDealMoves(m, d, taker);
  }

  lemma OwnerNonNegative(t: Tables, userId: UserId, asset: AssetId)
    requires Money(t.accounts, t.holds, t.journal)
    ensures At(t.accounts, UserKey(userId, asset)).available >= 0.0
  {
    AvailableNonNegative(t.accounts, UserKey(userId, asset));
  }

  lemma PositiveQuote(t: Tables, mid: MarketId, m: Market, side: Side, best: Maker, q: real)
    requires MakerBacked(t, mid, m, side, best) && q > 0.0
    ensures Notional(best.price, q) > 0.0
  {
  }

  /** A maker reserves exactly what a fill at its own price takes from it. */
  lemma ReserveIsPaid(r: OrderRow, f: Fill)
    requires f.price == r.price && f.quoteAmount == Notional(f.price, f.quantity)
    ensures ReserveOf(r, f.quantity) == if r.side == Buy then f.quoteAmount else f.quantity
  {
  }

  /** The makers behind the best one stay backed. */
  lemma LateFillKeepsBacking(t: Tables, t': Tables, mid: MarketId, m: Market, taker: Taker, best: Maker, worse: seq<Maker>, q: real)
    requires AllBacked(t, mid, m, Opposite(taker.side), [best] + worse) && Unfunded(t, taker)
    requires SideValid(Opposite(taker.side), [best] + worse)
    requires taker.id != best.id && taker.id !in Ids(worse) && best.id < |t.orders|
    requires t'.orders == OrdersAfter(t.orders, FillAgainst(taker, best, q))
    requires best.id in t.holds && t'.holds == t.holds[best.id := Less(t.holds[best.id], ReserveOf(t.orders[best.id], q))]
    ensures AllBacked(t', mid, m, Opposite(taker.side), worse) && Unfunded(t', taker)
  {
    hide SideValid, RowValid, HoldFits, ReserveOf;
    SideTail(Opposite(taker.side), best, worse);
    forall o | o in worse ensures MakerBacked(t', mid, m, Opposite(taker.side), o) {
      assert o in [best] + worse;
      assert MakerBacked(t, mid, m, Opposite(taker.side), o);
      assert Precedes(Opposite(taker.side), best, o) && o.id in Ids(worse);
    }
  }

  /** The fills of a match, one after the other. */
  ghost predicate LateSettles(t: Tables, mid: MarketId, m: Market, taker: Taker, fills: seq<Fill>) {
    SettleAll(t, mid, m, fills).Ok? <==>
      fills == [] || (m.makerFee < 1.0 && m.takerFee < 1.0 && At(t.accounts, PayKey(m, taker)).available >= PaidFor(taker.side, fills))
  }

  lemma LateSettlesCons(t: Tables, mid: MarketId, m: Market, taker: Taker, f: Fill, rest: seq<Fill>)
    requires var r, key := SettleFill(t, mid, m, f), PayKey(m, taker);
             && (r.Ok? <==> m.makerFee < 1.0 && m.takerFee < 1.0 && At(t.accounts, key).available >= PaidBy(taker.side, f))
             && (r.Ok? ==>
                   && At(r.value.accounts, key).available == At(t.accounts, key).available - PaidBy(taker.side, f)
                   && LateSettles(r.value, mid, m, taker, rest))
    requires PaidFor(taker.side, rest) >= 0.0
    ensures LateSettles(t, mid, m, taker, [f] + rest)
  {
    hide SettleFill, At;
    assert ([f] + rest)[1..] == rest && ([f] + rest)[0] == f;
  }

  lemma {:induction false} PaidNonNegative(side: Side, fills: seq<Fill>)
    requires forall f | f in fills :: PaidBy(side, f) > 0.0
    ensures PaidFor(side, fills) >= 0.0
  {
    if fills != [] {
      assert fills[0] in fills && forall f | f in fills[1..] :: f in fills;
      PaidNonNegative(side, fills[1..]);
    }
  }

  lemma MatchPays(t: Tables, mid: MarketId, m: Market, taker: Taker, makers: seq<Maker>, quantity: real)
    requires AllBacked(t, mid, m, Opposite(taker.side), makers)
    ensures PaidFor(taker.side, Match(taker, makers, quantity).fills) >= 0.0
  {
    hide Match, MakerBacked, Notional;
    forall o | o in makers ensures o.remaining > 0.0 && o.price > 0.0 {
      BackedIsPositive(t, mid, m, Opposite(taker.side), o);
    }
    MatchIsFair(taker, makers, quantity);
    forall f | f in Match(taker, makers, quantity).fills ensures PaidBy(taker.side, f) > 0.0 {
      assert FairFill(taker, makers, f);
    }
    PaidNonNegative(taker.side, Match(taker, makers, quantity).fills);
  }

  lemma BackedIsPositive(t: Tables, mid: MarketId, m: Market, side: Side, o: Maker)
    requires MakerBacked(t, mid, m, side, o)
    ensures o.remaining > 0.0 && o.price > 0.0
  {
  }

  /** The fills of an unfunded taker settle exactly when fees are below one and what the taker has available
      pays for all of them. */
  lemma {:induction false} LateMatchSettlesIff(t: Tables, mid: MarketId, m: Market, taker: Taker, makers: seq<Maker>, quantity: real)
    requires Money(t.accounts, t.holds, t.journal) && m.base != m.quote
    requires SideValid(Opposite(taker.side), makers) && AllBacked(t, mid, m, Opposite(taker.side), makers)
    requires Unfunded(t, taker) && taker.id !in Ids(makers)
    ensures LateSettles(t, mid, m, taker, Match(taker, makers, quantity).fills)
    decreases |makers|
  {
    hide Money, SideValid, SettleFill, Match, MakerBacked, LateSettles, Unfunded, MayTrade, ReserveOf;
    if quantity <= 0.0 || makers == [] || !MayTrade(taker, makers[0]) {
      NoMatch(taker, makers, quantity);
      LateSettlesNothing(t, mid, m, taker);
      return;
    }
    var best, worse := makers[0], makers[1..];
    assert makers == [best] + worse && best in makers;
    SideTail(Opposite(taker.side), best, worse);
    MatchCons(taker, best, worse, quantity);
    OtherUser(taker, best);
    var q := Min(best.remaining, quantity);
    var f := FillAgainst(taker, best, q);
    var rest := if best.remaining <= quantity then Match(taker, worse, quantity - q).fills else [];
    assert Match(taker, makers, quantity).fills == [f] + rest;
    LateFillSettlesIff(t, mid, m, taker, best, q);
    AllBackedTail(t, mid, m, Opposite(taker.side), best, worse);
    MatchPays(t, mid, m, taker, worse, quantity - q);
    NothingPaid(taker.side);
    var r := SettleFill(t, mid, m, f);
    if r.Ok? {
      LateFillKeepsBacking(t, r.value, mid, m, taker, best, worse, q) by { BackedIsKnown(t, mid, m, Opposite(taker.side), best); }
      if best.remaining <= quantity {
        LateMatchSettlesIff(r.value, mid, m, taker, worse, quantity - q);
      } else {
        LateSettlesNothing(r.value, mid, m, taker);
      }
    }
    LateSettlesCons(t, mid, m, taker, f, rest);
  }

  lemma BackedIsKnown(t: Tables, mid: MarketId, m: Market, side: Side, o: Maker)
    requires MakerBacked(t, mid, m, side, o)
    ensures o.id < |t.orders| && o.id in t.holds
  {
  }

  lemma OtherUser(t: Taker, o: Maker)
    requires MayTrade(t, o)
    ensures t.userId != o.userId
  {
  }

  lemma AllBackedTail(t: Tables, mid: MarketId, m: Market, side: Side, best: Maker, worse: seq<Maker>)
    requires AllBacked(t, mid, m, side, [best] + worse)
    ensures AllBacked(t, mid, m, side, worse) && MakerBacked(t, mid, m, side, best)
  {
    assert best in [best] + worse && forall o | o in worse :: o in [best] + worse;
  }

  lemma NothingPaid(side: Side)
    ensures PaidFor(side, []) == 0.0
  {
  }

  lemma LateSettlesNothing(t: Tables, mid: MarketId, m: Market, taker: Taker)
    ensures LateSettles(t, mid, m, taker, [])
  {
  }

  /** What the owner of a cancelled order has available on the account it would pay from. */
  ghost function AvailableToPay(s: State, id: OrderId): real
    requires id in s.pending && id < |s.tables.orders|
  {
    At(AfterCancel(s, id).tables.accounts, PayKey(s.pending[id], TakerOf(InputOf(id, s.tables.orders[id])))).available
  }

  /** The late submission of a cancelled order succeeds if and only if it matches nothing, or fees are below
      one and its owner, holding nothing in reserve any more, has available all that the fills take. */
  lemma LateSubmissionSettlesIff(s: State, id: OrderId)
    requires Inv(s) && id in s.pending
    ensures id < |s.tables.orders| && s.tables.orders[id].market in s.engines
    ensures var m, fills, side := s.pending[id], OutcomeOf(s, id).fills, s.tables.orders[id].side;
            ApplySubmit(AfterCancel(s, id), id).error.None? <==>
              fills == [] || (m.makerFee < 1.0 && m.takerFee < 1.0 && AvailableToPay(s, id) >= PaidFor(side, fills))
  {
    hide Inv, TablesValid, Match, SettleAll, AfterCancel, ApplySubmit, LateSettlement, SideValid, FilledQuantity, QuoteTotal,
      EngineInSync, Submitted, EngineSpec.Submit, Unfunded, AllBacked;
    LateSubmission(s, id);
    LateFillsBooked(s, id);
    LateCloses(s, id);
    LateReady(s, id);
    var row := s.tables.orders[id];
    var c, makers := AfterCancel(s, id).tables, SideOf(s.engines[row.market], Opposite(row.side));
    LateMatchSettlesIff(c, row.market, s.pending[id], TakerOf(InputOf(id, row)), makers, row.quantity);
  }

  lemma LateReady(s: State, id: OrderId)
    requires Inv(s) && id in s.pending
    ensures id < |s.tables.orders| && s.tables.orders[id].market in s.engines
    ensures var row, c, m := s.tables.orders[id], AfterCancel(s, id).tables, s.pending[id];
            var t, makers := TakerOf(InputOf(id, row)), SideOf(s.engines[row.market], Opposite(row.side));
            && Money(c.accounts, c.holds, c.journal) && m.base != m.quote
            && SideValid(Opposite(row.side), makers) && AllBacked(c, row.market, m, Opposite(row.side), makers)
            && Unfunded(c, t) && id !in Ids(makers)
  {
    hide Money, TradesFit, TradesValid, Reconciled, SideValid, RowValid, AfterCancel;
    WaitingFacts(s, id);
    CancelFindsNothing(s, id);
    var row, c, m := s.tables.orders[id], AfterCancel(s, id).tables, s.pending[id];
    var makers := SideOf(s.engines[row.market], Opposite(row.side));
    forall o | o in makers ensures MakerBacked(c, row.market, m, Opposite(row.side), o) {
      assert EntryAgrees(s.tables.orders, row.market, Opposite(row.side), o);
      assert o.id in Ids(makers);
      assert OrderValid(s.markets, c.holds, c.orders, o.id);
    }
  }
}
