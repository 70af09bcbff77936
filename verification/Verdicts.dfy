/** What a submission answers and leaves on the book, read off the outside: its fills, what remains, and
    whether the order stands on the book afterwards. */
module Verdicts {
  import opened Types
  import opened BookSide
  import opened Matching
  import opened MatchingFacts
  import opened EngineSpec

  /** The order a submission would leave on the book. */
  function RestingOrder(input: Input, remaining: real, sequence: nat): Maker
    requires input.price.Some?
  {
    Maker(input.id, input.userId, input.side, input.price.value, remaining, sequence)
  }

  /** Whether the order stands on the book. */
  predicate Listed(e: Engine, id: OrderId) {
    (exists m :: m in e.bids && m.id == id) || (exists m :: m in e.asks && m.id == id)
  }

  lemma ListedIff(e: Engine, id: OrderId)
    ensures Listed(e, id) <==> !FreshId(e, id)
  {
  }

  lemma SubmissionParts(e: Engine, input: Input)
    requires EngineValid(e) && Acceptable(input) && FreshId(e, input.id)
    ensures var (e', r), o := Submit(e, input), MatchOf(e, input);
            && r.orderId == input.id && r.fills == o.fills && r.remaining == o.remaining && r.selfTradePrevented == o.stopped
            && SideOf(e', Opposite(input.side)) == o.makers && e'.sequence == e.sequence + 1
            && SideOf(e', input.side) == OwnSide(input, SideOf(e, input.side), o.remaining, o.stopped, e.sequence + 1)
            && 0.0 <= o.remaining <= input.quantity && Ids(o.makers) <= Ids(SideOf(e, Opposite(input.side)))
            && SideValid(Opposite(input.side), SideOf(e, Opposite(input.side))) && SideValid(input.side, SideOf(e, input.side))
  {
    hide Match, OwnSide, SideValid, Finalize;
    var t, opposing := TakerOf(input), SideOf(e, Opposite(input.side));
    OpposingValid(e, t, input.quantity);
    MembersReduced(Opposite(input.side), opposing);
    MatchConserves(t, opposing, input.quantity);
  }

  /** The fills, what remains, the opposing side and the self-trade flag are those of price-time priority, for
      a taker limited by its price exactly if it is a limit order. */
  lemma SubmissionMatches(e: Engine, input: Input)
    requires EngineValid(e) && Acceptable(input) && FreshId(e, input.id)
    ensures var (e', r) := Submit(e, input);
            var taker := Taker(input.id, input.userId, input.side, if input.orderType == Limit then input.price else None);
            && r.orderId == input.id
            && PriceTimePriority(taker, SideOf(e, Opposite(input.side)), input.quantity,
                                 Outcome(r.fills, SideOf(e', Opposite(input.side)), r.remaining, r.selfTradePrevented))
  {
    hide Match, OwnSide, SideValid, PriceTimePriority, Submit;
    SubmissionParts(e, input);
    MembersReduced(Opposite(input.side), SideOf(e, Opposite(input.side)));
    MatchHasPriority(TakerOf(input), SideOf(e, Opposite(input.side)), input.quantity);
  }

  /** The order stands on the book afterwards if and only if it is a limit order of which something remains and
      which did not meet its own user; it then stands, with what remains, last in the queue of its price, and
      every other queue of its side is as it was. */
  lemma SubmissionRests(e: Engine, input: Input, p: real)
    requires EngineValid(e) && Acceptable(input) && FreshId(e, input.id)
    ensures var (e', r) := Submit(e, input);
            && (Listed(e', input.id) <==> input.orderType == Limit && r.remaining > 0.0 && !r.selfTradePrevented)
            && AtPrice(SideOf(e', input.side), p) ==
               AtPrice(SideOf(e, input.side), p)
               + if Listed(e', input.id) && input.price == Some(p) then [RestingOrder(input, r.remaining, e.sequence + 1)] else []
  {
    hide Match, SideValid, Submit, Listed, FreshId, Insert, AtPrice;
    SubmissionParts(e, input);
    var e', o, own := Submit(e, input).0, MatchOf(e, input), SideOf(e, input.side);
    ListedIff(e', input.id);
    ListedWhere(e', input.side, input.id);
    ListedWhere(e, input.side, input.id);
    ListedIff(e, input.id);
    if Stays(input, o.remaining, o.stopped) {
      InsertMembers(input.side, own, Remainder(input, o.remaining, e.sequence + 1));
      InsertIsFifo(input.side, own, Remainder(input, o.remaining, e.sequence + 1), p);
    }
  }

  lemma ListedWhere(e: Engine, side: Side, id: OrderId)
    ensures Listed(e, id) <==> id in Ids(SideOf(e, side)) || id in Ids(SideOf(e, Opposite(side)))
  {
  }

  /** Which of the five statuses a submission answers, by whether anything filled, whether anything remains and
      whether the order stands on the book afterwards. */
  lemma SubmissionStatus(e: Engine, input: Input)
    requires EngineValid(e) && Acceptable(input) && FreshId(e, input.id)
    ensures var (e', r) := Submit(e, input);
            var listed := Listed(e', input.id);
            && (r.status == FullyFilled <==> r.remaining == 0.0)
            && (r.status == Rests <==> listed && r.fills == [])
            && (r.status == RestsPartlyFilled <==> listed && r.fills != [])
            && (r.status == CancelledUnfilled <==> !listed && r.fills == [])
            && (r.status == CancelledPartlyFilled <==> !listed && r.fills != [] && r.remaining > 0.0)
  {
    hide Match, SideValid, Listed, FreshId, OwnSide;
    SubmissionParts(e, input);
    SubmissionRests(e, input, 0.0);
    var opposing := SideOf(e, Opposite(input.side));
    MembersReduced(Opposite(input.side), opposing);
    MatchConserves(TakerOf(input), opposing, input.quantity);
    assert FilledQuantity([]) == 0.0;
  }

  /** A market order on an empty book is CANCELLED; one that takes the only ask and wants more is
      PARTIALLY_FILLED_CANCELLED. */
  lemma MarketOrderStatuses(ask: Maker, input: Input)
    requires input.side == Buy && input.orderType == MarketOrder && input.quantity > 0.0
    requires SideValid(Sell, [ask]) && ask.userId != input.userId && ask.id != input.id && ask.remaining < input.quantity
    ensures Submit(EMPTY, input).1.status == CancelledUnfilled
    ensures Submit(Engine([], [ask], ask.sequence), input).1.status == CancelledPartlyFilled
  {
    var t := TakerOf(input);
    assert [ask][1..] == [];
    assert Match(t, [], input.quantity) == Outcome([], [], input.quantity, false);
    assert Match(t, [], input.quantity - ask.remaining) == Outcome([], [], input.quantity - ask.remaining, false);
    assert Match(t, [ask], input.quantity).fills == [FillAgainst(t, ask, ask.remaining)] + [];
  }
}
