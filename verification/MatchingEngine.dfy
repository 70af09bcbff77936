/** The matching engine as the source runs it: a loop over the opposing side of its book. */
module MatchingEngines {
  import opened Types
  import opened BookSide
  import opened Matching
  import opened MatchingFacts
  import opened EngineSpec
  import opened OrderBooks

  /** The opposing side once its best order gave `quantity`. */
  function Taken(makers: seq<Maker>, quantity: real): seq<Maker>
    requires makers != []
  {
    if makers[0].remaining - quantity == 0.0 then makers[1..]
    else [makers[0].(remaining := makers[0].remaining - quantity)] + makers[1..]
  }

  /** What matching yields when `fills` have been made and `makers` and `remaining` are left. */
  function Continue(t: Taker, makers: seq<Maker>, remaining: real, fills: seq<Fill>): Outcome {
    var o := Match(t, makers, remaining);
    o.(fills := fills + o.fills)
  }

  /** One turn of the loop is one step of `Match`. */
  lemma MatchStep(t: Taker, makers: seq<Maker>, remaining: real, fills: seq<Fill>)
    requires remaining > 0.0 && makers != [] && MayTrade(t, makers[0])
    ensures var q := Min(makers[0].remaining, remaining);
            Continue(t, makers, remaining, fills) ==
            Continue(t, Taken(makers, q), remaining - q, fills + [FillAgainst(t, makers[0], q)])
  {
    var q := Min(makers[0].remaining, remaining);
    var rest := Match(t, Taken(makers, q), remaining - q);
    assert Match(t, makers, remaining).fills == [FillAgainst(t, makers[0], q)] + rest.fills;
    assert fills + ([FillAgainst(t, makers[0], q)] + rest.fills) == fills + [FillAgainst(t, makers[0], q)] + rest.fills;
  }

  lemma MatchDone(t: Taker, makers: seq<Maker>, remaining: real, fills: seq<Fill>)
    requires remaining <= 0.0 || makers == [] || !MayTrade(t, makers[0])
    ensures Continue(t, makers, remaining, fills) ==
            Outcome(fills, makers, remaining, remaining > 0.0 && makers != [] && Reaches(t, makers[0]))
  {
    assert fills + [] == fills;
  }

  lemma NothingYet(t: Taker, makers: seq<Maker>, remaining: real)
    ensures Continue(t, makers, remaining, []) == Match(t, makers, remaining)
  {
  }

  class MatchingEngine {
    const book: OrderBook
    var sequence: nat

    constructor (book: OrderBook)
      ensures this.book == book && sequence == 0
    {
      this.book, this.sequence := book, 0;
    }

    ghost function View(): Engine
      reads this, book
    {
      Engine(book.Orders(Buy), book.Orders(Sell), sequence)
    }

    ghost predicate Valid()
      reads this, book
    {
      book.Valid() && EngineValid(View())
    }

    lemma BookIsValid()
      requires Valid()
      ensures book.Valid()
    {
    }

    /** Matches the order against the opposing side, then rests or drops what is left of it. */
    method Submit(input: Input) returns (r: Result<SubmitResult>)
      requires book.Valid()
      modifies this, book
      ensures book.Valid()
      ensures old(Valid() && FreshId(View(), input.id)) ==> Valid()
      ensures !Acceptable(input) ==> r == Err(BadRequest) && View() == old(View())
      ensures Acceptable(input) ==> r.Ok? && (View(), r.value) == EngineSpec.Submit(old(View()), input)
    {
      hide EngineValid, SideValid, Match, Insert, LevelsValid;
      if input.orderType == Limit && input.price.None? {
        return Err(BadRequest);
      }
      if input.quantity <= 0.0 {
        return Err(BadRequest);
      }
      ghost var before := View();
      sequence := sequence + 1;
      var fills, remaining, selfTradePrevented := MatchBook(input);
      var status := Rest(input, remaining, fills != [], selfTradePrevented);
      r := Ok(SubmitResult(input.id, status, fills, remaining, selfTradePrevented));
      assert (View(), r.value) == EngineSpec.Submit(before, input);
      if EngineValid(before) && FreshId(before, input.id) {
        SubmitKeepsValid(before, input);
      }
    }

    /** The matching loop: takes from the best opposing order until the taker is filled, nothing
        crosses, or the taker meets their own order. */
    method MatchBook(input: Input) returns (fills: seq<Fill>, remaining: real, selfTradePrevented: bool)
      requires book.Valid()
      modifies book
      ensures book.Valid()
      ensures var o := Match(TakerOf(input), old(book.Orders(Opposite(input.side))), input.quantity);
              o == Outcome(fills, book.Orders(Opposite(input.side)), remaining, selfTradePrevented)
      ensures book.Orders(input.side) == old(book.Orders(input.side))
    {
      hide Match, Continue, OrderBook.Valid, OrderBook.Orders, Notional;
      var opposing := Opposite(input.side);
      var taker := TakerOf(input);
      ghost var before := book.Orders(opposing);
      fills, remaining, selfTradePrevented := [], input.quantity, false;
      NothingYet(taker, before, remaining);

      while remaining > 0.0
        invariant book.Valid() && book.Orders(input.side) == old(book.Orders(input.side))
        invariant !selfTradePrevented
        invariant Continue(taker, book.Orders(opposing), remaining, fills) == Match(taker, before, input.quantity)
        decreases |book.Orders(opposing)|, if remaining > 0.0 then 1 else 0
      {
        var best := book.Best(opposing);
        if best.None? {
          break;
        }
        var maker := best.value;
        if taker.limit.Some? && !Crosses(taker.side, taker.limit.value, maker.price) {
          break;
        }
        if maker.userId == taker.userId {
          selfTradePrevented := true;
          break;
        }
        ghost var makers := book.Orders(opposing);
        MatchStep(taker, makers, remaining, fills);
        var quantity := Min(maker.remaining, remaining);
        fills := fills + [FillAgainst(taker, maker, quantity)];
        book.ReduceBest(opposing, quantity);
        remaining := remaining - quantity;
        if maker.remaining - quantity == 0.0 {
          book.RemoveBest(opposing);
        }
        assert book.Orders(opposing) == Taken(makers, quantity);
      }
      MatchDone(taker, book.Orders(opposing), remaining, fills);
    }

    /** Rests an unfilled limit order that was not stopped; every other remainder is dropped. */
    method Rest(input: Input, remaining: real, hasFills: bool, stopped: bool) returns (status: SubmitStatus)
      requires Acceptable(input) && book.Valid()
      modifies book
      ensures book.Valid()
      ensures status == Finalize(input, remaining, hasFills, stopped)
      ensures book.Orders(input.side) == OwnSide(input, old(book.Orders(input.side)), remaining, stopped, sequence)
      ensures book.Orders(Opposite(input.side)) == old(book.Orders(Opposite(input.side)))
    {
      if remaining == 0.0 {
        return FullyFilled;
      }
      if input.orderType == Limit && !stopped {
        book.Add(Maker(input.id, input.userId, input.side, input.price.value, remaining, sequence));
        return if hasFills then RestsPartlyFilled else Rests;
      }
      return if hasFills then CancelledPartlyFilled else CancelledUnfilled;
    }

    /** Takes a resting order off the book; false if it is not there. */
    method Cancel(orderId: OrderId) returns (removed: bool)
      requires Valid()
      modifies book
      ensures Valid()
      ensures View() == EngineSpec.Cancel(old(View()), orderId)
      ensures removed <==> !FreshId(old(View()), orderId)
    {
      CancelRemoves(View(), orderId);
      DeleteAbsentIf(View().bids, orderId);
      removed := book.Remove(orderId);
    }
  }

  lemma DeleteAbsentIf(s: seq<Maker>, id: OrderId)
    ensures id !in Ids(s) ==> Delete(s, id) == s
  {
    if id !in Ids(s) {
      DeleteAbsent(s, id);
    }
  }
}
