/** Price-time matching on flat book sides: what `MatchingEngine.submit` computes. */
module Matching {
  import opened Types
  import opened BookSide

  datatype Fill = Fill(
    makerOrderId: OrderId,
    takerOrderId: OrderId,
    makerUserId: UserId,
    takerUserId: UserId,
    price: real,
    quantity: real,
    quoteAmount: real)

  /** The incoming order; a market order has no limit. */
  datatype Taker = Taker(id: OrderId, userId: UserId, side: Side, limit: Option<real>)

  predicate Crosses(side: Side, takerPrice: real, makerPrice: real) {
    if side == Buy then takerPrice >= makerPrice else takerPrice <= makerPrice
  }

  predicate Reaches(t: Taker, m: Maker) {
    t.limit.Some? ==> Crosses(t.side, t.limit.value, m.price)
  }

  function FillAgainst(t: Taker, m: Maker, quantity: real): Fill {
    Fill(m.id, t.id, m.userId, t.userId, m.price, quantity, Notional(m.price, quantity))
  }

  datatype Outcome = Outcome(fills: seq<Fill>, makers: seq<Maker>, remaining: real, stopped: bool)

  /** Takes from the best maker until the taker is filled, nothing crosses, or the taker meets
      their own order. */
  function Match(t: Taker, makers: seq<Maker>, remaining: real): Outcome
    decreases |makers|
  {
    if remaining <= 0.0 || makers == [] || !Reaches(t, makers[0]) then
      Outcome([], makers, remaining, false)
    else if makers[0].userId == t.userId then
      Outcome([], makers, remaining, true)
    else
      var quantity := Min(makers[0].remaining, remaining);
      var fill := FillAgainst(t, makers[0], quantity);
      if makers[0].remaining - quantity == 0.0 then
        var rest := Match(t, makers[1..], remaining - quantity);
        rest.(fills := [fill] + rest.fills)
      else
        var reduced := makers[0].(remaining := makers[0].remaining - quantity);
        Outcome([fill], [reduced] + makers[1..], remaining - quantity, false)
  }

  ghost function FilledQuantity(fills: seq<Fill>): real {
    if fills == [] then 0.0 else fills[0].quantity + FilledQuantity(fills[1..])
  }

  ghost function QuoteTotal(fills: seq<Fill>): real {
    if fills == [] then 0.0 else fills[0].quoteAmount + QuoteTotal(fills[1..])
  }

  // ---------------------------------------------------------------------------
  // Price-time priority, stated without the loop
  // ---------------------------------------------------------------------------

  ghost predicate MayTrade(t: Taker, m: Maker) {
    Reaches(t, m) && m.userId != t.userId
  }

  /** What the makers look like once the first `n` have been taken, the last of them down to `left`. */
  ghost function After(makers: seq<Maker>, n: nat, left: real): seq<Maker>
    requires n <= |makers|
  {
    if n == 0 || left == 0.0 then makers[n..]
    else [makers[n - 1].(remaining := left)] + makers[n..]
  }

  /** What the last of the first `n` makers keeps. */
  ghost function LeftOnLast(makers: seq<Maker>, fills: seq<Fill>): real
    requires |fills| <= |makers|
  {
    if fills == [] then 0.0 else makers[|fills| - 1].remaining - fills[|fills| - 1].quantity
  }

  /** The fills take a prefix of the makers, each at its own price. */
  ghost predicate TakesPrefix(t: Taker, makers: seq<Maker>, fills: seq<Fill>) {
    && |fills| <= |makers|
    && forall i | 0 <= i < |fills| ::
         MayTrade(t, makers[i]) && fills[i] == FillAgainst(t, makers[i], fills[i].quantity)
  }

  /** Every maker but the last is taken in full, the last as far as the taker needs. */
  ghost predicate TakesInFull(makers: seq<Maker>, fills: seq<Fill>)
    requires |fills| <= |makers|
  {
    && (forall i | 0 <= i < |fills| - 1 :: fills[i].quantity == makers[i].remaining)
    && (fills != [] ==> 0.0 < fills[|fills| - 1].quantity <= makers[|fills| - 1].remaining)
  }

  /** Matching ends only when the taker is filled, nothing is left, the next maker does not cross,
      or the next maker is the taker; only the last stops the order. */
  ghost predicate StopsRight(t: Taker, makers: seq<Maker>, o: Outcome)
    requires |o.fills| <= |makers|
  {
    var n := |o.fills|;
    && o.remaining >= 0.0
    && (o.remaining > 0.0 ==> LeftOnLast(makers, o.fills) == 0.0 && (n < |makers| ==> !MayTrade(t, makers[n])))
    && (o.stopped <==> o.remaining > 0.0 && n < |makers| && Reaches(t, makers[n]) && makers[n].userId == t.userId)
  }

  ghost predicate PriceTimePriority(t: Taker, makers: seq<Maker>, quantity: real, o: Outcome) {
    && TakesPrefix(t, makers, o.fills)
    && TakesInFull(makers, o.fills)
    && StopsRight(t, makers, o)
    && o.remaining == quantity - FilledQuantity(o.fills)
    && o.makers == After(makers, |o.fills|, LeftOnLast(makers, o.fills))
  }

  lemma TakesCons(t: Taker, best: Maker, worse: seq<Maker>, rest: seq<Fill>, first: Fill)
    requires MayTrade(t, best) && best.remaining > 0.0
    requires first == FillAgainst(t, best, best.remaining)
    requires TakesPrefix(t, worse, rest) && TakesInFull(worse, rest)
    ensures TakesPrefix(t, [best] + worse, [first] + rest) && TakesInFull([best] + worse, [first] + rest)
  {
  }

  lemma PriorityCons(t: Taker, best: Maker, worse: seq<Maker>, quantity: real, rest: Outcome)
    requires MayTrade(t, best) && best.remaining > 0.0
    requires PriceTimePriority(t, worse, quantity - best.remaining, rest)
    ensures PriceTimePriority(t, [best] + worse, quantity,
                              rest.(fills := [FillAgainst(t, best, best.remaining)] + rest.fills))
  {
    var first := FillAgainst(t, best, best.remaining);
    TakesCons(t, best, worse, rest.fills, first);
    assert ([first] + rest.fills)[1..] == rest.fills;
    assert ([best] + worse)[|rest.fills| + 1..] == worse[|rest.fills|..];
  }

  lemma PriorityPartial(t: Taker, m: Maker, worse: seq<Maker>, quantity: real)
    requires MayTrade(t, m) && 0.0 < quantity < m.remaining
    ensures PriceTimePriority(t, [m] + worse, quantity, Match(t, [m] + worse, quantity))
  {
    var makers := [m] + worse;
    assert makers[1..] == worse;
    var o := Match(t, makers, quantity);
    assert o.fills == [FillAgainst(t, m, quantity)] && o.fills[1..] == [];
    assert TakesPrefix(t, makers, o.fills) && TakesInFull(makers, o.fills);
  }

  lemma PriorityNone(t: Taker, makers: seq<Maker>, quantity: real)
    requires quantity >= 0.0
    requires quantity > 0.0 && makers != [] ==> !MayTrade(t, makers[0])
    ensures PriceTimePriority(t, makers, quantity, Match(t, makers, quantity))
  {
    assert TakesPrefix(t, makers, []) && TakesInFull(makers, []);
  }

  /** Matching is price-time priority. */
  lemma {:induction false} MatchHasPriority(t: Taker, makers: seq<Maker>, quantity: real)
    requires forall m | m in makers :: m.remaining > 0.0
    requires quantity >= 0.0
    ensures PriceTimePriority(t, makers, quantity, Match(t, makers, quantity))
    decreases |makers|
  {
    hide PriceTimePriority;
    if quantity <= 0.0 || makers == [] || !MayTrade(t, makers[0]) {
      PriorityNone(t, makers, quantity);
      return;
    }
    var best, worse := makers[0], makers[1..];
    assert makers == [best] + worse;
    if best.remaining <= quantity {
      MatchHasPriority(t, worse, quantity - best.remaining);
      PriorityCons(t, best, worse, quantity, Match(t, worse, quantity - best.remaining));
    } else {
      PriorityPartial(t, best, worse, quantity);
    }
  }

  lemma {:induction false} FilledNonNegative(fills: seq<Fill>)
    requires forall f | f in fills :: f.quantity > 0.0
    ensures FilledQuantity(fills) >= 0.0
  {
    if fills != [] {
      assert fills[0] in fills;
      assert forall f | f in fills[1..] :: f in fills;
      FilledNonNegative(fills[1..]);
    }
  }

  lemma TakesTail(t: Taker, best: Maker, worse: seq<Maker>, first: Fill, rest: seq<Fill>)
    requires TakesPrefix(t, [best] + worse, [first] + rest) && TakesInFull([best] + worse, [first] + rest)
    ensures TakesPrefix(t, worse, rest) && TakesInFull(worse, rest)
    ensures first == FillAgainst(t, best, first.quantity) && MayTrade(t, best)
    ensures first.quantity > 0.0 || rest != []
    ensures rest != [] ==> first.quantity == best.remaining
  {
    var makers, fills := [best] + worse, [first] + rest;
    assert makers[0] == best && fills[0] == first;
    forall i | 0 <= i < |rest| ensures MayTrade(t, worse[i]) && rest[i] == FillAgainst(t, worse[i], rest[i].quantity) {
      assert makers[i + 1] == worse[i] && fills[i + 1] == rest[i];
    }
    forall i | 0 <= i < |rest| - 1 ensures rest[i].quantity == worse[i].remaining {
      assert makers[i + 1] == worse[i] && fills[i + 1] == rest[i];
    }
    assert rest != [] ==> makers[|rest|] == worse[|rest| - 1] && fills[|rest|] == rest[|rest| - 1];
  }

  lemma PriorityTail(t: Taker, best: Maker, worse: seq<Maker>, quantity: real, first: Fill, rest: seq<Fill>, o: Outcome)
    requires PriceTimePriority(t, [best] + worse, quantity, o)
    requires o.fills == [first] + rest && first.quantity == best.remaining
    ensures PriceTimePriority(t, worse, quantity - best.remaining, o.(fills := rest))
  {
    TakesTail(t, best, worse, first, rest);
    assert o.fills[1..] == rest;
    assert ([best] + worse)[|rest| + 1..] == worse[|rest|..];
  }

  lemma {:induction false} TakenIsPositive(makers: seq<Maker>, fills: seq<Fill>)
    requires forall m | m in makers :: m.remaining > 0.0
    requires |fills| <= |makers| && TakesInFull(makers, fills)
    ensures forall f | f in fills :: f.quantity > 0.0
    ensures FilledQuantity(fills) >= 0.0
  {
    forall f | f in fills ensures f.quantity > 0.0 {
      var i :| 0 <= i < |fills| && fills[i] == f;
      assert makers[i] in makers;
    }
    FilledNonNegative(fills);
  }

  lemma PriorityHead(t: Taker, best: Maker, worse: seq<Maker>, quantity: real, first: Fill, rest: seq<Fill>, o: Outcome)
    requires PriceTimePriority(t, [best] + worse, quantity, o)
    requires o.fills == [first] + rest
    requires forall m | m in worse :: m.remaining > 0.0
    ensures first == FillAgainst(t, best, first.quantity) && MayTrade(t, best)
    ensures 0.0 < first.quantity <= quantity || first.quantity == best.remaining <= quantity
    ensures first.quantity != best.remaining ==>
              && 0.0 < first.quantity < best.remaining
              && o == Outcome([first], [best.(remaining := best.remaining - first.quantity)] + worse, 0.0, false)
              && first.quantity == quantity
  {
    TakesTail(t, best, worse, first, rest);
    TakenIsPositive(worse, rest);
    assert o.fills[1..] == rest;
    if first.quantity != best.remaining {
      assert rest == [] && FilledQuantity(rest) == 0.0;
      assert LeftOnLast([best] + worse, o.fills) == best.remaining - first.quantity;
      assert ([best] + worse)[1..] == worse;
    }
  }

  lemma MatchCons(t: Taker, best: Maker, worse: seq<Maker>, quantity: real)
    requires MayTrade(t, best) && quantity > 0.0 && best.remaining > 0.0
    ensures Match(t, [best] + worse, quantity) ==
            if best.remaining <= quantity then
              var rest := Match(t, worse, quantity - best.remaining);
              rest.(fills := [FillAgainst(t, best, best.remaining)] + rest.fills)
            else
              Outcome([FillAgainst(t, best, quantity)], [best.(remaining := best.remaining - quantity)] + worse, 0.0, false)
  {
    assert ([best] + worse)[0] == best && ([best] + worse)[1..] == worse;
  }

  lemma PriorityOfNone(t: Taker, makers: seq<Maker>, quantity: real, o: Outcome)
    requires PriceTimePriority(t, makers, quantity, o) && o.fills == []
    ensures o == Match(t, makers, quantity)
  {
  }

  lemma FillsAreMakers(t: Taker, makers: seq<Maker>, quantity: real, o: Outcome)
    requires PriceTimePriority(t, makers, quantity, o)
    ensures |o.fills| <= |makers|
  {
  }

  /** Price-time priority leaves no choice, so the two definitions are one. */
  lemma {:induction false} PriorityIsUnique(t: Taker, makers: seq<Maker>, quantity: real, o: Outcome)
    requires forall m | m in makers :: m.remaining > 0.0
    requires PriceTimePriority(t, makers, quantity, o)
    ensures o == Match(t, makers, quantity)
    decreases |makers|
  {
    hide PriceTimePriority, Notional, Match, Reaches;
    if o.fills == [] {
      PriorityOfNone(t, makers, quantity, o);
      return;
    }
    FillsAreMakers(t, makers, quantity, o);
    var best, worse, first, rest := makers[0], makers[1..], o.fills[0], o.fills[1..];
    assert makers == [best] + worse && o.fills == [first] + rest;
    PriorityHead(t, best, worse, quantity, first, rest, o);
    MatchCons(t, best, worse, quantity);
    if first.quantity == best.remaining {
      PriorityTail(t, best, worse, quantity, first, rest, o);
      PriorityIsUnique(t, worse, quantity - best.remaining, o.(fills := rest));
    }
  }
}
