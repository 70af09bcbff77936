/** The matching engine of one market as a value: two flat book sides and the arrival counter. */
module EngineSpec {
  import opened Types
  import opened BookSide
  import opened Matching
  import opened MatchingFacts

  datatype Engine = Engine(bids: seq<Maker>, asks: seq<Maker>, sequence: nat)

  const EMPTY: Engine := Engine([], [], 0)

  function SideOf(e: Engine, side: Side): seq<Maker> {
    if side == Buy then e.bids else e.asks
  }

  datatype Input = Input(
    id: OrderId,
    userId: UserId,
    side: Side,
    orderType: OrderType,
    price: Option<real>,
    quantity: real)

  /** FILLED, PARTIALLY_FILLED_RESTING, RESTING, PARTIALLY_FILLED_CANCELLED and CANCELLED. */
  datatype SubmitStatus = FullyFilled | RestsPartlyFilled | Rests | CancelledPartlyFilled | CancelledUnfilled

  datatype SubmitResult = SubmitResult(
    orderId: OrderId,
    status: SubmitStatus,
    fills: seq<Fill>,
    remaining: real,
    selfTradePrevented: bool)

  function TakerOf(input: Input): Taker {
    Taker(input.id, input.userId, input.side, if input.orderType == Limit then input.price else None)
  }

  function MatchOf(e: Engine, input: Input): Outcome {
    Match(TakerOf(input), SideOf(e, Opposite(input.side)), input.quantity)
  }

  /** Whether what is left of the order goes on the book. */
  predicate Stays(input: Input, remaining: real, stopped: bool) {
    remaining != 0.0 && input.orderType == Limit && !stopped
  }

  function Finalize(input: Input, remaining: real, hasFills: bool, stopped: bool): SubmitStatus {
    if remaining == 0.0 then FullyFilled
    else if Stays(input, remaining, stopped) then (if hasFills then RestsPartlyFilled else Rests)
    else (if hasFills then CancelledPartlyFilled else CancelledUnfilled)
  }

  predicate Acceptable(input: Input) {
    (input.orderType == Limit ==> input.price.Some?) && input.quantity > 0.0
  }

  function Remainder(input: Input, remaining: real, sequence: nat): Maker
    requires Acceptable(input) && input.orderType == Limit
  {
    Maker(input.id, input.userId, input.side, input.price.value, remaining, sequence)
  }

  /** Where a taker leaves its own side. */
  function OwnSide(input: Input, own: seq<Maker>, remaining: real, stopped: bool, sequence: nat): seq<Maker>
    requires Acceptable(input)
  {
    if Stays(input, remaining, stopped) then Insert(input.side, own, Remainder(input, remaining, sequence)) else own
  }

  function Submit(e: Engine, input: Input): (Engine, SubmitResult)
    requires Acceptable(input)
  {
    var o, sequence := MatchOf(e, input), e.sequence + 1;
    var own := OwnSide(input, SideOf(e, input.side), o.remaining, o.stopped, sequence);
    (if input.side == Buy then Engine(own, o.makers, sequence) else Engine(o.makers, own, sequence),
     SubmitResult(input.id, Finalize(input, o.remaining, o.fills != [], o.stopped), o.fills, o.remaining, o.stopped))
  }

  /** The bids are searched before the asks. */
  function Cancel(e: Engine, id: OrderId): Engine {
    if id in Ids(e.bids) then e.(bids := Delete(e.bids, id))
    else e.(asks := Delete(e.asks, id))
  }

  /** Both sides well formed, no id twice, and no order from the future. */
  ghost predicate EngineValid(e: Engine) {
    && SideValid(Buy, e.bids)
    && SideValid(Sell, e.asks)
    && Ids(e.bids) !! Ids(e.asks)
    && (forall m | m in e.bids || m in e.asks :: m.sequence <= e.sequence)
  }

  /** Best bid below best ask. */
  ghost predicate Uncrossed(e: Engine) {
    e.bids != [] && e.asks != [] ==> e.bids[0].price < e.asks[0].price
  }

  lemma UncrossedEverywhere(e: Engine)
    requires EngineValid(e)
    ensures Uncrossed(e) <==> forall b, a | b in e.bids && a in e.asks :: b.price < a.price
  {
    BestIsBest(Buy, e.bids);
    BestIsBest(Sell, e.asks);
    if e.bids != [] && e.asks != [] {
      assert e.bids[0] in e.bids && e.asks[0] in e.asks;
    }
  }

  lemma BestIsBest(side: Side, s: seq<Maker>)
    requires SideValid(side, s)
    ensures forall m | m in s :: !Better(side, m.price, s[0].price)
  {
    if s != [] {
      assert s == [s[0]] + s[1..];
    }
  }

  ghost predicate FreshId(e: Engine, id: OrderId) {
    id !in Ids(e.bids) && id !in Ids(e.asks)
  }

  lemma IdsReduced(left: seq<Maker>, makers: seq<Maker>)
    requires forall m' | m' in left :: exists m :: m in makers && ReducedFrom(m', m)
    ensures Ids(left) <= Ids(makers)
  {
  }

  /** The taker's own side with what is left of it. */
  lemma OwnSideValid(e: Engine, input: Input, remaining: real, stopped: bool)
    requires EngineValid(e) && Acceptable(input) && FreshId(e, input.id) && remaining >= 0.0
    ensures var own, own' := SideOf(e, input.side), OwnSide(input, SideOf(e, input.side), remaining, stopped, e.sequence + 1);
            && SideValid(input.side, own') && Ids(own') <= Ids(own) + {input.id}
            && forall m | m in own' :: m.sequence <= e.sequence + 1
  {
    hide SideValid, Insert;
    var own := SideOf(e, input.side);
    if Stays(input, remaining, stopped) {
      var rest := Remainder(input, remaining, e.sequence + 1);
      assert forall m | m in own :: m.id in Ids(own);
      InsertMembers(input.side, own, rest);
      InsertValid(input.side, own, rest);
    }
  }

  /** What a match leaves of the opposing side. */
  lemma OpposingValid(e: Engine, t: Taker, quantity: real)
    requires EngineValid(e)
    ensures var opposing, left := SideOf(e, Opposite(t.side)), Match(t, SideOf(e, Opposite(t.side)), quantity).makers;
            && SideValid(Opposite(t.side), left) && Ids(left) <= Ids(opposing)
            && forall m | m in left :: m.sequence <= e.sequence
  {
    hide SideValid, Match;
    var opposing := SideOf(e, Opposite(t.side));
    MatchKeepsSide(t, opposing, quantity);
    IdsReduced(Match(t, opposing, quantity).makers, opposing);
  }

  /** `submit` keeps the engine well formed. */
  lemma SubmitKeepsValid(e: Engine, input: Input)
    requires EngineValid(e) && Acceptable(input) && FreshId(e, input.id)
    ensures EngineValid(Submit(e, input).0)
  {
    hide SideValid, Match, OwnSide, Ids;
    var t, o, opposing := TakerOf(input), MatchOf(e, input), SideOf(e, Opposite(input.side));
    OpposingValid(e, t, input.quantity);
    MembersReduced(Opposite(input.side), opposing);
    MatchConserves(t, opposing, input.quantity);
    OwnSideValid(e, input, o.remaining, o.stopped);
  }

  /** `submit` never leaves the book crossed, whatever stopped it. */
  lemma SubmitKeepsUncrossed(e: Engine, input: Input)
    requires EngineValid(e) && Acceptable(input) && FreshId(e, input.id) && Uncrossed(e)
    ensures Uncrossed(Submit(e, input).0)
  {
    hide Match, SideValid, Insert, Uncrossed;
    var t, o, opposing := TakerOf(input), MatchOf(e, input), SideOf(e, Opposite(input.side));
    UncrossedEverywhere(e);
    SubmitKeepsValid(e, input);
    UncrossedEverywhere(Submit(e, input).0);
    MatchKeepsSide(t, opposing, input.quantity);
    MatchConserves(t, opposing, input.quantity) by { MembersReduced(Opposite(input.side), opposing); }
    MatchExhausts(t, opposing, input.quantity);
    if Stays(input, o.remaining, o.stopped) {
      InsertMembers(input.side, SideOf(e, input.side), Remainder(input, o.remaining, e.sequence + 1));
    }
  }

  /** `cancel` takes the order off the book and changes nothing else. */
  lemma CancelRemoves(e: Engine, id: OrderId)
    requires EngineValid(e)
    ensures var e' := Cancel(e, id);
            && EngineValid(e')
            && e'.sequence == e.sequence
            && (Uncrossed(e) ==> Uncrossed(e'))
            && (forall m :: m in e'.bids <==> m in e.bids && m.id != id)
            && (forall m :: m in e'.asks <==> m in e.asks && m.id != id)
  {
    DeleteValid(Buy, e.bids, id);
    DeleteValid(Sell, e.asks, id);
    assert forall m | m in e.bids :: m.id in Ids(e.bids);
    assert forall m | m in e.asks :: m.id in Ids(e.asks);
    UncrossedEverywhere(e);
    UncrossedEverywhere(Cancel(e, id));
  }
}
