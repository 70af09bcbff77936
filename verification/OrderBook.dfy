/** The order book as the source keeps it: sorted arrays of price levels, each a FIFO queue.
    `Flat` reads a side as one list, the form that `BookSide.dfy` specifies. */
module OrderBooks {
  import opened Types
  import opened BookSide

  datatype Level = Level(price: real, orders: seq<Maker>)

  datatype PriceLevel = PriceLevel(price: real, quantity: real)

  /** All orders of a side, best first. */
  function Flat(levels: seq<Level>): seq<Maker> {
    if levels == [] then [] else levels[0].orders + Flat(levels[1..])
  }

  /** Levels strictly best-first. */
  ghost predicate Ranked(side: Side, levels: seq<Level>) {
    forall i, j | 0 <= i < j < |levels| :: Better(side, levels[i].price, levels[j].price)
  }

  /** A level is a non-empty queue of orders of its own price and side. */
  ghost predicate LevelValid(side: Side, l: Level) {
    l.orders != [] && forall o | o in l.orders :: o.price == l.price && o.side == side
  }

  ghost predicate LevelsValid(side: Side, levels: seq<Level>) {
    Ranked(side, levels) && forall l | l in levels :: LevelValid(side, l)
  }

  lemma {:induction false} FlatConcat(a: seq<Level>, b: seq<Level>)
    ensures Flat(a + b) == Flat(a) + Flat(b)
  {
    if a == [] {
      assert a + b == b;
    } else {
      FlatConcat(a[1..], b);
      assert (a + b)[1..] == a[1..] + b && (a + b)[0] == a[0];
      assert Flat(a + b) == a[0].orders + (Flat(a[1..]) + Flat(b));
    }
  }

  lemma {:induction false} FlatMembers(levels: seq<Level>)
    ensures forall o :: o in Flat(levels) <==> exists l :: l in levels && o in l.orders
  {
    if levels != [] {
      FlatMembers(levels[1..]);
      assert levels == [levels[0]] + levels[1..];
    }
  }

  lemma FlatPrices(side: Side, levels: seq<Level>, o: Maker)
    requires LevelsValid(side, levels) && o in Flat(levels)
    ensures exists l :: l in levels && o.price == l.price && o.side == side
  {
    FlatMembers(levels);
    var l :| l in levels && o in l.orders;
    assert LevelValid(side, l);
  }

  lemma RankedConcat(side: Side, a: seq<Level>, b: seq<Level>)
    ensures Ranked(side, a + b) <==>
              Ranked(side, a) && Ranked(side, b) && forall x, y | x in a && y in b :: Better(side, x.price, y.price)
  {
    var ab := a + b;
    if Ranked(side, ab) {
      forall i, j | 0 <= i < j < |a| ensures Better(side, a[i].price, a[j].price) {
        assert ab[i] == a[i] && ab[j] == a[j];
      }
      forall i, j | 0 <= i < j < |b| ensures Better(side, b[i].price, b[j].price) {
        assert ab[|a| + i] == b[i] && ab[|a| + j] == b[j];
      }
      forall x, y | x in a && y in b ensures Better(side, x.price, y.price) {
        var i, j :| 0 <= i < |a| && a[i] == x && 0 <= j < |b| && b[j] == y;
        assert ab[i] == x && ab[|a| + j] == y;
      }
    }
  }

  /** A side is well formed when the parts around a level are and the level's price lies between them. */
  lemma LevelsAround(side: Side, a: seq<Level>, l: Level, b: seq<Level>)
    ensures Flat(a + [l] + b) == Flat(a) + l.orders + Flat(b)
    ensures LevelsValid(side, a + [l] + b) <==>
              && LevelsValid(side, a) && LevelsValid(side, b) && LevelValid(side, l)
              && (forall x | x in a :: Better(side, x.price, l.price))
              && (forall y | y in b :: Better(side, l.price, y.price))
              && (forall x, y | x in a && y in b :: Better(side, x.price, y.price))
  {
    FlatConcat(a + [l], b);
    FlatConcat(a, [l]);
    assert Flat([l]) == l.orders + Flat([]);
    RankedConcat(side, a + [l], b);
    RankedConcat(side, a, [l]);
    hide Ranked;
    if LevelsValid(side, a + [l] + b) {
      assert l in a + [l] + b;
    }
  }

  /** What comes before, at and after the newcomer's price. */
  lemma InsertBetween(side: Side, a: seq<Level>, same: seq<Maker>, b: seq<Level>, order: Maker)
    requires LevelsValid(side, a) && LevelsValid(side, b)
    requires forall l | l in a :: Better(side, l.price, order.price)
    requires forall o | o in same :: o.price == order.price
    requires forall l | l in b :: Better(side, order.price, l.price)
    ensures Insert(side, Flat(a) + same + Flat(b), order) == Flat(a) + same + [order] + Flat(b)
  {
    forall o | o in Flat(a) + same ensures !Better(side, order.price, o.price) {
      if o in Flat(a) {
        FlatPrices(side, a, o);
      }
    }
    forall o | o in Flat(b) ensures Better(side, order.price, o.price) {
      FlatPrices(side, b, o);
    }
    InsertSplit(side, Flat(a) + same, Flat(b), order);
  }

  /** Pushing onto the level of the newcomer's price. */
  lemma PushIsInsert(side: Side, a: seq<Level>, l: Level, b: seq<Level>, order: Maker)
    requires LevelsValid(side, a + [l] + b)
    requires order.side == side && order.price == l.price
    ensures var pushed := a + [Level(l.price, l.orders + [order])] + b;
            LevelsValid(side, pushed) && Flat(pushed) == Insert(side, Flat(a + [l] + b), order)
  {
    hide Ranked, Insert, Flat;
    var l' := Level(l.price, l.orders + [order]);
    LevelsAround(side, a, l, b);
    LevelsAround(side, a, l', b);
    InsertBetween(side, a, l.orders, b, order);
    assert Flat(a) + l'.orders + Flat(b) == Flat(a) + l.orders + [order] + Flat(b);
  }

  /** Splicing in a level of the newcomer's own. */
  lemma SpliceIsInsert(side: Side, a: seq<Level>, b: seq<Level>, order: Maker)
    requires LevelsValid(side, a + b)
    requires order.side == side
    requires forall l | l in a :: Better(side, l.price, order.price)
    requires forall l | l in b :: Better(side, order.price, l.price)
    ensures var spliced := a + [Level(order.price, [order])] + b;
            LevelsValid(side, spliced) && Flat(spliced) == Insert(side, Flat(a + b), order)
  {
    hide Ranked, Insert, Flat;
    RankedConcat(side, a, b);
    LevelsAround(side, a, Level(order.price, [order]), b);
    FlatConcat(a, b);
    InsertBetween(side, a, [], b, order);
    assert Flat(a) + [] + Flat(b) == Flat(a) + Flat(b);
    assert Flat(a) + [] + [order] + Flat(b) == Flat(a) + [order] + Flat(b);
  }

  /** No order of the queue carries the id. */
  ghost predicate Absent(orders: seq<Maker>, id: OrderId) {
    forall o | o in orders :: o.id != id
  }

  /** The side once order `k` of the level between `a` and `b` is spliced out. */
  function SplicedOut(a: seq<Level>, l: Level, k: nat, b: seq<Level>): seq<Level>
    requires k < |l.orders|
  {
    var left := l.orders[..k] + l.orders[k + 1..];
    if left == [] then a + b else a + [Level(l.price, left)] + b
  }

  lemma SplicedOutValid(side: Side, a: seq<Level>, l: Level, k: nat, b: seq<Level>)
    requires LevelsValid(side, a + [l] + b) && k < |l.orders|
    ensures LevelsValid(side, SplicedOut(a, l, k, b))
  {
    hide Ranked;
    LevelsAround(side, a, l, b);
    var left := l.orders[..k] + l.orders[k + 1..];
    if left == [] {
      RankedConcat(side, a, b);
    } else {
      LevelsAround(side, a, Level(l.price, left), b);
    }
  }

  lemma SplicedOutFlat(a: seq<Level>, l: Level, k: nat, b: seq<Level>)
    requires k < |l.orders|
    ensures Flat(a + [l] + b) == Flat(a) + l.orders[..k] + [l.orders[k]] + (l.orders[k + 1..] + Flat(b))
    ensures Flat(SplicedOut(a, l, k, b)) == Flat(a) + l.orders[..k] + (l.orders[k + 1..] + Flat(b))
  {
    hide LevelsValid, Flat;
    LevelsAround(Buy, a, l, b);
    assert l.orders == l.orders[..k] + [l.orders[k]] + l.orders[k + 1..];
    var left := l.orders[..k] + l.orders[k + 1..];
    if left == [] {
      FlatConcat(a, b);
    } else {
      LevelsAround(Buy, a, Level(l.price, left), b);
    }
  }

  /** Splicing out the first order with its id is `Delete`. */
  lemma FoundIsDelete(side: Side, levels: seq<Level>, i: nat, k: nat)
    requires LevelsValid(side, levels) && i < |levels| && k < |levels[i].orders|
    requires Absent(Flat(levels[..i]) + levels[i].orders[..k], levels[i].orders[k].id)
    ensures var out := SplicedOut(levels[..i], levels[i], k, levels[i + 1..]);
            && LevelsValid(side, out)
            && Flat(out) == Delete(Flat(levels), levels[i].orders[k].id)
            && levels[i].orders[k] in Flat(levels)
  {
    hide LevelsValid, SplicedOut;
    var a, l, b := levels[..i], levels[i], levels[i + 1..];
    assert levels == a + [l] + b;
    SplicedOutValid(side, a, l, k, b);
    SplicedOutFlat(a, l, k, b);
    DeleteSplit(Flat(a) + l.orders[..k], l.orders[k], l.orders[k + 1..] + Flat(b));
  }

  lemma HeadReplaced(side: Side, levels: seq<Level>, best: Maker)
    requires LevelsValid(side, levels) && levels != [] && levels[0].orders != []
    requires best.price == levels[0].orders[0].price && best.side == levels[0].orders[0].side
    ensures var levels' := [Level(levels[0].price, [best] + levels[0].orders[1..])] + levels[1..];
            LevelsValid(side, levels') && Flat(levels') == [best] + Flat(levels)[1..]
  {
    var level, worse := levels[0], levels[1..];
    var level' := Level(level.price, [best] + level.orders[1..]);
    assert LevelValid(side, level) ==> LevelValid(side, level') by {
      assert level.orders[0] in level.orders;
    }
    hide LevelValid, LevelsValid, Ranked;
    SplitHead(side, levels);
    SplitHead(side, [level'] + worse);
    assert Flat(levels)[1..] == level.orders[1..] + Flat(worse);
  }

  lemma NoneIsFlat()
    ensures Flat([]) == []
  {
  }

  lemma HeadRemoved(side: Side, levels: seq<Level>)
    requires LevelsValid(side, levels) && levels != []
    ensures levels[0].orders != []
    ensures var left := SplicedOut([], levels[0], 0, levels[1..]);
            LevelsValid(side, left) && Flat(left) == Flat(levels)[1..] && Flat(levels) != []
  {
    assert levels == [] + [levels[0]] + levels[1..];
    assert LevelValid(side, levels[0]);
    SplicedOutValid(side, [], levels[0], 0, levels[1..]);
    SplicedOutFlat([], levels[0], 0, levels[1..]);
  }

  lemma SplitHead(side: Side, levels: seq<Level>)
    requires levels != []
    ensures Flat(levels) == levels[0].orders + Flat(levels[1..])
    ensures LevelsValid(side, levels) <==>
              && LevelsValid(side, levels[1..]) && LevelValid(side, levels[0])
              && (forall y | y in levels[1..] :: Better(side, levels[0].price, y.price))
  {
    assert LevelsValid(side, []);
    hide Ranked, LevelsValid, LevelValid;
    assert levels == [] + [levels[0]] + levels[1..];
    LevelsAround(side, [], levels[0], levels[1..]);
  }

  /** Well-formed levels are determined by the flat side they hold. */
  lemma {:induction false} LevelsAreDetermined(side: Side, a: seq<Level>, b: seq<Level>)
    requires LevelsValid(side, a) && LevelsValid(side, b) && Flat(a) == Flat(b)
    ensures a == b
  {
    hide Flat, LevelsValid, LevelValid;
    HeadPrice(side, a);
    HeadPrice(side, b);
    if a != [] {
      SplitHead(side, a);
      SplitHead(side, b);
      FirstLevelIsLonger(side, a[0], a[1..], b[0], b[1..]);
      FirstLevelIsLonger(side, b[0], b[1..], a[0], a[1..]);
      assert Flat(a)[..|a[0].orders|] == a[0].orders && Flat(b)[..|a[0].orders|] == b[0].orders;
      assert Flat(a)[|a[0].orders|..] == Flat(a[1..]) && Flat(b)[|a[0].orders|..] == Flat(b[1..]);
      LevelsAreDetermined(side, a[1..], b[1..]);
      assert a == [a[0]] + a[1..] && b == [b[0]] + b[1..];
    }
  }

  lemma FirstLevelIsLonger(side: Side, l: Level, rest: seq<Level>, m: Level, more: seq<Level>)
    requires LevelValid(side, l) && LevelsValid(side, rest) && LevelValid(side, m)
    requires l.price == m.price && forall y | y in rest :: Better(side, l.price, y.price)
    requires l.orders + Flat(rest) == m.orders + Flat(more)
    ensures |m.orders| <= |l.orders|
  {
    if |l.orders| < |m.orders| {
      var o := m.orders[|l.orders|];
      assert o == (m.orders + Flat(more))[|l.orders|] == Flat(rest)[0];
      assert o in m.orders && o in Flat(rest);
      FlatPrices(side, rest, o);
    }
  }

  // ---------------------------------------------------------------------------
  // The aggregated view
  // ---------------------------------------------------------------------------

  /** What a queue has left in all. */
  function RemainingTotal(orders: seq<Maker>): real {
    if orders == [] then 0.0 else orders[0].remaining + RemainingTotal(orders[1..])
  }

  /** A depth view of a side: its best prices, best first, each with all that stands at it; a price is
      missing only behind a full view. */
  ghost predicate Shows(side: Side, orders: seq<Maker>, depth: nat, view: seq<PriceLevel>) {
    && |view| <= depth
    && (forall i, j | 0 <= i < j < |view| :: Better(side, view[i].price, view[j].price))
    && (forall i | 0 <= i < |view| ::
          AtPrice(orders, view[i].price) != [] && view[i].quantity == RemainingTotal(AtPrice(orders, view[i].price)))
    && (forall o | o in orders ::
          || (exists i :: 0 <= i < |view| && view[i].price == o.price)
          || (|view| == depth && forall i | 0 <= i < |view| :: Better(side, view[i].price, o.price)))
  }

  lemma AtPriceCons(o: Maker, s: seq<Maker>, p: real)
    ensures AtPrice([o] + s, p) == (if o.price == p then [o] else []) + AtPrice(s, p)
  {
    assert ([o] + s)[1..] == s;
  }

  lemma {:induction false} AtPriceConcat(a: seq<Maker>, b: seq<Maker>, p: real)
    ensures AtPrice(a + b, p) == AtPrice(a, p) + AtPrice(b, p)
  {
    hide AtPrice;
    if a == [] {
      assert a + b == b;
      NothingAtPrice(p);
    } else {
      var head := if a[0].price == p then [a[0]] else [];
      AtPriceConcat(a[1..], b, p);
      AtPriceCons(a[0], a[1..], p);
      AtPriceCons(a[0], a[1..] + b, p);
      assert a == [a[0]] + a[1..] && a + b == [a[0]] + (a[1..] + b);
      assert head + AtPrice(a[1..], p) + AtPrice(b, p) == head + (AtPrice(a[1..], p) + AtPrice(b, p));
    }
  }

  lemma NothingAtPrice(p: real)
    ensures AtPrice([], p) == []
  {
  }

  lemma {:induction false} AllAtPrice(s: seq<Maker>, p: real)
    ensures (forall o | o in s :: o.price == p) ==> AtPrice(s, p) == s
    ensures (forall o | o in s :: o.price != p) ==> AtPrice(s, p) == []
  {
    if s != [] {
      assert s == [s[0]] + s[1..];
      AllAtPrice(s[1..], p);
    }
  }

  /** A level holds exactly the orders at its price. */
  lemma LevelIsQueue(side: Side, levels: seq<Level>, i: nat)
    requires LevelsValid(side, levels) && i < |levels|
    ensures AtPrice(Flat(levels), levels[i].price) == levels[i].orders
  {
    hide Ranked, AtPrice, Flat;
    var a, l, b := levels[..i], levels[i], levels[i + 1..];
    assert levels == a + [l] + b;
    LevelsAround(side, a, l, b);
    AtPriceConcat(Flat(a) + l.orders, Flat(b), l.price);
    AtPriceConcat(Flat(a), l.orders, l.price);
    AllAtPrice(l.orders, l.price);
    forall o | o in Flat(a) ensures o.price != l.price {
      FlatPrices(side, a, o);
    }
    forall o | o in Flat(b) ensures o.price != l.price {
      FlatPrices(side, b, o);
    }
    AllAtPrice(Flat(a), l.price);
    AllAtPrice(Flat(b), l.price);
  }

  /** Summing up the first `depth` levels shows the side. */
  lemma LevelsShow(side: Side, levels: seq<Level>, depth: nat, view: seq<PriceLevel>)
    requires LevelsValid(side, levels) && |view| == if depth < |levels| then depth else |levels|
    requires forall i | 0 <= i < |view| :: view[i] == PriceLevel(levels[i].price, RemainingTotal(levels[i].orders))
    ensures Shows(side, Flat(levels), depth, view)
  {
    hide AtPrice, Flat, RemainingTotal;
    forall i | 0 <= i < |view| ensures AtPrice(Flat(levels), view[i].price) == levels[i].orders && levels[i].orders != [] {
      LevelIsQueue(side, levels, i);
      assert LevelValid(side, levels[i]);
    }
    forall o | o in Flat(levels)
      ensures (exists i :: 0 <= i < |view| && view[i].price == o.price)
              || (|view| == depth && forall i | 0 <= i < |view| :: Better(side, view[i].price, o.price))
    {
      FlatPrices(side, levels, o);
      var l :| l in levels && o.price == l.price;
      var k :| 0 <= k < |levels| && levels[k] == l;
      if k < |view| {
        assert view[k].price == o.price;
      }
    }
  }

  lemma HeadPrice(side: Side, levels: seq<Level>)
    requires LevelsValid(side, levels)
    ensures levels == [] <==> Flat(levels) == []
    ensures levels != [] ==> Flat(levels)[0].price == levels[0].price
  {
    if levels != [] {
      assert LevelValid(side, levels[0]);
      assert levels[0].orders[0] in levels[0].orders;
    }
  }

  class OrderBook {
    const marketSymbol: MarketId
    var bids: seq<Level>
    var asks: seq<Level>

    ghost predicate Valid()
      reads this
    {
      LevelsValid(Buy, bids) && LevelsValid(Sell, asks)
    }

    /** A side as one list, best first. */
    ghost function Orders(side: Side): seq<Maker>
      reads this
    {
      Flat(if side == Buy then bids else asks)
    }

    constructor (marketSymbol: MarketId)
      ensures Valid() && Orders(Buy) == [] && Orders(Sell) == [] && this.marketSymbol == marketSymbol
    {
      this.marketSymbol := marketSymbol;
      bids, asks := [], [];
    }

    /** The head of the best level of a side, if there is one. */
    method Best(side: Side) returns (best: Option<Maker>)
      requires Valid()
      ensures best == if Orders(side) == [] then None else Some(Orders(side)[0])
    {
      var levels := if side == Buy then bids else asks;
      if levels == [] {
        best := None;
      } else {
        assert LevelValid(side, levels[0]);
        best := Some(levels[0].orders[0]);
      }
    }

    /** Binary search for the level of `price`, or for the place where it belongs. */
    static method FindLevelIndex(levels: seq<Level>, side: Side, price: real) returns (index: nat)
      requires Ranked(side, levels)
      ensures index <= |levels|
      ensures forall i | 0 <= i < index :: Better(side, levels[i].price, price)
      ensures forall i | index <= i < |levels| :: !Better(side, levels[i].price, price)
    {
      var lo, hi := 0, |levels|;
      while lo < hi
        invariant 0 <= lo <= hi <= |levels|
        invariant forall i | 0 <= i < lo :: Better(side, levels[i].price, price)
        invariant forall i | hi <= i < |levels| :: !Better(side, levels[i].price, price)
      {
        var mid := (lo + hi) / 2;
        if Better(side, levels[mid].price, price) {
          lo := mid + 1;
        } else if levels[mid].price == price {
          return mid;
        } else {
          hi := mid;
        }
      }
      return lo;
    }

    /** Sums up the orders of each of the best `depth` levels. */
    static method Aggregate(side: Side, levels: seq<Level>, depth: nat) returns (view: seq<PriceLevel>)
      requires LevelsValid(side, levels)
      ensures Shows(side, Flat(levels), depth, view)
      ensures view != [] <==> levels != [] && depth > 0
      ensures view != [] ==> view[0].price == levels[0].price
    {
      hide Flat, LevelsValid, Shows;
      view := [];
      while |view| < depth && |view| < |levels|
        invariant |view| <= depth && |view| <= |levels|
        invariant forall i | 0 <= i < |view| :: view[i] == PriceLevel(levels[i].price, RemainingTotal(levels[i].orders))
        decreases |levels| - |view|
      {
        var level, quantity := levels[|view|], 0.0;
        for k := 0 to |level.orders|
          invariant quantity + RemainingTotal(level.orders[k..]) == RemainingTotal(level.orders)
        {
          assert level.orders[k..][1..] == level.orders[k + 1..];
          quantity := quantity + level.orders[k].remaining;
        }
        view := view + [PriceLevel(level.price, quantity)];
      }
      LevelsShow(side, levels, depth, view);
    }

    /** The aggregated view of both sides. */
    method Snapshot(depth: nat) returns (bidView: seq<PriceLevel>, askView: seq<PriceLevel>)
      requires Valid()
      ensures Shows(Buy, Orders(Buy), depth, bidView) && Shows(Sell, Orders(Sell), depth, askView)
      ensures depth > 0 ==> (bidView != [] <==> Orders(Buy) != []) && (askView != [] <==> Orders(Sell) != [])
      ensures bidView != [] ==> Orders(Buy) != [] && bidView[0].price == Orders(Buy)[0].price
      ensures askView != [] ==> Orders(Sell) != [] && askView[0].price == Orders(Sell)[0].price
    {
      hide Shows;
      HeadPrice(Buy, bids);
      HeadPrice(Sell, asks);
      bidView := Aggregate(Buy, bids, depth);
      askView := Aggregate(Sell, asks, depth);
    }

    /** Adds an order behind every order priced at least as well. */
    method Add(order: Maker)
      requires Valid()
      modifies this
      ensures Valid()
      ensures Orders(order.side) == Insert(order.side, old(Orders(order.side)), order)
      ensures Orders(Opposite(order.side)) == old(Orders(Opposite(order.side)))
    {
      var levels := if order.side == Buy then bids else asks;
      var index := FindLevelIndex(levels, order.side, order.price);
      if index < |levels| && levels[index].price == order.price {
        assert levels == levels[..index] + [levels[index]] + levels[index + 1..];
        PushIsInsert(order.side, levels[..index], levels[index], levels[index + 1..], order);
        var pushed := Level(order.price, levels[index].orders + [order]);
        levels := levels[..index] + [pushed] + levels[index + 1..];
      } else {
        assert levels == levels[..index] + levels[index..];
        assert index < |levels| ==> Better(order.side, order.price, levels[index].price);
        SpliceIsInsert(order.side, levels[..index], levels[index..], order);
        levels := levels[..index] + [Level(order.price, [order])] + levels[index..];
      }
      if order.side == Buy {
        bids := levels;
      } else {
        asks := levels;
      }
    }

    /** The first order with the id, level by level and queue by queue. */
    static method Find(levels: seq<Level>, id: OrderId) returns (found: bool, i: nat, k: nat)
      ensures found ==> i < |levels| && k < |levels[i].orders| && levels[i].orders[k].id == id
      ensures found ==> Absent(Flat(levels[..i]) + levels[i].orders[..k], id)
      ensures !found ==> Absent(Flat(levels), id)
    {
      i := 0;
      while i < |levels|
        invariant i <= |levels|
        invariant Absent(Flat(levels[..i]), id)
      {
        k := 0;
        while k < |levels[i].orders|
          invariant k <= |levels[i].orders|
          invariant Absent(levels[i].orders[..k], id)
        {
          if levels[i].orders[k].id == id {
            return true, i, k;
          }
          k := k + 1;
        }
        assert levels[i].orders == levels[i].orders[..k];
        assert levels[..i + 1] == levels[..i] + [levels[i]];
        FlatConcat(levels[..i], [levels[i]]);
        assert Flat([levels[i]]) == levels[i].orders + Flat([]);
        i := i + 1;
      }
      assert levels == levels[..i];
      found, k := false, 0;
    }

    /** Takes the order off the book, searching the bids first; false if it is on neither side. */
    method Remove(orderId: OrderId) returns (removed: bool)
      requires Valid()
      modifies this
      ensures Valid()
      ensures removed <==> orderId in Ids(old(Orders(Buy))) || orderId in Ids(old(Orders(Sell)))
      ensures Orders(Buy) == Delete(old(Orders(Buy)), orderId)
      ensures Orders(Sell) ==
              if orderId in Ids(old(Orders(Buy))) then old(Orders(Sell)) else Delete(old(Orders(Sell)), orderId)
    {
      var found, i, k := Find(bids, orderId);
      if found {
        FoundIsDelete(Buy, bids, i, k);
        bids := SplicedOut(bids[..i], bids[i], k, bids[i + 1..]);
        return true;
      }
      DeleteAbsent(Flat(bids), orderId);
      found, i, k := Find(asks, orderId);
      if found {
        FoundIsDelete(Sell, asks, i, k);
        asks := SplicedOut(asks[..i], asks[i], k, asks[i + 1..]);
        return true;
      }
      DeleteAbsent(Flat(asks), orderId);
      return false;
    }

    /** Lowers what remains of a side's best order, where it stands. */
    method ReduceBest(side: Side, quantity: real)
      requires Valid() && Orders(side) != []
      modifies this
      ensures Valid()
      ensures var before := old(Orders(side));
              Orders(side) == [before[0].(remaining := before[0].remaining - quantity)] + before[1..]
      ensures Orders(Opposite(side)) == old(Orders(Opposite(side)))
    {
      var levels := if side == Buy then bids else asks;
      assert LevelValid(side, levels[0]);
      var best := levels[0].orders[0].(remaining := levels[0].orders[0].remaining - quantity);
      HeadReplaced(side, levels, best);
      levels := [Level(levels[0].price, [best] + levels[0].orders[1..])] + levels[1..];
      if side == Buy {
        bids := levels;
      } else {
        asks := levels;
      }
    }

    /** Shifts the best order off its side, and its level with it when that was the last one. */
    method RemoveBest(side: Side)
      requires Valid()
      modifies this
      ensures Valid()
      ensures Orders(side) == if old(Orders(side)) == [] then [] else old(Orders(side))[1..]
      ensures Orders(Opposite(side)) == old(Orders(Opposite(side)))
    {
      hide Flat, LevelsValid, SplicedOut;
      var levels := if side == Buy then bids else asks;
      NoneIsFlat();
      if levels == [] {
        return;
      }
      HeadRemoved(side, levels);
      var left := SplicedOut([], levels[0], 0, levels[1..]);
      if side == Buy {
        bids := left;
      } else {
        asks := left;
      }
    }
  }
}
