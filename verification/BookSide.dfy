/** One side of an order book as the flat list of its resting orders, best first.

    This is the specification that `OrderBook.dfy` implements with sorted price
    levels of FIFO queues. */
module BookSide {
  import opened Types

  /** A resting limit order. */
  datatype Maker = Maker(
    id: OrderId,
    userId: UserId,
    side: Side,
    price: real,
    remaining: real,
    sequence: nat)

  /** On a book side, `p` is served strictly before `q`: highest bid first, lowest ask first. */
  predicate Better(side: Side, p: real, q: real) {
    if side == Buy then p > q else p < q
  }

  /** `x` may stand ahead of `y`: no worse price and, at one price, no later arrival. */
  ghost predicate Precedes(side: Side, x: Maker, y: Maker) {
    && !Better(side, y.price, x.price)
    && (x.price == y.price ==> x.sequence <= y.sequence)
    && x.id != y.id
  }

  /** A well-formed side: price-time order, unique ids, and something left on every order. */
  ghost predicate SideValid(side: Side, s: seq<Maker>) {
    s != [] ==>
      && s[0].side == side
      && s[0].remaining > 0.0
      && (forall m | m in s[1..] :: Precedes(side, s[0], m))
      && SideValid(side, s[1..])
  }

  function Ids(s: seq<Maker>): set<OrderId> {
    set m | m in s :: m.id
  }

  /** Price-time insertion: behind every order priced at least as well, ahead of the others. */
  function Insert(side: Side, s: seq<Maker>, o: Maker): seq<Maker> {
    if s == [] || Better(side, o.price, s[0].price) then [o] + s
    else [s[0]] + Insert(side, s[1..], o)
  }

  function Delete(s: seq<Maker>, id: OrderId): seq<Maker> {
    if s == [] then []
    else if s[0].id == id then s[1..]
    else [s[0]] + Delete(s[1..], id)
  }

  /** The queue standing at one price. */
  function AtPrice(s: seq<Maker>, p: real): seq<Maker> {
    if s == [] then []
    else (if s[0].price == p then [s[0]] else []) + AtPrice(s[1..], p)
  }

  lemma {:induction false} InsertMembers(side: Side, s: seq<Maker>, o: Maker)
    ensures multiset(Insert(side, s, o)) == multiset(s) + multiset{o}
    ensures forall m :: m in Insert(side, s, o) <==> m == o || m in s
    ensures Ids(Insert(side, s, o)) == Ids(s) + {o.id}
  {
    if s == [] || Better(side, o.price, s[0].price) {
    } else {
      InsertMembers(side, s[1..], o);
      assert s == [s[0]] + s[1..];
    }
  }

  /** A newcomer that arrives last keeps the side well formed. */
  lemma {:induction false} InsertValid(side: Side, s: seq<Maker>, o: Maker)
    requires SideValid(side, s)
    requires o.side == side && o.remaining > 0.0
    requires forall m | m in s :: m.id != o.id && m.sequence <= o.sequence
    ensures SideValid(side, Insert(side, s, o))
  {
    if s == [] {
    } else if Better(side, o.price, s[0].price) {
      assert ([o] + s)[1..] == s;
      assert s == [s[0]] + s[1..];
    } else {
      InsertValid(side, s[1..], o);
      InsertMembers(side, s[1..], o);
      assert ([s[0]] + Insert(side, s[1..], o))[1..] == Insert(side, s[1..], o);
    }
  }

  /** `Insert` puts the newcomer last in its own price queue and leaves every other queue alone. */
  lemma {:induction false} InsertIsFifo(side: Side, s: seq<Maker>, o: Maker, p: real)
    requires SideValid(side, s)
    ensures AtPrice(Insert(side, s, o), p) == AtPrice(s, p) + (if p == o.price then [o] else [])
  {
    if s == [] {
    } else if Better(side, o.price, s[0].price) {
      assert ([o] + s)[1..] == s;
      if p == o.price {
        WorseHaveOtherPrice(side, s, p);
      }
    } else {
      InsertIsFifo(side, s[1..], o, p);
      assert ([s[0]] + Insert(side, s[1..], o))[1..] == Insert(side, s[1..], o);
    }
  }

  lemma {:induction false} WorseHaveOtherPrice(side: Side, s: seq<Maker>, p: real)
    requires SideValid(side, s)
    requires s != [] ==> Better(side, p, s[0].price)
    ensures AtPrice(s, p) == []
    ensures forall m | m in s :: Better(side, p, m.price)
  {
    if s != [] {
      if s[1..] != [] {
        assert s[1] in s[1..];
      }
      WorseHaveOtherPrice(side, s[1..], p);
      assert s == [s[0]] + s[1..];
    }
  }

  /** `Insert` splits the side where the newcomer belongs. */
  lemma {:induction false} InsertSplit(side: Side, a: seq<Maker>, b: seq<Maker>, o: Maker)
    requires forall m | m in a :: !Better(side, o.price, m.price)
    requires b != [] ==> Better(side, o.price, b[0].price)
    ensures Insert(side, a + b, o) == a + [o] + b
  {
    if a == [] {
      assert a + b == b;
    } else {
      assert a[0] in a;
      InsertSplit(side, a[1..], b, o);
      assert (a + b)[1..] == a[1..] + b;
      assert [a[0]] + (a[1..] + [o] + b) == a + [o] + b;
    }
  }

  /** `Delete` takes out the one order with that id, keeps the others in place, and finds nothing else. */
  lemma {:induction false} DeleteValid(side: Side, s: seq<Maker>, id: OrderId)
    requires SideValid(side, s)
    ensures SideValid(side, Delete(s, id))
    ensures forall m :: m in Delete(s, id) <==> m in s && m.id != id
    ensures Ids(Delete(s, id)) == Ids(s) - {id}
  {
    if s != [] {
      assert s == [s[0]] + s[1..];
      if s[0].id != id {
        DeleteValid(side, s[1..], id);
        assert ([s[0]] + Delete(s[1..], id))[1..] == Delete(s[1..], id);
      }
    }
  }

  lemma {:induction false} DeleteSplit(a: seq<Maker>, o: Maker, b: seq<Maker>)
    requires forall m | m in a :: m.id != o.id
    ensures Delete(a + [o] + b, o.id) == a + b
  {
    if a == [] {
      assert a + [o] + b == [o] + b;
      assert a + b == b;
    } else {
      assert a[0] in a;
      DeleteSplit(a[1..], o, b);
      assert (a + [o] + b)[1..] == a[1..] + [o] + b;
      assert [a[0]] + (a[1..] + b) == a + b;
    }
  }

  lemma {:induction false} DeleteAbsent(s: seq<Maker>, id: OrderId)
    requires id !in Ids(s)
    ensures Delete(s, id) == s
  {
    if s != [] {
      assert s[0] in s;
      assert forall m | m in s[1..] :: m in s;
      DeleteAbsent(s[1..], id);
    }
  }
}
