/** What every caller of the matcher relies on, and the optimality of price-time priority. */
module MatchingFacts {
  import opened Types
  import opened BookSide
  import opened Matching

  lemma {:induction false} MatchConserves(t: Taker, makers: seq<Maker>, quantity: real)
    requires forall m | m in makers :: m.remaining > 0.0
    requires quantity >= 0.0
    ensures var o := Match(t, makers, quantity);
            FilledQuantity(o.fills) + o.remaining == quantity && 0.0 <= o.remaining <= quantity
    decreases |makers|
  {
    if quantity > 0.0 && makers != [] && MayTrade(t, makers[0]) {
      var quantity' := Min(makers[0].remaining, quantity);
      if makers[0].remaining == quantity' {
        MatchConserves(t, makers[1..], quantity - quantity');
        var rest := Match(t, makers[1..], quantity - quantity');
        assert ([FillAgainst(t, makers[0], quantity')] + rest.fills)[1..] == rest.fills;
      } else {
        assert [FillAgainst(t, makers[0], quantity')][1..] == [];
      }
    }
  }

  /** `m'` is `m` with at most its remaining quantity lowered. */
  ghost predicate ReducedFrom(m': Maker, m: Maker) {
    m' == m.(remaining := m'.remaining) && 0.0 < m'.remaining <= m.remaining
  }

  /** The side that is left is well formed and holds nothing but orders of the old side. */
  lemma {:induction false} MatchKeepsSide(t: Taker, makers: seq<Maker>, quantity: real)
    requires SideValid(Opposite(t.side), makers)
    ensures var left := Match(t, makers, quantity).makers;
            && SideValid(Opposite(t.side), left)
            && (forall m' | m' in left :: exists m :: m in makers && ReducedFrom(m', m))
    decreases |makers|
  {
    if makers != [] {
      assert makers == [makers[0]] + makers[1..];
      MembersReduced(Opposite(t.side), makers);
      if quantity > 0.0 && MayTrade(t, makers[0]) {
        var quantity' := Min(makers[0].remaining, quantity);
        if makers[0].remaining == quantity' {
          MatchKeepsSide(t, makers[1..], quantity - quantity');
        } else {
          var reduced := makers[0].(remaining := makers[0].remaining - quantity');
          assert ReducedFrom(reduced, makers[0]);
          assert ([reduced] + makers[1..])[1..] == makers[1..];
        }
      }
    }
  }

  lemma {:induction false} MembersReduced(side: Side, s: seq<Maker>)
    requires SideValid(side, s)
    ensures forall m | m in s :: m.remaining > 0.0 && m.side == side && ReducedFrom(m, m)
  {
    if s != [] {
      MembersReduced(side, s[1..]);
      assert s == [s[0]] + s[1..];
    }
  }

  /** A fill trades a positive quantity, at the price of some maker of another user, that the taker's
      limit allows. */
  ghost predicate FairFill(t: Taker, makers: seq<Maker>, f: Fill) {
    && f.takerOrderId == t.id && f.takerUserId == t.userId
    && f.makerUserId != t.userId
    && f.quantity > 0.0
    && f.quoteAmount == f.price * f.quantity
    && (t.limit.Some? ==> Crosses(t.side, t.limit.value, f.price))
    && (exists m :: m in makers && m.id == f.makerOrderId && m.price == f.price && m.userId == f.makerUserId)
  }

  lemma {:induction false} MatchIsFair(t: Taker, makers: seq<Maker>, quantity: real)
    requires forall m | m in makers :: m.remaining > 0.0
    ensures forall f | f in Match(t, makers, quantity).fills :: FairFill(t, makers, f)
    decreases |makers|
  {
    if quantity > 0.0 && makers != [] && MayTrade(t, makers[0]) {
      assert makers == [makers[0]] + makers[1..];
      var quantity' := Min(makers[0].remaining, quantity);
      assert FairFill(t, makers, FillAgainst(t, makers[0], quantity'));
      if makers[0].remaining == quantity' {
        MatchIsFair(t, makers[1..], quantity - quantity');
      }
    }
  }

  /** Later fills are never at a better price. */
  ghost predicate Worsening(side: Side, fills: seq<Fill>) {
    fills != [] ==>
      && (forall f | f in fills[1..] :: !Better(side, f.price, fills[0].price))
      && Worsening(side, fills[1..])
  }

  lemma {:induction false} MatchWorsens(t: Taker, makers: seq<Maker>, quantity: real)
    requires SideValid(Opposite(t.side), makers)
    ensures Worsening(Opposite(t.side), Match(t, makers, quantity).fills)
    decreases |makers|
  {
    if quantity > 0.0 && makers != [] && MayTrade(t, makers[0]) {
      var quantity' := Min(makers[0].remaining, quantity);
      if makers[0].remaining == quantity' {
        MatchWorsens(t, makers[1..], quantity - quantity');
        MembersReduced(Opposite(t.side), makers[1..]);
        MatchIsFair(t, makers[1..], quantity - quantity');
        var rest := Match(t, makers[1..], quantity - quantity').fills;
        assert ([FillAgainst(t, makers[0], quantity')] + rest)[1..] == rest;
      } else {
        assert [FillAgainst(t, makers[0], quantity')][1..] == [];
      }
    }
  }

  /** An unfilled taker that was not stopped crosses nothing that is left. */
  lemma {:induction false} MatchExhausts(t: Taker, makers: seq<Maker>, quantity: real)
    requires SideValid(Opposite(t.side), makers)
    ensures var o := Match(t, makers, quantity);
            o.remaining > 0.0 && !o.stopped ==> forall m | m in o.makers :: !Reaches(t, m)
    decreases |makers|
  {
    if makers != [] {
      assert makers == [makers[0]] + makers[1..];
      if quantity > 0.0 && MayTrade(t, makers[0]) && makers[0].remaining <= quantity {
        MatchExhausts(t, makers[1..], quantity - makers[0].remaining);
      }
    }
  }

  // ---------------------------------------------------------------------------
  // Optimality
  // ---------------------------------------------------------------------------

  /** Any way of taking quantities from the orders that stood on the opposing side. */
  ghost predicate Allocation(makers: seq<Maker>, taken: seq<real>) {
    && |taken| == |makers|
    && (makers != [] ==>
      && 0.0 <= taken[0] <= makers[0].remaining
      && Allocation(makers[1..], taken[1..]))
  }

  ghost function Amount(taken: seq<real>): real {
    if taken == [] then 0.0 else taken[0] + Amount(taken[1..])
  }

  ghost function Worth(makers: seq<Maker>, taken: seq<real>): real
    requires |taken| == |makers|
  {
    if makers == [] then 0.0 else makers[0].price * taken[0] + Worth(makers[1..], taken[1..])
  }

  /** Every maker that gives nothing up to price `p` or gives everything beyond it is fine with `p`. */
  ghost predicate Marginal(t: Taker, makers: seq<Maker>, quantity: real, p: real) {
    var side := Opposite(t.side);
    && (forall f | f in Match(t, makers, quantity).fills :: !Better(side, p, f.price))
    && (forall m | m in Match(t, makers, quantity).makers :: !Better(side, m.price, p))
  }

  /** What `x` units at `price` are worth beyond price `p` per unit. */
  ghost function Gain(price: real, p: real, x: real): real {
    (price - p) * x
  }

  /** What an allocation is worth beyond price `p` per unit. */
  ghost function Surplus(makers: seq<Maker>, taken: seq<real>, p: real): real
    requires |taken| == |makers|
  {
    if makers == [] then 0.0 else Gain(makers[0].price, p, taken[0]) + Surplus(makers[1..], taken[1..], p)
  }

  ghost function FillSurplus(fills: seq<Fill>, p: real): real {
    if fills == [] then 0.0 else Gain(fills[0].price, p, fills[0].quantity) + FillSurplus(fills[1..], p)
  }

  ghost predicate NoBetter(side: Side, other: real, ours: real) {
    if side == Buy then other >= ours else other <= ours
  }

  lemma HeadNoBetter(side: Side, price: real, p: real, x: real, q: real)
    requires Better(Opposite(side), price, p) ==> x <= q
    requires Better(Opposite(side), p, price) ==> x >= q
    ensures NoBetter(side, Gain(price, p, x), Gain(price, p, q))
    ensures Gain(price, p, 0.0) == 0.0
  {
    assert Gain(price, p, x) - Gain(price, p, q) == (price - p) * (x - q);
  }

  lemma {:induction false} UntouchedSurplus(side: Side, makers: seq<Maker>, taken: seq<real>, p: real)
    requires Allocation(makers, taken)
    requires forall m | m in makers :: !Better(Opposite(side), m.price, p)
    ensures NoBetter(side, Surplus(makers, taken, p), 0.0)
  {
    hide Gain;
    if makers != [] {
      UntouchedSurplus(side, makers[1..], taken[1..], p);
      HeadNoBetter(side, makers[0].price, p, taken[0], 0.0);
    }
  }

  /** The exchange argument: at a marginal price, moving quantity between makers gains nothing. */
  lemma {:induction false} Exchange(t: Taker, makers: seq<Maker>, quantity: real, taken: seq<real>, p: real)
    requires Allocation(makers, taken)
    requires Marginal(t, makers, quantity, p)
    ensures NoBetter(t.side, Surplus(makers, taken, p), FillSurplus(Match(t, makers, quantity).fills, p))
    decreases |makers|
  {
    if quantity <= 0.0 || makers == [] || !MayTrade(t, makers[0]) {
      UntouchedSurplus(t.side, makers, taken, p);
      return;
    }
    hide Marginal, Gain;
    MarginalStep(t, makers, quantity, p);
    var q := Min(makers[0].remaining, quantity);
    HeadNoBetter(t.side, makers[0].price, p, taken[0], q);
    var fills := Match(t, makers, quantity).fills;
    if makers[0].remaining <= quantity {
      Exchange(t, makers[1..], quantity - q, taken[1..], p);
      assert fills[1..] == Match(t, makers[1..], quantity - q).fills;
    } else {
      UntouchedSurplus(t.side, makers[1..], taken[1..], p);
      assert fills[1..] == [];
    }
  }

  lemma {:induction false} SurplusIsWorth(makers: seq<Maker>, taken: seq<real>, p: real)
    requires |taken| == |makers|
    ensures Surplus(makers, taken, p) == Worth(makers, taken) - p * Amount(taken)
  {
    if makers != [] {
      SurplusIsWorth(makers[1..], taken[1..], p);
      Distribute(makers[0].price, p, taken[0], Amount(taken[1..]));
    }
  }

  lemma {:induction false} FillSurplusIsTotal(fills: seq<Fill>, p: real)
    requires forall f | f in fills :: f.quoteAmount == f.price * f.quantity
    ensures FillSurplus(fills, p) == QuoteTotal(fills) - p * FilledQuantity(fills)
  {
    if fills != [] {
      assert fills[0] in fills;
      FillSurplusIsTotal(fills[1..], p);
      Distribute(fills[0].price, p, fills[0].quantity, FilledQuantity(fills[1..]));
    }
  }

  lemma Distribute(price: real, p: real, x: real, rest: real)
    ensures (price - p) * x - p * rest == price * x - p * (x + rest)
  {
  }

  lemma MarginalStep(t: Taker, makers: seq<Maker>, quantity: real, p: real)
    requires Marginal(t, makers, quantity, p)
    requires quantity > 0.0 && makers != [] && MayTrade(t, makers[0])
    ensures !Better(Opposite(t.side), p, makers[0].price)
    ensures makers[0].remaining <= quantity ==> Marginal(t, makers[1..], quantity - makers[0].remaining, p)
    ensures makers[0].remaining > quantity ==>
              && makers[0].price == p
              && forall m | m in makers[1..] :: !Better(Opposite(t.side), m.price, p)
  {
    var o := Match(t, makers, quantity);
    assert o.fills != [] && o.fills[0] in o.fills;
    if makers[0].remaining <= quantity {
      assert forall f | f in Match(t, makers[1..], quantity - makers[0].remaining).fills :: f in o.fills;
    } else {
      assert o.makers[0] in o.makers;
      assert forall m | m in makers[1..] :: m in o.makers;
    }
  }

  /** Nothing that is left is better than anything that was taken. */
  lemma {:induction false} MatchLeavesWorse(t: Taker, makers: seq<Maker>, quantity: real)
    requires SideValid(Opposite(t.side), makers)
    ensures var o := Match(t, makers, quantity);
            forall f, m | f in o.fills && m in o.makers :: !Better(Opposite(t.side), m.price, f.price)
    decreases |makers|
  {
    if quantity > 0.0 && makers != [] && MayTrade(t, makers[0]) && makers[0].remaining <= quantity {
      var quantity' := quantity - makers[0].remaining;
      MatchLeavesWorse(t, makers[1..], quantity');
      MatchKeepsSide(t, makers[1..], quantity');
    }
  }

  lemma {:induction false} LastIsWorst(side: Side, fills: seq<Fill>)
    requires Worsening(side, fills) && fills != []
    ensures forall f | f in fills :: !Better(side, fills[|fills| - 1].price, f.price)
  {
    assert fills == [fills[0]] + fills[1..];
    if fills[1..] != [] {
      LastIsWorst(side, fills[1..]);
      assert fills[|fills| - 1] in fills[1..];
    }
  }

  /** Price-time priority is optimal: no way of taking the same quantity from the opposing orders,
      in whole or in part and whoever owns them, buys it for less or sells it for more. */
  lemma MatchIsOptimal(t: Taker, makers: seq<Maker>, quantity: real, taken: seq<real>)
    requires SideValid(Opposite(t.side), makers)
    requires Allocation(makers, taken)
    requires Amount(taken) == FilledQuantity(Match(t, makers, quantity).fills)
    ensures var total := QuoteTotal(Match(t, makers, quantity).fills);
            if t.side == Buy then total <= Worth(makers, taken) else total >= Worth(makers, taken)
  {
    hide Worth, Amount, Allocation;
    var fills := Match(t, makers, quantity).fills;
    if fills == [] {
      NothingTaken(makers, taken);
    } else {
      MatchWorsens(t, makers, quantity);
      LastIsWorst(Opposite(t.side), fills);
      MatchLeavesWorse(t, makers, quantity);
      OptimalAt(t, makers, quantity, taken, fills[|fills| - 1].price);
    }
  }

  lemma OptimalAt(t: Taker, makers: seq<Maker>, quantity: real, taken: seq<real>, p: real)
    requires SideValid(Opposite(t.side), makers)
    requires Allocation(makers, taken)
    requires Amount(taken) == FilledQuantity(Match(t, makers, quantity).fills)
    requires Marginal(t, makers, quantity, p)
    ensures NoBetter(t.side, Worth(makers, taken), QuoteTotal(Match(t, makers, quantity).fills))
  {
    hide Match, Marginal, Surplus, FillSurplus, Worth, Amount, FilledQuantity, QuoteTotal, SideValid;
    MembersReduced(Opposite(t.side), makers);
    MatchIsFair(t, makers, quantity);
    Exchange(t, makers, quantity, taken, p);
    SurplusIsWorth(makers, taken, p);
    FillSurplusIsTotal(Match(t, makers, quantity).fills, p);
  }

  lemma {:induction false} NothingTaken(makers: seq<Maker>, taken: seq<real>)
    requires Allocation(makers, taken)
    ensures Amount(taken) >= 0.0
    ensures Amount(taken) == 0.0 ==> Worth(makers, taken) == 0.0
  {
    if makers != [] {
      NothingTaken(makers[1..], taken[1..]);
    }
  }
}
