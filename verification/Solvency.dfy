/** Exactly when the settlement of a submission goes through. */
module Solvency {
  import opened Types
  import opened BookSide
  import opened Matching
  import opened MatchingFacts
  import opened EngineSpec
  import opened Ledger
  import opened Settlement
  import opened FillProofs
  import opened Books
  import opened Submission
  import opened Exchange
  import opened Safety
  import opened OrderHistory

  /** Fills as a matcher makes them. */
  ghost predicate Priced(fills: seq<Fill>) {
    forall f | f in fills :: f.quantity > 0.0 && f.quoteAmount == Notional(f.price, f.quantity)
  }

  /** What `price` per unit covers of the fills. */
  ghost function Slack(price: real, fills: seq<Fill>): real {
    Notional(price, FilledQuantity(fills)) - QuoteTotal(fills)
  }

  lemma SlackCons(price: real, f: Fill, rest: seq<Fill>)
    ensures Slack(price, [f] + rest) == Notional(price, f.quantity) - f.quoteAmount + Slack(price, rest)
  {
    assert ([f] + rest)[1..] == rest;
    var q := FilledQuantity(rest);
    assert Notional(price, f.quantity + q) == Notional(price, f.quantity) + Notional(price, q);
  }

  lemma PriceGap(price: real, f: Fill)
    requires f.quantity > 0.0 && f.quoteAmount == Notional(f.price, f.quantity)
    ensures f.price <= price ==> Notional(price, f.quantity) - f.quoteAmount >= 0.0
    ensures f.price >= price ==> Notional(price, f.quantity) - f.quoteAmount <= 0.0
  {
    assert Notional(price, f.quantity) - f.quoteAmount == (price - f.price) * f.quantity;
  }

  lemma {:induction false} NoSlack(price: real, fills: seq<Fill>)
    requires Priced(fills) && forall f | f in fills :: f.price >= price
    ensures Slack(price, fills) <= 0.0
  {
    if fills != [] {
      var f, rest := fills[0], fills[1..];
      assert fills == [f] + rest;
      SlackCons(price, f, rest);
      PriceGap(price, f);
      NoSlack(price, rest);
    }
  }

  /** Fill prices only rise for a buyer, so the running balance first rises and then falls: it never
      goes below zero exactly when it does not end below zero. */
  lemma {:induction false} SolventIff(price: real, available: real, fills: seq<Fill>)
    requires available >= 0.0 && Priced(fills) && Worsening(Sell, fills)
    ensures Solvent(price, available, fills) <==> available + Slack(price, fills) >= 0.0
    decreases |fills|
  {
    hide Notional;
    if fills != [] {
      var f, rest := fills[0], fills[1..];
      assert fills == [f] + rest;
      SlackCons(price, f, rest);
      PriceGap(price, f);
      var left := available + Notional(price, f.quantity) - f.quoteAmount;
      if left >= 0.0 {
        SolventIff(price, left, rest);
      } else {
        NoSlack(price, rest);
      }
    } else {
      NothingToPay(price);
    }
  }

  lemma NothingToPay(price: real)
    ensures Slack(price, []) == 0.0
  {
  }

  lemma MatchIsPriced(t: Taker, makers: seq<Maker>, quantity: real)
    requires SideValid(Opposite(t.side), makers) && quantity >= 0.0
    ensures var fills := Match(t, makers, quantity).fills;
            && Priced(fills) && Worsening(Opposite(t.side), fills)
            && (t.limit.Some? ==> forall f | f in fills :: Crosses(t.side, t.limit.value, f.price))
  {
    MembersReduced(Opposite(t.side), makers);
    MatchIsFair(t, makers, quantity);
    MatchWorsens(t, makers, quantity);
    forall f | f in Match(t, makers, quantity).fills ensures f.quoteAmount == Notional(f.price, f.quantity) {
      assert FairFill(t, makers, f);
    }
  }

  /** A price no fill exceeds covers them all. */
  lemma {:induction false} Covered(price: real, fills: seq<Fill>)
    requires Priced(fills) && forall f | f in fills :: f.price <= price
    ensures Slack(price, fills) >= 0.0
  {
    if fills == [] {
      NothingToPay(price);
    } else {
      var f, rest := fills[0], fills[1..];
      assert fills == [f] + rest;
      SlackCons(price, f, rest);
      PriceGap(price, f);
      Covered(price, rest);
    }
  }

  /** What the taker of a waiting order has available on the quote account. */
  ghost function AvailableQuote(s: State, id: OrderId): real
    requires id in s.pending && id < |s.tables.orders|
  {
    At(s.tables.accounts, UserKey(s.tables.orders[id].userId, s.pending[id].quote)).available
  }

  /** Nothing was matched, or no fee takes a whole receipt and, for a market buy, the fills cost no more
      than the reserve for the filled quantity and what else the buyer has available. */
  ghost predicate CanSettle(s: State, id: OrderId)
    requires id in s.pending && id < |s.tables.orders| && s.tables.orders[id].market in s.engines
  {
    var row, m, fills := s.tables.orders[id], s.pending[id], OutcomeOf(s, id).fills;
    || fills == []
    || (m.makerFee < 1.0 && m.takerFee < 1.0
        && (row.orderType == MarketOrder && row.side == Buy ==>
              QuoteTotal(fills) <= Notional(row.price, FilledQuantity(fills)) + AvailableQuote(s, id)))
  }

  /** The settlement of a submission goes through exactly when it can be paid for. */
  lemma SubmissionSettlesExactlyWhen(s: State, id: OrderId)
    requires Inv(s) && id in s.pending
    ensures id < |s.tables.orders| && s.tables.orders[id].market in s.engines
    ensures SettlementOf(s, id).Ok? <==> CanSettle(s, id)
  {
    hide Inv, Match, SettlementOf, SideValid, FilledQuantity, QuoteTotal, Notional, TablesValid, EngineInSync, SideAgrees,
      Untouched, Solvent, EngineSpec.Submit;
    SubmissionSettlesIff(s, id);
    WaitingIsSubmitted(s, id);
    QuoteNonNegative(s, id);
    var row, fills := s.tables.orders[id], OutcomeOf(s, id).fills;
    var input := InputOf(id, row);
    MatchIsPriced(TakerOf(input), SideOf(s.engines[row.market], Opposite(row.side)), row.quantity);
    if row.side == Buy {
      SolventIff(row.price, AvailableQuote(s, id), fills);
      if row.orderType == Limit {
        Covered(row.price, fills);
      }
    }
  }

  lemma QuoteNonNegative(s: State, id: OrderId)
    requires Inv(s) && id in s.pending && id < |s.tables.orders|
    ensures AvailableQuote(s, id) >= 0.0
  {
    AvailableNonNegative(s.tables.accounts, UserKey(s.tables.orders[id].userId, s.pending[id].quote));
  }

  /** In every reachable state, submitting a waiting order succeeds exactly under that condition. */
  lemma EveryRunSettlesExactlyWhen(markets: Markets, ops: seq<Op>, id: OrderId)
    requires PairsDistinct(markets) && AllEnabled(Init(markets), ops) && id in Run(Init(markets), ops).pending
    ensures var s := Run(Init(markets), ops);
            && id < |s.tables.orders| && s.tables.orders[id].market in s.engines
            && (ApplySubmit(s, id).error.None? <==> CanSettle(s, id))
  {
    hide Inv, SettlementOf, OutcomeOf, ApplySubmit, CanSettle;
    EveryRunIsSafe(markets, ops);
    var s := Run(Init(markets), ops);
    SubmissionSettlesExactlyWhen(s, id);
    WaitingIsSubmitted(s, id);
    SubmitCommits(s, id);
  }

  /** In every reachable state, the settlement of a limit order, or of a market sell, cannot fail as long
      as fees are below one. */
  lemma LimitAndSellAlwaysSettle(markets: Markets, ops: seq<Op>, id: OrderId)
    requires PairsDistinct(markets) && AllEnabled(Init(markets), ops)
    requires var s := Run(Init(markets), ops);
             && id in s.pending && s.pending[id].makerFee < 1.0 && s.pending[id].takerFee < 1.0
             && id < |s.tables.orders|
             && (s.tables.orders[id].orderType == Limit || s.tables.orders[id].side == Sell)
    ensures var s := Run(Init(markets), ops);
            ApplySubmit(s, id).error.None? && id !in ApplySubmit(s, id).state.pending
  {
    hide Inv, SettlementOf, OutcomeOf, Match, OwnSide, FilledQuantity, QuoteTotal;
    EveryRunIsSafe(markets, ops);
    var s := Run(Init(markets), ops);
    SubmissionSettlesExactlyWhen(s, id);
    SubmissionSettlesIff(s, id);
    SubmitCommits(s, id);
  }
}
