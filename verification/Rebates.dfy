/** A negative fee rate: settlement writes the negative fee on the trade and posts nothing for it, so the fee
    columns of the trades no longer add up to FEE_REVENUE. */
module Rebates {
  import opened Types
  import opened BookSide
  import opened Matching
  import opened EngineSpec
  import opened Ledger
  import opened Settlement
  import opened FillProofs
  import opened Books
  import opened Exchange
  import opened Safety
  import opened Solvency
  import opened AgreementRuns
  import opened Reconciliation
  import opened Scenarios
  import opened Limits

  const REBATE: real := -0.001
  const REBATE_MARKET: Market := FREE_MARKET.(makerFee := REBATE)

  /** An ask of 100 rests, the maker fee is set below zero, and a bid takes the ask. */
  function PaidMaker(): seq<Op> {
    Funding(220.0, RestOps("s", Sell, 100.0, 0,
      [UpdateMarket(SYMBOL, None, Some(REBATE), None)] + ([Place("b", One(Buy, 100.0))] + ([SubmitOrder(1)] + []))))
  }

  function Buying(): Taker {
    Taker(1, "b", Buy, Some(100.0))
  }

  lemma BidTakes(i: nat)
    ensures Match(Buying(), [Resting0(i)], 1.0).fills == [FillAgainst(Buying(), Resting0(i), 1.0)]
  {
    Distinct();
    assert [Resting0(i)][1..] == [];
    assert Match(Buying(), [], 0.0).fills == [];
    assert Match(Buying(), [Resting0(i)], 1.0).fills == [FillAgainst(Buying(), Resting0(i), 1.0)] + [];
  }

  /** The bid waits on the market with the negative fee, against the one ask. */
  ghost predicate Poised(s: State, i: nat) {
    && Inv(s) && s.pending == map[1 := REBATE_MARKET] && s.tables.orders == [ASK_0, NewRow("b", One(Buy, 100.0), 100.0)]
    && s.markets == map[SYMBOL := REBATE_MARKET] && s.engines.Keys == {SYMBOL} && s.engines[SYMBOL].asks == [Resting0(i)]
  }

  lemma OneIsAcceptedWithRebate(e: Engine)
    ensures AcceptsQuantity(REBATE_MARKET, One(Buy, 100.0)) && ResolvePrice(REBATE_MARKET, e, One(Buy, 100.0)) == Ok(100.0)
    ensures Notional(100.0, 1.0) >= REBATE_MARKET.minimumNotional && Reserve(Buy, 100.0, 1.0) == 100.0
  {
    OneIsAccepted(Buy, 100.0, e);
  }

  lemma FeeChanges(s: State)
    requires Inv(s) && s.markets == MARKETS
    ensures var op := UpdateMarket(SYMBOL, None, Some(REBATE), None);
            && Inv(Exec(s, op).state) && Exec(s, op).state == s.(markets := map[SYMBOL := REBATE_MARKET])
            && Enabled(s, op) && Settled(s, op)
  {
    hide Inv;
    StepKeepsInv(s, UpdateMarket(SYMBOL, None, Some(REBATE), None));
  }

  /** The state in which the bid waits, and how the run goes on from it. */
  lemma ReachesPoised() returns (s: State, i: nat)
    ensures Poised(s, i) && Enabled(s, SubmitOrder(1))
    ensures Run(Init(MARKETS), PaidMaker()) == Exec(s, SubmitOrder(1)).state && AllEnabled(Init(MARKETS), PaidMaker())
    ensures AllSettled(Init(MARKETS), PaidMaker()) <==> Settled(s, SubmitOrder(1))
  {
    hide Inv, Exec, Run, AllEnabled, AllSettled, Insert, RestOps, Resting, Funding, Funded, ResolvePrice, AcceptsQuantity,
      Notional, Reserve, Settled;
    Distinct();
    var r, update := One(Buy, 100.0), UpdateMarket(SYMBOL, None, Some(REBATE), None);
    var rest := [update] + ([Place("b", r)] + ([SubmitOrder(1)] + []));
    var s2 := Funded(220.0);
    FundingRun(220.0, RestOps("s", Sell, 100.0, 0, rest));
    AskRests(s2, 100.0, [], [], 2.0, 220.0, rest);
    var s4 := Resting(s2, "s", Sell, 100.0);
    i := s2.engines[SYMBOL].sequence + 1;
    OneAsk(i);
    FeeChanges(s4);
    var s5 := Exec(s4, update).state;
    OneIsAcceptedWithRebate(s5.engines[SYMBOL]);
    PlaceStep(s5, "b", r, 100.0, UserKey("b", "USDT"));
    s := Exec(s5, Place("b", r)).state;
    RunCons(s4, update, [Place("b", r)] + ([SubmitOrder(1)] + []));
    RunCons(s5, Place("b", r), [SubmitOrder(1)] + []);
    RunCons(s, SubmitOrder(1), []);
    RunNone(Exec(s, SubmitOrder(1)).state);
    PlaceIsFree(s5, "b", r);
  }

  /** The bid takes the ask, and its trade records the negative fee. */
  lemma RebateRecorded(s: State, i: nat)
    requires Poised(s, i)
    ensures var s' := Exec(s, SubmitOrder(1)).state;
            && ApplySubmit(s, 1).error.None?
            && exists tr :: tr in s'.tables.trades && RecordsRebate(s'.markets, s'.tables.orders, tr, "USDT")
  {
    hide Inv, Exec, Match, QuoteTotal, FilledQuantity, ApplySubmit, Onward;
    Distinct();
    BidTakes(i);
    var f, orders := FillAgainst(Buying(), Resting0(i), 1.0), s.tables.orders;
    OneFillSettles(s, 1, f);
    var s' := Exec(s, SubmitOrder(1)).state;
    var tr := TradeOf(SYMBOL, f, DealOf(REBATE_MARKET, orders, f), false);
    assert tr == s'.tables.trades[|s.tables.trades|] && tr in s'.tables.trades;
    assert Onward(orders[0], s'.tables.orders[0]);
    SideStays(orders[0], s'.tables.orders[0]);
    SubmittingKeepsMarkets(s, 1);
    assert tr.makerFee == Fee(100.0, REBATE) < 0.0;
    assert RecordsRebate(s'.markets, s'.tables.orders, tr, "USDT");
  }

  lemma SideStays(r: OrderRow, r': OrderRow)
    requires Onward(r, r')
    ensures r'.side == r.side
  {
  }

  lemma SubmittingKeepsMarkets(s: State, id: OrderId)
    ensures Exec(s, SubmitOrder(id)).state.markets == s.markets
  {
    hide EngineSpec.Submit, Settle;
  }

  /** A run of enabled operations whose settlements all went through, after which FEE_REVENUE is not what the
      fee columns of the trades add up to. */
  lemma RebateGoesUnposted()
    ensures var s := Run(Init(MARKETS), PaidMaker());
            && AllEnabled(Init(MARKETS), PaidMaker()) && AllSettled(Init(MARKETS), PaidMaker())
            && SystemBalance(s.tables, FeeRevenue, "USDT") != FeesRecorded(s.markets, s.tables.orders, s.tables.trades, "USDT")
  {
    hide Poised, Inv, Run, Exec, AllEnabled, AllSettled, PaidMaker, SystemBalance, FeesRecorded, RecordsRebate, ApplySubmit;
    var s, i := ReachesPoised();
    RebateRecorded(s, i);
    EveryRunRecordsItsFeesIff(MARKETS, PaidMaker(), "USDT");
  }
}
