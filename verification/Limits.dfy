/** Where the promises end: concrete runs in which a settlement fails, a restart crosses the book, a
    cancelled order trades, and a restart reorders a queue. */
module Limits {
  import opened Types
  import opened BookSide
  import opened Matching
  import opened EngineSpec
  import opened Ledger
  import opened Settlement
  import opened FillProofs
  import opened Books
  import opened Submission
  import opened Exchange
  import opened Transfers
  import opened Safety
  import opened OrderHistory
  import opened Solvency
  import opened Agreement
  import opened AgreementRuns
  import opened Crossing
  import opened Interleaving
  import opened Restarts
  import opened Rebuilding
  import opened CancelRace
  import opened LateSettlements
  import opened Scenarios

  // ---------------------------------------------------------------------------
  // A market buy that walks past its reserve
  // ---------------------------------------------------------------------------

  const BUY_TWO: Request := Request(SYMBOL, Buy, MarketOrder, None, 2.0)

  /** A seller asks 100 and 200 for one unit each; a buyer who owns 220 sends a market order for two. */
  function Shortfall(): seq<Op> {
    Funding(220.0, RestOps("s", Sell, 100.0, 0, RestOps("s", Sell, 200.0, 1, [Place("b", BUY_TWO)])))
  }

  const ASK_0: OrderRow := NewRow("s", One(Sell, 100.0), 100.0)
  const ASK_1: OrderRow := NewRow("s", One(Sell, 200.0), 200.0)
  const BUY_2: OrderRow := NewRow("b", BUY_TWO, 110.0)

  function Resting0(i: nat): Maker {
    Maker(0, "s", Sell, 100.0, 1.0, i)
  }

  function Resting1(j: nat): Maker {
    Maker(1, "s", Sell, 200.0, 1.0, j)
  }

  /** The book and balances the buyer meets. */
  ghost predicate Trap(s: State) {
    && Inv(s) && s.markets == MARKETS && s.pending == map[2 := FREE_MARKET]
    && s.tables.orders == [ASK_0, ASK_1, BUY_2]
    && s.engines.Keys == {SYMBOL} && s.engines[SYMBOL].bids == []
    && (exists i, j: nat :: s.engines[SYMBOL].asks == [Resting0(i), Resting1(j)])
    && At(s.tables.accounts, UserKey("b", "USDT")).available == 0.0
  }

  lemma BuyIsAccepted(e: Engine)
    requires e.asks != [] && e.asks[0].price == 100.0
    ensures AcceptsQuantity(FREE_MARKET, BUY_TWO) && ResolvePrice(FREE_MARKET, e, BUY_TWO) == Ok(110.0)
    ensures Notional(110.0, 2.0) >= 1.0 && Reserve(Buy, 110.0, 2.0) == 220.0
  {
  }

  lemma OneAsk(i: nat)
    ensures Insert(Sell, [], Resting0(i)) == [Resting0(i)]
  {
  }

  lemma TwoAsks(i: nat, j: nat)
    ensures Insert(Sell, [Resting0(i)], Resting1(j)) == [Resting0(i), Resting1(j)]
  {
    assert [Resting0(i)][1..] == [];
  }

  /** The two fills cost 300 against a reserve of 220, and take the whole book. */
  lemma TrapFills(t: Taker, i: nat, j: nat)
    requires t == Taker(2, "b", Buy, None)
    ensures var o := Match(t, [Resting0(i), Resting1(j)], 2.0);
            && o.fills != [] && QuoteTotal(o.fills) == 300.0 && FilledQuantity(o.fills) == 2.0
            && o.makers == [] && o.remaining == 0.0 && !o.stopped
  {
    Distinct();
    var a, b := Resting0(i), Resting1(j);
    assert [a, b][1..] == [b] && [b][1..] == [];
    var f, g := FillAgainst(t, a, 1.0), FillAgainst(t, b, 1.0);
    assert Match(t, [], 0.0) == Outcome([], [], 0.0, false);
    assert Match(t, [b], 1.0) == Outcome([g] + [], [], 0.0, false);
    assert Match(t, [a, b], 2.0) == Outcome([f] + ([g] + []), [], 0.0, false);
    assert [f] + ([g] + []) == [f, g];
    assert [f, g][1..] == [g] && [g][1..] == [];
    assert QuoteTotal([g]) == 200.0 && FilledQuantity([g]) == 1.0;
  }

  lemma ReachesTrap()
    ensures AllEnabled(Init(MARKETS), Shortfall()) && AllSettled(Init(MARKETS), Shortfall())
    ensures Trap(Run(Init(MARKETS), Shortfall()))
  {
    hide Inv, Exec, Run, AllEnabled, AllSettled, Insert, RestOps, Resting, Funding, Funded;
    Distinct();
    var rest := [Place("b", BUY_TWO)];
    var s2 := Funded(220.0);
    FundingRun(220.0, RestOps("s", Sell, 100.0, 0, RestOps("s", Sell, 200.0, 1, rest)));
    AskRests(s2, 100.0, [], [], 2.0, 220.0, RestOps("s", Sell, 200.0, 1, rest));
    var s4 := Resting(s2, "s", Sell, 100.0);
    OneAsk(s2.engines[SYMBOL].sequence + 1);
    AskRests(s4, 200.0, s4.engines[SYMBOL].asks, [ASK_0], 1.0, 220.0, rest);
    var s6 := Resting(s4, "s", Sell, 200.0);
    TwoAsks(s2.engines[SYMBOL].sequence + 1, s4.engines[SYMBOL].sequence + 1);
    BuyIsAccepted(s6.engines[SYMBOL]);
    PlaceStep(s6, "b", BUY_TWO, 110.0, UserKey("b", "USDT"));
    RunCons(s6, Place("b", BUY_TWO), []);
    assert rest == [Place("b", BUY_TWO)] + [];
    RunNone(Exec(s6, Place("b", BUY_TWO)).state);
    PlaceIsFree(s6, "b", BUY_TWO);
  }

  lemma PlaceIsFree(s: State, userId: UserId, r: Request)
    ensures Enabled(s, Place(userId, r)) && Settled(s, Place(userId, r))
  {
  }

  /** The buyer's order cannot be paid for: its submission fails, empties the book and leaves the rows. */
  lemma TrapSprings(s: State)
    requires Trap(s)
    ensures 2 in s.pending && 2 < |s.tables.orders| && s.tables.orders[2].market in s.engines && !CanSettle(s, 2)
    ensures var r := ApplySubmit(s, 2);
            && r.error.Some? && Inv(r.state) && r.state.tables == s.tables && r.state.pending == map[] && r.state.markets == MARKETS
            && r.state.engines.Keys == {SYMBOL} && r.state.engines[SYMBOL].bids == [] && r.state.engines[SYMBOL].asks == []
  {
    hide Inv, SettlementOf, Match, OwnSide, FilledQuantity, QuoteTotal, ApplySubmit, TablesValid, EngineInSync, Settle;
    var i: nat, j: nat :| s.engines[SYMBOL].asks == [Resting0(i), Resting1(j)];
    TrapFills(Taker(2, "b", Buy, None), i, j);
    WaitingIsSubmitted(s, 2);
    SubmissionSettlesExactlyWhen(s, 2);
    SubmitCommits(s, 2);
    SubmittedState(s, 2);
    SubmitKeepsInv(s, 2);
    NothingRests(InputOf(2, BUY_2), s.engines[SYMBOL].sequence + 1);
  }

  lemma NothingRests(input: Input, sequence: nat)
    requires Acceptable(input)
    ensures OwnSide(input, [], 0.0, false, sequence) == []
  {
  }

  /** "Settlement never fails" is false of a market buy: here is a run whose settlements have all gone
      through and after which, without any fee, a funded order cannot be paid for. Its submission fails
      and takes book and rows apart. */
  lemma MarketBuyCanFail()
    ensures AllEnabled(Init(MARKETS), Shortfall()) && AllSettled(Init(MARKETS), Shortfall())
    ensures var s := Run(Init(MARKETS), Shortfall());
            InStep(s) && ApplySubmit(s, 2).error.Some? && !InStep(ApplySubmit(s, 2).state)
  {
    hide Trap, Run, AllEnabled, AllSettled, ApplySubmit, Shortfall, InStep, Inv, CanSettle;
    ReachesTrap();
    var s := Run(Init(MARKETS), Shortfall());
    TrapSprings(s);
    InitHasInv(MARKETS) by { StartsEmpty(); }
    InitInStep(MARKETS);
    RunKeepsInStep(Init(MARKETS), Shortfall());
    TrapPending(s);
    StaysInStepIff(s, 2);
  }

  lemma TrapPending(s: State)
    requires Trap(s)
    ensures 2 in s.pending
  {
  }

  // ---------------------------------------------------------------------------
  // A restart that crosses the book
  // ---------------------------------------------------------------------------

  /** After the failed submission the buyer bids 150 for one unit, against an empty book. */
  function Rebid(): seq<Op> {
    [SubmitOrder(2)] + ([GrantFunds("b", "USDT", 150.0)] + RestOps("b", Buy, 150.0, 3, []))
  }

  const BID_3: OrderRow := NewRow("b", One(Buy, 150.0), 150.0)

  /** The bid rests although the rows still have the asks. */
  lemma RebidRests(s: State)
    requires Trap(s)
    ensures AllEnabled(s, Rebid())
    ensures var s' := Run(s, Rebid());
            && Inv(s') && s'.pending == map[] && s'.markets == MARKETS && s'.engines.Keys == {SYMBOL}
            && s'.engines[SYMBOL].asks == [] && s'.tables.orders == [ASK_0, ASK_1, BUY_2, BID_3]
  {
    hide Trap, Inv, Exec, Run, AllEnabled, AllSettled, Insert, ApplySubmit, CanSettle;
    Distinct();
    TrapSprings(s);
    TrapRows(s);
    var s1 := Exec(s, SubmitOrder(2)).state;
    SubmitIsExec(s, 2);
    GrantStep(s1, "b", "USDT", 150.0, UserKey("b", "USDT"));
    var s2 := Exec(s1, GrantFunds("b", "USDT", 150.0)).state;
    OneIsAccepted(Buy, 150.0, s2.engines[SYMBOL]);
    PlaceStep(s2, "b", One(Buy, 150.0), 150.0, UserKey("b", "USDT"));
    var s3 := Exec(s2, Place("b", One(Buy, 150.0))).state;
    RestStep(s3, 3);
    RunCons(s, SubmitOrder(2), [GrantFunds("b", "USDT", 150.0)] + RestOps("b", Buy, 150.0, 3, []));
    RunCons(s1, GrantFunds("b", "USDT", 150.0), RestOps("b", Buy, 150.0, 3, []));
    RunCons(s2, Place("b", One(Buy, 150.0)), [SubmitOrder(3)] + []);
    RunCons(s3, SubmitOrder(3), []);
    RunNone(Exec(s3, SubmitOrder(3)).state);
  }

  lemma TrapRows(s: State)
    requires Trap(s)
    ensures s.tables.orders == [ASK_0, ASK_1, BUY_2] && At(s.tables.accounts, UserKey("b", "USDT")).available == 0.0
  {
  }

  /** A restart can cross the book: after a failed settlement, a run of enabled operations ends with nothing
      under way and an uncrossed book, and restarting it then puts a bid of 150 against an ask of 100. */
  lemma RestartCanCross()
    ensures var ops := Shortfall() + Rebid();
            var s := Run(Init(MARKETS), ops);
            && AllEnabled(Init(MARKETS), ops) && s.pending == map[] && AllUncrossed(s)
            && !AllUncrossed(Exec(s, Restart).state)
  {
    hide Trap, Run, AllEnabled, AllSettled, Shortfall, Rebid, Inv, Exec, Sound;
    ReachesTrap();
    var s7 := Run(Init(MARKETS), Shortfall());
    RebidRests(s7);
    RunConcat(Init(MARKETS), Shortfall(), Rebid());
    var s := Run(s7, Rebid());
    EveryRunIsSound(MARKETS, Shortfall() + Rebid());
    StepUncrossedIff(s, Restart);
    var orders := s.tables.orders;
    assert RestsIn(orders[3], SYMBOL, Buy) && RestsIn(orders[0], SYMBOL, Sell) && orders[3].price > orders[0].price;
    assert !RowsUncrossed(orders, SYMBOL);
  }

  // ---------------------------------------------------------------------------
  // A cancelled order that trades
  // ---------------------------------------------------------------------------

  /** A bid meets the ask of 100, but is cancelled after it was placed and before it is submitted. */
  function PlaceBid(): seq<Op> {
    Funding(220.0, RestOps("s", Sell, 100.0, 0, [Place("b", One(Buy, 100.0))]))
  }

  lemma BidFill(i: nat)
    ensures var o := Match(Taker(1, "b", Buy, Some(100.0)), [Resting0(i)], 1.0);
            && |o.fills| == 1 && QuoteTotal(o.fills) == 100.0 && o.remaining == 0.0
  {
    Distinct();
    var t, a := Taker(1, "b", Buy, Some(100.0)), Resting0(i);
    var f := FillAgainst(t, a, 1.0);
    assert [a][1..] == [];
    assert Match(t, [], 0.0) == Outcome([], [], 0.0, false);
    assert Match(t, [a], 1.0) == Outcome([f] + [], [], 0.0, false);
    assert [f] + [] == [f] && [f][1..] == [];
  }

  /** The bid waits, against the one ask. */
  ghost predicate Meeting(s: State) {
    && Inv(s) && s.pending == map[1 := FREE_MARKET] && s.tables.orders == [ASK_0, NewRow("b", One(Buy, 100.0), 100.0)]
    && s.markets == MARKETS && s.engines.Keys == {SYMBOL} && (exists i: nat :: s.engines[SYMBOL].asks == [Resting0(i)])
    && At(s.tables.accounts, UserKey("b", "USDT")).available == 120.0
    && At(s.tables.accounts, UserKey("s", "BTC")).available == 1.0
  }

  lemma ReachesMeeting()
    ensures AllEnabled(Init(MARKETS), PlaceBid()) && Meeting(Run(Init(MARKETS), PlaceBid()))
  {
    hide Inv, Exec, Run, AllEnabled, AllSettled, Insert, RestOps, Resting, Funding, Funded;
    Distinct();
    var rest := [Place("b", One(Buy, 100.0))];
    var s2 := Funded(220.0);
    FundingRun(220.0, RestOps("s", Sell, 100.0, 0, rest));
    AskRests(s2, 100.0, [], [], 2.0, 220.0, rest);
    var s4 := Resting(s2, "s", Sell, 100.0);
    OneAsk(s2.engines[SYMBOL].sequence + 1);
    OneIsAccepted(Buy, 100.0, s4.engines[SYMBOL]);
    PlaceStep(s4, "b", One(Buy, 100.0), 100.0, UserKey("b", "USDT"));
    PlaceStep(s4, "b", One(Buy, 100.0), 100.0, UserKey("s", "BTC"));
    RunCons(s4, Place("b", One(Buy, 100.0)), []);
    assert rest == [Place("b", One(Buy, 100.0))] + [];
    RunNone(Exec(s4, Place("b", One(Buy, 100.0))).state);
    PlaceIsFree(s4, "b", One(Buy, 100.0));
  }

  /** What the owner has available once the reserve is released. */
  lemma MeetingIsPaid(s: State)
    requires Meeting(s)
    ensures 1 in s.pending && 1 < |s.tables.orders| && s.tables.orders[1].market in s.engines
    ensures OutcomeOf(s, 1).fills != [] && OutcomeOf(s, 1).remaining == 0.0
    ensures AvailableToPay(s, 1) == 220.0 && PaidFor(Buy, OutcomeOf(s, 1).fills) == 100.0
  {
    hide Inv, Match, QuoteTotal, AfterCancel, TablesValid;
    var i: nat :| s.engines[SYMBOL].asks == [Resting0(i)];
    BidFill(i);
    MoneyOf(s);
    CancelKeepsTables(s.markets, s.tables, 1);
    CancelPaysBack(s, 1);
    OneIsAccepted(Buy, 100.0, s.engines[SYMBOL]);
  }

  lemma CancelPaysBack(s: State, id: OrderId)
    requires Inv(s) && id in s.pending
    ensures id < |s.tables.orders| && s.tables.orders[id].market in s.markets
    ensures var row := s.tables.orders[id];
            var k := LockKey(s.markets[row.market], row);
            At(AfterCancel(s, id).tables.accounts, k).available ==
              At(s.tables.accounts, k).available + Reserve(row.side, row.price, row.quantity)
  {
    hide TablesValid, Synced, EngineSpec.Cancel;
    CancelFindsNothing(s, id);
    MoneyOf(s);
    WaitingUnfilled(s, id);
    WaitingFacts(s, id);
    CancelKeepsTables(s.markets, s.tables, id);
    ReserveIs(s.tables.orders[id], s.tables.orders[id].quantity);
  }

  /** From the empty exchange: the bid is cancelled and its reserve given back, then submitted; it takes the
      ask off the book, is paid out of the buyer's available funds, and its cancelled row ends FILLED. */
  lemma CancelledOrderTrades()
    ensures var s := Run(Init(MARKETS), PlaceBid());
            var c := Exec(s, CancelOrder("b", 1));
            var late := Exec(c.state, SubmitOrder(1));
            && AllEnabled(Init(MARKETS), PlaceBid()) && 1 in s.pending
            && c.error.None? && |c.state.tables.orders| == 2 && c.state.tables.orders[1].status == Cancelled
            && late.error.None? && |late.state.tables.orders| == 2 && late.state.tables.orders[1].status == Filled
            && |late.state.tables.trades| == |s.tables.trades| + 1
  {
    hide Inv, Run, AllEnabled, PlaceBid, Match, FilledQuantity, QuoteTotal, ApplySubmit, ApplyCancel, Meeting;
    ReachesMeeting();
    var s := Run(Init(MARKETS), PlaceBid());
    MeetingIsPaid(s);
    MeetingFacts(s);
    CancelFindsNothing(s, 1);
    LateSubmissionSettlesIff(s, 1);
    LateSubmissionRevives(s, 1);
    OneFillOnly(s);
  }

  lemma MeetingFacts(s: State)
    requires Meeting(s)
    ensures Inv(s) && 1 in s.pending && s.pending[1] == FREE_MARKET
    ensures s.tables.orders == [ASK_0, NewRow("b", One(Buy, 100.0), 100.0)]
  {
  }

  lemma OneFillOnly(s: State)
    requires Meeting(s)
    ensures 1 < |s.tables.orders| && s.tables.orders[1].market in s.engines
    ensures |OutcomeOf(s, 1).fills| == 1 && ResultOf(s, 1).status == FullyFilled
  {
    hide Inv, Match;
    var i: nat :| s.engines[SYMBOL].asks == [Resting0(i)];
    BidFill(i);
  }

  // ---------------------------------------------------------------------------
  // A restart that reorders a queue
  // ---------------------------------------------------------------------------

  /** Two bids at one price, placed in one order and submitted in the other. */
  function OutOfTurn(): seq<Op> {
    Funding(220.0, [Place("b", One(Buy, 100.0))] + ([Place("b", One(Buy, 100.0))] + ([SubmitOrder(1)] + ([SubmitOrder(0)] + []))))
  }

  function Bid(id: OrderId, i: nat): Maker {
    Maker(id, "b", Buy, 100.0, 1.0, i)
  }

  lemma YoungerFirst(i: nat, j: nat)
    ensures Insert(Buy, [], Bid(1, i)) == [Bid(1, i)]
    ensures Insert(Buy, [Bid(1, i)], Bid(0, j)) == [Bid(1, i), Bid(0, j)]
    ensures !Aged([Bid(1, i), Bid(0, j)])
  {
    assert [Bid(1, i)][1..] == [] && [Bid(1, i), Bid(0, j)][1..] == [Bid(0, j)];
    assert Bid(0, j) in [Bid(0, j)];
  }

  const BID_ROW: OrderRow := NewRow("b", One(Buy, 100.0), 100.0)

  /** Both bids rest, in some order, and the seller has two units. */
  ghost predicate TwoBids(s: State, bids: seq<Maker>) {
    && Inv(s) && s.markets == MARKETS && s.pending == map[] && s.engines.Keys == {SYMBOL} && s.engines[SYMBOL].bids == bids
    && s.tables.orders == [BID_ROW, BID_ROW]
    && At(s.tables.accounts, UserKey("s", "BTC")).available == 2.0
  }

  /** One bid placed; what the seller and the buyer have is tracked. */
  lemma BidPlaced(s: State)
    requires Inv(s) && s.markets == MARKETS && s.engines.Keys == {SYMBOL}
    requires At(s.tables.accounts, UserKey("b", "USDT")).available >= 100.0
    ensures var s' := Exec(s, Place("b", One(Buy, 100.0))).state;
            && Inv(s') && s' == s.(tables := s'.tables, pending := s.pending[|s.tables.orders| := FREE_MARKET])
            && s'.tables.orders == s.tables.orders + [BID_ROW]
            && At(s'.tables.accounts, UserKey("b", "USDT")).available == At(s.tables.accounts, UserKey("b", "USDT")).available - 100.0
            && At(s'.tables.accounts, UserKey("s", "BTC")).available == At(s.tables.accounts, UserKey("s", "BTC")).available
            && Enabled(s, Place("b", One(Buy, 100.0))) && Settled(s, Place("b", One(Buy, 100.0)))
  {
    hide Inv, Exec;
    Distinct();
    OneIsAccepted(Buy, 100.0, s.engines[SYMBOL]);
    PlaceStep(s, "b", One(Buy, 100.0), 100.0, UserKey("b", "USDT"));
    PlaceStep(s, "b", One(Buy, 100.0), 100.0, UserKey("s", "BTC"));
    PlaceIsFree(s, "b", One(Buy, 100.0));
  }

  lemma ReachesTwoBids()
    ensures AllEnabled(Init(MARKETS), OutOfTurn()) && AllSettled(Init(MARKETS), OutOfTurn())
    ensures exists i: nat, j: nat :: TwoBids(Run(Init(MARKETS), OutOfTurn()), [Bid(1, i), Bid(0, j)])
  {
    hide Inv, Exec, Run, AllEnabled, AllSettled, Insert, Funded, ApplySubmit;
    var r := One(Buy, 100.0);
    var s2 := Funded(220.0);
    FundingRun(220.0, [Place("b", r)] + ([Place("b", r)] + ([SubmitOrder(1)] + ([SubmitOrder(0)] + []))));
    BidPlaced(s2);
    var s3 := Exec(s2, Place("b", r)).state;
    BidPlaced(s3);
    var s4 := Exec(s3, Place("b", r)).state;
    RestStep(s4, 1);
    var s5 := Exec(s4, SubmitOrder(1)).state;
    YoungerFirst(s4.engines[SYMBOL].sequence + 1, s5.engines[SYMBOL].sequence + 1);
    RestStep(s5, 0);
    var s6 := Exec(s5, SubmitOrder(0)).state;
    RunCons(s2, Place("b", r), [Place("b", r)] + ([SubmitOrder(1)] + ([SubmitOrder(0)] + [])));
    RunCons(s3, Place("b", r), [SubmitOrder(1)] + ([SubmitOrder(0)] + []));
    RunCons(s4, SubmitOrder(1), [SubmitOrder(0)] + []);
    RunCons(s5, SubmitOrder(0), []);
    RunNone(s6);
    assert s6.pending == map[];
    assert TwoBids(s6, [Bid(1, s4.engines[SYMBOL].sequence + 1), Bid(0, s5.engines[SYMBOL].sequence + 1)]);
  }

  lemma RestartReorders(s: State, bids: seq<Maker>)
    requires TwoBids(s, bids)
    ensures var s' := Exec(s, Restart).state; TwoBids(s', [Bid(0, 0), Bid(1, 0)]) && s'.tables == s.tables
  {
    hide Inv, Insert;
    RestartKeepsInv(s);
    var orders := [BID_ROW, BID_ROW];
    assert orders[..1] == [BID_ROW] && [BID_ROW][..0] == [];
    YoungerLast();
    assert RebuildSide([], SYMBOL, Buy) == [];
    assert RebuildSide([BID_ROW], SYMBOL, Buy) == [Bid(0, 0)];
    assert RebuildSide(orders, SYMBOL, Buy) == [Bid(0, 0), Bid(1, 0)];
  }

  lemma YoungerLast()
    ensures Insert(Buy, [], Bid(0, 0)) == [Bid(0, 0)] && Insert(Buy, [Bid(0, 0)], Bid(1, 0)) == [Bid(0, 0), Bid(1, 0)]
  {
    assert [Bid(0, 0)][1..] == [];
  }

  /** A seller comes for one of the bids. */
  function LaterSell(): seq<Op> {
    [Place("s", One(Sell, 100.0))] + ([SubmitOrder(2)] + [])
  }

  lemma SellTakes(best: Maker, other: Maker)
    requires best.userId == "b" && best.price == 100.0 && best.remaining == 1.0
    ensures Match(Taker(2, "s", Sell, Some(100.0)), [best, other], 1.0).fills == [FillAgainst(Taker(2, "s", Sell, Some(100.0)), best, 1.0)]
  {
    Distinct();
    var t := Taker(2, "s", Sell, Some(100.0));
    assert [best, other][1..] == [other];
    assert Match(t, [other], 0.0).fills == [];
    assert Match(t, [best, other], 1.0).fills == [FillAgainst(t, best, 1.0)] + [];
  }

  /** The seller trades with whichever bid stands first. */
  lemma SellMeets(s: State, best: Maker, other: Maker)
    requires TwoBids(s, [best, other]) && best.userId == "b" && best.price == 100.0 && best.remaining == 1.0
    ensures var trades, trades' := s.tables.trades, Run(s, LaterSell()).tables.trades;
            |trades'| == |trades| + 1 && trades'[|trades|].makerOrderId == best.id
  {
    hide Inv, Exec, Run, Match, QuoteTotal, FilledQuantity, ApplySubmit;
    Distinct();
    var r := One(Sell, 100.0);
    OneIsAccepted(Sell, 100.0, s.engines[SYMBOL]);
    PlaceStep(s, "s", r, 100.0, UserKey("s", "BTC"));
    PlacingTrades(s, "s", r);
    var s1 := Exec(s, Place("s", r)).state;
    SellTakes(best, other);
    var f := FillAgainst(Taker(2, "s", Sell, Some(100.0)), best, 1.0);
    OneFillSettles(s1, 2, f);
    RunCons(s, Place("s", r), [SubmitOrder(2)] + []);
    RunCons(s1, SubmitOrder(2), []);
    RunNone(Exec(s1, SubmitOrder(2)).state);
  }

  lemma PlacingTrades(s: State, userId: UserId, r: Request)
    ensures Exec(s, Place(userId, r)).state.tables.trades == s.tables.trades
  {
    hide ResolvePrice;
  }

  /** A restart can show: two orders at one price that were submitted out of turn swap places, although every
      settlement went through and nothing is under way; and a sell that comes next trades with the other one. */
  lemma RestartCanReorder()
    ensures var s := Run(Init(MARKETS), OutOfTurn());
            var s' := Exec(s, Restart).state;
            && AllEnabled(Init(MARKETS), OutOfTurn()) && AllSettled(Init(MARKETS), OutOfTurn())
            && s.pending == map[] && !Indistinguishable(s, s') && !AnswersSame(s, s')
            && Run(s, LaterSell()).tables.trades != Run(s', LaterSell()).tables.trades
  {
    hide Exec, Run, AllEnabled, AllSettled, Indistinguishable, AnswersSame, Aged, TwoBids, LaterSell, OutOfTurn;
    ReachesTwoBids();
    StartsEmpty();
    var s := Run(Init(MARKETS), OutOfTurn());
    var i: nat, j: nat :| TwoBids(s, [Bid(1, i), Bid(0, j)]);
    YoungerFirst(i, j);
    assert s.pending == map[] && SYMBOL in s.engines && s.engines[SYMBOL].bids == [Bid(1, i), Bid(0, j)] by {
      BidsOf(s, [Bid(1, i), Bid(0, j)]);
    }
    assert !QueuesAged(s);
    EveryRestartIsInvisibleIff(MARKETS, OutOfTurn());
    RestartReorders(s, [Bid(1, i), Bid(0, j)]);
    SellMeets(s, Bid(1, i), Bid(0, j));
    SellMeets(Exec(s, Restart).state, Bid(0, 0), Bid(1, 0));
  }

  lemma BidsOf(s: State, bids: seq<Maker>)
    requires TwoBids(s, bids)
    ensures s.pending == map[] && SYMBOL in s.engines && s.engines[SYMBOL].bids == bids
  {
  }
}
