/** Building blocks for concrete runs: what single operations do to the facts such a run tracks. */
module Scenarios {
  import opened Types
  import opened BookSide
  import opened Matching
  import opened EngineSpec
  import opened Ledger
  import opened Holds
  import opened Settlement
  import opened FillProofs
  import opened Books
  import opened Exchange
  import opened Transfers
  import opened Safety
  import opened OrderHistory
  import opened Solvency
  import opened AgreementRuns

  const SYMBOL: MarketId := "BTCUSDT"
  const FREE_MARKET: Market := Market("BTC", "USDT", 1.0, 1.0, 1.0, 1.0, 0.0, 0.0, ActiveMarket)
  const MARKETS: Markets := map[SYMBOL := FREE_MARKET]

  /** A limit order for one unit. */
  function One(side: Side, price: real): Request {
    Request(SYMBOL, side, Limit, Some(price), 1.0)
  }

  lemma Distinct()
    ensures "s" != "b" && "BTC" != "USDT"
  {
    assert "s"[0] != "b"[0] && "BTC"[0] != "USDT"[0];
  }

  /** What a grant changes: one balance and its counterpart. */
  lemma GrantStep(s: State, userId: UserId, asset: AssetId, amount: real, k: AccountKey)
    requires Inv(s) && amount > 0.0 && k.owner.User?
    ensures var s' := Exec(s, GrantFunds(userId, asset, amount)).state;
            && Inv(s') && s' == s.(tables := s'.tables) && s'.tables.orders == s.tables.orders
            && At(s'.tables.accounts, k).available ==
               At(s.tables.accounts, k).available + if k == UserKey(userId, asset) then amount else 0.0
  {
    hide Inv, PostEntries, Money;
    StepKeepsInv(s, GrantFunds(userId, asset, amount));
    MoneyOf(s);
    TransferKeepsMoney(s.tables, Grant, SystemKey(TestLiquidity, asset), UserKey(userId, asset), amount);
  }

  lemma MoneyOf(s: State)
    requires Inv(s)
    ensures Money(s.tables.accounts, s.tables.holds, s.tables.journal) && TablesValid(s.markets, s.tables)
  {
  }

  /** What an accepted order changes: a row, and what it reserves. */
  lemma PlaceStep(s: State, userId: UserId, r: Request, price: real, k: AccountKey)
    requires Inv(s) && r.market in s.markets && r.market in s.engines && price > 0.0
    requires var m := s.markets[r.market];
             && AcceptsQuantity(m, r) && ResolvePrice(m, s.engines[r.market], r) == Ok(price)
             && Notional(price, r.quantity) >= m.minimumNotional
             && At(s.tables.accounts, LockKey(m, NewRow(userId, r, price))).available >= Reserve(r.side, price, r.quantity)
    ensures var m, row, s' := s.markets[r.market], NewRow(userId, r, price), Exec(s, Place(userId, r)).state;
            && Inv(s') && s' == s.(tables := s'.tables, pending := s.pending[|s.tables.orders| := m])
            && s'.tables.orders == s.tables.orders + [row]
            && At(s'.tables.accounts, k).available ==
               At(s.tables.accounts, k).available - if k == LockKey(m, row) then Reserve(r.side, price, r.quantity) else 0.0
  {
    hide Inv, TablesValid, CreateAndLock, ResolvePrice, AcceptsQuantity, Notional, Reserve;
    MoneyOf(s);
    StepKeepsInv(s, Place(userId, r));
    ReserveIs(NewRow(userId, r, price), r.quantity);
    PlaceKeepsTables(s.markets, s.tables, NewRow(userId, r, price)) by { AcceptedPositive(s.markets[r.market], r); }
  }

  lemma ReserveIs(row: OrderRow, q: real)
    ensures ReserveOf(row, q) == Reserve(row.side, row.price, q)
  {
  }

  lemma AcceptedPositive(m: Market, r: Request)
    requires AcceptsQuantity(m, r)
    ensures r.quantity > 0.0
  {
  }

  /** What a submission that meets nobody changes: its own side of the book. */
  lemma RestStep(s: State, id: OrderId)
    requires Inv(s) && id in s.pending && id < |s.tables.orders| && s.tables.orders[id].market in s.engines
    requires var row := s.tables.orders[id];
             row.orderType == Limit && SideOf(s.engines[row.market], Opposite(row.side)) == []
    ensures var row, s' := s.tables.orders[id], Exec(s, SubmitOrder(id)).state;
            var e := s.engines[row.market];
            var rest := Maker(id, row.userId, row.side, row.price, row.quantity, e.sequence + 1);
            var own := Insert(row.side, SideOf(e, row.side), rest);
            && Inv(s') && ApplySubmit(s, id).error.None?
            && s' == s.(engines := s.engines[row.market := if row.side == Buy then Engine(own, [], e.sequence + 1)
                                                           else Engine([], own, e.sequence + 1)],
                        pending := s.pending - {id})
  {
    hide Inv, SettleAll;
    StepKeepsInv(s, SubmitOrder(id));
    WaitingIsSubmitted(s, id);
    NothingToSettle(s.tables, s.tables.orders[id].market, s.pending[id]);
  }

  lemma RunCons(s: State, op: Op, rest: seq<Op>)
    ensures Run(s, [op] + rest) == Run(Exec(s, op).state, rest)
    ensures AllEnabled(s, [op] + rest) <==> Enabled(s, op) && AllEnabled(Exec(s, op).state, rest)
    ensures AllSettled(s, [op] + rest) <==> Settled(s, op) && AllSettled(Exec(s, op).state, rest)
  {
    assert ([op] + rest)[0] == op && ([op] + rest)[1..] == rest;
  }

  lemma RunNone(s: State)
    ensures Run(s, []) == s && AllEnabled(s, []) && AllSettled(s, [])
  {
  }

  lemma {:induction false} RunConcat(s: State, a: seq<Op>, b: seq<Op>)
    ensures Run(s, a + b) == Run(Run(s, a), b)
    ensures AllEnabled(s, a + b) <==> AllEnabled(s, a) && AllEnabled(Run(s, a), b)
    decreases |a|
  {
    hide Exec, Enabled, Run, AllEnabled, AllSettled;
    if a == [] {
      assert a + b == b;
      RunNone(s);
    } else {
      assert a == [a[0]] + a[1..] && a + b == [a[0]] + (a[1..] + b);
      RunCons(s, a[0], a[1..]);
      RunCons(s, a[0], a[1..] + b);
      RunConcat(Exec(s, a[0]).state, a[1..], b);
    }
  }

  /** The one market, its book, nothing under way, and what the seller and the buyer have. */
  ghost predicate Calm(s: State, bids: seq<Maker>, asks: seq<Maker>, orders: seq<OrderRow>, base: real, quote: real) {
    && Inv(s) && s.markets == MARKETS && s.pending == map[] && s.engines.Keys == {SYMBOL}
    && s.engines[SYMBOL].bids == bids && s.engines[SYMBOL].asks == asks
    && s.tables.orders == orders
    && At(s.tables.accounts, UserKey("s", "BTC")).available == base
    && At(s.tables.accounts, UserKey("b", "USDT")).available == quote
  }

  /** The funded start of every run below. */
  function Funding(quote: real, rest: seq<Op>): seq<Op> {
    [GrantFunds("s", "BTC", 2.0)] + ([GrantFunds("b", "USDT", quote)] + rest)
  }

  function Funded(quote: real): State {
    Exec(Exec(Init(MARKETS), GrantFunds("s", "BTC", 2.0)).state, GrantFunds("b", "USDT", quote)).state
  }

  lemma FundingRun(quote: real, rest: seq<Op>)
    requires quote > 0.0
    ensures Run(Init(MARKETS), Funding(quote, rest)) == Run(Funded(quote), rest)
    ensures AllEnabled(Init(MARKETS), Funding(quote, rest)) <==> AllEnabled(Funded(quote), rest)
    ensures AllSettled(Init(MARKETS), Funding(quote, rest)) <==> AllSettled(Funded(quote), rest)
    ensures Calm(Funded(quote), [], [], [], 2.0, quote)
  {
    hide Inv, Exec, Run, AllEnabled, AllSettled;
    Distinct();
    InitHasInv(MARKETS);
    StartsEmpty();
    var s0 := Init(MARKETS);
    var s1 := Exec(s0, GrantFunds("s", "BTC", 2.0)).state;
    GrantStep(s0, "s", "BTC", 2.0, UserKey("s", "BTC"));
    GrantStep(s0, "s", "BTC", 2.0, UserKey("b", "USDT"));
    GrantStep(s1, "b", "USDT", quote, UserKey("s", "BTC"));
    GrantStep(s1, "b", "USDT", quote, UserKey("b", "USDT"));
    RunCons(s0, GrantFunds("s", "BTC", 2.0), [GrantFunds("b", "USDT", quote)] + rest);
    RunCons(s1, GrantFunds("b", "USDT", quote), rest);
  }

  lemma StartsEmpty()
    ensures PairsDistinct(MARKETS) && Init(MARKETS).engines.Keys == {SYMBOL} && Init(MARKETS).engines[SYMBOL] == EMPTY
    ensures forall k :: At(Init(MARKETS).tables.accounts, k) == Account(0.0, 0.0)
  {
    Distinct();
  }

  /** An order of one unit is accepted as it is. */
  lemma OneIsAccepted(side: Side, price: real, e: Engine)
    requires price in {100.0, 150.0, 200.0}
    ensures AcceptsQuantity(FREE_MARKET, One(side, price)) && ResolvePrice(FREE_MARKET, e, One(side, price)) == Ok(price)
    ensures Notional(price, 1.0) >= 1.0
    ensures Reserve(Sell, price, 1.0) == 1.0 && Reserve(Buy, price, 1.0) == price
  {
  }

  /** Placing and submitting one unit against an empty opposing side. */
  function Resting(s: State, userId: UserId, side: Side, price: real): State {
    Exec(Exec(s, Place(userId, One(side, price))).state, SubmitOrder(|s.tables.orders|)).state
  }

  function RestOps(userId: UserId, side: Side, price: real, id: OrderId, rest: seq<Op>): seq<Op> {
    [Place(userId, One(side, price))] + ([SubmitOrder(id)] + rest)
  }

  /** One ask of the seller goes up. */
  lemma AskRests(s: State, price: real, asks: seq<Maker>, orders: seq<OrderRow>, base: real, quote: real, rest: seq<Op>)
    requires Calm(s, [], asks, orders, base, quote) && price in {100.0, 200.0} && base >= 1.0
    ensures var s', ops := Resting(s, "s", Sell, price), RestOps("s", Sell, price, |orders|, rest);
            && Calm(s', [], Insert(Sell, asks, Maker(|orders|, "s", Sell, price, 1.0, s.engines[SYMBOL].sequence + 1)),
                    orders + [NewRow("s", One(Sell, price), price)], base - 1.0, quote)
            && Run(s, ops) == Run(s', rest)
            && (AllEnabled(s, ops) <==> AllEnabled(s', rest)) && (AllSettled(s, ops) <==> AllSettled(s', rest))
  {
    hide Inv, Exec, Insert, Run, AllEnabled, AllSettled, ApplySubmit;
    Distinct();
    var r := One(Sell, price);
    OneIsAccepted(Sell, price, s.engines[SYMBOL]);
    PlaceStep(s, "s", r, price, UserKey("s", "BTC"));
    PlaceStep(s, "s", r, price, UserKey("b", "USDT"));
    var placed := Exec(s, Place("s", r)).state;
    RestStep(placed, |orders|);
    RunCons(s, Place("s", r), [SubmitOrder(|orders|)] + rest);
    RunCons(placed, SubmitOrder(|orders|), rest);
  }

  /** What a submission with a single fill writes. */
  lemma OneFillSettles(s: State, id: OrderId, f: Fill)
    requires Inv(s) && id in s.pending && id < |s.tables.orders| && s.tables.orders[id].market in s.engines
    requires OutcomeOf(s, id).fills == [f] && CanSettle(s, id)
    ensures f.makerOrderId < |s.tables.orders| && f.takerOrderId < |s.tables.orders|
    ensures var orders, t' := s.tables.orders, Exec(s, SubmitOrder(id)).state.tables;
            && ApplySubmit(s, id).error.None?
            && t'.trades == s.tables.trades
                            + [TradeOf(orders[id].market, f, DealOf(s.pending[id], orders, f), orders[f.makerOrderId].side == Buy)]
            && AllOnward(orders, t'.orders)
  {
    hide Inv, Match, Settle, SettlementOf, OutcomeOf, ApplySubmit, SettleAll, CloseRemainder, Exec, SameOrder, Onward, CanSettle;
    SubmissionSettlesExactlyWhen(s, id);
    WaitingIsSubmitted(s, id);
    SettledTaker(s, id);
    SubmitCommits(s, id);
    SettlementCloses(s, id);
    StepMovesForward(s, SubmitOrder(id));
    SameIsOnward(s.tables.orders, Exec(s, SubmitOrder(id)).state.tables.orders);
    SubmitIsExec(s, id);
    var settled := SettleAll(s.tables, s.tables.orders[id].market, s.pending[id], [f]);
    OneFillTrades(s.tables, s.tables.orders[id].market, s.pending[id], f);
    ClosingKeepsTrades(settled.value, id, ResultOf(s, id));
  }

  lemma OneFillTrades(t: Tables, mid: MarketId, m: Market, f: Fill)
    requires SettleAll(t, mid, m, [f]).Ok?
    ensures f.makerOrderId < |t.orders| && f.takerOrderId < |t.orders|
    ensures SettleAll(t, mid, m, [f]).value.trades ==
            t.trades + [TradeOf(mid, f, DealOf(m, t.orders, f), t.orders[f.makerOrderId].side == Buy)]
  {
    hide PostEntries, FillEntries, TouchFillAccounts, Unreserve, Fee;
    assert [f][1..] == [];
    NothingToSettle(SettleFill(t, mid, m, f).value, mid, m);
  }

  lemma ClosingKeepsTrades(t: Tables, id: OrderId, result: SubmitResult)
    ensures id < |t.orders| ==> CloseRemainder(t, id, result).trades == t.trades
  {
    hide ReduceHold;
  }
}
