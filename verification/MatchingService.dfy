/** The bridge between the engines and the tables: settling fills, submitting orders, and rebuilding the
    engines on start. */
module MatchingServices {
  import opened Types
  import opened BookSide
  import opened Matching
  import opened EngineSpec
  import opened Ledger
  import opened Holds
  import opened Settlement
  import SettlementSpec = Settlement
  import opened FillProofs
  import opened Books
  import opened OrderBooks
  import opened MatchingEngines
  import opened Exchange
  import opened Safety
  import opened Services
  import opened WalletsServices

  /** Hold rows reference existing accounts. */
  ghost predicate HoldsHaveAccounts(t: Tables) {
    forall id | id in t.holds :: t.holds[id].account in t.accounts
  }

  lemma ReduceKeepsHoldAccounts(accounts: Accounts, holds: Holds, id: OrderId, amount: real)
    requires forall i | i in holds :: holds[i].account in accounts
    ensures var (accounts', holds') := ReduceHold(accounts, holds, id, amount);
            && accounts.Keys <= accounts'.Keys
            && forall i | i in holds' :: holds'[i].account in accounts'
  {
  }

  lemma {:induction false} ApplyAllKeepsKeys(accounts: Accounts, entries: seq<Entry>)
    requires ApplyAll(accounts, entries).Ok?
    ensures ApplyAll(accounts, entries).value.Keys == accounts.Keys
  {
    ApplyAllEffect(accounts, entries);
  }

  lemma FillKeepsHoldAccounts(t: Tables, mid: MarketId, m: Market, f: Fill)
    requires HoldsHaveAccounts(t) && SettlementSpec.SettleFill(t, mid, m, f).Ok?
    ensures HoldsHaveAccounts(SettlementSpec.SettleFill(t, mid, m, f).value)
  {
    hide ReduceHold, FillEntries, ReserveOf;
    var b, s := BuyerOf(t.orders, f), SellerOf(t.orders, f);
    var rb, rs := ReserveOf(t.orders[b], f.quantity), ReserveOf(t.orders[s], f.quantity);
    ReduceKeepsHoldAccounts(t.accounts, t.holds, b, rb);
    var (accounts', holds') := ReduceHold(t.accounts, t.holds, b, rb);
    ReduceKeepsHoldAccounts(accounts', holds', s, rs);
    var deal := DealOf(m, t.orders, f);
    var unreserved := Unreserve(t.accounts, t.holds, b, rb, s, rs).0;
    ApplyAllKeepsKeys(TouchFillAccounts(unreserved, m, deal), FillEntries(m, deal));
    assert unreserved.Keys <= TouchFillAccounts(unreserved, m, deal).Keys;
  }

  function EmptyEngines(ids: set<MarketId>): map<MarketId, Engine> {
    map mid | mid in ids :: EMPTY
  }

  lemma OneMoreEmpty(ids: set<MarketId>, mid: MarketId)
    ensures EmptyEngines(ids + {mid}) == EmptyEngines(ids)[mid := EMPTY]
  {
  }

  class MatchingService {
    const db: Database
    const ledger: LedgerService
    const balances: BalancesService
    var engines: map<MarketId, MatchingEngine>
    /** The engines and their books. */
    ghost var Repr: set<object>

    constructor (db: Database, ledger: LedgerService, balances: BalancesService)
      ensures this.db == db && this.ledger == ledger && this.balances == balances && engines == map[] && Repr == {}
    {
      this.db, this.ledger, this.balances, this.engines, Repr := db, ledger, balances, map[], {};
    }

    ghost predicate Wired() {
      ledger.db == db && balances.db == db
    }

    /** Books a fill on one order. */
    method ApplyFillToOrder(id: OrderId, quantity: real)
      requires id < |db.orders|
      modifies db`orders
      ensures db.orders == ApplyFill(old(db.orders), id, quantity)
    {
      var order := db.orders[id];
      var filled, remaining := order.filled + quantity, order.remaining - quantity;
      db.orders := db.orders[id := order.(filled := filled, remaining := remaining,
                                          status := if remaining <= 0.0 then Filled else PartiallyFilled)];
    }

    /** Creates the six accounts a fill may touch. */
    method CreateFillAccounts(m: Market, d: Deal)
      requires Wired()
      modifies db`accounts
      ensures db.accounts == TouchFillAccounts(old(db.accounts), m, d)
    {
      hide Touch;
      ledger.GetOrCreateAccount(UserKey(d.buyer, m.base));
      ledger.GetOrCreateAccount(UserKey(d.buyer, m.quote));
      ledger.GetOrCreateAccount(UserKey(d.seller, m.base));
      ledger.GetOrCreateAccount(UserKey(d.seller, m.quote));
      ledger.GetOrCreateAccount(SystemKey(FeeRevenue, m.base));
      ledger.GetOrCreateAccount(SystemKey(FeeRevenue, m.quote));
    }

    /** The legs of a fill, pushed one by one. */
    method BuildEntries(m: Market, d: Deal) returns (entries: seq<Entry>)
      ensures entries == FillEntries(m, d)
    {
      entries := [Entry(UserKey(d.buyer, m.quote), Debit, d.quoteAmount), Entry(UserKey(d.seller, m.base), Debit, d.quantity)];
      if d.sellerFee > 0.0 {
        entries := entries + [Entry(UserKey(d.seller, m.quote), Credit, d.quoteAmount - d.sellerFee)];
        entries := entries + [Entry(SystemKey(FeeRevenue, m.quote), Credit, d.sellerFee)];
      } else {
        entries := entries + [Entry(UserKey(d.seller, m.quote), Credit, d.quoteAmount)];
      }
      if d.buyerFee > 0.0 {
        entries := entries + [Entry(UserKey(d.buyer, m.base), Credit, d.quantity - d.buyerFee)];
        entries := entries + [Entry(SystemKey(FeeRevenue, m.base), Credit, d.buyerFee)];
      } else {
        entries := entries + [Entry(UserKey(d.buyer, m.base), Credit, d.quantity)];
      }
    }

    /** Unreserves what each side set aside for the quantity, moves it, and books the fill. */
    method SettleFill(mid: MarketId, m: Market, fill: Fill) returns (error: Option<Error>)
      requires Wired() && HoldsHaveAccounts(db.Snapshot())
      modifies db`accounts, db`holds, db`journal, db`orders, db`trades
      ensures var r := SettlementSpec.SettleFill(old(db.Snapshot()), mid, m, fill);
              if r.Ok? then error == None && db.Snapshot() == r.value else error == Some(r.error)
      ensures error.None? ==> HoldsHaveAccounts(db.Snapshot())
    {
      hide FillEntries, TouchFillAccounts, PostEntries, ReduceHold, ReserveOf, HoldsHaveAccounts, Fee;
      if fill.makerOrderId >= |db.orders| || fill.takerOrderId >= |db.orders| {
        return Some(NotFound);
      }
      ghost var before := db.Snapshot();
      var makerOrder, takerOrder := db.orders[fill.makerOrderId], db.orders[fill.takerOrderId];
      var makerIsBuyer := makerOrder.side == Buy;
      var buyerId, sellerId := if makerIsBuyer then fill.makerOrderId else fill.takerOrderId,
                               if makerIsBuyer then fill.takerOrderId else fill.makerOrderId;
      var buyerOrder, sellerOrder := db.orders[buyerId], db.orders[sellerId];

      UnreserveBoth(buyerId, ReserveOf(buyerOrder, fill.quantity), sellerId, ReserveOf(sellerOrder, fill.quantity));

      var buyerFee := Fee(fill.quantity, if makerIsBuyer then m.makerFee else m.takerFee);
      var sellerFee := Fee(fill.quoteAmount, if makerIsBuyer then m.takerFee else m.makerFee);
      var deal := Deal(buyerOrder.userId, sellerOrder.userId, fill.quantity, fill.quoteAmount, buyerFee, sellerFee);
      assert deal == DealOf(m, before.orders, fill);
      db.trades := db.trades + [Trade(mid, fill.makerOrderId, fill.takerOrderId, deal.buyer, deal.seller,
                                      fill.price, fill.quantity, fill.quoteAmount,
                                      if makerIsBuyer then buyerFee else sellerFee, if makerIsBuyer then sellerFee else buyerFee)];
      CreateFillAccounts(m, deal);
      var entries := BuildEntries(m, deal);
      error := ledger.PostTransaction(TradeFill, entries);
      if error.Some? {
        return;
      }
      ApplyFillToOrder(fill.makerOrderId, fill.quantity);
      ApplyFillToOrder(fill.takerOrderId, fill.quantity);
      FillKeepsHoldAccounts(before, mid, m, fill);
    }

    /** Gives back what both sides reserved for a quantity. */
    method UnreserveBoth(buyerId: OrderId, buyerAmount: real, sellerId: OrderId, sellerAmount: real)
      requires Wired() && HoldsHaveAccounts(db.Snapshot())
      modifies db`accounts, db`holds
      ensures (db.accounts, db.holds) ==
              Unreserve(old(db.accounts), old(db.holds), buyerId, buyerAmount, sellerId, sellerAmount)
    {
      ReduceKeepsHoldAccounts(db.accounts, db.holds, buyerId, buyerAmount);
      balances.ReduceHold(buyerId, buyerAmount);
      balances.ReduceHold(sellerId, sellerAmount);
    }

    // -------------------------------------------------------------------------
    // Engines
    // -------------------------------------------------------------------------

    /** No two markets share an engine or a book. */
    ghost predicate Apart()
      reads this
    {
      forall x, y | x in engines && y in engines && x != y :: engines[x] != engines[y] && engines[x].book != engines[y].book
    }

    ghost predicate Valid()
      reads this, Repr
    {
      && Wired() && Apart() && this !in Repr && db !in Repr
      && (forall mid | mid in engines :: engines[mid] in Repr && engines[mid].book in Repr)
      && (forall mid | mid in engines :: engines[mid].Valid())
    }

    ghost function Engines(): map<MarketId, Engine>
      reads this, Repr
      requires Valid()
    {
      map mid | mid in engines :: engines[mid].View()
    }

    /** What callers need to know about the footprint. */
    lemma Footprint()
      requires Valid()
      ensures Wired() && this !in Repr && db !in Repr
      ensures Engines().Keys == engines.Keys && forall mid | mid in engines :: Engines()[mid] == engines[mid].View()
    {
    }

    /** Settles the fills of a submission in order, up to the first that fails. */
    method SettleFills(mid: MarketId, m: Market, fills: seq<Fill>) returns (error: Option<Error>)
      requires Wired() && HoldsHaveAccounts(db.Snapshot())
      modifies db`accounts, db`holds, db`journal, db`orders, db`trades
      ensures var r := SettleAll(old(db.Snapshot()), mid, m, fills);
              if r.Ok? then error == None && db.Snapshot() == r.value && HoldsHaveAccounts(db.Snapshot())
              else error == Some(r.error)
    {
      hide SettlementSpec.SettleFill, HoldsHaveAccounts;
      error := None;
      for i := 0 to |fills|
        invariant error == None && HoldsHaveAccounts(db.Snapshot())
        invariant SettleAll(db.Snapshot(), mid, m, fills[i..]) == SettleAll(old(db.Snapshot()), mid, m, fills)
      {
        assert fills[i..][0] == fills[i] && fills[i..][1..] == fills[i + 1..];
        error := SettleFill(mid, m, fills[i]);
        if error.Some? {
          return;
        }
      }
    }

    /** Releases what is still reserved for a remainder that will never fill, and closes its order. */
    method CloseRest(id: OrderId, result: SubmitResult)
      requires Wired() && HoldsHaveAccounts(db.Snapshot()) && id < |db.orders|
      modifies db`accounts, db`holds, db`orders
      ensures db.Snapshot() == CloseRemainder(old(db.Snapshot()), id, result)
    {
      hide ReduceHold, ReserveOf;
      balances.ReduceHold(id, ReserveOf(db.orders[id], result.remaining)) by { HoldAccount(db.Snapshot(), id); }
      db.orders := db.orders[id := db.orders[id].(
        status := Cancelled,
        rejectReason := Some(if result.selfTradePrevented then SelfTradePrevented else NoLiquidity))];
    }

    /** Settles the outcome of a submission in one transaction. */
    method SettleResult(mid: MarketId, m: Market, id: OrderId, result: SubmitResult) returns (error: Option<Error>)
      requires Wired() && HoldsHaveAccounts(db.Snapshot())
      modifies db
      ensures db.markets == old(db.markets)
      ensures Committed(old(db.Snapshot()), db.Snapshot(), error, Settle(old(db.Snapshot()), mid, m, id, result))
    {
      hide SettleAll, CloseRemainder, HoldsHaveAccounts;
      var before := db.Snapshot();
      error := SettleFills(mid, m, result.fills);
      if error.Some? {
        db.Restore(before);
        return;
      }
      if CancelledRemainder(result.status) && result.remaining > 0.0 && id < |db.orders| {
        CloseRest(id, result);
      }
    }

    /** Runs an order through its market's engine; the other engines do not notice. */
    method SubmitToEngine(mid: MarketId, input: Input) returns (result: SubmitResult)
      requires Valid() && mid in engines && Acceptable(input) && FreshId(engines[mid].View(), input.id)
      modifies engines[mid], engines[mid].book
      ensures Valid()
      ensures var (e', r) := EngineSpec.Submit(old(Engines())[mid], input);
              Engines() == old(Engines())[mid := e'] && result == r
    {
      hide EngineSpec.Submit, FreshId, MatchingEngine.Valid, MatchingEngine.View, OrderBook.Valid, OrderBook.Orders;
      engines[mid].BookIsValid();
      var submitted := engines[mid].Submit(input);
      result := submitted.value;
    }

    /** Submits a placed order to its market's engine and settles whatever fills result. The engine is
        not rolled back with the tables. */
    method SubmitAndSettle(id: OrderId, m: Market) returns (error: Option<Error>)
      requires Valid() && HoldsHaveAccounts(db.Snapshot())
      requires id < |db.orders| && Acceptable(InputOf(id, db.orders[id]))
      requires var mid := db.orders[id].market; mid in engines ==> FreshId(engines[mid].View(), id)
      modifies db, Repr
      ensures Valid() && engines == old(engines) && Repr == old(Repr) && db.markets == old(db.markets)
      ensures var row := old(db.orders)[id];
              if row.market !in engines then
                error == Some(NotFound) && db.Snapshot() == old(db.Snapshot()) && Engines() == old(Engines())
              else
                var (e', result) := EngineSpec.Submit(old(Engines())[row.market], InputOf(id, row));
                && Engines() == old(Engines())[row.market := e']
                && Committed(old(db.Snapshot()), db.Snapshot(), error, Settle(old(db.Snapshot()), row.market, m, id, result))
    {
      hide EngineSpec.Submit, SettleAll, CloseRemainder, HoldsHaveAccounts, FreshId, MatchingEngine.Valid, MatchingEngine.View;
      var row := db.orders[id];
      if row.market !in engines {
        return Some(NotFound);
      }
      var result := SubmitToEngine(row.market, InputOf(id, row));
      if result.fills == [] && result.status == Rests {
        NothingToSettle(db.Snapshot(), row.market, m);
        return None;
      }
      error := SettleResult(row.market, m, id, result);
    }

    /** Takes a resting order off its market's book. */
    method CancelResting(mid: MarketId, orderId: OrderId)
      requires Valid()
      modifies Repr
      ensures Valid() && engines == old(engines) && Repr == old(Repr)
      ensures Engines() == if mid in engines then old(Engines())[mid := EngineSpec.Cancel(old(Engines())[mid], orderId)]
                           else old(Engines())
    {
      hide EngineSpec.Cancel, MatchingEngine.Valid, MatchingEngine.View, OrderBook.Valid, OrderBook.Orders, FreshId;
      if mid in engines {
        var _ := engines[mid].Cancel(orderId);
      }
    }

    // -------------------------------------------------------------------------
    // Start
    // -------------------------------------------------------------------------

    /** Enters an engine of its own for a market. */
    method Register(mid: MarketId, engine: MatchingEngine)
      requires Valid() && mid !in engines
      requires engine.Valid() && engine !in Repr && engine.book !in Repr
      modifies this`engines, this`Repr
      ensures Valid() && Repr == old(Repr) + {engine, engine.book}
      ensures engines == old(engines)[mid := engine]
      ensures Engines() == old(Engines())[mid := engine.View()]
    {
      hide MatchingEngine.Valid, MatchingEngine.View, OrderBook.Valid, OrderBook.Orders;
      engines, Repr := engines[mid := engine], Repr + {engine, engine.book};
    }

    method AddEngine(mid: MarketId)
      requires Valid() && mid !in engines
      modifies this`engines, this`Repr
      ensures Valid() && fresh(Repr - old(Repr))
      ensures engines.Keys == old(engines.Keys) + {mid} && Engines() == old(Engines())[mid := EMPTY]
    {
      hide Valid, Engines, MatchingEngine.Valid, MatchingEngine.View;
      var engine := NewEngine(mid);
      Register(mid, engine);
    }

    static method NewEngine(mid: MarketId) returns (engine: MatchingEngine)
      ensures fresh(engine) && fresh(engine.book) && engine.Valid() && engine.View() == EMPTY
    {
      EmptyIsValid();
      var book := new OrderBook(mid);
      engine := new MatchingEngine(book);
    }

    method ClearEngines()
      requires Wired()
      modifies this`engines, this`Repr
      ensures Valid() && Repr == {} && engines == map[] && Engines() == EmptyEngines({})
    {
      engines, Repr := map[], {};
    }

    /** An empty engine for every market. */
    method CreateEngines()
      requires Wired()
      modifies this`engines, this`Repr
      ensures Valid() && fresh(Repr) && engines.Keys == db.markets.Keys
      ensures Engines() == EmptyEngines(db.markets.Keys)
    {
      hide *;
      ClearEngines();
      ghost var done: set<MarketId> := {};
      var left := db.markets.Keys;
      while left != {}
        invariant Valid() && fresh(Repr)
        invariant engines.Keys == done && done !! left && done + left == db.markets.Keys
        invariant Engines() == EmptyEngines(done)
        decreases |left|
      {
        var mid :| mid in left;
        OneMoreEmpty(done, mid);
        AddEngine(mid);
        left, done := left - {mid}, done + {mid};
      }
    }

    /** Puts one resting order back on its market's book. */
    method RestoreOrder(i: OrderId)
      requires Valid() && i < |db.orders| && Live(db.orders[i]) && db.orders[i].orderType == Limit && db.orders[i].market in engines
      requires forall j | 0 <= j < |db.orders| :: RowValid(db.orders[j])
      requires Engines()[db.orders[i].market] == Rebuild(db.orders[..i], db.orders[i].market)
      modifies Repr
      ensures Valid() && engines == old(engines) && Repr == old(Repr)
      ensures var mid := db.orders[i].market; Engines() == old(Engines())[mid := Rebuild(db.orders[..i + 1], mid)]
    {
      hide LevelsValid, SideValid, Insert, RebuildSide;
      var order := db.orders[i];
      RebuildOneMore(db.orders, i);
      RebuildIsValid(db.orders[..i + 1], order.market);
      engines[order.market].book.Add(Maker(i, order.userId, order.side, order.price, order.remaining, 0));
    }

    /** Takes one more row into account: a resting order goes back on its book, any other changes nothing. */
    method RestoreNext(i: OrderId)
      requires Valid() && i < |db.orders|
      requires forall j | 0 <= j < |db.orders| :: RowValid(db.orders[j])
      requires Engines() == RebuiltAll(engines.Keys, db.orders[..i])
      modifies Repr
      ensures Valid() && engines == old(engines) && Repr == old(Repr)
      ensures Engines() == RebuiltAll(engines.Keys, db.orders[..i + 1])
    {
      hide RebuildSide, RowValid, MatchingEngine.Valid, MatchingEngine.View, OrderBook.Valid, OrderBook.Orders, Apart, Rebuild;
      Footprint();
      RebuildElsewhere(db.orders, i);
      var order := db.orders[i];
      if Live(order) && order.orderType == Limit && order.market in engines {
        RestoreOrder(i);
      }
    }

    /** Rebuilds the engines from the resting orders, oldest first. */
    method OnModuleInit()
      requires Wired() && forall i | 0 <= i < |db.orders| :: RowValid(db.orders[i])
      modifies this`engines, this`Repr
      ensures Valid() && fresh(Repr)
      ensures Engines() == map mid | mid in db.markets :: Rebuild(db.orders, mid)
    {
      hide RowValid, Valid, Engines, Rebuild;
      CreateEngines();
      assert db.orders[..0] == [];
      NothingToRebuild(db.markets.Keys);
      for i := 0 to |db.orders|
        invariant Valid() && fresh(Repr) && engines.Keys == db.markets.Keys
        invariant Engines() == RebuiltAll(engines.Keys, db.orders[..i])
      {
        Footprint();
        RestoreNext(i);
      }
      assert db.orders[..|db.orders|] == db.orders;
    }
  }

  lemma EmptyIsValid()
    ensures EngineValid(EMPTY)
  {
  }

  function RebuiltAll(ids: set<MarketId>, orders: seq<OrderRow>): map<MarketId, Engine> {
    map mid | mid in ids :: Rebuild(orders, mid)
  }

  lemma NothingToRebuild(ids: set<MarketId>)
    ensures RebuiltAll(ids, []) == EmptyEngines(ids)
  {
  }

  lemma RebuildIsValid(orders: seq<OrderRow>, mid: MarketId)
    requires forall i | 0 <= i < |orders| :: RowValid(orders[i])
    ensures EngineValid(Rebuild(orders, mid))
  {
    RebuildInSync(orders, mid);
  }

  /** One more resting row is one more insertion, on its own side. */
  lemma RebuildOneMore(orders: seq<OrderRow>, i: OrderId)
    requires i < |orders| && Live(orders[i]) && orders[i].orderType == Limit
    ensures var r, older, newer := orders[i], orders[..i], orders[..i + 1];
            && RebuildSide(newer, r.market, r.side) == Insert(r.side, RebuildSide(older, r.market, r.side), RestoredMaker(i, r))
            && RebuildSide(newer, r.market, Opposite(r.side)) == RebuildSide(older, r.market, Opposite(r.side))
  {
    assert orders[..i + 1][..i] == orders[..i];
  }

  /** A row that does not rest in a market changes nothing there. */
  lemma RebuildElsewhere(orders: seq<OrderRow>, i: OrderId)
    requires i < |orders|
    ensures forall mid | !(orders[i].market == mid && orders[i].orderType == Limit && Live(orders[i])) ::
              Rebuild(orders[..i + 1], mid) == Rebuild(orders[..i], mid)
  {
    assert orders[..i + 1][..i] == orders[..i];
  }

  lemma HoldAccount(t: Tables, id: OrderId)
    requires HoldsHaveAccounts(t)
    ensures id in t.holds ==> t.holds[id].account in t.accounts
  {
  }

}
