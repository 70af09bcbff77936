/** Cancelling between matching and settling: a concrete interleaving in which the maker of a match under way
    is cancelled, and what its fill then does. */
module FlightRuns {
  import opened Types
  import opened BookSide
  import opened Matching
  import opened EngineSpec
  import opened Ledger
  import opened Holds
  import opened Settlement
  import opened FillProofs
  import opened Books
  import opened Exchange
  import opened Transfers
  import opened Safety
  import opened OrderHistory
  import opened Backing
  import opened Interleaving
  import opened Scenarios
  import opened Limits
  import Submission

  const BID: OrderRow := NewRow("b", One(Buy, 100.0), 100.0)

  function TheFill(i: nat): Fill {
    FillAgainst(Taker(1, "b", Buy, Some(100.0)), Resting0(i), 1.0)
  }

  lemma TheMatch(i: nat)
    ensures Match(Taker(1, "b", Buy, Some(100.0)), [Resting0(i)], 1.0) == Outcome([TheFill(i)], [], 0.0, false)
  {
    Distinct();
    var t := Taker(1, "b", Buy, Some(100.0));
    assert [Resting0(i)][1..] == [];
    assert Match(t, [], 0.0) == Outcome([], [], 0.0, false);
    assert Match(t, [Resting0(i)], 1.0) == Outcome([TheFill(i)] + [], [], 0.0, false);
  }

  /** The bid has taken the ask off the book; nothing is settled yet. */
  ghost predicate Matched(c: Machine, s: State, i: nat) {
    && c.core == s.(engines := c.core.engines, pending := map[]) && c.core.engines.Keys == {SYMBOL}
    && c.core.engines[SYMBOL].asks == [] && 1 !in Ids(c.core.engines[SYMBOL].bids)
    && c.flights == map[1 := Flight(SYMBOL, FREE_MARKET, SubmitResult(1, FullyFilled, [TheFill(i)], 0.0, false))]
  }

  lemma BidIsMatched(s: State, i: nat)
    requires Meeting(s) && s.engines[SYMBOL].asks == [Resting0(i)]
    ensures Matched(Act(Quiet(s), MatchOrder(1)), s, i)
  {
    hide Inv, Match, Submission.Submitted, EngineInSync;
    TheMatch(i);
    WaitingIsSubmitted(s, 1);
  }

  /** The maker's owner has cancelled: the row is closed, its hold released, and two units are available. */
  ghost predicate Withdrawing(s: State, t: Tables, c: Machine, i: nat) {
    && Matched(c.(core := c.core.(tables := s.tables)), s, i) && c.core.tables == t
    && Backed(s.markets, t) && 0 in t.holds && 1 in t.holds
    && t.orders == [ASK_0.(status := Cancelled), BID] && t.trades == s.tables.trades
    && t.holds[0].status == HoldStatus.Released && t.holds[1].status == Active
    && At(t.accounts, UserKey("s", "BTC")).available == 2.0
    && At(t.accounts, UserKey("b", "USDT")).available == 120.0
  }

  lemma MakerIsCancelled(s: State, c: Machine, i: nat)
    requires Meeting(s) && Matched(c, s, i)
    ensures var c' := Act(c, CloseRow("s", 0)); Withdrawing(s, c'.core.tables, c', i)
  {
    hide Inv, Backed, ReleaseHold, At, Meeting;
    AskReleased(s);
    var c' := Act(c, CloseRow("s", 0));
    assert c'.core.tables == Released(s.tables);
  }

  /** The tables once the ask's row is closed. */
  function Released(t: Tables): Tables
    requires |t.orders| > 0
  {
    var r := ReleaseHold(t.accounts, t.holds, 0);
    if r.Err? then t
    else t.(accounts := r.value.0, holds := r.value.1, orders := t.orders[0 := t.orders[0].(status := Cancelled)])
  }

  lemma AskReleased(s: State)
    requires Meeting(s)
    ensures s.tables.orders == [ASK_0, BID] && ReleaseHold(s.tables.accounts, s.tables.holds, 0).Ok?
    ensures var t := Released(s.tables);
            && Backed(s.markets, t) && 0 in t.holds && 1 in t.holds
            && t.orders == [ASK_0.(status := Cancelled), BID] && t.trades == s.tables.trades
            && t.holds[0].status == HoldStatus.Released && t.holds[1].status == Active
            && At(t.accounts, UserKey("s", "BTC")).available == 2.0
            && At(t.accounts, UserKey("b", "USDT")).available == 120.0
  {
    hide Inv, Backed, TablesValid, At, RowValid;
    Distinct();
    MoneyOf(s);
    OrderFacts(s, 0);
    OrderFacts(s, 1);
    CancelKeepsTables(s.markets, s.tables, 0);
    ValidIsBacked(s.markets, s.tables);
    CancelKeepsBacked(s.markets, s.tables, 0);
    ReserveIs(ASK_0, 1.0);
  }

  /** Settling the one fill. */
  lemma SettlesOneFill(t: Tables, i: nat)
    ensures Settle(t, SYMBOL, FREE_MARKET, 1, SubmitResult(1, FullyFilled, [TheFill(i)], 0.0, false))
            == SettleFill(t, SYMBOL, FREE_MARKET, TheFill(i))
  {
    hide SettleFill;
    assert [TheFill(i)][1..] == [];
    if SettleFill(t, SYMBOL, FREE_MARKET, TheFill(i)).Ok? {
      NothingToSettle(SettleFill(t, SYMBOL, FREE_MARKET, TheFill(i)).value, SYMBOL, FREE_MARKET);
    }
  }

  /** The one fill settles if and only if the seller, holding nothing in reserve any more, has a unit. */
  lemma FillNeedsTheUnit(markets: Markets, t: Tables, i: nat)
    requires markets == MARKETS && Backed(markets, t) && t.orders == [ASK_0.(status := Cancelled), BID]
    requires 0 in t.holds && t.holds[0].status != Active && 1 in t.holds && t.holds[1].status == Active
    requires At(t.accounts, UserKey("b", "USDT")).available >= 0.0
    ensures var r := SettleFill(t, SYMBOL, FREE_MARKET, TheFill(i));
            && (r.Ok? <==> At(t.accounts, UserKey("s", "BTC")).available >= 1.0)
            && (r.Ok? ==> |r.value.trades| == |t.trades| + 1 && |r.value.orders| == 2
                          && r.value.orders[0].status == Filled && r.value.orders[1].status == Filled)
  {
    hide Backed, At;
    Distinct();
    var f := TheFill(i);
    ReserveIs(BID, 1.0);
    OneIsAccepted(Buy, 100.0, EMPTY);
    FillSettlesBackedIff(markets, t, SYMBOL, f);
    FillKeepsBacked(markets, t, SYMBOL, f);
    if SettleFill(t, SYMBOL, FREE_MARKET, f).Ok? {
      FillWrites(t, SYMBOL, FREE_MARKET, f);
    }
  }

  /** The seller takes the two units out. */
  lemma UnitsAreWithdrawn(s: State, c: Machine, i: nat)
    requires Meeting(s) && Withdrawing(s, c.core.tables, c, i)
    ensures var t' := Act(c, Whole(Withdraw("s", "BTC", 2.0))).core.tables;
            && Backed(s.markets, t') && t'.orders == c.core.tables.orders && t'.holds == c.core.tables.holds
            && t'.trades == c.core.tables.trades
            && At(t'.accounts, UserKey("s", "BTC")).available == 0.0
            && At(t'.accounts, UserKey("b", "USDT")).available == 120.0
            && Act(c, Whole(Withdraw("s", "BTC", 2.0))) == c.(core := c.core.(tables := t'))
  {
    hide RowsBacked, TradesFit, TradesValid, Money, Reconciled, PostEntries, TransferEntries;
    Distinct();
    var t, from, to := c.core.tables, UserKey("s", "BTC"), SystemKey(WithdrawalSuspense, "BTC");
    TransferKeepsMoney(t, WithdrawalOut, from, to, 2.0);
    FundsKeepBooked(c.core, Withdraw("s", "BTC", 2.0));
    OnlyFundsKeepsBacked(c.core.markets, t, Exec(c.core, Withdraw("s", "BTC", 2.0)).state.tables);
  }

  /** A bid meets an ask. Between the match and its settlement the ask is cancelled. Settled then, it is paid
      out of what its owner has available and its cancelled row ends FILLED. If the owner first withdraws
      the released funds, the settlement of the limit order fails without any fee: nothing is traded, and
      the bid, whose row is open and funded, stands on no book. */
  lemma CancelledInFlight()
    ensures var s := Run(Init(MARKETS), PlaceBid());
            var c := ActAll(Quiet(s), [MatchOrder(1), CloseRow("s", 0)]);
            var settled, failed := Act(c, SettleFlight(1)), ActAll(c, [Whole(Withdraw("s", "BTC", 2.0)), SettleFlight(1)]);
            && AllEnabled(Init(MARKETS), PlaceBid()) && |c.core.tables.orders| == 2 && c.core.tables.orders[0].status == Cancelled
            && |settled.core.tables.orders| == 2 && settled.core.tables.orders[0].status == Filled
            && |settled.core.tables.trades| == |s.tables.trades| + 1
            && failed.flights == map[] && failed.core.tables.trades == s.tables.trades
            && |failed.core.tables.orders| == 2 && failed.core.tables.orders[1] == BID
            && SYMBOL in failed.core.engines && 1 !in Ids(failed.core.engines[SYMBOL].bids) + Ids(failed.core.engines[SYMBOL].asks)
  {
    hide Inv, Backed, Run, AllEnabled, PlaceBid, Act, SettleFill;
    ReachesMeeting();
    var s := Run(Init(MARKETS), PlaceBid());
    var i: nat :| s.engines[SYMBOL].asks == [Resting0(i)];
    ActsTwo(Quiet(s), MatchOrder(1), CloseRow("s", 0));
    BidIsMatched(s, i);
    var c1 := Act(Quiet(s), MatchOrder(1));
    MakerIsCancelled(s, c1, i);
    var c := Act(c1, CloseRow("s", 0));
    FillNeedsTheUnit(s.markets, c.core.tables, i);
    SettlesAsFill(s, c, i);
    UnitsAreWithdrawn(s, c, i);
    var c2 := Act(c, Whole(Withdraw("s", "BTC", 2.0)));
    ActsTwo(c, Whole(Withdraw("s", "BTC", 2.0)), SettleFlight(1));
    FillNeedsTheUnit(s.markets, c2.core.tables, i);
    SettlesAsFill(s, c2, i);
  }

  lemma SettlesAsFill(s: State, c: Machine, i: nat)
    requires Matched(c.(core := c.core.(tables := s.tables)), s, i)
    ensures var r := SettleFill(c.core.tables, SYMBOL, FREE_MARKET, TheFill(i));
            Act(c, SettleFlight(1)) == Machine(if r.Ok? then c.core.(tables := r.value) else c.core, map[])
  {
    hide SettleFill, Settle;
    SettlesOneFill(c.core.tables, i);
    assert c.flights - {1} == map[];
  }
}
