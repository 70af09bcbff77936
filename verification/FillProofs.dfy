/** When the settlement of one fill goes through, and what it keeps. */
module FillProofs {
  import opened Types
  import opened Matching
  import opened Ledger
  import opened Holds
  import opened Settlement

  /** The money invariant: locked funds are the active holds, balances are what the journal says,
      every asset sums to zero, and no user is overdrawn. */
  ghost predicate Money(accounts: Accounts, holds: Holds, journal: seq<LedgerTx>) {
    && HoldsMatch(accounts, holds)
    && Derived(accounts, journal)
    && Conserved(accounts)
    && NoOverdraft(accounts)
  }

  /** `accounts'` shows the same accounts, perhaps with some created. */
  ghost predicate SameAt(accounts: Accounts, accounts': Accounts) {
    accounts.Keys <= accounts'.Keys && forall k :: At(accounts', k) == At(accounts, k)
  }

  lemma TouchKeepsMoney(accounts: Accounts, holds: Holds, journal: seq<LedgerTx>, k: AccountKey)
    requires Money(accounts, holds, journal)
    ensures Money(Touch(accounts, k), holds, journal)
    ensures SameAt(accounts, Touch(accounts, k)) && k in Touch(accounts, k)
  {
    TouchChangesNothing(accounts, k);
    hide Conserved, NoOverdraft, ActiveSum, Net;
    assert SameAt(accounts, Touch(accounts, k));
  }

  /** A posting that balances in each asset keeps the money invariant. */
  lemma PostKeepsMoney(accounts: Accounts, holds: Holds, journal: seq<LedgerTx>, kind: Kind, entries: seq<Entry>)
    requires Money(accounts, holds, journal)
    requires PostEntries(accounts, entries).Ok? && PerAsset(entries)
    ensures Money(PostEntries(accounts, entries).value, holds, journal + [LedgerTx(kind, entries)])
    ensures forall k :: At(PostEntries(accounts, entries).value, k).available ==
                        At(accounts, k).available + EntriesNet(entries, k)
    ensures PostEntries(accounts, entries).value.Keys == accounts.Keys
    ensures forall k :: Net(journal + [LedgerTx(kind, entries)], k) == Net(journal, k) + EntriesNet(entries, k)
  {
    ApplyAllEffect(accounts, entries);
    var journal' := journal + [LedgerTx(kind, entries)];
    assert journal'[..|journal|] == journal;
    assert forall k :: Net(journal', k) == Net(journal, k) + EntriesNet(entries, k);
    hide ApplyAll, ActiveSum, Net, EntriesNet, AssetTotal, NoOverdraft;
    assert Derived(PostEntries(accounts, entries).value, journal') by {
      hide HoldsMatch, Conserved, PerAsset;
    }
  }

  ghost predicate FillAccountsExist(accounts: Accounts, m: Market, d: Deal) {
    && UserKey(d.buyer, m.base) in accounts && UserKey(d.buyer, m.quote) in accounts
    && UserKey(d.seller, m.base) in accounts && UserKey(d.seller, m.quote) in accounts
    && SystemKey(FeeRevenue, m.base) in accounts && SystemKey(FeeRevenue, m.quote) in accounts
  }

  ghost predicate Chargeable(d: Deal) {
    d.quoteAmount > 0.0 && d.quantity > 0.0 && d.sellerFee < d.quoteAmount && d.buyerFee < d.quantity
  }

  lemma TwoDebits(accounts: Accounts, d1: Entry, d2: Entry)
    requires d1.account in accounts && d2.account in accounts && d1.account != d2.account
    requires d1.direction == Debit && d2.direction == Debit
    requires d1.account.owner.User? && d2.account.owner.User?
    ensures ApplyAll(accounts, [d1, d2]).Ok? <==>
              accounts[d1.account].available >= d1.amount && accounts[d2.account].available >= d2.amount
  {
    assert [d1, d2][1..] == [d2] && [d2][1..] == [];
    var first := ApplyEntry(accounts, d1);
    if first.Ok? {
      assert first.value[d2.account] == accounts[d2.account];
      assert ApplyAll(first.value, [d2]).Ok? <==> ApplyEntry(first.value, d2).Ok?;
    }
  }

  function QuoteCredits(m: Market, d: Deal): seq<Entry> {
    Credits(UserKey(d.seller, m.quote), SystemKey(FeeRevenue, m.quote), d.quoteAmount, d.sellerFee)
  }

  function BaseCredits(m: Market, d: Deal): seq<Entry> {
    Credits(UserKey(d.buyer, m.base), SystemKey(FeeRevenue, m.base), d.quantity, d.buyerFee)
  }

  lemma FillEntriesPositive(m: Market, d: Deal)
    ensures AllPositive(FillEntries(m, d)) <==> Chargeable(d)
  {
    CreditsNet(UserKey(d.seller, m.quote), SystemKey(FeeRevenue, m.quote), d.quoteAmount, d.sellerFee);
    CreditsNet(UserKey(d.buyer, m.base), SystemKey(FeeRevenue, m.base), d.quantity, d.buyerFee);
    hide Credits;
    var entries := FillEntries(m, d);
    if AllPositive(entries) {
      assert forall e | e in QuoteCredits(m, d) :: e in entries;
      assert forall e | e in BaseCredits(m, d) :: e in entries;
    }
  }

  lemma FillApplies(accounts: Accounts, m: Market, d: Deal)
    requires FillAccountsExist(accounts, m, d) && d.buyer != d.seller
    ensures ApplyAll(accounts, FillEntries(m, d)).Ok? <==>
              && At(accounts, UserKey(d.buyer, m.quote)).available >= d.quoteAmount
              && At(accounts, UserKey(d.seller, m.base)).available >= d.quantity
  {
    var d1, d2 := Entry(UserKey(d.buyer, m.quote), Debit, d.quoteAmount), Entry(UserKey(d.seller, m.base), Debit, d.quantity);
    var credits := QuoteCredits(m, d) + BaseCredits(m, d);
    assert FillEntries(m, d) == [d1, d2] + credits;
    ApplyAllConcat(accounts, [d1, d2], credits);
    TwoDebits(accounts, d1, d2);
    if ApplyAll(accounts, [d1, d2]).Ok? {
      ApplyAllEffect(accounts, [d1, d2]);
      CreditsApply(ApplyAll(accounts, [d1, d2]).value, credits);
    }
  }

  /** The posting of a fill goes through exactly when nobody is charged everything they receive and
      both payers have what they pay. */
  lemma FillPostsIff(accounts: Accounts, m: Market, d: Deal)
    requires FillAccountsExist(accounts, m, d) && d.buyer != d.seller
    ensures PostEntries(accounts, FillEntries(m, d)).Ok? <==>
              && Chargeable(d)
              && At(accounts, UserKey(d.buyer, m.quote)).available >= d.quoteAmount
              && At(accounts, UserKey(d.seller, m.base)).available >= d.quantity
  {
    FillEntriesPositive(m, d);
    FillApplies(accounts, m, d);
    FillEntriesNet(m, d);
    hide AllPositive, ApplyAll, Total;
    assert |FillEntries(m, d)| >= 2;
  }

  // ---------------------------------------------------------------------------
  // Rows
  // ---------------------------------------------------------------------------

  predicate Live(r: OrderRow) {
    r.status == Open || r.status == PartiallyFilled
  }

  /** An order row whose quantities, status and reject reason fit together. */
  ghost predicate RowValid(r: OrderRow) {
    && r.price > 0.0 && r.quantity > 0.0
    && r.remaining >= 0.0 && r.filled + r.remaining == r.quantity
    && (r.status == Filled <==> r.remaining == 0.0)
    && (r.status == Open ==> r.filled == 0.0)
    && (r.status == PartiallyFilled ==> r.filled > 0.0)
    && r.filled >= 0.0
    && (r.rejectReason.Some? ==> r.status == Cancelled)
  }

  /** A live order holds exactly the reserve of what remains of it; a finished one holds nothing. */
  ghost predicate HoldFits(m: Market, h: Hold, r: OrderRow) {
    && h.account == LockKey(m, r)
    && (Live(r) ==> h.status == Active && h.amount == ReserveOf(r, r.remaining))
    && (r.status == Filled ==> h.status == Consumed)
    && (r.status == Cancelled ==> h.status == if r.rejectReason.Some? then Consumed else Released)
  }

  lemma ReserveSplits(r: OrderRow, a: real, b: real)
    ensures ReserveOf(r, a) - ReserveOf(r, b) == ReserveOf(r, a - b)
    ensures r.price > 0.0 && a > 0.0 ==> ReserveOf(r, a) > 0.0
    ensures ReserveOf(r, 0.0) == 0.0
  {
  }

  /** A fill between two rows on opposite sides of one market, of different users, at the maker's price. */
  ghost predicate FillKnown(orders: seq<OrderRow>, mid: MarketId, f: Fill) {
    && f.makerOrderId < |orders| && f.takerOrderId < |orders|
    && f.makerOrderId != f.takerOrderId
    && var maker, taker := orders[f.makerOrderId], orders[f.takerOrderId];
    && maker.market == mid && taker.market == mid
    && maker.side == Opposite(taker.side)
    && maker.userId != taker.userId
    && f.quantity > 0.0
    && f.price == maker.price && f.quoteAmount == Notional(f.price, f.quantity)
  }

  /** A fill the engine may hand to settlement: both rows live, with enough left. */
  ghost predicate FillReady(orders: seq<OrderRow>, mid: MarketId, f: Fill) {
    && FillKnown(orders, mid, f)
    && var maker, taker := orders[f.makerOrderId], orders[f.takerOrderId];
    && Live(maker) && Live(taker)
    && f.quantity <= maker.remaining && f.quantity <= taker.remaining
  }

  lemma FillToRow(m: Market, h: Hold, r: OrderRow, quantity: real)
    requires RowValid(r) && HoldFits(m, h, r) && Live(r) && 0.0 < quantity <= r.remaining
    ensures 0.0 < ReserveOf(r, quantity) <= h.amount
    ensures var amount := h.amount - ReserveOf(r, quantity);
            var h' := Hold(h.account, amount, if ReserveOf(r, quantity) == h.amount then Consumed else Active);
            RowValid(ApplyFillToOrder(r, quantity)) && HoldFits(m, h', ApplyFillToOrder(r, quantity))
  {
    ReserveSplits(r, r.remaining, quantity);
    ReserveSplits(r, quantity, 0.0);
    ReserveSplits(r, r.remaining - quantity, 0.0);
  }

  // ---------------------------------------------------------------------------
  // One fill on the accounts
  // ---------------------------------------------------------------------------

  /** The hold once `amount` of it has been given back. */
  function Less(h: Hold, amount: real): Hold {
    Hold(h.account, h.amount - amount, if amount == h.amount then Consumed else Active)
  }

  lemma ReduceKeepsMoney(accounts: Accounts, holds: Holds, journal: seq<LedgerTx>, id: OrderId, amount: real)
    requires Money(accounts, holds, journal)
    requires id in holds && holds[id].status == Active && 0.0 < amount <= holds[id].amount
    ensures var (accounts', holds') := ReduceHold(accounts, holds, id, amount);
            && Money(accounts', holds', journal)
            && holds' == holds[id := Less(holds[id], amount)]
            && (forall k :: At(accounts', k).available == At(accounts, k).available + On(k, holds[id].account, amount))
            && accounts'.Keys == accounts.Keys
  {
    ReduceKeeps(accounts, holds, id, amount);
  }

  lemma UnreserveKeeps(accounts: Accounts, holds: Holds, journal: seq<LedgerTx>, b: OrderId, rb: real, s: OrderId, rs: real)
    requires Money(accounts, holds, journal)
    requires b in holds && s in holds && b != s
    requires holds[b].status == Active && 0.0 < rb <= holds[b].amount
    requires holds[s].status == Active && 0.0 < rs <= holds[s].amount
    ensures var (accounts', holds') := Unreserve(accounts, holds, b, rb, s, rs);
            && Money(accounts', holds', journal)
            && holds' == holds[b := Less(holds[b], rb)][s := Less(holds[s], rs)]
            && (forall k :: At(accounts', k).available ==
                            At(accounts, k).available + On(k, holds[b].account, rb) + On(k, holds[s].account, rs))
            && accounts'.Keys == accounts.Keys
  {
    hide Money, ReduceHold;
    ReduceKeepsMoney(accounts, holds, journal, b, rb);
    var (accounts1, holds1) := ReduceHold(accounts, holds, b, rb);
    ReduceKeepsMoney(accounts1, holds1, journal, s, rs);
  }

  lemma TouchAllKeeps(accounts: Accounts, holds: Holds, journal: seq<LedgerTx>, m: Market, d: Deal)
    requires Money(accounts, holds, journal)
    ensures var accounts' := TouchFillAccounts(accounts, m, d);
            && Money(accounts', holds, journal) && SameAt(accounts, accounts')
            && FillAccountsExist(accounts', m, d)
  {
    hide Money;
    TouchKeepsMoney(accounts, holds, journal, UserKey(d.buyer, m.base));
    var a1 := Touch(accounts, UserKey(d.buyer, m.base));
    TouchKeepsMoney(a1, holds, journal, UserKey(d.buyer, m.quote));
    var a2 := Touch(a1, UserKey(d.buyer, m.quote));
    TouchKeepsMoney(a2, holds, journal, UserKey(d.seller, m.base));
    var a3 := Touch(a2, UserKey(d.seller, m.base));
    TouchKeepsMoney(a3, holds, journal, UserKey(d.seller, m.quote));
    var a4 := Touch(a3, UserKey(d.seller, m.quote));
    TouchKeepsMoney(a4, holds, journal, SystemKey(FeeRevenue, m.base));
    var a5 := Touch(a4, SystemKey(FeeRevenue, m.base));
    TouchKeepsMoney(a5, holds, journal, SystemKey(FeeRevenue, m.quote));
  }

  /** Moving a deal between unreserved accounts goes through exactly when both sides can pay, and
      then moves exactly the deal. */
  lemma MoveDeal(accounts: Accounts, holds: Holds, journal: seq<LedgerTx>, m: Market, d: Deal)
    requires Money(accounts, holds, journal) && d.buyer != d.seller
    ensures var posted := PostEntries(TouchFillAccounts(accounts, m, d), FillEntries(m, d));
            && (posted.Ok? <==>
                  && Chargeable(d)
                  && At(accounts, UserKey(d.buyer, m.quote)).available >= d.quoteAmount
                  && At(accounts, UserKey(d.seller, m.base)).available >= d.quantity)
            && (posted.Ok? ==>
                  && Money(posted.value, holds, journal + [LedgerTx(TradeFill, FillEntries(m, d))])
                  && (forall k :: At(posted.value, k).available == At(accounts, k).available + Flow(m, d, k)))
  {
    hide Money, Flow, FillEntries, TouchFillAccounts, PostEntries;
    TouchAllKeeps(accounts, holds, journal, m, d);
    var touched := TouchFillAccounts(accounts, m, d);
    FillPostsIff(touched, m, d);
    FillEntriesNet(m, d);
    if PostEntries(touched, FillEntries(m, d)).Ok? {
      PostKeepsMoney(touched, holds, journal, TradeFill, FillEntries(m, d));
    }
  }

  /** Both orders of a fill are sound and hold what they should. */
  ghost predicate FillBacked(t: Tables, mid: MarketId, m: Market, f: Fill) {
    && FillReady(t.orders, mid, f)
    && f.makerOrderId in t.holds && f.takerOrderId in t.holds
    && RowValid(t.orders[f.makerOrderId]) && HoldFits(m, t.holds[f.makerOrderId], t.orders[f.makerOrderId])
    && RowValid(t.orders[f.takerOrderId]) && HoldFits(m, t.holds[f.takerOrderId], t.orders[f.takerOrderId])
  }

  /** What the fill leaves of the buyer's available quote. */
  ghost function BuyerLeft(t: Tables, m: Market, f: Fill): real
    requires f.makerOrderId < |t.orders| && f.takerOrderId < |t.orders|
  {
    var buyer := t.orders[BuyerOf(t.orders, f)];
    At(t.accounts, UserKey(buyer.userId, m.quote)).available + ReserveOf(buyer, f.quantity) - f.quoteAmount
  }

  /** The holds after a fill: each side gives back its own reserve for the quantity. */
  ghost function HoldsAfter(t: Tables, f: Fill): Holds
    requires f.makerOrderId < |t.orders| && f.takerOrderId < |t.orders|
    requires f.makerOrderId in t.holds && f.takerOrderId in t.holds
  {
    var b, s := BuyerOf(t.orders, f), SellerOf(t.orders, f);
    t.holds[b := Less(t.holds[b], ReserveOf(t.orders[b], f.quantity))][s := Less(t.holds[s], ReserveOf(t.orders[s], f.quantity))]
  }

  lemma AvailableNonNegative(accounts: Accounts, k: AccountKey)
    requires NoOverdraft(accounts) && k.owner.User?
    ensures At(accounts, k).available >= 0.0
  {
  }

  /** The accounts with both reserves given back. */
  function Unreserved(t: Tables, f: Fill): Accounts
    requires f.makerOrderId < |t.orders| && f.takerOrderId < |t.orders|
  {
    var b, s := BuyerOf(t.orders, f), SellerOf(t.orders, f);
    Unreserve(t.accounts, t.holds, b, ReserveOf(t.orders[b], f.quantity), s, ReserveOf(t.orders[s], f.quantity)).0
  }

  lemma FillUnreserves(t: Tables, mid: MarketId, m: Market, f: Fill)
    requires Money(t.accounts, t.holds, t.journal) && FillBacked(t, mid, m, f)
    ensures var b, s, d, accounts' := BuyerOf(t.orders, f), SellerOf(t.orders, f), DealOf(m, t.orders, f), Unreserved(t, f);
            && Unreserve(t.accounts, t.holds, b, ReserveOf(t.orders[b], f.quantity), s, ReserveOf(t.orders[s], f.quantity))
               == (accounts', HoldsAfter(t, f))
            && Money(accounts', HoldsAfter(t, f), t.journal)
            && At(accounts', UserKey(d.buyer, m.quote)).available == BuyerLeft(t, m, f) + d.quoteAmount
            && At(accounts', UserKey(d.seller, m.base)).available >= d.quantity
            && d.buyer != d.seller
  {
    var b, s, d := BuyerOf(t.orders, f), SellerOf(t.orders, f), DealOf(m, t.orders, f);
    FillFacts(t, mid, m, f);
    AvailableNonNegative(t.accounts, UserKey(d.seller, m.base));
    hide Money, Unreserve, RowValid, HoldFits, ReserveOf;
    UnreserveKeeps(t.accounts, t.holds, t.journal, b, ReserveOf(t.orders[b], f.quantity), s, ReserveOf(t.orders[s], f.quantity));
  }

  lemma FillMoves(t: Tables, mid: MarketId, m: Market, f: Fill)
    requires Money(t.accounts, t.holds, t.journal) && FillBacked(t, mid, m, f)
    ensures var d := DealOf(m, t.orders, f);
            var posted := PostEntries(TouchFillAccounts(Unreserved(t, f), m, d), FillEntries(m, d));
            && (posted.Ok? <==> Chargeable(d) && BuyerLeft(t, m, f) >= 0.0)
            && (posted.Ok? ==>
                  && Money(posted.value, HoldsAfter(t, f), t.journal + [LedgerTx(TradeFill, FillEntries(m, d))])
                  && (m.base != m.quote ==>
                        At(posted.value, UserKey(d.buyer, m.quote)).available == BuyerLeft(t, m, f)))
  {
    FillUnreserves(t, mid, m, f);
    hide Money, PostEntries, FillEntries, TouchFillAccounts, Unreserved, FillBacked, HoldsAfter, BuyerLeft, Chargeable;
    MoveDeal(Unreserved(t, f), HoldsAfter(t, f), t.journal, m, DealOf(m, t.orders, f));
  }

  /** A fill settles exactly when neither fee eats the whole receipt and the buyer's own reserve,
      topped up by the buyer's available funds, covers the price paid. The seller never fails. */
  lemma FillSettlesIff(t: Tables, mid: MarketId, m: Market, f: Fill)
    requires Money(t.accounts, t.holds, t.journal) && FillBacked(t, mid, m, f)
    ensures SettleFill(t, mid, m, f).Ok? <==> Chargeable(DealOf(m, t.orders, f)) && BuyerLeft(t, m, f) >= 0.0
  {
    FillMoves(t, mid, m, f);
    hide Money, PostEntries, FillEntries, TouchFillAccounts, Unreserve, RowValid, HoldFits, ReserveOf, Chargeable, BuyerLeft;
  }

  /** A settled fill keeps the money invariant and leaves the buyer with what the reserve did not need. */
  lemma FillKeepsMoney(t: Tables, mid: MarketId, m: Market, f: Fill)
    requires Money(t.accounts, t.holds, t.journal) && FillBacked(t, mid, m, f)
    requires SettleFill(t, mid, m, f).Ok?
    ensures var t' := SettleFill(t, mid, m, f).value;
            && Money(t'.accounts, t'.holds, t'.journal)
            && t'.holds == HoldsAfter(t, f)
            && (m.base != m.quote ==>
                  At(t'.accounts, UserKey(DealOf(m, t.orders, f).buyer, m.quote)).available == BuyerLeft(t, m, f))
  {
    FillMoves(t, mid, m, f);
    FillUnreserves(t, mid, m, f);
    hide Money, PostEntries, FillEntries, TouchFillAccounts, Unreserve, RowValid, HoldFits, ReserveOf, Chargeable, BuyerLeft, HoldsAfter;
  }

  lemma FillFacts(t: Tables, mid: MarketId, m: Market, f: Fill)
    requires FillBacked(t, mid, m, f)
    ensures var b, s, d := BuyerOf(t.orders, f), SellerOf(t.orders, f), DealOf(m, t.orders, f);
            && b != s && d.buyer != d.seller
            && d.buyer == t.orders[b].userId && d.seller == t.orders[s].userId
            && t.holds[b].status == Active && 0.0 < ReserveOf(t.orders[b], f.quantity) <= t.holds[b].amount
            && t.holds[s].status == Active && 0.0 < ReserveOf(t.orders[s], f.quantity) <= t.holds[s].amount
            && t.holds[b].account == UserKey(d.buyer, m.quote) && t.holds[s].account == UserKey(d.seller, m.base)
            && ReserveOf(t.orders[s], f.quantity) == d.quantity
  {
    var b, s := BuyerOf(t.orders, f), SellerOf(t.orders, f);
    FillToRow(m, t.holds[b], t.orders[b], f.quantity);
    FillToRow(m, t.holds[s], t.orders[s], f.quantity);
  }
}
