/** What every interleaving and every run keeps about accounts: the system-wide ledger invariants, the
    system accounts against the business tables, and where the users' money comes from. */
module Reconciliation {
  import opened Types
  import opened Sums
  import opened Ledger
  import opened Holds
  import opened Settlement
  import opened FillProofs
  import opened Books
  import opened Exchange
  import opened Transfers
  import opened Backing
  import opened Interleaving

  /** The documented invariants: an account holds what the journal says, locks exactly what its active holds
      reserve, and is not negative if it is a user's; every transaction of the journal has positive legs that
      balance, each asset by itself; and the asset sums to zero. */
  ghost predicate LedgerInvariants(t: Tables, k: AccountKey) {
    && Balance(t.accounts, k) == Net(t.journal, k)
    && At(t.accounts, k).locked == ActiveSum(t.holds, k) >= 0.0
    && (k.owner.User? ==> At(t.accounts, k).available >= 0.0)
    && (forall tx | tx in t.journal :: Balanced(tx.entries))
    && AssetTotal(t.accounts, k.asset) == 0.0
  }

  lemma BookedKeepsLedger(markets: Markets, t: Tables, k: AccountKey)
    requires Booked(markets, t)
    ensures LedgerInvariants(t, k)
  {
    hide ActiveSum, AssetTotal, Net, Total, TradeFlow, KindNet, DepositFlow, WithdrawalFlow, WellShaped, Balanced;
    LockedNonNegative(t.accounts, t.holds, k);
  }

  /** Whatever transactions and engine calls are interleaved, cancelling an order that is waiting or being
      matched included, the ledger keeps its invariants. */
  lemma EveryInterleavingKeepsTheLedger(markets: Markets, actions: seq<Action>, k: AccountKey)
    ensures LedgerInvariants(ActAll(Start(markets), actions).core.tables, k)
  {
    hide Booked, RowsBacked, TradesFit, TradesValid, EnginesKnown, FlightsKnown, AllPendingKnown, WithinRoom, LedgerInvariants, ActAll,
      Start;
    EveryInterleavingIsSound(markets, actions);
    var s := ActAll(Start(markets), actions).core;
    BookedKeepsLedger(s.markets, s.tables, k);
  }

  lemma EveryRunIsBooked(markets: Markets, ops: seq<Op>)
    ensures var s := Run(Init(markets), ops); Backed(s.markets, s.tables) && Booked(s.markets, s.tables)
  {
    hide Booked, RowsBacked, TradesFit, TradesValid, EnginesKnown, FlightsKnown, AllPendingKnown, WithinRoom, Run, Init;
    EveryRunIsSound(markets, ops);
  }

  /** In every reachable state, on whatever markets and after whatever operations. */
  lemma EveryRunKeepsTheLedger(markets: Markets, ops: seq<Op>, k: AccountKey)
    ensures LedgerInvariants(Run(Init(markets), ops).tables, k)
  {
    hide Booked, Backed, LedgerInvariants, Run, Init;
    EveryRunIsBooked(markets, ops);
    var s := Run(Init(markets), ops);
    BookedKeepsLedger(s.markets, s.tables, k);
  }

  // ---------------------------------------------------------------------------
  // Business totals
  // ---------------------------------------------------------------------------

  /** What the buyer of a recorded trade is charged in base, or the seller in quote, as the trade's fee
      columns say; either may be negative, since nothing keeps a fee rate from being so. */
  ghost function FeeOnRecord(markets: Markets, orders: seq<OrderRow>, tr: Trade, asset: AssetId): (real, real) {
    var d := RecordedDeal(orders, tr);
    (if tr.market in markets && markets[tr.market].base == asset then d.buyerFee else 0.0,
     if tr.market in markets && markets[tr.market].quote == asset then d.sellerFee else 0.0)
  }

  /** The fee columns of all trades, added up. */
  ghost function FeesRecorded(markets: Markets, orders: seq<OrderRow>, trades: seq<Trade>, asset: AssetId): real {
    if trades == [] then 0.0 else
    var (base, quote) := FeeOnRecord(markets, orders, trades[|trades| - 1], asset);
    FeesRecorded(markets, orders, trades[..|trades| - 1], asset) + base + quote
  }

  /** What was posted of them: a fee that is not positive is not. */
  ghost function FeesCharged(markets: Markets, orders: seq<OrderRow>, trades: seq<Trade>, asset: AssetId): real {
    if trades == [] then 0.0 else
    var (base, quote) := FeeOnRecord(markets, orders, trades[|trades| - 1], asset);
    FeesCharged(markets, orders, trades[..|trades| - 1], asset) + Max(0.0, base) + Max(0.0, quote)
  }

  /** The trade records a negative fee in the asset. */
  ghost predicate RecordsRebate(markets: Markets, orders: seq<OrderRow>, tr: Trade, asset: AssetId) {
    var (base, quote) := FeeOnRecord(markets, orders, tr, asset); base < 0.0 || quote < 0.0
  }

  /** The fee columns add up to what was posted if and only if none of them is negative. */
  lemma {:induction false} ChargedAsRecordedIff(markets: Markets, orders: seq<OrderRow>, trades: seq<Trade>, asset: AssetId)
    ensures FeesRecorded(markets, orders, trades, asset) <= FeesCharged(markets, orders, trades, asset)
    ensures FeesCharged(markets, orders, trades, asset) == FeesRecorded(markets, orders, trades, asset) <==>
            forall tr | tr in trades :: !RecordsRebate(markets, orders, tr, asset)
  {
    hide RecordsRebate, FeeOnRecord, Max;
    if trades != [] {
      var older, last := trades[..|trades| - 1], trades[|trades| - 1];
      assert trades == older + [last] && last in trades && forall tr | tr in older :: tr in trades;
      ChargedAsRecordedIff(markets, orders, older, asset);
      TradeChargedIff(markets, orders, last, asset);
      assert forall tr | tr in trades :: tr in older || tr == last;
    }
  }

  lemma TradeChargedIff(markets: Markets, orders: seq<OrderRow>, tr: Trade, asset: AssetId)
    ensures var (base, quote) := FeeOnRecord(markets, orders, tr, asset);
            && base + quote <= Max(0.0, base) + Max(0.0, quote)
            && (base + quote == Max(0.0, base) + Max(0.0, quote) <==> !RecordsRebate(markets, orders, tr, asset))
  {
  }

  ghost function Withdrawn(withdrawals: seq<Withdrawal>, asset: AssetId): real {
    if withdrawals == [] then 0.0 else
    var last := withdrawals[|withdrawals| - 1];
    Withdrawn(withdrawals[..|withdrawals| - 1], asset) + if last.asset == asset then last.amount else 0.0
  }

  ghost function Deposited(deposits: seq<Deposit>, asset: AssetId): real {
    if deposits == [] then 0.0 else
    var last := deposits[|deposits| - 1];
    Deposited(deposits[..|deposits| - 1], asset) + if last.status == Confirmed && last.asset == asset then last.amount else 0.0
  }

  /** What grants, or adjustments, have credited to users, less what they have debited. */
  ghost function ToUsers(journal: seq<LedgerTx>, kind: Kind, asset: AssetId): real {
    if journal == [] then 0.0 else
    var last := journal[|journal| - 1];
    ToUsers(journal[..|journal| - 1], kind, asset) + if last.kind == kind then UserNet(last.entries, asset) else 0.0
  }

  ghost function UserNet(entries: seq<Entry>, asset: AssetId): real {
    if entries == [] then 0.0 else
    (if entries[0].account.owner.User? && entries[0].account.asset == asset then Signed(entries[0]) else 0.0)
    + UserNet(entries[1..], asset)
  }

  lemma {:induction false} NetByKind(journal: seq<LedgerTx>, k: AccountKey)
    ensures Net(journal, k) == KindNet(journal, Grant, k) + KindNet(journal, TradeFill, k) + KindNet(journal, DepositIn, k)
                               + KindNet(journal, WithdrawalOut, k) + KindNet(journal, Adjustment, k)
  {
    if journal != [] {
      NetByKind(journal[..|journal| - 1], k);
    }
  }

  lemma {:induction false} TradesOnSystem(markets: Markets, orders: seq<OrderRow>, trades: seq<Trade>, code: SystemCode, asset: AssetId)
    ensures TradeFlow(markets, orders, trades, SystemKey(code, asset)) ==
            if code == FeeRevenue then FeesCharged(markets, orders, trades, asset) else 0.0
  {
    if trades != [] {
      TradesOnSystem(markets, orders, trades[..|trades| - 1], code, asset);
    }
  }

  lemma {:induction false} DepositsOnSystem(deposits: seq<Deposit>, code: SystemCode, asset: AssetId)
    ensures DepositFlow(deposits, SystemKey(code, asset)) == if code == TestLiquidity then -Deposited(deposits, asset) else 0.0
  {
    if deposits != [] {
      DepositsOnSystem(deposits[..|deposits| - 1], code, asset);
    }
  }

  lemma {:induction false} WithdrawalsOnSystem(withdrawals: seq<Withdrawal>, code: SystemCode, asset: AssetId)
    ensures WithdrawalFlow(withdrawals, SystemKey(code, asset)) == if code == WithdrawalSuspense then Withdrawn(withdrawals, asset) else 0.0
  {
    if withdrawals != [] {
      WithdrawalsOnSystem(withdrawals[..|withdrawals| - 1], code, asset);
    }
  }

  lemma UserNetOfTransfer(from: AccountKey, to: AccountKey, amount: real, asset: AssetId)
    ensures UserNet(TransferEntries(from, to, amount), asset) ==
            (if from.owner.User? && from.asset == asset then -amount else 0.0)
            + (if to.owner.User? && to.asset == asset then amount else 0.0)
    ensures forall k :: EntriesNet(TransferEntries(from, to, amount), k) == On(k, from, -amount) + On(k, to, amount)
  {
    var d, c := Entry(from, Debit, amount), Entry(to, Credit, amount);
    assert [d, c][1..] == [c] && [c][1..] == [];
    assert UserNet([d, c], asset) == UserNet([c], asset) + if from.owner.User? && from.asset == asset then -amount else 0.0;
    NetsTwo(d, c);
    NetsOne(d);
    NetsOne(c);
  }

  /** Grants and adjustments each have one counterpart, which mirrors what the users got. */
  lemma {:induction false} ShapedOnSystem(journal: seq<LedgerTx>, kind: Kind, code: SystemCode, asset: AssetId)
    requires forall tx | tx in journal :: WellShaped(tx)
    requires kind == Grant || kind == Adjustment
    ensures KindNet(journal, kind, SystemKey(code, asset)) ==
            if code == (if kind == Grant then TestLiquidity else AdminAdjustment) then -ToUsers(journal, kind, asset) else 0.0
  {
    if journal != [] {
      var last := journal[|journal| - 1];
      assert last in journal;
      ShapedOnSystem(journal[..|journal| - 1], kind, code, asset);
      if last.kind == kind {
        UserNetOfTransfer(last.entries[0].account, last.entries[1].account, last.entries[1].amount, asset);
      }
    }
  }

  /** System accounts never lock anything, so their balance is what they have available. */
  ghost function SystemBalance(t: Tables, code: SystemCode, asset: AssetId): real {
    Balance(t.accounts, SystemKey(code, asset))
  }

  /** What the business tables say a system account holds. */
  ghost function SystemNet(s: State, code: SystemCode, asset: AssetId): real {
    match code
    case FeeRevenue => FeesCharged(s.markets, s.tables.orders, s.tables.trades, asset)
    case WithdrawalSuspense => Withdrawn(s.tables.withdrawals, asset)
    case TestLiquidity => -ToUsers(s.tables.journal, Grant, asset) - Deposited(s.tables.deposits, asset)
    case AdminAdjustment => -ToUsers(s.tables.journal, Adjustment, asset)
  }

  lemma SystemAccountReconciles(s: State, code: SystemCode, asset: AssetId)
    requires Booked(s.markets, s.tables)
    ensures SystemBalance(s.tables, code, asset) == SystemNet(s, code, asset)
  {
    hide TradeFlow, FeesCharged, DepositFlow, WithdrawalFlow, KindNet, Net, Balanced, WellShaped, ToUsers, Deposited, Withdrawn, Balance,
      HoldsMatch, Conserved, NoOverdraft;
    var k := SystemKey(code, asset);
    NetByKind(s.tables.journal, k);
    ShapedOnSystem(s.tables.journal, Grant, code, asset);
    ShapedOnSystem(s.tables.journal, Adjustment, code, asset);
    TradesOnSystem(s.markets, s.tables.orders, s.tables.trades, code, asset);
    DepositsOnSystem(s.tables.deposits, code, asset);
    WithdrawalsOnSystem(s.tables.withdrawals, code, asset);
  }

  /** In every reachable state, FEE_REVENUE is what was charged on the trades, WITHDRAWAL_SUSPENSE the
      withdrawals, minus TEST_LIQUIDITY what was issued as grants and confirmed deposits, and minus
      ADMIN_ADJUSTMENT what admins gave. */
  lemma EveryRunReconciles(markets: Markets, ops: seq<Op>, asset: AssetId)
    ensures var s := Run(Init(markets), ops);
            var t := s.tables;
            && SystemBalance(t, FeeRevenue, asset) == FeesCharged(s.markets, t.orders, t.trades, asset)
            && SystemBalance(t, WithdrawalSuspense, asset) == Withdrawn(t.withdrawals, asset)
            && -SystemBalance(t, TestLiquidity, asset) == ToUsers(t.journal, Grant, asset) + Deposited(t.deposits, asset)
            && -SystemBalance(t, AdminAdjustment, asset) == ToUsers(t.journal, Adjustment, asset)
  {
    hide Booked, Backed, Run, Init, SystemBalance, FeesCharged, Withdrawn, ToUsers, Deposited;
    EveryRunIsBooked(markets, ops);
    var s := Run(Init(markets), ops);
    SystemAccountReconciles(s, FeeRevenue, asset);
    SystemAccountReconciles(s, WithdrawalSuspense, asset);
    SystemAccountReconciles(s, TestLiquidity, asset);
    SystemAccountReconciles(s, AdminAdjustment, asset);
  }

  lemma FeeRevenueIsRecordedIff(s: State, asset: AssetId)
    requires Booked(s.markets, s.tables)
    ensures SystemBalance(s.tables, FeeRevenue, asset) == FeesRecorded(s.markets, s.tables.orders, s.tables.trades, asset) <==>
            forall tr | tr in s.tables.trades :: !RecordsRebate(s.markets, s.tables.orders, tr, asset)
  {
    hide Booked, RecordsRebate, SystemBalance, FeesCharged, FeesRecorded;
    SystemAccountReconciles(s, FeeRevenue, asset);
    ChargedAsRecordedIff(s.markets, s.tables.orders, s.tables.trades, asset);
  }

  /** In every reachable state, FEE_REVENUE is what the fee columns of the trades add up to if and only if no
      trade records a negative fee in the asset: settlement writes such a fee on the trade and posts nothing. */
  lemma EveryRunRecordsItsFeesIff(markets: Markets, ops: seq<Op>, asset: AssetId)
    ensures var s := Run(Init(markets), ops);
            SystemBalance(s.tables, FeeRevenue, asset) == FeesRecorded(s.markets, s.tables.orders, s.tables.trades, asset) <==>
            forall tr | tr in s.tables.trades :: !RecordsRebate(s.markets, s.tables.orders, tr, asset)
  {
    hide Booked, Backed, Run, Init, SystemBalance, FeesRecorded, RecordsRebate;
    EveryRunIsBooked(markets, ops);
    FeeRevenueIsRecordedIff(Run(Init(markets), ops), asset);
  }

  // ---------------------------------------------------------------------------
  // The users' money
  // ---------------------------------------------------------------------------

  /** The balances in one asset, leaving out some system accounts. */
  ghost function WeightsBut(accounts: Accounts, asset: AssetId, codes: set<SystemCode>): map<AccountKey, real> {
    map k | k in accounts :: if k.asset == asset && (k.owner.System? ==> k.owner.code !in codes) then Balance(accounts, k) else 0.0
  }

  /** All the users' balances in one asset. */
  ghost function UserTotal(accounts: Accounts, asset: AssetId): real {
    Sum(WeightsBut(accounts, asset, {TestLiquidity, FeeRevenue, WithdrawalSuspense, AdminAdjustment}))
  }

  lemma LeaveOut(accounts: Accounts, asset: AssetId, codes: set<SystemCode>, code: SystemCode)
    requires code !in codes
    ensures Sum(WeightsBut(accounts, asset, codes)) ==
            Sum(WeightsBut(accounts, asset, codes + {code})) + Balance(accounts, SystemKey(code, asset))
  {
    var k, w, w' := SystemKey(code, asset), WeightsBut(accounts, asset, codes), WeightsBut(accounts, asset, codes + {code});
    if k in accounts {
      SumUpdate(w, k, 0.0);
      assert w' == w[k := 0.0];
    } else {
      assert w' == w;
    }
  }

  /** An asset is held by the users and the four system accounts. */
  lemma TotalSplits(accounts: Accounts, asset: AssetId)
    ensures AssetTotal(accounts, asset) ==
            UserTotal(accounts, asset)
            + Balance(accounts, SystemKey(TestLiquidity, asset)) + Balance(accounts, SystemKey(FeeRevenue, asset))
            + Balance(accounts, SystemKey(WithdrawalSuspense, asset)) + Balance(accounts, SystemKey(AdminAdjustment, asset))
  {
    assert AssetWeights(accounts, asset) == WeightsBut(accounts, asset, {});
    hide Balance, WeightsBut;
    LeaveOut(accounts, asset, {}, TestLiquidity);
    LeaveOut(accounts, asset, {TestLiquidity}, FeeRevenue);
    LeaveOut(accounts, asset, {TestLiquidity, FeeRevenue}, WithdrawalSuspense);
    LeaveOut(accounts, asset, {TestLiquidity, FeeRevenue, WithdrawalSuspense}, AdminAdjustment);
    assert {} + {TestLiquidity} == {TestLiquidity};
    assert {TestLiquidity} + {FeeRevenue} == {TestLiquidity, FeeRevenue};
    assert {TestLiquidity, FeeRevenue} + {WithdrawalSuspense} == {TestLiquidity, FeeRevenue, WithdrawalSuspense};
    assert {TestLiquidity, FeeRevenue, WithdrawalSuspense} + {AdminAdjustment} ==
           {TestLiquidity, FeeRevenue, WithdrawalSuspense, AdminAdjustment};
  }

  /** What was granted, deposited and adjusted in the users' favour, less what they withdrew and were charged
      in fees. */
  ghost function Issued(s: State, asset: AssetId): real {
    ToUsers(s.tables.journal, Grant, asset) + Deposited(s.tables.deposits, asset) + ToUsers(s.tables.journal, Adjustment, asset)
    - Withdrawn(s.tables.withdrawals, asset) - FeesCharged(s.markets, s.tables.orders, s.tables.trades, asset)
  }

  lemma UsersOwnIssued(s: State, asset: AssetId)
    requires Booked(s.markets, s.tables)
    ensures UserTotal(s.tables.accounts, asset) == Issued(s, asset)
  {
    hide Booked, Balance, UserTotal, AssetTotal, FeesCharged, Withdrawn, ToUsers, Deposited;
    SystemAccountReconciles(s, FeeRevenue, asset);
    SystemAccountReconciles(s, WithdrawalSuspense, asset);
    SystemAccountReconciles(s, TestLiquidity, asset);
    SystemAccountReconciles(s, AdminAdjustment, asset);
    TotalSplits(s.tables.accounts, asset);
    AssetIsConserved(s.markets, s.tables, asset);
  }

  lemma AssetIsConserved(markets: Markets, t: Tables, asset: AssetId)
    requires Booked(markets, t)
    ensures AssetTotal(t.accounts, asset) == 0.0
  {
  }

  lemma FourCodes(code: SystemCode)
    ensures code in {TestLiquidity, FeeRevenue, WithdrawalSuspense, AdminAdjustment}
  {
    match code
    case TestLiquidity =>
    case FeeRevenue =>
    case WithdrawalSuspense =>
    case AdminAdjustment =>
  }

  /** No user owns more of an asset than all users together. */
  lemma NoUserOwnsMore(s: State, k: AccountKey)
    requires Booked(s.markets, s.tables) && k.owner.User?
    ensures 0.0 <= At(s.tables.accounts, k).available <= Balance(s.tables.accounts, k) <= Issued(s, k.asset)
    ensures 0.0 <= At(s.tables.accounts, k).locked <= Balance(s.tables.accounts, k)
  {
    var accounts := s.tables.accounts;
    var w := WeightsBut(accounts, k.asset, {TestLiquidity, FeeRevenue, WithdrawalSuspense, AdminAdjustment});
    forall x | x in w ensures w[x] >= 0.0 {
      if x.owner.User? {
        LockedNonNegative(accounts, s.tables.holds, x);
      } else {
        FourCodes(x.owner.code);
      }
    }
    LockedNonNegative(accounts, s.tables.holds, k);
    SumNonNegative(w);
    UsersOwnIssued(s, k.asset);
    if k in accounts {
      assert w[k] == Balance(accounts, k);
    }
  }

  /** In every reachable state the users own exactly what was granted, deposited and adjusted in their
      favour, less what they withdrew and were charged in fees: trading moves money and creates none. */
  lemma UsersOwnWhatWasIssued(markets: Markets, ops: seq<Op>, asset: AssetId)
    ensures var s := Run(Init(markets), ops);
            UserTotal(s.tables.accounts, asset) == Issued(s, asset)
  {
    hide Booked, Backed, Run, Init, UserTotal, Issued;
    EveryRunIsBooked(markets, ops);
    UsersOwnIssued(Run(Init(markets), ops), asset);
  }

  /** The same of every interleaving of transactions and engine calls. */
  lemma EveryInterleavingReconciles(markets: Markets, actions: seq<Action>, code: SystemCode, asset: AssetId)
    ensures var s := ActAll(Start(markets), actions).core;
            SystemBalance(s.tables, code, asset) == SystemNet(s, code, asset) && UserTotal(s.tables.accounts, asset) == Issued(s, asset)
  {
    hide Booked, RowsBacked, TradesFit, TradesValid, EnginesKnown, FlightsKnown, AllPendingKnown, WithinRoom, ActAll, Start, UserTotal,
      Issued, SystemBalance, SystemNet;
    EveryInterleavingIsSound(markets, actions);
    SystemAccountReconciles(ActAll(Start(markets), actions).core, code, asset);
    UsersOwnIssued(ActAll(Start(markets), actions).core, asset);
  }
}
