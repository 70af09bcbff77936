/** Accounts and the double-entry journal, as values. */
module Ledger {
  import opened Types
  import opened Sums

  datatype SystemCode = TestLiquidity | FeeRevenue | WithdrawalSuspense | AdminAdjustment

  datatype Owner = User(userId: UserId) | System(code: SystemCode)

  /** Accounts are unique per owner and asset. */
  datatype AccountKey = AccountKey(owner: Owner, asset: AssetId)

  datatype Account = Account(available: real, locked: real)

  type Accounts = map<AccountKey, Account>

  datatype Direction = Debit | Credit

  datatype Entry = Entry(account: AccountKey, direction: Direction, amount: real)

  datatype Kind = Grant | TradeFill | DepositIn | WithdrawalOut | Adjustment

  datatype LedgerTx = LedgerTx(kind: Kind, entries: seq<Entry>)

  function UserKey(userId: UserId, asset: AssetId): AccountKey {
    AccountKey(User(userId), asset)
  }

  function SystemKey(code: SystemCode, asset: AssetId): AccountKey {
    AccountKey(System(code), asset)
  }

  /** An account that was never created holds nothing. */
  function At(accounts: Accounts, k: AccountKey): Account {
    if k in accounts then accounts[k] else Account(0.0, 0.0)
  }

  /** Get or create. */
  function Touch(accounts: Accounts, k: AccountKey): Accounts {
    accounts[k := At(accounts, k)]
  }

  /** Users may not overdraw what is available; system accounts may go negative. */
  function ApplyEntry(accounts: Accounts, e: Entry): Result<Accounts> {
    if e.account !in accounts then Err(NotFound) else
    var a := accounts[e.account];
    if e.direction == Credit then
      Ok(accounts[e.account := a.(available := a.available + e.amount)])
    else if e.account.owner.User? && a.available < e.amount then
      Err(InsufficientBalance)
    else
      Ok(accounts[e.account := a.(available := a.available - e.amount)])
  }

  function ApplyAll(accounts: Accounts, entries: seq<Entry>): Result<Accounts> {
    if entries == [] then Ok(accounts) else
    var first := ApplyEntry(accounts, entries[0]);
    if first.Err? then first else ApplyAll(first.value, entries[1..])
  }

  function Total(entries: seq<Entry>, direction: Direction): real {
    if entries == [] then 0.0
    else (if entries[0].direction == direction then entries[0].amount else 0.0) + Total(entries[1..], direction)
  }

  predicate AllPositive(entries: seq<Entry>) {
    forall e | e in entries :: e.amount > 0.0
  }

  /** Posts a transaction: at least two positive legs whose debits equal their credits. */
  function PostEntries(accounts: Accounts, entries: seq<Entry>): Result<Accounts> {
    if |entries| < 2 || !AllPositive(entries) then Err(InvalidLedgerEntry)
    else if Total(entries, Debit) != Total(entries, Credit) then Err(LedgerImbalance)
    else ApplyAll(accounts, entries)
  }

  // ---------------------------------------------------------------------------
  // What the journal says about balances
  // ---------------------------------------------------------------------------

  function Signed(e: Entry): real {
    if e.direction == Credit then e.amount else -e.amount
  }

  ghost function EntriesNet(entries: seq<Entry>, k: AccountKey): real {
    if entries == [] then 0.0
    else (if entries[0].account == k then Signed(entries[0]) else 0.0) + EntriesNet(entries[1..], k)
  }

  ghost function AssetNet(entries: seq<Entry>, asset: AssetId): real {
    if entries == [] then 0.0
    else (if entries[0].account.asset == asset then Signed(entries[0]) else 0.0) + AssetNet(entries[1..], asset)
  }

  /** Credits minus debits of an account over the whole journal. */
  ghost function Net(journal: seq<LedgerTx>, k: AccountKey): real {
    if journal == [] then 0.0
    else Net(journal[..|journal| - 1], k) + EntriesNet(journal[|journal| - 1].entries, k)
  }

  ghost function Balance(accounts: Accounts, k: AccountKey): real {
    At(accounts, k).available + At(accounts, k).locked
  }

  /** Balances are what the journal says. */
  ghost predicate Derived(accounts: Accounts, journal: seq<LedgerTx>) {
    forall k :: Balance(accounts, k) == Net(journal, k)
  }

  ghost function AssetWeights(accounts: Accounts, asset: AssetId): map<AccountKey, real> {
    map k | k in accounts :: if k.asset == asset then Balance(accounts, k) else 0.0
  }

  /** All balances of one asset, users and system together. */
  ghost function AssetTotal(accounts: Accounts, asset: AssetId): real {
    Sum(AssetWeights(accounts, asset))
  }

  ghost predicate Conserved(accounts: Accounts) {
    forall asset :: AssetTotal(accounts, asset) == 0.0
  }

  ghost predicate NoOverdraft(accounts: Accounts) {
    forall k | k in accounts && k.owner.User? :: accounts[k].available >= 0.0
  }

  /** A transaction that balances in every asset by itself. */
  ghost predicate PerAsset(entries: seq<Entry>) {
    forall asset :: AssetNet(entries, asset) == 0.0
  }

  /** A transaction as the ledger wants it: at least two positive legs, equal debits and credits, and those
      in each asset by itself. */
  ghost predicate Balanced(entries: seq<Entry>) {
    |entries| >= 2 && AllPositive(entries) && Total(entries, Debit) == Total(entries, Credit) && PerAsset(entries)
  }

  lemma AssetTotalUpdate(accounts: Accounts, k: AccountKey, a: Account, asset: AssetId)
    ensures AssetTotal(accounts[k := a], asset) ==
            AssetTotal(accounts, asset)
            + if k.asset == asset then a.available + a.locked - Balance(accounts, k) else 0.0
  {
    var w := if k.asset == asset then a.available + a.locked else 0.0;
    SumUpdate(AssetWeights(accounts, asset), k, w);
    assert AssetWeights(accounts[k := a], asset) == AssetWeights(accounts, asset)[k := w];
  }

  lemma TouchChangesNothing(accounts: Accounts, k: AccountKey)
    ensures forall x :: At(Touch(accounts, k), x) == At(accounts, x)
    ensures Conserved(accounts) ==> Conserved(Touch(accounts, k))
    ensures NoOverdraft(accounts) ==> NoOverdraft(Touch(accounts, k))
  {
    forall asset ensures AssetTotal(Touch(accounts, k), asset) == AssetTotal(accounts, asset) {
      AssetTotalUpdate(accounts, k, At(accounts, k), asset);
    }
  }

  lemma ApplyEntryEffect(accounts: Accounts, e: Entry)
    requires ApplyEntry(accounts, e).Ok?
    ensures var accounts' := ApplyEntry(accounts, e).value;
            && accounts'.Keys == accounts.Keys
            && (forall k :: At(accounts', k).locked == At(accounts, k).locked)
            && (forall k :: At(accounts', k).available ==
                            At(accounts, k).available + if e.account == k then Signed(e) else 0.0)
            && (forall asset :: AssetTotal(accounts', asset) ==
                                AssetTotal(accounts, asset) + if e.account.asset == asset then Signed(e) else 0.0)
            && (NoOverdraft(accounts) && e.amount > 0.0 ==> NoOverdraft(accounts'))
  {
    var accounts' := ApplyEntry(accounts, e).value;
    forall asset ensures AssetTotal(accounts', asset) ==
                         AssetTotal(accounts, asset) + if e.account.asset == asset then Signed(e) else 0.0
    {
      AssetTotalUpdate(accounts, e.account, accounts'[e.account], asset);
    }
  }

  /** Posting moves exactly the net of the entries, account by account and asset by asset, never
      touches what is locked, and never overdraws a user. */
  lemma {:induction false} ApplyAllEffect(accounts: Accounts, entries: seq<Entry>)
    requires ApplyAll(accounts, entries).Ok?
    ensures var accounts' := ApplyAll(accounts, entries).value;
            && accounts'.Keys == accounts.Keys
            && (forall k :: At(accounts', k).locked == At(accounts, k).locked)
            && (forall k :: At(accounts', k).available == At(accounts, k).available + EntriesNet(entries, k))
            && (forall asset :: AssetTotal(accounts', asset) == AssetTotal(accounts, asset) + AssetNet(entries, asset))
            && (NoOverdraft(accounts) && AllPositive(entries) ==> NoOverdraft(accounts'))
  {
    if entries != [] {
      ApplyEntryEffect(accounts, entries[0]);
      hide ApplyEntry, At, AssetTotal, NoOverdraft;
      ApplyAllEffect(ApplyEntry(accounts, entries[0]).value, entries[1..]);
    }
  }

  lemma {:induction false} ApplyAllConcat(accounts: Accounts, a: seq<Entry>, b: seq<Entry>)
    ensures ApplyAll(accounts, a + b) ==
            var first := ApplyAll(accounts, a); if first.Err? then first else ApplyAll(first.value, b)
  {
    if a == [] {
      assert a + b == b;
    } else {
      assert (a + b)[1..] == a[1..] + b;
      if ApplyEntry(accounts, a[0]).Ok? {
        ApplyAllConcat(ApplyEntry(accounts, a[0]).value, a[1..], b);
      }
    }
  }

  /** Crediting existing accounts always succeeds. */
  lemma {:induction false} CreditsApply(accounts: Accounts, entries: seq<Entry>)
    requires forall e | e in entries :: e.direction == Credit && e.account in accounts
    ensures ApplyAll(accounts, entries).Ok?
  {
    if entries != [] {
      assert entries[0] in entries;
      CreditsApply(ApplyEntry(accounts, entries[0]).value, entries[1..]);
    }
  }

  lemma NetsOne(e: Entry)
    ensures forall k :: EntriesNet([e], k) == if e.account == k then Signed(e) else 0.0
    ensures forall asset :: AssetNet([e], asset) == if e.account.asset == asset then Signed(e) else 0.0
    ensures forall d :: Total([e], d) == if e.direction == d then e.amount else 0.0
  {
    assert [e][1..] == [];
  }

  lemma NetsTwo(e: Entry, f: Entry)
    ensures forall k :: EntriesNet([e, f], k) == EntriesNet([e], k) + EntriesNet([f], k)
    ensures forall asset :: AssetNet([e, f], asset) == AssetNet([e], asset) + AssetNet([f], asset)
    ensures forall d :: Total([e, f], d) == Total([e], d) + Total([f], d)
  {
    assert [e, f] == [e] + [f];
    NetsConcat([e], [f]);
  }

  lemma {:induction false} NetsConcat(a: seq<Entry>, b: seq<Entry>)
    ensures forall k :: EntriesNet(a + b, k) == EntriesNet(a, k) + EntriesNet(b, k)
    ensures forall asset :: AssetNet(a + b, asset) == AssetNet(a, asset) + AssetNet(b, asset)
    ensures forall d :: Total(a + b, d) == Total(a, d) + Total(b, d)
  {
    if a == [] {
      assert a + b == b;
    } else {
      assert (a + b)[1..] == a[1..] + b;
      NetsConcat(a[1..], b);
    }
  }

  /** The posting check compares one total over all assets, so it lets through entries that move value
      from one asset into another; conservation holds exactly when the entries balance in every asset. */
  lemma PostConservesIff(accounts: Accounts, entries: seq<Entry>)
    requires Conserved(accounts) && PostEntries(accounts, entries).Ok?
    ensures Conserved(PostEntries(accounts, entries).value) <==> PerAsset(entries)
  {
    ApplyAllEffect(accounts, entries);
    hide AssetTotal;
    var accounts' := PostEntries(accounts, entries).value;
    forall asset ensures AssetTotal(accounts', asset) == AssetNet(entries, asset) {
    }
  }

  /** Two units of one asset for two of another pass the posting check. */
  lemma PostMayMixAssets()
    ensures var accounts: Accounts := map[SystemKey(FeeRevenue, "BTC") := Account(0.0, 0.0), UserKey("u", "USDT") := Account(0.0, 0.0)];
            var entries := [Entry(SystemKey(FeeRevenue, "BTC"), Debit, 2.0), Entry(UserKey("u", "USDT"), Credit, 2.0)];
            PostEntries(accounts, entries).Ok? && !PerAsset(entries)
  {
    var accounts: Accounts := map[SystemKey(FeeRevenue, "BTC") := Account(0.0, 0.0), UserKey("u", "USDT") := Account(0.0, 0.0)];
    var debit, credit := Entry(SystemKey(FeeRevenue, "BTC"), Debit, 2.0), Entry(UserKey("u", "USDT"), Credit, 2.0);
    assert [debit, credit][1..] == [credit] && [credit][1..] == [];
    assert Total([debit, credit], Debit) == 2.0 + Total([credit], Debit) == 2.0;
    assert Total([debit, credit], Credit) == Total([credit], Credit) == 2.0;
    var debited := ApplyEntry(accounts, debit).value;
    assert ApplyAll(debited, [credit]) == ApplyEntry(debited, credit);
    assert ApplyAll(accounts, [debit, credit]).Ok?;
    assert "USDT" != "BTC" by { assert "USDT"[0] != "BTC"[0]; }
    assert AssetNet([debit, credit], "BTC") == -2.0 + AssetNet([credit], "BTC") == -2.0;
  }
}
