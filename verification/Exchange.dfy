/** The trading core as one state machine: database tables, one engine per market, and the orders
    that have been placed and funded but not yet submitted to their engine, each with the market
    row that was read when it was placed. */
module Exchange {
  import opened Types
  import opened BookSide
  import opened Matching
  import opened EngineSpec
  import opened Ledger
  import opened Holds
  import opened Settlement
  import opened FillProofs
  import opened Books

  datatype State = State(
    markets: Markets,
    engines: map<MarketId, Engine>,
    tables: Tables,
    pending: map<OrderId, Market>)

  /** What a user asks for when placing an order. */
  datatype Request = Request(
    market: MarketId,
    side: Side,
    orderType: OrderType,
    price: Option<real>,
    quantity: real)

  datatype Op =
    | Place(userId: UserId, request: Request)
    | SubmitOrder(id: OrderId)
    | CancelOrder(userId: UserId, id: OrderId)
    | GrantFunds(userId: UserId, asset: AssetId, amount: real)
    | CreateDeposit(userId: UserId, asset: AssetId, amount: real)
    | ConfirmDeposit(depositId: nat)
    | Withdraw(userId: UserId, asset: AssetId, amount: real)
    | Adjust(userId: UserId, asset: AssetId, amount: real)
    | UpdateMarket(market: MarketId, status: Option<MarketStatus>, makerFee: Option<real>, takerFee: Option<real>)
    | Restart

  /** The state after an operation, and the exception it raised, if any. */
  datatype Reply = Reply(state: State, error: Option<Error>)

  function Reject(s: State, e: Error): Reply {
    Reply(s, Some(e))
  }

  function Done(s: State): Reply {
    Reply(s, None)
  }

  /** Commits the outcome of a database transaction, or rolls it back. */
  function Commit(s: State, r: Result<Tables>): Reply {
    if r.Ok? then Done(s.(tables := r.value)) else Reject(s, r.error)
  }

  /** Callers of the ledger report a lack of funds as a bad request. */
  function LackIsBadRequest(e: Error): Error {
    if e == InsufficientBalance then BadRequest else e
  }

  function Reported<T>(r: Result<T>): Result<T> {
    if r.Ok? then r else Err(LackIsBadRequest(r.error))
  }

  // ---------------------------------------------------------------------------
  // Orders
  // ---------------------------------------------------------------------------

  const MARKET_ORDER_SLIPPAGE_BUFFER: real := 1.10

  predicate IsMultipleOf(value: real, step: real) {
    step > 0.0 && (value / step).Floor as real == value / step
  }

  function ResolveLimitPrice(m: Market, price: Option<real>): Result<real> {
    if price.None? || price.value <= 0.0 || !IsMultipleOf(price.value, m.tickSize) then Err(BadRequest)
    else Ok(price.value)
  }

  /** The best opposing price, with room for slippage on a buy. */
  function ResolveMarketReservePrice(e: Engine, side: Side): Result<real> {
    var opposing := SideOf(e, Opposite(side));
    if opposing == [] then Err(BadRequest)
    else Ok(if side == Buy then Notional(opposing[0].price, MARKET_ORDER_SLIPPAGE_BUFFER) else opposing[0].price)
  }

  function ResolvePrice(m: Market, e: Engine, r: Request): Result<real> {
    if r.orderType == Limit then ResolveLimitPrice(m, r.price) else ResolveMarketReservePrice(e, r.side)
  }

  predicate AcceptsQuantity(m: Market, r: Request) {
    && m.status == ActiveMarket
    && r.quantity > 0.0 && IsMultipleOf(r.quantity, m.quantityStep) && r.quantity >= m.minimumQuantity
  }

  function NewRow(userId: UserId, r: Request, price: real): OrderRow {
    OrderRow(userId, r.market, r.side, r.orderType, price, r.quantity, 0.0, r.quantity, Open, None)
  }

  /** Creates the order and locks its funds in one transaction. */
  function CreateAndLock(t: Tables, m: Market, row: OrderRow): Result<Tables> {
    var locked := LockFunds(t.accounts, t.holds, LockKey(m, row), |t.orders|, ReserveOf(row, row.quantity));
    if locked.Err? then Err(locked.error)
    else Ok(t.(accounts := locked.value.0, holds := locked.value.1, orders := t.orders + [row]))
  }

  function ApplyPlace(s: State, userId: UserId, r: Request): Reply {
    if r.market !in s.markets || r.market !in s.engines then Reject(s, NotFound) else
    var m := s.markets[r.market];
    if !AcceptsQuantity(m, r) then Reject(s, BadRequest) else
    var price := ResolvePrice(m, s.engines[r.market], r);
    if price.Err? then Reject(s, price.error) else
    if Notional(price.value, r.quantity) < m.minimumNotional then Reject(s, BadRequest) else
    var created := CreateAndLock(s.tables, m, NewRow(userId, r, price.value));
    if created.Err? then Reject(s, LackIsBadRequest(created.error))
    else Done(s.(tables := created.value, pending := s.pending[|s.tables.orders| := m]))
  }

  function InputOf(id: OrderId, r: OrderRow): Input {
    Input(id, r.userId, r.side, r.orderType, Some(r.price), r.quantity)
  }

  predicate CancelledRemainder(status: SubmitStatus) {
    status == CancelledPartlyFilled || status == CancelledUnfilled
  }

  /** Releases what is still reserved for a remainder that will never fill, and closes the order. */
  function CloseRemainder(t: Tables, id: OrderId, result: SubmitResult): Tables
    requires id < |t.orders|
  {
    var (accounts', holds') := ReduceHold(t.accounts, t.holds, id, ReserveOf(t.orders[id], result.remaining));
    t.(accounts := accounts', holds := holds',
       orders := t.orders[id := t.orders[id].(
         status := Cancelled,
         rejectReason := Some(if result.selfTradePrevented then SelfTradePrevented else NoLiquidity))])
  }

  /** Settles the outcome of a submission in one transaction. */
  function Settle(t: Tables, mid: MarketId, m: Market, id: OrderId, result: SubmitResult): Result<Tables> {
    var settled := SettleAll(t, mid, m, result.fills);
    if settled.Err? || !CancelledRemainder(result.status) || result.remaining <= 0.0 || id >= |settled.value.orders|
    then settled
    else Ok(CloseRemainder(settled.value, id, result))
  }

  /** The engine moves first; if the settlement then fails, only the tables are rolled back. Fees are
      those of the market row read when the order was placed. */
  function ApplySubmit(s: State, id: OrderId): Reply {
    if id !in s.pending || id >= |s.tables.orders| then Reject(s, NotFound) else
    var row := s.tables.orders[id];
    if row.market !in s.engines || !Acceptable(InputOf(id, row)) then Reject(s, NotFound) else
    var (engine, result) := EngineSpec.Submit(s.engines[row.market], InputOf(id, row));
    var s' := s.(engines := s.engines[row.market := engine], pending := s.pending - {id});
    Commit(s', Settle(s.tables, row.market, s.pending[id], id, result))
  }

  function ApplyCancel(s: State, userId: UserId, id: OrderId): Reply {
    if id >= |s.tables.orders| || s.tables.orders[id].userId != userId then Reject(s, NotFound) else
    var row, t := s.tables.orders[id], s.tables;
    if !Live(row) then Reject(s, Conflict) else
    var released := ReleaseHold(t.accounts, t.holds, id);
    if released.Err? then Reject(s, released.error) else
    Done(s.(
      tables := t.(accounts := released.value.0, holds := released.value.1,
                   orders := t.orders[id := row.(status := Cancelled)]),
      engines := if row.market in s.engines
                 then s.engines[row.market := EngineSpec.Cancel(s.engines[row.market], id)] else s.engines))
  }

  // ---------------------------------------------------------------------------
  // Money in and out
  // ---------------------------------------------------------------------------

  /** Posts a two-legged transaction between two accounts, creating them if need be. */
  function PostTransfer(t: Tables, kind: Kind, from: AccountKey, to: AccountKey, amount: real): Result<Tables> {
    var posted := PostEntries(Touch(Touch(t.accounts, from), to), TransferEntries(from, to, amount));
    if posted.Err? then Err(posted.error)
    else Ok(t.(accounts := posted.value, journal := t.journal + [LedgerTx(kind, TransferEntries(from, to, amount))]))
  }

  function ApplyGrant(s: State, userId: UserId, asset: AssetId, amount: real): Reply {
    Commit(s, PostTransfer(s.tables, Grant, SystemKey(TestLiquidity, asset), UserKey(userId, asset), amount))
  }

  function ApplyCreateDeposit(s: State, userId: UserId, asset: AssetId, amount: real): Reply {
    if amount <= 0.0 then Reject(s, BadRequest)
    else Done(s.(tables := s.tables.(deposits := s.tables.deposits + [Deposit(userId, asset, amount, Pending)])))
  }

  /** Credits a pending deposit; one that was already processed is left alone. */
  function Confirm(t: Tables, id: nat): Result<Tables> {
    if id >= |t.deposits| then Err(NotFound) else
    var d := t.deposits[id];
    if d.status != Pending then Ok(t) else
    var posted := PostTransfer(t, DepositIn, SystemKey(TestLiquidity, d.asset), UserKey(d.userId, d.asset), d.amount);
    if posted.Err? then posted
    else Ok(posted.value.(deposits := t.deposits[id := d.(status := Confirmed)]))
  }

  /** Debits a withdrawal from the user at once, into suspense. */
  function Debited(t: Tables, userId: UserId, asset: AssetId, amount: real): Result<Tables> {
    var posted := PostTransfer(t, WithdrawalOut, UserKey(userId, asset), SystemKey(WithdrawalSuspense, asset), amount);
    if posted.Err? then posted
    else Ok(posted.value.(withdrawals := t.withdrawals + [Withdrawal(userId, asset, amount)]))
  }

  function ApplyWithdraw(s: State, userId: UserId, asset: AssetId, amount: real): Reply {
    if amount <= 0.0 then Reject(s, BadRequest) else Commit(s, Reported(Debited(s.tables, userId, asset, amount)))
  }

  /** A positive amount credits the user, a negative one debits them. */
  function ApplyAdjust(s: State, userId: UserId, asset: AssetId, amount: real): Reply {
    var user, system := UserKey(userId, asset), SystemKey(AdminAdjustment, asset);
    if amount == 0.0 then Reject(s, BadRequest)
    else if amount > 0.0 then Commit(s, Reported(PostTransfer(s.tables, Adjustment, system, user, amount)))
    else Commit(s, Reported(PostTransfer(s.tables, Adjustment, user, system, -amount)))
  }

  function GetOr<T>(o: Option<T>, default: T): T {
    if o.Some? then o.value else default
  }

  function ApplyUpdateMarket(s: State, id: MarketId, status: Option<MarketStatus>, makerFee: Option<real>, takerFee: Option<real>): Reply {
    if id !in s.markets then Reject(s, NotFound) else
    var m := s.markets[id];
    Done(s.(markets := s.markets[id := m.(status := GetOr(status, m.status),
                                          makerFee := GetOr(makerFee, m.makerFee),
                                          takerFee := GetOr(takerFee, m.takerFee))]))
  }

  // ---------------------------------------------------------------------------
  // Restart
  // ---------------------------------------------------------------------------

  predicate RestsIn(r: OrderRow, mid: MarketId, side: Side) {
    r.market == mid && r.side == side && r.orderType == Limit && Live(r)
  }

  function RestoredMaker(id: OrderId, r: OrderRow): Maker {
    Maker(id, r.userId, r.side, r.price, r.remaining, 0)
  }

  /** One side of a rebuilt book: the resting rows added oldest first. */
  function RebuildSide(orders: seq<OrderRow>, mid: MarketId, side: Side): seq<Maker> {
    if orders == [] then [] else
    var i := |orders| - 1;
    var older := RebuildSide(orders[..i], mid, side);
    if RestsIn(orders[i], mid, side) then Insert(side, older, RestoredMaker(i, orders[i])) else older
  }

  function Rebuild(orders: seq<OrderRow>, mid: MarketId): Engine {
    Engine(RebuildSide(orders, mid, Buy), RebuildSide(orders, mid, Sell), 0)
  }

  /** Engines come back from the rows; submissions under way are lost. */
  function ApplyRestart(s: State): Reply {
    Done(s.(engines := map mid | mid in s.markets :: Rebuild(s.tables.orders, mid), pending := map[]))
  }

  // ---------------------------------------------------------------------------
  // Runs
  // ---------------------------------------------------------------------------

  function Exec(s: State, op: Op): Reply {
    match op
    case Place(userId, request) => ApplyPlace(s, userId, request)
    case SubmitOrder(id) => ApplySubmit(s, id)
    case CancelOrder(userId, id) => ApplyCancel(s, userId, id)
    case GrantFunds(userId, asset, amount) => ApplyGrant(s, userId, asset, amount)
    case CreateDeposit(userId, asset, amount) => ApplyCreateDeposit(s, userId, asset, amount)
    case ConfirmDeposit(id) => Commit(s, Confirm(s.tables, id))
    case Withdraw(userId, asset, amount) => ApplyWithdraw(s, userId, asset, amount)
    case Adjust(userId, asset, amount) => ApplyAdjust(s, userId, asset, amount)
    case UpdateMarket(id, status, makerFee, takerFee) => ApplyUpdateMarket(s, id, status, makerFee, takerFee)
    case Restart => ApplyRestart(s)
  }

  /** An empty exchange with the given markets. */
  function Init(markets: Markets): State {
    State(markets, map mid | mid in markets :: EMPTY, Tables(map[], map[], [], [], [], [], []), map[])
  }

  function Run(s: State, ops: seq<Op>): State
    decreases |ops|
  {
    if ops == [] then s else Run(Exec(s, ops[0]).state, ops[1..])
  }

  /** An order is not cancelled between being placed and being submitted, the one interleaving of these steps
      that the source does not handle. */
  predicate Enabled(s: State, op: Op) {
    op.CancelOrder? ==> op.id !in s.pending
  }

  predicate AllEnabled(s: State, ops: seq<Op>)
    decreases |ops|
  {
    ops != [] ==> Enabled(s, ops[0]) && AllEnabled(Exec(s, ops[0]).state, ops[1..])
  }
}
