# The trading core of the exchange sandbox

A Dafny model of the part of the exchange that decides who trades, at what price, and whose money moves:
the in-memory matching engine and its order book, the settlement that replays the engine's fills against
the database, the double-entry ledger and the order holds, the services around them, and the market
maker that quotes against them. The main results are about every run of the exchange, about every input
of the matcher, or about both representations of an order at once.

## How it is built

Two layers describe the same code.

- *Values.* `Matching.dfy` and `EngineSpec.dfy` say what one submission does to a flat, price-time ordered
  list of makers; `Ledger.dfy`, `Holds.dfy` and `Settlement.dfy` say what one posting, one reservation and
  one fill do to the tables; `Exchange.dfy` puts tables, one engine per market and the orders that are
  placed but not yet submitted into one state machine, whose steps are: place, submit and settle, cancel,
  grant, create and confirm a deposit, withdraw, adjust, change a market, restart. Placing and submitting
  are separate steps, so runs interleave them freely. `Interleaving.dfy` takes these steps apart further,
  into the single transactions and engine calls they consist of: creating the row, the engine's match, the
  settling transaction, the cancelling transaction, taking an order off the book. Its runs interleave those
  in any way, and every run of whole operations is one of them (`EveryRunIsAnInterleaving`).
- *Objects.* `OrderBook.dfy`, `MatchingEngine.dfy`, `Services.dfy`, `WalletsService.dfy`,
  `MatchingService.dfy`, `OrdersService.dfy` and the class in `MarketMaker.dfy` are the source's classes
  with their loops, their in-place updates and their rollbacks. Every method is proved to do exactly what
  the value layer says.

The theorems are stated on the value layer and so hold of the objects: `MatchingFacts.dfy` (optimality),
`FillProofs.dfy`, `Books.dfy`, `Submission.dfy`, `Transfers.dfy`, `Safety.dfy` (the invariant of every
run in which no waiting order is cancelled), `Backing.dfy` and `Interleaving.dfy` (the weaker invariant of
every interleaving, with no condition at all), `Reconciliation.dfy` (accounts against business tables),
`OrderHistory.dfy` (the life of an order), `OwnerAccounts.dfy` (a user's account, order by order),
`Solvency.dfy` (when settlement goes through),
`Agreement.dfy` and `AgreementRuns.dfy` (book against rows), `FeeRates.dfy`, `Verdicts.dfy`,
`Acceptance.dfy`, `Steps.dfy`, `Postings.dfy` and `Quotes.dfy` (each operation from the outside: what it
charges, answers, accepts, changes, moves and puts up), `Crossing.dfy` (when a book can be crossed),
`Restarts.dfy` and `Rebuilding.dfy` (when restarting is invisible), `CancelRace.dfy` and
`LateSettlement.dfy` (cancelling an order that still waits), `DecimalRules.dfy`, `Exactness.dfy` and
`ExactRuns.dfy` (finite decimals). `Limits.dfy`, `Rebates.dfy` and `FlightRuns.dfy`, with the building
blocks of `Scenarios.dfy`, hold the concrete runs in which a promise ends.

Amounts are exact reals; the decimal modules say when the source's finite precision makes no difference.
Accounts are keyed by owner and asset, holds by order, and an order's id is the position of its row, which
is its place in `createdAt` order. A database transaction either commits or leaves the tables as they were.

## Where code and comments part

- `matching.service.ts:35-40` says settlement should never lack funds. As long as fees are below one, that
  holds of limit orders and market sells where each submission is settled before anything else happens to
  its orders (`LimitAndSellAlwaysSettle`), and in any interleaving of every fill whose two orders still hold
  their reserves (`HeldFillSettles`). It does not hold of market buys, which reserve at the best ask times
  1.10 and then walk the book without a limit: `MarketBuyCanFail` is a run in which it fails, and
  `SubmissionSettlesExactlyWhen` is the exact condition. Nor does it hold of a limit order whose maker is
  cancelled between the match and its settlement and takes the released funds out: `CancelledInFlight`;
  `FillSettlesBackedIff` is the exact condition for a fill, whatever became of its orders.
- The same comment calls the state after a failure a safe, resting one. The money is safe
  (`EveryInterleavingKeepsTheLedger`); but the engine has already taken from the book what the rollback keeps
  in the rows, and `EveryRunStaysInStepIff` shows that this is exactly what takes book and rows apart: an
  open, funded order may stand on no book at all (`CancelledInFlight`), and a restart can even cross the
  book (`RestartCanCross`).
- `matching.service.ts:59-60` says rebuilding oldest-first reproduces the exact resting order. It does if
  and only if every queue stands in the order its orders were placed (`EveryRestartIsInvisibleIff`);
  `RestartCanReorder` is a run in which it does not, and in which the next sell trades with the wrong
  order for it.
- `ledger-design.md:58` promises that each asset sums to zero. `postTransaction` compares one total over
  all assets (`PostMayMixAssets`), so this rests on every caller balancing each asset by itself
  (`PostConservesIff`), which all of them do (`EveryRunKeepsTheLedger`).
- The trade rows record the fees charged, but nothing keeps a fee rate from being negative
  (`update-market.dto.ts:9-15`), and settlement writes such a fee on the trade and posts nothing for it
  (`matching.service.ts:175-176` against 193-205). FEE_REVENUE is what the fee columns add up to if and only
  if no trade records a negative fee (`EveryRunRecordsItsFeesIff`); `RebateGoesUnposted` is a run in which it
  is not.
- `ledger-design.md:50` says nothing is read, modified and written back in JavaScript; `reduceHold`
  (`balances.service.ts:129-135`) and `applyFillToOrder` (`matching.service.ts:218-228`) do. The model
  follows the code and takes each operation as one atomic step.
- `market-maker.service.ts:22-25` credits self-trade prevention with keeping the bot's quotes apart. They
  never get that far: `RefreshNeverStopsItself`.

## Scope conditions

Each theorem names the ones it needs. What the ledger, the order rows, the trades, the exactness of amounts
and the uncrossed books promise holds of every run without any of them, except that `EveryRunProtectsLimits`
needs base and quote to differ. Ids are unique, since the database assigns them, and a hold row references
an existing account, since a foreign key does.

- *Enabled* (`Exchange.Enabled`): an order is not cancelled between being placed and being submitted, the
  one interleaving of these steps that the source does not handle. Only theorems that take every live order
  to hold its reserve, a finished one to stay as it is, or every order on a book to be live need it. What
  happens otherwise is proved for every state: the late submission leaves the book alone if and only if a market order finds nobody opposite
  or its owner first, or a limit order crosses its owner's head of the queue (`LateSubmissionMovesBookIff`);
  matching nothing and resting, it strands a cancelled order on the book; matching something, it is paid out
  of what the owner has available, exactly when that covers it (`LateSubmissionSettlesIff`), and the
  cancelled row lives on (`CancelledOrderTrades`). Between matching and settling, which these steps take as
  one, the same can happen to a maker (`CancelledInFlight`).
- *Base and quote differ* (`Safety.PairsDistinct`): no market trades an asset against itself.
- *Settled* (`AgreementRuns.Settled`): submissions settle, and a restart finds none under way. Only the
  theorems that compare book and rows need it. That books are never crossed does not: it holds of every
  interleaving without a restart, and of runs with restarts exactly when each finds the live rows uncrossed
  (`EveryRunUncrossedIff`).
- *In turn* (`Rebuilding.InTurn`): orders of one market are submitted in the order they were placed. It is
  what keeps every queue in order of age, and only `RestartIsInvisible` needs it.

## Model

| member | source | states |
|---|---|---|
| Matching.MatchHasPriority | apps/backend/src/modules/matching/engine/matching-engine.ts:56-83 | Matching obeys price-time priority as stated without the loop: the fills take a prefix of the opposing list at the makers' prices, every maker but the last in full, and stop exactly at exhaustion, at the first maker that does not cross, or at the taker's own order |
| Matching.PriorityIsUnique | apps/backend/src/modules/matching/engine/matching-engine.ts:56-83 | Nothing else obeys it: any outcome with price-time priority is the one the loop computes |
| MatchingFacts.MatchConserves | apps/backend/src/modules/matching/engine/matching-engine.ts:66-82 | What was filled and what remains add up to the order's quantity |
| MatchingFacts.MatchIsFair | apps/backend/src/modules/matching/engine/matching-engine.ts:57-76 | Every fill trades a positive quantity with another user's resting order, at that order's price, within the taker's limit |
| MatchingFacts.MatchWorsens | apps/backend/src/modules/matching/engine/matching-engine.ts:56-83 | Fill prices only get worse for the taker |
| MatchingFacts.MatchExhausts | apps/backend/src/modules/matching/engine/matching-engine.ts:56-64 | A taker that is neither filled nor stopped crosses nothing that is left |
| MatchingFacts.MatchIsOptimal | apps/backend/src/modules/matching/engine/matching-engine.ts:56-83 | No way of taking the same quantity from the orders that stood there costs a buyer less or brings a seller more |
| EngineSpec.SubmitKeepsValid | apps/backend/src/modules/matching/engine/matching-engine.ts:36-114 | A submission keeps both sides in price-time order with unique ids, positive remainders and nondecreasing sequence |
| EngineSpec.SubmitKeepsUncrossed | apps/backend/src/modules/matching/engine/matching-engine.ts:98-113 | A submission never leaves the book crossed, whatever stopped it |
| EngineSpec.CancelRemoves | apps/backend/src/modules/matching/engine/matching-engine.ts:94-96 | A cancellation takes out one order and nothing else, and keeps the engine well formed and uncrossed |
| Verdicts.SubmissionMatches | apps/backend/src/modules/matching/engine/matching-engine.ts:36-92 | The fills, remainder, self-trade flag and opposing side of a submission are those of price-time priority, with the price as limit exactly for a limit order |
| Verdicts.SubmissionRests | apps/backend/src/modules/matching/engine/matching-engine.ts:98-113 | The order stands on the book afterwards exactly if it is a limit order, something remains and it did not meet its own user; it is then last in the queue of its price with what remains, and no other queue changes |
| Verdicts.SubmissionStatus | apps/backend/src/modules/matching/engine/matching-engine.ts:98-113 | Each of the five statuses is answered exactly when its combination of something filled, something remaining and standing on the book afterwards holds |
| Verdicts.MarketOrderStatuses | apps/backend/src/modules/matching/engine/matching-engine.ts:98-113 | A market order on an empty book is CANCELLED, one that takes the only ask and wants more is PARTIALLY_FILLED_CANCELLED |
| BookSide.InsertValid | apps/backend/src/modules/matching/engine/order-book.ts:32-44 | Adding the latest arrival keeps a side in price-time order |
| BookSide.InsertIsFifo | apps/backend/src/modules/matching/engine/order-book.ts:32-44 | The newcomer stands last in the queue of its own price, and no other queue changes |
| BookSide.DeleteValid | apps/backend/src/modules/matching/engine/order-book.ts:47-59 | Removal takes exactly the order with that id and keeps the others in order |
| OrderBooks.OrderBook.FindLevelIndex | apps/backend/src/modules/matching/engine/order-book.ts:85-97 | The binary search returns the index before which every level is strictly better and from which on none is |
| OrderBooks.OrderBook.Best | apps/backend/src/modules/matching/engine/order-book.ts:23-29 | The head of the first level is the head of the sorted side |
| OrderBooks.OrderBook.Add | apps/backend/src/modules/matching/engine/order-book.ts:32-44 | Pushing onto a level or splicing one in is insertion into the sorted side; the other side is untouched |
| OrderBooks.OrderBook.Find | apps/backend/src/modules/matching/engine/order-book.ts:48-51 | The scan over levels and queues finds the first order with the id, or there is none |
| OrderBooks.OrderBook.Remove | apps/backend/src/modules/matching/engine/order-book.ts:47-59 | Removal deletes from the bids or else from the asks, drops an emptied level, and reports whether the id was there |
| OrderBooks.OrderBook.ReduceBest | apps/backend/src/modules/matching/engine/matching-engine.ts:78-79 | Lowering the best order's remainder changes that order only, where it stands |
| OrderBooks.OrderBook.RemoveBest | apps/backend/src/modules/matching/engine/order-book.ts:62-68 | Shifting the best order leaves the rest of the side, without an empty level |
| OrderBooks.OrderBook.Snapshot | apps/backend/src/modules/matching/engine/order-book.ts:71-78 | The view shows the best prices in order, each with all that stands at it, and misses a price only when it is full |
| OrderBooks.LevelsAreDetermined | apps/backend/src/modules/matching/engine/order-book.ts:4-7 | Sorted non-empty levels are determined by the orders they hold |
| MatchingEngines.MatchingEngine.MatchBook | apps/backend/src/modules/matching/engine/matching-engine.ts:53-83 | The loop over the levelled book computes the fills, the remainder and the opposing side of the specification, and terminates |
| MatchingEngines.MatchingEngine.Rest | apps/backend/src/modules/matching/engine/matching-engine.ts:98-113 | An unfilled limit order that was not stopped rests, every other remainder is dropped, and the status is the one SubmissionStatus characterises |
| MatchingEngines.MatchingEngine.Submit | apps/backend/src/modules/matching/engine/matching-engine.ts:36-92 | On any sorted book a submission is rejected without effect for a limit order without price or a non-positive quantity, and otherwise refines the specification; a new id keeps the engine well formed |
| MatchingEngines.MatchingEngine.Cancel | apps/backend/src/modules/matching/engine/matching-engine.ts:94-96 | Cancelling refines the specification and reports whether the order was resting |
| Ledger.ApplyAllEffect | apps/backend/src/modules/ledger/ledger.service.ts:91-101 | Applying entries moves exactly their net on every account and in every asset, never what is locked, and never overdraws a user |
| Ledger.PostConservesIff | apps/backend/src/modules/ledger/ledger.service.ts:66-80 | A posting keeps every asset summing to zero if and only if its entries balance in every asset by themselves |
| Postings.PostRefusesIff | apps/backend/src/modules/ledger/ledger.service.ts:61-80 | A posting is refused as invalid exactly for fewer than two legs or one that is not positive, as unbalanced exactly if debits and credits differ in total, and otherwise only for a missing account or short funds |
| Ledger.PostMayMixAssets | apps/backend/src/modules/ledger/ledger.service.ts:66-80 | The posting check lets through entries that turn one asset into another |
| Holds.LockedNonNegative | documentation/ledger-design.md:56-59 | Where locked funds are the active holds, nothing locked is negative and no hold exceeds it |
| Holds.LockKeeps | apps/backend/src/modules/balances/balances.service.ts:37-69 | Locking moves funds from available to locked of one account, changes no balance, and keeps locked equal to the active holds |
| Holds.ReleaseKeeps | apps/backend/src/modules/balances/balances.service.ts:75-100 | Releasing undoes what is still reserved, once |
| Holds.ReduceKeeps | apps/backend/src/modules/balances/balances.service.ts:114-136 | Reducing changes no balance, moves exactly the amount of an active hold back to available, and up to what is held keeps locked equal to the active holds and consumes the hold exactly at zero |
| Holds.ReduceMatchesIff | apps/backend/src/modules/balances/balances.service.ts:114-136 | Reducing by any amount keeps locked equal to the active holds if and only if it takes no more than an active hold has left; otherwise nothing changes |
| Settlement.FillEntriesNet | apps/backend/src/modules/matching/matching.service.ts:189-204 | The legs of a fill, fees split off or not, move exactly the deal, balance in each asset, and have equal debits and credits |
| FillProofs.FillPostsIff | apps/backend/src/modules/ledger/ledger.service.ts:68-80 | A fill's posting goes through exactly when no fee takes a whole receipt and both payers have what they pay |
| FillProofs.MoveDeal | apps/backend/src/modules/matching/matching.service.ts:180-211 | With its six accounts created, a deal that posts moves exactly itself and keeps the money invariant |
| FillProofs.FillSettlesIff | apps/backend/src/modules/matching/matching.service.ts:146-215 | A fill between live orders settles exactly when no fee takes a whole receipt and the buyer's available quote with the slice given back covers it; the seller always can pay |
| FeeRates.FillCharges | apps/backend/src/modules/matching/matching.service.ts:159-178 | A settled fill appends one trade, with the fee of the resting order at the maker rate and that of the incoming one at the taker rate, each on what that side receives, whichever of them buys |
| FeeRates.FillPaysEachSide | apps/backend/src/modules/matching/matching.service.ts:159-211 | A settled fill changes every balance by exactly what its two orders give and get, each charged at its own rate, and FEE_REVENUE by the charges |
| FeeRates.SubmissionCharges | apps/backend/src/modules/matching/matching.service.ts:116-119 | A submission that goes through adds one such trade per fill, in order, at the rates of the market row it carries; one that fails adds none |
| FeeRates.OnlySubmissionsTrade | apps/backend/src/modules/matching/matching.service.ts:116-119 | No other operation adds a trade |
| FeeRates.EveryRunChargesItsRates | apps/backend/src/modules/orders/orders.service.ts:43-114 | In every run an order is settled at the rates its market had when it was placed, whatever happened in between |
| Submission.MatchedFillSettlesIff | apps/backend/src/modules/matching/matching.service.ts:153-190 | A matched fill settles exactly when fees are below one and a buying taker can pay; a resting buyer always can |
| Submission.SettlesMatch | apps/backend/src/modules/matching/matching.service.ts:116-119 | By induction over the matching: the fills of a submission settle exactly under the solvency condition, and rows, holds, ledger and the opposing side are then in step again |
| Books.FillKeepsTables | apps/backend/src/modules/matching/matching.service.ts:146-229 | A settled fill keeps money, holds, orders, trades and journal consistent with each other |
| Solvency.SolventIff | apps/backend/src/modules/matching/engine/matching-engine.ts:56-83 | Because fill prices only rise, a buyer's running balance stays non-negative exactly when it does not end negative |
| Solvency.SubmissionSettlesExactlyWhen | apps/backend/src/modules/orders/orders.service.ts:142-151 | A submission settles if and only if nothing was matched, or fees are below one and, for a market buy, the fills cost at most the reserve for the filled quantity plus what else is available |
| Solvency.EveryRunSettlesExactlyWhen | apps/backend/src/modules/matching/matching.service.ts:96-140 | In every reachable state, submitting a waiting order succeeds if and only if that condition holds |
| Solvency.LimitAndSellAlwaysSettle | apps/backend/src/modules/matching/matching.service.ts:35-40 | In every reachable state, with fees below one, the settlement of a limit order or a market sell cannot fail |
| Limits.MarketBuyCanFail | apps/backend/src/modules/orders/orders.service.ts:148-150 | A run whose settlements all went through and after which, without any fee, a funded market buy fails to settle and takes book and rows apart |
| Backing.FillSettlesBackedIff | apps/backend/src/modules/matching/matching.service.ts:146-215 | In any interleaving, whatever became of its orders since it was matched, a fill settles if and only if no fee takes a whole receipt and each side can pay out of what it has available and what its order still holds |
| Backing.HeldFillSettles | apps/backend/src/modules/matching/matching.service.ts:35-40 | A fill of two orders that still hold their reserves cannot lack funds, unless the taker is a market buy |
| Backing.FillKeepsBacked | apps/backend/src/modules/matching/matching.service.ts:146-229 | A settled fill keeps money, rows, holds, trades and journal consistent, and takes its quantity off exactly its two rows, whether they are still live and funded or not |
| FlightRuns.CancelledInFlight | apps/backend/src/modules/matching/matching.service.ts:102-119 | An interleaving in which an ask is cancelled between match and settlement: its cancelled row ends FILLED, or, its released funds withdrawn first, the settlement of a limit order fails and an open, funded bid stands on no book |
| CancelRace.LateSubmissionMovesBookIff | apps/backend/src/modules/orders/orders.service.ts:107-114 | Submitting an order that was cancelled while it waited leaves every book alone if and only if a market order finds the opposing side empty or headed by its own user, or a limit order crosses a head that is its own user |
| CancelRace.LateSubmissionRevives | apps/backend/src/modules/matching/matching.service.ts:116-139 | Matching nothing, its row stays CANCELLED and nothing is traded or moved; settling a match adds one trade per fill and leaves the row as the engine reports |
| CancelRace.CancelBeforeSubmitStrands | apps/backend/src/modules/orders/orders.service.ts:107-114 | Matching nothing and resting, it stands on the book although its row is cancelled |
| LateSettlements.LateFillSettlesIff | apps/backend/src/modules/matching/matching.service.ts:146-215 | A fill of a taker whose hold is released settles exactly when fees are below one and the taker's available funds pay for it |
| LateSettlements.LateSubmissionSettlesIff | apps/backend/src/modules/matching/matching.service.ts:116-139 | The late submission succeeds if and only if it matches nothing, or fees are below one and its owner has available all that the fills take |
| Limits.CancelledOrderTrades | apps/backend/src/modules/orders/orders.service.ts:107-114 | A run from the empty exchange in which a cancelled order, submitted late, trades and ends FILLED |
| Transfers.PlaceKeepsTables | apps/backend/src/modules/orders/orders.service.ts:82-106 | Placing succeeds exactly when the reserve is available, and moves exactly that from available to locked |
| Acceptance.PlacedIff | apps/backend/src/modules/orders/orders.service.ts:43-112 | An order is accepted if and only if its market is known and active, its quantity a positive whole number of steps and at least the minimum, its price a positive whole number of ticks or, for a market order, someone opposite, its notional at least the minimum and its reserve available; it becomes a row with the terms requested and the price it reserves at, and a hold; a rejected one changes nothing |
| Transfers.CancelKeepsTables | apps/backend/src/modules/orders/orders.service.ts:153-175 | Cancelling a live order gives back exactly the reserve of what remains, and nothing else moves |
| Steps.CancelledIff | apps/backend/src/modules/orders/orders.service.ts:153-175 | A cancellation is refused as not found or as a conflict exactly for an order unknown, of another user or finished, and otherwise closes the row, makes available what an active hold reserves, and takes the order off the book of its market, changing nothing else |
| Transfers.CloseRemainderKeepsTables | apps/backend/src/modules/matching/matching.service.ts:121-136 | Closing a cancelled remainder gives back all the order still holds |
| Steps.SubmissionBooks | apps/backend/src/modules/matching/matching.service.ts:96-140 | A submission moves only the engine of its market; if it goes through, every row is filled by what the fills take of it and the own row closed, with its reason, exactly if a remainder was dropped; if it fails, no table changes |
| Transfers.TransferKeepsMoney | apps/backend/src/modules/ledger/ledger.service.ts:111-164 | A two-legged posting goes through exactly for a positive amount that a paying user has, and moves exactly it |
| Postings.GrantMoves | apps/backend/src/modules/ledger/ledger.service.ts:111-129 | A grant succeeds exactly for a positive amount, moves it from TEST_LIQUIDITY to that user and touches no other account |
| Postings.AdjustMoves | apps/backend/src/modules/admin/admin.service.ts:135-179 | An adjustment succeeds exactly if it is positive, or negative and the user has that much available, and changes what the user has by the signed amount, ADMIN_ADJUSTMENT by its opposite and no other account |
| Postings.WithdrawMoves | apps/backend/src/modules/wallets/wallets.service.ts:91-143 | A withdrawal succeeds exactly for a positive amount the user has available, moves it into WITHDRAWAL_SUSPENSE and records it |
| Postings.ConfirmMoves | apps/backend/src/modules/wallets/wallets.service.ts:53-74 | Confirming moves the amount of a pending deposit to its user and marks it, and leaves a processed one alone |
| Postings.EveryRunConfirmsOnce | apps/backend/src/modules/wallets/wallets.service.ts:53-74 | In every reachable state confirming a recorded deposit cannot fail and credits its user exactly once |
| Transfers.GrantKeepsTables | apps/backend/src/modules/ledger/ledger.service.ts:111-129 | A grant keeps the tables consistent |
| Transfers.ConfirmKeepsTables | apps/backend/src/modules/wallets/wallets.service.ts:53-74 | Confirming credits a pending deposit once; a second confirmation changes nothing |
| Transfers.WithdrawKeepsTables | apps/backend/src/modules/wallets/wallets.service.ts:105-133 | A withdrawal is recorded together with its debit |
| Transfers.CreateDepositKeepsTables | apps/backend/src/modules/wallets/wallets.service.ts:39-45 | A pending deposit counts for nothing yet |
| Transfers.AdjustKeepsTables | apps/backend/src/modules/admin/admin.service.ts:143-162 | A posting between a user and ADMIN_ADJUSTMENT, in either direction, keeps the tables consistent |
| Transfers.TermsKeepTables | apps/backend/src/modules/admin/admin.service.ts:111-119 | Changing fees or status keeps the tables consistent, past trades included |
| Steps.UpdateSets | apps/backend/src/modules/admin/admin.service.ts:108-119 | Changing a market sets exactly the given status and rates of exactly that market, and refuses an unknown one |
| Safety.SubmissionSettlesIff | apps/backend/src/modules/matching/matching.service.ts:96-140 | In any state within the invariant a submission settles exactly under the solvency condition, and then leaves the tables consistent and the engine in step with them |
| Safety.UnsettledInSync | apps/backend/src/modules/matching/matching.service.ts:102-119 | If it does not settle, the engine has run ahead of the rows, but holds nothing the rows do not back |
| Safety.RebuildSideValid | apps/backend/src/modules/matching/matching.service.ts:61-77 | A rebuilt side is in price-time order and holds exactly the live limit rows of its market |
| Steps.RestartLists | apps/backend/src/modules/matching/matching.service.ts:53-77 | A restart touches no table, drops what was under way, and lists in every market exactly the live limit orders with what remains of them, older first at each price |
| Safety.StepKeepsInv | apps/backend/src/modules/orders/orders.service.ts:42-175 | Every operation keeps the invariant, whether it goes through, is rejected, or fails to settle |
| Safety.EveryRunIsSafe | documentation/ledger-design.md:54-59 | Every run from an empty exchange in which no waiting order is cancelled stays within the invariant over tables, engines and waiting orders |
| Interleaving.ActKeepsSound | apps/backend/src/modules/matching/matching.service.ts:96-140 | Every single transaction and engine call keeps tables, books, waiting orders and matches under way consistent, so that no order is promised more often than it has room for, and changes no terms and takes back no fill |
| Interleaving.MatchKeepsPromises | apps/backend/src/modules/matching/matching.service.ts:102-110 | A match moves what waited of an order into the book, into fills or into a remainder to be closed; what is promised of any order does not grow |
| Interleaving.SettlingKeepsBacked | apps/backend/src/modules/matching/matching.service.ts:116-119 | Fills that every row has room for leave the tables consistent and take exactly their quantities off the rows |
| Interleaving.EveryInterleavingIsSound | documentation/ledger-design.md:48-52 | Every interleaving of transactions and engine calls, on whatever markets, stays within that invariant |
| Interleaving.EveryRunIsAnInterleaving | apps/backend/src/modules/orders/orders.service.ts:42-175 | Every run of whole operations is such an interleaving, with nothing left in flight |
| Reconciliation.EveryRunKeepsTheLedger | documentation/ledger-design.md:54-59 | In every reachable state, whatever the markets and operations, balances are credits minus debits, locked is the sum of active holds, no user is negative, every transaction balances in each asset, and every asset sums to zero |
| Reconciliation.EveryInterleavingKeepsTheLedger | documentation/ledger-design.md:54-59 | The same after every interleaving of transactions and engine calls |
| Reconciliation.EveryRunReconciles | apps/backend/src/modules/matching/matching.service.ts:159-204 | In every reachable state FEE_REVENUE is the positive fees of the trades, WITHDRAWAL_SUSPENSE the withdrawals, minus TEST_LIQUIDITY the grants and confirmed deposits, minus ADMIN_ADJUSTMENT what admins gave |
| Reconciliation.EveryRunRecordsItsFeesIff | apps/backend/src/modules/matching/matching.service.ts:162-204 | In every reachable state FEE_REVENUE is what the fee columns of the trades add up to if and only if no trade records a negative fee in the asset |
| Rebates.RebateGoesUnposted | apps/backend/src/modules/matching/matching.service.ts:175-204 | A settled run with a negative maker fee, after which it is not |
| Reconciliation.EveryInterleavingReconciles | documentation/ledger-design.md:12-12 | Every interleaving keeps the system accounts equal to their business totals and the users together owning what was issued |
| Reconciliation.UsersOwnWhatWasIssued | documentation/ledger-design.md:12-12 | In every reachable state the users together own what was granted, deposited and adjusted, less withdrawals and the positive fees of the trades |
| OrderHistory.StepMovesForward | apps/backend/src/modules/matching/matching.service.ts:217-229 | No operation changes an order's terms, takes back a fill, or touches a finished order |
| OrderHistory.EveryRunKeepsOrders | apps/backend/src/modules/matching/matching.service.ts:217-229 | Over every run terms stand and fills only grow, filled plus remaining is the quantity, filled is the sum of the trades of the order, the status matches, and an active hold belongs to a live order and is its reserve |
| OrderHistory.EveryRunFinishesOrders | apps/backend/src/modules/orders/orders.service.ts:153-175 | Where no waiting order is cancelled, finished orders moreover never change, and exactly the live orders hold their reserve |
| OrderHistory.SettledRowFollowsEngine | apps/backend/src/modules/matching/matching.service.ts:121-144 | A settled row has the status, remainder and reject reason of the engine's result; a market order ends FILLED or CANCELLED |
| OrderHistory.OrderPaysItsTrades | apps/backend/src/modules/matching/matching.service.ts:162-204 | Over its trades an order pays exactly what was traded and receives exactly what was traded less its fees |
| OrderHistory.EveryRunProtectsLimits | apps/backend/src/modules/matching/matching.service.ts:153-157 | Over every run a limit buy costs its fills and at most its limit per unit, a limit sell brings at least its limit, and a finished order reserves nothing |
| OwnerAccounts.TradesPartition | apps/backend/src/modules/matching/matching.service.ts:189-204 | All that trades moved on a user's account is the sum over the user's own orders of what each moved |
| OwnerAccounts.EveryRunAccountsForOwners | documentation/ledger-design.md:54-59 | In every reachable state a user's account holds exactly what the user's own orders traded plus what came in and went out besides, locks exactly what the user's own orders reserve, and has all the rest available |
| Agreement.MatchIsBooked | apps/backend/src/modules/matching/matching.service.ts:213-229 | Booking the fills of a match leaves each maker's row with what the book says, and finishes the rows of the makers that are gone |
| Agreement.SubmitMirrors | apps/backend/src/modules/matching/matching.service.ts:96-140 | After a settled submission the market's book again lists exactly the live limit rows with equal remainders |
| AgreementRuns.StaysInStepIff | apps/backend/src/modules/matching/matching.service.ts:102-140 | Book and rows stay in step across a submission if and only if nothing was matched, or fees are below one and, for a market buy, the fills cost at most the reserve for the filled quantity plus what else is available |
| AgreementRuns.EveryRunStaysInStepIff | apps/backend/src/modules/matching/matching.service.ts:102-140 | From any state reached by settled steps, the next submission keeps book and rows in step, and succeeds, if and only if that condition holds |
| AgreementRuns.EveryRunStaysInStep | apps/backend/src/modules/matching/matching.service.ts:96-140 | Over every run whose settlements go through, each book holds exactly the live limit rows of its market with equal owner, side, price and remainder, is uncrossed, and no submitted market order stays open |
| Crossing.RebuildUncrossedIff | apps/backend/src/modules/matching/matching.service.ts:61-77 | A rebuilt book is uncrossed if and only if every live limit buy row of its market is priced below every live limit sell row |
| Crossing.StepUncrossedIff | apps/backend/src/modules/matching/engine/matching-engine.ts:98-113 | From an uncrossed state an operation, settled or not, leaves a crossed book if and only if it is a restart from crossed rows |
| Crossing.EveryRunUncrossedIff | apps/backend/src/modules/matching/matching.service.ts:53-77 | Whatever fails to settle, no book of a run is ever crossed if and only if every restart finds the live rows uncrossed |
| Crossing.EveryRunIsUncrossed | apps/backend/src/modules/matching/engine/matching-engine.ts:98-113 | Over every run without a restart every book stays uncrossed, failed settlements included |
| Crossing.EveryInterleavingIsUncrossed | apps/backend/src/modules/matching/engine/matching-engine.ts:94-113 | However matching, settling and cancelling are interleaved, no book is crossed until a restart |
| Limits.RestartCanCross | apps/backend/src/modules/matching/matching.service.ts:59-77 | A run with a failed settlement after which, with nothing under way and no book crossed, a restart crosses one |
| Restarts.AlikeAnswerAlike | apps/backend/src/modules/matching/matching.service.ts:59-60 | Engines that differ in arrival stamps only return equal fills and statuses for every later sequence of submissions and cancellations |
| Restarts.AlikeIffAnswersAlike | apps/backend/src/modules/matching/engine/matching-engine.ts:36-92 | Two engines answer every sequence of submissions and cancellations alike if and only if they have the same queues: what an engine answers shows all of its book |
| Restarts.AlikeBooksHaveAlikeLevels | apps/backend/src/modules/matching/engine/order-book.ts:4-7 | Books with the same sides have the same levels and queues |
| Restarts.StepIndistinguishable | apps/backend/src/modules/matching/matching.service.ts:59-60 | No operation of the exchange can tell such engines apart |
| Rebuilding.OneOrderOnly | apps/backend/src/modules/matching/matching.service.ts:59-65 | Price and age leave one way to list a set of orders |
| Rebuilding.RestartIsInvisible | apps/backend/src/modules/matching/matching.service.ts:53-77 | A restart rebuilds every book as it stood; engines answer every later sequence as they would have, and the tables after any later run are the same |
| Rebuilding.RestartInvisibleIff | apps/backend/src/modules/matching/matching.service.ts:59-77 | Where book and rows are in step and nothing is under way, a restart leaves the same queues, and the same answers to every later sequence of submissions and cancellations, if and only if every queue stands in the order its orders were placed |
| Rebuilding.EveryRestartIsInvisibleIff | apps/backend/src/modules/matching/matching.service.ts:59-77 | The same after every run whose settlements went through |
| Limits.RestartCanReorder | apps/backend/src/modules/matching/matching.service.ts:59-60 | A settled run, with two orders at one price submitted out of turn, after which a restart changes which of them the next sell trades with |
| Services.Database.Restore | documentation/ledger-design.md:51-51 | Rolling back returns every table to the snapshot |
| Services.LedgerService.GetOrCreateAccount | apps/backend/src/modules/ledger/ledger.service.ts:41-59 | Creates an empty account on first use and changes nothing otherwise |
| Services.LedgerService.Check | apps/backend/src/modules/ledger/ledger.service.ts:62-80 | The summing loop rejects fewer than two legs, a leg that is not positive, and unequal totals, and nothing else |
| Services.LedgerService.ApplyToBalance | apps/backend/src/modules/ledger/ledger.service.ts:131-164 | The guarded update of one leg refines the specification |
| Services.LedgerService.PostTransaction | apps/backend/src/modules/ledger/ledger.service.ts:61-104 | Check, then record and apply the legs one by one: all of them or the first error |
| Services.LedgerService.GrantTestLiquidity | apps/backend/src/modules/ledger/ledger.service.ts:111-129 | Credits the user out of TEST_LIQUIDITY |
| Services.BalancesService.LockFunds | apps/backend/src/modules/balances/balances.service.ts:37-69 | Refines locking; short funds change nothing that commits |
| Services.BalancesService.ReleaseHold | apps/backend/src/modules/balances/balances.service.ts:75-100 | Refines releasing, guarded by the hold's status |
| Services.BalancesService.ReduceHold | apps/backend/src/modules/balances/balances.service.ts:114-136 | Refines reducing; stale holds and non-positive amounts are ignored |
| MatchingServices.MatchingService.ApplyFillToOrder | apps/backend/src/modules/matching/matching.service.ts:217-229 | Books a fill on one order row |
| MatchingServices.MatchingService.BuildEntries | apps/backend/src/modules/matching/matching.service.ts:189-204 | Pushing the legs one by one yields the four to six legs of a fill |
| MatchingServices.MatchingService.SettleFill | apps/backend/src/modules/matching/matching.service.ts:146-215 | Unreserving, pricing fees, recording the trade, posting and booking, in the source's order, refine the settlement of a fill |
| MatchingServices.MatchingService.SettleFills | apps/backend/src/modules/matching/matching.service.ts:116-119 | The loop settles every fill or stops with the first error |
| MatchingServices.MatchingService.SettleResult | apps/backend/src/modules/matching/matching.service.ts:116-139 | The settling transaction commits as a whole or restores every table |
| MatchingServices.MatchingService.SubmitAndSettle | apps/backend/src/modules/matching/matching.service.ts:96-140 | One engine moves, the others do not, and the tables commit or roll back while the engine does not |
| MatchingServices.MatchingService.CancelResting | apps/backend/src/modules/matching/matching.service.ts:88-90 | Takes an order off its own market's book only |
| MatchingServices.MatchingService.OnModuleInit | apps/backend/src/modules/matching/matching.service.ts:53-77 | The start-up loops build, for every market, exactly the rebuilt engine |
| OrdersServices.OrdersService.ResolveMarketReservePrice | apps/backend/src/modules/orders/orders.service.ts:142-151 | The price read off the aggregated view is the best opposing price, with the buffer on a buy |
| OrdersServices.OrdersService.CheckRequest | apps/backend/src/modules/orders/orders.service.ts:43-73 | A request is priced exactly if the market is active and quantity, tick or opposing side, and notional satisfy it, and at its limit, 1.10 times the best ask or the best bid |
| OrdersServices.OrdersService.PlaceOrder | apps/backend/src/modules/orders/orders.service.ts:81-112 | Creates and locks in one transaction, or leaves the tables as they were |
| OrdersServices.OrdersService.CreateOrder | apps/backend/src/modules/orders/orders.service.ts:42-115 | Whatever else is under way, is the step place followed by the step submit, and keeps the invariant of every interleaving |
| OrdersServices.OrdersService.CancelOrder | apps/backend/src/modules/orders/orders.service.ts:153-175 | Whatever else is under way, the cancelled order included, is the step cancel, and keeps that invariant |
| WalletsServices.WalletsService.CreateDeposit | apps/backend/src/modules/wallets/wallets.service.ts:39-45 | Records a pending deposit of a positive amount, as the step does |
| WalletsServices.WalletsService.ConfirmDeposit | apps/backend/src/modules/wallets/wallets.service.ts:53-74 | Commits the step confirm or rolls back |
| WalletsServices.WalletsService.CreateWithdrawal | apps/backend/src/modules/wallets/wallets.service.ts:91-143 | Commits the step withdraw or rolls back; short funds are a bad request |
| WalletsServices.AdminService.CreateBalanceAdjustment | apps/backend/src/modules/admin/admin.service.ts:135-179 | Commits the step adjust in the direction of the sign or rolls back |
| MarketMakers.RoundsToTick | apps/backend/src/modules/market-maker/market-maker.service.ts:197-199 | Rounding gives aligned prices, not above or not below, within one tick |
| MarketMakers.LadderBracketsReference | apps/backend/src/modules/market-maker/market-maker.service.ts:148-156 | For every positive reference and tick, every bid is aligned and below the reference, every ask aligned and above it |
| MarketMakers.LadderSurvivesRounding | apps/backend/src/modules/market-maker/market-maker.service.ts:148-156 | Bids stay below and asks above the reference when the product, the quotient by the tick and the product with the tick are each rounded with a relative error of at most one in 10^5 |
| MarketMakers.ApartNeverStops | apps/backend/src/modules/matching/engine/matching-engine.ts:57-64 | A user whose live orders stand on both sides of one price is never stopped for self-trade |
| MarketMakers.RunNeverStops | apps/backend/src/modules/market-maker/market-maker.service.ts:139-156 | That stays so over every run, however others trade in between, while the user places only on the right sides |
| MarketMakers.CancelOwnClears | apps/backend/src/modules/market-maker/market-maker.service.ts:174-180 | Cancelling own orders leaves none live in the market |
| MarketMakers.RefreshNeverStopsItself | apps/backend/src/modules/market-maker/market-maker.service.ts:139-156 | Whatever others have under way, no submission of a refresh is stopped for self-trade, and its live quotes bracket the reference |
| Quotes.TickIsUnique | apps/backend/src/modules/market-maker/market-maker.service.ts:197-199 | The tick at or below a price, and the one at or above it, are determined |
| Quotes.RefreshPutsUpTheLadder | apps/backend/src/modules/market-maker/market-maker.service.ts:139-180 | A refresh cancels the own open orders of the market and nothing else, then places for each offset one bid at the tick at or below the reference less the offset and one ask at the tick at or above the reference plus it; each becomes a row with these terms exactly if it is accepted, and where all are, the new rows are the ladder |
| MarketMakers.MarketMakerService.CancelOwnOpenOrders | apps/backend/src/modules/market-maker/market-maker.service.ts:174-180 | The loop cancels exactly the bot's open orders of the market, newest first |
| MarketMakers.MarketMakerService.RefreshMarket | apps/backend/src/modules/market-maker/market-maker.service.ts:139-156 | Cancelling and quoting in the source's order refine the refresh the theorem is about |
| DecimalRules.PlacesProduct | packages/validation/src/decimal-rules.ts:34-37 | The decimal places of a product add up |
| DecimalRules.ExactIsUnrounded | packages/validation/src/decimal-rules.ts:3-5 | A value of at most 18 places below 10^18 needs at most 50 digits and is stored in NUMERIC(36,18) as it is |
| Exactness.IsMultipleOfIff | packages/validation/src/decimal-rules.ts:27-32 | The check accepts exactly the whole multiples of a positive step |
| Exactness.SeededMarketsQualify | apps/backend/prisma/seed.ts:25-66 | The three seeded markets leave room for every product within 18 places |
| Exactness.MatchOnGrid | apps/backend/src/modules/matching/engine/matching-engine.ts:66-82 | Matching whole steps against whole steps trades and leaves whole steps |
| Exactness.SettleFillExact | apps/backend/src/modules/matching/matching.service.ts:159-178 | Every amount a settled fill writes has at most 18 places |
| Reconciliation.NoUserOwnsMore | documentation/ledger-design.md:12-12 | No user has more of an asset, available or locked, than was issued to all users together |
| ExactRuns.EveryRunIsExact | apps/backend/prisma/schema.prisma:206-211 | Over every run on suitable markets every order stays on the grid, every amount in a balance, hold, entry, order, trade, deposit or withdrawal is exact, and what fits 18 integer digits is stored unrounded |
| ExactRuns.EveryRunFits | apps/backend/prisma/schema.prisma:206-211 | While less than 10^18 of an asset is issued to the users, every user balance and active hold in it is stored unrounded |

## Left out

- Resting orders as shared objects: the source mutates `maker.remaining` through a reference that the level and the loop share; here an order is a value and `ReduceBest` replaces it in its level.
- Concurrency inside one transaction: a transaction and an engine call are each atomic, so isolation levels, lost updates of the read-then-write rows and commit failures are not modelled. Transactions and engine calls of different requests interleave freely in `Interleaving.dfy`; the theorems about agreement, restarts and solvency over runs take matching and settling as one step.
- Restarting while a submission is under way: the run theorems allow it and stay safe, but book and rows are then compared no further, since a waiting limit order comes back unmatched and a waiting market order stays open; whether it crosses the book is covered by `EveryRunUncrossedIff`.
- The market row read when an order is created is kept until it is submitted, as in the source; symbols are not case-folded.
- Asset tables: enabled flags, unknown assets and unknown users are not modelled, so those rejections do not occur.
- MarketMakers.RoundsToTick: divides exactly, where the source divides by the tick in 50 digits; `LadderSurvivesRounding` is the part that does not depend on it.
- MarketMakers.LadderBracketsReference: as `RoundsToTick`; that a rounded quote is still tick-aligned rests on the tick times a whole number fitting 50 digits.
- MarketMakers.MarketMakerService.RefreshMarket: the reference price and quantity are inputs and the tick is positive; the feed, the fallback to the last trade, the timer and the seeding of the bot's balances are outside.
- ExactRuns.EveryRunIsExact: takes deposits, withdrawals, grants and adjustments of at most 18 places and fees of at most 6 as its inputs, which the request types do not enforce.
- Two-factor codes, audit records, descriptions, references and timestamps other than creation order.
- The status timeline of a withdrawal after it is debited, and listing and pagination.
- `computeFee`, which nothing in the trading core calls, and the unused P2P_ESCROW and FEE codes.
- Accounts, users, authentication, market data, the WebSocket gateway, the peer-to-peer marketplace and the frontend.
