# VelocityBook, modelled and proved in Dafny

VelocityBook is a trading system: an in-memory price-time limit order book with
LIMIT, MARKET, ICEBERG and FILL_OR_KILL orders, a registry of stop and trailing stop
orders, a matching engine over both, a cluster of engine workers behind a router, a
backend that keeps accounts and a double-entry journal, and a binary order codec.
This project models that logic and proves its properties, for all inputs, runs and
interleavings.

The engine is specified on values: each side of a book is one flat queue, best price
first, in order of arrival within a price, and a greedy consumer sweeps it
(`Queues`, `Matching`). The properties of sweeps, books, pending stops and whole
engine runs are proved about that specification (`SweepTheorems`, `BookTheorems`,
`Triggers`, `Engine`, `EngineTheorems`). What a reader of its output can rely on is
stated apart from its functions: the numbers and parties of trades
(`TradeTheorems`), what icebergs show (`IcebergTheorems`), and which stops fire and
what they fill (`StopTheorems`); `LastTick` compares the one tick of a submission
with ticking every fill. The objects that the engine updates in place (`OrderBooks`,
`TriggerRegistries`, `MatchingEngines`: spliced arrays of price levels with cached
totals and an id index, pending lists and marks) are classes whose methods are
proved to compute exactly that specification; `Levels` and `BookObjects` hold the
link.

Two accounting models stand beside the matcher. `StressTest` and `StressRun` follow
the stress test's bots: each loop iteration is one atomic step, and the four checked
invariants hold after every interleaving. `Backend`, `BackendServices` and
`BackendRuns` follow the backend's transactions; there the engine's trades are
settled one by one in any order. `CancelRoutes` lets other transactions commit
between the statements of a cancel. `BotTheorems`, `TransactionTheorems` and
`JournalTheorems` say which orders and transactions go through, what rows and
balances they leave, and how the journal balances by transaction id. `Amounts` holds
what both models say an order is worth.

`Sharding` and `Cluster` treat the workers as restrictions of one engine and the
router's request/reply protocol as a state machine over issue, delivery, loss,
reply, timeout and shutdown; `ReplyTheorems` says which event settles a request and
with what; `ClusterObjects` holds router and worker as objects that simulate it.
`Rounding` bounds the drift of eight-decimal amounts. `Codec` is the fixed-layout
order codec.

Amounts are exact reals, except where `Rounding` writes them (whole units of 1e-8)
and in `Codec` (64-bit patterns). Client order ids are unique, as the system's own
generated ids are.

Where the repository's documents and its code differ, the code is followed.
docs/TRADE_LIFECYCLE.md:111 says that settlement refunds the price improvement of a
BUY; SettlementService.ts:78-84 does not. `OrphanedExactly` states exactly when a
lock stays behind, and `OrphanExample` shows one. LedgerService.ts:8-10 says that
debits equal credits for every transaction id; a faucet deposit is a single CREDIT
(`BalancedExactly`). TriggerRegistry.ts:60 says that a tick follows each trade;
MatchingEngine.ts:82-87 ticks once per submission, at its last fill.

Results that needed a condition, each an if-and-only-if:

- an ICEBERG keeps the book uncrossed exactly when its price reaches no opposite
  order on entry (`IcebergUncrossedExactly`, `IcebergCrosses`);
- sharding is transparent for a cancel exactly when it does not reach a pending
  order across the shard boundary (`TransparentExactly`, `CrossSymbolCancel`);
- no backend lock is orphaned exactly when every BUY fill traded at its own limit
  (`OrphanedExactly`); which placements lead to such fills is read off the book
  before them (`ImprovementAhead`);
- a request keeps the backend's tables and books linked exactly when it neither
  places an order that the engine will not take nor cancels one with trades still
  to be settled (`TakeLinksExactly`, `RunLinkedExactly`, `WithdrawExactly`); those
  trades can then not be settled rightly any more (`WithdrawHarms`,
  `WithdrawExample`), while a refused placement is undone by cancelling it
  (`RefusedMended`);
- debits equal credits under a transaction id exactly when it is not that of a
  non-zero deposit (`BalancedExactly`);
- the statements of a cancel leave locks backed exactly when no trade of the order
  is settled, and it is not cancelled, between them (`CancelInStepsExactly`,
  `OvertakenExample`);
- ticking the last fill only, where every fill could tick, misses a pending stop
  or moves a mark differently exactly as `StopLossMissed`, `TrailingStopMissed`,
  `TrailingStopLeft` and `LastTickMarks` say, also in the direction of the sweep
  (`StopLossMissedExample`, `TrailingStopMissedExample`, `MarkMissedExample`);
- the rounding drift is bounded exactly for prices of at most eight decimals
  (`WholePriceExactly`, `SubUnitPrice`) and rows that have as much left as their
  orders (`HistoryExactly`, `UnevenFill`), which unfilled ones have exactly for
  quantities of at most eight decimals (`WholeQuantityExactly`);
- the codec gives an order back exactly when its texts fit their fields and end
  in no NUL (`RoundTripExactly`); the id of an iceberg slice does not fit
  (`SliceIdsAreCut`).

## Model

| member | source | states |
|---|---|---|
| Queues.InsertPlaces | packages/engine/src/OrderBook.ts:339-362 | an inserted order lands behind every order of an equal or better price and before every worse one; all others keep their places |
| Queues.RemoveUndoesInsert | packages/engine/src/OrderBook.ts:339-362 | removing a freshly inserted id gives back exactly the old queue |
| Matching.SliceShrinks | packages/engine/src/OrderBook.ts:295-321 | a replenished slice is a proper resting order at the same price, holds together with its hidden rest exactly the old hidden quantity, and needs exactly one slice fewer |
| Matching.StepProgress | packages/engine/src/OrderBook.ts:267-325 | over real quantities every fill either finishes the taker or uses up one unit of the sum over resting orders of 1 + ceil(hidden/display); this is why a sweep ends |
| SweepTheorems.StepKeeps | packages/engine/src/OrderBook.ts:267-325 | one fill keeps the queue sorted with distinct ids; only a freshly stamped slice of the head can join it, and the head stays only when the taker is done |
| SweepTheorems.RunKeeps | packages/engine/src/OrderBook.ts:217-254 | a whole sweep ends where its guard says, adds no price and no id but fresh slices, and only extends the trade list, the counter moving with it |
| SweepTheorems.FillClosedForm | packages/engine/src/OrderBook.ts:217-254 | a sweep fills exactly min(what is wanted, visible plus hidden liquidity at acceptable prices), and exactly that leaves the opposite queue |
| SweepTheorems.TradeCountBound | packages/engine/src/OrderBook.ts:261-331 | the number of fills is at most the sum of 1 + ceil(hidden/display) over the orders at crossed prices |
| SweepTheorems.PriorityRespected | packages/engine/src/OrderBook.ts:217-331 | once an order has been traded with, no order that was in front of it (better price, or same price and earlier) is traded with at that fill or later: each of those has left the queue completely filled |
| SweepTheorems.SliceGoesBehind | packages/engine/src/OrderBook.ts:292-321 | the next slice of an exhausted iceberg has every order of its price in front of it |
| SweepTheorems.TradesComeFromQueue | packages/engine/src/OrderBook.ts:261-331 | every maker was in the queue or is a slice stamped during the sweep |
| SweepTheorems.FillPricesInOrder | packages/engine/src/OrderBook.ts:217-254 | prices of one taker's fills never get better from one fill to the next |
| SweepTheorems.FillPricesFromQueue | packages/engine/src/OrderBook.ts:275-277 | every fill is at a price of the queue within the taker's limit, and for a positive quantity |
| TradeTheorems.RunNumbers | packages/engine/src/OrderBook.ts:429-449 | the fills of a sweep carry the next numbers of the book, one after the other, and its symbol |
| TradeTheorems.TradeParties | packages/engine/src/OrderBook.ts:429-449 | every fill names the taker and its user on the taker's side, and on the other side an order of the queue, or a slice of it, with its user and at its price |
| IcebergTheorems.SliceFollows | packages/engine/src/OrderBook.ts:292-321 | the fill that takes the last of a visible slice brings the next: same user, side, price and display quantity, unfilled, showing min(displayQty, hidden) and hiding the rest |
| BookTheorems.SweepKeeps | packages/engine/src/OrderBook.ts:217-254 | a sweep keeps the whole book well formed, leaves the taker's own side alone, and changes only fill and status of the taker |
| BookTheorems.AddKeepsGood | packages/engine/src/OrderBook.ts:61-122 | all order types keep every reachable book well formed: sides sorted, ids distinct across sides, 0 <= filled < quantity with the matching status for every resting order |
| BookTheorems.CancelKeepsGood | packages/engine/src/OrderBook.ts:129-154 | cancelling keeps the book well formed |
| BookTheorems.LimitClosedForm | packages/engine/src/OrderBook.ts:102-122 | a LIMIT order fills exactly min(quantity, liquidity at acceptable prices); it is FILLED exactly when that is its quantity and otherwise rests |
| BookTheorems.MarketClosedForm | packages/engine/src/OrderBook.ts:116-119 | a MARKET order fills the same minimum over the whole opposite side; FILLED or CANCELLED by that, never resting |
| BookTheorems.FillOrKillAtomic | packages/engine/src/OrderBook.ts:66-77 | either visible opposite depth is short and book, index and counter are untouched, or the order fills completely: it is never cancelled after a sweep |
| TradeTheorems.AddNumbers | packages/engine/src/OrderBook.ts:435-439 | whatever its type, an order's trades are numbered on from the last trade of the book, and the book goes on from there |
| IcebergTheorems.IcebergEnters | packages/engine/src/OrderBook.ts:79-89 | an ICEBERG rests without trading and shows min(size, quantity), its size being displayQty or else a tenth of the order and at least 1; the rest is hidden and the visible depth grows by just that |
| BookTheorems.AddKeepsUncrossed | packages/engine/src/OrderBook.ts:91-122 | best bid below best ask is kept by LIMIT, MARKET and FILL_OR_KILL, also through replenished icebergs |
| BookTheorems.IcebergUncrossedExactly | packages/engine/src/OrderBook.ts:79-89 | an ICEBERG, which rests without matching, keeps the book uncrossed if and only if its price reaches no opposite order on entry |
| BookTheorems.IcebergCrosses | packages/engine/src/OrderBook.ts:79-89 | a concrete ask and ICEBERG bid that leave the book crossed |
| BookTheorems.CancelKeepsUncrossed | packages/engine/src/OrderBook.ts:129-154 | cancelling keeps the book uncrossed |
| BookTheorems.CancelExact | packages/engine/src/OrderBook.ts:129-154 | cancelling succeeds exactly for resting ids, removes only that order and keeps every other queue position |
| BookTheorems.CancelUndoesRestingAdd | packages/engine/src/OrderBook.ts:129-154 | cancelling a LIMIT order that crossed nothing right after adding it restores the book exactly |
| BookTheorems.AddConserves | packages/engine/src/OrderBook.ts:61-122 | per side: volume before plus the order's quantity is volume after plus traded plus dropped; the opposite side loses what is traded |
| BookTheorems.CancelConserves | packages/engine/src/OrderBook.ts:129-154 | a cancel takes visible and hidden quantity of its order off its side and nothing else |
| Levels.InsertAgrees | packages/engine/src/OrderBook.ts:339-362 | inserting into price levels reads, level by level, as inserting into the flat queue |
| Levels.InsertWellFormed | packages/engine/src/OrderBook.ts:339-362 | insertion keeps levels strictly sorted with exact cached totals |
| Levels.RemoveAgrees | packages/engine/src/OrderBook.ts:143-149 | taking an order out of its level reads as removal from the flat queue, with the emptied level left in or taken out, and keeps the side well formed |
| Levels.FillAgrees | packages/engine/src/OrderBook.ts:280-325 | what a fill does to the best level and its replenishment reads as one step of the flat sweep |
| Levels.TotalsAreDepth | packages/engine/src/OrderBook.ts:388-398 | the sum of cached level totals is the visible depth of the side |
| Levels.LevelsUnique | packages/engine/src/OrderBook.ts:339-362 | the flat queue determines the levels: no other well-formed side without empty levels reads off the same |
| OrderBooks.SameStateSameLevels | packages/engine/src/OrderBook.ts:30-42 | two valid books in the same flat state agree in levels, cached totals, queue lengths and indexed ids |
| OrderBooks.OrderBook.FindLevelIndex | packages/engine/src/OrderBook.ts:405-412 | the level of a price, or -1 exactly when no level has it, although the scan gives up at the first worse price |
| OrderBooks.OrderBook.FindInsertIndex | packages/engine/src/OrderBook.ts:418-424 | the place before the first worse price |
| OrderBooks.OrderBook.InsertOrder | packages/engine/src/OrderBook.ts:339-362 | the levels become those with the order appended to its price, found or new, and the index gains exactly its id |
| OrderBooks.OrderBook.Replenish | packages/engine/src/OrderBook.ts:292-321 | a new slice of the exhausted iceberg joins the tail of its price |
| OrderBooks.OrderBook.FillHead | packages/engine/src/OrderBook.ts:271-325 | one fill at the maker's price updates taker, maker, level total, queue, index and replenishment together |
| OrderBooks.OrderBook.MatchHead | packages/engine/src/OrderBook.ts:267-325 | one pass of the inner loop is one step of the flat sweep |
| OrderBooks.OrderBook.MatchAtLevel | packages/engine/src/OrderBook.ts:261-331 | walking one level runs the flat sweep until the taker is filled or the level, replenished slices included, is used up and gone |
| OrderBooks.OrderBook.MatchLimitOrder | packages/engine/src/OrderBook.ts:217-235 | the nested loops over spliced arrays compute exactly the flat greedy sweep with the order's limit, with all four structures in agreement |
| OrderBooks.OrderBook.MatchMarketOrder | packages/engine/src/OrderBook.ts:240-254 | the same without a limit |
| OrderBooks.OrderBook.CanFillEntirely | packages/engine/src/OrderBook.ts:388-398 | true exactly when visible opposite depth covers the quantity |
| OrderBooks.OrderBook.InitIcebergDefaults | packages/engine/src/OrderBook.ts:371-379 | slice size and hidden quantity get their defaults |
| OrderBooks.OrderBook.AddOrder | packages/engine/src/OrderBook.ts:61-122 | book, order and trades are those of the specification for every order type |
| OrderBooks.OrderBook.CancelOrder | packages/engine/src/OrderBook.ts:129-154 | answers an order exactly for a resting id; neither inner search can fail for an indexed one |
| Triggers.TickKeeps | packages/engine/src/TriggerRegistry.ts:67-94 | a tick keeps every pending list sound, touches only its own symbol, and splits that list into fired and waiting orders |
| Triggers.NothingTriggeredAfterTick | packages/engine/src/TriggerRegistry.ts:77-93 | right after a tick no pending order of the symbol satisfies its trigger condition |
| Triggers.ActivatedOnce | packages/engine/src/TriggerRegistry.ts:29-94 | over any run of register, cancel and tick each order is activated at most once, and nothing is both pending and activated |
| Triggers.CancelPendingExact | packages/engine/src/TriggerRegistry.ts:44-55 | cancelling takes out exactly the pending order of that id, whatever symbol it has |
| Triggers.RatchetClosedForm | packages/engine/src/TriggerRegistry.ts:133-180 | over any run a pending SELL trailing stop that has seen a tick stands at max(initial stop, highest mark - delta), a BUY one dually at the min |
| EngineTheorems.ActivatedInRegistrationOrder | packages/engine/src/TriggerRegistry.ts:81-93 | over any run of registrations, cancellations and ticks, whatever one tick activates it activates in the order of registration |
| EngineTheorems.ListedInOrder | packages/engine/src/TriggerRegistry.ts:29-55 | over any such run the pending list of a symbol stays in the order of registration |
| TriggerRegistries.TriggerRegistry.Register | packages/engine/src/TriggerRegistry.ts:29-38 | accepts exactly conditional orders and appends them pending |
| TriggerRegistries.TriggerRegistry.Cancel | packages/engine/src/TriggerRegistry.ts:44-55 | the registry without the order, or unchanged with null when it is not pending |
| TriggerRegistries.TriggerRegistry.UpdateHighWaterMarks | packages/engine/src/TriggerRegistry.ts:133-143 | both marks of the symbol become the extreme prices seen |
| TriggerRegistries.TriggerRegistry.UpdateTrailingStops | packages/engine/src/TriggerRegistry.ts:154-180 | every trailing stop of the symbol moves after its mark, in one direction only |
| TriggerRegistries.TriggerRegistry.OnTradeTick | packages/engine/src/TriggerRegistry.ts:67-94 | lists, marks, stops and the promoted orders are those of the tick specification; activated objects leave the registry |
| Engine.ExecuteKeeps | packages/engine/src/MatchingEngine.ts:59-148 | every submit and cancel keeps every book and pending list sound and touches no other symbol's book |
| Engine.AcceptedExactly | packages/engine/src/MatchingEngine.ts:205-251 | a submission is accepted if and only if its ids are not blank, its symbol is supported, its quantity is positive, and it has the positive price or stop price its type needs; a rejected one changes nothing |
| EngineTheorems.UniqueIdsAreAdmissible | packages/engine/src/MatchingEngine.ts:258-286 | unique client ids are all the engine needs: every command of such a run meets the specification's preconditions |
| EngineTheorems.VolumeConserved | packages/engine/src/MatchingEngine.ts:59-148 | over whole runs and per side: entered = filled + resting visible + hidden + pending + dropped (cancels, MARKET remainders, rejected FOKs, off-book stops); what buyers fill, what sellers fill and the total of all trades are the same |
| EngineTheorems.FilledIsTraded | packages/engine/src/MatchingEngine.ts:59-116 | for one command and on either side, what its orders fill as takers, as resting makers and as activated stops is the total quantity of its trades |
| EngineTheorems.CommandConserves | packages/engine/src/MatchingEngine.ts:87-106 | the same balance for one command, with its activated stops |
| EngineTheorems.RunKeepsUncrossed | packages/engine/src/MatchingEngine.ts:59-148 | no run without crossing icebergs ever crosses a book, stop activations and cancels included |
| EngineTheorems.StopsEndOffBook | packages/engine/src/MatchingEngine.ts:87-106 | an activated stop ends off the book: FILLED, PARTIALLY_FILLED or CANCELLED exactly by what it filled |
| TradeTheorems.SubmitNumbers | packages/engine/src/MatchingEngine.ts:72-115 | all trades of a submission, its own and then those of the stops it activates, are numbered in a row from the book's counter |
| TradeTheorems.RunIsNumbered | packages/engine/src/OrderBook.ts:435-439 | over any run the trades of a symbol are numbered 1, 2, 3, ... without gap or repetition, in the order in which they happen |
| IcebergTheorems.IcebergsShowSlices | packages/engine/src/OrderBook.ts:292-321 | after any run of an engine every resting iceberg shows at most its displayQty, and exactly that while anything of it is hidden |
| StopTheorems.FiresExactly | packages/engine/src/TriggerRegistry.ts:77-94 | a pending order fires if and only if the tick is at or below (SELL), at or above (BUY) its stop as trailed by this tick; it is then a MARKET order otherwise as registered, and waits at that stop if not |
| StopTheorems.TickMarks | packages/engine/src/TriggerRegistry.ts:133-143 | a tick leaves the extreme prices so far as the marks of its symbol and those of others as they were |
| StopTheorems.StopFillsAtItsTurn | packages/engine/src/MatchingEngine.ts:87-103 | each activated stop finds the book as those before it left it and fills the smaller of its quantity and all that the opposite side then holds |
| StopTheorems.UnfilledStopsLeaveNothing | packages/engine/src/MatchingEngine.ts:87-103 | a stop that a submission leaves unfilled has left its opposite side empty |
| StopTheorems.RejectedByFirstCheck | packages/engine/src/MatchingEngine.ts:205-251 | a rejection names the first check that fails, in the engine's order |
| StopTheorems.CancelsExactly | packages/engine/src/MatchingEngine.ts:126-149 | a cancel finds an order if and only if its id rests in the named book or waits in any pending list; it takes out that one, and one that finds none changes nothing |
| StopTheorems.ConditionalWaits | packages/engine/src/MatchingEngine.ts:66-70 | a valid conditional order is accepted without a trade and waits, as submitted, behind those of its symbol; nothing else changes |
| LastTick.Fate | packages/engine/src/TriggerRegistry.ts:67-94 | if every fill ticked: a pending order has fired exactly when the last price (on the taker's side) or the first (on the other) triggers its trailed stop, and otherwise waits with its stop trailed to the first and last price |
| LastTick.StopLossMissed | packages/engine/src/MatchingEngine.ts:82-87 | a STOP_LOSS on the taker's side is never missed by ticking the last fill alone; one on the other side is missed if and only if its stop lies between the first and the last fill |
| LastTick.TrailingStopMissed | packages/engine/src/MatchingEngine.ts:82-87 | a TRAILING_STOP is missed by ticking the last fill alone if and only if its stop, distance and marks stand to the first and the last fill as listed, on either side |
| LastTick.TrailingStopLeft | packages/engine/src/TriggerRegistry.ts:154-180 | a trailing stop that no fill fires is left at another stop by the last tick alone if and only if it is on the taker's side and the first fill is a new mark that trails it |
| LastTick.LastTickMarks | packages/engine/src/TriggerRegistry.ts:67-69 | the mark ahead of the sweep is the one from ticking every fill if and only if it was there already or some order outlasts the fills before the last price; the mark behind it, if and only if the first fill does not move it further than the last |
| LastTick.SweepPrices | packages/engine/src/OrderBook.ts:217-254 | the fills of a sweep are at just the prices that the book before it has within reach, from the first to the last of them and never better from one to the next |
| LastTick.SweepMissesStopLoss | packages/engine/src/MatchingEngine.ts:82-87 | the STOP_LOSS condition read off book and registry before the call |
| LastTick.SweepMissesTrailingStop | packages/engine/src/MatchingEngine.ts:82-87 | the TRAILING_STOP condition read off book and registry before the call |
| LastTick.SweepMarks | packages/engine/src/MatchingEngine.ts:82-87 | the conditions on the marks read off book and registry before the call |
| LastTick.SubmitTicksOnce | packages/engine/src/MatchingEngine.ts:82-108 | however many stops a submission activates and wherever they trade, the marks move by one price, which the book before it gives, and exactly the stops which that price triggers are activated |
| LastTick.StopLossMissedExample | packages/engine/src/MatchingEngine.ts:82-87 | a SELL stop at 105 that a BUY over asks at 100 and 110 fires at its first fill and not at its last |
| LastTick.TrailingStopMissedExample | packages/engine/src/MatchingEngine.ts:82-87 | over the same asks a BUY trailing stop that both fills fire and the last alone does not |
| LastTick.MarkMissedExample | packages/engine/src/TriggerRegistry.ts:67-69 | over the same asks a registry that runs empty at 100 and never marks 110 |
| MatchingEngines.MatchingEngine.constructor | packages/engine/src/MatchingEngine.ts:35-43 | one empty book per symbol and an empty registry |
| MatchingEngines.MatchingEngine.SubmitOrder | packages/engine/src/MatchingEngine.ts:59-116 | books, registry, trades and reply are those of the specification; the order is as matched unless a stop traded with it |
| MatchingEngines.MatchingEngine.ActivateStops | packages/engine/src/MatchingEngine.ts:82-108 | one tick and the sweeps of the activated objects, each ending with the status its fills give |
| MatchingEngines.MatchingEngine.CancelOrder | packages/engine/src/MatchingEngine.ts:126-149 | the order of the book or else of any pending list, unsupported symbols apart |
| StressTheorems.SettleInStep | scripts/stress-test.ts:146-206 | settling one fill keeps commitments and locked balances in step with matching it: the maker pays its own locked price, the taker gets the improvement back |
| StressTheorems.SettleConserves | scripts/stress-test.ts:146-206 | one fill moves USD one way and BTC the other; its four entries cancel out and account for what each bot gains or gives |
| StressTheorems.FillsNameBots | scripts/stress-test.ts:152-153 | every fill is between two bots that have accounts |
| StressTheorems.TradeKeeps | scripts/stress-test.ts:104-225 | lock, submit, settle and remainder keep commitments equal to resting orders, locks backed, balances non-negative and totals unchanged |
| StressTheorems.ChurnKeeps | scripts/stress-test.ts:227-249 | the cancel of a bot's own active order never misses and releases exactly what it held |
| StressTheorems.IterateKeeps | scripts/stress-test.ts:85-257 | one loop iteration keeps every invariant, under any random choices |
| StressTheorems.EveryInterleaving | scripts/stress-test.ts:82-268 | after every interleaving: no negative balance, credits equal debits, total USD and BTC unchanged, every bot's balance is its initial one plus its credits less its debits, and each bot's locked balances equal its own commitments, which are exactly the resting orders with their remaining quantities |
| StressTheorems.LockedIsCommitted | scripts/stress-test.ts:363-391 | a bot's locked balance is the sum of its own commitments in any order of summation, and not negative |
| BotTheorems.IteratesExactly | scripts/stress-test.ts:89-141 | an iteration submits exactly the drawn order if the bot has its price times quantity (55000 a coin for a MARKET BUY), or its quantity for a SELL, available, and otherwise changes nothing |
| BotTheorems.ChurnsExactly | scripts/stress-test.ts:227-249 | the cancel of an own active order releases exactly what it has left; any other target changes nothing |
| BotTheorems.EveryTradeIsPaid | scripts/stress-test.ts:146-206 | after every interleaving each bot holds 1000000 USD and 100 BTC, less what it paid and sold, plus what it earned and bought in the trades that the engine made |
| BotTheorems.JournalByTrade | scripts/stress-test.ts:198-205 | the n-th trade of a run is the n-th group of four rows, alone under its transaction id, debits equal to credits in it |
| StressRuns.StressRun.Settle | scripts/stress-test.ts:146-206 | accounts, commitments, journal and the incoming commitment updated in place as one fill demands |
| StressRuns.StressRun.HandleRemainder | scripts/stress-test.ts:208-225 | a resting remainder becomes a commitment, any other is released |
| StressRuns.StressRun.Iterate | scripts/stress-test.ts:85-257 | one iteration over the engine object is one iteration of the specification |
| StressRuns.StressRun.RunSchedule | scripts/stress-test.ts:82-268 | any schedule run on the objects ends with all four invariants |
| Sharding.SubmitReadsOwnShelf | packages/engine/src/MatchingEngine.ts:59-116 | a submission's answer and effect depend only on book, pending list and marks of its own symbol |
| Sharding.TransparentExactly | packages/backend/src/workers/EngineWorker.ts:106-154 | a worker with a subset of the symbols answers as one engine would and stays its restriction, if and only if a cancel does not reach a pending order across the shard boundary |
| ClusterTheorems.CrossSymbolCancel | packages/engine/src/TriggerRegistry.ts:44-55 | a concrete cancel under the wrong symbol that one engine finds and the worker does not |
| ClusterTheorems.OneEngine | packages/backend/src/workers/EngineWorker.ts:67-76 | from any state that the protocol keeps, when cancels name the order's own symbol, every interleaving of the cluster answers and ends exactly as one engine fed the executed commands in order |
| ClusterTheorems.EveryRun | packages/backend/src/services/EngineClusterRouter.ts:166-298 | over every run from the start, with workers that share no symbol: a request is pending exactly while issued and not settled, no command is executed twice and each by its owner, a settlement stays as it is, and, when cancels name the order's own symbol, answers and workers are those of one engine |
| Cluster.DeliveredIsAdmissible | packages/backend/src/workers/EngineWorker.ts:92-187 | a delivered command is new to the worker of its symbol |
| Cluster.NextKeeps | packages/backend/src/services/EngineClusterRouter.ts:166-205 | every issue, delivery, loss, reply, timeout and shutdown keeps: pending = issued minus settled, each command executed at most once and by its owner, each reply that of its own command |
| ClusterTheorems.SettledOnce | packages/backend/src/services/EngineClusterRouter.ts:280-298 | a settlement is never changed or taken back in any later run |
| ClusterTheorems.LateReplyChangesNothing | packages/backend/src/services/EngineClusterRouter.ts:280-298 | a reply settles its request if that is pending; otherwise it changes nothing |
| ClusterTheorems.ResolvedExecutedOnce | packages/backend/src/services/EngineClusterRouter.ts:193-204 | a resolved request carries the result of its own command, executed exactly once by the worker that owns its symbol |
| ReplyTheorems.ResolvedSays | packages/backend/src/workers/EngineWorker.ts:130-163 | a resolved submission carries exactly the trades the engine made for it and succeeds if and only if the engine accepted it; a resolved cancel carries none and succeeds if and only if the engine found the order |
| ReplyTheorems.FirstAnswerCounts | packages/backend/src/services/EngineClusterRouter.ts:174-205 | a pending request is settled by the first of its reply, its timeout and a shutdown, with what that brings, and stays pending until one of them comes |
| ReplyTheorems.IssuedThenAnswered | packages/backend/src/services/EngineClusterRouter.ts:166-205 | a new request can be delivered to the worker of its symbol and its reply then handled; either can be lost, and it can time out at any moment |
| ReplyTheorems.StillOnItsWay | packages/backend/src/workers/EngineWorker.ts:79-81 | a request that can be delivered still can after any events but its delivery and its loss |
| ReplyTheorems.ReplyStays | packages/backend/src/services/EngineClusterRouter.ts:280-298 | a reply stays as it is until it is handled or lost |
| ClusterObjects.EngineWorker.HandleCommand | packages/backend/src/workers/EngineWorker.ts:92-187 | one delivered command is one engine step; the answer carries the trades of an accepted submission and no others, and succeeds if and only if the submission was accepted or the cancel found an order |
| ClusterObjects.EngineWorker.Deliver | packages/backend/src/workers/EngineWorker.ts:79-81 | a delivery is a step of the cluster |
| ClusterObjects.EngineClusterRouter.Issue | packages/backend/src/services/EngineClusterRouter.ts:166-191 | a new pending request under a fresh correlation id |
| ClusterObjects.EngineClusterRouter.HandleReply | packages/backend/src/services/EngineClusterRouter.ts:280-298 | the reply step on the pending map and its promises |
| ClusterObjects.EngineClusterRouter.OnTimeout | packages/backend/src/services/EngineClusterRouter.ts:177-183 | the timeout step |
| ClusterObjects.EngineClusterRouter.Shutdown | packages/backend/src/services/EngineClusterRouter.ts:368-373 | every pending request is rejected and the map cleared |
| BackendTheorems.CommitKeepsBalanced | packages/backend/src/services/SettlementService.ts:35-166 | every transaction, committed or rolled back, keeps each account at opening balance plus credits minus debits, and credits minus debits per currency at the faucet deposits |
| BackendTheorems.RunKeepsBalanced | packages/backend/src/services/LedgerService.ts:24-101 | the same over every run |
| JournalTheorems.CommitNets | packages/backend/src/services/LedgerService.ts:24-101 | no transaction changes debits against credits of any transaction id in any currency, except a deposit its own by its amount |
| JournalTheorems.SameTransactionExactly | packages/backend/src/services/LedgerService.ts:37-75 | over a run two journal rows share a transaction id if and only if the same transaction wrote them |
| JournalTheorems.BalancedExactly | packages/backend/src/services/LedgerService.ts:6-11 | over every run from an empty journal the debits of a transaction id equal its credits, in every currency, if and only if it is not that of a non-zero deposit |
| TransactionTheorems.PlacedExactly | packages/backend/src/services/RiskService.ts:37-104 | an order is placed if and only if id, price and quantity are good and price times quantity (BUY) or the quantity (SELL) is available; exactly that is then locked and its row is open and unfilled |
| TransactionTheorems.CancelledExactly | packages/backend/src/services/RiskService.ts:110-142 | a cancel succeeds if and only if the order is the user's own and not closed; exactly what is left of it is then unlocked and its row closed |
| TransactionTheorems.DepositedExactly | packages/backend/src/services/RiskService.ts:148-179 | a deposit succeeds if and only if the account exists and does not go below zero; it becomes available and leaves one row |
| TransactionTheorems.SettledExactly | packages/backend/src/services/SettlementService.ts:78-152 | a settlement moves price times quantity from the buyer's lock to the seller and the quantity from the seller's lock to the buyer, records the trade and fills both rows |
| BackendTheorems.CommitKeepsSurplus | packages/backend/src/services/SettlementService.ts:35-166 | no admitted transaction changes what an account has locked beyond open commitments and price improvements, whatever that is |
| BackendTheorems.CommitKeepsBacked | packages/backend/src/services/RiskService.ts:37-142 | locked balances stay open commitments plus (limit - trade price) x quantity over settled BUY fills |
| BackendTheorems.RunKeepsBacked | packages/backend/src/services/RiskService.ts:37-142 | over every run of executable trades, and so never fall below the commitments |
| BackendTheorems.OrphanedExactly | packages/backend/src/services/SettlementService.ts:78-84 | no lock is orphaned if and only if every BUY fill of the account traded at its own limit |
| BackendTheorems.OrphanExample | packages/backend/src/services/SettlementService.ts:78-84 | a concrete run in which 10 stay locked with no open order |
| BackendTheorems.SettlementSucceeds | packages/backend/src/services/SettlementService.ts:78-108 | the balance constraints never reject a trade within both limits and remaining quantities |
| BackendRuns.UnsettledIsExecutable | packages/backend/src/routes/orders.ts:146-149 | in the combined system every unsettled trade of the engine is, at whatever moment, within both rows' limits and remaining quantities |
| BackendRuns.SettlementNeverFails | packages/backend/src/services/SettlementService.ts:35-166 | so no settlement of a matched trade ever fails, in whatever order trades are settled |
| BackendRuns.AcceptKeeps | packages/backend/src/routes/orders.ts:80-138 | placing and matching an order of a pair the engine supports keeps order table, book and unsettled trades linked |
| BackendRuns.WithdrawExactly | packages/backend/src/routes/orders.ts:270-293 | a cancel keeps them linked if and only if none of the order's trades is still unsettled |
| BackendRuns.WithdrawHarms | packages/backend/src/routes/orders.ts:270-293 | otherwise each unsettled trade of the cancelled order either cannot be settled any more or its settlement takes from locks that back something else |
| BackendRuns.WithdrawExample | packages/backend/src/routes/orders.ts:270-293 | a concrete cancel between match and settlement: tables and books come apart, and the settlement, possible before, fails |
| BackendRuns.TakeKeeps | packages/backend/src/routes/orders.ts:80-293 | every request keeps the system consistent (linked, balances allowed and backed, accounts equal to the journal), unless it places an order without both accounts or of a pair that is unsupported or one currency twice, or cancels an order with unsettled trades |
| BackendRuns.TakeLinksExactly | packages/backend/src/routes/orders.ts:80-293 | these two are all: a request keeps tables and books linked if and only if it is neither |
| BackendRuns.RefusedMended | packages/backend/src/routes/orders.ts:80-138 | a placement that the engine refuses for its pair has already locked funds and written its row; cancelling it gives back the same accounts, books and trades, linked again |
| BackendRuns.ImprovementAhead | packages/backend/src/routes/orders.ts:82-138 | a placement's trades are all at their BUY orders' own limits, so that no lock is orphaned by settling them, if and only if it is not a BUY with a better price than its own within reach in the book before it |
| BackendRuns.OpeningConsistent | packages/backend/src/routes/orders.ts:80-293 | any opening balances without locks, with no orders and empty books, are such a state |
| BackendRuns.RunStaysConsistent | packages/backend/src/routes/orders.ts:80-293 | consistency over every run of allowed requests |
| BackendRuns.RunLinkedExactly | packages/backend/src/routes/orders.ts:80-293 | tables and books are linked throughout a run if and only if every request of it is allowed |
| BackendServices.LedgerService.RecordTradeSettlement | packages/backend/src/services/LedgerService.ts:24-75 | the loop appends the four rows of the trade under one id that no row had, and leaves debits and credits of every id balanced as they were |
| BackendServices.LedgerService.RecordFaucetDeposit | packages/backend/src/services/LedgerService.ts:80-101 | one CREDIT row and one deposit row |
| BackendServices.RiskService.LockFundsForOrder | packages/backend/src/services/RiskService.ts:37-104 | moves the order's worth to locked, or fails without effect on a missing account or too little balance |
| BackendServices.RiskService.UnlockFundsForCancel | packages/backend/src/services/RiskService.ts:110-142 | moves the remaining worth back, or fails on a constraint |
| BackendServices.RiskService.DepositFaucetFunds | packages/backend/src/services/RiskService.ts:148-179 | a deposit commits with its journal rows or not at all |
| BackendServices.SettlementService.SettleOneTrade | packages/backend/src/services/SettlementService.ts:35-166 | the statements of a settlement commit together, or everything is as before |
| BackendServices.OrderRoutes.UnlockRemaining | packages/backend/src/routes/orders.ts:273-284 | the remainder of the row as it was read is unlocked, or nothing changes on a constraint |
| BackendServices.OrderRoutes.CancelOpenOrder | packages/backend/src/routes/orders.ts:247-293 | read, unlocking and closing in a row are one transaction: an open order of the user is closed and its remainder unlocked |
| CancelRoutes.CancelInStepsExactly | packages/backend/src/routes/orders.ts:253-290 | with any transactions between reading the row and unlocking, and between unlocking and closing it: every lock is backed afterwards if and only if none of them settled a trade of the order or cancelled it too; the row is closed in any case |
| CancelRoutes.OvertakenExample | packages/backend/src/routes/orders.ts:253-290 | a settlement after the read: the cancel gives back 200 where 100 are left, and the lock of another open order is gone |
| Rounding.DriftBound | packages/backend/src/services/RiskService.ts:64-140 | for a BUY filled k times at its limit and cancelled, at a price of at most eight decimals and with as much left in its row as in the book: lock, settlements and unlock differ by at most (k+1)/2 units either way, however it is split and whatever decimals the other sides brought |
| Rounding.HistoryExactly | packages/backend/src/services/RiskService.ts:64-140 | an order and its fills stay within that bound at every price of at most eight decimals if and only if the row has as much left as the order; otherwise some such price drifts beyond any bound |
| Rounding.WholeHistory | packages/backend/src/services/SettlementService.ts:41-83 | with at most eight decimals throughout the row has as much left as the order, and the difference is between -floor((k+1)/2) and floor((k+2)/2 - (k+1)/10^8) units |
| Rounding.DriftAttained | packages/backend/src/services/SettlementService.ts:41-83 | both of these ends are attained for every k |
| Rounding.WholePriceExactly | packages/backend/src/routes/orders.ts:82-106 | the lock is taken at the price as given and released at the stored one: a price keeps every order and split whose row agrees with it within the bound if and only if it has at most eight decimals |
| Rounding.WholeQuantityExactly | packages/backend/src/routes/orders.ts:106-107 | an unfilled order stays within the bound at every such price if and only if its quantity has at most eight decimals |
| Rounding.SubUnitPrice | packages/backend/src/routes/orders.ts:82-106 | a concrete price of half a unit: 500 units locked, 1000 unlocked |
| Rounding.UnevenFill | packages/backend/src/services/SettlementService.ts:41-83 | a concrete BUY of 1 at 1000000 that a SELL of 0.000000014 hits before it is cancelled: 400000 units more are taken than were locked |
| Codec.FieldsFill | packages/engine/src/serialization/ProtocolSerializer.ts:466-516 | the fields follow each other at the source's offsets and fill exactly 156 bytes |
| Codec.DecodeLayout | packages/engine/src/serialization/ProtocolSerializer.ts:517-567 | decoding an encoded order gives every field back, texts cut to their field and without trailing NULs |
| Codec.HeaderBytes | packages/engine/src/serialization/ProtocolSerializer.ts:473-493 | byte by byte: the time stamp in two's complement, low byte first, and the code numbers of side, type and status |
| Codec.AmountBytes | packages/engine/src/serialization/ProtocolSerializer.ts:495-509 | byte by byte: one flag bit per optional field, and the amounts at their offsets, low byte first, an absent one as zero |
| Codec.TextBytes | packages/engine/src/serialization/ProtocolSerializer.ts:511-513 | byte by byte: each text from the start of its field as far as it goes, and zeroes behind it |
| Codec.UnknownCodes | packages/engine/src/serialization/ProtocolSerializer.ts:517-540 | a code that no side, type or status has decodes as SELL, LIMIT and OPEN |
| Codec.RoundTripExactly | packages/engine/src/serialization/ProtocolSerializer.ts:469-567 | decode(encode(o)) = o for all optional-field combinations if and only if symbol and ids fit their fields and end in no NUL |
| Codec.SliceIdsAreCut | packages/engine/src/OrderBook.ts:304-305 | an iceberg slice of an order with a 36-character id never comes back from the codec as it was |
| Codec.Encode | packages/engine/src/serialization/ProtocolSerializer.ts:469-515 | the writes at fixed offsets leave exactly that layout in the buffer |
| Codec.FlagsOf | packages/engine/src/serialization/ProtocolSerializer.ts:495-500 | each bit of the accumulated flags is set if and only if its optional field is present |

## Left out

- Timestamps, random id text, logging and event emission: ids of iceberg slices are made from the parent id and the trade counter, which is proved fresh; the transaction id of journal rows is the length of the journal before them, which is proved fresh.
- decimal.js significant-digit rounding and division rounding: amounts are exact reals outside `Rounding`.
- Invalid side and type values, which the enumerations cannot hold.
- OrderBooks.OrderBook.AddOrder: the status of a resting LIMIT order is written just before it enters its level instead of just after; nothing looks at it in between. The stored level index, which nothing reads, is written but not specified.
- MatchingEngines.MatchingEngine.SubmitOrder: when activated stops trade with what rests of the submitted order, its later fills are those of the book and not restated for the order object.
- Snapshots, best prices, spread, order counts and the other read-only queries: they would only add easy members.
- StressTest: the counters of fills, cancels and rejections and the latency figures; a random draw is any value within its range.
- Backend: an order symbol is a pair of currencies instead of a text that is split at a hyphen; MARKET, ICEBERG, FILL_OR_KILL and stop orders, whose locks follow other rules; row-level locks, as a transaction is one atomic step.
- BackendRuns: a placement and its submission to the engine are one step, and so are the engine's and the tables' side of a cancel; `CancelRoutes` takes the latter apart, without the engine.
- BackendServices.OrderRoutes.CancelOpenOrder: the call of the engine's cancel, and other transactions between the statements, for which see `CancelRoutes.CancelInStepsExactly`.
- Cluster: heartbeats, shard reassignment, snapshot caching and failed publishes; a channel delivers a message at most once and may lose it or deliver it late; a request after disconnection, which fails at once; the local mode, which is the engine itself.
- ClusterObjects.EngineWorker.HandleCommand: the order snapshot in a reply, which is taken when the reply is sent and may already show later fills; snapshot and statistics commands.
- Codec: characters outside ASCII, buffers of another length, amounts that no double represents, and time stamps beyond 2^53.
- The protobuf and JSON mappings, which are field by field over an unseen library.
- Frontend, HTTP and WebSocket plumbing, authentication, metrics, reports, candle queries, the market maker, replay and the seed, scale and benchmark scripts.
