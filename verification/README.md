# Inventory core: a Dafny model and its proofs

This project models the algorithmic core of an inventory system: costing, stock movements, concurrency
control, approvals, picking and putaway, forecasting statistics and rate limiting. Where the program changes
state, the model does too: layer objects are consumed in place, repositories, ledgers, maps and documents are
fields of classes, and loops are loops. Each such method is tied to a specification function, and the promises
of the system are lemmas about those functions, over all inputs, all runs or all interleavings. The modules
that end in Meaning, CostOrder and part of Slotting and LockingProgress state what the operations do on the
fields of their inputs, without the functions the operations are specified by.

| files | what they model |
|---|---|
| Options, Numbers, Sorting, MapSums, Statistics | absent values, minimum and maximum, stable sorting, sums over maps, means, variances and a one-sided tail bound |
| Slotting | the slotting heuristic against a quadratic scan |
| CostLayers, CostLayerStore, FifoQueue, CostComparison, BatchCosting, CostLayerService, CostQuotes, InventoryValue, CostOrder | cost layers as queues of unit costs, the four costing methods and the order each uses layers in, single and batch paths |
| KitCosting, KitValue, KitMeaning, Valuation, ValuationMeaning | cost spreading over kits and the valuation report |
| KitSales | kits, the ledger repository and kit sales |
| RateLimiter, TokenMap | the token bucket and the bounded map of buckets |
| InventoryItems, OptimisticLocking, LockingProgress | the inventory item, its repositories, versioned saves, the retry loop, who gives up and what updates add up to |
| PNCounter | the replicated counter and its message exchange |
| AnomalyDetection, AnomalyMeaning, DemandForecast, DemandMeaning | outlier reporting, daily sales and lead-time statistics |
| Approval, ApprovalRuns, ApprovalMeaning | multi-step approval, decisions, timeouts and the sweep |
| FefoPicking, FefoProperties, FefoMeaning, Putaway, PutawayProperties, PutawayMeaning | greedy picking and putaway |
| StockOrders, StockFlow, OpenDocuments, StockRuns, StockConservation, StockMeaning | transfers and purchase orders over shared items |
| Replenishment, ReplenishmentRuns, ReplenishmentMeaning | the rule evaluator over those documents |

Integers stand for cents and units, reals for distances, times in seconds, weights and volumes; all arithmetic
is exact. `Math.round` and `toFixed(5)` are written out with their rounding; `Math.sqrt` is a parameter known
only by what it means. A call that throws is a result (`None`, `false` or an error constructor) that leaves the
state as it was. Each use case over transfers and purchase orders is one atomic step.

## What does not hold as one might expect

- A purchase order with one SKU on two lines, placed where that SKU has no item yet, becomes ordered and can then
  never be received or cancelled: its item's version moves twice, so every save is refused
  (OpenDocuments.OpenOrderClosesIffDistinct, StockConservation.PlaceIff, StockConservation.RepeatedSkuNeverCloses;
  reached from an empty store in StockConservation.RepeatedSkuGetsStuck).
  A transfer with one SKU on two lines can never be dispatched (OpenDocuments.DispatchIff).
- A purchase order sent for approval is never placed afterwards (StockConservation.PendingApprovalIsFinal), and the
  replenishment evaluator does not see it: a rule that still asks for what it brings gets a second document
  (ReplenishmentRuns.AskedTwiceIsMade, SecondOrderWhilePending). At most one document of the evaluator is outstanding
  for each variant at each location throughout a run exactly when no evaluation meets such a rule
  (ReplenishmentRuns.OneOutstandingIff).
- The approval sweep loads pending and escalated requests, but escalating an escalated one throws; once such a
  request has passed its new deadline every later sweep stops there (ApprovalRuns.SweepsStayBlocked; a run that
  gets there is ApprovalRuns.UndecidedRequestBlocks).
- The bounded map of buckets outgrows its limit exactly when its oldest key is the empty string
  (TokenMap.BoundKeptIff), and from then on without end (TokenMap.EmptyIdOverfills).
- The rate bound holds in effective time, which counts a clock's steps back as standing still, whatever the clock
  does (RateLimiter.RateBound). That is wall-clock time exactly when the clock never steps back
  (RateLimiter.ElapsedIsWallTimeIff); when it may, wall-clock time gives no bound at all
  (RateLimiter.ClockMustNotStepBack).
- The version check loses updates when more than one mutator is applied between load and save
  (OptimisticLocking.TwoMutatorsLoseAnUpdate, SerialIffOneMutator).
- Retrying does not always succeed: with one mutator each that no item refuses, a client can run out of retries as
  soon as there are more other clients than it has retries, and never before (LockingProgress.GivesUpIffOutnumbered).
- The sales window starts at midnight and spans one calendar day more than it has days: sales on its first, full
  day count in the average but in no day (DemandForecast.DroppedOnFirstDayIff, FirstSaleIsDropped,
  SpreadOfDailySales); in general it is the sales outside the last `days` times 24 hours
  (DemandForecast.DroppedIff).
- Disassembling a kit whose components are all estimated at 0 loses the whole cost of the kit
  (KitValue.DisassemblyKeepsValue; such a kit is in KitValue.KitCostIsLost).
- A kit that costs nothing is assembled or taken apart, with layers and ledger stored, before the use case throws:
  a journal line refuses an amount of 0 (KitValue.EmptyKitStoredButRefused, FreeKitStoredButRefused). It happens
  exactly when the stock suffices and the costs quoted beforehand add up to 0 (KitValue.AssemblyCompletesIff,
  DisassemblyCompletesIff).
- The rounding guard of putaway counts a unit that does not fit from 200 kg per unit on
  (PutawayProperties.GramGuardIff).

## Model

| member | source | states |
|---|---|---|
| Slotting.FallbackLocalHeuristic | src/application/services/SlottingOptimizerService.ts:62-146 | the suffix-minimum array and the two binary searches recommend exactly what a quadratic scan of the velocity-sorted list recommends; every suggestion moves one inventory record's SKU from its own location to that of another record that is slower and nearer, the slowest such, and saves units times twice the difference of the distances; every record that has one gets a suggestion |
| Slotting.ScanMeaning | src/application/services/SlottingOptimizerService.ts:97-143 | an item gets a suggestion exactly for its last better item; nothing else is suggested |
| Slotting.NaiveTargetMeaning | src/application/services/SlottingOptimizerService.ts:112-130 | no target exactly when no item is both slower and nearer; otherwise the last such index |
| Slotting.BestSwap | src/application/services/SlottingOptimizerService.ts:98-127 | first search, suffix-minimum test and second search together find that target or report none |
| Slotting.FirstSlower | src/application/services/SlottingOptimizerService.ts:98-110 | the first search splits the list at the first strictly slower item |
| Slotting.LastNearer | src/application/services/SlottingOptimizerService.ts:115-127 | the second search finds the last strictly nearer item from there on |
| Slotting.SavingsPositive | src/application/services/SlottingOptimizerService.ts:131 | every recommended swap saves a positive distance |
| Slotting.SuggestionMeans | src/application/services/SlottingOptimizerService.ts:62-146 | on the inputs' own fields: SKU and current location come from one record, swap SKU and recommended location from another; the first has more dispatched units and lies farther, the second is the slowest such record; distance is |x| + |y| + 2|z| of the last coordinate, 99 when absent or 0, and units are the absolute quantities dispatched |
| Slotting.SlowerIsSuggested | src/application/services/SlottingOptimizerService.ts:97-143 | every record for which some other is slower and nearer gets a suggestion |
| CostLayers.DrawTakesPrefix | src/domain/strategies/FifoCostingStrategy.ts:32-58 | drawing q units from a list of layers takes the first q of its queue of unit costs and charges their sum; what is missing is what the queue lacks |
| CostLayers.DrawKeepsOrder | src/domain/strategies/FifoCostingStrategy.ts:40-49 | after any draw in order, exhausted layers come first, then at most one partly consumed layer, then untouched ones |
| CostLayerStore.ConsumeLayersEffect | src/domain/services/CostLayerService.ts:83-106 | a consumption succeeds iff the variant's line holds enough, moves that line and no other, and stores nothing when it fails |
| CostLayerStore.SavedTable | src/domain/services/CostLayerService.ts:101-103 | saving the drawn layers changes the consumed quantities of that line only |
| FifoQueue.StepRefines | src/domain/services/CostLayerService.ts:83-106 | one receipt or FIFO consumption on the stored layers is one step on a queue of individual unit costs |
| FifoQueue.RunRefinesQueue | src/domain/services/CostLayerService.ts:83-106 | over any run of receipts at non-decreasing times and FIFO consumptions, outcomes and stored layers are those of the queue, and at most one layer is partly consumed |
| CostLayerService.DrawInPlace | src/domain/strategies/FifoCostingStrategy.ts:40-57 | the mutating loop leaves the layer objects as the specification's draw and charges its cost |
| CostLayerService.ConsumeInPlace | src/domain/strategies/LifoCostingStrategy.ts:32-58 | the strategy's sort and loop together, on any list of layer objects: it draws from them in the method's order |
| CostOrder.FifoOrder | src/domain/strategies/FifoCostingStrategy.ts:37-39 | a variant's layers stand in order of receipt, for FIFO and for consumption at average cost |
| CostOrder.LifoOrder | src/domain/strategies/LifoCostingStrategy.ts:37-39 | latest receipt first for LIFO |
| CostOrder.FefoOrder | src/domain/strategies/FefoCostingStrategy.ts:39-43 | ascending expiration for FEFO, layers without a lot last, equals by receipt |
| CostOrder.StrategyOrder | src/domain/strategies/FefoCostingStrategy.ts:12-43 | the same orders for the sort that a strategy applies to any list it is given |
| CostOrder.StrategyPermutes | src/domain/strategies/FefoCostingStrategy.ts:12-43 | and that sort loses nothing |
| CostOrder.FifoTakesOldest | src/domain/strategies/FifoCostingStrategy.ts:37-48 | a FIFO consumption takes from a layer only when every layer of the variant received earlier is exhausted |
| CostOrder.LifoTakesNewest | src/domain/strategies/LifoCostingStrategy.ts:37-48 | a LIFO consumption only when every layer received later is |
| CostOrder.FefoTakesEarliest | src/domain/strategies/FefoCostingStrategy.ts:39-52 | a FEFO consumption only when every layer whose lot expires earlier is, and from a layer without a lot only when all with one are |
| CostOrder.TakesUnitsAndValue | src/domain/services/CostLayerService.ts:83-106 | by each method a consumption succeeds iff the units on hand suffice, and takes exactly that many units and a charge of exactly their value; specific identification is refused |
| CostOrder.NextItem | src/domain/services/CostLayerService.ts:108-161 | in a batch, each item is consumed from what the items before it left, by its variant's own method or FIFO |
| CostOrder.BreakdownMeans | src/domain/services/CostLayerService.ts:126-156 | a variant's breakdown adds up the quantities and charges of its items |
| CostOrder.AverageMeans | src/domain/services/CostLayerService.ts:178-192 | the average quote is the quantity's share of the variant's value, to the nearest cent with halves upwards; none exactly when nothing is on hand |
| CostLayerService.InventoryCostLayer.Consume | src/domain/entities/InventoryCostLayer.ts:49-53 | takes the smaller of the request and what remains, and records it |
| CostLayerService.WalkCost | src/domain/services/CostLayerService.ts:211-238 | the read-only walk quotes what the same draw would charge |
| CostLayerService.WeightedAverageCostSync | src/domain/services/CostLayerService.ts:178-192 | the accumulating loop computes the rounded average price of the units on hand |
| CostLayerService.Service.CalculateCost | src/domain/services/CostLayerService.ts:64-81 | the estimate of one consumption, by method |
| CostLayerService.Service.ConsumeLayers | src/domain/services/CostLayerService.ts:83-106 | fetch, draw in place, save only when covered |
| CostLayerService.Service.ConsumeLayersBatch | src/domain/services/CostLayerService.ts:108-161 | regrouped by method and on shared layer objects, it stores, breaks down and totals exactly what consuming the items one by one in input order does; it fails exactly when that fails and then stores nothing |
| BatchCosting.SequentialMeaning | src/domain/services/CostLayerService.ts:108-161 | the one-by-one run succeeds iff every item is covered; its lines and total |
| BatchCosting.BatchSavesSequential | src/domain/services/CostLayerService.ts:158 | saving all touched objects once stores what the one-by-one run stores |
| BatchCosting.RegroupedTotal | src/domain/services/CostLayerService.ts:126-156 | adding up group by group gives the same total |
| CostComparison.EstimatesMatchCharge | src/domain/services/CostLayerService.ts:12-106 | single and batch estimates equal the later charge for FIFO, LIFO and FEFO, and fail exactly when it would |
| CostComparison.FifoLifoDual | src/domain/strategies/LifoCostingStrategy.ts:32-58 | with distinct receipt times, the FIFO cost of q and the LIFO cost of the rest add up to the value on hand |
| CostComparison.FifoAverageLifo | src/domain/services/CostLayerService.ts:178-192 | when unit costs rise with receipt time, FIFO cost <= rounded average cost <= LIFO cost |
| CostComparison.QuotesOrdered | src/domain/services/CostLayerService.ts:64-81 | the same comparison for the costs the service quotes |
| CostQuotes.CalculateCostBatch | src/domain/services/CostLayerService.ts:12-62 | grouping by method changes no quote: each item gets, at its own index, what it would get alone, by its variant's own method or the global one |
| InventoryValue.FifoTakesValue | src/domain/services/CostLayerService.ts:83-106 | a FIFO consumption takes exactly its charge out of the value of the whole table |
| InventoryValue.SequentialTakesValue | src/domain/services/CostLayerService.ts:108-161 | consuming several items takes the sum of their charges |
| KitCosting.AssembleKit | src/application/useCases/ManageKits.ts:108-252 | stock check, batch consumption, kit layer at the rounded unit cost, ledger entries, and nothing stored when it throws before them; below one kit it always throws; the journal entry at the end is refused when the kit cost nothing |
| KitCosting.DisassembleKit | src/application/useCases/ManageKits.ts:273-430 | FIFO consumption of the kits, estimated component costs, proportional allocation, restored layers and entries; exactly which quantities below one are refused; the journal entry as above |
| KitCosting.EstimateComponents | src/application/useCases/ManageKits.ts:334-362 | the estimation loop, with the 1000-cent fallback for components out of stock |
| KitMeaning.AssemblyBooks | src/application/useCases/ManageKits.ts:139-215 | the ledger of an assembly books every variant's components times the kits out, and the kits in |
| KitMeaning.AssemblyFollowsLedger | src/application/useCases/ManageKits.ts:139-215 | and the stored layers of every variant change by exactly what is booked for it |
| KitMeaning.AssemblyStores | src/application/useCases/ManageKits.ts:185-201 | one layer is appended: the kits, at the consumed value divided by their number to the nearest cent |
| KitMeaning.DisassemblyBooks | src/application/useCases/ManageKits.ts:297-405 | the ledger of a disassembly books the kits out and every variant's components in |
| KitMeaning.DisassemblyFollowsLedger | src/application/useCases/ManageKits.ts:297-405 | and the stored layers follow it |
| KitMeaning.DisassemblyStores | src/application/useCases/ManageKits.ts:324-393 | one layer per component is appended, at its share of the consumed value by average unit costs of the stored layers (1000 where there are none), to the nearest cent; free when the kits cost nothing or nothing is estimated |
| KitValue.AssemblyKeepsValue | src/application/useCases/ManageKits.ts:167-201 | assembling changes the value of the stock by at most half a cent per kit, and by nothing exactly when the cost divides evenly |
| KitValue.DisassemblyKeepsValue | src/application/useCases/ManageKits.ts:324-393 | disassembling changes it by at most half a cent per restored unit when the components are estimated at anything; otherwise all of the kit's cost is lost |
| KitValue.KitCostIsLost | src/application/useCases/ManageKits.ts:366-371 | a kit of any positive cost whose only part is stocked at cost 0 can be taken apart, and then the stock is worth nothing |
| KitValue.EmptyKitStoredButRefused | src/application/useCases/ManageKits.ts:216-252 | a kit without components is assembled and stored at cost 0, and then its journal entry is refused |
| KitValue.FreeKitStoredButRefused | src/application/useCases/ManageKits.ts:395-430 | a kit of no cost is taken apart and its part restored, and then its journal entry is refused |
| KitValue.AssemblyCompletesIff | src/application/useCases/ManageKits.ts:139-252 | with different component variants, assembling stores something iff at least one kit is asked for, the stock is enough and every component is quoted, and then completes iff those quotes add up to more than nothing |
| KitValue.DisassemblyCompletesIff | src/application/useCases/ManageKits.ts:297-430 | taking kits apart stores something iff there are kits enough, their cost is quoted and no component is restored below one unit, and then completes iff that quote is positive |
| Valuation.ReportStock | src/application/useCases/GetStockValuationReport.ts:39-143 | quantities per variant, one quote per variant, spread back over the lines |
| Valuation.VariantWithinRounding | src/application/useCases/GetStockValuationReport.ts:103-120 | a variant's lines differ from its cost by at most half a cent per unit on hand |
| Valuation.ReportWithinRounding | src/application/useCases/GetStockValuationReport.ts:73-142 | so does the whole report from the exact cost of the stock |
| ValuationMeaning.ReportMeans | src/application/useCases/GetStockValuationReport.ts:39-143 | one line per item with stock and a variant, in the order of the items and with their fields, at one price per variant: the quote for all its units by the method asked for, divided by them to the nearest cent; 0 without a quote |
| ValuationMeaning.TotalMeans | src/application/useCases/GetStockValuationReport.ts:120-142 | the total is the sum of the lines |
| RateLimiter.TokensInRange | src/domain/billing/BillingServices.ts:8-27 | tokens stay between 0 and the capacity over every run, for any clock |
| RateLimiter.RateBound | src/domain/billing/BillingServices.ts:8-27 | for any clock, of any stretch of requests at most the capacity plus what the effective time between them earns are allowed; effective time counts steps back as standing still |
| RateLimiter.KeepsRateMeans | src/domain/billing/BillingServices.ts:8-23 | the bound in plain numbers: the capacity, and a sixtieth of it for each second that counts |
| RateLimiter.SameOnEffectiveClock | src/domain/billing/BillingServices.ts:17-25 | for any clock, tokens and decisions are those of the run on the effective clock |
| RateLimiter.EffectiveClockForward | src/domain/billing/BillingServices.ts:17 | that clock never steps back |
| RateLimiter.ElapsedIsWallTimeIff | src/domain/billing/BillingServices.ts:17 | effective and wall-clock time agree on every stretch iff the clock never steps back |
| RateLimiter.WindowBound | src/domain/billing/BillingServices.ts:8-27 | when the clock never steps back, within any window [s, t] at most capacity + (t - s) * capacity / 60 are allowed |
| RateLimiter.AllowedIffWithinRate | src/domain/billing/BillingServices.ts:8-27 | starting full and for any clock, a request is allowed exactly when allowing it keeps the bound over every stretch that ends with it |
| RateLimiter.InsertDenied | src/domain/billing/BillingServices.ts:21-25 | inserting a denied request between its neighbours in time changes no other decision, whatever the clock does elsewhere |
| RateLimiter.EverySecondPasses | src/domain/billing/BillingServices.ts:17-23 | wherever the clock is set back to, a request a minute after the one before it passes |
| RateLimiter.ClockMustNotStepBack | src/domain/billing/BillingServices.ts:17-18 | so in wall-clock time there is no bound: any number of requests pass on a clock that only ever shows 0 and 60 seconds |
| RateLimiter.ThreeInAMinute | src/domain/billing/BillingServices.ts:17-18 | for one: three requests of a capacity of one pass within a minute of wall-clock time |
| TokenMap.RateLimitResolver.CheckRateLimit | src/infrastructure/graphql/billingResolvers.ts:10-38 | the answers a tenant gets are those of the token bucket run over its requests since it was last admitted; other tenants keep or lose their bucket, never change it |
| TokenMap.KeysAreMostRecent | src/infrastructure/graphql/billingResolvers.ts:23-35 | for non-empty ids the map's keys are always the most recent tenants in order of last request |
| TokenMap.NeverOverfull | src/infrastructure/graphql/billingResolvers.ts:25-30 | so it never exceeds its limit |
| TokenMap.KeptIffRecent | src/infrastructure/graphql/billingResolvers.ts:23-35 | a tenant is still there iff fewer than the limit distinct others asked since its last request |
| TokenMap.BoundKeptIff | src/infrastructure/graphql/billingResolvers.ts:25-30 | one request breaks the limit exactly when the map is full, the tenant is new and the oldest key is empty |
| TokenMap.EmptyIdOverfills | src/infrastructure/graphql/billingResolvers.ts:26-29 | once the empty id came first, nobody is ever dropped: any number of other tenants are all kept, whatever the limit |
| TokenMap.TenantBound | src/infrastructure/graphql/billingResolvers.ts:10-22 | in every state of the resolver, of any stretch of the answers a kept tenant got since its admission at most 60 plus one per effective second are yes |
| TokenMap.AnsweredIffWithinRate | src/infrastructure/graphql/billingResolvers.ts:10-22 | exactly: an answer is yes iff that keeps the bound of 60 plus one per effective second over every stretch of the tenant's requests, since its admission, that ends there |
| TokenMap.KeptTenants | src/infrastructure/graphql/billingResolvers.ts:23-35 | in every state of a resolver that was never asked by an empty id, exactly the tenants are kept after whose last request fewer than 10000 others asked, and never more than 10000 |
| TokenMap.AskedSinceMeans | src/infrastructure/graphql/billingResolvers.ts:23-35 | where those that asked since are the tenants with a request after every one of its own |
| InventoryItems.InventoryItem.Receive | src/domain/entities/InventoryItem.ts:75-78 | adds stock and raises the version by one |
| InventoryItems.InventoryItem.Dispatch | src/domain/entities/InventoryItem.ts:80-92 | takes stock if there is enough; unchanged when it throws |
| InventoryItems.InventoryItem.Allocate | src/domain/entities/InventoryItem.ts:94-100 | allocates up to what is available, in-transit stock included |
| InventoryItems.InventoryItem.Fulfill | src/domain/entities/InventoryItem.ts:110-120 | needs both the allocation and the stock |
| InventoryItems.InventoryItem.ArriveInTransit | src/domain/entities/InventoryItem.ts:127-134 | moves in-transit units to stock on hand |
| InventoryItems.InventoryItem.DropInTransit | src/domain/entities/InventoryItem.ts:136-142 | removes in-transit units |
| InventoryItems.InMemoryInventoryRepository.FindById | src/infrastructure/persistence/InMemoryInventoryRepository.ts:11-26 | reads hand out copies |
| InventoryItems.InMemoryInventoryRepository.Save | src/infrastructure/persistence/InMemoryInventoryRepository.ts:62-71 | stores iff the item is one version ahead of the stored one, or new |
| InventoryItems.PostgresInventoryRepository.SaveBatch | src/infrastructure/persistence/PostgresInventoryRepository.ts:136-239 | repeated items are saved once, as last passed; one stale row rolls everything back |
| OptimisticLocking.Wrap | src/application/decorators/AutoRetryDecorator.ts:12-35 | at most maxRetries + 1 runs; only concurrency errors are retried; the outcome is the last run's |
| OptimisticLocking.EveryRun | src/infrastructure/persistence/InMemoryInventoryRepository.ts:62-71 | over every interleaving of clients, an accepted save with k mutators discards exactly the k - 1 commits made since its load; each client commits at most once |
| OptimisticLocking.SerialIffOneMutator | src/domain/entities/InventoryItem.ts:70-142 | an accepted save acts on the state stored just before it iff exactly one mutator was applied |
| OptimisticLocking.NoLostUpdates | src/infrastructure/persistence/InMemoryInventoryRepository.ts:62-71 | with one mutator each, the stored item is the accepted mutators replayed in commit order |
| OptimisticLocking.TwoMutatorsLoseAnUpdate | src/domain/entities/InventoryItem.ts:70-78 | with two mutators the version check accepts a save that loses an update |
| LockingProgress.GivesUpIffOutnumbered | src/application/decorators/AutoRetryDecorator.ts:12-35 | with one mutator each that no item refuses, a client can use up its retries, in some interleaving, iff there are more other clients than retries |
| LockingProgress.UpdatesAddUp | src/infrastructure/persistence/InMemoryInventoryRepository.ts:62-71 | with one mutator each, in every interleaving stock, allocation and in-transit units are the first ones plus what the clients that are done added and took |
| LockingProgress.MutatorMeans | src/domain/entities/InventoryItem.ts:61-157 | each mutator adds its amounts to stock, allocation and in-transit units and one to the version; it throws iff one of them would be below zero or the allocation above what is available |
| LockingProgress.BatchMeans | src/infrastructure/persistence/PostgresInventoryRepository.ts:136-239 | a batch is saved iff every stored item is one version behind; then its items are as saved and the others as before |
| LockingProgress.LastPassedCounts | src/infrastructure/persistence/PostgresInventoryRepository.ts:136-239 | an item passed several times counts as it was passed last |
| PNCounter.GetValue | src/domain/crdt/CRDTStockResolver.ts:32-42 | sum of increments minus sum of decrements, floored at zero |
| PNCounter.Merge | src/domain/crdt/CRDTStockResolver.ts:44-71 | the two loops take the larger entry of every node |
| PNCounter.MergeCommutes | src/domain/crdt/CRDTStockResolver.ts:44-71 | commutative up to the SKU, which comes from the left |
| PNCounter.MergeAssociates | src/domain/crdt/CRDTStockResolver.ts:44-71 | associative |
| PNCounter.MergeIdempotent | src/domain/crdt/CRDTStockResolver.ts:44-71 | idempotent |
| PNCounter.MergeInflates | src/domain/crdt/CRDTStockResolver.ts:44-71 | never forgets what either side knew |
| PNCounter.MergeLeast | src/domain/crdt/CRDTStockResolver.ts:44-71 | and adds nothing beyond the two sides |
| PNCounter.RunKeepsInv | src/domain/crdt/CRDTStockResolver.ts:22-71 | with state messages delayed, duplicated and reordered, no replica or message ever overstates a node, and each node knows its own total |
| PNCounter.DeliveryAbsorbs | src/domain/crdt/CRDTStockResolver.ts:44-71 | a delivery makes the receiver absorb the message and keeps what it had absorbed |
| PNCounter.Convergence | src/domain/crdt/CRDTStockResolver.ts:22-71 | once every node's final state has reached a replica, in the node's own message or in others' that had it, that replica reads max(0, all added - all taken), so such replicas agree |
| AnomalyDetection.BasicFallback | src/domain/services/AnomalyDetectionService.ts:112-182 | the fallback's loops compute the specified summary: counts per actor, textbook mean and deviation, one alert per outlier |
| AnomalyDetection.CountActors | src/domain/services/AnomalyDetectionService.ts:114-122 | each actor's number of loss entries, actors in order of first appearance |
| AnomalyDetection.MeanAndDeviation | src/domain/services/AnomalyDetectionService.ts:126-138 | the one-pass mean and deviation are the two-pass ones |
| Statistics.OnePassIsVariance | src/domain/services/AnomalyDetectionService.ts:136-137 | the one-pass variance is the two-pass variance and never negative, so the clamp at 0 is inert |
| AnomalyDetection.ReportedIffOutlier | src/domain/services/AnomalyDetectionService.ts:112-155 | an actor is in the fallback's alerts, with the confidence and severity of its distance, iff it has losses and more than 1.5 deviations above the mean of the actors with losses |
| AnomalyDetection.SeverityByDistance | src/domain/services/AnomalyDetectionService.ts:139-154 | every alert carries its actor's number of losses, and is critical, high or medium iff that number is at least 3.2, 2.4 or 1.6 deviations above the mean |
| AnomalyDetection.FewAlerts | src/domain/services/AnomalyDetectionService.ts:124-155 | fewer than 4 in 13 actors are ever reported, and nobody when there are at most three |
| AnomalyDetection.EveryFewerCanAlert | src/domain/services/AnomalyDetectionService.ts:112-155 | the bound is tight: whenever 13 f < 4 n, some losses of n actors have exactly f of them reported |
| AnomalyDetection.CountsAddUp | src/domain/services/AnomalyDetectionService.ts:117-136 | the mean is the number of loss entries per actor |
| AnomalyDetection.SummaryIsConsistent | src/domain/services/AnomalyDetectionService.ts:159-181 | the four totals split the alerts; the risk score is 0 without alerts and otherwise above 3/8 and at most 1 |
| AnomalyMeaning.CountMeans | src/domain/services/AnomalyDetectionService.ts:117-122 | an actor's count is the number of its entries for shrinkage, write-off or damage; the actor is the actor id, else a non-empty actor name, else unknown |
| AnomalyMeaning.ActorsMean | src/domain/services/AnomalyDetectionService.ts:117-122 | the actors compared are those with such an entry, each once |
| AnomalyMeaning.AlertsMean | src/domain/services/AnomalyDetectionService.ts:124-155 | the alerts are one for each actor whose number of losses lies more than 1.5 deviations above the mean; each carries that number, a confidence of its distance in fours of a deviation, at most 1, and the severity of that distance |
| AnomalyMeaning.AlertsByFirstLoss | src/domain/services/AnomalyDetectionService.ts:139-155 | they come in the order of their actors' first losses, one for an actor |
| AnomalyMeaning.SummaryMeans | src/domain/services/AnomalyDetectionService.ts:159-181 | each total counts the alerts of its severity, and the risk score is their mean confidence |
| DemandForecast.DailySalesStats | src/domain/services/ReplenishmentForecaster.ts:53-114 | average and deviation as the two loops compute them; no number for a window of 0 days |
| DemandForecast.SpreadOfDailySales | src/domain/services/ReplenishmentForecaster.ts:84-112 | the variance used is the bins' variance plus the square of the unbinned sales per day; equal to it iff nothing is unbinned |
| DemandForecast.DroppedIff | src/domain/services/ReplenishmentForecaster.ts:65-102 | nothing is dropped iff every counted sale lies within the last days times 24 hours of today, whatever the clock did in the window |
| DemandForecast.DroppedOnFirstDayIff | src/domain/services/ReplenishmentForecaster.ts:65-102 | without a change of clocks: iff none lies on the window's first day or after today |
| DemandForecast.FirstSaleIsDropped | src/domain/services/ReplenishmentForecaster.ts:65-102 | a sale at the start of such a window is counted and dropped |
| DemandForecast.LeadTimeStats | src/domain/services/ReplenishmentForecaster.ts:151-198 | relevant deliveries, with the fallback to other locations; one-pass deviation equals the two-pass one |
| DemandMeaning.SoldMeans | src/domain/services/ReplenishmentForecaster.ts:70-93 | the total sold is the sum of the sales since the window's first midnight |
| DemandMeaning.DailyMeans | src/domain/services/ReplenishmentForecaster.ts:76-103 | day k has those in its 24 hours, counted back from the end of today |
| DemandMeaning.RelevantMeans | src/domain/services/ReplenishmentForecaster.ts:150-178 | the orders used are the received ones with the variant bound for the location, in the order given; all received ones with the variant if none is |
| DemandMeaning.LeadTimeMeans | src/domain/services/ReplenishmentForecaster.ts:187-191 | a lead time is the days from creation to the last update, and 0 if the update comes first |
| Approval.ApprovalRequest.RecordApproval | src/domain/entities/ApprovalRequest.ts:73-96 | one approval at the current step; advances or completes when the step has enough |
| Approval.ApprovalRequest.RecordRejection | src/domain/entities/ApprovalRequest.ts:101-111 | rejects at once |
| Approval.ApprovalRequest.TimeOut | src/domain/entities/ApprovalRequest.ts:117-128 | escalates to the next step, or expires at the last |
| Approval.ApprovalWorkflowService.ProcessDecision | src/domain/services/ApprovalWorkflowService.ts:97-193 | decides at the current step with the configured count, default 1; stores nothing when it throws |
| Approval.ApprovalWorkflowService.CheckExpiredRequests | src/domain/services/ApprovalWorkflowService.ts:199-240 | times out the stale requests one by one, stopping at the first that throws |
| ApprovalRuns.EveryRequestSound | src/domain/services/ApprovalWorkflowService.ts:97-240 | in every reachable state each completed step of a pending request has exactly max(1, requiredCount) approvals |
| ApprovalRuns.ApprovedMeansApproved | src/domain/entities/ApprovalRequest.ts:73-96 | an approved request has exactly those approvals at all steps and no other decision; no request collects more |
| ApprovalMeaning.RequestsFollowConfiguration | src/domain/services/ApprovalWorkflowService.ts:97-240 | read off the workflow's steps: in every reachable state an approved request has at each step exactly the configured number of approvals (one where none above 1 is configured) and no other decision; a pending one has them at the steps before its current one and not yet at that one |
| ApprovalMeaning.DecisionMeans | src/domain/services/ApprovalWorkflowService.ts:140-193 | what a decision does: a rejection ends the request; the approval that makes the number configured for the current step moves it on, or approves it after the last; any other is recorded only |
| ApprovalMeaning.RefusedIff | src/domain/entities/ApprovalRequest.ts:73-138 | exactly what the aggregate refuses |
| ApprovalMeaning.TimeOutMeans | src/domain/services/ApprovalWorkflowService.ts:199-240 | a timeout escalates to the next step with that step's deadline, or expires the request at the last |
| ApprovalMeaning.SweepMeans | src/domain/services/ApprovalWorkflowService.ts:199-240 | when no escalated request is past its deadline, a sweep times out exactly the pending requests whose deadline has come and leaves the others |
| ApprovalRuns.EscalatedNeverApproved | src/domain/entities/ApprovalRequest.ts:73-138 | a request that was ever escalated stays as it is unless expired by force, and is never approved |
| ApprovalRuns.SweepCompletesIff | src/domain/services/ApprovalWorkflowService.ts:199-240 | a sweep completes iff no stale request it lists is already escalated |
| ApprovalRuns.SweepOutcome | src/domain/services/ApprovalWorkflowService.ts:205-236 | requests before the first escalated one are timed out, later ones are left |
| ApprovalRuns.SweepsStayBlocked | src/infrastructure/persistence/PostgresApprovalWorkflowRepository.ts:84-92 | once an escalated request has passed its deadline, no later sweep ever completes |
| ApprovalRuns.UndecidedRequestBlocks | src/domain/services/ApprovalWorkflowService.ts:69-240 | such requests come up: any request that nobody decides on, whose first two steps have timeouts, is escalated by one sweep and stops every sweep after its second deadline |
| FefoPicking.SuggestFefoPicking | src/domain/services/FEFOPickingSuggester.ts:21-99 | grouping and the nested greedy loops draw from the front of one list of lot balances; the four error cases |
| FefoPicking.PickLot | src/domain/services/FEFOPickingSuggester.ts:70-90 | the inner loop draws from a lot's locations and drains it when units are still missing |
| FefoProperties.StockIsPositiveBalances | src/domain/services/FEFOPickingSuggester.ts:46-66 | what can be picked is the sum of the positive ledger balances of the lots with an active layer, each counted once |
| FefoProperties.SuggestedIffEnough | src/domain/services/FEFOPickingSuggester.ts:93-95 | a suggestion exists iff that sum reaches the quantity; otherwise the shortage is reported |
| FefoProperties.SuggestionIsExact | src/domain/services/FEFOPickingSuggester.ts:68-91 | picks total the quantity, each lot and location once and within its balance; only the last can leave anything |
| FefoProperties.EarlierLotsDrained | src/domain/services/FEFOPickingSuggester.ts:68-91 | a lot is touched only when every lot with an earlier first layer is drained |
| FefoProperties.PicksInExpiryOrder | src/domain/services/FEFOPickingSuggester.ts:39-40 | layers in expiry order give picks in expiry order |
| FefoMeaning.BalanceMeans | src/domain/services/FEFOPickingSuggester.ts:46-66 | a lot's balance at a location is the sum of the ledger entries for both; entries under an empty lot number belong to no lot |
| FefoMeaning.LotsMean | src/domain/services/FEFOPickingSuggester.ts:39-44 | lots come in the order of the layers; layers without one are passed over |
| FefoMeaning.RefusedIff | src/domain/services/FEFOPickingSuggester.ts:21-99 | exactly when each error is reported, in the order in which they are tried |
| FefoMeaning.LocationsByMention | src/domain/services/FEFOPickingSuggester.ts:46-90 | a lot's locations are picked in the order in which the ledger first mentions them |
| Putaway.SuggestPutaway | src/domain/services/PutawaySuggester.ts:21-196 | zone filter, occupancy, scores, ranking and fill; empty when no location is compatible |
| Putaway.FoldOccupancy | src/domain/services/PutawaySuggester.ts:95-106 | the occupancy map is the weight and volume stored at each location |
| PutawayProperties.RankedFacts | src/domain/services/PutawaySuggester.ts:149-155 | the ranking is by score, then remaining weight, and loses nothing |
| PutawayProperties.UnitsAreTheMost | src/domain/services/PutawaySuggester.ts:166-169 | the units counted for a location are the most that overrun neither its weight nor its volume by more than 0.000005 of a unit; no limit exactly when the variant has neither |
| PutawayProperties.SucceedsIffEnough | src/domain/services/PutawaySuggester.ts:157-194 | with a compatible location, it succeeds iff the units that fit add up to the quantity, in whatever order |
| PutawayProperties.RecommendationsAreExact | src/domain/services/PutawaySuggester.ts:157-189 | the recommendations total the quantity over distinct locations |
| PutawayProperties.RecommendationIsLegal | src/domain/services/PutawaySuggester.ts:55-75 | each names a location the zone rules allow, with room, and never more than fits |
| PutawayMeaning.RecommendedIsAllowed | src/domain/services/PutawaySuggester.ts:38-75 | on attributes and zones: with a hazard class every recommended location is in zone hazmat, without one none is, and with a temperature zone the zones agree, ignoring case; and it has free weight and volume |
| PutawayMeaning.OfferedIff | src/domain/services/PutawaySuggester.ts:38-147 | a location is a candidate iff these rules allow it and what is stored there leaves both weight and volume; with its free weight and its points: 100 for the temperature zone, 200 for hazmat, 50 for a fast zone and 30 for aisles A01 to A03 with fast-moving goods |
| PutawayMeaning.PreferredByPoints | src/domain/services/PutawaySuggester.ts:149-189 | an allowed location with room that takes at least one unit is recommended, unless every recommended one has more points, or as many and at least as much free weight |
| PutawayProperties.GuardIsClose | src/domain/services/PutawaySuggester.ts:166-170 | the toFixed(5) guard never counts fewer units than fit, and overfills by at most 0.000005 of a unit |
| PutawayProperties.GramGuardIff | src/domain/services/PutawaySuggester.ts:167 | on whole grams it never overfills iff a unit weighs less than 200 kg |
| PutawayProperties.WeightNeverOverfilled | src/domain/services/PutawaySuggester.ts:166-188 | so no recommendation overfills a weight capacity |
| PutawayProperties.VolumeBarelyOverfilled | src/domain/services/PutawaySuggester.ts:166-188 | and a volume capacity by at most 0.000005 of one unit |
| KitSales.Kit.AddComponent | src/domain/entities/Kit.ts:15-23 | merges by variant, so variants stay distinct and counts at least 1; refused when the component would fall below 1 |
| KitSales.Kit.RemoveComponent | src/domain/entities/Kit.ts:25-32 | takes the variant out, or reports that it is not there |
| KitSales.InMemoryLedgerRepository.CurrentQuantity | src/infrastructure/persistence/InMemoryLedgerRepository.ts:17-26 | the signed sum of the matching entries |
| KitSales.InMemoryLedgerRepository.CurrentQuantities | src/infrastructure/persistence/InMemoryLedgerRepository.ts:39-54 | one pass reads the same balance as a single read, for each requested variant |
| KitSales.DecrementForKitSale | src/domain/services/InventoryService.ts:96-142 | validates every component before anything is appended; a rejected sale appends nothing |
| KitSales.SaleTakes | src/domain/services/InventoryService.ts:122-142 | an accepted sale takes the kit's units of each variant at its location and nothing else |
| KitSales.SaleMeans | src/domain/services/InventoryService.ts:96-142 | a sale is accepted iff the kit has components and what is booked for each at the location covers a needed quantity other than 0; it appends one entry per component, in order |
| KitSales.RunsNeverOversell | src/domain/services/InventoryService.ts:96-142 | over any run of kit sales and receipts no balance becomes negative |
| KitSales.RepeatedComponentOversells | src/domain/entities/Kit.ts:15-23 | the merge is needed: a repeated variant would be sold below zero |
| StockOrders.StockControl.DispatchTransfer | src/application/useCases/ManageStockTransfers.ts:83-158 | the dispatch: status, loop over the lines, versioned batch save, ledger entries |
| StockOrders.StockControl.ReceiveTransfer | src/application/useCases/ManageStockTransfers.ts:169-224 | the receipt |
| StockOrders.StockControl.CancelTransfer | src/application/useCases/ManageStockTransfers.ts:235-311 | the cancellation, reversing a dispatch |
| StockOrders.StockControl.PlacePurchaseOrder | src/application/useCases/ManageReplenishment.ts:219-296 | placing, or waiting for approval |
| StockOrders.StockControl.ReceivePurchaseOrder | src/application/useCases/ManageReplenishment.ts:307-362 | the receipt of an order |
| StockOrders.StockControl.CancelPurchaseOrder | src/application/useCases/ManageReplenishment.ts:372-415 | the cancellation of an order |
| StockOrders.StockTransfer.Cancel | src/domain/entities/StockTransfer.ts:70-76 | only drafts and dispatched transfers can be cancelled |
| StockOrders.PurchaseOrder.MarkPendingApproval | src/domain/entities/PurchaseOrder.ts:46-51 | only drafts can wait for approval |
| StockFlow.SavedEffect | src/application/useCases/ManageStockTransfers.ts:119-146 | a saved use case moves stock on hand and in transit at each place by its lines' quantity |
| StockFlow.SavedIffEditedOnce | src/infrastructure/persistence/PostgresInventoryRepository.ts:136-210 | the versioned save accepts a use case's items iff no stored item was changed twice |
| OpenDocuments.DispatchIff | src/application/useCases/ManageStockTransfers.ts:83-158 | a draft transfer can be dispatched iff its variants are known, the source holds every line, and no SKU is on two lines |
| OpenDocuments.OpenTransferCanBeClosed | src/application/useCases/ManageStockTransfers.ts:169-311 | a dispatched transfer can always be received and always be cancelled |
| OpenDocuments.OpenOrderClosesIffDistinct | src/application/useCases/ManageReplenishment.ts:307-415 | an ordered purchase order never lacks in-transit stock; it can be received, and cancelled, iff no SKU is on two lines |
| StockRuns.StepKeepsInv | src/application/useCases/ManageStockTransfers.ts:83-311 | every step keeps: in transit to a place is what open documents owe it |
| StockRuns.InTransitIsOpenDocuments | src/application/useCases/ManageReplenishment.ts:219-415 | in every reachable state each in-transit counter is the sum of the lines of dispatched transfers and ordered purchase orders bound there |
| StockMeaning.DispatchMeans | src/application/useCases/ManageStockTransfers.ts:83-158 | a dispatch takes each SKU's units on the transfer's lines from the source's stock and ledger and adds them in transit to the destination; nothing else changes |
| StockMeaning.ReceiveMeans | src/application/useCases/ManageStockTransfers.ts:169-224 | a receipt moves them from in transit to stock and ledger at the destination |
| StockMeaning.CancelMeans | src/application/useCases/ManageStockTransfers.ts:235-311 | cancelling a dispatched transfer moves them back to the source; cancelling a draft moves nothing |
| StockMeaning.PlaceMeans | src/application/useCases/ManageReplenishment.ts:219-296 | placing adds the order's units in transit; sending it for approval only changes its status |
| StockMeaning.ReceiveOrderMeans | src/application/useCases/ManageReplenishment.ts:307-362 | receiving an order adds each SKU's units to stock on hand and to the ledger at the destination, and takes them out of transit |
| StockMeaning.CancelOrderMeans | src/application/useCases/ManageReplenishment.ts:372-415 | cancelling an ordered one takes them out of transit; an earlier one moves nothing |
| StockMeaning.OnlyNamedMoves | src/application/useCases/ManageStockTransfers.ts:92-103 | goods move only on documents all of whose variants are known under a SKU that is not empty |
| StockMeaning.AlwaysPossible | src/domain/entities/PurchaseOrder.ts:46-58 | drafts and orders waiting for approval can always be cancelled, and a draft order can always be sent for approval |
| StockConservation.OnHandFollowsLedger | src/application/useCases/ManageStockTransfers.ts:83-311 | over any run of transfer and order steps, stock on hand minus ledger balance stays what it was |
| StockConservation.TransfersConserveGoods | src/application/useCases/ManageStockTransfers.ts:83-311 | no transfer step changes a SKU's total on hand plus in transit over all locations |
| StockConservation.CancelUndoesDispatch | src/application/useCases/ManageStockTransfers.ts:235-311 | whatever happened since, a transfer that is still dispatched can be cancelled, and that moves back exactly what its dispatch moved on hand, in transit and in the ledger |
| StockConservation.PlaceIff | src/application/useCases/ManageReplenishment.ts:255-292 | a draft order can be placed iff its variants are known and no SKU on two of its lines already has an item there |
| StockConservation.RepeatedSkuNeverCloses | src/application/useCases/ManageReplenishment.ts:307-415 | an ordered purchase order with a SKU on two lines stays ordered for ever |
| StockConservation.RepeatedSkuGetsStuck | src/application/useCases/ManageReplenishment.ts:219-415 | from an empty store, any order with two lines of one known variant is created and placed, and then no run closes it |
| StockConservation.PendingApprovalIsFinal | src/domain/entities/PurchaseOrder.ts:32-58 | an order waiting for approval is never placed; it stays so or is cancelled |
| Replenishment.EvaluateRules | src/domain/services/ReplenishmentEvaluator.ts:45-263 | the evaluation loop: forecasts, verdicts, and the documents saved after it |
| ReplenishmentMeaning.MakesDocumentIff | src/domain/services/ReplenishmentEvaluator.ts:94-262 | an active rule whose SKU is in the catalog makes a document iff none is open for it, one can be made, and its item's quantity - allocation + in transit (0 without an item) is below its reorder point after the forecast: one draft bound for its location with its reorder quantity, a transfer from its source location or an order |
| ReplenishmentMeaning.OnlyForRules | src/domain/services/ReplenishmentEvaluator.ts:94-262 | and no other document is made |
| ReplenishmentMeaning.ReportedAsDue | src/domain/services/ReplenishmentEvaluator.ts:94-230 | every active rule is reported, as triggered with that position and document iff it makes one |
| ReplenishmentMeaning.RulesAfterMean | src/domain/services/ReplenishmentEvaluator.ts:96-125 | a dynamic rule keeps its forecast point, unless the forecast fails or is negative; the others stay as they were |
| ReplenishmentRuns.EvaluationKeepsSingle | src/domain/services/ReplenishmentEvaluator.ts:138-222 | an evaluation makes no document for a variant and location that has an open one |
| ReplenishmentRuns.NoDoubleOrdering | src/domain/services/ReplenishmentEvaluator.ts:94-261 | over any run of evaluations and document steps, at most one open evaluator-made document brings a variant to a location |
| ReplenishmentRuns.EvaluationKeepsOutstandingIff | src/domain/services/ReplenishmentEvaluator.ts:94-261 | counting orders that wait for approval too: an evaluation leaves at most one evaluator-made document outstanding per variant and location iff no rule asks for what a waiting order already brings |
| ReplenishmentRuns.OneOutstandingIff | src/domain/services/ReplenishmentEvaluator.ts:94-261 | over any run of evaluations and document steps, every state has at most one iff every evaluation meets that condition |
| ReplenishmentRuns.AskedTwiceIsMade | src/domain/services/ReplenishmentEvaluator.ts:134-222 | in any state, a rule that asks for what a waiting order brings gets a second document, outstanding beside it |
| ReplenishmentRuns.NoDoubleOutstanding | src/domain/services/ReplenishmentEvaluator.ts:94-261 | in particular, at most one as long as no evaluator-made order is sent for approval |
| ReplenishmentRuns.SecondOrderWhilePending | src/domain/services/ReplenishmentEvaluator.ts:134-154 | a run with two: from an empty store, any supplier rule is evaluated, its order is sent for approval, and it is evaluated again |
| ReplenishmentRuns.SecondEvaluationOrdersNothing | src/domain/services/ReplenishmentEvaluator.ts:94-261 | evaluating again at once, with the same forecasts, orders nothing |

## Left out

- IEEE rounding: all arithmetic is exact; `toFixed(5)` is modelled on exact values below 10^21.
- Costing by specific identification (`costForSerial`): both the single and the batch path fail on that method here.
- Storage details: SQL, transactions across several repositories, domain events, UUIDs (new ids are parameters), clocks (times are parameters), tenants and authorisation.
- `InMemoryInventoryRepository.saveBatch`, a loop of single saves that can stop halfway; the batch save here is the one of the Postgres repository, as one compare-and-set.
- Ties between equal receipt times are broken by the order of insertion in the table of cost layers; the Postgres batch save of layers is taken as an upsert by id.
- CostComparison.QuotesOrdered: the average quote is given without checking that the quantity is on hand, as in the source; the comparison assumes it is.
- FifoQueue.RunRefinesQueue: receipts come at non-decreasing times; a back-dated receipt would enter the middle of the queue.
- OptimisticLocking.Wrap: which errors count as concurrency errors is an input; the source also retries any error whose text contains "concurrency".
- StockOrders.StockControl.PlacePurchaseOrder: the approval service creates its request before the order's status is looked at, so placing an intercepted order that is no draft leaves a request behind when it throws; the model has no requests here.
- KitValue.AssemblyCompletesIff: components of different variants, as a kit always has (KitSales.Kit.AddComponent).
- OptimisticLocking.EveryRun: one stored item; different items do not interact in the single-item save.
- InventoryItems.InMemoryInventoryRepository.Save: the source keeps the passed object itself, so a later change to it reaches the repository without a save; the model keeps a copy.
- Replenishment.EvaluateRules: the source looks up inventory under the SKU and the location joined by an underscore, so two pairs such as ("a_b", "c") and ("a", "b_c") share an entry; the model looks up the pair.
- PNCounter: node ids that name members of the object prototype, such as "toString", which plain objects would find.
- DemandForecast.DailySalesStats: what a window of 0 days divides by zero is not a number; here it is an absent value. The final reorder-point formula, a square root of a weighted sum, is not modelled.
- Approval: roles of approvers, thresholds that trigger a workflow, and changes of a workflow while requests are open.
- Putaway.SuggestPutaway: letter case is folded for ASCII only, and the quantity is a whole number.
- KitCosting.AssembleKit: of the journal entry, which carries the consumed cost on both sides, only whether it is refused is modelled.
- StockOrders: loaded items, maps and sets of one use case are handled by value, since every use case works on its own fresh copies; the catalog does not change during a run.
- StockRuns.StepKeepsInv: other use cases appear as steps that may change items and ledger but leave in-transit counters alone.
- Replenishment: results carry a verdict instead of a text; forecasts are inputs of an evaluation. Creating, updating and toggling rules is left to the rules each evaluation is given.
- Serialized items, returns, cross-docking, sales by line, ABC classes, ageing, unit conversion, labels and notifications: simpler members, or no invariant of the kind proved here holds in the source.
