# Portfolio automation: a verified model

This project models the decision-making and the durable state of a portfolio automation service and proves what it
guarantees. `dafny verify dfyconfig.toml` checks all of it.

The model follows six connected parts of the service.

- **From signals to priced orders.** `Signals` scores candles; `PortfolioOptimizer` hands the investable weight out in
  proportion to scores under caps; `RebalancePlanner` turns targets into whole lots within the cash above the reserve;
  `ExecutionPlanner` prices limit orders outward to the next cent; `RiskManager` is the gate every trade passes.
  `WaterFilling` states the closed form of the optimizer and what follows from it, `RebalanceProperties`,
  `Settlement` and `PlanToOrders` relate the parts to each other.
- **Order lifecycle.** `OrderDesk` defines the effect of each call of the execution service on orders, virtual trades,
  execution orders and broker posts; `OrderLifecycle`, `OrderHistory` and `TradingTraces` prove what holds after every
  sequence of calls, and `OrderScenarios` gives the concrete runs that attain or break their bounds;
  `ExecutionService` is the service itself, proved to have those effects.
- **Reconciliation.** `Operations` is the paged reading of broker operations. `Reconciliation` is one run as a list of
  commits, cut short by a crash or an exception anywhere; `ReconciliationEvents`, `ReconciliationProperties`,
  `ReconciliationRetry` and `ReconciliationLimits` prove what the ledger keeps, and `ReconciliationService` is the
  service over a session.
- **Inbox and wake-ups.** `Inbox`, `InboxProperties` and `InboxService` cover stored stream events, their attempts and
  their jobs; `Debounce` the flag and reason set that gather wake-ups into one job, each with its time to live.
- **Automation runs and leases.** `Automation` and `AutomationProperties` cover the run table over deliveries, crashes
  and recoveries; `TimedKey` the Redis key with owner token and time to live behind the cycle lock and the stream leases.
- **Cycles with their orders and triggers.** `TradingCycle` puts the run table and the order desk into one state: a
  delivery is a list of moves, commits of the run row and calls of the execution service, ended by a refusal or cut
  anywhere. `TradingCycleProperties` proves what holds in every history of the two, and `AutomationService` is the cycle
  service over its repository and the execution service. `EventTriggers` joins the reconciliations of all accounts to
  the job queue and the run table. `CycleScenarios` and `TriggerScenarios` are concrete histories of each.

Eight modules and the last section of `WaterFilling` tell what an operation does in terms of its inputs and of what it leaves alone, with every state, kind, mode,
limit and constant spelled out, independently of the definitions the other proofs use: `PlanOutcomes`, `OrderPlanning`,
`TradingGate`, `ReconciliationOutcomes`, `TriggerOutcomes`, `InboxOutcomes`, `CycleOutcomes` and `SignalOutcomes`.

Each class (`ExecutionService.Service`, `ReconciliationService.StreamRepository`, `InboxService.StreamInbox`,
`AutomationService.AutomationCycleService`, `Debounce.Wakeups`, `TimedKey.RedisKey`) is proved equal, call by call, to
the functions of its specification module; the theorems about histories are proved of those functions.

## Idealisations

- `Decimal` and `float` values are exact reals. The roundings written in the code (lot floor, cent floor and ceiling,
  six-digit scores) are kept.
- Idempotency keys, dedupe keys, correlation ids and fingerprints are taken as injective in their parts. One ledger
  stands for one (provider, target, account).
- Times are integers: microseconds for trading, any unit elsewhere. What a call observes of clocks, settings, broker and
  watchlist comes in as a parameter; settings and risk profile are taken as seeded.
- Each commit is atomic. A session's uncommitted changes are lost in a crash and on rollback.
- Deliveries of cycles, calls of the execution service from outside and reconciliations follow one another; none runs
  inside another.
- A failure to mark a failed run is the same as a worker that dies at that moment.
- The planner is used as the rebalance service uses it: on assets with positive price and lot size, which the
  optimizer's validation provides.
- A broker that answers by date is taken to clear its cursor on the last page, as the in-memory broker does.
- Time limits hold exactly: a run does not outlive its timeout, and a renewal is at most a stated lag late.

## Where the code does less than it seems to

Each of these is proved, with its exact condition or a concrete history.

- A sale can be priced at zero (`ExecutionPlanner.SellPricePositive`).
- The daily limit counts by the database's transaction time but is checked with the service clock: a trade stored before
  midnight and checked after it can exceed the limit, and nothing else can (`TradingTraces.DailyLimitExactly`,
  `OrderScenarios.MidnightBreaksLimit`).
- A crash after posting to the sandbox followed by a refusal leaves a broker order without a record
  (`OrderHistory.AfterCutPost`, `OrderScenarios.CrashOrphansAPost`).
- An order left planned by a cycle that failed blocks its side of its instrument, and later cycles fail on it, until it
  is executed itself (`OrderHistory.LeftOrderBlocksItsSide`, `TradingCycleProperties.LeftOrderFailsCycles`).
- Manual retry of a dead letter keeps its attempts, so it is never processed again; a worker's death in the last attempt
  ends an event the same way (`InboxProperties.WaysToGetStuck`, `InboxProperties.GetsStuckExactly`).
- An exception that escapes the claim of an event or the queueing of its job costs the event its job, until the next
  startup while it is pending and for good once it has failed. Nothing else does, except death before the first job is
  queued (`InboxProperties.JobKeptExactly`, `InboxProperties.EscapesForget`, `InboxProperties.ForgottenForever`).
- A reason added while a reconciliation job runs is deleted with the others when it ends
  (`Debounce.AddedDuringJobIsDropped`). Reasons gathered behind the flag of an aborted job are given to the next job only
  if that is queued before they expire themselves (`Debounce.SilentReasonsGiven`, `Debounce.SilentReasonLost`). A reason
  that comes when the flag has expired before its job puts a second job beside it (`Debounce.OneJobExactly`).
- The first synchronisations read a window that moves with the clock, and one that finds nothing stores no time. So a
  retry can keep more than a clean run would (`ReconciliationLimits.FirstSync`, `ReconciliationLimits.FirstSyncCanDiffer`),
  and an operation before the first window that stored a time is missed for good
  (`ReconciliationLimits.CoveredExactly`, `ReconciliationLimits.QuietAccountGap`). A window with more operations than
  the page bound admits is never read (`ReconciliationLimits.TooLongForever`).
- A deposit stored by an attempt that then fails is not among the results of any later success, so it never triggers a
  cycle of its kind (`ReconciliationLimits.ReportedOnlyOnce`).
- The correlation id of a reconciliation depends on the account only, so its row and its account-change event exist once
  (`ReconciliationProperties.EventsUnique`). The event-triggered automation run of each kind is named after that row and
  therefore runs at most once in the account's life: a second deposit starts no cycle
  (`EventTriggers.OneCyclePerTrigger`, `EventTriggers.LaterTriggersIgnored`).
- Mutual exclusion needs a time to live above the run timeout, which is not validated, and a stream whose renewing call
  raises works on without its lease (`TimedKey.ExclusiveExactly`, `TimedKey.TwoHolders`, `TimedKey.JoinedAdrift`).
- A finished run can still be marked failed while its lock is released (`AutomationProperties.OverwrittenExactly`), and a
  run that crashes before it is marked running stays pending (`AutomationProperties.LeftPendingExactly`), for ever unless
  it is delivered by its id (`AutomationProperties.PendingForever`).

Two smaller points are modelled as coded: a zero `max_weight` means no cap of its own, like an absent one, and the
branch for unsupported trade modes in the pipeline is reached only if order planning observes another mode than the
cycle did, because it raises otherwise.

## Model

| member | source | states |
|---|---|---|
| `PortfolioOptimizer.ValidateExact` | src/app/portfolio/optimizer.py:61-79 | validation accepts exactly the inputs the closed form is defined on: every bound of every asset and constraint, distinct uids, manual targets within the investable weight |
| `PortfolioOptimizer.FirstComplaint` | src/app/portfolio/optimizer.py:61-79 | validation reports an error if and only if it is the first, in the order of the checks, that the bounds, uids, prices, positions, scores or manual targets give cause for |
| `PortfolioOptimizer.HandOut` | src/app/portfolio/optimizer.py:36-53 | one round takes every uncapped asset from one water level exactly to the next, keeps all other weights, distributes the sum of the rises, and leaves for the next round exactly those still below their cap |
| `PortfolioOptimizer.PlaceManual` | src/app/portfolio/optimizer.py:21-28 | manual targets get min(target, cap), every other asset zero |
| `PortfolioOptimizer.Redistribute` | src/app/portfolio/optimizer.py:29-53 | the loop ends within as many rounds as there are candidates, never leaves by its two early exits, and stops at a water level: the budget is spent or every cap is full |
| `PortfolioOptimizer.Optimize` | src/app/portfolio/optimizer.py:14-59 | an error exactly when validation finds one; otherwise one target per asset in input order, filled to one water level, and what each asset is due by FilledFairly |
| `PortfolioOptimizer.FilledFairly` | src/app/portfolio/optimizer.py:20-59 | told from inputs and outputs alone: manual targets get the minimum of target and limits; an asset without one that may not be bought or has score 0 gets nothing; as long as a buyable one with a positive score is below its limits, cash_weight is min_cash_weight; and its weight per score is at least that of any other |
| `PortfolioOptimizer.LimitsRespected` | src/app/portfolio/optimizer.py:20-59 | every weight is between zero and its cap, the weights and cash_weight sum to one, and cash_weight is at least min_cash_weight |
| `WaterFilling.OrderFreeAndUnique` | src/app/portfolio/optimizer.py:28-59 | any two closed-form results for permuted asset lists give every asset the same weight; with equal lists, the result is unique |
| `WaterFilling.LargerReserveNeverRaisesAWeight` | src/app/portfolio/optimizer.py:20-59 | raising min_cash_weight never raises any weight and leaves manual targets as they are |
| `WaterFilling.EqualWeightPerScore` | src/app/portfolio/optimizer.py:41-49 | two candidates below their caps hold equal weight per unit of score |
| `WaterFilling.MaxMinFair` | src/app/portfolio/optimizer.py:28-53 | the result is max-min fair among all feasible allocations: giving one candidate more takes from another whose weight per score was no larger |
| `WaterFilling.CapsNotAllReached` | src/app/portfolio/optimizer.py:35-53 | a candidate left below its cap means the whole budget was handed out |
| `StableSort.SortedDescending` | src/app/portfolio/planner.py:27-31 | the ranking is descending in (priority, weight) |
| `StableSort.SortedPermutes` | src/app/portfolio/planner.py:27-31 | the ranking is a permutation of the targets |
| `StableSort.SortedStable` | src/app/portfolio/planner.py:27-31 | targets with equal keys keep their order |
| `StableSort.SortIsDetermined` | src/app/portfolio/planner.py:27-31 | descending order and stability determine the ranking completely |
| `PlanOutcomes.ServedByPriority` | src/app/portfolio/planner.py:27-31 | in a plan no allocation comes before one of higher priority, nor, at equal priority, before one of larger target weight |
| `RebalancePlanner.WholeLotsBounds` | src/app/portfolio/planner.py:50-66 | whole lots cost at most the amount, and one lot more would exceed it |
| `RebalancePlanner.AllocateOne` | src/app/portfolio/planner.py:32-84 | one pass of the loop body makes the decision of the specification and takes exactly a purchase's cost out of the cash |
| `RebalancePlanner.Plan` | src/app/portfolio/planner.py:14-85 | an error exactly for a non-positive portfolio value; otherwise the fold over the ranked targets from max(0, cash - reserve) |
| `PlanOutcomes.DecisionExactly` | src/app/portfolio/planner.py:32-85 | every decision of a plan, told from prices, weights and cash alone: bought, sold or held, for which reason, and how many lots, given what the decisions before it left of the cash above the reserve |
| `RebalanceProperties.CashConserved` | src/app/portfolio/planner.py:23-54 | the cost of all purchases plus unallocated_cash is max(0, cash - reserve), and unallocated_cash is not negative |
| `RebalanceProperties.EveryAllocationSound` | src/app/portfolio/planner.py:43-71 | no purchase passes its target, no sale goes below it or sells more than is held, and for every eligible underweight target one more lot would overshoot or cost more than the cash left at the end |
| `RebalanceProperties.PlanPermutesTargets` | src/app/portfolio/planner.py:25-85 | the plan decides every target exactly once |
| `RebalanceProperties.SharedRanksSharedAllocations` | src/app/portfolio/planner.py:27-54 | any two target lists whose rankings begin with the same targets give these the same allocations, whatever ranks below them |
| `RebalanceProperties.LowerRankNeverInterferes` | src/app/portfolio/planner.py:27-54 | in particular, adding a target changes no allocation that it does not outrank |
| `RebalanceProperties.LimitsSurvivePlanning` | src/app/portfolio/service.py:88-100 | for the optimizer's own targets: cash after all purchases stays at least min(cash, value * min_cash_weight), no bought position ends above its cap, no sale sells more than is held |
| `Settlement.SecondPlanNeverSells` | src/app/portfolio/service.py:93-100 | once a plan is carried out at its prices, planning again for the same targets never sells, whatever the cash is then |
| `Settlement.BuyOnlyPlanIsFinal` | src/app/portfolio/service.py:93-100 | after a plan without sales is carried out, planning again does nothing |
| `Settlement.ReplanningConverges` | src/app/portfolio/service.py:93-100 | from any start, the third plan is empty: planning and settling reaches a fixed point in two rounds |
| `Settlement.WorthConserved` | src/app/portfolio/planner.py:23-84 | carrying a plan out at its own prices conserves cash plus the value of the positions, so the portfolio value of the next plan is the same |
| `ExecutionPlanner.PlanOrders` | src/app/execution/planner.py:12-53 | fails with the first applicable error and otherwise makes one priced order per allocation, in order |
| `OrderPlanning.PlanningExactly` | src/app/execution/service.py:45-100 | told from plan, environment and stored rows alone: when nothing is stored; and otherwise that every allocation has its order, the one stored before or a new one of its instrument, side, lots, lot size, mode, status and price, and that nothing else changes |
| `ExecutionPlanner.LimitPriceOutward` | src/app/execution/planner.py:29-37 | a purchase is priced at or above, a sale at or below, the slippage-adjusted price, by less than a cent |
| `ExecutionPlanner.PlannedPricePassesGate` | src/app/execution/risk.py:29-32 | every limit price the planner makes passes the gate's slippage test at the price it was made for |
| `ExecutionPlanner.GateAfterMove` | src/app/execution/risk.py:29-32 | after the market moved, a purchase passes if the price did not fall and the two bands still meet, and is refused once it fell by more than a cent over 1 + slippage; a sale the other way round |
| `ExecutionPlanner.SellPricePositive` | src/app/execution/planner.py:29-37 | a sale's limit price is positive if and only if at least a cent is left after slippage |
| `ExecutionPlanner.SellPriceCanBeZero` | src/app/execution/planner.py:29-37 | a concrete price and slippage for which a sale is priced at zero |
| `ExecutionPlanner.KeysDistinct` | src/app/execution/planner.py:38-50 | one plan gives distinct idempotency keys if and only if no two of its allocations share instrument and side |
| `ExecutionPlanner.OverrunBounded` | src/app/execution/planner.py:26-53 | the total limit cost is at most (1 + slippage) times the market cost plus a cent per unit bought |
| `PlanToOrders.OrdersWithinBudget` | src/app/execution/service.py:64-100 | at unchanged prices the limit orders of a rebalance plan cost at most (1 + slippage) times the spent part of the cash above the reserve plus a cent per unit bought |
| `RiskManager.Evaluate` | src/app/execution/risk.py:8-54 | permitted exactly when none of the sixteen reasons applies; the reasons that apply are listed, each once, in the gate's order |
| `TradingGate.ExecuteExactly` | src/app/execution/service.py:102-116 | told from order, stored rows, environment and risk profile alone: a planned order without a trade is simulated at its worth if it meets the conditions of all sixteen checks, and rejected otherwise; nothing else changes |
| `TradingGate.ExecuteSandboxExactly` | src/app/execution/service.py:118-145 | in the same terms: with the broker configured, a planned order without an execution row is posted and, unless cut, recorded if it meets the conditions, and rejected otherwise |
| `TradingGate.ConfirmationExactly` | src/app/execution/service.py:235-283 | in the same terms: which manual orders approve and reject change, and into what |
| `RiskManager.SlippageBand` | src/app/execution/risk.py:29-32 | the gate accepts a limit price exactly if it is within the slippage band widened by one cent on either side |
| `OrderLifecycle.AlwaysConsistent` | src/app/execution/service.py:45-283 | after every sequence of calls, with any mode, kill-switch, risk-profile and price changes and crashes between them: SIMULATED iff a virtual trade exists (DRY_RUN only), SUBMITTED iff an execution order exists (SANDBOX only), one row per order, unique keys, manual orders only waiting, approved or rejected |
| `OrderHistory.RunExtends` | src/app/execution/repository.py:55-283 | orders keep their data, final statuses never change and the logs of trades, executions and posts only grow |
| `OrderHistory.TradedAtMostOnce` | src/app/execution/service.py:102-145 | an order is simulated or sent to the sandbox at most once, and never both |
| `OrderHistory.ManualNeverSent` | src/app/execution/service.py:235-283 | a manual-confirmation order never has a trade, an execution or a post to the broker |
| `OrderHistory.OneOrderIdPerOrder` | src/app/execution/service.py:133-145 | however often crashes repeat a post, the broker sees one order_id per planned order, and different ones for different orders |
| `OrderHistory.PostsRecorded` | src/app/execution/service.py:133-145 | in every run there are as many posts as execution rows plus calls cut between post and commit, and posts and rows match one to one if and only if no call was cut there |
| `OrderHistory.AfterCutPost` | src/app/execution/service.py:118-145 | after a cut post, whatever happens in between, the next call that completes on the order still planned records it if and only if the gate permits it then, and otherwise rejects it for good while the broker holds it |
| `OrderScenarios.CrashOrphansAPost` | src/app/execution/service.py:118-145 | a concrete run from the empty tables that leaves a broker order rejected and without an execution row, whatever follows |
| `OrderHistory.LeftOrderBlocksItsSide` | src/app/execution/repository.py:182-191 | an order left planned stops its side of its instrument: over any calls until it is executed itself, no other order of that side is simulated, posted or recorded |
| `OrderHistory.ExecutingReleases` | src/app/execution/service.py:102-145 | executing the order left behind, in whatever environment, ends its being planned and so the block |
| `OrderHistory.ReplanningAddsNothing` | src/app/execution/repository.py:55-104 | planning the same rebalance plan again adds no order, whatever happened between and under any other mode, price and slippage |
| `TradingTraces.CooldownKept` | src/app/execution/service.py:208-211 | in every run under one risk profile any two trades of an instrument, virtual or sandbox, are at least the cooldown minus the clock skew apart |
| `OrderScenarios.CooldownIsTight` | src/app/execution/service.py:208-211 | for every cooldown and every skew up to it, a concrete run whose two trades are exactly that far apart |
| `TradingTraces.TradeKeepsLimit` | src/app/execution/service.py:204-207 | the call that adds a trade keeps max_daily_trades on the day it is stored on if and only if it was checked on that day or before, or the day was not full yet |
| `TradingTraces.DailyLimitExactly` | src/app/execution/service.py:204-207 | in every run a UTC day keeps max_daily_trades if and only if no trade stored on it was checked on a later day when the day was full already |
| `TradingTraces.DailyLimitKept` | src/app/execution/repository.py:143-156 | in every run the trades stored on a UTC day exceed max_daily_trades by at most the number of calls stored on that day and checked on a later one |
| `TradingTraces.DailyNotionalBounded` | src/app/execution/risk.py:33-36 | in every run the simulated notional of a day is at most max_trade_amount times the limit plus the number of those late calls |
| `OrderScenarios.MidnightBreaksLimit` | src/app/execution/service.py:204-207 | a concrete run that stores two trades on one day under a limit of one, across midnight, one of them late |
| `TradingTraces.StepLogs` | src/app/execution/service.py:102-145 | a call adds at most one row to the two logs, and only past the daily, cooldown and amount checks |
| `ExecutionService.Service.PlanOrders` | src/app/execution/service.py:45-100 | has exactly the specified effect on the stored orders, succeeds exactly when the mode can plan, the plan has no error and its keys are free or stored once, and then returns the orders of the plan's items in order; changes nothing when it fails |
| `ExecutionService.Service.Execute` | src/app/execution/service.py:102-116 | has exactly the specified effect; a refusal lists exactly the reasons that apply; it returns the order's one trade, or fails and the order has none |
| `ExecutionService.Service.ExecuteSandbox` | src/app/execution/service.py:118-145 | has exactly the specified effect on tables and broker, with or without a crash after the post |
| `ExecutionService.Service.BuildRiskContext` | src/app/execution/service.py:147-218 | computes the context of the specification from the stored rows |
| `ExecutionService.Service.Approve` | src/app/execution/service.py:235-251 | approves exactly a waiting manual order in manual mode; otherwise nothing changes |
| `ExecutionService.Service.Reject` | src/app/execution/service.py:253-272 | rejects exactly a waiting or approved manual order in manual mode; otherwise nothing changes |
| `ExecutionService.ExecutionRepository.SaveOrders` | src/app/execution/repository.py:55-104 | adds one order per key not stored yet, all or none, and returns the order of every item |
| `ExecutionService.ExecutionRepository.CountTradesSince` | src/app/execution/repository.py:143-156 | counts virtual trades and execution orders since a moment |
| `ExecutionService.ExecutionRepository.LatestTradeTime` | src/app/execution/repository.py:158-180 | the latest time over both tables, if the instrument was traded at all |
| `ExecutionService.ExecutionRepository.HasDuplicateOrder` | src/app/execution/repository.py:182-191 | true exactly if another planned order of the same instrument and side is stored |
| `ExecutionService.LatestDecidesCooldown` | src/app/execution/service.py:208-211 | comparing the latest trade only decides the cooldown against all trades |
| `Operations.ClassificationUnambiguous` | src/app/streams/dto.py:21-46 | the lists of types do not overlap, so the order of the tests is irrelevant |
| `ReconciliationOutcomes.MeansExactly` | src/app/streams/dto.py:39-46 | an operation is classified as an event of a type if and only if its state is one of the two executed ones and its kind one of those spelled out for the type |
| `Operations.ReadOperations` | src/app/streams/reconciliation.py:140-162 | the paging loop reads exactly the pages of the specification, within the page bound |
| `Operations.ReadsWholeSuffix` | src/app/broker/mock.py:217-226 | while the list grows between pages: the reading is the list from the stored cursor to the end seen by the last page, once each and in order, and the cursor to store is cleared |
| `Operations.ReadGivesUp` | src/app/streams/reconciliation.py:149-162 | if every page within the bound leaves more, the reading fails |
| `Operations.ReadExactly` | src/app/streams/reconciliation.py:140-162 | on a list that stands still the reading succeeds if and only if the pages needed are within the bound, and then is the whole suffix |
| `ReconciliationEvents.NewEventsRecord` | src/app/streams/reconciliation.py:63-95 | after the loop every operation that calls for an event has it |
| `ReconciliationEvents.NewEventsAreNew` | src/app/streams/repository.py:306-333 | the loop adds only events of operations it read, none stored before, all different |
| `ReconciliationEvents.Resume` | src/app/streams/reconciliation.py:63-95 | a loop started again after the first k new events were stored stores exactly the remaining ones, in order |
| `ReconciliationEvents.ReconcileEffect` | src/app/streams/reconciliation.py:41-138 | what a run leaves whatever happens to it: a prefix of its events, and the new cursor and time only after all of them |
| `ReconciliationOutcomes.SucceedsExactly` | src/app/streams/reconciliation.py:140-162 | an attempt succeeds if and only if it meets no fault, reaches the broker, and no more operations of the log than a hundred per page lie in its window |
| `ReconciliationOutcomes.RecordsExactly` | src/app/streams/reconciliation.py:63-85 | after a success an operation's event of a type is stored if and only if it was before, or an executed operation of the window with that id is of a kind spelled out for the type |
| `ReconciliationOutcomes.ChangeRecordedExactly` | src/app/streams/reconciliation.py:96-106 | after a success the account-change event is stored if and only if it was before, or the attempt has a reason and its window shows no operation with a new event |
| `ReconciliationOutcomes.TimeExactly` | src/app/streams/repository.py:264-275 | after a success the time stored is the latest date of the window, or the old one if the window is empty |
| `ReconciliationProperties.CursorNeverAhead` | src/app/streams/repository.py:264-275 | over any history of successes, failures and crashes on a date-ordered append-only log, every deposit, withdrawal and trade dated from the first window that stored a time to strictly before the stored time has its event |
| `ReconciliationProperties.EventsUnique` | src/app/streams/repository.py:306-333 | no two events have the same fingerprint, so at most one per operation and type, and one account-change event in the account's life |
| `ReconciliationProperties.TimeNeverBack` | src/app/streams/repository.py:264-275 | with a broker that answers by date, last_operation_time never moves back |
| `ReconciliationProperties.ListingTimeNeverBack` | src/app/streams/repository.py:264-275 | with the listing broker it does not while the list only grows |
| `ReconciliationProperties.EventsOnlyGrow` | src/app/streams/repository.py:306-333 | stored events are never removed |
| `ReconciliationRetry.ExactlyOnce` | src/app/streams/reconciliation.py:52-138 | once the ledger has a time (always, with the listing broker), any sequence of failed, crashed or successful attempts followed by a success leaves the same operation events in the same order, and the same time, as one clean run |
| `ReconciliationLimits.FirstSync` | src/app/streams/reconciliation.py:146-148 | from any state and over attempts that end at any commit, the cursor's included: retrying loses nothing a clean run has, and agrees with it if and only if the attempts stored nothing outside the clean window and the last one reads nothing outside it |
| `ReconciliationLimits.FirstSyncCanDiffer` | src/app/streams/reconciliation.py:146-148 | a concrete crash and retry that keeps an event a clean run would not store |
| `ReconciliationLimits.CoveredExactly` | src/app/streams/repository.py:264-275 | with a dated broker, an operation dated before the first time stored has its event, then and after all later attempts, if and only if it was stored before or lies in the window of the attempt that stored the time |
| `ReconciliationLimits.MissedForGood` | src/app/streams/repository.py:264-275 | an operation dated before the stored time whose event is missing stays without it after any later attempts on the log |
| `ReconciliationLimits.QuietAccountGap` | src/app/streams/repository.py:270-274 | a success that finds nothing stores no time, so in a concrete history a deposit is missed, whatever is attempted later |
| `ReconciliationLimits.TooLongForever` | src/app/streams/reconciliation.py:149-162 | once what a run is to read exceeds the page bound, no later attempt ever succeeds or stores anything while the log grows: always with the listing broker, and with a dated one from the moment a time is stored, as its window then starts there for good |
| `ReconciliationLimits.ReportedOnlyOnce` | src/app/streams/reconciliation.py:85-106 | an event is reported by the one attempt that stored it, so a deposit stored by a failing attempt is never reported by a later success |
| `ReconciliationLimits.SuccessMarks` | src/app/streams/reconciliation.py:63-107 | after a success an operation's event is stored if and only if it was before or the operation was read |
| `ReconciliationLimits.RowTells` | src/app/streams/repository.py:277-304 | a success records what it read and created; a reused row keeps its first reasons, and a crashed later run leaves the row of the run before |
| `ReconciliationService.Reconcile` | src/app/streams/reconciliation.py:41-138 | the service over a database session reads the pages from its stored cursor and makes exactly the commits of the protocol, for every crash or failure point |
| `ReconciliationService.Attempt` | src/app/streams/reconciliation.py:41-162 | a delivery of the job, reading its window of the broker's log, is exactly an attempt of the protocol's histories |
| `ReconciliationService.StreamRepository.SaveAccountEvent` | src/app/streams/repository.py:306-333 | adds the event to the session exactly if its fingerprint is not stored |
| `ReconciliationService.StreamRepository.CommitCursor` | src/app/streams/repository.py:264-275 | stores the cursor and the latest operation date, the old date if nothing was read |
| `ReconciliationService.StreamRepository.CreateReconciliation` | src/app/streams/repository.py:277-304 | commits a new row, or returns the stored one without a commit |
| `InboxProperties.AlwaysValid` | src/app/streams/repository.py:38-173 | in every run attempts stay within the maximum, FAILED means fewer, DEAD_LETTER means all used, IGNORED only for kinds that lead to no reconciliation, and no broker event is stored twice |
| `InboxOutcomes.DeliveryExactly` | src/app/automation/worker.py:79-113 | a delivery in statuses, attempts and jobs alone, for each outcome: what becomes of the event, and whether its job stays, ends, or is followed by another |
| `InboxOutcomes.PersistExactly` | src/app/streams/repository.py:38-88 | a new event is pending, untried and, unless the process dies, queued; a known key changes nothing |
| `InboxOutcomes.RetryExactly` | src/app/api/streams.py:107-125 | a dead letter becomes pending with its attempts; anything else is left alone |
| `InboxOutcomes.StartupExactly` | src/app/automation/worker.py:136-149 | events in processing become pending, and every pending event gets one more job |
| `InboxOutcomes.CleanupExactly` | src/app/streams/repository.py:424-447 | a row is removed if and only if it is in the batch and was processed or ignored strictly before the given moment |
| `InboxProperties.StepFollows` | src/app/streams/repository.py:424-447 | attempts never decrease, and only processed or ignored events are ever removed |
| `InboxProperties.HandlerRunsBounded` | src/app/streams/repository.py:90-112 | the handler runs at most max times on an event, whatever crashes, recoveries, timeouts and manual retries happen |
| `InboxProperties.StuckForever` | src/app/streams/repository.py:98-105 | an event waiting or dead with all attempts used is never handled again, by anything that can happen |
| `InboxProperties.GetsStuckExactly` | src/app/streams/repository.py:133-158 | over all actions an event gets stuck if and only if its last attempt fails, it is timed out with all attempts used, or a startup finds it in processing in its last attempt |
| `InboxProperties.WaysToGetStuck` | src/app/api/streams.py:107-125 | manual retry leaves an event stuck if and only if it was, as every dead letter is; death in the handler and a startup make a claimable event stuck if and only if it was the last attempt |
| `InboxProperties.ServedExactly` | src/app/automation/worker.py:79-113 | one action: a claimable event keeps a job unless the action strands it (an exception escaping the claim or the queueing of its only job, or death before its first is queued); without one, only a startup while it is pending brings one |
| `InboxProperties.JobKeptExactly` | src/app/automation/worker.py:79-149 | in every run from the queue, with crashes, restarts, retries, timeouts and escaping exceptions anywhere, an event has a job whenever it can be claimed if and only if no action strands it |
| `InboxProperties.EscapesForget` | src/app/automation/worker.py:79-113 | a served event ends failed and without a job if and only if the action strands it after a failure: the claim of a failed event, or the queueing after one, raises |
| `InboxProperties.ForgottenForever` | src/app/automation/worker.py:136-149 | no later delivery, restart, manual retry or clean-up ever touches such an event |
| `InboxProperties.EveryEventHasItsJob` | src/app/automation/worker.py:79-113 | without crashes, restarts, manual retries and early timeouts it is exactly one job, each delivery costs one attempt, and max deliveries finish the event |
| `InboxProperties.EmptyQueueMeansFinished` | src/app/automation/worker.py:104-112 | when the queue has run dry, every stored event is finished |
| `InboxProperties.FinalChanges` | src/app/automation/worker.py:94-103 | a finished event is changed or removed if and only if clean-up takes it, a dead letter is retried by hand, or a processed one is timed out before a claim |
| `InboxProperties.CompletedRunsAgain` | src/app/automation/worker.py:94-112 | after a handler completed, a later delivery runs it again if and only if the timeout fired after its commit with attempts left |
| `InboxService.StreamInbox.PersistEvent` | src/app/streams/repository.py:38-88 | stores a new event exactly if its dedupe key is not stored, and queues its job unless the process dies before |
| `InboxService.StreamInbox.ClaimEvent` | src/app/streams/repository.py:90-112 | claims exactly a pending or failed event with attempts left, and counts the attempt |
| `InboxService.StreamInbox.CompleteEvent` | src/app/streams/repository.py:114-131 | marks the event processed, or ignored for kinds without a reconciliation |
| `InboxService.StreamInbox.FailEvent` | src/app/streams/repository.py:133-158 | marks the event failed, or dead if its attempts are used up |
| `InboxService.StreamInbox.RetryEvent` | src/app/streams/repository.py:160-173 | returns a dead letter, and nothing else, to pending without resetting its attempts, and queues its job unless the process dies before |
| `InboxService.StreamInbox.ProcessBrokerStreamEvent` | src/app/automation/worker.py:79-113 | a delivery, with its timeout and re-enqueue rule, is exactly a step of the inbox for every outcome |
| `InboxService.StreamInbox.Startup` | src/app/automation/worker.py:136-149 | returns every event in processing to pending and queues every pending event |
| `InboxService.StreamInbox.Cleanup` | src/app/streams/repository.py:424-447 | removes at most a batch of finished old rows, nothing else, and all of them if the batch is not full |
| `Debounce.NoLostWakeUp` | src/app/streams/processor.py:70-92 | a reason added while no job of its account runs is still in the set with exactly one queued job, or was given to a reconciliation that started after it was added |
| `Debounce.AddExactly` | src/app/streams/processor.py:79-92 | adding a reason sets a flag that does not stand, for its time to live, queues a job only then, and lets all reasons not run out yet live on for the whole time |
| `Debounce.JobIsGiven` | src/app/streams/processor.py:103-107 | the job is given the reasons that have not run out, or STREAM_RECONNECTED |
| `Debounce.AlwaysBalanced` | src/app/streams/processor.py:70-146 | a flag stands for exactly one job, queued or running, and for at least one reason |
| `Debounce.AddedDuringJobIsDropped` | src/app/streams/processor.py:141-141 | a reason added while a job of its account runs, as the stream listener or the API may do, is dropped when that job ends |
| `Debounce.AccountsIndependent` | src/app/streams/processor.py:79-81 | what happens to one account leaves the keys and jobs of every other alone |
| `Debounce.CrashSilences` | src/app/streams/processor.py:82-92 | over all actions, an account gets a flag without a job if and only if its job aborts or a caller dies between setting the flag and queueing |
| `Debounce.SilencedUntilExpiry` | src/app/streams/processor.py:82-92 | from then on no reason wakes the reconciliation until the flag expires |
| `Debounce.SilentReasonsGiven` | src/app/streams/processor.py:79-92 | the first reason after the flag's expiry queues a job again, which is given a reason gathered in silence if and only if it comes before the last add plus the reasons' own time to live |
| `Debounce.LostForGood` | src/app/streams/processor.py:82-83 | a reason no longer in the set is given to no later job unless it is added again |
| `Debounce.SilentReasonLost` | src/app/streams/processor.py:79-92 | a concrete run: the job aborts, both keys expire, and the next job is given only the new reason |
| `Debounce.LateJobIsDoubled` | src/app/streams/processor.py:81-92 | an action puts a second job beside a queued one if and only if it adds a reason after the flag has expired |
| `Debounce.OneJobExactly` | src/app/streams/processor.py:81-92 | in every run, crashes and expiries included, an account never has a second queued job if and only if no reason is added that late |
| `Debounce.Wakeups.ScheduleDebouncedReconciliation` | src/app/streams/processor.py:70-92 | sets the flag, adds the reason and queues a job exactly if the flag was not set |
| `Debounce.Wakeups.AddReason` | src/app/streams/processor.py:82-83 | adds the reason and renews the time to live of the whole set |
| `Debounce.Wakeups.StartReconciliationJob` | src/app/streams/processor.py:95-108 | the job is given the reasons in the set, or STREAM_RECONNECTED if there are none |
| `TimedKey.ExclusiveExactly` | src/app/automation/lock.py:25-33 | over all runs with crashes and stale owners at most one holder is at work, if and only if a holder's patience (the run timeout) is shorter than the time to live and no renewing call raises |
| `TimedKey.TwoHolders` | src/app/core/config.py:39-40 | with a run timeout of at least the time to live, which the configuration allows, a concrete run has two holders at work |
| `TimedKey.JoinedAdrift` | src/app/streams/supervisor.py:290-296 | a concrete run in which a renewing call raises: the loop ends, the stream works on without its lease, and a second holder joins it |
| `TimedKey.AdriftAloneUntilExpiry` | src/app/streams/supervisor.py:290-296 | until its key expires, a stream whose renewal raised is joined by no holder of the key |
| `TimedKey.RenewalsSucceed` | src/app/streams/supervisor.py:290-296 | if renewal interval plus lag is shorter than the time to live, the lease never expires under a holder that renews it, and every renewal that does not raise finds its own token |
| `TimedKey.OthersUntouched` | src/app/streams/lease.py:36-42 | no renewal or release ever changes a key held by another token |
| `TimedKey.SetExactly` | src/app/automation/lock.py:25-29 | the key is taken for the time to live from now if and only if nobody owns it at that moment |
| `TimedKey.OwnerOnly` | src/app/streams/lease.py:36-42 | renewing and releasing act exactly for the owner, on a key that has not run out |
| `TimedKey.CrashBlocksUntilExpiry` | src/app/streams/lease.py:31-34 | after a crash the key can be acquired again exactly from its expiry on |
| `TimedKey.RedisKey.Acquire` | src/app/automation/lock.py:25-29 | takes the key exactly if it is free or expired |
| `TimedKey.RedisKey.Renew` | src/app/streams/lease.py:36-39 | extends the key exactly for its owner |
| `TimedKey.RedisKey.Release` | src/app/streams/lease.py:41-42 | deletes the key exactly for its owner |
| `AutomationProperties.StepsIncrease` | src/app/automation/service.py:93-250 | within one delivery current_step is strictly increasing |
| `AutomationProperties.PathsExactly` | src/app/automation/service.py:93-232 | the commits of every path of a cycle, listed: by mode, kill switch, lock and market |
| `AutomationProperties.FullCycleTakesEveryStep` | src/app/automation/service.py:130-202 | a cycle that executes orders takes every step, each once and in the order of the enumeration |
| `AutomationProperties.SucceedsExactly` | src/app/automation/service.py:93-232 | a delivered run ends SUCCEEDED if and only if the mode is not OFF, the kill switch off, the lock free, the mode SIGNAL_ONLY or the market closed or the mode one of the three that plan orders, nothing failed and nothing was cut |
| `AutomationProperties.OverwrittenExactly` | src/app/automation/service.py:60-76 | a terminal status is overwritten by FAILED within its own delivery if and only if the exception or timeout comes after the last commit |
| `AutomationProperties.AlwaysValid` | src/app/automation/repository.py:49-84 | one run per correlation id, SUCCEEDED implies step COMPLETED, and a pending run has not taken a pipeline step |
| `AutomationProperties.EnteredAtMostOnce` | src/app/automation/service.py:78-128 | the pipeline is entered at most once per correlation id, over any deliveries, crashes and recoveries |
| `AutomationProperties.DuplicatesIgnored` | src/app/automation/repository.py:49-84 | once a correlation id is known it stays known, and every later delivery without a run id is ignored |
| `AutomationProperties.TerminalAbsorbing` | src/app/automation/service.py:52-58 | a terminal run is never changed by a later delivery or recovery |
| `AutomationProperties.CommitExactly` | src/app/automation/repository.py:86-190 | what each commit of a run writes: status, step and heartbeat |
| `AutomationProperties.RecoveryExactly` | src/app/automation/repository.py:219-242 | recovery fails exactly the running runs with a heartbeat before the threshold, and leaves every other |
| `AutomationProperties.RequestExactly` | src/app/api/automation.py:53-85 | a request adds a pending run for a new id, failed at once if its job cannot be queued, and nothing for a known one |
| `AutomationProperties.TakesBackExactly` | src/app/automation/service.py:81-97 | a delivery takes the step of its run back at some commit if and only if the run stands pending at ACCOUNT_SYNC and the delivery makes a commit |
| `AutomationProperties.StepBackExactly` | src/app/automation/service.py:81-110 | over all actions a stored run's step ends further back if and only if a delivery names it while it is pending at ACCOUNT_SYNC and then ends or dies within the safety check |
| `AutomationProperties.PendingForever` | src/app/automation/service.py:86-91 | a run still pending is never changed by deliveries that do not name its id, nor by recovery |
| `AutomationProperties.LeftPendingExactly` | src/app/automation/service.py:96-125 | a delivered run is left pending if and only if its worker dies before the commit that marks it as running or skips it: the second, third or fourth, depending on mode, kill switch and lock |
| `TradingCycleProperties.MovesFollowScript` | src/app/automation/service.py:93-202 | the commits among a cycle's moves are exactly those of the run table's script |
| `TradingCycleProperties.CycleSucceedsExactly` | src/app/automation/service.py:52-76 | with its orders, a delivered cycle ends SUCCEEDED if and only if mode, kill switch, lock and market let it act, neither order planning nor any order raised, and it was cut nowhere before its end |
| `CycleOutcomes.TradingSucceedsExactly` | src/app/automation/service.py:154-202 | a cycle in DRY_RUN, SANDBOX or manual mode with an open market succeeds if and only if it is not cut, its orders can be planned, and in the end every allocation has its order traded, recorded with the broker configured, or waiting |
| `TradingCycleProperties.HistoryRefines` | src/app/automation/service.py:52-91 | forgetting the orders, every history of cycles with refusals, crashes and failures is a history of the run table, so all that is proved of those holds here |
| `TradingCycleProperties.SucceededIsSettled` | src/app/automation/service.py:155-202 | in every history, a SUCCEEDED run that executed its plan has settled it: every allocation has a stored order, with a virtual trade in DRY_RUN, an execution row in SANDBOX, and in manual mode as a manual order |
| `TradingCycleProperties.SettledForGood` | src/app/automation/service.py:155-202 | and whatever follows, the run, its plan and those orders stay so |
| `CycleScenarios.CycleTradesItsPlan` | src/app/automation/service.py:155-202 | a concrete history from nothing whose DRY_RUN run is SUCCEEDED with a plan, an order and its virtual trade |
| `CycleScenarios.ManualCycleWaits` | src/app/automation/service.py:182-202 | a concrete manual-confirmation history whose run is SUCCEEDED at COMPLETED with its order waiting |
| `TradingCycleProperties.LeftOrderFailsCycles` | src/app/automation/service.py:174-181 | a cycle that is to trade, under a plan of its own, a side on which another plan left an order planned does not succeed while the market is open |
| `EventTriggers.OneCyclePerTrigger` | src/app/streams/processor.py:108-132 | over all histories of reconciliations of all accounts, queued and redelivered jobs and other runs, an account's events take at most one cycle per trigger into the pipeline, in its whole life |
| `TriggerOutcomes.QueuedExactly` | src/app/streams/processor.py:113-132 | the job a reconciliation queues, told from log and stored rows: none without a success and something new; DEPOSIT_DETECTED if a new deposit is among it, ACCOUNT_CHANGE otherwise; named after the account's row |
| `EventTriggers.QueueExactly` | src/app/streams/processor.py:113-132 | an id is queued if and only if a reconciliation that gets there queues it, and leaves the queue only when worked |
| `EventTriggers.JobStartsRunExactly` | src/app/streams/processor.py:120-132 | working an event job changes the runs if and only if it is queued and its id has no run yet |
| `EventTriggers.LaterTriggersIgnored` | src/app/streams/processor.py:120-132 | once a run of an account's trigger exists, every later event of that kind queues the same id again, and its job changes no run |
| `TriggerScenarios.DepositStartsItsCycle` | src/app/streams/processor.py:108-132 | a concrete history in which a deposit takes its one cycle into the pipeline |
| `EventTriggers.OneAccountPerId` | src/app/streams/processor.py:120-125 | no two accounts share an event-triggered correlation id |
| `EventTriggers.RunKeepsRows` | src/app/streams/repository.py:277-304 | an account's reconciliations share one row with one id for ever, different from every other account's, and every queued id names such a row |
| `AutomationService.AutomationCycleService.Run` | src/app/automation/service.py:52-91 | a delivery changes run table, columns, orders and broker exactly as the specification says, for every path, refusal, crash and failure point |
| `AutomationService.AutomationCycleService.RunGuarded` | src/app/automation/service.py:93-128 | makes the cycle's moves in order, all of them or up to the interruption or the first call that raises |
| `AutomationService.AutomationCycleService.RunPipeline` | src/app/automation/service.py:130-153 | continues the moves through the pipeline, ending early in SIGNAL_ONLY and when the market is closed |
| `AutomationService.AutomationCycleService.RunExecution` | src/app/automation/service.py:154-202 | plans the orders, executes them as the mode says, and succeeds; an unsupported mode is skipped |
| `AutomationService.AutomationCycleService.CheckWaiting` | src/app/automation/service.py:182-184 | raises exactly if an order of the plan is not waiting for confirmation |
| `AutomationService.AutomationRepository.Create` | src/app/automation/repository.py:49-84 | adds a pending run exactly for a new correlation id, or returns the stored one |
| `AutomationService.AutomationRepository.RecoverStale` | src/app/automation/repository.py:219-242 | fails exactly the running runs with a heartbeat before the threshold |
| `AutomationService.AutomationCycleService.ExecuteOrders` | src/app/automation/service.py:174-181 | executes the plan's orders one by one and stops at the first that is refused or cut, in SANDBOX possibly after its post |
| `SignalProperties.UnitsDoNotMatter` | src/app/signals/engine.py:29-92 | scaling every close by k > 0 and every volume by j > 0 changes nothing but the reported price, errors included |
| `SignalProperties.OrderDoesNotMatter` | src/app/signals/engine.py:32-32 | if the complete candles have distinct times, the order of all candles is irrelevant |
| `SignalProperties.FinalBetween` | src/app/signals/engine.py:66-71 | the final score lies between 0.5 and the directional score, so the last clamp never acts |
| `SignalProperties.RecommendationFollowsDirection` | src/app/signals/engine.py:94-102 | BUY implies directional >= threshold and SELL implies directional <= 1 - threshold |
| `SignalProperties.FlatMarketHolds` | src/app/signals/engine.py:48-72 | where neither price nor volume moves every feature is neutral or calm and the signal is HOLD |
| `SignalOutcomes.StepSignal` | src/app/signals/engine.py:29-102 | for every market of three price levels and two volumes: trend, moving average, volatility, volume, drawdown and final score to six decimals, and the recommendation, from the five numbers |
| `SignalOutcomes.FailsExactly` | src/app/signals/engine.py:29-42 | there is no signal if and only if the threshold is outside (0.5, 1], fewer than twenty candles are complete, or a complete one has a price of at most 0 or a negative volume |
| `SignalProperties.ScoreInRange` | src/app/signals/engine.py:18-19 | a stored score is in [0, 1] and within half a unit of its sixth decimal |

## Left out

- Routes, schemas, security, health checks, the frontend, migrations and seed data.
- The T-Invest adapter, Telegram, and the inner workings of ARQ, Redis and SQLAlchemy: job results kept under a job id,
  redelivery of a dead worker's job, isolation levels and row locks.
- Hash functions, payload sanitising and JSON text.
- Retry, reconnect and deferral delays, jitter, audit rows, notifications and reason texts.
- 28-digit `Decimal` rounding and floating-point error.
- Admin updates of profiles and watchlists, and the reading of positions and signals that fills the optimizer's input.
- Concurrent `execute` calls, and calls from outside while a cycle runs: trading histories are serial.
- Growth of the broker's log between the pages of one reconciliation (`Operations.ReadsWholeSuffix` covers it for the
  reading alone).
- A worker that dies in the middle of its startup, between the recovery of events and the last job it queues.
- The steps of scheduling a wake-up interleaved one by one with a running job: the flag, the reason and the job are one
  step, except for a caller that dies after the flag.
- The making of signals and plan inside a cycle, and commits of audit entries after order planning and execution: the
  plan is an input of the delivery, and a failure between two moves leaves the row where the last one put it.
- The run's counters, error texts and metadata, except for the mark of a skipped execution; and column assignments that
  only the commit of a failure stores.
- The cycle lock inside a run: whether it was free is an input of the cycle, and `TimedKey` proves what holding it means.
- Stream state rows, watchdogs and heartbeats.
- Complete candles with equal times: which of them counts as the last then depends on their order.
