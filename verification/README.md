# Order, fill and position accounting of a trading runtime, in Dafny

This project models the accounting core of a multi-venue trading runtime: the execution manager and its order lists,
the indexed order and fill cache, the portfolio's position and profit reducer, the account reconciler, and the
schedulers, matchers and triggers around them. Each component is modelled in the form its code has. Objects that update
their fields are classes whose methods are proved against functions on values; loops are loops with invariants; pure
helpers are functions. What the components promise over whole runs is proved as lemmas about those functions.

`dafny verify dfyconfig.toml` checks everything.

## How things are represented

- An identifier is a natural number: its rank among the strings in use, so `<` is the string order and `NO_ID` is the
  empty string. An instrument is identified by its printed form, which is also its netting position id.
- Decimals are `real`; times are `int`. Division is exact except where rounding is the subject, where it is any
  operator within `eps` of the quotient.
- A map per account inside an index is one map whose keys are pairs of an account and an id.
- A mutex section is one atomic method.
- Decisions made outside the model arrive as parameters: whether balances can take a fill (`funded`), the fill model
  (`accepts`), how many matches were applied before an error (`applied`), the timer handler, cached market events, price
  ticks (at each command), clock readings, and the outcome of field checks that nothing here reads (`accepted`).
- Overfills are not allowed, which is the manager's default configuration.

## Files

| file | content |
|---|---|
| Model.dfy, Sorting.dfy | entities, and the sort helpers by increasing rank |
| OrderCache.dfy, Fills.dfy | the order cache with its six indexes, and the fill cache |
| ExecutionManager.dfy, Manager.dfy | reports and fills in any arrival order: as functions, and as an object that refines them |
| MissingFills.dfy | repair from a venue's fill reports |
| OrderLists.dfy, OrderListManager.dfy, Exposure.dfy | contingent lists, their manager, and the exposure of one-updates-the-other legs |
| Positions.dfy, Portfolio.dfy | the two position reducers, profit over any run, and the memo |
| AccountReconciler.dfy, OrderStates.dfy | the second fill reducer, and the order statuses as it sees them |
| Agreement.dfy, PositionRepair.dfy | the two reducers side by side, and repair of positions within a budget |
| Matching.dfy, Timers.dfy | book matching and the timer loop of the backtest |
| Emulation.dfy, Trailing.dfy, Releases.dfy, Emulator.dfy | emulated orders: one step, whole runs, when each type is released and as what, and the object |
| RateLimiter.dfy, Bars.dfy | the sliding-window limiter and the bar aggregator |

## Where the code falls short of a general claim

Each of these is a pair of theorems: one at an input or run that shows the failure, and one that gives the exact
condition under which the claim holds.

- Ahead of its order's report, a fill can go elsewhere for good. A leg fill is stored and never applied
  (`ExecutionManager.EarlyLegIsMissed`). A fill that names the order by client id alone, under another order id, is
  deferred under that id and never replayed (`ExecutionManager.StrayWaits`, at an input `ExecutionManager.StrayIsLost`).
  A fill that carries the client id of another known order fills that order (`ExecutionManager.EarlyFillsOther`). The
  arrival order is immaterial if and only if no fill is of these three kinds (`ExecutionManager.ArrivalOrder`).
- A fill that crosses a cancel is stored whatever the status of its leg, so the legs of a one-updates-the-other list can
  fill twice their quantity (`Exposure.LateFillExceeds`). Over every run they stay within it if and only if no fill takes
  more than is left of it (`Exposure.ExposureFits`). A fill of an open leg never does (`Exposure.ExposureBounded`); once
  the quantity is filled, every fill of a leg that completion has closed does (`Exposure.ExposureIff`), and on a leg
  closed from outside it depends on what is left (`Exposure.LateFillIff`).
- A call that writes a position without dropping its memo leaves a stale profit behind: a fill the balances cannot take
  (`Portfolios.UnfundedFillGoesStale`), or a fill given a position in another instrument, which even succeeds
  (`Portfolios.ForeignPositionGoesStale`). A call keeps the memo coherent if and only if it drops that memo, or there is
  none, or the old and the new position are worth the same at the mark (`Portfolios.PerformCoherentIff`,
  `Portfolios.MemoCoherent`); for an unfunded fill that means a mark at the fill price when it adds to the position and at
  the entry price when it takes away (`Portfolios.UnfundedFillIff`).
- An order submitted again under a key that still has an extreme trails from a price it never saw
  (`Trailing.ResubmissionKeepsExtreme`) and can be released although nothing crossed
  (`Trailing.ResubmissionReleasesWrongly`). It is taken in rightly if and only if its first price activates it and is at
  least as good as the extreme (`Trailing.ReplacementTrails`).
- A sell stop that trails by more than 10000 basis points moves its trigger down as the market rises
  (`Trailing.TriggerMovesBack`), and one that trails by a tick that was not known moves its trigger to its level once it
  is (`Trailing.TriggerFallsToLevel`). While there is no extreme or the offset cannot be priced, the trigger stays. When
  it first hangs on the extreme, it moves backwards if and only if its level is behind it; from then on, if and only if a
  sell trails by more than 10000 basis points and the extreme rises, or a growing tick outweighs the better price
  (`Trailing.TriggerRatchets`).
- A cached position recognised by its venue id alone is repaired beside its place, and again by the next call
  (`PositionRepair.VenueMatchRepeats`, for all inputs with budget left `PositionRepair.SidelinedAgain`). A repair lands in
  place if and only if the position is not of that kind (`PositionRepair.RepairInPlaceIff`), and with room for a further
  attempt a rerun generates nothing if and only if no repaired position is (`PositionRepair.RerunIff`).
- The execution manager and the account reconciler part on a report that takes a partly filled order back to Accepted
  (`Agreement.BackToAcceptedParts`), on one that reports it partly filled with nothing filled (`Agreement.UnfillParts`),
  and on a fill that only the client id leads to the order (`Agreement.StrayFillParts`). Over any run of an order's fills
  and of reports that add no filled quantity they agree all along if and only if every report either repeats the filled
  quantity and is treated alike by the two status rules, or is refused by both because the order is over
  (`Agreement.AgreeIff`, `Agreement.AgreeBehindOpening`).

## Model

| member | source | states |
|---|---|---|
| Model.FillValidIff | model/order.go:588-606 | a fill is valid exactly with an account, a trade, an instrument, an order unless it is a leg, a positive price and quantity, and no negative fee |
| Model.OrderValidIff | model/order.go:534-562 | an order is valid exactly with its ids and a status, no negative quantity, and no more filled than a known quantity |
| Model.PositionValidIff | model/order.go:633-647 | a position is valid exactly with its ids and no negative entry price |
| OrderCache.Normalize | cache/indexes.go:10-21 | a Filled order has nothing left and, without a filled quantity of its own, its whole quantity filled; an open order without leaves gets what is not filled; nothing else changes |
| OrderCache.Cache.PutOrder | cache/orders.go:9-53 | a valid report replaces its order and displaces every other order of the account holding its client or venue id; all six indexes stay equal to a scan; an invalid report changes nothing |
| OrderCache.Cache.Evict | cache/orders.go:28-43 | exactly the orders that share the alias leave, and the indexes stay exact for the rest |
| OrderCache.Indexes.AddExact | cache/indexes.go:23-28 | indexing a new order whose aliases are free keeps all indexes equal to a scan |
| OrderCache.Indexes.RemoveExact | cache/indexes.go:30-41 | unindexing an order leaves the indexes equal to a scan of the others |
| OrderCache.AddGroupExact | cache/indexes.go:43-55 | adding to a grouping index keeps both directions of exactness |
| OrderCache.RemoveGroupExact | cache/indexes.go:57-66 | removing keeps both directions of exactness and leaves no empty group |
| OrderCache.ExactIsScan | cache/orders.go:128-150 | an exact index has a group exactly when a scan finds a member, and then the same members |
| OrderCache.AliasesUnique | cache/orders.go:28-49 | no two orders of an account share a non-empty client or venue id |
| OrderCache.Cache.Lookup | cache/orders.go:65-85 | lookup by client or venue id finds an order if and only if a scan does |
| OrderCache.Cache.WithAttribute | cache/orders.go:128-150 | lookup by strategy, position, list or spawn id gives exactly the orders a scan gives, by increasing order id, and none for the empty id |
| OrderCache.OrdersById | cache/indexes.go:93-102 | exactly the known orders of an id set, sorted by id |
| OrderCache.ClosedOrdersToPurge | cache/snapshots.go:171-191 | distinct closed orders, all but `keep` of the ended orders, each updated before every one that is kept or, at the same time, with the smaller id |
| OrderCache.Cache.Purge | cache/snapshots.go:71-102 | removes exactly those orders, so never an open one, counts them, and keeps the indexes exact |
| OrderCache.Cache.InconsistentOrderMappings | cache/snapshots.go:138-147 | is zero in every state the cache can reach |
| Fills.FillCache.PutFill | cache/fills.go:5-35 | stores a valid fill once per order and trade and indexes its trade id |
| Fills.FillCache.PutDeferredFill | cache/fills.go:66-83 | defers a valid fill once under its order |
| Fills.FillCache.ClearDeferredFillsForOrder | cache/fills.go:96-100 | forgets the deferred fills of one order and nothing else |
| Fills.FillBook.PutExact | cache/fills.go:11-35 | the trade-id index keeps covering exactly the stored fills |
| Fills.SortFills | cache/indexes.go:121-128 | lists a set of fills by time and then trade id |
| Fills.ChronologicalUnique | cache/indexes.go:121-128 | such a listing is unique, so the iteration order of a map does not matter |
| Managers.Manager.ApplyFill | execution/manager.go:169-214 | refines the fill step on every branch: invalid, known trade, deferred, leg, overfill, applied; an error leaves orders and fills as they were |
| Managers.Manager.ReplayDeferredFills | execution/manager.go:216-228 | applies the deferred fills in chronological order up to the first error, and clears them if there is none |
| Managers.Manager.ApplyOrderReport | execution/manager.go:154-167 | refines the report step, with its transition check and replay; an inadmissible report is an error and changes nothing, any other one leaves its order in the cache |
| ExecutionManager.FillRefusedIff | execution/manager.go:169-194 | a fill is refused exactly if it is invalid or a new trade that would take a known quantity past itself, and then nothing has changed |
| ExecutionManager.FillOfKnown | execution/manager.go:190-214 | any other new fill of a known order is stored and indexed, adds its quantity and its value to the order, completes it when nothing is left, stamps it with its time, and touches nothing else |
| ExecutionManager.FillOfUnknown | execution/manager.go:172-189 | a known trade changes nothing; without an order a leg fill is stored and any other one waits, once |
| ExecutionManager.ReportAdmitted | execution/manager.go:154-167 | a report is refused without effect if it is invalid or gives an ended order another status; else, with no fills waiting, it takes the order's place |
| ExecutionManager.ReportKeepsOrder | execution/manager.go:216-228 | whatever becomes of the waiting fills the order is cached; they wait on if one is refused and are done with if none is |
| ExecutionManager.AverageCanonical | execution/manager.go:546-556 | the running average price is the volume-weighted average of the distinct fills |
| ExecutionManager.CanonicalStep | execution/manager.go:190-213 | one more distinct fill takes filled, leaves, average and status from what some fills describe to what they and the fill describe, without overfilling |
| ExecutionManager.RunSettles | execution/manager.go:154-228 | every interleaving of an opening report with fills that carry the order's id, and duplicates, ends without error, with every trade stored, none deferred, and all applied but the leg fills that came too early |
| ExecutionManager.RunCanonical | execution/manager.go:154-228 | the order then is a function of the report and the set of applied trades |
| ExecutionManager.EarlyLegIsMissed | execution/manager.go:180-185 | a leg fill before its order ends differently from the same fill after it |
| ExecutionManager.LateCanonical | execution/manager.go:169-214 | behind the report every fill reaches the order, whether its order id or its client id leads there |
| ExecutionManager.EarlyIsMissed | execution/manager.go:176-189 | ahead of the report a leg fill, one under another order id, or one with the client id of another order does not, so the two ends differ |
| ExecutionManager.EarlyFillsOther | execution/manager.go:177-179 | the last kind fills the order that its client id names |
| ExecutionManager.StrayWaits | execution/manager.go:186-189 | the second kind is deferred under its own order id, and the report leaves it there |
| ExecutionManager.StrayIsLost | execution/manager.go:176-189 | one fill that counts behind the report and is lost ahead of it |
| ExecutionManager.ArrivalOrder | execution/manager.go:154-228 | all interleavings end alike if and only if every trade carries the order's id and none is a leg fill or carries the client id of another known order |
| MissingFills.ReconcileFill | execution/reconciliation.go:157-193 | one report: refused, too old, duplicate, applied or deferred, and counted accordingly |
| MissingFills.ReconcileMissingFills | execution/reconciliation.go:149-197 | on success the scanned reports are the sum of the four counters and every report not too old is recorded; each counter is the number of what it names |
| MissingFills.RepairTells | execution/reconciliation.go:149-197 | scanned is the number of reports, lookback of those too old, applied of the trades newly stored, deferred of the fills newly waiting |
| MissingFills.ApplyRecords | execution/manager.go:169-214 | a fill not recorded before is recorded by a step without error, and the trade index stays exact |
| MissingFills.RepairAccounts | execution/reconciliation.go:157-193 | the accounting holds over any list of reports from any exact cache |
| MissingFills.RepairIdempotent | execution/reconciliation.go:174-193 | a rerun with the same reports applies and defers nothing and leaves the cache unchanged |
| ListManagers.ListManager.IndexOrderList | execution/manager.go:255-273 | a valid list appends its members and files its children under their parents; an invalid one changes nothing |
| ListManagers.ListManager.HandleOuoProgress | execution/manager.go:441-487 | moves the watermark and asks each cached open sibling for a cut by the same amount; no progress, no actions |
| ListManagers.ListManager.OrderListStatus | execution/manager.go:275-330 | a known list is open exactly when it holds a child or one of its cached orders is open, closed exactly when it is not open and one is terminal |
| ListManagers.ListManager.CleanupClosedOrderList | execution/manager.go:499-537 | forgets held children and watermarks of a closed list, and nothing otherwise |
| ListManagers.ListManager.HandleOrderListProgress | execution/manager.go:385-439 | refines discard, resize, release, cancel and cleanup, in that order; an order that is neither filled nor of a one-updates-the-other list asks nothing |
| OrderLists.AsksNothing | execution/manager.go:405-423 | unless it is filled only a one-updates-the-other order asks anything; outside a list, or in one of another kind, an order cancels and resizes nothing; nor does one that has filled no more than before |
| OrderLists.OuoCutsTheOthers | execution/manager.go:456-486 | a one-updates-the-other order that has filled more cancels exactly its cached open fellows that are left nothing to fill and resizes exactly the others, by what it filled |
| OrderLists.MarksFollow | execution/manager.go:445-454 | a watermark follows its order's filled quantity upwards and goes when its list closes; no report touches the members |
| OrderLists.IndexedInOrder | execution/manager.go:255-273 | indexing appends members to their list and children to their parents in the order of the list |
| OrderLists.CleanupKeepsHeld | execution/manager.go:489-528 | cleanup never drops a held child, because a closed list holds none |
| OrderLists.ProgressHeld | execution/manager.go:397-419 | a report removes only the held children of an order that ended, and hands them over exactly when it filled |
| OrderLists.ChildrenConserved | execution/manager.go:255-273 | over any run of lists and reports a child is waiting, released or discarded as often in all as it was indexed, and the released and discarded counts never go down |
| OrderLists.GoneForGood | execution/manager.go:385-419 | a child indexed once is in exactly one of the three places, and once it has left it never moves again |
| OrderLists.ReleaseNeedsFill | execution/manager.go:409-419 | a child is released only by its own parent's fill, only if it was waiting, and is not waiting afterwards |
| OrderLists.OcoCancelsTheOthers | execution/manager.go:420-438 | a filled order of a one-cancels-the-other list cancels exactly the other cached open members |
| Exposure.CutsAlike | execution/manager.go:456-486 | legs with the same part left are all cancelled or all resized by a fill |
| Exposure.CarryOutTrims | model/order.go:410-427 | carrying out the actions changes the other open legs and no other order |
| Exposure.ApartProgress | execution/manager.go:385-439 | progress of an order outside the list, and the actions it leads to, leave the legs, their watermarks and the members alone |
| Exposure.FillRoundBounded | execution/manager.go:169-214 | a fill of an open leg adds to the total, which stays within the quantity; one of another order, or a refused or repeated one, leaves it |
| Exposure.ReplayIdle | execution/manager.go:445-451 | replayed progress of a leg resizes and cancels nothing, in any state of the list, open or cleaned up |
| Exposure.EndIsStored | execution/manager.go:154-167 | a report that ends a leg takes its place in the cache |
| Exposure.EndBounded | execution/manager.go:385-439 | a leg that is cancelled, rejected or expires from outside leaves the others balanced against what is left, and asks nothing of them |
| Exposure.ExposureBounded | execution/manager.go:441-487 | over any run of fills of legs and of orders outside the list, of legs closed from outside and of replayed reports, in which no fill hits a closed leg, legs of quantity Q together never fill more than Q |
| Exposure.ExposureFits | execution/manager.go:169-214 | over every such run, with fills of closed legs too, the total stays within Q all along if and only if each fill takes at most what is left |
| Exposure.ExposureIff | execution/manager.go:169-214 | when fills may hit legs that completion has closed, the total stays within Q all along if and only if none does |
| Exposure.LateFillIff | execution/manager.go:190-214 | a stored fill of a leg keeps the total within Q if and only if that much is left, and nothing is once Q is filled |
| Exposure.LateFillDoubles | execution/manager.go:190-214 | after a leg has completed, a fill that still reaches another leg is stored and takes the total past Q |
| Exposure.LateFillExceeds | execution/manager.go:190-214 | a fresh list of two legs and two fills after which they have filled more than Q |
| Exposure.CompletionCloses | execution/manager.go:456-474 | when a leg completes, the total is exactly Q and no leg stays open |
| Exposure.CompletionCancels | execution/manager.go:465-474 | and every other open leg is told to cancel |
| Positions.FlatOrClosing | portfolio/portfolio.go:841-855 | opening, reducing, closing and flipping keep profit minus cost plus money moved exactly |
| Positions.ChangeBounded | portfolio/portfolio.go:841-855 | a fill changes that by at most the rounding of the division times the averaged size, and not at all if it does not average |
| Positions.AveragingError | portfolio/portfolio.go:845-849 | the error of one averaging is the error of the division scaled by the new size |
| Positions.Drift | portfolio/portfolio.go:824-865 | after any run the residual is at most the rounding times the sum of the averaged sizes |
| Positions.MarkToMarket | portfolio/portfolio.go:885-905 | with exact division, realized plus unrealized profit is the money received plus position times mark |
| Positions.UnrealizedIsGain | portfolio/portfolio.go:314-327 | unrealized profit is the value of the position at the mark minus its cost |
| Positions.ReducersAgree | backtest/runner.go:2159-2196 | the backtest and portfolio reducers agree on side and quantity after any run, and on entry while open; flat exactly when the quantity is zero |
| Positions.EntryWithinSegment | portfolio/portfolio.go:841-855 | the entry price lies within the fill prices since the position was last opened or flipped |
| Portfolios.PostReflects | portfolio/portfolio.go:141-189 | after any run of netting fills the ledger holds, per account and instrument, what its own distinct fills alone would give |
| Portfolios.PortfolioMarkToMarket | portfolio/portfolio.go:170-189 | the mark-to-market identity for every account and instrument of the portfolio, over any run with flips and duplicates |
| Portfolios.PortfolioDrift | portfolio/portfolio.go:170-189 | the drift bound for the same runs with a rounding division |
| Portfolios.Portfolio.ApplyFill | portfolio/portfolio.go:141-156 | refines the fill call, and keeps a coherent memo coherent if and only if the call is harmless |
| Portfolios.Portfolio.ApplyFillWithPosition | portfolio/portfolio.go:158-168 | refines the fill call with a given position, and keeps the memo coherent if and only if the call is harmless |
| Portfolios.Portfolio.ApplyFillAccounting | portfolio/portfolio.go:170-189 | a known fill changes nothing; a new one is marked and realized even when the position or the balances then fail |
| Portfolios.Portfolio.PutPosition | portfolio/portfolio.go:213-224 | files a valid position, drops its memo, and marks it at entry if it has no positive mark |
| Portfolios.Portfolio.ApplyMarketEvent | portfolio/portfolio.go:191-211 | the mark of every account in the instrument is the price that the event gives its last open position, and stays where it gives none; the memo stays coherent; an invalid event changes nothing |
| Portfolios.EventMarks | portfolio/portfolio.go:1042-1069 | that price is the ask for a short and the bid for a long position on a quote or book, the last price of a ticker if it has one, and the price of a trade or the close of a bar |
| Portfolios.CallMarks | portfolio/portfolio.go:213-224 | a funded fill marks its instrument at its price, a position without a positive mark at its entry; no other call moves a mark, and none that of another instrument |
| Portfolios.FillMoves | portfolio/portfolio.go:139-156 | a new fill moves exactly the position it names, or the netting position of its instrument, down if it sells and up if not, and makes it the instrument's position |
| Portfolios.FillRealizes | portfolio/portfolio.go:179-180 | its profit goes to its own account and instrument and nowhere else |
| Portfolios.FillOnce | portfolio/portfolio.go:226-242 | a fill is the same as another exactly if account, order and trade are, and then changes nothing |
| Portfolios.Portfolio.UnrealizedPnL | portfolio/portfolio.go:294-312 | answers from the memo, which for a coherent ledger is what a recomputation gives |
| Portfolios.PositionsForInstrument | cache/positions.go:114-132 | lists exactly the positions of an instrument, each once, in order |
| Portfolios.PerformCoherentIff | portfolio/portfolio.go:141-224 | whatever a call returns, it keeps the memo coherent if and only if it drops the memo of the position it writes, or there is none, or both positions are worth the same at the mark |
| Portfolios.MemoCoherent | portfolio/portfolio.go:263-327 | all along any run in which ids keep their instrument every memoised value equals a recomputation, if and only if every call is harmless in that sense |
| Portfolios.QueryIsRecomputed | portfolio/portfolio.go:294-312 | after such a run a query answers with a recomputation |
| Portfolios.UnrealizedMoves | portfolio/portfolio.go:824-865 | a fill moves unrealized profit by its own gain at the mark less what it realizes |
| Portfolios.UnfundedFillIff | portfolio/portfolio.go:170-189 | an unfunded fill keeps the memo coherent if and only if nothing is memoised, or there is no positive mark, or the mark is the fill price when adding, the entry when reducing, and the balance of both when flipping |
| Portfolios.UnfundedFillGoesStale | portfolio/portfolio.go:182-184 | a run from the empty portfolio whose last call, an unfunded fill, leaves a stale memo |
| Portfolios.ForeignPositionGoesStale | portfolio/portfolio.go:158-189 | a run whose last call, a fill given a position in another instrument, succeeds and leaves a stale memo |
| AccountReconciler.ApplyFillToOrderCuts | account/reconciler.go:219-245 | a fill moves the filled quantity to the total, cut off at the quantity, and leaves a valid order |
| AccountReconciler.ReplayFolds | account/reconciler.go:204-217 | replaying fills folds all of them into the order and leaves the other orders alone |
| AccountReconciler.ApplyOrderFolds | account/reconciler.go:83-101 | a report that adds no filled quantity of its own keeps every cached order folded |
| AccountReconciler.RunFolds | account/reconciler.go:191-202 | under any interleaving the filled quantity is the lesser of the quantity and the stored total |
| AccountReconciler.RunNeverUnfills | account/reconciler.go:191-217 | it never goes down between two moments at which the order is cached |
| AccountReconciler.AgreesWithManager | account/reconciler.go:219-258 | on runs of one opening report and fills of its order id that do not overfill, the order ends as the execution manager leaves it: filled, leaves, average and status |
| AccountReconciler.RepeatedReportsAgreeIff | account/state_machine.go:95-111 | on a report that repeats the cached filled quantity the two reducers end alike if and only if their status rules agree |
| OrderStates.TransitionsAre | account/state_machine.go:5-111 | for each status, exactly the statuses it can be reached from; only a submission reported during a pending update is rewritten |
| OrderStates.TransitionLaws | account/state_machine.go:5-111 | every open order can be cancelled; open orders can fill exactly at the venue; a cancelled one can only fill late; the other ended ones accept nothing |
| OrderStates.ReportTakenIff | account/reconciler.go:83-101 | a report on a cached order is taken exactly if the status may follow and the filled quantity does not go back, and else changes nothing |
| OrderStates.ReportReplaces | account/reconciler.go:83-101 | it then takes the order's place, with its status as it may follow |
| OrderStates.OpenOrderCancels | account/reconciler.go:83-101 | from every open status a reported cancel is stored as one |
| OrderStates.FillMakesFilled | account/reconciler.go:191-245 | a fill of a cached order leaves it Filled or PartiallyFilled whatever it was, and no older than the fill |
| OrderStates.FinalForGood | account/state_machine.go:95-111 | over any run of valid reports and of fills of other orders, an order that is Denied, Filled, Rejected or Expired stays so while it is cached |
| Agreement.FillMatches | account/reconciler.go:191-202 | from books that agree on an order, a trade of it is stored and applied alike by both, or known to both |
| Agreement.RepeatMatches | account/reconciler.go:83-101 | a report that repeats the filled quantity keeps the agreement if and only if the status rules agree |
| Agreement.UnfillMatches | account/reconciler.go:90-92 | a report of nothing filled on a filled order is refused by both if and only if the order is over and the status another; else they part |
| Agreement.AgreeIff | account/reconciler.go:83-101 | from books that agree, over any run of the order's trades and valid plain reports, the two agree all along if and only if every report is one of those |
| Agreement.AgreeBehindOpening | account/reconciler.go:61-81 | the same from the books that an opening report leaves, with fills on either side of it |
| Agreement.BackToAcceptedParts | account/state_machine.go:5-88 | after a report and a partial fill, a report back to Accepted parts them |
| Agreement.UnfillParts | account/reconciler.go:90-92 | and so does a report of partly filled with nothing filled |
| Agreement.StrayFillParts | account/reconciler.go:191-202 | a fill under an unknown order id that the client id leads to the order is applied by the manager only |
| Reconcilers.Reconciler.ApplyFill | account/reconciler.go:191-202 | refines the fill step on the caches |
| Reconcilers.Reconciler.ReplayFills | account/reconciler.go:204-217 | refines the replay of stored fills |
| Reconcilers.Reconciler.ApplyOrder | account/reconciler.go:83-101 | refines the report step with its status table and replay |
| PositionRepair.Repairer.Snap | account/reconciler.go:327-344 | indexes the snapshot's reports of the account and instrument by id and venue id, the last one winning |
| PositionRepair.Repairer.RepairPositionReports | account/reconciler.go:150-189 | repairs every cached position of the account and instrument against the snapshot, and reports what it gives up on with its kind and attempts; a missing account or instrument is an error |
| PositionRepair.MatchIs | account/reconciler.go:327-363 | a position is held against the last report with its id or, if there is none, with its venue id |
| PositionRepair.DiscrepancyIff | account/reconciler.go:161-187 | it is in order exactly if that report shows its side and size or, without one, if it is not open; another side is a side mismatch, another size alone a quantity mismatch; the repair is the report, or the position made flat |
| PositionRepair.RepairLands | account/reconciler.go:369-385 | each discrepant position is in exactly one of the two lists, by the budget it had when the call began |
| PositionRepair.RepairConserves | account/reconciler.go:161-187 | the two lists together are as long as the discrepancies are many |
| PositionRepair.RepairCounts | account/reconciler.go:387-406 | a call clears the counter of a healthy position and adds one for a generated repair |
| PositionRepair.BudgetHolds | account/reconciler.go:369-406 | over any run of calls at most the budget of repairs is generated for a position between clears |
| PositionRepair.RepairHeals | account/reconciler.go:351-363 | a repair stands where the repaired position stood and the same snapshot finds nothing wrong with it |
| PositionRepair.RepairSettles | account/reconciler.go:150-189 | if no repaired position is recognised by its venue id alone, once the repairs are in the cache a rerun on the same snapshot generates nothing and, if nothing had been given up, reports nothing and leaves every counter at zero |
| PositionRepair.RepairInPlaceIff | account/reconciler.go:351-363 | a repair is filed where the repaired position stands if and only if the position was not recognised by its venue id alone |
| PositionRepair.VenueMatchRepeats | account/reconciler.go:351-363 | at an input, a position recognised by its venue id alone is repaired again by the next call |
| PositionRepair.SidelinedAgain | account/reconciler.go:351-385 | every such position stays in the cache as it was, and is repaired again while budget is left |
| PositionRepair.RerunIff | account/reconciler.go:150-189 | with room for a further attempt on every position, a rerun generates nothing if and only if no repaired position was recognised by its venue id alone |
| Matching.MatchOrderBook | backtest/matching_core.go:41-78 | the loop returns the greedy walk of the order's side, for at most what the order has left and what it is allowed |
| Matching.GetsExactly | backtest/runner.go:2237-2258 | an accepted order gets the least of what it has left, what it is allowed, and what crosses its limit |
| Matching.RequestFair | backtest/matching_core.go:49-76 | a sale matches bids and a purchase asks, never past the limit nor more than is left of a level |
| Matching.AllocateFeasible | backtest/matching_core.go:54-76 | the walk never goes past the limit or takes more than a level has left |
| Matching.TakesAll | backtest/matching_core.go:54-76 | with an accepting fill model it takes the lesser of what is asked for and what crosses |
| Matching.GreedyIsCheapest | backtest/matching_core.go:54-76 | no other feasible allocation of that quantity costs less |
| Matching.WalkOptimal | backtest/matching_core.go:41-78 | both of these of the returned matches |
| Matching.Runtime.RecordConsumption | backtest/runner.go:1935-1941 | adds to what has been consumed at a price |
| Matching.Runtime.MatchAgainstBook | backtest/runner.go:1709-1736 | matches nothing unless there is a positive quantity to match, records exactly the matches applied, and keeps consumption within every level's size |
| Matching.SnapshotNeverOverdrawn | backtest/runner.go:1709-1736 | over any run of requests on one snapshot, consumption at a price is the sum of the matches and never exceeds the level |
| Timers.NextDueTimer | backtest/runner.go:286-297 | the earliest due timer, by name among equals, or none exactly when nothing is due |
| Timers.Scheduler.SetTimer | backtest/runner.go:244-254 | a valid timer is first due one interval from now; an invalid one is refused |
| Timers.Scheduler.CancelTimer | backtest/runner.go:256-259 | removes the timer and nothing else |
| Timers.Scheduler.DispatchTimersDue | backtest/runner.go:261-284 | terminates for any handler, fires in strictly increasing order, and leaves nothing due; when a handler fails, its commands stand and its timer is not moved on |
| Timers.FireShrinks | backtest/runner.go:261-284 | each firing leaves fewer timers due at its time, whatever the handler sets or cancels |
| Timers.FiringOrder | backtest/runner.go:261-284 | any dispatch fires in order of time, at the same time in order of names and each once, none after the horizon |
| Timers.ObeysLastWord | backtest/runner.go:244-259 | a timer that a handler sets is due one interval later, a cancelled one is gone, any other is as it was |
| Timers.FiresExactly | backtest/runner.go:279-282 | an untouched timer fires at exactly its start and each interval from there up to the horizon |
| Releases.PlainReleasedIff | execution/emulator.go:477-514 | an order that does not trail is released, by an event, a modification or its own submission, exactly when the price it is shown has reached its stop from the far side, its touch price or its limit from the near side |
| Releases.ShownPrice | execution/emulator.go:516-529 | that price is the last trade, or the ask for a buy and the bid for a sell |
| Releases.ReleasedIsSent | execution/emulator.go:562-581 | what goes to the venue is the market or limit order behind each type, with the same account, instrument, side and quantity and no trigger left |
| Releases.TrailsOnceWoken | execution/emulator.go:373-394 | over any run a trailing order has an extreme exactly if a price has reached its activation |
| Releases.HangsBy | execution/emulator.go:425-449 | the trigger hangs on the extreme by the offset, by parts in ten thousand, or by ticks of what the order watches |
| Releases.AmendTakesOn | execution/emulator.go:305-322 | a modification is refused exactly if it names a price the type does not have or changes nothing; else the order takes on what it names and keeps the rest |
| Releases.HeldIffComplete | execution/emulator.go:71-94 | a submission is held exactly if it is complete for its type |
| Releases.SeenIffSane | execution/emulator.go:129-135 | an event with a price that is not positive, or a crossed one, is ignored |
| Emulators.Emulator.EvaluateTrailingOrder | execution/emulator.go:373-423 | refines the judgement of a trailing order and the move of its extreme |
| Emulators.Emulator.SubmitOrder | execution/emulator.go:71-113 | refines a submission: held, or released at once without being held |
| Emulators.Emulator.ProcessMarketEvent | execution/emulator.go:129-167 | visits each order watching the instrument once, by account and client id; each is kept, updated or released |
| Emulators.Emulator.ModifyOrder | execution/emulator.go:184-226 | refines a modification, a change of time in force included; new trailing terms start the trail anew |
| Emulators.Emulator.CancelOrder | execution/emulator.go:241-260 | removes the order and its extreme together |
| Trailing.EvaluateFollows | execution/emulator.go:373-423 | one more price keeps the extreme the best since activation, and triggers exactly when it crosses the level that the best price sets |
| Trailing.RunOrderly | execution/emulator.go:71-182 | in every reachable state extremes belong to held orders, which are valid and filed under their key |
| Trailing.SubmissionsConserved | execution/emulator.go:71-269 | over any run each submission is held, released, cancelled or replaced, exactly one of them |
| Trailing.CancelledStaysCancelled | execution/emulator.go:241-260 | an order submitted once and cancelled is never released |
| Trailing.RunTrails | execution/emulator.go:373-423 | over any run of clean submissions, whatever the ticks do, a held order's extreme is the best price evaluated since activation, its trigger hangs on it, and no price has crossed it |
| Trailing.ReleasedAtFirstCrossing | execution/emulator.go:95-103 | an event, a modification or a submission releases a trailing order exactly when the price it is judged at is the first to cross |
| Trailing.LevelRatchets | execution/emulator.go:425-446 | as the extreme improves the level moves back only for a sell of more than 10000 basis points, or when the tick grows by more than the improvement |
| Trailing.TriggerRatchets | execution/emulator.go:394-421 | over any step of a run that gives no new terms the extreme never gets worse; the trigger stays while it does not hang on an extreme, and otherwise moves back exactly when its first level is behind it, a sell trails by more than its whole rising price, or a growing tick outweighs the better price |
| Trailing.TriggerFallsToLevel | execution/emulator.go:394-421 | a run in which the trigger moves back to its first level |
| Trailing.TriggerMovesBack | execution/emulator.go:394-407 | a run in which it does |
| Trailing.ReplacementTrails | execution/emulator.go:94-112 | with or without a cached event, a submission is taken in as under a fresh key, and leaves the order it finds there alone, if and only if it is clean |
| Trailing.ResubmissionReleasesWrongly | execution/emulator.go:95-103 | a run in which an order is released at its first price although nothing crossed |
| Trailing.ResubmissionKeepsExtreme | execution/emulator.go:110-112 | a run in which an order has an extreme before it has seen a price |
| RateLimiter.Limiter.Filter | risk/risk.go:447-453 | moves the recent times to the front of the same array, in order |
| RateLimiter.Limiter.CheckCommandRate | risk/risk.go:434-460 | refines the check: filter, refuse at the limit, otherwise append |
| RateLimiter.KeptSuffices | risk/risk.go:446-453 | the filtered slice and the whole history agree on every later window |
| RateLimiter.PassesIff | risk/risk.go:454-459 | with a clock that does not go back, a command passes if and only if fewer than the limit passed within the last window of the whole history |
| RateLimiter.WindowBound | risk/risk.go:434-460 | no interval of one window's width over the whole history holds more passes than the limit |
| RateLimiter.RateHolds | risk/risk.go:434-460 | both with the width as configured, or one second if that is not positive |
| RateLimiter.Unlimited | risk/risk.go:435-437 | without a limit everything passes and nothing is remembered |
| Bars.BarAggregator.Update | data/aggregation.go:24-72 | opens, widens or completes the current bar, and reports whether a completed bar validates |
| Bars.BarAggregator.Flush | data/aggregation.go:74-81 | hands over the current bar and empties the aggregator |
| Bars.BarsAreRuns | data/aggregation.go:24-81 | for any stream, emitted bars and the flush summarize the maximal runs of accepted events that share a bucket: first, highest, lowest, last price and total volume |
| Bars.RunsUnique | data/aggregation.go:34-54 | there is only one cut of a stream into such runs |
| Bars.VolumeConserved | data/aggregation.go:69-70 | the volume of all bars is the volume of the accepted events, which is the size of all trades in the instrument |
| Bars.BucketHolds | data/aggregation.go:35-35 | a bucket starts at the last multiple of the step that is not after its times |
| Bars.Contributes | data/aggregation.go:83-97 | a trade contributes its price and size, a ticker its positive last price, a quote its midpoint, and no event of another instrument anything |
| Bars.SummaryValid | model/market_data.go:245-263 | a bar validates if and only if its run has positive prices and no negative total volume |
| Bars.BarsValid | model/market_data.go:245-263 | positive inputs give bars that all validate |

## Left out

- Venue clients, adapters, the bus, goroutines, reconnection, strategy callbacks and platform wiring: input and output.
- Commissions, balances, currency conversion, margin, exposure queries and analyzers of the portfolio: easy members.
- Hedging position ids in profit accounting: the previous position is looked up by instrument but the next one by id.
- Exactness of the position-by-instrument index: an id that changes instrument leaves its old entry behind.
- The index of fills by venue order id, snapshots, history and the purge of positions: easy members.
- The position id given to a leg fill that has none: nothing in the model reads it.
- Matching against quotes, trades and bars, fill-or-kill orders and re-entrant submission: matching is proved for one book at a time.
- Kinds of order lists and the sorted details of list snapshots: reporting only.
- AccountReconciler.AgreesWithManager: fills carry the order's id, and none is stored under it at the start; `Agreement.StrayFillParts` is about the others.
- Agreement.AgreeIff: reports that carry a filled quantity of their own and are followed by the same fills are not covered, because both reducers add the fill again.
- The emulator's order reports to the manager and its cache of submit commands: a report that fails there does not undo the emulator's step.
- Emulated good-till-date orders that become market orders: the transformed order fails validation in the source.
- Emulators.Emulator.ModifyOrder: that a modification forgets the extreme only if it names a trigger price, an activation price or an offset is part of the step it refines, and no separate law repeats it.
- Exposure.ExposureBounded: actions are carried out after each fill; a report from outside only ends a leg, so no leg is left pending cancel; and an order outside the list neither carries its list id nor names a leg in its own list.
- Exposure.ExposureIff: is about runs in which a fill of a closed leg comes after the quantity is filled; `Exposure.ExposureFits` covers the others.
- OrderStates.ReportReplaces: a report of nothing filled on an order with stored fills replays them; `AccountReconciler.ApplyOrderFolds` says what that leaves.
- OrderStates.FinalForGood: fills of the order itself are not in the run, because a late fill makes any order Filled or PartiallyFilled.
- Portfolios.MemoCoherent: assumes that a position id is never written under another instrument and that nothing else writes to the cache.
- Portfolios.UnfundedFillIff: resolves the condition for a position that its instrument leads to and whose side fits its sign; `Portfolios.PerformCoherentIff` holds without either.
- PositionRepair.RerunIff: leaves out a call that spends the last attempt on a position, because the repair filed beside it may itself disagree with a later report of the same id.
- RateLimiter.PassesIff: the limit and the width stay the same, and the clock does not go back.
- Side strings other than buy and sell, times before the zero time and time zones.
