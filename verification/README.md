# A model of the multi-account trading engine

A manager process routes trading signals to isolated workers; each worker admits, sizes,
executes and supervises trades, and reports back. This project models the stateful core of
both processes in Dafny 4.11 and proves what it keeps. `dafny verify dfyconfig.toml` checks
everything.

## What is modelled

| part | files | form |
|---|---|---|
| Trade admission | `Admission`, `AdmissionLaws`, `AdmissionProgress`, `ClusterBudget`, `ClusterAccounts`, `ClusterLosses`, `ExecutionEngine`, `RiskEngine`, `ClusterRisk` | a step relation in which any number of execute calls, closes, bookings and broker adoptions interleave; the engine and the cluster tracker as classes; the rule chain as functions folded by a loop |
| Loss guards and throttle | `LossGuards`, `LossGuardLaws`, `GuardRules`, `EquityThrottle`, `EquityThrottleLaws` | trackers as classes tied to state functions, laws over sequences of timed events |
| Sizing and orders | `Sizing`, `TpLots`, `OrderManager` | planner arithmetic as functions; the retry loop as a method against an arbitrary broker |
| Positions | `PositionManager`, `PositionLaws`, `PollLaws`, `TwinTrades` | polls with adoption as methods over store, repository and broker; laws over runs of polls and restarts |
| Delivery | `SignalRouter`, `SignalDelivery`, `WorkerIpc` | delivery passes as a loop over rows; the whole way down as a step relation with a lossy, repeating wire; both connection ends as classes |
| Events | `EventOutbox` | the outbox protocol as a step relation with dying handlers and purges |
| Provisioning | `Provisioning`, `ProvisioningRuns` | the compensated sequence of writes as methods; many of them at once, each write and each compensating delete a step, as a step relation |
| Queue | `SignalQueue` | the queue as a class tied to a step relation in which workers, old and new, interleave with a producer and with stops |
| Joints | `EndToEnd` | the parts put together, up to what the day can lose at its stops |
| Groundwork | `Sums`, `Listings` | sums and counts over finite maps, and reading rows out in order |

Prices, money and R are `real`, times integer milliseconds. Broker, network, gateway,
clocks and crashes are parameters or free choices of a step.

The central results: the exposure caps and the daily money budget hold on every
interleaving, the group budget on every one whose closes follow their opens and elsewhere
up to an exact account; all stops together fit the daily budget plus what fills beyond the
slippage band and widened stops cost; a signal with its own emission time fires at most once and
no execution event is lost before the age purges; a tripped guard stays tripped for its day and across a
restart; drawdown is the worst suffix and the throttle flag the last crossing; TP1 closes
are conserved; failed provisioning restores its tables.

## Where code and documentation part

The model follows the code. These are places where the code does less than its comments or
its messages say; each has a lemma with a concrete run or an exact condition.

- The queue drops duplicates by signal id; its comments speak of symbols (src/signals/queue.py:8-11, src/signals/queue.py:90).
- The stop moves to breakeven even when the partial close failed (src/positions/manager.py:354-359): `PositionLaws.StopMovesWithoutClose`.
- A TP1 completion that fails to save is logged as retried by the next poll; no poll takes it up again: `PositionLaws.HitTradesAreLeftAlone`.
- A partial close the broker does not confirm, or whose record fails before a restart, happens twice; the exact count is `PositionLaws.ClosesAreConserved`.
- The ratio of a closed trade is computed from the moved stop, so a trade filled at the signal's entry closes at ratio zero once its stop is at breakeven: `PositionLaws.BreakevenTradesCloseAtZero`.
- The group budget can be exceeded by a close that overtakes its own booking and by a release outside the lock (`ClusterBudget`).
- With one losing trade allowed per day the 95% projection refuses every trade even on a loss-free day: `RiskEngine.OneSlotNeverTrades`.
- A pause set after midnight but before the first daily update is undone by that update: `LossGuardLaws.PauseSurvivesAnUpdate`.
- A second forward of an event does not need a crash: overlapping handlers, or an outbox row outliving the 30-day purge, suffice (`EventOutbox`).
- Sequence numbers restart with the worker while stored events keep theirs, so a replay can cut the connection: `WorkerIpc.ReplayCutsRestartedWorkers`.
- Overlapping passes can reopen a settled delivery; without a source-supplied emission time a signal can fire again (`SignalDelivery`).
- A failed provisioning removes the data directory even when it was there before: `Provisioning.AgentProvisioner.Provision`.
- Stopping the queue while a signal is held leaves its id behind: `SignalQueue.StopDropsTheHeldSignal`.
- A stop whose worker leaves on the flag leaves its sentinel for the next worker, and a start while the old worker executes runs two signals at once: `SignalQueue.OldSentinelEndsTheNewWorker`, `SignalQueue.EarlyStartRunsTwoAtOnce`.
- The TP1 lots keep a rest and stay on the broker's steps exactly for volume steps that are whole hundredths: `TpLots.Tp1LotsLeaveARest`.
- By default (src/config/settings.py:132-133) a fill beyond the slippage band is kept and its stop not shifted, so it can lose any multiple of the planned risk: `OrderManager.FillsBeyondTheBandAreKept`.
- A trade read back from the database has lost its signal, so its breakeven is measured from the fill: `PositionLaws.ReloadLosesTheAnchor`.
- A level shift the broker refuses is only logged, and the trade on record then carries a stop its broker does not hold (src/execution/engine.py:365-377): the losses in `EndToEnd` are those at the broker's stop.
- A poll between a fill and the storing of its trade makes a stub for the same ticket, and one position is then closed twice: `TwinTrades.TwinsComeFromTheGap`, `TwinTrades.TwinsCloseTwice`.
- A close without a known price is announced as a stop-loss and recorded as a full win: `PositionLaws.UnpricedStopsLookLikeWins`.
- The compensation of a failed provisioning deletes by name, whoever holds the name by then: `ProvisioningRuns.NameIsSafeExactlyWhenVacant`.
- Stored events keep the configuration revision they were made under, so a replay after a revision change cuts the connection: `WorkerIpc.ReplayCutsRestartedWorkers`.

## Model

| member | source | states |
|---|---|---|
| `AdmissionLaws.TradeCapHolds` | src/execution/engine.py:209-253 | from any start whose own trades respect it, reloaded ones included, on every interleaving of any number of execute calls, closes and adoptions, open plus admitted-but-not-stored own trades stay within max(1, max_losing_streak) |
| `AdmissionLaws.SymbolCapHolds` | src/execution/engine.py:209-253 | and on each resolved symbol within its exposure cap |
| `AdmissionLaws.DailyBudgetHolds` | src/execution/planner.py:100-107 | from any start whose own trades each fit a slot and together the caps, on every interleaving the planned risk of all open and in-flight own trades together fits the daily budget |
| `AdmissionLaws.OnlyAdoptedTradesAreExempt` | src/execution/engine.py:209-217 | no own trade escapes these bounds: on every run a stored trade is exempt only if it was so at the start or was adopted from the broker |
| `AdmissionProgress.LoadIsAccountedFor` | src/execution/engine.py:209-253 | the load is accounted for exactly, step by step: a reservation adds one, a close of an own trade and a call that ends without a stored trade take one off, and nothing else moves it |
| `AdmissionProgress.CallsCanAlwaysEnd` | src/execution/engine.py:255-482 | from every stage, and whether or not its trade can be stored, a call can end by steps of its own; its flight and reservation are then gone and only a stored trade stays |
| `AdmissionProgress.PlannedRiskIsKept` | src/execution/planner.py:100-107 | from its planning on a call carries the planned risk, and nothing changes it, the size, the signal or the symbol on the way |
| `AdmissionProgress.StoredAtThePlannedRisk` | src/execution/engine.py:431-458 | the trade is stored under its own id, as an own one, with its signal, symbol and planned risk |
| `AdmissionProgress.StoreChangesAreNamed` | src/positions/manager.py:613-615 | a trade leaves the store by its close alone, waits there for its booking, and enters by its own call or by adoption |
| `AdmissionProgress.StartEquityIsTheFirst` | src/risk/loss_tracker.py:114-138 | the day's start equity is the first positive one and stays for the rest of every run |
| `AdmissionProgress.RejectionsLeaveNoTrace` | src/execution/engine.py:209-253 | a signal counted and rejected leaves the whole state as it was |
| `AdmissionLaws.ReservationsExact` | src/execution/engine.py:104-112 | on every interleaving the per-symbol counters equal the number of flights holding a reservation, the reserved ids are theirs, no two members of flights and store share a signal, and an idle engine holds nothing |
| `AdmissionLaws.CountersAfterLeave` | src/execution/engine.py:108-112 | a release takes back exactly the reservation of its own flight; the clipping at zero never happens |
| `AdmissionLaws.OnlyCommitAddsLoad` | src/execution/engine.py:431-482 | storing precedes releasing, so of all steps only the reservation under the lock can raise the load, and by one |
| `AdmissionLaws.CountCoversLoad` | src/execution/engine.py:225-229 | what the lock holder counts is never below the true load, in total and per symbol |
| `AdmissionLaws.WithinCapKept` | src/risk/rules.py:167-189 | every step keeps the load below both caps, while the lock is held strictly below |
| `AdmissionLaws.SlotShare` | src/risk/loss_tracker.py:241-247 | the slots of a day add up to exactly the daily budget |
| `AdmissionLaws.PlanFitsASlot` | src/execution/planner.py:106-107 | no multiplier makes a plan risk more than one slot, or less than nothing |
| `AdmissionLaws.PlanIsItsPartOfASlot` | src/execution/planner.py:100-107 | in figures: the budget is the limit in per cent of the start equity, and a plan risks its clamped multiplier of one slot |
| `ClusterBudget.ClusterBudgetHolds` | src/risk/cluster_tracker.py:55-225 | on every run whose closes follow their opens and that re-admits no signal still being unwound, realised loss, pending and open R fit the group budget, the positions fit the limit, and no trade is sized above the R reserved for it |
| `ClusterBudget.CloseBeforeBookBreaksTheBudget` | src/risk/cluster_tracker.py:173-225 | the order is needed: a close that overtakes the booking of its own trade drives the group over its budget |
| `ClusterBudget.ReadmitWhileUnwindingBreaksTheBudget` | src/execution/engine.py:261-265 | the second condition is needed: the release outside the lock can take a re-admitted signal's reservation away |
| `ClusterAccounts.BudgetIsAccountedFor` | src/risk/cluster_tracker.py:173-225 | on every run, ordered or not, the group uses at most its budget, plus a full R for each booking that found no reservation, plus what each close lost beyond the R its trade had open; and at most its positions plus those bookings |
| `ClusterAccounts.OrderedRunsDoNotOverrun` | src/risk/cluster_tracker.py:55-225 | on ordered runs both lists are empty |
| `ClusterLosses.LossesAreCounted` | src/risk/cluster_tracker.py:186-203 | over every run of a day the losses counted and the R realised are exactly those of the closes booked at a loss |
| `ClusterLosses.LossLimitClosesTheGroup` | src/risk/cluster_tracker.py:66-86 | once as many losses are booked as allowed no signal of the group is admitted any more that day |
| `ClusterLosses.AfterALossRIsReduced` | src/risk/cluster_tracker.py:108-115 | after the first loss every admission into the group is at the reduced R at most |
| `ClusterBudget.LockReservedKept` | src/execution/engine.py:245-253 | between approval and commit the holder's reservation is the R it was approved at |
| `ClusterBudget.FlightsReservedKept` | src/execution/engine.py:245-253 | every admitted, unbooked trade still has its own reservation, at least as large as its multiplier |
| `ClusterRisk.ApprovalFitsTheBudget` | src/risk/cluster_tracker.py:61-155 | approval exactly when losses, positions and budget leave room for the minimum trade; the R approved then still fits |
| `ClusterRisk.VerdictsAreExact` | src/risk/cluster_tracker.py:66-131 | each refusal has its one reason and an approval gives the most there is: the R allowed before or after the first loss, or all that is left |
| `ClusterRisk.EveryDayStartsOver` | src/risk/cluster_tracker.py:277-284 | on another day a group has nothing lost, pending or open, whatever its book said |
| `ClusterRisk.GroupIsTheFirst` | src/risk/cluster_tracker.py:261-268 | the group of a symbol is the first one that lists it |
| `ClusterRisk.ReserveUses` | src/risk/cluster_tracker.py:157-163 | a reservation uses its R and one position |
| `ClusterRisk.ReleaseFrees` | src/risk/cluster_tracker.py:165-171 | a release frees exactly what was reserved |
| `ClusterRisk.OpenedMoves` | src/risk/cluster_tracker.py:173-184 | opening moves the reserved R, or charges a full R when nothing was reserved |
| `ClusterRisk.ClosedConverts` | src/risk/cluster_tracker.py:186-225 | closing turns a loss into realised R scaled to the reserved risk, never more than that risk for a loss of up to one trade-R |
| `ClusterRisk.ClusterRiskTracker.Match` | src/risk/cluster_tracker.py:261-268 | the first configured group listing the symbol |
| `ClusterRisk.ClusterRiskTracker.StateFor` | src/risk/cluster_tracker.py:277-284 | a group's state of another day is replaced by an empty one |
| `ClusterRisk.ClusterRiskTracker.PreviewSignal` | src/risk/cluster_tracker.py:55-155 | the verdict of the specification on today's state |
| `ClusterRisk.ClusterRiskTracker.ReserveSignal` | src/risk/cluster_tracker.py:157-163 | the planned R becomes pending under the signal in its group's book of today; other groups are untouched |
| `ClusterRisk.ClusterRiskTracker.ReleaseSignal` | src/risk/cluster_tracker.py:165-171 | the signal is no longer pending in its group's book of today; other groups are untouched |
| `ClusterRisk.ClusterRiskTracker.MarkTradeOpened` | src/risk/cluster_tracker.py:173-184 | the reservation turns into an open trade at the R reserved; other groups are untouched |
| `ClusterRisk.ClusterRiskTracker.MarkTradeClosed` | src/risk/cluster_tracker.py:186-225 | the trade leaves the book and a loss is realised and counted; other groups are untouched |
| `ExecutionEngine.Engine.Execute` | src/execution/engine.py:114-289 | which way a call ends, exactly: no persistence, too old, broker down, duplicate, refused by the rules on what was counted under the lock, or as planner, broker and store answer; it gives back exactly what it reserved, gains the store a trade exactly when one is opened and tracked, at the approved size, and leaves the cluster book as it was unless a trade was opened |
| `ExecutionEngine.AgeCountsFromTheFirstTime` | src/execution/engine.py:149-166 | a signal is too old exactly when the first known of its four times lies further back than allowed |
| `ExecutionEngine.Engine.Admit` | src/execution/engine.py:209-253 | under the lock: refusal leaves the counters alone, admission adds one for the symbol and the id, and only when the caps leave room |
| `ExecutionEngine.Engine.Carry` | src/execution/engine.py:258-289 | plan, order, store, book and release, on each failing path too |
| `ExecutionEngine.Engine.PendingTotal` | src/execution/engine.py:98-99 | the sum of the per-symbol counters |
| `ExecutionEngine.Engine.CountOpen` | src/execution/engine.py:210-229 | open trades, those on the symbol, and whether the signal is known |
| `RiskEngine.Evaluate` | src/risk/engine.py:60-150 | accepted exactly when every rule approves, with the composed multipliers; an empty rule list is an error |
| `RiskEngine.AcceptanceIsExact` | src/risk/rules.py:68-420 | the whole chain accepts exactly the signals that meet the ten conditions, written out: none passes that fails one, and no rule refuses more |
| `RiskEngine.AcceptanceGuards` | src/risk/rules.py:68-272 | what acceptance by the whole chain guarantees: fresh unpaused data, room under both caps, one more slot within 95% of the daily limit, no duplicate, no forbidden hedge, and a quote with a tight enough spread, on the right side of the stop and with enough reward for its risk |
| `RiskEngine.AcceptanceSizes` | src/risk/engine.py:120-137 | the accepted multiplier is the reserved R times the throttle, never above the R reserved |
| `RiskEngine.OneSlotNeverTrades` | src/risk/rules.py:209-264 | on a loss-free day the projection admits exactly when there are two slots or more; with one slot nothing trades |
| `EndToEnd.AcceptanceIsAJudgement` | src/execution/engine.py:225-253 | an accepted rule chain is an allowed admission step with the same size and reservation, so caps and budgets proved of the step hold of the chain |
| `EndToEnd.TrackerAmountIsASlot` | src/risk/loss_tracker.py:241-247 | the loss tracker's amount is the admission slot |
| `EndToEnd.PlannedRiskIsSized` | src/execution/planner.py:103-107 | the risk admission records is the money the planner sizes with |
| `EndToEnd.TrippedDayRejectsEverySignal` | src/risk/rules.py:68-90 | whatever ran before and after, once a guard fired on a day the tracker has opened the rule chain refuses every signal of that day |
| `EndToEnd.StopLossIsCovered` | src/execution/engine.py:338-406 | whatever the order loop reports as done, at whatever price, loses at the stop its broker holds (sent, widened, shifted to the fill, or left behind by a refused shift) at most the planned risk plus the money value of its distance beyond the slippage band and of the widening; which is nothing when the stop follows the fill, or when such fills are closed and no answer called the stops invalid |
| `EndToEnd.AllStopsTogetherFitTheBudget` | src/execution/planner.py:83-117 | on every interleaving all open trades stopped out together at the stops their brokers hold lose at most the daily budget plus those overruns, so at most the budget when there are none |
| `EquityThrottle.DrawdownIsWorstSuffix` | src/risk/equity_throttle.py:99-111 | drawdown is the largest loss of any final stretch of trades |
| `EquityThrottle.ComputeDrawdownR` | src/risk/equity_throttle.py:99-111 | the peak-and-total loop computes that drawdown |
| `EquityThrottle.DroppingAPrefixNeverDeepens` | src/risk/equity_throttle.py:280-285 | forgetting old trades never deepens it |
| `EquityThrottle.MoneyRIsMoneyOverRisk` | src/risk/equity_throttle.py:57-96 | the blended R times the money at risk is the money made by the TP1 lots plus that of the rest |
| `EquityThrottle.StoredContributionAgrees` | src/risk/equity_throttle.py:114-192 | a TP1-managed trade counts the same live and from its stored row exactly when its partial close was at the planned level |
| `EquityThrottle.EquityThrottleTracker.RefreshLocked` | src/risk/equity_throttle.py:280-292 | expired entries go, the drawdown is that of the rest, the flag moves only outside the band |
| `EquityThrottle.EquityThrottleTracker.RecordTradeClosed` | src/risk/equity_throttle.py:210-217 | a usable close is appended and the window refreshed; an unusable one changes nothing |
| `EquityThrottle.EquityThrottleTracker.HydrateRows` | src/risk/equity_throttle.py:227-243 | the window is rebuilt from the usable rows in time order and refreshed |
| `EquityThrottle.EquityThrottleTracker.Preview` | src/risk/equity_throttle.py:253-261 | the multiplier, drawdown and flag reported |
| `EquityThrottleLaws.WindowIsRecentCloses` | src/risk/equity_throttle.py:280-285 | for closes in time order the window is the plain filter of all recorded closes by the cutoff |
| `EquityThrottleLaws.RunIsSettled` | src/risk/equity_throttle.py:287-292 | after every call: engaged means at least release, released means at most the threshold |
| `EquityThrottleLaws.FlagIsTheLastCrossing` | src/risk/equity_throttle.py:287-292 | the flag is what the last drawdown outside the band said |
| `EquityThrottleLaws.OnlyALossEngages` | src/risk/equity_throttle.py:210-261 | only a recorded loss, or a rebuild, can engage |
| `EquityThrottleLaws.LookingNeverEngages` | src/risk/equity_throttle.py:253-276 | the passing of time never engages |
| `EquityThrottleLaws.HydrateTwiceIsHydrateOnce` | src/risk/equity_throttle.py:227-243 | hydration is idempotent at a fixed time |
| `EquityThrottleLaws.RestartForgetsOnlyTheHeldFlag` | src/risk/equity_throttle.py:227-292 | a restart restores window and drawdown, and the flag exactly unless it was only held on inside the band |
| `EquityThrottleLaws.SortSorts` | src/risk/equity_throttle.py:237-237 | rows are put in time order |
| `EquityThrottleLaws.SortIsAPermutation` | src/risk/equity_throttle.py:237-237 | and none is lost or doubled |
| `EquityThrottleLaws.OtherTradesCountTheirRatio` | src/risk/equity_throttle.py:74-91 | a trade counts its own ratio unless it was managed at TP1 with all prices known and the stop on the losing side |
| `EquityThrottleLaws.WholeShareCountsTheTp1Leg` | src/risk/equity_throttle.py:93-96 | a share of more than the whole counts as the TP1 leg alone |
| `EquityThrottleLaws.LotlessTradesCountTheirRatio` | src/risk/equity_throttle.py:129-190 | a trade without lots, and a row whose lots left are not fewer, count their recorded ratio |
| `EquityThrottleLaws.PlainContributionsAgree` | src/risk/equity_throttle.py:114-192 | a trade not managed at TP1 counts the same live and stored: its ratio times its multiplier |
| `EquityThrottleLaws.UntimedCloses` | src/risk/equity_throttle.py:145-159 | a live close without a time is taken to be now, a row without one does not count |
| `EquityThrottleLaws.OutcomesInOrder` | src/risk/equity_throttle.py:232-236 | exactly the rows with an outcome are kept, in order |
| `EquityThrottleLaws.ReducedAfterTheCrossing` | src/risk/equity_throttle.py:253-261 | sizing is reduced exactly while the throttle is on and the last drawdown outside the band was above it |
| `LossGuardLaws.OnceTrippedNothingPasses` | src/risk/loss_tracker.py:97-229 | over a tracker's whole life: once a daily update opened the day and any guard fired, every later signal of that day is refused, whatever follows |
| `LossGuardLaws.TripPauses` | src/risk/loss_tracker.py:140-229 | a firing guard pauses until the coming midnight, whatever ran before |
| `LossGuardLaws.PauseSurvivesAnUpdate` | src/risk/loss_tracker.py:106-138 | an update below the limit keeps a pause exactly when the pause's day is the tracked one |
| `LossGuardLaws.MidnightsAlways` | src/risk/loss_tracker.py:42-49 | every pause ends at a midnight no later than the coming one |
| `LossGuardLaws.PeakIsBestPrefix` | src/risk/loss_tracker.py:162-166 | the session total is the sum of the day's closes, the peak its best running total, never below zero |
| `LossGuardLaws.ProfitGuardFires` | src/risk/loss_tracker.py:168-191 | the second guard fires exactly when the total stands the configured share of start equity below that peak |
| `LossGuardLaws.BudgetIsLatched` | src/risk/loss_tracker.py:113-136 | start equity, once positive, and the money per slot are constant for the day |
| `LossGuardLaws.WindowIsTheLastReadings` | src/risk/loss_tracker.py:213-216 | the window is the last so many positive readings of the day |
| `LossGuardLaws.RestartIsInvisible` | src/risk/loss_tracker.py:256-292 | save, restart and restore within the tracked day leave the guards as if never stopped, for every continuation |
| `LossGuardLaws.RestartAdmitsNothingYet` | src/risk/loss_tracker.py:294-301 | a restarted tracker refuses until a daily update arrives |
| `GuardRules.AdmittedExactly` | src/risk/loss_tracker.py:232-239 | over a tracker's whole life a signal passes exactly when the last word on the data was an update of the last ten seconds and no pause runs |
| `GuardRules.RollingGuardFires` | src/risk/loss_tracker.py:213-228 | within a day the third guard fires exactly when three readings are held and two of them differ by the configured share of the higher |
| `GuardRules.GuardsCanBeOff` | src/risk/loss_tracker.py:175-213 | switched off, the second and third guard never fire or pause |
| `GuardRules.DaysEndAtMidnight` | src/risk/loss_tracker.py:42-53 | days end at local midnights and every moment belongs to the day that ends next |
| `GuardRules.NewDayStartsClean` | src/risk/loss_tracker.py:105-128 | the first update of a day forgets profit, peak, readings and pause |
| `GuardRules.SameDayGoesOn` | src/risk/loss_tracker.py:130-150 | later updates keep what is booked, latch a missing start equity, end an elapsed pause and pause at the limit |
| `GuardRules.FirstGuardNamesThePause` | src/risk/loss_tracker.py:175-228 | a guard pauses in its own name unless a pause is running |
| `GuardRules.DrawbackIsShown` | src/risk/loss_tracker.py:167-173 | the drawback shown is the distance from the peak in per cent of the start equity |
| `GuardRules.SavesOfOtherDaysAreIgnored` | src/risk/loss_tracker.py:256-262 | a save is read back only on its own day |
| `GuardRules.SlotMoneyIsExact` | src/risk/loss_tracker.py:241-247 | one slot is the limit in per cent of the start equity, split among the losing trades allowed |
| `LossGuards.LossTracker.UpdateDailyLossPct` | src/risk/loss_tracker.py:97-151 | the day rolled over or equity latched, the pause ended or set, and the result saved |
| `LossGuards.LossTracker.RollDay` | src/risk/loss_tracker.py:106-136 | a new day resets every guard; start equity is latched once known |
| `LossGuards.LossTracker.CheckDailyLoss` | src/risk/loss_tracker.py:138-150 | an elapsed pause ends, a reached limit pauses until midnight |
| `LossGuards.LossTracker.RecordTradeClosed` | src/risk/loss_tracker.py:154-192 | session total, peak and drawback after the close, a pause if too much was given back, and the result saved |
| `LossGuards.LossTracker.UpdateEquity` | src/risk/loss_tracker.py:194-229 | peak and window after a positive reading, a pause if the window swung too far, and the result saved; other readings change nothing |
| `LossGuards.LossTracker.PauseUntilMidnight` | src/risk/loss_tracker.py:179-181 | a running pause is not overwritten |
| `LossGuards.LossTracker.MarkRiskDataUnavailable` | src/risk/loss_tracker.py:249-251 | only the error is set |
| `LossGuards.LossTracker.HydrateState` | src/risk/loss_tracker.py:256-274 | a save of today restores every guard, any other day's save is ignored |
| `LossGuards.LossTracker.PersistState` | src/risk/loss_tracker.py:276-292 | with a sink, the guards as they stand are written; without, nothing |
| `LossGuards.LossTracker.IsPaused` | src/risk/loss_tracker.py:232-239 | paused exactly while the pause runs |
| `LossGuards.LossTracker.DailyRiskAmount` | src/risk/loss_tracker.py:241-247 | one slot of the day's budget, nothing without start equity |
| `LossGuards.LossTracker.LossGuardRule` | src/risk/rules.py:68-90 | approval exactly with fresh data and no pause |
| `Sizing.EveryAcceptedFillIsCovered` | src/execution/planner.py:75-117 | with the minimum lot not binding, every fill within the slippage band loses at the stop, spread included, at most the planned risk, long and short |
| `Sizing.SizedRiskIsBounded` | src/execution/planner.py:75-117 | the sized position respects the risk exactly when the minimum lot does |
| `Sizing.LotsAreBounded` | src/utils/lot_calculator.py:39-77 | the lots respect the money at risk exactly when the minimum lot does |
| `Sizing.LotsAreTheLargest` | src/utils/lot_calculator.py:39-77 | the lots stay within the configured and the broker's maximum unless the minimum passes them, are whole steps unless a limit decides, and one step more would pass a limit or the money |
| `Sizing.PlansAreTheLargest` | src/execution/planner.py:83-117 | the same of every plan, at the distance it is sized over |
| `Sizing.SizingDistanceIs` | src/execution/planner.py:75-98 | that distance is the stop distance, the slippage allowed on top and the spread times its multiplier |
| `Sizing.PlanIsOfTheSignal` | src/execution/planner.py:103-117 | a plan keeps direction, entry, stop and target of the signal; its money is the base risk times the multiplier, clamped |
| `Sizing.DegenerateSymbols` | src/utils/lot_calculator.py:39-70 | without a distance or a tick value the minimum lot is taken, without points or a lot step there is no size |
| `Sizing.LotsFromDistance` | src/utils/lot_calculator.py:39-77 | the pip unit drops out of the lot formula |
| `Sizing.NormalisedLots` | src/utils/price.py:45-54 | normalised lots lie within limits, are not above the wish unless the minimum is, and are the largest such step |
| `Sizing.Tp1StrictlyBetween` | src/execution/planner.py:126-138 | TP1 lies strictly between entry and TP2, both ways |
| `Sizing.Tp1PartOfTheWay` | src/execution/planner.py:126-138 | TP1 lies at exactly the configured part of the way from entry to TP2 |
| `Sizing.Tp1LotsAreTheShare` | src/execution/planner.py:148-161 | for steps in hundredths the TP1 lots are the most whole steps within the configured share, none below a step, without a share or with a trigger at TP2 |
| `TpLots.Tp1LotsLeaveARest` | src/execution/planner.py:148-161 | for every position and percentage the TP1 lots are a step multiple, at least zero and less than the position, exactly when the volume step is a whole number of hundredths; for any other step a size the planner itself makes already breaks it |
| `TpLots.WholePositionGoes` | src/execution/planner.py:148-161 | with two or more whole steps to the hundredth the TP1 lots can be the whole of a position the planner makes |
| `TpLots.CoarserStepsLeaveSomething` | src/execution/planner.py:148-161 | with any step above half a hundredth they never are |
| `OrderManager.ExecuteMarketOrder` | src/execution/order_manager.py:59-288 | for every broker: at most 1 + retries orders; each follows from the last one and its answer: levels called invalid get the broker's room, want of margin halves the volume, nothing else changes; the loop gives up only on an answer not worth repeating, the last attempt or a second want of margin; the last answer decides the outcome |
| `OrderManager.Send` | src/execution/order_manager.py:90-286 | one attempt keeps all of that |
| `OrderManager.FailuresLeaveNothing` | src/execution/order_manager.py:249-335 | a failure leaves no position, except a failed emergency close or an unconfirmed fill |
| `OrderManager.AtMostOneFill` | src/execution/order_manager.py:90-201 | at most one order is filled, the last |
| `OrderManager.FillsWithinReachAreObtained` | src/execution/order_manager.py:90-201 | a fill that the retries can reach through repeatable answers is always obtained |
| `OrderManager.HalvingNeverRaises` | src/execution/order_manager.py:117-161 | no order exceeds the planned volume when that meets the minimum; the below-minimum refusal cannot happen |
| `OrderManager.HalvedIsHalf` | src/execution/order_manager.py:130-160 | the cut volume is the most whole steps up to half |
| `OrderManager.ClosedExactlyBeyondTheBand` | src/execution/order_manager.py:220-262 | a fill is closed again exactly when that is configured and it is worse than planned by more than the allowed part of the stop distance |
| `OrderManager.KeptFillsAreInTheBand` | src/execution/order_manager.py:220-286 | every fill the loop keeps lies within the band sizing assumed exactly when fills beyond it are set to be closed |
| `OrderManager.KeptFillsAreCovered` | src/execution/order_manager.py:220-286 | whatever the loop reports as done at up to the planned volume loses at the planned stop at most the planned risk plus the money value of its distance beyond the band; at most the planned risk when fills beyond it are closed |
| `OrderManager.FillsBeyondTheBandAreKept` | src/execution/order_manager.py:249-271 | for a concrete signal and configuration the planner makes a plan of risk 12, and with closing switched off a fill of it is kept that loses 40 |
| `OrderManager.KeptFillsLoseAnyAmount` | src/execution/order_manager.py:249-286 | with closing switched off every long plan has, for any amount, a fill that is kept and loses more |
| `OrderManager.FillLosesExactly` | src/execution/planner.py:75-98 | the loss of any fill at the planned stop is what was sized for plus its signed distance from the edge of the band |
| `OrderManager.WideningCostsItsDistance` | src/execution/order_manager.py:341-358 | a widened stop adds exactly the money value of the widening to the loss |
| `OrderManager.SentStopIsOutward` | src/execution/order_manager.py:83-201 | the stop of the last order is never inside the planned one, and is the planned one unless an earlier answer called the stops invalid |
| `OrderManager.LossAtAnotherStop` | src/execution/order_manager.py:341-358 | at another stop a position loses what it loses at the planned one plus the money value of the distance between them |
| `SignalDelivery.FiresAtMostOnce` | src/worker/event_client.py:205-209 | through retries, losses, repeats, overlapping passes, restarts and purges no signal with its own emission time reaches the engine twice |
| `SignalDelivery.DeliverKeeps` | src/worker/event_client.py:277-280 | a command the worker still takes is younger than the dedupe table remembers |
| `SignalDelivery.AcceptedMeansTaken` | manager/app/signal_router.py:241-248 | a delivery shown as accepted was taken by the worker, on every run |
| `SignalDelivery.EveryAcceptFires` | src/worker/event_client.py:305-311 | without a crash between insert and hand-over, taken means handed over |
| `SignalDelivery.TheLastAnswerCounts` | manager/app/event_hub.py:334-348 | on every run a command counts as completed or refused exactly when the last answer to it that arrived says so |
| `SignalDelivery.DeliveriesAreAnswered` | src/worker/event_client.py:193-236 | which deliveries are taken, confirmed and refused, in figures; nothing else changes |
| `SignalDelivery.PassesHandleDueRows` | manager/app/registry.py:582-590 | on every run a pass handles only rows that were unsettled and due at its time |
| `SignalDelivery.SubmissionsAreNoted` | manager/app/event_hub.py:214-259 | a submission puts a command on the wire when bytes reached it and is noted as sent, failed or not connected; the row gets the command only if the write went well |
| `SignalDelivery.OnlyTheOldIsForgotten` | manager/app/registry.py:436-444 | the purges take settled rows of more than thirty days and accepted signals of more than a week, and no others |
| `SignalDelivery.OverlappingPassesReopen` | manager/app/signal_router.py:222-229 | two overlapping passes can reopen an expired delivery |
| `SignalDelivery.UnstampedSignalsFireTwice` | manager/app/signal_router.py:193-203 | a signal stamped with the clock on each routing fires twice once both tables have forgotten it |
| `SignalRouter.AtMostEightAttempts` | manager/app/signal_router.py:257-272 | in serial passes a delivery living up to 120 s is submitted at most eight times |
| `SignalRouter.EightAttemptsHappen` | manager/app/signal_router.py:263-263 | and eight times is reached |
| `SignalRouter.SettledForGood` | manager/app/registry.py:582-590 | a terminal row never changes in serial passes |
| `SignalRouter.SettledByDeadline` | manager/app/signal_router.py:236-240 | a pass half a minute past the expiry leaves the row terminal, for good |
| `SignalRouter.SettledOnlyForItsReason` | manager/app/signal_router.py:235-255 | a delivery ends accepted, rejected or expired exactly when some pass, with nothing settled before, had that reason: command completed in time, refused in time, or time up |
| `SignalRouter.PassIsExact` | manager/app/signal_router.py:231-272 | one pass leaves a delivery that is not due, settles it for its reason, or tries again: one attempt more, the command remembered, the wait of 1, 2, 4, 8, 16, then 30 seconds |
| `SignalRouter.ManagerSignalRouter.OnSignal` | manager/app/signal_router.py:178-222 | one fresh delivery for every eligible agent that has none; with no agent eligible the signal is filed as unrouted and nothing else changes |
| `SignalRouter.ManagerSignalRouter.ProcessDueDeliveries` | manager/app/signal_router.py:231-272 | every row as one pass leaves it; those submitted are exactly the due ones neither expired nor settled, each once, the longest due first |
| `WorkerIpc.WorkerEventClient.HandleSignalDeliver` | src/worker/event_client.py:193-236 | a command is handed over exactly when it is for this engine and revision, at most five minutes old, at most one ahead, names a signal and that signal is new; for another engine it goes unanswered, else it is answered either way |
| `WorkerIpc.WorkerEventClient.AcceptSignal` | src/worker/event_client.py:305-311 | true exactly for a signal not in the table |
| `WorkerIpc.WorkerEventClient.Emit` | src/worker/event_client.py:238-249 | the next sequence number; execution events are stored before they are sent |
| `WorkerIpc.WorkerEventClient.ReplayOutbox` | src/worker/event_client.py:293-299 | every stored event once, oldest first, and stored still |
| `WorkerIpc.WorkerEventClient.AckEvent` | src/worker/event_client.py:301-303 | exactly that event is deleted |
| `WorkerIpc.WorkerEventClient.constructor` | src/worker/event_client.py:261-284 | a restart purges both tables of what is a week old |
| `WorkerIpc.EngineEventHub.HandleExecutionEvent` | manager/app/event_hub.py:314-330 | forwarded only if unprocessed; recorded and acknowledged exactly if processed or confirmed |
| `WorkerIpc.ConnectionSurvives` | manager/app/event_hub.py:268-289 | a connection survives exactly when every event is the greeted engine's, at its revision and on its latest connection, and each control event is fresh and numbered above the hello and everything before it, replays included |
| `WorkerIpc.ReplayCutsRestartedWorkers` | src/worker/event_client.py:115-124 | so replaying its outbox before a control event of any number cuts a restarted worker off exactly when a stored event carries another revision or a number not below that of the control event |
| `EventOutbox.NoEventIsLost` | src/worker/event_client.py:286-303 | on every run each emitted event is in the outbox, recorded by the manager, or over a week old |
| `EventOutbox.RecordedMeansConfirmed` | manager/app/event_hub.py:314-330 | recorded, acknowledged or deleted while young only after a confirmed forward |
| `EventOutbox.EventsLeaveByAnAnswerOrByAge` | src/worker/event_client.py:281-284 | an acknowledgement can arrive and takes its event out of the outbox; the two purges take what is more than a week and more than thirty days old, and no others |
| `EventOutbox.UnconfirmedForwardsLeaveNoTrace` | manager/app/event_hub.py:314-330 | a handler whose forward is not confirmed ends and leaves everything as it was |
| `EventOutbox.ForwardsAreAccountedFor` | manager/app/event_hub.py:314-330 | the exact number of confirmed forwards of an event on every run |
| `EventOutbox.ForwardedOnceUnlessLostOrForgotten` | manager/app/registry.py:509-522 | with one handler at a time a second forward needs one that died before recording, or a purged record |
| `EventOutbox.OverlappingHandlersForwardTwice` | manager/app/event_hub.py:314-326 | overlapping handlers forward twice with nothing lost |
| `EventOutbox.ForgottenEventsForwardTwice` | manager/app/registry.py:423-437 | an event whose acknowledgements never arrive is forwarded again after the 30-day purge |
| `PositionLaws.ClosesAreConserved` | src/positions/manager.py:373-433 | over any polls, failures and restarts the partial closes are the one on record, the unconfirmed and the forgotten; likewise hits |
| `PositionLaws.HitIsAlwaysEarned` | src/positions/manager.py:498-519 | on every run a TP1-hit trade has had its partial close or none was planned, and when the stop is to move the broker's stop is the one computed in the market of the last move from the anchor then in force: on the profitable side of it, at the broker's distance, covering the spread when a buffer is configured |
| `PositionLaws.HitTradesAreLeftAlone` | src/positions/manager.py:339-345 | a hit trade is never handled again, so a completion that failed to save is not retried by a poll |
| `PositionLaws.LotsFollowTheClose` | src/positions/manager.py:408-413 | the lots are the filled ones, less the TP1 lots once |
| `PositionLaws.CloseVolumeIsPlanned` | src/positions/manager.py:390-405 | the volume sent is the planned one when the broker trades it |
| `PositionLaws.BreakevenProtects` | src/positions/manager.py:673-723 | a breakeven stop is never on the losing side of its anchor, keeps the broker's distance, and covers a spread within the cap |
| `PositionLaws.BreakevenOfAnotherBasis` | src/positions/manager.py:673-723 | a stop is a breakeven stop of another anchor, in some market, exactly when it lies on its profitable side, or, without a buffer, is its rounding |
| `PositionLaws.ReloadLosesTheAnchor` | src/infra/database.py:107-137 | a reload measures breakeven from the fill: a stop set before it that is no breakeven stop of the reloaded trade in any market |
| `PositionLaws.ReasonMatchesRatio` | src/positions/manager.py:565-587 | with the stop still on the losing side the close reason says in which range the ratio fell |
| `PositionLaws.BreakevenTradesCloseAtZero` | src/positions/manager.py:655-670 | with the stop at breakeven, a trade filled at the signal's entry closes at ratio zero at every price |
| `PositionLaws.UnpricedStopsLookLikeWins` | src/positions/manager.py:566-587 | a close without any known price is called a stop-loss but recorded at the target, with the full planned ratio |
| `PositionLaws.UnconfirmedClosesRepeat` | src/positions/manager.py:379-433 | an unconfirmed close is repeated |
| `PositionLaws.UnsavedClosesRepeat` | src/positions/manager.py:408-417 | an unsaved close is repeated after a restart |
| `PositionLaws.StopMovesWithoutClose` | src/positions/manager.py:435-481 | for every trade and every broker answer: the stop has moved while a planned close is not on record exactly when the close was wanted, not confirmed, and a valid stop was asked for and not refused |
| `PollLaws.PollActsFromTp1On` | src/positions/manager.py:339-345 | a poll changes a trade, long or short, only if it awaits its TP1 and its profit is at least that at TP1; then it takes the three steps |
| `PollLaws.NothingHappensBeforeTp1` | src/positions/manager.py:309-345 | over every run, restarts included, nothing is closed, moved or hit until a poll finds the profit at TP1 or beyond |
| `PollLaws.CloseIsExact` | src/positions/manager.py:379-433 | when the partial close is sent, at which price and lots it goes on record, and when it does not |
| `PollLaws.CloseVolumeIsExact` | src/positions/manager.py:394-399 | the volume sent is the most whole steps of the planned one within what is open and what the broker takes |
| `PollLaws.MoveSeesTheMarketOfTheClose` | src/positions/manager.py:439-444 | the stop is computed in the market the close saw, as far as it saw one |
| `PollLaws.BreakevenIsExact` | src/positions/manager.py:673-723 | a level is found exactly when the anchor and its buffer leave the broker's room to the market, and it is that level to the nearest digit; buffer and room written out |
| `PollLaws.HitIsExact` | src/positions/manager.py:498-528 | a hit is recorded exactly when the close is on record or not planned and the stop moved and was confirmed or is not to move; what store, record and event then are |
| `PollLaws.ReasonIsByProfit` | src/positions/manager.py:565-584 | the reason of a close by the profit at the last price, whatever stop the trade has by then |
| `PollLaws.RatioIsProfitOverRisk` | src/positions/manager.py:655-670 | the ratio is the profit in units of the distance to the stop on record, zero when that is not on the losing side |
| `PollLaws.UnpricedClosesAreBookedAtTheTarget` | src/positions/manager.py:586-587 | a close at price zero is booked like one without a price: at the target, or without one at the entry |
| `PollLaws.CloseIsAnnouncedOnce` | src/positions/manager.py:613-622 | one close event, last, after the target or stop hit it was |
| `PollLaws.AdoptionIsFaithful` | src/positions/manager.py:292-304 | what an unknown position is taken over as: its record measured from the fill, or a stub with the position's levels and no history |
| `PollLaws.RestartTakesTheBrokersSide` | src/positions/manager.py:215-245 | what a restart makes of a position: its open record with the lots and stop of the broker, measured from the fill, or a stub |
| `PollLaws.OwnTradeIsStored` | src/execution/engine.py:431-458 | the own trade is tracked beside whatever the ticket already has, and goes on record if the save went well |
| `PollLaws.PollRemembersThePrice` | src/positions/manager.py:333-336 | every poll of a tracked ticket whose position is there remembers its price and gives a stub its whole grace again |
| `PollLaws.GoneTradesAreClosed` | src/positions/manager.py:530-560 | without its position the own trade leaves, closed at the last price seen or else at that of the deal |
| `PollLaws.GoneStubsGetTheirGrace` | src/positions/manager.py:316-331 | a stub without its position is closed, without price or ratio, by the poll that reaches the miss limit and by none before |
| `PositionManager.PositionManager.HandleTp1PriceReached` | src/positions/manager.py:349-528 | the own trade of the ticket, its record, the position and the history afterwards; the ticket's stub and the other tickets are not touched |
| `PositionManager.PositionManager.PartialClose` | src/positions/manager.py:379-433 | closed and recorded, closed without confirmation, or not at all, by what the broker did |
| `PositionManager.PositionManager.MoveStop` | src/positions/manager.py:476-481 | the broker's stop is the asked level unless it refused |
| `PositionManager.PositionManager.CompleteTp1` | src/positions/manager.py:504-528 | flag, stop and status in the store; record and event only with a successful save |
| `PositionManager.PositionManager.HandleAbsent` | src/positions/manager.py:316-331 | a trade without position leaves the store, its record with close price and ratio is written unless that fails, and the target or stop hit and the close are announced in this order; a stub only after some polls |
| `PositionManager.PositionManager.Poll` | src/positions/manager.py:281-345 | positions on unknown tickets are adopted, from a record or as stubs, then own trade and stub of every ticket are as one poll leaves them, in whatever order they are handled |
| `PositionManager.PositionManager.AdoptUnknown` | src/positions/manager.py:291-304 | every broker position the store lacks enters it, each once, and nothing else changes |
| `PositionManager.PositionManager.PutOwn` | src/execution/engine.py:431-458 | the own trade is stored under its id, whatever else the store has on its ticket |
| `TwinTrades.TwinsComeFromTheGap` | src/positions/manager.py:287-304 | a ticket has both a stub and an own trade exactly when a poll fell between the fill and the engine's storing of the trade |
| `TwinTrades.TwinsDoNotInterfere` | src/positions/manager.py:309-345 | while the position is open polls do to the own trade exactly what they do to a trade alone on its ticket, and nothing to the stub |
| `TwinTrades.TwinsCloseTwice` | src/positions/manager.py:316-331 | once the position is gone the own trade closes with the next poll and the stub when its grace is full: two closes for one position |
| `Provisioning.AgentProvisioner.Provision` | manager/app/provisioning.py:55-129 | all or nothing, and exactly when: it succeeds if and only if a slot, a port and a name are free, no step fails, the directory is new and the terminal not leased, with the lowest name and port; otherwise agents, allocations, leases and secrets are exactly as before; the data directory is lost exactly if it was there before |
| `Provisioning.AgentProvisioner.Compensate` | manager/app/provisioning.py:117-126 | what the flags say was done is undone |
| `Provisioning.AgentProvisioner.Write` | manager/app/provisioning.py:78-116 | the flags say exactly how far the writes came, for every stage of failure, and what the finished ones leave behind |
| `Provisioning.AgentProvisioner.AllocateIdentity` | manager/app/registry.py:221-250 | the lowest free name and port, or a random name once all numbers are used; an allocated random name and a full port range fail |
| `Provisioning.AgentProvisioner.TakeLease` | manager/app/registry.py:321-333 | a leased terminal is refused |
| `Provisioning.AgentProvisioner.Deprovision` | manager/app/provisioning.py:230-252 | every row of the agent goes; a failing archive leaves the agent without lease and secrets |
| `Provisioning.CompensationRestores` | manager/app/provisioning.py:117-126 | whatever was written for an unknown agent, the compensation takes back exactly |
| `ProvisioningRuns.AlwaysSound` | manager/app/provisioning.py:68-126 | on every interleaving of provisionings, failures, stepwise compensations and removals that gives out no name still being worked on, flags tell the truth, every lease and secret has an owner and ports are distinct |
| `ProvisioningRuns.FailureErasesOnlyItsOwn` | manager/app/provisioning.py:117-126 | on such a run a failure that has run its course has left no row of its own and every other row as it was |
| `ProvisioningRuns.FailureRestoresExactly` | manager/app/provisioning.py:78-126 | alone, a failure after any writes restores the four tables, even with a removal of its agent in between |
| `ProvisioningRuns.FailingAtOnceTakesNothingBack` | manager/app/provisioning.py:112-124 | a failure right after the allocation has nothing to take back but name and port |
| `ProvisioningRuns.UndisturbedProvisioningWrites` | manager/app/provisioning.py:78-110 | the steps of a provisioning that nothing disturbs leave exactly the rows asked for, as the method does |
| `ProvisioningRuns.UndisturbedRemovalErases` | manager/app/provisioning.py:230-250 | the steps of a removal that nothing disturbs erase exactly the rows of the agent |
| `ProvisioningRuns.NameIsSafeExactlyWhenVacant` | manager/app/provisioning.py:117-124 | a name just given out survives whatever the other provisionings do exactly when none of them is still at work on it |
| `ProvisioningRuns.NamesAreTakenTooEarly` | manager/app/provisioning.py:112-124 | and such a name is given out: the agent is removed between its registration and the announcement that fails |
| `ProvisioningRuns.RemovalUndoesProvisioning` | manager/app/provisioning.py:230-250 | deprovisioning undoes provisioning |
| `SignalQueue.IdsAlwaysExact` | src/signals/queue.py:88-112 | on every interleaving the id set is exactly the ids waiting, held, executing or dropped at a stop, all distinct, and the depth stays within 50 |
| `SignalQueue.StartedInOrder` | src/signals/queue.py:134-154 | until a stop, one worker starts signals in the order accepted, none skipped or doubled |
| `SignalQueue.AcceptedOnlyWhenFree` | src/signals/queue.py:90-99 | on every interleaving, stops and restarts included, an id is accepted exactly when it is in none of those places and there is room |
| `SignalQueue.NothingStartsWhilePaused` | src/signals/queue.py:147-148 | while the queue is paused no signal starts, whatever else happens |
| `SignalQueue.ResumeLetsTheHeldGo` | src/signals/queue.py:114-124 | a pause holds a taken signal until resumed, then it can run; a pause and resume change nothing else |
| `SignalQueue.NothingStartsAfterAStop` | src/signals/queue.py:136-151 | from a stop, with the queue full or not, until the next start no further signal begins to run, and every worker outside the get and its execution may leave |
| `SignalQueue.GetReturnsTheOldest` | src/signals/queue.py:137-143 | a get returns the oldest entry whenever there is one and times out on the empty queue only |
| `SignalQueue.StopDropsTheHeldSignal` | src/signals/queue.py:147-151 | a signal held when the stop comes blocks its id for good |
| `SignalQueue.SentinelLeftBehind` | src/signals/queue.py:67-75 | on every run a sentinel is in the queue exactly when stops have posted more than workers have taken |
| `SignalQueue.OldSentinelEndsTheNewWorker` | src/signals/queue.py:134-151 | a new worker is ended exactly when it meets the first sentinel it found in the queue, after everything ahead of it and nothing behind; without one, never |
| `SignalQueue.WaitingWorkerTakesTheSentinel` | src/signals/queue.py:134-143 | a worker inside the blocking get takes the sentinel of its own stop |
| `SignalQueue.BusyWorkerLeavesTheSentinel` | src/signals/queue.py:134-151 | a worker that sees the flag first leaves it |
| `SignalQueue.EarlyStartRunsTwoAtOnce` | src/signals/queue.py:57-75 | a start while the stopped worker still executes makes two signals run at once |
| `SignalQueue.SignalQueue.Put` | src/signals/queue.py:80-112 | accepted exactly when new and within the depth, with the state after |
| `SignalQueue.SignalQueue.Take` | src/signals/queue.py:136-143 | the next entry leaves the queue, whether or not the stop flag is set by then; a sentinel ends the worker; an empty queue times out |
| `SignalQueue.SignalQueue.Turn` | src/signals/queue.py:134-137 | the top of the loop: the worker leaves when stopped, else goes into the get |
| `SignalQueue.SignalQueue.Proceed` | src/signals/queue.py:145-154 | run, or dropped when stopped |
| `SignalQueue.SignalQueue.Finish` | src/signals/queue.py:160-166 | the id is free after the execution |
| `SignalQueue.SignalQueue.SetPaused` | src/signals/queue.py:114-124 | paused exactly as asked, nothing else changed |
| `SignalQueue.SignalQueue.StopWorker` | src/signals/queue.py:67-73 | stopped, with a sentinel queued if there is room |
| `SignalQueue.SignalQueue.StartWorker` | src/signals/queue.py:57-65 | a new idle worker beside whatever is still running, and no stop; the queue and the ids stay as they are |

## Left out

- AdmissionLaws.TradeCapHolds: trades adopted from the broker take part in the counting but not in the bound, because nothing caps what is opened outside the engine.
- AdmissionLaws.SymbolCapHolds: likewise for adopted trades on the symbol.
- ClusterBudget.ClusterBudgetHolds: one group and one day, with closes after their opens and no re-admission during unwinding; two runs show the bound fails otherwise, and `ClusterAccounts.BudgetIsAccountedFor` says by how much it can.
- EndToEnd.AllStopsTogetherFitTheBudget: assumes that the minimum lot did not decide a size and that no fill is larger than planned; slippage of the stop order itself is not part of it.
- SignalDelivery.FiresAtMostOnce: assumes emission times that are the signal's own and not in the future, one steady clock, and a bound on one pass; the bound leaves almost a week.
- LossGuardLaws.OnceTrippedNothingPasses: days have a fixed offset and each call reads the clock once, so daylight saving and a midnight inside one call are not covered.
- PositionLaws.HitIsAlwaysEarned: nobody but the manager moves the broker's stop.
- PositionLaws.ReasonMatchesRatio: speaks of a known last price; the case without one is `PositionLaws.UnpricedStopsLookLikeWins`.
- OrderManager.HalvingNeverRaises: asks that the planned volume meets the broker's minimum and that steps and limits are hundredths.
- ProvisioningRuns.AlwaysSound: asks that no name is given out while a provisioning of that name is at work, which the source does not check; a removal finds its agent registered at each of its steps.
- TwinTrades.TwinsDoNotInterfere: a restart leaves one trade on the ticket, read back from one of its open records; the laws over restarts follow the own one.
- SignalQueue.StartedInOrder: one worker and no stop; with two workers the start order is a race.
- The purge of old command outcomes: a delivery looks at an outcome within its two minutes only.
- The map from signals to trades in a group's state, which is written and never read.
- ClusterRisk.ClusterRiskTracker.StateFor: a group's state is a value in the map rather than an object of its own.
- The position store as an object of its own: engine and position manager hold trades as a map of values, so its copying and aliasing do not arise.
- Admission steps do not roll the day of the cluster book over; `ClusterRiskTracker` does.
- The cluster and throttle previews are read before the rule loop, not inside it.
- Binary floating point and its rounding, except where a rounding function is written out.
- Hydrating open trades and closed rows into the trackers from the database, except as initial states.
- Emergency close of all, closing on command, and the other worker commands.
- SQL text and transactions: each statement is its effect on a map.
- Thread scheduling inside one handler step; sequence numbers drawn by two threads at once.
- Data directories under concurrent provisionings; `Provisioning.AgentProvisioner` has them for one at a time.
- Signals that arrive straight from the gateway, and the hello's token and registration checks.
- License checks, configuration files and revisions, terminal reassignment, crash supervision and reconciliation.
- The user interface, the HTTP and WebSocket layers, logging, metrics and message serialisation.
