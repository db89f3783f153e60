# A verified model of the bot's money-handling core

This project models the parts of the trading bot and its research scripts that compute with money and have to
be right on every input, and proves what they promise. Each module mirrors one component:

- **Wallet ledger** (`EulerTrails`, `Ledger`, `CashOrdering`, `DemoBalance`, `DailyCloses`, `WalletHistory`,
  `WalletOrigin`, `WalletRowOrder`, `WalletListing`, `WalletSeries`, `WalletExamples`):
  ledger rows of one millisecond are edges between cash balances; a stack-based Euler-trail search orders them,
  the batches chain up to the wallet anchor, and the chain is cut into UTC days.
- **Balance series** (`BalanceHistory`, `BalanceReading`, `BalanceCache`, `BalanceRefusal`): the independent validator
  of the published series, and its retention: anchoring on closed days, joining older days, the public window.
- **Strategy replay** (`ReplayModel`, `ReplayAccounts`, `ReplayRisk`, `ReplayTrail`, `ReplayExits`,
  `ReplayCaps`, `ReplayCapRuns`, `ReplayReclaim`, `ReplayRules`, `ReplayCandle`, `ReplayRuns`, `ReplayFees`,
  `ReplayEngine`, `ReplayExamples`, `ReplayCapExamples`, `Drawdown`):
  the candle-by-candle engine as step functions with whole-run theorems, the rules of a candle that every run follows
  and the fee schedule they amount to, the same engine as an object updated in place, and the drawdown of its results.
- **Planner** (`Rounding`, `PlanDomain`, `ExitLadder`, `Planner`, `PlannerBudget`, `PlannerExits`, `PlannerGuards`,
  `PlannerFixpoint`, `PlannerTerms`, `PlannerDecision`, `PlannerExamples`, `EntrySlices`): risk-budgeted three-leg plans,
  refresh at the submission quote, rebase on the actual fill, trader-capped exits and physical entry slices.
- **Forensics** (`Forensics`, `RiskCap`, `HealthGate`): the concurrent-risk cap and the walk-forward gate.
- **Supporting algorithms** (`Pagination`, `Attribution`, `AttributionSafety`, `AttributionLaw`, `AttributionRefusal`):
  reverse-cursor pagination and the attribution of executions to actions.

`Wrappers`, `Sequences`, `Arithmetic` and `Trading` hold shared vocabulary. Money, prices and quantities are exact
reals. Instants are integers: microseconds in the balance series, milliseconds elsewhere; days are day numbers.
Code that updates state is a method (in `ReplayEngine` a class whose `View` is the model's state), proved equal to a
function or to a declarative predicate; the theorems are about that function or predicate. The main theorem of each
operation is stated in the fields of its inputs and outputs, without the functions the operation is built from.

Four things the proofs found:

- The ledger producer checks neither label characters, nor the sign of a price, nor the microsecond the window
  starts at, nor that a day has at most 10,000 records, while the validator does: a produced series is valid exactly
  when its rows are publishable (`WalletHistory.ProducerMeetsValidator`). Three one-row ledgers are reconstructed
  into series the validator rejects (`WalletExamples.ProducerAcceptsUnpublishable`).
- A first millisecond whose rows close a cycle is opened at its first listed row, so a ledger that does chain up can be
  refused, and the same rows listed in another order are accepted (`WalletExamples.ListingDecides`). The exact
  condition: a ledger that chains up to its wallet is reconstructed if and only if its first millisecond is no cycle
  or its first listed row starts at the wallet less every change in the window (`WalletOrigin.AcceptedExactlyWhen`).
  Every accepted listing of the same rows gives the same series (`WalletRowOrder.AcceptedSeriesAgree`).
- A freshly armed trailing stop locks +0.05R exactly when its anchor clears the required floor
  (`ReplayTrail.ArmedTrailLocks`); the engine also arms it when the anchor does not, and a run that exits on such a
  trail can lose (`ReplayExamples.ArmedBelowFloor`).
- The E3 loss cap holds for every run whose third leg fills at its level (`ReplayCapRuns.CappedLoss`), but a reclaim
  can put the cap stop ahead of a target, which then sells short of it: a concrete run loses more than its cap
  (`ReplayCapExamples.ReclaimBreaksCap`). The exact condition, on the candle that fills the third leg: the cap holds on
  every continuation if and only if that candle stops the position out, or selling the targets short of the stop and
  stopping out the rest would leave at least minus the cap (`ReplayReclaim.ReclaimedLoss`).

## Model

| member | source | states |
|---|---|---|
| `CashOrdering.CashPath` | src/cautious_crypto_bro/demo_balance.py:36-75 | returns exactly when some ordering of the transitions chains from the opening; the path then uses every transition once, duplicates and self-loops included; without an opening a closed cycle starts at the first listed row |
| `CashOrdering.Traverse` | src/cautious_crypto_bro/demo_balance.py:62-69 | the stack loop leaves no unused transition out of any balance it visited and, from a balanced root, splits the transitions into its path and the rest |
| `CashOrdering.CollectEdges` | src/cautious_crypto_bro/demo_balance.py:42-51 | the adjacency lists, expected pairs and degrees counted by the first loop are those of the rows |
| `CashOrdering.SearchSucceeds` | src/cautious_crypto_bro/demo_balance.py:58-75 | completeness of the search: if any trail exists, the search from the chosen root finds one, and its end is forced |
| `EulerTrails.NothingIsLeftOver` | src/cautious_crypto_bro/demo_balance.py:64-73 | if some trail uses every edge, a search that exhausts each balance it visits misses none |
| `EulerTrails.ClosingBalanceIsDetermined` | src/cautious_crypto_bro/demo_balance.py:39-43 | two orderings of the same transitions from one start end at the same balance, whatever the row order |
| `EulerTrails.OpenTrailStartIsDetermined` | src/cautious_crypto_bro/demo_balance.py:52-61 | an open trail can only start at the one balance left once more than it is entered |
| `DemoBalance.ValidatedRows` | src/cautious_crypto_bro/demo_balance.py:103-115 | accepts exactly the windows whose rows are valid and do not contradict a repeated identity; the result is each identity once, stably sorted by time |
| `DemoBalance.FirstOccurrencesElements` | src/cautious_crypto_bro/demo_balance.py:104-115 | deduplication keeps only given rows and no identity twice |
| `DemoBalance.GroupByTime` | src/cautious_crypto_bro/demo_balance.py:147-150 | the loop computes the grouping of `BatchesAreGroups` |
| `DemoBalance.BatchesAreGroups` | src/cautious_crypto_bro/demo_balance.py:147-150 | grouping sorted rows loses nothing and gives nonempty batches of strictly increasing time |
| `DemoBalance.ChainBatches` | src/cautious_crypto_bro/demo_balance.py:145-150 | succeeds exactly when the batches form one unbroken cash chain from the first opening |
| `DemoBalance.ChainIsDetermined` | src/cautious_crypto_bro/demo_balance.py:145-150 | with the opening fixed, the closing balances of all batches do not depend on the order of the rows inside them |
| `WalletHistory.DailyWalletHistory` | src/cautious_crypto_bro/demo_balance.py:118-161 | succeeds exactly on ledgers with a chain that ends at the wallet anchor and returns the series of that chain |
| `WalletHistory.ChainIsOneTrail` | src/cautious_crypto_bro/demo_balance.py:145-152 | all batches together are one trail from the origin to the last close |
| `WalletHistory.WalletIsOriginPlusChanges` | src/cautious_crypto_bro/demo_balance.py:145-152 | conservation: the wallet anchor is the chain's origin plus every wallet change in the window |
| `WalletHistory.ChangeIsMovement` | src/cautious_crypto_bro/demo_balance.py:207-224 | a day's published change is the sum of the wallet changes of its own activity |
| `WalletHistory.ProducerMeetsValidator` | src/cautious_crypto_bro/demo_balance.py:118-227 | the reconstructed series passes the validator exactly when its rows are publishable |
| `WalletOrigin.AcceptedExactlyWhen` | src/cautious_crypto_bro/demo_balance.py:118-161 | the exact condition: a ledger is reconstructed if and only if interval and rows are acceptable, it chains up to the wallet, and a cycle in its first millisecond is listed from the wallet less every change |
| `WalletOrigin.TakenChainExists` | src/cautious_crypto_bro/demo_balance.py:58-61 | batch by batch: a chain from the opening the source takes exists exactly when a chain exists at all and that cycle is listed from its origin |
| `WalletListing.AcceptedWhenListed` | src/cautious_crypto_bro/demo_balance.py:78-161 | the exact condition in rows alone: the window and every row are as the exchange must report them, equal identities are equal rows, and the rows, once each and by time, can be listed so that each starts at the balance the one before it left and the last leaves the wallet, a first millisecond that moves nothing being given from where that listing opens |
| `WalletListing.TrailsAreListings` | src/cautious_crypto_bro/demo_balance.py:36-75 | the rows of one millisecond have an Euler trail from an opening exactly when they can be listed so that each starts where the one before it ended |
| `WalletSeries.SeriesFromRows` | src/cautious_crypto_bro/demo_balance.py:118-227 | every day read off the rows: its balance is the wallet less everything that moved since, known exactly when some row reaches back to it; its change is what moved on it; when it is settled; and its records are those of its rows, in order and field by field |
| `WalletExamples.ListingDecides` | src/cautious_crypto_bro/demo_balance.py:58-61 | a concrete ledger of three rows that chains up to its wallet, refused in one listing and accepted in another |
| `WalletExamples.ProducerAcceptsUnpublishable` | src/cautious_crypto_bro/demo_balance.py:78-100 | three one-row ledgers, with a bad label, a negative price and a row before the window's microsecond, are reconstructed into series the validator rejects |
| `WalletRowOrder.AcceptedSeriesAgree` | src/cautious_crypto_bro/demo_balance.py:118-161 | two accepted listings of the same rows give the same date, balance, change and completeness on every day, and the same records up to their order |
| `WalletRowOrder.OrderMattersOnlyForCycles` | src/cautious_crypto_bro/demo_balance.py:118-161 | another listing of an accepted ledger is accepted exactly when its first millisecond is no cycle or is listed from the origin |
| `WalletHistory.CapturesCanBeAnchored` | src/cautious_crypto_bro/demo_balance_cache.py:131-151 | a publishable capture anchored on any valid retained series is refused for a contradiction or valid, never malformed |
| `DailyCloses.PublicActivities` | src/cautious_crypto_bro/demo_balance.py:164-184 | the dictionary holds, for every date, that day's records in ledger order |
| `DailyCloses.CutIntoDays` | src/cautious_crypto_bro/demo_balance.py:187-227 | the two-pointer pass over days and closes gives each day its declared record |
| `DailyCloses.BalancesTelescope` | src/cautious_crypto_bro/demo_balance.py:187-227 | every observed balance is the origin plus all wallet changes before it |
| `DailyCloses.DayTotal` | src/cautious_crypto_bro/demo_balance.py:164-184 | what moved between two midnights is exactly that day's published activity |
| `BalanceHistory.CheckDay` | src/cautious_crypto_bro/dashboard_balance.py:70-125 | the day checks, with the sum over the activity, decide day validity exactly |
| `BalanceHistory.ValidateBalanceHistory` | src/cautious_crypto_bro/dashboard_balance.py:128-163 | the one-pass validator accepts exactly the consecutive, consistent, complete series |
| `BalanceReading.ValidSeriesReads` | src/cautious_crypto_bro/dashboard_balance.py:70-163 | what a validated series shows: at most ninety days, one record a day, records inside their day and the covered interval that add up, settled days whole in the past, known changes those of the records |
| `BalanceReading.ValidSeriesAddsUp` | src/cautious_crypto_bro/dashboard_balance.py:128-163 | over any stretch of known changes a later balance of a validated series is the earlier one plus every wallet change recorded between |
| `BalanceCache.AnchoredWindow` | src/cautious_crypto_bro/demo_balance_cache.py:131-151 | the loop computes the forward fill and succeeds exactly when that fill does and is valid; what it fills and when it fails is stated from the retained days by the rows below |
| `BalanceCache.ObservationsAreKept` | src/cautious_crypto_bro/demo_balance_cache.py:106-151 | a balance this capture observed is kept or the pass fails; dates and activity never change |
| `BalanceCache.FilledBalancesAreGrounded` | src/cautious_crypto_bro/demo_balance_cache.py:106-151 | every balance in the result is retained, observed or closed evidence of that day or an earlier one plus all wallet changes since; the eve counts by its date and completeness alone |
| `BalanceCache.FillsIgnoreLaterDays` | src/cautious_crypto_bro/demo_balance_cache.py:140-151 | no fill is justified by a later day: captures that agree up to a day are filled alike up to it |
| `BalanceCache.EveCarriesForward` | src/cautious_crypto_bro/demo_balance_cache.py:131-151 | with a retained closed record one day before the window, every day of an anchored window has that balance plus all wallet changes since, and its own movement as change |
| `BalanceCache.EveRefuses` | src/cautious_crypto_bro/demo_balance_cache.py:114-128 | a day observed at any other balance than that makes the anchoring fail |
| `BalanceCache.ClosedDayIsKept` | src/cautious_crypto_bro/demo_balance_cache.py:106-111 | a day the capture could not price takes the balance of the retained closed record of its date, which has the same activity |
| `BalanceCache.ClosedDayCarriesForward` | src/cautious_crypto_bro/demo_balance_cache.py:140-151 | inside the window a closed day carries its balance to the next day |
| `BalanceCache.OtherDaysAreAsCaptured` | src/cautious_crypto_bro/demo_balance_cache.py:106-151 | a day that nothing closed precedes, and of which no closed record was retained, stays as captured |
| `BalanceRefusal.RefusedExactlyWhen` | src/cautious_crypto_bro/demo_balance_cache.py:106-151 | anchoring fails if and only if some day loses the activity of a retained closed day, or is known at another balance than the closed one before it plus its own movement |
| `BalanceRefusal.SeamConflictsExactlyWhen` | src/cautious_crypto_bro/demo_balance_cache.py:70-85 | the seam check fails if and only if the retained day right before the window, at most 89 days before the capture, and the first day's change do not add up to its balance |
| `BalanceCache.AnchoredWindowIsValid` | src/cautious_crypto_bro/demo_balance_cache.py:131-151 | anchoring a settled valid capture on a valid series gives a valid series |
| `BalanceCache.JoinedIsValid` | src/cautious_crypto_bro/demo_balance_cache.py:63-103 | the older slice, the gap days and the window join to a valid series of at most 90 days |
| `BalanceCache.FillGap` | src/cautious_crypto_bro/demo_balance_cache.py:86-97 | the gap loop appends exactly the missing unknown days |
| `BalanceCache.JoinOlder` | src/cautious_crypto_bro/demo_balance_cache.py:63-103 | refuses exactly a disagreement at the seam; otherwise keeps older days verbatim, and the closing validation cannot fail |
| `BalanceCache.Merge` | src/cautious_crypto_bro/demo_balance_cache.py:55-103 | fails exactly for a backward capture, an unanchorable one or a contradiction; its result is valid; a capture that contradicts the retained closed eve is refused, and an accepted window follows that eve |
| `BalanceCache.MergedDaysAre` | src/cautious_crypto_bro/demo_balance_cache.py:63-103 | the merged series is the older days of the 89 days before the capture verbatim, unknown days for the gap, and the anchored window |
| `BalanceCache.PublicWindowIsValid` | src/cautious_crypto_bro/demo_balance_cache.py:154-167 | the public window of a valid series is valid, verbatim, at most 31 days, and starts at the midnight thirty days back or at the series' own start |
| `BalanceCache.CollectFeed` | src/cautious_crypto_bro/demo_balance_cache.py:170-221 | a refresh fails exactly without a capture, when the merge refuses it or when the feed does not fit; a failed one publishes the retained series and leaves it alone; what is published and retained is always valid |
| `ReplayModel.ReplayFrom` | scripts/replay_strategy_v2.py:717-1040 | a run continues from any state it passes through |
| `ReplayRuns.RequestIsChecked` | scripts/replay_strategy_v2.py:529-579 | a request is refused for its options, its fees or its levels, in this order, and accepted otherwise with the stop and the levels at their multiples of the planned distance |
| `ReplayRuns.ReplayFollows` | scripts/replay_strategy_v2.py:611-1040 | every replay is a run of the candle rules: it opens with E1 at its own fee, each candle follows the rules, and what is open at the end is sold at the last close |
| `ReplayCandle.StepFollows` | scripts/replay_strategy_v2.py:717-1031 | every candle, from the entries to the trailing stop, follows rules written out in prices, quantities, fee rates and times, with every other field unchanged |
| `ReplayRules.EntriesFollow` | scripts/replay_strategy_v2.py:727-805 | which scale-ins fill and when, each risking its weight between its price and the stop: at a level for the maker fee, on a reclaim at the close for the taker fee; the cap stop moves to exactly the cap where it would lose more |
| `ReplayRules.EventsFollow` | scripts/replay_strategy_v2.py:843-893 | the events before the candle's end, one after another: funding pays quantity times price times rate, CLOSE sells all, a sized REDUCE its percentage with every pending exit keeping its share, and any of them fixes the exits |
| `ReplayCandle.TrimFollows` | scripts/replay_strategy_v2.py:895-913 | the risk trim acts exactly when a stop-out would lose more than the cap and the close is better, and sells just what leaves a stop-out at the cap, or everything |
| `ReplayCandle.ExcursionFollows` | scripts/replay_strategy_v2.py:920-942 | the excursion is the largest so far; the exits are fixed on the candle that gets to the first target or the trail, at the multiples a trader's target leaves them and the percentages of what is open |
| `ReplayCandle.TargetsFollow` | scripts/replay_strategy_v2.py:944-964 | the targets a candle gets to are sold at their prices for the maker fee, in order and as far as the position goes, and are pending no longer; the others stay |
| `ReplayCandle.ConclusionFollows` | scripts/replay_strategy_v2.py:966-1031 | when a time stop sells, when the trail is armed and how far behind its anchor, and how it follows the best price |
| `ReplayFees.FeesFollowSchedule` | scripts/replay_strategy_v2.py:611-667 | the fees of every run: E1 at its own rate, fills at the scale-in levels and sales at targets at the maker rate, every other purchase and sale at the taker rate |
| `ReplayFees.TargetProceeds` | scripts/replay_strategy_v2.py:944-964 | with the exits covered, a candle's targets bring in exactly the gain of each pending quantity it gets to, less the maker fee |
| `ReplayAccounts.StepIsBooked` | scripts/replay_strategy_v2.py:646-667 | one candle keeps the books: realized equals signed cash plus the open quantity at its average, across averaging fills, partial closes and funding |
| `ReplayAccounts.ReplayConservesCash` | scripts/replay_strategy_v2.py:606-667 | every run ends flat, and its result is signed exit proceeds minus entry cost, minus the fees booked, plus funding; the fills risked exactly the filled weights; the rates those fees are charged at are the subject of `ReplayFees.FeesFollowSchedule` |
| `ReplayRisk.GrossResult` | scripts/replay_strategy_v2.py:575-614 | every run's result before fees is what its exits fetched beyond the stop minus the filled weights |
| `ReplayRisk.LossIsBounded` | scripts/replay_strategy_v2.py:807-832 | with no lifecycle exit worse than the stop (in particular without events) no run loses more than its weights before fees, so never more than 1R |
| `ReplayTrail.ArmedTrailLocks` | scripts/replay_strategy_v2.py:978-1022 | a freshly armed trail locks +0.05R after the exit fee exactly when its anchor clears the required floor |
| `ReplayTrail.StepKeepsLock` | scripts/replay_strategy_v2.py:807-832 | a later candle exits with at least 0.05R or keeps the lock; the trail never retreats and every pending target stays beyond it |
| `ReplayTrail.LockedProfit` | scripts/replay_strategy_v2.py:944-1040 | a run whose trail was armed clear of the floor returns at least 0.05R on every continuation, LONG and SHORT, by trail, target, time stop or end of data |
| `ReplayExits.TargetSellsItsQuantity` | scripts/replay_strategy_v2.py:944-964 | a target of a covered position sells exactly its pending quantity: the clamp does not bind |
| `ReplayExits.ReducedKeepsRunnerShare` | scripts/replay_strategy_v2.py:874-893 | a REDUCE keeps the runner's share of the remaining quantity and the exits covered |
| `ReplayExits.PendingExitsFit` | scripts/replay_strategy_v2.py:646-686 | on every candle of every run, events included, pending exits total at most the open quantity; with the risk trim too, if there are no events and candle times increase |
| `ReplayExits.TargetsAreNeverClamped` | scripts/replay_strategy_v2.py:944-964 | on every candle of every run the engine's step goes through the state in which it considers the targets; they are sold whole there and leave the runner alone |
| `ReplayCapExamples.TrimOutrunsExits` | scripts/replay_strategy_v2.py:843-913 | a concrete run, in both directions, in which an event fixes the exits, the trim then sells half of the position and the pending targets ask for more than is left |
| `ReplayCaps.LossCapHolds` | scripts/replay_strategy_v2.py:798-805 | with a loss cap, the stop in force once the third leg filled limits the whole position's loss to the cap after all fees, and is never looser than before |
| `ReplayCapRuns.CappedLoss` | scripts/replay_strategy_v2.py:717-1040 | with a loss cap, without events and without reclaim, a run whose third leg filled never ends below minus the cap after all fees |
| `ReplayCapRuns.FilledLoss` | scripts/replay_strategy_v2.py:717-1040 | however the third leg filled, the run ends at minus the cap or better if the filling candle also stops it out, if the stop is then not ahead of the average entry, or if early targets cannot cost the cap |
| `ReplayReclaim.ReclaimedLoss` | scripts/replay_strategy_v2.py:742-805 | under reclaim, every continuation of a run ends at minus the cap or better if and only if the filling candle stops it out or selling the targets short of the stop and stopping out the rest leaves as much |
| `ReplayCapExamples.ReclaimBreaksCap` | scripts/replay_strategy_v2.py:742-805 | a concrete run, in both directions, that reclaims, sells a target short of its cap stop and loses more than the cap |
| `ReplayCapExamples.ReclaimIsUnsafe` | scripts/replay_strategy_v2.py:742-805 | that run meets every hypothesis of the reclaim theorem, and its filling candle is not safe |
| `ReplayCaps.TrimReachesCap` | scripts/replay_strategy_v2.py:895-913 | a risk trim that sells part leaves a stop-out of exactly the cap, sells everything when that is not enough, and nothing when none is needed |
| `ReplayCapRuns.TrimmedLoss` | scripts/replay_strategy_v2.py:895-913 | a run that survives the candle that filled its third leg ends at minus the trim cap or better if selling everything at that close would leave as much, and otherwise at exactly what that sale leaves |
| `ReplayExamples.RunWorkedOut` | scripts/replay_strategy_v2.py:717-1040 | one concrete run in both directions: scale-in, two targets, armed trail, exit on it at 1.35R |
| `ReplayExamples.RunLocksProfit` | scripts/replay_strategy_v2.py:978-1022 | that run meets every hypothesis of the locked-profit theorem |
| `ReplayExamples.ArmedBelowFloor` | scripts/replay_strategy_v2.py:978-1022 | a concrete run, in both directions, whose trail is armed short of the required floor and exits on it with a loss |
| `ReplayEngine.Engine.Play` | scripts/replay_strategy_v2.py:717-1031 | one candle on the object is one step of the model: same state, same return, same stop flag |
| `ReplayEngine.Engine.Close` | scripts/replay_strategy_v2.py:646-667 | closes at most the open quantity and books it |
| `ReplayEngine.Engine.HandleEvents` | scripts/replay_strategy_v2.py:843-893 | the event loop with its running index is the model's recursion over the events |
| `ReplayEngine.Engine.FillThirdLeg` | scripts/replay_strategy_v2.py:728-805 | the third leg with its delay, reclaim confirmation, stop cap and trim mark |
| `ReplayEngine.Engine.SellTargets` | scripts/replay_strategy_v2.py:944-964 | the loop over the targets is the three sales of `ReplayCandle.TargetsFollow` in order |
| `ReplayEngine.Engine.UpdateTrail` | scripts/replay_strategy_v2.py:978-1031 | arming and raising the trailing stop in place |
| `ReplayEngine.ReplayCase` | scripts/replay_strategy_v2.py:513-1040 | the whole replay: rejected requests run nothing, the others report the final state of the model's run: its cash, funding, excursion, stop flag, actions and filled legs |
| `Drawdown.MaxDrawdown` | scripts/replay_strategy_v2.py:1132-1155 | the one pass finds the deepest fall over all pairs of points of the start-sorted equity curve, the empty prefix included |
| `Drawdown.DeepestFallIsUnique` | scripts/replay_strategy_v2.py:1132-1155 | the deepest fall is determined by the curve |
| `Rounding.HalfUpIsNearest` | src/cautious_crypto_bro/execution.py:1168-1175 | half-up rounding gives a nearest integer and sends ties away from zero |
| `Rounding.RoundPriceIsMonotone` | src/cautious_crypto_bro/execution.py:1168-1175 | tick rounding keeps the order of prices |
| `Rounding.RoundPriceIsIdempotent` | src/cautious_crypto_bro/execution.py:1168-1175 | a rounded price rounds to itself |
| `Rounding.RoundDownIsLargest` | src/cautious_crypto_bro/execution.py:1178-1185 | the stepped quantity is the largest multiple that fits |
| `PlannerBudget.SizedQuantityIsLargest` | src/cautious_crypto_bro/execution.py:825-830 | a leg's quantity stays within its budget, and no larger multiple of the step would |
| `PlannerBudget.LossIsWeighted` | src/cautious_crypto_bro/execution.py:65-77 | the legs' losses add up to total quantity times the distance from the weighted entry to the stop |
| `PlannerBudget.PlanIsAffordable` | src/cautious_crypto_bro/execution.py:81-165 | every accepted plan loses at most its risk budget at the stop, and its planned loss is total quantity times weighted distance |
| `PlannerBudget.PlanUsesShares` | src/cautious_crypto_bro/execution.py:814-860 | each leg of an accepted plan sits at its level and fills its own share of the budget to within one quantity step |
| `PlannerBudget.RebaseIsAffordable` | src/cautious_crypto_bro/execution.py:325-419 | the same for a rebase on any accepted fill price and quantity |
| `PlannerBudget.ScaleIsFraction` | src/cautious_crypto_bro/execution.py:540-572 | the remaining scale exists exactly when the fill leaves budget, lies in (0, 1], fits what is left, and is 1 exactly when the fill fits its own share; how much it uses is `PlannerTerms.RebaseSpendsWhatIsLeft` |
| `PlannerBudget.RefreshOnlyShrinks` | src/cautious_crypto_bro/execution.py:273-323 | a refresh never grows E1, keeps stop and budget, and always rebases with the whole scale-in budget |
| `PlannerTerms.PlanSpendsItsBudget` | src/cautious_crypto_bro/execution.py:81-165 | each leg of an accepted plan spends its percentage of capital times risk percentage, and one quantity step more would exceed it |
| `PlannerTerms.RebaseSpendsWhatIsLeft` | src/cautious_crypto_bro/execution.py:421-463 | the scale-ins of an accepted rebase spend exactly what the fill leaves of the budget, or their own percentage where it leaves more, each in proportion, as far as the quantity step allows |
| `PlannerTerms.ScaleUsesWhatIsLeft` | src/cautious_crypto_bro/execution.py:540-572 | the scale-in budget in use is the smaller of the scale-ins' percentage and the budget less the fill's risk |
| `PlannerTerms.RefreshKeepsWhatFits` | src/cautious_crypto_bro/execution.py:273-323 | a refresh keeps as many steps of E1 as the plan and its percentage of the budget allow at the quote |
| `PlannerTerms.PlanSitsAsAsked` | src/cautious_crypto_bro/execution.py:236-271 | an accepted plan has the trader's stop or the policy's and the entries its intent asks for, range entries included, each rounded to a tick, and its orders sit there |
| `PlannerTerms.PlanExitsStand` | src/cautious_crypto_bro/execution.py:862-973 | the exits of an accepted plan stand at their multiples of the risk beyond its average entry, squeezed under a closer trader target |
| `PlannerTerms.RebaseStandsAroundFill` | src/cautious_crypto_bro/execution.py:502-634 | a rebase puts the scale-ins at their depths from the fill and the exits beyond the new average |
| `PlannerDecision.PlanAcceptedExactlyWhen` | src/cautious_crypto_bro/execution.py:81-165 | a plan is accepted if and only if tick, step, capital and leverage allow it and there are a stop, three descending entries whose orders spend the budget and meet the minimums, and exits that rise strictly and leave a runner |
| `PlannerDecision.RebaseAcceptedExactlyWhen` | src/cautious_crypto_bro/execution.py:325-419 | a rebase of an unsliced plan is accepted if and only if the fill is one of a MARKET ladder beyond its stop and there are scale-ins that spend what it leaves, meet the minimums and carry exits |
| `PlannerDecision.FitForRebase` | src/cautious_crypto_bro/execution.py:465-500 | the input checks of a rebase pass exactly on a second-version MARKET ladder of three legs and a positive fill beyond its stop |
| `PlannerDecision.RefreshIsLargestRebase` | src/cautious_crypto_bro/execution.py:273-323 | a refresh is the rebase on the most steps of E1 that plan and budget allow at the quote, and refused where the instrument does not take them |
| `PlannerDecision.PlanTakesLeverage` | src/cautious_crypto_bro/execution.py:168-182 | a plan takes the leverage asked for, ten by default, or the highest step of the instrument at or below it |
| `PlannerDecision.ExitsDecide` | src/cautious_crypto_bro/execution.py:862-1097 | the exits of any ladder are accepted exactly when they can all be placed |
| `ExitLadder.DeriveTakeProfits` | src/cautious_crypto_bro/execution.py:975-1027 | the loop with its previous price returns the first fault or all targets |
| `ExitLadder.AcceptedWhenStrict` | src/cautious_crypto_bro/execution.py:998-1013 | the exits are accepted exactly when their rounded prices are positive and strictly monotone |
| `ExitLadder.ValidateExitCapacity` | src/cautious_crypto_bro/execution.py:1030-1097 | the loop's running totals decide as the declared capacity rule does |
| `PlannerExits.PlanRespectsTrader` | src/cautious_crypto_bro/execution.py:862-973 | in every accepted plan the exits are strictly monotone, beyond the weighted entry, never beyond the tick-rounded trader target, and TP3 equals it when it caps the ladder |
| `PlannerExits.RebaseRespectsTrader` | src/cautious_crypto_bro/execution.py:574-634 | the same in every accepted rebase |
| `PlannerExits.ExitsStayBehind` | src/cautious_crypto_bro/execution.py:931-973 | the trader's target caps the ladder exactly when it is closer than the last policy multiple |
| `PlannerGuards.PlanGuardsAreUnreachable` | src/cautious_crypto_bro/execution.py:184-234 | planning never reaches its guards on planned loss, budget, stop distance, number of exits or missing runner |
| `PlannerGuards.RebaseGuardsAreUnreachable` | src/cautious_crypto_bro/execution.py:325-419 | nor does rebasing, including its guards on the remaining scale and the budget |
| `PlannerGuards.RunnerIsPositive` | src/cautious_crypto_bro/execution.py:1081-1097 | the fixed exits always leave a runner; only the instrument's minimum can refuse it |
| `PlannerGuards.SelectedLeverageIsLargest` | src/cautious_crypto_bro/domain.py:51-60 | fails exactly below the minimum; otherwise the largest grid leverage neither request nor instrument forbids |
| `PlannerGuards.FallbackStopIsNoTighter` | src/cautious_crypto_bro/execution.py:245-267 | a policy stop is rounded away from the entry, by less than a tick |
| `PlannerGuards.LevelsKeepDepth` | src/cautious_crypto_bro/execution.py:782-799 | a scale-in level lies its depth of the primary distance closer to the stop, to within half a tick |
| `PlannerExamples.LongPlanWorkedOut` | src/cautious_crypto_bro/execution.py:81-165 | a concrete LONG plan with its orders, exits and planned loss |
| `PlannerExamples.ShortPlanWorkedOut` | src/cautious_crypto_bro/execution.py:81-165 | a concrete SHORT plan whose ladder is squeezed under the trader's target |
| `PlannerFixpoint.PlanIsInLine` | src/cautious_crypto_bro/domain.py:1340-1450 | constructing an accepted plan cannot fail, and the plan carries its policy's shares |
| `PlannerFixpoint.RebaseStaysInLine` | src/cautious_crypto_bro/execution.py:636-658 | a rebase of such an unsliced plan is never refused as invalid and is such a plan again |
| `PlannerFixpoint.RebaseAtPlanIsIdentity` | src/cautious_crypto_bro/execution.py:325-419 | rebasing a MARKET plan on its planned fill gives the plan back |
| `PlannerFixpoint.RefreshAtPlanIsIdentity` | src/cautious_crypto_bro/execution.py:273-323 | refreshing a MARKET plan at its own quote changes nothing |
| `PlannerFixpoint.LargerFillSmallerScaleIns` | src/cautious_crypto_bro/execution.py:421-463 | at the same price a larger fill never gets larger scale-ins |
| `EntrySlices.ValidateEntrySlices` | src/cautious_crypto_bro/domain.py:1356-1391 | the loop over the legs accepts exactly the valid slices |
| `EntrySlices.EntryOrdersFollowLegs` | src/cautious_crypto_bro/domain.py:1393-1404 | the physical orders follow the logical legs and carry pairwise distinct names |
| `EntrySlices.SliceNamesAreInjective` | src/cautious_crypto_bro/domain.py:1291-1293 | a slice name determines its leg and index |
| `EntrySlices.ProjectionPreservesRisk` | src/cautious_crypto_bro/domain.py:1375-1404 | with no slice cut short the projection preserves each leg's quantity and the total stop loss; otherwise it never shows less |
| `RiskCap.ApplyCap` | scripts/analyze_forensic_pnl.py:752-802 | the sweep that discards closed entries equals the one that asks every earlier position again |
| `RiskCap.CapHoldsAlways` | scripts/analyze_forensic_pnl.py:764-802 | at every instant the scaled risk of the open positions is at most the cap, although it is checked only at starts |
| `RiskCap.ReducedOnlyWhenFull` | scripts/analyze_forensic_pnl.py:783-784 | a lasting position with risk is reduced only when exposure at its start then equals the cap |
| `RiskCap.CappedExactly` | scripts/analyze_forensic_pnl.py:764-802 | every complete position, by start, is scaled to the part of its risk that fits under the cap beside the scaled ones still open, and reports its profit, risk on both bases and R at that scale |
| `RiskCap.CapAcceptedExactlyWhen` | scripts/analyze_forensic_pnl.py:752-774 | the cap is applied if and only if it is positive, its basis is known and every complete position has a nonnegative risk on it |
| `HealthGate.Decide` | scripts/analyze_forensic_pnl.py:389-430 | the loop sorts every complete position into one of two lists, by the decision of `SuppressedExactlyWhen`; a window below one is refused |
| `HealthGate.SuppressedExactlyWhen` | scripts/analyze_forensic_pnl.py:412-427 | the exact decision: suppressed if and only if the source is known, at least a window of other complete trades of that source and side closed before the start, and the last window of them by close made no profit in sum |
| `HealthGate.DecidedExactly` | scripts/analyze_forensic_pnl.py:402-430 | the two lists hold exactly the complete positions, each by that decision |
| `HealthGate.DecisionsPartition` | scripts/analyze_forensic_pnl.py:402-430 | each complete position lands in exactly one list |
| `HealthGate.NoLookAhead` | scripts/analyze_forensic_pnl.py:412-425 | lists that agree on the complete trades of the same source and side, other than the position, that closed before it starts decide it alike |
| `HealthGate.LaterPositionsDoNotMatter` | scripts/analyze_forensic_pnl.py:412-425 | inserting anything else, written out, changes nothing for a position |
| `HealthGate.SuppressedMeansLosses` | scripts/analyze_forensic_pnl.py:424-427 | a suppressed position has a full window of other complete trades of its source and side, all closed before it starts, none left out closing later, that made no profit in sum |
| `Pagination.Candles` | src/cautious_crypto_bro/btc_benchmark.py:33-72 | terminates against any server; a result has exactly one candle with consistent prices per expected day, each a row of an answered page; an unaligned start never succeeds, an honest server and an aligned start always do |
| `Pagination.AddPage` | src/cautious_crypto_bro/btc_benchmark.py:54-68 | a page is accepted exactly when its rows are valid, new, in range and strictly newest first, and is then filed whole |
| `Attribution.UniqueRows` | scripts/reconcile_shadow_actions.py:25-32 | the dictionary loop computes the rows once each in order of first appearance |
| `Attribution.ReconcileAction` | scripts/reconcile_shadow_actions.py:50-170 | what one action adds to cases, audit and claimed orders, as `AttributionLaw.EveryPairIsDecided` and `AttributionRefusal.RefusedExactlyWhen` spell out |
| `Attribution.ReconcileActions` | scripts/reconcile_shadow_actions.py:35-174 | the nested loops compute the reconciliation whose outcome and refusal `AttributionLaw.EveryPairIsDecided` and `AttributionRefusal.RefusedExactlyWhen` state from the inputs |
| `AttributionSafety.UniqueRowsAreDistinct` | scripts/reconcile_shadow_actions.py:25-32 | rows are accepted exactly when consistent, and lose only repetitions |
| `AttributionSafety.AttributionIsInjective` | scripts/reconcile_shadow_actions.py:35-174 | no order, execution or action is applied twice; behind every applied record are all traded fills with the action's order or link and no others, closing fills of one filled order that agrees with case and action, inside the window and one minute; each case holds exactly its applied events; nothing else changes |
| `AttributionSafety.EveryPairIsAccountedFor` | scripts/reconcile_shadow_actions.py:60-170 | the audit names each pair of an action and a case it may belong to exactly once |
| `AttributionLaw.EveryPairIsDecided` | scripts/reconcile_shadow_actions.py:50-170 | the outcome of every action and case from the inputs alone: executions are those of the recorded order or the client link; without any the pair is unresolved, those that miss the case exclude it, those that meet several cases leave it unresolved, and on a single case the action is applied unless order record, window or minute forbid it |
| `AttributionRefusal.RefusedExactlyWhen` | scripts/reconcile_shadow_actions.py:25-170 | the reconciliation is refused if and only if cases or rows are inconsistent, or some action's executions are of several orders, no closing fills of it, a misfit for the only case they meet, or of an earlier action's order |
| `AttributionSafety.SortedEventsAreOrdered` | scripts/reconcile_shadow_actions.py:172-173 | the final sort orders events by time and then action, and keeps exactly those applied |

## Left out

- Decimal's 28-digit context and float rounding: amounts are exact reals.
- Text: decimal and timestamp parsing, regular expressions on amounts, and JSON shape errors; parsed fields are inputs, and labels keep their character rules. Candle rows are already split into their fields.
- Size limits in bytes, compression, files, the keyed cache scope and the network: `CollectFeed` takes the capture and one flag for whether the encoded feed fits.
- The server behind `_candles` is a function of the request number and the cursor; it may answer anything.
- Identifiers of executions, orders and actions are numbers ordered as their strings are, zero being the missing one; an action's client link is a field rather than a digest of its identifier.
- Python's object identity in the health gate is the field `id`.
- A tick size that is not positive is one error in planning; the source raises it, or a division error, at the first rounding that needs it.
- ReplayEngine.ReplayCase: asks for well-formed candles (0 < low <= close <= high) and for candidates of the shape the research grid builds (positive levels, targets and weights, fees below one), which the source takes from its data without checking.
- ReplayTrail.LockedProfit: is stated for runs without lifecycle events, with the maker fee no higher than the taker fee and a trail armed clear of the required floor; otherwise an early exit or a floorless trail may return less.
- ReplayCapRuns.CappedLoss: is stated without lifecycle events, with the maker fee no higher than the taker fee and the levels in order from the entry to the stop; a target sold at a higher fee, or a second leg filled after the third, adds to the loss the cap stop was computed for. Reclaim is the subject of `ReclaimedLoss`.
- ReplayReclaim.ReclaimedLoss: is stated under the same fees and events, with the third level beyond the second and target multiples that do not decrease, as every candidate has them.
- ReplayCapRuns.TrimmedLoss: is stated under the same fees and events, with the third level beyond the second.
- ReplayExits.PendingExitsFit: is stated with the E3 risk trim either off, or without events and with candle times that increase; a trim after an event fixed the exits sells without rescaling them, and the targets then ask for more than is open (`ReplayCapExamples.TrimOutrunsExits`).
- PlannerDecision.RebaseAcceptedExactlyWhen: is stated for unsliced plans in line with their policy, as planning makes them.
- PlannerFixpoint.RebaseStaysInLine: covers plans without entry slices; a sliced plan is refused unless its slices still add up to the rebased quantities.
- WalletHistory.CapturesCanBeAnchored: is about captures that start at midnight, as the fetcher makes them.
- The ledger fetcher, the wallet checks, the benchmark files and the feed encoding: input and output.
- Signal extraction, approval, supervision, cancellation, the dashboard, message rendering, bootstrap intervals and reports: user interface, asynchronous runtime or statistics.
