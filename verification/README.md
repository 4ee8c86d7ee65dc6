# Verified model of the backtest trading core

This project models the part of the repository that decides, sizes, checks, fills, records
and re-reads backtests, and proves properties of it over all inputs and all runs.

* **Trading core.** The order engine (`broker/engine.py`), the pre-trade risk checker
  (`broker/risk_checks.py`), the trade ledger (`broker/ledger.py`), the runner
  (`broker/backtest_runner.py`) and the deterministic decision executor
  (`agent/backtest_policy_executor.py`, `storage/strategy_policy.py`, `agent/backtest_policy.py`).
  Three separately written pieces of arithmetic have to agree exactly: the closed-form sizing,
  the checker's projection and the engine's fill. So do two separately written average-cost
  folds, one in the engine and one in the ledger, together with the cash.
* **Job and snapshot protocol.** The guarded row updates of `storage/store.py`, the workers of
  `agent/backtest_jobs.py`, verification on every read, and the canonical decimal and frame text
  of `agent/backtest_jobs.py` and `storage/backtest_snapshot.py`.
* **Risk analytics.** `risk/exposure.py` and `risk/service.py`.

## How it is built

Money, prices and share quantities are exact reals; ids, names, hashes and texts are opaque
tokens; dates are ordinals. Objects the source updates in place are classes
(`MockBrokerEngine`, `TradeLedger`, `BacktestRunner`, `BacktestRunDecisionExecutor`,
`BacktestJobStore`), whose methods are proved to produce exactly the state that functions on
values describe. Those functions are what the lemmas are about.

* `broker_models`, `reals`, `pricing`, `positions`: records, real arithmetic, the position book.
* `risk_checks`, `sizing`: the checker, and the closed-form target sizing against an independent
  definition (the largest whole share count within the target after costs).
* `engine`, `broker_engine`, `fill_laws`, `engine_laws`, `order_laws`: the engine, its class, and
  properties of every interleaving of placements, cancellations, bars and resets.
* `ledger`, `trade_ledger`, `ledger_laws`, `ledger_spans`, `drawdown`: the ledger, its class,
  episode reconstruction, what closed trades are made of, and the drawdown passes.
* `average_costs`, `short_runs`: average cost and recorded P&L with and without shorting.
* `account_invariants`, `coupling`, `coupled_runs`, `reconciliation`, `shared_account`: an induction
  principle for long-only runs, and with it the coupling of engine and ledger over every run.
* `strategy_policy`, `policy_executor`, `schedule`: accepted strategies, the carried target,
  decision dates.
* `simulation*`: the run as a simple fold on one account, without order queue, risk check, other
  accounts or earlier sessions, and what every such run keeps.
* `runner_refinement`, `backtest_runner`, `repeated_runs`: the runner with its broker and ledger,
  which may hold anything from before, is proved to do what the simple fold says, and to answer
  alike when it runs the same inputs again.
* `job_store`, `job_results`, `job_protocol`, `decision_records`: job tables, result verification,
  every interleaving of workers, submissions and restarts, and what a run stores as it goes on.
* `canonical_decimal`, `snapshot_text`: decimal text and frames.
* `risk_exposure`, `risk_statistics`, `risk_analytics`: exposures, returns, quantiles, tails, stress.

Assumptions that appear as preconditions: commission and slippage rates lie in [0, 1), the
maximum position in [0, 1], the initial cash of a run is positive, bars carry positive prices,
the session id of a run is new, and a reconciled engine run has no account resets. Where two
contents have to differ in their hash, the result hash is taken to be injective. Clocks,
generated ids and the calendar of weeks and months are parameters.

## Where the code does less than it seems to promise

* **Reused order ids.** `place_order` overwrites an order with the same id, so a finished order
  can return to NEW, be replaced, or be filled twice (`OrderLaws.ReusedIdRevives`). A placement
  keeps the orders in order if and only if its id is unused in the account, or its client id is
  used, or the account's order of that id is the same order and still waits, or was rejected and
  is rejected again (`OrderLaws.PlacingIsSafeExactly`, over runs `OrderLaws.TidyExactlyWhenSafe`).
* **Limits beyond the bar.** A limit order fills at its limit, so a buy limit above the bar's high
  fills at a price the bar did not trade at; the fill lies in the bar's range if and only if the
  limit is not beyond it (`OrderLaws.LimitOrderAtBar`).
* **Dust.** The ledger closes an episode once at most 1e-12 shares remain. Episodes match the
  shares held if and only if no sale leaves such a remainder
  (`LedgerLaws.OpenMatchesSharesIffDustFree`). Whole-share orders never do.
* **Shared accounts.** The engine keys positions by ticker, the ledger by session and strategy
  as well. With two strategies in one account the books need not reconcile: one buys at `p`, the
  other sells at `q`, the account is `q - p` richer and the ledger realizes nothing
  (`SharedAccount.SharedAccountBreaks`). The two books hold the same shares after every fill if
  and only if no fill of another owner than the last one finds the ticker held
  (`SharedAccount.SharedBooksAgreeExactly`); with one owner per account they always do.
* **Resealed results.** The result hash takes no key, so a stored result of any numbers is served
  once its hash is recomputed (`JobResults.ResealedIsServed`). `JobResults.TamperingIsNoticed`
  says exactly which stored results are served; without the hash recomputed, only what neither
  the job nor the hash covers can change (`JobResults.KeptHashIsExact`).
* **The account id of a stored result.** Verification compares it with itself and does not hash
  it, so changing it is never noticed (`JobResults.AccountIdIsNotCovered`).
* **Drawdown of a ruined account.** Dividing by a running peak that is zero or negative gives
  infinities, no number, or a negative drawdown; a day counts as under water if and only if it is
  below an earlier equity and some equity so far was not negative (`Drawdown.UnderWaterExactly`).
  Runs keep equity positive.
* **Two tolerances for one action.** The executor compares target and weight with an absolute
  tolerance of 1e-9, the runner with a relative one of the same size. In between, the executor
  derives BUY or SELL where the runner reports HOLD (`SimulationDeterministic.MovesAgreeExactly`).
* **The empty decimal.** The snapshot validator marks "no number" with the empty string and
  compares with the input, so an empty cell passes it (`SnapshotText.AcceptsExactly`). Replay
  refuses the cell later.

## Model

| member | source | states |
|---|---|---|
| Sizing.DesiredIsLargest | broker/backtest_runner.py:692-729 | the closed form is the largest whole share count whose weight, after slippage and commission of the move, is at most the target |
| Sizing.LargestIsDesired | broker/backtest_runner.py:692-729 | that count is unique, so closed form and definition are the same in both directions |
| Sizing.DesiredBranches | broker/backtest_runner.py:708-729 | the buy branch never sells, the sell branch always sells, and neither the clamp at zero nor the affordability cap ever binds |
| Sizing.WithinIsAffordable | broker/backtest_runner.py:724-728 | any purchase within a target of at most one is covered by the cash |
| FillLaws.PassesExactly | broker/risk_checks.py:11-83 | an order passes if and only if its quantity and limit are positive, it sells what is held unless shorting is on, the cash covers value and fee, and the holding is within the maximum of the projected equity |
| FillLaws.MarketFillCosts | broker/engine.py:488-536 | a market fill pays the commission on its value and slips the reference value by the slippage rate, against the trader |
| FillLaws.ProjectionIsExact | broker/risk_checks.py:40-83 | the checker's projected equity and position value are exactly those after the engine's fill, and the callback reports that equity |
| FillLaws.NextBookEffect | broker/engine.py:588-651 | a fill moves its own ticker by the signed quantity, touches no other, and keeps no flat entry |
| FillLaws.MarketValueMoves | broker/engine.py:515-520 | at the reference mark a fill moves the market value by signed quantity times reference |
| EngineLaws.EveryRunConserves | broker/engine.py:488-536 | in every interleaving, over all accounts: cash is initial cash less signed fill values and fees, shares are signed fill sums, no flat position is kept, cash never negative, no negative shares without shorting |
| EngineLaws.RunsFromStartConserve | broker/engine.py:77-138 | the same from an empty engine, for any account a run creates; every callback was told the shares held right after its fill; and cash with the shares at average cost is initial cash less fees plus the gross P&L of all closing fills, long or short |
| EngineLaws.CheckedFillConserves | broker/engine.py:104-129 | a passed check at a positive reference is enough for its fill to conserve everything |
| AverageCosts.PositionCosts | broker/engine.py:588-651 | the position after any fill, at cost, is what it was plus what the fill paid plus the P&L of the shares it closed: opening, adding, reducing, closing and turning around, long or short |
| AverageCosts.RecordedIsGross | broker/ledger.py:1037-1062 | the ledger records for a fill its gross P&L less its fee exactly when it closes shares of a long or a short position, and nothing otherwise |
| ShortRuns.RecordedTotals | broker/ledger.py:303-339 | over any fills of one owner the recorded P&L adds up to the gross P&L less the fees of the closing fills |
| ShortRuns.ShortRunsReconcile | broker/engine.py:488-561 | in every run with shorting, equity is initial cash plus recorded P&L less opening fees plus what the marks are over average cost |
| OrderLaws.EveryRunIsTidy | broker/engine.py:271-372 | in every run of safe placements: FILLED exactly when there is one fill for the full quantity, every fill belongs to an order, client ids stay unique, orders only leave NEW once |
| OrderLaws.TerminalIsAbsorbing | broker/engine.py:355-372 | in such a run a filled, rejected or canceled order never changes again |
| OrderLaws.CancelTakesEffect | broker/engine.py:355-372 | canceling turns a NEW order into CANCELED, leaves finished ones, and changes nothing else |
| OrderLaws.HolderIs | broker/engine.py:700-714 | whose order is canceled: with an account given its own or nobody's, without one the earliest account's that knows the id |
| OrderLaws.UnknownIsNotCanceled | broker/engine.py:355-372 | an order the given account, or without one any account, does not know changes nothing |
| OrderLaws.ResetIsFresh | broker/engine.py:157-158 | after a reset an account has the initial cash and nothing else, and nothing else has changed |
| OrderLaws.LimitOrderAtBar | broker/engine.py:440-486 | a limit order fills exactly when its price is reached and the check passes, at its limit, and stays NEW exactly when it is not reached; its price lies in the bar's range exactly when the limit is not beyond it |
| OrderLaws.ClientIdIsIdempotent | broker/engine.py:271-280 | re-placing under a client id the same strategy used changes nothing at all; any other order is stored, whatever other strategies used |
| OrderLaws.PlacedOrderIs | broker/engine.py:281-353 | what becomes of an order as it is placed: it waits for the next open, or is rejected without a price or a passed check, or else waits for its limit or fills at the slipped close |
| OrderLaws.PlacingIsSafeExactly | broker/engine.py:271-353 | a placement keeps all orders in order if and only if it is safe, which a caller can see before it: unused id, used client id, the same order still waiting, or rejected and rejected again |
| OrderLaws.TidyExactlyWhenSafe | broker/engine.py:271-353 | a run keeps its orders in order at every step if and only if each of its placements is safe at its moment |
| OrderLaws.ReusedIdRevives | broker/engine.py:281-303 | any order placed under the id of a filled or canceled one takes its place, and the account's orders are no longer in order |
| BrokerEngine.MockBrokerEngine.OnBar | broker/engine.py:77-138 | a bar steps every order of every account at the open marks, then installs the full bars |
| BrokerEngine.MockBrokerEngine.PlaceOrder | broker/engine.py:271-353 | placing stores, queues, rejects or fills, and is a no-op for a used client id |
| BrokerEngine.MockBrokerEngine.CancelOrder | broker/engine.py:355-372 | only a NEW order is canceled; an unknown id is reported |
| BrokerEngine.MockBrokerEngine.ExecuteFill | broker/engine.py:488-561 | cash, book, order status, fill and callback report of one fill |
| BrokerEngine.MockBrokerEngine.TryFillLimit | broker/engine.py:440-486 | a limit order fills at its limit when touched and passed, is rejected when touched and failed |
| BrokerEngine.MockBrokerEngine.FillOrder | broker/engine.py:98-129 | what one order of the loop does at a bar |
| BrokerEngine.MockBrokerEngine.AccountAtOpen | broker/engine.py:160-182 | equity with tickers of the bar marked at their open |
| BrokerEngine.MockBrokerEngine.GetAccount | broker/engine.py:140-155 | cash and equity at the current marks, creating the account when unknown |
| BrokerEngine.MockBrokerEngine.ResetAccount | broker/engine.py:157-158 | a reset account is fresh, others and all marks stay |
| TradeLedgers.TradeLedger.RecordFill | broker/ledger.py:303-339 | appends one record with side and P&L against the key's latest position |
| TradeLedgers.TradeLedger.GetLatestPosition | broker/ledger.py:1019-1035 | filtering by session and scanning back finds the key's latest position |
| TradeLedgers.TradeLedger.ReconstructLongOnlyEpisodes | broker/ledger.py:719-893 | the dictionary-updating loop produces the folded reconstruction |
| TradeLedgers.TradeLedger.ApplySale | broker/ledger.py:807-877 | the sale branch: allocation, realized P&L, basis, and closing at the tolerance |
| TradeLedgers.TradeLedger.OpenLongPositionAccounting | broker/ledger.py:691-717 | basis and unrealized P&L from the ticker's last execution, none when flat |
| TradeLedgers.TradeLedger.ComputeMetrics | broker/ledger.py:401-530 | net, realized and unrealized P&L, fees, slippage, total return, deepest drawdown, its duration and the counts, for any snapshots, put in date order |
| TradeLedgers.LoadsSnapshotsExactly | broker/ledger.py:187-210 | the same for snapshots |
| TradeLedgers.SortByDateSorts | broker/ledger.py:616-623 | the portfolio frame holds the snapshots of its scope in date order, each as often as recorded |
| TradeLedgers.TradeLedger.InitialCapitalFor | broker/ledger.py:933-948 | the latest capital in scope, or the first equity |
| TradeLedgers.StartEquityIs | broker/ledger.py:933-948 | the start is the amount of the last capital recorded in scope, and the first equity without one |
| TradeLedgers.SessionIsEnough | broker/ledger.py:1027-1034 | loading one session only does not change what is found for a key |
| LedgerLaws.LoadsExactly | broker/ledger.py:162-186 | loading gives every record that has the wanted session, strategy and account, as often as it was recorded, and no other |
| LedgerLaws.LedgerProjects | broker/ledger.py:727-880 | for any log in any time order, the report about one key is what that key's fills alone would give |
| LedgerLaws.ReconstructionProjects | broker/ledger.py:740-880 | the same for a sorted interleaved log |
| LedgerLaws.ShortKeyPassesThrough | broker/ledger.py:740-764 | keys that ever go short keep their records unchanged and close nothing |
| LedgerLaws.SortProjects | broker/ledger.py:727-734 | the stable sort by time commutes with projecting to a key |
| LedgerLaws.EpisodesBalance | broker/ledger.py:771-880 | after every dust-free log: an episode is open exactly while shares are held, for those shares, with balanced money; every closed trade is an exact round trip |
| LedgerLaws.OpenMatchesSharesIffDustFree | broker/ledger.py:842-877 | open episodes match the shares held at every prefix if and only if no sale leaves dust |
| LedgerLaws.TotalsAlwaysSplit | broker/ledger.py:771-880 | fees, slippage and realized P&L of a key split exactly into closed trades and the open episode |
| LedgerLaws.ExitBalances | broker/ledger.py:811-831 | a sale keeps the episode balanced and allocates its whole fee and slippage |
| LedgerSpans.ClosedTradesSpan | broker/ledger.py:771-880 | in every dust-free long-only log the closed trades of a key are exactly its spans, in order: from a record that finds it flat to the one that leaves it flat, held in between, with the dates of those two, the decision of the last, and shares, prices, basis, fees and slippage of all of them; and the open episode is what came since |
| LedgerSpans.TradesAreInTime | broker/ledger.py:842-860 | in whatever order fills were recorded, no closed trade ends before it begins |
| LedgerSpans.ExecutionsMirror | broker/ledger.py:740-880 | every record gives one execution, in order, the same but for P&L, side and basis; the side is the way the shares went, and only sales realize |
| Drawdown.MaxDrawdownIsDeepestFall | broker/ledger.py:420-422 | the running-peak pass finds the deepest fall over all pairs of days, in [0, 1) |
| Drawdown.PositiveMeansBelowPeak | broker/ledger.py:420-423 | a day is under water exactly when an earlier equity was higher |
| Drawdown.UnderWaterExactly | broker/ledger.py:420-423 | for any equities, positive or not: a day counts as under water exactly when an earlier equity was higher and some equity so far was not negative |
| Drawdown.DeepestIsMaximum | broker/ledger.py:422 | the maximum over any drawdown series, skipping entries that are no number, is reached and bounds them all |
| Drawdown.MaxDrawdownDuration | broker/ledger.py:1064-1073 | the counting loop returns the longest stretch under water, for any equities |
| Coupling.FillCouples | broker/ledger.py:771-839 | one long-only fill keeps engine position, ledger episode, reported basis and cash coupled |
| Coupling.RecordedAgainstReconstructed | broker/ledger.py:1037-1062 | recorded and reconstructed P&L differ by the buying commission on the shares closed |
| Coupling.FillGaps | broker/ledger.py:303-339 | that gap holds record by record after every fill |
| AccountInvariants.EveryRunHolds | broker/engine.py:77-138 | induction principle: what fresh accounts have, orders do not affect and checked fills keep holds of every account in every run, and callbacks get each account's fills in order |
| CoupledRuns.LinkedIsInductive | broker/ledger.py:755-880 | the coupling of engine and ledger is such a property |
| Reconciliation.RecordsInOrder | broker/ledger.py:303-339 | one record for each fill, in order, with the position, cash and equity the callback was told |
| Reconciliation.EveryRunReconciles | broker/ledger.py:479-518 | after every long-only run: equity is initial cash plus realized P&L plus the unrealized P&L of each open position |
| Reconciliation.FoldsAgree | broker/ledger.py:771-839 | in every reachable state the ledger's basis is (1 + commission) times the engine's average cost, episodes match shares, closed trades are round trips |
| Reconciliation.RecordedPnlReconciles | broker/ledger.py:1037-1062 | over every run, reconstructed P&L is recorded P&L less commission rate times average cost of the shares closed |
| Reconciliation.EquitySplits | broker/ledger.py:691-717 | the reconciliation of one coupled account at any marks |
| Reconciliation.ScopedReconstruction | broker/ledger.py:162-186 | the shared log, scoped to an account, reconstructs that account's own fills |
| SharedAccount.SharedAccountBreaks | broker/ledger.py:755-765 | an engine run of two bars and two orders of different owners, for any two prices, after which equity and realized P&L part ways by the price difference |
| SharedAccount.SharedBooksAgreeExactly | broker/ledger.py:755-765 | over every long-only run and any owners: engine shares equal the ledger's over all owners after every fill if and only if a ticker only changes hands when flat |
| StrategyPolicy.FrozenSpecsAreValid | agent/backtest_policy.py:125-181 | a frozen run carries exactly the stored ticker, parameters, percentages and capital and the fixed rates, with its target within the maximum position |
| StrategyPolicy.AcceptedExactly | agent/backtest_policy.py:125-215 | exactly which stored strategies are accepted for a ticker, and exactly when each error refuses: inactive, ticker, type, no supported definition, and otherwise configuration |
| StrategyPolicy.DefinitionExactly | storage/strategy_policy.py:69-128 | exactly which policy definitions are accepted within a maximum position, and with which error the others are refused |
| PolicyExecutor.DecideFollowsSignal | agent/backtest_policy_executor.py:57-151 | one ready call answers without an error and moves the carried target as its signal says |
| PolicyExecutor.CarriedFollowsLastSignal | agent/backtest_policy_executor.py:391-402 | over every run of calls the carried target is the policy's after a last decisive entry, else zero, and nothing is raised |
| PolicyExecutor.MomentumSignal | agent/backtest_policy_executor.py:120-139 | the momentum target in terms of prices alone: entry, exit, or hold |
| PolicyExecutor.SmaSignal | agent/backtest_policy_executor.py:141-151 | the moving-average target in terms of window sums |
| PolicyExecutor.StoredMomentumDecides | agent/backtest_policy_executor.py:120-139 | from the stored strategy: the stored percentage when the last close is over the one `lookback` sessions before by the stored entry, zero when not over it by the stored exit, else what was carried |
| PolicyExecutor.StoredSmaDecides | agent/backtest_policy_executor.py:141-151 | the stored percentage when the stored fast average is over the slow one, else zero |
| DecisionExecutor.BacktestRunDecisionExecutor.Decide | agent/backtest_policy_executor.py:383-402 | the answer and the new carried target, also when the second check raises |
| DecisionExecutor.BacktestRunDecisionExecutor.ResetForRun | agent/backtest_policy_executor.py:380-381 | a reset executor carries nothing |
| Schedule.ScheduleIs | broker/backtest_runner.py:912-936 | daily is every session but the last; weekly and monthly the last session of every period but the final one |
| Schedule.DecisionsAreExecutable | broker/backtest_runner.py:915-930 | every decision date has a following session |
| SimulationFills.TargetIsLargest | broker/backtest_runner.py:682-729 | in a run the target shares are the largest count within the target fraction |
| SimulationFills.WithinTargetPasses | broker/risk_checks.py:25-83 | every order within its target passes the pre-trade check |
| SimulationFills.ProjectionMatchesSizing | broker/risk_checks.py:50-83 | the checker's projection equals the equity the sizing counted on |
| SimulationFills.FillKeepsSteady | broker/backtest_runner.py:730-767 | after the fill the account is steady, equity positive, and the holding weighs at most the target |
| SimulationLaws.EveryBarIsSound | broker/backtest_runner.py:253-367 | in every run all orders are filled once and in full, none waits or is rejected, intents stay within the limit |
| SimulationLaws.WeightInRange | broker/backtest_runner.py:953-959 | current weight is the holding's share of equity in percent, always between 0 and 100, and equity is positive |
| SimulationOutcomes.EveryDecisionResolves | broker/backtest_runner.py:253-286 | each decision that is not pending is resolved against the account as it was before the next session's open: one fill at that open, of exactly the missing shares and dated so in the decision; or one unfilled record of that session, no share being needed off target; or no trace, the share count right and the weight within 1e-12 of the target |
| SimulationOutcomes.FinishedRunsResolve | broker/backtest_runner.py:253-286 | and in a finished run every decision is |
| SimulationOutcomes.AtTargetMeans | broker/backtest_runner.py:729-752 | which placement an intent becomes: an order exactly when the share count changes; otherwise at target exactly when within the tolerance, unfilled exactly when not |
| SimulationRuns.EveryOrderFillsWithinTarget | broker/backtest_runner.py:730-767 | whenever a run places an order: largest count, check passed, projection exact, weight after the fill at most the target |
| SimulationRuns.FinishedRuns | broker/backtest_runner.py:287-334 | a finished run has played every bar and decision date, counted each as completed or not ready, recorded positive equity every session, and left no intent pending |
| SimulationRuns.NoLookAheadAtOpen | broker/backtest_runner.py:253-286 | orders, fills, cash and recorded equity at a bar depend on earlier bars and this open only |
| SimulationRuns.NoLookAheadAtClose | broker/backtest_runner.py:303-367 | the decision at a bar depends on bars up to and including it only |
| SimulationRuns.SameSchedule | broker/backtest_runner.py:912-936 | decision dates depend on the dates only |
| SimulationDecisions.PricesRefused | broker/backtest_runner.py:875-910 | prices are refused exactly when some price is not positive, a high is below or a low above another price of its bar, or dates do not increase |
| SimulationDecisions.EveryDecisionSees | broker/backtest_runner.py:303-367 | for any executor, at every decision date with enough history: it was given exactly the closes up to that session and the account's weight at its close, its answer became the decision, the pending intent and its next state, and the move is a hold exactly within the tolerance |
| SimulationHistory.ClosesAre | broker/backtest_runner.py:308-311 | a decision sees exactly the closes of the history's first sessions, as many as are on or before its date, in order |
| SimulationHistory.ClosesOnSession | broker/backtest_runner.py:308-311 | on a session of the history it sees that close last and every earlier one |
| SimulationHistory.SignalOfRows | agent/backtest_policy_executor.py:120-151 | the signal of those closes is that of the history's rows at their distances |
| SimulationDeterministic.MovesAgreeExactly | broker/backtest_runner.py:346-358 | the runner's reported move equals the executor's derived one, except exactly between their two tolerances |
| SimulationDeterministic.MovesDisagree | agent/backtest_policy_executor.py:72-81 | a case in between, where the executor buys and the runner reports a hold |
| SimulationDeterministic.CarriedTarget | agent/backtest_policy_executor.py:383-402 | after every bar the carried target is the policy's if and only if some decision date's rows said to enter and none after it to leave; a decision asks for it, and is not ready exactly when the history has too few sessions on or before its date |
| SimulationDeterministic.StoredStrategyDecides | agent/backtest_policy.py:125-181 | the same from the stored strategy to its run: its own percentage, by its own parameters, on the closes of the history |
| SimulationDeterministic.DeterministicRunsFinish | broker/backtest_runner.py:464-471 | a deterministic run finishes, except exactly when there are decision dates and none has as many history sessions on or before it as the policy needs |
| SimulationDeterministic.AcceptedStrategiesNeverAbort | storage/strategy_policy.py:82-104 | from an accepted strategy no executor or position-limit error can be raised over any valid price path |
| SimulationLedger.FinishedRunsReconcile | broker/backtest_runner.py:472-512 | last equity less initial cash is realized P&L plus the open position's P&L |
| SimulationLedger.EveryBarReconciles | broker/ledger.py:755-880 | engine and ledger stay coupled at every bar of a run |
| SimulationIsolation.SameInputsRunAlike | broker/backtest_runner.py:227-237 | runs of the same inputs under other generated ids end alike: same error, or same decisions, fills, cash and snapshots |
| SimulationIsolation.SameInputsSameLedger | broker/ledger.py:719-893 | and the ledger tells the same of them: the same executions and closed trades but for ids, the same realized P&L, fees and slippage |
| RepeatedRuns.RunTwice | broker/backtest_runner.py:199-237 | two runs of the same inputs on one runner, broker, ledger and executor give the same error, or the same report but for ids, whatever was there before |
| RepeatedRuns.RunBetween | broker/backtest_runner.py:199-237 | and so with a run of other inputs in between, on any account |
| RepeatedRuns.AnswersAlike | broker/backtest_runner.py:472-575 | results of the same inputs: the same error, or equal decisions, daily equities, metrics and end position, and orders, executions and closed trades equal but for ids |
| RunnerRefinement.QueuedOrderFills | broker/engine.py:98-129 | the queued order of a steady account passes the check and fills at the open, whatever other marks there are |
| RunnerRefinement.BarIsolated | broker/engine.py:77-138 | a bar touches an account and its session's callbacks through its own orders only |
| RunnerRefinement.BarSpares | broker/engine.py:77-138 | a bar of one session leaves a session that was not used unused, in all accounts and in the fill log |
| RunnerRefinement.ScopeSkipsOthers | broker/ledger.py:162-186 | records of other sessions never show in a run's scope |
| Runners.BacktestRunner.SizeTarget | broker/backtest_runner.py:696-729 | the step-by-step sizing computes the target shares |
| Runners.BacktestRunner.PlacePendingTargetOrder | broker/backtest_runner.py:682-767 | the pending intent becomes a queued order, an unfilled record, or nothing |
| Runners.BacktestRunner.PlayOpen | broker/backtest_runner.py:253-267 | placing, playing the bar and recording the callbacks leave broker and ledger where the simple run is |
| Runners.BacktestRunner.CalculateCurrentPositionPct | broker/backtest_runner.py:953-959 | the weight at the broker's marks is the weight at this close |
| Runners.BacktestRunner.DecideSession | broker/backtest_runner.py:292-367 | not ready, decided, or raised, exactly as in the simple run |
| Runners.BacktestRunner.PlaySession | broker/backtest_runner.py:253-463 | one pass of the bar loop |
| Runners.BacktestRunner.PlayBars | broker/backtest_runner.py:253-463 | the bar loop, or the error that stopped it |
| Runners.BacktestRunner.Run | broker/backtest_runner.py:199-575 | from any earlier broker and ledger state the outcome is that of the simple run, a function of the inputs; however it ends, the runner is valid and sessions not used before stay unused |
| Runners.BacktestRunner.BuildReport | broker/backtest_runner.py:472-575 | orders, executions, closed trades, daily equities, all metrics and end position of the run's own session; no rejections; reported unrealized P&L equals the end position's, and its market value is what the last equity is over the cash |
| Runners.BacktestRunner.EndPositionOf | broker/backtest_runner.py:812-850 | shares, market value, basis and unrealized P&L at the last close, in terms of the engine's own position: the basis is its average cost plus the buying commission |
| JobStores.BacktestJobStore.CreateBacktestJob | storage/store.py:1188-1208 | a new pending v1 job, and nothing for a used id |
| JobStores.BacktestJobStore.BindBacktestInputSnapshot | storage/store.py:1210-1288 | stores content under its digest and binds once; anything else changes nothing |
| JobStores.BacktestJobStore.UpdateBacktestJobProgress | storage/store.py:1306-1315 | sets the progress of a v1 job only |
| JobStores.BacktestJobStore.RecordBacktestDecision | storage/store.py:1317-1381 | inserts or replaces a decision of a bound job, refuses others |
| JobStores.BacktestJobStore.UpdateBacktestDecisionExecution | storage/store.py:1398-1410 | dates a completed decision only |
| JobStores.BacktestJobStore.MarkBacktestJobRunning | storage/store.py:1427-1437 | starts a pending job only, and says whether it did |
| JobStores.BacktestJobStore.CompleteBacktestJob | storage/store.py:1439-1451 | completes a running bound job only |
| JobStores.BacktestJobStore.FailBacktestJob | storage/store.py:1453-1463 | fails an unfinished job only |
| JobStores.BacktestJobStore.RecoverInterruptedBacktestJobs | storage/store.py:1465-1481 | fails every unfinished job and counts them |
| JobProtocol.ReachableStates | storage/store.py:1188-1481 | from any migrated tables, after any interleaving: result exactly when completed, error exactly when failed, completed jobs have their snapshot stored under its hash, decisions belong to bound jobs, one worker per job |
| JobProtocol.NextStatus | storage/store.py:1427-1481 | one event moves a job along one arrow of its life cycle at most |
| JobProtocol.SubmitTakesEffect | storage/store.py:1188-1208 | a submission under a new id makes a pending job with its request and spec and nothing else, under a used one it changes nothing |
| JobProtocol.BeginTakesEffect | storage/store.py:1427-1437 | a pending job begins, at that moment and with a worker of its own; one in any other state does not |
| JobProtocol.BindTakesEffect | storage/store.py:1210-1288 | the first snapshot whose content has its hash is stored and bound; a bound job is not bound to another and stored content is never replaced |
| JobProtocol.ReportTakesEffect | storage/store.py:1306-1315 | progress is set and nothing else |
| JobProtocol.ExecutionTakesEffect | storage/store.py:1398-1410 | an execution dates a stored completed decision, leaves one that is not completed, and changes nothing else |
| JobProtocol.GiveUpTakesEffect | storage/store.py:1453-1463 | a worker that gives up fails its job with its error while unfinished, and leaves a finished one |
| JobProtocol.RestartTakesEffect | storage/store.py:1465-1481 | a restart fails every unfinished job with the error and leaves all others |
| JobProtocol.DoneExactlyByCommit | storage/store.py:1439-1451 | over every run from any state: a job is completed with a result if and only if it was at the start, or some event is the commit of that result by the job's own worker, for a running job bound to its input |
| JobProtocol.CommittedWasGathered | agent/backtest_jobs.py:1506-1563 | whatever a job is completed with was gathered before by the same worker, bound to the job's spec, stored snapshot and stored decisions at that moment |
| JobProtocol.EveryRunAdvances | storage/store.py:1188-1481 | hash, start and outcome never change once set, status never goes back |
| JobProtocol.LegacyRowsStay | storage/store.py:2485-2540 | rows of an older schema stay as they were in every run, but for unfinished ones that a restart fails |
| JobProtocol.WriteKeeps | storage/store.py:1317-1381 | the decision insert is safe although the check was a separate earlier step |
| JobProtocol.BeginWorkers | agent/backtest_jobs.py:1414-1421 | a job that can be started has no worker yet, so at most one caller starts it |
| JobProtocol.CompletedIsServed | agent/backtest_jobs.py:1506-1563 | whatever else happens, a job a worker completed is served as completed, with the committed result; a completed job of an older schema is served unverified |
| JobProtocol.ServedForever | agent/backtest_jobs.py:1587-1652 | and stays so in every continuation |
| JobResults.FinalizedVerifies | agent/backtest_jobs.py:1506-1563 | a result bound to its job verifies against it |
| JobResults.ServedCounts | agent/backtest_jobs.py:1587-1652 | a served result counts its own orders and the job's stored decisions, and has trades exactly when some were closed |
| DecisionRecords.StoredAsDecided | agent/backtest_jobs.py:901-934 | after every bar of a run the job's stored rows are exactly the run's decisions, execution dates included, and no other job's have changed |
| DecisionRecords.ExecutionsAreRecorded | agent/backtest_jobs.py:925-934 | every execution the run reports finds a completed row, so the observer never fails on one |
| JobResults.TamperingIsNoticed | agent/backtest_jobs.py:1587-1652 | a replaced result is served if and only if it agrees with the served one on config body, decisions and the other provenance and carries the hash of its own content; every other one is refused |
| JobResults.KeptHashIsExact | agent/backtest_jobs.py:1638-1652 | with the hash left alone, it is served if and only if nothing compared or hashed has changed |
| JobResults.ChangedHashIsRefused | agent/backtest_jobs.py:1650-1651 | changing nothing but the result hash is refused, for any hash function |
| JobResults.ResealedIsServed | agent/backtest_jobs.py:1642-1652 | a result of any numbers, trades and orders with its hash recomputed is served if and only if it agrees on what is compared with the job |
| JobResults.AccountIdIsNotCovered | agent/backtest_jobs.py:1626-1633 | a changed account id of the config is always served |
| JobResults.RequestTamperingIsNoticed | agent/backtest_jobs.py:1600-1625 | another request of a served job is served if and only if it belongs to the same spec |
| JobResults.SpecTamperingIsNoticed | agent/backtest_jobs.py:1600-1637 | a spec that is gone, does not parse, or has another strategy or policy hash is refused |
| JobResults.SnapshotTamperingIsNoticed | agent/backtest_jobs.py:1600-1637 | another or no snapshot hash is refused, and so is a stored snapshot that is gone, of another digest, or not replayable |
| JobResults.DecisionTamperingIsNoticed | agent/backtest_jobs.py:1640-1641 | whatever is done to the table of decisions, the job is still served if and only if its own rows are untouched; an inserted, replaced or deleted one makes it refused |
| CanonicalDecimal.PrintParses | agent/backtest_jobs.py:1132-1136 | printed fixed-point text parses to the number it was printed from |
| CanonicalDecimal.CanonicalIsUnique | agent/backtest_jobs.py:1135-1136 | each value has one normalized form, up to the sign of zero |
| CanonicalDecimal.NormalizeKeepsValue | agent/backtest_jobs.py:1135-1136 | normalizing does not change the value |
| SnapshotText.EncodedIsAccepted | agent/backtest_jobs.py:1132-1136 | whatever the encoder prints the validator accepts, and it reads back as the same value |
| SnapshotText.FiniteIsBelow | agent/backtest_jobs.py:1133-1134 | a decimal is taken as finite exactly when its size is below the limit |
| SnapshotText.AcceptsExactly | storage/backtest_snapshot.py:86-105 | the validator accepts exactly the canonical spellings of finite numbers and the empty string |
| SnapshotText.OneSpelling | storage/backtest_snapshot.py:96-105 | two accepted texts of the same value are equal |
| SnapshotText.TextIsIdempotent | storage/backtest_snapshot.py:96-105 | reformatting canonical text gives it back |
| SnapshotText.RoundIsNearest | agent/backtest_jobs.py:1135-1136 | rounding to a precision keeps what fits, and gives the nearest shorter number otherwise, ties to even |
| SnapshotText.TextIsRounded | agent/backtest_jobs.py:1132-1136 | the text of any number, however long, reads back as the number rounded to 28 digits |
| SnapshotText.FrameRoundTrip | agent/backtest_jobs.py:1114-1129 | an encoded frame decodes to the frame it came from, every cell accepted |
| RiskExposure.StatusExactly | risk/exposure.py:60-111 | the status is complete exactly when no latest target is bad and what is invested is positive and at most everything, invalid exactly when one is bad or it is more |
| RiskExposure.Resolve | risk/exposure.py:17-111 | targets are the latest of each ticker, the status follows from them exactly, and a complete exposure is invested in (0, 1] |
| RiskAnalytics.PortfolioReturns | risk/service.py:93-99 | the accumulation loop computes the weighted return of every day |
| RiskAnalytics.DayLosesLess | risk/service.py:97-99 | a day always loses less than what is invested |
| RiskAnalytics.WealthIsPositive | risk/service.py:101-102 | compounded wealth stays positive |
| RiskAnalytics.WealthCompounds | risk/service.py:101-102 | each day's wealth is the day before's grown by the day's return, from one on |
| RiskAnalytics.AllInWealth | risk/service.py:93-102 | for one ticker wealth telescopes to the day's close over the first |
| RiskAnalytics.DrawdownsBounded | risk/service.py:103-106 | drawdowns lie in (-1, 0], and below zero exactly below an earlier level |
| RiskAnalytics.DrawdownsFallFromPeak | risk/service.py:103-106 | each day's drawdown is its wealth over the highest so far, the start included, less one |
| RiskAnalytics.AllInDrawdown | risk/service.py:103-106 | for one ticker it is the day's close over the highest close so far, less one |
| RiskStatistics.QuantileMonotone | risk/service.py:107-108 | interpolated quantiles are monotone, so VaR99 is at most VaR95 |
| RiskStatistics.QuantileIs | risk/service.py:107-108 | the quantile is, by counting, the value of its rank, and between two ranks the mix of their values |
| RiskStatistics.QuantileIsUnique | risk/service.py:107-108 | and the only number that is |
| RiskStatistics.TailMean | risk/service.py:127 | the tail is never empty and CVaR lies between the worst day and VaR |
| RiskStatistics.TailMeanIs | risk/service.py:127 | times their number, the tail mean is the sum of the days not over VaR |
| RiskAnalytics.AnalysisIsBounded | risk/service.py:93-128 | all bounds together for every portfolio that loses less than everything each day |
| RiskAnalytics.AnalysisIs | risk/service.py:101-128 | what every figure is in terms of the daily returns: cumulative and drawdown curve, its minimum, both VaRs and CVaR |
| RiskAnalytics.ComputeOverview | risk/service.py:44-133 | refused exactly for a lookback outside 60 to 252; full exactly for a complete exposure with at least 60 common dates, over the latest of them, with the weighted returns, every figure what it is of them, and within all bounds |
| RiskAnalytics.CommonDates | risk/calculations.py:8-14 | the latest dates on which every ticker has a close, in order, at most the lookback, none in between left out |
| RiskAnalytics.ClosesAre | risk/service.py:61-77 | a date has a close exactly when a row gives it a finite positive one, the last such row's |
| RiskAnalytics.ShockIsBounded | risk/service.py:135-165 | a uniform shock has the impact of a day on which every close moves by it, never more than what is invested |
| RiskAnalytics.ShockIsADay | risk/service.py:93-99 | a day on which every close moves by the same fraction returns that fraction of what is invested |
| RiskAnalytics.Stress | risk/service.py:135-165 | refused exactly for a shock outside -1 to 1 or a refused lookback; otherwise the shock's impact and the first of the worst days with its date |

## Left out

- The agent-experiment mode of freezing a strategy, with its model and provider checks: only deterministic runs are modelled.
- The agent-driven branch of the runner (`agent.run`, `stamp_pending_orders`), the experimental executor and its model calls: their orders and targets come from outside; any function of closes, weight and own state stands for an executor.
- Price window slicing, benchmark alignment and benchmark metrics: a run starts from its window of rows.
- Annualized return, volatility, Sharpe, win and loss ratios, turnover, exposure averages, concentration and correlation: nothing to prove beyond their definitions.
- Holding periods in trading days, event logs, view conversion, no-trade reasons and observer callbacks of the runner: copies and counts.
- Order timestamps and ids of fills: only ids that are compared and times that are sorted by are kept.
- Floating-point rounding, NaN and infinities in money: exact reals; the tolerances of `isclose` are kept as written.
- TradeLedgers.TradeLedger.ComputeMetrics: snapshots of one date stay in the order recorded; the source's sort may swap them, which a run never has.
- Account objects are values held in a map, so aliasing of positions and orders between the engine and its callers is not captured; the source copies them.
- Callbacks: the runner passes a bar's fills to the ledger right after the bar instead of one by one during it, which the ledger cannot tell apart.
- JobProtocol.GatherKeeps: gathers hash, snapshot and decisions of a finished job in one step, which its single writer makes indistinguishable from three.
- SQLite transactions, schema checks of stored rows, gzip, SHA-256 and JSON: trusted codecs, with each guarded update one atomic step.
- The rest of a result's public view and the CSV exports: projections of a verified result.
- Underscores, surrounding spaces and non-ASCII digits in decimal text: such texts are refused by the source after reformatting and by the model when parsing.
