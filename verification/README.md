# Verified models of the terminal's trading kernels

Dafny models of the self-contained state machines and numeric kernels of the trading terminal, with proofs of what holds over
all inputs and all runs. `dafny verify dfyconfig.toml` checks everything; no file depends on anything outside this directory.

Prices, volumes, R multiples and times in seconds are exact (`real` or `int`), so floating-point rounding is not modelled; the
explicit roundings of the code (volume steps, price digits, cooldown seconds) are. Clocks, market readings, broker answers and
identifiers are arbitrary inputs. Python's truthiness (`x or y`, `if sl`) is written out where a zero matters.

| file | models |
|---|---|
| `Common` | optional values, exact arithmetic, sorted strike ladders |
| `TpProtection` | take-profit progress, giveback allowance, profit-lock floor, winner classes, protective stops |
| `ManagerRules` | one position of the adaptive manager: sync, the twelve rules, selection, the broker request |
| `ManagerDecision` | the decision as one list of questions in price units, and what the synced row says |
| `ManagerRun` | the manager as a state machine: session store, order table, breaker, broker, events, runs |
| `ManagerSafety` | what every run of that machine keeps |
| `ManagerEffects` | what one visit does to broker, orders and breaker, and exactly when |
| `ManagerService` | the manager as a class whose methods update its fields, proved equal to the machine |
| `ManagerWitness`, `ManagerStageWitness` | concrete runs showing where those results stop holding |
| `TradePath`, `PolicySimulation` | candle-path reconstruction and the eleven counterfactual exit families |
| `Alerts`, `Indicators` | alert lifecycle, and the EMA, MACD and RSI the conditions read |
| `RateLimiter`, `ProviderBreaker`, `UsageLedger`, `Budgets`, `Lineage` | limit and concurrency protocols of the AI backend |
| `LineageRecords` | which stored records a trace may and must show |
| `MaxPain`, `Breakout`, `BreakoutLaws`, `OptionWindow`, `Garch` | numeric kernels |

In the manager a run is any interleaving of positions opening, being closed by others, broker outages, cycle starts, visits of
listed positions (with any market reading, gate setting and broker outcome, including a call that raises after the order took
effect, and a position that was closed elsewhere since it was listed), commits, rollbacks, breaker resets and activations. The
session is the unit of rollback; the order table and the breaker are committed separately, as in the code. Sessions do not flush
automatically (`backend/shared/db.py:21`), so a lookup made while a cycle records a result does not find a position row first
written in that cycle.

Results worth knowing, each proved below:

- The stop ratchet, at-most-once sending, volume conservation and the growth of extremes hold over every run. At-most-once
  *submission* to the execution manager, the cooldown and the stage rows live in the session: each holds, and stays known to
  the session, through a run exactly when no rollback discards a submission, a management time or a stage row that is not
  yet stored; for stage rows, also no visit may repeat a marked stage under a shared key (below). A rollback that discards
  none is harmless. At-most-once submission alone can outlive one that does, when the next cycle decides something else, and
  the order table prevents a second order in any case.
- The cooldown and the stage rows do not protect the first cycle that sees a position, because of the lookup described above:
  its stop can move again at once, and a stage can be closed in the first cycle and again in the next.
- An action stored for one stage can be found again by the key of another (a quarter of 6 is three tenths of 5) and then close
  the first stage twice. It takes several cycles within one minute; cycles a minute apart rule it out. The largest monitor
  interval keeps them apart, unless `evaluate_now` starts one in between.
- Generating the candidates of twelve rules, sorting them and taking the first is one list of questions about prices, most
  urgent first. What a visit then submits, what the broker does with it and what is recorded follow exactly from the answer.
- A requested volume of exactly 0 closes the whole position, and an economic size multiplier of 1 produces one.
- A stop exactly at the entry price makes the next sync divide by zero and abort the cycle; a break-even buffer leads there
  exactly when it is under half a price step, or exactly half a step from an entry that is an even number of steps.
- An open breaker closes only by a reset, by an activation (which can come from the cycle itself, when none is stored), or at
  a cycle start that finds an outage as the latest reason. So a breaker tripped by failures closes itself when a broker
  outage comes after and no failed action overwrites it, its failure count wiped.
- `context_exit` looks ahead, and the two partial exits take part of their R from the last row. `atr_structure_stop` can leave
  the path exactly for multiples strictly between 0 and 1.
- A lineage trace shows readable records linked to its reference and nothing else, and all of them unless a limit was hit.
- The "daily" token limit reads the all-time total and so never resets.
- An alert deleted or paused while its tick waits for a delivery can still fire. Nothing else makes an inactive alert fire
  until a PATCH activates it.

## Model

| member | source | states |
|---|---|---|
| ManagerRules.SyncFailsIffStopAtEntry | backend/adaptive_management/service.py:785-792 | sync raises exactly when a set stop equals the entry price |
| ManagerRules.SelectionIsDecisionList | backend/adaptive_management/service.py:888-1023 | sorting the candidates by priority and taking the first is a decision list: the most urgent rule that fires decides, HOLD when none does, and a position missing stop or target is held whatever fires (what fires when: `ManagerDecision.ManagerDecides`) |
| ManagerRules.RulesArePrioritized | backend/adaptive_management/service.py:892-1019 | every rule's candidate carries the priority of its place in the urgency order, with the advisory marker behind all others |
| ManagerRules.RuleIsOk | backend/adaptive_management/service.py:892-1019 | each rule by itself, for any market, yields only sound candidates |
| ManagerRules.SelectedOk | backend/adaptive_management/service.py:881-1023 | for any market, a selected stop move improves a set stop, keeps the target and waits for the cooldown; a selected staged close names a stage not yet executed; with fractions in [0, 1] a selected close asks for at most the position |
| ManagerRules.NormalizedVolumeBounds | backend/adaptive_management/service.py:1846-1853 | a normalized volume never exceeds what was asked, and is 0 or between the symbol's minimum and maximum |
| ManagerRules.NormalizedIsWholeLots | backend/adaptive_management/service.py:1846-1853 | the volume sent is the largest number of whole steps within what was asked, cut at the maximum, and nothing below the minimum |
| ManagerRules.RoundedIsOnGrid | backend/adaptive_management/service.py:1856-1859 | price rounding is idempotent |
| ManagerRules.RoundPriceMonotone | backend/adaptive_management/service.py:1856-1859 | price rounding (ties to even) preserves order |
| ManagerRules.RoundedIsNearest | backend/adaptive_management/service.py:1856-1859 | a rounded price is the nearest whole number of steps, the even one halfway between two |
| ManagerRules.PointIsPip | backend/adaptive_management/service.py:1862-1863 | a pip is 0.01 exactly for symbols that end in JPY and 0.0001 for all others |
| ManagerRules.CloseRequestBounds | backend/adaptive_management/service.py:1099-1119 | a close request stays within the position and reaches the broker's minimum volume |
| ManagerRules.StopRequestRatchets | backend/adaptive_management/service.py:1120-1129 | after rounding, an improving stop is still not behind the current one, and the target is unchanged |
| ManagerRules.CloseExceedsRequestIffZero | backend/adaptive_management/service.py:1101 | more than the requested volume is closed exactly when the request is 0 and the position normalizes to something |
| ManagerRules.ReduceByNothingClosesAll | backend/adaptive_management/service.py:900-905 | a size reduction with multiplier 1 closes the whole normalized position |
| ManagerRules.BreakevenStopBlocksSyncIff | backend/adaptive_management/service.py:1755-1758 | the break-even stop of either side lands on the entry, and the next sync fails, exactly when the buffer is under half a price step, or is half a step and the entry is an even number of steps |
| ManagerDecision.ManagerDecides | backend/adaptive_management/service.py:881-1023 | for every position, market, configuration and stage history, generating all candidates and taking the most urgent gives the verdict of a list of questions about prices: each action with its volume or stop is chosen exactly when its question is the first to be answered yes |
| ManagerDecision.LockAnswers | backend/adaptive_management/service.py:924-935 | the profit lock fires exactly when four fifths of the way were reached in profit and the gain is below the floor in price units, and sells the share of the winner class |
| ManagerDecision.BrokenFloorSells | backend/adaptive_management/service.py:924-935 | below the floor with nothing more urgent the position sells; a worse winner never sells less, and an invalidated one sells everything |
| ManagerDecision.SyncSays | backend/adaptive_management/service.py:781-811 | the synced row reports the broker's position, keeps what came first, and its best, worst and given-back R follow from the R of the current price in units of the stake |
| ManagerDecision.FirstSync | backend/adaptive_management/service.py:781-811 | a position seen for the first time starts its extremes at 0 and its originals at what is reported |
| ManagerDecision.SyncJudges | backend/adaptive_management/service.py:815-844 | progress, winner class and floor of the row are those of the figures beside them |
| ManagerRun.SubmitSendsOnce | backend/portfolio_execution/service.py:208-269 | one submission keeps the orders sent distinct, each with a row past PENDING, whatever the outcome |
| ManagerRun.EachKeySentAtMostOnce | backend/portfolio_execution/service.py:215-245 | over all runs, with rejections, raised calls, retries and rollbacks, each idempotency key reaches the broker at most once |
| ManagerSafety.DecisionFacts | backend/adaptive_management/service.py:781-1056 | the synced row reports the broker's position and only extends the stored extremes, and the stored or new action asks for exactly what was selected |
| ManagerSafety.EachKeySubmittedAtMostOnce | backend/adaptive_management/service.py:1025-1097 | over every run, each key is submitted at most once and every submission is known to the session, exactly when no rollback comes while a submission is not yet stored |
| ManagerSafety.RollbackKeepsSubmissionsIffStored | backend/adaptive_management/service.py:700-724 | the exact condition for one rollback: all submissions so far are stored |
| ManagerSafety.RollbackForgetsSubmission | backend/adaptive_management/service.py:700-724 | a rolled-back cycle loses the record of its submission, and the order table still refuses to send the key again |
| ManagerSafety.VisitRatchets | backend/adaptive_management/service.py:704-723 | in one visit no stop at the broker retreats and no target moves, whichever stop action is taken and whatever was closed elsewhere since the listing |
| ManagerSafety.StopsNeverRetreat | backend/adaptive_management/service.py:968-1016 | over any run a LONG stop never falls and a SHORT stop never rises, through all three stop actions and rounding |
| ManagerSafety.StopMovesAreSpaced | backend/adaptive_management/service.py:1155-1159 | over every run, accepted stop moves after one of a stored position are at least the cooldown apart, and the session remembers the last one, exactly when no rollback comes while such a move's management time is not yet stored |
| ManagerSafety.RollbackKeepsMovesIffStored | backend/adaptive_management/service.py:700-724 | the exact condition for one rollback: the management times of all accepted moves are stored |
| ManagerSafety.NewRowsStayBare | backend/adaptive_management/service.py:1154-1169 | over every run, rows not yet stored have no management time and only stored positions have stage rows |
| ManagerSafety.MoveStartsCooldownIffStored | backend/adaptive_management/service.py:1154-1159 | a visit that moved a stop starts the cooldown exactly when the position was stored before its cycle |
| ManagerSafety.CloseMarksStageIffStored | backend/adaptive_management/service.py:1160-1169 | a visit whose staged close was accepted marks the stage exactly when the position was stored before its cycle |
| ManagerSafety.StagesExecutedAtMostOnce | backend/adaptive_management/service.py:951-963 | over every run, each stored position and stage has at most one accepted staged close and the stage rows are exactly those, exactly when no rollback comes while a stage row is not yet stored and no visit has a close accepted whose action carries a marked stage |
| ManagerSafety.StepProtectsOnceIff | backend/adaptive_management/service.py:1140-1169 | the exact condition for one event of any kind |
| ManagerSafety.RollbackKeepsStagesIffStored | backend/adaptive_management/service.py:700-724 | the exact condition for one rollback: the stored stage rows are those of the session |
| ManagerSafety.CyclesAMinuteApartRepeatNothing | backend/adaptive_management/service.py:1750-1752 | when visits of a position are at least a minute apart, as with the largest monitor interval and no cycle started by hand in between, no visit repeats a stage, so rollbacks alone decide |
| ManagerSafety.StageRepeatsIffMarked | backend/adaptive_management/service.py:1025-1029 | the exact condition for one visit: an accepted staged close of a stored position repeats a stage exactly when the stage of the action its key found was already marked |
| ManagerSafety.VolumeIsConserved | backend/adaptive_management/service.py:892-966 | over every run, volume closed plus volume left equals volume opened, nothing goes negative, and every close submitted reaches the minimum |
| ManagerSafety.ClosesAreBounded | backend/adaptive_management/service.py:1846-1853 | the number of closes filling at least `least` times `least` is at most the opened volume |
| ManagerSafety.FullClosesAreBounded | backend/adaptive_management/service.py:1100-1119 | when every close of a position fills in full, their number times the symbol's minimum volume is at most the opened volume, over every run, so management of the position terminates |
| ManagerSafety.OpenBreakerBlocks | backend/adaptive_management/service.py:1058-1061 | a cycle that began with the breaker open changes nothing at the broker |
| ManagerSafety.OpenBreakerStaysOpenIff | backend/adaptive_management/service.py:728-740 | over every run an open breaker stays open exactly when there is no reset, no activation and no cycle start whose latest reason is an outage |
| ManagerSafety.OutageClearsFailures | backend/adaptive_management/service.py:1182-1189 | the next cycle closes an open breaker exactly when its latest reason is an outage, so an outage wipes a failure trip |
| ManagerEffects.VerdictIsAsked | backend/adaptive_management/service.py:1099-1130 | every verdict to sell asks for whole lots, every stop move for rounded prices, and nothing else asks for anything |
| ManagerEffects.VisitSubmitsIff | backend/adaptive_management/service.py:1058-1097 | a visit submits what was decided exactly when every gate is open, nothing was tried under its key, the terminal is ready and there is something to ask for |
| ManagerEffects.VisitAtBroker | backend/portfolio_execution/service.py:208-269 | the broker's positions change exactly as asked, and only when it acts on a submission whose key has no standing order |
| ManagerEffects.VisitTables | backend/portfolio_execution/service.py:208-269 | the order row of a submission says how far it came; without one the table stays as it is |
| ManagerEffects.VisitNotes | backend/adaptive_management/service.py:1025-1156 | a visit notes the action of its key and no other: its outcome when it was carried out, else the first shut gate when it is new |
| ManagerEffects.VisitRecords | backend/adaptive_management/service.py:1140-1169 | a visit stores the synced row, and records a moved stop or a closed stage exactly when it submitted one and the submission succeeded |
| ManagerEffects.VisitSends | backend/portfolio_execution/service.py:208-245 | an order goes out exactly when a submission meets no block, no standing order and a ready client |
| ManagerEffects.VisitCountsFailures | backend/adaptive_management/service.py:1071-1097 | a visit counts a failure exactly when the terminal was not ready or the submission did not succeed |
| ManagerEffects.FailuresTripBreaker | backend/adaptive_management/service.py:1171-1189 | over every run that does not clear the breaker, its count is the number of failed visits, and it is open exactly when they reached the limit or an outage was seen |
| ManagerSafety.ExtremesOnlyGrow | backend/adaptive_management/service.py:811-834 | committed best R and progress never shrink and worst R never rises, through commits, rollbacks and stop changes |
| ManagerSafety.ProfitLockRatchets | backend/adaptive_management/service.py:844-845 | over every run a triggered floor stays triggered, never falls for a fixed regime and volatility, and gives up at most a tenth of the earlier best R when they change |
| ManagerSafety.StartIsSafe | backend/adaptive_management/service.py:1707-1715 | an empty store with a closed breaker satisfies every invariant |
| ManagerService.AdaptiveManager.constructor | backend/adaptive_management/service.py:100-104 | the service starts in the machine's start state |
| ManagerService.AdaptiveManager.RecordActionFailure | backend/adaptive_management/service.py:1171-1180 | counts a failure in the stored breaker and opens it at the limit |
| ManagerService.AdaptiveManager.OpenBreaker | backend/adaptive_management/service.py:1182-1189 | is the machine's outage step |
| ManagerService.AdaptiveManager.ActivateBreaker | backend/adaptive_management/service.py:196-203 | is the machine's activation step: what an activation does to the stored breaker |
| ManagerService.AdaptiveManager.ResetCircuitBreaker | backend/adaptive_management/service.py:219-231 | is the machine's reset step |
| ManagerService.AdaptiveManager.AutoRecoverBreaker | backend/adaptive_management/service.py:700-740 | the cycle's own breaker value and the stored one, recovered from an outage only |
| ManagerService.AdaptiveManager.SyncPositionState | backend/adaptive_management/service.py:781-850 | the field-by-field update of a row ends in the machine's synced row, and a failed sync changes nothing |
| ManagerService.AdaptiveManager.PersistAction | backend/adaptive_management/service.py:1025-1056 | finds the action of a key or stores a new one with its gate status, and touches no other row |
| ManagerService.AdaptiveManager.SubmitRequest | backend/portfolio_execution/service.py:208-269 | the order table, the broker and the history after a submission, for every outcome and also for a position gone since, are those of the machine |
| ManagerService.AdaptiveManager.Transmit | backend/portfolio_execution/service.py:237-268 | an order is marked submitted before it is sent, and stays so when the call raises |
| ManagerService.AdaptiveManager.ExecuteAction | backend/adaptive_management/service.py:1071-1097 | status, attempt flag, order, broker and breaker effects of carrying out an action |
| ManagerService.AdaptiveManager.PersistResult | backend/adaptive_management/service.py:1140-1169 | an accepted result alone leaves management time and stage row, and only for a stored position |
| ManagerService.AdaptiveManager.ManagePosition | backend/adaptive_management/service.py:704-723 | one turn of the loop is one visit of the machine |
| ManagerService.AdaptiveManager.MonitorCycle | backend/adaptive_management/service.py:685-726 | an enabled cycle is an activation when none is stored, a start, visits of listed positions in order with anything happening elsewhere in between, and a commit, or a rollback at the first exception; an unreachable broker only opens the breaker |
| ManagerService.AdaptiveManager.ManagePositions | backend/adaptive_management/service.py:704-726 | the visits of a cycle end as the machine's do: committed, or rolled back at the first exception |
| ManagerService.CycleIsRun | backend/adaptive_management/service.py:704-724 | every cycle is a run of the machine, so every result about runs holds of it |
| ManagerService.CycleIsSafe | backend/adaptive_management/service.py:704-724 | a cycle keeps at-most-once sending, the ratchet's invariant and the extremes, and ends with session and store in agreement |
| ManagerWitness.SubmissionRepeatsAfterRollback | backend/adaptive_management/service.py:700-724 | a concrete run from the empty store in which a rolled-back cycle makes the next one submit the same key again |
| ManagerWitness.FirstMoveLeavesNoCooldown | backend/adaptive_management/service.py:1154-1159 | a concrete run without rollbacks in which the first cycle of a position and the next move its stop in the same second, with a cooldown of 120 seconds |
| ManagerStageWitness.FirstCloseLeavesStageOpen | backend/adaptive_management/service.py:1160-1169 | a concrete run without rollbacks in which the first cycle of a position and the next both have a close of the first stage accepted |
| ManagerStageWitness.SharedKeyRepeatsStage | backend/adaptive_management/service.py:951-963 | a concrete run without rollbacks in which an action stored for the first stage is found by the key of a close for the second, and the first stage of a stored position is closed twice |
| TpProtection.AllowanceIsBoundedAndMonotone | backend/adaptive_management/tp_protection.py:72-84 | the allowance stays in its bounds and grows with volatility |
| TpProtection.ProgressIsShare | backend/adaptive_management/tp_protection.py:47-55 | progress is the share of the way to the target on either side, and there is none exactly without a target apart from the entry |
| TpProtection.RegimeShares | backend/adaptive_management/tp_protection.py:4-15 | what each regime allows to be given back in calm markets |
| TpProtection.TimeframeSteps | backend/adaptive_management/tp_protection.py:17-25 | a longer timeframe allows more, by the same steps in every regime |
| TpProtection.VolatilityAdds | backend/adaptive_management/tp_protection.py:80-84 | true range beyond one R adds a twentieth per R, up to a tenth |
| TpProtection.AllowanceIsClamped | backend/adaptive_management/tp_protection.py:84 | between its two bounds the allowance is the sum of regime, timeframe and volatility |
| TpProtection.FloorBand | backend/adaptive_management/tp_protection.py:100-121 | a triggered floor lies between 0.50 and 0.85 of the best R |
| TpProtection.FractionMonotone | backend/adaptive_management/tp_protection.py:110-119 | the protected fraction grows with progress, across the band switch at 0.90 |
| TpProtection.FractionClimbs | backend/adaptive_management/tp_protection.py:109-120 | the protected fraction climbs from 0.50 through 0.70 at nine tenths of the way to 0.85 at the target; trend and volatility move it by 0.05 within its band |
| TpProtection.FractionShift | backend/adaptive_management/tp_protection.py:109-119 | regime and volatility move the protected fraction by at most 0.10 |
| TpProtection.FloorMonotone | backend/adaptive_management/tp_protection.py:100-121 | the floor grows with both running maxima |
| TpProtection.FloorAfterRegimeChange | backend/adaptive_management/tp_protection.py:100-121 | a change of regime and volatility costs at most a tenth of the earlier best R |
| TpProtection.WinnerNeverImproves | backend/adaptive_management/tp_protection.py:87-154 | a deeper giveback or more opposing candles never gives a better winner class |
| TpProtection.WinnerMeans | backend/adaptive_management/tp_protection.py:87-154 | each winner class by opposing candles and what was given back against the allowance, both directions |
| TpProtection.RetracementMeans | backend/adaptive_management/tp_protection.py:87-97 | up to three fifths of the allowance given back are normal, up to all of it elevated, beyond half as much again invalidating |
| TpProtection.DynamicStopIsProtective | backend/adaptive_management/tp_protection.py:187-220 | a constructed stop is on the protective side, within the ATR multiples and clear of the spread, and LONG and SHORT mirror each other |
| TpProtection.DynamicStopStands | backend/adaptive_management/tp_protection.py:187-220 | a dynamic stop stands at its distance behind structure, noise and spread, or at the nearer ATR bound, and is missing exactly with structure at the price or too little room for the spread |
| TpProtection.NoDynamicStop | backend/adaptive_management/tp_protection.py:201-202 | without a true range or with senseless bounds there is no stop |
| TradePath.ReconstructPath | backend/adaptive_management/service.py:1192-1249 | the loop computes rows, excursions, retracement and spreads of the held candles |
| TradePath.HeldCandles | backend/adaptive_management/service.py:1193-1197 | the path keeps exactly the candles between entry and exit |
| TradePath.RowsSay | backend/adaptive_management/service.py:1209-1236 | each row in price units: its close, and the best and worst excursion of the candles up to it |
| TradePath.PathSays | backend/adaptive_management/service.py:1198-1245 | target, excursions and retracement of the whole path in the same unit |
| TradePath.SpreadsSay | backend/adaptive_management/service.py:1225-1248 | the first quoted spread is the one at entry and the largest the maximum |
| TradePath.ReconstructionIsCausal | backend/adaptive_management/service.py:1192-1227 | the timeline of a candle prefix is a prefix of the full timeline, for any regime detector over completed candles |
| TradePath.ReconstructedPathIsOnPath | backend/adaptive_management/service.py:1209-1245 | with low <= close <= high, every row lies between the worst and best excursion so far |
| PolicySimulation.WatchedExit | backend/adaptive_management/service.py:1362-1400 | five families leave at the first row that meets their condition and hold when none does, with the R each realizes |
| PolicySimulation.TimeExitWhen | backend/adaptive_management/service.py:1401-1408 | the time exit leaves at its last candle exactly when there are more and none of them reached the minimum |
| PolicySimulation.ContextExitWhen | backend/adaptive_management/service.py:1409-1417 | the spread exit leaves at the first row exactly when the largest spread is the given multiple of that at entry |
| PolicySimulation.StagedExitWhen | backend/adaptive_management/service.py:1418-1432 | the staged exit sells its shares at the first rows that reach its levels and the rest at the end |
| PolicySimulation.ProtectedExitWhen | backend/adaptive_management/service.py:1433-1445 | the full-protect exit leaves where R first falls below its floor after the trigger was first reached, and realizes the floor |
| PolicySimulation.OtherwiseHolds | backend/adaptive_management/service.py:1354-1451 | the cases in which a policy holds to the end, and the rescaled R |
| PolicySimulation.ExitStaysOnPath | backend/adaptive_management/service.py:1354-1451 | every family but the rescaling one realizes an R between worst and best excursion |
| PolicySimulation.CaptureAndGiveback | backend/adaptive_management/service.py:1471-1474 | the capture times the best excursion is the R realized and at most the whole of it, and giveback avoided is the R gained over holding, or 0 |
| PolicySimulation.RescaledExitStaysIffNotEnlarging | backend/adaptive_management/service.py:1446-1451 | the rescaling family stays on every path exactly for multiples that are not in (0, 1) |
| PolicySimulation.CausalExit | backend/adaptive_management/service.py:1370-1400 | break-even, trailing, retracement and invalidation exits depend on the rows up to the exit only |
| PolicySimulation.CausalProtectedExit | backend/adaptive_management/service.py:1433-1445 | so does the full-protect exit when candle times increase |
| PolicySimulation.TimeExitRowIsCausal | backend/adaptive_management/service.py:1401-1408 | the time exit's row and R are fixed by the rows up to it, though its label needs one row more |
| PolicySimulation.ReplayContinues | backend/adaptive_management/service.py:1192-1249 | the path rebuilt from all candles continues the one rebuilt from any prefix of them, with the same target |
| PolicySimulation.PartialExitIsCausalIff | backend/adaptive_management/service.py:1362-1369 | the exit row of a partial-profit exit is that of every continuation, and its R exactly when all is closed at the trigger or the final R is the same |
| PolicySimulation.StagedExitIsCausalIff | backend/adaptive_management/service.py:1418-1432 | the staged exit's row is that of a continuation exactly when the second stage was reached already or never is, and its R then exactly when nothing is left to the last row or the final R is the same |
| PolicySimulation.ReplayDecisionIsCausal | backend/adaptive_management/service.py:1192-1400 | an exit taken on the candles seen so far is the exit of every continuation |
| PolicySimulation.ContextExitIsCausalIffQuiet | backend/adaptive_management/service.py:1409-1417 | once a spread has been quoted, the spread exit decides on a candle prefix as on all candles exactly when it has fired or the spread never reaches the multiple later; having fired, it stays |
| PolicySimulation.ContextExitBeforeQuotes | backend/adaptive_management/service.py:1409-1417 | before any spread has been quoted the exit never fires, which is its final decision exactly when the later candles do not expand their first spread to the multiple |
| PolicySimulation.ContextExitLooksAhead | backend/adaptive_management/service.py:1409-1417 | two histories agree through the exit row and exit differently |
| Alerts.AlertEvaluator.ProcessTick | backend/alerts/service.py:239-298 | a tick extends the bounded caches and gives each alert of its query one turn, in order |
| Alerts.AlertEvaluator.HandleAlert | backend/alerts/service.py:261-294 | expiry, cap, cooldown, condition and trigger of one alert, and the row it records |
| Alerts.AlertEvaluator.UpdateAlert | backend/alerts/routes.py:379-432 | a PATCH changes only the user's own alert, clamps limits at 0, and is all or nothing |
| Alerts.AlertEvaluator.DeleteAlert | backend/alerts/routes.py:435-446 | a DELETE marks only the user's own alert |
| Alerts.CacheIsRecentSuffix | backend/alerts/service.py:198-249 | after any ticks the cache is the last 256 prices |
| Alerts.TickIsOneTurn | backend/alerts/service.py:253-298 | a tick gives an alert exactly the one turn of its own, if its query returned it |
| Alerts.TurnOutcome | backend/alerts/service.py:261-322 | a turn records a trigger exactly when the condition holds, the expiry is to come, triggers are left and the wait is over, and expires the alert exactly when it is over by then |
| Alerts.TickLeavesOthers | backend/alerts/service.py:253-260 | a tick leaves alerts of other symbols and inactive alerts alone |
| Alerts.RequestOutcome | backend/alerts/routes.py:379-446 | a request changes only the caller's own alert and only what it names, never the trigger history, and asked twice does the same as once |
| Alerts.CounterMatchesRows | backend/alerts/service.py:277-294 | over any interleaving with requests, the counter equals the number of trigger rows |
| Alerts.TriggerRespectsCap | backend/alerts/service.py:307-310 | a trigger never lifts the count above the cap then in force, even after reactivation, and expires the alert exactly at the cap |
| Alerts.TriggersAreSpaced | backend/alerts/service.py:312-322 | with a fixed wait (60 seconds per minute of a positive cooldown in minutes, else the cooldown in seconds), consecutive triggers are the wait apart, less the time between a turn's two clock readings |
| Alerts.StaysInactiveIff | backend/alerts/routes.py:379-432 | over any run an inactive alert stays inactive exactly when no PATCH activates it |
| Alerts.InactiveStaysSilentIff | backend/alerts/service.py:253-296 | an inactive alert that no PATCH activates gains no trigger row exactly when no late turn of its own finds it fit to fire |
| Alerts.LateTurnFiresDeleted | backend/alerts/service.py:261-296 | an alert deleted while its tick waits fires as if it had not been |
| Indicators.Ema | backend/alerts/service.py:534-542 | the loop computes the mean-seeded recursive average, None for too few values |
| Indicators.EmaWeighs | backend/alerts/service.py:534-542 | raising any value raises the EMA by its weight: 2/(period+1) for the last, shrinking by (period-1)/(period+1) with each step back, equal shares for the seed |
| Indicators.EmaOfConstant | backend/alerts/service.py:534-542 | equal values have that value as their EMA, which with the weights fixes the EMA |
| Indicators.CalcMacd | backend/alerts/service.py:544-560 | None exactly below 35 prices, otherwise line and signal over all prefixes |
| Indicators.LastPriceMovesMacd | backend/alerts/service.py:544-560 | a change d of the last price moves the line by d(2/13 - 2/27) and the signal by a fifth of that |
| Indicators.OnePassMacd | backend/alerts/service.py:544-560 | the prefix-recomputing MACD equals a one-pass incremental one |
| Indicators.MacdRescales | backend/alerts/service.py:534-560 | MACD ignores a constant price shift and scales with the price unit |
| Indicators.CalcRsi | backend/alerts/service.py:517-532 | None exactly for too few prices, otherwise the RSI, in [0, 100] |
| Indicators.RsiShare | backend/alerts/service.py:529-532 | RSI is the share of gains in all movement |
| Indicators.RsiIsShareOfRises | backend/alerts/service.py:517-532 | RSI times the movement of its window is 100 times what went up, and 100 for a window that did not move |
| Indicators.RsiInvariant | backend/alerts/service.py:517-532 | RSI is unchanged by x -> a*x + b with a > 0 |
| Indicators.RsiMirror | backend/alerts/service.py:517-532 | negated prices mirror RSI about 50 exactly when the window is not flat |
| RateLimiter.InMemoryRateLimiter.Check | backend/ai_assistant/security.py:262-268 | prunes, decides and records for its own key, and leaves every other key alone |
| RateLimiter.StoredHitsMatchHistory | backend/ai_assistant/security.py:264-265 | discarding old hits loses nothing that a later decision reads |
| RateLimiter.PruningLimiterRefinesFullHistory | backend/ai_assistant/security.py:262-268 | the limiter decides exactly as one that remembers every admission |
| RateLimiter.NoWindowExceedsCapacity | backend/ai_assistant/security.py:258-268 | no half-open window anywhere in any run holds more admissions than the capacity |
| ProviderBreaker.ProviderCircuitBreaker.GetStatus | backend/ai_provider/resilience.py:37-42 | creates or refreshes one row, turning an elapsed OPEN into HALF_OPEN, and touches no other |
| ProviderBreaker.ProviderCircuitBreaker.BeforeRequest | backend/ai_provider/resilience.py:44-51 | admission and new row of one provider |
| ProviderBreaker.ProviderCircuitBreaker.Success | backend/ai_provider/resilience.py:53-59 | closes the circuit and clears the count |
| ProviderBreaker.ProviderCircuitBreaker.Failure | backend/ai_provider/resilience.py:61-68 | counts, and opens from the second clock reading at the threshold |
| ProviderBreaker.RowClosedForm | backend/ai_provider/resilience.py:37-68 | every reachable row follows from the history: CLOSED exactly below the threshold of failures since the last success, with its reopening time |
| ProviderBreaker.HealthFollowsLastOutcome | backend/ai_provider/resilience.py:53-63 | a provider counts as healthy exactly when the last outcome reported was no failure |
| ProviderBreaker.AdmissionClosedForm | backend/ai_provider/resilience.py:44-51 | a request is admitted exactly when the circuit is not tripped or its reopening time has come |
| ProviderBreaker.TrippingFailureOpens | backend/ai_provider/resilience.py:61-68 | one failure while OPEN or HALF_OPEN reopens at once |
| ProviderBreaker.NoAdmissionWhileOpen | backend/ai_provider/resilience.py:44-68 | between opening and reopening time only a success lets a request through |
| ProviderBreaker.DisabledNeverAdmits | backend/ai_provider/resilience.py:46-48 | a disabled provider is never asked, over any history |
| UsageLedger.Ledger.Record | backend/ai_provider/usage.py:21-68 | appends one billed row, or nothing on refusal |
| UsageLedger.RecordedUsageIsAggregated | backend/ai_provider/usage.py:32-90 | each group a recorded row belongs to gains the reported total, or the tokens sent, received and spent on reasoning when none is reported; no other group changes |
| UsageLedger.Ledger.Aggregate | backend/ai_provider/usage.py:76-91 | every group's tokens, cost and requests are the sums over the listed rows with that key, and the user's own tokens are the all-time total |
| UsageLedger.ListingKeepsUserTotal | backend/ai_provider/usage.py:70-74 | filtering to a user first does not change that user's total |
| UsageLedger.ListingIsFilter | backend/ai_provider/usage.py:70-74 | a listing holds exactly the user's rows, each as often as recorded |
| Budgets.BudgetManager.Reserve | backend/ai_provider/budgets.py:35-60 | decides on recorded usage, active count and identifiers in that order, and adds one active row, with its soft warning, exactly when granted |
| Budgets.FullBudgetIsWarned | backend/ai_provider/budgets.py:56-57 | a grant that fills the daily budget always carries the soft warning |
| Budgets.WarnsIffAtThreshold | backend/ai_provider/budgets.py:56-57 | the soft warning comes exactly when usage and estimate reach the threshold cut to whole tokens |
| Budgets.ReserveOutcome | backend/ai_provider/budgets.py:35-60 | a reservation is granted exactly when it is well formed, a slot is free and neither limit is exceeded, and adds one row with its warning |
| Budgets.SmallerIsGranted | backend/ai_provider/budgets.py:39-46 | what is granted is granted to a smaller request too |
| Budgets.BudgetManager.Reconcile | backend/ai_provider/budgets.py:62-70 | settles the rows of one id and no other |
| Budgets.ReconcileOutcome | backend/ai_provider/budgets.py:62-70 | reconciling frees the slots of its id, keeps the actual usage there and leaves every other row alone |
| Budgets.OvershootBound | backend/ai_provider/budgets.py:38-60 | over every disciplined run recorded plus outstanding tokens of a user stay within limit + (K-1) * per-request, and at most K reservations are active |
| Budgets.BoundIsTight | backend/ai_provider/budgets.py:39-46 | for all sensible limits some run ends exactly on the bound |
| Budgets.WitnessReaches | backend/ai_provider/budgets.py:39-60 | K equal reservations in a row are all granted from a ledger one request below the limit |
| Budgets.DailyLimitNeverResets | backend/ai_provider/budgets.py:42-46 | a user who has used up the limit is refused for ever |
| Lineage.Tracer.Add | backend/ai_assistant/lineage.py:28-36 | adds, skips a duplicate with a warning, or drops at a limit with a warning |
| Lineage.Tracer.Connect | backend/ai_assistant/lineage.py:38-42 | adds an edge, or drops it at a limit with a warning |
| Lineage.Tracer.OrderChildren | backend/ai_assistant/lineage.py:108-131 | asks for fills, positions and the last readable reconciliation, notes missing fills, or fails on a missing instrument |
| Lineage.Tracer.TraceDeployment | backend/ai_assistant/lineage.py:73-88 | asks for a deployment's risks and orders with their children, in stored order, or notes it missing |
| Lineage.Tracer.TraceCandidate | backend/ai_assistant/lineage.py:58-71 | asks for scorecard and deployment or notes them missing, and moves on to the deployment when there is one |
| Lineage.Trace | backend/ai_assistant/lineage.py:12-106 | nodes with their versions and times, edges, missing kinds and warnings are those the stored records ask for, cut at the limits |
| Lineage.BuiltGraphIsClosed | backend/ai_assistant/lineage.py:20-42 | once a limit is hit it stays hit, so an edge gets in only when both its nodes are in |
| Lineage.PlanIsWellFormed | backend/ai_assistant/lineage.py:47-131 | no edge is asked for before both its nodes |
| Lineage.TracedGraphIsClosed | backend/ai_assistant/lineage.py:12-131 | for any stored data: distinct nodes, at most 64 nodes and 96 edges, every edge between listed nodes |
| Lineage.TracedGraphIsComplete | backend/ai_assistant/lineage.py:28-42 | without a limit warning every edge asked for and every missing kind is returned, in order |
| LineageRecords.OnlyReadableRecordsAreTraced | backend/ai_assistant/lineage.py:45-131 | for any stored data, reference and clock, every node but the root is a readable record linked to the reference (or the position or deployment such a record names) with its fields, and every edge is one of its links |
| LineageRecords.AllReadableRecordsAreTraced | backend/ai_assistant/lineage.py:45-131 | without a limit or scope warning, every readable scorecard, deployment, risk, order, fill and last reconciliation linked to the reference is in the graph with its link |
| LineageRecords.NoGraphIff | backend/ai_assistant/lineage.py:45-131 | the trace fails exactly when an order of the lineage lacks the instrument its reconciliation needs, and is cut short exactly when the caller may not read what the reference names |
| LineageRecords.ReportsWhatIsMissing | backend/ai_assistant/lineage.py:49-113 | within its scope a trace reports exactly the kinds of records that are missing or unreadable, whatever limits it hits |
| Lineage.MissesAreNeverDropped | backend/ai_assistant/lineage.py:16-131 | no limit ever hides a missing kind of record |
| MaxPain.ComputeMaxPain | backend/adapters/mock.py:169-189 | the nested loop finds the smallest best strike, which minimises pain over all real prices, and with calls alone is the lowest; spot without contracts |
| MaxPain.PainAffineBetween | backend/adapters/mock.py:179-184 | pain is affine between neighbouring strikes |
| MaxPain.PainSlope | backend/adapters/mock.py:179-184 | between neighbouring strikes pain rises with the open interest of the calls below less that of the puts above |
| MaxPain.OneSidedPain | backend/adapters/mock.py:179-184 | calls alone make pain grow from 0 with the price, puts alone make it shrink to 0 |
| MaxPain.BestStrikeIsGlobal | backend/adapters/mock.py:173-189 | a strike best among strikes is best among all settlement prices |
| Breakout.NormalizeCandles | backend/breakout_engine/detectors.py:71-80 | keeps the dictionaries in order with high and low straightened |
| BreakoutLaws.NormalizedSnoc | backend/breakout_engine/detectors.py:71-80 | a row that is no dictionary is skipped, a candle is kept with the higher bound as high |
| BreakoutLaws.PatternSignals | backend/breakout_engine/detectors.py:102-226 | which candles a pattern compares and which volume it asks for, when there is nothing to detect, and otherwise the level, trigger, direction and confidence from those candles |
| BreakoutLaws.ConfidenceIsPoints | backend/breakout_engine/detectors.py:141-158 | confidence as points: 55 for distance, 30 for volume, 15 for range, at most 25 near the level, in proportion for too little volume, 12 for a full bias |
| BreakoutLaws.TriggersIffCrossedOnVolume | backend/breakout_engine/detectors.py:129-159 | without bias, and asking for 7.5% more than average volume, a breakout triggers exactly when the close is above every high and the volume is there |
| Breakout.DetectIsMonotone | backend/breakout_engine/detectors.py:102-159 | a higher latest close or volume never weakens an upward signal, through the jump at the crossing |
| Breakout.DetectMirrors | backend/breakout_engine/detectors.py:129-159 | the downward pattern on negated prices and bias is the upward pattern |
| Breakout.ConfidenceIsUnit | backend/breakout_engine/detectors.py:158-181 | confidence is in [0, 1], and a trigger has a direction, a price and at least 0.15 |
| OptionWindow.GroupByStrike | backend/adapters/us_options_adapter.py:110-143 | the loop groups the rows by strike |
| OptionWindow.LastRowWins | backend/adapters/us_options_adapter.py:110-143 | the groups are exactly the quoted strikes, each leg the last row that quoted it |
| OptionWindow.WindowKeepsTheClosest | backend/adapters/us_options_adapter.py:147-168 | exactly r strikes on each side of the ATM strike or all there are, the ATM strike of the full chain under the same tie rule, and nothing left out closer than what is kept on its side |
| OptionWindow.ChainAtm | backend/adapters/us_options_adapter.py:147-168 | no quoted strike lies nearer to spot than the ATM strike, which is the lower of two equally near ones |
| OptionWindow.NormalizeChain | backend/adapters/us_options_adapter.py:105-161 | the reported ATM strike is quoted and closest to spot among all quoted strikes |
| Garch.FitIsStationary | trade_screens/analyzer.py:600-617 | any fit has alpha + beta <= 0.98 and positive omega, for any correlation estimate |
| Garch.FitReadsCorrelation | trade_screens/analyzer.py:595-614 | beta follows the correlation between its bounds, alpha fills up to 0.98, and few returns or an unknown ticker get the defaults |
| Garch.FitTargetsSampleVariance | trade_screens/analyzer.py:605-621 | the long-run variance is the mean squared return exactly when the floor on omega does not bite |
| Garch.Forecast | trade_screens/analyzer.py:619-626 | the loop lists the closed form for each horizon |
| Garch.ClosedFormIffRecursion | trade_screens/analyzer.py:619-626 | the closed form obeys the GARCH recursion exactly when the guarded denominator is inert or omega is 0 |
| Garch.FitFollowsRecursion | trade_screens/analyzer.py:600-626 | the forecast of any fit obeys the recursion |
| Garch.FitConverges | trade_screens/analyzer.py:613-626 | the forecast of any fit moves toward the long-run variance, never crosses it, and its gap is at most 0.98^h of the first |

## Left out

- ManagerSafety.StopMovesAreSpaced: says nothing of the first move of a new position, which leaves no cooldown (`FirstMoveLeavesNoCooldown`, with the exact condition in `MoveStartsCooldownIffStored`).
- ManagerSafety.StagesExecutedAtMostOnce: says nothing of the first close of a new position (`FirstCloseLeavesStageOpen`, with the exact condition in `CloseMarksStageIffStored`).
- ManagerSafety.StopsNeverRetreat: positions arrive with stops and targets on the price grid, and nobody else moves them while the position is open.
- ManagerSafety.VolumeIsConserved: assumes fractions and size multipliers in [0, 1] and a broker that fills no more than asked.
- ManagerService.AdaptiveManager.MonitorCycle: each position is listed once in a cycle; the cycle lock, the reconciliation of closed positions and of confirmed stops, and the returned report are not modelled. Elsewhere a position is closed only as a whole.
- Alerts.TriggersAreSpaced: the cooldown test reads the clock a second time, so the bound is weaker by that difference (0 for one reading).
- PolicySimulation.TimeExitRowIsCausal: a limit of 0 candles, which raises in the code, is treated as never firing.
- Budgets.OvershootBound: callers draw fresh reservation ids and record usage under an active reservation within its estimate.
- Idempotency keys and row ids are taken as injective in their inputs; hashing is not modelled.
- Regime detection, economic guards, candle feeds, swing levels and volatility estimates are arbitrary inputs.
- Stop-quality audit, price and time of the extremes, theses, lineage tags and evidence payloads of the manager's rows.
- `maximum_actions_per_hour` is stored but nothing checks it, so there is no rate bound to prove.
- Money values of a simulated policy, its flags, and the session, drift, walk-forward and policy-score reports.
- Alert conditions other than the indicator values they read, custom expressions, delivery and scanner ticks.
- UsageLedger.Ledger.Record: reported totals are taken as non-negative, and a row keeps only what the groups and the budget read.
- Cost limits and the conversation limit of the budget manager, audit records, and the stripping of identifiers; provider failover.
- Greeks, implied volatility and totals of the option chain; leg contents beyond which row supplies them.
- Input sanitizing, routing, authentication, storage files, network calls, user interfaces and reports.
- Factor models and Monte Carlo code, whose meaning lies in numeric libraries.
