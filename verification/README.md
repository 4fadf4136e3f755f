# Downshift: protocols, recovery and statistics

A Dafny model of the parts of Downshift, an evaluation harness for routed coding agents, whose
correctness does not show in any one function. `dafny verify dfyconfig.toml` checks everything.

| module | what it models |
|---|---|
| `Dispatch` | which attempt runs next, recovery after interruptions, the spend check, and what both report readers select |
| `CostBound`, `Usage` | the conservative bound on one trial's cost, the usage ledger, its summaries and costs |
| `Schedule`, `Shuffling` | the seeded schedule, its identifiers, the generator and the in-place shuffle |
| `SessionRouting` | the session guard's handlers: decision, model lock, turn budget, limits, and the recorder's final status |
| `DecisionStore` | one session's durable decision across crashes, resumes and forks |
| `Bridge` | the decision protocol between the TypeScript client and the Rust bridge over two pipes |
| `EventLog` | the append-only event log, crash prefixes, reading it back, and finalization |
| `Submission` | exporting a workspace as changes, validating and applying them, and the hashed texts |
| `Calibration`, `Wilson`, `Readiness`, `Replay`, `Trials` | the statistics, over exact reals |
| `BatchRunner`, `BoundedDispatch`, `ReentrantStore`, `Pagination` | four reference solutions of the task corpus |
| `Ordering`, `Strings`, `Sums`, `Wrappers` | sorting, selections, text, sums and result types that the others share |

Protocols are state machines: `Step` is one handler, or the part of one between two awaits, `After`
is a whole run, and the main results hold for every run. Where the source updates state in place, a
class holds the same fields and each of its methods is proved to make exactly the machine's step
(`BatchRunner.Runner`, `BoundedDispatch.Pool`, `SessionRouting.SessionGuard`, `Bridge.BridgeClient`,
`Bridge.BridgeProcess`, `EventLog.AttemptStore`); `ReentrantStore.Store` is instead proved against an
independent definition of a lawful history of deliveries. Loops are methods proved against the
functions that the lemmas are about. Small definitions that many results go through (which results decide a
trial, which paths are safe, what a row costs) are fixed by lemmas that state them on the records' fields.

What is assumed of the surroundings: SHA-256 is an arbitrary injective function; JSON is an arbitrary
codec that reads back what it wrote, on one non-empty line; `Math.sqrt` returns the non-negative root;
a timer may fire at any moment; Switchyard calls the bridge's callback any number of times and may decide
or fail at any moment, also while a callback waits; Pi calls handlers in any order. Probabilities, prices
and means are exact reals, token counts unbounded integers.

## Where the code does less than its documentation or a first reading suggests

- Pagination. The cursor compares by (updatedAt, id); rows that share both are lost when a page ends
  between them. `Pagination.TraversalTheorem` gives the exact condition, `Pagination.TiesLoseRows` shows
  it is also necessary for pages of one row.
- Event log. `appendEvent` takes a sequence number before it validates the payload, so a rejected payload
  followed by an accepted one leaves a log that `readAttempt` refuses: `EventLog.ReadableIff` gives the
  exact condition at every moment, `EventLog.DrainedReadableIff` once the queue is empty, `EventLog.GapRun`
  the smallest such run.
- Resuming. A session that crashed between the store write and `appendEntry` never gets its entry. It
  resumes until a coding message is kept, and is refused ever after: `DecisionStore.LaterResumes`,
  `DecisionStore.SecondResumeRefused`. A fork with inherited history is refused at once:
  `DecisionStore.FirstResume`, `DecisionStore.ForkResumeRefused`. Two inputs of one process that are both
  accepted append an entry each; once its log is kept, no start of that session ever succeeds again:
  `DecisionStore.AcceptedInputsConflict`, `DecisionStore.BrokenForGood`.
- Session guard. A second input may begin while an earlier one still waits for its decision. A beginning input
  aborts the earlier one, but a fixed baseline does not look at the signal, and in routed mode it is looked at
  only until the bridge has answered. Then both may write a decision, and requests are checked against one that
  is no longer the durable one. `SessionRouting.BeginKeepsDurableIff` says exactly when letting an input begin is
  safe, `SessionRouting.BeginSafeIff` puts it as a test on the waiting inputs,
  `SessionRouting.WaitingInputIsOvertaken` is a safe overlap and `SessionRouting.OverlappingInputsDiverge` an
  unsafe one. What the guard's machine takes from the bridge (one call at a time, none on a fired signal, a
  decision only over pipes that were empty, a frame left behind by a call whose signal fired) is proved in
  `Bridge`: `Bridge.BridgeClient.Begin`, `Bridge.ReturnsOnlyIfClean`, `Bridge.FiredReturnLeaves`.
- Bridge. If the library decides without waiting for an answer it asked for, the decision is returned all
  the same; the answer, or an error about it, is then left in the pipes, and no later call over them returns a
  decision. `Bridge.CleanReturn` and `Bridge.ReturnsOnlyIfClean` give the exact conditions, `Bridge.CleanRun` and
  `Bridge.DroppedRun` one run of each kind.
- Spend. With a cap, one interrupted attempt, or one whose observed calls have no price, stops the
  experiment for good: `Dispatch.UnknownSpendIsFinal`.
- Unreadable attempts. A run interrupted between creating its directory and its event file, or one whose
  log has a gap, leaves an attempt that cannot be read. Dispatch throws on it for ever, with or without a
  cap: `Dispatch.UnreadableIsFinal`.
- Budget. The turn limit counts coding turns only, although compaction calls are priced with them.
  `CostBound.BoundHoldsIff` says exactly how many calls the reserve covers; one compaction call more exceeds
  it, and can exceed the cap: `CostBound.CompactionExceedsBound`, `Dispatch.CompactionExceedsCap`.
- Reports. A trial whose last attempt was interrupted is dropped by the smoke report although the
  analysis still shows an earlier attempt; so is one whose last attempt has no event file, although the
  analysis then fails altogether. `Dispatch.ReachableReadersAgree` says that these are the only differences,
  `Dispatch.ReadersDisagree` and `Dispatch.MissingLogDisagrees` give one directory of each kind.

## Model

| member | source | states |
|---|---|---|
| Dispatch.ExperimentSpend | src/evaluation/smoke.ts:843-864 | the loop with its early break and returns computes the running spend that the budget results are about |
| Dispatch.NextEvaluationAction | src/evaluation/smoke.ts:866-921 | the two nested loops, with every refusal, compute the next action that every result below is about |
| Dispatch.NextActionIs | src/evaluation/smoke.ts:866-921 | the next action in every reachable directory, on its records alone: an error if an attempt is unreadable, or under a cap uncharged; else trials in order, each until a result decides it: the last attempt is validated if it waits for that, else the next id is run if there is one and recorded costs plus its reserve fit the cap |
| Dispatch.SettledIff | src/artifacts/run-artifacts.ts:998-1008 | a trial is settled exactly if one of its results timed out, ran out of budget, or completed and was validated either way, and passed exactly if that run completed and passed |
| Dispatch.DecidedIsFinal | src/evaluation/smoke.ts:894-907 | such a result never changes, and its trial never gets another attempt |
| Dispatch.OutcomeIff | src/artifacts/run-artifacts.ts:998-1008 | which results are reported as passed, failed, incomplete and unavailable, on the record's fields |
| Dispatch.AttachIff | src/artifacts/run-artifacts.ts:959-994 | a validation is attached once only, never to a cancelled run, and changes nothing else |
| Dispatch.RunMeans | src/evaluation/smoke.ts:874-891 | an attempt is started only if it does not exist, all earlier trials are settled, all earlier attempts of its trial exist and were passed over, and its reserve is free |
| Dispatch.ValidateMeans | src/evaluation/smoke.ts:908-914 | a validation is asked for only on an existing completed attempt whose submission is not validated yet |
| Dispatch.RunInv | src/evaluation/smoke.ts:866-921 | in every reachable directory attempts are a prefix of their trial's ids, none follows a passed, failed or unreadable one, none belongs to a trial whose turn has not come, and each carries its own identity |
| Dispatch.RunEnds | src/evaluation/smoke.ts:866-921 | every run has at most 2 * attempts * trials steps |
| Dispatch.StuckOnlyWhen | src/evaluation/smoke.ts:874-921 | without a cap the next action can be carried out unless all trials are settled (and only then is it done), a trial has used all its attempts without passing or failing, or an attempt cannot be read |
| Dispatch.OutcomeOf | src/evaluation/smoke.ts:869-921 | in a reachable directory only money, an exhausted trial, an unreadable attempt or completion ends a run; an identity mismatch never does |
| Dispatch.UnknownSpendIsFinal | src/evaluation/smoke.ts:853-873 | with a cap, any attempt without result or with unpriced observed calls is answered by that refusal, and no later step is possible |
| Dispatch.UnreadableIsFinal | src/evaluation/smoke.ts:853-893 | with or without a cap, dispatch throws on an unreadable attempt exactly when the directory holds one, and no later step is possible |
| Dispatch.SpendKnownIff | src/evaluation/smoke.ts:843-864 | spend is known exactly when every existing attempt can be read and was charged, although the loop stops early |
| Dispatch.KnownSpend | src/evaluation/smoke.ts:847-863 | a known spend is exactly the recorded cost of all attempts of all trials |
| Dispatch.BudgetHolds | src/evaluation/smoke.ts:871-889 | if every attempt's recorded cost is within the bound for its mode, recorded spend never exceeds the cap in any reachable directory |
| Dispatch.PresumedRunsWithinBound | src/artifacts/runtime-recorder.ts:489-527 | that premise holds for a cost computed from a ledger within the token caps whose coding and compaction calls together fit into the turn budget; nothing enforces this for compaction |
| Dispatch.CompactionExceedsCap | src/evaluation/smoke.ts:884-890 | without it the premise and the cap can fail: one compaction call beyond the turn budget in a first trial whose reserve just fitted |
| Dispatch.GeneratedScheduleDistinct | src/evaluation/smoke.ts:496-530 | the generated schedule has pairwise distinct attempt ids and 16 per trial, which the results above require |
| Dispatch.SmokeSelection | src/evaluation/smoke.ts:1041-1124 | the smoke report shows the last attempt it visits, nothing if that attempt has no result or some visited one has no event file, and throws on a corrupt log or on a foreign identity or provenance of the last one |
| Dispatch.MatchesTaskIff | src/evaluation/smoke.ts:1076-1085 | the smoke report's identity test is the analysis's without the repetition |
| Dispatch.AnalysisSelection | src/evaluation/analysis.ts:1295-1347 | the analysis shows the last visited attempt that has a result if it accepts all visited ones, else throws for the first it does not: unreadable, foreign, or of other evidence kind, decision source or provenance |
| Dispatch.DoneMeans | src/evaluation/smoke.ts:1041-1068 | when dispatch is done and the provenance comparisons succeed, every trial's last attempt passed or failed and both readers show exactly that attempt |
| Dispatch.ReadersAgree | src/evaluation/analysis.ts:1299-1347 | for any directory, exactly when the readers agree on a trial, errors included: where the analysis accepts every visited attempt, the last one has a result that passes the smoke report too, or none has one; elsewhere, the smoke report throws as well |
| Dispatch.ReachableReadersAgree | src/evaluation/smoke.ts:1041-1124 | in a reachable directory whose results pass both readers' comparisons the readers differ on a trial exactly if its last attempt has no event file, or was interrupted after one with a result |
| Dispatch.ReadersFailIff | src/evaluation/smoke.ts:1122-1124 | of such a directory the smoke report can be made exactly if no event log is corrupt, the analysis exactly if moreover none is missing |
| Dispatch.ReadersDisagree | src/evaluation/smoke.ts:1041-1068 | a reachable directory on which they show different attempts |
| Dispatch.MissingLogDisagrees | src/evaluation/smoke.ts:1122-1124 | a reachable directory on which the analysis throws and the smoke report drops the trial |
| CostBound.TrialWithinBound | src/evaluation/smoke.ts:581-607 | for every ledger within the token caps whose coding and compaction calls fit into the turn budget, with the classifier calls of its mode, the cost the recorder reports is at most the conservative bound |
| CostBound.BoundHoldsIff | src/pi/session-routing.ts:751-759 | all trials with k coding and j compaction calls stay within the bound exactly if k + j is at most the turn budget, which counts coding turns only, or requests cost nothing |
| CostBound.DearestReached | src/artifacts/runtime-recorder.ts:489-527 | a ledger at the caps, with distinct call ids, that costs exactly one coding bound per coding or compaction call plus the classifier bound |
| CostBound.CompactionExceedsBound | src/artifacts/runtime-recorder.ts:402-411 | one compaction call after a full turn budget costs one request more than was reserved |
| CostBound.KnownUnderLimit | src/evaluation/smoke.ts:532-547 | where a bound exists, a trial's cost is known exactly when its ledger is complete |
| CostBound.TokensWithinBound | src/evaluation/smoke.ts:587-599 | the tokens of n calls within both caps cost at most n request bounds |
| Usage.Normalize | src/artifacts/usage.ts:45-80 | accepted usage has a total equal to its four categories and reasoning within output |
| Usage.NormalizeIff | src/artifacts/usage.ts:45-80 | exactly the reports with safe counts, matching total and reasoning within output are accepted, and no count of theirs is changed |
| Usage.UsageLedger.Record | src/artifacts/usage.ts:144-161 | a first delivery is kept, an identical one is ignored, a different one for the same id and an empty id are errors that change nothing |
| Usage.OrderAndRepetitionIrrelevant | src/artifacts/usage.ts:144-177 | summaries depend only on which calls were delivered, not on order or repetition |
| Usage.TotalIsRoleSum | src/artifacts/usage.ts:163-172 | calls, missing calls and every token count of the total are the sums over the roles, unknown roles counting zero; the total is complete, and reports its reasoning tokens, exactly when all roles do |
| Usage.SplitSummary | src/artifacts/usage.ts:174-177 | the same for any selection of roles split in two, reasoning tokens included |
| Usage.UnknownIff | src/artifacts/usage.ts:82-127 | a summary is null exactly when calls were dispatched and none reported usage; its reasoning count is null exactly then, or when some observed call did not report one |
| Usage.StatusIff | src/artifacts/usage.ts:82-127 | a summary is complete exactly if every call reported its usage and ended well, and counts the calls that did and those that did not |
| Usage.SummaryOfOne | src/artifacts/usage.ts:116-139 | the summary of one call holds exactly what it reported |
| Usage.SummaryOfMore | src/artifacts/usage.ts:116-139 | summaries of more calls add up, token by token |
| Usage.SummaryCategories | src/artifacts/usage.ts:116-139 | every known summary of normalised calls has a total equal to its four categories |
| Usage.CostSplits | src/artifacts/usage.ts:180-202 | the cost over two disjoint groups of calls is known exactly when both costs are, and is their sum |
| Usage.CostOfSummary | src/artifacts/usage.ts:180-202 | a cost is known exactly for complete usage whose cache tokens have prices |
| Usage.CostOfAMillion | src/artifacts/usage.ts:196-201 | a million tokens of one category cost its price |
| Schedule.EvaluationSchedule | src/evaluation/smoke.ts:496-530 | the loops yield a schedule that depends on task ids, seed and repetitions alone, and refuse other than 1 to 100 repetitions |
| Schedule.EachTrialOnce | src/evaluation/smoke.ts:504-530 | each task, repetition and mode is scheduled at exactly one position |
| Schedule.ModesAdjacent | src/evaluation/smoke.ts:511-514 | positions in one block of three are exactly those of one task and repetition |
| Schedule.NumberedInOrder | src/evaluation/smoke.ts:510-529 | entry i has order i and its own ids, and there are three entries per task and repetition |
| Schedule.IdentifiersDistinct | src/evaluation/smoke.ts:514-518 | all trial ids and all attempt ids of a schedule are pairwise distinct |
| Schedule.TrialIdInjective | src/evaluation/smoke.ts:514 | a trial id determines task, repetition and mode, whatever characters task ids contain |
| Schedule.AttemptIdInjective | src/evaluation/smoke.ts:515-518 | an attempt id determines its trial id and number |
| Schedule.ListingOrderIrrelevant | src/evaluation/smoke.ts:505-509 | the order in which task ids are listed does not change the schedule |
| Schedule.BlockOrder | src/evaluation/smoke.ts:511-513 | the modes of each block are in the order of its own two draws |
| Schedule.DefaultSchedule | tests/phase08/smoke-benchmark.test.ts:180-191 | the nine trials of the smoke tasks under the default seed are in the listed order, through the generator's 32-bit arithmetic and both shuffles |
| Shuffling.Shuffle | src/evaluation/smoke.ts:479-486 | the in-place loop computes the result of the picks it draws, one per position from the end |
| Shuffling.ShuffleOfPermutes | src/evaluation/smoke.ts:479-486 | a shuffle is a permutation of its input for every seed |
| Shuffling.ReachesEveryOrder | src/evaluation/smoke.ts:481-484 | every order of the elements is the result of some picks |
| Shuffling.DrawOfClosure | src/evaluation/smoke.ts:468-477 | the k-th draw of the generator is the one its closure makes from the k-th state |
| Shuffling.MulberryInRange | src/evaluation/smoke.ts:475-482 | every scaled draw is a valid index |
| Shuffling.ScaledFloor | src/evaluation/smoke.ts:475-482 | a scaled draw is the integer part of its fraction of the bound |
| Shuffling.ShuffleOfThree | src/evaluation/smoke.ts:479-486 | what a shuffle of three does with its two draws |
| SessionRouting.RequestPassesOnlyIf | src/pi/session-routing.ts:793-804 | in every run a provider request passes only with a durable decision for the session, the context on that decision's tier model, and no pending limit |
| SessionRouting.RequestModel | src/pi/session-routing.ts:493-507 | in every run a passing request's context is on the weak or the strong model as the current decision's tier says, and that decision was durable at the start or chosen since: by the bridge, or as a baseline's mode fixes; a baseline that starts undecided runs on its own model only |
| SessionRouting.ForeignModelRepaired | src/pi/session-routing.ts:806-830 | selecting another model than the locked one starts a repair unless one is under way; once its model is applied the context is on the locked model, and a request passes unless a limit is pending |
| SessionRouting.SelectionLeftAlone | src/pi/session-routing.ts:806-830 | without a decision, or during a repair, a selected model is left alone; a repair that could not be applied leaves the context as it is |
| SessionRouting.CompactionOnLocked | src/pi/session-routing.ts:776-788 | a compaction runs on the locked model and is refused without one |
| SessionRouting.AbortedStillAsks | src/bridge/client.ts:145-172 | an aborted input keeps the bridge busy and may still get its decision, but leaves frames behind |
| SessionRouting.EndsIff | src/pi/session-routing.ts:718-740 | an input that ends in an error takes the controller in place with it, an accepted one leaves it |
| SessionRouting.RequestUsesDurable | src/pi/session-routing.ts:703-717 | if inputs wait their turn for the first decision, the current decision is the durable one and only one is ever written |
| SessionRouting.BeginKeepsDurableIff | src/pi/session-routing.ts:685-717 | after any such run, letting one more input begin keeps every later request of every continuation in which inputs wait their turn on the durable decision exactly if each input still waiting for the first decision can get none any more: aborted by the new one before the bridge answered it, or asking a bridge whose pipes hold old frames |
| SessionRouting.BeginSafeIff | src/pi/session-routing.ts:690-705 | as long as no agent has settled: for a fixed baseline exactly if no input waits for a decision; in routed mode exactly if no input has its answer from the bridge without being current, or old frames are left in the pipes |
| SessionRouting.WaitingInputIsOvertaken | src/pi/session-routing.ts:694-705 | two inputs of a fresh routed session, the first still in `preflightAuth` when the second begins: the first is waiting for its decision, can no longer ask the bridge, and every later request is safe |
| SessionRouting.SettledAbortsNobody | src/pi/session-routing.ts:769-774 | after `agent_settled` a beginning input aborts nobody, so both may ask the bridge |
| SessionRouting.TwoDeciding | src/pi/session-routing.ts:703-717 | from every state without a pending limit in which one input can still get its decision while another is in `preflightAuth`, both decisions can be written and a request of the first turn then passes on the one that is no longer durable |
| SessionRouting.OverlappingInputsDiverge | src/pi/session-routing.ts:694-706 | such a run of a fresh routed session whose second input begins after the bridge answered the first, with an accepted input and a started turn before the request |
| SessionRouting.TurnBudget | src/pi/session-routing.ts:751-759 | between accepted inputs at most maxAgentTurns turns start normally, and a turn is refused only after that many |
| SessionRouting.LimitSticks | src/pi/session-routing.ts:558-565 | after a limit no provider request passes until the next input begins |
| SessionRouting.FirstLimitReported | src/artifacts/runtime-recorder.ts:478-509 | finalization reports the first limit of the run whatever errors follow, else the error it is given |
| SessionRouting.LastErrorReported | src/artifacts/runtime-recorder.ts:478-509 | a run without a limit that ends normally is reported with its last error, and as completed without any |
| SessionRouting.LimitRecorded | src/artifacts/runtime-recorder.ts:282-291 | the recorder keeps the first limit ever reported, across inputs |
| SessionRouting.SessionGuard.SessionStart | src/pi/session-routing.ts:631-653 | a start adopts the loaded decision, or blocks the session when loading failed |
| SessionRouting.SessionGuard.Stop | src/pi/session-routing.ts:558-565 | the first limit of an input is kept and reported, and the running controller is aborted |
| SessionRouting.SessionGuard.ApplySelectedModel | src/pi/session-routing.ts:606-619 | the tier model is requested unless it is in use; a decision for another model is an error |
| SessionRouting.SessionGuard.Input | src/pi/session-routing.ts:685-705 | an input is dropped after a failed start, else it clears the pending limit, aborts the earlier controller for its own, and starts routing or restoring |
| SessionRouting.SessionGuard.AskBridge | src/bridge/client.ts:145-149 | a call is refused while another is active or if its signal has fired, else the input waits for the bridge |
| SessionRouting.SessionGuard.BridgeReturns | src/pi/session-routing.ts:493-512 | the library's tier gives a decision that names that tier's configured model |
| SessionRouting.SessionGuard.BaselineDecides | src/pi/session-routing.ts:493-512 | a fixed baseline decides strong exactly if it is strong-only, aborted or not |
| SessionRouting.SessionGuard.StoreWrites | src/pi/session-routing.ts:541-542 | the chosen decision is durable before it is current |
| SessionRouting.SessionGuard.CreateReturns | src/pi/session-routing.ts:705-707 | the written decision becomes current and its model is applied |
| SessionRouting.SessionGuard.FinishInput | src/pi/session-routing.ts:718-740 | a late input becomes a limit, any other resets the turn count |
| SessionRouting.SessionGuard.TurnStart | src/pi/session-routing.ts:751-759 | a turn is counted and refused past the budget |
| SessionRouting.SessionGuard.BeforeProviderRequest | src/pi/session-routing.ts:793-804 | the verdict is the one every run is judged by |
| SessionRouting.SessionGuard.ModelSelect | src/pi/session-routing.ts:806-833 | another model than the locked one is noted for repair unless a repair is under way |
| DecisionStore.ResumeSucceedsIff | src/pi/session-routing.ts:350-399 | exactly when a resume succeeds, and that it returns the stored decision |
| DecisionStore.AtMostOneDecision | src/pi/session-routing.ts:541-542 | across any crashes and resumes, with the inputs of each process one after another, a session has at most one durable decision, which store, log and process agree on |
| DecisionStore.LoadReturnsDurable | src/pi/session-routing.ts:370-399 | in every reachable state a successful load returns exactly the durable decision, or null while none is durable; a resume succeeds exactly if the session's entry is logged or no coding message is, any other start exactly while nothing is durable |
| DecisionStore.FirstResume | src/pi/session-routing.ts:375-397 | after the deciding process crashes, at any point and with any part of its log lost, a resume succeeds exactly if the session began without coding history or its entry survived |
| DecisionStore.LaterResumes | src/pi/session-routing.ts:392-394 | a session whose entry was missed resumes exactly until a coding message is kept |
| DecisionStore.MissedEntryStaysMissing | src/pi/session-routing.ts:714-716 | a missed entry is never added later |
| DecisionStore.SecondResumeRefused | src/pi/session-routing.ts:392-394 | the refused second resume, step by step |
| DecisionStore.ForkResumeRefused | src/pi/session-routing.ts:392-394 | a fork with inherited history whose first resume is refused, step by step |
| DecisionStore.OverlappingInputs | src/pi/session-routing.ts:703-706 | however any number of overlapping inputs of one process interleave, and wherever the process ends: if nothing was written the session is undecided, else it resumes exactly if the log kept the durable decision's entry alone, or no entry and no coding message |
| DecisionStore.AcceptedInputsConflict | src/pi/session-routing.ts:362-368 | two or more accepted inputs whose log is kept: every later start is refused for conflicting entries |
| DecisionStore.BrokenForGood | src/pi/session-routing.ts:350-399 | once what every crash keeps of the log contradicts the store, no start of any kind succeeds after any further events |
| Bridge.ReturnedDecision | src/bridge/client.ts:174-227 | in every interleaving a returned decision was written while the bridge served its id, after exactly one call frame and one classifier call for it, is well formed, and any answer the library got for it is the classifier's |
| Bridge.ReturnsIff | src/bridge/client.ts:176-231 | a decision is returned exactly if the next frame is that decision, well formed and about this call, and the classifier was called before |
| Bridge.CleanReturn | rust/switchyard-bridge/src/main.rs:364-434 | after any call that returns a decision, cancelled or not, both pipes are empty exactly if its signal never fired and the library received the classifier's answer before it decided; without a signal the bridge waits for a start frame |
| Bridge.ReturnsOnlyIfClean | src/bridge/client.ts:174-231 | in every interleaving a call returns a decision only if both pipes were empty when it began |
| Bridge.FiredReturnLeaves | src/bridge/client.ts:169-172 | a call whose signal fired and which returns all the same leaves a frame in the pipes |
| Bridge.CleanRun | rust/switchyard-bridge/src/main.rs:242-283 | a clean call from start to return |
| Bridge.DroppedRun | rust/switchyard-bridge/src/main.rs:265-269 | a call whose library decides without its answer: the decision is returned and the answer stays in the pipe |
| Bridge.RunInv | rust/switchyard-bridge/src/main.rs:234-311 | in every reachable state frames name begun decisions, a decision is served once, and nothing about it follows its final frame |
| Bridge.CallFrameNumber | rust/switchyard-bridge/src/main.rs:234-263 | in every run a call frame carries the number of its callback, those refused without a frame counted too |
| Bridge.OwnAnswerOnly | rust/switchyard-bridge/src/main.rs:265-309 | the library receives an answer exactly if the next frame answers the very call its callback made; any other frame is taken and the callback fails |
| Bridge.FailingReturnsNothing | src/bridge/client.ts:177-231 | a call whose start frame was lost, that failed, or that saw a second request returns no decision |
| Bridge.BridgeClient.Begin | src/bridge/client.ts:145-174 | makes exactly the system's step and writes its frame; a second concurrent call is refused and writes nothing |
| Bridge.BridgeClient.OnAbort | src/bridge/client.ts:169-172 | makes exactly the system's step, with one cancel frame per call at most |
| Bridge.BridgeClient.OnFrame | src/bridge/client.ts:176-231 | one turn of the read loop makes exactly the system's step: the frame is validated, matched, called, returned or thrown |
| Bridge.BridgeClient.OnAnswer | src/bridge/client.ts:186-218 | makes exactly the system's step: the classifier's result is written for the call that asked for it |
| Bridge.BridgeProcess.MainLoop | rust/switchyard-bridge/src/main.rs:364-434 | makes exactly the system's step: only a start frame is served, any other is answered by an error without an id |
| Bridge.BridgeProcess.Callback | rust/switchyard-bridge/src/main.rs:234-263 | makes exactly the system's step: every callback takes a new call number, also one refused without a frame |
| Bridge.BridgeProcess.CallbackFrame | rust/switchyard-bridge/src/main.rs:265-309 | makes exactly the system's step: only an answer with both ids reaches the library |
| Bridge.BridgeProcess.Finish | rust/switchyard-bridge/src/main.rs:315-346 | makes exactly the system's step: serving ends with one decision or one error frame |
| EventLog.ReadPrefix | src/artifacts/run-artifacts.ts:913-942 | any byte prefix of a numbered log reads as exactly the events whose newline it holds, flagged exactly if the cut is inside a line |
| EventLog.RunInOrder | src/artifacts/run-artifacts.ts:813-822 | in every run the log holds an initial part of the accepted events in order, and unless a write failed the queue holds the rest |
| EventLog.TakesIff | src/artifacts/run-artifacts.ts:797-812 | exactly when an operation takes a number: the first payload of its key, of the first decision recorded, before the attempt ended; a valid one is then accepted under the next number, anything else adds nothing |
| EventLog.OneNumberPerKey | src/artifacts/run-artifacts.ts:798-804 | in every run at most one operation of each key takes a number |
| EventLog.OneDecision | src/artifacts/run-artifacts.ts:825-839 | however often decisions are recorded, at most one of the operations takes a number |
| EventLog.DiskIsPrefix | src/artifacts/run-artifacts.ts:813-822 | at every moment, also after a failed write, and wherever a crash cuts a line, the file is a byte prefix of the accepted events' lines |
| EventLog.ValidPayloadsReadable | src/artifacts/run-artifacts.ts:792-823 | fed valid payloads only, every byte prefix of that file reads as the accepted events whose newline it holds, also after a failed write |
| EventLog.ReadableIff | src/artifacts/run-artifacts.ts:802-812 | at every moment the file can be read exactly as long as no logged event was accepted after a rejected one, and then returns all of the log; else the error names the first such line |
| EventLog.DrainedReadableIff | src/artifacts/run-artifacts.ts:802-812 | once drained, the log is readable exactly if no payload was accepted after another had been rejected |
| EventLog.GapRun | src/artifacts/run-artifacts.ts:802-812 | one rejected and one accepted payload leave a drained log that is refused at its first line |
| EventLog.ResultAfterFinalization | src/artifacts/run-artifacts.ts:892-898 | in any crash state with a result file the log already holds the finalization event, although the code only awaits the queue |
| EventLog.DrainedIsLogged | src/artifacts/run-artifacts.ts:892-896 | a finalization event whose queue has been worked off without a failed write is in the log |
| EventLog.AttemptStore.AppendEvent | src/artifacts/run-artifacts.ts:792-823 | deduplication, numbering and rejection in the source's order |
| EventLog.AttemptStore.RecordRoutingDecision | src/artifacts/run-artifacts.ts:825-839 | a second, different decision is refused and changes nothing |
| EventLog.AttemptStore.BeginFinalization | src/artifacts/run-artifacts.ts:892-895 | the finalization event takes the next number and joins the queue like any other |
| EventLog.AttemptStore.WriteNextLine | src/artifacts/run-artifacts.ts:813-821 | one queue task writes its line, or any part of it, or all of it without its sync |
| EventLog.AttemptStore.QueueAwaited | src/artifacts/run-artifacts.ts:892-896 | the awaited queue returns once nothing up to the event's number is waiting |
| EventLog.AttemptStore.WriteResult | src/artifacts/run-artifacts.ts:896-897 | the result is written after the queue was awaited |
| EventLog.AttemptStore.EndFinalization | src/artifacts/run-artifacts.ts:898 | later events are refused |
| Submission.RoundTrip | src/evaluation/workspace.ts:258-341 | applying an accepted export to the fixture gives back the scanned workspace |
| Submission.WorkspaceRoundTrip | src/evaluation/workspace.ts:192-215 | the same from the workspace on disk, outside the two skipped directories |
| Submission.AcceptedIff | src/evaluation/workspace.ts:268-297 | an export is accepted exactly if every path that differs from the fixture is editable, unprotected, small enough and, if new, of an allowed extension |
| Submission.ProtectedKept | src/evaluation/workspace.ts:273-277 | every protected or non-editable path keeps its fixture content |
| Submission.ExportApplies | src/evaluation/workspace.ts:323-327 | an exported submission meets no obstacle when applied |
| Submission.ExportIsWellFormed | src/evaluation/workspace.ts:293-301 | what is exported passes its own validation |
| Submission.ExportDescribes | src/evaluation/workspace.ts:285-291 | every exported change says truly whether its path was added, modified or deleted, and carries the workspace's bytes and their hash |
| Submission.EditableIff | src/evaluation/workspace.ts:217-219 | a path is editable exactly if it lies below an editable directory |
| Submission.SafePathIff | src/evaluation/task.ts:159-173 | a path is safe exactly if it is one or more plain names, none of them `.` or `..`, with slashes between |
| Submission.SkippedIff | src/evaluation/workspace.ts:198 | a scan skips exactly what lies in a top-level `node_modules` or `.git` |
| Submission.ScanIff | src/evaluation/workspace.ts:192-215 | a scan is refused exactly if a path outside the skipped directories is unsafe, else it holds every path outside them with its bytes |
| Submission.OnlyEditableTouched | src/evaluation/workspace.ts:323-326 | applying any submission without obstacle leaves every non-editable path alone |
| Submission.ExportSubmission | src/evaluation/workspace.ts:258-301 | the loop computes the export that the results are about |
| Submission.ValidateSubmissionExport | src/evaluation/workspace.ts:229-256 | accepts exactly submissions with safe distinct paths, bytes where they belong, and matching hashes |
| Submission.Workspace.ApplySubmission | src/evaluation/workspace.ts:311-341 | applies all changes, or exactly those before the first that cannot be applied, or none to a rejected or foreign submission |
| Submission.HashDeterminesChanges | src/evaluation/workspace.ts:221-227 | equal submission hashes mean equal paths, kinds and content hashes, in order |
| Submission.HashDeterminesSubmission | src/evaluation/workspace.ts:221-256 | for valid submissions also equal contents |
| Submission.TerminatedInjective | src/evaluation/workspace.ts:221-227 | a NUL-terminated text determines its fields |
| Submission.FixtureHashIff | src/evaluation/task.ts:175-182 | fixture hashes are equal exactly for equal file lists up to order |
| Calibration.ExactlyOneBin | src/evaluation/analysis.ts:1043-1048 | every probability in [0, 1] falls into exactly one of the five bins |
| Calibration.Partition | src/evaluation/analysis.ts:1043-1061 | any total over the rows is the total over the bins |
| Calibration.ErrorCoversMeanGap | src/evaluation/analysis.ts:1068-1078 | the gap between mean probability and pass rate is at most the expected calibration error |
| Calibration.ErrorSquared | src/evaluation/analysis.ts:1062-1078 | the squared calibration error is at most the Brier score |
| Calibration.ErrorRange | src/evaluation/analysis.ts:1062-1078 | both measures lie in [0, 1] |
| Calibration.ConstantForecast | src/evaluation/analysis.ts:1062-1067 | for rows of one probability the Brier score is its squared distance from the pass rate plus what the pass rate itself scores, which is the least |
| Calibration.BrierPooled | src/evaluation/analysis.ts:1062-1067 | scores of groups of rows are pooled by their sizes |
| Calibration.PlaceMeans | src/evaluation/analysis.ts:1024-1042 | a group gives a row exactly if the classifier gave a probability and the weak run passed or failed; the row is labelled passed exactly if the weak run passed; any other is left out for the first reason that applies |
| Calibration.CalibrationRows | src/evaluation/analysis.ts:1020-1042 | every routed decision becomes a row or is counted under exactly one reason |
| Calibration.RowsValid | src/evaluation/analysis.ts:1031-1041 | probabilities in [0, 1] give rows that the results above apply to |
| Trials.GroupTrials | src/evaluation/analysis.ts:880-887 | grouping holds exactly the trials, each in its place, and fails exactly if two want one place |
| Wilson.BoundsAreTheRoots | src/evaluation/analysis.ts:667-678 | the bounds are exactly the rates from which the observed rate is z standard errors away |
| Wilson.BoundsOrder | src/evaluation/analysis.ts:667-678 | 0 <= lower <= rate <= upper <= 1 |
| Wilson.Mirrored | src/evaluation/analysis.ts:667-678 | swapping passes and failures mirrors the interval about one half |
| Readiness.ComputeMeans | src/evaluation/readiness.ts:51-62 | the grouping map and reductions compute the equal-task means, null exactly as stated |
| Readiness.ComputeMetrics | src/evaluation/readiness.ts:64-89 | the sampling loops compute the metrics that the results are about |
| Readiness.QualityMeans | src/evaluation/readiness.ts:57 | the quality difference is the equal-task mean of routed success minus that of strong success |
| Readiness.QualitySign | src/evaluation/readiness.ts:57 | it is not negative if no row's routed run did worse |
| Readiness.ReductionMeans | src/evaluation/readiness.ts:58-61 | the reduction is known exactly if all token counts are and the baseline used some, and is the saved share of the baseline's equal-task mean: positive exactly if routing used fewer tokens |
| Readiness.OneRowPerTask | src/evaluation/readiness.ts:51-57 | with one row for each task equal-task means are plain averages |
| Readiness.TaskCountsOnce | src/evaluation/readiness.ts:51-61 | repeating all rows of one task changes no measure |
| Readiness.MetricMeans | src/evaluation/readiness.ts:81-88 | a metric has an interval exactly if there are enough clusters and resamples and its bounds are apart; at most 2.5 percent of the resampled values lie beyond either bound, and more lie at it or beyond |
| Readiness.MetricsMean | src/evaluation/readiness.ts:64-89 | each metric is made of its own measure of the rows, its own measure of the resamples, and its own target |
| Readiness.SamplesMean | src/evaluation/readiness.ts:69-79 | with enough clusters every resample is taken, none otherwise; each draws as many clusters as there are, by the generator's next positions |
| Readiness.ResampleAverages | src/evaluation/readiness.ts:71-78 | a resample's task means are those of the drawn clusters, counted as often as drawn |
| Readiness.CopyNameInjective | src/evaluation/readiness.ts:76 | copies made by different draws never share a task name |
| Readiness.SuccessBounds | src/evaluation/readiness.ts:81-88 | for all rows and every seed, reported success bounds are ordered and lie between the smallest and largest task mean of any cluster |
| Readiness.QualityBounds | src/evaluation/readiness.ts:81-88 | likewise for the quality difference |
| Readiness.TaskMeansSuffice | src/evaluation/readiness.ts:65-66 | if every task belongs to one cluster, the task means themselves are such bounds |
| Readiness.MeansScaled | src/evaluation/readiness.ts:51-62 | repeating every row k times, or permuting rows, leaves all three measures unchanged |
| Readiness.MetricsScaled | src/evaluation/readiness.ts:64-89 | and all three metrics with their intervals, for every seed |
| Replay.ReplayRow | src/evaluation/analysis.ts:1601-1650 | the loop's counters and cost, each stated group by group |
| Replay.GroupMeans | src/evaluation/analysis.ts:1609-1637 | a decided group selects weak exactly if the classifier's probability reaches the threshold, shows that baseline's outcome, and costs what that baseline and the classifier cost |
| Replay.ExtremeThresholds | src/evaluation/analysis.ts:1618-1634 | above every probability the replay is the strong baseline, at or below all of them without fallbacks the weak one |
| Replay.RowConserves | src/evaluation/analysis.ts:1609-1634 | weak and strong make up the decided pairs, outcomes make up all pairs, and the cost is known exactly if every pair's is |
| Replay.RaisingThreshold | src/evaluation/analysis.ts:1618-1625 | raising the threshold only removes pairs from the weak selection and changes no fallback |
| Replay.ExactlyAsManyWeak | src/evaluation/analysis.ts:1852-1856 | for every seed the control marks exactly as many pairs weak as normal weak decisions were recorded, and no fallback |
| Replay.ControlMeans | src/evaluation/analysis.ts:1852-1859 | the same on the recorded decisions: as many weak as the classifier selected, only where it gave a probability, and strong everywhere else |
| Replay.RandomSelectionReplay | src/evaluation/analysis.ts:1847-1859 | the control's tiers and counters; its outcomes make up all pairs |
| Replay.ReplayRandomSelection | src/evaluation/analysis.ts:1847-1859 | from trials to control: each place holds the last trial that wants it, and the groups are taken in key order |
| Replay.TrialOrderIrrelevant | src/evaluation/analysis.ts:1849-1851 | the order in which trials come changes nothing for any seed, as long as every place has the same last trial |
| BatchRunner.SettlesOnce | evaluator/15-cancel-batch/reference/src/batch.ts:25-34 | the promise settles at most once, with nothing active, and resolves exactly if no failure or abort came first, with every result in its slot |
| BatchRunner.NoClaimAfterFailure | evaluator/15-cancel-batch/reference/src/batch.ts:35-37 | no task is claimed after the first failure or abort |
| BatchRunner.RunInv | evaluator/15-cancel-batch/reference/src/batch.ts:30-49 | in every run tasks are claimed in order, once each, at most `concurrency` active |
| BatchRunner.Progress | evaluator/15-cancel-batch/reference/src/batch.ts:30-49 | an unsettled batch always has a callback to run, and every run is finite |
| BatchRunner.RunReports | evaluator/15-cancel-batch/reference/src/batch.ts:40-43 | a recorded report is the one the task made |
| BatchRunner.RunBatch | evaluator/15-cancel-batch/reference/src/batch.ts:12-16 | a bad bound or an aborted signal is refused before any claim |
| BatchRunner.Runner.PumpTasks | evaluator/15-cancel-batch/reference/src/batch.ts:30-49 | the claiming loop makes exactly the machine's step |
| BatchRunner.Runner.Then | evaluator/15-cancel-batch/reference/src/batch.ts:39-43 | a value fills its slot, a first error becomes terminal |
| BatchRunner.Runner.FinallyCallback | evaluator/15-cancel-batch/reference/src/batch.ts:44-47 | a finished task frees its place and pumps |
| BatchRunner.Runner.OnAbort | evaluator/15-cancel-batch/reference/src/batch.ts:21-24 | an abort becomes terminal unless a failure came first |
| BoundedDispatch.EachItemOnce | evaluator/36-bounded-dispatch/reference/src/dispatch.ts:2 | each slot holds the one result ever delivered for its item |
| BoundedDispatch.Completion | evaluator/36-bounded-dispatch/reference/src/dispatch.ts:2 | the call returns when every item has run exactly once; until then an event is possible, and runs are finite |
| BoundedDispatch.RunInv | evaluator/36-bounded-dispatch/reference/src/dispatch.ts:2 | at most min(concurrency, n) items in flight, all different |
| BoundedDispatch.Pool.Resume | evaluator/36-bounded-dispatch/reference/src/dispatch.ts:2 | a worker fills its own slot and claims the next index |
| ReentrantStore.SetOrder | evaluator/17-subscription-lifecycle/reference/src/store.ts:15-22 | values are delivered in the order of the set calls, none lost, repeated or overtaken |
| ReentrantStore.ReachesExactlyTheRegistered | evaluator/17-subscription-lifecycle/reference/src/store.ts:23-29 | a delivery reaches exactly the listeners registered when it began, once each, in order |
| ReentrantStore.WithinDelivery | evaluator/17-subscription-lifecycle/reference/src/store.ts:20-30 | deliveries never nest, and every listener told during one gets its value |
| ReentrantStore.Store.Set | evaluator/17-subscription-lifecycle/reference/src/store.ts:15-35 | however listeners call back or throw: a nested set only queues; the outermost one delivers everything, leaves the last value, and returns the first error |
| ReentrantStore.Store.Add | evaluator/17-subscription-lifecycle/reference/src/store.ts:36-39 | a new id, registered last |
| ReentrantStore.Store.Remove | evaluator/17-subscription-lifecycle/reference/src/store.ts:40-44 | removes that listener only |
| Pagination.TraversalTheorem | evaluator/42-export-pagination/reference/src/export.ts:2 | following the cursors yields exactly the wanted rows in order exactly if no page boundary splits a tie; then all pages but the last are full, max(1, ceil(n / limit)) of them |
| Pagination.DeliveredRows | evaluator/42-export-pagination/reference/src/export.ts:2 | whatever the pages: every item is a row of this tenant and not older than `since`, items ascend in time and then id, and all such rows are delivered, each as often as it occurs, exactly if no page boundary splits a tie |
| Pagination.RefusedIff | evaluator/42-export-pagination/reference/src/export.ts:2 | exactly the limits outside 1 to 100 are refused |
| Pagination.TraversalFrom | evaluator/42-export-pagination/reference/src/export.ts:2 | following the cursors always ends, with these pages |
| Pagination.DistinctKeysSuffice | evaluator/42-export-pagination/reference/src/order.ts:1-2 | distinct (updatedAt, id) within the tenant suffice, for every limit |
| Pagination.TiesLoseRows | evaluator/42-export-pagination/reference/src/order.ts:2 | for pages of one row they are also necessary |
| Pagination.CompareLaws | evaluator/42-export-pagination/reference/src/order.ts:1 | the comparison is a total order on keys |

## Left out

- Docker, the launcher, command lines, file permissions, child processes and HTTP: input and output only.
- JSON schemas, redaction, and the classification of error messages by their text: an error's status is
  a parameter of the event that reports it.
- Markdown and terminal rendering.
- Floating-point rounding, including the percentile positions, which are computed exactly; token sums
  beyond 2^53.
- Pi and Switchyard: they appear only as callers.
- The content of the provenance, evidence-kind and decision-source comparisons of the two report readers, one
  parameter each; the smoke report's totals over all attempts, and its part after the selection of the attempt.
- Whether a failed call to the bridge leaves frames behind, and what the pipes hold when a session starts, are
  parameters of the session guard's events and start.
- EventLog.AttemptStore.BeginFinalization: building and validating the run result, and the decision that
  `finalizeAttempt` may record first, which is a step of its own.
- Symbolic links, non-regular files, and a path that is a file on one side and a directory on the other;
  base64, which is replaced by the bytes themselves; what dependency setup writes.
- Bytes of a multi-byte character cut by a crash: such a cut is always in the dropped tail.
- The text of missing reasons and violations; the latency and contingency counters, the pair categories and
  the ratio bootstrap of the analysis; the verdict and the per-identity token counts of readiness: each is
  settled by one function.
- Map keys that join a task and a repetition are pairs; `Replay.KeyInjective` shows that the joined text
  determines them.
- The remaining reference solutions, the incomplete and mutant variants, and the fixtures.
- `validateConcurrency` of the bounded dispatcher is not part of this model: any bound of at least one is allowed.
