# Fragchain, modelled in Dafny

Fragchain turns a CVE into an attack chain, runs a three-loop assessment on it, maps the chain's techniques to
detection rules and shows the result as an ATT&CK coverage matrix.  This project models its stateful core and
proves what that core keeps over every run.  One module per file, one concept per module:

| area | modules |
|---|---|
| loop-run protocol | `VersionedRows`, `LoopProtocol`, `LoopSteps`, `LoopHistories`, `LoopMachine`, `LoopSafety`, `LoopOrchestrator`, `LoopChain` |
| coverage table and matrix | `Ids`, `CoverageTable`, `CoverageText`, `SharedGaps`, `VerifyFanOut`, `Matrix`, `MatrixCompute`, `MatrixLayout`, `MatrixFilters`, `MatrixFetchOrder`, `MatrixSlices`, `MatrixCodec`, `MatrixCache`, `QueueSupersede` |
| chain scoring | `EvalChain` |
| routing policy and gate | `Detectability`, `ArtifactRouter`, `RouterPlans`, `PlanBuilding` |
| supersede-on-write tables | `ChainSynthesis`, `ChainTable`, `ArtifactLifecycle`, `ArtifactOutcomes` |
| bounded runtime mechanisms | `FailureWindow`, `RetryPolicy` |
| support | `Options`, `Sorting` |

Run `dafny verify dfyconfig.toml` in this directory to verify everything.

How the source is represented: UUIDs are numbers (their texts sort as the numbers do), datetimes are integers or
opaque ISO texts, floats and Decimals are `real` with an explicit half-even rounding where the code rounds.  A
database table is a sequence of rows in insertion order and a query is a filter of it; where the code has no
`ORDER BY`, a lemma shows that the order does not matter, or, for the shared-gap count, exactly when it does not.  Objects whose methods update fields are classes, and each
such method is proved equal to a step function on values; lemmas about the step functions carry the whole-run claims.
Loop bodies, LLM verdicts, vector-search hits, random draws and clock readings are parameters, so every claim holds
for all of them.

The loop-run protocol is proved at two granularities.  `LoopProtocol.Inv` is what every interleaving of begin,
execute, import and close keeps.  `LoopMachine` is a small machine without history that the table refines
(`LoopMachine.Simulation`, and `LoopSafety.HistoriesCorrespond` for whole histories); erasure of failed runs and the
prefix property of serialised runs are proved on it and carried back to the table.

## Where the code and its documentation part ways

The model follows the code in each case; each entry names the lemma with the exact condition and, where there is one,
the lemma with a concrete input.

- `completed` is documented as terminal, but an import of a chain leaves it, and so does a run begun before the close
  that finishes after it (`LoopHistories.CompletedLeftIff`; inputs: `LoopSafety.ImportReopensClosed`, `LoopHistories.FinishReopensClosed`).
- When runs interleave, Loop 3 can be active with no active Loop 2: begin 3, re-run 1, finish 3
  (`LoopHistories.LateLoop3WithoutLoop2`).  A step causes this exactly when it finishes Loop 3 while no Loop 2 is active
  (`LoopHistories.Loop3RestsIff`; over histories, `LoopHistories.HistoriesRestIff`).
- The Loop 2 gate is documented to refuse Loop 3 without a rationale, but it is read at begin only: begin 3 while the
  gate passes, re-run 2 into a gate failure, finish 3 leaves Loop 3 active without a rationale on a gate_failed Loop 2
  (`LoopHistories.GateBypassed`).  A step causes this exactly when it finishes a Loop 3 without a rationale while the
  active Loop 2 is missing or did not pass (`LoopHistories.Loop3GatedIff`, `LoopHistories.HistoriesRestIff`).
- An import that overtakes a running Loop 1 is later superseded by the older version.  A step puts a newer run that has
  not failed above the active version exactly when it finishes a run that such a run has overtaken
  (`LoopHistories.OnTopIff`; over histories, `LoopHistories.HistoriesOnTopIff`; input:
  `LoopHistories.ImportOvertakesRunningLoop1`).
- `execute_run` is idempotent under duplicate delivery, but the worker task around it is not: the repeated delivery of
  a succeeded run begins the next loop again (`LoopChain.DuplicateDeliveryBeginsIff`).
- A chain synthesis that fails its checks has already superseded the active chain, and the failed run is committed:
  the CVE is left without an active chain (`ChainTable.SynthesisKeepsActiveIff`, `ChainTable.SynthesisLosesChainIff`;
  inputs: `ChainTable.MisnumberedRowLosesChain`, `ChainTable.NegativeBaseLosesChain`).
- `validation_failed` cannot be reached by a generated artifact (`ArtifactLifecycle.ValidationFailedUnreachable`).
- The shared-gap count is meant to count other CVEs that gap the technique.  It counts every other CVE recorded on one
  gap row of the technique, of any framework, and nobody when the last report ended the gap
  (`SharedGaps.CountsGapsIff`; inputs: `SharedGaps.CountsAnotherFramework`, `SharedGaps.UndercountsAfterCover`).  Which
  row is counted is up to the order of an unordered query (`SharedGaps.CountOrderFreeIff`,
  `SharedGaps.CountsOwnFrameworkIff`).
- The accumulated columns of a coverage row do not depend on the order of mapping runs; its status does
  (`CoverageTable.StatusCommutesIff`, `CoverageTable.MapAllStatus`; input: `CoverageTable.StatusDependsOnOrder`).
- The verify-call cap is described as per mapper run; the counter is never reset, so it caps the mapper's lifetime
  (`VerifyFanOut.LifetimeCalls`): a later run is answered Yes unseen (`VerifyFanOut.LaterBatchUnverified`; input:
  `VerifyFanOut.SecondRunUnverified`).
- The slice `tactic_id=TA-UNKNOWN` misses the rows without a tactic that the full matrix shows under that heading
  (`MatrixSlices.SliceAgreesIff`; input: `MatrixSlices.UnknownSliceMisses`).
- An empty text filter and an absent one share a cache key; the cells agree all the same, the echoed filters do not
  (`MatrixSlices.SameEffectSameMatrix`, `MatrixCache.EchoIsOwnIff`; input: `MatrixCache.EmptyTacticSharesKey`).
- The queue's supersede action appends to covering rules without sorting and without invalidating the matrix cache, so
  cached pages go stale and the mapper's row invariant can break until the technique is mapped again
  (`QueueSupersede.StaleIff`, `QueueSupersede.KeepsTableIff`; input: `QueueSupersede.SecondTechniqueStales`).
- Plan and generation gate can differ: below the confidence floor, which the gate ignores on purpose, when the
  classifier itself skipped Sigma for a generating class, and when a decline class is not enabled for gating
  (`ArtifactRouter.PlanAndGateAgreeIff`; below the floor, `ArtifactRouter.FloorIsNotGated`).

## Model

| member | source | states |
|---|---|---|
| VersionedRows.NextVersion | fragchain/assessments/active_rows.py:18-27 | the scan returns one more than the highest version of the scope: above every row of the scope, and either 1 or the successor of an existing version |
| VersionedRows.AppendKeepsDense | fragchain/assessments/active_rows.py:18-27 | inserting with the next version keeps the versions of every scope exactly 1..k in insertion order |
| VersionedRows.DenseOrders | fragchain/assessments/active_rows.py:18-27 | in such a table a later row of a scope always has the higher version |
| LoopProtocol.StatesFollowLevels | fragchain/assessments/state_machine.py:20-65 | a loop may run iff the assessment is not completed and every loop before it is done; finishing it leaves exactly the loops up to it done; an assessment may close iff Loop 2 is done and it is not completed |
| LoopSteps.BeginRecords | fragchain/assessments/orchestrator.py:107-166 | a begin is refused exactly when the assessment is completed, an earlier loop is not done, the loop has a running row, or Loop 3 has no rationale while the active Loop 2 failed its gate; else it appends one inactive running row of the next version |
| LoopSteps.ExecutionRecords | fragchain/assessments/orchestrator.py:242-307 | told from the loop body alone: a dead worker or a raising loop leaves the row failed without output and all else as it was; a returned body ends gate_failed, failed or succeeded by gate and synthesis, which only a non-empty Loop 2 output meets; the output is kept, with the chain id when a chain was built |
| LoopSteps.ExecutionEffects | fragchain/assessments/orchestrator.py:311-372 | a failed run changes its own row only; any other is activated, supersedes exactly the active rows of its own and the later loops and sets the state to its loop done |
| LoopSteps.ImportRecords | fragchain/assessments/chain_reuse.py:49-135 | an import supersedes the active Loop 1 rows only, appends one active succeeded Loop 1 row with the chain and sets loop1_done from any state; without a chain it is refused |
| LoopProtocol.BeginKeepsInv | fragchain/assessments/orchestrator.py:107-166 | a begin keeps the table invariant: active iff succeeded or gate_failed, one active and one running row per loop, versions 1..k, gate_failed only in Loop 2, and an active row behind every loopN_done state |
| LoopProtocol.ExecuteKeepsInv | fragchain/assessments/orchestrator.py:183-307 | so does the execution of any running row with any outcome, in any interleaving |
| LoopProtocol.UseAsStartKeepsInv | fragchain/assessments/chain_reuse.py:49-135 | so does the import of a chain as Loop 1, whatever runs are in flight |
| LoopProtocol.ReplayKeepsInv | fragchain/assessments/orchestrator.py:3-12 | the invariant holds after every sequence of begin, execute, import and close requests, refused ones included |
| LoopHistories.ReplayKeepsOnTop | fragchain/assessments/orchestrator.py:128-166 | a sufficient condition on requests alone: if imports happen only while Loop 1 is idle, every row above an active version is running or failed, after every history |
| LoopHistories.ActiveOnTopByVersion | fragchain/assessments/orchestrator.py:430-451 | the same claim read off the version column |
| LoopHistories.FinishKeepsOnTopIff | fragchain/assessments/orchestrator.py:346-352 | a finishing run keeps that claim exactly when every later row of its loop has failed |
| LoopHistories.OnTopIff | fragchain/assessments/orchestrator.py:346-352 | a step of any kind keeps every row above an active version running or failed exactly unless it finishes, with an output, a run overtaken by a later run of its loop that has not failed |
| LoopHistories.HistoriesOnTopIff | fragchain/assessments/orchestrator.py:128-166 | over every interleaved history that claim holds in every table along it exactly when no overtaken run finishes |
| LoopHistories.ImportOvertakesRunningLoop1 | fragchain/assessments/chain_reuse.py:74-117 | begin Loop 1, import, finish Loop 1: version 1 is active and the imported version 2 superseded |
| LoopHistories.CompletedLeftIff | fragchain/assessments/state_machine.py:20-26 | a step leaves `completed` exactly when it is a successful import or finishes, with an output, a run that was still in flight |
| LoopHistories.FinishReopensClosed | fragchain/assessments/orchestrator.py:346-352 | begin Loop 2, close, finish Loop 2: a completed assessment is at loop2_done again |
| LoopHistories.LateLoop3WithoutLoop2 | fragchain/assessments/orchestrator.py:346-352 | from any idle table at loop2_done whose gate passed: begin 3, begin 1, finish 1, finish 3 ends with Loop 3 active and Loop 2 not |
| LoopHistories.Loop3RestsIff | fragchain/assessments/orchestrator.py:346-354 | if an active Loop 3 rests on an active Loop 2, it still does after a step of any kind exactly unless the step finishes Loop 3 with an output while no Loop 2 is active; begin, import, close and failing runs never break it |
| LoopHistories.Loop3GatedIff | fragchain/assessments/orchestrator.py:135-146 | if every active Loop 3 without a rationale rests on an active, succeeded Loop 2, it still does after a step exactly unless the step finishes a Loop 3 without a rationale while no active Loop 2 has succeeded |
| LoopHistories.HistoriesRestIff | fragchain/assessments/orchestrator.py:135-146 | over every interleaved history both claims hold in every table along it exactly when no such finish occurs in it |
| LoopHistories.GateBypassed | fragchain/assessments/orchestrator.py:15-16 | from any idle table at loop2_done whose gate passed: begin 3 without a rationale, begin 2, gate-fail 2, finish 3 ends with that Loop 3 active on a gate_failed Loop 2 |
| LoopMachine.AbsOfAbstracts | fragchain/assessments/orchestrator.py:430-468 | every table meeting the invariant is seen as exactly one machine state (state, active slot and run in flight per loop) |
| LoopMachine.Simulation | fragchain/assessments/orchestrator.py:107-307 | a request succeeds on the table exactly when the machine allows it, and both then end in corresponding states |
| LoopMachine.GuardsAgree | fragchain/assessments/orchestrator.py:442-468 | the running, active and gate-failed queries answer as the machine's maps do |
| LoopSafety.HistoriesCorrespond | fragchain/assessments/orchestrator.py:107-307 | table and machine allow exactly the same histories and end in corresponding states |
| LoopSafety.EraseOnMachine | fragchain/assessments/orchestrator.py:148-153 | on the machine, from any state: dropping every failing run (its begin and its finish) leaves a legal history with the same end |
| LoopSafety.FailedRunsErase | fragchain/assessments/orchestrator.py:148-153 | on the table, from any idle state: erasing the failed runs of any legal interleaved history leaves a legal history with the same state, active outputs and runs in flight, and no failed run |
| LoopSafety.ServeRefines | fragchain/assessments/orchestrator.py:168-181 | a serialised request (begin and execute as one) refines one machine step |
| LoopSafety.ServeKeepsPrefix | fragchain/assessments/orchestrator.py:135-146 | a serialised request keeps the prefix property, keeps higher loops inactive unless it is an import beyond `created`, and changes nothing once completed |
| LoopSafety.SerialRunsKeepPrefix | fragchain/assessments/orchestrator.py:168-181 | after all serialised runs every loop up to the state's is active, and an active Loop 3 rests on an active Loop 2, which succeeded unless Loop 3 carries an override rationale |
| LoopSafety.SerialRunsFromFresh | fragchain/assessments/state_machine.py:20-65 | with imports only from `created`, a loop is active iff the state says it is done, and a completed assessment never changes again |
| LoopSafety.ImportReopensClosed | fragchain/assessments/chain_reuse.py:116-117 | an import on a completed assessment puts it back to loop1_done while Loops 2 and 3 stay active |
| LoopOrchestrator.Orchestrator.BeginRun | fragchain/assessments/orchestrator.py:107-166 | the precheck and insert equal the begin step; a refused request changes nothing |
| LoopOrchestrator.Orchestrator.RunningRun | fragchain/assessments/orchestrator.py:453-468 | finds a running row of the loop iff there is one |
| LoopOrchestrator.Orchestrator.LatestActiveRun | fragchain/assessments/orchestrator.py:442-451 | finds an active row of the loop iff there is one |
| LoopOrchestrator.Orchestrator.ExecuteRun | fragchain/assessments/orchestrator.py:183-307 | one delivery in place equals the execute step, whose effect on every row `LoopSteps.ExecutionRecords` and `LoopSteps.ExecutionEffects` state; a missing row is an error and a finished one a no-op |
| LoopOrchestrator.Orchestrator.FinalizeRun | fragchain/assessments/orchestrator.py:311-372 | a failure touches its own row only; a success supersedes the active rows of its loop and of all later loops, activates its row and sets the state |
| LoopOrchestrator.Orchestrator.SupersedePriorActiveRows | fragchain/assessments/orchestrator.py:470-481 | demotes exactly the active rows of one loop |
| LoopOrchestrator.Orchestrator.InvalidateDownstream | fragchain/assessments/orchestrator.py:483-495 | demotes exactly the active rows of the later loops |
| LoopOrchestrator.Orchestrator.UseAsStart | fragchain/assessments/chain_reuse.py:49-135 | demote, version, insert and state change equal the import step; an unknown chain changes nothing |
| LoopOrchestrator.Orchestrator.Close | fragchain/assessments/service.py:106-127 | closes from loop2_done or loop3_done, refuses otherwise |
| LoopOrchestrator.Orchestrator.CollectPriorOutputs | fragchain/assessments/orchestrator.py:397-409 | the context handed to a loop is the same whatever order the active rows are fetched in |
| LoopChain.DecisionIs | fragchain/assessments/loop_chain.py:24-38 | with auto-advance a success below Loop 3 dispatches the next loop, and a failed, gate-failed or last run stops the chain; everything else does nothing |
| LoopChain.AdvanceEnabledIff | fragchain/assessments/loop_chain.py:41-48 | after a success the begin of the next loop, which carries no rationale, is refused exactly when that loop is in flight |
| LoopChain.DuplicateDeliveryBeginsIff | fragchain/worker/tasks/run_assessment_loop.py:98-128 | a repeated delivery of a finished run keeps the state, and begins the next loop exactly when the run is a success below Loop 3, auto-advance is on and that loop may run and is idle |
| LoopChain.DuplicateDeliveryReruns | fragchain/worker/tasks/run_assessment_loop.py:98-128 | so a repeated Loop 1 delivery re-runs Loop 2 of an assessment that is already at loop2_done |
| LoopChain.AdvanceAfterRun | fragchain/assessments/loop_chain.py:57-100 | the driver's in-place effect: at most one new row, as the decision says, refusals swallowed |
| LoopChain.WorkerTask | fragchain/worker/tasks/run_assessment_loop.py:98-128 | with no other actor one task leaves nothing in flight, or exactly the next loop, without a rationale, and the latter iff auto-advance is on and its own run succeeded below Loop 3 |
| LoopChain.DriveChain | fragchain/assessments/loop_chain.py:57-100 | the chain from one run terminates (measure 3 minus the loops begun), begins consecutive loops without a rationale, only after successes, and stops for no other reason |
| EvalChain.LcsIsLongest | scripts/eval_chain.py:84-98 | the recurrence yields the length of some common subsequence, defined by increasing embeddings, and none is longer |
| EvalChain.FillTable | scripts/eval_chain.py:84-98 | the nested loops fill the table so that its corner holds the recurrence's value |
| EvalChain.ComputeLcsRatio | scripts/eval_chain.py:84-98 | the returned ratio is that length over the longer list, 1 for two empty lists and 0 for one |
| EvalChain.LcsSymmetric | scripts/eval_chain.py:84-98 | the length does not depend on which list is the truth |
| EvalChain.RatioIsAScore | scripts/eval_chain.py:84-98 | the ratio lies in [0, 1], is symmetric and is 1 iff the lists are equal |
| EvalChain.RatioMeasures | scripts/eval_chain.py:84-98 | the ratio is the length of a longest common subsequence over the length of the longer list |
| EvalChain.Hallucinations | scripts/eval_chain.py:101-104 | the comprehension counts the predicted positions whose technique is not in the truth |
| EvalChain.CountsMissing | scripts/eval_chain.py:101-104 | the count is the number of predicted positions whose technique the truth does not have |
| EvalChain.MatchesAndHallucinations | scripts/eval_chain.py:84-104 | common-subsequence length plus hallucinations never exceeds the predicted length |
| EvalChain.JaccardIsAScore | scripts/eval_chain.py:72-81 | the overlap lies in [0, 1], is 1 iff both lists use the same techniques, and a ratio of 1 forces it |
| EvalChain.JaccardMeasures | scripts/eval_chain.py:72-81 | the overlap times the number of techniques used at all is the number of shared ones; 1 when none are used |
| CoverageTable.ClassificationSound | fragchain/coverage/mapper.py:384-412 | reported covering rules are the exact (when verify is on) and yes rules, partial rules the rest of the demoted and partial ones, never both; the status follows from which exist |
| CoverageTable.ClassifyTechnique | fragchain/coverage/mapper.py:384-412 | the list-extending code computes that classification |
| CoverageTable.PersistOneAt | fragchain/coverage/mapper.py:856-900 | persisting one report merges it into the row of its own technique and framework, created if missing, and changes no other row |
| CoverageTable.MapAllOk | fragchain/coverage/mapper.py:850-900 | any history keeps the table invariant: one row per technique and framework, sorted duplicate-free id columns, counts that match them, KEV flag iff KEV count, no_data and no rules without CVEs |
| CoverageTable.MapAllView | fragchain/coverage/mapper.py:850-900 | any history on any table adds to a row exactly the CVEs of the runs that mention it and the rules those runs report |
| CoverageTable.ColumnsAfter | fragchain/coverage/mapper.py:866-889 | from a seeded table: a row exists iff seeded or mentioned; its CVEs are exactly those whose mapped chains mention the technique, its counts their number and their KEVs, its rules the union of all covering and partial rules reported |
| CoverageTable.ColumnsOrderIndependent | fragchain/coverage/mapper.py:866-889 | two histories with the same runs, reordered or repeated, give identical accumulated columns |
| CoverageTable.PersistStatus | fragchain/coverage/mapper.py:891-891 | the status column is the last report written |
| CoverageTable.StatusCommutesIff | fragchain/coverage/mapper.py:891-891 | two calls commute on a technique's status iff one does not report it or both report the same |
| CoverageTable.MapAllStatus | fragchain/coverage/mapper.py:891-891 | after any history the status is the last run's that writes the technique's row, else the status before |
| CoverageTable.StatusDependsOnOrder | fragchain/coverage/mapper.py:891-891 | a gap for one CVE and coverage for another: the order of the two runs decides the status |
| CoverageText.MapAllText | fragchain/coverage/mapper.py:858-900 | after any history a descriptive column of a key shows the seeded text if there is one, and otherwise the first text that is not empty among those the runs reported for the key |
| CoverageText.FirstTextIs | fragchain/coverage/mapper.py:893-900 | the first text that is not empty is the one all earlier ones of which are empty |
| CoverageText.MapAllHierarchy | fragchain/coverage/mapper.py:858-865 | mapping never writes the sub-technique and parent columns; a row it creates has none |
| CoverageText.MapAllExtends | fragchain/coverage/mapper.py:856-865 | after any history old rows keep their places, created ones stand behind them, and only keys some run reported have one |
| SharedGaps.SharedGapCountExact | fragchain/coverage/mapper.py:374-382 | the count is exactly the number of other CVEs recorded on the row counted |
| SharedGaps.CountsOwnFrameworkIff | fragchain/coverage/mapper.py:834-848 | with the rows in a given order, the row counted is a given framework's iff that row is a gap and no later row of the technique is one |
| SharedGaps.CountsAnotherFramework | fragchain/coverage/mapper.py:834-848 | a table where another framework's CVEs are counted |
| SharedGaps.CountsGapsIff | fragchain/coverage/mapper.py:370-382 | over any history and any order of the rows: when no framework's last report is a gap the count is 0, right iff no other CVE reported a gap; else a framework whose last report is a gap is counted, with its number of other mapped CVEs, which for the mapped framework is never too low and right iff all of them reported a gap |
| SharedGaps.CountedIsGap | fragchain/coverage/mapper.py:834-848 | in any order of the rows a row is counted iff the table has a gap row of the technique, and it is one of these |
| SharedGaps.CountOrderFreeIff | fragchain/coverage/mapper.py:834-848 | the count is the same in every order of the rows iff all gap rows of the technique give the same count |
| SharedGaps.UndercountsAfterCover | fragchain/coverage/mapper.py:834-848 | a gap for CVE 1, then coverage for CVE 2: CVE 3 counts nobody although CVE 1 reported a gap |
| CoverageTable.OtherFrameworksKept | fragchain/coverage/mapper.py:902-911 | a mapping call leaves the rows of every other framework as they were |
| CoverageTable.CoverageMapper.GetCoverageRow | fragchain/coverage/mapper.py:902-911 | finds the first row of the key, or none |
| CoverageTable.CoverageMapper.MergeStatus | fragchain/coverage/mapper.py:866-900 | the field-by-field update of a row equals the merge |
| CoverageTable.CoverageMapper.PersistStatuses | fragchain/coverage/mapper.py:850-900 | the loop over reports equals the fold the lemmas speak of |
| VerifyFanOut.MoveKeepsInv | fragchain/coverage/mapper.py:706-739 | every scheduling step keeps in-flight calls within the parallelism and the call count within the cap, and brings the batch nearer its end |
| VerifyFanOut.ScheduleKeepsInv | fragchain/coverage/mapper.py:579-604 | so does every schedule, which has at most two steps per candidate |
| VerifyFanOut.Progress | fragchain/coverage/mapper.py:706-724 | with a positive parallelism no schedule gets stuck |
| VerifyFanOut.FinishedBatch | fragchain/coverage/mapper.py:579-608 | any finished batch has one outcome per candidate in candidate order, a schedule-independent number of calls, and duplicate-free disjoint kept and partial lists that hold exactly the candidates recorded yes and partial; the verdicts recorded are those returned (`VerifyFanOut.VerdictsRecorded`) |
| VerifyFanOut.VerdictsRecorded | fragchain/coverage/mapper.py:579-604 | in every finished batch, whatever the schedule: a candidate is recorded with the very verdict its call returned, one without a returned call is answered Yes, and as many calls returned as were counted |
| VerifyFanOut.LifetimeCalls | fragchain/coverage/mapper.py:726-739 | over all batches of a mapper the calls made are exactly the smaller of the cap and the number of candidates |
| VerifyFanOut.CapHolds | fragchain/coverage/mapper.py:732-739 | from a fresh counter the total never exceeds the cap, and a cap of zero or less allows none |
| VerifyFanOut.LaterBatchUnverified | fragchain/coverage/mapper.py:726-739 | a batch that starts with the budget spent makes no call and answers Yes to every candidate |
| VerifyFanOut.SecondRunUnverified | fragchain/coverage/mapper.py:726-739 | under a cap of one, the first run's candidate is verified, the second run's is not |
| MatrixCompute.ExtrasAre | fragchain/coverage/matrix.py:393-399 | the buckets opened beyond the kill chain are exactly the other tactics in use, each once |
| MatrixCompute.DealKeeps | fragchain/coverage/matrix.py:389-445 | dealing one row keeps every bucket equal to the cells of the rows dealt so far |
| MatrixCompute.Compute | fragchain/coverage/matrix.py:373-481 | select, deal, sort, slice and sum compute the matrix the lemmas speak of; what it shows under each filter is stated by the `MatrixFilters` rows below |
| MatrixFilters.MatrixShows | fragchain/coverage/matrix.py:384-387 | the matrix holds the cell of every row of the framework, and of the tactic if one is asked for, and no other cell |
| MatrixFilters.UnfilteredShows | fragchain/coverage/matrix.py:427-431 | without a filter a cell shows the row's own columns |
| MatrixFilters.TacticShows | fragchain/coverage/matrix.py:406-431 | under a tactic filter a cell counts the row's CVEs that have a chain and the KEVs among them; it shows the row's status iff there is one, and otherwise covered for a covered row with rules and no_data for any other |
| MatrixFilters.CveIdShows | fragchain/coverage/matrix.py:498-499 | under a cve_id filter a cell counts exactly the row's CVEs with a chain whose text id is the upper-cased filter; with none left the count is 0 and the status covered for a covered row with rules and no_data for any other, else it is the row's |
| MatrixFilters.CvssShows | fragchain/coverage/matrix.py:500-501 | likewise for cvss_min: the CVEs whose score is present and at least the minimum |
| MatrixFilters.KevOnlyShows | fragchain/coverage/matrix.py:502-503 | likewise for kev_only: the KEVs, so that the CVE count equals the KEV count |
| MatrixFilters.DateFromShows | fragchain/coverage/matrix.py:506-514 | likewise for date_from: the CVEs published on or after it; a bound that is no date keeps all |
| MatrixFilters.DateToShows | fragchain/coverage/matrix.py:515-523 | likewise for date_to: the CVEs published on or before it; a bound that is no date keeps all |
| MatrixFilters.AssessmentShows | fragchain/coverage/matrix.py:504-505 | likewise for an assessment: the CVEs with a chain of that assessment |
| MatrixFilters.FiltersCompose | fragchain/coverage/matrix.py:483-527 | several filters select exactly the CVEs that each of them selects alone |
| MatrixLayout.FamiliesTogether | fragchain/coverage/matrix.py:604-612 | in a column the members of a technique family (the technique and the cells that name it as their parent) stand together |
| MatrixLayout.FamiliesOrdered | fragchain/coverage/matrix.py:604-612 | families stand in the order of their root techniques' ids |
| MatrixLayout.FamilyOrder | fragchain/coverage/matrix.py:604-612 | within a family, distinct techniques stand in the order of their ids |
| MatrixLayout.ParentFirst | fragchain/coverage/matrix.py:604-612 | a parent stands before a sub-technique iff its id sorts before, in particular when the sub-technique's id extends it |
| MatrixLayout.TacticOrder | fragchain/coverage/matrix.py:447-454 | columns are the kill chain in order with its names, then the other tactics in use in strict id order |
| MatrixLayout.NoTacticTwice | fragchain/coverage/matrix.py:389-399 | no tactic has two headings |
| MatrixLayout.EveryTacticShown | fragchain/coverage/matrix.py:393-399 | exactly the kill-chain tactics and the tactics in use have one |
| MatrixLayout.SliceColumn | fragchain/coverage/matrix.py:384-459 | a tactic slice holds the one column of that tactic with every selected row in it, or nothing for a tactic outside the kill chain that no row has |
| MatrixLayout.EverySelectedRowOnce | fragchain/coverage/matrix.py:384-459 | conservation: the matrix holds exactly one cell for each selected row, sliced or not |
| MatrixLayout.TallyCounts | fragchain/coverage/matrix.py:461-474 | each summary field is the number of cells of its kind, and the total is their sum |
| MatrixLayout.SummaryTotals | fragchain/coverage/matrix.py:461-474 | the summary's total is the number of selected rows and splits into covered, partial, gap and no_data |
| MatrixFetchOrder.FetchOrderIrrelevant | fragchain/coverage/matrix.py:384-387 | fetching the rows in another order gives the same tactics, cells and summary (names of tactics outside the kill chain aside) |
| MatrixSlices.AllSelectedAgrees | fragchain/coverage/matrix.py:406-431 | under the mapper's invariant a row all of whose CVEs are selected shows the same cell on the filtered and the unfiltered path |
| MatrixSlices.NarrowerCell | fragchain/coverage/matrix.py:406-431 | a smaller CVE set never raises a cell's CVE count, KEV count or KEV flag |
| MatrixSlices.TightensLens | fragchain/coverage/matrix.py:483-527 | adding or tightening filters never selects more CVEs |
| MatrixSlices.NarrowingNeverRaises | fragchain/coverage/matrix.py:373-481 | so for whole matrices: same tactics, same cells in the same places, counts never higher |
| MatrixSlices.SliceAgreesIff | fragchain/coverage/matrix.py:380-394 | a tactic-only slice has the cells of that column of the unfiltered matrix iff the tactic is not TA-UNKNOWN or no row of the framework lacks a tactic |
| MatrixSlices.UnknownSliceMisses | fragchain/coverage/matrix.py:384-394 | a seeded row without a tactic is in the full matrix under TA-UNKNOWN and not in that slice |
| MatrixSlices.SameEffectSameMatrix | fragchain/coverage/matrix.py:103-130 | filters that differ only in absent against empty texts compute the same matrix even when one takes the unfiltered path |
| MatrixCodec.RoundTrip | fragchain/coverage/matrix.py:180-265 | from_dict undoes to_dict with the hit flag cleared |
| MatrixCodec.SparseReads | fragchain/coverage/matrix.py:215-248 | absent fields of a cell, tactic or summary read as absent texts, zeros, false and no_data; only the ids are required |
| MatrixCodec.EmptyReads | fragchain/coverage/matrix.py:215-265 | an empty payload reads as an empty attck page with the current timestamp |
| MatrixCodec.HitFlagIgnored | fragchain/coverage/matrix.py:210-265 | the hit flag is written and ignored on reading |
| MatrixCodec.EchoIdentifies | fragchain/coverage/matrix.py:615-627 | the echoed filters identify the filters, absent and empty told apart |
| MatrixCache.SharedKeyIff | fragchain/coverage/matrix.py:103-118 | two requests share a key iff they differ at most in absent against empty texts |
| MatrixCache.OtherFrameworkSameMatrix | fragchain/coverage/mapper.py:436-441 | mapping one framework leaves every other framework's matrix as it was |
| MatrixCache.FreshEntryCurrent | fragchain/coverage/matrix.py:585-595 | an entry stored for one request decodes to the current matrix of every request sharing its key |
| MatrixCache.StepKeepsInv | fragchain/coverage/matrix.py:291-359 | mapping with its invalidation, read, warm, invalidate and expiry keep every entry current |
| MatrixCache.EveryReadIsCurrent | fragchain/coverage/matrix.py:291-359 | for all filters, absent or empty: after any serial history from a seeded table every read serves the framework, tactics and summary a fresh computation gives |
| MatrixCache.HitIsWritersPage | fragchain/coverage/matrix.py:302-310 | after any history a read hits exactly when its key has a writer, and a hit serves what the writer would compute now, with the writer's filters and timestamp and the hit flag set |
| MatrixCache.EchoIsOwnIff | fragchain/coverage/matrix.py:302-310 | after any history the page served, filters included, equals a fresh computation up to timestamp and hit flag exactly unless it is a hit on an entry another request wrote |
| MatrixCache.EveryReadIsFresh | fragchain/coverage/matrix.py:180-359 | cache agreement: over any serial history with absent filters given as None, every page served equals a fresh computation up to timestamp and hit flag |
| MatrixCache.EmptyTacticSharesKey | fragchain/coverage/matrix.py:105-114 | an empty tactic filter and none share a key but not an echo |
| MatrixCache.Cache.GetMatrixData | fragchain/coverage/matrix.py:291-310 | read-through in place: the page served and the new store are the read step's, default filters included |
| MatrixCache.Cache.WarmUp | fragchain/coverage/matrix.py:312-322 | always recomputes and overwrites the unfiltered entry |
| MatrixCache.Cache.DropKeys | fragchain/coverage/matrix.py:324-359 | without a framework, or with an empty one, the store ends empty and all entries are counted; with a framework f a key stays iff it was there and its framework neither is f nor begins with f and a colon, and kept entries are unchanged |
| MatrixCache.MatchedKeysIff | fragchain/coverage/matrix.py:337-339 | the pattern matches a framework's keys and those of a framework whose name continues it after a colon, no others |
| MatrixCache.DroppedIs | fragchain/coverage/matrix.py:337-349 | the same of the step on values |
| QueueSupersede.AddRulesAt | fragchain/queue/supersede.py:200-220 | over all technique ids, repeated ones included, a row gains the rule at most once: exactly when its technique is listed, it is of the default framework and it lacks the rule |
| QueueSupersede.KeepsTableIff | fragchain/queue/supersede.py:200-220 | the whole action keeps the mapper's table invariant iff every row that gains the rule has a CVE and only smaller rules |
| QueueSupersede.MatrixChangesIff | fragchain/queue/supersede.py:200-220 | the whole action changes the matrix under a filter iff some row that filter selects gains the rule, and else leaves the page equal |
| QueueSupersede.StaleIff | fragchain/queue/supersede.py:200-220 | a cached page stops being current under the whole action exactly in that case, since nothing is invalidated |
| QueueSupersede.SecondTechniqueStales | fragchain/queue/supersede.py:200-220 | an action whose first technique writes nothing and whose second breaks the row invariant and makes the cached full matrix stale |
| QueueSupersede.QueueSuperseder.Apply | fragchain/queue/supersede.py:200-220 | the loop over techniques equals the fold of appends |
| ArtifactRouter.InitialDraft | fragchain/assessments/artifact_router.py:123-145 | the builder starts from the classifier's lists, a type in both staying skipped |
| ArtifactRouter.PolicyWellFormed | fragchain/assessments/artifact_router.py:183-243 | on every valid classification the policy keeps the two lists disjoint, Sigma explicit and every entry complete |
| ArtifactRouter.PlanLists | fragchain/assessments/artifact_router.py:236-253 | the sorted lists of the plan hold exactly the builder's entries, by priority and name |
| ArtifactRouter.PlanValidIff | fragchain/assessments/artifact_router.py:86-107 | the plan passes its strict validator iff the confidence it carries lies in [0, 1] |
| ArtifactRouter.SigmaPlannedIff | fragchain/assessments/artifact_router.py:183-243 | Sigma is planned iff the classifier recommended it, the class is no decline class and confidence meets the floor; a planned Sigma carries each applicable prerequisite |
| ArtifactRouter.GateAgreesWithPlan | fragchain/assessments/gating.py:26-79 | whenever the gate skips Sigma the plan skips it, the named fallback is planned unless the classifier skipped it, and the empty run is no divergence |
| ArtifactRouter.PlanAndGateAgreeIff | fragchain/assessments/gating.py:40-52 | the plan skips Sigma exactly when the gate does, iff a decline class is enabled for gating, or for any other class the classifier recommended Sigma and confidence meets the floor |
| ArtifactRouter.FloorIsNotGated | fragchain/assessments/artifact_router.py:383-394 | one way to differ: below the floor in a generating class the gate stays open and any rule is a divergence |
| ArtifactRouter.AgreesIff | fragchain/assessments/artifact_router.py:383-394 | no divergence iff rules were generated exactly when Sigma was planned, or a planned Sigma processed no gap |
| ArtifactRouter.AlphabeticalOrder | fragchain/assessments/artifact_router.py:236-243 | the order of the type names that breaks ties in the lists |
| PlanBuilding.PlanBuilder.constructor | fragchain/assessments/artifact_router.py:123-145 | building the dictionaries and reconciling, in any order of visit, gives the initial draft and traces exactly the doubly listed types |
| PlanBuilding.PlanBuilder.DemoteType | fragchain/assessments/artifact_router.py:147-155 | removes a recommendation and records a skip, with exactly one trace entry iff it removed one |
| PlanBuilding.PlanBuilder.EnsureRecommendedType | fragchain/assessments/artifact_router.py:157-172 | adds a type only if it is in neither list, with exactly one trace entry iff it did |
| PlanBuilding.PlanBuilder.AddPrerequisiteTo | fragchain/assessments/artifact_router.py:174-180 | adds a prerequisite once, to a recommended type only, with exactly one trace entry iff it did |
| RouterPlans.PolicyHolds | fragchain/assessments/artifact_router.py:183-253 | Sigma is planned iff recommended, outside the decline classes and at or above the floor; a research task below the floor, a telemetry contract when environment-dependent and the decline fallback are planned unless the classifier skipped them; any other type iff recommended and not skipped; entries are the classifier's own or, for an added type, the stated default, and a planned Sigma carries each prerequisite |
| RouterPlans.PolicyTrace | fragchain/assessments/artifact_router.py:183-243 | the adjustments recorded are exactly the policy's changes, in the order they are applied |
| PlanBuilding.RunPolicy | fragchain/assessments/artifact_router.py:183-243 | the stepwise rules on the dictionaries end in the policy's draft with that trace |
| PlanBuilding.BuildPlan | fragchain/assessments/artifact_router.py:183-253 | told from the classification alone: the plan recommends and skips exactly the right types, each once and with the right entry, carries the classifier's telemetry inputs, passes its validator iff the confidence is in range, and lists its adjustments in order |
| ChainSynthesis.BuildTtps | fragchain/assessments/chain_synthesis.py:185-238 | the loops compute the confidence of every technique from its base and weighted indicators |
| ChainSynthesis.WeightedDensity | fragchain/assessments/chain_synthesis.py:310-318 | the accumulator computes the weighted sum |
| ChainSynthesis.DensityAdds | fragchain/assessments/chain_synthesis.py:310-318 | the weighted sum of two lists of indicators is the sum of theirs |
| ChainSynthesis.ConfidenceIs | fragchain/assessments/chain_synthesis.py:185-238 | a confidence is within half a hundredth of base plus a fifth of the weighted indicators, capped at 1 |
| ChainSynthesis.MoreIndicatorsNeverLower | fragchain/assessments/chain_synthesis.py:185-238 | extra non-negative indicators in any category never lower a curated confidence and leave a fallback one alone |
| ChainSynthesis.ConfidenceInRange | fragchain/assessments/chain_synthesis.py:185-238 | every confidence is a hundredth in [0, 1] and at least its rounded base |
| ChainSynthesis.OverallWithinChain | fragchain/assessments/chain_synthesis.py:98-100 | the overall confidence lies between the least and the greatest technique confidence, for all inputs |
| ChainSynthesis.OverallIsMean | fragchain/assessments/chain_synthesis.py:98-100 | the overall confidence is within half a hundredth of the sum of the confidences over their number |
| ChainSynthesis.RoundNear | fragchain/assessments/chain_synthesis.py:98-100 | rounding gives a hundredth at most half a hundredth away |
| ChainSynthesis.FallbackIsPinned | fragchain/assessments/chain_synthesis.py:35-54 | an unmapped class gives 0.4 throughout, whatever the indicators, and passes the checks |
| ChainSynthesis.CuratedValidIff | fragchain/assessments/chain_synthesis.py:241-279 | whatever the tables hold, a curated chain passes the checks iff every row carries its own number, has well-formed ids and does not sum with its indicators to below -0.005 |
| ChainSynthesis.CuratedRange | fragchain/assessments/chain_synthesis.py:185-238 | for all inputs a curated confidence is at most 1, and negative iff base and weighted indicators sum to below -0.005 |
| ChainSynthesis.InRangeRowPasses | fragchain/assessments/chain_synthesis.py:241-279 | on non-negative tables only numbering and ids decide |
| ChainTable.ReplayKeepsInv | fragchain/db/models.py:807-819 | over any mix of both writers, failing writes included, each CVE has at most one active chain and versions 1..k |
| ChainTable.WriteActivatesItsRow | fragchain/assessments/chain_synthesis.py:92-138 | a successful write leaves its own row the one active chain of its CVE; no write touches another CVE's |
| ChainTable.SynthesisKeepsActiveIff | fragchain/assessments/chain_synthesis.py:92-101 | after a synthesis the CVE has an active chain iff the built chain passed its checks |
| ChainTable.SynthesisLosesChainIff | fragchain/assessments/loops/post_loop.py:120-127 | in terms of the tables, whatever they hold: the prior chain is lost iff the class is mapped and one of its rows is misnumbered, malformed or sums to a negative confidence |
| ChainTable.MisnumberedRowLosesChain | fragchain/db/models.py:1635-1644 | a curated table whose only row has order 2, which the schema allows, takes any CVE's active chain away |
| ChainTable.NegativeBaseLosesChain | fragchain/db/models.py:1635-1660 | so does a well-formed single row with a negative base confidence |
| ChainTable.ChainStore.SupersedePriorActive | fragchain/assessments/chain_synthesis.py:149-165 | demotes exactly the active chains of the CVE |
| ChainTable.ChainStore.SynthesizeChain | fragchain/assessments/chain_synthesis.py:67-147 | the first writer in place: supersede, version, build, check, insert |
| ChainTable.ChainStore.InsertChainRows | fragchain/chain/generator.py:1016-1087 | the second writer in place: refused by the index while an active chain exists |
| ArtifactLifecycle.StepKeepsInv | fragchain/assessments/artifact_generation.py:94-179 | begin, generate, fail, validate, approve and reject keep: active iff latest of its key, versions 1..k, only generated rows leave not_validated, audit entries linked before to after and ending at each row's status |
| ArtifactLifecycle.HistoriesKeepInv | fragchain/assessments/artifact_validation.py:171-249 | over any history a finished generation is never reopened, validation never moves back and approved or rejected is never left |
| ArtifactLifecycle.OneActivePerKey | fragchain/assessments/artifact_generation.py:118-170 | a key with rows has exactly one active row; it has the highest version and is the only one that may be generating |
| ArtifactLifecycle.ValidationFailedUnreachable | fragchain/assessments/artifact_validation.py:59-115 | no history from the empty table gives a row the status validation_failed |
| ArtifactOutcomes.DecisionRecords | fragchain/assessments/artifact_validation.py:219-249 | approve and reject: not found iff the row is missing or of another assessment than the one named; an invalid transition iff it is not generated or decided the other way; otherwise only the row's own status moves, and one audit entry is appended unless it was decided so already |
| ArtifactOutcomes.LintRecords | fragchain/assessments/artifact_validation.py:195-217 | validate: the same refusals; a decided row stays as it is, any other generated row needs review, with one audit entry unless it did already |
| ArtifactOutcomes.RequestRecords | fragchain/assessments/artifact_generation.py:94-179 | a generation request is refused iff it is for Sigma or the key is generating; else the key's rows go inactive and one active generating row stands behind all |
| ArtifactOutcomes.RequestVersion | fragchain/assessments/artifact_generation.py:94-179 | the new row's version is one more than the number of the key's rows |
| ArtifactOutcomes.WorkerRecords | fragchain/assessments/artifact_generation.py:255-331 | a worker writes a generating row only, and ends it as generated with its document or as failed |
| ArtifactOutcomes.TrailTellsChanges | fragchain/assessments/artifact_validation.py:171-194 | a validation request changes the table iff it appends to the audit trail, and the entry tells the change |
| ArtifactLifecycle.ArtifactService.BeginGeneration | fragchain/assessments/artifact_generation.py:94-179 | refuses Sigma and a busy key; otherwise deactivates the key's rows and adds the new active one |
| ArtifactLifecycle.ArtifactService.GenerateOne | fragchain/assessments/artifact_generation.py:255-331 | only a generating row is written: content, or failed |
| ArtifactLifecycle.ArtifactService.ValidateArtifact | fragchain/assessments/artifact_validation.py:195-217 | the error cases, the terminal no-op and the audited transition after the lints |
| ArtifactLifecycle.ArtifactService.Approve | fragchain/assessments/artifact_validation.py:219-233 | idempotent on approved, refused on rejected, audited otherwise |
| ArtifactLifecycle.ArtifactService.Reject | fragchain/assessments/artifact_validation.py:235-249 | idempotent on rejected, refused on approved, audited otherwise |
| FailureWindow.PrunedListSuffices | fragchain/connectors/orchestrator.py:67-87 | on a clock that does not run backwards, appending to the pruned list and pruning again gives the full failure history cut to the window |
| FailureWindow.UnhealthyIff | fragchain/connectors/orchestrator.py:266-296 | unhealthy iff some initialisation failure, or failure with threshold failures in its window, has no healthy check after it |
| FailureWindow.ConnectorEntry.Record | fragchain/connectors/orchestrator.py:79-84 | the count returned is the number of failures of the full history since the last healthy check that lie in the window |
| FailureWindow.ConnectorEntry.RecordFailure | fragchain/connectors/orchestrator.py:400-411 | list and flag keep agreeing with the full history |
| FailureWindow.ConnectorEntry.InitializeFailed | fragchain/connectors/orchestrator.py:158-178 | so they do when initialisation fails |
| FailureWindow.ConnectorEntry.RunHealthCheck | fragchain/connectors/orchestrator.py:266-296 | and for unhealthy, healthy and degraded checks |
| RetryPolicy.ErrorClasses | fragchain/llm/litellm_provider.py:508-531 | the error each outcome raises: server errors, timeouts and lost connections one class, rate limits another, authentication and other refusals their own |
| RetryPolicy.Budgets | fragchain/llm/litellm_provider.py:68-72 | three retries after a rate limit, two after a server error, one after a lost connection, none otherwise |
| RetryPolicy.SpreadDelay | fragchain/llm/litellm_provider.py:68-79 | a delay waited is the table's delay plus the draw, at least three and at most five quarters of it: the floor never matters |
| RetryPolicy.WaitsBounded | fragchain/llm/litellm_provider.py:68-79 | after n retries the waits lie within a quarter of the delays named by the tables, which sum to at most 7 seconds |
| RetryPolicy.WithRetry | fragchain/llm/litellm_provider.py:409-506 | for all outcomes and draws: at most 4 calls; the sleep is exactly the table delays of the retried outcomes plus their draws, within a quarter of the delays and at most 8.75 seconds; it stops at the first outcome without a retry left and gives the result of the one-shot path on it, TLS errors aside |
| RetryPolicy.RetryIsDeterministic | fragchain/llm/litellm_provider.py:409-506 | the stream of outcomes determines the number of calls; the first success is returned iff every earlier attempt had a retry left in its own table |
| RetryPolicy.ConnectionErrorAfterRetryIsFinal | fragchain/llm/litellm_provider.py:68-72 | since the tables share one attempt counter, a connection error after any retry is final |

## Left out

- Loop bodies, prompts, LLM, embedder and vector-search calls: arbitrary inputs (an outcome, a verdict, a list of findings).
- Duplicate concurrent deliveries inside one `execute_run`: an execution is atomic; the stale-run reaper has the effect of a crashed execution.
- The class gate and override flags passed into Loop 3, the detectability and plan rows joined on the active Loop 2 run, rule supersession and coverage dispatch hooks: no effect on the run table.
- `_calculate_priority`: a sum of independent bonuses; only the shared-gap count in it spans operations, and that is modelled.
- `predict_verdict_for_pair`, `_count_verdicts`, `_normalise_verdict` and the candidate search: pure single-branch code or external hits; the findings they produce are arbitrary inputs to the classification.
- `structured_complete` takes several samples per verify call; the cap counts verify calls, as the code does.
- VerifyFanOut.FinishedBatch: does not model an exception other than a structured-output error or timeout escaping one coroutine, which makes the gather raise.
- MatrixCache.EveryReadIsCurrent: does not model a compute racing with an invalidation, CVE, KEV or chain edits after mapping, or a Redis outage, because the code is best effort there; it takes recorded CVEs to exist and to have a chain, and the
  queue's supersede action, whose effect `QueueSupersede.StaleIff` states, not to run.
- MatrixCache.SharedKeyIff: takes the key's truncated SHA-256 digest as collision free, and framework names as free of glob characters (a colon is modelled: `MatrixCache.MatchedKeysIff`).
- MatrixCodec.RoundTrip: payload keys are an enumeration rather than texts; absent texts are "" in the model and null in JSON; values of a kind `to_dict` never writes (numbers as strings, unknown statuses) are read as a failure, where Python would coerce some of them.
- MatrixFetchOrder.FetchOrderIrrelevant: the name of a tactic outside the kill chain is the one its first fetched row gives.
- RetryPolicy.WithRetry: a random draw is any real the spread of its delay admits and sleeping is a sum; request timeouts themselves are not modelled.
- FailureWindow.PrunedListSuffices: the clock is taken not to run backwards, as the monotonic clock promises.
- Events, logging, timestamps, cost and model columns, error texts, gate result payloads, chain JSON columns and the mapping of exceptions to HTTP.
- Python objects and the ORM identity map: rows are values in a table sequence, so aliasing between a returned row and the table is not modelled.
- Access control, TLP and embargo rules, ingest, commons sync, RAG budgeting, seed scripts and the frontend.
