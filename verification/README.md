# HAZOP safeguard coverage: a verified model

The service scores how well independent safeguards protect the cause-to-consequence paths of a
HAZOP deviation scenario, stores the evaluation, and walks scenarios, safeguards and evaluations
through review. The project models its three difficult parts and proves what they promise.

**The coverage algorithm** (`Statements`, `Freezing`, `Independence`, `Protection`, `Accounting`,
`Graph`, `GraphBuilder`, `Scoring`, `ScoreProperties`, `Evaluator`, `Monotonicity`). The stages are
methods with the loops of the source, over Go's map iteration and unstable sorts as
nondeterministic choices. Each is proved against a specification function; the lemmas are about that
function: the choice of one layer per independence key is optimal, nothing is counted twice, more
safeguards never hurt, and one input has one result. `ResolutionLaws`, `ScoreLaws`, `GraphLaws` and
`ResultLaws` say what the specification functions mean, in the terms of their inputs.

**Three stored state machines under concurrency.** Evaluations (`CoverageStates`,
`EvaluationStore`, `EvaluationMachine`, `EvaluationInvariants`, `EvaluationSteps`,
`EvaluationSchedules`, `EvaluationTheorems`, `EvaluationRaces`, `EvaluationAlone`,
`EvaluationService`), scenarios (`ScenarioMachine`, `ScenarioInvariants`, `ScenarioTheorems`,
`ScenarioAlone`, `ScenarioService`) and safeguards
(`SafeguardMachine`, `SafeguardInvariants`, `SafeguardTheorems`, `SafeguardService`). Each machine
has one atomic step per repository call, any number of requests as program counters with stale
locals, and every interleaving of them; a request that is never scheduled again has crashed. The
theorems hold over every schedule. The service classes then give the operations in their own
imperative form, over repository classes that are updated in place. Before every repository call of
a request `Interleave` lets any other requests run, and `Record` notes the step taken in the
schedule, so that `Valid()` says: what the code has done is a schedule of the machine. So the
theorems about schedules are theorems about the code. (Creating a scenario or safeguard is a single
write, so one step.)

**The fixed-window rate limiter** (`RateLimiting`), a class whose eviction of old windows is proved
unobservable, with the exact condition on the clocks.

Where the code differs from its own documentation, the model follows the code:

- The service's README says that the same caller gets the existing evaluation for a repeated key.
  The code returns the row to any caller and for any scenario
  (`internal/service/coverage_evaluation_service.go:62-65`).
- The state diagram in the service's README has no step from `confirmed` to `voided`; the table and
  `Void` have one (`internal/constants/coverage_state.go:14-21`).
- The service's README calls state changes transactional; each is a separate conditional update
  after a separate read (`internal/service/deviation_scenario_service.go:134-174`).
- The service's README says that restoring brings back the effective state; run alone, it always
  gives `pending` (`SafeguardTheorems.RestoreAlone`).

Five properties that one might expect are false of the code. Each has a lemma that shows how it
fails and one that says exactly when it holds:

- an update is never lost: `FutureVersionLosesUpdate`, `NoLostUpdate`;
- a confirm audit shows a confirmed row: `ConfirmAuditMayShowVoided`, `ConfirmAuditShowsConfirmed`;
- a completed row is never marked as not reproduced: `CompletedRowMayBeMarkedFailed`,
  `MarkedFailedExactly`;
- an invalidated safeguard stays out until it is verified: `RestoreRace`, `RevivalNeedsArmedRestore`;
- a score of 50 means covered: `FiftyIsNotAlwaysCovered`, `ScoreAtThreshold`.

What the model takes as given: distinct primary keys; a JSON encoder that may fail, and a decoder that
inverts it where it does not (the hash is any function; `NumberedSnapshotsHaveACodec` shows that this
can be met); any upper- and lower-casing functions; `float64` as exact reals, with
`round4` as rounding half away from zero; times as nanoseconds in UTC with days of 86400 seconds;
requests that have passed their binding rules and normalisation; and store calls that do not fail.

## Model

| member | source | states |
|---|---|---|
| `Statements.SplitStatements` | internal/algorithm/graph.go:147-169 | the loop with its `seen` set returns exactly the statements of the specification `Split`, about which the next eight rows speak |
| `Statements.SplitWellFormed` | internal/algorithm/graph.go:151-168 | for every text the result is non-empty, and each statement is non-blank, trimmed, free of the four separators and not repeated up to case |
| `Statements.SplitInOrder` | internal/algorithm/graph.go:148-164 | statement i is the first field that says it, positions increase, and no non-blank field is missing from the result |
| `Statements.SplitOfBlank` | internal/algorithm/graph.go:165-167 | a text of separators and blanks splits into the single statement `unspecified` |
| `Statements.FieldsPart` | internal/algorithm/graph.go:148-150 | each of the four separators parts the fields before it from those after it, for every text |
| `Statements.FieldAlone` | internal/algorithm/graph.go:148-150 | a text with none of the four separators is one field, or none if it is empty; with the row before this determines the fields of every text |
| `Statements.TrimSpaceCuts` | internal/algorithm/graph.go:154 | trimming cuts all blanks off both ends and nothing else |
| `Statements.SplitJoin` | internal/algorithm/graph.go:147-169 | joining any well-formed statements with any of the four separators and splitting again is the identity |
| `Statements.SplitRoundTrip` | internal/algorithm/graph.go:147-169 | so splitting its own joined output again changes nothing, for every input text and separator |
| `Freezing.NewSnapshot` | internal/algorithm/graph.go:71-107 | whatever the unstable sort does, distinct ids leave one possible snapshot, and its safeguard ids are distinct |
| `Freezing.SnapshotIgnoresListing` | internal/algorithm/graph.go:72-78 | every permutation of the stored safeguards freezes to the same snapshot |
| `Freezing.SnapshotMembers` | internal/algorithm/graph.go:93-105 | the snapshot holds exactly the frozen images of the stored safeguards |
| `Freezing.SnapshotCopies` | internal/algorithm/graph.go:79-92 | field by field, what a snapshot takes over of node and scenario, with the reference time cut to the whole second |
| `Freezing.FreezeCopies` | internal/algorithm/graph.go:93-104 | field by field, what it takes over of a safeguard, with the evidence time cut to the whole second |
| `Freezing.SnapshotOrder` | internal/algorithm/graph.go:73-78 | its safeguards stand in the dictionary order of their raw keys, lower ids first |
| `Freezing.EffectiveExactly` | internal/model/safeguard.go:24-38 | a stored safeguard is effective at t exactly when active, of positive effectiveness, with evidence and an interval of at least a day that has not run out at t |
| `Freezing.FreezingIsOneSided` | internal/model/safeguard.go:24-38 | a safeguard that IsEffectiveAt accepts at t is eligible in the snapshot taken at t; an eligible one is active, of positive effectiveness and expired less than one second before t, if at all |
| `Independence.ResolveIndependence` | internal/algorithm/independence.go:18-60 | grouping over a map, any order of its keys and both unstable sorts give the one resolution of the specification, which the rows up to EveryGroupIsReported characterise |
| `ResolutionLaws.EligibleExactly` | internal/algorithm/independence.go:22-77 | a safeguard counts exactly when its folded key is not blank, it is active, its effectiveness is in (0, 1] and its evidence has not run out |
| `ResolutionLaws.FirstReason` | internal/algorithm/independence.go:23-78 | a rejected one gets the first reason that applies, in the order of the checks |
| `ResolutionLaws.CompeteExactly` | internal/algorithm/independence.go:22-31 | two safeguards compete exactly when their keys agree after trimming and upper-casing |
| `ResolutionLaws.StrongestThenLowestId` | internal/algorithm/independence.go:38-46 | for every eligible safeguard exactly one of its key is retained: of the highest effectiveness, and of equals the lowest id |
| `ResolutionLaws.IgnoredAreRanked` | internal/algorithm/independence.go:40-56 | a record lists all eligible safeguards of its key by falling effectiveness, equals by rising id, the first as kept and the others as ignored |
| `ResolutionLaws.RecordsInKeyOrder` | internal/algorithm/independence.go:33-57 | the records come in the dictionary order of their keys |
| `ResolutionLaws.RejectedExactly` | internal/algorithm/independence.go:23-30 | exactly the other safeguards are rejected, each with its reason, in ascending id order |
| `Protection.RetainedIsSelection` | internal/algorithm/independence.go:38-46 | the retained layers are eligible members of the input, at most one per normalised key, with effectiveness in (0, 1] |
| `Protection.CombinedProtection` | internal/algorithm/scoring.go:25-32 | combined protection is 0 of no layer, its effectiveness of one, and p + q - p q of two lists of layers; this determines it |
| `Protection.GreedyChoiceIsOptimal` | internal/algorithm/independence.go:40-46 | no selection of eligible safeguards with at most one per normalised key combines to more than the retained ones |
| `Protection.EligibilityMonotone` | internal/algorithm/independence.go:27-46 | an input in which more safeguards are eligible never resolves to less combined protection |
| `Accounting.EachSafeguardCountedOnce` | internal/algorithm/independence.go:21-59 | retained, ignored and rejected ids together are the input ids, each as often as it came in |
| `Accounting.ResolvingAgainChangesNothing` | internal/algorithm/independence.go:18-60 | resolving the retained layers again retains all of them, in order, and rejects and ignores none |
| `Accounting.RetainedAreWinners` | internal/algorithm/independence.go:37-46 | the retained layers stand in the dictionary order of their normalised keys, and each has the highest effectiveness of its key and, among equals, the lowest id |
| `Accounting.ReportIsTruthful` | internal/algorithm/independence.go:47-56 | every deduplication record names the winner of its key as kept and only other eligible safeguards of the same key as ignored |
| `Accounting.EveryGroupIsReported` | internal/algorithm/independence.go:47-56 | every key with at least two eligible safeguards has a record, whose kept and ignored ids are together the ids of the whole group |
| `GraphBuilder.BuildGraph` | internal/algorithm/graph.go:108-146 | the growing slices and the running path index draw the picture of the snapshot: its node, the statements of its cause text and of its consequence text and its safeguards under their printed ids, causes leading to the node, the node to the consequences, every safeguard mitigating every consequence, and the pairs of a cause and a consequence as paths, row by row |
| `GraphLaws.GraphDepicts` | internal/algorithm/graph.go:108-146 | the specified graph is that picture, for every snapshot |
| `GraphLaws.PrintedInDigits` | internal/algorithm/graph.go:116-139 | numbers are printed in decimal digits with leading zeros only up to the width |
| `Graph.PathAt` | internal/algorithm/graph.go:135-144 | there are |causes|·|consequences| paths, and pair (i, j) is path number i·|consequences| + j + 1 |
| `Graph.PrintedNumbersDiffer` | internal/algorithm/graph.go:116-139 | different numbers print differently with and without zero padding, past 99 and 999 as well |
| `Graph.PathIdsDistinct` | internal/algorithm/graph.go:139 | the printed path ids are pairwise distinct |
| `Graph.NodeIdsDistinct` | internal/algorithm/graph.go:112-127 | for distinct safeguard ids all printed node ids, of all four kinds, are pairwise distinct |
| `Graph.EdgesWellFormed` | internal/algorithm/graph.go:115-134 | every edge joins declared nodes, and there are |causes| + |consequences| + |safeguards|·|consequences| of them |
| `Graph.PathsAreWalks` | internal/algorithm/graph.go:118-144 | each path names its cause and consequence, and the edges cause → process node → consequence exist |
| `Scoring.CalculateScore` | internal/algorithm/scoring.go:17-89 | the loops over the sorted layers, rejections and paths give the score of the specification, whatever the sort does; the rows up to UncoveredAreThose say what it is |
| `ScoreLaws.ScoreIsProtection` | internal/algorithm/scoring.go:74 | the score is the combined protection of the layers in per cent, to the nearest fourth decimal |
| `ScoreLaws.ScoreOfFew` | internal/algorithm/scoring.go:29-32 | no layer scores 0, one of e scores 100 e, two of e and f score 100 (e + f - e f), to four decimals |
| `ScoreLaws.ScoreOrderIs` | internal/algorithm/scoring.go:18-24 | layers are scored in the dictionary order of their raw keys, lower ids first |
| `ScoreLaws.TraceOfLayer` | internal/algorithm/scoring.go:29-40 | step i names layer i, what it adds to the protection of those before it and what is reached with it |
| `ScoreLaws.TraceOfTheRest` | internal/algorithm/scoring.go:41-47 | the steps after them name the rejections with their reasons and add nothing |
| `ScoreLaws.LastStep` | internal/algorithm/scoring.go:75-88 | the last step gives the initial and the residual index, which give the ranks before and after |
| `ScoreLaws.ResidualIsLeast` | internal/algorithm/scoring.go:76-79 | the residual is the least index of at least 1 that is not below initial (1 - protection) |
| `ScoreLaws.RanksOfTheMatrix` | internal/dto/deviation_scenario.go:107-118 | which products of likelihood and severity give which rank |
| `ScoreLaws.PathsOfScore` | internal/algorithm/scoring.go:48-67 | path i of the result is path i of the graph with the ids and raw keys of all layers, the rounded protection and the verdict |
| `ScoreLaws.UncoveredAreThose` | internal/algorithm/scoring.go:68-73 | the uncovered paths are those with a negative verdict, in the order of the paths |
| `ScoreProperties.TraceIsNumbered` | internal/algorithm/scoring.go:28-46 | the steps are numbered 1 to |retained| + |rejected| + 1, and the last running score is the coverage score |
| `ScoreProperties.RunningScoresNeverDecrease` | internal/algorithm/scoring.go:29-47 | running scores never decrease along the trace |
| `ScoreProperties.ContributionsExplainScore` | internal/algorithm/scoring.go:36-90 | the rounded contributions of n layers add up to the score/100 within (100n + 1)/2000000 |
| `ScoreProperties.VerdictIsUniform` | internal/algorithm/scoring.go:55-73 | every path has the same verdict, so the uncovered paths are all paths or none, and none exactly when protection reaches 0.5 |
| `ScoreProperties.ScoreAtThreshold` | internal/algorithm/scoring.go:55-74 | covered implies a score of at least 50, a score above 50 implies covered, and the score prints as 50 or more exactly from protection 0.4999995 on |
| `ScoreProperties.FiftyIsNotAlwaysCovered` | internal/algorithm/scoring.go:55-74 | a single layer of 0.4999996 prints a score of exactly 50 and is not covered |
| `ScoreProperties.ResidualBounds` | internal/algorithm/scoring.go:75-79 | the residual index lies between 1 and the initial risk |
| `ScoreProperties.CoveredIsNeverCritical` | internal/dto/deviation_scenario.go:107-118 | covered on the 5 × 5 matrix leaves at most 13, which never ranks critical |
| `ScoreProperties.RiskAfterIsBounded` | internal/algorithm/scoring.go:75-88 | for likelihood and severity in 1..5 the rank after is never worse than before, and never critical when covered |
| `Evaluator.EvaluateSnapshot` | internal/algorithm/evaluator.go:22-62 | running the imperative stages in order gives the evaluation of the specification, with its four error cases |
| `ResultLaws.ResultMeans` | internal/algorithm/evaluator.go:36-61 | every result carries the text and hash of its snapshot, the resolution of its safeguards, and the score, trace, verdicts, uncovered paths and ranks of the retained layers on the paths of its graph |
| `ResultLaws.EvaluationFailsExactly` | internal/algorithm/evaluator.go:23-35 | which snapshots fail with which error, the first that applies |
| `ResultLaws.ReplayMeans` | internal/algorithm/evaluator.go:63-77 | a text that does not match its hash or does not decode is refused; of the others exactly those pass whose snapshot evaluates to the expected hash and score |
| `Evaluator.FreezeAndEvaluate` | internal/algorithm/evaluator.go:22-62 | freezing and evaluating stored safeguards has exactly one result, for all nondeterminism of the stages |
| `Evaluator.EvaluationIgnoresListing` | internal/algorithm/evaluator.go:22-62 | the same safeguards in another order give the same text, hash, score, trace and report |
| `Evaluator.ReplayReproduces` | internal/algorithm/evaluator.go:63-77 | a result always replays as passed from its own text, hash and score, and an encodable snapshot that does not evaluate fails again with its own error |
| `Evaluator.PersistedInputEvaluates` | internal/algorithm/evaluator.go:23-35 | evaluating a fresh snapshot succeeds exactly when node and scenario are stored, the time is past the first second of year 1 and the snapshot can be encoded |
| `Evaluator.NumberedSnapshotsHaveACodec` | internal/algorithm/evaluator.go:32-35 | what is assumed of encoding and decoding can be met: by some codec for every set of snapshots that can be numbered |
| `Monotonicity.AddingASafeguardNeverHurts` | internal/algorithm/scoring.go:29-79 | in the two evaluation results, one more safeguard never lowers the score or raises the residual index or rank, and every path that was covered stays covered |
| `Monotonicity.WaitingNeverHelps` | internal/algorithm/independence.go:74-77 | in the two evaluation results, the same safeguards evaluated later never score higher, leave less risk or cover a path they did not cover before |
| `CoverageStates.HistoryShape` | internal/constants/coverage_state.go:14-21 | a history that follows the table has at most five states: queued, running, then completed or failed, then confirmed or voided, and voided is final |
| `EvaluationStore.CoverageEvaluationRepository.Create` | internal/repository/coverage_evaluation_repository.go:47-52 | inserts under a new id unless the unique index holds the key, and then changes nothing |
| `EvaluationStore.CoverageEvaluationRepository.Transition` | internal/repository/coverage_evaluation_repository.go:90-109 | one compare-and-set on the state: reports whether it matched, and changes this row only if it did |
| `EvaluationStore.CoverageEvaluationRepository.Complete` | internal/repository/coverage_evaluation_repository.go:110-123 | stores the results and `completed` only over the expected state |
| `EvaluationStore.CoverageEvaluationRepository.SetReplayResult` | internal/repository/coverage_evaluation_repository.go:124-134 | stores the verdict whatever the state |
| `EvaluationSteps.NextKeeps` | internal/service/coverage_evaluation_service.go:49-303 | every repository call of every request keeps the invariant that ties rows, key index, owners, histories, requests and audits |
| `EvaluationSteps.JudgeRow` | internal/service/coverage_evaluation_service.go:282-285 | replaying a row that has completed always passes; before that it passes exactly when its input scores 0, and errs exactly when its input does not evaluate |
| `EvaluationTheorems.RealEnvIsValid` | internal/algorithm/evaluator.go:56-77 | the evaluator and replay of the algorithm modules meet all that the machine assumes of them |
| `EvaluationTheorems.RunNeverConflicts` | internal/service/coverage_evaluation_service.go:100-149 | over every interleaving no Run reaches a conflict branch or the fall-through after a unique violation, and a finished one leaves its row completed or failed, or reviewed since; a completed one names its actor and scenario and has an audit record |
| `EvaluationTheorems.OnlyTheCreatorMoves` | internal/service/coverage_evaluation_service.go:109-149 | no step of another request changes the state of a queued or running row |
| `EvaluationTheorems.CrashedRowStays` | internal/service/coverage_evaluation_service.go:250-260 | so once its creating Run has stopped, no run of other requests ever moves the row, not even to void it |
| `EvaluationTheorems.SameKeySameRow` | internal/service/coverage_evaluation_service.go:55-65 | all successful Runs with equal trimmed keys return the same id, at most one of them as its creator |
| `EvaluationTheorems.InputIsFrozen` | internal/service/coverage_evaluation_service.go:85-99 | over every run the text, hash, scenario and key of a row never change, although Complete writes the text again |
| `EvaluationTheorems.ResultsAreThoseOfTheInput` | internal/service/coverage_evaluation_service.go:123-143 | column by column, the results of every row that ever completed are those of evaluating its own decoded snapshot; other rows have none, and exactly failed rows give the error as reason |
| `EvaluationTheorems.StoredResultMeans` | internal/algorithm/evaluator.go:56-61 | with the real evaluator, the stored score is the combined protection of the layers retained from the stored snapshot, to four decimals of a per cent |
| `EvaluationTheorems.ReplayOfCompletedPasses` | internal/service/coverage_evaluation_service.go:270-303 | a Replay that has read a completed row always passes, whatever runs in between, and every verdict has an audit record |
| `EvaluationRaces.ReplayOfRunningRowFails` | internal/service/coverage_evaluation_service.go:282-286 | in every state of a run with a running row whose input does not score 0, a Replay that runs next stores a failed verdict on it |
| `EvaluationRaces.CompletedRowMayBeMarkedFailed` | internal/repository/coverage_evaluation_repository.go:124-134 | whenever a Run is about to store a score other than 0 there is a schedule that leaves its row completed and marked as not reproduced |
| `EvaluationRaces.MarkedFailedExactly` | internal/service/coverage_evaluation_service.go:282-288 | in every run a row is marked as not reproduced if and only if its last stored verdict was formed before it had completed and its input does not score 0 |
| `EvaluationTheorems.TableIsRefined` | internal/constants/coverage_state.go:14-36 | the states committed to a row form a path of the table from queued, with at most four writes |
| `EvaluationTheorems.ConfirmerIsNotAuthor` | internal/service/coverage_evaluation_service.go:211-222 | a row has a confirmer exactly when it was confirmed, and it is never the author of the scenario, in later states either |
| `EvaluationAlone.ConfirmAlone` | internal/service/coverage_evaluation_service.go:199-237 | a Confirm that runs alone succeeds exactly on a completed row whose scenario has another author, changes only state and confirmer, and logs the rows before and after |
| `EvaluationAlone.VoidAlone` | internal/service/coverage_evaluation_service.go:238-269 | a Void that runs alone succeeds exactly on a completed, failed or confirmed row, changes only the state, and logs both rows |
| `EvaluationTheorems.AuditsFollowHistory` | internal/service/coverage_evaluation_service.go:204-235 | each review audit shows two states of the row's own history, with the acted edge in between, despite stale reads; the row after a confirmation names its actor as confirmer and is confirmed exactly when nothing was committed between update and re-read |
| `EvaluationRaces.ConfirmAuditShowsConfirmed` | internal/service/coverage_evaluation_service.go:219-235 | for all schedules between its calls, a Confirm logs a confirmed row if and only if no Void of that row is committed between its update and its re-read, and a voided row otherwise |
| `EvaluationRaces.ConfirmAuditMayShowVoided` | internal/service/coverage_evaluation_service.go:229-235 | from any completed row there is a schedule whose confirm audit shows a voided row |
| `EvaluationService.CoverageEvaluationService.Run` | internal/service/coverage_evaluation_service.go:49-171 | the code itself, with any other requests between its calls, is a schedule of the machine; which outcomes it can have and why, and the state of the row it returns |
| `EvaluationService.CoverageEvaluationService.Confirm` | internal/service/coverage_evaluation_service.go:199-237 | likewise; success returns a confirmed or since voided row with its actor as confirmer and records a truthful audit |
| `EvaluationService.CoverageEvaluationService.Void` | internal/service/coverage_evaluation_service.go:238-269 | likewise; success returns a voided row and records a truthful audit |
| `EvaluationService.CoverageEvaluationService.Replay` | internal/service/coverage_evaluation_service.go:270-303 | likewise; it reproduces the stored result whenever the row it read had completed |
| `ScenarioInvariants.NextKeeps` | internal/service/deviation_scenario_service.go:38-245 | every read and every compare-and-set of any number of requests keeps the chain of committed rows, and only extends it |
| `ScenarioTheorems.VersionsFormAChain` | internal/repository/deviation_scenario_repository.go:80-118 | the committed rows are versions 1, 2, 3, …, the stored row is the last, the author is fixed, and each step is an edit of a draft or rework row or one of the six moves, by an admitted role and for reviews not by the author, from the state stored at commit time |
| `ScenarioTheorems.AcceptedIsFinal` | internal/constants/scenario_state.go:13-19 | over every run no version follows an accepted one |
| `ScenarioAlone.TransitionAlone` | internal/service/deviation_scenario_service.go:180-245 | the exact verdict on a Transition that runs alone, by role, the six moves, author and version in this order, and the row and audit record a success leaves |
| `ScenarioAlone.UpdateAlone` | internal/service/deviation_scenario_service.go:127-179 | the exact verdict on an Update that runs alone, by state, guideword and version, and field by field the row it leaves |
| `ScenarioTheorems.HistoryOnlyGrows` | internal/repository/deviation_scenario_repository.go:80-118 | committed versions are never rewritten, so a row is a function of its version |
| `ScenarioTheorems.SuccessIsACommit` | internal/service/deviation_scenario_service.go:160-174 | a request that reports success has itself committed the next version, with its own patch or move, and has an audit record |
| `ScenarioTheorems.OneWinnerPerVersion` | internal/repository/deviation_scenario_repository.go:80-118 | of all requests for one version of a scenario at most one succeeds |
| `ScenarioTheorems.NoLostUpdate` | internal/service/deviation_scenario_service.go:134-174 | if the requested version was stored when the service read, or the patch sets every field, the commit is exactly the patch applied to that version |
| `ScenarioTheorems.FutureVersionLosesUpdate` | internal/service/deviation_scenario_service.go:134-167 | otherwise, for every patch, a schedule of admissible updates exists in which the request succeeds over a version it never saw and undoes them |
| `ScenarioTheorems.AuditShowsCommit` | internal/service/deviation_scenario_service.go:171-174 | an audit record belongs to a commit of its request and, under the same condition, shows the rows before and after it |
| `ScenarioTheorems.AcceptedIsWhatWasAnalyzed` | internal/service/deviation_scenario_service.go:193-226 | an accepted scenario shows the content of its last analysis by an engineer or admin; its verification and acceptance were by reviewers or admins other than the author |
| `ScenarioService.DeviationScenarioRepository.UpdateWithVersion` | internal/repository/deviation_scenario_repository.go:80-93 | writes the content and version only over the expected version of a draft or rework row |
| `ScenarioService.DeviationScenarioRepository.Transition` | internal/repository/deviation_scenario_repository.go:94-119 | moves the row only over the expected state and version, and sets the reviewer only when one is given |
| `ScenarioService.DeviationScenarioService.Create` | internal/service/deviation_scenario_service.go:38-74 | a supported guideword on an active node, and nothing else, creates version 1 of a draft by its author |
| `ScenarioService.DeviationScenarioService.Update` | internal/service/deviation_scenario_service.go:127-179 | the code itself is a schedule of the machine; success means its own patch became the next version and no other request got it |
| `ScenarioService.DeviationScenarioService.Transition` | internal/service/deviation_scenario_service.go:180-245 | likewise for its move; a role that may not make the move never gets past the checks |
| `SafeguardInvariants.NextKeeps` | internal/service/safeguard_service.go:39-262 | every step of any number of interleaved requests keeps all rows sound and never withdraws evidence |
| `SafeguardTheorems.OnlyThreeReasons` | internal/algorithm/independence.go:61-79 | in every run active and expired safeguards carry attributed evidence not more than five minutes ahead, interval ≥ 1 and effectiveness in (0, 1]; an evaluation rejects a stored safeguard only for a blank key, its lifecycle or its expiry |
| `SafeguardTheorems.LifecycleEdges` | internal/repository/safeguard_repository.go:78-112 | which lifecycle change each operation can commit, from which state, and that only Verify changes the evidence |
| `SafeguardTheorems.InvalidStaysIneligible` | internal/service/safeguard_service.go:203-252 | after an invalidation, with no Restore in flight that has read an effective row, the safeguard is ineligible for every evaluation over every run without a committed verification |
| `SafeguardTheorems.RevivalNeedsArmedRestore` | internal/service/safeguard_service.go:211-252 | an invalid safeguard can become active without a verification if and only if such a Restore is in flight |
| `SafeguardTheorems.OneAtATime` | internal/service/safeguard_service.go:203-252 | requests that run one at a time finish and never leave such a Restore behind |
| `SafeguardTheorems.UpdateAlone` | internal/service/safeguard_service.go:108-161 | field by field the row an Update that runs alone leaves; what it leaves active is effective at that moment, under the new interval |
| `SafeguardTheorems.VerifyAlone` | internal/service/safeguard_service.go:162-202 | a Verify that runs alone succeeds exactly on evidence at most five minutes ahead and not run out, records it with note and verifier and leaves the safeguard effective |
| `SafeguardTheorems.InvalidateAlone` | internal/service/safeguard_service.go:203-210 | an Invalidate that runs alone succeeds exactly on a safeguard that is not invalid yet, and notes the reason |
| `SafeguardTheorems.RestoreAlone` | internal/service/safeguard_service.go:211-229 | a Restore that runs alone succeeds exactly on an invalid safeguard, notes the reason and always leaves it pending |
| `SafeguardTheorems.RestoreRace` | internal/service/safeguard_service.go:217-252 | interleaved with an Invalidate it can leave the safeguard active and effective, both reporting success |
| `SafeguardService.SafeguardRepository.Update` | internal/repository/safeguard_repository.go:78-92 | writes every editable column and never the lifecycle or its evidence |
| `SafeguardService.SafeguardRepository.SetLifecycle` | internal/repository/safeguard_repository.go:93-112 | one guarded change of lifecycle and evidence columns |
| `SafeguardService.SafeguardLifecycleService.Create` | internal/service/safeguard_service.go:39-82 | accepts exactly an existing scenario and evidence at most five minutes ahead; the new row is active exactly when effective, pending exactly without evidence |
| `SafeguardService.SafeguardLifecycleService.Update` | internal/service/safeguard_service.go:108-161 | the code itself, with any other requests between its calls, is a schedule of the machine |
| `SafeguardService.SafeguardLifecycleService.Verify` | internal/service/safeguard_service.go:162-202 | likewise; the branch for a concurrent change is never taken, and success leaves evidence |
| `SafeguardService.SafeguardLifecycleService.Invalidate` | internal/service/safeguard_service.go:203-210 | likewise, for the shared lifecycle change |
| `SafeguardService.SafeguardLifecycleService.Restore` | internal/service/safeguard_service.go:211-229 | likewise, with the target chosen on the first of its two reads |
| `RateLimiting.RateLimiter.Middleware` | internal/middleware/auth.go:105-136 | serves a request under its scope and user or address, and tells a refused one in how many whole seconds its window ends |
| `RateLimiting.RateLimiter.Admit` | internal/middleware/auth.go:111-128 | one locked decision: the windows after it, the decision, and that it is the one of a limiter that never deletes |
| `RateLimiting.RateLimiter.Prune` | internal/middleware/auth.go:119-125 | deletes exactly the windows older than two minutes, in any order of the map |
| `RateLimiting.WindowsAreFixed` | internal/middleware/auth.go:113-118 | each window is opened by a call when no earlier one is open, serves the calls of the next minute and counts exactly these |
| `RateLimiting.NothingLostBelowTenThousand` | internal/middleware/auth.go:119 | as long as there are at most 10000 keys, nothing is deleted |
| `RateLimiting.OldWindowsGoAboveTenThousand` | internal/middleware/auth.go:119-125 | with more keys, exactly the windows of the last two minutes are kept, unchanged |
| `RateLimiting.EvictionIsInvisible` | internal/middleware/auth.go:113-128 | over every run in which no later clock reading is more than a minute behind an earlier one, every decision equals that of a limiter without eviction |
| `RateLimiting.LargerJumpsAreVisible` | internal/middleware/auth.go:114-123 | for every two readings that jump back further, every key and every limit there is a run of calls, orderly up to the last, whose last decision eviction changes |
| `RateLimiting.TwiceTheLimit` | internal/middleware/auth.go:114-126 | with clocks that never go back, no half-open minute admits more than twice the limit for one key |
| `RateLimiting.RefusalIsEarned` | internal/middleware/auth.go:114-126 | a key is refused only if it made at least the limit of other requests within the minute before |

## Left out

- SafeguardService.SafeguardLifecycleService.Verify: the re-read after the write and the audit record are not modelled, here and in the other safeguard operations.
- SafeguardService.SafeguardLifecycleService.Update: says which schedule it is and that every row stays sound; what a single Update leaves behind is stated for an Update that runs alone, because between its calls others may write the same row.
- IEEE 754 rounding of float64, time zones and daylight saving in AddDate.
- The text of reasons, summaries and explanations, except the printed graph ids; `countCovered` and the run audit's summary.
- SHA-256 and JSON, beyond decoding being the inverse of encoding; the rows that a Run finds in the scenario, node and safeguard tables are arguments, since those tables belong to the other machines.
- Database errors; an operation that stops half-way is modelled as a crash between two calls.
- Durations, created and updated timestamps, display names and request ids.
- Get, List and Compare of all entities, filters, pagination and the audit timeline of a scenario, which only read.
- Create audits of scenarios and safeguards, and the audit record of a completed Run beyond its input hash.
- The process node service, which is unversioned create and update.
- HTTP handlers, routing, JWT, passwords, permissions by role outside the scenario service, configuration and startup.
- The frontend, whose risk levels use other thresholds than the backend.
