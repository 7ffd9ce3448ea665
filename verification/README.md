# Verified model of the exam-grading server

This project models the parts of the exam-grading server where branching, state or exact arithmetic
decides grades, and proves what they promise. It is written in Dafny 4.11;
`dafny verify dfyconfig.toml` checks all of it.

## What is modelled

- **Regrade turn tokens** (`Regrade*.dfy`, `ResultMail.dfy`, `Token.dfy`). Students reply to grade
  emails with single-use `(item, turn)` tokens. `RegradeChain` is a transition system over published
  items, minted tokens, request rows and emails, with the webhook, send-result and resend-result
  handlers cut at every store and provider call, so that any number of them interleave, stop half
  way (`Drop`) or lose a race. `RegradeServer` holds the handlers themselves, as methods of a class
  whose fields are the rows; each is proved to be a run of that system, and so to keep everything
  proved about its runs.
- **Grading runs** (`GradingRun*.dfy`). Items, queue deliveries, records, run status and the
  spot-check sample, under duplicates, crashes, timeouts, a shutdown drain, last attempts, cancel,
  retry-failed and a cost cap. `GradingRun` is the transition system and `GradingRunner.Runner` the
  executor, proved to be runs of it.
- **Scores and consensus** (`Numerals`, `Decimals`, `Score`, `MeanRendering`, `Consensus`,
  `ConsensusLaws`, `ConsensusMeans`, `Aggregation`). Rationals are `real`; decimal strings are
  parsed and printed as
  the source does, with six decimals, trailing zeros removed and the sign of a tiny negative kept.
- **Stratified samples** (`Sampling`, `SamplingLaws`, `SamplingShuffle`, over `Ordering` and `Seqs`).
- **Export archives** (`Export`, `ExportLaws`, `ExportNames`, `ExportContents`, `Slug`, over `Strings`). An archive is
  its list of named entries.
- **Rubrics and totals** (`Grading`, `GradingLaws`, `GradeBook`). Points, increments and totals are
  stored in columns with two decimals, which round.

Where a comment of the source claims more than the code keeps, the code is modelled as it is, a
concrete input or schedule shows the failure, and what the claim rests on is proved; a name ending
in `Iff` says exactly when it holds:

| claim | where it fails | when it holds |
|---|---|---|
| majority values are already legal (`internal/grading/aggregate.go:170`) | `Score.LegalMaximumMoves` | `ConsensusLaws.LegalIsFixedIff` |
| six decimals are far beyond the column (`internal/grading/score.go:95`) | `MeanRendering.RenderingBreaks` | `MeanRendering.RenderingSafeIff` |
| the sampling loop cannot run out (`internal/grading/spotcheck.go:113`) | `SamplingLaws.SixLeavesNoSample` | `SamplingLaws.SampleSizeIff` |
| the final-turn race has one winner (`internal/httpapi/regrade.go:315-326`) | `RegradeRaces.InterleavedFilingsHandOffTwice` | `RegradeRecovery.OneHandoffIff` |
| an undelivered result can be resent (`internal/httpapi/regrade.go:1208-1211`) | `RegradeRaces.LateAddWedges` | `RegradeRecovery.RecoverableIff` |
| replies to a final result go to the teaching assistant (`internal/email/template_v2.go:133-134`) | `ResultMail.RepublishedFinalReopens` | `ResultMail.FinalReplyHandsOffIff` |
| no run is wedged in `running` (`internal/httpapi/runs.go:791-795`) | `GradingRunRaces.SplitPrologueWedges` | `GradingRunLive.NeverBehindIff` |
| an interrupted last attempt is recoverable (`internal/grading/runner.go:313-319`) | `GradingRunRaces.HiddenShutdownWedges`, `GradingRunRaces.LastCrashWedges` | `GradingRunLive.StepAttendedIff` |
| the first sample is canonical (`internal/grading/runner.go:391-397`) | `GradingRunRaces.OverlappingSamplesReopen` | `GradingRunSample.SampleKeptIff`, `GradingRunSample.SampleIsFinalIff` |
| completing a run creates its sample, best effort (`internal/grading/runner.go:361-370`) | `GradingRunRaces.CrashLosesSample` | `GradingRunOwed.AlwaysOwedIff` |
| the sample is what the sampling selected (`internal/store/spotcheck.go:17-21`) | `GradingRunRaces.CutSampleOpensGate` | `GradingRunDraw.WholeSampleIff` |
| criterion points sum to the maximum (`internal/httpapi/rubrics.go:152-156`) | `GradingLaws.HalfCentsAddUp` | `GradingLaws.RubricSumsIff` |
| so a total is within the maximum (`internal/httpapi/rubrics.go:152-156`) | `GradingLaws.TotalOverMaximum` | `GradingLaws.TotalWithinIff` |
| names in an archive do not collide (`internal/export/export.go:552-558`) | `ExportNames.PageIdsClash` | `ExportNames.ExamNamesDistinctIff` |

What the store, the queue and the e-mail provider do is taken from their queries and comments:
`message_id` is unique when not empty, `(item, turn)` is unique among filed rows, a transaction is
one step, `MarkItemRunning` is unconditional, and a model record is unique for a run, answer and
model. A delivery that crashes, or stops at a store call that fails, has used up its attempt: it
comes again while attempts remain and is discarded after the last one
(`internal/queue/river.go:257-261`). A delivery cut off by a shutdown that its error shows comes
again with its attempt given back (`internal/queue/river.go:292-295`).

## Model

| member | source | states |
|---|---|---|
| RegradeSlots.TurnsAreContiguous | internal/httpapi/regrade.go:130-397 | in every reachable state the consumed turns of an item are exactly 1..k with k at most MAX+1, its tokens go no further than turn k+1 and MAX+1, a handoff exists only when k is MAX+1, and filed turns are within the budget |
| RegradeSlots.TopTurnIsGreatest | internal/store/queries/regrade.sql:49-60 | the turn NextOpenTurn builds on is consumed and no consumed turn is greater |
| RegradeSlots.ChainedStep | internal/httpapi/regrade.go:130-397 | every step of every handler keeps the chain in order and only appends rows |
| RegradeSlots.NextTurnOk | internal/httpapi/regrade.go:194-222 | the turn a superseded token is re-bound to is consumed already or comes right after the consumed ones, within MAX+1 |
| RegradeOnce.StepEvolves | internal/store/queries/regrade.sql:223-242 | whatever step runs, no resolved status reopens, no verdict or delivery mark is withdrawn, and a new row breaks no unique index |
| RegradeOnce.FiledOnceConfirmedOnce | internal/httpapi/regrade.go:347-397 | over every run each slot is filed at most once and confirmed at most once, a consuming row has at least one problem, and message ids are not repeated |
| RegradeOnce.ResultSentOnce | internal/httpapi/regrade.go:1169-1225 | over every run a request's first result email is attempted at most once and only once it is resolved, every result email lists problems of its request that all have a verdict, and a delivery mark means a delivery |
| RegradeRecovery.ReplayIsInert | internal/httpapi/regrade.go:138-157 | a delivery whose message id is on record changes no row and sends no email at any of its steps, whatever runs in between |
| RegradeRecovery.ReplayLeavesNothing | internal/httpapi/regrade.go:130-397 | a whole replay, whatever token it carries, leaves rows and emails as they were |
| RegradeRecovery.KnownStays | internal/store/queries/regrade.sql:8-10 | a message on record stays on record |
| RegradeRecovery.OneHandoffIff | internal/httpapi/regrade.go:256-343 | over every run, each item is handed off at most once exactly when no handoff is filed whose turn another reply has consumed between its check and its filing |
| RegradeRecovery.OneHandoff | internal/httpapi/regrade.go:247-262 | so each item is handed off at most once when every filing comes right after its own consumed-token check |
| RegradeRecovery.FirstHandoff | internal/httpapi/regrade.go:256-326 | a handoff filed right after its check is the first of its item |
| RegradeRecovery.ResendWorksIff | internal/httpapi/regrade.go:1318-1374 | resending a resolved, undelivered result, run alone, delivers it exactly when every problem of the request has a verdict |
| RegradeRecovery.UndeliveredIsRecoverable | internal/httpapi/regrade.go:1201-1211 | after any run in which no problem is added to the request past its own gate of send-result, its resolved undelivered result can be resent |
| RegradeRecovery.RecoverableIff | internal/httpapi/regrade.go:1201-1211 | after any run, a resolved undelivered result can be resent exactly when all its problems had verdicts as it was resolved and no other problem was added to it from then on |
| RegradeRaces.InterleavedFilingsHandOffTwice | internal/httpapi/regrade.go:314-343 | two replies that both pass the consumed check before either files hand one item off twice |
| RegradeRaces.LateAddWedges | internal/httpapi/regrade.go:1069-1097 | a problem added after the gate was read, and a failed send, leave a result that no later run delivers |
| RegradeRaces.WedgedForever | internal/httpapi/regrade.go:976-979 | a resolved request with an unjudged problem never gets its verdict or its email, over every run |
| RegradeServer.Server.ConsumedTokenExists | internal/store/queries/regrade.sql:34-47 | true exactly when a filed or handed-off row holds the slot |
| RegradeServer.Server.NextOpenTurn | internal/store/regrade.go:270-280 | one more than the greatest consumed turn |
| RegradeServer.Server.AllProblemsVerdicted | internal/store/regrade.go:537-550 | true exactly when there is a problem and each has a verdict |
| RegradeServer.Server.InsertRequest | internal/store/regrade.go:80-106 | the row is appended unless a unique index refuses it, and then nothing changes |
| RegradeServer.Server.FileRequest | internal/store/regrade.go:143-250 | row, problems and the flip to handed_off land together or not at all |
| RegradeServer.Server.ResolveRequest | internal/store/queries/regrade.sql:223-229 | exactly an open request takes the new status |
| RegradeServer.Server.WalkRegradeChain | internal/httpapi/regrade.go:130-397 | a reply whose message is on record leaves rows and emails alone; any other adds exactly one row, of the item, turn, kind, status and problems its token, sender, deadline and text call for, and a confirmation exactly when it is filed for judging; its writes are a run of its own steps |
| RegradeServer.FilingIsReplys | internal/httpapi/regrade.go:295-371 | over every run, a row that consumes a turn is added by the filing of a reply and holds its problems, each once, in order and without a verdict |
| RegradeServer.Server.BindToken | internal/httpapi/regrade.go:162-222 | the reply is bound to its own slot, or to the live item at the turn after its consumed ones but no further than the last, and nothing is written; or its rejection is recorded, as the token and the batch call for |
| RegradeServer.Server.Adjudicate | internal/httpapi/regrade.go:224-397 | from a bound turn on: the row that sender, deadline, consumed turn and problems call for, and the confirmation, by a run of the handler's own steps |
| RegradeServer.Server.FileReply | internal/httpapi/regrade.go:295-397 | a filed or handed-off row with every problem named, in order and without a verdict; an addendum when a problem is repeated or the slot is taken; an unparsed row when none is named |
| RegradeServer.Server.Record | internal/httpapi/regrade.go:137-160 | an outcome row is recorded, and a repeated message id ignored |
| RegradeServer.Server.SendResult | internal/httpapi/regrade.go:1113-1231 | refused exactly unless the request is open, filed and judged in every problem; otherwise resolved as regraded exactly when one problem is, with the new rows and emails outright, by a run of the system's steps |
| RegradeServer.Server.Transmit | internal/httpapi/regrade.go:1128-1225 | what is minted, resolved, sent and marked, for every way the send can go |
| RegradeServer.Server.BuildResultEmail | internal/httpapi/regrade.go:1241-1300 | the next turn's token is minted when replies are possible, and the email lists the problems exactly when all have a verdict |
| RegradeServer.Server.ResendResult | internal/httpapi/regrade.go:1318-1374 | refused exactly unless resolved and undelivered, and marked delivered exactly when it succeeds |
| RegradeServer.Server.Remind | internal/httpapi/regrade.go:1450-1566 | refused exactly unless the row is an open unparsed reply with an item and a turn; rows and emails outright, in one step under the row lock |
| RegradeServer.Server.AddProblem | internal/httpapi/regrade.go:1041-1103 | succeeds exactly on a filed request without the problem, open or not, and then adds it last and unjudged |
| RegradeServer.Server.PatchVerdict | internal/httpapi/regrade.go:913-1034 | succeeds exactly on an open filed request, and then that problem, and no other, has that verdict |
| ResultMail.View | internal/email/template_v2.go:95-119 | every problem in order with its outcome word and score flag, or the number of the first problem without a verdict |
| ResultMail.FinalMeansHandoff | internal/email/template_v2.go:80-80 | in every reachable state, filing the turn after a result hands off exactly when that result was final |
| ResultMail.ReplyHandsOffIff | internal/httpapi/regrade.go:162-397 | in any state, a reply handled on its own, from the lookup of its item to its filing, is handed off exactly when it is bound to a turn past the budget that is free, comes from the sender in time, names problems, none twice, and has a new message id; the row it adds is of that item and turn |
| ResultMail.FinalReplyHandsOffIff | internal/httpapi/regrade.go:180-326 | in every reachable state, a reply to a final result is handed off exactly when the item it is counted against, its own or the live one, has spent its budget and no more, and the reply is let in and well formed; the row it adds is of turn MAX+1 |
| ResultMail.RepublishedFinalReopens | internal/httpapi/regrade.go:194-222 | a run in which a final result is sent, its batch re-published, and the reply is bound to turn 1 of the new item: whatever it says, it is not handed off |
| GradingRunLive.NeverBehindIff | internal/grading/runner.go:249-386 | over every run: at all times each unfinished item has a delivery that will write its outcome and a running run one that will check completion, exactly when no step strands an item or the run |
| GradingRunLive.NoRunIsWedged | internal/httpapi/runs.go:791-795 | over every run in which no delivery is lost at its last attempt and no retry comes between a status read and its skip, that holds, and once the queue drains nothing is unfinished or left running |
| GradingRunLive.StepAttendedIff | internal/grading/runner.go:249-386 | any step at all keeps every unfinished item and the running run attended, unless it is a last attempt lost, or a completion check that finds unfinished items, with no other delivery to stand in |
| GradingRunLive.DrainedIsDone | internal/grading/runner.go:375-386 | an attended run whose queue has drained has nothing unfinished and is not running |
| GradingRunLive.FailureKeepsDelivery | internal/queue/river.go:274-295 | a failed attempt keeps a live delivery exactly unless it is the last one, cut off by a shutdown its error hides |
| GradingRunRaces.SplitPrologueWedges | internal/grading/runner.go:261-270 | a schedule of status read, cancel, retry and skip that leaves a running run with everything finished and nobody to complete it |
| GradingRunRaces.HiddenShutdownWedges | internal/grading/runner.go:313-327 | a last attempt cut off by a shutdown that its error hides leaves an item running for good |
| GradingRunRaces.LastCrashWedges | internal/queue/river.go:257-261 | a third crash leaves an item pending for good in a running run |
| GradingRunRaces.OverlappingSamplesReopen | internal/grading/runner.go:398-433 | a run from the start in which a sample is inserted and judged, opening the gate, and a completion that read before it then widens the sample and closes the gate |
| GradingRunRaces.CutSampleOpensGate | internal/store/spotcheck.go:22-32 | a run from the start whose sample is cut short by an ignored store error: of two records drawn one is inserted, checking it opens the gate, and no later step adds the other |
| GradingRunRaces.CrashLosesSample | internal/grading/runner.go:356-375 | a run from the start in which a delivery crashes between completion and sampling, comes again to a run no longer running, and leaves it completed, with graded items and no sample |
| GradingRunRecords.OneRecordPerLeaf | internal/grading/runner.go:436-447 | over every schedule there is at most one record for an answer and model, and a succeeded item points at the record of its own leaf |
| GradingRunRecords.RecordsAreKept | internal/store/queries/runs.sql:134-143 | records are never altered or removed, over every run |
| GradingRunRecords.OnlyPersistRecords | internal/grading/runner.go:573-583 | only a persisted verdict adds a record, so a malformed or failed attempt adds none |
| GradingRunCost.OvershootIsBounded | internal/grading/runner.go:272-296 | over every run with at most w deliveries past the check at once and records costing at most a bound, spend stays within the cap plus w times the bound |
| GradingRunCost.CappedStep | internal/grading/runner.go:646-687 | spend plus what is in flight stays within that limit at every step |
| GradingRunSample.SampleKeptIff | internal/grading/runner.go:391-405 | from any state and over any steps, members are only added, and the sample keeps its members exactly when no row is inserted for a record outside the sample it finds |
| GradingRunSample.GateClosesIff | internal/store/spotcheck.go:51-56 | a step closes an open gate exactly when it inserts such a row and the run is not waived |
| GradingRunSample.FirstSampleIsCanonical | internal/grading/runner.go:391-405 | once a run has a sample or is waived and no completion is in the middle of sampling, nothing that follows, retries and completions included, changes its members, and an open gate stays open |
| GradingRunSample.UnfinishedCanWiden | internal/grading/runner.go:427-432 | while a delivery inserts, or is about to draw, a record outside the sample, some continuation changes the members |
| GradingRunSample.SampleIsFinalIff | internal/grading/runner.go:391-405 | with a sample or a waiver and nobody about to draw, no continuation changes the members exactly when no delivery has a record outside the sample left to insert |
| GradingRunDraw.SampleIsPrefix | internal/store/spotcheck.go:22-32 | over every run in which completions sample one at a time, the members are the first rows of the last draw, as many as its delivery inserted |
| GradingRunDraw.WholeSampleIff | internal/store/spotcheck.go:17-32 | over every such run, the members are the whole of the last draw exactly when the delivery that drew it came to the end of its rows |
| GradingRunDraw.PoolDistinct | internal/grading/runner.go:413-423 | over every run no two leaves of the pool have one record |
| GradingRunDraw.PoolIsGradedItems | internal/grading/runner.go:407-423 | the pool is the graded items among the first 2000, each once and in order, by record and problem number |
| GradingRunDraw.SampleIsOneDraw | internal/grading/runner.go:398-433 | over every such run, all members come from one and the same draw of succeeded items |
| GradingRunOwed.OwedStepIff | internal/grading/runner.go:356-375 | any step at all keeps a completed run that is due a sample attended by a delivery that will draw it, unless that delivery stops or draws nothing with no other to stand in, or the first leaf is graded when none is left |
| GradingRunOwed.AlwaysOwedIff | internal/grading/runner.go:356-375 | over every run: at all times a completed run with graded leaves and neither sample nor waiver has a delivery that will sample, exactly when no step misses it |
| GradingRunOwed.DrainedIsSampled | internal/grading/runner.go:361-370 | so when no step misses it, a completed run with graded leaves whose queue has drained has a sample or a waiver |
| GradingRunSample.DrawnFromSucceeded | internal/grading/runner.go:407-432 | over every run, overlapping samples included, every member was drawn by a completion from an item that had succeeded at that moment |
| GradingRunner.Runner.ExecuteLeaf | internal/grading/runner.go:249-342 | from the item, the run, the spend, the records and the call: the report to the queue, the item and the records it leaves, and no other item changed, in a run of the delivery's own steps |
| GradingRunner.Runner.AttemptLeaf | internal/grading/runner.go:272-342 | the item fails exactly when spend has reached the cap; below it the leaf is graded |
| GradingRunner.Runner.GradeOnce | internal/grading/runner.go:298-342 | a record on file settles the item without a new one, a verdict adds one, and a failure ends as its kind and the attempt call for |
| GradingRunner.Runner.ReportFailure | internal/grading/runner.go:303-342 | the item fails for good exactly on output that is no verdict, an error no retry mends, or a last attempt that was transient or interrupted outside a shutdown; otherwise it is left as it was, snoozed exactly for a shutdown that shows |
| GradingRunner.Runner.GradeLeaf | internal/grading/runner.go:436-700 | a stored record is used again, otherwise the verdict is stored, or the attempt's failure is returned |
| GradingRunner.Runner.PersistVerdict | internal/grading/runner.go:646-687 | record and item in one step, a record already there winning |
| GradingRunner.Runner.UseRecord | internal/grading/runner.go:437-447 | an existing record settles the item without a call |
| GradingRunner.Runner.ReadRunStatus | internal/grading/runner.go:261-265 | whether the run is cancelled or failed at the moment of the read |
| GradingRunner.Runner.SkipItem | internal/grading/runner.go:265-270 | the item is marked skipped, whatever has happened to the run since the read |
| GradingRunner.Runner.OverCap | internal/grading/runner.go:284-296 | the delivery fails exactly when spend has reached the cap |
| GradingRunner.Runner.TerminalFail | internal/grading/runner.go:344-352 | the item fails and the completion check runs, as steps of the system |
| GradingRunner.Runner.FinishLeaf | internal/grading/runner.go:356-386 | completion and the first sample, as steps of the system |
| GradingRunner.Runner.CreateSpotCheckSample | internal/grading/runner.go:398-433 | state read, pool read and each row are steps of their own; run alone, the sample of the graded pool is added unless one exists or the gate is waived |
| GradingRunner.Runner.SpotCheckState | internal/store/spotcheck.go:51-67 | whether a sample exists or the gate is waived at the moment of the read |
| GradingRunner.Runner.DrawSample | internal/grading/runner.go:407-432 | the draw from the items graded at the moment of the read, or nothing from an empty pool |
| GradingRunner.Runner.InsertSpotChecks | internal/store/spotcheck.go:22-32 | the loop inserts row by row, each a step of its own: the records given become members without a verdict, and old members keep theirs |
| GradingRunner.Runner.InsertSpotCheck | internal/store/spotcheck.go:23-24 | one row is added unless the record is in the sample |
| GradingRunner.Runner.GradedPool | internal/grading/runner.go:407-423 | the succeeded items with a record, among the first 2000 |
| GradingRunner.Runner.RunCost | internal/store/pricing.go:60-72 | the sum of the costs of the records |
| GradingRunner.Runner.GetRecordForLeaf | internal/store/queries/runs.sql:145-147 | the record of the answer and model, if there is one |
| GradingRunner.Runner.MaybeCompleteRun | internal/store/queries/runs.sql:38-42 | a running run without pending or running items completes, and nothing else changes |
| GradingRunner.Runner.Plan | internal/grading/runner.go:81-199 | only a pending run is planned: an item and a job for each answer in order, and the status, in one step |
| GradingRunner.Runner.CancelRun | internal/httpapi/runs.go:763-784 | succeeds exactly from pending or running, and then the run is cancelled |
| GradingRunner.Runner.RetryFailedItems | internal/httpapi/runs.go:796-861 | refused exactly for a run chosen as final source or without failed items; otherwise exactly the failed items are reset and queued again, in one step with the status |
| Decimals.RoundRat | internal/grading/score.go:65-78 | the loop on magnitudes rounds the quotient to the nearest integer, halves away from zero |
| Decimals.RoundIsNearest | internal/grading/score.go:65-78 | no integer is nearer, and of two nearest the one further from zero is taken |
| Decimals.PrintedReadsBack | internal/grading/score.go:80-103 | reading a printed score gives the score rounded to six decimals |
| Decimals.PrintsAlike | internal/grading/score.go:94-103 | two scores print alike exactly when they agree to six decimals and, when that is zero, in sign |
| Decimals.PrintedShape | internal/grading/score.go:94-103 | the printed form is the shortest: no leading zero, at most six decimals, no trailing zero or point |
| Decimals.CanonicalIsIdentity | internal/grading/aggregate.go:186-187 | for scores with at most six decimals, voting by printed form is voting by value |
| Decimals.SeventhDecimalIsLost | internal/grading/aggregate.go:186-187 | beyond six decimals different scores print alike |
| Score.SnapClamp | internal/grading/score.go:17-50 | the string stored, or the first input that cannot be read |
| Score.SnapClampedExact | internal/grading/score.go:13-50 | with at most six decimals the stored string denotes the snapped score, and the change flag is true exactly when the value changed |
| Score.SnapIsNearest | internal/grading/score.go:34-37 | before clamping the score moves to a nearest multiple of the increment, away from zero on a tie |
| Score.SnapMonotone | internal/grading/score.go:34-46 | a higher score never stores lower |
| Score.SnapLegal | internal/grading/score.go:39-46 | the result lies in the criterion's range and is a multiple of the increment or the maximum |
| Score.SnapIdempotentIff | internal/grading/score.go:17-50 | snapping is idempotent exactly when the maximum is a multiple of the increment or in the upper half of its last step |
| Score.SnapTwiceAt | internal/grading/aggregate.go:170-171 | a second snap changes a score exactly when the first went above the maximum and the maximum does not snap to itself |
| Score.SnapSettles | internal/grading/aggregate.go:170-171 | two snaps always settle |
| Score.LegalMaximumMoves | internal/grading/aggregate.go:170-171 | a criterion of 1.2 in halves stores 1.2 for 2 and 1 for 1.2 |
| Score.SumDecimals | internal/grading/score.go:52-63 | the exact sum of all the readable scores, or nothing when one cannot be read |
| Score.SumPermuted | internal/grading/score.go:52-63 | the sum does not depend on the order |
| MeanRendering.RenderingSafeIff | internal/grading/aggregate.go:116-124 | for panels of n votes on the cent grid, snapping the printed mean is snapping the exact mean, for every panel, exactly when n is below 10000, or even and below 20000 |
| MeanRendering.RenderingIsSafe | internal/grading/aggregate.go:116-124 | the safe direction, for one panel |
| MeanRendering.RenderingBreaks | internal/grading/aggregate.go:116-124 | a panel for every other size on which the two differ |
| Consensus.Combine | internal/grading/aggregate.go:62-184 | a refusal names the first reason in the source's order, and a result is one the decision rules allow, criterion by criterion |
| Consensus.Tally | internal/grading/aggregate.go:130-140 | the counts map, walked in any order, gives a most frequent printed value and its count |
| Consensus.CollectVotes | internal/grading/aggregate.go:86-95 | every vote filed under its criterion, in order, or a refusal exactly when a score cannot be read |
| Consensus.DecideCriterion | internal/grading/aggregate.go:108-179 | the decision of one criterion, refused exactly when its limits cannot be read |
| ConsensusMeans.EveryScoreIsAVote | internal/grading/aggregate.go:85-95 | each score of a criterion, whoever gave it, is exactly one vote |
| ConsensusMeans.MeanOfAllVotes | internal/grading/aggregate.go:116-171 | under the mean combiner, and for a contested majority, the score reads as the mean of all the votes, printed, snapped and clamped, twice; under mean it is contested exactly when more than f votes lie further than the increment from the first snapped value |
| ConsensusMeans.MeanIsExact | internal/grading/aggregate.go:116-171 | for cent votes and limits and a panel of the right size, the score is the exact mean, snapped and clamped twice |
| ConsensusMeans.LowConfidenceIff | internal/grading/aggregate.go:74-80 | a result is marked exactly when more than f inputs are of low confidence or illegible |
| ConsensusLaws.MajorityToleratesFaults | internal/grading/aggregate.go:127-148 | a value that n-f inputs agree on and that snapping keeps is returned uncontested, whatever the others say |
| ConsensusLaws.UncontestedIsUnique | internal/grading/aggregate.go:127-148 | a criterion is contested exactly when no value has n-f votes, and an uncontested score is the only such value, snapped |
| ConsensusLaws.CombinedAnyOrder | internal/grading/aggregate.go:81-183 | the result is the same for every order of the inputs and of the counts map, for both combiners |
| ConsensusLaws.ReadableAnyOrder | internal/grading/aggregate.go:62-115 | so is whether the panel is refused |
| ConsensusLaws.RefusedIsUnreadable | internal/grading/aggregate.go:62-115 | a refusal and a result exclude each other |
| ConsensusLaws.TwiceScoredIsAmbiguous | internal/grading/aggregate.go:136-140 | an input that scores a criterion twice makes the result depend on how the counts map is walked |
| ConsensusLaws.LegalIsFixedIff | internal/grading/aggregate.go:170-171 | every legal score survives the last snap exactly when the maximum snaps to itself |
| ConsensusLaws.MajorityAlreadyLegal | internal/grading/aggregate.go:170-171 | under that condition the last snap returns the value the majority voted for |
| Aggregation.GroupRows | internal/grading/aggregate_run.go:51-78 | one batch per answer, ascending, with exactly that answer's inputs and the rubric of its first row |
| Aggregation.Store.AggregateOneAnswer | internal/grading/aggregate_run.go:136-222 | each agg_* flag exactly for its own cause and while it is enabled, other flags and answers as they were, one record unless the panel is missing, and the report; or the refusal of its panel with nothing written |
| Aggregation.Store.SetFlags | internal/grading/aggregate_run.go:170-183 | the agg_* flags become exactly those raised, other flags stay, and each raised one is counted |
| Aggregation.Store.WriteChunk | internal/grading/aggregate_run.go:105-120 | all the answers of a chunk are written or none of them |
| Aggregation.Store.ExecuteAggregation | internal/grading/aggregate_run.go:28-131 | succeeds exactly when the policy and every panel are acceptable; the state is that of one answer after another, up to a chunk boundary when a panel is refused |
| Aggregation.InTwo | internal/grading/aggregate_run.go:98-104 | writing in chunks is writing one answer after another, report included |
| Aggregation.FlagsAfterPass | internal/grading/aggregate_run.go:158-183 | after a pass an answer's agg_* flags are exactly those its outcome raises, and everything else is untouched |
| Aggregation.RerunKeepsFlags | internal/grading/aggregate_run.go:170-183 | a second pass with the same outcomes changes no flag |
| Aggregation.RecordsAfterPass | internal/grading/aggregate_run.go:184-221 | one new record, with its scores and total, for each panel that was not missing, in answer order, and the report counts them |
| Aggregation.ReportCountsFlags | internal/grading/aggregate_run.go:174-176 | for each flag the report counts the answers that raised it |
| Aggregation.OutcomesAreSettled | internal/grading/aggregate_run.go:146-153 | a pass over the same batches has one possible outcome, however each counts map is walked |
| Sampling.SpotCheckSampleSize | internal/grading/spotcheck.go:28-40 | all of a pool up to five, then between five and twenty, five per cent in between |
| Sampling.SelectSpotCheckSample | internal/grading/spotcheck.go:54-123 | the shared sample at the spot-check target |
| Sampling.SelectCalibrationSample | internal/grading/sample.go:27-84 | the same shared sample at the requested target |
| Sampling.GroupByProblem | internal/grading/spotcheck.go:72-81 | the problems ascending, each with its leaves in order |
| Sampling.FewestTaken | internal/grading/spotcheck.go:99-111 | the first, by problem, of the groups with leaves left that gave the fewest |
| Sampling.DrawRoundRobin | internal/grading/spotcheck.go:97-119 | the loop makes the picks of the recursive specification |
| SamplingLaws.SampleIsFair | internal/grading/spotcheck.go:42-53 | the sample is as large as asked for, made of pool members, water-filled: for some level every problem gives min(size, level), or one more before a cursor, and with a target of one per problem none is left out |
| SamplingShuffle.ShuffleDecides | internal/grading/spotcheck.go:83-118 | of each problem the sample holds exactly the first leaves in the order the seeded shuffle gives its leaves by id, whatever ends the loop |
| SamplingShuffle.WholePool | internal/grading/spotcheck.go:60-71 | a target the pool does not exceed takes all of it, by id |
| SamplingLaws.FillLevels | internal/grading/spotcheck.go:92-119 | fewest-taken-first keeps the level shape and spends the whole budget |
| SamplingLaws.SampleAnyOrder | internal/grading/spotcheck.go:42-46 | the sample is the same for every order of a pool with distinct ids |
| SamplingLaws.SampleSizeIff | internal/grading/spotcheck.go:100-114 | the size is as asked for exactly when no problem is numbered -1 or the target is spent before it |
| SamplingLaws.MinusOneIsNeverSampled | internal/grading/spotcheck.go:98-114 | a pool of more than five leaves that are all of problem -1 gives an empty sample, whatever the shuffle |
| SamplingLaws.SixLeavesNoSample | migrations/0002_assessments.sql:19-19 | six leaves of problem -1, a number the column takes, give none of the five leaves asked for |
| SamplingLaws.PicksOfGroup | internal/grading/spotcheck.go:115-118 | each problem gives the next leaves of its shuffled group, and no others |
| Export.Validated | internal/export/export.go:534-598 | accepts exactly the valid inputs, sorted by id, and names the first thing wrong |
| Export.CheckAnswers | internal/export/export.go:549-589 | the first wrong answer with what is wrong with it |
| Export.BuildProblemEntries | internal/export/export.go:389-497 | the loop builds the entry list of the specification, in its fixed order |
| Export.PageImages | internal/export/export.go:452-460 | one stored image per page, in order |
| Export.BuildArchive | internal/export/export.go:246-289 | succeeds exactly on valid problems with distinct numbers within the size cap, and lists every tree in order |
| Export.FirstRepeat | internal/export/export.go:256-264 | a number is reported exactly when two problems share it |
| Export.BuildZIP | internal/export/export.go:204-206 | one problem's archive |
| Export.BuildExamZIP | internal/export/export.go:222-237 | the whole exam's archive, under the exam's slug, refused when empty |
| Export.Dedupe | internal/export/export.go:784-801 | flags flattened to one line, without blanks, each where it first occurs |
| Export.CsvSafe | internal/export/export.go:773-782 | no field starts a formula, and a harmless one is unchanged |
| ExportContents.TreeContents | internal/export/export.go:389-497 | every entry of a problem's tree in its place: all answers in one file under their pseudonyms, the manifest row by row, each answer's files under its own id and the problem's title, and each page's image under its number |
| ExportContents.PseudonymIs | internal/export/export.go:655-668 | "Student " and the place from 1, zero-padded to the digits of the number of answers, to three at least |
| ExportContents.PseudonymsDiffer | internal/export/export.go:655-668 | two answers never share a pseudonym |
| ExportContents.DedupedKeeps | internal/export/export.go:784-801 | the flags kept are the non-blank ones, flattened, each at its first place and in order |
| ExportLaws.ArchiveAnyAnswerOrder | internal/export/export.go:591-597 | the entries do not depend on the order of any problem's answers |
| ExportLaws.ExamAnyProblemOrder | internal/export/export.go:233-236 | nor on the order of the problems |
| ExportLaws.TreeUnder | internal/export/export.go:386-395 | a problem's tree under a prefix is its tree with every name prefixed |
| ExportLaws.ArchiveIsBundle | internal/export/export.go:280-288 | an archive is its problems' own trees, side by side |
| ExportLaws.ExamIsItsProblems | internal/export/export.go:208-217 | the exam archive is the per-problem archives in problem order under the slug, and each of those exports on its own |
| ExportNames.ImageNamesAlike | internal/export/export.go:670-675 | exactly when two page images have one name |
| ExportNames.TreeNamesDistinctIff | internal/export/export.go:389-497 | the names of a tree are distinct exactly when no single-page id is a multi-page id followed by -p and a page number |
| ExportNames.ExamNamesDistinctIff | internal/export/export.go:256-264 | the names of a whole exam are distinct exactly when no problem has such a clash |
| ExportNames.PageIdsClash | internal/export/export.go:670-675 | ids A with two pages and A-p1 with one are both valid and collide |
| Token.TokenRoundTrip | internal/email/token_v2.go:29-81 | a minted token verifies to its item and turn exactly when the turn is at least 1 and now is not after the expiry second |
| Token.TokenText | internal/email/token_v2.go:29-93 | the text of a token, and of what is signed for it |
| Token.MessagesDiffer | internal/email/token_v2.go:89-93 | different items, turns or expiry seconds sign different messages |
| Token.OnlyMintedTokensVerify | internal/email/token_v2.go:47-81 | under a MAC nobody can forge, only a minted and unexpired item and turn is accepted, however the fields are written |
| Slug.Slug | internal/export/slug.go:46-78 | the loop with its pending dash computes the runs of letters and digits joined by dashes, cut to length |
| Slug.CollapseSnoc | internal/export/slug.go:46-78 | one more character: a letter or digit follows in lower case, after a dash exactly when something came in between |
| Slug.SlugHasShape | internal/export/slug.go:20-23 | between 1 and 64 lowercase letters and digits with single dashes inside |
| Slug.SlugFixesShape | internal/export/slug.go:46-78 | a name is its own slug exactly when it has that shape |
| Slug.SlugIdempotent | internal/export/slug.go:45-45 | slugging twice is slugging once |
| Grading.InsertManualRecord | internal/grading/manual.go:61-106 | accepted exactly when every criterion is scored exactly once with readable scores, and then each score given is stored in its place, snapped and clamped to its own criterion |
| Grading.ParseModelOutput | internal/grading/response.go:41-76 | accepted exactly when the confidence is known and every criterion is scored exactly once |
| Grading.ScoreVerdict | internal/grading/runner.go:594-626 | each score of the verdict stored in its place, snapped and clamped to its own criterion, with a total exactly when the answer is legible |
| Grading.AllSeen | internal/grading/manual.go:95-97 | counting the ids seen is enough to know that none is missing |
| GradingLaws.TotalsAreExact | internal/grading/manual.go:72-106 | over every sequence of steps, on the human, model and aggregate paths and whatever the rubric: every criterion is scored exactly once within its points, and a total is the exact sum, between zero and the sum of the points |
| GradingLaws.GradesAreAsGiven | internal/grading/manual.go:72-106 | over every run, a grade by hand or by a model holds the scores given, in order, each the given value snapped to the increment and clamped to the points of its criterion, and their exact sum |
| GradingLaws.AcceptedIff | internal/grading/manual.go:61-106 | a grade by hand is accepted exactly when it scores each criterion once and every score can be read |
| GradingLaws.TotalWithinIff | internal/httpapi/rubrics.go:152-156 | over every run and all that may follow it, on all three paths, no total against a rubric is over its problem's maximum exactly when storing the points it was created with does not raise their sum |
| GradingLaws.FullMarks | internal/grading/score.go:39-46 | every rubric as stored lets a grade by hand reach the full sum of its points |
| GradingLaws.TotalOverMaximum | internal/httpapi/rubrics.go:152-156 | a run in which a total of 0.02 is stored for a problem of 0.01 |
| GradingLaws.RubricSumsIff | internal/httpapi/rubrics.go:152-176 | over every run, a rubric's stored points sum to its problem's maximum exactly when rounding kept the sum of the points it was created with |
| GradingLaws.StepKept | internal/httpapi/problems.go:121-127 | every step keeps rubrics and grades sound, a changed maximum being refused once a rubric exists |
| GradingLaws.RubricSumIff | internal/httpapi/rubrics.go:152-176 | a new rubric as stored sums to its problem's maximum exactly when rounding its points keeps their sum |
| GradingLaws.CentPointsKeepSum | migrations/0002_assessments.sql:48-48 | points with at most two decimals are stored as they are |
| GradingLaws.HalfCentsAddUp | internal/httpapi/rubrics.go:152-156 | a run in which two criteria of half a cent are accepted for a problem of one cent and stored as two |
| GradingLaws.AggregateGradeKept | internal/grading/aggregate_run.go:188-216 | an aggregate over usable records of a rubric scores it exactly once, within its points, with an exact total |
| GradeBook.Book.CreateRubricVersion | internal/httpapi/rubrics.go:102-197 | written exactly when the points sum to the maximum and the columns take them |
| GradeBook.Book.UpdateProblem | internal/httpapi/problems.go:80-136 | the maximum moves only while no rubric exists, and the reply says exactly whether it was written |
| GradeBook.Book.CreateProblem | internal/httpapi/problems.go:37-78 | a new problem with its maximum as stored, and a reply that says exactly whether it was written |
| GradeBook.Book.GradeManually | internal/grading/manual.go:48-139 | one appended grade exactly when the reply says so, or none |
| GradeBook.Book.StoreVerdict | internal/grading/runner.go:594-700 | one appended grade exactly when the reply says so, or none |

## Left out

- Store, queue and provider internals (SQL, Postgres, River, e-mail and model providers): their contracts are assumed as listed above; a store call that fails is modelled as a handler that stops there (`Drop`) or a delivery that crashes, which also covers a failing call before grading; the sampling errors that a completion ignores are a step of their own.
- HTTP decoding, sessions, roles, audit, logging and configuration: plumbing around the modelled handlers.
- Handlers taken as one step: publish, verdict, add-problem, remind, cancel, plan, retry-failed, rubric creation and problem update. Verdict edits racing with send-result, planning racing with cancel, and a changed maximum racing with a new rubric (`internal/httpapi/rubrics.go:104-165` and `internal/httpapi/problems.go:121-127` each check and then write) are therefore not covered.
- GradingRunner.Runner.SpotCheckState: the sample count and the waiver are read at once; as a waiver is never withdrawn, two reads give what one read at the first or the second of the two moments gives.
- Notification of teaching assistants on a handoff, adopted records, AI re-grades, the `under_review` transition (no shown handler makes it) and the order of problems in a result email by problem id.
- The regrade budget is constant, as the token properties need; the source reads it at every delivery.
- Parsing a reply into blocks: an arbitrary list of problems; a list that repeats one is refused by the store as the source's would be.
- Time: the deadline and token expiry are inputs; instants beyond 64-bit seconds are not modelled.
- Aggregation: caching of rubric points, provenance and comment texts, and the recomputation of official grades that follows a pass.
- The runner's official-grade recomputation, its flags for illegible and low-confidence answers and the identity scrub.
- Decimals.RatOf: reads signed decimal numerals with an optional exponent; fractions and base prefixes, which the source's reader also takes, are left out because no stored score has them.
- Numbers past NUMERIC(6,2), which the columns refuse, are not refused here; a column only rounds to its two decimals, and a stored number is printed as its shortest decimal string.
- Sampling.SelectSpotCheckSample: the pseudo-random shuffle is any fixed rearrangement for a seed and group sizes, and is applied to sequences rather than in place on arrays.
- ZIP compression, the compressed-size check, checksums, LaTeX and Typst bodies, CSV quoting and redaction: functions of one answer or of the rows, given from outside.
- Answer transcription, OCR, mask review, ingestion, publishing and the front end.
