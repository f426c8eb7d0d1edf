# Shoresh: protocols, gate pipeline and work records

A Dafny model of the parts of Shoresh whose behaviour is easy to get wrong by reading: the approval of
paired devices while other approvals of the same device are still being delivered, the leases by which
concurrent test runs share a machine, the pipeline that turns reviewers' reports into a merge decision, the
incremental reader of session transcripts and the folds over what it reads, and the documents of the work
record (frontmatter, index, run records, merge history). A self-contained e-mail scanner is included.

Everything is proved for all inputs, all interleavings and all schedules; there are no bounds and no unproved
assumptions. `dafny verify dfyconfig.toml` checks the whole project.

## How the modules fit together

| module | what it models |
|---|---|
| `DeviceApprovals` | `approveDevice`: the device row, the shared in-flight object, and any number of overlapping calls, as a class and as a machine of events |
| `LeaseFiles`, `WorkerLeases`, `LeaseArrivals`, `WorkerShares` | the lease directory, as a class for one process and as a machine in which every file-system step of every process interleaves with all others; the shares and what they add up to |
| `TranscriptReader`, `ObserveFolds`, `WorkerPool` | the chunked reader with its carry buffer and cursor, the count maps folded from events, and the pool of workers that shares an index and merges |
| `GateSchema`, `GateReduce`, `GateReduceLaws`, `GateReportFields`, `GateFlagOrder`, `TaskEnvelope` | the validator, the reducer loop by loop, its laws, each field of its result said about the reports as received, when its flag order depends on their order, and the projected task status |
| `VerifierReport`, `OpinionProvenance`, `WorkflowProvenance`, `GateCli` | where evidence comes from, and the command that gathers it and reduces |
| `WorkIndex`, `WorkIndexLaws`, `IndexRender` | the graph of work documents and the sections of the rendered index |
| `Frontmatter`, `FrontmatterLines`, `FrontmatterPrinter`, `FrontmatterRoundTrip`, `RunRecord`, `RunRecordPrinter` | the parser, what each kind of line looks like, printed frontmatter and what the parser makes of it, the run-record check, the run-record generator |
| `MergedTickets`, `EmailScan` | tickets whose merges never edited them; the e-mail candidates of a line |
| `Prelude`, `Sorting`, `Precedence`, `Text` | sequences, the stable sort of the host language, which of two elements comes first, characters and lines |

A loop of the source is a method with a loop here, proved equal to a function of its inputs; what the source
promises is then proved about that function. Since a loop and its function could be wrong in the same way, the laws
are said about the inputs themselves where possible, with columns, fields, constants and character classes written out.

## What the proofs show about the code

* **Approvals.** At every point of every window of overlapping approvals the row is the last-started call's when
  that call was delivered or still waits; when it failed, it is the row of the delivered call that had settled most
  recently by then, else the row before the first (`RowIsTheOutcome`). So no undelivered write survives. A call that
  was delivered need not have its secret in the row, although it reports success: once nothing waits, the row holds
  it exactly when the call was the last one started, or the last one started failed and this call was the one
  delivered most recently before that failure (`DeliveredSecretIff`). `DeliveredSecretMayBeMissing` is the smallest
  window in which it does not: start a, start b, b fails, a is delivered.
* **Leases.** The k-th run to read the directory counts at least k runs; of the runs that took a budget decision at
  most one is uncapped. The capped budgets do not always sum to at most the shares of 2..n, because two runs that
  both register before either counts each take the share of two. The bound proved is that sum, plus the first
  reader's own budget when it is capped as well, at most the share of two runs (`CappedWorkersBounded`); for every n the sum
  alone is reached, and the sum with a half share (`LadderIsReached`, `HalfShareIsNeeded`).
* **Process ids given out again.** A live run can lose its lease: its id's former owner dies, another run finds the
  old lease dead, the new owner registers, and then the other run removes the name it condemned
  (`ReuseLosesLease`). That is the only way: however ids are given out, the lease a run writes can be lost while the
  run lives exactly when a removal of that name is pending at that moment (`LeaseIsSafeIff`). The counting results
  are stated for the executions in which no run registers at such a moment; those are the `Reachable` states.
* **Order of the reports.** Decision, scores, gaps and self-declared N/A never depend on the order of the reports.
  The order of the cross-gate flags does, when two flagged references compare equal under `localeCompare` although
  they are different strings (canonically equivalent spellings do): the flags come out alike for every order exactly
  when any two such references are cited in the same order by every counted report (`FlagOrderIff`), and
  `TiesCanShow` is the smallest case in which they do not. Likewise the graph of work documents depends on the
  order in which they were read exactly when two of them tie (`OrderOfInputIff`), and over the documents whose
  paths lie in a given set the rendered index never depends on it exactly when no two of the set's indexed paths tie
  (`RenderOrderIff`). Two documents without references whose distinct paths tie show it in both (`TiesShowInGraph`,
  `TiesShowInIndex`).
* **Null findings.** The validator tolerates a null among the findings of a report and the reducer then reads a
  property of it. The model has an `Err` for that exception, which is raised exactly when a counted report holds such
  a null (`ThrownIff`); the other laws say what happens when it is not.
* **Latest dispatch.** The header of the provenance check speaks of the most recent dispatch. For background
  dispatches the code picks the completed agent that was *heard of* last (first acknowledgement or notification),
  which need not be the one dispatched last: x and y are dispatched, y's agent completes, then x's, and the report is
  bound to x's agent (`LatestDispatchPassedOver`). It is the one dispatched last exactly when every other completed
  agent of the role was heard of before it (`LatestDispatchIff`), so always when agents are heard of in the order of
  their dispatches (`BoundInDispatchOrder`).
* **Replaced transcripts.** A file replaced by at least as many bytes is read on from the old cursor as if a line
  began there. The poll then yields the events of the new file exactly when what is left of the line the cursor falls
  into yields the same as the lines before the cursor and that whole line together (`ReplacedFile`); for the lines ab
  and cd, each its own event, it does not from cursor 3 or 4 (`ReplacedFileMissesEvents`).
* **Coverage across files.** A dispatch in one transcript file that is acknowledged in another stays uncovered in the
  merged report; the difference to folding the files together is exactly the number of such dispatches
  (`FilesMergeAsOne`).
* **Run records.** A generated record always parses, accounts for all ten agents, and draws exactly the ten findings
  that say a reason is still to be given. A ticket path comes back unchanged exactly when it holds no comma.

## Model

| member | source | states |
|---|---|---|
| DeviceApprovals.Approvals.Refuse | electron/main.js:1582-1595 | which refusal each state of the row draws, and that only an expired Pair-again request changes the row |
| DeviceApprovals.Approvals.Begin | electron/main.js:1597-1610 | writing the row, with each column's value, then joining or opening the shared in-flight object, is one Start step on this device and leaves all others alone |
| DeviceApprovals.Approvals.Settle | electron/main.js:1613-1636 | everything after the await is one Settle step: restore only one's own write, or move the shared baseline, which then has the delivered call's values in its columns |
| DeviceApprovals.RowIsTheOutcome | electron/main.js:1567-1636 | for every interleaving and every pattern of deliveries the row is the outcome read off the history, and the shared object holds the last delivered row and the number waiting |
| DeviceApprovals.RowIsApproved | electron/main.js:1602-1636 | after a start, and once nothing waits when the call started last was delivered, the row is authorized at that call's time by its user with its secret, and no revocation column is set |
| DeviceApprovals.BaselineIsApproved | electron/main.js:1608-1636 | the shared baseline has the values of the call delivered last in its columns, or is the row before the window |
| DeviceApprovals.FailureRestores | electron/main.js:1623-1631 | when the call started last failed, the row is that of the call delivered last before the failure, or the row before the window, with a pending Pair-again request expired if it expired since |
| DeviceApprovals.RowIsNotAnEarlierWaiter | electron/main.js:1624-1630 | a waiting call other than the last started never owns the row, so its failure restores nothing |
| DeviceApprovals.NoUndeliveredWriteSurvives | electron/main.js:1606-1636 | once nothing waits, the row is the one before the window or the write of a delivered call |
| DeviceApprovals.DeliveredSecretIff | electron/main.js:1606-1636 | once nothing waits, a delivered call has its secret in the row exactly when it was the last one started, or that one failed and this call was the last delivered before the failure |
| DeviceApprovals.DeliveredSecretMayBeMissing | electron/main.js:1623-1636 | start a, start b, b fails, a is delivered: the row is the one from before, without a's secret |
| DeviceApprovals.WindowsAreIndependent | electron/main.js:1567-1622 | over any number of windows one after the other no baseline leaks into the next |
| LeaseFiles.LeaseDirectory.CountLiveLeases | scripts/vitestWorkerBudget.js:59-83 | the live pids are those of the names that are leases of live processes, in listing order, and exactly the other leases are removed; a directory that cannot be read counts nobody |
| LeaseFiles.LeaseDirectory.Claim | scripts/vitestWorkerBudget.js:91-112 | registering before counting: the live runs are the others and the caller, and the budget is the share of so many; switched off, or without a usable directory, no bound is imposed |
| LeaseFiles.LeaseDirectory.Release | scripts/vitestWorkerBudget.js:105-107 | only the run's own lease is removed, or nothing when that fails |
| LeaseFiles.CensusIff | scripts/vitestWorkerBudget.js:66-75 | a pid is counted exactly when it is positive, alive, and written in the name of a lease file, once for each |
| LeaseFiles.CondemnedIff | scripts/vitestWorkerBudget.js:70-80 | a name is removed exactly when it is a lease file whose pid is not positive or not alive |
| WorkerShares.BudgetIff | scripts/vitestWorkerBudget.js:47-53 | the budget is the largest whole number of workers that lets all live runs fit the cores, at least one, and none for a lone run or without cores |
| WorkerLeases.StepKeepsInv | scripts/vitestWorkerBudget.js:59-112 | every single file-system step of any process keeps the invariant that ties leases, live runs and what each has read, unless a run registers while a removal of its name is pending |
| WorkerLeases.LiveLeaseIsNeverReaped | scripts/vitestWorkerBudget.js:67-82 | in no reachable state (no registration while a removal of the name was pending) is a live run's lease removed or about to be removed by anyone |
| WorkerLeases.LeaseIsSafeIff | scripts/vitestWorkerBudget.js:67-82 | after any execution, with process ids given out again at will, the lease a run writes can be removed while the run holds it exactly when a removal of that name is pending |
| LeaseArrivals.ReuseLosesLease | scripts/vitestWorkerBudget.js:76-80 | an execution in which a process id is given out again between the probe and the removal, and the new owner loses its lease |
| WorkerLeases.SawAtLeast | scripts/vitestWorkerBudget.js:97-104 | the k-th of the budgeted runs to read the directory counted at least k |
| WorkerLeases.SawEveryone | scripts/vitestWorkerBudget.js:97-104 | when all registered before any read, each counted all of them |
| WorkerLeases.AtMostOneUncapped | scripts/vitestWorkerBudget.js:47-53 | of the runs that took a budget decision and still work, at most one is uncapped |
| WorkerLeases.CappedWorkersBounded | scripts/vitestWorkerBudget.js:47-53 | the k-th reader holds at most its share, and the capped budgets sum to at most the shares of 2..n, plus the first reader's own budget, at most the share of 2, when it is capped too |
| WorkerLeases.SimultaneousRunsFit | scripts/vitestWorkerBudget.js:97-109 | runs that all registered before any counted are all capped and together use at most the cores, or one worker each |
| LeaseArrivals.LadderIsReached | scripts/vitestWorkerBudget.js:47-53 | for every n there is a run of the protocol in which the n budgets sum to exactly that bound |
| WorkerLeases.ReadOrderExists | scripts/vitestWorkerBudget.js:60-65 | the budgeted runs of any reachable state can be listed in the order in which they read the directory |
| LeaseArrivals.HalfShareIsNeeded | scripts/vitestWorkerBudget.js:97-109 | for every n of at least 2 there is a run of the protocol, the first reader capped too, in which the n budgets sum to the shares of 2..n and a half share more |
| LeaseArrivals.CensusAlone | scripts/vitestWorkerBudget.js:66-83 | the single steps of one undisturbed process add up to the census the method computes |
| LeaseArrivals.ClaimAlone | scripts/vitestWorkerBudget.js:91-112 | the single steps of one undisturbed process, from start to budget to release, leave the directory and count the runs as the methods do |
| TranscriptReader.OnData | scripts/observeRun.js:314-327 | one chunk with its carry yields the events of the lines it completes, the new carry and the bytes consumed |
| TranscriptReader.ReadEventsFromOffset | scripts/observeRun.js:290-333 | however the stream cuts the bytes, the events are those of the complete lines in order and the end offset is just past the last newline |
| TranscriptReader.LinesSplit | scripts/observeRun.js:312-327 | cutting anywhere, the unfinished tail of the first part is completed by the second |
| TranscriptReader.LinesPrintBack | scripts/observeRun.js:312-327 | every text is its lines, each ended by the byte 10, and an unfinished rest without that byte |
| TranscriptReader.ReadIs | scripts/observeRun.js:287-333 | a read yields the events of the finished lines, blank ones aside, in order, and has read those lines with their ends; nothing at the size, a shrunken file above it |
| TranscriptReader.ResumeAt | scripts/observeRun.js:287-333 | reading, then resuming at the reported offset, gives the events and the offset of one read from zero |
| TranscriptReader.EachLineOnce | scripts/observeRun.js:355-370 | over any number of polls of a file that only grows, each complete line is consumed once and the session holds the events of the whole file |
| TranscriptReader.ReplacedFile | scripts/observeRun.js:287-305 | a file shorter than the cursor is read again from its start; any other new content is read from the cursor on, which yields the events of the whole file exactly when the fragment of the line at the cursor stands in for that line and all lines before it |
| TranscriptReader.ReplacedAtNewline | scripts/observeRun.js:294-305 | just past a newline of the new content nothing is missed exactly when no event stands before the cursor |
| TranscriptReader.ReplacedFileMissesEvents | scripts/observeRun.js:294-305 | the file of the lines ab and cd read from cursor 3 or 4: the events of the whole file are not what the poll yields |
| ObserveFolds.CorrelateDispatches | scripts/observeRun.js:104-120 | each acknowledgement is paired with the open dispatch of its id, once |
| ObserveFolds.FoldEvents | scripts/observeRun.js:127-170 | the loops compute the report defined by tallies and sets of agents, merged with the prior ones |
| ObserveFolds.MergeReports | scripts/observeRun.js:172-190 | merging adds counts key by key |
| ObserveFolds.OrderIndependent | scripts/observeRun.js:127-155 | skills, dispatches and completion do not depend on the order of the events |
| ObserveFolds.EveryAgentCounted | scripts/observeRun.js:143-155 | completed plus truncated is the number of distinct resolved agents |
| ObserveFolds.CompletedAre | scripts/observeRun.js:139-152 | completed counts the agents with a terminal status, truncated those that never had one |
| ObserveFolds.EveryEventCounted | scripts/observeRun.js:134-138 | each skill is counted as often as it was invoked, each role as often as it was dispatched |
| ObserveFolds.CorrelationsIff | scripts/observeRun.js:104-120 | exactly the acknowledgements that answer a dispatch under their id, with no other event of that id between, are correlated, with that dispatch's role |
| ObserveFolds.CoverageBounded | scripts/observeRun.js:104-162 | the covered dispatches of a role, plus those still open, never exceed its dispatches |
| ObserveFolds.CoverageIsATally | scripts/observeRun.js:157-162 | the coverage map counts exactly the correlated dispatches of each role |
| ObserveFolds.FilesMergeAsOne | scripts/observeRun.js:164-190 | merging two files' reports is folding their events together, except that an agent heard of in both counts in each, and a dispatch of the first file acknowledged in the second is not covered |
| ObserveFolds.MergeIsAMonoid | scripts/observeRun.js:172-190 | merging is associative and commutative with the empty report as unit |
| ObserveFolds.MergeAllPermutes | scripts/observeRun.js:164-168 | merging any permutation of the reports gives the same report |
| WorkerPool.StepKeepsInv | scripts/observeRun.js:355-380 | every step of every worker keeps that each file index is waiting, held by one worker, or done, and never twice, and that a truncated file is recorded once |
| WorkerPool.AnyScheduleSameReport | scripts/observeRun.js:355-384 | for every schedule each file is read exactly once, every cursor ends at its file's end, the truncated files are recorded once each, the bytes are the sum over all files, and the merged report is that of all files in order |
| GateSchema.ValidIffWellFormed | scripts/gateReportSchema.js:15-77 | the early-return validator accepts exactly the table of well-formed reports |
| GateReduce.Admit | scripts/gateReportReduce.js:24-54 | duplicates and malformed reports are listed, everything else is filed once |
| GateReduce.DropUnexpected | scripts/gateReportReduce.js:56-74 | reports of unexpected opinion gates are taken out of the map and listed |
| GateReduce.FindGaps | scripts/gateReportReduce.js:116-130 | each expected gate without a usable report is listed as malformed or missing |
| GateReduce.BlockingFindings | scripts/gateReportReduce.js:132-140 | the blocking findings of the counted reports in order, or the exception a null finding raises |
| GateReduce.CrossGateFlags | scripts/gateReportReduce.js:142-157 | a flag for each reference that at least two gates cite, with the gates in name order, sorted by reference |
| GateReduce.ReduceGateReport | scripts/gateReportReduce.js:22-190 | the whole reducer computes the report defined field by field from the counted reports |
| GateReduceLaws.BadReportBlocks | scripts/gateReportReduce.js:31-74 | one malformed, unexpected or blocking report makes the round not eligible |
| GateReduceLaws.TwoReportsBlock | scripts/gateReportReduce.js:28-42 | two reports under one gate name do, too |
| GateReduceLaws.NoOutvoting | scripts/gateReportReduce.js:159-170 | no further reports and no CI run turn such a round eligible |
| GateReduceLaws.SoundReportsAllCount | scripts/gateReportReduce.js:28-74 | when nothing is wrong with the reports all of them count and nothing is listed |
| GateReduceLaws.ScoredIsGiven | scripts/gateReportReduce.js:94-100 | the scores that enter the mean and the minimum are, as a multiset, the scores of the counted opinion reports with a PASS or a FAIL |
| GateReduceLaws.AggregatesAre | scripts/gateReportReduce.js:94-105 | for sound reports the mean times their number is the sum of those scores, and the lowest dimension is the least of them |
| GateReduceLaws.DecisionIff | scripts/gateReportReduce.js:159-170 | eligible exactly with a verifier pass, nothing blocking or malformed, some score, a mean of at least four and none below three |
| GateReduceLaws.EligibleIff | scripts/gateReportReduce.js:22-170 | the decision said about the reports as received, both directions: sound reports, a verifier pass, and the scores given with a PASS or FAIL, at least one, all at least three and summing to at least four times their number |
| GateReduceLaws.PermutationInvariant | scripts/gateReportReduce.js:22-190 | permuting the reports changes no field except the order of lists; flags are equal when no two references tie |
| GateReduceLaws.FlagsPermute | scripts/gateReportReduce.js:142-157 | the same flags, as a multiset, for every order of the reports |
| GateReduceLaws.MalformedPermutes | scripts/gateReportReduce.js:24-74 | the same complaints, as a multiset, for every order of the reports |
| GateReportFields.CountedIff | scripts/gateReportReduce.js:33-74 | a report counts exactly when it is well formed, alone under its gate name, and the verifier's or an expected gate's |
| GateReportFields.PassIff | scripts/gateReportReduce.js:77-88 | the verifier passes exactly with no counted FAIL and a counted PASS or a completed, successful run with an id on the head under review |
| GateReportFields.GateScoreIff | scripts/gateReportReduce.js:91-100 | a gate has a score exactly when its counted report passed or failed with that score |
| GateReportFields.BlockingIff | scripts/gateReportReduce.js:133-140 | a finding blocks under a gate exactly when a counted report of that gate holds it with severity BLOCKING |
| GateReportFields.SelfNaIff | scripts/gateReportReduce.js:108-114 | a gate is listed as self-declared N/A, with its reason, exactly when it is expected and its counted report says so |
| GateReportFields.ComplaintIff | scripts/gateReportReduce.js:33-74 | which complaint is listed about which gate with which evidence: a duplicate, the validator's problem, or an unexpected gate |
| GateReportFields.FlagsSay | scripts/gateReportReduce.js:143-156 | a reference is flagged exactly when counted reports of two gates cite it, with all gates that do, alphabetically |
| GateReportFields.FlagsAreSorted | scripts/gateReportReduce.js:151-157 | flags stand by reference, each reference once |
| GateReportFields.CountedInOrder | scripts/gateReportReduce.js:33-74 | the counted reports keep the order received |
| GateReportFields.ListsAreInOrder | scripts/gateReportReduce.js:117-140 | blocking findings stand report by report in the order received, gaps in the order expected, each with its reason |
| GateReportFields.ComplaintsInOrder | scripts/gateReportReduce.js:33-74 | complaints stand in the order received, then those about unexpected gates in gate order |
| GateReportFields.ThrownIff | scripts/gateReportReduce.js:134-136 | reducing throws exactly when a counted report has a null among its findings |
| GateFlagOrder.FlagOrderIff | scripts/gateReportReduce.js:142-157 | the flags have the same order for every order of the reports exactly when tied references are cited in the same order by every counted report |
| GateFlagOrder.ReportOrderIff | scripts/gateReportReduce.js:22-190 | every order of the reports gives the same report up to the order of its lists, and the very same flags exactly under that condition |
| GateFlagOrder.TiesCanShow | scripts/gateReportReduce.js:157-157 | two sound reports citing two tied references in opposite order: some permutation changes the flags |
| TaskEnvelope.EachExpectedGateStandsOnce | scripts/gateReportReduce.js:88-130 | each expected opinion gate is exactly one of scored, self-declared N/A, malformed gap, missing gap |
| TaskEnvelope.StatusIff | scripts/taskEnvelopeSchema.js:51-69 | which status is projected from eligibility, gaps and the round, and when something is pending |
| TaskEnvelope.CompleteIff | scripts/taskEnvelopeSchema.js:51-69 | complete with nothing pending exactly when the round is eligible and every expected gate scored or declared N/A |
| TaskEnvelope.CompleteMeansPassed | scripts/taskEnvelopeSchema.js:51-62 | then no expected gate failed, the mean is at least four and the minimum at least three |
| VerifierReport.BuildVerifierReport | scripts/verifierReport.js:69-146 | the verdict, said about the lines of the file: FAIL exactly with a failed step, PASS exactly with a step, none failed, a terminal DONE and a clean matching stamp; and the findings that explain it |
| VerifierReport.ParseGateResults | scripts/verifierReport.js:49-57 | the loop over the lines collects every step, in order |
| VerifierReport.ParseGateStamp | scripts/verifierReport.js:32-46 | the early return gives the first line that is a stamp, or nothing when none is |
| VerifierReport.VerdictIff | scripts/verifierReport.js:69-121 | the guard chain over failed steps, completeness and binding problems decides exactly that verdict |
| VerifierReport.ProblemsAre | scripts/verifierReport.js:88-114 | which binding problems are found: a missing stamp, a stamp whose sha and the lower-cased commit differ where both have a character, other chunks than ran, a dirty tree |
| VerifierReport.FindingsExplain | scripts/verifierReport.js:123-143 | the report holds one blocking finding for each failed step, with its name, then a high one for each binding problem |
| VerifierReport.CompleteIff | scripts/verifierReport.js:81-82 | the filter-then-last test says that a DONE is followed by blank lines only |
| VerifierReport.DerivedReportIsWellFormed | scripts/verifierReport.js:116-146 | the validator accepts a derived report exactly when it names its evidence |
| VerifierReport.FailStaysFail | scripts/verifierReport.js:73-76 | appending lines never turns a FAIL into anything else, whatever commit is expected |
| Text.AppendedLines | scripts/verifierReport.js:20-22 | normalising line endings and splitting distributes over appending |
| Text.LinesAre | scripts/verifierReport.js:20-22 | lines with any mixture of the three line ends are read as those lines, and what follows the last end as one more |
| Text.TrimIs | scripts/verifierReport.js:34-34 | trimming takes away the white space around a text and nothing else |
| OpinionProvenance.CheckOpinionProvenance | scripts/opinionReportProvenance.js:45-128 | tables, join and backward scans compute the binding defined on the event list |
| OpinionProvenance.BindingIsSound | scripts/opinionReportProvenance.js:93-125 | a report is bound only to a dispatch of the required reviewer that completed or returned |
| OpinionProvenance.BindsIff | scripts/opinionReportProvenance.js:93-127 | when each agent is acknowledged under one id: bound exactly when such a dispatch exists, to the completed agent heard of last, else to the returned dispatch made last |
| OpinionProvenance.BoundIff | scripts/opinionReportProvenance.js:93-127 | for any transcript: bound to the agent heard of last that last said it completed and whose last acknowledged dispatch with a role has this one, else to the returned dispatch made last, else not |
| OpinionProvenance.FourRoles | scripts/opinionReportProvenance.js:28-33 | the reviewer role of each gate |
| OpinionProvenance.ListsAre | scripts/opinionReportProvenance.js:62-91 | dispatches are listed as they were made, acknowledged ids and agents in the order in which they first occur |
| OpinionProvenance.LatestDispatchIff | scripts/opinionReportProvenance.js:53-108 | when each agent is acknowledged under one id: the completed dispatch made last is the one bound exactly when every other completed agent of the role was heard of before its agent |
| OpinionProvenance.BoundInDispatchOrder | scripts/opinionReportProvenance.js:56-108 | so the most recent dispatch is bound whenever completed agents are heard of in the order of their dispatches |
| OpinionProvenance.LatestDispatchPassedOver | scripts/opinionReportProvenance.js:79-108 | x and y are dispatched, y's agent completes, then x's: the report is bound to x's agent |
| WorkflowProvenance.LatestIsLatest | scripts/workflowDispatchProvenance.js:141-141 | the fold picks the first candidate of the highest order |
| WorkflowProvenance.BoundMeansVouched | scripts/workflowDispatchProvenance.js:125-152 | a bound report transcribes the record of a reviewer of its role, tied to the task, dispatched after the commit, that none came after |
| WorkflowProvenance.LaterReviewDecides | scripts/workflowDispatchProvenance.js:141-151 | with one last reviewer, the report is bound exactly when it is consistent with that reviewer's record and newer than the commit |
| WorkflowProvenance.BoundReportAgrees | scripts/workflowDispatchProvenance.js:100-122 | each blocking finding of a consistent report is quoted in a recorded blocking entry, and the report passes exactly when none was recorded |
| WorkflowProvenance.TiedIff | scripts/workflowDispatchProvenance.js:126-137 | a reviewer is tied to a named task by the directory's name alone, by a label, or by its own prompt |
| WorkflowProvenance.ConsistentIff | scripts/workflowDispatchProvenance.js:100-122 | when a report transcribes a record: agreeing verdict, every finding of twenty characters or more found in a recorded entry, a blocking one in a blocking entry, and no finding only where nothing was recorded |
| GateCli.RunGateReportCli | scripts/gateReportCli.js:113-277 | the command computes the result defined by deriving, binding, confirming, downgrading and reducing, with its errors |
| GateCli.ConfirmedIff | scripts/gateReportCli.js:46-71 | a typed run counts exactly when its id is all digits, GitHub knows it as a run of the gate workflow, and no typed field differs from what GitHub says; what counts is what GitHub says |
| GateCli.GatheredIff | scripts/gateReportCli.js:144-176 | which reports are gathered, or why the command stops |
| GateCli.UnboundIff | scripts/gateReportCli.js:214-238 | a report is unbound exactly when it is an opinion gate's and neither the transcript nor the workflow run binds it |
| GateCli.ResolveIff | scripts/gateReportCli.js:248-260 | a hand-written verifier PASS stays exactly when its reference leads to green results for the commit or cites the counted run, and is downgraded with a finding otherwise |
| GateCli.StopsIff | scripts/gateReportCli.js:128-270 | with which error the command stops before it reduces, and that it otherwise reduces the resolved reports with the confirmed run and the commit |
| GateCli.VerifiedMeansEvidence | scripts/gateReportCli.js:140-176 | what the reducer takes for verified rests on evidence the input names: green results for the commit in its results file or in the file a passing verifier report refers to, or its run, which GitHub confirms |
| GateCli.OpinionReportStands | scripts/gateReportCli.js:208-238 | an opinion report that reaches the reducer was produced by a reviewer of its gate |
| GateCli.EligibleMeansEvidence | scripts/gateReportCli.js:113-277 | end to end, for a non-empty commit: eligible means both of these, for every opinion report and for the verification |
| WorkIndex.BuildGraph | scripts/build-work-index.js:42-81 | the loops compute the graph defined by the edges of the sorted documents |
| WorkIndexLaws.DocsIff | scripts/build-work-index.js:36-44 | the indexed documents are those of the input except the index and the templates |
| WorkIndexLaws.GraphIsSorted | scripts/build-work-index.js:45-76 | documents by path, backlinks by source and name of the field, dangling references by source and target |
| WorkIndexLaws.BacklinksInvertReferences | scripts/build-work-index.js:53-72 | each document has a backlink from another as often as that one refers to it in that field |
| WorkIndexLaws.BacklinksComeFromDocs | scripts/build-work-index.js:69-71 | every backlink stands for a reference of an indexed document |
| WorkIndexLaws.DanglingAre | scripts/build-work-index.js:53-63 | a reference from one document into one of the five directories that finds no document is listed as dangling as often as it is made, any other not at all |
| WorkIndexLaws.DanglingComeFromDocs | scripts/build-work-index.js:53-63 | every dangling reference is made by an indexed document |
| WorkIndexLaws.ReferencesAreConserved | scripts/build-work-index.js:53-72 | self, linked, dangling and external references together are all references |
| WorkIndexLaws.OrphanIff | scripts/build-work-index.js:78-80 | an orphan is an indexed document that refers to nothing but itself and that no other indexed document refers to |
| WorkIndexLaws.OrderOfInputIff | scripts/build-work-index.js:42-81 | every order of the input gives the same graph exactly when no two kept documents tie under the collation |
| WorkIndexLaws.PermutedInputSameGraph | scripts/build-work-index.js:42-81 | in particular permuting input without ties changes nothing |
| WorkIndexLaws.TiesShowInGraph | scripts/build-work-index.js:45-80 | any two distinct paths that tie: two documents without references are listed in the order in which they were read |
| IndexRender.RenderOpen | scripts/build-work-index.js:109-131 | the map filled in document order and its sorted keys give the groups of open tickets |
| IndexRender.RenderIndex | scripts/build-work-index.js:87-195 | the sections hold the open groups, decisions, sorted runs, orphans and dangling references of the graph |
| IndexRender.OpenWorkIsComplete | scripts/build-work-index.js:109-131 | each open ticket stands in the groups as often as among the documents, with its backlinks, and nothing else does |
| IndexRender.GroupsAre | scripts/build-work-index.js:109-131 | one group for each class an open ticket has, ascending, holding the rows of exactly its tickets in document order |
| IndexRender.DecisionsAre | scripts/build-work-index.js:133-150 | the decisions are the rows of the adr documents in order, and orphans and dangling references are the graph's |
| IndexRender.ClassesAre | scripts/build-work-index.js:116-122 | the classes are those of the open tickets, each once, in code-unit order |
| IndexRender.RunsNewestFirst | scripts/build-work-index.js:152-154 | the runs are all there, newest first, and in document order within a date |
| IndexRender.PermutedInputSameIndex | scripts/build-work-index.js:42-195 | permuting input documents of which no two tie renders the same index |
| IndexRender.TiesShowInIndex | scripts/build-work-index.js:42-195 | with them it can: two documents without references whose distinct paths tie |
| IndexRender.RenderOrderIff | scripts/build-work-index.js:42-195 | over the documents with distinct paths in a given set, no order shows in the rendered index exactly when no two distinct indexed paths of the set tie |
| Frontmatter.ParseBlock | scripts/frontmatter.js:43-89 | the nested loops compute the block's data, or fail on the first line that is no field |
| Frontmatter.ParseFrontmatter | scripts/frontmatter.js:21-41 | delimiters, failure cases and body |
| Frontmatter.OutcomeIff | scripts/frontmatter.js:21-41 | no frontmatter without a trimmed opening delimiter, unterminated without an exact closing one, else the block between the two and everything after as the body |
| Frontmatter.ScalarIs | scripts/frontmatter.js:97-101 | which raw values are null, true, false, a number, or text without its quotes |
| Frontmatter.UnquoteIff | scripts/frontmatter.js:104-112 | quotes are taken off exactly when the first and the last character are the same quote, one at each end |
| FrontmatterLines.KeyLineIff | scripts/frontmatter.js:51-54 | a field line is a name of letters, digits and underscores, a colon, and a rest without line terminators, and nothing else is |
| FrontmatterLines.ItemLineIs | scripts/frontmatter.js:67-68 | an entry line is white space, a dash, a blank and the entry |
| FrontmatterLines.ContinuedIs | scripts/frontmatter.js:77-80 | a line continues a map exactly when a pair follows its white space |
| FrontmatterPrinter.ParsePrinted | scripts/frontmatter.js:43-89 | parsing printed fields yields the meaning of each, later ones over earlier ones |
| FrontmatterPrinter.PrintedWithComments | scripts/frontmatter.js:47-49 | comment lines between fields leave no trace |
| FrontmatterPrinter.BadLineFails | scripts/frontmatter.js:51-52 | an unindented line without a colon that is no comment makes the block fail |
| FrontmatterRoundTrip.DocumentRoundTrip | scripts/frontmatter.js:21-41 | a printed document parses into its fields, and any body comes back untouched |
| FrontmatterRoundTrip.QuotedReadsBack | scripts/frontmatter.js:91-112 | quoting protects any one-line text, number-like and bracketed ones included |
| FrontmatterRoundTrip.NumberReadsBack | scripts/frontmatter.js:99-99 | every integer, printed in decimal, is read back as that number |
| FrontmatterRoundTrip.InlineListIff | scripts/frontmatter.js:92-96 | an inline list reads back as its texts exactly when none is empty and none holds a comma |
| FrontmatterRoundTrip.CanonicalReadsBack | scripts/frontmatter.js:43-112 | scalars, inline lists, block lists and lists of flat maps read back as themselves |
| FrontmatterRoundTrip.RecordRoundTrip | scripts/frontmatter.js:21-112 | parsing undoes printing for whole records above any body |
| RunRecord.CheckRun | scripts/check-governance.js:206-244 | the loops compute the findings in order |
| RunRecord.CleanIff | scripts/check-governance.js:206-244 | a record draws no finding exactly when round, omissions, accounting of agents and evidence are in order |
| RunRecord.ReportedIff | scripts/check-governance.js:206-244 | exactly when each finding is reported: a round out of range, an omission without an agent, a reason not in the enum, a waiver without a note, an agent unaccounted or contradictory, a pass without evidence |
| RunRecord.FindingsInOrder | scripts/check-governance.js:206-252 | findings about the round come first, then omissions, agents and evidence |
| RunRecordPrinter.GeneratedRecord | scripts/newRunRecord.js:117-164 | a generated record parses, omits exactly the ten agents, and draws exactly the ten missing-reason findings |
| RunRecordPrinter.ScalarsReadBack | scripts/newRunRecord.js:127-145 | round, selected agents, verdict and archiving come back as written |
| RunRecordPrinter.TaskReads | scripts/newRunRecord.js:117-127 | the task is the first subject as it reads, or the marker when there is none |
| RunRecordPrinter.GivenReads | scripts/newRunRecord.js:126-131 | date and task class come back as their texts read |
| RunRecordPrinter.FixedFieldsReadBack | scripts/newRunRecord.js:126-141 | document type and status come back as their words, the lists left empty as empty lists |
| RunRecordPrinter.TicketsIff | scripts/newRunRecord.js:131-131 | the ticket paths come back as they were exactly when none holds a comma |
| RunRecordPrinter.EvidenceReadsBack | scripts/newRunRecord.js:119-141 | the evidence comes back as one text a commit, in order, then the gate's line |
| MergedTickets.ParseMainLog | scripts/check-governance.js:606-613 | subjects and their files, line by line |
| MergedTickets.LogRoundTrip | scripts/check-governance.js:606-613 | reading the printed lines of any sequence of commits with trimmed subjects and file names gives the commits back |
| MergedTickets.TextRoundTrip | scripts/check-governance.js:606-613 | so does reading their text, when no subject or file name holds a line break |
| MergedTickets.CheckMergedTicketStatus | scripts/check-governance.js:618-634 | the newest-first loop with its growing set computes the findings |
| MergedTickets.DriftInOrder | scripts/check-governance.js:618-634 | the findings stand merge by merge, newest first, and in document order within a merge |
| MergedTickets.FlaggedIff | scripts/check-governance.js:615-634 | a merge is flagged for a document exactly when it names its ticket, the ticket is open, and neither the branch nor a merge up to it edited the ticket |
| MergedTickets.NewerCommitsOnlyClear | scripts/check-governance.js:615-622 | prepending commits never adds findings about older merges, and one that edits the ticket clears them |
| EmailScan.FindEmailCandidates | scripts/security-gate.js:275-294 | the matches are the candidates in order, with scanning work at most twice the length of the line |
| EmailScan.CandidateIff | scripts/security-gate.js:275-294 | the maximal run of local characters and the domain up to its last top-level domain of two letters or more are reported, the character classes written out |
| EmailScan.CandidatesInOrder | scripts/security-gate.js:277-293 | candidates stand in the order of their '@' signs |
| EmailScan.ReportedIsCandidate | scripts/security-gate.js:275-294 | nothing else is reported |
| Sorting.SortIsStable | scripts/build-work-index.js:74-76 | the sort keeps the order of elements that compare equal |
| Sorting.OrderIndependentIff | scripts/build-work-index.js:45-45 | sorting forgets the order it was given exactly when there are no ties |

## Left out

- The rest of `electron/main.js`: dialogs, windows, IPC registration, audit events and the admin mint that follow an approval.
- Deny, revoke and a new pairing request as writers of the device row while an approval waits; a restore overwrites every trust column, so the code makes no claim there. Only the expiry of a Pair-again request is modelled.
- WorkerLeases.LiveLeaseIsNeverReaped: about executions in which no run registers while a removal of its name is pending, because it fails in the others; WorkerLeases.LeaseIsSafeIff is the exact condition over all executions.
- The key that names the lease directory.
- JSON decoding, the substring pre-check and UTF-8 of one transcript line: `parse` is a parameter from bytes to events.
- Regular expressions are parameters where nothing depends on their text: step and stamp lines, ticket numbers in subjects, task ids in prompts and labels, run citations. Those of the frontmatter parser and of the e-mail scanner are written out.
- Files, `git`, `gh`, the clock of commits: fields of `GateCli.World`. Writing the gate report, run hashes and loading a workflow directory are not part of this model.
- Wording of messages; a finding or error carries its kind and the values it names.
- `localeCompare` is a key function `collate` to the reals; two different strings may have equal keys.
- Findings whose reference is not text, gate names that are not text, and object keys such as `__proto__` that a plain object treats specially.
- Numbers in frontmatter are unbounded integers; the host rounds beyond 2^53.
- GateCli.RunGateReportCli: writing the report to its file and recording which workflow run was read are not part of its result.
- IndexRender.RenderIndex: the rows and their order are modelled, not the Markdown around them nor titles and link text.
- RunRecordPrinter.GeneratedRecord: the fixed prose below the frontmatter is an arbitrary body; collecting subjects, ticket references and the gate's summary line from git and logs is not modelled.
- GateReduceLaws.PermutationInvariant: says that flags are equal when no references tie; the exact condition is GateFlagOrder.ReportOrderIff.
- The other checks of `check-governance.js` and `security-gate.js`: independent scans of single files with one pattern each.
- `gateLock.js`, the runners that only order effects under faults, and the scheduling, merge and sync engines.
