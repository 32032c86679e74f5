# Verified model of greppy's measurement and release machinery

Greppy's repository guards its releases with a good deal of code that counts, selects, schedules,
audits and signs: the lock-free query diagnostics, the statistics of two release gates, the choice of
benchmark tasks, the parallel scheduler with its quota breaker, the checkpointed benchmark loop, the
SBOM rewrite and release staging, the ground-truth pipeline, three transcript parsers and the audit of
the fine-tuning data. This project models that code in Dafny and proves what it is relied on for.

`dafny verify dfyconfig.toml` checks everything.

## How it is organised

| module | subject |
|---|---|
| Sequences, Strings | sums, filters, sorting, permutations; text helpers |
| Samples, Diagnostics, Snapshots | the sample ring and percentiles; `record_query` as a step machine over any number of threads; snapshots taken while it runs |
| Binomial, ReleaseGate, CodingGate, GateChanges | exact binomial tails; the two release gates built on them; what changed rows do to a coding grade |
| Apportionment, TaskSelection | largest-remainder quotas; evenly spaced picks under a shared budget |
| QuotaStreak, Scheduler | the quota-error streak; the parallel scheduler and its circuit breaker |
| Checkpoint | the checkpoint/resume loop with crashes between any two steps |
| Sbom, SbomRewrite, SbomFile | the SBOM document, what a rewrite achieves, and the document as a mutable object |
| ChecksumText, Staging | the SHA256SUMS format; staging and verifying a release directory |
| Worklists | two graph searches |
| Corpus, GroundTruth, GroundTruthAudit | a repository as the oracle sees it; candidate building; the stability intersection and the audit |
| TranscriptLines, Transcripts | one transcript line as JSON, read by three parsers; their totals and their agreement |
| SftAudit | the provenance join |

## Modelling decisions

* Shares, ratios and p-values are exact rationals or reals; floating-point rounding is not modelled.
  The coding gate's cost ratio keeps its rounding to six decimals.
* Counters of the diagnostics are 64-bit and wrap. Threads interleave under sequential consistency, one
  atomic operation or one section under the sample lock per step, and a weak compare-exchange may fail
  for no reason.
* Digests are functions passed in. The SBOM statements assume them injective where they say so, staging
  assumes only that no two files of the two directories compared collide, and the fine-tuning audit
  assumes nothing because the code looks for collisions itself.
* Tests on program text (regular expressions over source lines, name lists, shell commands) are
  predicates passed in. Nothing is assumed of them, but for one statement about the audit, which says
  how the line tests of build and audit fit together (`GroundTruthAudit.TestsAgree`).
* Transcript lines are arbitrary JSON. Numbers are real, infinities and not-a-numbers apart; the keys
  the parsers look at have names of their own.
* The environment of the scheduler is a function that picks which pending futures complete; the
  environment of the checkpoint loop is the choice of steps.
* An exception becomes `None` or `false`, and the conditions for it are stated in both directions.

Properties that turned out to hold only under a condition, with the condition proved exact:

* errors <= count: all runs of up to n calls, if and only if n < 2^64 (`Diagnostics.ErrorsAtMostCountIff`).
* errors <= count in a snapshot taken below the wrap, and its error rate in [0, 1]: all snapshots with
  at most k failures recorded between its two loads, if and only if k = 0; the excess reaches every k
  (`Snapshots.OverlapCoherentIff`, `Snapshots.OverlapRateIff`, `Snapshots.ExcessReached`).
* p95 <= max in such a snapshot: all with at most k calls leaving the CAS loop between the load of
  the maximum and the copy of the ring, if and only if k = 0 (`Snapshots.OverlapPercentileIff`);
  mean <= max: if and only if no call is counted between the loads of count and total and none has
  added a latency that the loaded maximum need not cover (`Snapshots.OverlapMeanIff`).
* order of result rows: the grade's index ignores it if and only if no key carries two different rows
  (`CodingGate.IndexOrderBlindIff`); finished runs meet that.
* the coding gate as a whole is not monotone, although its correctness part is
  (`GateChanges.BetterRowCanFail`): a gate that passed keeps passing if and only if the old totals,
  corrected by the pairs that start and stop being solved, stay enough and no dearer
  (`GateChanges.PassingKeptIff`). The release gate is monotone throughout (`ReleaseGate.GateMonotone`).
* the two quota streaks: within agents - 1 of each other in all runs with at most k resumed sessions, if
  and only if k = 0 (`QuotaStreak.ResumedBoundIff`). Otherwise the orchestrator's count can fall short of
  the benchmark's by up to 8, where the benchmark exits, and does (`QuotaStreak.ResumedRange`,
  `QuotaStreak.LimitReached`).
* staging then verifying: succeeds if and only if the asset names fit the SHA256SUMS line format
  (`Staging.StagedVerifiesIff`). The contract check itself admits more names
  (`Staging.ValidContractNotVerified`).
* the audit of built candidates: scan 4 and the shape half of scan 6 are not implied by the build
  filters; each is clean if and only if a stated condition holds (`GroundTruthAudit.PseudoScanIff`,
  `GroundTruthAudit.ShapeScanIff`).
* parser agreement: each parser reads a transcript if and only if its own condition holds
  (`Transcripts.CrossCheck`). The harness reads least, and every other way for the three to part is
  exhibited (`Transcripts.HarnessAloneRaises` and the lemmas after it).
* resuming: a run directory is stuck, whatever run is tried and for ever, if and only if it holds results
  without a manifest and no process is left (`Checkpoint.StuckIff`); that takes a crash between the two
  file writes of the very first checkpoint (`Checkpoint.StuckOnlyByFirstCrash`).

Where the code and its words disagree the model follows the code: the comment beside the coding
benchmark's retry loop speaks of two retries of provider errors only and of no retry after a harness
failure, while the loop makes up to four and retries both (`bench/agent_coding/run_benchmark.py:1261-1302`);
the preregistration text puts every token ratio at 0.80 (line 1105) while the code compares the cost
ratio with 1 (line 904).

## Model

| member | source | states |
|---|---|---|
| Samples.SampleRing.Push | crates/core/src/diag.rs:58-70 | the in-place push is the abstract push, in every branch |
| Samples.PushRetains | crates/core/src/diag.rs:58-70 | after n pushes the ring holds exactly the last min(n, 4096) samples, sample j in slot j mod 4096, next = n mod 4096, wrapped from sample 4096 on |
| Samples.RetainedIsTail | crates/core/src/diag.rs:58-70 | as a multiset the buffer is the tail of the history, wherever the write position stands |
| Samples.PercentileIsNearestRank | crates/core/src/diag.rs:181-191 | the reported percentile is the smallest retained sample that at least pct percent of the samples do not exceed |
| Samples.PercentileOrderBlind | crates/core/src/diag.rs:145-153 | a percentile depends on the multiset of retained samples only |
| Samples.PercentileMonotone | crates/core/src/diag.rs:181-191 | percentiles never fall as pct rises, for every pct including those clamped |
| Diagnostics.NextKeepsInvariant | crates/core/src/diag.rs:98-122 | every atomic step of any call, a spurious CAS failure included, keeps the machine invariant (counters, maximum, ring, pushed samples) |
| Diagnostics.RunInvariant | crates/core/src/diag.rs:98-122 | the invariant holds in every state of every interleaving of any number of calls |
| Diagnostics.NextKeepsOrder | crates/core/src/diag.rs:107-117 | no step lowers the maximum |
| Diagnostics.InFlightExact | crates/core/src/diag.rs:98-122 | at any moment: the count is the calls past their first add; the maximum is 0 or the latency of a call that left the CAS loop, covers all calls that left it, and never falls |
| Diagnostics.QuiescentExact | crates/core/src/diag.rs:98-122 | when all calls are done every counter is exact (modulo 2^64), the maximum is the largest latency, and the ring holds the newest of exactly these latencies |
| Diagnostics.ErrorsAtMostCount | crates/core/src/diag.rs:98-105 | errors <= count in every state of a run of fewer than 2^64 calls |
| Diagnostics.ErrorsAtMostCountIff | crates/core/src/diag.rs:98-105 | the bound holds in all runs of up to n calls exactly when n < 2^64 |
| Diagnostics.WrappedRun | crates/core/src/diag.rs:98-105 | a concrete interleaving of 2^64 calls that ends with more errors than calls |
| Snapshots.RunGrows | crates/core/src/diag.rs:98-122 | unwrapped counters and the maximum only grow along a run |
| Snapshots.SnapshotBracketed | crates/core/src/diag.rs:136-142 | below the wrap each loaded counter lies between its values at the snapshot's start and end |
| Snapshots.UndisturbedSnapshot | crates/core/src/diag.rs:136-164 | a snapshot that overlaps no record has errors <= count, error rate in [0, 1], mean <= max and p50 <= p95 <= max, even if the total has wrapped |
| Snapshots.OverlapExcess | crates/core/src/diag.rs:136-142 | the loaded errors exceed the loaded count by no more than the failures recorded between the two loads |
| Snapshots.ExcessReached | crates/core/src/diag.rs:136-142 | that excess is reached for every number of failures below 2^64 |
| Snapshots.OverlapCoherentIff | crates/core/src/diag.rs:136-142 | all snapshots with at most k failures between the loads have errors <= count exactly when k is 0 |
| Snapshots.OverlapRateIff | crates/core/src/diag.rs:216-222 | their error rates all lie in [0, 1] exactly when k is 0 |
| Snapshots.OverlapBreaksRate | crates/core/src/diag.rs:216-222 | a run with one failure between the loads whose snapshot reports an error rate of 2 |
| Snapshots.OverlapPercentileIff | crates/core/src/diag.rs:136-164 | all snapshots during which at most k calls leave the CAS loop between the load of the maximum and the copy of the ring have p95 <= max exactly when k is 0 |
| Snapshots.OverlapMeanIff | crates/core/src/diag.rs:136-152 | all snapshots with at most j calls counted between the loads of count and total, and at most k calls whose added latency has not reached the loaded maximum, have mean <= max exactly when both are 0 |
| Snapshots.MedianBelowP95 | crates/core/src/diag.rs:143-164 | p50 <= p95 in every snapshot, since both read one copy of the ring |
| Binomial.ChooseIsFactorialQuotient | bench/agent_efficiency/release_gate.py:43 | the recursive coefficients are the factorial quotients that a combination count is |
| Binomial.TailComplement | bench/agent_coding/run_benchmark.py:858-862 | binomial symmetry of tails: the upper tails from k and from n + 1 - k add up to 2^n |
| Binomial.TailAtLeastHalf | bench/agent_coding/run_benchmark.py:858-862 | with losses <= wins the exact tail is at least one half |
| Binomial.ExactIsProbability | bench/agent_coding/run_benchmark.py:858-862 | the exact p-value lies in (0, 1], is at least 1/2 when losses <= wins, and equals the release gate's value otherwise |
| Binomial.SameVerdict | bench/agent_efficiency/release_gate.py:38-44 | shortcut and full tail reach the same verdict at every threshold up to 1/2, and pass whenever losses <= wins |
| Binomial.LossLowersP | bench/agent_coding/run_benchmark.py:858-862 | one more loss strictly lowers the p-value |
| Binomial.WinRaisesP | bench/agent_coding/run_benchmark.py:858-862 | one more win never lowers the p-value, and strictly raises it when there is a loss |
| Binomial.ExactMonotone | bench/agent_coding/run_benchmark.py:858-862 | fewer losses and more wins never lower the exact p-value |
| Binomial.OneSidedMonotone | bench/agent_efficiency/release_gate.py:38-44 | the same for the release gate's shortcut, across its branch |
| ReleaseGate.CountOutcomes | bench/agent_efficiency/release_gate.py:78-96 | the loop counts each outcome exactly, and losses, wins, ties and ungraded rows add up to the comparable rows |
| ReleaseGate.BetterRowsKeepPassing | bench/agent_efficiency/release_gate.py:84-114 | turning any rows from loss to tie or win, or from tie to win, keeps passing correctness checks passing and never lowers the p-value |
| ReleaseGate.SignificanceCheckRedundant | bench/agent_efficiency/release_gate.py:108-113 | wins >= losses alone already decides the three correctness checks |
| ReleaseGate.MetricRatio | bench/agent_efficiency/release_gate.py:47-66 | a ratio exists exactly when the baseline's total is positive, and takes that total to the candidate's; the count is the rows measured on both sides |
| ReleaseGate.CheckMetric | bench/agent_efficiency/release_gate.py:114-117 | the check passes exactly when the candidate's total is at most four fifths of a positive baseline total |
| ReleaseGate.Gate | bench/agent_efficiency/release_gate.py:77-139 | the gate passes exactly when the correctness checks and all three efficiency checks on the structural rows do |
| ReleaseGate.TotalsNoDearer | bench/agent_efficiency/release_gate.py:98-107 | rows with no higher candidate metrics have the same baseline total and no higher candidate total over the structural rows |
| ReleaseGate.GateMonotone | bench/agent_efficiency/release_gate.py:77-139 | the whole gate is monotone: better outcomes at no higher candidate metrics never fail a gate that passed |
| CodingGate.IndexRows | bench/agent_coding/run_benchmark.py:870 | the loop builds the index in which a later row replaces an earlier one |
| CodingGate.PairUp | bench/agent_coding/run_benchmark.py:871-879 | pairs exactly the tasks with two valid rows, and lists the others, both in task order |
| CodingGate.CountPairs | bench/agent_coding/run_benchmark.py:881-902 | counts one-sided and two-sided successes, and the costs of the pairs both arms solve |
| CodingGate.CompleteIff | bench/agent_coding/run_benchmark.py:912 | the grade is complete exactly when every task has a valid row for each arm |
| CodingGate.NoDearerIsRoundedRatio | bench/agent_coding/run_benchmark.py:903-904 | comparing the six-decimal rounded cost ratio with 1 is the stated inequality between the costs |
| CodingGate.GradeResults | bench/agent_coding/run_benchmark.py:869-913 | the grading loop equals the specified grade of the indexed pairs |
| CodingGate.SameRowsSameIndex | bench/agent_coding/run_benchmark.py:870 | rows without conflicting keys give the same index in every order |
| CodingGate.IndexOrderBlindIff | bench/agent_coding/run_benchmark.py:870-879 | the row index is blind to row order exactly when no key carries two different rows |
| CodingGate.IndexRelated | bench/agent_coding/run_benchmark.py:870 | whatever relates rows one by one relates the indexed rows key by key |
| CodingGate.PairsRelated | bench/agent_coding/run_benchmark.py:871-879 | and the paired rows pair by pair, the same tasks being paired |
| CodingGate.BetterRowsKeepPassing | bench/agent_coding/run_benchmark.py:881-906 | improving any rows in the candidate's favour keeps both correctness checks passing and the set of pairs unchanged |
| CodingGate.SignificanceCheckRedundant | bench/agent_coding/run_benchmark.py:905-906 | observed correctness not lower implies no significant regression |
| GateChanges.SolvedShifts | bench/agent_coding/run_benchmark.py:884-902 | the solved pairs and their costs change by exactly the pairs that start and stop being solved |
| GateChanges.PassingKeptIff | bench/agent_coding/run_benchmark.py:869-919 | after rows improve, a gate that passed still passes exactly when the old counts and totals, corrected by the pairs that start and stop being solved, are still enough and no dearer |
| GateChanges.KeptIffBaselineStays | bench/agent_coding/run_benchmark.py:869-919 | with the baseline's rows unchanged solved pairs never fall, and the gate is kept exactly when the old totals plus the newly solved pairs' costs are no dearer |
| GateChanges.KeptIffCandidateStays | bench/agent_coding/run_benchmark.py:869-919 | with the candidate's rows unchanged the gate is kept exactly when enough pairs stay solved and the totals without the dropped ones are no dearer |
| GateChanges.PairsRoundTrip | bench/agent_coding/run_benchmark.py:870-879 | any pairs with distinct tasks are what the grading loop makes of their rows |
| GateChanges.BetterRowCanFail | bench/agent_coding/run_benchmark.py:869-919 | sixty rows of thirty distinct tasks that pass, and stop passing when one candidate failure is judged a success at unchanged cost |
| Apportionment.FillCyclic | bench/agent_efficiency/gen_real_tasks.py:429-435 | the cyclic fill loop terminates from every start, exceeds no cap, takes nothing back, loses no unit, and serves exactly the first entries of the order when one pass suffices |
| Apportionment.LargestRemainder | bench/agent_efficiency/gen_real_tasks.py:417-436 | for every total the quotas respect the sizes and sum to min(total, pool); with total <= pool each is the floor or ceiling of its share, the extras going to the largest fractions, ties to the earlier repository |
| Apportionment.SharesAddUp | bench/agent_efficiency/gen_real_tasks.py:422-424 | floors and fractions of the proportional shares add up to the total |
| Apportionment.LeftoverReachesOnlyFractions | bench/agent_efficiency/gen_real_tasks.py:424-428 | the left-over units never reach a repository whose share has no fraction |
| Apportionment.LeftoverFitsOnePass | bench/agent_efficiency/gen_real_tasks.py:429-435 | with total <= pool one pass over the order places every left-over unit |
| Apportionment.OnePassIsApportionment | bench/agent_efficiency/gen_real_tasks.py:422-436 | one pass from the floors meets the apportionment rule |
| Apportionment.ApportionmentUnique | bench/agent_efficiency/gen_real_tasks.py:417-436 | the rule determines the quotas: two results that meet it are equal |
| TaskSelection.IndexInRange | bench/agent_efficiency/gen_real_tasks.py:439-443 | every picked index is inside the list |
| TaskSelection.IndexGap | bench/agent_efficiency/gen_real_tasks.py:439-443 | neighbouring picks are floor(n/k) or ceil(n/k) apart |
| TaskSelection.IndexIncreasing | bench/agent_efficiency/gen_real_tasks.py:439-443 | picked indices strictly increase |
| TaskSelection.EvenlySpaced | bench/agent_efficiency/gen_real_tasks.py:439-443 | a pick has min(k, n) items, all from the list |
| TaskSelection.PicksDistinct | bench/agent_efficiency/gen_real_tasks.py:439-443 | picking from distinct items picks distinct items |
| TaskSelection.PickQuotas | bench/agent_efficiency/gen_real_tasks.py:822-828 | each repository's quota is picked evenly, and quota and remaining cap add up to the cap |
| TaskSelection.SelectClass | bench/agent_efficiency/gen_real_tasks.py:819-836 | one class takes an apportionment of its total under the caps left, picked evenly, and lowers each cap by what it took |
| TaskSelection.SymbolsDistinct | bench/agent_efficiency/gen_real_tasks.py:786-791 | a pool drawn from targets with distinct symbols repeats none |
| TaskSelection.DrawnIsDisjoint | bench/agent_efficiency/gen_real_tasks.py:786-791 | picks drawn from the three pools of a repository share no symbol, and graph and research picks repeat none |
| TaskSelection.BuildClasses | bench/agent_efficiency/gen_real_tasks.py:786-865 | the three classes together take at most 16 tasks per repository, share no symbol, repeat none in graph or research, and each apportions its total over what the earlier ones left |
| QuotaStreak.CountConsecutive | bench/agent_efficiency/parallel_acceptance_run.py:478-500 | folding one result file is the running count over its sessions in the fixed agent order; an unreadable file changes nothing |
| QuotaStreak.StreakIsTrailingRun | bench/agent_efficiency/parallel_acceptance_run.py:478-500 | over all files the count is the trailing error run of the concatenated session stream |
| QuotaStreak.ReorderingDrift | bench/agent_efficiency/run_bench.py:887-905 | two streams whose tasks are alike, each of the same number of sessions and with a healthy one in both or in neither, have trailing runs that differ by less than one task's width |
| QuotaStreak.StreakDrift | bench/agent_efficiency/parallel_acceptance_run.py:46-48 | after any number of tasks, the streak in the fixed order and the streak in any per-task permutation differ by at most agents - 1 |
| QuotaStreak.DriftReached | bench/agent_efficiency/run_bench.py:221-228 | the bound is reached, in any fixed order, by one task of any number of its agents and a permutation of that order |
| QuotaStreak.DriftReachedInRunOrder | bench/agent_efficiency/parallel_acceptance_run.py:46-48 | and so in the orchestrator's own order, for up to five agents |
| QuotaStreak.ResumedOnlyReset | bench/agent_efficiency/run_bench.py:872-904 | a resumed session, being healthy, can only shorten the orchestrator's streak |
| QuotaStreak.ResumedDrift | bench/agent_efficiency/run_bench.py:872-904 | with resumed sessions, which only the orchestrator counts, its streak still exceeds the benchmark's by at most agents - 1 |
| QuotaStreak.ResumedRange | bench/agent_efficiency/run_bench.py:887-907 | in every run the benchmark can make before it exits at 8, its count is at most 8, the orchestrator's exceeds it by at most agents - 1, and falls short of it by at most 8 |
| QuotaStreak.OneResumedBreaks | bench/agent_efficiency/run_bench.py:872-907 | one resumed session in the last task leaves the benchmark at agents and the orchestrator at 0 |
| QuotaStreak.ResumedBoundIff | bench/agent_efficiency/run_bench.py:872-907 | in any fixed order, the two streaks stay within agents - 1 of each other in all runs with at most k resumed sessions exactly when k is 0 |
| QuotaStreak.ResumedBoundInRunOrder | bench/agent_efficiency/parallel_acceptance_run.py:46-48 | the same in the orchestrator's own order, for one to five agents |
| QuotaStreak.LimitReached | bench/agent_efficiency/run_bench.py:906 | with two agents or more, a run with one resumed session leaves the benchmark at its limit 8 and the orchestrator at 0 |
| Scheduler.LegalRunSafety | bench/agent_efficiency/parallel_acceptance_run.py:402-465 | in every legal run: in flight <= workers at every moment, tasks start once and in list order, nothing starts after the breaker, no result is taken twice or before its start |
| Scheduler.LegalBounds | bench/agent_efficiency/parallel_acceptance_run.py:405-424 | at every moment 0 <= started - finished <= workers and started <= tasks |
| Scheduler.SubmitNext | bench/agent_efficiency/parallel_acceptance_run.py:405-414 | submits the next task of the list if one is left and keeps the pool lawful |
| Scheduler.TakeResult | bench/agent_efficiency/parallel_acceptance_run.py:423-424 | takes exactly one pending result |
| Scheduler.JudgeResult | bench/agent_efficiency/parallel_acceptance_run.py:434-448 | trips on the worker's own breaker exit or when the folded streak reaches the limit |
| Scheduler.JudgedIsDue | bench/agent_efficiency/parallel_acceptance_run.py:434-448 | the judgement, result by result, equals the breaker condition stated over all results so far |
| Scheduler.Record | bench/agent_efficiency/parallel_acceptance_run.py:422-448 | recording a result keeps the pool lawful, and the breaker set exactly when it is due |
| Scheduler.Complete | bench/agent_efficiency/parallel_acceptance_run.py:422-450 | after each completion every free worker is busy, unless the list is exhausted or the breaker is set |
| Scheduler.StartCounts | bench/agent_efficiency/parallel_acceptance_run.py:405-414 | submitting keeps the pending set as large as submitted minus done |
| Scheduler.StartAll | bench/agent_efficiency/parallel_acceptance_run.py:416-417 | the initial loop fills every worker |
| Scheduler.CompleteBatch | bench/agent_efficiency/parallel_acceptance_run.py:422-450 | handling a batch of completions keeps the pool lawful, saturated and its breaker due |
| Scheduler.DrainedIsFinished | bench/agent_efficiency/parallel_acceptance_run.py:418-475 | an empty pool without breaker means every task finished |
| Scheduler.RunParallelBench | bench/agent_efficiency/parallel_acceptance_run.py:377-475 | for every environment: the run is legal, the breaker trips exactly when due, without it every task is done, exit 3 iff tripped, 0 iff not tripped and every task returned 0 |
| Checkpoint.ValidateResumeRows | bench/agent_coding/run_benchmark.py:1139-1157 | accepts exactly well-formed entries of selected tasks with distinct keys, unchanged |
| Checkpoint.OrderedKeepsRows | bench/agent_coding/run_benchmark.py:992 | a checkpoint lists exactly the rows in memory |
| Checkpoint.NextKeepsInvariant | bench/agent_coding/run_benchmark.py:1231-1313 | every step of the loop, crashes inside a checkpoint included, keeps keys distinct, memory and files in step, and all earlier tasks complete |
| Checkpoint.HistoryInvariant | bench/agent_coding/run_benchmark.py:1231-1313 | the invariant holds throughout every history of boots, failures, crashes and resumes |
| Checkpoint.CheckpointsGrow | bench/agent_coding/run_benchmark.py:984-1003 | every saved row stays, unchanged, in every later checkpoint |
| Checkpoint.CheckpointedArmNeverRuns | bench/agent_coding/run_benchmark.py:1256-1258 | once an arm's row is checkpointed no process starts that arm again |
| Checkpoint.FinishedCount | bench/agent_coding/run_benchmark.py:1236-1315 | a finished loop over distinct tasks holds two rows per task |
| Checkpoint.FinishedIsComplete | bench/agent_coding/run_benchmark.py:1236-1315 | a finished loop holds exactly one row per task and arm, its checkpoint the same rows, and both grade alike |
| Checkpoint.BootBlockedIff | bench/agent_coding/run_benchmark.py:1200-1227 | a boot as a given run is impossible exactly when there are results without a manifest or with another run's |
| Checkpoint.StuckIff | bench/agent_coding/run_benchmark.py:1200-1227 | a reachable run directory is stuck, no step being possible for any run ever after, exactly when it holds results without a manifest and no process is left |
| Checkpoint.StuckOnlyByFirstCrash | bench/agent_coding/run_benchmark.py:984-1003 | that state arises in one way: a crash right after the very first results were saved |
| Checkpoint.IdentityKept | bench/agent_coding/run_benchmark.py:1131-1136 | once written, the manifest names the same run for ever |
| Checkpoint.FirstCheckpointCrash | bench/agent_coding/run_benchmark.py:1002-1003 | it is reachable: a crash between the two writes of the first checkpoint |
| Checkpoint.RunWithRetries | bench/agent_coding/run_benchmark.py:1260-1304 | at most five attempts, every one but the last a harness error or provider flake, and the last attempt decides the row |
| Sbom.IdFamilies | tools/release_artifacts.py:292-301 | release, lock and file identifiers never coincide and are never empty |
| Sbom.FileIdInjective | tools/release_artifacts.py:300-301 | file identifiers coincide only for equal paths |
| Sbom.CargoIdInjective | tools/release_artifacts.py:292-297 | lock identifiers coincide exactly for equal name, version and source |
| SbomRewrite.AugmentedIdsOk | tools/release_artifacts.py:358-467 | after a rewrite the identifiers are non-empty and unique exactly when the surviving foreign ones are and the lock repeats no identity |
| SbomRewrite.AugmentedRelations | tools/release_artifacts.py:426-467 | the release package contains exactly the dist files and locks exactly the lock packages |
| SbomRewrite.AugmentedFilesOk | tools/release_artifacts.py:534-545 | every dist file passes the verifier's file check |
| SbomRewrite.AugmentedLockOk | tools/release_artifacts.py:559-587 | every lock package passes the verifier's lock check |
| SbomRewrite.AugmentedAcceptedIff | tools/release_artifacts.py:345-587 | the separately coded verifier accepts a rewrite exactly when the base is valid, the lock repeats no identity and the surviving identifiers are sound |
| SbomRewrite.ForeignPreserved | tools/release_artifacts.py:361-383 | everything that carries or mentions no generated identifier stays, in order |
| SbomRewrite.RewriteIsFixpoint | tools/release_artifacts.py:345-470 | repeating the same rewrite changes nothing |
| SbomRewrite.AnySequenceAccepted | tools/release_artifacts.py:345-587 | any sequence of rewrites with changing dist, lock and target ends in a document accepted for the last inputs, identifiers unique throughout |
| SbomRewrite.CodeOrderBlind | tools/release_artifacts.py:385-388 | the package verification code does not depend on the order of the files |
| SbomFile.SbomDocument.Augment | tools/release_artifacts.py:345-470 | the in-place rewrite is the specified one, writes nothing when an input is refused, and reports the verifier's verdict |
| SbomFile.SbomDocument.Verify | tools/release_artifacts.py:481-587 | accepts exactly the documents of the declarative acceptance rule |
| SbomFile.UniqueIds | tools/release_artifacts.py:501-507 | the scan accepts exactly non-empty, pairwise distinct identifiers |
| SbomFile.PackageMap | tools/release_artifacts.py:509 | the lookup table maps each identifier to its last package |
| SbomFile.FileMap | tools/release_artifacts.py:524 | the lookup table maps each identifier to its last file |
| SbomFile.AppendFiles | tools/release_artifacts.py:412-432 | appends one entry and one CONTAINS relation per dist file |
| SbomFile.AppendLock | tools/release_artifacts.py:438-467 | appends one entry and one OTHER relation per lock package, and stops exactly at a malformed checksum |
| SbomFile.AllFilesOk | tools/release_artifacts.py:534-545 | accepts exactly when every dist file matches its entry |
| SbomFile.AllLocked | tools/release_artifacts.py:559-587 | accepts exactly when every lock package matches its entry |
| ChecksumText.SplitRender | tools/release_artifacts.py:800-804 | splitting rendered lines gives the lines back |
| ChecksumText.ParseSums | tools/release_artifacts.py:866-881 | the parsing loop rejects non-ASCII text, malformed lines and repeated names, and otherwise yields the map of the lines |
| ChecksumText.ParseRenderedLine | tools/release_artifacts.py:800-802 | a rendered line parses to its digest and name |
| ChecksumText.ParsedNamesClean | tools/release_artifacts.py:873-881 | every parsed name is non-empty ASCII without separators or line breaks |
| ChecksumText.SumsRoundTrip | tools/release_artifacts.py:797-805 | parsing the rendered SHA256SUMS gives back exactly the name-to-digest map |
| Staging.LoadContract | tools/release_artifacts.py:696-727 | accepts exactly the valid contracts |
| Staging.StagedManifestOk | tools/release_artifacts.py:774-795 | the written manifest passes the manifest check |
| Staging.StagedSumsOk | tools/release_artifacts.py:797-805 | with clean names the written SHA256SUMS passes the sums check |
| Staging.AcceptedNamesClean | tools/release_artifacts.py:866-889 | if SHA256SUMS is accepted then every other asset name fits the line format |
| Staging.StagedVerifiesIff | tools/release_artifacts.py:767-889 | what staging writes passes verification exactly when every asset name but SHA256SUMS fits the line format |
| Staging.ValidNameMayNotFit | tools/release_artifacts.py:709-719 | a valid contract whose asset name, with a backslash, does not fit the line format |
| Staging.ValidContractNotVerified | tools/release_artifacts.py:752-889 | whatever its sources, that contract never verifies once staged |
| Staging.ManifestFixesAssets | tools/release_artifacts.py:848-864 | two accepted directories with the same manifest agree on the bytes of every ordinary asset, unless two of their files collide |
| Staging.SumsFixDirectory | tools/release_artifacts.py:866-889 | two accepted directories with the same SHA256SUMS have the same bytes throughout, unless two of their files collide |
| Staging.StagingArea.Stage | tools/release_artifacts.py:752-808 | succeeds exactly for a valid contract, an empty directory, complete sources and clean names; states what success and each kind of failure leave in the directory |
| Staging.StagingArea.VerifyStaged | tools/release_artifacts.py:811-889 | accepts exactly the directories of the declarative rule |
| Staging.CheckManifest | tools/release_artifacts.py:828-864 | accepts exactly the manifests that describe the directory in contract order |
| Worklists.JavaAncestors | bench/agent_efficiency/real_corpus.py:707-714 | terminates on every graph, cycles included, with exactly the types reached over one or more edges |
| Worklists.SearchStep | bench/agent_efficiency/real_corpus.py:708-714 | popping one type keeps the search invariant |
| Worklists.Discover | bench/agent_efficiency/real_corpus.py:710-713 | marks exactly the given supertypes and pushes each new one |
| Worklists.JavaReceiverRelated | bench/agent_efficiency/real_corpus.py:717-727 | related exactly when equal, a subtype of the owner, or a declared supertype of it |
| Worklists.ChildrenAreListed | bench/agent_efficiency/large_repo_stress.py:371-382 | the child lists say exactly who names whom as parent |
| Worklists.ReadListing | bench/agent_efficiency/large_repo_stress.py:371-382 | the parsing loop builds the specified maps, unparsable lines skipped |
| Worklists.RssKbTree | bench/agent_efficiency/large_repo_stress.py:360-393 | terminates on every listing and returns the sum over exactly the processes reachable from the root, each counted once, or 0 without a listing |
| Worklists.TotalUnique | bench/agent_efficiency/large_repo_stress.py:383-393 | that sum is the same for every such enumeration |
| Corpus.UniqueNames | bench/agent_efficiency/real_corpus.py:996-1014 | exactly the names defined once that pass the name filters, with exact counts |
| Corpus.DedupSourcesFiles | bench/agent_efficiency/real_corpus.py:1330-1341 | removing duplicates and sorting keeps the set of caller files |
| Corpus.IntersectRuns | bench/agent_efficiency/real_corpus.py:1049-1070 | keeps an edge exactly when every indexing run reports it, each once |
| Corpus.GroupEdges | bench/agent_efficiency/real_corpus.py:1119-1126 | groups the edges of uniquely named targets by definition |
| GroundTruth.VerifySources | bench/agent_efficiency/real_corpus.py:1444-1488 | all sources are kept, each with its first admissible line, or the target is rejected for a source without evidence or with shadowed evidence |
| GroundTruth.CheckCallers | bench/agent_efficiency/real_corpus.py:1144-1194 | the six filters on callers find something to blame exactly when one of them fails, and then blame the first that does |
| GroundTruth.JudgeTarget | bench/agent_efficiency/real_corpus.py:1139-1275 | a target survives exactly when it passes all eleven filters, and is written with its sources and evidence; otherwise the reason names the first filter, in the order of the source, that it fails |
| GroundTruth.JudgeAll | bench/agent_efficiency/real_corpus.py:1139-1275 | the survivors are the candidates of the groups in order, and survivors plus rejections are the groups |
| GroundTruth.SurvivorsSorted | bench/agent_efficiency/real_corpus.py:1139 | survivors are sorted by name, file and line, and none repeats |
| GroundTruth.BuildCandidates | bench/agent_efficiency/real_corpus.py:1047-1283 | the survivors are exactly the candidates of the uniquely named targets of edges found in every run, sorted; every group survives or is counted as rejected |
| GroundTruthAudit.StabilityIntersect | bench/agent_efficiency/real_corpus.py:1304-1327 | keeps exactly the targets of the first build that are field for field the same in every build, and counts the rest |
| GroundTruthAudit.AuditTarget | bench/agent_efficiency/real_corpus.py:1698-1796 | reports exactly the scans that catch a target, and the number of hits of all scans on it |
| GroundTruthAudit.Audit | bench/agent_efficiency/real_corpus.py:1692-1807 | reports exactly which scans catch which written targets, and the total number of hits |
| GroundTruthAudit.CountScan | bench/agent_efficiency/real_corpus.py:1698-1796 | a scan hits a target once, once a member or once a line of evidence, as the source counts it |
| GroundTruthAudit.CaughtIffHit | bench/agent_efficiency/real_corpus.py:1698-1796 | a scan catches a target exactly when it counts at least one hit |
| GroundTruthAudit.CallerFilesAreSourceFiles | bench/agent_efficiency/real_corpus.py:1247-1259 | the caller files the audit reads are exactly the files of the judged sources |
| GroundTruthAudit.ReportedFiles | bench/agent_efficiency/real_corpus.py:1700-1701 | and those are the files of all edges into the target, although duplicates were dropped |
| GroundTruthAudit.EvidenceFound | bench/agent_efficiency/real_corpus.py:1444-1488 | every written evidence line was accepted for some source and is not shadowed |
| GroundTruthAudit.CandidateIsClean | bench/agent_efficiency/real_corpus.py:1698-1796 | a target that passed the build filters passes audit scans 1, 2, 3, 5, 7 and 8 and the shadowing half of scan 6 |
| GroundTruthAudit.ShapeScanIff | bench/agent_efficiency/real_corpus.py:1743-1765 | the shape half of scan 6 never catches a CALLS candidate nor a function, and a method exactly for evidence in another file's use clause of restricted visibility that names it bare |
| GroundTruthAudit.PseudoScanIff | bench/agent_efficiency/real_corpus.py:1724-1731 | scan 4 is clean exactly when no proper caller's name is path-shaped or also borne by a File or Module caller |
| GroundTruthAudit.PseudoCallerEscapesFilters | bench/agent_efficiency/real_corpus.py:1139-1275 | the build filters do not imply scan 4: a build that reports a target called by a function and a module of one name, which the scan catches |
| GroundTruthAudit.BareUseEscapesFilters | bench/agent_efficiency/real_corpus.py:1372-1421 | nor the shape half of scan 6: a build that reports a method re-exported by a restricted use clause, which the scan catches |
| GroundTruthAudit.CaughtIsHit | bench/agent_efficiency/real_corpus.py:1541-1554 | what every build reports and a scan catches is a hit of the whole pipeline, those two targets included |
| GroundTruthAudit.StableIffReported | bench/agent_efficiency/real_corpus.py:1304-1327 | a target survives the intersection exactly when every build reports it |
| GroundTruthAudit.BuildAndAudit | bench/agent_efficiency/real_corpus.py:1541-1554 | what is kept is exactly what every build reports alike, sorted; whatever the builds report, the audit of what is written counts every hit, on scan 4 and the shape half of scan 6 at most, and for calls on scan 4 at most |
| TranscriptLines.SumsAgreeIff | bench/agent_efficiency/verify_metrics.py:36-38 | two lists of usage keys give the same sum on every usage exactly when they hold the same keys equally often, so a wrong, missing or doubled key in one of them shows |
| TranscriptLines.KeyListsSum | bench/agent_efficiency/run_bench.py:66 | the prompt-side key list of each of the three parsers sums to fresh, cache-read and cache-write tokens, and the coding parser's list of write keys to the writes |
| TranscriptLines.SameUsage | bench/agent_efficiency/verify_metrics.py:58-61 | the keys each parser converts, listed apart, are readable for all three or for none |
| TranscriptLines.CountTextChars | bench/agent_efficiency/run_bench.py:375-378 | counts the text of all tool results, and fails exactly when a result is no object or a text cannot be sized |
| TranscriptLines.CountSourceOpens | bench/agent_efficiency/run_bench.py:380-395 | counts the read calls and the file-printing shell commands, and fails exactly on content that does not iterate or arguments that are no object |
| TranscriptLines.JoinText | bench/agent_efficiency/run_bench.py:402-405 | joins the message's text, and fails exactly on null content, an item that is no object or a text that is none |
| TranscriptLines.RecomputeChars | bench/agent_efficiency/verify_metrics.py:53-57 | the recomputation's own nested loop counts the same text, and fails exactly when the harness's loops do |
| TranscriptLines.CodingOpens | bench/agent_coding/run_benchmark.py:489-501 | the coding parser's own loop counts the same calls, and fails exactly when the harness's does |
| TranscriptLines.HarnessPart | bench/agent_efficiency/run_bench.py:374-410 | the harness reads a turn exactly under its four conditions, and then as the turn's part |
| TranscriptLines.RecomputePart | bench/agent_efficiency/verify_metrics.py:50-61 | so does the recomputation, under its own |
| TranscriptLines.CodingPart | bench/agent_coding/run_benchmark.py:478-506 | and the coding parser, under its own |
| Transcripts.ParseHarness | bench/agent_efficiency/run_bench.py:342-427 | reads a transcript exactly when every line is readable to it; each total is the sum over the turns, first turn plus rest is the whole, and answer and error are the last ones given |
| Transcripts.Recompute | bench/agent_efficiency/verify_metrics.py:41-71 | reads a transcript exactly when every line is readable to it, and yields the seven sums over the turns |
| Transcripts.ParseCoding | bench/agent_coding/run_benchmark.py:467-516 | reads a transcript exactly when every line is readable to it; its totals are sums over the turns, and the last error survives, shortened |
| Transcripts.PromptSplits | bench/agent_coding/run_benchmark.py:475-488 | prompt tokens are uncached plus cache-read plus cache-write tokens, over any turns |
| Transcripts.HarnessReadsLeast | bench/agent_efficiency/run_bench.py:342-427 | what the harness reads the recomputation reads too, and the coding parser exactly when no number is overlong |
| Transcripts.CrossCheck | bench/agent_efficiency/verify_metrics.py:41-75 | each parser with its exact condition; whenever the harness reads, it and the recomputation agree on all seven exact keys; coding input tokens equal the harness prompt input and uncached + cache read + cache write; errors agree |
| Transcripts.HarnessAloneRaises | bench/agent_efficiency/run_bench.py:379-405 | a null message, null content, an item that is no object and a null text each stop the harness alone |
| Transcripts.CodingAloneReads | bench/agent_efficiency/verify_metrics.py:53-56 | text for tool results and a result chunk with null text stop harness and recomputation, not the coding parser |
| Transcripts.RecomputeAloneReads | bench/agent_coding/run_benchmark.py:489-501 | content that is a number and shell arguments that are no object stop harness and coding parser, not the recomputation |
| Transcripts.CodingAloneRaises | bench/agent_coding/run_benchmark.py:472-475 | an overlong number stops the coding parser alone |
| Transcripts.NoneReads | bench/agent_efficiency/verify_metrics.py:46-61 | a line that is no object and a token count that is no number stop all three |
| SftAudit.AddCandidate | training/qwen35/audit_sft.py:221-227 | adds an accepted row, and fails exactly when another source has the same prompt |
| SftAudit.IndexRaw | training/qwen35/audit_sft.py:200-227 | accepts exactly valid rows without digest or prompt collision; the index lists, per prompt, the accepted rows in order, and the counters are exact |
| SftAudit.JoinRow | training/qwen35/audit_sft.py:243-268 | finds an origin exactly when one accepted row has the prompt, language and repository, the label matches and the repository is not denied |
| SftAudit.JoinSft | training/qwen35/audit_sft.py:238-285 | accepts exactly distinct prompts with clean rows, with exact histograms and digest rows |
| SftAudit.Audit | training/qwen35/audit_sft.py:175-298 | succeeds exactly on clean inputs and then reports exactly what they contain |
| SftAudit.CleanIsExact | training/qwen35/audit_sft.py:287-298 | the fine-tuning prompts are exactly the distinct accepted prompts, one row each; raw = accepted + dropped, accepted = distinct + duplicates, and each histogram sums to the row count |
| SftAudit.OriginsDiffer | training/qwen35/audit_sft.py:245-258 | different fine-tuning rows come from different sources with different digests |
| SftAudit.LabelFixesSummary | training/qwen35/audit_sft.py:144-152 | a label determines the summary lines it was rendered from |
| SftAudit.OrderBlind | training/qwen35/audit_sft.py:200-298 | verdict, counts and histograms do not depend on the order of raw or fine-tuning rows |
| SftAudit.RowsDetermined | training/qwen35/audit_sft.py:245-290 | without duplicate sources the raw rows determine the fine-tuning rows up to order |

## Left out

- CodingGate.GradeResults: the wall-clock wins and the ratios the report carries without using them in the verdict are not modelled.
- Staging.StagingArea.Stage: like StagingArea.VerifyStaged, covers names, manifest and SHA256SUMS only.
- Staging.StagingArea.VerifyStaged: per-asset checksum files, the training archive and build-environment records are not part of this model.
- GroundTruth.JudgeTarget: the regular expressions behind the filters are predicates of the repository, and so is the count of call sites no source covers.
- GroundTruthAudit.Audit: the name and shape tests of the scans are predicates of the repository, and the printed lines are not modelled.
- QuotaStreak.ResumedDrift: like every statement here about resumed sessions, leaves out rows that keep an errored session of an earlier run because the process died before it ran that agent again.
- Transcripts.ParseHarness: the recursion limit of the JSON decoder, on which all three parsers raise, is not modelled.
- SftAudit.Audit: path arguments, denylist files, JSON decoding, licence normalisation and repository spelling are inputs; the aggregate digest is the list of digested rows.
- Checkpoint.HistoryInvariant: the selected tasks are the same for every boot, as the run identity makes them for every resumed one.
- Scheduler.RunParallelBench: a future that raises is a result of 99; log files and messages are not modelled.
- Diagnostics.RunInvariant: `reset` racing with records, mutex poisoning and weaker memory orders than sequential consistency are not modelled.
- Parsing of Cargo.lock, symbolic links in dist, JSON, gzip, tar, git, sqlite and ripgrep.
- Report formatting, prompts, corpus templates, hand-written task banks, schema validators, build scripts and process control.
