# Release tooling, verified

This project models the release and qualification tooling of the repository in Dafny 4.11 and
proves what that tooling is for.

| modules | what they model |
|---|---|
| `NodeIds`, `Lpt`, `LptTight`, `Scheduler`, `SchedulerFacts` | the longest-processing-time scheduler of the core test shards, with Graham's bounds against every other assignment, and jobs that reach them |
| `ShardPlan`, `ShardEvidence`, `ShardReports`, `ShardRefinement` | the shard plan and its verifier, the evidence of one worker, the merge of all workers, and the refinement of one unsharded run by the shards |
| `Bitset`, `Coverage`, `CoverageVerdict`, `CoverageRows`, `CoverageRefinement` | the line bitsets of coverage databases, their decoding, the verdict on the joined coverage, and its agreement with the threshold of an unsharded run |
| `Session`, `SessionProtocol`, `SessionRuns`, `SessionTheorems`, `SessionPrefix`, `SessionWindow`, `SessionProgress`, `SessionLaws`, `SessionVetting`, `SessionReports`, `SessionStore` | durable release sessions: write-ahead intent, one lease, adoption of unknown outcomes, supersession, with a crash between any two persistent steps |
| `Coordinator`, `CoordinatorFacts`, `CoordinatorTheorems`, `CoordinatorLaws`, `CoordinatorRemote` | the receipts of the qualification coordinator, saved before the workflow is dispatched |
| `Selectors`, `Imports`, `ModuleNames`, `PrPlan`, `PrImpact`, `PrLaws`, `PrGate`, `PrSelected`, `PrEndToEnd` | the selective pull-request plan: selector compaction, reverse imports, skip-owner closure, additive hints, lane verification and the aggregate gate |
| `Argv` | the command line that the Windows Git adapter builds, and the C runtime that parses it |
| `Audit`, `AuditRun`, `AuditLaws` | the retried dependency audit and the gate that re-reads its evidence |
| `Archive`, `ArchiveNames` | the inventory of artifact archives and its materialisation on a filesystem |
| `JobGraph`, `Intervals` | acyclic job graphs, and step intervals inside a job |
| `Results`, `Sorting` | shared definitions: results, `sorted`, code-point order |

Conventions.  A digest is modelled as the value it was taken of, so equal digests mean equal
values.  An exception is a refusal value.  What a function reads from outside (the remote, the
clock, a child process, a database row) is an input, without any assumption unless a `requires`
states it.  A process that may be killed is a list of primitive writes of which a prefix happens;
`SessionStore` and `CoordinatorRemote` contain the same operations statement by statement, with a
budget of writes, and are proved to produce exactly those lists.  The modules named `Laws`, `Vetting`,
`Reports`, `Rows` and `Names` say the same operations over again by their inputs and results alone:
which calls submit, which requests are sent, which bits are lines, which names are safe.

## Where the code does less than one might expect

* A release session's submissions always form the word qualify? dry-run? tag* publish?
  github-release*, but they need not be a gapless prefix of it.  A process killed after its intent
  and before its submission leaves an intent that a later call can settle with a matching run that
  somebody else started (`SessionProgress.SubmissionsCanSkip`).  Over every run the word is a prefix
  exactly when no call submits after an acceptance whose action no earlier call had lived to submit
  (`SessionPrefix.SubmissionsFormPrefix`); which submissions a call lives to see depends on its crash
  point alone (`SessionPrefix.LoggedIffSurvived`).  At a workflow action the gap has one cause: a
  single call was killed after it saved its intent and before it submitted or withdrew it
  (`SessionWindow.GapIffStranded`, `StrandedIffKilled`, `PrefixIffNothingStranded`).  A session whose
  acceptances all find the flag `submitted` or `unknown` on disk is gapless
  (`SessionPrefix.FlaggedRunsFormPrefix`).  Nothing finer can be told from the files: killed just
  before and just after the submission they are the same (`SessionProgress.SameDisk`), so no test of
  them tells whether the pending action was submitted (`SessionProgress.NoDiskTest`).
* A retry can be dispatched while a run of the generation before it still goes on.  Two runs can
  carry one title, and the receipt can adopt the one that somebody else started
  (`CoordinatorTheorems.RetryCanOverlap`); or the failed run itself can have been started again
  (`RerunCanOverlap`).  The run that the receipt records was always authenticated as completed before
  the retry (`RecordedRunCompleted`); all runs under that title are completed at the retry exactly
  when all the others are and no rerun of the recorded one is going on (`PriorRunCompleted`).
* In the lane that measures coverage the unsharded run has to reach 87 percent by itself, while the
  workers of its shards have no threshold: shards of passing tests are merged where the unsharded run
  is refused.  `ShardRefinement.UnshardedRun` is exact about it, and `CoverageRefinement.CoverageGates`
  says when the coverage gate of the merged shards makes up for it.
* A hint can replace a floor selector by a wider one, and a wider selector is satisfied by any test
  under it: the gate can accept a run in which nothing under the floor's own selector was collected
  (`PrEndToEnd.FloorSelectorCanVanish`).  It makes sure that something ran under a selector exactly when
  the lane of the enriched plan still has that selector or one under it
  (`PrSelected.SelectorRunsIff`); and when the lanes collect every test there is, all tests of the
  floor's selectors are counted (`PrEndToEnd.PlannedSelectorsRan`).
* A dependency audit that passed is accepted by the gate exactly when its last worker also counted
  no findings itself and left no extra file (`AuditRun.PassedAccepted`): `run` takes its verdict from
  the report and never compares the worker's own count.  `AuditRun.PassedCanBeRefused` has such a
  passed run for every count above zero, and one with an extra file.
* The overlap and completeness checks of `merge_junit`, the last duplicate check of
  `_zip_inventory`, and the final sum check of the step intervals can never fail after the checks
  before them; the contracts of `ShardEvidence.MergeJUnit`, `Archive.Read` and `Intervals.Measure`
  contain the proof.
* A pending dispatch receipt whose workflow request never reached the remote is never sent again,
  by design: only a completed run with the matching title revives it
  (`CoordinatorTheorems.UnknownNeverResent`).

## Model

| member | source | states |
|---|---|---|
| Lpt.LptBound | release/core_shards.py:228-252 | Graham: for positive weights taken longest first, any greedy placement on m shards has 3m·makespan at most (4m−1)·makespan of every other assignment |
| Lpt.ListBound | release/core_shards.py:244-247 | without the sorted order, greedy placement is still within 2−1/m of every assignment |
| LptTight.LptBoundTight | release/core_shards.py:228-252 | the factor cannot be improved for any number m of shards: 2m+1 weights that greedy placement puts on a makespan of 4m−1, while another assignment has 3m |
| Lpt.GreedyBalanced | release/core_shards.py:244-247 | loads of two shards never differ by more than the heaviest file |
| Lpt.Conservation | release/core_shards.py:244-247 | the loads of all shards add up to all weights, for every assignment |
| Lpt.LightMachine | release/core_shards.py:244-247 | counting placed jobs: when job j arrives (m ≤ j < 2m) some shard carries no more than job 2m−1−j |
| Lpt.SomePairShares | release/core_shards.py:228-252 | pigeonhole on the optimum: with at most two large jobs on each machine, two of a named range share one |
| Scheduler.Partition | release/core_shards.py:228-252 | succeeds exactly for 2 to 4 shards, enough files, and positive weights that name exactly the files; the result is the greedy placement of the files, heaviest first |
| Scheduler.PlaceFiles | release/core_shards.py:241-247 | the loop that puts each file on the least loaded shard equals the placement function, for files, loads and order |
| Scheduler.FinishShards | release/core_shards.py:248-252 | every shard gets, in order, exactly the nodes of its files |
| Scheduler.PlacementGreedy | release/core_shards.py:244-247 | every prefix of the placement puts its last file on a least loaded shard |
| SchedulerFacts.EstimateIsWork | release/core_shards.py:244-252 | the estimate of a shard is the sum of the weights of its files |
| SchedulerFacts.ShardBound | release/core_shards.py:228-252 | every shard's estimate is within 4/3−1/(3m) of the heaviest shard of every assignment of files to m shards |
| SchedulerFacts.ShardsBalanced | release/core_shards.py:228-252 | the estimates of two shards differ by at most the heaviest weight |
| SchedulerFacts.NoEmptyShard | release/core_shards.py:228-252 | no shard is without files, nodes or estimate |
| SchedulerFacts.ExactCover | release/core_shards.py:228-252 | the shards' files are disjoint and cover the inventory, and each shard holds all nodes of its files and no others |
| SchedulerFacts.NodeInOneShard | release/core_shards.py:248-252 | no node is in two shards |
| SchedulerFacts.FilesStayTogether | release/core_shards.py:224-252 | when `f::s` is in a shard and `f::t` in the inventory, `f::t` is in that shard, and f is one of its files |
| SchedulerFacts.WeighedFiles | release/core_shards.py:231-236 | the names that need a weight are the ids without `::` and what stands before the first `::` of the others |
| SchedulerFacts.OrderTaken | release/core_shards.py:241-243 | files are taken by falling weight, those of one weight by rising name |
| SchedulerFacts.FirstLeast | release/core_shards.py:244-247 | every file goes to a shard that no other undercuts, and to the first of them |
| NodeIds.FileOfTest | release/core_shards.py:224-225 | the file of `f::t` is f, for every f that has no `::` and does not end in a colon |
| NodeIds.FileOrTest | release/core_shards.py:224-225 | an id with a separator is its file, the separator and something; one without is its own file |
| NodeIds.FileIs | release/core_shards.py:224-225 | a node is of a file exactly when it is that file or is declared in it |
| ShardPlan.ValidatePlan | release/core_shards.py:357-420 | accepts exactly the valid plans: digests, inventory, timings, and the shards that the scheduler itself gives |
| ShardPlan.MakePlan | release/core_shards.py:255-331 | says exactly when planning succeeds, and that every plan made is valid for the verifier and has the timings, the fallback and the fresh files of the history, whatever that is |
| ShardPlan.PlanIsValid | release/core_shards.py:255-420 | whatever inputs are plannable, the scheduler accepts the derived weights and the verifier the assembled plan |
| ShardPlan.TimingsPositive | release/core_shards.py:284-313 | stale or missing timings fall back to a positive default, so every file gets a positive weight |
| ShardPlan.FallbackIsPercentile | release/core_shards.py:284-313 | the fallback is a minute, or a recorded time above it with at most nine tenths of the others before it in order |
| ShardPlan.PlanTold | release/core_shards.py:255-331 | a file's weight is its recorded time when the history has one for this context and the fallback otherwise; it is fresh exactly when its recorded hash is the present one |
| ShardEvidence.JUnit | release/core_shards.py:423-463 | accepts exactly the documents with consistent counters in every suite, nested ones included, and distinct, valid cases, and returns each case under its node |
| ShardEvidence.IndexCases | release/core_shards.py:435-448 | the loop over the cases refuses duplicates and invalid cases and nothing else |
| ShardEvidence.ValidateExecution | release/core_shards.py:487-581 | accepts exactly the executions whose collection, selection, start journal and report agree with the plan; a negative shadow index counts from the end |
| ShardEvidence.MergeJUnit | release/core_shards.py:584-627 | accepts exactly one accepted directory for each planned shard, whatever their order, and a new output path; overlap and incompleteness are impossible then; the merged cases are those of the directories |
| ShardEvidence.ShardsReportApart | release/core_shards.py:604-608 | two accepted shards with different planned indices never report the same node |
| ShardEvidence.EveryIndexPresent | release/core_shards.py:588-604 | as many distinct planned indices as shards means every index |
| ShardEvidence.CoversInventory | release/core_shards.py:605-609 | the accepted shards together report every node of the inventory and nothing else |
| ShardReports.CasesAtAnyDepth | release/core_shards.py:423-448 | the cases that are checked are those of all suites at any depth |
| ShardReports.SuitesAtAnyDepth | release/core_shards.py:449-463 | and so are the suites whose counters are checked |
| ShardReports.CountersTell | release/core_shards.py:449-463 | a declared counter is accepted exactly when it is the number of the suite's cases, or of those that failed, erred or were skipped |
| ShardReports.OutcomeFaithful | release/core_shards.py:466-484 | a valid case can be read back from its node and outcome, and has passed exactly when nothing else is said of it |
| ShardReports.AcceptedReport | release/core_shards.py:487-581 | an accepted report has only passed and skipped cases of expected nodes, at any depth, one for each of them, and right counters |
| ShardRefinement.Collection.ModifyItems | release/core_shard_runner.py:534-548 | the collection hook replaces the items in place by the planned ones in their order, reports the rest as deselected, and changes nothing when the collection differs from the plan |
| ShardRefinement.KeepAndDrop | release/core_shard_runner.py:543-545 | kept and deselected items are together the collected ones, with multiplicity |
| ShardRefinement.WorkerRunsItsShard | release/core_shard_runner.py:534-562 | whatever order the collection had, a worker runs exactly its shard, each node once |
| ShardRefinement.WorkerAccepted | release/core_shard_runner.py:504-585 | for every outcome function, the verifier accepts the evidence of a worker exactly when each of its nodes passed or was skipped and, for the unsharded run of the measured lane, the coverage plug-in found the threshold reached |
| ShardRefinement.ShardedRefinesUnsharded | release/core_shards.py:584-627 | for every outcome function, the workers of all shards can be merged exactly when every node of the whole inventory passed or was skipped, and the merged outcomes are those of the whole inventory |
| ShardRefinement.UnshardedRun | release/core_shard_runner.py:561-585 | one unsharded run under the same outcome function is accepted exactly when the sharded one can be merged and, in the measured lane, its own coverage reaches the threshold; it reports the same outcomes |
| CoverageRefinement.LostLines | release/core_shard_runner.py:1145-1173 | the comparison of the two receipts finds every frozen statement that the unsharded run executed and no shard did |
| CoverageRefinement.CoverageGates | release/core_shard_runner.py:1107-1173 | when the shards lost no statement and the unsharded counts reach 87 percent, the merged shards pass the coverage gate; when they added none either, unsharded acceptance and sharded merge with accepted coverage agree exactly if the plug-in does not round across the threshold |
| ShardRefinement.OrderIrrelevant | release/core_shards.py:584-627 | the order of the shard directories does not matter |
| Bitset.Decode | release/core_coverage.py:89-90 | the decoded lines are exactly the numbers n whose bit n mod 8 of byte n/8 is set |
| Bitset.DecodePacked | release/core_coverage.py:89-90 | decoding inverts the packing of every set of line numbers |
| Bitset.PackDecoded | release/core_coverage.py:89-90 | packing inverts decoding exactly for bitsets without a zero last byte |
| Bitset.BudgetIsTight | release/core_coverage.py:86-88 | the byte bound admits every packed set of a file's lines, and overshoots its last line by at most seven |
| Coverage.MeasuredFiles | release/core_coverage.py:61-76 | accepts exactly distinct file rows of bounded name length under one source root each and named in the frozen sources; the dictionaries hold their names |
| Coverage.LineRows | release/core_coverage.py:77-90 | accepts exactly one row in the context for a listed file within its byte bound; the gathered lines are the union of the decoded bitsets of each name |
| Coverage.CheckBounds | release/core_coverage.py:93-98 | drops line 0 of empty files only, and requires every other line to be in the file |
| Coverage.RawLines | release/core_coverage.py:36-98 | a database is read exactly when it is readable, and then reports for every measured source its executed lines, ascending and within its bound |
| CoverageVerdict.StatementInventory | release/core_coverage.py:101-111 | accepts exactly ascending duplicate-free statement lists within their files, for all sources |
| CoverageVerdict.CheckShard | release/core_coverage.py:118-128 | a shard is accepted exactly when its receipt is what its own database holds |
| CoverageVerdict.UniteShards | release/core_coverage.py:116-132 | the union has for each source the lines that at least one shard ran, and all shards froze the same statements |
| CoverageVerdict.CheckClass | release/core_coverage.py:152-163 | a class entry is accepted exactly when it lists its statements once with hits on the executed ones; the two counters count them |
| CoverageVerdict.CheckClasses | release/core_coverage.py:143-164 | the report must cover every source; the counters are the numbers of frozen and of executed statements |
| CoverageVerdict.ValidateCombination | release/core_coverage.py:114-169 | accepts exactly when shards, joined evidence and report agree and the threshold is reached |
| CoverageVerdict.Verdict | release/core_coverage.py:114-169 | when all evidence agrees, the report's counters are the number of frozen statements whose bit is set in the database of some shard and the number of all, and acceptance is exactly that the first is at least 87 percent of the second |
| CoverageVerdict.ShardOrderIrrelevant | release/core_coverage.py:114-132 | neither the order nor the repetition of shard directories changes the verdict |
| CoverageRows.NameBelowRoot | release/core_coverage.py:63-75 | a path below one root only is named by what follows that root |
| CoverageRows.NamedBelowRoot | release/core_coverage.py:63-75 | and every measured path is the one root above it, followed by its name |
| CoverageRows.ObservedByRows | release/core_coverage.py:61-98 | line n of a source is observed exactly when n is positive and the database has a file row with the source's path below a root and, for that row, a bitset whose byte n/8 has bit n mod 8 |
| CoverageRows.VerdictByRows | release/core_coverage.py:114-169 | when all evidence agrees, the report's counters are the numbers of frozen statements with their bit set in some shard and of all, and it is accepted exactly when the first is at least 87 percent of the second |
| CoverageRows.ReportTells | release/core_coverage.py:143-164 | in a report that agrees each source has one class entry, with one line for each frozen statement and hits exactly when some shard ran it |
| CoverageRows.EntryNames | release/core_coverage.py:146-150 | an entry belongs to a source by its name or by its path in the repository |
| SessionProtocol.StepKeeps | release/manual_release.py:216-259 | each allowed primitive write keeps the protocol invariant of all sessions |
| SessionProtocol.StepsKeep | release/manual_release.py:216-259 | so does every list of allowed writes |
| SessionProtocol.AllowedPrefix | release/manual_release.py:233-244 | a crash leaves an allowed list |
| SessionRuns.EffectAllowed | release/manual_release.py:356-385 | a submission is written after its intent, at most once for qualify, dry-run and publish, and a refused validation withdraws it |
| SessionRuns.ReconcileAllowed | release/manual_release.py:314-334 | reconciling an unknown outcome accepts, records, repairs a repairable action, or changes nothing |
| SessionRuns.AdvanceAllowed | release/manual_release.py:295-354 | every call of advance stays within the protocol, whatever the remote answers |
| SessionRuns.InitializeAllowed | release/manual_release.py:266-293 | so does every initialisation |
| SessionRuns.SupersedeAllowed | release/manual_release.py:406-439 | and every supersession |
| SessionRuns.RunInv | release/manual_release.py:216-439 | the invariant holds after any calls on any sessions, each killed at any step |
| SessionTheorems.SubmissionsFormWord | release/manual_release.py:36-40 | over every run a session's submissions are qualify? dry-run? tag* publish? github-release*; each workflow dispatch is sent at most once |
| SessionTheorems.SubmissionsBacked | release/manual_release.py:356-385 | every submission has its intent journalled and its authorization on disk, and no operation id is used twice |
| SessionTheorems.UnresolvedIsPending | release/manual_release.py:314-334 | a submitted action that is not yet accepted is still the pending one |
| SessionTheorems.LeaseExcludes | release/manual_release.py:246-259 | submissions of different sessions never interleave, and an unfinished session that submitted owns the lease |
| SessionTheorems.SupersessionIsSafe | release/manual_release.py:406-439 | a superseded session submitted no publication or release, and a tag only if it was tagged and exactly that tag is retained |
| SessionTheorems.FinishedForever | release/manual_release.py:299-301 | a finished session keeps its phase and never submits again |
| SessionPrefix.SubmissionsFormPrefix | release/manual_release.py:295-385 | over every run, the word of a session's submissions has no gap exactly when no call submits after an acceptance whose action no earlier call had lived to submit |
| SessionPrefix.LoggedIffSurvived | release/manual_release.py:356-385 | an action was submitted exactly when some call listed its submission and its crash point lay behind it |
| SessionPrefix.AllSubmittedIff | release/manual_release.py:314-334 | a session submitted every action it had accepted exactly when, before each acceptance, some call had lived past the submission of the accepted action |
| SessionPrefix.NextSubmissionGapless | release/manual_release.py:356-385 | a run that ends with a submission is gapless exactly when every acceptance before was preceded by the session's own submission |
| SessionPrefix.FlagIsEarned | release/manual_release.py:362-385 | a `submitted` or `unknown` flag on disk never lies: an acceptance that finds it comes after the session's own submission |
| SessionPrefix.FlaggedRunsFormPrefix | release/manual_release.py:314-385 | a run whose acceptances all find a flag submits a gapless prefix of the release, and everything it accepted |
| SessionWindow.CallWaits | release/manual_release.py:314-334 | while a workflow action is pending no call of its session submits anything, and the action stays pending until it is accepted |
| SessionWindow.GapIffStranded | release/manual_release.py:314-385 | a workflow action is accepted without the session's submission exactly when one earlier call made it pending and did not live to submit it |
| SessionWindow.StrandedIffKilled | release/manual_release.py:356-385 | such a call is exactly one killed with steps left after it saved the intent and before it submitted or withdrew it |
| SessionWindow.PrefixIffNothingStranded | release/manual_release.py:295-385 | the word of a run has no gap exactly when no submission follows the acceptance of a stranded workflow action, or of a tag whose every dispatching call was killed before its submission |
| SessionProgress.Dispatch | release/manual_release.py:295-385 | an authorized action without refusal is submitted once, with the lease held |
| SessionProgress.Interrupted | release/manual_release.py:356-385 | killed between intent and submission, a call leaves the intent and submits nothing |
| SessionProgress.Adopt | release/manual_release.py:331-334 | a verified remote result settles the intent and advances the phase |
| SessionProgress.Round | release/manual_release.py:295-404 | one submission and one reading advance the session by one phase |
| SessionProgress.FullRelease | release/manual_release.py:295-354 | a fully authorized release without refusals submits the five actions once each, in order, ends complete and frees the lease |
| SessionProgress.SubmissionsCanSkip | release/manual_release.py:314-334 | a run in which the only submission of a session is its second action |
| SessionProgress.SameDisk | release/manual_release.py:356-385 | killed just before and just after its submission, a call leaves the same state, journal, authorizations and lease, without a flag |
| SessionProgress.NoDiskTest | release/manual_release.py:314-334 | no test of the files decides whether the pending action was submitted: each errs on some run |
| SessionVetting.SubmissionVetted | release/manual_release.py:295-385 | over every run, a submission comes from a call of `advance` that drew its operation, found its action due and authorized, the lease claimable, the checkout unchanged, the evidence prepared, bound and validated, and, for qualify, the candidate admitted; for the others the bundle verified |
| SessionVetting.VettedIsSubmitted | release/manual_release.py:295-385 | and an uncut call that meets all of that submits |
| SessionVetting.AcceptanceConfirmed | release/manual_release.py:314-334 | an action is accepted only by a call that observed a verified result for the session's candidate, and for qualify its version, and that is the result recorded |
| SessionVetting.CompletionVerified | release/manual_release.py:335-345 | a session is complete only after a call found it released, with nothing pending, and verified the public release |
| SessionVetting.GrantsGiven | release/manual_release.py:306-313 | every authorization on disk was given to some `initialize` or `advance` of the session |
| SessionVetting.SessionBegun | release/manual_release.py:266-293 | a session's candidate and version are those of a call of `initialize` that found the checkout in order |
| SessionVetting.SupersessionReasoned | release/manual_release.py:406-439 | a session is superseded only by a call with a reason that found it abandonable |
| SessionVetting.SessionStep | release/manual_release.py:266-439 | a call changes its own session only, and in one of the ways listed |
| SessionVetting.RevisionGrows | release/manual_release.py:233-244 | revisions never fall, and a changed state has a higher one |
| SessionVetting.AlwaysSound | release/manual_release.py:314-334 | over every run, a session has a record for exactly the actions before its phase, each of a verified result for its candidate, and of its version for qualify |
| SessionLaws.AdvanceLaw | release/manual_release.py:295-385 | an uncut `advance`: its submission, the state it leaves, the lease, and that no other session changes, told by what it found and was answered |
| SessionLaws.CallWrites | release/manual_release.py:356-385 | every state that a call writes on its way, and so every state that a crash can leave, is one of the listed stages |
| SessionReports.ReportLaw | release/manual_release.py:295-354 | what `advance` returns, by the first check that fails or the answer of the remote |
| SessionReports.JournalLaw | release/manual_release.py:233-244 | what each journal entry of a call says, and that it says it of this call's action and operation |
| SessionReports.InitializeLaw | release/manual_release.py:266-293 | an uncut `initialize` begins a session exactly in a fresh directory on the candidate's checkout, never changes one that is there, takes a free lease for an unfinished one, and succeeds exactly for the session's own candidate with that lease or a finished session |
| SessionReports.SupersedeLaw | release/manual_release.py:406-439 | an uncut `supersede` gives up exactly the sessions that can be abandoned, releases their lease, and changes nothing otherwise |
| SessionReports.AbandonableIff | release/manual_release.py:406-439 | for the sessions that a run makes, the test of the code comes down to this: nothing published, nothing in flight but a qualification or dry run, and a tag whose recorded references are the two of this candidate |
| SessionStore.Store.Primitive | release/manual_release.py:85-128 | one durable write happens completely or, when the process is killed, not at all |
| SessionStore.Store.Save | release/manual_release.py:233-244 | the journal entry is appended before the state is replaced, with the next revision |
| SessionStore.Store.Claim | release/manual_release.py:246-254 | the lease is taken when free, kept when owned, refused otherwise |
| SessionStore.Store.Release | release/manual_release.py:256-259 | the lease is removed only by its owner |
| SessionStore.Controller.Effect | release/manual_release.py:356-385 | the statements of `_effect` write exactly the listed effects, cut where the process is killed |
| SessionStore.Controller.Reconcile | release/manual_release.py:314-334 | the same for the pending branch of `advance` |
| SessionStore.Controller.Proceed | release/manual_release.py:335-354 | the same for the branch that starts the next action |
| SessionStore.Controller.Advance | release/manual_release.py:295-354 | the same for the whole of `advance`, with the value it returns |
| SessionStore.Controller.Initialize | release/manual_release.py:266-293 | the same for `initialize` |
| SessionStore.Controller.Supersede | release/manual_release.py:406-439 | the same for `supersede` |
| SessionStore.OperateAll | release/manual_release.py:182-439 | any sequence of processes on the shared files reaches the state of the protocol's run and keeps its invariant |
| CoordinatorFacts.StepKeeps | release/qualification_automation.py:392-407 | each allowed write keeps the receipt invariant |
| CoordinatorFacts.CutKeeps | release/qualification_automation.py:409-449 | so does an operation killed after any write |
| CoordinatorFacts.DispatchAllowed | release/qualification_automation.py:409-449 | dispatch saves a new pending receipt, generation 0 or one above a failed one, before it sends |
| CoordinatorFacts.SettleAllowed | release/qualification_automation.py:480-498 | a run is settled only on the receipt whose request its title carries |
| CoordinatorFacts.OperateKeeps | release/qualification_automation.py:409-513 | the invariant holds after any operations, crashes and changes of the remote's runs |
| CoordinatorTheorems.DispatchedOnce | release/qualification_automation.py:229-237 | over every run no request id is dispatched twice |
| CoordinatorTheorems.UnknownNeverResent | release/qualification_automation.py:409-449 | over every run, once a receipt is pending or of unknown outcome, nothing more is sent for its candidate and profile, at whatever generation, before a completed run titled with its request was authenticated after that point |
| CoordinatorTheorems.OneReceipt | release/qualification_automation.py:409-420 | a candidate has at most one receipt for each profile |
| CoordinatorTheorems.GenerationsInOrder | release/qualification_automation.py:414-420 | a dispatch comes after its own pending receipt and, for every lower generation, after a completed run titled with that generation was authenticated |
| CoordinatorTheorems.RecordedRunCompleted | release/qualification_automation.py:414-434 | generation g+1 is dispatched only after the run that its receipt records for generation g was authenticated as completed |
| CoordinatorTheorems.PriorRunCompleted | release/qualification_automation.py:409-420 | at the moment generation g+1 is dispatched, all runs titled with generation g are completed exactly when all but the recorded one are and no rerun of that one is going on; with one run under the title, exactly when no rerun is |
| CoordinatorTheorems.RetryCanOverlap | release/qualification_automation.py:480-496 | a run in which generation 1 is dispatched while a second run titled with generation 0 goes on |
| CoordinatorTheorems.RerunCanOverlap | release/qualification_automation.py:814-820 | a run in which the only run of generation 0 failed, and generation 1 is dispatched while a rerun of it goes on |
| CoordinatorLaws.DispatchLaw | release/qualification_automation.py:409-449 | an uncut dispatch: the receipt it leaves, with the answered run or of unknown outcome, the request it sends, and exactly when it does nothing |
| CoordinatorLaws.DispatchedRunSettles | release/qualification_automation.py:409-824 | the round: a dispatch that is answered with a run records it, and once that run is completed under the request's title on the candidate's head, its settlement is logged and its verdicts are written on that receipt |
| CoordinatorLaws.SettleLaw | release/qualification_automation.py:814-824 | an uncut settlement writes on exactly the receipt that alone records the run under its own title, or that lost its request and is named by no other run; otherwise no run is witnessed |
| CoordinatorLaws.RecoverLaw | release/qualification_automation.py:498-513 | an uncut recovery adopts the only visible run under the request's title, if it is trusted, and changes nothing otherwise |
| CoordinatorLaws.FindIs | release/qualification_automation.py:480-496 | the search finds the receipt that a run settles on, and adopts the run when it is not recorded |
| CoordinatorRemote.Remote.Save | release/qualification_automation.py:392-407 | one check run is written, or nothing when the process is killed |
| CoordinatorRemote.Remote.PersistAndSend | release/qualification_automation.py:436-449 | the receipt is persisted before the workflow request, and the answer after it |
| CoordinatorRemote.Remote.Dispatch | release/qualification_automation.py:409-449 | the statements of `dispatch` write exactly the listed effects, cut where the process is killed |
| CoordinatorRemote.Remote.RecoverDispatch | release/qualification_automation.py:498-513 | the same for `recover_dispatch` |
| CoordinatorRemote.FindRequest | release/qualification_automation.py:480-496 | the same for `find_request`, with the receipt it returns |
| CoordinatorRemote.Reconcile | release/qualification_automation.py:814-824 | the same for the settlement of a completed run |
| CoordinatorRemote.ServeAll | release/qualification_automation.py:248-513 | any sequence of processes on the remote reaches the state of the protocol's run and keeps its invariant |
| Selectors.MatchesOrder | release/pr_ci.py:234-239 | selector matching is a partial order |
| Selectors.MatchesPicks | release/pr_ci.py:234-239 | a selector matches exactly itself, what follows it after `::`, and its parameters |
| Selectors.CoverersFirst | release/pr_ci.py:242-247 | the sort key puts every selector after all that cover it |
| Selectors.MinimalCovers | release/pr_ci.py:242-247 | the minimal selectors match exactly the same nodes |
| Selectors.MinimalAntichain | release/pr_ci.py:242-247 | they are an antichain, and compacting again changes nothing |
| Selectors.CompactionUnique | release/pr_ci.py:242-247 | selector sets that cover each other have the same compaction |
| Selectors.OnlyCompaction | release/pr_ci.py:242-247 | no other antichain of the selectors covers them all |
| Selectors.Compact | release/pr_ci.py:242-247 | the loop returns the minimal selectors, sorted |
| Imports.AffectedModules | release/pr_ci.py:535-544 | the reverse-import loop ends with exactly the modules from which a chain of imports leads to a changed one |
| Imports.ClosedHoldsChain | release/pr_ci.py:535-544 | a set closed under importers contains every such chain |
| Imports.SelectOwners | release/pr_ci.py:524-554 | a changed file is owned by the test files of either tree that import it or, when no maintained rule matched, a module that leads to it; selected are exactly the owners that the new tree has, and the flag tells whether there is any |
| Imports.SelectConsumers | release/pr_ci.py:555-606 | a fixture without a rule selects exactly the test files of the new tree from which a chain of imports through the tests leads to one that mentions it |
| Imports.UnionKeepsBoth | release/pr_ci.py:727-732 | the ownership index imports exactly what the old or the new tree imports |
| ModuleNames.ModuleOf | release/pr_ci.py:405-407 | the module of a Python file is its parts joined by dots, without a leading `src` and without a last `__init__` |
| ModuleNames.TestByName | release/pr_ci.py:529-549 | a file is a test by its own name, whatever directories it is in |
| PrPlan.CloseSkips | release/pr_ci.py:639-677 | the skip-owner loop ends; it succeeds exactly when some closed plan covers the start, and then its result is closed, contains the start and is the least such plan |
| PrPlan.Pass | release/pr_ci.py:641-676 | one round keeps all of that, and a round without change has closed the plan |
| PrPlan.VisitJustified | release/pr_ci.py:644-660 | every edge comes from an allowlist entry that the plan triggers |
| PrPlan.VisitStuck | release/pr_ci.py:649-653 | an owner without producer is refused only when every closed plan above the start would need it |
| PrPlan.ClosureUnique | release/pr_ci.py:639-677 | the order of lanes and entries does not change the compacted result |
| PrImpact.FinishPlan | release/pr_ci.py:705-722 | the plan has the compacted selectors and the owners of the closed work |
| PrImpact.FinishedClosed | release/pr_ci.py:705-722 | compaction keeps the closure |
| PrImpact.FloorOrder | release/pr_ci.py:735-770 | the additive floor is reflexive and transitive |
| PrImpact.MergeFloor | release/pr_ci.py:872-898 | a merge covers both plans, so the floor check never refuses it |
| PrImpact.MergeClosed | release/pr_ci.py:872-898 | the merge of two closed plans is closed |
| PrImpact.CheckFloor | release/pr_ci.py:735-770 | the loop of `additive_floor` decides the floor relation |
| PrImpact.EnrichImpact | release/pr_ci.py:854-928 | for every list of hints the result covers the floor; a hint is dropped only when its selection failed or the plan would become the complete suite |
| PrImpact.EnrichedClosed | release/pr_ci.py:854-928 | a closed floor stays closed under closed hints |
| PrLaws.SelectedMeans | release/pr_ci.py:639-722 | a selected plan runs everything it started from; for every allowlisted skip of a node it runs it has an edge to a planned producer that runs the node, and no other edge |
| PrLaws.ConcludesTold | release/pr_ci.py:678-722 | `select` refuses exactly a helper that no lane may have and, for more than one test file, a selection of exactly all of them; otherwise each lane has the helpers of its groups, the toolchains also those that the files of their nodes own, and the dependencies that the groups and jobs call for |
| PrLaws.PartialTold | release/pr_ci.py:899-907 | a hint is kept out exactly when with it the selected tests are of exactly all the test files, and there is more than one |
| PrLaws.BaselineOnPlatform | release/pr_ci.py:48-95 | the suite whose skips a lane may have is produced on the lane's own platform, by itself or, for the older interpreter, by the Ubuntu lane |
| PrLaws.FloorMeans | release/pr_ci.py:735-770 | the floor check passes exactly when no job, group, edge, runtime, helper or dependency is lost and every test that the floor runs in a lane still runs there |
| PrLaws.MergeMeans | release/pr_ci.py:872-898 | a merge has exactly the items of both plans |
| PrLaws.EnrichedMeans | release/pr_ci.py:854-928 | an enriched plan has exactly the items of the floor and of the hints that were not dropped |
| PrGate.VerifyLane | release/pr_ci.py:1134-1196 | accepts exactly the lanes whose collection, outcomes and skips agree with the plan, and reports passed nodes and skips |
| PrGate.CollectSkips | release/pr_ci.py:1161-1171 | every skip must be expected, and is reported with its edge |
| PrGate.Aggregate | release/pr_ci.py:1311-1381 | accepts exactly when all producers succeeded, every lane reported, and every reported skip is made good |
| PrGate.GateSound | release/pr_ci.py:1311-1381 | acceptance means that each collected node passed, or was skipped under an edge whose node passed in the owner's lane or whose external producer succeeded |
| PrGate.GateMeans | release/pr_ci.py:1134-1381 | acceptance means for every lane of the plan: it exited cleanly and collected something, nothing twice and nothing deselected; every node is under a selector and passed or was made good; and under every selector there is such a node |
| PrGate.ProducersMean | release/pr_ci.py:1311-1329 | and that exactly the planned producers succeeded and all others were skipped |
| PrGate.LastEdgeCounts | release/pr_ci.py:1161-1164 | of several edges for one skip the last is reported |
| PrSelected.SelectorRunsIff | release/pr_ci.py:1155-1158 | the gate makes sure that something ran under a selector exactly when the lane of the checked plan still has that selector or one under it |
| PrGate.ClosedExpectsSkip | release/pr_ci.py:1161-1171 | in a closed plan every allowlisted skip is expected |
| PrGate.ClosedOwnerRan | release/pr_ci.py:1352-1364 | in a closed plan every edge's owner ran the node |
| PrGate.GateComplete | release/pr_ci.py:1134-1381 | the gate accepts every well-behaved run of a closed plan whose selectors all have tests |
| PrEndToEnd.Select | release/pr_ci.py:639-722 | refuses an unmapped owner exactly when no closed plan covers the start; otherwise some least closed plan decides: unknown helpers are refused, then the complete inventory, and nothing else, and the result is that plan compacted, with its helpers and profile |
| PrEndToEnd.EnrichedIsClosed | release/pr_ci.py:854-928 | a selected plan enriched by selected hints is closed |
| PrEndToEnd.PlannedGateComplete | release/pr_ci.py:639-1381 | from a start through closure, finishing and every hint to the gate: each well-behaved run of the enriched plan whose selectors all have tests is accepted, lane by lane and in the aggregate |
| PrEndToEnd.PlannedGateSound | release/pr_ci.py:854-1381 | acceptance under the enriched plan means for every lane of the floor: it is there, each node it collected passed or was made good, and every floor selector is under a selector of the plan below which such a node was collected |
| PrEndToEnd.PlannedSelectorsRan | release/pr_ci.py:854-1381 | when the lanes collect every test there is, each test under a floor selector was collected and counted |
| PrEndToEnd.FloorSelectorCanVanish | release/pr_ci.py:872-898 | for every file, test in it and other test in it: a hint that names the file lets the gate accept a run of the other test alone |
| Argv.Quote | release/git_stdin_adapter.cs:18-31 | the quoting loop writes the quoted form of the argument |
| Argv.CommandLine | release/git_stdin_adapter.cs:37-38 | the joining loop writes the quoted arguments with single blanks between them |
| Argv.EscapedReadsBack | release/git_stdin_adapter.cs:20-30 | inside quotes the parser gives back the pending backslashes and the characters, and stops at the argument's end |
| Argv.RoundTrip | release/git_stdin_adapter.cs:18-38 | parsing the command line gives back the argument list exactly when no argument holds a NUL, for both published versions of the runtime |
| Argv.CommandLineInjective | release/git_stdin_adapter.cs:37-38 | different argument lists have different command lines |
| Audit.Scope | release/dependency_audit.py:137-166 | accepts exactly complete, distinct inventories with the pinned scanner and the verified exclusion; the scope is all other packages at their versions |
| Audit.ValidateReport | release/dependency_audit.py:169-196 | accepts exactly reports with one unskipped row for each third-party package at its version, and returns the number of findings |
| AuditRun.Try | release/dependency_audit.py:319-361 | one attempt ends finished, transient, or incomplete, by its evidence |
| AuditRun.Run | release/dependency_audit.py:289-382 | the retry loop records at most three attempts in order, repeats only retryable ones before the deadline, and stops for no other reason |
| AuditRun.ResultError | release/dependency_audit.py:385-429 | the gate accepts exactly the records whose commitments hold |
| AuditRun.PassedAccepted | release/dependency_audit.py:385-429 | a passed run is accepted exactly when its last worker counted no findings and no directory holds an extra file |
| AuditRun.PassedCanBeRefused | release/dependency_audit.py:338-349 | passed runs with any count of the worker and with or without an extra file exist, and the gate refuses them unless the count is zero and there is no extra file |
| AuditRun.AcceptanceMeans | release/dependency_audit.py:385-429 | acceptance means at most three attempts, all but the last transient without findings, and one clean row for every third-party package |
| AuditRun.WithinDeadline | release/dependency_audit.py:318-375 | all launched workers, also those that time out, and all sleeps together take at most the deadline, and no sleep is shorter than its backoff |
| AuditLaws.RepeatedExactly | release/dependency_audit.py:318-375 | another attempt is made exactly after a credible transient failure without findings that leaves time for it, at most three in all; each pause is the longer of 5 or 15 seconds and what the index asked for |
| AuditLaws.ConcludedExactly | release/dependency_audit.py:345-358 | a run passes exactly when its last worker measured the whole unchanged inventory and no row has a finding; it publishes that worker's report and no other |
| AuditLaws.AcceptedExactly | release/dependency_audit.py:385-429 | the gate accepts exactly when the record claims success and all its commitments hold on disk, told file by file |
| AuditLaws.CoversByPairs | release/dependency_audit.py:169-196 | a report is accepted exactly when its rows and the third-party packages pair up |
| AuditLaws.AuditableExactly | release/dependency_audit.py:137-166 | an inventory is accepted exactly when every package is there once under its normalised name, the scanner is the pinned one, and the one excluded package is the verified candidate |
| AuditLaws.NormalizedIsFixed | release/dependency_audit.py:77-80 | the admitted names are exactly the fixed points of the normalisation, and every normalised name is admitted |
| Archive.SplitJoin | release/hosted_evidence.py:463-478 | the path of a name determines the name |
| ArchiveNames.JoinSplit | release/hosted_evidence.py:463-478 | the path of a name is the one list of parts without separators that join to it |
| ArchiveNames.SafeExactly | release/hosted_evidence.py:453-485 | a member is safe exactly when its name was not rewritten, leads from every directory to itself below it, has no other separator or drive, and its mode says what its last character says |
| ArchiveNames.AcceptedIsBounded | release/hosted_evidence.py:447-451 | an accepted archive has at most 10000 members, its files have their declared lengths, and together they are at most 256 MiB |
| Archive.CollectNames | release/hosted_evidence.py:453-490 | names are safe and distinct after case folding |
| Archive.BelowFile | release/hosted_evidence.py:491-493 | finds exactly the paths below a file |
| Archive.Inventory | release/hosted_evidence.py:444-502 | an archive is accepted exactly when its bytes and its members are bounded and the members are safe, complete and unambiguous, and the inventory has each file with its content |
| Archive.Read | release/hosted_evidence.py:494-501 | each file is read once with its declared length |
| Archive.Disk.MakeParents | release/manual_release.py:682 | creates the missing directories above a path and nothing else, and fails exactly below a file |
| Archive.Disk.WriteBytes | release/manual_release.py:683 | replaces one file, and fails exactly on a directory |
| Archive.Materialize | release/manual_release.py:678-689 | writing into an empty directory and reading back succeeds exactly when no file lies above another and equal paths have equal contents |
| Archive.AcceptedIsConflictFree | release/hosted_evidence.py:444-502 | on every filesystem at most as coarse as case folding an accepted inventory has no conflicts, in any order |
| Archive.MaterializeArchive | release/manual_release.py:678-689 | an accepted archive, written in any order, is read back completely |
| JobGraph.WalkFails | release/optimization_evidence.py:227-231 | `visit` refuses every walk that meets its own ancestors |
| JobGraph.FailureHasCycle | release/optimization_evidence.py:227-231 | and refuses only when there is a cycle |
| JobGraph.Validate | release/optimization_evidence.py:219-233 | the graph is accepted exactly when all needs are jobs and no job needs itself through others |
| Intervals.NeighboursSuffice | release/optimization_measurements.py:334-336 | comparing neighbours of the sorted intervals decides whether any two overlap |
| Intervals.StepsFitJob | release/optimization_measurements.py:334-338 | disjoint steps inside a job take no more time than the job |
| Intervals.Attribute | release/optimization_measurements.py:279-322 | the loop keeps the intervals of all busy steps; each phase total is that of its own steps, and together they are all seconds |
| Intervals.Measure | release/optimization_measurements.py:279-360 | accepts exactly jobs with a non-negative queue time and numbered, non-overlapping steps inside the job, and the unattributed time is never negative |

## Left out

- Bytes and transports: git, HTTP, SQLite, ZIP, TAR, XML and YAML decoding, canonical JSON and SHA-256; digests are the values themselves.
- Record shapes: exact key sets, type tests and hash patterns are single predicates or fields such as `typed`, `identified`, `standard`, `wellFormed`, or the parameters in `ShardPlan.Rules`.
- ShardEvidence.ValidateExecution: an index that Python could not use on the list of shards is a refusal; the source raises IndexError there.
- ShardEvidence.JUnit: durations, system output and the XML attributes that no check reads are absent.
- ShardRefinement.Collection.ModifyItems: the hook alone; starting pytest, its journal file and the log files of `worker` are not modelled.
- ShardRefinement.UnshardedRun: how the coverage plug-in compares its counts with 87 percent, possibly with rounding, is an input (`Totals.enough`); `export_coverage` does not fail here.
- CoverageVerdict.ValidateCombination: the rate of the report is compared over real numbers, and the report's class entries are taken as parsed.
- Coverage of the producer side (`coverage_rows`, `combine_coverage`) is the coverage library's own decoding and is not part of this model; the source manifest is an input.
- SessionRuns.RunInv: assumes that operation ids are drawn once (`DistinctOperations`); the lock makes calls sequential and is released by a crash.
- SessionStore.Store.Primitive: an append, a replacement and a lease write are atomic; torn writes, fsync and directory entries are not modelled.
- `GitHubBackend`: what it reads back, its identity checks and its public verification are inputs of each call.
- CoordinatorRemote.Reconcile: the verdicts of the shadow and bundle verifiers are a list of statuses saved on the receipt; the `start` that may follow a superseded run is a separate operation; proposals, merges and policy evaluation are only the statuses they save.
- PrPlan.CloseSkips: lanes are visited in one fixed order and `skip_edges` is not sorted; `ClosureUnique` shows that the order does not matter for tests and jobs.
- PrGate.VerifyLane: of several edges with one key the last counts, as in the source's dictionary; retained logs and artifact hashes are absent.
- PrGate.Aggregate: the six identity keys that every report shares with the plan (repository, candidate commit and tree, run, attempt and policy) are absent.
- PrImpact.EnrichImpact: a hint is the plan selected for it, or nothing when its selection failed; hints that are changed paths themselves are not in the list.
- The rest of `select`: rule matching on changed paths and proposals in pull-request bodies are inputs of the plan; the string literals of a test file are an input of the fixture closure.
- AuditRun.Run: the isolated worker process, its exception classification and the text of messages are inputs or absent; `Step` carries one clock reading for each decision.
- AuditRun.WithinDeadline: a worker's timeout is counted from the clock reading before it is started, and killing it and judging its evidence take no time of the worker's.
- Archive.Inventory: case folding is one function on path components; it is taken not to produce or remove separators.
- `GitHub.list`, `assignments`, `matrix_rows` and `summarize_runs`: bounded pagination and dictionary building, each settled by reading one loop.
- Intervals.Measure: whole seconds instead of floating point, and the phase of a step is given.
- How Windows parses the program name, and `IdentityProbe`, which only decides whether standard input is closed.
- Concurrency other than processes that are killed: two coordinators at once, or two holders of the lock.
