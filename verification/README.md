# OSAIP verification model

OSAIP is a self-hosted data and AI platform. This project models the parts of its backend
whose correctness is a statement about whole runs, and proves those statements. `dafny verify
dfyconfig.toml` checks all of it. Each module follows one part of the program:

- **Recipe graph and planner** (`Digraph`, `RecipeGraphs`, `RecipeEdits`, `Propagation`,
  `BuildPlan`, `BuildRun`, `EditedBuilds`): the cycle check, every edit of the recipe rows, closure, layered
  order, staleness, inclusion, and a plan carried out step by step. They meet in
  `BuildAndReplan`: resolve a request, run the plan, and unless a Python recipe reads tainted
  data everything is fresh and the same request plans nothing; in `BuildEdited`, the same from
  the tables any history of edits leaves; and in `LabelsDominateLineage`.
- **Job executor** (`JobStore`, `Executor`, `Workers`, `ExecutorWitness`, `JobBuilds`): the queue's
  transactions on the rows, a state machine of many workers over them - crashes, sweeps of
  workers that are still alive, cancels, stale version numbers - the proof that the transactions
  carry out its actions, two runs that show what its premises are for, and the join with the
  planner: what such a run builds is what the plan builds step by step.
- **Budgets** (`Cost`, `Quotas`, `QuotaRuns`, `QuotaSafety`, `QuotaRace`, `QuotaReports`): reserve
  and settle for one call, and any number of calls interleaved at the level of locks and single
  statements.
- **Mesh pipeline** (`CacheKey`, `Pipeline`): one model call with all its exits and the books it
  keeps. `Begin` and `Complete` are its two transactions, so any interleaving of calls is a
  sequence of them; each keeps the cache true for every call in flight.
- **Ordered logs** (`Canonical`, `AuditLog`, `AuditWriters`, `Keyset`, `EventStream`): canonical
  JSON, the hash chain and its writers, and the event cursor with reconnects and pruning.
- **Checkpoints and step logs** (`Checkpoint`, `CheckpointRuns`, `Utf8`, `JobLogs`): resumable
  row runs over a store of batch files, and logs tailed by byte offset.
- **Redaction** (`Ascii`, `Redaction`, `Checksums`): overlapping detections, placeholders, and
  the BSN and IBAN checksums.

`Wrappers` holds `Option`, `Result` and the ids they all share.

A database transaction is one atomic step, except where the source reads in two statements; an
advisory lock is a field; object storage is a map. Clocks, the provider, the guardrails, the
hash and the token estimator are parameters. UUIDs are numbers: the text order of fixed-width
hexadecimal is the numeric order. SHA-256 is assumed collision-free only on the texts of the
logs compared; cache keys are compared as the requests they hash, which `KeyTextIsInjective`
justifies up to collisions.

## Where the code does less than its comments say

- The budget check reads the ledger and the open holds in two statements, and a settle takes no
  lock. Under read-committed isolation (the engine sets no other) a settle that commits between
  the two is in neither sum, so concurrent calls can overshoot a blocking budget, up to twice
  its limit and no further (`RacedSettleOvershoots`, `NoOvershoot`); a settle that waited for the
  scope's lock would never overshoot it (`LockedSettleNeverOvershoots`).
- A worker that dies between marking a step failed and finalizing its job leaves a job that a
  retry ends as `succeeded` (`LostEndingSucceeds`); a swept worker that is still alive can make
  one step publish twice (`ZombiePublishesTwice`).
- Event pruning deletes by timestamp, which is a prefix only under `PruneIsPrefixIff`; a log
  pruned to nothing loses events without a reset (`LossAnnouncedIff`).
- An operator is meant to hear about a budget once. But the hold that took a window over is
  replaced by the smaller cost when the call settles, so the next call can cross again: with a
  limit of 100 and 90 spent, a call holding 20 reports, settles at 5, and the next holding 20
  reports too. Every call of a window can (`EveryCallReports`); `ReportsTwice` says what must have
  happened between two reports.
- A call-limit crossing is never reported when the call that crosses it has the cost limit over
  too (`CallsCrossingIsReported`). All of these speak of `just_crossed`. Whether anyone is told
  is less than that: a call whose provider fails stays in the ledger but is never notified about
  (apps/mesh/osaip_mesh/pipeline.py:417-480), nor is a call without a user (lines 521-522). As
  long as calls stay counted only the crossing one can report a call limit, so when that call
  fails nobody hears of it.
- The cache key does not tell a temperature of 0.00004 from 0 (`ColdKeyShared`); the exact test of
  cacheability does, so the cache refines no cache for every provider that is deterministic on
  cacheable calls (`Run`, `RunAll`). The key leaves out `request.extra`, which the modelled
  request does not have either.

## Model

| member | source | states |
|---|---|---|
| RecipeGraphs.UpstreamDatasets | apps/api/osaip_api/recipes_service.py:95-107 | the depth-first walk adds to the shared `seen` exactly what lies upstream of the root, or reports that it met an output |
| RecipeGraphs.WouldCreateCycle | apps/api/osaip_api/recipes_service.py:75-110 | true if and only if the overlaid dataset graph has a cycle, given that the graph without the edited recipe has none; the `seen` shared between roots included |
| RecipeGraphs.CycleNeedsTheRecipe | apps/api/osaip_api/recipes_service.py:75-110 | every cycle of the overlaid graph runs through the edited recipe, so looking for an output upstream of an input is enough |
| RecipeGraphs.RecipeDepsAcyclic | apps/api/osaip_api/build_service.py:82-101 | a cycle of recipes is a cycle of datasets, so on an acyclic graph the build order exists |
| RecipeEdits.LoadedGraphSound | apps/api/osaip_api/recipes_service.py:27-59 | the graph loaded from single-producer rows is single-producer, and acyclic when the rows are |
| RecipeEdits.EditKeepsAcyclic | apps/api/osaip_api/routers/recipes.py:344-357 | once the cycle check has passed, writing the recipe's rows keeps the graph acyclic |
| RecipeEdits.AcyclicEditPasses | apps/api/osaip_api/routers/recipes.py:344-357 | and the check refuses no edit whose rows stay acyclic and keep the recipe's other outputs |
| RecipeEdits.FewerRowsAcyclic | apps/api/osaip_api/routers/recipes.py:646-678 | deleting rows never makes a cycle |
| RecipeEdits.RecipeStore.LoadGraph | apps/api/osaip_api/recipes_service.py:27-59 | each loaded output points at its producer, each recipe keeps its ordered rows, archived recipes are absent |
| RecipeEdits.RecipeStore.ProvisionOutputs | apps/api/osaip_api/recipes_service.py:113-181 | refused for exactly the first reason that applies (the number of outputs, then the first name that is archived or already produced); otherwise one dataset per name, created or adopted, and nothing else is written |
| RecipeEdits.RecipeStore.ResolveInputs | apps/api/osaip_api/routers/recipes.py:147-174 | the active datasets in the order requested, or an error when a name is missing |
| RecipeEdits.RecipeStore.CreateRecipe | apps/api/osaip_api/routers/recipes.py:303-421 | fails exactly when the inputs cannot be resolved, their number is wrong, the outputs cannot be provisioned, the graph would cycle or a row would repeat, with the first of these as the error and every table restored; otherwise writes exactly the new recipe's rows and datasets; the rows stay single-producer and acyclic |
| RecipeEdits.RecipeStore.PatchRecipe | apps/api/osaip_api/routers/recipes.py:491-643 | fails exactly when the recipe is not active or one of those reasons applies to the new wiring, restoring everything; otherwise changes exactly the patched recipe's rows; an omitted side is kept; the invariant is kept |
| RecipeEdits.RecipeStore.ArchiveRecipe | apps/api/osaip_api/routers/recipes.py:646-678 | the recipe leaves the graph with its outputs producer-less; the invariant is kept; an unknown or archived recipe is an error that changes nothing |
| RecipeEdits.CreateKeepsValid | apps/api/osaip_api/routers/recipes.py:303-421 | the invariant of all five tables (single-producer, acyclic, ids, nothing archived wired) survives every accepted creation |
| RecipeEdits.PatchKeepsValid | apps/api/osaip_api/routers/recipes.py:491-643 | and every accepted rewiring, adopted datasets and freed outputs included |
| RecipeEdits.ArchivingKeepsValid | apps/api/osaip_api/routers/datasets.py:585-611 | and archiving a dataset that no active recipe reads or writes |
| RecipeEdits.CreateKeepsShaped | apps/api/osaip_api/routers/recipes.py:303-421 | a creation leaves every active recipe with the inputs and outputs its kind asks for, all of them registered datasets |
| RecipeEdits.PatchKeepsShaped | apps/api/osaip_api/routers/recipes.py:491-643 | and so does a rewiring |
| RecipeEdits.RecipeStore.RegisterDataset | apps/api/osaip_api/routers/datasets.py:226-246 | a source dataset under a new name, or an error when the name is in use, archived names included |
| RecipeEdits.RecipeStore.ArchiveDataset | apps/api/osaip_api/routers/datasets.py:585-611 | an active dataset is archived if and only if no active recipe reads or writes it; the invariant is kept |
| Propagation.ApplyFloorIsLeast | apps/api/osaip_api/propagation.py:17-38 | the ratchet yields the least labels above the output's own and every input's |
| Propagation.RatchetBlocks | apps/worker/osaip_worker/executor.py:107-116 | the ratcheted output carries a blocking label exactly when its own labels or an input's did |
| Propagation.RatchetExceeds | apps/api/osaip_api/propagation.py:30-38 | the same for every bound: the ratchet lets the output exceed a level exactly when it or an input already did |
| BuildPlan.UpstreamClosure | apps/api/osaip_api/build_service.py:59-72 | the worklist returns exactly the recipes reachable upstream from the targets' producers |
| BuildPlan.TopoOrder | apps/api/osaip_api/build_service.py:75-101 | fails exactly on a cycle; otherwise a permutation of the closure ordered by (longest chain, id), so producers precede consumers |
| BuildPlan.StuckMeansCycle | apps/api/osaip_api/build_service.py:89-93 | a layer with nothing ready means that some pending recipes form a cycle |
| BuildPlan.ResolveTargets | apps/api/osaip_api/build_service.py:29-56 | the active datasets named, in order, or the missing-target error |
| BuildPlan.IncludeSteps | apps/api/osaip_api/build_service.py:184-205 | the inclusion loop selects exactly the due recipes: forced, or with a stale recipe upstream or equal |
| BuildPlan.DueByInputs | apps/api/osaip_api/build_service.py:184-205 | staleness spreads one edge at a time: due is stale, or reading from a due recipe |
| BuildPlan.ResolveBuild | apps/api/osaip_api/build_service.py:104-205 | the plan is exactly the due closure recipes with their primary outputs, ordered by (depth, id); the errors exactly: a missing target if a name is unknown, else a producer-less target if there is one, else a cycle if the closure has one |
| BuildRun.PlanIsOrdered | apps/api/osaip_api/build_service.py:75-101 | no plan step rebuilds a dataset that it or an earlier step has read |
| BuildRun.UntargetedUnchanged | apps/worker/osaip_worker/executor.py:406-480 | a dataset that no step targets keeps its row and its versions |
| BuildRun.RunBuilds | apps/worker/osaip_worker/executor.py:297-319 | each step leaves one more version, recorded with the recipe's hash and the versions its inputs still have at the end, under labels at least its old ones and its inputs' |
| BuildRun.RunLeavesFresh | apps/api/osaip_api/recipes_service.py:194-210 | whatever the plan reads, if its run ends well every recipe of the closure is fresh; RunSucceedsIff and PlanRunsIff say when it does |
| BuildRun.ReplanIsEmpty | apps/api/osaip_api/build_service.py:164-205 | and planning again without force finds nothing to do |
| BuildRun.RunSucceedsIff | apps/worker/osaip_worker/executor.py:297-314 | an ordered plan runs to its end if and only if, read off the rows before it starts, each step's inputs are built by then and no Python recipe reads a tainted one |
| BuildRun.PlanRunsIff | apps/api/osaip_api/build_service.py:104-205 | a resolved plan over built sources whose closure reads primary outputs runs to its end if and only if no Python recipe of it reads tainted data |
| BuildRun.PlanThenRun | apps/api/osaip_api/build_service.py:164-205 | such an untainted plan runs to its end, leaves every recipe of the closure fresh, and leaves every unforced plan of the closure empty |
| BuildRun.BuildAndReplan | apps/api/osaip_api/build_service.py:104-205 | from the request: resolve, run, resolve again; the run ends well exactly when the plan is untainted, and then everything is fresh and the second plan is empty |
| BuildRun.TaintPropagates | apps/worker/osaip_worker/executor.py:107-116 | for every bound, after the run a dataset's labels exceed it exactly when its own, or those of something it was rebuilt from, did before; a blocking label is one such bound |
| BuildRun.LabelsDominateLineage | apps/api/osaip_api/propagation.py:17-38 | after any ordered plan has run, a dataset's labels dominate those of everything it was transitively rebuilt from |
| BuildRun.ForcedLineage | apps/api/osaip_api/build_service.py:184-205 | a forced plan whose closure reads primary outputs rebuilds everything from its whole lineage, so there domination reaches every upstream dataset |
| EditedBuilds.EditedGraphPlans | apps/api/osaip_api/recipes_service.py:27-59 | after any history of edits the loaded graph has no cycle and one producer per dataset, and every recipe upstream of a target has its inputs and a primary output among the active datasets |
| EditedBuilds.PlanEdited | apps/api/osaip_api/build_service.py:104-205 | planning from the edited tables never meets a cycle: it succeeds if and only if every target is an active dataset that a recipe produces |
| EditedBuilds.BuildEdited | apps/api/osaip_api/build_service.py:104-205 | from the edited tables to fresh data: with built sources and primary reads the run ends well exactly when no Python recipe reads tainted data, and then all is fresh and the same request plans nothing |
| JobStore.Database.CreateJob | apps/api/osaip_api/routers/builds.py:177-216 | a queued job with one queued step per plan step, or one already succeeded when the plan is empty |
| JobStore.Database.Claim | apps/worker/osaip_worker/executor.py:180-205 | claims a queued job than which none queued is older, or none when nothing is queued, and touches nothing else |
| JobStore.Database.FinalizeJob | apps/worker/osaip_worker/executor.py:519-535 | a no-op unless the job is running; a failure or cancel skips what is still active |
| JobStore.Database.Sweep | apps/worker/osaip_worker/executor.py:593-641 | exactly the stale running jobs are requeued with their running steps reset, or failed after MAX_ATTEMPTS |
| JobStore.Database.CancelJob | apps/api/osaip_api/routers/builds.py:322-361 | a queued job ends at once, a running one is flagged, a terminal one is left alone |
| JobStore.FlipIsNext | apps/worker/osaip_worker/executor.py:406-480 | a commit carrying a version number read at any earlier time either flips its dataset to exactly the next version, leaving every other step, job and dataset alone, or changes nothing; it conflicts exactly when the number has been overtaken; version rows stay exactly 1..current_version |
| Workers.Pool.Claim | apps/worker/osaip_worker/executor.py:180-205 | the queue's claim is the state machine's claim by this worker, of an oldest queued job; the invariants of any run hold after it |
| Workers.Pool.Start | apps/worker/osaip_worker/executor.py:484-495 | _start_step is the machine's start, the failure on an unwired step included |
| Workers.Pool.Commit | apps/worker/osaip_worker/executor.py:406-480 | _commit_version is the machine's commit, each of its four outcomes sending the worker where the machine does |
| Workers.Pool.Skip | apps/worker/osaip_worker/executor.py:505-510 | _skip_step is the machine's skip |
| Workers.Pool.Fail | apps/worker/osaip_worker/executor.py:497-503 | _fail_step is the machine's fail |
| Workers.Pool.Finish | apps/worker/osaip_worker/executor.py:519-535 | _finalize_job is the machine's finish |
| Workers.Pool.Sweep | apps/worker/osaip_worker/executor.py:593-641 | the sweep is the machine's sweep of exactly the stale running jobs |
| Workers.Pool.Beat | apps/worker/osaip_worker/executor.py:552-568 | a heartbeat is the machine's beat, and nothing when the job no longer runs |
| Workers.Pool.CreateJob | apps/api/osaip_api/routers/builds.py:177-216 | create_build is the machine's creation of a job |
| Workers.Pool.CancelJob | apps/api/osaip_api/routers/builds.py:322-361 | cancel_job is the machine's cancel |
| Workers.Pool.Think | apps/worker/osaip_worker/executor.py:209-269 | loading the plan, moving to the next step or ending, reading the next number and aborting are the machine's moves of one worker |
| Workers.Pool.Die | apps/worker/osaip_worker/executor.py:209-269 | a worker's death, wherever it stands, is the machine's crash and touches no row |
| Executor.InitiallySafe | apps/worker/osaip_worker/executor.py:180-205 | an empty queue over exact version rows satisfies every invariant below |
| Executor.VersionSafety | apps/worker/osaip_worker/executor.py:423-480 | in every run, swept workers that live on included, a dataset's committed versions are exactly 1..current_version |
| Executor.StepKeepsVersions | apps/worker/osaip_worker/executor.py:406-480 | exactly the commits that flip change current_version and the version rows, each for one dataset and to exactly its next number |
| Executor.JobLifecycle | apps/worker/osaip_worker/executor.py:593-641 | no job is claimed more than MAX_ATTEMPTS + 1 times, terminal statuses are never left, an accepted cancel is never forgotten |
| Executor.StepKeepsCount | apps/worker/osaip_worker/executor.py:180-205 | the number of claims is `attempts` while queued and `attempts + 1` while running |
| Executor.CancelStopsPublishing | apps/worker/osaip_worker/executor.py:432-438 | once a cancel is accepted no later flip by the job succeeds, in any worker and after any requeue |
| Executor.CancelIsAccepted | apps/api/osaip_api/routers/builds.py:351-361 | after a cancel the job is flagged exactly when it was not terminal or was flagged before; a terminal job is untouched and a queued one ends with nothing active |
| Executor.CrashStopSafety | apps/worker/osaip_worker/executor.py:209-269 | in crash-stop runs no job has two workers, each step publishes at most one version over all retries, and it is `succeeded` exactly when it has published |
| Executor.SucceededMeansAll | apps/worker/osaip_worker/executor.py:519-535 | in crash-stop runs where no worker dies between marking a step and finalizing, a succeeded job has only succeeded steps |
| Executor.FromInitial | apps/worker/osaip_worker/executor.py:180-269 | all of it for every run from an empty queue: exact versions and bounded claims always, exclusive workers and once-published steps under crash-stop, succeeded jobs complete when no ending is lost |
| Executor.StepFate | apps/worker/osaip_worker/executor.py:484-510 | in crash-stop runs no action changes a step that has ended, and a step ends `succeeded` exactly by a flip of its own |
| ExecutorWitness.ZombiePublishesTwice | apps/worker/osaip_worker/executor.py:593-641 | a legal run from an empty queue, with a sweep of a live worker, in which one step publishes two versions: the crash-stop premise is needed |
| ExecutorWitness.LostEndingSucceeds | apps/worker/osaip_worker/executor.py:243-245 | a crash-stop run from an empty queue, with a crash between failing a step and finalizing, in which the job ends `succeeded` with a failed step: that premise is needed too |
| JobBuilds.JobIsRun | apps/worker/osaip_worker/executor.py:209-480 | a crash-stop run of a plan's job, with any crashes, sweeps, retries and cancels, whose steps have all succeeded has built exactly what carrying the plan out step by step builds: versions, consumed input versions and labels |
| JobBuilds.JobLeavesFresh | apps/worker/osaip_worker/executor.py:271-480 | so every recipe of the plan's closure is then fresh and an unforced plan of it is empty |
| JobBuilds.SucceededJobLeavesFresh | apps/worker/osaip_worker/executor.py:519-535 | and that is so whenever the job ends `succeeded` and no worker died between marking a step and finalizing |
| Cost.CostIsNearest | apps/mesh/osaip_mesh/cost.py:42-53 | the cost is the one integer within half a micro of the exact total, the upper one on a tie |
| Cost.ActualWithinHold | apps/mesh/osaip_mesh/pipeline.py:509-513 | reported tokens within the estimate and max_tokens never cost more than the worst case that was held |
| Cost.TruncationUnderBills | apps/mesh/osaip_mesh/cost.py:42-53 | per-token truncation never bills more than rounding the total, and can bill less |
| Quotas.DayWindows | apps/mesh/osaip_mesh/quotas.py:101-106 | two instants share a day window exactly when they fall on the same day |
| Quotas.CostCrossingIsReported | apps/mesh/osaip_mesh/quotas.py:70-81 | over the checks of one cost budget, settles below their holds and lapses included, that starts within its limit: some check reports a crossing if and only if some check finds it over |
| Quotas.CallsCrossingIsReported | apps/mesh/osaip_mesh/quotas.py:62-81 | however the calls settle, the only check that can report a call limit is the one that crosses it, and it does if and only if it finds the cost budget within its limit |
| Quotas.ReportsAreApart | apps/mesh/osaip_mesh/quotas.py:70-81 | for any history of checks: between two reports of one limit some check finds the usage back within it where the one before left it over |
| Quotas.InOrderSorts | apps/mesh/osaip_mesh/quotas.py:170 | the lock order is one ascending order of exactly the call's scopes |
| Quotas.QuotaStore.CheckScope | apps/mesh/osaip_mesh/quotas.py:205-226 | every budget of the scope is checked: granted exactly when no blocking one is exceeded, with the exceeded warning ones listed in order |
| Quotas.QuotaStore.Reserve | apps/mesh/osaip_mesh/quotas.py:156-243 | granted exactly when every blocking quota of every scope has room, then one hold per budgeted scope; a refusal changes nothing |
| Quotas.QuotaStore.Settle | apps/mesh/osaip_mesh/quotas.py:246-261 | every hold of the call is closed at the actual cost, in the same step as its ledger row |
| QuotaRuns.RefusalLeavesNothing | apps/mesh/osaip_mesh/quotas.py:221-225 | over any interleaving a refused or crashed reserve leaves no hold on any scope, and a granted one holds on every budgeted scope |
| QuotaRuns.StepKeepsLocks | apps/mesh/osaip_mesh/quotas.py:203-204 | each scope lock has one holder, held from the check until commit, refusal or crash |
| QuotaSafety.NoOvershoot | apps/mesh/osaip_mesh/quotas.py:119-153 | over any interleaving in one window, from a quiet start within a blocking limit, ledger plus live holds is at most twice the limit, and exceeds the limit by at most the most that was settled between the two reads of one check that passed; for cost and for calls |
| QuotaReports.ReportsTwice | apps/mesh/osaip_mesh/quotas.py:119-153 | over any interleaving in one window: when a granted call has reported a limit and a later call reports it again, a settle for less than its hold has brought the usage back within the limit in between, or a hold has lapsed, or the later call has missed a settle between its two reads |
| QuotaReports.ReportedOnce | apps/mesh/osaip_mesh/quotas.py:70-81 | so with none of these the later call does not report; a call limit needs no premise on what calls cost |
| QuotaReports.EveryCallReports | apps/mesh/osaip_mesh/quotas.py:246-261 | for every limit and every n, n calls one after another that all report the same cost budget, each holding more than the limit and settling at nothing |
| QuotaSafety.LockedSettleNeverOvershoots | apps/mesh/osaip_mesh/quotas.py:246-261 | were settles to wait while a check is between its reads, every such run would stay within the limit |
| QuotaRace.RacedSettleOvershoots | apps/mesh/osaip_mesh/quotas.py:131-153 | for every limit a run that meets the bound: from nothing spent, two calls of the whole limit each, the first settling between the second's two sums, end at exactly twice the limit |
| QuotaSafety.SettlingFrees | apps/mesh/osaip_mesh/quotas.py:246-261 | settling takes at least the call's live hold out of the window sum |
| QuotaSafety.NoDeadlock | apps/mesh/osaip_mesh/quotas.py:26-28 | while any reserve is unfinished some reserve has an enabled step: the chain of lock holders ascends |
| QuotaSafety.StepsRunOut | apps/mesh/osaip_mesh/quotas.py:198-243 | the reserve steps of any run are bounded by the work its calls bring |
| Canonical.QuotedReads | apps/api/osaip_api/audit.py:77-79 | an escaped JSON string says where it ends: the text determines the string and the rest |
| Canonical.SortedKeysIsTheOnlyOrder | apps/api/osaip_api/audit.py:77-79 | the key order is the one ascending listing of the keys in code-point order |
| Canonical.PrintReads | apps/api/osaip_api/audit.py:77-79 | no printed value is the start of another, whatever separator follows |
| Canonical.PrintIsInjective | apps/api/osaip_api/audit.py:35-79 | two JSON trees print alike if and only if they are the same tree, a float being its printed text |
| Canonical.AcceptedIsPrintable | apps/api/osaip_api/audit.py:35-51 | whatever the float check lets through has a canonical text |
| AuditLog.CanonicalRowIsInjective | apps/api/osaip_api/audit.py:54-79 | two rows have the same canonical text if and only if they say the same |
| AuditLog.VerifyChain | apps/api/osaip_api/audit.py:146-191 | for rows holding any JSON, floats included, the batched walk returns intact, or the first row that does not link and why, for every batch size of at least one |
| AuditLog.VerdictIsUnique | apps/api/osaip_api/audit.py:146-191 | that verdict is unique, so it does not depend on the batch size |
| AuditLog.HeadDeterminesLog | apps/api/osaip_api/audit.py:82-83 | two logs, of any JSON, that verify and share a head hash are the same log, sequence numbers aside, when the hash does not collide on their texts |
| AuditLog.CutLogVerifies | apps/api/osaip_api/audit.py:146-191 | what the chain cannot show: a log cut short still verifies |
| AuditWriters.CommittedAlwaysVerifies | apps/api/osaip_api/audit.py:86-135 | for any interleaving of writers that lock, read the head, append and commit or abort, the committed rows always verify |
| AuditWriters.VerifiesFromEmpty | apps/api/osaip_api/audit.py:86-135 | so from an empty table every interleaving leaves a chain that is judged intact |
| AuditWriters.AuditTable.WriteAudit | apps/api/osaip_api/audit.py:86-135 | refuses exactly the details JSON cannot carry, otherwise appends one row linked to the head, and the table verifies after it |
| AuditWriters.CommittedOnlyGrows | apps/api/osaip_api/audit.py:86-135 | over any run, aborts and held locks included, the committed rows keep what they held as a prefix: no row is ever changed, removed or inserted before another |
| Keyset.FetchContinues | apps/api/osaip_api/audit.py:151-163 | a keyset batch is the next rows of the table, none skipped or repeated |
| EventStream.WantedIsExact | apps/api/osaip_api/routers/events.py:46-53 | what a subscriber is to receive holds each wanted event once and nothing else |
| EventStream.Drain | apps/api/osaip_api/routers/events.py:97-108 | draining in batches of 500 sends exactly the wanted events after the cursor, in order, and leaves the cursor at the last event read |
| EventStream.StepKeepsLog | apps/api/osaip_api/events.py:27-45 | uncommitted events are numbered above everything committed, so no cursor passes an event that commits later |
| EventStream.ExactlyOnce | apps/api/osaip_api/routers/events.py:82-117 | across batches, drops and reconnects from the last received id, with publishers interleaved and aborting, the client has received exactly what it wants of everything since its start (the head of the log at its last announced restart, or the start it had), each event once, in order and none skipped |
| EventStream.ExactlyOnceFromFresh | apps/api/osaip_api/routers/events.py:82-117 | the same for every run from an empty log and a client that has yet to connect |
| EventStream.CaughtUp | apps/api/osaip_api/events.py:113-124 | when a connected stream finds nothing to fetch, nothing wanted is missing |
| EventStream.LossAnnouncedIff | apps/api/osaip_api/routers/events.py:86-92 | under prefix pruning a reconnect that has lost events announces it if and only if at least one event is retained |
| EventStream.PruneIsPrefixIff | apps/worker/osaip_worker/main.py:80 | pruning by timestamp removes a prefix for every cutoff if and only if timestamps never run against sequence numbers |
| Checkpoint.NameIsFree | apps/worker/osaip_worker/llm_step.py:287-294 | a save never replaces a file that holds rows |
| Checkpoint.SaveAdds | apps/worker/osaip_worker/llm_step.py:287-294 | saving new rows, whole or cut short, keeps files disjoint and only adds to what is stored |
| Checkpoint.OneRowPerIndex | apps/worker/osaip_worker/llm_step.py:259-285 | no two stored rows share an index, so the order in which files are loaded does not matter |
| Checkpoint.StepStore.Save | apps/worker/osaip_worker/llm_step.py:287-294 | an empty batch writes nothing; otherwise one file, named for the least index |
| Checkpoint.BatchSaved | apps/worker/osaip_worker/llm_step.py:128-160 | after a batch and its checkpoint, what is stored is what is done, and the rest is still pending |
| Checkpoint.StepStore.Load | apps/worker/osaip_worker/llm_step.py:259-285 | the loaded map is exactly the rows of all readable files |
| Checkpoint.StepStore.RunRows | apps/worker/osaip_worker/llm_step.py:97-167 | stored rows only grow and only as the mesh answered; a finished step has row i at place i; an abort names a fatal row |
| Checkpoint.CallBatch | apps/worker/osaip_worker/llm_step.py:170-222 | a batch gives one result per row, or the fatal slug of one of them |
| CheckpointRuns.HistoryIsSound | apps/worker/osaip_worker/llm_step.py:254-296 | over any history of crashes, cut saves, cancels and resumes no stored row is lost and a finished step is complete and in order |
| CheckpointRuns.CallsBounded | apps/worker/osaip_worker/llm_step.py:97-167 | total mesh calls are at most n plus checkpoint_every for each interrupted batch |
| CheckpointRuns.SameAsUninterrupted | apps/worker/osaip_worker/llm_step.py:162-167 | with a deterministic mesh, a step that finishes after any interruptions gives what one uninterrupted run gives |
| CheckpointRuns.FromFresh | apps/worker/osaip_worker/llm_step.py:97-167 | all three for every history of a step that starts with nothing stored |
| CacheKey.KeyTextIsInjective | apps/mesh/osaip_mesh/cache.py:33-54 | two requests share a key text if and only if connection, project, model, max_tokens, four-decimal temperature and redacted messages agree |
| CacheKey.ColdKeyShared | apps/mesh/osaip_mesh/cache.py:47-48 | exactly the temperatures within half a ten-thousandth of zero share zero's key; only the exact cacheability test keeps them apart |
| Pipeline.SettlesWithinHold | apps/mesh/osaip_mesh/pipeline.py:509-513 | a call whose tokens stay within the estimate settles within its hold, hit or not |
| Pipeline.SpanKeepsTotals | apps/mesh/osaip_mesh/ledger.py:131-196 | recording a span under a new or shared trace keeps every trace's totals the count and cost of its spans |
| Pipeline.StoreKeepsCache | apps/mesh/osaip_mesh/cache.py:100-139 | every cache entry keeps an accepted, unhit, temperature-zero call of its own key behind it |
| Pipeline.HitProvenance | apps/mesh/osaip_mesh/cache.py:75-97 | a hit is unexpired, and was stored by an accepted call of the same project and connection with the same redacted messages at temperature zero |
| Pipeline.Mesh.Begin | apps/mesh/osaip_mesh/pipeline.py:125-193 | the gates in their order (use, residency, input check, provider) and the exit each gives; past them the call is let through if and only if every scope has room, and then holds its worst case on each budgeted scope; any exit here changes no book |
| Pipeline.Mesh.Settle | apps/mesh/osaip_mesh/pipeline.py:298-403 | one ledger row, one span, every hold closed at the row's cost, and a cache entry only for an accepted fresh answer |
| Pipeline.Mesh.Complete | apps/mesh/osaip_mesh/pipeline.py:195-295 | every outcome of provider and post-check settles exactly once: failures at zero, rejections at the real cost and uncached, hits at zero; while the provider is deterministic on cacheable calls the caller is shown what the uncached pipeline shows, whatever calls are in flight beside it |
| Pipeline.Mesh.Run | apps/mesh/osaip_mesh/pipeline.py:110-295 | an exit after the reservation leaves exactly one more ledger row and span and no new open reservation, one before it leaves none; with a provider deterministic on cacheable calls alone, a caller is shown what the uncached pipeline shows, hit or not |
| Pipeline.Mesh.RunAll | apps/mesh/osaip_mesh/pipeline.py:110-295 | the same for every caller of any sequence of calls, warm, cold, evaluation and guardrail calls mixed |
| Utf8.DecodeEncode | apps/api/osaip_api/job_logs.py:90 | decoding whole encoded text gives it back, with no replacement character put in |
| JobLogs.StepLogWriter.Write | apps/api/osaip_api/job_logs.py:41-45 | text is only buffered, and its bytes are counted |
| JobLogs.StepLogWriter.Flush | apps/api/osaip_api/job_logs.py:50-60 | the text written since the last flush becomes one more chunk, if there is any, earlier chunks are untouched, and the total is the number of bytes flushed |
| JobLogs.StepLogWriter.Log | apps/api/osaip_api/job_logs.py:27-48 | the writer's protocol of writing and then flushing when enough has buffered loses no text and leaves less than FLUSH_BYTES in memory |
| JobLogs.ReadStepLog | apps/api/osaip_api/job_logs.py:63-90 | exactly the bytes from `after` on, and the total as next_offset, for any chunks and any `after` |
| JobLogs.PollingReconstructs | apps/api/osaip_api/job_logs.py:63-90 | a client polling by next_offset always holds a whole-character prefix of the flushed text, and all of it right after a poll |
| JobLogs.TailedLog.Poll | apps/api/osaip_api/job_logs.py:63-90 | read_step_log from the last offset is the polling machine's poll: the client then holds all the flushed text |
| JobLogs.TailedLog.Flush | apps/api/osaip_api/job_logs.py:50-60 | the writer's flush is the machine's, and leaves the client a whole-character prefix |
| JobLogs.TailedLog.Write | apps/api/osaip_api/job_logs.py:41-45 | and the writer's write is the machine's |
| Redaction.SortedSorts | packages/guardrails/osaip_guardrails/detectors.py:116 | the sort puts detections in order of start, then longest first |
| Redaction.DetectAll | packages/guardrails/osaip_guardrails/detectors.py:107-124 | the kept detections are a disjoint selection in document order, and each dropped one starts inside a kept one that begins earlier or is at least as long |
| Redaction.ApplyRedactions | packages/guardrails/osaip_guardrails/redact.py:9-15 | any detections, overlapping or not, are replaced one after another in descending order of start; when each ends before the one replaced before it, that equals the left-to-right weave of untouched gaps and placeholders |
| Redaction.ApartFits | packages/guardrails/osaip_guardrails/redact.py:13 | detections that do not overlap meet that condition whatever order they are listed in |
| Redaction.Redact | packages/guardrails/osaip_guardrails/redact.py:18-35 | whatever overlapping detections are found, exactly the kept ones are replaced, and every one found is kept or starts inside a kept one |
| Checksums.OneDigitChanged | packages/guardrails/osaip_guardrails/detectors.py:42-55 | the 11-proef rejects every change of one digit of a valid nine-digit number |
| Checksums.NeighboursSwapped | packages/guardrails/osaip_guardrails/detectors.py:42-55 | and every swap of two different neighbouring digits |
| Checksums.OneCharacterChanged | packages/guardrails/osaip_guardrails/detectors.py:58-68 | the mod-97 check rejects every change of one digit into another or one letter into another |

## Left out

- JobBuilds.JobIsRun: one job, with no other job, edit or hand-set label during the run; the recipe's hash is read when the build begins and stays the same.
- EditedBuilds.BuildEdited: that the project's rows agree with the editors' tables is a premise, since the two are modelled apart.
- BuildRun.RunLeavesFresh: no edit of recipes or rows during the run, as the planner assumes.
- BuildRun.LabelsDominateLineage: no label is edited by hand during the run.
- RecipeEdits.RecipeStore.CreateRecipe: recipe names, configuration validation, the CP-1 labels written at recipe save and purpose codes are not modelled; edits are serial, since the source does not serialise concurrent ones.
- Executor.CrashStopSafety: stated for runs in which only crashed workers are swept; the log lines, artifact bytes and per-step errors are not modelled.
- JobStore.Database.Sweep: the order in which stale jobs are taken (SKIP LOCKED) is not modelled; each is updated on its own.
- QuotaReports.ReportsTwice: one window; notification itself (who is told, and that a failed or refused call tells nobody) is not modelled.
- QuotaSafety.NoOvershoot: one window, holds that settle within the TTL or never, actual costs within their holds, and quotas that do not change during the run; a call reserved in one window and settled in the next is not bounded by the second.
- Quotas.QuotaStore.Settle: closes holds by call instead of by row id, which one reservation per call makes the same.
- Quotas.DayWindows: the month's first instant is a parameter; only the day window's arithmetic is modelled.
- Cost.CostIsNearest: Decimal's 28-digit precision is not modelled; the division is exact.
- AuditLog.HeadDeterminesLog: sequence numbers are outside the hash, so an order-preserving renumbering is not excluded; ids and timestamps are their fixed-width texts.
- AuditWriters.AuditTable.WriteAudit: a float in details is its printed text; which text a float prints as is not modelled, nor are NaN and the infinities as numbers.
- AuditLog.VerifyChain: for batch sizes of at least one; a limit of zero fetches nothing and reports an intact chain.
- EventStream.ExactlyOnce: for pruning that takes a prefix, keeps at least one event and does not overtake a connected cursor; project memberships and roles stay fixed during a subscription.
- EventStream.Drain: wake-ups (NOTIFY, the broker's waiters, the five-second timeout) decide only when it happens.
- Checkpoint.StepStore.RunRows: calls of a batch are made one after another; bounded concurrency changes only the order of calls, which gathering hides.
- CheckpointRuns.SameAsUninterrupted: a file line that was cut short never parses as a whole record, so a cut file is its readable rows.
- Pipeline.Mesh.Begin: the reserve is one step here; its locks, two-statement reads and interleavings are in QuotaRuns and QuotaSafety.
- Pipeline.Mesh.Run: guardrail events, audited message rows, quota warning notifications and latency are not modelled; a process death between the two transactions leaves the reservation open, which the invariant counts.
- CacheKey.ColdKeyShared: decimal rounding is half-up here, half-even in the source, which differs only on ties; the router refuses negative temperatures, whose text would carry a sign.
- Utf8.DecodeEncode: the replacement of invalid bytes is one character per byte; only whole characters reach it in the polling client.
- Redaction.Redact: the detections are a parameter, each a non-empty span of the text; the event's counts by kind are not modelled.
- JobLogs.StepLogWriter.Flush: one writer per log prefix; a retried step's writer starts again at chunk 0 over the old chunks.
- Checksums.OneCharacterChanged: for candidates already free of spaces and in upper case, digits and letters of ASCII.
- The regular expressions that find candidates, spaCy and Presidio detections, and the guardrail policies.
- DuckDB, Ibis and SQL compilation, so what a build computes; only which versions it reads and publishes.
- `prune_orphans`, the sweeps of idempotency keys and expired cache rows: thin, or safe only relative to their own snapshot.
- `purpose_intersection`, `legal_basis_union`, usage reports, permissions, idempotency, routing and the web interface: no hard property.
