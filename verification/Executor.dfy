/** Many workers over one queue: every interleaving of their transactions, with crashes,
    sweeps of live workers, and cancels (executor.py). */
module Executor {
  import opened JobStore
  import opened Wrappers

  /** Where a worker stands between two of its transactions. `plan` is the snapshot of which
      steps were queued when the job was loaded. */
  datatype Pc =
    | Idle
    | Loading(job: Id)
    | Between(job: Id, plan: seq<bool>, k: nat)
    | Starting(job: Id, plan: seq<bool>, k: nat)
    | Reading(job: Id, plan: seq<bool>, k: nat)
    | Building(job: Id, plan: seq<bool>, k: nat, next: nat)
    | Skipping(job: Id, k: nat)
    | Failing(job: Id, k: nat)
    | Ending(job: Id, outcome: JobStatus)

  /** `claims` and `published` are history: how often each job was claimed, and how many
      versions each step has flipped. */
  datatype State = State(rows: Rows, workers: map<Id, Pc>, claims: map<Id, nat>, published: map<(Id, nat), nat>)

  datatype Action =
    | Create(j: Id, targets: seq<Id>)
    | Unwire(j: Id, k: nat)
    | Cancel(j: Id)
    | Sweep(stale: set<Id>)
    | Claim(w: Id, j: Id, now: int)
    | Beat(j: Id, now: int)
    | Crash(w: Id)
    | Load(w: Id)
    | Advance(w: Id)
    | Start(w: Id)
    | Read(w: Id)
    | Abort(w: Id, asCancelled: bool)
    | Commit(w: Id)
    | Skip(w: Id)
    | Fail(w: Id)
    | Finish(w: Id)

  predicate At(s: State, w: Id) {
    w in s.workers && s.workers[w] != Idle && s.workers[w].job in s.rows.jobs
    && match s.workers[w]
       case Between(j, plan, k) => |plan| == |s.rows.jobs[j].steps| && k <= |plan|
       case Starting(j, plan, k) => |plan| == |s.rows.jobs[j].steps| && k < |plan|
       case Reading(j, plan, k) => |plan| == |s.rows.jobs[j].steps| && k < |plan|
       case Building(j, plan, k, _) => |plan| == |s.rows.jobs[j].steps| && k < |plan|
       case Skipping(j, k) => k < |s.rows.jobs[j].steps|
       case Failing(j, k) => k < |s.rows.jobs[j].steps|
       case Ending(_, outcome) => Terminal(outcome)
       case _ => true
  }

  predicate Enabled(s: State, a: Action) {
    match a
    case Create(j, targets) => j !in s.rows.jobs && forall t :: t in targets ==> t in s.rows.current
    case Unwire(j, k) => HasStep(s.rows, j, k)
    case Cancel(j) => j in s.rows.jobs
    case Sweep(stale) => forall j :: j in stale ==> j in s.rows.jobs && s.rows.jobs[j].status == Running
    case Claim(w, j, _) => w in s.workers && s.workers[w] == Idle && j in s.rows.jobs && s.rows.jobs[j].status == Queued
    case Beat(j, _) => j in s.rows.jobs && s.rows.jobs[j].status == Running
    case Crash(w) => w in s.workers
    case Load(w) => At(s, w) && s.workers[w].Loading?
    case Advance(w) => At(s, w) && s.workers[w].Between?
    case Start(w) => At(s, w) && s.workers[w].Starting?
    case Read(w) => At(s, w) && s.workers[w].Reading?
    case Abort(w, asCancelled) =>
      At(s, w) && (s.workers[w].Reading? || s.workers[w].Building?)
      && (asCancelled ==> s.workers[w].Building? && s.rows.jobs[s.workers[w].job].cancelRequested)
    case Commit(w) => At(s, w) && s.workers[w].Building?
    case Skip(w) => At(s, w) && s.workers[w].Skipping?
    case Fail(w) => At(s, w) && s.workers[w].Failing?
    case Finish(w) => At(s, w) && s.workers[w].Ending?
  }

  function Count<K>(m: map<K, nat>, k: K): nat {
    if k in m then m[k] else 0
  }

  function SetJob(s: State, j: Id, job: Job): State {
    s.(rows := s.rows.(jobs := s.rows.jobs[j := job]))
  }

  function SetPc(s: State, w: Id, pc: Pc): State {
    s.(workers := s.workers[w := pc])
  }

  function Apply(s: State, a: Action): State
    requires Enabled(s, a)
  {
    match a
    case Create(j, targets) => SetJob(s, j, NewJob(targets))
    case Unwire(j, k) => SetJob(s, j,
      s.rows.jobs[j].(steps := s.rows.jobs[j].steps[k := s.rows.jobs[j].steps[k].(wired := false)]))
    case Cancel(j) => SetJob(s, j, CancelledBy(s.rows.jobs[j]))
    case Sweep(stale) => s.(rows := SweptRows(s.rows, stale))
    case Claim(w, j, now) => SetPc(SetJob(s, j, Claimed(s.rows.jobs[j], now)), w, Loading(j))
      .(claims := s.claims[j := Count(s.claims, j) + 1])
    case Beat(j, now) => SetJob(s, j, s.rows.jobs[j].(heartbeatAt := Some(now)))
    case Crash(w) => SetPc(s, w, Idle)
    case Load(w) => SetPc(s, w, Loaded(s.rows.jobs[s.workers[w].job], s.workers[w].job))
    case Advance(w) => SetPc(s, w, Advanced(s.rows.jobs[s.workers[w].job], s.workers[w]))
    case Start(w) =>
      var Starting(j, plan, k) := s.workers[w];
      if !s.rows.jobs[j].steps[k].wired then SetPc(s, w, Failing(j, k))
      else SetPc(SetJob(s, j, SetStep(s.rows.jobs[j], k, StepRunning)), w, Reading(j, plan, k))
    case Read(w) =>
      var Reading(j, plan, k) := s.workers[w];
      SetPc(s, w, Building(j, plan, k, Count(s.rows.current, s.rows.jobs[j].steps[k].target) + 1))
    case Abort(w, asCancelled) =>
      var pc := s.workers[w];
      SetPc(s, w, if asCancelled then Ending(pc.job, Cancelled) else Failing(pc.job, pc.k))
    case Commit(w) =>
      var Building(j, plan, k, next) := s.workers[w];
      var after := s.(rows := Committed(s.rows, j, k, next));
      (match CommitOutcome(s.rows, j, k, next)
       case Flipped => SetPc(after, w, Between(j, plan, k + 1))
         .(published := s.published[(j, k) := Count(s.published, (j, k)) + 1])
       case WasCancelled => SetPc(after, w, Skipping(j, k))
       case Superseded => SetPc(after, w, Idle)
       case Conflict => SetPc(after, w, Failing(j, k)))
    case Skip(w) =>
      var Skipping(j, k) := s.workers[w];
      var job := s.rows.jobs[j];
      SetPc(SetJob(s, j, if Active(job.steps[k].status) then SetStep(job, k, StepSkipped) else job), w,
        Ending(j, Cancelled))
    case Fail(w) =>
      var Failing(j, k) := s.workers[w];
      SetPc(SetJob(s, j, SetStep(s.rows.jobs[j], k, StepFailed)), w, Ending(j, Failed))
    case Finish(w) =>
      var Ending(j, outcome) := s.workers[w];
      SetPc(SetJob(s, j, Finalized(s.rows.jobs[j], outcome)), w, Idle)
  }

  /** execute_job's first read: nothing to do unless the job is still running. */
  function Loaded(job: Job, j: Id): Pc {
    if job.status != Running then Idle
    else Between(j, seq(|job.steps|, i requires 0 <= i < |job.steps| => job.steps[i].status == StepQueued), 0)
  }

  /** The step loop: skip steps that were not queued, check for a cancel before each. */
  function Advanced(job: Job, pc: Pc): Pc
    requires pc.Between? && pc.k <= |pc.plan|
  {
    if pc.k == |pc.plan| then Ending(pc.job, Succeeded)
    else if !pc.plan[pc.k] then Between(pc.job, pc.plan, pc.k + 1)
    else if job.cancelRequested then Ending(pc.job, Cancelled)
    else Starting(pc.job, pc.plan, pc.k)
  }

  // Groups of actions, to keep the case analyses below small.
  predicate Early(a: Action) {
    a.Create? || a.Unwire? || a.Cancel? || a.Sweep? || a.Claim? || a.Beat? || a.Crash? || a.Load?
  }

  predicate Outside(a: Action) {
    a.Create? || a.Unwire? || a.Cancel? || a.Sweep? || a.Beat?
  }

  predicate Middle(a: Action) {
    a.Advance? || a.Start? || a.Read? || a.Abort?
  }

  // ---- Runs ----

  ghost predicate Legal(s: State, run: seq<Action>)
    decreases |run|
  {
    run == [] || (Enabled(s, run[0]) && Legal(Apply(s, run[0]), run[1..]))
  }

  ghost function Final(s: State, run: seq<Action>): State
    requires Legal(s, run)
    decreases |run|
  {
    if run == [] then s else Final(Apply(s, run[0]), run[1..])
  }

  /** No jobs yet, idle workers, and datasets whose version rows are 1..current_version. */
  ghost predicate Initial(s: State) {
    s.rows.jobs == map[] && s.claims == map[] && s.published == map[] && VersionsExact(s.rows)
    && forall w :: w in s.workers ==> s.workers[w] == Idle
  }

  // ---- Version safety, in every run ----

  /** A version number read for a build is at most one past the current version: by the time
      it is committed it may have been overtaken, never undershot. */
  ghost predicate ReadsBehind(s: State) {
    && (forall j, k: nat :: HasStep(s.rows, j, k) ==> s.rows.jobs[j].steps[k].target in s.rows.current)
    && (forall w :: w in s.workers ==> ReadBehind(s.rows, s.workers[w]))
  }

  ghost predicate SameShape(a: Job, b: Job) {
    |a.steps| == |b.steps| && forall k :: 0 <= k < |a.steps| ==> a.steps[k].target == b.steps[k].target
  }

  lemma JobKeepsShapeEarly(s: State, a: Action, j: Id)
    requires Enabled(s, a) && Early(a) && j in s.rows.jobs
    ensures j in Apply(s, a).rows.jobs && SameShape(s.rows.jobs[j], Apply(s, a).rows.jobs[j])
  {
  }

  lemma JobKeepsShapeLate(s: State, a: Action, j: Id)
    requires Enabled(s, a) && !Early(a) && j in s.rows.jobs
    ensures j in Apply(s, a).rows.jobs && SameShape(s.rows.jobs[j], Apply(s, a).rows.jobs[j])
  {
  }

  lemma StepKeepsShape(s: State, a: Action)
    requires Enabled(s, a)
    ensures forall j :: j in s.rows.jobs ==>
      j in Apply(s, a).rows.jobs && SameShape(s.rows.jobs[j], Apply(s, a).rows.jobs[j])
    ensures forall d :: d in s.rows.current ==> d in Apply(s, a).rows.current
  {
    forall j | j in s.rows.jobs
      ensures j in Apply(s, a).rows.jobs && SameShape(s.rows.jobs[j], Apply(s, a).rows.jobs[j])
    {
      if Early(a) {
        JobKeepsShapeEarly(s, a, j);
      } else {
        JobKeepsShapeLate(s, a, j);
      }
    }
  }

  // The commit an action carries through, if it does.
  predicate Flips(s: State, a: Action)
    requires Enabled(s, a)
  {
    a.Commit? && CommitOutcome(s.rows, s.workers[a.w].job, s.workers[a.w].k, s.workers[a.w].next) == Flipped
  }

  /** One step: rows stay exact, only a commit that flips changes them, and it adds exactly
      the next version of its step's target. */
  lemma StepKeepsVersions(s: State, a: Action)
    requires Enabled(s, a) && VersionsExact(s.rows) && ReadsBehind(s)
    ensures VersionsExact(Apply(s, a).rows)
    ensures !Flips(s, a) ==> Apply(s, a).rows.current == s.rows.current && Apply(s, a).rows.versions == s.rows.versions
    ensures Flips(s, a) ==>
      var d := s.rows.jobs[s.workers[a.w].job].steps[s.workers[a.w].k].target;
      d in s.rows.current && Apply(s, a).rows.current == s.rows.current[d := s.rows.current[d] + 1]
      && Apply(s, a).rows.versions == s.rows.versions + {(d, s.rows.current[d] + 1)}
  {
    if a.Commit? {
      var Building(j, plan, k, next) := s.workers[a.w];
      assert HasStep(s.rows, j, k);
      FlipIsNext(s.rows, j, k, next);
    }
  }

  lemma StepKeepsTargets(s: State, a: Action)
    requires Enabled(s, a) && ReadsBehind(s)
    ensures forall j, k: nat :: HasStep(Apply(s, a).rows, j, k) ==>
      Apply(s, a).rows.jobs[j].steps[k].target in Apply(s, a).rows.current
  {
    var s' := Apply(s, a);
    StepKeepsShape(s, a);
    forall j, k: nat | HasStep(s'.rows, j, k)
      ensures s'.rows.jobs[j].steps[k].target in s'.rows.current
    {
      if j in s.rows.jobs {
        assert HasStep(s.rows, j, k);
      } else {
        assert s'.rows.jobs[j].steps[k].target == a.targets[k];
      }
    }
  }

  ghost predicate ReadBehind(rows: Rows, pc: Pc) {
    pc.Building? ==>
      HasStep(rows, pc.job, pc.k) && 1 <= pc.next <= Count(rows.current, rows.jobs[pc.job].steps[pc.k].target) + 1
  }

  // A number already read stays behind: targets stay and current versions never fall.
  lemma ReadStaysBehind(s: State, a: Action, pc: Pc)
    requires Enabled(s, a) && VersionsExact(s.rows) && ReadsBehind(s) && ReadBehind(s.rows, pc)
    ensures ReadBehind(Apply(s, a).rows, pc)
  {
    StepKeepsShape(s, a);
    StepKeepsVersions(s, a);
    if pc.Building? {
      assert HasStep(s.rows, pc.job, pc.k);
    }
  }

  // Only a read takes a number, and it takes the next one.
  lemma EarlyReadsNothing(s: State, a: Action, w: Id)
    requires Early(a) && Enabled(s, a) && w in s.workers && w in Apply(s, a).workers
      && s.workers[w] != Apply(s, a).workers[w]
    ensures !Apply(s, a).workers[w].Building?
  {
  }

  lemma ActorReadsBehind(s: State, a: Action, w: Id)
    requires !Early(a) && Enabled(s, a) && ReadsBehind(s)
    requires w in Apply(s, a).workers && w in s.workers && s.workers[w] != Apply(s, a).workers[w]
    ensures ReadBehind(Apply(s, a).rows, Apply(s, a).workers[w])
  {
  }

  lemma StepKeepsReads(s: State, a: Action)
    requires Enabled(s, a) && VersionsExact(s.rows) && ReadsBehind(s)
    ensures ReadsBehind(Apply(s, a))
  {
    var s' := Apply(s, a);
    StepKeepsTargets(s, a);
    forall w | w in s'.workers
      ensures ReadBehind(s'.rows, s'.workers[w])
    {
      if s.workers[w] == s'.workers[w] {
        ReadStaysBehind(s, a, s.workers[w]);
      } else if Early(a) {
        EarlyReadsNothing(s, a, w);
      } else {
        ActorReadsBehind(s, a, w);
      }
    }
  }

  /** In every run, swept workers that live on included, a dataset's committed versions are
      exactly 1..current_version. */
  lemma {:induction false} VersionSafety(s: State, run: seq<Action>)
    requires VersionsExact(s.rows) && ReadsBehind(s) && Legal(s, run)
    ensures VersionsExact(Final(s, run).rows) && ReadsBehind(Final(s, run))
    decreases |run|
  {
    if run != [] {
      StepKeepsVersions(s, run[0]);
      StepKeepsReads(s, run[0]);
      VersionSafety(Apply(s, run[0]), run[1..]);
    }
  }

  // ---- The job row's state machine ----

  /** Claims equal attempts while queued and attempts + 1 while running. */
  ghost predicate ClaimsCounted(s: State) {
    forall j :: CountedAt(s, j)
  }

  predicate CountedAt(s: State, j: Id) {
    if j in s.rows.jobs then JobCounted(s.rows.jobs[j], Count(s.claims, j)) else Count(s.claims, j) == 0
  }

  predicate JobCounted(job: Job, claims: nat) {
    match job.status
    case Queued => claims == job.attempts <= MAX_ATTEMPTS
    case Running => claims == job.attempts + 1 <= MAX_ATTEMPTS + 1
    case _ => claims <= MAX_ATTEMPTS + 1
  }

  lemma CountStaysEarly(s: State, a: Action, j: Id)
    requires Enabled(s, a) && Early(a) && CountedAt(s, j)
    ensures CountedAt(Apply(s, a), j)
  {
  }

  lemma CountStaysLate(s: State, a: Action, j: Id)
    requires Enabled(s, a) && !Early(a) && CountedAt(s, j)
    ensures CountedAt(Apply(s, a), j)
  {
  }

  lemma StepKeepsCount(s: State, a: Action)
    requires Enabled(s, a) && ClaimsCounted(s)
    ensures ClaimsCounted(Apply(s, a))
  {
    var s' := Apply(s, a);
    forall j
      ensures CountedAt(s', j)
    {
      if Early(a) {
        CountStaysEarly(s, a, j);
      } else {
        CountStaysLate(s, a, j);
      }
    }
  }

  lemma TerminalStays(s: State, a: Action, j: Id)
    requires Enabled(s, a) && j in s.rows.jobs
    ensures j in Apply(s, a).rows.jobs
    ensures Terminal(s.rows.jobs[j].status) ==> Apply(s, a).rows.jobs[j].status == s.rows.jobs[j].status
    ensures s.rows.jobs[j].cancelRequested ==> Apply(s, a).rows.jobs[j].cancelRequested
  {
  }

  /** Over any run: no job is claimed more than MAX_ATTEMPTS + 1 times, a terminal status is
      never left, and an accepted cancel is never forgotten. */
  lemma {:induction false} JobLifecycle(s: State, run: seq<Action>, j: Id)
    requires ClaimsCounted(s) && Legal(s, run)
    ensures Count(Final(s, run).claims, j) <= MAX_ATTEMPTS + 1
    ensures j in s.rows.jobs && Terminal(s.rows.jobs[j].status) ==>
      j in Final(s, run).rows.jobs && Final(s, run).rows.jobs[j].status == s.rows.jobs[j].status
    ensures j in s.rows.jobs && s.rows.jobs[j].cancelRequested ==>
      j in Final(s, run).rows.jobs && Final(s, run).rows.jobs[j].cancelRequested
    decreases |run|
  {
    if run == [] {
      assert CountedAt(s, j);
    } else {
      StepKeepsCount(s, run[0]);
      if j in s.rows.jobs {
        TerminalStays(s, run[0], j);
      }
      JobLifecycle(Apply(s, run[0]), run[1..], j);
    }
  }

  /** Once a cancel is accepted - and that is whenever the job is still active - no later
      flip by the job succeeds, in whatever worker and however often it is requeued. */
  lemma {:induction false} CancelStopsPublishing(s: State, run: seq<Action>, j: Id, k: nat)
    requires Legal(s, run)
    requires j in s.rows.jobs && (s.rows.jobs[j].cancelRequested || Terminal(s.rows.jobs[j].status))
    ensures Count(Final(s, run).published, (j, k)) == Count(s.published, (j, k))
    decreases |run|
  {
    if run != [] {
      TerminalStays(s, run[0], j);
      NoFlip(s, run[0], j, k);
      CancelStopsPublishing(Apply(s, run[0]), run[1..], j, k);
    }
  }

  lemma NoFlip(s: State, a: Action, j: Id, k: nat)
    requires Enabled(s, a) && j in s.rows.jobs && (s.rows.jobs[j].cancelRequested || Terminal(s.rows.jobs[j].status))
    ensures Count(Apply(s, a).published, (j, k)) == Count(s.published, (j, k))
  {
  }

  /** A cancel is accepted - recorded on the job - exactly while the job is not over; later it
      changes nothing. */
  lemma CancelIsAccepted(s: State, j: Id)
    requires Enabled(s, Cancel(j))
    ensures Apply(s, Cancel(j)).rows.jobs[j].cancelRequested <==>
      s.rows.jobs[j].cancelRequested || !Terminal(s.rows.jobs[j].status)
    ensures Terminal(s.rows.jobs[j].status) ==> Apply(s, Cancel(j)).rows.jobs[j] == s.rows.jobs[j]
    ensures s.rows.jobs[j].status == Queued ==>
      Apply(s, Cancel(j)).rows.jobs[j].status == Cancelled && NoneActive(Apply(s, Cancel(j)).rows.jobs[j])
  {
  }

  // ---- Crash-stop runs: a swept worker takes no further step ----

  /** A sweep only takes jobs whose worker has crashed. */
  ghost predicate CrashStop(s: State, a: Action) {
    a.Sweep? ==> forall w :: w in s.workers && s.workers[w] != Idle ==> s.workers[w].job !in a.stale
  }

  ghost predicate CrashStopRun(s: State, run: seq<Action>)
    requires Legal(s, run)
    decreases |run|
  {
    run == [] || (CrashStop(s, run[0]) && CrashStopRun(Apply(s, run[0]), run[1..]))
  }

  // From step k on, the snapshot still tells which steps are queued and none is running;
  // before k nothing is left to do.
  ghost predicate SnapshotHolds(job: Job, plan: seq<bool>, k: nat, from: nat) {
    && |plan| == |job.steps| && k <= |plan|
    && (forall i :: 0 <= i < k ==> !Active(job.steps[i].status))
    && (forall i :: from <= i < |plan| ==>
      job.steps[i].status != StepRunning && (plan[i] <==> job.steps[i].status == StepQueued))
  }

  ghost predicate NoneRunning(job: Job) {
    forall i :: 0 <= i < |job.steps| ==> job.steps[i].status != StepRunning
  }

  ghost predicate NoneActive(job: Job) {
    forall i :: 0 <= i < |job.steps| ==> !Active(job.steps[i].status)
  }

  /** What a worker that holds the job alone may rely on. */
  ghost predicate WorkerOk(job: Job, pc: Pc)
    requires pc != Idle
  {
    && job.status == Running
    && match pc
       case Loading(_) => NoneRunning(job)
       case Between(_, plan, k) => SnapshotHolds(job, plan, k, k)
       case Starting(_, plan, k) => SnapshotHolds(job, plan, k, k) && k < |plan| && plan[k]
       case Reading(_, plan, k) => SnapshotHolds(job, plan, k, k + 1) && k < |plan|
         && job.steps[k].status == StepRunning
       case Building(_, plan, k, _) => SnapshotHolds(job, plan, k, k + 1) && k < |plan|
         && job.steps[k].status == StepRunning
       case Skipping(_, k) => k < |job.steps| && job.steps[k].status == StepRunning
       case Failing(_, k) => k < |job.steps| && Active(job.steps[k].status)
       case Ending(_, outcome) => outcome == Succeeded ==> NoneActive(job)
  }

  /** Queued jobs have nothing running, finished jobs nothing left to run. */
  ghost predicate JobSettled(job: Job) {
    (job.status == Queued ==> NoneRunning(job)) && (Terminal(job.status) ==> NoneActive(job))
  }

  ghost predicate PublishedOnce(s: State) {
    forall j, k: nat :: Count(s.published, (j, k)) ==
      if HasStep(s.rows, j, k) && s.rows.jobs[j].steps[k].status == StepSucceeded then 1 else 0
  }

  ghost predicate Exclusive(s: State) {
    && (forall w :: w in s.workers && s.workers[w] != Idle ==>
      s.workers[w].job in s.rows.jobs && WorkerOk(s.rows.jobs[s.workers[w].job], s.workers[w]))
    && (forall w, x :: w in s.workers && x in s.workers && w != x && s.workers[w] != Idle && s.workers[x] != Idle ==>
      s.workers[w].job != s.workers[x].job)
    && (forall j :: j in s.rows.jobs ==> JobSettled(s.rows.jobs[j]))
  }

  // The worker an action belongs to, if it is a worker's.
  function Actor(a: Action): Option<Id> {
    match a
    case Claim(w, _, _) => Some(w)
    case Crash(w) => Some(w)
    case Load(w) => Some(w)
    case Advance(w) => Some(w)
    case Start(w) => Some(w)
    case Read(w) => Some(w)
    case Abort(w, _) => Some(w)
    case Commit(w) => Some(w)
    case Skip(w) => Some(w)
    case Fail(w) => Some(w)
    case Finish(w) => Some(w)
    case _ => None
  }

  ghost predicate HolderOk(s: State, w: Id) {
    w in s.workers && s.workers[w] != Idle ==>
      s.workers[w].job in s.rows.jobs && WorkerOk(s.rows.jobs[s.workers[w].job], s.workers[w])
  }

  lemma ActorStaysOkEarly(s: State, a: Action)
    requires Early(a)
    requires Enabled(s, a) && Exclusive(s) && Actor(a).Some?
    ensures HolderOk(Apply(s, a), Actor(a).value)
  {
  }

  lemma ActorStaysOkAdvance(s: State, a: Action)
    requires a.Advance?
    requires Enabled(s, a) && Exclusive(s) && Actor(a).Some?
    ensures HolderOk(Apply(s, a), Actor(a).value)
  {
  }

  lemma ActorStaysOkMiddle(s: State, a: Action)
    requires Middle(a) && !a.Advance?
    requires Enabled(s, a) && Exclusive(s) && Actor(a).Some?
    ensures HolderOk(Apply(s, a), Actor(a).value)
  {
  }

  lemma ActorStaysOkCommit(s: State, a: Action)
    requires a.Commit?
    requires Enabled(s, a) && Exclusive(s) && Actor(a).Some?
    ensures HolderOk(Apply(s, a), Actor(a).value)
  {
  }

  lemma ActorStaysOkLate(s: State, a: Action)
    requires !Early(a) && !Middle(a) && !a.Commit?
    requires Enabled(s, a) && Exclusive(s) && Actor(a).Some?
    ensures HolderOk(Apply(s, a), Actor(a).value)
  {
  }

  lemma ActorStaysOk(s: State, a: Action)
    requires Enabled(s, a) && Exclusive(s) && Actor(a).Some?
    ensures HolderOk(Apply(s, a), Actor(a).value)
  {
    if Early(a) {
      ActorStaysOkEarly(s, a);
    } else if a.Advance? {
      ActorStaysOkAdvance(s, a);
    } else if Middle(a) {
      ActorStaysOkMiddle(s, a);
    } else if a.Commit? {
      ActorStaysOkCommit(s, a);
    } else {
      ActorStaysOkLate(s, a);
    }
  }

  // What the others see: an outside action on their job leaves what they rely on.
  lemma OthersStayOkSweep(s: State, a: Action, w: Id)
    requires a.Sweep?
    requires Enabled(s, a) && CrashStop(s, a) && Exclusive(s)
    requires w in s.workers && s.workers[w] != Idle && Actor(a) != Some(w)
    ensures Apply(s, a).workers[w] == s.workers[w] && HolderOk(Apply(s, a), w)
  {
    assert WorkerOk(s.rows.jobs[s.workers[w].job], s.workers[w]);
  }

  // The same to a worker: cancel flags, heartbeats and wiring aside.
  ghost predicate LooksSame(job: Job, job': Job) {
    && job'.status == job.status && |job'.steps| == |job.steps|
    && forall k :: 0 <= k < |job.steps| ==> job'.steps[k].status == job.steps[k].status
  }

  lemma OutsideLooksSame(s: State, a: Action, j: Id)
    requires Outside(a) && !a.Sweep? && Enabled(s, a) && j in s.rows.jobs && s.rows.jobs[j].status == Running
    ensures j in Apply(s, a).rows.jobs && LooksSame(s.rows.jobs[j], Apply(s, a).rows.jobs[j])
    ensures Apply(s, a).workers == s.workers
  {
  }

  lemma StaysOk(job: Job, job': Job, pc: Pc)
    requires pc != Idle && WorkerOk(job, pc) && LooksSame(job, job')
    ensures WorkerOk(job', pc)
  {
  }

  lemma OthersStayOkOutside(s: State, a: Action, w: Id)
    requires Outside(a) && !a.Sweep?
    requires Enabled(s, a) && CrashStop(s, a) && Exclusive(s)
    requires w in s.workers && s.workers[w] != Idle && Actor(a) != Some(w)
    ensures Apply(s, a).workers[w] == s.workers[w] && HolderOk(Apply(s, a), w)
  {
    var j := s.workers[w].job;
    assert WorkerOk(s.rows.jobs[j], s.workers[w]);
    OutsideLooksSame(s, a, j);
    StaysOk(s.rows.jobs[j], Apply(s, a).rows.jobs[j], s.workers[w]);
  }

  lemma OthersStayOkTaking(s: State, a: Action, w: Id)
    requires Early(a) && !Outside(a)
    requires Enabled(s, a) && CrashStop(s, a) && Exclusive(s)
    requires w in s.workers && s.workers[w] != Idle && Actor(a) != Some(w)
    ensures Apply(s, a).workers[w] == s.workers[w] && HolderOk(Apply(s, a), w)
  {
    assert WorkerOk(s.rows.jobs[s.workers[w].job], s.workers[w]);
  }

  lemma OthersStayOkLate(s: State, a: Action, w: Id)
    requires !Early(a)
    requires Enabled(s, a) && CrashStop(s, a) && Exclusive(s)
    requires w in s.workers && s.workers[w] != Idle && Actor(a) != Some(w)
    ensures Apply(s, a).workers[w] == s.workers[w] && HolderOk(Apply(s, a), w)
  {
    assert WorkerOk(s.rows.jobs[s.workers[w].job], s.workers[w]);
  }

  lemma OthersStayOk(s: State, a: Action, w: Id)
    requires Enabled(s, a) && CrashStop(s, a) && Exclusive(s)
    requires w in s.workers && s.workers[w] != Idle && Actor(a) != Some(w)
    ensures Apply(s, a).workers[w] == s.workers[w] && HolderOk(Apply(s, a), w)
  {
    if Early(a) {
      if a.Sweep? {
        OthersStayOkSweep(s, a, w);
      } else if Outside(a) {
        OthersStayOkOutside(s, a, w);
      } else {
        OthersStayOkTaking(s, a, w);
      }
    } else {
      OthersStayOkLate(s, a, w);
    }
  }

  lemma JobsStaySettledEarly(s: State, a: Action, j: Id)
    requires Enabled(s, a) && Early(a) && Exclusive(s) && j in Apply(s, a).rows.jobs
    ensures JobSettled(Apply(s, a).rows.jobs[j])
  {
    assert j in s.rows.jobs ==> JobSettled(s.rows.jobs[j]);
  }

  lemma JobsStaySettledLate(s: State, a: Action, j: Id)
    requires Enabled(s, a) && !Early(a) && Exclusive(s) && j in s.rows.jobs
    ensures j in Apply(s, a).rows.jobs && JobSettled(Apply(s, a).rows.jobs[j])
  {
    var pc := s.workers[Actor(a).value];
    assert JobSettled(s.rows.jobs[j]);
    assert s.rows.jobs[pc.job].status == Running;
  }

  lemma StepKeepsExclusive(s: State, a: Action)
    requires Enabled(s, a) && CrashStop(s, a) && Exclusive(s)
    ensures Exclusive(Apply(s, a))
  {
    var s' := Apply(s, a);
    forall w | w in s'.workers && s'.workers[w] != Idle
      ensures s'.workers[w].job in s'.rows.jobs && WorkerOk(s'.rows.jobs[s'.workers[w].job], s'.workers[w])
    {
      if Actor(a) == Some(w) {
        ActorStaysOk(s, a);
      } else {
        OthersStayOk(s, a, w);
      }
    }
    forall j | j in s'.rows.jobs
      ensures JobSettled(s'.rows.jobs[j])
    {
      if Early(a) {
        JobsStaySettledEarly(s, a, j);
      } else {
        JobsStaySettledLate(s, a, j);
      }
    }
    StepKeepsApart(s, a);
  }

  lemma StepKeepsApart(s: State, a: Action)
    requires Enabled(s, a) && CrashStop(s, a) && Exclusive(s)
    ensures var s' := Apply(s, a);
            forall w, x ::
              w in s'.workers && x in s'.workers && w != x && s'.workers[w] != Idle && s'.workers[x] != Idle ==>
                s'.workers[w].job != s'.workers[x].job
  {
    var s' := Apply(s, a);
    forall w | w in s'.workers && s'.workers[w] != Idle
      ensures w in s.workers
      ensures if a.Claim? && a.w == w then s'.workers[w].job == a.j && s.rows.jobs[a.j].status != Running
              else s.workers[w] != Idle && s'.workers[w].job == s.workers[w].job
                   && s.rows.jobs[s.workers[w].job].status == Running
    {
      if s.workers[w] != Idle {
        assert WorkerOk(s.rows.jobs[s.workers[w].job], s.workers[w]);
      }
    }
  }

  // ---- What one action does to one step ----

  // A step goes from queued to running and back until it ends, and then stays as it ended.
  predicate Progresses(before: StepStatus, after: StepStatus) {
    before == after || Active(before)
  }

  predicate FlipsAt(s: State, a: Action, j: Id, k: nat)
    requires Enabled(s, a)
  {
    Flips(s, a) && s.workers[a.w].job == j && s.workers[a.w].k == k
  }

  /** An ended step stays as it is, and it is a flip of its own that ends a step `succeeded`. */
  ghost predicate FateOf(s: State, a: Action, s': State, j: Id, k: nat)
    requires Enabled(s, a) && HasStep(s.rows, j, k)
  {
    && HasStep(s'.rows, j, k)
    && var before, after := s.rows.jobs[j].steps[k].status, s'.rows.jobs[j].steps[k].status;
       Progresses(before, after) && (before != StepSucceeded && after == StepSucceeded <==> FlipsAt(s, a, j, k))
  }

  lemma StepFateEarly(s: State, a: Action, j: Id, k: nat)
    requires Enabled(s, a) && Exclusive(s) && HasStep(s.rows, j, k) && Early(a)
    ensures FateOf(s, a, Apply(s, a), j, k)
  {
    assert JobSettled(s.rows.jobs[j]);
  }

  lemma StepFateMiddle(s: State, a: Action, j: Id, k: nat)
    requires Enabled(s, a) && Exclusive(s) && HasStep(s.rows, j, k) && Middle(a)
    ensures FateOf(s, a, Apply(s, a), j, k)
  {
    var pc := s.workers[Actor(a).value];
    assert WorkerOk(s.rows.jobs[pc.job], pc);
  }

  lemma StepFateLate(s: State, a: Action, j: Id, k: nat)
    requires Enabled(s, a) && Exclusive(s) && HasStep(s.rows, j, k) && !Early(a) && !Middle(a)
    ensures FateOf(s, a, Apply(s, a), j, k)
  {
    var pc := s.workers[Actor(a).value];
    assert WorkerOk(s.rows.jobs[pc.job], pc);
  }

  lemma StepFate(s: State, a: Action, j: Id, k: nat)
    requires Enabled(s, a) && Exclusive(s) && HasStep(s.rows, j, k)
    ensures FateOf(s, a, Apply(s, a), j, k)
  {
    if Early(a) {
      StepFateEarly(s, a, j, k);
    } else if Middle(a) {
      StepFateMiddle(s, a, j, k);
    } else {
      StepFateLate(s, a, j, k);
    }
  }

  lemma NewStep(s: State, a: Action, j: Id, k: nat)
    requires Enabled(s, a) && !HasStep(s.rows, j, k) && HasStep(Apply(s, a).rows, j, k)
    ensures a.Create? && a.j == j && k < |a.targets| && Apply(s, a).rows.jobs[j] == NewJob(a.targets)
  {
    StepKeepsShape(s, a);
  }

  lemma PublishedMoves(s: State, a: Action, j: Id, k: nat)
    requires Enabled(s, a)
    ensures Count(Apply(s, a).published, (j, k)) == Count(s.published, (j, k)) + if FlipsAt(s, a, j, k) then 1 else 0
  {
  }

  lemma StepKeepsPublishedOnce(s: State, a: Action)
    requires Enabled(s, a) && CrashStop(s, a) && Exclusive(s) && PublishedOnce(s)
    ensures PublishedOnce(Apply(s, a))
  {
    var s' := Apply(s, a);
    forall j, k: nat
      ensures Count(s'.published, (j, k)) ==
        if HasStep(s'.rows, j, k) && s'.rows.jobs[j].steps[k].status == StepSucceeded then 1 else 0
    {
      PublishedMoves(s, a, j, k);
      if HasStep(s.rows, j, k) {
        StepFate(s, a, j, k);
      } else if HasStep(s'.rows, j, k) {
        NewStep(s, a, j, k);
      }
    }
  }

  /** In crash-stop runs each step publishes at most one version over all retries, and has
      published exactly when it is `succeeded`; no job has two workers; a finished job has
      nothing queued or running. */
  lemma {:induction false} CrashStopSafety(s: State, run: seq<Action>)
    requires Exclusive(s) && PublishedOnce(s) && Legal(s, run) && CrashStopRun(s, run)
    ensures Exclusive(Final(s, run)) && PublishedOnce(Final(s, run))
    decreases |run|
  {
    if run != [] {
      StepKeepsExclusive(s, run[0]);
      StepKeepsPublishedOnce(s, run[0]);
      CrashStopSafety(Apply(s, run[0]), run[1..]);
    }
  }

  lemma InitiallySafe(s: State)
    requires Initial(s)
    ensures VersionsExact(s.rows) && ReadsBehind(s) && ClaimsCounted(s) && Exclusive(s) && PublishedOnce(s) && Blamed(s)
  {
  }

  // ---- When `succeeded` means every step succeeded ----

  predicate Spoiled(status: StepStatus) {
    status == StepFailed || status == StepSkipped
  }

  ghost predicate AnySpoiled(job: Job) {
    exists k :: 0 <= k < |job.steps| && Spoiled(job.steps[k].status)
  }

  ghost predicate EndsBadly(pc: Pc, j: Id) {
    pc.Ending? && pc.job == j && pc.outcome != Succeeded
  }

  /** Where a job with a failed or skipped step stands: over, or on its way to being failed. */
  ghost predicate Doomed(s: State, j: Id)
    requires j in s.rows.jobs
  {
    s.rows.jobs[j].status == Failed || s.rows.jobs[j].status == Cancelled
    || (s.rows.jobs[j].status == Running && exists w :: w in s.workers && EndsBadly(s.workers[w], j))
  }

  ghost predicate Blamed(s: State) {
    forall j :: j in s.rows.jobs && AnySpoiled(s.rows.jobs[j]) ==> Doomed(s, j)
  }

  /** No worker dies between marking a step failed or skipped and finalizing its job. */
  ghost predicate NoLostEnding(s: State, a: Action) {
    a.Crash? && a.w in s.workers && s.workers[a.w].Ending? ==> s.workers[a.w].outcome == Succeeded
  }

  ghost predicate NoLostEndingRun(s: State, run: seq<Action>)
    requires Legal(s, run)
    decreases |run|
  {
    run == [] || (NoLostEnding(s, run[0]) && NoLostEndingRun(Apply(s, run[0]), run[1..]))
  }

  lemma StillDoomed(s: State, a: Action, j: Id)
    requires Enabled(s, a) && CrashStop(s, a) && NoLostEnding(s, a) && Exclusive(s)
    requires j in s.rows.jobs && Doomed(s, j)
    ensures j in Apply(s, a).rows.jobs && Doomed(Apply(s, a), j)
  {
    TerminalStays(s, a, j);
    if s.rows.jobs[j].status == Running {
      var w :| w in s.workers && EndsBadly(s.workers[w], j);
      if Actor(a) == Some(w) {
        assert a.Finish?;
      } else {
        StillEnding(s, a, j, w);
      }
    }
  }

  lemma StillEnding(s: State, a: Action, j: Id, w: Id)
    requires Enabled(s, a) && CrashStop(s, a) && Exclusive(s)
    requires j in s.rows.jobs && s.rows.jobs[j].status == Running && w in s.workers && EndsBadly(s.workers[w], j)
      && Actor(a) != Some(w)
    ensures w in Apply(s, a).workers && EndsBadly(Apply(s, a).workers[w], j)
    ensures j in Apply(s, a).rows.jobs && Apply(s, a).rows.jobs[j].status == Running
  {
    OthersStayOk(s, a, w);
  }

  predicate SpoiledAt(s: State, j: Id, k: nat) {
    HasStep(s.rows, j, k) && Spoiled(s.rows.jobs[j].steps[k].status)
  }

  lemma NewlyDoomedEarly(s: State, a: Action, j: Id, k: nat)
    requires Enabled(s, a) && Early(a) && SpoiledAt(Apply(s, a), j, k) && !SpoiledAt(s, j, k)
    ensures Doomed(Apply(s, a), j)
  {
  }

  lemma NewlyDoomedLate(s: State, a: Action, j: Id, k: nat)
    requires Enabled(s, a) && !Early(a) && Exclusive(s) && SpoiledAt(Apply(s, a), j, k) && !SpoiledAt(s, j, k)
    ensures Doomed(Apply(s, a), j)
  {
    var w := Actor(a).value;
    assert WorkerOk(s.rows.jobs[s.workers[w].job], s.workers[w]);
    if a.Fail? || a.Skip? {
      assert EndsBadly(Apply(s, a).workers[w], j);
    }
  }

  lemma StepKeepsBlame(s: State, a: Action)
    requires Enabled(s, a) && CrashStop(s, a) && NoLostEnding(s, a) && Exclusive(s) && Blamed(s)
    ensures Blamed(Apply(s, a))
  {
    var s' := Apply(s, a);
    forall j | j in s'.rows.jobs && AnySpoiled(s'.rows.jobs[j])
      ensures Doomed(s', j)
    {
      var k :| 0 <= k < |s'.rows.jobs[j].steps| && Spoiled(s'.rows.jobs[j].steps[k].status);
      if SpoiledAt(s, j, k) {
        assert AnySpoiled(s.rows.jobs[j]);
        StillDoomed(s, a, j);
      } else if Early(a) {
        NewlyDoomedEarly(s, a, j, k);
      } else {
        NewlyDoomedLate(s, a, j, k);
      }
    }
  }

  /** Then a job reads `succeeded` only if every step succeeded, hence published. */
  lemma {:induction false} SucceededMeansAll(s: State, run: seq<Action>, j: Id)
    requires Exclusive(s) && Blamed(s) && Legal(s, run) && CrashStopRun(s, run) && NoLostEndingRun(s, run)
    ensures j in Final(s, run).rows.jobs && Final(s, run).rows.jobs[j].status == Succeeded ==>
      forall k :: 0 <= k < |Final(s, run).rows.jobs[j].steps| ==>
        Final(s, run).rows.jobs[j].steps[k].status == StepSucceeded
    decreases |run|
  {
    if run == [] {
      if j in s.rows.jobs && s.rows.jobs[j].status == Succeeded {
        assert JobSettled(s.rows.jobs[j]) && !AnySpoiled(s.rows.jobs[j]);
      }
    } else {
      StepKeepsExclusive(s, run[0]);
      StepKeepsBlame(s, run[0]);
      SucceededMeansAll(Apply(s, run[0]), run[1..], j);
    }
  }

  /** Everything that holds of every run, from any initial state; and what holds besides when
      no live worker is swept, and when no ending is lost. */
  lemma FromInitial(s: State, run: seq<Action>, j: Id)
    requires Initial(s) && Legal(s, run)
    ensures VersionsExact(Final(s, run).rows) && Count(Final(s, run).claims, j) <= MAX_ATTEMPTS + 1
    ensures CrashStopRun(s, run) ==> Exclusive(Final(s, run)) && PublishedOnce(Final(s, run))
    ensures var rows := Final(s, run).rows;
            CrashStopRun(s, run) && NoLostEndingRun(s, run) && j in rows.jobs && rows.jobs[j].status == Succeeded ==>
              forall k :: 0 <= k < |rows.jobs[j].steps| ==> rows.jobs[j].steps[k].status == StepSucceeded
  {
    InitiallySafe(s);
    VersionSafety(s, run);
    JobLifecycle(s, run, j);
    if CrashStopRun(s, run) {
      CrashStopSafety(s, run);
      if NoLostEndingRun(s, run) {
        SucceededMeansAll(s, run, j);
      }
    }
  }
}
