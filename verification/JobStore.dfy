/** The rows of the build queue and the transactions that change them
    (apps/worker executor.py, routers/builds.py). */
module JobStore {
  import opened Wrappers

  const MAX_ATTEMPTS: nat := 3
  const REQUEUE_TIMEOUT: nat := 60

  datatype JobStatus = Queued | Running | Succeeded | Failed | Cancelled

  datatype StepStatus = StepQueued | StepRunning | StepSucceeded | StepFailed | StepSkipped

  /** A step whose recipe or target was deleted from under it has `wired` false. */
  datatype Step = Step(target: Id, wired: bool, status: StepStatus)

  datatype Job = Job(status: JobStatus, attempts: nat, cancelRequested: bool, heartbeatAt: Option<int>,
      steps: seq<Step>)

  /** `current` is each dataset's current_version, `versions` the dataset_versions rows. */
  datatype Rows = Rows(jobs: map<Id, Job>, current: map<Id, nat>, versions: set<(Id, nat)>)

  datatype CommitResult = Flipped | WasCancelled | Superseded | Conflict

  predicate Active(status: StepStatus) {
    status == StepQueued || status == StepRunning
  }

  predicate Terminal(status: JobStatus) {
    status != Queued && status != Running
  }

  // ---- The transactions, as functions of the rows ----

  function SkipActive(steps: seq<Step>): (r: seq<Step>)
    ensures |r| == |steps|
    ensures forall k :: 0 <= k < |steps| ==>
      r[k] == (if Active(steps[k].status) then steps[k].(status := StepSkipped) else steps[k])
  {
    seq(|steps|, k requires 0 <= k < |steps| =>
      if Active(steps[k].status) then steps[k].(status := StepSkipped) else steps[k])
  }

  function ResetRunning(steps: seq<Step>): (r: seq<Step>)
    ensures |r| == |steps|
    ensures forall k :: 0 <= k < |steps| ==>
      r[k] == (if steps[k].status == StepRunning then steps[k].(status := StepQueued) else steps[k])
  {
    seq(|steps|, k requires 0 <= k < |steps| =>
      if steps[k].status == StepRunning then steps[k].(status := StepQueued) else steps[k])
  }

  function SetStep(job: Job, k: nat, status: StepStatus): Job
    requires k < |job.steps|
  {
    job.(steps := job.steps[k := job.steps[k].(status := status)])
  }

  function Claimed(job: Job, now: int): Job {
    job.(status := Running, heartbeatAt := Some(now))
  }

  /** Cancel: a queued job ends at once; a running one is only flagged. */
  function CancelledBy(job: Job): Job {
    if job.status == Queued then job.(cancelRequested := true, status := Cancelled, steps := SkipActive(job.steps))
    else if job.status == Running then job.(cancelRequested := true)
    else job
  }

  /** Sweep: requeue with the running steps reset, or give up after MAX_ATTEMPTS. */
  function Swept(job: Job): Job {
    if job.attempts + 1 > MAX_ATTEMPTS
    then job.(status := Failed, attempts := job.attempts + 1, steps := SkipActive(job.steps))
    else job.(status := Queued, attempts := job.attempts + 1, heartbeatAt := None, steps := ResetRunning(job.steps))
  }

  /** Finalize: a no-op unless the job is still running. */
  function Finalized(job: Job, outcome: JobStatus): Job {
    if job.status != Running then job
    else if outcome == Failed || outcome == Cancelled then job.(status := outcome, steps := SkipActive(job.steps))
    else job.(status := outcome)
  }

  predicate IsStale(job: Job, now: int) {
    job.status == Running && job.heartbeatAt.Some? && job.heartbeatAt.value < now - REQUEUE_TIMEOUT
  }

  predicate HasStep(rows: Rows, j: Id, k: nat) {
    j in rows.jobs && k < |rows.jobs[j].steps|
  }

  /** The atomic flip: refused unless the job is running and not cancel-requested, and
      aborted by the unique (dataset, version) constraint when the number is taken. */
  function CommitOutcome(rows: Rows, j: Id, k: nat, next: nat): CommitResult
    requires HasStep(rows, j, k)
  {
    if rows.jobs[j].status != Running then Superseded
    else if rows.jobs[j].cancelRequested then WasCancelled
    else if (rows.jobs[j].steps[k].target, next) in rows.versions then Conflict
    else Flipped
  }

  function Committed(rows: Rows, j: Id, k: nat, next: nat): Rows
    requires HasStep(rows, j, k)
  {
    if CommitOutcome(rows, j, k, next) != Flipped then rows
    else
      var target := rows.jobs[j].steps[k].target;
      Rows(rows.jobs[j := SetStep(rows.jobs[j], k, StepSucceeded)], rows.current[target := next],
        rows.versions + {(target, next)})
  }

  function SweptRows(rows: Rows, stale: set<Id>): Rows {
    rows.(jobs := map j | j in rows.jobs :: if j in stale then Swept(rows.jobs[j]) else rows.jobs[j])
  }

  /** A dataset's version rows are exactly 1 to its current version. */
  ghost predicate VersionsExact(rows: Rows) {
    forall d, v: nat :: (d, v) in rows.versions <==> d in rows.current && 1 <= v <= rows.current[d]
  }

  /** What a commit does to a dataset whose rows are exact, given a number read at some earlier
      time: it flips exactly to the next version, touching nothing but its own step and
      dataset, and conflicts exactly when the number has been overtaken. */
  lemma FlipIsNext(rows: Rows, j: Id, k: nat, next: nat)
    requires HasStep(rows, j, k) && VersionsExact(rows)
    requires rows.jobs[j].steps[k].target in rows.current && 1 <= next <= rows.current[rows.jobs[j].steps[k].target] + 1
    ensures var after, target := Committed(rows, j, k, next), rows.jobs[j].steps[k].target;
      && VersionsExact(after)
      && (CommitOutcome(rows, j, k, next) == Flipped ==>
            next == rows.current[target] + 1 && after.current == rows.current[target := next]
            && after.jobs[j].steps[k].status == StepSucceeded && after.jobs.Keys == rows.jobs.Keys
            && (forall i :: i in rows.jobs && i != j ==> after.jobs[i] == rows.jobs[i])
            && (forall i :: 0 <= i < |rows.jobs[j].steps| && i != k ==>
              after.jobs[j].steps[i] == rows.jobs[j].steps[i]))
      && (CommitOutcome(rows, j, k, next) != Flipped ==> after == rows)
      && (CommitOutcome(rows, j, k, next) == Conflict <==>
            rows.jobs[j].status == Running && !rows.jobs[j].cancelRequested && next <= rows.current[target])
  {
    var target := rows.jobs[j].steps[k].target;
    assert (target, next) in rows.versions <==> next <= rows.current[target];
  }

  /** The tables. Each method is one transaction, and equates the tables after it with the
      function above. `createdAt` only orders the queue. */
  class Database {
    var jobs: map<Id, Job>
    var current: map<Id, nat>
    var versions: set<(Id, nat)>
    var createdAt: map<Id, int>

    constructor (current0: map<Id, nat>, versions0: set<(Id, nat)>)
      ensures Contents() == Rows(map[], current0, versions0) && Stamped()
    {
      jobs, current, versions, createdAt := map[], current0, versions0, map[];
    }

    ghost predicate Stamped()
      reads this
    {
      jobs.Keys <= createdAt.Keys
    }

    /** No queued job is older. */
    predicate Oldest(j: Id)
      requires j in createdAt && jobs.Keys <= createdAt.Keys
      reads this
    {
      forall i :: i in jobs && jobs[i].status == Queued ==> createdAt[j] <= createdAt[i]
    }

    function Contents(): Rows
      reads this
    {
      Rows(jobs, current, versions)
    }

    /** create_build: a job with nothing to do is recorded as already succeeded. */
    method CreateJob(id: Id, targets: seq<Id>, now: int)
      requires id !in jobs && Stamped()
      modifies this`jobs, this`createdAt
      ensures jobs == old(jobs)[id := NewJob(targets)] && createdAt == old(createdAt)[id := now] && Stamped()
    {
      var steps: seq<Step> := [];
      while |steps| < |targets|
        invariant |steps| <= |targets|
        invariant steps == NewJob(targets[..|steps|]).steps
      {
        assert targets[..|steps| + 1] == targets[..|steps|] + [targets[|steps|]];
        steps := steps + [Step(targets[|steps|], true, StepQueued)];
      }
      assert targets[..|steps|] == targets;
      jobs := jobs[id := Job(if steps == [] then Succeeded else Queued, 0, false, None, steps)];
      createdAt := createdAt[id := now];
    }

    /** The oldest queued job flips to running; none is claimed only when none is queued. */
    method Claim(now: int) returns (r: Option<Id>)
      requires Stamped()
      modifies this`jobs
      ensures Stamped()
      ensures r.None? <==> forall j :: j in old(jobs) ==> old(jobs)[j].status != Queued
      ensures r.None? ==> jobs == old(jobs)
      ensures r.Some? ==> r.value in old(jobs) && old(jobs)[r.value].status == Queued && old(Oldest(r.value))
      ensures r.Some? ==> jobs == old(jobs)[r.value := Claimed(old(jobs)[r.value], now)]
    {
      r := None;
      var todo := jobs.Keys;
      while todo != {}
        invariant todo <= jobs.Keys
        invariant r.None? ==> forall i :: i in jobs.Keys - todo ==> jobs[i].status != Queued
        invariant r.Some? ==> r.value in jobs && jobs[r.value].status == Queued
        invariant r.Some? ==>
          forall i :: i in jobs.Keys - todo && jobs[i].status == Queued ==> createdAt[r.value] <= createdAt[i]
        decreases todo
      {
        var j :| j in todo;
        todo := todo - {j};
        if jobs[j].status == Queued && (r.None? || createdAt[j] < createdAt[r.value]) {
          r := Some(j);
        }
      }
      if r.Some? {
        jobs := jobs[r.value := jobs[r.value].(status := Running, heartbeatAt := Some(now))];
      }
    }

    method StartStep(j: Id, k: nat)
      requires HasStep(Contents(), j, k)
      modifies this`jobs
      ensures jobs == old(jobs)[j := SetStep(old(jobs)[j], k, StepRunning)]
    {
      jobs := jobs[j := SetStep(jobs[j], k, StepRunning)];
    }

    method FailStep(j: Id, k: nat)
      requires HasStep(Contents(), j, k)
      modifies this`jobs
      ensures jobs == old(jobs)[j := SetStep(old(jobs)[j], k, StepFailed)]
    {
      jobs := jobs[j := SetStep(jobs[j], k, StepFailed)];
    }

    method SkipStep(j: Id, k: nat)
      requires HasStep(Contents(), j, k)
      modifies this`jobs
      ensures var job := old(jobs)[j];
        jobs == old(jobs)[j := if Active(job.steps[k].status) then SetStep(job, k, StepSkipped) else job]
    {
      if Active(jobs[j].steps[k].status) {
        jobs := jobs[j := SetStep(jobs[j], k, StepSkipped)];
      } else {
        assert jobs == jobs[j := jobs[j]];
      }
    }

    /** _commit_version; the caller's step failure handles the constraint violation. */
    method CommitVersion(j: Id, k: nat, next: nat) returns (r: CommitResult)
      requires HasStep(Contents(), j, k)
      modifies this`jobs, this`current, this`versions
      ensures r == CommitOutcome(old(Contents()), j, k, next)
      ensures Contents() == Committed(old(Contents()), j, k, next)
    {
      var job := jobs[j];
      if job.status != Running {
        return Superseded;
      }
      if job.cancelRequested {
        return WasCancelled;
      }
      var target := job.steps[k].target;
      if (target, next) in versions {
        return Conflict;
      }
      versions := versions + {(target, next)};
      current := current[target := next];
      jobs := jobs[j := SetStep(job, k, StepSucceeded)];
      r := Flipped;
    }

    method FinalizeJob(j: Id, outcome: JobStatus)
      requires j in jobs && Terminal(outcome)
      modifies this`jobs
      ensures jobs == old(jobs)[j := Finalized(old(jobs)[j], outcome)]
    {
      var job := jobs[j];
      if job.status != Running {
        assert jobs == jobs[j := job];
        return;
      }
      job := job.(status := outcome);
      if outcome == Failed || outcome == Cancelled {
        var steps := SkipLoop(job.steps);
        job := job.(steps := steps);
      }
      jobs := jobs[j := job];
    }

    method SkipLoop(steps: seq<Step>) returns (r: seq<Step>)
      ensures r == SkipActive(steps)
    {
      r := steps;
      var k := 0;
      while k < |steps|
        invariant 0 <= k <= |steps| == |r|
        invariant forall i :: 0 <= i < |steps| ==> r[i] == if i < k then SkipActive(steps)[i] else steps[i]
      {
        if Active(r[k].status) {
          r := r[k := r[k].(status := StepSkipped)];
        }
        k := k + 1;
      }
    }

    /** Requeue or fail every job whose heartbeat is older than the timeout. */
    method Sweep(now: int) returns (stale: set<Id>)
      modifies this`jobs
      ensures stale == set j | j in old(jobs) && IsStale(old(jobs)[j], now)
      ensures Contents() == SweptRows(old(Contents()), stale)
    {
      stale := set j | j in jobs && IsStale(jobs[j], now);
      var todo := stale;
      while todo != {}
        invariant todo <= stale && jobs.Keys == old(jobs).Keys
        invariant forall j :: j in jobs ==> jobs[j] == if j in stale - todo then Swept(old(jobs)[j]) else old(jobs)[j]
        decreases todo
      {
        var j :| j in todo;
        var job := jobs[j];
        if job.attempts + 1 > MAX_ATTEMPTS {
          jobs := jobs[j := job.(status := Failed, attempts := job.attempts + 1, steps := SkipActive(job.steps))];
        } else {
          jobs := jobs[j :=
            job.(status := Queued, attempts := job.attempts + 1, heartbeatAt := None,
              steps := ResetRunning(job.steps))];
        }
        todo := todo - {j};
      }
    }

    method CancelJob(j: Id)
      requires j in jobs
      modifies this`jobs
      ensures jobs == old(jobs)[j := CancelledBy(old(jobs)[j])]
    {
      var job := jobs[j];
      if job.status == Queued || job.status == Running {
        job := job.(cancelRequested := true);
        if job.status == Queued {
          var steps := SkipLoop(job.steps);
          job := job.(status := Cancelled, steps := steps);
        }
      }
      jobs := jobs[j := job];
    }

    method Heartbeat(j: Id, now: int)
      requires j in jobs
      modifies this`jobs
      ensures var job := old(jobs)[j];
        jobs == old(jobs)[j := if job.status == Running then job.(heartbeatAt := Some(now)) else job]
    {
      if jobs[j].status == Running {
        jobs := jobs[j := jobs[j].(heartbeatAt := Some(now))];
      } else {
        assert jobs == jobs[j := jobs[j]];
      }
    }
  }

  function NewJob(targets: seq<Id>): Job {
    Job(if targets == [] then Succeeded else Queued, 0, false, None,
        seq(|targets|, k requires 0 <= k < |targets| => Step(targets[k], true, StepQueued)))
  }
}
