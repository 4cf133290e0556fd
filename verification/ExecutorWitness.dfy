/** Two runs that show what the premises of the executor's theorems are for: a live worker
    swept, and an ending lost (executor.py). */
module ExecutorWitness {
  import opened JobStore
  import opened Wrappers
  import opened Executor

  lemma {:induction false} OneMore(s: State, run: seq<Action>, a: Action)
    requires Legal(s, run) && Enabled(Final(s, run), a)
    ensures Legal(s, run + [a]) && Final(s, run + [a]) == Apply(Final(s, run), a)
    ensures CrashStopRun(s, run) && CrashStop(Final(s, run), a) ==> CrashStopRun(s, run + [a])
    decreases |run|
  {
    if run == [] {
      assert [] + [a] == [a] && [a][1..] == [];
    } else {
      assert (run + [a])[0] == run[0] && (run + [a])[1..] == run[1..] + [a];
      OneMore(Apply(s, run[0]), run[1..], a);
    }
  }

  ghost predicate CrashStopRunOf(s: State, run: seq<Action>) {
    Legal(s, run) && CrashStopRun(s, run)
  }

  function OneDataset(): State {
    State(Rows(map[], map[1 := 0], {}), map[1 := Idle, 2 := Idle], map[], map[])
  }

  function OneStepJob(status: JobStatus, attempts: nat, now: Option<int>, step: StepStatus): Job {
    Job(status, attempts, false, now, [Step(1, true, step)])
  }

  // Dataset 1 at version v, job 0 as given, the workers where they stand, and n versions
  // published by the job's step.
  ghost predicate Scene(s: State, job: Job, v: nat, pcs: map<Id, Pc>, n: nat) {
    && s.workers == pcs && 0 in s.rows.jobs && s.rows.jobs[0] == job
    && 1 in s.rows.current && s.rows.current[1] == v && (1, v + 1) !in s.rows.versions && (1, v + 2) !in s.rows.versions
    && Count(s.published, (0, 0)) == n
  }

  lemma Created(s: State)
    requires s == OneDataset()
    ensures Legal(s, [] + [Create(0, [1])]) && CrashStopRun(s, [] + [Create(0, [1])])
    ensures Scene(Final(s, [] + [Create(0, [1])]), OneStepJob(Queued, 0, None, StepQueued), 0,
              map[1 := Idle, 2 := Idle], 0)
  {
    OneMore(s, [], Create(0, [1]));
  }

  // Worker w claims the job and loads it.
  lemma Taken(s: State, run: seq<Action>, w: Id, attempts: nat, step: StepStatus, now: int, v: nat, pcs: map<Id, Pc>,
      n: nat)
    requires Legal(s, run) && Scene(Final(s, run), OneStepJob(Queued, attempts, None, step), v, pcs, n) && w in pcs
      && pcs[w] == Idle
    ensures var more := run + [Claim(w, 0, now)] + [Load(w)];
            Legal(s, more)
            && Scene(Final(s, more), OneStepJob(Running, attempts, Some(now), step), v,
                 pcs[w := Between(0, [step == StepQueued], 0)], n)
    ensures CrashStopRun(s, run) ==> CrashStopRun(s, run + [Claim(w, 0, now)] + [Load(w)])
  {
    OneMore(s, run, Claim(w, 0, now));
    OneMore(s, run + [Claim(w, 0, now)], Load(w));
    assert Loaded(OneStepJob(Running, attempts, Some(now), step), 0).plan == [step == StepQueued];
  }

  // It finds the step queued and starts it.
  lemma Begun(s: State, run: seq<Action>, w: Id, attempts: nat, now: int, v: nat, pcs: map<Id, Pc>, n: nat)
    requires Legal(s, run) && Scene(Final(s, run), OneStepJob(Running, attempts, Some(now), StepQueued), v, pcs, n)
    requires w in pcs && pcs[w] == Between(0, [true], 0)
    ensures var more := run + [Advance(w)] + [Start(w)];
            Legal(s, more)
            && Scene(Final(s, more), OneStepJob(Running, attempts, Some(now), StepRunning), v,
                 pcs[w := Reading(0, [true], 0)], n)
    ensures CrashStopRun(s, run) ==> CrashStopRun(s, run + [Advance(w)] + [Start(w)])
  {
    OneMore(s, run, Advance(w));
    OneMore(s, run + [Advance(w)], Start(w));
  }

  lemma Counted(s: State, run: seq<Action>, w: Id, job: Job, v: nat, pcs: map<Id, Pc>, n: nat)
    requires Legal(s, run) && Scene(Final(s, run), job, v, pcs, n)
    requires w in pcs && pcs[w] == Reading(0, [true], 0) && |job.steps| == 1 && job.steps[0].target == 1
    ensures Legal(s, run + [Read(w)])
      && Scene(Final(s, run + [Read(w)]), job, v, pcs[w := Building(0, [true], 0, v + 1)], n)
  {
    OneMore(s, run, Read(w));
  }

  lemma Requeued(s: State, run: seq<Action>, now: int, step: StepStatus, v: nat, pcs: map<Id, Pc>, n: nat)
    requires Legal(s, run) && Scene(Final(s, run), OneStepJob(Running, 0, Some(now), step), v, pcs, n)
    ensures Legal(s, run + [Sweep({0})])
    ensures Scene(Final(s, run + [Sweep({0})]),
      OneStepJob(Queued, 1, None, if step == StepRunning then StepQueued else step), v, pcs, n)
    ensures CrashStopRun(s, run) && (forall w :: w in pcs ==> pcs[w] == Idle) ==> CrashStopRun(s, run + [Sweep({0})])
  {
    OneMore(s, run, Sweep({0}));
    assert Swept(OneStepJob(Running, 0, Some(now), step)).steps
      == [Step(1, true, if step == StepRunning then StepQueued else step)];
  }

  lemma CommitsOnce(s: State, run: seq<Action>, w: Id, step: StepStatus, now: int, v: nat, pcs: map<Id, Pc>, n: nat)
    requires Legal(s, run) && Scene(Final(s, run), OneStepJob(Running, 1, Some(now), step), v, pcs, n)
    requires w in pcs && pcs[w] == Building(0, [true], 0, v + 1)
    ensures Legal(s, run + [Commit(w)])
    ensures var after := Final(s, run + [Commit(w)]);
            0 in after.rows.jobs && after.rows.jobs[0] == OneStepJob(Running, 1, Some(now), StepSucceeded)
            && after.rows.current == Final(s, run).rows.current[1 := v + 1]
            && after.rows.versions == Final(s, run).rows.versions + {(1, v + 1)}
            && after.workers == pcs[w := Between(0, [true], 1)] && Count(after.published, (0, 0)) == n + 1
  {
    OneMore(s, run, Commit(w));
  }

  // A crash-stop run to the job's first worker reading its step.
  ghost predicate ReachesFirst(s: State, started: map<Id, Pc>) {
    exists run :: CrashStopRunOf(s, run)
      && Scene(Final(s, run), OneStepJob(Running, 0, Some(0), StepRunning), 0, started, 0)
  }

  lemma FirstStarts(s: State, started: map<Id, Pc>)
    requires s == OneDataset() && started == map[1 := Reading(0, [true], 0), 2 := Idle]
    ensures ReachesFirst(s, started)
  {
    Created(s);
    FirstTakes(s, [] + [Create(0, [1])], map[1 := Idle, 2 := Idle], started);
  }

  lemma FirstTakes(s: State, run: seq<Action>, idle: map<Id, Pc>, started: map<Id, Pc>)
    requires CrashStopRunOf(s, run) && 1 in idle && idle[1] == Idle && started == idle[1 := Reading(0, [true], 0)]
    requires Scene(Final(s, run), OneStepJob(Queued, 0, None, StepQueued), 0, idle, 0)
    ensures ReachesFirst(s, started)
  {
    Taken(s, run, 1, 0, StepQueued, 0, 0, idle, 0);
    FirstBegins(s, run + [Claim(1, 0, 0)] + [Load(1)], idle[1 := Between(0, [true], 0)], started);
  }

  lemma FirstBegins(s: State, run: seq<Action>, pcs: map<Id, Pc>, started: map<Id, Pc>)
    requires CrashStopRunOf(s, run) && 1 in pcs && pcs[1] == Between(0, [true], 0)
    requires started == pcs[1 := Reading(0, [true], 0)]
    requires Scene(Final(s, run), OneStepJob(Running, 0, Some(0), StepQueued), 0, pcs, 0)
    ensures ReachesFirst(s, started)
  {
    Begun(s, run, 1, 0, 0, 0, pcs, 0);
    assert CrashStopRunOf(s, run + [Advance(1)] + [Start(1)]);
  }

  lemma OneDatasetIsInitial()
    ensures Initial(OneDataset())
  {
    assert OneDataset().rows.versions == {};
  }

  lemma ZombieRequeued(s: State, run: seq<Action>, zombie: Pc, idle: map<Id, Pc>)
    requires Legal(s, run) && zombie == Building(0, [true], 0, 1) && idle == map[1 := zombie, 2 := Idle]
    requires Scene(Final(s, run), OneStepJob(Queued, 1, None, StepQueued), 0, idle, 0)
    ensures exists more :: Legal(s, more) && Count(Final(s, more).published, (0, 0)) == 2
  {
    var loaded := idle[2 := Between(0, [true], 0)];
    Taken(s, run, 2, 1, StepQueued, 1, 0, idle, 0);
    Begun(s, run + [Claim(2, 0, 1)] + [Load(2)], 2, 1, 1, 0, loaded, 0);
    assert loaded[2 := Reading(0, [true], 0)] == map[1 := zombie, 2 := Reading(0, [true], 0)];
    BothCommit(s, run + [Claim(2, 0, 1)] + [Load(2)] + [Advance(2)] + [Start(2)]);
  }

  lemma ZombieRun()
    ensures exists run :: Legal(OneDataset(), run) && Count(Final(OneDataset(), run).published, (0, 0)) == 2
  {
    var s, started := OneDataset(), map[1 := Reading(0, [true], 0), 2 := Idle];
    FirstStarts(s, started);
    var run: seq<Action> :| CrashStopRunOf(s, run)
      && Scene(Final(s, run), OneStepJob(Running, 0, Some(0), StepRunning), 0, started, 0);
    SweptAlive(s, run, started);
  }

  lemma SweptAlive(s: State, run: seq<Action>, started: map<Id, Pc>)
    requires started == map[1 := Reading(0, [true], 0), 2 := Idle]
    requires Legal(s, run) && Scene(Final(s, run), OneStepJob(Running, 0, Some(0), StepRunning), 0, started, 0)
    ensures exists more :: Legal(s, more) && Count(Final(s, more).published, (0, 0)) == 2
  {
    Counted(s, run, 1, OneStepJob(Running, 0, Some(0), StepRunning), 0, started, 0);
    var zombie := started[1 := Building(0, [true], 0, 1)];
    Requeued(s, run + [Read(1)], 0, StepRunning, 0, zombie, 0);
    assert zombie == map[1 := Building(0, [true], 0, 1), 2 := Idle];
    ZombieRequeued(s, run + [Read(1)] + [Sweep({0})], Building(0, [true], 0, 1), zombie);
  }

  lemma BothCommit(s: State, run: seq<Action>)
    requires Legal(s, run)
    requires Scene(Final(s, run), OneStepJob(Running, 1, Some(1), StepRunning), 0,
      map[1 := Building(0, [true], 0, 1), 2 := Reading(0, [true], 0)], 0)
    ensures exists more :: Legal(s, more) && Count(Final(s, more).published, (0, 0)) == 2
  {
    var again, more := Reading(0, [true], 0), run + [Commit(1)];
    CommitsOnce(s, run, 1, StepRunning, 1, 0, map[1 := Building(0, [true], 0, 1), 2 := again], 0);
    assert map[1 := Building(0, [true], 0, 1), 2 := again][1 := Between(0, [true], 1)]
      == map[1 := Between(0, [true], 1), 2 := again];
    assert (1, 3) !in Final(s, more).rows.versions || (1, 3) in Final(s, run).rows.versions;
    ReadThenCommit(s, more, map[1 := Between(0, [true], 1), 2 := again]);
  }

  lemma ReadThenCommit(s: State, run: seq<Action>, pcs: map<Id, Pc>)
    requires Legal(s, run) && 2 in pcs && pcs[2] == Reading(0, [true], 0) && Final(s, run).workers == pcs
    requires 0 in Final(s, run).rows.jobs
      && Final(s, run).rows.jobs[0] == OneStepJob(Running, 1, Some(1), StepSucceeded)
    requires 1 in Final(s, run).rows.current && Final(s, run).rows.current[1] == 1
      && (1, 2) !in Final(s, run).rows.versions
    requires Count(Final(s, run).published, (0, 0)) == 1
    ensures exists more :: Legal(s, more) && Count(Final(s, more).published, (0, 0)) == 2
  {
    OneMore(s, run, Read(2));
    OneMore(s, run + [Read(2)], Commit(2));
  }

  lemma LostEndingRun()
    ensures exists run ::
              CrashStopRunOf(OneDataset(), run) && SucceededWithFailure(Final(OneDataset(), run))
  {
    var s, started := OneDataset(), map[1 := Reading(0, [true], 0), 2 := Idle];
    FirstStarts(s, started);
    var run: seq<Action> :| CrashStopRunOf(s, run)
      && Scene(Final(s, run), OneStepJob(Running, 0, Some(0), StepRunning), 0, started, 0);
    DiesFailing(s, run, started, map[1 := Idle, 2 := Idle]);
  }

  lemma DiesFailing(s: State, run: seq<Action>, started: map<Id, Pc>, idle: map<Id, Pc>)
    requires 1 in started && started[1] == Reading(0, [true], 0) && idle == started[1 := Idle]
    requires idle == map[1 := Idle, 2 := Idle] && CrashStopRunOf(s, run)
    requires Scene(Final(s, run), OneStepJob(Running, 0, Some(0), StepRunning), 0, started, 0)
    ensures exists more :: CrashStopRunOf(s, more) && SucceededWithFailure(Final(s, more))
  {
    FailsAndDies(s, run, started);
    RetriesFailed(s, run + [Abort(1, false)] + [Fail(1)] + [Crash(1)], idle);
  }

  lemma RetriesFailed(s: State, run: seq<Action>, idle: map<Id, Pc>)
    requires idle == map[1 := Idle, 2 := Idle] && CrashStopRunOf(s, run)
    requires Scene(Final(s, run), OneStepJob(Running, 0, Some(0), StepFailed), 0, idle, 0)
    ensures exists more :: CrashStopRunOf(s, more) && SucceededWithFailure(Final(s, more))
  {
    Requeued(s, run, 0, StepFailed, 0, idle, 0);
    Taken(s, run + [Sweep({0})], 1, 1, StepFailed, 1, 0, idle, 0);
    FindsNothing(s, run + [Sweep({0})] + [Claim(1, 0, 1)] + [Load(1)], idle[1 := Between(0, [false], 0)]);
  }

  ghost predicate SucceededWithFailure(s: State) {
    0 in s.rows.jobs && s.rows.jobs[0].status == Succeeded && |s.rows.jobs[0].steps| == 1
      && s.rows.jobs[0].steps[0].status == StepFailed
  }

  lemma FailsAndDies(s: State, run: seq<Action>, pcs: map<Id, Pc>)
    requires Legal(s, run) && Scene(Final(s, run), OneStepJob(Running, 0, Some(0), StepRunning), 0, pcs, 0)
    requires 1 in pcs && pcs[1] == Reading(0, [true], 0)
    ensures var more := run + [Abort(1, false)] + [Fail(1)] + [Crash(1)];
            Legal(s, more) && Scene(Final(s, more), OneStepJob(Running, 0, Some(0), StepFailed), 0, pcs[1 := Idle], 0)
    ensures CrashStopRun(s, run) ==> CrashStopRun(s, run + [Abort(1, false)] + [Fail(1)] + [Crash(1)])
  {
    OneMore(s, run, Abort(1, false));
    OneMore(s, run + [Abort(1, false)], Fail(1));
    OneMore(s, run + [Abort(1, false)] + [Fail(1)], Crash(1));
  }

  lemma FindsNothing(s: State, run: seq<Action>, pcs: map<Id, Pc>)
    requires Legal(s, run) && Scene(Final(s, run), OneStepJob(Running, 1, Some(1), StepFailed), 0, pcs, 0)
    requires 1 in pcs && pcs[1] == Between(0, [false], 0)
    ensures CrashStopRun(s, run) ==>
      exists more :: CrashStopRunOf(s, more) && SucceededWithFailure(Final(s, more))
  {
    OneMore(s, run, Advance(1));
    var more := run + [Advance(1)];
    assert Scene(Final(s, more), OneStepJob(Running, 1, Some(1), StepFailed), 0, pcs[1 := Between(0, [false], 1)], 0);
    FinishesSucceeded(s, more, pcs[1 := Between(0, [false], 1)]);
  }

  lemma FinishesSucceeded(s: State, run: seq<Action>, pcs: map<Id, Pc>)
    requires Legal(s, run) && Scene(Final(s, run), OneStepJob(Running, 1, Some(1), StepFailed), 0, pcs, 0)
    requires 1 in pcs && pcs[1] == Between(0, [false], 1)
    ensures CrashStopRun(s, run) ==>
      exists more :: CrashStopRunOf(s, more) && SucceededWithFailure(Final(s, more))
  {
    OneMore(s, run, Advance(1));
    EndsSucceeded(s, run + [Advance(1)], pcs[1 := Ending(0, Succeeded)]);
  }

  lemma EndsSucceeded(s: State, run: seq<Action>, pcs: map<Id, Pc>)
    requires Legal(s, run) && Scene(Final(s, run), OneStepJob(Running, 1, Some(1), StepFailed), 0, pcs, 0)
    requires 1 in pcs && pcs[1] == Ending(0, Succeeded)
    ensures CrashStopRun(s, run) ==>
      exists more :: CrashStopRunOf(s, more) && SucceededWithFailure(Final(s, more))
  {
    OneMore(s, run, Finish(1));
    assert CrashStopRun(s, run) ==> CrashStopRunOf(s, run + [Finish(1)]);
  }

  /** A sweep of a live worker: it and the next worker of the job both publish the step, from
      an initial state. */
  lemma ZombiePublishesTwice()
    ensures Initial(OneDataset())
    ensures exists run :: Legal(OneDataset(), run) && Count(Final(OneDataset(), run).published, (0, 0)) == 2
  {
    OneDatasetIsInitial();
    ZombieRun();
  }

  /** A crash between failing a step and finalizing its job: the retry finds nothing queued
      and ends `succeeded`, in a run that never sweeps a live worker. */
  lemma LostEndingSucceeds()
    ensures Initial(OneDataset())
    ensures exists run ::
              CrashStopRunOf(OneDataset(), run) && SucceededWithFailure(Final(OneDataset(), run))
  {
    OneDatasetIsInitial();
    LostEndingRun();
  }
}
