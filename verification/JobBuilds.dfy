/** What the jobs build: the executor's runs over a plan's job, with the data each build reads and
    publishes, against the plan carried out step by step (executor.py). */
module JobBuilds {
  import opened Wrappers
  import opened JobStore
  import opened Executor
  import RecipeGraphs
  import Propagation
  import B = BuildPlan
  import R = BuildRun

  /** The machine, the datasets it builds, and what each worker has read: the current versions
      of its build's inputs. */
  datatype World = World(s: State, db: B.Project, seen: map<Id, map<Id, nat>>)

  /** Job j carries out `steps`, and nothing else is built. */
  datatype Build = Build(g: RecipeGraphs.RecipeGraph, steps: seq<B.BuildStep>, j: Id)

  function Targets(steps: seq<B.BuildStep>): (r: seq<Id>)
    ensures |r| == |steps| && forall k :: 0 <= k < |r| ==> r[k] == steps[k].target
  {
    seq(|steps|, k requires 0 <= k < |steps| => steps[k].target)
  }

  function Inputs(b: Build, k: nat): seq<Id>
    requires k < |b.steps|
  {
    RecipeGraphs.Lookup(b.g.inputs, b.steps[k].recipe)
  }

  function VersionsOf(db: B.Project, ids: seq<Id>): map<Id, nat>
    requires R.AllBuilt(db, ids)
  {
    map d | d in ids :: db.datasets[d].currentVersion
  }

  // A worker reads on only past the two checks that otherwise fail the step.
  predicate MayRead(b: Build, db: B.Project, k: nat)
    requires k < |b.steps|
  {
    R.AllBuilt(db, Inputs(b, k)) && !R.Blocked(db, b.g, b.steps[k].recipe)
  }

  ghost predicate WEnabled(b: Build, w: World, a: Action) {
    && Enabled(w.s, a) && CrashStop(w.s, a)
    && (a.Create? ==> a.j == b.j && a.targets == Targets(b.steps))
    && (a.Read? ==> w.s.workers[a.w].k < |b.steps| && MayRead(b, w.db, w.s.workers[a.w].k))
  }

  /** The flip: the version row records the recipe's hash and what the build has read; the labels
      are ratcheted over the inputs as they are now. */
  function Publish(b: Build, db: B.Project, k: nat, next: nat, seen: map<Id, nat>): B.Project {
    if k >= |b.steps| || b.steps[k].target !in db.datasets || b.steps[k].recipe !in db.hashes then db
    else
      var target := b.steps[k].target;
      var version := B.Version(Some(db.hashes[b.steps[k].recipe]), Some(seen));
      var labels := Propagation.ApplyFloor(db.datasets[target].labels, R.LabelsOf(db, Inputs(b, k)));
      db.(versions := db.versions[(target, next) := version],
          datasets := db.datasets[target := B.Dataset(db.datasets[target].active, next, labels)])
  }

  ghost function WApply(b: Build, w: World, a: Action): World
    requires WEnabled(b, w, a)
  {
    var s' := Apply(w.s, a);
    if a.Read? then World(s', w.db, w.seen[a.w := VersionsOf(w.db, Inputs(b, w.s.workers[a.w].k))])
    else if Flips(w.s, a) then
      var Building(_, _, k, next) := w.s.workers[a.w];
      World(s', Publish(b, w.db, k, next, if a.w in w.seen then w.seen[a.w] else map[]), w.seen)
    else w.(s := s')
  }

  ghost predicate WLegal(b: Build, w: World, run: seq<Action>)
    decreases |run|
  {
    run == [] || (WEnabled(b, w, run[0]) && WLegal(b, WApply(b, w, run[0]), run[1..]))
  }

  ghost function WFinal(b: Build, w: World, run: seq<Action>): World
    requires WLegal(b, w, run)
    decreases |run|
  {
    if run == [] then w else WFinal(b, WApply(b, w, run[0]), run[1..])
  }

  /** A world's run is a crash-stop run of the machine. */
  lemma {:induction false} IsMachineRun(b: Build, w: World, run: seq<Action>)
    requires WLegal(b, w, run)
    ensures Legal(w.s, run) && CrashStopRun(w.s, run) && Final(w.s, run) == WFinal(b, w, run).s
    decreases |run|
  {
    if run != [] {
      IsMachineRun(b, WApply(b, w, run[0]), run[1..]);
    }
  }

  // ---- How far the plan has been carried out ----

  ghost predicate Agrees(rows: Rows, db: B.Project) {
    forall d :: d in db.datasets ==> d in rows.current && rows.current[d] == db.datasets[d].currentVersion
  }

  ghost predicate Clean(s: State, j: Id) {
    j in s.rows.jobs ==>
      forall k :: 0 <= k < |s.rows.jobs[j].steps| ==> !Spoiled(s.rows.jobs[j].steps[k].status)
  }

  // The job's steps are the plan's, the first m of them done.
  ghost predicate DoneUpto(b: Build, s: State, m: nat) {
    && s.rows.jobs.Keys <= {b.j}
    && (b.j !in s.rows.jobs ==> m == 0)
    && (b.j in s.rows.jobs ==>
          var steps := s.rows.jobs[b.j].steps;
          |steps| == |b.steps| && forall k :: 0 <= k < |steps| ==>
            steps[k].target == b.steps[k].target && (steps[k].status == StepSucceeded <==> k < m))
  }

  // A worker that is building has read what is still current.
  ghost predicate ReadsCurrent(b: Build, w: World, pc: Pc, v: Id) {
    pc.Building? ==>
      && pc.k < |b.steps| && MayRead(b, w.db, pc.k) && v in w.seen && w.seen[v] == VersionsOf(w.db, Inputs(b, pc.k))
      && pc.next == Count(w.s.rows.current, b.steps[pc.k].target) + 1
  }

  ghost predicate Progress(b: Build, db0: B.Project, w: World, m: nat)
    requires R.Runnable(db0, b.steps)
  {
    && m <= |b.steps| && R.Run(db0, b.g, b.steps[..m]) == Ok(w.db)
    && Agrees(w.s.rows, w.db) && DoneUpto(b, w.s, m)
    && forall v :: v in w.s.workers ==> ReadsCurrent(b, w, w.s.workers[v], v)
  }

  // ---- One action ----

  lemma CleanBefore(s: State, a: Action, j: Id)
    requires Enabled(s, a) && Exclusive(s) && Clean(Apply(s, a), j)
    ensures Clean(s, j)
  {
    if j in s.rows.jobs {
      forall k | 0 <= k < |s.rows.jobs[j].steps|
        ensures !Spoiled(s.rows.jobs[j].steps[k].status)
      {
        StepFate(s, a, j, k);
      }
    }
  }

  // Without a flip the same steps are done.
  lemma DoneStays(b: Build, w: World, a: Action, m: nat)
    requires WEnabled(b, w, a) && Exclusive(w.s) && DoneUpto(b, w.s, m) && !Flips(w.s, a)
    ensures DoneUpto(b, Apply(w.s, a), m)
  {
    var s' := Apply(w.s, a);
    StepKeepsShape(w.s, a);
    assert s'.rows.jobs.Keys <= {b.j};
    if b.j in s'.rows.jobs {
      forall k | 0 <= k < |s'.rows.jobs[b.j].steps|
        ensures |s'.rows.jobs[b.j].steps| == |b.steps| && s'.rows.jobs[b.j].steps[k].target == b.steps[k].target
        ensures s'.rows.jobs[b.j].steps[k].status == StepSucceeded <==> k < m
      {
        if HasStep(w.s.rows, b.j, k) {
          StepFate(w.s, a, b.j, k);
        } else {
          NewStep(w.s, a, b.j, k);
        }
      }
    }
  }

  lemma ReadReadsCurrent(b: Build, w: World, a: Action, m: nat)
    requires WEnabled(b, w, a) && a.Read? && DoneUpto(b, w.s, m)
    ensures a.w in Apply(w.s, a).workers && ReadsCurrent(b, WApply(b, w, a), Apply(w.s, a).workers[a.w], a.w)
  {
  }

  // Only a read makes a worker build.
  lemma BuildingStays(s: State, a: Action, v: Id)
    requires Enabled(s, a) && v in Apply(s, a).workers && Apply(s, a).workers[v].Building?
    requires !(a.Read? && a.w == v)
    ensures v in s.workers && s.workers[v] == Apply(s, a).workers[v]
  {
  }

  lemma ReadsStay(b: Build, w: World, a: Action, m: nat)
    requires WEnabled(b, w, a) && !Flips(w.s, a) && VersionsExact(w.s.rows) && ReadsBehind(w.s)
    requires DoneUpto(b, w.s, m)
    requires forall v :: v in w.s.workers ==> ReadsCurrent(b, w, w.s.workers[v], v)
    ensures forall v :: v in Apply(w.s, a).workers ==> ReadsCurrent(b, WApply(b, w, a), Apply(w.s, a).workers[v], v)
  {
    StepKeepsVersions(w.s, a);
    forall v | v in Apply(w.s, a).workers && Apply(w.s, a).workers[v].Building?
      ensures ReadsCurrent(b, WApply(b, w, a), Apply(w.s, a).workers[v], v)
    {
      if a.Read? && a.w == v {
        ReadReadsCurrent(b, w, a, m);
      } else {
        BuildingStays(w.s, a, v);
        assert ReadsCurrent(b, w, w.s.workers[v], v);
      }
    }
  }

  // Any action but a flip leaves the datasets and what is done of the plan.
  lemma OthersKeepProgress(b: Build, db0: B.Project, w: World, a: Action, m: nat)
    requires R.Runnable(db0, b.steps) && WEnabled(b, w, a) && !Flips(w.s, a)
    requires Exclusive(w.s) && VersionsExact(w.s.rows) && ReadsBehind(w.s) && Progress(b, db0, w, m)
    ensures Progress(b, db0, WApply(b, w, a), m)
  {
    StepKeepsVersions(w.s, a);
    DoneStays(b, w, a, m);
    ReadsStay(b, w, a, m);
  }

  // The step that flips is the next of the plan, and its build has read what is current.
  lemma FlipIsNextStep(b: Build, w: World, a: Action, m: nat)
    requires WEnabled(b, w, a) && Flips(w.s, a) && Exclusive(w.s) && Clean(w.s, b.j) && DoneUpto(b, w.s, m)
    ensures w.s.workers[a.w].job == b.j && w.s.workers[a.w].k == m < |b.steps|
    ensures b.j in w.s.rows.jobs && HasStep(w.s.rows, b.j, m)
    ensures forall v :: v in w.s.workers && v != a.w ==> w.s.workers[v] == Idle
  {
    var pc, job := w.s.workers[a.w], w.s.rows.jobs[b.j];
    assert WorkerOk(job, pc);
    if pc.k > 0 {
      assert !Active(job.steps[pc.k - 1].status) && !Spoiled(job.steps[pc.k - 1].status);
    }
    assert job.steps[pc.k].status == StepRunning;
    assert forall v :: v in w.s.workers && w.s.workers[v] != Idle ==> w.s.workers[v].job == pc.job;
  }

  lemma FlipDoesOne(b: Build, w: World, a: Action, m: nat)
    requires WEnabled(b, w, a) && Flips(w.s, a) && Exclusive(w.s) && DoneUpto(b, w.s, m)
    requires w.s.workers[a.w].job == b.j && w.s.workers[a.w].k == m < |b.steps| && HasStep(w.s.rows, b.j, m)
    ensures DoneUpto(b, Apply(w.s, a), m + 1)
  {
    var s' := Apply(w.s, a);
    StepKeepsShape(w.s, a);
    assert s'.rows.jobs.Keys == w.s.rows.jobs.Keys;
    forall k | 0 <= k < |s'.rows.jobs[b.j].steps|
      ensures s'.rows.jobs[b.j].steps[k].target == b.steps[k].target
      ensures s'.rows.jobs[b.j].steps[k].status == StepSucceeded <==> k < m + 1
    {
      StepFate(w.s, a, b.j, k);
    }
  }

  // Publishing what was read is carrying the step out on the rows as they are.
  lemma PublishIsRunStep(b: Build, w: World, db0: B.Project, a: Action, m: nat)
    requires R.Runnable(db0, b.steps) && WEnabled(b, w, a) && Flips(w.s, a) && Progress(b, db0, w, m)
    requires w.s.workers[a.w].k == m < |b.steps|
    ensures b.steps[m].target in w.db.datasets && b.steps[m].recipe in w.db.hashes
    ensures R.Run(db0, b.g, b.steps[..m + 1]) == Ok(WApply(b, w, a).db)
  {
    R.NextStep(db0, b.g, b.steps, m);
    assert ReadsCurrent(b, w, w.s.workers[a.w], a.w);
  }

  lemma FlipAgrees(b: Build, w: World, a: Action, m: nat)
    requires WEnabled(b, w, a) && Flips(w.s, a) && VersionsExact(w.s.rows) && ReadsBehind(w.s) && Agrees(w.s.rows, w.db)
    requires w.s.workers[a.w].job == b.j && w.s.workers[a.w].k == m < |b.steps| && DoneUpto(b, w.s, m)
    requires ReadsCurrent(b, w, w.s.workers[a.w], a.w) && b.steps[m].target in w.db.datasets
      && b.steps[m].recipe in w.db.hashes
    ensures Agrees(Apply(w.s, a).rows, WApply(b, w, a).db)
  {
    StepKeepsVersions(w.s, a);
  }

  lemma FlipProgresses(b: Build, db0: B.Project, w: World, a: Action, m: nat)
    requires R.Runnable(db0, b.steps) && WEnabled(b, w, a) && Flips(w.s, a)
    requires Exclusive(w.s) && VersionsExact(w.s.rows) && ReadsBehind(w.s) && Clean(w.s, b.j) && Progress(b, db0, w, m)
    ensures m < |b.steps| && Progress(b, db0, WApply(b, w, a), m + 1)
  {
    FlipIsNextStep(b, w, a, m);
    FlipDoesOne(b, w, a, m);
    PublishIsRunStep(b, w, db0, a, m);
    FlipAgrees(b, w, a, m);
    NobodyBuilds(b, w, a);
  }

  lemma NobodyBuilds(b: Build, w: World, a: Action)
    requires WEnabled(b, w, a) && Flips(w.s, a)
    requires forall v :: v in w.s.workers && v != a.w ==> w.s.workers[v] == Idle
    ensures forall v :: v in Apply(w.s, a).workers ==>
      ReadsCurrent(b, WApply(b, w, a), Apply(w.s, a).workers[v], v)
  {
  }

  // ---- Whole runs ----

  ghost predicate Sound(b: Build, db0: B.Project, w: World)
    requires R.Runnable(db0, b.steps)
  {
    && Exclusive(w.s) && VersionsExact(w.s.rows) && ReadsBehind(w.s)
    && (Clean(w.s, b.j) ==> exists m: nat :: Progress(b, db0, w, m))
  }

  lemma StepKeepsSound(b: Build, db0: B.Project, w: World, a: Action)
    requires R.Runnable(db0, b.steps) && Sound(b, db0, w) && WEnabled(b, w, a)
    ensures Sound(b, db0, WApply(b, w, a))
  {
    StepKeepsExclusive(w.s, a);
    StepKeepsVersions(w.s, a);
    StepKeepsReads(w.s, a);
    if Clean(Apply(w.s, a), b.j) {
      CleanBefore(w.s, a, b.j);
      var m: nat :| Progress(b, db0, w, m);
      if Flips(w.s, a) {
        FlipProgresses(b, db0, w, a, m);
      } else {
        OthersKeepProgress(b, db0, w, a, m);
      }
    }
  }

  lemma {:induction false} RunKeepsSound(b: Build, db0: B.Project, w: World, run: seq<Action>)
    requires R.Runnable(db0, b.steps) && Sound(b, db0, w) && WLegal(b, w, run)
    ensures Sound(b, db0, WFinal(b, w, run))
    decreases |run|
  {
    if run != [] {
      StepKeepsSound(b, db0, w, run[0]);
      RunKeepsSound(b, db0, WApply(b, w, run[0]), run[1..]);
    }
  }

  /** Nothing has run yet. */
  ghost predicate Begins(w: World) {
    Initial(w.s) && Agrees(w.s.rows, w.db)
  }

  lemma StartsSound(b: Build, w: World)
    requires Begins(w) && R.Runnable(w.db, b.steps)
    ensures Sound(b, w.db, w)
  {
    InitiallySafe(w.s);
    assert b.steps[..0] == [];
    assert Progress(b, w.db, w, 0);
  }

  ghost predicate AllSucceeded(s: State, j: Id) {
    j in s.rows.jobs
    && forall k :: 0 <= k < |s.rows.jobs[j].steps| ==> s.rows.jobs[j].steps[k].status == StepSucceeded
  }

  lemma DoneIsAll(b: Build, s: State, m: nat)
    requires AllSucceeded(s, b.j) && DoneUpto(b, s, m) && m <= |b.steps|
    ensures m == |b.steps|
  {
    var n := |b.steps|;
    assert n > 0 ==> s.rows.jobs[b.j].steps[n - 1].status == StepSucceeded;
  }

  /** Whatever crashes, sweeps, retries, beats and cancels there were, a crash-stop run of the
      plan's job whose steps have all succeeded has built exactly what carrying the plan out step
      by step builds. */
  lemma JobIsRun(b: Build, w: World, run: seq<Action>)
    requires Begins(w) && R.Runnable(w.db, b.steps) && WLegal(b, w, run) && AllSucceeded(WFinal(b, w, run).s, b.j)
    ensures R.Run(w.db, b.g, b.steps) == Ok(WFinal(b, w, run).db)
  {
    StartsSound(b, w);
    RunKeepsSound(b, w.db, w, run);
    var w' := WFinal(b, w, run);
    assert Clean(w'.s, b.j);
    var m: nat :| Progress(b, w.db, w', m);
    DoneIsAll(b, w'.s, m);
    assert b.steps[..m] == b.steps;
  }

  /** So when the steps are a plan's, every recipe of its closure is fresh in the end, and an
      unforced plan finds nothing to do. */
  lemma JobLeavesFresh(b: Build, w: World, run: seq<Action>, force: bool, closure: set<Id>, depth: map<Id, nat>)
    requires Begins(w) && R.Runnable(w.db, b.steps) && WLegal(b, w, run) && AllSucceeded(WFinal(b, w, run).s, b.j)
    requires B.Loaded(w.db, b.g) && B.UpstreamClosed(b.g, closure) && R.Wired(w.db, b.g, closure)
    requires B.IsPlan(w.db, b.g, force, closure, depth, b.steps)
    ensures var db := WFinal(b, w, run).db;
            && B.Loaded(db, b.g) && (forall r :: r in closure ==> !B.OutputStale(db, b.g, r))
            && forall depth', steps' :: B.IsPlan(db, b.g, false, closure, depth', steps') ==> steps' == []
  {
    JobIsRun(b, w, run);
    var db := WFinal(b, w, run).db;
    R.AllFresh(w.db, b.g, force, closure, depth, b.steps, db);
    R.ReplanIsEmpty(w.db, b.g, force, closure, depth, b.steps, db);
  }

  /** And a job that ends `succeeded` has all its steps succeeded, unless a worker died between
      marking a step and finalizing. */
  lemma SucceededJobLeavesFresh(b: Build, w: World, run: seq<Action>, force: bool, closure: set<Id>,
      depth: map<Id, nat>)
    requires Begins(w) && R.Runnable(w.db, b.steps) && WLegal(b, w, run)
    requires Legal(w.s, run) && NoLostEndingRun(w.s, run)
    requires b.j in WFinal(b, w, run).s.rows.jobs && WFinal(b, w, run).s.rows.jobs[b.j].status == Succeeded
    requires B.Loaded(w.db, b.g) && B.UpstreamClosed(b.g, closure) && R.Wired(w.db, b.g, closure)
    requires B.IsPlan(w.db, b.g, force, closure, depth, b.steps)
    ensures var db := WFinal(b, w, run).db;
            B.Loaded(db, b.g) && forall r :: r in closure ==> !B.OutputStale(db, b.g, r)
  {
    IsMachineRun(b, w, run);
    FromInitial(w.s, run, b.j);
    JobLeavesFresh(b, w, run, force, closure, depth);
  }
}
