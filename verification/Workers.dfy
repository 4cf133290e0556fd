/** The workers and their tables: every method carries out one action of the executor's state
    machine through the database's transactions (executor.py, routers/builds.py). */
module Workers {
  import opened Wrappers
  import opened JobStore
  import opened Executor

  // Where the outcome of a commit sends its worker.
  function Resolved(r: CommitResult, j: Id, plan: seq<bool>, k: nat): Pc {
    match r
    case Flipped => Between(j, plan, k + 1)
    case WasCancelled => Skipping(j, k)
    case Superseded => Idle
    case Conflict => Failing(j, k)
  }

  lemma CommitMoves(s: State, w: Id)
    requires Enabled(s, Executor.Commit(w))
    ensures var Building(j, plan, k, next) := s.workers[w];
            var r := CommitOutcome(s.rows, j, k, next);
            && (r == Flipped <==> Flips(s, Executor.Commit(w)))
            && Apply(s, Executor.Commit(w)) ==
                 Executor.State(Committed(s.rows, j, k, next), s.workers[w := Resolved(r, j, plan, k)], s.claims,
                   if r == Flipped then s.published[(j, k) := Count(s.published, (j, k)) + 1] else s.published)
  {
  }

  /** `claims` and `published` are history, as in the state machine. */
  class Pool {
    const db: Database
    var workers: map<Id, Pc>
    ghost var claims: map<Id, nat>
    ghost var published: map<(Id, nat), nat>

    ghost function State(): State
      reads this, db
    {
      Executor.State(db.Contents(), workers, claims, published)
    }

    /** What every action keeps, with no promise about sweeps or crashes. */
    ghost predicate Valid()
      reads this, db
    {
      db.Stamped() && VersionsExact(db.Contents()) && ReadsBehind(State()) && ClaimsCounted(State())
    }

    constructor (current: map<Id, nat>, versions: set<(Id, nat)>, ids: set<Id>)
      requires VersionsExact(Rows(map[], current, versions))
      ensures Valid() && fresh(db) && Initial(State())
    {
      db := new Database(current, versions);
      workers := map w | w in ids :: Idle;
      claims, published := map[], map[];
      new;
      InitiallySafe(State());
    }

    // What an action's lemmas give.
    twostate lemma Kept(a: Action)
      requires old(Valid()) && Enabled(old(State()), a) && State() == Apply(old(State()), a) && db.Stamped()
      ensures Valid()
    {
      StepKeepsVersions(old(State()), a);
      StepKeepsReads(old(State()), a);
      StepKeepsCount(old(State()), a);
    }

    /** create_build. */
    method CreateJob(j: Id, targets: seq<Id>, now: int)
      requires Valid() && Enabled(State(), Create(j, targets))
      modifies db
      ensures Valid() && State() == Apply(old(State()), Create(j, targets))
    {
      db.CreateJob(j, targets, now);
      Kept(Create(j, targets));
    }

    /** cancel_job. */
    method CancelJob(j: Id)
      requires Valid() && Enabled(State(), Cancel(j))
      modifies db
      ensures Valid() && State() == Apply(old(State()), Cancel(j))
    {
      db.CancelJob(j);
      Kept(Cancel(j));
    }

    /** sweep: exactly the stale jobs are taken. */
    method Sweep(now: int) returns (stale: set<Id>)
      requires Valid()
      modifies db
      ensures stale == set j | j in old(db.jobs) && IsStale(old(db.jobs)[j], now)
      ensures Valid() && Enabled(old(State()), Executor.Sweep(stale))
        && State() == Apply(old(State()), Executor.Sweep(stale))
    {
      stale := db.Sweep(now);
      Kept(Executor.Sweep(stale));
    }

    /** One heartbeat; a job that is no longer running is left alone. */
    method Beat(j: Id, now: int)
      requires Valid() && j in db.jobs
      modifies db
      ensures Valid()
      ensures State() == if old(db.jobs)[j].status == Running then Apply(old(State()), Executor.Beat(j, now))
        else old(State())
    {
      var running := db.jobs[j].status == Running;
      db.Heartbeat(j, now);
      if running {
        Kept(Executor.Beat(j, now));
      } else {
        assert db.jobs == old(db.jobs);
        assert State() == old(State());
      }
    }

    /** claim: the oldest queued job, if there is one. */
    method Claim(w: Id, now: int) returns (r: Option<Id>)
      requires Valid() && w in workers && workers[w] == Idle
      modifies this, db
      ensures Valid()
      ensures r == None <==> forall j :: j in old(db.jobs) ==> old(db.jobs)[j].status != Queued
      ensures r == None ==> State() == old(State())
      ensures r.Some? ==> r.value in old(db.jobs) && old(db.Oldest(r.value))
      ensures r.Some? ==>
        Enabled(old(State()), Executor.Claim(w, r.value, now))
          && State() == Apply(old(State()), Executor.Claim(w, r.value, now))
    {
      r := db.Claim(now);
      if r.Some? {
        workers, claims := workers[w := Loading(r.value)], claims[r.value := Count(claims, r.value) + 1];
        Kept(Executor.Claim(w, r.value, now));
      }
    }

    /** A worker dies wherever it stands. */
    method Die(w: Id)
      requires Valid() && w in workers
      modifies this`workers
      ensures Valid() && State() == Apply(old(State()), Crash(w))
    {
      workers := workers[w := Idle];
      Kept(Crash(w));
    }

    /** The steps of execute_job and _run_step that write no row: load the plan, go to the next
        step or end, read the next version number, run into an error or a cancel. */
    method Think(w: Id, a: Action)
      requires Valid() && Enabled(State(), a) && Actor(a) == Some(w) && (a.Load? || a.Advance? || a.Read? || a.Abort?)
      modifies this`workers
      ensures Valid() && State() == Apply(old(State()), a)
    {
      var pc := workers[w];
      match a {
        case Load(_) => pc := Loaded(db.jobs[pc.job], pc.job);
        case Advance(_) => pc := Advanced(db.jobs[pc.job], pc);
        case Read(_) => pc :=
          Building(pc.job, pc.plan, pc.k, Count(db.current, db.jobs[pc.job].steps[pc.k].target) + 1);
        case Abort(_, asCancelled) => pc := if asCancelled then Ending(pc.job, Cancelled) else Failing(pc.job, pc.k);
      }
      workers := workers[w := pc];
      Kept(a);
    }

    /** _start_step, unless the step's recipe or target is gone. */
    method Start(w: Id)
      requires Valid() && Enabled(State(), Executor.Start(w))
      modifies this`workers, db
      ensures Valid() && State() == Apply(old(State()), Executor.Start(w))
    {
      var Starting(j, plan, k) := workers[w];
      if db.jobs[j].steps[k].wired {
        db.StartStep(j, k);
        workers := workers[w := Reading(j, plan, k)];
      } else {
        workers := workers[w := Failing(j, k)];
      }
      Kept(Executor.Start(w));
    }

    /** _commit_version, and where its outcome sends the worker. */
    method Commit(w: Id) returns (r: CommitResult)
      requires Valid() && Enabled(State(), Executor.Commit(w))
      modifies this`workers, this`published, db
      ensures Valid() && State() == Apply(old(State()), Executor.Commit(w))
      ensures r == Flipped <==> Flips(old(State()), Executor.Commit(w))
    {
      var Building(j, plan, k, next) := workers[w];
      r := db.CommitVersion(j, k, next);
      workers := workers[w := Resolved(r, j, plan, k)];
      if r == Flipped {
        published := published[(j, k) := Count(published, (j, k)) + 1];
      }
      CommitMoves(old(State()), w);
      Kept(Executor.Commit(w));
    }

    /** _skip_step. */
    method Skip(w: Id)
      requires Valid() && Enabled(State(), Executor.Skip(w))
      modifies this`workers, db
      ensures Valid() && State() == Apply(old(State()), Executor.Skip(w))
    {
      var Skipping(j, k) := workers[w];
      db.SkipStep(j, k);
      workers := workers[w := Ending(j, Cancelled)];
      Kept(Executor.Skip(w));
    }

    /** _fail_step. */
    method Fail(w: Id)
      requires Valid() && Enabled(State(), Executor.Fail(w))
      modifies this`workers, db
      ensures Valid() && State() == Apply(old(State()), Executor.Fail(w))
    {
      var Failing(j, k) := workers[w];
      db.FailStep(j, k);
      workers := workers[w := Ending(j, Failed)];
      Kept(Executor.Fail(w));
    }

    /** _finalize_job. */
    method Finish(w: Id)
      requires Valid() && Enabled(State(), Executor.Finish(w))
      modifies this`workers, db
      ensures Valid() && State() == Apply(old(State()), Executor.Finish(w))
    {
      var Ending(j, outcome) := workers[w];
      db.FinalizeJob(j, outcome);
      workers := workers[w := Idle];
      Kept(Executor.Finish(w));
    }
  }
}
