/** Running a plan step by step, and what it leaves behind (executor._run_step,
    _commit_version, apply_classification_floor). */
module BuildRun {
  import opened Digraph
  import opened RecipeGraphs
  import opened Propagation
  import opened Wrappers
  import opened BuildPlan

  function LabelsOf(db: Project, ids: seq<Id>): seq<Labels> {
    if ids == [] then []
    else (if ids[0] in db.datasets then [db.datasets[ids[0]].labels] else []) + LabelsOf(db, ids[1..])
  }

  lemma {:induction false} LabelsOfElems(db: Project, ids: seq<Id>)
    ensures forall l :: l in LabelsOf(db, ids) <==>
      exists d :: d in ids && d in db.datasets && db.datasets[d].labels == l
  {
    if ids != [] {
      LabelsOfElems(db, ids[1..]);
      assert ids == [ids[0]] + ids[1..];
    }
  }

  predicate AllBuilt(db: Project, ids: seq<Id>) {
    forall d :: d in ids ==> d in db.datasets && db.datasets[d].currentVersion > 0
  }

  predicate Blocked(db: Project, g: RecipeGraph, r: Id) {
    r in db.python && exists d :: d in Lookup(g.inputs, r) && d in db.datasets && Blocking(db.datasets[d].labels)
  }

  /** One step with nothing else running: read the inputs' current versions, build, flip. */
  function RunStep(db: Project, g: RecipeGraph, step: BuildStep): Result<Project, Problem>
    requires step.target in db.datasets && step.recipe in db.hashes
  {
    var ins := Lookup(g.inputs, step.recipe);
    if !AllBuilt(db, ins) then Err(InputNotBuilt)
    else if Blocked(db, g, step.recipe) then Err(PolicyBlocked)
    else
      var target := db.datasets[step.target];
      var version := Version(Some(db.hashes[step.recipe]), Some(map d | d in ins :: db.datasets[d].currentVersion));
      Ok(db.(
        versions := db.versions[(step.target, target.currentVersion + 1) := version],
        datasets := db.datasets[step.target :=
          Dataset(target.active, target.currentVersion + 1, ApplyFloor(target.labels, LabelsOf(db, ins)))]))
  }

  ghost predicate Runnable(db: Project, steps: seq<BuildStep>) {
    forall k :: 0 <= k < |steps| ==> steps[k].target in db.datasets && steps[k].recipe in db.hashes
  }

  /** The whole plan, stopping at the first failure. */
  ghost function Run(db: Project, g: RecipeGraph, steps: seq<BuildStep>): Result<Project, Problem>
    requires Runnable(db, steps)
    ensures Run(db, g, steps).Ok? ==>
      var s := Run(db, g, steps).value;
      s.names == db.names && s.hashes == db.hashes && s.python == db.python && s.datasets.Keys == db.datasets.Keys
  {
    if steps == [] then Ok(db)
    else
      var before := Run(db, g, steps[..|steps| - 1]);
      if before.Err? then before else RunStep(before.value, g, steps[|steps| - 1])
  }

  lemma NextStep(db: Project, g: RecipeGraph, steps: seq<BuildStep>, k: nat)
    requires Runnable(db, steps) && k < |steps| && Run(db, g, steps[..k]).Ok?
    ensures var now := Run(db, g, steps[..k]).value;
            steps[k].target in now.datasets && steps[k].recipe in now.hashes
              && Run(db, g, steps[..k + 1]) == RunStep(now, g, steps[k])
  {
    assert steps[..k + 1][..k] == steps[..k];
  }

  /** The loop that carries a plan out. */
  method RunPlan(db: Project, g: RecipeGraph, steps: seq<BuildStep>) returns (r: Result<Project, Problem>)
    requires Runnable(db, steps)
    ensures r == Run(db, g, steps)
  {
    r := Ok(db);
    var k := 0;
    while k < |steps|
      invariant 0 <= k <= |steps| && r.Ok?
      invariant r == Run(db, g, steps[..k])
    {
      NextStep(db, g, steps, k);
      var next := RunStep(r.value, g, steps[k]);
      if next.Err? {
        FailureIsFinal(db, g, steps, k + 1);
        return next;
      }
      r := next;
      k := k + 1;
    }
    assert steps[..k] == steps;
  }

  lemma {:induction false} FailureIsFinal(db: Project, g: RecipeGraph, steps: seq<BuildStep>, k: nat)
    requires Runnable(db, steps) && k <= |steps| && Run(db, g, steps[..k]).Err?
    ensures Run(db, g, steps) == Run(db, g, steps[..k])
    decreases |steps|
  {
    if k == |steps| {
      assert steps[..k] == steps;
    } else {
      var shorter := steps[..|steps| - 1];
      assert shorter[..k] == steps[..k];
      FailureIsFinal(db, g, shorter, k);
    }
  }

  // ---- Plan order ----

  /** Steps build distinct datasets, and nothing is rebuilt after a recipe has read it. */
  ghost predicate Ordered(g: RecipeGraph, steps: seq<BuildStep>) {
    && (forall i, j :: 0 <= i < j < |steps| ==> steps[i].target != steps[j].target)
    && (forall i, j :: 0 <= i <= j < |steps| ==> steps[j].target !in Lookup(g.inputs, steps[i].recipe))
  }

  lemma StepFacts(db: Project, g: RecipeGraph, force: bool, closure: set<Id>, depth: map<Id, nat>,
      steps: seq<BuildStep>, k: nat)
    requires Loaded(db, g) && IsPlan(db, g, force, closure, depth, steps) && k < |steps|
    ensures steps[k].recipe in closure && Due(db, g, force, steps[k].recipe)
    ensures steps[k].target in g.producer && g.producer[steps[k].target] == steps[k].recipe
    ensures forall i :: 0 <= i < k ==>
      steps[i].recipe in depth && steps[k].recipe in depth && Before(depth, steps[i].recipe, steps[k].recipe)
  {
    assert steps[k].target in g.outputs[steps[k].recipe];
  }

  /** Every plan is so ordered: producers precede consumers. */
  lemma PlanIsOrdered(db: Project, g: RecipeGraph, force: bool, closure: set<Id>, depth: map<Id, nat>,
      steps: seq<BuildStep>)
    requires Loaded(db, g) && UpstreamClosed(g, closure) && IsPlan(db, g, force, closure, depth, steps)
    ensures Ordered(g, steps)
  {
    forall i, j | 0 <= i <= j < |steps|
      ensures i < j ==> steps[i].target != steps[j].target
      ensures steps[j].target !in Lookup(g.inputs, steps[i].recipe)
    {
      StepFacts(db, g, force, closure, depth, steps, i);
      StepFacts(db, g, force, closure, depth, steps, j);
      ProducerIsEdge(g, closure, steps[i].recipe, steps[j].target);
      assert IsDepth(SubDeps(g, closure), depth);
    }
  }

  lemma ProducerIsEdge(g: RecipeGraph, closure: set<Id>, r: Id, d: Id)
    requires r in closure && d in g.producer && g.producer[d] in closure
    ensures d in Lookup(g.inputs, r) ==> Edge(SubDeps(g, closure), r, g.producer[d])
  {
  }

  /** Whatever the plan builds is the output of a due recipe. */
  lemma TargetsAreDue(db: Project, g: RecipeGraph, force: bool, closure: set<Id>, depth: map<Id, nat>,
      steps: seq<BuildStep>, d: Id)
    requires Loaded(db, g) && IsPlan(db, g, force, closure, depth, steps)
    ensures Targeted(steps, d) ==> d in g.producer && Due(db, g, force, g.producer[d])
  {
    if k :| 0 <= k < |steps| && steps[k].target == d {
      StepFacts(db, g, force, closure, depth, steps, k);
    }
  }

  lemma OrderedPrefix(g: RecipeGraph, steps: seq<BuildStep>, k: nat)
    requires Ordered(g, steps) && k <= |steps|
    ensures Ordered(g, steps[..k])
  {
  }

  predicate Targeted(steps: seq<BuildStep>, d: Id) {
    exists k :: 0 <= k < |steps| && steps[k].target == d
  }

  // ---- What the run leaves unchanged, and what it writes ----

  /** A dataset no step targets keeps its row and its versions. */
  lemma {:induction false} UntargetedUnchanged(db: Project, g: RecipeGraph, steps: seq<BuildStep>, d: Id)
    requires Runnable(db, steps) && Run(db, g, steps).Ok? && !Targeted(steps, d)
    ensures d in db.datasets ==> Run(db, g, steps).value.datasets[d] == db.datasets[d]
    ensures forall v :: (d, v) in db.versions <==> (d, v) in Run(db, g, steps).value.versions
    ensures forall v :: (d, v) in db.versions ==> Run(db, g, steps).value.versions[(d, v)] == db.versions[(d, v)]
  {
    if steps != [] {
      var rest := steps[..|steps| - 1];
      assert forall k :: 0 <= k < |rest| ==> rest[k] == steps[k];
      assert steps[|steps| - 1].target != d;
      UntargetedUnchanged(db, g, rest, d);
    }
  }

  /** What a step's flip guarantees in a later state: one version more than before, recorded
      with the recipe's hash and with the versions its inputs still have, under labels at
      least its old ones and its inputs'. */
  ghost predicate BuiltBy(db: Project, s: Project, g: RecipeGraph, step: BuildStep)
    requires step.target in db.datasets && step.recipe in db.hashes
  {
    && step.target in s.datasets
    && s.datasets[step.target].active == db.datasets[step.target].active
    && s.datasets[step.target].currentVersion == db.datasets[step.target].currentVersion + 1
    && (step.target, s.datasets[step.target].currentVersion) in s.versions
    && s.versions[(step.target, s.datasets[step.target].currentVersion)].recipeHash == Some(db.hashes[step.recipe])
    && Below(db.datasets[step.target].labels, s.datasets[step.target].labels)
    && forall d :: d in Lookup(g.inputs, step.recipe) ==>
         && d in s.datasets
         && Consumed(s.versions[(step.target, s.datasets[step.target].currentVersion)], d)
           == s.datasets[d].currentVersion
         && Below(s.datasets[d].labels, s.datasets[step.target].labels)
  }

  lemma LastBuilds(db: Project, g: RecipeGraph, steps: seq<BuildStep>)
    requires steps != [] && Runnable(db, steps) && Run(db, g, steps).Ok? && Ordered(g, steps)
    ensures BuiltBy(db, Run(db, g, steps).value, g, steps[|steps| - 1])
  {
    var n := |steps| - 1;
    var s0, s := Run(db, g, steps[..n]).value, Run(db, g, steps).value;
    UntargetedUnchanged(db, g, steps[..n], steps[n].target);
    var ins := Lookup(g.inputs, steps[n].recipe);
    LabelsOfElems(s0, ins);
    ApplyFloorIsLeast(s0.datasets[steps[n].target].labels, LabelsOf(s0, ins), s.datasets[steps[n].target].labels);
  }

  lemma {:induction false} RunBuilds(db: Project, g: RecipeGraph, steps: seq<BuildStep>, k: nat)
    requires Runnable(db, steps) && Run(db, g, steps).Ok? && Ordered(g, steps) && k < |steps|
    ensures BuiltBy(db, Run(db, g, steps).value, g, steps[k])
    decreases |steps|
  {
    var n := |steps| - 1;
    var rest := steps[..n];
    OrderedPrefix(g, steps, n);
    var s0 := Run(db, g, rest).value;
    if k == n {
      LastBuilds(db, g, steps);
    } else {
      RunBuilds(db, g, rest, k);
      assert rest[k] == steps[k];
      BuiltByKept(db, s0, g, steps[k], steps[n]);
    }
  }

  // A later step that builds neither the target nor an input of the first leaves it as built.
  lemma BuiltByKept(db: Project, s: Project, g: RecipeGraph, first: BuildStep, later: BuildStep)
    requires first.target in db.datasets && first.recipe in db.hashes && BuiltBy(db, s, g, first)
    requires later.target in s.datasets && later.recipe in s.hashes && RunStep(s, g, later).Ok?
    requires later.target != first.target && later.target !in Lookup(g.inputs, first.recipe)
    ensures BuiltBy(db, RunStep(s, g, later).value, g, first)
  {
  }

  // ---- Everything is fresh ----

  /** Rows a plan is run against: every dataset of the closure exists and is active (a
      dataset wired into an active recipe cannot be archived). */
  ghost predicate Wired(db: Project, g: RecipeGraph, closure: set<Id>)
    requires UpstreamClosed(g, closure)
  {
    forall r :: r in closure ==> g.outputs[r][0] in db.datasets && db.datasets[g.outputs[r][0]].active
  }

  /** Plan-then-run: whenever the run finishes, every recipe of the closure is fresh. */
  lemma RunLeavesFresh(db: Project, g: RecipeGraph, force: bool, closure: set<Id>, depth: map<Id, nat>,
      steps: seq<BuildStep>, r: Id)
    requires Loaded(db, g) && UpstreamClosed(g, closure) && IsPlan(db, g, force, closure, depth, steps)
      && Wired(db, g, closure)
    requires Runnable(db, steps) && Run(db, g, steps).Ok? && r in closure
    ensures !OutputStale(Run(db, g, steps).value, g, r)
  {
    PlanIsOrdered(db, g, force, closure, depth, steps);
    if Due(db, g, force, r) {
      var k :| 0 <= k < |steps| && steps[k].recipe == r;
      RunBuilds(db, g, steps, k);
    } else {
      NotDueUntouched(db, g, force, closure, depth, steps, r);
    }
  }

  /** A recipe left out of the plan is fresh, and neither it nor its inputs are rebuilt. */
  lemma NotDueUntouched(db: Project, g: RecipeGraph, force: bool, closure: set<Id>, depth: map<Id, nat>,
      steps: seq<BuildStep>, r: Id)
    requires Loaded(db, g) && UpstreamClosed(g, closure) && IsPlan(db, g, force, closure, depth, steps)
      && Wired(db, g, closure)
    requires Runnable(db, steps) && Run(db, g, steps).Ok? && r in closure && !Due(db, g, force, r)
    ensures !OutputStale(Run(db, g, steps).value, g, r)
  {
    var s := Run(db, g, steps).value;
    var primary := g.outputs[r][0];
    DueByInputs(db, g, force, r);
    assert primary in g.outputs[r];
    TargetsAreDue(db, g, force, closure, depth, steps, primary);
    UntargetedUnchanged(db, g, steps, primary);
    forall d | d in Lookup(g.inputs, r) && d in db.datasets
      ensures s.datasets[d] == db.datasets[d]
    {
      TargetsAreDue(db, g, force, closure, depth, steps, d);
      assert d in g.producer ==> Edge(RecipeDeps(g), r, g.producer[d]);
      UntargetedUnchanged(db, g, steps, d);
    }
  }

  /** A plan that was resolved from the rows db and ran to the end, leaving s. */
  ghost predicate Ran(db: Project, g: RecipeGraph, force: bool, closure: set<Id>, depth: map<Id, nat>,
      steps: seq<BuildStep>, s: Project) {
    && Loaded(db, g) && UpstreamClosed(g, closure) && IsPlan(db, g, force, closure, depth, steps)
    && Wired(db, g, closure)
    && Runnable(db, steps) && Run(db, g, steps) == Ok(s)
  }

  lemma AllFresh(db: Project, g: RecipeGraph, force: bool, closure: set<Id>, depth: map<Id, nat>, steps: seq<BuildStep>,
      s: Project)
    requires Ran(db, g, force, closure, depth, steps, s)
    ensures Loaded(s, g) && UpstreamClosed(g, closure)
    ensures forall u :: u in closure ==> !OutputStale(s, g, u)
  {
    forall u | u in closure
      ensures !OutputStale(s, g, u)
    {
      RunLeavesFresh(db, g, force, closure, depth, steps, u);
    }
  }

  /** Re-planning without force from what a run left finds nothing to do. */
  lemma ReplanIsEmpty(db: Project, g: RecipeGraph, force: bool, closure: set<Id>, depth: map<Id, nat>,
      steps: seq<BuildStep>, s: Project)
    requires Ran(db, g, force, closure, depth, steps, s)
    ensures Loaded(s, g)
    ensures forall depth', steps' :: IsPlan(s, g, false, closure, depth', steps') ==> steps' == []
  {
    AllFresh(db, g, force, closure, depth, steps, s);
    FreshPlansNothing(s, g, closure);
  }

  lemma FreshPlansNothing(db: Project, g: RecipeGraph, closure: set<Id>)
    requires Loaded(db, g) && UpstreamClosed(g, closure)
    requires forall u :: u in closure ==> !OutputStale(db, g, u)
    ensures forall depth, steps :: IsPlan(db, g, false, closure, depth, steps) ==> steps == []
  {
    forall r | r in closure
      ensures !Due(db, g, false, r)
    {
      forall u | Reach(RecipeDeps(g), r, u)
        ensures u in closure
      {
        ClosedContainsReach(RecipeDeps(g), closure, r, u);
      }
    }
    forall depth, steps | IsPlan(db, g, false, closure, depth, steps)
      ensures steps == []
    {
      if steps != [] {
        StepFacts(db, g, false, closure, depth, steps, 0);
      }
    }
  }

  // ---- When a run succeeds ----

  ghost predicate InputReady(db: Project, steps: seq<BuildStep>, k: nat, d: Id)
    requires k <= |steps|
  {
    d in db.datasets && (db.datasets[d].currentVersion > 0 || Targeted(steps[..k], d))
  }

  ghost predicate OwnOutputs(g: RecipeGraph, steps: seq<BuildStep>) {
    forall k :: 0 <= k < |steps| ==> steps[k].target in g.producer && g.producer[steps[k].target] == steps[k].recipe
  }

  /** The lineage the plan rebuilds: each built dataset depends on its recipe's inputs. */
  function BuiltGraph(g: RecipeGraph, steps: seq<BuildStep>): Graph {
    map d | d in g.producer && Targeted(steps, d) :: Elems(Lookup(g.inputs, g.producer[d]))
  }

  /** Before the run, d or something it is rebuilt from carries labels above the bound. */
  ghost predicate Tainted(db: Project, g: RecipeGraph, steps: seq<BuildStep>, bound: Labels, d: Id) {
    exists u :: Reach(BuiltGraph(g, steps), d, u) && u in db.datasets && Exceeds(db.datasets[u].labels, bound)
  }

  /** Step k can run: each input is built already or by an earlier step, and a Python recipe
      reads nothing that what is built by then taints. */
  ghost predicate StepReady(db: Project, g: RecipeGraph, steps: seq<BuildStep>, k: nat)
    requires k < |steps|
  {
    forall d :: d in Lookup(g.inputs, steps[k].recipe) ==>
      InputReady(db, steps, k, d) && (steps[k].recipe in db.python ==> !Tainted(db, g, steps[..k], READABLE, d))
  }

  /** Adding a last step changes the taint of nothing but its target. */
  lemma TaintOfOthers(db: Project, g: RecipeGraph, steps: seq<BuildStep>, bound: Labels, d: Id)
    requires steps != [] && Ordered(g, steps) && OwnOutputs(g, steps) && d != steps[|steps| - 1].target
    ensures Tainted(db, g, steps, bound, d) <==> Tainted(db, g, steps[..|steps| - 1], bound, d)
  {
    var n := |steps| - 1;
    var rest, t := steps[..n], steps[n].target;
    var big, small := BuiltGraph(g, steps), BuiltGraph(g, rest);
    forall x
      ensures !Edge(big, x, t)
    {
      if Targeted(steps, x) {
        var i :| 0 <= i < |steps| && steps[i].target == x;
        assert steps[n].target !in Lookup(g.inputs, steps[i].recipe);
      }
    }
    forall x, y | x != t && Edge(big, x, y)
      ensures Edge(small, x, y)
    {
      var i :| 0 <= i < |steps| && steps[i].target == x;
      assert rest[i].target == x;
    }
    forall x | Targeted(rest, x)
      ensures Targeted(steps, x)
    {
      var i :| 0 <= i < n && rest[i].target == x;
      assert steps[i].target == x;
    }
    forall u
      ensures Reach(big, d, u) <==> Reach(small, d, u)
    {
      ReachInSupergraph(small, big, d, u);
      if Reach(big, d, u) {
        ReachAvoiding(big, small, t, d, u);
      }
    }
  }

  /** So a step's inputs are tainted by the whole plan or by what comes before the step. */
  lemma {:induction false} TaintOfInputs(db: Project, g: RecipeGraph, steps: seq<BuildStep>, bound: Labels, k: nat,
      d: Id)
    requires k < |steps| && Ordered(g, steps) && OwnOutputs(g, steps) && d in Lookup(g.inputs, steps[k].recipe)
    ensures Tainted(db, g, steps, bound, d) <==> Tainted(db, g, steps[..k], bound, d)
    decreases |steps|
  {
    var n := |steps| - 1;
    assert steps[n].target !in Lookup(g.inputs, steps[k].recipe);
    TaintOfOthers(db, g, steps, bound, d);
    if k < n {
      OrderedPrefix(g, steps, n);
      TaintOfInputs(db, g, steps[..n], bound, k, d);
      assert steps[..n][..k] == steps[..k];
    }
  }

  /** A built dataset is tainted when its own labels are above the bound or an input is
      tainted. */
  lemma TaintOfTarget(db: Project, g: RecipeGraph, steps: seq<BuildStep>, bound: Labels, t: Id)
    requires t in g.producer && Targeted(steps, t)
    ensures Tainted(db, g, steps, bound, t) <==>
      (t in db.datasets && Exceeds(db.datasets[t].labels, bound))
      || exists i :: i in Lookup(g.inputs, g.producer[t]) && Tainted(db, g, steps, bound, i)
  {
    var built := BuiltGraph(g, steps);
    ReachSelf(built, t);
    if i :| i in Lookup(g.inputs, g.producer[t]) && Tainted(db, g, steps, bound, i) {
      var u :| Reach(built, i, u) && u in db.datasets && Exceeds(db.datasets[u].labels, bound);
      EdgeReach(built, t, i);
      ReachTransitive(built, t, i, u);
    }
    if u :| Reach(built, t, u) && u in db.datasets && Exceeds(db.datasets[u].labels, bound) {
      if u != t {
        var i := ReachFirstEdge(built, t, u);
        assert Tainted(db, g, steps, bound, i);
      }
    }
  }

  /** After the run a dataset's labels are above a bound exactly when it was tainted before:
      for every bound, the ratchet neither loses nor invents a label. */
  lemma {:induction false} TaintPropagates(db: Project, g: RecipeGraph, steps: seq<BuildStep>, bound: Labels, d: Id)
    requires Runnable(db, steps) && Run(db, g, steps).Ok? && Ordered(g, steps) && OwnOutputs(g, steps)
      && d in db.datasets
    ensures Exceeds(Run(db, g, steps).value.datasets[d].labels, bound) <==> Tainted(db, g, steps, bound, d)
    decreases |steps|
  {
    if steps == [] {
      ReachSelf(BuiltGraph(g, steps), d);
      forall u | Reach(BuiltGraph(g, steps), d, u)
        ensures u == d
      {
        ClosedContainsReach(BuiltGraph(g, steps), {d}, d, u);
      }
    } else {
      var n := |steps| - 1;
      var rest, step := steps[..n], steps[n];
      OrderedPrefix(g, steps, n);
      if d != step.target {
        TaintPropagates(db, g, rest, bound, d);
        TaintOfOthers(db, g, steps, bound, d);
      } else {
        TargetTaint(db, g, steps, bound);
      }
    }
  }

  lemma {:induction false} TargetTaint(db: Project, g: RecipeGraph, steps: seq<BuildStep>, bound: Labels)
    requires steps != [] && Runnable(db, steps) && Run(db, g, steps).Ok? && Ordered(g, steps) && OwnOutputs(g, steps)
    ensures var t := steps[|steps| - 1].target;
            Exceeds(Run(db, g, steps).value.datasets[t].labels, bound) <==> Tainted(db, g, steps, bound, t)
    decreases |steps|, 0
  {
    var n := |steps| - 1;
    var rest, step := steps[..n], steps[n];
    var ins := Lookup(g.inputs, step.recipe);
    var s0 := Run(db, g, rest).value;
    OrderedPrefix(g, steps, n);
    UntargetedUnchanged(db, g, rest, step.target);
    forall i | i in ins
      ensures i in s0.datasets && (Exceeds(s0.datasets[i].labels, bound) <==> Tainted(db, g, steps, bound, i))
    {
      assert steps[n].target !in Lookup(g.inputs, steps[n].recipe);
      TaintPropagates(db, g, rest, bound, i);
      TaintOfOthers(db, g, steps, bound, i);
    }
    assert Targeted(steps, step.target) by {
      assert steps[n].target == step.target;
    }
    TaintOfTarget(db, g, steps, bound, step.target);
    LabelsOfElems(s0, ins);
    RatchetExceeds(s0.datasets[step.target].labels, LabelsOf(s0, ins), bound);
  }

  /** Exactly when a plan runs to the end. The condition can be read off the rows before
      the run starts. */
  lemma {:induction false} RunSucceedsIff(db: Project, g: RecipeGraph, steps: seq<BuildStep>)
    requires Runnable(db, steps) && Ordered(g, steps) && OwnOutputs(g, steps)
    ensures Run(db, g, steps).Ok? <==> forall k: nat :: k < |steps| ==> StepReady(db, g, steps, k)
    decreases |steps|
  {
    if steps != [] {
      var n := |steps| - 1;
      OrderedPrefix(g, steps, n);
      RunSucceedsIff(db, g, steps[..n]);
      ReadyPrefix(db, g, steps, n);
      if Run(db, g, steps[..n]).Ok? {
        LastStepSucceedsIff(db, g, steps);
      }
    }
  }

  lemma ReadyPrefix(db: Project, g: RecipeGraph, steps: seq<BuildStep>, n: nat)
    requires n <= |steps|
    ensures forall k: nat :: k < n ==> (StepReady(db, g, steps[..n], k) <==> StepReady(db, g, steps, k))
  {
    forall k: nat | k < n
      ensures StepReady(db, g, steps[..n], k) <==> StepReady(db, g, steps, k)
    {
      assert steps[..n][..k] == steps[..k] && steps[..n][k] == steps[k];
    }
  }

  lemma LastStepSucceedsIff(db: Project, g: RecipeGraph, steps: seq<BuildStep>)
    requires steps != [] && Runnable(db, steps) && Ordered(g, steps) && OwnOutputs(g, steps)
    requires Run(db, g, steps[..|steps| - 1]).Ok?
    ensures Run(db, g, steps).Ok? <==> StepReady(db, g, steps, |steps| - 1)
  {
    var n := |steps| - 1;
    var rest, ins := steps[..n], Lookup(g.inputs, steps[n].recipe);
    var s0 := Run(db, g, rest).value;
    OrderedPrefix(g, steps, n);
    forall d | d in ins && d in db.datasets
      ensures s0.datasets[d].currentVersion > 0 <==> InputReady(db, steps, n, d)
      ensures Blocking(s0.datasets[d].labels) <==> Tainted(db, g, rest, READABLE, d)
    {
      TaintPropagates(db, g, rest, READABLE, d);
      BlockingExceedsReadable(s0.datasets[d].labels);
      VersionAfterRun(db, g, rest, d);
    }
  }

  lemma VersionAfterRun(db: Project, g: RecipeGraph, steps: seq<BuildStep>, d: Id)
    requires Runnable(db, steps) && Ordered(g, steps) && Run(db, g, steps).Ok? && d in db.datasets
    ensures Run(db, g, steps).value.datasets[d].currentVersion
      == db.datasets[d].currentVersion + (if Targeted(steps, d) then 1 else 0)
  {
    if Targeted(steps, d) {
      var k :| 0 <= k < |steps| && steps[k].target == d;
      RunBuilds(db, g, steps, k);
    } else {
      UntargetedUnchanged(db, g, steps, d);
    }
  }

  // ---- Plan, run, replan ----

  /** No recipe of the closure reads another recipe's secondary output (only the primary
      one is ever built). */
  ghost predicate PrimaryReads(g: RecipeGraph, closure: set<Id>)
    requires UpstreamClosed(g, closure)
  {
    forall r, d :: r in closure && d in Lookup(g.inputs, r) && d in g.producer && Produced(g, g.producer[d]) ==>
      d == g.outputs[g.producer[d]][0]
  }

  /** Every input of the closure exists, and the sources among them have been built. */
  ghost predicate SourcesBuilt(db: Project, g: RecipeGraph, closure: set<Id>) {
    forall r, d :: r in closure && d in Lookup(g.inputs, r) ==>
      d in db.datasets && (d !in g.producer ==> db.datasets[d].currentVersion > 0)
  }

  /** What must hold of the rows before a build for it to go through. */
  ghost predicate Buildable(db: Project, g: RecipeGraph, closure: set<Id>)
    requires UpstreamClosed(g, closure)
  {
    Wired(db, g, closure) && PrimaryReads(g, closure) && SourcesBuilt(db, g, closure)
  }

  ghost predicate StepUntainted(db: Project, g: RecipeGraph, steps: seq<BuildStep>, k: nat)
    requires k < |steps|
  {
    steps[k].recipe in db.python ==>
      forall d :: d in Lookup(g.inputs, steps[k].recipe) ==> !Tainted(db, g, steps, READABLE, d)
  }

  /** No Python recipe of the plan reads what carries, or is rebuilt from, a blocking label. */
  ghost predicate PythonUntainted(db: Project, g: RecipeGraph, steps: seq<BuildStep>) {
    forall k: nat :: k < |steps| ==> StepUntainted(db, g, steps, k)
  }

  // The plan builds the input's producer before it is read.
  lemma ProducerRunsFirst(db: Project, g: RecipeGraph, force: bool, closure: set<Id>, depth: map<Id, nat>,
      steps: seq<BuildStep>, k: nat, d: Id)
    requires Loaded(db, g) && UpstreamClosed(g, closure) && IsPlan(db, g, force, closure, depth, steps)
      && PrimaryReads(g, closure)
    requires k < |steps| && d in Lookup(g.inputs, steps[k].recipe) && d in g.producer
    requires g.producer[d] in closure && Due(db, g, force, g.producer[d])
    ensures Targeted(steps[..k], d)
  {
    StepFacts(db, g, force, closure, depth, steps, k);
    var i :| 0 <= i < |steps| && steps[i].recipe == g.producer[d];
    ProducerIsEdge(g, closure, steps[k].recipe, d);
    BuiltBefore(db, g, force, closure, depth, steps, i, k);
    assert steps[..k][i].target == d;
  }

  // An input is built already, or the plan builds it before it is read.
  lemma InputsReady(db: Project, g: RecipeGraph, force: bool, closure: set<Id>, depth: map<Id, nat>,
      steps: seq<BuildStep>, k: nat, d: Id)
    requires Loaded(db, g) && UpstreamClosed(g, closure) && IsPlan(db, g, force, closure, depth, steps)
      && Buildable(db, g, closure)
    requires k < |steps| && d in Lookup(g.inputs, steps[k].recipe)
    ensures InputReady(db, steps, k, d)
  {
    StepFacts(db, g, force, closure, depth, steps, k);
    if d in g.producer {
      var q := g.producer[d];
      assert Edge(RecipeDeps(g), steps[k].recipe, q);
      if Due(db, g, force, q) {
        ProducerRunsFirst(db, g, force, closure, depth, steps, k, d);
      } else {
        NotDueIsBuilt(db, g, force, closure, q, d);
      }
    }
  }

  lemma NotDueIsBuilt(db: Project, g: RecipeGraph, force: bool, closure: set<Id>, q: Id, d: Id)
    requires Loaded(db, g) && UpstreamClosed(g, closure) && q in closure && !Due(db, g, force, q)
      && d == g.outputs[q][0] && d in db.datasets
    ensures db.datasets[d].currentVersion > 0
  {
    DueByInputs(db, g, force, q);
  }

  lemma BuiltBefore(db: Project, g: RecipeGraph, force: bool, closure: set<Id>, depth: map<Id, nat>,
      steps: seq<BuildStep>, i: nat, k: nat)
    requires Loaded(db, g) && IsPlan(db, g, force, closure, depth, steps) && i < |steps| && k < |steps|
    requires Edge(SubDeps(g, closure), steps[k].recipe, steps[i].recipe)
    ensures i < k
  {
    StepFacts(db, g, force, closure, depth, steps, i);
    StepFacts(db, g, force, closure, depth, steps, k);
    assert IsDepth(SubDeps(g, closure), depth);
  }

  lemma StepReadyIff(db: Project, g: RecipeGraph, force: bool, closure: set<Id>, depth: map<Id, nat>,
      steps: seq<BuildStep>, k: nat)
    requires Loaded(db, g) && UpstreamClosed(g, closure) && IsPlan(db, g, force, closure, depth, steps)
      && Buildable(db, g, closure)
    requires k < |steps| && Ordered(g, steps) && OwnOutputs(g, steps)
    ensures StepReady(db, g, steps, k) <==> StepUntainted(db, g, steps, k)
  {
    forall d | d in Lookup(g.inputs, steps[k].recipe)
      ensures InputReady(db, steps, k, d)
      ensures Tainted(db, g, steps, READABLE, d) <==> Tainted(db, g, steps[..k], READABLE, d)
    {
      InputsReady(db, g, force, closure, depth, steps, k, d);
      TaintOfInputs(db, g, steps, READABLE, k, d);
    }
  }

  lemma PlanOwnsOutputs(db: Project, g: RecipeGraph, force: bool, closure: set<Id>, depth: map<Id, nat>,
      steps: seq<BuildStep>)
    requires Loaded(db, g) && UpstreamClosed(g, closure) && IsPlan(db, g, force, closure, depth, steps)
      && Wired(db, g, closure)
    ensures OwnOutputs(g, steps) && Runnable(db, steps)
  {
    forall k | 0 <= k < |steps|
      ensures steps[k].target in g.producer && g.producer[steps[k].target] == steps[k].recipe
    {
      StepFacts(db, g, force, closure, depth, steps, k);
    }
  }

  /** A plan over buildable rows runs to its end if and only if no Python recipe of it reads
      tainted data. */
  lemma PlanRunsIff(db: Project, g: RecipeGraph, force: bool, closure: set<Id>, depth: map<Id, nat>,
      steps: seq<BuildStep>)
    requires Loaded(db, g) && UpstreamClosed(g, closure) && IsPlan(db, g, force, closure, depth, steps)
      && Buildable(db, g, closure)
    ensures Runnable(db, steps)
    ensures Run(db, g, steps).Ok? <==> PythonUntainted(db, g, steps)
  {
    PlanIsOrdered(db, g, force, closure, depth, steps);
    PlanOwnsOutputs(db, g, force, closure, depth, steps);
    RunSucceedsIff(db, g, steps);
    forall k: nat | k < |steps|
      ensures StepReady(db, g, steps, k) <==> StepUntainted(db, g, steps, k)
    {
      StepReadyIff(db, g, force, closure, depth, steps, k);
    }
  }

  /** Plan, run, replan: over buildable rows an untainted plan runs to its end, leaves every
      recipe of the closure fresh, and leaves an unforced replan nothing to do. */
  lemma PlanThenRun(db: Project, g: RecipeGraph, force: bool, closure: set<Id>, depth: map<Id, nat>,
      steps: seq<BuildStep>)
    requires Loaded(db, g) && UpstreamClosed(g, closure) && IsPlan(db, g, force, closure, depth, steps)
      && Buildable(db, g, closure)
    requires PythonUntainted(db, g, steps)
    ensures Runnable(db, steps) && Run(db, g, steps).Ok?
    ensures var s := Run(db, g, steps).value;
      && Loaded(s, g) && (forall u :: u in closure ==> !OutputStale(s, g, u))
      && forall depth', steps' :: IsPlan(s, g, false, closure, depth', steps') ==> steps' == []
  {
    PlanRunsIff(db, g, force, closure, depth, steps);
    var s := Run(db, g, steps).value;
    AllFresh(db, g, force, closure, depth, steps, s);
    ReplanIsEmpty(db, g, force, closure, depth, steps, s);
  }

  ghost predicate FreshIn(s: Project, g: RecipeGraph, closure: set<Id>) {
    forall u :: u in closure ==> u in g.outputs && g.outputs[u] != [] && u in s.hashes && !OutputStale(s, g, u)
  }

  /** The closure of the request has what it takes to be built. */
  ghost predicate BuildableRequest(db: Project, g: RecipeGraph, targetNames: seq<string>) {
    forall closure :: Requested(db, g, targetNames, closure) && UpstreamClosed(g, closure) ==> Buildable(db, g, closure)
  }

  /** The same from the request: resolve the targets, carry the plan out, resolve again
      without force. */
  method BuildAndReplan(db: Project, g: RecipeGraph, targetNames: seq<string>, force: bool)
    returns (steps: seq<BuildStep>, after: Result<Project, Problem>, again: Result<seq<BuildStep>, Problem>,
      ghost closure: set<Id>)
    requires Loaded(db, g) && AcyclicGraph(g) && BuildableRequest(db, g, targetNames)
    requires forall n :: n in targetNames ==> n in db.names && db.names[n] in g.producer
    ensures Requested(db, g, targetNames, closure)
    ensures after.Ok? <==> PythonUntainted(db, g, steps)
    ensures after.Ok? ==> FreshIn(after.value, g, closure) && again == Ok([])
  {
    var planned, upstream, depth := ResolveBuild(db, g, targetNames, force);
    steps, closure := planned.value, upstream;
    assert Requested(db, g, targetNames, closure);
    RequestRuns(db, g, targetNames, force, closure, depth, steps);
    after := RunPlan(db, g, steps);
    if after.Err? {
      return steps, after, Err(after.error), closure;
    }
    again := Replan(db, after.value, g, targetNames, closure);
  }

  // The same request once more, over rows whose every plan is empty.
  method Replan(ghost db: Project, s: Project, g: RecipeGraph, targetNames: seq<string>, ghost closure: set<Id>)
    returns (again: Result<seq<BuildStep>, Problem>)
    requires Loaded(s, g) && AcyclicGraph(g) && Requested(db, g, targetNames, closure) && s.names == db.names
    requires TargetsProduced(s, g, targetNames)
    requires UpstreamClosed(g, closure)
    requires forall depth, steps :: IsPlan(s, g, false, closure, depth, steps) ==> steps == []
    ensures again == Ok([])
  {
    var replanned, upstream, depth := ResolveBuild(s, g, targetNames, false);
    SameRequest(db, g, targetNames, closure, s, upstream);
    again := replanned;
  }

  // What planning and running a request leaves, for the second request to meet.
  lemma RequestRuns(db: Project, g: RecipeGraph, targetNames: seq<string>, force: bool, closure: set<Id>,
      depth: map<Id, nat>, steps: seq<BuildStep>)
    requires Loaded(db, g) && BuildableRequest(db, g, targetNames)
    requires Requested(db, g, targetNames, closure) && UpstreamClosed(g, closure)
    requires IsPlan(db, g, force, closure, depth, steps)
    ensures Runnable(db, steps) && (Run(db, g, steps).Ok? <==> PythonUntainted(db, g, steps))
    ensures Run(db, g, steps).Ok? ==>
              var s := Run(db, g, steps).value;
              && Loaded(s, g) && FreshIn(s, g, closure) && s.names == db.names
              && forall depth', steps' :: IsPlan(s, g, false, closure, depth', steps') ==> steps' == []
  {
    PlanRunsIff(db, g, force, closure, depth, steps);
    if Run(db, g, steps).Ok? {
      PlanThenRun(db, g, force, closure, depth, steps);
    }
  }

  lemma SameRequest(db: Project, g: RecipeGraph, targetNames: seq<string>, closure: set<Id>, s: Project, other: set<Id>)
    requires Requested(db, g, targetNames, closure) && Requested(s, g, targetNames, other) && s.names == db.names
    ensures closure == other
  {
    var ps :| ProducersOf(db, g, targetNames, ps) && forall x :: x in closure <==> UpstreamOf(g, ps, x);
    var qs :| ProducersOf(s, g, targetNames, qs) && forall x :: x in other <==> UpstreamOf(g, qs, x);
    assert ps == qs;
  }

  // ---- Labels dominate lineage ----

  /** After any ordered plan has run, a dataset's labels are at least those of everything it
      was rebuilt from (and, by RunBuilds, at least its own earlier ones). */
  lemma LabelsDominateLineage(db: Project, g: RecipeGraph, steps: seq<BuildStep>, d: Id, u: Id)
    requires Runnable(db, steps) && Run(db, g, steps).Ok? && Ordered(g, steps) && OwnOutputs(g, steps)
    requires d in db.datasets && u in db.datasets && Reach(BuiltGraph(g, steps), d, u)
    ensures Below(Run(db, g, steps).value.datasets[u].labels, Run(db, g, steps).value.datasets[d].labels)
  {
    var bound := Run(db, g, steps).value.datasets[d].labels;
    TaintPropagates(db, g, steps, bound, d);
    TaintPropagates(db, g, steps, bound, u);
    TaintDownstream(db, g, steps, bound, d, u);
  }

  lemma TaintDownstream(db: Project, g: RecipeGraph, steps: seq<BuildStep>, bound: Labels, d: Id, u: Id)
    requires Reach(BuiltGraph(g, steps), d, u)
    ensures Tainted(db, g, steps, bound, u) ==> Tainted(db, g, steps, bound, d)
  {
    if Tainted(db, g, steps, bound, u) {
      var x :| Reach(BuiltGraph(g, steps), u, x) && x in db.datasets && Exceeds(db.datasets[x].labels, bound);
      ReachTransitive(BuiltGraph(g, steps), d, u, x);
    }
  }

  /** After a forced build the lineage is the whole of it: every transitive upstream dataset
      of the closure's primary outputs. */
  lemma ForcedLineage(db: Project, g: RecipeGraph, closure: set<Id>, depth: map<Id, nat>, steps: seq<BuildStep>, r: Id,
      u: Id)
    requires Loaded(db, g) && UpstreamClosed(g, closure) && IsPlan(db, g, true, closure, depth, steps)
      && PrimaryReads(g, closure)
    requires r in closure && Reach(DatasetGraph(g.producer, g.inputs), g.outputs[r][0], u)
    ensures Reach(BuiltGraph(g, steps), g.outputs[r][0], u)
  {
    var p :| WalkFromTo(DatasetGraph(g.producer, g.inputs), p, g.outputs[r][0], u);
    ForcedWalk(db, g, closure, depth, steps, r, p);
  }

  lemma {:induction false} ForcedWalk(db: Project, g: RecipeGraph, closure: set<Id>, depth: map<Id, nat>,
      steps: seq<BuildStep>, r: Id, p: seq<Id>)
    requires Loaded(db, g) && UpstreamClosed(g, closure) && IsPlan(db, g, true, closure, depth, steps)
      && PrimaryReads(g, closure)
    requires r in closure && Walk(DatasetGraph(g.producer, g.inputs), p) && p[0] == g.outputs[r][0]
    ensures Reach(BuiltGraph(g, steps), p[0], p[|p| - 1])
    decreases |p|
  {
    var datasets, built := DatasetGraph(g.producer, g.inputs), BuiltGraph(g, steps);
    if |p| == 1 {
      ReachSelf(built, p[0]);
    } else {
      var k := StepOf(db, g, closure, depth, steps, r);
      assert Edge(datasets, p[0], p[1]) && p[0] in g.outputs[r] && Targeted(steps, p[0]);
      assert Edge(built, p[0], p[1]);
      EdgeReach(built, p[0], p[1]);
      var tail := p[1..];
      assert Walk(datasets, tail) by {
        forall i | 0 <= i < |tail| - 1
          ensures Edge(datasets, tail[i], tail[i + 1])
        {
          assert Edge(datasets, p[i + 1], p[i + 2]);
        }
      }
      if |p| > 2 {
        assert Edge(datasets, p[1], p[2]);
        assert Edge(RecipeDeps(g), r, g.producer[p[1]]);
        ForcedWalk(db, g, closure, depth, steps, g.producer[p[1]], tail);
      } else {
        ReachSelf(built, p[1]);
      }
      ReachTransitive(built, p[0], p[1], p[|p| - 1]);
    }
  }

  lemma StepOf(db: Project, g: RecipeGraph, closure: set<Id>, depth: map<Id, nat>, steps: seq<BuildStep>, r: Id)
    returns (k: nat)
    requires Loaded(db, g) && IsPlan(db, g, true, closure, depth, steps) && r in closure
    ensures k < |steps| && steps[k].recipe == r && steps[k].target == g.outputs[r][0]
  {
    assert Due(db, g, true, r);
    var i :| 0 <= i < |steps| && steps[i].recipe == r;
    k := i;
  }
}
