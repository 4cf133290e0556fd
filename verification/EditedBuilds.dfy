/** Building what the recipe editors have wired: what every history of edits gives the planner
    (recipes_service.py, build_service.py). */
module EditedBuilds {
  import opened Digraph
  import opened RecipeGraphs
  import opened Wrappers
  import opened BuildPlan
  import R = RecipeEdits
  import BuildRun

  /** The project's rows beside the editors' tables: every registered dataset is there, active
      until it is archived, and every active recipe has a config hash. */
  ghost predicate Describes(db: Project, t: R.Tables) {
    && (forall n :: n in t.names ==>
          t.names[n] in db.datasets && (db.datasets[t.names[n]].active <==> t.names[n] !in t.archived))
    && (forall n :: n in db.names <==> R.Open(t, n))
    && (forall n :: n in db.names ==> db.names[n] == t.names[n])
    && t.active <= db.hashes.Keys
  }

  ghost predicate GraphOf(g: RecipeGraph, t: R.Tables) {
    R.GraphValid(t) && R.IsGraphOf(g, t.active, t.inputRows, t.outputRows)
  }

  lemma NamedExists(db: Project, t: R.Tables, ids: seq<Id>, d: Id)
    requires Describes(db, t) && R.AllNamed(t.names, ids) && d in ids
    ensures d in db.datasets && (db.datasets[d].active <==> d !in t.archived)
  {
    var n :| n in t.names && t.names[n] == d;
  }

  lemma RecipeWired(db: Project, t: R.Tables, g: RecipeGraph, r: Id)
    requires R.Valid(t) && R.Shaped(t) && Describes(db, t) && GraphOf(g, t) && r in t.active
    ensures Produced(g, r)
    ensures forall d :: d in Lookup(g.inputs, r) ==> d in db.datasets && db.datasets[d].active
    ensures forall d :: d in g.outputs[r] ==> d in db.datasets && db.datasets[d].active
  {
    assert R.ShapeOk(t, r);
    forall d | d in t.inputRows[r]
      ensures d in db.datasets && db.datasets[d].active
    {
      NamedExists(db, t, t.inputRows[r], d);
    }
    forall d | d in t.outputRows[r]
      ensures d in db.datasets && db.datasets[d].active
    {
      NamedExists(db, t, t.outputRows[r], d);
    }
  }

  /** After any history of edits the loaded graph is one the planner and the executor can work
      with: no cycle, one producer each, and every recipe upstream of a target has its inputs
      and a primary output among the active datasets. */
  lemma EditedGraphPlans(db: Project, t: R.Tables, g: RecipeGraph, closure: set<Id>)
    requires R.Valid(t) && R.Shaped(t) && Describes(db, t) && GraphOf(g, t)
    requires closure <= t.active && Closed(RecipeDeps(g), closure)
    ensures Loaded(db, g) && AcyclicGraph(g) && UpstreamClosed(g, closure) && BuildRun.Wired(db, g, closure)
    ensures forall r, d :: r in closure && d in Lookup(g.inputs, r) ==> d in db.datasets && db.datasets[d].active
  {
    R.LoadedGraphSound(g, t.active, t.inputRows, t.outputRows);
    forall r | r in closure
      ensures Produced(g, r) && g.outputs[r][0] in db.datasets && db.datasets[g.outputs[r][0]].active
      ensures forall d :: d in Lookup(g.inputs, r) ==> d in db.datasets && db.datasets[d].active
    {
      RecipeWired(db, t, g, r);
    }
  }

  /** Nothing left to ask of a build: the sources that active recipes read have been built, and
      no recipe reads another's secondary output. */
  ghost predicate SourcesReady(db: Project, t: R.Tables) {
    forall r, d :: r in t.active && r in t.inputRows && d in t.inputRows[r] && d in db.datasets ==>
      if R.Produced(t.outputRows, d) then IsPrimary(t, d) else db.datasets[d].currentVersion > 0
  }

  ghost predicate IsPrimary(t: R.Tables, d: Id) {
    exists q :: q in t.outputRows && t.outputRows[q] != [] && t.outputRows[q][0] == d
  }

  lemma UpstreamIsActive(g: RecipeGraph, t: R.Tables, ps: seq<Id>, x: Id)
    requires GraphOf(g, t) && UpstreamOf(g, ps, x) && forall p :: p in ps ==> p in t.active
    ensures x in t.active
  {
    var p :| p in ps && Reach(RecipeDeps(g), p, x);
    forall a, b | a in t.active && Edge(RecipeDeps(g), a, b)
      ensures b in t.active
    {
      var i :| i in g.inputs[a] && i in g.producer && g.producer[i] == b;
      assert R.Produces(t.active, t.outputRows, b, i);
    }
    ClosedContainsReach(RecipeDeps(g), t.active, p, x);
  }

  lemma RequestIsActive(db: Project, g: RecipeGraph, t: R.Tables, targetNames: seq<string>, closure: set<Id>)
    requires GraphOf(g, t) && Requested(db, g, targetNames, closure)
    ensures closure <= t.active
  {
    var ps :| ProducersOf(db, g, targetNames, ps) && forall x :: x in closure <==> UpstreamOf(g, ps, x);
    forall k | 0 <= k < |ps|
      ensures ps[k] in t.active
    {
      assert R.Produces(t.active, t.outputRows, ps[k], db.names[targetNames[k]]);
    }
    forall x | x in closure
      ensures x in t.active
    {
      UpstreamIsActive(g, t, ps, x);
    }
  }

  lemma ProducedInGraph(g: RecipeGraph, t: R.Tables, d: Id)
    requires GraphOf(g, t)
    ensures d in g.producer <==> R.Produced(t.outputRows, d)
  {
    if d in g.producer {
      assert R.Lists(t.outputRows, g.producer[d], d);
    }
    if R.Produced(t.outputRows, d) {
      var q :| q in t.outputRows && R.Lists(t.outputRows, q, d);
      assert R.Produces(t.active, t.outputRows, q, d);
    }
  }

  // A dataset that can be read: a primary output, or a source that has been built.
  ghost predicate Readable(db: Project, g: RecipeGraph, d: Id) {
    && d in db.datasets && (d !in g.producer ==> db.datasets[d].currentVersion > 0)
    && (d in g.producer && Produced(g, g.producer[d]) ==> d == g.outputs[g.producer[d]][0])
  }

  lemma PrimaryAt(db: Project, t: R.Tables, g: RecipeGraph, r: Id, d: Id)
    requires R.Valid(t) && R.Shaped(t) && Describes(db, t) && GraphOf(g, t) && SourcesReady(db, t)
    requires r in t.active && d in Lookup(g.inputs, r)
    ensures Readable(db, g, d)
  {
    RecipeWired(db, t, g, r);
    ProducedInGraph(g, t, d);
    if R.Produced(t.outputRows, d) {
      var q :| q in t.outputRows && t.outputRows[q] != [] && t.outputRows[q][0] == d;
      assert R.Lists(t.outputRows, q, d);
      assert R.Produces(t.active, t.outputRows, q, d);
    }
  }

  lemma ReadableIsBuildable(db: Project, g: RecipeGraph, closure: set<Id>)
    requires UpstreamClosed(g, closure) && BuildRun.Wired(db, g, closure)
    requires forall r, d :: r in closure && d in Lookup(g.inputs, r) ==> Readable(db, g, d)
    ensures BuildRun.Buildable(db, g, closure)
  {
    assert BuildRun.SourcesBuilt(db, g, closure) by {
      forall r, d | r in closure && d in Lookup(g.inputs, r)
        ensures d in db.datasets && (d !in g.producer ==> db.datasets[d].currentVersion > 0)
      {
        assert Readable(db, g, d);
      }
    }
    forall r, d | r in closure && d in Lookup(g.inputs, r) && d in g.producer && Produced(g, g.producer[d])
      ensures d == g.outputs[g.producer[d]][0]
    {
      assert Readable(db, g, d);
    }
  }

  lemma EditedIsBuildable(db: Project, t: R.Tables, g: RecipeGraph, targetNames: seq<string>)
    requires R.Valid(t) && R.Shaped(t) && Describes(db, t) && GraphOf(g, t) && SourcesReady(db, t)
    ensures BuildRun.BuildableRequest(db, g, targetNames)
  {
    forall closure | Requested(db, g, targetNames, closure) && UpstreamClosed(g, closure)
      ensures BuildRun.Buildable(db, g, closure)
    {
      RequestIsActive(db, g, t, targetNames, closure);
      EditedGraphPlans(db, t, g, closure);
      forall r, d | r in closure && d in Lookup(g.inputs, r)
        ensures Readable(db, g, d)
      {
        PrimaryAt(db, t, g, r, d);
      }
      ReadableIsBuildable(db, g, closure);
    }
  }

  /** Planning from the tables never meets a cycle: it fails only for a target that is not an
      active dataset, or that no active recipe produces. */
  method PlanEdited(store: R.RecipeStore, db: Project, targetNames: seq<string>, force: bool)
    returns (r: Result<seq<BuildStep>, Problem>)
    requires R.Valid(store.State()) && R.Shaped(store.State()) && Describes(db, store.State())
    ensures r.Ok? <==> forall n :: n in targetNames ==>
      R.Open(store.State(), n) && R.Produced(store.State().outputRows, store.State().names[n])
    ensures r.Err? ==> r.error == TargetNotFound || r.error == NotProduced
  {
    var g := store.LoadGraph();
    ghost var t := store.State();
    R.LoadedGraphSound(g, t.active, t.inputRows, t.outputRows);
    forall n | n in db.names
      ensures db.names[n] in g.producer <==> R.Produced(t.outputRows, t.names[n])
    {
      ProducedInGraph(g, t, t.names[n]);
    }
    var plan, closure, depth := ResolveBuild(db, g, targetNames, force);
    r := plan;
  }

  /** From the editors' tables to fresh data: plan, run, plan again. */
  method BuildEdited(store: R.RecipeStore, db: Project, targetNames: seq<string>, force: bool)
    returns (steps: seq<BuildStep>, after: Result<Project, Problem>, again: Result<seq<BuildStep>, Problem>,
      g: RecipeGraph, ghost closure: set<Id>)
    requires R.Valid(store.State()) && R.Shaped(store.State()) && Describes(db, store.State())
    requires SourcesReady(db, store.State())
    requires forall n :: n in targetNames ==>
      R.Open(store.State(), n) && R.Produced(store.State().outputRows, store.State().names[n])
    ensures GraphOf(g, store.State()) && Requested(db, g, targetNames, closure)
    ensures after.Ok? <==> BuildRun.PythonUntainted(db, g, steps)
    ensures after.Ok? ==> BuildRun.FreshIn(after.value, g, closure) && again == Ok([])
  {
    g := store.LoadGraph();
    ghost var t := store.State();
    EditedGraphPlans(db, t, g, {});
    EditedIsBuildable(db, t, g, targetNames);
    forall n | n in targetNames
      ensures n in db.names && db.names[n] in g.producer
    {
      ProducedInGraph(g, t, t.names[n]);
    }
    steps, after, again, closure := BuildRun.BuildAndReplan(db, g, targetNames, force);
  }
}
