/** Build resolution (build_service.py): which recipes to run, and in what order. */
module BuildPlan {
  import opened Digraph
  import opened RecipeGraphs
  import opened Propagation
  import opened Wrappers

  datatype Problem = TargetNotFound | NotProduced | CyclicGraph | InputNotBuilt | PolicyBlocked

  // ---- The rows a build reads ----

  datatype Dataset = Dataset(active: bool, currentVersion: nat, labels: Labels)

  datatype Version = Version(recipeHash: Option<string>, inputVersions: Option<map<Id, nat>>)

  /** `names` holds the project's active datasets by name; `versions` is keyed by dataset
      and version number. */
  datatype Project = Project(
    names: map<string, Id>, datasets: map<Id, Dataset>, versions: map<(Id, nat), Version>,
    hashes: map<Id, string>, python: set<Id>)

  datatype BuildStep = BuildStep(recipe: Id, target: Id, ordinal: nat)

  // ---- Staleness ----

  datatype Freshness = NeverBuilt | Stale | Fresh

  function Consumed(v: Version, d: Id): nat {
    if v.inputVersions.Some? && d in v.inputVersions.value then v.inputVersions.value[d] else 0
  }

  function ComputeStaleness(currentVersion: nat, version: Option<Version>, producerHash: Option<string>,
      inputs: map<Id, nat>): Freshness {
    if currentVersion == 0 || version.None? then NeverBuilt
    else if producerHash != version.value.recipeHash then Stale
    else if exists d :: d in inputs && inputs[d] > Consumed(version.value, d) then Stale
    else Fresh
  }

  /** Whether a recipe's primary output needs a build; the other outputs play no part. */
  predicate OutputStale(db: Project, g: RecipeGraph, r: Id)
    requires r in g.outputs && g.outputs[r] != [] && r in db.hashes
  {
    var primary := g.outputs[r][0];
    if primary !in db.datasets || !db.datasets[primary].active then true
    else
      var current := db.datasets[primary].currentVersion;
      var version := if (primary, current) in db.versions then Some(db.versions[(primary, current)]) else None;
      var inputs := map d | d in Lookup(g.inputs, r) && d in db.datasets
        && db.datasets[d].active :: db.datasets[d].currentVersion;
      ComputeStaleness(current, version, Some(db.hashes[r]), inputs) != Fresh
  }

  // ---- Upstream closure ----

  ghost predicate UpstreamOf(g: RecipeGraph, producerIds: seq<Id>, r: Id) {
    exists p :: p in producerIds && Reach(RecipeDeps(g), p, r)
  }

  lemma UpstreamStep(g: RecipeGraph, producerIds: seq<Id>, a: Id, b: Id)
    requires UpstreamOf(g, producerIds, a) && Edge(RecipeDeps(g), a, b)
    ensures UpstreamOf(g, producerIds, b)
  {
    var p :| p in producerIds && Reach(RecipeDeps(g), p, a);
    EdgeReach(RecipeDeps(g), a, b);
    ReachTransitive(RecipeDeps(g), p, a, b);
  }

  /** Exactly the recipes a target's producer transitively depends on, itself included. */
  method UpstreamClosure(g: RecipeGraph, producerIds: seq<Id>) returns (closure: set<Id>)
    ensures forall r :: r in closure <==> UpstreamOf(g, producerIds, r)
  {
    ghost var universe := Universe(g, producerIds);
    UpstreamSetClosed(g, producerIds);
    closure := {};
    var stack := producerIds;
    while stack != []
      invariant Searching(g, producerIds, closure, stack)
      decreases universe - closure, |stack|
    {
      var recipe := stack[|stack| - 1];
      if recipe in closure {
        SearchPop(g, producerIds, closure, stack);
        stack := stack[..|stack| - 1];
      } else {
        var producers := InputProducers(g, recipe);
        SearchPush(g, producerIds, closure, stack, producers);
        closure := closure + {recipe};
        stack := stack[..|stack| - 1] + producers;
      }
    }
    SearchDone(g, producerIds, closure);
  }

  ghost function Universe(g: RecipeGraph, producerIds: seq<Id>): set<Id> {
    Elems(producerIds) + g.producer.Values
  }

  ghost predicate Searching(g: RecipeGraph, producerIds: seq<Id>, closure: set<Id>, stack: seq<Id>) {
    && Explored(UpstreamSet(g, producerIds), Universe(g, producerIds), RecipeDeps(g), closure, stack)
    && forall p :: p in producerIds ==> p in closure || p in stack
  }

  lemma SearchPop(g: RecipeGraph, producerIds: seq<Id>, closure: set<Id>, stack: seq<Id>)
    requires Searching(g, producerIds, closure, stack) && stack != [] && stack[|stack| - 1] in closure
    ensures Searching(g, producerIds, closure, stack[..|stack| - 1])
  {
    assert stack == stack[..|stack| - 1] + [stack[|stack| - 1]];
  }

  lemma SearchPush(g: RecipeGraph, producerIds: seq<Id>, closure: set<Id>, stack: seq<Id>, producers: seq<Id>)
    requires Searching(g, producerIds, closure, stack) && stack != []
    requires forall u :: u in producers <==> Edge(RecipeDeps(g), stack[|stack| - 1], u)
    ensures stack[|stack| - 1] in Universe(g, producerIds)
    ensures Searching(g, producerIds, closure + {stack[|stack| - 1]}, stack[..|stack| - 1] + producers)
  {
    UpstreamSetClosed(g, producerIds);
    assert stack == stack[..|stack| - 1] + [stack[|stack| - 1]];
    forall u | u in producers
      ensures u in UpstreamSet(g, producerIds) && u in Universe(g, producerIds)
    {
      assert Edge(RecipeDeps(g), stack[|stack| - 1], u);
    }
    ExploreStep(UpstreamSet(g, producerIds), Universe(g, producerIds), RecipeDeps(g), closure, stack, producers);
  }

  lemma SearchDone(g: RecipeGraph, producerIds: seq<Id>, closure: set<Id>)
    requires Searching(g, producerIds, closure, [])
    ensures forall r :: r in closure <==> UpstreamOf(g, producerIds, r)
  {
    forall r | UpstreamOf(g, producerIds, r)
      ensures r in closure
    {
      var p :| p in producerIds && Reach(RecipeDeps(g), p, r);
      ClosedContainsReach(RecipeDeps(g), closure, p, r);
    }
    assert forall r :: r in closure ==> r in UpstreamSet(g, producerIds);
  }

  // Everything found is upstream; what a closed recipe needs is closed or on the stack.
  ghost predicate Explored(upstream: iset<Id>, universe: set<Id>, deps: Graph, closure: set<Id>, stack: seq<Id>) {
    && (forall r :: r in closure || r in stack ==> r in upstream && r in universe)
    && (forall a, b :: a in closure && Edge(deps, a, b) ==> b in closure || b in stack)
  }

  lemma ExploreStep(upstream: iset<Id>, universe: set<Id>, deps: Graph, closure: set<Id>, stack: seq<Id>,
      producers: seq<Id>)
    requires Explored(upstream, universe, deps, closure, stack) && stack != []
    requires forall u :: u in producers <==> Edge(deps, stack[|stack| - 1], u)
    requires forall u :: u in producers ==> u in upstream && u in universe
    ensures Explored(upstream, universe, deps, closure + {stack[|stack| - 1]}, stack[..|stack| - 1] + producers)
  {
    assert stack == stack[..|stack| - 1] + [stack[|stack| - 1]];
  }

  ghost function UpstreamSet(g: RecipeGraph, producerIds: seq<Id>): iset<Id> {
    iset r | UpstreamOf(g, producerIds, r)
  }

  lemma UpstreamSetClosed(g: RecipeGraph, producerIds: seq<Id>)
    ensures forall p :: p in producerIds ==> p in UpstreamSet(g, producerIds)
    ensures forall a, b :: a in UpstreamSet(g, producerIds) && Edge(RecipeDeps(g), a, b) ==>
      b in UpstreamSet(g, producerIds)
  {
    forall p | p in producerIds
      ensures UpstreamOf(g, producerIds, p)
    {
      ReachSelf(RecipeDeps(g), p);
    }
    forall a, b | UpstreamOf(g, producerIds, a) && Edge(RecipeDeps(g), a, b)
      ensures UpstreamOf(g, producerIds, b)
    {
      UpstreamStep(g, producerIds, a, b);
    }
  }

  method InputProducers(g: RecipeGraph, recipe: Id) returns (upstream: seq<Id>)
    ensures forall u :: u in upstream <==> Edge(RecipeDeps(g), recipe, u)
  {
    var ins := Lookup(g.inputs, recipe);
    upstream := [];
    var k := 0;
    while k < |ins|
      invariant 0 <= k <= |ins|
      invariant forall u :: u in upstream ==> Edge(RecipeDeps(g), recipe, u)
      invariant forall j :: 0 <= j < k && ins[j] in g.producer ==> g.producer[ins[j]] in upstream
    {
      if ins[k] in g.producer {
        upstream := upstream + [g.producer[ins[k]]];
      }
      k := k + 1;
    }
  }

  // ---- Layered topological order ----

  /** The dependencies among the closure's own recipes. */
  function SubDeps(g: RecipeGraph, closure: set<Id>): Graph {
    map r | r in closure ::
      (set i | i in Lookup(g.inputs, r) && i in g.producer && g.producer[i] in closure :: g.producer[i])
  }

  /** depth[r] is the length of the longest chain of dependencies below r. */
  ghost predicate IsDepth(deps: Graph, depth: map<Id, nat>) {
    && depth.Keys == deps.Keys
    && (forall r, u :: Edge(deps, r, u) ==> u in depth && depth[u] < depth[r])
    && (forall r :: r in deps && depth[r] > 0 ==> exists u :: Edge(deps, r, u) && depth[u] == depth[r] - 1)
  }

  predicate Before(depth: map<Id, nat>, a: Id, b: Id)
    requires a in depth && b in depth
  {
    depth[a] < depth[b] || (depth[a] == depth[b] && a < b)
  }

  /** Each recipe once, by depth and then by id. This fixes the order completely. */
  ghost predicate InOrder(depth: map<Id, nat>, order: seq<Id>) {
    && (forall r :: r in order ==> r in depth)
    && (forall i, j :: 0 <= i < j < |order| ==> Before(depth, order[i], order[j]))
  }

  lemma LeastExists(s: set<Id>) returns (least: Id)
    requires s != {}
    ensures least in s && forall x :: x in s ==> least <= x
  {
    var a :| a in s;
    if s == {a} {
      least := a;
    } else {
      var m := LeastExists(s - {a});
      least := if a <= m then a else m;
      assert forall x :: x in s ==> x == a || x in s - {a};
    }
  }

  predicate IsLeast(m: Id, s: set<Id>) {
    m in s && forall x :: x in s ==> m <= x
  }

  function Least(s: set<Id>): (m: Id)
    requires s != {}
    ensures IsLeast(m, s)
  {
    assert exists m: Id :: IsLeast(m, s) by {
      var m := LeastExists(s);
      assert IsLeast(m, s);
    }
    var m: Id :| m in s && IsLeast(m, s);
    m
  }

  function Sorted(s: set<Id>): (r: seq<Id>)
    ensures forall i, j :: 0 <= i < j < |r| ==> r[i] < r[j]
    ensures forall x :: x in r <==> x in s
  {
    if s == {} then []
    else
      var m := Least(s);
      var rest := Sorted(s - {m});
      assert forall x :: x in rest ==> x in s && m < x;
      [m] + rest
  }

  // ---- One layer of Kahn's algorithm ----

  // The depths found so far are the true ones, and cover the first `layer` layers.
  ghost predicate Settled(all: Graph, depth: map<Id, nat>, layer: nat) {
    && depth.Keys <= all.Keys
    && (forall r :: r in depth ==> depth[r] < layer)
    && (forall r, u :: r in depth && Edge(all, r, u) ==> u in depth && depth[u] < depth[r])
    && (forall r :: r in depth && depth[r] > 0 ==> HasDepAt(all, depth, r, depth[r] - 1))
  }

  ghost predicate HasDepAt(all: Graph, depth: map<Id, nat>, r: Id, at: int) {
    exists u :: Edge(all, r, u) && (u in depth ==> depth[u] == at)
  }

  // The rest still waits on exactly its unsettled dependencies.
  ghost predicate Waiting(all: Graph, deps: Graph, depth: map<Id, nat>, layer: nat) {
    && deps.Keys == all.Keys - depth.Keys
    && (forall r :: r in deps ==> deps[r] == all[r] - depth.Keys)
    && (layer > 0 ==> forall r :: r in deps ==> HasDepAt(all, depth, r, layer - 1))
  }

  function Ready(deps: Graph): set<Id> {
    set r | r in deps && deps[r] == {}
  }

  function Remaining(deps: Graph, ready: seq<Id>): Graph {
    map r | r in deps && r !in ready :: deps[r] - Elems(ready)
  }

  function AddLayer(depth: map<Id, nat>, ready: seq<Id>, layer: nat): map<Id, nat> {
    depth + map r | r in ready :: layer
  }

  lemma LayerStep(all: Graph, deps: Graph, depth: map<Id, nat>, layer: nat, ready: seq<Id>)
    requires Settled(all, depth, layer) && Waiting(all, deps, depth, layer)
    requires forall r :: r in ready <==> r in Ready(deps)
    ensures Settled(all, AddLayer(depth, ready, layer), layer + 1)
  {
    var depth' := AddLayer(depth, ready, layer);
    forall r, u | r in depth' && Edge(all, r, u)
      ensures u in depth' && depth'[u] < depth'[r]
    {
      if r in ready {
        assert u !in deps[r];
      }
    }
    forall r | r in depth' && depth'[r] > 0
      ensures HasDepAt(all, depth', r, depth'[r] - 1)
    {
      if r in ready {
        var u :| Edge(all, r, u) && (u in depth ==> depth[u] == layer - 1);
        assert u !in deps[r];
      } else {
        var u :| Edge(all, r, u) && (u in depth ==> depth[u] == depth[r] - 1);
        assert u in depth;
      }
    }
  }

  lemma StillWaiting(all: Graph, deps: Graph, depth: map<Id, nat>, layer: nat, ready: seq<Id>)
    requires Settled(all, depth, layer) && Waiting(all, deps, depth, layer)
    requires forall r :: r in ready <==> r in Ready(deps)
    ensures Waiting(all, Remaining(deps, ready), AddLayer(depth, ready, layer), layer + 1)
  {
    var depth' := AddLayer(depth, ready, layer);
    forall r | r in deps && r !in ready
      ensures HasDepAt(all, depth', r, layer)
    {
      var u :| u in deps[r];
      assert Edge(all, r, u);
    }
  }

  /** With nothing ready, every pending recipe waits on another: a cycle. */
  lemma StuckMeansCycle(all: Graph, deps: Graph)
    requires forall r, u :: Edge(deps, r, u) ==> Edge(all, r, u) && u in deps
    requires deps != map[] && Ready(deps) == {}
    ensures Cyclic(all)
  {
    var s := deps.Keys;
    forall r | r in s
      ensures WaitsIn(deps, s, r)
    {
      assert r !in Ready(deps);
      var u :| u in deps[r];
      assert Edge(deps, r, u);
    }
    NoSinkMeansCycle(deps, s);
    CycleInSupergraph(deps, all);
  }

  /** Move one layer from the pending map to the order. */
  method TakeReady(deps: Graph, ready: seq<Id>, ordered: seq<Id>) returns (deps': Graph, ordered': seq<Id>)
    ensures ordered' == ordered + ready
    ensures deps' == Remaining(deps, ready)
  {
    deps', ordered' := deps, ordered;
    var k := 0;
    while k < |ready|
      invariant 0 <= k <= |ready|
      invariant ordered' == ordered + ready[..k]
      invariant deps' == map r | r in deps && r !in ready[..k] :: deps[r]
    {
      ordered' := ordered' + [ready[k]];
      deps' := map r | r in deps' && r != ready[k] :: deps'[r];
      k := k + 1;
    }
    assert ready[..k] == ready;
    deps' := map r | r in deps' :: deps'[r] - Elems(ready);
  }

  /** Kahn's algorithm, layer by layer. It fails exactly on a cycle; otherwise the result
      is the closure ordered by (longest dependency chain, id). */
  method TopoOrder(closure: set<Id>, g: RecipeGraph) returns (r: Option<seq<Id>>, ghost depth: map<Id, nat>)
    ensures r.None? <==> Cyclic(SubDeps(g, closure))
    ensures r.Some? ==> IsDepth(SubDeps(g, closure), depth) && InOrder(depth, r.value) && Elems(r.value) == closure
  {
    ghost var all := SubDeps(g, closure);
    assert forall r, u :: Edge(all, r, u) ==> u in all;
    var deps := SubDeps(g, closure);
    var ordered: seq<Id> := [];
    depth := map[];
    ghost var layer := 0;
    while deps != map[]
      invariant Settled(all, depth, layer) && Waiting(all, deps, depth, layer)
      invariant depth.Keys == Elems(ordered) && InOrder(depth, ordered)
      decreases deps.Keys
    {
      var ready := Sorted(Ready(deps));
      if ready == [] {
        assert forall r :: r in Ready(deps) ==> r in ready;
        StuckMeansCycle(all, deps);
        return None, depth;
      }
      depth := LayerDone(all, deps, depth, ordered, layer, ready);
      deps, ordered := TakeReady(deps, ready, ordered);
      layer := layer + 1;
    }
    assert depth.Keys == all.Keys == closure;
    SettledIsDepth(all, depth, layer);
    r := Some(ordered);
  }

  lemma LayerDone(all: Graph, deps: Graph, depth: map<Id, nat>, ordered: seq<Id>, layer: nat, ready: seq<Id>)
    returns (depth': map<Id, nat>)
    requires Settled(all, depth, layer) && Waiting(all, deps, depth, layer)
    requires depth.Keys == Elems(ordered) && InOrder(depth, ordered)
    requires ready != [] && forall i, j :: 0 <= i < j < |ready| ==> ready[i] < ready[j]
    requires forall r :: r in ready <==> r in Ready(deps)
    ensures Settled(all, depth', layer + 1)
    ensures Waiting(all, Remaining(deps, ready), depth', layer + 1)
    ensures depth'.Keys == Elems(ordered + ready) && InOrder(depth', ordered + ready)
    ensures Remaining(deps, ready).Keys < deps.Keys
  {
    depth' := AddLayer(depth, ready, layer);
    LayerInOrder(depth, ordered, ready, layer);
    LayerStep(all, deps, depth, layer, ready);
    StillWaiting(all, deps, depth, layer, ready);
    assert ready[0] in ready;
  }

  lemma SettledIsDepth(all: Graph, depth: map<Id, nat>, layer: nat)
    requires Settled(all, depth, layer) && depth.Keys == all.Keys
    requires forall r, u :: Edge(all, r, u) ==> u in all
    ensures IsDepth(all, depth) && !Cyclic(all)
  {
    forall r | r in all && depth[r] > 0
      ensures exists u :: Edge(all, r, u) && depth[u] == depth[r] - 1
    {
      var u :| Edge(all, r, u) && (u in depth ==> depth[u] == depth[r] - 1);
    }
    DepthMeansAcyclic(all, depth);
  }

  lemma LayerInOrder(depth: map<Id, nat>, order: seq<Id>, ready: seq<Id>, layer: nat)
    requires InOrder(depth, order) && (forall r :: r in depth ==> depth[r] < layer)
    requires forall i, j :: 0 <= i < j < |ready| ==> ready[i] < ready[j]
    requires forall r :: r in ready ==> r !in depth
    ensures InOrder(AddLayer(depth, ready, layer), order + ready)
  {
    var depth' := AddLayer(depth, ready, layer);
    var order' := order + ready;
    forall i, j | 0 <= i < j < |order'|
      ensures Before(depth', order'[i], order'[j])
    {
      if j < |order| {
        assert order'[i] == order[i] && order[i] in order && order[j] in order;
      } else if i < |order| {
        assert order'[i] == order[i] && order[i] in order && ready[j - |order|] in ready;
      } else {
        assert ready[i - |order|] in ready && ready[j - |order|] in ready;
      }
    }
  }

  lemma NoSinkMeansCycle(g: Graph, s: set<Id>)
    requires s != {} && forall r :: r in s ==> WaitsIn(g, s, r)
    ensures Cyclic(g)
  {
    if !Cyclic(g) {
      var r := SinkExists(g, s);
    }
  }

  lemma DepthMeansAcyclic(g: Graph, depth: map<Id, nat>)
    requires forall r, u :: Edge(g, r, u) ==> r in depth && u in depth && depth[u] < depth[r]
    ensures !Cyclic(g)
  {
    forall p | Walk(g, p) && |p| >= 2
      ensures p[0] != p[|p| - 1]
    {
      assert Edge(g, p[0], p[1]);
      var k := 1;
      while k < |p| - 1
        invariant 1 <= k <= |p| - 1 && p[k] in depth && depth[p[k]] < depth[p[0]]
      {
        assert Edge(g, p[k], p[k + 1]);
        k := k + 1;
      }
    }
  }

  // ---- Which recipes become steps ----

  /** What resolve_build relies on: loaded from rows that keep one producer per dataset,
      with a config hash for every recipe. */
  ghost predicate Loaded(db: Project, g: RecipeGraph) {
    SingleProducer(g) && g.inputs.Keys <= db.hashes.Keys
  }

  predicate Produced(g: RecipeGraph, r: Id) {
    r in g.outputs && g.outputs[r] != []
  }

  /** A recipe is due when forced, or when it or a recipe upstream of it is stale. */
  ghost predicate Due(db: Project, g: RecipeGraph, force: bool, r: Id)
    requires Loaded(db, g)
  {
    force || exists u :: Produced(g, u) && Reach(RecipeDeps(g), r, u) && OutputStale(db, g, u)
  }

  /** The build plan, stated without reference to how it is computed: exactly the due
      recipes of the closure, each with its primary output, ordered by (depth, id). */
  ghost predicate IsPlan(db: Project, g: RecipeGraph, force: bool, closure: set<Id>, depth: map<Id, nat>,
      steps: seq<BuildStep>)
    requires Loaded(db, g)
  {
    && IsDepth(SubDeps(g, closure), depth)
    && (forall k :: 0 <= k < |steps| ==>
         steps[k].recipe in closure && Produced(g, steps[k].recipe) && steps[k].ordinal == k
         && steps[k].target == g.outputs[steps[k].recipe][0] && Due(db, g, force, steps[k].recipe))
    && (forall i, j :: 0 <= i < j < |steps| ==> Before(depth, steps[i].recipe, steps[j].recipe))
    && (forall r :: r in closure && Due(db, g, force, r) ==> exists k :: 0 <= k < |steps| && steps[k].recipe == r)
  }

  ghost predicate UpstreamClosed(g: RecipeGraph, closure: set<Id>) {
    && Closed(RecipeDeps(g), closure)
    && forall r :: r in closure ==> Produced(g, r)
  }

  /** The closure of some targets is closed upstream, and every member has an output. */
  lemma ClosureIsClosed(g: RecipeGraph, producerIds: seq<Id>, closure: set<Id>)
    requires SingleProducer(g) && forall p :: p in producerIds ==> Produced(g, p)
    requires forall r :: r in closure <==> UpstreamOf(g, producerIds, r)
    ensures UpstreamClosed(g, closure)
  {
    forall a, b | a in closure && Edge(RecipeDeps(g), a, b)
      ensures b in closure
    {
      UpstreamStep(g, producerIds, a, b);
    }
    var produced := set r | r in g.outputs && Produced(g, r);
    assert Closed(RecipeDeps(g), produced);
    forall r | r in closure
      ensures Produced(g, r)
    {
      var p :| p in producerIds && Reach(RecipeDeps(g), p, r);
      ClosedContainsReach(RecipeDeps(g), produced, p, r);
    }
  }

  /** Staleness spreads downstream one edge at a time: being due is being stale or reading
      from a due recipe. */
  lemma DueByInputs(db: Project, g: RecipeGraph, force: bool, r: Id)
    requires Loaded(db, g) && Produced(g, r)
    ensures Due(db, g, force, r) <==>
      force || OutputStale(db, g, r) || exists u :: Edge(RecipeDeps(g), r, u) && Due(db, g, false, u)
  {
    var deps := RecipeDeps(g);
    ReachSelf(deps, r);
    if u :| Edge(deps, r, u) && Due(db, g, false, u) {
      var v :| Produced(g, v) && Reach(deps, u, v) && OutputStale(db, g, v);
      EdgeReach(deps, r, u);
      ReachTransitive(deps, r, u, v);
    }
    if u :| Produced(g, u) && Reach(deps, r, u) && OutputStale(db, g, u) {
      if u != r {
        var w := ReachFirstEdge(deps, r, u);
        assert Due(db, g, false, w);
      }
    }
  }

  /** _resolve_targets: active datasets in the order requested. */
  method ResolveTargets(db: Project, names: seq<string>) returns (r: Result<seq<Id>, Problem>)
    ensures r == Err(TargetNotFound) || r.Ok?
    ensures r.Ok? <==> forall n :: n in names ==> n in db.names
    ensures r.Ok? ==> |r.value| == |names| && forall k :: 0 <= k < |names| ==> r.value[k] == db.names[names[k]]
  {
    var ids: seq<Id> := [];
    while |ids| < |names|
      invariant |ids| <= |names|
      invariant forall k :: 0 <= k < |ids| ==> names[k] in db.names && ids[k] == db.names[names[k]]
    {
      if names[|ids|] !in db.names {
        assert names[|ids|] in names;
        return Err(TargetNotFound);
      }
      ids := ids + [db.names[names[|ids|]]];
    }
    r := Ok(ids);
  }

  /** The recipes producing the targets, or None when some target has no producer. */
  method TargetProducers(g: RecipeGraph, targets: seq<Id>) returns (r: Option<seq<Id>>)
    ensures r.None? <==> exists t :: t in targets && t !in g.producer
    ensures r.Some? ==>
      |r.value| == |targets| && forall k :: 0 <= k < |targets| ==> r.value[k] == g.producer[targets[k]]
  {
    var ids: seq<Id> := [];
    while |ids| < |targets|
      invariant |ids| <= |targets|
      invariant forall k :: 0 <= k < |ids| ==> targets[k] in g.producer && ids[k] == g.producer[targets[k]]
    {
      if targets[|ids|] !in g.producer {
        assert targets[|ids|] in targets;
        return None;
      }
      ids := ids + [g.producer[targets[|ids|]]];
    }
    r := Some(ids);
  }

  ghost predicate ProducersOf(db: Project, g: RecipeGraph, names: seq<string>, producerIds: seq<Id>) {
    |producerIds| == |names| && forall k :: 0 <= k < |names| ==>
      names[k] in db.names && db.names[names[k]] in g.producer && producerIds[k] == g.producer[db.names[names[k]]]
  }

  /** The closure a request asks for: the recipes upstream of its targets' producers. */
  ghost predicate Requested(db: Project, g: RecipeGraph, targetNames: seq<string>, closure: set<Id>) {
    exists ps :: ProducersOf(db, g, targetNames, ps) && forall x :: x in closure <==> UpstreamOf(g, ps, x)
  }

  ghost predicate TargetsProduced(db: Project, g: RecipeGraph, targetNames: seq<string>) {
    forall n :: n in targetNames ==> n in db.names && db.names[n] in g.producer
  }

  /** resolve_build. The plan covers the recipes upstream of the targets' producers. */
  method ResolveBuild(db: Project, g: RecipeGraph, targetNames: seq<string>, force: bool)
    returns (r: Result<seq<BuildStep>, Problem>, ghost closure: set<Id>, ghost depth: map<Id, nat>)
    requires Loaded(db, g)
    ensures r.Err? && r.error == TargetNotFound <==> exists n :: n in targetNames && n !in db.names
    ensures r.Err? && r.error == NotProduced <==>
            (forall n :: n in targetNames ==> n in db.names)
            && (exists n :: n in targetNames && db.names[n] !in g.producer)
    ensures TargetsProduced(db, g, targetNames) ==> Requested(db, g, targetNames, closure) && UpstreamClosed(g, closure)
    ensures r == Err(CyclicGraph) <==> TargetsProduced(db, g, targetNames) && Cyclic(SubDeps(g, closure))
    ensures r.Ok? <==> TargetsProduced(db, g, targetNames) && !Cyclic(SubDeps(g, closure))
    ensures AcyclicGraph(g) ==> r != Err(CyclicGraph)
    ensures r.Ok? ==> IsPlan(db, g, force, closure, depth, r.value)
  {
    closure, depth := {}, map[];
    var targets := ResolveTargets(db, targetNames);
    if targets.Err? {
      return Err(targets.error), closure, depth;
    }
    var producerIds := TargetProducers(g, targets.value);
    if producerIds.None? {
      var t :| t in targets.value && t !in g.producer;
      return Err(NotProduced), closure, depth;
    }
    assert ProducersOf(db, g, targetNames, producerIds.value);
    var upstream := UpstreamClosure(g, producerIds.value);
    ClosureIsClosed(g, producerIds.value, upstream);
    closure := upstream;
    var order, layers := TopoOrder(upstream, g);
    depth := layers;
    if order.None? {
      CycleAmongAllRecipes(g, upstream);
      return Err(CyclicGraph), closure, depth;
    }
    var steps := IncludeSteps(db, g, force, upstream, order.value, depth);
    r := Ok(steps);
  }

  lemma CycleAmongAllRecipes(g: RecipeGraph, closure: set<Id>)
    requires Cyclic(SubDeps(g, closure))
    ensures !AcyclicGraph(g)
  {
    assert forall a, b :: Edge(SubDeps(g, closure), a, b) ==> Edge(RecipeDeps(g), a, b);
    CycleInSupergraph(SubDeps(g, closure), RecipeDeps(g));
    RecipeDepsAcyclic(g);
  }

  /** The inclusion loop: walk the order, including a recipe when forced, stale, or reading
      from an included one. */
  method IncludeSteps(db: Project, g: RecipeGraph, force: bool, closure: set<Id>, ordered: seq<Id>,
      ghost depth: map<Id, nat>)
    returns (steps: seq<BuildStep>)
    requires Loaded(db, g) && UpstreamClosed(g, closure)
    requires IsDepth(SubDeps(g, closure), depth) && InOrder(depth, ordered) && Elems(ordered) == closure
    ensures IsPlan(db, g, force, closure, depth, steps)
  {
    forall k | 0 <= k < |ordered|
      ensures Produced(g, ordered[k]) && ordered[k] in db.hashes
    {
      assert ordered[k] in closure;
    }
    var included: set<Id> := {};
    steps := [];
    ghost var picks: seq<nat> := [];
    var k: nat := 0;
    while k < |ordered|
      invariant k <= |ordered|
      invariant Included(db, g, force, ordered, k, included)
      invariant Picked(db, g, force, ordered, k, picks, steps)
    {
      var recipe := ordered[k];
      var due := ShouldInclude(db, g, force, included, recipe);
      IncludeIsDue(db, g, force, closure, ordered, depth, k, included);
      IncludedStep(db, g, force, ordered, depth, k, included);
      PickedStep(db, g, force, ordered, k, picks, steps);
      if due {
        included := included + {recipe};
        steps := steps + [BuildStep(recipe, g.outputs[recipe][0], |steps|)];
        picks := picks + [k];
      }
      k := k + 1;
    }
    PicksArePlan(db, g, force, closure, ordered, depth, picks, steps);
  }

  predicate ShouldInclude(db: Project, g: RecipeGraph, force: bool, included: set<Id>, recipe: Id)
    requires Produced(g, recipe) && recipe in db.hashes
  {
    force || OutputStale(db, g, recipe)
    || exists i :: i in Lookup(g.inputs, recipe) && i in g.producer && g.producer[i] in included
  }

  // After k recipes, exactly the due ones among them are included.
  ghost predicate Included(db: Project, g: RecipeGraph, force: bool, ordered: seq<Id>, k: nat, included: set<Id>)
    requires Loaded(db, g) && k <= |ordered|
  {
    && (forall j :: 0 <= j < k ==> (ordered[j] in included <==> Due(db, g, force, ordered[j])))
    && (forall r :: r in included ==> r in ordered[..k])
  }

  lemma IncludedStep(db: Project, g: RecipeGraph, force: bool, ordered: seq<Id>, depth: map<Id, nat>, k: nat,
      included: set<Id>)
    requires Loaded(db, g) && k < |ordered| && InOrder(depth, ordered) && Included(db, g, force, ordered, k, included)
    ensures var included' := if Due(db, g, force, ordered[k]) then included + {ordered[k]} else included;
            Included(db, g, force, ordered, k + 1, included')
  {
    DistinctOrder(depth, ordered);
    assert ordered[..k + 1] == ordered[..k] + [ordered[k]];
    assert ordered[k] !in ordered[..k];
  }

  lemma PickedStep(db: Project, g: RecipeGraph, force: bool, ordered: seq<Id>, k: nat, picks: seq<nat>,
      steps: seq<BuildStep>)
    requires Loaded(db, g) && k < |ordered| && Picked(db, g, force, ordered, k, picks, steps) && Produced(g, ordered[k])
    ensures if Due(db, g, force, ordered[k])
            then Picked(db, g, force, ordered, k + 1, picks + [k],
              steps + [BuildStep(ordered[k], g.outputs[ordered[k]][0], |steps|)])
            else Picked(db, g, force, ordered, k + 1, picks, steps)
  {
  }

  lemma DistinctOrder(depth: map<Id, nat>, ordered: seq<Id>)
    requires InOrder(depth, ordered)
    ensures forall i, j :: 0 <= i < j < |ordered| ==> ordered[i] != ordered[j]
  {
    forall i, j | 0 <= i < j < |ordered|
      ensures ordered[i] != ordered[j]
    {
      assert Before(depth, ordered[i], ordered[j]);
    }
  }

  // The steps are the recipes at the increasing positions `picks`: the due ones among the
  // first k of the order.
  ghost predicate Picked(db: Project, g: RecipeGraph, force: bool, ordered: seq<Id>, k: nat, picks: seq<nat>,
      steps: seq<BuildStep>)
    requires Loaded(db, g) && k <= |ordered|
  {
    && |picks| == |steps|
    && (forall i :: 0 <= i < |picks| ==>
          picks[i] < k && Produced(g, ordered[picks[i]]) && Due(db, g, force, ordered[picks[i]])
          && steps[i] == BuildStep(ordered[picks[i]], g.outputs[ordered[picks[i]]][0], i))
    && (forall i, j :: 0 <= i < j < |picks| ==> picks[i] < picks[j])
    && (forall j: nat :: j < k && Due(db, g, force, ordered[j]) ==> j in picks)
  }

  lemma PicksArePlan(db: Project, g: RecipeGraph, force: bool, closure: set<Id>, ordered: seq<Id>, depth: map<Id, nat>,
                     picks: seq<nat>, steps: seq<BuildStep>)
    requires Loaded(db, g) && UpstreamClosed(g, closure)
    requires IsDepth(SubDeps(g, closure), depth) && InOrder(depth, ordered) && Elems(ordered) == closure
    requires Picked(db, g, force, ordered, |ordered|, picks, steps)
    ensures IsPlan(db, g, force, closure, depth, steps)
  {
    forall k | 0 <= k < |steps|
      ensures steps[k].recipe in closure && steps[k].recipe == ordered[picks[k]]
    {
      assert ordered[picks[k]] in ordered;
    }
    PicksCoverDue(db, g, force, closure, ordered, picks, steps);
  }

  lemma PicksCoverDue(db: Project, g: RecipeGraph, force: bool, closure: set<Id>, ordered: seq<Id>, picks: seq<nat>,
      steps: seq<BuildStep>)
    requires Loaded(db, g) && Elems(ordered) == closure
    requires Picked(db, g, force, ordered, |ordered|, picks, steps)
    ensures forall r :: r in closure && Due(db, g, force, r) ==> exists k :: 0 <= k < |steps| && steps[k].recipe == r
  {
    forall r | r in closure && Due(db, g, force, r)
      ensures exists k :: 0 <= k < |steps| && steps[k].recipe == r
    {
      var j: nat :| j < |ordered| && ordered[j] == r;
      var k :| 0 <= k < |picks| && picks[k] == j;
      assert steps[k].recipe == r;
    }
  }

  lemma IncludeIsDue(db: Project, g: RecipeGraph, force: bool, closure: set<Id>, ordered: seq<Id>, depth: map<Id, nat>,
      k: nat, included: set<Id>)
    requires Loaded(db, g) && UpstreamClosed(g, closure) && k < |ordered|
    requires IsDepth(SubDeps(g, closure), depth) && InOrder(depth, ordered) && Elems(ordered) == closure
    requires Included(db, g, force, ordered, k, included)
    ensures Produced(g, ordered[k])
      && (Due(db, g, force, ordered[k]) <==> ShouldInclude(db, g, force, included, ordered[k]))
  {
    var r := ordered[k];
    assert r in closure;
    DueByInputs(db, g, force, r);
    if !force {
      forall u | Edge(RecipeDeps(g), r, u)
        ensures u in included <==> Due(db, g, false, u)
      {
        assert u in closure && Edge(SubDeps(g, closure), r, u);
        var j :| 0 <= j < |ordered| && ordered[j] == u;
        assert k < j ==> Before(depth, ordered[k], ordered[j]);
      }
    }
  }
}
