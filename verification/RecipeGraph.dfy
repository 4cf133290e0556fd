/** The project's recipe graph and its cycle check (recipes_service.py). */
module RecipeGraphs {
  import opened Digraph
  import opened Wrappers

  /** Active recipes as adjacency over dataset ids: who produces a dataset, and each
      recipe's ordered inputs and outputs. */
  datatype RecipeGraph = RecipeGraph(
    producer: map<Id, Id>, inputs: map<Id, seq<Id>>, outputs: map<Id, seq<Id>>)

  function Elems(s: seq<Id>): set<Id> {
    set x | x in s
  }

  function Lookup(m: map<Id, seq<Id>>, k: Id): seq<Id> {
    if k in m then m[k] else []
  }

  /** A produced dataset depends on every input of its producer. */
  function DatasetGraph(producer: map<Id, Id>, inputs: map<Id, seq<Id>>): Graph {
    map d | d in producer :: Elems(Lookup(inputs, producer[d]))
  }

  /** A recipe depends on the producer of each of its inputs. */
  function RecipeDeps(g: RecipeGraph): Graph {
    map r | r in g.inputs :: (set i | i in g.inputs[r] && i in g.producer :: g.producer[i])
  }

  /** Each dataset has the producer that lists it, and no recipe lists a dataset twice:
      what the global unique constraint on recipe_outputs.dataset_id gives load_graph. */
  ghost predicate SingleProducer(g: RecipeGraph) {
    && g.outputs.Keys == g.inputs.Keys
    && (forall r, d :: r in g.outputs && d in g.outputs[r] ==> d in g.producer && g.producer[d] == r)
    && (forall d :: d in g.producer ==> g.producer[d] in g.outputs && d in g.outputs[g.producer[d]])
    && (forall r, i, j :: r in g.outputs && 0 <= i < j < |g.outputs[r]| ==> g.outputs[r][i] != g.outputs[r][j])
  }

  ghost predicate AcyclicGraph(g: RecipeGraph) {
    !Cyclic(DatasetGraph(g.producer, g.inputs))
  }

  // The candidate edges laid over the current graph.
  function OverlayProducer(producer: map<Id, Id>, recipe: Id, outs: seq<Id>): map<Id, Id> {
    map d | d in producer.Keys + Elems(outs) :: if d in outs then recipe else producer[d]
  }

  function Overlay(g: RecipeGraph, recipe: Id, ins: seq<Id>, outs: seq<Id>): Graph {
    DatasetGraph(OverlayProducer(g.producer, recipe, outs), g.inputs[recipe := ins])
  }

  // The graph with the edited recipe taken out: nothing is produced by it, nor by
  // whichever recipe the candidate displaces.
  function Without(g: RecipeGraph, recipe: Id): map<Id, Id> {
    map d | d in g.producer && g.producer[d] != recipe :: g.producer[d]
  }

  // The walk so far: everything on the stack or newly seen lies upstream of the root, and
  // whatever a seen node depends on is seen or on the stack.
  ghost predicate Walking(g: Graph, outputs: set<Id>, root: Id, seen0: set<Id>, seen: set<Id>, stack: seq<Id>) {
    && seen0 <= seen && seen !! outputs && (root in seen || root in stack)
    && (forall x :: x in stack ==> Reach(g, root, x))
    && (forall x :: x in seen ==> x in seen0 || Reach(g, root, x))
    && (forall a, b :: a in seen && Edge(g, a, b) ==> b in seen || b in stack)
  }

  lemma WalkSkips(g: Graph, outputs: set<Id>, root: Id, seen0: set<Id>, seen: set<Id>, stack: seq<Id>)
    requires stack != [] && Walking(g, outputs, root, seen0, seen, stack) && stack[|stack| - 1] in seen
    ensures Walking(g, outputs, root, seen0, seen, stack[..|stack| - 1])
  {
    assert stack == stack[..|stack| - 1] + [stack[|stack| - 1]];
  }

  lemma WalkVisits(g: Graph, outputs: set<Id>, root: Id, seen0: set<Id>, seen: set<Id>, stack: seq<Id>, more: seq<Id>)
    requires stack != [] && Walking(g, outputs, root, seen0, seen, stack) && stack[|stack| - 1] !in outputs
    requires forall b :: Edge(g, stack[|stack| - 1], b) <==> b in more
    ensures Walking(g, outputs, root, seen0, seen + {stack[|stack| - 1]}, stack[..|stack| - 1] + more)
  {
    var current := stack[|stack| - 1];
    assert stack == stack[..|stack| - 1] + [current];
    forall x | x in more
      ensures Reach(g, root, x)
    {
      EdgeReach(g, current, x);
      ReachTransitive(g, root, current, x);
    }
  }

  lemma WalkEnds(g: Graph, outputs: set<Id>, root: Id, seen0: set<Id>, seen: set<Id>)
    requires Walking(g, outputs, root, seen0, seen, [])
    ensures Closed(g, seen) && forall x :: x in seen <==> x in seen0 || Reach(g, root, x)
  {
    forall x | Reach(g, root, x)
      ensures x in seen
    {
      ClosedContainsReach(g, seen, root, x);
    }
  }

  /** Depth-first walk upstream from one root. `seen` is shared between roots, so a node
      settled by an earlier root is not walked again. Without a hit it ends as exactly what
      it was and what lies upstream of the root. */
  method UpstreamDatasets(producer: map<Id, Id>, inputs: map<Id, seq<Id>>, outputs: set<Id>, root: Id, seen0: set<Id>)
    returns (hit: bool, seen: set<Id>)
    requires Closed(DatasetGraph(producer, inputs), seen0) && seen0 !! outputs
    ensures hit ==> exists o :: o in outputs && Reach(DatasetGraph(producer, inputs), root, o)
    ensures !hit ==> Closed(DatasetGraph(producer, inputs), seen) && seen !! outputs && seen0 + {root} <= seen
    ensures !hit ==> forall x :: x in seen <==> x in seen0 || Reach(DatasetGraph(producer, inputs), root, x)
  {
    ghost var g := DatasetGraph(producer, inputs);
    ghost var universe := (set r, d | r in inputs && d in inputs[r] :: d) + {root};
    var stack := [root];
    seen := seen0;
    ReachSelf(g, root);
    while stack != []
      invariant Walking(g, outputs, root, seen0, seen, stack)
      invariant forall x :: x in stack ==> x in universe
      decreases universe - seen, |stack|
    {
      var current := stack[|stack| - 1];
      if current in outputs {
        return true, seen;
      }
      if current in seen {
        WalkSkips(g, outputs, root, seen0, seen, stack);
        stack := stack[..|stack| - 1];
      } else {
        var more := if current in producer then Lookup(inputs, producer[current]) else [];
        WalkVisits(g, outputs, root, seen0, seen, stack, more);
        seen, stack := seen + {current}, stack[..|stack| - 1] + more;
      }
    }
    WalkEnds(g, outputs, root, seen0, seen);
    return false, seen;
  }

  /** True exactly when some input lies downstream of (or is) one of the outputs once the
      candidate is wired in; and if the graph without the edited recipe is acyclic, that is
      exactly when wiring it in makes the graph cyclic. */
  method WouldCreateCycle(g: RecipeGraph, recipe: Id, ins: seq<Id>, outs: seq<Id>) returns (cycle: bool)
    ensures cycle <==> exists i, o :: i in ins && o in outs && Reach(Overlay(g, recipe, ins, outs), i, o)
    ensures EditPremise(g, recipe, outs) ==> (cycle <==> Cyclic(Overlay(g, recipe, ins, outs)))
  {
    var outputs := Elems(outs);
    var producer := OverlayProducer(g.producer, recipe, outs);
    var inputs := g.inputs[recipe := ins];
    ghost var overlay := DatasetGraph(producer, inputs);
    var seen: set<Id> := {};
    cycle := false;
    var k := 0;
    while k < |ins| && !cycle
      invariant 0 <= k <= |ins|
      invariant cycle ==> exists i, o :: i in ins && o in outs && Reach(overlay, i, o)
      invariant !cycle ==> Closed(overlay, seen) && seen !! outputs && forall j :: 0 <= j < k ==> ins[j] in seen
    {
      ghost var before := seen;
      cycle, seen := UpstreamDatasets(producer, inputs, outputs, ins[k], seen);
      if cycle {
        assert ins[k] in ins;
      }
      k := k + 1;
    }
    if !cycle {
      forall i, o | i in ins && o in outs
        ensures !Reach(overlay, i, o)
      {
        if Reach(overlay, i, o) {
          ClosedContainsReach(overlay, seen, i, o);
        }
      }
    }
    if EditPremise(g, recipe, outs) {
      CycleNeedsTheRecipe(g, recipe, ins, outs);
    }
  }

  /** What the routers establish before the check: apart from the edited recipe the graph
      is acyclic, and the edited recipe's remaining outputs are among the candidate ones
      (patch_recipe deletes the others first). */
  ghost predicate EditPremise(g: RecipeGraph, recipe: Id, outs: seq<Id>) {
    && !Cyclic(DatasetGraph(Without(g, recipe), g.inputs))
    && forall d :: d in g.producer && g.producer[d] == recipe ==> d in outs
  }

  /** Any cycle of the overlaid graph runs through the edited recipe, so one exists exactly
      when an output is reachable from an input. */
  lemma CycleNeedsTheRecipe(g: RecipeGraph, recipe: Id, ins: seq<Id>, outs: seq<Id>)
    requires EditPremise(g, recipe, outs)
    ensures Cyclic(Overlay(g, recipe, ins, outs)) <==>
            exists i, o :: i in ins && o in outs && Reach(Overlay(g, recipe, ins, outs), i, o)
  {
    var overlay := Overlay(g, recipe, ins, outs);
    var base := DatasetGraph(Without(g, recipe), g.inputs);
    if i, o :| i in ins && o in outs && Reach(overlay, i, o) {
      assert Edge(overlay, o, i);
      BackEdgeIsCycle(overlay, o, i);
    }
    if Cyclic(overlay) {
      var p :| Walk(overlay, p) && |p| >= 2 && p[0] == p[|p| - 1];
      if k :| 0 <= k < |p| - 1 && p[k] in outs {
        assert Edge(overlay, p[k], p[k + 1]);
        WalkSegment(overlay, p, k + 1, |p| - 1);
        WalkSegment(overlay, p, 0, k);
        ReachTransitive(overlay, p[k + 1], p[0], p[k]);
      } else {
        WalkOutsideEdit(g, recipe, ins, outs, p);
      }
    }
  }

  /** A walk that leaves no candidate output uses none of the edited recipe's edges. */
  lemma WalkOutsideEdit(g: RecipeGraph, recipe: Id, ins: seq<Id>, outs: seq<Id>, p: seq<Id>)
    requires EditPremise(g, recipe, outs)
    requires Walk(Overlay(g, recipe, ins, outs), p)
    requires forall k :: 0 <= k < |p| - 1 ==> p[k] !in outs
    ensures Walk(DatasetGraph(Without(g, recipe), g.inputs), p)
  {
    forall k | 0 <= k < |p| - 1
      ensures Edge(DatasetGraph(Without(g, recipe), g.inputs), p[k], p[k + 1])
    {
      assert Edge(Overlay(g, recipe, ins, outs), p[k], p[k + 1]);
    }
  }

  /** A cycle of recipes is a cycle of datasets: with an acyclic dataset graph the build
      order always exists. */
  lemma RecipeDepsAcyclic(g: RecipeGraph)
    ensures AcyclicGraph(g) ==> !Cyclic(RecipeDeps(g))
  {
    var deps := RecipeDeps(g);
    if Cyclic(deps) {
      var p :| Walk(deps, p) && |p| >= 2 && p[0] == p[|p| - 1];
      var datasets := DatasetGraph(g.producer, g.inputs);
      var q := InputsAlong(g, p);
      var links := q + [q[0]];
      forall k | 0 <= k < |links| - 1
        ensures Edge(datasets, links[k], links[k + 1])
      {
        // q[k] is produced by p[k + 1], which reads q[k + 1].
        assert k < |q|;
      }
      assert Walk(datasets, links) && links[0] == links[|links| - 1];
    }
  }

  /** Along a walk of recipes, the input of each that the next one produces. */
  lemma InputsAlong(g: RecipeGraph, p: seq<Id>) returns (q: seq<Id>)
    requires Walk(RecipeDeps(g), p)
    ensures |q| == |p| - 1
    ensures forall k :: 0 <= k < |q| ==>
      p[k] in g.inputs && q[k] in g.inputs[p[k]] && q[k] in g.producer && g.producer[q[k]] == p[k + 1]
  {
    q := [];
    while |q| < |p| - 1
      invariant |q| <= |p| - 1
      invariant forall k :: 0 <= k < |q| ==>
        p[k] in g.inputs && q[k] in g.inputs[p[k]] && q[k] in g.producer && g.producer[q[k]] == p[k + 1]
    {
      assert Edge(RecipeDeps(g), p[|q|], p[|q| + 1]);
      var i :| i in g.inputs[p[|q|]] && i in g.producer && g.producer[i] == p[|q| + 1];
      q := q + [i];
    }
  }
}
