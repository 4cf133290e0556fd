/** Finite directed graphs: walks, reachability, cycles. */
module Digraph {
  import opened Wrappers

  type Graph = map<Id, set<Id>>

  predicate Edge(g: Graph, a: Id, b: Id) {
    a in g && b in g[a]
  }

  ghost predicate Walk(g: Graph, p: seq<Id>) {
    |p| > 0 && forall i :: 0 <= i < |p| - 1 ==> Edge(g, p[i], p[i + 1])
  }

  ghost predicate WalkFromTo(g: Graph, p: seq<Id>, a: Id, b: Id) {
    Walk(g, p) && p[0] == a && p[|p| - 1] == b
  }

  /** b is a or lies downstream of a. */
  ghost predicate Reach(g: Graph, a: Id, b: Id) {
    exists p :: WalkFromTo(g, p, a, b)
  }

  /** Some walk of at least one edge returns to where it began. */
  ghost predicate Cyclic(g: Graph) {
    exists p :: Walk(g, p) && |p| >= 2 && p[0] == p[|p| - 1]
  }

  /** No edge leaves s. */
  ghost predicate Closed(g: Graph, s: set<Id>) {
    forall a, b :: a in s && Edge(g, a, b) ==> b in s
  }

  lemma ReachSelf(g: Graph, a: Id)
    ensures Reach(g, a, a)
  {
    assert WalkFromTo(g, [a], a, a);
  }

  lemma ReachTransitive(g: Graph, a: Id, b: Id, c: Id)
    requires Reach(g, a, b) && Reach(g, b, c)
    ensures Reach(g, a, c)
  {
    var p :| WalkFromTo(g, p, a, b);
    var q :| WalkFromTo(g, q, b, c);
    var r := p + q[1..];
    forall i | 0 <= i < |r| - 1
      ensures Edge(g, r[i], r[i + 1])
    {
      if i < |p| - 1 {
        assert Edge(g, p[i], p[i + 1]);
      } else {
        var j := i - (|p| - 1);
        assert Edge(g, q[j], q[j + 1]);
        assert r[i] == q[j];
      }
    }
    assert WalkFromTo(g, r, a, c);
  }

  lemma EdgeReach(g: Graph, a: Id, b: Id)
    requires Edge(g, a, b)
    ensures Reach(g, a, b)
  {
    assert WalkFromTo(g, [a, b], a, b);
  }

  /** A walk between different nodes has a first edge. */
  lemma ReachFirstEdge(g: Graph, a: Id, c: Id) returns (b: Id)
    requires Reach(g, a, c) && a != c
    ensures Edge(g, a, b) && Reach(g, b, c)
  {
    var p :| WalkFromTo(g, p, a, c);
    b := p[1];
    assert Edge(g, p[0], p[1]);
    var q := p[1..];
    forall i | 0 <= i < |q| - 1
      ensures Edge(g, q[i], q[i + 1])
    {
      assert Edge(g, p[i + 1], p[i + 2]);
    }
    assert WalkFromTo(g, q, b, c);
  }

  lemma WalkSegment(g: Graph, p: seq<Id>, i: nat, j: nat)
    requires Walk(g, p) && i <= j < |p|
    ensures Reach(g, p[i], p[j])
  {
    var q := p[i..j + 1];
    forall k | 0 <= k < |q| - 1
      ensures Edge(g, q[k], q[k + 1])
    {
      assert Edge(g, p[i + k], p[i + k + 1]);
    }
    assert WalkFromTo(g, q, p[i], p[j]);
  }

  /** A cycle is an edge whose end leads back to its start. */
  lemma CyclicIffBackEdge(g: Graph)
    ensures Cyclic(g) <==> exists a, b :: Edge(g, a, b) && Reach(g, b, a)
  {
    if Cyclic(g) {
      var p :| Walk(g, p) && |p| >= 2 && p[0] == p[|p| - 1];
      assert Edge(g, p[0], p[1]);
      WalkSegment(g, p, 1, |p| - 1);
    }
    if a: Id, b: Id :| Edge(g, a, b) && Reach(g, b, a) {
      var q :| WalkFromTo(g, q, b, a);
      var p := [a] + q;
      forall i | 0 <= i < |p| - 1
        ensures Edge(g, p[i], p[i + 1])
      {
        if i > 0 {
          assert Edge(g, q[i - 1], q[i]);
        }
      }
      assert Walk(g, p);
    }
  }

  lemma BackEdgeIsCycle(g: Graph, a: Id, b: Id)
    requires Edge(g, a, b) && Reach(g, b, a)
    ensures Cyclic(g)
  {
    CyclicIffBackEdge(g);
  }

  lemma ClosedContainsReach(g: Graph, s: set<Id>, a: Id, b: Id)
    requires Closed(g, s) && a in s && Reach(g, a, b)
    ensures b in s
  {
    var p :| WalkFromTo(g, p, a, b);
    var i := 0;
    while i < |p| - 1
      invariant 0 <= i <= |p| - 1 && p[i] in s
    {
      assert Edge(g, p[i], p[i + 1]);
      i := i + 1;
    }
  }

  lemma EmptyGraphAcyclic()
    ensures !Cyclic(map[])
  {
    CyclicIffBackEdge(map[]);
  }

  /** Removing edges cannot make a cycle. */
  lemma CycleInSupergraph(small: Graph, big: Graph)
    requires forall a, b :: Edge(small, a, b) ==> Edge(big, a, b)
    ensures Cyclic(small) ==> Cyclic(big)
  {
    if Cyclic(small) {
      var p :| Walk(small, p) && |p| >= 2 && p[0] == p[|p| - 1];
      forall i | 0 <= i < |p| - 1
        ensures Edge(big, p[i], p[i + 1])
      {
        assert Edge(small, p[i], p[i + 1]);
      }
      assert Walk(big, p);
    }
  }

  /** r has an edge into s. */
  ghost predicate WaitsIn(g: Graph, s: set<Id>, r: Id) {
    exists u :: u in s && Edge(g, r, u)
  }

  /** An acyclic graph restricted to any non-empty set has a node with no edge into the
      set: the progress argument of a layered topological sort. */
  lemma SinkExists(g: Graph, s: set<Id>) returns (r: Id)
    requires !Cyclic(g) && s != {}
    ensures r in s && !WaitsIn(g, s, r)
    decreases s
  {
    r :| r in s;
    if y: Id :| y in s && Edge(g, r, y) {
      var below := set z | z in s && Reach(g, y, z);
      ReachSelf(g, y);
      if r in below {
        BackEdgeIsCycle(g, r, y);
      }
      assert y in below && below < s;
      forall x, b | x in below && b in s && Edge(g, x, b)
        ensures b in below
      {
        EdgeReach(g, x, b);
        ReachTransitive(g, y, x, b);
      }
      r := SinkExists(g, below);
    }
  }

  /** A walk that starts off t, in a graph with no edge into t, never leaves t. */
  lemma ReachAvoiding(big: Graph, small: Graph, t: Id, a: Id, b: Id)
    requires Reach(big, a, b) && a != t && forall x :: !Edge(big, x, t)
    requires forall x, y :: x != t && Edge(big, x, y) ==> Edge(small, x, y)
    ensures Reach(small, a, b)
  {
    var p :| WalkFromTo(big, p, a, b);
    forall k | 0 <= k < |p| - 1
      ensures Edge(small, p[k], p[k + 1])
    {
      assert Edge(big, p[k], p[k + 1]);
      assert k > 0 ==> Edge(big, p[k - 1], p[k]);
    }
    assert WalkFromTo(small, p, a, b);
  }

  lemma ReachInSupergraph(small: Graph, big: Graph, a: Id, b: Id)
    requires forall x, y :: Edge(small, x, y) ==> Edge(big, x, y)
    ensures Reach(small, a, b) ==> Reach(big, a, b)
  {
    if Reach(small, a, b) {
      var p :| WalkFromTo(small, p, a, b);
      forall k | 0 <= k < |p| - 1
        ensures Edge(big, p[k], p[k + 1])
      {
        assert Edge(small, p[k], p[k + 1]);
      }
      assert WalkFromTo(big, p, a, b);
    }
  }
}
