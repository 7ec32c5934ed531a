/** Reachability, acyclicity and worklists over the dependency edges of the queue.
    An edge (a, b) is read "a depends on b", the row (ticket_id, depends_on). */
module DependencyGraph {

  type Node = nat
  type Edges = set<(Node, Node)>

  /** `path` runs from x to y along edges of g. */
  ghost predicate IsPath(g: Edges, path: seq<Node>, x: Node, y: Node) {
    && |path| >= 1
    && path[0] == x
    && path[|path| - 1] == y
    && forall i :: 0 <= i < |path| - 1 ==> (path[i], path[i + 1]) in g
  }

  /** y can be reached from x in zero or more edges. */
  ghost predicate Reach(g: Edges, x: Node, y: Node) {
    exists path :: IsPath(g, path, x, y)
  }

  /** y can be reached from x in one or more edges. */
  ghost predicate ReachProper(g: Edges, x: Node, y: Node) {
    exists z :: (x, z) in g && Reach(g, z, y)
  }

  /** No edge closes a cycle. */
  ghost predicate Acyclic(g: Edges) {
    forall x, y :: (x, y) in g ==> !Reach(g, y, x)
  }

  lemma ReachRefl(g: Edges, x: Node)
    ensures Reach(g, x, x)
  {
    assert IsPath(g, [x], x, x);
  }

  lemma ReachStep(g: Edges, x: Node, y: Node, z: Node)
    requires (x, y) in g && Reach(g, y, z)
    ensures Reach(g, x, z)
  {
    var path :| IsPath(g, path, y, z);
    assert IsPath(g, [x] + path, x, z);
  }

  lemma ReachTrans(g: Edges, x: Node, y: Node, z: Node)
    requires Reach(g, x, y) && Reach(g, y, z)
    ensures Reach(g, x, z)
  {
    var p :| IsPath(g, p, x, y);
    var q :| IsPath(g, q, y, z);
    var r := p + q[1..];
    forall i | 0 <= i < |r| - 1
      ensures (r[i], r[i + 1]) in g
    {
      if i >= |p| - 1 {
        var j := i - (|p| - 1);
        assert r[i] == q[j] && r[i + 1] == q[j + 1];
      }
    }
    assert IsPath(g, r, x, z);
  }

  lemma ReachExtend(g: Edges, x: Node, y: Node, z: Node)
    requires Reach(g, x, y) && (y, z) in g
    ensures Reach(g, x, z)
  {
    ReachRefl(g, z);
    ReachStep(g, y, z, z);
    ReachTrans(g, x, y, z);
  }

  lemma ReachMono(g: Edges, h: Edges, x: Node, y: Node)
    requires g <= h && Reach(g, x, y)
    ensures Reach(h, x, y)
  {
    var p :| IsPath(g, p, x, y);
    assert IsPath(h, p, x, y);
  }

  /** A path in a graph with one more edge either avoids that edge or runs through it. */
  lemma {:induction false} PathWithEdge(g: Edges, a: Node, b: Node, path: seq<Node>, x: Node, y: Node)
    requires IsPath(g + {(a, b)}, path, x, y)
    ensures Reach(g, x, y) || (Reach(g, x, a) && Reach(g, b, y))
    decreases |path|
  {
    if |path| == 1 {
      ReachRefl(g, x);
    } else {
      var z := path[1];
      assert (path[0], path[1]) in g + {(a, b)};
      assert IsPath(g + {(a, b)}, path[1..], z, y);
      PathWithEdge(g, a, b, path[1..], z, y);
      if (x, z) in g {
        if Reach(g, z, y) {
          ReachStep(g, x, z, y);
        } else {
          ReachStep(g, x, z, a);
        }
      } else {
        ReachRefl(g, a);
      }
    }
  }

  /** The link guard is exact: adding the edge a -> b keeps the graph acyclic
      if and only if there is no path b -> ... -> a. */
  lemma AddEdgeAcyclic(g: Edges, a: Node, b: Node)
    requires Acyclic(g)
    ensures Acyclic(g + {(a, b)}) <==> !Reach(g, b, a)
  {
    var h := g + {(a, b)};
    if Reach(g, b, a) {
      ReachMono(g, h, b, a);
      assert (a, b) in h;
    } else {
      forall x, y | (x, y) in h
        ensures !Reach(h, y, x)
      {
        if Reach(h, y, x) {
          var path :| IsPath(h, path, y, x);
          PathWithEdge(g, a, b, path, y, x);
          if (x, y) in g {
            ReachStep(g, x, y, a);
            ReachTrans(g, b, x, a);
          }
          assert false;
        }
      }
    }
  }

  /** A node that no edge enters cannot be reached from elsewhere. */
  lemma NoEntry(g: Edges, x: Node, src: Node)
    requires forall e :: e in g ==> e.1 != src
    requires Reach(g, x, src)
    ensures x == src
  {
    var p :| IsPath(g, p, x, src);
    if |p| > 1 {
      EntryOf(g, p, x, src);
    }
  }

  lemma EntryOf(g: Edges, p: seq<Node>, x: Node, y: Node)
    requires IsPath(g, p, x, y) && |p| > 1
    ensures exists e :: e in g && e.1 == y
  {
    LastEdge(g, p, |p| - 2);
  }

  lemma LastEdge(g: Edges, p: seq<Node>, k: nat)
    requires k + 1 < |p|
    requires forall i :: 0 <= i < |p| - 1 ==> (p[i], p[i + 1]) in g
    ensures (p[k], p[k + 1]) in g
  {
  }

  /** A fresh ticket inserted with its dependency edges cannot close a cycle. */
  lemma AddSourceAcyclic(g: Edges, src: Node, parents: set<Node>)
    requires Acyclic(g)
    requires forall e :: e in g ==> e.0 != src && e.1 != src
    requires src !in parents
    ensures Acyclic(g + set p | p in parents :: (src, p))
  {
    var h := g + set p | p in parents :: (src, p);
    forall x, y | (x, y) in h
      ensures !Reach(h, y, x)
    {
      if Reach(h, y, x) {
        if x == src {
          NoEntry(h, y, src);
          assert false;
        } else {
          var path :| IsPath(h, path, y, x);
          PathAvoidsSource(g, h, src, path, y, x);
          assert false;
        }
      }
    }
  }

  lemma PathAvoidsSource(g: Edges, h: Edges, src: Node, path: seq<Node>, x: Node, y: Node)
    requires g <= h && IsPath(h, path, x, y) && x != src
    requires forall e :: e in h ==> e.1 != src
    requires forall e :: e in h ==> e in g || e.0 == src
    ensures Reach(g, x, y)
  {
    forall i | 0 <= i < |path| - 1
      ensures (path[i], path[i + 1]) in g
    {
      if i > 0 {
        assert (path[i - 1], path[i - 1 + 1]) in h;
      }
      assert path[i] != src;
      assert (path[i], path[i + 1]) in h;
    }
    assert IsPath(g, path, x, y);
  }

  /** A set that contains x and is closed under g contains everything reachable from x. */
  lemma ClosedContainsReach(g: Edges, s: set<Node>, x: Node, y: Node)
    requires x in s && Reach(g, x, y)
    requires forall a, b :: (a, b) in g && a in s ==> b in s
    ensures y in s
  {
    var p :| IsPath(g, p, x, y);
    ClosedAlongPath(g, s, p, |p| - 1);
  }

  lemma {:induction false} ClosedAlongPath(g: Edges, s: set<Node>, p: seq<Node>, k: nat)
    requires k < |p| && p[0] in s
    requires forall i :: 0 <= i < |p| - 1 ==> (p[i], p[i + 1]) in g
    requires forall a, b :: (a, b) in g && a in s ==> b in s
    ensures p[k] in s
  {
    if k > 0 {
      ClosedAlongPath(g, s, p, k - 1);
      assert (p[k - 1], p[k - 1 + 1]) in g;
    }
  }

  /** The nodes that x has an edge to. */
  function Successors(g: Edges, x: Node): (s: set<Node>)
    ensures forall y :: y in s <==> (x, y) in g
  {
    set e | e in g && e.0 == x :: e.1
  }

  /** The nodes that have an edge to x. */
  function Predecessors(g: Edges, x: Node): (s: set<Node>)
    ensures forall y :: y in s <==> (y, x) in g
  {
    set e | e in g && e.1 == x :: e.0
  }

  /** The endpoints of g together with x: every worklist from x stays inside. */
  function Universe(g: Edges, x: Node): set<Node> {
    {x} + (set e | e in g :: e.0) + (set e | e in g :: e.1)
  }

  function Elements(q: seq<Node>): set<Node> {
    set x | x in q
  }

  lemma ElementsSnoc(q: seq<Node>, x: Node)
    ensures Elements(q + [x]) == Elements(q) + {x}
  {
  }

  ghost predicate Distinct(q: seq<Node>) {
    forall i, j :: 0 <= i < j < |q| ==> q[i] != q[j]
  }

  /** The rows of a query result, in whatever order the store returns them. */
  method Rows(s: set<Node>) returns (q: seq<Node>)
    ensures forall x :: x in q <==> x in s
    ensures Distinct(q)
  {
    q := [];
    var rest := s;
    while rest != {}
      invariant rest <= s
      invariant forall x :: x in q <==> x in s && x !in rest
      invariant Distinct(q)
      decreases |rest|
    {
      var x :| x in rest;
      rest := rest - {x};
      q := q + [x];
    }
  }

  /** The stack-and-seen worklist of `_depends_transitively`: it terminates on every
      edge set, cyclic or not, and answers exactly "there is a path start -> ... -> target". */
  method DependsTransitively(g: Edges, start: Node, target: Node) returns (found: bool)
    ensures found <==> Reach(g, start, target)
  {
    var seen: set<Node> := {};
    var stack := [start];
    ghost var universe := Universe(g, start);
    ReachRefl(g, start);
    while stack != []
      invariant seen <= universe
      invariant forall x :: x in stack ==> x in universe && Reach(g, start, x)
      invariant start in seen || start in stack
      invariant target !in seen
      invariant forall a, b :: (a, b) in g && a in seen ==> b in seen || b in stack
      decreases |universe - seen|, |stack|
    {
      var cur := stack[|stack| - 1];
      ghost var before := stack;
      stack := stack[..|stack| - 1];
      assert forall x :: x in before ==> x in stack || x == cur;
      if cur == target {
        return true;
      }
      if cur !in seen {
        var next := Successors(g, cur);
        forall y | y in next
          ensures y in universe && Reach(g, start, y)
        {
          assert (cur, y) in g;
          ReachExtend(g, start, cur, y);
        }
        assert universe - (seen + {cur}) < universe - seen;
        Smaller(universe - (seen + {cur}), universe - seen);
        seen := seen + {cur};
        var rows := Rows(next);
        stack := stack + rows;
      }
    }
    if Reach(g, start, target) {
      ClosedContainsReach(g, seen, start, target);
    }
    return false;
  }

  lemma Smaller<T>(a: set<T>, b: set<T>)
    requires a < b
    ensures |a| < |b|
  {
    var d := b - a;
    assert b == a + d;
    assert a !! d;
    assert d != {};
    assert |b| == |a| + |d|;
  }
}
