/** Directed graphs as successor lists, and reachability over them. */
module Graphs {

  type Graph = seq<seq<nat>>

  ghost predicate ValidGraph(g: Graph) {
    forall v, j :: 0 <= v < |g| && 0 <= j < |g[v]| ==> g[v][j] < |g|
  }

  /** `p` is a walk along edges from `u` to `v`; a single node is one. */
  ghost predicate Walk(g: Graph, p: seq<nat>, u: nat, v: nat) {
    && p != [] && p[0] == u && p[|p| - 1] == v
    && (forall i :: 0 <= i < |p| ==> p[i] < |g|)
    && (forall i :: 0 <= i < |p| - 1 ==> p[i + 1] in g[p[i]])
  }

  ghost predicate Reach(g: Graph, u: nat, v: nat) {
    exists p :: Walk(g, p, u, v)
  }

  ghost predicate Mutual(g: Graph, u: nat, v: nat) {
    Reach(g, u, v) && Reach(g, v, u)
  }

  lemma ReachSelf(g: Graph, u: nat)
    requires u < |g|
    ensures Reach(g, u, u)
  {
    assert Walk(g, [u], u, u);
  }

  lemma ReachEdge(g: Graph, u: nat, v: nat)
    requires ValidGraph(g) && u < |g| && v in g[u]
    ensures Reach(g, u, v)
  {
    var j :| 0 <= j < |g[u]| && g[u][j] == v;
    assert Walk(g, [u, v], u, v);
  }

  lemma ReachTrans(g: Graph, u: nat, v: nat, w: nat)
    requires Reach(g, u, v) && Reach(g, v, w)
    ensures Reach(g, u, w)
  {
    var p :| Walk(g, p, u, v);
    var q :| Walk(g, q, v, w);
    var r := p + q[1..];
    assert forall i :: 0 <= i < |r| ==> r[i] == if i < |p| then p[i] else q[i - |p| + 1];
    forall i | 0 <= i < |r| - 1 ensures r[i + 1] in g[r[i]] {
      if i == |p| - 1 {
        assert r[i] == q[0] && r[i + 1] == q[1];
      } else if i >= |p| {
        assert q[(i - |p| + 1) + 1] in g[q[i - |p| + 1]];
      }
    }
    assert Walk(g, r, u, w);
  }

  /** A set that contains `u` and every successor of its members contains all
      that `u` reaches. */
  lemma {:induction false} ClosedUnderWalk(g: Graph, p: seq<nat>, u: nat, v: nat, s: set<nat>)
    requires Walk(g, p, u, v) && u in s
    requires forall x, y :: x in s && x < |g| && y in g[x] ==> y in s
    ensures v in s
    decreases |p|
  {
    if |p| > 1 {
      assert p[1] in g[p[0]];
      var q := p[1..];
      assert forall i {:trigger q[i]} :: 0 <= i < |q| ==> q[i] == p[i + 1];
      ClosedUnderWalk(g, q, p[1], v, s);
    }
  }

  /** A labelling that never grows along an edge never grows along a walk. */
  lemma {:induction false} MonotoneAlongWalk(g: Graph, p: seq<nat>, u: nat, v: nat, rank: seq<int>)
    requires Walk(g, p, u, v) && |rank| == |g|
    requires forall x, y :: 0 <= x < |g| && y in g[x] && y < |g| ==> rank[y] <= rank[x]
    ensures rank[v] <= rank[u]
    decreases |p|
  {
    if |p| > 1 {
      assert p[1] in g[p[0]];
      var q := p[1..];
      assert forall i {:trigger q[i]} :: 0 <= i < |q| ==> q[i] == p[i + 1];
      MonotoneAlongWalk(g, q, p[1], v, rank);
    }
  }
}
