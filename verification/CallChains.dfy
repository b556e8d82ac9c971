/** Enumerating the simple call chains between two functions by backtracking. */
module CallChains {
  import opened Common
  import opened CallGraphs
  import opened Sorting

  /** A chain is named by the positions of its edges in the edge list, so two
      equal edges still make two chains. */
  type Trail = seq<nat>

  ghost predicate Connected(edges: seq<Edge>, from: FnId, t: Trail) {
    && (forall i :: 0 <= i < |t| ==> t[i] < |edges|)
    && (forall i :: 0 <= i < |t| ==> edges[t[i]].caller == if i == 0 then from else edges[t[i - 1]].callee)
  }

  ghost function End(edges: seq<Edge>, from: FnId, t: Trail): FnId
    requires Connected(edges, from, t)
  {
    if t == [] then from else edges[t[|t| - 1]].callee
  }

  /** The nodes entered are distinct and are neither end of the chain. */
  ghost predicate Simple(edges: seq<Edge>, from: FnId, to: FnId, t: Trail)
    requires Connected(edges, from, t)
  {
    && (forall i :: 0 <= i < |t| ==> edges[t[i]].callee != from && edges[t[i]].callee != to)
    && (forall i, j :: 0 <= i < j < |t| ==> edges[t[i]].callee != edges[t[j]].callee)
  }

  /** At most `maxDepth` edges from `from` to `to` with simple interior. */
  ghost predicate Chain(edges: seq<Edge>, from: FnId, to: FnId, maxDepth: nat, t: Trail) {
    && 1 <= |t| <= maxDepth
    && Connected(edges, from, t) && Connected(edges, from, t[..|t| - 1])
    && Simple(edges, from, to, t[..|t| - 1])
    && End(edges, from, t) == to
  }

  /** The chains that start with `prefix`. */
  ghost predicate ChainVia(edges: seq<Edge>, from: FnId, to: FnId, maxDepth: nat, prefix: Trail, t: Trail) {
    Chain(edges, from, to, maxDepth, t) && prefix <= t
  }

  ghost predicate InOrder(ts: seq<Trail>) {
    forall i, j :: 0 <= i < j < |ts| ==> Less(ts[i], ts[j])
  }

  /** `ts` lists in order, each once, the chains that start with `prefix`. */
  ghost predicate ListsVia(edges: seq<Edge>, from: FnId, to: FnId, maxDepth: nat, prefix: Trail, ts: seq<Trail>) {
    InOrder(ts) && forall t :: t in ts <==> ChainVia(edges, from, to, maxDepth, prefix, t)
  }

  /** The chains that go beyond `trail` along one of the edges `next`. */
  ghost predicate Beyond(edges: seq<Edge>, from: FnId, to: FnId, maxDepth: nat, trail: Trail, next: seq<nat>, t: Trail) {
    Chain(edges, from, to, maxDepth, t) && trail < t && t[|trail|] in next
  }

  ghost predicate ListsBeyond(edges: seq<Edge>, from: FnId, to: FnId, maxDepth: nat, trail: Trail, next: seq<nat>, ts: seq<Trail>) {
    InOrder(ts) && forall t :: t in ts <==> Beyond(edges, from, to, maxDepth, trail, next, t)
  }

  /** The nodes a trail has entered, its start included. */
  ghost function Active(edges: seq<Edge>, from: FnId, t: Trail): set<FnId>
    requires Connected(edges, from, t)
  {
    {from} + set i | 0 <= i < |t| :: edges[t[i]].callee
  }

  lemma {:induction false} LessAfter(p: Trail, a: Trail, b: Trail)
    requires p < a && p < b && a[|p|] < b[|p|]
    ensures Less(a, b)
    decreases |p|
  {
    if p != [] {
      LessAfter(p[1..], a[1..], b[1..]);
    }
  }

  // ----- What an edge adds -----

  lemma StepConnected(edges: seq<Edge>, from: FnId, trail: Trail, e: nat)
    requires Connected(edges, from, trail) && e < |edges| && edges[e].caller == End(edges, from, trail)
    ensures Connected(edges, from, trail + [e])
    ensures End(edges, from, trail + [e]) == edges[e].callee
    ensures Active(edges, from, trail + [e]) == Active(edges, from, trail) + {edges[e].callee}
  {
    var t := trail + [e];
    assert forall i :: 0 <= i < |trail| ==> t[i] == trail[i];
    assert Active(edges, from, t) == Active(edges, from, trail) + {edges[e].callee} by {
      assert t[|trail|] == e;
      forall f | f in Active(edges, from, trail) ensures f in Active(edges, from, t) {
        if f != from {
          var i :| 0 <= i < |trail| && edges[trail[i]].callee == f;
          assert t[i] == trail[i];
        }
      }
    }
  }

  /** A chain leaves `trail` along an edge out of its end. */
  lemma NextLeaves(edges: seq<Edge>, from: FnId, to: FnId, maxDepth: nat, trail: Trail, t: Trail)
    requires Connected(edges, from, trail) && Chain(edges, from, to, maxDepth, t) && trail < t
    ensures t[|trail|] < |edges| && edges[t[|trail|]].caller == End(edges, from, trail)
  {
    if trail == [] {
      assert edges[t[0]].caller == from;
    } else {
      assert trail[|trail| - 1] == t[|trail| - 1];
      assert edges[t[|trail|]].caller == edges[t[|trail| - 1]].callee;
    }
  }

  /** A chain that enters the target ends there. */
  lemma TargetEnds(edges: seq<Edge>, from: FnId, to: FnId, maxDepth: nat, trail: Trail, e: nat, t: Trail)
    requires ChainVia(edges, from, to, maxDepth, trail + [e], t)
    requires e < |edges| && edges[e].callee == to
    ensures t == trail + [e]
  {
    assert t[|trail|] == e;
    var inner := t[..|t| - 1];
    assert forall i {:trigger t[i]} :: 0 <= i < |inner| ==> t[i] == inner[i] && edges[t[i]].callee != to;
  }

  /** A chain that enters another node goes on, and had not been there. */
  lemma OthersGoOn(edges: seq<Edge>, from: FnId, to: FnId, maxDepth: nat, trail: Trail, e: nat, t: Trail)
    requires Connected(edges, from, trail) && ChainVia(edges, from, to, maxDepth, trail + [e], t)
    requires e < |edges| && edges[e].callee != to
    ensures trail + [e] < t && edges[e].callee !in Active(edges, from, trail)
  {
    assert t[|trail|] == e;
    assert |t| > |trail| + 1;
    var inner := t[..|t| - 1];
    assert inner[|trail|] == e;
    assert forall i :: 0 <= i < |trail| ==> trail[i] == inner[i];
  }

  lemma TargetBlock(edges: seq<Edge>, from: FnId, to: FnId, maxDepth: nat, trail: Trail, e: nat)
    requires Connected(edges, from, trail) && Simple(edges, from, to, trail) && |trail| < maxDepth
    requires e < |edges| && edges[e].caller == End(edges, from, trail) && edges[e].callee == to
    ensures ListsVia(edges, from, to, maxDepth, trail + [e], [trail + [e]])
  {
    var t := trail + [e];
    StepConnected(edges, from, trail, e);
    assert t[..|t| - 1] == trail;
    assert Chain(edges, from, to, maxDepth, t);
    forall u ensures u in [t] <==> ChainVia(edges, from, to, maxDepth, t, u) {
      if ChainVia(edges, from, to, maxDepth, t, u) {
        TargetEnds(edges, from, to, maxDepth, trail, e, u);
      }
    }
  }

  lemma BlockedBlock(edges: seq<Edge>, from: FnId, to: FnId, maxDepth: nat, trail: Trail, e: nat)
    requires Connected(edges, from, trail)
    requires e < |edges| && edges[e].callee != to && edges[e].callee in Active(edges, from, trail)
    ensures ListsVia(edges, from, to, maxDepth, trail + [e], [])
  {
    forall t ensures !ChainVia(edges, from, to, maxDepth, trail + [e], t) {
      if ChainVia(edges, from, to, maxDepth, trail + [e], t) {
        OthersGoOn(edges, from, to, maxDepth, trail, e, t);
      }
    }
  }

  /** Chains through a node other than the target are those beyond it. */
  lemma DeeperBlock(edges: seq<Edge>, from: FnId, to: FnId, maxDepth: nat, trail: Trail, e: nat, next: seq<nat>, ts: seq<Trail>)
    requires Connected(edges, from, trail) && e < |edges| && edges[e].callee != to
    requires edges[e].caller == End(edges, from, trail)
    requires ListsBeyond(edges, from, to, maxDepth, trail + [e], next, ts)
    requires forall k :: 0 <= k < |edges| && edges[k].caller == edges[e].callee ==> k in next
    ensures ListsVia(edges, from, to, maxDepth, trail + [e], ts)
  {
    var p := trail + [e];
    StepConnected(edges, from, trail, e);
    forall t ensures t in ts <==> ChainVia(edges, from, to, maxDepth, p, t) {
      if ChainVia(edges, from, to, maxDepth, p, t) {
        OthersGoOn(edges, from, to, maxDepth, trail, e, t);
        NextLeaves(edges, from, to, maxDepth, p, t);
        assert Beyond(edges, from, to, maxDepth, p, next, t);
      }
    }
  }

  lemma SimpleStep(edges: seq<Edge>, from: FnId, to: FnId, trail: Trail, e: nat)
    requires Connected(edges, from, trail) && Simple(edges, from, to, trail)
    requires e < |edges| && edges[e].caller == End(edges, from, trail)
    requires edges[e].callee != to && edges[e].callee !in Active(edges, from, trail)
    ensures Connected(edges, from, trail + [e]) && Simple(edges, from, to, trail + [e])
  {
    StepConnected(edges, from, trail, e);
    var t := trail + [e];
    forall i, j | 0 <= i < j < |t| ensures edges[t[i]].callee != edges[t[j]].callee {
      assert t[i] == trail[i];
      assert j < |trail| ==> t[j] == trail[j];
    }
  }

  /** One more edge out of the end of the trail appends its block. */
  lemma AppendBlock(edges: seq<Edge>, from: FnId, to: FnId, maxDepth: nat, trail: Trail, next: seq<nat>, e: nat, ts: seq<Trail>, block: seq<Trail>)
    requires ListsBeyond(edges, from, to, maxDepth, trail, next, ts)
    requires ListsVia(edges, from, to, maxDepth, trail + [e], block)
    requires forall i :: 0 <= i < |next| ==> next[i] < e
    ensures ListsBeyond(edges, from, to, maxDepth, trail, next + [e], ts + block)
  {
    hide Chain;
    forall i, j | 0 <= i < |ts| && 0 <= j < |block| ensures Less(ts[i], block[j]) {
      assert ts[i] in ts && block[j] in block;
      assert Beyond(edges, from, to, maxDepth, trail, next, ts[i]);
      assert ChainVia(edges, from, to, maxDepth, trail + [e], block[j]);
      assert block[j][|trail|] == e;
      LessAfter(trail, ts[i], block[j]);
    }
    forall t ensures t in ts + block <==> Beyond(edges, from, to, maxDepth, trail, next + [e], t) {
      assert t in block <==> ChainVia(edges, from, to, maxDepth, trail + [e], t);
      if trail < t {
        assert trail + [e] <= t <==> t[|trail|] == e;
      }
    }
  }

  lemma NoneBeyond(edges: seq<Edge>, from: FnId, to: FnId, maxDepth: nat, trail: Trail, next: seq<nat>)
    requires |trail| >= maxDepth || next == []
    ensures ListsBeyond(edges, from, to, maxDepth, trail, next, [])
  {
  }

  // ----- The search -----

  function Rendered(edges: seq<Edge>, t: Trail): seq<Edge> {
    seq(|t|, i requires 0 <= i < |t| => if t[i] < |edges| then edges[t[i]] else Edge(0, 0, 0, Direct))
  }

  function RenderedAll(edges: seq<Edge>, ts: seq<Trail>): seq<seq<Edge>> {
    seq(|ts|, i requires 0 <= i < |ts| => Rendered(edges, ts[i]))
  }

  function ChainKey(chain: seq<Edge>): Key {
    [|chain|] + seq(|chain|, i requires 0 <= i < |chain| => chain[i].callee)
  }

  type Adjacency = map<FnId, seq<nat>>

  function Leaving(adj: Adjacency, f: FnId): seq<nat> {
    if f in adj then adj[f] else []
  }

  /** The edges below `n` that leave each function, in list order. */
  ghost predicate Adjacent(edges: seq<Edge>, adj: Adjacency, n: nat)
    requires n <= |edges|
  {
    forall f: FnId ::
      && (forall i, j :: 0 <= i < j < |Leaving(adj, f)| ==> Leaving(adj, f)[i] < Leaving(adj, f)[j])
      && (forall k: nat :: k in Leaving(adj, f) <==> k < n && edges[k].caller == f)
  }

  method BuildAdjacency(edges: seq<Edge>) returns (adj: Adjacency)
    ensures Adjacent(edges, adj, |edges|)
  {
    adj := map[];
    for n := 0 to |edges|
      invariant Adjacent(edges, adj, n)
    {
      var f := edges[n].caller;
      AdjacentStep(edges, adj, n);
      adj := adj[f := Leaving(adj, f) + [n]];
    }
  }

  lemma AdjacentStep(edges: seq<Edge>, adj: Adjacency, n: nat)
    requires n < |edges| && Adjacent(edges, adj, n)
    ensures Adjacent(edges, adj[edges[n].caller := Leaving(adj, edges[n].caller) + [n]], n + 1)
  {
    var c := edges[n].caller;
    var adj' := adj[c := Leaving(adj, c) + [n]];
    forall f: FnId
      ensures forall i, j :: 0 <= i < j < |Leaving(adj', f)| ==> Leaving(adj', f)[i] < Leaving(adj', f)[j]
      ensures forall k: nat :: k in Leaving(adj', f) <==> k < n + 1 && edges[k].caller == f
    {
      assert Leaving(adj', f) == if f == c then Leaving(adj, f) + [n] else Leaving(adj, f);
      assert forall i :: 0 <= i < |Leaving(adj, f)| ==> Leaving(adj, f)[i] in Leaving(adj, f);
    }
  }

  lemma LeavingFacts(edges: seq<Edge>, adj: Adjacency, f: FnId)
    requires Adjacent(edges, adj, |edges|)
    ensures forall i :: 0 <= i < |Leaving(adj, f)| ==> Leaving(adj, f)[i] < |edges| && edges[Leaving(adj, f)[i]].caller == f
    ensures forall i, j :: 0 <= i < j < |Leaving(adj, f)| ==> Leaving(adj, f)[i] < Leaving(adj, f)[j]
    ensures forall k: nat :: k < |edges| && edges[k].caller == f ==> k in Leaving(adj, f)
  {
    forall i | 0 <= i < |Leaving(adj, f)| ensures Leaving(adj, f)[i] < |edges| && edges[Leaving(adj, f)[i]].caller == f {
      assert Leaving(adj, f)[i] in Leaving(adj, f);
    }
  }

  class Search {
    const edges: seq<Edge>
    const from: FnId
    const target: FnId
    const maxDepth: nat
    var currentEdges: seq<Edge>
    var activeNodes: set<FnId>
    var chains: seq<seq<Edge>>
    ghost var trail: Trail
    ghost var found: seq<Trail>

    /** The path and the active set are those of a simple trail ending at `u`. */
    ghost predicate At(u: FnId)
      reads this
    {
      && Connected(edges, from, trail) && Simple(edges, from, target, trail) && End(edges, from, trail) == u
      && currentEdges == Rendered(edges, trail)
      && activeNodes == Active(edges, from, trail)
      && chains == RenderedAll(edges, found)
    }

    constructor (edges: seq<Edge>, from: FnId, target: FnId, maxDepth: nat)
      ensures this.edges == edges && this.from == from && this.target == target && this.maxDepth == maxDepth
      ensures trail == [] && At(from)
      ensures found == if from == target then [[]] else []
    {
      this.edges, this.from, this.target, this.maxDepth := edges, from, target, maxDepth;
      currentEdges, activeNodes, trail := [], {from}, [];
      chains := if from == target then [[]] else [];
      found := if from == target then [[]] else [];
    }

    /** Emit one chain. */
    method Emit(u: FnId, e: nat)
      requires At(u) && e < |edges|
      modifies `chains, `found
      ensures At(u) && found == old(found) + [trail + [e]]
    {
      chains := chains + [currentEdges + [edges[e]]];
      found := found + [trail + [e]];
      assert Rendered(edges, trail + [e]) == currentEdges + [edges[e]];
    }

    method Enter(u: FnId, e: nat)
      requires At(u) && e < |edges| && edges[e].caller == u && edges[e].callee != target && edges[e].callee !in activeNodes
      modifies `currentEdges, `activeNodes, `trail
      ensures At(edges[e].callee) && trail == old(trail) + [e]
    {
      SimpleStep(edges, from, target, trail, e);
      StepConnected(edges, from, trail, e);
      activeNodes := activeNodes + {edges[e].callee};
      currentEdges := currentEdges + [edges[e]];
      assert Rendered(edges, trail + [e]) == currentEdges;
      trail := trail + [e];
    }

    method Retreat(ghost u: FnId, e: nat, ghost t: Trail)
      requires e < |edges| && At(edges[e].callee) && trail == t + [e]
      requires Connected(edges, from, t) && End(edges, from, t) == u && edges[e].caller == u
      requires Simple(edges, from, target, t) && edges[e].callee !in Active(edges, from, t)
      modifies `currentEdges, `activeNodes, `trail
      ensures At(u) && trail == t
    {
      StepConnected(edges, from, t, e);
      currentEdges := currentEdges[..|currentEdges| - 1];
      activeNodes := activeNodes - {edges[e].callee};
      trail := t;
      assert Rendered(edges, t) == currentEdges;
    }

    /** Append every chain beyond the current trail, and restore it. */
    method Dfs(u: FnId, depth: nat, adj: Adjacency)
      requires At(u) && |trail| == depth && Adjacent(edges, adj, |edges|)
      modifies this
      ensures At(u) && trail == old(trail) && currentEdges == old(currentEdges) && activeNodes == old(activeNodes)
      ensures old(found) <= found
      ensures ListsBeyond(edges, from, target, maxDepth, trail, Leaving(adj, u), found[|old(found)|..])
      decreases maxDepth - depth
    {
      hide ListsBeyond, ListsVia, Adjacent, Connected, Simple, Active, Rendered, RenderedAll, End;
      ghost var t, f0, n0 := trail, found, |found|;
      if depth >= maxDepth {
        NoneBeyond(edges, from, target, maxDepth, t, Leaving(adj, u));
        assert found[n0..] == [];
        return;
      }
      var next := Leaving(adj, u);
      LeavingFacts(edges, adj, u);
      NoneBeyond(edges, from, target, maxDepth, t, next[..0]);
      assert found[n0..] == [];
      for k := 0 to |next|
        invariant At(u) && trail == t && currentEdges == old(currentEdges) && activeNodes == old(activeNodes)
        invariant f0 <= found
        invariant ListsBeyond(edges, from, target, maxDepth, t, next[..k], found[n0..])
      {
        var e := next[k];
        ghost var before := found;
        Follow(u, depth, adj, e);
        AppendBlock(edges, from, target, maxDepth, t, next[..k], e, before[n0..], found[|before|..]);
        assert found[n0..] == before[n0..] + found[|before|..];
        assert next[..k + 1] == next[..k] + [e];
      }
      assert next[..|next|] == next;
    }

    /** One turn of the loop over the edges out of `u`. */
    method Follow(u: FnId, depth: nat, adj: Adjacency, e: nat)
      requires At(u) && |trail| == depth < maxDepth && Adjacent(edges, adj, |edges|)
      requires e < |edges| && edges[e].caller == u
      modifies this
      ensures At(u) && trail == old(trail) && currentEdges == old(currentEdges) && activeNodes == old(activeNodes)
      ensures old(found) <= found
      ensures ListsVia(edges, from, target, maxDepth, trail + [e], found[|old(found)|..])
      decreases maxDepth - depth, 0
    {
      hide ListsBeyond, ListsVia, Adjacent, Connected, Simple, Active, Rendered, RenderedAll, End;
      ghost var t, n0 := trail, |found|;
      var v := edges[e].callee;
      if v == target {
        TargetBlock(edges, from, target, maxDepth, t, e);
        Emit(u, e);
        assert found[n0..] == [t + [e]];
      } else if v !in activeNodes {
        Enter(u, e);
        Dfs(v, depth + 1, adj);
        LeavingFacts(edges, adj, v);
        DeeperBlock(edges, from, target, maxDepth, t, e, Leaving(adj, v), found[n0..]);
        Retreat(u, e, t);
      } else {
        BlockedBlock(edges, from, target, maxDepth, t, e);
        assert found[n0..] == [];
      }
    }
  }

  /** The trails `FindCallChains` reports: the empty one when the ends
      coincide, then every chain. */
  ghost predicate Reported(edges: seq<Edge>, from: FnId, to: FnId, maxDepth: nat, t: Trail) {
    (t == [] && from == to) || Chain(edges, from, to, maxDepth, t)
  }

  ghost predicate SameCallees(a: seq<Edge>, b: seq<Edge>) {
    |a| == |b| && forall i :: 0 <= i < |a| ==> a[i].callee == b[i].callee
  }

  /** Two chains of one length, the first of which enters the smaller function
      where they first part. */
  ghost predicate EntersSmaller(a: seq<Edge>, b: seq<Edge>) {
    |a| == |b| && exists k :: PartAt(a, b, k)
  }

  ghost predicate PartAt(a: seq<Edge>, b: seq<Edge>, k: int) {
    0 <= k < |a| && k < |b| && a[k].callee < b[k].callee && forall i :: 0 <= i < k ==> a[i].callee == b[i].callee
  }

  /** Trail `t` takes the earlier edge of the list where it first leaves `u`. */
  ghost predicate EarlierEdge(t: Trail, u: Trail) {
    exists k :: DiffersAt(t, u, k)
  }

  /** Shorter chains first; then by the functions entered; then by the edges. */
  ghost predicate ChainBefore(a: seq<Edge>, t: Trail, b: seq<Edge>, u: Trail) {
    |a| < |b| || EntersSmaller(a, b) || (SameCallees(a, b) && EarlierEdge(t, u))
  }

  ghost predicate ChainsInOrder(chains: seq<seq<Edge>>, trails: seq<Trail>)
    requires |chains| == |trails|
  {
    forall i, j :: 0 <= i < j < |chains| ==> ChainBefore(chains[i], trails[i], chains[j], trails[j])
  }

  /** Shorter chains first, and of one length the smaller function first where
      they part. */
  ghost predicate ShortestFirst(chains: seq<seq<Edge>>) {
    forall i, j :: 0 <= i < j < |chains| ==>
      |chains[i]| < |chains[j]| || EntersSmaller(chains[i], chains[j]) || SameCallees(chains[i], chains[j])
  }

  lemma KeysAgree(a: seq<Edge>, b: seq<Edge>)
    ensures ChainKey(a) == ChainKey(b) <==> SameCallees(a, b)
  {
    var x, y := ChainKey(a), ChainKey(b);
    if x == y {
      assert x[0] == y[0];
      forall i | 0 <= i < |a| ensures a[i].callee == b[i].callee {
        assert x[i + 1] == y[i + 1];
      }
    }
  }

  lemma KeyLess(a: seq<Edge>, b: seq<Edge>)
    requires Less(ChainKey(a), ChainKey(b))
    ensures |a| < |b| || EntersSmaller(a, b)
  {
    var x, y := ChainKey(a), ChainKey(b);
    LessIff(x, y);
    var k :| DiffersAt(x, y, k);
    if k > 0 {
      assert x[0] == y[0];
      forall i | 0 <= i < k - 1 ensures a[i].callee == b[i].callee {
        assert x[i + 1] == y[i + 1];
      }
      assert PartAt(a, b, k - 1);
    }
  }

  /** Sorting the chains found puts them in order, each with its trail. */
  lemma ChainsSorted(edges: seq<Edge>, found: seq<Trail>) returns (trails: seq<Trail>)
    requires InOrder(found)
    ensures SortBy(ChainKey, RenderedAll(edges, found)) == RenderedAll(edges, trails)
    ensures NoDup(trails) && forall t :: t in trails <==> t in found
    ensures ChainsInOrder(RenderedAll(edges, trails), trails) && ShortestFirst(RenderedAll(edges, trails))
  {
    hide InOrder, Rendered, ChainKey, Sorted, ChainBefore;
    var render := (t: Trail) => Rendered(edges, t);
    var key := (t: Trail) => ChainKey(Rendered(edges, t));
    trails := SortBy(key, found);
    assert RenderedAll(edges, found) == Mapped(render, found) && RenderedAll(edges, trails) == Mapped(render, trails);
    SortByMapped(render, ChainKey, key, found);
    SortByCorrect(key, found);
    forall t ensures t in trails <==> t in found { assert t in trails <==> t in Elems(found); }
    assert TiesAscend(key, trails) by { TrailsAscend(found); SortByTies(key, found); }
    forall i, j | 0 <= i < j < |trails|
      ensures ChainBefore(Rendered(edges, trails[i]), trails[i], Rendered(edges, trails[j]), trails[j]) && trails[i] != trails[j]
    {
      PairInOrder(edges, key, trails, i, j);
    }
    OrderShows(RenderedAll(edges, trails), trails);
  }

  lemma OrderShows(chains: seq<seq<Edge>>, trails: seq<Trail>)
    requires |chains| == |trails| && ChainsInOrder(chains, trails)
    ensures ShortestFirst(chains)
  {
    hide EntersSmaller, SameCallees, EarlierEdge;
    forall i, j | 0 <= i < j < |chains|
      ensures |chains[i]| < |chains[j]| || EntersSmaller(chains[i], chains[j]) || SameCallees(chains[i], chains[j])
    {
      assert ChainBefore(chains[i], trails[i], chains[j], trails[j]);
    }
  }

  lemma TrailsAscend(found: seq<Trail>)
    requires InOrder(found)
    ensures forall i, j :: 0 <= i < j < |found| ==> Less(found[i], found[j])
  {
  }

  lemma PairInOrder(edges: seq<Edge>, key: Trail -> Key, trails: seq<Trail>, i: nat, j: nat)
    requires forall t :: key(t) == ChainKey(Rendered(edges, t))
    requires i < j < |trails| && Sorted(key, trails) && TiesAscend(key, trails)
    ensures ChainBefore(Rendered(edges, trails[i]), trails[i], Rendered(edges, trails[j]), trails[j])
    ensures trails[i] != trails[j]
  {
    hide Rendered, ChainKey, Less, DiffersAt, EntersSmaller, SameCallees;
    var t, u := trails[i], trails[j];
    LessTotal(key(t), key(u));
    LessIrreflexive(key(t));
    LessIrreflexive(t);
    if Less(key(t), key(u)) {
      KeyLess(Rendered(edges, t), Rendered(edges, u));
    } else {
      KeysAgree(Rendered(edges, t), Rendered(edges, u));
      LessIff(t, u);
    }
  }

  /** Each chain from `from` to `to` once and nothing else, shortest first and
      then by the functions entered; chains that enter the same functions stay in
      the order of their edges in the list. */
  method FindCallChains(edges: seq<Edge>, from: FnId, to: FnId, maxDepth: nat)
    returns (chains: seq<seq<Edge>>, ghost trails: seq<Trail>)
    ensures chains == RenderedAll(edges, trails) && NoDup(trails)
    ensures forall t :: t in trails <==> Reported(edges, from, to, maxDepth, t)
    ensures ShortestFirst(chains) && ChainsInOrder(chains, trails)
  {
    hide Chain, ListsBeyond, Rendered, RenderedAll, InOrder, Reported, ShortestFirst, ChainsInOrder, Insert, SortBy;
    var search := new Search(edges, from, to, maxDepth);
    ghost var first := search.found;
    if maxDepth == 0 {
      NoneBeyond(edges, from, to, maxDepth, [], []);
      AllReported(edges, from, to, maxDepth, [], []);
      assert first + [] == first;
    } else {
      var adj := BuildAdjacency(edges);
      search.Dfs(from, 0, adj);
      LeavingFacts(edges, adj, from);
      assert search.found == first + search.found[|first|..];
      AllReported(edges, from, to, maxDepth, Leaving(adj, from), search.found[|first|..]);
    }
    trails := ChainsSorted(edges, search.found);
    chains := SortBy(ChainKey, search.chains);
  }

  lemma AllReported(edges: seq<Edge>, from: FnId, to: FnId, maxDepth: nat, next: seq<nat>, ts: seq<Trail>)
    requires ListsBeyond(edges, from, to, maxDepth, [], next, ts)
    requires maxDepth == 0 || forall k: nat :: k < |edges| && edges[k].caller == from ==> k in next
    ensures InOrder((if from == to then [[]] else []) + ts)
    ensures forall t :: t in (if from == to then [[]] else []) + ts <==> Reported(edges, from, to, maxDepth, t)
  {
    var first: seq<Trail> := if from == to then [[]] else [];
    forall t ensures t in first + ts <==> Reported(edges, from, to, maxDepth, t) {
      if Chain(edges, from, to, maxDepth, t) {
        NextLeaves(edges, from, to, maxDepth, [], t);
        assert Beyond(edges, from, to, maxDepth, [], next, t);
      }
      assert t in ts ==> Beyond(edges, from, to, maxDepth, [], next, t);
    }
    forall j | 0 <= j < |ts| ensures Less([], ts[j]) {
      assert ts[j] in ts;
      assert Beyond(edges, from, to, maxDepth, [], next, ts[j]);
    }
  }
}
