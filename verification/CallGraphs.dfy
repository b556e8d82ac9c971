/** The graph the execution-context pass works on. Functions are numbered from
    zero; there are two edge relations, the second without context starts. */
module CallGraphs {
  import opened Common
  import opened Graphs
  import Tarjan

  type FnId = nat
  type CallSite = nat

  datatype Resolution = Direct | Indirect | Ambiguous | External | IpcBridge

  datatype Edge = Edge(site: CallSite, caller: FnId, callee: FnId, resolution: Resolution)

  type Relation = set<(FnId, FnId)>

  /** Does the edge begin a context, rather than call? */
  ghost predicate StartsContext(e: Edge, starts: set<(CallSite, FnId)>) {
    e.resolution.IpcBridge? || (e.site, e.callee) in starts
  }

  /** Who calls whom. */
  ghost function Pairs(edges: seq<Edge>): Relation {
    set e | e in edges :: (e.caller, e.callee)
  }

  ghost function OrdinaryPairs(edges: seq<Edge>, starts: set<(CallSite, FnId)>): Relation {
    set e | e in edges && !StartsContext(e, starts) :: (e.caller, e.callee)
  }

  ghost predicate Named(edges: seq<Edge>, f: FnId) {
    exists e :: e in edges && (f == e.caller || f == e.callee)
  }

  ghost predicate FnWalk(rel: Relation, p: seq<FnId>, f: FnId, g: FnId) {
    p != [] && p[0] == f && p[|p| - 1] == g && forall i {:trigger p[i]} :: 0 <= i < |p| - 1 ==> (p[i], p[i + 1]) in rel
  }

  ghost predicate Reaches(rel: Relation, f: FnId, g: FnId) {
    exists p :: FnWalk(rel, p, f, g)
  }

  /** A nonempty walk leads from `f` back to `f`. */
  ghost predicate OnCycle(rel: Relation, f: FnId) {
    exists p :: |p| >= 2 && FnWalk(rel, p, f, f)
  }

  /** Edges of the list that lead, one after the other, from `f` back to `f`. */
  ghost predicate EdgeCycle(edges: seq<Edge>, w: seq<Edge>, f: FnId) {
    && w != [] && w[0].caller == f && w[|w| - 1].callee == f
    && (forall i :: 0 <= i < |w| ==> w[i] in edges)
    && (forall i {:trigger w[i]} :: 0 <= i < |w| - 1 ==> w[i].callee == w[i + 1].caller)
  }

  /** Neither an IPC bridge nor the start of a context is among them. */
  ghost predicate OnlyCalls(w: seq<Edge>, starts: set<(CallSite, FnId)>) {
    forall i :: 0 <= i < |w| ==> !w[i].resolution.IpcBridge? && (w[i].site, w[i].callee) !in starts
  }

  /** Ordinary calls lead from a function back to it exactly if some cycle of
      edges through it needs neither a bridge nor the start of a context. */
  lemma CycleOfCalls(edges: seq<Edge>, starts: set<(CallSite, FnId)>, f: FnId)
    ensures OnCycle(OrdinaryPairs(edges, starts), f) <==> exists w :: EdgeCycle(edges, w, f) && OnlyCalls(w, starts)
  {
    if OnCycle(OrdinaryPairs(edges, starts), f) {
      var p :| |p| >= 2 && FnWalk(OrdinaryPairs(edges, starts), p, f, f);
      var w := EdgesAlong(edges, starts, p, |p| - 1);
      assert EdgeCycle(edges, w, f) && OnlyCalls(w, starts);
    }
    if w: seq<Edge> :| EdgeCycle(edges, w, f) && OnlyCalls(w, starts) {
      var p: seq<FnId> := seq(|w| + 1, i requires 0 <= i <= |w| => if i < |w| then w[i].caller else f);
      forall i {:trigger p[i]} | 0 <= i < |p| - 1 ensures (p[i], p[i + 1]) in OrdinaryPairs(edges, starts) {
        assert w[i] in edges && !StartsContext(w[i], starts) && p[i + 1] == w[i].callee;
      }
      assert FnWalk(OrdinaryPairs(edges, starts), p, f, f);
    }
  }

  /** The edges of the first `n` steps of a walk. */
  lemma {:induction false} EdgesAlong(edges: seq<Edge>, starts: set<(CallSite, FnId)>, p: seq<FnId>, n: nat) returns (w: seq<Edge>)
    requires n < |p| && forall i {:trigger p[i]} :: 0 <= i < |p| - 1 ==> (p[i], p[i + 1]) in OrdinaryPairs(edges, starts)
    ensures |w| == n && OnlyCalls(w, starts)
    ensures forall i :: 0 <= i < n ==> w[i] in edges && w[i].caller == p[i] && w[i].callee == p[i + 1]
  {
    if n == 0 {
      w := [];
    } else {
      w := EdgesAlong(edges, starts, p, n - 1);
      assert (p[n - 1], p[n - 1 + 1]) in OrdinaryPairs(edges, starts);
      var e :| e in edges && !StartsContext(e, starts) && (e.caller, e.callee) == (p[n - 1], p[n]);
      w := w + [e];
    }
  }

  lemma ReachesStep(rel: Relation, f: FnId, g: FnId, h: FnId)
    requires Reaches(rel, f, g) && (g, h) in rel
    ensures Reaches(rel, f, h)
  {
    var p :| FnWalk(rel, p, f, g);
    var q := p + [h];
    forall i {:trigger q[i]} | 0 <= i < |q| - 1 ensures (q[i], q[i + 1]) in rel {
      assert q[i] == p[i];
    }
    assert FnWalk(rel, q, f, h);
  }

  lemma ReachesTrans(rel: Relation, f: FnId, g: FnId, h: FnId)
    requires Reaches(rel, f, g) && Reaches(rel, g, h)
    ensures Reaches(rel, f, h)
  {
    var p :| FnWalk(rel, p, f, g);
    var q :| FnWalk(rel, q, g, h);
    var r := p + q[1..];
    forall i {:trigger r[i]} | 0 <= i < |r| - 1 ensures (r[i], r[i + 1]) in rel {
      if i < |p| - 1 {
        assert r[i] == p[i] && r[i + 1] == p[i + 1];
      } else {
        assert r[i] == q[i - |p| + 1] && r[i + 1] == q[i - |p| + 2];
      }
    }
    assert r[|r| - 1] == h;
    assert FnWalk(rel, r, f, h);
  }

  // ----- The numbering -----

  /** `index` numbers the functions `names`, each once. */
  ghost predicate Numbering(index: map<FnId, nat>, names: seq<FnId>) {
    && (forall i :: 0 <= i < |names| ==> names[i] in index && index[names[i]] == i)
    && (forall f :: f in index ==> index[f] < |names| && names[index[f]] == f)
  }

  /** Under the numbering, `g` holds each pair of `rel` once and nothing else. */
  ghost predicate Represents(g: Graph, names: seq<FnId>, rel: Relation) {
    && |g| == |names|
    && ValidGraph(g)
    && (forall i :: 0 <= i < |g| ==> NoDup(g[i]))
    && (forall i, j: nat :: 0 <= i < |names| && j < |names| ==> (j in g[i] <==> (names[i], names[j]) in rel))
    && (forall e :: e in rel ==> e.0 in names && e.1 in names)
  }

  /** Numbering one more function keeps the graph. */
  lemma RepresentsGrow(g: Graph, names: seq<FnId>, rel: Relation, f: FnId)
    requires Represents(g, names, rel) && f !in names
    ensures Represents(g + [[]], names + [f], rel)
  {
    var g', names' := g + [[]], names + [f];
    assert forall i :: 0 <= i < |g| ==> g'[i] == g[i] && names'[i] == names[i];
    forall v, j | 0 <= v < |g'| && 0 <= j < |g'[v]| ensures g'[v][j] < |g'| {
      assert v < |g| && g[v][j] < |g|;
    }
    forall i, j: nat | 0 <= i < |names'| && j < |names'|
      ensures j in g'[i] <==> (names'[i], names'[j]) in rel
    {
      if i < |g| && j == |g| {
        assert j !in g[i];
      }
    }
  }

  /** Adding one more pair, unless the graph has it already. */
  lemma RepresentsAdd(g: Graph, names: seq<FnId>, rel: Relation, i: nat, j: nat)
    requires Represents(g, names, rel) && i < |g| && j < |g|
    requires forall a, b :: 0 <= a < b < |names| ==> names[a] != names[b]
    ensures Represents(if j in g[i] then g else g[i := g[i] + [j]], names, rel + {(names[i], names[j])})
  {
    var g' := if j in g[i] then g else g[i := g[i] + [j]];
    var rel' := rel + {(names[i], names[j])};
    if j !in g[i] {
      NoDupSnoc(g[i], j);
    }
    forall a, b: nat | 0 <= a < |names| && b < |names|
      ensures b in g'[a] <==> (names[a], names[b]) in rel'
    {
      assert (names[a], names[b]) == (names[i], names[j]) <==> a == i && b == j;
    }
  }

  lemma WalkNamed(g: Graph, names: seq<FnId>, rel: Relation, p: seq<nat>, i: nat, j: nat)
    requires Represents(g, names, rel) && Walk(g, p, i, j) && i < |names| && j < |names|
    ensures Reaches(rel, names[i], names[j])
  {
    var q := seq(|p|, k requires 0 <= k < |p| && p[k] < |names| => names[p[k]]);
    forall k {:trigger q[k]} | 0 <= k < |q| - 1 ensures (q[k], q[k + 1]) in rel {
      assert p[k + 1] in g[p[k]];
    }
    assert FnWalk(rel, q, names[i], names[j]);
  }

  lemma WalkNumbered(g: Graph, names: seq<FnId>, index: map<FnId, nat>, rel: Relation, p: seq<FnId>, i: nat, j: nat)
    requires Represents(g, names, rel) && Numbering(index, names) && i < |names| && j < |names|
    requires FnWalk(rel, p, names[i], names[j])
    ensures Reach(g, i, j)
  {
    forall k | 0 <= k < |p| ensures p[k] in index {
      if k > 0 {
        assert (p[k - 1], p[k - 1 + 1]) in rel;
      }
    }
    var q := seq(|p|, k requires 0 <= k < |p| && p[k] in index => index[p[k]]);
    forall k | 0 <= k < |q| - 1 ensures q[k + 1] in g[q[k]] {
      assert (p[k], p[k + 1]) in rel;
      assert names[q[k]] == p[k] && names[q[k + 1]] == p[k + 1];
    }
    assert Walk(g, q, i, j);
  }

  /** The numbered graph reaches what the relation reaches. */
  lemma ReachIff(g: Graph, names: seq<FnId>, index: map<FnId, nat>, rel: Relation, i: nat, j: nat)
    requires Represents(g, names, rel) && Numbering(index, names) && i < |names| && j < |names|
    ensures Reach(g, i, j) <==> Reaches(rel, names[i], names[j])
  {
    if Reach(g, i, j) {
      var p :| Walk(g, p, i, j);
      WalkNamed(g, names, rel, p, i, j);
    }
    if Reaches(rel, names[i], names[j]) {
      var p :| FnWalk(rel, p, names[i], names[j]);
      WalkNumbered(g, names, index, rel, p, i, j);
    }
  }

  /** Some successor of `v` leads back to it. */
  ghost predicate Returns(g: Graph, v: nat)
    requires v < |g|
  {
    exists w :: w in g[v] && Reach(g, w, v)
  }

  lemma CyclePrefix(rel: Relation, f: FnId, g: FnId)
    requires (f, g) in rel && Reaches(rel, g, f)
    ensures OnCycle(rel, f)
  {
    var p :| FnWalk(rel, p, g, f);
    var q := [f] + p;
    forall k {:trigger q[k]} | 0 <= k < |q| - 1 ensures (q[k], q[k + 1]) in rel {
      assert k > 0 ==> q[k] == p[k - 1] && q[k + 1] == p[k];
    }
    assert |q| >= 2 && FnWalk(rel, q, f, f);
  }

  lemma CycleStep(rel: Relation, f: FnId) returns (g: FnId)
    requires OnCycle(rel, f)
    ensures (f, g) in rel && Reaches(rel, g, f)
  {
    var p :| |p| >= 2 && FnWalk(rel, p, f, f);
    g := p[1];
    var q := p[1..];
    assert (p[0], p[0 + 1]) in rel;
    forall k {:trigger q[k]} | 0 <= k < |q| - 1 ensures (q[k], q[k + 1]) in rel {
      assert q[k] == p[k + 1] && q[k + 1] == p[k + 1 + 1];
    }
    assert FnWalk(rel, q, g, f);
  }

  lemma ReturnsIff(g: Graph, names: seq<FnId>, index: map<FnId, nat>, rel: Relation, v: nat)
    requires Represents(g, names, rel) && Numbering(index, names) && v < |names|
    ensures Returns(g, v) <==> OnCycle(rel, names[v])
  {
    hide OnCycle, Reaches, Reach;
    if Returns(g, v) {
      var w :| w in g[v] && Reach(g, w, v);
      assert w < |g| by { var k :| 0 <= k < |g[v]| && g[v][k] == w; }
      ReachIff(g, names, index, rel, w, v);
      CyclePrefix(rel, names[v], names[w]);
    }
    if OnCycle(rel, names[v]) {
      var f := CycleStep(rel, names[v]);
      var w := index[f];
      ReachIff(g, names, index, rel, w, v);
      assert w in g[v];
    }
  }

  // ----- Cycles from components -----

  /** The nodes below `n` in component `c`. */
  ghost function Members(comp: seq<int>, n: nat, c: int): set<nat>
    requires n <= |comp|
  {
    set v: nat | v < n && comp[v] == c
  }

  lemma MembersStep(comp: seq<int>, n: nat, c: int)
    requires n < |comp|
    ensures Members(comp, n + 1, c) == if comp[n] == c then Members(comp, n, c) + {n} else Members(comp, n, c)
  {
  }

  lemma {:induction false} ElemsSize<T>(s: seq<T>)
    ensures |Elems(s)| <= |s|
  {
    if s != [] {
      ElemsSize(s[1..]);
      assert Elems(s) == Elems(s[1..]) + {s[0]};
    }
  }

  ghost function UpTo(n: nat): (s: set<int>)
    ensures forall c :: c in s <==> 0 <= c < n
    ensures |s| == n
  {
    if n == 0 then {} else UpTo(n - 1) + {n - 1}
  }

  /** Dense numbers stay below the number of nodes. */
  lemma DenseBelow(g: Graph, comp: seq<int>, v: nat)
    requires Tarjan.Components(g, comp) && v < |g|
    ensures 0 <= comp[v] < |g|
  {
    var s := UpTo(comp[v] + 1);
    forall c | c in s ensures c in comp {
      assert c < comp[v] || c == comp[v];
    }
    assert s <= Elems(comp);
    SubsetSize(s, Elems(comp));
    ElemsSize(comp);
  }

  /** A node lies on a cycle just when it shares its component or calls itself. */
  lemma CyclicIff(g: Graph, comp: seq<int>, v: nat)
    requires ValidGraph(g) && Tarjan.Components(g, comp) && v < |g|
    ensures |Members(comp, |comp|, comp[v])| > 1 || v in g[v] <==> Returns(g, v)
  {
    var s := Members(comp, |comp|, comp[v]);
    assert v in s;
    if |s| > 1 {
      assert s - {v} != {} by { if s - {v} == {} { SubsetSize(s, {v}); } }
      var w :| w in s - {v};
      assert Mutual(g, v, w);
      FirstStep(g, v, w);
    }
    if v in g[v] {
      ReachSelf(g, v);
    }
    if Returns(g, v) && v !in g[v] {
      var w :| w in g[v] && Reach(g, w, v);
      ReachEdge(g, v, w);
      assert w < |g| by { var k :| 0 <= k < |g[v]| && g[v][k] == w; }
      assert comp[v] == comp[w];
      SubsetSize({v, w}, s);
    }
  }

  lemma FirstStep(g: Graph, v: nat, w: nat)
    requires ValidGraph(g) && v != w && Mutual(g, v, w)
    ensures v < |g| && Returns(g, v)
  {
    var p :| Walk(g, p, v, w);
    assert p[0 + 1] in g[p[0]];
    var q := p[1..];
    assert forall k {:trigger q[k]} :: 0 <= k < |q| ==> q[k] == p[k + 1];
    assert Walk(g, q, p[1], w);
    ReachTrans(g, p[1], w, v);
  }

  // ----- Reachability from roots -----

  /** Some root reaches `v`. */
  ghost predicate FromRoot(g: Graph, roots: seq<nat>, v: nat) {
    exists r :: r in roots && Reach(g, r, v)
  }

  /** Every successor of `v` is marked. */
  ghost predicate Expanded(g: Graph, reached: seq<bool>, v: nat)
    requires v < |g|
  {
    forall i :: 0 <= i < |g[v]| ==> g[v][i] < |reached| && reached[g[v][i]]
  }

  /** What the search knows: the marked nodes come from roots, and only those
      waiting in `work` may still have unmarked successors. */
  ghost predicate Searching(g: Graph, roots: seq<nat>, reached: seq<bool>, work: seq<nat>) {
    && |reached| == |g|
    && (forall i :: 0 <= i < |work| ==> work[i] < |g| && reached[work[i]])
    && (forall i :: 0 <= i < |roots| ==> roots[i] < |g| && reached[roots[i]])
    && (forall v: nat :: v < |g| && reached[v] ==> FromRoot(g, roots, v))
    && (forall v: nat :: v < |g| && reached[v] && v !in work ==> Expanded(g, reached, v))
  }

  lemma SearchDone(g: Graph, roots: seq<nat>, reached: seq<bool>)
    requires ValidGraph(g) && Searching(g, roots, reached, [])
    ensures forall v: nat :: v < |g| ==> (reached[v] <==> FromRoot(g, roots, v))
  {
    var s := set v: nat | v < |g| && reached[v];
    forall v: nat | v < |g| && FromRoot(g, roots, v) ensures reached[v] {
      var r :| r in roots && Reach(g, r, v);
      var p :| Walk(g, p, r, v);
      forall x, y | x in s && x < |g| && y in g[x] ensures y in s {
        assert Expanded(g, reached, x);
      }
      ClosedUnderWalk(g, p, r, v, s);
    }
  }

  ghost function Unreached(reached: seq<bool>): set<nat> {
    set v: nat | v < |reached| && !reached[v]
  }

  /** While the successors of the popped node `v` are visited, those before
      position `k` are marked. */
  ghost predicate Visiting(g: Graph, roots: seq<nat>, reached: seq<bool>, work: seq<nat>, v: nat, k: nat) {
    && v < |g| && k <= |g[v]|
    && |reached| == |g| && reached[v]
    && (forall i :: 0 <= i < |work| ==> work[i] < |g| && reached[work[i]])
    && (forall i :: 0 <= i < |roots| ==> roots[i] < |g| && reached[roots[i]])
    && (forall x: nat :: x < |g| && reached[x] ==> FromRoot(g, roots, x))
    && (forall x: nat :: x < |g| && reached[x] && x !in work && x != v ==> Expanded(g, reached, x))
    && (forall i :: 0 <= i < k ==> g[v][i] < |g| && reached[g[v][i]])
  }

  lemma VisitStart(g: Graph, roots: seq<nat>, reached: seq<bool>, work: seq<nat>)
    requires Searching(g, roots, reached, work) && work != []
    ensures Visiting(g, roots, reached, work[..|work| - 1], work[|work| - 1], 0)
  {
    hide FromRoot;
    var rest, v := work[..|work| - 1], work[|work| - 1];
    assert work == rest + [v];
    assert forall x :: x != v && x !in rest ==> x !in work;
  }

  lemma VisitEnd(g: Graph, roots: seq<nat>, reached: seq<bool>, work: seq<nat>, v: nat)
    requires v < |g| && Visiting(g, roots, reached, work, v, |g[v]|)
    ensures Searching(g, roots, reached, work)
  {
    hide FromRoot;
  }

  lemma FromRootStep(g: Graph, roots: seq<nat>, v: nat, w: nat)
    requires ValidGraph(g) && FromRoot(g, roots, v) && v < |g| && w in g[v]
    ensures FromRoot(g, roots, w)
  {
    var r :| r in roots && Reach(g, r, v);
    ReachEdge(g, v, w);
    ReachTrans(g, r, v, w);
  }

  lemma VisitNew(g: Graph, roots: seq<nat>, reached: seq<bool>, work: seq<nat>, v: nat, k: nat)
    requires ValidGraph(g) && Visiting(g, roots, reached, work, v, k) && k < |g[v]|
    requires g[v][k] < |g| && !reached[g[v][k]]
    ensures Visiting(g, roots, reached[g[v][k] := true], work + [g[v][k]], v, k + 1)
    ensures Unreached(reached[g[v][k] := true]) < Unreached(reached)
  {
    hide FromRoot;
    var w := g[v][k];
    var reached', work' := reached[w := true], work + [w];
    FromRootStep(g, roots, v, w);
    assert w in Unreached(reached) && w !in Unreached(reached');
    assert w in work';
    assert forall x :: x in work ==> x in work';
  }

  /** Entering a pair of numbered functions. */
  lemma EnterOk(index: map<FnId, nat>, names: seq<FnId>, g: Graph, rel: Relation, f: FnId, h: FnId)
    requires Numbering(index, names) && Represents(g, names, rel) && f in index && h in index
    ensures index[f] < |g| && index[h] < |g|
    ensures Represents(if index[h] in g[index[f]] then g else g[index[f] := g[index[f]] + [index[h]]], names, rel + {(f, h)})
  {
    Distinct(index, names);
    RepresentsAdd(g, names, rel, index[f], index[h]);
  }

  class CallGraph {
    var index: map<FnId, nat>
    var successors: Graph
    var calls: Graph
    /** The functions in the order of their numbers. */
    ghost var names: seq<FnId>

    ghost predicate Valid(all: Relation, ordinary: Relation)
      reads this
    {
      && Numbering(index, names)
      && Represents(successors, names, all)
      && Represents(calls, names, ordinary)
    }

    /** The number of `f`, given out on its first appearance. */
    method Node(f: FnId, ghost all: Relation, ghost ordinary: Relation) returns (i: nat)
      requires Valid(all, ordinary)
      modifies this
      ensures Valid(all, ordinary)
      ensures f in index && index[f] == i
      ensures names == if f in old(index) then old(names) else old(names) + [f]
      ensures forall g :: g in old(index) ==> g in index && index[g] == old(index)[g]
    {
      var next := |successors|;
      if f in index {
        i := index[f];
      } else {
        i := next;
        index := index[f := next];
        RepresentsGrow(successors, names, all, f);
        RepresentsGrow(calls, names, ordinary, f);
        successors := successors + [[]];
        calls := calls + [[]];
        names := names + [f];
      }
    }

    /** Enter one edge into both graphs. */
    method Enter(e: Edge, starts: set<(CallSite, FnId)>, ghost all: Relation, ghost ordinary: Relation)
      requires Valid(all, ordinary)
      modifies this
      ensures Valid(all + {(e.caller, e.callee)},
                    if StartsContext(e, starts) then ordinary else ordinary + {(e.caller, e.callee)})
      ensures forall f :: f in names ==> f in old(names) || f == e.caller || f == e.callee
      ensures forall f :: f in old(names) ==> f in names
    {
      hide Represents, Numbering;
      var i := Node(e.caller, all, ordinary);
      var j := Node(e.callee, all, ordinary);
      EnterOk(index, names, successors, all, e.caller, e.callee);
      EnterOk(index, names, calls, ordinary, e.caller, e.callee);
      if j !in successors[i] {
        successors := successors[i := successors[i] + [j]];
      }
      if !e.resolution.IpcBridge? && (e.site, e.callee) !in starts && j !in calls[i] {
        calls := calls[i := calls[i] + [j]];
      }
    }

    /** Every edge of the list, and nothing else, by number. */
    constructor (edges: seq<Edge>, starts: set<(CallSite, FnId)>)
      ensures Valid(Pairs(edges), OrdinaryPairs(edges, starts))
      ensures forall f :: f in index <==> Named(edges, f)
    {
      index, successors, calls, names := map[], [], [], [];
      new;
      assert Pairs(edges[..0]) == {} && OrdinaryPairs(edges[..0], starts) == {};
      for k := 0 to |edges|
        invariant Valid(Pairs(edges[..k]), OrdinaryPairs(edges[..k], starts))
        invariant forall f :: f in names ==> Named(edges, f)
      {
        Enter(edges[k], starts, Pairs(edges[..k]), OrdinaryPairs(edges[..k], starts));
        PairsStep(edges, starts, k);
        assert forall f :: f == edges[k].caller || f == edges[k].callee ==> Named(edges, f);
      }
      assert edges[..|edges|] == edges;
      forall f ensures f in index <==> Named(edges, f) {
        NamedIff(index, successors, names, edges, f);
      }
    }

    /** Per node, whether a nonempty walk of ordinary calls leads back to it. */
    method Cyclic(ghost all: Relation, ghost ordinary: Relation) returns (cyclic: seq<bool>)
      requires Valid(all, ordinary)
      ensures |cyclic| == |names|
      ensures forall v: nat :: v < |names| ==> (cyclic[v] <==> OnCycle(ordinary, names[v]))
    {
      cyclic := CyclicNodes(calls);
      forall v: nat | v < |names| ensures cyclic[v] <==> OnCycle(ordinary, names[v]) {
        ReturnsIff(calls, names, index, ordinary, v);
      }
    }

    /** Forward search over all edges from those roots that were numbered. */
    method ReachableFrom(roots: seq<FnId>, ghost all: Relation, ghost ordinary: Relation) returns (reached: seq<bool>)
      requires Valid(all, ordinary)
      ensures |reached| == |names|
      ensures forall v: nat :: v < |names| ==>
        (reached[v] <==> exists f :: f in roots && f in index && Reaches(all, f, names[v]))
    {
      var work: seq<nat> := [];
      for k := 0 to |roots|
        invariant forall i :: 0 <= i < |work| ==> work[i] < |names|
        invariant forall i: nat :: i in work <==> exists f :: f in roots[..k] && f in index && index[f] == i
      {
        assert roots[..k + 1] == roots[..k] + [roots[k]];
        if roots[k] in index {
          work := work + [index[roots[k]]];
        }
      }
      assert roots[..|roots|] == roots;
      reached := Search(successors, work);
      forall v: nat | v < |names|
        ensures reached[v] <==> exists f :: f in roots && f in index && Reaches(all, f, names[v])
      {
        RootIff(successors, names, index, all, roots, work, v);
      }
    }
  }

  lemma Distinct(index: map<FnId, nat>, names: seq<FnId>)
    requires Numbering(index, names)
    ensures forall a, b :: 0 <= a < b < |names| ==> names[a] != names[b]
    ensures forall f :: f in index <==> f in names
  {
  }

  lemma PairsStep(edges: seq<Edge>, starts: set<(CallSite, FnId)>, k: nat)
    requires k < |edges|
    ensures Pairs(edges[..k + 1]) == Pairs(edges[..k]) + {(edges[k].caller, edges[k].callee)}
    ensures OrdinaryPairs(edges[..k + 1], starts) ==
      if StartsContext(edges[k], starts) then OrdinaryPairs(edges[..k], starts)
      else OrdinaryPairs(edges[..k], starts) + {(edges[k].caller, edges[k].callee)}
  {
    assert edges[..k + 1] == edges[..k] + [edges[k]];
  }

  lemma NamedIff(index: map<FnId, nat>, g: Graph, names: seq<FnId>, edges: seq<Edge>, f: FnId)
    requires Numbering(index, names) && Represents(g, names, Pairs(edges))
    requires f in names ==> Named(edges, f)
    ensures f in index <==> Named(edges, f)
  {
    if Named(edges, f) {
      var e :| e in edges && (f == e.caller || f == e.callee);
      assert (e.caller, e.callee) in Pairs(edges);
    }
  }

  method CyclicNodes(calls: Graph) returns (cyclic: seq<bool>)
    requires ValidGraph(calls)
    ensures |cyclic| == |calls|
    ensures forall v: nat :: v < |calls| ==> (cyclic[v] <==> Returns(calls, v))
  {
    hide Returns;
    var component := Tarjan.StronglyConnectedComponents(calls);
    forall v: nat | v < |calls| ensures 0 <= component[v] < |calls| { DenseBelow(calls, component, v); }
    hide Tarjan.Components;
    var size := CountMembers(component, |calls|);
    cyclic := [];
    for v := 0 to |component|
      invariant |cyclic| == v
      invariant forall x: nat :: x < v ==> (cyclic[x] <==> Returns(calls, x))
    {
      CyclicIff(calls, component, v);
      cyclic := cyclic + [size[component[v]] > 1 || v in calls[v]];
    }
  }

  method CountMembers(component: seq<int>, n: nat) returns (size: seq<nat>)
    requires forall v :: 0 <= v < |component| ==> 0 <= component[v] < n
    ensures |size| == n
    ensures forall c :: 0 <= c < n ==> size[c] == |Members(component, |component|, c)|
  {
    hide Members;
    size := seq(n, _ => 0);
    forall c | 0 <= c < n ensures |Members(component, 0, c)| == 0 { NoMembers(component, c); }
    for v := 0 to |component|
      invariant |size| == n
      invariant forall c :: 0 <= c < n ==> size[c] == |Members(component, v, c)|
    {
      var c := component[v];
      forall d | 0 <= d < n
        ensures |Members(component, v + 1, d)| == |Members(component, v, d)| + (if d == c then 1 else 0)
      {
        MembersGrow(component, v, d);
      }
      size := size[c := size[c] + 1];
    }
  }

  lemma NoMembers(comp: seq<int>, c: int)
    ensures Members(comp, 0, c) == {}
  {
  }

  lemma MembersGrow(comp: seq<int>, n: nat, c: int)
    requires n < |comp|
    ensures |Members(comp, n + 1, c)| == |Members(comp, n, c)| + (if comp[n] == c then 1 else 0)
  {
    MembersStep(comp, n, c);
    assert n !in Members(comp, n, c);
  }

  /** Mark everything the nodes of `roots` reach. */
  method Search(succ: Graph, roots: seq<nat>) returns (reached: seq<bool>)
    requires ValidGraph(succ) && forall i :: 0 <= i < |roots| ==> roots[i] < |succ|
    ensures |reached| == |succ|
    ensures forall v: nat :: v < |succ| ==> (reached[v] <==> FromRoot(succ, roots, v))
  {
    hide FromRoot, Visiting;
    reached := MarkRoots(succ, roots);
    var work := roots;
    while work != []
      invariant Searching(succ, roots, reached, work)
      decreases Unreached(reached), |work|
    {
      VisitStart(succ, roots, reached, work);
      var v := work[|work| - 1];
      reached, work := Visit(succ, roots, reached, work[..|work| - 1], v);
      VisitEnd(succ, roots, reached, work, v);
    }
    SearchDone(succ, roots, reached);
  }

  method MarkRoots(succ: Graph, roots: seq<nat>) returns (reached: seq<bool>)
    requires forall i :: 0 <= i < |roots| ==> roots[i] < |succ|
    ensures Searching(succ, roots, reached, roots)
  {
    reached := seq(|succ|, _ => false);
    for k := 0 to |roots|
      invariant |reached| == |succ|
      invariant forall i :: 0 <= i < k ==> reached[roots[i]]
      invariant forall v: nat :: v < |succ| && reached[v] ==> v in roots
    {
      reached := reached[roots[k] := true];
    }
    forall v: nat | v < |succ| && reached[v] ensures FromRoot(succ, roots, v) {
      ReachSelf(succ, v);
    }
  }

  method Visit(succ: Graph, ghost roots: seq<nat>, reached: seq<bool>, work: seq<nat>, v: nat)
    returns (reached': seq<bool>, work': seq<nat>)
    requires ValidGraph(succ) && v < |succ| && Visiting(succ, roots, reached, work, v, 0)
    ensures v < |succ| && Visiting(succ, roots, reached', work', v, |succ[v]|)
    ensures Unreached(reached') < Unreached(reached) || (reached' == reached && work' == work)
  {
    hide Visiting, Unreached;
    reached', work' := reached, work;
    for k := 0 to |succ[v]|
      invariant Visiting(succ, roots, reached', work', v, k)
      invariant Unreached(reached') < Unreached(reached) || (reached' == reached && work' == work)
    {
      var w := succ[v][k];
      assert |reached'| == |succ| by { VisitSize(succ, roots, reached', work', v, k); }
      if !reached'[w] {
        VisitNew(succ, roots, reached', work', v, k);
        reached' := reached'[w := true];
        work' := work' + [w];
      } else {
        VisitOld(succ, roots, reached', work', v, k);
      }
    }
  }

  lemma VisitSize(g: Graph, roots: seq<nat>, reached: seq<bool>, work: seq<nat>, v: nat, k: nat)
    requires Visiting(g, roots, reached, work, v, k)
    ensures |reached| == |g|
  {
  }

  lemma VisitOld(g: Graph, roots: seq<nat>, reached: seq<bool>, work: seq<nat>, v: nat, k: nat)
    requires Visiting(g, roots, reached, work, v, k) && k < |g[v]|
    requires g[v][k] < |reached| && reached[g[v][k]]
    ensures Visiting(g, roots, reached, work, v, k + 1)
  {
    hide FromRoot;
  }

  lemma RootIff(g: Graph, names: seq<FnId>, index: map<FnId, nat>, rel: Relation, roots: seq<FnId>, work: seq<nat>, v: nat)
    requires Represents(g, names, rel) && Numbering(index, names) && v < |names|
    requires forall i: nat :: i in work <==> exists f :: f in roots && f in index && index[f] == i
    ensures FromRoot(g, work, v) <==> exists f :: f in roots && f in index && Reaches(rel, f, names[v])
  {
    if FromRoot(g, work, v) {
      var r :| r in work && Reach(g, r, v);
      var f :| f in roots && f in index && index[f] == r;
      ReachIff(g, names, index, rel, r, v);
    }
    if f :| f in roots && f in index && Reaches(rel, f, names[v]) {
      ReachIff(g, names, index, rel, index[f], v);
      assert index[f] in work;
    }
  }
}
