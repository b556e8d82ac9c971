/** Inputs on which what the solver ends with depends on when things happened:
    a copy that is never delivered, and a store that is never made. */
module Limits {
  import opened Common
  import opened Rules
  import opened Kernel
  import opened Indices
  import opened Convergence
  import opened Steps
  import Solver
  import Analysis

  // ----- a late copy

  /** `x = fp()`, where `fp` points to a function that returns the variable `g`
      and `g` points to an object. Node 0 is `g`, node 1 is `x`, node 2 is `fp`;
      nodes 3 and 4 stand for the object, location 0, and for the function,
      location 1. */
  function LateCopyProblem(): Problem {
    Problem(5, [Global, Function], map[], map[], map[], [AddrOf(2, 4, 1), AddrOf(0, 3, 0)], map[], map[], [], [],
            map[2 := [0]], map[(0, 1) := [0]], map[(0, 0) := [ReturnedCopy(1, 0), Requeues(0)]], map[])
  }

  lemma LateCopyValid()
    ensures Valid(LateCopyProblem())
  {
  }

  lemma LateCopyFactless()
    ensures FactlessCalls(LateCopyProblem())
  {
  }

  lemma {:induction false} AppendDistinct<T>(q: seq<T>)
    requires NoDup(q)
    ensures AppendNew([], q) == q
  {
    if q != [] {
      var init := q[..|q| - 1];
      AppendDistinct(init);
      assert q == init + [q[|q| - 1]];
    }
  }

  lemma LateCopyQueue()
    ensures AppendNew([], Ends(LateCopyProblem().constraints)) == [2, 4, 0, 3]
  {
    hide AppendNew;
    var cs := LateCopyProblem().constraints;
    assert cs[..1] == [AddrOf(2, 4, 1)] && cs[..1][..0] == [];
    assert Ends(cs[..1]) == [2, 4];
    assert Ends(cs) == [2, 4, 0, 3];
    AppendDistinct<Node>([2, 4, 0, 3]);
  }

  lemma LateCopySets()
    ensures AddressSets(map[], LateCopyProblem().constraints) == map[2 := {1}, 0 := {0}]
  {
    var cs := LateCopyProblem().constraints;
    assert cs[..1] == [AddrOf(2, 4, 1)] && cs[..1][..0] == [];
    var none: map<Node, set<Loc>> := map[];
    assert AddressSets(none, []) == none && Held(none, 2) + {1} == {1};
    assert AddressSets(none, cs[..1]) == none[2 := {1}] == map[2 := {1}];
    var one: map<Node, set<Loc>> := map[2 := {1}];
    assert Held(one, 0) + {0} == {0} && one[0 := {0}] == map[2 := {1}, 0 := {0}];
  }

  /** Only what is held can be pending. */
  lemma NothingPending(p: Problem, st: State, n: Node)
    requires Wf(p, st) && P(st, n) == {}
    ensures D(st, n) == []
  {
    hide Watermarks, HoldersOk, SyncOk, Bounded;
    Inhabited(D(st, n));
  }

  /** What stays true once `g` has been popped: the object never leaves `g`, and
      only the function pointer can have anything pending. */
  ghost predicate LateCopyInv(st: State) {
    && st.pts == map[2 := {1}, 0 := {0}] && st.links == NO_LINKS && st.synced == map[]
    && (forall n :: n != 2 ==> D(st, n) == [])
    && (D(st, 2) == [] || st.constraints == LateCopyProblem().constraints)
  }

  lemma LateCopyIdle()
    ensures var p := LateCopyProblem();
      && (forall n :: Inert(p.constraints, n) && NoFields(p.constraints, n))
      && (forall n :: n != 2 ==> SitesAt(p, n) == [])
      && Hits(p, 2, 1, 0, 0) && Wires(p, 0, 0) == [ReturnedCopy(1, 0), Requeues(0)]
  {
  }

  /** Popping a node that is not the function pointer changes only the queue. */
  lemma LateCopyQuiet(st: State, st': State, node: Node, ls: seq<Loc>)
    requires LateCopyInv(st) && Taken1(st, st', node, ls)
    ensures LateCopyInv(st')
  {
    forall n ensures D(st', n) == if n == node then [] else D(st, n) {}
  }

  lemma LateCopySame(st: State, st': State)
    requires LateCopyInv(st) && SameSets(st.(delta := st.delta[2 := []]), st')
    ensures LateCopyInv(st')
  {
    forall n ensures D(st', n) == if n == 2 then [] else D(st, n) {}
  }

  /** A run of the solver from the start: `g` is popped before `fp`, so the copy
      from `g` to `x` joins when `g` has nothing left to pass on. The run
      converges with every invariant in place, and `x` lacks what `g` holds. */
  method LateCopyRun() returns (s: Solver.SolverState)
    ensures fresh(s) && s.p == LateCopyProblem() && s.sol == Least(s.p, true) && s.Ready() && s.worklist == []
    ensures Copy(1, 0) in s.constraints && Held(s.pts, 0) == {0} && Held(s.pts, 1) == {}
    ensures !Satisfies(s.p, AsSolution(s.View()), Copy(1, 0), false)
  {
    hide Valid, Least, FactlessCalls, AddressSets, Ends, AppendNew, Progress, Taken1, LateCopyInv, SameSets;
    LateCopyValid();
    LateCopyQueue();
    LateCopySets();
    var indices := BuildIndices(LateCopyProblem().constraints);
    s := new Solver.SolverState(LateCopyProblem(), indices);
    s.Seed();
    LateCopyPending(s);
    LateCopyFirst(s);
    LateCopyRest(s);
    LateCopyEnd(s);
  }

  /** Between seeding and the pop of `g`. */
  ghost predicate LateCopySeeded(st: State) {
    && st.pts == map[2 := {1}, 0 := {0}] && st.links == NO_LINKS && st.synced == map[]
    && (forall n :: n != 2 && n != 0 ==> D(st, n) == [])
    && st.constraints == LateCopyProblem().constraints
  }

  lemma LateCopyObject(st: State, st': State)
    requires LateCopySeeded(st) && Taken1(st, st', 3, []) && st.worklist == [2, 4, 0, 3]
    ensures LateCopySeeded(st') && st'.worklist == [2, 4, 0]
  {
    forall n ensures D(st', n) == if n == 3 then [] else D(st, n) {}
  }

  lemma LateCopySource(st: State, st': State, ls: seq<Loc>)
    requires LateCopySeeded(st) && Taken1(st, st', 0, ls)
    ensures LateCopyInv(st')
  {
    forall n ensures D(st', n) == if n == 0 then [] else D(st, n) {}
  }

  lemma LateCopyIdleNode(s: Solver.SolverState, n: Node)
    requires s.p == LateCopyProblem() && LateCopySeeded(s.View())
    ensures s.IdleNode(n)
  {
    LateCopyIdle();
  }

  /** The first two pops, of the object's node and of `g`. */
  method LateCopyFirst(s: Solver.SolverState)
    requires s.p == LateCopyProblem() && s.Ready()
    requires LateCopySeeded(s.View()) && s.worklist == [2, 4, 0, 3]
    modifies s
    ensures s.Ready() && LateCopyInv(s.View())
  {
    hide Progress, FactlessCalls, SameSets, Taken1, LateCopyInv, Closed, Seeded, Inert, NoFields, Wf, Below, Linked, OwnersOk, WiringOk, CallsWired, IsSolution, Valid;
    LateCopyIdle();
    ghost var st := s.View();
    assert D(st, 3) == [];
    var n := s.Pop();
    LateCopyObject(st, s.View());
    ghost var st1 := s.View();
    LateCopyIdleNode(s, 0);
    n := s.Pop();
    LateCopySource(st1, s.View(), D(st1, 0));
  }

  lemma LateCopyPending(s: Solver.SolverState)
    requires s.Ready() && s.pts == map[2 := {1}, 0 := {0}]
    ensures forall n :: n != 2 && n != 0 ==> D(s.View(), n) == []
  {
    hide Linked, OwnersOk, Below, Valid, IsSolution, Closed, Seeded, Wf;
    forall n | n != 2 && n != 0 ensures D(s.View(), n) == [] {
      NothingPending(s.p, s.View(), n);
    }
  }

  /** All the others, in whatever order they come. */
  method LateCopyRest(s: Solver.SolverState)
    requires s.p == LateCopyProblem() && s.Ready() && LateCopyInv(s.View())
    modifies s
    ensures s.Ready() && LateCopyInv(s.View()) && s.worklist == []
  {
    hide FactlessCalls, SameSets, Taken1, PtsLeft, MemLeft, CalleesLeft, WiredLeft;
    LateCopyIdle();
    LateCopyFactless();
    while s.worklist != []
      invariant s.Ready() && LateCopyInv(s.View())
      decreases PtsLeft(s.p, s.View()), MemLeft(s.p, s.View()), CalleesLeft(s.p, s.View()), WiredLeft(s.p, s.View()), |s.worklist|
    {
      ghost var st := s.View();
      var n := s.Pop();
      if D(st, n) == [] {
        LateCopyQuiet(st, s.View(), n, []);
      } else {
        LateCopySame(st, s.View());
      }
    }
  }

  /** The call was resolved, so the copy is there. */
  lemma LateCopyEnd(s: Solver.SolverState)
    requires s.p == LateCopyProblem() && s.Ready() && LateCopyInv(s.View()) && s.worklist == []
    ensures Copy(1, 0) in s.constraints && Held(s.pts, 0) == {0} && Held(s.pts, 1) == {}
    ensures !Satisfies(s.p, AsSolution(s.View()), Copy(1, 0), false)
  {
    hide Linked, OwnersOk, Below, Valid, IsSolution, Closed, Seeded, Wf, Satisfies, WiringOk;
    LateCopyJoined(s.View());
    LateCopyUnmet(s.View());
  }

  lemma LateCopyJoined(st: State)
    requires var p := LateCopyProblem(); Wf(p, st) && Closed(p, st) && CallsWired(p, st)
    requires LateCopyInv(st) && st.worklist == []
    ensures Copy(1, 0) in st.constraints
  {
    hide Closed, Wf, Drained;
    var p := LateCopyProblem();
    LateCopyIdle();
    WorklistDrained(p, st);
    DrainedCalled(p, st, 2, 1, 0, 0);
    assert CallOk(p, st, 0, 0) && WireOk(p, st, ReturnedCopy(1, 0));
  }

  lemma LateCopyUnmet(st: State)
    requires LateCopyInv(st)
    ensures P(st, 0) == {0} && P(st, 1) == {} && !Satisfies(LateCopyProblem(), AsSolution(st), Copy(1, 0), false)
  {
    AsSolutionIs(st);
    assert AsSolution(st).Pt(0, 0) && 0 in Passed(Copy(1, 0), 0) && !AsSolution(st).Pt(1, 0);
  }

  // ----- a lost store

  /** `f(q, v)`, where one model of `f` aliases its arguments and stores the second
      through the first, in either order. Both arguments are variables, nodes 0
      and 1, that point to an object each. */
  function StoreProblem(aliasFirst: bool): Problem {
    Problem(4, [Global, Global], map[], map[], map[], [AddrOf(0, 2, 0), AddrOf(1, 3, 1)], map[], map[], [], [(0, 0)],
            map[], map[], map[(0, 0) := if aliasFirst then [Aliased(0, 1), Content(0, 1)] else [Content(0, 1), Aliased(0, 1)]], map[])
  }

  lemma StoreValid(aliasFirst: bool)
    ensures Valid(StoreProblem(aliasFirst))
  {
  }

  lemma TwoEffects(a: Wire, b: Wire)
    requires PairOf(a) == PairOf(b) == Some((1, 0))
    ensures EffectsOf([a, b]) == [a, b] && FirstEffect([a, b], 1, 0) == Some(a)
  {
    var ws := [a, b];
    assert ws[..1] == [a] && ws[..1][..0] == [];
    assert EffectsOf(ws[..1]) == [a] && FirstEffect(ws[..1], 1, 0) == Some(a);
  }

  lemma StoreEffects(aliasFirst: bool)
    ensures var p := StoreProblem(aliasFirst);
      FirstEffect(CallEffects(p, p.direct), 1, 0) == Some(if aliasFirst then Aliased(0, 1) else Content(0, 1))
  {
    hide EffectsOf, FirstEffect;
    var p := StoreProblem(aliasFirst);
    var ws := Wires(p, 0, 0);
    TwoEffects(ws[0], ws[1]);
    assert ws == [ws[0], ws[1]];
    assert p.direct[..0] == [] && CallEffects(p, p.direct[..0]) == [];
    assert [] + ws == ws;
  }

  lemma NoSites(p: Problem)
    requires p.sites == map[]
    ensures forall cs, f :: !Analysis.MayCall(p, true, cs, f)
  {
  }

  /** Without indirect call sites no edge is found. */
  lemma NoneFound(p: Problem, r: Analysis.Outcome)
    requires p.sites == map[] && Analysis.Sound(p, r)
    ensures r.edges == p.direct
  {
    hide Analysis.MayCall, Least, IsSolution, Resolves, TakenIn;
    var found := Analysis.Found(p, r);
    forall e | e in found ensures Analysis.MayCall(p, true, e.0, e.1) {
      assert (e.0, e.1) in found;
    }
    Inhabited(found);
    NoSites(p);
    assert r.edges == p.direct + found;
  }

  /** The store joins exactly when it comes first: a model that aliases the two
      arguments before it stores loses the store. */
  method StoreRun(aliasFirst: bool) returns (r: Analysis.Outcome)
    ensures r.converged && r.edges == [(0, 0)]
    ensures Store(0, 1) in r.constraints <==> !aliasFirst
    ensures !aliasFirst ==> 1 in Lookup(r.memory, 0)
  {
    hide Valid, Analysis.Sound, Analysis.Complete, Analysis.CellsAgree, Analysis.NoSummaryFull, Analysis.Settles, HasFrom, FirstEffect, CallEffects;
    var p := StoreProblem(aliasFirst);
    StoreValid(aliasFirst);
    StoreEffects(aliasFirst);
    r := Analysis.Analyze(p, None);
    NoneFound(p, r);
    GivenKept(p, r);
    StoreThere(p, r, Store(0, 1));
    if !aliasFirst {
      StoreMade(p, r);
    }
  }

  lemma NoSummaries(p: Problem, r: Analysis.Outcome)
    requires p.summary == map[]
    ensures Analysis.NoSummaryFull(p, r.memory)
  {
  }

  /** A store in the final list has been made. */
  lemma StoreMade(p: Problem, r: Analysis.Outcome)
    requires p == StoreProblem(false) && r.converged && Store(0, 1) in r.constraints
    requires Analysis.NoSummaryFull(p, r.memory) ==> Analysis.Settles(p, r)
    ensures 1 in Lookup(r.memory, 0)
  {
    hide IsSolution;
    NoSummaries(p, r);
    var s := Analysis.Facts(r);
    assert s.Pt(0, 0) && s.Pt(1, 1) by { StoreAddresses(p, s); }
    assert Satisfies(p, s, Store(0, 1), false);
    assert StoreHolds(p, s, 0, 1) && Admits(p, 0, 1);
    assert s.Mem(0, 1);
  }

  lemma StoreAddresses(p: Problem, s: Solution)
    requires p == StoreProblem(false) && IsSolution(p, s, false)
    ensures s.Pt(0, 0) && s.Pt(1, 1)
  {
    hide Resolves, CallHolds, SyncHolds, TakenIn, Active, FlowHolds, Forwards, ForwardHolds;
    assert Satisfies(p, s, p.constraints[0], false) && Satisfies(p, s, p.constraints[1], false);
  }

  lemma StoreThere(p: Problem, r: Analysis.Outcome, c: Constraint)
    requires p.constraints <= r.constraints && c !in p.constraints
    ensures c in r.constraints <==> HasFrom(r.constraints, |p.constraints|, c)
  {
    var tail := r.constraints[|p.constraints|..];
    assert r.constraints == p.constraints + tail;
    if c in r.constraints {
      var j :| 0 <= j < |tail| && tail[j] == c;
      assert r.constraints[|p.constraints| + j] == c;
    }
  }

  lemma GivenKept(p: Problem, r: Analysis.Outcome)
    requires Analysis.Sound(p, r)
    ensures p.constraints <= r.constraints
  {
  }
}
