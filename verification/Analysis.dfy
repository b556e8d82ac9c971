/** A whole analysis run and what its result means in terms of the rules. */
module Analysis {
  import opened Common
  import opened Rules
  import opened Kernel
  import opened Indices
  import opened Convergence
  import opened Steps
  import Solver

  /** What a run leaves behind: the facts, the constraint list as it has grown,
      the addresses taken, and the call edges, first those of direct calls and
      then those found through pointers. */
  datatype Outcome = Outcome(
    pts: map<Node, set<Loc>>,
    memory: map<Loc, seq<Loc>>,
    constraints: seq<Constraint>,
    taken: set<Loc>,
    edges: seq<(CallSite, FnId)>,
    converged: bool,
    pops: nat)

  /** The facts of an outcome, read as relations. */
  ghost function Facts(r: Outcome): Solution {
    Solution(iset f: (Node, Loc) | f.1 in Held(r.pts, f.0), iset f: (Loc, Loc) | f.1 in Lookup(r.memory, f.0))
  }

  /** Some function location every solution gives the target of `cs` makes `f`
      its callee. */
  ghost predicate MayCall(p: Problem, full: bool, cs: CallSite, f: FnId) {
    exists t, l :: InPts(p, full, t, l) && Hits(p, t, l, cs, f)
  }

  /** The call edges found through pointers. */
  ghost function Found(p: Problem, r: Outcome): seq<(CallSite, FnId)> {
    if |p.direct| <= |r.edges| then r.edges[|p.direct|..] else []
  }

  /** Every fact and every call edge lies in every solution of the full rules,
      and the rules take every address taken. */
  ghost predicate Sound(p: Problem, r: Outcome) {
    && (forall n, x :: x in Held(r.pts, n) ==> InPts(p, true, n, x))
    && (forall l, x :: x in Lookup(r.memory, l) ==> InMem(p, true, l, x))
    && (forall c :: c in r.taken ==> TakenIn(p, Least(p, true), c))
    && p.constraints <= r.constraints
    && p.direct <= r.edges && NoDup(Found(p, r))
    && (forall cs: CallSite, f: FnId :: (cs, f) in Found(p, r) ==> MayCall(p, true, cs, f))
    && (forall cs: CallSite, f: FnId :: (cs, f) in r.edges ==> Resolves(p, Least(p, true), cs, f))
  }

  /** Everything the core rules derive is there. */
  ghost predicate Complete(p: Problem, r: Outcome) {
    && (forall n, x :: InPts(p, false, n, x) ==> x in Held(r.pts, n))
    && (forall l, x :: InMem(p, false, l, x) ==> x in Lookup(r.memory, l))
    && (forall cs: CallSite, f: FnId :: MayCall(p, false, cs, f) ==> (cs, f) in Found(p, r))
    && (forall cs: CallSite, f: FnId :: Resolves(p, Least(p, false), cs, f) ==> (cs, f) in r.edges)
  }

  ghost predicate NoSummaryFull(p: Problem, memory: map<Loc, seq<Loc>>) {
    forall l :: l in p.summary ==> |Lookup(memory, p.summary[l])| < SUMMARY_MEM_CAP
  }

  /** A pointer variable whose address was taken, by the program text or by a
      callee that was found to return it, holds the same admitted values as its
      cell, and no such address is missing. */
  ghost predicate CellsAgree(p: Problem, r: Outcome) {
    && (forall c, x :: c in p.ownCell && c in r.taken && Admits(p, c, x) ==>
          (x in Held(r.pts, p.ownCell[c]) <==> x in Lookup(r.memory, c)))
    && (forall c :: c in p.ownCell && TakenIn(p, Facts(r), c) ==> c in r.taken)
  }

  /** The facts satisfy every core rule, which includes the copies that were
      seeded, and every constraint of the final list that is not a copy. */
  ghost predicate Settles(p: Problem, r: Outcome) {
    && IsSolution(p, Facts(r), false)
    && (forall i :: 0 <= i < |r.constraints| && !r.constraints[i].Copy? ==> Satisfies(p, Facts(r), r.constraints[i], false))
  }

  /** Of the model effects on one pair of arguments, in the order of the call
      edges, the first decides what joined: a store exactly if it is a content
      store, a copy if it is an alias. */
  ghost predicate FirstDecides(p: Problem, r: Outcome) {
    && (forall v: Node, q: Node :: HasFrom(r.constraints, |p.constraints|, Store(q, v)) <==>
          FirstEffect(CallEffects(p, r.edges), v, q) == Some(Content(q, v)))
    && (forall v: Node, q: Node :: FirstEffect(CallEffects(p, r.edges), v, q) == Some(Aliased(q, v)) ==>
          HasFrom(r.constraints, |p.constraints|, Copy(q, v)))
  }

  /** Every constraint added is one that some call of the full rules asks for:
      an argument only if it is passed for good. */
  ghost predicate Accounted(p: Problem, r: Outcome) {
    forall i :: |p.constraints| <= i < |r.constraints| ==> Due(p, Least(p, true), r.constraints[i])
  }

  /** A field access none of whose base's locations has a cell for it points at
      the summary of its declared type; one through a base that points nowhere
      does. */
  ghost predicate FallsBack(p: Problem, r: Outcome) {
    forall i :: 0 <= i < |p.constraints| && p.constraints[i].Gep? && p.constraints[i].fallback.Some? && NoCellAt(r, p.constraints[i]) ==>
      p.constraints[i].fallback.value in Held(r.pts, p.constraints[i].dst)
  }

  ghost predicate NoCellAt(r: Outcome, c: Constraint)
    requires c.Gep?
  {
    forall l :: l in Held(r.pts, c.src) ==> Lookup(c.cells, l) == []
  }

  /** Of every call found, whatever the order: the formals hold the addresses
      assigned to their actuals, also where they took no more than a snapshot,
      and the variables the callee returns have been copied from. */
  ghost predicate Served(p: Problem, r: Outcome) {
    forall cs: CallSite, f: FnId, w :: (cs, f) in r.edges && w in Wires(p, cs, f) ==>
      && (w.Param? ==> forall i :: 0 <= i < |p.constraints| && p.constraints[i].AddrOf? && p.constraints[i].dst == w.actual ==>
            p.constraints[i].loc in Held(r.pts, w.formal))
      && (w.ReturnedCopy? ==> Copy(w.dst, w.src) in r.constraints)
  }

  method Analyze(p: Problem, budget: Option<nat>) returns (r: Outcome)
    requires Valid(p)
    ensures Sound(p, r) && FirstDecides(p, r) && Accounted(p, r)
    ensures r.converged ==> CellsAgree(p, r) && FallsBack(p, r) && Served(p, r)
    ensures r.converged && NoSummaryFull(p, r.memory) ==> Complete(p, r) && Settles(p, r)
    ensures !r.converged ==> budget.Some? && r.pops == budget.value
    ensures budget == None ==> r.converged
  {
    hide Valid, IsSolution, Least, Sound, Complete, CellsAgree, NoSummaryFull, Settles, FirstDecides, CallEffects, EffectsOk;
    hide FallsBack, Served, FallsOk, Due;
    hide Wf, Below, Closed, Seeded, WiringOk, CallsWired, Linked, OwnersOk, TakenIn;
    var indices := BuildIndices(p.constraints);
    var st := new Solver.SolverState(p, indices);
    st.Seed();
    var converged, pops := st.Run(budget);
    r := Outcome(st.pts, st.memory, st.constraints, st.addrTaken, p.direct + st.edges, converged, pops);
    assert Found(p, r) == st.edges;
    RunSound(p, st.View(), r);
    ModelsDecide(p, r, st.links.model, st.effects);
    if converged {
      st.ListsOk();
      RunComplete(p, st.View(), r);
      RunFallsBack(p, st.View(), st.seenOnce, r);
      RunServed(p, st.View(), r);
    }
  }

  lemma ModelsDecide(p: Problem, r: Outcome, model: set<(Node, Node)>, effects: seq<Wire>)
    requires EffectsOk(p, r.constraints, model, effects) && effects == CallEffects(p, r.edges)
    ensures FirstDecides(p, r)
  {
    hide HasFrom, FirstEffect, CallEffects;
  }

  lemma RunSound(p: Problem, st: State, r: Outcome)
    requires Below(st, Least(p, true)) && p.direct <= r.edges && NoDup(Found(p, r))
    requires forall cs: CallSite, f: FnId :: (cs, f) in Found(p, r) ==> Called(p, st, cs, f)
    requires r.pts == st.pts && r.memory == st.memory && p.constraints <= r.constraints
    requires forall c :: c in r.taken ==> TakenIn(p, Least(p, true), c)
    ensures Sound(p, r)
  {
    forall n, x | x in Held(r.pts, n) ensures InPts(p, true, n, x) {
      assert x in P(st, n);
      assert Least(p, true).Pt(n, x);
    }
    forall l, x | x in Lookup(r.memory, l) ensures InMem(p, true, l, x) {
      assert x in M(st, l);
      assert Least(p, true).Mem(l, x);
    }
    forall cs: CallSite, f: FnId | (cs, f) in Found(p, r) ensures MayCall(p, true, cs, f) {
      var t, l :| l in P(st, t) && Hits(p, t, l, cs, f);
      assert l in Held(r.pts, t);
    }
    forall cs: CallSite, f: FnId | (cs, f) in r.edges ensures Resolves(p, Least(p, true), cs, f) {
      EdgeSplits(p, r, cs, f);
      ResolvesIff(p, true, cs, f);
    }
  }

  /** A call resolves when it is direct or some function reaches its target. */
  lemma ResolvesIff(p: Problem, full: bool, cs: CallSite, f: FnId)
    ensures Resolves(p, Least(p, full), cs, f) <==> (cs, f) in p.direct || MayCall(p, full, cs, f)
  {
    hide IsSolution;
    if MayCall(p, full, cs, f) {
      var t, l :| InPts(p, full, t, l) && Hits(p, t, l, cs, f);
      assert Least(p, full).Pt(t, l);
    }
  }

  lemma EdgeSplits(p: Problem, r: Outcome, cs: CallSite, f: FnId)
    requires p.direct <= r.edges
    ensures (cs, f) in r.edges <==> (cs, f) in p.direct || (cs, f) in Found(p, r)
  {
    assert r.edges == p.direct + Found(p, r);
  }

  lemma RunComplete(p: Problem, st: State, r: Outcome)
    requires Wf(p, st) && Closed(p, st) && WiringOk(p, st) && CallsWired(p, st) && Seeded(p, st) && Joined(p, st.constraints)
    requires st.worklist == []
    requires r.pts == st.pts && r.memory == st.memory && r.constraints == st.constraints
    requires forall c :: c in p.ownCell && c in r.taken ==> c in st.owner
    requires forall c :: c in st.owner ==> c in r.taken
    requires p.direct <= r.edges && forall cs: CallSite, f: FnId :: (cs, f) in Found(p, r) <==> f in R(st, cs)
    ensures CellsAgree(p, r)
    ensures NoSummaryFull(p, r.memory) ==> Complete(p, r) && Settles(p, r)
  {
    hide Closed, WiringOk, CallsWired, Joined, IsSolution, Wf, Seeded, TakenIn, Settles;
    WorklistDrained(p, st);
    FactsAre(st, r);
    forall c, x | c in p.ownCell && c in r.taken && Admits(p, c, x)
      ensures x in Held(r.pts, p.ownCell[c]) <==> x in Lookup(r.memory, c)
    {
      CellSynced(p, st, c, x);
    }
    forall c | c in p.ownCell && TakenIn(p, Facts(r), c) ensures c in r.taken {
      DrainedTaken(p, st, c);
    }
    if NoSummaryFull(p, r.memory) {
      assert BelowCap(p, st) by {
        forall l | l in p.summary ensures |M(st, p.summary[l])| < SUMMARY_MEM_CAP {
          assert |Lookup(r.memory, p.summary[l])| < SUMMARY_MEM_CAP;
        }
      }
      DrainedIsSolution(p, st);
      SolutionComplete(p, st, r);
      ConstraintsSettled(p, st, r);
    }
  }

  lemma RunFallsBack(p: Problem, st: State, seen: set<Node>, r: Outcome)
    requires FallsOk(p, st, seen) && Wf(p, st) && st.worklist == [] && r.pts == st.pts
    ensures FallsBack(p, r)
  {
    hide FallsOk, Wf;
    FallsDrained(p, st, seen);
    forall i | 0 <= i < |p.constraints| && p.constraints[i].Gep? && p.constraints[i].fallback.Some? && NoCellAt(r, p.constraints[i])
      ensures p.constraints[i].fallback.value in Held(r.pts, p.constraints[i].dst)
    {
      assert Fallen(st, p.constraints[i]);
    }
  }

  lemma RunServed(p: Problem, st: State, r: Outcome)
    requires CallsWired(p, st) && Seeded(p, st) && r.pts == st.pts && r.constraints == st.constraints
    requires p.direct <= r.edges && forall cs: CallSite, f: FnId :: (cs, f) in Found(p, r) <==> f in R(st, cs)
    ensures Served(p, r)
  {
    forall cs: CallSite, f: FnId | (cs, f) in r.edges ensures CallOk(p, st, cs, f) {
      EdgeServed(p, st, r, cs, f);
    }
    forall cs: CallSite, f: FnId, w | (cs, f) in r.edges && w in Wires(p, cs, f)
      ensures w.Param? ==> PassesAddresses(p, st, w.actual, w.formal)
      ensures w.ReturnedCopy? ==> Copy(w.dst, w.src) in r.constraints
    {
      assert CallOk(p, st, cs, f) && WireOk(p, st, w);
    }
  }

  lemma EdgeServed(p: Problem, st: State, r: Outcome, cs: CallSite, f: FnId)
    requires CallsWired(p, st) && Seeded(p, st) && p.direct <= r.edges && (cs, f) in r.edges
    requires (cs, f) in Found(p, r) ==> f in R(st, cs)
    ensures CallOk(p, st, cs, f)
  {
    hide CallOk;
    if (cs, f) in p.direct {
      var j :| 0 <= j < |p.direct| && p.direct[j] == (cs, f);
      assert CallOk(p, st, p.direct[j].0, p.direct[j].1);
    } else {
      assert r.edges == p.direct + Found(p, r);
    }
  }

  lemma FactsAre(st: State, r: Outcome)
    requires r.pts == st.pts && r.memory == st.memory
    ensures Facts(r) == AsSolution(st)
  {
    AsSolutionIs(st);
    var a, b := Facts(r), AsSolution(st);
    assert a.pts == b.pts by {
      forall f: (Node, Loc) ensures f in a.pts <==> f in b.pts { assert b.Pt(f.0, f.1) <==> f.1 in P(st, f.0); }
    }
    assert a.mem == b.mem by {
      forall f: (Loc, Loc) ensures f in a.mem <==> f in b.mem { assert b.Mem(f.0, f.1) <==> f.1 in M(st, f.0); }
    }
  }

  lemma ConstraintsSettled(p: Problem, st: State, r: Outcome)
    requires Closed(p, st) && Drained(st) && BelowCap(p, st) && WiringOk(p, st) && IsSolution(p, AsSolution(st), false)
    requires r.pts == st.pts && r.memory == st.memory && r.constraints == st.constraints
    ensures Settles(p, r)
  {
    hide Closed, Drained, BelowCap, Satisfies, IsSolution;
    FactsAre(st, r);
    forall i | 0 <= i < |r.constraints| && !r.constraints[i].Copy? ensures Satisfies(p, Facts(r), r.constraints[i], false) {
      DrainedOther(p, st, i);
    }
  }

  lemma CellSynced(p: Problem, st: State, c: Loc, x: Loc)
    requires Wf(p, st) && Closed(p, st) && Drained(st)
    requires c in st.owner && c in p.ownCell && Admits(p, c, x)
    ensures x in P(st, p.ownCell[c]) <==> x in M(st, c)
  {
    hide Closed, Bounded, DeltaOk, QueueOk, HoldersOk, Watermarks, Drained, SyncOk;
    DrainedSync(p, st, c);
    AsSolutionIs(st);
    assert AsSolution(st).Pt(p.ownCell[c], x) <==> x in P(st, p.ownCell[c]);
    assert AsSolution(st).Mem(c, x) <==> x in M(st, c);
  }

  lemma SolutionComplete(p: Problem, st: State, r: Outcome)
    requires IsSolution(p, AsSolution(st), false) && Closed(p, st) && Drained(st)
    requires r.pts == st.pts && r.memory == st.memory
    requires p.direct <= r.edges && forall cs: CallSite, f: FnId :: (cs, f) in Found(p, r) <==> f in R(st, cs)
    ensures Complete(p, r)
  {
    hide IsSolution, Closed, Drained;
    var s := AsSolution(st);
    AsSolutionIs(st);
    forall n, x | InPts(p, false, n, x) ensures x in P(st, n) {
      assert s.Pt(n, x);
    }
    forall l, x | InMem(p, false, l, x) ensures x in M(st, l) {
      assert s.Mem(l, x);
    }
    forall cs: CallSite, f: FnId | MayCall(p, false, cs, f) ensures (cs, f) in Found(p, r) {
      var t, l :| InPts(p, false, t, l) && Hits(p, t, l, cs, f);
      DrainedCalled(p, st, t, l, cs, f);
    }
    forall cs: CallSite, f: FnId | Resolves(p, Least(p, false), cs, f) ensures (cs, f) in r.edges {
      ResolvesIff(p, false, cs, f);
      EdgeSplits(p, r, cs, f);
    }
  }

  /** Without order-dependent parts a converged run is exactly the least solution:
      the same facts and call edges whatever order nodes and sets came in. */
  lemma Exact(p: Problem, r: Outcome)
    requires OrderFree(p) && Sound(p, r) && Complete(p, r)
    ensures forall n, x :: x in Held(r.pts, n) <==> InPts(p, true, n, x)
    ensures forall l, x :: x in Lookup(r.memory, l) <==> InMem(p, true, l, x)
    ensures forall cs: CallSite, f: FnId :: (cs, f) in r.edges <==> Resolves(p, Least(p, true), cs, f)
  {
    hide IsSolution, OrderFree;
    forall s ensures IsSolution(p, s, true) <==> IsSolution(p, s, false) {
      FullIsCore(p, s);
    }
    forall n, x ensures InPts(p, true, n, x) <==> InPts(p, false, n, x) {}
    forall l, x ensures InMem(p, true, l, x) <==> InMem(p, false, l, x) {}
    forall cs: CallSite, f: FnId ensures Resolves(p, Least(p, true), cs, f) <==> Resolves(p, Least(p, false), cs, f) {
      ResolvesIff(p, true, cs, f);
      ResolvesIff(p, false, cs, f);
    }
  }

  /** A run cut short by its budget holds nothing a converged one does not. */
  lemma CutIsContained(p: Problem, cut: Outcome, r: Outcome)
    requires OrderFree(p) && Sound(p, cut) && Sound(p, r) && Complete(p, r)
    ensures forall n :: Held(cut.pts, n) <= Held(r.pts, n)
    ensures forall l, x :: x in Lookup(cut.memory, l) ==> x in Lookup(r.memory, l)
    ensures forall cs: CallSite, f: FnId :: (cs, f) in cut.edges ==> (cs, f) in r.edges
  {
    Exact(p, r);
  }
}
