/** What a run of the solver establishes: it ends, and when the worklist drains
    the facts held are a solution of the rules. */
module Convergence {
  import opened Common
  import opened Rules
  import opened Kernel

  // ----- termination

  ghost function Pairs(m: nat, n: nat): set<(nat, nat)> {
    set x, y | 0 <= x < m && 0 <= y < n :: (x, y)
  }

  /** Points-to facts not learnt yet. */
  ghost function PtsLeft(p: Problem, st: State): set<(Node, Loc)> {
    set f | f in Pairs(p.nodes, |p.kinds|) && f.1 !in P(st, f.0)
  }

  ghost function MemLeft(p: Problem, st: State): set<(Loc, Loc)> {
    set f | f in Pairs(|p.kinds|, |p.kinds|) && f.1 !in M(st, f.0)
  }

  /** The callees the tables offer, and those not resolved yet. */
  ghost function AllCallees(p: Problem): set<(CallSite, FnId)> {
    set k, f | k in p.reached && f in p.reached[k] :: (k.0, f)
  }

  ghost function CalleesLeft(p: Problem, st: State): set<(CallSite, FnId)> {
    set e | e in AllCallees(p) && e.1 !in R(st, e.0)
  }

  ghost function WiredLeft(p: Problem, st: State): set<(Node, Node)> {
    set e | e in Pairs(p.nodes, p.nodes) && e !in st.links.wired
  }

  /** Less is left to learn, or the same is left and the queue is shorter. */
  ghost predicate Progress(p: Problem, st: State, st': State) {
    || PtsLeft(p, st') < PtsLeft(p, st)
    || (PtsLeft(p, st') == PtsLeft(p, st) && MemLeft(p, st') < MemLeft(p, st))
    || (PtsLeft(p, st') == PtsLeft(p, st) && MemLeft(p, st') == MemLeft(p, st) && CalleesLeft(p, st') < CalleesLeft(p, st))
    || (PtsLeft(p, st') == PtsLeft(p, st) && MemLeft(p, st') == MemLeft(p, st) && CalleesLeft(p, st') == CalleesLeft(p, st) &&
        WiredLeft(p, st') < WiredLeft(p, st))
    || (PtsLeft(p, st') == PtsLeft(p, st) && MemLeft(p, st') == MemLeft(p, st) && CalleesLeft(p, st') == CalleesLeft(p, st) &&
        WiredLeft(p, st') == WiredLeft(p, st) && |st'.worklist| < |st.worklist|)
  }

  lemma PtsProgress(p: Problem, st: State, st': State)
    requires Bounded(p, st') && forall n :: P(st, n) <= P(st', n)
    ensures PtsLeft(p, st') <= PtsLeft(p, st)
    ensures PtsLeft(p, st') == PtsLeft(p, st) ==> forall n :: P(st, n) == P(st', n)
  {
    forall f | f in PtsLeft(p, st') ensures f in PtsLeft(p, st) {
      assert P(st, f.0) <= P(st', f.0);
    }
    if PtsLeft(p, st') == PtsLeft(p, st) {
      forall n: Node, x: Loc | x in P(st', n) ensures x in P(st, n) {
        assert (n, x) in Pairs(p.nodes, |p.kinds|);
        assert (n, x) !in PtsLeft(p, st');
      }
      forall n ensures P(st, n) == P(st', n) {
        assert P(st, n) <= P(st', n);
      }
    }
  }

  lemma PrefixOfAll<T>(s: seq<T>, t: seq<T>)
    requires s <= t && NoDup(t) && forall k :: 0 <= k < |t| ==> t[k] in s
    ensures s == t
  {
    if t != [] {
      var k := |t| - 1;
      assert t[k] in s;
      var j :| 0 <= j < |s| && s[j] == t[k];
      assert t[j] == t[k];
    }
  }

  lemma MemProgress(p: Problem, st: State, st': State)
    requires Bounded(p, st') && (forall l :: NoDup(M(st', l))) && forall l :: M(st, l) <= M(st', l)
    ensures MemLeft(p, st') <= MemLeft(p, st)
    ensures MemLeft(p, st') == MemLeft(p, st) ==> forall l :: M(st, l) == M(st', l)
  {
    forall f | f in MemLeft(p, st') ensures f in MemLeft(p, st) {
      assert M(st, f.0) <= M(st', f.0);
    }
    if MemLeft(p, st') == MemLeft(p, st) {
      forall l: Loc ensures M(st, l) == M(st', l) {
        assert M(st, l) <= M(st', l) && NoDup(M(st', l));
        forall k | 0 <= k < |M(st', l)| ensures M(st', l)[k] in M(st, l) {
          var x := M(st', l)[k];
          assert x in M(st', l);
          assert (l, x) in Pairs(|p.kinds|, |p.kinds|) && (l, x) !in MemLeft(p, st');
        }
        PrefixOfAll(M(st, l), M(st', l));
      }
    }
  }

  lemma WiredProgress(p: Problem, st: State, st': State)
    requires st.links.wired <= st'.links.wired && WiringOk(p, st')
    ensures WiredLeft(p, st') <= WiredLeft(p, st)
    ensures WiredLeft(p, st') == WiredLeft(p, st) ==> st'.links.wired <= st.links.wired
  {
    if WiredLeft(p, st') == WiredLeft(p, st) {
      forall e | e in st'.links.wired ensures e in st.links.wired {
        assert e == (e.0, e.1) && Joins(p, st', e.0, e.1);
        assert e in Pairs(p.nodes, p.nodes) && e !in WiredLeft(p, st');
      }
    }
  }

  /** One pop: either something was learnt, a callee found or an argument wired,
      or the popped node is gone and nothing was queued. */
  lemma PopProgress(p: Problem, st: State, st1: State, st': State)
    requires (forall n :: P(st1, n) == P(st, n)) && (forall l :: M(st1, l) == M(st, l)) && st1.resolved == st.resolved && st1.links == st.links
    requires |st1.worklist| < |st.worklist|
    requires Ext(p, st1, st', {}) && Quiet(st1, st')
    requires Bounded(p, st') && (forall l :: NoDup(M(st', l)))
    requires WiringOk(p, st')
    ensures Progress(p, st, st')
  {
    forall n ensures P(st, n) <= P(st', n) { assert P(st1, n) <= P(st', n); }
    forall l ensures M(st, l) <= M(st', l) { assert M(st1, l) <= M(st', l); }
    forall cs ensures R(st, cs) <= R(st', cs) { assert R(st1, cs) <= R(st', cs); }
    PtsProgress(p, st, st');
    MemProgress(p, st, st');
    CalleesProgress(p, st, st');
    WiredProgress(p, st, st');
    hide Owns, LinksGrow, Called, WiringOk;
    if PtsLeft(p, st') == PtsLeft(p, st) && MemLeft(p, st') == MemLeft(p, st) && CalleesLeft(p, st') == CalleesLeft(p, st) &&
      WiredLeft(p, st') == WiredLeft(p, st)
    {
      assert SameFacts(st1, st');
    }
  }

  lemma CalleesProgress(p: Problem, st: State, st': State)
    requires forall cs :: R(st, cs) <= R(st', cs)
    requires forall cs, f :: f in R(st', cs) ==> Called(p, st', cs, f)
    ensures CalleesLeft(p, st') <= CalleesLeft(p, st)
    ensures CalleesLeft(p, st') == CalleesLeft(p, st) ==> forall cs, f :: f in R(st', cs) ==> f in R(st, cs)
  {
    forall e | e in CalleesLeft(p, st') ensures e in CalleesLeft(p, st) {
      assert R(st, e.0) <= R(st', e.0);
    }
    if CalleesLeft(p, st') == CalleesLeft(p, st) {
      forall cs: CallSite, f: FnId | f in R(st', cs) ensures f in R(st, cs) {
        Offered(p, st', cs, f);
        assert (cs, f) !in CalleesLeft(p, st');
      }
    }
  }

  lemma Offered(p: Problem, st: State, cs: CallSite, f: FnId)
    requires Called(p, st, cs, f)
    ensures (cs, f) in AllCallees(p)
  {
    var t, l :| l in P(st, t) && Hits(p, t, l, cs, f);
    assert (cs, l) in p.reached && f in p.reached[(cs, l)];
  }

  // ----- the drained state

  /** What seeding establishes once and for all. */
  ghost predicate Seeded(p: Problem, st: State) {
    && (forall k :: 0 <= k < |p.direct| ==> CallOk(p, st, p.direct[k].0, p.direct[k].1))
    && (forall k :: 0 <= k < |p.seeds| ==> p.seeds[k].1 in P(st, p.seeds[k].0))
    && (forall c :: c in p.ownCell && Taken(p, c) ==> c in st.owner)
  }

  lemma SeededStays(p: Problem, st: State, st': State)
    requires Seeded(p, st)
    requires (forall n :: P(st, n) <= P(st', n)) && st.owner.Keys <= st'.owner.Keys
    requires MoreLinks(st.links, st'.links) && st.constraints <= st'.constraints
    ensures Seeded(p, st')
  {
    forall w | WireOk(p, st, w) ensures WireOk(p, st', w) { WireStays(p, st, st', w); }
    forall k | 0 <= k < |p.direct| ensures CallOk(p, st', p.direct[k].0, p.direct[k].1) {
      assert CallOk(p, st, p.direct[k].0, p.direct[k].1);
    }
    forall k | 0 <= k < |p.seeds| ensures p.seeds[k].1 in P(st', p.seeds[k].0) {
      assert P(st, p.seeds[k].0) <= P(st', p.seeds[k].0);
    }
    forall c | c in p.ownCell && Taken(p, c) ensures c in st'.owner { assert c in st.owner.Keys; }
  }

  /** Nothing has been popped yet. */
  ghost predicate Unsettled(st: State) {
    forall n, l :: !Settled(st, n, l)
  }

  lemma UnsettledStays(p: Problem, st: State, st': State, d: set<Loc>)
    requires Unsettled(st) && Ext(p, st, st', d)
    ensures Unsettled(st')
  {
    forall n, l ensures !Settled(st', n, l) {
      assert !Settled(st, n, l);
    }
  }

  /** Before the first pop nothing is owed, once every address is in place. */
  lemma UnsettledClosed(p: Problem, st: State)
    requires Unsettled(st) && CellsLifted(p, st)
    requires forall i :: 0 <= i < |st.constraints| && st.constraints[i].AddrOf? ==> st.constraints[i].loc in P(st, st.constraints[i].dst)
    ensures Closed(p, st)
  {
  }

  ghost function AsSolution(st: State): Solution {
    Solution(iset f: (Node, Loc) | f.1 in P(st, f.0), iset f: (Loc, Loc) | f.1 in M(st, f.0))
  }

  lemma AsSolutionIs(st: State)
    ensures forall n, x :: AsSolution(st).Pt(n, x) <==> x in P(st, n)
    ensures forall l, x :: AsSolution(st).Mem(l, x) <==> x in M(st, l)
  {
  }

  /** No summary dropped a write. */
  ghost predicate BelowCap(p: Problem, st: State) {
    forall l :: l in p.summary ==> |M(st, p.summary[l])| < SUMMARY_MEM_CAP
  }

  /** Nothing is pending. */
  ghost predicate Drained(st: State) {
    forall n :: D(st, n) == []
  }

  lemma WorklistDrained(p: Problem, st: State)
    requires Wf(p, st) && st.worklist == []
    ensures Drained(st)
  {
    hide Watermarks, HoldersOk, SyncOk, Bounded;
    forall n ensures D(st, n) == [] {
      Inhabited(D(st, n));
    }
  }

  /** In a drained state every constraint is satisfied, those added while solving
      included, except for copies: one holds exactly when all it owed when it
      was added has reached its destination by now. */
  lemma DrainedSatisfies(p: Problem, st: State, i: nat)
    requires Closed(p, st) && Drained(st) && BelowCap(p, st) && OwedHeld(st, 0) && i < |st.constraints|
    ensures var c := st.constraints[i];
      Satisfies(p, AsSolution(st), c, false) <==> (c.Copy? ==> Owed(st, i) <= P(st, c.dst))
  {
    hide Closed, Drained, BelowCap, OwedHeld;
    if st.constraints[i].Copy? {
      DrainedCopy(p, st, i);
    } else {
      DrainedOther(p, st, i);
    }
  }

  /** Whatever the source of a copy gains after the copy was added, and whatever
      it had yet to propagate then, arrives. */
  lemma DrainedDelivers(p: Problem, st: State, i: nat, l: Loc)
    requires Closed(p, st) && Drained(st) && i < |st.constraints| && st.constraints[i].Copy?
    requires l in P(st, st.constraints[i].src) && l !in Owed(st, i)
    ensures l in P(st, st.constraints[i].dst)
  {
    assert Ob(p, st, st.constraints[i], l);
    assert D(st, st.constraints[i].src) == [];
    assert l in Passed(st.constraints[i], l);
  }

  lemma DrainedCopy(p: Problem, st: State, i: nat)
    requires Closed(p, st) && Drained(st) && OwedHeld(st, 0) && i < |st.constraints| && st.constraints[i].Copy?
    ensures FlowHolds(AsSolution(st), st.constraints[i]) <==> Owed(st, i) <= P(st, st.constraints[i].dst)
  {
    hide Closed, Drained;
    var s, c := AsSolution(st), st.constraints[i];
    AsSolutionIs(st);
    if Owed(st, i) <= P(st, c.dst) {
      forall l, y | s.Pt(c.src, l) && y in Passed(c, l) ensures s.Pt(c.dst, y) {
        if l !in Owed(st, i) { DrainedDelivers(p, st, i, l); }
      }
    }
    if FlowHolds(s, c) {
      forall l | l in Owed(st, i) ensures l in P(st, c.dst) {
        assert s.Pt(c.src, l) && l in Passed(c, l);
      }
    }
  }

  lemma DrainedOther(p: Problem, st: State, i: nat)
    requires Closed(p, st) && Drained(st) && BelowCap(p, st) && i < |st.constraints| && !st.constraints[i].Copy?
    ensures Satisfies(p, AsSolution(st), st.constraints[i], false)
  {
    var s, c := AsSolution(st), st.constraints[i];
    AsSolutionIs(st);
    forall n, l ensures Settled(st, n, l) <==> l in P(st, n) { assert D(st, n) == []; }
    match c
    case AddrOf(dst, _, loc) =>
      assert Ob(p, st, st.constraints[i], 0);
    case Load(dst, src) =>
      forall l | s.Pt(src, l) ensures LoadHolds(p, s, dst, l) {
        assert Ob(p, st, st.constraints[i], l);
      }
    case Store(dst, src) =>
      forall l, x | s.Pt(dst, l) && s.Pt(src, x) ensures StoreHolds(p, s, l, x) {
        assert ObStore(p, st, st.constraints[i], l, x);
      }
      if src in p.selfLoc {
        forall l | s.Pt(dst, l) ensures SelfHolds(p, s, l, p.selfLoc[src]) {
          assert Ob(p, st, st.constraints[i], l);
        }
      }
    case Copy(_, _) =>
    case _ =>
      forall l, y | s.Pt(c.src, l) && y in Passed(c, l) ensures s.Pt(c.dst, y) {
        assert Ob(p, st, st.constraints[i], l);
      }
  }

  /** Everything the first node of a joined pair holds is in the second. */
  lemma DrainedJoins(p: Problem, st: State, a: Node, m: Node)
    requires Closed(p, st) && Drained(st) && OwedHeld(st, 0) && Joins(p, st, a, m)
    ensures FlowHolds(AsSolution(st), Copy(m, a))
  {
    hide Closed, Drained, OwedHeld;
    var i :| CopyAt(st, i, a, m);
    DrainedCopy(p, st, i);
  }

  /** A wire in place holds. */
  lemma DrainedWire(p: Problem, st: State, w: Wire)
    requires Closed(p, st) && Drained(st) && BelowCap(p, st) && WiringOk(p, st) && WireOk(p, st, w)
    ensures WireHolds(p, AsSolution(st), w, false)
  {
    hide Closed, Drained, BelowCap, Joins;
    AsSolutionIs(st);
    match w
    case Param(a, m, persistent) =>
      if persistent { DrainedJoins(p, st, a, m); }
    case Content(q, v) =>
      if !Clash(p, q, v) {
        assert Modelled(p, st, v, q);
        var i :| 0 <= i < |st.constraints| && st.constraints[i] == Store(q, v);
        DrainedSatisfies(p, st, i);
      }
    case _ =>
  }

  lemma DrainedWired(p: Problem, st: State, cs: CallSite, f: FnId)
    requires Closed(p, st) && Drained(st) && BelowCap(p, st) && WiringOk(p, st) && CallOk(p, st, cs, f)
    ensures CallHolds(p, AsSolution(st), cs, f, false)
  {
    hide Closed, Drained, BelowCap, WiringOk, WireOk, WireHolds;
    forall w | w in Wires(p, cs, f) ensures WireHolds(p, AsSolution(st), w, false) {
      DrainedWire(p, st, w);
    }
  }

  /** Whatever call the facts resolve has all its wires in place. */
  lemma DrainedResolved(p: Problem, st: State, cs: CallSite, f: FnId)
    requires Closed(p, st) && Drained(st) && CallsWired(p, st) && Seeded(p, st) && Resolves(p, AsSolution(st), cs, f)
    ensures CallOk(p, st, cs, f)
  {
    hide Closed, Drained, CallOk;
    AsSolutionIs(st);
    if (cs, f) in p.direct {
      var k :| 0 <= k < |p.direct| && p.direct[k] == (cs, f);
      assert CallOk(p, st, p.direct[k].0, p.direct[k].1);
    } else {
      var t, l :| AsSolution(st).Pt(t, l) && Hits(p, t, l, cs, f);
      DrainedCalled(p, st, t, l, cs, f);
    }
  }

  lemma DrainedActive(p: Problem, st: State, w: Wire)
    requires Closed(p, st) && Drained(st) && CallsWired(p, st) && Seeded(p, st) && Active(p, AsSolution(st), w)
    ensures WireOk(p, st, w)
  {
    hide Closed, Drained, Resolves, WireOk, Seeded, CallsWired;
    var cs, f :| Resolves(p, AsSolution(st), cs, f) && w in Wires(p, cs, f);
    DrainedResolved(p, st, cs, f);
  }

  /** A cell whose address the facts take is kept in step. */
  lemma DrainedTaken(p: Problem, st: State, cell: Loc)
    requires Closed(p, st) && Drained(st) && CallsWired(p, st) && Seeded(p, st)
    requires cell in p.ownCell && TakenIn(p, AsSolution(st), cell)
    ensures cell in st.owner
  {
    hide Closed, Drained, Active, CallsWired;
    if !Taken(p, cell) {
      var d, r :| Active(p, AsSolution(st), Returned(d, r, cell));
      DrainedActive(p, st, Returned(d, r, cell));
    }
  }

  lemma DrainedSync(p: Problem, st: State, cell: Loc)
    requires Closed(p, st) && Drained(st) && SyncOk(p, st) && cell in st.owner
    ensures cell in p.ownCell && SyncHolds(p, AsSolution(st), cell, p.ownCell[cell])
  {
    AsSolutionIs(st);
    var n := st.owner[cell];
    assert n == p.ownCell[cell] && st.synced[n] == cell;
    forall x | x in P(st, n) && Admits(p, cell, x) ensures x in M(st, cell) {
      assert ObSync(p, st, n, x);
      assert D(st, n) == [];
    }
    assert LiftedTo(p, st, cell, n);
  }

  lemma DrainedEvents(p: Problem, st: State, a: Node, b: Node)
    requires Closed(p, st) && Drained(st) && BelowCap(p, st) && WiringOk(p, st) && CallsWired(p, st) && Seeded(p, st)
    requires Active(p, AsSolution(st), Registers(a)) && Active(p, AsSolution(st), Waits(b))
    ensures FlowHolds(AsSolution(st), Copy(b, a))
  {
    hide Closed, Drained, BelowCap, Active, CallsWired, Seeded, Joins;
    DrainedActive(p, st, Registers(a));
    DrainedActive(p, st, Waits(b));
    DrainedJoins(p, st, a, b);
  }

  /** Every function a watched variable holds has its forwarded arguments. */
  lemma DrainedForwards(p: Problem, st: State, k: Handover, l: Loc)
    requires Closed(p, st) && Drained(st) && BelowCap(p, st) && WiringOk(p, st) && CallsWired(p, st) && Seeded(p, st)
    requires Forwards(p, AsSolution(st), k, l)
    ensures ForwardHolds(p, AsSolution(st), k, l, false)
  {
    hide Closed, Drained, BelowCap, Active, CallsWired, Seeded, WiringOk, WireHolds, WireOk;
    AsSolutionIs(st);
    var n :| Active(p, AsSolution(st), Watches(n, k)) && AsSolution(st).Pt(n, l);
    DrainedActive(p, st, Watches(n, k));
    DrainedWatch(p, st, n, k, l);
    forall w | w in Forwarded(p, k, l) ensures WireHolds(p, AsSolution(st), w, false) {
      DrainedWire(p, st, w);
    }
  }

  lemma DrainedWatch(p: Problem, st: State, n: Node, k: Handover, l: Loc)
    requires Closed(p, st) && Drained(st) && WireOk(p, st, Watches(n, k)) && l in P(st, n) && IsFn(p, l)
    ensures ForwardOk(p, st, k, l)
  {
    hide ForwardOk, Ob, ObStore, ObSync, ObCall, CellsLifted;
    var j :| 0 <= j < |st.links.watch| && st.links.watch[j] == (n, k);
    assert ObWatch(p, st, st.links.watch[j].0, st.links.watch[j].1, l);
    assert D(st, n) == [];
  }

  lemma GivenOwesNot(p: Problem, st: State)
    requires WiringOk(p, st)
    ensures OwingAdded(p, st)
  {
  }

  /** When the worklist drains, the facts held satisfy every rule. */
  lemma DrainedIsSolution(p: Problem, st: State)
    requires Wf(p, st) && Closed(p, st) && WiringOk(p, st) && CallsWired(p, st) && Seeded(p, st) && Joined(p, st.constraints)
    requires st.worklist == [] && BelowCap(p, st)
    ensures IsSolution(p, AsSolution(st), false)
  {
    hide Closed, WiringOk, CallsWired, CallHolds, SyncHolds, Satisfies, BelowCap, TakenIn, Drained, Resolves, Active, FlowHolds, Forwards, ForwardHolds;
    hide Bounded, DeltaOk, QueueOk, HoldersOk, Watermarks, SyncOk, CallOk, Taken;
    var s := AsSolution(st);
    GivenOwesNot(p, st);
    WorklistDrained(p, st);
    forall i | 0 <= i < |p.constraints| ensures Satisfies(p, s, p.constraints[i], false) {
      assert st.constraints[i] == p.constraints[i];
      DrainedSatisfies(p, st, i);
    }
    forall cell | cell in p.ownCell && TakenIn(p, s, cell) ensures SyncHolds(p, s, cell, p.ownCell[cell]) {
      DrainedTaken(p, st, cell);
      DrainedSync(p, st, cell);
    }
    AsSolutionIs(st);
    forall cs, f | Resolves(p, s, cs, f) ensures CallHolds(p, s, cs, f, false) {
      DrainedResolved(p, st, cs, f);
      DrainedWired(p, st, cs, f);
    }
    forall a, b | Active(p, s, Registers(a)) && Active(p, s, Waits(b)) ensures FlowHolds(s, Copy(b, a)) {
      DrainedEvents(p, st, a, b);
    }
    forall k, l | Forwards(p, s, k, l) ensures ForwardHolds(p, s, k, l, false) {
      DrainedForwards(p, st, k, l);
    }
  }

  lemma DrainedCalled(p: Problem, st: State, t: Node, l: Loc, cs: CallSite, f: FnId)
    requires Closed(p, st) && Drained(st) && l in P(st, t) && Hits(p, t, l, cs, f)
    ensures f in R(st, cs)
  {
    assert ObCall(p, st, t, l);
    assert D(st, t) == [];
  }
}
