/** The write paths into a node's points-to set, as functions on the state: what
    a memory merge adds, what a load adds, and how the additions are committed. */
module Propagation {
  import opened Common
  import opened Rules
  import opened Kernel

  function AddHolder(holders: map<Loc, set<Node>>, l: Loc, n: Node): map<Loc, set<Node>> {
    holders[l := (if l in holders then holders[l] else {}) + {n}]
  }

  /** Index `gain` under its new holder. */
  function Indexed(holders: map<Loc, set<Node>>, gain: seq<Loc>, dst: Node): map<Loc, set<Node>> {
    if gain == [] then holders
    else AddHolder(Indexed(holders, gain[..|gain| - 1], dst), gain[|gain| - 1], dst)
  }

  lemma {:induction false} IndexedConcat(h: map<Loc, set<Node>>, dst: Node, xs: seq<Loc>, ys: seq<Loc>)
    ensures Indexed(Indexed(h, xs, dst), ys, dst) == Indexed(h, xs + ys, dst)
  {
    if ys == [] {
      assert xs + ys == xs;
    } else {
      IndexedConcat(h, dst, xs, ys[..|ys| - 1]);
      assert (xs + ys)[..|xs + ys| - 1] == xs + ys[..|ys| - 1];
    }
  }

  lemma {:induction false} IndexedAt(h: map<Loc, set<Node>>, dst: Node, gain: seq<Loc>, l: Loc)
    ensures var h' := Indexed(h, gain, dst);
      (if l in h' then h'[l] else {}) == (if l in h then h[l] else {}) + (if l in gain then {dst} else {})
  {
    if gain != [] {
      IndexedAt(h, dst, gain[..|gain| - 1], l);
      assert gain == gain[..|gain| - 1] + [gain[|gain| - 1]];
    }
  }

  /** The state after `gain`, just added to `pts[dst]`, is indexed, recorded for
      difference propagation and its node requeued. */
  function Committed(st: State, dst: Node, gain: seq<Loc>): State {
    if gain == [] then st
    else st.(
      holders := Indexed(st.holders, gain, dst),
      delta := st.delta[dst := AppendNew(D(st, dst), gain)],
      pending := st.pending + Marks(dst, gain),
      worklist := if dst in st.queued then st.worklist else st.worklist + [dst],
      queued := st.queued + {dst})
  }

  ghost predicate Gains(dst: Node, gain: seq<Loc>, n: Node, l: Loc) {
    n == dst && l in gain
  }

  /** `st1` is `st` after `gain` was added to `pts[dst]`, nothing else but the
      merge watermarks having changed. */
  ghost predicate Added(st: State, st1: State, dst: Node, gain: seq<Loc>) {
    && st1 == st.(pts := st1.pts, sizes := st1.sizes)
    && (forall n: Node, x: Loc :: x in P(st1, n) <==> x in P(st, n) || Gains(dst, gain, n, x))
    && (forall x :: x in gain ==> x !in P(st, dst))
  }

  lemma InsertAdds(st: State, st1: State, dst: Node, held: set<Loc>, gain: seq<Loc>)
    requires forall x :: x in gain ==> x !in P(st, dst)
    requires st1 == st.(pts := st.pts[dst := held])
    requires forall x :: x in held <==> x in P(st, dst) || x in gain
    ensures Added(st, st1, dst, gain)
    ensures forall n: Node, l: Loc :: l in P(st1, n) <==> l in P(st, n) || Gains(dst, gain, n, l)
  {
  }

  /** The same step read point by point, delta, index and queue included. */
  ghost predicate Grown(st: State, st': State, dst: Node, gain: seq<Loc>) {
    && (forall n: Node, l: Loc :: l in P(st', n) <==> l in P(st, n) || Gains(dst, gain, n, l))
    && (forall n: Node, l: Loc :: l in D(st', n) <==> l in D(st, n) || Gains(dst, gain, n, l))
    && (forall n :: NoDup(D(st, n)) ==> NoDup(D(st', n)))
    && (forall n: Node, l: Loc :: n in H(st', l) <==> n in H(st, l) || Gains(dst, gain, n, l))
    && (forall n: Node, l: Loc :: (n, l) in st'.pending <==> (n, l) in st.pending || Gains(dst, gain, n, l))
    && st'.queued == (if gain == [] then st.queued else st.queued + {dst})
    && st'.worklist == (if gain == [] || dst in st.queued then st.worklist else st.worklist + [dst])
    && st'.memory == st.memory && st'.constraints == st.constraints && st'.owing == st.owing
    && st'.synced == st.synced && st'.owner == st.owner && st'.resolved == st.resolved && st'.links == st.links
  }

  lemma CommittedDelta(st: State, dst: Node, gain: seq<Loc>, n: Node)
    ensures var st' := Committed(st, dst, gain);
      && (NoDup(D(st, n)) ==> NoDup(D(st', n)))
      && forall l :: l in D(st', n) <==> l in D(st, n) || Gains(dst, gain, n, l)
  {
    AppendNewGrows(D(st, dst), gain);
    var st' := Committed(st, dst, gain);
    if n == dst && gain != [] {
      assert D(st', n) == AppendNew(D(st, n), gain);
      forall l ensures l in D(st', n) <==> l in D(st, n) || l in gain {
        assert l in Elems(D(st', n)) <==> l in Elems(D(st, n)) + Elems(gain);
      }
    } else {
      assert D(st', n) == D(st, n);
    }
  }

  lemma CommittedHolders(st: State, dst: Node, gain: seq<Loc>, l: Loc)
    ensures H(Committed(st, dst, gain), l) == if l in gain then H(st, l) + {dst} else H(st, l)
  {
    IndexedAt(st.holders, dst, gain, l);
  }

  lemma CommittedGrows(st: State, st1: State, dst: Node, gain: seq<Loc>)
    requires Added(st, st1, dst, gain)
    ensures Grown(st, Committed(st1, dst, gain), dst, gain)
  {
    var st' := Committed(st1, dst, gain);
    forall n, l ensures l in D(st', n) <==> l in D(st, n) || Gains(dst, gain, n, l) {
      CommittedDelta(st1, dst, gain, n);
    }
    forall n ensures NoDup(D(st, n)) ==> NoDup(D(st', n)) {
      CommittedDelta(st1, dst, gain, n);
    }
    forall n, l ensures n in H(st', l) <==> n in H(st, l) || Gains(dst, gain, n, l) {
      CommittedHolders(st1, dst, gain, l);
    }
    forall n: Node, l: Loc ensures (n, l) in st'.pending <==> (n, l) in st.pending || Gains(dst, gain, n, l) {}
    forall n: Node, l: Loc ensures l in P(st', n) <==> l in P(st, n) || Gains(dst, gain, n, l) {
      assert P(st', n) == P(st1, n);
    }
  }

  lemma GrownWf(p: Problem, st: State, st': State, dst: Node, gain: seq<Loc>)
    requires Wf(p, st) && Grown(st, st', dst, gain) && dst < p.nodes
    requires forall x :: x in gain ==> x < |p.kinds|
    requires Watermarks(p, st')
    ensures Wf(p, st')
  {
    forall l ensures M(st', l) == M(st, l) {}
    assert Bounded(p, st');
    forall n: Node, l: Loc ensures (n, l) in st'.pending <==> l in DeltaOf(st'.delta, n) {
      assert (n, l) in st.pending <==> l in D(st, n);
      assert l in D(st', n) <==> l in D(st, n) || Gains(dst, gain, n, l);
    }
    assert DeltaOk(st');
    assert QueueOk(p, st') by {
      if dst !in st.queued { NoDupSnoc(st.worklist, dst); }
    }
    assert HoldersOk(st');
  }

  lemma GrownExt(p: Problem, st: State, st': State, dst: Node, gain: seq<Loc>)
    requires Grown(st, st', dst, gain)
    requires forall x :: x in gain ==> x !in P(st, dst)
    ensures Ext(p, st, st', {}) && Quiet(st, st')
  {
    forall l ensures M(st', l) == M(st, l) {}
    if gain != [] {
      assert gain[0] in P(st', dst) && gain[0] !in P(st, dst);
    }
    forall n ensures P(st, n) <= P(st', n) {}
    forall n, l | Settled(st', n, l) ensures Settled(st, n, l) {}
  }

  /** Committing an addition is a step, and keeps the state well-formed. */
  lemma CommitOk(p: Problem, st: State, st1: State, dst: Node, gain: seq<Loc>)
    requires Wf(p, st) && Added(st, st1, dst, gain) && dst < p.nodes
    requires forall x :: x in gain ==> x < |p.kinds|
    requires Watermarks(p, st1)
    ensures var st' := Committed(st1, dst, gain);
      Wf(p, st') && Ext(p, st, st', {}) && Quiet(st, st')
  {
    var st' := Committed(st1, dst, gain);
    CommittedGrows(st, st1, dst, gain);
    assert st'.pts == st1.pts && st'.sizes == st1.sizes && st'.memory == st1.memory;
    WatermarksGrow(p, st1, st');
    GrownWf(p, st, st', dst, gain);
    GrownExt(p, st, st', dst, gain);
  }

  /** Facts below a solution stay below it when a sound addition is committed. */
  lemma PropagateOk(p: Problem, st: State, s: Solution, st1: State, dst: Node, gain: seq<Loc>)
    requires Wf(p, st) && Below(st, s) && dst < p.nodes
    requires Added(st, st1, dst, gain) && st1.sizes == st.sizes
    requires forall x :: x in gain ==> x < |p.kinds| && s.Pt(dst, x)
    ensures var st' := Committed(st1, dst, gain);
      Wf(p, st') && Below(st', s) && Ext(p, st, st', {}) && Quiet(st, st')
  {
    forall n ensures P(st, n) <= P(st1, n) {}
    WatermarksGrow(p, st, st1);
    CommitOk(p, st, st1, dst, gain);
  }

  lemma MergeStartOk(p: Problem, st: State, s: Solution, dst: Node)
    requires Watermarks(p, st)
    ensures MergeOk(p, st, s, Merge(st.pts, st.sizes, []), dst)
  {
    assert st.(pts := st.pts, sizes := st.sizes) == st;
  }

  lemma CommittedConcat(st: State, dst: Node, xs: seq<Loc>, ys: seq<Loc>)
    ensures Committed(Committed(st, dst, xs), dst, ys) == Committed(st, dst, xs + ys)
  {
    if xs == [] {
      assert xs + ys == ys;
    } else if ys == [] {
      assert xs + ys == xs;
    } else {
      AppendNewConcat(D(st, dst), xs, ys);
      IndexedConcat(st.holders, dst, xs, ys);
      var st1 := Committed(st, dst, xs);
      assert D(st1, dst) == AppendNew(D(st, dst), xs);
      assert st1.delta[dst := AppendNew(D(st1, dst), ys)] == st.delta[dst := AppendNew(D(st, dst), xs + ys)];
      assert st.pending + Marks(dst, xs + ys) == st1.pending + Marks(dst, ys);
      assert st.queued + {dst} == st1.queued + {dst};
    }
  }

  // ----- merging memory into a destination

  /** The destination's side of a run of merges: its points-to set, its merged
      sizes, and what the run added. */
  datatype Merge = Merge(pts: map<Node, set<Loc>>, sizes: map<Node, map<Loc, nat>>, gain: seq<Loc>)

  /** Which of `xs`, read out of `cell`, are admitted and not yet held. */
  function GainOf(p: Problem, cell: Loc, xs: seq<Loc>, held: set<Loc>): seq<Loc> {
    if xs == [] then []
    else
      var x := xs[|xs| - 1];
      GainOf(p, cell, xs[..|xs| - 1], held) + (if Admits(p, cell, x) && x !in held then [x] else [])
  }

  lemma {:induction false} GainOfIs(p: Problem, cell: Loc, xs: seq<Loc>, held: set<Loc>)
    ensures forall x :: x in GainOf(p, cell, xs, held) <==> x in xs && Admits(p, cell, x) && x !in held
  {
    if xs != [] {
      GainOfIs(p, cell, xs[..|xs| - 1], held);
      assert xs == xs[..|xs| - 1] + [xs[|xs| - 1]];
    }
  }

  /** Bring `dst` up to date with `cell`, starting at the recorded size. */
  function MergeCell(p: Problem, memory: map<Loc, seq<Loc>>, m: Merge, dst: Node, cell: Loc): Merge {
    var mem := Lookup(memory, cell);
    var seen := SizeAt(m.sizes, dst, cell);
    if |mem| <= seen then m
    else
      var gain := GainOf(p, cell, mem[seen..], Held(m.pts, dst));
      Merge(
        m.pts[dst := Held(m.pts, dst) + (set x | x in gain)],
        m.sizes[dst := (if dst in m.sizes then m.sizes[dst] else map[])[cell := |mem|]],
        m.gain + gain)
  }

  /** One location of a load: a function is the destination's own, a string
      literal yields nothing, anything else contributes its cell. */
  function LoadLoc(p: Problem, memory: map<Loc, seq<Loc>>, m: Merge, dst: Node, l: Loc): Merge {
    if IsFn(p, l) then
      if l in Held(m.pts, dst) then m
      else m.(pts := m.pts[dst := Held(m.pts, dst) + {l}], gain := m.gain + [l])
    else if IsString(p, l) then m
    else MergeCell(p, memory, m, dst, l)
  }

  function LoadLocs(p: Problem, memory: map<Loc, seq<Loc>>, m: Merge, dst: Node, locs: seq<Loc>): Merge {
    if locs == [] then m
    else LoadLoc(p, memory, LoadLocs(p, memory, m, dst, locs[..|locs| - 1]), dst, locs[|locs| - 1])
  }

  function Apply(st: State, m: Merge, dst: Node): State {
    Committed(st.(pts := m.pts, sizes := m.sizes), dst, m.gain)
  }

  /** A whole load step: every location merged first, one commit at the end. */
  function LoadBatch(p: Problem, st: State, dst: Node, locs: seq<Loc>): State {
    Apply(st, LoadLocs(p, st.memory, Merge(st.pts, st.sizes, []), dst, locs), dst)
  }

  /** The reference: one merge and one commit per location. */
  function LoadEach(p: Problem, st: State, dst: Node, locs: seq<Loc>): State {
    if locs == [] then st
    else LoadBatch(p, LoadEach(p, st, dst, locs[..|locs| - 1]), dst, [locs[|locs| - 1]])
  }

  /** A merge only appends to what a run has already added. */
  lemma LoadLocAppends(p: Problem, memory: map<Loc, seq<Loc>>, m: Merge, dst: Node, l: Loc)
    ensures var bare := LoadLoc(p, memory, m.(gain := []), dst, l);
      LoadLoc(p, memory, m, dst, l) == bare.(gain := m.gain + bare.gain)
  {
    if IsFn(p, l) || IsString(p, l) {
      assert m.gain + [] == m.gain;
    } else {
      assert m.gain + [] == m.gain;
      var mem := Lookup(memory, l);
      var gain := GainOf(p, l, if SizeAt(m.sizes, dst, l) <= |mem| then mem[SizeAt(m.sizes, dst, l)..] else [], Held(m.pts, dst));
      assert [] + gain == gain;
    }
  }

  lemma CommittedNone(st: State, dst: Node)
    ensures Committed(st, dst, []) == st
  {
  }

  lemma CommittedKeeps(st: State, dst: Node, gain: seq<Loc>)
    ensures var st' := Committed(st, dst, gain); st'.memory == st.memory && st'.pts == st.pts && st'.sizes == st.sizes
  {
  }

  lemma CommittedAside(st: State, dst: Node, gain: seq<Loc>)
    ensures Committed(st, dst, gain).memory == st.memory && Committed(st, dst, gain).synced == st.synced
  {
    hide Indexed, AppendNew, Marks;
  }

  /** Committing to a node that waits already leaves the queue alone. */
  lemma CommittedAgain(st: State, dst: Node, gain: seq<Loc>)
    requires dst in st.queued
    ensures Committed(st, dst, gain).worklist == st.worklist && Committed(st, dst, gain).queued == st.queued
  {
    hide Indexed, AppendNew, Marks;
    assert st.queued + {dst} == st.queued;
  }

  /** Committing looks neither at points-to sets nor at watermarks. */
  lemma CommittedApart(st: State, dst: Node, gain: seq<Loc>, pts: map<Node, set<Loc>>, sizes: map<Node, map<Loc, nat>>)
    ensures Committed(st, dst, gain).(pts := pts, sizes := sizes) == Committed(st.(pts := pts, sizes := sizes), dst, gain)
  {
    hide AppendNew, Indexed, Marks;
    var st1 := st.(pts := pts, sizes := sizes);
    assert D(st1, dst) == D(st, dst);
    assert st1.holders == st.holders && st1.delta == st.delta && st1.pending == st.pending;
    assert st1.worklist == st.worklist && st1.queued == st.queued;
  }

  /** Batching a load changes nothing: the same points-to sets, delta order,
      holders, worklist and watermarks as one step per location. */
  lemma {:induction false} LoadBatchIsEach(p: Problem, st: State, dst: Node, locs: seq<Loc>)
    ensures LoadBatch(p, st, dst, locs) == LoadEach(p, st, dst, locs)
  {
    hide LoadLoc, Committed;
    if locs == [] {
      assert Committed(st, dst, []) == st by { CommittedNone(st, dst); }
    } else {
      var init, l := locs[..|locs| - 1], locs[|locs| - 1];
      LoadBatchIsEach(p, st, dst, init);
      var m := LoadLocs(p, st.memory, Merge(st.pts, st.sizes, []), dst, init);
      var st1 := Apply(st, m, dst);
      CommittedKeeps(st.(pts := m.pts, sizes := m.sizes), dst, m.gain);
      assert st1.memory == st.memory && st1.pts == m.pts && st1.sizes == m.sizes;
      var bare := LoadLoc(p, st.memory, m.(gain := []), dst, l);
      LoadLocAppends(p, st.memory, m, dst, l);
      assert [l][..0] == [];
      assert LoadLocs(p, st.memory, Merge(m.pts, m.sizes, []), dst, [l]) == bare;
      var base := st.(pts := bare.pts, sizes := bare.sizes);
      CommittedConcat(base, dst, m.gain, bare.gain);
      CommittedApart(st.(pts := m.pts, sizes := m.sizes), dst, m.gain, bare.pts, bare.sizes);
      assert st1.(pts := bare.pts, sizes := bare.sizes) == Committed(base, dst, m.gain);
    }
  }

  /** What a run of merges has done so far, relative to the state it started in. */
  ghost predicate MergeOk(p: Problem, st: State, s: Solution, m: Merge, dst: Node) {
    var st1 := st.(pts := m.pts, sizes := m.sizes);
    && Added(st, st1, dst, m.gain)
    && Watermarks(p, st1)
    && (forall x :: x in m.gain ==> x < |p.kinds| && s.Pt(dst, x))
  }

  /** Reading on from the watermark gives the destination all the cell holds. */
  lemma ResumedLift(p: Problem, st1: State, held: set<Loc>, dst: Node, cell: Loc)
    requires Marked(p, st1, dst, cell)
    requires var seen := SizeAt(st1.sizes, dst, cell);
      P(st1, dst) + Elems(GainOf(p, cell, M(st1, cell)[seen..], P(st1, dst))) <= held
    ensures forall k :: 0 <= k < |M(st1, cell)| && Admits(p, cell, M(st1, cell)[k]) ==> M(st1, cell)[k] in held
  {
    var mem, seen := M(st1, cell), SizeAt(st1.sizes, dst, cell);
    GainOfIs(p, cell, mem[seen..], P(st1, dst));
    forall k | 0 <= k < |mem| && Admits(p, cell, mem[k]) ensures mem[k] in held {
      if k < seen {
        assert mem[k] in P(st1, dst);
      } else {
        assert mem[k] == mem[seen..][k - seen];
        assert mem[k] in P(st1, dst) || mem[k] in Elems(GainOf(p, cell, mem[seen..], P(st1, dst)));
      }
    }
  }

  lemma MergeCellLifts(p: Problem, st: State, m: Merge, dst: Node, cell: Loc)
    requires Marked(p, st.(pts := m.pts, sizes := m.sizes), dst, cell)
    ensures LiftedTo(p, st.(pts := MergeCell(p, st.memory, m, dst, cell).pts), cell, dst)
  {
    var st1 := st.(pts := m.pts, sizes := m.sizes);
    var m' := MergeCell(p, st.memory, m, dst, cell);
    var mem := M(st, cell);
    var gain := GainOf(p, cell, mem[SizeAt(m.sizes, dst, cell)..], Held(m.pts, dst));
    assert P(st1, dst) + Elems(gain) <= Held(m'.pts, dst) by {
      if mem[SizeAt(m.sizes, dst, cell)..] == [] { assert gain == []; }
    }
    ResumedLift(p, st1, Held(m'.pts, dst), dst, cell);
    forall x | x in M(st, cell) && Admits(p, cell, x) ensures x in Held(m'.pts, dst) {
      var k :| 0 <= k < |mem| && mem[k] == x;
    }
  }

  lemma MergeCellOk(p: Problem, st: State, s: Solution, m: Merge, dst: Node, cell: Loc)
    requires Bounded(p, st) && Below(st, s) && MergeOk(p, st, s, m, dst)
    requires Lifts(p, s, cell, dst)
    ensures var m' := MergeCell(p, st.memory, m, dst, cell);
      && MergeOk(p, st, s, m', dst)
      && LiftedTo(p, st.(pts := m'.pts), cell, dst)
      && Held(m.pts, dst) <= Held(m'.pts, dst)
  {
    var st1 := st.(pts := m.pts, sizes := m.sizes);
    assert Marked(p, st1, dst, cell);
    MergeCellLifts(p, st, m, dst, cell);
    var mem, seen := M(st, cell), SizeAt(m.sizes, dst, cell);
    if seen < |mem| {
      var gain := GainOf(p, cell, mem[seen..], Held(m.pts, dst));
      GainOfIs(p, cell, mem[seen..], Held(m.pts, dst));
      MergeAdds(p, st, s, m, dst, cell, gain);
    }
  }

  lemma MergeAdds(p: Problem, st: State, s: Solution, m: Merge, dst: Node, cell: Loc, gain: seq<Loc>)
    requires Bounded(p, st) && Below(st, s) && MergeOk(p, st, s, m, dst)
    requires Lifts(p, s, cell, dst)
    requires forall x :: x in gain ==> x in M(st, cell) && Admits(p, cell, x) && x !in Held(m.pts, dst)
    requires MergeCell(p, st.memory, m, dst, cell).gain == m.gain + gain
    requires MergeCell(p, st.memory, m, dst, cell).pts == m.pts[dst := Held(m.pts, dst) + (set x | x in gain)]
    requires SizeAt(m.sizes, dst, cell) < |M(st, cell)|
    requires LiftedTo(p, st.(pts := MergeCell(p, st.memory, m, dst, cell).pts), cell, dst)
    ensures MergeOk(p, st, s, MergeCell(p, st.memory, m, dst, cell), dst)
  {
    var m' := MergeCell(p, st.memory, m, dst, cell);
    var st1 := st.(pts := m.pts, sizes := m.sizes);
    var st2 := st.(pts := m'.pts, sizes := m'.sizes);
    forall n: Node, x: Loc
      ensures x in P(st2, n) <==> x in P(st1, n) || Gains(dst, gain, n, x)
    {}
    WatermarksStep(p, st1, st2, dst, cell);
  }

  lemma WatermarksStep(p: Problem, st1: State, st2: State, dst: Node, cell: Loc)
    requires Watermarks(p, st1)
    requires st2.memory == st1.memory
    requires forall n :: P(st1, n) <= P(st2, n)
    requires forall d, c :: SizeAt(st2.sizes, d, c) == if d == dst && c == cell then |M(st1, cell)| else SizeAt(st1.sizes, d, c)
    requires forall k :: 0 <= k < |M(st1, cell)| && Admits(p, cell, M(st1, cell)[k]) ==> M(st1, cell)[k] in P(st2, dst)
    ensures Watermarks(p, st2)
  {
    forall d, c ensures Marked(p, st2, d, c) {
      assert Marked(p, st1, d, c);
      assert M(st2, c) == M(st1, c);
      assert P(st1, d) <= P(st2, d);
    }
  }

  /** A function is loaded as itself. */
  lemma LoadFnOk(p: Problem, st: State, s: Solution, m: Merge, dst: Node, l: Loc)
    requires Bounded(p, st) && Below(st, s) && MergeOk(p, st, s, m, dst)
    requires l < |p.kinds| && IsFn(p, l) && LoadHolds(p, s, dst, l)
    ensures var m' := LoadLoc(p, st.memory, m, dst, l);
      MergeOk(p, st, s, m', dst) && Held(m.pts, dst) <= Held(m'.pts, dst) && l in Held(m'.pts, dst)
  {
    var m' := LoadLoc(p, st.memory, m, dst, l);
    if l !in Held(m.pts, dst) {
      var st1, st2 := st.(pts := m.pts, sizes := m.sizes), st.(pts := m'.pts, sizes := m'.sizes);
      forall n: Node, x: Loc ensures x in P(st2, n) <==> x in P(st1, n) || (n == dst && x == l) {}
      forall n ensures P(st1, n) <= P(st2, n) {}
      WatermarksGrow(p, st1, st2);
    }
  }

  lemma LoadLocOk(p: Problem, st: State, s: Solution, m: Merge, dst: Node, l: Loc)
    requires Bounded(p, st) && Below(st, s) && MergeOk(p, st, s, m, dst)
    requires l < |p.kinds| && LoadHolds(p, s, dst, l)
    ensures var m' := LoadLoc(p, st.memory, m, dst, l);
      && MergeOk(p, st, s, m', dst)
      && Held(m.pts, dst) <= Held(m'.pts, dst)
      && LoadOk(p, st.(pts := m'.pts), dst, l)
  {
    hide MergeCell;
    if IsFn(p, l) {
      LoadFnOk(p, st, s, m, dst, l);
    } else if !IsString(p, l) {
      MergeCellOk(p, st, s, m, dst, l);
    }
  }

  /** Stepping a load over locations its pointer holds keeps the run sound and
      leaves the destination with everything those locations yield. */
  lemma {:induction false} LoadLocsOk(p: Problem, st: State, s: Solution, dst: Node, locs: seq<Loc>)
    requires Bounded(p, st) && Watermarks(p, st) && Below(st, s)
    requires forall l :: l in locs ==> l < |p.kinds| && LoadHolds(p, s, dst, l)
    ensures var m := LoadLocs(p, st.memory, Merge(st.pts, st.sizes, []), dst, locs);
      && MergeOk(p, st, s, m, dst)
      && (forall l :: l in locs ==> LoadOk(p, st.(pts := m.pts), dst, l))
  {
    var m0 := Merge(st.pts, st.sizes, []);
    if locs == [] {
      assert st.(pts := m0.pts, sizes := m0.sizes) == st;
    } else {
      var init, l := locs[..|locs| - 1], locs[|locs| - 1];
      assert locs == init + [l] && l in locs;
      assert forall k :: k in init ==> k in locs;
      LoadLocsOk(p, st, s, dst, init);
      var m := LoadLocs(p, st.memory, m0, dst, init);
      LoadLocOk(p, st, s, m, dst, l);
      var m' := LoadLoc(p, st.memory, m, dst, l);
      forall k | k in locs ensures LoadOk(p, st.(pts := m'.pts), dst, k) {
        assert k in init || k == l;
        assert k in init ==> LoadOk(p, st.(pts := m.pts), dst, k);
      }
    }
  }

  lemma WatermarksGrow(p: Problem, st1: State, st2: State)
    requires Watermarks(p, st1) && st2.sizes == st1.sizes
    requires forall n :: P(st1, n) <= P(st2, n)
    requires forall l :: M(st1, l) <= M(st2, l)
    ensures Watermarks(p, st2)
  {
    forall d, c ensures Marked(p, st2, d, c) {
      assert Marked(p, st1, d, c);
      assert M(st1, c) <= M(st2, c);
      assert P(st1, d) <= P(st2, d);
    }
  }

  lemma ApplyOk(p: Problem, st: State, s: Solution, m: Merge, dst: Node)
    requires Wf(p, st) && Below(st, s) && MergeOk(p, st, s, m, dst) && dst < p.nodes
    ensures var st' := Apply(st, m, dst);
      Wf(p, st') && Below(st', s) && Ext(p, st, st', {}) && Quiet(st, st')
  {
    var st1 := st.(pts := m.pts, sizes := m.sizes);
    CommitOk(p, st, st1, dst, m.gain);
  }

  /** What has been read out of memory depends on memory and points-to sets only. */
  lemma LoadFrame(p: Problem, st1: State, st2: State, dst: Node, l: Loc)
    requires st1.memory == st2.memory && st1.pts == st2.pts
    ensures LoadOk(p, st1, dst, l) <==> LoadOk(p, st2, dst, l)
    ensures LiftedTo(p, st1, l, dst) <==> LiftedTo(p, st2, l, dst)
  {
    assert M(st1, l) == M(st2, l);
    assert P(st1, dst) == P(st2, dst);
  }

  // ----- the remaining primitive steps

  /** A loader `n` that holds `l` is made to look at `l` again. */
  function Requeued(st: State, n: Node, l: Loc): State {
    st.(
      delta := st.delta[n := AppendNew(D(st, n), [l])],
      pending := st.pending + {(n, l)},
      worklist := if n in st.queued then st.worklist else st.worklist + [n],
      queued := st.queued + {n})
  }

  ghost predicate RequeuedAt(st: State, st': State, n: Node, l: Loc) {
    && st' == st.(delta := st'.delta, pending := st'.pending, worklist := st'.worklist, queued := st'.queued)
    && (forall m: Node, x: Loc ::
          x in D(st', m) <==> x in D(st, m) || (m == n && x == l))
    && (forall m :: NoDup(D(st, m)) ==> NoDup(D(st', m)))
    && st'.pending == st.pending + {(n, l)}
    && st'.queued == st.queued + {n}
    && st'.worklist == (if n in st.queued then st.worklist else st.worklist + [n])
  }

  lemma RequeuedIs(st: State, n: Node, l: Loc)
    ensures RequeuedAt(st, Requeued(st, n, l), n, l)
  {
    var st' := Requeued(st, n, l);
    AppendNewGrows(D(st, n), [l]);
    forall m: Node, x: Loc ensures x in D(st', m) <==> x in D(st, m) || (m == n && x == l) {
      if m == n {
        assert x in Elems(D(st', n)) <==> x in Elems(D(st, n)) + Elems([l]);
      }
    }
    forall m ensures NoDup(D(st, m)) ==> NoDup(D(st', m)) {
      assert m != n ==> D(st', m) == D(st, m);
    }
  }

  lemma RequeuedWf(p: Problem, st: State, st': State, n: Node, l: Loc)
    requires Wf(p, st) && RequeuedAt(st, st', n, l) && l in P(st, n)
    ensures Wf(p, st')
  {
    forall m ensures P(st', m) == P(st, m) {}
    forall c ensures M(st', c) == M(st, c) {}
    forall c ensures H(st', c) == H(st, c) {}
    assert QueueOk(p, st') by {
      if n !in st.queued { NoDupSnoc(st.worklist, n); }
    }
    WatermarksGrow(p, st, st');
    assert DeltaOk(st') by {
      forall m: Node, x: Loc ensures (m, x) in st'.pending <==> x in DeltaOf(st'.delta, m) {
        assert (m, x) in st.pending <==> x in D(st, m);
        assert x in D(st', m) <==> x in D(st, m) || (m == n && x == l);
      }
    }
  }

  lemma RequeuedExt(p: Problem, st: State, st': State, n: Node, l: Loc)
    requires RequeuedAt(st, st', n, l)
    ensures Ext(p, st, st', {}) && l in D(st', n)
  {
    forall m ensures P(st', m) == P(st, m) {}
    forall c ensures M(st', c) == M(st, c) {}
    forall m, x | Settled(st', m, x) ensures Settled(st, m, x) {}
  }

  lemma HeldBy(p: Problem, st: State, l: Loc)
    requires Wf(p, st)
    ensures forall n :: n in H(st, l) <==> l in P(st, n)
  {
  }

  /** Only cell memory changed, and it only grew, by bounded new values. */
  ghost predicate MemoryGrew(p: Problem, st: State, st': State) {
    && st' == st.(memory := st'.memory)
    && (forall l :: M(st, l) <= M(st', l))
    && (forall l :: NoDup(M(st', l)))
    && (forall l: Loc, x: Loc :: x in M(st', l) ==> l < |p.kinds| && x < |p.kinds|)
  }

  lemma MemoryGrewWf(p: Problem, st: State, st': State)
    requires Wf(p, st) && MemoryGrew(p, st, st')
    ensures Wf(p, st')
  {
    forall m ensures P(st', m) == P(st, m) && D(st', m) == D(st, m) {}
    forall c ensures H(st', c) == H(st, c) {}
    WatermarksGrow(p, st, st');
  }

  lemma MemoryGrewExt(p: Problem, st: State, st': State, dirty: set<Loc>)
    requires MemoryGrew(p, st, st')
    requires forall l :: M(st, l) == M(st', l) || l in dirty
    ensures Ext(p, st, st', dirty)
  {
    forall m ensures P(st', m) == P(st, m) && D(st', m) == D(st, m) {}
    forall n, l | Settled(st', n, l) ensures Settled(st, n, l) {}
  }

  /** Appending sound values to one cell. */
  lemma CellWriteOk(p: Problem, s: Solution, st: State, st': State, cell: Loc, locs: seq<Loc>)
    requires Wf(p, st) && Below(st, s) && cell < |p.kinds|
    requires st' == st.(memory := st.memory[cell := AppendNew(M(st, cell), locs)])
    requires forall x :: x in locs ==> x < |p.kinds| && s.Mem(cell, x)
    ensures Wf(p, st') && Below(st', s) && Ext(p, st, st', {cell})
    ensures forall x :: x in M(st', cell) <==> x in M(st, cell) || x in locs
    ensures M(st', cell) == M(st, cell) <==> forall x :: x in locs ==> x in M(st, cell)
  {
    AppendNewGrows(M(st, cell), locs);
    forall x ensures x in M(st', cell) <==> x in M(st, cell) || x in locs {
      assert x in Elems(M(st', cell)) <==> x in Elems(M(st, cell)) + Elems(locs);
    }
    forall l ensures l != cell ==> M(st', l) == M(st, l) {}
    assert Elems(locs) <= Elems(M(st, cell)) <==> forall x :: x in locs ==> x in M(st, cell) by {
      if forall x :: x in locs ==> x in M(st, cell) {
        forall x | x in Elems(locs) ensures x in Elems(M(st, cell)) {}
      } else {
        var x :| x in locs && x !in M(st, cell);
        assert x in Elems(locs) && x !in Elems(M(st, cell));
      }
    }
    forall n ensures P(st', n) == P(st, n) {}
    assert MemoryGrew(p, st, st');
    MemoryGrewWf(p, st, st');
    MemoryGrewExt(p, st, st', {cell});
  }

  /** The source set as a filter sees it. */
  function Filtered(p: Problem, f: FnFilter, src: seq<Loc>): seq<Loc> {
    if src == [] then []
    else
      var x := src[|src| - 1];
      Filtered(p, f, src[..|src| - 1]) + (if Passes(p, f, x) then [x] else [])
  }

  lemma {:induction false} FilteredIs(p: Problem, f: FnFilter, src: seq<Loc>)
    ensures forall x :: x in Filtered(p, f, src) <==> x in src && Passes(p, f, x)
  {
    if src != [] {
      FilteredIs(p, f, src[..|src| - 1]);
      assert src == src[..|src| - 1] + [src[|src| - 1]];
    }
  }
}
