/** The worklist solver: difference propagation over the constraint graph, with
    calls resolved and wired as it goes. */
module Solver {
  import opened Common
  import opened Rules
  import opened Kernel
  import opened Propagation
  import opened Indices
  import opened Convergence
  import opened Steps

  class SolverState {
    const p: Problem
    /** A solution of the rules that nothing the solver holds may exceed. */
    ghost const sol: Solution

    var pts: map<Node, set<Loc>>
    var delta: map<Node, seq<Loc>>
    var pending: set<(Node, Loc)>
    var memory: map<Loc, seq<Loc>>
    var holders: map<Loc, set<Node>>
    var worklist: seq<Node>
    var queued: set<Node>
    var sizes: map<Node, map<Loc, nat>>
    var constraints: seq<Constraint>
    var indices: SolverIndices
    var links: Links
    var synced: map<Node, Loc>
    var owner: map<Loc, Node>
    var addrTaken: set<Loc>
    var seenOnce: set<Node>
    var resolved: map<CallSite, seq<FnId>>
    var edges: seq<(CallSite, FnId)>
    /** What each added copy owed when it was added. */
    ghost var owing: map<nat, set<Loc>>
    /** The model effects of the calls resolved so far, in order. */
    ghost var effects: seq<Wire>

    ghost function View(): State
      reads this
    {
      State(pts, delta, pending, memory, holders, worklist, queued, sizes, constraints, synced, owner, resolved, links, owing)
    }

    ghost predicate Good()
      reads this
    {
      && Valid(p) && IsSolution(p, sol, true)
      && Linked(p, sol, constraints, indices) && OwnersOk(p, sol, owner)
      && Wf(p, View()) && Below(View(), sol)
    }

    lemma GoodGuards()
      requires Good()
      ensures Guards(pending, delta) && Watermarks(p, View()) && Bounded(p, View())
    {
      hide IsSolution, Linked, OwnersOk, Valid, Watermarks, Bounded, Guards;
    }

    /** The state is good, and one quiet step away from `st`. */
    ghost predicate Step(st: State)
      reads this
    {
      Good() && Ext(p, st, View(), {}) && Quiet(st, View())
    }

    lemma StepTrans(s0: State, s1: State)
      requires Ext(p, s0, s1, {}) && Quiet(s0, s1) && Step(s1)
      ensures Step(s0)
    {
      CleanTrans(p, s0, s1, View(), {});
      QuietTrans(p, s0, s1, View(), {}, {});
    }

    // ----- queueing and committing

    method Push(node: Node)
      modifies `worklist, `queued
      ensures queued == old(queued) + {node}
      ensures worklist == if node in old(queued) then old(worklist) else old(worklist) + [node]
    {
      if node !in queued {
        queued := queued + {node};
        worklist := worklist + [node];
      }
    }

    /** What was just added to a node waits there for its next pop; a location
        already waiting is not listed twice. */
    method RecordDelta(node: Node, locs: seq<Loc>)
      requires Guards(pending, delta)
      modifies `delta, `pending
      ensures locs == [] ==> delta == old(delta)
      ensures locs != [] ==> delta == old(delta)[node := AppendNew(DeltaOf(old(delta), node), locs)]
      ensures pending == old(pending) + Marks(node, locs)
    {
      if locs == [] {
        return;
      }
      var d := DeltaOf(delta, node);
      ghost var d0, p0 := d, pending;
      for i := 0 to |locs|
        invariant d == AppendNew(d0, locs[..i])
        invariant pending == p0 + Marks(node, locs[..i])
        invariant forall l: Loc :: (node, l) in pending <==> l in d
        invariant delta == old(delta)
      {
        assert locs[..i + 1][..i] == locs[..i];
        assert locs[..i + 1] == locs[..i] + [locs[i]];
        if (node, locs[i]) !in pending {
          pending := pending + {(node, locs[i])};
          d := d + [locs[i]];
        }
      }
      assert locs[..|locs|] == locs;
      delta := delta[node := d];
    }

    /** The bookkeeping for news that is already in `pts[dst]`. */
    method CommitFresh(dst: Node, gain: seq<Loc>)
      requires Guards(pending, delta)
      modifies `holders, `delta, `pending, `worklist, `queued
      ensures View() == Committed(old(View()), dst, gain)
    {
      hide Guards, AppendNew, Indexed, Marks;
      if gain == [] {
        return;
      }
      holders := IndexHolder(holders, gain, dst);
      RecordDelta(dst, gain);
      Push(dst);
    }

    /** Insert `gain`, not held so far, into `pts[dst]` and commit it. */
    method Insert(dst: Node, gain: seq<Loc>)
      requires Good() && dst < p.nodes
      requires forall l :: l in gain ==> l !in Held(pts, dst) && l < |p.kinds| && sol.Pt(dst, l)
      modifies `pts, `holders, `delta, `pending, `worklist, `queued
      ensures Step(old(View()))
      ensures pts == old(pts)[dst := Held(old(pts), dst) + (set x | x in gain)]
      ensures View() == Committed(old(View()).(pts := pts), dst, gain)
    {
      hide IsSolution, Linked, OwnersOk, Valid, Wf, Below, Ext, Quiet, Committed, Added;
      GoodGuards();
      ghost var st := View();
      pts := pts[dst := Held(pts, dst) + (set x | x in gain)];
      ghost var st1 := View();
      InsertAdds(st, st1, dst, pts[dst], gain);
      CommitFresh(dst, gain);
      PropagateOk(p, st, sol, st1, dst, gain);
    }

    /** `dst` points to all of `locs`; only those it did not hold count as news. */
    method PropagateLocs(dst: Node, locs: seq<Loc>)
      requires Good() && dst < p.nodes
      requires forall l :: l in locs ==> l < |p.kinds| && sol.Pt(dst, l)
      modifies `pts, `holders, `delta, `pending, `worklist, `queued
      ensures Step(old(View()))
      ensures pts == old(pts)[dst := Held(old(pts), dst) + (set x | x in locs)]
    {
      hide Good, Step;
      var gain := NotHeld(Held(pts, dst), locs);
      assert Held(pts, dst) + (set x | x in gain) == Held(pts, dst) + (set x | x in locs);
      Insert(dst, gain);
    }

    method AddPts(node: Node, loc: Loc)
      requires Good() && node < p.nodes && loc < |p.kinds| && sol.Pt(node, loc)
      modifies `pts, `holders, `delta, `pending, `worklist, `queued
      ensures Step(old(View()))
      ensures pts == old(pts)[node := Held(old(pts), node) + {loc}]
      ensures loc in Held(old(pts), node) ==> View() == old(View())
      ensures loc !in Held(old(pts), node) ==> View() == Committed(old(View()).(pts := pts), node, [loc])
    {
      hide IsSolution, Linked, OwnersOk, Valid, Wf, Below, Ext, Quiet, Committed;
      if loc in Held(pts, node) {
        ExtRefl(p, View());
        assert Held(pts, node) + {loc} == pts[node];
      } else {
        Insert(node, [loc]);
        assert pts[node] == Held(old(pts), node) + {loc};
      }
    }

    // ----- reading memory

    /** The part of `cell` past the size recorded for `dst` reaches `dst`; what
        that taught it is added to `gain`. */
    method MergeInto(dst: Node, cell: Loc, gain: seq<Loc>) returns (gain': seq<Loc>)
      modifies `pts, `sizes
      ensures Merge(pts, sizes, gain') == MergeCell(p, memory, Merge(old(pts), old(sizes), gain), dst, cell)
    {
      var mem := Lookup(memory, cell);
      var seen := SizeAt(sizes, dst, cell);
      gain' := gain;
      if |mem| <= seen {
        return;
      }
      sizes := sizes[dst := (if dst in sizes then sizes[dst] else map[])[cell := |mem|]];
      var more := GainFrom(p, cell, mem, seen, Held(pts, dst));
      pts := pts[dst := Held(pts, dst) + (set x | x in more)];
      gain' := gain + more;
    }

    /** Merge what `memory[cell]` gained into `pts[dst]`. */
    method MergeMemory(dst: Node, cell: Loc)
      requires Good() && dst < p.nodes && Lifts(p, sol, cell, dst)
      modifies `pts, `sizes, `holders, `delta, `pending, `worklist, `queued
      ensures Step(old(View()))
      ensures LiftedTo(p, View(), cell, dst)
      ensures OnlyGains(old(View()), View(), dst, ContentsOf(p, memory, cell))
    {
      hide IsSolution, Linked, OwnersOk, Valid, Wf, Below, Ext, Quiet, MergeCell, Committed, Lifts, LiftedTo, OnlyGains, ContentsOf;
      ghost var st := View();
      GoodGuards();
      var gain := MergeInto(dst, cell, []);
      CommitFresh(dst, gain);
      MergedOk(p, st, sol, dst, cell);
    }

    method LoadEachInto(dst: Node, locs: seq<Loc>) returns (gain: seq<Loc>, merges: nat)
      modifies `pts, `sizes
      ensures Merge(pts, sizes, gain) == LoadLocs(p, memory, Merge(old(pts), old(sizes), []), dst, locs)
    {
      merges := 0;
      gain := [];
      ghost var m0 := Merge(pts, sizes, []);
      for i := 0 to |locs|
        invariant Merge(pts, sizes, gain) == LoadLocs(p, memory, m0, dst, locs[..i])
      {
        var l := locs[i];
        assert locs[..i + 1][..i] == locs[..i];
        if IsFn(p, l) {
          if l !in Held(pts, dst) {
            pts := pts[dst := Held(pts, dst) + {l}];
            gain := gain + [l];
          }
        } else if IsString(p, l) {
          continue;
        } else {
          merges := merges + 1;
          gain := MergeInto(dst, l, gain);
        }
      }
      assert locs[..|locs|] == locs;
    }

    /** A load over new pointees: all that they hold is collected first and made
        known once. The result counts the cells read. */
    method LoadInto(dst: Node, locs: seq<Loc>) returns (merges: nat)
      requires Good() && dst < p.nodes
      requires forall l :: l in locs ==> l < |p.kinds| && LoadHolds(p, sol, dst, l)
      modifies `pts, `sizes, `holders, `delta, `pending, `worklist, `queued
      ensures View() == LoadBatch(p, old(View()), dst, locs)
      ensures Step(old(View()))
      ensures forall l :: l in locs ==> LoadOk(p, View(), dst, l)
    {
      hide IsSolution, Linked, OwnersOk, Valid, Wf, Below, Ext, Quiet, Bounded, Watermarks, MergeOk, Committed, LoadOk, LoadHolds, LoadLocs;
      ghost var st := View();
      GoodGuards();
      LoadLocsOk(p, st, sol, dst, locs);
      var gain;
      gain, merges := LoadEachInto(dst, locs);
      ghost var m := Merge(pts, sizes, gain);
      CommitFresh(dst, gain);
      ApplyOk(p, st, sol, m, dst);
      forall l | l in locs ensures LoadOk(p, View(), dst, l) {
        LoadFrame(p, st.(pts := m.pts), View(), dst, l);
      }
    }

    // ----- requeueing the loaders of a cell

    /** Who holds `loc` and loads through it, in whatever order the set yields. */
    method Loading(loc: Loc) returns (ns: seq<Node>)
      requires Good()
      ensures forall n :: n in ns <==> n in H(View(), loc) && IsLoadSrc(p, n)
    {
      hide IsSolution, Valid, Wf, Below;
      var hs := if loc in holders then holders[loc] else {};
      ns := InSetOrder(set n | n in hs && Under(indices.loadSrc, n) != []);
      forall n ensures Under(indices.loadSrc, n) != [] <==> IsLoadSrc(p, n) {
        LoadSrcListed(constraints, indices.loadSrc, n);
      }
    }

    method RequeueOne(n: Node, loc: Loc)
      requires Good() && loc in P(View(), n)
      modifies `delta, `pending, `worklist, `queued
      ensures Good() && Ext(p, old(View()), View(), {})
      ensures loc in D(View(), n)
    {
      hide IsSolution, Linked, OwnersOk, Valid, Wf, Ext, RequeuedAt;
      GoodGuards();
      ghost var st := View();
      RecordDelta(n, [loc]);
      Push(n);
      assert {(n, loc)} == Marks(n, [loc]);
      ghost var st' := View();
      assert st' == Requeued(st, n, loc);
      RequeuedIs(st, n, loc);
      RequeuedWf(p, st, st', n, loc);
      RequeuedExt(p, st, st', n, loc);
    }

    /** `memory[loc]` changed: every node that loads from `loc` must merge again,
        so the location is put back on its delta. */
    method TouchLocHolders(loc: Loc)
      requires Good()
      modifies `delta, `pending, `worklist, `queued
      ensures Good() && Ext(p, old(View()), View(), {})
      ensures Touched(p, View(), loc)
    {
      hide IsSolution, Linked, OwnersOk, Valid, Below, Ext, Wf;
      ghost var st := View();
      var ns := Loading(loc);
      ExtRefl(p, st);
      HeldBy(p, st, loc);
      for i := 0 to |ns|
        invariant Good() && Ext(p, st, View(), {})
        invariant forall j :: 0 <= j < i ==> loc in D(View(), ns[j])
      {
        ghost var st1 := View();
        assert ns[i] in ns && P(st1, ns[i]) == P(st, ns[i]);
        RequeueOne(ns[i], loc);
        CleanTrans(p, st, st1, View(), {});
        forall j | 0 <= j < i ensures loc in D(View(), ns[j]) {
          assert ns[j] in ns && P(st1, ns[j]) == P(st, ns[j]);
          PendingStays(p, st1, View(), {}, ns[j], loc);
        }
      }
      forall n | IsLoadSrc(p, n) && loc in P(View(), n) ensures loc in D(View(), n) {
        assert P(View(), n) == P(st, n);
        assert n in ns;
      }
    }

    // ----- writing memory

    /** Cell contents are ordered: of `locs`, those the cell lacks go to its end,
        and every write comes through here. Says whether there were any. */
    method WriteMemory(cell: Loc, locs: seq<Loc>) returns (grew: bool)
      modifies `memory
      ensures memory == old(memory)[cell := AppendNew(Lookup(old(memory), cell), locs)]
      ensures grew <==> Lookup(memory, cell) != Lookup(old(memory), cell)
    {
      var entry := Lookup(memory, cell);
      var before := |entry|;
      for i := 0 to |locs|
        invariant entry == AppendNew(Lookup(memory, cell), locs[..i])
        invariant memory == old(memory)
      {
        assert locs[..i + 1][..i] == locs[..i];
        if locs[i] !in entry {
          entry := entry + [locs[i]];
        }
      }
      assert locs[..|locs|] == locs;
      AppendNewGrows(Lookup(memory, cell), locs);
      memory := memory[cell := entry];
      grew := |entry| > before;
    }

    /** The admitted part of `locs` goes into `cell`, and those who load from it
        look again if that was news. */
    method WriteToCell(cell: Loc, locs: seq<Loc>)
      requires Good() && cell < |p.kinds|
      requires forall x :: x in locs ==> x < |p.kinds| && (Admits(p, cell, x) ==> sol.Mem(cell, x))
      modifies `memory, `delta, `pending, `worklist, `queued
      ensures Good() && Ext(p, old(View()), View(), {cell}) && Quiet(old(View()), View())
      ensures forall x :: x in M(View(), cell) <==> x in M(old(View()), cell) || (x in locs && Admits(p, cell, x))
      ensures M(View(), cell) != M(old(View()), cell) ==> Touched(p, View(), cell)
      ensures memory == old(memory)[cell := AppendNew(M(old(View()), cell), Filtered(p, FilterOf(p.guard, cell), locs))]
    {
      hide IsSolution, Linked, OwnersOk, Valid, Wf, Below, Ext, Touched;
      ghost var st := View();
      FilteredIs(p, FilterOf(p.guard, cell), locs);
      var view := FilterLocs(p, FilterOf(p.guard, cell), locs);
      var grew := WriteMemory(cell, view);
      ghost var st1 := View();
      CellWriteOk(p, sol, st, st1, cell, view);
      if grew {
        TouchLocHolders(cell);
        CleanTrans(p, st, st1, View(), {cell});
        assert M(st, cell) != M(View(), cell);
      }
    }

    // ----- variable cells

    lemma OwnerLifts(cell: Loc)
      requires Good() && cell in owner
      ensures owner[cell] < p.nodes && Lifts(p, sol, cell, owner[cell])
      ensures synced[owner[cell]] == cell && owner[cell] in synced && cell < |p.kinds|
      ensures SyncHolds(p, sol, cell, owner[cell])
    {
      hide IsSolution, Linked, Below;
      assert cell in p.ownCell;
    }

    /** Node to cell: what a synced variable gains is written into its cell. */
    method SyncVarToCell(node: Node, gained: seq<Loc>)
      requires Good() && CellsLifted(p, View())
      requires forall x :: x in gained ==> x in P(View(), node)
      modifies `memory, `delta, `pending, `worklist, `queued
      ensures Step(old(View()))
      ensures forall x :: x in gained && node in synced && Admits(p, synced[node], x) ==> x in M(View(), synced[node])
      ensures node !in synced ==> View() == old(View())
    {
      hide IsSolution, Linked, OwnersOk, Valid, Ext, Quiet;
      ghost var st := View();
      if node !in synced {
        ExtRefl(p, st);
        return;
      }
      var cell := synced[node];
      assert cell in owner && owner[cell] == node;
      OwnerLifts(cell);
      WriteToCell(cell, gained);
      if M(st, cell) != M(View(), cell) {
        assert LiftedTo(p, View(), cell, node) by {
          assert LiftedTo(p, st, cell, node);
        }
      }
      Absorb(p, st, View(), {cell}, {});
    }

    /** Cell to node: after a store, the variable catches up with its cell. */
    method SyncCellToVar(cell: Loc)
      requires Good()
      modifies `pts, `sizes, `holders, `delta, `pending, `worklist, `queued
      ensures Step(old(View()))
      ensures cell in owner ==> LiftedTo(p, View(), cell, owner[cell])
    {
      hide IsSolution, Linked, OwnersOk, Valid, Wf, Below, Ext, Quiet, LiftedTo, Lifts;
      if cell in owner {
        OwnerLifts(cell);
        MergeMemory(owner[cell], cell);
      } else {
        ExtRefl(p, View());
      }
    }

    method LinkCell(cell: Loc)
      requires Good() && cell in p.ownCell && cell !in owner && SyncHolds(p, sol, cell, p.ownCell[cell])
      modifies `synced, `owner
      ensures Good() && Ext(p, old(View()), View(), {cell}) && Quiet(old(View()), View())
      ensures owner == old(owner)[cell := p.ownCell[cell]] && synced == old(synced)[p.ownCell[cell] := cell]
      ensures forall n :: n in synced && n !in old(synced) ==> n == p.ownCell[cell]
    {
      hide Valid, IsSolution, Linked, Below, Wf, Ext, Quiet, SyncHolds;
      ghost var st := View();
      synced := synced[p.ownCell[cell] := cell];
      owner := owner[cell := p.ownCell[cell]];
      Registered(p, sol, st, View(), cell);
    }

    lemma HeldAllowed(cell: Loc, node: Node)
      requires Good() && SyncHolds(p, sol, cell, node)
      ensures forall x :: x in P(View(), node) ==> x < |p.kinds| && (Admits(p, cell, x) ==> sol.Mem(cell, x))
    {
      hide IsSolution, Linked, OwnersOk, Valid, Wf, Below, SyncHolds;
      HeldAdmitted(p, sol, View(), cell, node);
    }

    /** What the variable holds goes into its cell, in ascending order. */
    method FillCell(cell: Loc, node: Node) returns (ghost order: seq<Loc>)
      requires Good() && cell < |p.kinds| && SyncHolds(p, sol, cell, node)
      modifies `memory, `delta, `pending, `worklist, `queued
      ensures Good() && Ext(p, old(View()), View(), {cell}) && Quiet(old(View()), View())
      ensures forall x :: x in P(old(View()), node) && Admits(p, cell, x) ==> x in M(View(), cell)
      ensures M(View(), cell) != M(old(View()), cell) ==> Touched(p, View(), cell)
      ensures Ascending(order) && forall x :: x in order <==> x in P(old(View()), node)
      ensures M(View(), cell) == AppendNew(M(old(View()), cell), Filtered(p, FilterOf(p.guard, cell), order))
    {
      hide AppendNew, Filtered, Ascending, Good, Ext, Quiet, Touched, SyncHolds;
      var held := InSortedOrder(Held(pts, node));
      order := held;
      HeldAllowed(cell, node);
      ghost var st := View();
      forall x | x in held ensures x < |p.kinds| && (Admits(p, cell, x) ==> sol.Mem(cell, x)) {
        assert x in P(st, node);
      }
      WriteToCell(cell, held);
    }

    /** From now on `cell` and its variable agree. This may happen at any time, so
        what either side holds by then reaches the other, the variable's
        locations in ascending order. */
    method RegisterSyncedCell(cell: Loc) returns (ghost order: seq<Loc>)
      requires Good() && cell in p.ownCell && cell !in owner && SyncHolds(p, sol, cell, p.ownCell[cell])
      modifies `synced, `owner, `memory, `pts, `sizes, `holders, `delta, `pending, `worklist, `queued
      ensures Step(old(View()))
      ensures owner == old(owner)[cell := p.ownCell[cell]] && synced == old(synced)[p.ownCell[cell] := cell]
      ensures LiftedTo(p, View(), cell, p.ownCell[cell])
      ensures forall x :: x in P(old(View()), p.ownCell[cell]) && Admits(p, cell, x) ==> x in M(View(), cell)
      ensures Ascending(order) && forall x :: x in order <==> x in P(old(View()), p.ownCell[cell])
      ensures M(View(), cell) == AppendNew(M(old(View()), cell), Filtered(p, FilterOf(p.guard, cell), order))
    {
      hide AppendNew, Filtered, Ascending, Good, Ext, Quiet, LiftedTo, Touched, SyncHolds;
      ghost var st := View();
      var node := p.ownCell[cell];
      LinkCell(cell);
      ghost var st1 := View();
      OwnerLifts(cell);
      order := FillCell(cell, node);
      ghost var st2 := View();
      MergeMemory(node, cell);
      Exchanged(p, st, st1, st2, View(), cell, node);
      ExchangedQuiet(p, st, st1, st2, View(), cell);
      assert P(st1, node) == P(st, node);
    }

    /** The own cells of the variables whose address has been taken are exactly
        those kept in step, and the rules take every such address. */
    ghost predicate TakenOk()
      reads `addrTaken, `owner
    {
      && (forall c :: c in addrTaken ==> TakenIn(p, sol, c))
      && (forall c :: c in addrTaken && c in p.ownCell ==> c in owner)
      && (forall c :: c in owner ==> c in addrTaken)
    }

    /** The address of `loc` is taken: a pointer variable's own cell is kept in
        step from the first time on. */
    method TakeAddress(loc: Loc)
      requires Good() && TakenOk() && TakenIn(p, sol, loc)
      modifies `addrTaken, `synced, `owner, `memory, `pts, `sizes, `holders, `delta, `pending, `worklist, `queued
      ensures Step(old(View())) && TakenOk()
      ensures addrTaken == old(addrTaken) + {loc} && (loc in p.ownCell ==> loc in owner)
      ensures loc !in p.ownCell ==> View() == old(View())
    {
      hide Good, Ext, Quiet, SyncHolds, LiftedTo, TakenIn;
      ghost var st := View();
      if loc !in addrTaken {
        MarkTaken(loc);
        if loc in p.ownCell {
          TakenSynced(loc);
          ghost var _ := RegisterSyncedCell(loc);
          return;
        }
      }
      ExtRefl(p, st);
    }

    lemma TakenSynced(loc: Loc)
      requires Good() && TakenIn(p, sol, loc) && loc in p.ownCell
      ensures SyncHolds(p, sol, loc, p.ownCell[loc])
    {
      hide Valid, Linked, OwnersOk, Wf, Below, Satisfies, SyncHolds, TakenIn, CallHolds, Resolves, Active, FlowHolds;
    }

    method MarkTaken(loc: Loc)
      modifies `addrTaken
      ensures View() == old(View()) && Good() == old(Good())
      ensures addrTaken == old(addrTaken) + {loc}
    {
      addrTaken := addrTaken + {loc};
    }

    /** Apply an address constraint: `dst` points to `loc`, and `loc` counts as
        taken. */
    method SeedAddrOf(dst: Node, loc: Loc)
      requires Good() && TakenOk() && dst < p.nodes && loc < |p.kinds| && sol.Pt(dst, loc) && TakenIn(p, sol, loc)
      modifies `addrTaken, `synced, `owner, `memory, `pts, `sizes, `holders, `delta, `pending, `worklist, `queued
      ensures Step(old(View())) && TakenOk()
      ensures addrTaken == old(addrTaken) + {loc} && loc in P(View(), dst) && (loc in p.ownCell ==> loc in owner)
      ensures loc !in p.ownCell ==> pts == old(pts)[dst := Held(old(pts), dst) + {loc}]
      ensures loc !in p.ownCell ==> View() == old(View()) || View() == Committed(old(View()).(pts := pts), dst, [loc])
    {
      hide Good, Ext, Quiet, TakenIn, Committed;
      ghost var st := View();
      TakeAddress(loc);
      ghost var st1 := View();
      AddPts(dst, loc);
      StepTrans(st, st1);
    }

    // ----- stores

    method WriteCell(cell: Loc, locs: seq<Loc>) returns (grew: bool)
      requires Good() && cell < |p.kinds|
      requires forall x :: x in locs ==> x < |p.kinds| && sol.Mem(cell, x)
      modifies `memory
      ensures Good() && Ext(p, old(View()), View(), if grew then {cell} else {})
      ensures grew <==> M(old(View()), cell) != M(View(), cell)
      ensures forall x :: x in locs ==> x in M(View(), cell)
    {
      hide IsSolution, Linked, OwnersOk, Valid, Wf, Below, Ext, Absorbed;
      ghost var st := View();
      grew := WriteMemory(cell, locs);
      CellWriteOk(p, sol, st, View(), cell, locs);
      if !grew {
        Absorb(p, st, View(), {cell}, {});
      }
    }

    lemma SummaryBound(l: Loc)
      requires Good() && l in p.summary
      ensures p.summary[l] < |p.kinds|
    {
      hide IsSolution, IndicesOk, OwnersOk, Wf, Below;
    }

    /** Write what `f` lets through of `src`, and `self`, into one cell. */
    method WriteView(cell: Loc, f: FnFilter, src: seq<Loc>, self: seq<Loc>, hasFns: bool, views: map<FnFilter, seq<Loc>>)
      returns (grew: bool, views': map<FnFilter, seq<Loc>>)
      requires Good() && cell < |p.kinds|
      requires hasFns <==> exists x :: x in src && IsFn(p, x)
      requires ViewsOk(p, src, views)
      requires forall x :: x in src && Passes(p, f, x) ==> x < |p.kinds| && sol.Mem(cell, x)
      requires forall x :: x in self ==> x < |p.kinds| && sol.Mem(cell, x)
      modifies `memory
      ensures Good() && Ext(p, old(View()), View(), if grew then {cell} else {})
      ensures grew <==> M(old(View()), cell) != M(View(), cell)
      ensures ViewsOk(p, src, views')
      ensures forall x :: x in src && Passes(p, f, x) ==> x in M(View(), cell)
      ensures forall x :: x in self ==> x in M(View(), cell)
    {
      hide Good, Ext, ViewsOk;
      var view;
      view, views' := ViewOf(p, if hasFns then f else Any, src, views);
      assert forall x :: x in view <==> x in src && Passes(p, f, x);
      grew := WriteCell(cell, view + self);
    }

    /** Write a target's summary, unless it is full or this store has already
        written it. */
    method WriteSummary(s: Loc, src: seq<Loc>, self: seq<Loc>, hasFns: bool, written: set<Loc>, views: map<FnFilter, seq<Loc>>)
      returns (grew: bool, written': set<Loc>, views': map<FnFilter, seq<Loc>>)
      requires Good() && s < |p.kinds|
      requires hasFns <==> exists x :: x in src && IsFn(p, x)
      requires ViewsOk(p, src, views) && SummariesDone(p, View(), written, src, self)
      requires forall x :: x in src && Passes(p, SummaryFilter(p, s), x) ==> x < |p.kinds| && sol.Mem(s, x)
      requires forall x :: x in self ==> x < |p.kinds| && sol.Mem(s, x)
      modifies `memory
      ensures Good() && Ext(p, old(View()), View(), if grew then {s} else {})
      ensures grew <==> M(old(View()), s) != M(View(), s)
      ensures ViewsOk(p, src, views') && SummariesDone(p, View(), written', src, self)
      ensures s in written' || |M(View(), s)| >= SUMMARY_MEM_CAP
      ensures s in written || |M(old(View()), s)| >= 1024 ==> View() == old(View())
      ensures s !in written && |M(old(View()), s)| < 1024 ==> written' == written + {s}
    {
      hide Good, Ext, ViewsOk, SummariesDone, SummaryFilter;
      grew, written', views' := false, written, views;
      ghost var st := View();
      if |Lookup(memory, s)| < SUMMARY_MEM_CAP && s !in written {
        grew, views' := WriteView(s, SummaryFilter(p, s), src, self, hasFns, views);
        SummariesStay(p, st, View(), if grew then {s} else {}, written, src, self);
        SummaryWritten(p, View(), written, s, src, self);
        written' := written + {s};
      } else {
        ExtRefl(p, st);
      }
    }

    /** Write the summary a target shares with its other instances, if any. */
    method WriteShared(l: Loc, src: seq<Loc>, self: seq<Loc>, hasFns: bool, written: set<Loc>, views: map<FnFilter, seq<Loc>>)
      returns (written': set<Loc>, views': map<FnFilter, seq<Loc>>, grown: seq<Loc>)
      requires Good() && IsCell(p, l)
      requires hasFns <==> exists x :: x in src && IsFn(p, x)
      requires ViewsOk(p, src, views) && SummariesDone(p, View(), written, src, self)
      requires forall x :: x in src ==> x < |p.kinds| && StoreHolds(p, sol, l, x)
      requires forall x :: x in self ==> x < |p.kinds| && SelfHolds(p, sol, l, x)
      modifies `memory
      ensures Good() && Ext(p, old(View()), View(), Elems(grown))
      ensures forall r :: r in grown ==> M(old(View()), r) != M(View(), r)
      ensures ViewsOk(p, src, views') && SummariesDone(p, View(), written', src, self)
      ensures l in p.summary ==> p.summary[l] in written' || |M(View(), p.summary[l])| >= SUMMARY_MEM_CAP
    {
      hide Good, Ext, ViewsOk, SummariesDone;
      written', views', grown := written, views, [];
      StoreStart(p, View(), src, self);
      if l in p.summary {
        var grew := false;
        SummaryBound(l);
        grew, written', views' := WriteSummary(p.summary[l], src, self, hasFns, written, views);
        grown := if grew then [p.summary[l]] else [];
        assert Elems(grown) == if grew then {p.summary[l]} else {};
      }
    }

    /** Write a store's source through one target: into the cell itself, and once
        per store into the summary it shares with the other instances. */
    method WriteTarget(l: Loc, src: seq<Loc>, self: seq<Loc>, hasFns: bool, written: set<Loc>, views: map<FnFilter, seq<Loc>>)
      returns (written': set<Loc>, views': map<FnFilter, seq<Loc>>, grown: seq<Loc>)
      requires Good() && l < |p.kinds|
      requires hasFns <==> exists x :: x in src && IsFn(p, x)
      requires ViewsOk(p, src, views) && SummariesDone(p, View(), written, src, self)
      requires forall x :: x in src ==> x < |p.kinds| && StoreHolds(p, sol, l, x)
      requires forall x :: x in self ==> x < |p.kinds| && SelfHolds(p, sol, l, x)
      modifies `memory
      ensures Good() && Ext(p, old(View()), View(), Elems(grown))
      ensures forall r :: r in grown ==> M(old(View()), r) != M(View(), r)
      ensures ViewsOk(p, src, views') && SummariesDone(p, View(), written', src, self)
      ensures forall x :: x in src ==> StoreOk(p, View(), l, x)
      ensures forall x :: x in self ==> SelfOk(p, View(), l, x)
    {
      hide Good, Ext, ViewsOk, SummariesDone, StoreOk, SelfOk;
      written', views', grown := written, views, [];
      ghost var st := View();
      if !IsCell(p, l) {
        StoreStart(p, st, src, self);
        NotStored(p, st, l);
        return;
      }
      var grew;
      grew, views' := WriteView(l, FilterOf(p.guard, l), src, self, hasFns, views);
      ghost var st1, d1 := View(), if grew then {l} else {};
      SummariesStay(p, st, st1, d1, written, src, self);
      var more;
      written', views', more := WriteShared(l, src, self, hasFns, written, views');
      grown := (if grew then [l] else []) + more;
      ExtTrans(p, st, st1, View(), d1, Elems(more));
      assert Elems(grown) == d1 + Elems(more);
      TargetOk(p, st1, View(), Elems(more), l, src, self, written');
      forall r | r in grown ensures M(st, r) != M(View(), r) {
        ChangedStays(p, st, st1, View(), d1, Elems(more), r);
      }
    }

    method WriteTargets(targets: seq<Loc>, src: seq<Loc>, self: seq<Loc>) returns (grown: seq<Loc>)
      requires Good()
      requires forall l :: l in targets ==> l < |p.kinds|
      requires forall x :: x in src || x in self ==> x < |p.kinds|
      requires forall l, x :: l in targets && x in src ==> StoreHolds(p, sol, l, x)
      requires forall l, x :: l in targets && x in self ==> SelfHolds(p, sol, l, x)
      modifies `memory
      ensures Good() && Ext(p, old(View()), View(), Elems(grown))
      ensures forall r :: r in grown ==> M(old(View()), r) != M(View(), r)
      ensures Stored(p, View(), targets, src, self)
    {
      hide Good, Ext, ViewsOk, SummariesDone, StoreHolds, SelfHolds, StoreOk, SelfOk;
      ghost var st := View();
      var hasFns := exists x :: x in src && IsFn(p, x);
      var written: set<Loc>, views: map<FnFilter, seq<Loc>> := {}, map[];
      StoreStart(p, st, src, self);
      grown := [];
      for i := 0 to |targets|
        invariant Good() && Ext(p, st, View(), Elems(grown))
        invariant forall r :: r in grown ==> M(st, r) != M(View(), r)
        invariant ViewsOk(p, src, views) && SummariesDone(p, View(), written, src, self)
        invariant Stored(p, View(), targets[..i], src, self)
      {
        ghost var st1, d1 := View(), Elems(grown);
        assert targets[i] in targets;
        var more;
        written, views, more := WriteTarget(targets[i], src, self, hasFns, written, views);
        ExtTrans(p, st, st1, View(), d1, Elems(more));
        assert Elems(grown + more) == d1 + Elems(more);
        forall r | r in grown + more ensures M(st, r) != M(View(), r) {
          ChangedStays(p, st, st1, View(), d1, Elems(more), r);
        }
        grown := grown + more;
        StoredStays(p, st1, View(), Elems(more), targets[..i], src, self);
        assert targets[..i + 1] == targets[..i] + [targets[i]];
      }
      assert targets[..|targets|] == targets;
    }

    /** Requeue the loaders of one grown cell, and let its variable see it. */
    method RequeueCell(loc: Loc, ghost st: State, ghost dirty: set<Loc>)
      requires Good() && Ext(p, st, View(), dirty) && owner == st.owner && synced == st.synced
      modifies `pts, `sizes, `holders, `delta, `pending, `worklist, `queued
      ensures Good() && Ext(p, st, View(), dirty - {loc})
      ensures Ext(p, old(View()), View(), {})
    {
      hide Good, Ext, Touched, LiftedTo, Quiet;
      ghost var st1 := View();
      TouchLocHolders(loc);
      ghost var st2 := View();
      SyncCellToVar(loc);
      TouchedStays(p, st2, View(), {}, loc);
      CleanTrans(p, st1, st2, View(), {});
      CleanTrans(p, st, st1, View(), dirty);
      Absorb(p, st, View(), dirty, dirty - {loc});
    }

    /** Requeue the loaders of every cell a store grew, each cell once. */
    method RequeueGrown(grown: seq<Loc>, ghost st: State)
      requires Good() && Ext(p, st, View(), Elems(grown)) && owner == st.owner && synced == st.synced
      modifies `pts, `sizes, `holders, `delta, `pending, `worklist, `queued
      ensures Good() && Ext(p, st, View(), {})
      ensures Ext(p, old(View()), View(), {})
      ensures grown == [] ==> View() == old(View())
    {
      hide Good, Ext;
      ghost var st0 := View();
      var requeued: set<Loc> := {};
      ExtRefl(p, st0);
      assert Elems(grown) - requeued == Elems(grown);
      for i := 0 to |grown|
        invariant Good() && Ext(p, st, View(), Elems(grown) - requeued) && Ext(p, st0, View(), {})
        invariant forall j :: 0 <= j < i ==> grown[j] in requeued
        invariant grown == [] ==> View() == st0
      {
        var loc := grown[i];
        if loc !in requeued {
          ghost var st1 := View();
          RequeueCell(loc, st, Elems(grown) - requeued);
          CleanTrans(p, st0, st1, View(), {});
          assert Elems(grown) - requeued - {loc} == Elems(grown) - (requeued + {loc});
          requeued := requeued + {loc};
        }
      }
      assert Elems(grown) - requeued == {};
    }

    function SelfOf(n: Node): seq<Loc> {
      if n in p.selfLoc then [p.selfLoc[n]] else []
    }

    lemma ConstraintSound(i: nat)
      requires Good() && i < |constraints|
      ensures ValidConstraint(p, constraints[i]) && Satisfies(p, sol, constraints[i], true)
      ensures constraints[i].Load? ==> i < |p.constraints| && constraints[i] == p.constraints[i]
    {
      hide IsSolution, Linked, OwnersOk, Valid, Wf, Below, ValidConstraint, Satisfies;
      LinkedSound(p, sol, constraints, indices, i);
    }

    /** Every store into what its pointer holds, of what its value holds, is a
        rule instance of the solution. */
    lemma StoreSound(i: nat)
      requires Good() && i < |constraints| && constraints[i].Store?
      ensures var c := constraints[i];
        && (forall l, x :: l in P(View(), c.dst) && x in P(View(), c.src) ==> StoreHolds(p, sol, l, x))
        && (forall l, x :: l in P(View(), c.dst) && x in SelfOf(c.src) ==> SelfHolds(p, sol, l, x))
        && (forall n, l :: l in P(View(), n) ==> l < |p.kinds|)
        && (forall x :: x in SelfOf(c.src) ==> x < |p.kinds|)
    {
      hide IsSolution, Linked, OwnersOk, StoreHolds, SelfHolds, Watermarks, DeltaOk, QueueOk, HoldersOk, SyncOk;
      var c := constraints[i];
      ConstraintSound(i);
      forall l, x | l in P(View(), c.dst) && x in P(View(), c.src) ensures StoreHolds(p, sol, l, x) {
        assert sol.Pt(c.dst, l) && sol.Pt(c.src, x);
      }
      forall l, x | l in P(View(), c.dst) && x in SelfOf(c.src) ensures SelfHolds(p, sol, l, x) {
        assert sol.Pt(c.dst, l);
      }
    }

    /** Write `src` and `self` through `targets` and requeue whoever must know. */
    method StoreThrough(targets: seq<Loc>, src: seq<Loc>, self: seq<Loc>)
      requires Good()
      requires forall l :: l in targets ==> l < |p.kinds|
      requires forall x :: x in src || x in self ==> x < |p.kinds|
      requires forall l, x :: l in targets && x in src ==> StoreHolds(p, sol, l, x)
      requires forall l, x :: l in targets && x in self ==> SelfHolds(p, sol, l, x)
      modifies `memory, `pts, `sizes, `holders, `delta, `pending, `worklist, `queued
      ensures Step(old(View()))
      ensures Stored(p, View(), targets, src, self)
    {
      hide Good, Ext, Stored, StoreHolds, SelfHolds;
      ghost var st := View();
      var grown := WriteTargets(targets, src, self);
      ghost var st1 := View();
      RequeueGrown(grown, st);
      StoredStays(p, st1, View(), {}, targets, src, self);
      if grown != [] {
        ChangedStays(p, st, st1, View(), Elems(grown), {}, grown[0]);
      }
    }

    /** Apply store number `i`, `*dst = src`. `targets == None` stands for every
        location the pointer holds, `written == None` for all the value holds. */
    method ApplyStoreToTargets(i: nat, targets: Option<seq<Loc>>, written: Option<seq<Loc>>)
      returns (ghost ls: seq<Loc>, ghost xs: seq<Loc>)
      requires Good() && i < |constraints| && constraints[i].Store?
      requires targets.Some? ==> forall l :: l in targets.value ==> l in P(View(), constraints[i].dst)
      requires written.Some? ==> forall x :: x in written.value ==> x in P(View(), constraints[i].src)
      modifies `memory, `pts, `sizes, `holders, `delta, `pending, `worklist, `queued
      ensures Step(old(View()))
      ensures if targets.Some? then ls == targets.value else forall l :: l in ls <==> l in P(old(View()), constraints[i].dst)
      ensures if written.Some? then xs == written.value else forall x :: x in xs <==> x in P(old(View()), constraints[i].src)
      ensures Stored(p, View(), ls, xs, SelfOf(constraints[i].src))
    {
      hide IsSolution, Linked, OwnersOk, Valid, Wf, Below, Ext, Quiet, StoreHolds, SelfHolds, StoreOk, SelfOk;
      var c := constraints[i];
      ghost var st := View();
      StoreSound(i);
      var targetSlice, src;
      if targets.Some? { targetSlice := targets.value; } else { targetSlice := InSetOrder(Held(pts, c.dst)); }
      if written.Some? { src := written.value; } else { src := InSetOrder(Held(pts, c.src)); }
      ls, xs := targetSlice, src;
      var self := SelfOf(c.src);
      if (Held(pts, c.src) == {} && self == []) || targetSlice == [] {
        ExtRefl(p, st);
        assert src == [] || targetSlice == [] by {
          if src != [] { assert src[0] in src; }
        }
        return;
      }
      assert forall l :: l in targetSlice ==> l in P(st, c.dst);
      assert forall x :: x in src ==> x in P(st, c.src);
      StoreThrough(targetSlice, src, self);
    }

    // ----- flow constraints

    /** What a flow constraint makes of locations its source holds is sound. */
    lemma FlowSound(i: nat, ls: seq<Loc>)
      requires Good() && i < |constraints| && IsFlow(constraints[i])
      requires forall l :: l in ls ==> l in P(View(), constraints[i].src)
      ensures var c := constraints[i];
        && c.dst < p.nodes
        && (forall l, y {:trigger l in ls, y in Passed(c, l)} :: l in ls && y in Passed(c, l) ==> y < |p.kinds| && sol.Pt(c.dst, y))
        && (c.Gep? ==> GepHolds(p, sol, c) && (c.fallback.Some? ==> c.fallback.value < |p.kinds|))
        && (forall l :: l in ls ==> sol.Pt(c.src, l))
    {
      hide IsSolution, Linked, OwnersOk, Wf, GepHolds;
      var c := constraints[i];
      ConstraintSound(i);
      assert Bounded(p, View()) by { GoodGuards(); }
      forall l | l in ls ensures sol.Pt(c.src, l) && l < |p.kinds| {}
    }

    method AddEach(dst: Node, ys: seq<Loc>)
      requires Good() && dst < p.nodes
      requires forall y :: y in ys ==> y < |p.kinds| && sol.Pt(dst, y)
      modifies `pts, `sizes, `holders, `delta, `pending, `worklist, `queued
      ensures Step(old(View()))
      ensures forall y :: y in ys ==> y in P(View(), dst)
      ensures OnlyGains(old(View()), View(), dst, Given(ys))
    {
      hide Good, Ext, Quiet, Committed, OnlyGains;
      ghost var st := View();
      ExtRefl(p, st);
      OnlySame(st, st, dst, Given(ys));
      for i := 0 to |ys|
        invariant Step(st)
        invariant OnlyGains(st, View(), dst, Given(ys))
        invariant forall j :: 0 <= j < i ==> ys[j] in P(View(), dst)
      {
        ghost var st1 := View();
        assert ys[i] in ys;
        AddPts(dst, ys[i]);
        OnlyOne(st1, View(), dst, ys[i]);
        OnlyTrans(st, st1, View(), dst, Given(ys), iset{ys[i]}, Given(ys));
        StepTrans(st, st1);
        HeldStays(p, st1, View(), dst);
      }
    }

    /** A field access points `dst` at the cells it designates; their contents
        reach `dst` as well. */
    method PointGepAt(dst: Node, cells: seq<Loc>)
      requires Good() && dst < p.nodes
      requires forall y :: y in cells ==> y < |p.kinds| && sol.Pt(dst, y) && Lifts(p, sol, y, dst)
      modifies `pts, `sizes, `holders, `delta, `pending, `worklist, `queued
      ensures Step(old(View()))
      ensures forall y :: y in cells ==> y in P(View(), dst)
      ensures forall i :: 0 <= i < |cells| ==> LiftedTo(p, View(), cells[i], dst)
      ensures OnlyGains(old(View()), View(), dst, CellsYield(p, memory, cells))
    {
      hide Good, Ext, Quiet, Lifts, LiftedTo, OnlyGains, CellsYield, ContentsOf, Given;
      ghost var st := View();
      PropagateLocs(dst, cells);
      OnlyAdded(st, View(), dst, cells);
      CellsListed(p, memory, cells);
      OnlyMore(st, View(), dst, Given(cells), CellsYield(p, memory, cells));
      for i := 0 to |cells|
        invariant Step(st)
        invariant OnlyGains(st, View(), dst, CellsYield(p, memory, cells))
        invariant forall y :: y in cells ==> y in P(View(), dst)
        invariant forall j :: 0 <= j < i ==> LiftedTo(p, View(), cells[j], dst)
      {
        ghost var st1 := View();
        MergeMemory(dst, cells[i]);
        ContentsYield(p, memory, cells, i);
        OnlyTrans(st, st1, View(), dst, CellsYield(p, memory, cells), ContentsOf(p, memory, cells[i]), CellsYield(p, memory, cells));
        StepTrans(st, st1);
        HeldStays(p, st1, View(), dst);
        forall j | 0 <= j < i ensures LiftedTo(p, View(), cells[j], dst) {
          LiftedStays(p, st1, View(), cells[j], dst);
        }
      }
    }

    /** What one base location contributes to a field access: cells with their
        contents, and functions passed through. */
    method GepLoc(c: Constraint, l: Loc) returns (produced: bool)
      requires Good() && c.Gep? && c.dst < p.nodes
      requires forall y :: y in Lookup(c.cells, l) ==> y < |p.kinds| && sol.Pt(c.dst, y) && Lifts(p, sol, y, c.dst)
      requires forall y :: y in Lookup(c.fns, l) ==> y < |p.kinds| && sol.Pt(c.dst, y)
      modifies `pts, `sizes, `holders, `delta, `pending, `worklist, `queued
      ensures Step(old(View()))
      ensures forall y :: y in Passed(c, l) ==> y in P(View(), c.dst)
      ensures forall y :: y in Lookup(c.cells, l) ==> LiftedTo(p, View(), y, c.dst)
      ensures produced <==> Lookup(c.cells, l) != []
      ensures OnlyGains(old(View()), View(), c.dst, LocYield(p, memory, c, l))
    {
      hide Good, Ext, Quiet, Lifts, LiftedTo, OnlyGains, CellsYield, Given;
      ghost var st := View();
      var cells, fns := Lookup(c.cells, l), Lookup(c.fns, l);
      produced := cells != [];
      if produced {
        PointGepAt(c.dst, cells);
      } else {
        ExtRefl(p, st);
        OnlySame(st, st, c.dst, CellsYield(p, memory, cells));
      }
      ghost var st1 := View();
      AddEach(c.dst, fns);
      OnlyTrans(st, st1, View(), c.dst, CellsYield(p, memory, cells), Given(fns), LocYield(p, memory, c, l));
      StepTrans(st, st1);
      HeldStays(p, st1, View(), c.dst);
      forall y | y in cells ensures LiftedTo(p, View(), y, c.dst) {
        LiftedStays(p, st1, View(), y, c.dst);
      }
    }

    /** Point a field access at the summary of its declared type. */
    method FallBack(c: Constraint)
      requires Good() && c.Gep? && c.fallback.Some? && c.dst < p.nodes && c.fallback.value < |p.kinds|
      requires sol.Pt(c.dst, c.fallback.value) && Lifts(p, sol, c.fallback.value, c.dst)
      modifies `pts, `sizes, `holders, `delta, `pending, `worklist, `queued
      ensures Step(old(View())) && FellBack(p, View(), c)
      ensures OnlyGains(old(View()), View(), c.dst, CellsYield(p, memory, [c.fallback.value]))
    {
      hide Good, Ext, Quiet, Lifts, LiftedTo, OnlyGains, CellsYield;
      var cells := [c.fallback.value];
      PointGepAt(c.dst, cells);
      assert cells[0] in cells;
    }

    /** The cells and functions a field access makes of location number `k`. */
    method GepNth(i: nat, ls: seq<Loc>, k: nat) returns (cell: bool)
      requires Good() && i < |constraints| && constraints[i].Gep? && k < |ls|
      requires forall l :: l in ls ==> l in P(View(), constraints[i].src)
      requires Flowed(View(), constraints[i], ls[..k]) && CellsReach(p, View(), constraints[i], ls[..k])
      modifies `pts, `sizes, `holders, `delta, `pending, `worklist, `queued
      ensures Step(old(View()))
      ensures Flowed(View(), constraints[i], ls[..k + 1]) && CellsReach(p, View(), constraints[i], ls[..k + 1])
      ensures cell <==> Lookup(constraints[i].cells, ls[k]) != []
      ensures OnlyGains(old(View()), View(), constraints[i].dst, LocYield(p, memory, constraints[i], ls[k]))
    {
      hide Good, Ext, Quiet, Lifts, GepHolds, Flowed, LiftedTo, CellsReach, OnlyGains, LocYield;
      ghost var st1 := View();
      var c := constraints[i];
      FlowSound(i, ls);
      assert ls[k] in ls;
      GepLifts(p, sol, c, ls[k]);
      assert forall y :: y in Passed(c, ls[k]) <==> y in Lookup(c.cells, ls[k]) || y in Lookup(c.fns, ls[k]);
      cell := GepLoc(c, ls[k]);
      FlowedStays(p, st1, View(), c, ls[..k]);
      FlowedSnoc(View(), c, ls[..k], ls[k]);
      CellsReachStays(p, st1, View(), c, ls[..k]);
      CellsReachSnoc(p, View(), c, ls[..k], ls[k]);
      assert ls[..k + 1] == ls[..k] + [ls[k]];
    }

    /** The cells and functions a field access makes of each location; says
        whether any designates a cell. */
    method GepEach(i: nat, ls: seq<Loc>) returns (produced: bool)
      requires Good() && i < |constraints| && constraints[i].Gep?
      requires forall l :: l in ls ==> l in P(View(), constraints[i].src)
      modifies `pts, `sizes, `holders, `delta, `pending, `worklist, `queued
      ensures Step(old(View()))
      ensures Flowed(View(), constraints[i], ls) && CellsReach(p, View(), constraints[i], ls)
      ensures produced <==> exists k :: 0 <= k < |ls| && Lookup(constraints[i].cells, ls[k]) != []
      ensures OnlyGains(old(View()), View(), constraints[i].dst, LocsYield(p, memory, constraints[i], ls))
    {
      hide Good, Ext, Quiet, Flowed, CellsReach, OnlyGains, LocsYield, LocYield;
      ghost var st := View();
      var c := constraints[i];
      ExtRefl(p, st);
      FlowedNone(st, c);
      NoCells(p, st, c);
      OnlySame(st, st, c.dst, LocsYield(p, memory, c, ls[..0]));
      produced := false;
      for k := 0 to |ls|
        invariant Step(st)
        invariant Flowed(View(), c, ls[..k]) && CellsReach(p, View(), c, ls[..k])
        invariant OnlyGains(st, View(), c.dst, LocsYield(p, memory, c, ls[..k]))
        invariant produced <==> exists j :: 0 <= j < k && Lookup(c.cells, ls[j]) != []
      {
        ghost var st1 := View();
        HeldStays(p, st, st1, c.src);
        var cell := GepNth(i, ls, k);
        LocsYieldSnoc(p, memory, c, ls, k);
        OnlyTrans(st, st1, View(), c.dst, LocsYield(p, memory, c, ls[..k]), LocYield(p, memory, c, ls[k]), LocsYield(p, memory, c, ls[..k + 1]));
        produced := produced || cell;
        StepTrans(st, st1);
      }
      assert ls[..|ls|] == ls;
    }

    /** A field access over new base locations, with the fallback to the
        declared type's summary when none of them yields a cell. */
    method GepStep(i: nat, ls: seq<Loc>)
      requires Good() && i < |constraints| && constraints[i].Gep?
      requires forall l :: l in ls ==> l in P(View(), constraints[i].src)
      modifies `pts, `sizes, `holders, `delta, `pending, `worklist, `queued
      ensures Step(old(View()))
      ensures Flowed(View(), constraints[i], ls) && CellsReach(p, View(), constraints[i], ls)
      ensures (forall k :: 0 <= k < |ls| ==> Lookup(constraints[i].cells, ls[k]) == []) ==> FellBack(p, View(), constraints[i])
      ensures OnlyGains(old(View()), View(), constraints[i].dst, FieldYield(p, memory, constraints[i], ls))
    {
      hide Good, Ext, Quiet, Lifts, GepHolds, Flowed, LiftedTo, CellsReach, OnlyGains, LocsYield, CellsYield;
      ghost var st := View();
      var c := constraints[i];
      FlowSound(i, ls);
      var produced := GepEach(i, ls);
      OnlyMore(st, View(), c.dst, LocsYield(p, memory, c, ls), FieldYield(p, memory, c, ls));
      if !produced && c.fallback.Some? {
        ghost var st3 := View();
        GepLifts(p, sol, c, 0);
        FallBack(c);
        OnlyTrans(st, st3, View(), c.dst, FieldYield(p, memory, c, ls), CellsYield(p, memory, [c.fallback.value]), FieldYield(p, memory, c, ls));
        StepTrans(st, st3);
        FlowedStays(p, st3, View(), c, ls);
        CellsReachStays(p, st3, View(), c, ls);
      }
    }

    /** Flow constraint number `i` over the new locations of its source. */
    method FlowStep(i: nat, ls: seq<Loc>)
      requires Good() && i < |constraints| && IsFlow(constraints[i])
      requires forall l :: l in ls ==> l in P(View(), constraints[i].src)
      modifies `pts, `sizes, `holders, `delta, `pending, `worklist, `queued
      ensures Step(old(View()))
      ensures FlowDone(p, old(View()), View(), constraints[i], ls)
      ensures OnlyGains(old(View()), View(), constraints[i].dst, StepYield(p, memory, constraints[i], ls))
    {
      hide Good, Ext, Quiet, CellsReach, FellBack, FieldDone, OnlyGains, FieldYield;
      ghost var st := View();
      var c := constraints[i];
      FlowSound(i, ls);
      match c
      case Copy(_, _) =>
        assert forall l :: l in ls ==> l in Passed(c, l);
        PropagateLocs(c.dst, ls);
        OnlyAdded(st, View(), c.dst, ls);
      case Unwrap(_, _, admitted) =>
        var kept := Keep(ls, admitted);
        assert forall l :: l in kept ==> l in Passed(c, l);
        PropagateLocs(c.dst, kept);
        OnlyAdded(st, View(), c.dst, kept);
        OnlyMore(st, View(), c.dst, Given(kept), StepYield(p, memory, c, ls));
      case Gep(_, _, _, _, _) =>
        GepStep(i, ls);
        FieldApplied(p, st, View(), c, ls);
      case Dlsym(_, _, named) =>
        DlsymStep(i, ls);
    }

    /** String literals reaching a `dlsym` name the functions it may return. */
    method DlsymStep(i: nat, ls: seq<Loc>)
      requires Good() && i < |constraints| && constraints[i].Dlsym?
      requires forall l :: l in ls ==> l in P(View(), constraints[i].src)
      modifies `pts, `sizes, `holders, `delta, `pending, `worklist, `queued
      ensures Step(old(View()))
      ensures Flowed(View(), constraints[i], ls)
      ensures OnlyGains(old(View()), View(), constraints[i].dst, StepYield(p, memory, constraints[i], ls))
    {
      hide Good, Ext, Quiet, Flowed, OnlyGains;
      ghost var st := View();
      var c := constraints[i];
      FlowSound(i, ls);
      ExtRefl(p, st);
      FlowedNone(st, c);
      OnlySame(st, st, c.dst, StepYield(p, memory, c, ls));
      for k := 0 to |ls|
        invariant Good() && Step(st)
        invariant OnlyGains(st, View(), c.dst, StepYield(p, memory, c, ls))
        invariant Flowed(View(), c, ls[..k])
      {
        ghost var st1 := View();
        assert ls[k] in ls;
        assert forall y :: y in Lookup(c.named, ls[k]) ==> y in Passed(c, ls[k]);
        AddEach(c.dst, Lookup(c.named, ls[k]));
        NamesYield(p, memory, c, ls, k);
        OnlyTrans(st, st1, View(), c.dst, StepYield(p, memory, c, ls), Given(Lookup(c.named, ls[k])), StepYield(p, memory, c, ls));
        StepTrans(st, st1);
        FlowedStays(p, st1, View(), c, ls[..k]);
        FlowedSnoc(View(), c, ls[..k], ls[k]);
        assert ls[..k + 1] == ls[..k] + [ls[k]];
      }
      assert ls[..|ls|] == ls;
    }

    /** Some constraints filed under `node`, in turn. */
    method FlowEach(idxs: seq<nat>, node: Node, ls: seq<Loc>)
      requires Good()
      requires forall j :: 0 <= j < |idxs| ==> idxs[j] < |constraints| && IsFlow(constraints[idxs[j]]) && constraints[idxs[j]].src == node
      requires forall l :: l in ls ==> l in P(View(), node)
      modifies `pts, `sizes, `holders, `delta, `pending, `worklist, `queued
      ensures Step(old(View()))
      ensures forall j :: 0 <= j < |idxs| ==> FlowDone(p, old(View()), View(), constraints[idxs[j]], ls)
    {
      hide Good, Ext, Quiet, FlowDone;
      ghost var st := View();
      ExtRefl(p, st);
      for k := 0 to |idxs|
        invariant Good() && Step(st)
        invariant forall j :: 0 <= j < k ==> FlowDone(p, st, View(), constraints[idxs[j]], ls)
      {
        ghost var st1 := View();
        HeldStays(p, st, st1, node);
        FlowStep(idxs[k], ls);
        StepTrans(st, st1);
        ExtRefl(p, st);
        ExtRefl(p, View());
        FlowDoneLater(p, st, st1, View(), View(), constraints[idxs[k]], ls);
        forall j | 0 <= j < k ensures FlowDone(p, st, View(), constraints[idxs[j]], ls) {
          FlowDoneLater(p, st, st, st1, View(), constraints[idxs[j]], ls);
        }
      }
    }

    /** Every flow constraint `ix` lists under `node`, over its new locations. */
    method FlowAll(ix: Index, ghost key: Constraint -> Option<Node>, node: Node, ls: seq<Loc>)
      requires Good() && Lists(constraints, ix, key)
      requires forall c :: key(c).Some? ==> IsFlow(c) && key(c).value == c.src
      requires forall l :: l in ls ==> l in P(View(), node)
      modifies `pts, `sizes, `holders, `delta, `pending, `worklist, `queued
      ensures Step(old(View()))
      ensures KindDone(p, View(), key, node, ls)
      ensures forall i: nat :: i < |constraints| && key(constraints[i]) == Some(node) && constraints[i].Gep? ==>
        FieldDone(p, old(View()), View(), constraints[i], ls)
      ensures Under(ix, node) == [] ==> View() == old(View())
    {
      hide Good, Ext, Quiet, Flowed, FieldDone;
      var idxs := Under(ix, node);
      Listed(constraints, ix, key, node);
      ExtRefl(p, View());
      if idxs == [] {
        return;
      }
      assert forall j :: 0 <= j < |idxs| ==> idxs[j] in idxs;
      FlowEach(idxs, node, ls);
      forall i, l | 0 <= i < |constraints| && key(constraints[i]) == Some(node) && l in ls
        ensures Ob(p, View(), constraints[i], l)
      {
        assert i in idxs;
        FlowedOb(p, View(), constraints[i], ls, l);
      }
      forall i: nat | i < |constraints| && key(constraints[i]) == Some(node) && constraints[i].Gep?
        ensures FieldDone(p, old(View()), View(), constraints[i], ls)
      {
        assert i in idxs;
      }
    }

    // ----- loads and stores of a popped node

    /** Load number `i` over new locations of its pointer. */
    method LoadNew(i: nat, ls: seq<Loc>)
      requires Good() && i < |constraints| && constraints[i].Load?
      requires forall l :: l in ls ==> l in P(View(), constraints[i].src)
      modifies `pts, `sizes, `holders, `delta, `pending, `worklist, `queued
      ensures Step(old(View())) && Loaded(p, View(), constraints[i].dst, ls)
    {
      hide Good, Ext, Quiet, LoadHolds, LoadBatch, LoadOk;
      LoadSound(i, ls);
      var _ := LoadInto(constraints[i].dst, ls);
      LoadedNow(p, View(), constraints[i].dst, ls);
    }

    /** Every load through `node` over its new locations. */
    method LoadAll(node: Node, ls: seq<Loc>)
      requires Good()
      requires forall l :: l in ls ==> l in P(View(), node)
      modifies `pts, `sizes, `holders, `delta, `pending, `worklist, `queued
      ensures Step(old(View()))
      ensures forall i: nat :: i < |constraints| && LoadKey(constraints[i]) == Some(node) ==>
        Loaded(p, View(), constraints[i].dst, ls)
      ensures Under(indices.loadSrc, node) == [] ==> View() == old(View())
    {
      hide Good, Ext, Quiet, Loaded;
      ghost var st := View();
      var idxs := Under(indices.loadSrc, node);
      LoadListed(node);
      ExtRefl(p, st);
      if idxs == [] {
        return;
      }
      assert forall j :: 0 <= j < |idxs| ==> idxs[j] in idxs;
      for k := 0 to |idxs|
        invariant Good() && Step(st)
        invariant memory == old(memory)
        invariant forall j :: 0 <= j < k ==> Loaded(p, View(), constraints[idxs[j]].dst, ls)
      {
        ghost var st1 := View();
        assert idxs[k] in idxs;
        HeldStays(p, st, st1, node);
        LoadNew(idxs[k], ls);
        StepTrans(st, st1);
        forall j | 0 <= j < k ensures Loaded(p, View(), constraints[idxs[j]].dst, ls) {
          LoadedStays(p, st1, View(), constraints[idxs[j]].dst, ls);
        }
      }
    }

    lemma LoadListed(node: Node)
      requires Good()
      ensures forall i: nat :: i in Under(indices.loadSrc, node) <==> i < |constraints| && LoadKey(constraints[i]) == Some(node)
    {
      hide IsSolution, Wf, Below, Valid;
      Listed(constraints, indices.loadSrc, LoadKey, node);
    }

    lemma StoresListed(node: Node)
      requires Good()
      ensures forall i: nat :: i in Under(indices.storeDst, node) <==> i < |constraints| && StoreDstKey(constraints[i]) == Some(node)
      ensures forall i: nat :: i in Under(indices.storeSrc, node) <==> i < |constraints| && StoreSrcKey(constraints[i]) == Some(node)
    {
      hide IsSolution, Wf, Below, Valid;
      Listed(constraints, indices.storeDst, StoreDstKey, node);
      Listed(constraints, indices.storeSrc, StoreSrcKey, node);
    }

    /** Store number `i` through new targets of its pointer. */
    method StoreNewTargets(i: nat, ls: seq<Loc>)
      requires Good() && i < |constraints| && constraints[i].Store?
      requires forall l :: l in ls ==> l in P(View(), constraints[i].dst)
      modifies `memory, `pts, `sizes, `holders, `delta, `pending, `worklist, `queued
      ensures Step(old(View())) && TargetsDone(p, View(), constraints[i], ls)
    {
      hide Good, Ext, Quiet, TargetsDone, Stored;
      ghost var st := View();
      ghost var _, xs := ApplyStoreToTargets(i, Some(ls), None);
      StoreDstDone(p, st, View(), constraints[i], ls, xs, SelfOf(constraints[i].src));
    }

    /** Store number `i` of new values, `xs`, taken in the order `order`. */
    method StoreNewValues(i: nat, xs: seq<Loc>, order: seq<Loc>)
      requires Good() && i < |constraints| && constraints[i].Store?
      requires forall x :: x in order <==> x in xs
      requires forall x :: x in xs ==> x in P(View(), constraints[i].src)
      modifies `memory, `pts, `sizes, `holders, `delta, `pending, `worklist, `queued
      ensures Step(old(View())) && ValuesDone(p, View(), constraints[i], xs)
    {
      hide Good, Ext, Quiet, ValuesDone, Stored;
      ghost var st := View();
      ghost var ls, _ := ApplyStoreToTargets(i, None, Some(order));
      StoreSrcDone(p, st, View(), constraints[i], ls, order, SelfOf(constraints[i].src), xs);
    }

    /** Every store through `node`: its new targets take the value's whole set. */
    method StoreDstAll(node: Node, ls: seq<Loc>)
      requires Good()
      requires forall l :: l in ls ==> l in P(View(), node)
      modifies `memory, `pts, `sizes, `holders, `delta, `pending, `worklist, `queued
      ensures Step(old(View()))
      ensures forall i: nat :: i < |constraints| && StoreDstKey(constraints[i]) == Some(node) ==>
        TargetsDone(p, View(), constraints[i], ls)
      ensures Under(indices.storeDst, node) == [] ==> View() == old(View())
    {
      hide Good, Ext, Quiet, TargetsDone, Stored;
      ghost var st := View();
      var idxs := Under(indices.storeDst, node);
      StoresListed(node);
      ExtRefl(p, st);
      if idxs == [] {
        return;
      }
      assert forall j :: 0 <= j < |idxs| ==> idxs[j] in idxs;
      StoreEachTarget(idxs, node, ls);
      forall i: nat | i < |constraints| && StoreDstKey(constraints[i]) == Some(node) ensures TargetsDone(p, View(), constraints[i], ls) {
        assert i in idxs;
      }
    }

    /** Some stores through `node`, in turn. */
    method StoreEachTarget(idxs: seq<nat>, node: Node, ls: seq<Loc>)
      requires Good()
      requires forall j :: 0 <= j < |idxs| ==> idxs[j] < |constraints| && constraints[idxs[j]].Store? && constraints[idxs[j]].dst == node
      requires forall l :: l in ls ==> l in P(View(), node)
      modifies `memory, `pts, `sizes, `holders, `delta, `pending, `worklist, `queued
      ensures Step(old(View()))
      ensures forall j :: 0 <= j < |idxs| ==> TargetsDone(p, View(), constraints[idxs[j]], ls)
    {
      hide Good, Ext, Quiet, TargetsDone;
      ghost var st := View();
      ExtRefl(p, st);
      for k := 0 to |idxs|
        invariant Step(st)
        invariant forall j :: 0 <= j < k ==> TargetsDone(p, View(), constraints[idxs[j]], ls)
      {
        ghost var st1 := View();
        HeldStays(p, st, st1, node);
        StoreNewTargets(idxs[k], ls);
        StepTrans(st, st1);
        forall j | 0 <= j < k ensures TargetsDone(p, View(), constraints[idxs[j]], ls) {
          StoreDoneStays(p, st1, View(), constraints[idxs[j]], ls);
        }
      }
    }

    /** New locations in the order the node's set yields them. */
    method OrderHeld(node: Node, xs: seq<Loc>) returns (order: seq<Loc>)
      requires forall x :: x in xs ==> x in Held(pts, node)
      ensures NoDup(order) && forall x :: x in order <==> x in xs
    {
      order := InSetOrder(set x | x in Held(pts, node) && x in xs);
    }

    /** Every store of `node`: its new locations go into every target held. */
    method StoreSrcAll(node: Node, xs: seq<Loc>)
      requires Good()
      requires forall x :: x in xs ==> x in P(View(), node)
      modifies `memory, `pts, `sizes, `holders, `delta, `pending, `worklist, `queued
      ensures Step(old(View()))
      ensures forall i: nat :: i < |constraints| && StoreSrcKey(constraints[i]) == Some(node) ==>
        ValuesDone(p, View(), constraints[i], xs)
      ensures Under(indices.storeSrc, node) == [] ==> View() == old(View())
    {
      hide Good, Ext, Quiet, ValuesDone, Stored;
      ghost var st := View();
      var idxs := Under(indices.storeSrc, node);
      StoresListed(node);
      ExtRefl(p, st);
      if idxs == [] {
        return;
      }
      assert forall j :: 0 <= j < |idxs| ==> idxs[j] in idxs;
      var order := OrderHeld(node, xs);
      StoreEachValue(idxs, node, xs, order);
      forall i: nat | i < |constraints| && StoreSrcKey(constraints[i]) == Some(node) ensures ValuesDone(p, View(), constraints[i], xs) {
        assert i in idxs;
      }
    }

    /** Some stores of `node`, in turn. */
    method StoreEachValue(idxs: seq<nat>, node: Node, xs: seq<Loc>, order: seq<Loc>)
      requires Good()
      requires forall j :: 0 <= j < |idxs| ==> idxs[j] < |constraints| && constraints[idxs[j]].Store? && constraints[idxs[j]].src == node
      requires forall x :: x in order <==> x in xs
      requires forall x :: x in xs ==> x in P(View(), node)
      modifies `memory, `pts, `sizes, `holders, `delta, `pending, `worklist, `queued
      ensures Step(old(View()))
      ensures forall j :: 0 <= j < |idxs| ==> ValuesDone(p, View(), constraints[idxs[j]], xs)
    {
      hide Good, Ext, Quiet, ValuesDone;
      ghost var st := View();
      ExtRefl(p, st);
      for k := 0 to |idxs|
        invariant Step(st)
        invariant forall j :: 0 <= j < k ==> ValuesDone(p, View(), constraints[idxs[j]], xs)
      {
        ghost var st1 := View();
        HeldStays(p, st, st1, node);
        StoreNewValues(idxs[k], xs, order);
        StepTrans(st, st1);
        forall j | 0 <= j < k ensures ValuesDone(p, View(), constraints[idxs[j]], xs) {
          StoreDoneStays(p, st1, View(), constraints[idxs[j]], xs);
        }
      }
    }

    lemma LoadSound(i: nat, ls: seq<Loc>)
      requires Good() && i < |constraints| && constraints[i].Load?
      requires forall l :: l in ls ==> l in P(View(), constraints[i].src)
      ensures constraints[i].dst < p.nodes
      ensures forall l :: l in ls ==> l < |p.kinds| && LoadHolds(p, sol, constraints[i].dst, l)
    {
      hide IsSolution, Linked, OwnersOk, LoadHolds, Watermarks, DeltaOk, QueueOk, HoldersOk, SyncOk;
      var c := constraints[i];
      ConstraintSound(i);
      forall l | l in ls ensures LoadHolds(p, sol, c.dst, l) {
        assert sol.Pt(c.src, l);
      }
    }

    // ----- calls

    /** Event objects and watched variables on record come from calls the
        solution resolves. */
    ghost predicate EventsSound()
      reads `links
    {
      && (forall n :: n in links.registered ==> Active(p, sol, Registers(n)))
      && (forall n :: n in links.waiting ==> Active(p, sol, Waits(n)))
      && (forall j :: 0 <= j < |links.watch| ==> Active(p, sol, Watches(links.watch[j].0, links.watch[j].1)))
    }

    /** The first effect on each pair of arguments decided what joined. */
    ghost predicate ModelsOk()
      reads `constraints, `links, `effects
    {
      |p.constraints| <= |constraints| && EffectsOk(p, constraints, links.model, effects)
    }

    ghost predicate Linking()
      reads this
    {
      WiringOk(p, View()) && TakenOk() && EventsSound() && ModelsOk()
    }

    /** A sound step from `st` that may have added constraints, all of them met
        or recorded as owing. */
    ghost predicate Wired(st: State)
      reads this
    {
      Good() && Linking() && Ext(p, st, View(), {}) && Since(p, st, View())
    }

    lemma WiredTrans(s0: State, s1: State)
      requires Ext(p, s0, s1, {}) && Since(p, s0, s1) && Wired(s1) && p.constraints <= s0.constraints
      ensures Wired(s0)
    {
      hide Good, Linking, Ext, Since;
      CleanTrans(p, s0, s1, View(), {});
      ConstraintsStay(p, s0, s1);
      ConstraintsStay(p, s1, View());
      AddedNoLoads(s1.constraints);
      SinceTrans(p, s0, s1, View());
    }

    /** A step that wires nothing is one that may have. */
    lemma StepWired(st: State)
      requires Step(st) && WiringOk(p, st) && TakenOk() && EventsSound() && ModelsOk()
      requires links == st.links && owing == st.owing && resolved == st.resolved && constraints == st.constraints
      ensures Wired(st)
    {
      hide Good, Ext, Quiet, WiringOk, Since, EventsSound, TakenOk, ModelsOk;
      WiringStays(p, st, View());
      SinceSame(p, st, View());
    }

    /** Add a constraint to the list and its indices. */
    method AddToList(c: Constraint, ghost owed: set<Loc>)
      requires Good() && WiringOk(p, View()) && AddedOk(p, sol, c) && owed <= P(View(), c.src)
      modifies `constraints, `indices, `owing
      ensures Good() && Ext(p, old(View()), View(), {}) && WiringOk(p, View())
      ensures constraints == old(constraints) + [c]
      ensures owing == Owing(old(owing), |old(constraints)|, owed)
    {
      hide IsSolution, Valid, Wf, Below, Ext, Linked, OwnersOk, WiringOk, AddConstraint, AddedOk, Owing;
      ghost var st := View();
      LinkedSnoc(p, sol, constraints, indices, c);
      owing := Owing(owing, |constraints|, owed);
      indices := AddConstraint(indices, c, |constraints|);
      constraints := constraints + [c];
      Appended(p, sol, st, View(), c, owed);
    }

    /** A constraint that no record is kept of. */
    method AddPlain(c: Constraint, ghost owed: set<Loc>)
      requires Good() && WiringOk(p, View()) && ModelsOk() && AddedOk(p, sol, c) && owed <= P(View(), c.src) && !c.Store?
      modifies `constraints, `indices, `owing
      ensures Good() && Ext(p, old(View()), View(), {}) && WiringOk(p, View()) && ModelsOk()
      ensures constraints == old(constraints) + [c]
      ensures owing == Owing(old(owing), |old(constraints)|, owed)
    {
      hide Good, Ext, WiringOk, AddedOk, Owing, EffectsOk;
      EffectsKept(p, constraints, links.model, effects, c);
      AddToList(c, owed);
    }

    method Enqueue(n: Node)
      requires Good() && n < p.nodes
      modifies `worklist, `queued
      ensures Good() && Ext(p, old(View()), View(), {})
      ensures n in queued && old(queued) <= queued
      ensures worklist == AppendNew(old(worklist), [n])
    {
      hide IsSolution, Valid, Wf, Below, Ext, Linked, OwnersOk;
      ghost var st := View();
      QueuedOnce(p, st, n);
      Push(n);
      PushOk(p, sol, st, View(), n);
    }

    /** Add a copy from `actual` to `formal` and index it, so later growth of the
        actual still reaches the formal; the actual is queued if it holds
        anything. */
    method EnsureParamCopy(actual: Node, formal: Node, ghost owed: set<Loc>)
      requires Good() && WiringOk(p, View()) && ModelsOk() && AddedOk(p, sol, Copy(formal, actual)) && owed <= P(View(), actual)
      modifies `constraints, `indices, `owing, `worklist, `queued
      ensures Good() && Ext(p, old(View()), View(), {}) && WiringOk(p, View())
      ensures constraints == old(constraints) + [Copy(formal, actual)]
      ensures owing == Owing(old(owing), |old(constraints)|, owed)
      ensures P(View(), actual) != {} ==> actual in queued
      ensures ModelsOk()
    {
      hide Good, Ext, AddedOk, SoundAdd, Due, WiringOk, Owing, ModelsOk;
      AddedSound(p, sol, Copy(formal, actual));
      ghost var st := View();
      assert actual < p.nodes by { AddedEnds(p, sol, Copy(formal, actual)); }
      AddPlain(Copy(formal, actual), owed);
      ghost var st1 := View();
      if Held(pts, actual) != {} {
        Enqueue(actual);
        CleanTrans(p, st, st1, View(), {});
        WiringStays(p, st1, View());
      }
    }

    /** Give `formal` what `actual` holds now. */
    method CopyNow(actual: Node, formal: Node)
      requires Good() && SoundAdd(p, sol, Copy(formal, actual))
      modifies `pts, `holders, `delta, `pending, `worklist, `queued
      ensures Step(old(View()))
      ensures P(View(), actual) <= P(View(), formal) || actual == formal
      ensures P(old(View()), actual) <= P(View(), formal)
    {
      hide Ext, Quiet, Valid, IsSolution, Linked, OwnersOk, Wf, Below;
      ghost var st := View();
      AddedEnds(p, sol, Copy(formal, actual));
      CopySound(p, sol, st, actual, formal);
      var held := InSetOrder(Held(pts, actual));
      assert forall l :: l in held <==> l in P(st, actual);
      PropagateLocs(formal, held);
      forall x | x in P(st, actual) ensures x in P(View(), formal) {
        assert x in held;
      }
      assert actual != formal ==> P(View(), actual) == P(st, actual);
    }

    /** A copy that joins for good, seeded with what its source holds. */
    method JoinSeeded(actual: Node, formal: Node)
      requires Good() && Linking() && AddedOk(p, sol, Copy(formal, actual))
      modifies `constraints, `indices, `owing, `worklist, `queued, `pts, `holders, `delta, `pending
      ensures Wired(old(View())) && Joins(p, View(), actual, formal)
      ensures constraints == old(constraints) + [Copy(formal, actual)]
      ensures P(old(View()), actual) <= P(View(), formal)
    {
      hide Good, Ext, Quiet, AddedOk, WiringOk, Since, TakenOk, EventsSound, ModelsOk, Ob, ObStore, SoundAdd, Due;
      AddedSound(p, sol, Copy(formal, actual));
      ghost var st := View();
      EnsureParamCopy(actual, formal, {});
      ghost var st1 := View();
      HeldStays(p, st, st1, actual);
      CopyNow(actual, formal);
      CleanTrans(p, st, st1, View(), {});
      WiringStays(p, st1, View());
      CopySeeded(p, View(), actual, formal);
      assert constraints[|st.constraints|] == Copy(formal, actual);
      SinceOneStep(p, st, View());
      AddedEnds(p, sol, Copy(formal, actual));
      assert CopyAt(View(), |st.constraints|, actual, formal);
    }

    /** A copy that joins without being seeded, a model's or a returned one. What
        it owes is exactly what its source has settled and its destination
        lacks; anything its source has yet to propagate will arrive. */
    method JoinUnseeded(src: Node, dst: Node, model: bool)
      requires Good() && Linking() && AddedOk(p, sol, Copy(dst, src))
      modifies `constraints, `indices, `owing, `worklist, `queued
      ensures Wired(old(View()))
      ensures constraints == old(constraints) + [Copy(dst, src)]
      ensures Owed(View(), |old(constraints)|) == Missing(old(View()), src, dst)
      ensures model && P(View(), src) != {} ==> src in queued
      ensures !model ==> worklist == old(worklist)
    {
      hide Good, Ext, AddedOk, WiringOk, Since, TakenOk, EventsSound, ModelsOk, Ob, ObStore;
      ghost var st := View();
      ghost var owed := Missing(st, src, dst);
      if model {
        EnsureParamCopy(src, dst, owed);
      } else {
        AddPlain(Copy(dst, src), owed);
      }
      CopyUnowed(p, st, src, dst);
      assert constraints[|st.constraints|] == Copy(dst, src);
      OwedNow(View(), |st.constraints|, owed);
      forall l | l !in owed ensures Ob(p, View(), Copy(dst, src), l) {
        ObStays(p, st, View(), Copy(dst, src), l);
      }
      CopyUnowed(p, View(), src, dst);
      SinceOneStep(p, st, View());
    }

    /** Wire one argument: a persistent copy where the types allow it, and in any
        case what the actual holds now. */
    method WireParam(actual: Node, formal: Node, persistent: bool)
      requires Good() && Linking() && SoundAdd(p, sol, Copy(formal, actual))
      requires persistent ==> AddedOk(p, sol, Copy(formal, actual))
      modifies `constraints, `indices, `links, `owing, `worklist, `queued, `pts, `holders, `delta, `pending
      ensures Wired(old(View()))
      ensures P(old(View()), actual) <= P(View(), formal)
      ensures links.wired == if persistent then old(links.wired) + {(actual, formal)} else old(links.wired)
      ensures links == old(links).(wired := links.wired) && Quiet(old(View()), View())
      ensures constraints == old(constraints) +
        if persistent && (actual, formal) !in old(links.wired) then [Copy(formal, actual)] else []
    {
      hide Good, Ext, Quiet, AddedOk, WiringOk, Since, TakenOk, EventsSound, ModelsOk, Joins;
      ghost var st := View();
      if persistent && (actual, formal) !in links.wired {
        JoinSeeded(actual, formal);
        RecordPair(st, actual, formal);
        PairIsNews(st, View(), actual, formal);
      } else {
        CopyNow(actual, formal);
        StepWired(st);
        assert persistent ==> links.wired == links.wired + {(actual, formal)};
      }
    }

    method RecordPair(ghost st: State, actual: Node, formal: Node)
      requires Wired(st) && Joins(p, View(), actual, formal)
      modifies `links
      ensures Wired(st) && links == old(links).(wired := old(links).wired + {(actual, formal)})
    {
      hide IsSolution, Valid, Wf, Below, Linked, OwnersOk, WiringOk, Since, Ext, Joins, Active, EffectsOk;
      ghost var st1 := View();
      links := links.(wired := links.wired + {(actual, formal)});
      WiredMore(p, st1, View(), actual, formal);
      Recorded(st, st1);
    }

    /** Records change neither facts nor obligations. */
    lemma Recorded(st: State, st1: State)
      requires Valid(p) && IsSolution(p, sol, true) && Linked(p, sol, constraints, indices) && OwnersOk(p, sol, owner)
      requires Wf(p, st1) && Below(st1, sol) && Ext(p, st, st1, {}) && Since(p, st, st1)
      requires View() == st1.(links := links) && MoreLinks(st1.links, links)
      requires forall j, l :: |st1.links.watch| <= j < |links.watch| ==> ObWatch(p, st1, links.watch[j].0, links.watch[j].1, l)
      ensures Good() && Ext(p, st, View(), {}) && Since(p, st, View())
    {
      hide Valid, IsSolution, Linked, OwnersOk, Wf, Below, Ext, Ob, ObStore, ObWatch, WatchOk;
      assert LinksGrow(st1, View(), |st1.constraints|) by { OwedSame(st1, View()); }
      Extended(p, st1, View(), sol);
      CleanTrans(p, st, st1, View(), {});
      SameWatch(p, st1, View(), |st.links.watch|);
      forall i, l | |st.constraints| <= i < |constraints| && !Owes(View(), i, l) ensures Ob(p, View(), constraints[i], l) {
        SameOb(p, st1, View(), constraints[i], l, 0);
      }
      forall i, l, x | |st.constraints| <= i < |constraints| ensures ObStore(p, View(), constraints[i], l, x) {
        SameOb(p, st1, View(), constraints[i], l, x);
      }
    }

    lemma OwedSame(st: State, st': State)
      requires st'.owing == st.owing
      ensures forall i: nat :: Owed(st', i) == Owed(st, i)
    {
    }

    /** An event object is registered or waited for, once: it is joined to every
        object on the other side. */
    method WireEvent(n: Node, waits: bool)
      requires Good() && Linking() && n < p.nodes
      requires Active(p, sol, if waits then Waits(n) else Registers(n))
      modifies `constraints, `indices, `links, `owing, `worklist, `queued, `pts, `holders, `delta, `pending
      ensures Wired(old(View()))
      ensures links.waiting == if waits && n !in old(links.waiting) then old(links.waiting) + [n] else old(links.waiting)
      ensures links.registered == if !waits && n !in old(links.registered) then old(links.registered) + [n] else old(links.registered)
    {
      hide Good, Ext, Quiet, WiringOk, Since, TakenOk, ModelsOk, Active, Joins, AddedOk;
      ghost var st := View();
      ExtRefl(p, st);
      SinceStart(p, st);
      if n in (if waits then links.waiting else links.registered) {
        return;
      }
      JoinEvents(n, waits);
      RecordEvent(st, n, waits);
    }

    /** Every object on the other side is joined to `n`. */
    ghost predicate JoinsAll(n: Node, waits: bool)
      reads this
    {
      if waits then forall m :: m in links.registered ==> Joins(p, View(), m, n)
      else forall m :: m in links.waiting ==> Joins(p, View(), n, m)
    }

    method JoinEvents(n: Node, waits: bool)
      requires Good() && Linking() && n < p.nodes
      requires Active(p, sol, if waits then Waits(n) else Registers(n))
      modifies `constraints, `indices, `owing, `worklist, `queued, `pts, `holders, `delta, `pending
      ensures Wired(old(View()))
      ensures JoinsAll(n, waits)
    {
      hide Good, Ext, Quiet, WiringOk, Since, TakenOk, ModelsOk, Active, Joins, AddedOk;
      ghost var st := View();
      var others := if waits then links.registered else links.waiting;
      ExtRefl(p, st);
      SinceStart(p, st);
      GivenPrefix();
      for k := 0 to |others|
        invariant Wired(st)
        invariant forall j :: 0 <= j < k ==> if waits then Joins(p, View(), others[j], n) else Joins(p, View(), n, others[j])
      {
        ghost var st1 := View();
        assert others[k] in others;
        var a, b := if waits then others[k] else n, if waits then n else others[k];
        EventSound(a, b);
        JoinSeeded(a, b);
        WiredTrans(st, st1);
        forall j | 0 <= j < k ensures if waits then Joins(p, View(), others[j], n) else Joins(p, View(), n, others[j]) {
          JoinsKept(st1, if waits then others[j] else n, if waits then n else others[j]);
        }
      }
    }

    lemma JoinsKept(st: State, a: Node, m: Node)
      requires Ext(p, st, View(), {}) && Joins(p, st, a, m)
      ensures Joins(p, View(), a, m)
    {
      hide Owns, Absorbed, Joins;
      JoinsStays(p, st, View(), a, m);
    }

    lemma EventSound(a: Node, b: Node)
      requires Good() && WiringOk(p, View()) && Active(p, sol, Registers(a)) && Active(p, sol, Waits(b))
      ensures AddedOk(p, sol, Copy(b, a))
    {
      hide Linked, OwnersOk, Wf, Below, Active, Satisfies, CallHolds, SyncHolds, TakenIn, FlowHolds;
      WireActive(p, sol, Registers(a));
      ActiveValid(Registers(a));
      ActiveValid(Waits(b));
      CopyAdmitted(p, sol, a, b);
    }

    lemma ActiveValid(w: Wire)
      requires Good() && Active(p, sol, w)
      ensures ValidWire(p, w) && WireHolds(p, sol, w, true)
    {
      hide Linked, OwnersOk, Wf, Below, Satisfies, SyncHolds, TakenIn, FlowHolds, Resolves, ValidWire, Forwards, ForwardHolds;
      var cs, f :| Resolves(p, sol, cs, f) && w in Wires(p, cs, f);
      assert CallHolds(p, sol, cs, f, true);
    }

    method RecordEvent(ghost st: State, n: Node, waits: bool)
      requires Wired(st) && Active(p, sol, if waits then Waits(n) else Registers(n))
      requires JoinsAll(n, waits)
      modifies `links
      ensures Wired(st)
      ensures links == if waits then old(links).(waiting := old(links).waiting + [n]) else old(links).(registered := old(links).registered + [n])
    {
      hide IsSolution, Valid, Wf, Below, Linked, OwnersOk, WiringOk, Since, Ext, Joins, Active, EffectsOk;
      ghost var st1 := View();
      if waits {
        links := links.(waiting := links.waiting + [n]);
        WaitingMore(p, st1, View(), n);
      } else {
        links := links.(registered := links.registered + [n]);
        RegisteredMore(p, st1, View(), n);
      }
      Recorded(st, st1);
    }

    /** One argument aliases another; only the first effect on a pair counts. */
    method WireAlias(dst: Node, src: Node)
      requires Good() && Linking() && AddedOk(p, sol, Copy(dst, src)) && Clash(p, dst, src)
      modifies `constraints, `indices, `links, `owing, `effects, `worklist, `queued
      ensures Wired(old(View())) && links.model == old(links.model) + {(src, dst)}
      ensures constraints == if (src, dst) in old(links.model) then old(constraints) else old(constraints) + [Copy(dst, src)]
      ensures effects == old(effects) + [Aliased(dst, src)]
    {
      hide Good, Ext, WiringOk, Since, TakenOk, EventsSound, EffectsOk, AddedOk, Clash;
      ghost var st := View();
      ExtRefl(p, st);
      SinceStart(p, st);
      if (src, dst) in links.model {
        assert links.model == links.model + {(src, dst)};
        EffectAgain(p, constraints, links.model, effects, Aliased(dst, src));
        NoteEffect(Aliased(dst, src));
        return;
      }
      EffectFirst(p, constraints, links.model, effects, Aliased(dst, src));
      JoinUnseeded(src, dst, true);
      RecordAlias(st, dst, src);
    }

    ghost method NoteEffect(w: Wire)
      modifies `effects
      ensures View() == old(View()) && Good() == old(Good()) && effects == old(effects) + [w]
    {
      effects := effects + [w];
    }

    method RecordAlias(ghost st: State, dst: Node, src: Node)
      requires Wired(st) && Clash(p, dst, src)
      requires EffectsOk(p, constraints, links.model + {(src, dst)}, effects + [Aliased(dst, src)])
      modifies `links, `effects
      ensures Wired(st) && links == old(links).(model := old(links).model + {(src, dst)})
      ensures effects == old(effects) + [Aliased(dst, src)]
    {
      hide IsSolution, Valid, Wf, Below, Linked, OwnersOk, WiringOk, Since, Ext, Clash, Active, EffectsOk;
      ghost var st1 := View();
      links := links.(model := links.model + {(src, dst)});
      effects := effects + [Aliased(dst, src)];
      ModelMore(p, st1, View(), src, dst);
      Recorded(st, st1);
    }

    /** A model stores `value` through `ptr`. If this is the first effect on the
        pair, the store joins and fires with everything both sides hold by
        then; otherwise nothing happens. */
    method WireContent(ptr: Node, value: Node)
      requires Good() && Linking() && AddedOk(p, sol, Store(ptr, value))
      modifies `constraints, `indices, `links, `owing, `effects
      modifies `memory, `sizes, `worklist, `queued, `pts, `holders, `delta, `pending
      ensures Wired(old(View())) && links.model == old(links.model) + {(value, ptr)}
      ensures constraints == if (value, ptr) in old(links.model) then old(constraints) else old(constraints) + [Store(ptr, value)]
      ensures effects == old(effects) + [Content(ptr, value)]
    {
      hide Good, Ext, Quiet, WiringOk, Since, TakenOk, EventsSound, EffectsOk, AddedOk, Ob, ObStore, Stored, Owing;
      ghost var st := View();
      ExtRefl(p, st);
      SinceStart(p, st);
      if (value, ptr) in links.model {
        assert links.model == links.model + {(value, ptr)};
        EffectAgain(p, constraints, links.model, effects, Content(ptr, value));
        NoteEffect(Content(ptr, value));
        return;
      }
      var i := |constraints|;
      AddStore(ptr, value);
      ghost var st1 := View();
      assert constraints[i] == Store(ptr, value);
      ghost var ls, xs := ApplyStoreToTargets(i, None, None);
      CleanTrans(p, st, st1, View(), {});
      WiringStays(p, st1, View());
      StoreSeeded(p, st1, View(), ptr, value, ls, xs, SelfOf(value));
      SinceOneStep(p, st, View());
    }

    /** The store and the record of its pair. */
    method AddStore(ptr: Node, value: Node)
      requires Good() && Linking() && AddedOk(p, sol, Store(ptr, value)) && (value, ptr) !in links.model
      modifies `constraints, `indices, `links, `owing, `effects
      ensures Good() && Linking() && Ext(p, old(View()), View(), {})
      ensures constraints == old(constraints) + [Store(ptr, value)]
      ensures links == old(links).(model := old(links).model + {(value, ptr)})
      ensures effects == old(effects) + [Content(ptr, value)]
    {
      hide IsSolution, Valid, Wf, Below, Linked, OwnersOk, WiringOk, Ext, EffectsOk, Active, AddedOk, Owing;
      ghost var st := View();
      EffectFirst(p, constraints, links.model, effects, Content(ptr, value));
      AddToList(Store(ptr, value), {});
      ghost var st1 := View();
      assert constraints[|st.constraints|] == Store(ptr, value);
      links := links.(model := links.model + {(value, ptr)});
      effects := effects + [Content(ptr, value)];
      ModelMore(p, st1, View(), value, ptr);
      LinksRecorded(st1);
      CleanTrans(p, st, st1, View(), {});
    }

    lemma LinksRecorded(st1: State)
      requires Valid(p) && IsSolution(p, sol, true) && Linked(p, sol, constraints, indices) && OwnersOk(p, sol, owner)
      requires Wf(p, st1) && Below(st1, sol) && View() == st1.(links := links) && MoreLinks(st1.links, links)
      ensures Good() && Ext(p, st1, View(), {})
    {
      hide Valid, IsSolution, Linked, OwnersOk, Wf, Below, Ext;
      OwedSame(st1, View());
      Extended(p, st1, View(), sol);
    }

    /** A callee returns the address of an object: it is seeded like the ones
        present at the start, whenever that happens. */
    method WireReturned(dst: Node, src: Node, loc: Loc)
      requires Good() && Linking() && AddedOk(p, sol, AddrOf(dst, src, loc)) && TakenIn(p, sol, loc)
      modifies `constraints, `indices, `owing, `addrTaken, `synced, `owner, `memory, `sizes, `worklist, `queued, `pts, `holders, `delta, `pending
      ensures Wired(old(View()))
      ensures constraints == old(constraints) + [AddrOf(dst, src, loc)]
      ensures loc in P(View(), dst) && (loc in p.ownCell ==> loc in owner) && loc in addrTaken
    {
      hide Good, Ext, Quiet, WiringOk, Since, EventsSound, TakenOk, ModelsOk, TakenIn, Ob, ObStore, Owing, AddedOk;
      AddedAddress(p, sol, dst, src, loc);
      ghost var st := View();
      AddPlain(AddrOf(dst, src, loc), {});
      ghost var st1 := View();
      SeedAddrOf(dst, loc);
      CleanTrans(p, st, st1, View(), {});
      WiringStays(p, st1, View());
      AddressSeeded(p, View(), dst, src, loc);
      assert constraints[|st.constraints|] == AddrOf(dst, src, loc);
      SinceOneStep(p, st, View());
    }

    /** A node goes back on the worklist, as the sources of what a callee returns
        do once it is all in place. */
    method WireQueue(n: Node)
      requires Good() && Linking() && n < p.nodes
      modifies `worklist, `queued
      ensures Wired(old(View())) && n in queued
    {
      hide Good, Ext, WiringOk, Since, TakenOk, EventsSound, ModelsOk;
      ghost var st := View();
      Enqueue(n);
      WiringStays(p, st, View());
      SinceSame(p, st, View());
    }

    method WirePassed(formal: Node, fn: Loc)
      requires Good() && Linking() && SoundAdd(p, sol, AddrOf(formal, formal, fn))
      modifies `pts, `holders, `delta, `pending, `worklist, `queued
      ensures Wired(old(View())) && fn in P(View(), formal) && Quiet(old(View()), View())
    {
      hide Good, Ext, Quiet, WiringOk, Since, TakenOk, EventsSound, ModelsOk, Committed;
      ghost var st := View();
      AddPts(formal, fn);
      StepWired(st);
    }

    // ----- forwarded arguments

    lemma ForwardKnown(k: Handover, l: Loc, j: nat)
      requires Good() && Forwards(p, sol, k, l) && j < |Forwarded(p, k, l)|
      ensures var w := Forwarded(p, k, l)[j]; Passing(w) && ValidWire(p, w) && WireHolds(p, sol, w, true) && Asks(p, sol, w)
    {
      hide Linked, OwnersOk, Wf, Below, Satisfies, SyncHolds, TakenIn, FlowHolds, Resolves, ValidWire, Forwards, CallHolds, Active;
      assert ForwardHolds(p, sol, k, l, true);
      assert Forwarded(p, k, l)[j] in Forwarded(p, k, l);
      assert (k, l) in p.forwards && Forwarded(p, k, l) == p.forwards[(k, l)];
    }

    /** One argument that a model forwards. */
    method ForwardOne(w: Wire)
      requires Good() && Linking() && Passing(w) && ValidWire(p, w) && WireHolds(p, sol, w, true) && Asks(p, sol, w) && AddressesGiven(p, View())
      modifies `constraints, `indices, `links, `owing, `worklist, `queued, `pts, `holders, `delta, `pending
      ensures Wired(old(View())) && WireOk(p, View(), w) && WireFired(old(View()), View(), w) && Quiet(old(View()), View())
      ensures links.watch == old(links.watch)
    {
      hide Good, Linking, Ext, Since, Quiet, AddedOk;
      WireFacts(p, sol, w);
      ghost var st := View();
      match w
      case Param(a, m, persistent) =>
        WireParam(a, m, persistent);
        AddressesPassed(p, st, View(), a, m);
      case FnArg(m, fn) =>
        WirePassed(m, fn);
    }

    /** All the arguments handover `k` forwards to the function at `l`. */
    method ForwardTo(k: Handover, l: Loc)
      requires Good() && Linking() && Forwards(p, sol, k, l) && AddressesGiven(p, View())
      modifies `constraints, `indices, `links, `owing, `worklist, `queued, `pts, `holders, `delta, `pending
      ensures Wired(old(View())) && ForwardOk(p, View(), k, l) && Quiet(old(View()), View())
      ensures AllFiredAtOnce(old(View()), View(), Forwarded(p, k, l))
      ensures links.watch == old(links.watch)
    {
      hide AddressesGiven, Good, Linking, Ext, Since, Quiet, Forwards, WireOk, WireHolds, ValidWire, WireFired;
      ghost var st := View();
      var ws := Forwarded(p, k, l);
      ExtRefl(p, st);
      SinceStart(p, st);
      GivenPrefix();
      for j := 0 to |ws|
        invariant Wired(st) && Quiet(st, View()) && links.watch == st.links.watch
        invariant forall i :: 0 <= i < j ==> WireOk(p, View(), ws[i])
        invariant AllFiredAtOnce(st, View(), ws[..j])
      {
        ghost var st1 := View();
        ForwardKnown(k, l, j);
        GivenStay(st);
        ForwardOne(ws[j]);
        FiredSnoc(p, st, st1, View(), ws, j);
        WiredStep(st, st1);
        forall i | 0 <= i < j ensures WireOk(p, View(), ws[i]) {
          WireKept(st1, ws[i]);
        }
      }
      assert ws[..|ws|] == ws;
    }

    lemma FunctionForwards(n: Node, k: Handover, l: Loc)
      requires Good() && Active(p, sol, Watches(n, k)) && l in P(View(), n) && IsFn(p, l)
      ensures Forwards(p, sol, k, l)
    {
      hide Linked, OwnersOk, Wf, Valid, IsSolution, Active;
      assert sol.Pt(n, l);
    }

    /** The same for each function among `ls`. */
    method ForwardEach(n: Node, k: Handover, ls: seq<Loc>)
      requires Good() && Linking() && Active(p, sol, Watches(n, k)) && AddressesGiven(p, View())
      requires forall l :: l in ls ==> l in P(View(), n)
      modifies `constraints, `indices, `links, `owing, `worklist, `queued, `pts, `holders, `delta, `pending
      ensures Wired(old(View())) && Quiet(old(View()), View()) && links.watch == old(links.watch)
      ensures forall l :: l in ls && IsFn(p, l) ==> ForwardOk(p, View(), k, l)
    {
      hide AddressesGiven, Good, Linking, Ext, Since, Quiet, Forwards, ForwardOk, Active;
      ghost var st := View();
      ExtRefl(p, st);
      SinceStart(p, st);
      GivenPrefix();
      for j := 0 to |ls|
        invariant Wired(st) && Quiet(st, View()) && links.watch == st.links.watch
        invariant forall i :: 0 <= i < j && IsFn(p, ls[i]) ==> ForwardOk(p, View(), k, ls[i])
      {
        if IsFn(p, ls[j]) {
          ghost var st1 := View();
          assert ls[j] in ls;
          HeldStays(p, st, st1, n);
          FunctionForwards(n, k, ls[j]);
          GivenStay(st);
          ForwardTo(k, ls[j]);
          WiredStep(st, st1);
          forall i | 0 <= i < j && IsFn(p, ls[i]) ensures ForwardOk(p, View(), k, ls[i]) {
            ForwardStays(p, st1, View(), k, ls[i]);
          }
        }
      }
    }

    /** A callback variable is watched from the first time on: the functions it
        holds by then are served at once, those it gains when it is popped. */
    method WireWatch(n: Node, k: Handover)
      requires Good() && Linking() && Active(p, sol, Watches(n, k)) && AddressesGiven(p, View())
      modifies `constraints, `indices, `links, `owing, `worklist, `queued, `pts, `holders, `delta, `pending
      ensures Wired(old(View()))
      ensures links.watch == if (n, k) in old(links.watch) then old(links.watch) else old(links.watch) + [(n, k)]
    {
      hide AddressesGiven, Good, Linking, Ext, Since, Quiet, Active, ForwardOk;
      ghost var st := View();
      ExtRefl(p, st);
      SinceStart(p, st);
      if (n, k) in links.watch {
        return;
      }
      var held := InSetOrder(Held(pts, n));
      assert forall l :: l in held <==> l in P(st, n);
      ForwardEach(n, k, held);
      forall l ensures ObWatch(p, View(), n, k, l) {
        SettledBefore(p, st, View(), {}, n, l);
      }
      RecordWatch(st, n, k);
    }

    method RecordWatch(ghost st: State, n: Node, k: Handover)
      requires Wired(st) && Active(p, sol, Watches(n, k)) && forall l :: ObWatch(p, View(), n, k, l)
      modifies `links
      ensures Wired(st) && links == old(links).(watch := old(links).watch + [(n, k)])
    {
      hide IsSolution, Valid, Wf, Below, Linked, OwnersOk, WiringOk, Since, Ext, Active, EffectsOk, ObWatch;
      ghost var st1 := View();
      links := links.(watch := links.watch + [(n, k)]);
      WatchMore(p, st1, View(), n, k);
      Recorded(st, st1);
    }

    /** The functions a popped node gained, for each handover that watches it. */
    method ForwardGained(node: Node, ls: seq<Loc>)
      requires Good() && Wiring() && AddressesGiven(p, View())
      requires forall l :: l in ls ==> l in P(View(), node)
      modifies `constraints, `indices, `links, `owing, `worklist, `queued, `pts, `holders, `delta, `pending
      ensures Wired(old(View())) && Wiring() && Quiet(old(View()), View())
      ensures links.watch == old(links.watch) && WatchedFor(p, View(), |links.watch|, node, ls)
      ensures old(links.watch) == [] ==> View() == old(View())
    {
      hide AddressesGiven, Good, Linking, Ext, Since, Quiet, CallsWired, EdgesOk, WatchedFor, Active;
      ghost var st := View();
      ExtRefl(p, st);
      SinceStart(p, st);
      GivenPrefix();
      NoneWatched(st, node, ls);
      for j := 0 to |links.watch|
        invariant Wired(st) && Quiet(st, View()) && links.watch == st.links.watch
        invariant WatchedFor(p, View(), j, node, ls)
        invariant st.links.watch == [] ==> View() == st
      {
        ghost var st1 := View();
        if links.watch[j].0 == node {
          WatchKnown(j);
          HeldStays(p, st, st1, node);
          GivenStay(st);
          ForwardEach(node, links.watch[j].1, ls);
          WiredStep(st, st1);
          WatchedForStays(p, st1, View(), j, node, ls);
        }
        WatchedSnoc(j, node, ls);
      }
      CallsWiredStays(p, st, View());
    }

    lemma NoneWatched(st: State, node: Node, ls: seq<Loc>)
      ensures WatchedFor(p, st, 0, node, ls)
    {
    }

    lemma WatchKnown(j: nat)
      requires Linking() && j < |links.watch|
      ensures Active(p, sol, Watches(links.watch[j].0, links.watch[j].1))
    {
      hide WiringOk, TakenOk, ModelsOk, Active;
    }

    lemma WatchedSnoc(j: nat, node: Node, ls: seq<Loc>)
      requires j < |links.watch| && WatchedFor(p, View(), j, node, ls)
      requires links.watch[j].0 == node ==> forall l :: l in ls && IsFn(p, l) ==> ForwardOk(p, View(), links.watch[j].1, l)
      ensures WatchedFor(p, View(), j + 1, node, ls)
    {
      hide ForwardOk;
    }

    // ----- resolving calls

    /** One effect of a resolved call. */
    method WireOne(w: Wire)
      requires Good() && Linking() && Active(p, sol, w) && AddressesGiven(p, View())
      requires w.Aliased? ==> Clash(p, w.dst, w.src)
      modifies `constraints, `indices, `links, `owing, `effects, `addrTaken, `synced, `owner
      modifies `memory, `sizes, `worklist, `queued, `pts, `holders, `delta, `pending
      ensures Wired(old(View())) && WireOk(p, View(), w) && WireFired(old(View()), View(), w)
      ensures effects == old(effects) + EffectOf(w)
      ensures Factless(w) ==> SameSets(old(View()), View())
    {
      hide Good, Ext, WiringOk, Since, TakenOk, EventsSound, ModelsOk, AddedOk, Clash, SyncHolds, Active;
      ActiveValid(w);
      WireFacts(p, sol, w);
      assert w.Returned? ==> TakenIn(p, sol, w.loc) by { if w.Returned? { assert Active(p, sol, Returned(w.dst, w.src, w.loc)); } }
      match w
      case Param(a, m, persistent) =>
        WireParam(a, m, persistent);
        AddressesPassed(p, old(View()), View(), a, m);
      case FnArg(m, fn) =>
        WirePassed(m, fn);
      case Returned(d, r, l) =>
        WireReturned(d, r, l);
      case ReturnedCopy(d, r) =>
        JoinUnseeded(r, d, false);
        assert constraints[|old(constraints)|] == Copy(d, r);
      case Aliased(d, r) =>
        WireAlias(d, r);
      case Content(q, v) =>
        WireContent(q, v);
      case Registers(n) =>
        WireEvent(n, false);
      case Waits(n) =>
        WireEvent(n, true);
      case Requeues(n) =>
        WireQueue(n);
      case Watches(n, k) =>
        WireWatch(n, k);
    }

    /** Whatever joined was asked for. */
    lemma AllDue()
      requires Good()
      ensures forall i :: |p.constraints| <= i < |constraints| ==> Due(p, sol, constraints[i])
    {
      hide IsSolution, Wf, Below, Valid, IndicesOk, OwnersOk, SoundAdd, Due;
    }

    lemma GivenPrefix()
      requires Good()
      ensures p.constraints <= constraints
    {
      hide IsSolution, Wf, Below, Valid, IndicesOk, OwnersOk;
    }

    lemma AddedNoLoads(cs: seq<Constraint>)
      requires Good() && cs <= constraints
      ensures forall i :: |p.constraints| <= i < |cs| ==> !cs[i].Load?
    {
      hide IsSolution, Wf, Below, Valid, IndicesOk, OwnersOk;
      forall i | |p.constraints| <= i < |cs| ensures !cs[i].Load? {
        assert cs[i] == constraints[i] && AddedOk(p, sol, constraints[i]);
      }
    }

    /** Everything a call from site `cs` to `f` adds. */
    method WireCall(cs: CallSite, f: FnId)
      requires Good() && Linking() && Resolves(p, sol, cs, f) && AddressesGiven(p, View())
      modifies `constraints, `indices, `links, `owing, `effects, `addrTaken, `synced, `owner
      modifies `memory, `sizes, `worklist, `queued, `pts, `holders, `delta, `pending
      ensures Wired(old(View())) && CallOk(p, View(), cs, f) && AllFiredAtOnce(old(View()), View(), Wires(p, cs, f))
      ensures effects == old(effects) + EffectsOf(Wires(p, cs, f))
      ensures FactlessCalls(p) ==> SameSets(old(View()), View())
    {
      hide AddressesGiven, Good, Linking, Ext, Since, Resolves, WireOk, Active, EffectsOf, EffectOf, FactlessCalls, WireFired;
      ghost var st := View();
      var ws := Wires(p, cs, f);
      ExtRefl(p, st);
      SinceStart(p, st);
      GivenPrefix();
      assert ws[..0] == [] && EffectsOf([]) == [] by { NoEffects(); }
      for k := 0 to |ws|
        invariant Wired(st)
        invariant forall j :: 0 <= j < k ==> WireOk(p, View(), ws[j])
        invariant AllFiredAtOnce(st, View(), ws[..k])
        invariant effects == old(effects) + EffectsOf(ws[..k])
        invariant FactlessCalls(p) ==> SameSets(st, View())
      {
        ghost var st1 := View();
        WireKnown(cs, f, k);
        GivenStay(st);
        EffectsSnoc(ws, k);
        WireOne(ws[k]);
        FiredSnoc(p, st, st1, View(), ws, k);
        WiredTrans(st, st1);
        forall j | 0 <= j < k ensures WireOk(p, View(), ws[j]) {
          WireKept(st1, ws[j]);
        }
      }
      assert ws[..|ws|] == ws;
    }

    lemma NoEffects()
      ensures EffectsOf([]) == []
    {
    }

    lemma WireKnown(cs: CallSite, f: FnId, k: nat)
      requires Resolves(p, sol, cs, f) && k < |Wires(p, cs, f)|
      ensures Active(p, sol, Wires(p, cs, f)[k])
      ensures var w := Wires(p, cs, f)[k]; w.Aliased? ==> Clash(p, w.dst, w.src)
      ensures FactlessCalls(p) ==> Factless(Wires(p, cs, f)[k])
    {
      hide Resolves;
      var w := Wires(p, cs, f)[k];
      assert w in Wires(p, cs, f);
      assert (cs, f) in p.params && w in p.params[(cs, f)];
      if w.Aliased? {
        assert (cs, f) in p.params && Aliased(w.dst, w.src) in p.params[(cs, f)];
      }
    }

    lemma WireKept(st: State, w: Wire)
      requires Ext(p, st, View(), {}) && WireOk(p, st, w)
      ensures WireOk(p, View(), w)
    {
      hide Absorbed, WireOk;
      assert st.owner.Keys <= View().owner.Keys;
      WireStays(p, st, View(), w);
    }

    /** The edges found so far are the resolved callees, each once. */
    ghost predicate EdgesOk()
      reads `edges, `resolved
    {
      NoDup(edges) && forall cs: CallSite, f: FnId :: (cs, f) in edges <==> f in CalleesOf(resolved, cs)
    }

    /** The model effects applied are those of the direct calls and then of the
        edges found, in order. */
    ghost predicate LogOk()
      reads `edges, `effects
    {
      effects == CallEffects(p, p.direct + edges)
    }

    ghost predicate Wiring()
      reads this
    {
      Linking() && CallsWired(p, View()) && EdgesOk()
    }

    lemma CallSound(t: Node, l: Loc, cs: CallSite, f: FnId)
      requires Good() && l in P(View(), t) && Hits(p, t, l, cs, f)
      ensures Resolves(p, sol, cs, f) && Called(p, View(), cs, f)
    {
      hide Linked, OwnersOk, Wf, Valid, IsSolution;
      assert sol.Pt(t, l);
    }

    /** A callee site `cs` did not have yet: one more call edge, and everything
        the call adds. */
    method ResolveOne(cs: CallSite, f: FnId)
      requires Good() && Wiring() && f !in R(View(), cs) && AddressesGiven(p, View())
      requires Resolves(p, sol, cs, f) && Called(p, View(), cs, f)
      modifies `constraints, `indices, `links, `owing, `effects, `addrTaken, `synced, `owner
      modifies `memory, `sizes, `worklist, `queued, `pts, `holders, `delta, `pending, `resolved, `edges
      ensures Wired(old(View())) && Wiring() && Quiet(old(View()), View())
      ensures f in R(View(), cs) && AllFiredAtOnce(old(View()), View(), Wires(p, cs, f))
      ensures edges == old(edges) + [(cs, f)] && effects == old(effects) + EffectsOf(Wires(p, cs, f))
      ensures FactlessCalls(p) ==> SameSets(old(View()), View())
    {
      hide AddressesGiven, IsSolution, Valid, Wf, Below, Ext, Linked, OwnersOk, WiringOk, Since, Quiet, CallOk, Called, Resolves, CallsWired, OthersWired, TakenOk, EventsSound, ModelsOk, FactlessCalls, AllFiredAtOnce;
      ghost var st := View();
      AddEdge(cs, f);
      ghost var st1 := View();
      ResolvedAdded(p, st, st1, sol, cs, f);
      GivenStay(st);
      WireCall(cs, f);
      ExtRefl(p, View());
      FiredLater(p, st, st1, View(), View(), Wires(p, cs, f));
      SinceFrom(p, st, st1, View());
      CleanTrans(p, st, st1, View(), {});
      AllWired(p, st1, View(), cs, f);
      CalleesStay(p, st1, View(), cs);
      CalleeIsNews(st, View(), cs, f);
    }

    /** One more call adds its effects to the log. */
    lemma LogMore(cs: CallSite, f: FnId)
      ensures LogOk() ==> effects + EffectsOf(Wires(p, cs, f)) == CallEffects(p, p.direct + (edges + [(cs, f)]))
    {
      hide CallEffects, EffectsOf;
      CallEffectsSnoc(p, p.direct + edges, cs, f);
      assert p.direct + (edges + [(cs, f)]) == p.direct + edges + [(cs, f)];
    }

    method AddEdge(cs: CallSite, f: FnId)
      requires EdgesOk() && f !in R(View(), cs)
      modifies `resolved, `edges
      ensures EdgesOk() && resolved == old(resolved)[cs := R(old(View()), cs) + [f]]
      ensures edges == old(edges) + [(cs, f)]
    {
      resolved := resolved[cs := CalleesOf(resolved, cs) + [f]];
      edges := edges + [(cs, f)];
    }

    lemma WiredStep(s0: State, s1: State)
      requires Ext(p, s0, s1, {}) && Quiet(s0, s1) && Since(p, s0, s1) && p.constraints <= s0.constraints
      requires Wired(s1) && Quiet(s1, View())
      ensures Wired(s0) && Quiet(s0, View())
    {
      hide Good, Linking, Ext, Since;
      WiredTrans(s0, s1);
      QuietTrans(p, s0, s1, View(), {}, {});
    }

    /** The callees new locations of a call target add to one site. */
    method ResolveSite(t: Node, cs: CallSite, ls: seq<Loc>)
      requires Good() && Wiring() && cs in SitesAt(p, t) && AddressesGiven(p, View())
      requires forall l :: l in ls ==> l in P(View(), t)
      modifies `constraints, `indices, `links, `owing, `effects, `addrTaken, `synced, `owner
      modifies `memory, `sizes, `worklist, `queued, `pts, `holders, `delta, `pending, `resolved, `edges
      ensures Wired(old(View())) && Wiring() && Quiet(old(View()), View())
      ensures SiteDone(p, View(), t, cs, ls)
      ensures old(LogOk()) ==> LogOk()
      ensures FactlessCalls(p) ==> SameSets(old(View()), View())
    {
      hide AddressesGiven, Good, Ext, Quiet, Linking, CallsWired, EdgesOk, CallEffects, EffectsOf, FactlessCalls, Since, Called, Hits, Resolves;
      ghost var st := View();
      var callees := NewCallees(p, t, cs, ls);
      ExtRefl(p, st);
      SinceStart(p, st);
      GivenPrefix();
      for k := 0 to |callees|
        invariant Wired(st) && Wiring() && Quiet(st, View())
        invariant (old(LogOk()) ==> LogOk()) && (FactlessCalls(p) ==> SameSets(st, View()))
        invariant forall j :: 0 <= j < k ==> callees[j] in R(View(), cs)
      {
        ghost var st1 := View();
        var f := callees[k];
        assert f in callees;
        if f !in CalleesOf(resolved, cs) {
          ghost var l :| l in ls && Hits(p, t, l, cs, f);
          HeldStays(p, st, st1, t);
          CallSound(t, l, cs, f);
          GivenStay(st);
          LogMore(cs, f);
          ResolveOne(cs, f);
          WiredStep(st, st1);
          CalleesStay(p, st1, View(), cs);
        }
      }
      forall l, f | l in ls && Hits(p, t, l, cs, f) ensures f in R(View(), cs) {
        assert f in callees;
      }
    }

    /** Every indirect call site whose target is `node`. */
    method ResolveCalls(node: Node, ls: seq<Loc>)
      requires Good() && Wiring() && AddressesGiven(p, View())
      requires forall l :: l in ls ==> l in P(View(), node)
      modifies `constraints, `indices, `links, `owing, `effects, `addrTaken, `synced, `owner
      modifies `memory, `sizes, `worklist, `queued, `pts, `holders, `delta, `pending, `resolved, `edges
      ensures Wired(old(View())) && Wiring() && Quiet(old(View()), View())
      ensures forall l :: l in ls ==> ObCall(p, View(), node, l)
      ensures old(LogOk()) ==> LogOk()
      ensures FactlessCalls(p) ==> SameSets(old(View()), View())
      ensures SitesAt(p, node) == [] ==> View() == old(View())
    {
      hide AddressesGiven, Good, Ext, Quiet, Wiring, Linking, LogOk, FactlessCalls, Since, SiteDone;
      ghost var st := View();
      var sites := SitesAt(p, node);
      ExtRefl(p, st);
      SinceStart(p, st);
      GivenPrefix();
      assert Linking() by { WiringLinks(); }
      for k := 0 to |sites|
        invariant Wired(st) && Wiring() && Quiet(st, View())
        invariant (old(LogOk()) ==> LogOk()) && (FactlessCalls(p) ==> SameSets(st, View()))
        invariant forall j :: 0 <= j < k ==> SiteDone(p, View(), node, sites[j], ls)
        invariant sites == [] ==> View() == st
      {
        ghost var st1 := View();
        HeldStays(p, st, st1, node);
        GivenStay(st);
        ResolveSite(node, sites[k], ls);
        WiredStep(st, st1);
        forall j | 0 <= j < k ensures SiteDone(p, View(), node, sites[j], ls) {
          SiteDoneStays(p, st1, View(), node, sites[j], ls);
        }
      }
      SitesDone(p, View(), node, ls);
    }

    lemma WiringLinks()
      requires Wiring()
      ensures Linking()
    {
      hide Linking;
    }

    // ----- one pop

    /** Every address the node was given is put there again: a no-op after
        seeding. */
    method AddrOfAll(node: Node)
      requires Good()
      modifies `pts, `sizes, `holders, `delta, `pending, `worklist, `queued
      ensures Step(old(View()))
      ensures AddressesHeld(node)
      ensures old(AddressesHeld(node)) ==> View() == old(View())
    {
      hide Good, Ext, Quiet, Committed;
      ghost var st := View();
      var idxs := Under(indices.addrOfDst, node);
      AddrOfListed(node);
      ExtRefl(p, st);
      forall j | 0 <= j < |idxs| ensures idxs[j] < |constraints| && constraints[idxs[j]].AddrOf? { assert idxs[j] in idxs; }
      for k := 0 to |idxs|
        invariant Good() && Step(st)
        invariant forall j :: 0 <= j < k ==> constraints[idxs[j]].loc in P(View(), node)
        invariant old(AddressesHeld(node)) ==> View() == st
      {
        ghost var st1 := View();
        assert idxs[k] in idxs;
        AddPts(node, constraints[idxs[k]].loc);
        StepTrans(st, st1);
        HeldStays(p, st1, View(), node);
      }
      forall i: nat | i < |constraints| && AddrOfKey(constraints[i]) == Some(node) ensures constraints[i].loc in P(View(), node) {
        assert i in idxs;
      }
    }

    lemma AddrOfListed(node: Node)
      requires Good()
      ensures forall i: nat :: i in Under(indices.addrOfDst, node) ==>
        i < |constraints| && constraints[i].AddrOf? && constraints[i].loc < |p.kinds| && node < p.nodes && sol.Pt(node, constraints[i].loc)
      ensures forall i: nat :: i in Under(indices.addrOfDst, node) ==> i < |constraints| && AddrOfKey(constraints[i]) == Some(node)
      ensures forall i: nat :: i < |constraints| && AddrOfKey(constraints[i]) == Some(node) ==> i in Under(indices.addrOfDst, node)
    {
      hide Wf, Below, Valid, IsSolution, OwnersOk, Satisfies, ValidConstraint;
      Listed(constraints, indices.addrOfDst, AddrOfKey, node);
      forall i: nat | i in Under(indices.addrOfDst, node)
        ensures constraints[i].AddrOf? && constraints[i].loc < |p.kinds| && node < p.nodes && sol.Pt(node, constraints[i].loc)
      {
        assert AddrOfKey(constraints[i]) == Some(node);
        AddrOfSound(i);
      }
    }

    lemma AddrOfSound(i: nat)
      requires Good() && i < |constraints| && constraints[i].AddrOf?
      ensures constraints[i].dst < p.nodes && constraints[i].loc < |p.kinds|
      ensures sol.Pt(constraints[i].dst, constraints[i].loc)
    {
      hide Good;
      ConstraintSound(i);
    }

    method MarkSeen(node: Node)
      modifies `seenOnce
      ensures View() == old(View()) && Good() == old(Good())
      ensures seenOnce == old(seenOnce) + {node}
    {
      seenOnce := seenOnce + {node};
    }

    /** A node popped without pending locations: on its first touch, the effects
        that depend on no points-to content. */
    method FirstTouch(node: Node)
      requires Good()
      modifies `pts, `sizes, `holders, `delta, `pending, `worklist, `queued, `seenOnce
      ensures Step(old(View()))
      ensures seenOnce == old(seenOnce) + {node}
      ensures node in old(seenOnce) ==> View() == old(View())
      ensures node !in old(seenOnce) ==> AddressesHeld(node) && FallbacksDone(node)
      ensures old(AddressesHeld(node)) && NoFields(constraints, node) ==> View() == old(View())
    {
      hide Good, Ext, Quiet, AddressesHeld, NoFields, FallbacksDone;
      ghost var st := View();
      ExtRefl(p, st);
      if node in seenOnce {
        return;
      }
      MarkSeen(node);
      Touch(node);
    }

    method Touch(node: Node)
      requires Good()
      modifies `pts, `sizes, `holders, `delta, `pending, `worklist, `queued
      ensures Step(old(View())) && AddressesHeld(node) && FallbacksDone(node)
      ensures old(AddressesHeld(node)) && NoFields(constraints, node) ==> View() == old(View())
    {
      hide Good, Ext, Quiet, AddressesHeld, NoFields, FallbacksDone;
      ghost var st := View();
      if NoFields(constraints, node) {
        NoneUnder(node);
      }
      AddrOfAll(node);
      ghost var st1 := View();
      assert AddressesPresent(st1, node) by { Present(node); }
      FallBackAll(node);
      StepTrans(st, st1);
      StillPresent(st1, node);
    }

    /** The same of a state. */
    ghost predicate AddressesPresent(st: State, node: Node) {
      forall i: nat :: i < |st.constraints| && AddrOfKey(st.constraints[i]) == Some(node) ==> st.constraints[i].loc in P(st, node)
    }

    lemma Present(node: Node)
      ensures AddressesHeld(node) <==> AddressesPresent(View(), node)
    {
    }

    lemma StillPresent(st: State, node: Node)
      requires AddressesPresent(st, node) && Ext(p, st, View(), {}) && constraints == st.constraints
      ensures AddressesHeld(node)
    {
      hide Ext;
      HeldStays(p, st, View(), node);
    }

    /** The addresses assigned to `node` are among the locations it holds. */
    ghost predicate AddressesHeld(node: Node)
      reads `constraints, `pts
    {
      forall i: nat :: i < |constraints| && AddrOfKey(constraints[i]) == Some(node) ==> constraints[i].loc in Held(pts, node)
    }

    ghost predicate FallbacksDone(node: Node)
      reads this
    {
      forall i: nat :: i < |constraints| && GepKey(constraints[i]) == Some(node) ==> FellBack(p, View(), constraints[i])
    }

    /** Every field access through `node` falls back. */
    method FallBackAll(node: Node)
      requires Good()
      modifies `pts, `sizes, `holders, `delta, `pending, `worklist, `queued
      ensures Step(old(View())) && FallbacksDone(node)
      ensures Under(indices.gepSrc, node) == [] ==> View() == old(View())
    {
      hide Good, Ext, Quiet, Lifts, GepHolds, Lists, FellBack;
      ghost var st := View();
      ExtRefl(p, st);
      var idxs := Under(indices.gepSrc, node);
      GepListed(node);
      if idxs == [] {
        return;
      }
      forall j | 0 <= j < |idxs| ensures idxs[j] < |constraints| && constraints[idxs[j]].Gep? { assert idxs[j] in idxs; }
      for k := 0 to |idxs|
        invariant Good() && Step(st)
        invariant forall j :: 0 <= j < k ==> FellBack(p, View(), constraints[idxs[j]])
      {
        ghost var st1 := View();
        assert idxs[k] in idxs;
        var c := constraints[idxs[k]];
        if c.fallback.Some? {
          FlowSound(idxs[k], []);
          GepLifts(p, sol, c, 0);
          FallBack(c);
          StepTrans(st, st1);
          forall j | 0 <= j < k ensures FellBack(p, View(), constraints[idxs[j]]) {
            assert idxs[j] in idxs;
            FellBackStays(p, st1, View(), constraints[idxs[j]]);
          }
        } else {
          NoFallback(p, View(), c);
        }
      }
      forall i: nat | i < |constraints| && GepKey(constraints[i]) == Some(node) ensures FellBack(p, View(), constraints[i]) {
        assert i in idxs;
      }
    }

    lemma GepListed(node: Node)
      requires Good()
      ensures forall i: nat :: i in Under(indices.gepSrc, node) <==> i < |constraints| && GepKey(constraints[i]) == Some(node)
      ensures forall i: nat :: i in Under(indices.gepSrc, node) ==> constraints[i].Gep?
    {
      hide Wf, Below, IsSolution, Valid;
      Listed(constraints, indices.gepSrc, GepKey, node);
      forall i: nat | i in Under(indices.gepSrc, node) ensures i < |constraints| && constraints[i].Gep? {
        assert GepKey(constraints[i]) == Some(node);
      }
    }

    lemma NoFieldsAdded(node: Node)
      requires Good() && NoFields(p.constraints, node)
      ensures NoFields(constraints, node)
    {
      hide IsSolution, Wf, Below, Valid, IndicesOk, OwnersOk;
      forall i | 0 <= i < |constraints| ensures !(constraints[i].Gep? && constraints[i].src == node) {
        if i < |p.constraints| {
          assert constraints[i] == p.constraints[i];
        } else {
          assert AddedOk(p, sol, constraints[i]);
        }
      }
    }

    lemma NoneUnder(node: Node)
      requires Good() && NoFields(constraints, node)
      ensures Under(indices.gepSrc, node) == []
    {
      hide Wf, Below, IsSolution, Valid, OwnersOk;
      NothingUnder(constraints, indices.gepSrc, GepKey, node);
    }

    /** Nothing is filed under a node no constraint reads or writes through. */
    lemma InertFlows(node: Node)
      requires Good() && Inert(constraints, node)
      ensures Under(indices.copySrc, node) == [] && Under(indices.unwrapSrc, node) == []
      ensures Under(indices.gepSrc, node) == [] && Under(indices.dlsymSrc, node) == []
    {
      hide Wf, Below, IsSolution, Valid, OwnersOk;
      NothingUnder(constraints, indices.copySrc, CopyKey, node);
      NothingUnder(constraints, indices.unwrapSrc, UnwrapKey, node);
      NothingUnder(constraints, indices.gepSrc, GepKey, node);
      NothingUnder(constraints, indices.dlsymSrc, DlsymKey, node);
    }

    lemma InertAccesses(node: Node)
      requires Good() && Inert(constraints, node)
      ensures Under(indices.loadSrc, node) == []
      ensures Under(indices.storeDst, node) == [] && Under(indices.storeSrc, node) == []
    {
      hide Wf, Below, IsSolution, Valid, OwnersOk;
      NothingUnder(constraints, indices.loadSrc, LoadKey, node);
      NothingUnder(constraints, indices.storeDst, StoreDstKey, node);
      NothingUnder(constraints, indices.storeSrc, StoreSrcKey, node);
    }

    lemma ListsOk()
      requires Good()
      ensures Lists(constraints, indices.copySrc, CopyKey) && Lists(constraints, indices.unwrapSrc, UnwrapKey)
      ensures Lists(constraints, indices.gepSrc, GepKey) && Lists(constraints, indices.dlsymSrc, DlsymKey)
      ensures Joined(p, constraints)
    {
      hide Wf, Below, IsSolution, Valid, Lists, OwnersOk;
    }

    /** Copies and unwraps of a popped node. */
    method CopyPhase(node: Node, ls: seq<Loc>)
      requires Good()
      requires forall l :: l in ls ==> l in P(View(), node)
      modifies `pts, `sizes, `holders, `delta, `pending, `worklist, `queued
      ensures Step(old(View()))
      ensures KindDone(p, View(), CopyKey, node, ls) && KindDone(p, View(), UnwrapKey, node, ls)
      ensures Inert(constraints, node) ==> View() == old(View())
    {
      hide Good, Ext, Quiet, KindDone, Lists, Joined, Inert;
      ghost var st := View();
      ListsOk();
      if Inert(constraints, node) {
        InertFlows(node);
      }
      FlowAll(indices.copySrc, CopyKey, node, ls);
      ghost var st1 := View();
      HeldStays(p, st, st1, node);
      FlowAll(indices.unwrapSrc, UnwrapKey, node, ls);
      StepTrans(st, st1);
      KindDoneStays(p, st1, View(), CopyKey, node, ls);
    }

    /** Copies, unwraps and loads of a popped node. */
    method FlowPhase(node: Node, ls: seq<Loc>)
      requires Good()
      requires forall l :: l in ls ==> l in P(View(), node)
      modifies `pts, `sizes, `holders, `delta, `pending, `worklist, `queued
      ensures Step(old(View()))
      ensures KindDone(p, View(), CopyKey, node, ls) && KindDone(p, View(), UnwrapKey, node, ls)
      ensures KindDone(p, View(), LoadKey, node, ls)
      ensures Inert(constraints, node) && old(AddressesHeld(node)) ==> View() == old(View())
    {
      hide Good, Ext, Quiet, KindDone, Joined, Loaded, Inert, AddressesHeld;
      ghost var st := View();
      ListsOk();
      if Inert(constraints, node) {
        InertAccesses(node);
      }
      CopyPhase(node, ls);
      ghost var st1 := View();
      AddrOfAll(node);
      ghost var st2 := View();
      StepTrans(st, st1);
      HeldStays(p, st, st2, node);
      LoadAll(node, ls);
      StepTrans(st, st2);
      CleanTrans(p, st1, st2, View(), {});
      KindDoneStays(p, st1, View(), CopyKey, node, ls);
      KindDoneStays(p, st1, View(), UnwrapKey, node, ls);
      LoadsDone(p, View(), node, ls);
    }

    /** The stores of a popped node, through it and of it. */
    method StorePhase(node: Node, ls: seq<Loc>)
      requires Good()
      requires forall l :: l in ls ==> l in P(View(), node)
      modifies `memory, `pts, `sizes, `holders, `delta, `pending, `worklist, `queued
      ensures Step(old(View()))
      ensures KindDone(p, View(), StoreDstKey, node, ls)
      ensures StoresDone(p, View(), constraints, node, ls)
      ensures Inert(constraints, node) ==> View() == old(View())
    {
      hide Good, Ext, Quiet, KindDone, Joined, TargetsDone, ValuesDone, Inert;
      ghost var st := View();
      ListsOk();
      if Inert(constraints, node) {
        InertAccesses(node);
      }
      StoreDstAll(node, ls);
      ghost var st1 := View();
      HeldStays(p, st, st1, node);
      StoreSrcAll(node, ls);
      StepTrans(st, st1);
      forall i: nat | i < |constraints| && StoreDstKey(constraints[i]) == Some(node)
        ensures TargetsDone(p, View(), constraints[i], ls)
      {
        StoreDoneStays(p, st1, View(), constraints[i], ls);
      }
      StoresSettled(p, View(), node, ls);
    }

    /** Field accesses and `dlsym` lookups of a popped node. */
    method FieldPhase(node: Node, ls: seq<Loc>)
      requires Good()
      requires forall l :: l in ls ==> l in P(View(), node)
      modifies `pts, `sizes, `holders, `delta, `pending, `worklist, `queued
      ensures Step(old(View()))
      ensures KindDone(p, View(), GepKey, node, ls) && KindDone(p, View(), DlsymKey, node, ls)
      ensures FieldsDone(p, old(View()), View(), constraints, node, ls)
      ensures Inert(constraints, node) ==> View() == old(View())
    {
      hide Good, Ext, Quiet, KindDone, Lists, Joined, Inert, FieldDone;
      ghost var st := View();
      ListsOk();
      if Inert(constraints, node) {
        InertFlows(node);
      }
      FlowAll(indices.gepSrc, GepKey, node, ls);
      ghost var st1 := View();
      assert FieldsDone(p, st, st1, constraints, node, ls);
      HeldStays(p, st, st1, node);
      FlowAll(indices.dlsymSrc, DlsymKey, node, ls);
      StepTrans(st, st1);
      KindDoneStays(p, st1, View(), GepKey, node, ls);
      ExtRefl(p, st);
      FieldsDoneLater(p, st, st, st1, View(), constraints, node, ls);
    }

    /** Everything a popped node does to the facts, before its calls. */
    method StaticPhase(node: Node, ls: seq<Loc>)
      requires Good() && CellsLifted(p, View())
      requires forall l :: l in ls ==> l in P(View(), node)
      modifies `memory, `pts, `sizes, `holders, `delta, `pending, `worklist, `queued
      ensures Step(old(View()))
      ensures AllFired(p, View(), View().constraints, node, ls) && StoresDone(p, View(), constraints, node, ls)
      ensures forall x :: x in ls ==> ObSync(p, View(), node, x)
      ensures FieldsDone(p, old(View()), View(), constraints, node, ls)
      ensures Inert(constraints, node) && node !in synced && old(AddressesHeld(node)) ==> View() == old(View())
    {
      hide Good, Ext, Quiet, KindDone, Joined, StoresDone, AllFired, CellsLifted, Inert, AddressesHeld, FieldsDone;
      ghost var st := View();
      ListsOk();
      SyncVarToCell(node, ls);
      ghost var st1 := View();
      HeldStays(p, st, st1, node);
      FlowPhase(node, ls);
      ghost var st2 := View();
      StepTrans(st, st1);
      HeldStays(p, st, st2, node);
      StorePhase(node, ls);
      ghost var st3 := View();
      StepTrans(st, st2);
      HeldStays(p, st, st3, node);
      FieldPhase(node, ls);
      ExtRefl(p, View());
      FieldsDoneLater(p, st, st3, View(), View(), constraints, node, ls);
      StepTrans(st, st3);
      CleanTrans(p, st2, st3, View(), {});
      CleanTrans(p, st1, st2, View(), {});
      KindDoneStays(p, st2, View(), CopyKey, node, ls);
      KindDoneStays(p, st2, View(), UnwrapKey, node, ls);
      KindDoneStays(p, st2, View(), LoadKey, node, ls);
      KindDoneStays(p, st3, View(), StoreDstKey, node, ls);
      StoresDoneStays(p, st3, View(), constraints, node, ls);
      KindsFired(p, View(), node, ls);
      forall x | x in ls ensures ObSync(p, View(), node, x) {
        ObSyncStays(p, st1, View(), node, x);
      }
    }

    lemma WiringKept(st: State)
      requires Ext(p, st, View(), {}) && WiringOk(p, st) && CallsWired(p, st)
      requires links == st.links && owing == st.owing && resolved == st.resolved
      requires EdgesOk() && TakenOk() && EventsSound() && ModelsOk() && OwedHeld(View(), |st.constraints|)
      ensures Wiring()
    {
      hide Ext, WiringOk, CallsWired, TakenOk, EventsSound, ModelsOk;
      WiringStays(p, st, View());
      CallsWiredStays(p, st, View());
    }

    /** Nothing is filed under the popped node and nobody watches it. */
    ghost predicate IdleNode(node: Node)
      reads `constraints, `synced, `links
    {
      Inert(constraints, node) && node !in synced && links.watch == []
    }

    lemma HeldAddresses(node: Node, ls: seq<Loc>)
      requires ClosedBut(p, View(), node, ls)
      ensures AddressesHeld(node)
    {
      hide ObStore, ObSync, ObCall, ObWatch, CellsLifted;
      forall i: nat | i < |constraints| && AddrOfKey(constraints[i]) == Some(node) ensures constraints[i].loc in P(View(), node) {
        assert Ob(p, View(), constraints[i], 0);
      }
    }

    lemma AllAddresses(node: Node, ls: seq<Loc>)
      requires ClosedBut(p, View(), node, ls) && p.constraints <= constraints
      ensures AddressesGiven(p, View())
    {
      hide ObStore, ObSync, ObCall, ObWatch, CellsLifted;
      forall i | 0 <= i < |p.constraints| && p.constraints[i].AddrOf? ensures p.constraints[i].loc in P(View(), p.constraints[i].dst) {
        assert constraints[i] == p.constraints[i];
        assert Ob(p, View(), constraints[i], 0);
      }
    }

    lemma GivenStay(st: State)
      requires AddressesGiven(p, st) && Ext(p, st, View(), {})
      ensures AddressesGiven(p, View())
    {
      hide AddressesGiven, LinksGrow, Owns, Absorbed;
      AddressesStay(p, st, View());
    }

    /** Propagate the locations a popped node gained since its last pop. */
    method Process(node: Node, ls: seq<Loc>)
      requires Good() && Wiring() && ClosedBut(p, View(), node, ls)
      requires forall l :: l in ls ==> l in P(View(), node)
      modifies `constraints, `indices, `links, `owing, `effects, `addrTaken, `synced, `owner
      modifies `memory, `sizes, `worklist, `queued, `pts, `holders, `delta, `pending, `resolved, `edges
      ensures Step(old(View())) && Wiring() && Closed(p, View())
      ensures FieldsDone(p, old(View()), View(), old(constraints), node, ls)
      ensures old(LogOk()) ==> LogOk()
      ensures FactlessCalls(p) && old(IdleNode(node)) ==> SameSets(old(View()), View())
      ensures SitesAt(p, node) == [] && old(IdleNode(node)) ==> View() == old(View())
    {
      hide AddressesGiven, Good, Ext, Quiet, Joined, StoresDone, AllFired, CellsLifted, ClosedBut, Closed, WiringOk, CallsWired, Since, ObSync, ObCall;
      hide TakenOk, EventsSound, ModelsOk, EdgesOk, LogOk, WatchedFor, FactlessCalls, Inert, AddressesHeld, FieldsDone;
      ghost var st := View();
      ListsOk();
      GivenPrefix();
      ClosedButLifted(p, st, node, ls);
      HeldAddresses(node, ls);
      AllAddresses(node, ls);
      StaticPhase(node, ls);
      ghost var st1 := View();
      WiringKept(st);
      HeldStays(p, st, st1, node);
      GivenStay(st);
      CallPhase(node, ls);
      StepTrans(st, st1);
      AllFiredStays(p, st1, View(), st.constraints, node, ls);
      StoresDoneStays(p, st1, View(), st.constraints, node, ls);
      forall x | x in ls ensures ObSync(p, View(), node, x) {
        ObSyncStays(p, st1, View(), node, x);
      }
      SinceParts(p, st1, View());
      ExtRefl(p, st);
      FieldsDoneLater(p, st, st, st1, View(), st.constraints, node, ls);
      CloseAgain(p, st, View(), node, ls);
    }

    /** The calls of a popped node, and the arguments forwarded to the functions
        it gained. */
    method CallPhase(node: Node, ls: seq<Loc>)
      requires Good() && Wiring() && AddressesGiven(p, View())
      requires forall l :: l in ls ==> l in P(View(), node)
      modifies `constraints, `indices, `links, `owing, `effects, `addrTaken, `synced, `owner
      modifies `memory, `sizes, `worklist, `queued, `pts, `holders, `delta, `pending, `resolved, `edges
      ensures Wired(old(View())) && Wiring() && Quiet(old(View()), View())
      ensures forall l :: l in ls ==> ObCall(p, View(), node, l)
      ensures WatchedFor(p, View(), |old(links.watch)|, node, ls)
      ensures old(LogOk()) ==> LogOk()
      ensures FactlessCalls(p) && old(links.watch) == [] ==> SameSets(old(View()), View())
      ensures SitesAt(p, node) == [] && old(links.watch) == [] ==> View() == old(View())
    {
      hide AddressesGiven, Good, Ext, Quiet, Linking, CallsWired, EdgesOk, LogOk, FactlessCalls, Since, ObCall;
      ghost var st := View();
      GivenPrefix();
      ResolveCalls(node, ls);
      ghost var st1 := View();
      HeldStays(p, st, st1, node);
      GivenStay(st);
      ForwardGained(node, ls);
      WiredStep(st, st1);
      WatchersStay(p, st, st1);
      forall l | l in ls ensures ObCall(p, View(), node, l) {
        ObCallStays(p, st1, View(), node, l);
      }
    }

    // ----- the worklist loop

    /** Between pops: nothing is owed but what is queued or on record. */
    ghost predicate Ready()
      reads this
    {
      Steady() && FallsOk(p, View(), seenOnce)
    }

    ghost predicate Steady()
      reads this
    {
      Good() && Wiring() && LogOk() && Closed(p, View()) && Seeded(p, View())
    }

    method TakeDelta(node: Node) returns (ls: seq<Loc>)
      modifies `delta, `pending
      ensures ls == DeltaOf(old(delta), node)
      ensures delta == old(delta)[node := []]
      ensures pending == old(pending) - Marks(node, ls)
    {
      ls := DeltaOf(delta, node);
      delta := delta[node := []];
      for i := 0 to |ls|
        modifies `pending
        invariant pending == old(pending) - Marks(node, ls[..i])
      {
        assert ls[..i + 1] == ls[..i] + [ls[i]];
        pending := pending - {(node, ls[i])};
      }
      assert ls[..|ls|] == ls;
    }

    /** The state right after a pop: only the popped node's own work is open. */
    lemma Popped(st: State, node: Node, ls: seq<Loc>)
      requires Valid(p) && IsSolution(p, sol, true) && Linked(p, sol, constraints, indices) && OwnersOk(p, sol, owner)
      requires EdgesOk() && TakenOk() && EventsSound() && ModelsOk()
      requires Wf(p, st) && Below(st, sol) && WiringOk(p, st) && CallsWired(p, st) && Closed(p, st) && Seeded(p, st)
      requires Taken1(st, View(), node, ls)
      ensures Good() && Wiring() && ClosedBut(p, View(), node, ls) && Seeded(p, View())
      ensures forall l :: l in ls ==> l in P(View(), node)
      ensures forall n :: P(View(), n) == P(st, n)
    {
      hide Valid, IsSolution, Linked, OwnersOk, EdgesOk, TakenOk, EventsSound, ModelsOk, Wf, Below, WiringOk, CallsWired, Closed, ClosedBut, Seeded;
      TakenWf(p, st, View(), node, ls);
      TakenClosed(p, st, View(), node, ls);
      TakenWiring(p, st, View(), sol, node, ls);
      forall n ensures P(View(), n) == P(st, n) {}
      SeededStays(p, st, View());
    }

    /** One turn of the loop, after `node` was taken off the worklist. */
    method Turn(node: Node, ls: seq<Loc>)
      requires Good() && Wiring() && LogOk() && ClosedBut(p, View(), node, ls) && Seeded(p, View())
      requires forall l :: l in ls ==> l in P(View(), node)
      modifies `constraints, `indices, `links, `owing, `effects, `addrTaken, `synced, `owner
      modifies `memory, `sizes, `worklist, `queued, `pts, `holders, `delta, `pending, `resolved, `edges, `seenOnce
      ensures Steady()
      ensures Ext(p, old(View()), View(), {}) && Quiet(old(View()), View())
      ensures seenOnce == old(seenOnce) + (if ls == [] then {node} else {})
      ensures ls != [] || node !in old(seenOnce) ==> FieldsDone(p, old(View()), View(), old(constraints), node, ls)
      ensures ls == [] && (node in old(seenOnce) || NoFields(p.constraints, node)) ==> View() == old(View())
      ensures ls != [] && FactlessCalls(p) && old(IdleNode(node)) ==> SameSets(old(View()), View())
      ensures ls != [] && SitesAt(p, node) == [] && old(IdleNode(node)) ==> View() == old(View())
    {
      hide Good, Ext, Quiet, ClosedBut, Closed, Seeded, WiringOk, CallsWired, Joined, TakenOk, EventsSound, ModelsOk, EdgesOk, LogOk;
      hide AddressesHeld, FactlessCalls, IdleNode, NoFields, FieldsDone;
      ghost var st1 := View();
      if ls == [] {
        TouchTurn(node);
      } else {
        Process(node, ls);
      }
      SeededLater(p, st1, View());
    }

    /** A turn for a node with nothing pending. */
    method TouchTurn(node: Node)
      requires Good() && Wiring() && ClosedBut(p, View(), node, [])
      modifies `sizes, `worklist, `queued, `pts, `holders, `delta, `pending, `seenOnce
      ensures Step(old(View())) && Wiring() && Closed(p, View())
      ensures seenOnce == old(seenOnce) + {node}
      ensures node !in old(seenOnce) ==> FieldsDone(p, old(View()), View(), constraints, node, [])
      ensures node in old(seenOnce) ==> View() == old(View())
      ensures NoFields(p.constraints, node) ==> View() == old(View())
    {
      hide Good, Ext, Quiet, ClosedBut, Closed, WiringOk, CallsWired, Joined, TakenOk, EventsSound, ModelsOk, EdgesOk;
      hide AddressesHeld, FallbacksDone, NoFields, FieldsDone;
      ghost var st1 := View();
      HeldAddresses(node, []);
      NothingOpen(p, st1, node);
      ListsOk();
      if NoFields(p.constraints, node) {
        NoFieldsAdded(node);
      }
      ghost var seen := seenOnce;
      FirstTouch(node);
      if node !in seen {
        TouchDone(st1, node);
      }
      WiringKept(st1);
      ClosedStays(p, st1, View());
    }

    lemma TouchDone(st: State, node: Node)
      requires FallbacksDone(node) && Ext(p, st, View(), {})
      ensures FieldsDone(p, st, View(), constraints, node, [])
    {
      hide Ext, FellBack, FieldDone, CellsReach;
      forall i | 0 <= i < |constraints| && constraints[i].Gep? && constraints[i].src == node
        ensures FieldDone(p, st, View(), constraints[i], [])
      {
        assert GepKey(constraints[i]) == Some(node);
        NoCells(p, View(), constraints[i]);
        FieldApplied(p, st, View(), constraints[i], []);
      }
    }

    /** Process `node`, just taken off the worklist of `st`. */
    method FinishPop(node: Node, ghost st: State)
      requires Valid(p) && IsSolution(p, sol, true) && Linked(p, sol, constraints, indices) && OwnersOk(p, sol, owner)
      requires EdgesOk() && TakenOk() && EventsSound() && ModelsOk() && LogOk() && FallsOk(p, st, seenOnce)
      requires Wf(p, st) && Below(st, sol) && WiringOk(p, st) && CallsWired(p, st) && Closed(p, st) && Seeded(p, st)
      requires st.worklist != [] && node == st.worklist[|st.worklist| - 1]
      requires View() == st.(worklist := st.worklist[..|st.worklist| - 1], queued := st.queued - {node})
      modifies `constraints, `indices, `links, `owing, `effects, `addrTaken, `synced, `owner
      modifies `memory, `sizes, `worklist, `queued, `pts, `holders, `delta, `pending, `resolved, `edges, `seenOnce
      ensures Ready() && Progress(p, st, View())
      ensures seenOnce == old(seenOnce) + (if D(st, node) == [] then {node} else {})
      ensures D(st, node) != [] || node !in old(seenOnce) ==> FieldsDone(p, st, View(), st.constraints, node, D(st, node))
      ensures D(st, node) == [] && NoFields(p.constraints, node) ==> Taken1(st, View(), node, [])
      ensures D(st, node) != [] && FactlessCalls(p) && old(IdleNode(node)) ==> SameSets(st.(delta := st.delta[node := []]), View())
      ensures D(st, node) != [] && SitesAt(p, node) == [] && old(IdleNode(node)) ==> Taken1(st, View(), node, D(st, node))
    {
      hide Valid, IsSolution, Linked, OwnersOk, EdgesOk, LogOk, TakenOk, EventsSound, ModelsOk, Wf, Below, WiringOk, CallsWired, Closed, Seeded;
      hide Ext, Quiet, Progress, ClosedBut, NoFields, FactlessCalls, IdleNode, FallsOk, FieldsDone;
      ghost var seen := seenOnce;
      var ls := TakeDelta(node);
      ghost var st1 := View();
      assert Taken1(st, st1, node, ls);
      hide Taken1, SameSets;
      Popped(st, node, ls);
      GivenPrefix();
      Turn(node, ls);
      TurnProgress(p, st, st1, View(), node, ls);
      TakenSame(st, st1, View(), node, ls);
      if ls != [] || node !in seen {
        FieldsTaken(p, st, st1, View(), node, ls);
        GivenFields(p, st1, View(), st1.constraints, node, ls);
      }
      FallsKept(p, st, st1, View(), node, ls, seen, seenOnce);
    }

    /** One pop. A node with nothing pending changes nothing but the queue, unless
        a field access goes through it; one that nothing is filed under
        settles what it had pending, and teaches nothing unless it resolves
        calls that do. */
    method Pop() returns (node: Node)
      requires Ready() && worklist != []
      modifies this
      ensures Ready() && Progress(p, old(View()), View())
      ensures node == old(worklist[|worklist| - 1])
      ensures seenOnce == old(seenOnce) + (if D(old(View()), node) == [] then {node} else {})
      ensures D(old(View()), node) != [] || node !in old(seenOnce) ==>
        FieldsDone(p, old(View()), View(), old(constraints), node, D(old(View()), node))
      ensures D(old(View()), node) == [] && NoFields(p.constraints, node) ==> Taken1(old(View()), View(), node, [])
      ensures D(old(View()), node) != [] && FactlessCalls(p) && old(IdleNode(node)) ==>
        SameSets(old(View()).(delta := old(delta)[node := []]), View())
      ensures D(old(View()), node) != [] && SitesAt(p, node) == [] && old(IdleNode(node)) ==>
        Taken1(old(View()), View(), node, D(old(View()), node))
    {
      hide Valid, IsSolution, Linked, OwnersOk, EdgesOk, LogOk, TakenOk, EventsSound, ModelsOk, Wf, Below, WiringOk, CallsWired, Closed, Seeded;
      hide Ext, Quiet, Progress, NoFields, FactlessCalls, IdleNode, Taken1, SameSets, FallsOk, FieldsDone;
      ghost var st := View();
      node := worklist[|worklist| - 1];
      worklist := worklist[..|worklist| - 1];
      queued := queued - {node};
      FinishPop(node, st);
    }

    /** Pop until the worklist drains or the budget of pops is used up; the pop
        that finds it used up does nothing and is not counted. */
    method Run(budget: Option<nat>) returns (converged: bool, pops: nat)
      requires Ready()
      modifies this
      ensures Below(View(), sol) && TakenOk() && ModelsOk() && LogOk() && p.constraints <= constraints
      ensures NoDup(edges) && forall cs: CallSite, f: FnId :: (cs, f) in edges ==> Called(p, View(), cs, f)
      ensures forall i :: |p.constraints| <= i < |constraints| ==> Due(p, sol, constraints[i])
      ensures converged ==> Ready() && worklist == []
      ensures !converged ==> budget.Some? && pops == budget.value
      ensures budget.Some? ==> pops <= budget.value
    {
      hide Valid, IsSolution, Linked, OwnersOk, TakenOk, EventsSound, ModelsOk, LogOk, Wf, Below, WiringOk, CallsWired, Closed, Seeded;
      hide Ext, Quiet, Called, PtsLeft, MemLeft, CalleesLeft, WiredLeft, NoFields, Inert, FactlessCalls, FallsOk, FieldsDone, Due;
      converged, pops := true, 0;
      while worklist != []
        invariant Ready()
        invariant budget.Some? ==> pops <= budget.value
        invariant converged
        decreases PtsLeft(p, View()), MemLeft(p, View()), CalleesLeft(p, View()), WiredLeft(p, View()), |worklist|
      {
        ghost var st := View();
        GivenPrefix();
        AllDue();
        var node := worklist[|worklist| - 1];
        worklist := worklist[..|worklist| - 1];
        queued := queued - {node};
        if budget.Some? && pops >= budget.value {
          converged := false;
          StillSound(p, sol, st, View());
          break;
        }
        pops := pops + 1;
        FinishPop(node, st);
      }
      if converged {
        GivenPrefix();
        AllDue();
      }
      EdgesFound(p, View());
    }

    // ----- seeding

    constructor (p: Problem, indices: SolverIndices)
      requires Valid(p) && IndicesOk(p.constraints, indices)
      ensures this.p == p && sol == Least(p, true)
      ensures Seeding() && Fresh()
    {
      this.p, this.sol := p, Least(p, true);
      pts, delta, pending, memory, holders := map[], map[], {}, map[], map[];
      worklist, queued, sizes := [], {}, map[];
      constraints, this.indices := p.constraints, indices;
      synced, owner, addrTaken, seenOnce := map[], map[], {}, {};
      resolved, edges := map[], [];
      links, owing, effects := NO_LINKS, map[], [];
      new;
      hide Valid, IndicesOk, IsSolution, Least;
      LeastIsSolution(p, true);
      EmptyOk(p, sol, View());
    }

    ghost predicate Fresh()
      reads this
    {
      && pts == map[] && memory == map[] && worklist == [] && constraints == p.constraints
      && synced == map[] && links == NO_LINKS && edges == [] && effects == [] && seenOnce == {}
    }

    /** Before the first pop. */
    ghost predicate Seeding()
      reads this
    {
      Good() && Wiring() && Unsettled(View()) && CellsLifted(p, View()) && SinceOk(p, View(), |p.constraints|)
    }

    /** A later stage of seeding than `st`. */
    ghost predicate Later(st: State)
      reads this
    {
      Seeding() && Ext(p, st, View(), {})
    }

    lemma LaterTrans(s0: State, s1: State)
      requires Ext(p, s0, s1, {}) && Later(s1)
      ensures Later(s0)
    {
      hide Seeding, Ext;
      CleanTrans(p, s0, s1, View(), {});
    }

    lemma SeedWired(st: State)
      requires Unsettled(st) && CellsLifted(p, st) && SinceOk(p, st, |p.constraints|) && p.constraints <= st.constraints
      requires Wired(st) && CallsWired(p, View()) && EdgesOk()
      ensures Later(st)
    {
      hide Good, Linking, EdgesOk, Unsettled, CellsLifted, SinceOk, WatchOk, CallsWired, Ext;
      UnsettledStays(p, st, View(), {});
      CellsLiftedStays(p, st, View());
      ConstraintsStay(p, st, View());
      AddedNoLoads(st.constraints);
      SinceStays(p, st, View(), |p.constraints|);
    }

    lemma SeedStep(st: State)
      requires Unsettled(st) && CellsLifted(p, st) && SinceOk(p, st, |p.constraints|) && WiringOk(p, st) && CallsWired(p, st)
      requires Good() && Ext(p, st, View(), {}) && constraints == st.constraints
      requires links == st.links && owing == st.owing && resolved == st.resolved
      requires EdgesOk() && TakenOk() && EventsSound() && ModelsOk()
      ensures Later(st)
    {
      hide Good, Unsettled, CellsLifted, SinceOk, WiringOk, CallsWired, Ext, EdgesOk, TakenOk, EventsSound, ModelsOk;
      WiringKept(st);
      SinceSame(p, st, View());
      GivenPrefix();
      SeedWired(st);
    }

    method QueueAll()
      requires Seeding()
      modifies `worklist, `queued
      ensures Later(old(View()))
      ensures forall i :: 0 <= i < |constraints| ==> constraints[i].dst in queued && constraints[i].src in queued
      ensures worklist == AppendNew(old(worklist), Ends(constraints))
    {
      hide Good, Unsettled, CellsLifted, SinceOk, WiringOk, CallsWired, Ext, EdgesOk, TakenOk, EventsSound, ModelsOk, AppendNew, Ends;
      ghost var st := View();
      ExtRefl(p, st);
      EndpointsValid();
      NoEnds(worklist, constraints);
      for i := 0 to |constraints|
        invariant Good() && Ext(p, st, View(), {}) && EdgesOk() && TakenOk() && EventsSound() && ModelsOk()
        invariant forall j :: 0 <= j < i ==> constraints[j].dst in queued && constraints[j].src in queued
        invariant worklist == AppendNew(old(worklist), Ends(constraints[..i]))
      {
        EndsSnoc(old(worklist), constraints, i);
        ghost var st1 := View();
        Enqueue(constraints[i].dst);
        ghost var st2 := View();
        Enqueue(constraints[i].src);
        CleanTrans(p, st, st1, st2, {});
        CleanTrans(p, st, st2, View(), {});
      }
      assert constraints[..|constraints|] == constraints;
      SeedStep(st);
    }

    lemma EndpointsValid()
      requires Good()
      ensures forall i :: 0 <= i < |constraints| ==> constraints[i].dst < p.nodes && constraints[i].src < p.nodes
    {
      hide Good;
      forall i | 0 <= i < |constraints| ensures constraints[i].dst < p.nodes && constraints[i].src < p.nodes {
        ConstraintSound(i);
      }
    }

    /** The addresses of the first `k` constraints are taken and in place. */
    ghost predicate AddressesSeeded(k: nat)
      reads this
    {
      forall j :: 0 <= j < k && j < |p.constraints| && p.constraints[j].AddrOf? ==>
        p.constraints[j].loc in addrTaken && p.constraints[j].loc in P(View(), p.constraints[j].dst)
    }

    lemma TakenSound(i: nat)
      requires Good() && i < |p.constraints| && p.constraints[i].AddrOf?
      ensures TakenIn(p, sol, p.constraints[i].loc)
      ensures i < |constraints| && constraints[i] == p.constraints[i]
    {
      hide Valid, Wf, Below, IndicesOk, OwnersOk, IsSolution, Active, AddedOk;
      assert Taken(p, p.constraints[i].loc);
    }

    /** Take the address of `loc` and point `dst` at it. */
    method SeedAt(dst: Node, loc: Loc)
      requires Seeding() && dst < p.nodes && loc < |p.kinds| && sol.Pt(dst, loc) && TakenIn(p, sol, loc)
      modifies `addrTaken, `synced, `owner, `memory, `pts, `sizes, `holders, `delta, `pending, `worklist, `queued
      ensures Later(old(View())) && addrTaken == old(addrTaken) + {loc} && loc in P(View(), dst)
      ensures p.ownCell == map[] ==> pts == old(pts)[dst := Held(old(pts), dst) + {loc}] && memory == old(memory) && synced == old(synced)
      ensures p.ownCell == map[] && dst in old(queued) ==> worklist == old(worklist) && queued == old(queued)
    {
      hide Good, Unsettled, CellsLifted, SinceOk, WiringOk, CallsWired, Ext, Quiet, EdgesOk, EventsSound, TakenOk, ModelsOk, TakenIn, Committed;
      ghost var st := View();
      SeedAddrOf(dst, loc);
      CommittedAside(st.(pts := pts), dst, [loc]);
      if dst in st.queued {
        CommittedAgain(st.(pts := pts), dst, [loc]);
      }
      SeedStep(st);
    }

    /** Seed address constraint number `i` of the program. */
    method SeedAddress(i: nat)
      requires Seeding() && i < |p.constraints| && AddressesSeeded(i)
      modifies `addrTaken, `synced, `owner, `memory, `pts, `sizes, `holders, `delta, `pending, `worklist, `queued
      ensures Later(old(View())) && AddressesSeeded(i + 1)
      ensures p.ownCell == map[] ==> pts == PointTo(old(pts), p.constraints[i]) && memory == old(memory) && synced == old(synced)
      ensures p.ownCell == map[] && p.constraints[i].dst in old(queued) ==> worklist == old(worklist) && queued == old(queued)
    {
      hide Good, Wiring, Unsettled, CellsLifted, SinceOk, Ext, TakenIn;
      ghost var st := View();
      var c := p.constraints[i];
      ExtRefl(p, st);
      if !c.AddrOf? {
        return;
      }
      TakenSound(i);
      AddrOfSound(i);
      SeedAt(c.dst, c.loc);
      forall n ensures P(st, n) <= P(View(), n) {
        HeldStays(p, st, View(), n);
      }
    }

    method SeedAddresses()
      requires Seeding()
      modifies `addrTaken, `seenOnce, `synced, `owner, `memory, `pts, `sizes, `holders, `delta, `pending, `worklist, `queued
      ensures Later(old(View())) && AddressesSeeded(|p.constraints|)
      ensures forall n :: n in seenOnce ==> n in old(seenOnce) || P(View(), n) != {}
      ensures p.ownCell == map[] ==> pts == AddressSets(old(pts), p.constraints) && memory == old(memory) && synced == old(synced)
      ensures p.ownCell == map[] && (forall i :: 0 <= i < |p.constraints| ==> p.constraints[i].dst in old(queued)) ==>
        worklist == old(worklist)
    {
      hide Seeding, Ext, AddressesSeeded, PointTo, AddressSets;
      ghost var st := View();
      ExtRefl(p, st);
      assert AddressesSeeded(0) by { NoAddresses(); }
      assert p.constraints[..0] == [] && AddressSets(pts, []) == pts by { NoAddressSets(pts); }
      for i := 0 to |p.constraints|
        invariant Later(st) && AddressesSeeded(i) && seenOnce == old(seenOnce)
        invariant p.ownCell == map[] ==> pts == AddressSets(old(pts), p.constraints[..i]) && memory == old(memory) && synced == old(synced)
        invariant p.ownCell == map[] && (forall j :: 0 <= j < |p.constraints| ==> p.constraints[j].dst in old(queued)) ==>
          worklist == old(worklist) && queued == old(queued)
      {
        ghost var st1 := View();
        AddressSetsSnoc(old(pts), p.constraints, i);
        SeedAddress(i);
        LaterTrans(st, st1);
      }
      assert p.constraints[..|p.constraints|] == p.constraints;
      MarkAll();
    }

    /** The nodes given an address count as touched. */
    method MarkAll()
      requires AddressesSeeded(|p.constraints|)
      modifies `seenOnce
      ensures View() == old(View()) && Seeding() == old(Seeding()) && AddressesSeeded(|p.constraints|)
      ensures forall n :: n in seenOnce ==> n in old(seenOnce) || P(View(), n) != {}
    {
      hide Seeding, AddressesSeeded;
      for i := 0 to |p.constraints|
        invariant View() == old(View()) && Seeding() == old(Seeding()) && AddressesSeeded(|p.constraints|)
        invariant forall n :: n in seenOnce ==> n in old(seenOnce) || P(View(), n) != {}
      {
        if p.constraints[i].AddrOf? {
          SeededHolds(i);
          MarkSeenSeeding(p.constraints[i].dst);
        }
      }
    }

    lemma SeededHolds(i: nat)
      requires AddressesSeeded(|p.constraints|) && i < |p.constraints| && p.constraints[i].AddrOf?
      ensures P(View(), p.constraints[i].dst) != {}
    {
    }

    lemma NoAddresses()
      ensures AddressesSeeded(0)
    {
    }

    method MarkSeenSeeding(node: Node)
      modifies `seenOnce
      ensures View() == old(View()) && Seeding() == old(Seeding()) && seenOnce == old(seenOnce) + {node}
      ensures forall k: nat :: AddressesSeeded(k) == old(AddressesSeeded(k))
    {
      seenOnce := seenOnce + {node};
    }

    method SeedPts(n: Node, l: Loc)
      requires Seeding() && n < p.nodes && l < |p.kinds| && sol.Pt(n, l)
      modifies `pts, `sizes, `holders, `delta, `pending, `worklist, `queued
      ensures Later(old(View())) && l in P(View(), n)
    {
      hide Good, Unsettled, CellsLifted, SinceOk, WiringOk, CallsWired, Ext, Quiet, EdgesOk, TakenOk, EventsSound, ModelsOk, Committed;
      ghost var st := View();
      AddPts(n, l);
      SeedStep(st);
    }

    lemma SeedSound(k: nat)
      requires Good() && k < |p.seeds|
      ensures p.seeds[k].0 < p.nodes && p.seeds[k].1 < |p.kinds| && sol.Pt(p.seeds[k].0, p.seeds[k].1)
    {
      hide Linked, OwnersOk, Wf, Below, CallHolds, Satisfies, Resolves, Active, TakenIn, SyncHolds, Forwards, ForwardHolds;
    }

    /** A static object's node starts out holding its own location. */
    method SeedStatics()
      requires Seeding()
      modifies `pts, `sizes, `holders, `delta, `pending, `worklist, `queued
      ensures Later(old(View()))
      ensures forall j :: 0 <= j < |p.seeds| ==> p.seeds[j].1 in P(View(), p.seeds[j].0)
      ensures p.seeds == [] ==> View() == old(View())
    {
      hide Good, Linking, EdgesOk, CallsWired, Unsettled, CellsLifted, SinceOk, Ext;
      ghost var st := View();
      ExtRefl(p, st);
      for k := 0 to |p.seeds|
        invariant Later(st)
        invariant forall j :: 0 <= j < k ==> p.seeds[j].1 in P(View(), p.seeds[j].0)
        invariant p.seeds == [] ==> View() == st
      {
        ghost var st1 := View();
        SeedSound(k);
        SeedPts(p.seeds[k].0, p.seeds[k].1);
        LaterTrans(st, st1);
        forall n ensures P(st1, n) <= P(View(), n) {
          HeldStays(p, st1, View(), n);
        }
      }
    }

    /** Everything direct call number `k` adds. */
    method SeedDirect(k: nat)
      requires Seeding() && k < |p.direct| && AddressesGiven(p, View())
      modifies `constraints, `indices, `links, `owing, `effects, `addrTaken, `synced, `owner
      modifies `memory, `sizes, `worklist, `queued, `pts, `holders, `delta, `pending
      ensures Later(old(View()))
      ensures CallOk(p, View(), p.direct[k].0, p.direct[k].1)
      ensures effects == old(effects) + EffectsOf(Wires(p, p.direct[k].0, p.direct[k].1))
    {
      hide AddressesGiven, Good, Linking, Unsettled, CellsLifted, SinceOk, CallsWired, Ext, EdgesOk, CallOk;
      ghost var st := View();
      assert Resolves(p, sol, p.direct[k].0, p.direct[k].1);
      GivenPrefix();
      WireCall(p.direct[k].0, p.direct[k].1);
      CallsWiredStays(p, st, View());
      SeedWired(st);
    }

    method SeedCalls()
      requires Seeding() && AddressesGiven(p, View())
      modifies `constraints, `indices, `links, `owing, `effects, `addrTaken, `synced, `owner
      modifies `memory, `sizes, `worklist, `queued, `pts, `holders, `delta, `pending
      ensures Later(old(View()))
      ensures forall j :: 0 <= j < |p.direct| ==> CallOk(p, View(), p.direct[j].0, p.direct[j].1)
      ensures effects == old(effects) + CallEffects(p, p.direct)
      ensures p.direct == [] ==> View() == old(View())
    {
      hide AddressesGiven, Seeding, Ext, CallOk, CallEffects, EffectsOf;
      ghost var st := View();
      ExtRefl(p, st);
      assert p.direct[..0] == [] && CallEffects(p, []) == [] by { NoCallEffects(p); }
      for k := 0 to |p.direct|
        invariant Later(st)
        invariant effects == old(effects) + CallEffects(p, p.direct[..k])
        invariant p.direct == [] ==> View() == st
        invariant forall j :: 0 <= j < k ==> CallOk(p, View(), p.direct[j].0, p.direct[j].1)
      {
        ghost var st1 := View();
        CallEffectsSnoc(p, p.direct[..k], p.direct[k].0, p.direct[k].1);
        assert p.direct[..k + 1] == p.direct[..k] + [(p.direct[k].0, p.direct[k].1)];
        GivenStay(st);
        SeedDirect(k);
        LaterTrans(st, st1);
        forall j | 0 <= j < k ensures CallOk(p, View(), p.direct[j].0, p.direct[j].1) {
          CallOkStays(p, st1, View(), p.direct[j].0, p.direct[j].1);
        }
      }
      assert p.direct[..|p.direct|] == p.direct;
    }

    /** Every address of the program is in place in `st`, and every own cell whose
        address it takes is kept in step. */
    ghost predicate AddressesIn(st: State) {
      && AddressesGiven(p, st)
      && (forall c :: c in p.ownCell && Taken(p, c) ==> c in st.owner)
    }

    lemma PlacedGiven(st: State)
      requires AddressesIn(st)
      ensures AddressesGiven(p, st)
    {
    }

    lemma AddressesPlaced()
      requires AddressesSeeded(|p.constraints|) && TakenOk()
      ensures AddressesIn(View())
    {
    }

    /** Neither own cells, nor static objects, nor direct calls to seed. */
    ghost predicate AddressesOnly() {
      p.ownCell == map[] && p.seeds == [] && p.direct == []
    }

    /** Both ends of every constraint, and the addresses. */
    method SeedNodes()
      requires Seeding() && constraints == p.constraints
      modifies `addrTaken, `seenOnce, `synced, `owner, `memory, `pts, `sizes, `holders, `delta, `pending, `worklist, `queued
      ensures Seeding() && AddressesIn(View())
      ensures forall n :: n in seenOnce ==> n in old(seenOnce) || P(View(), n) != {}
      ensures forall i :: 0 <= i < |p.constraints| ==> p.constraints[i].src in queued
      ensures p.ownCell == map[] ==> memory == old(memory) && synced == old(synced)
      ensures p.ownCell == map[] ==> pts == AddressSets(old(pts), p.constraints) && worklist == AppendNew(old(worklist), Ends(p.constraints))
    {
      hide Good, Linking, EdgesOk, CallsWired, Unsettled, CellsLifted, SinceOk, Ext, AddressesSeeded, AddressesIn;
      hide AppendNew, Ends, AddressSets;
      QueueAll();
      ghost var st := View();
      SeedAddresses();
      assert st.queued <= queued by { QueueStays(p, st, View()); }
      assert TakenOk() by { LinkingTaken(); }
      AddressesPlaced();
    }

    /** Static objects and direct calls. */
    method SeedRest()
      requires Seeding() && AddressesIn(View()) && edges == [] && effects == []
      modifies `constraints, `indices, `links, `owing, `effects, `addrTaken, `synced, `owner
      modifies `memory, `sizes, `worklist, `queued, `pts, `holders, `delta, `pending
      ensures Steady() && Later(old(View())) && edges == []
      ensures p.seeds == [] && p.direct == [] ==> View() == old(View())
    {
      hide AddressesGiven, Good, Linking, EdgesOk, CallsWired, Unsettled, CellsLifted, SinceOk, Ext, AddressesSeeded, AddressesIn, CallOk, Seeded, Closed;
      hide CallEffects;
      ghost var st := View();
      SeedStatics();
      ghost var st1 := View();
      assert AddressesGiven(p, st1) by { PlacedGiven(st); GivenStay(st); }
      SeedCalls();
      LaterTrans(st, st1);
      assert p.direct + edges == p.direct && [] + CallEffects(p, p.direct) == CallEffects(p, p.direct);
      AllSeeded(st, st1);
    }

    /** Everything that is in place before the first pop. */
    method Seed()
      requires Seeding() && Fresh()
      modifies this
      ensures Ready() && edges == []
      ensures AddressesOnly() ==> constraints == p.constraints && memory == map[] && synced == map[] && links == NO_LINKS
      ensures AddressesOnly() ==> pts == AddressSets(map[], p.constraints) && worklist == AppendNew([], Ends(p.constraints))
    {
      hide Steady, Good, Wiring, Unsettled, CellsLifted, SinceOk, Ext, AddressesIn;
      hide AppendNew, Ends, AddressSets, FallsOk;
      SeedNodes();
      ghost var st := View();
      SeedRest();
      AllWaiting(st);
    }

    lemma AllWaiting(st: State)
      requires Seeding() && Ext(p, st, View(), {})
      requires (forall n :: n in seenOnce ==> P(st, n) != {}) && forall i :: 0 <= i < |p.constraints| ==> p.constraints[i].src in st.queued
      ensures FallsOk(p, View(), seenOnce)
    {
      hide Good, Wiring, CellsLifted, SinceOk, Ext, Unsettled, FallsOk;
      QueueStays(p, st, View());
      forall n | n in seenOnce ensures P(View(), n) != {} {
        HeldStays(p, st, View(), n);
      }
      FallsSeeded(p, View(), seenOnce);
    }

    lemma LinkingTaken()
      requires Linking()
      ensures TakenOk()
    {
      hide WiringOk, EventsSound, TakenOk, ModelsOk;
    }

    lemma AllSeeded(st0: State, st1: State)
      requires Seeding() && LogOk() && Ext(p, st0, View(), {}) && Ext(p, st1, View(), {}) && AddressesIn(st0)
      requires forall j :: 0 <= j < |p.seeds| ==> p.seeds[j].1 in P(st1, p.seeds[j].0)
      requires forall j :: 0 <= j < |p.direct| ==> CallOk(p, View(), p.direct[j].0, p.direct[j].1)
      ensures Steady()
    {
      hide Good, Linking, EdgesOk, LogOk, CallsWired, Unsettled, CellsLifted, Closed, CallOk, LinksGrow, Absorbed, LiftedTo, ObSync, ObStore, Taken;
      GivenPrefix();
      forall i | 0 <= i < |constraints| && constraints[i].AddrOf? ensures constraints[i].loc in P(View(), constraints[i].dst) {
        if i < |p.constraints| {
          assert constraints[i] == p.constraints[i];
          assert P(st0, p.constraints[i].dst) <= P(View(), p.constraints[i].dst);
        } else {
          assert Ob(p, View(), constraints[i], 0);
        }
      }
      UnsettledClosed(p, View());
      forall j | 0 <= j < |p.seeds| ensures p.seeds[j].1 in P(View(), p.seeds[j].0) {
        assert P(st1, p.seeds[j].0) <= P(View(), p.seeds[j].0);
      }
      forall c | c in p.ownCell && Taken(p, c) ensures c in owner {
        assert c in st0.owner;
      }
    }
  }
}
