/** The solver's set and list helpers, and the lemmas about single steps that
    its methods are built from. */
module Steps {
  import opened Common
  import opened Rules
  import opened Kernel
  import opened Propagation
  import opened Indices
  import opened Convergence
  import Sorting

  /** The elements of a hash set, in whatever order it yields them. */
  method InSetOrder<T(==)>(s: set<T>) returns (q: seq<T>)
    ensures NoDup(q) && forall x :: x in q <==> x in s
  {
    q := [];
    var rest := s;
    while rest != {}
      invariant NoDup(q)
      invariant forall x :: x in s <==> x in q || x in rest
      invariant forall x :: x in q ==> x !in rest
      decreases rest
    {
      var x :| x in rest;
      q, rest := q + [x], rest - {x};
    }
  }

  /** The same in ascending order. */
  method InSortedOrder(s: set<Loc>) returns (q: seq<Loc>)
    ensures Ascending(q) && forall x :: x in q <==> x in s
  {
    q := InSetOrder(s);
    Sorting.SortNumbersOk(q);
    ghost var held := q;
    q := Sorting.SortNumbers(q);
    forall x ensures x in q <==> x in s {
      assert x in q <==> x in Elems(q);
      assert x in held <==> x in Elems(held);
    }
  }

  method IndexHolder(holders: map<Loc, set<Node>>, gain: seq<Loc>, dst: Node) returns (h: map<Loc, set<Node>>)
    ensures h == Indexed(holders, gain, dst)
  {
    h := holders;
    for i := 0 to |gain|
      invariant h == Indexed(holders, gain[..i], dst)
    {
      assert gain[..i + 1][..i] == gain[..i];
      h := h[gain[i] := (if gain[i] in h then h[gain[i]] else {}) + {dst}];
    }
    assert gain[..|gain|] == gain;
  }

  /** Which of `locs` are not held yet: collected first, inserted second. */
  method NotHeld(held: set<Loc>, locs: seq<Loc>) returns (gain: seq<Loc>)
    ensures forall l :: l in gain <==> l in locs && l !in held
  {
    gain := [];
    for i := 0 to |locs|
      invariant forall l :: l in gain <==> l in locs[..i] && l !in held
    {
      assert locs[..i + 1] == locs[..i] + [locs[i]];
      if locs[i] !in held {
        gain := gain + [locs[i]];
      }
    }
    assert locs[..|locs|] == locs;
  }

  /** What a cell gained past `seen` that is admitted and not held. */
  method GainFrom(p: Problem, cell: Loc, mem: seq<Loc>, seen: nat, held: set<Loc>) returns (gain: seq<Loc>)
    requires seen <= |mem|
    ensures gain == GainOf(p, cell, mem[seen..], held)
  {
    gain := [];
    for i := seen to |mem|
      invariant gain == GainOf(p, cell, mem[seen..i], held)
    {
      assert mem[seen..i + 1] == mem[seen..i] + [mem[i]];
      assert mem[seen..i + 1][..i - seen] == mem[seen..i];
      if Admits(p, cell, mem[i]) && mem[i] !in held {
        gain := gain + [mem[i]];
      }
    }
    assert mem[seen..|mem|] == mem[seen..];
  }

  /** A copy, an address or a store that the solution satisfies. */
  ghost predicate SoundAdd(p: Problem, s: Solution, c: Constraint) {
    (c.Copy? || c.AddrOf? || c.Store?) && ValidConstraint(p, c) && Satisfies(p, s, c, true)
  }

  /** A call the solution resolves has the wire, or a handover it serves. */
  ghost predicate Asks(p: Problem, s: Solution, w: Wire) {
    Active(p, s, w) || exists k, l :: Forwards(p, s, k, l) && w in Forwarded(p, k, l)
  }

  /** Wires that add a constraint for good. An argument does where the types of
      actual and formal allow it. */
  ghost predicate Joining(w: Wire) {
    match w
    case Param(_, _, persistent) => persistent
    case Returned(_, _, _) => true
    case ReturnedCopy(_, _) => true
    case Aliased(_, _) => true
    case Content(_, _) => true
    case _ => false
  }

  /** Something asks for `c`: a wire, or an event object registered and waited
      for. */
  ghost predicate Due(p: Problem, s: Solution, c: Constraint) {
    || (exists w :: Asks(p, s, w) && Joining(w) && c == AsConstraint(w))
    || (c.Copy? && Active(p, s, Registers(c.src)) && Active(p, s, Waits(c.dst)))
  }

  /** A constraint added while solving is sound and was asked for. */
  ghost predicate AddedOk(p: Problem, s: Solution, c: Constraint) {
    SoundAdd(p, s, c) && Due(p, s, c)
  }

  lemma AddedSound(p: Problem, s: Solution, c: Constraint)
    requires AddedOk(p, s, c)
    ensures SoundAdd(p, s, c) && Due(p, s, c)
  {
  }

  /** The constraint list extends the problem's by sound additions, fully
      indexed. */
  ghost predicate Linked(p: Problem, s: Solution, cs: seq<Constraint>, ix: SolverIndices) {
    && p.constraints <= cs
    && IndicesOk(cs, ix)
    && (forall i :: |p.constraints| <= i < |cs| ==> AddedOk(p, s, cs[i]))
  }

  /** Each cell kept in step is its variable's own, and the solution agrees. */
  ghost predicate OwnersOk(p: Problem, s: Solution, owner: map<Loc, Node>) {
    forall c :: c in owner ==> c in p.ownCell && SyncHolds(p, s, c, p.ownCell[c])
  }

  lemma LinkedSnoc(p: Problem, s: Solution, cs: seq<Constraint>, ix: SolverIndices, c: Constraint)
    requires Linked(p, s, cs, ix) && AddedOk(p, s, c)
    ensures Linked(p, s, cs + [c], AddConstraint(ix, c, |cs|))
  {
    hide IndicesOk, AddedOk;
    AddConstraintOk(cs, ix, c);
  }

  /** Every constraint in the list is valid and satisfied by the solution. */
  lemma LinkedSound(p: Problem, s: Solution, cs: seq<Constraint>, ix: SolverIndices, i: nat)
    requires Valid(p) && IsSolution(p, s, true) && Linked(p, s, cs, ix) && i < |cs|
    ensures ValidConstraint(p, cs[i]) && Satisfies(p, s, cs[i], true)
    ensures Joined(p, cs)
  {
    hide IndicesOk, ValidConstraint, Satisfies, Resolves, CallHolds, TakenIn, SyncHolds, Active, FlowHolds, Due;
    assert AddedKinds(p, s, cs) by { assert forall j :: |p.constraints| <= j < |cs| ==> AddedOk(p, s, cs[j]); }
    if i < |p.constraints| {
      assert cs[i] == p.constraints[i];
    }
  }

  ghost predicate AddedKinds(p: Problem, s: Solution, cs: seq<Constraint>) {
    forall j :: |p.constraints| <= j < |cs| ==> AddedOk(p, s, cs[j])
  }

  predicate IsFlow(c: Constraint) {
    c.Copy? || c.Unwrap? || c.Gep? || c.Dlsym?
  }

  /** Adding constraints and records changes no fact. */
  lemma Extended(p: Problem, st: State, st': State, s: Solution)
    requires Wf(p, st) && Below(st, s)
    requires st' == st.(constraints := st'.constraints, links := st'.links, owing := st'.owing)
    requires st.constraints <= st'.constraints
    requires LinksGrow(st, st', |st.constraints|)
    ensures Wf(p, st') && Below(st', s) && Ext(p, st, st', {})
  {
    forall n ensures P(st', n) == P(st, n) && D(st', n) == D(st, n) {}
    forall l ensures M(st', l) == M(st, l) && H(st', l) == H(st, l) {}
    forall cs ensures R(st', cs) == R(st, cs) {}
    WatermarksGrow(p, st, st');
    forall n, l | Settled(st', n, l) ensures Settled(st, n, l) {}
  }

  /** Constraint number `n` joins, owing these locations. */
  ghost function Owing(owing: map<nat, set<Loc>>, n: nat, owed: set<Loc>): map<nat, set<Loc>> {
    owing[n := owed]
  }

  lemma Appended(p: Problem, s: Solution, st: State, st': State, c: Constraint, owed: set<Loc>)
    requires Wf(p, st) && Below(st, s) && WiringOk(p, st) && owed <= P(st, c.src)
    requires st' == st.(constraints := st.constraints + [c], owing := Owing(st.owing, |st.constraints|, owed))
    ensures Wf(p, st') && Below(st', s) && Ext(p, st, st', {}) && WiringOk(p, st')
  {
    hide Wf, Below, Ext, WiringOk;
    Extended(p, st, st', s);
    forall i: nat, l | |st.constraints| <= i < |st'.constraints| && l in Owed(st', i) ensures l in P(st', st'.constraints[i].src) {
      assert P(st', c.src) == P(st, c.src);
    }
    WiringStays(p, st, st');
  }

  /** A record of a wired pair needs its copy to be there. */
  lemma WiredMore(p: Problem, st: State, st': State, a: Node, m: Node)
    requires WiringOk(p, st) && Joins(p, st, a, m) && st' == st.(links := st.links.(wired := st.links.wired + {(a, m)}))
    ensures WiringOk(p, st')
  {
    hide Joins, Modelled;
    SameWiring(p, st, st');
  }

  lemma ModelMore(p: Problem, st: State, st': State, v: Node, q: Node)
    requires WiringOk(p, st) && Modelled(p, st, v, q)
    requires st' == st.(links := st.links.(model := st.links.model + {(v, q)}))
    ensures WiringOk(p, st')
  {
    hide Joins, Modelled;
    SameWiring(p, st, st');
  }

  lemma RegisteredMore(p: Problem, st: State, st': State, n: Node)
    requires WiringOk(p, st) && forall b :: b in st.links.waiting ==> Joins(p, st, n, b)
    requires st' == st.(links := st.links.(registered := st.links.registered + [n]))
    ensures WiringOk(p, st')
  {
    hide Joins, Modelled;
    SameWiring(p, st, st');
  }

  lemma WaitingMore(p: Problem, st: State, st': State, n: Node)
    requires WiringOk(p, st) && forall a :: a in st.links.registered ==> Joins(p, st, a, n)
    requires st' == st.(links := st.links.(waiting := st.links.waiting + [n]))
    ensures WiringOk(p, st')
  {
    hide Joins, Modelled;
    SameWiring(p, st, st');
  }

  lemma WatchMore(p: Problem, st: State, st': State, n: Node, k: Handover)
    requires WiringOk(p, st) && st' == st.(links := st.links.(watch := st.links.watch + [(n, k)]))
    ensures WiringOk(p, st')
  {
    hide Joins, Modelled;
    SameWiring(p, st, st');
  }

  /** What wiring rests on: facts, constraints and which of them owe. */
  lemma SameWiring(p: Problem, st: State, st': State)
    requires st'.pts == st.pts && st'.constraints == st.constraints && st'.owing == st.owing && st'.resolved == st.resolved
    ensures forall a, m :: Joins(p, st, a, m) ==> Joins(p, st', a, m)
    ensures forall v, q :: Modelled(p, st, v, q) ==> Modelled(p, st', v, q)
    ensures forall cs, f :: Called(p, st, cs, f) ==> Called(p, st', cs, f)
    ensures forall cs :: R(st', cs) == R(st, cs)
    ensures OwingAdded(p, st) ==> OwingAdded(p, st')
  {
    if OwingAdded(p, st) {
      OwingSame(p, st, st');
    }
    hide OwingAdded;
    forall a, m | Joins(p, st, a, m) ensures Joins(p, st', a, m) {
      SameJoins(p, st, st', a, m);
    }
    forall cs, f | Called(p, st, cs, f) ensures Called(p, st', cs, f) {
      var t, l :| l in P(st, t) && Hits(p, t, l, cs, f);
      assert l in P(st', t);
    }
  }

  lemma PushOk(p: Problem, s: Solution, st: State, st': State, n: Node)
    requires Wf(p, st) && Below(st, s) && n < p.nodes
    requires st' == st.(worklist := if n in st.queued then st.worklist else st.worklist + [n], queued := st.queued + {n})
    ensures Wf(p, st') && Below(st', s) && Ext(p, st, st', {})
  {
    forall m ensures P(st', m) == P(st, m) && D(st', m) == D(st, m) {}
    forall l ensures M(st', l) == M(st, l) && H(st', l) == H(st, l) {}
    if n !in st.queued { NoDupSnoc(st.worklist, n); }
    WatermarksGrow(p, st, st');
    forall m, l | Settled(st', m, l) ensures Settled(st, m, l) {}
  }

  lemma CalleeIsNews(st: State, st': State, cs: CallSite, f: FnId)
    requires f !in R(st, cs) && f in R(st', cs)
    ensures Quiet(st, st')
  {
  }

  lemma PairIsNews(st: State, st': State, a: Node, m: Node)
    requires (a, m) !in st.links.wired && (a, m) in st'.links.wired
    ensures Quiet(st, st')
  {
  }

  lemma CopySound(p: Problem, s: Solution, st: State, a: Node, m: Node)
    requires FlowHolds(s, Copy(m, a)) && Wf(p, st) && Below(st, s)
    ensures forall l :: l in P(st, a) ==> l < |p.kinds| && s.Pt(m, l)
  {
    hide Watermarks;
    forall l | l in P(st, a) ensures s.Pt(m, l) {
      assert s.Pt(a, l) && l in Passed(Copy(m, a), l);
    }
  }

  /** One constraint was added, and it is met or recorded as owing. */
  lemma SinceOne(p: Problem, st: State, n: nat)
    requires |st.constraints| == n + 1
    requires forall l :: !Owes(st, n, l) ==> Ob(p, st, st.constraints[n], l)
    requires forall l, x :: ObStore(p, st, st.constraints[n], l, x)
    ensures SinceOk(p, st, n)
  {
  }

  /** The same, said of the step that added it. */
  lemma SinceOneStep(p: Problem, st0: State, st: State)
    requires |st.constraints| == |st0.constraints| + 1 && st.links.watch == st0.links.watch
    requires forall l :: !Owes(st, |st0.constraints|, l) ==> Ob(p, st, st.constraints[|st0.constraints|], l)
    requires forall l, x :: ObStore(p, st, st.constraints[|st0.constraints|], l, x)
    ensures Since(p, st0, st)
  {
    hide Ob, ObStore;
    SinceOne(p, st, |st0.constraints|);
  }

  /** A copy seeded with all its source holds owes nothing. */
  lemma CopySeeded(p: Problem, st: State, a: Node, m: Node)
    requires P(st, a) <= P(st, m)
    ensures forall l :: Ob(p, st, Copy(m, a), l)
    ensures forall l, x :: ObStore(p, st, Copy(m, a), l, x)
  {
  }

  /** What a copy that joins now owes: the locations its source has settled and
      its destination lacks. */
  ghost function Missing(st: State, a: Node, m: Node): set<Loc> {
    set l | l in P(st, a) && l !in D(st, a) && l !in P(st, m)
  }

  lemma CopyUnowed(p: Problem, st: State, a: Node, m: Node)
    ensures forall l :: l !in Missing(st, a, m) ==> Ob(p, st, Copy(m, a), l)
    ensures forall l, x :: ObStore(p, st, Copy(m, a), l, x)
  {
  }

  lemma OwedNow(st: State, n: nat, owed: set<Loc>)
    requires n < |st.constraints| && n in st.owing && st.owing[n] == owed && st.constraints[n].Copy?
    ensures Owed(st, n) == owed && forall l :: Owes(st, n, l) <==> l in owed
  {
  }

  /** A store applied to all that both its sides held owes nothing. */
  lemma StoreSeeded(p: Problem, st1: State, st2: State, q: Node, v: Node, ls: seq<Loc>, xs: seq<Loc>, self: seq<Loc>)
    requires Stored(p, st2, ls, xs, self) && Ext(p, st1, st2, {})
    requires (forall l :: l in ls <==> l in P(st1, q)) && (forall x :: x in xs <==> x in P(st1, v))
    requires v in p.selfLoc ==> p.selfLoc[v] in self
    ensures forall l :: Ob(p, st2, Store(q, v), l)
    ensures forall l, x :: ObStore(p, st2, Store(q, v), l, x)
  {
    hide StoreOk, SelfOk, Owns, LinksGrow, Absorbed;
    forall l ensures Ob(p, st2, Store(q, v), l) {
      assert Settled(st2, q, l) ==> Settled(st1, q, l);
    }
    forall l, x ensures ObStore(p, st2, Store(q, v), l, x) {
      assert Settled(st2, q, l) ==> Settled(st1, q, l);
      assert Settled(st2, v, x) ==> Settled(st1, v, x);
    }
  }

  lemma AddressSeeded(p: Problem, st: State, d: Node, r: Node, l: Loc)
    requires l in P(st, d)
    ensures forall k :: Ob(p, st, AddrOf(d, r, l), k)
    ensures forall k, x :: ObStore(p, st, AddrOf(d, r, l), k, x)
  {
  }

  /** Constraints and watchers added since `st0` owe nothing but what is on
      record. */
  ghost predicate Since(p: Problem, st0: State, st: State) {
    SinceOk(p, st, |st0.constraints|) && WatchOk(p, st, |st0.links.watch|)
  }

  lemma SinceStart(p: Problem, st: State)
    ensures Since(p, st, st)
  {
  }

  lemma SinceFrom(p: Problem, st: State, st1: State, st2: State)
    requires st1.constraints == st.constraints && st1.links == st.links && Since(p, st1, st2)
    ensures Since(p, st, st2)
  {
  }

  lemma SinceParts(p: Problem, st0: State, st: State)
    requires Since(p, st0, st)
    ensures SinceOk(p, st, |st0.constraints|) && WatchOk(p, st, |st0.links.watch|)
  {
  }

  lemma SinceSame(p: Problem, st0: State, st: State)
    requires st.constraints == st0.constraints && st.links.watch == st0.links.watch
    ensures Since(p, st0, st)
  {
  }

  lemma SinceTrans(p: Problem, s0: State, s1: State, s2: State)
    requires Ext(p, s0, s1, {}) && Ext(p, s1, s2, {}) && Since(p, s0, s1) && Since(p, s1, s2)
    requires forall i :: |s0.constraints| <= i < |s1.constraints| ==> !s1.constraints[i].Load?
    ensures Since(p, s0, s2)
  {
    hide Ext, SinceOk, WatchOk;
    SinceStays(p, s1, s2, |s0.constraints|);
    WatchStays(p, s1, s2, |s0.links.watch|);
  }

  /** What a wire's constraint means for the solution. */
  lemma WireFacts(p: Problem, s: Solution, w: Wire)
    requires ValidWire(p, w) && WireHolds(p, s, w, true)
    ensures SoundAdd(p, s, AsConstraint(w))
    ensures Asks(p, s, w) && Joining(w) ==> AddedOk(p, s, AsConstraint(w))
    ensures AsConstraint(w).dst < p.nodes && AsConstraint(w).src < p.nodes
  {
  }

  /** The solution's side of an active wire. */
  lemma WireActive(p: Problem, s: Solution, w: Wire)
    requires IsSolution(p, s, true) && Active(p, s, w)
    ensures w.Returned? && w.loc in p.ownCell ==> SyncHolds(p, s, w.loc, p.ownCell[w.loc])
    ensures w.Registers? ==> forall b :: Active(p, s, Waits(b)) ==> FlowHolds(s, Copy(b, w.event))
    ensures w.Waits? ==> forall a :: Active(p, s, Registers(a)) ==> FlowHolds(s, Copy(w.event, a))
  {
    hide Active, SyncHolds, FlowHolds, Satisfies, CallHolds, Resolves;
    if w.Returned? {
      assert Active(p, s, Returned(w.dst, w.src, w.loc));
      assert TakenIn(p, s, w.loc);
    }
  }

  method Keep(ls: seq<Loc>, admitted: set<Loc>) returns (kept: seq<Loc>)
    ensures forall l :: l in kept <==> l in ls && l in admitted
  {
    kept := [];
    for i := 0 to |ls|
      invariant forall l :: l in kept <==> l in ls[..i] && l in admitted
    {
      assert ls[..i + 1] == ls[..i] + [ls[i]];
      if ls[i] in admitted {
        kept := kept + [ls[i]];
      }
    }
    assert ls[..|ls|] == ls;
  }

  ghost predicate Loaded(p: Problem, st: State, dst: Node, ls: seq<Loc>) {
    forall l :: l in ls ==> LoadOk(p, st, dst, l)
  }

  lemma LoadedNow(p: Problem, st: State, dst: Node, ls: seq<Loc>)
    requires forall l :: l in ls ==> LoadOk(p, st, dst, l)
    ensures Loaded(p, st, dst, ls)
  {
  }

  lemma LoadedStays(p: Problem, st: State, st': State, dst: Node, ls: seq<Loc>)
    requires Loaded(p, st, dst, ls) && Ext(p, st, st', {}) && st'.memory == st.memory
    ensures Loaded(p, st', dst, ls)
  {
    assert P(st, dst) <= P(st', dst);
    forall l ensures M(st, l) == M(st', l) {}
  }

  lemma LoadsDone(p: Problem, st: State, node: Node, ls: seq<Loc>)
    requires forall i: nat :: i < |st.constraints| && LoadKey(st.constraints[i]) == Some(node) ==>
      Loaded(p, st, st.constraints[i].dst, ls)
    ensures KindDone(p, st, LoadKey, node, ls)
  {
  }

  /** No store of `cs` owes anything to `node`'s locations `ls`, on either side. */
  ghost predicate StoresDone(p: Problem, st: State, cs: seq<Constraint>, node: Node, ls: seq<Loc>) {
    forall i, l, x :: 0 <= i < |cs| && (Open(node, ls, cs[i].dst, l) || Open(node, ls, cs[i].src, x)) ==>
      ObStore(p, st, cs[i], l, x)
  }

  lemma StoresSettled(p: Problem, st: State, node: Node, ls: seq<Loc>)
    requires forall i: nat :: i < |st.constraints| && StoreDstKey(st.constraints[i]) == Some(node) ==> TargetsDone(p, st, st.constraints[i], ls)
    requires forall i: nat :: i < |st.constraints| && StoreSrcKey(st.constraints[i]) == Some(node) ==> ValuesDone(p, st, st.constraints[i], ls)
    ensures KindDone(p, st, StoreDstKey, node, ls) && StoresDone(p, st, st.constraints, node, ls)
  {
    forall i, l | 0 <= i < |st.constraints| && StoreDstKey(st.constraints[i]) == Some(node) && l in ls
      ensures Ob(p, st, st.constraints[i], l)
    {
      assert TargetsDone(p, st, st.constraints[i], ls);
    }
    forall i, l, x | 0 <= i < |st.constraints| && (Open(node, ls, st.constraints[i].dst, l) || Open(node, ls, st.constraints[i].src, x))
      ensures ObStore(p, st, st.constraints[i], l, x)
    {
      var c := st.constraints[i];
      if c.Store? {
        assert StoreDstKey(c) == Some(c.dst) && StoreSrcKey(c) == Some(c.src);
        if Open(node, ls, c.dst, l) { assert TargetsDone(p, st, c, ls); } else { assert ValuesDone(p, st, c, ls); }
      }
    }
  }

  lemma StoresDoneStays(p: Problem, st: State, st': State, cs: seq<Constraint>, node: Node, ls: seq<Loc>)
    requires Ext(p, st, st', {}) && StoresDone(p, st, cs, node, ls)
    ensures StoresDone(p, st', cs, node, ls)
  {
    hide Ext, ObStore;
    forall i, l, x | 0 <= i < |cs| && (Open(node, ls, cs[i].dst, l) || Open(node, ls, cs[i].src, x))
      ensures ObStore(p, st', cs[i], l, x)
    {
      ObStoreStays(p, st, st', cs[i], l, x);
    }
  }

  /** Every constraint `node` drives has been applied to `ls`. */
  ghost predicate AllFired(p: Problem, st: State, cs: seq<Constraint>, node: Node, ls: seq<Loc>) {
    forall i, l :: 0 <= i < |cs| && Fires(cs[i], node, ls, l) ==> Ob(p, st, cs[i], l)
  }

  lemma KindsFired(p: Problem, st: State, node: Node, ls: seq<Loc>)
    requires KindDone(p, st, CopyKey, node, ls) && KindDone(p, st, UnwrapKey, node, ls)
    requires KindDone(p, st, LoadKey, node, ls) && KindDone(p, st, StoreDstKey, node, ls)
    requires KindDone(p, st, GepKey, node, ls) && KindDone(p, st, DlsymKey, node, ls)
    ensures AllFired(p, st, st.constraints, node, ls)
  {
    hide Ob;
    forall i, l | 0 <= i < |st.constraints| && Fires(st.constraints[i], node, ls, l) ensures Ob(p, st, st.constraints[i], l) {
      var c := st.constraints[i];
      match c
      case Copy(_, _) => assert CopyKey(st.constraints[i]) == Some(node);
      case Unwrap(_, _, _) => assert UnwrapKey(st.constraints[i]) == Some(node);
      case Load(_, _) => assert LoadKey(st.constraints[i]) == Some(node);
      case Store(_, _) => assert StoreDstKey(st.constraints[i]) == Some(node);
      case Gep(_, _, _, _, _) => assert GepKey(st.constraints[i]) == Some(node);
      case Dlsym(_, _, _) => assert DlsymKey(st.constraints[i]) == Some(node);
    }
  }

  lemma AllFiredStays(p: Problem, st: State, st': State, cs: seq<Constraint>, node: Node, ls: seq<Loc>)
    requires Ext(p, st, st', {}) && Joined(p, cs) && AllFired(p, st, cs, node, ls)
    ensures AllFired(p, st', cs, node, ls)
  {
    hide Ext, Ob, Joined;
    forall i, l | 0 <= i < |cs| && Fires(cs[i], node, ls, l) ensures Ob(p, st', cs[i], l) {
      LoadsGiven(p, cs, i);
      ObStays(p, st, st', cs[i], l);
    }
  }

  lemma CloseAgain(p: Problem, st: State, st': State, node: Node, ls: seq<Loc>)
    requires ClosedBut(p, st, node, ls) && Ext(p, st, st', {}) && Joined(p, st.constraints)
    requires AllFired(p, st', st.constraints, node, ls) && StoresDone(p, st', st.constraints, node, ls)
    requires SinceOk(p, st', |st.constraints|)
    requires forall x :: x in ls ==> ObSync(p, st', node, x)
    requires forall l :: l in ls ==> ObCall(p, st', node, l)
    requires WatchedFor(p, st', |st.links.watch|, node, ls) && WatchOk(p, st', |st.links.watch|)
    ensures Closed(p, st')
  {
    hide Ob, ObStore, ObSync, ObCall, Ext, SinceOk, ClosedBut, Closed, Joined, WatchedFor, WatchOk;
    ClosedAgain(p, st, st', node, ls);
  }

  /** Store `c` owes nothing to the targets `ls`. */
  ghost predicate TargetsDone(p: Problem, st: State, c: Constraint, ls: seq<Loc>) {
    && (forall l, x :: l in ls ==> ObStore(p, st, c, l, x))
    && (forall l :: l in ls ==> Ob(p, st, c, l))
  }

  /** Store `c` owes nothing of the values `xs`. */
  ghost predicate ValuesDone(p: Problem, st: State, c: Constraint, xs: seq<Loc>) {
    forall l, x :: x in xs ==> ObStore(p, st, c, l, x)
  }

  lemma StoreDoneStays(p: Problem, st: State, st': State, c: Constraint, q: seq<Loc>)
    requires Ext(p, st, st', {}) && !c.Load?
    ensures TargetsDone(p, st, c, q) ==> TargetsDone(p, st', c, q)
    ensures ValuesDone(p, st, c, q) ==> ValuesDone(p, st', c, q)
  {
    hide Ext, Ob, ObStore;
    forall l, x | ObStore(p, st, c, l, x) ensures ObStore(p, st', c, l, x) {
      ObStoreStays(p, st, st', c, l, x);
    }
    forall l | Ob(p, st, c, l) ensures Ob(p, st', c, l) {
      ObStays(p, st, st', c, l);
    }
  }

  /** A store of all its value held settles its obligation on the targets. */
  lemma StoreDstDone(p: Problem, st1: State, st2: State, c: Constraint, ls: seq<Loc>, xs: seq<Loc>, self: seq<Loc>)
    requires c.Store? && Stored(p, st2, ls, xs, self) && Ext(p, st1, st2, {})
    requires forall x :: x in xs <==> x in P(st1, c.src)
    requires c.src in p.selfLoc ==> p.selfLoc[c.src] in self
    ensures TargetsDone(p, st2, c, ls)
  {
    forall l, x | l in ls ensures ObStore(p, st2, c, l, x) {
      if Settled(st2, c.src, x) {
        assert Settled(st1, c.src, x);
      }
    }
  }

  lemma StoreSrcDone(p: Problem, st1: State, st2: State, c: Constraint, ls: seq<Loc>, order: seq<Loc>, self: seq<Loc>, xs: seq<Loc>)
    requires c.Store? && Stored(p, st2, ls, order, self) && Ext(p, st1, st2, {})
    requires forall l :: l in ls <==> l in P(st1, c.dst)
    requires forall x :: x in order <==> x in xs
    ensures ValuesDone(p, st2, c, xs)
  {
    forall l, x | x in xs ensures ObStore(p, st2, c, l, x) {
      if Settled(st2, c.dst, l) {
        assert Settled(st1, c.dst, l);
      }
    }
  }

  lemma FlowedOb(p: Problem, st: State, c: Constraint, ls: seq<Loc>, l: Loc)
    requires IsFlow(c) && Flowed(st, c, ls) && l in ls
    ensures Ob(p, st, c, l)
  {
  }

  lemma FlowedNone(st: State, c: Constraint)
    ensures Flowed(st, c, [])
  {
  }

  lemma FlowedSnoc(st: State, c: Constraint, ls: seq<Loc>, l: Loc)
    requires Flowed(st, c, ls) && forall y :: y in Passed(c, l) ==> y in P(st, c.dst)
    ensures Flowed(st, c, ls + [l])
  {
  }

  method NewCallees(p: Problem, t: Node, cs: CallSite, ls: seq<Loc>) returns (fs: seq<FnId>)
    requires cs in SitesAt(p, t)
    ensures forall f :: f in fs <==> exists l :: l in ls && Hits(p, t, l, cs, f)
  {
    fs := [];
    for i := 0 to |ls|
      invariant forall f :: f in fs <==> exists l :: l in ls[..i] && Hits(p, t, l, cs, f)
    {
      assert ls[..i + 1] == ls[..i] + [ls[i]];
      var before := fs;
      if IsFn(p, ls[i]) {
        fs := fs + Reached(p, cs, ls[i]);
      }
      forall f ensures f in fs <==> exists l :: l in ls[..i + 1] && Hits(p, t, l, cs, f) {
        assert f in fs <==> f in before || Hits(p, t, ls[i], cs, f);
        assert ls[i] in ls[..i + 1];
      }
    }
    assert ls[..|ls|] == ls;
  }

  lemma SitesDone(p: Problem, st: State, t: Node, ls: seq<Loc>)
    requires forall j :: 0 <= j < |SitesAt(p, t)| ==> SiteDone(p, st, t, SitesAt(p, t)[j], ls)
    ensures forall l :: l in ls ==> ObCall(p, st, t, l)
  {
    forall l, cs, f | l in ls && Hits(p, t, l, cs, f) ensures f in R(st, cs) {
      var j :| 0 <= j < |SitesAt(p, t)| && SitesAt(p, t)[j] == cs;
      assert SiteDone(p, st, t, cs, ls);
    }
  }

  lemma SeededLater(p: Problem, st: State, st': State)
    requires Seeded(p, st) && Ext(p, st, st', {})
    ensures Seeded(p, st')
  {
    hide Seeded, Absorbed;
    assert st.owner.Keys <= st'.owner.Keys;
    SeededStays(p, st, st');
  }

  /** Facts and wiring do not depend on the queue. */
  lemma StillSound(p: Problem, s: Solution, st: State, st': State)
    requires Below(st, s) && WiringOk(p, st)
    requires st' == st.(worklist := st'.worklist, queued := st'.queued)
    ensures Below(st', s) && WiringOk(p, st')
  {
    hide Joins, Modelled, Called;
    forall n ensures P(st', n) == P(st, n) {}
    forall l ensures M(st', l) == M(st, l) {}
    SameWiring(p, st, st');
  }

  lemma EdgesFound(p: Problem, st: State)
    requires WiringOk(p, st)
    ensures forall cs, f :: f in R(st, cs) ==> Called(p, st, cs, f)
  {
  }

  lemma TurnProgress(p: Problem, st: State, st1: State, st': State, node: Node, ls: seq<Loc>)
    requires Taken1(st, st1, node, ls) && Ext(p, st1, st', {}) && Quiet(st1, st') && Wf(p, st') && WiringOk(p, st')
    ensures Progress(p, st, st')
  {
    forall n ensures P(st1, n) == P(st, n) {}
    forall l ensures M(st1, l) == M(st, l) {}
    PopProgress(p, st, st1, st');
  }

  lemma EmptyOk(p: Problem, s: Solution, st: State)
    requires st == State(map[], map[], {}, map[], map[], [], {}, map[], p.constraints, map[], map[], map[], NO_LINKS, map[])
    ensures Wf(p, st) && Below(st, s) && WiringOk(p, st) && CallsWired(p, st) && Unsettled(st) && CellsLifted(p, st)
    ensures SinceOk(p, st, |p.constraints|) && WatchOk(p, st, 0)
  {
  }

  /** Registering a variable's own cell changes no fact; the two have yet to
      exchange contents. */
  lemma Registered(p: Problem, s: Solution, st: State, st': State, cell: Loc)
    requires Valid(p) && Wf(p, st) && Below(st, s)
    requires cell in p.ownCell && cell !in st.owner
    requires st' == st.(synced := st.synced[p.ownCell[cell] := cell], owner := st.owner[cell := p.ownCell[cell]])
    ensures Wf(p, st') && Below(st', s) && Ext(p, st, st', {cell}) && Quiet(st, st')
    ensures forall n :: n in st'.synced && n !in st.synced ==> n == p.ownCell[cell]
  {
    hide Wf, Below, Ext;
    RegisteredWf(p, s, st, st', cell);
    RegisteredExt(p, st, st', cell);
    forall l ensures M(st', l) == M(st, l) {}
  }

  lemma RegisteredWf(p: Problem, s: Solution, st: State, st': State, cell: Loc)
    requires Valid(p) && Wf(p, st) && Below(st, s)
    requires cell in p.ownCell && cell !in st.owner
    requires st' == st.(synced := st.synced[p.ownCell[cell] := cell], owner := st.owner[cell := p.ownCell[cell]])
    ensures Wf(p, st') && Below(st', s)
  {
    forall n ensures P(st', n) == P(st, n) && D(st', n) == D(st, n) {}
    forall l ensures M(st', l) == M(st, l) && H(st', l) == H(st, l) {}
    WatermarksGrow(p, st, st');
    RegisteredSync(p, st, st', cell);
  }

  lemma RegisteredExt(p: Problem, st: State, st': State, cell: Loc)
    requires Valid(p) && Wf(p, st)
    requires cell in p.ownCell && cell !in st.owner
    requires st' == st.(synced := st.synced[p.ownCell[cell] := cell], owner := st.owner[cell := p.ownCell[cell]])
    ensures Ext(p, st, st', {cell})
  {
    hide Valid, SyncOk, LinksGrow, Watermarks, Bounded, DeltaOk, QueueOk, HoldersOk;
    forall n ensures P(st', n) == P(st, n) && D(st', n) == D(st, n) {}
    forall l ensures M(st', l) == M(st, l) {}
    forall cs ensures R(st', cs) == R(st, cs) {}
    LinksSame(st, st', |st.constraints|);
    forall n, l ensures Settled(st', n, l) <==> Settled(st, n, l) {}
    RegisteredSync(p, st, st', cell);
  }

  lemma RegisteredSync(p: Problem, st: State, st': State, cell: Loc)
    requires Valid(p) && SyncOk(p, st) && cell in p.ownCell && cell !in st.owner
    requires st'.synced == st.synced[p.ownCell[cell] := cell] && st'.owner == st.owner[cell := p.ownCell[cell]]
    ensures SyncOk(p, st') && p.ownCell[cell] !in st.synced
  {
    forall c | c in st.owner ensures st.owner[c] != p.ownCell[cell] {
      assert c in p.ownCell && p.ownCell[c] == st.owner[c];
    }
  }

  /** Once the variable's locations are in the cell and the cell's contents in
      the variable, the registered cell is in step. */
  lemma Exchanged(p: Problem, st: State, st1: State, st2: State, st3: State, cell: Loc, n: Node)
    requires Ext(p, st, st1, {cell}) && Ext(p, st1, st2, {cell}) && Ext(p, st2, st3, {})
    requires st1.memory == st.memory && n in st1.synced && st1.synced[n] == cell
    requires cell in st1.owner && st1.owner[cell] == n && st3.owner == st1.owner && st3.synced == st1.synced
    requires forall m :: m in st1.synced && m !in st.synced ==> m == n
    requires M(st2, cell) != M(st1, cell) ==> Touched(p, st2, cell)
    requires forall x :: x in P(st1, n) && Admits(p, cell, x) ==> x in M(st2, cell)
    requires LiftedTo(p, st3, cell, n) && st3.memory == st2.memory
    ensures Ext(p, st, st3, {})
  {
    hide Ext, LiftedTo, Touched;
    ExtTrans(p, st, st1, st2, {cell}, {cell});
    assert {cell} + {cell} == {cell};
    CleanTrans(p, st, st2, st3, {cell});
    if M(st2, cell) != M(st1, cell) {
      TouchedStays(p, st2, st3, {}, cell);
    }
    forall x ensures ObSync(p, st3, n, x) {
      SettledBefore(p, st1, st2, {cell}, n, x);
      SettledBefore(p, st2, st3, {}, n, x);
    }
    Absorb(p, st, st3, {cell}, {});
  }

  lemma ExchangedQuiet(p: Problem, st: State, st1: State, st2: State, st3: State, cell: Loc)
    requires Ext(p, st, st1, {cell}) && Ext(p, st1, st2, {cell}) && Ext(p, st2, st3, {})
    requires Quiet(st, st1) && Quiet(st1, st2) && Quiet(st2, st3)
    ensures Quiet(st, st3)
  {
    hide Ext, Quiet;
    QuietTrans(p, st, st1, st2, {cell}, {cell});
    ExtTrans(p, st, st1, st2, {cell}, {cell});
    QuietTrans(p, st, st2, st3, {cell} + {cell}, {});
  }

  lemma SettledBefore(p: Problem, st: State, st': State, d: set<Loc>, n: Node, x: Loc)
    requires Ext(p, st, st', d)
    ensures Settled(st', n, x) ==> Settled(st, n, x)
  {
  }

  lemma HeldAdmitted(p: Problem, s: Solution, st: State, cell: Loc, n: Node)
    requires SyncHolds(p, s, cell, n) && Wf(p, st) && Below(st, s)
    ensures forall x :: x in P(st, n) ==> x < |p.kinds| && (Admits(p, cell, x) ==> s.Mem(cell, x))
  {
    hide Watermarks, SyncOk, DeltaOk, QueueOk, HoldersOk;
    forall x | x in P(st, n) && Admits(p, cell, x) ensures s.Mem(cell, x) {
      assert s.Pt(n, x);
    }
  }

  lemma CalleesStay(p: Problem, st: State, st': State, cs: CallSite)
    requires Ext(p, st, st', {})
    ensures R(st, cs) <= R(st', cs)
  {
  }

  lemma ConstraintsStay(p: Problem, st: State, st': State)
    requires Ext(p, st, st', {})
    ensures st.constraints <= st'.constraints
  {
  }

  lemma HeldStays(p: Problem, st: State, st': State, n: Node)
    requires Ext(p, st, st', {})
    ensures P(st, n) <= P(st', n)
  {
  }

  lemma QueueStays(p: Problem, st: State, st': State)
    requires Ext(p, st, st', {})
    ensures st.queued <= st'.queued
  {
  }

  lemma GepLifts(p: Problem, s: Solution, c: Constraint, l: Loc)
    requires c.Gep? && GepHolds(p, s, c)
    ensures s.Pt(c.src, l) ==> forall y :: y in Lookup(c.cells, l) ==> Lifts(p, s, y, c.dst)
    ensures c.fallback.Some? ==> s.Pt(c.dst, c.fallback.value) && Lifts(p, s, c.fallback.value, c.dst)
  {
  }

  /** A location without memory takes part in no store. */
  lemma NotStored(p: Problem, st: State, l: Loc)
    requires !IsCell(p, l)
    ensures forall x :: StoreOk(p, st, l, x) && SelfOk(p, st, l, x)
  {
  }

  lemma StoreStart(p: Problem, st: State, src: seq<Loc>, self: seq<Loc>)
    ensures Ext(p, st, st, Elems<Loc>([]))
    ensures ViewsOk(p, src, map[]) && SummariesDone(p, st, {}, src, self)
    ensures Stored(p, st, [], src, self)
  {
    ExtRefl(p, st);
    assert Elems<Loc>([]) == {};
  }

  /** Growth is never undone. */
  lemma ChangedStays(p: Problem, s0: State, s1: State, s2: State, d1: set<Loc>, d2: set<Loc>, r: Loc)
    requires Ext(p, s0, s1, d1) && Ext(p, s1, s2, d2)
    requires M(s0, r) != M(s1, r) || M(s1, r) != M(s2, r)
    ensures M(s0, r) != M(s2, r)
  {
    assert M(s0, r) <= M(s1, r) <= M(s2, r);
  }

  lemma SummaryWritten(p: Problem, st: State, written: set<Loc>, s: Loc, src: seq<Loc>, self: seq<Loc>)
    requires SummariesDone(p, st, written, src, self)
    requires forall x :: x in src && Passes(p, SummaryFilter(p, s), x) ==> x in M(st, s)
    requires forall x :: x in self ==> x in M(st, s)
    ensures SummariesDone(p, st, written + {s}, src, self)
  {
  }

  lemma TargetOk(p: Problem, st1: State, st2: State, d: set<Loc>, l: Loc, src: seq<Loc>, self: seq<Loc>, written: set<Loc>)
    requires Ext(p, st1, st2, d)
    requires forall x :: x in src && Admits(p, l, x) ==> x in M(st1, l)
    requires forall x :: x in self ==> x in M(st1, l)
    requires SummariesDone(p, st2, written, src, self)
    requires l in p.summary ==> p.summary[l] in written || |M(st2, p.summary[l])| >= SUMMARY_MEM_CAP
    ensures forall x :: x in src ==> StoreOk(p, st2, l, x)
    ensures forall x :: x in self ==> SelfOk(p, st2, l, x)
  {
    assert M(st1, l) <= M(st2, l);
  }

  /** Each cached view is the source as its filter sees it. */
  ghost predicate ViewsOk(p: Problem, src: seq<Loc>, views: map<FnFilter, seq<Loc>>) {
    forall f :: f in views ==> views[f] == Filtered(p, f, src)
  }

  /** The part of the source that passes `f`, remembered for later targets. */
  method ViewOf(p: Problem, f: FnFilter, src: seq<Loc>, views: map<FnFilter, seq<Loc>>)
    returns (view: seq<Loc>, views': map<FnFilter, seq<Loc>>)
    requires ViewsOk(p, src, views)
    ensures ViewsOk(p, src, views')
    ensures forall x :: x in view <==> x in src && Passes(p, f, x)
  {
    views' := views;
    if f == Any {
      view := src;
      return;
    }
    FilteredIs(p, f, src);
    if f in views {
      view := views[f];
    } else {
      view := FilterLocs(p, f, src);
      views' := views[f := view];
    }
  }

  /** Each summary in `written` holds all of this store's source it admits. */
  ghost predicate SummariesDone(p: Problem, st: State, written: set<Loc>, src: seq<Loc>, self: seq<Loc>) {
    forall s, x :: s in written && ((x in src && Passes(p, SummaryFilter(p, s), x)) || x in self) ==> x in M(st, s)
  }

  lemma SummariesStay(p: Problem, st: State, st': State, d: set<Loc>, written: set<Loc>, src: seq<Loc>, self: seq<Loc>)
    requires SummariesDone(p, st, written, src, self) && Ext(p, st, st', d)
    ensures SummariesDone(p, st', written, src, self)
  {
    forall s, x | s in written && ((x in src && Passes(p, SummaryFilter(p, s), x)) || x in self) ensures x in M(st', s) {
      assert x in M(st, s);
      assert M(st, s) <= M(st', s);
    }
  }

  method FilterLocs(p: Problem, f: FnFilter, src: seq<Loc>) returns (view: seq<Loc>)
    ensures view == Filtered(p, f, src)
  {
    view := [];
    for i := 0 to |src|
      invariant view == Filtered(p, f, src[..i])
    {
      assert src[..i + 1][..i] == src[..i];
      if Passes(p, f, src[i]) {
        view := view + [src[i]];
      }
    }
    assert src[..|src|] == src;
  }

  // ----- field accesses

  lemma LiftedStays(p: Problem, st: State, st': State, cell: Loc, n: Node)
    requires Ext(p, st, st', {}) && st'.memory == st.memory && LiftedTo(p, st, cell, n)
    ensures LiftedTo(p, st', cell, n)
  {
    assert M(st', cell) == M(st, cell) && P(st, n) <= P(st', n);
  }

  /** A field access has taken over what the cells selected by `ls` contain. */
  ghost predicate CellsReach(p: Problem, st: State, c: Constraint, ls: seq<Loc>)
    requires c.Gep?
  {
    forall l, y {:trigger l in ls, y in Lookup(c.cells, l)} :: l in ls && y in Lookup(c.cells, l) ==> LiftedTo(p, st, y, c.dst)
  }

  lemma CellsReachStays(p: Problem, st: State, st': State, c: Constraint, ls: seq<Loc>)
    requires c.Gep? && Ext(p, st, st', {}) && st'.memory == st.memory && CellsReach(p, st, c, ls)
    ensures CellsReach(p, st', c, ls)
  {
    hide Ext, LiftedTo;
    forall l, y {:trigger l in ls, y in Lookup(c.cells, l)} | l in ls && y in Lookup(c.cells, l) ensures LiftedTo(p, st', y, c.dst) {
      LiftedStays(p, st, st', y, c.dst);
    }
  }

  lemma CellsReachSnoc(p: Problem, st: State, c: Constraint, ls: seq<Loc>, l: Loc)
    requires c.Gep? && CellsReach(p, st, c, ls) && forall y :: y in Lookup(c.cells, l) ==> LiftedTo(p, st, y, c.dst)
    ensures CellsReach(p, st, c, ls + [l])
  {
    hide LiftedTo;
  }

  /** A field access has fallen back to the summary of its declared type. */
  ghost predicate FellBack(p: Problem, st: State, c: Constraint)
    requires c.Gep?
  {
    c.fallback.Some? ==> c.fallback.value in P(st, c.dst) && LiftedTo(p, st, c.fallback.value, c.dst)
  }

  lemma FellBackStays(p: Problem, st: State, st': State, c: Constraint)
    requires c.Gep? && Ext(p, st, st', {}) && st'.memory == st.memory && FellBack(p, st, c)
    ensures FellBack(p, st', c)
  {
    hide LiftedTo;
    if c.fallback.Some? {
      LiftedStays(p, st, st', c.fallback.value, c.dst);
      assert P(st, c.dst) <= P(st', c.dst);
    }
  }

  /** `n` holds all that `cell` contained in `st0` and admits. */
  ghost predicate TookOver(p: Problem, st0: State, st: State, cell: Loc, n: Node) {
    forall x :: x in M(st0, cell) && Admits(p, cell, x) ==> x in P(st, n)
  }

  ghost predicate NoneYields(c: Constraint, ls: seq<Loc>)
    requires c.Gep?
  {
    forall k :: 0 <= k < |ls| ==> Lookup(c.cells, ls[k]) == []
  }

  /** Field access `c` has been applied to `ls` since `st0`: it has taken over
      what the cells they yield contained then; where they yield none, it has
      fallen back. */
  ghost predicate FieldDone(p: Problem, st0: State, st: State, c: Constraint, ls: seq<Loc>)
    requires c.Gep?
  {
    && (forall l, y {:trigger l in ls, y in Lookup(c.cells, l)} :: l in ls && y in Lookup(c.cells, l) ==> TookOver(p, st0, st, y, c.dst))
    && (NoneYields(c, ls) && c.fallback.Some? ==>
          c.fallback.value in P(st, c.dst) && TookOver(p, st0, st, c.fallback.value, c.dst))
  }

  lemma LiftedTook(p: Problem, st0: State, st: State, cell: Loc, n: Node)
    requires Ext(p, st0, st, {}) && LiftedTo(p, st, cell, n)
    ensures TookOver(p, st0, st, cell, n)
  {
    assert M(st0, cell) <= M(st, cell);
    assert forall x :: x in M(st0, cell) ==> x in M(st, cell);
  }

  lemma TookLater(p: Problem, s0: State, s1: State, st: State, st': State, cell: Loc, n: Node)
    requires Ext(p, s0, s1, {}) && Ext(p, st, st', {}) && TookOver(p, s1, st, cell, n)
    ensures TookOver(p, s0, st', cell, n)
  {
    assert M(s0, cell) <= M(s1, cell) && P(st, n) <= P(st', n);
    assert forall x :: x in M(s0, cell) ==> x in M(s1, cell);
  }

  /** Applied since a later state and seen from a later one still. */
  lemma FieldDoneLater(p: Problem, s0: State, s1: State, st: State, st': State, c: Constraint, ls: seq<Loc>)
    requires c.Gep? && Ext(p, s0, s1, {}) && Ext(p, st, st', {}) && FieldDone(p, s1, st, c, ls)
    ensures FieldDone(p, s0, st', c, ls)
  {
    hide Ext, TookOver;
    forall l, y {:trigger l in ls, y in Lookup(c.cells, l)} | l in ls && y in Lookup(c.cells, l) ensures TookOver(p, s0, st', y, c.dst) {
      TookLater(p, s0, s1, st, st', y, c.dst);
    }
    HeldStays(p, st, st', c.dst);
    if NoneYields(c, ls) && c.fallback.Some? {
      TookLater(p, s0, s1, st, st', c.fallback.value, c.dst);
    }
  }

  lemma FieldApplied(p: Problem, st0: State, st: State, c: Constraint, ls: seq<Loc>)
    requires c.Gep? && Ext(p, st0, st, {}) && CellsReach(p, st, c, ls) && (NoneYields(c, ls) ==> FellBack(p, st, c))
    ensures FieldDone(p, st0, st, c, ls)
  {
    hide Ext, TookOver, LiftedTo;
    forall l, y {:trigger l in ls, y in Lookup(c.cells, l)} | l in ls && y in Lookup(c.cells, l) ensures TookOver(p, st0, st, y, c.dst) {
      LiftedTook(p, st0, st, y, c.dst);
    }
    if NoneYields(c, ls) && c.fallback.Some? {
      LiftedTook(p, st0, st, c.fallback.value, c.dst);
    }
  }

  /** A flow constraint has passed on `ls`, a field access with all it does. */
  ghost predicate FlowDone(p: Problem, st0: State, st: State, c: Constraint, ls: seq<Loc>) {
    Flowed(st, c, ls) && (c.Gep? ==> FieldDone(p, st0, st, c, ls))
  }

  lemma FlowDoneLater(p: Problem, s0: State, s1: State, st: State, st': State, c: Constraint, ls: seq<Loc>)
    requires Ext(p, s0, s1, {}) && Ext(p, st, st', {}) && FlowDone(p, s1, st, c, ls)
    ensures FlowDone(p, s0, st', c, ls)
  {
    hide Ext, Flowed, FieldDone;
    FlowedStays(p, st, st', c, ls);
    if c.Gep? {
      FieldDoneLater(p, s0, s1, st, st', c, ls);
    }
  }

  /** Every field access of `cs` through `node` has been applied to `ls`. */
  ghost predicate FieldsDone(p: Problem, st0: State, st: State, cs: seq<Constraint>, node: Node, ls: seq<Loc>) {
    forall i :: 0 <= i < |cs| && cs[i].Gep? && cs[i].src == node ==> FieldDone(p, st0, st, cs[i], ls)
  }

  lemma FieldsDoneLater(p: Problem, s0: State, s1: State, st: State, st': State, cs: seq<Constraint>, node: Node, ls: seq<Loc>)
    requires Ext(p, s0, s1, {}) && Ext(p, st, st', {}) && FieldsDone(p, s1, st, cs, node, ls)
    ensures FieldsDone(p, s0, st', cs, node, ls)
  {
    hide Ext, FieldDone;
    forall i | 0 <= i < |cs| && cs[i].Gep? && cs[i].src == node ensures FieldDone(p, s0, st', cs[i], ls) {
      FieldDoneLater(p, s0, s1, st, st', cs[i], ls);
    }
  }

  // ----- what a flow constraint adds at most

  /** Between `st0` and `st` only `dst` gained, and nothing outside `ok`. */
  ghost predicate OnlyGains(st0: State, st: State, dst: Node, ok: iset<Loc>) {
    && (forall n :: n != dst ==> P(st, n) <= P(st0, n))
    && (forall x :: x in P(st, dst) ==> x in P(st0, dst) || x in ok)
  }

  ghost function Given(ls: seq<Loc>): iset<Loc> {
    iset x | x in ls
  }

  ghost function ContentsOf(p: Problem, memory: map<Loc, seq<Loc>>, cell: Loc): iset<Loc> {
    iset x | x in Lookup(memory, cell) && Admits(p, cell, x)
  }

  /** Cells to point at, and what they contain. */
  ghost function CellsYield(p: Problem, memory: map<Loc, seq<Loc>>, cells: seq<Loc>): iset<Loc> {
    iset x | x in cells || InSome(p, memory, cells, x)
  }

  ghost predicate InSome(p: Problem, memory: map<Loc, seq<Loc>>, cells: seq<Loc>, x: Loc) {
    exists k :: 0 <= k < |cells| && x in ContentsOf(p, memory, cells[k])
  }

  /** What one base location yields for a field access. */
  ghost function LocYield(p: Problem, memory: map<Loc, seq<Loc>>, c: Constraint, l: Loc): iset<Loc>
    requires c.Gep?
  {
    CellsYield(p, memory, Lookup(c.cells, l)) + Given(Lookup(c.fns, l))
  }

  ghost function LocsYield(p: Problem, memory: map<Loc, seq<Loc>>, c: Constraint, ls: seq<Loc>): iset<Loc>
    requires c.Gep?
  {
    iset x | SomeYields(p, memory, c, ls, x)
  }

  ghost predicate SomeYields(p: Problem, memory: map<Loc, seq<Loc>>, c: Constraint, ls: seq<Loc>, x: Loc)
    requires c.Gep?
  {
    exists k :: 0 <= k < |ls| && x in LocYield(p, memory, c, ls[k])
  }

  /** With the fallback only where no cell is yielded. */
  ghost function FieldYield(p: Problem, memory: map<Loc, seq<Loc>>, c: Constraint, ls: seq<Loc>): iset<Loc>
    requires c.Gep?
  {
    LocsYield(p, memory, c, ls) +
    if NoneYields(c, ls) && c.fallback.Some? then CellsYield(p, memory, [c.fallback.value]) else iset{}
  }

  ghost function StepYield(p: Problem, memory: map<Loc, seq<Loc>>, c: Constraint, ls: seq<Loc>): iset<Loc> {
    match c
    case Copy(_, _) => Given(ls)
    case Unwrap(_, _, admitted) => iset x | x in ls && x in admitted
    case Gep(_, _, _, _, _) => FieldYield(p, memory, c, ls)
    case Dlsym(_, _, named) => iset x | SomeNames(named, ls, x)
    case _ => iset{}
  }

  ghost predicate SomeNames(named: map<Loc, seq<Loc>>, ls: seq<Loc>, x: Loc) {
    exists k :: 0 <= k < |ls| && x in Lookup(named, ls[k])
  }

  lemma OnlySame(st0: State, st: State, dst: Node, ok: iset<Loc>)
    requires st.pts == st0.pts
    ensures OnlyGains(st0, st, dst, ok)
  {
    forall n ensures P(st, n) == P(st0, n) {}
  }

  lemma OnlyTrans(s0: State, s1: State, s2: State, dst: Node, a: iset<Loc>, b: iset<Loc>, ok: iset<Loc>)
    requires OnlyGains(s0, s1, dst, a) && OnlyGains(s1, s2, dst, b) && a <= ok && b <= ok
    ensures OnlyGains(s0, s2, dst, ok)
  {
    forall n | n != dst ensures P(s2, n) <= P(s0, n) {
      assert P(s2, n) <= P(s1, n) && P(s1, n) <= P(s0, n);
    }
  }

  lemma OnlyMore(s0: State, s1: State, dst: Node, a: iset<Loc>, ok: iset<Loc>)
    requires OnlyGains(s0, s1, dst, a) && a <= ok
    ensures OnlyGains(s0, s1, dst, ok)
  {
  }

  /** Adding `locs` to the set of `dst` adds no more. */
  lemma OnlyAdded(st0: State, st: State, dst: Node, locs: seq<Loc>)
    requires st.pts == st0.pts[dst := P(st0, dst) + (set x | x in locs)]
    ensures OnlyGains(st0, st, dst, Given(locs))
  {
    forall n | n != dst ensures P(st, n) == P(st0, n) {}
  }

  lemma OnlyOne(st0: State, st: State, dst: Node, l: Loc)
    requires st.pts == st0.pts[dst := P(st0, dst) + {l}]
    ensures OnlyGains(st0, st, dst, iset{l})
  {
    forall n | n != dst ensures P(st, n) == P(st0, n) {}
  }

  lemma OnlyMerged(p: Problem, st: State, m: Merge, dst: Node, cell: Loc)
    requires m.pts == st.pts
    ensures OnlyGains(st, st.(pts := MergeCell(p, st.memory, m, dst, cell).pts), dst, ContentsOf(p, st.memory, cell))
  {
    var mem, seen := M(st, cell), SizeAt(m.sizes, dst, cell);
    var st' := st.(pts := MergeCell(p, st.memory, m, dst, cell).pts);
    if seen < |mem| {
      GainOfIs(p, cell, mem[seen..], P(st, dst));
      forall n | n != dst ensures P(st', n) == P(st, n) {}
    } else {
      OnlySame(st, st', dst, ContentsOf(p, st.memory, cell));
    }
  }

  /** Merging one cell and committing the gain. */
  lemma MergedOk(p: Problem, st: State, s: Solution, dst: Node, cell: Loc)
    requires Wf(p, st) && Below(st, s) && Lifts(p, s, cell, dst) && dst < p.nodes
    ensures var st' := Apply(st, MergeCell(p, st.memory, Merge(st.pts, st.sizes, []), dst, cell), dst);
      && Wf(p, st') && Below(st', s) && Ext(p, st, st', {}) && Quiet(st, st')
      && LiftedTo(p, st', cell, dst) && OnlyGains(st, st', dst, ContentsOf(p, st.memory, cell))
  {
    hide Wf, Below, Ext, Quiet, Bounded, Watermarks, MergeOk, MergeCell, Committed, Lifts, LiftedTo, OnlyGains, ContentsOf;
    var m0 := Merge(st.pts, st.sizes, []);
    var m := MergeCell(p, st.memory, m0, dst, cell);
    WfParts(p, st);
    MergeStartOk(p, st, s, dst);
    MergeCellOk(p, st, s, m0, dst, cell);
    OnlyMerged(p, st, m0, dst, cell);
    ApplyOk(p, st, s, m, dst);
    var st' := Apply(st, m, dst);
    AppliedSets(st, m, dst);
    LoadFrame(p, st.(pts := m.pts), st', dst, cell);
    OnlyFrame(st, st.(pts := m.pts), st', dst, ContentsOf(p, st.memory, cell));
  }

  lemma WfParts(p: Problem, st: State)
    requires Wf(p, st)
    ensures Bounded(p, st) && Watermarks(p, st)
  {
    hide Bounded, Watermarks, DeltaOk, QueueOk, HoldersOk, SyncOk;
  }

  lemma AppliedSets(st: State, m: Merge, dst: Node)
    ensures var st' := Apply(st, m, dst); st'.pts == m.pts && st'.memory == st.memory
  {
    hide Committed;
    CommittedKeeps(st.(pts := m.pts, sizes := m.sizes), dst, m.gain);
  }

  lemma ContentsYield(p: Problem, memory: map<Loc, seq<Loc>>, cells: seq<Loc>, k: nat)
    requires k < |cells|
    ensures ContentsOf(p, memory, cells[k]) <= CellsYield(p, memory, cells)
  {
    hide ContentsOf;
    forall x | x in ContentsOf(p, memory, cells[k]) ensures x in CellsYield(p, memory, cells) {
      assert InSome(p, memory, cells, x);
    }
  }

  lemma CellsListed(p: Problem, memory: map<Loc, seq<Loc>>, cells: seq<Loc>)
    ensures Given(cells) <= CellsYield(p, memory, cells)
  {
    hide InSome;
  }

  lemma OnlyFrame(st0: State, st1: State, st: State, dst: Node, ok: iset<Loc>)
    requires OnlyGains(st0, st1, dst, ok) && st.pts == st1.pts
    ensures OnlyGains(st0, st, dst, ok)
  {
    forall n ensures P(st, n) == P(st1, n) {}
  }

  lemma NamesYield(p: Problem, memory: map<Loc, seq<Loc>>, c: Constraint, ls: seq<Loc>, k: nat)
    requires c.Dlsym? && k < |ls|
    ensures Given(Lookup(c.named, ls[k])) <= StepYield(p, memory, c, ls)
  {
    forall x | x in Lookup(c.named, ls[k]) ensures SomeNames(c.named, ls, x) {}
  }

  lemma LocsYieldSnoc(p: Problem, memory: map<Loc, seq<Loc>>, c: Constraint, ls: seq<Loc>, k: nat)
    requires c.Gep? && k < |ls|
    ensures LocsYield(p, memory, c, ls[..k]) <= LocsYield(p, memory, c, ls[..k + 1])
    ensures LocYield(p, memory, c, ls[k]) <= LocsYield(p, memory, c, ls[..k + 1])
  {
    hide LocYield;
    var more := ls[..k + 1];
    forall j | 0 <= j <= k ensures more[j] == ls[j] {}
    forall x | x in LocsYield(p, memory, c, ls[..k]) ensures x in LocsYield(p, memory, c, more) {
      var j :| 0 <= j < k && x in LocYield(p, memory, c, ls[..k][j]);
      assert more[j] == ls[..k][j];
    }
    forall x | x in LocYield(p, memory, c, ls[k]) ensures x in LocsYield(p, memory, c, more) {
      assert x in LocYield(p, memory, c, more[k]);
    }
  }

  // ----- what a wire does at once

  /** A formal takes what its actual held, for good or not, and a node to be
      requeued is on the worklist. */
  ghost predicate WireFired(st0: State, st: State, w: Wire) {
    (w.Param? ==> P(st0, w.actual) <= P(st, w.formal)) && (w.Requeues? ==> w.node in st.queued)
  }

  ghost predicate AllFiredAtOnce(st0: State, st: State, ws: seq<Wire>) {
    forall k :: 0 <= k < |ws| ==> WireFired(st0, st, ws[k])
  }

  lemma WireFiredLater(p: Problem, s0: State, s1: State, st: State, st': State, w: Wire)
    requires Ext(p, s0, s1, {}) && Ext(p, st, st', {}) && WireFired(s1, st, w)
    ensures WireFired(s0, st', w)
  {
    if w.Param? {
      assert P(s0, w.actual) <= P(s1, w.actual) && P(st, w.formal) <= P(st', w.formal);
    }
  }

  lemma FiredLater(p: Problem, s0: State, s1: State, st: State, st': State, ws: seq<Wire>)
    requires Ext(p, s0, s1, {}) && Ext(p, st, st', {}) && AllFiredAtOnce(s1, st, ws)
    ensures AllFiredAtOnce(s0, st', ws)
  {
    hide Ext, WireFired;
    forall k | 0 <= k < |ws| ensures WireFired(s0, st', ws[k]) {
      WireFiredLater(p, s0, s1, st, st', ws[k]);
    }
  }

  /** One more wire. */
  lemma FiredSnoc(p: Problem, s0: State, s1: State, st: State, ws: seq<Wire>, k: nat)
    requires k < |ws| && Ext(p, s0, s1, {}) && Ext(p, s1, st, {})
    requires AllFiredAtOnce(s0, s1, ws[..k]) && WireFired(s1, st, ws[k])
    ensures AllFiredAtOnce(s0, st, ws[..k + 1])
  {
    hide Ext, WireFired;
    ExtRefl(p, s0);
    ExtRefl(p, st);
    FiredLater(p, s0, s0, s1, st, ws[..k]);
    WireFiredLater(p, s0, s1, st, st, ws[k]);
    var more := ws[..k + 1];
    forall j | 0 <= j < |more| ensures WireFired(s0, st, more[j]) {
      assert j < k ==> ws[..k][j] == more[j];
    }
  }

  // ----- field accesses through a base that yields no cell

  /** Field access `c` points at its fallback, or its base at something that
      yields a cell. */
  ghost predicate Fallen(st: State, c: Constraint)
    requires c.Gep? && c.fallback.Some?
  {
    c.fallback.value in P(st, c.dst) || exists l :: l in P(st, c.src) && Lookup(c.cells, l) != []
  }

  /** `n` is on the worklist with all it holds still pending, or untouched. */
  ghost predicate Waiting(st: State, seen: set<Node>, n: Node) {
    n in st.queued && (forall l :: !Settled(st, n, l)) && (P(st, n) == {} ==> n !in seen)
  }

  ghost predicate FallsOk(p: Problem, st: State, seen: set<Node>) {
    forall i :: 0 <= i < |p.constraints| && p.constraints[i].Gep? && p.constraints[i].fallback.Some? ==>
      Fallen(st, p.constraints[i]) || Waiting(st, seen, p.constraints[i].src)
  }

  lemma FallenStays(p: Problem, st: State, st': State, c: Constraint)
    requires c.Gep? && c.fallback.Some? && Fallen(st, c) && forall n :: P(st, n) <= P(st', n)
    ensures Fallen(st', c)
  {
    assert P(st, c.dst) <= P(st', c.dst) && P(st, c.src) <= P(st', c.src);
  }

  lemma WaitingStays(p: Problem, st: State, st': State, seen: set<Node>, n: Node)
    requires Waiting(st, seen, n) && Ext(p, st, st', {})
    ensures Waiting(st', seen, n)
  {
    assert P(st, n) <= P(st', n);
    forall l ensures !Settled(st', n, l) {
      assert Settled(st', n, l) ==> Settled(st, n, l);
    }
  }

  /** Popping another node leaves it waiting. */
  lemma WaitingTaken(st: State, st': State, node: Node, ls: seq<Loc>, seen: set<Node>, n: Node)
    requires Taken1(st, st', node, ls) && Waiting(st, seen, n) && n != node
    ensures Waiting(st', seen, n)
  {
    assert P(st', n) == P(st, n) && D(st', n) == D(st, n);
    forall l ensures !Settled(st', n, l) {
      assert !Settled(st, n, l);
    }
  }

  lemma FieldFallen(p: Problem, st0: State, st: State, c: Constraint, ls: seq<Loc>)
    requires c.Gep? && c.fallback.Some? && FieldDone(p, st0, st, c, ls) && forall l :: l in ls ==> l in P(st, c.src)
    ensures Fallen(st, c)
  {
    hide TookOver;
    if !NoneYields(c, ls) {
      var k :| 0 <= k < |ls| && Lookup(c.cells, ls[k]) != [];
      assert ls[k] in P(st, c.src);
    }
  }

  /** A node that waits without anything pending has not been touched. */
  lemma WaitingUntouched(st: State, seen: set<Node>, n: Node)
    requires Waiting(st, seen, n) && D(st, n) == []
    ensures n !in seen
  {
    forall l ensures l !in P(st, n) {
      assert !Settled(st, n, l);
    }
    assert P(st, n) == {};
  }

  /** One pop: the node popped falls back or has a cell, the others keep waiting. */
  lemma FallsKept(p: Problem, st: State, st1: State, st': State, node: Node, ls: seq<Loc>, seen: set<Node>, seen': set<Node>)
    requires Taken1(st, st1, node, ls) && Ext(p, st1, st', {}) && FallsOk(p, st, seen)
    requires seen' == seen + (if ls == [] then {node} else {}) && (forall l :: l in ls ==> l in P(st1, node))
    requires ls != [] || node !in seen ==> FieldsDone(p, st1, st', p.constraints, node, ls)
    ensures FallsOk(p, st', seen')
  {
    hide Ext, FieldDone, Waiting, Fallen, Taken1;
    forall n ensures P(st1, n) == P(st, n) && P(st, n) <= P(st', n) {
      TakenHeld(st, st1, node, ls, n);
      HeldStays(p, st1, st', n);
    }
    forall i | 0 <= i < |p.constraints| && p.constraints[i].Gep? && p.constraints[i].fallback.Some?
      ensures Fallen(st', p.constraints[i]) || Waiting(st', seen', p.constraints[i].src)
    {
      var c := p.constraints[i];
      if Fallen(st, c) {
        FallenStays(p, st, st', c);
      } else if c.src == node {
        if ls == [] {
          TakenHeld(st, st1, node, ls, node);
          WaitingUntouched(st, seen, node);
        }
        FieldFallen(p, st1, st', c, ls);
      } else {
        WaitingTaken(st, st1, node, ls, seen, c.src);
        WaitingStays(p, st1, st', seen, c.src);
        WaitingSeen(st', seen, seen', node, c.src);
      }
    }
  }

  /** What was applied since the pop was applied since before it. */
  lemma FieldsTaken(p: Problem, st: State, st1: State, st': State, node: Node, ls: seq<Loc>)
    requires Taken1(st, st1, node, ls) && FieldsDone(p, st1, st', st1.constraints, node, ls)
    ensures FieldsDone(p, st, st', st.constraints, node, ls)
  {
    forall c: Constraint | c.Gep? && FieldDone(p, st1, st', c, ls) ensures FieldDone(p, st, st', c, ls) {
      forall cell, n | TookOver(p, st1, st', cell, n) ensures TookOver(p, st, st', cell, n) {
        assert M(st, cell) == M(st1, cell);
      }
    }
  }

  /** The accesses the program states among all. */
  lemma GivenFields(p: Problem, st: State, st': State, cs: seq<Constraint>, node: Node, ls: seq<Loc>)
    requires FieldsDone(p, st, st', cs, node, ls) && p.constraints <= cs
    ensures FieldsDone(p, st, st', p.constraints, node, ls)
  {
    hide FieldDone;
    forall i | 0 <= i < |p.constraints| ensures p.constraints[i] == cs[i] {}
  }

  lemma TakenHeld(st: State, st1: State, node: Node, ls: seq<Loc>, n: Node)
    requires Taken1(st, st1, node, ls)
    ensures P(st1, n) == P(st, n) && ls == D(st, node)
  {
  }

  lemma WaitingSeen(st: State, seen: set<Node>, seen': set<Node>, node: Node, n: Node)
    requires Waiting(st, seen, n) && seen' <= seen + {node} && n != node
    ensures Waiting(st, seen', n)
  {
  }

  /** Before the first pop every base waits. */
  lemma FallsSeeded(p: Problem, st: State, seen: set<Node>)
    requires Unsettled(st) && (forall n :: n in seen ==> P(st, n) != {})
    requires forall i :: 0 <= i < |p.constraints| ==> p.constraints[i].src in st.queued
    ensures FallsOk(p, st, seen)
  {
  }

  /** With nothing queued nothing waits. */
  lemma FallsDrained(p: Problem, st: State, seen: set<Node>)
    requires FallsOk(p, st, seen) && Wf(p, st) && st.worklist == []
    ensures forall i :: 0 <= i < |p.constraints| && p.constraints[i].Gep? && p.constraints[i].fallback.Some? ==>
      Fallen(st, p.constraints[i])
  {
    hide Fallen, Watermarks, HoldersOk, SyncOk, Bounded, DeltaOk;
  }

  lemma NoFallback(p: Problem, st: State, c: Constraint)
    requires c.Gep? && c.fallback.None?
    ensures FellBack(p, st, c)
  {
  }

  lemma NoCells(p: Problem, st: State, c: Constraint)
    requires c.Gep?
    ensures CellsReach(p, st, c, [])
  {
  }

  lemma AddedAddress(p: Problem, s: Solution, dst: Node, src: Node, loc: Loc)
    requires AddedOk(p, s, AddrOf(dst, src, loc))
    ensures dst < p.nodes && src < p.nodes && loc < |p.kinds| && s.Pt(dst, loc)
  {
    hide Due;
  }

  lemma AddedEnds(p: Problem, s: Solution, c: Constraint)
    requires SoundAdd(p, s, c)
    ensures c.dst < p.nodes && c.src < p.nodes && (c.Copy? ==> FlowHolds(s, c))
  {
  }

  lemma CopyAdmitted(p: Problem, s: Solution, a: Node, b: Node)
    requires a < p.nodes && b < p.nodes && FlowHolds(s, Copy(b, a)) && Active(p, s, Registers(a)) && Active(p, s, Waits(b))
    ensures AddedOk(p, s, Copy(b, a))
  {
  }

  /** Records change no obligation; new watchers must have been served. */
  lemma SameWatch(p: Problem, st: State, st': State, n: nat)
    requires st' == st.(links := st'.links) && MoreLinks(st.links, st'.links) && WatchOk(p, st, n)
    requires forall j, l :: |st.links.watch| <= j < |st'.links.watch| ==> ObWatch(p, st, st'.links.watch[j].0, st'.links.watch[j].1, l)
    ensures WatchOk(p, st', n)
  {
    hide WireOk;
    forall m ensures P(st', m) == P(st, m) && D(st', m) == D(st, m) {}
    forall w | WireOk(p, st, w) ensures WireOk(p, st', w) { WireStays(p, st, st', w); }
    forall j, l | n <= j < |st'.links.watch| ensures ObWatch(p, st', st'.links.watch[j].0, st'.links.watch[j].1, l) {
      assert ObWatch(p, st, st'.links.watch[j].0, st'.links.watch[j].1, l);
    }
  }

  /** Obligations depend on facts and pending differences only. */
  lemma SameOb(p: Problem, st: State, st': State, c: Constraint, l: Loc, x: Loc)
    requires st'.pts == st.pts && st'.delta == st.delta && st'.memory == st.memory
    ensures Ob(p, st, c, l) ==> Ob(p, st', c, l)
    ensures ObStore(p, st, c, l, x) ==> ObStore(p, st', c, l, x)
  {
    forall n, k ensures Settled(st', n, k) <==> Settled(st, n, k) {}
  }

  // ----- what the models of resolved calls have done

  /** The pair of nodes an effect is recorded under, if it is recorded. */
  function PairOf(w: Wire): Option<(Node, Node)> {
    match w
    case Aliased(d, r) => Some((r, d))
    case Content(q, v) => Some((v, q))
    case _ => None
  }

  function EffectOf(w: Wire): seq<Wire> {
    if PairOf(w).Some? then [w] else []
  }

  /** The recorded effects among some wires, in order. */
  function EffectsOf(ws: seq<Wire>): seq<Wire> {
    if ws == [] then [] else EffectsOf(ws[..|ws| - 1]) + EffectOf(ws[|ws| - 1])
  }

  /** The effects of some calls, in order. */
  function CallEffects(p: Problem, calls: seq<(CallSite, FnId)>): seq<Wire> {
    if calls == [] then []
    else CallEffects(p, calls[..|calls| - 1]) + EffectsOf(Wires(p, calls[|calls| - 1].0, calls[|calls| - 1].1))
  }

  /** The first effect on value `v` and pointer `q`. */
  function FirstEffect(effects: seq<Wire>, v: Node, q: Node): Option<Wire> {
    if effects == [] then None
    else
      var first := FirstEffect(effects[..|effects| - 1], v, q);
      if first.Some? then first
      else if PairOf(effects[|effects| - 1]) == Some((v, q)) then Some(effects[|effects| - 1])
      else None
  }

  lemma EffectsSnoc(ws: seq<Wire>, k: nat)
    requires k < |ws|
    ensures EffectsOf(ws[..k + 1]) == EffectsOf(ws[..k]) + EffectOf(ws[k])
  {
    assert ws[..k + 1][..k] == ws[..k];
  }

  lemma CallEffectsSnoc(p: Problem, calls: seq<(CallSite, FnId)>, cs: CallSite, f: FnId)
    ensures CallEffects(p, calls + [(cs, f)]) == CallEffects(p, calls) + EffectsOf(Wires(p, cs, f))
  {
    assert (calls + [(cs, f)])[..|calls|] == calls;
  }

  lemma FirstSnoc(effects: seq<Wire>, w: Wire, v: Node, q: Node)
    ensures FirstEffect(effects + [w], v, q) ==
      if FirstEffect(effects, v, q).Some? then FirstEffect(effects, v, q)
      else if PairOf(w) == Some((v, q)) then Some(w) else None
  {
    assert (effects + [w])[..|effects|] == effects;
  }

  ghost predicate HasFrom(cs: seq<Constraint>, n: nat, c: Constraint) {
    exists i :: n <= i < |cs| && cs[i] == c
  }

  /** A pair is on record once some effect was applied to it, and its first
      effect decides what joined: a store exactly if that was a content store,
      a copy if it was an alias. */
  ghost predicate EffectsOk(p: Problem, cs: seq<Constraint>, model: set<(Node, Node)>, effects: seq<Wire>) {
    && (forall v: Node, q: Node :: (v, q) in model <==> FirstEffect(effects, v, q).Some?)
    && (forall v: Node, q: Node :: HasFrom(cs, |p.constraints|, Store(q, v)) <==> FirstEffect(effects, v, q) == Some(Content(q, v)))
    && (forall v: Node, q: Node :: FirstEffect(effects, v, q) == Some(Aliased(q, v)) ==> HasFrom(cs, |p.constraints|, Copy(q, v)))
  }

  lemma HasFromSnoc(cs: seq<Constraint>, n: nat, c: Constraint, d: Constraint)
    requires n <= |cs|
    ensures HasFrom(cs + [d], n, c) <==> HasFrom(cs, n, c) || c == d
  {
    var more := cs + [d];
    if HasFrom(cs, n, c) {
      var i :| n <= i < |cs| && cs[i] == c;
      assert more[i] == c;
    }
    assert more[|cs|] == d;
  }

  /** A constraint other than a store leaves the record right. */
  lemma EffectsKept(p: Problem, cs: seq<Constraint>, model: set<(Node, Node)>, effects: seq<Wire>, c: Constraint)
    requires EffectsOk(p, cs, model, effects) && |p.constraints| <= |cs| && !c.Store?
    ensures EffectsOk(p, cs + [c], model, effects)
  {
    hide HasFrom, FirstEffect;
    forall v: Node, q: Node
      ensures HasFrom(cs + [c], |p.constraints|, Store(q, v)) <==> HasFrom(cs, |p.constraints|, Store(q, v))
      ensures HasFrom(cs, |p.constraints|, Copy(q, v)) ==> HasFrom(cs + [c], |p.constraints|, Copy(q, v))
    {
      HasFromSnoc(cs, |p.constraints|, Store(q, v), c);
      HasFromSnoc(cs, |p.constraints|, Copy(q, v), c);
    }
  }

  /** An effect on a pair that is on record changes nothing. */
  lemma EffectAgain(p: Problem, cs: seq<Constraint>, model: set<(Node, Node)>, effects: seq<Wire>, w: Wire)
    requires EffectsOk(p, cs, model, effects) && PairOf(w).Some? && PairOf(w).value in model
    ensures EffectsOk(p, cs, model, effects + [w])
  {
    hide HasFrom, FirstEffect;
    var pair := PairOf(w).value;
    assert pair == (pair.0, pair.1);
    forall v: Node, q: Node ensures FirstEffect(effects + [w], v, q) == FirstEffect(effects, v, q) {
      FirstSnoc(effects, w, v, q);
    }
  }

  /** The first effect on a pair joins its constraint. */
  lemma EffectFirst(p: Problem, cs: seq<Constraint>, model: set<(Node, Node)>, effects: seq<Wire>, w: Wire)
    requires EffectsOk(p, cs, model, effects) && |p.constraints| <= |cs|
    requires PairOf(w).Some? && PairOf(w).value !in model
    ensures EffectsOk(p, cs + [AsConstraint(w)], model + {PairOf(w).value}, effects + [w])
  {
    hide HasFrom, FirstEffect, PairOf, AsConstraint;
    var cs', model', effects' := cs + [AsConstraint(w)], model + {PairOf(w).value}, effects + [w];
    forall v: Node, q: Node
      ensures (v, q) in model' <==> FirstEffect(effects', v, q).Some?
      ensures HasFrom(cs', |p.constraints|, Store(q, v)) <==> FirstEffect(effects', v, q) == Some(Content(q, v))
      ensures FirstEffect(effects', v, q) == Some(Aliased(q, v)) ==> HasFrom(cs', |p.constraints|, Copy(q, v))
    {
      EffectFirstAt(p, cs, model, effects, w, v, q);
    }
  }

  lemma EffectFirstAt(p: Problem, cs: seq<Constraint>, model: set<(Node, Node)>, effects: seq<Wire>, w: Wire, v: Node, q: Node)
    requires EffectsOk(p, cs, model, effects) && |p.constraints| <= |cs|
    requires PairOf(w).Some? && PairOf(w).value !in model
    ensures var cs', effects' := cs + [AsConstraint(w)], effects + [w];
      && ((v, q) in model + {PairOf(w).value} <==> FirstEffect(effects', v, q).Some?)
      && (HasFrom(cs', |p.constraints|, Store(q, v)) <==> FirstEffect(effects', v, q) == Some(Content(q, v)))
      && (FirstEffect(effects', v, q) == Some(Aliased(q, v)) ==> HasFrom(cs', |p.constraints|, Copy(q, v)))
  {
    hide HasFrom, FirstEffect;
    FirstSnoc(effects, w, v, q);
    HasFromSnoc(cs, |p.constraints|, Store(q, v), AsConstraint(w));
    HasFromSnoc(cs, |p.constraints|, Copy(q, v), AsConstraint(w));
    assert (v, q) in model <==> FirstEffect(effects, v, q).Some?;
  }

  // ----- steps that learn nothing

  /** Effects that state no fact when they are applied. */
  predicate Factless(w: Wire) {
    w.ReturnedCopy? || w.Requeues?
  }

  ghost predicate FactlessCalls(p: Problem) {
    forall k, w {:trigger w in p.params[k]} :: k in p.params && w in p.params[k] ==> Factless(w)
  }

  /** Facts, pending differences and records are the same. */
  ghost predicate SameSets(st: State, st': State) {
    st'.pts == st.pts && st'.delta == st.delta && st'.memory == st.memory && st'.links == st.links && st'.synced == st.synced
  }

  lemma TakenSame(st: State, st1: State, st': State, node: Node, ls: seq<Loc>)
    requires Taken1(st, st1, node, ls)
    ensures ls == D(st, node) && (SameSets(st1, st') ==> SameSets(st.(delta := st.delta[node := []]), st'))
  {
  }

  /** No constraint reads or writes through `node`. */
  ghost predicate Inert(cs: seq<Constraint>, node: Node) {
    forall i :: 0 <= i < |cs| ==> cs[i].AddrOf? || (cs[i].dst != node && cs[i].src != node)
  }

  /** No field access goes through `node`. */
  ghost predicate NoFields(cs: seq<Constraint>, node: Node) {
    forall i :: 0 <= i < |cs| ==> !(cs[i].Gep? && cs[i].src == node)
  }

  // ----- what seeding puts in place

  /** The nodes of some constraints, in the order they are queued. */
  function Ends(cs: seq<Constraint>): seq<Node> {
    if cs == [] then [] else Ends(cs[..|cs| - 1]) + [cs[|cs| - 1].dst, cs[|cs| - 1].src]
  }

  lemma NoEnds(worklist: seq<Node>, cs: seq<Constraint>)
    ensures AppendNew(worklist, Ends(cs[..0])) == worklist
  {
    assert cs[..0] == [];
  }

  lemma EndsSnoc(worklist: seq<Node>, cs: seq<Constraint>, i: nat)
    requires i < |cs|
    ensures AppendNew(worklist, Ends(cs[..i + 1])) == AppendNew(AppendNew(AppendNew(worklist, Ends(cs[..i])), [cs[i].dst]), [cs[i].src])
  {
    assert cs[..i + 1][..i] == cs[..i];
    var d, r := [cs[i].dst], [cs[i].src];
    assert Ends(cs[..i + 1]) == Ends(cs[..i]) + d + r;
    AppendNewConcat(worklist, Ends(cs[..i]), d);
    AppendNewConcat(worklist, Ends(cs[..i]) + d, r);
  }

  lemma QueuedOnce(p: Problem, st: State, n: Node)
    requires Wf(p, st)
    ensures AppendNew(st.worklist, [n]) == if n in st.queued then st.worklist else st.worklist + [n]
  {
    hide Watermarks, HoldersOk, SyncOk, Bounded, DeltaOk;
    assert [n][..0] == [];
  }

  /** What an address constraint does to the points-to sets. */
  function PointTo(pts: map<Node, set<Loc>>, c: Constraint): map<Node, set<Loc>> {
    if c.AddrOf? then pts[c.dst := Held(pts, c.dst) + {c.loc}] else pts
  }

  function AddressSets(pts: map<Node, set<Loc>>, cs: seq<Constraint>): map<Node, set<Loc>> {
    if cs == [] then pts else PointTo(AddressSets(pts, cs[..|cs| - 1]), cs[|cs| - 1])
  }

  lemma NoAddressSets(pts: map<Node, set<Loc>>)
    ensures AddressSets(pts, []) == pts
  {
  }

  lemma AddressSetsSnoc(pts: map<Node, set<Loc>>, cs: seq<Constraint>, i: nat)
    requires i < |cs|
    ensures AddressSets(pts, cs[..i + 1]) == PointTo(AddressSets(pts, cs[..i]), cs[i])
  {
    assert cs[..i + 1][..i] == cs[..i];
  }

  lemma NoCallEffects(p: Problem)
    ensures CallEffects(p, []) == []
  {
  }
}
