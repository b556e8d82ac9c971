/** The inference rules once more, in terms of the tables alone: the reference
    the rules of `Rules`, which share their vocabulary with the solver, are
    proved equal to. */
module Meaning {
  import opened Common
  import opened Rules

  // ----- what may enter a cell

  ghost predicate FnAt(p: Problem, l: Loc) {
    l < |p.kinds| && p.kinds[l] == Function
  }

  /** Neither a function nor a string literal has contents. */
  ghost predicate HasContents(p: Problem, l: Loc) {
    l < |p.kinds| && p.kinds[l] != Function && p.kinds[l] != StringLit
  }

  /** A cell with a declared type turns functions away: all of them if it is not
      a function pointer, else those known to have another number of
      parameters. */
  ghost predicate Enters(p: Problem, cell: Loc, x: Loc) {
    FnAt(p, x) && cell in p.guard ==>
      match p.guard[cell]
      case NotFnPtr => false
      case FnParams(n) => x in p.fnArity ==> p.fnArity[x] == n
  }

  /** A summary turns functions away only if it is no function pointer. */
  ghost predicate EntersSummary(p: Problem, cell: Loc, x: Loc) {
    !(FnAt(p, x) && cell in p.guard && p.guard[cell] == NotFnPtr)
  }

  lemma EntersIff(p: Problem, cell: Loc, x: Loc)
    ensures Admits(p, cell, x) <==> Enters(p, cell, x)
    ensures Passes(p, SummaryFilter(p, cell), x) <==> EntersSummary(p, cell, x)
    ensures IsFn(p, x) <==> FnAt(p, x)
    ensures IsCell(p, x) <==> HasContents(p, x)
  {
  }

  /** Function by function: any enters a cell without a declared type, none a cell
      that is no function pointer; where the parameters of the slot are known,
      one of known arity enters exactly if it matches, one of unknown arity
      always. What is no function enters everywhere. */
  lemma FunctionEnters(p: Problem, cell: Loc, f: Loc, n: nat)
    requires f < |p.kinds|
    ensures p.kinds[f] != Function ==> Admits(p, cell, f)
    ensures cell !in p.guard ==> Admits(p, cell, f)
    ensures p.kinds[f] == Function && cell in p.guard && p.guard[cell] == NotFnPtr ==> !Admits(p, cell, f)
    ensures p.kinds[f] == Function && cell in p.guard && p.guard[cell] == FnParams(n) && f in p.fnArity ==>
      (Admits(p, cell, f) <==> p.fnArity[f] == n)
    ensures cell in p.guard && p.guard[cell] == FnParams(n) && f !in p.fnArity ==> Admits(p, cell, f)
  {
    EntersIff(p, cell, f);
  }

  // ----- constraints

  ghost predicate MeansCopy(s: Solution, dst: Node, src: Node) {
    forall l :: s.Pt(src, l) ==> s.Pt(dst, l)
  }

  ghost predicate MeansLift(p: Problem, s: Solution, cell: Loc, n: Node) {
    forall x :: s.Mem(cell, x) && Enters(p, cell, x) ==> s.Pt(n, x)
  }

  ghost predicate MeansLoad(p: Problem, s: Solution, dst: Node, src: Node) {
    forall l :: s.Pt(src, l) ==> (FnAt(p, l) ==> s.Pt(dst, l)) && (HasContents(p, l) ==> MeansLift(p, s, l, dst))
  }

  /** Every value goes into every target with contents and into its summary, as
      far as they let it in; an array or static object also by its address. */
  ghost predicate MeansStore(p: Problem, s: Solution, dst: Node, src: Node) {
    && (forall l, x :: s.Pt(dst, l) && s.Pt(src, x) && HasContents(p, l) && Enters(p, l, x) ==> s.Mem(l, x))
    && (forall l, x :: s.Pt(dst, l) && s.Pt(src, x) && HasContents(p, l) && l in p.summary && EntersSummary(p, p.summary[l], x) ==>
          s.Mem(p.summary[l], x))
    && (src in p.selfLoc ==> forall l :: s.Pt(dst, l) && HasContents(p, l) ==>
          s.Mem(l, p.selfLoc[src]) && (l in p.summary ==> s.Mem(p.summary[l], p.selfLoc[src])))
  }

  ghost predicate Entry(table: map<Loc, seq<Loc>>, l: Loc, y: Loc) {
    l in table && y in table[l]
  }

  /** Every entry of `table` for something the source points at. */
  ghost predicate MeansTable(s: Solution, table: map<Loc, seq<Loc>>, dst: Node, src: Node) {
    forall l, y :: s.Pt(src, l) && Entry(table, l, y) ==> s.Pt(dst, y)
  }

  /** A field access takes over what the cells it selects contain, and falls back
      to the summary of its declared type. */
  ghost predicate MeansTaken(p: Problem, s: Solution, c: Constraint)
    requires c.Gep?
  {
    && (forall l, y :: s.Pt(c.src, l) && Entry(c.cells, l, y) ==> MeansLift(p, s, y, c.dst))
    && (c.fallback.Some? ==> s.Pt(c.dst, c.fallback.value) && MeansLift(p, s, c.fallback.value, c.dst))
  }

  ghost predicate MeansField(p: Problem, s: Solution, c: Constraint, full: bool)
    requires c.Gep?
  {
    MeansTable(s, c.cells, c.dst, c.src) && MeansTable(s, c.fns, c.dst, c.src) && (full ==> MeansTaken(p, s, c))
  }

  ghost predicate Means(p: Problem, s: Solution, c: Constraint, full: bool) {
    match c
    case AddrOf(dst, _, loc) => s.Pt(dst, loc)
    case Copy(dst, src) => MeansCopy(s, dst, src)
    case Unwrap(dst, src, admitted) => forall l :: s.Pt(src, l) && l in admitted ==> s.Pt(dst, l)
    case Load(dst, src) => MeansLoad(p, s, dst, src)
    case Store(dst, src) => MeansStore(p, s, dst, src)
    case Gep(_, _, _, _, _) => MeansField(p, s, c, full)
    case Dlsym(dst, src, named) => MeansTable(s, named, dst, src)
  }

  lemma LiftIff(p: Problem, s: Solution, cell: Loc, n: Node)
    ensures Lifts(p, s, cell, n) <==> MeansLift(p, s, cell, n)
  {
    forall x ensures Admits(p, cell, x) <==> Enters(p, cell, x) { EntersIff(p, cell, x); }
  }

  lemma LoadIff(p: Problem, s: Solution, dst: Node, src: Node, full: bool)
    ensures Satisfies(p, s, Load(dst, src), full) <==> MeansLoad(p, s, dst, src)
  {
    hide Lifts, MeansLift, IsFn, IsCell, FnAt, HasContents;
    forall l ensures LoadHolds(p, s, dst, l) <==> (FnAt(p, l) ==> s.Pt(dst, l)) && (HasContents(p, l) ==> MeansLift(p, s, l, dst)) {
      EntersIff(p, l, l);
      LiftIff(p, s, l, dst);
    }
  }

  lemma StoreIff(p: Problem, s: Solution, dst: Node, src: Node, full: bool)
    ensures Satisfies(p, s, Store(dst, src), full) <==> MeansStore(p, s, dst, src)
  {
    hide IsCell, HasContents, Passes, Admits, SummaryFilter, Enters, EntersSummary;
    forall l ensures IsCell(p, l) <==> HasContents(p, l) { EntersIff(p, l, l); }
    forall l, x ensures StoreHolds(p, s, l, x) <==>
      (HasContents(p, l) ==> (Enters(p, l, x) ==> s.Mem(l, x)) && (l in p.summary && EntersSummary(p, p.summary[l], x) ==> s.Mem(p.summary[l], x)))
    {
      EntersIff(p, l, x);
      if l in p.summary { EntersIff(p, p.summary[l], x); }
    }
  }

  lemma EntryIff(table: map<Loc, seq<Loc>>, l: Loc, y: Loc)
    ensures y in Lookup(table, l) <==> Entry(table, l, y)
  {
  }

  lemma CopyIff(s: Solution, dst: Node, src: Node)
    ensures FlowHolds(s, Copy(dst, src)) <==> MeansCopy(s, dst, src)
  {
    if FlowHolds(s, Copy(dst, src)) {
      forall l | s.Pt(src, l) ensures s.Pt(dst, l) {
        assert l in Passed(Copy(dst, src), l);
      }
    }
  }

  lemma UnwrapIff(s: Solution, dst: Node, src: Node, admitted: set<Loc>)
    ensures FlowHolds(s, Unwrap(dst, src, admitted)) <==> forall l :: s.Pt(src, l) && l in admitted ==> s.Pt(dst, l)
  {
    if FlowHolds(s, Unwrap(dst, src, admitted)) {
      forall l | s.Pt(src, l) && l in admitted ensures s.Pt(dst, l) {
        assert l in Passed(Unwrap(dst, src, admitted), l);
      }
    }
  }

  lemma DlsymIff(s: Solution, dst: Node, src: Node, named: map<Loc, seq<Loc>>)
    ensures FlowHolds(s, Dlsym(dst, src, named)) <==> MeansTable(s, named, dst, src)
  {
    hide Lookup, Entry;
    var c := Dlsym(dst, src, named);
    forall l, y ensures y in Passed(c, l) <==> Entry(named, l, y) { EntryIff(named, l, y); }
  }

  lemma FieldFlowIff(s: Solution, c: Constraint)
    requires c.Gep?
    ensures FlowHolds(s, c) <==> MeansTable(s, c.cells, c.dst, c.src) && MeansTable(s, c.fns, c.dst, c.src)
  {
    hide Lookup, Entry;
    forall l, y ensures y in Passed(c, l) <==> Entry(c.cells, l, y) || Entry(c.fns, l, y) {
      EntryIff(c.cells, l, y);
      EntryIff(c.fns, l, y);
    }
  }

  lemma TakenIff(p: Problem, s: Solution, c: Constraint)
    requires c.Gep?
    ensures GepHolds(p, s, c) <==> MeansTaken(p, s, c)
  {
    hide Lifts, MeansLift, Lookup, Entry;
    forall y ensures Lifts(p, s, y, c.dst) <==> MeansLift(p, s, y, c.dst) { LiftIff(p, s, y, c.dst); }
    forall l, y ensures y in Lookup(c.cells, l) <==> Entry(c.cells, l, y) { EntryIff(c.cells, l, y); }
  }

  /** Each constraint means what its kind says. */
  lemma SatisfiesIff(p: Problem, s: Solution, c: Constraint, full: bool)
    ensures Satisfies(p, s, c, full) <==> Means(p, s, c, full)
  {
    hide FlowHolds, GepHolds, MeansTable, MeansTaken, MeansCopy, MeansLoad, MeansStore;
    match c
    case AddrOf(_, _, _) =>
    case Copy(dst, src) => CopyIff(s, dst, src);
    case Unwrap(dst, src, admitted) => UnwrapIff(s, dst, src, admitted);
    case Load(dst, src) => LoadIff(p, s, dst, src, full);
    case Store(dst, src) => StoreIff(p, s, dst, src, full);
    case Gep(_, _, _, _, _) =>
      FieldFlowIff(s, c);
      TakenIff(p, s, c);
    case Dlsym(dst, src, named) => DlsymIff(s, dst, src, named);
  }

  // ----- calls

  /** Does the rule set ask for what the wire says? The core one does not for
      what happens only at the moment a call is found, nor for a store that
      the record of aliased pairs may keep from happening. */
  ghost predicate Asked(p: Problem, w: Wire, full: bool) {
    || full
    || (w.Param? && w.persistent) || w.FnArg? || w.Returned?
    || (w.Content? && forall k :: k in p.params ==> Aliased(w.ptr, w.value) !in p.params[k])
  }

  ghost predicate MeansWire(p: Problem, s: Solution, w: Wire) {
    match w
    case Param(actual, formal, _) => MeansCopy(s, formal, actual)
    case FnArg(formal, fn) => s.Pt(formal, fn)
    case Returned(dst, _, loc) => s.Pt(dst, loc)
    case ReturnedCopy(dst, src) => MeansCopy(s, dst, src)
    case Aliased(dst, src) => MeansCopy(s, dst, src)
    case Content(ptr, value) => MeansStore(p, s, ptr, value)
    case _ => true
  }

  /** Site `cs` calls `f` as the text says, or because its target points at a
      function that stands for `f` there. */
  ghost predicate Calls(p: Problem, s: Solution, cs: CallSite, f: FnId) {
    (cs, f) in p.direct || exists t, l :: s.Pt(t, l) && FnAt(p, l) && t in p.sites && cs in p.sites[t] && StandsFor(p, cs, l, f)
  }

  ghost predicate StandsFor(p: Problem, cs: CallSite, l: Loc, f: FnId) {
    (cs, l) in p.reached && f in p.reached[(cs, l)]
  }

  /** Some call found has the wire. */
  ghost predicate Wired(p: Problem, s: Solution, w: Wire) {
    exists cs: CallSite, f: FnId :: Calls(p, s, cs, f) && (cs, f) in p.params && w in p.params[(cs, f)]
  }

  /** Handover `k` is given the function at `l`. */
  ghost predicate GivenTo(p: Problem, s: Solution, k: Handover, l: Loc) {
    FnAt(p, l) && exists n :: Wired(p, s, Watches(n, k)) && s.Pt(n, l)
  }

  /** The address of `cell` is assigned in the text or returned by a callee. */
  ghost predicate AddressTaken(p: Problem, s: Solution, cell: Loc) {
    || (exists i :: 0 <= i < |p.constraints| && p.constraints[i].AddrOf? && p.constraints[i].loc == cell)
    || (exists d, r :: Wired(p, s, Returned(d, r, cell)))
  }

  ghost predicate MeansSolution(p: Problem, s: Solution, full: bool) {
    && (forall i :: 0 <= i < |p.constraints| ==> Means(p, s, p.constraints[i], full))
    && (forall c :: c in p.ownCell && AddressTaken(p, s, c) ==>
          (forall x :: Enters(p, c, x) ==> (s.Pt(p.ownCell[c], x) ==> s.Mem(c, x)) && (s.Mem(c, x) ==> s.Pt(p.ownCell[c], x))))
    && (forall i :: 0 <= i < |p.seeds| ==> s.Pt(p.seeds[i].0, p.seeds[i].1))
    && (forall w :: Wired(p, s, w) && Asked(p, w, full) ==> MeansWire(p, s, w))
    && (forall a, b :: Wired(p, s, Registers(a)) && Wired(p, s, Waits(b)) ==> MeansCopy(s, b, a))
    && (forall k: Handover, l: Loc, w :: GivenTo(p, s, k, l) && (k, l) in p.forwards && w in p.forwards[(k, l)] && Asked(p, w, full) ==> MeansWire(p, s, w))
  }

  lemma CallsIff(p: Problem, s: Solution, cs: CallSite, f: FnId)
    ensures Resolves(p, s, cs, f) <==> Calls(p, s, cs, f)
  {
    forall t, l ensures Hits(p, t, l, cs, f) <==> FnAt(p, l) && t in p.sites && cs in p.sites[t] && StandsFor(p, cs, l, f) {}
  }

  lemma WiredIff(p: Problem, s: Solution, w: Wire)
    ensures Active(p, s, w) <==> Wired(p, s, w)
  {
    hide Resolves, Calls;
    forall cs: CallSite, f: FnId ensures Resolves(p, s, cs, f) <==> Calls(p, s, cs, f) { CallsIff(p, s, cs, f); }
    forall cs: CallSite, f: FnId ensures w in Wires(p, cs, f) <==> (cs, f) in p.params && w in p.params[(cs, f)] {}
  }

  lemma WireIff(p: Problem, s: Solution, w: Wire, full: bool)
    ensures WireHolds(p, s, w, full) <==> (Asked(p, w, full) ==> MeansWire(p, s, w))
  {
    hide Satisfies, Means, MeansCopy, MeansStore, FlowHolds;
    SatisfiesIff(p, s, AsConstraint(w), full);
    if w.Registers? || w.Waits? || w.Requeues? || w.Watches? {
      MeansNothing(p, s, w, full);
    }
    MeansPlain(p, s, AsConstraint(w), full);
  }

  /** A wire that states no fact amounts to copying a node into itself. */
  lemma MeansNothing(p: Problem, s: Solution, w: Wire, full: bool)
    requires w.Registers? || w.Waits? || w.Requeues? || w.Watches?
    ensures Means(p, s, AsConstraint(w), full)
  {
  }

  lemma TakenIsIff(p: Problem, s: Solution, cell: Loc)
    ensures TakenIn(p, s, cell) <==> AddressTaken(p, s, cell)
  {
    hide Active, Wired;
    forall d: Node, r: Node ensures Active(p, s, Returned(d, r, cell)) <==> Wired(p, s, Returned(d, r, cell)) {
      WiredIff(p, s, Returned(d, r, cell));
    }
  }

  lemma SyncIff(p: Problem, s: Solution, c: Loc, n: Node)
    ensures SyncHolds(p, s, c, n) <==>
      forall x :: Enters(p, c, x) ==> (s.Pt(n, x) ==> s.Mem(c, x)) && (s.Mem(c, x) ==> s.Pt(n, x))
  {
    forall x ensures Admits(p, c, x) <==> Enters(p, c, x) { EntersIff(p, c, x); }
  }

  lemma GivenIff(p: Problem, s: Solution, k: Handover, l: Loc)
    ensures Forwards(p, s, k, l) <==> GivenTo(p, s, k, l)
  {
    hide Active, Wired;
    forall n: Node ensures Active(p, s, Watches(n, k)) <==> Wired(p, s, Watches(n, k)) { WiredIff(p, s, Watches(n, k)); }
  }

  lemma AllCallsIff(p: Problem, s: Solution, full: bool)
    ensures (forall cs, f :: Resolves(p, s, cs, f) ==> CallHolds(p, s, cs, f, full)) <==>
      forall w :: Wired(p, s, w) && Asked(p, w, full) ==> MeansWire(p, s, w)
  {
    hide Resolves, Wired, WireHolds, Asked, MeansWire;
    forall w ensures WireHolds(p, s, w, full) <==> (Asked(p, w, full) ==> MeansWire(p, s, w)) { WireIff(p, s, w, full); }
    forall w ensures Active(p, s, w) <==> Wired(p, s, w) { WiredIff(p, s, w); }
    if forall cs, f :: Resolves(p, s, cs, f) ==> CallHolds(p, s, cs, f, full) {
      forall w | Active(p, s, w) ensures WireHolds(p, s, w, full) {
        var cs, f :| Resolves(p, s, cs, f) && w in Wires(p, cs, f);
        assert CallHolds(p, s, cs, f, full);
      }
    }
    if forall w :: Active(p, s, w) ==> WireHolds(p, s, w, full) {
      forall cs, f | Resolves(p, s, cs, f) ensures CallHolds(p, s, cs, f, full) {
        forall w | w in Wires(p, cs, f) ensures WireHolds(p, s, w, full) {
          assert Active(p, s, w);
        }
      }
    }
  }

  lemma ForwardsIff(p: Problem, s: Solution, k: Handover, l: Loc, full: bool)
    ensures (Forwards(p, s, k, l) ==> ForwardHolds(p, s, k, l, full)) <==>
      forall w :: GivenTo(p, s, k, l) && (k, l) in p.forwards && w in p.forwards[(k, l)] && Asked(p, w, full) ==> MeansWire(p, s, w)
  {
    hide Forwards, GivenTo, WireHolds, Asked, MeansWire;
    GivenIff(p, s, k, l);
    forall w ensures WireHolds(p, s, w, full) <==> (Asked(p, w, full) ==> MeansWire(p, s, w)) { WireIff(p, s, w, full); }
  }

  lemma EventsIff(p: Problem, s: Solution)
    ensures (forall a, b :: Active(p, s, Registers(a)) && Active(p, s, Waits(b)) ==> FlowHolds(s, Copy(b, a))) <==>
      forall a, b :: Wired(p, s, Registers(a)) && Wired(p, s, Waits(b)) ==> MeansCopy(s, b, a)
  {
    hide Active, Wired, FlowHolds, MeansCopy;
    forall w ensures Active(p, s, w) <==> Wired(p, s, w) { WiredIff(p, s, w); }
    forall a, b ensures FlowHolds(s, Copy(b, a)) <==> MeansCopy(s, b, a) { CopyIff(s, b, a); }
  }

  /** The rules are these. */
  lemma SolutionIff(p: Problem, s: Solution, full: bool)
    ensures IsSolution(p, s, full) <==> MeansSolution(p, s, full)
  {
    hide Satisfies, Means, TakenIn, AddressTaken, SyncHolds, CallHolds, Active, Wired, FlowHolds, MeansCopy, Forwards, GivenTo, ForwardHolds, Enters;
    hide Resolves, Asked, MeansWire;
    forall c ensures Satisfies(p, s, c, full) <==> Means(p, s, c, full) { SatisfiesIff(p, s, c, full); }
    forall c ensures TakenIn(p, s, c) <==> AddressTaken(p, s, c) { TakenIsIff(p, s, c); }
    forall c | c in p.ownCell ensures SyncHolds(p, s, c, p.ownCell[c]) <==>
      forall x :: Enters(p, c, x) ==> (s.Pt(p.ownCell[c], x) ==> s.Mem(c, x)) && (s.Mem(c, x) ==> s.Pt(p.ownCell[c], x))
    {
      SyncIff(p, s, c, p.ownCell[c]);
    }
    AllCallsIff(p, s, full);
    EventsIff(p, s);
    forall k: Handover, l: Loc ensures (Forwards(p, s, k, l) ==> ForwardHolds(p, s, k, l, full)) <==>
      forall w :: GivenTo(p, s, k, l) && (k, l) in p.forwards && w in p.forwards[(k, l)] && Asked(p, w, full) ==> MeansWire(p, s, w)
    {
      ForwardsIff(p, s, k, l, full);
    }
  }

  lemma MeansPlain(p: Problem, s: Solution, c: Constraint, full: bool)
    ensures c.AddrOf? ==> (Means(p, s, c, full) <==> s.Pt(c.dst, c.loc))
    ensures c.Copy? ==> (Means(p, s, c, full) <==> MeansCopy(s, c.dst, c.src))
    ensures c.Store? ==> (Means(p, s, c, full) <==> MeansStore(p, s, c.dst, c.src))
  {
  }
}
