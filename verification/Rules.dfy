/** The inference rules of the points-to analysis, stated without any worklist:
    what it means for a pair of relations to satisfy a constraint problem. */
module Rules {
  import opened Common

  type Node = nat
  type Loc = nat
  type CallSite = nat
  type FnId = nat
  /** A call site together with a callback argument its callee's model runs. */
  type Handover = nat

  datatype LocKind =
    | Global | FileStatic | FnStatic | Local | Heap
    | Field | FieldSummary | ArraySummary | Function | StringLit

  /** What the declaration of a cell rules out, where there is one. */
  datatype SlotGuard = FnParams(n: nat) | NotFnPtr

  /** Stores into a summary that holds this much are dropped. */
  const SUMMARY_MEM_CAP := 1024

  /** The test a function value has to pass to enter a cell. */
  datatype FnFilter = Any | NoFns | Arity(n: nat)

  /** A PAG constraint. What `Gep`, `Dlsym` and `Unwrap` make of one location
      depends on types and names only, so it is tabulated with the constraint:
      the field cells (and their summaries) a location designates, the function
      values that ride along, the functions a string literal names, the
      locations compatible with the receiver. */
  datatype Constraint =
    | AddrOf(dst: Node, src: Node, loc: Loc)
    | Copy(dst: Node, src: Node)
    | Unwrap(dst: Node, src: Node, admitted: set<Loc>)
    | Load(dst: Node, src: Node)
    | Store(dst: Node, src: Node)
    | Gep(dst: Node, src: Node, cells: map<Loc, seq<Loc>>, fns: map<Loc, seq<Loc>>, fallback: Option<Loc>)
    | Dlsym(dst: Node, src: Node, named: map<Loc, seq<Loc>>)

  /** What a resolved call adds: an actual copied into a formal, for good or as
      a one-time snapshot; a function or array passed by name; an address the
      callee returns; a variable it returns; what the callee's model does with
      the arguments, namely one aliasing another, a value stored through a
      pointer, an event object registered or waited for; a node put on the
      worklist; and a callback variable whose functions, present and future, are
      given the arguments the model forwards. */
  datatype Wire =
    | Param(actual: Node, formal: Node, persistent: bool)
    | FnArg(formal: Node, fn: Loc)
    | Returned(dst: Node, src: Node, loc: Loc)
    | ReturnedCopy(dst: Node, src: Node)
    | Aliased(dst: Node, src: Node)
    | Content(ptr: Node, value: Node)
    | Registers(event: Node)
    | Waits(event: Node)
    | Requeues(node: Node)
    | Watches(node: Node, handover: Handover)

  datatype Problem = Problem(
    nodes: nat,
    kinds: seq<LocKind>,
    guard: map<Loc, SlotGuard>,
    fnArity: map<Loc, nat>,
    summary: map<Loc, Loc>,
    constraints: seq<Constraint>,
    selfLoc: map<Node, Loc>,
    ownCell: map<Loc, Node>,
    seeds: seq<(Node, Loc)>,
    direct: seq<(CallSite, FnId)>,
    sites: map<Node, seq<CallSite>>,
    reached: map<(CallSite, Loc), seq<FnId>>,
    params: map<(CallSite, FnId), seq<Wire>>,
    forwards: map<(Handover, Loc), seq<Wire>>)

  predicate IsFn(p: Problem, l: Loc) {
    l < |p.kinds| && p.kinds[l] == Function
  }

  predicate IsString(p: Problem, l: Loc) {
    l < |p.kinds| && p.kinds[l] == StringLit
  }

  /** Has the location contents of its own? */
  predicate IsCell(p: Problem, l: Loc) {
    l < |p.kinds| && !IsFn(p, l) && !IsString(p, l)
  }

  function FilterOf(guard: map<Loc, SlotGuard>, cell: Loc): FnFilter {
    if cell !in guard then Any
    else match guard[cell]
      case NotFnPtr => NoFns
      case FnParams(n) => Arity(n)
  }

  /** May `x` pass a cell filtered by `f`? Only function values are filtered. */
  predicate Passes(p: Problem, f: FnFilter, x: Loc) {
    f == Any || !IsFn(p, x) || (f.Arity? && (x in p.fnArity ==> p.fnArity[x] == f.n))
  }

  predicate Admits(p: Problem, cell: Loc, x: Loc) {
    Passes(p, FilterOf(p.guard, cell), x)
  }

  /** A summary keeps only the function-or-not distinction of its guard. */
  function SummaryFilter(p: Problem, cell: Loc): FnFilter {
    if cell in p.guard && p.guard[cell] == NotFnPtr then NoFns else Any
  }

  function Lookup(table: map<Loc, seq<Loc>>, l: Loc): seq<Loc> { if l in table then table[l] else [] }
  function SitesAt(p: Problem, t: Node): seq<CallSite> { if t in p.sites then p.sites[t] else [] }
  function Reached(p: Problem, cs: CallSite, l: Loc): seq<FnId> { if (cs, l) in p.reached then p.reached[(cs, l)] else [] }
  function Forwarded(p: Problem, k: Handover, l: Loc): seq<Wire> { if (k, l) in p.forwards then p.forwards[(k, l)] else [] }
  function Wires(p: Problem, cs: CallSite, f: FnId): seq<Wire> { if (cs, f) in p.params then p.params[(cs, f)] else [] }

  /** What a flow constraint passes on for location `l`. */
  function Passed(c: Constraint, l: Loc): seq<Loc> {
    match c
    case Copy(_, _) => [l]
    case Unwrap(_, _, admitted) => if l in admitted then [l] else []
    case Gep(_, _, cells, fns, _) => Lookup(cells, l) + Lookup(fns, l)
    case Dlsym(_, _, named) => Lookup(named, l)
    case _ => []
  }

  ghost predicate ValidConstraint(p: Problem, c: Constraint) {
    && c.dst < p.nodes && c.src < p.nodes
    && (c.AddrOf? ==> c.loc < |p.kinds|)
    && (forall l: Loc, y: Loc {:trigger y in Passed(c, l)} :: l < |p.kinds| && y in Passed(c, l) ==> y < |p.kinds|)
    && (c.Gep? && c.fallback.Some? ==> c.fallback.value < |p.kinds|)
  }

  /** The constraint a wire amounts to; the two ends of an event copy are
      joined by a rule of their own, as are a callback variable's functions and
      their arguments, and queueing states no fact. */
  function AsConstraint(w: Wire): Constraint {
    match w
    case Param(a, m, _) => Copy(m, a)
    case FnArg(m, f) => AddrOf(m, m, f)
    case Returned(d, r, l) => AddrOf(d, r, l)
    case ReturnedCopy(d, r) => Copy(d, r)
    case Aliased(d, r) => Copy(d, r)
    case Content(q, v) => Store(q, v)
    case Registers(n) => Copy(n, n)
    case Waits(n) => Copy(n, n)
    case Requeues(n) => Copy(n, n)
    case Watches(n, _) => Copy(n, n)
  }

  ghost predicate ValidWire(p: Problem, w: Wire) {
    ValidConstraint(p, AsConstraint(w))
  }

  /** Every id names a node or a location of the problem, no variable owns two
      cells, and only arguments are forwarded. */
  ghost predicate Valid(p: Problem) {
    && (forall i :: 0 <= i < |p.constraints| ==> ValidConstraint(p, p.constraints[i]))
    && (forall l :: l in p.summary ==> p.summary[l] < |p.kinds|)
    && (forall n :: n in p.selfLoc ==> p.selfLoc[n] < |p.kinds|)
    && (forall c :: c in p.ownCell ==> c < |p.kinds| && p.ownCell[c] < p.nodes)
    && (forall c, c' :: c in p.ownCell && c' in p.ownCell && p.ownCell[c] == p.ownCell[c'] ==> c == c')
    && (forall i :: 0 <= i < |p.seeds| ==> p.seeds[i].0 < p.nodes && p.seeds[i].1 < |p.kinds|)
    && (forall k, w {:trigger w in p.params[k]} :: k in p.params && w in p.params[k] ==> ValidWire(p, w))
    && (forall k, w {:trigger w in p.forwards[k]} :: k in p.forwards && w in p.forwards[k] ==> ValidWire(p, w) && Passing(w))
  }

  /** An argument handed to a formal. */
  predicate Passing(w: Wire) {
    w.Param? || w.FnArg?
  }

  // ----- solutions

  datatype Solution = Solution(pts: iset<(Node, Loc)>, mem: iset<(Loc, Loc)>) {
    ghost predicate Pt(n: Node, x: Loc) { (n, x) in pts }
    ghost predicate Mem(cell: Loc, x: Loc) { (cell, x) in mem }
  }

  /** `cell`'s admitted contents are all pointed to by `n`. */
  ghost predicate Lifts(p: Problem, s: Solution, cell: Loc, n: Node) {
    forall x :: s.Mem(cell, x) && Admits(p, cell, x) ==> s.Pt(n, x)
  }

  ghost predicate LoadHolds(p: Problem, s: Solution, dst: Node, l: Loc) {
    && (IsFn(p, l) ==> s.Pt(dst, l))
    && (IsCell(p, l) ==> Lifts(p, s, l, dst))
  }

  ghost predicate StoreHolds(p: Problem, s: Solution, l: Loc, x: Loc) {
    IsCell(p, l) ==>
      && (Admits(p, l, x) ==> s.Mem(l, x))
      && (l in p.summary && Passes(p, SummaryFilter(p, p.summary[l]), x) ==> s.Mem(p.summary[l], x))
  }

  /** Storing an array or a static object by name stores its address. */
  ghost predicate SelfHolds(p: Problem, s: Solution, l: Loc, self: Loc) {
    IsCell(p, l) ==> s.Mem(l, self) && (l in p.summary ==> s.Mem(p.summary[l], self))
  }

  /** Does `s` satisfy constraint `c`? The `full` rules add what the solver does
      only at some moments: what a field access takes over from the cells it
      selects, and its fallback summary. */
  ghost predicate Satisfies(p: Problem, s: Solution, c: Constraint, full: bool) {
    match c
    case AddrOf(dst, _, loc) => s.Pt(dst, loc)
    case Load(dst, src) => forall l :: s.Pt(src, l) ==> LoadHolds(p, s, dst, l)
    case Store(dst, src) =>
      && (forall l, x :: s.Pt(dst, l) && s.Pt(src, x) ==> StoreHolds(p, s, l, x))
      && (src in p.selfLoc ==> forall l :: s.Pt(dst, l) ==> SelfHolds(p, s, l, p.selfLoc[src]))
    case _ => FlowHolds(s, c) && (full && c.Gep? ==> GepHolds(p, s, c))
  }

  ghost predicate FlowHolds(s: Solution, c: Constraint) {
    forall l, y {:trigger s.Pt(c.src, l), y in Passed(c, l)} :: s.Pt(c.src, l) && y in Passed(c, l) ==> s.Pt(c.dst, y)
  }

  ghost predicate GepHolds(p: Problem, s: Solution, c: Constraint)
    requires c.Gep?
  {
    && (forall l, cell {:trigger s.Pt(c.src, l), cell in Lookup(c.cells, l)} :: s.Pt(c.src, l) && cell in Lookup(c.cells, l) ==> Lifts(p, s, cell, c.dst))
    && (c.fallback.Some? ==> s.Pt(c.dst, c.fallback.value) && Lifts(p, s, c.fallback.value, c.dst))
  }

  /** The variable-cell rule: an address-taken pointer variable's node and its
      memory cell hold the same admitted values. */
  ghost predicate SyncHolds(p: Problem, s: Solution, cell: Loc, n: Node) {
    && (forall x :: s.Pt(n, x) && Admits(p, cell, x) ==> s.Mem(cell, x))
    && Lifts(p, s, cell, n)
  }

  /** The program text takes the address of `cell`. */
  ghost predicate Taken(p: Problem, cell: Loc) {
    exists i :: 0 <= i < |p.constraints| && p.constraints[i].AddrOf? && p.constraints[i].loc == cell
  }

  /** Somewhere a model aliases the same two arguments. Aliases and content
      stores share one record of pairs done, so only the first is wired. */
  ghost predicate Clash(p: Problem, ptr: Node, value: Node) {
    exists k :: k in p.params && Aliased(ptr, value) in p.params[k]
  }

  /** Whether a rule set asks for a wire at all. */
  ghost predicate Demanded(p: Problem, w: Wire, full: bool) {
    match w
    case Param(_, _, persistent) => full || persistent
    case ReturnedCopy(_, _) => full
    case Aliased(_, _) => full
    case Content(ptr, value) => full || !Clash(p, ptr, value)
    case _ => true
  }

  ghost predicate WireHolds(p: Problem, s: Solution, w: Wire, full: bool) {
    Demanded(p, w, full) ==> Satisfies(p, s, AsConstraint(w), full)
  }

  ghost predicate CallHolds(p: Problem, s: Solution, cs: CallSite, f: FnId, full: bool) {
    forall w :: w in Wires(p, cs, f) ==> WireHolds(p, s, w, full)
  }

  /** Function location `l` at call target `t` makes `f` a callee of site `cs`. */
  ghost predicate Hits(p: Problem, t: Node, l: Loc, cs: CallSite, f: FnId) {
    cs in SitesAt(p, t) && IsFn(p, l) && f in Reached(p, cs, l)
  }

  /** Site `cs` calls `f`, directly or through a function its target holds. */
  ghost predicate Resolves(p: Problem, s: Solution, cs: CallSite, f: FnId) {
    (cs, f) in p.direct || exists t, l :: s.Pt(t, l) && Hits(p, t, l, cs, f)
  }

  ghost predicate Active(p: Problem, s: Solution, w: Wire) {
    exists cs, f :: Resolves(p, s, cs, f) && w in Wires(p, cs, f)
  }

  /** The address of `cell` is taken, in the program text or by a callee that
      returns it. */
  ghost predicate TakenIn(p: Problem, s: Solution, cell: Loc) {
    Taken(p, cell) || exists d, r :: Active(p, s, Returned(d, r, cell))
  }

  /** Handover `k` passes its arguments to the function at `l`. */
  ghost predicate Forwards(p: Problem, s: Solution, k: Handover, l: Loc) {
    exists n :: Active(p, s, Watches(n, k)) && s.Pt(n, l) && IsFn(p, l)
  }

  ghost predicate ForwardHolds(p: Problem, s: Solution, k: Handover, l: Loc, full: bool) {
    forall w :: w in Forwarded(p, k, l) ==> WireHolds(p, s, w, full)
  }

  ghost predicate IsSolution(p: Problem, s: Solution, full: bool) {
    && (forall i :: 0 <= i < |p.constraints| ==> Satisfies(p, s, p.constraints[i], full))
    && (forall cell :: cell in p.ownCell && TakenIn(p, s, cell) ==> SyncHolds(p, s, cell, p.ownCell[cell]))
    && (forall i :: 0 <= i < |p.seeds| ==> s.Pt(p.seeds[i].0, p.seeds[i].1))
    && (forall cs, f :: Resolves(p, s, cs, f) ==> CallHolds(p, s, cs, f, full))
    && (forall a, b :: Active(p, s, Registers(a)) && Active(p, s, Waits(b)) ==> FlowHolds(s, Copy(b, a)))
    && (forall k, l :: Forwards(p, s, k, l) ==> ForwardHolds(p, s, k, l, full))
  }

  // ----- the least solution

  ghost predicate InPts(p: Problem, full: bool, n: Node, x: Loc) {
    forall s :: IsSolution(p, s, full) ==> s.Pt(n, x)
  }

  ghost predicate InMem(p: Problem, full: bool, cell: Loc, x: Loc) {
    forall s :: IsSolution(p, s, full) ==> s.Mem(cell, x)
  }

  /** The facts every solution holds. */
  ghost function Least(p: Problem, full: bool): Solution {
    Solution(iset f: (Node, Loc) | InPts(p, full, f.0, f.1), iset f: (Loc, Loc) | InMem(p, full, f.0, f.1))
  }

  /** More facts resolve more calls. */
  lemma ResolvesMore(p: Problem, s: Solution, t: Solution, cs: CallSite, f: FnId)
    requires s.pts <= t.pts && Resolves(p, s, cs, f)
    ensures Resolves(p, t, cs, f)
  {
    if (cs, f) !in p.direct {
      var n, l :| s.Pt(n, l) && Hits(p, n, l, cs, f);
      assert t.Pt(n, l);
    }
  }

  lemma ActiveMore(p: Problem, s: Solution, t: Solution, w: Wire)
    requires s.pts <= t.pts && Active(p, s, w)
    ensures Active(p, t, w)
  {
    var cs, f :| Resolves(p, s, cs, f) && w in Wires(p, cs, f);
    ResolvesMore(p, s, t, cs, f);
  }

  lemma TakenMore(p: Problem, s: Solution, t: Solution, cell: Loc)
    requires s.pts <= t.pts && TakenIn(p, s, cell)
    ensures TakenIn(p, t, cell)
  {
    if !Taken(p, cell) {
      var d, r :| Active(p, s, Returned(d, r, cell));
      ActiveMore(p, s, t, Returned(d, r, cell));
    }
  }

  lemma ForwardsMore(p: Problem, s: Solution, t: Solution, k: Handover, l: Loc)
    requires s.pts <= t.pts && Forwards(p, s, k, l)
    ensures Forwards(p, t, k, l)
  {
    var n :| Active(p, s, Watches(n, k)) && s.Pt(n, l);
    ActiveMore(p, s, t, Watches(n, k));
    assert t.Pt(n, l);
  }

  lemma LeastBelow(p: Problem, full: bool, s: Solution)
    requires IsSolution(p, s, full)
    ensures Least(p, full).pts <= s.pts && Least(p, full).mem <= s.mem
  {
    hide IsSolution;
  }

  /** Rules of the form "facts imply facts" survive intersection. */
  lemma LeastIsSolution(p: Problem, full: bool)
    ensures IsSolution(p, Least(p, full), full)
  {
    var m := Least(p, full);
    forall i | 0 <= i < |p.constraints|
      ensures Satisfies(p, m, p.constraints[i], full)
    {
      LeastSatisfies(p, full, p.constraints[i]);
    }
    forall cell | cell in p.ownCell && TakenIn(p, m, cell)
      ensures SyncHolds(p, m, cell, p.ownCell[cell])
    {
      LeastSyncs(p, full, cell);
    }
    forall cs, f | Resolves(p, m, cs, f)
      ensures CallHolds(p, m, cs, f, full)
    {
      LeastCalls(p, full, cs, f);
    }
    forall a, b | Active(p, m, Registers(a)) && Active(p, m, Waits(b))
      ensures FlowHolds(m, Copy(b, a))
    {
      LeastEvents(p, full, a, b);
    }
    forall k, l | Forwards(p, m, k, l) ensures ForwardHolds(p, m, k, l, full) {
      LeastForwards(p, full, k, l);
    }
  }

  lemma LeastSyncs(p: Problem, full: bool, cell: Loc)
    requires cell in p.ownCell && TakenIn(p, Least(p, full), cell)
    ensures SyncHolds(p, Least(p, full), cell, p.ownCell[cell])
  {
    hide Satisfies, CallHolds, FlowHolds, TakenIn;
    forall s | IsSolution(p, s, full) ensures SyncHolds(p, s, cell, p.ownCell[cell]) {
      LeastBelow(p, full, s);
      TakenMore(p, Least(p, full), s, cell);
    }
  }

  lemma LeastCalls(p: Problem, full: bool, cs: CallSite, f: FnId)
    requires Resolves(p, Least(p, full), cs, f)
    ensures CallHolds(p, Least(p, full), cs, f, full)
  {
    hide Satisfies, FlowHolds, SyncHolds, Resolves;
    forall w | w in Wires(p, cs, f) && Demanded(p, w, full) ensures Satisfies(p, Least(p, full), AsConstraint(w), full) {
      forall s | IsSolution(p, s, full) ensures Satisfies(p, s, AsConstraint(w), full) {
        LeastBelow(p, full, s);
        ResolvesMore(p, Least(p, full), s, cs, f);
        assert WireHolds(p, s, w, full);
      }
      LeastSatisfies(p, full, AsConstraint(w));
    }
  }

  lemma LeastForwards(p: Problem, full: bool, k: Handover, l: Loc)
    requires Forwards(p, Least(p, full), k, l)
    ensures ForwardHolds(p, Least(p, full), k, l, full)
  {
    hide Satisfies, FlowHolds, SyncHolds, Resolves, Forwards, CallHolds, TakenIn, Active;
    forall w | w in Forwarded(p, k, l) && Demanded(p, w, full) ensures Satisfies(p, Least(p, full), AsConstraint(w), full) {
      forall s | IsSolution(p, s, full) ensures Satisfies(p, s, AsConstraint(w), full) {
        LeastBelow(p, full, s);
        ForwardsMore(p, Least(p, full), s, k, l);
        assert WireHolds(p, s, w, full);
      }
      LeastSatisfies(p, full, AsConstraint(w));
    }
  }

  lemma LeastEvents(p: Problem, full: bool, a: Node, b: Node)
    requires Active(p, Least(p, full), Registers(a)) && Active(p, Least(p, full), Waits(b))
    ensures FlowHolds(Least(p, full), Copy(b, a))
  {
    hide Active, SyncHolds, CallHolds, TakenIn;
    forall s | IsSolution(p, s, full) ensures Satisfies(p, s, Copy(b, a), full) {
      LeastBelow(p, full, s);
      ActiveMore(p, Least(p, full), s, Registers(a));
      ActiveMore(p, Least(p, full), s, Waits(b));
    }
    LeastSatisfies(p, full, Copy(b, a));
  }

  /** What every solution satisfies, the least one does. */
  lemma LeastSatisfies(p: Problem, full: bool, c: Constraint)
    requires forall s :: IsSolution(p, s, full) ==> Satisfies(p, s, c, full)
    ensures Satisfies(p, Least(p, full), c, full)
  {
    hide IsSolution;
    var m := Least(p, full);
    match c
    case AddrOf(dst, _, loc) =>
    case Load(dst, src) =>
      forall l | m.Pt(src, l) ensures LoadHolds(p, m, dst, l) {
        forall s | IsSolution(p, s, full) ensures LoadHolds(p, s, dst, l) {
          assert s.Pt(src, l);
        }
      }
    case Store(dst, src) =>
      forall l, x | m.Pt(dst, l) && m.Pt(src, x) ensures StoreHolds(p, m, l, x) {
        forall s | IsSolution(p, s, full) ensures StoreHolds(p, s, l, x) {
          assert s.Pt(dst, l) && s.Pt(src, x);
        }
      }
      if src in p.selfLoc {
        forall l | m.Pt(dst, l) ensures SelfHolds(p, m, l, p.selfLoc[src]) {
          forall s | IsSolution(p, s, full) ensures SelfHolds(p, s, l, p.selfLoc[src]) {
            assert s.Pt(dst, l);
          }
        }
      }
    case _ =>
      LeastFlows(p, full, c);
  }

  lemma LeastFlows(p: Problem, full: bool, c: Constraint)
    requires forall s :: IsSolution(p, s, full) ==> Satisfies(p, s, c, full)
    requires c.Copy? || c.Unwrap? || c.Gep? || c.Dlsym?
    ensures FlowHolds(Least(p, full), c)
    ensures full && c.Gep? ==> GepHolds(p, Least(p, full), c)
  {
    hide IsSolution;
    var m := Least(p, full);
    forall s | IsSolution(p, s, full)
      ensures FlowHolds(s, c) && (full && c.Gep? ==> GepHolds(p, s, c))
    {
      assert Satisfies(p, s, c, full);
    }
    if full && c.Gep? {
      forall l, cell | m.Pt(c.src, l) && cell in Lookup(c.cells, l) ensures Lifts(p, m, cell, c.dst) {
        forall s | IsSolution(p, s, full) ensures Lifts(p, s, cell, c.dst) {
          assert s.Pt(c.src, l);
        }
      }
    }
  }

  /** Nothing in the problem depends on when it is processed: no field access,
      every parameter is wired for good, and no variable is returned or aliased
      while solving. */
  ghost predicate OrderFree(p: Problem) {
    && (forall i :: 0 <= i < |p.constraints| ==> !p.constraints[i].Gep?)
    && (forall k, w {:trigger w in p.params[k]} :: k in p.params && w in p.params[k] ==>
          (w.Param? ==> w.persistent) && !w.ReturnedCopy? && !w.Aliased?)
    && (forall k, w {:trigger w in p.forwards[k]} :: k in p.forwards && w in p.forwards[k] ==>
          (w.Param? ==> w.persistent) && !w.ReturnedCopy? && !w.Aliased?)
  }

  /** Every full solution is a core one, and there is no difference for a
      problem without order-dependent parts. */
  lemma FullIsCore(p: Problem, s: Solution)
    ensures IsSolution(p, s, true) ==> IsSolution(p, s, false)
    ensures OrderFree(p) && IsSolution(p, s, false) ==> IsSolution(p, s, true)
  {
    hide SyncHolds, Resolves, TakenIn, Active;
    forall i | 0 <= i < |p.constraints|
      ensures Satisfies(p, s, p.constraints[i], true) ==> Satisfies(p, s, p.constraints[i], false)
      ensures OrderFree(p) && Satisfies(p, s, p.constraints[i], false) ==> Satisfies(p, s, p.constraints[i], true)
    {}
    forall cs, f
      ensures CallHolds(p, s, cs, f, true) ==> CallHolds(p, s, cs, f, false)
      ensures OrderFree(p) && CallHolds(p, s, cs, f, false) ==> CallHolds(p, s, cs, f, true)
    {
      forall w | w in Wires(p, cs, f)
        ensures WireHolds(p, s, w, true) ==> WireHolds(p, s, w, false)
        ensures OrderFree(p) && WireHolds(p, s, w, false) ==> WireHolds(p, s, w, true)
      {
        WireFullIsCore(p, s, w);
      }
    }
    ForwardFullIsCore(p, s);
  }

  lemma ForwardFullIsCore(p: Problem, s: Solution)
    ensures forall k, l :: ForwardHolds(p, s, k, l, true) ==> ForwardHolds(p, s, k, l, false)
    ensures OrderFree(p) ==> forall k, l :: ForwardHolds(p, s, k, l, false) ==> ForwardHolds(p, s, k, l, true)
  {
    hide WireHolds;
    forall k, l
      ensures ForwardHolds(p, s, k, l, true) ==> ForwardHolds(p, s, k, l, false)
      ensures OrderFree(p) && ForwardHolds(p, s, k, l, false) ==> ForwardHolds(p, s, k, l, true)
    {
      forall w | w in Forwarded(p, k, l)
        ensures WireHolds(p, s, w, true) ==> WireHolds(p, s, w, false)
        ensures OrderFree(p) && WireHolds(p, s, w, false) ==> WireHolds(p, s, w, true)
      {
        WireFullIsCore(p, s, w);
      }
    }
  }

  lemma WireFullIsCore(p: Problem, s: Solution, w: Wire)
    ensures WireHolds(p, s, w, true) ==> WireHolds(p, s, w, false)
    ensures OrderFree(p) && (exists k :: k in p.params && w in p.params[k]) && WireHolds(p, s, w, false) ==> WireHolds(p, s, w, true)
    ensures OrderFree(p) && (exists k :: k in p.forwards && w in p.forwards[k]) && WireHolds(p, s, w, false) ==> WireHolds(p, s, w, true)
  {
    assert !AsConstraint(w).Gep?;
  }
}
