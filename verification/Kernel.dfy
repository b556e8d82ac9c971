/** The difference-propagation state as a value: what each step may change, and
    which obligations towards the rules survive every step. */
module Kernel {
  import opened Common
  import opened Rules

  /** What resolved calls have added so far: the argument pairs copied, those a
      model effect was applied to, the event objects registered and waited for,
      and the callback variables watched, in order of discovery. */
  datatype Links = Links(
    wired: set<(Node, Node)>,
    model: set<(Node, Node)>,
    registered: seq<Node>,
    waiting: seq<Node>,
    watch: seq<(Node, Handover)>)

  const NO_LINKS := Links({}, {}, [], [], [])

  datatype State = State(
    pts: map<Node, set<Loc>>,
    delta: map<Node, seq<Loc>>,
    pending: set<(Node, Loc)>,
    memory: map<Loc, seq<Loc>>,
    holders: map<Loc, set<Node>>,
    worklist: seq<Node>,
    queued: set<Node>,
    sizes: map<Node, map<Loc, nat>>,
    constraints: seq<Constraint>,
    synced: map<Node, Loc>,
    owner: map<Loc, Node>,
    resolved: map<CallSite, seq<FnId>>,
    links: Links,
    owing: map<nat, set<Loc>>)

  function Held(pts: map<Node, set<Loc>>, n: Node): set<Loc> {
    if n in pts then pts[n] else {}
  }

  function DeltaOf(delta: map<Node, seq<Loc>>, n: Node): seq<Loc> {
    if n in delta then delta[n] else []
  }

  function SizeAt(sizes: map<Node, map<Loc, nat>>, dst: Node, cell: Loc): nat {
    if dst in sizes && cell in sizes[dst] then sizes[dst][cell] else 0
  }

  function CalleesOf(resolved: map<CallSite, seq<FnId>>, cs: CallSite): seq<FnId> {
    if cs in resolved then resolved[cs] else []
  }

  function P(st: State, n: Node): set<Loc> { Held(st.pts, n) }
  function D(st: State, n: Node): seq<Loc> { DeltaOf(st.delta, n) }
  function M(st: State, l: Loc): seq<Loc> { Lookup(st.memory, l) }
  function R(st: State, cs: CallSite): seq<FnId> { CalleesOf(st.resolved, cs) }
  function H(st: State, l: Loc): set<Node> { if l in st.holders then st.holders[l] else {} }

  /** The guard's entries for `ls` being pending at `n`. */
  function Marks(n: Node, ls: seq<Loc>): set<(Node, Loc)> {
    set l | l in ls :: (n, l)
  }

  /** What constraint `i` owed when it was added: locations its source had
      already propagated and its destination did not have. */
  ghost function Owed(st: State, i: nat): set<Loc> {
    if i in st.owing then st.owing[i] else {}
  }

  /** `n` holds `l` and has propagated it since. */
  ghost predicate Settled(st: State, n: Node, l: Loc) {
    l in P(st, n) && l !in D(st, n)
  }

  ghost predicate IsLoadSrc(p: Problem, n: Node) {
    exists i :: 0 <= i < |p.constraints| && p.constraints[i].Load? && p.constraints[i].src == n
  }

  // ----- well-formed states

  ghost predicate Bounded(p: Problem, st: State) {
    && (forall n: Node, l: Loc :: l in P(st, n) ==> n < p.nodes && l < |p.kinds|)
    && (forall l: Loc, x: Loc :: x in M(st, l) ==> l < |p.kinds| && x < |p.kinds|)
  }

  /** The dedup guard holds exactly what the delta lists hold. */
  ghost predicate Guards(pending: set<(Node, Loc)>, delta: map<Node, seq<Loc>>) {
    forall n: Node, l: Loc :: (n, l) in pending <==> l in DeltaOf(delta, n)
  }

  ghost predicate DeltaOk(st: State) {
    && (forall n :: NoDup(D(st, n)))
    && (forall n, l :: l in D(st, n) ==> l in P(st, n) && n in st.queued)
    && Guards(st.pending, st.delta)
  }

  ghost predicate QueueOk(p: Problem, st: State) {
    && NoDup(st.worklist)
    && (forall n :: n in st.queued <==> n in st.worklist)
    && (forall n :: n in st.queued ==> n < p.nodes)
  }

  /** The reverse index is exact. */
  ghost predicate HoldersOk(st: State) {
    forall n, l :: n in H(st, l) <==> l in P(st, n)
  }

  /** Whatever `cell` held up to the recorded size has reached `dst`. */
  ghost predicate Marked(p: Problem, st: State, dst: Node, cell: Loc) {
    var mem, seen := M(st, cell), SizeAt(st.sizes, dst, cell);
    && seen <= |mem|
    && forall k :: 0 <= k < seen && Admits(p, cell, mem[k]) ==> mem[k] in P(st, dst)
  }

  ghost predicate Watermarks(p: Problem, st: State) {
    forall dst, cell :: Marked(p, st, dst, cell)
  }

  ghost predicate SyncOk(p: Problem, st: State) {
    && (forall n :: n in st.synced ==> st.synced[n] in st.owner && st.owner[st.synced[n]] == n)
    && (forall c :: c in st.owner ==>
          c in p.ownCell && p.ownCell[c] == st.owner[c] && st.owner[c] in st.synced && st.synced[st.owner[c]] == c)
  }

  ghost predicate Wf(p: Problem, st: State) {
    && Bounded(p, st)
    && DeltaOk(st)
    && QueueOk(p, st)
    && (forall l :: NoDup(M(st, l)))
    && HoldersOk(st)
    && Watermarks(p, st)
    && SyncOk(p, st)
  }

  /** Every fact of the state is a fact of `s`. */
  ghost predicate Below(st: State, s: Solution) {
    && (forall n: Node, x: Loc :: x in P(st, n) ==> s.Pt(n, x))
    && (forall l: Loc, x: Loc :: x in M(st, l) ==> s.Mem(l, x))
  }

  // ----- steps

  /** Every loader that holds `l` will look at it again. */
  ghost predicate Touched(p: Problem, st: State, l: Loc) {
    forall n :: IsLoadSrc(p, n) && l in P(st, n) ==> l in D(st, n)
  }

  ghost predicate LiftedTo(p: Problem, st: State, cell: Loc, n: Node) {
    forall x :: x in M(st, cell) && Admits(p, cell, x) ==> x in P(st, n)
  }

  /** Nobody is missing what `l`'s cell holds. */
  ghost predicate Absorbed(p: Problem, st: State, l: Loc) {
    Touched(p, st, l) && (l in st.owner ==> LiftedTo(p, st, l, st.owner[l]))
  }

  /** A step: facts only grow, a location becomes settled only by being popped,
      and a cell that grew has been absorbed unless it is in `dirty`. */
  ghost predicate Ext(p: Problem, st: State, st': State, dirty: set<Loc>) {
    && (forall n :: P(st, n) <= P(st', n))
    && (forall l :: M(st, l) <= M(st', l))
    && (forall n, l :: Settled(st', n, l) ==> Settled(st, n, l))
    && (forall l :: M(st, l) == M(st', l) || l in dirty || Absorbed(p, st', l))
    && st.constraints <= st'.constraints && st.queued <= st'.queued
    && (forall cs :: R(st, cs) <= R(st', cs))
    && LinksGrow(st, st', |st.constraints|)
    && Owns(p, st, st', dirty)
  }

  /** Records only grow, and whether an existing constraint owes is settled. */
  ghost predicate LinksGrow(st: State, st': State, n: nat) {
    && MoreLinks(st.links, st'.links)
    && forall i: nat :: i < n ==> Owed(st', i) == Owed(st, i)
  }

  ghost predicate MoreLinks(a: Links, b: Links) {
    && a.wired <= b.wired && a.model <= b.model
    && a.registered <= b.registered && a.waiting <= b.waiting && a.watch <= b.watch
  }

  /** Cells stay with their variables, and one that joins has exchanged contents
      with its variable unless it is in `dirty`. */
  ghost predicate Owns(p: Problem, st: State, st': State, dirty: set<Loc>) {
    && (forall c :: c in st.owner ==> c in st'.owner && st'.owner[c] == st.owner[c])
    && (forall n :: n in st.synced ==> n in st'.synced && st'.synced[n] == st.synced[n])
    && (forall c :: c in st'.owner && c !in st.owner ==> c in dirty || LiftedTo(p, st', c, st'.owner[c]))
    && (forall n, x :: n in st'.synced && n !in st.synced ==> st'.synced[n] in dirty || ObSync(p, st', n, x))
  }

  ghost predicate SameFacts(st: State, st': State) {
    && (forall n :: P(st, n) == P(st', n))
    && (forall l :: M(st, l) == M(st', l))
    && (forall cs, f :: f in R(st', cs) ==> f in R(st, cs))
    && st'.links.wired <= st.links.wired
  }

  /** Nothing is queued unless something was learnt. */
  ghost predicate Quiet(st: State, st': State) {
    SameFacts(st, st') ==> st'.worklist == st.worklist
  }

  lemma LinksSame(st: State, st': State, n: nat)
    requires st'.links == st.links && st'.owing == st.owing
    ensures LinksGrow(st, st', n)
  {
    forall i: nat ensures Owed(st', i) == Owed(st, i) {}
  }

  lemma ExtRefl(p: Problem, st: State)
    ensures Ext(p, st, st, {}) && Quiet(st, st)
  {
  }

  lemma AbsorbedStays(p: Problem, st: State, st': State, dirty: set<Loc>, l: Loc)
    requires Ext(p, st, st', dirty) && Absorbed(p, st, l) && l !in dirty
    ensures Absorbed(p, st', l)
  {
    if M(st, l) == M(st', l) {
      forall n | IsLoadSrc(p, n) && l in P(st', n) ensures l in D(st', n) {
        assert Settled(st', n, l) || l in D(st', n);
      }
    }
  }

  /** What is pending stays pending until its node is popped. */
  lemma PendingStays(p: Problem, st: State, st': State, dirty: set<Loc>, n: Node, l: Loc)
    requires Ext(p, st, st', dirty) && l in D(st, n) && l in P(st, n)
    ensures l in D(st', n)
  {
    assert P(st, n) <= P(st', n);
    assert Settled(st', n, l) || l in D(st', n);
  }

  lemma ExtTrans(p: Problem, s0: State, s1: State, s2: State, d1: set<Loc>, d2: set<Loc>)
    requires Ext(p, s0, s1, d1) && Ext(p, s1, s2, d2)
    ensures Ext(p, s0, s2, d1 + d2)
  {
    forall l ensures M(s0, l) == M(s2, l) || l in d1 + d2 || Absorbed(p, s2, l) {
      if l !in d1 + d2 && M(s0, l) != M(s2, l) {
        if M(s1, l) == M(s2, l) {
          AbsorbedStays(p, s1, s2, d2, l);
        }
      }
    }
    forall n ensures P(s0, n) <= P(s2, n) {
      assert P(s0, n) <= P(s1, n);
    }
    forall n, l | Settled(s2, n, l) ensures Settled(s0, n, l) {
      assert Settled(s1, n, l);
    }
    forall l ensures M(s0, l) <= M(s2, l) {
      assert M(s0, l) <= M(s1, l);
    }
    forall cs ensures R(s0, cs) <= R(s2, cs) {
      assert R(s0, cs) <= R(s1, cs);
    }
    OwnsTrans(p, s0, s1, s2, d1, d2);
  }

  lemma OwnsTrans(p: Problem, s0: State, s1: State, s2: State, d1: set<Loc>, d2: set<Loc>)
    requires Ext(p, s0, s1, d1) && Ext(p, s1, s2, d2)
    ensures Owns(p, s0, s2, d1 + d2)
  {
    forall c | c in s2.owner && c !in s0.owner ensures c in d1 + d2 || LiftedTo(p, s2, c, s2.owner[c]) {
      if c in s1.owner && c !in d1 + d2 {
        assert LiftedTo(p, s1, c, s1.owner[c]);
        if M(s1, c) == M(s2, c) {
          assert P(s1, s1.owner[c]) <= P(s2, s1.owner[c]);
        } else {
          assert Absorbed(p, s2, c);
        }
      }
    }
    forall n, x | n in s2.synced && n !in s0.synced ensures s2.synced[n] in d1 + d2 || ObSync(p, s2, n, x) {
      if n in s1.synced {
        assert s2.synced[n] == s1.synced[n];
        assert s1.synced[n] in d1 || ObSync(p, s1, n, x);
        assert Settled(s2, n, x) ==> Settled(s1, n, x);
        assert M(s1, s1.synced[n]) <= M(s2, s1.synced[n]);
      }
    }
  }

  lemma CleanTrans(p: Problem, s0: State, s1: State, s2: State, dirty: set<Loc>)
    requires Ext(p, s0, s1, dirty) && Ext(p, s1, s2, {})
    ensures Ext(p, s0, s2, dirty)
  {
    hide Ext;
    ExtTrans(p, s0, s1, s2, dirty, {});
    assert dirty + {} == dirty;
  }

  /** A grown cell that has been absorbed is no longer dirty. */
  lemma Absorb(p: Problem, st: State, st': State, dirty: set<Loc>, clean: set<Loc>)
    requires Ext(p, st, st', dirty)
    requires forall l :: l in dirty && l !in clean && M(st, l) != M(st', l) ==> Absorbed(p, st', l)
    requires forall l :: l in dirty && l !in clean && l in st'.owner && l !in st.owner ==> LiftedTo(p, st', l, st'.owner[l])
    requires forall n, x :: n in st'.synced && n !in st.synced && st'.synced[n] in dirty && st'.synced[n] !in clean ==> ObSync(p, st', n, x)
    ensures Ext(p, st, st', clean)
  {
  }

  /** Every synced cell's contents have reached its variable. */
  ghost predicate CellsLifted(p: Problem, st: State) {
    forall c :: c in st.owner ==> LiftedTo(p, st, c, st.owner[c])
  }

  lemma CellsLiftedStays(p: Problem, st: State, st': State)
    requires CellsLifted(p, st) && Ext(p, st, st', {})
    ensures CellsLifted(p, st')
  {
    forall c | c in st'.owner ensures LiftedTo(p, st', c, st'.owner[c]) {
      if c in st.owner && M(st, c) == M(st', c) {
        assert LiftedTo(p, st, c, st.owner[c]);
        assert P(st, st.owner[c]) <= P(st', st.owner[c]);
      }
    }
  }

  lemma QuietTrans(p: Problem, s0: State, s1: State, s2: State, d1: set<Loc>, d2: set<Loc>)
    requires Ext(p, s0, s1, d1) && Ext(p, s1, s2, d2) && Quiet(s0, s1) && Quiet(s1, s2)
    ensures Quiet(s0, s2)
  {
    hide Absorbed, Owns;
    if SameFacts(s0, s2) {
      forall n ensures P(s0, n) == P(s1, n) == P(s2, n) {
        assert P(s0, n) <= P(s1, n) <= P(s2, n);
      }
      forall l ensures M(s0, l) == M(s1, l) == M(s2, l) {
        assert M(s0, l) <= M(s1, l) <= M(s2, l);
      }
      forall cs, f | f in R(s1, cs) ensures f in R(s2, cs) { assert R(s1, cs) <= R(s2, cs); }
      forall cs, f | f in R(s2, cs) ensures f in R(s1, cs) {
        assert f in R(s0, cs) && R(s0, cs) <= R(s1, cs);
      }
    }
  }

  // ----- obligations

  ghost predicate LoadOk(p: Problem, st: State, dst: Node, l: Loc) {
    && (IsFn(p, l) ==> l in P(st, dst))
    && (IsCell(p, l) ==> LiftedTo(p, st, l, dst))
  }

  /** A summary that reached its cap drops further writes. */
  ghost predicate InSummary(p: Problem, st: State, s: Loc, x: Loc) {
    x in M(st, s) || |M(st, s)| >= SUMMARY_MEM_CAP
  }

  ghost predicate StoreOk(p: Problem, st: State, l: Loc, x: Loc) {
    IsCell(p, l) ==>
      && (Admits(p, l, x) ==> x in M(st, l))
      && (l in p.summary && Passes(p, SummaryFilter(p, p.summary[l]), x) ==> InSummary(p, st, p.summary[l], x))
  }

  ghost predicate SelfOk(p: Problem, st: State, l: Loc, self: Loc) {
    IsCell(p, l) ==> self in M(st, l) && (l in p.summary ==> InSummary(p, st, p.summary[l], self))
  }

  /** Constraint `c` has been applied to location `l` of its driving node, if
      that node has settled `l`. */
  ghost predicate Ob(p: Problem, st: State, c: Constraint, l: Loc) {
    match c
    case AddrOf(dst, _, loc) => loc in P(st, dst)
    case Load(dst, src) => Settled(st, src, l) ==> LoadOk(p, st, dst, l)
    case Store(dst, src) => Settled(st, dst, l) && src in p.selfLoc ==> SelfOk(p, st, l, p.selfLoc[src])
    case _ => Settled(st, c.src, l) ==> forall y :: y in Passed(c, l) ==> y in P(st, c.dst)
  }

  /** Store `c` has written value `x` through target `l`, both being settled. */
  ghost predicate ObStore(p: Problem, st: State, c: Constraint, l: Loc, x: Loc) {
    c.Store? && Settled(st, c.dst, l) && Settled(st, c.src, x) ==> StoreOk(p, st, l, x)
  }

  /** What a synced variable settled is in its cell. */
  ghost predicate ObSync(p: Problem, st: State, n: Node, x: Loc) {
    n in st.synced && Settled(st, n, x) && Admits(p, st.synced[n], x) ==> x in M(st, st.synced[n])
  }

  ghost predicate ObCall(p: Problem, st: State, t: Node, l: Loc) {
    Settled(st, t, l) ==> forall cs, f :: Hits(p, t, l, cs, f) ==> f in R(st, cs)
  }

  lemma ObStays(p: Problem, st: State, st': State, c: Constraint, l: Loc)
    requires Ext(p, st, st', {}) && Ob(p, st, c, l)
    requires c.Load? ==> c in p.constraints
    ensures Ob(p, st', c, l)
  {
    hide Owns, LinksGrow;
    match c
    case AddrOf(dst, _, loc) =>
      assert P(st, dst) <= P(st', dst);
    case Load(dst, src) =>
      if Settled(st', src, l) {
        assert Settled(st, src, l);
        assert P(st, dst) <= P(st', dst);
        var i :| 0 <= i < |p.constraints| && p.constraints[i] == c;
        assert IsLoadSrc(p, src);
        assert !Touched(p, st', l);
      }
    case Store(dst, src) =>
      if Settled(st', dst, l) {
        assert Settled(st, dst, l);
        assert M(st, l) <= M(st', l);
        if l in p.summary { assert M(st, p.summary[l]) <= M(st', p.summary[l]); }
      }
    case _ =>
      if Settled(st', c.src, l) {
        assert Settled(st, c.src, l);
        assert P(st, c.dst) <= P(st', c.dst);
      }
  }

  lemma ObStoreStays(p: Problem, st: State, st': State, c: Constraint, l: Loc, x: Loc)
    requires Ext(p, st, st', {}) && ObStore(p, st, c, l, x)
    ensures ObStore(p, st', c, l, x)
  {
    if c.Store? && Settled(st', c.dst, l) && Settled(st', c.src, x) {
      assert Settled(st, c.dst, l) && Settled(st, c.src, x);
      StoreOkStays(p, st, st', {}, l, x);
    }
  }

  lemma StoreOkStays(p: Problem, st: State, st': State, d: set<Loc>, l: Loc, x: Loc)
    requires Ext(p, st, st', d)
    ensures StoreOk(p, st, l, x) ==> StoreOk(p, st', l, x)
    ensures SelfOk(p, st, l, x) ==> SelfOk(p, st', l, x)
  {
    assert M(st, l) <= M(st', l);
    if l in p.summary { assert M(st, p.summary[l]) <= M(st', p.summary[l]); }
  }

  /** Flow constraint `c` has passed on what it makes of `ls`. */
  ghost predicate Flowed(st: State, c: Constraint, ls: seq<Loc>) {
    forall l, y {:trigger l in ls, y in Passed(c, l)} :: l in ls && y in Passed(c, l) ==> y in P(st, c.dst)
  }

  lemma FlowedStays(p: Problem, st: State, st': State, c: Constraint, ls: seq<Loc>)
    requires Flowed(st, c, ls) && Ext(p, st, st', {})
    ensures Flowed(st', c, ls)
  {
    assert P(st, c.dst) <= P(st', c.dst);
  }

  /** Store targets `ls` hold all of `src`, and of `self`, that they admit. */
  ghost predicate Stored(p: Problem, st: State, ls: seq<Loc>, src: seq<Loc>, self: seq<Loc>) {
    && (forall l, x {:trigger StoreOk(p, st, l, x)} :: l in ls && x in src ==> StoreOk(p, st, l, x))
    && (forall l, x {:trigger SelfOk(p, st, l, x)} :: l in ls && x in self ==> SelfOk(p, st, l, x))
  }

  lemma StoredStays(p: Problem, st: State, st': State, d: set<Loc>, ls: seq<Loc>, src: seq<Loc>, self: seq<Loc>)
    requires Stored(p, st, ls, src, self) && Ext(p, st, st', d)
    ensures Stored(p, st', ls, src, self)
  {
    forall l, x
      ensures StoreOk(p, st, l, x) ==> StoreOk(p, st', l, x)
      ensures SelfOk(p, st, l, x) ==> SelfOk(p, st', l, x)
    {
      StoreOkStays(p, st, st', d, l, x);
    }
  }

  lemma TouchedStays(p: Problem, st: State, st': State, d: set<Loc>, l: Loc)
    requires Ext(p, st, st', d) && Touched(p, st, l)
    ensures Touched(p, st', l)
  {
    forall n | IsLoadSrc(p, n) && l in P(st', n) ensures l in D(st', n) {
      assert Settled(st', n, l) || l in D(st', n);
    }
  }

  lemma ObSyncStays(p: Problem, st: State, st': State, n: Node, x: Loc)
    requires Ext(p, st, st', {}) && ObSync(p, st, n, x)
    ensures ObSync(p, st', n, x)
  {
    if n in st.synced && Settled(st', n, x) {
      assert Settled(st, n, x);
      assert M(st, st.synced[n]) <= M(st', st.synced[n]);
    }
  }

  /** A copy added while its source had settled something its destination
      lacked may owe that for ever. */
  ghost predicate Owes(st: State, i: nat, l: Loc)
    requires i < |st.constraints|
  {
    l in Owed(st, i) && st.constraints[i].Copy?
  }

  lemma ObCallStays(p: Problem, st: State, st': State, t: Node, l: Loc)
    requires Ext(p, st, st', {}) && ObCall(p, st, t, l)
    ensures ObCall(p, st', t, l)
  {
    if Settled(st', t, l) {
      assert Settled(st, t, l);
      forall cs, f | Hits(p, t, l, cs, f) ensures f in R(st', cs) {
        assert R(st, cs) <= R(st', cs);
      }
    }
  }

  // ----- calls

  /** Every address the program assigns is where it was assigned to. */
  ghost predicate AddressesGiven(p: Problem, st: State) {
    forall i :: 0 <= i < |p.constraints| && p.constraints[i].AddrOf? ==> p.constraints[i].loc in P(st, p.constraints[i].dst)
  }

  /** The formal holds every address the program assigns to the actual. */
  ghost predicate PassesAddresses(p: Problem, st: State, actual: Node, formal: Node) {
    forall i :: 0 <= i < |p.constraints| && p.constraints[i].AddrOf? && p.constraints[i].dst == actual ==>
      p.constraints[i].loc in P(st, formal)
  }

  lemma AddressesStay(p: Problem, st: State, st': State)
    requires AddressesGiven(p, st) && forall n :: P(st, n) <= P(st', n)
    ensures AddressesGiven(p, st')
  {
    forall i | 0 <= i < |p.constraints| && p.constraints[i].AddrOf? ensures p.constraints[i].loc in P(st', p.constraints[i].dst) {
      assert P(st, p.constraints[i].dst) <= P(st', p.constraints[i].dst);
    }
  }

  lemma AddressesPassed(p: Problem, st: State, st': State, actual: Node, formal: Node)
    requires AddressesGiven(p, st) && P(st, actual) <= P(st', formal)
    ensures PassesAddresses(p, st', actual, formal)
  {
  }

  ghost predicate WireOk(p: Problem, st: State, w: Wire) {
    match w
    case Param(a, m, persistent) => (persistent ==> (a, m) in st.links.wired) && PassesAddresses(p, st, a, m)
    case FnArg(m, f) => f in P(st, m)
    case Returned(d, _, l) => l in P(st, d) && (l in p.ownCell ==> l in st.owner)
    case ReturnedCopy(d, r) => Copy(d, r) in st.constraints
    case Aliased(d, r) => (r, d) in st.links.model
    case Content(q, v) => (v, q) in st.links.model
    case Registers(n) => n in st.links.registered
    case Waits(n) => n in st.links.waiting
    case Requeues(_) => true
    case Watches(n, k) => (n, k) in st.links.watch
  }

  lemma WireStays(p: Problem, st: State, st': State, w: Wire)
    requires WireOk(p, st, w)
    requires (forall n :: P(st, n) <= P(st', n)) && st.owner.Keys <= st'.owner.Keys
    requires MoreLinks(st.links, st'.links) && st.constraints <= st'.constraints
    ensures WireOk(p, st', w)
  {
    match w
    case Param(_, m, _) => assert P(st, m) <= P(st', m);
    case FnArg(m, f) => assert P(st, m) <= P(st', m);
    case Returned(d, _, l) =>
      assert P(st, d) <= P(st', d);
      assert l in p.ownCell ==> l in st.owner.Keys;
    case _ =>
  }

  /** What handover `k` forwards to the function at `l` is in place. */
  ghost predicate ForwardOk(p: Problem, st: State, k: Handover, l: Loc) {
    forall w :: w in Forwarded(p, k, l) ==> WireOk(p, st, w)
  }

  /** Watched variable `n` has had its arguments forwarded to function `l`, if it
      has settled `l`. */
  ghost predicate ObWatch(p: Problem, st: State, n: Node, k: Handover, l: Loc) {
    Settled(st, n, l) && IsFn(p, l) ==> ForwardOk(p, st, k, l)
  }

  /** Watchers from number `n` on owe nothing. */
  ghost predicate WatchOk(p: Problem, st: State, n: nat) {
    forall j, l :: n <= j < |st.links.watch| ==> ObWatch(p, st, st.links.watch[j].0, st.links.watch[j].1, l)
  }

  /** No watcher of `node` among the first `n` owes anything for `ls`. */
  ghost predicate WatchedFor(p: Problem, st: State, n: nat, node: Node, ls: seq<Loc>) {
    forall j, l :: 0 <= j < n && j < |st.links.watch| && Open(node, ls, st.links.watch[j].0, l) ==>
      ObWatch(p, st, st.links.watch[j].0, st.links.watch[j].1, l)
  }

  lemma ForwardStays(p: Problem, st: State, st': State, k: Handover, l: Loc)
    requires Ext(p, st, st', {}) && ForwardOk(p, st, k, l)
    ensures ForwardOk(p, st', k, l)
  {
    hide Absorbed, LiftedTo, ObSync;
    assert st.owner.Keys <= st'.owner.Keys;
    forall w | w in Forwarded(p, k, l) ensures WireOk(p, st', w) {
      WireStays(p, st, st', w);
    }
  }

  lemma ObWatchStays(p: Problem, st: State, st': State, n: Node, k: Handover, l: Loc)
    requires Ext(p, st, st', {}) && ObWatch(p, st, n, k, l)
    ensures ObWatch(p, st', n, k, l)
  {
    hide ForwardOk, Owns, LinksGrow, Absorbed;
    if Settled(st', n, l) && IsFn(p, l) {
      assert Settled(st, n, l);
      ForwardStays(p, st, st', k, l);
    }
  }

  lemma WatchStays(p: Problem, st: State, st': State, n: nat)
    requires Ext(p, st, st', {}) && WatchOk(p, st, n) && WatchOk(p, st', |st.links.watch|)
    ensures WatchOk(p, st', n)
  {
    hide ObWatch;
    WatchersStay(p, st, st');
    hide Ext;
    forall j, l | n <= j < |st'.links.watch| ensures ObWatch(p, st', st'.links.watch[j].0, st'.links.watch[j].1, l) {
      if j < |st.links.watch| {
        ObWatchStays(p, st, st', st.links.watch[j].0, st.links.watch[j].1, l);
      }
    }
  }

  lemma WatchersStay(p: Problem, st: State, st': State)
    requires Ext(p, st, st', {})
    ensures st.links.watch <= st'.links.watch
  {
    hide Owns, Absorbed;
  }

  lemma WatchedForStays(p: Problem, st: State, st': State, n: nat, node: Node, ls: seq<Loc>)
    requires Ext(p, st, st', {}) && WatchedFor(p, st, n, node, ls) && n <= |st.links.watch|
    ensures WatchedFor(p, st', n, node, ls)
  {
    hide ObWatch;
    WatchersStay(p, st, st');
    hide Ext;
    forall j, l | 0 <= j < n && Open(node, ls, st'.links.watch[j].0, l)
      ensures ObWatch(p, st', st'.links.watch[j].0, st'.links.watch[j].1, l)
    {
      assert st'.links.watch[j] == st.links.watch[j];
      ObWatchStays(p, st, st', st.links.watch[j].0, st.links.watch[j].1, l);
    }
  }

  /** Every wire of callee `f` at site `cs` is in place. */
  ghost predicate CallOk(p: Problem, st: State, cs: CallSite, f: FnId) {
    forall w :: w in Wires(p, cs, f) ==> WireOk(p, st, w)
  }

  ghost predicate Called(p: Problem, st: State, cs: CallSite, f: FnId) {
    exists t, l :: l in P(st, t) && Hits(p, t, l, cs, f)
  }

  /** Constraint `i` is a copy from `a` to `m` that owes nothing. */
  ghost predicate CopyAt(st: State, i: nat, a: Node, m: Node) {
    i < |st.constraints| && st.constraints[i] == Copy(m, a) && Owed(st, i) == {}
  }

  ghost predicate Joins(p: Problem, st: State, a: Node, m: Node) {
    a < p.nodes && m < p.nodes && exists i :: CopyAt(st, i, a, m)
  }

  ghost predicate OwingAdded(p: Problem, st: State) {
    && |p.constraints| <= |st.constraints|
    && (forall i :: 0 <= i < |p.constraints| ==> Owed(st, i) == {})
    && OwedHeld(st, 0)
  }

  /** What constraints from number `n` on owe, their sources hold. */
  ghost predicate OwedHeld(st: State, n: nat) {
    forall i, l :: n <= i < |st.constraints| && l in Owed(st, i) ==> l in P(st, st.constraints[i].src)
  }

  /** A pair of arguments a model effect was applied to. */
  ghost predicate Modelled(p: Problem, st: State, v: Node, q: Node) {
    Clash(p, q, v) || Store(q, v) in st.constraints
  }

  /** Each wired pair and each pair of event objects is a copy constraint, each
      stored pair a store, each resolved callee was found, and only added
      constraints owe. */
  ghost predicate WiringOk(p: Problem, st: State) {
    && OwingAdded(p, st)
    && (forall a, m :: (a, m) in st.links.wired ==> Joins(p, st, a, m))
    && (forall v, q :: (v, q) in st.links.model ==> Modelled(p, st, v, q))
    && (forall a, b :: a in st.links.registered && b in st.links.waiting ==> Joins(p, st, a, b))
    && (forall cs, f :: f in R(st, cs) ==> Called(p, st, cs, f))
  }

  ghost predicate CallsWired(p: Problem, st: State) {
    forall cs, f :: f in R(st, cs) ==> CallOk(p, st, cs, f)
  }

  /** Every resolved callee but `f` at `cs` is wired. */
  ghost predicate OthersWired(p: Problem, st: State, cs: CallSite, f: FnId) {
    forall c: CallSite, g: FnId :: g in R(st, c) && (c != cs || g != f) ==> CallOk(p, st, c, g)
  }

  /** Site `cs` has every callee that locations `ls` of its target `t` name. */
  ghost predicate SiteDone(p: Problem, st: State, t: Node, cs: CallSite, ls: seq<Loc>) {
    forall l, f :: l in ls && Hits(p, t, l, cs, f) ==> f in R(st, cs)
  }

  lemma SiteDoneStays(p: Problem, st: State, st': State, t: Node, cs: CallSite, ls: seq<Loc>)
    requires Ext(p, st, st', {}) && SiteDone(p, st, t, cs, ls)
    ensures SiteDone(p, st', t, cs, ls)
  {
    assert R(st, cs) <= R(st', cs);
  }

  /** Obligations of the constraints wired since there were `n`. */
  ghost predicate SinceOk(p: Problem, st: State, n: nat) {
    && (forall i, l :: n <= i < |st.constraints| && !Owes(st, i, l) ==> Ob(p, st, st.constraints[i], l))
    && (forall i, l, x :: n <= i < |st.constraints| ==> ObStore(p, st, st.constraints[i], l, x))
  }

  lemma CallOkStays(p: Problem, st: State, st': State, cs: CallSite, f: FnId)
    requires Ext(p, st, st', {})
    ensures CallOk(p, st, cs, f) ==> CallOk(p, st', cs, f)
    ensures Called(p, st, cs, f) ==> Called(p, st', cs, f)
  {
    assert st.owner.Keys <= st'.owner.Keys;
    forall w | WireOk(p, st, w) ensures WireOk(p, st', w) {
      WireStays(p, st, st', w);
    }
    if Called(p, st, cs, f) {
      var t, l :| l in P(st, t) && Hits(p, t, l, cs, f);
      assert P(st, t) <= P(st', t);
    }
  }

  lemma JoinsStays(p: Problem, st: State, st': State, a: Node, m: Node)
    requires Joins(p, st, a, m) && st.constraints <= st'.constraints
    requires LinksGrow(st, st', |st.constraints|)
    ensures Joins(p, st', a, m)
  {
    var i :| CopyAt(st, i, a, m);
    assert CopyAt(st', i, a, m);
  }

  lemma ModelledStays(p: Problem, st: State, st': State, v: Node, q: Node)
    requires Modelled(p, st, v, q) && st.constraints <= st'.constraints
    ensures Modelled(p, st', v, q)
  {
    if !Clash(p, q, v) {
      var i :| 0 <= i < |st.constraints| && st.constraints[i] == Store(q, v);
      assert st'.constraints[i] == Store(q, v);
    }
  }

  /** A step that wires nothing keeps the wiring. */
  lemma WiringStays(p: Problem, st: State, st': State)
    requires Ext(p, st, st', {}) && WiringOk(p, st)
    requires st'.links == st.links && st'.resolved == st.resolved && OwedHeld(st', |st.constraints|)
    ensures WiringOk(p, st')
  {
    hide Owns, Joins, Modelled, Called;
    forall a, m | (a, m) in st'.links.wired ensures Joins(p, st', a, m) {
      JoinsStays(p, st, st', a, m);
    }
    forall v, q | (v, q) in st'.links.model ensures Modelled(p, st', v, q) {
      ModelledStays(p, st, st', v, q);
    }
    forall a, b | a in st'.links.registered && b in st'.links.waiting ensures Joins(p, st', a, b) {
      JoinsStays(p, st, st', a, b);
    }
    forall cs, f | f in R(st', cs) ensures Called(p, st', cs, f) {
      CallOkStays(p, st, st', cs, f);
    }
  }

  lemma CallsWiredStays(p: Problem, st: State, st': State)
    requires Ext(p, st, st', {}) && CallsWired(p, st) && st'.resolved == st.resolved
    ensures CallsWired(p, st')
  {
    forall cs, f | f in R(st', cs) ensures CallOk(p, st', cs, f) {
      assert f in R(st, cs);
      CallOkStays(p, st, st', cs, f);
    }
  }

  lemma AllWired(p: Problem, st: State, st': State, cs: CallSite, f: FnId)
    requires Ext(p, st, st', {}) && OthersWired(p, st, cs, f) && st'.resolved == st.resolved
    requires CallOk(p, st', cs, f)
    ensures CallsWired(p, st')
  {
    forall c, g | g in R(st', c) ensures CallOk(p, st', c, g) {
      assert g in R(st, c);
      CallOkStays(p, st, st', c, g);
    }
  }

  /** A newly resolved callee is a step; only its own wiring is still due. */
  lemma ResolvedAdded(p: Problem, st: State, st': State, s: Solution, cs: CallSite, f: FnId)
    requires Wf(p, st) && Below(st, s) && WiringOk(p, st) && CallsWired(p, st) && Called(p, st, cs, f)
    requires st' == st.(resolved := st.resolved[cs := R(st, cs) + [f]])
    ensures Wf(p, st') && Below(st', s) && Ext(p, st, st', {}) && WiringOk(p, st')
    ensures OthersWired(p, st', cs, f)
  {
    forall n ensures P(st', n) == P(st, n) && D(st', n) == D(st, n) {}
    forall l ensures M(st', l) == M(st, l) && H(st', l) == H(st, l) {}
    forall d, c ensures Marked(p, st', d, c) { assert Marked(p, st, d, c); }
    forall n, l | Settled(st', n, l) ensures Settled(st, n, l) {}
    forall c ensures R(st, c) <= R(st', c) {}
    LinksSame(st, st', |st.constraints|);
    hide LinksGrow, OwingAdded;
    assert Ext(p, st, st', {});
    ResolvedWiring(p, st, st', cs, f);
  }

  lemma ResolvedWiring(p: Problem, st: State, st': State, cs: CallSite, f: FnId)
    requires WiringOk(p, st) && CallsWired(p, st) && Called(p, st, cs, f) && Ext(p, st, st', {})
    requires st' == st.(resolved := st.resolved[cs := R(st, cs) + [f]])
    ensures WiringOk(p, st') && OthersWired(p, st', cs, f)
  {
    hide Ext, Joins, Modelled;
    var st1 := st'.(resolved := st.resolved);
    assert st1 == st;
    OwingSame(p, st, st');
    forall a, m | Joins(p, st, a, m) ensures Joins(p, st', a, m) { SameJoins(p, st, st', a, m); }
    forall v, q | Modelled(p, st, v, q) ensures Modelled(p, st', v, q) { ModelledStays(p, st, st', v, q); }
    forall c: CallSite, g: FnId | g in R(st', c) ensures Called(p, st', c, g) && (c != cs || g != f ==> CallOk(p, st', c, g)) {
      assert g in R(st, c) || (c == cs && g == f);
      CallOkStays(p, st, st', c, g);
    }
  }

  lemma OwingSame(p: Problem, st: State, st': State)
    requires OwingAdded(p, st) && st'.constraints == st.constraints && st'.owing == st.owing && st'.pts == st.pts
    ensures OwingAdded(p, st')
  {
    forall i: nat ensures Owed(st', i) == Owed(st, i) {}
    forall n ensures P(st', n) == P(st, n) {}
  }

  lemma SameJoins(p: Problem, st: State, st': State, a: Node, m: Node)
    requires Joins(p, st, a, m) && st'.constraints == st.constraints && st'.owing == st.owing
    ensures Joins(p, st', a, m)
  {
    var i :| CopyAt(st, i, a, m);
    assert CopyAt(st', i, a, m);
  }

  lemma SinceStays(p: Problem, st: State, st': State, n: nat)
    requires Ext(p, st, st', {}) && SinceOk(p, st, n) && SinceOk(p, st', |st.constraints|)
    requires forall i :: n <= i < |st.constraints| ==> !st.constraints[i].Load?
    ensures SinceOk(p, st', n)
  {
    hide Ob, ObStore, Owns, Absorbed;
    forall i, l | n <= i < |st'.constraints| && !Owes(st', i, l) ensures Ob(p, st', st'.constraints[i], l) {
      if i < |st.constraints| {
        assert st'.constraints[i] == st.constraints[i] && !Owes(st, i, l);
        ObStays(p, st, st', st.constraints[i], l);
      }
    }
    forall i, l, x | n <= i < |st'.constraints| ensures ObStore(p, st', st'.constraints[i], l, x) {
      if i < |st.constraints| {
        assert st'.constraints[i] == st.constraints[i];
        ObStoreStays(p, st, st', st.constraints[i], l, x);
      }
    }
  }

  // ----- closure

  /** The node whose new locations make a constraint fire. */
  function Driver(c: Constraint): Node {
    if c.Store? then c.dst else c.src
  }

  /** `l` is one of the locations `node` is just propagating, and `n` is `node`. */
  ghost predicate Open(node: Node, ls: seq<Loc>, n: Node, l: Loc) {
    n == node && l in ls
  }

  ghost predicate Fires(c: Constraint, node: Node, ls: seq<Loc>, l: Loc) {
    !c.AddrOf? && Open(node, ls, Driver(c), l)
  }

  /** Every obligation is met, except those of `node` towards `ls`, the locations
      it is just propagating, and of copies that owe since they were added. */
  ghost predicate ClosedBut(p: Problem, st: State, node: Node, ls: seq<Loc>) {
    && (forall i, l :: 0 <= i < |st.constraints| && !Owes(st, i, l) && !Fires(st.constraints[i], node, ls, l) ==>
          Ob(p, st, st.constraints[i], l))
    && (forall i, l, x :: 0 <= i < |st.constraints| && !Open(node, ls, st.constraints[i].dst, l) && !Open(node, ls, st.constraints[i].src, x) ==>
          ObStore(p, st, st.constraints[i], l, x))
    && (forall n, x :: !Open(node, ls, n, x) ==> ObSync(p, st, n, x))
    && (forall t, l :: !Open(node, ls, t, l) ==> ObCall(p, st, t, l))
    && (forall j, l :: 0 <= j < |st.links.watch| && !Open(node, ls, st.links.watch[j].0, l) ==>
          ObWatch(p, st, st.links.watch[j].0, st.links.watch[j].1, l))
    && CellsLifted(p, st)
  }

  ghost predicate Closed(p: Problem, st: State) {
    && (forall i, l :: 0 <= i < |st.constraints| && !Owes(st, i, l) ==> Ob(p, st, st.constraints[i], l))
    && (forall i, l, x :: 0 <= i < |st.constraints| ==> ObStore(p, st, st.constraints[i], l, x))
    && (forall n, x :: ObSync(p, st, n, x))
    && (forall t, l :: ObCall(p, st, t, l))
    && WatchOk(p, st, 0)
    && CellsLifted(p, st)
  }

  /** The constraints `key` files under `node` owe nothing for `ls`. */
  ghost predicate KindDone(p: Problem, st: State, key: Constraint -> Option<Node>, node: Node, ls: seq<Loc>) {
    forall i, l :: 0 <= i < |st.constraints| && key(st.constraints[i]) == Some(node) && l in ls ==>
      Ob(p, st, st.constraints[i], l)
  }

  /** The constraints extend the problem's, and no load was added. */
  ghost predicate Joined(p: Problem, cs: seq<Constraint>) {
    p.constraints <= cs && forall i :: |p.constraints| <= i < |cs| ==> !cs[i].Load?
  }

  lemma LoadsGiven(p: Problem, cs: seq<Constraint>, i: nat)
    requires Joined(p, cs) && i < |cs|
    ensures cs[i].Load? ==> cs[i] in p.constraints
  {
    if i < |p.constraints| { assert cs[i] == p.constraints[i]; }
  }

  lemma KindDoneStays(p: Problem, st: State, st': State, key: Constraint -> Option<Node>, node: Node, ls: seq<Loc>)
    requires Ext(p, st, st', {}) && Joined(p, st.constraints) && st'.constraints == st.constraints
    requires KindDone(p, st, key, node, ls)
    ensures KindDone(p, st', key, node, ls)
  {
    hide Ext, Ob, Joined;
    forall i, l | 0 <= i < |st'.constraints| && key(st'.constraints[i]) == Some(node) && l in ls
      ensures Ob(p, st', st'.constraints[i], l)
    {
      LoadsGiven(p, st.constraints, i);
      ObStays(p, st, st', st.constraints[i], l);
    }
  }

  /** Popping `node`: its delta is taken and it leaves the queue. */
  ghost predicate Taken1(st: State, st': State, node: Node, ls: seq<Loc>) {
    && st.worklist != [] && node == st.worklist[|st.worklist| - 1] && ls == D(st, node)
    && st' == st.(
         worklist := st.worklist[..|st.worklist| - 1],
         queued := st.queued - {node},
         delta := st.delta[node := []],
         pending := st.pending - Marks(node, ls))
  }

  lemma TakenWf(p: Problem, st: State, st': State, node: Node, ls: seq<Loc>)
    requires Wf(p, st) && Taken1(st, st', node, ls)
    ensures Wf(p, st') && node < p.nodes
    ensures forall l :: l in ls ==> l in P(st', node)
    ensures forall n, l :: Settled(st', n, l) ==> Settled(st, n, l) || Open(node, ls, n, l)
  {
    forall n ensures P(st', n) == P(st, n) && D(st', n) == if n == node then [] else D(st, n) {}
    forall l ensures M(st', l) == M(st, l) && H(st', l) == H(st, l) {}
    forall d, c ensures Marked(p, st', d, c) { assert Marked(p, st, d, c); }
    assert node in st.worklist;
    forall n ensures n in st'.queued <==> n in st'.worklist {
      var w, k := st.worklist, |st.worklist| - 1;
      assert w == w[..k] + [w[k]];
      assert n in w <==> n in w[..k] || n == w[k];
      if n in w[..k] { var j :| 0 <= j < k && w[j] == n; }
    }
    assert DeltaOk(st') by {
      forall n: Node, l: Loc ensures (n, l) in st'.pending <==> l in DeltaOf(st'.delta, n) {
        assert (n, l) in st.pending <==> l in D(st, n);
        assert n != node ==> D(st', n) == D(st, n);
      }
      forall n ensures NoDup(D(st', n)) { assert NoDup(D(st, n)); }
    }
  }

  /** After a pop, only what the popped node is about to do is open. */
  lemma TakenClosed(p: Problem, st: State, st': State, node: Node, ls: seq<Loc>)
    requires Closed(p, st) && Taken1(st, st', node, ls)
    requires forall n, l :: Settled(st', n, l) ==> Settled(st, n, l) || Open(node, ls, n, l)
    ensures ClosedBut(p, st', node, ls)
  {
    forall n ensures P(st', n) == P(st, n) {}
    forall l ensures M(st', l) == M(st, l) {}
    forall i, l | 0 <= i < |st'.constraints| && !Owes(st', i, l) && !Fires(st'.constraints[i], node, ls, l)
      ensures Ob(p, st', st'.constraints[i], l)
    {
      assert !Owes(st, i, l) && Ob(p, st, st.constraints[i], l);
      TakenOb(p, st, st', st.constraints[i], l);
    }
    forall i, l, x | 0 <= i < |st'.constraints| && !Open(node, ls, st'.constraints[i].dst, l) && !Open(node, ls, st'.constraints[i].src, x)
      ensures ObStore(p, st', st'.constraints[i], l, x)
    {
      assert ObStore(p, st, st.constraints[i], l, x);
    }
    forall n, x | !Open(node, ls, n, x) ensures ObSync(p, st', n, x) { assert ObSync(p, st, n, x); }
    forall t, l | !Open(node, ls, t, l) ensures ObCall(p, st', t, l) { assert ObCall(p, st, t, l); }
    TakenWatch(p, st, st', node, ls);
    forall c | c in st'.owner ensures LiftedTo(p, st', c, st'.owner[c]) { assert LiftedTo(p, st, c, st.owner[c]); }
  }

  lemma TakenWatch(p: Problem, st: State, st': State, node: Node, ls: seq<Loc>)
    requires WatchOk(p, st, 0) && Taken1(st, st', node, ls)
    requires forall n, l :: Settled(st', n, l) ==> Settled(st, n, l) || Open(node, ls, n, l)
    ensures forall j, l :: 0 <= j < |st'.links.watch| && !Open(node, ls, st'.links.watch[j].0, l) ==>
      ObWatch(p, st', st'.links.watch[j].0, st'.links.watch[j].1, l)
  {
    forall n ensures P(st', n) == P(st, n) {}
    forall j, l | 0 <= j < |st'.links.watch| && !Open(node, ls, st'.links.watch[j].0, l)
      ensures ObWatch(p, st', st'.links.watch[j].0, st'.links.watch[j].1, l)
    {
      assert ObWatch(p, st, st.links.watch[j].0, st.links.watch[j].1, l);
      forall w | WireOk(p, st, w) ensures WireOk(p, st', w) { WireStays(p, st, st', w); }
    }
  }

  lemma TakenOb(p: Problem, st: State, st': State, c: Constraint, l: Loc)
    requires Ob(p, st, c, l)
    requires forall n :: P(st', n) == P(st, n)
    requires forall k :: M(st', k) == M(st, k)
    requires Settled(st', Driver(c), l) && !c.AddrOf? ==> Settled(st, Driver(c), l)
    ensures Ob(p, st', c, l)
  {
  }

  /** What a pop must have settled: each obligation it opened, and those of the
      constraints added meanwhile. */
  ghost predicate Reclosed(p: Problem, st: State, st': State, node: Node, ls: seq<Loc>) {
    && (forall i, l :: 0 <= i < |st.constraints| && Fires(st.constraints[i], node, ls, l) ==> Ob(p, st', st.constraints[i], l))
    && (forall i, l, x :: 0 <= i < |st.constraints| && (Open(node, ls, st.constraints[i].dst, l) || Open(node, ls, st.constraints[i].src, x)) ==>
          ObStore(p, st', st.constraints[i], l, x))
    && SinceOk(p, st', |st.constraints|)
    && (forall x :: x in ls ==> ObSync(p, st', node, x))
    && (forall l :: l in ls ==> ObCall(p, st', node, l))
    && WatchedFor(p, st', |st.links.watch|, node, ls) && WatchOk(p, st', |st.links.watch|)
  }

  /** With no pending difference left to make, the open part is closed again. */
  lemma ClosedAgain(p: Problem, st: State, st': State, node: Node, ls: seq<Loc>)
    requires ClosedBut(p, st, node, ls) && Ext(p, st, st', {}) && Joined(p, st.constraints)
    requires Reclosed(p, st, st', node, ls)
    ensures Closed(p, st')
  {
    hide Ext, Ob, ObStore, ObSync, ObCall, ClosedBut, Reclosed, Joined, WatchOk;
    forall i, l | 0 <= i < |st'.constraints| && !Owes(st', i, l) ensures Ob(p, st', st'.constraints[i], l) {
      ClosedAgainOb(p, st, st', node, ls, i, l);
    }
    forall i, l, x | 0 <= i < |st'.constraints| ensures ObStore(p, st', st'.constraints[i], l, x) {
      ClosedAgainStore(p, st, st', node, ls, i, l, x);
    }
    forall n, x ensures ObSync(p, st', n, x) { ClosedAgainSync(p, st, st', node, ls, n, x); }
    forall t, l ensures ObCall(p, st', t, l) { ClosedAgainSync(p, st, st', node, ls, t, l); }
    ClosedAgainWatch(p, st, st', node, ls);
    ClosedButLifted(p, st, node, ls);
    CellsLiftedStays(p, st, st');
  }

  lemma ClosedAgainWatch(p: Problem, st: State, st': State, node: Node, ls: seq<Loc>)
    requires ClosedBut(p, st, node, ls) && Ext(p, st, st', {}) && Reclosed(p, st, st', node, ls)
    ensures WatchOk(p, st', 0)
  {
    hide Ob, ObStore, ObSync, ObCall, CellsLifted, ObWatch, SinceOk;
    WatchersStay(p, st, st');
    hide Ext;
    forall j, l | 0 <= j < |st'.links.watch| ensures ObWatch(p, st', st'.links.watch[j].0, st'.links.watch[j].1, l) {
      if j < |st.links.watch| {
        assert st'.links.watch[j] == st.links.watch[j];
        if !Open(node, ls, st.links.watch[j].0, l) {
          ObWatchStays(p, st, st', st.links.watch[j].0, st.links.watch[j].1, l);
        }
      }
    }
  }

  lemma ClosedButLifted(p: Problem, st: State, node: Node, ls: seq<Loc>)
    requires ClosedBut(p, st, node, ls)
    ensures CellsLifted(p, st)
  {
  }

  lemma ClosedAgainOb(p: Problem, st: State, st': State, node: Node, ls: seq<Loc>, i: nat, l: Loc)
    requires ClosedBut(p, st, node, ls) && Ext(p, st, st', {}) && Joined(p, st.constraints)
    requires Reclosed(p, st, st', node, ls) && i < |st'.constraints| && !Owes(st', i, l)
    ensures Ob(p, st', st'.constraints[i], l)
  {
    hide Ob, ObStore, ObSync, ObCall, CellsLifted, Joined, Owns, Absorbed, WatchOk, WatchedFor, ObWatch;
    if i < |st.constraints| {
      var c := st.constraints[i];
      assert st'.constraints[i] == c && !Owes(st, i, l);
      if !Fires(c, node, ls, l) {
        assert Ob(p, st, c, l);
        LoadsGiven(p, st.constraints, i);
        ObStays(p, st, st', c, l);
      }
    }
  }

  lemma ClosedAgainStore(p: Problem, st: State, st': State, node: Node, ls: seq<Loc>, i: nat, l: Loc, x: Loc)
    requires ClosedBut(p, st, node, ls) && Ext(p, st, st', {})
    requires Reclosed(p, st, st', node, ls) && i < |st'.constraints|
    ensures ObStore(p, st', st'.constraints[i], l, x)
  {
    hide Ob, ObStore, ObSync, ObCall, CellsLifted, Owns, Absorbed, WatchOk, WatchedFor, ObWatch;
    if i < |st.constraints| {
      var c := st.constraints[i];
      assert st'.constraints[i] == c;
      if !Open(node, ls, c.dst, l) && !Open(node, ls, c.src, x) {
        ObStoreStays(p, st, st', c, l, x);
      }
    }
  }

  lemma ClosedAgainSync(p: Problem, st: State, st': State, node: Node, ls: seq<Loc>, n: Node, x: Loc)
    requires ClosedBut(p, st, node, ls) && Ext(p, st, st', {}) && Reclosed(p, st, st', node, ls)
    ensures ObSync(p, st', n, x) && ObCall(p, st', n, x)
  {
    hide Ob, ObStore, ObSync, ObCall, CellsLifted, Owns, Absorbed, WatchOk, WatchedFor, ObWatch;
    if !Open(node, ls, n, x) {
      ObSyncStays(p, st, st', n, x);
      ObCallStays(p, st, st', n, x);
    }
  }

  lemma ClosedStays(p: Problem, st: State, st': State)
    requires Closed(p, st) && Ext(p, st, st', {}) && Joined(p, st.constraints)
    requires st'.constraints == st.constraints && st'.links == st.links
    ensures Closed(p, st')
  {
    hide Ob, ObStore, ObSync, ObCall, ObWatch, Ext, CellsLifted;
    assert Reclosed(p, st, st', 0, []);
    ClosedAgain(p, st, st', 0, []);
  }

  lemma TakenWiring(p: Problem, st: State, st': State, s: Solution, node: Node, ls: seq<Loc>)
    requires Taken1(st, st', node, ls) && WiringOk(p, st) && CallsWired(p, st) && Below(st, s)
    ensures WiringOk(p, st') && CallsWired(p, st') && Below(st', s)
  {
    hide Joins, Modelled, OwingAdded;
    OwingSame(p, st, st');
    forall n ensures P(st', n) == P(st, n) {}
    forall l ensures M(st', l) == M(st, l) {}
    forall a, m | Joins(p, st, a, m) ensures Joins(p, st', a, m) { SameJoins(p, st, st', a, m); }
    forall v, q | Modelled(p, st, v, q) ensures Modelled(p, st', v, q) { ModelledStays(p, st, st', v, q); }
    forall cs, f | f in R(st', cs) ensures Called(p, st', cs, f) && CallOk(p, st', cs, f) {
      assert f in R(st, cs);
      var t, l :| l in P(st, t) && Hits(p, t, l, cs, f);
      assert l in P(st', t);
      forall w | WireOk(p, st, w) ensures WireOk(p, st', w) { WireStays(p, st, st', w); }
    }
  }

  lemma NothingOpen(p: Problem, st: State, node: Node)
    requires ClosedBut(p, st, node, [])
    ensures Closed(p, st)
  {
    hide Ob, ObStore, ObSync, ObCall, ObWatch, CellsLifted;
    forall j, l | 0 <= j < |st.links.watch| ensures ObWatch(p, st, st.links.watch[j].0, st.links.watch[j].1, l) {
      assert !Open(node, [], st.links.watch[j].0, l);
    }
    forall i, l | 0 <= i < |st.constraints| && !Owes(st, i, l) ensures Ob(p, st, st.constraints[i], l) {
      assert !Fires(st.constraints[i], node, [], l);
    }
    forall i, l, x | 0 <= i < |st.constraints| ensures ObStore(p, st, st.constraints[i], l, x) {
      assert !Open(node, [], st.constraints[i].dst, l) && !Open(node, [], st.constraints[i].src, x);
    }
    forall n, x ensures ObSync(p, st, n, x) { assert !Open(node, [], n, x); }
    forall t, l ensures ObCall(p, st, t, l) { assert !Open(node, [], t, l); }
  }
}
