/** The pass that says which functions begin a thread, a task or the handling of
    a request, and why several of one may be live together. */
module Contexts {
  import opened Common
  import opened CallGraphs
  import opened Sorting

  /** In spelling order; `Unstated` is the kind spelled "unknown". */
  datatype Kind = IpcHandler | PoolTask | SerialTask | Thread | Unstated

  /** Strongest evidence first. */
  datatype MultiInstance = Loop | Cycle | Parent | Unknown

  datatype Site = Site(caller: FnId, inLoop: bool, receiver: Option<nat>)

  datatype Start = Start(site: CallSite, api: FnId, param: nat, receiver: Option<nat>)

  /** `entry` is handed over at a start site, and the callee's model runs it. */
  datatype Invocation = Invocation(start: Start, entry: FnId, kind: Kind, model: string)

  /** A context with no start site, such as a framework's own entry point. */
  datatype Entry = Entry(entry: FnId, kind: Kind, model: Option<string>)

  datatype Context = Context(kind: Kind, entry: FnId, start: Option<Start>, multi: MultiInstance,
                             model: Option<string>, selfConcurrent: bool)

  // ----- Row order -----

  function KindRank(k: Kind): nat {
    match k
    case IpcHandler => 0
    case PoolTask => 1
    case SerialTask => 2
    case Thread => 3
    case Unstated => 4
  }

  function Chars(s: string): Key {
    seq(|s|, i requires 0 <= i < |s| => s[i] as nat)
  }

  function ReceiverKey(r: Option<nat>): Key {
    match r
    case None => [0]
    case Some(v) => [1, v]
  }

  function InvocationKey(x: Invocation): Key {
    [x.start.site, x.start.api, x.start.param] + ReceiverKey(x.start.receiver) + [x.entry, KindRank(x.kind)] + Chars(x.model)
  }

  function EntryKey(x: Entry): Key {
    [x.entry, KindRank(x.kind)] + match x.model { case None => [0] case Some(m) => [1] + Chars(m) }
  }

  lemma CharsInjective(s: string, t: string)
    requires Chars(s) == Chars(t)
    ensures s == t
  {
    forall i | 0 <= i < |s| ensures s[i] == t[i] {
      assert Chars(s)[i] == s[i] as nat && Chars(t)[i] == t[i] as nat;
    }
  }

  lemma InvocationKeyInjective(x: Invocation, y: Invocation)
    requires InvocationKey(x) == InvocationKey(y)
    ensures x == y
  {
    var a, b := InvocationKey(x), InvocationKey(y);
    assert a[0] == b[0] && a[1] == b[1] && a[2] == b[2] && a[3] == b[3];
    var n := if x.start.receiver.None? then 4 else 5;
    assert n == 5 ==> a[4] == b[4];
    assert x.start == y.start;
    assert a[n] == b[n] && a[n + 1] == b[n + 1];
    assert a[n + 2..] == Chars(x.model) && b[n + 2..] == Chars(y.model);
    CharsInjective(x.model, y.model);
  }

  lemma EntryKeyInjective(x: Entry, y: Entry)
    requires EntryKey(x) == EntryKey(y)
    ensures x == y
  {
    var a, b := EntryKey(x), EntryKey(y);
    assert a[0] == b[0] && a[1] == b[1] && a[2] == b[2];
    if x.model.Some? {
      assert a[3..] == Chars(x.model.value) && b[3..] == Chars(y.model.value);
      CharsInjective(x.model.value, y.model.value);
    }
  }

  // ----- The same order, field by field -----

  function Spelled(k: Kind): string {
    match k
    case IpcHandler => "ipc_handler"
    case PoolTask => "pool_task"
    case SerialTask => "serial_task"
    case Thread => "thread"
    case Unstated => "unknown"
  }

  /** `s` and `t` agree before position `k`, where `s` ends or has the smaller
      character. */
  ghost predicate TextDiffers(s: string, t: string, k: int) {
    0 <= k <= |s| && k < |t| && (forall i :: 0 <= i < k ==> s[i] == t[i]) && (k == |s| || s[k] < t[k])
  }

  ghost predicate TextBefore(s: string, t: string) {
    exists k :: TextDiffers(s, t, k)
  }

  ghost predicate ReceiverBefore(a: Option<nat>, b: Option<nat>) {
    b.Some? && (a.None? || a.value < b.value)
  }

  ghost predicate ModelBefore(a: Option<string>, b: Option<string>) {
    b.Some? && (a.None? || TextBefore(a.value, b.value))
  }

  /** By site, callee, parameter, receiver, entry, spelling of the kind, model. */
  ghost predicate InvocationBefore(x: Invocation, y: Invocation) {
    if x.start.site != y.start.site then x.start.site < y.start.site
    else if x.start.api != y.start.api then x.start.api < y.start.api
    else if x.start.param != y.start.param then x.start.param < y.start.param
    else if x.start.receiver != y.start.receiver then ReceiverBefore(x.start.receiver, y.start.receiver)
    else if x.entry != y.entry then x.entry < y.entry
    else if x.kind != y.kind then TextBefore(Spelled(x.kind), Spelled(y.kind))
    else TextBefore(x.model, y.model)
  }

  /** By function, spelling of the kind, model. */
  ghost predicate EntryBefore(x: Entry, y: Entry) {
    if x.entry != y.entry then x.entry < y.entry
    else if x.kind != y.kind then TextBefore(Spelled(x.kind), Spelled(y.kind))
    else ModelBefore(x.model, y.model)
  }

  /** The ranks of the kinds follow their spellings. */
  lemma RankSpelled(a: Kind, b: Kind)
    requires KindRank(a) < KindRank(b)
    ensures TextBefore(Spelled(a), Spelled(b))
  {
    var k := if a.SerialTask? || a.PoolTask? || a.IpcHandler? || b.Unstated? then 0 else 1;
    assert TextDiffers(Spelled(a), Spelled(b), k);
  }

  lemma CharsLess(s: string, t: string, k: int)
    requires DiffersAt(Chars(s), Chars(t), k)
    ensures TextBefore(s, t)
  {
    forall i | 0 <= i < k ensures s[i] == t[i] {
      assert Chars(s)[i] == Chars(t)[i];
    }
    assert TextDiffers(s, t, k);
  }

  /** A difference within the last part of two keys. */
  lemma TailDiffers(a: Key, b: Key, n: nat, k: int)
    requires n <= |a| && n <= |b| && DiffersAt(a, b, k) && n <= k
    ensures DiffersAt(a[n..], b[n..], k - n)
  {
    forall i | 0 <= i < k - n ensures a[n..][i] == b[n..][i] {
      assert a[n + i] == b[n + i];
    }
  }

  lemma InvocationLess(x: Invocation, y: Invocation)
    requires Less(InvocationKey(x), InvocationKey(y))
    ensures InvocationBefore(x, y)
  {
    hide TextBefore, Less, DiffersAt, Spelled;
    var a, b := InvocationKey(x), InvocationKey(y);
    LessIff(a, b);
    var k :| DiffersAt(a, b, k);
    StartDecides(x, y, k);
    var n := if x.start.receiver.None? then 4 else 5;
    if n <= k {
      TailDecides(x, y, n, k);
    }
  }

  /** Either the difference lies in the start, or the starts agree. */
  lemma StartDecides(x: Invocation, y: Invocation, k: int)
    requires DiffersAt(InvocationKey(x), InvocationKey(y), k)
    ensures var n := if x.start.receiver.None? then 4 else 5;
      if k < n then x.start != y.start && InvocationBefore(x, y) else x.start == y.start
  {
    hide TextBefore, Spelled;
    var a, b := InvocationKey(x), InvocationKey(y);
    assert k > 0 ==> a[0] == b[0];
    assert k > 1 ==> a[1] == b[1];
    assert k > 2 ==> a[2] == b[2];
    assert k > 3 ==> a[3] == b[3];
    assert k > 4 && x.start.receiver.Some? ==> a[4] == b[4];
  }

  lemma TailDecides(x: Invocation, y: Invocation, n: nat, k: int)
    requires x.start == y.start && n == (if x.start.receiver.None? then 4 else 5) <= k
    requires DiffersAt(InvocationKey(x), InvocationKey(y), k)
    ensures InvocationBefore(x, y)
  {
    hide TextBefore, Spelled;
    var a, b := InvocationKey(x), InvocationKey(y);
    assert a[n] == x.entry && a[n + 1] == KindRank(x.kind) && a[n + 2..] == Chars(x.model);
    assert b[n] == y.entry && b[n + 1] == KindRank(y.kind) && b[n + 2..] == Chars(y.model);
    if k == n + 1 {
      RankSpelled(x.kind, y.kind);
    } else if k > n + 1 {
      TailDiffers(a, b, n + 2, k);
      CharsLess(x.model, y.model, k - n - 2);
    }
  }

  lemma EntryLess(x: Entry, y: Entry)
    requires Less(EntryKey(x), EntryKey(y))
    ensures EntryBefore(x, y)
  {
    hide TextBefore, Spelled;
    var a, b := EntryKey(x), EntryKey(y);
    LessIff(a, b);
    var k :| DiffersAt(a, b, k);
    assert k > 0 ==> a[0] == b[0];
    assert k > 1 ==> a[1] == b[1];
    assert k > 2 ==> a[2] == b[2];
    if k == 1 {
      RankSpelled(x.kind, y.kind);
    } else if k > 2 {
      assert a[3..] == Chars(x.model.value) && b[3..] == Chars(y.model.value);
      TailDiffers(a, b, 3, k);
      CharsLess(x.model.value, y.model.value, k - 3);
    }
  }

  ghost predicate InvocationsInOrder(rows: seq<Invocation>) {
    forall i, j :: 0 <= i < j < |rows| ==> InvocationBefore(rows[i], rows[j])
  }

  ghost predicate EntriesInOrder(rows: seq<Entry>) {
    forall i, j :: 0 <= i < j < |rows| ==> EntryBefore(rows[i], rows[j])
  }

  function InvocationRows(xs: seq<Invocation>): seq<Invocation> {
    SortDedup(InvocationKey, xs)
  }

  function EntryRows(xs: seq<Entry>): seq<Entry> {
    SortDedup(EntryKey, xs)
  }

  lemma InvocationRowsCorrect(xs: seq<Invocation>)
    ensures StrictlySorted(InvocationKey, InvocationRows(xs)) && Elems(InvocationRows(xs)) == Elems(xs)
    ensures InvocationsInOrder(InvocationRows(xs))
  {
    forall i, j | 0 <= i < |xs| && 0 <= j < |xs| && InvocationKey(xs[i]) == InvocationKey(xs[j]) ensures xs[i] == xs[j] {
      InvocationKeyInjective(xs[i], xs[j]);
    }
    SortDedupCorrect(InvocationKey, xs);
    forall i, j | 0 <= i < j < |InvocationRows(xs)| ensures InvocationBefore(InvocationRows(xs)[i], InvocationRows(xs)[j]) {
      InvocationLess(InvocationRows(xs)[i], InvocationRows(xs)[j]);
    }
  }

  lemma EntryRowsCorrect(xs: seq<Entry>)
    ensures StrictlySorted(EntryKey, EntryRows(xs)) && Elems(EntryRows(xs)) == Elems(xs)
    ensures EntriesInOrder(EntryRows(xs))
  {
    forall i, j | 0 <= i < |xs| && 0 <= j < |xs| && EntryKey(xs[i]) == EntryKey(xs[j]) ensures xs[i] == xs[j] {
      EntryKeyInjective(xs[i], xs[j]);
    }
    SortDedupCorrect(EntryKey, xs);
    forall i, j | 0 <= i < j < |EntryRows(xs)| ensures EntryBefore(EntryRows(xs)[i], EntryRows(xs)[j]) {
      EntryLess(EntryRows(xs)[i], EntryRows(xs)[j]);
    }
  }

  /** The rows depend only on which invocations and entries there are: hash
      order and repetitions do not show. */
  lemma RowsCanonical(xs: seq<Invocation>, ys: seq<Invocation>, es: seq<Entry>, fs: seq<Entry>)
    requires Elems(xs) == Elems(ys) && Elems(es) == Elems(fs)
    ensures InvocationRows(xs) == InvocationRows(ys) && EntryRows(es) == EntryRows(fs)
  {
    InvocationRowsCorrect(xs);
    InvocationRowsCorrect(ys);
    StrictlySortedUnique(InvocationKey, InvocationRows(xs), InvocationRows(ys));
    EntryRowsCorrect(es);
    EntryRowsCorrect(fs);
    StrictlySortedUnique(EntryKey, EntryRows(es), EntryRows(fs));
  }

  // ----- What the contexts are -----

  type Sites = map<CallSite, Site>

  ghost function StartPairs(rows: seq<Invocation>): set<(CallSite, FnId)> {
    set x | x in rows :: (x.start.site, x.entry)
  }

  /** The evidence a submission carries itself. */
  ghost function Own(sites: Sites, edges: seq<Edge>, starts: set<(CallSite, FnId)>, start: Start): MultiInstance {
    if start.site !in sites then Unknown
    else if sites[start.site].inLoop then Loop
    else if OnCycle(OrdinaryPairs(edges, starts), sites[start.site].caller) then Cycle
    else Unknown
  }

  ghost function Submitted(x: Invocation, own: MultiInstance): Context {
    Context(x.kind, x.entry, Some(x.start), own, Some(x.model), x.kind.IpcHandler? || own != Unknown)
  }

  ghost function Unsubmitted(x: Entry): Context {
    Context(x.kind, x.entry, None, Unknown, x.model, x.kind.IpcHandler?)
  }

  /** `cs` lists the submissions, then the entries, each with its own evidence. */
  ghost predicate OwnContexts(sites: Sites, edges: seq<Edge>, rows: seq<Invocation>, entries: seq<Entry>, cs: seq<Context>) {
    && |cs| == |rows| + |entries|
    && (forall k :: 0 <= k < |rows| ==> cs[k] == Submitted(rows[k], Own(sites, edges, StartPairs(rows), rows[k].start)))
    && (forall k :: |rows| <= k < |cs| ==> cs[k] == Unsubmitted(entries[k - |rows|]))
  }

  /** That list. */
  ghost function OwnList(sites: Sites, edges: seq<Edge>, rows: seq<Invocation>, entries: seq<Entry>): seq<Context> {
    seq(|rows| + |entries|, k requires 0 <= k < |rows| + |entries| =>
      if k < |rows| then Submitted(rows[k], Own(sites, edges, StartPairs(rows), rows[k].start))
      else Unsubmitted(entries[k - |rows|]))
  }

  lemma OwnListIs(sites: Sites, edges: seq<Edge>, rows: seq<Invocation>, entries: seq<Entry>, cs: seq<Context>)
    ensures OwnContexts(sites, edges, rows, entries, OwnList(sites, edges, rows, entries))
    ensures OwnContexts(sites, edges, rows, entries, cs) ==> cs == OwnList(sites, edges, rows, entries)
  {
    hide Own;
  }

  /** Some context of `cs` that can be live twice runs code that leads to the
      submitter of `c`. */
  ghost predicate UnderParent(sites: Sites, edges: seq<Edge>, cs: seq<Context>, c: Context) {
    && c.start.Some? && c.start.value.site in sites
    && exists j :: 0 <= j < |cs| && cs[j].selfConcurrent && Reaches(Pairs(edges), cs[j].entry, sites[c.start.value.site].caller)
  }

  /** As the search sees it: only over functions the call graph numbers. */
  ghost predicate SeenUnderParent(sites: Sites, edges: seq<Edge>, cs: seq<Context>, c: Context) {
    && c.start.Some? && c.start.value.site in sites && Named(edges, sites[c.start.value.site].caller)
    && exists j :: 0 <= j < |cs| && cs[j].selfConcurrent && Named(edges, cs[j].entry)
                   && Reaches(Pairs(edges), cs[j].entry, sites[c.start.value.site].caller)
  }

  ghost function Promoted(c: Context, under: bool): Context {
    if c.multi.Unknown? && under then c.(multi := Parent, selfConcurrent := true) else c
  }

  /** One marking pass over `own`. */
  ghost predicate OnePass(sites: Sites, edges: seq<Edge>, own: seq<Context>, cs: seq<Context>) {
    |cs| == |own| && forall k :: 0 <= k < |own| ==> cs[k] == Promoted(own[k], SeenUnderParent(sites, edges, own, own[k]))
  }

  /** Submitters that are known have an edge to the entries they start. */
  ghost predicate Linked(sites: Sites, edges: seq<Edge>, cs: seq<Context>) {
    forall k {:trigger cs[k]} :: 0 <= k < |cs| && cs[k].start.Some? && cs[k].start.value.site in sites ==>
      (sites[cs[k].start.value.site].caller, cs[k].entry) in Pairs(edges)
  }

  /** The closed form the pass aims at: parents are judged by the final
      contexts, the promoted ones included. */
  ghost predicate ParentsSettled(sites: Sites, edges: seq<Edge>, own: seq<Context>, cs: seq<Context>) {
    && |cs| == |own|
    && forall k :: 0 <= k < |own| ==> cs[k] == Promoted(own[k], UnderParent(sites, edges, cs, own[k]))
  }

  lemma PairNamed(edges: seq<Edge>, f: FnId, g: FnId)
    requires (f, g) in Pairs(edges)
    ensures Named(edges, f) && Named(edges, g)
  {
  }

  lemma ReachesNamed(edges: seq<Edge>, f: FnId, g: FnId)
    requires Reaches(Pairs(edges), f, g) && Named(edges, g)
    ensures Named(edges, f)
  {
    var p :| FnWalk(Pairs(edges), p, f, g);
    if |p| > 1 {
      assert (p[0], p[0 + 1]) in Pairs(edges);
      PairNamed(edges, p[0], p[1]);
    }
  }

  /** A promoted parent's own parent already covers what it covers. */
  lemma CoveredBefore(sites: Sites, edges: seq<Edge>, own: seq<Context>, cs: seq<Context>, j: nat, f: FnId)
    requires OnePass(sites, edges, own, cs) && Linked(sites, edges, own)
    requires j < |cs| && cs[j].selfConcurrent && Reaches(Pairs(edges), cs[j].entry, f)
    ensures exists i :: 0 <= i < |own| && own[i].selfConcurrent && Reaches(Pairs(edges), own[i].entry, f)
  {
    hide Reaches, Pairs;
    if !own[j].selfConcurrent {
      var caller := sites[own[j].start.value.site].caller;
      var i :| 0 <= i < |own| && own[i].selfConcurrent && Named(edges, own[i].entry) && Reaches(Pairs(edges), own[i].entry, caller);
      ReachesStep(Pairs(edges), own[i].entry, caller, own[j].entry);
      ReachesTrans(Pairs(edges), own[i].entry, own[j].entry, f);
    }
  }

  lemma UnderParentIff(sites: Sites, edges: seq<Edge>, own: seq<Context>, cs: seq<Context>, k: nat)
    requires OnePass(sites, edges, own, cs) && Linked(sites, edges, own) && k < |own|
    ensures SeenUnderParent(sites, edges, own, own[k]) <==> UnderParent(sites, edges, cs, own[k])
  {
    hide Reaches, Pairs, Named;
    if SeenUnderParent(sites, edges, own, own[k]) {
      var caller := sites[own[k].start.value.site].caller;
      var j :| 0 <= j < |own| && own[j].selfConcurrent && Named(edges, own[j].entry) && Reaches(Pairs(edges), own[j].entry, caller);
      assert cs[j].selfConcurrent && cs[j].entry == own[j].entry;
    }
    if UnderParent(sites, edges, cs, own[k]) {
      var caller := sites[own[k].start.value.site].caller;
      var j :| 0 <= j < |cs| && cs[j].selfConcurrent && Reaches(Pairs(edges), cs[j].entry, caller);
      CoveredBefore(sites, edges, own, cs, j, caller);
      var i :| 0 <= i < |own| && own[i].selfConcurrent && Reaches(Pairs(edges), own[i].entry, caller);
      PairNamed(edges, caller, own[k].entry);
      ReachesNamed(edges, own[i].entry, caller);
    }
  }

  /** One pass reaches the fixpoint when the submitter-to-entry edges are there. */
  lemma OnePassSettles(sites: Sites, edges: seq<Edge>, own: seq<Context>, cs: seq<Context>)
    requires OnePass(sites, edges, own, cs) && Linked(sites, edges, own)
    ensures ParentsSettled(sites, edges, own, cs)
  {
    forall k | 0 <= k < |own| ensures cs[k] == Promoted(own[k], UnderParent(sites, edges, cs, own[k])) {
      UnderParentIff(sites, edges, own, cs, k);
    }
  }

  /** Nothing is promoted without cause: any settled marking holds at least
      the contexts the pass marks. */
  lemma OnePassLeast(sites: Sites, edges: seq<Edge>, own: seq<Context>, cs: seq<Context>, other: seq<Context>, k: nat)
    requires OnePass(sites, edges, own, cs) && Linked(sites, edges, own)
    requires ParentsSettled(sites, edges, own, other)
    requires k < |own| && cs[k].selfConcurrent
    ensures other[k].selfConcurrent
  {
    hide Reaches, Pairs, Named;
    if !own[k].selfConcurrent {
      var caller := sites[own[k].start.value.site].caller;
      var j :| 0 <= j < |own| && own[j].selfConcurrent && Named(edges, own[j].entry) && Reaches(Pairs(edges), own[j].entry, caller);
      assert other[j].selfConcurrent && other[j].entry == own[j].entry;
      assert UnderParent(sites, edges, other, own[k]);
    }
  }

  // ----- The pass -----

  /** Each submission with the evidence it carries itself. */
  method Classify(sites: Sites, edges: seq<Edge>, rows: seq<Invocation>, entries: seq<Entry>, graph: CallGraph)
    returns (contexts: seq<Context>)
    requires graph.Valid(Pairs(edges), OrdinaryPairs(edges, StartPairs(rows)))
    ensures OwnContexts(sites, edges, rows, entries, contexts)
  {
    hide OnCycle;
    ghost var ordinary := OrdinaryPairs(edges, StartPairs(rows));
    var cyclic := graph.Cyclic(Pairs(edges), ordinary);
    contexts := [];
    for k := 0 to |rows|
      invariant |contexts| == k
      invariant forall i :: 0 <= i < k ==> contexts[i] == Submitted(rows[i], Own(sites, edges, StartPairs(rows), rows[i].start))
    {
      var site := rows[k].start.site;
      var multi := Unknown;
      if site in sites {
        if sites[site].inLoop {
          multi := Loop;
        } else if sites[site].caller in graph.index && cyclic[graph.index[sites[site].caller]] {
          multi := Cycle;
        }
        CycleNumbered(graph, Pairs(edges), ordinary, sites[site].caller);
      }
      contexts := contexts + [Context(rows[k].kind, rows[k].entry, Some(rows[k].start), multi, Some(rows[k].model),
                                      rows[k].kind == IpcHandler || multi != Unknown)];
    }
    for k := 0 to |entries|
      invariant |contexts| == |rows| + k
      invariant forall i :: 0 <= i < |rows| ==> contexts[i] == Submitted(rows[i], Own(sites, edges, StartPairs(rows), rows[i].start))
      invariant forall i :: |rows| <= i < |contexts| ==> contexts[i] == Unsubmitted(entries[i - |rows|])
    {
      contexts := contexts + [Context(entries[k].kind, entries[k].entry, None, Unknown, entries[k].model,
                                      entries[k].kind == IpcHandler)];
    }
  }

  /** Whatever lies on a cycle has a number. */
  lemma CycleNumbered(graph: CallGraph, all: Relation, ordinary: Relation, f: FnId)
    requires graph.Valid(all, ordinary)
    ensures OnCycle(ordinary, f) ==> f in graph.index
  {
    if OnCycle(ordinary, f) {
      var g := CycleStep(ordinary, f);
    }
  }

  /** Mark the contexts submitted from code a self-concurrent one reaches. */
  method MarkParents(sites: Sites, edges: seq<Edge>, own: seq<Context>, graph: CallGraph, ghost ordinary: Relation)
    returns (contexts: seq<Context>)
    requires graph.Valid(Pairs(edges), ordinary)
    requires forall f :: f in graph.index <==> Named(edges, f)
    ensures OnePass(sites, edges, own, contexts)
  {
    hide Reaches, Pairs, Named, SeenUnderParent;
    var roots := Roots(own);
    var reached := graph.ReachableFrom(roots, Pairs(edges), ordinary);
    contexts := [];
    for k := 0 to |own|
      invariant |contexts| == k
      invariant forall i :: 0 <= i < k ==> contexts[i] == Promoted(own[i], SeenUnderParent(sites, edges, own, own[i]))
    {
      var context := own[k];
      var under := false;
      if context.start.Some? && context.start.value.site in sites {
        var caller := sites[context.start.value.site].caller;
        if caller in graph.index {
          under := reached[graph.index[caller]];
          assert under <==> exists f :: f in roots && f in graph.index && Reaches(Pairs(edges), f, caller);
        }
      }
      SeenIff(sites, edges, own, roots, context);
      if context.multi == Unknown && under {
        context := context.(multi := Parent, selfConcurrent := true);
      }
      contexts := contexts + [context];
    }
  }

  method Roots(own: seq<Context>) returns (roots: seq<FnId>)
    ensures forall f :: f in roots <==> exists j :: 0 <= j < |own| && own[j].selfConcurrent && own[j].entry == f
  {
    roots := [];
    for k := 0 to |own|
      invariant forall f :: f in roots <==> exists j :: 0 <= j < k && own[j].selfConcurrent && own[j].entry == f
    {
      if own[k].selfConcurrent {
        roots := roots + [own[k].entry];
      }
    }
  }

  lemma SeenIff(sites: Sites, edges: seq<Edge>, own: seq<Context>, roots: seq<FnId>, c: Context)
    requires forall f :: f in roots <==> exists j :: 0 <= j < |own| && own[j].selfConcurrent && own[j].entry == f
    ensures SeenUnderParent(sites, edges, own, c) <==>
      c.start.Some? && c.start.value.site in sites && Named(edges, sites[c.start.value.site].caller)
      && exists f :: f in roots && Named(edges, f) && Reaches(Pairs(edges), f, sites[c.start.value.site].caller)
  {
    hide Reaches, Pairs, Named;
    if c.start.Some? && c.start.value.site in sites {
      var caller := sites[c.start.value.site].caller;
      if f :| f in roots && Named(edges, f) && Reaches(Pairs(edges), f, caller) {
        var j :| 0 <= j < |own| && own[j].selfConcurrent && own[j].entry == f;
        assert Reaches(Pairs(edges), own[j].entry, caller);
      }
      if j :| 0 <= j < |own| && own[j].selfConcurrent && Named(edges, own[j].entry) && Reaches(Pairs(edges), own[j].entry, caller) {
        assert own[j].entry in roots;
      }
    }
  }

  // ----- What each context says -----

  /** A call at this edge hands over its callee as a context's entry. */
  ghost predicate Starts(invocations: seq<Invocation>, e: Edge) {
    exists x :: x in invocations && x.start.site == e.site && x.entry == e.callee
  }

  /** `f` calls itself, directly or not, over edges that are neither IPC bridges
      nor starts of contexts. */
  ghost predicate CallsItself(invocations: seq<Invocation>, edges: seq<Edge>, f: FnId) {
    exists w :: EdgeCycle(edges, w, f) && NoStart(invocations, w)
  }

  ghost predicate NoStart(invocations: seq<Invocation>, w: seq<Edge>) {
    forall i :: 0 <= i < |w| ==> !w[i].resolution.IpcBridge? && !Starts(invocations, w[i])
  }

  ghost predicate InLoop(sites: Sites, start: Start) {
    start.site in sites && sites[start.site].inLoop
  }

  ghost predicate InCycle(sites: Sites, invocations: seq<Invocation>, edges: seq<Edge>, start: Start) {
    start.site in sites && CallsItself(invocations, edges, sites[start.site].caller)
  }

  /** The context of a submission: its own fields, and as evidence a loop before
      a cycle before a parent. */
  ghost predicate ShowsSubmission(sites: Sites, invocations: seq<Invocation>, edges: seq<Edge>, x: Invocation, c: Context) {
    && c.kind == x.kind && c.entry == x.entry && c.start == Some(x.start) && c.model == Some(x.model)
    && (c.multi == Loop <==> InLoop(sites, x.start))
    && (c.multi == Cycle <==> !InLoop(sites, x.start) && InCycle(sites, invocations, edges, x.start))
  }

  ghost predicate ShowsEntry(x: Entry, c: Context) {
    c.kind == x.kind && c.entry == x.entry && c.start == None && c.model == x.model && c.multi == Unknown
  }

  /** One context per submission in row order, then one per entry; only a request
      handler or a context with evidence may be live twice. */
  ghost predicate ShowsRows(sites: Sites, invocations: seq<Invocation>, edges: seq<Edge>, rows: seq<Invocation>, others: seq<Entry>,
                            cs: seq<Context>)
  {
    && |cs| == |rows| + |others|
    && (forall k :: 0 <= k < |rows| ==> ShowsSubmission(sites, invocations, edges, rows[k], cs[k]))
    && (forall k :: |rows| <= k < |cs| ==> ShowsEntry(others[k - |rows|], cs[k]))
    && (forall k :: 0 <= k < |cs| ==> (cs[k].selfConcurrent <==> cs[k].kind == IpcHandler || cs[k].multi != Unknown))
  }

  /** A parent is recorded exactly for contexts without evidence of their own
      that are submitted from code a context that may be live twice leads to. */
  ghost predicate ShowsParents(sites: Sites, edges: seq<Edge>, cs: seq<Context>) {
    forall k :: 0 <= k < |cs| ==>
      (cs[k].multi == Parent <==> cs[k].multi != Loop && cs[k].multi != Cycle && UnderParent(sites, edges, cs, cs[k]))
  }

  /** Every submitter that is known has an edge to what it submits. */
  ghost predicate SubmittersLinked(sites: Sites, edges: seq<Edge>, invocations: seq<Invocation>) {
    forall x :: x in invocations && x.start.site in sites ==> (sites[x.start.site].caller, x.entry) in Pairs(edges)
  }

  lemma CyclesAgree(invocations: seq<Invocation>, edges: seq<Edge>, rows: seq<Invocation>, f: FnId)
    requires Elems(rows) == Elems(invocations)
    ensures OnCycle(OrdinaryPairs(edges, StartPairs(rows)), f) <==> CallsItself(invocations, edges, f)
  {
    hide OnCycle, OrdinaryPairs, EdgeCycle;
    CycleOfCalls(edges, StartPairs(rows), f);
    forall w: seq<Edge> ensures OnlyCalls(w, StartPairs(rows)) <==> NoStart(invocations, w) {
      forall i | 0 <= i < |w| ensures (w[i].site, w[i].callee) in StartPairs(rows) <==> Starts(invocations, w[i]) {
        StartAgrees(invocations, rows, w[i]);
      }
    }
  }

  lemma StartAgrees(invocations: seq<Invocation>, rows: seq<Invocation>, e: Edge)
    requires Elems(rows) == Elems(invocations)
    ensures (e.site, e.callee) in StartPairs(rows) <==> Starts(invocations, e)
  {
    assert forall x :: x in rows <==> x in Elems(rows);
    assert forall x :: x in invocations <==> x in Elems(invocations);
  }

  lemma RowsShown(sites: Sites, invocations: seq<Invocation>, edges: seq<Edge>, rows: seq<Invocation>, others: seq<Entry>,
                  own: seq<Context>, cs: seq<Context>)
    requires Elems(rows) == Elems(invocations)
    requires OwnContexts(sites, edges, rows, others, own) && OnePass(sites, edges, own, cs)
    ensures ShowsRows(sites, invocations, edges, rows, others, cs)
  {
    hide OnCycle, OrdinaryPairs, CallsItself, SeenUnderParent, StartPairs;
    forall k | 0 <= k < |rows| ensures ShowsSubmission(sites, invocations, edges, rows[k], cs[k]) {
      if rows[k].start.site in sites {
        CyclesAgree(invocations, edges, rows, sites[rows[k].start.site].caller);
      }
    }
    forall k | |rows| <= k < |cs| ensures ShowsEntry(others[k - |rows|], cs[k]) {
      assert !SeenUnderParent(sites, edges, own, own[k]) by { NoSubmitter(sites, edges, own, own[k]); }
    }
  }

  lemma NoSubmitter(sites: Sites, edges: seq<Edge>, own: seq<Context>, c: Context)
    requires c.start == None
    ensures !SeenUnderParent(sites, edges, own, c)
  {
  }

  lemma ParentsShown(sites: Sites, edges: seq<Edge>, rows: seq<Invocation>, others: seq<Entry>, own: seq<Context>, cs: seq<Context>)
    requires OwnContexts(sites, edges, rows, others, own) && ParentsSettled(sites, edges, own, cs)
    ensures ShowsParents(sites, edges, cs)
  {
    hide Own, Reaches, Pairs;
    forall k | 0 <= k < |cs| ensures UnderParent(sites, edges, cs, own[k]) <==> UnderParent(sites, edges, cs, cs[k]) {}
    forall k | 0 <= k < |cs| ensures own[k].multi != Parent {
      if k < |rows| { OwnNoParent(sites, edges, StartPairs(rows), rows[k].start); }
    }
  }

  lemma OwnNoParent(sites: Sites, edges: seq<Edge>, starts: set<(CallSite, FnId)>, start: Start)
    ensures Own(sites, edges, starts, start) != Parent
  {
  }

  lemma RowsLinked(sites: Sites, edges: seq<Edge>, invocations: seq<Invocation>, rows: seq<Invocation>, others: seq<Entry>, own: seq<Context>)
    requires Elems(rows) == Elems(invocations) && OwnContexts(sites, edges, rows, others, own)
    requires SubmittersLinked(sites, edges, invocations)
    ensures Linked(sites, edges, own)
  {
    hide Own, Pairs;
    forall k {:trigger own[k]} | 0 <= k < |own| && own[k].start.Some? && own[k].start.value.site in sites
      ensures (sites[own[k].start.value.site].caller, own[k].entry) in Pairs(edges)
    {
      assert k < |rows| ==> rows[k] in Elems(invocations);
    }
  }

  /** One context per invocation in row order, then one per entry. */
  method ExecutionContexts(sites: Sites, invocations: seq<Invocation>, entries: seq<Entry>, edges: seq<Edge>)
    returns (contexts: seq<Context>)
    ensures OnePass(sites, edges, OwnList(sites, edges, InvocationRows(invocations), EntryRows(entries)), contexts)
    ensures Linked(sites, edges, OwnList(sites, edges, InvocationRows(invocations), EntryRows(entries))) ==>
      ParentsSettled(sites, edges, OwnList(sites, edges, InvocationRows(invocations), EntryRows(entries)), contexts)
    ensures ShowsRows(sites, invocations, edges, InvocationRows(invocations), EntryRows(entries), contexts)
    ensures InvocationsInOrder(InvocationRows(invocations)) && Elems(InvocationRows(invocations)) == Elems(invocations)
    ensures EntriesInOrder(EntryRows(entries)) && Elems(EntryRows(entries)) == Elems(entries)
    ensures SubmittersLinked(sites, edges, invocations) ==> ShowsParents(sites, edges, contexts)
  {
    hide OnePass, Linked, ParentsSettled, OwnContexts, InvocationRows, EntryRows, ShowsRows, ShowsParents, SubmittersLinked;
    hide InvocationsInOrder, EntriesInOrder, Elems;
    var rows := InvocationRows(invocations);
    var others := EntryRows(entries);
    ghost var own := OwnList(sites, edges, rows, others);
    InvocationRowsCorrect(invocations);
    EntryRowsCorrect(entries);
    if rows == [] && others == [] {
      contexts := [];
      NoContexts(sites, edges);
      OwnListIs(sites, edges, rows, others, contexts);
    } else {
      var graph := new CallGraph(edges, set x | x in rows :: (x.start.site, x.entry));
      contexts := Classify(sites, edges, rows, others, graph);
      OwnListIs(sites, edges, rows, others, contexts);
      contexts := MarkParents(sites, edges, contexts, graph, OrdinaryPairs(edges, StartPairs(rows)));
    }
    RowsShown(sites, invocations, edges, rows, others, own, contexts);
    if SubmittersLinked(sites, edges, invocations) {
      RowsLinked(sites, edges, invocations, rows, others, own);
    }
    if Linked(sites, edges, own) {
      OnePassSettles(sites, edges, own, contexts);
      ParentsShown(sites, edges, rows, others, own, contexts);
    }
  }

  lemma NoContexts(sites: Sites, edges: seq<Edge>)
    ensures OwnList(sites, edges, [], []) == [] && OnePass(sites, edges, [], [])
  {
  }
}
