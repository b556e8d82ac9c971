/** The call edges of callbacks handed to modelled callees, and the contexts
    they start: the edges that make one marking pass enough. */
module Callbacks {
  import opened Common
  import opened CallGraphs
  import opened Contexts
  import opened Sorting

  /** One effect of a modelled callee: the parameter whose callback it runs. */
  datatype Invoked = Invoked(param: nat, context: Kind, model: string)

  /** The functions a callback argument stands for, by call site, callee and
      position of the effect; no entry where the effect does not apply. */
  type Targets = map<(CallSite, FnId, nat), seq<FnId>>

  datatype Found = Found(seen: set<(CallSite, FnId)>, edges: seq<Edge>, invocations: seq<Invocation>)

  ghost function SitePairs(edges: seq<Edge>): set<(CallSite, FnId)> {
    set e | e in edges :: (e.site, e.callee)
  }

  function EdgeKey(e: Edge): Key {
    [e.site, e.callee]
  }

  /** The new edges are exactly what the invocations need and the call graph
      lacks, one per call site and callback. */
  ghost predicate Collected(sites: Sites, edges: seq<Edge>, found: Found) {
    && found.seen == SitePairs(edges) + SitePairs(found.edges)
    && (forall x :: x in found.invocations ==> x.start.site in sites && (x.start.site, x.entry) in found.seen)
    && (forall e :: e in found.edges ==>
          e.site in sites && e == Edge(e.site, sites[e.site].caller, e.callee, Indirect)
          && (e.site, e.callee) !in SitePairs(edges)
          && (e.site, e.callee) in StartPairs(found.invocations))
    && (forall i, j :: 0 <= i < j < |found.edges| ==> EdgeKey(found.edges[i]) != EdgeKey(found.edges[j]))
  }

  /** Record one invocation, and its edge unless the call graph has it. */
  function Record(sites: Sites, found: Found, x: Invocation): Found
    requires x.start.site in sites
  {
    var invocations := found.invocations + [x];
    var pair := (x.start.site, x.entry);
    if pair in found.seen then found.(invocations := invocations)
    else Found(found.seen + {pair},
               found.edges + [Edge(x.start.site, sites[x.start.site].caller, x.entry, Indirect)], invocations)
  }

  lemma RecordOk(sites: Sites, edges: seq<Edge>, found: Found, x: Invocation)
    requires Collected(sites, edges, found) && x.start.site in sites
    ensures Collected(sites, edges, Record(sites, found, x))
    ensures Record(sites, found, x).invocations == found.invocations + [x]
  {
    var found' := Record(sites, found, x);
    assert x in found'.invocations;
    assert forall y :: y in found.invocations ==> y in found'.invocations;
    assert StartPairs(found'.invocations) == StartPairs(found.invocations) + {(x.start.site, x.entry)};
    if (x.start.site, x.entry) !in found.seen {
      var e := found'.edges[|found.edges|];
      assert found'.edges == found.edges + [e];
      assert SitePairs(found'.edges) == SitePairs(found.edges) + {(e.site, e.callee)};
      forall i | 0 <= i < |found.edges| ensures EdgeKey(found.edges[i]) != EdgeKey(e) {
        assert found.edges[i] in found.edges;
        assert (found.edges[i].site, found.edges[i].callee) in SitePairs(found.edges);
        assert EdgeKey(e)[0] == e.site && EdgeKey(e)[1] == e.callee;
      }
    }
  }

  // ----- The invocations, in the order they are met -----

  function Rows(start: Start, effect: Invoked, callbacks: seq<FnId>): seq<Invocation> {
    seq(|callbacks|, i requires 0 <= i < |callbacks| => Invocation(start, callbacks[i], effect.context, effect.model))
  }

  function EffectRows(sites: Sites, effects: seq<Invoked>, targets: Targets, e: Edge, n: nat): seq<Invocation>
    requires e.site in sites && n <= |effects|
  {
    if n == 0 then []
    else
      EffectRows(sites, effects, targets, e, n - 1) +
      if (e.site, e.callee, n - 1) in targets then
        Rows(Start(e.site, e.callee, effects[n - 1].param, sites[e.site].receiver), effects[n - 1],
             targets[(e.site, e.callee, n - 1)])
      else []
  }

  function EdgeRows(sites: Sites, invoked: map<FnId, seq<Invoked>>, targets: Targets, edges: seq<Edge>): seq<Invocation> {
    if edges == [] then []
    else
      var e := edges[|edges| - 1];
      EdgeRows(sites, invoked, targets, edges[..|edges| - 1]) +
      if e.callee in invoked && e.site in sites then
        EffectRows(sites, invoked[e.callee], targets, e, |invoked[e.callee]|)
      else []
  }

  /** Effect number `n` of the callee of `e` hands over `x`. */
  ghost predicate HandsOver(sites: Sites, invoked: map<FnId, seq<Invoked>>, targets: Targets, e: Edge, n: nat, x: Invocation) {
    && e.site in sites && e.callee in invoked && n < |invoked[e.callee]|
    && (e.site, e.callee, n) in targets && x.entry in targets[(e.site, e.callee, n)]
    && x.start.site == e.site && x.start.api == e.callee
    && x.start.param == invoked[e.callee][n].param && x.start.receiver == sites[e.site].receiver
    && x.kind == invoked[e.callee][n].context && x.model == invoked[e.callee][n].model
  }

  ghost predicate HandedOver(sites: Sites, invoked: map<FnId, seq<Invoked>>, targets: Targets, edges: seq<Edge>, x: Invocation) {
    exists e, n: nat :: e in edges && HandsOver(sites, invoked, targets, e, n, x)
  }

  lemma RowsAre(start: Start, effect: Invoked, callbacks: seq<FnId>, x: Invocation)
    ensures x in Rows(start, effect, callbacks) <==>
      x.start == start && x.entry in callbacks && x.kind == effect.context && x.model == effect.model
  {
    if x.start == start && x.entry in callbacks && x.kind == effect.context && x.model == effect.model {
      var i :| 0 <= i < |callbacks| && callbacks[i] == x.entry;
      assert Rows(start, effect, callbacks)[i] == x;
    }
  }

  lemma {:induction false} EffectRowsAre(sites: Sites, invoked: map<FnId, seq<Invoked>>, targets: Targets, e: Edge, n: nat, x: Invocation)
    requires e.site in sites && e.callee in invoked && n <= |invoked[e.callee]|
    ensures x in EffectRows(sites, invoked[e.callee], targets, e, n) <==>
      exists m: nat :: m < n && HandsOver(sites, invoked, targets, e, m, x)
  {
    hide Rows;
    if n > 0 {
      var effects := invoked[e.callee];
      EffectRowsAre(sites, invoked, targets, e, n - 1, x);
      if (e.site, e.callee, n - 1) in targets {
        var start := Start(e.site, e.callee, effects[n - 1].param, sites[e.site].receiver);
        var rows := Rows(start, effects[n - 1], targets[(e.site, e.callee, n - 1)]);
        RowsAre(start, effects[n - 1], targets[(e.site, e.callee, n - 1)], x);
        assert x in rows <==> HandsOver(sites, invoked, targets, e, n - 1, x);
      }
      assert x in EffectRows(sites, effects, targets, e, n) <==>
        x in EffectRows(sites, effects, targets, e, n - 1) || HandsOver(sites, invoked, targets, e, n - 1, x);
    }
  }

  lemma {:induction false} EdgeRowsAre(sites: Sites, invoked: map<FnId, seq<Invoked>>, targets: Targets, edges: seq<Edge>, x: Invocation)
    ensures x in EdgeRows(sites, invoked, targets, edges) <==> HandedOver(sites, invoked, targets, edges, x)
  {
    hide EffectRows;
    if edges != [] {
      var init, e := edges[..|edges| - 1], edges[|edges| - 1];
      assert edges == init + [e];
      EdgeRowsAre(sites, invoked, targets, init, x);
      if HandedOver(sites, invoked, targets, init, x) {
        var d, n: nat :| d in init && HandsOver(sites, invoked, targets, d, n, x);
        assert d in edges;
      }
      if e.callee in invoked && e.site in sites {
        EffectRowsAre(sites, invoked, targets, e, |invoked[e.callee]|, x);
      }
    }
  }

  /** By call site, then by callee. */
  ghost predicate EdgesInOrder(edges: seq<Edge>) {
    forall i, j :: 0 <= i < j < |edges| ==>
      edges[i].site < edges[j].site || (edges[i].site == edges[j].site && edges[i].callee < edges[j].callee)
  }

  lemma KeysInOrder(edges: seq<Edge>)
    requires StrictlySorted(EdgeKey, edges)
    ensures EdgesInOrder(edges)
  {
    forall i, j | 0 <= i < j < |edges|
      ensures edges[i].site < edges[j].site || (edges[i].site == edges[j].site && edges[i].callee < edges[j].callee)
    {
      var a, b := EdgeKey(edges[i]), EdgeKey(edges[j]);
      LessIff(a, b);
      var k :| DiffersAt(a, b, k);
      assert k == 1 ==> a[0] == b[0];
    }
  }

  method RecordTargets(sites: Sites, ghost edges: seq<Edge>, found: Found, start: Start, effect: Invoked, callbacks: seq<FnId>)
    returns (found': Found)
    requires Collected(sites, edges, found) && start.site in sites
    ensures Collected(sites, edges, found')
    ensures found'.invocations == found.invocations + Rows(start, effect, callbacks)
  {
    hide Collected, Record;
    found' := found;
    ghost var rows := Rows(start, effect, callbacks);
    for i := 0 to |callbacks|
      invariant Collected(sites, edges, found')
      invariant found'.invocations == found.invocations + rows[..i]
    {
      var x := Invocation(start, callbacks[i], effect.context, effect.model);
      RecordOk(sites, edges, found', x);
      found' := Record(sites, found', x);
      assert rows[..i + 1] == rows[..i] + [x];
    }
    assert rows[..|callbacks|] == rows;
  }

  method RecordEffects(sites: Sites, ghost edges: seq<Edge>, found: Found, effects: seq<Invoked>, targets: Targets, e: Edge)
    returns (found': Found)
    requires Collected(sites, edges, found) && e.site in sites
    ensures Collected(sites, edges, found')
    ensures found'.invocations == found.invocations + EffectRows(sites, effects, targets, e, |effects|)
  {
    hide Collected;
    found' := found;
    for n := 0 to |effects|
      invariant Collected(sites, edges, found')
      invariant found'.invocations == found.invocations + EffectRows(sites, effects, targets, e, n)
    {
      if (e.site, e.callee, n) in targets {
        var start := Start(e.site, e.callee, effects[n].param, sites[e.site].receiver);
        found' := RecordTargets(sites, edges, found', start, effects[n], targets[(e.site, e.callee, n)]);
      }
    }
  }

  /** Read the callbacks off the resolved call edges. */
  method CallbackEdges(sites: Sites, invoked: map<FnId, seq<Invoked>>, targets: Targets, edges: seq<Edge>)
    returns (added: seq<Edge>, invocations: seq<Invocation>)
    ensures invocations == EdgeRows(sites, invoked, targets, edges)
    ensures forall x :: x in invocations <==> HandedOver(sites, invoked, targets, edges, x)
    ensures StrictlySorted(EdgeKey, added) && EdgesInOrder(added)
    ensures Collected(sites, edges, Found(SitePairs(edges) + SitePairs(added), added, invocations))
  {
    hide Collected, HandedOver;
    forall x ensures x in EdgeRows(sites, invoked, targets, edges) <==> HandedOver(sites, invoked, targets, edges, x) {
      EdgeRowsAre(sites, invoked, targets, edges, x);
    }
    if invoked == map[] {
      added, invocations := [], [];
      NothingCollected(sites, edges);
      NoEffects(sites, invoked, targets, edges);
      return;
    }
    var seen := set e | e in edges :: (e.site, e.callee);
    var found := Found(seen, [], []);
    NothingCollected(sites, edges);
    for k := 0 to |edges|
      invariant Collected(sites, edges, found)
      invariant found.invocations == EdgeRows(sites, invoked, targets, edges[..k])
    {
      var e := edges[k];
      assert edges[..k + 1][..k] == edges[..k];
      if e.callee in invoked && e.site in sites {
        found := RecordEffects(sites, edges, found, invoked[e.callee], targets, e);
      }
    }
    assert edges[..|edges|] == edges;
    invocations := found.invocations;
    added := SortBy(EdgeKey, found.edges);
    SortCollected(sites, edges, found);
    KeysInOrder(added);
  }

  lemma NothingCollected(sites: Sites, edges: seq<Edge>)
    ensures Collected(sites, edges, Found(SitePairs(edges), [], []))
    ensures Collected(sites, edges, Found(SitePairs(edges) + SitePairs([]), [], []))
  {
    assert SitePairs([]) == {};
    assert SitePairs(edges) + {} == SitePairs(edges);
  }

  lemma {:induction false} NoEffects(sites: Sites, invoked: map<FnId, seq<Invoked>>, targets: Targets, edges: seq<Edge>)
    requires invoked == map[]
    ensures EdgeRows(sites, invoked, targets, edges) == []
  {
    if edges != [] {
      NoEffects(sites, invoked, targets, edges[..|edges| - 1]);
    }
  }

  /** Sorting the new edges keeps them, and orders them strictly. */
  lemma SortCollected(sites: Sites, edges: seq<Edge>, found: Found)
    requires Collected(sites, edges, found)
    ensures StrictlySorted(EdgeKey, SortBy(EdgeKey, found.edges))
    ensures Collected(sites, edges, found.(seen := SitePairs(edges) + SitePairs(SortBy(EdgeKey, found.edges)), edges := SortBy(EdgeKey, found.edges)))
  {
    var s, t := found.edges, SortBy(EdgeKey, found.edges);
    SortByCorrect(EdgeKey, s);
    forall e ensures e in t <==> e in s { assert e in t <==> e in Elems(s); }
    assert SitePairs(t) == SitePairs(s);
    forall i, j | 0 <= i < j < |t| ensures EdgeKey(t[i]) != EdgeKey(t[j]) && Less(EdgeKey(t[i]), EdgeKey(t[j])) {
      DistinctStays(s, t, i, j);
      LessTotal(EdgeKey(t[i]), EdgeKey(t[j]));
    }
  }

  lemma {:induction false} OnceInMultiset<T>(s: seq<T>, x: T)
    requires forall i, j :: 0 <= i < j < |s| ==> s[i] != s[j]
    ensures multiset(s)[x] <= 1
  {
    if s != [] {
      OnceInMultiset(s[1..], x);
      assert s == [s[0]] + s[1..];
    }
  }

  lemma {:induction false} TwiceInMultiset<T>(s: seq<T>, i: nat, j: nat)
    requires i < j < |s| && s[i] == s[j]
    ensures multiset(s)[s[i]] >= 2
  {
    assert s == s[..j] + [s[j]] + s[j + 1..];
    assert s[i] in s[..j];
  }

  /** A permutation of edges with distinct keys has distinct keys. */
  lemma DistinctStays(s: seq<Edge>, t: seq<Edge>, i: nat, j: nat)
    requires multiset(s) == multiset(t) && i < j < |t|
    requires forall a, b :: 0 <= a < b < |s| ==> EdgeKey(s[a]) != EdgeKey(s[b])
    ensures EdgeKey(t[i]) != EdgeKey(t[j])
  {
    assert t[i] in multiset(s) && t[j] in multiset(s);
    var a :| 0 <= a < |s| && s[a] == t[i];
    var b :| 0 <= b < |s| && s[b] == t[j];
    if a == b {
      OnceInMultiset(s, t[i]);
      TwiceInMultiset(t, i, j);
    }
  }

  // ----- From call edges to contexts -----

  /** Every resolved edge leaves from the function its call site is in. */
  ghost predicate CallersOk(sites: Sites, edges: seq<Edge>) {
    forall e :: e in edges && e.site in sites ==> e.caller == sites[e.site].caller
  }

  /** The contexts the invocations and entries start, with their own evidence. */
  ghost function Started(sites: Sites, edges: seq<Edge>, invocations: seq<Invocation>, entries: seq<Entry>): seq<Context> {
    OwnList(sites, edges, InvocationRows(invocations), EntryRows(entries))
  }

  lemma CallbacksLinked(sites: Sites, edges: seq<Edge>, found: Found, bridges: seq<Edge>, entries: seq<Entry>)
    requires CallersOk(sites, edges) && Collected(sites, edges, found)
    ensures Linked(sites, edges + found.edges + bridges, Started(sites, edges + found.edges + bridges, found.invocations, entries))
  {
    hide Own;
    var all, rows := edges + found.edges + bridges, InvocationRows(found.invocations);
    var own := Started(sites, all, found.invocations, entries);
    OwnListIs(sites, all, rows, EntryRows(entries), own);
    InvocationRowsCorrect(found.invocations);
    forall k {:trigger own[k]} | 0 <= k < |own| && own[k].start.Some? && own[k].start.value.site in sites
      ensures (sites[own[k].start.value.site].caller, own[k].entry) in Pairs(all)
    {
      if k < |rows| {
        assert rows[k] in Elems(found.invocations);
        EdgeFor(sites, edges, found, rows[k]);
        var e :| e in edges + found.edges && e.caller == sites[rows[k].start.site].caller && e.callee == rows[k].entry;
        assert e in all && (e.caller, e.callee) in Pairs(all);
      }
    }
  }

  lemma SubmittersJoined(sites: Sites, edges: seq<Edge>, found: Found, bridges: seq<Edge>)
    requires CallersOk(sites, edges) && Collected(sites, edges, found)
    ensures SubmittersLinked(sites, edges + found.edges + bridges, found.invocations)
  {
    hide CallersOk, Collected;
    var all := edges + found.edges + bridges;
    forall x | x in found.invocations && x.start.site in sites ensures (sites[x.start.site].caller, x.entry) in Pairs(all) {
      EdgeFor(sites, edges, found, x);
      var e :| e in edges + found.edges && e.caller == sites[x.start.site].caller && e.callee == x.entry;
      assert e in all;
    }
  }

  lemma EdgeFor(sites: Sites, edges: seq<Edge>, found: Found, x: Invocation)
    requires CallersOk(sites, edges) && Collected(sites, edges, found) && x in found.invocations
    ensures x.start.site in sites
    ensures exists e :: e in edges + found.edges && e.caller == sites[x.start.site].caller && e.callee == x.entry
  {
    assert (x.start.site, x.entry) in SitePairs(edges) + SitePairs(found.edges);
    if (x.start.site, x.entry) in SitePairs(edges) {
      var e :| e in edges && (e.site, e.callee) == (x.start.site, x.entry);
      assert e in edges + found.edges;
    } else {
      var e :| e in found.edges && (e.site, e.callee) == (x.start.site, x.entry);
      assert e in edges + found.edges;
    }
  }

  /** The contexts of a whole program: callback edges and IPC bridges join the
      resolved call edges, and one marking pass settles every parent. */
  method ProgramContexts(sites: Sites, invoked: map<FnId, seq<Invoked>>, targets: Targets, edges: seq<Edge>,
                         bridges: seq<Edge>, entries: seq<Entry>)
    returns (contexts: seq<Context>, added: seq<Edge>)
    requires CallersOk(sites, edges)
    ensures Collected(sites, edges, Found(SitePairs(edges) + SitePairs(added), added, EdgeRows(sites, invoked, targets, edges)))
    ensures var all := edges + added + bridges;
      var own := Started(sites, all, EdgeRows(sites, invoked, targets, edges), entries);
      Linked(sites, all, own) && OnePass(sites, all, own, contexts) && ParentsSettled(sites, all, own, contexts)
    ensures var all, found := edges + added + bridges, EdgeRows(sites, invoked, targets, edges);
      ShowsRows(sites, found, all, InvocationRows(found), EntryRows(entries), contexts) && ShowsParents(sites, all, contexts)
  {
    hide Collected, ParentsSettled, OnePass, Linked, CallersOk, OwnList, InvocationRows, EntryRows, ShowsRows, ShowsParents, SubmittersLinked;
    hide HandedOver, EdgeRows;
    var invocations;
    added, invocations := CallbackEdges(sites, invoked, targets, edges);
    CallbacksLinked(sites, edges, Found(SitePairs(edges) + SitePairs(added), added, invocations), bridges, entries);
    SubmittersJoined(sites, edges, Found(SitePairs(edges) + SitePairs(added), added, invocations), bridges);
    contexts := ExecutionContexts(sites, invocations, entries, edges + added + bridges);
  }
}
