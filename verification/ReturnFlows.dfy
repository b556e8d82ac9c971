/** What a call's result may hold: the return facts of the callee and of every
    function its returns call, through cycles. */
module ReturnFlows {
  import opened Common

  type FnId = nat
  type VarId = nat
  type Name = nat

  /** One return statement's flow; a call by name comes with the functions the
      name may stand for in the returning function. */
  datatype Flow =
    | AddrOfVar(src: VarId)
    | AddrOfFn(fn: FnId)
    | Copy(src: VarId)
    | Call(name: Name, candidates: seq<FnId>)

  /** A constraint added to the destination. `Modelled` stands for the effects
      of the function model of that name, with the candidate whose parameters
      it binds. */
  datatype Fact =
    | PointsToVar(src: VarId)
    | PointsToFn(fn: FnId)
    | CopyOf(src: VarId)
    | Modelled(name: Name, params: Option<FnId>)

  /** `located` are the variables and functions that have a location. */
  datatype Program = Program(fnReturns: map<FnId, seq<Flow>>, locatedVars: set<VarId>, locatedFns: set<FnId>,
                             models: set<Name>, withParams: set<FnId>)

  /** The fact a flow states itself. */
  ghost function DirectFact(p: Program, flow: Flow): seq<Fact> {
    match flow
    case AddrOfVar(src) => if src in p.locatedVars then [PointsToVar(src)] else []
    case AddrOfFn(fn) => if fn in p.locatedFns then [PointsToFn(fn)] else []
    case Copy(src) => [CopyOf(src)]
    case Call(_, _) => []
  }

  ghost function FlowsOf(p: Program, f: FnId): seq<Flow> {
    if f in p.fnReturns then p.fnReturns[f] else []
  }

  /** `f` returns the result of a call that may be `g`. */
  ghost predicate ReturnsCall(p: Program, f: FnId, g: FnId) {
    exists k :: 0 <= k < |FlowsOf(p, f)| && FlowsOf(p, f)[k].Call? && g in FlowsOf(p, f)[k].candidates
  }

  ghost predicate ReturnWalk(p: Program, w: seq<FnId>, f: FnId, g: FnId) {
    w != [] && w[0] == f && w[|w| - 1] == g && forall i :: 0 <= i < |w| - 1 ==> ReturnsCall(p, w[i], w[i + 1])
  }

  ghost predicate ReturnReaches(p: Program, f: FnId, g: FnId) {
    exists w :: ReturnWalk(p, w, f, g)
  }

  /** `f` reaches `g` through return calls that keep clear of `avoid`. */
  ghost predicate ReachesAround(p: Program, avoid: set<FnId>, f: FnId, g: FnId) {
    exists w :: WalkAround(p, avoid, w, f, g)
  }

  ghost predicate WalkAround(p: Program, avoid: set<FnId>, w: seq<FnId>, f: FnId, g: FnId) {
    ReturnWalk(p, w, f, g) && forall i :: 0 <= i < |w| ==> w[i] !in avoid
  }

  lemma ReachesSelf(p: Program, avoid: set<FnId>, f: FnId)
    requires f !in avoid
    ensures ReachesAround(p, avoid, f, f)
  {
    assert WalkAround(p, avoid, [f], f, f);
  }

  lemma ReachesFirst(p: Program, avoid: set<FnId>, f: FnId, g: FnId, h: FnId)
    requires f !in avoid && ReturnsCall(p, f, g) && ReachesAround(p, avoid, g, h)
    ensures ReachesAround(p, avoid, f, h)
  {
    var w :| WalkAround(p, avoid, w, g, h);
    var v := [f] + w;
    forall i | 0 <= i < |v| - 1 ensures ReturnsCall(p, v[i], v[i + 1]) {
      assert i > 0 ==> v[i] == w[i - 1] && v[i + 1] == w[i];
    }
    assert WalkAround(p, avoid, v, f, h);
  }

  /** Keeping clear of less is easier. */
  lemma ReachesMore(p: Program, avoid: set<FnId>, less: set<FnId>, f: FnId, g: FnId)
    requires ReachesAround(p, avoid, f, g) && less <= avoid
    ensures ReachesAround(p, less, f, g)
  {
    var w :| WalkAround(p, avoid, w, f, g);
    assert WalkAround(p, less, w, f, g);
  }

  lemma AroundNothing(p: Program, f: FnId, g: FnId)
    ensures ReachesAround(p, {}, f, g) <==> ReturnReaches(p, f, g)
  {
    if ReturnReaches(p, f, g) {
      var w :| ReturnWalk(p, w, f, g);
      assert WalkAround(p, {}, w, f, g);
    }
  }

  /** A set that return calls leave only into `avoid` is not left by a walk that
      keeps clear of it. */
  lemma {:induction false} ClosedHolds(p: Program, avoid: set<FnId>, w: seq<FnId>, f: FnId, g: FnId, s: set<FnId>)
    requires WalkAround(p, avoid, w, f, g) && f in s
    requires forall a, b :: a in s && ReturnsCall(p, a, b) ==> b in s || b in avoid
    ensures g in s
    decreases |w|
  {
    if |w| > 1 {
      assert ReturnsCall(p, w[0], w[0 + 1]) && w[1] !in avoid;
      var v := w[1..];
      assert forall i {:trigger v[i]} :: 0 <= i < |v| ==> v[i] == w[i + 1];
      forall i | 0 <= i < |v| - 1 ensures ReturnsCall(p, v[i], v[i + 1]) {
        assert ReturnsCall(p, w[i + 1], w[i + 1 + 1]);
      }
      ClosedHolds(p, avoid, v, w[1], g, s);
    }
  }

  /** A call flow none of whose candidates has a body, but whose name is
      modelled. */
  ghost predicate Leaf(p: Program, flow: Flow) {
    Models(p, flow) && Bodyless(p, flow.candidates)
  }

  ghost predicate Bodyless(p: Program, candidates: seq<FnId>) {
    forall i :: 0 <= i < |candidates| ==> candidates[i] !in p.fnReturns
  }

  ghost predicate Models(p: Program, flow: Flow) {
    flow.Call? && flow.name in p.models
  }

  ghost function FirstWithParams(p: Program, candidates: seq<FnId>): Option<FnId> {
    if candidates == [] then None
    else if candidates[0] in p.withParams then Some(candidates[0])
    else FirstWithParams(p, candidates[1..])
  }

  ghost function ModelFact(p: Program, flow: Flow): Fact
    requires flow.Call?
  {
    Modelled(flow.name, FirstWithParams(p, flow.candidates))
  }

  // ----- the expansion as a function -----

  /** The functions visited by then, those visited on the way in order, and the
      facts they add. */
  datatype Walked = Walked(visited: set<FnId>, order: seq<FnId>, facts: seq<Fact>)

  /** Everything `f` returns, as far as not visited before. */
  ghost function Walk(p: Program, visited: set<FnId>, f: FnId): (w: Walked)
    ensures visited <= w.visited
    decreases p.fnReturns.Keys - visited, 0, 0
  {
    if f in visited then Walked(visited, [], [])
    else if f !in p.fnReturns then Walked(visited + {f}, [f], [])
    else
      assert f in p.fnReturns.Keys && f !in p.fnReturns.Keys - (visited + {f});
      var w := WalkFlows(p, visited + {f}, p.fnReturns[f]);
      Walked(w.visited, [f] + w.order, w.facts)
  }

  ghost function WalkFlows(p: Program, visited: set<FnId>, flows: seq<Flow>): (w: Walked)
    ensures visited <= w.visited
    decreases p.fnReturns.Keys - visited, 3, |flows|
  {
    if flows == [] then Walked(visited, [], [])
    else
      var init := WalkFlows(p, visited, flows[..|flows| - 1]);
      var last := WalkFlow(p, init.visited, flows[|flows| - 1]);
      Walked(last.visited, init.order + last.order, init.facts + last.facts)
  }

  ghost function WalkFlow(p: Program, visited: set<FnId>, flow: Flow): (w: Walked)
    ensures visited <= w.visited
    decreases p.fnReturns.Keys - visited, 2, 0
  {
    if flow.Call? then
      var inner := WalkCandidates(p, visited, flow.candidates);
      Walked(inner.visited, inner.order, inner.facts + Fallback(p, flow, inner.facts))
    else
      Walked(visited, [], DirectFact(p, flow))
  }

  /** A call is modelled when its candidates brought nothing. */
  ghost function Fallback(p: Program, flow: Flow, inner: seq<Fact>): seq<Fact>
    requires flow.Call?
  {
    if inner == [] && flow.name in p.models then [ModelFact(p, flow)] else []
  }

  ghost function WalkCandidates(p: Program, visited: set<FnId>, candidates: seq<FnId>): (w: Walked)
    ensures visited <= w.visited
    decreases p.fnReturns.Keys - visited, 1, |candidates|
  {
    if candidates == [] then Walked(visited, [], [])
    else
      var init := WalkCandidates(p, visited, candidates[..|candidates| - 1]);
      var last := Walk(p, init.visited, candidates[|candidates| - 1]);
      Walked(last.visited, init.order + last.order, init.facts + last.facts)
  }

  // ----- counting facts -----

  /** Facts by where they come from: return statements, or models. */
  datatype Shares = Shares(own: multiset<Fact>, model: multiset<Fact>)

  const NOTHING := Shares(multiset{}, multiset{})

  ghost function Plus(a: Shares, b: Shares): Shares {
    Shares(a.own + b.own, a.model + b.model)
  }

  lemma Regroup(a: Shares, b: Shares, c: Shares, d: Shares)
    ensures Plus(Plus(a, b), c) == Plus(a, Plus(b, c))
    ensures Plus(Plus(a, b), Plus(c, d)) == Plus(Plus(a, c), Plus(b, d))
    ensures Plus(a, NOTHING) == a == Plus(NOTHING, a)
  {
  }

  ghost function One(fact: Fact): Shares {
    if fact.Modelled? then Shares(multiset{}, multiset{fact}) else Shares(multiset{fact}, multiset{})
  }

  ghost function Parts(facts: seq<Fact>): Shares {
    if facts == [] then NOTHING else Plus(Parts(facts[..|facts| - 1]), One(facts[|facts| - 1]))
  }

  lemma {:induction false} PartsConcat(a: seq<Fact>, b: seq<Fact>)
    ensures Parts(a + b) == Plus(Parts(a), Parts(b))
  {
    hide One, Plus;
    if b == [] {
      assert a + b == a;
      Regroup(Parts(a), NOTHING, NOTHING, NOTHING);
    } else {
      var init, last := b[..|b| - 1], One(b[|b| - 1]);
      PartsConcat(a, init);
      assert (a + b)[..|a + b| - 1] == a + init;
      Regroup(Parts(a), Parts(init), last, NOTHING);
    }
  }

  /** Parts forget nothing but the order. */
  lemma {:induction false} PartsAll(facts: seq<Fact>)
    ensures Parts(facts).own + Parts(facts).model == multiset(facts)
    ensures facts == [] <==> Parts(facts) == NOTHING
  {
    if facts != [] {
      var init := facts[..|facts| - 1];
      PartsAll(init);
      assert facts == init + [facts[|facts| - 1]];
    }
  }

  /** What a flow is due by the tables: its own fact, and for a leaf call its
      model. */
  ghost function Share(p: Program, flow: Flow): Shares {
    Shares(multiset(DirectFact(p, flow)), if Leaf(p, flow) then multiset{ModelFact(p, flow)} else multiset{})
  }

  ghost function FlowShares(p: Program, flows: seq<Flow>): Shares {
    if flows == [] then NOTHING else Plus(FlowShares(p, flows[..|flows| - 1]), Share(p, flows[|flows| - 1]))
  }

  /** What the functions listed are due. */
  ghost function Total(p: Program, order: seq<FnId>): Shares {
    if order == [] then NOTHING else Plus(Total(p, order[..|order| - 1]), FlowShares(p, FlowsOf(p, order[|order| - 1])))
  }

  lemma {:induction false} TotalConcat(p: Program, a: seq<FnId>, b: seq<FnId>)
    ensures Total(p, a + b) == Plus(Total(p, a), Total(p, b))
  {
    hide FlowShares, Plus;
    if b == [] {
      assert a + b == a;
      Regroup(Total(p, a), NOTHING, NOTHING, NOTHING);
    } else {
      var init, last := b[..|b| - 1], FlowShares(p, FlowsOf(p, b[|b| - 1]));
      TotalConcat(p, a, init);
      assert (a + b)[..|a + b| - 1] == a + init;
      Regroup(Total(p, a), Total(p, init), last, NOTHING);
    }
  }

  lemma TotalFirst(p: Program, f: FnId, order: seq<FnId>)
    ensures Total(p, [f] + order) == Plus(FlowShares(p, FlowsOf(p, f)), Total(p, order))
  {
    hide FlowShares, Plus;
    TotalConcat(p, [f], order);
    assert [f][..0] == [];
    Regroup(FlowShares(p, FlowsOf(p, f)), NOTHING, NOTHING, NOTHING);
  }

  /** The facts are the share's; models may exceed it unless `exact`. */
  ghost predicate Adds(facts: seq<Fact>, share: Shares, exact: bool) {
    && Parts(facts).own == share.own
    && share.model <= Parts(facts).model
    && (exact ==> Parts(facts).model == share.model)
  }

  lemma AddsConcat(a: seq<Fact>, b: seq<Fact>, x: Shares, y: Shares, exact: bool)
    requires Adds(a, x, exact) && Adds(b, y, exact)
    ensures Adds(a + b, Plus(x, y), exact)
  {
    hide Parts;
    PartsConcat(a, b);
  }

  lemma AddsLess(facts: seq<Fact>, share: Shares, exact: bool, less: bool)
    requires Adds(facts, share, exact) && (less ==> exact)
    ensures Adds(facts, share, less)
  {
  }

  /** Every modelled call is a leaf. */
  ghost predicate PlainFlows(p: Program, flows: seq<Flow>) {
    forall k :: 0 <= k < |flows| && Models(p, flows[k]) ==> Leaf(p, flows[k])
  }

  ghost predicate PlainFns(p: Program, order: seq<FnId>) {
    forall f :: f in order ==> PlainFlows(p, FlowsOf(p, f))
  }

  /** A flow with neither a fact of its own nor a model. */
  ghost predicate Mute(p: Program, flow: Flow) {
    DirectFact(p, flow) == [] && !Models(p, flow)
  }

  ghost predicate MuteFlows(p: Program, flows: seq<Flow>) {
    forall k :: 0 <= k < |flows| ==> Mute(p, flows[k])
  }

  ghost predicate MuteFns(p: Program, order: seq<FnId>) {
    forall f :: f in order ==> MuteFlows(p, FlowsOf(p, f))
  }

  // ----- what the expansion of functions, flows and one flow adds -----

  /** Expanding the functions `order` added `facts`: each one's direct facts and
      leaf models, no other model if every modelled call is a leaf, and nothing
      exactly if there was nothing to add. */
  ghost predicate Expanded(p: Program, order: seq<FnId>, facts: seq<Fact>) {
    && Adds(facts, Total(p, order), PlainFns(p, order))
    && (forall fact :: fact in facts && fact.Modelled? ==> ModelFrom(p, order, fact))
    && (facts == [] <==> MuteFns(p, order))
  }

  ghost predicate FlowsDone(p: Program, flows: seq<Flow>, order: seq<FnId>, facts: seq<Fact>) {
    && Adds(facts, Plus(FlowShares(p, flows), Total(p, order)), PlainFlows(p, flows) && PlainFns(p, order))
    && (forall fact :: fact in facts && fact.Modelled? ==> ModelIn(p, flows, fact) || ModelFrom(p, order, fact))
    && (facts == [] <==> MuteFlows(p, flows) && MuteFns(p, order))
  }

  ghost predicate FlowDone(p: Program, flow: Flow, order: seq<FnId>, facts: seq<Fact>) {
    && Adds(facts, Plus(Share(p, flow), Total(p, order)), (Models(p, flow) ==> Leaf(p, flow)) && PlainFns(p, order))
    && (forall fact :: fact in facts && fact.Modelled? ==> OwnModel(p, flow, fact) || ModelFrom(p, order, fact))
    && (facts == [] <==> Mute(p, flow) && MuteFns(p, order))
  }

  ghost predicate OwnModel(p: Program, flow: Flow, fact: Fact) {
    Models(p, flow) && fact == ModelFact(p, flow)
  }

  ghost predicate ModelIn(p: Program, flows: seq<Flow>, fact: Fact) {
    exists k :: 0 <= k < |flows| && OwnModel(p, flows[k], fact)
  }

  /** A model fact stems from a modelled call of a function visited. */
  ghost predicate ModelFrom(p: Program, order: seq<FnId>, fact: Fact) {
    exists f :: f in order && ModelIn(p, FlowsOf(p, f), fact)
  }

  lemma ModelFromMore(p: Program, x: seq<FnId>, y: seq<FnId>, fact: Fact)
    requires ModelFrom(p, x, fact) && forall f :: f in x ==> f in y
    ensures ModelFrom(p, y, fact)
  {
    hide ModelIn;
    var f :| f in x && ModelIn(p, FlowsOf(p, f), fact);
    assert f in y;
  }

  lemma FnsConcat(p: Program, x: seq<FnId>, y: seq<FnId>)
    ensures PlainFns(p, x + y) <==> PlainFns(p, x) && PlainFns(p, y)
    ensures MuteFns(p, x + y) <==> MuteFns(p, x) && MuteFns(p, y)
  {
    hide PlainFlows, MuteFlows;
    assert forall f :: f in x + y <==> f in x || f in y;
  }

  lemma FlowsSnoc(p: Program, flows: seq<Flow>, n: nat)
    requires n < |flows|
    ensures PlainFlows(p, flows[..n + 1]) <==> PlainFlows(p, flows[..n]) && (Models(p, flows[n]) ==> Leaf(p, flows[n]))
    ensures MuteFlows(p, flows[..n + 1]) <==> MuteFlows(p, flows[..n]) && Mute(p, flows[n])
    ensures FlowShares(p, flows[..n + 1]) == Plus(FlowShares(p, flows[..n]), Share(p, flows[n]))
    ensures forall fact :: ModelIn(p, flows[..n], fact) || OwnModel(p, flows[n], fact) ==> ModelIn(p, flows[..n + 1], fact)
  {
    hide Leaf, Models, Mute, Share, Plus, OwnModel;
    var more := flows[..n + 1];
    assert more[..n] == flows[..n] && more[n] == flows[n];
    forall fact | ModelIn(p, flows[..n], fact) || OwnModel(p, flows[n], fact) ensures ModelIn(p, more, fact) {
      if ModelIn(p, flows[..n], fact) {
        var k :| 0 <= k < n && OwnModel(p, flows[..n][k], fact);
        assert more[k] == flows[k];
      } else {
        assert OwnModel(p, more[n], fact);
      }
    }
  }

  lemma NothingAdded(p: Program, f: FnId)
    ensures Expanded(p, [], []) && FlowsDone(p, [], [], [])
    ensures f !in p.fnReturns ==> Expanded(p, [f], [])
  {
    assert [f][..0] == [];
  }

  lemma ExpandedConcat(p: Program, x: seq<FnId>, y: seq<FnId>, a: seq<Fact>, b: seq<Fact>)
    requires Expanded(p, x, a) && Expanded(p, y, b)
    ensures Expanded(p, x + y, a + b)
  {
    hide Adds, Total, PlainFns, MuteFns, ModelFrom, Plus;
    FnsConcat(p, x, y);
    TotalConcat(p, x, y);
    var exact := PlainFns(p, x + y);
    AddsLess(a, Total(p, x), PlainFns(p, x), exact);
    AddsLess(b, Total(p, y), PlainFns(p, y), exact);
    AddsConcat(a, b, Total(p, x), Total(p, y), exact);
    forall fact | fact in a + b && fact.Modelled? ensures ModelFrom(p, x + y, fact) {
      if fact in a { ModelFromMore(p, x, x + y, fact); } else { ModelFromMore(p, y, x + y, fact); }
    }
  }

  lemma FlowsStep(p: Program, flows: seq<Flow>, n: nat, x: seq<FnId>, y: seq<FnId>, a: seq<Fact>, b: seq<Fact>)
    requires n < |flows| && FlowsDone(p, flows[..n], x, a) && FlowDone(p, flows[n], y, b)
    ensures FlowsDone(p, flows[..n + 1], x + y, a + b)
  {
    hide Adds, Total, PlainFns, MuteFns, PlainFlows, MuteFlows, ModelFrom, ModelIn, OwnModel, FlowShares, Share, Mute, Models, Leaf, Plus;
    FnsConcat(p, x, y);
    FlowsSnoc(p, flows, n);
    FlowsAdd(p, flows, n, x, y, a, b);
    forall fact | fact in a + b && fact.Modelled? ensures ModelIn(p, flows[..n + 1], fact) || ModelFrom(p, x + y, fact) {
      if ModelFrom(p, x, fact) {
        ModelFromMore(p, x, x + y, fact);
      } else if ModelFrom(p, y, fact) {
        ModelFromMore(p, y, x + y, fact);
      }
    }
  }

  lemma FlowsAdd(p: Program, flows: seq<Flow>, n: nat, x: seq<FnId>, y: seq<FnId>, a: seq<Fact>, b: seq<Fact>)
    requires n < |flows| && FlowsDone(p, flows[..n], x, a) && FlowDone(p, flows[n], y, b)
    ensures Adds(a + b, Plus(FlowShares(p, flows[..n + 1]), Total(p, x + y)), PlainFlows(p, flows[..n + 1]) && PlainFns(p, x + y))
  {
    hide Adds, Total, PlainFns, MuteFns, PlainFlows, MuteFlows, ModelFrom, ModelIn, OwnModel, FlowShares, Share, Mute, Models, Leaf, Plus;
    FnsConcat(p, x, y);
    FlowsSnoc(p, flows, n);
    TotalConcat(p, x, y);
    var exact := PlainFlows(p, flows[..n + 1]) && PlainFns(p, x + y);
    var s, t := Plus(FlowShares(p, flows[..n]), Total(p, x)), Plus(Share(p, flows[n]), Total(p, y));
    AddsLess(a, s, PlainFlows(p, flows[..n]) && PlainFns(p, x), exact);
    AddsLess(b, t, (Models(p, flows[n]) ==> Leaf(p, flows[n])) && PlainFns(p, y), exact);
    AddsConcat(a, b, s, t, exact);
    Regroup(FlowShares(p, flows[..n]), Total(p, x), Share(p, flows[n]), Total(p, y));
  }

  /** The flows of `f`, all of them, and what they brought in. */
  lemma FlowsAll(p: Program, f: FnId, order: seq<FnId>, facts: seq<Fact>)
    requires FlowsDone(p, FlowsOf(p, f), order, facts)
    ensures Expanded(p, [f] + order, facts)
  {
    hide Adds, Total, PlainFlows, MuteFlows, ModelIn, FlowShares, Plus;
    TotalFirst(p, f, order);
    assert forall g :: g in [f] + order <==> g == f || g in order;
    forall fact | fact in facts && fact.Modelled? ensures ModelFrom(p, [f] + order, fact) {
      if ModelIn(p, FlowsOf(p, f), fact) {
        assert f in [f] + order;
      } else {
        ModelFromMore(p, order, [f] + order, fact);
      }
    }
  }

  /** A call: its candidates' facts, and its model exactly when they brought
      none. */
  lemma CallDone(p: Program, flow: Flow, order: seq<FnId>, inner: seq<Fact>)
    requires flow.Call? && Expanded(p, order, inner) && (Leaf(p, flow) ==> inner == [])
    ensures FlowDone(p, flow, order, inner + Fallback(p, flow, inner))
  {
    hide Expanded, FlowDone;
    if inner == [] && flow.name in p.models {
      CallModelled(p, flow, order);
      assert inner + Fallback(p, flow, inner) == [ModelFact(p, flow)];
    } else {
      assert inner + Fallback(p, flow, inner) == inner;
      CallUnmodelled(p, flow, order, inner);
    }
  }

  lemma CallModelled(p: Program, flow: Flow, order: seq<FnId>)
    requires Models(p, flow) && Expanded(p, order, [])
    ensures FlowDone(p, flow, order, [ModelFact(p, flow)])
  {
    hide ModelFrom, PlainFns, MuteFns, Total, Leaf;
    PartsOne(ModelFact(p, flow));
  }

  lemma CallUnmodelled(p: Program, flow: Flow, order: seq<FnId>, inner: seq<Fact>)
    requires flow.Call? && Expanded(p, order, inner) && !Leaf(p, flow) && (inner == [] ==> !Models(p, flow))
    ensures FlowDone(p, flow, order, inner)
  {
    hide ModelFrom, PlainFns, MuteFns, Total, Parts, Leaf;
  }

  lemma DirectDone(p: Program, flow: Flow)
    requires !flow.Call?
    ensures FlowDone(p, flow, [], DirectFact(p, flow))
  {
    hide PlainFns, MuteFns, ModelFrom, Parts;
    NothingAdded(p, 0);
    PartsDirect(p, flow);
    Regroup(Share(p, flow), NOTHING, NOTHING, NOTHING);
    assert MuteFns(p, []) && Total(p, []) == NOTHING;
  }

  lemma PartsDirect(p: Program, flow: Flow)
    requires !flow.Call?
    ensures Parts(DirectFact(p, flow)) == Share(p, flow)
    ensures forall fact :: fact in DirectFact(p, flow) ==> !fact.Modelled?
  {
    var facts := DirectFact(p, flow);
    if facts != [] {
      assert facts == [facts[0]];
      PartsOne(facts[0]);
    }
  }

  lemma PartsOne(fact: Fact)
    ensures Parts([fact]) == One(fact)
  {
    assert [fact][..0] == [];
    Regroup(One(fact), NOTHING, NOTHING, NOTHING);
  }

  // ----- the functions visited -----

  /** The functions visited in `order` are new, distinct, and `visited'` is
      what they and `visited` make. */
  ghost predicate Visits(visited: set<FnId>, visited': set<FnId>, order: seq<FnId>) {
    NoDup(order) && visited' == visited + Elems(order) && visited !! Elems(order)
  }

  lemma VisitsConcat(a: set<FnId>, b: set<FnId>, c: set<FnId>, x: seq<FnId>, y: seq<FnId>)
    requires Visits(a, b, x) && Visits(b, c, y)
    ensures Visits(a, c, x + y)
  {
    assert Elems(x + y) == Elems(x) + Elems(y);
    forall i, j | 0 <= i < j < |x + y| ensures (x + y)[i] != (x + y)[j] {
      if i < |x| <= j {
        assert x[i] in Elems(x) && y[j - |x|] in Elems(y);
      }
    }
  }

  /** Whatever the newly visited functions' returns call has been visited. */
  ghost predicate Closed(p: Program, order: seq<FnId>, visited: set<FnId>) {
    forall f, g :: f in order && ReturnsCall(p, f, g) ==> g in visited
  }

  /** Each function listed is reached from one of `starts`, around `avoid`. */
  ghost predicate ReachedFrom(p: Program, avoid: set<FnId>, starts: seq<FnId>, order: seq<FnId>) {
    forall g :: g in order ==> FromSome(p, avoid, starts, g)
  }

  ghost predicate FromSome(p: Program, avoid: set<FnId>, starts: seq<FnId>, g: FnId) {
    exists f :: f in starts && ReachesAround(p, avoid, f, g)
  }

  /** The candidates of the first `n` flows of `f` have been visited. */
  ghost predicate CallsVisited(p: Program, f: FnId, n: nat, visited: set<FnId>)
    requires n <= |FlowsOf(p, f)|
  {
    forall k, i :: 0 <= k < n && FlowsOf(p, f)[k].Call? && 0 <= i < |FlowsOf(p, f)[k].candidates| ==>
      FlowsOf(p, f)[k].candidates[i] in visited
  }

  lemma ClosedAll(p: Program, f: FnId, order: seq<FnId>, visited: set<FnId>)
    requires CallsVisited(p, f, |FlowsOf(p, f)|, visited) && Closed(p, order, visited)
    ensures Closed(p, [f] + order, visited)
  {
    forall a, b | a in [f] + order && ReturnsCall(p, a, b) ensures b in visited {
      if a == f {
        var k :| 0 <= k < |FlowsOf(p, f)| && FlowsOf(p, f)[k].Call? && b in FlowsOf(p, f)[k].candidates;
        var i :| 0 <= i < |FlowsOf(p, f)[k].candidates| && FlowsOf(p, f)[k].candidates[i] == b;
      }
    }
  }

  lemma ClosedConcat(p: Program, x: seq<FnId>, y: seq<FnId>, visited: set<FnId>, visited': set<FnId>)
    requires Closed(p, x, visited) && Closed(p, y, visited') && visited <= visited'
    ensures Closed(p, x + y, visited')
  {
    forall f, g | f in x + y && ReturnsCall(p, f, g) ensures g in visited' {
      assert f in x || f in y;
    }
  }

  lemma ReachedVia(p: Program, avoid: set<FnId>, visited: set<FnId>, f: FnId, n: nat, order: seq<FnId>)
    requires n < |FlowsOf(p, f)| && FlowsOf(p, f)[n].Call? && f !in avoid && avoid <= visited
    requires ReachedFrom(p, visited, FlowsOf(p, f)[n].candidates, order)
    ensures ReachedFrom(p, avoid, [f], order)
  {
    hide ReachesAround;
    forall g | g in order ensures FromSome(p, avoid, [f], g) {
      assert FromSome(p, visited, FlowsOf(p, f)[n].candidates, g);
      var c :| c in FlowsOf(p, f)[n].candidates && ReachesAround(p, visited, c, g);
      assert ReturnsCall(p, f, c);
      ReachesMore(p, visited, avoid, c, g);
      ReachesFirst(p, avoid, f, c, g);
      assert f in [f];
    }
  }

  /** A call flow has had its candidates visited, and brought in nothing but
      what they reach around `avoid`. */
  ghost predicate FlowReached(p: Program, avoid: set<FnId>, flow: Flow, order: seq<FnId>, visited: set<FnId>) {
    if flow.Call? then
      ReachedFrom(p, avoid, flow.candidates, order) && forall i :: 0 <= i < |flow.candidates| ==> flow.candidates[i] in visited
    else order == []
  }

  lemma Trivial(p: Program, avoid: set<FnId>, f: FnId, visited: set<FnId>)
    ensures Visits(visited, visited, []) && Closed(p, [], visited)
    ensures ReachedFrom(p, avoid, [f], []) && CallsVisited(p, f, 0, visited)
    ensures f !in avoid ==> ReachedFrom(p, avoid, [f], [f])
    ensures f !in p.fnReturns ==> Closed(p, [f], visited + {f})
    ensures f !in visited ==> Visits(visited, visited + {f}, [f])
  {
    hide ReachesAround;
    assert Elems<FnId>([]) == {} && Elems([f]) == {f};
    if f !in avoid {
      ReachesSelf(p, avoid, f);
    }
    assert f in [f];
  }

  lemma StartReached(p: Program, avoid: set<FnId>, f: FnId, order: seq<FnId>)
    requires f !in avoid && ReachedFrom(p, avoid, [f], order)
    ensures ReachedFrom(p, avoid, [f], [f] + order)
  {
    hide ReachesAround;
    ReachesSelf(p, avoid, f);
    assert f in [f];
  }

  lemma StepReached(p: Program, avoid: set<FnId>, f: FnId, n: nat, order: seq<FnId>, nested: seq<FnId>, visited: set<FnId>, visited': set<FnId>)
    requires n < |FlowsOf(p, f)| && f !in avoid && avoid <= visited
    requires ReachedFrom(p, avoid, [f], order) && FlowReached(p, visited, FlowsOf(p, f)[n], nested, visited')
    requires CallsVisited(p, f, n, visited) && visited <= visited'
    ensures ReachedFrom(p, avoid, [f], order + nested) && CallsVisited(p, f, n + 1, visited')
  {
    hide FromSome;
    if FlowsOf(p, f)[n].Call? {
      ReachedVia(p, avoid, visited, f, n, nested);
    }
  }

  /** What a walk from `starts` with `visited` behind it amounts to. */
  ghost predicate WalkDone(p: Program, visited: set<FnId>, avoid: set<FnId>, starts: seq<FnId>, w: Walked) {
    && Visits(visited, w.visited, w.order)
    && Closed(p, w.order, w.visited)
    && ReachedFrom(p, avoid, starts, w.order)
  }

  lemma {:induction false} WalkOk(p: Program, visited: set<FnId>, f: FnId)
    ensures var w := Walk(p, visited, f);
      WalkDone(p, visited, visited, [f], w) && f in w.visited && Expanded(p, w.order, w.facts) && (f !in p.fnReturns ==> w.facts == [])
    decreases p.fnReturns.Keys - visited, 0, 0
  {
    hide Closed, ReachedFrom, Expanded, CallsVisited, FlowsDone, Visits;
    NothingAdded(p, f);
    Trivial(p, visited, f, visited);
    if f !in visited && f in p.fnReturns {
      assert f in p.fnReturns.Keys && f !in p.fnReturns.Keys - (visited + {f});
      var flows := p.fnReturns[f];
      assert flows[..|flows|] == flows == FlowsOf(p, f);
      var w := WalkFlows(p, visited + {f}, flows);
      WalkFlowsOk(p, visited + {f}, f, |flows|);
      VisitsConcat(visited, visited + {f}, w.visited, [f], w.order);
      FlowsAll(p, f, w.order, w.facts);
      ClosedAll(p, f, w.order, w.visited);
      assert visited + {f} - {f} == visited;
      StartReached(p, visited, f, w.order);
    }
  }

  lemma {:induction false} WalkFlowsOk(p: Program, visited: set<FnId>, f: FnId, n: nat)
    requires n <= |FlowsOf(p, f)|
    ensures var flows := FlowsOf(p, f)[..n]; var w := WalkFlows(p, visited, flows);
      WalkDone(p, visited, visited - {f}, [f], w) && CallsVisited(p, f, n, w.visited) && FlowsDone(p, flows, w.order, w.facts)
    decreases p.fnReturns.Keys - visited, 3, n
  {
    hide Closed, ReachedFrom, CallsVisited, FlowsDone, FlowDone, Visits, FlowReached;
    var flows := FlowsOf(p, f)[..n];
    NothingAdded(p, f);
    Trivial(p, visited - {f}, f, visited);
    if n > 0 {
      assert flows[..n - 1] == FlowsOf(p, f)[..n - 1];
      var init := WalkFlows(p, visited, flows[..n - 1]);
      var last := WalkFlow(p, init.visited, flows[n - 1]);
      WalkFlowsOk(p, visited, f, n - 1);
      WalkFlowOk(p, init.visited, flows[n - 1]);
      VisitsConcat(visited, init.visited, last.visited, init.order, last.order);
      FlowsStep(p, FlowsOf(p, f), n - 1, init.order, last.order, init.facts, last.facts);
      ClosedConcat(p, init.order, last.order, init.visited, last.visited);
      StepReached(p, visited - {f}, f, n - 1, init.order, last.order, init.visited, last.visited);
    }
  }

  lemma {:induction false} WalkFlowOk(p: Program, visited: set<FnId>, flow: Flow)
    ensures var w := WalkFlow(p, visited, flow);
      && Visits(visited, w.visited, w.order) && Closed(p, w.order, w.visited)
      && FlowReached(p, visited, flow, w.order, w.visited) && FlowDone(p, flow, w.order, w.facts)
    decreases p.fnReturns.Keys - visited, 2, 0
  {
    hide Closed, ReachedFrom, FlowDone, Expanded, Visits;
    Trivial(p, visited, 0, visited);
    if flow.Call? {
      var inner := WalkCandidates(p, visited, flow.candidates);
      WalkCandidatesOk(p, visited, flow.candidates);
      CallDone(p, flow, inner.order, inner.facts);
    } else {
      DirectDone(p, flow);
    }
  }

  lemma {:induction false} WalkCandidatesOk(p: Program, visited: set<FnId>, candidates: seq<FnId>)
    ensures CandidatesDone(p, visited, candidates, WalkCandidates(p, visited, candidates))
    decreases p.fnReturns.Keys - visited, 1, |candidates|
  {
    hide CandidatesDone, WalkDone, Expanded, Walk;
    var n := |candidates|;
    if n == 0 {
      NoCandidates(p, visited);
    } else {
      var init := WalkCandidates(p, visited, candidates[..n - 1]);
      WalkCandidatesOk(p, visited, candidates[..n - 1]);
      WalkOk(p, init.visited, candidates[n - 1]);
      CandidatesStep(p, visited, candidates, init, Walk(p, init.visited, candidates[n - 1]));
    }
  }

  /** All candidates have been walked; without a body they brought nothing. */
  ghost predicate CandidatesDone(p: Program, visited: set<FnId>, candidates: seq<FnId>, w: Walked) {
    && WalkDone(p, visited, visited, candidates, w) && Expanded(p, w.order, w.facts)
    && (forall i :: 0 <= i < |candidates| ==> candidates[i] in w.visited)
    && (Bodyless(p, candidates) ==> w.facts == [])
  }

  lemma NoCandidates(p: Program, visited: set<FnId>)
    ensures CandidatesDone(p, visited, [], Walked(visited, [], []))
  {
    NothingAdded(p, 0);
    Trivial(p, visited, 0, visited);
    NoneReached(p, visited, []);
  }

  lemma CandidatesStep(p: Program, visited: set<FnId>, candidates: seq<FnId>, init: Walked, last: Walked)
    requires candidates != [] && CandidatesDone(p, visited, candidates[..|candidates| - 1], init)
    requires var f := candidates[|candidates| - 1];
      WalkDone(p, init.visited, init.visited, [f], last) && f in last.visited && Expanded(p, last.order, last.facts) && (f !in p.fnReturns ==> last.facts == [])
    ensures CandidatesDone(p, visited, candidates, Walked(last.visited, init.order + last.order, init.facts + last.facts))
  {
    hide Closed, Expanded, ReachedFrom;
    VisitsConcat(visited, init.visited, last.visited, init.order, last.order);
    ExpandedConcat(p, init.order, last.order, init.facts, last.facts);
    ClosedConcat(p, init.order, last.order, init.visited, last.visited);
    CandidatesReached(p, visited, init.visited, candidates, init.order, last.order);
  }

  lemma NoneReached(p: Program, avoid: set<FnId>, starts: seq<FnId>)
    ensures ReachedFrom(p, avoid, starts, [])
  {
  }

  lemma CandidatesReached(p: Program, avoid: set<FnId>, visited: set<FnId>, candidates: seq<FnId>, x: seq<FnId>, y: seq<FnId>)
    requires candidates != [] && avoid <= visited
    requires ReachedFrom(p, avoid, candidates[..|candidates| - 1], x) && ReachedFrom(p, visited, [candidates[|candidates| - 1]], y)
    ensures ReachedFrom(p, avoid, candidates, x + y)
  {
    hide ReachesAround;
    var n := |candidates| - 1;
    forall g | g in x + y ensures FromSome(p, avoid, candidates, g) {
      if g in x {
        assert FromSome(p, avoid, candidates[..n], g);
        var f :| f in candidates[..n] && ReachesAround(p, avoid, f, g);
        assert f in candidates;
      } else {
        assert FromSome(p, visited, [candidates[n]], g);
        var f :| f in [candidates[n]] && ReachesAround(p, visited, f, g);
        ReachesMore(p, visited, avoid, f, g);
        assert f in candidates;
      }
    }
  }

  /** A walk newly visits exactly the functions that are reached around what was
      visited before. */
  lemma NewlyVisited(p: Program, visited: set<FnId>, starts: seq<FnId>, w: Walked, g: FnId)
    requires WalkDone(p, visited, visited, starts, w) && forall i :: 0 <= i < |starts| ==> starts[i] in w.visited
    ensures g in w.order <==> FromSome(p, visited, starts, g)
  {
    hide ReturnWalk, ReturnsCall;
    if FromSome(p, visited, starts, g) {
      var f :| f in starts && ReachesAround(p, visited, f, g);
      var v :| WalkAround(p, visited, v, f, g);
      WalkStarts(p, visited, v, f, g);
      assert f in Elems(w.order);
      forall a, b | a in Elems(w.order) && ReturnsCall(p, a, b) ensures b in Elems(w.order) || b in visited {
        assert b in w.visited;
      }
      ClosedHolds(p, visited, v, f, g, Elems(w.order));
    }
  }

  lemma WalkStarts(p: Program, avoid: set<FnId>, w: seq<FnId>, f: FnId, g: FnId)
    requires WalkAround(p, avoid, w, f, g)
    ensures f !in avoid
  {
    assert w[0] == f;
  }

  // ----- when a model is used -----

  /** Every function the candidates reach around those visited has neither a fact
      of its own nor a modelled call. */
  ghost predicate AllMute(p: Program, visited: set<FnId>, candidates: seq<FnId>) {
    forall g :: FromSome(p, visited, candidates, g) ==> MuteFlows(p, FlowsOf(p, g))
  }

  /** A modelled call gets its model exactly when what its candidates reach around
      the functions visited before is all mute. For a leaf that is always so. */
  lemma FallbackIff(p: Program, visited: set<FnId>, flow: Flow)
    requires Models(p, flow)
    ensures var inner, w := WalkCandidates(p, visited, flow.candidates), WalkFlow(p, visited, flow);
      && (AllMute(p, visited, flow.candidates) <==> w.facts == [ModelFact(p, flow)] && inner.facts == [])
      && (!AllMute(p, visited, flow.candidates) <==> w.facts == inner.facts)
      && (Leaf(p, flow) ==> AllMute(p, visited, flow.candidates))
  {
    hide MuteFlows, WalkDone, Adds, FromSome;
    var inner := WalkCandidates(p, visited, flow.candidates);
    WalkCandidatesOk(p, visited, flow.candidates);
    forall g ensures g in inner.order <==> FromSome(p, visited, flow.candidates, g) {
      NewlyVisited(p, visited, flow.candidates, inner, g);
    }
    assert AllMute(p, visited, flow.candidates) <==> MuteFns(p, inner.order);
    assert inner.facts == [] ==> inner.facts + [ModelFact(p, flow)] == [ModelFact(p, flow)];
    assert inner.facts + [] == inner.facts;
  }

  /** Function 0 returns two calls that may be function 1, whose body supplies a
      fact: the second call finds it visited and gets the model all the same. */
  lemma SecondCallIsModelled()
    ensures Walk(TwoCalls(7, 7), {}, 0).facts == [CopyOf(3), Modelled(7, None)]
  {
    FirstCall(7, 7);
    SecondCall(7, 7);
  }

  /** Which of two calls to the same function comes first decides whether the
      modelled one gets its model. */
  lemma FlowOrderDecides()
    ensures Walk(TwoCalls(7, 8), {}, 0).facts == [CopyOf(3)]
    ensures Walk(TwoCalls(8, 7), {}, 0).facts == [CopyOf(3), Modelled(7, None)]
  {
    FirstCall(7, 8);
    SecondCall(7, 8);
    FirstCall(8, 7);
    SecondCall(8, 7);
  }

  /** Two calls by names `a` and `b`, both to a function with a body; 7 is the
      name of a model. */
  function TwoCalls(a: Name, b: Name): Program {
    Program(map[0 := [Call(a, [1]), Call(b, [1])], 1 := [Copy(3)]], {}, {}, {7}, {})
  }

  lemma FirstCall(a: Name, b: Name)
    ensures WalkFlow(TwoCalls(a, b), {0}, Call(a, [1])) == Walked({0, 1}, [1], [CopyOf(3)])
  {
    var p := TwoCalls(a, b);
    assert WalkFlows(p, {0, 1}, [Copy(3)]) == Walked({0, 1}, [], [CopyOf(3)]) by {
      assert [Copy(3)][..0] == [];
    }
    assert {0} + {1} == {0, 1};
    assert Walk(p, {0}, 1) == Walked({0, 1}, [1], [CopyOf(3)]);
    assert [1][..0] == [];
    assert WalkCandidates(p, {0}, [1]) == Walked({0, 1}, [1], [CopyOf(3)]);
  }

  lemma SecondCall(a: Name, b: Name)
    requires WalkFlow(TwoCalls(a, b), {0}, Call(a, [1])) == Walked({0, 1}, [1], [CopyOf(3)])
    ensures Walk(TwoCalls(a, b), {}, 0).facts == [CopyOf(3)] + if b == 7 then [Modelled(7, None)] else []
  {
    var p := TwoCalls(a, b);
    assert [1][..0] == [];
    assert WalkCandidates(p, {0, 1}, [1]) == Walked({0, 1}, [], []);
    assert FirstWithParams(p, [1]) == FirstWithParams(p, [1][1..]);
    var flows := [Call(a, [1]), Call(b, [1])];
    assert flows[..1] == [Call(a, [1])] && flows[..1][..0] == [];
    assert WalkFlows(p, {0}, flows[..1]) == Walked({0, 1}, [1], [CopyOf(3)]);
    var fallback := if b == 7 then [Modelled(7, None)] else [];
    assert WalkFlow(p, {0, 1}, flows[1]) == Walked({0, 1}, [], [] + fallback);
    assert WalkFlows(p, {0}, flows) == Walked({0, 1}, [1] + [], [CopyOf(3)] + fallback);
    assert {} + {0} == {0};
  }

  class Expansion {
    const p: Program
    var visited: set<FnId>
    var facts: seq<Fact>

    constructor (p: Program)
      ensures this.p == p && visited == {} && facts == []
    {
      this.p, visited, facts := p, {}, [];
    }

    /** The walk `w` has been made from here: its facts were appended. */
    twostate predicate Made(w: Walked, applied: bool)
      reads this
    {
      visited == w.visited && facts == old(facts) + w.facts && (applied <==> w.facts != [])
    }

    /** Add the return facts of `callee` and of what its returns call, as far
        as not visited before. */
    method Expand(callee: FnId) returns (applied: bool)
      modifies this
      ensures Made(Walk(p, old(visited), callee), applied)
      decreases p.fnReturns.Keys - visited, 0
    {
      if callee in visited {
        return false;
      }
      visited := visited + {callee};
      if callee in p.fnReturns {
        assert callee in p.fnReturns.Keys && callee !in p.fnReturns.Keys - visited;
        applied := ExpandFlows(p.fnReturns[callee]);
      } else {
        applied := false;
      }
    }

    /** The flows of a body in turn. */
    method ExpandFlows(flows: seq<Flow>) returns (applied: bool)
      modifies this
      ensures Made(WalkFlows(p, old(visited), flows), applied)
      decreases p.fnReturns.Keys - visited, 3
    {
      hide WalkFlow, WalkFlows;
      applied := false;
      NoFlows(p, visited);
      assert flows[..0] == [];
      for n := 0 to |flows|
        invariant old(visited) <= visited
        invariant Made(WalkFlows(p, old(visited), flows[..n]), applied)
      {
        FlowsNext(p, old(visited), flows, n);
        ghost var before, init := facts, WalkFlows(p, old(visited), flows[..n]);
        var one := ExpandFlow(flows[n]);
        Joined(old(facts), init.facts, before, WalkFlow(p, init.visited, flows[n]).facts, facts);
        if one {
          applied := true;
        }
      }
      assert flows[..|flows|] == flows;
    }

    /** A call adds what its candidates bring, and its model exactly when that is
        nothing and there is one. */
    method ExpandFlow(flow: Flow) returns (applied: bool)
      modifies this
      ensures Made(WalkFlow(p, old(visited), flow), applied)
      ensures !flow.Call? ==> facts == old(facts) + DirectFact(p, flow)
      ensures flow.Call? ==> var inner := WalkCandidates(p, old(visited), flow.candidates).facts;
        facts == old(facts) + if inner != [] then inner else if flow.name in p.models then [ModelFact(p, flow)] else []
      decreases p.fnReturns.Keys - visited, 2
    {
      hide WalkCandidates;
      match flow
      case Call(name, candidates) =>
        applied := ExpandCandidates(candidates);
        if !applied && name in p.models {
          var params := FindWithParams(p, candidates);
          facts := facts + [Modelled(name, params)];
          applied := true;
        }
      case AddrOfVar(src) =>
        applied := src in p.locatedVars;
        if applied {
          facts := facts + [PointsToVar(src)];
        }
      case AddrOfFn(fn) =>
        applied := fn in p.locatedFns;
        if applied {
          facts := facts + [PointsToFn(fn)];
        }
      case Copy(src) =>
        facts := facts + [CopyOf(src)];
        applied := true;
    }

    method ExpandCandidates(candidates: seq<FnId>) returns (applied: bool)
      modifies this
      ensures Made(WalkCandidates(p, old(visited), candidates), applied)
      decreases p.fnReturns.Keys - visited, 1
    {
      hide Walk, WalkCandidates;
      applied := false;
      NoFlows(p, visited);
      assert candidates[..0] == [];
      for n := 0 to |candidates|
        invariant old(visited) <= visited
        invariant Made(WalkCandidates(p, old(visited), candidates[..n]), applied)
      {
        CandidatesNext(p, old(visited), candidates, n);
        ghost var before, init := facts, WalkCandidates(p, old(visited), candidates[..n]);
        var one := Expand(candidates[n]);
        Joined(old(facts), init.facts, before, Walk(p, init.visited, candidates[n]).facts, facts);
        if one {
          applied := true;
        }
      }
      assert candidates[..|candidates|] == candidates;
    }
  }

  /** The first candidate whose parameters are known. */
  method FindWithParams(p: Program, candidates: seq<FnId>) returns (r: Option<FnId>)
    ensures BindsFirst(p, candidates, r) && r == FirstWithParams(p, candidates)
  {
    for i := 0 to |candidates|
      invariant forall j :: 0 <= j < i ==> candidates[j] !in p.withParams
    {
      if candidates[i] in p.withParams {
        assert FirstAt(p, candidates, candidates[i], i);
        BoundIs(p, candidates, Some(candidates[i]));
        return Some(candidates[i]);
      }
    }
    BoundIs(p, candidates, None);
    r := None;
  }

  /** `r` is the first candidate with known parameters, if there is one. */
  ghost predicate BindsFirst(p: Program, candidates: seq<FnId>, r: Option<FnId>) {
    match r
    case None => forall i :: 0 <= i < |candidates| ==> candidates[i] !in p.withParams
    case Some(c) => exists i :: FirstAt(p, candidates, c, i)
  }

  ghost predicate FirstAt(p: Program, candidates: seq<FnId>, c: FnId, i: int) {
    0 <= i < |candidates| && candidates[i] == c && c in p.withParams && forall j :: 0 <= j < i ==> candidates[j] !in p.withParams
  }

  lemma {:induction false} BoundIs(p: Program, candidates: seq<FnId>, r: Option<FnId>)
    requires BindsFirst(p, candidates, r)
    ensures FirstWithParams(p, candidates) == r
  {
    if candidates != [] && candidates[0] !in p.withParams {
      if r.Some? {
        var i :| FirstAt(p, candidates, r.value, i);
        assert FirstAt(p, candidates[1..], r.value, i - 1);
      }
      BoundIs(p, candidates[1..], r);
    }
  }

  lemma NoFlows(p: Program, visited: set<FnId>)
    ensures WalkFlows(p, visited, []) == Walked(visited, [], []) == WalkCandidates(p, visited, [])
  {
  }

  lemma FlowsNext(p: Program, visited: set<FnId>, flows: seq<Flow>, n: nat)
    requires n < |flows|
    ensures var init := WalkFlows(p, visited, flows[..n]); var last := WalkFlow(p, init.visited, flows[n]);
      WalkFlows(p, visited, flows[..n + 1]) == Walked(last.visited, init.order + last.order, init.facts + last.facts)
  {
    hide WalkFlow;
    assert flows[..n + 1][..n] == flows[..n];
  }

  lemma CandidatesNext(p: Program, visited: set<FnId>, candidates: seq<FnId>, n: nat)
    requires n < |candidates|
    ensures var init := WalkCandidates(p, visited, candidates[..n]); var last := Walk(p, init.visited, candidates[n]);
      WalkCandidates(p, visited, candidates[..n + 1]) == Walked(last.visited, init.order + last.order, init.facts + last.facts)
  {
    hide Walk;
    assert candidates[..n + 1][..n] == candidates[..n];
  }

  lemma Joined(start: seq<Fact>, a: seq<Fact>, mid: seq<Fact>, b: seq<Fact>, end: seq<Fact>)
    requires mid == start + a && end == mid + b
    ensures end == start + (a + b)
  {
  }

  // ----- what reaches the destination, by the tables -----

  /** How often the functions listed return `flow`. */
  ghost function TimesReturned(p: Program, order: seq<FnId>, flow: Flow): nat {
    if order == [] then 0
    else TimesReturned(p, order[..|order| - 1], flow) + multiset(FlowsOf(p, order[|order| - 1]))[flow]
  }

  /** A function whose result `callee` may return returns `flow`. */
  ghost predicate ReturnedFrom(p: Program, callee: FnId, flow: Flow) {
    exists g :: ReturnReaches(p, callee, g) && flow in FlowsOf(p, g)
  }

  /** The flow that states `fact`, and whether it has a location to state. */
  ghost function Stating(fact: Fact): Flow
    requires !fact.Modelled?
  {
    match fact
    case PointsToVar(v) => AddrOfVar(v)
    case PointsToFn(f) => AddrOfFn(f)
    case CopyOf(v) => Copy(v)
  }

  ghost predicate HasLocation(p: Program, fact: Fact)
    requires !fact.Modelled?
  {
    (fact.PointsToVar? ==> fact.src in p.locatedVars) && (fact.PointsToFn? ==> fact.fn in p.locatedFns)
  }

  lemma {:induction false} FlowsStated(p: Program, flows: seq<Flow>, fact: Fact)
    requires !fact.Modelled?
    ensures FlowShares(p, flows).own[fact] == if HasLocation(p, fact) then multiset(flows)[Stating(fact)] else 0
  {
    hide DirectFact, Stating, HasLocation, Leaf, ModelFact;
    if flows != [] {
      var init, last := flows[..|flows| - 1], flows[|flows| - 1];
      FlowsStated(p, init, fact);
      assert flows == init + [last];
      FlowStated(p, last, fact);
    }
  }

  lemma FlowStated(p: Program, flow: Flow, fact: Fact)
    requires !fact.Modelled?
    ensures multiset(DirectFact(p, flow))[fact] == if HasLocation(p, fact) && flow == Stating(fact) then 1 else 0
  {
  }

  lemma {:induction false} TotalStated(p: Program, order: seq<FnId>, fact: Fact)
    requires !fact.Modelled?
    ensures Total(p, order).own[fact] == if HasLocation(p, fact) then TimesReturned(p, order, Stating(fact)) else 0
  {
    hide FlowShares;
    if order != [] {
      TotalStated(p, order[..|order| - 1], fact);
      FlowsStated(p, FlowsOf(p, order[|order| - 1]), fact);
    }
  }

  lemma {:induction false} PartsModelled(facts: seq<Fact>, fact: Fact)
    ensures !fact.Modelled? ==> Parts(facts).own[fact] == multiset(facts)[fact]
    ensures fact.Modelled? ==> Parts(facts).model[fact] == multiset(facts)[fact]
  {
    if facts != [] {
      var init := facts[..|facts| - 1];
      PartsModelled(init, fact);
      assert facts == init + [facts[|facts| - 1]];
    }
  }

  lemma {:induction false} TimesPositive(p: Program, order: seq<FnId>, flow: Flow)
    ensures TimesReturned(p, order, flow) > 0 <==> exists g :: g in order && flow in FlowsOf(p, g)
  {
    if order != [] {
      var init, last := order[..|order| - 1], order[|order| - 1];
      TimesPositive(p, init, flow);
      assert order == init + [last];
    }
  }

  /** Each address and each variable is in `facts` as often as it is returned,
      addresses only of what has a location. */
  ghost predicate StatesReturns(p: Program, order: seq<FnId>, facts: seq<Fact>) {
    && (forall v :: multiset(facts)[PointsToVar(v)] == if v in p.locatedVars then TimesReturned(p, order, AddrOfVar(v)) else 0)
    && (forall f :: multiset(facts)[PointsToFn(f)] == if f in p.locatedFns then TimesReturned(p, order, AddrOfFn(f)) else 0)
    && (forall v :: multiset(facts)[CopyOf(v)] == TimesReturned(p, order, Copy(v)))
  }

  /** The same without counting. */
  ghost predicate StatesReturned(p: Program, callee: FnId, facts: seq<Fact>) {
    && (forall v :: PointsToVar(v) in facts <==> v in p.locatedVars && ReturnedFrom(p, callee, AddrOfVar(v)))
    && (forall f :: PointsToFn(f) in facts <==> f in p.locatedFns && ReturnedFrom(p, callee, AddrOfFn(f)))
    && (forall v :: CopyOf(v) in facts <==> ReturnedFrom(p, callee, Copy(v)))
  }

  lemma ReturnsStated(p: Program, order: seq<FnId>, facts: seq<Fact>)
    requires Parts(facts).own == Total(p, order).own
    ensures StatesReturns(p, order, facts)
  {
    hide Parts, Total, TimesReturned;
    forall fact: Fact | !fact.Modelled?
      ensures multiset(facts)[fact] == if HasLocation(p, fact) then TimesReturned(p, order, Stating(fact)) else 0
    {
      TotalStated(p, order, fact);
      PartsModelled(facts, fact);
    }
  }

  lemma ReturnedStated(p: Program, callee: FnId, order: seq<FnId>, facts: seq<Fact>)
    requires StatesReturns(p, order, facts) && forall g :: g in order <==> ReturnReaches(p, callee, g)
    ensures StatesReturned(p, callee, facts)
  {
    hide TimesReturned, ReturnReaches, FlowsOf;
    forall flow: Flow ensures TimesReturned(p, order, flow) > 0 <==> ReturnedFrom(p, callee, flow) {
      TimesPositive(p, order, flow);
    }
    assert forall fact :: fact in facts <==> multiset(facts)[fact] > 0;
  }

  /** Each model used is that of a modelled call some function reached returns,
      with the parameters of its first candidate that has any; and every call
      to functions without a body is modelled. */
  ghost predicate StatesModels(p: Program, callee: FnId, facts: seq<Fact>) {
    && (forall name, r :: Modelled(name, r) in facts ==> ModelledCall(p, callee, name, r))
    && (forall name, candidates :: name in p.models && ReturnedFrom(p, callee, Call(name, candidates)) && Bodyless(p, candidates) ==>
          ModelStated(p, facts, name, candidates))
  }

  ghost predicate ModelledCall(p: Program, callee: FnId, name: Name, r: Option<FnId>) {
    name in p.models && exists candidates :: ReturnedFrom(p, callee, Call(name, candidates)) && BindsFirst(p, candidates, r)
  }

  ghost predicate ModelStated(p: Program, facts: seq<Fact>, name: Name, candidates: seq<FnId>) {
    exists r :: BindsFirst(p, candidates, r) && Modelled(name, r) in facts
  }

  lemma {:induction false} FirstBound(p: Program, candidates: seq<FnId>)
    ensures BindsFirst(p, candidates, FirstWithParams(p, candidates))
  {
    if candidates != [] {
      var r := FirstWithParams(p, candidates);
      FirstBound(p, candidates[1..]);
      if candidates[0] in p.withParams {
        assert FirstAt(p, candidates, candidates[0], 0);
      } else if r.Some? {
        var i :| FirstAt(p, candidates[1..], r.value, i);
        assert FirstAt(p, candidates, r.value, i + 1);
      } else {
        forall i | 0 <= i < |candidates| ensures candidates[i] !in p.withParams {
          assert i > 0 ==> candidates[1..][i - 1] == candidates[i];
        }
      }
    }
  }

  lemma ModelsStated(p: Program, callee: FnId, order: seq<FnId>, facts: seq<Fact>)
    requires forall g :: g in order <==> ReturnReaches(p, callee, g)
    requires forall fact :: fact in facts && fact.Modelled? ==> ModelFrom(p, order, fact)
    requires Total(p, order).model <= Parts(facts).model
    ensures StatesModels(p, callee, facts)
  {
    hide ReturnReaches, Total, Parts, BindsFirst, FlowsOf, FirstWithParams;
    forall name, r | Modelled(name, r) in facts ensures ModelledCall(p, callee, name, r) {
      var g :| g in order && ModelIn(p, FlowsOf(p, g), Modelled(name, r));
      var k :| 0 <= k < |FlowsOf(p, g)| && OwnModel(p, FlowsOf(p, g)[k], Modelled(name, r));
      var flow := FlowsOf(p, g)[k];
      FirstBound(p, flow.candidates);
      assert flow in FlowsOf(p, g) && flow == Call(name, flow.candidates);
      assert ReturnedFrom(p, callee, Call(name, flow.candidates));
    }
    forall name, candidates | name in p.models && ReturnedFrom(p, callee, Call(name, candidates)) && Bodyless(p, candidates)
      ensures ModelStated(p, facts, name, candidates)
    {
      var flow := Call(name, candidates);
      var g :| ReturnReaches(p, callee, g) && flow in FlowsOf(p, g);
      FirstBound(p, candidates);
      assert Leaf(p, flow);
      LeafDue(p, order, g, flow);
      PartsModelled(facts, ModelFact(p, flow));
    }
  }

  lemma {:induction false} LeafDue(p: Program, order: seq<FnId>, g: FnId, flow: Flow)
    requires g in order && flow in FlowsOf(p, g) && Leaf(p, flow)
    ensures Total(p, order).model[ModelFact(p, flow)] > 0
  {
    hide FlowShares, Leaf, ModelFact;
    var init, last := order[..|order| - 1], order[|order| - 1];
    assert order == init + [last];
    if g == last {
      LeafShare(p, FlowsOf(p, g), flow);
    } else {
      LeafDue(p, init, g, flow);
    }
  }

  lemma {:induction false} LeafShare(p: Program, flows: seq<Flow>, flow: Flow)
    requires flow in flows && Leaf(p, flow)
    ensures FlowShares(p, flows).model[ModelFact(p, flow)] > 0
  {
    hide ModelFact, DirectFact, Leaf;
    var init, last := flows[..|flows| - 1], flows[|flows| - 1];
    assert flows == init + [last];
    if flow != last {
      LeafShare(p, init, flow);
    }
  }

  /** From an empty visited set the destination receives, once each, the direct
      return facts of exactly the functions reachable through return calls, and
      a model for each of their leaf calls; if all their modelled calls are
      leaves, nothing else. */
  method ExpandReturnFlows(p: Program, callee: FnId) returns (facts: seq<Fact>, applied: bool, ghost order: seq<FnId>)
    ensures NoDup(order) && forall g :: g in order <==> ReturnReaches(p, callee, g)
    ensures Parts(facts).own == Total(p, order).own
    ensures Total(p, order).model <= Parts(facts).model
    ensures PlainFns(p, order) ==> multiset(facts) == Total(p, order).own + Total(p, order).model
    ensures forall fact :: fact in facts && fact.Modelled? ==> ModelFrom(p, order, fact)
    ensures applied <==> !MuteFns(p, order)
    ensures facts == Walk(p, {}, callee).facts
    ensures StatesReturns(p, order, facts) && StatesReturned(p, callee, facts) && StatesModels(p, callee, facts)
    ensures applied <==> facts != []
  {
    hide ReturnReaches, ModelFrom, PlainFns, MuteFns, Total, Parts, Walk, StatesReturns, StatesReturned, StatesModels;
    var expansion := new Expansion(p);
    applied := expansion.Expand(callee);
    facts := expansion.facts;
    assert facts == Walk(p, {}, callee).facts;
    order := Walk(p, {}, callee).order;
    WalkFromEmpty(p, callee);
    ReturnsStated(p, order, facts);
    ReturnedStated(p, callee, order, facts);
    ModelsStated(p, callee, order, facts);
  }

  lemma WalkFromEmpty(p: Program, callee: FnId)
    ensures var w := Walk(p, {}, callee);
      && NoDup(w.order) && (forall g :: g in w.order <==> ReturnReaches(p, callee, g))
      && Expanded(p, w.order, w.facts)
      && (PlainFns(p, w.order) ==> multiset(w.facts) == Total(p, w.order).own + Total(p, w.order).model)
  {
    hide ReturnReaches, ReachesAround, ModelFrom, PlainFns, MuteFns, Closed, Total, Parts, Walk;
    var w := Walk(p, {}, callee);
    WalkOk(p, {}, callee);
    forall g ensures g in w.order <==> ReturnReaches(p, callee, g) {
      NewlyVisited(p, {}, [callee], w, g);
      AroundNothing(p, callee, g);
      assert FromSome(p, {}, [callee], g) <==> ReachesAround(p, {}, callee, g) by { assert callee in [callee]; }
    }
    PartsAll(w.facts);
  }
}
