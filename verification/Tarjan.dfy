/** Tarjan's strongly connected components with an explicit frame stack. */
module Tarjan {
  import opened Graphs

  /** Stands for a node not numbered, or not in a component, yet. */
  const UNSEEN: int := -1

  /** The algorithm's variables. `frames` pairs each node being visited with the
      position of its next successor; `looked` says for every node how many of
      its successors have been looked at. */
  datatype Search = Search(
    order: seq<int>, low: seq<int>, onStack: seq<bool>, comp: seq<int>,
    stack: seq<nat>, frames: seq<(nat, nat)>, next: nat, count: nat, looked: seq<nat>)

  ghost predicate InFrames(t: Search, v: nat) {
    exists k :: 0 <= k < |t.frames| && t.frames[k].0 == v
  }

  ghost predicate Shape(g: Graph, t: Search) {
    && |t.order| == |t.low| == |t.onStack| == |t.comp| == |t.looked| == |g|
    && (forall v :: 0 <= v < |g| ==> t.looked[v] <= |g[v]|)
    && (forall i :: 0 <= i < |t.stack| ==> t.stack[i] < |g|)
    && (forall k :: 0 <= k < |t.frames| ==> t.frames[k].0 < |g| && t.frames[k].1 == t.looked[t.frames[k].0])
  }

  /** Visit numbers are distinct and below `next`. */
  ghost predicate Numbered(g: Graph, t: Search)
    requires Shape(g, t)
  {
    && (forall v :: 0 <= v < |g| ==> UNSEEN <= t.order[v] < t.next)
    && (forall u, v :: 0 <= u < |g| && 0 <= v < |g| && t.order[u] == t.order[v] && t.order[u] != UNSEEN ==> u == v)
    && (forall v :: 0 <= v < |g| ==> UNSEEN <= t.comp[v] < t.count)
  }

  /** The stack holds the numbered nodes without a component, in visit order. */
  ghost predicate Stacked(g: Graph, t: Search)
    requires Shape(g, t)
  {
    && (forall i, j :: 0 <= i < j < |t.stack| ==> t.order[t.stack[i]] < t.order[t.stack[j]])
    && (forall v :: 0 <= v < |g| ==> (t.onStack[v] <==> t.order[v] != UNSEEN && t.comp[v] == UNSEEN))
    && (forall v :: 0 <= v < |g| ==> (t.onStack[v] <==> v in t.stack))
    && (forall v :: 0 <= v < |g| && t.comp[v] != UNSEEN ==> t.order[v] != UNSEEN)
  }

  /** The last successor frame `k` looked at is the node of the next frame. */
  ghost predicate Waits(g: Graph, t: Search, k: int)
    requires Shape(g, t) && 0 <= k < |t.frames| - 1
  {
    t.frames[k].1 > 0 && g[t.frames[k].0][t.frames[k].1 - 1] == t.frames[k + 1].0
  }

  /** The frames are a path of stacked nodes, each the successor its parent is
      waiting for. */
  ghost predicate Framed(g: Graph, t: Search)
    requires Shape(g, t)
  {
    && (forall k :: 0 <= k < |t.frames| ==> t.onStack[t.frames[k].0])
    && (forall j, k :: 0 <= j < k < |t.frames| ==> t.order[t.frames[j].0] < t.order[t.frames[k].0])
    && (forall k :: 0 <= k < |t.frames| - 1 ==> Waits(g, t, k))
  }

  /** A stacked node reaches every later one. */
  ghost predicate StackReach(g: Graph, t: Search) {
    forall i, j :: 0 <= i <= j < |t.stack| ==> Reach(g, t.stack[i], t.stack[j])
  }

  ghost predicate ReachesFrame(g: Graph, t: Search, v: nat)
    requires Shape(g, t) && v < |g|
  {
    exists k :: 0 <= k < |t.frames| && t.order[t.frames[k].0] <= t.order[v] && Reach(g, v, t.frames[k].0)
  }

  /** A stacked node reaches some node still being visited, numbered no later. */
  ghost predicate FrameReach(g: Graph, t: Search)
    requires Shape(g, t)
  {
    forall v :: 0 <= v < |g| && t.onStack[v] ==> ReachesFrame(g, t, v)
  }

  /** Every successor looked at has been numbered. */
  ghost predicate Explored(g: Graph, t: Search)
    requires Shape(g, t) && ValidGraph(g)
  {
    && (forall v, j {:trigger g[v][j]} :: 0 <= v < |g| && 0 <= j < t.looked[v] ==> t.order[g[v][j]] != UNSEEN)
    && (forall v :: 0 <= v < |g| && t.order[v] != UNSEEN && t.looked[v] < |g[v]| ==> InFrames(t, v))
    && (forall v :: 0 <= v < |g| && t.order[v] == UNSEEN ==> t.looked[v] == 0)
  }

  /** Finished components are closed and ordered against the edges. */
  ghost predicate Finished(g: Graph, t: Search)
    requires Shape(g, t) && ValidGraph(g)
  {
    forall v, j :: 0 <= v < |g| && t.comp[v] != UNSEEN && 0 <= j < |g[v]| ==>
      t.comp[g[v][j]] != UNSEEN && t.comp[g[v][j]] <= t.comp[v]
  }

  ghost predicate SameReach(g: Graph, t: Search)
    requires Shape(g, t)
  {
    forall u, v :: 0 <= u < |g| && 0 <= v < |g| && t.comp[u] == t.comp[v] && t.comp[u] != UNSEEN ==> Reach(g, u, v)
  }

  ghost predicate Dense(t: Search) {
    forall c :: 0 <= c < t.count ==> c in t.comp
  }

  /** A frame's low number is that of a stacked node it reaches. */
  ghost predicate LowWitness(g: Graph, t: Search, v: nat)
    requires Shape(g, t) && v < |g|
  {
    t.low[v] <= t.order[v] && exists y :: 0 <= y < |g| && t.onStack[y] && t.order[y] == t.low[v] && Reach(g, v, y)
  }

  ghost predicate LowSound(g: Graph, t: Search)
    requires Shape(g, t)
  {
    forall k :: 0 <= k < |t.frames| ==> LowWitness(g, t, t.frames[k].0)
  }

  /** Frame `k` is the last one numbered no later than `x`. */
  ghost predicate Owns(g: Graph, t: Search, k: nat, x: nat)
    requires Shape(g, t)
  {
    && k < |t.frames| && x < |g| && t.onStack[x]
    && t.order[t.frames[k].0] <= t.order[x]
    && (k + 1 < |t.frames| ==> t.order[x] < t.order[t.frames[k + 1].0])
  }

  /** No successor looked at from frame `k`'s part of the stack is a stacked node
      numbered below the frame's low. */
  ghost predicate LowBound(g: Graph, t: Search)
    requires Shape(g, t) && ValidGraph(g)
  {
    forall k: nat, x: nat, j: nat :: Owns(g, t, k, x) && j < t.looked[x] && t.onStack[g[x][j]] ==>
      t.low[t.frames[k].0] <= t.order[g[x][j]]
  }

  ghost predicate Inv(g: Graph, t: Search) {
    && ValidGraph(g) && Shape(g, t) && Numbered(g, t) && Stacked(g, t) && Framed(g, t)
    && StackReach(g, t) && FrameReach(g, t) && Explored(g, t) && Finished(g, t)
    && SameReach(g, t) && Dense(t) && LowSound(g, t) && LowBound(g, t)
  }

  // ----- facts about one state

  lemma StackReachBy(g: Graph, t: Search, u: nat, v: nat)
    requires Shape(g, t) && Stacked(g, t) && StackReach(g, t)
    requires u < |g| && v < |g| && t.onStack[u] && t.onStack[v] && t.order[u] <= t.order[v]
    ensures Reach(g, u, v)
  {
    hide Reach;
    var i :| 0 <= i < |t.stack| && t.stack[i] == u;
    var j :| 0 <= j < |t.stack| && t.stack[j] == v;
  }

  /** Every stacked node reaches the node on top of the frames. */
  lemma ReachesTop(g: Graph, t: Search, x: nat)
    requires Shape(g, t) && Stacked(g, t) && StackReach(g, t) && Framed(g, t)
    requires x < |g| && t.onStack[x] && ReachesFrame(g, t, x)
    ensures t.frames != [] && Reach(g, x, t.frames[|t.frames| - 1].0)
  {
    hide Reach;
    var k :| 0 <= k < |t.frames| && t.order[t.frames[k].0] <= t.order[x] && Reach(g, x, t.frames[k].0);
    var top := t.frames[|t.frames| - 1].0;
    StackReachBy(g, t, t.frames[k].0, top);
    ReachTrans(g, x, t.frames[k].0, top);
  }

  // ----- numbering a new node

  /** `t'` is `t` after the unseen node `w` was numbered, stacked and framed: as a
      root, or as the successor the top frame looks at next. */
  ghost predicate Pushes(g: Graph, t: Search, t': Search, w: nat) {
    && Shape(g, t) && w < |g| && t.order[w] == UNSEEN
    && t' == t.(
         order := t.order[w := t.next], low := t.low[w := t.next], onStack := t.onStack[w := true],
         stack := t.stack + [w], next := t.next + 1, frames := t'.frames, looked := t'.looked)
    && if t.frames == [] then t'.frames == [(w, 0)] && t'.looked == t.looked
       else
         var m := |t.frames| - 1;
         var (v, pos) := t.frames[m];
         && pos < |g[v]| && g[v][pos] == w
         && t'.frames == t.frames[m := (v, pos + 1)] + [(w, 0)]
         && t'.looked == t.looked[v := pos + 1]
  }

  lemma PushShape(g: Graph, t: Search, t': Search, w: nat)
    requires ValidGraph(g) && Shape(g, t) && Stacked(g, t) && Framed(g, t) && Explored(g, t) && Pushes(g, t, t', w)
    ensures Shape(g, t')
    ensures forall k :: 0 <= k < |t.frames| ==> t.frames[k].0 != w
  {
    hide Waits, InFrames;
    forall k | 0 <= k < |t.frames| ensures t.frames[k].0 != w {
      assert t.onStack[t.frames[k].0];
    }
    if t.frames != [] {
      var m := |t.frames| - 1;
      forall k | 0 <= k < m ensures t'.frames[k] == t.frames[k] && t.frames[k].0 != t.frames[m].0 {
        assert t.order[t.frames[k].0] < t.order[t.frames[m].0];
      }
    }
  }

  lemma PushNumbered(g: Graph, t: Search, t': Search, w: nat)
    requires Shape(g, t) && Shape(g, t') && Numbered(g, t) && Pushes(g, t, t', w)
    ensures Numbered(g, t')
  {
  }

  lemma PushStacked(g: Graph, t: Search, t': Search, w: nat)
    requires Shape(g, t) && Shape(g, t') && Numbered(g, t) && Stacked(g, t) && Pushes(g, t, t', w)
    ensures Stacked(g, t')
  {
    forall v | 0 <= v < |g| ensures t'.onStack[v] <==> v in t'.stack {
      assert v in t'.stack <==> v in t.stack || v == w;
    }
    forall i, j | 0 <= i < j < |t'.stack| ensures t'.order[t'.stack[i]] < t'.order[t'.stack[j]] {
      assert t.stack[i] in t.stack;
      assert t.onStack[t.stack[i]];
      if j < |t.stack| { assert t.stack[j] in t.stack && t.onStack[t.stack[j]]; }
    }
  }

  lemma PushFramed(g: Graph, t: Search, t': Search, w: nat)
    requires Shape(g, t) && Shape(g, t') && Numbered(g, t) && Framed(g, t) && Pushes(g, t, t', w)
    requires forall k :: 0 <= k < |t.frames| ==> t.frames[k].0 != w
    ensures Framed(g, t')
  {
    forall k | 0 <= k < |t.frames| ensures t'.frames[k].0 == t.frames[k].0 {}
    forall k | 0 <= k < |t'.frames| - 1 ensures Waits(g, t', k) {
      if k < |t.frames| - 1 { assert Waits(g, t, k); }
    }
  }

  /** Every stacked node reaches the new one, through the top frame. */
  lemma PushStackReach(g: Graph, t: Search, t': Search, w: nat)
    requires ValidGraph(g) && Shape(g, t) && Stacked(g, t) && Framed(g, t) && StackReach(g, t) && FrameReach(g, t)
    requires Pushes(g, t, t', w)
    ensures StackReach(g, t')
  {
    hide Reach, ReachesFrame, FrameReach, Framed, Stacked;
    forall i, j | 0 <= i <= j < |t'.stack| ensures Reach(g, t'.stack[i], t'.stack[j]) {
      if j < |t.stack| {
        assert Reach(g, t.stack[i], t.stack[j]);
      } else if i == |t.stack| {
        ReachSelf(g, w);
      } else {
        StackedReaches(g, t, i);
        var v := t.frames[|t.frames| - 1].0;
        ReachEdge(g, v, w);
        ReachTrans(g, t.stack[i], v, w);
      }
    }
  }

  lemma StackedReaches(g: Graph, t: Search, i: nat)
    requires Shape(g, t) && Stacked(g, t) && Framed(g, t) && StackReach(g, t) && FrameReach(g, t) && i < |t.stack|
    ensures t.frames != [] && Reach(g, t.stack[i], t.frames[|t.frames| - 1].0)
  {
    hide Reach, ReachesFrame, Framed;
    assert t.stack[i] in t.stack;
    assert ReachesFrame(g, t, t.stack[i]);
    ReachesTop(g, t, t.stack[i]);
  }

  lemma PushFrameReach(g: Graph, t: Search, t': Search, w: nat)
    requires Shape(g, t) && Shape(g, t') && FrameReach(g, t) && Pushes(g, t, t', w)
    requires forall k :: 0 <= k < |t.frames| ==> t.frames[k].0 != w
    ensures FrameReach(g, t')
  {
    hide Reach;
    forall v | 0 <= v < |g| && t'.onStack[v] ensures ReachesFrame(g, t', v) {
      if v == w {
        ReachSelf(g, w);
        assert t'.frames[|t'.frames| - 1].0 == w;
      } else {
        assert ReachesFrame(g, t, v);
        var k :| 0 <= k < |t.frames| && t.order[t.frames[k].0] <= t.order[v] && Reach(g, v, t.frames[k].0);
        assert t'.frames[k].0 == t.frames[k].0;
      }
    }
  }

  lemma PushExplored(g: Graph, t: Search, t': Search, w: nat)
    requires ValidGraph(g) && Shape(g, t) && Shape(g, t') && Explored(g, t) && Pushes(g, t, t', w) && t.next >= 0
    requires forall k :: 0 <= k < |t.frames| ==> t.frames[k].0 != w && t.order[t.frames[k].0] != UNSEEN
    ensures Explored(g, t')
  {
    hide InFrames;
    forall v, j {:trigger g[v][j]} | 0 <= v < |g| && 0 <= j < t'.looked[v] ensures t'.order[g[v][j]] != UNSEEN {
      assert g[v][j] == w || j < t.looked[v];
    }
    forall v | 0 <= v < |g| && t'.order[v] != UNSEEN && t'.looked[v] < |g[v]| ensures InFrames(t', v) {
      PushInFrames(g, t, t', w, v);
    }
  }

  lemma PushInFrames(g: Graph, t: Search, t': Search, w: nat, v: nat)
    requires Pushes(g, t, t', w) && (v == w || InFrames(t, v))
    ensures InFrames(t', v)
  {
    if v == w {
      assert t'.frames[|t'.frames| - 1].0 == w;
    } else {
      var k :| 0 <= k < |t.frames| && t.frames[k].0 == v;
      assert t'.frames[k].0 == v;
    }
  }

  lemma PushLowSound(g: Graph, t: Search, t': Search, w: nat)
    requires Shape(g, t) && Shape(g, t') && LowSound(g, t) && Stacked(g, t) && Pushes(g, t, t', w)
    requires forall k :: 0 <= k < |t.frames| ==> t.frames[k].0 != w
    ensures LowSound(g, t')
  {
    hide Reach;
    forall k | 0 <= k < |t'.frames| ensures LowWitness(g, t', t'.frames[k].0) {
      if k == |t.frames| {
        ReachSelf(g, w);
      } else {
        var v := t.frames[k].0;
        assert t'.frames[k].0 == v && LowWitness(g, t, v);
        var y :| 0 <= y < |g| && t.onStack[y] && t.order[y] == t.low[v] && Reach(g, v, y);
        assert y != w;
      }
    }
  }

  lemma LowBelow(g: Graph, t: Search)
    requires Shape(g, t) && LowSound(g, t)
    ensures forall k :: 0 <= k < |t.frames| ==> t.low[t.frames[k].0] <= t.order[t.frames[k].0]
  {
    forall k | 0 <= k < |t.frames| ensures t.low[t.frames[k].0] <= t.order[t.frames[k].0] {
      assert LowWitness(g, t, t.frames[k].0);
    }
  }

  lemma PushLowBound(g: Graph, t: Search, t': Search, w: nat)
    requires ValidGraph(g) && Shape(g, t) && Shape(g, t') && Numbered(g, t) && LowBound(g, t)
    requires Pushes(g, t, t', w) && t.looked[w] == 0
    requires forall k :: 0 <= k < |t.frames| ==> t.frames[k].0 != w && t.low[t.frames[k].0] <= t.order[t.frames[k].0]
    ensures LowBound(g, t')
  {
    forall k: nat, x: nat, j: nat | Owns(g, t', k, x) && j < t'.looked[x] && t'.onStack[g[x][j]]
      ensures t'.low[t'.frames[k].0] <= t'.order[g[x][j]]
    {
      PushLowBoundAt(g, t, t', w, k, x, j);
    }
  }

  lemma PushLowBoundAt(g: Graph, t: Search, t': Search, w: nat, k: nat, x: nat, j: nat)
    requires ValidGraph(g) && Shape(g, t) && Shape(g, t') && Numbered(g, t) && LowBound(g, t)
    requires Pushes(g, t, t', w) && t.looked[w] == 0
    requires forall k :: 0 <= k < |t.frames| ==> t.frames[k].0 != w && t.low[t.frames[k].0] <= t.order[t.frames[k].0]
    requires Owns(g, t', k, x) && j < t'.looked[x] && t'.onStack[g[x][j]]
    ensures t'.low[t'.frames[k].0] <= t'.order[g[x][j]]
  {
    if k < |t.frames| {
      var f := t.frames[k].0;
      assert t'.frames[k].0 == f;
      assert t.order[f] < t.next;
      if g[x][j] != w {
        assert x != w;
        assert j < t.looked[x];
        assert k + 1 < |t.frames| ==> t'.frames[k + 1].0 == t.frames[k + 1].0;
        assert Owns(g, t, k, x);
      }
    }
  }

  lemma FramesSeen(g: Graph, t: Search)
    requires Shape(g, t) && Stacked(g, t) && Framed(g, t)
    ensures forall k :: 0 <= k < |t.frames| ==> t.order[t.frames[k].0] != UNSEEN
  {
    forall k | 0 <= k < |t.frames| ensures t.order[t.frames[k].0] != UNSEEN {
      assert t.onStack[t.frames[k].0];
    }
  }

  /** What a finished component says does not change when a node is numbered. */
  lemma FinishedFrame(g: Graph, t: Search, t': Search)
    requires Shape(g, t) && Shape(g, t') && ValidGraph(g)
    requires t'.comp == t.comp && t'.count == t.count
    requires Finished(g, t) && SameReach(g, t) && Dense(t)
    ensures Finished(g, t') && SameReach(g, t') && Dense(t')
  {
    hide Reach;
  }

  lemma PushInv(g: Graph, t: Search, t': Search, w: nat)
    requires Inv(g, t) && Pushes(g, t, t', w)
    ensures Inv(g, t')
  {
    hide Numbered, Stacked, Framed, StackReach, FrameReach, Finished, SameReach, Dense, LowSound, LowBound, ValidGraph;
    PushShape(g, t, t', w);
    FramesSeen(g, t);
    LowBelow(g, t);
    PushNumbered(g, t, t', w);
    PushStacked(g, t, t', w);
    PushFramed(g, t, t', w);
    PushStackReach(g, t, t', w);
    PushFrameReach(g, t, t', w);
    PushExplored(g, t, t', w);
    PushLowSound(g, t, t', w);
    PushLowBound(g, t, t', w);
    FinishedFrame(g, t, t');
  }

  // ----- looking at a numbered successor

  /** `t'` is `t` after the top frame looked at a successor that was already
      numbered: a stacked one may lower its low number. */
  ghost predicate Looks(g: Graph, t: Search, t': Search) {
    && Shape(g, t) && t.frames != []
    && var m := |t.frames| - 1;
       var (v, pos) := t.frames[m];
       && pos < |g[v]| && g[v][pos] < |g| && t.order[g[v][pos]] != UNSEEN
       && t' == t.(
            frames := t.frames[m := (v, pos + 1)], looked := t.looked[v := pos + 1],
            low := if t.onStack[g[v][pos]] && t.order[g[v][pos]] < t.low[v] then t.low[v := t.order[g[v][pos]]] else t.low)
  }

  lemma LookShape(g: Graph, t: Search, t': Search)
    requires ValidGraph(g) && Shape(g, t) && Framed(g, t) && Looks(g, t, t')
    ensures Shape(g, t')
    ensures forall k :: 0 <= k < |t.frames| ==> t'.frames[k].0 == t.frames[k].0
  {
    hide Waits;
    var m := |t.frames| - 1;
    forall k | 0 <= k < m ensures t'.frames[k] == t.frames[k] && t.frames[k].0 != t.frames[m].0 {
      assert t.order[t.frames[k].0] < t.order[t.frames[m].0];
    }
  }

  lemma LookFramed(g: Graph, t: Search, t': Search)
    requires Shape(g, t) && Shape(g, t') && Framed(g, t) && Looks(g, t, t')
    requires forall k :: 0 <= k < |t.frames| ==> t'.frames[k].0 == t.frames[k].0
    ensures Framed(g, t')
  {
    forall k | 0 <= k < |t'.frames| - 1 ensures Waits(g, t', k) {
      assert Waits(g, t, k);
    }
  }

  lemma LookFrameReach(g: Graph, t: Search, t': Search)
    requires Shape(g, t) && Shape(g, t') && FrameReach(g, t) && Looks(g, t, t')
    requires forall k :: 0 <= k < |t.frames| ==> t'.frames[k].0 == t.frames[k].0
    ensures FrameReach(g, t')
  {
    hide Reach;
    forall v | 0 <= v < |g| && t'.onStack[v] ensures ReachesFrame(g, t', v) {
      assert ReachesFrame(g, t, v);
      var k :| 0 <= k < |t.frames| && t.order[t.frames[k].0] <= t.order[v] && Reach(g, v, t.frames[k].0);
      assert t'.frames[k].0 == t.frames[k].0;
    }
  }

  lemma LookExplored(g: Graph, t: Search, t': Search)
    requires ValidGraph(g) && Shape(g, t) && Shape(g, t') && Explored(g, t) && Looks(g, t, t')
    requires forall k :: 0 <= k < |t.frames| ==> t'.frames[k].0 == t.frames[k].0 && t.order[t.frames[k].0] != UNSEEN
    ensures Explored(g, t')
  {
    var (top, pos) := t.frames[|t.frames| - 1];
    forall v, j {:trigger g[v][j]} | 0 <= v < |g| && 0 <= j < t'.looked[v] ensures t'.order[g[v][j]] != UNSEEN {
      assert (v == top && j == pos) || j < t.looked[v];
    }
    forall v | 0 <= v < |g| && t'.order[v] != UNSEEN && t'.looked[v] < |g[v]| ensures InFrames(t', v) {
      assert InFrames(t, v);
      var k :| 0 <= k < |t.frames| && t.frames[k].0 == v;
      assert t'.frames[k].0 == v;
    }
  }

  lemma LookLowSound(g: Graph, t: Search, t': Search)
    requires ValidGraph(g) && Shape(g, t) && Shape(g, t') && LowSound(g, t) && Looks(g, t, t')
    requires forall k :: 0 <= k < |t.frames| ==> t'.frames[k].0 == t.frames[k].0
    ensures LowSound(g, t')
  {
    hide Reach;
    var (top, pos) := t.frames[|t.frames| - 1];
    ReachEdge(g, top, g[top][pos]);
    forall k | 0 <= k < |t'.frames| ensures LowWitness(g, t', t'.frames[k].0) {
      assert LowWitness(g, t, t.frames[k].0);
    }
  }

  lemma LookLowBound(g: Graph, t: Search, t': Search)
    requires ValidGraph(g) && Shape(g, t) && Shape(g, t') && LowBound(g, t) && Stacked(g, t) && Looks(g, t, t')
    requires forall k :: 0 <= k < |t.frames| ==> t'.frames[k].0 == t.frames[k].0
    requires forall j, k :: 0 <= j < k < |t.frames| ==> t.order[t.frames[j].0] < t.order[t.frames[k].0]
    ensures LowBound(g, t')
  {
    var m := |t.frames| - 1;
    var (top, pos) := t.frames[m];
    forall k: nat, x: nat, j: nat | Owns(g, t', k, x) && j < t'.looked[x] && t'.onStack[g[x][j]]
      ensures t'.low[t'.frames[k].0] <= t'.order[g[x][j]]
    {
      assert Owns(g, t, k, x) by {
        assert k + 1 < |t.frames| ==> t'.frames[k + 1].0 == t.frames[k + 1].0;
      }
      assert t'.low[t.frames[k].0] <= t.low[t.frames[k].0];
      assert k < m ==> t.order[t.frames[k + 1].0] <= t.order[top];
      if j < t.looked[x] {
        assert t.low[t.frames[k].0] <= t.order[g[x][j]];
      } else {
        assert x == top && j == pos;
      }
    }
  }

  lemma LookInv(g: Graph, t: Search, t': Search)
    requires Inv(g, t) && Looks(g, t, t')
    ensures Inv(g, t')
  {
    hide StackReach, FrameReach, Finished, SameReach, Dense, LowSound, LowBound, ValidGraph, Explored, Waits, Looks, Reach;
    LookShape(g, t, t');
    FramesSeen(g, t);
    LookFramed(g, t, t');
    LookFrameReach(g, t, t');
    LookExplored(g, t, t');
    LookLowSound(g, t, t');
    LookLowBound(g, t, t');
    LookRest(g, t, t');
    FinishedFrame(g, t, t');
  }

  lemma LookRest(g: Graph, t: Search, t': Search)
    requires Shape(g, t) && Shape(g, t') && Numbered(g, t) && Stacked(g, t) && StackReach(g, t) && Looks(g, t, t')
    ensures Numbered(g, t') && Stacked(g, t') && StackReach(g, t')
    ensures t'.comp == t.comp && t'.count == t.count
  {
    hide Reach;
  }

  // ----- leaving a node

  function Min(a: int, b: int): int { if a <= b then a else b }

  /** Where the top frame's low number goes when it is left. */
  ghost function LowLeft(t: Search): seq<int>
    requires t.frames != []
    requires forall k :: 0 <= k < |t.frames| ==> t.frames[k].0 < |t.low|
  {
    var m := |t.frames| - 1;
    if m == 0 then t.low
    else t.low[t.frames[m - 1].0 := Min(t.low[t.frames[m - 1].0], t.low[t.frames[m].0])]
  }

  /** The top frame has looked at all its successors. */
  ghost predicate AtEnd(g: Graph, t: Search) {
    && Shape(g, t) && t.frames != []
    && var (v, pos) := t.frames[|t.frames| - 1]; pos == |g[v]|
  }

  /** Leaving a node that reaches below itself: it stays stacked. */
  ghost predicate Leaves(g: Graph, t: Search, t': Search) {
    && AtEnd(g, t)
    && var m := |t.frames| - 1;
       var v := t.frames[m].0;
       && t.low[v] != t.order[v]
       && t' == t.(frames := t.frames[..m], low := LowLeft(t))
  }

  lemma LeaveShape(g: Graph, t: Search, t': Search)
    requires Shape(g, t) && Framed(g, t) && Leaves(g, t, t')
    ensures Shape(g, t') && Framed(g, t')
  {
    forall k | 0 <= k < |t'.frames| ensures t'.frames[k] == t.frames[k] {}
    forall k | 0 <= k < |t'.frames| - 1 ensures Waits(g, t', k) {
      assert Waits(g, t, k);
    }
  }

  /** A node reaching below itself reaches another node still being visited. */
  lemma LeavesToFrame(g: Graph, t: Search, v: nat) returns (k: nat)
    requires Shape(g, t) && Stacked(g, t) && Framed(g, t) && FrameReach(g, t) && LowSound(g, t)
    requires t.frames != [] && v == t.frames[|t.frames| - 1].0 && t.low[v] != t.order[v]
    ensures k < |t.frames| - 1 && t.order[t.frames[k].0] < t.order[v] && Reach(g, v, t.frames[k].0)
  {
    hide Reach, FrameReach, Waits;
    assert LowWitness(g, t, v);
    var y :| 0 <= y < |g| && t.onStack[y] && t.order[y] == t.low[v] && Reach(g, v, y);
    FrameOf(g, t, y);
    k :| 0 <= k < |t.frames| && t.order[t.frames[k].0] <= t.order[y] && Reach(g, y, t.frames[k].0);
    ReachTrans(g, v, y, t.frames[k].0);
  }

  lemma FrameOf(g: Graph, t: Search, x: nat)
    requires Shape(g, t) && FrameReach(g, t) && x < |g| && t.onStack[x]
    ensures ReachesFrame(g, t, x)
  {
    hide ReachesFrame;
  }

  lemma LeaveFrameReach(g: Graph, t: Search, t': Search)
    requires Shape(g, t) && Shape(g, t') && Stacked(g, t) && Framed(g, t) && FrameReach(g, t) && LowSound(g, t) && Leaves(g, t, t')
    ensures FrameReach(g, t')
  {
    hide Reach, FrameReach, LowSound, Waits, Stacked;
    var m := |t.frames| - 1;
    var v := t.frames[m].0;
    var d := LeavesToFrame(g, t, v);
    forall x | 0 <= x < |g| && t'.onStack[x] ensures ReachesFrame(g, t', x) {
      FrameOf(g, t, x);
      var k :| 0 <= k < |t.frames| && t.order[t.frames[k].0] <= t.order[x] && Reach(g, x, t.frames[k].0);
      if k < m {
        assert t'.frames[k] == t.frames[k];
      } else {
        ReachTrans(g, x, v, t.frames[d].0);
        assert t'.frames[d] == t.frames[d];
      }
    }
    FrameReachIntro(g, t');
  }

  lemma FrameReachIntro(g: Graph, t: Search)
    requires Shape(g, t)
    requires forall x :: 0 <= x < |g| && t.onStack[x] ==> ReachesFrame(g, t, x)
    ensures FrameReach(g, t)
  {
    hide ReachesFrame;
  }

  lemma LeaveExplored(g: Graph, t: Search, t': Search)
    requires ValidGraph(g) && Shape(g, t) && Shape(g, t') && Explored(g, t) && AtEnd(g, t)
    requires t'.looked == t.looked && t'.order == t.order && t'.frames == t.frames[..|t.frames| - 1]
    ensures Explored(g, t')
  {
    forall v | 0 <= v < |g| && t'.order[v] != UNSEEN && t'.looked[v] < |g[v]| ensures InFrames(t', v) {
      assert InFrames(t, v);
      var k :| 0 <= k < |t.frames| && t.frames[k].0 == v;
      assert k < |t.frames| - 1;
      assert t'.frames[k].0 == v;
    }
  }

  lemma LeaveLowSound(g: Graph, t: Search, t': Search)
    requires ValidGraph(g) && Shape(g, t) && Shape(g, t') && Stacked(g, t) && StackReach(g, t) && Framed(g, t) && LowSound(g, t) && Leaves(g, t, t')
    ensures LowSound(g, t')
  {
    hide Reach, Waits, StackReach, Stacked, Framed, LowWitness;
    forall k | 0 <= k < |t'.frames| ensures LowWitness(g, t', t'.frames[k].0) {
      LeaveLowFrame(g, t, t', k);
    }
  }

  lemma LeaveLowFrame(g: Graph, t: Search, t': Search, k: nat)
    requires ValidGraph(g) && Shape(g, t) && Shape(g, t') && Stacked(g, t) && StackReach(g, t) && Framed(g, t) && LowSound(g, t) && Leaves(g, t, t')
    requires k < |t'.frames|
    ensures LowWitness(g, t', t'.frames[k].0)
  {
    hide Reach, Waits, StackReach;
    var m := |t.frames| - 1;
    var u, v := t.frames[k].0, t.frames[m].0;
    assert LowWitness(g, t, v) && LowWitness(g, t, u) && t'.frames[k].0 == u;
    if k == m - 1 && t'.low[u] == t.low[v] {
      StackReachBy(g, t, u, v);
      var y :| 0 <= y < |g| && t.onStack[y] && t.order[y] == t.low[v] && Reach(g, v, y);
      ReachTrans(g, u, v, y);
    } else {
      assert k < m - 1 ==> t.order[u] < t.order[t.frames[m - 1].0];
    }
  }

  lemma LeaveLowBound(g: Graph, t: Search, t': Search)
    requires ValidGraph(g) && Shape(g, t) && Shape(g, t') && LowBound(g, t) && Leaves(g, t, t')
    requires forall j, k :: 0 <= j < k < |t.frames| ==> t.order[t.frames[j].0] < t.order[t.frames[k].0]
    ensures LowBound(g, t')
  {
    var m := |t.frames| - 1;
    forall k: nat, x: nat, j: nat | Owns(g, t', k, x) && j < t'.looked[x] && t'.onStack[g[x][j]]
      ensures t'.low[t'.frames[k].0] <= t'.order[g[x][j]]
    {
      assert t'.frames[k] == t.frames[k];
      assert t'.low[t.frames[k].0] <= t.low[t.frames[k].0];
      if k == m - 1 && t.order[t.frames[m].0] <= t.order[x] {
        assert Owns(g, t, m, x);
      } else {
        assert k + 1 < m ==> t'.frames[k + 1] == t.frames[k + 1];
        assert Owns(g, t, k, x);
      }
    }
  }

  lemma LeaveInv(g: Graph, t: Search, t': Search)
    requires Inv(g, t) && Leaves(g, t, t')
    ensures Inv(g, t')
  {
    hide StackReach, FrameReach, Finished, SameReach, Dense, LowSound, LowBound, ValidGraph, Explored, Waits, Reach;
    LeaveShape(g, t, t');
    LeaveFrameReach(g, t, t');
    LeaveExplored(g, t, t');
    LeaveLowSound(g, t, t');
    LeaveLowBound(g, t, t');
    LeaveRest(g, t, t');
    FinishedFrame(g, t, t');
  }

  lemma LeaveRest(g: Graph, t: Search, t': Search)
    requires Shape(g, t) && Shape(g, t') && Numbered(g, t) && Stacked(g, t) && StackReach(g, t) && Leaves(g, t, t')
    ensures Numbered(g, t') && Stacked(g, t') && StackReach(g, t')
  {
    hide Reach;
  }

  // ----- emitting a component

  /** Leaving a node that reaches nothing below itself: it and everything stacked
      above it become a component. */
  ghost predicate Emits(g: Graph, t: Search, t': Search, s: nat) {
    && AtEnd(g, t) && Shape(g, t')
    && var m := |t.frames| - 1;
       var v := t.frames[m].0;
       && t.low[v] == t.order[v]
       && s < |t.stack| && t.stack[s] == v && t'.stack == t.stack[..s]
       && t'.frames == t.frames[..m] && t'.low == LowLeft(t)
       && t'.order == t.order && t'.looked == t.looked && t'.next == t.next && t'.count == t.count + 1
       && (forall x :: 0 <= x < |g| ==> t'.onStack[x] == (t.onStack[x] && t.order[x] < t.order[v]))
       && (forall x :: 0 <= x < |g| ==> t'.comp[x] == if t.onStack[x] && t.order[x] >= t.order[v] then t.count else t.comp[x])
  }

  lemma EmitOnStack(g: Graph, t: Search, s: nat, x: nat)
    requires Shape(g, t) && Stacked(g, t) && s < |t.stack| && x < |g|
    ensures x in t.stack[..s] <==> t.onStack[x] && t.order[x] < t.order[t.stack[s]]
  {
    if x in t.stack {
      var i :| 0 <= i < |t.stack| && t.stack[i] == x;
      assert i < s ==> t.stack[..s][i] == x;
    }
  }

  lemma EmitStacked(g: Graph, t: Search, t': Search, s: nat)
    requires Shape(g, t) && Numbered(g, t) && Stacked(g, t) && Emits(g, t, t', s)
    ensures Numbered(g, t') && Stacked(g, t')
  {
    forall x | 0 <= x < |g| ensures t'.onStack[x] <==> x in t'.stack {
      EmitOnStack(g, t, s, x);
    }
    forall x | 0 <= x < |g| ensures t.onStack[x] <==> t.order[x] != UNSEEN && t.comp[x] == UNSEEN {}
  }

  lemma EmitFramed(g: Graph, t: Search, t': Search, s: nat)
    requires Shape(g, t) && Framed(g, t) && Emits(g, t, t', s)
    ensures Framed(g, t')
  {
    forall k | 0 <= k < |t'.frames| ensures t'.frames[k] == t.frames[k] {}
    forall k | 0 <= k < |t'.frames| - 1 ensures Waits(g, t', k) {
      assert Waits(g, t, k);
    }
  }

  lemma EmitFrameReach(g: Graph, t: Search, t': Search, s: nat)
    requires Shape(g, t) && FrameReach(g, t) && Emits(g, t, t', s)
    ensures FrameReach(g, t')
  {
    hide Reach, FrameReach;
    var m := |t.frames| - 1;
    forall x | 0 <= x < |g| && t'.onStack[x] ensures ReachesFrame(g, t', x) {
      FrameOf(g, t, x);
      var k :| 0 <= k < |t.frames| && t.order[t.frames[k].0] <= t.order[x] && Reach(g, x, t.frames[k].0);
      assert k < m;
      assert t'.frames[k] == t.frames[k];
    }
    FrameReachIntro(g, t');
  }

  /** Every edge out of the new component stays in it or leads to an earlier one. */
  lemma EmitFinished(g: Graph, t: Search, t': Search, s: nat)
    requires ValidGraph(g) && Shape(g, t) && Numbered(g, t) && Stacked(g, t) && Finished(g, t) && Explored(g, t) && LowBound(g, t)
    requires Emits(g, t, t', s)
    requires forall j, k :: 0 <= j < k < |t.frames| ==> t.order[t.frames[j].0] < t.order[t.frames[k].0]
    ensures Finished(g, t')
  {
    var m := |t.frames| - 1;
    var v := t.frames[m].0;
    forall x, j | 0 <= x < |g| && t'.comp[x] != UNSEEN && 0 <= j < |g[x]|
      ensures t'.comp[g[x][j]] != UNSEEN && t'.comp[g[x][j]] <= t'.comp[x]
    {
      if t.onStack[x] && t.order[x] >= t.order[v] {
        EmitLooked(g, t, x);
        assert t.order[g[x][j]] != UNSEEN;
        assert Owns(g, t, m, x);
      }
    }
  }

  lemma EmitLooked(g: Graph, t: Search, x: nat)
    requires ValidGraph(g) && Shape(g, t) && Stacked(g, t) && Explored(g, t) && AtEnd(g, t)
    requires forall j, k :: 0 <= j < k < |t.frames| ==> t.order[t.frames[j].0] < t.order[t.frames[k].0]
    requires x < |g| && t.onStack[x] && t.order[x] >= t.order[t.frames[|t.frames| - 1].0]
    ensures t.looked[x] == |g[x]|
  {
    if InFrames(t, x) {
      var k :| 0 <= k < |t.frames| && t.frames[k].0 == x;
      assert k == |t.frames| - 1;
    }
  }

  lemma EmitSameReach(g: Graph, t: Search, t': Search, s: nat)
    requires Shape(g, t) && Numbered(g, t) && Stacked(g, t) && Framed(g, t) && StackReach(g, t) && FrameReach(g, t) && SameReach(g, t)
    requires Emits(g, t, t', s)
    ensures SameReach(g, t')
  {
    hide Reach, FrameReach, Waits, StackReach;
    var v := t.frames[|t.frames| - 1].0;
    forall x, y | 0 <= x < |g| && 0 <= y < |g| && t'.comp[x] == t'.comp[y] && t'.comp[x] != UNSEEN
      ensures Reach(g, x, y)
    {
      if t'.comp[x] == t.count {
        FrameOf(g, t, x);
        ReachesTop(g, t, x);
        StackReachBy(g, t, v, y);
        ReachTrans(g, x, v, y);
      }
    }
  }

  lemma EmitDense(g: Graph, t: Search, t': Search, s: nat)
    requires Shape(g, t) && Stacked(g, t) && Dense(t) && Emits(g, t, t', s)
    ensures Dense(t')
  {
    var v := t.stack[s];
    assert v in t.stack;
    assert t'.comp[v] == t.count;
    forall c | 0 <= c < t'.count ensures c in t'.comp {
      if c < t.count {
        assert c in t.comp;
        var x :| 0 <= x < |t.comp| && t.comp[x] == c;
        assert t'.comp[x] == c;
      }
    }
  }

  lemma EmitLow(g: Graph, t: Search, t': Search, s: nat)
    requires ValidGraph(g) && Shape(g, t) && Numbered(g, t) && LowSound(g, t) && Emits(g, t, t', s)
    requires forall j, k :: 0 <= j < k < |t.frames| ==> t.order[t.frames[j].0] < t.order[t.frames[k].0]
    ensures LowSound(g, t') && t'.low == t.low
  {
    hide Reach;
    var m := |t.frames| - 1;
    if m > 0 { assert LowWitness(g, t, t.frames[m - 1].0); }
    forall k | 0 <= k < |t'.frames| ensures LowWitness(g, t', t'.frames[k].0) {
      assert t'.frames[k] == t.frames[k] && LowWitness(g, t, t.frames[k].0);
    }
  }

  lemma EmitLowBound(g: Graph, t: Search, t': Search, s: nat)
    requires ValidGraph(g) && Shape(g, t) && LowBound(g, t) && Emits(g, t, t', s) && t'.low == t.low
    ensures LowBound(g, t')
  {
    forall k: nat, x: nat, j: nat | Owns(g, t', k, x) && j < t'.looked[x] && t'.onStack[g[x][j]]
      ensures t'.low[t'.frames[k].0] <= t'.order[g[x][j]]
    {
      assert t'.frames[k] == t.frames[k];
      assert k + 1 < |t'.frames| ==> t'.frames[k + 1] == t.frames[k + 1];
      assert Owns(g, t, k, x);
    }
  }

  lemma EmitInv(g: Graph, t: Search, t': Search, s: nat)
    requires Inv(g, t) && Emits(g, t, t', s)
    ensures Inv(g, t')
  {
    hide Numbered, Stacked, FrameReach, Finished, SameReach, Dense, LowSound, LowBound, ValidGraph, Explored, Waits, Reach;
    EmitStacked(g, t, t', s);
    EmitFramed(g, t, t', s);
    EmitFrameReach(g, t, t', s);
    LeaveExplored(g, t, t');
    EmitFinished(g, t, t', s);
    EmitSameReach(g, t, t', s);
    EmitDense(g, t, t', s);
    EmitLow(g, t, t', s);
    EmitLowBound(g, t, t', s);
    forall i, j | 0 <= i <= j < |t'.stack| ensures Reach(g, t'.stack[i], t'.stack[j]) {
      assert t'.stack[i] == t.stack[i] && t'.stack[j] == t.stack[j];
    }
  }

  // ----- the algorithm

  /** What the numbering means. */
  ghost predicate Components(g: Graph, comp: seq<int>) {
    && |comp| == |g|
    && (forall v :: 0 <= v < |g| ==> 0 <= comp[v])
    && (forall u, v :: 0 <= u < |g| && 0 <= v < |g| ==> (comp[u] == comp[v] <==> Mutual(g, u, v)))
    && (forall v, j :: 0 <= v < |g| && 0 <= j < |g[v]| && g[v][j] < |g| ==> comp[g[v][j]] <= comp[v])
    && (forall v, c :: 0 <= v < |g| && 0 <= c < comp[v] ==> c in comp)
  }

  lemma AllNumbered(g: Graph, t: Search)
    requires Inv(g, t) && t.frames == []
    requires forall v :: 0 <= v < |g| ==> t.order[v] != UNSEEN
    ensures Components(g, t.comp)
  {
    hide Reach, Framed, StackReach, FrameReach, LowSound, LowBound, Explored, Dense;
    forall v | 0 <= v < |g| ensures t.comp[v] != UNSEEN {
      NothingStacked(g, t, v);
    }
    assert forall v, c :: 0 <= v < |g| && 0 <= c < t.comp[v] ==> c in t.comp by { DenseBelow(t); }
    forall u, v | 0 <= u < |g| && 0 <= v < |g| ensures t.comp[u] == t.comp[v] <==> Mutual(g, u, v) {
      if Mutual(g, u, v) {
        ComponentsFall(g, t, u, v);
        ComponentsFall(g, t, v, u);
      }
    }
  }

  lemma DenseBelow(t: Search)
    requires Dense(t) && forall v :: 0 <= v < |t.comp| ==> t.comp[v] < t.count
    ensures forall v, c :: 0 <= v < |t.comp| && 0 <= c < t.comp[v] ==> c in t.comp
  {
  }

  lemma NothingStacked(g: Graph, t: Search, v: nat)
    requires Shape(g, t) && Stacked(g, t) && FrameReach(g, t) && t.frames == [] && v < |g|
    ensures !t.onStack[v]
  {
    if t.onStack[v] {
      FrameOf(g, t, v);
    }
  }

  lemma ComponentsFall(g: Graph, t: Search, u: nat, v: nat)
    requires ValidGraph(g) && Shape(g, t) && Finished(g, t) && Reach(g, u, v)
    requires forall x :: 0 <= x < |g| ==> t.comp[x] != UNSEEN
    ensures t.comp[v] <= t.comp[u]
  {
    var p :| Walk(g, p, u, v);
    forall x, y | 0 <= x < |g| && y in g[x] && y < |g| ensures t.comp[y] <= t.comp[x] {
      var j :| 0 <= j < |g[x]| && g[x][j] == y;
    }
    MonotoneAlongWalk(g, p, u, v, t.comp);
  }

  ghost function Unseen(order: seq<int>): set<int> {
    set v | 0 <= v < |order| && order[v] == UNSEEN
  }

  lemma InitialInv(g: Graph, t: Search)
    requires ValidGraph(g)
    requires t == Search(seq(|g|, _ => UNSEEN), seq(|g|, _ => 0), seq(|g|, _ => false), seq(|g|, _ => UNSEEN), [], [], 0, 0, seq(|g|, _ => 0))
    ensures Inv(g, t)
  {
    hide Reach;
  }

  lemma Bounds(g: Graph, t: Search)
    requires Inv(g, t)
    ensures Shape(g, t) && Stacked(g, t)
    ensures t.frames != [] ==> t.onStack[t.frames[|t.frames| - 1].0] && t.frames[|t.frames| - 1].0 in t.stack
    ensures forall v, j :: 0 <= v < |g| && 0 <= j < |g[v]| ==> g[v][j] < |g|
  {
    hide Reach, StackReach, FrameReach, Finished, SameReach, Dense, LowSound, LowBound, Explored, Waits, Numbered;
  }

  ghost predicate From(s: seq<nat>, k: nat, x: nat)
    requires k <= |s|
  {
    x in s[k..]
  }

  lemma FromStep(s: seq<nat>, k: nat, x: nat)
    requires k < |s|
    ensures From(s, k, x) <==> x == s[k] || From(s, k + 1, x)
  {
    assert s[k..] == [s[k]] + s[k + 1..];
  }

  /** Pop the stack down to `v`, giving every popped node component `c`. */
  method PopDown(n: nat, stack: seq<nat>, onStack: seq<bool>, component: seq<int>, v: nat, c: int, ghost s: nat)
    returns (stack': seq<nat>, onStack': seq<bool>, component': seq<int>)
    requires |onStack| == |component| == n && (forall i :: 0 <= i < |stack| ==> stack[i] < n)
    requires forall i, j :: 0 <= i < j < |stack| ==> stack[i] != stack[j]
    requires s < |stack| && stack[s] == v
    ensures stack' == stack[..s]
    ensures |onStack'| == |component'| == n
    ensures forall x :: 0 <= x < n ==> onStack'[x] == (onStack[x] && !From(stack, s, x))
    ensures forall x :: 0 <= x < n ==> component'[x] == if From(stack, s, x) then c else component[x]
  {
    hide From;
    stack', onStack', component' := stack, onStack, component;
    FromEnd(stack);
    var k := |stack|;
    while true
      invariant s < k <= |stack| && stack' == stack[..k]
      invariant |onStack'| == |component'| == n
      invariant forall x :: 0 <= x < n ==> onStack'[x] == (onStack[x] && !From(stack, k, x))
      invariant forall x :: 0 <= x < n ==> component'[x] == if From(stack, k, x) then c else component[x]
      decreases k
    {
      k := k - 1;
      var w := stack'[k];
      forall x: nat ensures From(stack, k, x) <==> x == w || From(stack, k + 1, x) { FromStep(stack, k, x); }
      stack' := stack'[..k];
      onStack' := onStack'[w := false];
      component' := component'[w := c];
      if w == v {
        break;
      }
    }
  }

  lemma FromEnd(s: seq<nat>)
    ensures forall x: nat :: !From(s, |s|, x)
  {
  }

  method PopComponent(g: Graph, ghost t: Search, stack: seq<nat>, onStack: seq<bool>, component: seq<int>, v: nat, c: int)
    returns (stack': seq<nat>, onStack': seq<bool>, component': seq<int>)
    requires Shape(g, t) && Stacked(g, t) && t.stack == stack && t.onStack == onStack && t.comp == component
    requires v in stack
    ensures exists s :: 0 <= s < |stack| && stack[s] == v && stack' == stack[..s]
    ensures |onStack'| == |component'| == |g|
    ensures forall x :: 0 <= x < |g| ==> onStack'[x] == (onStack[x] && t.order[x] < t.order[v])
    ensures forall x :: 0 <= x < |g| ==> component'[x] == if onStack[x] && t.order[x] >= t.order[v] then c else component[x]
  {
    hide Stacked, From;
    ghost var s :| 0 <= s < |stack| && stack[s] == v;
    StackDistinct(g, t);
    stack', onStack', component' := PopDown(|g|, stack, onStack, component, v, c, s);
    forall x | 0 <= x < |g| ensures From(stack, s, x) <==> onStack[x] && t.order[x] >= t.order[v] {
      StackedFrom(g, t, s, x);
    }
  }

  lemma StackDistinct(g: Graph, t: Search)
    requires Shape(g, t) && Stacked(g, t)
    ensures forall i, j :: 0 <= i < j < |t.stack| ==> t.stack[i] != t.stack[j]
  {
    forall i, j | 0 <= i < j < |t.stack| ensures t.stack[i] != t.stack[j] {
      assert t.order[t.stack[i]] < t.order[t.stack[j]];
    }
  }

  lemma StackedFrom(g: Graph, t: Search, s: nat, x: nat)
    requires Shape(g, t) && Stacked(g, t) && s < |t.stack| && x < |g|
    ensures From(t.stack, s, x) <==> t.onStack[x] && t.order[x] >= t.order[t.stack[s]]
  {
    if x in t.stack {
      var i :| 0 <= i < |t.stack| && t.stack[i] == x;
      if s <= i {
        assert t.stack[s..][i - s] == x;
      } else {
        assert t.order[x] < t.order[t.stack[s]];
      }
    }
    if x in t.stack[s..] {
      var j :| 0 <= j < |t.stack[s..]| && t.stack[s..][j] == x;
      assert t.stack[s + j] == x;
      assert x in t.stack;
    }
  }

  /** Leave the top frame: hand its low number to its parent and, if it reaches
      nothing below itself, emit its component. */
  method Leave(g: Graph, ghost t: Search, low: seq<int>, onStack: seq<bool>, component: seq<int>,
               stack: seq<nat>, frames: seq<(nat, nat)>, components: nat, order: seq<int>)
    returns (low': seq<int>, stack': seq<nat>, onStack': seq<bool>, component': seq<int>, components': nat)
    requires Inv(g, t) && AtEnd(g, t)
    requires t == Search(order, low, onStack, component, stack, frames, t.next, components, t.looked)
    ensures Inv(g, Search(order, low', onStack', component', stack', frames[..|frames| - 1], t.next, components', t.looked))
  {
    hide Inv, Stacked;
    Bounds(g, t);
    low', stack', onStack', component', components' := low, stack, onStack, component, components;
    var m := |frames| - 1;
    var v := frames[m].0;
    if m > 0 {
      var parent := frames[m - 1].0;
      FramesDiffer(g, t);
      low' := low[parent := Min(low[parent], low[v])];
    }
    if low'[v] == order[v] {
      stack', onStack', component' := PopComponent(g, t, stack, onStack, component, v, components);
      components' := components + 1;
      ghost var s :| 0 <= s < |stack| && stack[s] == v && stack' == stack[..s];
      EmitInv(g, t, Search(order, low', onStack', component', stack', frames[..m], t.next, components', t.looked), s);
    } else {
      LeaveInv(g, t, Search(order, low', onStack', component', stack', frames[..m], t.next, components', t.looked));
    }
  }

  lemma FramesDiffer(g: Graph, t: Search)
    requires Inv(g, t)
    ensures |t.frames| > 1 ==> t.frames[|t.frames| - 1].0 != t.frames[|t.frames| - 2].0
  {
    hide Reach, StackReach, FrameReach, Finished, SameReach, Dense, LowSound, LowBound, Explored, Waits, Numbered, Stacked;
  }

  /** Component numbers: equal exactly for nodes that reach each other, and never
      higher at the head of an edge than at its tail. */
  method StronglyConnectedComponents(succ: Graph) returns (component: seq<int>)
    requires ValidGraph(succ)
    ensures Components(succ, component)
  {
    hide Inv, Components, Numbered, Framed, StackReach, FrameReach, Finished, SameReach, Dense, LowSound, LowBound, Explored, Reach;
    var n := |succ|;
    var order, low := seq(n, _ => UNSEEN), seq(n, _ => 0);
    var onStack: seq<bool> := seq(n, _ => false);
    component := seq(n, _ => UNSEEN);
    var stack: seq<nat> := [];
    var next, components := 0, 0;
    ghost var looked: seq<nat> := seq(n, _ => 0);
    ghost var t := Search(order, low, onStack, component, stack, [], next, components, looked);
    InitialInv(succ, t);
    for root := 0 to n
      invariant t == Search(order, low, onStack, component, stack, [], next, components, looked)
      invariant Inv(succ, t) && |order| == n
      invariant forall v :: 0 <= v < root ==> order[v] != UNSEEN
    {
      if order[root] != UNSEEN {
        continue;
      }
      Bounds(succ, t);
      var frames: seq<(nat, nat)> := [(root, 0)];
      order, low := order[root := next], low[root := next];
      next := next + 1;
      stack, onStack := stack + [root], onStack[root := true];
      ghost var t1 := Search(order, low, onStack, component, stack, frames, next, components, looked);
      PushInv(succ, t, t1, root);
      t := t1;
      while frames != []
        invariant t == Search(order, low, onStack, component, stack, frames, next, components, looked)
        invariant Inv(succ, t) && |order| == n
        invariant forall v :: 0 <= v <= root ==> order[v] != UNSEEN
        decreases Unseen(order), |frames|, if frames != [] && frames[|frames| - 1].0 < n then |succ[frames[|frames| - 1].0]| - frames[|frames| - 1].1 else 0
      {
        Bounds(succ, t);
        var m := |frames| - 1;
        var (v, pos) := frames[m];
        if pos < |succ[v]| {
          var w := succ[v][pos];
          frames := frames[m := (v, pos + 1)];
          looked := looked[v := pos + 1];
          if order[w] == UNSEEN {
            order, low := order[w := next], low[w := next];
            next := next + 1;
            stack, onStack := stack + [w], onStack[w := true];
            frames := frames + [(w, 0)];
            ghost var t' := Search(order, low, onStack, component, stack, frames, next, components, looked);
            PushInv(succ, t, t', w);
            FewerUnseen(t.order, w, t.next);
            t := t';
          } else {
            if onStack[w] {
              low := low[v := Min(low[v], order[w])];
            }
            ghost var t' := Search(order, low, onStack, component, stack, frames, next, components, looked);
            assert low == t.low[v := t.low[v]] || low == t.low[v := t.order[w]];
            LookInv(succ, t, t');
            t := t';
          }
          continue;
        }
        low, stack, onStack, component, components := Leave(succ, t, low, onStack, component, stack, frames, components, order);
        frames := frames[..m];
        t := Search(order, low, onStack, component, stack, frames, next, components, looked);
      }
    }
    AllNumbered(succ, t);
  }

  lemma FewerUnseen(order: seq<int>, w: nat, k: nat)
    requires w < |order| && order[w] == UNSEEN
    ensures Unseen(order[w := k]) < Unseen(order)
  {
    assert w in Unseen(order) && w !in Unseen(order[w := k]);
  }
}
