/** The memory-access table: per load and store, the cells it may touch, as long
    as they are few enough to list. */
module MemoryAccess {
  import opened Common
  import opened Sorting
  import R = Rules

  type Loc = nat
  type Node = nat

  /** An access that touches more cells than this is not itemised. */
  const MEMORY_ACCESS_CAP := 16

  /** The locations' kinds, and the summary of each field cell that has one. */
  datatype Locations = Locations(kind: seq<R.LocKind>, summary: map<Loc, Loc>)

  /** Summaries are locations, and are not themselves field cells. */
  ghost predicate LocationsOk(p: Locations) {
    forall l :: l in p.summary ==> p.summary[l] < |p.kind| && p.kind[p.summary[l]].FieldSummary?
  }

  ghost predicate IsMemory(p: Locations, l: Loc) {
    l < |p.kind| && !p.kind[l].Function? && !p.kind[l].StringLit?
  }

  ghost predicate IsField(p: Locations, l: Loc) {
    l < |p.kind| && p.kind[l].Field?
  }

  // ----- The cells of one access, as sets -----

  /** The memory among `targets`, and for a store the summaries of its fields. */
  ghost function Touched(p: Locations, store: bool, targets: set<Loc>): set<Loc> {
    (set l | l in targets && IsMemory(p, l)) +
    (set l | store && l in targets && IsField(p, l) && l in p.summary :: p.summary[l])
  }

  ghost function FoldCell(p: Locations, l: Loc): Loc {
    if IsField(p, l) && l in p.summary then p.summary[l] else l
  }

  /** Field cells replaced by their summaries. */
  ghost function Folded(p: Locations, cells: set<Loc>): set<Loc> {
    set l | l in cells :: FoldCell(p, l)
  }

  /** The cells an access keeps, or none when they do not fit even folded. */
  ghost function Recorded(p: Locations, store: bool, targets: set<Loc>): Option<set<Loc>> {
    var cells := Touched(p, store, targets);
    if |cells| <= MEMORY_ACCESS_CAP then Some(cells)
    else if |Folded(p, cells)| <= MEMORY_ACCESS_CAP then Some(Folded(p, cells))
    else None
  }

  /** Cells that folding cannot remove. */
  ghost function Unfoldable(p: Locations, targets: set<Loc>): set<Loc> {
    set l | l in targets && IsMemory(p, l) && !IsField(p, l)
  }

  /** Too many of those and nothing is kept, whatever folds: the early exit
      decides as the full computation would. */
  lemma TooWide(p: Locations, store: bool, targets: set<Loc>, some: set<Loc>)
    requires some <= targets && |Unfoldable(p, some)| > MEMORY_ACCESS_CAP
    ensures Recorded(p, store, targets) == None
  {
    var u, cells := Unfoldable(p, some), Touched(p, store, targets);
    assert u <= cells;
    SubsetSize(u, cells);
    forall l | l in u ensures l in Folded(p, cells) {
      assert l in cells && FoldCell(p, l) == l;
    }
    SubsetSize(u, Folded(p, cells));
  }

  // ----- Loads and stores that can meet share a recorded cell -----

  /** With every field cell comes its summary, as the field step supplies them. */
  ghost predicate WithSummaries(p: Locations, targets: set<Loc>) {
    forall l :: l in targets && IsField(p, l) && l in p.summary ==> p.summary[l] in targets
  }

  /** A cell that is no field cell, or has no summary, survives folding. */
  lemma StaysRecorded(p: Locations, store: bool, targets: set<Loc>, c: Loc)
    requires c in Touched(p, store, targets) && (IsField(p, c) ==> c !in p.summary)
    ensures Recorded(p, store, targets).Some? ==> c in Recorded(p, store, targets).value
  {
    assert FoldCell(p, c) == c;
  }

  lemma LoadMeetsStore(p: Locations, load: set<Loc>, store: set<Loc>, c: Loc)
    requires LocationsOk(p) && WithSummaries(p, load)
    requires c in Touched(p, false, load) && c in Touched(p, true, store)
    requires Recorded(p, false, load).Some? && Recorded(p, true, store).Some?
    ensures Recorded(p, false, load).value * Recorded(p, true, store).value != {}
  {
    var d := FoldCell(p, c);
    assert d in Touched(p, false, load);
    assert d in Touched(p, true, store);
    StaysRecorded(p, false, load, d);
    StaysRecorded(p, true, store, d);
    assert d in Recorded(p, false, load).value * Recorded(p, true, store).value;
  }

  // ----- Collecting -----

  /** Gather the cells of the targets, giving up early when too many cannot
      fold. */
  method Gather(p: Locations, store: bool, targets: seq<Loc>) returns (ok: bool, cells: seq<Loc>)
    requires NoDup(targets) && forall i :: 0 <= i < |targets| ==> targets[i] < |p.kind|
    ensures ok ==> Elems(cells) == Touched(p, store, Elems(targets))
    ensures !ok ==> Recorded(p, store, Elems(targets)) == None
  {
    hide Recorded, Touched, Unfoldable, Elems, Share;
    cells := [];
    var unfoldable := 0;
    NothingGathered(p, store);
    for i := 0 to |targets|
      invariant Elems(cells) == Touched(p, store, Elems(targets[..i]))
      invariant unfoldable == |Unfoldable(p, Elems(targets[..i]))|
    {
      var l := targets[i];
      GatherStep(p, store, targets, i);
      if p.kind[l] != R.Function && p.kind[l] != R.StringLit {
        cells := GatherOne(p, store, cells, l);
        if !p.kind[l].Field? {
          unfoldable := unfoldable + 1;
          if unfoldable > MEMORY_ACCESS_CAP {
            TooWide(p, store, Elems(targets), Elems(targets[..i + 1]));
            return false, cells;
          }
        }
      } else {
        NoShare(p, store, l);
      }
    }
    assert targets[..|targets|] == targets;
    ok := true;
  }

  lemma NoShare(p: Locations, store: bool, l: Loc)
    requires !IsMemory(p, l)
    ensures Share(p, store, l) == {}
  {
  }

  lemma ElemsSnoc(s: seq<Loc>, l: Loc)
    ensures Elems(s + [l]) == Elems(s) + {l}
  {
  }

  /** What one target contributes. */
  ghost function Share(p: Locations, store: bool, l: Loc): set<Loc> {
    (if IsMemory(p, l) then {l} else {}) + (if store && IsField(p, l) && l in p.summary then {p.summary[l]} else {})
  }

  lemma TouchedStep(p: Locations, store: bool, s: set<Loc>, l: Loc)
    ensures Touched(p, store, s + {l}) == Touched(p, store, s) + Share(p, store, l)
  {
  }

  lemma UnfoldableStep(p: Locations, s: set<Loc>, l: Loc)
    requires l !in s
    ensures |Unfoldable(p, s + {l})| == |Unfoldable(p, s)| + if IsMemory(p, l) && !IsField(p, l) then 1 else 0
  {
    if IsMemory(p, l) && !IsField(p, l) {
      assert Unfoldable(p, s + {l}) == Unfoldable(p, s) + {l};
    } else {
      assert Unfoldable(p, s + {l}) == Unfoldable(p, s);
    }
  }

  lemma GatherStep(p: Locations, store: bool, targets: seq<Loc>, i: nat)
    requires i < |targets| && NoDup(targets)
    ensures Touched(p, store, Elems(targets[..i + 1])) == Touched(p, store, Elems(targets[..i])) + Share(p, store, targets[i])
    ensures |Unfoldable(p, Elems(targets[..i + 1]))| == |Unfoldable(p, Elems(targets[..i]))|
      + if IsMemory(p, targets[i]) && !IsField(p, targets[i]) then 1 else 0
    ensures Elems(targets[..i + 1]) <= Elems(targets)
  {
    hide Touched, Unfoldable, Share;
    var l, a := targets[i], Elems(targets[..i]);
    assert targets[..i + 1] == targets[..i] + [l];
    ElemsSnoc(targets[..i], l);
    assert l !in a;
    TouchedStep(p, store, a, l);
    UnfoldableStep(p, a, l);
  }

  /** Gathering the cells of one target. */
  method GatherOne(p: Locations, store: bool, cells: seq<Loc>, l: Loc) returns (cells': seq<Loc>)
    requires l < |p.kind| && IsMemory(p, l)
    ensures Elems(cells') == Elems(cells) + Share(p, store, l)
  {
    ElemsSnoc(cells, l);
    cells' := cells + [l];
    if p.kind[l].Field? && store && l in p.summary {
      ElemsSnoc(cells', p.summary[l]);
      cells' := cells' + [p.summary[l]];
    }
  }

  lemma NothingGathered(p: Locations, store: bool)
    ensures Touched(p, store, {}) == {} && Unfoldable(p, {}) == {} && Elems<Loc>([]) == {}
  {
  }

  /** Replace field cells by their summaries in place. */
  method FoldCells(p: Locations, cells: seq<Loc>) returns (folded: seq<Loc>)
    ensures Elems(folded) == Folded(p, Elems(cells))
  {
    folded := cells;
    for i := 0 to |cells|
      invariant |folded| == |cells|
      invariant forall j :: 0 <= j < |cells| ==> folded[j] == if j < i then FoldCell(p, cells[j]) else cells[j]
    {
      if folded[i] < |p.kind| && p.kind[folded[i]].Field? && folded[i] in p.summary {
        folded := folded[i := p.summary[folded[i]]];
      }
    }
    forall l | l in Elems(folded) ensures l in Folded(p, Elems(cells)) {
      var j :| 0 <= j < |folded| && folded[j] == l;
      assert cells[j] in Elems(cells);
    }
    forall l | l in Folded(p, Elems(cells)) ensures l in Elems(folded) {
      var c :| c in Elems(cells) && FoldCell(p, c) == l;
      var j :| 0 <= j < |cells| && cells[j] == c;
      assert folded[j] == l;
    }
  }

  /** One access's cells in ascending order, if the cap allows listing them. */
  method CollectCells(p: Locations, store: bool, targets: seq<Loc>) returns (fits: bool, cells: seq<Loc>)
    requires NoDup(targets) && forall i :: 0 <= i < |targets| ==> targets[i] < |p.kind|
    ensures fits <==> Recorded(p, store, Elems(targets)).Some?
    ensures fits ==> Ascending(cells) && Some(Elems(cells)) == Recorded(p, store, Elems(targets))
    ensures fits ==> |cells| <= MEMORY_ACCESS_CAP
  {
    hide Touched, Folded, Elems, SortNumbers, Ascending;
    fits, cells := Gather(p, store, targets);
    if fits {
      SortNumbersOk(cells);
      cells := SortNumbers(cells);
      if |cells| > MEMORY_ACCESS_CAP {
        cells := FoldCells(p, cells);
        SortNumbersOk(cells);
        cells := SortNumbers(cells);
        if |cells| > MEMORY_ACCESS_CAP {
          fits := false;
        }
      }
    }
  }

  // ----- Every access of the program -----

  datatype ConstraintKind = Load | Store | Gep | Others

  datatype Constraint = Constraint(kind: ConstraintKind, dst: Node, src: Node, hasField: bool)

  datatype Access = Access(constraint: nat, loc: Option<Loc>)

  type Sets = map<Node, seq<Loc>>

  ghost function At(m: Sets, n: Node): seq<Loc> {
    if n in m then m[n] else []
  }

  /** The destinations of field steps. */
  ghost predicate FieldPointer(cs: seq<Constraint>, n: Node) {
    exists k :: 0 <= k < |cs| && cs[k].kind.Gep? && cs[k].hasField && cs[k].dst == n
  }

  ghost function Pointer(c: Constraint): Node {
    if c.kind.Load? then c.src else c.dst
  }

  /** What the pointer of an access designates: for a field pointer its
      designated cells, else all it points to. */
  ghost function TargetsOf(cs: seq<Constraint>, pts: Sets, designated: Sets, c: Constraint): seq<Loc> {
    if FieldPointer(cs, Pointer(c)) then At(designated, Pointer(c)) else At(pts, Pointer(c))
  }

  /** The rows of constraint `k`: one per recorded cell, ascending; a single
      row naming no cell if none is recorded; none unless it is an access. */
  ghost predicate RowsOk(p: Locations, cs: seq<Constraint>, pts: Sets, designated: Sets, k: nat, rows: seq<Access>)
    requires k < |cs|
  {
    if !cs[k].kind.Load? && !cs[k].kind.Store? then rows == []
    else
      var cells := Recorded(p, cs[k].kind.Store?, Elems(TargetsOf(cs, pts, designated, cs[k])));
      if cells.None? || cells.value == {} then rows == [Access(k, None)]
      else RowsList(k, cells.value, rows)
  }

  ghost predicate RowsList(k: nat, cells: set<Loc>, rows: seq<Access>) {
    && (forall i :: 0 <= i < |rows| ==> rows[i].constraint == k && rows[i].loc.Some? && rows[i].loc.value in cells)
    && (forall i, j :: 0 <= i < j < |rows| ==> rows[i].loc.Some? && rows[j].loc.Some? && rows[i].loc.value < rows[j].loc.value)
    && (forall l :: l in cells ==> Access(k, Some(l)) in rows)
  }

  /** `out` is one block of rows per constraint, in order. */
  ghost predicate AccessesOk(p: Locations, cs: seq<Constraint>, pts: Sets, designated: Sets, out: seq<Access>) {
    exists blocks :: BlocksOk(p, cs, pts, designated, blocks) && out == Flat(blocks)
  }

  ghost predicate BlocksOk(p: Locations, cs: seq<Constraint>, pts: Sets, designated: Sets, blocks: seq<seq<Access>>) {
    |blocks| == |cs| && forall k :: 0 <= k < |cs| ==> RowsOk(p, cs, pts, designated, k, blocks[k])
  }

  ghost predicate SetsOk(p: Locations, m: Sets) {
    forall n :: n in m ==> NoDup(m[n]) && forall i :: 0 <= i < |m[n]| ==> m[n][i] < |p.kind|
  }

  // ----- The same, access by access -----

  /** `l` is among the locations pointer `n` stands for. */
  ghost predicate PointsAt(cs: seq<Constraint>, pts: Sets, designated: Sets, n: Node, l: Loc) {
    if FieldPointer(cs, n) then n in designated && l in designated[n] else n in pts && l in pts[n]
  }

  /** A load touches the memory its source points at, a store the memory its
      destination points at and the summaries of the field cells there. */
  ghost predicate Touches(p: Locations, cs: seq<Constraint>, pts: Sets, designated: Sets, k: nat, l: Loc)
    requires k < |cs|
  {
    match cs[k].kind
    case Load => PointsAt(cs, pts, designated, cs[k].src, l) && IsMemory(p, l)
    case Store =>
      || (PointsAt(cs, pts, designated, cs[k].dst, l) && IsMemory(p, l))
      || SummaryThere(p, cs, pts, designated, cs[k].dst, l)
    case _ => false
  }

  ghost predicate SummaryThere(p: Locations, cs: seq<Constraint>, pts: Sets, designated: Sets, n: Node, l: Loc) {
    exists f :: PointsAt(cs, pts, designated, n, f) && IsField(p, f) && f in p.summary && p.summary[f] == l
  }

  /** `cells` are the cells access `k` touches. */
  ghost predicate TouchesAll(p: Locations, cs: seq<Constraint>, pts: Sets, designated: Sets, k: nat, cells: set<Loc>)
    requires k < |cs|
  {
    forall l :: l in cells <==> Touches(p, cs, pts, designated, k, l)
  }

  /** Exactly `cells` are listed for access `k`, or a row without a cell if there
      are none. */
  ghost predicate Lists(out: seq<Access>, k: nat, cells: set<Loc>) {
    (forall l :: Access(k, Some(l)) in out <==> l in cells) && (Access(k, None) in out <==> cells == {})
  }

  /** Up to sixteen cells are listed; more are folded into the summaries first,
      and not listed if they are still too many. */
  ghost predicate ListsCells(p: Locations, out: seq<Access>, k: nat, cells: set<Loc>) {
    if |cells| <= 16 then Lists(out, k, cells)
    else if |Folded(p, cells)| <= 16 then Lists(out, k, Folded(p, cells))
    else Lists(out, k, {})
  }

  /** By constraint, then by location, each row once. */
  ghost predicate RowsInOrder(out: seq<Access>) {
    forall i, j :: 0 <= i < j < |out| ==> RowBefore(out[i], out[j])
  }

  ghost predicate RowBefore(a: Access, b: Access) {
    a.constraint < b.constraint || (a.constraint == b.constraint && a.loc.Some? && b.loc.Some? && a.loc.value < b.loc.value)
  }

  ghost predicate AllListed(p: Locations, cs: seq<Constraint>, pts: Sets, designated: Sets, out: seq<Access>) {
    && RowsInOrder(out)
    && (forall i :: 0 <= i < |out| ==> out[i].constraint < |cs|)
    && (forall k: nat :: k < |cs| && (cs[k].kind == Load || cs[k].kind == Store) ==>
          exists cells :: TouchesAll(p, cs, pts, designated, k, cells) && ListsCells(p, out, k, cells))
    && (forall k: nat, x :: k < |cs| && cs[k].kind != Load && cs[k].kind != Store ==> Access(k, x) !in out)
  }

  /** Block `k` holds rows of access `k` only, in order. */
  ghost predicate BlockOk(block: seq<Access>, k: nat) {
    && RowsInOrder(block) && forall i :: 0 <= i < |block| ==> block[i].constraint == k
  }

  lemma BlockIs(p: Locations, cs: seq<Constraint>, pts: Sets, designated: Sets, k: nat, rows: seq<Access>)
    requires k < |cs| && RowsOk(p, cs, pts, designated, k, rows)
    ensures BlockOk(rows, k)
  {
    hide Recorded, Elems, TargetsOf;
  }

  lemma BlockAppended(out: seq<Access>, block: seq<Access>, n: nat)
    requires RowsInOrder(out) && BlockOk(block, n) && forall i :: 0 <= i < |out| ==> out[i].constraint < n
    ensures RowsInOrder(out + block)
  {
    var more := out + block;
    forall i, j | 0 <= i < j < |more| ensures RowBefore(more[i], more[j]) {
      if i >= |out| {
        assert RowBefore(block[i - |out|], block[j - |out|]);
      }
    }
  }

  lemma {:induction false} FlatMembers(blocks: seq<seq<Access>>, a: Access)
    requires forall k :: 0 <= k < |blocks| ==> BlockOk(blocks[k], k)
    ensures a in Flat(blocks) <==> a.constraint < |blocks| && a in blocks[a.constraint]
  {
    hide RowsInOrder;
    if blocks != [] {
      var init, last := blocks[..|blocks| - 1], blocks[|blocks| - 1];
      forall k | 0 <= k < |init| ensures BlockOk(init[k], k) { assert init[k] == blocks[k]; }
      FlatMembers(init, a);
      assert BlockOk(last, |init|);
    }
  }

  lemma {:induction false} FlatBlocks(blocks: seq<seq<Access>>)
    requires forall k :: 0 <= k < |blocks| ==> BlockOk(blocks[k], k)
    ensures RowsInOrder(Flat(blocks)) && forall i :: 0 <= i < |Flat(blocks)| ==> Flat(blocks)[i].constraint < |blocks|
  {
    hide RowsInOrder;
    if blocks == [] {
      NoneInOrder();
    } else {
      var init, last := blocks[..|blocks| - 1], blocks[|blocks| - 1];
      forall k | 0 <= k < |init| ensures BlockOk(init[k], k) { assert init[k] == blocks[k]; }
      FlatBlocks(init);
      assert BlockOk(last, |init|);
      BlockAppended(Flat(init), last, |init|);
    }
  }

  lemma NoneInOrder()
    ensures RowsInOrder([])
  {
  }

  lemma TouchedIs(p: Locations, cs: seq<Constraint>, pts: Sets, designated: Sets, k: nat)
    requires k < |cs| && (cs[k].kind == Load || cs[k].kind == Store)
    ensures TouchesAll(p, cs, pts, designated, k, Touched(p, cs[k].kind.Store?, Elems(TargetsOf(cs, pts, designated, cs[k]))))
  {
    hide FieldPointer, IsMemory, IsField;
    var targets := TargetsOf(cs, pts, designated, cs[k]);
    forall l ensures l in Elems(targets) <==> PointsAt(cs, pts, designated, Pointer(cs[k]), l) {}
    forall l ensures l in Touched(p, cs[k].kind.Store?, Elems(targets)) <==> Touches(p, cs, pts, designated, k, l) {}
  }

  lemma RowsListed(p: Locations, cs: seq<Constraint>, pts: Sets, designated: Sets, k: nat, rows: seq<Access>, out: seq<Access>)
    requires k < |cs| && (cs[k].kind == Load || cs[k].kind == Store) && RowsOk(p, cs, pts, designated, k, rows)
    requires forall a: Access :: a.constraint == k ==> (a in out <==> a in rows)
    ensures ListsCells(p, out, k, Touched(p, cs[k].kind.Store?, Elems(TargetsOf(cs, pts, designated, cs[k]))))
  {
    hide Touched, Folded, TargetsOf, Elems;
    var targets := Elems(TargetsOf(cs, pts, designated, cs[k]));
    var cells, kept := Touched(p, cs[k].kind.Store?, targets), Recorded(p, cs[k].kind.Store?, targets);
    FoldedNone(p, cells);
    assert ListsCells(p, out, k, cells) <==> Lists(out, k, if kept.None? then {} else kept.value);
    assert Lists(rows, k, if kept.None? then {} else kept.value);
  }

  lemma FoldedNone(p: Locations, cells: set<Loc>)
    ensures Folded(p, cells) == {} <==> cells == {}
  {
    if c :| c in cells {
      assert FoldCell(p, c) in Folded(p, cells);
    }
  }

  lemma AccessesListed(p: Locations, cs: seq<Constraint>, pts: Sets, designated: Sets, blocks: seq<seq<Access>>)
    requires BlocksOk(p, cs, pts, designated, blocks)
    ensures AllListed(p, cs, pts, designated, Flat(blocks))
  {
    hide RowsOk, TouchesAll, ListsCells, RowsInOrder, BlockOk;
    var out := Flat(blocks);
    forall k | 0 <= k < |blocks| ensures BlockOk(blocks[k], k) { BlockIs(p, cs, pts, designated, k, blocks[k]); }
    FlatBlocks(blocks);
    forall a: Access ensures a in out <==> a.constraint < |blocks| && a in blocks[a.constraint] { FlatMembers(blocks, a); }
    forall k: nat | k < |cs| && (cs[k].kind == Load || cs[k].kind == Store)
      ensures exists cells :: TouchesAll(p, cs, pts, designated, k, cells) && ListsCells(p, out, k, cells)
    {
      TouchedIs(p, cs, pts, designated, k);
      RowsListed(p, cs, pts, designated, k, blocks[k], out);
    }
    forall k: nat, x | k < |cs| && cs[k].kind != Load && cs[k].kind != Store ensures Access(k, x) !in out {
      NoRows(p, cs, pts, designated, k, blocks[k]);
    }
  }

  lemma NoRows(p: Locations, cs: seq<Constraint>, pts: Sets, designated: Sets, k: nat, rows: seq<Access>)
    requires k < |cs| && cs[k].kind != Load && cs[k].kind != Store && RowsOk(p, cs, pts, designated, k, rows)
    ensures rows == []
  {
  }

  method FieldPointers(cs: seq<Constraint>) returns (nodes: set<Node>)
    ensures forall n :: n in nodes <==> FieldPointer(cs, n)
  {
    nodes := {};
    for k := 0 to |cs|
      invariant forall n :: n in nodes <==> FieldPointer(cs[..k], n)
    {
      assert cs[..k + 1] == cs[..k] + [cs[k]];
      forall n ensures FieldPointer(cs[..k + 1], n) <==>
        FieldPointer(cs[..k], n) || (cs[k].kind.Gep? && cs[k].hasField && cs[k].dst == n)
      {
        PointerStep(cs, k, n);
      }
      if cs[k].kind.Gep? && cs[k].hasField {
        nodes := nodes + {cs[k].dst};
      }
    }
    assert cs[..|cs|] == cs;
  }

  lemma PointerStep(cs: seq<Constraint>, k: nat, n: Node)
    requires k < |cs|
    ensures FieldPointer(cs[..k + 1], n) <==> FieldPointer(cs[..k], n) || (cs[k].kind.Gep? && cs[k].hasField && cs[k].dst == n)
  {
    var s, t := cs[..k], cs[..k + 1];
    assert forall i :: 0 <= i < k ==> t[i] == s[i];
    assert t[k] == cs[k];
    if FieldPointer(s, n) {
      var i :| 0 <= i < |s| && s[i].kind.Gep? && s[i].hasField && s[i].dst == n;
      assert t[i] == s[i];
    }
    if FieldPointer(t, n) {
      var i :| 0 <= i < |t| && t[i].kind.Gep? && t[i].hasField && t[i].dst == n;
      assert i < k ==> s[i] == t[i];
    }
  }

  method RowsOf(k: nat, cells: seq<Loc>) returns (rows: seq<Access>)
    requires Ascending(cells)
    ensures RowsList(k, Elems(cells), rows)
  {
    rows := seq(|cells|, i requires 0 <= i < |cells| => Access(k, Some(cells[i])));
    forall l | l in Elems(cells) ensures Access(k, Some(l)) in rows {
      var i :| 0 <= i < |cells| && cells[i] == l;
      assert rows[i] == Access(k, Some(l));
    }
  }

  /** Constraint by constraint, the rows of every load and store. */
  method MemoryAccesses(p: Locations, cs: seq<Constraint>, pts: Sets, designated: Sets)
    returns (out: seq<Access>)
    requires SetsOk(p, pts) && SetsOk(p, designated)
    ensures AccessesOk(p, cs, pts, designated, out) && AllListed(p, cs, pts, designated, out)
  {
    hide Recorded, Elems, FieldPointer, RowsList, AllListed;
    var fieldPointers := FieldPointers(cs);
    out := [];
    ghost var blocks: seq<seq<Access>> := [];
    for k := 0 to |cs|
      invariant out == Flat(blocks) && |blocks| == k
      invariant forall i :: 0 <= i < k ==> RowsOk(p, cs, pts, designated, i, blocks[i])
    {
      var rows := [];
      var c := cs[k];
      if c.kind.Load? || c.kind.Store? {
        var pointer := if c.kind == Load then c.src else c.dst;
        var targets: seq<Loc> := [];
        if pointer in fieldPointers {
          if pointer in designated { targets := designated[pointer]; }
        } else if pointer in pts {
          targets := pts[pointer];
        }
        var fits, cells := CollectCells(p, c.kind.Store?, targets);
        NoneListed(cells);
        if !fits || cells == [] {
          rows := [Access(k, None)];
        } else {
          rows := RowsOf(k, cells);
        }
      }
      assert (blocks + [rows])[..k] == blocks;
      out, blocks := out + rows, blocks + [rows];
    }
    assert BlocksOk(p, cs, pts, designated, blocks);
    AccessesListed(p, cs, pts, designated, blocks);
  }

  lemma NoneListed(cells: seq<Loc>)
    ensures Elems(cells) == {} <==> cells == []
  {
    assert cells != [] ==> cells[0] in Elems(cells);
  }
}
