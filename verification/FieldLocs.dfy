/** Synthesizing field locations on demand, with a cap on nesting depth. */
module FieldLocs {
  import opened Common
  import R = Rules

  type Loc = nat
  type FieldId = nat
  type TypeId = nat
  type Target = Option<nat>
  type Member = (TypeId, FieldId)

  const FIELD_LOC_DEPTH_CAP := 4

  datatype Location = Location(kind: R.LocKind, variable: Option<nat>, fn: Option<nat>, field: Option<FieldId>,
                               typeId: TypeId, target: Target)

  /** What the program's types answer: the struct behind a variable or a type,
      each struct's layout, and the declaration a member belongs to. */
  datatype Types = Types(varStruct: map<nat, TypeId>, typeStruct: map<TypeId, TypeId>,
                         layout: map<TypeId, map<FieldId, TypeId>>, declared: map<Member, Member>)

  ghost function StructOf(p: Types, l: Location): Option<TypeId> {
    if l.variable.Some? then
      if l.variable.value in p.varStruct then Some(p.varStruct[l.variable.value]) else None
    else if l.typeId in p.typeStruct then Some(p.typeStruct[l.typeId])
    else None
  }

  ghost function DeclaredMember(p: Types, m: Member): Member {
    if m in p.declared then p.declared[m] else m
  }

  datatype Table = Table(
    locations: seq<Location>,
    fieldLoc: map<(Loc, FieldId), Loc>,
    fieldDepth: map<Loc, nat>,
    fieldSummary: map<(Target, Member), Loc>,
    toSummary: map<Loc, Loc>)

  ghost function Depth(t: Table, l: Loc): nat {
    if l in t.fieldDepth then t.fieldDepth[l] else 0
  }

  // ----- The invariant -----

  /** A field location is younger than its parent and one level deeper. */
  ghost predicate FieldOk(t: Table, k: (Loc, FieldId))
    requires k in t.fieldLoc
  {
    var l := t.fieldLoc[k];
    && k.0 < l < |t.locations|
    && t.locations[l].kind.Field? && t.locations[l].field == Some(k.1)
    && t.locations[l].target == t.locations[k.0].target
    && l in t.fieldDepth
    && t.fieldDepth[l] == Depth(t, k.0) + 1 <= FIELD_LOC_DEPTH_CAP
  }

  /** The summary recorded for a field location is its member's, in its image. */
  ghost predicate SummaryOk(p: Types, t: Table, k: (Loc, FieldId))
    requires k in t.fieldLoc && FieldOk(t, k)
  {
    var l := t.fieldLoc[k];
    && StructOf(p, t.locations[k.0]).Some?
    && l in t.toSummary
    && var m := (t.locations[k.0].target, DeclaredMember(p, (StructOf(p, t.locations[k.0]).value, k.1)));
       m in t.fieldSummary && t.toSummary[l] == t.fieldSummary[m]
  }

  ghost predicate SummaryLocOk(t: Table, m: (Target, Member))
    requires m in t.fieldSummary
  {
    var l := t.fieldSummary[m];
    l < |t.locations| && t.locations[l].kind.FieldSummary? && t.locations[l].target == m.0 && l !in t.fieldDepth
  }

  ghost predicate FieldsOk(t: Table) {
    forall k :: k in t.fieldLoc ==> FieldOk(t, k)
  }

  ghost predicate SummariesRecorded(p: Types, t: Table, pending: set<Loc>)
    requires FieldsOk(t)
  {
    forall k :: k in t.fieldLoc && t.fieldLoc[k] !in pending ==> SummaryOk(p, t, k)
  }

  /** Each location answers one request only. */
  ghost predicate OneRequestEach(t: Table) {
    && (forall a, b :: a in t.fieldLoc && b in t.fieldLoc && t.fieldLoc[a] == t.fieldLoc[b] ==> a == b)
    && (forall l :: l in t.fieldDepth ==> l in t.fieldLoc.Values)
  }

  ghost predicate SummaryLocsOk(t: Table) {
    forall m :: m in t.fieldSummary ==> SummaryLocOk(t, m)
  }

  /** Locations without a depth are initial ones or summaries. */
  ghost predicate Rooted(t: Table, roots: nat) {
    && (forall l: Loc :: l < |t.locations| && l !in t.fieldDepth ==> l < roots || l in t.fieldSummary.Values)
    && roots <= |t.locations| == roots + |t.fieldLoc| + |t.fieldSummary|
  }

  ghost function Targets(locations: seq<Location>): set<Target> {
    set l | l in locations :: l.target
  }

  /** The fields of every layout. */
  ghost function AllFields(p: Types): set<FieldId> {
    set st, f | st in p.layout && f in p.layout[st] :: f
  }

  /** The summaries there can be: one per declared member and link image. */
  ghost function AllSummaries(p: Types, targets: set<Target>): set<(Target, Member)> {
    set g, st, f | g in targets && st in p.layout && f in p.layout[st] :: (g, DeclaredMember(p, (st, f)))
  }

  /** Whatever was made came from a layout and stays in the initial locations'
      link images. */
  ghost predicate Sourced(p: Types, t: Table, roots: nat)
    requires roots <= |t.locations|
  {
    var targets := Targets(t.locations[..roots]);
    && (forall k :: k in t.fieldLoc ==> k.1 in AllFields(p))
    && (forall m :: m in t.fieldSummary ==> m in AllSummaries(p, targets))
    && (forall l: Loc :: l < |t.locations| ==> t.locations[l].target in targets)
  }

  lemma SourcedStays(p: Types, t: Table, t': Table, roots: nat)
    requires roots <= |t.locations| && Sourced(p, t, roots) && t.locations <= t'.locations
    requires forall k :: k in t'.fieldLoc ==> k in t.fieldLoc || k.1 in AllFields(p)
    requires forall m :: m in t'.fieldSummary ==> m in t.fieldSummary || m in AllSummaries(p, Targets(t.locations[..roots]))
    requires forall l :: |t.locations| <= l < |t'.locations| ==> t'.locations[l].target in Targets(t.locations[..roots])
    ensures Sourced(p, t', roots)
  {
    hide AllFields, AllSummaries, Targets;
    assert t'.locations[..roots] == t.locations[..roots];
  }

  lemma SummaryAvailable(p: Types, targets: set<Target>, g: Target, st: TypeId, f: FieldId)
    requires g in targets && st in p.layout && f in p.layout[st]
    ensures (g, DeclaredMember(p, (st, f))) in AllSummaries(p, targets) && f in AllFields(p)
  {
  }

  /** The table after any number of requests over `roots` initial locations,
      but for the summaries of the locations `pending`. */
  ghost predicate TableOk(p: Types, t: Table, roots: nat, pending: set<Loc>) {
    FieldsOk(t) && SummariesRecorded(p, t, pending) && OneRequestEach(t) && SummaryLocsOk(t) && Rooted(t, roots)
    && Sourced(p, t, roots)
  }

  // ----- Requests -----

  ghost function WithField(t: Table, parent: Loc, field: FieldId, typeId: TypeId): Table
    requires parent < |t.locations|
  {
    var l := |t.locations|;
    var base := t.locations[parent];
    t.(locations := t.locations + [Location(R.Field, base.variable, base.fn, Some(field), typeId, base.target)],
       fieldDepth := t.fieldDepth[l := Depth(t, parent) + 1],
       fieldLoc := t.fieldLoc[(parent, field) := l])
  }

  ghost function WithSummary(t: Table, m: (Target, Member), typeId: TypeId): Table {
    if m in t.fieldSummary then t
    else t.(locations := t.locations + [Location(R.FieldSummary, None, None, Some(m.1.1), typeId, m.0)],
            fieldSummary := t.fieldSummary[m := |t.locations|])
  }

  lemma NewLoc(t: Table)
    requires FieldsOk(t) && OneRequestEach(t)
    ensures forall l :: l in t.fieldDepth ==> l < |t.locations|
  {
    forall l | l in t.fieldDepth ensures l < |t.locations| {
      var k :| k in t.fieldLoc && t.fieldLoc[k] == l;
      HasDepth(t, k);
    }
  }

  /** More locations and summaries leave a field location as it is. */
  lemma FieldStays(p: Types, t: Table, t': Table, k: (Loc, FieldId))
    requires k in t.fieldLoc && FieldOk(t, k)
    requires t.locations <= t'.locations && k in t'.fieldLoc && t'.fieldLoc[k] == t.fieldLoc[k]
    requires t.fieldLoc[k] in t'.fieldDepth && Depth(t', t.fieldLoc[k]) == Depth(t, t.fieldLoc[k]) && Depth(t', k.0) == Depth(t, k.0)
    ensures FieldOk(t', k)
    ensures SummaryOk(p, t, k) && t.fieldLoc[k] in t'.toSummary && t'.toSummary[t.fieldLoc[k]] == t.toSummary[t.fieldLoc[k]]
      && (forall m :: m in t.fieldSummary ==> m in t'.fieldSummary && t'.fieldSummary[m] == t.fieldSummary[m])
      ==> SummaryOk(p, t', k)
  {
  }

  lemma WithSummaryFields(p: Types, t: Table, pending: set<Loc>, m: (Target, Member), typeId: TypeId)
    requires FieldsOk(t) && SummariesRecorded(p, t, pending)
    ensures FieldsOk(WithSummary(t, m, typeId)) && SummariesRecorded(p, WithSummary(t, m, typeId), pending)
  {
    hide FieldOk, SummaryOk;
    var t' := WithSummary(t, m, typeId);
    forall k | k in t.fieldLoc ensures FieldOk(t', k) && (t.fieldLoc[k] !in pending ==> SummaryOk(p, t', k)) {
      HasDepth(t, k);
      SummaryKnown(p, t, k);
      FieldStays(p, t, t', k);
    }
  }

  lemma HasDepth(t: Table, k: (Loc, FieldId))
    requires k in t.fieldLoc && FieldOk(t, k)
    ensures t.fieldLoc[k] in t.fieldDepth && k.0 < t.fieldLoc[k] < |t.locations|
  {
  }

  lemma SummaryKnown(p: Types, t: Table, k: (Loc, FieldId))
    requires k in t.fieldLoc && FieldOk(t, k)
    ensures SummaryOk(p, t, k) ==> t.fieldLoc[k] in t.toSummary
  {
  }

  lemma WithSummaryLocs(t: Table, m: (Target, Member), typeId: TypeId)
    requires SummaryLocsOk(t) && m !in t.fieldSummary && |t.locations| !in t.fieldDepth
    ensures SummaryLocsOk(WithSummary(t, m, typeId))
  {
    var t' := WithSummary(t, m, typeId);
    forall j | j in t'.fieldSummary ensures SummaryLocOk(t', j) {
      assert j != m ==> SummaryLocOk(t, j);
    }
  }

  lemma WithSummaryRooted(t: Table, roots: nat, m: (Target, Member), typeId: TypeId)
    requires Rooted(t, roots) && m !in t.fieldSummary
    ensures Rooted(WithSummary(t, m, typeId), roots)
  {
    var t', n := WithSummary(t, m, typeId), |t.locations|;
    assert t'.fieldSummary[m] == n;
    forall l: Loc | l < |t'.locations| && l !in t'.fieldDepth ensures l < roots || l in t'.fieldSummary.Values {
      if l < n && l >= roots {
        var j :| j in t.fieldSummary && t.fieldSummary[j] == l;
        assert t'.fieldSummary[j] == l;
      }
    }
  }

  lemma WithSummaryOk(p: Types, t: Table, roots: nat, pending: set<Loc>, m: (Target, Member), typeId: TypeId)
    requires TableOk(p, t, roots, pending) && roots <= |t.locations|
    requires m.0 in Targets(t.locations[..roots]) && m in AllSummaries(p, Targets(t.locations[..roots]))
    ensures TableOk(p, WithSummary(t, m, typeId), roots, pending)
    ensures m in WithSummary(t, m, typeId).fieldSummary
    ensures WithSummary(t, m, typeId).fieldLoc == t.fieldLoc && WithSummary(t, m, typeId).fieldDepth == t.fieldDepth
    ensures t.locations <= WithSummary(t, m, typeId).locations
  {
    hide FieldsOk, SummariesRecorded, SummaryLocsOk, Rooted, Sourced, AllSummaries;
    if m !in t.fieldSummary {
      SourcedStays(p, t, WithSummary(t, m, typeId), roots);
      WithSummaryFields(p, t, pending, m, typeId);
      NewLoc(t);
      hide OneRequestEach;
      WithSummaryLocs(t, m, typeId);
      WithSummaryRooted(t, roots, m, typeId);
    }
  }

  lemma WithFieldFields(p: Types, t: Table, parent: Loc, field: FieldId, typeId: TypeId)
    requires FieldsOk(t) && SummariesRecorded(p, t, {}) && OneRequestEach(t) && parent < |t.locations| && (parent, field) !in t.fieldLoc
    requires Depth(t, parent) < FIELD_LOC_DEPTH_CAP
    ensures FieldsOk(WithField(t, parent, field, typeId))
    ensures SummariesRecorded(p, WithField(t, parent, field, typeId), {|t.locations|})
  {
    var t', n := WithField(t, parent, field, typeId), |t.locations|;
    NewLoc(t);
    hide OneRequestEach;
    assert FieldOk(t', (parent, field));
    hide FieldOk, SummaryOk;
    forall k | k in t.fieldLoc ensures FieldOk(t', k) && SummaryOk(p, t', k) {
      HasDepth(t, k);
      SummaryKnown(p, t, k);
      FieldStays(p, t, t', k);
    }
  }

  lemma WithFieldRequests(t: Table, parent: Loc, field: FieldId, typeId: TypeId)
    requires FieldsOk(t) && OneRequestEach(t) && parent < |t.locations| && (parent, field) !in t.fieldLoc
    ensures OneRequestEach(WithField(t, parent, field, typeId))
  {
    var t', n, asked := WithField(t, parent, field, typeId), |t.locations|, (parent, field);
    forall k | k in t.fieldLoc ensures t'.fieldLoc[k] == t.fieldLoc[k] < n {
      HasDepth(t, k);
    }
    hide FieldsOk;
    forall l | l in t'.fieldDepth ensures l in t'.fieldLoc.Values {
      if l == n {
        assert t'.fieldLoc[asked] == n;
      } else {
        var k :| k in t.fieldLoc && t.fieldLoc[k] == l;
        assert t'.fieldLoc[k] == l;
      }
    }
    forall a, b | a in t'.fieldLoc && b in t'.fieldLoc && t'.fieldLoc[a] == t'.fieldLoc[b] ensures a == b {
      assert a == asked || a in t.fieldLoc;
      assert b == asked || b in t.fieldLoc;
    }
  }

  lemma WithFieldRooted(t: Table, roots: nat, parent: Loc, field: FieldId, typeId: TypeId)
    requires SummaryLocsOk(t) && Rooted(t, roots) && parent < |t.locations| && (parent, field) !in t.fieldLoc
    ensures SummaryLocsOk(WithField(t, parent, field, typeId)) && Rooted(WithField(t, parent, field, typeId), roots)
  {
    var t' := WithField(t, parent, field, typeId);
    forall m | m in t'.fieldSummary ensures SummaryLocOk(t', m) { assert SummaryLocOk(t, m); }
  }

  lemma WithFieldOk(p: Types, t: Table, roots: nat, parent: Loc, field: FieldId, typeId: TypeId)
    requires TableOk(p, t, roots, {}) && parent < |t.locations| && (parent, field) !in t.fieldLoc
    requires Depth(t, parent) < FIELD_LOC_DEPTH_CAP && field in AllFields(p)
    ensures TableOk(p, WithField(t, parent, field, typeId), roots, {|t.locations|})
  {
    hide FieldsOk, SummariesRecorded, SummaryLocsOk, Rooted, OneRequestEach, AllFields;
    TargetKnown(p, t, roots, {}, parent);
    SourcedStays(p, t, WithField(t, parent, field, typeId), roots);
    hide Sourced;
    WithFieldFields(p, t, parent, field, typeId);
    WithFieldRequests(t, parent, field, typeId);
    WithFieldRooted(t, roots, parent, field, typeId);
  }

  /** Recording the pending location's summary completes the table. */
  lemma RecordOk(p: Types, t: Table, roots: nat, k: (Loc, FieldId), m: (Target, Member))
    requires k in t.fieldLoc && TableOk(p, t, roots, {t.fieldLoc[k]}) && FieldOk(t, k)
    requires StructOf(p, t.locations[k.0]).Some? && m in t.fieldSummary
    requires m == (t.locations[k.0].target, DeclaredMember(p, (StructOf(p, t.locations[k.0]).value, k.1)))
    ensures TableOk(p, t.(toSummary := t.toSummary[t.fieldLoc[k] := t.fieldSummary[m]]), roots, {})
  {
    var t' := t.(toSummary := t.toSummary[t.fieldLoc[k] := t.fieldSummary[m]]);
    hide Rooted, SummaryLocsOk, Sourced;
    RecordFields(p, t, k, m);
    hide FieldsOk, SummariesRecorded, OneRequestEach;
    SourcedStays(p, t, t', roots);
    RecordRest(t, t', roots);
  }

  lemma RecordRest(t: Table, t': Table, roots: nat)
    requires OneRequestEach(t) && SummaryLocsOk(t) && Rooted(t, roots)
    requires t' == t.(toSummary := t'.toSummary)
    ensures OneRequestEach(t') && SummaryLocsOk(t') && Rooted(t', roots)
  {
    forall j | j in t'.fieldSummary ensures SummaryLocOk(t', j) { assert SummaryLocOk(t, j); }
  }

  lemma RecordFields(p: Types, t: Table, k: (Loc, FieldId), m: (Target, Member))
    requires k in t.fieldLoc && FieldsOk(t) && SummariesRecorded(p, t, {t.fieldLoc[k]}) && OneRequestEach(t)
    requires FieldOk(t, k) && StructOf(p, t.locations[k.0]).Some? && m in t.fieldSummary
    requires m == (t.locations[k.0].target, DeclaredMember(p, (StructOf(p, t.locations[k.0]).value, k.1)))
    ensures FieldsOk(t.(toSummary := t.toSummary[t.fieldLoc[k] := t.fieldSummary[m]]))
    ensures SummariesRecorded(p, t.(toSummary := t.toSummary[t.fieldLoc[k] := t.fieldSummary[m]]), {})
  {
    var t' := t.(toSummary := t.toSummary[t.fieldLoc[k] := t.fieldSummary[m]]);
    assert FieldOk(t', k) && SummaryOk(p, t', k);
    hide FieldOk, SummaryOk;
    forall j | j in t'.fieldLoc ensures FieldOk(t', j) && SummaryOk(p, t', j) {
      if j != k {
        HasDepth(t, j);
        SummaryKnown(p, t, j);
        assert t.fieldLoc[j] != t.fieldLoc[k];
        FieldStays(p, t, t', j);
      }
    }
  }

  class FieldTable {
    const p: Types
    ghost const roots: nat
    var locations: seq<Location>
    var fieldLoc: map<(Loc, FieldId), Loc>
    var fieldDepth: map<Loc, nat>
    var fieldSummary: map<(Target, Member), Loc>
    var toSummary: map<Loc, Loc>

    ghost function View(): Table
      reads this
    {
      Table(locations, fieldLoc, fieldDepth, fieldSummary, toSummary)
    }

    ghost predicate Valid()
      reads this
    {
      TableOk(p, View(), roots, {})
    }

    constructor (p: Types, locations: seq<Location>)
      ensures Valid() && this.p == p && roots == |locations| && View() == Table(locations, map[], map[], map[], map[])
    {
      this.p, this.roots, this.locations := p, |locations|, locations;
      fieldLoc, fieldDepth, fieldSummary, toSummary := map[], map[], map[], map[];
    }

    /** A location for `parent.field`; a repeated request gets the one there is
        and changes nothing. */
    method AllocFieldLoc(parent: Loc, field: FieldId, typeId: TypeId) returns (l: Loc)
      requires parent < |locations|
      modifies `locations, `fieldLoc, `fieldDepth
      ensures (parent, field) in fieldLoc && l == fieldLoc[(parent, field)]
      ensures (parent, field) in old(fieldLoc) ==> View() == old(View())
      ensures (parent, field) !in old(fieldLoc) ==>
        View() == WithField(old(View()), parent, field, typeId) && l == old(|locations|)
    {
      if (parent, field) in fieldLoc {
        return fieldLoc[(parent, field)];
      }
      var base := locations[parent];
      l := |locations|;
      var depth := (if parent in fieldDepth then fieldDepth[parent] else 0) + 1;
      locations := locations + [Location(R.Field, base.variable, base.fn, Some(field), typeId, base.target)];
      fieldDepth := fieldDepth[l := depth];
      fieldLoc := fieldLoc[(parent, field) := l];
    }

    method EnsureFieldSummaryLoc(m: (Target, Member), typeId: TypeId) returns (l: Loc)
      modifies `locations, `fieldSummary
      ensures View() == WithSummary(old(View()), m, typeId)
      ensures m in fieldSummary && l == fieldSummary[m]
    {
      if m !in fieldSummary {
        fieldSummary := fieldSummary[m := |locations|];
        locations := locations + [Location(R.FieldSummary, None, None, Some(m.1.1), typeId, m.0)];
      }
      l := fieldSummary[m];
    }

    /** The struct a location holds: its variable's, or else its type's. */
    method FindStruct(l: Location) returns (st: Option<TypeId>)
      ensures st == StructOf(p, l)
    {
      if l.variable.Some? {
        if l.variable.value in p.varStruct {
          return Some(p.varStruct[l.variable.value]);
        }
        return None;
      }
      st := if l.typeId in p.typeStruct then Some(p.typeStruct[l.typeId]) else None;
    }

    /** The location of `parent.field`: its own one while nesting is shallow,
        the member's summary beyond the cap, none for a parent without that
        field. */
    method EnsureFieldLoc(parent: Loc, field: FieldId) returns (r: Option<Loc>)
      requires Valid() && parent < |locations|
      modifies this
      ensures Valid()
      ensures old(locations) <= locations
      ensures forall k :: k in old(fieldLoc) ==> k in fieldLoc && fieldLoc[k] == old(fieldLoc)[k]
      ensures forall k :: k in fieldLoc ==> k in old(fieldLoc) || k == (parent, field)
      ensures r.Some? ==> r.value < |locations|
      ensures (parent, field) in fieldLoc ==> r == Some(fieldLoc[(parent, field)])
      ensures (parent, field) !in fieldLoc && r.Some? ==>
        Depth(View(), parent) == 4 && locations[r.value].kind.FieldSummary? &&
        StructOf(p, locations[parent]).Some? &&
        var m := (locations[parent].target, DeclaredMember(p, (StructOf(p, locations[parent]).value, field)));
        m in fieldSummary && r == Some(fieldSummary[m])
      ensures r.None? <==> (parent, field) !in old(fieldLoc) && !HasField(p, StructOf(p, locations[parent]), field)
      ensures (parent, field) in fieldLoc && (parent, field) !in old(fieldLoc) ==>
        && HasField(p, StructOf(p, locations[parent]), field) && var base := locations[parent];
        locations[r.value] == Location(R.Field, base.variable, base.fn, Some(field), p.layout[StructOf(p, base).value][field], base.target)
      ensures forall m :: m in fieldSummary && m !in old(fieldSummary) ==>
        && HasField(p, StructOf(p, locations[parent]), field) && fieldSummary[m] < |locations|
        && locations[fieldSummary[m]] ==
           Location(R.FieldSummary, None, None, Some(m.1.1), p.layout[StructOf(p, locations[parent]).value][field], m.0)
    {
      hide TableOk, AllSummaries, AllFields, Targets;
      if (parent, field) in fieldLoc {
        InRange(p, View(), roots, (parent, field));
        return Some(fieldLoc[(parent, field)]);
      }
      var st := FindStruct(locations[parent]);
      if st.None? || st.value !in p.layout || field !in p.layout[st.value] {
        return None;
      }
      var typeId := p.layout[st.value][field];
      var member := (st.value, field);
      if member in p.declared {
        member := p.declared[member];
      }
      var m := (locations[parent].target, member);
      DepthCapped(p, View(), roots, parent);
      TargetKnown(p, View(), roots, {}, parent);
      ghost var initial := locations[..roots];
      SummaryAvailable(p, Targets(initial), m.0, st.value, field);
      if (if parent in fieldDepth then fieldDepth[parent] else 0) >= FIELD_LOC_DEPTH_CAP {
        WithSummaryOk(p, View(), roots, {}, m, typeId);
        var s := EnsureFieldSummaryLoc(m, typeId);
        SummaryInRange(p, View(), roots, {}, m);
        return Some(s);
      }
      var l := NewFieldLoc(parent, field, m, typeId);
      r := Some(l);
    }

    /** A location of its own for `parent.field`, with its summary on record. */
    method NewFieldLoc(parent: Loc, field: FieldId, m: (Target, Member), typeId: TypeId) returns (l: Loc)
      requires Valid() && parent < |locations| && (parent, field) !in fieldLoc && Depth(View(), parent) < FIELD_LOC_DEPTH_CAP
      requires StructOf(p, locations[parent]).Some? && field in AllFields(p)
      requires m == (locations[parent].target, DeclaredMember(p, (StructOf(p, locations[parent]).value, field)))
      requires m in AllSummaries(p, Targets(locations[..roots]))
      modifies this
      ensures Valid() && l == old(|locations|) < |locations| && old(locations) <= locations
      ensures fieldLoc == old(fieldLoc)[(parent, field) := l]
      ensures locations[l] == Location(R.Field, locations[parent].variable, locations[parent].fn, Some(field), typeId, locations[parent].target)
      ensures forall k :: k in fieldSummary && k !in old(fieldSummary) ==>
        fieldSummary[k] < |locations| && locations[fieldSummary[k]] == Location(R.FieldSummary, None, None, Some(k.1.1), typeId, k.0)
    {
      hide TableOk, AllSummaries, AllFields, Targets, StructOf, DeclaredMember;
      TargetKnown(p, View(), roots, {}, parent);
      ghost var initial := locations[..roots];
      WithFieldOk(p, View(), roots, parent, field, typeId);
      l := AllocFieldLoc(parent, field, typeId);
      assert locations[..roots] == initial;
      WithSummaryOk(p, View(), roots, {l}, m, typeId);
      var s := EnsureFieldSummaryLoc(m, typeId);
      PendingOk(p, View(), roots, {l}, (parent, field));
      RecordOk(p, View(), roots, (parent, field), m);
      toSummary := toSummary[l := s];
    }
  }

  ghost predicate HasField(p: Types, st: Option<TypeId>, field: FieldId) {
    st.Some? && st.value in p.layout && field in p.layout[st.value]
  }

  lemma TargetKnown(p: Types, t: Table, roots: nat, pending: set<Loc>, l: Loc)
    requires TableOk(p, t, roots, pending) && l < |t.locations|
    ensures roots <= |t.locations| && t.locations[l].target in Targets(t.locations[..roots])
  {
  }

  lemma InRange(p: Types, t: Table, roots: nat, k: (Loc, FieldId))
    requires TableOk(p, t, roots, {}) && k in t.fieldLoc
    ensures t.fieldLoc[k] < |t.locations|
  {
    assert FieldOk(t, k);
  }

  lemma PendingOk(p: Types, t: Table, roots: nat, pending: set<Loc>, k: (Loc, FieldId))
    requires TableOk(p, t, roots, pending) && k in t.fieldLoc
    ensures FieldOk(t, k)
  {
  }

  lemma SummaryInRange(p: Types, t: Table, roots: nat, pending: set<Loc>, m: (Target, Member))
    requires TableOk(p, t, roots, pending) && m in t.fieldSummary
    ensures SummaryLocOk(t, m)
  {
  }

  lemma DepthCapped(p: Types, t: Table, roots: nat, l: Loc)
    requires TableOk(p, t, roots, {})
    ensures Depth(t, l) <= FIELD_LOC_DEPTH_CAP
    ensures l in t.fieldDepth ==> 1 <= t.fieldDepth[l]
  {
    if l in t.fieldDepth {
      var k :| k in t.fieldLoc && t.fieldLoc[k] == l;
      assert FieldOk(t, k);
    }
  }

  // ----- The bound -----

  type Request = (Loc, FieldId)

  lemma {:induction false} RowBound(s: set<Request>, x: Loc, fields: set<FieldId>)
    requires forall k :: k in s ==> k.0 == x && k.1 in fields
    ensures |s| <= |fields|
  {
    if k :| k in s {
      forall j | j in s - {k} ensures j.1 in fields - {k.1} {
        assert j != k && j.0 == k.0;
      }
      RowBound(s - {k}, x, fields - {k.1});
    }
  }

  /** Requests over given parents and fields are at most their product. */
  lemma {:induction false} RequestBound(s: set<Request>, parents: set<Loc>, fields: set<FieldId>)
    requires forall k :: k in s ==> k.0 in parents && k.1 in fields
    ensures |s| <= |parents| * |fields|
  {
    if x :| x in parents {
      var row := set k | k in s && k.0 == x;
      RowBound(row, x, fields);
      RequestBound(s - row, parents - {x}, fields);
      assert |s| == |s - row| + |row|;
      OneMore(|parents - {x}|, |fields|);
    } else {
      assert s == {};
    }
  }

  lemma OneMore(a: nat, b: nat)
    ensures (a + 1) * b == a * b + b
  {
  }

  lemma {:induction false} ImageSize<K, V>(m: map<K, V>, s: set<K>)
    requires s <= m.Keys
    ensures |Image(m, s)| <= |s|
  {
    if x :| x in s {
      ImageSize(m, s - {x});
      assert Image(m, s) == Image(m, s - {x}) + {m[x]};
    }
  }

  ghost function Image<K, V>(m: map<K, V>, s: set<K>): set<V>
    requires s <= m.Keys
  {
    set k | k in s :: m[k]
  }

  /** The requests answered with a location at depth `d`. */
  ghost function Layer(t: Table, d: nat): set<(Loc, FieldId)> {
    set k | k in t.fieldLoc && Depth(t, t.fieldLoc[k]) == d
  }

  ghost function Below(n: nat): (s: set<Loc>)
    ensures forall l: Loc :: l in s <==> l < n
    ensures |s| == n
  {
    if n == 0 then {} else Below(n - 1) + {n - 1}
  }

  /** The locations at depth 0: the initial ones and the summaries. */
  ghost function Bases(t: Table, roots: nat): set<Loc> {
    Below(roots) + t.fieldSummary.Values
  }

  lemma BasesSize(t: Table, roots: nat)
    ensures |Bases(t, roots)| <= roots + |t.fieldSummary|
  {
    ImageSize(t.fieldSummary, t.fieldSummary.Keys);
    assert t.fieldSummary.Values == Image(t.fieldSummary, t.fieldSummary.Keys);
  }

  lemma FirstLayer(p: Types, t: Table, roots: nat, fields: set<FieldId>)
    requires TableOk(p, t, roots, {}) && fields == AllFields(p)
    ensures |Layer(t, 1)| <= |Bases(t, roots)| * |fields|
  {
    forall k | k in Layer(t, 1) ensures k.0 in Bases(t, roots) && k.1 in fields {
      assert FieldOk(t, k);
      DepthCapped(p, t, roots, k.0);
    }
    RequestBound(Layer(t, 1), Bases(t, roots), fields);
  }

  lemma NextLayer(p: Types, t: Table, roots: nat, fields: set<FieldId>, d: nat)
    requires TableOk(p, t, roots, {}) && fields == AllFields(p) && d >= 1
    ensures |Layer(t, d + 1)| <= |Layer(t, d)| * |fields|
  {
    hide SummariesRecorded, SummaryLocsOk, Rooted;
    var parents := Image(t.fieldLoc, Layer(t, d));
    forall k | k in Layer(t, d + 1) ensures k.0 in parents && k.1 in fields {
      assert FieldOk(t, k);
      assert k.0 in t.fieldDepth;
      var j :| j in t.fieldLoc && t.fieldLoc[j] == k.0;
      assert j in Layer(t, d);
    }
    hide FieldsOk, OneRequestEach;
    RequestBound(Layer(t, d + 1), parents, fields);
    ImageSize(t.fieldLoc, Layer(t, d));
    Scale(|parents|, |Layer(t, d)|, |fields|);
  }

  lemma Scale(a: nat, b: nat, c: nat)
    requires a <= b
    ensures a * c <= b * c
  {
  }

  lemma LayersCover(p: Types, t: Table, roots: nat)
    requires TableOk(p, t, roots, {})
    ensures |t.fieldLoc| <= |Layer(t, 1)| + |Layer(t, 2)| + |Layer(t, 3)| + |Layer(t, 4)|
    ensures |t.locations| == roots + |t.fieldLoc| + |t.fieldSummary|
  {
    hide Sourced, SummariesRecorded, SummaryLocsOk;
    forall k | k in t.fieldLoc.Keys ensures k in Layer(t, 1) + Layer(t, 2) + Layer(t, 3) + Layer(t, 4) {
      assert FieldOk(t, k);
      DepthCapped(p, t, roots, t.fieldLoc[k]);
    }
    SubsetSize(t.fieldLoc.Keys, Layer(t, 1) + Layer(t, 2) + Layer(t, 3) + Layer(t, 4));
    assert |t.fieldLoc.Keys| == |t.fieldLoc|;
  }

  function Power(f: nat, n: nat): nat {
    if n == 0 then 1 else Power(f, n - 1) * f
  }

  /** At most this many locations at depth `d`. */
  function LayerCap(bases: nat, fields: nat, d: nat): nat {
    bases * Power(fields, d)
  }

  /** At most this many at depths 1 to 4. */
  function TotalCap(bases: nat, fields: nat): nat {
    bases * (Power(fields, 1) + Power(fields, 2) + Power(fields, 3) + Power(fields, 4))
  }

  lemma {:induction false} LayerBound(p: Types, t: Table, roots: nat, fields: set<FieldId>, d: nat)
    requires TableOk(p, t, roots, {}) && fields == AllFields(p) && d >= 1
    ensures |Layer(t, d)| <= LayerCap(roots + |t.fieldSummary|, |fields|, d)
  {
    hide TableOk, Layer, Bases, AllFields;
    var r, f := roots + |t.fieldSummary|, |fields|;
    if d == 1 {
      FirstLayer(p, t, roots, fields);
      BasesSize(t, roots);
      Scale(|Bases(t, roots)|, r, f);
      assert Power(f, 1) == Power(f, 0) * f == f;
    } else {
      LayerBound(p, t, roots, fields, d - 1);
      NextLayer(p, t, roots, fields, d - 1);
      Scale(|Layer(t, d - 1)|, r * Power(f, d - 1), f);
      Regroup(r, Power(f, d - 1), f);
    }
  }

  lemma Regroup(a: nat, b: nat, c: nat)
    ensures a * b * c == a * (b * c)
  {
  }

  /** However often and in whatever order fields are asked for, recursive
      structs included, the locations made stay below a bound fixed by the
      initial locations and the program's types. */
  lemma FieldLocsBounded(p: Types, t: Table, roots: nat, fields: set<FieldId>, summaries: set<(Target, Member)>)
    requires TableOk(p, t, roots, {}) && roots <= |t.locations|
    requires fields == AllFields(p) && summaries == AllSummaries(p, Targets(t.locations[..roots]))
    ensures |t.fieldSummary| <= |summaries|
    ensures |t.fieldLoc| <= TotalCap(roots + |summaries|, |fields|)
    ensures |t.locations| == roots + |t.fieldLoc| + |t.fieldSummary|
  {
    hide *;
    SummariesBounded(p, t, roots, summaries);
    LayersCover(p, t, roots);
    LayerBound(p, t, roots, fields, 1);
    LayerBound(p, t, roots, fields, 2);
    LayerBound(p, t, roots, fields, 3);
    LayerBound(p, t, roots, fields, 4);
    var f := |fields|;
    CapsAdd(roots + |t.fieldSummary|, roots + |summaries|, f);
  }

  lemma SummariesBounded(p: Types, t: Table, roots: nat, summaries: set<(Target, Member)>)
    requires TableOk(p, t, roots, {}) && summaries == AllSummaries(p, Targets(t.locations[..roots]))
    ensures |t.fieldSummary| <= |summaries|
  {
    hide AllSummaries;
    assert t.fieldSummary.Keys <= summaries;
    SubsetSize(t.fieldSummary.Keys, summaries);
    assert |t.fieldSummary.Keys| == |t.fieldSummary|;
  }

  lemma CapsAdd(r: nat, s: nat, f: nat)
    requires r <= s
    ensures LayerCap(r, f, 1) + LayerCap(r, f, 2) + LayerCap(r, f, 3) + LayerCap(r, f, 4) <= TotalCap(s, f)
  {
    SumBound(r, s, Power(f, 1), Power(f, 2), Power(f, 3), Power(f, 4));
  }

  lemma SumBound(r: nat, s: nat, a: nat, b: nat, c: nat, d: nat)
    requires r <= s
    ensures r * a + r * b + r * c + r * d <= s * (a + b + c + d)
  {
    assert r * a + r * b + r * c + r * d == r * (a + b + c + d);
    Scale(r, s, a + b + c + d);
  }
}
