/** Sorting by a lexicographic key, as the library sorts order rows and chains. */
module Sorting {
  import opened Common

  /** Keys compare as sequences do: the first difference decides, a proper
      prefix comes first. */
  type Key = seq<nat>

  predicate Less(a: Key, b: Key) {
    b != [] && (a == [] || a[0] < b[0] || (a[0] == b[0] && Less(a[1..], b[1..])))
  }

  lemma {:induction false} LessIrreflexive(a: Key)
    ensures !Less(a, a)
  {
    if a != [] {
      LessIrreflexive(a[1..]);
    }
  }

  lemma {:induction false} LessTransitive(a: Key, b: Key, c: Key)
    requires Less(a, b) && Less(b, c)
    ensures Less(a, c)
  {
    if a != [] && a[0] == b[0] == c[0] {
      LessTransitive(a[1..], b[1..], c[1..]);
    }
  }

  lemma {:induction false} LessTotal(a: Key, b: Key)
    ensures a == b || Less(a, b) || Less(b, a)
  {
    if a != [] && b != [] && a[0] == b[0] {
      LessTotal(a[1..], b[1..]);
      assert a == [a[0]] + a[1..] && b == [b[0]] + b[1..];
    }
  }

  /** `a` and `b` agree before position `k`, where `a` ends or is smaller. */
  ghost predicate DiffersAt(a: Key, b: Key, k: int) {
    0 <= k <= |a| && k < |b| && (forall i :: 0 <= i < k ==> a[i] == b[i]) && (k == |a| || a[k] < b[k])
  }

  /** The order in terms of positions. */
  lemma {:induction false} LessIff(a: Key, b: Key)
    ensures Less(a, b) <==> exists k :: DiffersAt(a, b, k)
  {
    if a == [] || b == [] || a[0] != b[0] {
      assert b != [] && (a == [] || a[0] < b[0]) ==> DiffersAt(a, b, 0);
    } else {
      LessIff(a[1..], b[1..]);
      if k :| DiffersAt(a[1..], b[1..], k) {
        forall i | 0 <= i < k + 1 ensures a[i] == b[i] {
          assert i > 0 ==> a[1..][i - 1] == b[1..][i - 1];
        }
        assert DiffersAt(a, b, k + 1);
      }
      if k :| DiffersAt(a, b, k) {
        assert DiffersAt(a[1..], b[1..], k - 1);
      }
    }
  }

  ghost predicate Sorted<T>(key: T -> Key, s: seq<T>) {
    forall i, j :: 0 <= i < j < |s| ==> !Less(key(s[j]), key(s[i]))
  }

  ghost predicate StrictlySorted<T>(key: T -> Key, s: seq<T>) {
    forall i, j :: 0 <= i < j < |s| ==> Less(key(s[i]), key(s[j]))
  }

  /** The elements whose key is `k`, in order. */
  ghost function WithKey<T>(key: T -> Key, s: seq<T>, k: Key): seq<T> {
    if s == [] then []
    else (if key(s[0]) == k then [s[0]] else []) + WithKey(key, s[1..], k)
  }

  function Insert<T>(key: T -> Key, x: T, s: seq<T>): seq<T> {
    if s == [] || !Less(key(s[0]), key(x)) then [x] + s
    else [s[0]] + Insert(key, x, s[1..])
  }

  /** A stable sort. */
  function SortBy<T>(key: T -> Key, s: seq<T>): seq<T> {
    if s == [] then [] else Insert(key, s[0], SortBy(key, s[1..]))
  }

  lemma {:induction false} InsertElems<T>(key: T -> Key, x: T, s: seq<T>)
    ensures multiset(Insert(key, x, s)) == multiset([x] + s)
    ensures Elems(Insert(key, x, s)) == Elems(s) + {x}
  {
    if s != [] && Less(key(s[0]), key(x)) {
      InsertElems(key, x, s[1..]);
      assert s == [s[0]] + s[1..];
      assert Elems(s) == {s[0]} + Elems(s[1..]);
      assert Elems(Insert(key, x, s)) == {s[0]} + Elems(Insert(key, x, s[1..]));
    } else {
      assert Elems([x] + s) == Elems(s) + {x};
    }
  }

  lemma {:induction false} InsertSorted<T>(key: T -> Key, x: T, s: seq<T>)
    requires Sorted(key, s)
    ensures Sorted(key, Insert(key, x, s))
  {
    var r := Insert(key, x, s);
    if s == [] {
    } else if !Less(key(s[0]), key(x)) {
      forall j | 0 <= j < |s| ensures !Less(key(s[j]), key(x)) {
        if Less(key(s[j]), key(x)) {
          LessTotal(key(s[0]), key(s[j]));
          if key(s[0]) != key(s[j]) {
            LessTransitive(key(s[0]), key(s[j]), key(x));
          }
        }
      }
    } else {
      var t := Insert(key, x, s[1..]);
      InsertSorted(key, x, s[1..]);
      InsertElems(key, x, s[1..]);
      forall j | 0 <= j < |t| ensures !Less(key(t[j]), key(s[0])) {
        assert t[j] in Elems(s[1..]) + {x};
        if t[j] == x {
          if Less(key(x), key(s[0])) {
            LessTransitive(key(x), key(s[0]), key(x));
            LessIrreflexive(key(x));
          }
        } else {
          var i :| 0 < i < |s| && s[i] == t[j];
        }
      }
      assert forall i :: 0 < i < |r| ==> r[i] == t[i - 1];
    }
  }

  lemma {:induction false} InsertStable<T>(key: T -> Key, x: T, s: seq<T>, k: Key)
    ensures WithKey(key, Insert(key, x, s), k) == (if key(x) == k then [x] else []) + WithKey(key, s, k)
  {
    if s != [] && Less(key(s[0]), key(x)) {
      InsertStable(key, x, s[1..], k);
      LessIrreflexive(k);
      assert Insert(key, x, s)[1..] == Insert(key, x, s[1..]);
    } else {
      assert ([x] + s)[1..] == s;
    }
  }

  lemma {:induction false} SortByStable<T>(key: T -> Key, s: seq<T>, k: Key)
    ensures WithKey(key, SortBy(key, s), k) == WithKey(key, s, k)
  {
    hide Insert;
    if s != [] {
      SortByStable(key, s[1..], k);
      InsertStable(key, s[0], SortBy(key, s[1..]), k);
    }
  }

  lemma {:induction false} SortByElems<T>(key: T -> Key, s: seq<T>)
    ensures multiset(SortBy(key, s)) == multiset(s) && Elems(SortBy(key, s)) == Elems(s)
  {
    hide Insert;
    if s != [] {
      SortByElems(key, s[1..]);
      InsertElems(key, s[0], SortBy(key, s[1..]));
      assert s == [s[0]] + s[1..];
      assert Elems(s) == {s[0]} + Elems(s[1..]);
    }
  }

  /** Sorted, a permutation, and elements with equal keys keep their order. */
  lemma {:induction false} SortByCorrect<T>(key: T -> Key, s: seq<T>)
    ensures Sorted(key, SortBy(key, s))
    ensures multiset(SortBy(key, s)) == multiset(s)
    ensures Elems(SortBy(key, s)) == Elems(s)
    ensures forall k :: WithKey(key, SortBy(key, s), k) == WithKey(key, s, k)
  {
    hide Insert, Sorted, WithKey, Elems;
    SortByElems(key, s);
    forall k ensures WithKey(key, SortBy(key, s), k) == WithKey(key, s, k) {
      SortByStable(key, s, k);
    }
    SortBySorted(key, s);
  }

  lemma {:induction false} SortBySorted<T>(key: T -> Key, s: seq<T>)
    ensures Sorted(key, SortBy(key, s))
  {
    hide Insert;
    if s != [] {
      SortBySorted(key, s[1..]);
      InsertSorted(key, s[0], SortBy(key, s[1..]));
    }
  }

  // ----- Sorting labelled elements -----

  /** `f` of each element. */
  function Mapped<T, U>(f: T -> U, s: seq<T>): seq<U> {
    seq(|s|, i requires 0 <= i < |s| => f(s[i]))
  }

  lemma {:induction false} InsertMapped<T, U>(f: T -> U, key: U -> Key, key': T -> Key, x: T, s: seq<T>)
    requires forall y :: key'(y) == key(f(y))
    ensures Insert(key, f(x), Mapped(f, s)) == Mapped(f, Insert(key', x, s))
  {
    if s != [] {
      assert Mapped(f, s)[1..] == Mapped(f, s[1..]);
      InsertMapped(f, key, key', x, s[1..]);
    }
  }

  /** Sorting images is sorting and then taking images. */
  lemma {:induction false} SortByMapped<T, U>(f: T -> U, key: U -> Key, key': T -> Key, s: seq<T>)
    requires forall y :: key'(y) == key(f(y))
    ensures SortBy(key, Mapped(f, s)) == Mapped(f, SortBy(key', s))
  {
    hide Insert;
    if s != [] {
      assert Mapped(f, s)[1..] == Mapped(f, s[1..]);
      SortByMapped(f, key, key', s[1..]);
      InsertMapped(f, key, key', s[0], SortBy(key', s[1..]));
    }
  }

  /** Elements with equal keys stand in ascending order themselves. */
  ghost predicate TiesAscend(key: Key -> Key, s: seq<Key>) {
    forall i, j :: 0 <= i < j < |s| && key(s[i]) == key(s[j]) ==> Less(s[i], s[j])
  }

  lemma {:induction false} InsertTies(key: Key -> Key, x: Key, s: seq<Key>)
    requires TiesAscend(key, s) && forall i :: 0 <= i < |s| ==> Less(x, s[i])
    ensures TiesAscend(key, Insert(key, x, s))
  {
    if s != [] && Less(key(s[0]), key(x)) {
      InsertTies(key, x, s[1..]);
      InsertElems(key, x, s[1..]);
      var t := Insert(key, x, s[1..]);
      forall j | 0 <= j < |t| && key(s[0]) == key(t[j]) ensures Less(s[0], t[j]) {
        assert t[j] in Elems(s[1..]) + {x};
        LessIrreflexive(key(x));
        var i :| 0 < i < |s| && s[i] == t[j];
      }
    }
  }

  lemma {:induction false} SortByTies(key: Key -> Key, s: seq<Key>)
    requires forall i, j :: 0 <= i < j < |s| ==> Less(s[i], s[j])
    ensures TiesAscend(key, SortBy(key, s))
  {
    if s != [] {
      SortByTies(key, s[1..]);
      SortByElems(key, s[1..]);
      var t := SortBy(key, s[1..]);
      forall i | 0 <= i < |t| ensures Less(s[0], t[i]) {
        assert t[i] in Elems(s[1..]);
        var j :| 0 < j < |s| && s[j] == t[i];
      }
      InsertTies(key, s[0], t);
    }
  }

  /** Drop each element equal to the one before it. */
  function Dedup<T(==)>(s: seq<T>): seq<T> {
    if |s| < 2 then s
    else if s[0] == s[1] then Dedup(s[1..])
    else [s[0]] + Dedup(s[1..])
  }

  lemma {:induction false} DedupSorted<T>(key: T -> Key, s: seq<T>)
    requires Sorted(key, s)
    requires forall x, y :: x in s && y in s && key(x) == key(y) ==> x == y
    ensures StrictlySorted(key, Dedup(s))
    ensures Elems(Dedup(s)) == Elems(s)
    ensures s != [] ==> Dedup(s) != [] && Dedup(s)[0] == s[0]
  {
    if |s| >= 2 {
      DedupSorted(key, s[1..]);
      assert Elems(s) == {s[0]} + Elems(s[1..]);
      if s[0] != s[1] {
        var t := Dedup(s[1..]);
        assert Elems([s[0]] + t) == {s[0]} + Elems(t);
        forall j | 0 <= j < |t| ensures Less(key(s[0]), key(t[j])) {
          LessTotal(key(s[0]), key(s[1]));
          if j > 0 {
            LessTransitive(key(s[0]), key(t[0]), key(t[j]));
          }
        }
      }
    }
  }

  /** `sort` then `dedup`. */
  function SortDedup<T(==)>(key: T -> Key, s: seq<T>): seq<T> {
    Dedup(SortBy(key, s))
  }

  /** No two elements of `s` share a key. */
  ghost predicate Keyed<T>(key: T -> Key, s: seq<T>) {
    forall i, j :: 0 <= i < |s| && 0 <= j < |s| && key(s[i]) == key(s[j]) ==> s[i] == s[j]
  }

  lemma SortDedupCorrect<T>(key: T -> Key, s: seq<T>)
    requires Keyed(key, s)
    ensures StrictlySorted(key, SortDedup(key, s))
    ensures Elems(SortDedup(key, s)) == Elems(s)
  {
    SortByCorrect(key, s);
    var t := SortBy(key, s);
    forall x, y | x in t && y in t && key(x) == key(y) ensures x == y {
      assert x in Elems(s) && y in Elems(s);
    }
    DedupSorted(key, t);
  }

  /** A strictly sorted listing of a set is the only one. */
  lemma {:induction false} StrictlySortedUnique<T>(key: T -> Key, a: seq<T>, b: seq<T>)
    requires StrictlySorted(key, a) && StrictlySorted(key, b) && Elems(a) == Elems(b)
    ensures a == b
  {
    assert a != [] ==> a[0] in Elems(b);
    assert b != [] ==> b[0] in Elems(a);
    if a != [] && b != [] {
      var i :| 0 <= i < |b| && b[i] == a[0];
      var j :| 0 <= j < |a| && a[j] == b[0];
      if i > 0 && j > 0 {
        LessTransitive(key(a[0]), key(b[0]), key(a[0]));
      }
      LessIrreflexive(key(a[0]));
      assert a[0] == b[0];
      TailElems(key, a);
      TailElems(key, b);
      StrictlySortedUnique(key, a[1..], b[1..]);
      assert a == [a[0]] + a[1..] && b == [b[0]] + b[1..];
    }
  }

  lemma TailElems<T>(key: T -> Key, s: seq<T>)
    requires s != [] && StrictlySorted(key, s)
    ensures Elems(s[1..]) == Elems(s) - {s[0]}
  {
    LessIrreflexive(key(s[0]));
    assert s == [s[0]] + s[1..];
  }

  // ----- Numbers -----

  function NumberKey(n: nat): Key {
    [n]
  }

  /** Numbers in ascending order, each once. */
  function SortNumbers(s: seq<nat>): seq<nat> {
    SortDedup(NumberKey, s)
  }

  lemma NumberKeyOrder(a: nat, b: nat)
    ensures Less(NumberKey(a), NumberKey(b)) <==> a < b
  {
    var x, y := NumberKey(a), NumberKey(b);
    assert x[1..] == [] && y[1..] == [];
    assert !Less(x[1..], y[1..]);
  }

  lemma SortNumbersOk(s: seq<nat>)
    ensures Ascending(SortNumbers(s)) && Elems(SortNumbers(s)) == Elems(s)
    ensures |SortNumbers(s)| == |Elems(s)|
  {
    forall i, j | 0 <= i < |s| && 0 <= j < |s| && NumberKey(s[i]) == NumberKey(s[j]) ensures s[i] == s[j] {
      assert NumberKey(s[i])[0] == s[i] && NumberKey(s[j])[0] == s[j];
    }
    SortDedupCorrect(NumberKey, s);
    var t := SortNumbers(s);
    forall i, j | 0 <= i < j < |t| ensures t[i] < t[j] {
      assert Less(NumberKey(t[i]), NumberKey(t[j]));
      NumberKeyOrder(t[i], t[j]);
    }
    NoDupLength(t);
  }
}
