/** Small definitions shared by every module of the project. */
module Common {

  datatype Option<+T> = None | Some(value: T)

  ghost predicate NoDup<T>(s: seq<T>) {
    forall i, j :: 0 <= i < j < |s| ==> s[i] != s[j]
  }

  /** Strictly ascending, so each element is listed once. */
  ghost predicate Ascending(s: seq<nat>) {
    forall i, j :: 0 <= i < j < |s| ==> s[i] < s[j]
  }

  /** The batches one after the other. */
  function Flat<T>(batches: seq<seq<T>>): seq<T> {
    if batches == [] then [] else Flat(batches[..|batches| - 1]) + batches[|batches| - 1]
  }

  /** The elements of a sequence. */
  ghost function Elems<T>(s: seq<T>): set<T> {
    set x | x in s
  }

  lemma Inhabited<T>(s: seq<T>)
    ensures s == [] || exists x :: x in s
  {
    if s != [] { assert s[0] in s; }
  }

  lemma NoDupSnoc<T>(s: seq<T>, x: T)
    requires NoDup(s) && x !in s
    ensures NoDup(s + [x])
  {
  }

  /** A duplicate-free sequence is as long as its set of elements. */
  lemma {:induction false} NoDupLength<T>(s: seq<T>)
    requires NoDup(s)
    ensures |Elems(s)| == |s|
  {
    if s != [] {
      var init, last := s[..|s| - 1], s[|s| - 1];
      NoDupLength(init);
      assert s == init + [last];
      assert Elems(s) == Elems(init) + {last};
    }
  }

  /** Insert `xs` in order into an insertion-ordered set kept as a sequence. */
  function AppendNew<T(==)>(s: seq<T>, xs: seq<T>): seq<T> {
    if xs == [] then s
    else
      var t := AppendNew(s, xs[..|xs| - 1]);
      if xs[|xs| - 1] in t then t else t + [xs[|xs| - 1]]
  }

  lemma {:induction false} AppendNewGrows<T>(s: seq<T>, xs: seq<T>)
    ensures s <= AppendNew(s, xs)
    ensures Elems(AppendNew(s, xs)) == Elems(s) + Elems(xs)
    ensures NoDup(s) ==> NoDup(AppendNew(s, xs))
    ensures AppendNew(s, xs) == s <==> Elems(xs) <= Elems(s)
  {
    if xs != [] {
      var init, last := xs[..|xs| - 1], xs[|xs| - 1];
      AppendNewGrows(s, init);
      assert xs == init + [last];
      assert Elems(xs) == Elems(init) + {last};
      var t := AppendNew(s, init);
      assert last in t <==> last in Elems(t);
      assert Elems(t + [last]) == Elems(t) + {last};
    }
  }

  lemma {:induction false} AppendNewConcat<T>(s: seq<T>, xs: seq<T>, ys: seq<T>)
    ensures AppendNew(AppendNew(s, xs), ys) == AppendNew(s, xs + ys)
  {
    if ys == [] {
      assert xs + ys == xs;
    } else {
      AppendNewConcat(s, xs, ys[..|ys| - 1]);
      assert (xs + ys)[..|xs + ys| - 1] == xs + ys[..|ys| - 1];
    }
  }

  lemma {:induction false} SubsetSize<T>(a: set<T>, b: set<T>)
    requires a <= b
    ensures |a| <= |b|
  {
    if x :| x in a {
      SubsetSize(a - {x}, b - {x});
    }
  }
}
