/** Adjacency lists for constraint propagation: which constraints a popped node
    drives, by kind. */
module Indices {
  import opened Common
  import opened Rules

  type Index = map<Node, seq<nat>>

  function Under(ix: Index, n: Node): seq<nat> {
    if n in ix then ix[n] else []
  }

  datatype SolverIndices = SolverIndices(
    copySrc: Index, addrOfDst: Index, loadSrc: Index, storeDst: Index,
    storeSrc: Index, gepSrc: Index, dlsymSrc: Index, unwrapSrc: Index)

  const EMPTY: SolverIndices :=
    SolverIndices(map[], map[], map[], map[], map[], map[], map[], map[])

  function CopyKey(c: Constraint): Option<Node> { if c.Copy? then Some(c.src) else None }
  function AddrOfKey(c: Constraint): Option<Node> { if c.AddrOf? then Some(c.dst) else None }
  function LoadKey(c: Constraint): Option<Node> { if c.Load? then Some(c.src) else None }
  function StoreDstKey(c: Constraint): Option<Node> { if c.Store? then Some(c.dst) else None }
  function StoreSrcKey(c: Constraint): Option<Node> { if c.Store? then Some(c.src) else None }
  function GepKey(c: Constraint): Option<Node> { if c.Gep? then Some(c.src) else None }
  function DlsymKey(c: Constraint): Option<Node> { if c.Dlsym? then Some(c.src) else None }
  function UnwrapKey(c: Constraint): Option<Node> { if c.Unwrap? then Some(c.src) else None }

  function Filed(ix: Index, n: Node, i: nat): Index {
    ix[n := Under(ix, n) + [i]]
  }

  /** File constraint `c`, number `i`, under the node that drives it. */
  function AddConstraint(ix: SolverIndices, c: Constraint, i: nat): SolverIndices {
    match c
    case Copy(_, src) => ix.(copySrc := Filed(ix.copySrc, src, i))
    case AddrOf(dst, _, _) => ix.(addrOfDst := Filed(ix.addrOfDst, dst, i))
    case Load(_, src) => ix.(loadSrc := Filed(ix.loadSrc, src, i))
    case Store(dst, src) =>
      ix.(storeDst := Filed(ix.storeDst, dst, i), storeSrc := Filed(ix.storeSrc, src, i))
    case Gep(_, src, _, _, _) => ix.(gepSrc := Filed(ix.gepSrc, src, i))
    case Dlsym(_, src, _) => ix.(dlsymSrc := Filed(ix.dlsymSrc, src, i))
    case Unwrap(_, src, _) => ix.(unwrapSrc := Filed(ix.unwrapSrc, src, i))
  }

  /** `ix` lists under each node exactly the constraints `key` files there, each
      once and in the order of the list. */
  ghost predicate Lists(cs: seq<Constraint>, ix: Index, key: Constraint -> Option<Node>) {
    && (forall n: Node :: Ascending(Under(ix, n)))
    && (forall n: Node, i: nat {:trigger i in Under(ix, n)} :: i in Under(ix, n) ==> i < |cs| && key(cs[i]) == Some(n))
    && (forall i {:trigger key(cs[i])} :: 0 <= i < |cs| && key(cs[i]).Some? ==> i in Under(ix, key(cs[i]).value))
  }

  ghost predicate IndicesOk(cs: seq<Constraint>, ix: SolverIndices) {
    && Lists(cs, ix.copySrc, CopyKey) && Lists(cs, ix.addrOfDst, AddrOfKey)
    && Lists(cs, ix.loadSrc, LoadKey) && Lists(cs, ix.storeDst, StoreDstKey)
    && Lists(cs, ix.storeSrc, StoreSrcKey) && Lists(cs, ix.gepSrc, GepKey)
    && Lists(cs, ix.dlsymSrc, DlsymKey) && Lists(cs, ix.unwrapSrc, UnwrapKey)
  }

  lemma AscendingSnoc(s: seq<nat>, n: nat)
    requires Ascending(s) && forall i: nat :: i in s ==> i < n
    ensures Ascending(s + [n])
  {
    assert forall j :: 0 <= j < |s| ==> s[j] in s;
  }

  lemma ListsSnoc(cs: seq<Constraint>, ix: Index, key: Constraint -> Option<Node>, c: Constraint)
    requires Lists(cs, ix, key)
    ensures key(c) == None ==> Lists(cs + [c], ix, key)
    ensures key(c).Some? ==> Lists(cs + [c], Filed(ix, key(c).value, |cs|), key)
  {
    hide Ascending;
    var cs' := cs + [c];
    if key(c).Some? {
      var ix' := Filed(ix, key(c).value, |cs|);
      forall n: Node ensures Ascending(Under(ix', n)) {
        AscendingSnoc(Under(ix, n), |cs|);
      }
      forall n: Node, i: nat {:trigger i in Under(ix', n)} | i in Under(ix', n) ensures i < |cs'| && key(cs'[i]) == Some(n) {
        assert (n == key(c).value && i == |cs|) || i in Under(ix, n);
      }
      forall i | 0 <= i < |cs'| && key(cs'[i]).Some? ensures i in Under(ix', key(cs'[i]).value) {
        if i < |cs| { assert i in Under(ix, key(cs[i]).value); }
      }
    }
  }

  lemma AddConstraintOk(cs: seq<Constraint>, ix: SolverIndices, c: Constraint)
    requires IndicesOk(cs, ix)
    ensures IndicesOk(cs + [c], AddConstraint(ix, c, |cs|))
  {
    ListsSnoc(cs, ix.copySrc, CopyKey, c);
    ListsSnoc(cs, ix.addrOfDst, AddrOfKey, c);
    ListsSnoc(cs, ix.loadSrc, LoadKey, c);
    ListsSnoc(cs, ix.storeDst, StoreDstKey, c);
    ListsSnoc(cs, ix.storeSrc, StoreSrcKey, c);
    ListsSnoc(cs, ix.gepSrc, GepKey, c);
    ListsSnoc(cs, ix.dlsymSrc, DlsymKey, c);
    ListsSnoc(cs, ix.unwrapSrc, UnwrapKey, c);
  }

  lemma NothingUnder(cs: seq<Constraint>, ix: Index, key: Constraint -> Option<Node>, n: Node)
    requires Lists(cs, ix, key) && forall i :: 0 <= i < |cs| ==> key(cs[i]) != Some(n)
    ensures Under(ix, n) == []
  {
    Listed(cs, ix, key, n);
    Inhabited(Under(ix, n));
  }

  lemma Listed(cs: seq<Constraint>, ix: Index, key: Constraint -> Option<Node>, n: Node)
    requires Lists(cs, ix, key)
    ensures forall i: nat {:trigger i in Under(ix, n)} :: i in Under(ix, n) <==> i < |cs| && key(cs[i]) == Some(n)
  {
    forall i: nat ensures i in Under(ix, n) <==> i < |cs| && key(cs[i]) == Some(n) {
      if i < |cs| { assert key(cs[i]) == Some(n) ==> i in Under(ix, n); }
    }
  }

  /** A node has a load filed under it exactly when it is some load's pointer. */
  lemma LoadSrcListed(cs: seq<Constraint>, ix: Index, n: Node)
    requires Lists(cs, ix, LoadKey)
    ensures Under(ix, n) != [] <==> exists i :: 0 <= i < |cs| && cs[i].Load? && cs[i].src == n
  {
    Listed(cs, ix, LoadKey, n);
    if Under(ix, n) != [] {
      var i := Under(ix, n)[0];
      assert i in Under(ix, n);
      assert LoadKey(cs[i]) == Some(n);
    }
    forall i | 0 <= i < |cs| && cs[i].Load? && cs[i].src == n ensures i in Under(ix, n) {
      assert LoadKey(cs[i]) == Some(n);
    }
  }

  method BuildIndices(cs: seq<Constraint>) returns (ix: SolverIndices)
    ensures IndicesOk(cs, ix)
  {
    ix := EMPTY;
    for i := 0 to |cs|
      invariant IndicesOk(cs[..i], ix)
    {
      AddConstraintOk(cs[..i], ix, cs[i]);
      assert cs[..i + 1] == cs[..i] + [cs[i]];
      ix := AddConstraint(ix, cs[i], i);
    }
    assert cs[..|cs|] == cs;
  }
}
