/** The cached view of a location's holders that are load sources. */
module Holders {
  import opened Common
  import opened Mirrors

  type Node = nat

  /** `nodes` is a hash set in its iteration order; `loaders` the view made
      when there were `cached` load sources. */
  datatype LocationHolders = LocationHolders(nodes: seq<Node>, loaders: seq<Node>, cached: Option<nat>)

  /** The members of `s` among `nodes`, in order. */
  ghost function Keep(nodes: seq<Node>, s: set<Node>): seq<Node> {
    if nodes == [] then []
    else Keep(nodes[..|nodes| - 1], s) + if nodes[|nodes| - 1] in s then [nodes[|nodes| - 1]] else []
  }

  lemma {:induction false} KeepIff(nodes: seq<Node>, s: set<Node>, n: Node)
    ensures n in Keep(nodes, s) <==> n in nodes && n in s
  {
    if nodes != [] {
      KeepIff(nodes[..|nodes| - 1], s, n);
      assert nodes == nodes[..|nodes| - 1] + [nodes[|nodes| - 1]];
    }
  }

  /** The view was right for some earlier, smaller set of load sources. */
  ghost predicate CacheOk(h: LocationHolders, sources: set<Node>) {
    h.cached.Some? ==> exists s :: Earlier(h, sources, s)
  }

  ghost predicate Earlier(h: LocationHolders, sources: set<Node>, s: set<Node>) {
    s <= sources && h.cached == Some(|s|) && h.loaders == Keep(h.nodes, s)
  }

  lemma {:induction false} SubsetSameSize<T>(a: set<T>, b: set<T>)
    requires a <= b && |a| == |b|
    ensures a == b
  {
    if x :| x in b && x !in a {
      SubsetSize(a, b - {x});
    } else {
      assert b <= a;
    }
  }

  /** As the load sources only grow, an unchanged count means an unchanged set. */
  lemma CountDecides(h: LocationHolders, sources: set<Node>)
    requires CacheOk(h, sources) && h.cached == Some(|sources|)
    ensures h.loaders == Keep(h.nodes, sources)
  {
    var s :| Earlier(h, sources, s);
    SubsetSameSize(s, sources);
  }

  lemma CacheGrows(h: LocationHolders, sources: set<Node>, n: Node)
    requires CacheOk(h, sources)
    ensures CacheOk(h, sources + {n})
  {
    if h.cached.Some? {
      var s :| Earlier(h, sources, s);
      assert Earlier(h, sources + {n}, s);
    }
  }

  // ----- One bit per load source -----

  predicate BitAt(words: seq<Word>, n: Node) {
    n / WORD_BITS < |words| && words[n / WORD_BITS][n % WORD_BITS]
  }

  function Widened(words: seq<Word>, n: nat): (r: seq<Word>)
    ensures |r| == if n < |words| then |words| else n
    ensures forall i :: 0 <= i < |r| ==> r[i] == if i < |words| then words[i] else ClearWord()
  {
    if n <= |words| then words else words + seq(n - |words|, _ => ClearWord())
  }

  function SetBit(words: seq<Word>, n: Node): seq<Word> {
    var wide := Widened(words, n / WORD_BITS + 1);
    wide[n / WORD_BITS := wide[n / WORD_BITS][n % WORD_BITS := true]]
  }

  lemma SetBitOk(words: seq<Word>, n: Node, k: Node)
    ensures BitAt(SetBit(words, n), k) <==> k == n || BitAt(words, k)
  {
    assert n == n / WORD_BITS * WORD_BITS + n % WORD_BITS && k == k / WORD_BITS * WORD_BITS + k % WORD_BITS;
  }

  // ----- The state -----

  class HolderIndex {
    var loadSrc: map<Node, seq<nat>>
    var loadSrcBits: seq<Word>
    var holders: map<Loc, LocationHolders>

    ghost predicate Valid()
      reads this
    {
      && (forall n: Node :: BitAt(loadSrcBits, n) <==> n in loadSrc)
      && (forall l :: l in holders ==> CacheOk(holders[l], loadSrc.Keys))
    }

    constructor ()
      ensures Valid() && loadSrc == map[] && holders == map[]
    {
      loadSrc, loadSrcBits, holders := map[], [], map[];
    }

    /** One more load, filed by the pointer it goes through. */
    method AddLoad(src: Node, idx: nat)
      requires Valid()
      modifies `loadSrc, `loadSrcBits
      ensures Valid()
      ensures loadSrc == old(loadSrc)[src := (if src in old(loadSrc) then old(loadSrc)[src] else []) + [idx]]
    {
      hide BitAt, SetBit, CacheOk;
      forall l | l in holders ensures CacheOk(holders[l], loadSrc.Keys + {src}) {
        CacheGrows(holders[l], loadSrc.Keys, src);
      }
      forall n: Node ensures BitAt(SetBit(loadSrcBits, src), n) <==> n == src || BitAt(loadSrcBits, n) {
        SetBitOk(loadSrcBits, src, n);
      }
      ghost var keys := loadSrc.Keys;
      loadSrc := loadSrc[src := (if src in loadSrc then loadSrc[src] else []) + [idx]];
      loadSrcBits := SetBit(loadSrcBits, src);
      assert loadSrc.Keys == keys + {src};
    }

    /** `node` now holds `loc`; `order` is the order the set iterates in after
        the insertion, which may move its other members. A new holder drops the
        cached view. */
    method Insert(loc: Loc, node: Node, order: seq<Node>)
      requires Valid()
      requires NoDup(order) && Elems(order) == Elems(if loc in holders then holders[loc].nodes else []) + {node}
      modifies `holders
      ensures Valid() && loc in holders
      ensures loc in old(holders) && node in old(holders)[loc].nodes ==> holders == old(holders)
      ensures !(loc in old(holders) && node in old(holders)[loc].nodes) ==>
        holders[loc].nodes == order && holders[loc].cached == None
      ensures Elems(holders[loc].nodes) == Elems(order)
      ensures forall l :: l != loc ==> (l in holders <==> l in old(holders)) && (l in holders ==> holders[l] == old(holders)[l])
    {
      var h := if loc in holders then holders[loc] else LocationHolders([], [], None);
      if node !in h.nodes {
        h := LocationHolders(order, h.loaders, None);
      } else {
        assert node in Elems(h.nodes);
      }
      holders := holders[loc := h];
    }

    method IsLoadSrc(n: Node) returns (b: bool)
      requires Valid()
      ensures b <==> n in loadSrc
    {
      b := BitAt(loadSrcBits, n);
    }

    /** Who holds `loc` and loads through it, in the set's own order; a cached
        answer is the same as a computed one. */
    method Loading(loc: Loc) returns (loaders: seq<Node>)
      requires Valid() && loc in holders
      modifies `holders
      ensures Valid() && holders.Keys == old(holders).Keys
      ensures loaders == Keep(holders[loc].nodes, loadSrc.Keys)
      ensures forall l :: l in holders ==> holders[l].nodes == old(holders)[l].nodes
    {
      var h := holders[loc];
      if h.cached != Some(|loadSrc.Keys|) {
        loaders := Remake(h.nodes);
        h := LocationHolders(h.nodes, loaders, Some(|loadSrc.Keys|));
        assert Earlier(h, loadSrc.Keys, loadSrc.Keys);
        holders := holders[loc := h];
      } else {
        CountDecides(h, loadSrc.Keys);
        loaders := h.loaders;
      }
    }

    method Remake(nodes: seq<Node>) returns (loaders: seq<Node>)
      requires Valid()
      ensures loaders == Keep(nodes, loadSrc.Keys)
    {
      loaders := [];
      for i := 0 to |nodes|
        invariant loaders == Keep(nodes[..i], loadSrc.Keys)
      {
        assert nodes[..i + 1][..i] == nodes[..i];
        var b := IsLoadSrc(nodes[i]);
        if b {
          loaders := loaders + [nodes[i]];
        }
      }
      assert nodes[..|nodes|] == nodes;
    }
  }
}
