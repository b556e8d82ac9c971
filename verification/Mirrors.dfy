/** Compressed bit sets that shadow the larger location sets, to answer
    membership faster; the sets themselves stay authoritative. */
module Mirrors {
  import opened Common

  type Loc = nat

  /** Smaller sets are searched directly. */
  const MIRROR_MIN := 64

  /** Words in one block. */
  const BLOCK_WORDS := 8

  const WORD_BITS := 64

  /** A machine word as its bits, lowest first. */
  type Word = w: seq<bool> | |w| == WORD_BITS witness seq(WORD_BITS, _ => false)

  type Block = b: seq<Word> | |b| == BLOCK_WORDS witness seq(BLOCK_WORDS, _ => seq(WORD_BITS, _ => false))

  function ClearWord(): Word {
    seq(WORD_BITS, _ => false)
  }

  function ClearBlock(): Block {
    seq(BLOCK_WORDS, _ => ClearWord())
  }

  /** Blocks are stored in the order they were first needed; `dir` says where
      each is, counting from one so that zero can mean nowhere. */
  datatype Mirror = Mirror(dir: seq<nat>, blocks: seq<Block>)

  /** Where the bit of `n` lives. */
  function Locate(n: nat): (nat, nat, nat) {
    var word := n / WORD_BITS;
    (word / BLOCK_WORDS, word % BLOCK_WORDS, n % WORD_BITS)
  }

  lemma LocateInjective(n: nat, k: nat)
    requires Locate(n) == Locate(k)
    ensures n == k
  {
  }

  /** Directory entries are in range, and no block is shared. */
  ghost predicate Sound(m: Mirror) {
    && (forall b :: 0 <= b < |m.dir| ==> m.dir[b] <= |m.blocks|)
    && (forall a, b :: 0 <= a < b < |m.dir| && m.dir[a] == m.dir[b] ==> m.dir[a] == 0)
  }

  predicate Test(m: Mirror, n: nat)
    requires Sound(m)
  {
    var (block, word, bit) := Locate(n);
    block < |m.dir| && m.dir[block] != 0 && m.blocks[m.dir[block] - 1][word][bit]
  }

  function Resized(s: seq<nat>, n: nat): (r: seq<nat>)
    ensures |r| == if n < |s| then |s| else n
    ensures forall i :: 0 <= i < |r| ==> r[i] == if i < |s| then s[i] else 0
  {
    if n <= |s| then s else s + seq(n - |s|, _ => 0)
  }

  /** Give block `b` storage, all clear, unless it has some. */
  function WithBlock(m: Mirror, b: nat): Mirror {
    var dir := Resized(m.dir, b + 1);
    if dir[b] != 0 then Mirror(dir, m.blocks)
    else Mirror(dir[b := |m.blocks| + 1], m.blocks + [ClearBlock()])
  }

  function Set(m: Mirror, n: nat): Mirror
    requires Sound(m)
  {
    var (block, word, bit) := Locate(n);
    var m' := WithBlock(m, block);
    WithBlockOk(m, block);
    var at := m'.dir[block] - 1;
    var words := m'.blocks[at];
    m'.(blocks := m'.blocks[at := words[word := words[word][bit := true]]])
  }

  lemma WithBlockOk(m: Mirror, b: nat)
    requires Sound(m)
    ensures Sound(WithBlock(m, b)) && b < |WithBlock(m, b).dir| && WithBlock(m, b).dir[b] != 0
    ensures forall k :: Test(WithBlock(m, b), k) <==> Test(m, k)
  {
    var m' := WithBlock(m, b);
    forall a, c | 0 <= a < c < |m'.dir| && m'.dir[a] == m'.dir[c] ensures m'.dir[a] == 0 {
      assert a < |m.dir| ==> m.dir[a] <= |m.blocks|;
      assert c < |m.dir| ==> m.dir[c] <= |m.blocks|;
    }
    forall k ensures Test(m', k) <==> Test(m, k) {
      var (block, word, bit) := Locate(k);
      if block < |m.dir| && m.dir[block] != 0 {
        assert m'.dir[block] == m.dir[block];
        assert m'.blocks[m'.dir[block] - 1] == m.blocks[m.dir[block] - 1];
      } else if block < |m'.dir| && m'.dir[block] != 0 {
        assert m'.blocks[m'.dir[block] - 1] == ClearBlock();
      }
    }
  }

  /** Setting one bit sets that bit and no other. */
  lemma SetOk(m: Mirror, n: nat)
    requires Sound(m)
    ensures Sound(Set(m, n))
    ensures forall k :: Test(Set(m, n), k) <==> k == n || Test(m, k)
  {
    hide WithBlock;
    var (block, word, bit) := Locate(n);
    var m', r := WithBlock(m, block), Set(m, n);
    WithBlockOk(m, block);
    forall k ensures Test(r, k) <==> k == n || Test(m', k) {
      var (b, w, i) := Locate(k);
      if b == block && w == word && i == bit {
        LocateInjective(n, k);
      } else if b < |m'.dir| && m'.dir[b] != 0 {
        assert b != block ==> m'.dir[b] != m'.dir[block];
      }
    }
  }

  // ----- The shared numbering -----

  /** Locations are numbered as mirrors first meet them; again zero stands for
      having no number, so numbers are stored one higher. */
  datatype LocBits = LocBits(number: seq<nat>, next: nat)

  ghost predicate Numbered(lb: LocBits) {
    && (forall l :: 0 <= l < |lb.number| ==> lb.number[l] <= lb.next)
    && (forall a, b :: 0 <= a < b < |lb.number| && lb.number[a] == lb.number[b] ==> lb.number[a] == 0)
  }

  /** A mirror uses only numbers already given out. */
  ghost predicate Fits(lb: LocBits, m: Mirror) {
    Sound(m) && forall n :: n >= lb.next ==> !Test(m, n)
  }

  predicate Has(lb: LocBits, m: Mirror, l: Loc)
    requires Sound(m)
  {
    l < |lb.number| && lb.number[l] != 0 && Test(m, lb.number[l] - 1)
  }

  /** Number `l` unless it has a number. */
  function Number(lb: LocBits, l: Loc): LocBits {
    var number := Resized(lb.number, l + 1);
    if number[l] != 0 then lb.(number := number)
    else LocBits(number[l := lb.next + 1], lb.next + 1)
  }

  /** Numbering a location leaves every mirror's answers as they were. */
  lemma NumberOk(lb: LocBits, l: Loc)
    requires Numbered(lb)
    ensures Numbered(Number(lb, l))
    ensures l < |Number(lb, l).number| && 0 < Number(lb, l).number[l] <= Number(lb, l).next
    ensures lb.next <= Number(lb, l).next
  {
  }

  lemma NumberKeeps(lb: LocBits, l: Loc, m: Mirror)
    requires Numbered(lb)
    ensures Keeps(lb, Number(lb, l), m)
  {
    NumberOk(lb, l);
  }

  function SetLoc(lb: LocBits, m: Mirror, l: Loc): (LocBits, Mirror)
    requires Numbered(lb) && Sound(m)
  {
    var lb' := Number(lb, l);
    NumberOk(lb, l);
    (lb', Set(m, lb'.number[l] - 1))
  }

  /** If `m` lives under `lb`, it answers alike under `lb'`. */
  ghost predicate Keeps(lb: LocBits, lb': LocBits, m: Mirror) {
    Fits(lb, m) ==> Fits(lb', m) && forall k: Loc :: Has(lb', m, k) <==> Has(lb, m, k)
  }

  ghost predicate Extends(lb: LocBits, lb': LocBits) {
    Numbered(lb') && forall m :: Keeps(lb, lb', m)
  }

  lemma ExtendsTrans(a: LocBits, b: LocBits, c: LocBits)
    requires Extends(a, b) && Extends(b, c)
    ensures Extends(a, c)
  {
    forall m ensures Keeps(a, c, m) {
      KeepsTrans(a, b, c, m);
    }
  }

  lemma KeepsTrans(a: LocBits, b: LocBits, c: LocBits, m: Mirror)
    requires Keeps(a, b, m) && Keeps(b, c, m)
    ensures Keeps(a, c, m)
  {
  }

  /** Setting a location's bit adds it to this mirror and changes no other
      mirror that shares the numbering. */
  lemma SetLocOk(lb: LocBits, m: Mirror, l: Loc)
    requires Numbered(lb) && Fits(lb, m)
    ensures Extends(lb, SetLoc(lb, m, l).0)
    ensures Fits(SetLoc(lb, m, l).0, SetLoc(lb, m, l).1)
    ensures forall k: Loc :: Has(SetLoc(lb, m, l).0, SetLoc(lb, m, l).1, k) <==> k == l || Has(lb, m, k)
  {
    hide Set, Number, Test;
    var lb' := Number(lb, l);
    NumberOk(lb, l);
    forall other ensures Keeps(lb, lb', other) {
      NumberKeeps(lb, l, other);
    }
    assert Keeps(lb, lb', m);
    SetOk(m, lb'.number[l] - 1);
    var m' := Set(m, lb'.number[l] - 1);
    forall k: Loc ensures Has(lb', m', k) <==> k == l || Has(lb', m, k) {
      if k < |lb'.number| && lb'.number[k] == lb'.number[l] {
        assert k == l;
      }
    }
  }

  // ----- Sets with mirrors -----

  type Sets = map<nat, seq<Loc>>
  type Bits = map<nat, Mirror>

  function SetAt(sets: Sets, k: nat): seq<Loc> {
    if k in sets then sets[k] else []
  }

  /** The mirror has exactly the bits of the locations the set holds. */
  ghost predicate Mirrors(lb: LocBits, m: Mirror, held: seq<Loc>) {
    Fits(lb, m) && forall l: Loc :: Has(lb, m, l) <==> l in held
  }

  /** The large sets, and only they, have mirrors, each exact. */
  ghost predicate InStep(lb: LocBits, sets: Sets, bits: Bits) {
    && Numbered(lb)
    && (forall k :: k in bits ==> Mirrors(lb, bits[k], SetAt(sets, k)))
    && (forall k :: k in bits <==> |SetAt(sets, k)| >= MIRROR_MIN)
  }

  lemma MirrorsExtend(lb: LocBits, lb': LocBits, m: Mirror, held: seq<Loc>)
    requires Extends(lb, lb') && Mirrors(lb, m, held)
    ensures Mirrors(lb', m, held)
  {
    hide Has;
    assert Keeps(lb, lb', m);
  }

  lemma InStepExtend(lb: LocBits, lb': LocBits, sets: Sets, bits: Bits)
    requires Extends(lb, lb') && InStep(lb, sets, bits)
    ensures InStep(lb', sets, bits)
  {
    forall k | k in bits ensures Mirrors(lb', bits[k], SetAt(sets, k)) {
      MirrorsExtend(lb, lb', bits[k], SetAt(sets, k));
    }
  }

  /** Replacing one set and its mirror together keeps all in step. */
  lemma InStepReplace(lb: LocBits, lb': LocBits, sets: Sets, sets': Sets, bits: Bits, k: nat, m: Mirror)
    requires InStep(lb, sets, bits) && Extends(lb, lb') && Mirrors(lb', m, SetAt(sets', k))
    requires forall j :: j != k ==> SetAt(sets', j) == SetAt(sets, j)
    requires |SetAt(sets', k)| >= MIRROR_MIN
    ensures InStep(lb', sets', bits[k := m])
  {
    hide Mirrors;
    InStepExtend(lb, lb', sets, bits);
  }

  /** Set the bits of `locs` in a mirror of `held`. */
  method Mark(lb: LocBits, m: Mirror, held: seq<Loc>, locs: seq<Loc>) returns (lb': LocBits, m': Mirror)
    requires Numbered(lb) && Mirrors(lb, m, held)
    ensures Extends(lb, lb') && Mirrors(lb', m', held + locs)
  {
    hide SetLoc, Has, Test;
    lb', m' := lb, m;
    assert held + locs[..0] == held;
    for i := 0 to |locs|
      invariant Extends(lb, lb') && Mirrors(lb', m', held + locs[..i])
    {
      SetLocOk(lb', m', locs[i]);
      var (lb1, m1) := SetLoc(lb', m', locs[i]);
      ExtendsTrans(lb, lb', lb1);
      assert held + locs[..i + 1] == held + locs[..i] + [locs[i]];
      lb', m' := lb1, m1;
    }
    assert locs[..|locs|] == locs;
  }

  /** A mirror of `held`. */
  method MirrorOf(lb: LocBits, held: seq<Loc>) returns (lb': LocBits, m: Mirror)
    requires Numbered(lb)
    ensures Extends(lb, lb') && Mirrors(lb', m, held)
  {
    assert [] + held == held;
    lb', m := Mark(lb, Mirror([], []), [], held);
  }

  lemma MirrorAt(lb: LocBits, sets: Sets, bits: Bits, k: nat)
    requires InStep(lb, sets, bits)
    ensures Numbered(lb) && (k in bits ==> Mirrors(lb, bits[k], SetAt(sets, k)) && |SetAt(sets, k)| >= MIRROR_MIN)
  {
  }

  lemma ExtendsRefl(lb: LocBits)
    requires Numbered(lb)
    ensures Extends(lb, lb)
  {
  }

  lemma Unmirrored(lb: LocBits, sets: Sets, bits: Bits, k: nat, held: seq<Loc>)
    requires InStep(lb, sets, bits) && k !in bits
    ensures Numbered(lb) && (|held| < MIRROR_MIN ==> InStep(lb, sets[k := held], bits))
  {
    hide Mirrors;
  }

  /** Insert into a mirrored set: a set bit means held, a clear one not held. */
  method WriteMirrored(lb: LocBits, m: Mirror, start: seq<Loc>, locs: seq<Loc>)
    returns (lb': LocBits, m': Mirror, held: seq<Loc>)
    requires Numbered(lb) && Mirrors(lb, m, start)
    ensures Extends(lb, lb') && Mirrors(lb', m', held) && held == AppendNew(start, locs)
  {
    hide SetLoc, Has, Test;
    lb', m', held := lb, m, start;
    for i := 0 to |locs|
      invariant Extends(lb, lb') && Mirrors(lb', m', held) && held == AppendNew(start, locs[..i])
    {
      assert locs[..i + 1][..i] == locs[..i];
      if !Has(lb', m', locs[i]) {
        SetLocOk(lb', m', locs[i]);
        var (lb1, m1) := SetLoc(lb', m', locs[i]);
        ExtendsTrans(lb, lb', lb1);
        held := held + [locs[i]];
        lb', m' := lb1, m1;
      }
    }
    assert locs[..|locs|] == locs;
  }

  method WritePlain(start: seq<Loc>, locs: seq<Loc>) returns (held: seq<Loc>)
    ensures held == AppendNew(start, locs)
  {
    held := start;
    for i := 0 to |locs|
      invariant held == AppendNew(start, locs[..i])
    {
      assert locs[..i + 1][..i] == locs[..i];
      if locs[i] !in held {
        held := held + [locs[i]];
      }
    }
    assert locs[..|locs|] == locs;
  }

  /** A mirror that may lag behind its set but never claims too much. */
  ghost predicate Stale(lb: LocBits, bits: Option<Mirror>, held: seq<Loc>) {
    bits.Some? ==> Sound(bits.value) && forall l: Loc :: Has(lb, bits.value, l) ==> l in held
  }

  lemma StaleAt(lb: LocBits, sets: Sets, bits: Bits, k: nat)
    requires InStep(lb, sets, bits)
    ensures Stale(lb, if k in bits then Some(bits[k]) else None, SetAt(sets, k))
  {
    hide Has;
  }

  lemma StaleGrows(lb: LocBits, bits: Option<Mirror>, held: seq<Loc>, added: seq<Loc>)
    requires Stale(lb, bits, held)
    ensures Stale(lb, bits, held + added)
  {
    hide Has;
  }

  /** What `batch` brings that `held` lacks: the mirror is asked first, the
      set itself when its bit is clear. */
  method Collect(lb: LocBits, bits: Option<Mirror>, held: seq<Loc>, batch: seq<Loc>) returns (gained: seq<Loc>)
    requires Stale(lb, bits, held) && NoDup(batch)
    ensures held + gained == AppendNew(held, batch)
  {
    hide Has;
    gained := [];
    assert held + [] == held;
    for i := 0 to |batch|
      invariant held + gained == AppendNew(held, batch[..i])
      invariant forall l :: l in gained ==> l in batch[..i]
    {
      var l := batch[i];
      assert batch[..i + 1][..i] == batch[..i] && batch[..i + 1][i] == l;
      assert l !in batch[..i];
      if !(bits.Some? && Has(lb, bits.value, l)) && l !in held {
        assert held + (gained + [l]) == held + gained + [l];
        gained := gained + [l];
      }
    }
    assert batch[..|batch|] == batch;
  }

  class MirroredSets {
    var memory: Sets
    var memoryBits: Bits
    var pts: Sets
    var ptsBits: Bits
    var locBits: LocBits

    ghost predicate Valid()
      reads this
    {
      InStep(locBits, memory, memoryBits) && InStep(locBits, pts, ptsBits)
    }

    constructor ()
      ensures Valid() && memory == map[] && pts == map[]
    {
      memory, memoryBits, pts, ptsBits, locBits := map[], map[], map[], map[], LocBits([], 0);
    }

    /** Insert `locs` in order into `memory[cell]`: with or without a mirror
        the cell ends up as a plain ordered set would. */
    method WriteMemory(cell: nat, locs: seq<Loc>) returns (grew: bool)
      requires Valid()
      modifies `memory, `memoryBits, `locBits
      ensures Valid()
      ensures memory == old(memory)[cell := AppendNew(old(SetAt(memory, cell)), locs)]
      ensures grew <==> |memory[cell]| > |old(SetAt(memory, cell))|
    {
      hide InStep, Extends, Mirrors;
      var start := SetAt(memory, cell);
      var lb, held := locBits, start;
      if cell in memoryBits {
        MirrorAt(locBits, memory, memoryBits, cell);
        var m;
        lb, m, held := WriteMirrored(locBits, memoryBits[cell], start, locs);
        AppendNewGrows(start, locs);
        InStepReplace(locBits, lb, memory, memory[cell := held], memoryBits, cell, m);
        memoryBits := memoryBits[cell := m];
      } else {
        held := WritePlain(start, locs);
        Unmirrored(locBits, memory, memoryBits, cell, held);
        if |held| >= MIRROR_MIN {
          var m;
          lb, m := MirrorOf(locBits, held);
          InStepReplace(locBits, lb, memory, memory[cell := held], memoryBits, cell, m);
          memoryBits := memoryBits[cell := m];
        } else {
          ExtendsRefl(locBits);
        }
      }
      InStepExtend(locBits, lb, pts, ptsBits);
      memory := memory[cell := held];
      locBits := lb;
      grew := |held| > |start|;
    }

    /** Several batches go into one set, all checked against a mirror that is only
        brought up to date at the end; the set comes out as if there were no
        mirror. */
    method Merge(dst: nat, batches: seq<seq<Loc>>) returns (added: seq<Loc>)
      requires Valid() && forall i :: 0 <= i < |batches| ==> NoDup(batches[i])
      modifies `pts, `ptsBits, `locBits
      ensures Valid()
      ensures pts == old(pts)[dst := AppendNew(old(SetAt(pts, dst)), Flat(batches))]
      ensures pts[dst] == old(SetAt(pts, dst)) + added
    {
      hide InStep, Extends, Mirrors, Stale;
      var start := SetAt(pts, dst);
      var bits := if dst in ptsBits then Some(ptsBits[dst]) else None;
      StaleAt(locBits, pts, ptsBits, dst);
      var held := start;
      added := [];
      assert start + [] == start;
      for i := 0 to |batches|
        invariant held == AppendNew(start, Flat(batches[..i])) && held == start + added
        modifies {}
      {
        StaleGrows(locBits, bits, start, added);
        var fresh' := Collect(locBits, bits, held, batches[i]);
        AppendNewConcat(start, Flat(batches[..i]), batches[i]);
        assert batches[..i + 1][..i] == batches[..i];
        held, added := held + fresh', added + fresh';
      }
      assert batches[..|batches|] == batches;
      MirrorPts(dst, start, added);
    }

    /** Record that `pts[dst]`, which was `start`, gained `added`: its mirror
        follows, or is made once the set is large. */
    method MirrorPts(dst: nat, start: seq<Loc>, added: seq<Loc>)
      requires Valid() && start == SetAt(pts, dst)
      modifies `pts, `ptsBits, `locBits
      ensures Valid() && pts == old(pts)[dst := start + added]
    {
      hide InStep, Extends, Mirrors;
      var lb, held := locBits, start + added;
      if dst in ptsBits {
        MirrorAt(locBits, pts, ptsBits, dst);
        var m;
        lb, m := Mark(locBits, ptsBits[dst], start, added);
        InStepReplace(locBits, lb, pts, pts[dst := held], ptsBits, dst, m);
        ptsBits := ptsBits[dst := m];
      } else {
        Unmirrored(locBits, pts, ptsBits, dst, held);
        if |held| >= MIRROR_MIN {
          var m;
          lb, m := MirrorOf(locBits, held);
          InStepReplace(locBits, lb, pts, pts[dst := held], ptsBits, dst, m);
          ptsBits := ptsBits[dst := m];
        } else {
          ExtendsRefl(locBits);
        }
      }
      InStepExtend(locBits, lb, memory, memoryBits);
      pts := pts[dst := held];
      locBits := lb;
    }
  }
}
