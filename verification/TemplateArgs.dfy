/** The interface argument of a template base such as `IRemoteStub<api::IFoo>`,
    and the names it may stand for from a scope outward. */
module TemplateArgs {
  import opened Common

  // ----- Library string operations -----

  predicate IsSpace(c: char) {
    var n := c as int;
    0x09 <= n <= 0x0D || n == 0x20 || n == 0x85 || n == 0xA0 || n == 0x1680 || 0x2000 <= n <= 0x200A
    || n == 0x2028 || n == 0x2029 || n == 0x202F || n == 0x205F || n == 0x3000
  }

  function TrimStart(s: string): string {
    if s != "" && IsSpace(s[0]) then TrimStart(s[1..]) else s
  }

  function TrimEnd(s: string): string {
    if s != "" && IsSpace(s[|s| - 1]) then TrimEnd(s[..|s| - 1]) else s
  }

  function Trim(s: string): string {
    TrimEnd(TrimStart(s))
  }

  ghost predicate AllSpace(s: string) {
    forall i :: 0 <= i < |s| ==> IsSpace(s[i])
  }

  lemma {:induction false} TrimStartCut(s: string) returns (a: string)
    ensures s == a + TrimStart(s) && AllSpace(a) && (TrimStart(s) != "" ==> !IsSpace(TrimStart(s)[0]))
  {
    if s != "" && IsSpace(s[0]) {
      a := TrimStartCut(s[1..]);
      a := [s[0]] + a;
    } else {
      a := "";
    }
  }

  lemma {:induction false} TrimEndCut(s: string) returns (b: string)
    ensures s == TrimEnd(s) + b && AllSpace(b) && (TrimEnd(s) != "" ==> !IsSpace(TrimEnd(s)[|TrimEnd(s)| - 1]))
  {
    if s != "" && IsSpace(s[|s| - 1]) {
      b := TrimEndCut(s[..|s| - 1]);
      b := b + [s[|s| - 1]];
    } else {
      b := "";
    }
  }

  /** Trimming cuts white space off both ends, and all of it. */
  lemma TrimCut(s: string) returns (a: string, b: string)
    ensures s == a + Trim(s) + b && AllSpace(a) && AllSpace(b)
    ensures Trim(s) != "" ==> !IsSpace(Trim(s)[0]) && !IsSpace(Trim(s)[|Trim(s)| - 1])
  {
    a := TrimStartCut(s);
    b := TrimEndCut(TrimStart(s));
    assert Trim(s) != "" ==> Trim(s)[0] == TrimStart(s)[0];
  }

  predicate SepAt(s: string, i: int) {
    0 <= i < |s| - 1 && s[i] == ':' && s[i + 1] == ':'
  }

  function FindSep(s: string): (r: Option<nat>)
    ensures r.Some? ==> SepAt(s, r.value) && forall i :: 0 <= i < r.value ==> !SepAt(s, i)
    ensures r.None? ==> forall i :: !SepAt(s, i)
  {
    if |s| < 2 then None
    else if SepAt(s, 0) then Some(0)
    else
      var r := FindSep(s[1..]);
      assert forall i :: 0 < i ==> (SepAt(s, i) <==> SepAt(s[1..], i - 1));
      if r.None? then None else Some(r.value + 1)
  }

  /** The pieces between `::` separators. */
  function Split(s: string): (r: seq<string>)
    ensures r != []
    decreases |s|
  {
    var i := FindSep(s);
    if i.None? then [s] else [s[..i.value]] + Split(s[i.value + 2..])
  }

  function Join(parts: seq<string>): string {
    if parts == [] then "" else if |parts| == 1 then parts[0] else parts[0] + "::" + Join(parts[1..])
  }

  lemma CutAt(s: string, i: nat)
    requires SepAt(s, i)
    ensures s == s[..i] + "::" + s[i + 2..]
  {
  }

  lemma JoinFirst(x: string, parts: seq<string>)
    requires parts != []
    ensures Join([x] + parts) == x + "::" + Join(parts)
  {
    assert ([x] + parts)[1..] == parts;
  }

  /** Splitting loses nothing. */
  lemma {:induction false} JoinSplit(s: string)
    ensures Join(Split(s)) == s
    decreases |s|
  {
    var i := FindSep(s);
    if i.Some? {
      var head, tail := s[..i.value], s[i.value + 2..];
      JoinSplit(tail);
      CutAt(s, i.value);
      JoinFirst(head, Split(tail));
    }
  }

  /** Every piece ends at the first separator after its start, the last at none. */
  ghost predicate Pieces(parts: seq<string>) {
    && (forall k :: 0 <= k < |parts| - 1 ==> CutFirst(parts[k], parts[k] + "::"))
    && (parts != [] ==> CutFirst(parts[|parts| - 1], parts[|parts| - 1]))
  }

  /** No separator of `s` starts within `part`. */
  ghost predicate CutFirst(part: string, s: string) {
    forall i :: 0 <= i < |part| ==> !SepAt(s, i)
  }

  lemma HeadCut(s: string, i: nat)
    requires SepAt(s, i) && forall j :: 0 <= j < i ==> !SepAt(s, j)
    ensures CutFirst(s[..i], s[..i] + "::")
  {
    CutAt(s, i);
    forall j | 0 <= j < i ensures !SepAt(s[..i] + "::", j) {
      assert SepAt(s[..i] + "::", j) ==> SepAt(s, j);
    }
  }

  lemma PiecesMore(head: string, rest: seq<string>)
    requires CutFirst(head, head + "::") && rest != [] && Pieces(rest)
    ensures Pieces([head] + rest)
  {
    hide CutFirst;
    var parts := [head] + rest;
    forall k | 0 <= k < |parts| - 1 ensures CutFirst(parts[k], parts[k] + "::") {
      assert k > 0 ==> parts[k] == rest[k - 1];
    }
  }

  /** Splitting cuts at every separator, from the left. */
  lemma {:induction false} SplitPieces(s: string)
    ensures Pieces(Split(s))
    decreases |s|
  {
    hide Pieces;
    var i := FindSep(s);
    if i.Some? {
      SplitPieces(s[i.value + 2..]);
      HeadCut(s, i.value);
      PiecesMore(s[..i.value], Split(s[i.value + 2..]));
    } else {
      OnePiece(s);
    }
  }

  lemma OnePiece(s: string)
    requires forall i :: !SepAt(s, i)
    ensures Pieces([s])
  {
  }

  /** What follows the last `::`. */
  function LastSegment(s: string): (r: string)
    decreases |s|
  {
    if |s| < 2 then s
    else if SepAt(s, |s| - 2) then ""
    else LastSegment(s[..|s| - 1]) + [s[|s| - 1]]
  }

  /** `q` qualifies the name `w`, which has no separator of its own. */
  predicate Qualifies(q: string, w: string) {
    && (forall i :: 0 <= i < |w| - 1 ==> !SepAt(w, i))
    && (q == "" || (|q| >= 2 && SepAt(q, |q| - 2) && (w == "" || w[0] != ':')))
  }

  lemma QualifiedTail(q: string, w: string)
    requires Qualifies(q, w) && w != "" && |q + w| >= 2
    ensures !SepAt(q + w, |q + w| - 2) && (q + w)[|q + w| - 1] == w[|w| - 1]
    ensures Qualifies(q, w[..|w| - 1]) && (q + w)[..|q + w| - 1] == q + w[..|w| - 1]
  {
    var w' := w[..|w| - 1];
    assert |w| >= 2 ==> !SepAt(w, |w| - 2);
    forall i | 0 <= i < |w'| - 1 ensures !SepAt(w', i) {
      assert !SepAt(w, i);
    }
  }

  /** A name without `::` is its own last segment, whatever qualifies it. */
  lemma {:induction false} LastSegmentOf(q: string, w: string)
    requires Qualifies(q, w)
    ensures LastSegment(q + w) == w
    decreases |w|
  {
    hide Qualifies;
    var s := q + w;
    if w == "" {
      assert s == q;
      EmptyTail(q);
    } else if |s| >= 2 {
      QualifiedTail(q, w);
      LastSegmentOf(q, w[..|w| - 1]);
    } else {
      assert s == w;
    }
  }

  lemma EmptyTail(q: string)
    requires Qualifies(q, "")
    ensures q == "" || (|q| >= 2 && SepAt(q, |q| - 2))
  {
  }

  /** Whatever stands before the last segment qualifies it. */
  lemma {:induction false} LastSegmentCut(s: string) returns (q: string)
    ensures s == q + LastSegment(s) && Qualifies(q, LastSegment(s))
    decreases |s|
  {
    if |s| < 2 {
      q := "";
    } else if SepAt(s, |s| - 2) {
      q := s;
    } else {
      q := LastSegmentCut(s[..|s| - 1]);
      var w, w' := LastSegment(s), LastSegment(s[..|s| - 1]);
      forall i | 0 <= i < |w| - 1 ensures !SepAt(w, i) {
        assert i < |w'| - 1 ==> !SepAt(w', i);
        assert i == |w| - 2 ==> w[i] == s[|s| - 2] && w[i + 1] == s[|s| - 1];
      }
      assert w' != "" ==> w[0] == w'[0];
    }
  }

  function FindOpen(s: string): (r: Option<nat>)
    ensures r.Some? ==> r.value < |s| && s[r.value] == '<' && '<' !in s[..r.value]
    ensures r.None? ==> '<' !in s
  {
    if s == "" then None
    else if s[0] == '<' then Some(0)
    else
      var r := FindOpen(s[1..]);
      assert r.Some? ==> s[..r.value + 1] == [s[0]] + s[1..][..r.value];
      if r.None? then None else Some(r.value + 1)
  }

  lemma {:induction false} OpenIs(s: string, i: nat)
    requires i < |s| && s[i] == '<' && '<' !in s[..i]
    ensures FindOpen(s) == Some(i)
  {
    if i > 0 {
      assert s[0] in s[..i];
      assert s[1..][..i - 1] == s[..i][1..];
      OpenIs(s[1..], i - 1);
    }
  }

  // ----- Where the first argument ends -----

  /** Brackets opened and not yet closed. */
  ghost function Depth(s: string): int {
    if s == "" then 0
    else Depth(s[..|s| - 1]) + if s[|s| - 1] == '<' then 1 else if s[|s| - 1] == '>' then -1 else 0
  }

  /** No bracket closes before it opens, and no comma stands outside brackets. */
  ghost predicate InsideArgument(s: string) {
    && (forall i :: 0 <= i <= |s| ==> Depth(s[..i]) >= 0)
    && (forall i :: 0 <= i < |s| && s[i] == ',' ==> Depth(s[..i]) > 0)
  }

  /** `s[..e]` is a well-nested argument and `s[e]` ends it. */
  ghost predicate EndsAt(s: string, e: int) {
    0 <= e < |s| && (s[e] == '>' || s[e] == ',') && InsideArgument(s[..e]) && Depth(s[..e]) == 0
  }

  lemma DepthStep(s: string, i: nat)
    requires i < |s|
    ensures Depth(s[..i + 1]) == Depth(s[..i]) + if s[i] == '<' then 1 else if s[i] == '>' then -1 else 0
  {
    assert s[..i + 1][..i] == s[..i];
  }

  lemma InsideStep(s: string, i: nat)
    requires i < |s| && InsideArgument(s[..i])
    requires Depth(s[..i]) > 0 || (s[i] != '>' && s[i] != ',')
    ensures InsideArgument(s[..i + 1])
  {
    var t, u := s[..i], s[..i + 1];
    DepthStep(s, i);
    forall j | 0 <= j <= |u| ensures Depth(u[..j]) >= 0 {
      assert j <= i ==> u[..j] == t[..j];
      assert j == i + 1 ==> u[..j] == u;
      assert t[..i] == t;
    }
    forall j | 0 <= j < |u| && u[j] == ',' ensures Depth(u[..j]) > 0 {
      assert u[..j] == s[..j];
      assert j < i ==> t[j] == ',' && t[..j] == s[..j];
    }
  }

  /** An argument has one end. */
  lemma EndUnique(s: string, a: int, b: int)
    requires EndsAt(s, a) && EndsAt(s, b)
    ensures a == b
  {
    if a < b {
      NoEndInside(s, a, b);
    } else if b < a {
      NoEndInside(s, b, a);
    }
  }

  lemma NoEndInside(s: string, a: int, b: int)
    requires 0 <= a < b <= |s| && InsideArgument(s[..b]) && Depth(s[..a]) == 0
    ensures s[a] != '>' && s[a] != ','
  {
    var t := s[..b];
    DepthStep(s, a);
    assert t[..a] == s[..a] && t[..a + 1] == s[..a + 1] && t[a] == s[a];
  }

  /** Scan for the end of the first argument. */
  method ScanArgument(s: string) returns (end: Option<nat>)
    ensures end.Some? ==> EndsAt(s, end.value)
    ensures end.None? ==> forall e :: !EndsAt(s, e)
  {
    var depth := 0;
    for i := 0 to |s|
      invariant depth == Depth(s[..i]) && depth >= 0 && InsideArgument(s[..i])
      invariant forall e :: 0 <= e < i ==> !EndsAt(s, e)
    {
      DepthStep(s, i);
      if s[i] == '<' {
        depth := depth + 1;
      } else if s[i] == '>' {
        if depth == 0 {
          return Some(i);
        }
        depth := depth - 1;
      } else if s[i] == ',' && depth == 0 {
        return Some(i);
      }
      InsideStep(s, i);
    }
    end := None;
  }

  /** `x` is what stands trimmed between the first `<` after the wrapper and
      the end of the first argument. */
  ghost predicate Argument(base: string, wrapper: string, x: string) {
    var open := FindOpen(base);
    && open.Some? && LastSegment(Trim(base[..open.value])) == wrapper && x != ""
    && FirstArgument(base[open.value + 1..], x)
  }

  ghost predicate FirstArgument(s: string, x: string) {
    exists e :: EndsAt(s, e) && x == Trim(s[..e])
  }

  method RemoteInterfaceArgument(base: string, wrapper: string) returns (r: Option<string>)
    ensures forall x :: r == Some(x) <==> Argument(base, wrapper, x)
  {
    var open := FindOpen(base);
    if open.None? || LastSegment(Trim(base[..open.value])) != wrapper {
      return None;
    }
    var rest := base[open.value + 1..];
    var end := ScanArgument(rest);
    if end.None? {
      return None;
    }
    var interface := Trim(rest[..end.value]);
    forall e | EndsAt(rest, e) ensures e == end.value { EndUnique(rest, e, end.value); }
    r := if interface == "" then None else Some(interface);
  }

  /** Whatever well-nested argument is written first comes back trimmed,
      whether the list ends there or goes on. */
  lemma ArgumentRecovered(name: string, wrapper: string, arg: string, stop: char, rest: string)
    requires '<' !in name && LastSegment(Trim(name)) == wrapper
    requires InsideArgument(arg) && Depth(arg) == 0 && (stop == '>' || stop == ',')
    ensures forall x :: Argument(name + "<" + arg + [stop] + rest, wrapper, x) <==> x == Trim(arg) && x != ""
  {
    hide Trim, LastSegment, EndsAt, InsideArgument, Depth;
    var base, tail := name + "<" + arg + [stop] + rest, arg + [stop] + rest;
    SlicesOf(name, arg, stop, rest);
    OpenIs(base, |name|);
    EndsThere(arg, stop, rest);
    forall e | EndsAt(tail, e) ensures e == |arg| { EndUnique(tail, e, |arg|); }
  }

  lemma SlicesOf(name: string, arg: string, stop: char, rest: string)
    ensures var base := name + "<" + arg + [stop] + rest;
      |name| < |base| && base[|name|] == '<' && base[..|name|] == name && base[|name| + 1..] == arg + [stop] + rest
    ensures (arg + [stop] + rest)[..|arg|] == arg
  {
  }

  lemma EndsThere(arg: string, stop: char, rest: string)
    requires InsideArgument(arg) && Depth(arg) == 0 && (stop == '>' || stop == ',')
    ensures EndsAt(arg + [stop] + rest, |arg|)
  {
    var tail := arg + [stop] + rest;
    assert tail[..|arg|] == arg && tail[|arg|] == stop;
  }

  /** A qualified or plain wrapper, written without outer white space. */
  lemma WrapperRecovered(q: string, wrapper: string, arg: string, stop: char, rest: string)
    requires '<' !in q + wrapper && wrapper != "" && Qualifies(q, wrapper)
    requires !IsSpace((q + wrapper)[0]) && !IsSpace(wrapper[|wrapper| - 1])
    requires InsideArgument(arg) && Depth(arg) == 0 && (stop == '>' || stop == ',')
    ensures forall x :: Argument(q + wrapper + "<" + arg + [stop] + rest, wrapper, x) <==> x == Trim(arg) && x != ""
  {
    LastSegmentOf(q, wrapper);
    assert Trim(q + wrapper) == q + wrapper;
    ArgumentRecovered(q + wrapper, wrapper, arg, stop, rest);
  }

  // ----- Candidates -----

  ghost function NonEmpty(parts: seq<string>): seq<string> {
    if parts == [] then []
    else NonEmpty(parts[..|parts| - 1]) + if parts[|parts| - 1] == "" then [] else [parts[|parts| - 1]]
  }

  /** `at` lists, in order, where the nonempty parts stand, and `kept` is what
      stands there. */
  ghost predicate KeepsAt(parts: seq<string>, kept: seq<string>, at: seq<nat>) {
    && Ascending(at) && |kept| == |at|
    && (forall i: nat :: i in at <==> i < |parts| && parts[i] != "")
    && (forall j :: 0 <= j < |at| ==> at[j] < |parts| && kept[j] == parts[at[j]])
  }

  /** The nonempty segments of a scope and nothing else, in their order. */
  method Segments(parts: seq<string>) returns (kept: seq<string>, ghost at: seq<nat>)
    ensures kept == NonEmpty(parts) && KeepsAt(parts, kept, at)
  {
    kept, at := [], [];
    for n := 0 to |parts|
      invariant kept == NonEmpty(parts[..n]) && KeepsAt(parts[..n], kept, at)
    {
      assert parts[..n + 1][..n] == parts[..n] && parts[..n + 1][n] == parts[n];
      KeepsMore(parts, kept, at, n);
      if parts[n] != "" {
        kept, at := kept + [parts[n]], at + [n];
      }
    }
    assert parts[..|parts|] == parts;
  }

  lemma KeepsMore(parts: seq<string>, kept: seq<string>, at: seq<nat>, n: nat)
    requires n < |parts| && KeepsAt(parts[..n], kept, at)
    ensures if parts[n] == "" then KeepsAt(parts[..n + 1], kept, at) else KeepsAt(parts[..n + 1], kept + [parts[n]], at + [n])
  {
    assert forall i :: 0 <= i < |at| ==> at[i] in at;
    assert n !in at;
  }

  /** The interface as looked up from the innermost `n` scopes. */
  ghost function Candidate(scopes: seq<string>, n: nat, interface: string): string
    requires n <= |scopes|
  {
    if n == 0 then interface else Join(scopes[..n]) + "::" + interface
  }

  lemma {:induction false} JoinLonger(parts: seq<string>, x: string)
    requires parts != []
    ensures |Join(parts + [x])| == |Join(parts)| + 2 + |x|
  {
    if |parts| == 1 {
      assert (parts + [x])[1..] == [x];
    } else {
      assert (parts + [x])[1..] == parts[1..] + [x];
      JoinLonger(parts[1..], x);
    }
  }

  /** Each further scope makes a longer name. */
  lemma CandidateLonger(scopes: seq<string>, n: nat, interface: string)
    requires n < |scopes|
    ensures |Candidate(scopes, n, interface)| < |Candidate(scopes, n + 1, interface)|
  {
    assert scopes[..n + 1] == scopes[..n] + [scopes[n]];
    if n > 0 {
      JoinLonger(scopes[..n], scopes[n]);
    }
  }

  lemma {:induction false} CandidatesLonger(scopes: seq<string>, a: nat, b: nat, interface: string)
    requires a < b <= |scopes|
    ensures |Candidate(scopes, a, interface)| < |Candidate(scopes, b, interface)|
    decreases b
  {
    CandidateLonger(scopes, b - 1, interface);
    if a < b - 1 {
      CandidatesLonger(scopes, a, b - 1, interface);
    }
  }

  /** Every scope prefix once, innermost first. */
  ghost predicate Outward(scopes: seq<string>, interface: string, candidates: seq<string>) {
    && |candidates| == |scopes| + 1
    && forall k :: 0 <= k < |candidates| ==> candidates[k] == Candidate(scopes, |scopes| - k, interface)
  }

  /** The names to try, distinct, from the innermost scope outward; the global
      name alone for an argument that starts with `::`. */
  method RemoteInterfaceCandidates(base: string, scope: string, wrapper: string) returns (candidates: seq<string>)
    ensures (forall x :: !Argument(base, wrapper, x)) ==> candidates == []
    ensures forall x :: Argument(base, wrapper, x) && SepAt(x, 0) ==> candidates == [x[2..]]
    ensures forall x :: Argument(base, wrapper, x) && !SepAt(x, 0) ==> Outward(NonEmpty(Split(scope)), x, candidates)
    ensures NoDup(candidates)
  {
    hide Argument, Split, NonEmpty, Candidate, KeepsAt;
    var r := RemoteInterfaceArgument(base, wrapper);
    if r.None? {
      return [];
    }
    var interface := r.value;
    assert Argument(base, wrapper, interface);
    if SepAt(interface, 0) {
      return [interface[2..]];
    }
    var scopes, at := Segments(Split(scope));
    candidates := ScopesOutward(scopes, interface);
  }

  method ScopesOutward(scopes: seq<string>, interface: string) returns (candidates: seq<string>)
    ensures Outward(scopes, interface, candidates) && NoDup(candidates)
  {
    candidates := [];
    var n := |scopes| + 1;
    while n > 0
      invariant 0 <= n <= |scopes| + 1 && |candidates| == |scopes| + 1 - n
      invariant forall k :: 0 <= k < |candidates| ==> candidates[k] == Candidate(scopes, |scopes| - k, interface)
      invariant NoDup(candidates)
    {
      n := n - 1;
      var candidate := if n == 0 then interface else Join(scopes[..n]) + "::" + interface;
      forall k | 0 <= k < |candidates| ensures candidates[k] != candidate {
        CandidatesLonger(scopes, n, |scopes| - k, interface);
      }
      if candidate !in candidates {
        candidates := candidates + [candidate];
      }
    }
  }
}
