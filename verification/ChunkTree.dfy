/** Whole prototypes (ldump.c:80-164, lundump.c:100-209): writing a tree of functions and reading it back. */
module ChunkTree {
  import opened ChunkFormat

  const MAXCCALLS := 200

  // ----- writing -----

  function HeadOf(f: Proto, source: Option<Bytes>): Head {
    Head(source, f.linedefined, f.lastlinedefined, f.nups, f.numparams, f.is_vararg, f.maxstacksize, f.code)
  }

  function DebugOf(f: Proto, strip: bool): Debug {
    if strip then Debug([], [], []) else Debug(f.lineinfo, f.locvars, f.upvalues)
  }

  /** DumpFunction (ldump.c:129-141), under a parent with source `p`: an inherited source is left out. */
  function EncFunction(f: Proto, p: Option<Bytes>, strip: bool): Bytes
    decreases f, |f.p| + 1
  {
    EncHead(HeadOf(f, if f.source == p || strip then None else f.source))
    + (EncCountedConstants(f.k) + (EncInt(|f.p|) + (EncProtos(f, 0, strip) + EncDebug(DebugOf(f, strip)))))
  }

  function EncProtos(f: Proto, i: nat, strip: bool): Bytes
    requires i <= |f.p|
    decreases f, |f.p| - i
  {
    if i == |f.p| then [] else EncFunction(f.p[i], f.source, strip) + EncProtos(f, i + 1, strip)
  }

  // ----- reading -----

  type Checker = Proto -> bool

  function Assemble(h: Head, p: Option<Bytes>, k: seq<Constant>, ps: seq<Proto>, d: Debug): Proto {
    Proto(if h.source.None? then p else h.source, h.linedefined, h.lastlinedefined,
          h.nups, h.numparams, h.is_vararg, h.maxstacksize,
          h.code, k, ps, d.lineinfo, d.locvars, d.upvalues)
  }

  /** LoadFunction (lundump.c:161-181), under a parent with source `p` and inside `depth` C calls. */
  function ReadFunction(b: Bytes, p: Option<Bytes>, depth: nat, check: Checker): Res<Proto>
    decreases if depth <= MAXCCALLS then MAXCCALLS - depth + 1 else 0, 0
  {
    if depth + 1 > MAXCCALLS then Bad(TooDeep)
    else match ReadHead(b)
      case Bad(e) => Bad(e)
      case Ok(h, r) =>
        match ReadCountedConstants(r)
        case Bad(e) => Bad(e)
        case Ok(k, r1) =>
          match ReadInt(r1)
          case Bad(e) => Bad(e)
          case Ok(n, r2) =>
            var source := if h.source.None? then p else h.source;
            match ReadProtos(r2, n, [], source, depth + 1, check)
            case Bad(e) => Bad(e)
            case Ok(ps, r3) =>
              match ReadDebug(r3)
              case Bad(e) => Bad(e)
              case Ok(d, r4) =>
                var f := Assemble(h, p, k, ps, d);
                if check(f) then Ok(f, r4) else Bad(BadCode)
  }

  function ReadProtos(b: Bytes, n: nat, acc: seq<Proto>, p: Option<Bytes>, depth: nat, check: Checker): Res<seq<Proto>>
    decreases if depth <= MAXCCALLS then MAXCCALLS - depth + 1 else 0, n + 1
  {
    if n == 0 then Ok(acc, b)
    else match ReadFunction(b, p, depth, check)
      case Bad(e) => Bad(e)
      case Ok(f, r) => ReadProtos(r, n - 1, acc + [f], p, depth, check)
  }

  // ----- what comes back -----

  /** The prototype that is read for `f`, written under a parent with source `p` and read under one with `q`. */
  function Loaded(f: Proto, p: Option<Bytes>, q: Option<Bytes>, strip: bool): Proto
    decreases f, |f.p| + 1
  {
    var source := if f.source == p || strip || f.source.None? then q else f.source;
    var d := DebugOf(f, strip);
    f.(source := source, p := LoadedFrom(f, 0, source, strip), lineinfo := d.lineinfo, locvars := d.locvars,
      upvalues := d.upvalues)
  }

  function LoadedFrom(f: Proto, i: nat, q: Option<Bytes>, strip: bool): seq<Proto>
    requires i <= |f.p|
    decreases f, |f.p| - i
  {
    if i == |f.p| then [] else [Loaded(f.p[i], f.source, q, strip)] + LoadedFrom(f, i + 1, q, strip)
  }

  /** The fields fit the types of the C structure. */
  predicate ProtoOk(f: Proto) {
    && HeadOk(HeadOf(f, f.source)) && ConstantsOk(f.k) && DebugOk(DebugOf(f, false)) && |f.p| < INT_LIMIT
    && forall i :: 0 <= i < |f.p| ==> ProtoOk(f.p[i])
  }

  /** How deep functions are nested. */
  function Nesting(f: Proto): nat
    decreases f, |f.p| + 1
  {
    1 + NestingFrom(f, 0)
  }

  function NestingFrom(f: Proto, i: nat): nat
    requires i <= |f.p|
    decreases f, |f.p| - i
  {
    if i == |f.p| then 0 else Max(Nesting(f.p[i]), NestingFrom(f, i + 1))
  }

  function Max(a: nat, b: nat): nat { if a < b then b else a }

  /** The checker accepts the function and those inside it. */
  ghost predicate Accepted(f: Proto, check: Checker) {
    check(f) && forall i :: 0 <= i < |f.p| ==> Accepted(f.p[i], check)
  }

  lemma {:induction false} FunctionBack(f: Proto, p: Option<Bytes>, q: Option<Bytes>, strip: bool, depth: nat,
      check: Checker, rest: Bytes)
    requires ProtoOk(f) && depth + Nesting(f) <= MAXCCALLS && Accepted(Loaded(f, p, q, strip), check)
    ensures ReadFunction(EncFunction(f, p, strip) + rest, q, depth, check) == Ok(Loaded(f, p, q, strip), rest)
    decreases f, |f.p| + 1
  {
    hide EncHead, ReadHead, EncCountedConstants, ReadCountedConstants, EncInt, ReadInt, EncDebug, ReadDebug, HeadOk;
    hide ConstantsOk, DebugOk, StringOk, Accepted, ProtoOk, EncProtos, ReadProtos, LoadedFrom, NestingFrom;
    var h, d := HeadOf(f, if f.source == p || strip then None else f.source), DebugOf(f, strip);
    var source := if h.source.None? then q else h.source;
    var r4 := EncDebug(d) + rest;
    var r3 := EncProtos(f, 0, strip) + r4;
    var r2 := EncInt(|f.p|) + r3;
    var r1 := EncCountedConstants(f.k) + r2;
    assert EncFunction(f, p, strip) + rest == EncHead(h) + r1 by {
      Regroup(EncHead(h), EncCountedConstants(f.k), EncInt(|f.p|), EncProtos(f, 0, strip), EncDebug(d), rest);
    }
    PartsOk(f, p, strip);
    HeadBack(h, r1);
    CountedConstantsBack(f.k, r2);
    ReadIntBack(|f.p|, r3);
    ChildrenAccepted(f, p, q, strip, check);
    ProtosBack(f, 0, source, strip, depth + 1, check, [], r4);
    DebugBack(d, rest);
    assert [] + LoadedFrom(f, 0, source, strip) == LoadedFrom(f, 0, source, strip);
  }

  lemma Regroup(a: Bytes, b: Bytes, c: Bytes, d: Bytes, e: Bytes, r: Bytes)
    ensures a + (b + (c + (d + e))) + r == a + (b + (c + (d + (e + r))))
  {}

  lemma PartsOk(f: Proto, p: Option<Bytes>, strip: bool)
    requires ProtoOk(f)
    ensures HeadOk(HeadOf(f, if f.source == p || strip then None else f.source)) && DebugOk(DebugOf(f, strip))
    ensures ConstantsOk(f.k)
    ensures |f.p| < INT_LIMIT
  {}

  lemma ChildOk(f: Proto, i: nat)
    requires ProtoOk(f) && i < |f.p|
    ensures ProtoOk(f.p[i])
  {}

  lemma ChildrenAccepted(f: Proto, p: Option<Bytes>, q: Option<Bytes>, strip: bool, check: Checker)
    requires Accepted(Loaded(f, p, q, strip), check)
    ensures var source := if f.source == p || strip || f.source.None? then q else f.source;
      forall k :: 0 <= k < |f.p| ==> Accepted(Loaded(f.p[k], f.source, source, strip), check)
    ensures check(Loaded(f, p, q, strip))
  {
    var g := Loaded(f, p, q, strip);
    LoadedAt(f, 0, g.source, strip);
    forall k | 0 <= k < |f.p| ensures Accepted(Loaded(f.p[k], f.source, g.source, strip), check) {
      assert g.p[k] == Loaded(f.p[k], f.source, g.source, strip);
    }
  }

  lemma {:induction false} LoadedAt(f: Proto, i: nat, q: Option<Bytes>, strip: bool)
    requires i <= |f.p|
    ensures |LoadedFrom(f, i, q, strip)| == |f.p| - i
    ensures forall k :: i <= k < |f.p| ==> LoadedFrom(f, i, q, strip)[k - i] == Loaded(f.p[k], f.source, q, strip)
    decreases |f.p| - i
  {
    if i < |f.p| { LoadedAt(f, i + 1, q, strip); }
  }

  lemma {:induction false} NestingAt(f: Proto, i: nat, k: nat)
    requires i <= k < |f.p|
    ensures Nesting(f.p[k]) <= NestingFrom(f, i)
    decreases |f.p| - i
  {
    if i < k { NestingAt(f, i + 1, k); }
  }

  lemma {:induction false} ProtosBack(f: Proto, i: nat, q: Option<Bytes>, strip: bool, depth: nat, check: Checker,
      acc: seq<Proto>, rest: Bytes)
    requires ProtoOk(f) && i <= |f.p| && depth + NestingFrom(f, 0) <= MAXCCALLS
    requires forall k :: 0 <= k < |f.p| ==> Accepted(Loaded(f.p[k], f.source, q, strip), check)
    ensures ReadProtos(EncProtos(f, i, strip) + rest, |f.p| - i, acc, q, depth, check)
      == Ok(acc + LoadedFrom(f, i, q, strip), rest)
    decreases f, |f.p| - i
  {
    hide *;
    if i == |f.p| {
      NoMore(f, q, strip, depth, check, acc, rest);
    } else {
      ChildOk(f, i);
      var g, next := Loaded(f.p[i], f.source, q, strip), LoadedFrom(f, i + 1, q, strip);
      var r := EncProtos(f, i + 1, strip) + rest;
      StepIs(f, i, q, strip, acc, rest);
      NestingAt(f, 0, i);
      FunctionBack(f.p[i], f.source, q, strip, depth, check, r);
      ReadNext(EncFunction(f.p[i], f.source, strip) + r, |f.p| - i, acc, q, depth, check, g, r);
      ProtosBack(f, i + 1, q, strip, depth, check, acc + [g], rest);
    }
  }

  // ----- functions nested too deep -----

  /** A tree that is nested deeper than the C calls allow is refused, even if all else is accepted. */
  lemma {:induction false} FunctionTooDeep(
      f: Proto, p: Option<Bytes>, q: Option<Bytes>, strip: bool, depth: nat, check: Checker, rest: Bytes)
    requires ProtoOk(f) && depth + Nesting(f) > MAXCCALLS && Accepted(Loaded(f, p, q, strip), check)
    ensures ReadFunction(EncFunction(f, p, strip) + rest, q, depth, check) == Bad(TooDeep)
    decreases f, |f.p| + 1
  {
    hide EncHead, ReadHead, EncCountedConstants, ReadCountedConstants, EncInt, ReadInt, EncDebug, ReadDebug, HeadOk;
    hide ConstantsOk, DebugOk, StringOk, Accepted, ProtoOk, EncProtos, ReadProtos, LoadedFrom, NestingFrom;
    if depth < MAXCCALLS {
      var h, d := HeadOf(f, if f.source == p || strip then None else f.source), DebugOf(f, strip);
      var source := if h.source.None? then q else h.source;
      var r3 := EncProtos(f, 0, strip) + (EncDebug(d) + rest);
      var r2 := EncInt(|f.p|) + r3;
      var r1 := EncCountedConstants(f.k) + r2;
      assert EncFunction(f, p, strip) + rest == EncHead(h) + r1 by {
        Regroup(EncHead(h), EncCountedConstants(f.k), EncInt(|f.p|), EncProtos(f, 0, strip), EncDebug(d), rest);
      }
      PartsOk(f, p, strip);
      HeadBack(h, r1);
      CountedConstantsBack(f.k, r2);
      ReadIntBack(|f.p|, r3);
      ChildrenAccepted(f, p, q, strip, check);
      ProtosTooDeep(f, 0, source, strip, depth + 1, check, [], EncDebug(d) + rest);
    }
  }

  lemma {:induction false} ProtosTooDeep(
      f: Proto, i: nat, q: Option<Bytes>, strip: bool, depth: nat, check: Checker, acc: seq<Proto>, rest: Bytes)
    requires ProtoOk(f) && i <= |f.p| && depth + NestingFrom(f, i) > MAXCCALLS >= depth
    requires forall k :: 0 <= k < |f.p| ==> Accepted(Loaded(f.p[k], f.source, q, strip), check)
    ensures ReadProtos(EncProtos(f, i, strip) + rest, |f.p| - i, acc, q, depth, check) == Bad(TooDeep)
    decreases f, |f.p| - i
  {
    hide *;
    NestingStep(f, i);
    if i < |f.p| {
      ChildOk(f, i);
      var g, r := Loaded(f.p[i], f.source, q, strip), EncProtos(f, i + 1, strip) + rest;
      var b := EncFunction(f.p[i], f.source, strip);
      StepIs(f, i, q, strip, acc, rest);
      if depth + Nesting(f.p[i]) > MAXCCALLS {
        FunctionTooDeep(f.p[i], f.source, q, strip, depth, check, r);
        ReadBad(b + r, |f.p| - i, acc, q, depth, check);
      } else {
        FunctionBack(f.p[i], f.source, q, strip, depth, check, r);
        ReadNext(b + r, |f.p| - i, acc, q, depth, check, g, r);
        ProtosTooDeep(f, i + 1, q, strip, depth, check, acc + [g], rest);
      }
    }
  }

  lemma NestingStep(f: Proto, i: nat)
    requires i <= |f.p|
    ensures i == |f.p| ==> NestingFrom(f, i) == 0
    ensures i < |f.p| ==> NestingFrom(f, i) <= Nesting(f.p[i]) || NestingFrom(f, i) <= NestingFrom(f, i + 1)
  {}

  lemma ReadBad(b: Bytes, n: nat, acc: seq<Proto>, p: Option<Bytes>, depth: nat, check: Checker)
    requires n > 0 && ReadFunction(b, p, depth, check) == Bad(TooDeep)
    ensures ReadProtos(b, n, acc, p, depth, check) == Bad(TooDeep)
  {
    hide ReadFunction;
  }

  lemma NoMore(f: Proto, q: Option<Bytes>, strip: bool, depth: nat, check: Checker, acc: seq<Proto>, rest: Bytes)
    ensures ReadProtos(EncProtos(f, |f.p|, strip) + rest, 0, acc, q, depth, check)
      == Ok(acc + LoadedFrom(f, |f.p|, q, strip), rest)
  {
    assert EncProtos(f, |f.p|, strip) + rest == rest;
    assert acc + LoadedFrom(f, |f.p|, q, strip) == acc;
  }

  lemma StepIs(f: Proto, i: nat, q: Option<Bytes>, strip: bool, acc: seq<Proto>, rest: Bytes)
    requires i < |f.p|
    ensures EncProtos(f, i, strip) + rest == EncFunction(f.p[i], f.source, strip) + (EncProtos(f, i + 1, strip) + rest)
    ensures acc + [Loaded(f.p[i], f.source, q, strip)] + LoadedFrom(f, i + 1, q, strip)
      == acc + LoadedFrom(f, i, q, strip)
  {
    hide EncFunction, Loaded;
  }

  lemma ReadNext(b: Bytes, n: nat, acc: seq<Proto>, p: Option<Bytes>, depth: nat, check: Checker, f: Proto, r: Bytes)
    requires n > 0 && ReadFunction(b, p, depth, check) == Ok(f, r)
    ensures ReadProtos(b, n, acc, p, depth, check) == ReadProtos(r, n - 1, acc + [f], p, depth, check)
  {
    hide ReadFunction;
  }

  // ----- when the same prototype comes back -----

  /** Every function knows its source. */
  predicate Named(f: Proto) { f.source.Some? && forall i :: 0 <= i < |f.p| ==> Named(f.p[i]) }

  /** Without stripping, what comes back is the prototype itself exactly when every function has a source. */
  lemma {:induction false} SameBack(f: Proto, p: Option<Bytes>, q: Option<Bytes>)
    requires q.Some? && (p == q || p.None?)
    ensures Loaded(f, p, q, false) == f <==> Named(f)
    decreases f
  {
    var g := Loaded(f, p, q, false);
    LoadedAt(f, 0, g.source, false);
    if f.source.Some? {
      forall i | 0 <= i < |f.p| ensures Loaded(f.p[i], f.source, f.source, false) == f.p[i] <==> Named(f.p[i]) {
        SameBack(f.p[i], f.source, f.source);
      }
      if Named(f) {
        assert g.p == f.p;
      } else {
        var i :| 0 <= i < |f.p| && !Named(f.p[i]);
        assert g.p[i] != f.p[i];
      }
    }
  }

  /** All debug information erased, and one source for all. */
  ghost predicate StrippedOf(f: Proto, g: Proto, q: Option<Bytes>)
    decreases f
  {
    && g == f.(source := q, p := g.p, lineinfo := [], locvars := [], upvalues := []) && |g.p| == |f.p|
    && forall i :: 0 <= i < |f.p| ==> StrippedOf(f.p[i], g.p[i], q)
  }

  lemma {:induction false} StripsBack(f: Proto, p: Option<Bytes>, q: Option<Bytes>)
    ensures StrippedOf(f, Loaded(f, p, q, true), q)
    decreases f
  {
    var g := Loaded(f, p, q, true);
    LoadedStrip(f, p, q);
    hide Loaded, LoadedFrom;
    forall i | 0 <= i < |f.p| ensures StrippedOf(f.p[i], g.p[i], q) {
      StripsBack(f.p[i], f.source, q);
    }
  }

  lemma LoadedStrip(f: Proto, p: Option<Bytes>, q: Option<Bytes>)
    ensures var g := Loaded(f, p, q, true);
      && g == f.(source := q, p := g.p, lineinfo := [], locvars := [], upvalues := []) && |g.p| == |f.p|
      && forall i :: 0 <= i < |f.p| ==> g.p[i] == Loaded(f.p[i], f.source, q, true)
  {
    LoadedAt(f, 0, q, true);
    var g := Loaded(f, p, q, true);
    forall i | 0 <= i < |f.p| ensures g.p[i] == Loaded(f.p[i], f.source, q, true) {
      assert LoadedFrom(f, 0, q, true)[i - 0] == Loaded(f.p[i], f.source, q, true);
    }
  }

  /** Nothing lost, and functions without a source have that of the function around them. */
  ghost predicate InheritsOf(f: Proto, g: Proto, q: Option<Bytes>)
    decreases f
  {
    && g == f.(source := if f.source.Some? then f.source else q, p := g.p) && |g.p| == |f.p|
    && forall i :: 0 <= i < |f.p| ==> InheritsOf(f.p[i], g.p[i], g.source)
  }

  lemma {:induction false} InheritsBack(f: Proto, p: Option<Bytes>, q: Option<Bytes>)
    requires p.Some? ==> p == q
    ensures InheritsOf(f, Loaded(f, p, q, false), q)
    decreases f
  {
    var g := Loaded(f, p, q, false);
    LoadedAt(f, 0, g.source, false);
    forall i | 0 <= i < |f.p| ensures InheritsOf(f.p[i], g.p[i], g.source) {
      assert g.p[i] == LoadedFrom(f, 0, g.source, false)[i - 0] == Loaded(f.p[i], f.source, g.source, false);
      InheritsBack(f.p[i], f.source, g.source);
    }
  }

  // ----- chunks -----

  /** The header (lundump.c:214-227) for 4-byte ints, 8-byte sizes, 4-byte instructions and 8-byte numbers. */
  function Header(): Bytes { [27, 76, 117, 97, 0x51, 0, 1, 4, 8, 4, 8, 0] }

  /** luaU_dump (ldump.c:153-164) */
  function EncChunk(f: Proto, strip: bool): Bytes { Header() + EncFunction(f, None, strip) }

  /** The source name of functions that come without one: "=?". */
  function Unknown(): Option<Bytes> { Some([61, 63]) }

  /** luaU_undump (lundump.c:195-209) */
  function ReadChunk(b: Bytes, depth: nat, check: Checker): Res<Proto> {
    match Take(b, |Header()|)
    case Bad(e) => Bad(e)
    case Ok(h, r) => if h != Header() then Bad(BadHeader) else ReadFunction(r, Unknown(), depth, check)
  }

  /** Reading a dumped prototype gives it back, with its debug information erased if stripped. */
  lemma ChunkBack(f: Proto, strip: bool, depth: nat, check: Checker, rest: Bytes)
    requires ProtoOk(f) && depth + Nesting(f) <= MAXCCALLS && Accepted(Loaded(f, None, Unknown(), strip), check)
    ensures ReadChunk(EncChunk(f, strip) + rest, depth, check) == Ok(Loaded(f, None, Unknown(), strip), rest)
    ensures !strip ==> (Loaded(f, None, Unknown(), strip) == f <==> Named(f))
    ensures !strip ==> InheritsOf(f, Loaded(f, None, Unknown(), strip), Some([61, 63]))
    ensures strip ==> StrippedOf(f, Loaded(f, None, Unknown(), strip), Some([61, 63]))
  {
    hide ReadFunction, EncFunction, Loaded;
    assert EncChunk(f, strip) + rest == Header() + (EncFunction(f, None, strip) + rest);
    TakeBack(Header(), EncFunction(f, None, strip) + rest);
    FunctionBack(f, None, Unknown(), strip, depth, check, rest);
    SameBack(f, None, Unknown());
    StripsBack(f, None, Unknown());
    InheritsBack(f, None, Unknown());
  }

  /** With every function accepted, a dumped chunk is refused as too deep exactly beyond the nesting limit. */
  lemma ChunkTooDeep(f: Proto, strip: bool, depth: nat, check: Checker, rest: Bytes)
    requires ProtoOk(f) && Accepted(Loaded(f, None, Unknown(), strip), check)
    ensures ReadChunk(EncChunk(f, strip) + rest, depth, check) == Bad(TooDeep) <==> depth + Nesting(f) > 200
  {
    hide ReadFunction, EncFunction, Loaded, Nesting, ProtoOk, Accepted;
    assert EncChunk(f, strip) + rest == Header() + (EncFunction(f, None, strip) + rest);
    TakeBack(Header(), EncFunction(f, None, strip) + rest);
    if depth + Nesting(f) > MAXCCALLS {
      FunctionTooDeep(f, None, Unknown(), strip, depth, check, rest);
    } else {
      ChunkBack(f, strip, depth, check, rest);
    }
  }
}
