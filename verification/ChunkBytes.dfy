/** The bytes of precompiled chunks one by one: what the writers put at each place, and what the readers make of
    the bytes they find (ldump.c:33-164, lundump.c:44-227), for 4-byte ints and instructions, 8-byte sizes and
    numbers, least significant byte first. */
module ChunkBytes {
  import opened ChunkFormat
  import opened ChunkTree

  // ----- what stands at a position -----

  /** An int in two's complement. */
  predicate IntAt(b: Bytes, i: nat, x: int) {
    && i + 4 <= |b| && (forall k :: i <= k < i + 4 ==> 0 <= b[k] < 256)
    && b[i] + 256 * b[i + 1] + 65536 * b[i + 2] + 16777216 * b[i + 3] == if x < 0 then x + 4294967296 else x
  }

  predicate SizeAt(b: Bytes, i: nat, n: nat) {
    && i + 8 <= |b| && (forall k :: i <= k < i + 8 ==> 0 <= b[k] < 256)
    && b[i] + 256 * b[i + 1] + 65536 * b[i + 2] + 16777216 * b[i + 3] + 4294967296 * b[i + 4]
       + 1099511627776 * b[i + 5] + 281474976710656 * b[i + 6] + 72057594037927936 * b[i + 7] == n
  }

  /** A size with the final zero counted, the bytes and the zero; the size 0 if there is no string. */
  predicate StringAt(b: Bytes, i: nat, s: Option<Bytes>) {
    match s
    case None => SizeAt(b, i, 0)
    case Some(t) =>
      SizeAt(b, i, |t| + 1) && i + 9 + |t| <= |b| && b[i + 8..i + 8 + |t|] == t && b[i + 8 + |t|] == 0
  }

  function StringSize(s: Option<Bytes>): nat { if s.None? then 8 else 9 + |s.value| }

  /** The tag of the type and the value. */
  predicate ConstantAt(b: Bytes, i: nat, k: Constant) {
    i < |b| &&
    match k
    case KNil => b[i] == 0
    case KBool(v) => b[i] == 1 && i + 1 < |b| && b[i + 1] == if v then 1 else 0
    case KNumber(bits) => b[i] == 3 && i + 9 <= |b| && b[i + 1..i + 9] == bits
    case KString(s) => b[i] == 4 && StringAt(b, i + 1, Some(s))
  }

  function ConstantSize(k: Constant): nat {
    match k
    case KNil => 1
    case KBool(_) => 2
    case KNumber(bits) => 9
    case KString(s) => 10 + |s|
  }

  predicate ConstantsAt(b: Bytes, i: nat, ks: seq<Constant>)
    decreases |ks|
  {
    i <= |b| && (ks == [] || (ConstantAt(b, i, ks[0]) && ConstantsAt(b, i + ConstantSize(ks[0]), ks[1..])))
  }

  function ConstantsSize(ks: seq<Constant>): nat {
    if ks == [] then 0 else ConstantSize(ks[0]) + ConstantsSize(ks[1..])
  }

  predicate IntsAt(b: Bytes, i: nat, xs: seq<int>) {
    i + 4 * |xs| <= |b| && forall k :: 0 <= k < |xs| ==> IntAt(b, i + 4 * k, xs[k])
  }

  predicate LocVarsAt(b: Bytes, i: nat, vs: seq<LocVar>)
    decreases |vs|
  {
    i <= |b| &&
    (vs == [] ||
     var n := i + StringSize(vs[0].varname);
     && StringAt(b, i, vs[0].varname) && IntAt(b, n, vs[0].startpc) && IntAt(b, n + 4, vs[0].endpc)
     && LocVarsAt(b, n + 8, vs[1..]))
  }

  function LocVarsSize(vs: seq<LocVar>): nat {
    if vs == [] then 0 else StringSize(vs[0].varname) + 8 + LocVarsSize(vs[1..])
  }

  predicate StringsAt(b: Bytes, i: nat, ss: seq<Option<Bytes>>)
    decreases |ss|
  {
    i <= |b| && (ss == [] || (StringAt(b, i, ss[0]) && StringsAt(b, i + StringSize(ss[0]), ss[1..])))
  }

  function StringsSize(ss: seq<Option<Bytes>>): nat {
    if ss == [] then 0 else StringSize(ss[0]) + StringsSize(ss[1..])
  }

  /** The source, unless it is that of the enclosing function or stripped; the lines; four bytes; and the code. */
  predicate HeadAt(b: Bytes, i: nat, f: Proto, source: Option<Bytes>) {
    var n := i + StringSize(source);
    && StringAt(b, i, source) && IntAt(b, n, f.linedefined) && IntAt(b, n + 4, f.lastlinedefined)
    && n + 12 <= |b| && b[n + 8..n + 12] == [f.nups, f.numparams, f.is_vararg, f.maxstacksize]
    && IntAt(b, n + 12, |f.code|) && IntsAt(b, n + 16, f.code)
  }

  function HeadSize(f: Proto, source: Option<Bytes>): nat { StringSize(source) + 16 + 4 * |f.code| }

  /** Line numbers, local variables and upvalue names, each with their number before them. */
  predicate DebugAt(b: Bytes, i: nat, lines: seq<int>, vars: seq<LocVar>, ups: seq<Option<Bytes>>) {
    var n := i + 4 + 4 * |lines|;
    var m := n + 4 + LocVarsSize(vars);
    && IntAt(b, i, |lines|) && IntsAt(b, i + 4, lines)
    && IntAt(b, n, |vars|) && LocVarsAt(b, n + 4, vars)
    && IntAt(b, m, |ups|) && StringsAt(b, m + 4, ups)
  }

  function DebugSize(lines: seq<int>, vars: seq<LocVar>, ups: seq<Option<Bytes>>): nat {
    12 + 4 * |lines| + LocVarsSize(vars) + StringsSize(ups)
  }

  function SourceOf(f: Proto, p: Option<Bytes>, strip: bool): Option<Bytes> {
    if strip || f.source == p then None else f.source
  }

  /** A function in a function with the source `p`: head, constants, functions inside it, debug information. */
  predicate FunctionAt(b: Bytes, i: nat, f: Proto, p: Option<Bytes>, strip: bool)
    decreases f, |f.p| + 1
  {
    var n := i + HeadSize(f, SourceOf(f, p, strip));
    var m := n + 4 + ConstantsSize(f.k);
    && HeadAt(b, i, f, SourceOf(f, p, strip))
    && IntAt(b, n, |f.k|) && ConstantsAt(b, n + 4, f.k)
    && IntAt(b, m, |f.p|) && FunctionsAt(b, m + 4, f, 0, strip)
    && var d := m + 4 + FunctionsSize(f, 0, strip);
       if strip then DebugAt(b, d, [], [], []) else DebugAt(b, d, f.lineinfo, f.locvars, f.upvalues)
  }

  /** The functions inside `f` from number `k` on. */
  predicate FunctionsAt(b: Bytes, i: nat, f: Proto, k: nat, strip: bool)
    requires k <= |f.p|
    decreases f, |f.p| - k
  {
    k == |f.p| ||
    (&& FunctionAt(b, i, f.p[k], f.source, strip)
     && FunctionsAt(b, i + FunctionSize(f.p[k], f.source, strip), f, k + 1, strip))
  }

  function FunctionSize(f: Proto, p: Option<Bytes>, strip: bool): nat
    decreases f, |f.p| + 1
  {
    HeadSize(f, SourceOf(f, p, strip)) + 8 + ConstantsSize(f.k) + FunctionsSize(f, 0, strip)
    + if strip then DebugSize([], [], []) else DebugSize(f.lineinfo, f.locvars, f.upvalues)
  }

  function FunctionsSize(f: Proto, k: nat, strip: bool): nat
    requires k <= |f.p|
    decreases f, |f.p| - k
  {
    if k == |f.p| then 0 else FunctionSize(f.p[k], f.source, strip) + FunctionsSize(f, k + 1, strip)
  }

  /** Escape and "Lua", version 5.1, official format, little endian, the sizes of int, size_t, instruction and
      number, numbers not integral; then the main function. */
  predicate ChunkAt(b: Bytes, f: Proto, strip: bool) {
    && |b| == 12 + FunctionSize(f, None, strip)
    && b[..12] == [27, 76, 117, 97, 81, 0, 1, 4, 8, 4, 8, 0]
    && FunctionAt(b, 12, f, None, strip)
  }

  // ----- what is written -----

  /** `b` has the bytes `e` from `i` on. */
  predicate Holds(b: Bytes, i: nat, e: Bytes) { i + |e| <= |b| && b[i..i + |e|] == e }

  lemma HoldsParts(b: Bytes, i: nat, e1: Bytes, e2: Bytes)
    requires Holds(b, i, e1 + e2)
    ensures Holds(b, i, e1) && Holds(b, i + |e1|, e2)
  {
    var e := e1 + e2;
    assert b[i..i + |e1|] == e[..|e1|] == e1;
    assert b[i + |e1|..i + |e|] == e[|e1|..] == e2;
  }

  lemma LittleFour(x: nat)
    requires x < 4294967296
    ensures var l := Little(x, 4); l[0] + 256 * l[1] + 65536 * l[2] + 16777216 * l[3] == x
  {
    LittleNext(x, 4);
    LittleNext(x / 256, 3);
    LittleNext(x / 256 / 256, 2);
    LittleNext(x / 256 / 256 / 256, 1);
  }

  lemma LittleNext(x: nat, n: nat)
    requires n > 0
    ensures Little(x, n) == [x % 256] + Little(x / 256, n - 1)
    ensures x == x % 256 + 256 * (x / 256)
  {}

  lemma IntHolds(b: Bytes, i: nat, x: int)
    requires IsInt(x) && Holds(b, i, EncInt(x))
    ensures IntAt(b, i, x) && |EncInt(x)| == 4
  {
    LittleFour(if x < 0 then x + 4294967296 else x);
    var e := EncInt(x);
    assert forall k :: i <= k < i + 4 ==> b[k] == b[i..i + 4][k - i] == e[k - i];
  }

  /** The second of two parts, at a position of its own. */
  lemma HoldsAt(b: Bytes, i: nat, e1: Bytes, e2: Bytes, n: nat)
    requires Holds(b, i, e1 + e2) && n == i + |e1|
    ensures Holds(b, i, e1) && Holds(b, n, e2)
  {
    HoldsParts(b, i, e1, e2);
  }

  /** An int and what follows it. */
  lemma HoldsInt(b: Bytes, i: nat, n: nat, x: int, e: Bytes)
    requires IsInt(x) && n == i + 4 && Holds(b, i, EncInt(x) + e)
    ensures IntAt(b, i, x) && Holds(b, n, e)
  {
    HoldsParts(b, i, EncInt(x), e);
    IntHolds(b, i, x);
  }

  lemma SizeHolds(b: Bytes, i: nat, n: nat)
    requires n < SIZE_LIMIT && Holds(b, i, Little(n, 8))
    ensures SizeAt(b, i, n)
  {
    LittleNext(n, 8);
    LittleNext(n / 256, 7);
    LittleNext(n / 256 / 256, 6);
    LittleNext(n / 256 / 256 / 256, 5);
    var h := n / 256 / 256 / 256 / 256;
    LittleFour(h);
    var e := Little(n, 8);
    assert e == [n % 256] + ([n / 256 % 256] + ([n / 256 / 256 % 256] + ([n / 256 / 256 / 256 % 256] + Little(h, 4))));
    assert forall k :: i <= k < i + 8 ==> b[k] == b[i..i + 8][k - i] == e[k - i];
  }

  lemma StringHolds(b: Bytes, i: nat, s: Option<Bytes>)
    requires StringOk(s) && Holds(b, i, EncString(s))
    ensures StringAt(b, i, s) && |EncString(s)| == StringSize(s)
  {
    match s
    case None => SizeHolds(b, i, 0);
    case Some(t) =>
      HoldsParts(b, i, Little(|t| + 1, 8) + t, [0]);
      HoldsParts(b, i, Little(|t| + 1, 8), t);
      SizeHolds(b, i, |t| + 1);
      assert b[i + 8 + |t|] == b[i + 8 + |t|..i + 9 + |t|][0];
      hide SizeAt, Little;
  }

  lemma ConstantHolds(b: Bytes, i: nat, k: Constant)
    requires ConstantOk(k) && Holds(b, i, EncConstant(k))
    ensures ConstantAt(b, i, k) && |EncConstant(k)| == ConstantSize(k)
  {
    hide EncString, StringAt, StringOk;
    var e := EncConstant(k);
    match k
    case KNil => HoldsTag(b, i, TNIL, []);
    case KBool(v) =>
      HoldsTag(b, i, TBOOLEAN, [if v then 1 else 0]);
      HoldsTag(b, i + 1, if v then 1 else 0, []);
    case KNumber(bits) => HoldsTag(b, i, TNUMBER, bits);
    case KString(s) =>
      HoldsTag(b, i, TSTRING, EncString(Some(s)));
      StringHolds(b, i + 1, Some(s));
  }

  lemma HoldsTag(b: Bytes, i: nat, tag: int, e: Bytes)
    requires Holds(b, i, [tag] + e) || (e == [] && Holds(b, i, [tag]))
    ensures i < |b| && b[i] == tag && Holds(b, i + 1, e)
  {
    assert e == [] ==> [tag] + e == [tag];
    HoldsParts(b, i, [tag], e);
    assert b[i..i + 1][0] == b[i];
  }

  lemma ConstantsEnd(b: Bytes, i: nat, ks: seq<Constant>)
    requires Holds(b, i, EncConstants(ks))
    ensures i <= |b|
  {
    hide EncConstants;
  }

  lemma {:induction false} ConstantsHold(b: Bytes, i: nat, ks: seq<Constant>)
    requires (forall k :: 0 <= k < |ks| ==> ConstantOk(ks[k])) && Holds(b, i, EncConstants(ks))
    ensures ConstantsAt(b, i, ks) && |EncConstants(ks)| == ConstantsSize(ks)
    decreases |ks|
  {
    hide EncConstant, ConstantAt, ConstantSize, ConstantOk, Holds;
    ConstantsEnd(b, i, ks);
    if ks != [] {
      HoldsParts(b, i, EncConstant(ks[0]), EncConstants(ks[1..]));
      ConstantHolds(b, i, ks[0]);
      ConstantsHold(b, i + |EncConstant(ks[0])|, ks[1..]);
    }
  }

  lemma {:induction false} IntsHold(b: Bytes, i: nat, xs: seq<int>)
    requires (forall k :: 0 <= k < |xs| ==> IsInt(xs[k])) && Holds(b, i, EncInts(xs))
    ensures IntsAt(b, i, xs) && |EncInts(xs)| == 4 * |xs|
    decreases |xs|
  {
    if xs != [] {
      HoldsParts(b, i, EncInt(xs[0]), EncInts(xs[1..]));
      IntHolds(b, i, xs[0]);
      IntsHold(b, i + 4, xs[1..]);
      hide *;
      IntsCons(b, i, xs);
    }
  }

  lemma IntsCons(b: Bytes, i: nat, xs: seq<int>)
    requires xs != [] && IntAt(b, i, xs[0]) && IntsAt(b, i + 4, xs[1..])
    ensures IntsAt(b, i, xs)
  {
    hide IntAt;
    forall k | 0 <= k < |xs| ensures IntAt(b, i + 4 * k, xs[k]) {
      if k > 0 {
        assert IntAt(b, i + 4 + 4 * (k - 1), xs[1..][k - 1]);
        assert i + 4 + 4 * (k - 1) == i + 4 * k;
      }
    }
  }

  lemma LocVarHolds(b: Bytes, i: nat, v: LocVar, n: nat, m: nat)
    requires LocVarOk(v) && Holds(b, i, EncLocVar(v)) && n == i + |EncString(v.varname)| && m == n + 4
    ensures StringAt(b, i, v.varname) && |EncString(v.varname)| == StringSize(v.varname)
    ensures IntAt(b, n, v.startpc) && IntAt(b, m, v.endpc) && |EncLocVar(v)| == StringSize(v.varname) + 8
  {
    assert IsInt(v.startpc) && IsInt(v.endpc) && StringOk(v.varname);
    assert EncLocVar(v) == EncString(v.varname) + (EncInt(v.startpc) + EncInt(v.endpc));
    hide *;
    HoldsAt(b, i, EncString(v.varname), EncInt(v.startpc) + EncInt(v.endpc), n);
    HoldsInt(b, n, m, v.startpc, EncInt(v.endpc));
    StringHolds(b, i, v.varname);
    IntHolds(b, m, v.endpc);
  }

  lemma {:induction false} LocVarsHold(b: Bytes, i: nat, vs: seq<LocVar>)
    requires (forall k :: 0 <= k < |vs| ==> LocVarOk(vs[k])) && Holds(b, i, EncLocVars(vs))
    ensures LocVarsAt(b, i, vs) && |EncLocVars(vs)| == LocVarsSize(vs)
    decreases |vs|
  {
    hide EncLocVar, LocVarOk, IntAt, StringAt, StringSize, EncString;
    if vs != [] {
      var v := vs[0];
      var n := i + |EncString(v.varname)|;
      var m := n + 4;
      HoldsParts(b, i, EncLocVar(v), EncLocVars(vs[1..]));
      LocVarHolds(b, i, v, n, m);
      LocVarsHold(b, i + |EncLocVar(v)|, vs[1..]);
    }
  }

  lemma {:induction false} StringsHold(b: Bytes, i: nat, ss: seq<Option<Bytes>>)
    requires (forall k :: 0 <= k < |ss| ==> StringOk(ss[k])) && Holds(b, i, EncStrings(ss))
    ensures StringsAt(b, i, ss) && |EncStrings(ss)| == StringsSize(ss)
    decreases |ss|
  {
    if ss != [] {
      HoldsParts(b, i, EncString(ss[0]), EncStrings(ss[1..]));
      StringHolds(b, i, ss[0]);
      hide EncString, StringAt, StringSize;
      StringsHold(b, i + |EncString(ss[0])|, ss[1..]);
    }
  }

  lemma HeadHolds(b: Bytes, i: nat, f: Proto, source: Option<Bytes>)
    requires HeadOk(HeadOf(f, source)) && Holds(b, i, EncHead(HeadOf(f, source)))
    ensures HeadAt(b, i, f, source) && |EncHead(HeadOf(f, source))| == HeadSize(f, source)
  {
    var n := i + |EncString(source)|;
    var m := n + 8;
    HeadParts(f, source);
    HeadFits(f, source);
    hide *;
    LinesHold(b, i, f, source, n, m);
    FourAndCode(b, m, [f.nups, f.numparams, f.is_vararg, f.maxstacksize], f.code);
    HeadFrom(b, i, f, source, n, m);
  }

  lemma FourAndCode(b: Bytes, i: nat, q: Bytes, code: seq<int>)
    requires |q| == 4 && IsInt(|code|) && forall k :: 0 <= k < |code| ==> IsInt(code[k])
    requires Holds(b, i, q + (EncInt(|code|) + EncInts(code)))
    ensures Holds(b, i, q) && IntAt(b, i + 4, |code|) && IntsAt(b, i + 8, code) && |EncInts(code)| == 4 * |code|
  {
    HoldsParts(b, i, q, EncInt(|code|) + EncInts(code));
    hide *;
    CountedIntsHold(b, i + 4, code);
  }

  lemma CountedIntsHold(b: Bytes, i: nat, xs: seq<int>)
    requires IsInt(|xs|) && (forall k :: 0 <= k < |xs| ==> IsInt(xs[k])) && Holds(b, i, EncInt(|xs|) + EncInts(xs))
    ensures IntAt(b, i, |xs|) && IntsAt(b, i + 4, xs) && |EncInts(xs)| == 4 * |xs|
  {
    HoldsParts(b, i, EncInt(|xs|), EncInts(xs));
    IntHolds(b, i, |xs|);
    IntsHold(b, i + 4, xs);
  }

  /** The source and the two line numbers. */
  lemma LinesHold(b: Bytes, i: nat, f: Proto, source: Option<Bytes>, n: nat, m: nat)
    requires n == i + |EncString(source)| && m == n + 8
    requires StringOk(source) && IsInt(f.linedefined) && IsInt(f.lastlinedefined)
    requires Holds(b, i, EncHead(HeadOf(f, source)))
    ensures StringAt(b, i, source) && n == i + StringSize(source)
    ensures IntAt(b, n, f.linedefined) && IntAt(b, n + 4, f.lastlinedefined)
    ensures Holds(b, m, [f.nups, f.numparams, f.is_vararg, f.maxstacksize] + (EncInt(|f.code|) + EncInts(f.code)))
    ensures |EncHead(HeadOf(f, source))| == |EncString(source)| + 16 + |EncInts(f.code)|
  {
    var e3 := [f.nups, f.numparams, f.is_vararg, f.maxstacksize] + (EncInt(|f.code|) + EncInts(f.code));
    HeadParts(f, source);
    hide *;
    HoldsParts(b, i, EncString(source), EncInt(f.linedefined) + (EncInt(f.lastlinedefined) + e3));
    HoldsParts(b, n, EncInt(f.linedefined), EncInt(f.lastlinedefined) + e3);
    HoldsParts(b, n + 4, EncInt(f.lastlinedefined), e3);
    StringHolds(b, i, source);
    IntHolds(b, n, f.linedefined);
    IntHolds(b, n + 4, f.lastlinedefined);
  }

  lemma HeadParts(f: Proto, source: Option<Bytes>)
    ensures EncHead(HeadOf(f, source)) == EncString(source) + (EncInt(f.linedefined) + (EncInt(f.lastlinedefined)
      + ([f.nups, f.numparams, f.is_vararg, f.maxstacksize] + (EncInt(|f.code|) + EncInts(f.code)))))
  {
    assert EncBytes4(f.nups, f.numparams, f.is_vararg, f.maxstacksize)
      == [f.nups, f.numparams, f.is_vararg, f.maxstacksize];
    hide EncInt, EncString, EncInts, EncBytes4;
  }

  lemma HeadFits(f: Proto, source: Option<Bytes>)
    requires HeadOk(HeadOf(f, source))
    ensures StringOk(source) && IsInt(f.linedefined) && IsInt(f.lastlinedefined) && IsInt(|f.code|)
    ensures forall k :: 0 <= k < |f.code| ==> IsInt(f.code[k])
  {}

  lemma HeadFrom(b: Bytes, i: nat, f: Proto, source: Option<Bytes>, n: nat, m: nat)
    requires n == i + StringSize(source) && m == n + 8 && StringAt(b, i, source)
    requires IntAt(b, n, f.linedefined) && IntAt(b, n + 4, f.lastlinedefined)
    requires Holds(b, m, [f.nups, f.numparams, f.is_vararg, f.maxstacksize])
    requires IntAt(b, m + 4, |f.code|) && IntsAt(b, m + 8, f.code)
    ensures HeadAt(b, i, f, source) && HeadSize(f, source) == StringSize(source) + 16 + 4 * |f.code|
  {
    hide StringAt, StringSize, IntAt, IntsAt;
  }

  lemma DebugHolds(b: Bytes, i: nat, d: Debug)
    requires DebugOk(d) && Holds(b, i, EncDebug(d))
    ensures DebugAt(b, i, d.lineinfo, d.locvars, d.upvalues)
    ensures |EncDebug(d)| == DebugSize(d.lineinfo, d.locvars, d.upvalues)
  {
    var l, v, u := EncInts(d.lineinfo), EncLocVars(d.locvars), EncStrings(d.upvalues);
    var i1, n := i + 4, i + 4 + |l|;
    var n1, m := n + 4, n + 4 + |v|;
    var m1 := m + 4;
    DebugFits(d);
    DebugParts(d);
    hide *;
    HoldsInt(b, i, i1, |d.lineinfo|, l + (EncInt(|d.locvars|) + (v + (EncInt(|d.upvalues|) + u))));
    HoldsAt(b, i1, l, EncInt(|d.locvars|) + (v + (EncInt(|d.upvalues|) + u)), n);
    HoldsInt(b, n, n1, |d.locvars|, v + (EncInt(|d.upvalues|) + u));
    HoldsAt(b, n1, v, EncInt(|d.upvalues|) + u, m);
    HoldsInt(b, m, m1, |d.upvalues|, u);
    IntsHold(b, i1, d.lineinfo);
    LocVarsHold(b, n1, d.locvars);
    StringsHold(b, m1, d.upvalues);
    DebugFrom(b, i, d, n, m);
  }

  lemma DebugFits(d: Debug)
    requires DebugOk(d)
    ensures IsInt(|d.lineinfo|) && IsInt(|d.locvars|) && IsInt(|d.upvalues|)
    ensures forall k :: 0 <= k < |d.lineinfo| ==> IsInt(d.lineinfo[k])
    ensures forall k :: 0 <= k < |d.locvars| ==> LocVarOk(d.locvars[k])
    ensures forall k :: 0 <= k < |d.upvalues| ==> StringOk(d.upvalues[k])
  {}

  lemma DebugParts(d: Debug)
    ensures EncDebug(d) == EncInt(|d.lineinfo|) + (EncInts(d.lineinfo) + (EncInt(|d.locvars|)
      + (EncLocVars(d.locvars) + (EncInt(|d.upvalues|) + EncStrings(d.upvalues)))))
  {
    hide EncInt, EncInts, EncLocVars, EncStrings;
    var v, u := EncInt(|d.locvars|) + EncLocVars(d.locvars), EncInt(|d.upvalues|) + EncStrings(d.upvalues);
    assert v + u == EncInt(|d.locvars|) + (EncLocVars(d.locvars) + u);
    var n, l := EncInt(|d.lineinfo|), EncInts(d.lineinfo);
    assert n + l + (v + u) == n + (l + (v + u));
  }

  lemma DebugFrom(b: Bytes, i: nat, d: Debug, n: nat, m: nat)
    requires n == i + 4 + 4 * |d.lineinfo| && m == n + 4 + LocVarsSize(d.locvars)
    requires IntAt(b, i, |d.lineinfo|) && IntsAt(b, i + 4, d.lineinfo)
    requires IntAt(b, n, |d.locvars|) && LocVarsAt(b, n + 4, d.locvars)
    requires IntAt(b, m, |d.upvalues|) && StringsAt(b, m + 4, d.upvalues)
    ensures DebugAt(b, i, d.lineinfo, d.locvars, d.upvalues)
    ensures DebugSize(d.lineinfo, d.locvars, d.upvalues) == m - i + 4 + StringsSize(d.upvalues)
  {
    hide IntAt, IntsAt, LocVarsAt, StringsAt, LocVarsSize, StringsSize;
  }

  lemma {:induction false} FunctionHolds(b: Bytes, i: nat, f: Proto, p: Option<Bytes>, strip: bool)
    requires ProtoOk(f) && Holds(b, i, EncFunction(f, p, strip))
    ensures FunctionAt(b, i, f, p, strip) && |EncFunction(f, p, strip)| == FunctionSize(f, p, strip)
    decreases f, |f.p| + 1, 1
  {
    var n := i + HeadSize(f, SourceOf(f, p, strip));
    var m := n + 4 + ConstantsSize(f.k);
    var d := m + 4 + |EncProtos(f, 0, strip)|;
    hide *;
    HeadAndConstants(b, i, f, p, strip, n, m);
    InnerHolds(b, m, f, strip, d);
    FunctionFrom(b, i, f, p, strip, n, m, d);
  }

  /** The functions inside and the debug information. */
  lemma InnerHolds(b: Bytes, m: nat, f: Proto, strip: bool, d: nat)
    requires ProtoOk(f) && d == m + 4 + |EncProtos(f, 0, strip)|
    requires Holds(b, m, EncInt(|f.p|) + (EncProtos(f, 0, strip) + EncDebug(DebugOf(f, strip))))
    ensures IntAt(b, m, |f.p|) && FunctionsAt(b, m + 4, f, 0, strip)
    ensures |EncProtos(f, 0, strip)| == FunctionsSize(f, 0, strip)
    ensures var g := DebugOf(f, strip);
      && DebugAt(b, d, g.lineinfo, g.locvars, g.upvalues)
      && |EncDebug(g)| == DebugSize(g.lineinfo, g.locvars, g.upvalues)
    decreases f, |f.p| + 1, 0
  {
    var l := m + 4;
    PartsOk(f, None, strip);
    CountsFit(f);
    hide *;
    HoldsInt(b, m, l, |f.p|, EncProtos(f, 0, strip) + EncDebug(DebugOf(f, strip)));
    HoldsAt(b, l, EncProtos(f, 0, strip), EncDebug(DebugOf(f, strip)), d);
    FunctionsHold(b, l, f, 0, strip);
    DebugHolds(b, d, DebugOf(f, strip));
  }

  lemma HeadAndConstants(b: Bytes, i: nat, f: Proto, p: Option<Bytes>, strip: bool, n: nat, m: nat)
    requires ProtoOk(f) && Holds(b, i, EncFunction(f, p, strip))
    requires n == i + HeadSize(f, SourceOf(f, p, strip)) && m == n + 4 + ConstantsSize(f.k)
    ensures HeadAt(b, i, f, SourceOf(f, p, strip)) && IntAt(b, n, |f.k|) && ConstantsAt(b, n + 4, f.k) && IsInt(|f.p|)
    ensures Holds(b, m, EncInt(|f.p|) + (EncProtos(f, 0, strip) + EncDebug(DebugOf(f, strip))))
    ensures |EncFunction(f, p, strip)| == m - i + 4 + |EncProtos(f, 0, strip)| + |EncDebug(DebugOf(f, strip))|
  {
    var source, l := SourceOf(f, p, strip), n + 4;
    var e, ks := EncHead(HeadOf(f, source)), EncConstants(f.k);
    var rest := EncInt(|f.p|) + (EncProtos(f, 0, strip) + EncDebug(DebugOf(f, strip)));
    PartsOk(f, p, strip);
    assert HeadOk(HeadOf(f, source)) by { hide HeadOk; }
    CountsFit(f);
    FunctionParts(f, p, strip);
    hide *;
    HeadFirst(b, i, f, source, EncInt(|f.k|) + (ks + rest), n);
    HoldsInt(b, n, l, |f.k|, ks + rest);
    ConstantsFirst(b, l, f.k, rest, m);
  }

  lemma HeadFirst(b: Bytes, i: nat, f: Proto, source: Option<Bytes>, rest: Bytes, n: nat)
    requires HeadOk(HeadOf(f, source)) && Holds(b, i, EncHead(HeadOf(f, source)) + rest)
    requires n == i + HeadSize(f, source)
    ensures HeadAt(b, i, f, source) && Holds(b, n, rest) && |EncHead(HeadOf(f, source))| == n - i
  {
    hide *;
    HoldsParts(b, i, EncHead(HeadOf(f, source)), rest);
    HeadHolds(b, i, f, source);
  }

  lemma ConstantsFirst(b: Bytes, i: nat, ks: seq<Constant>, rest: Bytes, n: nat)
    requires (forall k :: 0 <= k < |ks| ==> ConstantOk(ks[k])) && Holds(b, i, EncConstants(ks) + rest)
    requires n == i + ConstantsSize(ks)
    ensures ConstantsAt(b, i, ks) && Holds(b, n, rest) && |EncConstants(ks)| == n - i
  {
    hide *;
    HoldsParts(b, i, EncConstants(ks), rest);
    ConstantsHold(b, i, ks);
  }

  lemma FunctionParts(f: Proto, p: Option<Bytes>, strip: bool)
    ensures EncFunction(f, p, strip) == EncHead(HeadOf(f, SourceOf(f, p, strip))) +
      (EncInt(|f.k|) + (EncConstants(f.k) + (EncInt(|f.p|) + (EncProtos(f, 0, strip) + EncDebug(DebugOf(f, strip))))))
  {
    hide EncHead, EncInt, EncConstants, EncProtos, EncDebug;
    var rest := EncInt(|f.p|) + (EncProtos(f, 0, strip) + EncDebug(DebugOf(f, strip)));
    assert EncInt(|f.k|) + EncConstants(f.k) + rest == EncInt(|f.k|) + (EncConstants(f.k) + rest);
  }

  lemma CountsFit(f: Proto)
    requires ProtoOk(f)
    ensures IsInt(|f.k|) && IsInt(|f.p|) && forall k :: 0 <= k < |f.k| ==> ConstantOk(f.k[k])
  {}

  /** The parts make up the function. */
  lemma FunctionFrom(b: Bytes, i: nat, f: Proto, p: Option<Bytes>, strip: bool, n: nat, m: nat, d: nat)
    requires n == i + HeadSize(f, SourceOf(f, p, strip)) && HeadAt(b, i, f, SourceOf(f, p, strip))
    requires m == n + 4 + ConstantsSize(f.k) && IntAt(b, n, |f.k|) && ConstantsAt(b, n + 4, f.k)
    requires d == m + 4 + FunctionsSize(f, 0, strip) && IntAt(b, m, |f.p|) && FunctionsAt(b, m + 4, f, 0, strip)
    requires DebugAt(b, d, DebugOf(f, strip).lineinfo, DebugOf(f, strip).locvars, DebugOf(f, strip).upvalues)
    ensures FunctionAt(b, i, f, p, strip)
    ensures FunctionSize(f, p, strip) == d - i
      + DebugSize(DebugOf(f, strip).lineinfo, DebugOf(f, strip).locvars, DebugOf(f, strip).upvalues)
  {
    hide HeadAt, IntAt, ConstantsAt, FunctionsAt, DebugAt, HeadSize, ConstantsSize, FunctionsSize, DebugSize;
  }

  lemma {:induction false} FunctionsHold(b: Bytes, i: nat, f: Proto, k: nat, strip: bool)
    requires ProtoOk(f) && k <= |f.p| && Holds(b, i, EncProtos(f, k, strip))
    ensures FunctionsAt(b, i, f, k, strip) && |EncProtos(f, k, strip)| == FunctionsSize(f, k, strip)
    decreases f, |f.p| - k, 0
  {
    hide EncFunction, FunctionAt, FunctionSize, ProtoOk, Holds;
    if k < |f.p| {
      ChildOk(f, k);
      var e := EncFunction(f.p[k], f.source, strip);
      HoldsParts(b, i, e, EncProtos(f, k + 1, strip));
      FunctionHolds(b, i, f.p[k], f.source, strip);
      FunctionsHold(b, i + |e|, f, k + 1, strip);
    }
  }

  /** The whole chunk. */
  lemma ChunkHolds(f: Proto, strip: bool)
    requires ProtoOk(f)
    ensures ChunkAt(EncChunk(f, strip), f, strip)
  {
    var b, e := EncChunk(f, strip), EncFunction(f, None, strip);
    hide EncFunction, FunctionAt, FunctionSize, ProtoOk;
    assert b[12..12 + |e|] == e && b[..12] == Header();
    FunctionHolds(b, 12, f, None, strip);
  }

  // ----- what is read -----

  /** The value of the four bytes from `i` on, the least significant first. */
  function FourValue(b: Bytes, i: nat): int
    requires i + 4 <= |b|
  {
    b[i] + 256 * b[i + 1] + 65536 * b[i + 2] + 16777216 * b[i + 3]
  }

  lemma ValueNext(b: Bytes)
    requires b != []
    ensures Value(b) == b[0] + 256 * Value(b[1..])
  {}

  lemma ValueFour(b: Bytes)
    requires |b| == 4
    ensures Value(b) == FourValue(b, 0)
  {
    ValueNext(b);
    ValueNext(b[1..]);
    ValueNext(b[2..]);
    ValueNext(b[3..]);
    assert b[1..][1..] == b[2..] && b[2..][1..] == b[3..] && b[3..][1..] == [];
  }

  lemma ValueEight(b: Bytes)
    requires |b| == 8
    ensures Value(b) == FourValue(b, 0) + 4294967296 * FourValue(b, 4)
  {
    ValueNext(b);
    ValueNext(b[1..]);
    ValueNext(b[2..]);
    ValueNext(b[3..]);
    assert b[1..][1..] == b[2..] && b[2..][1..] == b[3..] && b[3..][1..] == b[4..];
    ValueFour(b[4..]);
  }

  /** An int: its four bytes, or an error for a negative one. */
  lemma ReadIntMeans(b: Bytes)
    requires AreBytes(b)
    ensures ReadInt(b) ==
      if |b| < 4 then Bad(UnexpectedEnd)
      else if FourValue(b, 0) >= 2147483648 then Bad(BadInteger)
      else Ok(FourValue(b, 0), b[4..])
  {
    if |b| >= 4 { ValueFour(b[..4]); }
  }

  /** A string: the size, and that many bytes, of which the last is dropped; none if the size is 0. */
  lemma ReadStringMeans(b: Bytes)
    requires AreBytes(b)
    ensures |b| < 8 ==> ReadString(b) == Bad(UnexpectedEnd)
    ensures |b| >= 8 ==>
      var n := FourValue(b, 0) + 4294967296 * FourValue(b, 4);
      ReadString(b) ==
        if n == 0 then Ok(None, b[8..])
        else if |b| < 8 + n then Bad(UnexpectedEnd)
        else Ok(Some(b[8..7 + n]), b[8 + n..])
  {
    if |b| >= 8 {
      ValueEight(b[..8]);
      var n := FourValue(b, 0) + 4294967296 * FourValue(b, 4);
      assert Value(b[..8]) == n;
      if 0 < n <= |b| - 8 { assert b[8..][..n][..n - 1] == b[8..7 + n] && b[8..][n..] == b[8 + n..]; }
    }
  }

  /** A constant by its tag: nil, a boolean, eight bytes of a number, or a string. */
  lemma ReadConstantMeans(b: Bytes)
    ensures b == [] ==> ReadConstant(b) == Bad(UnexpectedEnd)
    ensures b != [] && b[0] == 0 ==> ReadConstant(b) == Ok(KNil, b[1..])
    ensures b != [] && b[0] == 1 ==>
      ReadConstant(b) == if |b| < 2 then Bad(UnexpectedEnd) else Ok(KBool(b[1] != 0), b[2..])
    ensures b != [] && b[0] == 3 ==>
      ReadConstant(b) == if |b| < 9 then Bad(UnexpectedEnd) else Ok(KNumber(b[1..9]), b[9..])
    ensures b != [] && b[0] == 4 ==>
      match ReadString(b[1..])
      case Bad(e) => ReadConstant(b) == Bad(e)
      case Ok(s, rest) => ReadConstant(b) == Ok(KString(if s.Some? then s.value else []), rest)
    ensures ReadConstant(b) == Bad(BadConstant) <==> b != [] && b[0] !in {0, 1, 3, 4}
  {
    hide ReadString;
    if b != [] {
      assert b[..1][0] == b[0];
      StringNotBad(b[1..]);
      if |b| >= 2 { assert b[1..][..1][0] == b[1] && b[1..][1..] == b[2..]; }
      if |b| >= 9 { assert b[1..][..8] == b[1..9] && b[1..][8..] == b[9..]; }
    }
  }

  lemma StringNotBad(b: Bytes)
    ensures ReadString(b) != Bad(BadConstant)
  {}

  /** The header is compared whole, and functions without a source get the name "=?". */
  lemma ReadChunkMeans(b: Bytes, depth: nat, check: Checker)
    ensures |b| < 12 ==> ReadChunk(b, depth, check) == Bad(UnexpectedEnd)
    ensures |b| >= 12 && b[..12] != [27, 76, 117, 97, 81, 0, 1, 4, 8, 4, 8, 0] ==>
      ReadChunk(b, depth, check) == Bad(BadHeader)
    ensures |b| >= 12 && b[..12] == [27, 76, 117, 97, 81, 0, 1, 4, 8, 4, 8, 0] ==>
      ReadChunk(b, depth, check) == ReadFunction(b[12..], Some([61, 63]), depth, check)
  {
    hide ReadFunction;
  }
}
