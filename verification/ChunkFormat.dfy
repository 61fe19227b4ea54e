/** The format of precompiled chunks (ldump.c, lundump.c): how prototypes are written as bytes, how bytes
    are read as prototypes, and that reading undoes writing. */
module ChunkFormat {

  datatype Option<+T> = None | Some(value: T)

  type Bytes = seq<int>

  predicate AreBytes(b: Bytes) { forall i :: 0 <= i < |b| ==> 0 <= b[i] < 256 }

  /** A number is its eight bytes. */
  datatype Constant = KNil | KBool(b: bool) | KNumber(bits: Bytes) | KString(s: Bytes)

  datatype LocVar = LocVar(varname: Option<Bytes>, startpc: int, endpc: int)

  datatype Proto = Proto(
    source: Option<Bytes>, linedefined: int, lastlinedefined: int,
    nups: int, numparams: int, is_vararg: int, maxstacksize: int,
    code: seq<int>, k: seq<Constant>, p: seq<Proto>,
    lineinfo: seq<int>, locvars: seq<LocVar>, upvalues: seq<Option<Bytes>>)

  const TNIL := 0
  const TBOOLEAN := 1
  const TNUMBER := 3
  const TSTRING := 4

  // ----- integers -----

  function Pow256(n: nat): nat { if n == 0 then 1 else 256 * Pow256(n - 1) }

  function Little(x: nat, n: nat): (b: Bytes)
    ensures |b| == n && AreBytes(b)
  {
    if n == 0 then [] else [x % 256] + Little(x / 256, n - 1)
  }

  function Value(b: Bytes): int { if b == [] then 0 else b[0] + 256 * Value(b[1..]) }

  lemma {:induction false} LittleValue(x: nat, n: nat)
    requires x < Pow256(n)
    ensures Value(Little(x, n)) == x
  {
    if n > 0 { LittleValue(x / 256, n - 1); }
  }

  const INT_LIMIT := 0x8000_0000

  /** An int is written as it is in memory, in two's complement. */
  function EncInt(x: int): (b: Bytes)
    ensures |b| == 4
  {
    Little(if 0 <= x then x else if x + 2 * INT_LIMIT >= 0 then x + 2 * INT_LIMIT else 0, 4)
  }

  function DecInt(b: Bytes): int {
    var v := Value(b);
    if v < INT_LIMIT then v else v - 2 * INT_LIMIT
  }

  predicate IsInt(x: int) { -INT_LIMIT <= x < INT_LIMIT }

  lemma IntBack(x: int)
    requires IsInt(x)
    ensures DecInt(EncInt(x)) == x
  {
    assert Pow256(4) == 2 * INT_LIMIT by { assert Pow256(1) == 256 && Pow256(2) == 65536; }
    LittleValue(if 0 <= x then x else x + 2 * INT_LIMIT, 4);
  }

  // ----- results of reading -----

  datatype Error = UnexpectedEnd | BadInteger | BadConstant | TooDeep | BadCode | BadHeader

  datatype Res<+T> = Ok(v: T, rest: Bytes) | Bad(e: Error)

  function Take(b: Bytes, n: nat): Res<Bytes> {
    if |b| < n then Bad(UnexpectedEnd) else Ok(b[..n], b[n..])
  }

  lemma TakeBack(a: Bytes, rest: Bytes)
    ensures Take(a + rest, |a|) == Ok(a, rest)
  {
    assert (a + rest)[..|a|] == a && (a + rest)[|a|..] == rest;
  }

  function ReadByte(b: Bytes): Res<int> {
    match Take(b, 1) case Bad(e) => Bad(e) case Ok(x, r) => Ok(x[0], r)
  }

  lemma ByteBack(x: int, rest: Bytes)
    ensures ReadByte([x] + rest) == Ok(x, rest)
  {
    TakeBack([x], rest);
  }

  /** LoadInt (lundump.c:61-67) */
  function ReadInt(b: Bytes): Res<int> {
    match Take(b, 4) case Bad(e) => Bad(e) case Ok(x, r) => if DecInt(x) < 0 then Bad(BadInteger) else Ok(DecInt(x), r)
  }

  lemma ReadIntBack(x: int, rest: Bytes)
    requires 0 <= x < INT_LIMIT
    ensures ReadInt(EncInt(x) + rest) == Ok(x, rest)
  {
    TakeBack(EncInt(x), rest);
    IntBack(x);
  }

  // ----- strings -----

  const SIZE_LIMIT := 0x1_0000_0000_0000_0000

  predicate StringOk(s: Option<Bytes>) { s.Some? ==> AreBytes(s.value) && |s.value| + 1 < SIZE_LIMIT }

  /** DumpString (ldump.c:61-74): the length with the final zero, or 0 for no string at all. */
  function EncString(s: Option<Bytes>): Bytes {
    match s
    case None => Little(0, 8)
    case Some(t) => Little(|t| + 1, 8) + t + [0]
  }

  /** LoadString (lundump.c:76-88) */
  function ReadString(b: Bytes): Res<Option<Bytes>> {
    match Take(b, 8)
    case Bad(e) => Bad(e)
    case Ok(x, r) =>
      var size := Value(x);
      if size <= 0 then Ok(None, r)
      else match Take(r, size) case Bad(e) => Bad(e) case Ok(t, r') => Ok(Some(t[..size - 1]), r')
  }

  lemma PowSize()
    ensures Pow256(8) == SIZE_LIMIT
  {
    assert Pow256(2) == 65536;
    assert Pow256(4) == 0x1_0000_0000;
    assert Pow256(6) == 0x1_0000_0000_0000;
  }

  lemma StringBack(s: Option<Bytes>, rest: Bytes)
    requires StringOk(s)
    ensures ReadString(EncString(s) + rest) == Ok(s, rest)
  {
    PowSize();
    hide Little, Value, Pow256, Take;
    match s
    case None =>
      LittleValue(0, 8);
      TakeBack(Little(0, 8), rest);
    case Some(t) =>
      var size := |t| + 1;
      LittleValue(size, 8);
      assert EncString(s) + rest == Little(size, 8) + (t + [0] + rest);
      TakeBack(Little(size, 8), t + [0] + rest);
      TakeBack(t + [0], rest);
      assert (t + [0])[..size - 1] == t;
  }

  // ----- vectors of ints and instructions -----

  function EncInts(xs: seq<int>): Bytes {
    if xs == [] then [] else EncInt(xs[0]) + EncInts(xs[1..])
  }

  /** The loop of LoadVector, one element at a time. */
  function ReadInts(b: Bytes, n: nat, acc: seq<int>): Res<seq<int>>
    decreases n
  {
    if n == 0 then Ok(acc, b)
    else match Take(b, 4) case Bad(e) => Bad(e) case Ok(x, r) => ReadInts(r, n - 1, acc + [DecInt(x)])
  }

  predicate AreInts(xs: seq<int>) { |xs| < INT_LIMIT && forall i :: 0 <= i < |xs| ==> IsInt(xs[i]) }

  lemma {:induction false} IntsBack(xs: seq<int>, acc: seq<int>, rest: Bytes)
    requires AreInts(xs)
    ensures ReadInts(EncInts(xs) + rest, |xs|, acc) == Ok(acc + xs, rest)
    decreases |xs|
  {
    if xs == [] {
      assert [] + rest == rest && acc + xs == acc;
    } else {
      assert EncInts(xs) + rest == EncInt(xs[0]) + (EncInts(xs[1..]) + rest);
      TakeBack(EncInt(xs[0]), EncInts(xs[1..]) + rest);
      IntBack(xs[0]);
      IntsBack(xs[1..], acc + [xs[0]], rest);
      assert acc + [xs[0]] + xs[1..] == acc + xs;
    }
  }

  // ----- constants -----

  predicate ConstantOk(k: Constant) {
    match k
    case KNil => true
    case KBool(_) => true
    case KNumber(bits) => |bits| == 8 && AreBytes(bits)
    case KString(s) => StringOk(Some(s))
  }

  function EncConstant(k: Constant): Bytes {
    match k
    case KNil => [TNIL]
    case KBool(b) => [TBOOLEAN] + [if b then 1 else 0]
    case KNumber(bits) => [TNUMBER] + bits
    case KString(s) => [TSTRING] + EncString(Some(s))
  }

  /** LoadConstants, one constant (lundump.c:107-128). A string constant without a string is no constant the
      dumper writes; reading makes it empty. */
  function ReadConstant(b: Bytes): Res<Constant> {
    match ReadByte(b)
    case Bad(e) => Bad(e)
    case Ok(t, r) =>
      if t == TNIL then Ok(KNil, r)
      else if t == TBOOLEAN then (match ReadByte(r) case Bad(e) => Bad(e) case Ok(x, r') => Ok(KBool(x != 0), r'))
      else if t == TNUMBER then (match Take(r, 8) case Bad(e) => Bad(e) case Ok(x, r') => Ok(KNumber(x), r'))
      else if t == TSTRING then
        (match ReadString(r)
         case Bad(e) => Bad(e)
         case Ok(s, r') => Ok(KString(if s.Some? then s.value else []), r'))
      else Bad(BadConstant)
  }

  lemma ConstantBack(k: Constant, rest: Bytes)
    requires ConstantOk(k)
    ensures ReadConstant(EncConstant(k) + rest) == Ok(k, rest)
  {
    match k
    case KNil => ByteBack(TNIL, rest);
    case KBool(b) =>
      var x := if b then 1 else 0;
      assert [TBOOLEAN] + [x] + rest == [TBOOLEAN] + ([x] + rest);
      ByteBack(TBOOLEAN, [x] + rest);
      ByteBack(x, rest);
    case KNumber(bits) =>
      assert [TNUMBER] + bits + rest == [TNUMBER] + (bits + rest);
      ByteBack(TNUMBER, bits + rest);
      TakeBack(bits, rest);
    case KString(s) =>
      assert [TSTRING] + EncString(Some(s)) + rest == [TSTRING] + (EncString(Some(s)) + rest);
      ByteBack(TSTRING, EncString(Some(s)) + rest);
      StringBack(Some(s), rest);
  }

  function EncConstants(ks: seq<Constant>): Bytes {
    if ks == [] then [] else EncConstant(ks[0]) + EncConstants(ks[1..])
  }

  function ReadConstants(b: Bytes, n: nat, acc: seq<Constant>): Res<seq<Constant>>
    decreases n
  {
    if n == 0 then Ok(acc, b)
    else match ReadConstant(b) case Bad(e) => Bad(e) case Ok(k, r) => ReadConstants(r, n - 1, acc + [k])
  }

  lemma {:induction false} ConstantsBack(ks: seq<Constant>, acc: seq<Constant>, rest: Bytes)
    requires forall i :: 0 <= i < |ks| ==> ConstantOk(ks[i])
    ensures ReadConstants(EncConstants(ks) + rest, |ks|, acc) == Ok(acc + ks, rest)
    decreases |ks|
  {
    hide EncConstant, ReadConstant;
    if ks == [] {
      assert [] + rest == rest && acc + ks == acc;
    } else {
      assert EncConstants(ks) + rest == EncConstant(ks[0]) + (EncConstants(ks[1..]) + rest);
      ConstantBack(ks[0], EncConstants(ks[1..]) + rest);
      ConstantsBack(ks[1..], acc + [ks[0]], rest);
      assert acc + [ks[0]] + ks[1..] == acc + ks;
    }
  }

  // ----- debug information -----

  predicate LocVarOk(v: LocVar) { StringOk(v.varname) && 0 <= v.startpc < INT_LIMIT && 0 <= v.endpc < INT_LIMIT }

  function EncLocVar(v: LocVar): Bytes { EncString(v.varname) + EncInt(v.startpc) + EncInt(v.endpc) }

  function ReadLocVar(b: Bytes): Res<LocVar> {
    match ReadString(b)
    case Bad(e) => Bad(e)
    case Ok(s, r) =>
      match ReadInt(r)
      case Bad(e) => Bad(e)
      case Ok(x, r1) => match ReadInt(r1) case Bad(e) => Bad(e) case Ok(y, r2) => Ok(LocVar(s, x, y), r2)
  }

  lemma LocVarBack(v: LocVar, rest: Bytes)
    requires LocVarOk(v)
    ensures ReadLocVar(EncLocVar(v) + rest) == Ok(v, rest)
  {
    assert EncLocVar(v) + rest == EncString(v.varname) + (EncInt(v.startpc) + (EncInt(v.endpc) + rest));
    StringBack(v.varname, EncInt(v.startpc) + (EncInt(v.endpc) + rest));
    ReadIntBack(v.startpc, EncInt(v.endpc) + rest);
    ReadIntBack(v.endpc, rest);
  }

  function EncLocVars(vs: seq<LocVar>): Bytes {
    if vs == [] then [] else EncLocVar(vs[0]) + EncLocVars(vs[1..])
  }

  function ReadLocVars(b: Bytes, n: nat, acc: seq<LocVar>): Res<seq<LocVar>>
    decreases n
  {
    if n == 0 then Ok(acc, b)
    else match ReadLocVar(b) case Bad(e) => Bad(e) case Ok(v, r) => ReadLocVars(r, n - 1, acc + [v])
  }

  lemma {:induction false} LocVarsBack(vs: seq<LocVar>, acc: seq<LocVar>, rest: Bytes)
    requires forall i :: 0 <= i < |vs| ==> LocVarOk(vs[i])
    ensures ReadLocVars(EncLocVars(vs) + rest, |vs|, acc) == Ok(acc + vs, rest)
    decreases |vs|
  {
    hide EncLocVar, ReadLocVar;
    if vs == [] {
      assert [] + rest == rest && acc + vs == acc;
    } else {
      assert EncLocVars(vs) + rest == EncLocVar(vs[0]) + (EncLocVars(vs[1..]) + rest);
      LocVarBack(vs[0], EncLocVars(vs[1..]) + rest);
      LocVarsBack(vs[1..], acc + [vs[0]], rest);
      assert acc + [vs[0]] + vs[1..] == acc + vs;
    }
  }

  function EncStrings(ss: seq<Option<Bytes>>): Bytes {
    if ss == [] then [] else EncString(ss[0]) + EncStrings(ss[1..])
  }

  function ReadStrings(b: Bytes, n: nat, acc: seq<Option<Bytes>>): Res<seq<Option<Bytes>>>
    decreases n
  {
    if n == 0 then Ok(acc, b)
    else match ReadString(b) case Bad(e) => Bad(e) case Ok(s, r) => ReadStrings(r, n - 1, acc + [s])
  }

  lemma {:induction false} StringsBack(ss: seq<Option<Bytes>>, acc: seq<Option<Bytes>>, rest: Bytes)
    requires forall i :: 0 <= i < |ss| ==> StringOk(ss[i])
    ensures ReadStrings(EncStrings(ss) + rest, |ss|, acc) == Ok(acc + ss, rest)
    decreases |ss|
  {
    hide EncString, ReadString;
    if ss == [] {
      assert [] + rest == rest && acc + ss == acc;
    } else {
      assert EncStrings(ss) + rest == EncString(ss[0]) + (EncStrings(ss[1..]) + rest);
      StringBack(ss[0], EncStrings(ss[1..]) + rest);
      StringsBack(ss[1..], acc + [ss[0]], rest);
      assert acc + [ss[0]] + ss[1..] == acc + ss;
    }
  }

  // ----- prototypes -----

  /** The fields before the constants. */
  datatype Head = Head(
    source: Option<Bytes>, linedefined: int, lastlinedefined: int,
    nups: int, numparams: int, is_vararg: int, maxstacksize: int, code: seq<int>)

  datatype Debug = Debug(lineinfo: seq<int>, locvars: seq<LocVar>, upvalues: seq<Option<Bytes>>)

  function Counted(n: int, b: Bytes): Bytes { EncInt(n) + b }

  function EncBytes4(a: int, b: int, c: int, d: int): Bytes { [a] + ([b] + ([c] + [d])) }

  function EncHead(h: Head): Bytes {
    EncString(h.source) + (EncInt(h.linedefined) + (EncInt(h.lastlinedefined)
    + (EncBytes4(h.nups, h.numparams, h.is_vararg, h.maxstacksize) + Counted(|h.code|, EncInts(h.code)))))
  }

  function ReadCountedInts(b: Bytes): Res<seq<int>> {
    match ReadInt(b) case Bad(e) => Bad(e) case Ok(n, r) => ReadInts(r, n, [])
  }

  function ReadBytes4(b: Bytes): Res<(int, int, int, int)> {
    match ReadByte(b)
    case Bad(e) => Bad(e)
    case Ok(x, r) =>
      match ReadByte(r)
      case Bad(e) => Bad(e)
      case Ok(y, r1) =>
        match ReadByte(r1)
        case Bad(e) => Bad(e)
        case Ok(z, r2) => match ReadByte(r2) case Bad(e) => Bad(e) case Ok(w, r3) => Ok((x, y, z, w), r3)
  }

  /** LoadFunction up to LoadCode (lundump.c:167-174) */
  function ReadHead(b: Bytes): Res<Head> {
    match ReadString(b)
    case Bad(e) => Bad(e)
    case Ok(s, r) =>
      match ReadInt(r)
      case Bad(e) => Bad(e)
      case Ok(l, r1) =>
        match ReadInt(r1)
        case Bad(e) => Bad(e)
        case Ok(ll, r2) =>
          match ReadBytes4(r2)
          case Bad(e) => Bad(e)
          case Ok(q, r3) =>
            match ReadCountedInts(r3)
            case Bad(e) => Bad(e)
            case Ok(code, r4) => Ok(Head(s, l, ll, q.0, q.1, q.2, q.3, code), r4)
  }

  predicate IsNat(x: int) { 0 <= x < INT_LIMIT }

  predicate HeadOk(h: Head) {
    && StringOk(h.source) && IsNat(h.linedefined) && IsNat(h.lastlinedefined) && AreInts(h.code)
    && AreBytes([h.nups, h.numparams, h.is_vararg, h.maxstacksize])
  }

  lemma CountedIntsBack(xs: seq<int>, rest: Bytes)
    requires AreInts(xs)
    ensures ReadCountedInts(Counted(|xs|, EncInts(xs)) + rest) == Ok(xs, rest)
  {
    hide EncInts, ReadInts, EncInt, ReadInt;
    assert Counted(|xs|, EncInts(xs)) + rest == EncInt(|xs|) + (EncInts(xs) + rest);
    ReadIntBack(|xs|, EncInts(xs) + rest);
    IntsBack(xs, [], rest);
    assert [] + xs == xs;
  }

  lemma Bytes4Back(a: int, b: int, c: int, d: int, rest: Bytes)
    ensures ReadBytes4(EncBytes4(a, b, c, d) + rest) == Ok((a, b, c, d), rest)
  {
    hide ReadByte;
    assert EncBytes4(a, b, c, d) + rest == [a] + ([b] + ([c] + ([d] + rest)));
    ByteBack(a, [b] + ([c] + ([d] + rest)));
    ByteBack(b, [c] + ([d] + rest));
    ByteBack(c, [d] + rest);
    ByteBack(d, rest);
  }

  lemma HeadBack(h: Head, rest: Bytes)
    requires HeadOk(h)
    ensures ReadHead(EncHead(h) + rest) == Ok(h, rest)
  {
    hide EncInts, EncInt, ReadInt, EncString, ReadString, ReadBytes4, EncBytes4, ReadCountedInts, Counted, Little;
    var c := Counted(|h.code|, EncInts(h.code));
    var q := EncBytes4(h.nups, h.numparams, h.is_vararg, h.maxstacksize);
    var r1 := EncInt(h.linedefined) + (EncInt(h.lastlinedefined) + (q + (c + rest)));
    assert EncHead(h) + rest == EncString(h.source) + r1;
    StringBack(h.source, r1);
    ReadIntBack(h.linedefined, EncInt(h.lastlinedefined) + (q + (c + rest)));
    ReadIntBack(h.lastlinedefined, q + (c + rest));
    Bytes4Back(h.nups, h.numparams, h.is_vararg, h.maxstacksize, c + rest);
    CountedIntsBack(h.code, rest);
  }

  function EncCountedConstants(ks: seq<Constant>): Bytes { Counted(|ks|, EncConstants(ks)) }

  function ReadCountedConstants(b: Bytes): Res<seq<Constant>> {
    match ReadInt(b) case Bad(e) => Bad(e) case Ok(n, r) => ReadConstants(r, n, [])
  }

  predicate ConstantsOk(ks: seq<Constant>) { |ks| < INT_LIMIT && forall i :: 0 <= i < |ks| ==> ConstantOk(ks[i]) }

  lemma CountedConstantsBack(ks: seq<Constant>, rest: Bytes)
    requires ConstantsOk(ks)
    ensures ReadCountedConstants(EncCountedConstants(ks) + rest) == Ok(ks, rest)
  {
    hide EncConstants, ReadConstants, EncInt, ReadInt;
    assert EncCountedConstants(ks) + rest == EncInt(|ks|) + (EncConstants(ks) + rest);
    ReadIntBack(|ks|, EncConstants(ks) + rest);
    ConstantsBack(ks, [], rest);
    assert [] + ks == ks;
  }

  /** DumpDebug (ldump.c:111-127) */
  function EncDebug(d: Debug): Bytes {
    Counted(|d.lineinfo|, EncInts(d.lineinfo))
    + (Counted(|d.locvars|, EncLocVars(d.locvars)) + Counted(|d.upvalues|, EncStrings(d.upvalues)))
  }

  function ReadCountedLocVars(b: Bytes): Res<seq<LocVar>> {
    match ReadInt(b) case Bad(e) => Bad(e) case Ok(n, r) => ReadLocVars(r, n, [])
  }

  function ReadCountedStrings(b: Bytes): Res<seq<Option<Bytes>>> {
    match ReadInt(b) case Bad(e) => Bad(e) case Ok(n, r) => ReadStrings(r, n, [])
  }

  /** LoadDebug (lundump.c:137-159) */
  function ReadDebug(b: Bytes): Res<Debug> {
    match ReadCountedInts(b)
    case Bad(e) => Bad(e)
    case Ok(li, r) =>
      match ReadCountedLocVars(r)
      case Bad(e) => Bad(e)
      case Ok(lv, r1) => match ReadCountedStrings(r1) case Bad(e) => Bad(e) case Ok(up, r2) => Ok(Debug(li, lv, up), r2)
  }

  predicate DebugOk(d: Debug) {
    && AreInts(d.lineinfo) && |d.locvars| < INT_LIMIT && |d.upvalues| < INT_LIMIT
    && (forall i :: 0 <= i < |d.locvars| ==> LocVarOk(d.locvars[i]))
    && (forall i :: 0 <= i < |d.upvalues| ==> StringOk(d.upvalues[i]))
  }

  lemma DebugBack(d: Debug, rest: Bytes)
    requires DebugOk(d)
    ensures ReadDebug(EncDebug(d) + rest) == Ok(d, rest)
  {
    hide EncInts, ReadInts, EncInt, ReadInt, ReadCountedInts, EncLocVars, ReadLocVars, EncStrings, ReadStrings;
    hide LocVarOk, StringOk;
    var a, b, c := EncInts(d.lineinfo), EncLocVars(d.locvars), EncStrings(d.upvalues);
    var r2 := EncInt(|d.upvalues|) + (c + rest);
    var r1 := EncInt(|d.locvars|) + (b + r2);
    assert EncDebug(d) + rest == Counted(|d.lineinfo|, a) + r1;
    CountedIntsBack(d.lineinfo, r1);
    ReadIntBack(|d.locvars|, b + r2);
    LocVarsBack(d.locvars, [], r2);
    ReadIntBack(|d.upvalues|, c + rest);
    StringsBack(d.upvalues, [], rest);
    assert [] + d.locvars == d.locvars && [] + d.upvalues == d.upvalues;
  }
}
