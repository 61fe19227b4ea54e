/** The writers of ldump.c, the buffered stream of lzio.c and the readers of lundump.c, as they run. */
module ChunkIO {
  import opened ChunkFormat
  import opened ChunkTree
  import opened ChunkBytes

  // ----- writing -----

  class DumpState {
    var out: Bytes
    const strip: bool

    constructor (strip: bool)
      ensures out == [] && this.strip == strip
    {
      out, this.strip := [], strip;
    }

    /** DumpBlock (ldump.c:29-37), to a writer that does not fail */
    method DumpBlock(b: Bytes)
      modifies this
      ensures out == old(out) + b
    {
      out := out + b;
    }

    /** DumpString (ldump.c:61-74) */
    method DumpString(s: Option<Bytes>)
      modifies this
      ensures out == old(out) + EncString(s)
    {
      match s
      case None => DumpBlock(Little(0, 8));
      case Some(t) =>
        DumpBlock(Little(|t| + 1, 8));
        DumpBlock(t + [0]);
        assert old(out) + Little(|t| + 1, 8) + (t + [0]) == old(out) + EncString(s);
    }

    /** DumpConstants (ldump.c:80-109) */
    method DumpConstants(ks: seq<Constant>)
      modifies this
      ensures out == old(out) + EncCountedConstants(ks)
    {
      Assoc(out, EncInt(|ks|), EncConstants(ks));
      hide EncConstant, EncConstants, EncInt;
      DumpBlock(EncInt(|ks|));
      ghost var start := out;
      var i := 0;
      WholeConstants(out, ks);
      while i < |ks|
        invariant 0 <= i <= |ks| && out + EncConstants(ks[i..]) == start + EncConstants(ks)
      {
        ConstantStep(out, ks, i);
        DumpConstant(ks[i]);
        i := i + 1;
      }
      EndConstants(out, ks);
    }

    method DumpConstant(k: Constant)
      modifies this
      ensures out == old(out) + EncConstant(k)
    {
      hide EncString;
      match k
      case KNil => DumpBlock([TNIL]);
      case KBool(b) =>
        Assoc(out, [TBOOLEAN], [if b then 1 else 0]);
        DumpBlock([TBOOLEAN]);
        DumpBlock([if b then 1 else 0]);
      case KNumber(bits) =>
        Assoc(out, [TNUMBER], bits);
        DumpBlock([TNUMBER]);
        DumpBlock(bits);
      case KString(s) =>
        Assoc(out, [TSTRING], EncString(Some(s)));
        DumpBlock([TSTRING]);
        DumpString(Some(s));
    }

    /** DumpDebug (ldump.c:111-127) */
    method DumpDebug(f: Proto)
      modifies this
      ensures out == old(out) + EncDebug(DebugOf(f, strip))
    {
      var d := DebugOf(f, strip);
      DumpBlock(EncInt(|d.lineinfo|));
      DumpBlock(EncInts(d.lineinfo));
      DumpBlock(EncInt(|d.locvars|));
      DumpLocVars(d.locvars);
      DumpBlock(EncInt(|d.upvalues|));
      DumpStrings(d.upvalues);
      Regrouped(old(out), EncInt(|d.lineinfo|), EncInts(d.lineinfo), EncInt(|d.locvars|), EncLocVars(d.locvars),
        EncInt(|d.upvalues|), EncStrings(d.upvalues));
    }

    method DumpLocVars(vs: seq<LocVar>)
      modifies this
      ensures out == old(out) + EncLocVars(vs)
    {
      hide EncLocVars, EncLocVar;
      var i := 0;
      assert vs[0..] == vs;
      while i < |vs|
        invariant 0 <= i <= |vs| && out + EncLocVars(vs[i..]) == old(out) + EncLocVars(vs)
      {
        LocVarStep(out, vs, i);
        DumpLocVar(vs[i]);
        i := i + 1;
      }
      EndLocVars(out, vs);
    }

    method DumpLocVar(v: LocVar)
      modifies this
      ensures out == old(out) + EncLocVar(v)
    {
      hide EncString, EncInt;
      DumpString(v.varname);
      DumpBlock(EncInt(v.startpc));
      DumpBlock(EncInt(v.endpc));
      LocVarParts(old(out), v);
    }

    method DumpStrings(ss: seq<Option<Bytes>>)
      modifies this
      ensures out == old(out) + EncStrings(ss)
    {
      hide EncStrings, EncString;
      var i := 0;
      assert ss[0..] == ss;
      while i < |ss|
        invariant 0 <= i <= |ss| && out + EncStrings(ss[i..]) == old(out) + EncStrings(ss)
      {
        StringStep(out, ss, i);
        DumpString(ss[i]);
        i := i + 1;
      }
      EndStrings(out, ss);
    }

    /** DumpFunction (ldump.c:129-141) */
    method DumpFunction(f: Proto, p: Option<Bytes>)
      modifies this
      ensures out == old(out) + EncFunction(f, p, strip)
      decreases f, |f.p| + 1
    {
      hide EncHead, EncCountedConstants, EncProtos, EncDebug, EncInt;
      var h := HeadOf(f, if f.source == p || strip then None else f.source);
      DumpHead(h);
      DumpConstants(f.k);
      DumpBlock(EncInt(|f.p|));
      DumpProtos(f);
      DumpDebug(f);
      Regroup(EncHead(h), EncCountedConstants(f.k), EncInt(|f.p|), EncProtos(f, 0, strip),
        EncDebug(DebugOf(f, strip)), []);
      Chain(old(out), EncHead(h), EncCountedConstants(f.k), EncInt(|f.p|), EncProtos(f, 0, strip),
        EncDebug(DebugOf(f, strip)));
    }

    method DumpHead(h: Head)
      modifies this
      ensures out == old(out) + EncHead(h)
    {
      hide EncString, EncInt, EncBytes4, EncInts;
      DumpString(h.source);
      DumpBlock(EncInt(h.linedefined));
      DumpBlock(EncInt(h.lastlinedefined));
      DumpBlock(EncBytes4(h.nups, h.numparams, h.is_vararg, h.maxstacksize));
      DumpBlock(Counted(|h.code|, EncInts(h.code)));
      Chain(old(out), EncString(h.source), EncInt(h.linedefined), EncInt(h.lastlinedefined),
            EncBytes4(h.nups, h.numparams, h.is_vararg, h.maxstacksize), Counted(|h.code|, EncInts(h.code)));
    }

    method DumpProtos(f: Proto)
      modifies this
      ensures out == old(out) + EncProtos(f, 0, strip)
      decreases f, |f.p|
    {
      hide EncFunction;
      var i := 0;
      while i < |f.p|
        invariant 0 <= i <= |f.p| && out + EncProtos(f, i, strip) == old(out) + EncProtos(f, 0, strip)
      {
        ghost var before := out;
        DumpFunction(f.p[i], f.source);
        assert before + EncProtos(f, i, strip) == out + EncProtos(f, i + 1, strip);
        i := i + 1;
      }
    }
  }

  lemma Assoc(a: Bytes, b: Bytes, c: Bytes)
    ensures a + b + c == a + (b + c)
  {}

  lemma WholeConstants(out: Bytes, ks: seq<Constant>)
    ensures out + EncConstants(ks[0..]) == out + EncConstants(ks)
  {
    assert ks[0..] == ks;
  }

  lemma ConstantStep(out: Bytes, ks: seq<Constant>, i: nat)
    requires i < |ks|
    ensures out + EncConstants(ks[i..]) == (out + EncConstant(ks[i])) + EncConstants(ks[i + 1..])
  {
    assert ks[i..][1..] == ks[i + 1..];
    Assoc(out, EncConstant(ks[i]), EncConstants(ks[i + 1..]));
  }

  lemma EndConstants(out: Bytes, ks: seq<Constant>)
    ensures out + EncConstants(ks[|ks|..]) == out
  {
    assert ks[|ks|..] == [];
  }

  lemma LocVarStep(out: Bytes, vs: seq<LocVar>, i: nat)
    requires i < |vs|
    ensures out + EncLocVars(vs[i..]) == (out + EncLocVar(vs[i])) + EncLocVars(vs[i + 1..])
  {
    assert vs[i..][1..] == vs[i + 1..];
    Assoc(out, EncLocVar(vs[i]), EncLocVars(vs[i + 1..]));
  }

  lemma EndLocVars(out: Bytes, vs: seq<LocVar>)
    ensures out + EncLocVars(vs[|vs|..]) == out
  {
    assert vs[|vs|..] == [];
  }

  lemma LocVarParts(out: Bytes, v: LocVar)
    ensures out + EncString(v.varname) + EncInt(v.startpc) + EncInt(v.endpc) == out + EncLocVar(v)
  {
    var a, b, c := EncString(v.varname), EncInt(v.startpc), EncInt(v.endpc);
    assert out + a + b + c == out + (a + b + c);
  }

  lemma StringStep(out: Bytes, ss: seq<Option<Bytes>>, i: nat)
    requires i < |ss|
    ensures out + EncStrings(ss[i..]) == (out + EncString(ss[i])) + EncStrings(ss[i + 1..])
  {
    assert ss[i..][1..] == ss[i + 1..];
    Assoc(out, EncString(ss[i]), EncStrings(ss[i + 1..]));
  }

  lemma EndStrings(out: Bytes, ss: seq<Option<Bytes>>)
    ensures out + EncStrings(ss[|ss|..]) == out
  {
    assert ss[|ss|..] == [];
  }

  lemma Regrouped(o: Bytes, a: Bytes, b: Bytes, c: Bytes, d: Bytes, e: Bytes, f: Bytes)
    ensures o + a + b + c + d + e + f == o + ((a + b) + ((c + d) + (e + f)))
  {}

  lemma Chain(o: Bytes, a: Bytes, b: Bytes, c: Bytes, d: Bytes, e: Bytes)
    ensures o + a + b + c + d + e == o + (a + (b + (c + (d + e))))
  {}

  /** luaU_dump (ldump.c:153-164) */
  method Dump(f: Proto, strip: bool) returns (b: Bytes)
    ensures b == EncChunk(f, strip) && (ProtoOk(f) ==> ChunkAt(b, f, strip))
  {
    hide ProtoOk, ChunkAt, EncFunction;
    if ProtoOk(f) { ChunkHolds(f, strip); }
    var d := new DumpState(strip);
    d.DumpBlock(Header());
    d.DumpFunction(f, None);
    b := d.out;
  }

  // ----- the stream -----

  /** What a reader that hands out `chunks` delivers; an empty chunk is the end. */
  function Flat(chunks: seq<Bytes>): Bytes {
    if chunks == [] || chunks[0] == [] then [] else chunks[0] + Flat(chunks[1..])
  }

  /** One chunk delivers its bytes, and chunks one after the other what each delivers; so it does not matter where
      the bytes are cut. */
  lemma {:induction false} FlatJoins(a: seq<Bytes>, b: seq<Bytes>)
    requires forall i :: 0 <= i < |a| ==> a[i] != []
    ensures Flat(a + b) == Flat(a) + Flat(b)
    ensures |a| == 1 ==> Flat(a) == a[0]
    decreases |a|
  {
    if a == [] {
      assert a + b == b;
    } else {
      assert (a + b)[0] == a[0] && (a + b)[1..] == a[1..] + b;
      FlatJoins(a[1..], b);
    }
  }

  lemma Shifted(b: Bytes, cur: Bytes, m: nat, more: Bytes)
    requires m <= |cur|
    ensures b + (cur + more) == b + cur[..m] + (cur[m..] + more)
  {}

  class Zio {
    var cur: Bytes
    var chunks: seq<Bytes>

    constructor (chunks: seq<Bytes>)
      ensures Content() == Flat(chunks)
    {
      cur, this.chunks := [], chunks;
    }

    ghost function Content(): Bytes
      reads this
    {
      cur + Flat(chunks)
    }

    /** luaZ_fill (lzio.c:21-32), without taking the first byte */
    method Fill() returns (ok: bool)
      requires cur == []
      modifies this
      ensures ok ==> Content() == old(Content()) && cur != []
      ensures !ok ==> old(Content()) == []
    {
      if chunks == [] { return false; }
      var buff := chunks[0];
      chunks := chunks[1..];
      if buff == [] { return false; }
      cur := buff;
      return true;
    }

    /** luaZ_lookahead (lzio.c:35-45) */
    method Lookahead() returns (c: Option<int>)
      modifies this
      ensures c.Some? ==> cur != [] && c.value == cur[0] && Content() == old(Content())
      ensures c.None? ==> old(Content()) == []
    {
      if cur == [] {
        var ok := Fill();
        if !ok { return None; }
      }
      return Some(cur[0]);
    }

    /** luaZ_read (lzio.c:58-71): the next `n` bytes, however they are split into chunks. */
    method Read(n0: nat) returns (missing: nat, b: Bytes)
      modifies this
      ensures missing == 0 <==> |old(Content())| >= n0
      ensures missing == 0 ==> b == old(Content())[..n0] && Content() == old(Content())[n0..]
    {
      var n := n0;
      b := [];
      ghost var c0 := Content();
      assert b + Content() == c0;
      hide Flat;
      while n > 0
        invariant 0 <= n <= n0 && |b| == n0 - n && b + Content() == c0
        decreases n
      {
        ghost var b0 := b;
        var c := Lookahead();
        if c == None {
          assert c0 == b0;
          return n, b;
        }
        var m := if n <= |cur| then n else |cur|;
        b := b + cur[..m];
        Shifted(b0, cur, m, Flat(chunks));
        cur := cur[m..];
        n := n - m;
      }
      missing := 0;
      assert c0[..n0] == b && c0[n0..] == Content();
    }
  }

  // ----- reading -----

  datatype Out<+T> = Good(v: T) | Failed(e: Error)

  /** A reader gave what the format says of the bytes it found, and left the rest. */
  ghost predicate Tracks<T>(r: Out<T>, left: Bytes, spec: Res<T>) {
    match spec
    case Ok(v, rest) => r == Good(v) && left == rest
    case Bad(e) => r == Failed(e)
  }

  class LoadState {
    const z: Zio
    const check: Checker
    var depth: nat

    constructor (z: Zio, check: Checker, depth: nat)
      ensures this.z == z && this.check == check && this.depth == depth
    {
      this.z, this.check, this.depth := z, check, depth;
    }

    /** LoadBlock (lundump.c:48-52) */
    method LoadBlock(n: nat) returns (r: Out<Bytes>)
      modifies z
      ensures Tracks(r, z.Content(), Take(old(z.Content()), n))
    {
      var missing, b := z.Read(n);
      r := if missing != 0 then Failed(UnexpectedEnd) else Good(b);
    }

    method LoadByte() returns (r: Out<int>)
      modifies z
      ensures Tracks(r, z.Content(), ReadByte(old(z.Content())))
    {
      var b := LoadBlock(1);
      r := if b.Failed? then Failed(b.e) else Good(b.v[0]);
    }

    /** LoadInt (lundump.c:61-67) */
    method LoadInt() returns (r: Out<int>)
      modifies z
      ensures Tracks(r, z.Content(), ReadInt(old(z.Content())))
      ensures r.Good? ==> r.v >= 0
    {
      hide DecInt;
      var b := LoadBlock(4);
      if b.Failed? { return Failed(b.e); }
      var x := DecInt(b.v);
      r := if x < 0 then Failed(BadInteger) else Good(x);
    }

    /** LoadString (lundump.c:76-88) */
    method LoadString() returns (r: Out<Option<Bytes>>)
      modifies z
      ensures Tracks(r, z.Content(), ReadString(old(z.Content())))
    {
      hide Value;
      var b := LoadBlock(8);
      if b.Failed? { return Failed(b.e); }
      var size := Value(b.v);
      if size <= 0 { return Good(None); }
      var s := LoadBlock(size);
      if s.Failed? { return Failed(s.e); }
      r := Good(Some(s.v[..size - 1]));
    }

    method LoadInts() returns (r: Out<seq<int>>)
      modifies z
      ensures Tracks(r, z.Content(), ReadCountedInts(old(z.Content())))
    {
      hide ReadInt, DecInt;
      ghost var b0 := z.Content();
      var n := LoadInt();
      if n.Failed? { return Failed(n.e); }
      var acc, left := [], n.v;
      while left > 0
        invariant left >= 0 && ReadCountedInts(b0) == ReadInts(z.Content(), left, acc)
      {
        var x := LoadBlock(4);
        if x.Failed? { return Failed(x.e); }
        acc, left := acc + [DecInt(x.v)], left - 1;
      }
      r := Good(acc);
    }

    /** One constant (lundump.c:107-128) */
    method LoadConstant() returns (r: Out<Constant>)
      modifies z
      ensures Tracks(r, z.Content(), ReadConstant(old(z.Content())))
    {
      hide ReadByte, ReadString, Take;
      var t := LoadByte();
      if t.Failed? { return Failed(t.e); }
      if t.v == TNIL {
        r := Good(KNil);
      } else if t.v == TBOOLEAN {
        var x := LoadByte();
        r := if x.Failed? then Failed(x.e) else Good(KBool(x.v != 0));
      } else if t.v == TNUMBER {
        var x := LoadBlock(8);
        r := if x.Failed? then Failed(x.e) else Good(KNumber(x.v));
      } else if t.v == TSTRING {
        var s := LoadString();
        r := if s.Failed? then Failed(s.e) else Good(KString(if s.v.Some? then s.v.value else []));
      } else {
        r := Failed(BadConstant);
      }
    }

    method LoadConstants() returns (r: Out<seq<Constant>>)
      modifies z
      ensures Tracks(r, z.Content(), ReadCountedConstants(old(z.Content())))
    {
      hide ReadInt, ReadConstant;
      ghost var b0 := z.Content();
      var n := LoadInt();
      if n.Failed? { return Failed(n.e); }
      var acc, left := [], n.v;
      while left > 0
        invariant left >= 0 && ReadCountedConstants(b0) == ReadConstants(z.Content(), left, acc)
      {
        var x := LoadConstant();
        if x.Failed? { return Failed(x.e); }
        acc, left := acc + [x.v], left - 1;
      }
      r := Good(acc);
    }

    method LoadLocVar() returns (r: Out<LocVar>)
      modifies z
      ensures Tracks(r, z.Content(), ReadLocVar(old(z.Content())))
    {
      hide ReadInt, ReadString;
      var s := LoadString();
      if s.Failed? { return Failed(s.e); }
      var x := LoadInt();
      if x.Failed? { return Failed(x.e); }
      var y := LoadInt();
      if y.Failed? { return Failed(y.e); }
      r := Good(LocVar(s.v, x.v, y.v));
    }

    method LoadLocVars() returns (r: Out<seq<LocVar>>)
      modifies z
      ensures Tracks(r, z.Content(), ReadCountedLocVars(old(z.Content())))
    {
      hide ReadInt, ReadLocVar;
      ghost var b0 := z.Content();
      var n := LoadInt();
      if n.Failed? { return Failed(n.e); }
      var acc, left := [], n.v;
      while left > 0
        invariant left >= 0 && ReadCountedLocVars(b0) == ReadLocVars(z.Content(), left, acc)
      {
        var x := LoadLocVar();
        if x.Failed? { return Failed(x.e); }
        acc, left := acc + [x.v], left - 1;
      }
      r := Good(acc);
    }

    method LoadStrings() returns (r: Out<seq<Option<Bytes>>>)
      modifies z
      ensures Tracks(r, z.Content(), ReadCountedStrings(old(z.Content())))
    {
      hide ReadInt, ReadString;
      ghost var b0 := z.Content();
      var n := LoadInt();
      if n.Failed? { return Failed(n.e); }
      var acc, left := [], n.v;
      while left > 0
        invariant left >= 0 && ReadCountedStrings(b0) == ReadStrings(z.Content(), left, acc)
      {
        var x := LoadString();
        if x.Failed? { return Failed(x.e); }
        acc, left := acc + [x.v], left - 1;
      }
      r := Good(acc);
    }

    /** LoadDebug (lundump.c:137-159) */
    method LoadDebug() returns (r: Out<Debug>)
      modifies z
      ensures Tracks(r, z.Content(), ReadDebug(old(z.Content())))
    {
      hide ReadCountedInts, ReadCountedLocVars, ReadCountedStrings;
      var a := LoadInts();
      if a.Failed? { return Failed(a.e); }
      var b := LoadLocVars();
      if b.Failed? { return Failed(b.e); }
      var c := LoadStrings();
      if c.Failed? { return Failed(c.e); }
      r := Good(Debug(a.v, b.v, c.v));
    }

    method LoadBytes4() returns (r: Out<(int, int, int, int)>)
      modifies z
      ensures Tracks(r, z.Content(), ReadBytes4(old(z.Content())))
    {
      hide ReadByte;
      var a := LoadByte();
      if a.Failed? { return Failed(a.e); }
      var b := LoadByte();
      if b.Failed? { return Failed(b.e); }
      var c := LoadByte();
      if c.Failed? { return Failed(c.e); }
      var d := LoadByte();
      if d.Failed? { return Failed(d.e); }
      r := Good((a.v, b.v, c.v, d.v));
    }

    /** LoadFunction up to LoadCode (lundump.c:167-174) */
    method LoadHead() returns (r: Out<Head>)
      modifies z
      ensures Tracks(r, z.Content(), ReadHead(old(z.Content())))
    {
      hide ReadString, ReadInt, ReadBytes4, ReadCountedInts;
      var s := LoadString();
      if s.Failed? { return Failed(s.e); }
      var x := LoadInt();
      if x.Failed? { return Failed(x.e); }
      var y := LoadInt();
      if y.Failed? { return Failed(y.e); }
      var q := LoadBytes4();
      if q.Failed? { return Failed(q.e); }
      var code := LoadInts();
      if code.Failed? { return Failed(code.e); }
      r := Good(Head(s.v, x.v, y.v, q.v.0, q.v.1, q.v.2, q.v.3, code.v));
    }

    /** LoadFunction (lundump.c:161-181) */
    method LoadFunction(p: Option<Bytes>) returns (r: Out<Proto>)
      modifies z, this`depth
      ensures Tracks(r, z.Content(), ReadFunction(old(z.Content()), p, old(depth), check))
      ensures r.Good? ==> depth == old(depth)
      decreases if depth <= MAXCCALLS then MAXCCALLS - depth + 1 else 0, 0
    {
      hide ReadHead, ReadCountedConstants, ReadInt, ReadProtos, ReadDebug;
      depth := depth + 1;
      if depth > MAXCCALLS { return Failed(TooDeep); }
      var h := LoadHead();
      if h.Failed? { return Failed(h.e); }
      var source := if h.v.source.None? then p else h.v.source;
      var k := LoadConstants();
      if k.Failed? { return Failed(k.e); }
      var n := LoadInt();
      if n.Failed? { return Failed(n.e); }
      var ps := LoadProtos(n.v, source);
      if ps.Failed? { return Failed(ps.e); }
      var d := LoadDebug();
      if d.Failed? { return Failed(d.e); }
      var f := Assemble(h.v, p, k.v, ps.v, d.v);
      if !check(f) { return Failed(BadCode); }
      depth := depth - 1;
      r := Good(f);
    }

    method LoadProtos(n: nat, p: Option<Bytes>) returns (r: Out<seq<Proto>>)
      requires depth <= MAXCCALLS
      modifies z, this`depth
      ensures Tracks(r, z.Content(), ReadProtos(old(z.Content()), n, [], p, old(depth), check))
      ensures r.Good? ==> depth == old(depth)
      decreases if depth <= MAXCCALLS then MAXCCALLS - depth + 1 else 0, 1
    {
      hide ReadFunction;
      ghost var b0 := z.Content();
      var acc, left := [], n;
      while left > 0
        invariant left >= 0 && depth == old(depth)
        invariant ReadProtos(b0, n, [], p, depth, check) == ReadProtos(z.Content(), left, acc, p, depth, check)
      {
        var f := LoadFunction(p);
        if f.Failed? { return Failed(f.e); }
        acc, left := acc + [f.v], left - 1;
      }
      r := Good(acc);
    }
  }

  /** luaU_undump (lundump.c:195-209), from a reader that hands out any chunks. */
  method Undump(chunks: seq<Bytes>, depth: nat, check: Checker) returns (r: Out<Proto>)
    ensures match ReadChunk(Flat(chunks), depth, check)
      case Ok(f, _) => r == Good(f)
      case Bad(e) => r == Failed(e)
    ensures var b := Flat(chunks);
      |b| >= 12 && b[..12] != [27, 76, 117, 97, 81, 0, 1, 4, 8, 4, 8, 0] ==> r == Failed(BadHeader)
  {
    ReadChunkMeans(Flat(chunks), depth, check);
    hide ReadFunction, Flat;
    var z := new Zio(chunks);
    var s := new LoadState(z, check, depth);
    var h := s.LoadBlock(|Header()|);
    if h.Failed? { return Failed(h.e); }
    if h.v != Header() { return Failed(BadHeader); }
    r := s.LoadFunction(Unknown());
  }

  /** Dumping and loading: however the bytes are split into chunks, the prototype comes back. */
  method DumpAndLoad(f: Proto, strip: bool, chunks: seq<Bytes>, depth: nat, check: Checker) returns (r: Out<Proto>)
    requires ProtoOk(f) && depth + Nesting(f) <= MAXCCALLS && Accepted(Loaded(f, None, Unknown(), strip), check)
    requires Flat(chunks) == EncChunk(f, strip)
    ensures r == Good(Loaded(f, None, Unknown(), strip))
    ensures !strip && Named(f) ==> r == Good(f)
    ensures r.Good? && if strip then StrippedOf(f, r.v, Some([61, 63])) else InheritsOf(f, r.v, Some([61, 63]))
  {
    hide Loaded, EncChunk, Flat, ReadChunk;
    assert EncChunk(f, strip) + [] == EncChunk(f, strip);
    ChunkBack(f, strip, depth, check, []);
    r := Undump(chunks, depth, check);
  }
}
