/** codenot (lcode.c:594-626): what is left is negated, and the lists change places and lose their values. */
module CodeNot {
  import opened CodeVm
  import opened CodeLists
  import opened CodeState
  import opened CodeFlow
  import opened CodeExp
  import opened CodeReg
  import opened CodeSettle
  import opened CodeToReg
  import opened CodePut
  import opened CodeCond

  // ----- removing values -----

  function NoValues(code: Code, d: Desc): Code { Unvalued(Unvalued(code, d.ts), d.fs) }

  ghost function Devalued(s: Snap, d: Desc): Snap { s.(code := NoValues(s.code, d)) }

  lemma NoValuesAt(code: Code, d: Desc)
    ensures var c' := NoValues(code, d);
      && |c'| == |code|
      && forall i :: 0 <= i < |code| ==> c'[i] == if i + 1 in d.ts || i + 1 in d.fs then Norm(code[i]) else code[i]
  {}

  lemma NoValuesCompat(s: Snap, d: Desc)
    requires SnapOk(s) && forall j :: j in d.ts || j in d.fs ==> j in s.pending
    ensures Compat(s.code, s.pending, NoValues(s.code, d), s.pending) && SnapOk(Devalued(s, d))
    ensures Closed(s.code) ==> Closed(NoValues(s.code, d))
    ensures forall i :: 0 <= i < |s.code| && s.code[i].JMP? ==> NoValues(s.code, d)[i] == s.code[i]
  {
    NoValuesAt(s.code, d);
    hide NoValues;
    var c' := NoValues(s.code, d);
    forall i | 0 <= i < |s.code| ensures SameAt(s.code, s.pending, c', i) {
      assert i in s.pending ==> JumpAt(s.code, i);
    }
    forall j | j in s.pending ensures JumpAt(c', j) { assert JumpAt(s.code, j); }
    assert |s.code| in d.ts || |s.code| in d.fs ==> JumpAt(s.code, |s.code|);
  }

  lemma NoValuesList(s: Snap, d: Desc, l: int, js: seq<int>)
    requires SnapOk(s) && (forall j :: j in d.ts || j in d.fs ==> j in s.pending) && IsList(s.code, l, js)
    ensures IsList(NoValues(s.code, d), l, js)
  {
    NoValuesCompat(s, d);
    ListMembers(s.code, l, js);
    ListFrame(s.code, NoValues(s.code, d), l, js);
  }

  lemma NoValuesPrefix(code: Code, n: nat, d: Desc)
    requires n <= |code|
    ensures NoValues(code, d)[..n] == NoValues(code[..n], d)
  {
    NoValuesAt(code, d);
    NoValuesAt(code[..n], d);
    hide NoValues;
  }

  function Swapped(d: Desc): Desc { Desc(d.e.(t := d.e.f, f := d.e.t), d.fs, d.ts) }

  function InverseCtx(c: Ctx): Ctx { c.(job := Inverse(c.job.e)) }

  function NotCtx(c: Ctx): Ctx { c.(job := Value(Not(c.job.e))) }

  /** What codenot has made of the value before the lists change places. */
  ghost predicate Negated(c: Ctx, s: Snap, d: Desc) {
    && Holds(InverseCtx(c), s, d, c.fr, NO_REG)
    && (d.e.k == VTRUE || d.e.k == VFALSE || d.e.k == VRELOCABLE || d.e.k == VJMP)
  }

  lemma NegatedParts(c: Ctx, s: Snap, d: Desc)
    requires Negated(c, s, d)
    ensures SnapOk(s) && Closed(s.code) && SnapOk(Start(s, d.e)) && |c.o.code| <= |Start(s, d.e).code| <= |s.code|
    ensures forall j :: j in d.ts || j in d.fs ==>
      j in s.pending && j in Start(s, d.e).pending && j !in s.here && (|c.o.code| <= j || j in c.o.here)
    ensures IsList(s.code, d.e.t, d.ts) && IsList(s.code, d.e.f, d.fs)
    ensures d.e.k == VRELOCABLE ==> 0 <= d.e.info == |s.code| - 1 && IsLoad(s.code[d.e.info])
    ensures d.e.k == VJMP ==>
      1 <= d.e.info == |s.code| - 1 && s.code[d.e.info - 1].CMP? && s.code[d.e.info] == JMP(NO_JUMP)
  {
    StartOk(InverseCtx(c), s, d, c.fr, NO_REG);
    HeldKept(InverseCtx(c), s, d, c.fr, NO_REG);
    StartShape(InverseCtx(c), s, d, c.fr, NO_REG);
    hide Means, IsList, Kept, SnapOk, Closed, SameControls, Landed;
  }

  lemma StartDevalued(c: Ctx, s: Snap, d: Desc)
    requires Negated(c, s, d)
    ensures Start(Devalued(s, d), Swapped(d).e) == Devalued(Start(s, d.e), d)
    ensures d.e.k == VRELOCABLE || d.e.k == VJMP ==> Devalued(s, d).code[d.e.info] == s.code[d.e.info]
    ensures d.e.k == VJMP ==> Devalued(s, d).code[d.e.info - 1] == s.code[d.e.info - 1]
  {
    NegatedParts(c, s, d);
    hide Negated, IsList, SnapOk, Closed;
    NoValuesAt(s.code, d);
    NoValuesPrefix(s.code, |Start(s, d.e).code|, d);
    hide NoValues;
    assert Start(s, d.e).code == s.code[..|Start(s, d.e).code|];
  }

  lemma NotFlowOf(c: Ctx, m: Env, a: Option<CodeVm.Value>)
    ensures var fl := FlowIn(InverseCtx(c).job, m, a);
      FlowIn(NotCtx(c).job, m, a) == if fl.Leaves? then Leaves(!fl.truth, None) else fl
  {
    assert FlowOf(Not(c.job.e), m, a) == NotFlow(ShapeOf(c.job.e), FlowOf(c.job.e, m, a));
    hide FlowOf, ShapeOf;
  }

  /** A jump that left for one list now leaves for the other, without its value. */
  lemma NotGood(o: Outcome, s: Snap, d: Desc, fr: int, m: Env, fl: Flow)
    requires Good(o, s, d, fr, NO_REG, m, fl) && (forall j :: j in s.here ==> j !in d.ts && j !in d.fs)
    requires d.e.k == VTRUE || d.e.k == VFALSE || d.e.k == VRELOCABLE || d.e.k == VJMP
    requires d.e.k == VRELOCABLE ==> 0 <= d.e.info < |s.code| && Devalued(s, d).code[d.e.info] == s.code[d.e.info]
    requires d.e.k == VJMP ==> 1 <= d.e.info <= |s.code| && Devalued(s, d).code[d.e.info - 1] == s.code[d.e.info - 1]
    ensures Good(o, Devalued(s, d), Swapped(d), fr, NO_REG, m, if fl.Leaves? then Leaves(!fl.truth, None) else fl)
  {
    NoValuesAt(s.code, d);
    hide NoValues, Agree;
  }

  lemma NotMeans(c: Ctx, s: Snap, d: Desc, en: Entry)
    requires Negated(c, s, d)
    ensures MeansIn(NotCtx(c), Devalued(s, d), Swapped(d), NO_REG, en)
  {
    NegatedParts(c, s, d);
    StartDevalued(c, s, d);
    hide IsList, FlowIn, NoValues, Fresh, Arriving, Outcome0, Good, Closed;
    if EntryOk(c, en) {
      var st, a, ci := Start(s, d.e), Arriving(c.o, en), InverseCtx(c);
      var o, fl := Outcome0(st, |c.o.code|, en), FlowIn(ci.job, en.m, a);
      StartOutcome(ci, s, d, c.fr, NO_REG, en);
      GoodCases(o, s, d, c.fr, NO_REG, en.m, fl);
      hide Negated, Start, Holds;
      NoValuesCompat(st, d);
      hide SnapOk, Compat;
      OutcomeQuiet(st, Devalued(st, d), |c.o.code|, en);
      NotFlowOf(c, en.m, a);
      NotGood(o, s, d, c.fr, en.m, fl);
    }
  }

  lemma NotKept(c: Ctx, s: Snap, d: Desc)
    requires SnapOk(c.o) && Closed(c.o.code) && Kept(c.o, s)
    requires forall j :: j in d.ts || j in d.fs ==> |c.o.code| <= j || j in c.o.here
    ensures Kept(c.o, Devalued(s, d))
  {
    NoValuesAt(s.code, d);
    hide NoValues;
    var s' := Devalued(s, d);
    forall i | 0 <= i < |c.o.code| ensures EditAt(c.o, s, s', i) { assert KeptAt(c.o, s, i); }
    KeptEdit(c.o, s, s');
  }

  lemma NotLists(c: Ctx, s: Snap, d: Desc)
    requires Negated(c, s, d)
    ensures var s', d' := Devalued(s, d), Swapped(d);
      Begun(NotCtx(c), s') && Kept(c.o, s') && KindOk(NotCtx(c), s', d'.e, c.fr) && ListsOk(c.o, s', d')
  {
    NegatedParts(c, s, d);
    StartDevalued(c, s, d);
    HeldKept(InverseCtx(c), s, d, c.fr, NO_REG);
    NoValuesCompat(s, d);
    NotKept(c, s, d);
    NoValuesList(s, d, d.e.t, d.ts);
    NoValuesList(s, d, d.e.f, d.fs);
    NotKind(c, s, d);
    hide NoValues, IsList, Kept, Means, SnapOk, Closed, Compat, Holds, KindOk;
    assert Begun(NotCtx(c), Devalued(s, d));
    hide Begun, Lists;
    NotListsOk(c.o, s, d);
  }

  lemma NotListsOk(o: Snap, s: Snap, d: Desc)
    requires ListsOk(o, s, d)
    requires IsList(NoValues(s.code, d), d.e.t, d.ts) && IsList(NoValues(s.code, d), d.e.f, d.fs)
    ensures ListsOk(o, Devalued(s, d), Swapped(d))
  {
    hide IsList, NoValues;
  }

  lemma NotKind(c: Ctx, s: Snap, d: Desc)
    requires Negated(c, s, d)
    ensures KindOk(NotCtx(c), Devalued(s, d), Swapped(d).e, c.fr)
  {
    StartDevalued(c, s, d);
    NoValuesAt(s.code, d);
    hide NoValues, Means, ListsOk, Kept, Start;
  }

  lemma NotHolds(c: Ctx, s: Snap, d: Desc)
    requires Negated(c, s, d)
    ensures Holds(NotCtx(c), Devalued(s, d), Swapped(d), c.fr, NO_REG)
  {
    NotLists(c, s, d);
    hide Begun, Kept, KindOk, ListsOk, Negated, MeansIn, Devalued, Swapped;
    forall en ensures MeansIn(NotCtx(c), Devalued(s, d), Swapped(d), NO_REG, en) { NotMeans(c, s, d, en); }
    MeansAll(NotCtx(c), Devalued(s, d), Swapped(d), NO_REG);
  }

  // ----- negating what is left -----

  function Flip(k: Kind): Kind { if k == VNIL || k == VFALSE then VTRUE else VFALSE }

  function Flipped(d: Desc): Desc { d.(e := d.e.(k := Flip(d.e.k))) }

  lemma LiteralGood(o: Outcome, s: Snap, d: Desc, fr: int, m: Env, fl: Flow)
    requires Good(o, s, d, fr, NO_REG, m, fl) && IsLit(d.e) && (d.e.k == VK ==> d.e.info >= 0)
    ensures Good(o, s, Flipped(d), fr, NO_REG, m, if fl.Leaves? then fl else Falls(fl.carry, Bool(IsFalse(fl.val))))
  {}

  lemma LiteralMeans(c: Ctx, s: Snap, d: Desc, free: int, en: Entry)
    requires Holds(c, s, d, free, NO_REG) && c.job.Value? && IsLit(d.e) && IsLiteral(ShapeOf(c.job.e))
    ensures MeansIn(InverseCtx(c), s, Flipped(d), NO_REG, en)
  {
    StartLiteral(s, d.e);
    StartLiteral(s, Flipped(d).e);
    HeldKind(c, s, d, free, NO_REG);
    hide Holds, Good, Outcome0, FlowOf, ShapeOf, Start, Fresh, Arriving, Flipped;
    if EntryOk(c, en) {
      StartOutcome(c, s, d, free, NO_REG, en);
      LiteralGood(Outcome0(s, |c.o.code|, en), s, d, c.fr, en.m, FlowIn(c.job, en.m, Arriving(c.o, en)));
    }
  }

  lemma LiteralLists(o: Snap, s: Snap, d: Desc)
    requires ListsOk(o, s, d) && IsLit(d.e)
    ensures ListsOk(o, s, Flipped(d))
  {
    hide IsList;
  }

  lemma LiteralNegates(c: Ctx, s: Snap, d: Desc, free: int)
    requires Holds(c, s, d, free, NO_REG) && c.job.Value? && IsLit(d.e) && IsLiteral(ShapeOf(c.job.e))
    ensures free == c.fr && Negated(c, s, Flipped(d))
  {
    HeldKind(c, s, d, free, NO_REG);
    HeldKept(c, s, d, free, NO_REG);
    LiteralLists(c.o, s, d);
    hide Holds, Kept, ListsOk, Lists, MeansIn, Means;
    forall en ensures MeansIn(InverseCtx(c), s, Flipped(d), NO_REG, en) { LiteralMeans(c, s, d, free, en); }
    MeansAll(InverseCtx(c), s, Flipped(d), NO_REG);
    HoldsParts(InverseCtx(c), s, Flipped(d), c.fr, NO_REG);
  }

  lemma CompareNegatesIn(c: Ctx, s: Snap, d: Desc, free: int, en: Entry)
    requires Holds(c, s, d, free, NO_REG) && c.job.Value? && d.e.k == VJMP && ShapeOf(c.job.e) == SJmp
    requires 1 <= d.e.info == |s.code| - 1 && s.code[d.e.info - 1].CMP?
    ensures MeansIn(InverseCtx(c), Turned(s, d.e.info, true), d, NO_REG, en)
  {
    var s' := Turned(s, d.e.info, true);
    assert Start(s', d.e) == Start(s, d.e);
    StartOk(c, s, d, free, NO_REG);
    hide Holds, Good, Outcome0, Fresh, Arriving, Start, SnapOk, ListsOk, Landed;
    if EntryOk(c, en) {
      var a := Arriving(c.o, en);
      var o, fl := Outcome0(Start(s, d.e), |c.o.code|, en), FlowIn(c.job, en.m, a);
      StartOutcome(c, s, d, free, NO_REG, en);
      LiteralFlow(c.job.e, en.m, a);
      hide FlowOf, ShapeOf;
      assert forall j :: j in d.ts || j in d.fs ==> 0 <= j < d.e.info by { JumpParts(c, s, d, free, true); }
      JumpParts(c, s, d, free, true);
      CompareNegatesGood(o, s, d, s', c.fr, en.m, fl);
    }
  }

  lemma CompareNegatesGood(o: Outcome, s: Snap, d: Desc, s': Snap, fr: int, m: Env, fl: Flow)
    requires Good(o, s, d, fr, NO_REG, m, fl) && d.e.k == VJMP && 1 <= d.e.info == |s.code| - 1
    requires s.code[d.e.info - 1].CMP? && s' == Turned(s, d.e.info, true) && s.here == []
    requires forall j :: j in d.ts || j in d.fs ==> 0 <= j < d.e.info
    requires fl.Falls? ==> fl.carry.None? && (fl.val == True || fl.val == False)
    ensures Good(o, s', d, fr, NO_REG, m, if fl.Leaves? then fl else Falls(None, Bool(IsFalse(fl.val))))
  {
    hide Agree;
  }

  lemma CompareNegates(c: Ctx, s: Snap, d: Desc, free: int, jpc: int)
    requires Holds(c, s, d, free, NO_REG) && c.job.Value? && d.e.k == VJMP && ShapeOf(c.job.e) == SJmp
    requires IsList(s.code, jpc, s.here)
    ensures free == c.fr && 1 <= d.e.info == |s.code| - 1 && s.code[d.e.info - 1].CMP?
    ensures var s' := Turned(s, d.e.info, true); Negated(c, s', d) && SnapOk(s') && IsList(s'.code, jpc, s'.here)
  {
    JumpParts(c, s, d, free, true);
    var s' := Turned(s, d.e.info, true);
    Regrown(c, s, d, free, NO_REG, s', d.e);
    NoList(s.code, jpc);
    NoList(s'.code, jpc);
    assert KindOk(InverseCtx(c), s', d.e, c.fr) by { hide Means, ListsOk, Kept, Landed, SnapOk; }
    hide Landed, ListsOk, Kept, Means, MeansIn, Holds, SnapOk, Closed, KindOk, IsList;
    forall en ensures MeansIn(InverseCtx(c), s', d, NO_REG, en) { CompareNegatesIn(c, s, d, free, en); }
    MeansAll(InverseCtx(c), s', d, NO_REG);
    HoldsParts(InverseCtx(c), s', d, c.fr, NO_REG);
  }

  lemma RegisterNegates(c: Ctx, s: Snap, d: Desc, free: int)
    requires Holds(c, s, d, free, NO_REG) && (c.job.Value? || c.job.Placed?) && d.e.k == VNONRELOC
    requires !IsLiteral(ShapeOf(c.job.e))
    ensures Negated(c, Emitted(s, NOT(0, d.e.info)), Relocatable(s, d))
  {
    OpenHolds(c, s, d, free, NOT(0, d.e.info), true);
    hide Holds;
  }

  // ----- codenot -----

  /** codenot for a literal or a comparison (lcode.c:596-609): no instruction is emitted. */
  method NegateInPlace(f: FuncState, e0: Exp, ghost c: Ctx, ghost d: Desc) returns (e: Exp)
    requires Compiled(f, c, d, f.freereg) && d.e == e0 && (IsLit(e0) || e0.k == VJMP)
    modifies f`code
    ensures f.Valid() && f.freereg == c.fr && e.t == e0.t && e.f == e0.f && Negated(c, f.Now(), d.(e := e))
    ensures e.k == (if e0.k == VJMP then VJMP else Flip(e0.k))
    ensures old(NilClosed(f.code, f.lasttarget)) ==> NilClosed(f.code, f.lasttarget)
  {
    hide Holds, Negated, SnapOk, IsList;
    if e0.k == VJMP {
      CompareNegates(c, f.Now(), d, f.freereg, f.jpc);
      e := e0;
      f.code := f.code[e.info - 1 := Inverted(f.code[e.info - 1])];
    } else {
      LiteralNegates(c, f.Now(), d, f.freereg);
      e := e0.(k := Flip(e0.k));
    }
  }

  /** codenot for a value in a register, or on its way there (lcode.c:610-616). */
  method NegateRegister(f: FuncState, e0: Exp, ghost c: Ctx, ghost d: Desc) returns (e: Exp)
    requires Compiled(f, c, d, f.freereg) && d.e == e0 && Discharged(e0) && !IsLit(e0) && e0.k != VJMP
    modifies f`code, f`jpc, f`pending, f`here, f`freereg
    ensures f.Valid() && f.freereg == c.fr && e.t == e0.t && e.f == e0.f && Negated(c, f.Now(), d.(e := e))
    ensures e.k == VRELOCABLE && 0 <= e.info == |f.code| - 1 && f.code[e.info].NOT?
  {
    assert !IsLiteral(ShapeOf(c.job.e));
    hide Holds, Negated, SnapOk, IsList, Closed, Shaped, NilClosed, ShapeOf, Emitted;
    ghost var c', s, free;
    e, c' := Discharge2AnyReg(f, e0, c, d);
    s, free := f.Now(), f.freereg;
    ghost var d1 := d.(e := e);
    HeldKind(c', s, d1, free, NO_REG);
    RegisterNegates(c', s, d1, free);
    FreeExp(f, e);
    EmittedLast(s, NOT(0, e.info));
    var pc := f.Code(NOT(0, e.info));
    e := Exp(VRELOCABLE, pc, e.t, e.f);
    SameNegated(c, c', f.Now(), d.(e := e));
  }

  lemma SameNegated(c: Ctx, c': Ctx, s: Snap, d: Desc)
    requires (c' == c || c' == Place(c)) && Negated(c', s, d)
    ensures Negated(c, s, d)
  {
    assert InverseCtx(c') == InverseCtx(c);
    hide Holds;
  }

  lemma NegatedLists(c: Ctx, s: Snap, d: Desc, jpc: int)
    requires Negated(c, s, d) && IsList(s.code, jpc, s.here)
    ensures IsList(s.code, d.e.t, d.ts) && IsList(s.code, d.e.f, d.fs) && IsList(Unvalued(s.code, d.ts), d.e.f, d.fs)
    ensures SnapOk(Devalued(s, d)) && IsList(Devalued(s, d).code, jpc, s.here)
  {
    NegatedParts(c, s, d);
    NoValuesCompat(s, d);
    NoValuesList(s, d, jpc, s.here);
    ListMembers(s.code, d.e.f, d.fs);
    ListFrame(s.code, Unvalued(s.code, d.ts), d.e.f, d.fs);
  }

  lemma NotShaped(c: Ctx, s: Snap, d: Desc, e: Exp)
    requires (d.ts != [] <==> HasList(c.job.e, true)) && (d.fs != [] <==> HasList(c.job.e, false))
    requires KindShape(e, s.code, NotShape(ShapeOf(c.job.e))) && Negated(c, s, d.(e := e))
    ensures Shaped(Not(c.job.e), Devalued(s, d).code, Swapped(d.(e := e)))
  {
    StartDevalued(c, s, d.(e := e));
    assert Devalued(s, d.(e := e)) == Devalued(s, d);
    NoValuesAt(s.code, d);
    hide NoValues, Negated, Start;
  }

  lemma DevaluedNil(s: Snap, d: Desc, lasttarget: int)
    ensures NilClosed(s.code, lasttarget) ==> NilClosed(Devalued(s, d).code, lasttarget)
  {
    NoValuesAt(s.code, d);
    hide NoValues;
  }

  /** codenot (lcode.c:594-626) */
  method Negate(f: FuncState, e0: Exp, ghost c: Ctx, ghost d: Desc) returns (e: Exp, ghost d': Desc)
    requires Compiled(f, c, d, f.freereg) && d.e == e0
    modifies f`code, f`jpc, f`pending, f`here, f`freereg
    ensures Compiled(f, NotCtx(c), d', f.freereg) && d'.e == e && f.freereg == c.fr
    ensures old(NilClosed(f.code, f.lasttarget)) ==> NilClosed(f.code, f.lasttarget)
  {
    hide Holds, Negated, SnapOk, IsList, HasList, Devalued;
    e := DischargeVars(f, e0, c, d, f.freereg);
    if IsLit(e) || e.k == VJMP {
      e := NegateInPlace(f, e, c, d.(e := e));
    } else {
      e := NegateRegister(f, e, c, d.(e := e));
    }
    NotShaped(c, f.Now(), d, e);
    assert Devalued(f.Now(), d.(e := e)) == Devalued(f.Now(), d) by {
      DevaluedIs(f.Now(), d.(e := e));
      DevaluedIs(f.Now(), d);
    }
    hide Shaped;
    e, d' := SwapLists(f, e, c, d.(e := e));
  }

  /** The lists change places and lose their values (lcode.c:623-625). */
  method SwapLists(f: FuncState, e0: Exp, ghost c: Ctx, ghost d: Desc) returns (e: Exp, ghost d': Desc)
    requires f.Valid() && Negated(c, f.Now(), d) && d.e == e0
    modifies f`code
    ensures f.Valid() && Holds(NotCtx(c), f.Now(), d', c.fr, NO_REG) && d' == Swapped(d) && d'.e == e
    ensures f.Now() == Devalued(old(f.Now()), d)
    ensures old(NilClosed(f.code, f.lasttarget)) ==> NilClosed(f.code, f.lasttarget)
  {
    hide Holds, Negated, SnapOk, IsList, NilClosed, Devalued;
    ghost var s := f.Now();
    DevaluedNil(s, d, f.lasttarget);
    NotHolds(c, s, d);
    NegatedLists(c, s, d, f.jpc);
    DevaluedIs(s, d);
    e := Exp(e0.k, e0.info, e0.f, e0.t);
    f.RemoveValues(e.f, d.ts);
    f.RemoveValues(e.t, d.fs);
    d' := Swapped(d);
  }

  lemma DevaluedIs(s: Snap, d: Desc)
    ensures Devalued(s, d) == s.(code := Unvalued(Unvalued(s.code, d.ts), d.fs))
  {}
}
