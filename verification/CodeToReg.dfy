/** Getting expressions into registers (lcode.c:304-379). */
module CodeToReg {
  import opened CodeVm
  import opened CodeLists
  import opened CodeState
  import opened CodeFlow
  import opened CodeExp
  import opened CodeReg
  import opened CodeSettle

  // ----- code after the start of a descriptor -----

  lemma StartKept(c: Ctx, s: Snap, d: Desc, free: int, x: int)
    requires Holds(c, s, d, free, x)
    ensures Kept(c.o, Start(s, d.e))
  {
    StartShape(c, s, d, free, x);
    hide Means, ListsOk;
    var st := Start(s, d.e);
    forall i | 0 <= i < |c.o.code| ensures KeptAt(c.o, st, i) { assert KeptAt(c.o, s, i); }
  }

  /** Other code than that in the hands of the descriptor has been put after its start. */
  lemma Regrown(c: Ctx, s: Snap, d: Desc, free: int, x: int, s': Snap, e': Exp)
    requires Holds(c, s, d, free, x) && Landed(Start(s, d.e), s') && SnapOk(s') && Closed(s'.code)
    requires e'.t == d.e.t && e'.f == d.e.f && (e'.k == VJMP ==> |Start(s, d.e).code| <= e'.info)
    ensures Begun(c, s') && Kept(c.o, s') && ListsOk(c.o, s', Desc(e', d.ts, d.fs))
  {
    var st := Start(s, d.e);
    StartOk(c, s, d, free, x);
    StartKept(c, s, d, free, x);
    LandedKept(st, s');
    ListKept(st, s', d.e.t, d.ts);
    ListKept(st, s', d.e.f, d.fs);
    hide Means, Landed, KindOk, IsList, SameControls, Start;
    KeptTrans(c.o, st, s');
    hide Kept;
  }

  lemma AtEnd(s: Snap, n: nat, r: Env)
    requires |s.code| == n
    ensures Run(s.code, s.pending, n, r) == Fall(r)
  {}

  lemma GoodExit(o: Outcome, s: Snap, d: Desc, d': Desc, fr: int, x: int, m: Env, fl: Flow)
    requires Exits(o, s, d, fr, m, fl)
    requires (forall j :: j in d.ts ==> j in d'.ts) && (forall j :: j in d.fs ==> j in d'.fs)
    ensures Good(o, s, d', fr, x, m, fl)
  {}

  lemma ExitsStart(o: Outcome, s: Snap, e: Exp, d: Desc, fr: int, m: Env, fl: Flow)
    requires Exits(o, Start(s, e), d, fr, m, fl)
    ensures Exits(o, s, d, fr, m, fl)
  {}

  // ----- a value that is still to be loaded -----

  /** The descriptor after a load has been emitted, with its register open. */
  function Relocatable(s: Snap, d: Desc): Desc { d.(e := Exp(VRELOCABLE, |s.code|, d.e.t, d.e.f)) }

  lemma StartEmitted(s: Snap, d: Desc, i: Instr)
    requires SnapOk(s)
    ensures var st := Start(Emitted(s, i), Relocatable(s, d).e);
      Landed(s, st) && SnapOk(st) && |st.code| == |s.code| && st.here == [] && Landed(s, Emitted(s, i))
  {
    EmittedLanded(s, i);
    var s' := Emitted(s, i);
    var st := Start(s', Relocatable(s, d).e);
    forall k | 0 <= k < |s.code| ensures LandedAt(s, st, k) { assert LandedAt(s, s', k); }
    forall j | j in st.pending ensures JumpAt(st.code, j) { assert JumpAt(s.code, j) && LandedAt(s, st, j); }
  }

  /** What is compiled when a load of the value, or of its negation, has been emitted. */
  function Opened(c: Ctx, neg: bool): Ctx { if neg then c.(job := Inverse(c.job.e)) else c }

  /** `i` loads the value of the descriptor, or its negation. */
  ghost predicate Opens(c: Ctx, s: Snap, e: Exp, i: Instr, neg: bool) {
    && (if neg then e.k == VNONRELOC && i == NOT(0, e.info) && (c.job.Value? || c.job.Placed?)
        else e.k == VUPVAL && i == GETUPVAL(0, e.info) && c.job.Value?)
    && var sh := ShapeOf(c.job.e); if neg then !IsLiteral(sh) else sh == SUp
  }

  lemma OpenFlow(c: Ctx, s: Snap, e: Exp, i: Instr, neg: bool, m: Env, a: Option<CodeVm.Value>)
    requires Opens(c, s, e, i, neg)
    ensures var fl, fl' := FlowIn(c.job, m, a), FlowIn(Opened(c, neg).job, m, a);
      if fl.Leaves? then fl' == fl else fl' == Falls(None, if neg then Bool(IsFalse(fl.val)) else fl.val)
  {
    LiteralFlow(c.job.e, m, a);
    hide FlowOf, ShapeOf;
  }

  lemma OpenMeans(c: Ctx, s: Snap, d: Desc, free: int, i: Instr, neg: bool, en: Entry)
    requires Holds(c, s, d, free, NO_REG) && Opens(c, s, d.e, i, neg)
    ensures MeansIn(Opened(c, neg), Emitted(s, i), Relocatable(s, d), NO_REG, en)
  {
    if EntryOk(c, en) {
      var s', d', a := Emitted(s, i), Relocatable(s, d), Arriving(c.o, en);
      var st', fl, fl' := Start(s', d'.e), FlowIn(c.job, en.m, a), FlowIn(Opened(c, neg).job, en.m, a);
      StartOk(c, s, d, free, NO_REG);
      StartEmitted(s, d, i);
      EmittedLanded(s, i);
      OpenFlow(c, s, d.e, i, neg, en.m, a);
      hide Holds, Landed, Emitted, Exits, FlowIn, SnapOk, ListsOk, SameControls, Agree, Remaining, Opens, Run, Stays;
      var r := After(c, s, d, free, st', en);
      var o := Outcome0(st', |c.o.code|, en);
      if Exits(o, st', d, c.fr, en.m, fl) {
        ExitsStart(o, s', d'.e, d, c.fr, en.m, fl);
        GoodExit(o, s', d, d', c.fr, NO_REG, en.m, fl');
      } else {
        AtEnd(st', |s.code|, r);
        OpenGood(c, s, d, s', d', i, neg, en.m, r, fl.val);
      }
    }
  }

  lemma OpenGood(c: Ctx, s: Snap, d: Desc, s': Snap, d': Desc, i: Instr, neg: bool, m: Env, r: Env, val: CodeVm.Value)
    requires Opens(c, s, d.e, i, neg) && Remaining(s.code, d.e, r, val) && Agree(m, r, c.fr, NO_REG)
    requires |s.code| < |s'.code| && s'.code[|s.code|] == i && d' == Relocatable(s, d)
    ensures Good(Fall(r), s', d', c.fr, NO_REG, m, Falls(None, if neg then Bool(IsFalse(val)) else val))
  {}

  lemma OpenHolds(c: Ctx, s: Snap, d: Desc, free: int, i: Instr, neg: bool)
    requires Holds(c, s, d, free, NO_REG) && Opens(c, s, d.e, i, neg)
    ensures Holds(Opened(c, neg), Emitted(s, i), Relocatable(s, d), c.fr, NO_REG)
  {
    var s', d', c' := Emitted(s, i), Relocatable(s, d), Opened(c, neg);
    StartOk(c, s, d, free, NO_REG);
    EmittedLanded(s, i);
    Regrown(c, s, d, free, NO_REG, s', d'.e);
    assert KindOk(c', s', d'.e, c.fr) by { hide Means, ListsOk, Landed, Emitted; KeptSize(c.o, s); }
    hide Landed, Emitted, KindOk, ListsOk, Kept, MeansIn, SnapOk, Closed;
    forall en ensures MeansIn(c', s', d', NO_REG, en) { OpenMeans(c, s, d, free, i, neg, en); }
    MeansAll(c', s', d', NO_REG);
  }

  lemma LocalHolds(c: Ctx, s: Snap, d: Desc, free: int)
    requires Holds(c, s, d, free, NO_REG) && d.e.k == VLOCAL
    ensures Holds(c, s, d.(e := d.e.(k := VNONRELOC)), free, NO_REG)
  {
    hide Kept, SnapOk, Closed, IsList, Exit, Outcome0, FlowIn;
    forall en ensures MeansIn(c, s, d.(e := d.e.(k := VNONRELOC)), NO_REG, en) {
      assert MeansIn(c, s, d, NO_REG, en);
    }
  }

  // ----- the methods that only look at a compiled expression -----

  /** The function state has the expression of `c` compiled, and `d` is its descriptor. */
  ghost predicate Compiled(f: FuncState, c: Ctx, d: Desc, free: int)
    reads f
  {
    && f.Valid() && Holds(c, f.Now(), d, free, NO_REG) && c.job.Value? && Shaped(c.job.e, f.code, d)
    && (HasNil(c.job.e) ==> NilClosed(f.code, f.lasttarget)) && c.nact == f.nactvar
  }

  predicate Discharged(e: Exp) { e.k != VLOCAL && e.k != VUPVAL }

  /** luaK_dischargevars (lcode.c:304-334) */
  method DischargeVars(f: FuncState, e: Exp, ghost c: Ctx, ghost d: Desc, ghost free: int) returns (e': Exp)
    requires Compiled(f, c, d, free) && d.e == e
    modifies f`code, f`jpc, f`pending, f`here
    ensures Compiled(f, c, d.(e := e'), free) && Discharged(e') && e'.t == e.t && e'.f == e.f
    ensures (e.k != VUPVAL ==> f.Now() == old(f.Now())) && (Discharged(e) ==> e' == e)
    ensures old(NilClosed(f.code, f.lasttarget)) ==> NilClosed(f.code, f.lasttarget)
  {
    hide Holds, SnapOk, IsList;
    e' := e;
    if e.k == VLOCAL {
      LocalHolds(c, f.Now(), d, free);
      e' := e.(k := VNONRELOC);
    } else if e.k == VUPVAL {
      ghost var s := f.Now();
      OpenHolds(c, s, d, free, GETUPVAL(0, e.info), false);
      HeldKind(c, s, d, free, NO_REG);
      var pc := f.Code(GETUPVAL(0, e.info));
      e' := Exp(VRELOCABLE, pc, e.t, e.f);
      hide Emitted;
      assert f.code[|s.code|] == GETUPVAL(0, e.info) by { EmittedLanded(s, GETUPVAL(0, e.info)); }
    }
  }

  lemma HeldKind(c: Ctx, s: Snap, d: Desc, free: int, x: int)
    requires Holds(c, s, d, free, x)
    ensures c.nact <= c.fr && SnapOk(s) && Closed(s.code)
    ensures var e := d.e;
      && (e.k == VNONRELOC ==>
           (0 <= e.info < c.nact && free == c.fr) || (e.info == c.fr && free == c.fr + 1 && NoCarry(s)))
      && (e.k != VNONRELOC ==> free == c.fr)
      && (e.k == VRELOCABLE ==> 0 <= e.info == |s.code| - 1 && IsLoad(s.code[e.info]) && s.here == [])
      && (e.k == VNIL ==> HasNil(c.job.e)) && (e.k == VK ==> e.info >= 0)
  {
    hide Means, ListsOk, Kept;
  }

  // ----- into a given register -----

  function Place(c: Ctx): Ctx { c.(job := Placed(c.job.e)) }

  function PlacedAt(d: Desc, reg: int): Desc { d.(e := Exp(VNONRELOC, reg, d.e.t, d.e.f)) }

  predicate IsPlain(i: Instr) {
    i.MOVE? || i.LOADK? || i.LOADNIL? || i.GETUPVAL? || i.NOT? || (i.LOADBOOL? && !i.skip)
  }

  /** `i` puts what the descriptor stands for into `reg`. */
  ghost predicate Delivers(code: Code, e: Exp, i: Instr, reg: int) {
    IsPlain(i) && forall r, val :: Remaining(code, e, r, val) ==> Loaded(i, r) == Put(r, reg, val)
  }

  lemma LoadRuns(s: Snap, n: nat, i: Instr, r: Env)
    requires |s.code| == n + 1 && s.code[n] == i && IsPlain(i)
    ensures Run(s.code, s.pending, n, r) == Fall(Loaded(i, r))
  {
    AtEnd(s, n + 1, Loaded(i, r));
  }

  lemma PlacedGood(r: Env, s: Snap, d: Desc, reg: int, fr: int, m: Env, val: CodeVm.Value)
    requires Agree(m, r, fr, NO_REG) && reg >= 0
    ensures Good(Fall(Put(r, reg, val)), s, PlacedAt(d, reg), fr, reg, m, Falls(None, val))
  {}

  lemma LoadMeans(c: Ctx, s: Snap, d: Desc, free: int, i: Instr, reg: int, en: Entry)
    requires Holds(c, s, d, free, NO_REG) && c.job.Value? && Delivers(s.code, d.e, i, reg) && reg >= 0
    ensures MeansIn(Place(c), Emitted(Start(s, d.e), i), PlacedAt(d, reg), reg, en)
  {
    if EntryOk(c, en) {
      var st, a := Start(s, d.e), Arriving(c.o, en);
      var s', d', fl := Emitted(st, i), PlacedAt(d, reg), FlowIn(c.job, en.m, a);
      StartOk(c, s, d, free, NO_REG);
      EmittedLanded(st, i);
      hide Holds, Landed, Emitted, Exits, FlowOf, SnapOk, ListsOk, SameControls, Agree, Remaining, Run, Stays, Loaded;
      hide Start;
      var r := After(c, s, d, free, s', en);
      var o := Outcome0(s', |c.o.code|, en);
      if Exits(o, s', d, c.fr, en.m, fl) {
        ExitLeaves(o, s', d, c.fr, en.m, fl);
        GoodExit(o, s', d, d', c.fr, reg, en.m, fl);
      } else {
        LoadRuns(s', |st.code|, i, r);
        PlacedGood(r, s', d, reg, c.fr, en.m, fl.val);
      }
      StartPlaced(s', d, reg);
    }
  }

  lemma StartPlaced(s: Snap, d: Desc, reg: int)
    ensures Start(s, PlacedAt(d, reg).e) == s
  {}

  lemma ExitLeaves(o: Outcome, s: Snap, d: Desc, fr: int, m: Env, fl: Flow)
    requires Exits(o, s, d, fr, m, fl)
    ensures fl.Leaves? && (fl.truth ==> o.j in d.ts) && (!fl.truth ==> o.j in d.fs)
  {}

  lemma LoadTo(c: Ctx, s: Snap, d: Desc, free: int, i: Instr, reg: int, free': int)
    requires Holds(c, s, d, free, NO_REG) && c.job.Value? && Delivers(s.code, d.e, i, reg) && RegOk(c, reg, free')
    ensures Holds(Place(c), Emitted(Start(s, d.e), i), PlacedAt(d, reg), free', reg)
  {
    var c', s', d' := Place(c), Emitted(Start(s, d.e), i), PlacedAt(d, reg);
    StartOk(c, s, d, free, NO_REG);
    EmittedLanded(Start(s, d.e), i);
    Regrown(c, s, d, free, NO_REG, s', d'.e);
    HeldKind(c, s, d, free, NO_REG);
    assert NoCarry(s');
    hide Landed, Emitted, ListsOk, Kept, MeansIn, SnapOk, Closed, Holds, Delivers;
    forall en ensures MeansIn(c', s', d', reg, en) { LoadMeans(c, s, d, free, i, reg, en); }
    MeansAll(c', s', d', reg);
    assert KindOk(c', s', d'.e, free');
    HoldsParts(c', s', d', free', reg);
  }

  lemma HoldsParts(c: Ctx, s: Snap, d: Desc, free: int, x: int)
    requires Begun(c, s) && Kept(c.o, s) && KindOk(c, s, d.e, free) && ListsOk(c.o, s, d) && Means(c, s, d, x)
    ensures Holds(c, s, d, free, x)
  {}

  function SetA(i: Instr, reg: int): Instr
    requires IsLoad(i)
  {
    if i.GETUPVAL? then GETUPVAL(reg, i.B) else NOT(reg, i.B)
  }

  lemma RelocHolds(c: Ctx, s: Snap, d: Desc, free: int, reg: int, free': int)
    requires Holds(c, s, d, free, NO_REG) && c.job.Value? && d.e.k == VRELOCABLE && RegOk(c, reg, free')
    ensures 0 <= d.e.info == |s.code| - 1 && IsLoad(s.code[d.e.info]) && s.here == []
    ensures var s' := s.(code := s.code[d.e.info := SetA(s.code[d.e.info], reg)]);
      Holds(Place(c), s', PlacedAt(d, reg), free', reg)
  {
    HeldKind(c, s, d, free, NO_REG);
    var st := Start(s, d.e);
    var i := SetA(s.code[d.e.info], reg);
    hide Holds;
    LoadTo(c, s, d, free, i, reg, free');
    PatchNothing(st.code, |st.code|, NO_REG, |st.code|);
    assert Emitted(st, i) == s.(code := s.code[d.e.info := i]);
  }

  lemma SameReg(c: Ctx, s: Snap, d: Desc, free: int, reg: int, free': int)
    requires Holds(c, s, d, free, NO_REG) && c.job.Value? && d.e.k == VNONRELOC && d.e.info == reg
    requires RegOk(c, reg, free')
    ensures Holds(Place(c), s, d, free', reg)
  {
    HeldKind(c, s, d, free, NO_REG);
    hide Kept, SnapOk, Closed, IsList, Exit, Outcome0, FlowOf;
    forall en ensures MeansIn(Place(c), s, d, reg, en) { assert MeansIn(c, s, d, NO_REG, en); }
  }

  /** At the start of a function nothing needs to be done for nil. */
  lemma FreshHolds(c: Ctx, s: Snap, d: Desc, free: int, reg: int, free': int)
    requires Holds(c, s, d, free, NO_REG) && c.job.Value? && d.e.k == VNIL && s.code == []
    requires reg == c.fr && free' == c.fr + 1
    ensures Holds(Place(c), s, PlacedAt(d, reg), free', reg)
  {
    HeldKind(c, s, d, free, NO_REG);
    assert c.o.code == [] by { KeptSize(c.o, s); }
    NoneHere(s);
    NoneHere(c.o);
    ListMembers(s.code, d.e.t, d.ts);
    ListMembers(s.code, d.e.f, d.fs);
    forall en ensures MeansIn(Place(c), s, PlacedAt(d, reg), reg, en) {
      assert MeansIn(c, s, d, NO_REG, en);
      hide Kept, IsList, FlowOf;
    }
  }

  lemma NoneHere(s: Snap)
    requires SnapOk(s) && s.code == []
    ensures forall j :: j !in s.here && j !in s.pending
  {}

  /** A temporary is out of reach of the registers that must agree. */
  lemma TempReg(c: Ctx, s: Snap, d: Desc, free: int)
    requires Holds(c, s, d, free, c.fr) && (c.job.Placed? || c.job.Answer?) && NoCarry(s)
    ensures Holds(c, s, d, free, NO_REG)
  {
    hide Kept, SnapOk, Closed, IsList, Exit, Outcome0, FlowOf, KindOk;
    forall en ensures MeansIn(c, s, d, NO_REG, en) { assert MeansIn(c, s, d, c.fr, en); }
  }

  lemma LiteralDelivers(code: Code, e: Exp, reg: int)
    ensures e.k == VNIL ==> Delivers(code, e, LOADNIL(reg, reg), reg)
    ensures e.k == VTRUE || e.k == VFALSE ==> Delivers(code, e, LOADBOOL(reg, e.k == VTRUE, false), reg)
    ensures e.k == VK ==> Delivers(code, e, LOADK(reg, LitValue(e)), reg)
  {}

  lemma RelocValid(s: Snap, jpc: int, i: int, reg: int)
    requires SnapOk(s) && IsList(s.code, jpc, s.here) && 0 <= i < |s.code| && IsLoad(s.code[i])
    ensures var c' := s.code[i := SetA(s.code[i], reg)]; SnapOk(s.(code := c')) && IsList(c', jpc, s.here)
  {
    var c' := s.code[i := SetA(s.code[i], reg)];
    forall j | j in s.pending ensures JumpAt(c', j) { assert JumpAt(s.code, j); }
    ListFrame(s.code, c', jpc, s.here);
  }

  lemma EmittedLast(s: Snap, i: Instr)
    ensures |Emitted(s, i).code| == |s.code| + 1 && Emitted(s, i).code[|s.code|] == i
  {}

  /** A literal goes to a register (lcode.c:345-361). */
  method LoadLiteral(f: FuncState, e: Exp, reg: int, ghost c: Ctx, ghost d: Desc, ghost free: int)
    requires Compiled(f, c, d, free) && d.e == e && IsLit(e) && RegOk(c, reg, f.freereg)
    modifies f`code, f`jpc, f`pending, f`here
    ensures f.Valid() && Holds(Place(c), f.Now(), PlacedAt(d, reg), f.freereg, reg)
    ensures e.k != VNIL ==> NilClosed(f.code, f.lasttarget)
  {
    ghost var s := f.Now();
    HeldKind(c, s, d, free, NO_REG);
    LiteralDelivers(f.code, e, reg);
    hide Holds, SnapOk, IsList, Emitted, Delivers, Shaped;
    if e.k == VNIL {
      if f.lasttarget < |f.code| == 0 && reg >= f.nactvar {
        FreshHolds(c, s, d, free, reg, f.freereg);
      } else {
        LoadTo(c, s, d, free, LOADNIL(reg, reg), reg, f.freereg);
      }
      f.LoadNil(reg);
    } else {
      var i := if e.k == VK then LOADK(reg, LitValue(e)) else LOADBOOL(reg, e.k == VTRUE, false);
      LoadTo(c, s, d, free, i, reg, f.freereg);
      EmittedLast(s, i);
      var pc := f.Code(i);
    }
  }

  /** discharge2reg (lcode.c:343-379) */
  method Discharge2Reg(f: FuncState, e0: Exp, reg: int, ghost c: Ctx, ghost d: Desc, ghost free: int)
    returns (e: Exp)
    requires Compiled(f, c, d, free) && d.e == e0 && RegOk(c, reg, f.freereg)
    modifies f`code, f`jpc, f`pending, f`here
    ensures f.Valid() && e.t == e0.t && e.f == e0.f
    ensures e0.k == VJMP ==> e == e0 && Compiled(f, c, d, free)
    ensures e0.k != VJMP ==> e == PlacedAt(d, reg).e && Holds(Place(c), f.Now(), PlacedAt(d, reg), f.freereg, reg)
    ensures e0.k != VNIL && old(NilClosed(f.code, f.lasttarget)) ==> NilClosed(f.code, f.lasttarget)
  {
    hide Holds, SnapOk, IsList;
    e := DischargeVars(f, e0, c, d, free);
    ghost var s, d1 := f.Now(), d.(e := e);
    HeldKind(c, s, d1, free, NO_REG);
    if e.k == VJMP { return; }
    if IsLit(e) {
      LoadLiteral(f, e, reg, c, d1, free);
    } else if e.k == VRELOCABLE {
      RelocHolds(c, s, d1, free, reg, f.freereg);
      RelocValid(s, f.jpc, e.info, reg);
      f.code := f.code[e.info := SetA(f.code[e.info], reg)];
    } else if reg != e.info {
      assert Delivers(f.code, e, MOVE(reg, e.info), reg);
      LoadTo(c, s, d1, free, MOVE(reg, e.info), reg, f.freereg);
      EmittedLast(s, MOVE(reg, e.info));
      var pc := f.Code(MOVE(reg, e.info));
    } else {
      SameReg(c, s, d1, free, reg, f.freereg);
    }
    e := Exp(VNONRELOC, reg, e.t, e.f);
  }
}
