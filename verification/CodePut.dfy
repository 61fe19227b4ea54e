/** Putting a whole expression, with its jumps, into a register or an operand (lcode.c:390-469). */
module CodePut {
  import opened CodeVm
  import opened CodeLists
  import opened CodeState
  import opened CodeFlow
  import opened CodeExp
  import opened CodeReg
  import opened CodeSettle
  import opened CodeToReg

  // ----- the jump of a comparison -----

  /** invertjump (lcode.c:516-521) */
  function Inverted(i: Instr): Instr
    requires i.CMP?
  {
    CMP(i.op, !i.cond, i.b, i.c)
  }

  /** The jump at `j` is taken when the comparison fails (`turn`), or as it was. */
  ghost function Turned(s: Snap, j: int, turn: bool): Snap
    requires 1 <= j < |s.code| && s.code[j - 1].CMP?
  {
    if turn then s.(code := s.code[j - 1 := Inverted(s.code[j - 1])]) else s
  }

  lemma JumpParts(c: Ctx, s: Snap, d: Desc, free: int, turn: bool)
    requires Holds(c, s, d, free, NO_REG) && d.e.k == VJMP
    ensures var j := d.e.info;
      && 1 <= j == |s.code| - 1 && s.code[j - 1].CMP? && s.code[j] == JMP(NO_JUMP) && j in s.pending && s.here == []
      && |c.o.code| < j && |Start(s, d.e).code| == j - 1 && free == c.fr
      && var s' := Turned(s, j, turn);
         Landed(Start(s, d.e), s') && SnapOk(s') && Closed(s'.code) && IsList(s'.code, j, [j])
  {
    StartShape(c, s, d, free, NO_REG);
    hide Means, ListsOk, Kept;
    var j := d.e.info;
    var s' := Turned(s, j, turn);
    forall k | k in s'.pending ensures JumpAt(s'.code, k) { assert JumpAt(s.code, k); }
    forall i | 0 <= i < j - 1 ensures LandedAt(Start(s, d.e), s', i) {}
    assert IsList(s'.code, NO_JUMP, [j][1..]);
  }

  /** What the jump is for: to leave in the case that is not wanted, or to give true. */
  ghost predicate JumpFor(c: Ctx, c': Ctx, want: bool, k: Kind) {
    && c.job.Value? && ShapeOf(c.job.e) == SJmp
    && (|| (c' == c.(job := Split(want, c.job.e)) && k == Passed)
        || (c' == c.(job := Joined(c.job.e)) && !want && k == KnownFalse))
  }

  function Left(d: Desc, k: Kind): Desc { d.(e := Exp(k, 0, d.e.t, d.e.f)) }

  lemma TestRuns(s: Snap, n: nat, r: Env)
    requires |s.code| == n + 2 && IsTest(s.code[n]) && s.code[n + 1].JMP? && n + 1 in s.pending
    ensures Run(s.code, s.pending, n, r) == if Taken(s.code[n], r) then Via(n + 1, r, true) else Fall(r)
  {
    AtEnd(s, n + 2, r);
  }

  lemma CompareFlow(c: Ctx, c': Ctx, want: bool, k: Kind, m: Env, a: Option<CodeVm.Value>)
    requires JumpFor(c, c', want, k)
    ensures var fl, fl' := FlowIn(c.job, m, a), FlowIn(c'.job, m, a);
      if fl.Leaves? then fl' == fl
      else
        && (fl.val == True || fl.val == False)
        && (if IsFalse(fl.val) == want then fl' == Leaves(!want, None) else fl'.Falls? && fl'.carry.None?)
        && (k == KnownFalse && fl'.Falls? ==> fl'.val == False)
  {
    LiteralFlow(c.job.e, m, a);
    hide FlowOf, ShapeOf;
  }

  lemma CompareGood(s: Snap, d: Desc, want: bool, k: Kind, s': Snap, fr: int, m: Env, r: Env, fl: Flow, fl': Flow)
    requires d.e.k == VJMP && 1 <= d.e.info < |s.code| && s.code[d.e.info - 1].CMP? && s' == Turned(s, d.e.info, want)
    requires Agree(m, r, fr, NO_REG) && fl.Falls? && Remaining(s.code, d.e, r, fl.val)
    requires k == Passed || k == KnownFalse
    requires if IsFalse(fl.val) == want then fl' == Leaves(!want, None) else fl'.Falls? && fl'.carry.None?
    requires k == KnownFalse && fl'.Falls? ==> fl'.val == False
    ensures var o := if Taken(s'.code[d.e.info - 1], r) then Via(d.e.info, r, true) else Fall(r);
      Good(o, s', With(Left(d, k), want, [d.e.info]), fr, NO_REG, m, fl')
  {}

  lemma GoodWith(o: Outcome, s: Snap, d: Desc, k: Kind, want: bool, js: seq<int>, fr: int, m: Env, fl: Flow)
    requires Exits(o, s, d, fr, m, fl)
    ensures Good(o, s, With(Left(d, k), want, js), fr, NO_REG, m, fl)
  {
    GoodExit(o, s, d, With(Left(d, k), want, js), fr, NO_REG, m, fl);
  }

  lemma StartLeft(s: Snap, d: Desc, want: bool, k: Kind)
    requires k == Passed || k == KnownFalse
    ensures Start(s, With(Left(d, k), want, [d.e.info]).e) == s
  {}

  lemma CompareMeans(c: Ctx, c': Ctx, s: Snap, d: Desc, free: int, want: bool, k: Kind, s': Snap, en: Entry)
    requires Holds(c, s, d, free, NO_REG) && d.e.k == VJMP && JumpFor(c, c', want, k)
    requires 1 <= d.e.info < |s.code| && s.code[d.e.info - 1].CMP? && s' == Turned(s, d.e.info, want)
    ensures MeansIn(c', s', With(Left(d, k), want, [d.e.info]), NO_REG, en)
  {
    hide Holds, Landed, Exits, FlowIn, SnapOk, Agree, Remaining, Run, Stays, Taken, IsList, Closed, Start, Turned;
    hide ListsOk, FlowOf, Good, With, Left, Outcome0, SameControls, Fresh, Arriving;
    if EntryOk(c, en) {
      var d', j, a := With(Left(d, k), want, [d.e.info]), d.e.info, Arriving(c.o, en);
      var fl, fl' := FlowIn(c.job, en.m, a), FlowIn(c'.job, en.m, a);
      JumpParts(c, s, d, free, want);
      CompareFlow(c, c', want, k, en.m, a);
      assert k == Passed || k == KnownFalse;
      hide JumpFor;
      var r := After(c, s, d, free, s', en);
      var o := Outcome0(s', |c.o.code|, en);
      if Exits(o, s', d, c.fr, en.m, fl) {
        ExitLeaves(o, s', d, c.fr, en.m, fl);
        GoodWith(o, s', d, k, want, [j], c.fr, en.m, fl);
      } else {
        TurnedAt(s, j, want);
        TestRuns(s', j - 1, r);
        CompareGood(s, d, want, k, s', c.fr, en.m, r, fl, fl');
      }
      StartLeft(s', d, want, k);
    }
  }

  lemma TurnedAt(s: Snap, j: int, turn: bool)
    requires 1 <= j < |s.code| && s.code[j - 1].CMP?
    ensures var s' := Turned(s, j, turn);
      |s'.code| == |s.code| && s'.code[j - 1].CMP? && s'.code[j] == s.code[j] && s'.pending == s.pending
  {}

  /** The comparison's jump is ready to join a list. */
  lemma CompareJoins(c: Ctx, c': Ctx, s: Snap, d: Desc, free: int, want: bool, k: Kind)
    requires Holds(c, s, d, free, NO_REG) && d.e.k == VJMP && JumpFor(c, c', want, k)
    ensures 1 <= d.e.info == |s.code| - 1 && s.code[d.e.info - 1].CMP? && s.here == [] && free == c.fr
    ensures var s' := Turned(s, d.e.info, want);
      && SnapOk(s') && NewList(c', s', Left(d, k), [d.e.info]) && IsList(s'.code, d.e.info, [d.e.info])
      && Means(c', s', With(Left(d, k), want, [d.e.info]), NO_REG)
  {
    JumpParts(c, s, d, free, want);
    var s', d1 := Turned(s, d.e.info, want), Left(d, k);
    Regrown(c, s, d, free, NO_REG, s', d1.e);
    assert Disjoint([d.e.info], d.ts) && Disjoint([d.e.info], d.fs) by { hide Means, Kept, IsList, Landed; }
    hide Landed, Kept, IsList, Means, MeansIn, SnapOk, Closed, ListsOk;
    forall en ensures MeansIn(c', s', With(d1, want, [d.e.info]), NO_REG, en) {
      CompareMeans(c, c', s, d, free, want, k, s', en);
    }
    MeansAll(c', s', With(d1, want, [d.e.info]), NO_REG);
  }

  // ----- jumps join a list -----

  /** luaK_concat on one of the lists of a descriptor (lcode.c:393, 561, 588). */
  method Append(f: FuncState, e: Exp, want: bool, l: int, ghost c: Ctx, ghost d: Desc, ghost js: seq<int>)
    returns (e': Exp)
    requires f.Valid() && d.e == e && NewList(c, f.Now(), d, js) && IsList(f.code, l, js) && !c.job.Value?
    requires Means(c, f.Now(), With(d, want, js), NO_REG)
    modifies f`code
    ensures f.Valid() && e'.k == e.k && e'.info == e.info && |f.code| == |old(f.code)|
    ensures Holds(c, f.Now(), With(d, want, js).(e := e'), c.fr, NO_REG)
    ensures forall j :: 0 <= j < |f.code| && !old(f.code)[j].JMP? ==> f.code[j] == old(f.code)[j]
  {
    hide Holds, Linked, NewList, Means, IsList, SnapOk;
    ghost var s := f.Now();
    AppendParts(c, s, d, want, js, f.jpc);
    if want {
      var l' := f.Concat(e.f, l, d.fs, js);
      e' := Exp(e.k, e.info, e.t, l');
    } else {
      var l' := f.Concat(e.t, l, d.ts, js);
      e' := Exp(e.k, e.info, l', e.f);
    }
    AppendedHolds(c, s, d, want, js, f.Now(), With(d, want, js).(e := e'));
  }

  lemma AppendParts(c: Ctx, s: Snap, d: Desc, want: bool, js: seq<int>, jpc: int)
    requires NewList(c, s, d, js) && IsList(s.code, jpc, s.here)
    ensures var a := ListFor(d, want);
      && IsList(s.code, d.e.t, d.ts) && IsList(s.code, d.e.f, d.fs) && Disjoint(a, js)
      && SnapOk(s.(code := Linked(s.code, a, js))) && IsList(Linked(s.code, a, js), jpc, s.here)
      && |Linked(s.code, a, js)| == |s.code|
      && forall j :: 0 <= j < |s.code| && !s.code[j].JMP? ==> Linked(s.code, a, js)[j] == s.code[j]
  {
    var a := ListFor(d, want);
    LinkedCompat(s, a, js);
    LinkedValid(s, a, js);
    hide Kept, KindOk, SnapOk, Compat;
    KeepsList(s, a, js, jpc, s.here);
  }

  /** Relinking a list leaves the others. */
  lemma KeepsList(s: Snap, a: seq<int>, b: seq<int>, l: int, js: seq<int>)
    requires IsList(s.code, l, js) && (Disjoint(a, js) || Disjoint(js, a))
    ensures IsList(Linked(s.code, a, b), l, js)
  {
    ListMembers(s.code, l, js);
    assert a != [] ==> a[|a| - 1] in a;
    ListFrame(s.code, Linked(s.code, a, b), l, js);
  }

  /** A comparison's jump joins the true list (lcode.c:392-393). */
  method JoinTrue(f: FuncState, e: Exp, ghost c: Ctx, ghost d: Desc, ghost free: int) returns (e': Exp)
    requires Compiled(f, c, d, free) && d.e == e && e.k == VJMP
    modifies f`code
    ensures f.Valid() && f.here == [] && free == c.fr && e'.k == KnownFalse
    ensures var d' := With(d, false, [e.info]).(e := e');
      Holds(c.(job := Joined(c.job.e)), f.Now(), d', c.fr, NO_REG) && NeedsLoad(f.code, d')
  {
    hide Holds, Means, NewList, SnapOk, IsList;
    ghost var s, c' := f.Now(), c.(job := Joined(c.job.e));
    CompareJoins(c, c', s, d, free, false, KnownFalse);
    e' := Append(f, Exp(KnownFalse, 0, e.t, e.f), false, e.info, c', Left(d, KnownFalse), [e.info]);
    assert e.info in With(d, false, [e.info]).ts && !HasValue(f.code, e.info);
  }

  // ----- exp2reg -----

  /** The loads exp2reg appends where some jump needs one (lcode.c:399-403). */
  method CodeLoads(f: FuncState, jmp: bool, reg: int) returns (pf: int, pt: int)
    requires f.Valid() && (jmp ==> f.here == [])
    modifies f`code, f`jpc, f`pending, f`here, f`lasttarget
    ensures f.Valid()
    ensures var n := |old(f.code)|;
      if jmp then f.Now() == old(f.Now()).(code := old(f.code) + Loads(reg)) && pf == n && pt == n + 1
      else
        && f.Now() == Snap(Jumped(old(f.Now())).code + Loads(reg), old(f.pending) + {n}, [n] + old(f.here))
        && pf == n + 1 && pt == n + 2
  {
    var fj := NO_JUMP;
    ghost var js := [];
    if !jmp { fj, js := f.Jump(); }
    ghost var s1 := f.Now();
    pf := CodeLabel(f, reg, false, true);
    pt := CodeLabel(f, reg, true, false);
    ListFrame(s1.code, f.code, fj, js);
    ListMembers(s1.code, fj, js);
    f.PatchToHere(fj, js);
  }

  /** code_label (lcode.c:337-340), where nothing jumps here yet. */
  method CodeLabel(f: FuncState, a: int, b: bool, jump: bool) returns (pc: int)
    requires f.Valid() && f.here == []
    modifies f`code, f`jpc, f`pending, f`here, f`lasttarget
    ensures f.Valid() && f.Now() == old(f.Now()).(code := old(f.code) + [LOADBOOL(a, b, jump)]) && pc == |old(f.code)|
  {
    f.lasttarget := |f.code|;
    PatchNothing(f.code, |f.code|, NO_REG, |f.code|);
    assert f.pending - Elements([]) == f.pending;
    pc := f.Code(LOADBOOL(a, b, jump));
  }

  /** Both lists get their targets (lcode.c:404-406). */
  method PatchLists(f: FuncState, e: Exp, g: Targets, ghost d: Desc)
    requires IsList(f.code, e.t, d.ts) && IsList(f.code, e.f, d.fs) && IsList(f.code, f.jpc, f.here)
    requires Disjoint(d.ts, d.fs) && Disjoint(d.ts, f.here) && Disjoint(d.fs, f.here)
    modifies f`code, f`pending
    ensures f.code == PatchBoth(old(f.code), d, g)
    ensures f.pending == old(f.pending) - Elements(d.ts) - Elements(d.fs) && IsList(f.code, f.jpc, f.here)
  {
    hide Patched, IsList;
    ghost var c1 := f.code;
    PatchedKeeps(c1, d.fs, g.v, g.reg, g.pf, e.t, d.ts);
    PatchedKeeps(c1, d.fs, g.v, g.reg, g.pf, f.jpc, f.here);
    f.PatchListAux(e.f, g.v, g.reg, g.pf, d.fs);
    PatchedKeeps(f.code, d.ts, g.v, g.reg, g.pt, f.jpc, f.here);
    f.PatchListAux(e.t, g.v, g.reg, g.pt, d.ts);
    f.pending := f.pending - Elements(d.ts) - Elements(d.fs);
  }

  /** Patching one list leaves the others. */
  lemma PatchedKeeps(code: Code, s: seq<int>, v: int, reg: int, t: int, l: int, js: seq<int>)
    requires IsList(code, l, js) && Disjoint(s, js)
    ensures IsList(Patched(code, s, v, reg, t), l, js)
  {
    ListMembers(code, l, js);
    ListFrame(code, Patched(code, s, v, reg, t), l, js);
  }

  /** need_value on both lists, and the loads (lcode.c:398-403). */
  method Prepare(f: FuncState, e: Exp, reg: int, ghost d: Desc) returns (pf: int, pt: int)
    requires f.Valid() && IsList(f.code, e.t, d.ts) && IsList(f.code, e.f, d.fs) && d.e == e
    requires e.k == VNONRELOC || (e.k == KnownFalse && f.here == [])
    modifies f`code, f`jpc, f`pending, f`here, f`lasttarget
    ensures f.Valid() && Prepared(old(f.Now()), d, reg, f.Now(), pf, pt)
  {
    pf, pt := NO_JUMP, NO_JUMP;
    var need := f.NeedValue(e.t, d.ts);
    if !need { need := f.NeedValue(e.f, d.fs); }
    assert need <==> NeedsLoad(f.code, d);
    hide NeedsLoad, IsList, SnapOk;
    if need {
      pf, pt := CodeLoads(f, e.k != VNONRELOC, reg);
    }
  }

  /** The lists are still there. */
  lemma PreparedLists(s: Snap, d: Desc, reg: int, s1: Snap, pf: int, pt: int)
    requires Prepared(s, d, reg, s1, pf, pt) && Lists(s, d) && IsList(s.code, d.e.t, d.ts)
    requires IsList(s.code, d.e.f, d.fs)
    ensures IsList(s1.code, d.e.t, d.ts) && IsList(s1.code, d.e.f, d.fs)
    ensures Disjoint(d.ts, d.fs) && Disjoint(d.ts, s1.here) && Disjoint(d.fs, s1.here)
  {
    hide NeedsLoad;
    NotAtEnd(s, d);
    forall j | 0 <= j < |s.code| ensures s1.code[j] == s.code[j] {}
    ListFrame(s.code, s1.code, d.e.t, d.ts);
    ListFrame(s.code, s1.code, d.e.f, d.fs);
  }

  /** The part of exp2reg for expressions with jumps (lcode.c:394-406). */
  method Settle(f: FuncState, e: Exp, reg: int, ghost d: Desc) returns (ghost s1: Snap, ghost pf: int, ghost pt: int)
    requires f.Valid() && Lists(f.Now(), d) && IsList(f.code, e.t, d.ts) && IsList(f.code, e.f, d.fs) && d.e == e
    requires e.k == VNONRELOC || (e.k == KnownFalse && f.here == [])
    modifies f`code, f`jpc, f`pending, f`here, f`lasttarget
    ensures Settled(old(f.Now()), d, reg, s1, pf, pt, f.Now())
    ensures IsList(f.code, f.jpc, f.here) && f.lasttarget == |f.code|
  {
    hide PatchBoth, NeedsLoad, IsList, SnapOk, Lists, Disjoint, Elements, Prepared;
    ghost var s := f.Now();
    var nf, nt := Prepare(f, e, reg, d);
    s1, pf, pt := f.Now(), nf, nt;
    PreparedLists(s, d, reg, s1, nf, nt);
    var final := |f.code|;
    f.lasttarget := final;
    PatchLists(f, e, Targets(final, reg, nf, nt), d);
    assert |f.code| == final by { BothSize(s1.code, d, Targets(final, reg, nf, nt)); }
  }

  lemma BothSize(code: Code, d: Desc, g: Targets)
    ensures |PatchBoth(code, d, g)| == |code|
  {}

  lemma NoJumps(code: Code, d: Desc)
    requires IsList(code, d.e.t, d.ts) && IsList(code, d.e.f, d.fs) && Disjoint(d.ts, d.fs)
    ensures d.e.t == d.e.f <==> d.ts == [] && d.fs == []
    ensures d.e.t == d.e.f ==> d.e.t == NO_JUMP
  {
    assert d.ts != [] ==> d.ts[0] in d.ts;
    assert d.fs != [] ==> d.fs[0] in d.fs;
  }

  lemma HeldLists(c: Ctx, s: Snap, d: Desc, free: int, x: int)
    requires Holds(c, s, d, free, x)
    ensures IsList(s.code, d.e.t, d.ts) && IsList(s.code, d.e.f, d.fs) && Lists(s, d) && Disjoint(d.ts, d.fs)
    ensures Closed(s.code) && SnapOk(s)
  {
    HeldKept(c, s, d, free, x);
    hide Holds, Kept;
  }

  /** Without jumps, what is in the register is the answer. */
  lemma PlacedAnswer(c: Ctx, s: Snap, d: Desc, free: int, reg: int)
    requires Holds(Place(c), s, d, free, reg) && d == InReg(reg)
    ensures Holds(Finished(c), s, d, free, reg)
  {
    hide Kept, SnapOk, Closed, IsList, Exit, Outcome0, FlowOf, KindOk, NoCarry;
    forall en ensures MeansIn(Finished(c), s, d, reg, en) { assert MeansIn(Place(c), s, d, reg, en); }
    assert KindOk(Finished(c), s, d.e, free) by { PlacedKind(c, s, d.e, free); }
  }

  lemma PlacedKind(c: Ctx, s: Snap, e: Exp, free: int)
    requires KindOk(Place(c), s, e, free) && e.k == VNONRELOC
    ensures KindOk(Finished(c), s, e, free)
  {}

  lemma DescParts(c: Ctx, s: Snap, d: Desc, free: int, x: int, e: Exp)
    requires Holds(c, s, d, free, x) && d.e == e
    ensures Lists(s, d) && IsList(s.code, e.t, d.ts) && IsList(s.code, e.f, d.fs) && Closed(s.code)
    ensures e.t == e.f <==> d.ts == [] && d.fs == []
    ensures e.t == e.f ==> e.t == NO_JUMP
  {
    HeldLists(c, s, d, free, x);
    NoJumps(s.code, d);
  }

  /** exp2reg (lcode.c:390-411) */
  method Exp2Reg(f: FuncState, e0: Exp, reg: int, ghost c: Ctx, ghost d: Desc, ghost free: int) returns (e: Exp)
    requires Compiled(f, c, d, free) && d.e == e0 && RegOk(c, reg, f.freereg)
    modifies f`code, f`jpc, f`pending, f`here, f`lasttarget
    ensures f.Valid() && e == InReg(reg).e && Holds(Finished(c), f.Now(), InReg(reg), f.freereg, reg)
    ensures e0.k != VNIL || d.ts != [] || d.fs != [] ==>
      old(NilClosed(f.code, f.lasttarget)) ==> NilClosed(f.code, f.lasttarget)
  {
    hide Holds, Lists, Settled, IsList, SnapOk, Shaped;
    e := Discharge2Reg(f, e0, reg, c, d, free);
    ghost var c1, d1, x, free1 := Place(c), PlacedAt(d, reg), reg, f.freereg;
    if e.k == VJMP {
      e := JoinTrue(f, e, c, d, free);
      c1, d1, x, free1 := c.(job := Joined(c.job.e)), With(d, false, [e0.info]).(e := e), NO_REG, free;
    }
    DescParts(c1, f.Now(), d1, free1, x, e);
    if e.t != e.f {
      ghost var s := f.Now();
      HeldKind(c1, s, d1, free1, x);
      ghost var s1, pf, pt := Settle(f, e, reg, d1);
      SettledOk(s, d1, reg, s1, pf, pt, f.Now());
      SettledHolds(c1, s, d1, free1, x, reg, s1, pf, pt, f.Now(), f.freereg);
    } else {
      PlacedAnswer(c, f.Now(), d1, free1, reg);
    }
    e := Exp(VNONRELOC, reg, NO_JUMP, NO_JUMP);
  }

  // ----- any register -----

  /** freeexp and freereg (lcode.c:215-226) */
  method FreeExp(f: FuncState, e: Exp)
    requires f.Valid() && (e.k == VNONRELOC && e.info >= f.nactvar ==> f.freereg > f.nactvar)
    modifies f`freereg
    ensures f.Valid()
    ensures f.freereg == if e.k == VNONRELOC && e.info >= f.nactvar then old(f.freereg) - 1 else old(f.freereg)
  {
    if e.k == VNONRELOC && e.info >= f.nactvar {
      f.freereg := f.freereg - 1;
    }
  }

  /** luaK_exp2nextreg (lcode.c:414-419) */
  method Exp2NextReg(f: FuncState, e0: Exp, ghost c: Ctx, ghost d: Desc) returns (e: Exp)
    requires Compiled(f, c, d, f.freereg) && d.e == e0
    modifies f`code, f`jpc, f`pending, f`here, f`lasttarget, f`freereg
    ensures f.Valid() && e == InReg(c.fr).e && Holds(Finished(c), f.Now(), InReg(c.fr), f.freereg, NO_REG)
    ensures f.freereg == c.fr + 1
    ensures e0.k != VNIL || d.ts != [] || d.fs != [] ==>
      old(NilClosed(f.code, f.lasttarget)) ==> NilClosed(f.code, f.lasttarget)
  {
    hide Holds, SnapOk, IsList, Closed;
    ghost var free := f.freereg;
    e := DischargeVars(f, e0, c, d, free);
    ghost var d1 := d.(e := e);
    HeldKind(c, f.Now(), d1, free, NO_REG);
    FreeExp(f, e);
    f.freereg := f.freereg + 1;
    assert e0.k != VNIL ==> e.k != VNIL;
    e := Exp2Reg(f, e, f.freereg - 1, c, d1, free);
    HeldKind(Finished(c), f.Now(), InReg(c.fr), f.freereg, c.fr);
    TempReg(Finished(c), f.Now(), InReg(c.fr), f.freereg);
  }

  function AsOp(c: Ctx): Ctx { c.(job := AsOperand(c.job.e)) }

  /** Without jumps, a register or a literal can stay what it is. */
  lemma StaysOperand(c: Ctx, s: Snap, d: Desc, free: int)
    requires Holds(c, s, d, free, NO_REG) && c.job.Value? && Shaped(c.job.e, s.code, d) && d.ts == [] && d.fs == []
    requires d.e.k == VNONRELOC || IsLit(d.e)
    ensures Holds(AsOp(c), s, d, free, NO_REG)
  {
    hide Kept, SnapOk, Closed, IsList, Exit, Outcome0, FlowOf, Remaining;
    assert Still(c.job.e) by { NilShape(c.job.e); }
    hide Shaped;
    forall en ensures MeansIn(AsOp(c), s, d, NO_REG, en) { assert MeansIn(c, s, d, NO_REG, en); }
  }

  /** An answer in a register is an operand of an expression that emitted code. */
  lemma AnswerOperand(c: Ctx, s: Snap, d: Desc, free: int)
    requires Holds(Finished(c), s, d, free, NO_REG) && !Still(c.job.e) && d.e.k == VNONRELOC
    ensures Holds(AsOp(c), s, d, free, NO_REG)
  {
    hide Kept, SnapOk, Closed, IsList, Exit, Outcome0, FlowOf, Remaining, ListsOk, Still;
    forall en ensures MeansIn(AsOp(c), s, d, NO_REG, en) { assert MeansIn(Finished(c), s, d, NO_REG, en); }
  }

  /** What is in the register luaK_exp2anyreg gives: a register that needed no code may still be reached by jumps
      that carry other values. */
  function InAny(c: Ctx): Ctx {
    if Still(c.job.e) && ShapeOf(c.job.e) == SReg then AsOp(c) else Finished(c)
  }

  /** luaK_exp2anyreg (lcode.c:422-433) */
  method Exp2AnyReg(f: FuncState, e0: Exp, ghost c: Ctx, ghost d: Desc) returns (e: Exp)
    requires Compiled(f, c, d, f.freereg) && d.e == e0
    modifies f`code, f`jpc, f`pending, f`here, f`lasttarget, f`freereg
    ensures f.Valid() && e == InReg(e.info).e && Holds(InAny(c), f.Now(), InReg(e.info), f.freereg, NO_REG)
    ensures e0.k != VNIL || d.ts != [] || d.fs != [] ==>
      old(NilClosed(f.code, f.lasttarget)) ==> NilClosed(f.code, f.lasttarget)
  {
    hide Holds, SnapOk, IsList, Closed;
    e := DischargeVars(f, e0, c, d, f.freereg);
    ghost var d1 := d.(e := e);
    HeldKind(c, f.Now(), d1, f.freereg, NO_REG);
    DescParts(c, f.Now(), d1, f.freereg, NO_REG, e);
    if e.k == VNONRELOC {
      if e.t == e.f {
        StaysOperand(c, f.Now(), d1, f.freereg);
        return;
      }
      if e.info >= f.nactvar {
        e := Exp2Reg(f, e, e.info, c, d1, f.freereg);
        HeldKind(Finished(c), f.Now(), InReg(c.fr), f.freereg, c.fr);
        TempReg(Finished(c), f.Now(), InReg(c.fr), f.freereg);
        return;
      }
    }
    assert e0.k != VNIL ==> e.k != VNIL;
    e := Exp2NextReg(f, e, c, d1);
  }

  function OperandOf(e: Exp): Operand { if IsLit(e) then K(LitValue(e)) else R(e.info) }

  /** luaK_exp2RK (lcode.c:436-469): a literal stays a constant, anything else goes to a register. */
  method Exp2RK(f: FuncState, e0: Exp, ghost c: Ctx, ghost d: Desc) returns (e: Exp, o: Operand)
    requires Compiled(f, c, d, f.freereg) && d.e == e0
    modifies f`code, f`jpc, f`pending, f`here, f`lasttarget, f`freereg
    ensures f.Valid() && Holds(AsOp(c), f.Now(), Desc(e, [], []), f.freereg, NO_REG)
    ensures (e.k == VNONRELOC || IsLit(e)) && o == OperandOf(e)
    ensures old(NilClosed(f.code, f.lasttarget)) ==> NilClosed(f.code, f.lasttarget)
  {
    hide Holds, SnapOk, IsList, Closed;
    DescParts(c, f.Now(), d, f.freereg, NO_REG, e0);
    if e0.t != e0.f {
      e := Exp2AnyReg(f, e0, c, d);
      assert !Still(c.job.e);
      AnswerOperand(c, f.Now(), InReg(e.info), f.freereg);
    } else {
      e := DischargeVars(f, e0, c, d, f.freereg);
      ghost var d1 := d.(e := e);
      if IsLit(e) {
        StaysOperand(c, f.Now(), d1, f.freereg);
      } else {
        e := Exp2AnyReg(f, e, c, d1);
        if !Still(c.job.e) { AnswerOperand(c, f.Now(), InReg(e.info), f.freereg); }
      }
    }
    o := OperandOf(e);
  }
}
