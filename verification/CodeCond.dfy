/** Conditional jumps: luaK_goiftrue and luaK_goiffalse (lcode.c:516-591). */
module CodeCond {
  import opened CodeVm
  import opened CodeLists
  import opened CodeState
  import opened CodeFlow
  import opened CodeExp
  import opened CodeReg
  import opened CodeSettle
  import opened CodeToReg
  import opened CodePut

  function SplitCtx(c: Ctx, want: bool): Ctx { c.(job := Split(want, c.job.e)) }

  function BranchCtx(c: Ctx, want: bool): Ctx { c.(job := Branch(want, c.job.e)) }

  /** The jumps `js` lead away in the case that is not wanted, and are about to join the list for it. */
  ghost predicate Joinable(c: Ctx, s: Snap, d: Desc, want: bool, js: seq<int>, l: int) {
    && NewList(SplitCtx(c, want), s, Left(d, Passed), js) && IsList(s.code, l, js)
    && Means(SplitCtx(c, want), s, With(Left(d, Passed), want, js), NO_REG)
  }

  // ----- a test and its jump -----

  /** The test `i` jumps exactly when the value is not as wanted, and a TESTSET brings it along. */
  ghost predicate DecidesIn(i: Instr, r: Env, val: CodeVm.Value, want: bool)
    requires IsTest(i)
  {
    Taken(i, r) == (IsFalse(val) == want) && (i.TESTSET? ==> Get(r, i.B) == val)
  }

  ghost predicate Decides(c: Ctx, code: Code, e: Exp, i: Instr, want: bool) {
    var sh := ShapeOf(c.job.e);
    && (c.job.Value? || c.job.Placed?) && Jumps(want, sh) && !Always(want, sh) && sh != SJmp
    && (if sh == SNot then i.TEST? else i.TESTSET?)
    && forall r, val :: Remaining(code, e, r, val) ==> DecidesIn(i, r, val, want)
  }

  ghost function TestJump(s: Snap, i: Instr): Snap { Jumped(Emitted(s, i)) }

  lemma TestJumpLanded(s: Snap, i: Instr)
    requires SnapOk(s)
    ensures var s' := TestJump(s, i);
      && Landed(s, s') && SnapOk(s') && s'.here == [] && |s'.code| == |s.code| + 2 && Closed(s'.code)
      && s'.code[|s.code|] == i && s'.code[|s.code| + 1] == JMP(NO_JUMP) && |s.code| + 1 in s'.pending
  {
    EmittedLanded(s, i);
    var s1, s' := Emitted(s, i), TestJump(s, i);
    forall k | 0 <= k < |s.code| ensures LandedAt(s, s', k) { assert LandedAt(s, s1, k); }
    forall j | j in s'.pending ensures JumpAt(s'.code, j) { assert j in s1.pending ==> JumpAt(s1.code, j); }
  }

  lemma TestFlow(c: Ctx, code: Code, e: Exp, i: Instr, want: bool, m: Env, a: Option<CodeVm.Value>)
    requires Decides(c, code, e, i, want)
    ensures var fl, fl' := FlowIn(c.job, m, a), FlowIn(SplitCtx(c, want).job, m, a);
      if fl.Leaves? then fl' == fl
      else if IsFalse(fl.val) != want then fl' == Falls(None, Nil)
      else fl' == Leaves(!want, if i.TESTSET? then Some(fl.val) else None)
  {
    hide FlowOf, ShapeOf, DecidesIn;
  }

  lemma TestGood(s: Snap, d: Desc, want: bool, n: nat, i: Instr, fr: int, m: Env, r: Env, val: CodeVm.Value, fl: Flow)
    requires |s.code| == n + 2 && s.code[n] == i && (i.TEST? || i.TESTSET?) && DecidesIn(i, r, val, want)
    requires Agree(m, r, fr, NO_REG)
    requires fl == if IsFalse(val) != want then Falls(None, Nil)
                   else Leaves(!want, if i.TESTSET? then Some(val) else None)
    ensures var o := if Taken(i, r) then Via(n + 1, r, true) else Fall(r);
      Good(o, s, With(Left(d, Passed), want, [n + 1]), fr, NO_REG, m, fl)
  {}

  lemma TestMeans(c: Ctx, s: Snap, d: Desc, free: int, i: Instr, want: bool, en: Entry)
    requires Holds(c, s, d, free, NO_REG) && Decides(c, s.code, d.e, i, want)
    ensures var st := Start(s, d.e);
      MeansIn(SplitCtx(c, want), TestJump(st, i), With(Left(d, Passed), want, [|st.code| + 1]), NO_REG, en)
  {
    hide Holds, Landed, Exits, FlowIn, SnapOk, Agree, Run, Stays, Taken, IsList, Closed, TestJump;
    hide ListsOk, FlowOf, Good, With, Left, Outcome0, SameControls, Fresh, Arriving, DecidesIn, Remaining;
    if EntryOk(c, en) {
      var st, a := Start(s, d.e), Arriving(c.o, en);
      var s', n, d' := TestJump(st, i), |st.code|, With(Left(d, Passed), want, [|st.code| + 1]);
      var fl, fl' := FlowIn(c.job, en.m, a), FlowIn(SplitCtx(c, want).job, en.m, a);
      StartOk(c, s, d, free, NO_REG);
      TestJumpLanded(st, i);
      TestFlow(c, s.code, d.e, i, want, en.m, a);
      var r := After(c, s, d, free, s', en);
      var o := Outcome0(s', |c.o.code|, en);
      if Exits(o, s', d, c.fr, en.m, fl) {
        ExitLeaves(o, s', d, c.fr, en.m, fl);
        GoodWith(o, s', d, Passed, want, [n + 1], c.fr, en.m, fl);
      } else {
        TestRuns(s', n, r);
        TestGood(s', d, want, n, i, c.fr, en.m, r, fl.val, fl');
      }
      hide Start;
      StartPassed(s', d, want, n + 1);
    }
  }

  lemma StartPassed(s: Snap, d: Desc, want: bool, j: int)
    ensures Start(s, With(Left(d, Passed), want, [j]).e) == s
  {}

  lemma TestJoins(c: Ctx, s: Snap, d: Desc, free: int, i: Instr, want: bool)
    requires Holds(c, s, d, free, NO_REG) && Decides(c, s.code, d.e, i, want)
    ensures var j := |Start(s, d.e).code| + 1;
      SnapOk(Start(s, d.e)) && Joinable(c, TestJump(Start(s, d.e), i), d, want, [j], j)
  {
    var st, c' := Start(s, d.e), SplitCtx(c, want);
    var s', j := TestJump(st, i), |st.code| + 1;
    StartOk(c, s, d, free, NO_REG);
    TestJumpLanded(st, i);
    Regrown(c, s, d, free, NO_REG, s', Left(d, Passed).e);
    assert Disjoint([j], d.ts) && Disjoint([j], d.fs) by { hide Holds, Kept, IsList, Landed, SnapOk; }
    assert IsList(s'.code, NO_JUMP, [j][1..]);
    hide Landed, Kept, Means, MeansIn, Holds, Closed, ListsOk, Decides, TestJump, Begun, Start;
    forall en ensures MeansIn(c', s', With(Left(d, Passed), want, [j]), NO_REG, en) {
      TestMeans(c, s, d, free, i, want, en);
    }
    MeansAll(c', s', With(Left(d, Passed), want, [j]), NO_REG);
  }

  // ----- jumponcond -----

  /** condjump (lcode.c:74-77) */
  method CondJump(f: FuncState, i: Instr) returns (j: int)
    requires f.Valid()
    modifies f`code, f`jpc, f`pending, f`here
    ensures f.Valid() && f.Now() == TestJump(old(f.Now()), i) && j == |old(f.code)| + 1 && IsList(f.code, j, [j])
  {
    var pc := f.Code(i);
    ghost var js;
    j, js := f.Jump();
    assert js == [j] + [] == [j];
  }

  /** discharge2anyreg (lcode.c:382-387); `c'` is what then is in the register. */
  method Discharge2AnyReg(f: FuncState, e0: Exp, ghost c: Ctx, ghost d: Desc) returns (e: Exp, ghost c': Ctx)
    requires Compiled(f, c, d, f.freereg) && d.e == e0 && Discharged(e0) && e0.k != VJMP
    modifies f`code, f`jpc, f`pending, f`here, f`freereg
    ensures f.Valid() && e == PlacedAt(d, e.info).e && Holds(c', f.Now(), d.(e := e), f.freereg, NO_REG)
    ensures c' == c || c' == Place(c)
  {
    hide Holds, SnapOk, IsList, Closed;
    e, c' := e0, c;
    if e.k != VNONRELOC {
      HeldKind(c, f.Now(), d, f.freereg, NO_REG);
      ghost var free := f.freereg;
      f.freereg := f.freereg + 1;
      e := Discharge2Reg(f, e, f.freereg - 1, c, d, free);
      c' := Place(c);
      HeldKind(c', f.Now(), PlacedAt(d, c.fr), f.freereg, c.fr);
      TempReg(c', f.Now(), PlacedAt(d, c.fr), f.freereg);
    }
  }

  lemma NotDecides(c: Ctx, s: Snap, d: Desc, free: int, want: bool)
    requires Holds(c, s, d, free, NO_REG) && d.e.k == VRELOCABLE && Shaped(c.job.e, s.code, d) && c.job.Value?
    ensures 0 <= d.e.info == |s.code| - 1 && s.here == [] && free == c.fr
    ensures s.code[d.e.info].NOT? ==> Decides(c, s.code, d.e, TEST(s.code[d.e.info].B, want), want)
    ensures SnapOk(Start(s, d.e)) && Start(s, d.e) == Snap(s.code[..d.e.info], s.pending, [])
  {
    StartOk(c, s, d, free, NO_REG);
    HeldKind(c, s, d, free, NO_REG);
  }

  lemma RegDecides(c: Ctx, code: Code, e: Exp, want: bool)
    requires e.k == VNONRELOC && (c.job.Value? || c.job.Placed?)
    requires var sh := ShapeOf(c.job.e); Jumps(want, sh) && !Always(want, sh) && sh != SJmp && sh != SNot
    ensures Decides(c, code, e, TESTSET(NO_REG, e.info, !want), want)
  {}

  lemma NoList(code: Code, l: int)
    ensures IsList(code, l, []) <==> l == NO_JUMP
  {}

  /** The last instruction, a NOT, becomes a test of its operand (lcode.c:527-530). */
  method TestOperand(f: FuncState, e: Exp, want: bool, ghost c: Ctx, ghost d: Desc) returns (j: int)
    requires Compiled(f, c, d, f.freereg) && d.e == e && e.k == VRELOCABLE
    requires 0 <= e.info < |f.code| && f.code[e.info].NOT?
    modifies f`code, f`jpc, f`pending, f`here
    ensures f.Valid() && f.freereg == c.fr && Joinable(c, f.Now(), d, want, [j], j)
  {
    hide Holds, Joinable, Decides, TestJump, SnapOk;
    ghost var s := f.Now();
    var ie := f.code[e.info];
    NotDecides(c, s, d, f.freereg, want);
    TestJoins(c, s, d, f.freereg, TEST(ie.B, want), want);
    NoList(f.code, f.jpc);
    f.code := f.code[..|f.code| - 1];
    NoList(f.code, f.jpc);
    j := CondJump(f, TEST(ie.B, want));
  }

  /** jumponcond (lcode.c:524-536) */
  method JumpOnCond(f: FuncState, e0: Exp, cond: bool, ghost c: Ctx, ghost d: Desc) returns (j: int)
    requires Compiled(f, c, d, f.freereg) && d.e == e0 && Discharged(e0) && e0.k != VJMP
    requires Jumps(!cond, ShapeOf(c.job.e)) && !Always(!cond, ShapeOf(c.job.e))
    modifies f`code, f`jpc, f`pending, f`here, f`freereg
    ensures f.Valid() && f.freereg == c.fr && Joinable(c, f.Now(), d, !cond, [j], j)
  {
    hide Holds, Joinable, Decides, TestJump, SnapOk, IsList, Closed;
    if e0.k == VRELOCABLE {
      HeldKind(c, f.Now(), d, f.freereg, NO_REG);
      var ie := f.code[e0.info];
      if ie.NOT? {
        j := TestOperand(f, e0, !cond, c, d);
        return;
      }
    }
    assert ShapeOf(c.job.e) != SNot && ShapeOf(c.job.e) != SJmp;
    j := TestRegister(f, e0, cond, c, d);
  }

  /** The value goes to a register and is tested there (lcode.c:533-535). */
  method TestRegister(f: FuncState, e0: Exp, cond: bool, ghost c: Ctx, ghost d: Desc) returns (j: int)
    requires Compiled(f, c, d, f.freereg) && d.e == e0 && Discharged(e0) && e0.k != VJMP
    requires var sh := ShapeOf(c.job.e); Jumps(!cond, sh) && !Always(!cond, sh) && sh != SNot && sh != SJmp
    modifies f`code, f`jpc, f`pending, f`here, f`freereg
    ensures f.Valid() && f.freereg == c.fr && Joinable(c, f.Now(), d, !cond, [j], j)
  {
    hide Holds, Joinable, Decides, TestJump, SnapOk, IsList, Closed, ShapeOf, Shaped, Always, Jumps, NilClosed;
    var e;
    ghost var c';
    e, c' := Discharge2AnyReg(f, e0, c, d);
    ghost var s, d', free := f.Now(), d.(e := e), f.freereg;
    HeldKind(c', s, d', free, NO_REG);
    FreeExp(f, e);
    RegDecides(c', s.code, e, !cond);
    TestJoins(c', s, d', free, TESTSET(NO_REG, e.info, cond), !cond);
    j := CondJump(f, TESTSET(NO_REG, e.info, cond));
    SameLeft(c, c', f.Now(), d, e.info, !cond, [j], j);
  }

  lemma SameLeft(c: Ctx, c': Ctx, s: Snap, d: Desc, reg: int, want: bool, js: seq<int>, l: int)
    requires (c' == c || c' == Place(c)) && Joinable(c', s, PlacedAt(d, reg), want, js, l)
    ensures Joinable(c, s, d, want, js, l)
  {
    assert SplitCtx(c', want) == SplitCtx(c, want) && Left(PlacedAt(d, reg), Passed) == Left(d, Passed);
  }

  // ----- literals: no jump, or one that is always taken -----

  /** Where the literal is certain to be as wanted, nothing needs to be done (lcode.c:543-546, 571-574). */
  lemma PassJoins(c: Ctx, s: Snap, d: Desc, free: int, want: bool)
    requires Holds(c, s, d, free, NO_REG) && c.job.Value? && IsLit(d.e) && !Jumps(want, ShapeOf(c.job.e))
    ensures Joinable(c, s, d, want, [], NO_JUMP)
  {
    var c', d' := SplitCtx(c, want), With(Left(d, Passed), want, []);
    HeldKind(c, s, d, free, NO_REG);
    HeldKept(c, s, d, free, NO_REG);
    assert d'.ts == d.ts && d'.fs == d.fs;
    NoList(s.code, NO_JUMP);
    PassLists(c, s, d, free, want);
    hide Kept, SnapOk, Closed, IsList, Exit, Outcome0, FlowOf, ListsOk, NewList, With, Holds, Lists, Begun;
    forall en ensures MeansIn(c', s, d', NO_REG, en) { PassMeans(c, s, d, free, want, en); }
  }

  lemma PassMeans(c: Ctx, s: Snap, d: Desc, free: int, want: bool, en: Entry)
    requires Holds(c, s, d, free, NO_REG) && c.job.Value? && IsLit(d.e) && !Jumps(want, ShapeOf(c.job.e))
    ensures MeansIn(SplitCtx(c, want), s, With(Left(d, Passed), want, []), NO_REG, en)
  {
    hide Holds, Good, Outcome0, FlowOf, ShapeOf, Start, With, Left, Fresh, Arriving;
    if EntryOk(c, en) {
      var fl, fl' := FlowIn(c.job, en.m, Arriving(c.o, en)), FlowIn(SplitCtx(c, want).job, en.m, Arriving(c.o, en));
      StartOutcome(c, s, d, free, NO_REG, en);
      StartLiteral(s, d.e);
      StartPassedList(s, d, want, []);
      PassGood(Outcome0(s, |c.o.code|, en), s, d, want, c.fr, en.m, fl, fl');
    }
  }

  lemma PassGood(o: Outcome, s: Snap, d: Desc, want: bool, fr: int, m: Env, fl: Flow, fl': Flow)
    requires Good(o, s, d, fr, NO_REG, m, fl) && IsLit(d.e)
    requires fl' == if fl.Leaves? then fl else Falls(fl.carry, Nil)
    ensures Good(o, s, With(Left(d, Passed), want, []), fr, NO_REG, m, fl')
  {
    var d' := With(Left(d, Passed), want, []);
    assert d'.ts == d.ts && d'.fs == d.fs;
    hide With, Agree, Brought, Controlled;
  }

  lemma PassLists(c: Ctx, s: Snap, d: Desc, free: int, want: bool)
    requires Holds(c, s, d, free, NO_REG) && IsLit(d.e)
    ensures NewList(SplitCtx(c, want), s, Left(d, Passed), [])
  {
    hide Means, Kept, IsList;
  }

  /** The state after luaK_jump. */
  lemma JumpedKept(s: Snap)
    requires SnapOk(s) && Closed(s.code)
    ensures var s', n := Jumped(s), |s.code|;
      && SnapOk(s') && Closed(s'.code) && Kept(s, s')
      && |s'.code| == n + 1 && s'.code[n].JMP? && !Controlled(s'.code, n)
      && (forall j :: 0 <= j < n ==> SameControl(s.code, s'.code, j))
      && (forall j :: j in s.pending ==> j in s'.pending && j != n && JumpAt(s.code, j)) && n in s'.pending
      && s'.code[..n] == s.code
  {
    var s', n := Jumped(s), |s.code|;
    assert forall j :: j in s.pending ==> JumpAt(s.code, j);
    forall i | 0 <= i < n ensures KeptAt(s, s', i) {}
    forall j | j in s'.pending ensures JumpAt(s'.code, j) { assert j == n || JumpAt(s.code, j); }
  }

  /** Where the literal is certain not to be as wanted, all ways lead to a new jump, or are kept on hold to go
      with it (lcode.c:547-550, 575-578). */
  lemma AlwaysMeans(c: Ctx, s: Snap, d: Desc, free: int, want: bool, en: Entry)
    requires Holds(c, s, d, free, NO_REG) && c.job.Value? && IsLit(d.e) && Always(want, ShapeOf(c.job.e))
    ensures MeansIn(SplitCtx(c, want), Jumped(s), With(Left(d, Passed), want, [|s.code|] + s.here), NO_REG, en)
  {
    hide Holds, Landed, Exits, FlowOf, SnapOk, Agree, Run, IsList, Closed, Jumped, Exit, ShapeOf, Good, Stays;
    hide ListsOk, With, Left, Outcome0, SameControls, Fresh, Arriving, Remaining, Compat, Kept, SameControl;
    if EntryOk(c, en) {
      var js, s', a := [|s.code|] + s.here, Jumped(s), Arriving(c.o, en);
      var d', fl, fl' := With(Left(d, Passed), want, js), FlowIn(c.job, en.m, a),
        FlowIn(SplitCtx(c, want).job, en.m, a);
      HeldKept(c, s, d, free, NO_REG);
      StartLiteral(s, d.e);
      StartOutcome(c, s, d, free, NO_REG, en);
      var o, o' := Outcome0(s, |c.o.code|, en), Outcome0(s', |c.o.code|, en);
      GoodCases(o, s, d, c.fr, NO_REG, en.m, fl);
      HeldKind(c, s, d, free, NO_REG);
      JumpedKept(s);
      KeptCompat(s, s');
      KeptSize(c.o, s);
      OutcomeContinues(s, s', |c.o.code|, en);
      AlwaysGood(s, d, want, c.fr, en.m, fl, fl', o);
      StartPassedList(s', d, want, js);
    }
  }

  lemma StartLiteral(s: Snap, e: Exp)
    requires IsLit(e)
    ensures Start(s, e) == s
  {}

  lemma StartPassedList(s: Snap, d: Desc, want: bool, js: seq<int>)
    ensures Start(s, With(Left(d, Passed), want, js).e) == s
  {}

  /** However a run came to the end, it now leaves through the list with the jump. */
  lemma AlwaysGood(s: Snap, d: Desc, want: bool, fr: int, m: Env, fl: Flow, fl': Flow, o: Outcome)
    requires SnapOk(s) && Closed(s.code) && Lists(s, d) && Good(o, s, d, fr, NO_REG, m, fl) && IsLit(d.e)
    requires fl' == if fl.Leaves? then fl else Leaves(!want, fl.carry)
    ensures Good(Continue(Jumped(s).code, Jumped(s).pending, |s.code|, o), Jumped(s),
                 With(Left(d, Passed), want, [|s.code|] + s.here), fr, NO_REG, m, fl')
  {
    var s', n, js := Jumped(s), |s.code|, [|s.code|] + s.here;
    var d', o' := With(Left(d, Passed), want, js), Continue(Jumped(s).code, Jumped(s).pending, |s.code|, o);
    JumpedKept(s);
    GoodCases(o, s, d, fr, NO_REG, m, fl);
    assert if want then d'.ts == d.ts && d'.fs == d.fs + js else d'.fs == d.fs && d'.ts == d.ts + js;
    assert n in js && forall j :: j in s.here ==> j in js;
    hide Jumped, Kept, Closed, SnapOk, Good;
    if o.Via? {
      assert o.j in s.pending && o' == o;
      SameBrought(s.code, s'.code, o.j);
      if o.j !in s.here {
        hide SameControl;
        ControlsHere(s, s', d);
        ExitsKept(o, s, d, s', d', fr, m, fl);
        GoodExit(o, s', d', d', fr, NO_REG, m, fl);
      } else {
        hide HasValue, Brought;
        StaysExits(o, s, d, want, fr, m, fl, s', d');
      }
    } else {
      assert o' == Via(n, o.m, false);
      NewExits(o, s, d, want, fr, m, fl, s', d', n);
    }
  }

  lemma ControlsHere(s: Snap, s': Snap, d: Desc)
    requires Lists(s, d) && forall j :: 0 <= j < |s.code| ==> SameControl(s.code, s'.code, j)
    ensures SameControls(s.code, s'.code, d.ts) && SameControls(s.code, s'.code, d.fs)
  {
    hide SameControl;
    forall j | j in d.ts ensures SameControl(s.code, s'.code, j) { assert JumpAt(s.code, j); }
    forall j | j in d.fs ensures SameControl(s.code, s'.code, j) { assert JumpAt(s.code, j); }
  }

  lemma StaysExits(o: Outcome, s: Snap, d: Desc, want: bool, fr: int, m: Env, fl: Flow, s': Snap, d': Desc)
    requires o.Via? && Stays(o, s, d.e, fr, NO_REG, m, fl) && IsLit(d.e) && o.j < |s'.code|
    requires Controlled(s'.code, o.j) == Controlled(s.code, o.j)
    requires Brought(s'.code, o.j, o.m) == Brought(s.code, o.j, o.m)
    requires o.j in ListFor(d', want)
    ensures Good(o, s', d', fr, NO_REG, m, Leaves(!want, fl.carry))
  {}

  lemma NewExits(o: Outcome, s: Snap, d: Desc, want: bool, fr: int, m: Env, fl: Flow, s': Snap, d': Desc, n: nat)
    requires o.Fall? && Stays(o, s, d.e, fr, NO_REG, m, fl) && IsLit(d.e)
    requires n < |s'.code| && !Controlled(s'.code, n) && n in ListFor(d', want)
    ensures Good(Via(n, o.m, false), s', d', fr, NO_REG, m, Leaves(!want, fl.carry))
  {}

  lemma AlwaysLists(c: Ctx, s: Snap, d: Desc, free: int, want: bool)
    requires Holds(c, s, d, free, NO_REG) && IsLit(d.e)
    ensures NewList(SplitCtx(c, want), Jumped(s), Left(d, Passed), [|s.code|] + s.here)
  {
    var s', n := Jumped(s), |s.code|;
    HeldKept(c, s, d, free, NO_REG);
    HeldKind(c, s, d, free, NO_REG);
    JumpedKept(s);
    KeptTrans(c.o, s, s');
    ListKept(s, s', d.e.t, d.ts);
    ListKept(s, s', d.e.f, d.fs);
    KeptSize(c.o, s);
    assert forall j :: j in s.here ==> |c.o.code| <= j || j in c.o.here;
    hide Kept, IsList, SnapOk, Holds, Means, SameControl, SameControls;
  }

  lemma AlwaysJoins(c: Ctx, s: Snap, d: Desc, free: int, want: bool)
    requires Holds(c, s, d, free, NO_REG) && c.job.Value? && IsLit(d.e) && Always(want, ShapeOf(c.job.e))
    requires IsList(Jumped(s).code, |s.code|, [|s.code|] + s.here)
    ensures Joinable(c, Jumped(s), d, want, [|s.code|] + s.here, |s.code|)
  {
    var c', d' := SplitCtx(c, want), With(Left(d, Passed), want, [|s.code|] + s.here);
    AlwaysLists(c, s, d, free, want);
    hide Holds, NewList, MeansIn, IsList, Jumped, Means, With, Left;
    forall en ensures MeansIn(c', Jumped(s), d', NO_REG, en) { AlwaysMeans(c, s, d, free, want, en); }
    MeansAll(c', Jumped(s), d', NO_REG);
  }

  // ----- the list for the wanted case leads here -----

  function Closing(d: Desc, want: bool): Desc {
    if want then Desc(d.e.(t := NO_JUMP), [], d.fs) else Desc(d.e.(f := NO_JUMP), d.ts, [])
  }

  /** luaK_patchtohere on that list. */
  ghost function LedHere(s: Snap, js: seq<int>): Snap { Snap(Linked(s.code, s.here, js), s.pending, s.here + js) }

  lemma HereLists(c: Ctx, s: Snap, d: Desc, free: int, want: bool, s': Snap)
    requires Holds(SplitCtx(c, want), s, d, free, NO_REG) && d.e.k == Passed && s' == LedHere(s, ListFor(d, !want))
    ensures var d', c' := Closing(d, want), BranchCtx(c, want);
      Begun(c', s') && Kept(c'.o, s') && KindOk(c', s', d'.e, free) && ListsOk(c'.o, s', d')
  {
    var js, b, l := ListFor(d, !want), ListFor(d, want), if want then d.e.f else d.e.t;
    HeldKept(SplitCtx(c, want), s, d, free, NO_REG);
    HereOwn(c.o, s, d, want);
    LinkedCompat(s, s.here, js);
    LinkedValid(s, s.here, js);
    KeptLinked(c.o, s, s.here, js, s.here + js);
    KeepsList(s, s.here, js, l, b);
    NoList(s'.code, NO_JUMP);
    hide Kept, Linked, IsList, Means, Compat, SnapOk, Disjoint;
    HereListsOk(c.o, s, d, want, s');
    hide ListsOk, Lists, Closed;
  }

  lemma HereListsOk(o: Snap, s: Snap, d: Desc, want: bool, s': Snap)
    requires ListsOk(o, s, d) && d.e.k == Passed && s'.pending == s.pending && s'.here == s.here + ListFor(d, !want)
    requires IsList(s'.code, if want then d.e.f else d.e.t, ListFor(d, want)) && IsList(s'.code, NO_JUMP, [])
    ensures ListsOk(o, s', Closing(d, want))
  {
    hide IsList;
  }

  lemma HereOwn(o: Snap, s: Snap, d: Desc, want: bool)
    requires ListsOk(o, s, d) && SnapOk(s) && Kept(o, s)
    ensures var js, b, l := ListFor(d, !want), ListFor(d, want), if want then d.e.f else d.e.t;
      && IsList(s.code, l, b) && Disjoint(b, s.here) && Disjoint(js, s.here) && (Disjoint(js, b) || Disjoint(b, js))
      && forall j :: j in js || j in s.here ==> j in s.pending && (|o.code| <= j || j in o.here)
  {
    hide IsList;
  }

  lemma HereMeans(c: Ctx, s: Snap, d: Desc, free: int, want: bool, s': Snap, en: Entry)
    requires Holds(SplitCtx(c, want), s, d, free, NO_REG) && d.e.k == Passed && s' == LedHere(s, ListFor(d, !want))
    ensures MeansIn(BranchCtx(c, want), s', Closing(d, want), NO_REG, en)
  {
    var cs, s1 := SplitCtx(c, want), s.(code := s'.code);
    HeldKept(cs, s, d, free, NO_REG);
    assert Linkable(cs, s, d, s.here) by { hide Kept, IsList; KeptSize(c.o, s); }
    assert MeansIn(cs, s, d, NO_REG, en);
    hide Linkable, Linked, Holds, FlowOf, ShapeOf, Outcome0;
    LinkMeans(cs, s, d, s.here, ListFor(d, !want), d.e.t, d.e.f, NO_REG, en);
    assert d == Desc(Exp(d.e.k, d.e.info, d.e.t, d.e.f), d.ts, d.fs);
    hide Fresh, Arriving, Good;
    if EntryOk(c, en) {
      var a := Arriving(c.o, en);
      StartHere(s1, d.e);
      StartHere(s', Closing(d, want).e);
      HereOutcome(s1, s', |c.o.code|, en);
      HereFlow(c, want, en.m, a);
      HereGood(Outcome0(s1, |c.o.code|, en), s1, d, want, s', c.fr, en.m,
               FlowIn(cs.job, en.m, a), FlowIn(BranchCtx(c, want).job, en.m, a));
    }
  }

  lemma StartHere(s: Snap, e: Exp)
    requires e.k == Passed
    ensures Start(s, e) == s
  {}

  lemma HereOutcome(s: Snap, s': Snap, n0: nat, en: Entry)
    requires s' == s.(here := s'.here)
    ensures Outcome0(s', n0, en) == Outcome0(s, n0, en)
  {}

  lemma HereFlow(c: Ctx, want: bool, m: Env, a: Option<CodeVm.Value>)
    ensures var fl, fl' := FlowIn(SplitCtx(c, want).job, m, a), FlowIn(BranchCtx(c, want).job, m, a);
      fl' == if fl.Leaves? && fl.truth == want then Falls(fl.carry, Nil) else fl
    ensures var fl := FlowIn(SplitCtx(c, want).job, m, a); fl.Falls? ==> fl.val == Nil
  {
    hide FlowOf, ShapeOf;
  }

  lemma HereGood(o: Outcome, s: Snap, d: Desc, want: bool, s': Snap, fr: int, m: Env, fl: Flow, fl': Flow)
    requires Good(o, s, d, fr, NO_REG, m, fl) && d.e.k == Passed
    requires s' == s.(here := s.here + ListFor(d, !want))
    requires fl' == if fl.Leaves? && fl.truth == want then Falls(fl.carry, Nil) else fl
    ensures Good(o, s', Closing(d, want), fr, NO_REG, m, fl')
  {
    hide Agree, Brought, Controlled;
  }

  lemma HereHolds(c: Ctx, s: Snap, d: Desc, free: int, want: bool, s': Snap)
    requires Holds(SplitCtx(c, want), s, d, free, NO_REG) && d.e.k == Passed && s' == LedHere(s, ListFor(d, !want))
    ensures Holds(BranchCtx(c, want), s', Closing(d, want), free, NO_REG)
  {
    HereLists(c, s, d, free, want, s');
    hide Kept, Linked, IsList, Means, SnapOk, MeansIn, ListsOk, Begun, Closing, LedHere;
    forall en ensures MeansIn(BranchCtx(c, want), s', Closing(d, want), NO_REG, en) {
      HereMeans(c, s, d, free, want, s', en);
    }
    MeansAll(BranchCtx(c, want), s', Closing(d, want), NO_REG);
  }

  // ----- goiftrue and goiffalse -----

  /** The new jumps join the list for the case that is not wanted, and the other list leads here
      (lcode.c:561-563, 588-590). */
  method CloseBranch(f: FuncState, e0: Exp, want: bool, l: int, ghost c: Ctx, ghost d: Desc, ghost js: seq<int>)
    returns (e: Exp, ghost d': Desc)
    requires f.Valid() && Joinable(c, f.Now(), d, want, js, l) && d.e.t == e0.t && d.e.f == e0.f
    modifies f`code, f`jpc, f`here, f`lasttarget
    ensures f.Valid() && NilClosed(f.code, f.lasttarget) && d'.e == e && e.k == Passed
    ensures if want then e.t == NO_JUMP && d'.ts == [] && d'.fs == d.fs + js
            else e.f == NO_JUMP && d'.fs == [] && d'.ts == d.ts + js
    ensures Holds(BranchCtx(c, want), f.Now(), d', c.fr, NO_REG)
  {
    hide Holds, IsList, Linked, SnapOk, Disjoint, NewList, Means;
    e := Append(f, Exp(Passed, 0, e0.t, e0.f), want, l, SplitCtx(c, want), Left(d, Passed), js);
    ghost var s, d1 := f.Now(), With(Left(d, Passed), want, js).(e := e);
    HereParts(c, s, d1, want);
    if want {
      f.PatchToHere(e.t, d1.ts);
      e := e.(t := NO_JUMP);
    } else {
      f.PatchToHere(e.f, d1.fs);
      e := e.(f := NO_JUMP);
    }
    d' := Closing(d1, want);
    HereHolds(c, s, d1, c.fr, want, f.Now());
  }

  lemma HereParts(c: Ctx, s: Snap, d: Desc, want: bool)
    requires Holds(SplitCtx(c, want), s, d, c.fr, NO_REG)
    ensures var js := ListFor(d, !want);
      && IsList(s.code, if want then d.e.t else d.e.f, js) && Disjoint(s.here, js)
      && forall j :: j in js ==> j in s.pending
  {
    HeldLists(SplitCtx(c, want), s, d, c.fr, NO_REG);
    hide Holds, IsList;
  }

  lemma JumpStart(code: Code, l: int, s: seq<int>)
    requires IsList(code, l, s) && s != []
    ensures l == s[0]
  {}

  lemma CompareBranch(c: Ctx, s: Snap, d: Desc, free: int, want: bool, jpc: int)
    requires Holds(c, s, d, free, NO_REG) && c.job.Value? && Shaped(c.job.e, s.code, d) && d.e.k == VJMP
    requires IsList(s.code, jpc, s.here)
    ensures free == c.fr && 1 <= d.e.info < |s.code| && s.code[d.e.info - 1].CMP? && s.here == []
    ensures var s' := Turned(s, d.e.info, want);
      Joinable(c, s', d, want, [d.e.info], d.e.info) && SnapOk(s') && IsList(s'.code, jpc, s'.here)
  {
    assert JumpFor(c, SplitCtx(c, want), want, Passed);
    hide Holds, SnapOk, Shaped, ShapeOf, NewList, Means, Left, With;
    CompareJoins(c, SplitCtx(c, want), s, d, free, want, Passed);
    NoList(s.code, jpc);
    NoList(Turned(s, d.e.info, want).code, jpc);
  }

  /** The jump that is always taken, in front of the jumps that led here (lcode.c:548, 576). */
  method AlwaysJump(f: FuncState, e: Exp, want: bool, ghost c: Ctx, ghost d: Desc) returns (j: int, ghost js: seq<int>)
    requires Compiled(f, c, d, f.freereg) && d.e == e && IsLit(e) && Always(want, ShapeOf(c.job.e))
    modifies f`code, f`jpc, f`pending, f`here
    ensures f.Valid() && f.freereg == c.fr && Joinable(c, f.Now(), d, want, js, j) && js != []
  {
    hide Holds, Joinable, IsList, SnapOk, Closed, Jumped, Shaped, NilClosed, ShapeOf;
    ghost var s := f.Now();
    HeldKind(c, s, d, f.freereg, NO_REG);
    j, js := f.Jump();
    JumpStart(f.code, j, js);
    AlwaysJoins(c, s, d, f.freereg, want);
  }

  /** The jump of a comparison, inverted if it is to be taken when the comparison fails (lcode.c:552-553, 580-581). */
  method CompareJump(f: FuncState, e: Exp, want: bool, ghost c: Ctx, ghost d: Desc) returns (j: int)
    requires Compiled(f, c, d, f.freereg) && d.e == e && e.k == VJMP
    modifies f`code
    ensures f.Valid() && f.freereg == c.fr && Joinable(c, f.Now(), d, want, [j], j)
  {
    hide Holds, Joinable, IsList, SnapOk, Shaped, NilClosed;
    CompareBranch(c, f.Now(), d, f.freereg, want, f.jpc);
    j := e.info;
    if want {
      f.code := f.code[j - 1 := Inverted(f.code[j - 1])];
    }
  }

  /** luaK_goiftrue (lcode.c:539-564): control goes on exactly in the flows that `GoIf` lets go on. */
  method GoIfTrue(f: FuncState, e0: Exp, ghost c: Ctx, ghost d: Desc) returns (e: Exp, ghost d': Desc)
    requires Compiled(f, c, d, f.freereg) && d.e == e0
    modifies f`code, f`jpc, f`pending, f`here, f`lasttarget, f`freereg
    ensures f.Valid() && f.freereg == c.fr && NilClosed(f.code, f.lasttarget)
    ensures d'.e == e && e.k == Passed && e.t == NO_JUMP && d'.ts == []
    ensures d'.fs != [] <==> HasList(c.job.e, false) || Jumps(true, ShapeOf(c.job.e))
    ensures Holds(BranchCtx(c, true), f.Now(), d', c.fr, NO_REG)
  {
    hide Holds, Joinable, IsList, SnapOk, Closed, Jumped;
    e := DischargeVars(f, e0, c, d, f.freereg);
    ghost var d1, js := d.(e := e), [];
    HeldKind(c, f.Now(), d1, f.freereg, NO_REG);
    var j := NO_JUMP;
    if e.k == VK || e.k == VTRUE {
      PassJoins(c, f.Now(), d1, f.freereg, true);
    } else if e.k == VFALSE {
      j, js := AlwaysJump(f, e, true, c, d1);
    } else if e.k == VJMP {
      j := CompareJump(f, e, true, c, d1);
      js := [j];
    } else {
      j := JumpOnCond(f, e, false, c, d1);
      js := [j];
    }
    e, d' := CloseBranch(f, e, true, j, c, d1, js);
  }

  /** luaK_goiffalse (lcode.c:567-591) */
  method GoIfFalse(f: FuncState, e0: Exp, ghost c: Ctx, ghost d: Desc) returns (e: Exp, ghost d': Desc)
    requires Compiled(f, c, d, f.freereg) && d.e == e0
    modifies f`code, f`jpc, f`pending, f`here, f`lasttarget, f`freereg
    ensures f.Valid() && f.freereg == c.fr && NilClosed(f.code, f.lasttarget)
    ensures d'.e == e && e.k == Passed && e.f == NO_JUMP && d'.fs == []
    ensures d'.ts != [] <==> HasList(c.job.e, true) || Jumps(false, ShapeOf(c.job.e))
    ensures Holds(BranchCtx(c, false), f.Now(), d', c.fr, NO_REG)
  {
    hide Holds, Joinable, IsList, SnapOk, Closed, Jumped;
    e := DischargeVars(f, e0, c, d, f.freereg);
    ghost var d1, js := d.(e := e), [];
    HeldKind(c, f.Now(), d1, f.freereg, NO_REG);
    var j := NO_JUMP;
    if e.k == VNIL || e.k == VFALSE {
      PassJoins(c, f.Now(), d1, f.freereg, false);
    } else if e.k == VTRUE {
      j, js := AlwaysJump(f, e, false, c, d1);
    } else if e.k == VJMP {
      j := CompareJump(f, e, false, c, d1);
      js := [j];
    } else {
      j := JumpOnCond(f, e, true, c, d1);
      js := [j];
    }
    e, d' := CloseBranch(f, e, false, j, c, d1, js);
  }
}
