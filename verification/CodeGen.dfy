/** Compiling whole expressions (lcode.c:681-789; lparser.c:828-853) and what their code computes. */
module CodeGen {
  import opened CodeVm
  import opened CodeLists
  import opened CodeState
  import opened CodeFlow
  import opened CodeExp
  import opened CodeReg
  import opened CodeSettle
  import opened CodeToReg
  import opened CodePut
  import opened CodeCond
  import opened CodeNot
  import opened CodeSeq

  // ----- comparisons -----

  /** The operator and condition luaK_posfix passes (lcode.c:781-786), with the exchange codecomp makes for
      `>` and `>=` (lcode.c:687-691). */
  function RelInstr(op: RelOp, o1: Operand, o2: Operand): Instr {
    match op
    case OpEQ => CMP(EQ, true, o1, o2)
    case OpNE => CMP(EQ, false, o1, o2)
    case OpLT => CMP(LT, true, o1, o2)
    case OpLE => CMP(LE, true, o1, o2)
    case OpGT => CMP(LT, true, o2, o1)
    case OpGE => CMP(LE, true, o2, o1)
  }

  function RelDesc(s: Snap): Desc { Desc(Exp(VJMP, |s.code| + 1, NO_JUMP, NO_JUMP), [], []) }

  /** Two operands, each a constant or in a register. */
  ghost predicate Pair(p: Part, q: Part) {
    && Follows(p, q) && p.c.job.AsOperand? && q.c.job.AsOperand? && q.c.fr == p.free
    && p.d.ts == [] && p.d.fs == [] && q.d.ts == [] && q.d.fs == [] && Scoped(q.c.job.e, p.c.nact)
    && (p.d.e.k == VNONRELOC || IsLit(p.d.e)) && (q.d.e.k == VNONRELOC || IsLit(q.d.e))
  }

  function RelCtx(op: RelOp, p: Part, q: Part): Ctx { p.c.(job := Value(Rel(op, p.c.job.e, q.c.job.e))) }

  lemma StartTest(s: Snap, i: Instr)
    requires SnapOk(s)
    ensures var st := Start(TestJump(s, i), RelDesc(s).e);
      Landed(s, st) && SnapOk(st) && |st.code| == |s.code| && st.here == []
  {
    StartEmitted(s, RelDesc(s), i);
    EmittedLanded(s, i);
    var s1 := Emitted(s, i);
    var st := Start(TestJump(s, i), RelDesc(s).e);
    assert st.code == s1.code[..|s.code|];
    assert |s.code| + 1 !in s1.pending by { assert |s.code| + 1 in s1.pending ==> JumpAt(s1.code, |s.code| + 1); }
    assert st.pending == s1.pending;
    assert st == Start(s1, Relocatable(s, RelDesc(s)).e);
  }

  lemma PairFlow(op: RelOp, p: Part, q: Part, m: Env, r: Env, a: Option<CodeVm.Value>)
    requires Pair(p, q) && p.c.nact <= p.c.fr && Agree(m, r, p.c.fr, NO_REG)
    ensures var fx := FlowIn(p.c.job, m, a);
      var fy := FlowIn(q.c.job, r, fx.carry);
      && fx.Falls? && fy.Falls?
      && FlowIn(RelCtx(op, p, q).job, m, a) == Falls(None, Bool(Related(op, m, fx.val, fy.val)))
  {
    var fx := FlowIn(p.c.job, m, a);
    FlowAgrees(q.c.job.e, m, r, fx.carry, p.c.fr, p.c.nact);
    assert FlowOf(Rel(op, p.c.job.e, q.c.job.e), m, a) ==
      Falls(None, Bool(Related(op, m, Ans(FlowOf(p.c.job.e, m, a)), Ans(FlowOf(q.c.job.e, m, fx.carry)))));
    hide FlowOf, Still, Scoped, Related;
  }

  /** The first operand is still there when the second one has been evaluated. */
  lemma OperandKept(p: Part, q: Part, m: Env, r: Env, v: CodeVm.Value)
    requires Pair(p, q) && Remaining(p.s.code, p.d.e, m, v) && Agree(m, r, q.c.fr, NO_REG)
    ensures Fetch(r, OperandOf(p.d.e)) == v && p.c.nact <= p.c.fr
  {
    HeldKind(p.c, p.s, p.d, p.free, NO_REG);
    hide Follows;
  }

  lemma PairRuns(op: RelOp, p: Part, q: Part, en: Entry) returns (r: Env)
    requires Pair(p, q) && EntryFor(p, q, en)
    ensures var o, fl := Outcome0(q.s, |p.c.o.code|, en), FlowIn(RelCtx(op, p, q).job, en.m, Arriving(p.c.o, en));
      && (o == Fall(r) || (o.Via? && o.m == r && o.j in q.s.here)) && Agree(en.m, r, p.c.fr, NO_REG)
      && fl == Falls(None, Bool(Related(op, r, Fetch(r, OperandOf(p.d.e)), Fetch(r, OperandOf(q.d.e)))))
  {
    assert Start(q.s, q.d.e) == q.s;
    HeldKind(p.c, p.s, p.d, p.free, NO_REG);
    hide Follows, Outcome0, Fresh, Arriving, FlowIn;
    var r1 := Then(p, q, en);
    var o, a := Outcome0(q.s, |p.c.o.code|, en), Arriving(p.c.o, en);
    var fx := FlowIn(p.c.job, en.m, a);
    PairFlow(op, p, q, en.m, r1, a);
    hide Pair, EntryFor;
    GoodCases(o, q.s, q.d, q.c.fr, NO_REG, r1, FlowIn(q.c.job, r1, fx.carry));
    r := o.m;
    hide Good;
    OperandKept(p, q, r1, r, fx.val);
  }

  lemma RelGood(s: Snap, d: Desc, op: RelOp, o1: Operand, o2: Operand, fr: int, m: Env, r: Env)
    requires d.e.k == VJMP && 1 <= d.e.info < |s.code| && s.code[d.e.info - 1] == RelInstr(op, o1, o2)
    requires Agree(m, r, fr, NO_REG)
    ensures Good(Fall(r), s, d, fr, NO_REG, m, Falls(None, Bool(Related(op, r, Fetch(r, o1), Fetch(r, o2)))))
  {}

  lemma RelMeans(op: RelOp, p: Part, q: Part, en: Entry)
    requires Pair(p, q)
    ensures var i := RelInstr(op, OperandOf(p.d.e), OperandOf(q.d.e));
      MeansIn(RelCtx(op, p, q), TestJump(q.s, i), RelDesc(q.s), NO_REG, en)
  {
    var i := RelInstr(op, OperandOf(p.d.e), OperandOf(q.d.e));
    var s, d, c := TestJump(q.s, i), RelDesc(q.s), RelCtx(op, p, q);
    HeldKind(q.c, q.s, q.d, q.free, NO_REG);
    PairSizes(p, q);
    hide Pair, Outcome0, Fresh, Arriving, FlowIn, Good, TestJump, RelInstr, Start, Landed, SnapOk, OperandOf, Agree;
    assert HasNil(c.job.e) == (HasNil(p.c.job.e) || HasNil(q.c.job.e));
    hide HasNil;
    if EntryOk(c, en) {
      var st := Start(s, d.e);
      StartTest(q.s, i);
      TestJumpLanded(q.s, i);
      var r := PairRuns(op, p, q, en);
      var o := Outcome0(q.s, |p.c.o.code|, en);
      assert o.Via? ==> o.j in q.s.pending by { OutcomePending(q.s, |p.c.o.code|, en); }
      OutcomeLanded(q.s, st, |p.c.o.code|, en);
      AtEnd(st, |q.s.code|, r);
      RelGood(s, d, op, OperandOf(p.d.e), OperandOf(q.d.e), p.c.fr, en.m, r);
    }
  }

  lemma PairSizes(p: Part, q: Part)
    requires Pair(p, q)
    ensures |p.c.o.code| <= |q.s.code| && Kept(p.c.o, q.s) && p.c.nact <= p.c.fr && SnapOk(p.c.o) && Closed(p.c.o.code)
  {
    HeldKept(p.c, p.s, p.d, p.free, NO_REG);
    HeldKept(q.c, q.s, q.d, q.free, NO_REG);
    hide Holds, Kept;
    KeptTrans(p.c.o, p.s, q.s);
    KeptSize(p.c.o, q.s);
  }

  lemma RelHolds(op: RelOp, p: Part, q: Part)
    requires Pair(p, q)
    ensures var i := RelInstr(op, OperandOf(p.d.e), OperandOf(q.d.e));
      Holds(RelCtx(op, p, q), TestJump(q.s, i), RelDesc(q.s), p.c.fr, NO_REG)
  {
    var i := RelInstr(op, OperandOf(p.d.e), OperandOf(q.d.e));
    var s, d, c := TestJump(q.s, i), RelDesc(q.s), RelCtx(op, p, q);
    HeldKind(q.c, q.s, q.d, q.free, NO_REG);
    PairSizes(p, q);
    TestJumpLanded(q.s, i);
    LandedKept(q.s, s);
    hide Pair, Landed, TestJump, Kept, MeansIn, SnapOk;
    KeptTrans(c.o, q.s, s);
    hide Closed, Means;
    forall en ensures MeansIn(c, s, d, NO_REG, en) { RelMeans(op, p, q, en); }
    MeansAll(c, s, d, NO_REG);
    assert KindOk(c, s, d.e, c.fr);
    HoldsParts(c, s, d, c.fr, NO_REG);
  }

  // ----- the compiler -----

  lemma EntryStays(s: Snap, en: Entry)
    requires SnapOk(s) && (en.By? ==> en.j in s.here)
    ensures Outcome0(s, |s.code|, en) == if en.At? then Fall(en.m) else Via(en.j, en.m, en.tested)
    ensures en.By? ==> 0 <= en.j < |s.code|
  {
    if en.By? { assert JumpAt(s.code, en.j); }
  }

  /** What the parser makes of a local, an upvalue or a literal (lparser.c:224-246, 727-751). */
  function Leaf(e: Expr): Exp {
    match e
    case Local(i) => Exp(VLOCAL, i, NO_JUMP, NO_JUMP)
    case Upval(u) => Exp(VUPVAL, u, NO_JUMP, NO_JUMP)
    case BoolLiteral(b) => Exp(if b then VTRUE else VFALSE, 0, NO_JUMP, NO_JUMP)
    case Constant(id) => Exp(VK, id, NO_JUMP, NO_JUMP)
    case _ => Exp(VNIL, 0, NO_JUMP, NO_JUMP)
  }

  predicate IsLeaf(e: Expr) { e.Local? || e.Upval? || e.NilLiteral? || e.BoolLiteral? || e.Constant? }

  lemma LeafHolds(c: Ctx, s: Snap, e: Expr)
    requires c.o == s && SnapOk(s) && Closed(s.code) && c.nact <= c.fr && c.job == Value(e) && IsLeaf(e)
    requires Scoped(e, c.nact)
    ensures Holds(c, s, Desc(Leaf(e), [], []), c.fr, NO_REG) && Shaped(e, s.code, Desc(Leaf(e), [], []))
  {
    var d := Desc(Leaf(e), [], []);
    assert Start(s, d.e) == s;
    forall en ensures MeansIn(c, s, d, NO_REG, en) {
      if EntryOk(c, en) {
        EntryStays(s, en);
        hide Fresh, Outcome0, SnapOk;
      }
    }
    hide Means, MeansIn;
    MeansAll(c, s, d, NO_REG);
    hide SnapOk;
  }

  /** The state from which an expression is compiled. */
  ghost predicate AtStart(f: FuncState, src: Expr, c: Ctx)
    reads f
  {
    && f.Valid() && Closed(f.code) && (HasNil(src) ==> NilClosed(f.code, f.lasttarget)) && Scoped(src, f.nactvar)
    && c == Ctx(f.Now(), f.freereg, f.nactvar, Value(src))
  }

  lemma HeldClosed(c: Ctx, s: Snap, d: Desc, free: int, x: int)
    requires Holds(c, s, d, free, x)
    ensures Closed(s.code) && SnapOk(s) && c.nact <= c.fr
  {
    HeldKind(c, s, d, free, x);
  }

  lemma ParenHolds(c: Ctx, s: Snap, d: Desc, free: int, a: Expr)
    requires c.job == Value(Paren(a)) && Holds(c.(job := Value(a)), s, d, free, NO_REG) && Shaped(a, s.code, d)
    ensures Holds(c, s, d, free, NO_REG) && Shaped(Paren(a), s.code, d)
  {
    hide Good, Kept, ListsOk, Fresh, Outcome0, Start, SnapOk, Closed, KindShape, IsLoad;
    var c' := c.(job := Value(a));
    forall en ensures MeansIn(c, s, d, NO_REG, en) { assert MeansIn(c', s, d, NO_REG, en); }
  }

  lemma LogicShaped(p: Part, want: bool, js: seq<int>, q: Part, s: Snap, d: Desc)
    requires Logic(p, want, js, q) && Shaped(q.c.job.e, q.s.code, q.d) && Appended(q.s, q.d, want, js, s, d)
    requires js != [] <==> HasList(p.c.job.e, !want) || Jumps(want, ShapeOf(p.c.job.e))
    ensures Shaped(Logical(want, p.c.job.e, q.c.job.e), s.code, d)
  {
    BothLists(p, want, js, q);
    LogicList(want, p.c.job.e, q.c.job.e);
    hide Kept, ListsOk, IsList, SnapOk, Closed, Logic, HasList, ShapeOf, KindShape, Linked;
    LinkedShape(q.s, q.d.e, ListFor(q.d, want), js, ShapeOf(q.c.job.e), d.e);
  }

  lemma LinkedShape(s: Snap, e: Exp, a: seq<int>, b: seq<int>, sh: Shape, e': Exp)
    requires KindShape(e, s.code, sh) && e' == Exp(e.k, e.info, e'.t, e'.f)
    ensures KindShape(e', Linked(s.code, a, b), sh)
  {}

  lemma LogicList(want: bool, a: Expr, b: Expr)
    ensures var e := Logical(want, a, b);
      && ShapeOf(e) == ShapeOf(b) && HasList(e, want) == HasList(b, want)
      && (HasList(e, !want) <==> HasList(b, !want) || HasList(a, !want) || Jumps(want, ShapeOf(a)))
  {}

  lemma LinkedNil(code: Code, a: seq<int>, b: seq<int>, lasttarget: int)
    requires NilClosed(code, lasttarget)
    ensures NilClosed(Linked(code, a, b), lasttarget)
  {}

  lemma PosfixParts(p: Part, want: bool, js: seq<int>, q: Part, jpc: int)
    requires Logic(p, want, js, q) && IsList(q.s.code, jpc, q.s.here)
    ensures var a := ListFor(q.d, want);
      && IsList(q.s.code, if want then q.d.e.f else q.d.e.t, a) && Disjoint(a, js)
      && IsList(q.s.code, if want then p.d.e.f else p.d.e.t, js)
      && SnapOk(q.s.(code := Linked(q.s.code, a, js))) && IsList(Linked(q.s.code, a, js), jpc, q.s.here)
  {
    BothLists(p, want, js, q);
    HeldLists(q.c, q.s, q.d, q.free, NO_REG);
    hide Logic, Kept;
    LinkedValid(q.s, ListFor(q.d, want), js);
    hide SnapOk;
    KeepsList(q.s, ListFor(q.d, want), js, jpc, q.s.here);
    hide IsList, Linked;
  }

  /** luaK_posfix for `and` and `or` (lcode.c:747-760) */
  method Posfix(f: FuncState, want: bool, e1: Exp, e0: Exp, ghost p: Part, ghost js: seq<int>, ghost c: Ctx,
      ghost d: Desc)
    returns (e: Exp, ghost d': Desc)
    requires Compiled(f, c, d, f.freereg) && d.e == e0 && p.d.e == e1
    requires Logic(p, want, js, Part(c, f.Now(), d, f.freereg)) && p.c.nact == f.nactvar
    requires js != [] <==> HasList(p.c.job.e, !want) || Jumps(want, ShapeOf(p.c.job.e))
    requires NilClosed(f.code, f.lasttarget)
    modifies f`code, f`jpc, f`pending, f`here
    ensures Compiled(f, LogicCtx(p, want, Part(c, old(f.Now()), d, f.freereg)), d', f.freereg) && d'.e == e
    ensures NilClosed(f.code, f.lasttarget)
  {
    hide Holds, SnapOk, IsList, Linked, Disjoint, Shaped, NilClosed, HasList, ShapeOf, Scoped;
    e := DischargeVars(f, e0, c, d, f.freereg);
    ghost var q := Part(c, f.Now(), d.(e := e), f.freereg);
    PosfixParts(p, want, js, q, f.jpc);
    LinkedNil(f.code, ListFor(q.d, want), js, f.lasttarget);
    if want {
      var l := f.Concat(e.f, e1.f, q.d.fs, js);
      e := Exp(e.k, e.info, e.t, l);
    } else {
      var l := f.Concat(e.t, e1.t, q.d.ts, js);
      e := Exp(e.k, e.info, l, e.f);
    }
    d' := With(q.d, want, js).(e := e);
    hide Logic;
    LogicHolds(p, want, js, q, f.Now(), d');
    LogicShaped(p, want, js, q, f.Now(), d');
  }

  /** The code generation calls subexpr makes (lparser.c:828-853, 670-681), operand by operand. The
      descriptor that comes back stands for the expression. */
  method Compile(f: FuncState, src: Expr, ghost c: Ctx) returns (e: Exp, ghost d: Desc)
    requires AtStart(f, src, c)
    modifies f`code, f`jpc, f`pending, f`here, f`lasttarget, f`freereg
    ensures Compiled(f, c, d, f.freereg) && d.e == e
    ensures old(NilClosed(f.code, f.lasttarget)) ==> NilClosed(f.code, f.lasttarget)
    decreases src, 1
  {
    hide Holds, SnapOk, IsList, Closed, NilClosed, Shaped;
    match src {
      case Paren(a) =>
        e, d := Compile(f, a, c.(job := Value(a)));
        e := DischargeVars(f, e, c.(job := Value(a)), d, f.freereg);
        d := d.(e := e);
        ParenHolds(c, f.Now(), d, f.freereg, a);
      case Not(a) =>
        e, d := Compile(f, a, c.(job := Value(a)));
        e, d := Negate(f, e, c.(job := Value(a)), d);
      case And(a, b) => e, d := CompileLogic(f, true, a, b, c);
      case Or(a, b) => e, d := CompileLogic(f, false, a, b, c);
      case Rel(op, a, b) => e, d := CompileRel(f, op, a, b, c);
      case _ =>
        e, d := Leaf(src), Desc(Leaf(src), [], []);
        LeafHolds(c, f.Now(), src);
    }
  }

  /** luaK_infix and luaK_posfix for `and` and `or`. */
  method CompileLogic(f: FuncState, want: bool, a: Expr, b: Expr, ghost c: Ctx) returns (e: Exp, ghost d: Desc)
    requires AtStart(f, Logical(want, a, b), c)
    modifies f`code, f`jpc, f`pending, f`here, f`lasttarget, f`freereg
    ensures Compiled(f, c, d, f.freereg) && d.e == e && NilClosed(f.code, f.lasttarget)
    decreases Logical(want, a, b), 0
  {
    hide Holds, SnapOk, IsList, NilClosed, Shaped, HasList, ShapeOf, Closed;
    ghost var ca := c.(job := Value(a));
    var e1;
    ghost var d1;
    e1, d1 := Compile(f, a, ca);
    if want {
      e1, d1 := GoIfTrue(f, e1, ca, d1);
    } else {
      e1, d1 := GoIfFalse(f, e1, ca, d1);
    }
    ghost var p, js := Part(BranchCtx(ca, want), f.Now(), d1, c.fr), ListFor(d1, want);
    HeldClosed(p.c, p.s, p.d, p.free, NO_REG);
    ghost var cb := Ctx(f.Now(), c.fr, c.nact, Value(b));
    var e2;
    ghost var d2;
    e2, d2 := Compile(f, b, cb);
    e, d := Posfix(f, want, e1, e2, p, js, cb, d2);
  }

  /** luaK_infix's default case, and codecomp (lcode.c:681-694) */
  method CompileRel(f: FuncState, op: RelOp, a: Expr, b: Expr, ghost c: Ctx) returns (e: Exp, ghost d: Desc)
    requires AtStart(f, Rel(op, a, b), c)
    modifies f`code, f`jpc, f`pending, f`here, f`lasttarget, f`freereg
    ensures Compiled(f, c, d, f.freereg) && d.e == e && NilClosed(f.code, f.lasttarget)
    decreases Rel(op, a, b), 0
  {
    hide Holds, SnapOk, IsList, NilClosed, Closed, TestJump, Shaped;
    ghost var ca := c.(job := Value(a));
    var e1, o1, e2, o2;
    ghost var d1, d2;
    e1, d1 := Compile(f, a, ca);
    e1, o1 := Exp2RK(f, e1, ca, d1);
    ghost var p := Part(AsOp(ca), f.Now(), Desc(e1, [], []), f.freereg);
    HeldClosed(p.c, p.s, p.d, p.free, NO_REG);
    HeldKind(p.c, p.s, p.d, p.free, NO_REG);
    ghost var cb := Ctx(f.Now(), f.freereg, c.nact, Value(b));
    e2, d2 := Compile(f, b, cb);
    e2, o2 := Exp2RK(f, e2, cb, d2);
    ghost var q := Part(AsOp(cb), f.Now(), Desc(e2, [], []), f.freereg);
    HeldKind(q.c, q.s, q.d, q.free, NO_REG);
    e, d := CodeComp(f, op, e1, o1, e2, o2, p, q);
    RelShaped(op, a, b, f.code, d);
  }

  /** codecomp once both operands are in place (lcode.c:685-694) */
  method CodeComp(f: FuncState, op: RelOp, e1: Exp, o1: Operand, e2: Exp, o2: Operand, ghost p: Part, ghost q: Part)
    returns (e: Exp, ghost d: Desc)
    requires f.Valid() && Pair(p, q) && p.d.e == e1 && q.d.e == e2 && q.s == f.Now() && q.free == f.freereg
    requires o1 == OperandOf(e1) && o2 == OperandOf(e2) && p.c.nact == f.nactvar
    modifies f`code, f`jpc, f`pending, f`here, f`freereg
    ensures f.Valid() && Holds(RelCtx(op, p, q), f.Now(), d, f.freereg, NO_REG) && d.e == e
    ensures d.ts == [] && d.fs == [] && e.k == VJMP && NilClosed(f.code, f.lasttarget)
  {
    HeldKind(p.c, p.s, p.d, p.free, NO_REG);
    HeldKind(q.c, q.s, q.d, q.free, NO_REG);
    hide Holds, SnapOk, IsList, NilClosed, Closed, TestJump, NoCarry;
    RelHolds(op, p, q);
    JumpNil(q.s, RelInstr(op, o1, o2), f.lasttarget);
    hide OperandOf, RelInstr, RelCtx, Scoped, Follows, NilClosed;
    FreeExp(f, e2);
    FreeExp(f, e1);
    var j := CondJump(f, RelInstr(op, o1, o2));
    e, d := Exp(VJMP, j, NO_JUMP, NO_JUMP), RelDesc(q.s);
  }

  lemma JumpNil(s: Snap, i: Instr, lasttarget: int)
    requires SnapOk(s)
    ensures NilClosed(TestJump(s, i).code, lasttarget)
  {
    TestJumpLanded(s, i);
  }

  lemma RelShaped(op: RelOp, a: Expr, b: Expr, code: Code, d: Desc)
    requires d.e.k == VJMP && d.ts == [] && d.fs == []
    ensures Shaped(Rel(op, a, b), code, d)
  {}

  // ----- main results -----

  /** A run that ends by returning never met a pending jump. */
  lemma {:induction false} RunPatched(c: Code, p: set<int>, pc: nat, m: Env)
    requires Run(c, p, pc, m).Ret?
    ensures Run(c, {}, pc, m) == Run(c, p, pc, m)
    decreases |c| - pc
  {
    if pc < |c| {
      var i := c[pc];
      if IsTest(i) {
        if !Taken(i, m) {
          RunPatched(c, p, pc + 2, m);
        } else {
          RunPatched(c, p, pc + 2 + c[pc + 1].sBx, Carried(i, m));
        }
      } else if i.JMP? {
        RunPatched(c, p, pc + 1 + i.sBx, m);
      } else if !i.RETURN? {
        RunPatched(c, p, if i.LOADBOOL? && i.skip then pc + 2 else pc + 1, Loaded(i, m));
      }
    }
  }

  /** At the start of a function the registers above its parameters are nil (ldo.c:296-297); only code for a
      literal nil relies on it. */
  ghost predicate Ready(src: Expr, nact: nat, m: Env) { HasNil(src) ==> Fresh(m, nact) }

  /** The code returns `v` and leaves the active locals as they were. */
  ghost predicate Returns(code: Code, nact: nat, m: Env, v: CodeVm.Value) {
    var o := Run(code, {}, 0, m);
    o.Ret? && o.v == v && Agree(m, o.m, nact, NO_REG)
  }

  lemma ReturnStep(s: Snap, n: nat, reg: int, r: Env)
    requires |s.code| == n + 1 && s.code[n] == RETURN(reg)
    ensures Run(s.code, s.pending, n, r) == Ret(Get(r, reg), r)
  {}

  lemma ReturnRuns(c: Ctx, s: Snap, reg: int, free: int, m: Env)
    requires Holds(InAny(c), s, InReg(reg), free, NO_REG) && c.o.code == [] && Ready(c.job.e, c.nact, m)
    requires c.nact == c.fr
    ensures Returns(Emitted(s, RETURN(reg)).code, c.nact, m, Actual(c.job.e, m, None))
  {
    var s', en := Emitted(s, RETURN(reg)), At(m);
    StartOk(InAny(c), s, InReg(reg), free, NO_REG);
    EmittedLanded(s, RETURN(reg));
    assert EntryOk(InAny(c), en);
    assert InAny(c).o == c.o;
    var a := Arriving(c.o, en);
    assert FlowIn(InAny(c).job, m, a).Falls? && FlowIn(InAny(c).job, m, a).val == Actual(c.job.e, m, None);
    hide Holds, Landed, Emitted, SnapOk, FlowOf, FlowIn, Fresh, InAny, SameControls, ListsOk;
    var r := After(InAny(c), s, InReg(reg), free, s', en);
    ReturnStep(s', |s.code|, reg, r);
    RunPatched(s'.code, s'.pending, 0, m);
  }

  /** A function `return src` with `nactvar` locals (lparser.c:1238-1268). In every environment its code returns the
      value of the flow through the always-jumps. That is what the Reference Manual says `src` is, if no always-jump
      is emitted while a jump that brings a value leads to it. Without that guard it is right in exactly those
      environments whose run does not leave with a stale value. */
  method CompileReturn(src: Expr, nactvar: nat) returns (code: Code)
    requires Scoped(src, nactvar)
    ensures forall m :: Ready(src, nactvar, m) ==> Returns(code, nactvar, m, Actual(src, m, None))
    ensures Guarded(src, false) ==> forall m :: Ready(src, nactvar, m) ==> Returns(code, nactvar, m, Eval(src, m))
    ensures forall m :: Ready(src, nactvar, m) && OperandsRight(src, m, None) ==>
      (Returns(code, nactvar, m, Eval(src, m)) <==> !Sour(src, m, None))
  {
    var f := new FuncState(nactvar);
    ghost var c := Ctx(f.Now(), f.freereg, nactvar, Value(src));
    hide Holds, Returns, Ready, Guarded, Sour, OperandsRight, Actual, FlowOf, Eval;
    var e;
    ghost var d;
    e, d := Compile(f, src, c);
    e := Exp2AnyReg(f, e, c, d);
    ghost var s, free := f.Now(), f.freereg;
    var pc := f.Code(RETURN(e.info));
    code := f.code;
    forall m | Ready(src, nactvar, m)
      ensures Returns(code, nactvar, m, Actual(src, m, None))
      ensures Guarded(src, false) ==> Returns(code, nactvar, m, Eval(src, m))
      ensures OperandsRight(src, m, None) ==> (Returns(code, nactvar, m, Eval(src, m)) <==> !Sour(src, m, None))
    {
      ReturnRuns(c, s, e.info, free, m);
      if Guarded(src, false) { GuardedRight(src, m, None, false); }
      if OperandsRight(src, m, None) {
        RightExactly(src, m, None);
        ReturnsOne(code, nactvar, m, Actual(src, m, None), Eval(src, m));
      }
    }
  }

  lemma ReturnsOne(code: Code, nact: nat, m: Env, v: CodeVm.Value, w: CodeVm.Value)
    requires Returns(code, nact, m, v)
    ensures Returns(code, nact, m, w) <==> v == w
  {}

  /** The environment in which a run reaches the end of the code, directly or by a jump to there. */
  ghost predicate Ends(o: Outcome, here: seq<int>) { o.Fall? || (o.Via? && o.j in here) }

  /** Entered by `en`, the code leaves `v` in register `x`, and the other registers in use as they were. */
  ghost predicate Assigns(c: Ctx, s: Snap, x: int, en: Entry, v: CodeVm.Value) {
    var o := Outcome0(s, |c.o.code|, en);
    Ends(o, s.here) && Get(o.m, x) == v && Agree(en.m, o.m, c.fr, x)
  }

  /** Some jump to the place where the code starts brings a value (fs->jpc at entry). */
  ghost predicate Carries(o: Snap) { exists j :: j in o.here && HasValue(o.code, j) }

  /** What a statement that puts `src` into register `x` promises for every entry. */
  ghost predicate Stores(c: Ctx, s: Snap, x: int) {
    && Kept(c.o, s)
    && (forall en :: EntryOk(c, en) ==> Assigns(c, s, x, en, Actual(c.job.e, en.m, Arriving(c.o, en))))
    && (Guarded(c.job.e, Carries(c.o)) ==> forall en :: EntryOk(c, en) ==> Assigns(c, s, x, en, Eval(c.job.e, en.m)))
    && (forall en :: EntryOk(c, en) && OperandsRight(c.job.e, en.m, Arriving(c.o, en)) ==>
          (Assigns(c, s, x, en, Eval(c.job.e, en.m)) <==> !Sour(c.job.e, en.m, Arriving(c.o, en))))
  }

  lemma HeldAssigns(c: Ctx, s: Snap, free: int, x: int, y: int, en: Entry)
    requires Holds(Finished(c), s, InReg(x), free, y) && (y == x || (y == NO_REG && x == c.fr)) && EntryOk(c, en)
    ensures Assigns(c, s, x, en, Actual(c.job.e, en.m, Arriving(c.o, en)))
  {
    assert MeansIn(Finished(c), s, InReg(x), y, en);
    hide Kept, FlowOf, Outcome0;
  }

  lemma HeldStores(c: Ctx, s: Snap, free: int, x: int, y: int)
    requires Holds(Finished(c), s, InReg(x), free, y) && (y == x || (y == NO_REG && x == c.fr))
    ensures Stores(c, s, x)
  {
    HeldKept(Finished(c), s, InReg(x), free, y);
    hide Holds, Kept, Assigns, Guarded, Eval, Actual, EntryOk, Finished, OperandsRight, Sour;
    forall en | EntryOk(c, en)
      ensures Assigns(c, s, x, en, Actual(c.job.e, en.m, Arriving(c.o, en)))
      ensures Guarded(c.job.e, Carries(c.o)) ==> Assigns(c, s, x, en, Eval(c.job.e, en.m))
      ensures OperandsRight(c.job.e, en.m, Arriving(c.o, en)) ==>
        (Assigns(c, s, x, en, Eval(c.job.e, en.m)) <==> !Sour(c.job.e, en.m, Arriving(c.o, en)))
    {
      HeldAssigns(c, s, free, x, y, en);
      if Guarded(c.job.e, Carries(c.o)) {
        if Arriving(c.o, en).Some? { ArrivingCarries(c, en); }
        GuardedRight(c.job.e, en.m, Arriving(c.o, en), Carries(c.o));
      }
      if OperandsRight(c.job.e, en.m, Arriving(c.o, en)) {
        RightExactly(c.job.e, en.m, Arriving(c.o, en));
        AssignsOne(c, s, x, en, Actual(c.job.e, en.m, Arriving(c.o, en)), Eval(c.job.e, en.m));
      }
    }
  }

  lemma AssignsOne(c: Ctx, s: Snap, x: int, en: Entry, v: CodeVm.Value, w: CodeVm.Value)
    requires Assigns(c, s, x, en, v)
    ensures Assigns(c, s, x, en, w) <==> v == w
  {
    hide Outcome0;
  }

  lemma ArrivingCarries(c: Ctx, en: Entry)
    requires EntryOk(c, en) && Arriving(c.o, en).Some?
    ensures Carries(c.o)
  {}

  /** An assignment `x = src` to a local (luaK_storevar, lcode.c:474-479), after any code. */
  method CompileAssign(f: FuncState, x: nat, src: Expr, ghost c: Ctx)
    requires AtStart(f, src, c) && x < f.nactvar
    modifies f`code, f`jpc, f`pending, f`here, f`lasttarget, f`freereg
    ensures f.Valid() && f.freereg == old(f.freereg) && Stores(c, f.Now(), x)
  {
    hide Holds, Stores;
    var e;
    ghost var d;
    e, d := Compile(f, src, c);
    ghost var free := f.freereg;
    HeldKind(c, f.Now(), d, free, NO_REG);
    FreeExp(f, e);
    e := Exp2Reg(f, e, x, c, d, free);
    HeldStores(c, f.Now(), f.freereg, x, x);
  }

  /** A declaration `local x = src`: the value goes to the next register. */
  method CompileLocal(f: FuncState, src: Expr, ghost c: Ctx)
    requires AtStart(f, src, c)
    modifies f`code, f`jpc, f`pending, f`here, f`lasttarget, f`freereg
    ensures f.Valid() && f.freereg == old(f.freereg) + 1 && Stores(c, f.Now(), c.fr)
  {
    hide Holds, Stores;
    var e;
    ghost var d;
    e, d := Compile(f, src, c);
    e := Exp2NextReg(f, e, c, d);
    HeldStores(c, f.Now(), f.freereg, c.fr, NO_REG);
  }
}
