/** Expressions over locals, upvalues, literals, comparisons, `and`, `or` and `not`: what the Reference Manual
    says they mean, what the code that lcode.c emits makes of them, and when the two agree. */
module CodeFlow {
  import opened CodeVm

  // ----- expressions -----

  datatype Option<+T> = None | Some(value: T)

  datatype RelOp = OpEQ | OpNE | OpLT | OpLE | OpGT | OpGE

  datatype Expr =
    | Local(i: nat)
    | Upval(u: nat)
    | NilLiteral
    | BoolLiteral(truth: bool)
    | Constant(id: nat)
    | Paren(e: Expr)
    | Not(e: Expr)
    | And(a: Expr, b: Expr)
    | Or(a: Expr, b: Expr)
    | Rel(op: RelOp, a: Expr, b: Expr)

  /** The meaning of an expression (Lua 5.1 Reference Manual, sections 2.5.2 and 2.5.3). A constant is a number or
      a string. */
  function Eval(e: Expr, m: Env): Value {
    match e
    case Local(i) => Get(m, i)
    case Upval(u) => Up(m, u)
    case NilLiteral => Nil
    case BoolLiteral(b) => Bool(b)
    case Constant(id) => Other(id)
    case Paren(a) => Eval(a, m)
    case Not(a) => Bool(IsFalse(Eval(a, m)))
    case And(a, b) => if IsFalse(Eval(a, m)) then Eval(a, m) else Eval(b, m)
    case Or(a, b) => if IsFalse(Eval(a, m)) then Eval(b, m) else Eval(a, m)
    case Rel(op, a, b) => Bool(Related(op, m, Eval(a, m), Eval(b, m)))
  }

  function Logical(want: bool, a: Expr, b: Expr): Expr { if want then And(a, b) else Or(a, b) }

  function Related(op: RelOp, m: Env, v: Value, w: Value): bool {
    match op
    case OpEQ => v == w
    case OpNE => v != w
    case OpLT => m.lt(v, w)
    case OpLE => m.le(v, w)
    case OpGT => m.lt(w, v)
    case OpGE => m.le(w, v)
  }

  /** The laws of the operators: `and` and `or` give an operand, `>` and `>=` are `<` and `<=` exchanged, `~=` is
      the negation of `==`, and negation goes through `and` and `or`. */
  lemma EvalMeans(a: Expr, b: Expr, m: Env)
    ensures Eval(And(a, b), m) == if Truthy(Eval(a, m)) then Eval(b, m) else Eval(a, m)
    ensures Eval(Or(a, b), m) == if Truthy(Eval(a, m)) then Eval(a, m) else Eval(b, m)
    ensures Eval(Not(a), m) == if Truthy(Eval(a, m)) then False else True
    ensures Eval(Rel(OpEQ, a, b), m) == if Eval(a, m) == Eval(b, m) then True else False
    ensures Eval(Rel(OpNE, a, b), m) == Eval(Not(Rel(OpEQ, a, b)), m)
    ensures Eval(Rel(OpLT, a, b), m) == if m.lt(Eval(a, m), Eval(b, m)) then True else False
    ensures Eval(Rel(OpLE, a, b), m) == if m.le(Eval(a, m), Eval(b, m)) then True else False
    ensures Eval(Rel(OpGT, a, b), m) == Eval(Rel(OpLT, b, a), m)
    ensures Eval(Rel(OpGE, a, b), m) == Eval(Rel(OpLE, b, a), m)
    ensures Eval(Not(And(a, b)), m) == Eval(Or(Not(a), Not(b)), m)
    ensures Eval(Not(Or(a, b)), m) == Eval(And(Not(a), Not(b)), m)
  {}

  /** The leaves. */
  lemma LeavesMean(m: Env, i: nat)
    ensures Eval(Local(i), m) == Deref(m, R(i)) && Eval(Constant(i), m) == Other(i)
    ensures Eval(Upval(i), m) == if i in m.up then m.up[i] else Nil
    ensures Eval(NilLiteral, m) == Nil && Eval(BoolLiteral(true), m) == True && Eval(BoolLiteral(false), m) == False
  {}

  /** The locals of `e` are active. */
  predicate Scoped(e: Expr, nact: nat) {
    match e
    case Local(i) => i < nact
    case Paren(a) => Scoped(a, nact)
    case Not(a) => Scoped(a, nact)
    case And(a, b) => Scoped(a, nact) && Scoped(b, nact)
    case Or(a, b) => Scoped(a, nact) && Scoped(b, nact)
    case Rel(_, a, b) => Scoped(a, nact) && Scoped(b, nact)
    case _ => true
  }

  predicate HasNil(e: Expr) {
    match e
    case NilLiteral => true
    case Paren(a) => HasNil(a)
    case Not(a) => HasNil(a)
    case And(a, b) => HasNil(a) || HasNil(b)
    case Or(a, b) => HasNil(a) || HasNil(b)
    case Rel(_, a, b) => HasNil(a) || HasNil(b)
    case _ => false
  }

  // ----- what the compiler knows of an expression -----

  /** What an expdesc is before it is put anywhere: a register, an upvalue or a negation still to be loaded, the
      jump of a comparison, or a literal. */
  datatype Shape = SReg | SUp | SNot | SJmp | SNil | SFalse | STrue | SConst

  predicate IsLiteral(sh: Shape) { sh == SNil || sh == SFalse || sh == STrue || sh == SConst }

  function NotShape(sh: Shape): Shape {
    match sh
    case SNil => STrue
    case SFalse => STrue
    case STrue => SFalse
    case SConst => SFalse
    case SJmp => SJmp
    case _ => SNot
  }

  function ShapeOf(e: Expr): Shape {
    match e
    case Local(_) => SReg
    case Upval(_) => SUp
    case NilLiteral => SNil
    case BoolLiteral(b) => if b then STrue else SFalse
    case Constant(_) => SConst
    case Paren(a) => ShapeOf(a)
    case Not(a) => NotShape(ShapeOf(a))
    case And(_, b) => ShapeOf(b)
    case Or(_, b) => ShapeOf(b)
    case Rel(_, _, _) => SJmp
  }

  /** luaK_goiftrue (`want`) and luaK_goiffalse emit a jump, except for literals that are as wanted. */
  predicate Jumps(want: bool, sh: Shape) {
    if want then sh != STrue && sh != SConst else sh != SNil && sh != SFalse
  }

  /** The always-jump (lcode.c:547-550, 575-578): the literal is certain not to be as wanted. */
  predicate Always(want: bool, sh: Shape) { sh == if want then SFalse else STrue }

  /** Whether there are jumps on the true or on the false list. */
  predicate HasList(e: Expr, truth: bool) {
    match e
    case Paren(a) => HasList(a, truth)
    case Not(a) => HasList(a, !truth)
    case And(a, b) => HasList(b, truth) || (!truth && (HasList(a, false) || Jumps(true, ShapeOf(a))))
    case Or(a, b) => HasList(b, truth) || (truth && (HasList(a, true) || Jumps(false, ShapeOf(a))))
    case _ => false
  }

  /** Using the expression as an operand emits no code for it. */
  predicate Still(e: Expr) {
    !HasList(e, true) && !HasList(e, false) && (ShapeOf(e) == SReg || IsLiteral(ShapeOf(e)))
  }

  // ----- how control flows through the emitted code -----

  /** Control falls through with the value `val` left in the descriptor, or leaves through the true or the false
      list. `carry` is the value in the register of the TESTSET before the jump that was taken, if there is one:
      the jump to the next instruction in the first case, the jump on the list in the second. */
  datatype Flow = Falls(carry: Option<Value>, val: Value) | Leaves(truth: bool, carry: Option<Value>)

  /** What ends up in a register. */
  function Ans(fl: Flow): Value {
    match fl
    case Falls(_, v) => v
    case Leaves(t, c) => if c.Some? then c.value else Bool(t)
  }

  function CarryOf(fl: Flow): Option<Value> { if fl.Falls? then fl.carry else None }

  /** The flow after luaK_goiftrue or luaK_goiffalse: falling through means that the value is as wanted. */
  function GoIf(want: bool, sh: Shape, fl: Flow): Flow {
    match fl
    case Leaves(t, c) => if t == want then Falls(c, Nil) else fl
    case Falls(c, v) =>
      if !Jumps(want, sh) then Falls(c, Nil)
      else if Always(want, sh) then Leaves(!want, c)
      else if IsFalse(v) != want then Falls(None, Nil)
      else Leaves(!want, if sh == SNot || sh == SJmp then None else Some(v))
  }

  function NotFlow(sh: Shape, fl: Flow): Flow {
    match fl
    case Leaves(t, _) => Leaves(!t, None)
    case Falls(c, v) => Falls(if IsLiteral(sh) then c else None, Bool(IsFalse(v)))
  }

  /** How control flows through the code of `e` in `m`, when it arrives by a jump that brings `a`, if any. */
  function FlowOf(e: Expr, m: Env, a: Option<Value>): Flow {
    match e
    case Local(i) => Falls(a, Get(m, i))
    case Upval(u) => Falls(None, Up(m, u))
    case NilLiteral => Falls(a, Nil)
    case BoolLiteral(b) => Falls(a, Bool(b))
    case Constant(id) => Falls(a, Other(id))
    case Paren(x) => FlowOf(x, m, a)
    case Not(x) => NotFlow(ShapeOf(x), FlowOf(x, m, a))
    case And(x, y) =>
      var fl := GoIf(true, ShapeOf(x), FlowOf(x, m, a));
      if fl.Falls? then FlowOf(y, m, fl.carry) else fl
    case Or(x, y) =>
      var fl := GoIf(false, ShapeOf(x), FlowOf(x, m, a));
      if fl.Falls? then FlowOf(y, m, fl.carry) else fl
    case Rel(op, x, y) =>
      var fx := FlowOf(x, m, a);
      var fy := FlowOf(y, m, if Still(x) then CarryOf(fx) else None);
      Falls(None, Bool(Related(op, m, Ans(fx), Ans(fy))))
  }

  /** What the emitted code computes for `e`. */
  function Actual(e: Expr, m: Env, a: Option<Value>): Value { Ans(FlowOf(e, m, a)) }

  /** `r` differs from `m` only in registers from `fr` on and in register `x`. */
  ghost predicate Agree(m: Env, r: Env, fr: int, x: int) {
    && r.up == m.up && r.lt == m.lt && r.le == m.le
    && forall i :: 0 <= i < fr && i != x ==> Get(r, i) == Get(m, i)
  }

  lemma {:induction false} FlowAgrees(e: Expr, m: Env, r: Env, a: Option<Value>, fr: int, nact: nat)
    requires Scoped(e, nact) && nact <= fr && Agree(m, r, fr, NO_REG)
    ensures FlowOf(e, r, a) == FlowOf(e, m, a) && Eval(e, r) == Eval(e, m)
  {
    hide GoIf, NotFlow, ShapeOf, Still, Ans;
    match e
    case Paren(x) => FlowAgrees(x, m, r, a, fr, nact);
    case Not(x) => FlowAgrees(x, m, r, a, fr, nact);
    case And(x, y) =>
      FlowAgrees(x, m, r, a, fr, nact);
      FlowAgrees(y, m, r, CarryOf(GoIf(true, ShapeOf(x), FlowOf(x, m, a))), fr, nact);
    case Or(x, y) =>
      FlowAgrees(x, m, r, a, fr, nact);
      FlowAgrees(y, m, r, CarryOf(GoIf(false, ShapeOf(x), FlowOf(x, m, a))), fr, nact);
    case Rel(_, x, y) =>
      FlowAgrees(x, m, r, a, fr, nact);
      FlowAgrees(y, m, r, if Still(x) then CarryOf(FlowOf(x, m, a)) else None, fr, nact);
    case _ =>
  }

  lemma {:induction false} NilShape(e: Expr)
    ensures ShapeOf(e) == SNil ==> HasNil(e)
  {
    match e
    case Paren(a) => NilShape(a);
    case And(_, b) => NilShape(b);
    case Or(_, b) => NilShape(b);
    case _ =>
  }

  /** Literals have the value their shape says, and code that has just been emitted carries nothing. */
  lemma {:induction false} LiteralFlow(e: Expr, m: Env, a: Option<Value>)
    ensures var fl, v := FlowOf(e, m, a), Eval(e, m);
      fl.Falls? ==> match ShapeOf(e)
        case SReg => true
        case SUp => fl.carry.None?
        case SNil => fl.val == Nil
        case SFalse => fl.val == False
        case STrue => fl.val == True
        case SConst => !IsFalse(fl.val)
        case SNot => (fl.val == True || fl.val == False) && fl.carry.None?
        case SJmp => (fl.val == True || fl.val == False) && fl.carry.None?
  {
    match e
    case Paren(x) => LiteralFlow(x, m, a);
    case Not(x) => LiteralFlow(x, m, a);
    case And(x, y) => LiteralFlow(y, m, CarryOf(GoIf(true, ShapeOf(x), FlowOf(x, m, a))));
    case Or(x, y) => LiteralFlow(y, m, CarryOf(GoIf(false, ShapeOf(x), FlowOf(x, m, a))));
    case _ =>
  }

  // ----- when the code is right -----

  /** Through an always-jump a value is carried that belongs to another expression. */
  function Stale(e: Expr, m: Env, a: Option<Value>): bool
    decreases e, 1
  {
    match e
    case Paren(x) => Stale(x, m, a)
    case And(x, y) => StaleAfter(true, x, y, m, a)
    case Or(x, y) => StaleAfter(false, x, y, m, a)
    case _ => false
  }

  function StaleAfter(want: bool, x: Expr, y: Expr, m: Env, a: Option<Value>): bool
    decreases Logical(want, x, y), 0
  {
    var fx := FlowOf(x, m, a);
    var fl := GoIf(want, ShapeOf(x), fx);
    if fl.Falls? then Stale(y, m, fl.carry)
    else if fx.Leaves? then Stale(x, m, a)
    else Always(want, ShapeOf(x)) && fx.carry.Some?
  }

  /** The run ends with a stale value that is not the one the literal stands for. */
  predicate Sour(e: Expr, m: Env, a: Option<Value>) {
    var fl := FlowOf(e, m, a);
    Stale(e, m, a) && fl.Leaves? && fl.carry.Some? && fl.carry.value != Bool(fl.truth)
  }

  /** No comparison on the way got a wrong operand. */
  predicate OperandsRight(e: Expr, m: Env, a: Option<Value>) {
    match e
    case Paren(x) => OperandsRight(x, m, a)
    case Not(x) => OperandsRight(x, m, a)
    case And(x, y) =>
      var fl := GoIf(true, ShapeOf(x), FlowOf(x, m, a));
      OperandsRight(x, m, a) && (fl.Falls? ==> OperandsRight(y, m, fl.carry))
    case Or(x, y) =>
      var fl := GoIf(false, ShapeOf(x), FlowOf(x, m, a));
      OperandsRight(x, m, a) && (fl.Falls? ==> OperandsRight(y, m, fl.carry))
    case Rel(_, x, y) =>
      var a' := if Still(x) then CarryOf(FlowOf(x, m, a)) else None;
      && OperandsRight(x, m, a) && !Sour(x, m, a)
      && OperandsRight(y, m, a') && !Sour(y, m, a')
    case _ => true
  }

  /** A flow that fits the value `v`: it leaves through the list of its truth, and unless it is stale it brings
      `v` or stands for it. */
  predicate Fits(fl: Flow, v: Value, stale: bool) {
    match fl
    case Falls(_, w) => w == v
    case Leaves(t, c) =>
      && IsFalse(v) != t
      && if stale then c.Some? && v == Bool(t) else if c.Some? then c.value == v else v == Bool(t)
  }

  lemma {:induction false} FlowFits(e: Expr, m: Env, a: Option<Value>)
    requires OperandsRight(e, m, a)
    ensures Fits(FlowOf(e, m, a), Eval(e, m), Stale(e, m, a))
    decreases e, 1
  {
    match e
    case Paren(x) => FlowFits(x, m, a);
    case Not(x) => FlowFits(x, m, a);
    case And(x, y) => LogicFits(true, x, y, m, a);
    case Or(x, y) => LogicFits(false, x, y, m, a);
    case Rel(_, x, y) =>
      FlowFits(x, m, a);
      FlowFits(y, m, if Still(x) then CarryOf(FlowOf(x, m, a)) else None);
    case _ =>
  }

  /** The flow through `and` and `or`. */
  lemma LogicFlow(want: bool, x: Expr, y: Expr, m: Env, a: Option<Value>)
    ensures var e, fl := Logical(want, x, y), GoIf(want, ShapeOf(x), FlowOf(x, m, a));
      && FlowOf(e, m, a) == (if fl.Falls? then FlowOf(y, m, fl.carry) else fl)
      && Eval(e, m) == (if IsFalse(Eval(x, m)) == want then Eval(x, m) else Eval(y, m))
      && Stale(e, m, a) == StaleAfter(want, x, y, m, a)
      && OperandsRight(e, m, a) == (OperandsRight(x, m, a) && (fl.Falls? ==> OperandsRight(y, m, fl.carry)))
  {}

  lemma LogicFits(want: bool, x: Expr, y: Expr, m: Env, a: Option<Value>)
    requires OperandsRight(Logical(want, x, y), m, a)
    ensures Fits(FlowOf(Logical(want, x, y), m, a), Eval(Logical(want, x, y), m), StaleAfter(want, x, y, m, a))
    decreases Logical(want, x, y), 0
  {
    LogicFlow(want, x, y, m, a);
    hide FlowOf, Eval, OperandsRight, ShapeOf, Stale;
    FlowFits(x, m, a);
    LiteralFlow(x, m, a);
    var fl := GoIf(want, ShapeOf(x), FlowOf(x, m, a));
    if fl.Falls? { FlowFits(y, m, fl.carry); }
  }

  /** Exactly when the code is right in `m`: the run must not end with a stale value other than the literal's. */
  lemma RightExactly(e: Expr, m: Env, a: Option<Value>)
    requires OperandsRight(e, m, a)
    ensures Actual(e, m, a) == Eval(e, m) <==> !Sour(e, m, a)
  {
    FlowFits(e, m, a);
  }

  // ----- a guard for all environments -----

  /** Whether the list may have a jump that brings a value; `h` says so of the jumps that lead to the start. */
  predicate MayBring(e: Expr, truth: bool, h: bool)
    decreases e, 0
  {
    match e
    case Paren(x) => MayBring(x, truth, h)
    case And(x, y) => MayBring(y, truth, MayPass(true, x, h)) || (!truth && MayLeave(true, x, h))
    case Or(x, y) => MayBring(y, truth, MayPass(false, x, h)) || (truth && MayLeave(false, x, h))
    case _ => false
  }

  /** Whether a jump that brings a value may lead to the end of the code of `e`. */
  predicate MayKeep(e: Expr, h: bool)
    decreases e, 0
  {
    match e
    case Upval(_) => false
    case Rel(_, _, _) => false
    case Paren(x) => MayKeep(x, h)
    case Not(x) => IsLiteral(ShapeOf(x)) && MayKeep(x, h)
    case And(x, y) => MayKeep(y, MayPass(true, x, h))
    case Or(x, y) => MayKeep(y, MayPass(false, x, h))
    case _ => h
  }

  predicate MayPass(want: bool, x: Expr, h: bool)
    decreases x, 1
  {
    MayBring(x, want, h) || (!Jumps(want, ShapeOf(x)) && MayKeep(x, h))
  }

  predicate MayLeave(want: bool, x: Expr, h: bool)
    decreases x, 1
  {
    var sh := ShapeOf(x);
    || MayBring(x, !want, h)
    || (Jumps(want, sh) && if Always(want, sh) then MayKeep(x, h) else sh != SNot && sh != SJmp)
  }

  /** No always-jump is emitted while a jump that brings a value leads to it. */
  predicate Guarded(e: Expr, h: bool) {
    match e
    case Paren(x) => Guarded(x, h)
    case Not(x) => Guarded(x, h)
    case And(x, y) => GuardedJump(true, x, h) && Guarded(x, h) && Guarded(y, MayPass(true, x, h))
    case Or(x, y) => GuardedJump(false, x, h) && Guarded(x, h) && Guarded(y, MayPass(false, x, h))
    case Rel(_, x, y) => Guarded(x, h) && Guarded(y, Still(x) && MayKeep(x, h))
    case _ => true
  }

  predicate GuardedJump(want: bool, x: Expr, h: bool) { !(Always(want, ShapeOf(x)) && MayKeep(x, h)) }

  /** The guard speaks of every flow. */
  ghost predicate Covered(e: Expr, m: Env, a: Option<Value>, h: bool) {
    var fl := FlowOf(e, m, a);
    && (fl.Falls? && fl.carry.Some? ==> MayKeep(e, h))
    && (fl.Leaves? && fl.carry.Some? ==> MayBring(e, fl.truth, h))
  }

  lemma {:induction false} FlowCovered(e: Expr, m: Env, a: Option<Value>, h: bool)
    requires a.Some? ==> h
    ensures Covered(e, m, a, h)
    decreases e, 1
  {
    match e
    case Paren(x) => FlowCovered(x, m, a, h);
    case Not(x) => FlowCovered(x, m, a, h);
    case And(x, y) => LogicCovered(true, x, y, m, a, h);
    case Or(x, y) => LogicCovered(false, x, y, m, a, h);
    case _ =>
  }

  lemma LogicMay(want: bool, x: Expr, y: Expr, h: bool)
    ensures var e, p := Logical(want, x, y), MayPass(want, x, h);
      && (forall t :: MayBring(e, t, h) == (MayBring(y, t, p) || (t != want && MayLeave(want, x, h))))
      && MayKeep(e, h) == MayKeep(y, p)
      && Guarded(e, h) == (GuardedJump(want, x, h) && Guarded(x, h) && Guarded(y, p))
  {
    hide MayPass, MayLeave, ShapeOf, Jumps, Always, GuardedJump, Still;
  }

  lemma LogicCovered(want: bool, x: Expr, y: Expr, m: Env, a: Option<Value>, h: bool)
    requires a.Some? ==> h
    ensures Covered(Logical(want, x, y), m, a, h)
    ensures var fl := GoIf(want, ShapeOf(x), FlowOf(x, m, a));
      fl.Falls? && fl.carry.Some? ==> MayPass(want, x, h)
    decreases Logical(want, x, y), 0
  {
    LogicFlow(want, x, y, m, a);
    LogicMay(want, x, y, h);
    hide FlowOf, Eval, OperandsRight, ShapeOf, Stale, StaleAfter, MayBring, MayKeep, Guarded;
    FlowCovered(x, m, a, h);
    var fl := GoIf(want, ShapeOf(x), FlowOf(x, m, a));
    if fl.Falls? { FlowCovered(y, m, fl.carry, MayPass(want, x, h)); }
  }

  lemma {:induction false} GuardedFlow(e: Expr, m: Env, a: Option<Value>, h: bool)
    requires Guarded(e, h) && (a.Some? ==> h)
    ensures OperandsRight(e, m, a) && !Stale(e, m, a)
    decreases e, 1
  {
    match e
    case Paren(x) => GuardedFlow(x, m, a, h);
    case Not(x) => GuardedFlow(x, m, a, h);
    case And(x, y) => GuardedLogic(true, x, y, m, a, h);
    case Or(x, y) => GuardedLogic(false, x, y, m, a, h);
    case Rel(_, x, y) =>
      FlowCovered(x, m, a, h);
      GuardedFlow(x, m, a, h);
      GuardedFlow(y, m, if Still(x) then CarryOf(FlowOf(x, m, a)) else None, Still(x) && MayKeep(x, h));
    case _ =>
  }

  lemma GuardedLogic(want: bool, x: Expr, y: Expr, m: Env, a: Option<Value>, h: bool)
    requires Guarded(Logical(want, x, y), h) && (a.Some? ==> h)
    ensures OperandsRight(Logical(want, x, y), m, a) && !StaleAfter(want, x, y, m, a)
    decreases Logical(want, x, y), 0
  {
    LogicFlow(want, x, y, m, a);
    LogicMay(want, x, y, h);
    hide FlowOf, Eval, OperandsRight, ShapeOf, Stale, MayBring, MayKeep, Guarded;
    FlowCovered(x, m, a, h);
    LogicCovered(want, x, y, m, a, h);
    GuardedFlow(x, m, a, h);
    var fl := GoIf(want, ShapeOf(x), FlowOf(x, m, a));
    if fl.Falls? { GuardedFlow(y, m, fl.carry, MayPass(want, x, h)); }
  }

  /** Under the guard the code is right in every environment. */
  lemma GuardedRight(e: Expr, m: Env, a: Option<Value>, h: bool)
    requires Guarded(e, h) && (a.Some? ==> h)
    ensures Actual(e, m, a) == Eval(e, m)
  {
    GuardedFlow(e, m, a, h);
    RightExactly(e, m, a);
  }

  /** No literal occurs in `e`. */
  predicate LiteralFree(e: Expr) {
    match e
    case Local(_) => true
    case Upval(_) => true
    case Paren(a) => LiteralFree(a)
    case Not(a) => LiteralFree(a)
    case And(a, b) => LiteralFree(a) && LiteralFree(b)
    case Or(a, b) => LiteralFree(a) && LiteralFree(b)
    case Rel(_, a, b) => LiteralFree(a) && LiteralFree(b)
    case _ => false
  }

  /** Without literals the guard holds anywhere. */
  lemma {:induction false} LiteralFreeGuarded(e: Expr, h: bool)
    requires LiteralFree(e)
    ensures Guarded(e, h) && !IsLiteral(ShapeOf(e))
    decreases e, 1
  {
    hide MayKeep, MayBring;
    match e
    case Paren(a) => LiteralFreeGuarded(a, h);
    case Not(a) => LiteralFreeGuarded(a, h);
    case And(a, b) =>
      LiteralFreeGuarded(a, h);
      LiteralFreeGuarded(b, MayPass(true, a, h));
    case Or(a, b) =>
      LiteralFreeGuarded(a, h);
      LiteralFreeGuarded(b, MayPass(false, a, h));
    case Rel(_, a, b) =>
      LiteralFreeGuarded(a, h);
      LiteralFreeGuarded(b, Still(a) && MayKeep(a, h));
    case _ =>
  }

  /** What happens at an always-jump that is not guarded: the value that was carried comes out instead of the
      literal, whatever `y` is. */
  lemma AlwaysJumpCarries(want: bool, x: Expr, y: Expr, m: Env, a: Option<Value>, v: Value)
    requires Always(want, ShapeOf(x)) && FlowOf(x, m, a).Falls? && FlowOf(x, m, a).carry == Some(v)
    ensures Actual(Logical(want, x, y), m, a) == v
    ensures OperandsRight(x, m, a) ==> Eval(Logical(want, x, y), m) == Bool(!want)
  {
    LiteralFlow(x, m, a);
    if OperandsRight(x, m, a) { FlowFits(x, m, a); }
  }
}
