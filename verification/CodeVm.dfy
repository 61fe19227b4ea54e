/** The opcodes behind logical expressions (lvm.c:403-427, 505-509, 537-581) and runs of code that is still being
    built: jumps on a patch list have no target yet, so a run stops at them. */
module CodeVm {

  datatype Value = Nil | False | True | Other(id: nat)

  predicate IsFalse(v: Value) { v == Nil || v == False }

  function Bool(b: bool): Value { if b then True else False }

  datatype CmpOp = EQ | LT | LE

  /** Registers (nil until written), upvalues, and the order operators of the values at hand. */
  datatype Env = Env(
    reg: map<int, Value>, up: map<int, Value>,
    lt: (Value, Value) -> bool, le: (Value, Value) -> bool)

  function Get(m: Env, r: int): Value { if r in m.reg then m.reg[r] else Nil }

  function Put(m: Env, r: int, v: Value): Env { m.(reg := m.reg[r := v]) }

  /** Registers `a` to `b` set to nil, from the last one down. */
  function PutNils(m: Env, a: int, b: int): Env
    decreases b - a
  {
    if b - 1 < a then Put(m, b, Nil) else PutNils(Put(m, b, Nil), a, b - 1)
  }

  function Up(m: Env, u: int): Value { if u in m.up then m.up[u] else Nil }

  function Compare(m: Env, op: CmpOp, a: Value, b: Value): bool {
    match op
    case EQ => a == b
    case LT => m.lt(a, b)
    case LE => m.le(a, b)
  }

  /** A register field without a register. */
  const NO_REG := -1

  /** An operand of a comparison: a register or a constant. */
  datatype Operand = R(r: int) | K(v: Value)

  function Fetch(m: Env, o: Operand): Value { match o case R(r) => Get(m, r) case K(v) => v }

  datatype Instr =
    | MOVE(A: int, B: int)
    | LOADK(A: int, k: Value)
    | LOADNIL(A: int, B: int)
    | LOADBOOL(A: int, v: bool, skip: bool)
    | GETUPVAL(A: int, B: int)
    | NOT(A: int, B: int)
    | JMP(sBx: int)
    | CMP(op: CmpOp, cond: bool, b: Operand, c: Operand)
    | TEST(A: int, C: bool)
    | TESTSET(A: int, B: int, C: bool)
    | RETURN(A: int)

  /** testTMode (lopcodes.h): a test, which is followed by a jump. */
  predicate IsTest(i: Instr) { i.CMP? || i.TEST? || i.TESTSET? }

  /** Whether a test takes the jump that follows it. */
  predicate Taken(i: Instr, m: Env)
    requires IsTest(i)
  {
    match i
    case CMP(op, cond, b, c) => Compare(m, op, Fetch(m, b), Fetch(m, c)) == cond
    case TEST(a, c) => IsFalse(Get(m, a)) != c
    case TESTSET(_, b, c) => IsFalse(Get(m, b)) != c
  }

  /** The environment with which a taken test jumps. */
  function Carried(i: Instr, m: Env): Env {
    if i.TESTSET? then Put(m, i.A, Get(m, i.B)) else m
  }

  /** The environment after an instruction that only loads a register. */
  function Loaded(i: Instr, m: Env): Env {
    match i
    case MOVE(a, b) => Put(m, a, Get(m, b))
    case LOADK(a, k) => Put(m, a, k)
    case LOADNIL(a, b) => PutNils(m, a, b)
    case LOADBOOL(a, v, _) => Put(m, a, Bool(v))
    case GETUPVAL(a, b) => Put(m, a, Up(m, b))
    case NOT(a, b) => Put(m, a, Bool(IsFalse(Get(m, b))))
    case _ => m
  }

  type Code = seq<Instr>

  /** How a run ends: at the end of the code, at a pending jump (`tested` if a test took it), at a
      RETURN, or in a place where no generated code goes. */
  datatype Outcome = Fall(m: Env) | Via(j: int, m: Env, tested: bool) | Ret(v: Value, m: Env) | Stuck

  function Run(code: Code, pending: set<int>, pc: nat, m: Env): Outcome
    decreases |code| - pc, 1
  {
    if pc > |code| then Stuck
    else if pc == |code| then Fall(m)
    else
      var i := code[pc];
      if i.RETURN? then Ret(Get(m, i.A), m)
      else if i.JMP? then
        if pc in pending then Via(pc, m, false) else Goto(code, pending, pc, pc, m)
      else if IsTest(i) then
        if pc + 1 >= |code| || !code[pc + 1].JMP? then Stuck
        else if !Taken(i, m) then Run(code, pending, pc + 2, m)
        else if pc + 1 in pending then Via(pc + 1, m, true)
        else Goto(code, pending, pc, pc + 1, Carried(i, m))
      else Run(code, pending, if i.LOADBOOL? && i.skip then pc + 2 else pc + 1, Loaded(i, m))
  }

  /** Continue at the target of the jump at `j`, which lies ahead of `pc`. */
  function Goto(code: Code, pending: set<int>, pc: nat, j: nat, m: Env): Outcome
    requires pc <= j < |code| && code[j].JMP?
    decreases |code| - pc, 0
  {
    if code[j].sBx < 0 then Stuck else Run(code, pending, j + 1 + code[j].sBx, m)
  }

  // ----- changing code that is being built -----

  /** A test without its value. */
  function Norm(i: Instr): Instr { if i.TESTSET? then TEST(i.B, i.C) else i }

  /** Position `i` is as before, up to where a pending jump leads and which value its test stores. */
  ghost predicate SameAt(c: Code, p: set<int>, c': Code, i: int) {
    && 0 <= i < |c| && i < |c'|
    && if i in p then c[i].JMP? && c'[i].JMP?
       else if i + 1 in p && IsTest(c[i]) then Norm(c'[i]) == Norm(c[i])
       else c'[i] == c[i]
  }

  /** `c'` continues `c`: more code at the end, fewer pending jumps. */
  ghost predicate Compat(c: Code, p: set<int>, c': Code, p': set<int>) {
    && |c| <= |c'|
    && (forall i :: 0 <= i < |c| && i in p' ==> i in p)
    && (forall i :: 0 <= i < |c| ==> SameAt(c, p, c', i))
  }

  /** How a run of `c'` goes on where the run of its part `c` ended. */
  function Continue(c': Code, p': set<int>, n: nat, o: Outcome): Outcome {
    match o
    case Fall(m) => Run(c', p', n, m)
    case Via(j, m, tested) =>
      if j in p' then o
      else if !(0 <= j < |c'| && c'[j].JMP?) then Stuck
      else Goto(c', p', j, j, if tested && 0 < j then Carried(c'[j - 1], m) else m)
    case _ => o
  }

  lemma {:induction false} RunContinues(c: Code, p: set<int>, c': Code, p': set<int>, pc: nat, m: Env)
    requires Compat(c, p, c', p') && pc <= |c| && Run(c, p, pc, m) != Stuck
    ensures Run(c', p', pc, m) == Continue(c', p', |c|, Run(c, p, pc, m))
    decreases |c| - pc, 0
  {
    if pc < |c| {
      var i := c[pc];
      assert SameAt(c, p, c', pc);
      if IsTest(i) && pc + 1 < |c| {
        assert SameAt(c, p, c', pc + 1);
        assert Norm(c'[pc]) == Norm(i);
        if !Taken(i, m) {
          StepContinues(c, p, c', p', pc + 2, m);
        } else if pc + 1 !in p {
          StepContinues(c, p, c', p', pc + 2 + c[pc + 1].sBx, Carried(i, m));
        }
      } else if i.JMP? {
        if pc !in p { StepContinues(c, p, c', p', pc + 1 + i.sBx, m); }
      } else if !i.RETURN? && !IsTest(i) {
        StepContinues(c, p, c', p', if i.LOADBOOL? && i.skip then pc + 2 else pc + 1, Loaded(i, m));
      }
    }
  }

  lemma {:induction false} StepContinues(c: Code, p: set<int>, c': Code, p': set<int>, pc: int, m: Env)
    requires Compat(c, p, c', p') && pc >= 0 && Run(c, p, pc, m) != Stuck
    ensures Run(c', p', pc, m) == Continue(c', p', |c|, Run(c, p, pc, m))
    decreases |c| - pc, 1
  {
    RunContinues(c, p, c', p', pc, m);
  }

  // ----- the interpreter -----

  /** The registers from `a` to `b` are nil, `b` even if it is below `a`, and nothing else has changed. */
  ghost predicate Cleared(m0: Env, a: int, b: int, m: Env) {
    && (forall r :: Get(m, r) == if r == b || a <= r <= b then Nil else Get(m0, r))
    && m.up == m0.up && m.lt == m0.lt && m.le == m0.le
  }

  lemma {:induction false} PutNilsClears(m0: Env, a: int, b: int)
    ensures Cleared(m0, a, b, PutNils(m0, a, b))
    decreases b - a
  {
    if b - 1 >= a { PutNilsClears(Put(m0, b, Nil), a, b - 1); }
  }

  /** OP_LOADNIL (lvm.c:416-421) */
  method ClearRegisters(m0: Env, a: int, b: int) returns (m: Env)
    ensures m == PutNils(m0, a, b) && Cleared(m0, a, b, m)
  {
    PutNilsClears(m0, a, b);
    m := Put(m0, b, Nil);
    var rb := b - 1;
    while rb >= a
      invariant PutNils(m0, a, b) == if rb < a then m else PutNils(m, a, rb)
      decreases rb - a
    {
      m := Put(m, rb, Nil);
      rb := rb - 1;
    }
  }

  /** The loop of luaV_execute on code all of whose jumps lead forward. */
  method Execute(code: Code, m0: Env) returns (v: Value, m: Env)
    requires Run(code, {}, 0, m0).Ret?
    ensures Run(code, {}, 0, m0) == Ret(v, m)
  {
    m := m0;
    var pc := 0;
    while true
      invariant 0 <= pc && Run(code, {}, pc, m) == Run(code, {}, 0, m0)
      decreases |code| - pc
    {
      var i := code[pc];
      pc := pc + 1;
      match i
      case RETURN(a) => return Get(m, a), m;
      case JMP(sbx) => pc := pc + sbx;
      case MOVE(a, b) => m := Put(m, a, Get(m, b));
      case LOADK(a, k) => m := Put(m, a, k);
      case LOADNIL(a, b) => m := ClearRegisters(m, a, b);
      case GETUPVAL(a, b) => m := Put(m, a, Up(m, b));
      case NOT(a, b) =>
        var res := IsFalse(Get(m, b));
        m := Put(m, a, Bool(res));
      case LOADBOOL(a, b, c) =>
        m := Put(m, a, Bool(b));
        if c { pc := pc + 1; }
      case CMP(op, a, b, c) =>
        if Compare(m, op, Fetch(m, b), Fetch(m, c)) == a { pc := pc + code[pc].sBx; }
        pc := pc + 1;
      case TEST(a, c) =>
        if IsFalse(Get(m, a)) != c { pc := pc + code[pc].sBx; }
        pc := pc + 1;
      case TESTSET(a, b, c) =>
        if IsFalse(Get(m, b)) != c {
          m := Put(m, a, Get(m, b));
          pc := pc + code[pc].sBx;
        }
        pc := pc + 1;
    }
  }

  // ----- the opcodes one by one -----

  predicate Truthy(v: Value) { v.True? || v.Other? }

  function Deref(m: Env, o: Operand): Value {
    match o
    case K(v) => v
    case R(r) => if r in m.reg then m.reg[r] else Nil
  }

  /** The environment `m` with register `a` holding `v`. */
  function Assigned(m: Env, a: int, v: Value): Env { Env(m.reg[a := v], m.up, m.lt, m.le) }

  /** The instruction at `pc` is followed by a jump over `s` instructions. */
  predicate JumpNext(code: Code, p: set<int>, pc: nat, s: nat) {
    pc + 1 < |code| && code[pc + 1] == JMP(s) && pc + 1 !in p
  }

  /** The instructions that load a register, as lopcodes.h:148-181 describes them. */
  lemma LoadsMean(code: Code, p: set<int>, pc: nat, m: Env)
    requires pc < |code|
    ensures match code[pc]
      case MOVE(a, b) => Run(code, p, pc, m) == Run(code, p, pc + 1, Assigned(m, a, Deref(m, R(b))))
      case LOADK(a, k) => Run(code, p, pc, m) == Run(code, p, pc + 1, Assigned(m, a, k))
      case LOADBOOL(a, v, skip) =>
        Run(code, p, pc, m) == Run(code, p, if skip then pc + 2 else pc + 1, Assigned(m, a, if v then True else False))
      case LOADNIL(a, b) => exists m' :: Cleared(m, a, b, m') && Run(code, p, pc, m) == Run(code, p, pc + 1, m')
      case GETUPVAL(a, b) =>
        Run(code, p, pc, m) == Run(code, p, pc + 1, Assigned(m, a, if b in m.up then m.up[b] else Nil))
      case NOT(a, b) =>
        Run(code, p, pc, m) ==
          Run(code, p, pc + 1, Assigned(m, a, if Truthy(Deref(m, R(b))) then False else True))
      case _ => true
  {
    match code[pc]
    case LOADNIL(a, b) => PutNilsClears(m, a, b);
    case _ =>
  }

  /** The tests, each followed by a jump that it takes or skips, jumps and returns (lopcodes.h:182-193). */
  lemma TestsMean(code: Code, p: set<int>, pc: nat, m: Env, s: nat)
    requires pc < |code|
    ensures Run(code, p, |code|, m) == Fall(m)
    ensures match code[pc]
      case CMP(op, cond, b, c) => JumpNext(code, p, pc, s) ==>
        var v, w := Deref(m, b), Deref(m, c);
        var holds := match op case EQ => v == w case LT => m.lt(v, w) case LE => m.le(v, w);
        Run(code, p, pc, m) == Run(code, p, if holds == cond then pc + 2 + s else pc + 2, m)
      case TEST(a, c) => JumpNext(code, p, pc, s) ==>
        Run(code, p, pc, m) == Run(code, p, if Truthy(Deref(m, R(a))) == c then pc + 2 + s else pc + 2, m)
      case TESTSET(a, b, c) => JumpNext(code, p, pc, s) ==>
        var v := Deref(m, R(b));
        Run(code, p, pc, m) ==
          if Truthy(v) == c then Run(code, p, pc + 2 + s, Assigned(m, a, v)) else Run(code, p, pc + 2, m)
      case JMP(d) => d >= 0 && pc !in p ==> Run(code, p, pc, m) == Run(code, p, pc + 1 + d, m)
      case RETURN(a) => Run(code, p, pc, m) == Ret(Deref(m, R(a)), m)
      case _ => true
  {}
}
