/** Expressions in the middle of being compiled: what an expdesc promises about the code so far. */
module CodeExp {
  import opened CodeVm
  import opened CodeLists
  import opened CodeState
  import opened CodeFlow

  // ----- expression descriptors -----

  /** The kinds of expdesc the expressions go through. The last two are what is left when the code falls through
      and a jump for the other case is on a list: false, or nothing at all. */
  datatype Kind =
    | VNIL | VTRUE | VFALSE | VK | VLOCAL | VUPVAL | VNONRELOC | VRELOCABLE | VJMP
    | KnownFalse | Passed

  /** For a constant `info` is its identity. */
  datatype Exp = Exp(k: Kind, info: int, t: int, f: int)

  /** A descriptor with the jumps on its two lists. */
  datatype Desc = Desc(e: Exp, ts: seq<int>, fs: seq<int>)

  predicate Known(e: Exp) { e.k == KnownFalse || e.k == Passed }

  predicate IsLit(e: Exp) { e.k == VNIL || e.k == VTRUE || e.k == VFALSE || e.k == VK }

  function LitValue(e: Exp): Value
    requires IsLit(e)
  {
    match e.k
    case VNIL => Nil
    case VTRUE => True
    case VFALSE => False
    case _ => if e.info >= 0 then Other(e.info) else Nil
  }

  /** The code before the last instructions that the descriptor still has in its hands: a load whose
      register is open, or a comparison and its jump. */
  ghost function Start(s: Snap, e: Exp): Snap {
    match e.k
    case VRELOCABLE => if |s.code| < 1 then s else Snap(s.code[..|s.code| - 1], s.pending, s.here)
    case VJMP => if |s.code| < 2 then s else Snap(s.code[..|s.code| - 2], s.pending - {|s.code| - 1}, s.here)
    case _ => s
  }

  predicate IsLoad(i: Instr) { i.GETUPVAL? || i.NOT? }

  function LoadValue(i: Instr, m: Env): Value
    requires IsLoad(i)
  {
    if i.GETUPVAL? then Up(m, i.B) else Bool(IsFalse(Get(m, i.B)))
  }

  /** The value the descriptor stands for once the code has been run in `m`. */
  ghost predicate Remaining(code: Code, e: Exp, m: Env, val: Value) {
    match e.k
    case VLOCAL => Get(m, e.info) == val
    case VNONRELOC => Get(m, e.info) == val
    case VUPVAL => Up(m, e.info) == val
    case VRELOCABLE => 0 <= e.info < |code| && IsLoad(code[e.info]) && LoadValue(code[e.info], m) == val
    case VJMP => 1 <= e.info <= |code| && code[e.info - 1].CMP? && Bool(Taken(code[e.info - 1], m)) == val
    case KnownFalse => val == False
    case Passed => true
    case _ => LitValue(e) == val
  }

  // ----- jumps and what they bring -----

  predicate Controlled(code: Code, j: int) { 1 <= j <= |code| && IsTest(code[j - 1]) }

  /** The value in the register of the TESTSET before the jump at `j`. */
  function Brought(code: Code, j: int, m: Env): Option<Value> {
    if HasValue(code, j) then Some(Get(m, code[j - 1].B)) else None
  }

  /** No jump that leads here brings a value. */
  ghost predicate NoCarry(s: Snap) { forall j :: j in s.here ==> !HasValue(s.code, j) }

  /** The run is at the jump at `j` of the list for `truth`. */
  ghost predicate Exit(code: Code, j: int, m: Env, tested: bool, fl: Flow, truth: bool) {
    && 0 <= j < |code| && tested == Controlled(code, j)
    && fl == Leaves(truth, Brought(code, j, m))
  }

  /** The run has left through one of the lists. */
  ghost predicate Exits(o: Outcome, s: Snap, d: Desc, fr: int, m: Env, fl: Flow) {
    && o.Via? && Agree(m, o.m, fr, NO_REG)
    && ((o.j in d.ts && Exit(s.code, o.j, o.m, o.tested, fl, true))
        || (o.j in d.fs && Exit(s.code, o.j, o.m, o.tested, fl, false)))
  }

  /** The run has come to the end of the code, by falling through or by a jump to there, with the value
      remaining. Which value a jump brought is only asked while no register `x` has been assigned. */
  ghost predicate Stays(o: Outcome, s: Snap, e: Exp, fr: int, x: int, m: Env, fl: Flow) {
    && (o.Fall? || (o.Via? && o.j in s.here && 0 <= o.j < |s.code| && o.tested == Controlled(s.code, o.j)))
    && Agree(m, o.m, fr, x) && fl.Falls? && Remaining(s.code, e, o.m, fl.val)
    && (x == NO_REG && e.k != VUPVAL ==> fl.carry == if o.Fall? then None else Brought(s.code, o.j, o.m))
  }

  ghost predicate Good(o: Outcome, s: Snap, d: Desc, fr: int, x: int, m: Env, fl: Flow) {
    Exits(o, s, d, fr, m, fl) || Stays(o, s, d.e, fr, x, m, fl)
  }

  // ----- entries -----

  /** How control comes to the code of an expression: at its start, or by a jump that leads there. */
  datatype Entry = At(m: Env) | By(j: int, m: Env, tested: bool)

  ghost function Outcome0(s: Snap, n0: nat, en: Entry): Outcome {
    match en
    case At(m) => Run(s.code, s.pending, n0, m)
    case By(j, m, tested) => Continue(s.code, s.pending, n0, Via(j, m, tested))
  }

  ghost function Arriving(o: Snap, en: Entry): Option<Value> {
    if en.At? then None else Brought(o.code, en.j, en.m)
  }

  /** Registers from `fr` on are nil. */
  ghost predicate Fresh(m: Env, fr: int) { forall r :: r >= fr ==> Get(m, r) == Nil }

  // ----- what has been compiled so far -----

  /** The stages of an expression: compiled; with what is left of it in a register; with the jump of a comparison
      on the true list; wholly in a register; an operand; with a jump for the case that is not wanted; a branch on
      it, which goes on in the wanted case; with what is left of it negated. */
  datatype Job =
    | Value(e: Expr) | Placed(e: Expr) | Joined(e: Expr) | Answer(e: Expr) | AsOperand(e: Expr)
    | Split(want: bool, e: Expr) | Branch(want: bool, e: Expr) | Inverse(e: Expr)

  function Drop(fl: Flow): Flow { if fl.Falls? then Falls(None, fl.val) else fl }

  function FlowIn(job: Job, m: Env, a: Option<Value>): Flow {
    var fl := FlowOf(job.e, m, a);
    match job
    case Value(_) => fl
    case Placed(_) => Drop(fl)
    case Split(want, e) => if fl.Leaves? then fl else GoIf(want, ShapeOf(e), fl)
    case Branch(want, e) => GoIf(want, ShapeOf(e), fl)
    case Inverse(e) => if fl.Leaves? then fl else NotFlow(ShapeOf(e), fl)
    case Joined(_) => if fl.Falls? && fl.val == True then Leaves(true, None) else Drop(fl)
    case Answer(_) => Falls(None, Ans(fl))
    case AsOperand(e) => Falls(if Still(e) then CarryOf(fl) else None, Ans(fl))
  }

  /** The state when the compilation began, the first free register then, the number of active locals, and what
      is being compiled. */
  datatype Ctx = Ctx(o: Snap, fr: int, nact: nat, job: Job)

  /** An entry the compilation allows for. At the start of a function the registers are nil. */
  ghost predicate EntryOk(c: Ctx, en: Entry) {
    && (en.By? ==> en.j in c.o.here && en.tested == Controlled(c.o.code, en.j))
    && (c.o.code == [] && HasNil(c.job.e) ==> Fresh(en.m, c.fr))
  }

  ghost predicate MeansIn(c: Ctx, s: Snap, d: Desc, x: int, en: Entry) {
    EntryOk(c, en) ==>
      Good(Outcome0(Start(s, d.e), |c.o.code|, en), s, d, c.fr, x, en.m, FlowIn(c.job, en.m, Arriving(c.o, en)))
  }

  ghost predicate Means(c: Ctx, s: Snap, d: Desc, x: int) { forall en :: MeansIn(c, s, d, x, en) }

  // ----- structure -----

  ghost predicate KindOk(c: Ctx, s: Snap, e: Exp, free: int) {
    match e.k
    case VLOCAL => 0 <= e.info < c.nact && free == c.fr
    case VUPVAL => 0 <= e.info && free == c.fr
    case VNONRELOC =>
      (0 <= e.info < c.nact && free == c.fr) || (e.info == c.fr && free == c.fr + 1 && NoCarry(s))
    case VRELOCABLE =>
      && 0 <= e.info == |s.code| - 1 && e.info >= |c.o.code| && IsLoad(s.code[e.info]) && s.here == [] && free == c.fr
    case VJMP =>
      && 1 <= e.info == |s.code| - 1 && e.info - 1 >= |c.o.code| && s.code[e.info - 1].CMP? && s.here == []
      && free == c.fr && e.info in s.pending && s.code[e.info] == JMP(NO_JUMP)
    case KnownFalse => s.here == [] && free == c.fr
    case VNIL => free == c.fr && HasNil(c.job.e)
    case VK => free == c.fr && e.info >= 0
    case _ => free == c.fr
  }

  /** `js` is a list of pending jumps of the expression, apart from those that lead here. Jumps that led to the
      start may have come to it by an always-jump. */
  ghost predicate OwnList(o: Snap, s: Snap, e: Exp, l: int, js: seq<int>) {
    && IsList(s.code, l, js) && Disjoint(js, s.here)
    && forall j :: j in js ==> j in s.pending && (|o.code| <= j || j in o.here) && (e.k == VJMP ==> j != e.info)
  }

  ghost predicate ListsOk(o: Snap, s: Snap, d: Desc) {
    OwnList(o, s, d.e, d.e.t, d.ts) && OwnList(o, s, d.e, d.e.f, d.fs) && Disjoint(d.ts, d.fs)
  }

  /** Position `i` of `o` is as it was, except that jumps that led here may have got a target and lost their
      values. */
  ghost predicate KeptAt(o: Snap, s: Snap, i: int) {
    && 0 <= i < |o.code| && i < |s.code|
    && (if i in o.here then s.code[i].JMP?
        else if i + 1 in o.here && IsTest(o.code[i]) then Norm(s.code[i]) == Norm(o.code[i])
        else s.code[i] == o.code[i])
    && (i !in o.here ==> (i in s.pending <==> i in o.pending))
  }

  ghost predicate Kept(o: Snap, s: Snap) {
    && |o.code| <= |s.code|
    && (forall i :: 0 <= i < |o.code| ==> KeptAt(o, s, i))
    && (forall j :: j in s.here ==> |o.code| <= j || j in o.here)
  }

  ghost predicate Begun(c: Ctx, s: Snap) {
    SnapOk(c.o) && Closed(c.o.code) && SnapOk(s) && Closed(s.code) && c.nact <= c.fr
  }

  /** The descriptor with its lists stands for what is being compiled; register `x` may have been assigned. */
  ghost predicate Holds(c: Ctx, s: Snap, d: Desc, free: int, x: int) {
    Begun(c, s) && Kept(c.o, s) && KindOk(c, s, d.e, free) && ListsOk(c.o, s, d) && Means(c, s, d, x)
  }

  /** The descriptor is what the shape of the expression says, and its lists have jumps where they should. */
  ghost predicate Shaped(src: Expr, code: Code, d: Desc) {
    && KindShape(d.e, code, ShapeOf(src))
    && (d.ts != [] <==> HasList(src, true)) && (d.fs != [] <==> HasList(src, false))
  }

  predicate KindShape(e: Exp, code: Code, sh: Shape) {
    match sh
    case SReg => e.k == VLOCAL || e.k == VNONRELOC
    case SUp => e.k == VUPVAL || (e.k == VRELOCABLE && 0 <= e.info < |code| && code[e.info].GETUPVAL?)
    case SNot => e.k == VRELOCABLE && 0 <= e.info < |code| && code[e.info].NOT?
    case SJmp => e.k == VJMP
    case SNil => e.k == VNIL
    case SFalse => e.k == VFALSE
    case STrue => e.k == VTRUE
    case SConst => e.k == VK
  }

  // ----- code that grows -----

  lemma KeptTrans(o: Snap, s: Snap, s': Snap)
    requires SnapOk(o) && Closed(o.code) && Kept(o, s) && Kept(s, s')
    ensures Kept(o, s')
  {
    forall i | 0 <= i < |o.code| ensures KeptAt(o, s', i) {
      assert KeptAt(o, s, i) && KeptAt(s, s', i);
    }
  }

  lemma KeptCompat(s: Snap, s': Snap)
    requires SnapOk(s) && Kept(s, s')
    ensures Compat(s.code, s.pending, s'.code, s'.pending)
  {
    forall i | 0 <= i < |s.code| ensures (i in s'.pending ==> i in s.pending) && SameAt(s.code, s.pending, s'.code, i) {
      assert KeptAt(s, s', i);
      assert i in s.pending ==> JumpAt(s.code, i);
    }
  }

  /** Everything but the jumps to here is untouched, and these now lead to the first new instruction, without
      their values. */
  ghost predicate LandedAt(o: Snap, s: Snap, i: int) {
    && 0 <= i < |o.code| && i < |s.code|
    && s.code[i] == PatchAt(o.code, o.here, |o.code|, NO_REG, |o.code|, i)
    && (i in s.pending <==> i in o.pending && i !in o.here)
  }

  ghost predicate Landed(o: Snap, s: Snap) {
    && |o.code| <= |s.code|
    && (forall i :: 0 <= i < |o.code| ==> LandedAt(o, s, i))
    && (forall j :: j in s.here ==> |o.code| <= j)
  }

  lemma LandedKept(o: Snap, s: Snap)
    requires SnapOk(o) && Landed(o, s)
    ensures Kept(o, s)
  {
    forall i | 0 <= i < |o.code| ensures KeptAt(o, s, i) {
      assert LandedAt(o, s, i);
      assert i in o.here ==> JumpAt(o.code, i);
    }
  }

  /** A run of code that grew goes on where the run of the old code ended. */
  lemma OutcomeContinues(s: Snap, s': Snap, n0: nat, en: Entry)
    requires SnapOk(s) && Compat(s.code, s.pending, s'.code, s'.pending) && n0 <= |s.code|
    requires Outcome0(s, n0, en) != Stuck
    ensures Outcome0(s', n0, en) == Continue(s'.code, s'.pending, |s.code|, Outcome0(s, n0, en))
  {
    match en
    case At(m) => RunContinues(s.code, s.pending, s'.code, s'.pending, n0, m);
    case By(j, m, tested) =>
      if j !in s.pending && 0 <= j < |s.code| {
        assert SameAt(s.code, s.pending, s'.code, j);
        if 0 < j { assert SameAt(s.code, s.pending, s'.code, j - 1); }
        var r := if tested && 0 < j then Carried(s.code[j - 1], m) else m;
        StepContinues(s.code, s.pending, s'.code, s'.pending, j + 1 + s.code[j].sBx, r);
      }
  }

  /** After more code has been emitted. */
  lemma OutcomeLanded(s: Snap, s': Snap, n0: nat, en: Entry)
    requires SnapOk(s) && Landed(s, s') && n0 <= |s.code| && Outcome0(s, n0, en) != Stuck
    ensures var o, o' := Outcome0(s, n0, en), Outcome0(s', n0, en);
      && (o.Fall? ==> o' == Run(s'.code, s'.pending, |s.code|, o.m))
      && (o.Via? && o.j in s.here ==> o' == Run(s'.code, s'.pending, |s.code|, o.m))
      && (o.Via? && o.j in s.pending && o.j !in s.here ==> o' == o)
  {
    LandedKept(s, s');
    KeptCompat(s, s');
    OutcomeContinues(s, s', n0, en);
    var o := Outcome0(s, n0, en);
    if o.Via? && o.j in s.pending {
      assert JumpAt(s.code, o.j);
      assert LandedAt(s, s', o.j);
      if 0 < o.j { assert LandedAt(s, s', o.j - 1); }
    }
  }

  /** What an emitted instruction does to the positions before it. */
  lemma EmittedLanded(s: Snap, i: Instr)
    requires SnapOk(s)
    ensures SnapOk(Emitted(s, i)) && Landed(s, Emitted(s, i)) && |Emitted(s, i).code| == |s.code| + 1
    ensures Emitted(s, i).code[|s.code|] == i && Emitted(s, i).here == []
  {
    EmittedOk(s, i);
    var e := Emitted(s, i);
    forall k | 0 <= k < |s.code| ensures LandedAt(s, e, k) {}
  }

  // ----- jumps that stay -----

  /** The same test, if any, stands before the jump at `j`. */
  ghost predicate SameControl(c: Code, c': Code, j: int) {
    && 0 <= j < |c| && j < |c'|
    && (j > 0 ==> c'[j - 1] == c[j - 1] || (!IsTest(c[j - 1]) && !IsTest(c'[j - 1])))
  }

  ghost predicate SameControls(c: Code, c': Code, js: seq<int>) { forall j :: j in js ==> SameControl(c, c', j) }

  lemma SameBrought(c: Code, c': Code, j: int)
    requires SameControl(c, c', j)
    ensures Controlled(c', j) == Controlled(c, j) && HasValue(c', j) == HasValue(c, j)
    ensures forall m :: Brought(c', j, m) == Brought(c, j, m)
  {}

  /** Jumps that do not lead here keep their place on a list. */
  lemma ListKept(s: Snap, s': Snap, l: int, js: seq<int>)
    requires SnapOk(s) && Kept(s, s') && IsList(s.code, l, js) && Disjoint(js, s.here)
    requires forall j :: j in js ==> j in s.pending
    ensures IsList(s'.code, l, js) && Disjoint(js, s'.here) && SameControls(s.code, s'.code, js)
    ensures forall j :: j in js ==> j in s'.pending
  {
    ListMembers(s.code, l, js);
    forall j | j in js
      ensures j in s'.pending && JumpAt(s'.code, j) && s'.code[j] == s.code[j] && j !in s'.here
      ensures SameControl(s.code, s'.code, j)
    {
      assert JumpAt(s.code, j) && KeptAt(s, s', j);
      if 0 < j {
        assert KeptAt(s, s', j - 1);
        assert j - 1 in s.here ==> JumpAt(s.code, j - 1);
      }
    }
    ListFrame(s.code, s'.code, l, js);
  }

  lemma ExitSame(c: Code, c': Code, j: int, m: Env, tested: bool, fl: Flow, truth: bool)
    requires SameControl(c, c', j)
    ensures Exit(c', j, m, tested, fl, truth) == Exit(c, j, m, tested, fl, truth)
  {
    SameBrought(c, c', j);
  }

  /** Leaving through a list stays leaving through it while the tests before its jumps stay. */
  lemma ExitsKept(o: Outcome, s: Snap, d: Desc, s': Snap, d': Desc, fr: int, m: Env, fl: Flow)
    requires Exits(o, s, d, fr, m, fl)
    requires SameControls(s.code, s'.code, d.ts) && SameControls(s.code, s'.code, d.fs)
    requires (forall j :: j in d.ts ==> j in d'.ts) && (forall j :: j in d.fs ==> j in d'.fs)
    ensures Exits(o, s', d', fr, m, fl)
  {
    if o.j in d.ts && Exit(s.code, o.j, o.m, o.tested, fl, true) {
      ExitSame(s.code, s'.code, o.j, o.m, o.tested, fl, true);
    } else {
      ExitSame(s.code, s'.code, o.j, o.m, o.tested, fl, false);
    }
  }

  // ----- the start of a descriptor -----

  lemma StartShape(c: Ctx, s: Snap, d: Desc, free: int, x: int)
    requires Holds(c, s, d, free, x)
    ensures SnapOk(Start(s, d.e)) && |c.o.code| <= |Start(s, d.e).code| <= |s.code| && Start(s, d.e).here == s.here
    ensures Start(s, d.e).code == s.code[..|Start(s, d.e).code|]
    ensures Landed(Start(s, d.e), s) || Start(s, d.e) == s
    ensures d.e.k == VRELOCABLE || d.e.k == VJMP ==> s.here == []
    ensures forall j :: j in Start(s, d.e).pending <==> j in s.pending && !(d.e.k == VJMP && j == d.e.info)
    ensures forall j :: j in Start(s, d.e).pending ==> JumpAt(Start(s, d.e).code, j)
  {
    hide Means, ListsOk;
    var st := Start(s, d.e);
    forall j | j in s.pending && !(d.e.k == VJMP && j == d.e.info) ensures JumpAt(st.code, j) {
      assert JumpAt(s.code, j);
    }
  }

  lemma StartOk(c: Ctx, s: Snap, d: Desc, free: int, x: int)
    requires Holds(c, s, d, free, x)
    ensures SnapOk(Start(s, d.e)) && |c.o.code| <= |Start(s, d.e).code| && Start(s, d.e).here == s.here
    ensures Landed(Start(s, d.e), s) || Start(s, d.e) == s
    ensures d.e.k == VRELOCABLE || d.e.k == VJMP ==> s.here == []
    ensures ListsOk(c.o, Start(s, d.e), d)
    ensures forall j :: j in d.ts || j in d.fs ==>
      j in Start(s, d.e).pending && 0 <= j < |Start(s, d.e).code| && j !in s.here
    ensures SameControls(s.code, Start(s, d.e).code, d.ts) && SameControls(s.code, Start(s, d.e).code, d.fs)
  {
    StartShape(c, s, d, free, x);
    hide Means, Kept, KindOk, Landed, Start, SnapOk;
    var st := Start(s, d.e);
    StartList(s, st, d.e, d.e.t, d.ts);
    StartList(s, st, d.e, d.e.f, d.fs);
    hide IsList, SameControls;
  }

  lemma StartList(s: Snap, st: Snap, e: Exp, l: int, js: seq<int>)
    requires IsList(s.code, l, js) && |st.code| <= |s.code| && st.code == s.code[..|st.code|]
    requires forall j :: j in js ==> JumpAt(st.code, j)
    ensures IsList(st.code, l, js) && SameControls(s.code, st.code, js)
  {
    ListFrame(s.code, st.code, l, js);
  }

  lemma StartOutcome(c: Ctx, s: Snap, d: Desc, free: int, x: int, en: Entry)
    requires Holds(c, s, d, free, x) && EntryOk(c, en)
    ensures Good(Outcome0(Start(s, d.e), |c.o.code|, en), s, d, c.fr, x, en.m, FlowIn(c.job, en.m, Arriving(c.o, en)))
  {
    hide Good;
    assert MeansIn(c, s, d, x, en);
  }

  lemma GoodCases(o: Outcome, s: Snap, d: Desc, fr: int, x: int, m: Env, fl: Flow)
    requires Good(o, s, d, fr, x, m, fl)
    ensures o != Stuck
    ensures o.Fall? || (o.Via? && (o.j in d.ts || o.j in d.fs || o.j in s.here))
    ensures o.Fall? || o.j in s.here || Exits(o, s, d, fr, m, fl)
    ensures o.Fall? || (o.j !in d.ts && o.j !in d.fs) ==> Stays(o, s, d.e, fr, x, m, fl)
  {}

  /** After more code, a run goes on from the end of the old code with the value remaining, or has left
      through one of the lists. */
  lemma After(c: Ctx, s: Snap, d: Desc, free: int, s': Snap, en: Entry) returns (r: Env)
    requires Holds(c, s, d, free, NO_REG) && Landed(Start(s, d.e), s') && EntryOk(c, en)
    ensures var o, fl := Outcome0(s', |c.o.code|, en), FlowIn(c.job, en.m, Arriving(c.o, en));
      || Exits(o, s', d, c.fr, en.m, fl)
      || (&& o == Run(s'.code, s'.pending, |Start(s, d.e).code|, r) && Agree(en.m, r, c.fr, NO_REG)
          && fl.Falls? && Remaining(s.code, d.e, r, fl.val))
  {
    var st := Start(s, d.e);
    var o, fl := Outcome0(st, |c.o.code|, en), FlowIn(c.job, en.m, Arriving(c.o, en));
    StartOk(c, s, d, free, NO_REG);
    StartOutcome(c, s, d, free, NO_REG, en);
    GoodCases(o, s, d, c.fr, NO_REG, en.m, fl);
    LandedKept(st, s');
    ListKept(st, s', d.e.t, d.ts);
    ListKept(st, s', d.e.f, d.fs);
    hide Holds, Means, ListsOk, Exit, Good, Kept, FlowIn, SameControls;
    OutcomeLanded(st, s', |c.o.code|, en);
    r := en.m;
    if o.Via? && o.j !in s.here {
      ControlsTrans(s.code, st.code, s'.code, d.ts);
      ControlsTrans(s.code, st.code, s'.code, d.fs);
      ExitsKept(o, s, d, s', d, c.fr, en.m, fl);
    } else {
      r := o.m;
      assert Stays(o, s, d.e, c.fr, NO_REG, en.m, fl);
      assert Outcome0(s', |c.o.code|, en) == Run(s'.code, s'.pending, |Start(s, d.e).code|, r);
    }
  }

  lemma ControlsTrans(c: Code, c1: Code, c2: Code, js: seq<int>)
    requires SameControls(c, c1, js) && SameControls(c1, c2, js)
    ensures SameControls(c, c2, js)
  {
    forall j | j in js ensures SameControl(c, c2, j) { assert SameControl(c, c1, j) && SameControl(c1, c2, j); }
  }

  lemma MeansAll(c: Ctx, s: Snap, d: Desc, x: int)
    requires forall en :: MeansIn(c, s, d, x, en)
    ensures Means(c, s, d, x)
  {}
}
