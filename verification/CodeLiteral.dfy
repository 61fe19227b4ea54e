/** What the always-jumps of luaK_goiftrue and luaK_goiffalse (lcode.c:547-550, 575-578) do to expressions with
    literals: an expression for each of them whose compiled code is wrong, with exactly the inputs on which it is,
    and an expression for which the place of the code decides. */
module CodeLiteral {
  import opened CodeVm
  import opened CodeLists
  import opened CodeState
  import opened CodeFlow
  import opened CodeExp
  import opened CodeGen

  /** `((x and x) or false) and y` if `want`, `((x or x) and true) or y` if not. */
  function Twice(want: bool): Expr { Logical(want, Middle(want), Local(1)) }

  function Middle(want: bool): Expr { Logical(!want, Inner(want), BoolLiteral(!want)) }

  function Inner(want: bool): Expr { Logical(want, Local(0), Local(0)) }

  /** `false and y`, `true or y` */
  function Constantly(want: bool): Expr { Logical(want, BoolLiteral(!want), Local(1)) }

  lemma LeafFacts(i: nat, b: bool, m: Env, a: Option<CodeVm.Value>)
    ensures FlowOf(Local(i), m, a) == Falls(a, Get(m, i)) && Eval(Local(i), m) == Get(m, i) && ShapeOf(Local(i)) == SReg
    ensures FlowOf(BoolLiteral(b), m, a) == Falls(a, Bool(b)) && Eval(BoolLiteral(b), m) == Bool(b)
    ensures ShapeOf(BoolLiteral(b)) == if b then STrue else SFalse
  {}

  lemma LogicShape(want: bool, a: Expr, b: Expr)
    ensures ShapeOf(Logical(want, a, b)) == ShapeOf(b)
  {}

  /** The value comes out as `x`, where it should be the literal, exactly when `x` is not as wanted. */
  lemma TwiceFlow(want: bool, m: Env)
    ensures var x := Get(m, 0);
      && Eval(Twice(want), m) == (if IsFalse(x) == want then Bool(!want) else Get(m, 1))
      && Actual(Twice(want), m, None) == (if IsFalse(x) == want then x else Get(m, 1))
  {
    var x := Get(m, 0);
    LeafFacts(0, !want, m, None);
    LeafFacts(1, !want, m, Some(x));
    LogicFlow(want, Local(0), Local(0), m, None);
    LogicFlow(!want, Inner(want), BoolLiteral(!want), m, None);
    LogicFlow(want, Middle(want), Local(1), m, None);
    LogicShape(want, Local(0), Local(0));
    LogicShape(!want, Inner(want), BoolLiteral(!want));
    hide FlowOf, ShapeOf, Eval, Logical, Stale, StaleAfter, OperandsRight;
  }

  lemma LeafMay(i: nat, b: bool, h: bool)
    ensures MayKeep(Local(i), h) == h && MayKeep(BoolLiteral(b), h) == h && Guarded(Local(i), h)
    ensures Guarded(BoolLiteral(b), h)
    ensures forall t :: !MayBring(Local(i), t, h) && !MayBring(BoolLiteral(b), t, h)
    ensures ShapeOf(Local(i)) == SReg && ShapeOf(BoolLiteral(b)) == if b then STrue else SFalse
  {}

  lemma InnerBrings(want: bool, h: bool)
    ensures MayBring(Inner(want), !want, h)
  {
    assert MayLeave(want, Local(0), h);
    LogicMay(want, Local(0), Local(0), h);
    hide ShapeOf, Logical, MayKeep, MayBring, Guarded, MayLeave, MayPass;
  }

  lemma MiddleKeeps(want: bool, h: bool)
    ensures MayKeep(Middle(want), h) && ShapeOf(Middle(want)) == if want then SFalse else STrue
  {
    InnerBrings(want, h);
    LeafMay(0, !want, true);
    LogicMay(!want, Inner(want), BoolLiteral(!want), h);
    LogicShape(!want, Inner(want), BoolLiteral(!want));
    hide ShapeOf, Logical, MayKeep, MayBring, Guarded, MayLeave, Inner;
  }

  /** The guard finds it. */
  lemma TwiceGuard(want: bool, h: bool)
    ensures !Guarded(Twice(want), h)
  {
    MiddleKeeps(want, h);
    LogicMay(want, Middle(want), Local(1), h);
    hide ShapeOf, Logical, MayKeep, MayBring, Guarded, MayLeave, Middle, MayPass;
  }

  lemma LogicPlain(want: bool, a: Expr, b: Expr, nact: nat)
    ensures Scoped(Logical(want, a, b), nact) == (Scoped(a, nact) && Scoped(b, nact))
    ensures HasNil(Logical(want, a, b)) == (HasNil(a) || HasNil(b))
  {}

  lemma TwicePlain(want: bool)
    ensures Scoped(Twice(want), 2) && !HasNil(Twice(want))
  {
    assert Scoped(Local(0), 2) && Scoped(Local(1), 2) && Scoped(BoolLiteral(!want), 2);
    assert !HasNil(Local(0)) && !HasNil(Local(1)) && !HasNil(BoolLiteral(!want));
    LogicPlain(want, Local(0), Local(0), 2);
    LogicPlain(!want, Inner(want), BoolLiteral(!want), 2);
    LogicPlain(want, Middle(want), Local(1), 2);
    hide Logical, Scoped, HasNil;
  }

  /** `return ((x and x) or false) and y` and `return ((x or x) and true) or y` give the right value exactly when
      `x` is as wanted or is the literal itself: `x` nil breaks the first, `x` a number the second. */
  method ReturnTwice(want: bool) returns (code: Code)
    ensures forall m :: Returns(code, 2, m, if IsFalse(Get(m, 0)) == want then Get(m, 0) else Get(m, 1))
    ensures forall m :: Returns(code, 2, m, Eval(Twice(want), m)) <==>
      IsFalse(Get(m, 0)) != want || Get(m, 0) == Bool(!want)
  {
    TwicePlain(want);
    hide Scoped, HasNil, Twice, Eval, Actual, Guarded, Sour, OperandsRight, Returns;
    code := CompileReturn(Twice(want), 2);
    forall m
      ensures Returns(code, 2, m, if IsFalse(Get(m, 0)) == want then Get(m, 0) else Get(m, 1))
      ensures Returns(code, 2, m, Eval(Twice(want), m)) <==> IsFalse(Get(m, 0)) != want || Get(m, 0) == Bool(!want)
    {
      assert Ready(Twice(want), 2, m);
      TwiceFlow(want, m);
      ReturnsOne(code, 2, m, Actual(Twice(want), m, None), Eval(Twice(want), m));
    }
  }

  lemma ConstantlyFlow(want: bool, m: Env, a: Option<CodeVm.Value>)
    ensures Eval(Constantly(want), m) == Bool(!want)
    ensures Actual(Constantly(want), m, a) == if a.Some? then a.value else Bool(!want)
  {
    LeafFacts(0, !want, m, a);
    LogicFlow(want, BoolLiteral(!want), Local(1), m, a);
    hide FlowOf, ShapeOf, Eval, Logical, Stale, StaleAfter, OperandsRight;
  }

  /** `false and y` and `true or y` are guarded just where no jump arrives that brings a value. */
  lemma ConstantlyGuard(want: bool, h: bool)
    ensures Guarded(Constantly(want), h) <==> !h
  {
    LeafMay(0, !want, h);
    LeafMay(1, !want, MayPass(want, BoolLiteral(!want), h));
    LogicMay(want, BoolLiteral(!want), Local(1), h);
    hide ShapeOf, Logical, MayKeep, MayBring, Guarded;
  }

  /** `local z = false and y` and `local z = true or y`: `z` becomes the value that the jump by which control
      arrives brings, if it brings one, and is right exactly when there is none or it is the literal. */
  method LocalConstantly(f: FuncState, want: bool, ghost c: Ctx)
    requires AtStart(f, Constantly(want), c)
    modifies f`code, f`jpc, f`pending, f`here, f`lasttarget, f`freereg
    ensures f.Valid()
    ensures forall en :: EntryOk(c, en) ==>
      var a := Arriving(c.o, en);
      Assigns(c, f.Now(), c.fr, en, if a.Some? then a.value else Bool(!want))
    ensures forall en :: EntryOk(c, en) ==>
      (Assigns(c, f.Now(), c.fr, en, Eval(Constantly(want), en.m)) <==>
       Arriving(c.o, en).None? || Arriving(c.o, en).value == Bool(!want))
  {
    CompileLocal(f, Constantly(want), c);
    hide Assigns, EntryOk, Arriving, Eval, Actual, Guarded, Sour, OperandsRight, Carries, Constantly;
    forall en | EntryOk(c, en)
      ensures var a := Arriving(c.o, en); Assigns(c, f.Now(), c.fr, en, if a.Some? then a.value else Bool(!want))
      ensures Assigns(c, f.Now(), c.fr, en, Eval(Constantly(want), en.m)) <==>
        Arriving(c.o, en).None? || Arriving(c.o, en).value == Bool(!want)
    {
      var a := Arriving(c.o, en);
      ConstantlyFlow(want, en.m, a);
      AssignsOne(c, f.Now(), c.fr, en, Actual(Constantly(want), en.m, a), Eval(Constantly(want), en.m));
    }
  }
}
