/** Compiling one operand after another: what the code of both together means. */
module CodeSeq {
  import opened CodeVm
  import opened CodeLists
  import opened CodeState
  import opened CodeFlow
  import opened CodeExp
  import opened CodeReg
  import opened CodeSettle
  import opened CodeToReg
  import opened CodePut
  import opened CodeCond

  /** A part of an expression that has been compiled. */
  datatype Part = Part(c: Ctx, s: Snap, d: Desc, free: int)

  ghost predicate Done(p: Part) { Holds(p.c, p.s, p.d, p.free, NO_REG) }

  /** The second operand was compiled from where the first one ended. */
  ghost predicate Follows(p: Part, q: Part) {
    && Done(p) && (Known(p.d.e) || IsLit(p.d.e) || p.d.e.k == VNONRELOC)
    && Done(q) && q.c.o == p.s && q.c.nact == p.c.nact && p.c.fr <= q.c.fr
  }

  ghost predicate EntryFor(p: Part, q: Part, en: Entry) {
    EntryOk(p.c, en) && (p.c.o.code == [] && HasNil(q.c.job.e) ==> Fresh(en.m, p.c.fr))
  }

  /** The entry to the second operand, where a run of the first one ended. */
  function NextEntry(o: Outcome): Entry
    requires o.Fall? || o.Via?
  {
    if o.Fall? then At(o.m) else By(o.j, o.m, o.tested)
  }

  lemma EmptyOutcome(s: Snap, en: Entry)
    requires s.code == []
    ensures en.At? ==> Outcome0(s, 0, en) == Fall(en.m)
  {}

  lemma NextEntryOk(p: Part, q: Part, en: Entry, fl: Flow)
    requires Follows(p, q) && EntryFor(p, q, en)
    requires Stays(Outcome0(p.s, |p.c.o.code|, en), p.s, p.d.e, p.c.fr, NO_REG, en.m, fl)
    ensures var en' := NextEntry(Outcome0(p.s, |p.c.o.code|, en));
      EntryOk(q.c, en') && Arriving(p.s, en') == fl.carry
  {
    var o := Outcome0(p.s, |p.c.o.code|, en);
    HeldKept(p.c, p.s, p.d, p.free, NO_REG);
    KeptSize(p.c.o, p.s);
    hide Holds, Kept, Run, Continue, Lists, ListsOk;
    if p.s.code == [] {
      assert en.At?;
      assert o == Fall(en.m) by { EmptyOutcome(p.s, en); }
    }
  }

  lemma Then(p: Part, q: Part, en: Entry) returns (r: Env)
    requires Follows(p, q) && EntryFor(p, q, en)
    ensures var o, fl := Outcome0(Start(q.s, q.d.e), |p.c.o.code|, en), FlowIn(p.c.job, en.m, Arriving(p.c.o, en));
      || Exits(o, q.s, p.d, p.c.fr, en.m, fl)
      || (&& fl.Falls? && Agree(en.m, r, p.c.fr, NO_REG) && Remaining(p.s.code, p.d.e, r, fl.val)
          && Good(o, q.s, q.d, q.c.fr, NO_REG, r, FlowIn(q.c.job, r, fl.carry)))
  {
    var st, n0, fl := Start(q.s, q.d.e), |p.c.o.code|, FlowIn(p.c.job, en.m, Arriving(p.c.o, en));
    var o1, o := Outcome0(p.s, n0, en), Outcome0(st, n0, en);
    r := en.m;
    HeldKept(p.c, p.s, p.d, p.free, NO_REG);
    KeptSize(p.c.o, p.s);
    StartOutcome(p.c, p.s, p.d, p.free, NO_REG, en);
    GoodCases(o1, p.s, p.d, p.c.fr, NO_REG, en.m, fl);
    StartKept(q.c, q.s, q.d, q.free, NO_REG);
    KeptCompat(p.s, st);
    OwnKept(p, st);
    hide Holds, Good, Compat, FlowIn, Kept, Start, ListsOk, SnapOk, Exit, SameControls, Outcome0, Agree;
    OutcomeContinues(p.s, st, n0, en);
    if Exits(o1, p.s, p.d, p.c.fr, en.m, fl) {
      ExitsKept(o1, p.s, p.d, st, p.d, p.c.fr, en.m, fl);
      assert o == o1;
      ExitsStart(o, q.s, q.d.e, p.d, p.c.fr, en.m, fl);
    } else {
      r := o1.m;
      NextEntryOk(p, q, en, fl);
      var en' := NextEntry(o1);
      assert o == Outcome0(st, |p.s.code|, en') by { EntryContinues(st, |p.s.code|, o1); }
      StartOutcome(q.c, q.s, q.d, q.free, NO_REG, en');
    }
  }

  lemma EntryContinues(s: Snap, n: nat, o: Outcome)
    requires o.Fall? || o.Via?
    ensures Outcome0(s, n, NextEntry(o)) == Continue(s.code, s.pending, n, o)
  {}

  /** The lists of the first part are still there. */
  lemma OwnKept(p: Part, s: Snap)
    requires Done(p) && Kept(p.s, s)
    ensures SameControls(p.s.code, s.code, p.d.ts) && SameControls(p.s.code, s.code, p.d.fs)
    ensures IsList(s.code, p.d.e.t, p.d.ts) && IsList(s.code, p.d.e.f, p.d.fs)
    ensures forall j :: j in p.d.ts || j in p.d.fs ==> j in s.pending
  {
    HeldKept(p.c, p.s, p.d, p.free, NO_REG);
    hide Holds;
    ListKept(p.s, s, p.d.e.t, p.d.ts);
    ListKept(p.s, s, p.d.e.f, p.d.fs);
  }

  // ----- and, or -----

  /** A branch on `x` and after it `y`; `js` leads away where `x` decides. */
  ghost predicate Logic(p: Part, want: bool, js: seq<int>, q: Part) {
    && Follows(p, q) && p.c.job.Branch? && p.c.job.want == want && p.d.e.k == Passed
    && p.d.ts == (if want then [] else js) && p.d.fs == (if want then js else [])
    && q.c.job.Value? && q.c.fr == p.c.fr && Scoped(q.c.job.e, p.c.nact) && p.c.nact <= p.c.fr
  }

  function LogicCtx(p: Part, want: bool, q: Part): Ctx
    requires p.c.job.Branch?
  {
    p.c.(job := Value(Logical(want, p.c.job.e, q.c.job.e)))
  }

  lemma LogicFlowIn(p: Part, want: bool, js: seq<int>, q: Part, m: Env, r: Env, a: Option<CodeVm.Value>)
    requires Logic(p, want, js, q) && Agree(m, r, p.c.fr, NO_REG)
    ensures var fl, fl' := FlowIn(p.c.job, m, a), FlowIn(LogicCtx(p, want, q).job, m, a);
      if fl.Leaves? then fl' == fl && fl.truth == !want else fl' == FlowIn(q.c.job, r, fl.carry)
  {
    LogicFlow(want, p.c.job.e, q.c.job.e, m, a);
    var fl := FlowIn(p.c.job, m, a);
    if fl.Falls? { FlowAgrees(q.c.job.e, m, r, fl.carry, p.c.fr, p.c.nact); }
    hide FlowOf, Eval, OperandsRight, ShapeOf, Stale, StaleAfter, Scoped;
  }

  lemma LogicMeans(p: Part, want: bool, js: seq<int>, q: Part, en: Entry)
    requires Logic(p, want, js, q)
    ensures MeansIn(LogicCtx(p, want, q), q.s, With(q.d, want, js), NO_REG, en)
  {
    hide Holds, Good, Exits, FlowIn, Fresh, Arriving, Outcome0, Agree, HasNil;
    var c := LogicCtx(p, want, q);
    assert HasNil(c.job.e) == (HasNil(p.c.job.e) || HasNil(q.c.job.e)) by { LogicNil(want, p.c.job.e, q.c.job.e); }
    if EntryOk(c, en) {
      var r := Then(p, q, en);
      var a := Arriving(p.c.o, en);
      var o, fl := Outcome0(Start(q.s, q.d.e), |p.c.o.code|, en), FlowIn(p.c.job, en.m, a);
      var d' := With(q.d, want, js);
      if Exits(o, q.s, p.d, p.c.fr, en.m, fl) {
        ExitLeaves(o, q.s, p.d, p.c.fr, en.m, fl);
        AgreeRefl(en.m, p.c.fr);
        LogicFlowIn(p, want, js, q, en.m, en.m, a);
        GoodExit(o, q.s, p.d, d', p.c.fr, NO_REG, en.m, fl);
      } else {
        LogicFlowIn(p, want, js, q, en.m, r, a);
        GoodFrom(o, q.s, q.d, d', p.c.fr, en.m, r, FlowIn(q.c.job, r, fl.carry));
      }
      hide Start;
      StartWith(q.s, q.d, want, js);
    }
  }

  lemma LogicNil(want: bool, a: Expr, b: Expr)
    ensures HasNil(Logical(want, a, b)) == (HasNil(a) || HasNil(b))
  {}

  lemma AgreeRefl(m: Env, fr: int)
    ensures Agree(m, m, fr, NO_REG)
  {}

  lemma StartWith(s: Snap, d: Desc, want: bool, js: seq<int>)
    ensures Start(s, With(d, want, js).e) == Start(s, d.e)
  {}

  lemma GoodFrom(o: Outcome, s: Snap, d: Desc, d': Desc, fr: int, m: Env, r: Env, fl: Flow)
    requires Good(o, s, d, fr, NO_REG, r, fl) && Agree(m, r, fr, NO_REG) && d'.e == d.e
    requires (forall j :: j in d.ts ==> j in d'.ts) && (forall j :: j in d.fs ==> j in d'.fs)
    ensures Good(o, s, d', fr, NO_REG, m, fl)
  {
    hide Brought, Controlled, Remaining;
  }

  /** The lists of the two operands, side by side. */
  lemma BothLists(p: Part, want: bool, js: seq<int>, q: Part)
    requires Logic(p, want, js, q)
    ensures SnapOk(p.c.o) && Closed(p.c.o.code) && SnapOk(q.s) && Closed(q.s.code) && Kept(p.c.o, q.s)
    ensures ListsOk(p.s, q.s, q.d) && ListsOk(p.c.o, q.s, q.d)
    ensures IsList(q.s.code, if want then p.d.e.f else p.d.e.t, js) && Disjoint(js, q.s.here)
    ensures Disjoint(q.d.ts, js) && Disjoint(q.d.fs, js)
    ensures forall j :: j in js ==> j in q.s.pending && (|p.c.o.code| <= j || j in p.c.o.here) && j < |p.s.code|
  {
    HeldKept(p.c, p.s, p.d, p.free, NO_REG);
    HeldKept(q.c, q.s, q.d, q.free, NO_REG);
    KeptTrans(p.c.o, p.s, q.s);
    OwnKept(p, q.s);
    FirstApart(p.c.o, p.s, want, p.d, js);
    LaterLists(p.c.o, p.s, q.s, q.d, js);
    hide Holds, Kept, IsList;
  }

  lemma FirstApart(o: Snap, s: Snap, want: bool, d: Desc, js: seq<int>)
    requires ListsOk(o, s, d) && SnapOk(s) && js == if want then d.fs else d.ts
    ensures Disjoint(js, s.here)
    ensures forall j :: j in js ==> j in s.pending && (|o.code| <= j || j in o.here) && j < |s.code|
  {
    hide IsList;
    forall j | j in js ensures j in s.pending && (|o.code| <= j || j in o.here) && j < |s.code| {
      assert j in s.pending ==> JumpAt(s.code, j);
    }
  }

  lemma LaterLists(o: Snap, s: Snap, s': Snap, d: Desc, js: seq<int>)
    requires ListsOk(s, s', d) && Kept(o, s) && Kept(s, s') && Disjoint(js, s.here)
    requires forall j :: j in js ==> j < |s.code|
    ensures ListsOk(o, s', d) && Disjoint(js, s'.here) && Disjoint(d.ts, js) && Disjoint(d.fs, js)
  {
    hide IsList, KeptAt;
  }

  lemma LogicLists(p: Part, want: bool, js: seq<int>, q: Part, s: Snap, d: Desc)
    requires Logic(p, want, js, q) && Appended(q.s, q.d, want, js, s, d)
    ensures var c := LogicCtx(p, want, q);
      Begun(c, s) && Kept(c.o, s) && KindOk(c, s, d.e, q.free) && ListsOk(c.o, s, d)
  {
    BothLists(p, want, js, q);
    var a := ListFor(q.d, want);
    var b, l := ListFor(q.d, !want), if want then q.d.e.t else q.d.e.f;
    LogicKind(p, want, js, q, s, d);
    assert ListsOk(p.c.o, q.s, q.d);
    hide Logic, Closed;
    LinkedCompat(q.s, a, js);
    LinkedValid(q.s, a, js);
    hide Linked, Compat, KindOk;
    OwnApart(p.c.o, q.s, q.d, want);
    KeepsList(q.s, a, js, l, b);
    KeptLinked(p.c.o, q.s, a, js, q.s.here);
    hide SnapOk, Kept, IsList;
    LogicListsOk(p.c.o, q.s, q.d, want, js, s, d);
  }

  lemma OwnApart(o: Snap, s: Snap, d: Desc, want: bool)
    requires ListsOk(o, s, d) && Kept(o, s)
    ensures var a, b, l := ListFor(d, want), ListFor(d, !want), if want then d.e.t else d.e.f;
      && IsList(s.code, l, b) && (Disjoint(a, b) || Disjoint(b, a))
      && (forall j :: j in a ==> j in s.pending && (|o.code| <= j || j in o.here))
      && (forall j :: j in s.here ==> |o.code| <= j || j in o.here)
  {
    hide IsList, KeptAt;
  }

  lemma LogicListsOk(o: Snap, s2: Snap, d2: Desc, want: bool, js: seq<int>, s: Snap, d: Desc)
    requires ListsOk(o, s2, d2) && Appended(s2, d2, want, js, s, d)
    requires IsList(s.code, if want then d.e.t else d.e.f, ListFor(d, !want))
    requires Disjoint(js, s2.here) && Disjoint(d2.ts, js) && Disjoint(d2.fs, js)
    requires forall j :: j in js ==>
      j in s2.pending && (|o.code| <= j || j in o.here) && (d2.e.k == VJMP ==> j != d2.e.info)
    ensures ListsOk(o, s, d)
  {
    hide IsList, Linked;
  }

  lemma LogicKind(p: Part, want: bool, js: seq<int>, q: Part, s: Snap, d: Desc)
    requires Logic(p, want, js, q) && Appended(q.s, q.d, want, js, s, d)
    ensures KindOk(LogicCtx(p, want, q), s, d.e, q.free) && p.c.nact <= p.c.fr
    ensures d.e.k == VJMP ==> forall j :: j in js ==> j != d.e.info
  {
    BothLists(p, want, js, q);
    HeldKept(p.c, p.s, p.d, p.free, NO_REG);
    KeptSize(p.c.o, p.s);
    LogicNil(want, p.c.job.e, q.c.job.e);
    assert KindOk(q.c, q.s, q.d.e, q.free);
    hide Kept, Means, Closed, Holds, HasNil, KindOk;
    LinkedKind(q.c, LogicCtx(p, want, q), q.s, q.d, want, js, s, d, q.free);
    if q.d.e.k == VJMP { JumpInfo(q.c, q.s, q.d.e, q.free); }
  }

  lemma JumpInfo(c: Ctx, s: Snap, e: Exp, free: int)
    requires KindOk(c, s, e, free) && e.k == VJMP
    ensures |c.o.code| < e.info
  {}

  /** Relinking lists does not touch what the descriptor has in its hands. */
  lemma LinkedKind(c: Ctx, c': Ctx, s: Snap, d: Desc, want: bool, js: seq<int>, s': Snap, d': Desc, free: int)
    requires KindOk(c, s, d.e, free) && SnapOk(s) && ListsOk(c.o, s, d) && Appended(s, d, want, js, s', d')
    requires c'.fr == c.fr && c'.nact == c.nact && |c'.o.code| <= |c.o.code| && (HasNil(c.job.e) ==> HasNil(c'.job.e))
    ensures KindOk(c', s', d'.e, free)
  {
    var a := ListFor(d, want);
    LinkedCompat(s, a, js);
    assert d.e.k == VJMP ==> d.e.info !in a by { hide IsList; }
    hide ListsOk, Linked, Compat, IsList, HasNil, NoCarry;
    if d.e.k == VNONRELOC && free == c.fr + 1 && NoCarry(s) {
      LinkedNoCarry(s, a, js);
    }
    hide SnapOk;
  }

  lemma LinkedNoCarry(s: Snap, a: seq<int>, b: seq<int>)
    requires NoCarry(s) && SnapOk(s)
    ensures NoCarry(s.(code := Linked(s.code, a, b)))
  {
    forall j | j in s.here ensures !HasValue(Linked(s.code, a, b), j) { assert JumpAt(s.code, j); }
  }

  /** luaK_posfix for `and` (want) and `or` (not want): the descriptor stands for the whole expression. */
  lemma LogicHolds(p: Part, want: bool, js: seq<int>, q: Part, s: Snap, d: Desc)
    requires Logic(p, want, js, q) && Appended(q.s, q.d, want, js, s, d)
    ensures Holds(LogicCtx(p, want, q), s, d, q.free, NO_REG)
  {
    var c, d1, a := LogicCtx(p, want, q), With(q.d, want, js), ListFor(q.d, want);
    LogicLists(p, want, js, q, s, d);
    assert Linkable(c, q.s, d1, a) by { LogicLinkable(p, want, js, q); }
    hide Linkable, ListsOk, Kept, KindOk, Linked, Logic, MeansIn, Means, Begun, IsList;
    forall en ensures MeansIn(c, s, d, NO_REG, en) {
      LogicMeans(p, want, js, q, en);
      LinkMeans(c, q.s, d1, a, js, d.e.t, d.e.f, NO_REG, en);
    }
    MeansAll(c, s, d, NO_REG);
    HoldsParts(c, s, d, q.free, NO_REG);
  }

  lemma LogicLinkable(p: Part, want: bool, js: seq<int>, q: Part)
    requires Logic(p, want, js, q)
    ensures Linkable(LogicCtx(p, want, q), q.s, With(q.d, want, js), ListFor(q.d, want))
  {
    BothLists(p, want, js, q);
    HeldKept(p.c, p.s, p.d, p.free, NO_REG);
    KeptSize(p.c.o, p.s);
    StartOk(q.c, q.s, q.d, q.free, NO_REG);
    StartShape(q.c, q.s, q.d, q.free, NO_REG);
    assert KindOk(q.c, q.s, q.d.e, q.free);
    hide Kept, Means, IsList, Start, SameControls, Landed, Closed;
  }
}
