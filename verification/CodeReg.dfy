/** Putting an expression with jumps into a register (exp2reg, lcode.c:390-411). */
module CodeReg {
  import opened CodeVm
  import opened CodeLists
  import opened CodeState
  import opened CodeFlow
  import opened CodeExp

  // ----- edits that a run does not notice -----

  lemma {:induction false} ViaPending(c: Code, p: set<int>, pc: nat, m: Env)
    ensures var o := Run(c, p, pc, m); o.Via? ==> o.j in p && 0 <= o.j < |c|
    decreases |c| - pc
  {
    if pc < |c| {
      var i := c[pc];
      if IsTest(i) && pc + 1 < |c| && c[pc + 1].JMP? {
        if !Taken(i, m) {
          ViaPending(c, p, pc + 2, m);
        } else if pc + 1 !in p && c[pc + 1].sBx >= 0 {
          ViaPending(c, p, pc + 2 + c[pc + 1].sBx, Carried(i, m));
        }
      } else if i.JMP? {
        if pc !in p && i.sBx >= 0 { ViaPending(c, p, pc + 1 + i.sBx, m); }
      } else if !i.RETURN? && !IsTest(i) {
        ViaPending(c, p, if i.LOADBOOL? && i.skip then pc + 2 else pc + 1, Loaded(i, m));
      }
    }
  }

  lemma OutcomePending(s: Snap, n0: nat, en: Entry)
    ensures var o := Outcome0(s, n0, en); o.Via? ==> o.j in s.pending
  {
    match en
    case At(m) => ViaPending(s.code, s.pending, n0, m);
    case By(j, m, tested) =>
      if j !in s.pending && JumpAt(s.code, j) && s.code[j].sBx >= 0 {
        var r := if tested && 0 < j then Carried(s.code[j - 1], m) else m;
        ViaPending(s.code, s.pending, j + 1 + s.code[j].sBx, r);
      }
  }

  /** Relinking pending jumps and changing what their tests store does not change a run. */
  lemma OutcomeQuiet(s: Snap, s': Snap, n0: nat, en: Entry)
    requires SnapOk(s) && Compat(s.code, s.pending, s'.code, s.pending) && s'.pending == s.pending
    requires |s'.code| == |s.code| && n0 <= |s.code| && Outcome0(s, n0, en) != Stuck
    ensures Outcome0(s', n0, en) == Outcome0(s, n0, en)
  {
    OutcomeContinues(s, s', n0, en);
    OutcomePending(s, n0, en);
  }

  lemma LinkedCompat(s: Snap, s1: seq<int>, s2: seq<int>)
    requires SnapOk(s) && (forall j :: j in s1 ==> j in s.pending)
    ensures Compat(s.code, s.pending, Linked(s.code, s1, s2), s.pending)
    ensures forall j :: JumpAt(s.code, j) ==> JumpAt(Linked(s.code, s1, s2), j)
    ensures Closed(s.code) ==> Closed(Linked(s.code, s1, s2))
    ensures forall i :: 0 <= i < |s.code| && i !in s1 ==> Linked(s.code, s1, s2)[i] == s.code[i]
    ensures forall i :: 0 <= i < |s.code| && !s.code[i].JMP? ==> Linked(s.code, s1, s2)[i] == s.code[i]
  {
    var c' := Linked(s.code, s1, s2);
    forall i | 0 <= i < |s.code| ensures SameAt(s.code, s.pending, c', i) {
      assert i in s.pending ==> JumpAt(s.code, i);
    }
  }

  /** Relinking leaves the tests alone. */
  lemma LinkedControl(code: Code, s1: seq<int>, s2: seq<int>, j: int)
    requires 0 <= j < |code|
    ensures SameControl(code, Linked(code, s1, s2), j) && |Linked(code, s1, s2)| == |code|
  {}

  lemma LinkedValid(s: Snap, a: seq<int>, b: seq<int>)
    requires SnapOk(s) && forall j :: j in a ==> j in s.pending
    ensures SnapOk(s.(code := Linked(s.code, a, b)))
  {
    LinkedCompat(s, a, b);
  }

  /** What may be edited before the start of an expression: jumps that led there, and what their tests store. */
  ghost predicate EditAt(o: Snap, s: Snap, s': Snap, i: int) {
    && 0 <= i < |o.code| && i < |s.code| && i < |s'.code|
    && (|| s'.code[i] == s.code[i]
        || (i in o.here && s'.code[i].JMP?)
        || (i !in o.here && i + 1 in o.here && IsTest(o.code[i]) && Norm(s'.code[i]) == Norm(s.code[i])))
    && (i !in o.here ==> (i in s'.pending <==> i in s.pending))
  }

  lemma KeptEdit(o: Snap, s: Snap, s': Snap)
    requires Kept(o, s) && |s'.code| == |s.code|
    requires forall i :: 0 <= i < |o.code| ==> EditAt(o, s, s', i)
    requires forall j :: j in s'.here ==> |o.code| <= j || j in o.here
    ensures Kept(o, s')
  {
    forall i | 0 <= i < |o.code| ensures KeptAt(o, s', i) { assert KeptAt(o, s, i) && EditAt(o, s, s', i); }
  }

  lemma KeptLinked(o: Snap, s: Snap, a: seq<int>, b: seq<int>, here: seq<int>)
    requires SnapOk(o) && SnapOk(s) && Kept(o, s)
    requires forall j :: j in a ==> j in s.pending && (|o.code| <= j || j in o.here)
    requires forall j :: j in here ==> |o.code| <= j || j in o.here
    ensures Kept(o, Snap(Linked(s.code, a, b), s.pending, here))
  {
    LinkedCompat(s, a, b);
    var s' := Snap(Linked(s.code, a, b), s.pending, here);
    forall i | 0 <= i < |o.code| ensures EditAt(o, s, s', i) {
      assert i in a ==> JumpAt(s.code, i) && JumpAt(s'.code, i);
    }
    KeptEdit(o, s, s');
  }

  // ----- relinking the lists of an expression -----

  lemma StartLinked(s: Snap, e: Exp, a: seq<int>, b: seq<int>, e': Exp)
    requires SnapOk(Start(s, e)) && e'.k == e.k && forall j :: j in a ==> j in Start(s, e).pending
    requires e.k == VRELOCABLE ==> |s.code| >= 1
    requires e.k == VJMP ==> |s.code| >= 2
    ensures Start(s.(code := Linked(s.code, a, b)), e') == Start(s, e).(code := Linked(Start(s, e).code, a, b))
  {
    if a != [] && b != [] {
      var last := a[|a| - 1];
      assert last in a;
      assert JumpAt(Start(s, e).code, last);
    }
  }

  /** What relinking needs to know of a state. */
  ghost predicate Linkable(c: Ctx, s: Snap, d: Desc, a: seq<int>) {
    && SnapOk(s) && SnapOk(Start(s, d.e)) && |c.o.code| <= |Start(s, d.e).code| <= |s.code|
    && (forall j :: j in a ==> j in Start(s, d.e).pending && j in s.pending)
    && (forall j :: j in d.ts || j in d.fs || j in s.here ==> j in s.pending)
    && (d.e.k == VRELOCABLE ==> 0 <= d.e.info == |s.code| - 1 && !s.code[d.e.info].JMP?)
    && (d.e.k == VJMP ==> 1 <= d.e.info == |s.code| - 1 && !s.code[d.e.info - 1].JMP?)
  }

  /** Relinking own jumps keeps the meaning. */
  lemma LinkMeans(c: Ctx, s: Snap, d: Desc, a: seq<int>, b: seq<int>, t: int, f: int, x: int, en: Entry)
    requires Linkable(c, s, d, a) && MeansIn(c, s, d, x, en)
    ensures MeansIn(c, s.(code := Linked(s.code, a, b)), Desc(Exp(d.e.k, d.e.info, t, f), d.ts, d.fs), x, en)
  {
    if EntryOk(c, en) {
      var s', d' := s.(code := Linked(s.code, a, b)), Desc(Exp(d.e.k, d.e.info, t, f), d.ts, d.fs);
      var st, st' := Start(s, d.e), Start(s', d'.e);
      StartLinked(s, d.e, a, b, d'.e);
      LinkedCompat(st, a, b);
      LinkedCompat(s, a, b);
      var o, fl := Outcome0(st, |c.o.code|, en), FlowIn(c.job, en.m, Arriving(c.o, en));
      GoodCases(o, s, d, c.fr, x, en.m, fl);
      hide Compat, Good;
      OutcomeQuiet(st, st', |c.o.code|, en);
      if o.Via? {
        assert JumpAt(s.code, o.j);
        LinkedControl(s.code, a, b, o.j);
      }
      hide Linked;
      GoodRelinked(o, s, d, s', d', c.fr, x, en.m, fl);
    }
  }

  lemma GoodRelinked(o: Outcome, s: Snap, d: Desc, s': Snap, d': Desc, fr: int, x: int, m: Env, fl: Flow)
    requires Good(o, s, d, fr, x, m, fl) && d' == Desc(Exp(d.e.k, d.e.info, d'.e.t, d'.e.f), d.ts, d.fs)
    requires (o.Via? ==> SameControl(s.code, s'.code, o.j)) && s'.here == s.here && |s'.code| == |s.code|
    requires d.e.k == VRELOCABLE ==> 0 <= d.e.info < |s.code| && s'.code[d.e.info] == s.code[d.e.info]
    requires d.e.k == VJMP ==> 1 <= d.e.info < |s.code| && s'.code[d.e.info - 1] == s.code[d.e.info - 1]
    ensures Good(o, s', d', fr, x, m, fl)
  {
    if o.Via? { SameBrought(s.code, s'.code, o.j); }
    hide HasValue, Brought, Controlled, Agree;
  }

  // ----- more jumps join a list -----

  /** `js` joins the false list (`want`) or the true list. */
  function With(d: Desc, want: bool, js: seq<int>): Desc {
    if want then d.(fs := d.fs + js) else d.(ts := d.ts + js)
  }

  function ListFor(d: Desc, want: bool): seq<int> { if want then d.fs else d.ts }

  /** A state with new pending jumps `js` that are on no list of the expression yet. */
  ghost predicate NewList(c: Ctx, s: Snap, d: Desc, js: seq<int>) {
    && Begun(c, s) && Kept(c.o, s) && KindOk(c, s, d.e, c.fr) && ListsOk(c.o, s, d) && Known(d.e)
    && Disjoint(js, s.here) && Disjoint(js, d.ts) && Disjoint(js, d.fs)
    && (forall j :: j in js ==> j in s.pending && (|c.o.code| <= j || j in c.o.here))
  }

  /** They have been appended: `d'` has the new heads. */
  ghost predicate Appended(s: Snap, d: Desc, want: bool, js: seq<int>, s': Snap, d': Desc) {
    && s' == s.(code := Linked(s.code, ListFor(d, want), js))
    && d' == With(d, want, js).(e := Exp(d.e.k, d.e.info, d'.e.t, d'.e.f))
    && (if want then d'.e.t == d.e.t else d'.e.f == d.e.f)
    && IsList(s'.code, if want then d'.e.f else d'.e.t, ListFor(d, want) + js)
  }

  lemma AppendedLists(c: Ctx, s: Snap, d: Desc, want: bool, js: seq<int>, s': Snap, d': Desc)
    requires NewList(c, s, d, js) && Appended(s, d, want, js, s', d')
    ensures Begun(c, s') && Kept(c.o, s') && ListsOk(c.o, s', d')
  {
    var a := ListFor(d, want);
    LinkedCompat(s, a, js);
    KeptLinked(c.o, s, a, js, s.here);
    var b, l := ListFor(d, !want), if want then d.e.t else d.e.f;
    ListMembers(s.code, l, b);
    ListFrame(s.code, s'.code, l, b);
    hide Kept, Linked, Compat, IsList;
    ExtendedLists(c.o, s, d, want, js, s', d');
  }

  lemma ExtendedLists(o: Snap, s: Snap, d: Desc, want: bool, js: seq<int>, s': Snap, d': Desc)
    requires ListsOk(o, s, d) && s'.here == s.here && s'.pending == s.pending && Known(d.e)
    requires d' == With(d, want, js).(e := Exp(d.e.k, d.e.info, d'.e.t, d'.e.f))
    requires IsList(s'.code, d'.e.t, d'.ts) && IsList(s'.code, d'.e.f, d'.fs)
    requires Disjoint(js, s.here) && Disjoint(js, d.ts) && Disjoint(js, d.fs)
    requires forall j :: j in js ==> j in s.pending && (|o.code| <= j || j in o.here)
    ensures ListsOk(o, s', d')
  {
    hide IsList;
  }

  lemma AppendedHolds(c: Ctx, s: Snap, d: Desc, want: bool, js: seq<int>, s': Snap, d': Desc)
    requires NewList(c, s, d, js) && Appended(s, d, want, js, s', d')
    requires Means(c, s, With(d, want, js), NO_REG)
    ensures Holds(c, s', d', c.fr, NO_REG)
  {
    var d1 := With(d, want, js);
    AppendedLists(c, s, d, want, js, s', d');
    assert Linkable(c, s, d1, ListFor(d, want)) by { NewLinkable(c, s, d, want, js); }
    KnownKind(c, s, d.e, s', d'.e);
    hide NewList, Linkable, ListsOk, Kept, KindOk, Linked;
    forall en ensures MeansIn(c, s', d', NO_REG, en) {
      assert MeansIn(c, s, d1, NO_REG, en);
      LinkMeans(c, s, d1, ListFor(d, want), js, d'.e.t, d'.e.f, NO_REG, en);
    }
  }

  lemma KnownKind(c: Ctx, s: Snap, e: Exp, s': Snap, e': Exp)
    requires KindOk(c, s, e, c.fr) && Known(e) && e'.k == e.k && s'.here == s.here
    ensures KindOk(c, s', e', c.fr)
  {}

  lemma NewLinkable(c: Ctx, s: Snap, d: Desc, want: bool, js: seq<int>)
    requires NewList(c, s, d, js)
    ensures Linkable(c, s, With(d, want, js), ListFor(d, want))
  {
    hide IsList, Kept;
    assert |c.o.code| <= |s.code| by { KeptSize(c.o, s); }
  }

  lemma KeptSize(o: Snap, s: Snap)
    requires Kept(o, s)
    ensures |o.code| <= |s.code|
  {}
}
