/** All jumps of an expression get their targets: the second half of exp2reg (lcode.c:394-410). */
module CodeSettle {
  import opened CodeVm
  import opened CodeLists
  import opened CodeState
  import opened CodeFlow
  import opened CodeExp
  import opened CodeReg

  // ----- patching both lists -----

  /** The targets: `v` for jumps that bring a value, `pf` and `pt` for the other jumps of the two lists. */
  datatype Targets = Targets(v: int, reg: int, pf: int, pt: int)

  function PatchBoth(code: Code, d: Desc, g: Targets): Code {
    Patched(Patched(code, d.fs, g.v, g.reg, g.pf), d.ts, g.v, g.reg, g.pt)
  }

  /** The jump at `j` of `c` leads, in `c'`, to `v` with its value in `reg`, or to `t` if it brings none. */
  ghost predicate PatchedJump(c: Code, c': Code, j: int, v: int, reg: int, t: int) {
    && 0 <= j < |c| && |c| <= |c'| && c'[j] == JMP((if HasValue(c, j) then v else t) - (j + 1))
    && (j > 0 ==> if c[j - 1].TESTSET? then c'[j - 1] == SetReg(c[j - 1], reg) else !c'[j - 1].TESTSET?)
  }

  ghost predicate PatchedOther(c: Code, c': Code, d: Desc, i: int) {
    && 0 <= i < |c| && |c| <= |c'|
    && if (i + 1 in d.ts || i + 1 in d.fs) && IsTest(c[i]) then Norm(c'[i]) == Norm(c[i]) else c'[i] == c[i]
  }

  /** What patching makes of `c` with `tail` after it. */
  ghost predicate BothPatched(c: Code, tail: Code, d: Desc, g: Targets, c': Code) {
    && |c'| == |c| + |tail| && (forall k :: 0 <= k < |tail| ==> c'[|c| + k] == tail[k])
    && (forall j :: j in d.fs ==> PatchedJump(c, c', j, g.v, g.reg, g.pf))
    && (forall j :: j in d.ts ==> PatchedJump(c, c', j, g.v, g.reg, g.pt))
    && (forall i :: 0 <= i < |c| && i !in d.ts && i !in d.fs ==> PatchedOther(c, c', d, i))
  }

  lemma PatchBothJumps(c: Code, tail: Code, d: Desc, g: Targets)
    requires Disjoint(d.ts, d.fs) && forall j :: j in d.ts || j in d.fs ==> JumpAt(c, j)
    ensures BothPatched(c, tail, d, g, PatchBoth(c + tail, d, g))
  {
    var c0 := c + tail;
    var c1 := Patched(c0, d.fs, g.v, g.reg, g.pf);
    var c' := Patched(c1, d.ts, g.v, g.reg, g.pt);
    forall i | 0 <= i < |c0|
      ensures c1[i] == PatchAt(c0, d.fs, g.v, g.reg, g.pf, i) && c'[i] == PatchAt(c1, d.ts, g.v, g.reg, g.pt, i) {}
    hide Patched;
    forall j | j in d.fs ensures PatchedJump(c, c', j, g.v, g.reg, g.pf) {
      assert JumpAt(c, j);
      assert j > 0 ==> c1[j - 1] == PatchAt(c0, d.fs, g.v, g.reg, g.pf, j - 1);
      assert j > 0 ==> c'[j - 1] == PatchAt(c1, d.ts, g.v, g.reg, g.pt, j - 1);
    }
    forall j | j in d.ts ensures PatchedJump(c, c', j, g.v, g.reg, g.pt) {
      assert JumpAt(c, j);
      assert j > 0 ==> c1[j - 1] == PatchAt(c0, d.fs, g.v, g.reg, g.pf, j - 1);
      assert j > 0 ==> c'[j - 1] == PatchAt(c1, d.ts, g.v, g.reg, g.pt, j - 1);
    }
    forall i | 0 <= i < |c| && i !in d.ts && i !in d.fs ensures PatchedOther(c, c', d, i) {
      assert i + 1 in d.fs || i + 1 in d.ts ==> JumpAt(c, i + 1);
    }
    forall k | 0 <= k < |tail| ensures c'[|c| + k] == tail[k] {
      assert c0[|c| + k] == tail[k];
      assert |c| + k !in d.ts && |c| + k !in d.fs && |c| + k + 1 !in d.ts && |c| + k + 1 !in d.fs;
    }
  }

  // ----- arriving in the register -----

  /** The value has been put into register `reg`. */
  ghost predicate Arrived(o: Outcome, s: Snap, fr: int, reg: int, m: Env, val: CodeVm.Value) {
    && (o.Fall? || (o.Via? && o.j in s.here && 0 <= o.j < |s.code| && o.tested == Controlled(s.code, o.j)))
    && Agree(m, o.m, fr, reg) && Get(o.m, reg) == val
  }

  /** A jump of one of the lists, once patched, arrives with what it brings. */
  lemma JumpArrives(c: Code, s': Snap, o: Outcome, t: int, reg: int, truth: bool, fr: int, m: Env, fl: Flow)
    requires o.Via? && PatchedJump(c, s'.code, o.j, |s'.code|, reg, t) && o.j !in s'.pending && reg >= 0
    requires Exit(c, o.j, o.m, o.tested, fl, truth) && Agree(m, o.m, fr, NO_REG) && c[o.j].JMP?
    requires !HasValue(c, o.j) ==> t > o.j && Run(s'.code, s'.pending, t, o.m) == Fall(Put(o.m, reg, Bool(truth)))
    ensures Arrived(Continue(s'.code, s'.pending, |c|, o), s', fr, reg, m, Ans(fl))
  {
    var c', j, r := s'.code, o.j, o.m;
    var r' := if o.tested && 0 < j then Carried(c'[j - 1], r) else r;
    if HasValue(c, j) {
      assert Run(c', s'.pending, |c'|, r') == Fall(r');
    }
  }

  ghost predicate NeedsLoad(code: Code, d: Desc) {
    (exists j :: j in d.ts && !HasValue(code, j)) || (exists j :: j in d.fs && !HasValue(code, j))
  }

  function Loads(reg: int): Code { [LOADBOOL(reg, false, true), LOADBOOL(reg, true, false)] }

  /** The state before patching: the loads are there if some jump needs them. */
  ghost predicate Prepared(s: Snap, d: Desc, reg: int, s1: Snap, pf: int, pt: int) {
    var n := |s.code|;
    if !NeedsLoad(s.code, d) then s1 == s && pf == NO_JUMP && pt == NO_JUMP
    else if d.e.k == VNONRELOC then
      s1 == Snap(Jumped(s).code + Loads(reg), s.pending + {n}, [n] + s.here) && pf == n + 1 && pt == n + 2
    else
      s1 == s.(code := s.code + Loads(reg)) && pf == n && pt == n + 1
  }

  /** The state after patching. */
  ghost predicate Settled(s: Snap, d: Desc, reg: int, s1: Snap, pf: int, pt: int, s': Snap) {
    && Prepared(s, d, reg, s1, pf, pt)
    && s' == Snap(PatchBoth(s1.code, d, Targets(|s1.code|, reg, pf, pt)),
                  s1.pending - Elements(d.ts) - Elements(d.fs), s1.here)
  }

  /** The lists are what exp2reg expects. */
  ghost predicate Lists(s: Snap, d: Desc) {
    && SnapOk(s) && Disjoint(d.ts, d.fs) && Disjoint(d.ts, s.here) && Disjoint(d.fs, s.here)
    && forall j :: j in d.ts || j in d.fs ==> j in s.pending
  }

  /** A register that holds the value, or the jump of a comparison that is on the true list. */
  ghost predicate Ready(s: Snap, d: Desc, reg: int) {
    && Lists(s, d) && Closed(s.code) && reg >= 0 && (d.ts != [] || d.fs != [])
    && ((d.e.k == VNONRELOC && d.e.info == reg) || (d.e.k == KnownFalse && s.here == [] && NeedsLoad(s.code, d)))
  }

  function TailOf(s: Snap, s1: Snap): Code
    requires |s.code| <= |s1.code|
  {
    s1.code[|s.code|..]
  }

  lemma PreparedTail(s: Snap, d: Desc, reg: int, s1: Snap, pf: int, pt: int)
    requires Ready(s, d, reg) && Prepared(s, d, reg, s1, pf, pt)
    ensures |s.code| <= |s1.code| && s1.code == s.code + TailOf(s, s1)
    ensures forall i :: 0 <= i < |s.code| ==> (i in s1.pending <==> i in s.pending)
    ensures forall j :: j in s1.pending ==> j in s.pending || (j == |s.code| && |TailOf(s, s1)| == 3)
    ensures NeedsLoad(s.code, d) <==> TailOf(s, s1) != []
    ensures TailOf(s, s1) != [] ==> TailOf(s, s1)[|TailOf(s, s1)| - 2..] == Loads(reg) && |TailOf(s, s1)| >= 2
    ensures |TailOf(s, s1)| == 3 ==> TailOf(s, s1)[0].JMP? && |s.code| in s1.pending
    ensures TailOf(s, s1) != [] ==> |TailOf(s, s1)| == if d.e.k == VNONRELOC then 3 else 2
    ensures TailOf(s, s1) != [] ==> pf == |s1.code| - 2 && pt == |s1.code| - 1
    ensures forall j :: j in s.here ==> j in s1.here
    ensures forall j :: j in s1.here ==> j in s.here || (j == |s.code| && |TailOf(s, s1)| == 3)
  {
    hide NeedsLoad;
    assert |s.code| !in s.pending by { assert |s.code| in s.pending ==> JumpAt(s.code, |s.code|); }
  }

  lemma LoadsRun(s: Snap, p: nat, reg: int)
    requires |s.code| == p + 2 && s.code[p] == Loads(reg)[0] && s.code[p + 1] == Loads(reg)[1]
    ensures forall r :: Run(s.code, s.pending, p, r) == Fall(Put(r, reg, False))
    ensures forall r :: Run(s.code, s.pending, p + 1, r) == Fall(Put(r, reg, True))
  {}

  /** What the end of the new code does, from the end of the old code and from the two loads. */
  ghost predicate TailRuns(s: Snap, d: Desc, reg: int, s': Snap, pf: int, pt: int, r: Env) {
    && (NeedsLoad(s.code, d) ==>
         && |s.code| <= pf && |s.code| <= pt
         && Run(s'.code, s'.pending, pf, r) == Fall(Put(r, reg, False))
         && Run(s'.code, s'.pending, pt, r) == Fall(Put(r, reg, True)))
    && var o := Run(s'.code, s'.pending, |s.code|, r);
       if d.e.k == KnownFalse then o == Fall(Put(r, reg, False))
       else o == Fall(r) || o == Via(|s.code|, r, false)
  }

  /** The shape of the settled code. */
  ghost predicate Tailed(s: Snap, d: Desc, reg: int, s': Snap, pf: int, pt: int) {
    && |s.code| <= |s'.code|
    && (forall j :: j in d.fs ==> PatchedJump(s.code, s'.code, j, |s'.code|, reg, pf) && j !in s'.pending)
    && (forall j :: j in d.ts ==> PatchedJump(s.code, s'.code, j, |s'.code|, reg, pt) && j !in s'.pending)
    && (forall i :: 0 <= i < |s.code| && i !in d.ts && i !in d.fs ==> PatchedOther(s.code, s'.code, d, i))
    && (forall i :: 0 <= i < |s.code| && i !in d.ts && i !in d.fs ==> (i in s'.pending <==> i in s.pending))
    && (forall j :: j in s.here ==> j in s'.here)
    && (forall r :: TailRuns(s, d, reg, s', pf, pt, r))
    && (|s.code| in s'.pending ==> |s.code| in s'.here)
  }

  lemma SettledTail(s: Snap, d: Desc, reg: int, s1: Snap, pf: int, pt: int, s': Snap)
    requires Ready(s, d, reg) && Settled(s, d, reg, s1, pf, pt, s')
    ensures BothPatched(s.code, TailOf(s, s1), d, Targets(|s1.code|, reg, pf, pt), s'.code)
  {
    PreparedTail(s, d, reg, s1, pf, pt);
    hide PatchBoth, NeedsLoad, Prepared;
    assert forall j :: j in d.ts || j in d.fs ==> JumpAt(s.code, j);
    PatchBothJumps(s.code, TailOf(s, s1), d, Targets(|s1.code|, reg, pf, pt));
  }

  lemma SettledRuns(s: Snap, d: Desc, reg: int, s1: Snap, pf: int, pt: int, s': Snap)
    requires Ready(s, d, reg) && Settled(s, d, reg, s1, pf, pt, s')
    ensures forall r :: TailRuns(s, d, reg, s', pf, pt, r)
    ensures |s.code| in s'.pending ==> |s.code| in s'.here
  {
    SettledTail(s, d, reg, s1, pf, pt, s');
    PreparedTail(s, d, reg, s1, pf, pt);
    SettledSets(s, d, reg, s1, pf, pt, s');
    NotAtEnd(s, d);
    assert |s.code| in s.pending ==> JumpAt(s.code, |s.code|);
    assert |TailOf(s, s1)| == 3 ==> |s.code| in s1.here;
    var tail, g := TailOf(s, s1), Targets(|s1.code|, reg, pf, pt);
    hide NeedsLoad, Lists, Settled, TailOf, Prepared, BothPatched, Loads;
    if tail != [] { TailLoads(s.code, tail, d, g, s', reg); }
    assert |s'.code| == |s.code| + |tail| by { PatchedSize(s.code, tail, d, g, s'.code); }
    forall r ensures TailRuns(s, d, reg, s', pf, pt, r) { TailRunsAt(s, d, reg, s', pf, pt, |tail|, r); }
  }

  lemma PatchedSize(c: Code, tail: Code, d: Desc, g: Targets, c': Code)
    requires BothPatched(c, tail, d, g, c')
    ensures |c'| == |c| + |tail|
  {}

  /** `k` instructions have been put at the end. */
  lemma TailRunsAt(s: Snap, d: Desc, reg: int, s': Snap, pf: int, pt: int, k: nat, r: Env)
    requires |s'.code| == |s.code| + k && (NeedsLoad(s.code, d) <==> k > 0)
    requires d.e.k == VNONRELOC || (d.e.k == KnownFalse && k > 0)
    requires k == 0 || k == if d.e.k == VNONRELOC then 3 else 2
    requires k > 0 ==> pf == |s'.code| - 2 && pt == |s'.code| - 1
    requires k > 0 ==> Run(s'.code, s'.pending, |s'.code| - 2, r) == Fall(Put(r, reg, False))
    requires k > 0 ==> Run(s'.code, s'.pending, |s'.code| - 1, r) == Fall(Put(r, reg, True))
    requires k == 3 ==> s'.code[|s.code|].JMP? && |s.code| in s'.pending
    ensures TailRuns(s, d, reg, s', pf, pt, r)
  {
    hide NeedsLoad;
  }

  lemma TailLoads(c: Code, tail: Code, d: Desc, g: Targets, s: Snap, reg: int)
    requires BothPatched(c, tail, d, g, s.code) && |tail| >= 2 && tail[|tail| - 2..] == Loads(reg)
    ensures forall r :: Run(s.code, s.pending, |s.code| - 2, r) == Fall(Put(r, reg, False))
    ensures forall r :: Run(s.code, s.pending, |s.code| - 1, r) == Fall(Put(r, reg, True))
    ensures |s.code| == |c| + |tail| && s.code[|c|] == tail[0]
  {
    var n, k := |c|, |tail| - 2;
    assert s.code[n + k] == tail[k] == Loads(reg)[0] && s.code[n + (k + 1)] == tail[k + 1] == Loads(reg)[1];
    assert s.code[n + 0] == tail[0];
    LoadsRun(s, n + k, reg);
  }

  lemma NotAtEnd(s: Snap, d: Desc)
    requires Lists(s, d)
    ensures |s.code| !in d.ts && |s.code| !in d.fs
  {
    assert |s.code| in s.pending ==> JumpAt(s.code, |s.code|);
  }

  lemma SettledTailed(s: Snap, d: Desc, reg: int, s1: Snap, pf: int, pt: int, s': Snap)
    requires Ready(s, d, reg) && Settled(s, d, reg, s1, pf, pt, s')
    ensures Tailed(s, d, reg, s', pf, pt)
  {
    SettledTail(s, d, reg, s1, pf, pt, s');
    SettledRuns(s, d, reg, s1, pf, pt, s');
    PreparedTail(s, d, reg, s1, pf, pt);
    hide PatchBoth, NeedsLoad, PatchedJump, PatchedOther, TailRuns, Prepared;
  }

  lemma TailedCompat(s: Snap, d: Desc, reg: int, s': Snap, pf: int, pt: int)
    requires Lists(s, d) && Tailed(s, d, reg, s', pf, pt)
    ensures Compat(s.code, s.pending, s'.code, s'.pending)
  {
    hide TailRuns;
    forall i | 0 <= i < |s.code|
      ensures (i in s'.pending ==> i in s.pending) && SameAt(s.code, s.pending, s'.code, i)
    {
      assert i in s.pending ==> JumpAt(s.code, i);
      if i in d.ts {
        assert PatchedJump(s.code, s'.code, i, |s'.code|, reg, pt);
      } else if i in d.fs {
        assert PatchedJump(s.code, s'.code, i, |s'.code|, reg, pf);
      } else {
        assert PatchedOther(s.code, s'.code, d, i);
      }
    }
  }

  /** However the run of the old code ended, the run of the new code puts the value into the register. */
  lemma OutcomeArrives(s: Snap, d: Desc, fr: int, x: int, reg: int, s': Snap, pf: int, pt: int, m: Env, fl: Flow,
      o: Outcome)
    requires Ready(s, d, reg) && Tailed(s, d, reg, s', pf, pt) && Good(o, s, d, fr, x, m, fl)
    requires x == reg || x == NO_REG
    ensures Arrived(Continue(s'.code, s'.pending, |s.code|, o), s', fr, reg, m, Ans(fl))
  {
    hide Run, Exit, PatchedOther;
    GoodCases(o, s, d, fr, x, m, fl);
    assert TailRuns(s, d, reg, s', pf, pt, o.m);
    if Exits(o, s, d, fr, m, fl) {
      assert JumpAt(s.code, o.j);
      assert !HasValue(s.code, o.j) ==> NeedsLoad(s.code, d);
      hide PatchedJump;
      if o.j in d.ts && Exit(s.code, o.j, o.m, o.tested, fl, true) {
        JumpArrives(s.code, s', o, pt, reg, true, fr, m, fl);
      } else {
        JumpArrives(s.code, s', o, pf, reg, false, fr, m, fl);
      }
    } else if o.Via? {
      StaysArrives(s, d, reg, s', pf, pt, o);
    } else {
      FallArrives(s, d, fr, x, reg, s', pf, pt, m, fl, o);
    }
  }

  lemma StaysArrives(s: Snap, d: Desc, reg: int, s': Snap, pf: int, pt: int, o: Outcome)
    requires Lists(s, d) && Tailed(s, d, reg, s', pf, pt) && o.Via? && o.j in s.here
    ensures o.j in s'.pending && o.j in s'.here && SameControl(s.code, s'.code, o.j)
  {
    hide TailRuns;
    var j := o.j;
    assert j in s.pending && JumpAt(s.code, j) && j !in d.ts && j !in d.fs;
    if 0 < j {
      if j - 1 in d.ts {
        assert JumpAt(s.code, j - 1) && PatchedJump(s.code, s'.code, j - 1, |s'.code|, reg, pt);
      } else if j - 1 in d.fs {
        assert JumpAt(s.code, j - 1) && PatchedJump(s.code, s'.code, j - 1, |s'.code|, reg, pf);
      } else {
        assert PatchedOther(s.code, s'.code, d, j - 1);
      }
    }
  }

  lemma FallArrives(s: Snap, d: Desc, fr: int, x: int, reg: int, s': Snap, pf: int, pt: int, m: Env, fl: Flow,
      o: Outcome)
    requires Ready(s, d, reg) && Tailed(s, d, reg, s', pf, pt) && o.Fall? && Stays(o, s, d.e, fr, x, m, fl)
    requires x == reg || x == NO_REG
    ensures Arrived(Continue(s'.code, s'.pending, |s.code|, o), s', fr, reg, m, Ans(fl))
  {
    assert TailRuns(s, d, reg, s', pf, pt, o.m);
    var o' := Run(s'.code, s'.pending, |s.code|, o.m);
    if o'.Via? {
      ViaPending(s'.code, s'.pending, |s.code|, o.m);
      assert !Controlled(s'.code, |s.code|) by { LastKept(s, d, reg, s', pf, pt); }
    }
  }

  lemma LastKept(s: Snap, d: Desc, reg: int, s': Snap, pf: int, pt: int)
    requires Lists(s, d) && Closed(s.code) && Tailed(s, d, reg, s', pf, pt)
    ensures !Controlled(s'.code, |s.code|)
  {
    hide TailRuns;
    var n := |s.code|;
    if n > 0 {
      if n - 1 in d.ts { assert PatchedJump(s.code, s'.code, n - 1, |s'.code|, reg, pt); }
      else if n - 1 in d.fs { assert PatchedJump(s.code, s'.code, n - 1, |s'.code|, reg, pf); }
      else { assert PatchedOther(s.code, s'.code, d, n - 1); }
    }
  }

  // ----- the settled state -----

  lemma SettledSets(s: Snap, d: Desc, reg: int, s1: Snap, pf: int, pt: int, s': Snap)
    requires Settled(s, d, reg, s1, pf, pt, s')
    ensures forall j :: j in s'.pending <==> j in s1.pending && j !in d.ts && j !in d.fs
    ensures s'.here == s1.here
  {
    hide Prepared, PatchBoth;
  }

  lemma SettledEnd(s: Snap, d: Desc, reg: int, s1: Snap, g: Targets, s': Snap)
    requires Lists(s, d) && Closed(s.code) && |s.code| <= |s1.code|
    requires BothPatched(s.code, TailOf(s, s1), d, g, s'.code)
    requires var tail := TailOf(s, s1);
      tail == [] || (|tail| >= 2 && tail[|tail| - 2..] == Loads(reg) && (|tail| == 3 ==> tail[0].JMP?))
    ensures Closed(s'.code)
    ensures |TailOf(s, s1)| == 3 ==> JumpAt(s'.code, |s.code|)
  {
    var n, tail := |s.code|, TailOf(s, s1);
    if tail != [] {
      assert s'.code[n + 0] == tail[0] && s'.code[n + (|tail| - 1)] == tail[|tail| - 1];
      assert tail[|tail| - 1] == Loads(reg)[1];
    } else if n > 0 {
      if n - 1 in d.ts { assert PatchedJump(s.code, s'.code, n - 1, g.v, g.reg, g.pt); }
      else if n - 1 in d.fs { assert PatchedJump(s.code, s'.code, n - 1, g.v, g.reg, g.pf); }
      else { assert PatchedOther(s.code, s'.code, d, n - 1); }
    }
  }

  lemma SettledJumps(s: Snap, d: Desc, reg: int, s1: Snap, g: Targets, s': Snap)
    requires Lists(s, d) && |s.code| <= |s1.code| && BothPatched(s.code, TailOf(s, s1), d, g, s'.code)
    requires forall j :: j in s'.pending ==> j in s1.pending && j !in d.ts && j !in d.fs
    requires forall j :: j in s1.pending ==> j in s.pending || j == |s.code|
    ensures forall j :: j in s'.pending && j != |s.code| ==> JumpAt(s'.code, j)
  {
    hide TailOf, PatchedJump;
    forall j | j in s'.pending && j != |s.code| ensures JumpAt(s'.code, j) {
      assert JumpAt(s.code, j) && PatchedOther(s.code, s'.code, d, j);
    }
  }

  lemma SettledOk(s: Snap, d: Desc, reg: int, s1: Snap, pf: int, pt: int, s': Snap)
    requires Ready(s, d, reg) && Settled(s, d, reg, s1, pf, pt, s')
    ensures SnapOk(s') && Closed(s'.code)
    ensures forall j :: j in s'.here ==> j in s.here || j == |s.code|
  {
    var g := Targets(|s1.code|, reg, pf, pt);
    SettledTail(s, d, reg, s1, pf, pt, s');
    PreparedTail(s, d, reg, s1, pf, pt);
    SettledSets(s, d, reg, s1, pf, pt, s');
    NotAtEnd(s, d);
    hide Settled, NeedsLoad, BothPatched, TailOf, Closed;
    SettledEnd(s, d, reg, s1, g, s');
    SettledJumps(s, d, reg, s1, g, s');
    hide Ready;
    assert |s.code| !in s.pending by { assert |s.code| in s.pending ==> JumpAt(s.code, |s.code|); }
  }

  lemma SettledKeptAt(o: Snap, s: Snap, d: Desc, reg: int, s': Snap, pf: int, pt: int, i: int)
    requires SnapOk(o) && Closed(o.code) && KeptAt(o, s, i) && Tailed(s, d, reg, s', pf, pt)
    requires forall j :: j in d.ts || j in d.fs ==> |o.code| <= j || j in o.here
    ensures KeptAt(o, s', i)
  {
    hide TailRuns;
    if i in d.ts {
      assert PatchedJump(s.code, s'.code, i, |s'.code|, reg, pt);
    } else if i in d.fs {
      assert PatchedJump(s.code, s'.code, i, |s'.code|, reg, pf);
    } else {
      assert PatchedOther(s.code, s'.code, d, i);
      assert i + 1 in d.ts || i + 1 in d.fs ==> i + 1 in o.here || i + 1 == |o.code|;
    }
  }

  lemma SettledKept(o: Snap, s: Snap, d: Desc, reg: int, s': Snap, pf: int, pt: int)
    requires SnapOk(o) && Closed(o.code) && Kept(o, s) && ListsOk(o, s, d) && Lists(s, d)
    requires Tailed(s, d, reg, s', pf, pt) && forall j :: j in s'.here ==> j in s.here || j == |s.code|
    ensures Kept(o, s')
  {
    assert |s.code| <= |s'.code|;
    hide Tailed, IsList, KeptAt, SnapOk, Closed;
    forall i | 0 <= i < |o.code| ensures KeptAt(o, s', i) {
      SettledKeptAt(o, s, d, reg, s', pf, pt, i);
    }
  }

  lemma SettledNoCarry(s: Snap, d: Desc, reg: int, s': Snap, pf: int, pt: int)
    requires Ready(s, d, reg) && Tailed(s, d, reg, s', pf, pt) && NoCarry(s)
    requires forall j :: j in s'.here ==> j in s.here || j == |s.code|
    ensures NoCarry(s')
  {
    hide TailRuns, Tailed;
    forall j | j in s'.here ensures !HasValue(s'.code, j) {
      if j in s.here {
        StaysArrives(s, d, reg, s', pf, pt, Via(j, Env(map[], map[], (_, _) => false, (_, _) => false), false));
        SameBrought(s.code, s'.code, j);
      } else {
        LastKept(s, d, reg, s', pf, pt);
      }
    }
  }

  /** `reg` is a new temporary, already reserved, or a local that is being assigned. */
  ghost predicate RegOk(c: Ctx, reg: int, free: int) {
    (reg == c.fr && free == c.fr + 1) || (0 <= reg < c.nact && free == c.fr)
  }

  function InReg(reg: int): Desc { Desc(Exp(VNONRELOC, reg, NO_JUMP, NO_JUMP), [], []) }

  function Finished(c: Ctx): Ctx { c.(job := Answer(c.job.e)) }

  lemma SettledMeans(c: Ctx, s: Snap, d: Desc, free: int, x: int, reg: int, s1: Snap, pf: int, pt: int, s': Snap,
      en: Entry)
    requires Holds(c, s, d, free, x) && Ready(s, d, reg) && (x == reg || x == NO_REG)
    requires Settled(s, d, reg, s1, pf, pt, s') && (c.job.Placed? || c.job.Joined?)
    ensures MeansIn(Finished(c), s', InReg(reg), reg, en)
  {
    if EntryOk(c, en) {
      var fl := FlowIn(c.job, en.m, Arriving(c.o, en));
      StartOk(c, s, d, free, x);
      StartOutcome(c, s, d, free, x, en);
      GoodCases(Outcome0(s, |c.o.code|, en), s, d, c.fr, x, en.m, fl);
      SettledTailed(s, d, reg, s1, pf, pt, s');
      TailedCompat(s, d, reg, s', pf, pt);
      hide Holds, Good, Tailed, Settled, Ready, FlowOf, Compat, Arrived, Exits, Stays, SnapOk;
      OutcomeContinues(s, s', |c.o.code|, en);
      OutcomeArrives(s, d, c.fr, x, reg, s', pf, pt, en.m, fl, Outcome0(s, |c.o.code|, en));
      SameAnswer(c.job, en.m, Arriving(c.o, en));
      ArrivedMeans(c, s', reg, en);
    }
  }

  lemma ArrivedMeans(c: Ctx, s: Snap, reg: int, en: Entry)
    requires reg >= 0
    requires Arrived(Outcome0(s, |c.o.code|, en), s, c.fr, reg, en.m, Actual(c.job.e, en.m, Arriving(c.o, en)))
    ensures MeansIn(Finished(c), s, InReg(reg), reg, en)
  {
    hide Run, FlowOf, Continue;
  }

  lemma SameAnswer(job: Job, m: Env, a: Option<CodeVm.Value>)
    requires job.Placed? || job.Joined?
    ensures Ans(FlowIn(job, m, a)) == Ans(FlowOf(job.e, m, a))
  {
    hide FlowOf;
  }

  /** exp2reg: the descriptor with its jumps becomes a register that holds the value. */
  lemma SettledHolds(c: Ctx, s: Snap, d: Desc, free: int, x: int, reg: int, s1: Snap, pf: int, pt: int, s': Snap,
      free': int)
    requires Holds(c, s, d, free, x) && Ready(s, d, reg) && (x == reg || x == NO_REG)
    requires Settled(s, d, reg, s1, pf, pt, s') && (c.job.Placed? || c.job.Joined?)
    requires RegOk(c, reg, free') && (reg == c.fr ==> NoCarry(s))
    ensures Holds(Finished(c), s', InReg(reg), free', reg)
  {
    hide Tailed, Settled, Kept, Means, Lists, MeansIn, ListsOk, SnapOk, Closed;
    SettledTailed(s, d, reg, s1, pf, pt, s');
    SettledOk(s, d, reg, s1, pf, pt, s');
    HeldKept(c, s, d, free, x);
    SettledKept(c.o, s, d, reg, s', pf, pt);
    if reg == c.fr { SettledNoCarry(s, d, reg, s', pf, pt); }
    EmptyLists(c.o, s', reg);
    hide Ready;
    forall en ensures MeansIn(Finished(c), s', InReg(reg), reg, en) {
      SettledMeans(c, s, d, free, x, reg, s1, pf, pt, s', en);
    }
    MeansAll(Finished(c), s', InReg(reg), reg);
  }

  lemma EmptyLists(o: Snap, s: Snap, reg: int)
    ensures ListsOk(o, s, InReg(reg))
  {}

  lemma HeldKept(c: Ctx, s: Snap, d: Desc, free: int, x: int)
    requires Holds(c, s, d, free, x)
    ensures Begun(c, s) && Kept(c.o, s) && ListsOk(c.o, s, d) && Lists(s, d)
  {
    hide Means, Kept, IsList;
  }
}
