/** The part of FuncState that code generation changes, and the operations on its code and patch lists
    (lcode.c:35-196, 797-809). */
module CodeState {
  import opened CodeVm
  import opened CodeLists

  /** The code so far, all jumps without a target, and those of them that lead to the next instruction. */
  datatype Snap = Snap(code: Code, pending: set<int>, here: seq<int>)

  ghost predicate SnapOk(s: Snap) {
    && (forall j :: j in s.pending ==> JumpAt(s.code, j))
    && (forall j :: j in s.here ==> j in s.pending)
  }

  /** Code never stops between a test and its jump. */
  predicate Closed(code: Code) { |code| > 0 ==> !IsTest(code[|code| - 1]) }

  /** The last instruction is not a LOADNIL that luaK_nil may still extend. */
  predicate NilClosed(code: Code, lasttarget: int) {
    |code| > 0 && |code| > lasttarget ==> !code[|code| - 1].LOADNIL?
  }

  /** The last instruction is a LOADNIL that luaK_nil extends to register `from`. */
  predicate Extends(code: Code, lasttarget: int, from: int) {
    && |code| > 0 && |code| > lasttarget && code[|code| - 1].LOADNIL?
    && code[|code| - 1].A <= from <= code[|code| - 1].B + 1
  }

  /** The extended instruction does what the instruction and one for register `from` do. */
  lemma ExtendedMeans(m: Env, a: int, b: int, from: int, r: int)
    requires a <= b && a <= from <= b + 1
    ensures Get(Loaded(LOADNIL(a, if from > b then from else b), m), r) ==
      Get(Loaded(LOADNIL(from, from), Loaded(LOADNIL(a, b), m)), r)
  {
    PutNilsClears(m, a, if from > b then from else b);
    PutNilsClears(m, a, b);
    PutNilsClears(PutNils(m, a, b), from, from);
  }

  ghost function Elements(s: seq<int>): set<int> { set j | j in s }

  /** The state after one more instruction: the jumps in `here` now lead to it, without their values. */
  ghost function Emitted(s: Snap, i: Instr): Snap {
    Snap(Patched(s.code, s.here, |s.code|, NO_REG, |s.code|) + [i], s.pending - Elements(s.here), [])
  }

  /** The state after a jump, which heads the list of the jumps that led here. */
  ghost function Jumped(s: Snap): Snap {
    var j := |s.code|;
    Snap(s.code + [JMP(if s.here == [] then NO_JUMP else s.here[0] - (j + 1))], s.pending + {j}, [])
  }

  class FuncState {
    var code: Code
    var jpc: int
    var lasttarget: int
    var freereg: int
    const nactvar: nat
    ghost var pending: set<int>
    ghost var here: seq<int>

    constructor (nactvar: nat)
      ensures this.nactvar == nactvar && freereg == nactvar && code == [] && pending == {} && here == [] && Valid()
    {
      this.nactvar := nactvar;
      code, jpc, lasttarget, freereg := [], NO_JUMP, -1, nactvar;
      pending, here := {}, [];
    }

    ghost predicate Valid()
      reads this
    {
      SnapOk(Now()) && IsList(code, jpc, here) && nactvar <= freereg
    }

    ghost function Now(): Snap
      reads this
    {
      Snap(code, pending, here)
    }

    /** need_value (lcode.c:122-128) */
    method NeedValue(list: int, ghost s: seq<int>) returns (b: bool)
      requires IsList(code, list, s)
      ensures b <==> exists j :: j in s && !HasValue(code, j)
    {
      var l := list;
      ghost var k := 0;
      assert s[0..] == s;
      while l != NO_JUMP
        invariant 0 <= k <= |s| && IsList(code, l, s[k..])
        invariant forall x :: 0 <= x < k ==> HasValue(code, s[x])
        decreases |s| - k
      {
        if !(1 <= l && code[l - 1].TESTSET?) {
          assert s[k..][0] == l && s[k] == l && l in s && !HasValue(code, l);
          return true;
        }
        assert s[k..][0] == s[k] && s[k..][1..] == s[k + 1..];
        l := GetJump(code, l);
        k := k + 1;
      }
      return false;
    }

    /** patchtestreg (lcode.c:131-141) */
    method PatchTestReg(node: int, reg: int) returns (b: bool)
      requires JumpAt(code, node)
      modifies this`code
      ensures b == HasValue(old(code), node)
      ensures code == if b then old(code)[node - 1 := SetReg(old(code)[node - 1], reg)] else old(code)
    {
      if !(1 <= node && code[node - 1].TESTSET?) { return false; }
      var i := code[node - 1];
      if reg != NO_REG && reg != i.B {
        code := code[node - 1 := TESTSET(reg, i.B, i.C)];
      } else {
        code := code[node - 1 := TEST(i.B, i.C)];
      }
      return true;
    }

    /** fixjump (lcode.c:80-87) */
    method FixJump(pc: int, dest: int)
      requires JumpAt(code, pc)
      modifies this`code
      ensures code == old(code)[pc := JMP(dest - (pc + 1))]
    {
      code := code[pc := JMP(dest - (pc + 1))];
    }

    /** One round of patchlistaux (lcode.c:153-158). */
    method PatchJump(l: int, vtarget: int, reg: int, dtarget: int)
      requires JumpAt(code, l)
      modifies this`code
      ensures code == PatchedOne(old(code), l, vtarget, reg, dtarget)
    {
      var b := PatchTestReg(l, reg);
      if b {
        FixJump(l, vtarget);
      } else {
        FixJump(l, dtarget);
      }
    }

    /** patchlistaux (lcode.c:150-160): each jump of the list gets its target, the TESTSETs of the list
        their register, and nothing else changes. */
    method PatchListAux(list: int, vtarget: int, reg: int, dtarget: int, ghost s: seq<int>)
      requires IsList(code, list, s)
      modifies this`code
      ensures code == Patched(old(code), s, vtarget, reg, dtarget)
    {
      hide Patched, PatchedOne;
      ghost var code0 := code;
      ListMembers(code, list, s);
      PatchNothing(code, vtarget, reg, dtarget);
      var l := list;
      ghost var k := 0;
      assert s[0..] == s && s[..0] == [];
      while l != NO_JUMP
        invariant 0 <= k <= |s| && IsList(code, l, s[k..])
        invariant code == Patched(code0, s[..k], vtarget, reg, dtarget)
        decreases |s| - k
      {
        ghost var code1 := code;
        assert s[k..][0] == s[k] && s[k..][1..] == s[k + 1..];
        assert s[..k] + [l] == s[..k + 1];
        PatchNext(code0, s[..k], l, vtarget, reg, dtarget);
        var next := GetJump(code, l);
        PatchJump(l, vtarget, reg, dtarget);
        RestKept(code1, next, s[k + 1..], l, vtarget, reg, dtarget);
        l := next;
        k := k + 1;
      }
      assert s[..k] == s;
    }

    /** removevalues (lcode.c:144-147) */
    method RemoveValues(list: int, ghost s: seq<int>)
      requires IsList(code, list, s)
      modifies this`code
      ensures code == Unvalued(old(code), s)
    {
      hide Unvalued;
      ghost var code0 := code;
      ListMembers(code, list, s);
      UnvaluedNothing(code);
      var l := list;
      ghost var k := 0;
      assert s[0..] == s && s[..0] == [];
      while l != NO_JUMP
        invariant 0 <= k <= |s| && IsList(code, l, s[k..])
        invariant code == Unvalued(code0, s[..k])
        decreases |s| - k
      {
        ghost var code1 := code;
        assert s[k..][0] == s[k] && s[k..][1..] == s[k + 1..];
        assert s[..k] + [l] == s[..k + 1];
        UnvaluedNext(code0, s[..k], l);
        var b := PatchTestReg(l, NO_REG);
        TestKept(code1, code, l, s[k..]);
        l := GetJump(code, l);
        k := k + 1;
      }
      assert s[..k] == s;
    }

    /** luaK_concat (lcode.c:185-196) */
    method Concat(l1: int, l2: int, ghost s1: seq<int>, ghost s2: seq<int>) returns (l: int)
      requires IsList(code, l1, s1) && IsList(code, l2, s2) && Disjoint(s1, s2)
      modifies this`code
      ensures code == Linked(old(code), s1, s2)
      ensures IsList(code, l, s1 + s2)
    {
      LinkedList(code, l1, s1, l2, s2);
      ListMembers(code, l1, s1);
      if l2 == NO_JUMP {
        l := l1;
      } else if l1 == NO_JUMP {
        l := l2;
      } else {
        var list := l1;
        var next := GetJump(code, list);
        ghost var k := 0;
        while next != NO_JUMP
          invariant 0 <= k < |s1| && list == s1[k] && IsList(code, next, s1[k + 1..]) && JumpAt(code, list)
          invariant next == GetJump(code, list)
          decreases |s1| - k
        {
          assert s1[k + 1..][0] == s1[k + 1] && s1[k + 1..][1..] == s1[k + 2..];
          list := next;
          next := GetJump(code, list);
          k := k + 1;
        }
        assert s1[k + 1..] == [];
        FixJump(list, l2);
        l := l1;
      }
    }

    /** luaK_code with dischargejpc (lcode.c:163-166, 797-809) */
    method Code(i: Instr) returns (pc: int)
      requires Valid()
      modifies this`code, this`jpc, this`pending, this`here
      ensures Valid() && Now() == Emitted(old(Now()), i) && pc == |old(code)|
    {
      hide Patched;
      EmittedOk(Now(), i);
      PatchListAux(jpc, |code|, NO_REG, |code|, here);
      jpc := NO_JUMP;
      pending, here := pending - Elements(here), [];
      pc := |code|;
      code := code + [i];
    }

    /** luaK_nil for one register (lcode.c:35-56): nothing at the start of a function, where registers are nil
        already; a LOADNIL just before is extended; otherwise a new instruction. */
    method LoadNil(from: int)
      requires Valid()
      modifies this`code, this`jpc, this`pending, this`here
      ensures lasttarget < |old(code)| == 0 && from >= nactvar ==> Now() == old(Now()) && jpc == old(jpc) && Valid()
      ensures !(lasttarget < |old(code)| == 0 && from >= nactvar) && !Extends(old(code), lasttarget, from) ==>
        Valid() && Now() == Emitted(old(Now()), LOADNIL(from, from))
      ensures Extends(old(code), lasttarget, from) ==>
        var last := |old(code)| - 1;
        var i := old(code)[last];
        && Valid() && pending == old(pending) && here == old(here) && jpc == old(jpc)
        && code == old(code)[last := LOADNIL(i.A, if from > i.B then from else i.B)]
    {
      ghost var code0 := code;
      if |code| > lasttarget {
        if |code| == 0 {
          if from >= nactvar { return; }
        } else {
          var previous := code[|code| - 1];
          if previous.LOADNIL? && previous.A <= from <= previous.B + 1 {
            if from > previous.B { code := code[|code| - 1 := LOADNIL(previous.A, from)]; }
            TestKept(code0, code, jpc, here);
            return;
          }
        }
      }
      var pc := Code(LOADNIL(from, from));
    }

    /** luaK_jump (lcode.c:59-66) */
    method Jump() returns (j: int, ghost s: seq<int>)
      requires Valid()
      modifies this`code, this`jpc, this`pending, this`here
      ensures Valid() && Now() == Jumped(old(Now()))
      ensures s == [|old(code)|] + old(here) && IsList(code, j, s)
    {
      var jpc0 := jpc;
      ghost var s0 := Now();
      jpc := NO_JUMP;
      here := [];
      j := Code(JMP(NO_JUMP));
      assert Patched(s0.code, [], |s0.code|, NO_REG, |s0.code|) == s0.code;
      ghost var j0 := j;
      ListMembers(s0.code, jpc0, s0.here);
      ListFrame(s0.code, code, jpc0, s0.here);
      assert GetJump(code, j0) == NO_JUMP && IsList(code, NO_JUMP, []) && [j0][1..] == [];
      assert IsList(code, j0, [j0]);
      j := Concat(j, jpc0, [j0], s0.here);
      pending := pending + {j0};
      s := [j0] + s0.here;
    }

    /** luaK_patchtohere (lcode.c:179-182) */
    method PatchToHere(list: int, ghost s: seq<int>)
      requires Valid() && IsList(code, list, s) && Disjoint(here, s) && forall j :: j in s ==> j in pending
      modifies this`code, this`jpc, this`here, this`lasttarget
      ensures Valid() && pending == old(pending) && here == old(here) + s && code == Linked(old(code), old(here), s)
      ensures lasttarget == |code|
    {
      lasttarget := |code|;
      jpc := Concat(jpc, list, here, s);
      here := here + s;
    }
  }

  lemma RestKept(code: Code, l: int, s: seq<int>, j: int, v: int, reg: int, d: int)
    requires IsList(code, l, s) && JumpAt(code, j) && j !in s
    ensures IsList(PatchedOne(code, j, v, reg, d), l, s)
  {
    ListMembers(code, l, s);
    ListFrame(code, PatchedOne(code, j, v, reg, d), l, s);
  }

  lemma TestKept(code: Code, code': Code, l: int, s: seq<int>)
    requires IsList(code, l, s) && |code'| == |code|
    requires forall i :: 0 <= i < |code| && code[i].JMP? ==> code'[i] == code[i]
    ensures IsList(code', l, s)
  {
    ListMembers(code, l, s);
    ListFrame(code, code', l, s);
  }

  lemma UnvaluedNothing(code: Code)
    ensures Unvalued(code, []) == code
  {}

  lemma UnvaluedNext(code: Code, s: seq<int>, j: int)
    requires JumpAt(code, j) && j !in s
    ensures var c := Unvalued(code, s);
      Unvalued(code, s + [j]) == if HasValue(c, j) then c[j - 1 := SetReg(c[j - 1], NO_REG)] else c
  {
    var c := Unvalued(code, s);
    var c' := if HasValue(c, j) then c[j - 1 := SetReg(c[j - 1], NO_REG)] else c;
    assert 0 < j ==> c[j - 1] == code[j - 1];
    forall i | 0 <= i < |code| ensures c'[i] == if i + 1 in s + [j] then Norm(code[i]) else code[i] {}
  }

  lemma EmittedOk(s: Snap, i: Instr)
    requires SnapOk(s)
    ensures SnapOk(Emitted(s, i))
  {
    var e := Emitted(s, i);
    forall j | j in e.pending ensures JumpAt(e.code, j) {
      assert e.code[j] == PatchAt(s.code, s.here, |s.code|, NO_REG, |s.code|, j);
    }
  }
}
