/** Patch lists (lcode.c:59-66, 80-196): lists of jumps without a target, threaded through the offsets of
    the jumps themselves. */
module CodeLists {
  import opened CodeVm

  const NO_JUMP := -1

  /** getjump (lcode.c:100-106) */
  function GetJump(code: Code, pc: int): int
    requires 0 <= pc < |code| && code[pc].JMP?
  {
    if code[pc].sBx == NO_JUMP then NO_JUMP else pc + 1 + code[pc].sBx
  }

  predicate JumpAt(code: Code, j: int) { 0 <= j < |code| && code[j].JMP? }

  /** The list that starts at `l` is `s`; it ends, and so has no cycle. */
  ghost predicate IsList(code: Code, l: int, s: seq<int>)
    decreases |s|
  {
    if s == [] then l == NO_JUMP
    else l == s[0] && JumpAt(code, l) && l !in s[1..] && IsList(code, GetJump(code, l), s[1..])
  }

  ghost predicate Disjoint(a: seq<int>, b: seq<int>) { forall j :: j in a ==> j !in b }

  lemma {:induction false} ListFrame(code: Code, code': Code, l: int, s: seq<int>)
    requires IsList(code, l, s) && forall j :: j in s && JumpAt(code, j) ==> JumpAt(code', j) && code'[j] == code[j]
    ensures IsList(code', l, s)
    decreases |s|
  {
    if s != [] { ListFrame(code, code', GetJump(code, l), s[1..]); }
  }

  lemma {:induction false} ListMembers(code: Code, l: int, s: seq<int>)
    requires IsList(code, l, s)
    ensures (forall j :: j in s ==> JumpAt(code, j)) && forall a, b :: 0 <= a < b < |s| ==> s[a] != s[b]
    decreases |s|
  {
    if s != [] {
      ListMembers(code, GetJump(code, l), s[1..]);
      forall a, b | 0 <= a < b < |s| ensures s[a] != s[b] {
        if a > 0 { assert s[1..][a - 1] == s[a] && s[1..][b - 1] == s[b]; } else { assert s[1..][b - 1] == s[b]; }
      }
    }
  }

  /** A list is determined by where it starts. */
  lemma {:induction false} ListUnique(code: Code, l: int, s: seq<int>, s': seq<int>)
    requires IsList(code, l, s) && IsList(code, l, s')
    ensures s == s'
    decreases |s|
  {
    if s != [] && s' != [] {
      ListUnique(code, GetJump(code, l), s[1..], s'[1..]);
      assert s == [s[0]] + s[1..] && s' == [s'[0]] + s'[1..];
    }
  }

  // ----- patching -----

  /** Whether the jump at `j` brings a value: its control is a TESTSET (lcode.c:109-115). */
  predicate HasValue(code: Code, j: int) { 1 <= j <= |code| && code[j - 1].TESTSET? }

  /** patchtestreg on the TESTSET `i` (lcode.c:131-141). */
  function SetReg(i: Instr, reg: int): Instr
    requires i.TESTSET?
  {
    if reg != NO_REG && reg != i.B then TESTSET(reg, i.B, i.C) else TEST(i.B, i.C)
  }

  /** What patching the list `s` puts at `i`: jumps that bring a value go to `v` and store it in `reg`,
      the others go to `d`. */
  function PatchAt(code: Code, s: seq<int>, v: int, reg: int, d: int, i: int): Instr
    requires 0 <= i < |code|
  {
    if i in s then JMP((if HasValue(code, i) then v else d) - (i + 1))
    else if i + 1 in s && code[i].TESTSET? then SetReg(code[i], reg)
    else code[i]
  }

  function Patched(code: Code, s: seq<int>, v: int, reg: int, d: int): (r: Code)
    ensures |r| == |code| && forall i :: 0 <= i < |code| ==> r[i] == PatchAt(code, s, v, reg, d, i)
  {
    seq(|code|, i requires 0 <= i < |code| => PatchAt(code, s, v, reg, d, i))
  }

  lemma PatchNothing(code: Code, v: int, reg: int, d: int)
    ensures Patched(code, [], v, reg, d) == code
  {}

  /** One round of the loop: the jump at `j` and its control. */
  function PatchedOne(code: Code, j: int, v: int, reg: int, d: int): Code
    requires JumpAt(code, j)
  {
    if HasValue(code, j) then code[j - 1 := SetReg(code[j - 1], reg)][j := JMP(v - (j + 1))]
    else code[j := JMP(d - (j + 1))]
  }

  lemma PatchNext(code: Code, s: seq<int>, j: int, v: int, reg: int, d: int)
    requires JumpAt(code, j) && j !in s && forall x :: x in s ==> JumpAt(code, x)
    ensures JumpAt(Patched(code, s, v, reg, d), j)
    ensures Patched(code, s + [j], v, reg, d) == PatchedOne(Patched(code, s, v, reg, d), j, v, reg, d)
  {
    var c1 := Patched(code, s, v, reg, d);
    if j > 0 { assert c1[j - 1] == PatchAt(code, s, v, reg, d, j - 1); }
    assert HasValue(c1, j) == HasValue(code, j);
    var c3 := PatchedOne(c1, j, v, reg, d);
    forall i | 0 <= i < |code| ensures c3[i] == PatchAt(code, s + [j], v, reg, d, i) {
      assert c1[i] == PatchAt(code, s, v, reg, d, i);
    }
  }

  /** What removing the values of a list puts at `i` (removevalues, lcode.c:144-147). */
  function Unvalued(code: Code, s: seq<int>): (r: Code)
    ensures |r| == |code|
    ensures forall i :: 0 <= i < |code| ==> r[i] == if i + 1 in s then Norm(code[i]) else code[i]
  {
    seq(|code|, i requires 0 <= i < |code| => if i + 1 in s then Norm(code[i]) else code[i])
  }

  // ----- appending -----

  /** The code after the list `s2` has been appended to `s1` (luaK_concat, lcode.c:185-196). */
  function Linked(code: Code, s1: seq<int>, s2: seq<int>): Code {
    if s1 == [] || s2 == [] || !JumpAt(code, s1[|s1| - 1]) then code
    else var last := s1[|s1| - 1]; code[last := JMP(s2[0] - (last + 1))]
  }

  lemma ListCons(code: Code, l: int, s: seq<int>)
    requires JumpAt(code, l) && l !in s && IsList(code, GetJump(code, l), s)
    ensures IsList(code, l, [l] + s)
  {
    assert ([l] + s)[1..] == s;
  }

  lemma LinkedNext(code: Code, s1: seq<int>, s2: seq<int>)
    requires |s1| > 1
    ensures Linked(code, s1[1..], s2) == Linked(code, s1, s2)
  {
    assert s1[1..][|s1| - 2] == s1[|s1| - 1];
  }

  /** luaK_concat is append. */
  lemma {:induction false} LinkedList(code: Code, l1: int, s1: seq<int>, l2: int, s2: seq<int>)
    requires IsList(code, l1, s1) && IsList(code, l2, s2) && Disjoint(s1, s2)
    ensures IsList(Linked(code, s1, s2), if s1 == [] then l2 else l1, s1 + s2)
    decreases |s1|
  {
    if s1 == [] {
      assert s1 + s2 == s2;
    } else if s2 == [] {
      assert s1 + s2 == s1;
    } else {
      ListMembers(code, l1, s1);
      ListMembers(code, l2, s2);
      var code' := Linked(code, s1, s2);
      assert s1 + s2 == [l1] + (s1[1..] + s2);
      if |s1| == 1 {
        ListFrame(code, code', l2, s2);
        assert s1[1..] + s2 == s2;
        ListCons(code', l1, s2);
      } else {
        LinkedNext(code, s1, s2);
        assert s1[|s1| - 1] != l1 && code'[l1] == code[l1];
        LinkedList(code, GetJump(code, l1), s1[1..], l2, s2);
        hide Linked, IsList;
        ListCons(code', l1, s1[1..] + s2);
      }
    }
  }
}
