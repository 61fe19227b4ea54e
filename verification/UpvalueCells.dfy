/** Upvalues (lfunc.c:53-79, 96-112; lvm.c:635-640, 715-738): captured locals refine shared cells. A local
    variable is a cell of its own; here it lives in a stack slot until luaF_close moves it into the upvalue. */
module UpvalueCells {

  type Value = int

  /** What a function does with its locals and captured variables. Slots and captures that do not exist are
      left alone. */
  datatype Op =
    | Declare(v: Value)
    | GetLocal(slot: nat)
    | SetLocal(slot: nat, v: Value)
    | Capture(slot: nat)
    | GetUpval(k: nat)
    | SetUpval(k: nat, v: Value)
    | Leave(level: nat)

  // ----- cells: what the manual describes -----

  /** The cell of each local in scope, the contents of all cells, the cells captured so far, and the values
      read so far. */
  datatype Spec = Spec(scope: seq<nat>, cells: seq<Value>, caps: seq<nat>, out: seq<Value>)

  function SpecStep(sp: Spec, op: Op): Spec
    requires SpecOk(sp)
  {
    match op
    case Declare(v) => sp.(scope := sp.scope + [|sp.cells|], cells := sp.cells + [v])
    case GetLocal(s) => if s < |sp.scope| then sp.(out := sp.out + [sp.cells[sp.scope[s]]]) else sp
    case SetLocal(s, v) => if s < |sp.scope| then sp.(cells := sp.cells[sp.scope[s] := v]) else sp
    case Capture(s) => if s < |sp.scope| then sp.(caps := sp.caps + [sp.scope[s]]) else sp
    case GetUpval(k) => if k < |sp.caps| then sp.(out := sp.out + [sp.cells[sp.caps[k]]]) else sp
    case SetUpval(k, v) => if k < |sp.caps| then sp.(cells := sp.cells[sp.caps[k] := v]) else sp
    case Leave(level) => if level < |sp.scope| then sp.(scope := sp.scope[..level]) else sp
  }

  predicate Distinct(s: seq<nat>) { forall i, j :: 0 <= i < j < |s| ==> s[i] != s[j] }

  predicate SpecOk(sp: Spec) {
    && Distinct(sp.scope) && (forall i :: 0 <= i < |sp.scope| ==> sp.scope[i] < |sp.cells|)
    && (forall i :: 0 <= i < |sp.caps| ==> sp.caps[i] < |sp.cells|)
  }

  lemma SpecStepOk(sp: Spec, op: Op)
    requires SpecOk(sp)
    ensures SpecOk(SpecStep(sp, op))
  {}

  function SpecRun(ops: seq<Op>): (sp: Spec)
    ensures SpecOk(sp)
  {
    if ops == [] then Spec([], [], [], [])
    else
      var sp := SpecRun(ops[..|ops| - 1]);
      SpecStepOk(sp, ops[|ops| - 1]);
      SpecStep(sp, ops[|ops| - 1])
  }

  // ----- the machine -----

  /** An open upvalue points to a stack slot; a closed one has the value. */
  datatype Upval = Open(slot: nat) | Closed(v: Value)

  datatype Machine = Machine(stack: seq<Value>, up: seq<Upval>, open: seq<nat>, caps: seq<nat>, out: seq<Value>)

  function SlotOf(m: Machine, u: nat): int { if u < |m.up| && m.up[u].Open? then m.up[u].slot else -1 }

  /** The list of open upvalues is strictly descending in the stack and has each of them once. */
  ghost predicate OpenOk(m: Machine) {
    && (forall i :: 0 <= i < |m.open| ==>
      m.open[i] < |m.up| && m.up[m.open[i]].Open? && m.up[m.open[i]].slot < |m.stack|)
    && (forall i, j :: 0 <= i < j < |m.open| ==> SlotOf(m, m.open[i]) > SlotOf(m, m.open[j]))
    && (forall u :: 0 <= u < |m.up| && m.up[u].Open? ==> u in m.open)
  }

  /** The value seen through an upvalue. */
  function Seen(m: Machine, u: nat): Value
    requires u < |m.up| && (m.up[u].Open? ==> m.up[u].slot < |m.stack|)
  {
    match m.up[u] case Open(s) => m.stack[s] case Closed(v) => v
  }

  ghost predicate UpvalOk(m: Machine, sp: Spec, cell: seq<nat>, u: nat)
    requires |cell| == |m.up| && SpecOk(sp) && u < |m.up| && |m.stack| == |sp.scope|
  {
    && cell[u] < |sp.cells|
    && match m.up[u]
       case Open(s) => s < |m.stack| && sp.scope[s] == cell[u]
       case Closed(v) => cell[u] !in sp.scope && sp.cells[cell[u]] == v
  }

  /** Upvalue `u` stands for cell `cell[u]`, and no other upvalue does. */
  ghost predicate Refines(m: Machine, sp: Spec, cell: seq<nat>) {
    && SpecOk(sp) && OpenOk(m) && |cell| == |m.up| && Distinct(cell)
    && |m.stack| == |sp.scope| && (forall s :: 0 <= s < |m.stack| ==> m.stack[s] == sp.cells[sp.scope[s]])
    && (forall u :: 0 <= u < |m.up| ==> UpvalOk(m, sp, cell, u))
    && |m.caps| == |sp.caps| && (forall k :: 0 <= k < |m.caps| ==> m.caps[k] < |m.up| && cell[m.caps[k]] == sp.caps[k])
    && m.out == sp.out
  }

  lemma SeenIs(m: Machine, sp: Spec, cell: seq<nat>, u: nat)
    requires Refines(m, sp, cell) && u < |m.up|
    ensures (m.up[u].Open? ==> m.up[u].slot < |m.stack|) && cell[u] < |sp.cells| && Seen(m, u) == sp.cells[cell[u]]
  {
    assert UpvalOk(m, sp, cell, u);
  }

  /** Writing a slot writes the cell of the local in it, and with it every upvalue open on it. */
  lemma WriteSlot(m: Machine, sp: Spec, cell: seq<nat>, s: nat, v: Value)
    requires Refines(m, sp, cell) && s < |m.stack|
    ensures Refines(m.(stack := m.stack[s := v]), sp.(cells := sp.cells[sp.scope[s] := v]), cell)
  {
    var m', sp' := m.(stack := m.stack[s := v]), sp.(cells := sp.cells[sp.scope[s] := v]);
    assert forall u :: 0 <= u < |m.up| ==> SlotOf(m', u) == SlotOf(m, u);
    forall u | 0 <= u < |m.up| ensures UpvalOk(m', sp', cell, u) { assert UpvalOk(m, sp, cell, u); }
  }

  lemma WriteClosed(m: Machine, sp: Spec, cell: seq<nat>, u: nat, v: Value)
    requires Refines(m, sp, cell) && u < |m.up| && m.up[u].Closed?
    ensures UpvalOk(m, sp, cell, u) && cell[u] < |sp.cells|
    ensures Refines(m.(up := m.up[u := Closed(v)]), sp.(cells := sp.cells[cell[u] := v]), cell)
  {
    assert UpvalOk(m, sp, cell, u);
    var m', sp' := m.(up := m.up[u := Closed(v)]), sp.(cells := sp.cells[cell[u] := v]);
    assert forall x :: 0 <= x < |m.up| ==> SlotOf(m', x) == SlotOf(m, x);
    forall x | 0 <= x < |m.up| ensures UpvalOk(m', sp', cell, x) { assert UpvalOk(m, sp, cell, x); }
  }

  // ----- capturing -----

  /** An upvalue open at `slot` put at position `i` of the list. */
  function Inserted(m: Machine, slot: nat, i: nat): Machine
    requires i <= |m.open|
  {
    m.(up := m.up + [Open(slot)], open := m.open[..i] + [|m.up|] + m.open[i..])
  }

  /** The list from which position `j` of the new list comes. */
  lemma InsertedAt(m: Machine, slot: nat, i: nat)
    requires OpenOk(m) && i <= |m.open|
    ensures var m' := Inserted(m, slot, i);
      && |m'.open| == |m.open| + 1 && m'.open[i] == |m.up| && SlotOf(m', |m.up|) == slot
      && (forall j :: 0 <= j < i ==> m'.open[j] == m.open[j] && SlotOf(m', m'.open[j]) == SlotOf(m, m.open[j]))
      && (forall j :: i < j < |m'.open| ==>
        m'.open[j] == m.open[j - 1] && SlotOf(m', m'.open[j]) == SlotOf(m, m.open[j - 1]))
  {}

  lemma InsertedOpen(m: Machine, slot: nat, i: nat)
    requires OpenOk(m) && i <= |m.open| && slot < |m.stack|
    requires (forall j :: 0 <= j < i ==> SlotOf(m, m.open[j]) > slot) && (i < |m.open| ==> SlotOf(m, m.open[i]) < slot)
    ensures OpenOk(Inserted(m, slot, i))
  {
    InsertedAt(m, slot, i);
    var m' := Inserted(m, slot, i);
    InsertedAll(m, slot, i);
    forall j | i <= j < |m.open| ensures SlotOf(m, m.open[j]) < slot {
      if j > i { assert SlotOf(m, m.open[i]) > SlotOf(m, m.open[j]); }
    }
    hide Inserted;
    forall a, b | 0 <= a < b < |m'.open| ensures SlotOf(m', m'.open[a]) > SlotOf(m', m'.open[b]) {
      if b < i { assert SlotOf(m, m.open[a]) > SlotOf(m, m.open[b]); }
      else if a > i { assert SlotOf(m, m.open[a - 1]) > SlotOf(m, m.open[b - 1]); }
      else if a < i && b > i { assert SlotOf(m, m.open[a]) > slot > SlotOf(m, m.open[b - 1]); }
    }
  }

  lemma InsertedAll(m: Machine, slot: nat, i: nat)
    requires OpenOk(m) && i <= |m.open| && slot < |m.stack|
    ensures var m' := Inserted(m, slot, i);
      && (forall j :: 0 <= j < |m'.open| ==>
        m'.open[j] < |m'.up| && m'.up[m'.open[j]].Open? && m'.up[m'.open[j]].slot < |m'.stack|)
      && (forall u :: 0 <= u < |m'.up| && m'.up[u].Open? ==> u in m'.open)
  {
    InsertedAt(m, slot, i);
    var m' := Inserted(m, slot, i);
    assert forall u :: 0 <= u < |m.up| ==> m'.up[u] == m.up[u];
    forall u | 0 <= u < |m'.up| && m'.up[u].Open? ensures u in m'.open {
      hide Inserted;
      if u < |m.up| {
        var j :| 0 <= j < |m.open| && m.open[j] == u;
        assert m'.open[if j < i then j else j + 1] == u;
      } else {
        assert m'.open[i] == u;
      }
    }
  }

  lemma InsertedRefines(m: Machine, sp: Spec, cell: seq<nat>, slot: nat, i: nat)
    requires Refines(m, sp, cell) && i <= |m.open| && slot < |m.stack|
    requires (forall j :: 0 <= j < i ==> SlotOf(m, m.open[j]) > slot) && (i < |m.open| ==> SlotOf(m, m.open[i]) < slot)
    ensures Refines(Inserted(m, slot, i), sp, cell + [sp.scope[slot]])
  {
    InsertedOpen(m, slot, i);
    var m', cell' := Inserted(m, slot, i), cell + [sp.scope[slot]];
    forall u | 0 <= u < |m.up| ensures cell[u] != sp.scope[slot] {
      assert UpvalOk(m, sp, cell, u);
      if m.up[u].Open? {
        var j :| 0 <= j < |m.open| && m.open[j] == u;
        assert SlotOf(m, m.open[j]) != slot by { if j > i { assert SlotOf(m, m.open[i]) > SlotOf(m, m.open[j]); } }
      }
    }
    forall u | 0 <= u < |m'.up| ensures UpvalOk(m', sp, cell', u) { assert u < |m.up| ==> UpvalOk(m, sp, cell, u); }
  }

  class Frame {
    var m: Machine

    constructor ()
      ensures m == Machine([], [], [], [], [])
    {
      m := Machine([], [], [], [], []);
    }

    /** luaF_findupval (lfunc.c:53-79): the upvalue open at `slot`, a new one only if there is none. */
    method FindUpval(slot: nat, ghost sp: Spec, ghost cell: seq<nat>) returns (u: nat, ghost cell': seq<nat>)
      requires Refines(m, sp, cell) && slot < |m.stack|
      modifies this
      ensures Refines(m, sp, cell') && u < |m.up| && cell'[u] == sp.scope[slot] && m.up[u] == Open(slot)
      ensures m.caps == old(m).caps && m.out == old(m).out && m.stack == old(m).stack
    {
      var i := 0;
      while i < |m.open| && m.up[m.open[i]].slot >= slot
        invariant 0 <= i <= |m.open| && m == old(m)
        invariant forall j :: 0 <= j < i ==> SlotOf(m, m.open[j]) > slot
      {
        if m.up[m.open[i]].slot == slot {
          assert UpvalOk(m, sp, cell, m.open[i]);
          return m.open[i], cell;
        }
        i := i + 1;
      }
      InsertedRefines(m, sp, cell, slot, i);
      u, cell' := |m.up|, cell + [sp.scope[slot]];
      m := Inserted(m, slot, i);
    }

    /** luaF_close (lfunc.c:96-112): every upvalue open at `level` or above takes its value with it, and no
        value seen through any upvalue changes. */
    method Close(level: nat)
      requires OpenOk(m)
      modifies this
      ensures OpenOk(m) && m == old(m).(up := m.up, open := m.open) && |m.up| == |old(m).up|
      ensures forall u :: 0 <= u < |m.up| ==> CloseAt(old(m), m, level, u)
    {
      ghost var m0 := m;
      while m.open != [] && m.up[m.open[0]].slot >= level
        invariant OpenOk(m) && m == m0.(up := m.up, open := m.open) && |m.up| == |m0.up|
        invariant forall u :: 0 <= u < |m.up| ==>
          m.up[u] == m0.up[u] || (CloseAt(m0, m, level, u) && m0.up[u].Open? && m0.up[u].slot >= level)
        decreases |m.open|
      {
        var u := m.open[0];
        ghost var m1 := m;
        m := m.(up := m.up[u := Closed(m.stack[m.up[u].slot])], open := m.open[1..]);
        HeadClosed(m1, m);
      }
      forall u | 0 <= u < |m.up| ensures CloseAt(m0, m, level, u) {
        if m.up[u] == m0.up[u] && m.up[u].Open? {
          var j :| 0 <= j < |m.open| && m.open[j] == u;
          assert j > 0 ==> SlotOf(m, m.open[0]) > SlotOf(m, m.open[j]);
        }
      }
    }
  }

  /** Upvalue `u` was open at `level` or above and is closed with its value, or is as it was. */
  ghost predicate CloseAt(m: Machine, m': Machine, level: nat, u: nat) {
    && u < |m.up| && u < |m'.up|
    && if m.up[u].Open? && level <= m.up[u].slot < |m.stack| then m'.up[u] == Closed(m.stack[m.up[u].slot])
      else m'.up[u] == m.up[u]
  }

  lemma HeadClosed(m: Machine, m': Machine)
    requires OpenOk(m) && m.open != []
    requires m' == m.(up := m.up[m.open[0] := Closed(m.stack[m.up[m.open[0]].slot])], open := m.open[1..])
    ensures OpenOk(m')
  {
    var h := m.open[0];
    forall i | 0 <= i < |m'.open| ensures m'.open[i] == m.open[i + 1] && m'.open[i] != h {
      assert SlotOf(m, m.open[0]) > SlotOf(m, m.open[i + 1]);
    }
    assert forall u :: 0 <= u < |m.up| && u != h ==> SlotOf(m', u) == SlotOf(m, u);
    forall u | 0 <= u < |m'.up| && m'.up[u].Open? ensures u in m'.open {
      var j :| 0 <= j < |m.open| && m.open[j] == u;
      assert m'.open[j - 1] == u;
    }
  }

  /** After a close the locals from `level` on are gone, and their cells live on in the closed upvalues. */
  lemma CloseRefines(m: Machine, m1: Machine, sp: Spec, cell: seq<nat>, level: nat)
    requires Refines(m, sp, cell) && level < |m.stack| && OpenOk(m1) && m1 == m.(up := m1.up, open := m1.open)
    requires |m1.up| == |m.up|
    requires forall u :: 0 <= u < |m.up| ==> CloseAt(m, m1, level, u)
    ensures Refines(m1.(stack := m.stack[..level]), sp.(scope := sp.scope[..level]), cell)
  {
    var m', sp' := m1.(stack := m.stack[..level]), sp.(scope := sp.scope[..level]);
    assert forall u :: 0 <= u < |m.up| ==> SlotOf(m', u) == SlotOf(m1, u);
    forall u | 0 <= u < |m'.up| ensures UpvalOk(m', sp', cell, u) {
      assert UpvalOk(m, sp, cell, u) && CloseAt(m, m1, level, u);
    }
    forall i | 0 <= i < |m'.open| ensures m'.up[m'.open[i]].Open? && m'.up[m'.open[i]].slot < |m'.stack| {
      assert CloseAt(m, m1, level, m'.open[i]);
    }
  }

  /** One operation, on the machine and on the cells. */
  method Perform(f: Frame, op: Op, ghost sp: Spec, ghost cell: seq<nat>) returns (ghost cell': seq<nat>)
    requires Refines(f.m, sp, cell)
    modifies f
    ensures Refines(f.m, SpecStep(sp, op), cell') && f.m.out == SpecStep(sp, op).out
  {
    cell' := cell;
    SizesAgree(f.m, sp, cell);
    hide Refines, UpvalOk, OpenOk;
    match op
    case Declare(v) =>
      DeclareRefines(f.m, sp, cell, v);
      f.m := f.m.(stack := f.m.stack + [v]);
    case GetLocal(s) =>
      if s < |f.m.stack| {
        OutRefines(f.m, sp, cell, f.m.stack[s]);
        f.m := f.m.(out := f.m.out + [f.m.stack[s]]);
      }
    case SetLocal(s, v) =>
      if s < |f.m.stack| {
        WriteSlot(f.m, sp, cell, s, v);
        f.m := f.m.(stack := f.m.stack[s := v]);
      }
    case Capture(s) =>
      if s < |f.m.stack| {
        var u;
        u, cell' := f.FindUpval(s, sp, cell);
        CapRefines(f.m, sp, cell', u);
        f.m := f.m.(caps := f.m.caps + [u]);
      }
    case GetUpval(k) =>
      if k < |f.m.caps| {
        SeenIs(f.m, sp, cell, f.m.caps[k]);
        OutRefines(f.m, sp, cell, Seen(f.m, f.m.caps[k]));
        f.m := f.m.(out := f.m.out + [Seen(f.m, f.m.caps[k])]);
      }
    case SetUpval(k, v) =>
      if k < |f.m.caps| {
        var u := f.m.caps[k];
        SeenIs(f.m, sp, cell, u);
        match f.m.up[u]
        case Open(s) =>
          OpenCell(f.m, sp, cell, u);
          WriteSlot(f.m, sp, cell, s, v);
          f.m := f.m.(stack := f.m.stack[s := v]);
        case Closed(_) =>
          WriteClosed(f.m, sp, cell, u, v);
          f.m := f.m.(up := f.m.up[u := Closed(v)]);
      }
    case Leave(level) =>
      if level < |f.m.stack| {
        ghost var m0 := f.m;
        f.Close(level);
        CloseRefines(m0, f.m, sp, cell, level);
        f.m := f.m.(stack := f.m.stack[..level]);
      }
  }

  lemma SizesAgree(m: Machine, sp: Spec, cell: seq<nat>)
    requires Refines(m, sp, cell)
    ensures SpecOk(sp) && |m.stack| == |sp.scope| && |m.caps| == |sp.caps| && OpenOk(m) && |cell| == |m.up|
    ensures m.out == sp.out
    ensures forall s :: 0 <= s < |m.stack| ==> m.stack[s] == sp.cells[sp.scope[s]]
    ensures forall k :: 0 <= k < |m.caps| ==> m.caps[k] < |m.up| && cell[m.caps[k]] == sp.caps[k]
  {}

  lemma OutRefines(m: Machine, sp: Spec, cell: seq<nat>, v: Value)
    requires Refines(m, sp, cell)
    ensures Refines(m.(out := m.out + [v]), sp.(out := sp.out + [v]), cell)
  {
    var m', sp' := m.(out := m.out + [v]), sp.(out := sp.out + [v]);
    assert forall u :: SlotOf(m', u) == SlotOf(m, u);
    forall u | 0 <= u < |m'.up| ensures UpvalOk(m', sp', cell, u) { assert UpvalOk(m, sp, cell, u); }
  }

  lemma CapRefines(m: Machine, sp: Spec, cell: seq<nat>, u: nat)
    requires Refines(m, sp, cell) && u < |m.up|
    ensures cell[u] < |sp.cells| && Refines(m.(caps := m.caps + [u]), sp.(caps := sp.caps + [cell[u]]), cell)
  {
    var m', sp' := m.(caps := m.caps + [u]), sp.(caps := sp.caps + [cell[u]]);
    assert UpvalOk(m, sp, cell, u);
    assert forall x :: SlotOf(m', x) == SlotOf(m, x);
    forall x | 0 <= x < |m'.up| ensures UpvalOk(m', sp', cell, x) { assert UpvalOk(m, sp, cell, x); }
  }

  lemma OpenCell(m: Machine, sp: Spec, cell: seq<nat>, u: nat)
    requires Refines(m, sp, cell) && u < |m.up| && m.up[u].Open?
    ensures m.up[u].slot < |sp.scope| && sp.scope[m.up[u].slot] == cell[u]
  {
    assert UpvalOk(m, sp, cell, u);
  }

  lemma DeclareRefines(m: Machine, sp: Spec, cell: seq<nat>, v: Value)
    requires Refines(m, sp, cell)
    ensures Refines(m.(stack := m.stack + [v]), SpecStep(sp, Declare(v)), cell)
  {
    var m', sp' := m.(stack := m.stack + [v]), SpecStep(sp, Declare(v));
    assert forall u :: 0 <= u < |m.up| ==> SlotOf(m', u) == SlotOf(m, u);
    forall u | 0 <= u < |m'.up| ensures UpvalOk(m', sp', cell, u) { assert UpvalOk(m, sp, cell, u); }
  }

  /** Every program reads the same values from stack slots and upvalues as from shared cells. */
  method RunProgram(ops: seq<Op>) returns (out: seq<Value>)
    ensures out == SpecRun(ops).out
  {
    var f := new Frame();
    ghost var cell := [];
    NothingRun(f.m, ops);
    hide Refines, SpecStep, SpecRun, SpecOk;
    for i := 0 to |ops|
      invariant Refines(f.m, SpecRun(ops[..i]), cell) && f.m.out == SpecRun(ops[..i]).out && fresh(f)
    {
      RunNext(ops, i);
      cell := Perform(f, ops[i], SpecRun(ops[..i]), cell);
    }
    assert ops[..|ops|] == ops;
    out := f.m.out;
  }

  lemma NothingRun(m: Machine, ops: seq<Op>)
    requires m == Machine([], [], [], [], [])
    ensures Refines(m, SpecRun(ops[..0]), []) && m.out == SpecRun(ops[..0]).out
  {
    assert ops[..0] == [];
  }

  lemma RunNext(ops: seq<Op>, i: nat)
    requires i < |ops|
    ensures SpecRun(ops[..i + 1]) == SpecStep(SpecRun(ops[..i]), ops[i])
  {
    assert ops[..i + 1][..i] == ops[..i] && ops[..i + 1][i] == ops[i];
  }

  // ----- what a program reads -----

  /** How many locals are in scope, and how many variables have been captured, after a program. */
  function Locals(ops: seq<Op>): nat {
    if ops == [] then 0
    else
      var n, op := Locals(ops[..|ops| - 1]), ops[|ops| - 1];
      match op
      case Declare(_) => n + 1
      case Leave(level) => if level < n then level else n
      case _ => n
  }

  function Captures(ops: seq<Op>): nat {
    if ops == [] then 0
    else
      var op := ops[|ops| - 1];
      Captures(ops[..|ops| - 1]) + if op.Capture? && op.slot < Locals(ops[..|ops| - 1]) then 1 else 0
  }

  lemma {:induction false} Counts(ops: seq<Op>)
    ensures |SpecRun(ops).scope| == Locals(ops) && |SpecRun(ops).caps| == Captures(ops)
  {
    if ops != [] { Counts(ops[..|ops| - 1]); }
  }

  /** What the program `ops` reads. */
  function Reads(ops: seq<Op>): seq<Value> { SpecRun(ops).out }

  lemma OneMore(ops: seq<Op>, op: Op)
    ensures SpecRun(ops + [op]) == SpecStep(SpecRun(ops), op)
  {
    assert (ops + [op])[..|ops|] == ops;
  }

  lemma TwoMore(ops: seq<Op>, a: Op, b: Op)
    ensures SpecRun(ops + [a, b]) == SpecStep(SpecStep(SpecRun(ops), a), b)
  {
    assert ops + [a, b] == (ops + [a]) + [b];
    OneMore(ops, a);
    OneMore(ops + [a], b);
  }

  lemma ThreeMore(ops: seq<Op>, a: Op, b: Op, c: Op)
    ensures SpecRun(ops + [a, b, c]) == SpecStep(SpecRun(ops + [a, b]), c)
  {
    assert ops + [a, b, c] == (ops + [a, b]) + [c];
    OneMore(ops + [a, b], c);
  }

  /** A local has the value it was declared with or last set to, and setting it leaves the others alone. */
  lemma LocalsMean(ops: seq<Op>, s: nat, t: nat, v: Value)
    requires s < Locals(ops) && t < Locals(ops) && t != s
    ensures Reads(ops + [Declare(v), GetLocal(Locals(ops))]) == Reads(ops) + [v]
    ensures Reads(ops + [Declare(v), GetLocal(s)]) == Reads(ops + [GetLocal(s)])
    ensures Reads(ops + [SetLocal(s, v), GetLocal(s)]) == Reads(ops) + [v]
    ensures Reads(ops + [SetLocal(s, v), GetLocal(t)]) == Reads(ops + [GetLocal(t)])
  {
    Counts(ops);
    TwoMore(ops, Declare(v), GetLocal(Locals(ops)));
    TwoMore(ops, Declare(v), GetLocal(s));
    TwoMore(ops, SetLocal(s, v), GetLocal(s));
    TwoMore(ops, SetLocal(s, v), GetLocal(t));
    OneMore(ops, GetLocal(s));
    OneMore(ops, GetLocal(t));
    hide SpecRun, Locals;
  }

  /** A captured variable is the local itself: what is written to one is read from the other. */
  lemma CapturesMean(ops: seq<Op>, s: nat, v: Value)
    requires s < Locals(ops)
    ensures var k := Captures(ops);
      && Reads(ops + [Capture(s), GetUpval(k)]) == Reads(ops + [GetLocal(s)])
      && Reads(ops + [Capture(s), SetLocal(s, v), GetUpval(k)]) == Reads(ops) + [v]
      && Reads(ops + [Capture(s), SetUpval(k, v), GetLocal(s)]) == Reads(ops) + [v]
  {
    var k := Captures(ops);
    Counts(ops);
    OneMore(ops, GetLocal(s));
    OneMore(ops, Capture(s));
    TwoMore(ops, Capture(s), GetUpval(k));
    TwoMore(ops, Capture(s), SetLocal(s, v));
    ThreeMore(ops, Capture(s), SetLocal(s, v), GetUpval(k));
    TwoMore(ops, Capture(s), SetUpval(k, v));
    ThreeMore(ops, Capture(s), SetUpval(k, v), GetLocal(s));
    hide SpecRun, Locals, Captures;
  }

  /** Two captures of a local are the same variable. */
  lemma CapturedTwice(ops: seq<Op>, s: nat, v: Value)
    requires s < Locals(ops)
    ensures var k := Captures(ops);
      Reads(ops + [Capture(s), Capture(s)] + [SetUpval(k, v), GetUpval(k + 1)]) == Reads(ops) + [v]
  {
    var k := Captures(ops);
    Counts(ops);
    TwoMore(ops, Capture(s), Capture(s));
    TwoMore(ops + [Capture(s), Capture(s)], SetUpval(k, v), GetUpval(k + 1));
    hide SpecRun, Locals, Captures;
  }

  /** A captured variable outlives the scope of its local and the reuse of its slot. */
  lemma LeavesMean(ops: seq<Op>, level: nat, s: nat, v: Value)
    requires level <= s < Locals(ops)
    ensures var k := Captures(ops);
      && Reads(ops + [Capture(s), Leave(level)] + [GetUpval(k)]) == Reads(ops + [GetLocal(s)])
      && Reads(ops + [Capture(s), Leave(level)] + [Declare(v), GetUpval(k)]) == Reads(ops + [GetLocal(s)])
      && Reads(ops + [Leave(level), Declare(v), GetLocal(level)]) == Reads(ops) + [v]
  {
    var k := Captures(ops);
    Counts(ops);
    OneMore(ops, GetLocal(s));
    TwoMore(ops, Capture(s), Leave(level));
    OneMore(ops + [Capture(s), Leave(level)], GetUpval(k));
    TwoMore(ops + [Capture(s), Leave(level)], Declare(v), GetUpval(k));
    TwoMore(ops, Leave(level), Declare(v));
    ThreeMore(ops, Leave(level), Declare(v), GetLocal(level));
    hide SpecRun, Locals, Captures;
  }
}
