/** Every run: any interleaving of collector steps, full collections and mutator operations. */
module GcRun {
  import opened GcHeap
  import opened GcMark
  import opened GcAtomic
  import opened GcInvariant
  import opened GcSweep
  import opened GcCollect
  import opened GcRetain
  import opened GcFull
  import opened GcBarrier
  import opened GcMutator

  /** Operations work on the main thread's stack: an operand is the value in a stack slot, so that
      the program holds only what it has been given. `th` names a thread: 0 for the main thread, i+1 for
      the thread in slot i. `at` is the address the allocator returns. Operands that do not fit make an
      operation do nothing. */
  datatype Op =
    | CollectorStep
    | FullCollection
    | PushNil
    | PushPrim
    | PushRegistry
    | PushMetatable(k: nat)
    | PushPart(i: nat, k: nat)
    | PushCopy(th: nat, j: nat)
    | Overwrite(th: nat, k: nat, j: nat)
    | SetTop(th: nat, n: nat)
    | SetGlobals(th: nat, j: nat)
    | SetBasicMetatable(k: nat, j: nat)
    | NewBlock(kind: BlockKind, slots: seq<nat>, at: Ref)
    | NewTable(narr: nat, nnode: nat, at: Ref)
    | NewThread(at: Ref)
    | NewString(bucket: nat, at: Ref)
    | FindString(bucket: nat, k: nat)
    | Capture(th: nat, slot: nat, at: Ref)
    | SetField(i: nat, k: nat, j: nat)
    | SetUpvalue(i: nat, j: nat)
    | SetArray(i: nat, k: nat, j: nat)
    | SetEntry(i: nat, k: nat, key: nat, j: nat)
    | SetKey(i: nat, k: nat, j: nat)
    | Rearrange(i: nat, arr: seq<Value>, nodes: seq<Node>)
    | SetMetatable(i: nat, j: nat)
    | SetMode(i: nat, mode: Weakness)

  predicate HasMain(g: Global) { IsThread(g.heap, g.mainthread) }

  function Arg(g: Global, i: nat): Value
    requires HasMain(g)
  {
    var s := g.heap[g.mainthread].body.stack;
    if i < |s| then s[i] else Nil
  }

  /** The object in slot `i`, or the main thread. */
  function ArgObject(g: Global, i: nat): Ref
    requires HasMain(g)
  {
    var v := Arg(g, i);
    if v.Obj? && v.ref in g.heap then v.ref else g.mainthread
  }

  function ArgThread(g: Global, th: nat): Ref
    requires HasMain(g)
    ensures IsThread(g.heap, ArgThread(g, th))
  {
    if th > 0 && g.heap[ArgObject(g, th - 1)].body.Thread? then ArgObject(g, th - 1) else g.mainthread
  }

  lemma ArgsAccessible(g: Global, i: nat)
    requires Inv(g)
    ensures HasMain(g) && !Doomed(g, g.mainthread) && Accessible(g, Arg(g, i))
    ensures ArgObject(g, i) in g.heap && !Doomed(g, ArgObject(g, i)) && !Doomed(g, ArgThread(g, i))
  {
    StackAccessible(g, i);
    if i > 0 { StackAccessible(g, i - 1); }
  }

  lemma StackAccessible(g: Global, i: nat)
    requires Inv(g)
    ensures HasMain(g) && !Doomed(g, g.mainthread) && Accessible(g, Arg(g, i))
  {
    var v := Arg(g, i);
    assert v.Obj? ==> Edge(g.heap, g.mainthread, v.ref);
  }

  // ----- writes -----

  datatype Write = NoWrite | Write(target: Ref, body: Body, value: Value)

  function PushOn(g: Global, t: Ref, v: Value): Write
    requires IsThread(g.heap, t)
  {
    Write(t, g.heap[t].body.(stack := g.heap[t].body.stack + [v]), v)
  }

  predicate MovedValue(vs: seq<Value>, v: Value) { v.Obj? ==> v in vs }

  /** Entries that a rehash or the relocation of a node may leave in a table that held `vs`. */
  predicate MovedNode(b: Body, vs: seq<Value>, n: Node) {
    if n.val == Nil then n.key.Obj? ==> KeyOf(b, n.key.ref) else MovedValue(vs, n.key) && MovedValue(vs, n.val)
  }

  predicate Moved(h: Heap, b: Body, arr: seq<Value>, nodes: seq<Node>) {
    var vs := Contents(h, b, STRONG);
    && (forall v :: v in arr ==> MovedValue(vs, v))
    && (forall n :: n in nodes ==> MovedNode(b, vs, n))
  }

  /** The write an operation makes, and the value its barrier looks at. */
  function WriteOf(g: Global, op: Op): Write
    requires HasMain(g)
  {
    match op
    case PushNil => PushOn(g, g.mainthread, Nil)
    case PushPrim => PushOn(g, g.mainthread, Prim)
    case PushRegistry => PushOn(g, g.mainthread, g.registry)
    case PushMetatable(k) => if k < |g.mt| then PushOn(g, g.mainthread, g.mt[k]) else NoWrite
    case PushPart(i, k) =>
      var vs := Contents(g.heap, g.heap[ArgObject(g, i)].body, STRONG);
      if k < |vs| then PushOn(g, g.mainthread, vs[k]) else NoWrite
    case PushCopy(th, j) => PushOn(g, ArgThread(g, th), Arg(g, j))
    case Overwrite(th, k, j) =>
      var t := ArgThread(g, th);
      var b := g.heap[t].body;
      if k < |b.stack| then Write(t, b.(stack := b.stack[k := Arg(g, j)]), Arg(g, j)) else NoWrite
    case SetGlobals(th, j) =>
      var t := ArgThread(g, th);
      Write(t, g.heap[t].body.(gt := Arg(g, j)), Arg(g, j))
    case SetField(i, k, j) =>
      var r := ArgObject(g, i);
      var b := g.heap[r].body;
      if b.Block? && k < |b.fields| then Write(r, b.(fields := b.fields[k := Arg(g, j)]), Arg(g, j)) else NoWrite
    case SetUpvalue(i, j) =>
      var r := ArgObject(g, i);
      var b := g.heap[r].body;
      if b.UpVal? && b.cell.Closed? then Write(r, UpVal(Closed(Arg(g, j))), Arg(g, j)) else NoWrite
    case SetArray(i, k, j) =>
      var r := ArgObject(g, i);
      var b := g.heap[r].body;
      if b.Table? && k < |b.arr| then Write(r, b.(arr := b.arr[k := Arg(g, j)]), Arg(g, j)) else NoWrite
    case SetEntry(i, k, key, j) =>
      var r := ArgObject(g, i);
      var b := g.heap[r].body;
      if b.Table? && k < |b.nodes| && b.nodes[k].key == Arg(g, key)
      then Write(r, b.(nodes := b.nodes[k := Node(Arg(g, key), Arg(g, j))]), Arg(g, j)) else NoWrite
    case SetKey(i, k, j) =>
      var r := ArgObject(g, i);
      var b := g.heap[r].body;
      if b.Table? && k < |b.nodes| && b.nodes[k].val == Nil
      then Write(r, b.(nodes := b.nodes[k := Node(Arg(g, j), Nil)]), Arg(g, j)) else NoWrite
    case Rearrange(i, arr, nodes) =>
      var r := ArgObject(g, i);
      var b := g.heap[r].body;
      if b.Table? && Moved(g.heap, b, arr, nodes) then Write(r, b.(arr := arr, nodes := nodes), Nil) else NoWrite
    case SetMetatable(i, j) =>
      var r := ArgObject(g, i);
      var b := g.heap[r].body;
      if b.Table? then Write(r, b.(metatable := Arg(g, j)), Arg(g, j)) else NoWrite
    case SetMode(i, mode) =>
      var r := ArgObject(g, i);
      var b := g.heap[r].body;
      if b.Table? then Write(r, b.(mode := mode), Nil) else NoWrite
    case _ => NoWrite
  }

  lemma {:induction false} NodeValuesFrom(nodes: seq<Node>, x: Value)
    requires x in NodeValues(nodes, true, true)
    ensures exists n :: n in nodes && n.val != Nil && (x == n.key || x == n.val)
  {
    var k := |nodes| - 1;
    if x in NodeValues(nodes[..k], true, true) {
      NodeValuesFrom(nodes[..k], x);
      var n :| n in nodes[..k] && n.val != Nil && (x == n.key || x == n.val);
      assert n in nodes;
    } else {
      assert nodes[k] in nodes;
    }
  }

  /** What a thread or a block holds after one of its values is replaced. */
  lemma ReplacedIn(vs: seq<Value>, k: nat, v: Value, x: Value)
    requires k < |vs| && x in vs[k := v]
    ensures x in vs || x == v
  {
    var i :| 0 <= i < |vs| && vs[k := v][i] == x;
    assert i != k ==> vs[i] == x;
  }

  /** Writes to a table: whatever it holds afterwards it held before, or is the key or value stored. */
  lemma TableWrite(g: Global, op: Op, q: Ref)
    requires HasMain(g) && WriteOf(g, op).Write? && WriteOf(g, op).body.Table?
    ensures WriteOf(g, op).target in g.heap && g.heap[WriteOf(g, op).target].body.Table?
    ensures var w := WriteOf(g, op); var b := g.heap[w.target].body;
      (Obj(q) in Contents(g.heap, w.body, STRONG) || KeyOf(w.body, q)) ==>
        || Obj(q) in Contents(g.heap, b, STRONG)
        || KeyOf(b, q)
        || Obj(q) == w.value
  {
    var w := WriteOf(g, op);
    var b := g.heap[w.target].body;
    if Obj(q) in NodeValues(w.body.nodes, true, true) {
      NodeValuesFrom(w.body.nodes, Obj(q));
      var n :| n in w.body.nodes && n.val != Nil && (Obj(q) == n.key || Obj(q) == n.val);
      if n in b.nodes {
        var i :| 0 <= i < |b.nodes| && b.nodes[i] == n;
        NodeIn(b.nodes, i);
      }
    } else if KeyOf(w.body, q) {
      var i :| 0 <= i < |w.body.nodes| && w.body.nodes[i].key == Obj(q);
      assert w.body.nodes[i] in w.body.nodes;
      if op.Rearrange? { assert MovedNode(b, Contents(g.heap, b, STRONG), w.body.nodes[i]); }
    } else if op.SetArray? && Obj(q) in w.body.arr {
      ReplacedIn(b.arr, op.k, w.value, Obj(q));
    }
  }

  lemma HeldAccessible(g: Global, r: Ref)
    requires Inv(g) && r in g.heap && !Doomed(g, r)
    ensures AllAccessible(g, Contents(g.heap, g.heap[r].body, STRONG))
  {
    forall v | v in Contents(g.heap, g.heap[r].body, STRONG) ensures Accessible(g, v) {
      assert v.Obj? ==> Edge(g.heap, r, v.ref);
    }
  }

  lemma TableAccessible(g: Global, op: Op, x: Value)
    requires Inv(g) && HasMain(g) && WriteOf(g, op).Write? && WriteOf(g, op).body.Table?
    requires x in Contents(g.heap, WriteOf(g, op).body, STRONG)
    ensures Accessible(g, x)
  {
    hide Inv;
    var w := WriteOf(g, op);
    ArgsAccessible(g, op.i);
    HeldAccessible(g, w.target);
    var b := g.heap[w.target].body;
    if op.SetArray? || op.SetEntry? || op.SetKey? || op.SetMetatable? { ArgsAccessible(g, op.j); }
    if op.SetEntry? { ArgsAccessible(g, op.key); }
    if x in NodeValues(w.body.nodes, true, true) {
      NodeFrom(g, b, w.body.nodes, x);
    } else if op.SetArray? && x in w.body.arr {
      ReplacedIn(b.arr, op.k, w.value, x);
    }
  }

  /** A value of a node list is one of the table's, or comes from a node that is not the table's. */
  lemma NodeFrom(g: Global, b: Body, nodes: seq<Node>, x: Value)
    requires b.Table? && x in NodeValues(nodes, true, true)
    ensures
      || x in Contents(g.heap, b, STRONG)
      || exists n :: n in nodes && n !in b.nodes && n.val != Nil && (x == n.key || x == n.val)
  {
    NodeValuesFrom(nodes, x);
    var n :| n in nodes && n.val != Nil && (x == n.key || x == n.val);
    if n in b.nodes {
      var i :| 0 <= i < |b.nodes| && b.nodes[i] == n;
      NodeIn(b.nodes, i);
    }
  }

  lemma OtherAccessible(g: Global, op: Op, x: Value)
    requires Inv(g) && HasMain(g) && WriteOf(g, op).Write? && !WriteOf(g, op).body.Table?
    requires x in Contents(g.heap, WriteOf(g, op).body, STRONG)
    ensures Accessible(g, x)
  {
    var w := WriteOf(g, op);
    ValueAccessible(g, op);
    hide Inv;
    TargetWritable(g, op);
    HeldAccessible(g, w.target);
    var b := g.heap[w.target].body;
    if op.Overwrite? && x in w.body.stack { ReplacedIn(b.stack, op.k, w.value, x); }
    if op.SetField? && x in w.body.fields { ReplacedIn(b.fields, op.k, w.value, x); }
  }

  lemma TargetWritable(g: Global, op: Op)
    requires Inv(g) && HasMain(g) && WriteOf(g, op).Write?
    ensures Writable(g, WriteOf(g, op).target) && Compatible(g.heap[WriteOf(g, op).target].body, WriteOf(g, op).body)
  {
    hide Inv;
    ArgsAccessible(g, 0);
    match op
    case PushCopy(th, _) => ArgsAccessible(g, th);
    case Overwrite(th, _, _) => ArgsAccessible(g, th);
    case SetGlobals(th, _) => ArgsAccessible(g, th);
    case SetField(i, _, _) => ArgsAccessible(g, i);
    case SetUpvalue(i, _) => ArgsAccessible(g, i);
    case SetArray(i, _, _) => ArgsAccessible(g, i);
    case SetEntry(i, _, _, _) => ArgsAccessible(g, i);
    case SetKey(i, _, _) => ArgsAccessible(g, i);
    case Rearrange(i, _, _) => ArgsAccessible(g, i);
    case SetMetatable(i, _) => ArgsAccessible(g, i);
    case SetMode(i, _) => ArgsAccessible(g, i);
    case _ =>
  }

  lemma RootsAccessible(g: Global)
    requires Inv(g)
    ensures forall v :: v in RootValues(g) ==> Accessible(g, v)
    ensures g.registry in RootValues(g) && forall v :: v in g.mt ==> v in RootValues(g)
  {}

  lemma ValueAccessible(g: Global, op: Op)
    requires Inv(g) && HasMain(g) && WriteOf(g, op).Write?
    ensures Accessible(g, WriteOf(g, op).value)
  {
    RootsAccessible(g);
    hide Inv, RootValues, Doomed, Contents, Moved;
    match op
    case PushRegistry => assert g.registry in RootValues(g);
    case PushMetatable(k) => assert g.mt[k] in g.mt;
    case PushPart(i, _) => ArgsAccessible(g, i); HeldAccessible(g, ArgObject(g, i));
    case PushCopy(_, j) => ArgsAccessible(g, j);
    case Overwrite(_, _, j) => ArgsAccessible(g, j);
    case SetGlobals(_, j) => ArgsAccessible(g, j);
    case SetField(_, _, j) => ArgsAccessible(g, j);
    case SetUpvalue(_, j) => ArgsAccessible(g, j);
    case SetArray(_, _, j) => ArgsAccessible(g, j);
    case SetEntry(_, _, _, j) => ArgsAccessible(g, j);
    case SetKey(_, _, j) => ArgsAccessible(g, j);
    case SetMetatable(_, j) => ArgsAccessible(g, j);
    case _ =>
  }

  lemma OpenSlots(g: Global)
    requires Inv(g)
    ensures forall u, t :: OpenOn(g.heap, u, t) ==>
      IsThread(g.heap, t) && g.heap[u].body.cell.slot < |g.heap[t].body.stack|
  {
    hide NoDangling, PhaseOk;
  }

  lemma WriteSlots(g: Global, op: Op)
    requires Inv(g) && HasMain(g) && WriteOf(g, op).Write?
    ensures SlotsStay(g.heap, WriteOf(g, op).target, WriteOf(g, op).body)
  {
    var w := WriteOf(g, op);
    OpenSlots(g);
    hide Inv, Contents;
    forall u | OpenOn(g.heap, u, w.target) ensures w.body.Thread? && g.heap[u].body.cell.slot < |w.body.stack| {
      assert IsThread(g.heap, w.target);
    }
  }

  lemma WriteDerived(g: Global, op: Op)
    requires HasMain(g) && WriteOf(g, op).Write? && !WriteOf(g, op).body.Thread?
    ensures WriteOf(g, op).target in g.heap
    ensures Derived(g.heap, g.heap[WriteOf(g, op).target].body, WriteOf(g, op).body, WriteOf(g, op).value)
  {
    var w := WriteOf(g, op);
    var b := g.heap[w.target].body;
    forall q | Obj(q) in Contents(g.heap, w.body, STRONG) || KeyOf(w.body, q)
      ensures Obj(q) in Contents(g.heap, b, STRONG) || KeyOf(b, q) || w.value == Obj(q)
    {
      if w.body.Table? {
        TableWrite(g, op, q);
      } else if op.SetField? {
        ReplacedIn(b.fields, op.k, w.value, Obj(q));
      }
    }
  }

  /** Every write stores a value the program holds. */
  lemma WriteMayStore(g: Global, op: Op)
    requires Inv(g) && HasMain(g) && WriteOf(g, op).Write?
    ensures var w := WriteOf(g, op); MayStore(g, w.target, w.body, w.value)
  {
    hide Inv, WriteOf;
    var w := WriteOf(g, op);
    TargetWritable(g, op);
    ValueAccessible(g, op);
    WriteSlots(g, op);
    if !w.body.Thread? { WriteDerived(g, op); }
    forall x | x in Contents(g.heap, w.body, STRONG) ensures Accessible(g, x) {
      if w.body.Table? { TableAccessible(g, op, x); } else { OtherAccessible(g, op, x); }
    }
  }

  // ----- one operation -----

  /** No object the program can reach is freed, not even one it reaches through weak references. */
  ghost predicate FreesUnreachable(g: Global, g': Global) {
    forall r :: r in g.heap && r !in g'.heap ==> !Reachable(g, r)
  }

  ghost predicate KeepsStrong(g: Global, g': Global) {
    forall r :: StrongReachable(RootValues(g), g.heap, r) ==> r in g'.heap
  }

  /** A full collection clears weak references and so may free what only they reach. */
  ghost predicate Safe(g: Global, op: Op, g': Global) {
    KeepsStrong(g, g') && (op.FullCollection? || FreesUnreachable(g, g'))
  }

  lemma {:induction false} StrongIsReachable(g: Global, p: Trail)
    requires StrongPath(RootValues(g), g.heap, p)
    ensures Path(g, p)
  {
    if p.Step? {
      StrongIsReachable(g, p.prev);
      ChildrenAreContents(g.heap, p.prev.end, Obj(p.end));
    }
  }

  lemma DoomedSafe(g: Global, op: Op, g': Global)
    requires Inv(g) && forall r :: r in g.heap && r !in g'.heap ==> Doomed(g, r)
    ensures Safe(g, op, g')
  {
    ReachableSafe(g);
    forall r | StrongReachable(RootValues(g), g.heap, r) ensures r in g'.heap {
      var p :| StrongPath(RootValues(g), g.heap, p) && p.end == r;
      StrongIsReachable(g, p);
      assert Reachable(g, r);
    }
  }

  method DoWrite(c: Collector, op: Op)
    requires Inv(c.g) && HasMain(c.g)
    modifies c
    ensures Inv(c.g) && c.g.heap.Keys == old(c.g).heap.Keys && HasMain(c.g)
    ensures var w := WriteOf(old(c.g), op); if w.Write? then Stored(old(c.g), c.g, w.target, w.body)
      else c.g == old(c.g)
  {
    hide Inv, WriteOf;
    var w := WriteOf(c.g, op);
    if w.Write? {
      WriteMayStore(c.g, op);
      Store(c, w.target, w.body, w.value);
      ArgsAccessible(c.g, 0);
    }
  }

  /** The value is on the stack of the main thread, and nothing else shows. */
  ghost predicate Pushed(g: Global, g': Global, v: Value) {
    HasMain(g) && Stored(g, g', g.mainthread, PushOn(g, g.mainthread, v).body)
  }

  /** Put a new object on the stack. */
  method PushNew(c: Collector, v: Value)
    requires Inv(c.g) && HasMain(c.g) && Accessible(c.g, v)
    modifies c
    ensures Inv(c.g) && c.g.heap.Keys == old(c.g).heap.Keys
    ensures Pushed(old(c.g), c.g, v)
  {
    hide Inv;
    var w := PushOn(c.g, c.g.mainthread, v);
    PushMayStore(c.g, v);
    Store(c, w.target, w.body, w.value);
  }

  lemma PushMayStore(g: Global, v: Value)
    requires Inv(g) && HasMain(g) && Accessible(g, v)
    ensures var w := PushOn(g, g.mainthread, v); MayStore(g, w.target, w.body, w.value)
  {
    ArgsAccessible(g, 0);
    HeldAccessible(g, g.mainthread);
    forall u | OpenOn(g.heap, u, g.mainthread)
      ensures g.heap[u].body.cell.slot < |g.heap[g.mainthread].body.stack + [v]| {}
  }

  method Allocate(c: Collector, r: Ref, b: Body)
    requires Inv(c.g) && HasMain(c.g) && Creatable(b) && AllAccessible(c.g, Contents(c.g.heap, b, STRONG))
    modifies c
    ensures Inv(c.g) && old(c.g).heap.Keys <= c.g.heap.Keys
    ensures if r in old(c.g).heap then c.g == old(c.g) else Pushed(Allocated(old(c.g), r, b), c.g, Obj(r))
  {
    if r !in c.g.heap {
      AllocatedInv(c.g, r, b);
      NewAccessible(c.g, r);
      hide Inv;
      c.g := Allocated(c.g, r, b);
      ArgsAccessible(c.g, 0);
      PushNew(c, Obj(r));
    }
  }

  lemma NewAccessible(g: Global, r: Ref)
    requires Inv(g)
    ensures IsWhite(g.white) && |g.strt| > 0
  {}

  /** A table as luaH_new makes it, of the given sizes. */
  function EmptyTable(narr: nat, nnode: nat): (b: Body)
    ensures Creatable(b) && forall h: Heap, v: Value :: v in Contents(h, b, STRONG) ==> !v.Obj?
  {
    var b := Table(Nil, STRONG, seq(narr, _ => Nil), seq(nnode, _ => Node(Nil, Nil)));
    assert forall h: Heap, v: Value :: v in Contents(h, b, STRONG) ==> !v.Obj? by {
      EmptyNodes(b.nodes);
    }
    b
  }

  lemma EmptyNodes(nodes: seq<Node>)
    requires forall n :: n in nodes ==> n.val == Nil
    ensures NodeValues(nodes, true, true) == []
  {
    if nodes != [] {
      assert nodes[|nodes| - 1] in nodes;
      assert forall n :: n in nodes[..|nodes| - 1] ==> n in nodes;
      EmptyNodes(nodes[..|nodes| - 1]);
    }
  }

  /** The body of the object an operation creates. */
  function NewBody(g: Global, op: Op): Body
    requires HasMain(g) && (op.NewBlock? || op.NewTable? || op.NewThread?)
  {
    match op
    case NewBlock(kind, slots, _) => Block(kind,
      seq(|slots|, i requires 0 <= i < |slots| && HasMain(g) => Arg(g, slots[i])))
    case NewTable(narr, nnode, _) => EmptyTable(narr, nnode)
    case NewThread(_) => Thread(g.heap[g.mainthread].body.gt, [], [])
  }

  /** The state before a string is put on the stack: it is new, or found and brought back if dead. */
  ghost predicate StringPushed(g: Global, op: Op, g': Global) {
    match op
    case NewString(i, at) =>
      if i < |g.strt| && at !in g.heap then Pushed(Interned(g, i, at), g', Obj(at)) else g' == g
    case FindString(i, k) =>
      if i < |g.strt| && k < |g.strt[i]| && g.strt[i][k] in g.heap then
        var r := g.strt[i][k];
        Pushed(if g.heap[r].color == Other(g.white) then Whiten(g, r) else g, g', Obj(r))
      else g' == g
    case _ => true
  }

  /** The slots from `n` on are gone, no upvalue is open on them, and those that were hold their values. */
  ghost predicate TopSet(g: Global, t: Ref, n: nat, g': Global) {
    if IsThread(g.heap, t) && n <= |g.heap[t].body.stack| then
      && IsThread(g'.heap, t) && g'.heap[t].body.stack == g.heap[t].body.stack[..n]
      && g'.heap[t].body.gt == g.heap[t].body.gt && Unopened(g', t, n)
      && (forall x :: x in g'.heap ==> x in g.heap)
      && (forall x :: x in g'.heap && x != t ==> ClosedBody(g.heap, t, n, x, g'.heap[x].body))
      && (forall x :: x in g.heap && x !in g'.heap ==> OpenOn(g.heap, x, t) && g.heap[x].body.cell.slot >= n)
      && g'.mainthread == g.mainthread && g'.registry == g.registry && g'.mt == g.mt
    else g' == g
  }

  /** The upvalue of the slot is on the stack. */
  ghost predicate CapturePushed(g: Global, t: Ref, slot: nat, at: Ref, g': Global) {
    if IsThread(g.heap, t) && slot < |g.heap[t].body.stack| && at !in g.heap then
      exists u, g1 :: FoundUpval(g, t, slot, at, g1, u) && IsOpenOn(g1, u, t, slot) && Pushed(g1, g', Obj(u))
    else g' == g
  }

  predicate IsOpenOn(g: Global, u: Ref, t: Ref, slot: nat) { u in g.heap && g.heap[u].body == UpVal(Open(t, slot)) }

  /** What an operation does. */
  ghost predicate Effect(g: Global, op: Op, g': Global) {
    HasMain(g) &&
    match op
    case CollectorStep => Stepped(g, g', ALL) && Retained(g, g')
    case FullCollection => g'.phase == Pause && AllClean(g') && Retained(g, g')
    case NewBlock(_, _, at) => if at in g.heap then g' == g else Pushed(Allocated(g, at, NewBody(g, op)), g', Obj(at))
    case NewTable(_, _, at) => if at in g.heap then g' == g else Pushed(Allocated(g, at, NewBody(g, op)), g', Obj(at))
    case NewThread(at) => if at in g.heap then g' == g else Pushed(Allocated(g, at, NewBody(g, op)), g', Obj(at))
    case NewString(_, _) => StringPushed(g, op, g')
    case FindString(_, _) => StringPushed(g, op, g')
    case Capture(th, slot, at) => CapturePushed(g, ArgThread(g, th), slot, at, g')
    case SetTop(th, n) => TopSet(g, ArgThread(g, th), n, g')
    case SetBasicMetatable(k, j) => g' == if k < |g.mt| then g.(mt := g.mt[k := Arg(g, j)]) else g
    case _ => var w := WriteOf(g, op); if w.Write? then Stored(g, g', w.target, w.body) else g' == g
  }

  method DoNew(c: Collector, op: Op)
    requires Inv(c.g) && HasMain(c.g) && (op.NewBlock? || op.NewTable? || op.NewThread?)
    modifies c
    ensures Inv(c.g) && old(c.g).heap.Keys <= c.g.heap.Keys
    ensures if op.at in old(c.g).heap then c.g == old(c.g)
      else Pushed(Allocated(old(c.g), op.at, NewBody(old(c.g), op)), c.g, Obj(op.at))
  {
    hide Inv;
    match op
    case NewBlock(kind, slots, at) =>
      var g := c.g;
      var fields := seq(|slots|, i requires 0 <= i < |slots| && HasMain(g) => Arg(g, slots[i]));
      forall v | v in fields ensures Accessible(c.g, v) {
        var i :| 0 <= i < |slots| && fields[i] == v;
        ArgsAccessible(c.g, slots[i]);
      }
      Allocate(c, at, Block(kind, fields));
    case NewTable(narr, nnode, at) =>
      Allocate(c, at, EmptyTable(narr, nnode));
    case NewThread(at) =>
      var gt := c.g.heap[c.g.mainthread].body.gt;
      ArgsAccessible(c.g, 0);
      HeldAccessible(c.g, c.g.mainthread);
      assert gt in Contents(c.g.heap, c.g.heap[c.g.mainthread].body, STRONG);
      Allocate(c, at, Thread(gt, [], []));
  }

  /** luaS_newlstr: a new string, or one found in the table and brought back if dead. */
  method DoString(c: Collector, op: Op)
    requires Inv(c.g) && HasMain(c.g)
    modifies c
    ensures Inv(c.g) && old(c.g).heap.Keys <= c.g.heap.Keys && StringPushed(old(c.g), op, c.g)
  {
    hide Inv;
    NewAccessible(c.g, 0);
    match op
    case NewString(i, at) =>
      if i < |c.g.strt| && at !in c.g.heap {
        InternedInv(c.g, i, at);
        c.g := Interned(c.g, i, at);
        ArgsAccessible(c.g, 0);
        PushNew(c, Obj(at));
      }
    case FindString(i, k) =>
      if i < |c.g.strt| && k < |c.g.strt[i]| {
        var r := c.g.strt[i][k];
        FoundString(c.g, i, k);
        if c.g.heap[r].color == Other(c.g.white) {
          RevivedInv(c.g, r);
          c.g := Whiten(c.g, r);
        }
        ArgsAccessible(c.g, 0);
        PushNew(c, Obj(r));
      }
    case _ =>
  }

  lemma FoundString(g: Global, i: nat, k: nat)
    requires Inv(g) && i < |g.strt| && k < |g.strt[i]|
    ensures g.strt[i][k] in g.heap && g.heap[g.strt[i][k]].body.Str?
  {
    assert g.strt[i][k] in g.strt[i];
  }

  method DoCapture(c: Collector, th: nat, slot: nat, at: Ref)
    requires Inv(c.g) && HasMain(c.g)
    modifies c
    ensures Inv(c.g) && old(c.g).heap.Keys <= c.g.heap.Keys
    ensures CapturePushed(old(c.g), ArgThread(old(c.g), th), slot, at, c.g)
  {
    hide Inv, FoundUpval, Pushed;
    var t := ArgThread(c.g, th);
    ArgsAccessible(c.g, th);
    if slot < |c.g.heap[t].body.stack| && at !in c.g.heap {
      var u := FindUpval(c, t, slot, at);
      ghost var g1 := c.g;
      ArgsAccessible(c.g, 0);
      PushNew(c, Obj(u));
      assert IsOpenOn(g1, u, t, slot);
    }
  }

  /** Leaving a scope: close its upvalues, then drop its slots. */
  method DoSetTop(c: Collector, th: nat, n: nat)
    requires Inv(c.g) && HasMain(c.g)
    modifies c
    ensures Inv(c.g) && FreesDoomed(old(c.g), c.g)
    ensures TopSet(old(c.g), ArgThread(old(c.g), th), n, c.g)
  {
    hide Inv, TopSet, Closing, Unopened;
    ghost var g0 := c.g;
    var t := ArgThread(c.g, th);
    ArgsAccessible(c.g, th);
    if n > |c.g.heap[t].body.stack| {
      SameTop(g0, t, n);
    } else {
      Close(c, t, n);
      ghost var g1 := c.g;
      var b := c.g.heap[t].body;
      HeldAccessible(c.g, t);
      assert forall v :: v in b.stack[..n] ==> v in b.stack;
      Store(c, t, b.(stack := b.stack[..n]), Nil);
      StoredDoomed(g1, c.g, t, b.(stack := b.stack[..n]));
      StoredOpen(g1, c.g, t, b.(stack := b.stack[..n]), n);
      StoredTop(g0, g1, c.g, t, n);
    }
  }

  lemma SameTop(g: Global, t: Ref, n: nat)
    requires IsThread(g.heap, t) && n > |g.heap[t].body.stack|
    ensures TopSet(g, t, n, g)
  {}

  /** Closing from slot `n` on and then dropping the slots. */
  lemma StoredTop(g: Global, g1: Global, g': Global, t: Ref, n: nat)
    requires Closing(g, t, n, g1) && n <= |g1.heap[t].body.stack|
    requires Stored(g1, g', t, g1.heap[t].body.(stack := g1.heap[t].body.stack[..n])) && Unopened(g', t, n)
    ensures TopSet(g, t, n, g')
  {
    hide Unopened;
  }

  /** No upvalue is open on `t` from slot `n` on. */
  ghost predicate Unopened(g: Global, t: Ref, n: nat) {
    forall u :: OpenOn(g.heap, u, t) ==> g.heap[u].body.cell.slot < n
  }

  lemma StoredOpen(g: Global, g': Global, t: Ref, b: Body, n: nat)
    requires Stored(g, g', t, b) && IsThread(g.heap, t) && b.Thread? && Unopened(g, t, n)
    ensures Unopened(g', t, n)
  {
    forall u | OpenOn(g'.heap, u, t) ensures g'.heap[u].body.cell.slot < n { assert OpenOn(g.heap, u, t); }
  }

  lemma StoredDoomed(g: Global, g': Global, r: Ref, b: Body)
    requires Stored(g, g', r, b)
    ensures forall x :: Doomed(g', x) ==> Doomed(g, x)
  {}

  method DoBasicMetatable(c: Collector, k: nat, j: nat)
    requires Inv(c.g) && HasMain(c.g)
    modifies c
    ensures Inv(c.g)
    ensures c.g == if k < |old(c.g).mt| then old(c.g).(mt := old(c.g).mt[k := Arg(old(c.g), j)]) else old(c.g)
  {
    if k < |c.g.mt| {
      ArgsAccessible(c.g, j);
      MetatableInv(c.g, k, Arg(c.g, j));
      c.g := c.g.(mt := c.g.mt[k := Arg(c.g, j)]);
    }
  }

  lemma MetatableInv(g: Global, k: nat, v: Value)
    requires Inv(g) && k < |g.mt| && Accessible(g, v)
    ensures Inv(g.(mt := g.mt[k := v]))
  {
    MetatableNoDangling(g, k, v);
    MetatablePhase(g, k, v);
    hide NoDangling, PhaseOk;
    BodiesShape(g, g.(mt := g.mt[k := v]));
  }

  lemma MetatableNoDangling(g: Global, k: nat, v: Value)
    requires NoDangling(g) && k < |g.mt| && Accessible(g, v)
    ensures NoDangling(g.(mt := g.mt[k := v]))
  {
    var g' := g.(mt := g.mt[k := v]);
    assert forall x :: Doomed(g', x) == Doomed(g, x);
    forall x | x in RootValues(g') ensures x in RootValues(g) || x == v {
      if x in g'.mt { ReplacedIn(g.mt, k, v, x); }
    }
  }

  lemma MetatablePhase(g: Global, k: nat, v: Value)
    requires PhaseOk(g) && k < |g.mt|
    ensures PhaseOk(g.(mt := g.mt[k := v]))
  {
    var g' := g.(mt := g.mt[k := v]);
    assert forall x :: Clean(g', x) == Clean(g, x) && OnList(g', x) == OnList(g, x);
    if g.phase == Propagate {
      assert forall x :: x in g.heap && ColorRule(g, x) ==> ColorRule(g', x);
    }
  }

  /** Any operation, in any state of the collector. */
  method Perform(c: Collector, op: Op)
    requires Inv(c.g)
    modifies c
    ensures Inv(c.g) && Safe(old(c.g), op, c.g) && Effect(old(c.g), op, c.g)
  {
    hide Inv, Safe, Stepped, Pushed, Stored, StringPushed, CapturePushed, TopSet, AllClean, WriteOf, Allocated, NewBody;
    hide ArgThread, Retained;
    ghost var g0 := c.g;
    ArgsAccessible(c.g, 0);
    match op {
      case CollectorStep =>
        AllBound(c.g);
        SingleStep(c, ALL);
        StepFrees(g0, c.g);
        StepRetained(g0, c.g, ALL);
      case FullCollection =>
        FullGc(c);
        KeepsStrongSafe(g0, c.g);
        return;
      case _ => PerformMutator(c, op);
    }
    DoomedSafe(g0, op, c.g);
  }

  /** Any operation of the program. */
  method PerformMutator(c: Collector, op: Op)
    requires Inv(c.g) && HasMain(c.g) && !op.CollectorStep? && !op.FullCollection?
    modifies c
    ensures Inv(c.g) && Effect(old(c.g), op, c.g)
    ensures forall r :: r in old(c.g).heap && r !in c.g.heap ==> Doomed(old(c.g), r)
  {
    hide Inv, Pushed, Stored, StringPushed, CapturePushed, TopSet, WriteOf, Allocated, NewBody, ArgThread;
    if op.NewBlock? || op.NewTable? || op.NewThread? {
      DoNew(c, op);
    } else if op.NewString? || op.FindString? {
      DoString(c, op);
    } else if op.Capture? {
      DoCapture(c, op.th, op.slot, op.at);
    } else if op.SetTop? {
      DoSetTop(c, op.th, op.n);
    } else if op.SetBasicMetatable? {
      DoBasicMetatable(c, op.k, op.j);
    } else {
      DoWrite(c, op);
    }
  }

  lemma AllBound(g: Global)
    requires Inv(g)
    ensures Bound(g, ALL) && MarksIn(g.heap, ALL)
  {}

  lemma StepFrees(g: Global, g': Global)
    requires Stepped(g, g', ALL)
    ensures forall r :: r in g.heap && r !in g'.heap ==> Doomed(g, r)
  {}

  lemma KeepsStrongSafe(g: Global, g': Global)
    requires KeepsStrong(g, g')
    ensures Safe(g, FullCollection, g')
  {}

  /** Every run. From a state that meets the invariant, any sequence of operations passes only through
      states in which everything reachable is allocated, and frees nothing reachable on the way. */
  method Execute(c: Collector, ops: seq<Op>) returns (ghost states: seq<Global>)
    requires Inv(c.g)
    modifies c
    ensures |states| == |ops| + 1 && states[0] == old(c.g) && states[|ops|] == c.g
    ensures forall k :: 0 <= k < |states| ==> Inv(states[k])
    ensures forall k, r :: 0 <= k < |states| && Reachable(states[k], r) ==> r in states[k].heap
    ensures forall k :: 0 <= k < |ops| ==>
      Safe(states[k], ops[k], states[k + 1]) && Effect(states[k], ops[k], states[k + 1])
  {
    hide Inv, Safe, Reachable, Effect;
    states := [c.g];
    var i := 0;
    while i < |ops|
      invariant 0 <= i <= |ops| && |states| == i + 1
      invariant states[0] == old(c.g) && states[i] == c.g
      invariant forall k :: 0 <= k <= i ==> Inv(states[k])
      invariant forall k :: 0 <= k < i ==>
        Safe(states[k], ops[k], states[k + 1]) && Effect(states[k], ops[k], states[k + 1])
    {
      Perform(c, ops[i]);
      states := states + [c.g];
      i := i + 1;
    }
    forall k | 0 <= k < |states| ensures forall r :: Reachable(states[k], r) ==> r in states[k].heap {
      InvNoDangling(states[k]);
      ReachableSafe(states[k]);
    }
  }

  lemma InvNoDangling(g: Global)
    requires Inv(g)
    ensures NoDangling(g)
  {}

  /** The two facts every state of the marking phase meets: nothing black refers to anything white,
      and every gray table, closure, prototype or thread is on exactly one of the three lists. */
  lemma MarkingPhase(g: Global, r: Ref)
    requires Inv(g) && g.phase == Propagate && r in g.heap
    ensures g.heap[r].color == Black ==> forall q :: Edge(g.heap, r, q) ==> NonWhite(g.heap, q)
    ensures g.heap[r].color == Gray && Listable(g.heap[r].body) ==>
      multiset(g.gray)[r] + multiset(g.grayagain)[r] + multiset(g.weak)[r] == 1
    ensures g.heap[r].color != Gray ==> !OnList(g, r)
  {
    assert ColorRule(g, r);
    if g.heap[r].color == Black {
      forall q | Edge(g.heap, r, q) ensures NonWhite(g.heap, q) {}
    } else if g.heap[r].color == Gray {
      DistinctCount(g.gray, r);
      DistinctCount(g.grayagain, r);
      DistinctCount(g.weak, r);
    }
  }

  lemma DistinctCount(s: seq<Ref>, r: Ref)
    requires Distinct(s)
    ensures multiset(s)[r] == if r in s then 1 else 0
  {
    if s != [] {
      var k := |s| - 1;
      assert s == s[..k] + [s[k]];
      assert s[k] !in s[..k];
      DistinctCount(s[..k], r);
    }
  }

  /** A new state (lstate.c): the main thread, the registry and the table of globals. */
  function Initial(): Global {
    var table := Table(Nil, STRONG, [], []);
    Global(
      map[0 := Object(White0, true, STRONG, Thread(Obj(2), [], [])),
          1 := Object(White0, false, STRONG, table),
          2 := Object(White0, false, STRONG, table)],
      0, Obj(1), seq(9, _ => Nil), Pause, White0, [], [], [], [2, 1, 0], 0, seq(32, _ => []), 0)
  }

  /** An empty registry, an empty table of globals, an empty main thread, and no metatables. */
  lemma InitialInv()
    ensures Inv(Initial())
    ensures var g := Initial();
      && |g.heap| == 3 && g.phase == Pause && (forall v :: v in g.mt ==> v == Nil)
      && IsThread(g.heap, g.mainthread) && g.heap[g.mainthread].body.stack == []
      && g.registry != g.heap[g.mainthread].body.gt
      && forall v :: v in {g.registry, g.heap[g.mainthread].body.gt} ==>
        v.Obj? && v.ref in g.heap && g.heap[v.ref].body == Table(Nil, Weakness(false, false), [], [])
  {
    InitialShape();
    InitialNoDangling();
    hide Shape, NoDangling;
  }

  lemma InitialShape()
    ensures Shape(Initial())
  {
    InitialRoots();
    InitialOthers();
    hide RootListOk, StringsOk, UpvalsOk;
  }

  lemma InitialRoots()
    ensures RootListOk(Initial())
  {
    var g := Initial();
    assert g.rootgc[0] == 2 && g.rootgc[1] == 1 && g.rootgc[2] == 0;
  }

  lemma InitialOthers()
    ensures StringsOk(Initial()) && UpvalsOk(Initial().heap)
  {
    var g := Initial();
    assert forall u :: u in g.heap ==> !IsOpen(g.heap[u].body);
  }

  lemma InitialNoDangling()
    ensures NoDangling(Initial())
  {
    var g := Initial();
    assert forall r :: !Doomed(g, r);
    forall r, q | r in g.heap && Edge(g.heap, r, q) ensures q in g.heap {
      if r == 0 { assert q == 2; }
    }
    forall v | v in RootValues(g) && v.Obj? ensures v.ref in g.heap {
      assert v == Obj(0) || v == Obj(1) || v in g.mt;
    }
  }
}
