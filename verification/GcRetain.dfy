/** What a collection leaves of the objects it keeps, read off their fields: tables lose exactly the weak
    entries whose key or value goes, everything else stays as it was. */
module GcRetain {
  import opened GcHeap
  import opened GcMark
  import opened GcCycle
  import opened GcAtomic
  import opened GcClear
  import opened GcInvariant
  import opened GcSweep
  import opened GcCollect

  // ----- references, field by field -----

  /** The metatable asks for weak values (the letter v in `__mode`). */
  predicate WeakValues(h: Heap, b: Body)
    requires b.Table?
  {
    b.metatable.Obj? && b.metatable.ref in h && h[b.metatable.ref].body.Table? && h[b.metatable.ref].body.mode.val
  }

  /** The metatable asks for weak keys (the letter k in `__mode`). */
  predicate WeakKeys(h: Heap, b: Body)
    requires b.Table?
  {
    b.metatable.Obj? && b.metatable.ref in h && h[b.metatable.ref].body.Table? && h[b.metatable.ref].body.mode.key
  }

  /** The entry is not empty and has the key `q`, if `key`, or the value `q`, if `val`. */
  predicate NodeRefers(n: Node, key: bool, val: bool, q: Ref) {
    n.val != Nil && ((key && n.key == Obj(q)) || (val && n.val == Obj(q)))
  }

  predicate EntryRefers(nodes: seq<Node>, key: bool, val: bool, q: Ref) {
    exists i :: 0 <= i < |nodes| && NodeRefers(nodes[i], key, val, q)
  }

  /** Some field of `b` is the object `q`; `key` and `val` say whether the keys and the values of a table count. */
  predicate FieldRefers(h: Heap, b: Body, key: bool, val: bool, q: Ref) {
    match b
    case Str => false
    case Block(_, fields) => Obj(q) in fields
    case UpVal(Closed(v)) => v == Obj(q)
    case UpVal(Open(t, i)) =>
      t in h && h[t].body.Thread? && i < |h[t].body.stack| && h[t].body.stack[i] == Obj(q)
    case Thread(gt, stack, _) => gt == Obj(q) || Obj(q) in stack
    case Table(mt, _, arr, nodes) => mt == Obj(q) || (val && Obj(q) in arr) || EntryRefers(nodes, key, val, q)
  }

  lemma {:induction false} NodeValuesMean(nodes: seq<Node>, key: bool, val: bool, q: Ref)
    ensures Obj(q) in NodeValues(nodes, key, val) <==> EntryRefers(nodes, key, val, q)
  {
    if nodes != [] {
      var k := |nodes| - 1;
      NodeValuesMean(nodes[..k], key, val, q);
      EntryLast(nodes, key, val, q);
      hide EntryRefers;
    }
  }

  lemma EntryLast(nodes: seq<Node>, key: bool, val: bool, q: Ref)
    requires nodes != []
    ensures var k := |nodes| - 1;
      EntryRefers(nodes, key, val, q) <==> EntryRefers(nodes[..k], key, val, q) || NodeRefers(nodes[k], key, val, q)
  {
    var k := |nodes| - 1;
    hide NodeRefers;
    if EntryRefers(nodes, key, val, q) {
      var i :| 0 <= i < |nodes| && NodeRefers(nodes[i], key, val, q);
      assert i < k ==> nodes[..k][i] == nodes[i];
    }
    if EntryRefers(nodes[..k], key, val, q) {
      var i :| 0 <= i < k && NodeRefers(nodes[..k][i], key, val, q);
      assert nodes[i] == nodes[..k][i];
    }
  }

  /** A reference of any strength is a field. */
  lemma EdgeMeans(h: Heap, r: Ref, q: Ref)
    requires r in h
    ensures Edge(h, r, q) <==> FieldRefers(h, h[r].body, true, true, q)
  {
    if h[r].body.Table? { NodeValuesMean(h[r].body.nodes, true, true, q); }
  }

  /** The strong references are the fields, but for the keys and the values that the metatable makes weak. */
  lemma StrongEdgeMeans(h: Heap, r: Ref, q: Ref)
    requires r in h
    ensures StrongEdge(h, r, q) <==>
      var b := h[r].body;
      FieldRefers(h, b, b.Table? && !WeakKeys(h, b), b.Table? && !WeakValues(h, b), q)
  {
    var b := h[r].body;
    if b.Table? { NodeValuesMean(b.nodes, !WeakKeys(h, b), !WeakValues(h, b), q); }
  }

  // ----- what stays -----

  /** An object that is there and that the current sweep will not free. */
  predicate Live(g: Global, r: Ref) { r in g.heap && !Doomed(g, r) }

  predicate Stays(g: Global, v: Value) { v.Obj? ==> Live(g, v.ref) }

  /** An element is lost exactly if it is weak and goes; `val` says that values are strong. */
  predicate ElementRetained(v: Value, v': Value, val: bool, g': Global) {
    if val || Stays(g', v) then v' == v && Stays(g', v) else v' == Nil
  }

  /** An entry is lost, and its key dead, exactly if a weak part of it goes; `key` and `val` say that keys and values
      are strong. */
  predicate EntryRetained(n: Node, n': Node, key: bool, val: bool, g': Global) {
    if n.val != Nil && (key || Stays(g', n.key)) && (val || Stays(g', n.val))
    then n' == n && Stays(g', n.key) && Stays(g', n.val)
    else
      && n'.val == Nil && (n'.key == n.key || (n.key.Obj? && n'.key == DeadKey(n.key.ref)))
      && (n.val != Nil ==> !n'.key.Obj?)
  }

  ghost predicate PartsRetained(b: Body, b': Body, key: bool, val: bool, g': Global)
    requires b.Table? && b'.Table?
  {
    && |b'.arr| == |b.arr|
    && (forall i :: 0 <= i < |b.arr| ==> ElementRetained(b.arr[i], b'.arr[i], val, g'))
    && |b'.nodes| == |b.nodes|
    && (forall i :: 0 <= i < |b.nodes| ==> EntryRetained(b.nodes[i], b'.nodes[i], key, val, g'))
  }

  ghost predicate TableRetained(h: Heap, b: Body, b': Body, g': Global)
    requires b.Table?
  {
    && b'.Table? && b'.metatable == b.metatable && b'.mode == b.mode && Stays(g', b.metatable)
    && PartsRetained(b, b', !WeakKeys(h, b), !WeakValues(h, b), g')
  }

  /** `c` reads slot `i` of thread `t`, or has been closed with the value of that slot when `t` was freed. */
  ghost predicate CellRetained(h: Heap, t: Ref, i: nat, c: Cell, g': Global) {
    && t in h && h[t].body.Thread? && i < |h[t].body.stack|
    && var v := h[t].body.stack[i];
    && Stays(g', v)
    && match c
       case Closed(v') => v' == v && !Live(g', t)
       case Open(t', i') =>
         t' == t && i' == i && t in g'.heap && g'.heap[t].body.Thread? && i < |g'.heap[t].body.stack| &&
         g'.heap[t].body.stack[i] == v
  }

  ghost predicate BodyRetained(h: Heap, b: Body, b': Body, g': Global) {
    match b
    case Str => b' == b
    case Block(_, fields) => b' == b && forall v :: v in fields ==> Stays(g', v)
    case UpVal(Closed(v)) => b' == b && Stays(g', v)
    case UpVal(Open(t, i)) => b'.UpVal? && CellRetained(h, t, i, b'.cell, g')
    case Thread(gt, stack, open) =>
      && b'.Thread? && b'.gt == gt && b'.stack == stack && Stays(g', gt) && (forall v :: v in stack ==> Stays(g', v))
      && forall u :: u in b'.openupval ==> u in open
    case Table(_, _, _, _) => TableRetained(h, b, b', g')
  }

  ghost predicate RootsRetained(g: Global, g': Global) {
    && g'.mainthread == g.mainthread && g'.registry == g.registry && g'.mt == g.mt
    && Live(g', g.mainthread) && Stays(g', g.registry) && forall v :: v in g.mt ==> Stays(g', v)
  }

  ghost predicate ObjectRetained(g: Global, g': Global, r: Ref)
    requires r in g'.heap
  {
    Live(g, r) && BodyRetained(g.heap, g.heap[r].body, g'.heap[r].body, g')
  }

  /** Between `g` and `g'` the collector was at work: the roots stay, nothing comes back to life, and every
      object that stays has all it held, but for weak entries that refer to what goes. */
  ghost predicate Retained(g: Global, g': Global) {
    && RootsRetained(g, g')
    && forall r :: Live(g', r) ==> ObjectRetained(g, g', r)
  }

  lemma RootsStay(g: Global, g': Global)
    requires NoDangling(g') && g'.mainthread == g.mainthread && g'.registry == g.registry && g'.mt == g.mt
    ensures RootsRetained(g, g')
  {
    assert Obj(g'.mainthread) in RootValues(g') && g'.registry in RootValues(g');
    assert forall v :: v in g'.mt ==> v in RootValues(g');
  }

  lemma ContentsStay(g: Global, r: Ref)
    requires NoDangling(g) && Live(g, r)
    ensures forall v :: v in Contents(g.heap, g.heap[r].body, STRONG) ==> Stays(g, v)
  {
    assert forall v :: v in Contents(g.heap, g.heap[r].body, STRONG) && v.Obj? ==> Edge(g.heap, r, v.ref);
  }

  ghost predicate NodesStay(g: Global, nodes: seq<Node>) {
    forall i :: 0 <= i < |nodes| && nodes[i].val != Nil ==> Stays(g, nodes[i].key) && Stays(g, nodes[i].val)
  }

  lemma EntriesStay(g: Global, r: Ref)
    requires NoDangling(g) && Live(g, r) && g.heap[r].body.Table?
    ensures NodesStay(g, g.heap[r].body.nodes)
  {
    ContentsStay(g, r);
    var b := g.heap[r].body;
    forall i | 0 <= i < |b.nodes| && b.nodes[i].val != Nil
      ensures Stays(g, b.nodes[i].key) && Stays(g, b.nodes[i].val)
    {
      NodeIn(b.nodes, i);
    }
  }

  /** An unchanged body that holds only what stays is retained. */
  lemma KeptBody(h: Heap, b: Body, g': Global)
    requires !b.Table? && !IsOpen(b) && forall v :: v in Contents(g'.heap, b, STRONG) ==> Stays(g', v)
    ensures BodyRetained(h, b, b, g')
  {
    hide Stays, TableRetained;
    match b
    case UpVal(Closed(v)) => assert Contents(g'.heap, b, STRONG) == [v]; assert v in [v];
    case Block(_, fields) => assert Contents(g'.heap, b, STRONG) == fields;
    case Thread(gt, stack, _) => assert Contents(g'.heap, b, STRONG) == [gt] + stack;
    case _ =>
  }

  lemma KeptTable(h: Heap, b: Body, g': Global)
    requires b.Table? && forall v :: v in Contents(g'.heap, b, STRONG) ==> Stays(g', v)
    requires NodesStay(g', b.nodes)
    ensures BodyRetained(h, b, b, g')
  {
    assert b.metatable in Contents(g'.heap, b, STRONG);
    assert forall v :: v in b.arr ==> v in Contents(g'.heap, b, STRONG);
    hide Stays, Contents, WeakKeys, WeakValues;
  }

  lemma KeptOpen(g: Global, g': Global, u: Ref)
    requires u in g.heap && IsOpen(g.heap[u].body) && u in g'.heap && g'.heap[u].body == g.heap[u].body
    requires var c := g.heap[u].body.cell;
      && IsThread(g.heap, c.thread) && c.slot < |g.heap[c.thread].body.stack|
      && IsThread(g'.heap, c.thread) && g'.heap[c.thread].body.stack == g.heap[c.thread].body.stack
      && Stays(g', CellValue(g'.heap, c))
    ensures BodyRetained(g.heap, g.heap[u].body, g'.heap[u].body, g')
  {
    hide Stays, TableRetained;
  }

  lemma OpenSlot(g: Global, u: Ref)
    requires Shape(g) && u in g.heap && IsOpen(g.heap[u].body)
    ensures var c := g.heap[u].body.cell; IsThread(g.heap, c.thread) && c.slot < |g.heap[c.thread].body.stack|
  {}

  // ----- marking -----

  lemma ExtendsRetained(g: Global, g': Global)
    requires Shape(g) && Extends(g.heap, g'.heap) && NoDangling(g')
    requires forall r :: r in g'.heap ==> g.heap[r].color != Other(g.white)
    requires g'.mainthread == g.mainthread && g'.registry == g.registry && g'.mt == g.mt
    ensures Retained(g, g')
  {
    RootsStay(g, g');
    forall r | Live(g', r) ensures BodyRetained(g.heap, g.heap[r].body, g'.heap[r].body, g') {
      ExtendsBody(g, g', r);
    }
  }

  lemma ExtendsBody(g: Global, g': Global, r: Ref)
    requires Shape(g) && Extends(g.heap, g'.heap) && NoDangling(g') && Live(g', r)
    ensures BodyRetained(g.heap, g.heap[r].body, g'.heap[r].body, g')
  {
    var b, b' := g.heap[r].body, g'.heap[r].body;
    assert SameBody(b, b');
    ContentsStay(g', r);
    if b.Table? {
      EntriesStay(g', r);
      hide *;
      SameRetained(g.heap, b, b', g');
    } else if IsOpen(b) {
      OpenSlot(g, r);
      assert SameBody(g.heap[b.cell.thread].body, g'.heap[b.cell.thread].body);
      assert CellValue(g'.heap, b.cell) in Contents(g'.heap, b, STRONG);
      hide Shape, NoDangling, Stays;
      KeptOpen(g, g', r);
    } else {
      hide Shape, NoDangling, BodyRetained;
      KeptBody(g.heap, b, g');
    }
  }

  lemma SameRetained(h: Heap, b: Body, b': Body, g': Global)
    requires b.Table? && SameBody(b, b') && forall v :: v in Contents(g'.heap, b', STRONG) ==> Stays(g', v)
    requires NodesStay(g', b'.nodes)
    ensures BodyRetained(h, b, b', g')
  {
    assert b.metatable in Contents(g'.heap, b', STRONG);
    assert forall v :: v in b.arr ==> v in Contents(g'.heap, b', STRONG);
    var key, val := !WeakKeys(h, b), !WeakValues(h, b);
    hide Stays, Contents, WeakKeys, WeakValues;
    forall i | 0 <= i < |b.nodes| ensures EntryRetained(b.nodes[i], b'.nodes[i], key, val, g') {
      assert SameNode(b.nodes[i], b'.nodes[i]);
    }
  }

  // ----- the sweep -----

  lemma SweptRetained(g: Global, g': Global)
    requires Shape(g) && Swept(g, g') && ClosedWithThread(g, g') && NoDangling(g')
    ensures Retained(g, g')
  {
    RootsStay(g, g');
    forall r | Live(g', r) ensures Live(g, r) && BodyRetained(g.heap, g.heap[r].body, g'.heap[r].body, g') {
      SweptBodyRetained(g, g', r);
    }
  }

  lemma SweptBodyRetained(g: Global, g': Global, r: Ref)
    requires Shape(g) && Swept(g, g') && ClosedWithThread(g, g') && NoDangling(g') && Live(g', r)
    ensures ObjectRetained(g, g', r)
  {
    SweptLive(g, g', r);
    ContentsStay(g', r);
    var b := g.heap[r].body;
    if b.Table? {
      EntriesStay(g', r);
      hide *;
      hide BodyRetained;
      KeptTable(g.heap, b, g');
    } else if IsOpen(b) {
      SweptCellRetained(g, g', r);
      hide *;
    } else if b.Thread? {
      SweptThread(g, g', r);
      hide Shape, Swept, NoDangling;
    } else {
      hide Shape, Swept, NoDangling, BodyRetained;
      KeptBody(g.heap, b, g');
    }
  }

  /** No upvalue joins the list of a thread. */
  lemma SweptThread(g: Global, g': Global, t: Ref)
    requires Shape(g) && Swept(g, g') && IsThread(g'.heap, t)
    ensures t in g.heap && IsThread(g.heap, t)
    ensures forall u :: u in g'.heap[t].body.openupval ==> u in g.heap[t].body.openupval
  {
    assert SweptObject(g, t, g'.heap[t]);
    forall u | u in g'.heap[t].body.openupval ensures u in g.heap[t].body.openupval {
      assert OpenOn(g'.heap, u, t) && SweptObject(g, u, g'.heap[u]);
    }
  }

  lemma SweptLive(g: Global, g': Global, r: Ref)
    requires Swept(g, g') && Live(g', r)
    ensures Live(g, r) && SweptObject(g, r, g'.heap[r])
  {
    hide UpvalsOk;
  }

  lemma SweptCellRetained(g: Global, g': Global, r: Ref)
    requires Shape(g) && Swept(g, g') && ClosedWithThread(g, g') && NoDangling(g') && Live(g', r)
    requires r in g.heap && IsOpen(g.heap[r].body)
    ensures g'.heap[r].body.UpVal?
    ensures var c := g.heap[r].body.cell; CellRetained(g.heap, c.thread, c.slot, g'.heap[r].body.cell, g')
  {
    var b, b' := g.heap[r].body, g'.heap[r].body;
    var t := b.cell.thread;
    SweptLive(g, g', r);
    ContentsStay(g', r);
    SweptContents(g, g', r, STRONG);
    assert CellValue(g.heap, b.cell) in Contents(g'.heap, b', STRONG);
    if t in g'.heap { assert SweptObject(g, t, g'.heap[t]); }
    hide StringsOk, RootListOk, NoDangling;
  }

  // ----- the atomic step -----

  /** The atomic step marks on, from `g` to a heap `h`, and then clears the weak tables. */
  ghost predicate Atomically(g: Global, h: Heap, g': Global) {
    Extends(g.heap, h) && Cleaned(h, g'.heap, g'.weak)
  }

  lemma AtomicRetained(g: Global, g': Global, b: iset<Ref>)
    requires Shape(g) && MarkedExactly(g, g', b) && Shape(g') && NoDangling(g')
    requires forall r :: r in g.heap ==> g.heap[r].color != Other(g.white)
    ensures Retained(g, g')
  {
    AtomicRoots(g, g', b);
    var h := AtomicHeap(g, g', b);
    hide MarkedExactly, Shape, NoDangling, Atomically, RootsRetained, ObjectRetained, Doomed;
    forall r | Live(g', r) ensures ObjectRetained(g, g', r) {
      AtomicObject(g, h, g', b, r);
    }
  }

  lemma AtomicObject(g: Global, h: Heap, g': Global, b: iset<Ref>, r: Ref)
    requires Shape(g) && MarkedExactly(g, g', b) && Shape(g') && NoDangling(g') && Atomically(g, h, g')
    requires Live(g', r) && r in g.heap && g.heap[r].color != Other(g.white)
    ensures ObjectRetained(g, g', r)
  {
    hide MarkedExactly, Shape, NoDangling, Atomically, TableRetained, Stays;
    AtomicSame(g, h, g', r);
    if g.heap[r].body.Table? {
      AtomicTable(g, h, g', b, r);
    } else {
      AtomicBody(g, h, g', r);
    }
  }

  lemma AtomicRoots(g: Global, g': Global, b: iset<Ref>)
    requires MarkedExactly(g, g', b) && NoDangling(g')
    ensures RootsRetained(g, g') && g'.heap.Keys == g.heap.Keys
  {
    hide NoDangling;
    RootsStay(g, g');
  }

  lemma AtomicHeap(g: Global, g': Global, b: iset<Ref>) returns (h: Heap)
    requires MarkedExactly(g, g', b)
    ensures Atomically(g, h, g')
  {
    h :| Extends(g.heap, h) && Cleaned(h, g'.heap, g'.weak);
  }

  /** One object through the atomic step. */
  lemma AtomicSame(g: Global, h: Heap, g': Global, r: Ref)
    requires Atomically(g, h, g') && r in g.heap
    ensures r in h && r in g'.heap
    ensures SameBody(g.heap[r].body, h[r].body) && CleanedObject(h, h[r], g'.heap[r], r in g'.weak)
    ensures !g.heap[r].body.Table? ==> g'.heap[r].body == g.heap[r].body
    ensures g.heap[r].body.Table? ==> g'.heap[r].body.Table?
  {}

  lemma AtomicBody(g: Global, h: Heap, g': Global, r: Ref)
    requires Shape(g) && NoDangling(g') && Atomically(g, h, g')
    requires Live(g', r) && r in g.heap && !g.heap[r].body.Table?
    ensures BodyRetained(g.heap, g.heap[r].body, g'.heap[r].body, g')
  {
    AtomicSame(g, h, g', r);
    ContentsStay(g', r);
    var bd := g.heap[r].body;
    if IsOpen(bd) {
      OpenSlot(g, r);
      AtomicSame(g, h, g', bd.cell.thread);
      assert CellValue(g'.heap, bd.cell) in Contents(g'.heap, bd, STRONG);
      hide *;
      KeptOpen(g, g', r);
    } else {
      hide *;
      KeptBody(g.heap, bd, g');
    }
  }

  /** What the clearing removes does go: it is not a string, and it was not marked. */
  lemma CollectedGoes(g: Global, h: Heap, g': Global, b: iset<Ref>, v: Value)
    requires MarkedExactly(g, g', b) && Shape(g') && Atomically(g, h, g')
    requires Collected(h, v)
    ensures !Stays(g', v)
  {
    assert CleanedObject(h, h[v.ref], g'.heap[v.ref], v.ref in g'.weak);
    assert Obj(g.mainthread) in RootValues(g);
  }

  lemma SurvivorStays(g: Global, r: Ref)
    requires r in Survivors(g)
    ensures Live(g, r)
  {}

  lemma LiveTableSurvives(g: Global, r: Ref)
    requires Shape(g) && Live(g, r) && g.heap[r].body.Table?
    ensures r in Survivors(g)
  {}

  lemma AtomicTable(g: Global, h: Heap, g': Global, b: iset<Ref>, r: Ref)
    requires MarkedExactly(g, g', b) && Shape(g') && NoDangling(g') && Atomically(g, h, g')
    requires Live(g', r) && r in g.heap && g.heap[r].body.Table? && g'.heap[r].body.Table?
    ensures TableRetained(g.heap, g.heap[r].body, g'.heap[r].body, g')
  {
    AtomicSame(g, h, g', r);
    forall v: Value | Collected(h, v) ensures !Stays(g', v) { CollectedGoes(g, h, g', b, v); }
    ContentsStay(g', r);
    EntriesStay(g', r);
    StrongStay(g, g', b, r);
    hide *;
    ClearedRetained(g, h, g', r);
  }

  /** A table whose strong fields stay, and that has lost only what goes. */
  lemma ClearedRetained(g: Global, h: Heap, g': Global, r: Ref)
    requires r in g.heap && r in h && r in g'.heap && g.heap[r].body.Table? && g'.heap[r].body.Table?
    requires SameBody(g.heap[r].body, h[r].body) && CleanedObject(h, h[r], g'.heap[r], r in g'.weak)
    requires forall v: Value :: Collected(h, v) ==> !Stays(g', v)
    requires forall v :: v in Contents(g'.heap, g'.heap[r].body, STRONG) ==> Stays(g', v)
    requires NodesStay(g', g'.heap[r].body.nodes)
    requires var b := g.heap[r].body; FieldsStay(g', b, !WeakKeys(g.heap, b), !WeakValues(g.heap, b))
    ensures TableRetained(g.heap, g.heap[r].body, g'.heap[r].body, g')
  {
    var b, b1, b' := g.heap[r].body, h[r].body, g'.heap[r].body;
    assert b.metatable in Contents(g'.heap, b', STRONG);
    assert forall v :: v in b'.arr ==> v in Contents(g'.heap, b', STRONG);
    var key, val := !WeakKeys(g.heap, b), !WeakValues(g.heap, b);
    hide Contents, Stays, Collected, WeakKeys, WeakValues;
    forall i | 0 <= i < |b.nodes| ensures EntryRetained(b.nodes[i], b'.nodes[i], key, val, g') {
      assert SameNode(b.nodes[i], b1.nodes[i]);
    }
    forall i | 0 <= i < |b.arr| ensures ElementRetained(b.arr[i], b'.arr[i], val, g') {
      assert b'.arr[i] in b'.arr && b.arr[i] in b.arr;
    }
  }

  /** The strong references of a table that stays stay. */
  lemma StrongStay(g: Global, g': Global, b: iset<Ref>, r: Ref)
    requires MarkedExactly(g, g', b) && Shape(g') && Live(g', r) && r in g.heap
    requires g.heap[r].body.Table? && g'.heap[r].body.Table?
    ensures var bd := g.heap[r].body; FieldsStay(g', bd, !WeakKeys(g.heap, bd), !WeakValues(g.heap, bd))
  {
    LiveTableSurvives(g', r);
    assert StrongClosed(g.heap, Survivors(g'));
    hide MarkedExactly, Shape, Live, FieldRefers;
    var bd := g.heap[r].body;
    var key, val := !WeakKeys(g.heap, bd), !WeakValues(g.heap, bd);
    forall q | FieldRefers(g.heap, bd, key, val, q) ensures Live(g', q) {
      StrongEdgeMeans(g.heap, r, q);
      SurvivorStays(g', q);
    }
    hide Survivors, StrongClosed;
    FieldsFrom(g, g', bd, key, val);
  }

  /** The elements and values of `b`, if `val`, and its keys, if `key`, stay. */
  ghost predicate FieldsStay(g': Global, b: Body, key: bool, val: bool)
    requires b.Table?
  {
    && (val ==> forall v :: v in b.arr ==> Stays(g', v))
    && forall i :: 0 <= i < |b.nodes| && b.nodes[i].val != Nil ==>
      && (val ==> Stays(g', b.nodes[i].val))
      && (key ==> Stays(g', b.nodes[i].key))
  }

  lemma FieldsFrom(g: Global, g': Global, b: Body, key: bool, val: bool)
    requires b.Table? && forall q :: FieldRefers(g.heap, b, key, val, q) ==> Live(g', q)
    ensures FieldsStay(g', b, key, val)
  {
    hide Live;
    forall i | 0 <= i < |b.nodes| && b.nodes[i].val != Nil
      ensures (val ==> Stays(g', b.nodes[i].val)) && (key ==> Stays(g', b.nodes[i].key))
    {
      var n := b.nodes[i];
      if n.val.Obj? && val { assert FieldRefers(g.heap, b, key, val, n.val.ref); }
      if n.key.Obj? && key { assert FieldRefers(g.heap, b, key, val, n.key.ref); }
    }
    if val {
      forall v | v in b.arr ensures Stays(g', v) {
        assert v.Obj? ==> FieldRefers(g.heap, b, key, val, v.ref);
      }
    }
  }

  // ----- any collector step, and several -----

  lemma StepRetained(g: Global, g': Global, b: iset<Ref>)
    requires Inv(g) && Inv(g') && Stepped(g, g', b)
    ensures Retained(g, g')
  {
    StepParts(g, g', b);
    match g.phase
    case Pause => ExtendsRetained(g, g');
    case Propagate =>
      if g.gray != [] { ExtendsRetained(g, g'); } else { AtomicRetained(g, g', b); }
    case SweepString => SweptRetained(g, g');
    case Sweep => SweptRetained(g, g');
    case Finalize => ExtendsRetained(g, g');
  }

  lemma StepParts(g: Global, g': Global, b: iset<Ref>)
    requires Inv(g) && Inv(g') && Stepped(g, g', b)
    ensures Shape(g) && Shape(g') && NoDangling(g')
    ensures g.phase != SweepString && g.phase != Sweep ==>
      forall r :: r in g.heap ==> g.heap[r].color != Other(g.white)
    ensures g'.mainthread == g.mainthread && g'.registry == g.registry && g'.mt == g.mt
    ensures g.phase == Pause || g.phase == Finalize || (g.phase == Propagate && g.gray != []) ==>
      Extends(g.heap, g'.heap)
  {
    hide StringsOk, RootListOk, UpvalsOk, NoDangling, StrongClosed, Swept;
    if g.phase == Pause { SameRootValues(g, g'); }
    if g.phase == SweepString || g.phase == Sweep { SweptSameRoots(g, g'); }
  }

  lemma SweptSameRoots(g: Global, g': Global)
    requires Swept(g, g')
    ensures g'.mainthread == g.mainthread && g'.registry == g.registry && g'.mt == g.mt
  {}

  lemma SameRootValues(g: Global, g': Global)
    requires RootValues(g') == RootValues(g)
    ensures g'.mainthread == g.mainthread && g'.registry == g.registry && g'.mt == g.mt
  {
    var vs, vs' := RootValues(g), RootValues(g');
    assert vs[0] == Obj(g.mainthread) && vs'[0] == Obj(g'.mainthread);
    assert vs[1] == g.registry && vs'[1] == g'.registry;
    assert vs[2..] == g.mt && vs'[2..] == g'.mt;
  }

  lemma RetainedRefl(g: Global)
    requires Inv(g)
    ensures Retained(g, g)
  {
    RootsStay(g, g);
    SweptRefl(g);
    SweptRetained(g, g);
  }

  /** Weakness is read from a metatable that stays. */
  lemma SameWeakness(g: Global, g': Global, r: Ref)
    requires Retained(g, g') && Live(g', r) && r in g.heap && g.heap[r].body.Table? && g'.heap[r].body.Table?
    ensures WeakKeys(g'.heap, g'.heap[r].body) == WeakKeys(g.heap, g.heap[r].body)
    ensures WeakValues(g'.heap, g'.heap[r].body) == WeakValues(g.heap, g.heap[r].body)
  {
    assert ObjectRetained(g, g', r);
    var mt := g.heap[r].body.metatable;
    hide RootsRetained, PartsRetained, CellRetained, Doomed;
    if mt.Obj? { assert ObjectRetained(g, g', mt.ref); }
  }

  lemma PartsTrans(b: Body, b1: Body, b2: Body, key: bool, val: bool, g1: Global, g2: Global)
    requires b.Table? && b1.Table? && b2.Table?
    requires PartsRetained(b, b1, key, val, g1) && PartsRetained(b1, b2, key, val, g2)
    requires forall r :: Live(g2, r) ==> Live(g1, r)
    ensures PartsRetained(b, b2, key, val, g2)
  {
    forall i | 0 <= i < |b.nodes| ensures EntryRetained(b.nodes[i], b2.nodes[i], key, val, g2) {
      assert EntryRetained(b.nodes[i], b1.nodes[i], key, val, g1);
      assert EntryRetained(b1.nodes[i], b2.nodes[i], key, val, g2);
    }
    forall i | 0 <= i < |b.arr| ensures ElementRetained(b.arr[i], b2.arr[i], val, g2) {
      assert ElementRetained(b.arr[i], b1.arr[i], val, g1) && ElementRetained(b1.arr[i], b2.arr[i], val, g2);
    }
  }

  lemma ObjectTrans(g: Global, g1: Global, g2: Global, r: Ref)
    requires Retained(g, g1) && Retained(g1, g2) && Live(g2, r)
    ensures ObjectRetained(g, g2, r)
  {
    assert forall x :: Live(g2, x) ==> ObjectRetained(g1, g2, x);
    assert ObjectRetained(g1, g2, r) && ObjectRetained(g, g1, r);
    if g.heap[r].body.Table? {
      SameWeakness(g, g1, r);
      var b := g.heap[r].body;
      PartsTrans(b, g1.heap[r].body, g2.heap[r].body, !WeakKeys(g.heap, b), !WeakValues(g.heap, b), g1, g2);
    }
    hide Retained, PartsRetained, WeakKeys, WeakValues;
  }

  lemma RetainedTrans(g: Global, g1: Global, g2: Global)
    requires Retained(g, g1) && Retained(g1, g2)
    ensures Retained(g, g2)
  {
    forall r | Live(g2, r) ensures ObjectRetained(g, g2, r) { ObjectTrans(g, g1, g2, r); }
    hide ObjectRetained;
  }
}
