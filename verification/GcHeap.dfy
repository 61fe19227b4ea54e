/** The objects the collector manages (lgc.h, lobject.h), the reference graph they form,
    and the tri-colour invariant of the marking phase. */
module GcHeap {

  type Ref = nat

  /** A tagged value as the collector sees it: nil, any other value that is not
      collectable, a reference, or the key of a removed table entry. */
  datatype Value = Nil | Prim | Obj(ref: Ref) | DeadKey(ref: Ref)

  datatype Color = White0 | White1 | Gray | Black

  predicate IsWhite(c: Color) { c.White0? || c.White1? }

  function Other(white: Color): Color {
    if white == White0 then White1 else White0
  }

  datatype Weakness = Weakness(key: bool, val: bool)

  const STRONG := Weakness(false, false)

  datatype Node = Node(key: Value, val: Value)

  /** An open upvalue reads a slot of a thread's stack, a closed one holds its value. */
  datatype Cell = Open(thread: Ref, slot: nat) | Closed(v: Value)

  datatype BlockKind = Userdata | Function | Proto

  /** `Block` is an object whose every field is a strong reference: a userdatum, a
      closure or a prototype, given by its fields in the order the collector visits them.
      `mode` of a table is what its own `__mode` entry asks of the tables it is the
      metatable of. */
  datatype Body =
    | Str
    | Block(kind: BlockKind, fields: seq<Value>)
    | UpVal(cell: Cell)
    | Table(metatable: Value, mode: Weakness, arr: seq<Value>, nodes: seq<Node>)
    | Thread(gt: Value, stack: seq<Value>, openupval: seq<Ref>)

  /** `weak` holds the two weakness bits that traversal leaves in a table's mark byte. */
  datatype Object = Object(color: Color, fixed: bool, weak: Weakness, body: Body)

  type Heap = map<Ref, Object>

  datatype Phase = Pause | Propagate | SweepString | Sweep | Finalize

  /** The collector's part of global_State. Positions before `sweepgc` in `rootgc`, and
      string buckets before `sweepstr`, have been swept. */
  datatype Global = Global(
    heap: Heap,
    mainthread: Ref, registry: Value, mt: seq<Value>,
    phase: Phase, white: Color,
    gray: seq<Ref>, grayagain: seq<Ref>, weak: seq<Ref>,
    rootgc: seq<Ref>, sweepgc: nat,
    strt: seq<seq<Ref>>, sweepstr: nat)

  class Collector {
    var g: Global
    constructor (g: Global)
      ensures this.g == g
    {
      this.g := g;
    }
  }

  // ----- the reference graph -----

  predicate IsOpen(b: Body) { b.UpVal? && b.cell.Open? }

  /** Kinds that are kept on a gray list while gray. */
  predicate Listable(b: Body) {
    b.Table? || b.Thread? || (b.Block? && b.kind != Userdata)
  }

  predicate NeverBlack(b: Body) { b.Str? || b.Thread? || IsOpen(b) }

  function CellValue(h: Heap, c: Cell): Value {
    match c
    case Closed(v) => v
    case Open(t, i) =>
      if t in h && h[t].body.Thread? && i < |h[t].body.stack| then h[t].body.stack[i] else Nil
  }

  /** The weakness of a table, read from the `__mode` entry of its metatable. */
  function ModeOf(h: Heap, mt: Value): Weakness {
    if mt.Obj? && mt.ref in h && h[mt.ref].body.Table? then h[mt.ref].body.mode else STRONG
  }

  /** The keys and values of the non-empty entries, in the order the traversal visits them. */
  function NodeValues(nodes: seq<Node>, key: bool, val: bool): seq<Value> {
    if nodes == [] then [] else
      var n := nodes[|nodes| - 1];
      (if n.val == Nil then [] else (if key then [n.key] else []) + (if val then [n.val] else []))
      + NodeValues(nodes[..|nodes| - 1], key, val)
  }

  /** The values an object of body `b` holds, but for those that weakness `w` excludes. */
  function Contents(h: Heap, b: Body, w: Weakness): seq<Value> {
    match b
    case Str => []
    case Block(_, fields) => fields
    case UpVal(cell) => [CellValue(h, cell)]
    case Table(mt, _, arr, nodes) =>
      [mt] + (if w.val then [] else arr) + NodeValues(nodes, !w.key, !w.val)
    case Thread(gt, stack, _) => [gt] + stack
  }

  /** What marking `r` marks. */
  function Children(h: Heap, r: Ref): seq<Value>
    requires r in h
  {
    Contents(h, h[r].body, if h[r].body.Table? then ModeOf(h, h[r].body.metatable) else STRONG)
  }

  /** `r` refers to `q`, whether strongly or weakly. */
  predicate Edge(h: Heap, r: Ref, q: Ref)
    requires r in h
  {
    Obj(q) in Contents(h, h[r].body, STRONG)
  }

  /** `r` refers to `q` strongly. */
  predicate StrongEdge(h: Heap, r: Ref, q: Ref)
    requires r in h
  {
    Obj(q) in Children(h, r)
  }

  /** `q` is a key of the table `b`, perhaps of an empty entry. */
  predicate KeyOf(b: Body, q: Ref) {
    b.Table? && exists i :: 0 <= i < |b.nodes| && b.nodes[i].key == Obj(q)
  }

  /** A path in the reference graph, from a root to its `end`. */
  datatype Trail = Root(end: Ref) | Step(prev: Trail, end: Ref)

  predicate NonWhite(h: Heap, r: Ref) { r in h && !IsWhite(h[r].color) }

  /** All the objects among `vs` are marked. */
  ghost predicate AllMarked(h: Heap, vs: seq<Value>) {
    forall v :: v in vs && v.Obj? ==> NonWhite(h, v.ref)
  }

  ghost predicate Settled(h: Heap, r: Ref)
    requires r in h
  {
    AllMarked(h, Children(h, r))
  }

  ghost predicate RefsIn(h: Heap) {
    forall r, q :: r in h && Edge(h, r, q) ==> q in h
  }

  // ----- how marking may change the heap -----

  predicate SameNode(n: Node, n': Node) {
    n'.val == n.val && (n'.key == n.key || (n.val == Nil && n.key.Obj? && n'.key == DeadKey(n.key.ref)))
  }

  ghost predicate SameBody(b: Body, b': Body) {
    if b.Table? then
      && b' == b.(nodes := if b'.Table? then b'.nodes else [])
      && |b'.nodes| == |b.nodes|
      && forall i :: 0 <= i < |b.nodes| ==> SameNode(b.nodes[i], b'.nodes[i])
    else b' == b
  }

  /** Contents are kept, and nothing that was marked becomes white. */
  ghost predicate Extends(h: Heap, h': Heap) {
    && h'.Keys == h.Keys
    && forall r :: r in h ==>
      && h'[r].fixed == h[r].fixed
      && SameBody(h[r].body, h'[r].body)
      && (h'[r].color == h[r].color || !IsWhite(h'[r].color))
  }

  lemma SameNodeValues(nodes: seq<Node>, nodes': seq<Node>, key: bool, val: bool)
    requires |nodes'| == |nodes| && forall i :: 0 <= i < |nodes| ==> SameNode(nodes[i], nodes'[i])
    ensures NodeValues(nodes', key, val) == NodeValues(nodes, key, val)
  {
    if nodes != [] {
      var k := |nodes| - 1;
      assert SameNode(nodes[k], nodes'[k]);
      forall i | 0 <= i < k ensures SameNode(nodes[..k][i], nodes'[..k][i]) {
        assert SameNode(nodes[i], nodes'[i]);
      }
      SameNodeValues(nodes[..k], nodes'[..k], key, val);
    }
  }

  lemma NodeIn(nodes: seq<Node>, i: nat)
    requires i < |nodes| && nodes[i].val != Nil
    ensures nodes[i].key in NodeValues(nodes, true, true)
    ensures nodes[i].val in NodeValues(nodes, true, true)
  {
    if i < |nodes| - 1 {
      assert nodes[..|nodes| - 1][i] == nodes[i];
      NodeIn(nodes[..|nodes| - 1], i);
    }
  }

  /** Marking changes nothing that the mutator can read. */
  lemma ExtendsContents(h: Heap, h': Heap, r: Ref, w: Weakness)
    requires Extends(h, h') && r in h
    ensures Contents(h', h'[r].body, w) == Contents(h, h[r].body, w)
    ensures Children(h', r) == Children(h, r)
  {
    var b, b' := h[r].body, h'[r].body;
    assert SameBody(b, b');
    if b.Table? {
      if b.metatable.Obj? && b.metatable.ref in h {
        assert SameBody(h[b.metatable.ref].body, h'[b.metatable.ref].body);
      }
      var m := ModeOf(h, b.metatable);
      SameNodeValues(b.nodes, b'.nodes, !w.key, !w.val);
      SameNodeValues(b.nodes, b'.nodes, !m.key, !m.val);
    } else if b.UpVal? && b.cell.Open? && b.cell.thread in h {
      assert SameBody(h[b.cell.thread].body, h'[b.cell.thread].body);
    }
  }

  lemma ExtendsKeyOf(b: Body, b': Body, q: Ref)
    requires SameBody(b, b') && KeyOf(b', q)
    ensures KeyOf(b, q)
  {
    var i :| 0 <= i < |b'.nodes| && b'.nodes[i].key == Obj(q);
    assert SameNode(b.nodes[i], b'.nodes[i]);
  }

  lemma ExtendsTrans(h: Heap, h1: Heap, h2: Heap)
    requires Extends(h, h1) && Extends(h1, h2)
    ensures Extends(h, h2)
  {
    forall r | r in h ensures SameBody(h[r].body, h2[r].body) {
      assert SameBody(h[r].body, h1[r].body) && SameBody(h1[r].body, h2[r].body);
      if h[r].body.Table? {
        forall i | 0 <= i < |h[r].body.nodes|
          ensures SameNode(h[r].body.nodes[i], h2[r].body.nodes[i])
        {
          assert SameNode(h[r].body.nodes[i], h1[r].body.nodes[i]);
          assert SameNode(h1[r].body.nodes[i], h2[r].body.nodes[i]);
        }
      }
    }
  }

  lemma ExtendsSettled(h: Heap, h': Heap, r: Ref)
    requires Extends(h, h') && r in h && Settled(h, r)
    ensures Settled(h', r)
  {
    ExtendsContents(h, h', r, STRONG);
  }

  lemma ExtendsRefsIn(h: Heap, h': Heap)
    requires Extends(h, h') && RefsIn(h)
    ensures RefsIn(h')
  {
    forall r, q | r in h' && Edge(h', r, q) ensures q in h' {
      ExtendsContents(h, h', r, STRONG);
      assert Edge(h, r, q);
    }
  }
}
