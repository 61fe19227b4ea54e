/** Clearing weak tables of unmarked objects (lgc.c:330-375). */
module GcClear {
  import opened GcHeap
  import opened GcMark

  /** An unmarked object that is not a string: what iscleared answers yes for. */
  predicate Collected(h: Heap, v: Value) {
    v.Obj? && v.ref in h && !h[v.ref].body.Str? && IsWhite(h[v.ref].color)
  }

  predicate SameButMarkedString(o: Object, o': Object) {
    o' == o || (o.body.Str? && IsWhite(o.color) && o' == o.(color := Gray))
  }

  ghost predicate StringsMarked(h: Heap, h': Heap) {
    h'.Keys == h.Keys && forall r :: r in h ==> SameButMarkedString(h[r], h'[r])
  }

  predicate Kept(h: Heap, v: Value) { v.Obj? ==> NonWhite(h, v.ref) }

  /** `b` holds every string that one of its objects refers to, even weakly. */
  ghost predicate StringClosed(h: Heap, b: iset<Ref>) {
    forall r, q :: r in h && r in b && Edge(h, r, q) && q in h && h[q].body.Str? ==> q in b
  }

  /** lgc.c:337-345 */
  method IsCleared(c: Collector, v: Value, ghost h0: Heap, ghost b: iset<Ref>) returns (cleared: bool)
    requires v.Obj? ==> v.ref in c.g.heap && (c.g.heap[v.ref].body.Str? ==> v.ref in b)
    requires StringsMarked(h0, c.g.heap) && MarksIn(c.g.heap, b)
    modifies c
    ensures c.g == old(c.g).(heap := c.g.heap) && StringsMarked(h0, c.g.heap) && MarksIn(c.g.heap, b)
    ensures forall q :: NonWhite(old(c.g).heap, q) ==> NonWhite(c.g.heap, q)
    ensures cleared == Collected(h0, v)
    ensures !cleared ==> Kept(c.g.heap, v)
  {
    if !v.Obj? {
      return false;
    }
    assert SameButMarkedString(h0[v.ref], c.g.heap[v.ref]);
    if c.g.heap[v.ref].body.Str? {
      if IsWhite(c.g.heap[v.ref].color) {
        c.g := Paint(c.g, v.ref, Gray);
      }
      return false;
    }
    return IsWhite(c.g.heap[v.ref].color);
  }

  function Removed(n: Node): Node {
    Node(if n.key.Obj? then DeadKey(n.key.ref) else n.key, Nil)
  }

  ghost predicate ClearedArr(h: Heap, arr: seq<Value>, arr': seq<Value>) {
    |arr'| == |arr| && forall i :: 0 <= i < |arr| ==> arr'[i] == arr[i] || (arr'[i] == Nil && Collected(h, arr[i]))
  }

  ghost predicate ClearedNodes(h: Heap, nodes: seq<Node>, nodes': seq<Node>) {
    |nodes'| == |nodes| && forall i :: 0 <= i < |nodes| ==>
      nodes'[i] == nodes[i] ||
      (nodes'[i] == Removed(nodes[i]) && (Collected(h, nodes[i].key) || Collected(h, nodes[i].val)))
  }

  predicate NodeKept(h: Heap, n: Node) {
    n.val != Nil ==> Kept(h, n.key) && Kept(h, n.val)
  }

  method ClearArray(c: Collector, arr: seq<Value>, ghost h0: Heap, ghost b: iset<Ref>) returns (arr': seq<Value>)
    requires forall v :: v in arr && v.Obj? ==> v.ref in c.g.heap && (c.g.heap[v.ref].body.Str? ==> v.ref in b)
    requires StringsMarked(h0, c.g.heap) && MarksIn(c.g.heap, b)
    modifies c
    ensures c.g == old(c.g).(heap := c.g.heap) && StringsMarked(h0, c.g.heap) && MarksIn(c.g.heap, b)
    ensures ClearedArr(h0, arr, arr') && AllMarked(c.g.heap, arr')
  {
    ghost var g0 := c.g;
    arr' := arr;
    var i := |arr|;
    while i > 0
      invariant 0 <= i <= |arr| == |arr'|
      invariant c.g == g0.(heap := c.g.heap) && StringsMarked(h0, c.g.heap) && MarksIn(c.g.heap, b)
      invariant arr'[..i] == arr[..i] && ClearedArr(h0, arr, arr')
      invariant forall j :: i <= j < |arr'| ==> Kept(c.g.heap, arr'[j])
    {
      i := i - 1;
      assert arr[i] in arr && arr'[i] == arr[i];
      if arr[i].Obj? {
        assert SameButMarkedString(h0[arr[i].ref], g0.heap[arr[i].ref]);
        assert SameButMarkedString(h0[arr[i].ref], c.g.heap[arr[i].ref]);
      }
      var cleared := IsCleared(c, arr[i], h0, b);
      if cleared {
        arr' := arr'[i := Nil];
      }
    }
  }

  method ClearNode(c: Collector, n: Node, ghost h0: Heap, ghost b: iset<Ref>) returns (n': Node)
    requires n.val != Nil ==> InRange(c.g.heap, n.key, b) && InRange(c.g.heap, n.val, b)
    requires StringsMarked(h0, c.g.heap) && MarksIn(c.g.heap, b)
    modifies c
    ensures c.g == old(c.g).(heap := c.g.heap) && StringsMarked(h0, c.g.heap) && MarksIn(c.g.heap, b)
    ensures forall q :: NonWhite(old(c.g).heap, q) ==> NonWhite(c.g.heap, q)
    ensures n' == n || (n' == Removed(n) && (Collected(h0, n.key) || Collected(h0, n.val)))
    ensures NodeKept(c.g.heap, n')
  {
    n' := n;
    if n.val != Nil {
      ghost var h1 := c.g.heap;
      var cleared := IsCleared(c, n.key, h0, b);
      if !cleared {
        InRangeKept(h0, h1, c.g.heap, n.val, b);
        cleared := IsCleared(c, n.val, h0, b);
      }
      if cleared {
        n' := Removed(n);
      }
    }
  }

  predicate InRange(h: Heap, v: Value, b: iset<Ref>) {
    v.Obj? ==> v.ref in h && (h[v.ref].body.Str? ==> v.ref in b)
  }

  lemma InRangeKept(h0: Heap, h1: Heap, h2: Heap, v: Value, b: iset<Ref>)
    requires StringsMarked(h0, h1) && StringsMarked(h0, h2) && InRange(h1, v, b)
    ensures InRange(h2, v, b)
  {
    if v.Obj? {
      assert SameButMarkedString(h0[v.ref], h1[v.ref]);
      assert SameButMarkedString(h0[v.ref], h2[v.ref]);
    }
  }

  method ClearNodes(c: Collector, nodes: seq<Node>, ghost h0: Heap, ghost b: iset<Ref>) returns (nodes': seq<Node>)
    requires forall i :: 0 <= i < |nodes| && nodes[i].val != Nil ==>
      InRange(c.g.heap, nodes[i].key, b) && InRange(c.g.heap, nodes[i].val, b)
    requires StringsMarked(h0, c.g.heap) && MarksIn(c.g.heap, b)
    modifies c
    ensures c.g == old(c.g).(heap := c.g.heap) && StringsMarked(h0, c.g.heap) && MarksIn(c.g.heap, b)
    ensures forall q :: NonWhite(old(c.g).heap, q) ==> NonWhite(c.g.heap, q)
    ensures ClearedNodes(h0, nodes, nodes')
    ensures forall i :: 0 <= i < |nodes'| ==> NodeKept(c.g.heap, nodes'[i])
  {
    ghost var g0 := c.g;
    nodes' := nodes;
    var i := |nodes|;
    while i > 0
      invariant 0 <= i <= |nodes| == |nodes'|
      invariant c.g == g0.(heap := c.g.heap) && StringsMarked(h0, c.g.heap) && MarksIn(c.g.heap, b)
      invariant forall q :: NonWhite(g0.heap, q) ==> NonWhite(c.g.heap, q)
      invariant nodes'[..i] == nodes[..i] && ClearedNodes(h0, nodes, nodes')
      invariant forall j :: i <= j < |nodes'| ==> NodeKept(c.g.heap, nodes'[j])
    {
      i := i - 1;
      InRangeKept(h0, g0.heap, c.g.heap, if nodes[i].val != Nil then nodes[i].key else Nil, b);
      InRangeKept(h0, g0.heap, c.g.heap, if nodes[i].val != Nil then nodes[i].val else Nil, b);
      var n := ClearNode(c, nodes[i], h0, b);
      nodes' := nodes'[i := n];
    }
  }

  ghost predicate ClearedTable(h: Heap, b: Body, b': Body) {
    && b.Table? && b'.Table? && b' == b.(arr := b'.arr, nodes := b'.nodes)
    && ClearedArr(h, b.arr, b'.arr) && ClearedNodes(h, b.nodes, b'.nodes)
  }

  ghost predicate CleanedObject(h: Heap, o: Object, o': Object, weak: bool) {
    && o'.fixed == o.fixed && o'.weak == o.weak
    && (o'.color == o.color || (o.body.Str? && IsWhite(o.color) && o'.color == Gray))
    && (o'.body == o.body || (weak && ClearedTable(h, o.body, o'.body)))
  }

  /** `h'` is `h` with some strings marked and the tables `weak` cleared. */
  ghost predicate Cleaned(h: Heap, h': Heap, weak: seq<Ref>) {
    h'.Keys == h.Keys && forall r :: r in h ==> CleanedObject(h, h[r], h'[r], r in weak)
  }

  /** Nothing the table `r` holds is about to be freed. */
  ghost predicate WeakClean(h: Heap, r: Ref) {
    r in h && h[r].body.Table? && AllMarked(h, Contents(h, h[r].body, STRONG))
  }

  lemma KeptNodeValues(h: Heap, nodes: seq<Node>)
    requires forall i :: 0 <= i < |nodes| ==> NodeKept(h, nodes[i])
    ensures AllMarked(h, NodeValues(nodes, true, true))
  {
    if nodes != [] {
      var k := |nodes| - 1;
      assert forall i :: 0 <= i < k ==> nodes[..k][i] == nodes[i];
      KeptNodeValues(h, nodes[..k]);
      assert NodeKept(h, nodes[k]);
    }
  }

  lemma NodesInContents(h: Heap, r: Ref, i: nat)
    requires r in h && h[r].body.Table? && i < |h[r].body.nodes| && h[r].body.nodes[i].val != Nil
    ensures h[r].body.nodes[i].key in Contents(h, h[r].body, STRONG)
    ensures h[r].body.nodes[i].val in Contents(h, h[r].body, STRONG)
  {
    NodeIn(h[r].body.nodes, i);
  }

  /** A marked weak table ready for clearing: its metatable is marked, and its array part too
      unless the traversal found the values weak. */
  ghost predicate Clearable(h: Heap, r: Ref) {
    && r in h && h[r].body.Table?
    && Kept(h, h[r].body.metatable)
    && (!h[r].weak.val ==> AllMarked(h, h[r].body.arr))
  }

  /** The part of cleartable for one table (lgc.c:353-372). */
  method ClearOne(c: Collector, r: Ref, ghost b: iset<Ref>)
    requires Clearable(c.g.heap, r) && RefsIn(c.g.heap) && StringClosed(c.g.heap, b) && MarksIn(c.g.heap, b) && r in b
    modifies c
    ensures c.g == old(c.g).(heap := c.g.heap) && Cleaned(old(c.g).heap, c.g.heap, [r])
    ensures MarksIn(c.g.heap, b) && WeakClean(c.g.heap, r)
  {
    ghost var h0 := c.g.heap;
    var o := c.g.heap[r];
    forall v | v in Contents(h0, o.body, STRONG) ensures InRange(h0, v, b) {
      assert v.Obj? ==> Edge(h0, r, v.ref);
    }
    var arr := o.body.arr;
    if o.weak.val {
      arr := ClearArray(c, o.body.arr, h0, b);
    }
    ghost var h1 := c.g.heap;
    forall i | 0 <= i < |o.body.nodes| && o.body.nodes[i].val != Nil
      ensures InRange(h1, o.body.nodes[i].key, b) && InRange(h1, o.body.nodes[i].val, b)
    {
      NodesInContents(h0, r, i);
      InRangeKept(h0, h0, h1, o.body.nodes[i].key, b);
      InRangeKept(h0, h0, h1, o.body.nodes[i].val, b);
    }
    var nodes := ClearNodes(c, o.body.nodes, h0, b);
    ghost var h2 := c.g.heap;
    c.g := c.g.(heap := c.g.heap[r := c.g.heap[r].(body := o.body.(arr := arr, nodes := nodes))]);
    ClearOneDone(h0, h1, h2, r, arr, nodes);
  }

  lemma ClearOneDone(h0: Heap, h1: Heap, h2: Heap, r: Ref, arr: seq<Value>, nodes: seq<Node>)
    requires Clearable(h0, r) && StringsMarked(h0, h1) && StringsMarked(h0, h2)
    requires forall q :: NonWhite(h1, q) ==> NonWhite(h2, q)
    requires ClearedArr(h0, h0[r].body.arr, arr) && AllMarked(h1, arr)
    requires ClearedNodes(h0, h0[r].body.nodes, nodes)
    requires forall i :: 0 <= i < |nodes| ==> NodeKept(h2, nodes[i])
    ensures var h3 := h2[r := h2[r].(body := h0[r].body.(arr := arr, nodes := nodes))];
      Cleaned(h0, h3, [r]) && WeakClean(h3, r) && forall q :: NonWhite(h3, q) ==> NonWhite(h2, q)
  {
    var h3 := h2[r := h2[r].(body := h0[r].body.(arr := arr, nodes := nodes))];
    assert forall q :: NonWhite(h2, q) ==> NonWhite(h3, q);
    assert forall i :: 0 <= i < |nodes| ==> NodeKept(h2, nodes[i]) && NodeKept(h3, nodes[i]);
    KeptNodeValues(h3, nodes);
    assert SameButMarkedString(h0[r], h2[r]);
    forall x | x in h0 ensures CleanedObject(h0, h0[x], h3[x], x in [r]) {
      assert SameButMarkedString(h0[x], h2[x]);
    }
    if h0[r].body.metatable.Obj? {
      assert SameButMarkedString(h0[h0[r].body.metatable.ref], h2[h0[r].body.metatable.ref]);
    }
  }

  lemma CollectedKept(h: Heap, h': Heap, weak: seq<Ref>, v: Value)
    requires Cleaned(h, h', weak)
    ensures Collected(h', v) == Collected(h, v)
  {
    if v.Obj? && v.ref in h {
      assert CleanedObject(h, h[v.ref], h'[v.ref], v.ref in weak);
    }
  }

  lemma CleanedTrans(h: Heap, h1: Heap, h2: Heap, weak: seq<Ref>, r: Ref)
    requires Cleaned(h, h1, weak) && Cleaned(h1, h2, [r]) && r !in weak
    ensures Cleaned(h, h2, weak + [r])
  {
    forall x | x in h ensures CleanedObject(h, h[x], h2[x], x in weak + [r]) {
      assert CleanedObject(h, h[x], h1[x], x in weak) && CleanedObject(h1, h1[x], h2[x], x in [r]);
      if x == r && h2[x].body != h1[x].body {
        forall v ensures Collected(h1, v) == Collected(h, v) { CollectedKept(h, h1, weak, v); }
      }
    }
  }

  lemma ClearedNodeValues(h: Heap, nodes: seq<Node>, nodes': seq<Node>, v: Value)
    requires ClearedNodes(h, nodes, nodes') && v in NodeValues(nodes', true, true)
    ensures v in NodeValues(nodes, true, true)
  {
    if nodes != [] {
      var k := |nodes| - 1;
      assert nodes'[k] == nodes[k] || nodes'[k] == Removed(nodes[k]);
      if v in NodeValues(nodes'[..k], true, true) {
        assert ClearedNodes(h, nodes[..k], nodes'[..k]) by {
          assert forall i :: 0 <= i < k ==> nodes[..k][i] == nodes[i] && nodes'[..k][i] == nodes'[i];
        }
        ClearedNodeValues(h, nodes[..k], nodes'[..k], v);
      }
    }
  }

  /** Clearing adds no reference. */
  lemma CleanedContents(h: Heap, h': Heap, weak: seq<Ref>, r: Ref, v: Value)
    requires Cleaned(h, h', weak) && r in h && v.Obj? && v in Contents(h', h'[r].body, STRONG)
    ensures v in Contents(h, h[r].body, STRONG)
  {
    assert CleanedObject(h, h[r], h'[r], r in weak);
    var b, b' := h[r].body, h'[r].body;
    if b' != b {
      if v in NodeValues(b'.nodes, true, true) {
        ClearedNodeValues(h, b.nodes, b'.nodes, v);
      } else if v in b'.arr {
        var i :| 0 <= i < |b'.arr| && b'.arr[i] == v;
        assert b.arr[i] == v;
      }
    } else if b.UpVal? && b.cell.Open? && b.cell.thread in h {
      assert CleanedObject(h, h[b.cell.thread], h'[b.cell.thread], b.cell.thread in weak);
    }
  }

  lemma CleanedKeeps(h: Heap, h': Heap, weak: seq<Ref>, b: iset<Ref>)
    requires Cleaned(h, h', weak)
    ensures RefsIn(h) ==> RefsIn(h')
    ensures StringClosed(h, b) ==> StringClosed(h', b)
    ensures forall q :: NonWhite(h, q) ==> NonWhite(h', q)
  {
    forall r, q | r in h' && Edge(h', r, q) ensures Edge(h, r, q) {
      CleanedContents(h, h', weak, r, Obj(q));
    }
    forall q | q in h ensures h'[q].body.Str? == h[q].body.Str? && (NonWhite(h, q) ==> NonWhite(h', q)) {
      assert CleanedObject(h, h[q], h'[q], q in weak);
    }
  }

  lemma WeakCleanKept(h: Heap, h': Heap, r: Ref, x: Ref)
    requires Cleaned(h, h', [r]) && WeakClean(h, x)
    ensures WeakClean(h', x)
  {
    assert CleanedObject(h, h[x], h'[x], x in [r]);
    CleanedKeeps(h, h', [r], iset{});
    forall v | v in Contents(h', h'[x].body, STRONG) && v.Obj? ensures NonWhite(h', v.ref) {
      CleanedContents(h, h', [r], x, v);
    }
  }

  lemma ClearableKept(h: Heap, h': Heap, weak: seq<Ref>, x: Ref)
    requires Cleaned(h, h', weak) && Clearable(h, x) && x !in weak
    ensures Clearable(h', x)
  {
    assert CleanedObject(h, h[x], h'[x], false);
    CleanedKeeps(h, h', weak, iset{});
  }

  /** lgc.c:351-375 */
  method ClearTable(c: Collector, ghost b: iset<Ref>)
    requires Distinct(c.g.weak) && forall r :: r in c.g.weak ==> Clearable(c.g.heap, r) && r in b
    requires RefsIn(c.g.heap) && StringClosed(c.g.heap, b) && MarksIn(c.g.heap, b)
    modifies c
    ensures c.g == old(c.g).(heap := c.g.heap) && Cleaned(old(c.g).heap, c.g.heap, c.g.weak)
    ensures MarksIn(c.g.heap, b) && forall r :: r in c.g.weak ==> WeakClean(c.g.heap, r)
  {
    ghost var g0 := c.g;
    var weak := c.g.weak;
    var i := 0;
    while i < |weak|
      invariant 0 <= i <= |weak|
      invariant c.g == g0.(heap := c.g.heap) && Cleaned(g0.heap, c.g.heap, weak[..i]) && MarksIn(c.g.heap, b)
      invariant forall r :: r in weak[..i] ==> WeakClean(c.g.heap, r)
    {
      ghost var h1 := c.g.heap;
      assert weak[i] !in weak[..i];
      CleanedKeeps(g0.heap, h1, weak[..i], b);
      ClearableKept(g0.heap, h1, weak[..i], weak[i]);
      ClearOne(c, weak[i], b);
      CleanedTrans(g0.heap, h1, c.g.heap, weak[..i], weak[i]);
      assert weak[..i + 1] == weak[..i] + [weak[i]];
      forall r | r in weak[..i] ensures WeakClean(c.g.heap, r) { WeakCleanKept(h1, c.g.heap, weak[i], r); }
      i := i + 1;
    }
    assert weak[..i] == weak;
  }
}
