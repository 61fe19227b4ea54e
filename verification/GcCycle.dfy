/** Propagation and the atomic end of the marking phase (lgc.c:277-375, 501-553). */
module GcCycle {
  import opened GcHeap
  import opened GcMark

  /** A weak table whose traversal is up to date. */
  ghost predicate WeakDone(h: Heap, r: Ref) {
    r in h && h[r].body.Table? && h[r].weak == ModeOf(h, h[r].body.metatable) && Settled(h, r)
  }

  ghost predicate ThreadDone(h: Heap, r: Ref) {
    r in h && h[r].body.Thread? && Settled(h, r)
  }

  /** `g'` is `g` after some propagation steps. */
  ghost predicate Propagated(g: Global, g': Global) {
    && g' == g.(heap := g'.heap, gray := g'.gray, grayagain := g'.grayagain, weak := g'.weak)
    && Extends(g.heap, g'.heap)
    && UpvalsSettle(g.heap, g'.heap)
    && (forall r :: r in g.weak && r in g.heap ==> r in g'.weak && g'.heap[r].weak == g.heap[r].weak)
    && (forall r :: r in g'.weak ==> r in g.weak || WeakDone(g'.heap, r))
    && (forall r :: r in g'.grayagain ==> r in g.grayagain || ThreadDone(g'.heap, r))
  }

  /** The effect of removeentry on every empty entry (lgc.c:62-66). */
  function RemoveEmpty(nodes: seq<Node>): (nodes': seq<Node>)
    ensures |nodes'| == |nodes| && forall i :: 0 <= i < |nodes| ==> SameNode(nodes[i], nodes'[i])
    ensures forall i :: 0 <= i < |nodes'| && nodes'[i].key.Obj? ==> nodes'[i].val != Nil
  {
    seq(|nodes|, i requires 0 <= i < |nodes| =>
      if nodes[i].val == Nil && nodes[i].key.Obj? then Node(DeadKey(nodes[i].key.ref), Nil) else nodes[i])
  }

  /** The gray object that propagatemark works on: off the list and black. */
  function Popped(g: Global): Global
    requires g.gray != [] && g.gray[0] in g.heap
  {
    Paint(g.(gray := g.gray[1..]), g.gray[0], Black)
  }

  lemma RestOf(s: seq<Ref>)
    requires s != []
    ensures (forall x :: x in s[1..] ==> x in s) && forall x :: x in s && x != s[0] ==> x in s[1..]
  {
    forall x | x in s && x != s[0] ensures x in s[1..] {
      var i :| 0 <= i < |s| && s[i] == x;
      assert s[1..][i - 1] == x;
    }
  }

  lemma PoppedReady(g: Global, b: iset<Ref>)
    requires Ready(g, {}, b) && g.gray != []
    ensures g.gray[0] in g.heap && Ready(Popped(g), {g.gray[0]}, b)
    ensures Whites(Popped(g).heap) == Whites(g.heap)
  {
    var r := g.gray[0];
    assert OnList(g, r);
    var g' := Popped(g);
    PaintExtends(g, r, Black);
    ExtendsRefsIn(g.heap, g'.heap);
    ExtendsClosed(g.heap, g'.heap, b);
    RestOf(g.gray);
    forall x | x in g'.heap && x != r ensures ColorRule(g', x) {
      ExtendsRule(g, g', x);
    }
  }

  /** What propagatemark does to the object after its children are marked. A weak table goes back to
      gray and on the `weak` list, a thread on `grayagain`. */
  function Finished(g: Global, r: Ref): Global
    requires r in g.heap
  {
    var o := g.heap[r];
    match o.body
    case Table(mt, _, _, nodes) =>
      var w := ModeOf(g.heap, mt);
      var o' := o.(body := o.body.(nodes := if w.key && w.val then nodes else RemoveEmpty(nodes)));
      if w.key || w.val
      then g.(heap := g.heap[r := o'.(color := Gray, weak := w)], weak := [r] + g.weak)
      else g.(heap := g.heap[r := o'])
    case Thread(_, _, _) =>
      g.(heap := g.heap[r := o.(color := Gray)], grayagain := [r] + g.grayagain)
    case _ => g
  }

  lemma FinishedExtends(g: Global, r: Ref)
    requires NonWhite(g.heap, r)
    ensures Extends(g.heap, Finished(g, r).heap)
  {}

  /** A black table all of whose children are marked guards its keys once the empty ones are removed. */
  lemma StrongTableGuarded(h: Heap, h': Heap, r: Ref)
    requires Extends(h, h') && r in h && h[r].body.Table? && Settled(h, r)
    requires ModeOf(h, h[r].body.metatable) == STRONG
    requires h'[r].body.nodes == RemoveEmpty(h[r].body.nodes)
    ensures Guarded(h', h'[r].body)
  {
    ExtendsContents(h, h', r, STRONG);
    var b' := h'[r].body;
    forall q | KeyOf(b', q) ensures NonWhite(h', q) {
      var i :| 0 <= i < |b'.nodes| && b'.nodes[i].key == Obj(q);
      NodeIn(b'.nodes, i);
      assert Obj(q) in Contents(h', b', STRONG);
    }
  }

  lemma FinishedRule(g: Global, r: Ref)
    requires r in g.heap && g.heap[r].color == Black && Listable(g.heap[r].body) && Settled(g.heap, r)
    ensures ColorRule(Finished(g, r), r)
  {
    var g' := Finished(g, r);
    var body := g.heap[r].body;
    FinishedExtends(g, r);
    if body.Table? && ModeOf(g.heap, body.metatable) == STRONG {
      StrongTableGuarded(g.heap, g'.heap, r);
    } else if body.Block? {
      ExtendsContents(g.heap, g'.heap, r, STRONG);
    }
  }

  lemma FinishedReady(g: Global, r: Ref, b: iset<Ref>)
    requires Ready(g, {r}, b) && g.heap[r].color == Black && Listable(g.heap[r].body) && Settled(g.heap, r)
    ensures Ready(Finished(g, r), {}, b)
  {
    var g' := Finished(g, r);
    FinishedExtends(g, r);
    FinishedRules(g, r);
    hide Tri, RefsIn, StrongClosed, Finished;
    ExtendsRefsIn(g.heap, g'.heap);
    ExtendsClosed(g.heap, g'.heap, b);
  }

  lemma FinishedRules(g: Global, r: Ref)
    requires Tri(g, {r}) && g.heap[r].color == Black && Listable(g.heap[r].body) && Settled(g.heap, r)
    ensures Tri(Finished(g, r), {})
  {
    var g' := Finished(g, r);
    assert !OnList(g, r);
    FinishedRule(g, r);
    forall x | x in g'.heap ensures ColorRule(g', x) {
      if x != r { FinishedOther(g, r, x); }
    }
  }

  lemma FinishedOther(g: Global, r: Ref, x: Ref)
    requires NonWhite(g.heap, r) && x in g.heap && x != r && ColorRule(g, x)
    ensures x in Finished(g, r).heap && ColorRule(Finished(g, r), x)
  {
    FinishedExtends(g, r);
    ExtendsRule(g, Finished(g, r), x);
  }

  lemma FinishedLists(g: Global, r: Ref)
    requires NonWhite(g.heap, r) && Settled(g.heap, r)
    ensures var g' := Finished(g, r);
      && g' == g.(heap := g'.heap, grayagain := g'.grayagain, weak := g'.weak)
      && (forall x :: x in g.heap && x != r ==> g'.heap[x] == g.heap[x])
      && (forall x :: x in g.weak ==> x in g'.weak)
      && (forall x :: x in g'.weak ==> x in g.weak || (x == r && WeakDone(g'.heap, r)))
      && (forall x :: x in g'.grayagain ==> x in g.grayagain || (x == r && ThreadDone(g'.heap, r)))
      && Whites(g'.heap) == Whites(g.heap)
  {
    var g' := Finished(g, r);
    FinishedExtends(g, r);
    ExtendsSettled(g.heap, g'.heap, r);
    var body := g.heap[r].body;
    hide AllMarked, Contents, NodeValues, SameNode, Settled, RemoveEmpty;
    if body.Table? && body.metatable.Obj? && body.metatable.ref in g.heap {
      assert SameBody(g.heap[body.metatable.ref].body, g'.heap[body.metatable.ref].body);
    }
  }

  /** One step: pop, mark the children, finish. */
  lemma StepPropagated(g: Global, g2: Global, b: iset<Ref>)
    requires Ready(g, {}, b) && g.gray != [] && g.gray[0] in g.heap
    requires Marked(Popped(g), g2) && Ready(g2, {g.gray[0]}, b)
    requires AllMarked(g2.heap, Children(g.heap, g.gray[0]))
    ensures var g3 := Finished(g2, g.gray[0]);
      Ready(g3, {}, b) && Propagated(g, g3) && Work(g3) < Work(g)
  {
    var r := g.gray[0];
    var g1, g3 := Popped(g), Finished(g2, r);
    assert OnList(g, r);
    PaintExtends(g, r, Black);
    MarkedExtends(g1, g2);
    ExtendsTrans(g.heap, g1.heap, g2.heap);
    ExtendsContents(g.heap, g2.heap, r, STRONG);
    assert Recolored(g1.heap[r], g2.heap[r]);
    FinishedReady(g2, r, b);
    FinishedExtends(g2, r);
    FinishedLists(g2, r);
    ExtendsTrans(g.heap, g2.heap, g3.heap);
    PoppedReady(g, b);
    StepLists(g, g2, g3);
    StepUpvals(g, g2, g3);
  }

  lemma StepLists(g: Global, g2: Global, g3: Global)
    requires ListsDisjoint(g) && g.gray != [] && g.gray[0] in g.heap && Marked(Popped(g), g2)
    requires forall x :: x in g2.heap && x != g.gray[0] ==> x in g3.heap && g3.heap[x] == g2.heap[x]
    ensures forall x :: x in g.weak && x in g.heap ==> g3.heap[x].weak == g.heap[x].weak
  {
    var g1 := Popped(g);
    forall x | x in g.weak && x in g.heap ensures g3.heap[x].weak == g.heap[x].weak {
      assert x != g.gray[0];
      assert Recolored(g1.heap[x], g2.heap[x]);
    }
  }

  lemma StepUpvals(g: Global, g2: Global, g3: Global)
    requires g.gray != [] && g.gray[0] in g.heap && Listable(g.heap[g.gray[0]].body) && Marked(Popped(g), g2)
    requires Extends(g2.heap, g3.heap)
    requires forall x :: x in g2.heap && x != g.gray[0] ==> g3.heap[x] == g2.heap[x]
    ensures UpvalsSettle(g.heap, g3.heap)
  {
    var g1 := Popped(g);
    forall x | x in g.heap && x in g3.heap && IsOpen(g.heap[x].body) && IsWhite(g.heap[x].color) && NonWhite(g3.heap, x)
      ensures CellMarked(g3.heap, g.heap[x].body.cell)
    {
      assert g1.heap[x] == g.heap[x];
      ExtendsCell(g2.heap, g3.heap, g.heap[x].body.cell);
    }
  }

  /** lgc.c:277-320 */
  method PropagateMark(c: Collector, ghost b: iset<Ref>)
    requires Ready(c.g, {}, b) && c.g.gray != []
    modifies c
    ensures Ready(c.g, {}, b) && Propagated(old(c.g), c.g) && Work(c.g) < Work(old(c.g))
  {
    ghost var g0 := c.g;
    var r := c.g.gray[0];
    assert OnList(c.g, r);
    PoppedReady(c.g, b);
    var children := Children(c.g.heap, r);
    ContentsIn(c.g, r, b);
    c.g := Popped(c.g);
    MarkValues(c, children, c.g, {r}, b);
    StepPropagated(g0, c.g, b);
    c.g := Finished(c.g, r);
  }

  lemma PropagatedTrans(g: Global, g1: Global, g2: Global)
    requires Propagated(g, g1) && Propagated(g1, g2)
    requires forall r :: r in g1.weak ==> r in g1.heap
    ensures Propagated(g, g2)
  {
    ExtendsTrans(g.heap, g1.heap, g2.heap);
    forall r | r in g.heap && r in g2.heap && IsOpen(g.heap[r].body) && IsWhite(g.heap[r].color) && NonWhite(g2.heap, r)
      ensures CellMarked(g2.heap, g.heap[r].body.cell)
    {
      ExtendsCell(g1.heap, g2.heap, g.heap[r].body.cell);
      assert SameBody(g.heap[r].body, g1.heap[r].body);
    }
    forall r | r in g2.weak && r !in g.weak ensures WeakDone(g2.heap, r) {
      if r in g1.weak { WeakDoneKept(g1.heap, g2.heap, r); }
    }
    forall r | r in g2.grayagain && r !in g.grayagain ensures ThreadDone(g2.heap, r) {
      if r in g1.grayagain {
        ExtendsSettled(g1.heap, g2.heap, r);
        assert SameBody(g1.heap[r].body, g2.heap[r].body);
      }
    }
  }

  lemma WeakDoneKept(h: Heap, h': Heap, r: Ref)
    requires Extends(h, h') && WeakDone(h, r) && h'[r].weak == h[r].weak
    ensures WeakDone(h', r)
  {
    ExtendsSettled(h, h', r);
    assert SameBody(h[r].body, h'[r].body);
    var mt := h[r].body.metatable;
    if mt.Obj? && mt.ref in h {
      assert SameBody(h[mt.ref].body, h'[mt.ref].body);
    }
  }

  /** lgc.c:323-327 */
  method PropagateAll(c: Collector, ghost b: iset<Ref>)
    requires Ready(c.g, {}, b)
    modifies c
    ensures Ready(c.g, {}, b) && Propagated(old(c.g), c.g) && c.g.gray == []
  {
    ghost var g0 := c.g;
    while c.g.gray != []
      invariant Ready(c.g, {}, b) && Propagated(g0, c.g)
      decreases Work(c.g)
    {
      ghost var g1 := c.g;
      assert forall r :: r in g1.weak ==> OnList(g1, r);
      PropagateMark(c, b);
      PropagatedTrans(g0, g1, c.g);
    }
  }
}
