/** The start of a cycle and the atomic step that ends marking (lgc.c:330-375, 493-553). */
module GcAtomic {
  import opened GcHeap
  import opened GcMark
  import opened GcCycle

  function RootValues(g: Global): seq<Value> {
    [Obj(g.mainthread), g.registry] + g.mt
  }

  /** Every open upvalue that is marked has its value marked. */
  ghost predicate UpvalsDone(h: Heap) {
    forall r :: NonWhite(h, r) && IsOpen(h[r].body) ==> CellMarked(h, h[r].body.cell)
  }

  lemma UpvalsDoneKept(h: Heap, h': Heap)
    requires UpvalsDone(h) && Extends(h, h') && UpvalsSettle(h, h')
    ensures UpvalsDone(h')
  {
    forall r | NonWhite(h', r) && IsOpen(h'[r].body) ensures CellMarked(h', h'[r].body.cell) {
      assert SameBody(h[r].body, h'[r].body);
      ExtendsCell(h, h', h[r].body.cell);
    }
  }

  ghost predicate CellsDone(h: Heap, todo: set<Ref>) {
    forall r :: NonWhite(h, r) && IsOpen(h[r].body) && r !in todo ==> CellMarked(h, h[r].body.cell)
  }

  ghost predicate AllOpen(h: Heap, todo: set<Ref>) {
    forall r :: r in todo ==> r in h && IsOpen(h[r].body)
  }

  /** lgc.c:515-522. The open upvalues of dead threads are gray with nobody to revisit their slots. */
  method RemarkUpvals(c: Collector, ghost b: iset<Ref>)
    requires Ready(c.g, {}, b)
    modifies c
    ensures Marking(old(c.g), c.g, {}, b) && UpvalsDone(c.g.heap)
  {
    ghost var g0 := c.g;
    var todo := set r | r in c.g.heap && IsOpen(c.g.heap[r].body);
    while todo != {}
      invariant Marking(g0, c.g, {}, b) && AllOpen(c.g.heap, todo) && CellsDone(c.g.heap, todo)
    {
      var r :| r in todo;
      RemarkUpval(c, r, g0, todo, b);
      todo := todo - {r};
    }
  }

  method RemarkUpval(c: Collector, r: Ref, ghost g0: Global, ghost todo: set<Ref>, ghost b: iset<Ref>)
    requires Marking(g0, c.g, {}, b) && AllOpen(c.g.heap, todo) && CellsDone(c.g.heap, todo) && r in todo
    modifies c
    ensures Marking(g0, c.g, {}, b) && AllOpen(c.g.heap, todo) && CellsDone(c.g.heap, todo - {r})
  {
    ghost var g1 := c.g;
    if c.g.heap[r].color == Gray {
      ContentsIn(c.g, r, b);
      MarkValue(c, CellValue(c.g.heap, c.g.heap[r].body.cell), g0, {}, b);
    }
    RemarkStep(g1, c.g, r, todo);
  }

  lemma RemarkStep(g: Global, g': Global, r: Ref, todo: set<Ref>)
    requires Tri(g, {}) && Marked(g, g') && AllOpen(g.heap, todo) && CellsDone(g.heap, todo) && r in todo
    requires g.heap[r].color == Gray ==>
      var v := CellValue(g.heap, g.heap[r].body.cell); v.Obj? ==> NonWhite(g'.heap, v.ref)
    ensures AllOpen(g'.heap, todo) && CellsDone(g'.heap, todo - {r})
  {
    MarkedExtends(g, g');
    forall x | x in todo ensures x in g'.heap && IsOpen(g'.heap[x].body) {
      assert Recolored(g.heap[x], g'.heap[x]);
    }
    forall x | NonWhite(g'.heap, x) && IsOpen(g'.heap[x].body) && x !in todo - {r}
      ensures CellMarked(g'.heap, g'.heap[x].body.cell)
    {
      assert Recolored(g.heap[x], g'.heap[x]);
      assert ColorRule(g, x);
      ExtendsCell(g.heap, g'.heap, g.heap[x].body.cell);
    }
  }

  /** Everything marked has its children marked, but for the weak references of weak tables. */
  ghost predicate MarkComplete(g: Global) {
    && g.gray == []
    && (forall r :: r in g.weak ==> WeakDone(g.heap, r))
    && (forall r :: r in g.grayagain ==> ThreadDone(g.heap, r))
    && UpvalsDone(g.heap)
    && AllMarked(g.heap, RootValues(g))
  }

  ghost predicate RootsIn(g: Global, b: iset<Ref>) {
    forall v :: v in RootValues(g) && v.Obj? ==> v.ref in g.heap && v.ref in b
  }

  /** The `weak` list is traversed again. */
  lemma WeakToGray(g: Global, b: iset<Ref>)
    requires Ready(g, {}, b) && g.gray == []
    ensures Ready(g.(gray := g.weak, weak := []), {}, b)
  {
    var g' := g.(gray := g.weak, weak := []);
    assert forall r :: OnList(g', r) == OnList(g, r);
    assert forall r :: r in g.heap && ColorRule(g, r) ==> ColorRule(g', r);
  }

  lemma GrayAgainToGray(g: Global, b: iset<Ref>)
    requires Ready(g, {}, b) && g.gray == []
    ensures Ready(g.(gray := g.grayagain, grayagain := []), {}, b)
  {
    var g' := g.(gray := g.grayagain, grayagain := []);
    assert forall r :: OnList(g', r) == OnList(g, r);
    assert forall r :: r in g.heap && ColorRule(g, r) ==> ColorRule(g', r);
  }

  /** The part of `atomic` before the weak tables are cleared (lgc.c:529-542). */
  method FinishMarking(c: Collector, ghost b: iset<Ref>)
    requires Ready(c.g, {}, b) && c.g.gray == []
    requires RootsIn(c.g, b) && NonWhite(c.g.heap, c.g.mainthread)
    requires c.g.registry.Obj? ==> NonWhite(c.g.heap, c.g.registry.ref)
    modifies c
    ensures Ready(c.g, {}, b) && MarkComplete(c.g) && Extends(old(c.g).heap, c.g.heap)
    ensures c.g == old(c.g).(heap := c.g.heap, gray := [], grayagain := c.g.grayagain, weak := c.g.weak)
  {
    ghost var g0 := c.g;
    RemarkUpvals(c, b);
    ghost var g1 := c.g;
    MarkedExtends(g0, g1);
    PropagateAll(c, b);
    ghost var g2 := c.g;
    UpvalsDoneKept(g1.heap, g2.heap);
    ExtendsTrans(g0.heap, g1.heap, g2.heap);
    WeakToGray(c.g, b);
    c.g := c.g.(gray := c.g.weak, weak := []);
    RemarkRoots(c, g0, b);
    SecondRound(c, g0, b);
    ghost var g3 := c.g;
    GrayAgainToGray(c.g, b);
    c.g := c.g.(gray := c.g.grayagain, grayagain := []);
    PropagateAll(c, b);
    LastRound(g3, c.g);
    ExtendsTrans(g0.heap, g3.heap, c.g.heap);
  }

  method SecondRound(c: Collector, ghost g0: Global, ghost b: iset<Ref>)
    requires Ready(c.g, {}, b) && c.g.weak == [] && UpvalsDone(c.g.heap) && Extends(g0.heap, c.g.heap)
    requires AllMarked(c.g.heap, RootValues(c.g))
    modifies c
    ensures Ready(c.g, {}, b) && c.g.gray == [] && UpvalsDone(c.g.heap) && Extends(g0.heap, c.g.heap)
    ensures AllMarked(c.g.heap, RootValues(c.g))
    ensures forall r :: r in c.g.weak ==> WeakDone(c.g.heap, r)
    ensures c.g == old(c.g).(heap := c.g.heap, gray := [], grayagain := c.g.grayagain, weak := c.g.weak)
  {
    ghost var g1 := c.g;
    PropagateAll(c, b);
    UpvalsDoneKept(g1.heap, c.g.heap);
    ExtendsTrans(g0.heap, g1.heap, c.g.heap);
  }

  /** Mark the running thread and the basic metatables (lgc.c:536-537). */
  method RemarkRoots(c: Collector, ghost g0: Global, ghost b: iset<Ref>)
    requires Ready(c.g, {}, b) && UpvalsDone(c.g.heap) && Extends(g0.heap, c.g.heap)
    requires c.g.mainthread == g0.mainthread && c.g.registry == g0.registry && c.g.mt == g0.mt && RootsIn(g0, b)
    requires g0.registry.Obj? ==> NonWhite(g0.heap, g0.registry.ref)
    modifies c
    ensures Ready(c.g, {}, b) && UpvalsDone(c.g.heap) && Extends(g0.heap, c.g.heap)
    ensures AllMarked(c.g.heap, RootValues(c.g))
    ensures c.g == old(c.g).(heap := c.g.heap, gray := c.g.gray)
  {
    ghost var g1 := c.g;
    RootsInParts(g0, b);
    MarkValue(c, Obj(c.g.mainthread), g1, {}, b);
    ghost var g2 := c.g;
    MarkValues(c, c.g.mt, g1, {}, b);
    MarkedExtends(g2, c.g);
    MarkedExtends(g1, c.g);
    UpvalsDoneKept(g1.heap, c.g.heap);
    ExtendsTrans(g0.heap, g1.heap, c.g.heap);
    RootsMarked(g0.heap, c.g.heap, c.g.heap, c.g);
  }

  lemma RootsInParts(g: Global, b: iset<Ref>)
    requires RootsIn(g, b)
    ensures g.mainthread in g.heap && g.mainthread in b
    ensures g.registry.Obj? ==> g.registry.ref in g.heap && g.registry.ref in b
    ensures forall v :: v in g.mt && v.Obj? ==> v.ref in g.heap && v.ref in b
  {
    assert Obj(g.mainthread) in RootValues(g) && g.registry in RootValues(g);
    assert forall v :: v in g.mt ==> v in RootValues(g);
  }

  lemma RootsMarked(h0: Heap, h1: Heap, h2: Heap, g: Global)
    requires Extends(h0, h2) && Extends(h1, h2)
    requires NonWhite(h1, g.mainthread) && AllMarked(h1, g.mt)
    requires g.registry.Obj? ==> NonWhite(h0, g.registry.ref)
    ensures AllMarked(h2, RootValues(g))
  {
    forall v | v in RootValues(g) && v.Obj? ensures NonWhite(h2, v.ref) {
      assert v == Obj(g.mainthread) || v == g.registry || v in g.mt;
    }
  }

  lemma LastRound(g: Global, g': Global)
    requires AllMarked(g.heap, RootValues(g)) && UpvalsDone(g.heap)
    requires forall r :: r in g.weak ==> WeakDone(g.heap, r)
    requires Propagated(g.(gray := g.grayagain, grayagain := []), g') && g'.gray == []
    ensures MarkComplete(g')
  {
    UpvalsDoneKept(g.heap, g'.heap);
    forall r | r in g'.weak ensures WeakDone(g'.heap, r) {
      if r in g.weak { WeakDoneKept(g.heap, g'.heap, r); }
    }
  }
}
