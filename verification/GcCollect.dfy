/** The collector's step and its full cycle (lgc.c:501-607, 636-659). */
module GcCollect {
  import opened GcHeap
  import opened GcMark
  import opened GcCycle
  import opened GcAtomic
  import opened GcClear
  import opened GcInvariant
  import opened GcSweep

  const GCSWEEPMAX := 40

  /** `b` holds the roots and whatever a cycle may keep because of something in `b`. */
  ghost predicate Bound(g: Global, b: iset<Ref>) {
    StrongClosed(g.heap, b) && StringClosed(g.heap, b) && RootsIn(g, b)
  }

  lemma NoneDoomed(g: Global)
    requires NoDangling(g) && forall r :: r in g.heap ==> g.heap[r].color != Other(g.white)
    ensures RefsIn(g.heap)
  {
    assert forall r :: !Doomed(g, r);
  }

  /** Marking keeps the invariant of the whole system. */
  lemma MarkInv(g: Global, g': Global)
    requires Shape(g) && Extends(g.heap, g'.heap)
    requires g' == g.(heap := g'.heap, phase := Propagate, gray := g'.gray, grayagain := g'.grayagain, weak := g'.weak)
    requires PropagateOk(g') && RefsIn(g'.heap)
    requires forall v :: v in RootValues(g) && v.Obj? ==> v.ref in g.heap
    ensures Inv(g')
  {
    ExtendsShape(g, g');
    assert RootValues(g') == RootValues(g);
    assert forall r :: !Doomed(g', r);
  }

  /** The shape depends on which bodies there are, not on what tables hold. */
  lemma BodiesShape(g: Global, g': Global)
    requires Shape(g) && g'.heap.Keys == g.heap.Keys
    requires g'.rootgc == g.rootgc && g'.strt == g.strt && g'.mainthread == g.mainthread && IsWhite(g'.white)
    requires forall r :: r in g'.heap && NeverBlack(g'.heap[r].body) ==> g'.heap[r].color != Black
    requires forall r :: r in g.heap ==> g'.heap[r].fixed == g.heap[r].fixed
    requires forall r :: r in g.heap ==>
      g'.heap[r].body == g.heap[r].body || (g.heap[r].body.Table? && g'.heap[r].body.Table?)
    ensures Shape(g')
  {
    SameUpvals(g.heap, g'.heap);
    StringsKept(g, g');
    RootListKept(g, g');
  }

  lemma NeverBlackKept(g: Global)
    requires Tri(g, {})
    ensures forall r :: r in g.heap && NeverBlack(g.heap[r].body) ==> g.heap[r].color != Black
  {
    forall r | r in g.heap && NeverBlack(g.heap[r].body) ensures g.heap[r].color != Black {
      assert ColorRule(g, r);
    }
  }

  lemma ExtendsShape(g: Global, g': Global)
    requires Shape(g) && Extends(g.heap, g'.heap)
    requires g'.rootgc == g.rootgc && g'.strt == g.strt && g'.mainthread == g.mainthread && IsWhite(g'.white)
    requires forall r :: r in g'.heap && NeverBlack(g'.heap[r].body) ==> g'.heap[r].color != Black
    ensures Shape(g')
  {
    hide Shape;
    forall r | r in g.heap
      ensures g'.heap[r].body == g.heap[r].body || (g.heap[r].body.Table? && g'.heap[r].body.Table?)
    {
      assert SameBody(g.heap[r].body, g'.heap[r].body);
    }
    BodiesShape(g, g');
  }

  lemma FreshCycle(g: Global, b: iset<Ref>)
    requires AllClean(g) && IsWhite(g.white) && NoDangling(g) && Bound(g, b)
    ensures Ready(g.(gray := [], grayagain := [], weak := []), {}, b)
  {
    assert forall r :: r in g.heap ==> g.heap[r].color != Other(g.white);
    NoneDoomed(g);
  }

  /** lgc.c:501-512 */
  method MarkRoot(c: Collector, ghost b: iset<Ref>)
    requires Shape(c.g) && NoDangling(c.g) && AllClean(c.g) && Bound(c.g, b)
    modifies c
    ensures Inv(c.g) && c.g.phase == Propagate && MarksIn(c.g.heap, b) && Extends(old(c.g).heap, c.g.heap)
    ensures c.g == old(c.g).(heap := c.g.heap, phase := Propagate, gray := c.g.gray, grayagain := [], weak := [])
  {
    ghost var g0 := c.g;
    FreshCycle(c.g, b);
    c.g := c.g.(gray := [], grayagain := [], weak := []);
    MarkRoots(c, b);
    MarkedExtends(g0.(gray := [], grayagain := [], weak := []), c.g);
    c.g := c.g.(phase := Propagate);
    RootsFound(g0, c.g, b);
    MarkInv(g0, c.g);
  }

  lemma RootsFound(g0: Global, g: Global, b: iset<Ref>)
    requires RootsIn(g0, b) && g == g0.(heap := g.heap, phase := Propagate, gray := g.gray, grayagain := [], weak := [])
    requires Ready(g.(phase := g0.phase), {}, b) && AllMarked(g.heap, RootValues(g))
    ensures PropagateOk(g) && RefsIn(g.heap)
  {
    assert forall r :: OnList(g, r) == OnList(g.(phase := g0.phase), r);
    assert forall r :: r in g.heap && ColorRule(g.(phase := g0.phase), r) ==> ColorRule(g, r);
    assert Obj(g.mainthread) in RootValues(g) && g.registry in RootValues(g);
  }

  method MarkRoots(c: Collector, ghost b: iset<Ref>)
    requires Ready(c.g, {}, b) && RootsIn(c.g, b) && IsThread(c.g.heap, c.g.mainthread)
    modifies c
    ensures Marking(old(c.g), c.g, {}, b) && AllMarked(c.g.heap, RootValues(c.g))
  {
    hide Ready, Marked;
    var main := c.g.heap[c.g.mainthread].body;
    var roots := [Obj(c.g.mainthread), main.gt, c.g.registry] + c.g.mt;
    GlobalsIn(c.g, b);
    MarkValues(c, roots, c.g, {}, b);
    SameRoots(old(c.g), c.g);
    assert forall v :: v in RootValues(c.g) ==> v in roots;
  }

  lemma GlobalsIn(g: Global, b: iset<Ref>)
    requires Ready(g, {}, b) && RootsIn(g, b) && IsThread(g.heap, g.mainthread)
    ensures Marking(g, g, {}, b)
    ensures forall v :: v in [Obj(g.mainthread), g.heap[g.mainthread].body.gt, g.registry] + g.mt && v.Obj? ==>
      v.ref in g.heap && v.ref in b
  {
    RootsInParts(g, b);
    ContentsIn(g, g.mainthread, b);
    assert g.heap[g.mainthread].body.gt in Children(g.heap, g.mainthread);
  }

  lemma SameRoots(g: Global, g': Global)
    requires Marked(g, g')
    ensures g'.mainthread == g.mainthread && g'.registry == g.registry && g'.mt == g.mt
  {}

  /** What the sweep that follows will keep. */
  ghost function Survivors(g: Global): iset<Ref> {
    iset r | r in g.heap && g.heap[r].color != Other(g.white)
  }

  /** The marking phase is over: the marked objects include the roots, are closed under strong
      references, and lie in every bound `b` of the cycle. Only weak tables have lost entries, and only
      entries with an unmarked key or value. */
  ghost predicate MarkedExactly(g: Global, g': Global, b: iset<Ref>) {
    && g'.heap.Keys == g.heap.Keys && g'.white == Other(g.white)
    && g' == g.(heap := g'.heap, phase := SweepString, white := g'.white, gray := g'.gray, grayagain := g'.grayagain,
                weak := g'.weak, sweepstr := 0, sweepgc := 0)
    && (forall r :: r in g'.heap ==> g'.heap[r].color != g'.white)
    && Survivors(g') <= b
    && (forall v :: v in RootValues(g) && v.Obj? ==> v.ref in Survivors(g'))
    && StrongClosed(g.heap, Survivors(g'))
    && exists h :: Extends(g.heap, h) && Cleaned(h, g'.heap, g'.weak)
  }

  /** Every marked object has its children marked. */
  lemma AllSettled(g: Global, r: Ref)
    requires Tri(g, {}) && MarkComplete(g) && NonWhite(g.heap, r)
    ensures Settled(g.heap, r)
    ensures r !in g.weak ==> AllMarked(g.heap, Contents(g.heap, g.heap[r].body, STRONG))
  {
    assert ColorRule(g, r);
    if g.heap[r].color == Black {
      forall v | v in Children(g.heap, r) && v.Obj? ensures NonWhite(g.heap, v.ref) {
        ChildrenAreContents(g.heap, r, v);
      }
    }
  }

  lemma WeakClearable(g: Global, r: Ref)
    requires MarkComplete(g) && r in g.weak
    ensures Clearable(g.heap, r)
  {
    var b := g.heap[r].body;
    assert WeakDone(g.heap, r);
    assert b.metatable in Children(g.heap, r);
    if !g.heap[r].weak.val {
      assert forall v :: v in b.arr ==> v in Children(g.heap, r);
    }
  }

  /** After the weak tables are cleared, nothing marked holds anything unmarked. */
  lemma CleanedClosed(g: Global, h': Heap, r: Ref, q: Ref)
    requires Tri(g, {}) && MarkComplete(g) && Cleaned(g.heap, h', g.weak)
    requires forall x :: x in g.weak ==> WeakClean(h', x)
    requires NonWhite(h', r) && Edge(h', r, q)
    ensures NonWhite(h', q)
  {
    assert CleanedObject(g.heap, g.heap[r], h'[r], r in g.weak);
    if r !in g.weak {
      AllSettled(g, r);
      CleanedContents(g.heap, h', g.weak, r, Obj(q));
      assert NonWhite(g.heap, q);
      assert CleanedObject(g.heap, g.heap[q], h'[q], q in g.weak);
    }
  }

  lemma CleanedShape(g: Global, g': Global)
    requires Shape(g) && Cleaned(g.heap, g'.heap, g.weak) && IsWhite(g'.white)
    requires g'.rootgc == g.rootgc && g'.strt == g.strt && g'.mainthread == g.mainthread
    ensures Shape(g')
  {
    forall r | r in g.heap
      ensures g'.heap[r].body == g.heap[r].body || (g.heap[r].body.Table? && g'.heap[r].body.Table?)
      ensures g'.heap[r].fixed == g.heap[r].fixed && (g'.heap[r].color == Black ==> g.heap[r].color == Black)
    {
      assert CleanedObject(g.heap, g.heap[r], g'.heap[r], r in g.weak);
    }
    BodiesShape(g, g');
  }

  /** The end of `atomic` (lgc.c:546-551) seen from the state `g` in which marking is complete. */
  ghost predicate Flipped(g: Global, g': Global) {
    && Cleaned(g.heap, g'.heap, g.weak) && (forall x :: x in g.weak ==> WeakClean(g'.heap, x))
    && g' == g.(heap := g'.heap, white := Other(g.white), sweepstr := 0, sweepgc := 0, phase := SweepString)
  }

  lemma FlipInv(g: Global, g': Global)
    requires Shape(g) && Tri(g, {}) && MarkComplete(g) && Flipped(g, g')
    ensures Inv(g') && Survivors(g') == iset r | NonWhite(g'.heap, r)
  {
    FlipNoDangling(g, g');
    FlipSurvivors(g, g');
    hide Tri, MarkComplete, NoDangling;
    CleanedShape(g, g');
  }

  lemma FlipSurvivors(g: Global, g': Global)
    requires IsWhite(g.white) && Tri(g, {}) && Flipped(g, g')
    ensures Survivors(g') == iset r | NonWhite(g'.heap, r)
  {
    forall r | r in g'.heap ensures g'.heap[r].color != g'.white {
      assert CleanedObject(g.heap, g.heap[r], g'.heap[r], r in g.weak);
    }
  }

  lemma FlipNoDangling(g: Global, g': Global)
    requires Shape(g) && Tri(g, {}) && MarkComplete(g) && Flipped(g, g')
    ensures NoDangling(g')
  {
    FlipSurvivors(g, g');
    CleanedKeeps(g.heap, g'.heap, g.weak, iset{});
    hide StringsOk, RootListOk, UpvalsOk;
    forall r, q | r in g'.heap && !Doomed(g', r) && Edge(g'.heap, r, q) ensures q in g'.heap && !Doomed(g', q) {
      if r !in Survivors(g') {
        assert CleanedObject(g.heap, g.heap[r], g'.heap[r], r in g.weak);
        MainMarked(g);
      }
      CleanedClosed(g, g'.heap, r, q);
    }
    assert RootValues(g') == RootValues(g);
  }

  lemma MainMarked(g: Global)
    requires MarkComplete(g)
    ensures NonWhite(g.heap, g.mainthread)
  {
    assert Obj(g.mainthread) in RootValues(g);
  }

  lemma FlipExact(g0: Global, g: Global, g': Global, b: iset<Ref>)
    requires Extends(g0.heap, g.heap) && Tri(g, {}) && MarkComplete(g) && Flipped(g, g')
    requires g == g0.(heap := g.heap, gray := [], grayagain := g.grayagain, weak := g.weak)
    requires Survivors(g') == iset r | NonWhite(g'.heap, r)
    requires MarksIn(g'.heap, b)
    ensures MarkedExactly(g0, g', b)
  {
    CleanedKeeps(g.heap, g'.heap, g.weak, iset{});
    assert RootValues(g) == RootValues(g0);
    forall r, q | r in g0.heap && r in Survivors(g') && StrongEdge(g0.heap, r, q) ensures q in Survivors(g') {
      assert CleanedObject(g.heap, g.heap[r], g'.heap[r], r in g.weak);
      ExtendsContents(g0.heap, g.heap, r, STRONG);
      if NonWhite(g.heap, r) {
        AllSettled(g, r);
      }
    }
  }

  lemma AtomicReady(g: Global, b: iset<Ref>)
    requires Inv(g) && g.phase == Propagate && Bound(g, b) && MarksIn(g.heap, b)
    ensures Ready(g, {}, b)
  {
    NoneDoomed(g);
  }

  /** lgc.c:525-553, with no userdata that need finalization. */
  method Atomic(c: Collector, ghost b: iset<Ref>)
    requires Inv(c.g) && c.g.phase == Propagate && c.g.gray == [] && Bound(c.g, b) && MarksIn(c.g.heap, b)
    modifies c
    ensures Inv(c.g) && MarkedExactly(old(c.g), c.g, b)
  {
    hide Shape, NoDangling, Extends, Cleaned, MarkComplete;
    ghost var g0 := c.g;
    AtomicReady(c.g, b);
    FinishMarking(c, b);
    ghost var g1 := c.g;
    AtomicClear(g0, g1, b);
    ClearTable(c, b);
    c.g := c.g.(white := Other(c.g.white), sweepstr := 0, sweepgc := 0, phase := SweepString);
    FlipInv(g1, c.g);
    FlipExact(g0, g1, c.g, b);
  }

  lemma AtomicClear(g0: Global, g: Global, b: iset<Ref>)
    requires Inv(g0) && Bound(g0, b) && Extends(g0.heap, g.heap) && Ready(g, {}, b) && MarkComplete(g)
    requires g == g0.(heap := g.heap, gray := [], grayagain := g.grayagain, weak := g.weak)
    ensures Distinct(g.weak) && forall r :: r in g.weak ==> Clearable(g.heap, r) && r in b
    ensures StringClosed(g.heap, b) && Shape(g)
  {
    hide StringsOk, RootListOk, UpvalsOk;
    forall r | r in g.weak ensures Clearable(g.heap, r) && r in b {
      WeakClearable(g, r);
      assert OnList(g, r);
    }
    forall r, q | r in g.heap && r in b && Edge(g.heap, r, q) && q in g.heap && g.heap[q].body.Str? ensures q in b {
      ExtendsContents(g0.heap, g.heap, r, STRONG);
      assert Edge(g0.heap, r, q);
      assert SameBody(g0.heap[q].body, g.heap[q].body);
    }
    NeverBlackKept(g);
    hide Shape;
    ExtendsShape(g0, g);
  }

  /** GCSsweepstring: one bucket (lgc.c:572-580). */
  method SweepStringStep(c: Collector)
    requires Inv(c.g) && c.g.phase == SweepString
    modifies c
    ensures Inv(c.g) && Swept(old(c.g), c.g) && ClosedWithThread(old(c.g), c.g)
    ensures c.g.phase == Sweep || (c.g.phase == SweepString && c.g.sweepstr == old(c.g).sweepstr + 1)
    ensures |c.g.strt| == |old(c.g).strt|
  {
    hide Shape, Swept, NoDangling;
    ghost var g0 := c.g;
    SweptRefl(g0);
    SweepBucket(c, c.g.sweepstr, g0);
    ghost var g1 := c.g;
    BucketSwept(g0, g1);
    c.g := c.g.(sweepstr := c.g.sweepstr + 1);
    if c.g.sweepstr >= |c.g.strt| {
      c.g := c.g.(phase := Sweep);
    }
    BucketDone(g0, g1, c.g);
  }

  lemma SweptRefl(g: Global)
    requires Shape(g)
    ensures Sweeping(g, g)
  {}

  lemma BucketSwept(g0: Global, g1: Global)
    requires SweepStringOk(g0) && OnlyBucket(g0, g1, g0.sweepstr)
    requires forall r :: r in g1.strt[g0.sweepstr] ==> Clean(g1, r)
    ensures forall i, r :: 0 <= i <= g0.sweepstr && r in g1.strt[i] ==> Clean(g1, r)
  {
    forall i, r | 0 <= i <= g0.sweepstr && r in g1.strt[i] ensures Clean(g1, r) {
      if i < g0.sweepstr {
        assert g1.strt[i] == g0.strt[i] && r in g0.strt[i];
        assert Clean(g0, r) && SameAt(g0.heap, g1.heap, r);
      }
    }
  }

  lemma BucketDone(g0: Global, g1: Global, g2: Global)
    requires Inv(g0) && g0.phase == SweepString && Sweeping(g0, g1) && OnlyBucket(g0, g1, g0.sweepstr)
    requires forall i, r :: 0 <= i <= g0.sweepstr && r in g1.strt[i] ==> Clean(g1, r)
    requires g2 ==
      g1.(sweepstr := g1.sweepstr + 1, phase := if g1.sweepstr + 1 >= |g1.strt| then Sweep else SweepString)
    ensures Inv(g2) && Swept(g0, g2) && ClosedWithThread(g0, g2)
  {
    SweptPhase(g0, g1, g2);
    SweptNoDangling(g0, g2);
    if g2.phase == Sweep {
      forall r | r in g2.heap && g2.heap[r].body.Str? ensures Clean(g2, r) {
        assert InSomeBucket(g1.strt, r);
        var i :| 0 <= i < |g1.strt| && r in g1.strt[i];
        assert Clean(g1, r);
      }
    } else {
      assert forall r :: Clean(g1, r) ==> Clean(g2, r);
    }
  }

  /** The sweep pointers and the phase play no part in what was swept. */
  lemma SweptPhase(g0: Global, g: Global, g': Global)
    requires Sweeping(g0, g) && g' == g.(phase := g'.phase, sweepstr := g'.sweepstr)
    ensures Sweeping(g0, g')
  {
    hide StringsOk, RootListOk, UpvalsOk;
    StringsKept(g, g');
    RootListKept(g, g');
  }

  /** GCSsweep: up to GCSWEEPMAX objects (lgc.c:581-591). */
  method SweepStep(c: Collector)
    requires Inv(c.g) && c.g.phase == Sweep
    modifies c
    ensures Inv(c.g) && Swept(old(c.g), c.g) && ClosedWithThread(old(c.g), c.g)
    ensures c.g.phase == Finalize || (c.g.phase == Sweep && Todo(c.g) < Todo(old(c.g)))
  {
    hide Shape, Swept, NoDangling, SweepOk;
    ghost var g0 := c.g;
    SweptRefl(g0);
    SweepAtMostRoot(g0);
    var count := GCSWEEPMAX;
    while c.g.sweepgc < |c.g.rootgc| && count > 0
      invariant Sweeping(g0, c.g) && SweepOk(c.g) && c.g.phase == Sweep && c.g.sweepgc <= |c.g.rootgc|
      invariant 0 <= count <= GCSWEEPMAX && Todo(c.g) <= Todo(g0)
      invariant count < GCSWEEPMAX ==> Todo(c.g) < Todo(g0)
      decreases count
    {
      SweepOne(c, g0);
      SweepAtMostRoot(c.g);
      count := count - 1;
    }
    ghost var g1 := c.g;
    if c.g.sweepgc == |c.g.rootgc| {
      c.g := c.g.(phase := Finalize);
      SweepDone(g1);
    }
    SweepStepped(g0, g1, c.g);
  }

  lemma SweepAtMostRoot(g: Global)
    requires SweepOk(g)
    ensures g.sweepgc <= |g.rootgc|
  {}

  lemma SweepStepped(g0: Global, g1: Global, g2: Global)
    requires Shape(g0) && NoDangling(g0) && Sweeping(g0, g1) && g2 == g1.(phase := g2.phase) && PhaseOk(g2)
    ensures Inv(g2) && Swept(g0, g2) && ClosedWithThread(g0, g2)
  {
    SweptPhase(g0, g1, g2);
    SweptNoDangling(g0, g2);
  }

  /** When the sweep has passed the whole list, nothing is left but objects of the new white. */
  lemma SweepDone(g: Global)
    requires Shape(g) && SweepOk(g) && g.sweepgc == |g.rootgc|
    ensures AllClean(g.(phase := Finalize))
  {
    assert g.rootgc[..g.sweepgc] == g.rootgc;
    forall r | r in g.heap ensures Clean(g, r) {
      if IsOpen(g.heap[r].body) {
        var t := g.heap[r].body.cell.thread;
        assert IsThread(g.heap, t) && OpenOn(g.heap, r, t);
      }
    }
  }

  /** What one step of the collector does, phase by phase. */
  ghost predicate Stepped(g: Global, g': Global, b: iset<Ref>) {
    match g.phase
    case Pause =>
      g'.phase == Propagate && Extends(g.heap, g'.heap) && MarksIn(g'.heap, b) && RootValues(g') == RootValues(g)
    case Propagate =>
      if g.gray != []
      then g'.phase == Propagate && Propagated(g, g') && MarksIn(g'.heap, b) && Work(g') < Work(g)
      else MarkedExactly(g, g', b)
    case SweepString =>
      Swept(g, g') && ClosedWithThread(g, g') && |g'.strt| == |g.strt| &&
      (g'.phase == Sweep || (g'.phase == SweepString && g'.sweepstr == g.sweepstr + 1))
    case Sweep =>
      Swept(g, g') && ClosedWithThread(g, g') &&
      (g'.phase == Finalize || (g'.phase == Sweep && Todo(g') < Todo(g)))
    case Finalize =>
      g' == g.(phase := Pause)
  }

  /** lgc.c:556-607, with no userdata that need finalization. */
  method SingleStep(c: Collector, ghost b: iset<Ref>)
    requires Inv(c.g)
    requires c.g.phase == Pause || c.g.phase == Propagate ==> Bound(c.g, b)
    requires c.g.phase == Propagate ==> MarksIn(c.g.heap, b)
    modifies c
    ensures Inv(c.g) && Stepped(old(c.g), c.g, b)
  {
    hide Shape, NoDangling;
    ghost var g0 := c.g;
    match c.g.phase
    case Pause =>
      MarkRoot(c, b);
    case Propagate =>
      if c.g.gray != [] {
        AtomicReady(c.g, b);
        PropagateMark(c, b);
        PropagateInv(g0, c.g, b);
      } else {
        Atomic(c, b);
      }
    case SweepString =>
      SweepStringStep(c);
    case Sweep =>
      SweepStep(c);
    case Finalize =>
      c.g := c.g.(phase := Pause);
      PauseInv(g0);
  }

  lemma PropagateInv(g: Global, g': Global, b: iset<Ref>)
    requires Inv(g) && g.phase == Propagate && Ready(g', {}, b) && Propagated(g, g')
    ensures Inv(g')
  {
    MarkInv(g, g');
  }

  lemma PauseInv(g: Global)
    requires Inv(g) && g.phase == Finalize
    ensures Inv(g.(phase := Pause))
  {
    var g' := g.(phase := Pause);
    assert RootValues(g') == RootValues(g);
    assert forall r :: Doomed(g', r) == Doomed(g, r);
  }
}
