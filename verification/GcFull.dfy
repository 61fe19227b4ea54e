/** luaC_fullgc (lgc.c:636-659) keeps what is strongly reachable and frees the rest. */
module GcFull {
  import opened GcHeap
  import opened GcMark
  import opened GcCycle
  import opened GcAtomic
  import opened GcClear
  import opened GcInvariant
  import opened GcSweep
  import opened GcCollect
  import opened GcRetain

  /** The references a collection follows. It follows strong ones; strings count as values and are
      also kept through weak ones. */
  predicate KeepEdge(h: Heap, r: Ref, q: Ref)
    requires r in h
  {
    StrongEdge(h, r, q) || (Edge(h, r, q) && q in h && h[q].body.Str?)
  }

  ghost predicate StrongPath(roots: seq<Value>, h: Heap, p: Trail) {
    match p
    case Root(r) => Obj(r) in roots
    case Step(q, r) => StrongPath(roots, h, q) && q.end in h && StrongEdge(h, q.end, r)
  }

  ghost predicate KeepPath(roots: seq<Value>, h: Heap, p: Trail) {
    match p
    case Root(r) => Obj(r) in roots
    case Step(q, r) => KeepPath(roots, h, q) && q.end in h && KeepEdge(h, q.end, r)
  }

  ghost predicate StrongReachable(roots: seq<Value>, h: Heap, r: Ref) {
    exists p :: StrongPath(roots, h, p) && p.end == r
  }

  ghost predicate KeepReachable(roots: seq<Value>, h: Heap, r: Ref) {
    exists p :: KeepPath(roots, h, p) && p.end == r
  }

  // ----- sweeping leaves reachability alone -----

  lemma SweptChildren(g: Global, g': Global, r: Ref)
    requires Swept(g, g') && NoDangling(g) && r in g'.heap && !Doomed(g, r)
    ensures Children(g'.heap, r) == Children(g.heap, r)
    ensures forall q :: KeepEdge(g'.heap, r, q) == KeepEdge(g.heap, r, q)
  {
    var b := g.heap[r].body;
    assert SweptObject(g, r, g'.heap[r]);
    SweptContents(g, g', r, STRONG);
    if b.Table? {
      var w := ModeOf(g.heap, b.metatable);
      SweptContents(g, g', r, w);
      if b.metatable.Obj? && b.metatable.ref in g.heap {
        assert Edge(g.heap, r, b.metatable.ref);
        assert SweptObject(g, b.metatable.ref, g'.heap[b.metatable.ref]);
      }
    }
    forall q | Edge(g.heap, r, q) ensures q in g'.heap && g'.heap[q].body.Str? == g.heap[q].body.Str? {
      assert SweptObject(g, q, g'.heap[q]);
    }
  }

  lemma {:induction false} SweptStrongPath(g: Global, g': Global, p: Trail)
    requires Swept(g, g') && NoDangling(g) && StrongPath(RootValues(g), g.heap, p)
    ensures StrongPath(RootValues(g), g'.heap, p)
    ensures p.end in g'.heap && !Doomed(g, p.end)
  {
    if p.Step? {
      SweptStrongPath(g, g', p.prev);
      SweptChildren(g, g', p.prev.end);
      ChildrenAreContents(g.heap, p.prev.end, Obj(p.end));
      assert Edge(g.heap, p.prev.end, p.end);
    }
  }

  lemma {:induction false} SweptKeepPath(g: Global, g': Global, p: Trail)
    requires Swept(g, g') && NoDangling(g) && KeepPath(RootValues(g), g'.heap, p)
    ensures KeepPath(RootValues(g), g.heap, p)
    ensures p.end in g'.heap && !Doomed(g, p.end)
  {
    if p.Step? {
      SweptKeepPath(g, g', p.prev);
      SweptChildren(g, g', p.prev.end);
      if StrongEdge(g.heap, p.prev.end, p.end) { ChildrenAreContents(g.heap, p.prev.end, Obj(p.end)); }
      assert Edge(g.heap, p.prev.end, p.end);
    }
  }

  lemma SweptReach(g: Global, g': Global, r: Ref)
    requires Swept(g, g') && NoDangling(g)
    ensures StrongReachable(RootValues(g), g.heap, r) ==> StrongReachable(RootValues(g), g'.heap, r)
    ensures KeepReachable(RootValues(g), g'.heap, r) ==> KeepReachable(RootValues(g), g.heap, r)
  {
    if StrongReachable(RootValues(g), g.heap, r) {
      var p :| StrongPath(RootValues(g), g.heap, p) && p.end == r;
      SweptStrongPath(g, g', p);
    }
    if KeepReachable(RootValues(g), g'.heap, r) {
      var p :| KeepPath(RootValues(g), g'.heap, p) && p.end == r;
      SweptKeepPath(g, g', p);
    }
  }

  // ----- the objects reachable through kept references bound the cycle -----

  ghost function Reach(g: Global): iset<Ref> {
    iset r | KeepReachable(RootValues(g), g.heap, r)
  }

  lemma ReachStep(g: Global, r: Ref, q: Ref)
    requires r in g.heap && r in Reach(g) && KeepEdge(g.heap, r, q)
    ensures q in Reach(g)
  {
    var p :| KeepPath(RootValues(g), g.heap, p) && p.end == r;
    assert KeepPath(RootValues(g), g.heap, Step(p, q));
  }

  lemma ReachBound(g: Global)
    requires NoDangling(g)
    ensures Bound(g, Reach(g))
  {
    forall r, q | r in g.heap && r in Reach(g) && KeepEdge(g.heap, r, q) ensures q in Reach(g) {
      ReachStep(g, r, q);
    }
    assert forall r, q :: r in g.heap && StrongEdge(g.heap, r, q) ==> KeepEdge(g.heap, r, q);
    assert forall r, q :: r in g.heap && Edge(g.heap, r, q) && q in g.heap && g.heap[q].body.Str? ==>
      KeepEdge(g.heap, r, q);
    forall v | v in RootValues(g) && v.Obj? ensures v.ref in Reach(g) {
      assert KeepPath(RootValues(g), g.heap, Root(v.ref));
    }
  }

  // ----- the cycle -----

  /** How far the cycle that started in `g0` with everything white has got: what is marked lies in
      `b`; later, what lies outside is doomed and what is strongly reachable is safe. */
  ghost predicate CycleOk(g0: Global, g: Global, b: iset<Ref>) {
    match g.phase
    case Propagate => Extends(g0.heap, g.heap) && MarksIn(g.heap, b) && RootValues(g) == RootValues(g0)
    case _ =>
      && (forall r :: r in g.heap ==> r in b || g.heap[r].fixed || g.heap[r].color == Other(g.white))
      && (forall r :: StrongReachable(RootValues(g0), g0.heap, r) ==> r in g.heap && g.heap[r].color != Other(g.white))
  }

  lemma CycleBound(g0: Global, g: Global, b: iset<Ref>)
    requires Bound(g0, b) && CycleOk(g0, g, b) && g.phase == Propagate
    ensures Bound(g, b)
  {
    ExtendsClosed(g0.heap, g.heap, b);
    forall r, q | r in g.heap && r in b && Edge(g.heap, r, q) && q in g.heap && g.heap[q].body.Str? ensures q in b {
      ExtendsContents(g0.heap, g.heap, r, STRONG);
      assert Edge(g0.heap, r, q);
      assert SameBody(g0.heap[q].body, g.heap[q].body);
    }
  }

  lemma {:induction false} StrongSurvives(g0: Global, g: Global, g': Global, p: Trail)
    requires Extends(g0.heap, g.heap) && StrongClosed(g.heap, Survivors(g'))
    requires forall v :: v in RootValues(g0) && v.Obj? ==> v.ref in Survivors(g')
    requires StrongPath(RootValues(g0), g0.heap, p)
    ensures p.end in Survivors(g')
  {
    if p.Step? {
      StrongSurvives(g0, g, g', p.prev);
      ExtendsContents(g0.heap, g.heap, p.prev.end, STRONG);
      assert StrongEdge(g.heap, p.prev.end, p.end);
    }
  }

  lemma CycleAtomic(g0: Global, g: Global, g': Global, b: iset<Ref>)
    requires CycleOk(g0, g, b) && g.phase == Propagate && MarkedExactly(g, g', b)
    ensures CycleOk(g0, g', b)
  {
    forall r | r in g'.heap && g'.heap[r].color != Other(g'.white) ensures r in b {
      assert r in Survivors(g');
    }
    forall r | StrongReachable(RootValues(g0), g0.heap, r) ensures r in Survivors(g') {
      var p :| StrongPath(RootValues(g0), g0.heap, p) && p.end == r;
      StrongSurvives(g0, g, g', p);
    }
  }

  lemma CycleSwept(g0: Global, g: Global, g': Global, b: iset<Ref>)
    requires CycleOk(g0, g, b) && g.phase != Propagate && g'.phase != Propagate && Swept(g, g') && IsWhite(g.white)
    ensures CycleOk(g0, g', b)
  {
    forall r | r in g'.heap
      ensures r in b || g'.heap[r].fixed || g'.heap[r].color == Other(g'.white)
      ensures g.heap[r].color != Other(g.white) ==> g'.heap[r].color != Other(g'.white)
    {
      assert SweptObject(g, r, g'.heap[r]);
    }
  }

  lemma CycleStep(g0: Global, g: Global, g': Global, b: iset<Ref>)
    requires Inv(g) && CycleOk(g0, g, b) && g.phase != Pause && Stepped(g, g', b)
    ensures CycleOk(g0, g', b)
    ensures Rank(g'.phase) < Rank(g.phase) || (g'.phase == g.phase && Left(g') < Left(g))
  {
    match g.phase
    case Propagate =>
      if g.gray != [] {
        ExtendsTrans(g0.heap, g.heap, g'.heap);
      } else {
        CycleAtomic(g0, g, g', b);
      }
    case SweepString =>
      CycleSwept(g0, g, g', b);
    case Sweep =>
      CycleSwept(g0, g, g', b);
    case Finalize =>
  }

  /** The phases a cycle still has to go through. */
  function Rank(p: Phase): nat {
    match p
    case Pause => 0
    case Finalize => 1
    case Sweep => 2
    case SweepString => 3
    case Propagate => 4
  }

  ghost function Left(g: Global): int {
    match g.phase
    case Propagate => Work(g)
    case SweepString => |g.strt| - g.sweepstr
    case Sweep => Todo(g)
    case _ => 0
  }

  lemma LeftNat(g: Global)
    requires Inv(g)
    ensures Left(g) >= 0
  {}

  // ----- luaC_fullgc -----

  /** Abandon a marking phase: sweep everything back to white (lgc.c:638-647). */
  function Abandoned(g: Global): Global {
    if g.phase == Pause || g.phase == Propagate
    then g.(sweepstr := 0, sweepgc := 0, gray := [], grayagain := [], weak := [], phase := SweepString)
    else g
  }

  lemma AbandonedInv(g: Global)
    requires Inv(g)
    ensures Inv(Abandoned(g)) && RootValues(Abandoned(g)) == RootValues(g)
  {
    var g' := Abandoned(g);
    assert forall r :: Doomed(g', r) == Doomed(g, r);
    assert RootValues(g') == RootValues(g);
    AbandonedShape(g);
    hide Shape, Doomed;
  }

  lemma AbandonedShape(g: Global)
    requires Shape(g)
    ensures Shape(Abandoned(g)) && |g.strt| > 0
  {
    hide UpvalsOk;
  }

  lemma AbandonedRetained(g: Global)
    requires Inv(g)
    ensures Retained(g, Abandoned(g))
  {
    if g.phase == Pause || g.phase == Propagate {
      AbandonedInv(g);
      AllSpared(g);
      AbandonedParts(g);
      hide Abandoned, Retained, Shape, NoDangling;
      ExtendsRetained(g, Abandoned(g));
    } else {
      RetainedRefl(g);
    }
  }

  lemma AllSpared(g: Global)
    requires Inv(g) && (g.phase == Pause || g.phase == Propagate)
    ensures forall r :: r in g.heap ==> g.heap[r].color != Other(g.white)
  {
    hide StringsOk, RootListOk, UpvalsOk, NoDangling;
  }

  lemma AbandonedParts(g: Global)
    ensures var g' := Abandoned(g);
      Extends(g.heap, g'.heap) && g'.mainthread == g.mainthread && g'.registry == g.registry && g'.mt == g.mt
  {}

  /** The start of a cycle. */
  lemma MarkedRetained(g: Global, g': Global)
    requires Inv(g) && AllClean(g) && Inv(g') && Extends(g.heap, g'.heap)
    requires g'.mainthread == g.mainthread && g'.registry == g.registry && g'.mt == g.mt
    ensures Retained(g, g')
  {
    assert forall r :: r in g.heap ==> g.heap[r].color != Other(g.white);
    hide AllClean, PhaseOk;
    ExtendsRetained(g, g');
  }

  method FinishSweep(c: Collector)
    requires Inv(c.g) && c.g.phase != Pause && c.g.phase != Propagate
    modifies c
    ensures Inv(c.g) && c.g.phase == Finalize && Swept(old(c.g), c.g) && Retained(old(c.g), c.g)
  {
    hide Shape, NoDangling, Swept, ClosedWithThread, Retained;
    ghost var g0 := c.g;
    SweptInv(g0);
    RetainedRefl(g0);
    while c.g.phase != Finalize
      invariant Inv(c.g) && Swept(g0, c.g) && Retained(g0, c.g)
      invariant c.g.phase == SweepString || c.g.phase == Sweep || c.g.phase == Finalize
      decreases Rank(c.g.phase), Left(c.g)
    {
      ghost var g1 := c.g;
      LeftNat(g1);
      SingleStep(c, iset{});
      SweptTrans(g0, g1, c.g);
      StepRetained(g1, c.g, iset{});
      RetainedTrans(g0, g1, c.g);
    }
  }

  lemma SweptInv(g: Global)
    requires Inv(g)
    ensures Swept(g, g)
  {}

  method Cycle(c: Collector, ghost g0: Global, ghost b: iset<Ref>)
    requires Inv(c.g) && c.g.phase == Propagate && CycleOk(g0, c.g, b) && Bound(g0, b)
    modifies c
    ensures Inv(c.g) && c.g.phase == Pause && CycleOk(g0, c.g, b) && Retained(old(c.g), c.g)
  {
    hide Shape, NoDangling, Swept, Stepped, Bound, CycleOk, Retained;
    ghost var g2 := c.g;
    RetainedRefl(g2);
    while c.g.phase != Pause
      invariant Inv(c.g) && CycleOk(g0, c.g, b) && Retained(g2, c.g)
      decreases Rank(c.g.phase), Left(c.g)
    {
      ghost var g1 := c.g;
      LeftNat(g1);
      if c.g.phase == Propagate { CycleBound(g0, g1, b); CycleMarks(g0, g1, b); }
      SingleStep(c, b);
      CycleStep(g0, g1, c.g, b);
      StepRetained(g1, c.g, b);
      RetainedTrans(g2, g1, c.g);
    }
  }

  lemma CycleMarks(g0: Global, g: Global, b: iset<Ref>)
    requires CycleOk(g0, g, b) && g.phase == Propagate
    ensures MarksIn(g.heap, b)
  {}

  /** From any collector state: afterwards the collector rests, nothing is black, everything strongly
      reachable at the call is there with all it held, but for the weak entries that refer to what is gone,
      and whatever is there is fixed or was reachable. */
  method FullGc(c: Collector)
    requires Inv(c.g)
    modifies c
    ensures Inv(c.g) && c.g.phase == Pause && AllClean(c.g)
    ensures forall r :: StrongReachable(RootValues(old(c.g)), old(c.g).heap, r) ==> r in c.g.heap
    ensures forall r :: r in c.g.heap ==> c.g.heap[r].fixed || KeepReachable(RootValues(old(c.g)), old(c.g).heap, r)
    ensures Retained(old(c.g), c.g) && forall r :: r in c.g.heap ==> Live(c.g, r)
  {
    hide Shape, NoDangling, Swept, Bound, Retained;
    ghost var g0 := c.g;
    AbandonedInv(g0);
    c.g := Abandoned(c.g);
    ghost var g1 := c.g;
    FinishSweep(c);
    ghost var g2 := c.g;
    ReachBound(g2);
    MarkRoot(c, Reach(g2));
    ghost var g3 := c.g;
    Cycle(c, g2, Reach(g2));
    AbandonedRetained(g0);
    MarkedRetained(g2, g3);
    RetainedTrans(g0, g1, g2);
    RetainedTrans(g0, g2, g3);
    RetainedTrans(g0, g3, c.g);
    SweptRoots(g1, g2);
    forall r ensures StrongReachable(RootValues(g0), g0.heap, r) ==> r in c.g.heap {
      SweptReach(g1, g2, r);
    }
    forall r | r in c.g.heap && !c.g.heap[r].fixed ensures KeepReachable(RootValues(g0), g0.heap, r) {
      SweptReach(g1, g2, r);
    }
  }

  lemma SweptRoots(g: Global, g': Global)
    requires Swept(g, g')
    ensures RootValues(g') == RootValues(g)
  {}
}
