/** Writes by the mutator and the barriers that follow them (lgc.c:662-692, lgc.h:86-97). */
module GcBarrier {
  import opened GcHeap
  import opened GcMark
  import opened GcAtomic
  import opened GcInvariant
  import opened GcSweep
  import opened GcCollect

  ghost const ALL: iset<Ref> := iset r: Ref | true

  /** A value the mutator can hold. */
  predicate Accessible(g: Global, v: Value) {
    v.Obj? ==> v.ref in g.heap && !Doomed(g, v.ref)
  }

  ghost predicate AllAccessible(g: Global, vs: seq<Value>) {
    forall v :: v in vs ==> Accessible(g, v)
  }

  /** `b'` holds nothing that `b` did not hold, but `v`. */
  ghost predicate Derived(h: Heap, b: Body, b': Body, v: Value) {
    forall q :: Obj(q) in Contents(h, b', STRONG) || KeyOf(b', q) ==>
      Obj(q) in Contents(h, b, STRONG) || KeyOf(b, q) || v == Obj(q)
  }

  /** A change of contents that leaves the object what it is. */
  ghost predicate Compatible(b: Body, b': Body) {
    || (b.Table? && b'.Table?)
    || (b.Block? && b'.Block? && b'.kind == b.kind)
    || (b.UpVal? && b.cell.Closed? && b'.UpVal? && b'.cell.Closed?)
    || (b.Thread? && b'.Thread? && b'.openupval == b.openupval)
  }

  function Rewrite(g: Global, r: Ref, b: Body): Global
    requires r in g.heap
  {
    g.(heap := g.heap[r := g.heap[r].(body := b)])
  }

  /** The upvalues open on `r` still have their slots. */
  ghost predicate SlotsStay(h: Heap, r: Ref, b: Body) {
    forall u :: OpenOn(h, u, r) ==> b.Thread? && h[u].body.cell.slot < |b.stack|
  }

  lemma RewriteUpvals(h: Heap, h': Heap, r: Ref, b: Body)
    requires UpvalsOk(h) && r in h && Compatible(h[r].body, b) && SlotsStay(h, r, b)
    requires h' == h[r := h[r].(body := b)]
    ensures UpvalsOk(h')
  {
    assert forall u, t :: OpenOn(h', u, t) == OpenOn(h, u, t);
    forall u | u in h' && IsOpen(h'[u].body)
      ensures var t := h'[u].body.cell.thread;
        IsThread(h', t) && u in h'[t].body.openupval && h'[u].body.cell.slot < |h'[t].body.stack|
    {
      var t := h[u].body.cell.thread;
      assert OpenOn(h, u, t) && IsThread(h, t);
    }
    forall t | IsThread(h', t) ensures Distinct(h'[t].body.openupval) && Descending(h', h'[t].body.openupval) {
      assert IsThread(h, t);
      assert forall u :: Slot(h', u) == Slot(h, u);
    }
    forall t, u | IsThread(h', t) && u in h'[t].body.openupval ensures OpenOn(h', u, t) {
      assert IsThread(h, t) && OpenOn(h, u, t);
    }
  }

  lemma RewriteShape(g: Global, r: Ref, b: Body)
    requires Shape(g) && r in g.heap && Compatible(g.heap[r].body, b) && SlotsStay(g.heap, r, b)
    ensures Shape(Rewrite(g, r, b))
  {
    hide StringsOk, RootListOk, UpvalsOk, SlotsStay;
    var g' := Rewrite(g, r, b);
    RewriteUpvals(g.heap, g'.heap, r, b);
    RewriteKinds(g, r, b);
    hide Compatible, Rewrite;
    StringsKept(g, g');
    RootListKept(g, g');
  }

  lemma RewriteKinds(g: Global, r: Ref, b: Body)
    requires r in g.heap && Compatible(g.heap[r].body, b)
    ensures var g' := Rewrite(g, r, b);
      && g' == g.(heap := g'.heap) && g'.heap.Keys == g.heap.Keys
      && forall x :: x in g.heap ==>
        && g'.heap[x].color == g.heap[x].color && g'.heap[x].fixed == g.heap[x].fixed
        && g'.heap[x].body.Str? == g.heap[x].body.Str? && g'.heap[x].body.Thread? == g.heap[x].body.Thread?
        && InRootList(g'.heap[x].body) == InRootList(g.heap[x].body)
        && NeverBlack(g'.heap[x].body) == NeverBlack(g.heap[x].body)
  {}

  /** Rewriting `r` changes what `r` holds and, if `r` is a thread, what its open upvalues read. */
  lemma RewriteEdge(g: Global, r: Ref, b: Body, x: Ref, q: Ref)
    requires r in g.heap && Compatible(g.heap[r].body, b) && x in g.heap
    requires Edge(Rewrite(g, r, b).heap, x, q)
    ensures Edge(g.heap, x, q) || Obj(q) in Contents(g.heap, b, STRONG)
  {
    var g' := Rewrite(g, r, b);
    var o := g.heap[x].body;
    if x != r && IsOpen(o) && o.cell.thread == r && CellValue(g'.heap, o.cell) != CellValue(g.heap, o.cell) {
      assert b.stack[o.cell.slot] == Obj(q);
      assert Obj(q) in b.stack;
    }
  }

  lemma RewriteNoDangling(g: Global, r: Ref, b: Body)
    requires NoDangling(g) && r in g.heap && Compatible(g.heap[r].body, b)
    requires AllAccessible(g, Contents(g.heap, b, STRONG))
    ensures NoDangling(Rewrite(g, r, b))
  {
    var g' := Rewrite(g, r, b);
    assert forall x :: Doomed(g', x) == Doomed(g, x);
    forall x, q | x in g'.heap && !Doomed(g', x) && Edge(g'.heap, x, q) ensures q in g'.heap && !Doomed(g', q) {
      RewriteEdge(g, r, b, x, q);
    }
    assert RootValues(g') == RootValues(g);
  }

  /** Outside the marking phase only colours matter. */
  lemma RewritePhase(g: Global, r: Ref, b: Body)
    requires PhaseOk(g) && r in g.heap && Compatible(g.heap[r].body, b) && g.phase != Propagate
    ensures PhaseOk(Rewrite(g, r, b))
  {
    var g' := Rewrite(g, r, b);
    assert forall x :: Clean(g', x) == Clean(g, x);
    assert forall u, t :: OpenOn(g'.heap, u, t) == OpenOn(g.heap, u, t);
    assert forall x :: x in g.heap ==> g'.heap[x].body.Str? == g.heap[x].body.Str?;
  }

  /** In the marking phase an object that is black may need a barrier after a write. */
  lemma RewriteTri(g: Global, r: Ref, b: Body)
    requires Tri(g, {}) && r in g.heap && Compatible(g.heap[r].body, b)
    ensures Tri(Rewrite(g, r, b), if g.heap[r].color == Black then {r} else {})
  {
    var g' := Rewrite(g, r, b);
    assert forall x :: OnList(g', x) == OnList(g, x);
    forall x | x in g'.heap && x != r ensures ColorRule(g', x) {
      RewriteRule(g, r, b, x);
    }
  }

  lemma RewriteRule(g: Global, r: Ref, b: Body, x: Ref)
    requires Tri(g, {}) && r in g.heap && Compatible(g.heap[r].body, b) && x in g.heap && x != r
    ensures ColorRule(Rewrite(g, r, b), x)
  {
    var g' := Rewrite(g, r, b);
    assert ColorRule(g, x);
    assert forall q :: NonWhite(g'.heap, q) == NonWhite(g.heap, q);
    if g.heap[x].color == Black {
      assert Contents(g'.heap, g.heap[x].body, STRONG) == Contents(g.heap, g.heap[x].body, STRONG);
    }
  }

  /** Contents, lists and roots after a write to `r`, whatever the barrier did to the colours. */
  ghost predicate Stored(g: Global, g': Global, r: Ref, b: Body) {
    && g' == g.(heap := g'.heap, gray := g'.gray, grayagain := g'.grayagain)
    && g'.heap.Keys == g.heap.Keys
    && (forall x :: x in g.heap ==> g'.heap[x].fixed == g.heap[x].fixed && g'.heap[x].weak == g.heap[x].weak)
    && (forall x :: x in g.heap ==> g'.heap[x].body == if x == r then b else g.heap[x].body)
    && (forall x :: x in g.heap && g'.heap[x].color == Other(g.white) ==> g.heap[x].color == Other(g.white))
  }

  /** A black object holds nothing white again once the stored value is marked. */
  lemma StoredGuarded(g: Global, r: Ref, b: Body, v: Value, h': Heap)
    requires Tri(g, {}) && r in g.heap && g.heap[r].color == Black && Compatible(g.heap[r].body, b)
    requires Derived(g.heap, g.heap[r].body, b, v)
    requires Extends(Rewrite(g, r, b).heap, h')
    requires v.Obj? ==> NonWhite(h', v.ref)
    ensures !NeverBlack(b) && Guarded(h', h'[r].body)
  {
    var h1 := Rewrite(g, r, b).heap;
    assert ColorRule(g, r);
    assert SameBody(h1[r].body, h'[r].body);
    ExtendsContents(h1, h', r, STRONG);
    assert Contents(h1, b, STRONG) == Contents(g.heap, b, STRONG);
    forall q | Obj(q) in Contents(g.heap, b, STRONG) || KeyOf(b, q) ensures NonWhite(h', q) {
      if v != Obj(q) { assert NonWhite(g.heap, q); assert NonWhite(h1, q); }
    }
    forall q | KeyOf(h'[r].body, q) ensures NonWhite(h', q) {
      ExtendsKeyOf(b, h'[r].body, q);
    }
  }

  lemma RewriteReady(g: Global, r: Ref, b: Body)
    requires Inv(g) && g.phase == Propagate && r in g.heap && Compatible(g.heap[r].body, b)
    requires AllAccessible(g, Contents(g.heap, b, STRONG))
    ensures Ready(Rewrite(g, r, b), if g.heap[r].color == Black then {r} else {}, ALL)
  {
    RewriteTri(g, r, b);
    RewriteNoDangling(g, r, b);
    NoneDoomed(Rewrite(g, r, b));
  }

  /** luaC_barrierf (lgc.c:662-672): in the marking phase mark the value, otherwise sweep the object now. */
  method BarrierForward(c: Collector, r: Ref, v: Ref)
    requires r in c.g.heap && v in c.g.heap && IsWhite(c.g.heap[v].color)
    requires c.g.phase == Propagate ==> Ready(c.g, {r}, ALL)
    modifies c
    ensures old(c.g).phase == Propagate ==> Marking(old(c.g), c.g, {r}, ALL) && NonWhite(c.g.heap, v)
    ensures old(c.g).phase != Propagate ==> c.g == Whiten(old(c.g), r)
  {
    if c.g.phase == Propagate {
      ReallyMarkObject(c, v, {r}, ALL);
    } else {
      c.g := Paint(c.g, r, c.g.white);
    }
  }

  /** luaC_barrierback (lgc.c:675-683) */
  method BarrierBack(c: Collector, r: Ref)
    requires r in c.g.heap
    modifies c
    ensures c.g == Paint(old(c.g), r, Gray).(grayagain := [r] + old(c.g).grayagain)
  {
    c.g := Paint(c.g, r, Gray);
    c.g := c.g.(grayagain := [r] + c.g.grayagain);
  }

  predicate Writable(g: Global, r: Ref) { r in g.heap && !Doomed(g, r) }

  /** What a write needs: `v` is the only new reference, and the mutator holds it. */
  ghost predicate MayStore(g: Global, r: Ref, b: Body, v: Value) {
    && Writable(g, r) && Compatible(g.heap[r].body, b) && SlotsStay(g.heap, r, b)
    && AllAccessible(g, Contents(g.heap, b, STRONG)) && Accessible(g, v)
    && (!b.Thread? ==> Derived(g.heap, g.heap[r].body, b, v))
  }

  /** A write in the marking phase, and its barrier: luaC_barriert for a table, luaC_barrier otherwise. */
  method StoreMarking(c: Collector, r: Ref, b: Body, v: Value)
    requires Inv(c.g) && c.g.phase == Propagate && MayStore(c.g, r, b, v)
    modifies c
    ensures Inv(c.g) && Stored(old(c.g), c.g, r, b)
  {
    hide Shape, NoDangling;
    ghost var g0 := c.g;
    RewriteReady(g0, r, b);
    c.g := Rewrite(c.g, r, b);
    ghost var g1 := c.g;
    if v.Obj? && IsWhite(c.g.heap[v.ref].color) && c.g.heap[r].color == Black {
      if b.Table? {
        BarrierBack(c, r);
        BackDone(g0, r, b, c.g);
      } else {
        BarrierForward(c, r, v.ref);
        ForwardDone(g0, r, b, v, c.g);
      }
    } else {
      NoBarrier(g0, r, b, v);
    }
  }

  lemma StoredInv(g: Global, g': Global, r: Ref, b: Body)
    requires Inv(g) && g.phase == Propagate && Stored(g, g', r, b)
    requires Writable(g, r) && Compatible(g.heap[r].body, b) && SlotsStay(g.heap, r, b)
    requires Tri(g', {}) && RefsIn(g'.heap)
    requires forall x :: NonWhite(g.heap, x) ==> NonWhite(g'.heap, x)
    ensures Inv(g')
  {
    StoredShape(g, g', r, b);
    assert RootValues(g') == RootValues(g);
    assert forall x :: !Doomed(g', x);
  }

  lemma StoredShape(g: Global, g': Global, r: Ref, b: Body)
    requires Shape(g) && Stored(g, g', r, b) && Tri(g', {})
    requires Writable(g, r) && Compatible(g.heap[r].body, b) && SlotsStay(g.heap, r, b)
    ensures Shape(g')
  {
    hide Shape, Tri, SlotsStay, Compatible;
    StoredWhite(g);
    NeverBlackKept(g');
    RewriteShape(g, r, b);
    StoredBodies(g, g', r, b);
    hide Stored, Rewrite;
    BodiesShape(Rewrite(g, r, b), g');
  }

  lemma StoredBodies(g: Global, g': Global, r: Ref, b: Body)
    requires r in g.heap && Stored(g, g', r, b)
    ensures var g1 := Rewrite(g, r, b);
      && g1 == g'.(heap := g1.heap, gray := g1.gray, grayagain := g1.grayagain) && g'.heap.Keys == g1.heap.Keys
      && g1.white == g.white
      && forall x :: x in g1.heap ==> g'.heap[x].fixed == g1.heap[x].fixed && g'.heap[x].body == g1.heap[x].body
  {}

  lemma StoredWhite(g: Global)
    requires Shape(g)
    ensures IsWhite(g.white)
  {}

  lemma NoBarrier(g: Global, r: Ref, b: Body, v: Value)
    requires Inv(g) && g.phase == Propagate && MayStore(g, r, b, v)
    requires v.Obj? && g.heap[r].color == Black ==> NonWhite(g.heap, v.ref)
    ensures Inv(Rewrite(g, r, b)) && Stored(g, Rewrite(g, r, b), r, b)
  {
    hide Shape, NoDangling;
    var g' := Rewrite(g, r, b);
    RewriteReady(g, r, b);
    if g.heap[r].color == Black {
      assert ColorRule(g, r);
      NoBarrierRule(g, r, b, v);
      VisitDone(g', r, {});
    }
    StoredInv(g, g', r, b);
  }

  lemma NoBarrierRule(g: Global, r: Ref, b: Body, v: Value)
    requires Tri(g, {}) && MayStore(g, r, b, v) && g.heap[r].color == Black && !b.Thread?
    requires v.Obj? ==> NonWhite(g.heap, v.ref)
    ensures ColorRule(Rewrite(g, r, b), r)
  {
    var g' := Rewrite(g, r, b);
    assert Extends(g'.heap, g'.heap);
    StoredGuarded(g, r, b, v, g'.heap);
  }

  lemma BackDone(g: Global, r: Ref, b: Body, g': Global)
    requires Inv(g) && g.phase == Propagate && Writable(g, r) && Compatible(g.heap[r].body, b) && b.Table?
    requires AllAccessible(g, Contents(g.heap, b, STRONG)) && SlotsStay(g.heap, r, b) && g.heap[r].color == Black
    requires g' == Paint(Rewrite(g, r, b), r, Gray).(grayagain := [r] + g.grayagain)
    ensures Inv(g') && Stored(g, g', r, b)
  {
    hide Shape, NoDangling, Tri, RefsIn, StrongClosed, MarksIn, Compatible, SlotsStay, AllAccessible, Stored;
    RewriteReady(g, r, b);
    BackReady(g, r, b, g');
    BackStored(g, r, b, g');
    hide Paint, Rewrite;
    StoredInv(g, g', r, b);
  }

  lemma BackReady(g: Global, r: Ref, b: Body, g': Global)
    requires r in g.heap && b.Table? && Tri(Rewrite(g, r, b), {r}) && RefsIn(Rewrite(g, r, b).heap)
    requires g' == Paint(Rewrite(g, r, b), r, Gray).(grayagain := [r] + g.grayagain)
    ensures Tri(g', {}) && RefsIn(g'.heap)
  {
    hide Tri, RefsIn, Extends;
    var g1 := Rewrite(g, r, b);
    PaintExtends(g1, r, Gray);
    ExtendsRefsIn(g1.heap, g'.heap);
    BackTri(g1, r, g');
  }

  lemma BackStored(g: Global, r: Ref, b: Body, g': Global)
    requires r in g.heap && g.heap[r].color == Black
    requires g' == Paint(Rewrite(g, r, b), r, Gray).(grayagain := [r] + g.grayagain)
    ensures Stored(g, g', r, b) && forall x :: NonWhite(g.heap, x) ==> NonWhite(g'.heap, x)
  {}

  lemma BackTri(g: Global, r: Ref, g': Global)
    requires Tri(g, {r}) && g.heap[r].body.Table?
    requires g' == Paint(g, r, Gray).(grayagain := [r] + g.grayagain)
    ensures Tri(g', {})
  {
    assert !OnList(g, r);
    PaintExtends(g, r, Gray);
    forall x | x in g'.heap ensures ColorRule(g', x) {
      if x != r { ExtendsRule(g, g', x); }
    }
  }

  lemma ForwardDone(g: Global, r: Ref, b: Body, v: Value, g': Global)
    requires Inv(g) && g.phase == Propagate && MayStore(g, r, b, v) && g.heap[r].color == Black && v.Obj? && !b.Thread?
    requires Marking(Rewrite(g, r, b), g', {r}, ALL) && NonWhite(g'.heap, v.ref)
    ensures Inv(g') && Stored(g, g', r, b)
  {
    hide Shape, NoDangling;
    assert Tri(g, {}) && Writable(g, r) && Compatible(g.heap[r].body, b) && SlotsStay(g.heap, r, b);
    ForwardTri(g, r, b, v, g');
    ForwardStored(g, r, b, g');
    hide MayStore, Derived, Tri, Compatible, SlotsStay, Stored, Marking, Rewrite;
    StoredInv(g, g', r, b);
  }

  lemma ForwardTri(g: Global, r: Ref, b: Body, v: Value, g': Global)
    requires Tri(g, {}) && MayStore(g, r, b, v) && g.heap[r].color == Black && v.Obj? && !b.Thread?
    requires Marking(Rewrite(g, r, b), g', {r}, ALL) && NonWhite(g'.heap, v.ref)
    ensures Tri(g', {}) && RefsIn(g'.heap)
  {
    var g1 := Rewrite(g, r, b);
    MarkedExtends(g1, g');
    StoredGuarded(g, r, b, v, g'.heap);
    assert Recolored(g1.heap[r], g'.heap[r]);
    hide Guarded, MayStore, Derived, StrongClosed, MarksIn, RefsIn, UpvalsSettle, Extends;
    assert Tri(g', {} + {r}) by { assert {} + {r} == {r}; }
    hide Tri;
    VisitDone(g', r, {});
  }

  lemma ForwardStored(g: Global, r: Ref, b: Body, g': Global)
    requires r in g.heap && Marking(Rewrite(g, r, b), g', {r}, ALL)
    ensures Stored(g, g', r, b) && forall x :: NonWhite(g.heap, x) ==> NonWhite(g'.heap, x)
  {
    hide Ready, Marked;
    var g1 := Rewrite(g, r, b);
    MarkedObjects(g1, g');
    RewriteObjects(g, r, b);
    hide Marking, Rewrite;
  }

  lemma RewriteObjects(g: Global, r: Ref, b: Body)
    requires r in g.heap
    ensures var g1 := Rewrite(g, r, b);
      && g1 == g.(heap := g1.heap) && g1.heap.Keys == g.heap.Keys
      && forall x :: x in g.heap ==> g1.heap[x] == g.heap[x].(body := if x == r then b else g.heap[x].body)
  {}

  lemma MarkedObjects(g: Global, g': Global)
    requires Marked(g, g')
    ensures g' == g.(heap := g'.heap, gray := g'.gray) && g'.heap.Keys == g.heap.Keys
    ensures forall x :: x in g.heap ==>
      && g'.heap[x].fixed == g.heap[x].fixed && g'.heap[x].weak == g.heap[x].weak && g'.heap[x].body == g.heap[x].body
      && (g'.heap[x].color == g.heap[x].color || (IsWhite(g.heap[x].color) && !IsWhite(g'.heap[x].color)))
  {
    hide UpvalsSettle, Work;
    assert forall x :: x in g.heap ==> Recolored(g.heap[x], g'.heap[x]);
  }

  // ----- the other phases -----

  /** Whitening keeps every phase in which nothing is being marked. */
  lemma WhitenInv(g: Global, r: Ref)
    requires Inv(g) && g.phase != Propagate && Writable(g, r)
    ensures Inv(Whiten(g, r))
  {
    WhitenSwept(g, r);
    SweptNoDangling(g, Whiten(g, r));
    assert forall x :: Clean(g, x) ==> Clean(Whiten(g, r), x);
    if g.phase == Sweep { WhitenSweepOk(g, r); }
  }

  lemma RewriteInv(g: Global, r: Ref, b: Body)
    requires Inv(g) && g.phase != Propagate && Writable(g, r) && Compatible(g.heap[r].body, b)
    requires SlotsStay(g.heap, r, b)
    requires AllAccessible(g, Contents(g.heap, b, STRONG))
    ensures Inv(Rewrite(g, r, b))
  {
    RewriteNoDangling(g, r, b);
    RewritePhase(g, r, b);
    RewriteShape(g, r, b);
  }

  lemma BackInv(g: Global, r: Ref, g': Global)
    requires Inv(g) && g.phase != Propagate && Writable(g, r) && g.heap[r].body.Table? && g.heap[r].color == Black
    requires g' == Paint(g, r, Gray).(grayagain := [r] + g.grayagain)
    ensures Inv(g')
  {
    assert forall x :: Clean(g', x) == Clean(g, x) && Doomed(g', x) == Doomed(g, x);
    assert RootValues(g') == RootValues(g);
    GrayShape(g, r, g');
    BackPhase(g, r, g');
    forall x, q | x in g'.heap && Edge(g'.heap, x, q) ensures Edge(g.heap, x, q) {
      PaintExtends(g, r, Gray);
      ExtendsContents(g.heap, g'.heap, x, STRONG);
    }
  }

  lemma GrayShape(g: Global, r: Ref, g': Global)
    requires Shape(g) && r in g.heap && g' == Paint(g, r, Gray).(grayagain := [r] + g.grayagain)
    ensures Shape(g')
  {
    PaintExtends(g, r, Gray);
    ExtendsShape(g, g');
  }

  lemma BackPhase(g: Global, r: Ref, g': Global)
    requires PhaseOk(g) && g.phase != Propagate && r in g.heap && g.heap[r].color == Black && IsWhite(g.white)
    requires g' == Paint(g, r, Gray).(grayagain := [r] + g.grayagain)
    ensures PhaseOk(g')
  {
    assert forall x :: Clean(g', x) == Clean(g, x);
    assert forall u, t :: OpenOn(g'.heap, u, t) == OpenOn(g.heap, u, t);
    assert forall x :: x in g.heap ==> g'.heap[x].body == g.heap[x].body;
  }

  method StoreSweeping(c: Collector, r: Ref, b: Body, v: Value)
    requires Inv(c.g) && c.g.phase != Propagate && MayStore(c.g, r, b, v)
    modifies c
    ensures Inv(c.g) && Stored(old(c.g), c.g, r, b)
  {
    hide Shape, NoDangling, PhaseOk;
    RewriteInv(c.g, r, b);
    c.g := Rewrite(c.g, r, b);
    ghost var g1 := c.g;
    if v.Obj? && IsWhite(c.g.heap[v.ref].color) && c.g.heap[r].color == Black {
      if b.Table? {
        BarrierBack(c, r);
        BackInv(g1, r, c.g);
      } else {
        WhitenInv(g1, r);
        BarrierForward(c, r, v.ref);
      }
    }
  }

  /** A write with its barrier, in any phase. */
  method Store(c: Collector, r: Ref, b: Body, v: Value)
    requires Inv(c.g) && MayStore(c.g, r, b, v)
    modifies c
    ensures Inv(c.g) && Stored(old(c.g), c.g, r, b)
  {
    if c.g.phase == Propagate {
      StoreMarking(c, r, b, v);
    } else {
      StoreSweeping(c, r, b, v);
    }
  }
}
