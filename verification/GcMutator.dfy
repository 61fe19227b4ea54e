/** What the program does between collector steps: allocate (lgc.c:686-692), intern strings, capture and
    close upvalues (lfunc.c:53-112, lgc.c:695-710). */
module GcMutator {
  import opened GcHeap
  import opened GcMark
  import opened GcAtomic
  import opened GcInvariant
  import opened GcSweep
  import opened GcCollect
  import opened GcBarrier

  // ----- new objects -----

  function NewObject(white: Color, b: Body): Object { Object(white, false, STRONG, b) }

  /** luaC_link (lgc.c:686-692): a new object has the current white and heads `rootgc`. */
  function Allocated(g: Global, r: Ref, b: Body): Global {
    Linked(g.(heap := g.heap[r := NewObject(g.white, b)]), r)
  }

  /** Bodies that may be created on their own. */
  predicate Creatable(b: Body) {
    InRootList(b) && (b.Thread? ==> b.openupval == [])
  }

  /** A new key in the heap, with everything else as it was. */
  ghost predicate Added(g: Global, g': Global, r: Ref, b: Body) {
    && r !in g.heap && g'.heap == g.heap[r := NewObject(g.white, b)]
    && g' == g.(heap := g'.heap, rootgc := g'.rootgc, sweepgc := g'.sweepgc, strt := g'.strt)
  }

  lemma AddedContents(g: Global, g': Global, r: Ref, b: Body, x: Ref)
    requires UpvalsOk(g.heap) && Added(g, g', r, b) && x in g.heap
    ensures Contents(g'.heap, g.heap[x].body, STRONG) == Contents(g.heap, g.heap[x].body, STRONG)
  {
    if IsOpen(g.heap[x].body) {
      assert IsThread(g.heap, g.heap[x].body.cell.thread);
    }
  }

  lemma AddedNoDangling(g: Global, g': Global, r: Ref, b: Body)
    requires Shape(g) && NoDangling(g) && Added(g, g', r, b)
    requires AllAccessible(g, Contents(g'.heap, b, STRONG))
    ensures NoDangling(g')
  {
    assert forall x :: x in g.heap ==> Doomed(g', x) == Doomed(g, x);
    assert !Doomed(g', r);
    forall x, q | x in g'.heap && !Doomed(g', x) && Edge(g'.heap, x, q) ensures q in g'.heap && !Doomed(g', q) {
      if x != r {
        AddedContents(g, g', r, b, x);
        assert Edge(g.heap, x, q);
      }
    }
    assert RootValues(g') == RootValues(g);
  }

  lemma AddedTri(g: Global, g': Global, r: Ref, b: Body)
    requires Shape(g) && Tri(g, {}) && Added(g, g', r, b)
    ensures Tri(g', {})
  {
    assert forall x :: OnList(g', x) == OnList(g, x);
    forall x | x in g'.heap ensures ColorRule(g', x) {
      if x != r {
        assert ColorRule(g, x);
        AddedContents(g, g', r, b, x);
        assert forall q :: NonWhite(g.heap, q) ==> NonWhite(g'.heap, q);
      }
    }
  }

  lemma AddedUpvals(h: Heap, h': Heap, r: Ref, o: Object)
    requires UpvalsOk(h) && r !in h && h' == h[r := o] && (Creatable(o.body) || o.body.Str?)
    ensures UpvalsOk(h')
  {
    assert forall u, t :: OpenOn(h', u, t) == OpenOn(h, u, t);
    forall t | IsThread(h', t) ensures Distinct(h'[t].body.openupval) && Descending(h', h'[t].body.openupval) {
      if t != r {
        assert IsThread(h, t);
        assert forall u :: u in h[t].body.openupval ==> OpenOn(h, u, t) && Slot(h', u) == Slot(h, u);
      }
    }
    forall t, u | IsThread(h', t) && u in h'[t].body.openupval ensures OpenOn(h', u, t) {
      assert IsThread(h, t) && OpenOn(h, u, t);
    }
    forall u | u in h' && IsOpen(h'[u].body)
      ensures var t := h'[u].body.cell.thread;
        IsThread(h', t) && u in h'[t].body.openupval && h'[u].body.cell.slot < |h'[t].body.stack|
    {
      assert OpenOn(h, u, h[u].body.cell.thread) && IsThread(h, h[u].body.cell.thread);
    }
  }

  lemma AllocatedShape(g: Global, r: Ref, b: Body)
    requires Shape(g) && r !in g.heap && Creatable(b)
    ensures Shape(Allocated(g, r, b))
  {
    var g' := Allocated(g, r, b);
    AddedUpvals(g.heap, g'.heap, r, NewObject(g.white, b));
    StringsKept(g, g');
    assert r !in g.rootgc;
  }

  lemma AllocatedPhase(g: Global, r: Ref, b: Body)
    requires Shape(g) && PhaseOk(g) && r !in g.heap && Creatable(b)
    ensures PhaseOk(Allocated(g, r, b))
  {
    var g' := Allocated(g, r, b);
    assert forall x :: Clean(g, x) ==> Clean(g', x);
    match g.phase
    case Propagate => AddedTri(g, g', r, b);
    case Sweep =>
      assert g'.rootgc[..g'.sweepgc] == if g.sweepgc == 0 then [] else [r] + g.rootgc[..g.sweepgc];
      forall u, t | t in g'.rootgc[..g'.sweepgc] && OpenOn(g'.heap, u, t) ensures Clean(g', u) {
        assert OpenOn(g.heap, u, t) && IsThread(g.heap, t);
      }
    case _ =>
  }

  lemma AllocatedInv(g: Global, r: Ref, b: Body)
    requires Inv(g) && r !in g.heap && Creatable(b) && AllAccessible(g, Contents(g.heap, b, STRONG))
    ensures Inv(Allocated(g, r, b))
  {
    var g' := Allocated(g, r, b);
    AllocatedShape(g, r, b);
    AllocatedPhase(g, r, b);
    assert Contents(g'.heap, b, STRONG) == Contents(g.heap, b, STRONG);
    AddedNoDangling(g, g', r, b);
  }

  /** A new string heads bucket `i` of the string table (lstring.c). */
  function Interned(g: Global, i: nat, r: Ref): Global
    requires i < |g.strt|
  {
    g.(heap := g.heap[r := NewObject(g.white, Str)], strt := g.strt[i := [r] + g.strt[i]])
  }

  lemma InternedStrings(g: Global, i: nat, r: Ref)
    requires StringsOk(g) && i < |g.strt| && r !in g.heap
    ensures StringsOk(Interned(g, i, r))
  {
    var g' := Interned(g, i, r);
    forall j, x | 0 <= j < |g'.strt| && x in g'.strt[j] ensures (x == r && j == i) || x in g.strt[j] {}
    assert forall j :: 0 <= j < |g.strt| ==> r !in g.strt[j];
    forall x | x in g'.heap && g'.heap[x].body.Str? ensures InSomeBucket(g'.strt, x) {
      if x == r {
        assert r in g'.strt[i];
      } else {
        assert InSomeBucket(g.strt, x);
        var j :| 0 <= j < |g.strt| && x in g.strt[j];
        assert x in g'.strt[j];
      }
    }
  }

  lemma InternedInv(g: Global, i: nat, r: Ref)
    requires Inv(g) && i < |g.strt| && r !in g.heap
    ensures Inv(Interned(g, i, r))
  {
    var g' := Interned(g, i, r);
    InternedStrings(g, i, r);
    AddedUpvals(g.heap, g'.heap, r, NewObject(g.white, Str));
    RootListKept(g, g');
    AddedNoDangling(g, g', r, Str);
    InternedPhase(g, i, r);
  }

  lemma InternedPhase(g: Global, i: nat, r: Ref)
    requires Shape(g) && PhaseOk(g) && i < |g.strt| && r !in g.heap
    ensures PhaseOk(Interned(g, i, r))
  {
    var g' := Interned(g, i, r);
    assert forall x :: Clean(g, x) ==> Clean(g', x);
    assert forall u, t :: OpenOn(g'.heap, u, t) == OpenOn(g.heap, u, t);
    match g.phase
    case Propagate => AddedTri(g, g', r, Str);
    case SweepString =>
      forall j, x | 0 <= j < g'.sweepstr && x in g'.strt[j] ensures Clean(g', x) {
        if x != r { assert x in g.strt[j]; }
      }
    case _ =>
  }

  // ----- dead objects brought back -----

  /** A dead string found by interning, or a dead open upvalue found by luaF_findupval, is whitened:
      it refers only to live objects. */
  lemma RevivedInv(g: Global, r: Ref)
    requires Inv(g) && r in g.heap && g.heap[r].color == Other(g.white)
    requires AllAccessible(g, Contents(g.heap, g.heap[r].body, STRONG))
    ensures Inv(Whiten(g, r))
  {
    RevivedNoDangling(g, r);
    RevivedPhase(g, r);
    hide NoDangling;
    BodiesShape(g, Whiten(g, r));
  }

  lemma RevivedNoDangling(g: Global, r: Ref)
    requires NoDangling(g) && IsWhite(g.white) && r in g.heap && g.heap[r].color == Other(g.white)
    requires AllAccessible(g, Contents(g.heap, g.heap[r].body, STRONG))
    ensures NoDangling(Whiten(g, r))
  {
    var g' := Whiten(g, r);
    assert forall x :: Doomed(g', x) ==> Doomed(g, x);
    assert RootValues(g') == RootValues(g);
    forall x, q | x in g'.heap && !Doomed(g', x) && Edge(g'.heap, x, q) ensures q in g'.heap && !Doomed(g', q) {
      assert Contents(g'.heap, g'.heap[x].body, STRONG) == Contents(g.heap, g.heap[x].body, STRONG);
      assert Edge(g.heap, x, q);
      assert Accessible(g, Obj(q));
    }
  }

  lemma RevivedPhase(g: Global, r: Ref)
    requires PhaseOk(g) && IsWhite(g.white) && r in g.heap && g.heap[r].color == Other(g.white)
    ensures PhaseOk(Whiten(g, r))
  {
    assert forall x :: Clean(g, x) ==> Clean(Whiten(g, r), x);
    if g.phase == Sweep { WhitenSweepOk(g, r); }
  }

  // ----- upvalues -----

  /** A new open upvalue for `slot`, at position `k` of the list of thread `t`. */
  function OpenedAt(g: Global, t: Ref, k: nat, slot: nat, r: Ref): Global
    requires IsThread(g.heap, t) && k <= |g.heap[t].body.openupval|
  {
    var us := g.heap[t].body.openupval;
    g.(heap := SetOpen(g.heap, t, us[..k] + [r] + us[k..])[r := NewObject(g.white, UpVal(Open(t, slot)))])
  }

  /** The same as facts about the two states. */
  ghost predicate Opened(g: Global, g': Global, t: Ref, k: nat, slot: nat, r: Ref) {
    && IsThread(g.heap, t) && k <= |g.heap[t].body.openupval| && r !in g.heap
    && g' == g.(heap := g'.heap)
    && g'.heap.Keys == g.heap.Keys + {r}
    && (forall x :: x in g.heap && x != t ==> g'.heap[x] == g.heap[x])
    && g'.heap[r] == NewObject(g.white, UpVal(Open(t, slot)))
    && IsThread(g'.heap, t)
    && var us := g.heap[t].body.openupval;
       g'.heap[t] == g.heap[t].(body := g.heap[t].body.(openupval := us[..k] + [r] + us[k..]))
  }

  lemma OpenedFacts(g: Global, t: Ref, k: nat, slot: nat, r: Ref)
    requires IsThread(g.heap, t) && k <= |g.heap[t].body.openupval| && r !in g.heap
    ensures Opened(g, OpenedAt(g, t, k, slot, r), t, k, slot, r)
  {}

  lemma InsertDescending(h: Heap, h': Heap, us: seq<Ref>, k: nat, slot: nat, r: Ref)
    requires k <= |us| && Distinct(us) && Descending(h, us) && r !in us && Slot(h', r) == slot
    requires forall u :: u in us ==> Slot(h', u) == Slot(h, u)
    requires forall i :: 0 <= i < k ==> Slot(h, us[i]) > slot
    requires forall i :: k <= i < |us| ==> Slot(h, us[i]) < slot
    ensures Distinct(us[..k] + [r] + us[k..]) && Descending(h', us[..k] + [r] + us[k..])
  {}

  lemma OpenedUpvals(g: Global, g': Global, t: Ref, k: nat, slot: nat, r: Ref)
    requires UpvalsOk(g.heap) && Opened(g, g', t, k, slot, r) && slot < |g.heap[t].body.stack|
    requires forall i :: 0 <= i < k ==> Slot(g.heap, g.heap[t].body.openupval[i]) > slot
    requires forall i :: k <= i < |g.heap[t].body.openupval| ==> Slot(g.heap, g.heap[t].body.openupval[i]) < slot
    ensures UpvalsOk(g'.heap)
  {
    var h, h', us := g.heap, g'.heap, g.heap[t].body.openupval;
    forall u | u in h' && IsOpen(h'[u].body)
      ensures var y := h'[u].body.cell.thread;
        IsThread(h', y) && u in h'[y].body.openupval && h'[u].body.cell.slot < |h'[y].body.stack|
    {
      if u != r { assert IsThread(h, h[u].body.cell.thread); }
    }
    forall y, u | IsThread(h', y) && u in h'[y].body.openupval ensures OpenOn(h', u, y) {
      assert IsThread(h, y);
      assert u in h[y].body.openupval ==> OpenOn(h, u, y);
    }
    forall y | IsThread(h', y) ensures Distinct(h'[y].body.openupval) && Descending(h', h'[y].body.openupval) {
      assert IsThread(h, y);
      forall u | u in h[y].body.openupval ensures Slot(h', u) == Slot(h, u) && u != r {
        assert OpenOn(h, u, y);
      }
      if y == t { InsertDescending(h, h', us, k, slot, r); }
    }
  }

  lemma OpenedShape(g: Global, g': Global, t: Ref, k: nat, slot: nat, r: Ref)
    requires Shape(g) && Opened(g, g', t, k, slot, r) && UpvalsOk(g'.heap)
    ensures Shape(g')
  {
    hide UpvalsOk;
    StringsKept(g, g');
    RootListKept(g, g');
  }

  lemma OpenedContents(g: Global, t: Ref, k: nat, slot: nat, r: Ref, x: Ref)
    requires UpvalsOk(g.heap) && IsThread(g.heap, t) && k <= |g.heap[t].body.openupval| && r !in g.heap && x in g.heap
    ensures var h' := OpenedAt(g, t, k, slot, r).heap;
      Contents(h', h'[x].body, STRONG) == Contents(g.heap, g.heap[x].body, STRONG)
  {
    if IsOpen(g.heap[x].body) { assert IsThread(g.heap, g.heap[x].body.cell.thread); }
  }

  lemma OpenedInv(g: Global, t: Ref, k: nat, slot: nat, r: Ref)
    requires Inv(g) && IsThread(g.heap, t) && !Doomed(g, t) && k <= |g.heap[t].body.openupval| && r !in g.heap
    requires slot < |g.heap[t].body.stack| && UpvalsOk(OpenedAt(g, t, k, slot, r).heap)
    ensures Inv(OpenedAt(g, t, k, slot, r))
  {
    OpenedNoDangling(g, t, k, slot, r);
    OpenedPhase(g, t, k, slot, r);
    OpenedFacts(g, t, k, slot, r);
    OpenedShape(g, OpenedAt(g, t, k, slot, r), t, k, slot, r);
  }

  lemma OpenedNoDangling(g: Global, t: Ref, k: nat, slot: nat, r: Ref)
    requires UpvalsOk(g.heap) && NoDangling(g) && IsWhite(g.white)
    requires IsThread(g.heap, t) && !Doomed(g, t) && k <= |g.heap[t].body.openupval| && r !in g.heap
    requires slot < |g.heap[t].body.stack|
    ensures NoDangling(OpenedAt(g, t, k, slot, r))
  {
    var g' := OpenedAt(g, t, k, slot, r);
    assert forall x :: Doomed(g', x) == Doomed(g, x);
    assert RootValues(g') == RootValues(g);
    forall x, q | x in g'.heap && !Doomed(g', x) && Edge(g'.heap, x, q) ensures q in g'.heap && !Doomed(g', q) {
      if x == r {
        assert g.heap[t].body.stack[slot] == Obj(q);
        assert Edge(g.heap, t, q);
      } else {
        OpenedContents(g, t, k, slot, r, x);
        assert Edge(g.heap, x, q);
      }
    }
  }

  lemma OpenedPhase(g: Global, t: Ref, k: nat, slot: nat, r: Ref)
    requires Shape(g) && PhaseOk(g) && IsThread(g.heap, t) && k <= |g.heap[t].body.openupval| && r !in g.heap
    ensures PhaseOk(OpenedAt(g, t, k, slot, r))
  {
    var g' := OpenedAt(g, t, k, slot, r);
    assert IsWhite(g.white) && UpvalsOk(g.heap);
    hide Shape, UpvalsOk;
    OpenedFacts(g, t, k, slot, r);
    if g.phase == Propagate {
      OpenedTri(g, t, k, slot, r);
      hide Tri, OpenedAt;
    } else {
      hide OpenedAt;
      OpenedSweep(g, g', t, k, slot, r);
    }
  }

  lemma OpenedSweep(g: Global, g': Global, t: Ref, k: nat, slot: nat, r: Ref)
    requires PhaseOk(g) && g.phase != Propagate && Opened(g, g', t, k, slot, r)
    ensures PhaseOk(g')
  {
    assert forall x :: Clean(g, x) ==> Clean(g', x);
    assert Clean(g', r);
    assert forall u, y :: OpenOn(g'.heap, u, y) && u != r ==> OpenOn(g.heap, u, y);
  }

  lemma OpenedTri(g: Global, t: Ref, k: nat, slot: nat, r: Ref)
    requires IsWhite(g.white) && UpvalsOk(g.heap) && Tri(g, {})
    requires IsThread(g.heap, t) && k <= |g.heap[t].body.openupval| && r !in g.heap
    ensures Tri(OpenedAt(g, t, k, slot, r), {})
  {
    var g' := OpenedAt(g, t, k, slot, r);
    OpenedFacts(g, t, k, slot, r);
    forall x | x in g'.heap ensures ColorRule(g', x) {
      if x != r { OpenedRule(g, t, k, slot, r, x); }
    }
    hide OpenedAt, UpvalsOk, ColorRule;
    assert forall x :: OnList(g', x) == OnList(g, x);
  }

  lemma OpenedRule(g: Global, t: Ref, k: nat, slot: nat, r: Ref, x: Ref)
    requires UpvalsOk(g.heap) && Tri(g, {}) && x in g.heap
    requires IsThread(g.heap, t) && k <= |g.heap[t].body.openupval| && r !in g.heap
    ensures var g' := OpenedAt(g, t, k, slot, r); x in g'.heap && ColorRule(g', x)
  {
    var g' := OpenedAt(g, t, k, slot, r);
    OpenedFacts(g, t, k, slot, r);
    assert ColorRule(g, x);
    OpenedContents(g, t, k, slot, r, x);
    hide OpenedAt, UpvalsOk, Tri, Contents;
    assert OnList(g', x) == OnList(g, x);
    assert forall q :: NonWhite(g.heap, q) ==> NonWhite(g'.heap, q);
  }

  /** `u` is the upvalue open on `slot`, brought back if dead, or, if there is none, the new one `r`. */
  ghost predicate FoundUpval(g: Global, t: Ref, slot: nat, r: Ref, g': Global, u: Ref)
    requires IsThread(g.heap, t)
  {
    var us := g.heap[t].body.openupval;
    if u in us then
      && u in g.heap && Slot(g.heap, u) == slot
      && g' == if g.heap[u].color == Other(g.white) then Whiten(g, u) else g
    else
      && u == r && (forall x :: x in us ==> Slot(g.heap, x) != slot)
      && exists k: nat :: k <= |us| && g' == OpenedAt(g, t, k, slot, r)
  }

  lemma NoneOpen(h: Heap, us: seq<Ref>, slot: int, k: nat)
    requires Descending(h, us) && k <= |us| && (k < |us| ==> Slot(h, us[k]) < slot)
    requires forall i :: 0 <= i < k ==> Slot(h, us[i]) > slot
    ensures forall x :: x in us ==> Slot(h, x) != slot
    ensures forall i :: k <= i < |us| ==> Slot(h, us[i]) < slot
  {
    forall i | k < i < |us| ensures Slot(h, us[i]) < slot {}
  }

  /** luaF_findupval (lfunc.c:53-79): the upvalue open on `slot`, brought back if dead, or a new one. */
  method FindUpval(c: Collector, t: Ref, slot: nat, r: Ref) returns (u: Ref)
    requires Inv(c.g) && IsThread(c.g.heap, t) && !Doomed(c.g, t) && slot < |c.g.heap[t].body.stack| && r !in c.g.heap
    modifies c
    ensures Inv(c.g) && old(c.g).heap.Keys <= c.g.heap.Keys
    ensures u in c.g.heap && !Doomed(c.g, u) && c.g.heap[u].body == UpVal(Open(t, slot))
    ensures c.g.mainthread == old(c.g).mainthread && FoundUpval(old(c.g), t, slot, r, c.g, u)
  {
    ghost var g0 := c.g;
    var us := c.g.heap[t].body.openupval;
    OpenList(g0, t);
    hide Inv, FoundUpval, UpvalsOk;
    var k := 0;
    while k < |us| && Slot(c.g.heap, us[k]) >= slot
      invariant 0 <= k <= |us| && c.g == g0
      invariant forall i :: 0 <= i < k ==> Slot(c.g.heap, us[i]) > slot
    {
      if Slot(c.g.heap, us[k]) == slot {
        u := us[k];
        assert OpenOn(c.g.heap, u, t);
        FoundOpen(g0, t, slot, r, u);
        if c.g.heap[u].color == Other(c.g.white) {
          c.g := Whiten(c.g, u);
        }
        return;
      }
      k := k + 1;
    }
    FoundNone(g0, t, k, slot, r);
    c.g := OpenedAt(c.g, t, k, slot, r);
    u := r;
  }

  lemma FoundOpen(g: Global, t: Ref, slot: nat, r: Ref, u: Ref)
    requires Inv(g) && IsThread(g.heap, t) && !Doomed(g, t) && u in g.heap[t].body.openupval
    requires OpenOn(g.heap, u, t) && Slot(g.heap, u) == slot
    ensures IsWhite(g.white)
    ensures var g' := if g.heap[u].color == Other(g.white) then Whiten(g, u) else g;
      && Inv(g') && g'.heap.Keys == g.heap.Keys && !Doomed(g', u) && g'.mainthread == g.mainthread
      && g'.heap[u].body == UpVal(Open(t, slot)) && FoundUpval(g, t, slot, r, g', u)
  {
    assert IsWhite(g.white);
    if g.heap[u].color == Other(g.white) {
      UpvalAccessible(g, u, t);
      RevivedInv(g, u);
    }
    hide Inv;
  }

  lemma FoundNone(g: Global, t: Ref, k: nat, slot: nat, r: Ref)
    requires Inv(g) && IsThread(g.heap, t) && !Doomed(g, t) && slot < |g.heap[t].body.stack| && r !in g.heap
    requires var us := g.heap[t].body.openupval;
      && k <= |us| && (k < |us| ==> Slot(g.heap, us[k]) < slot)
      && forall i :: 0 <= i < k ==> Slot(g.heap, us[i]) > slot
    ensures var g' := OpenedAt(g, t, k, slot, r);
      && Inv(g') && g.heap.Keys <= g'.heap.Keys && r in g'.heap && !Doomed(g', r) && g'.mainthread == g.mainthread
      && g'.heap[r].body == UpVal(Open(t, slot)) && FoundUpval(g, t, slot, r, g', r)
  {
    OpenList(g, t);
    NoneOpen(g.heap, g.heap[t].body.openupval, slot, k);
    OpenedFacts(g, t, k, slot, r);
    assert r !in g.heap[t].body.openupval by {
      assert r in g.heap[t].body.openupval ==> OpenOn(g.heap, r, t);
    }
    OpenedUpvals(g, OpenedAt(g, t, k, slot, r), t, k, slot, r);
    OpenedInv(g, t, k, slot, r);
    hide Inv, OpenedAt, UpvalsOk;
  }

  lemma OpenList(g: Global, t: Ref)
    requires Inv(g) && IsThread(g.heap, t)
    ensures IsWhite(g.white) && UpvalsOk(g.heap) && Descending(g.heap, g.heap[t].body.openupval)
    ensures forall u :: u in g.heap[t].body.openupval ==> OpenOn(g.heap, u, t)
  {}

  lemma UpvalAccessible(g: Global, u: Ref, t: Ref)
    requires Inv(g) && OpenOn(g.heap, u, t) && !Doomed(g, t)
    ensures AllAccessible(g, Contents(g.heap, g.heap[u].body, STRONG))
  {
    var v := CellValue(g.heap, g.heap[u].body.cell);
    assert IsThread(g.heap, t);
    assert v.Obj? ==> Edge(g.heap, t, v.ref);
  }

  // ----- closing -----

  lemma FirstOpen(g: Global, t: Ref)
    requires Inv(g) && IsThread(g.heap, t) && g.heap[t].body.openupval != []
    ensures var u := g.heap[t].body.openupval[0];
      OpenOn(g.heap, u, t) && !g.heap[u].fixed && g.heap[u].color != Black && u != t && IsWhite(g.white)
  {
    assert OpenOn(g.heap, g.heap[t].body.openupval[0], t);
  }

  /** A dead upvalue at the head of a list is freed (lfunc.c:103-104). */
  lemma DropFirstInv(g: Global, t: Ref)
    requires Inv(g) && IsThread(g.heap, t) && g.heap[t].body.openupval != []
    requires Doomed(g, g.heap[t].body.openupval[0])
    ensures Inv(DropUpval(g, t, 0))
  {
    var g' := DropUpval(g, t, 0);
    DropUpvalSwept(g, t, 0);
    SweptNoDangling(g, g');
    if g.phase == Sweep {
      DropUpvalSweepOk(g, t, 0);
    } else {
      ListedUpval(g, t, 0);
      DropPhase(g, t);
    }
  }

  lemma DropPhase(g: Global, t: Ref)
    requires PhaseOk(g) && g.phase != Sweep && IsThread(g.heap, t) && g.heap[t].body.openupval != [] && IsWhite(g.white)
    requires Doomed(g, g.heap[t].body.openupval[0]) && StringsOk(g)
    requires OpenOn(g.heap, g.heap[t].body.openupval[0], t)
    ensures PhaseOk(DropUpval(g, t, 0))
  {
    var g' := DropUpval(g, t, 0);
    var u := g.heap[t].body.openupval[0];
    assert g.phase == SweepString;
    forall i, r | 0 <= i < g'.sweepstr && r in g'.strt[i] ensures Clean(g', r) {
      assert Clean(g, r) && r in g.strt[i] && r != u && r != t;
    }
  }

  /** Closing an upvalue of the current white. */
  lemma CloseWhiteInv(g: Global, t: Ref)
    requires Inv(g) && IsThread(g.heap, t) && g.heap[t].body.openupval != []
    requires Clean(g, g.heap[t].body.openupval[0])
    ensures OpenOn(g.heap, g.heap[t].body.openupval[0], t) && Inv(CloseFirst(g, t))
  {
    FirstOpen(g, t);
    OpenList(g, t);
    hide Shape, Swept, NoDangling, PhaseOk, UpvalsOk;
    CloseFirstSwept(g, t);
    SweptNoDangling(g, CloseFirst(g, t));
    CloseWhitePhase(g, t);
  }

  lemma CloseWhitePhase(g: Global, t: Ref)
    requires Shape(g) && PhaseOk(g) && IsThread(g.heap, t) && g.heap[t].body.openupval != []
    requires Clean(g, g.heap[t].body.openupval[0]) && OpenOn(g.heap, g.heap[t].body.openupval[0], t)
    ensures PhaseOk(CloseFirst(g, t))
  {
    var g' := CloseFirst(g, t);
    match g.phase
    case Propagate => ClosePropagate(g, t, g');
    case Sweep => CloseFirstSweepOk(g, t);
    case SweepString =>
      assert forall x :: Clean(g, x) ==> Clean(g', x);
    case _ =>
      assert forall x :: Clean(g, x) ==> Clean(g', x);
  }

  lemma ClosePropagate(g: Global, t: Ref, g': Global)
    requires UpvalsOk(g.heap) && PropagateOk(g) && ClosedFirst(g, t, g')
    ensures PropagateOk(g')
  {
    CloseTri(g, t, g');
    hide Tri;
    assert forall q :: NonWhite(g.heap, q) ==> NonWhite(g'.heap, q);
  }

  /** Closing leaves what every object holds alone. */
  lemma CloseContents(g: Global, t: Ref, x: Ref)
    requires UpvalsOk(g.heap) && IsThread(g.heap, t) && g.heap[t].body.openupval != [] && x in g.heap
    requires OpenOn(g.heap, g.heap[t].body.openupval[0], t)
    ensures var h' := CloseFirst(g, t).heap;
      Contents(h', h'[x].body, STRONG) == Contents(g.heap, g.heap[x].body, STRONG)
  {
    if IsOpen(g.heap[x].body) { assert IsThread(g.heap, g.heap[x].body.cell.thread); }
  }

  /** `g'` is `g` with the first upvalue of `t` closed, and black if it was marked. */
  ghost predicate ClosedFirst(g: Global, t: Ref, g': Global) {
    && IsThread(g.heap, t) && g.heap[t].body.openupval != []
    && OpenOn(g.heap, g.heap[t].body.openupval[0], t)
    && var u := g.heap[t].body.openupval[0];
    || (IsWhite(g.heap[u].color) && g' == CloseFirst(g, t))
    || (g.heap[u].color == Gray && CellMarked(g.heap, g.heap[u].body.cell) && g' == Paint(CloseFirst(g, t), u, Black))
  }

  lemma CloseRule(g: Global, t: Ref, g': Global, x: Ref)
    requires UpvalsOk(g.heap) && ClosedFirst(g, t, g') && x in g.heap && ColorRule(g, x)
    ensures ColorRule(g', x)
  {
    CloseContents(g, t, x);
    assert forall q :: NonWhite(g.heap, q) ==> NonWhite(g'.heap, q);
    assert forall q :: KeyOf(g'.heap[x].body, q) ==> KeyOf(g.heap[x].body, q);
  }

  lemma CloseTri(g: Global, t: Ref, g': Global)
    requires UpvalsOk(g.heap) && Tri(g, {}) && ClosedFirst(g, t, g')
    ensures Tri(g', {})
  {
    assert forall x :: OnList(g', x) == OnList(g, x);
    forall x | x in g'.heap ensures ColorRule(g', x) {
      CloseRule(g, t, g', x);
    }
    CloseLists(g, t, g');
  }

  lemma CloseLists(g: Global, t: Ref, g': Global)
    requires ClosedFirst(g, t, g') && forall x :: OnList(g, x) ==> x in g.heap && Listable(g.heap[x].body)
    ensures forall x :: OnList(g, x) ==> g'.heap[x].color == g.heap[x].color && Listable(g'.heap[x].body)
    ensures forall x :: OnList(g, x) ==> g'.heap[x].body.Table? == g.heap[x].body.Table?
  {}

  /** A gray upvalue closed while marking turns black, its value marked (lgc.c:701-704). */
  lemma CloseGrayInv(g: Global, t: Ref)
    requires Inv(g) && g.phase == Propagate && IsThread(g.heap, t) && g.heap[t].body.openupval != []
    requires g.heap[t].body.openupval[0] in g.heap && g.heap[g.heap[t].body.openupval[0]].color == Gray
    requires OpenOn(g.heap, g.heap[t].body.openupval[0], t)
    requires CellMarked(g.heap, g.heap[g.heap[t].body.openupval[0]].body.cell)
    ensures Inv(Paint(CloseFirst(g, t), g.heap[t].body.openupval[0], Black))
  {
    var u := g.heap[t].body.openupval[0];
    FirstOpen(g, t);
    OpenList(g, t);
    var g1 := CloseFirst(g, t);
    var g' := Paint(g1, u, Black);
    hide Shape, Swept, Tri, NoDangling, UpvalsOk, PropagateOk;
    CloseFirstSwept(g, t);
    SweptNoDangling(g, g1);
    ClosePropagate(g, t, g');
    PaintedNoDangling(g1, u, g');
    PaintedShape(g1, u, g');
  }

  lemma PaintedShape(g: Global, u: Ref, g': Global)
    requires Shape(g) && u in g.heap && !NeverBlack(g.heap[u].body) && g' == Paint(g, u, Black)
    ensures Shape(g')
  {
    BodiesShape(g, g');
  }

  lemma PaintedNoDangling(g: Global, u: Ref, g': Global)
    requires NoDangling(g) && u in g.heap && g.heap[u].color != Other(g.white) && g' == Paint(g, u, Black)
    requires IsWhite(g.white)
    ensures NoDangling(g')
  {
    assert forall x :: Doomed(g', x) == Doomed(g, x);
    assert RootValues(g') == RootValues(g);
    forall x, q | x in g'.heap && Edge(g'.heap, x, q) ensures Edge(g.heap, x, q) {
      PaintExtends(g, u, Black);
      ExtendsContents(g.heap, g'.heap, x, STRONG);
    }
  }

  /** A freed object was doomed. */
  ghost predicate FreesDoomed(g: Global, g': Global) {
    && (forall r :: r in g.heap && r !in g'.heap ==> Doomed(g, r))
    && (forall r :: Doomed(g', r) ==> Doomed(g, r))
  }

  /** The body `b` of `x` is what it was, or `x` was open on a slot of `t` from `level` on and now holds the
      value of that slot. */
  predicate ClosedBody(h: Heap, t: Ref, level: nat, x: Ref, b: Body)
    requires IsThread(h, t) && x in h
  {
    || b == h[x].body
    || (&& h[x].body.UpVal? && h[x].body.cell.Open? && h[x].body.cell.thread == t
        && level <= h[x].body.cell.slot < |h[t].body.stack|
        && b == UpVal(Closed(h[t].body.stack[h[x].body.cell.slot])))
  }

  /** From `g` to `g'` some upvalues open on `t` from `level` on were closed or freed; no other object and no
      root changed. */
  ghost predicate Closing(g: Global, t: Ref, level: nat, g': Global) {
    && g' == g.(heap := g'.heap, gray := g'.gray, rootgc := g'.rootgc, sweepgc := g'.sweepgc)
    && IsThread(g.heap, t) && IsThread(g'.heap, t)
    && g'.heap[t].body == g.heap[t].body.(openupval := g'.heap[t].body.openupval)
    && (forall x :: x in g'.heap ==> x in g.heap)
    && (forall x :: x in g'.heap && x != t ==> ClosedBody(g.heap, t, level, x, g'.heap[x].body))
    && (forall x :: x in g.heap && x !in g'.heap ==> OpenOn(g.heap, x, t) && g.heap[x].body.cell.slot >= level)
  }

  lemma ClosingTrans(g: Global, g1: Global, g2: Global, t: Ref, level: nat)
    requires Closing(g, t, level, g1) && Closing(g1, t, level, g2)
    ensures Closing(g, t, level, g2)
  {
    forall x | x in g2.heap && x != t ensures ClosedBody(g.heap, t, level, x, g2.heap[x].body) {
      assert ClosedBody(g.heap, t, level, x, g1.heap[x].body) && ClosedBody(g1.heap, t, level, x, g2.heap[x].body);
    }
    forall x | x in g.heap && x !in g2.heap ensures OpenOn(g.heap, x, t) && g.heap[x].body.cell.slot >= level {
      if x in g1.heap { assert ClosedBody(g.heap, t, level, x, g1.heap[x].body); }
    }
  }

  /** Closing, freeing or recolouring the first open upvalue of `t`. */
  lemma HeadClosing(g: Global, t: Ref, level: nat)
    requires UpvalsOk(g.heap) && IsThread(g.heap, t) && g.heap[t].body.openupval != []
    requires OpenOn(g.heap, g.heap[t].body.openupval[0], t) && Slot(g.heap, g.heap[t].body.openupval[0]) >= level
    ensures Closing(g, t, level, DropUpval(g, t, 0)) && Closing(g, t, level, CloseFirst(g, t))
  {}

  /** Recolouring is no change. */
  lemma PaintClosing(g: Global, t: Ref, level: nat, g': Global)
    requires IsThread(g.heap, t) && g'.heap.Keys == g.heap.Keys
    requires g' == g.(heap := g'.heap, gray := g'.gray) && forall x :: x in g.heap ==> g'.heap[x].body == g.heap[x].body
    ensures Closing(g, t, level, g')
  {}

  /** One round of luaF_close (lfunc.c:99-111) with luaC_linkupval (lgc.c:695-710). */
  method CloseHead(c: Collector, t: Ref, ghost level: nat)
    requires Inv(c.g) && IsThread(c.g.heap, t) && c.g.heap[t].body.openupval != []
    requires Slot(c.g.heap, c.g.heap[t].body.openupval[0]) >= level
    modifies c
    ensures Closing(old(c.g), t, level, c.g)
    ensures Inv(c.g) && FreesDoomed(old(c.g), c.g) && IsThread(c.g.heap, t)
    ensures c.g.heap[t] == old(c.g).heap[t].(body := c.g.heap[t].body, color := c.g.heap[t].color)
    ensures c.g.heap[t].body == old(c.g).heap[t].body.(openupval := old(c.g).heap[t].body.openupval[1..])
    ensures Doomed(c.g, t) == Doomed(old(c.g), t) && c.g.mainthread == old(c.g).mainthread
    ensures c.g.white == old(c.g).white
  {
    hide Shape, NoDangling, PhaseOk, Closing, UpvalsOk;
    ghost var g0 := c.g;
    var us := c.g.heap[t].body.openupval;
    var u := us[0];
    FirstOpen(c.g, t);
    OpenList(c.g, t);
    HeadClosing(c.g, t, level);
    if Doomed(c.g, u) {
      DropFirstInv(c.g, t);
      assert Without(us, 0) == us[1..];
      c.g := DropUpval(c.g, t, 0);
    } else if c.g.heap[u].color == Gray && c.g.phase == Propagate {
      CloseGray(c, t, u, level);
    } else {
      if c.g.heap[u].color == Gray {
        WhitenInv(c.g, u);
        WhiteClosing(c.g, t, u, level);
        c.g := Whiten(c.g, u);
      }
      CloseWhiteInv(c.g, t);
      c.g := CloseFirst(c.g, t);
    }
  }

  method CloseGray(c: Collector, t: Ref, u: Ref, ghost level: nat)
    requires Inv(c.g) && c.g.phase == Propagate && IsThread(c.g.heap, t) && c.g.heap[t].body.openupval != []
    requires u == c.g.heap[t].body.openupval[0] && OpenOn(c.g.heap, u, t) && c.g.heap[u].color == Gray
    requires Slot(c.g.heap, u) >= level
    modifies c
    ensures Closing(old(c.g), t, level, c.g)
    ensures Inv(c.g) && FreesDoomed(old(c.g), c.g) && IsThread(c.g.heap, t)
    ensures c.g.heap[t] == old(c.g).heap[t].(body := c.g.heap[t].body, color := c.g.heap[t].color)
    ensures c.g.heap[t].body == old(c.g).heap[t].body.(openupval := old(c.g).heap[t].body.openupval[1..])
    ensures Doomed(c.g, t) == Doomed(old(c.g), t) && c.g.mainthread == old(c.g).mainthread
    ensures c.g.white == old(c.g).white
  {
    hide Shape, NoDangling, Tri, PropagateOk, Ready, Marked, Closing, UpvalsOk;
    ghost var g0 := c.g;
    EverythingReady(g0, u);
    MarkValue(c, CellValue(c.g.heap, c.g.heap[u].body.cell), c.g, {}, ALL);
    MarkedOne(g0, c.g, t, u);
    CloseGrayInv(c.g, t);
    ghost var g1 := c.g;
    GrayClosing(g0, g1, t, u, level);
    c.g := Paint(CloseFirst(c.g, t), u, Black);
    forall x ensures !Doomed(g0, x) && !Doomed(c.g, x) {
      NeverDoomed(g0, x);
      NeverDoomed(c.g, x);
    }
  }

  lemma GrayClosing(g0: Global, g1: Global, t: Ref, u: Ref, level: nat)
    requires UpvalsOk(g1.heap) && Marked(g0, g1) && IsThread(g0.heap, t) && IsThread(g1.heap, t)
    requires g1.heap[t].body.openupval != [] && u == g1.heap[t].body.openupval[0]
    requires OpenOn(g1.heap, u, t) && Slot(g1.heap, u) >= level
    ensures Closing(g0, t, level, Paint(CloseFirst(g1, t), u, Black))
  {
    MarkedBodies(g0, g1);
    HeadClosing(g1, t, level);
    hide UpvalsOk, Marked;
    PaintClosing(g0, t, level, g1);
    BlackClosing(g1, t, u, level);
    hide Closing, CloseFirst;
    ClosingTrans(g0, g1, Paint(CloseFirst(g1, t), u, Black), t, level);
  }

  lemma BlackClosing(g: Global, t: Ref, u: Ref, level: nat)
    requires IsThread(g.heap, t) && g.heap[t].body.openupval != [] && u == g.heap[t].body.openupval[0]
    requires OpenOn(g.heap, u, t) && Closing(g, t, level, CloseFirst(g, t))
    ensures Closing(g, t, level, Paint(CloseFirst(g, t), u, Black))
  {
    var g1 := CloseFirst(g, t);
    PaintClosing(g1, t, level, Paint(g1, u, Black));
    hide Closing, CloseFirst;
    ClosingTrans(g, g1, Paint(g1, u, Black), t, level);
  }

  /** Whitening a gray upvalue and closing it. */
  lemma WhiteClosing(g: Global, t: Ref, u: Ref, level: nat)
    requires UpvalsOk(g.heap) && IsThread(g.heap, t) && g.heap[t].body.openupval != []
    requires u == g.heap[t].body.openupval[0] && OpenOn(g.heap, u, t) && Slot(g.heap, u) >= level && u != t
    ensures OpenOn(Whiten(g, u).heap, u, t) && Closing(g, t, level, CloseFirst(Whiten(g, u), t))
  {
    var g1 := Whiten(g, u);
    PaintClosing(g, t, level, g1);
    SameUpvals(g.heap, g1.heap);
    HeadClosing(g1, t, level);
    hide Closing, CloseFirst, UpvalsOk;
    ClosingTrans(g, g1, CloseFirst(g1, t), t, level);
  }

  lemma MarkedBodies(g: Global, g': Global)
    requires Marked(g, g')
    ensures g' == g.(heap := g'.heap, gray := g'.gray) && g'.heap.Keys == g.heap.Keys
    ensures forall x :: x in g.heap ==> g'.heap[x].body == g.heap[x].body
  {
    forall x | x in g.heap ensures g'.heap[x].body == g.heap[x].body { assert Recolored(g.heap[x], g'.heap[x]); }
  }

  lemma EverythingReady(g: Global, u: Ref)
    requires Inv(g) && g.phase == Propagate && u in g.heap && g.heap[u].body.UpVal?
    ensures Marking(g, g, {}, ALL)
    ensures var v := CellValue(g.heap, g.heap[u].body.cell); v.Obj? ==> v.ref in g.heap && v.ref in ALL
  {
    NoneDoomed(g);
    var v := CellValue(g.heap, g.heap[u].body.cell);
    if v.Obj? { assert Edge(g.heap, u, v.ref); }
  }

  lemma MarkedOne(g: Global, g': Global, t: Ref, u: Ref)
    requires Inv(g) && g.phase == Propagate && Marking(g, g', {}, ALL) && IsThread(g.heap, t) && OpenOn(g.heap, u, t)
    requires g.heap[u].color == Gray
    requires var v := CellValue(g.heap, g.heap[u].body.cell); v.Obj? ==> NonWhite(g'.heap, v.ref)
    ensures Inv(g') && IsThread(g'.heap, t) && g'.heap[t].body == g.heap[t].body && g'.heap[t].fixed == g.heap[t].fixed
    ensures g'.heap.Keys == g.heap.Keys && g'.heap[t].weak == g.heap[t].weak && OpenOn(g'.heap, u, t)
    ensures g'.heap[u].color == Gray && g'.heap[u].body == g.heap[u].body && UpvalsOk(g'.heap)
    ensures g'.phase == Propagate && g'.mainthread == g.mainthread && g'.white == g.white
    ensures CellMarked(g'.heap, g'.heap[u].body.cell)
  {
    MarkedExtends(g, g');
    ExtendsCell(g.heap, g'.heap, g.heap[u].body.cell);
    assert Recolored(g.heap[t], g'.heap[t]) && Recolored(g.heap[u], g'.heap[u]);
    MarkInv(g, g');
  }

  lemma NeverDoomed(g: Global, t: Ref)
    requires Inv(g) && g.phase == Propagate
    ensures !Doomed(g, t)
  {}

  /** luaF_close (lfunc.c:96-112): close every upvalue at or above `level`. */
  method Close(c: Collector, t: Ref, level: nat)
    requires Inv(c.g) && IsThread(c.g.heap, t)
    modifies c
    ensures Inv(c.g) && FreesDoomed(old(c.g), c.g) && IsThread(c.g.heap, t)
    ensures c.g.heap[t].body == old(c.g).heap[t].body.(openupval := c.g.heap[t].body.openupval)
    ensures Doomed(c.g, t) == Doomed(old(c.g), t) && c.g.mainthread == old(c.g).mainthread
    ensures forall u :: OpenOn(c.g.heap, u, t) ==> c.g.heap[u].body.cell.slot < level
    ensures Closing(old(c.g), t, level, c.g)
  {
    hide Shape, NoDangling, PhaseOk, Closing;
    ghost var g0 := c.g;
    PaintClosing(g0, t, level, g0);
    while c.g.heap[t].body.openupval != [] && Slot(c.g.heap, c.g.heap[t].body.openupval[0]) >= level
      invariant Inv(c.g) && FreesDoomed(g0, c.g) && IsThread(c.g.heap, t) && Closing(g0, t, level, c.g)
      invariant c.g.heap[t].body == g0.heap[t].body.(openupval := c.g.heap[t].body.openupval)
      invariant Doomed(c.g, t) == Doomed(g0, t) && c.g.mainthread == g0.mainthread && c.g.white == g0.white
      decreases |c.g.heap[t].body.openupval|
    {
      ghost var g1 := c.g;
      CloseHead(c, t, level);
      ClosingTrans(g0, g1, c.g, t, level);
    }
    NoneAbove(c.g, t, level);
  }

  lemma NoneAbove(g: Global, t: Ref, level: nat)
    requires Inv(g) && IsThread(g.heap, t)
    requires g.heap[t].body.openupval == [] || Slot(g.heap, g.heap[t].body.openupval[0]) < level
    ensures forall u :: OpenOn(g.heap, u, t) ==> g.heap[u].body.cell.slot < level
  {
    forall u | OpenOn(g.heap, u, t) ensures g.heap[u].body.cell.slot < level {
      var us := g.heap[t].body.openupval;
      var i :| 0 <= i < |us| && us[i] == u;
      assert i > 0 ==> Slot(g.heap, us[0]) > Slot(g.heap, us[i]);
    }
  }
}
