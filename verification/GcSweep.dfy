/** Sweeping (lgc.c:378-428): the primitive changes a sweep makes, and the sweep loops. */
module GcSweep {
  import opened GcHeap
  import opened GcMark
  import opened GcAtomic
  import opened GcInvariant

  /** What a sweep may do to the body of an object it keeps: drop upvalues from a thread's list, and
      close an upvalue, giving it the value it read from the stack. */
  predicate SweptBody(h: Heap, b: Body, b': Body) {
    || b' == b
    || (b.Thread? && b'.Thread? && b' == b.(openupval := b'.openupval))
    || (IsOpen(b) && b' == UpVal(Closed(CellValue(h, b.cell))))
  }

  predicate SweptObject(g: Global, r: Ref, o': Object)
    requires r in g.heap
  {
    && o' == g.heap[r].(color := o'.color, body := o'.body)
    && (o'.color == g.heap[r].color || (o'.color == g.white && !Doomed(g, r)))
    && SweptBody(g.heap, g.heap[r].body, o'.body)
  }

  /** `g'` is `g` after some sweeping: only doomed objects are gone. */
  ghost predicate Swept(g: Global, g': Global) {
    && g' == g.(heap := g'.heap, phase := g'.phase, rootgc := g'.rootgc, sweepgc := g'.sweepgc,
                strt := g'.strt, sweepstr := g'.sweepstr)
    && g'.heap.Keys <= g.heap.Keys
    && (forall r :: r in g.heap && r !in g'.heap ==> Doomed(g, r))
    && (forall r :: r in g'.heap ==> SweptObject(g, r, g'.heap[r]))
    && UpvalsOk(g'.heap)
  }

  /** The upvalues that have been closed are those of threads that are being freed. */
  ghost predicate ClosedWithThread(g: Global, g': Global) {
    forall u :: u in g.heap && u in g'.heap && IsOpen(g.heap[u].body) && !IsOpen(g'.heap[u].body) ==>
      Doomed(g, g.heap[u].body.cell.thread)
  }

  lemma SweptCell(g: Global, g': Global, c: Cell)
    requires Swept(g, g')
    requires c.Open? ==> IsThread(g'.heap, c.thread)
    ensures CellValue(g'.heap, c) == CellValue(g.heap, c)
  {
    if c.Open? {
      assert SweptObject(g, c.thread, g'.heap[c.thread]);
    }
  }

  /** Sweeping changes nothing that the mutator can read. */
  lemma SweptContents(g: Global, g': Global, r: Ref, w: Weakness)
    requires Swept(g, g') && r in g'.heap
    ensures Contents(g'.heap, g'.heap[r].body, w) == Contents(g.heap, g.heap[r].body, w)
  {
    assert SweptObject(g, r, g'.heap[r]);
    var b := g.heap[r].body;
    if IsOpen(b) && g'.heap[r].body == b {
      SweptCell(g, g', b.cell);
    }
  }

  lemma SweptTrans(g: Global, g1: Global, g2: Global)
    requires Swept(g, g1) && Swept(g1, g2)
    ensures Swept(g, g2)
  {
    forall r | r in g.heap && r !in g2.heap ensures Doomed(g, r) {
      if r in g1.heap { assert SweptObject(g, r, g1.heap[r]); }
    }
    forall r | r in g2.heap ensures SweptObject(g, r, g2.heap[r]) {
      assert SweptObject(g, r, g1.heap[r]) && SweptObject(g1, r, g2.heap[r]);
      var b := g.heap[r].body;
      if IsOpen(b) && g1.heap[r].body == b {
        SweptCell(g, g1, b.cell);
      }
    }
  }

  /** Doomed objects may go and the rest may be whitened, without leaving a dangling reference. */
  lemma SweptNoDangling(g: Global, g': Global)
    requires Swept(g, g') && NoDangling(g) && IsWhite(g.white)
    ensures NoDangling(g')
  {
    forall r | r in g'.heap ensures Doomed(g', r) == Doomed(g, r) {
      assert SweptObject(g, r, g'.heap[r]);
    }
    forall r, q | r in g'.heap && !Doomed(g', r) && Edge(g'.heap, r, q) ensures q in g'.heap && !Doomed(g', q) {
      SweptContents(g, g', r, STRONG);
      assert Edge(g.heap, r, q);
    }
    assert RootValues(g') == RootValues(g);
  }

  function Whiten(g: Global, r: Ref): Global
    requires r in g.heap
  {
    Paint(g, r, g.white)
  }

  /** The list without its element at `i`. */
  function Without(s: seq<Ref>, i: nat): seq<Ref>
    requires i < |s|
  {
    s[..i] + s[i + 1..]
  }

  lemma WithoutMembers(s: seq<Ref>, i: nat)
    requires i < |s| && Distinct(s)
    ensures Distinct(Without(s, i))
    ensures forall x :: x in Without(s, i) <==> x in s && x != s[i]
  {
    forall x | x in s && x != s[i] ensures x in Without(s, i) {
      var k :| 0 <= k < |s| && s[k] == x;
      assert Without(s, i)[if k < i then k else k - 1] == x;
    }
  }

  lemma WhitenSwept(g: Global, r: Ref)
    requires Shape(g) && r in g.heap && !Doomed(g, r)
    ensures Swept(g, Whiten(g, r)) && Shape(Whiten(g, r))
  {
    hide UpvalsOk, RootListOk, StringsOk;
    var g' := Whiten(g, r);
    SameUpvals(g.heap, g'.heap);
    StringsKept(g, g');
    RootListKept(g, g');
  }

  /** Colours play no part in the lists of open upvalues. */
  lemma SameUpvals(h: Heap, h': Heap)
    requires UpvalsOk(h) && h'.Keys == h.Keys
    requires forall r :: r in h ==> h'[r].body == h[r].body || (h[r].body.Table? && h'[r].body.Table?)
    ensures UpvalsOk(h')
  {
    forall t | IsThread(h', t) ensures Distinct(h'[t].body.openupval) && Descending(h', h'[t].body.openupval) {
      assert IsThread(h, t);
      assert forall u :: Slot(h', u) == Slot(h, u);
    }
    forall t, u | IsThread(h', t) && u in h'[t].body.openupval ensures OpenOn(h', u, t) {
      assert IsThread(h, t) && OpenOn(h, u, t);
    }
  }

  // ----- open upvalues -----

  function SetOpen(h: Heap, t: Ref, us: seq<Ref>): Heap
    requires IsThread(h, t)
  {
    h[t := h[t].(body := h[t].body.(openupval := us))]
  }

  /** The open upvalue at position `k` of the list of thread `t` is freed. */
  function DropUpval(g: Global, t: Ref, k: nat): Global
    requires IsThread(g.heap, t) && k < |g.heap[t].body.openupval|
  {
    var us := g.heap[t].body.openupval;
    g.(heap := SetOpen(g.heap, t, Without(us, k)) - {us[k]})
  }

  /** Where luaC_link and luaC_linkupval put an object: at the head of `rootgc`. A sweep that has not
      passed any object yet will still meet it. */
  function Linked(g: Global, r: Ref): Global {
    g.(rootgc := [r] + g.rootgc, sweepgc := if g.sweepgc == 0 then 0 else g.sweepgc + 1)
  }

  /** The first open upvalue of thread `t` takes over the value of its slot and joins `rootgc`. */
  function CloseFirst(g: Global, t: Ref): Global
    requires IsThread(g.heap, t) && g.heap[t].body.openupval != [] && g.heap[t].body.openupval[0] in g.heap
    requires IsOpen(g.heap[g.heap[t].body.openupval[0]].body)
  {
    var us := g.heap[t].body.openupval;
    Linked(g.(heap := SetOpen(g.heap, t, us[1..])[us[0] := ClosedObject(g.heap, us[0])]), us[0])
  }

  /** Removing one upvalue from the list of its thread. */
  lemma UpvalsWithout(h: Heap, h': Heap, t: Ref, k: nat)
    requires UpvalsOk(h) && IsThread(h, t) && k < |h[t].body.openupval|
    requires IsThread(h', t) && h'[t].body == h[t].body.(openupval := Without(h[t].body.openupval, k))
    requires var u := h[t].body.openupval[k];
      && (forall x :: x in h' ==> x in h)
      && (forall x :: x in h && x != u ==> x in h')
      && (forall x :: x in h' && x != u && x != t ==> h'[x].body == h[x].body)
      && (u in h' ==> h'[u].body.UpVal? && !IsOpen(h'[u].body))
    ensures UpvalsOk(h')
  {
    var us := h[t].body.openupval;
    var u := us[k];
    WithoutMembers(us, k);
    assert OpenOn(h, u, t);
    forall x | x in h' && IsOpen(h'[x].body)
      ensures var y := h'[x].body.cell.thread;
        IsThread(h', y) && x in h'[y].body.openupval && h'[x].body.cell.slot < |h'[y].body.stack|
    {
      assert x in h && h[x].body == h'[x].body;
      var y := h[x].body.cell.thread;
      assert IsThread(h, y);
    }
    forall y | IsThread(h', y) ensures Distinct(h'[y].body.openupval) && Descending(h', h'[y].body.openupval) {
      assert IsThread(h, y);
      forall x | x in h'[y].body.openupval ensures Slot(h', x) == Slot(h, x) {
        assert OpenOn(h, x, y);
      }
      if y == t { WithoutDescending(h, us, k); }
    }
    forall y, x | IsThread(h', y) && x in h'[y].body.openupval ensures OpenOn(h', x, y) {
      assert IsThread(h, y) && OpenOn(h, x, y);
    }
  }

  lemma WithoutDescending(h: Heap, us: seq<Ref>, k: nat)
    requires k < |us| && Descending(h, us)
    ensures Descending(h, Without(us, k))
  {
    var ws := Without(us, k);
    forall i, j | 0 <= i < j < |ws| ensures Slot(h, ws[i]) > Slot(h, ws[j]) {
      var i', j' := if i < k then i else i + 1, if j < k then j else j + 1;
      assert ws[i] == us[i'] && ws[j] == us[j'];
    }
  }

  /** The lists of strings and of root objects depend only on which of these exist. */
  lemma StringsKept(g: Global, g': Global)
    requires StringsOk(g) && g'.strt == g.strt
    requires forall r :: (r in g'.heap && g'.heap[r].body.Str?) == (r in g.heap && g.heap[r].body.Str?)
    ensures StringsOk(g')
  {}

  lemma RootListKept(g: Global, g': Global)
    requires RootListOk(g) && g'.rootgc == g.rootgc
    requires forall r :: (r in g'.heap && InRootList(g'.heap[r].body)) == (r in g.heap && InRootList(g.heap[r].body))
    ensures RootListOk(g')
  {}

  function ClosedObject(h: Heap, u: Ref): Object
    requires u in h && IsOpen(h[u].body)
  {
    h[u].(body := UpVal(Closed(CellValue(h, h[u].body.cell))))
  }

  /** The change that freeing or closing an open upvalue makes, as facts about the two states. */
  ghost predicate UpvalLeaves(g: Global, g': Global, t: Ref, k: nat) {
    && IsThread(g.heap, t) && k < |g.heap[t].body.openupval|
    && var u := g.heap[t].body.openupval[k];
    && (forall x :: x in g'.heap ==> x in g.heap)
    && (forall x :: x in g.heap && x != u ==> x in g'.heap)
    && (forall x :: x in g'.heap && x != u && x != t ==> g'.heap[x] == g.heap[x])
    && IsThread(g'.heap, t)
    && g'.heap[t] == g.heap[t].(body := g.heap[t].body.(openupval := Without(g.heap[t].body.openupval, k)))
    && (u in g'.heap ==> u in g.heap && IsOpen(g.heap[u].body) && g'.heap[u] == ClosedObject(g.heap, u))
    && (u !in g'.heap ==> Doomed(g, u))
    && g' == g.(heap := g'.heap, rootgc := g'.rootgc, sweepgc := g'.sweepgc)
  }

  lemma UpvalLeavesSwept(g: Global, g': Global, t: Ref, k: nat)
    requires UpvalsOk(g.heap) && UpvalLeaves(g, g', t, k)
    ensures Swept(g, g')
    ensures Opens(g'.heap) == Opens(g.heap) - {g.heap[t].body.openupval[k]}
    ensures g.heap[t].body.openupval[k] in Opens(g.heap)
  {
    var u := g.heap[t].body.openupval[k];
    assert OpenOn(g.heap, u, t);
    UpvalsWithout(g.heap, g'.heap, t, k);
  }

  lemma UpvalLeavesShape(g: Global, g': Global, t: Ref, k: nat)
    requires Shape(g) && UpvalLeaves(g, g', t, k) && UpvalsOk(g'.heap)
    requires RootListOk(g')
    ensures Shape(g')
  {
    var u := g.heap[t].body.openupval[k];
    assert OpenOn(g.heap, u, t);
    hide UpvalsOk, RootListOk, StringsOk;
    StringsKept(g, g');
  }

  lemma DropUpvalSwept(g: Global, t: Ref, k: nat)
    requires Shape(g) && IsThread(g.heap, t) && k < |g.heap[t].body.openupval|
    requires Doomed(g, g.heap[t].body.openupval[k])
    ensures UpvalLeaves(g, DropUpval(g, t, k), t, k)
    ensures Swept(g, DropUpval(g, t, k)) && Shape(DropUpval(g, t, k)) && ClosedWithThread(g, DropUpval(g, t, k))
  {
    var g' := DropUpval(g, t, k);
    assert OpenOn(g.heap, g.heap[t].body.openupval[k], t);
    assert UpvalLeaves(g, g', t, k);
    UpvalLeavesSwept(g, g', t, k);
    RootListKept(g, g');
    UpvalLeavesShape(g, g', t, k);
  }

  lemma CloseFirstLeaves(g: Global, t: Ref)
    requires UpvalsOk(g.heap) && IsThread(g.heap, t) && g.heap[t].body.openupval != []
    ensures var u := g.heap[t].body.openupval[0]; u in g.heap && IsOpen(g.heap[u].body)
    ensures UpvalLeaves(g, CloseFirst(g, t), t, 0)
  {
    var us := g.heap[t].body.openupval;
    assert OpenOn(g.heap, us[0], t);
    hide UpvalsOk;
    assert Without(us, 0) == us[1..];
  }

  lemma CloseFirstRoots(g: Global, t: Ref)
    requires RootListOk(g) && IsThread(g.heap, t) && g.heap[t].body.openupval != []
    requires var u := g.heap[t].body.openupval[0]; u in g.heap && IsOpen(g.heap[u].body)
    ensures g.heap[t].body.openupval[0] !in g.rootgc && RootListOk(CloseFirst(g, t))
  {}

  lemma LeavesClosed(g: Global, g': Global, t: Ref, k: nat)
    requires UpvalsOk(g.heap) && UpvalLeaves(g, g', t, k) && Doomed(g, t)
    ensures ClosedWithThread(g, g')
  {
    var u := g.heap[t].body.openupval[k];
    assert OpenOn(g.heap, u, t);
  }

  lemma CloseFirstSwept(g: Global, t: Ref)
    requires Shape(g) && IsThread(g.heap, t) && g.heap[t].body.openupval != []
    ensures var u := g.heap[t].body.openupval[0]; u in g.heap && IsOpen(g.heap[u].body) && u !in g.rootgc
    ensures UpvalLeaves(g, CloseFirst(g, t), t, 0)
    ensures Swept(g, CloseFirst(g, t)) && Shape(CloseFirst(g, t))
    ensures Doomed(g, t) ==> ClosedWithThread(g, CloseFirst(g, t))
  {
    hide UpvalLeaves, UpvalsOk, RootListOk, StringsOk;
    CloseFirstLeaves(g, t);
    CloseFirstRoots(g, t);
    hide CloseFirst;
    UpvalLeavesSwept(g, CloseFirst(g, t), t, 0);
    assert UpvalsOk(CloseFirst(g, t).heap);
    if Doomed(g, t) { LeavesClosed(g, CloseFirst(g, t), t, 0); }
    hide Swept, Shape;
    UpvalLeavesShape(g, CloseFirst(g, t), t, 0);
  }

  ghost function Opens(h: Heap): set<Ref> {
    set r | r in h && IsOpen(h[r].body)
  }

  // ----- other objects -----

  /** The object at position `i` of `rootgc` is freed. */
  function DropObject(g: Global, i: nat): Global
    requires i < |g.rootgc|
  {
    g.(heap := g.heap - {g.rootgc[i]}, rootgc := Without(g.rootgc, i))
  }

  lemma UpvalsRemoved(h: Heap, h': Heap, r: Ref)
    requires UpvalsOk(h) && r in h && h' == h - {r} && !IsOpen(h[r].body)
    requires h[r].body.Thread? ==> h[r].body.openupval == []
    ensures UpvalsOk(h')
  {
    forall u | u in h' && IsOpen(h'[u].body)
      ensures var t := h'[u].body.cell.thread;
        IsThread(h', t) && u in h'[t].body.openupval && h'[u].body.cell.slot < |h'[t].body.stack|
    {
      var t := h[u].body.cell.thread;
      assert IsThread(h, t) && u in h[t].body.openupval;
    }
    forall t | IsThread(h', t) ensures Distinct(h'[t].body.openupval) && Descending(h', h'[t].body.openupval) {
      assert IsThread(h, t);
      assert forall u :: u in h[t].body.openupval ==> OpenOn(h, u, t) && Slot(h', u) == Slot(h, u);
    }
    forall t, u | IsThread(h', t) && u in h'[t].body.openupval ensures OpenOn(h', u, t) {
      assert IsThread(h, t) && OpenOn(h, u, t);
    }
  }

  lemma DropObjectSwept(g: Global, i: nat)
    requires Shape(g) && i < |g.rootgc| && Doomed(g, g.rootgc[i])
    requires g.heap[g.rootgc[i]].body.Thread? ==> g.heap[g.rootgc[i]].body.openupval == []
    ensures Swept(g, DropObject(g, i)) && Shape(DropObject(g, i)) && ClosedWithThread(g, DropObject(g, i))
  {
    var r := g.rootgc[i];
    assert r in g.rootgc && InRootList(g.heap[r].body);
    DropObjectRoots(g, i);
    hide RootListOk, StringsOk, UpvalsOk;
    UpvalsRemoved(g.heap, DropObject(g, i).heap, r);
    DropObjectShape(g, i);
    hide Shape;
    DropObjectLeaves(g, i);
    hide DropObject, Doomed;
  }

  lemma DropObjectLeaves(g: Global, i: nat)
    requires i < |g.rootgc| && Doomed(g, g.rootgc[i]) && UpvalsOk(DropObject(g, i).heap)
    ensures Swept(g, DropObject(g, i)) && ClosedWithThread(g, DropObject(g, i))
  {
    hide UpvalsOk, Without;
  }

  lemma DropObjectShape(g: Global, i: nat)
    requires Shape(g) && i < |g.rootgc| && Doomed(g, g.rootgc[i]) && InRootList(g.heap[g.rootgc[i]].body)
    requires RootListOk(DropObject(g, i)) && UpvalsOk(DropObject(g, i).heap)
    ensures Shape(DropObject(g, i))
  {
    hide RootListOk, StringsOk, UpvalsOk, Without;
    StringsKept(g, DropObject(g, i));
  }

  lemma DropObjectRoots(g: Global, i: nat)
    requires RootListOk(g) && i < |g.rootgc|
    ensures RootListOk(DropObject(g, i))
  {
    WithoutMembers(g.rootgc, i);
  }

  /** The string at position `k` of bucket `i` is freed. */
  function DropString(g: Global, i: nat, k: nat): Global
    requires i < |g.strt| && k < |g.strt[i]|
  {
    g.(heap := g.heap - {g.strt[i][k]}, strt := g.strt[i := Without(g.strt[i], k)])
  }

  lemma DropStringSwept(g: Global, i: nat, k: nat)
    requires Shape(g) && i < |g.strt| && k < |g.strt[i]| && Doomed(g, g.strt[i][k])
    ensures Swept(g, DropString(g, i, k)) && Shape(DropString(g, i, k)) && ClosedWithThread(g, DropString(g, i, k))
  {
    var r := g.strt[i][k];
    var g' := DropString(g, i, k);
    assert r in g.strt[i];
    UpvalsRemoved(g.heap, g'.heap, r);
    WithoutMembers(g.strt[i], k);
    RootListKept(g, g');
    DropStringBuckets(g, i, k);
  }

  lemma DropStringBuckets(g: Global, i: nat, k: nat)
    requires StringsOk(g) && i < |g.strt| && k < |g.strt[i]|
    ensures StringsOk(DropString(g, i, k))
  {
    var r := g.strt[i][k];
    var g' := DropString(g, i, k);
    assert r in g.strt[i];
    WithoutMembers(g.strt[i], k);
    forall x | x in g'.heap && g'.heap[x].body.Str? ensures InSomeBucket(g'.strt, x) {
      assert InSomeBucket(g.strt, x);
      var j :| 0 <= j < |g.strt| && x in g.strt[j];
      assert x in g'.strt[j];
    }
    forall j, x | 0 <= j < |g'.strt| && x in g'.strt[j] ensures x in g'.heap && g'.heap[x].body.Str? {
      assert x in g.strt[j];
      assert x != r;
    }
    assert forall j, x :: 0 <= j < |g'.strt| && x in g'.strt[j] ==> x in g.strt[j];
  }

  // ----- the sweep loops -----

  ghost predicate Sweeping(g0: Global, g: Global) {
    Shape(g) && Swept(g0, g) && ClosedWithThread(g0, g)
  }

  lemma SweepingTrans(g0: Global, g: Global, g': Global)
    requires Sweeping(g0, g) && Swept(g, g') && Shape(g') && ClosedWithThread(g, g')
    ensures Sweeping(g0, g')
  {
    SweptTrans(g0, g, g');
    SweptOpen(g0, g, g');
    hide Shape, Swept;
  }

  lemma OpenThreads(h: Heap)
    requires UpvalsOk(h)
    ensures forall u :: u in h && IsOpen(h[u].body) ==> IsThread(h, h[u].body.cell.thread)
  {}

  lemma SweptOpen(g0: Global, g: Global, g': Global)
    requires Swept(g0, g) && Swept(g, g') && ClosedWithThread(g0, g) && ClosedWithThread(g, g')
    ensures ClosedWithThread(g0, g')
  {
    OpenThreads(g.heap);
    hide UpvalsOk;
    forall u | u in g0.heap && u in g'.heap && IsOpen(g0.heap[u].body) && !IsOpen(g'.heap[u].body)
      ensures Doomed(g0, g0.heap[u].body.cell.thread)
    {
      assert SweptObject(g0, u, g.heap[u]);
      var t := g0.heap[u].body.cell.thread;
      if IsOpen(g.heap[u].body) { assert SweptObject(g0, t, g.heap[t]); }
    }
  }

  lemma WhitenStep(g0: Global, g: Global, r: Ref)
    requires Sweeping(g0, g) && r in g.heap && !Doomed(g, r)
    ensures Sweeping(g0, Whiten(g, r))
  {
    WhitenSwept(g, r);
    hide Shape, Swept;
    assert ClosedWithThread(g, Whiten(g, r));
    hide Whiten;
    SweepingTrans(g0, g, Whiten(g, r));
  }

  predicate SameAt(h: Heap, h': Heap, r: Ref) {
    r in h ==> r in h' && h'[r] == h[r]
  }

  /** Only bucket `i` of the string table and its strings have changed. */
  ghost predicate OnlyBucket(g: Global, g': Global, i: nat) {
    && g' == g.(heap := g'.heap, strt := g'.strt) && |g'.strt| == |g.strt|
    && (forall j :: 0 <= j < |g.strt| && j != i ==> g'.strt[j] == g.strt[j])
    && (forall j, r :: 0 <= j < |g.strt| && j != i && r in g.strt[j] ==> SameAt(g.heap, g'.heap, r))
  }

  lemma OnlyBucketTrans(g: Global, g1: Global, g2: Global, i: nat)
    requires OnlyBucket(g, g1, i) && OnlyBucket(g1, g2, i)
    ensures OnlyBucket(g, g2, i)
  {
    forall j, r | 0 <= j < |g.strt| && j != i && r in g.strt[j] ensures SameAt(g.heap, g2.heap, r) {
      assert r in g1.strt[j];
      assert SameAt(g.heap, g1.heap, r) && SameAt(g1.heap, g2.heap, r);
    }
  }

  /** Sweep the string at position `k` of bucket `i`: free it, or whiten it and move on. */
  method SweepStringAt(c: Collector, i: nat, k: nat, ghost g0: Global) returns (k': nat)
    requires Sweeping(g0, c.g) && i < |c.g.strt| && k < |c.g.strt[i]|
    modifies c
    ensures Sweeping(g0, c.g) && OnlyBucket(old(c.g), c.g, i)
    ensures k <= k' <= |c.g.strt[i]| && |c.g.strt[i]| - k' < |old(c.g).strt[i]| - k
    ensures c.g.strt[i][..k] == old(c.g).strt[i][..k]
    ensures forall r :: Clean(old(c.g), r) && r in old(c.g).strt[i][..k] ==> Clean(c.g, r)
    ensures k' == k + 1 ==> Clean(c.g, c.g.strt[i][k])
    ensures k' == k || k' == k + 1
  {
    hide Shape, Swept;
    var r := c.g.strt[i][k];
    StringAt(c.g, i, k);
    if Doomed(c.g, r) {
      DropStringSwept(c.g, i, k);
      SweepingTrans(g0, c.g, DropString(c.g, i, k));
      c.g := DropString(c.g, i, k);
      k' := k;
    } else {
      WhitenStep(g0, c.g, r);
      c.g := Whiten(c.g, r);
      k' := k + 1;
    }
  }

  lemma StringAt(g: Global, i: nat, k: nat)
    requires Shape(g) && i < |g.strt| && k < |g.strt[i]|
    ensures g.strt[i][k] in g.heap && g.heap[g.strt[i][k]].body.Str?
    ensures forall j :: 0 <= j < |g.strt| && j != i ==> g.strt[i][k] !in g.strt[j]
    ensures g.strt[i][k] !in g.strt[i][..k]
  {
    assert g.strt[i][k] in g.strt[i];
  }

  /** Sweep one whole bucket of strings (lgc.c:574). */
  method SweepBucket(c: Collector, i: nat, ghost g0: Global)
    requires Sweeping(g0, c.g) && i < |c.g.strt|
    modifies c
    ensures Sweeping(g0, c.g) && OnlyBucket(old(c.g), c.g, i)
    ensures forall r :: r in c.g.strt[i] ==> Clean(c.g, r)
  {
    hide Shape, Swept;
    ghost var g1 := c.g;
    var k := 0;
    while k < |c.g.strt[i]|
      invariant Sweeping(g0, c.g) && OnlyBucket(g1, c.g, i) && 0 <= k <= |c.g.strt[i]|
      invariant forall r :: r in c.g.strt[i][..k] ==> Clean(c.g, r)
      decreases |c.g.strt[i]| - k
    {
      ghost var g2, s := c.g, c.g.strt[i][..k];
      k := SweepStringAt(c, i, k, g0);
      OnlyBucketTrans(g1, g2, c.g, i);
      assert c.g.strt[i][..k] == s || c.g.strt[i][..k] == s + [c.g.strt[i][k - 1]];
    }
    assert c.g.strt[i][..k] == c.g.strt[i];
  }

  /** What the sweep of `rootgc` has left to do. */
  ghost function Todo(g: Global): int {
    |g.rootgc| - g.sweepgc + 2 * |Opens(g.heap)|
  }

  lemma WhitenSweepOk(g: Global, r: Ref)
    requires SweepOk(g) && r in g.heap
    ensures SweepOk(Whiten(g, r)) && Opens(Whiten(g, r).heap) == Opens(g.heap)
  {
    var g' := Whiten(g, r);
    assert forall x :: Clean(g, x) ==> Clean(g', x);
    assert forall u, t :: OpenOn(g'.heap, u, t) ==> OpenOn(g.heap, u, t);
  }

  lemma UpvalLeavesSweepOk(g: Global, g': Global, t: Ref, k: nat)
    requires SweepOk(g) && UpvalLeaves(g, g', t, k)
    requires var u := g.heap[t].body.openupval[k]; u !in g.rootgc && forall x :: !OpenOn(g.heap, x, u)
    requires var u := g.heap[t].body.openupval[k]; u in g.heap && !g.heap[u].body.Str?
    requires var u := g.heap[t].body.openupval[k];
      || (g'.rootgc == g.rootgc && g'.sweepgc == g.sweepgc)
      || (Clean(g, u) && u in g'.heap && g'.rootgc == [u] + g.rootgc &&
          g'.sweepgc == if g.sweepgc == 0 then 0 else g.sweepgc + 1)
    ensures SweepOk(g')
    ensures t !in g.rootgc[..g.sweepgc] ==> t !in g'.rootgc[..g'.sweepgc]
  {
    var u := g.heap[t].body.openupval[k];
    assert forall x :: Clean(g, x) && x in g'.heap ==> Clean(g', x);
    forall x | x in g'.rootgc[..g'.sweepgc] ensures Clean(g', x) && (x != t || t in g.rootgc[..g.sweepgc]) {
      if x != u { assert x in g.rootgc[..g.sweepgc]; }
    }
    forall x, y | y in g'.rootgc[..g'.sweepgc] && OpenOn(g'.heap, x, y) ensures Clean(g', x) {
      assert OpenOn(g.heap, x, y);
      assert y in g.rootgc[..g.sweepgc];
    }
  }

  /** Facts about an upvalue in the list of a thread. */
  lemma ListedUpval(g: Global, t: Ref, k: nat)
    requires Shape(g) && IsThread(g.heap, t) && k < |g.heap[t].body.openupval|
    ensures var u := g.heap[t].body.openupval[k];
      OpenOn(g.heap, u, t) && u !in g.rootgc && forall x :: !OpenOn(g.heap, x, u)
  {
    var u := g.heap[t].body.openupval[k];
    assert OpenOn(g.heap, u, t);
    forall x ensures !OpenOn(g.heap, x, u) {
      assert OpenOn(g.heap, x, u) ==> IsThread(g.heap, u);
    }
  }

  lemma DropUpvalSweepOk(g: Global, t: Ref, k: nat)
    requires Shape(g) && SweepOk(g) && IsThread(g.heap, t)
    requires k < |g.heap[t].body.openupval| && Doomed(g, g.heap[t].body.openupval[k])
    ensures SweepOk(DropUpval(g, t, k)) && Todo(DropUpval(g, t, k)) < Todo(g)
  {
    var g' := DropUpval(g, t, k);
    DropUpvalSwept(g, t, k);
    hide Swept, Shape, SweepOk;
    ListedUpval(g, t, k);
    UpvalsLeft(g, g', t, k);
    UpvalLeavesSweepOk(g, g', t, k);
  }

  lemma UpvalsLeft(g: Global, g': Global, t: Ref, k: nat)
    requires Shape(g) && UpvalLeaves(g, g', t, k)
    ensures |Opens(g'.heap)| == |Opens(g.heap)| - 1
  {
    hide Swept;
    UpvalLeavesSwept(g, g', t, k);
  }

  lemma CloseFirstSweepOk(g: Global, t: Ref)
    requires Shape(g) && SweepOk(g) && IsThread(g.heap, t)
    requires g.heap[t].body.openupval != [] && Clean(g, g.heap[t].body.openupval[0])
    ensures IsOpen(g.heap[g.heap[t].body.openupval[0]].body)
    ensures SweepOk(CloseFirst(g, t)) && Todo(CloseFirst(g, t)) < Todo(g)
    ensures t !in g.rootgc[..g.sweepgc] ==> t !in CloseFirst(g, t).rootgc[..CloseFirst(g, t).sweepgc]
  {
    hide Swept, Shape, SweepOk, UpvalLeaves;
    CloseFirstSwept(g, t);
    var g' := CloseFirst(g, t);
    ListedUpval(g, t, 0);
    UpvalsLeft(g, g', t, 0);
    UpvalLeavesSweepOk(g, g', t, 0);
    hide Clean, Opens;
  }

  lemma DropObjectSweepOk(g: Global, i: nat)
    requires RootListOk(g) && SweepOk(g) && g.sweepgc <= i < |g.rootgc|
    ensures SweepOk(DropObject(g, i)) && Todo(DropObject(g, i)) < Todo(g)
  {
    var g' := DropObject(g, i);
    var r := g.rootgc[i];
    assert g'.rootgc[..g'.sweepgc] == g.rootgc[..g.sweepgc];
    assert r !in g.rootgc[..g.sweepgc];
    assert forall x, y :: OpenOn(g'.heap, x, y) ==> OpenOn(g.heap, x, y) && x != r;
    assert Opens(g'.heap) == Opens(g.heap);
  }

  lemma AdvanceSweepOk(g: Global)
    requires SweepOk(g) && g.sweepgc < |g.rootgc| && Clean(g, g.rootgc[g.sweepgc])
    requires forall u :: OpenOn(g.heap, u, g.rootgc[g.sweepgc]) ==> Clean(g, u)
    ensures SweepOk(g.(sweepgc := g.sweepgc + 1)) && Todo(g.(sweepgc := g.sweepgc + 1)) < Todo(g)
  {
    assert g.rootgc[..g.sweepgc + 1] == g.rootgc[..g.sweepgc] + [g.rootgc[g.sweepgc]];
  }

  /** The sweep of `rootgc` stands before thread `t`. */
  ghost predicate Before(g0: Global, g: Global, t: Ref) {
    Sweeping(g0, g) && SweepOk(g) && IsThread(g.heap, t) && t !in g.rootgc[..g.sweepgc]
  }

  /** The element at `k` is dropped, or kept and passed. */
  ghost predicate StepInList(us: seq<Ref>, k: nat, us': seq<Ref>, k': nat) {
    k < |us| && k <= |us'| && us'[..k] == us[..k] && |us'| - k' < |us| - k && k' <= |us'| && (k' == k || k' == k + 1)
  }

  /** Sweep the open upvalue at position `k` of the list of thread `t`. */
  method SweepUpvalAt(c: Collector, t: Ref, k: nat, ghost g0: Global) returns (k': nat)
    requires Before(g0, c.g, t) && k < |c.g.heap[t].body.openupval|
    modifies c
    ensures Before(g0, c.g, t) && c.g == old(c.g).(heap := c.g.heap)
    ensures c.g.heap[t] == old(c.g).heap[t].(body := c.g.heap[t].body)
    ensures Todo(c.g) <= Todo(old(c.g))
    ensures StepInList(old(c.g).heap[t].body.openupval, k, c.g.heap[t].body.openupval, k')
    ensures k' == k + 1 ==> Clean(c.g, c.g.heap[t].body.openupval[k])
    ensures forall r :: Clean(old(c.g), r) && r in c.g.heap[t].body.openupval[..k] ==> Clean(c.g, r)
  {
    hide Shape, Swept, SweepOk;
    var us := c.g.heap[t].body.openupval;
    var u := us[k];
    ListedUpval(c.g, t, k);
    if Doomed(c.g, u) {
      DropUpvalSwept(c.g, t, k);
      DropUpvalSweepOk(c.g, t, k);
      SweepingTrans(g0, c.g, DropUpval(c.g, t, k));
      DistinctUpvals(c.g, t, k);
      c.g := DropUpval(c.g, t, k);
      k' := k;
    } else {
      WhitenStep(g0, c.g, u);
      WhitenSweepOk(c.g, u);
      c.g := Whiten(c.g, u);
      k' := k + 1;
    }
  }

  lemma DistinctUpvals(g: Global, t: Ref, k: nat)
    requires Shape(g) && IsThread(g.heap, t) && k < |g.heap[t].body.openupval|
    ensures var us := g.heap[t].body.openupval; us[k] !in us[..k]
  {}

  /** Sweep the open upvalues of a thread before the thread itself (lgc.c:412-413). */
  method SweepUpvals(c: Collector, t: Ref, ghost g0: Global)
    requires Before(g0, c.g, t)
    modifies c
    ensures Before(g0, c.g, t) && c.g == old(c.g).(heap := c.g.heap)
    ensures c.g.heap[t] == old(c.g).heap[t].(body := c.g.heap[t].body)
    ensures Todo(c.g) <= Todo(old(c.g))
    ensures forall u :: u in c.g.heap[t].body.openupval ==> Clean(c.g, u)
  {
    hide Shape, Swept, SweepOk, Sweeping;
    ghost var g1 := c.g;
    var k := 0;
    while k < |c.g.heap[t].body.openupval|
      invariant Before(g0, c.g, t) && c.g == g1.(heap := c.g.heap)
      invariant c.g.heap[t] == g1.heap[t].(body := c.g.heap[t].body)
      invariant Todo(c.g) <= Todo(g1) && 0 <= k <= |c.g.heap[t].body.openupval|
      invariant forall u :: u in c.g.heap[t].body.openupval[..k] ==> Clean(c.g, u)
      decreases |c.g.heap[t].body.openupval| - k
    {
      ghost var s := c.g.heap[t].body.openupval[..k];
      k := SweepUpvalAt(c, t, k, g0);
      ghost var us := c.g.heap[t].body.openupval;
      assert us[..k] == s || us[..k] == s + [us[k - 1]];
    }
    assert c.g.heap[t].body.openupval[..k] == c.g.heap[t].body.openupval;
  }

  /** What luaE_freethread does first: close the upvalues that are still open on the thread at
      position `pos` of `rootgc`. */
  method CloseAll(c: Collector, pos: nat, ghost g0: Global) returns (pos': nat)
    requires pos < |c.g.rootgc| && c.g.sweepgc <= pos && Before(g0, c.g, c.g.rootgc[pos])
    requires Doomed(c.g, c.g.rootgc[pos])
    requires forall u :: u in c.g.heap[c.g.rootgc[pos]].body.openupval ==> Clean(c.g, u)
    modifies c
    ensures pos' < |c.g.rootgc| && c.g.sweepgc <= pos' && c.g.rootgc[pos'] == old(c.g.rootgc[pos])
    ensures Before(g0, c.g, c.g.rootgc[pos']) && Doomed(c.g, c.g.rootgc[pos'])
    ensures c.g.heap[c.g.rootgc[pos']].body.openupval == []
    ensures Todo(c.g) <= Todo(old(c.g)) && c.g.phase == old(c.g).phase && c.g.strt == old(c.g).strt
  {
    hide Shape, Swept, SweepOk, Sweeping;
    ghost var g1 := c.g;
    var t := c.g.rootgc[pos];
    pos' := pos;
    while c.g.heap[t].body.openupval != []
      invariant pos' < |c.g.rootgc| && c.g.sweepgc <= pos' && c.g.rootgc[pos'] == t
      invariant Before(g0, c.g, t) && Doomed(c.g, t)
      invariant forall u :: u in c.g.heap[t].body.openupval ==> Clean(c.g, u)
      invariant Todo(c.g) <= Todo(g1) && c.g.phase == g1.phase && c.g.strt == g1.strt
      decreases |c.g.heap[t].body.openupval|
    {
      CloseOne(c, t, g0);
      pos' := pos' + 1;
    }
  }

  method CloseOne(c: Collector, t: Ref, ghost g0: Global)
    requires Before(g0, c.g, t) && Doomed(c.g, t) && c.g.heap[t].body.openupval != []
    requires forall u :: u in c.g.heap[t].body.openupval ==> Clean(c.g, u)
    modifies c
    ensures Before(g0, c.g, t) && Todo(c.g) < Todo(old(c.g))
    ensures c.g.heap[t] == old(c.g).heap[t].(body := c.g.heap[t].body)
    ensures c.g.heap[t].body.openupval == old(c.g).heap[t].body.openupval[1..]
    ensures forall u :: u in c.g.heap[t].body.openupval ==> Clean(c.g, u)
    ensures c.g == old(c.g).(heap := c.g.heap, rootgc := c.g.rootgc, sweepgc := c.g.sweepgc)
    ensures c.g.rootgc == [old(c.g).heap[t].body.openupval[0]] + old(c.g).rootgc
    ensures c.g.sweepgc <= old(c.g).sweepgc + 1
  {
    hide Shape, Swept, SweepOk;
    assert c.g.heap[t].body.openupval[0] in c.g.heap[t].body.openupval;
    ListedUpval(c.g, t, 0);
    CloseFirstSwept(c.g, t);
    CloseFirstSweepOk(c.g, t);
    SweepingTrans(g0, c.g, CloseFirst(c.g, t));
    assert forall x :: Clean(c.g, x) ==> Clean(CloseFirst(c.g, t), x);
    c.g := CloseFirst(c.g, t);
  }

  /** One round of the loop of sweeplist over `rootgc` (lgc.c:411-426). */
  method SweepOne(c: Collector, ghost g0: Global)
    requires Sweeping(g0, c.g) && SweepOk(c.g) && c.g.sweepgc < |c.g.rootgc|
    modifies c
    ensures Sweeping(g0, c.g) && SweepOk(c.g) && Todo(c.g) < Todo(old(c.g))
    ensures c.g.phase == old(c.g).phase && c.g.strt == old(c.g).strt
  {
    hide Shape, Swept, SweepOk;
    ghost var g1 := c.g;
    var r := c.g.rootgc[c.g.sweepgc];
    RootAt(c.g, c.g.sweepgc);
    if c.g.heap[r].body.Thread? {
      SweepUpvals(c, r, g0);
    }
    if !Doomed(c.g, r) {
      WhitenStep(g0, c.g, r);
      WhitenSweepOk(c.g, r);
      OpenClean(c.g, r);
      c.g := Whiten(c.g, r);
      AdvanceSweepOk(c.g);
      Advance(g0, c.g);
      c.g := c.g.(sweepgc := c.g.sweepgc + 1);
    } else {
      var pos := c.g.sweepgc;
      if c.g.heap[r].body.Thread? {
        pos := CloseAll(c, pos, g0);
      }
      FreeAt(c, pos, g0);
    }
  }

  method FreeAt(c: Collector, pos: nat, ghost g0: Global)
    requires Sweeping(g0, c.g) && SweepOk(c.g) && c.g.sweepgc <= pos < |c.g.rootgc| && Doomed(c.g, c.g.rootgc[pos])
    requires c.g.heap[c.g.rootgc[pos]].body.Thread? ==> c.g.heap[c.g.rootgc[pos]].body.openupval == []
    modifies c
    ensures Sweeping(g0, c.g) && SweepOk(c.g) && Todo(c.g) < Todo(old(c.g))
    ensures c.g.phase == old(c.g).phase && c.g.strt == old(c.g).strt
  {
    DropObjectSweepOk(c.g, pos);
    hide Shape, Swept, SweepOk;
    DropObjectSwept(c.g, pos);
    SweepingTrans(g0, c.g, DropObject(c.g, pos));
    c.g := DropObject(c.g, pos);
  }

  lemma RootAt(g: Global, i: nat)
    requires Shape(g) && i < |g.rootgc|
    ensures g.rootgc[i] in g.heap && g.rootgc[i] !in g.rootgc[..i]
    ensures !g.heap[g.rootgc[i]].body.Thread? ==> forall u :: !OpenOn(g.heap, u, g.rootgc[i])
  {
    assert g.rootgc[i] in g.rootgc;
    forall u ensures !g.heap[g.rootgc[i]].body.Thread? ==> !OpenOn(g.heap, u, g.rootgc[i]) {
      assert OpenOn(g.heap, u, g.rootgc[i]) ==> IsThread(g.heap, g.rootgc[i]);
    }
  }

  lemma OpenClean(g: Global, t: Ref)
    requires Shape(g) && t in g.heap
    requires g.heap[t].body.Thread? ==> forall u :: u in g.heap[t].body.openupval ==> Clean(g, u)
    ensures forall u :: OpenOn(g.heap, u, t) ==> Clean(g, u)
    ensures forall u :: OpenOn(Whiten(g, t).heap, u, t) ==> Clean(Whiten(g, t), u)
  {
    forall u | OpenOn(g.heap, u, t) ensures Clean(g, u) && Clean(Whiten(g, t), u) {
      assert IsThread(g.heap, t);
    }
    assert forall u :: OpenOn(Whiten(g, t).heap, u, t) ==> OpenOn(g.heap, u, t);
  }

  lemma Advance(g0: Global, g: Global)
    requires Sweeping(g0, g)
    ensures Sweeping(g0, g.(sweepgc := g.sweepgc + 1))
  {}
}
