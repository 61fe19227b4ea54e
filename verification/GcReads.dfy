/** What the operations of a run do, read off stack slots and fields: what a program reads after a write is what
    it wrote, and everything else is as it was. */
module GcReads {
  import opened GcHeap
  import opened GcMark
  import opened GcInvariant
  import opened GcSweep
  import opened GcRetain
  import opened GcBarrier
  import opened GcMutator
  import opened GcRun

  /** The stack of the main thread. */
  function Slots(g: Global): seq<Value>
    requires HasMain(g)
  {
    g.heap[g.mainthread].body.stack
  }

  /** Slot `i` holds the object `r`. */
  predicate Names(g: Global, i: nat, r: Ref)
    requires HasMain(g)
  {
    i < |Slots(g)| && Slots(g)[i] == Obj(r) && r in g.heap
  }

  /** The operand `th` of an operation is the thread `t`. */
  predicate NamesThread(g: Global, th: nat, t: Ref)
    requires HasMain(g)
  {
    if th == 0 then t == g.mainthread else Names(g, th - 1, t) && g.heap[t].body.Thread?
  }

  /** `r` has the body `b`, and neither another object nor a root has changed. */
  ghost predicate Became(g: Global, r: Ref, b: Body, g': Global) {
    && g'.heap.Keys == g.heap.Keys && r in g'.heap && g'.heap[r].body == b
    && (forall x :: x in g.heap && x != r ==> g'.heap[x].body == g.heap[x].body)
    && g'.mainthread == g.mainthread && g'.registry == g.registry && g'.mt == g.mt
  }

  /** `v` is on top of the main thread's stack. */
  ghost predicate OnTop(g: Global, v: Value, g': Global)
    requires HasMain(g)
  {
    Became(g, g.mainthread, g.heap[g.mainthread].body.(stack := Slots(g) + [v]), g')
  }

  lemma Written(g: Global, op: Op, r: Ref, b: Body, g': Global)
    requires HasMain(g) && Effect(g, op, g') && WriteOf(g, op).Write?
    requires WriteOf(g, op).target == r && WriteOf(g, op).body == b
    ensures Became(g, r, b, g')
  {
    assert WriteOf(g, op).Write? && Stored(g, g', r, b);
    hide WriteOf, Effect;
  }

  lemma PushMeans(g: Global, g': Global, k: nat)
    requires HasMain(g)
    ensures Effect(g, PushNil, g') ==> OnTop(g, Nil, g')
    ensures Effect(g, PushPrim, g') ==> OnTop(g, Prim, g')
    ensures Effect(g, PushRegistry, g') ==> OnTop(g, g.registry, g')
    ensures Effect(g, PushMetatable(k), g') && k < |g.mt| ==> OnTop(g, g.mt[k], g')
  {
    var t := g.mainthread;
    var b := g.heap[t].body;
    hide Effect, Became;
    if Effect(g, PushNil, g') { Written(g, PushNil, t, b.(stack := Slots(g) + [Nil]), g'); }
    if Effect(g, PushPrim, g') { Written(g, PushPrim, t, b.(stack := Slots(g) + [Prim]), g'); }
    if Effect(g, PushRegistry, g') { Written(g, PushRegistry, t, b.(stack := Slots(g) + [g.registry]), g'); }
    if Effect(g, PushMetatable(k), g') && k < |g.mt| {
      Written(g, PushMetatable(k), t, b.(stack := Slots(g) + [g.mt[k]]), g');
    }
  }

  lemma CopyMeans(g: Global, g': Global, th: nat, t: Ref, j: nat)
    requires HasMain(g) && NamesThread(g, th, t) && j < |Slots(g)| && Effect(g, PushCopy(th, j), g')
    ensures Became(g, t, g.heap[t].body.(stack := g.heap[t].body.stack + [Slots(g)[j]]), g')
  {
    hide Effect, Became;
    Written(g, PushCopy(th, j), t, g.heap[t].body.(stack := g.heap[t].body.stack + [Slots(g)[j]]), g');
  }

  lemma OverwriteMeans(g: Global, g': Global, th: nat, t: Ref, k: nat, j: nat)
    requires HasMain(g) && NamesThread(g, th, t) && j < |Slots(g)|
    requires k < |g.heap[t].body.stack| && Effect(g, Overwrite(th, k, j), g')
    ensures Became(g, t, g.heap[t].body.(stack := g.heap[t].body.stack[k := Slots(g)[j]]), g')
  {
    hide Effect, Became;
    Written(g, Overwrite(th, k, j), t, g.heap[t].body.(stack := g.heap[t].body.stack[k := Slots(g)[j]]), g');
  }

  lemma GlobalsMean(g: Global, g': Global, th: nat, t: Ref, j: nat)
    requires HasMain(g) && NamesThread(g, th, t) && j < |Slots(g)| && Effect(g, SetGlobals(th, j), g')
    ensures Became(g, t, g.heap[t].body.(gt := Slots(g)[j]), g')
  {
    hide Effect, Became;
    Written(g, SetGlobals(th, j), t, g.heap[t].body.(gt := Slots(g)[j]), g');
  }

  lemma FieldMeans(g: Global, g': Global, i: nat, r: Ref, k: nat, j: nat)
    requires HasMain(g) && Names(g, i, r) && j < |Slots(g)|
    requires g.heap[r].body.Block? && k < |g.heap[r].body.fields| && Effect(g, SetField(i, k, j), g')
    ensures Became(g, r, g.heap[r].body.(fields := g.heap[r].body.fields[k := Slots(g)[j]]), g')
  {
    hide Effect, Became;
    Written(g, SetField(i, k, j), r, g.heap[r].body.(fields := g.heap[r].body.fields[k := Slots(g)[j]]), g');
  }

  lemma UpvalueMeans(g: Global, g': Global, i: nat, r: Ref, j: nat)
    requires HasMain(g) && Names(g, i, r) && j < |Slots(g)|
    requires g.heap[r].body.UpVal? && g.heap[r].body.cell.Closed? && Effect(g, SetUpvalue(i, j), g')
    ensures Became(g, r, UpVal(Closed(Slots(g)[j])), g')
  {
    hide Effect, Became;
    Written(g, SetUpvalue(i, j), r, UpVal(Closed(Slots(g)[j])), g');
  }

  lemma ElementMeans(g: Global, g': Global, i: nat, r: Ref, k: nat, j: nat)
    requires HasMain(g) && Names(g, i, r) && j < |Slots(g)|
    requires g.heap[r].body.Table? && k < |g.heap[r].body.arr| && Effect(g, SetArray(i, k, j), g')
    ensures Became(g, r, g.heap[r].body.(arr := g.heap[r].body.arr[k := Slots(g)[j]]), g')
  {
    hide Effect, Became;
    Written(g, SetArray(i, k, j), r, g.heap[r].body.(arr := g.heap[r].body.arr[k := Slots(g)[j]]), g');
  }

  /** Storing under a key that the node has. */
  lemma EntryMeans(g: Global, g': Global, i: nat, r: Ref, k: nat, key: nat, j: nat)
    requires HasMain(g) && Names(g, i, r) && j < |Slots(g)| && key < |Slots(g)|
    requires g.heap[r].body.Table? && k < |g.heap[r].body.nodes| && g.heap[r].body.nodes[k].key == Slots(g)[key]
    requires Effect(g, SetEntry(i, k, key, j), g')
    ensures var ns := g.heap[r].body.nodes;
      Became(g, r, g.heap[r].body.(nodes := ns[k := Node(ns[k].key, Slots(g)[j])]), g')
  {
    hide Effect, Became;
    var ns := g.heap[r].body.nodes;
    Written(g, SetEntry(i, k, key, j), r, g.heap[r].body.(nodes := ns[k := Node(ns[k].key, Slots(g)[j])]), g');
  }

  /** Giving a node without a value a key. */
  lemma KeyMeans(g: Global, g': Global, i: nat, r: Ref, k: nat, j: nat)
    requires HasMain(g) && Names(g, i, r) && j < |Slots(g)|
    requires g.heap[r].body.Table? && k < |g.heap[r].body.nodes| && g.heap[r].body.nodes[k].val == Nil
    requires Effect(g, SetKey(i, k, j), g')
    ensures var ns := g.heap[r].body.nodes;
      Became(g, r, g.heap[r].body.(nodes := ns[k := Node(Slots(g)[j], Nil)]), g')
  {
    hide Effect, Became;
    var ns := g.heap[r].body.nodes;
    Written(g, SetKey(i, k, j), r, g.heap[r].body.(nodes := ns[k := Node(Slots(g)[j], Nil)]), g');
  }

  lemma MetatableMeans(g: Global, g': Global, i: nat, r: Ref, j: nat, mode: Weakness)
    requires HasMain(g) && Names(g, i, r) && j < |Slots(g)| && g.heap[r].body.Table?
    ensures Effect(g, SetMetatable(i, j), g') ==> Became(g, r, g.heap[r].body.(metatable := Slots(g)[j]), g')
    ensures Effect(g, SetMode(i, mode), g') ==> Became(g, r, g.heap[r].body.(mode := mode), g')
  {
    hide Effect, Became;
    var b := g.heap[r].body;
    if Effect(g, SetMetatable(i, j), g') { Written(g, SetMetatable(i, j), r, b.(metatable := Slots(g)[j]), g'); }
    if Effect(g, SetMode(i, mode), g') { Written(g, SetMode(i, mode), r, b.(mode := mode), g'); }
  }

  /** `v` is no object, or one that a field of `r` holds. */
  predicate ReadFrom(g: Global, r: Ref, v: Value)
    requires r in g.heap
  {
    v.Obj? ==> FieldRefers(g.heap, g.heap[r].body, true, true, v.ref)
  }

  /** Reading a field gives a value the object holds, and every reference it holds can be read. */
  lemma PartMeans(g: Global, g': Global, i: nat, r: Ref, k: nat)
    requires HasMain(g) && Names(g, i, r) && Effect(g, PushPart(i, k), g')
    ensures g' == g || exists v :: ReadFrom(g, r, v) && OnTop(g, v, g')
  {
    var vs := Contents(g.heap, g.heap[r].body, STRONG);
    if k < |vs| {
      assert OnTop(g, vs[k], g') by {
        hide Effect, Contents, Became;
        Written(g, PushPart(i, k), g.mainthread, g.heap[g.mainthread].body.(stack := Slots(g) + [vs[k]]), g');
      }
      if vs[k].Obj? {
        assert Edge(g.heap, r, vs[k].ref);
        EdgeMeans(g.heap, r, vs[k].ref);
      }
      assert ReadFrom(g, r, vs[k]);
    }
  }

  lemma PartReadable(g: Global, i: nat, r: Ref, q: Ref) returns (k: nat)
    requires HasMain(g) && Names(g, i, r) && FieldRefers(g.heap, g.heap[r].body, true, true, q)
    ensures forall g' :: Effect(g, PushPart(i, k), g') ==> OnTop(g, Obj(q), g')
  {
    EdgeMeans(g.heap, r, q);
    var vs := Contents(g.heap, g.heap[r].body, STRONG);
    k :| 0 <= k < |vs| && vs[k] == Obj(q);
    forall g' | Effect(g, PushPart(i, k), g') ensures OnTop(g, Obj(q), g') {
      hide Effect, Contents, Became;
      Written(g, PushPart(i, k), g.mainthread, g.heap[g.mainthread].body.(stack := Slots(g) + [vs[k]]), g');
    }
  }

  /** `r` is a new object of body `b` on top of the stack, and nothing else has changed. */
  ghost predicate Created(g: Global, r: Ref, b: Body, g': Global)
    requires HasMain(g)
  {
    && g'.heap.Keys == g.heap.Keys + {r} && g'.heap[r].body == b
    && !g'.heap[r].fixed && g'.heap[r].weak == Weakness(false, false)
    && g'.heap[g.mainthread].body == g.heap[g.mainthread].body.(stack := Slots(g) + [Obj(r)])
    && (forall x :: x in g.heap && x != g.mainthread ==> g'.heap[x].body == g.heap[x].body)
    && g'.mainthread == g.mainthread && g'.registry == g.registry && g'.mt == g.mt
  }

  lemma PushedCreated(g: Global, r: Ref, b: Body, g1: Global, g': Global)
    requires HasMain(g) && r !in g.heap && g1.heap.Keys == g.heap.Keys + {r}
    requires g1.heap[r].body == b && !g1.heap[r].fixed && g1.heap[r].weak == Weakness(false, false)
    requires forall x :: x in g.heap ==> g1.heap[x] == g.heap[x]
    requires g1.mainthread == g.mainthread && g1.registry == g.registry && g1.mt == g.mt && Pushed(g1, g', Obj(r))
    ensures Created(g, r, b, g')
  {}

  lemma BlockMeans(g: Global, g': Global, kind: BlockKind, slots: seq<nat>, at: Ref)
    requires HasMain(g) && at !in g.heap && Effect(g, NewBlock(kind, slots, at), g')
    requires forall i :: 0 <= i < |slots| ==> slots[i] < |Slots(g)|
    ensures Created(g, at, Block(kind, seq(|slots|,
      i requires 0 <= i < |slots| && HasMain(g) && slots[i] < |Slots(g)| => Slots(g)[slots[i]])), g')
  {
    var b := NewBody(g, NewBlock(kind, slots, at));
    assert b.fields == seq(|slots|,
      i requires 0 <= i < |slots| && HasMain(g) && slots[i] < |Slots(g)| => Slots(g)[slots[i]]);
    hide NewBody;
    PushedCreated(g, at, b, Allocated(g, at, b), g');
  }

  /** The state before a new object is put on the stack. */
  lemma NewPushed(g: Global, op: Op, g': Global)
    requires HasMain(g) && (op.NewBlock? || op.NewTable? || op.NewThread?) && op.at !in g.heap && Effect(g, op, g')
    ensures Pushed(Allocated(g, op.at, NewBody(g, op)), g', Obj(op.at))
  {}

  lemma AllocatedCreated(g: Global, at: Ref, b: Body, g': Global)
    requires HasMain(g) && at !in g.heap && Pushed(Allocated(g, at, b), g', Obj(at))
    ensures Created(g, at, b, g')
  {
    PushedCreated(g, at, b, Allocated(g, at, b), g');
    hide Pushed;
  }

  lemma TableMeans(g: Global, g': Global, narr: nat, nnode: nat, at: Ref)
    requires HasMain(g) && at !in g.heap
    ensures Effect(g, NewTable(narr, nnode, at), g') ==>
      Created(g, at, Table(Nil, Weakness(false, false), seq(narr, _ => Nil), seq(nnode, _ => Node(Nil, Nil))), g')
    ensures Effect(g, NewThread(at), g') ==> Created(g, at, Thread(g.heap[g.mainthread].body.gt, [], []), g')
  {
    hide Effect, Created, Pushed, Allocated;
    if Effect(g, NewTable(narr, nnode, at), g') {
      NewPushed(g, NewTable(narr, nnode, at), g');
      AllocatedCreated(g, at, NewBody(g, NewTable(narr, nnode, at)), g');
    }
    if Effect(g, NewThread(at), g') {
      NewPushed(g, NewThread(at), g');
      AllocatedCreated(g, at, NewBody(g, NewThread(at)), g');
    }
  }

  lemma StringMeans(g: Global, g': Global, bucket: nat, k: nat, at: Ref)
    requires HasMain(g) && bucket < |g.strt|
    ensures at !in g.heap && Effect(g, NewString(bucket, at), g') ==> Created(g, at, Str, g')
    ensures k < |g.strt[bucket]| && g.strt[bucket][k] in g.heap && Effect(g, FindString(bucket, k), g') ==>
      OnTop(g, Obj(g.strt[bucket][k]), g')
  {
    if at !in g.heap && Effect(g, NewString(bucket, at), g') { NewStringMeans(g, g', bucket, at); }
    if k < |g.strt[bucket]| && g.strt[bucket][k] in g.heap && Effect(g, FindString(bucket, k), g') {
      FoundStringMeans(g, g', bucket, k);
    }
    hide Effect, Created, OnTop;
  }

  lemma NewStringMeans(g: Global, g': Global, bucket: nat, at: Ref)
    requires HasMain(g) && bucket < |g.strt| && at !in g.heap && Effect(g, NewString(bucket, at), g')
    ensures Created(g, at, Str, g')
  {
    assert Pushed(Interned(g, bucket, at), g', Obj(at));
    hide Effect;
    PushedCreated(g, at, Str, Interned(g, bucket, at), g');
    hide Pushed, Created;
  }

  lemma FoundStringMeans(g: Global, g': Global, bucket: nat, k: nat)
    requires HasMain(g) && bucket < |g.strt| && k < |g.strt[bucket]| && g.strt[bucket][k] in g.heap
    requires Effect(g, FindString(bucket, k), g')
    ensures OnTop(g, Obj(g.strt[bucket][k]), g')
  {
    assert StringPushed(g, FindString(bucket, k), g');
    hide Effect;
  }

  /** The upvalue `u` is open on the slot and on top of the stack; nothing else the program reads has changed. */
  ghost predicate Captured(g: Global, t: Ref, slot: nat, u: Ref, g': Global)
    requires HasMain(g) && IsThread(g.heap, t)
  {
    && u in g'.heap && g'.heap[u].body == UpVal(Open(t, slot))
    && IsThread(g'.heap, g.mainthread) && g'.heap[g.mainthread].body.stack == Slots(g) + [Obj(u)]
    && IsThread(g'.heap, t) && (t != g.mainthread ==> g'.heap[t].body.stack == g.heap[t].body.stack)
    && forall x :: x in g.heap && x != t && x != g.mainthread ==> x in g'.heap && g'.heap[x].body == g.heap[x].body
  }

  /** There is one upvalue for a slot: the one open on it, or a new one if there is none. */
  lemma CaptureMeans(g: Global, g': Global, th: nat, t: Ref, slot: nat, at: Ref)
    requires HasMain(g) && NamesThread(g, th, t) && UpvalsOk(g.heap)
    requires slot < |g.heap[t].body.stack| && at !in g.heap && Effect(g, Capture(th, slot, at), g')
    ensures exists u ::
      && Captured(g, t, slot, u, g') && (u in g.heap || u == at)
      && forall x :: OpenOn(g.heap, x, t) && g.heap[x].body.cell.slot == slot ==> u == x
  {
    CaptureEffect(g, th, slot, at, g');
    assert ArgThread(g, th) == t;
    hide Effect, UpvalsOk, FoundUpval, Pushed, ArgThread;
    var u, g1 :| FoundUpval(g, t, slot, at, g1, u) && IsOpenOn(g1, u, t, slot) && Pushed(g1, g', Obj(u));
    FoundKeeps(g, t, slot, at, g1, u);
    forall x | OpenOn(g.heap, x, t) && g.heap[x].body.cell.slot == slot ensures u == x {
      OneOpen(g, t, slot, at, g1, u, x);
    }
    PushedCaptured(g, t, slot, u, g1, g');
  }

  lemma PushedCaptured(g: Global, t: Ref, slot: nat, u: Ref, g1: Global, g': Global)
    requires HasMain(g) && IsThread(g.heap, t) && IsThread(g1.heap, t) && g1.mainthread == g.mainthread
    requires g1.heap[t].body.stack == g.heap[t].body.stack
    requires forall x :: x in g.heap && x != t ==> x in g1.heap && g1.heap[x].body == g.heap[x].body
    requires IsOpenOn(g1, u, t, slot) && Pushed(g1, g', Obj(u))
    ensures Captured(g, t, slot, u, g')
  {}

  lemma CaptureEffect(g: Global, th: nat, slot: nat, at: Ref, g': Global)
    requires HasMain(g) && Effect(g, Capture(th, slot, at), g')
    ensures CapturePushed(g, ArgThread(g, th), slot, at, g')
  {}

  lemma FoundKeeps(g: Global, t: Ref, slot: nat, at: Ref, g1: Global, u: Ref)
    requires UpvalsOk(g.heap) && IsThread(g.heap, t) && FoundUpval(g, t, slot, at, g1, u) && at !in g.heap
    ensures u in g.heap || u == at
    ensures g1.mainthread == g.mainthread
    ensures IsThread(g1.heap, t) && g1.heap[t].body.stack == g.heap[t].body.stack
    ensures forall x :: x in g.heap && x != t ==> x in g1.heap && g1.heap[x].body == g.heap[x].body
  {
    hide UpvalsOk;
    var us := g.heap[t].body.openupval;
    if u !in us {
      var k: nat :| k <= |us| && g1 == OpenedAt(g, t, k, slot, at);
      OpenedFacts(g, t, k, slot, at);
    }
  }

  lemma OneOpen(g: Global, t: Ref, slot: nat, at: Ref, g1: Global, u: Ref, x: Ref)
    requires UpvalsOk(g.heap) && IsThread(g.heap, t) && FoundUpval(g, t, slot, at, g1, u)
    requires OpenOn(g.heap, x, t) && g.heap[x].body.cell.slot == slot
    ensures u == x
  {
    var us := g.heap[t].body.openupval;
    assert x in us && Slot(g.heap, x) == slot;
    var i :| 0 <= i < |us| && us[i] == x;
    assert u in us;
    var j :| 0 <= j < |us| && us[j] == u;
    assert Slot(g.heap, us[i]) == Slot(g.heap, us[j]);
  }
}
