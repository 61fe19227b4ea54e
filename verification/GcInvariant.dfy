/** The invariant of the whole system: collector, mutator and every interleaving of them. */
module GcInvariant {
  import opened GcHeap
  import opened GcMark
  import opened GcCycle
  import opened GcAtomic
  import opened GcClear

  /** An object the current sweep will free. */
  predicate Doomed(g: Global, r: Ref) {
    r in g.heap && g.heap[r].color == Other(g.white) && !g.heap[r].fixed
  }

  /** `r` has the white that new objects get. */
  predicate Clean(g: Global, r: Ref) {
    r in g.heap && g.heap[r].color == g.white
  }

  /** The list a swept object hangs from: strings from their bucket, open upvalues from their
      thread, everything else from `rootgc`. */
  predicate InRootList(b: Body) { !b.Str? && !IsOpen(b) }

  ghost predicate RootListOk(g: Global) {
    && Distinct(g.rootgc)
    && (forall r :: r in g.rootgc ==> r in g.heap && InRootList(g.heap[r].body))
    && (forall r :: r in g.heap && InRootList(g.heap[r].body) ==> r in g.rootgc)
  }

  ghost predicate StringsOk(g: Global) {
    && |g.strt| > 0
    && (forall i :: 0 <= i < |g.strt| ==> Distinct(g.strt[i]))
    && (forall i, r :: 0 <= i < |g.strt| && r in g.strt[i] ==> r in g.heap && g.heap[r].body.Str?)
    && (forall r :: r in g.heap && g.heap[r].body.Str? ==> InSomeBucket(g.strt, r))
    && (forall i, j, r :: 0 <= i < j < |g.strt| && r in g.strt[i] ==> r !in g.strt[j])
  }

  predicate InSomeBucket(strt: seq<seq<Ref>>, r: Ref) {
    exists i :: 0 <= i < |strt| && r in strt[i]
  }

  predicate IsThread(h: Heap, t: Ref) { t in h && h[t].body.Thread? }

  /** `u` is an open upvalue of thread `t`. */
  predicate OpenOn(h: Heap, u: Ref, t: Ref) {
    u in h && IsOpen(h[u].body) && h[u].body.cell.thread == t
  }

  ghost predicate UpvalsOk(h: Heap) {
    && (forall u :: u in h && IsOpen(h[u].body) ==>
          var t := h[u].body.cell.thread;
          IsThread(h, t) && u in h[t].body.openupval && h[u].body.cell.slot < |h[t].body.stack|)
    && (forall t :: IsThread(h, t) ==> Distinct(h[t].body.openupval) && Descending(h, h[t].body.openupval))
    && (forall t, u :: IsThread(h, t) && u in h[t].body.openupval ==> OpenOn(h, u, t))
  }

  function Slot(h: Heap, u: Ref): int {
    if u in h && IsOpen(h[u].body) then h[u].body.cell.slot else -1
  }

  ghost predicate Descending(h: Heap, us: seq<Ref>) {
    forall i, j :: 0 <= i < j < |us| ==> Slot(h, us[i]) > Slot(h, us[j])
  }

  ghost predicate Shape(g: Global) {
    && IsWhite(g.white)
    && IsThread(g.heap, g.mainthread) && g.heap[g.mainthread].fixed
    && (forall r :: r in g.heap && g.heap[r].fixed ==> g.heap[r].body.Str? || r == g.mainthread)
    && (forall r :: r in g.heap && NeverBlack(g.heap[r].body) ==> g.heap[r].color != Black)
    && RootListOk(g) && StringsOk(g) && UpvalsOk(g.heap)
  }

  /** Nothing that may stay refers to anything that is gone or about to go. */
  ghost predicate NoDangling(g: Global) {
    && (forall r, q :: r in g.heap && !Doomed(g, r) && Edge(g.heap, r, q) ==> q in g.heap && !Doomed(g, q))
    && (forall v :: v in RootValues(g) && v.Obj? ==> v.ref in g.heap && !Doomed(g, v.ref))
  }

  ghost predicate AllClean(g: Global) {
    forall r :: r in g.heap ==> g.heap[r].color == g.white
  }

  ghost predicate PropagateOk(g: Global) {
    && Tri(g, {})
    && NonWhite(g.heap, g.mainthread)
    && (g.registry.Obj? ==> NonWhite(g.heap, g.registry.ref))
  }

  ghost predicate SweepStringOk(g: Global) {
    && g.sweepgc == 0 && g.sweepstr < |g.strt|
    && forall i, r :: 0 <= i < g.sweepstr && r in g.strt[i] ==> Clean(g, r)
  }

  /** Everything the sweep has passed is clean: the strings, the first part of `rootgc`,
      and the open upvalues of the threads there. */
  ghost predicate SweepOk(g: Global) {
    && g.sweepgc <= |g.rootgc|
    && (forall r :: r in g.heap && g.heap[r].body.Str? ==> Clean(g, r))
    && (forall r :: r in g.rootgc[..g.sweepgc] ==> Clean(g, r))
    && (forall u, t :: t in g.rootgc[..g.sweepgc] && OpenOn(g.heap, u, t) ==> Clean(g, u))
  }

  ghost predicate PhaseOk(g: Global) {
    match g.phase
    case Pause => AllClean(g)
    case Propagate => PropagateOk(g)
    case SweepString => SweepStringOk(g)
    case Sweep => SweepOk(g)
    case Finalize => AllClean(g)
  }

  ghost predicate Inv(g: Global) {
    Shape(g) && NoDangling(g) && PhaseOk(g)
  }

  // ----- reachability -----

  /** A path from a root along references of any strength. */
  ghost predicate Path(g: Global, p: Trail) {
    match p
    case Root(r) => Obj(r) in RootValues(g)
    case Step(q, r) => Path(g, q) && q.end in g.heap && Edge(g.heap, q.end, r)
  }

  ghost predicate Reachable(g: Global, r: Ref) {
    exists p :: Path(g, p) && p.end == r
  }

  /** Safety of a state: what the program can reach is allocated and will not be freed. */
  lemma {:induction false} PathSafe(g: Global, p: Trail)
    requires NoDangling(g) && Path(g, p)
    ensures p.end in g.heap && !Doomed(g, p.end)
  {
    match p
    case Root(r) =>
    case Step(q, r) => PathSafe(g, q);
  }

  lemma ReachableSafe(g: Global)
    requires NoDangling(g)
    ensures forall r :: Reachable(g, r) ==> r in g.heap && !Doomed(g, r)
  {
    forall r | Reachable(g, r) ensures r in g.heap && !Doomed(g, r) {
      var p :| Path(g, p) && p.end == r;
      PathSafe(g, p);
    }
  }
}
