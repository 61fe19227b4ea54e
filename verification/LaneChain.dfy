/** Free-running lanes (lanes.c:938-1012, 1320-1358, 1514-1559): a chain of lane records shared by the lanes
    themselves, the finalizers of their handles, and process exit. A step is a critical section or one access to a
    record outside of them. */
module LaneChain {

  type Id = nat

  /** selfdestruct_next: NULL off the chain, SELFDESTRUCT_END for the last lane. */
  datatype Ptr = Null | End | To(id: Id)

  /** Where a lane's own thread is: at work; having read selfdestruct_next as not NULL; off the chain and about to
      free the record; having read it as NULL; having set the status and about to signal and to unlock; through. */
  datatype LanePc = Working | FreeRunning | Detached | Leaving | Signalling | Ended

  /** Where the finalizer of the handle is: not called yet; having read the status as not done, or as done; having
      added the lane to the chain and about to read its link in the assert; through. */
  datatype GcPc = Waiting | Adding | Freeing | Asserting | Collected

  datatype Lane = Lane(next: Ptr, done: bool, cancel: bool, pc: LanePc, gc: GcPc)

  datatype World = World(first: Ptr, lanes: map<Id, Lane>, alloc: set<Id>, frees: seq<Id>)

  // ----- the chain -----

  ghost predicate Distinct(xs: seq<Id>) { forall i, j :: 0 <= i < j < |xs| ==> xs[i] != xs[j] }

  /** What points to position `i` of the chain. */
  ghost function PtrTo(chain: seq<Id>, i: nat): Ptr { if i < |chain| then To(chain[i]) else End }

  /** The lane at position `i` leads to the next one. */
  ghost predicate LinkedAt(lanes: map<Id, Lane>, chain: seq<Id>, i: nat) {
    i < |chain| && chain[i] in lanes && lanes[chain[i]].next == PtrTo(chain, i + 1)
  }

  /** Following `next` from `p` visits exactly `chain`, each lane once, and ends at SELFDESTRUCT_END. */
  ghost predicate IsChain(lanes: map<Id, Lane>, p: Ptr, chain: seq<Id>) {
    Distinct(chain) && p == PtrTo(chain, 0) && forall i :: 0 <= i < |chain| ==> LinkedAt(lanes, chain, i)
  }

  lemma ChainFrame(lanes: map<Id, Lane>, lanes': map<Id, Lane>, p: Ptr, chain: seq<Id>)
    requires IsChain(lanes, p, chain) && forall s :: s in chain && s in lanes ==>
      s in lanes' && lanes'[s].next == lanes[s].next
    ensures IsChain(lanes', p, chain)
  {
    forall i | 0 <= i < |chain| ensures LinkedAt(lanes', chain, i) { assert LinkedAt(lanes, chain, i); }
  }

  // ----- the invariant -----

  predicate Past(gc: GcPc) { gc == Asserting || gc == Collected }

  ghost predicate LaneOk(w: World, s: Id, l: Lane) {
    && (l.next != Null ==> Past(l.gc))
    && (Past(l.gc) ==> (l.next == Null <==> l.pc == Detached || s in w.frees))
    && (l.done ==> l.pc == Signalling || l.pc == Ended) && (l.pc == Signalling ==> l.done)
    && (l.pc == FreeRunning ==> l.next != Null)
    && (l.pc == Detached ==> Past(l.gc) && s !in w.frees)
    && (l.pc == Ended && !l.done ==> s in w.frees)
    && (l.gc == Freeing ==> l.done && s !in w.frees)
    && (s in w.frees ==> Past(l.gc) && (l.pc == Signalling || l.pc == Ended) && (l.done ==> l.gc == Collected))
  }

  ghost predicate LanesOk(w: World) { forall s :: s in w.lanes ==> LaneOk(w, s, w.lanes[s]) }

  /** The chain is acyclic and ends; a lane's next is not NULL exactly when it is on it; lanes on it are
      allocated; no lane has been freed twice. */
  ghost predicate Inv(w: World, chain: seq<Id>) {
    && IsChain(w.lanes, w.first, chain)
    && (forall s :: s in w.lanes ==> (w.lanes[s].next != Null <==> s in chain))
    && (forall s :: s in chain ==> s in w.alloc)
    && Distinct(w.frees)
    && (forall s :: s in w.alloc <==> s in w.lanes && s !in w.frees)
    && (forall s :: s in w.frees ==> s in w.lanes)
    && LanesOk(w)
  }

  // ----- critical sections -----

  function Update(w: World, s: Id, l: Lane): World { w.(lanes := w.lanes[s := l]) }

  function Added(w: World, s: Id): World
    requires s in w.lanes
  {
    w.(lanes := w.lanes[s := w.lanes[s].(next := w.first)], first := To(s))
  }

  lemma AddedChain(w: World, chain: seq<Id>, s: Id)
    requires IsChain(w.lanes, w.first, chain) && s in w.lanes && s !in chain
    ensures IsChain(Added(w, s).lanes, To(s), [s] + chain)
  {
    var lanes, chain' := Added(w, s).lanes, [s] + chain;
    forall i | 0 <= i < |chain'| ensures LinkedAt(lanes, chain', i) {
      assert i > 0 ==> LinkedAt(w.lanes, chain, i - 1);
    }
  }

  ghost function Without(chain: seq<Id>, k: nat): seq<Id>
    requires k < |chain|
  {
    chain[..k] + chain[k + 1..]
  }

  /** The world with lane `s` taken off the chain, where `ref` is the lane before it, if any. */
  function Unlinked(w: World, s: Id, ref: Ptr): World
    requires s in w.lanes && (ref.To? ==> ref.id in w.lanes)
  {
    var lanes := w.lanes[s := w.lanes[s].(next := Null)];
    if ref.To? then w.(lanes := lanes[ref.id := w.lanes[ref.id].(next := w.lanes[s].next)])
    else w.(first := w.lanes[s].next, lanes := lanes)
  }

  lemma UnlinkedChain(w: World, chain: seq<Id>, k: nat, ref: Ptr)
    requires IsChain(w.lanes, w.first, chain) && k < |chain| && ref == if k == 0 then Null else To(chain[k - 1])
    ensures chain[k] in w.lanes && (ref.To? ==> ref.id in w.lanes)
    ensures var w' := Unlinked(w, chain[k], ref); IsChain(w'.lanes, w'.first, Without(chain, k))
  {
    assert LinkedAt(w.lanes, chain, k) && (k > 0 ==> LinkedAt(w.lanes, chain, k - 1));
    var w', chain' := Unlinked(w, chain[k], ref), Without(chain, k);
    forall i | 0 <= i < |chain'| ensures LinkedAt(w'.lanes, chain', i) {
      var i0 := if i < k then i else i + 1;
      assert LinkedAt(w.lanes, chain, i0) && chain'[i] == chain[i0];
    }
  }

  const NEW_LANE := Lane(Null, false, false, Working, Waiting)

  function Created(w: World, s: Id): World { Update(w, s, NEW_LANE).(alloc := w.alloc + {s}) }

  function Freed(w: World, s: Id, l: Lane): World { Update(w, s, l).(alloc := w.alloc - {s}, frees := w.frees + [s]) }

  /** Every lane on the chain has been asked to cancel. */
  function Signalled(w: World, chain: seq<Id>): World {
    w.(lanes := map s | s in w.lanes :: if s in chain then w.lanes[s].(cancel := true) else w.lanes[s])
  }

  // ----- the invariant is kept -----

  lemma LanesOkExcept(w: World, w': World, s: Id)
    requires LanesOk(w) && s in w'.lanes && LaneOk(w', s, w'.lanes[s])
    requires forall t :: t in w'.lanes && t != s ==>
      t in w.lanes && w'.lanes[t].(next := Null) == w.lanes[t].(next := Null)
    requires forall t :: t in w'.lanes && t != s ==> (w'.lanes[t].next == Null <==> w.lanes[t].next == Null)
    requires forall t :: t in w'.lanes && t != s ==> (t in w'.frees <==> t in w.frees)
    ensures LanesOk(w')
  {
    forall t | t in w'.lanes ensures LaneOk(w', t, w'.lanes[t]) { assert t != s ==> LaneOk(w, t, w.lanes[t]); }
  }

  /** A step that leaves all links alone. */
  lemma LocalStep(w: World, chain: seq<Id>, s: Id, l: Lane)
    requires Inv(w, chain) && s in w.lanes && l.next == w.lanes[s].next && LaneOk(w, s, l)
    ensures Inv(Update(w, s, l), chain)
  {
    ChainFrame(w.lanes, Update(w, s, l).lanes, w.first, chain);
    LanesOkExcept(w, Update(w, s, l), s);
  }

  function AddedTo(w: World, s: Id): World
    requires s in w.lanes
  {
    Update(Added(w, s), s, Added(w, s).lanes[s].(gc := Asserting))
  }

  lemma AddStep(w: World, chain: seq<Id>, s: Id)
    requires Inv(w, chain) && s in w.lanes && w.lanes[s].gc == Adding
    ensures Inv(AddedTo(w, s), [s] + chain)
  {
    var w' := AddedTo(w, s);
    assert LaneOk(w, s, w.lanes[s]);
    AddedChain(w, chain, s);
    ChainFrame(Added(w, s).lanes, w'.lanes, To(s), [s] + chain);
    assert w.first != Null;
    LanesOkExcept(w, w', s);
    assert forall t :: t in [s] + chain <==> t == s || t in chain;
  }

  /** The world after the `k`-th lane of the chain has left it. */
  function RemovedFrom(w: World, s: Id, ref: Ptr): World
    requires s in w.lanes && (ref.To? ==> ref.id in w.lanes)
  {
    var w1 := Unlinked(w, s, ref);
    Update(w1, s, w1.lanes[s].(pc := Detached))
  }

  function RefTo(chain: seq<Id>, k: nat): Ptr
    requires k < |chain|
  {
    if k == 0 then Null else To(chain[k - 1])
  }

  lemma RemoveStep(w: World, chain: seq<Id>, k: nat)
    requires Inv(w, chain) && k < |chain| && chain[k] in w.lanes && w.lanes[chain[k]].pc == FreeRunning
    ensures RefTo(chain, k).To? ==> RefTo(chain, k).id in w.lanes
    ensures Inv(RemovedFrom(w, chain[k], RefTo(chain, k)), Without(chain, k))
  {
    var s, ref := chain[k], RefTo(chain, k);
    UnlinkedChain(w, chain, k, ref);
    assert LaneOk(w, s, w.lanes[s]) && (k > 0 ==> LaneOk(w, chain[k - 1], w.lanes[chain[k - 1]]));
    RemovedChain(w, chain, k);
    OffChain(chain, k);
    RemovedLanes(w, chain, k);
    RemovedSame(w, chain, k);
    hide IsChain, LanesOk, Without, RemovedFrom, Distinct;
  }

  lemma RemovedChain(w: World, chain: seq<Id>, k: nat)
    requires IsChain(w.lanes, w.first, chain) && k < |chain|
    ensures chain[k] in w.lanes && (RefTo(chain, k).To? ==> RefTo(chain, k).id in w.lanes)
    ensures var w' := RemovedFrom(w, chain[k], RefTo(chain, k)); IsChain(w'.lanes, w'.first, Without(chain, k))
  {
    var ref := RefTo(chain, k);
    UnlinkedChain(w, chain, k, ref);
    hide IsChain;
    ChainFrame(Unlinked(w, chain[k], ref).lanes, RemovedFrom(w, chain[k], ref).lanes, Unlinked(w, chain[k], ref).first,
               Without(chain, k));
  }

  /** Which links the removal changes. */
  lemma RemovedSame(w: World, chain: seq<Id>, k: nat)
    requires IsChain(w.lanes, w.first, chain) && k < |chain|
    requires chain[k] in w.lanes && (RefTo(chain, k).To? ==> RefTo(chain, k).id in w.lanes)
    ensures var w' := RemovedFrom(w, chain[k], RefTo(chain, k));
      && w'.lanes.Keys == w.lanes.Keys && w'.alloc == w.alloc && w'.frees == w.frees
      && w'.lanes[chain[k]] == w.lanes[chain[k]].(next := Null, pc := Detached)
      && forall t :: t in w.lanes && t != chain[k] ==>
        && w'.lanes[t].(next := Null) == w.lanes[t].(next := Null)
        && (w'.lanes[t].next == Null <==> w.lanes[t].next == Null)
  {
    assert LinkedAt(w.lanes, chain, k) && (k > 0 ==> LinkedAt(w.lanes, chain, k - 1));
    assert k > 0 ==> chain[k - 1] != chain[k];
  }

  lemma RemovedLanes(w: World, chain: seq<Id>, k: nat)
    requires Inv(w, chain) && k < |chain| && chain[k] in w.lanes && w.lanes[chain[k]].pc == FreeRunning
    requires RefTo(chain, k).To? ==> RefTo(chain, k).id in w.lanes
    ensures LanesOk(RemovedFrom(w, chain[k], RefTo(chain, k)))
  {
    RemovedSame(w, chain, k);
    assert LaneOk(w, chain[k], w.lanes[chain[k]]);
    hide Inv, RemovedFrom, IsChain;
    LanesOkExcept(w, RemovedFrom(w, chain[k], RefTo(chain, k)), chain[k]);
  }

  lemma OffChain(chain: seq<Id>, k: nat)
    requires k < |chain| && Distinct(chain)
    ensures forall t :: t in Without(chain, k) <==> t in chain && t != chain[k]
  {
    var chain' := Without(chain, k);
    forall t | t in chain && t != chain[k] ensures t in chain' {
      var i :| 0 <= i < |chain| && chain[i] == t;
      assert chain'[if i < k then i else i - 1] == t;
    }
    forall t | t in chain' ensures t in chain && t != chain[k] {
      var i :| 0 <= i < |chain'| && chain'[i] == t;
      assert chain[if i < k then i else i + 1] == t;
    }
  }

  lemma FreeStep(w: World, chain: seq<Id>, s: Id, l: Lane)
    requires Inv(w, chain) && s in w.lanes && s !in w.frees && w.lanes[s].next == Null
    requires l.next == Null && LaneOk(Freed(w, s, l), s, l)
    ensures Inv(Freed(w, s, l), chain)
  {
    ChainFrame(w.lanes, Freed(w, s, l).lanes, w.first, chain);
    LanesOkExcept(w, Freed(w, s, l), s);
  }

  lemma CreateStep(w: World, chain: seq<Id>, s: Id)
    requires Inv(w, chain) && s !in w.lanes
    ensures Inv(Created(w, s), chain)
  {
    ChainFrame(w.lanes, Created(w, s).lanes, w.first, chain);
    LanesOkExcept(w, Created(w, s), s);
  }

  lemma SignalStep(w: World, chain: seq<Id>)
    requires Inv(w, chain)
    ensures Inv(Signalled(w, chain), chain)
  {
    var w' := Signalled(w, chain);
    ChainFrame(w.lanes, w'.lanes, w.first, chain);
    forall t | t in w'.lanes ensures LaneOk(w', t, w'.lanes[t]) { assert LaneOk(w, t, w.lanes[t]); }
  }

  lemma SignalNone(w: World)
    ensures Signalled(w, []) == w
  {
    assert Signalled(w, []).lanes == w.lanes;
  }

  lemma SignalNext(w: World, chain: seq<Id>, k: nat)
    requires k < |chain| && chain[k] in w.lanes
    ensures var w1 := Signalled(w, chain[..k]);
      && chain[k] in w1.lanes && w1.lanes[chain[k]].next == w.lanes[chain[k]].next
      && Update(w1, chain[k], w1.lanes[chain[k]].(cancel := true)) == Signalled(w, chain[..k + 1])
  {
    var w1 := Signalled(w, chain[..k]);
    assert forall s :: s in chain[..k + 1] <==> s in chain[..k] || s == chain[k];
    assert Update(w1, chain[k], w1.lanes[chain[k]].(cancel := true)).lanes == Signalled(w, chain[..k + 1]).lanes;
  }

  // ----- the threads -----

  /** Who moves next; a step whose thread is elsewhere does nothing. */
  datatype Step =
    | Create(s: Id)
    | LaneReads(s: Id) | LaneRemoves(s: Id) | LaneFrees(s: Id) | LaneDone(s: Id) | LaneSignals(s: Id)
    | GcReads(s: Id) | GcAdds(s: Id) | GcAsserts(s: Id) | GcFrees(s: Id)
    | ExitSignals

  /** The thread of the step is at the place where the step touches the record `l`. */
  predicate Enabled(step: Step, l: Lane) {
    match step
    case LaneReads(_) => l.pc == Working
    case LaneRemoves(_) => l.pc == FreeRunning
    case LaneFrees(_) => l.pc == Detached
    case LaneDone(_) => l.pc == Leaving
    case LaneSignals(_) => l.pc == Signalling
    case GcReads(_) => l.gc == Waiting
    case GcAdds(_) => l.gc == Adding
    case GcAsserts(_) => l.gc == Asserting
    case GcFrees(_) => l.gc == Freeing
    case _ => false
  }

  /** The lane after a step of one of its threads that leaves the chain alone. */
  function Moved(step: Step, l: Lane): Lane {
    match step
    case LaneReads(_) => l.(pc := if l.next != Null then FreeRunning else Leaving)
    case LaneDone(_) => l.(done := true, pc := Signalling)
    case LaneSignals(_) => l.(pc := Ended)
    case LaneFrees(_) => l.(pc := Ended)
    case GcReads(_) => l.(gc := if l.done then Freeing else Adding)
    case GcAsserts(_) => l.(gc := Collected)
    case GcFrees(_) => l.(gc := Collected)
    case _ => l
  }

  predicate Frees(step: Step) { step.LaneFrees? || step.GcFrees? }

  function Local(w: World, step: Step, s: Id, l: Lane): World {
    if Frees(step) then Freed(w, s, Moved(step, l)) else Update(w, s, Moved(step, l))
  }

  /** The lane at some position of the chain has left it; the others keep their order. */
  ghost predicate Removed(w: World, chain: seq<Id>, s: Id, k: nat, w': World, chain': seq<Id>) {
    && k < |chain| && chain[k] == s && s in w.lanes && (RefTo(chain, k).To? ==> RefTo(chain, k).id in w.lanes)
    && w' == RemovedFrom(w, s, RefTo(chain, k)) && chain' == Without(chain, k)
  }

  /** One step, from world to world and from chain to chain. */
  ghost predicate Stepped(w: World, chain: seq<Id>, step: Step, w': World, chain': seq<Id>) {
    if step.ExitSignals? then w' == Signalled(w, chain) && chain' == chain
    else if step.Create? then w' == (if step.s in w.lanes then w else Created(w, step.s)) && chain' == chain
    else if step.s !in w.lanes || !Enabled(step, w.lanes[step.s]) then w' == w && chain' == chain
    else if step.GcAdds? then w' == AddedTo(w, step.s) && chain' == [step.s] + chain
    else if step.LaneRemoves? then exists k: nat :: Removed(w, chain, step.s, k, w', chain')
    else w' == Local(w, step, step.s, w.lanes[step.s]) && chain' == chain
  }

  // ----- the steps, field by field -----

  /** Only the record of `s` has changed; the chain and the other records are as they were. */
  ghost predicate OnlyLane(w: World, chain: seq<Id>, s: Id, l: Lane, w': World, chain': seq<Id>) {
    w'.first == w.first && chain' == chain && w'.lanes == w.lanes[s := l]
  }

  /** Process exit sets the cancel flag of the lanes on the chain and of no other. */
  lemma ExitMeans(w: World, chain: seq<Id>, w': World, chain': seq<Id>)
    requires Stepped(w, chain, ExitSignals, w', chain')
    ensures w'.first == w.first && chain' == chain && w'.alloc == w.alloc && w'.frees == w.frees
    ensures w'.lanes.Keys == w.lanes.Keys
    ensures forall s :: s in w.lanes ==> var l := w.lanes[s];
      w'.lanes[s] == Lane(l.next, l.done, l.cancel || s in chain, l.pc, l.gc)
  {}

  /** A new lane is off the chain, not done and not cancelled. */
  lemma CreateMeans(w: World, chain: seq<Id>, s: Id, w': World, chain': seq<Id>)
    requires Stepped(w, chain, Create(s), w', chain') && s !in w.lanes
    ensures OnlyLane(w, chain, s, Lane(Null, false, false, Working, Waiting), w', chain')
    ensures w'.alloc == w.alloc + {s} && w'.frees == w.frees
  {}

  /** The steps of a lane's thread: it reads its link, frees itself after leaving the chain, or sets its status and
      then signals. */
  lemma LaneMeans(w: World, chain: seq<Id>, s: Id, w': World, chain': seq<Id>)
    requires s in w.lanes
    ensures var l := w.lanes[s];
      && (l.pc == Working && Stepped(w, chain, LaneReads(s), w', chain') ==>
        OnlyLane(w, chain, s, l.(pc := if l.next == Null then Leaving else FreeRunning), w', chain')
        && w'.alloc == w.alloc && w'.frees == w.frees)
      && (l.pc == Leaving && Stepped(w, chain, LaneDone(s), w', chain') ==>
        OnlyLane(w, chain, s, l.(done := true, pc := Signalling), w', chain')
        && w'.alloc == w.alloc && w'.frees == w.frees)
      && (l.pc == Signalling && Stepped(w, chain, LaneSignals(s), w', chain') ==>
        OnlyLane(w, chain, s, l.(pc := Ended), w', chain') && w'.alloc == w.alloc && w'.frees == w.frees)
      && (l.pc == Detached && Stepped(w, chain, LaneFrees(s), w', chain') ==>
        OnlyLane(w, chain, s, l.(pc := Ended), w', chain') && w'.alloc == w.alloc - {s} && w'.frees == w.frees + [s])
  {}

  /** The steps of the finalizer: it reads the status, and frees the lane if that is done; or, after adding the lane,
      reads its link in the assert. */
  lemma GcMeans(w: World, chain: seq<Id>, s: Id, w': World, chain': seq<Id>)
    requires s in w.lanes
    ensures var l := w.lanes[s];
      && (l.gc == Waiting && Stepped(w, chain, GcReads(s), w', chain') ==>
        OnlyLane(w, chain, s, l.(gc := if l.done then Freeing else Adding), w', chain')
        && w'.alloc == w.alloc && w'.frees == w.frees)
      && (l.gc == Asserting && Stepped(w, chain, GcAsserts(s), w', chain') ==>
        OnlyLane(w, chain, s, l.(gc := Collected), w', chain') && w'.alloc == w.alloc && w'.frees == w.frees)
      && (l.gc == Freeing && Stepped(w, chain, GcFrees(s), w', chain') ==>
        OnlyLane(w, chain, s, l.(gc := Collected), w', chain')
        && w'.alloc == w.alloc - {s} && w'.frees == w.frees + [s])
      && (l.gc == Adding && Stepped(w, chain, GcAdds(s), w', chain') ==>
        w' == World(To(s), w.lanes[s := l.(next := w.first, gc := Asserting)], w.alloc, w.frees)
        && chain' == [s] + chain)
  {}

  /** Leaving the chain: whatever led to the lane leads to what came after it. */
  lemma RemoveMeans(w: World, chain: seq<Id>, s: Id, w': World, chain': seq<Id>)
    requires IsChain(w.lanes, w.first, chain) && s in w.lanes && w.lanes[s].pc == FreeRunning
    requires Stepped(w, chain, LaneRemoves(s), w', chain')
    ensures w'.alloc == w.alloc && w'.frees == w.frees && w'.lanes.Keys == w.lanes.Keys
    ensures w'.lanes[s] == w.lanes[s].(next := Null, pc := Detached)
    ensures w'.first == if w.first == To(s) then w.lanes[s].next else w.first
    ensures forall t :: t in w.lanes && t != s && t in chain ==>
      w'.lanes[t] == if w.lanes[t].next == To(s) then w.lanes[t].(next := w.lanes[s].next) else w.lanes[t]
    ensures forall t :: t in w.lanes && t != s && t !in chain ==> w'.lanes[t] == w.lanes[t]
    ensures exists k :: 0 <= k < |chain| && chain[k] == s && chain' == chain[..k] + chain[k + 1..]
  {
    var k: nat :| Removed(w, chain, s, k, w', chain');
    assert LinkedAt(w.lanes, chain, k) && (k > 0 ==> LinkedAt(w.lanes, chain, k - 1));
    forall t | t in w.lanes && t != s && t in chain
      ensures w'.lanes[t] == if w.lanes[t].next == To(s) then w.lanes[t].(next := w.lanes[s].next) else w.lanes[t]
    {
      var i :| 0 <= i < |chain| && chain[i] == t;
      assert LinkedAt(w.lanes, chain, i);
      if w.lanes[t].next == To(s) { assert chain[i + 1] == chain[k]; }
    }
  }

  lemma LocalInv(w: World, chain: seq<Id>, step: Step, s: Id)
    requires Inv(w, chain) && s in w.lanes && Enabled(step, w.lanes[s]) && !step.GcAdds? && !step.LaneRemoves?
    ensures Inv(Local(w, step, s, w.lanes[s]), chain)
  {
    var l := w.lanes[s];
    assert LaneOk(w, s, l);
    if Frees(step) {
      FreeStep(w, chain, s, Moved(step, l));
    } else {
      LocalStep(w, chain, s, Moved(step, l));
    }
  }

  class Lanes {
    var w: World
    ghost var chain: seq<Id>

    constructor ()
      ensures Inv(w, chain) && w == World(End, map[], {}, []) && chain == []
    {
      w, chain := World(End, map[], {}, []), [];
    }

    /** selfdestruct_add (lanes.c:949-960) */
    method Add(s: Id)
      requires Inv(w, chain) && s in w.lanes && w.lanes[s].gc == Adding
      modifies this
      ensures Inv(w, chain) && w == AddedTo(old(w), s) && chain == [s] + old(chain)
    {
      AddStep(w, chain, s);
      hide Inv;
      w := Added(w, s);
      w := Update(w, s, w.lanes[s].(gc := Asserting));
      chain := [s] + chain;
    }

    /** selfdestruct_remove (lanes.c:965-991): walk to the reference that holds `s` and take it out. */
    method Remove(s: Id) returns (ghost k: nat)
      requires Inv(w, chain) && s in w.lanes && w.lanes[s].pc == FreeRunning
      modifies this
      ensures Inv(w, chain) && Removed(old(w), old(chain), s, k, w, chain)
    {
      var ref := Null;
      k := 0;
      var cur := w.first;
      assert LaneOk(w, s, w.lanes[s]) && s in chain;
      while cur != To(s)
        invariant k <= |chain| && cur == PtrTo(chain, k) && ref == (if k == 0 then Null else To(chain[k - 1]))
        invariant forall i :: 0 <= i < k ==> chain[i] != s
        decreases |chain| - k
      {
        assert LinkedAt(w.lanes, chain, k);
        ref := cur;
        cur := w.lanes[cur.id].next;
        k := k + 1;
      }
      RemoveStep(w, chain, k);
      w := Unlinked(w, s, ref);
      w := Update(w, s, w.lanes[s].(pc := Detached));
      chain := Without(chain, k);
    }

    /** selfdestruct_atexit (lanes.c:996-1010): every lane on the chain, and no other, is asked to cancel. */
    method SignalAll()
      requires Inv(w, chain)
      modifies this`w
      ensures Inv(w, chain) && w == Signalled(old(w), chain)
    {
      ghost var w0 := w;
      var cur := w.first;
      ghost var k := 0;
      assert chain[..0] == [];
      SignalStep(w, chain);
      SignalNone(w);
      assert IsChain(w.lanes, w.first, chain);
      hide Inv, Signalled;
      while cur != End
        invariant k <= |chain| && cur == PtrTo(chain, k) && w == Signalled(w0, chain[..k])
        decreases |chain| - k
      {
        assert LinkedAt(w0.lanes, chain, k);
        SignalNext(w0, chain, k);
        w := Update(w, cur.id, w.lanes[cur.id].(cancel := true));
        cur := w.lanes[cur.id].next;
        k := k + 1;
      }
      assert chain[..k] == chain;
    }

    /** One step of one thread. */
    method Perform(step: Step)
      requires Inv(w, chain)
      modifies this
      ensures Inv(w, chain) && Stepped(old(w), old(chain), step, w, chain)
    {
      if step.ExitSignals? {
        SignalAll();
      } else if step.Create? {
        if step.s !in w.lanes {
          CreateStep(w, chain, step.s);
          w := Created(w, step.s);
        }
      } else if step.s in w.lanes && Enabled(step, w.lanes[step.s]) {
        if step.GcAdds? {
          Add(step.s);
        } else if step.LaneRemoves? {
          ghost var k := Remove(step.s);
        } else {
          LocalInv(w, chain, step, step.s);
          w := Local(w, step, step.s, w.lanes[step.s]);
        }
      }
    }
  }

  // ----- every interleaving -----

  datatype Trace = Trace(steps: seq<Step>, worlds: seq<World>, chains: seq<seq<Id>>)

  ghost predicate StepAt(t: Trace, i: nat)
    requires i + 1 < |t.worlds| == |t.chains| && i < |t.steps|
  {
    Stepped(t.worlds[i], t.chains[i], t.steps[i], t.worlds[i + 1], t.chains[i + 1])
  }

  /** A run from the state without lanes, with each world and chain the effect of its step on the ones before. */
  ghost predicate IsTrace(t: Trace) {
    && |t.worlds| == |t.steps| + 1 && |t.chains| == |t.steps| + 1
    && t.worlds[0] == World(End, map[], {}, []) && t.chains[0] == []
    && (forall i :: 0 <= i < |t.steps| ==> StepAt(t, i))
    && (forall i :: 0 <= i < |t.worlds| ==> Inv(t.worlds[i], t.chains[i]))
  }

  /** Every interleaving of lanes, finalizers and process exit is a trace: the chain is sound throughout, the lanes
      on it are allocated, and no lane is freed twice. */
  method Interleave(steps: seq<Step>) returns (ls: Lanes, ghost t: Trace)
    ensures fresh(ls) && t.steps == steps && IsTrace(t)
    ensures ls.w == t.worlds[|steps|] && ls.chain == t.chains[|steps|]
  {
    ls := new Lanes();
    t := Trace([], [ls.w], [ls.chain]);
    hide Inv, Stepped;
    for i := 0 to |steps|
      invariant fresh(ls) && t.steps == steps[..i] && IsTrace(t) && ls.w == t.worlds[i] && ls.chain == t.chains[i]
    {
      ghost var t0 := t;
      ls.Perform(steps[i]);
      t := Trace(t.steps + [steps[i]], t.worlds + [ls.w], t.chains + [ls.chain]);
      assert steps[..i] + [steps[i]] == steps[..i + 1];
      Longer(t0, t);
    }
    assert steps[..|steps|] == steps;
  }

  lemma Longer(t0: Trace, t: Trace)
    requires IsTrace(t0) && |t.steps| == |t0.steps| + 1 == |t.worlds| - 1 == |t.chains| - 1
    requires t.steps[..|t0.steps|] == t0.steps && t.worlds[..|t0.worlds|] == t0.worlds
    requires t.chains[..|t0.worlds|] == t0.chains && StepAt(t, |t0.steps|)
    requires Inv(t.worlds[|t.steps|], t.chains[|t.steps|])
    ensures IsTrace(t)
  {
    hide Inv, Stepped;
    var n := |t0.steps|;
    assert forall i :: 0 <= i <= n ==> t.worlds[i] == t0.worlds[i] && t.chains[i] == t0.chains[i];
    forall i | 0 <= i < |t.steps| ensures StepAt(t, i) {
      if i < n { assert StepAt(t0, i) && t.steps[i] == t0.steps[i]; }
    }
  }

  // ----- records that are touched -----

  /** Which accesses hit a record that has been freed: the read in the assert of thread_gc, exactly when the lane
      has freed itself since it was added; and the signal and unlock at the end of a lane, exactly when the
      finalizer has freed the lane since its status was set. No other access does. */
  lemma Touches(w: World, chain: seq<Id>, step: Step)
    requires Inv(w, chain) && !step.ExitSignals? && !step.Create? && step.s in w.lanes && Enabled(step, w.lanes[step.s])
    ensures var l := w.lanes[step.s];
      step.s !in w.alloc <==>
        || (step.GcAsserts? && l.pc == Ended && !l.done)
        || (step.LaneSignals? && l.gc == Collected && l.next == Null)
  {
    assert LaneOk(w, step.s, w.lanes[step.s]);
  }

  /** The assert of thread_gc holds exactly while the lane is on the chain. */
  lemma AssertHolds(w: World, chain: seq<Id>, s: Id)
    requires Inv(w, chain) && s in w.lanes && w.lanes[s].gc == Asserting
    ensures w.lanes[s].next != Null <==> s in chain
    ensures s in chain <==> w.lanes[s].pc != Detached && s in w.alloc
  {
    assert LaneOk(w, s, w.lanes[s]);
  }

  /** A world with one lane. */
  function One(l: Lane): World { World(if l.next == Null then End else To(0), map[0 := l], {0}, []) }

  ghost predicate OneAt(t: Trace, i: nat, l: Lane) {
    IsTrace(t) && i < |t.worlds| && t.worlds[i] == One(l) && t.chains[i] == if l.next == Null then [] else [0]
  }

  lemma CreatedAt(t: Trace)
    requires IsTrace(t) && |t.steps| > 0 && t.steps[0] == Create(0)
    ensures OneAt(t, 1, NEW_LANE)
  {
    assert StepAt(t, 0);
    hide Inv;
  }

  /** The steps that do not change the chain. */
  predicate IsLocal(step: Step) {
    && !step.ExitSignals? && !step.Create? && !step.GcAdds? && !step.LaneRemoves?
  }

  lemma LocalAt(t: Trace, i: nat, l: Lane)
    requires OneAt(t, i, l) && i < |t.steps| && IsLocal(t.steps[i]) && t.steps[i].s == 0 && Enabled(t.steps[i], l)
    ensures if Frees(t.steps[i]) then t.worlds[i + 1] == Freed(One(l), 0, Moved(t.steps[i], l))
            else OneAt(t, i + 1, Moved(t.steps[i], l))
  {
    hide Inv;
    assert StepAt(t, i);
  }

  lemma AddAt(t: Trace, i: nat, l: Lane)
    requires OneAt(t, i, l) && i < |t.steps| && t.steps[i] == GcAdds(0) && l.gc == Adding && l.next == Null
    ensures OneAt(t, i + 1, l.(next := End, gc := Asserting))
  {
    hide Inv;
    assert StepAt(t, i);
  }

  lemma RemoveAt(t: Trace, i: nat, l: Lane)
    requires OneAt(t, i, l) && i < |t.steps| && t.steps[i] == LaneRemoves(0) && l.pc == FreeRunning && l.next == End
    ensures OneAt(t, i + 1, l.(next := Null, pc := Detached))
  {
    hide Inv;
    assert StepAt(t, i);
    var k: nat :| Removed(t.worlds[i], t.chains[i], 0, k, t.worlds[i + 1], t.chains[i + 1]);
    assert k == 0 && Without([0], 0) == [];
  }

  /** The finalizer's assert reads the link of a lane that has left the chain and freed itself. */
  method AssertAfterFree() returns (ls: Lanes, ghost t: Trace)
    ensures IsTrace(t) && ls.w == t.worlds[|t.steps|] && 0 in ls.w.lanes
    ensures Enabled(GcAsserts(0), ls.w.lanes[0]) && 0 !in ls.w.alloc
  {
    hide IsTrace, Inv, StepAt, Stepped, OneAt, Local;
    ls, t := Interleave([Create(0), GcReads(0), GcAdds(0), LaneReads(0), LaneRemoves(0), LaneFrees(0)]);
    CreatedAt(t);
    LocalAt(t, 1, NEW_LANE);
    AddAt(t, 2, NEW_LANE.(gc := Adding));
    LocalAt(t, 3, NEW_LANE.(next := End, gc := Asserting));
    RemoveAt(t, 4, NEW_LANE.(next := End, gc := Asserting, pc := FreeRunning));
    LocalAt(t, 5, NEW_LANE.(gc := Asserting, pc := Detached));
    hide Moved, One;
    FreedOne(NEW_LANE.(gc := Asserting, pc := Detached), LaneFrees(0));
  }

  /** What the record of a lane is after it has been freed. */
  lemma FreedOne(l: Lane, step: Step)
    requires Frees(step)
    ensures var w := Freed(One(l), 0, Moved(step, l)); w.lanes == map[0 := Moved(step, l)] && w.alloc == {}
    ensures Moved(step, l) == if step.LaneFrees? then l.(pc := Ended) else l.(gc := Collected)
  {}

  /** A lane signals and unlocks in its record after the finalizer, which saw the status, has freed it. */
  method SignalAfterFree() returns (ls: Lanes, ghost t: Trace)
    ensures IsTrace(t) && ls.w == t.worlds[|t.steps|] && 0 in ls.w.lanes
    ensures Enabled(LaneSignals(0), ls.w.lanes[0]) && 0 !in ls.w.alloc
  {
    hide IsTrace, Inv, StepAt, Stepped, OneAt, Local;
    ls, t := Interleave([Create(0), LaneReads(0), LaneDone(0), GcReads(0), GcFrees(0)]);
    CreatedAt(t);
    LocalAt(t, 1, NEW_LANE);
    LocalAt(t, 2, NEW_LANE.(pc := Leaving));
    LocalAt(t, 3, NEW_LANE.(pc := Signalling, done := true));
    LocalAt(t, 4, NEW_LANE.(pc := Signalling, done := true, gc := Freeing));
  }

  // ----- what becomes of a lane -----

  /** A lane whose thread and handle are both gone has been freed exactly if it is off the chain. */
  lemma FreedOffChain(w: World, chain: seq<Id>, s: Id)
    requires Inv(w, chain) && s in w.lanes && w.lanes[s].pc == Ended && w.lanes[s].gc == Collected
    ensures s in w.frees <==> s !in chain
  {
    assert LaneOk(w, s, w.lanes[s]);
  }

  /** The lane has read its link as NULL, and goes on to set its status. */
  predicate Left(l: Lane) { l.pc == Leaving || l.pc == Signalling || (l.pc == Ended && l.done) }

  ghost predicate SawNullAt(t: Trace, s: Id, i: nat)
    requires i < |t.steps| <= |t.worlds|
  {
    t.steps[i] == LaneReads(s) && s in t.worlds[i].lanes && t.worlds[i].lanes[s].pc == Working &&
      t.worlds[i].lanes[s].next == Null
  }

  ghost predicate SawNull(t: Trace, s: Id, n: nat)
    requires n <= |t.steps| <= |t.worlds|
  {
    exists i :: 0 <= i < n && SawNullAt(t, s, i)
  }

  ghost predicate AddedLateAt(t: Trace, s: Id, j: nat)
    requires j < |t.steps| <= |t.worlds|
  {
    t.steps[j] == GcAdds(s) && s in t.worlds[j].lanes && t.worlds[j].lanes[s].gc == Adding && SawNull(t, s, j)
  }

  /** The finalizer added the lane after the lane had read its link as NULL. */
  ghost predicate AddedLate(t: Trace, s: Id, n: nat)
    requires n <= |t.steps| <= |t.worlds|
  {
    exists j :: 0 <= j < n && AddedLateAt(t, s, j)
  }

  /** What one step does to whether a lane has left and is on the chain. */
  ghost predicate HistoryStep(l: Lane, step: Step, l': Lane, s: Id) {
    && (Left(l') <==> Left(l) || (step == LaneReads(s) && l.pc == Working && l.next == Null))
    && (Left(l) ==> (l'.next != Null <==> l.next != Null || (step == GcAdds(s) && l.gc == Adding)))
    && (!Left(l) && Left(l') ==> l'.next == Null)
  }

  lemma StepHistory(w: World, chain: seq<Id>, step: Step, w': World, chain': seq<Id>, s: Id)
    requires Inv(w, chain) && Inv(w', chain') && Stepped(w, chain, step, w', chain')
    ensures if s in w.lanes then s in w'.lanes && HistoryStep(w.lanes[s], step, w'.lanes[s], s)
            else s in w'.lanes ==> w'.lanes[s] == NEW_LANE
  {
    if s in w.lanes {
      assert LaneOk(w, s, w.lanes[s]) && (s in w'.lanes ==> LaneOk(w', s, w'.lanes[s])) && w.first != Null;
      hide Inv, LaneOk, HistoryStep;
      if step.LaneRemoves? && step.s in w.lanes && Enabled(step, w.lanes[step.s]) {
        var k: nat :| Removed(w, chain, step.s, k, w', chain');
        hide Stepped;
        RemoveHistory(w, chain, step.s, k, w', chain', s);
        RemovedLane(w, w', step, s);
      } else if step.ExitSignals? || step.Create? || step.s != s || !Enabled(step, w.lanes[s]) {
        SameHistory(w, chain, step, w', chain', s);
      } else {
        OwnHistory(w, chain, step, w', chain');
      }
    } else {
      hide Inv, HistoryStep;
      NewHistory(w, chain, step, w', chain', s);
    }
  }

  lemma RemovedLane(w: World, w': World, step: Step, s: Id)
    requires s in w.lanes && s in w'.lanes && LaneOk(w, s, w.lanes[s]) && LaneOk(w', s, w'.lanes[s])
    requires step.LaneRemoves? && w'.frees == w.frees
    requires if s == step.s then w.lanes[s].pc == FreeRunning && w'.lanes[s].pc == Detached
             else w'.lanes[s].(next := Null) == w.lanes[s].(next := Null)
    ensures HistoryStep(w.lanes[s], step, w'.lanes[s], s)
  {}

  lemma SameHistory(w: World, chain: seq<Id>, step: Step, w': World, chain': seq<Id>, s: Id)
    requires Stepped(w, chain, step, w', chain') && s in w.lanes
    requires step.ExitSignals? || step.Create? || step.s != s || !Enabled(step, w.lanes[s])
    requires !(step.LaneRemoves? && step.s in w.lanes && Enabled(step, w.lanes[step.s]))
    ensures s in w'.lanes && HistoryStep(w.lanes[s], step, w'.lanes[s], s)
  {
    assert w'.lanes[s].(cancel := true) == w.lanes[s].(cancel := true);
  }

  lemma OwnHistory(w: World, chain: seq<Id>, step: Step, w': World, chain': seq<Id>)
    requires Stepped(w, chain, step, w', chain') && !step.ExitSignals? && !step.Create? && !step.LaneRemoves?
    requires step.s in w.lanes && Enabled(step, w.lanes[step.s]) && LaneOk(w, step.s, w.lanes[step.s])
    requires w.first != Null
    ensures step.s in w'.lanes && HistoryStep(w.lanes[step.s], step, w'.lanes[step.s], step.s)
  {}

  lemma NewHistory(w: World, chain: seq<Id>, step: Step, w': World, chain': seq<Id>, s: Id)
    requires Stepped(w, chain, step, w', chain') && s !in w.lanes
    ensures s in w'.lanes ==> w'.lanes[s] == NEW_LANE
  {}

  lemma RemoveHistory(w: World, chain: seq<Id>, r: Id, k: nat, w': World, chain': seq<Id>, s: Id)
    requires Removed(w, chain, r, k, w', chain') && s in w.lanes
    ensures s in w'.lanes && w'.frees == w.frees && (s == r ==> w'.lanes[s].pc == Detached)
    ensures s != r ==> w'.lanes[s].(next := Null) == w.lanes[s].(next := Null)
  {}

  /** What the predicates over the past say at the end of the first `n` steps. */
  ghost predicate Remembered(t: Trace, s: Id, n: nat)
    requires n <= |t.steps| < |t.worlds|
  {
    var w := t.worlds[n];
    && (SawNull(t, s, n) <==> s in w.lanes && Left(w.lanes[s]))
    && (AddedLate(t, s, n) <==> s in w.lanes && Left(w.lanes[s]) && w.lanes[s].next != Null)
  }

  lemma LongerPast(t: Trace, s: Id, k: nat)
    requires k < |t.steps| < |t.worlds|
    ensures SawNull(t, s, k + 1) <==> SawNull(t, s, k) || SawNullAt(t, s, k)
    ensures AddedLate(t, s, k + 1) <==> AddedLate(t, s, k) || AddedLateAt(t, s, k)
  {
    hide SawNullAt, AddedLateAt;
  }

  lemma NothingBefore(t: Trace, s: Id)
    requires IsTrace(t)
    ensures Remembered(t, s, 0)
  {
    hide Inv, StepAt;
  }

  lemma {:induction false} History(t: Trace, s: Id, n: nat)
    requires IsTrace(t) && n <= |t.steps|
    ensures Remembered(t, s, n)
  {
    hide Inv, Stepped, SawNull, AddedLate;
    if n == 0 {
      NothingBefore(t, s);
    } else {
      var k := n - 1;
      History(t, s, k);
      assert StepAt(t, k);
      LongerPast(t, s, k);
      StepHistory(t.worlds[k], t.chains[k], t.steps[k], t.worlds[n], t.chains[n], s);
      hide IsTrace;
    }
  }

  /** A lane whose thread and handle are both gone stays on the chain, and so is never freed, exactly if it was added
      after it had read its link as NULL. */
  lemma LeftOnChain(t: Trace, s: Id, n: nat)
    requires IsTrace(t) && n <= |t.steps| && s in t.worlds[n].lanes
    requires t.worlds[n].lanes[s].pc == Ended && t.worlds[n].lanes[s].gc == Collected
    ensures s in t.chains[n] <==> AddedLate(t, s, n)
    ensures s in t.worlds[n].frees <==> !AddedLate(t, s, n)
  {
    History(t, s, n);
    var w := t.worlds[n];
    assert Inv(w, t.chains[n]);
    assert LaneOk(w, s, w.lanes[s]);
    hide IsTrace, AddedLate, SawNull;
  }
}
