/** Copying values between Lua states in Lanes (tools.c:648-715, 924-1045, 1143-1192): tables without
    metatables, possibly cyclic and shared, whose values are basic values, tables or threads. */
module GraphCopy {

  datatype Option<+T> = None | Some(value: T)

  type Id = nat

  /** Booleans, numbers, strings and light userdata are basic; other keys are not copied. */
  datatype Key = Basic(b: int) | NonBasic(x: int)

  datatype Val = Plain(b: int) | Tab(id: Id) | Thread

  /** A table, as the entries in the order in which lua_next gives them. */
  type Table = seq<(Key, Val)>

  type Heap = map<Id, Table>

  datatype CopiedVal = CPlain(b: int) | CTab(id: Id)

  type CopiedHeap = map<Id, map<int, CopiedVal>>

  ghost predicate DistinctKeys(t: Table) { forall i, j :: 0 <= i < j < |t| ==> t[i].0 != t[j].0 }

  /** Every table that is referred to exists. */
  ghost predicate HeapOk(h: Heap) {
    forall s :: s in h ==> DistinctKeys(h[s]) && forall i :: 0 <= i < |h[s]| && h[s][i].1.Tab? ==> h[s][i].1.id in h
  }

  ghost predicate ValOk(h: Heap, v: Val) { v.Tab? ==> v.id in h }

  // ----- what a copy should be -----

  type Cache = map<Id, Id>

  /** The copy of `v`, given which table is the copy of which. */
  ghost function Image(v: Val, c: Cache): CopiedVal {
    match v
    case Plain(b) => CPlain(b)
    case Tab(s) => CTab(if s in c then c[s] else 0)
    case Thread => CPlain(0)
  }

  /** `w` is the same basic value as `v`, or the table that is the copy of the table `v`. */
  predicate Copies(v: Val, w: CopiedVal, c: Cache) {
    match v
    case Plain(b) => w == CPlain(b)
    case Tab(s) => s in c && w == CTab(c[s])
    case Thread => false
  }

  /** `m` has what the entries of `t` under basic keys hold, each under its key, and nothing else. */
  ghost predicate TableCopies(t: Table, m: map<int, CopiedVal>, c: Cache) {
    && (forall i :: 0 <= i < |t| && t[i].0.Basic? ==> t[i].0.b in m && Copies(t[i].1, m[t[i].0.b], c))
    && (forall b :: b in m ==> KeyOf(t, b))
  }

  ghost predicate KeyOf(t: Table, b: int) { exists i :: 0 <= i < |t| && t[i].0 == Basic(b) }

  /** A value the copy of which is settled. */
  ghost predicate Settled(v: Val, c: Cache) { v != Thread && (v.Tab? ==> v.id in c) }

  /** The first `n` entries of `t` under basic keys, copied. */
  ghost function ImageOf(t: Table, n: nat, c: Cache): map<int, CopiedVal>
    requires n <= |t|
  {
    if n == 0 then map[]
    else if t[n - 1].0.Basic? then ImageOf(t, n - 1, c)[t[n - 1].0.b := Image(t[n - 1].1, c)]
    else ImageOf(t, n - 1, c)
  }

  ghost predicate SettledUpTo(t: Table, n: nat, c: Cache) {
    n <= |t| && forall i :: 0 <= i < n && t[i].0.Basic? ==> Settled(t[i].1, c)
  }

  /** The copy of the table `s` has exactly its entries under basic keys, all of them copied. */
  ghost predicate Complete(h: Heap, d: CopiedHeap, c: Cache, s: Id) {
    s in h && s in c && c[s] in d && SettledUpTo(h[s], |h[s]|, c) && d[c[s]] == ImageOf(h[s], |h[s]|, c)
  }

  ghost predicate Injective(c: Cache) { forall s, t :: s in c && t in c && c[s] == c[t] ==> s == t }

  ghost predicate Extends(c: Cache, c': Cache) { forall s :: s in c ==> s in c' && c'[s] == c[s] }

  lemma {:induction false} ImageExtends(t: Table, n: nat, c: Cache, c': Cache)
    requires SettledUpTo(t, n, c) && Extends(c, c')
    ensures SettledUpTo(t, n, c') && ImageOf(t, n, c') == ImageOf(t, n, c)
  {
    if n > 0 { ImageExtends(t, n - 1, c, c'); }
  }

  /** The copy of a table has an entry for each basic key, with the copy of its value, and no other. */
  lemma {:induction false} ImageExact(t: Table, n: nat, c: Cache, b: int)
    requires DistinctKeys(t) && n <= |t|
    ensures b in ImageOf(t, n, c) <==> exists i :: 0 <= i < n && t[i].0 == Basic(b)
    ensures forall i :: 0 <= i < n && t[i].0 == Basic(b) ==> ImageOf(t, n, c)[b] == Image(t[i].1, c)
  {
    if n > 0 { ImageExact(t, n - 1, c, b); }
  }

  lemma SettledCopies(v: Val, c: Cache)
    requires Settled(v, c)
    ensures Copies(v, Image(v, c), c)
  {}

  lemma CompleteCopies(h: Heap, d: CopiedHeap, c: Cache, s: Id)
    requires HeapOk(h) && Complete(h, d, c, s)
    ensures TableCopies(h[s], d[c[s]], c)
  {
    var t := h[s];
    forall i | 0 <= i < |t| && t[i].0.Basic? ensures t[i].0.b in d[c[s]] && Copies(t[i].1, d[c[s]][t[i].0.b], c) {
      ImageExact(t, |t|, c, t[i].0.b);
      SettledCopies(t[i].1, c);
    }
    forall b | b in d[c[s]] ensures KeyOf(t, b) { ImageExact(t, |t|, c, b); }
  }

  lemma CompleteExtends(h: Heap, d: CopiedHeap, c: Cache, d': CopiedHeap, c': Cache, s: Id)
    requires Complete(h, d, c, s) && Extends(c, c') && c[s] in d' && d'[c[s]] == d[c[s]]
    ensures Complete(h, d', c', s)
  {
    ImageExtends(h[s], |h[s]|, c, c');
  }

  // ----- what is reachable -----

  /** A set of tables with every table they hold under a basic key. */
  ghost predicate Closed(h: Heap, ts: set<Id>) {
    forall s :: s in ts && s in h ==> forall i :: 0 <= i < |h[s]| && h[s][i].0.Basic? && h[s][i].1.Tab? ==>
      h[s][i].1.id in ts
  }

  ghost predicate Within(v: Val, ts: set<Id>) { v.Tab? ==> v.id in ts }

  /** Some table of the set holds a thread under a basic key. */
  ghost predicate HoldsThread(h: Heap, ts: set<Id>) {
    exists s, i :: s in ts && s in h && 0 <= i < |h[s]| && ThreadAt(h[s], i)
  }

  predicate ThreadAt(t: Table, i: int) { 0 <= i < |t| && t[i].0.Basic? && t[i].1 == Thread }

  // ----- the state of a copy -----

  /** The tables of the receiving state, the cache, and the next free identity. */
  datatype State = State(dest: CopiedHeap, cache: Cache, next: Id)

  ghost predicate StateOk(h: Heap, st: State) {
    && HeapOk(h) && Injective(st.cache)
    && (forall d :: d in st.dest ==> d < st.next)
    && (forall s :: s in st.cache ==> s in h && st.cache[s] in st.dest)
  }

  ghost predicate SameTables(st: State, st': State) {
    forall d :: d in st.dest ==> d in st'.dest && st'.dest[d] == st.dest[d]
  }

  /** The tables that were there stay as they are; new ones, but for `except`, are fresh and complete. */
  ghost predicate Grew(h: Heap, st: State, st': State, except: set<Id>) {
    && st.next <= st'.next && Extends(st.cache, st'.cache) && SameTables(st, st')
    && (forall s :: s in st'.cache && s !in st.cache ==> st'.cache[s] >= st.next)
    && (forall s :: s in st'.cache && s !in st.cache && s !in except ==> Complete(h, st'.dest, st'.cache, s))
  }

  /** Only tables that `v` leads to have been copied. */
  ghost predicate Confined(h: Heap, st: State, st': State, v: Val) {
    forall ts: set<Id> :: Closed(h, ts) && Within(v, ts) ==> st'.cache.Keys - st.cache.Keys <= ts
  }

  ghost predicate LeadsToThread(h: Heap, v: Val) {
    v == Thread || forall ts: set<Id> :: Closed(h, ts) && Within(v, ts) ==> HoldsThread(h, ts)
  }

  /** The table `s` has been put into the cache and its first `i` entries have been copied. */
  ghost predicate Filling(h: Heap, st: State, st': State, s: Id, i: nat) {
    && StateOk(h, st) && StateOk(h, st') && Grew(h, st, st', {s}) && Confined(h, st, st', Tab(s))
    && s in h && s !in st.cache && s in st'.cache && i <= |h[s]|
    && SettledUpTo(h[s], i, st'.cache) && st'.dest[st'.cache[s]] == ImageOf(h[s], i, st'.cache)
  }

  function Started(st: State, s: Id): State {
    State(st.dest[st.next := map[]], st.cache[s := st.next], st.next + 1)
  }

  lemma FillStart(h: Heap, st: State, s: Id)
    requires StateOk(h, st) && s in h && s !in st.cache
    ensures Filling(h, st, Started(st, s), s, 0)
  {}

  function Stored(st: State, d: Id, b: int, v: CopiedVal): State
    requires d in st.dest
  {
    st.(dest := st.dest[d := st.dest[d][b := v]])
  }

  /** The entry `i` has been copied and is stored. */
  lemma FillStep(h: Heap, st: State, st1: State, st2: State, s: Id, i: nat)
    requires Filling(h, st, st1, s, i) && i < |h[s]| && h[s][i].0.Basic? && StateOk(h, st2) && Grew(h, st1, st2, {})
    requires Settled(h[s][i].1, st2.cache) && Confined(h, st1, st2, h[s][i].1)
    ensures Filling(h, st, Stored(st2, st2.cache[s], h[s][i].0.b, Image(h[s][i].1, st2.cache)), s, i + 1)
  {
    var d := st2.cache[s];
    var content := st2.dest[d][h[s][i].0.b := Image(h[s][i].1, st2.cache)];
    FillContent(h, st1, st2, s, i);
    hide ImageOf, SettledUpTo, Image;
    FillComplete(h, st, st1, st2, s, content);
    FillConfined(h, st, st1, st2, s, i);
    hide Grew, StateOk, Confined;
  }

  lemma FillContent(h: Heap, st1: State, st2: State, s: Id, i: nat)
    requires s in h && i < |h[s]| && h[s][i].0.Basic? && s in st1.cache && st1.cache[s] in st1.dest
    requires SettledUpTo(h[s], i, st1.cache) && st1.dest[st1.cache[s]] == ImageOf(h[s], i, st1.cache)
    requires Extends(st1.cache, st2.cache) && SameTables(st1, st2) && Settled(h[s][i].1, st2.cache)
    ensures SettledUpTo(h[s], i + 1, st2.cache)
    ensures st2.dest[st2.cache[s]][h[s][i].0.b := Image(h[s][i].1, st2.cache)] == ImageOf(h[s], i + 1, st2.cache)
  {
    ImageExtends(h[s], i, st1.cache, st2.cache);
    assert st2.dest[st2.cache[s]] == st1.dest[st1.cache[s]];
  }

  lemma FillComplete(h: Heap, st: State, st1: State, st2: State, s: Id, content: map<int, CopiedVal>)
    requires StateOk(h, st) && StateOk(h, st1) && StateOk(h, st2) && Grew(h, st, st1, {s}) && Grew(h, st1, st2, {})
    requires s !in st.cache && s in st1.cache
    ensures s in st2.cache && st2.cache[s] == st1.cache[s]
    ensures var st3 := st2.(dest := st2.dest[st2.cache[s] := content]); Grew(h, st, st3, {s}) && StateOk(h, st3)
  {
    GrewTrans(h, st, st1, st2, {s});
    FillEdit(h, st, st2, s, content);
  }

  lemma FillEdit(h: Heap, st: State, st2: State, s: Id, content: map<int, CopiedVal>)
    requires StateOk(h, st) && StateOk(h, st2) && Grew(h, st, st2, {s}) && s !in st.cache && s in st2.cache
    ensures var st3 := st2.(dest := st2.dest[st2.cache[s] := content]); Grew(h, st, st3, {s}) && StateOk(h, st3)
  {
    var st3 := st2.(dest := st2.dest[st2.cache[s] := content]);
    forall u | u in st3.cache && u !in st.cache && u !in {s} ensures Complete(h, st3.dest, st3.cache, u) {
      assert Complete(h, st2.dest, st2.cache, u) && st2.cache[u] != st2.cache[s];
      CompleteExtends(h, st2.dest, st2.cache, st3.dest, st3.cache, u);
    }
    hide Complete;
    forall d | d in st.dest ensures d in st3.dest && st3.dest[d] == st.dest[d] {
      assert st2.dest[d] == st.dest[d] && d != st2.cache[s];
    }
  }

  lemma FillConfined(h: Heap, st: State, st1: State, st2: State, s: Id, i: nat)
    requires s in h && i < |h[s]| && h[s][i].0.Basic? && Confined(h, st, st1, Tab(s))
    requires Confined(h, st1, st2, h[s][i].1)
    ensures Confined(h, st, st2, Tab(s))
  {
    forall ts: set<Id> | Closed(h, ts) && Within(Tab(s), ts) ensures st2.cache.Keys - st.cache.Keys <= ts {
      assert Within(h[s][i].1, ts);
    }
  }

  lemma FillSkip(h: Heap, st: State, st1: State, s: Id, i: nat)
    requires Filling(h, st, st1, s, i) && i < |h[s]| && !h[s][i].0.Basic?
    ensures Filling(h, st, st1, s, i + 1)
  {}

  lemma FillDone(h: Heap, st: State, st': State, s: Id)
    requires s in h && Filling(h, st, st', s, |h[s]|)
    ensures Grew(h, st, st', {})
  {
    assert Complete(h, st'.dest, st'.cache, s);
  }

  /** A thread under an entry is a thread of the table. */
  lemma ThreadFound(h: Heap, s: Id, i: nat)
    requires s in h && i < |h[s]| && h[s][i].0.Basic? && LeadsToThread(h, h[s][i].1)
    ensures LeadsToThread(h, Tab(s))
  {
    forall ts: set<Id> | Closed(h, ts) && Within(Tab(s), ts) ensures HoldsThread(h, ts) {
      if h[s][i].1 == Thread {
        assert ThreadAt(h[s], i);
      } else {
        assert Within(h[s][i].1, ts);
      }
    }
  }

  class Copier {
    const source: Heap
    var st: State

    constructor (source: Heap, st: State)
      ensures this.source == source && this.st == st
    {
      this.source, this.st := source, st;
    }

    /** inter_copy_one_ on a value (tools.c:924-1132). It ends although tables may be cyclic: each level of the
        recursion has put one more table into the cache. */
    method CopyOne(v: Val) returns (r: Option<CopiedVal>)
      requires StateOk(source, st) && ValOk(source, v)
      modifies this`st
      ensures r.Some? ==> StateOk(source, st) && Grew(source, old(st), st, {}) && Confined(source, old(st), st, v)
      ensures r.Some? ==> Settled(v, st.cache) && r.value == Image(v, st.cache) && Copies(v, r.value, st.cache)
      ensures r.None? ==> LeadsToThread(source, v)
      decreases source.Keys - st.cache.Keys, 1
    {
      match v
      case Plain(b) => r := Some(CPlain(b));
      case Thread => r := None;
      case Tab(s) =>
        if s in st.cache {
          r := Some(CTab(st.cache[s]));
        } else {
          var ok := CopyTable(s);
          r := if ok then Some(CTab(st.cache[s])) else None;
        }
    }

    /** A table that is not in the cache (tools.c:685-699, 1016-1045). */
    method CopyTable(s: Id) returns (ok: bool)
      requires StateOk(source, st) && s in source && s !in st.cache
      modifies this`st
      ensures ok ==> StateOk(source, st) && Grew(source, old(st), st, {})
      ensures ok ==> Confined(source, old(st), st, Tab(s)) && s in st.cache
      ensures !ok ==> LeadsToThread(source, Tab(s))
      decreases source.Keys - st.cache.Keys, 0
    {
      hide Grew, Confined, LeadsToThread, SettledUpTo, ImageOf;
      ghost var st0 := st;
      FillStart(source, st, s);
      st := Started(st, s);
      var t := source[s];
      var i := 0;
      while i < |t|
        invariant 0 <= i <= |t| && Filling(source, st0, st, s, i) && st0.cache.Keys + {s} <= st.cache.Keys
      {
        if t[i].0.Basic? {
          ghost var st1 := st;
          var r := CopyOne(t[i].1);
          if r == None {
            ThreadFound(source, s, i);
            return false;
          }
          FillStep(source, st0, st1, st, s, i);
          KeysGrew(source, st1, st);
          st := Stored(st, st.cache[s], t[i].0.b, r.value);
        } else {
          FillSkip(source, st0, st, s, i);
        }
        i := i + 1;
      }
      FillDone(source, st0, st, s);
      return true;
    }
  }

  lemma KeysGrew(h: Heap, st: State, st': State)
    requires Grew(h, st, st', {})
    ensures st.cache.Keys <= st'.cache.Keys
  {}

  // ----- a whole copy -----

  /** The values `vs` have been copied as `out`: each table they lead to has one copy, a new table with the
      same basic keys and the copies of the values, and nothing else has been touched. */
  ghost predicate Isomorphic(h: Heap, vs: seq<Val>, st: State, st': State, out: seq<CopiedVal>) {
    && |out| == |vs| && Injective(st'.cache) && SameTables(st, st')
    && (forall i :: 0 <= i < |vs| ==> Settled(vs[i], st'.cache) && out[i] == Image(vs[i], st'.cache))
    && (forall s :: s in st'.cache ==> Complete(h, st'.dest, st'.cache, s) && st'.cache[s] !in st.dest)
    && (forall ts: set<Id> :: Closed(h, ts) && AllWithin(vs, ts) ==> st'.cache.Keys <= ts)
  }

  ghost predicate AllWithin(vs: seq<Val>, ts: set<Id>) { forall i :: 0 <= i < |vs| ==> Within(vs[i], ts) }

  /** Shared stays shared, and different stays different. */
  lemma SharingKept(h: Heap, vs: seq<Val>, st: State, st': State, out: seq<CopiedVal>, i: nat, j: nat)
    requires Isomorphic(h, vs, st, st', out) && i < |vs| && j < |vs| && vs[i].Tab? && vs[j].Tab?
    ensures out[i] == out[j] <==> vs[i] == vs[j]
  {}

  /** The copied tables are those that can be reached: the cache is closed itself. */
  lemma CacheClosed(h: Heap, vs: seq<Val>, st: State, st': State, out: seq<CopiedVal>)
    requires Isomorphic(h, vs, st, st', out)
    ensures Closed(h, st'.cache.Keys) && AllWithin(vs, st'.cache.Keys) && !HoldsThread(h, st'.cache.Keys)
  {
    forall s | s in st'.cache ensures forall i :: 0 <= i < |h[s]| && h[s][i].0.Basic? ==>
      Settled(h[s][i].1, st'.cache) {
      assert Complete(h, st'.dest, st'.cache, s);
    }
  }

  /** The values are copied to `out`, and each table of the cache to a table that was not there. */
  ghost predicate AllCopied(h: Heap, vs: seq<Val>, dest: CopiedHeap, st: State, out: seq<CopiedVal>) {
    && |out| == |vs| && (forall i :: 0 <= i < |vs| ==> Copies(vs[i], out[i], st.cache))
    && (forall s :: s in st.cache ==>
          s in h && st.cache[s] in st.dest && st.cache[s] !in dest && TableCopies(h[s], st.dest[st.cache[s]], st.cache))
    && (forall s, t :: s in st.cache && t in st.cache && s != t ==> st.cache[s] != st.cache[t])
    && (forall d :: d in dest ==> d in st.dest && st.dest[d] == dest[d])
  }

  lemma IsomorphicCopies(h: Heap, vs: seq<Val>, st: State, st': State, out: seq<CopiedVal>)
    requires HeapOk(h) && Isomorphic(h, vs, st, st', out)
    ensures AllCopied(h, vs, st.dest, st', out)
  {
    forall i | 0 <= i < |vs| ensures Copies(vs[i], out[i], st'.cache) { SettledCopies(vs[i], st'.cache); }
    forall s | s in st'.cache
      ensures s in h && st'.cache[s] in st'.dest && TableCopies(h[s], st'.dest[st'.cache[s]], st'.cache)
    {
      assert Complete(h, st'.dest, st'.cache, s);
      CompleteCopies(h, st'.dest, st'.cache, s);
    }
    hide Complete, TableCopies, Copies, HeapOk;
  }

  /** luaG_inter_copy (tools.c:1143-1192): one cache for all the values. It fails exactly when some value is
      a thread or leads to one. */
  method InterCopy(source: Heap, vs: seq<Val>, dest: CopiedHeap, next: Id) returns (r: Option<(seq<CopiedVal>, State)>)
    requires HeapOk(source) && (forall i :: 0 <= i < |vs| ==> ValOk(source, vs[i]))
    requires forall d :: d in dest ==> d < next
    ensures r.Some? ==> Isomorphic(source, vs, State(dest, map[], next), r.value.1, r.value.0)
    ensures r.Some? ==> AllCopied(source, vs, dest, r.value.1, r.value.0)
    ensures r.None? <==> exists i :: 0 <= i < |vs| && LeadsToThread(source, vs[i])
  {
    hide LeadsToThread, Confined, AllCopied;
    var st0 := State(dest, map[], next);
    var cp := new Copier(source, st0);
    var out := [];
    NothingCopied(source, st0);
    for i := 0 to |vs|
      invariant |out| == i && cp.source == source && StateOk(source, cp.st) && Grew(source, st0, cp.st, {})
      invariant forall k :: 0 <= k < i ==> Settled(vs[k], cp.st.cache) && out[k] == Image(vs[k], cp.st.cache)
      invariant ConfinedAll(source, cp.st, vs[..i])
    {
      ghost var st1 := cp.st;
      var o := cp.CopyOne(vs[i]);
      if o == None { return None; }
      out := out + [o.value];
      GrewTrans(source, st0, st1, cp.st, {});
      ConfinedNext(source, st1, cp.st, vs, i);
    }
    assert vs[..|vs|] == vs;
    r := Some((out, cp.st));
    assert Isomorphic(source, vs, st0, cp.st, out);
    IsomorphicCopies(source, vs, st0, cp.st, out);
    forall k | 0 <= k < |vs| ensures !LeadsToThread(source, vs[k]) {
      CacheClosed(source, vs, st0, cp.st, out);
      NoThread(source, vs[k], cp.st.cache);
    }
  }

  ghost predicate ConfinedAll(h: Heap, st: State, vs: seq<Val>) {
    forall ts: set<Id> :: Closed(h, ts) && AllWithin(vs, ts) ==> st.cache.Keys <= ts
  }

  lemma NothingCopied(h: Heap, st: State)
    requires st.cache == map[]
    ensures Grew(h, st, st, {}) && ConfinedAll(h, st, [])
  {}

  lemma ConfinedNext(h: Heap, st: State, st': State, vs: seq<Val>, i: nat)
    requires i < |vs| && ConfinedAll(h, st, vs[..i]) && Confined(h, st, st', vs[i])
    ensures ConfinedAll(h, st', vs[..i + 1])
  {
    forall ts: set<Id> | Closed(h, ts) && AllWithin(vs[..i + 1], ts) ensures st'.cache.Keys <= ts {
      assert forall k :: 0 <= k < i ==> vs[..i][k] == vs[..i + 1][k];
      assert AllWithin(vs[..i], ts);
      assert vs[..i + 1][i] == vs[i];
      assert Within(vs[i], ts);
    }
  }

  lemma GrewTrans(h: Heap, st: State, st1: State, st2: State, except: set<Id>)
    requires StateOk(h, st1) && Grew(h, st, st1, except) && Grew(h, st1, st2, {})
    ensures Grew(h, st, st2, except)
  {
    forall u | u in st2.cache && u !in st.cache && u !in except ensures Complete(h, st2.dest, st2.cache, u) {
      if u in st1.cache { CompleteExtends(h, st1.dest, st1.cache, st2.dest, st2.cache, u); }
    }
    forall d | d in st.dest ensures d in st2.dest && st2.dest[d] == st.dest[d] {
      assert st1.dest[d] == st.dest[d];
    }
  }

  lemma NoThread(h: Heap, v: Val, c: Cache)
    requires Settled(v, c) && Closed(h, c.Keys) && !HoldsThread(h, c.Keys)
    ensures !LeadsToThread(h, v)
  {}
}
