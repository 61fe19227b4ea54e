/** Tables as finite maps over whole histories, traversal with luaH_next, and the length operator
    (ltable.c:137-179, 327-330, 358-371, 532-576). */
module TableTraverse {
  import opened TableModel
  import opened TableHash
  import opened TableCount
  import opened TableSet
  import opened TableRehash

  // ----- storing, over all histories -----

  /** A store `t[k] = v`: luaH_set and an assignment to the slot it returns. */
  method Put(tb: Table, k: Key, v: Option<Value>) returns (r: SetResult)
    requires TabOk(tb.hash, tb.t, tb.chain)
    modifies tb`t, tb`chain
    ensures r.NilIndex? <==> k == KNil
    ensures r.NanIndex? <==> k == KNaN
    ensures r.NilIndex? || r.NanIndex? ==> tb.t == old(tb.t) && tb.chain == old(tb.chain)
    ensures r.At? ==> TabOk(tb.hash, tb.t, tb.chain) && ValueSet(old(tb.t), tb.t, k, v)
    ensures r.At? ==> ValueOf(tb.t, k) == v && forall k' :: k' != k ==> ValueOf(tb.t, k') == ValueOf(old(tb.t), k')
    ensures r.Overflow? ==> |Live(old(tb.t))| >= 67108864
  {
    hide TabOk, ValueOf, Live;
    r := Set(tb, k, false);
    if r.At? {
      SlotInRange(tb.t, r.s, k);
      StoreTab(tb.hash, tb.t, tb.chain, r.s, k, v);
      tb.t := StoredTab(tb.t, r.s, v);
    }
  }

  /** luaH_new with sizes for both parts (ltable.c:358-371). */
  method New(tb: Table, narray: nat, nhash: nat) returns (ok: bool)
    requires narray <= 67108864
    modifies tb`t, tb`chain
    ensures ok <==> nhash <= 67108864
    ensures ok ==> TabOk(tb.hash, tb.t, tb.chain) && forall k :: ValueOf(tb.t, k) == None
  {
    tb.t := Tab(Nones(narray), [], 0, true);
    ok := SetNodeVector(tb, nhash);
  }

  /** luaH_resizearray (ltable.c:327-330), for growing the array part, which is all SETLIST asks of it. */
  method ResizeArray(tb: Table, nasize: nat) returns (ok: bool)
    requires TabOk(tb.hash, tb.t, tb.chain) && |tb.t.arr| <= nasize <= 67108864
    modifies tb`t, tb`chain
    ensures !ok ==> old(|tb.t.node|) > 67108864
    ensures ok ==> TabOk(tb.hash, tb.t, tb.chain) && SameMap(old(tb.t), tb.t) && |tb.t.arr| == nasize
  {
    hide TabOk, Live, Outside, SameMap, Room;
    var nsize := if tb.t.dummy then 0 else |tb.t.node|;
    HashLive(tb.hash, tb.t, tb.chain, nasize);
    ok := Resize(tb, nasize, nsize, Live(tb.t));
  }

  lemma HashLive(hash: Hash, t: Tab, chain: Chains, n: nat)
    requires TabOk(hash, t, chain) && |t.arr| <= n
    ensures |Outside(Live(t), n)| <= if t.dummy then 0 else |t.node|
  {
    hide HashKey;
    LiveCard(t.node, 0);
    if t.dummy {
      NoDummyLive(hash, t, chain);
      assert Outside(Live(t), n) == {};
    } else {
      assert Outside(Live(t), n) <= LiveFrom(t.node, 0);
      CardMono(Outside(Live(t), n), LiveFrom(t.node, 0));
    }
  }

  lemma NoDummyLive(hash: Hash, t: Tab, chain: Chains)
    requires TabOk(hash, t, chain) && t.dummy
    ensures LiveFrom(t.node, 0) == {}
  {}

  lemma {:induction false} LiveCard(node: seq<Node>, m: nat)
    requires m <= |node|
    ensures |LiveFrom(node, m)| <= |node| - m
    decreases |node| - m
  {
    if m < |node| {
      LiveCard(node, m + 1);
      var rest := LiveFrom(node, m + 1);
      assert LiveFrom(node, m) == if node[m].val.Some? then rest + {node[m].key} else rest;
    } else {
      assert LiveFrom(node, m) == {};
    }
  }

  /** A history: the stores made, in order. */
  type History = seq<(Key, Option<Value>)>

  /** The map after a history: the last store to each key, where storing under nil or NaN is an error and
      changes nothing. */
  ghost function Replay(h: History, k: Key): Option<Value> {
    if h == [] || k == KNil || k == KNaN then None
    else if h[|h| - 1].0 == k then h[|h| - 1].1
    else Replay(h[..|h| - 1], k)
  }

  /** The map after one more store. */
  lemma ReplayMeans(h: History, k: Key, v: Option<Value>, k': Key)
    ensures Replay([], k') == None && Replay(h, KNil) == None && Replay(h, KNaN) == None
    ensures k != KNil && k != KNaN ==> Replay(h + [(k, v)], k) == v
    ensures k' != k ==> Replay(h + [(k, v)], k') == Replay(h, k')
  {
    assert (h + [(k, v)])[..|h|] == h;
  }

  /** What the map of a table is made of: the slots of the array part for 1..n, and the nodes. */
  lemma ValueMeans(hash: Hash, t: Tab, chain: Chains, k: Key)
    requires TabOk(hash, t, chain)
    ensures k.KInt? && 1 <= k.n <= |t.arr| ==> ValueOf(t, k) == t.arr[k.n - 1]
    ensures forall i :: 0 <= i < |t.node| && t.node[i].key == k && k != KNil && !(k.KInt? && 1 <= k.n <= |t.arr|) ==>
      ValueOf(t, k) == t.node[i].val
    ensures (forall i :: 0 <= i < |t.node| ==> t.node[i].key != k) && !(k.KInt? && 1 <= k.n <= |t.arr|) ==>
      ValueOf(t, k) == None
  {
    forall i | 0 <= i < |t.node| && t.node[i].key == k && k != KNil && !(k.KInt? && 1 <= k.n <= |t.arr|)
      ensures ValueOf(t, k) == t.node[i].val
    {
      KeyAt(hash, t, chain, k, i);
    }
  }

  ghost predicate StandsFor(t: Tab, h: History) {
    forall k :: ValueOf(t, k) == Replay(h, k)
  }

  lemma StoreReplayed(t: Tab, t': Tab, h: History, op: (Key, Option<Value>))
    requires StandsFor(t, h)
    requires if op.0 == KNil || op.0 == KNaN then t' == t else ValueSet(t, t', op.0, op.1)
    ensures StandsFor(t', h + [op])
  {
    var h' := h + [op];
    assert h'[..|h|] == h;
    forall k ensures ValueOf(t', k) == Replay(h', k) {
      assert ValueOf(t, k) == Replay(h, k);
    }
  }

  ghost function Stored(h: History): set<Key> { set i | 0 <= i < |h| :: h[i].0 }

  lemma {:induction false} StoredCard(h: History)
    ensures |Stored(h)| <= |h|
    decreases |h|
  {
    if h == [] {
      assert Stored(h) == {};
    } else {
      var last := |h| - 1;
      StoredCard(h[..last]);
      assert Stored(h) == Stored(h[..last]) + {h[last].0};
    }
  }

  lemma {:induction false} ReplayStored(h: History, k: Key)
    ensures Replay(h, k).Some? ==> k in Stored(h)
    decreases |h|
  {
    if h != [] && k != KNil && k != KNaN {
      var last := |h| - 1;
      assert h[last].0 in Stored(h);
      ReplayStored(h[..last], k);
      assert Stored(h[..last]) <= Stored(h);
    }
  }

  /** A table has no more keys than were stored. */
  lemma FewLive(hash: Hash, t: Tab, chain: Chains, h: History)
    requires TabOk(hash, t, chain) && StandsFor(t, h)
    ensures |Live(t)| <= |h|
  {
    forall k | k in Live(t) ensures k in Stored(h) {
      LiveMeans(hash, t, chain, k);
      ReplayStored(h, k);
    }
    CardMono(Live(t), Stored(h));
    StoredCard(h);
  }

  /** Every history of stores, short of overflow, is one of map updates: what luaH_get then finds under
      a key is what was last stored there. */
  method RunHistory(tb: Table, narray: nat, nhash: nat, h: History) returns (ok: bool)
    requires narray <= 67108864
    modifies tb`t, tb`chain
    ensures ok ==> TabOk(tb.hash, tb.t, tb.chain) && StandsFor(tb.t, h)
    ensures !ok ==> nhash > 67108864 || |h| > 67108864
    ensures nhash > 67108864 ==> !ok
  {
    hide TabOk, ValueSet, Live;
    ok := New(tb, narray, nhash);
    assert ok ==> StandsFor(tb.t, h[..0]);
    hide StandsFor;
    if !ok { return; }
    for i := 0 to |h|
      invariant TabOk(tb.hash, tb.t, tb.chain) && StandsFor(tb.t, h[..i])
    {
      ghost var t0, chain0 := tb.t, tb.chain;
      var r := Put(tb, h[i].0, h[i].1);
      if r.Overflow? {
        FewLive(tb.hash, t0, chain0, h[..i]);
        return false;
      }
      StoreReplayed(t0, tb.t, h[..i], h[i]);
      assert h[..i] + [h[i]] == h[..i + 1];
    }
    assert h[..|h|] == h;
  }

  // ----- traversal -----

  /** The entries in traversal order: the array part, then the nodes. */
  function EntryKey(t: Tab, j: nat): Key
    requires j < |t.arr| + |t.node|
  {
    if j < |t.arr| then KInt(j + 1) else t.node[j - |t.arr|].key
  }

  function EntryValue(t: Tab, j: nat): Option<Value>
    requires j < |t.arr| + |t.node|
  {
    if j < |t.arr| then t.arr[j] else t.node[j - |t.arr|].val
  }

  /** The keys with a value among the first `n` entries. */
  ghost function Visited(t: Tab, n: nat): seq<Key>
    requires n <= |t.arr| + |t.node|
  {
    if n == 0 then []
    else if EntryValue(t, n - 1).Some? then Visited(t, n - 1) + [EntryKey(t, n - 1)]
    else Visited(t, n - 1)
  }

  datatype NextResult = More(key: Key, value: Value) | Done | BadKey

  ghost predicate KeyIndex(t: Tab, k: Key, j: int) {
    if k == KNil then j == -1
    else 0 <= j < |t.arr| + |t.node| && EntryKey(t, j) == k
  }

  /** findindex (ltable.c:137-159) */
  method FindIndex(tb: Table, k: Key) returns (ok: bool, j: int)
    requires tb.Valid()
    ensures ok <==> k == KNil || InArray(tb.t, k) || Present(tb.t, k)
    ensures ok ==> KeyIndex(tb.t, k, j)
  {
    hide HashOk;
    if k == KNil {
      return true, -1;
    } else if k.KInt? && 0 < k.n <= |tb.t.arr| {
      return true, k.n - 1;
    } else {
      var i := tb.FindNode(k);
      if i == -1 { return false, 0; }
      return true, i + |tb.t.arr|;
    }
  }

  /** Whether the entries from `a` to `b` have no value. */
  ghost predicate Gap(t: Tab, a: nat, b: nat) {
    b <= |t.arr| + |t.node| && forall j :: a <= j < b ==> EntryValue(t, j) == None
  }

  lemma {:induction false} GapVisited(t: Tab, a: nat, b: nat)
    requires a <= b && Gap(t, a, b)
    ensures Visited(t, b) == Visited(t, a)
  {
    if a < b { GapVisited(t, a, b - 1); }
  }

  /** luaH_next (ltable.c:162-179): the next key with a value after `k` in traversal order. */
  method Next(tb: Table, k: Key) returns (r: NextResult, ghost i: int, ghost j: int)
    requires tb.Valid()
    ensures r == BadKey <==> !(k == KNil || InArray(tb.t, k) || Present(tb.t, k))
    ensures r != BadKey ==> KeyIndex(tb.t, k, i) && i < j
    ensures r == Done ==> j == |tb.t.arr| + |tb.t.node| && Gap(tb.t, i + 1, j)
    ensures r.More? ==> j < |tb.t.arr| + |tb.t.node| && Gap(tb.t, i + 1, j)
    ensures r.More? ==> EntryKey(tb.t, j) == r.key && EntryValue(tb.t, j) == Some(r.value)
  {
    hide HashOk;
    var ok, c := FindIndex(tb, k);
    i, j := c, c;
    if !ok { return BadKey, i, j; }
    c := c + 1;
    while c < |tb.t.arr|
      invariant i < c <= |tb.t.arr| + |tb.t.node| && Gap(tb.t, i + 1, c)
    {
      if tb.t.arr[c].Some? { return More(KInt(c + 1), tb.t.arr[c].value), i, c; }
      c := c + 1;
    }
    c := c - |tb.t.arr|;
    while c < |tb.t.node|
      invariant 0 <= c <= |tb.t.node| && i < c + |tb.t.arr| && Gap(tb.t, i + 1, c + |tb.t.arr|)
    {
      if tb.t.node[c].val.Some? { return More(tb.t.node[c].key, tb.t.node[c].val.value), i, c + |tb.t.arr|; }
      c := c + 1;
    }
    return Done, i, c + |tb.t.arr|;
  }

  /** A key sits in one entry only. */
  lemma KeyIndexUnique(hash: Hash, t: Tab, chain: Chains, k: Key, i: int, j: int)
    requires TabOk(hash, t, chain) && KeyIndex(t, k, i) && KeyIndex(t, k, j)
    ensures i == j
  {
    if k != KNil {
      if i >= |t.arr| { assert HashKey(t, t.node[i - |t.arr|].key); }
      if j >= |t.arr| { assert HashKey(t, t.node[j - |t.arr|].key); }
    }
  }

  /** Entry `j` gives `k` a value. */
  predicate EntryIs(t: Tab, j: nat, k: Key) {
    j < |t.arr| + |t.node| && EntryKey(t, j) == k && EntryValue(t, j).Some?
  }

  lemma {:induction false} VisitedKeys(t: Tab, n: nat, k: Key)
    requires n <= |t.arr| + |t.node|
    ensures k in Visited(t, n) <==> exists j :: 0 <= j < n && EntryIs(t, j, k)
  {
    if n > 0 {
      VisitedKeys(t, n - 1, k);
      VisitedNext(t, n, k);
      hide EntryIs, Visited;
    }
  }

  lemma VisitedNext(t: Tab, n: nat, k: Key)
    requires 0 < n <= |t.arr| + |t.node|
    ensures k in Visited(t, n) <==> k in Visited(t, n - 1) || EntryIs(t, n - 1, k)
  {
    var v := Visited(t, n - 1);
    assert Visited(t, n) == if EntryValue(t, n - 1).Some? then v + [EntryKey(t, n - 1)] else v;
    hide Visited, EntryValue, EntryKey;
  }

  ghost predicate NoRepeats(s: seq<Key>) { forall i, j :: 0 <= i < j < |s| ==> s[i] != s[j] }

  lemma {:induction false} VisitedOnce(hash: Hash, t: Tab, chain: Chains, n: nat)
    requires TabOk(hash, t, chain) && n <= |t.arr| + |t.node|
    ensures NoRepeats(Visited(t, n))
  {
    if n > 0 {
      VisitedOnce(hash, t, chain, n - 1);
      if EntryValue(t, n - 1).Some? {
        var k := EntryKey(t, n - 1);
        EntryUsable(hash, t, chain, n - 1);
        if k in Visited(t, n - 1) {
          VisitedKeys(t, n - 1, k);
          var j :| 0 <= j < n - 1 && EntryIs(t, j, k);
          KeyIndexUnique(hash, t, chain, k, j, n - 1);
        }
      }
    }
  }

  lemma EntryUsable(hash: Hash, t: Tab, chain: Chains, j: nat)
    requires TabOk(hash, t, chain) && j < |t.arr| + |t.node| && EntryValue(t, j).Some?
    ensures EntryKey(t, j) != KNil && KeyIndex(t, EntryKey(t, j), j)
    ensures ValueOf(t, EntryKey(t, j)) == EntryValue(t, j)
    ensures InArray(t, EntryKey(t, j)) || Present(t, EntryKey(t, j))
  {
    if j >= |t.arr| {
      ValuedHasKey(hash, t, chain, j - |t.arr|);
      KeyAt(hash, t, chain, EntryKey(t, j), j - |t.arr|);
    }
  }

  /** Visiting every entry visits the live keys. */
  lemma VisitedAll(hash: Hash, t: Tab, chain: Chains, k: Key)
    requires TabOk(hash, t, chain)
    ensures k in Visited(t, |t.arr| + |t.node|) <==> ValueOf(t, k).Some?
  {
    hide HashOk, Visited;
    var n := |t.arr| + |t.node|;
    VisitedKeys(t, n, k);
    if k in Visited(t, n) {
      var j :| 0 <= j < n && EntryIs(t, j, k);
      EntryUsable(hash, t, chain, j);
    }
    if ValueOf(t, k).Some? {
      if InArray(t, k) {
        assert EntryIs(t, k.n - 1, k);
      } else {
        var i :| HasKey(t, k, i);
        KeyAt(hash, t, chain, k, i);
        assert EntryIs(t, i + |t.arr|, k);
      }
    }
  }

  /** The loop of a generic `for` over next: from nil, feeding each key back, every key with a value is
      visited exactly once, with its value, and then the traversal stops. */
  method Traverse(tb: Table) returns (ks: seq<Key>, vs: seq<Value>)
    requires tb.Valid()
    ensures NoRepeats(ks) && |vs| == |ks|
    ensures forall k :: k in ks <==> ValueOf(tb.t, k).Some?
    ensures forall i :: 0 <= i < |ks| ==> ValueOf(tb.t, ks[i]) == Some(vs[i])
  {
    hide TabOk, ValueOf, NoRepeats, Present;
    ks, vs := [], [];
    var k := KNil;
    ghost var at := -1;
    assert KeyIndex(tb.t, k, at);
    while true
      invariant -1 <= at < |tb.t.arr| + |tb.t.node| && KeyIndex(tb.t, k, at)
      invariant k == KNil || InArray(tb.t, k) || Present(tb.t, k)
      invariant ks == Visited(tb.t, at + 1) && |vs| == |ks|
      invariant forall i :: 0 <= i < |ks| ==> ValueOf(tb.t, ks[i]) == Some(vs[i])
      decreases |tb.t.arr| + |tb.t.node| - at
    {
      var r, i, j := Next(tb, k);
      KeyIndexUnique(tb.hash, tb.t, tb.chain, k, i, at);
      GapVisited(tb.t, at + 1, j);
      if r == Done { break; }
      EntryUsable(tb.hash, tb.t, tb.chain, j);
      ks, vs := ks + [r.key], vs + [r.value];
      k, at := r.key, j;
    }
    VisitedOnce(tb.hash, tb.t, tb.chain, |tb.t.arr| + |tb.t.node|);
    forall k { VisitedAll(tb.hash, tb.t, tb.chain, k); }
  }

  // ----- the length operator -----

  const MAX_INT := 0x7fff_fffd

  ghost predicate Filled(t: Tab, n: int) { ValueOf(t, KInt(n)).Some? }

  /** `n` is a border: it is 0 or has a value, and `n + 1` has none. */
  ghost predicate Boundary(t: Tab, n: nat) { (n == 0 || Filled(t, n)) && !Filled(t, n + 1) }

  lemma FirstLive(hash: Hash, t: Tab, chain: Chains, n: nat)
    requires TabOk(hash, t, chain) && forall x :: 1 <= x <= n ==> Filled(t, x)
    ensures n <= |Live(t)|
  {
    hide TabOk, ValueOf, Live;
    forall k | k in ArrRange(n) ensures k in Live(t) {
      assert Filled(t, k.n);
      LiveMeans(hash, t, chain, k);
    }
    RangeCard(n);
    CardMono(ArrRange(n), Live(t));
  }

  lemma {:induction false} RangeCard(n: nat)
    ensures |ArrRange(n)| == n
  {
    if n > 0 {
      RangeCard(n - 1);
      assert ArrRange(n) == ArrRange(n - 1) + {KInt(n)};
    } else {
      assert ArrRange(0) == {};
    }
  }

  /** unbound_search (ltable.c:532-553) */
  method UnboundSearch(tb: Table, j0: nat) returns (i: nat)
    requires tb.Valid() && (j0 == 0 || Filled(tb.t, j0))
    ensures Boundary(tb.t, i)
  {
    hide TabOk, ValueOf, Live;
    i := j0;
    var j := j0 + 1;
    var v := tb.Get(KInt(j));
    while v != None
      invariant j > i && (i == 0 || Filled(tb.t, i)) && v == ValueOf(tb.t, KInt(j))
      decreases MAX_INT - j
    {
      i := j;
      j := j * 2;
      if j > MAX_INT {
        i := LinearSearch(tb);
        return;
      }
      v := tb.Get(KInt(j));
    }
    while j - i > 1
      invariant j > i && (i == 0 || Filled(tb.t, i)) && !Filled(tb.t, j)
    {
      var m := (i + j) / 2;
      v := tb.Get(KInt(m));
      if v == None { j := m; } else { i := m; }
    }
  }

  /** The fallback of unbound_search: it ends because a table has finitely many keys. */
  method LinearSearch(tb: Table) returns (n: nat)
    requires tb.Valid()
    ensures Boundary(tb.t, n) && forall x :: 1 <= x <= n ==> Filled(tb.t, x)
  {
    hide TabOk, ValueOf, Live;
    var i := 1;
    var v := tb.Get(KInt(i));
    while v != None
      invariant i >= 1 && v == ValueOf(tb.t, KInt(i)) && forall x :: 1 <= x < i ==> Filled(tb.t, x)
      decreases |Live(tb.t)| - i
    {
      FirstLive(tb.hash, tb.t, tb.chain, i);
      i := i + 1;
      v := tb.Get(KInt(i));
    }
    n := i - 1;
  }

  /** luaH_getn (ltable.c:560-576) */
  method GetN(tb: Table) returns (n: nat)
    requires tb.Valid()
    ensures Boundary(tb.t, n)
  {
    hide HashOk;
    var j := |tb.t.arr|;
    if j > 0 && tb.t.arr[j - 1] == None {
      var i := 0;
      while j - i > 1
        invariant 0 <= i < j <= |tb.t.arr| && (i == 0 || Filled(tb.t, i)) && !Filled(tb.t, j)
      {
        var m := (i + j) / 2;
        if tb.t.arr[m - 1] == None { j := m; } else { i := m; }
      }
      n := i;
    } else if tb.t.dummy {
      var k := KInt(j + 1);
      assert forall i :: !HasKey(tb.t, k, i);
      n := j;
    } else {
      n := UnboundSearch(tb, j);
    }
  }
}
