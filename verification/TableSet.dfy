/** Adding keys and rehashing (ltable.c:247-429, 494-517). Reinserting the old keys during a rehash uses
    the same code that starts rehashes; `nested` marks those calls, which always find a free position. */
module TableSet {
  import opened TableModel
  import opened TableHash
  import opened TableCount

  // ----- the keys of a table -----

  ghost function ArrRange(n: nat): set<Key> { set i: int | 1 <= i <= n :: KInt(i) }

  ghost function ArrLive(arr: seq<Option<Value>>): set<Key> {
    set i: int | 1 <= i <= |arr| && SlotUsed(arr, i) :: KInt(i)
  }

  /** The keys with a value. */
  ghost function Live(t: Tab): set<Key> { ArrLive(t.arr) + LiveFrom(t.node, 0) }

  /** Live keys are those the map gives a value. */
  lemma LiveMeans(hash: Hash, t: Tab, chain: Chains, k: Key)
    requires TabOk(hash, t, chain)
    ensures k in Live(t) <==> ValueOf(t, k).Some?
  {
    hide HashOk;
    if k in LiveFrom(t.node, 0) {
      var i: nat :| i < |t.node| && t.node[i].val.Some? && t.node[i].key == k;
      ValuedHasKey(hash, t, chain, i);
      KeyAt(hash, t, chain, k, i);
      assert HashKey(t, t.node[i].key);
    }
    if k in ArrLive(t.arr) { assert InArray(t, k); }
    if !InArray(t, k) && Present(t, k) {
      var i :| HasKey(t, k, i);
      KeyAt(hash, t, chain, k, i);
    }
  }

  predicate InRange(k: Key, n: int) { k.KInt? && 1 <= k.n <= n }

  ghost function Outside(ks: set<Key>, n: nat): set<Key> { set k | k in ks && !InRange(k, n) }

  /** There is a position for `k`. */
  ghost predicate Room(t: Tab, k: Key) {
    InArray(t, k) || Present(t, k) || (!t.dummy && exists i :: 0 <= i < |t.node| && IsFree(t.node[i]))
  }

  // ----- free positions -----

  ghost predicate DistinctKeys(node: seq<Node>) {
    forall i, j :: 0 <= i < j < |node| && node[i].key == node[j].key ==> IsFree(node[i])
  }

  lemma {:induction false} FullCard(node: seq<Node>)
    requires DistinctKeys(node) && forall i :: 0 <= i < |node| ==> !IsFree(node[i])
    ensures |UsedKeys(node)| == |node|
  {
    if node == [] {
      assert UsedKeys(node) == {};
    } else {
      var last := |node| - 1;
      var init := node[..last];
      assert forall i :: 0 <= i < last ==> init[i] == node[i];
      FullCard(init);
      assert UsedKeys(node) == UsedKeys(init) + {node[last].key};
    }
  }

  /** With fewer keys than nodes, a node is free. */
  lemma SomeFree(node: seq<Node>, ks: set<Key>)
    requires DistinctKeys(node) && UsedKeys(node) <= ks && |ks| < |node|
    ensures exists i :: 0 <= i < |node| && IsFree(node[i])
  {
    if forall i :: 0 <= i < |node| ==> !IsFree(node[i]) {
      FullCard(node);
      CardMono(UsedKeys(node), ks);
    }
  }

  lemma CardMono(a: set<Key>, b: set<Key>)
    requires a <= b
    ensures |a| <= |b|
  {
    assert b == a + (b - a);
  }

  // ----- storing a value -----

  function StoredTab(t: Tab, s: Slot, v: Option<Value>): Tab
    requires s.ArraySlot? ==> s.i < |t.arr|
    requires s.NodeSlot? ==> s.i < |t.node|
  {
    match s
    case NilObject => t
    case ArraySlot(i) => t.(arr := t.arr[i := v])
    case NodeSlot(i) => t.(node := t.node[i := t.node[i].(val := v)])
  }

  ghost predicate ValueSet(t: Tab, t': Tab, k: Key, v: Option<Value>) {
    forall k' :: ValueOf(t', k') == if k' == k then v else ValueOf(t, k')
  }

  /** The same keys and links; nodes without a key stay without a value. */
  ghost predicate SameSkeleton(node: seq<Node>, node': seq<Node>) {
    |node'| == |node| && forall j :: 0 <= j < |node| ==> SameShape(node[j], node'[j])
  }

  predicate SameShape(n: Node, n': Node) { n'.key == n.key && n'.next == n.next && (IsFree(n) ==> n'.val == n.val) }

  lemma SkeletonChains(node: seq<Node>, node': seq<Node>, chain: Chains)
    requires SameSkeleton(node, node') && ChainsOk(node, chain)
    ensures ChainsOk(node', chain)
  {
    forall j | 0 <= j < |node'| ensures -1 <= node'[j].next < |node'| && ChainAt(node', chain, j) {
      assert SameShape(node[j], node'[j]) && ChainAt(node, chain, j);
    }
  }

  lemma SkeletonLinks(node: seq<Node>, node': seq<Node>)
    requires SameSkeleton(node, node') && LinksOk(node)
    ensures LinksOk(node')
  {
    forall i, j | 0 <= i < j < |node'| && node'[i].next == node'[j].next ensures node'[i].next == -1 {
      assert SameShape(node[i], node'[i]) && SameShape(node[j], node'[j]);
    }
    forall i | 0 <= i < |node'| ensures IsFree(node'[i]) ==> node'[i].val == None && node'[i].next == -1 {
      assert SameShape(node[i], node'[i]);
    }
    forall i | 0 <= i < |node'| && 0 <= node'[i].next < |node'| ensures !IsFree(node'[node'[i].next]) {
      assert SameShape(node[i], node'[i]) && SameShape(node[node[i].next], node'[node[i].next]);
    }
  }

  lemma SkeletonKeys(hash: Hash, node: seq<Node>, node': seq<Node>, chain: Chains)
    requires SameSkeleton(node, node') && ChainsOk(node, chain) && ChainsOk(node', chain) && KeysOk(hash, node, chain)
    ensures KeysOk(hash, node', chain)
  {
    hide MainPosition, ChainsOk;
    forall i, j | 0 <= i < j < |node'| && node'[i].key == node'[j].key ensures IsFree(node'[i]) {
      assert SameShape(node[i], node'[i]) && SameShape(node[j], node'[j]);
    }
    forall j | 0 <= j < |node'| && !IsFree(node'[j]) ensures Placed(hash, node', chain, j) {
      assert SameShape(node[j], node'[j]) && Placed(hash, node, chain, j);
      var m := MainPosition(hash, node[j].key, |node|);
      assert SameShape(node[m], node'[m]);
    }
  }

  lemma StoreHash(hash: Hash, node: seq<Node>, chain: Chains, i: nat, v: Option<Value>)
    requires HashOk(hash, node, chain) && i < |node| && !IsFree(node[i])
    ensures HashOk(hash, node[i := node[i].(val := v)], chain)
  {
    var node' := node[i := node[i].(val := v)];
    assert SameSkeleton(node, node');
    hide ChainsOk, LinksOk, KeysOk, SameSkeleton;
    SkeletonChains(node, node', chain);
    SkeletonLinks(node, node');
    SkeletonKeys(hash, node, node', chain);
  }

  lemma StoreOk(hash: Hash, t: Tab, chain: Chains, s: Slot, k: Key, v: Option<Value>)
    requires TabOk(hash, t, chain) && SlotFor(t, s, k) && s != NilObject
    ensures TabOk(hash, StoredTab(t, s, v), chain) && UsedKeys(StoredTab(t, s, v).node) == UsedKeys(t.node)
  {
    var t' := StoredTab(t, s, v);
    if s.NodeSlot? {
      StoreHash(hash, t.node, chain, s.i, v);
    }
    hide HashOk, UsedKeys;
    assert |t'.arr| == |t.arr| && |t'.node| == |t.node| && t'.lastfree == t.lastfree && t'.dummy == t.dummy;
    assert forall i :: 0 <= i < |t.node| ==> t'.node[i].key == t.node[i].key;
    StoreUsed(t, t');
    StoreKeys(t, t');
  }

  lemma StoreKeys(t: Tab, t': Tab)
    requires |t'.arr| == |t.arr| && |t'.node| == |t.node| && t'.lastfree == t.lastfree && t'.dummy == t.dummy
    requires FreePointerOk(t)
    requires forall i :: 0 <= i < |t.node| ==> t'.node[i].key == t.node[i].key
    requires forall i :: 0 <= i < |t.node| ==> HashKey(t, t.node[i].key)
    ensures FreePointerOk(t') && forall i :: 0 <= i < |t'.node| ==> HashKey(t', t'.node[i].key)
  {
    forall i | 0 <= i < |t'.node| ensures HashKey(t', t'.node[i].key) { assert HashKey(t, t.node[i].key); }
  }

  lemma StoreTab(hash: Hash, t: Tab, chain: Chains, s: Slot, k: Key, v: Option<Value>)
    requires TabOk(hash, t, chain) && SlotFor(t, s, k) && s != NilObject
    ensures var t' := StoredTab(t, s, v);
      TabOk(hash, t', chain) && ValueSet(t, t', k, v) && UsedKeys(t'.node) == UsedKeys(t.node)
  {
    StoreOk(hash, t, chain, s, k, v);
    hide TabOk, UsedKeys, ValueOf, StoredTab;
    forall k' ensures ValueOf(StoredTab(t, s, v), k') == if k' == k then v else ValueOf(t, k') {
      StoreValue(hash, t, chain, s, k, v, k');
    }
  }

  lemma StoreUsed(t: Tab, t': Tab)
    requires |t'.node| == |t.node| && forall i :: 0 <= i < |t.node| ==> t'.node[i].key == t.node[i].key
    ensures UsedKeys(t'.node) == UsedKeys(t.node)
  {}

  lemma StoreValue(hash: Hash, t: Tab, chain: Chains, s: Slot, k: Key, v: Option<Value>, k': Key)
    requires TabOk(hash, t, chain) && SlotFor(t, s, k) && s != NilObject
    requires TabOk(hash, StoredTab(t, s, v), chain)
    ensures ValueOf(StoredTab(t, s, v), k') == if k' == k then v else ValueOf(t, k')
  {
    hide HashOk;
    var t' := StoredTab(t, s, v);
    assert forall i :: HasKey(t', k', i) <==> HasKey(t, k', i);
    if !InArray(t, k') && Present(t, k') {
      var i :| HasKey(t, k', i);
      KeyAt(hash, t, chain, k', i);
      assert HasKey(t', k', i);
      KeyAt(hash, t', chain, k', i);
    }
  }

  // ----- adding a key -----

  datatype SetResult = At(s: Slot) | NilIndex | NanIndex | Overflow

  /** The table has a slot for `k` and stands for the map it stood for. */
  ghost predicate SlotMade(hash: Hash, t: Tab, t': Tab, chain': Chains, s: Slot, k: Key) {
    TabOk(hash, t', chain') && SameMap(t, t') && s != NilObject && SlotFor(t', s, k)
  }

  /** The vectors keep their sizes and only `k` may have been added. */
  ghost predicate InPlace(t: Tab, t': Tab, k: Key) {
    && t'.arr == t.arr && t'.dummy == t.dummy && |t'.node| == |t.node|
    && UsedKeys(t'.node) <= UsedKeys(t.node) + {k}
  }

  /** newkey's search for the node before `m` (ltable.c:412). */
  method FindPrevious(tb: Table, m: nat) returns (prev: nat)
    requires HashOk(tb.hash, tb.t.node, tb.chain) && m < |tb.t.node| && !IsFree(tb.t.node[m])
    requires MainPosition(tb.hash, tb.t.node[m].key, |tb.t.node|) != m
    ensures prev < |tb.t.node| && prev != m && tb.t.node[prev].next == m
  {
    hide MainPosition;
    prev := MainPosition(tb.hash, tb.t.node[m].key, |tb.t.node|);
    assert Placed(tb.hash, tb.t.node, tb.chain, m);
    assert ChainAt(tb.t.node, tb.chain, prev);
    while tb.t.node[prev].next != m
      invariant 0 <= prev < |tb.t.node| && prev != m && m in tb.chain[prev]
      decreases |tb.chain[prev]|
    {
      assert ChainAt(tb.t.node, tb.chain, prev);
      prev := tb.t.node[prev].next;
    }
  }
}
