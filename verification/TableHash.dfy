/** Searching and inserting in a table (ltable.c:382-517), as methods that update it in place. */
module TableHash {
  import opened TableModel

  const MAXBITS := 26

  function Pow2(e: nat): (p: nat)
    ensures p > 0
  {
    if e == 0 then 1 else 2 * Pow2(e - 1)
  }

  const MAXASIZE := 0x400_0000

  predicate InArray(t: Tab, k: Key) { k.KInt? && 1 <= k.n <= |t.arr| }

  predicate HasKey(t: Tab, k: Key, i: int) {
    0 <= i < |t.node| && t.node[i].key == k && k != KNil
  }

  ghost predicate Present(t: Tab, k: Key) { exists i :: HasKey(t, k, i) }

  /** The finite map a table stands for. */
  ghost function ValueOf(t: Tab, k: Key): Option<Value> {
    if InArray(t, k) then t.arr[k.n - 1]
    else if Present(t, k) then (var i :| HasKey(t, k, i); t.node[i].val)
    else None
  }

  ghost predicate FreePointerOk(t: Tab) {
    if t.dummy then |t.node| == 1 && IsFree(t.node[0]) && t.lastfree <= 0
    else t.lastfree <= |t.node| && forall i :: 0 <= i < |t.node| && t.lastfree <= i ==> !IsFree(t.node[i])
  }

  ghost predicate TabOk(hash: Hash, t: Tab, chain: Chains) {
    && HashOk(hash, t.node, chain)
    && FreePointerOk(t)
    && |t.arr| <= MAXASIZE
    && (forall i :: 0 <= i < |t.node| ==> HashKey(t, t.node[i].key))
  }

  /** A key that may sit in the node vector: the array part has no slot for it. */
  predicate HashKey(t: Tab, k: Key) { k != KNaN && !InArray(t, k) }

  /** The main invariant in the header of ltable.c. */
  lemma MainInvariant(hash: Hash, t: Tab, chain: Chains, i: nat)
    requires TabOk(hash, t, chain) && i < |t.node| && !IsFree(t.node[i])
    ensures var m := MainPosition(hash, t.node[i].key, |t.node|);
      i in chain[m] && (i != m ==> !IsFree(t.node[m]) && MainPosition(hash, t.node[m].key, |t.node|) == m)
  {
    assert Placed(hash, t.node, chain, i);
  }

  lemma KeyAt(hash: Hash, t: Tab, chain: Chains, k: Key, i: int)
    requires TabOk(hash, t, chain) && HasKey(t, k, i)
    ensures ValueOf(t, k) == t.node[i].val && forall j :: HasKey(t, k, j) ==> j == i
  {
    assert HashKey(t, t.node[i].key);
    assert Present(t, k);
    forall j | HasKey(t, k, j) ensures j == i {
      assert t.node[j].key == t.node[i].key;
    }
  }

  ghost predicate Carried(t: Tab, k: Key, v: Option<Value>) {
    exists j :: HasKey(t, k, j) && t.node[j].val == v
  }

  /** Every key with a value in the hash part of `t` has it in that of `t'` too. */
  ghost predicate Carries(t: Tab, t': Tab) {
    forall i :: 0 <= i < |t.node| && t.node[i].val.Some? ==> Carried(t', t.node[i].key, t.node[i].val)
  }

  lemma CarriedValue(hash: Hash, t: Tab, chain: Chains, t': Tab, chain': Chains, k: Key)
    requires TabOk(hash, t, chain) && TabOk(hash, t', chain') && t'.arr == t.arr && Carries(t, t')
    ensures ValueOf(t, k).Some? ==> ValueOf(t', k) == ValueOf(t, k)
  {
    if !InArray(t, k) && ValueOf(t, k).Some? {
      var i :| HasKey(t, k, i);
      KeyAt(hash, t, chain, k, i);
      assert Carried(t', t.node[i].key, t.node[i].val);
      var j :| HasKey(t', k, j) && t'.node[j].val == t.node[i].val;
      KeyAt(hash, t', chain', k, j);
    }
  }

  /** Node vectors with the same valued keys stand for the same map. */
  lemma SameView(hash: Hash, t: Tab, chain: Chains, t': Tab, chain': Chains)
    requires TabOk(hash, t, chain) && TabOk(hash, t', chain') && t'.arr == t.arr && Carries(t, t') && Carries(t', t)
    ensures forall k :: ValueOf(t', k) == ValueOf(t, k)
  {
    forall k ensures ValueOf(t', k) == ValueOf(t, k) {
      CarriedValue(hash, t, chain, t', chain', k);
      CarriedValue(hash, t', chain', t, chain, k);
    }
  }

  // ----- what each way of inserting a key does to the table -----

  ghost predicate SameMap(t: Tab, t': Tab) {
    forall k :: ValueOf(t', k) == ValueOf(t, k)
  }

  /** A key that is to be added. */
  ghost predicate NewTo(t: Tab, k: Key) {
    k != KNil && HashKey(t, k) && !Present(t, k)
  }

  lemma NewToNodes(t: Tab, k: Key)
    requires NewTo(t, k)
    ensures forall i :: 0 <= i < |t.node| ==> t.node[i].key != k
  {
    forall i | 0 <= i < |t.node| ensures t.node[i].key != k {
      assert !HasKey(t, k, i);
    }
  }

  /** The keys that have a node. */
  ghost function UsedKeys(node: seq<Node>): set<Key> {
    set i: int | 0 <= i < |node| && !IsFree(node[i]) :: node[i].key
  }

  /** The key has been given a node, without a value yet, and nothing else shows. */
  ghost predicate KeyAdded(hash: Hash, t: Tab, t': Tab, chain': Chains, k: Key, i: int) {
    && TabOk(hash, t', chain') && HasKey(t', k, i) && t'.node[i].val == None
    && t'.arr == t.arr && t'.dummy == t.dummy && |t'.node| == |t.node| && SameMap(t, t')
    && UsedKeys(t'.node) <= UsedKeys(t.node) + {k}
  }

  /** Node `i` of `t` and node `j` of `t'` hold the same entry. */
  predicate SameEntry(t: Tab, i: nat, t': Tab, j: nat) {
    i < |t.node| && j < |t'.node| && t'.node[j].key == t.node[i].key && t'.node[j].val == t.node[i].val
  }

  /** All entries but those of `skip` and `skip'` correspond: the entry at `n` of `t'` comes from `m`. */
  ghost predicate Corresponds(t: Tab, t': Tab, m: nat, n: nat, k: Key, i: nat) {
    && |t'.node| == |t.node| && t'.arr == t.arr && t'.dummy == t.dummy && m < |t.node| && n < |t.node| && i < |t.node|
    && t'.node[i].key == k && t'.node[i].val == None && t.node[if m == n then i else n].val == None
    && (m != n ==> i == m && SameEntry(t, m, t', n))
    && (forall x :: 0 <= x < |t.node| && x != i && x != n ==> SameEntry(t, x, t', x))
  }

  lemma CorrespondsView(hash: Hash, t: Tab, chain: Chains, t': Tab, chain': Chains, m: nat, n: nat, k: Key, i: nat)
    requires TabOk(hash, t, chain) && NewTo(t, k) && Corresponds(t, t', m, n, k, i)
    requires m == n ==> i == n
    requires HashOk(hash, t'.node, chain') && FreePointerOk(t')
    ensures KeyAdded(hash, t, t', chain', k, i)
  {
    CorrespondsKeys(t, t', m, n, k, i);
    CorrespondsUsed(t, t', m, n, k, i);
    CorrespondsCarries(hash, t, chain, t', m, n, k, i);
    hide HashOk, Carries, UsedKeys;
    SameView(hash, t, chain, t', chain');
  }

  lemma CorrespondsKeys(t: Tab, t': Tab, m: nat, n: nat, k: Key, i: nat)
    requires NewTo(t, k) && Corresponds(t, t', m, n, k, i) && (m == n ==> i == n)
    requires forall x :: 0 <= x < |t.node| ==> HashKey(t, t.node[x].key)
    ensures forall x :: 0 <= x < |t'.node| ==> HashKey(t', t'.node[x].key)
  {
    forall x | 0 <= x < |t'.node| ensures HashKey(t', t'.node[x].key) {
      if x != i {
        assert SameEntry(t, if x == n then m else x, t', x);
      }
    }
  }

  lemma CorrespondsUsed(t: Tab, t': Tab, m: nat, n: nat, k: Key, i: nat)
    requires Corresponds(t, t', m, n, k, i) && (m == n ==> i == n)
    ensures UsedKeys(t'.node) <= UsedKeys(t.node) + {k}
  {
    forall x | 0 <= x < |t'.node| && !IsFree(t'.node[x]) ensures t'.node[x].key in UsedKeys(t.node) + {k} {
      if x != i {
        assert SameEntry(t, if x == n then m else x, t', x);
      }
    }
  }

  lemma CorrespondsCarries(hash: Hash, t: Tab, chain: Chains, t': Tab, m: nat, n: nat, k: Key, i: nat)
    requires TabOk(hash, t, chain) && Corresponds(t, t', m, n, k, i) && (m == n ==> i == n)
    ensures Carries(t, t') && Carries(t', t)
  {
    forall x | 0 <= x < |t.node| && t.node[x].val.Some? ensures Carried(t', t.node[x].key, t.node[x].val) {
      ValuedHasKey(hash, t, chain, x);
      var y := if x == m && m != n then n else x;
      assert SameEntry(t, x, t', y);
      assert HasKey(t', t.node[x].key, y);
    }
    forall x | 0 <= x < |t'.node| && t'.node[x].val.Some? ensures Carried(t, t'.node[x].key, t'.node[x].val) {
      var y := if x == n && m != n then m else x;
      assert SameEntry(t, y, t', x);
      ValuedHasKey(hash, t, chain, y);
      assert HasKey(t, t'.node[x].key, y);
    }
  }

  lemma ValuedHasKey(hash: Hash, t: Tab, chain: Chains, i: nat)
    requires TabOk(hash, t, chain) && i < |t.node| && t.node[i].val.Some?
    ensures HasKey(t, t.node[i].key, i)
  {}

  lemma TakeMainTab(hash: Hash, t: Tab, chain: Chains, k: Key)
    requires TabOk(hash, t, chain) && NewTo(t, k) && !t.dummy
    requires t.node[MainPosition(hash, k, |t.node|)].val == None
    ensures var m := MainPosition(hash, k, |t.node|);
      KeyAdded(hash, t, t.(node := t.node[m := t.node[m].(key := k)]), chain, k, m)
  {
    NewToNodes(t, k);
    TakeMain(hash, t.node, chain, k);
    hide MainPosition, HashOk;
    var m := MainPosition(hash, k, |t.node|);
    CorrespondsView(hash, t, chain, t.(node := t.node[m := t.node[m].(key := k)]), chain, m, m, k, m);
  }

  lemma MoveTab(hash: Hash, t: Tab, chain: Chains, k: Key, n: nat, prev: nat)
    requires TabOk(hash, t, chain) && NewTo(t, k) && !t.dummy
    requires n < |t.node| && IsFree(t.node[n]) && forall i :: n < i < |t.node| ==> !IsFree(t.node[i])
    requires var m := MainPosition(hash, k, |t.node|);
      && !IsFree(t.node[m]) && MainPosition(hash, t.node[m].key, |t.node|) != m
      && prev < |t.node| && prev != m && t.node[prev].next == m
    ensures var m := MainPosition(hash, k, |t.node|);
      KeyAdded(hash, t, t.(node := MovedNode(t.node, m, n, prev, k), lastfree := n), MovedChains(chain, m, n), k, m)
  {
    NewToNodes(t, k);
    FreeNode(hash, t, chain, n);
    hide MainPosition, HashOk, MovedChains;
    var m := MainPosition(hash, k, |t.node|);
    MoveKeys(hash, t.node, chain, m, n, prev, k);
    MovedCorresponds(t, k, m, n, prev);
    hide MovedNode;
    CorrespondsView(hash, t, chain, t.(node := MovedNode(t.node, m, n, prev, k), lastfree := n),
      MovedChains(chain, m, n), m, n, k, m);
  }

  lemma MovedCorresponds(t: Tab, k: Key, m: nat, n: nat, prev: nat)
    requires m < |t.node| && n < |t.node| && prev < |t.node| && prev != n && m != n && prev != m && !t.dummy
    requires t.node[n].val == None && !IsFree(t.node[m]) && k != KNil
    requires forall i :: n < i < |t.node| ==> !IsFree(t.node[i])
    ensures var t' := t.(node := MovedNode(t.node, m, n, prev, k), lastfree := n);
      Corresponds(t, t', m, n, k, m) && FreePointerOk(t')
  {}

  lemma FreeNode(hash: Hash, t: Tab, chain: Chains, n: nat)
    requires TabOk(hash, t, chain) && n < |t.node| && IsFree(t.node[n])
    ensures t.node[n].val == None && t.node[n].next == -1
  {}

  lemma InsertTab(hash: Hash, t: Tab, chain: Chains, k: Key, n: nat)
    requires TabOk(hash, t, chain) && NewTo(t, k) && !t.dummy
    requires n < |t.node| && IsFree(t.node[n]) && forall i :: n < i < |t.node| ==> !IsFree(t.node[i])
    requires var m := MainPosition(hash, k, |t.node|);
      !IsFree(t.node[m]) && MainPosition(hash, t.node[m].key, |t.node|) == m
    ensures var m := MainPosition(hash, k, |t.node|);
      KeyAdded(hash, t, t.(node := ChainNode(t.node, m, n, k), lastfree := n), InsertedChains(chain, m, n), k, n)
  {
    NewToNodes(t, k);
    FreeNode(hash, t, chain, n);
    hide MainPosition, HashOk, InsertedChains;
    var m := MainPosition(hash, k, |t.node|);
    InsertKeys(hash, t.node, chain, m, n, k);
    ChainedCorresponds(t, k, m, n);
    hide ChainNode, Corresponds, KeyAdded, FreePointerOk;
    CorrespondsView(hash, t, chain, t.(node := ChainNode(t.node, m, n, k), lastfree := n),
      InsertedChains(chain, m, n), n, n, k, n);
  }

  lemma ChainedCorresponds(t: Tab, k: Key, m: nat, n: nat)
    requires m < |t.node| && n < |t.node| && m != n && !t.dummy && k != KNil && t.node[n].val == None
    requires forall i :: n < i < |t.node| ==> !IsFree(t.node[i])
    requires !IsFree(t.node[m])
    ensures var t' := t.(node := ChainNode(t.node, m, n, k), lastfree := n);
      Corresponds(t, t', n, n, k, n) && FreePointerOk(t')
  {}

  // ----- the class -----

  /** Where a value lives: nowhere (the shared nil object), in the array part, or in a node. */
  datatype Slot = NilObject | ArraySlot(i: nat) | NodeSlot(i: nat)

  /** The slot is the one for `k`. */
  ghost predicate SlotFor(t: Tab, s: Slot, k: Key) {
    match s
    case NilObject => !InArray(t, k) && !Present(t, k)
    case ArraySlot(i) => InArray(t, k) && i == k.n - 1
    case NodeSlot(i) => !InArray(t, k) && HasKey(t, k, i)
  }

  class Table {
    const hash: Hash
    var t: Tab
    ghost var chain: Chains

    ghost predicate Valid()
      reads this
    {
      TabOk(hash, t, chain)
    }

    /** The walk along a chain in luaH_get, luaH_getnum and luaH_getstr (ltable.c:441-447, 456-462, 482-488). */
    method FindNode(k: Key) returns (i: int)
      requires Valid() && k != KNil
      ensures -1 <= i < |t.node|
      ensures i == -1 ==> !Present(t, k)
      ensures i != -1 ==> HasKey(t, k, i)
    {
      hide MainPosition;
      i := MainPosition(hash, k, |t.node|);
      ghost var m := i;
      while t.node[i].key != k && t.node[i].next != -1
        invariant 0 <= i < |t.node|
        invariant forall j :: j in chain[m] && HasKey(t, k, j) ==> j in chain[i]
        decreases |chain[i]|
      {
        assert ChainAt(t.node, chain, i);
        i := t.node[i].next;
        assert ChainAt(t.node, chain, i);
      }
      if t.node[i].key != k {
        assert ChainAt(t.node, chain, i);
        forall j ensures !HasKey(t, k, j) {
          assert 0 <= j < |t.node| && !IsFree(t.node[j]) ==> Placed(hash, t.node, chain, j);
        }
        i := -1;
      }
    }

    /** luaH_get (ltable.c:435-491) */
    method GetSlot(k: Key) returns (s: Slot)
      requires Valid()
      ensures SlotFor(t, s, k)
      ensures s.NodeSlot? ==> s.i < |t.node|
    {
      match k
      case KNil => s := NilObject;
      case KInt(n) =>
        if 1 <= n <= |t.arr| {
          s := ArraySlot(n - 1);
        } else {
          var i := FindNode(k);
          s := if i == -1 then NilObject else NodeSlot(i);
        }
      case _ =>
        var i := FindNode(k);
        s := if i == -1 then NilObject else NodeSlot(i);
    }

    /** The value under a key: what the map says. */
    method Get(k: Key) returns (v: Option<Value>)
      requires Valid()
      ensures v == ValueOf(t, k)
    {
      var s := GetSlot(k);
      match s
      case NilObject => v := None;
      case ArraySlot(i) => v := t.arr[i];
      case NodeSlot(i) =>
        KeyAt(hash, t, chain, k, i);
        v := t.node[i].val;
    }

    /** getfreepos (ltable.c:382-388) */
    method GetFreePos() returns (n: int)
      requires Valid()
      modifies this`t
      ensures t == old(t).(lastfree := t.lastfree)
      ensures n == -1 ==> FreePointerOk(t)
      ensures n == -1 ==> t.dummy || forall i :: 0 <= i < |t.node| ==> !IsFree(t.node[i])
      ensures n != -1 ==> !t.dummy && 0 <= n < |t.node| && IsFree(t.node[n]) && t.lastfree == n
      ensures n != -1 ==> forall i :: n < i < |t.node| ==> !IsFree(t.node[i])
    {
      hide HashOk;
      var last := t.lastfree;
      while last > 0
        invariant last <= |t.node| && t == old(t)
        invariant t.dummy ==> last <= 0
        invariant !t.dummy ==> forall i :: 0 <= i < |t.node| && last <= i ==> !IsFree(t.node[i])
      {
        last := last - 1;
        if IsFree(t.node[last]) {
          t := t.(lastfree := last);
          return last;
        }
      }
      t := t.(lastfree := last - 1);
      return -1;
    }
  }
}
