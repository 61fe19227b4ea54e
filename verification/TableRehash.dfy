/** luaH_set, newkey, rehash and resize (ltable.c:262-324, 333-349, 399-429, 494-517). */
module TableRehash {
  import opened TableModel
  import opened TableHash
  import opened TableCount
  import opened TableSet

  // ----- resize: moving every key to the new vectors -----

  /** In the middle of a resize of `t0` for the keys `ks`: the map is right on the keys `done`, empty
      elsewhere, and there is room for the rest. */
  ghost predicate Moving(hash: Hash, t0: Tab, t: Tab, chain: Chains, ks: set<Key>, done: set<Key>) {
    && TabOk(hash, t, chain)
    && (forall k :: ValueOf(t, k) == if k in done then ValueOf(t0, k) else None)
    && Roomy(t, ks)
  }

  ghost predicate Roomy(t: Tab, ks: set<Key>) {
    && UsedKeys(t.node) <= Outside(ks, |t.arr|)
    && (if t.dummy then Outside(ks, |t.arr|) == {} else |Outside(ks, |t.arr|)| <= |t.node|)
  }

  /** A key has a slot already, or the nodes are not all taken. */
  lemma RoomFor(hash: Hash, t: Tab, chain: Chains, ks: set<Key>, k: Key)
    requires TabOk(hash, t, chain) && Roomy(t, ks) && k in ks
    ensures Room(t, k)
  {
    if k in UsedKeys(t.node) {
      var i :| 0 <= i < |t.node| && !IsFree(t.node[i]) && t.node[i].key == k;
      assert HasKey(t, k, i);
    } else if !InArray(t, k) {
      var out := Outside(ks, |t.arr|);
      assert k in out;
      assert UsedKeys(t.node) <= out - {k};
      SomeFree(t.node, out - {k});
    }
  }

  lemma SkipKey(hash: Hash, t0: Tab, t: Tab, chain: Chains, ks: set<Key>, done: set<Key>, k: Key)
    requires Moving(hash, t0, t, chain, ks, done) && k !in done && ValueOf(t0, k) == None
    ensures Moving(hash, t0, t, chain, ks, done + {k})
  {
    hide TabOk;
  }

  lemma MovedUsed(hash: Hash, t: Tab, t1: Tab, t2: Tab, chain2: Chains, ks: set<Key>, k: Key)
    requires UsedKeys(t.node) <= Outside(ks, |t.arr|) && InPlace(t, t1, k) && TabOk(hash, t2, chain2) && k in ks
    requires UsedKeys(t2.node) == UsedKeys(t1.node) && |t2.arr| == |t.arr|
    ensures UsedKeys(t2.node) <= Outside(ks, |t2.arr|)
  {
    assert UsedKeys(t2.node) <= UsedKeys(t.node) + {k};
    hide InPlace;
    forall x | x in UsedKeys(t2.node) ensures x in Outside(ks, |t2.arr|) {
      if x == k {
        var i :| 0 <= i < |t2.node| && !IsFree(t2.node[i]) && t2.node[i].key == k;
        assert HashKey(t2, t2.node[i].key);
      }
    }
  }

  lemma MovedKey(hash: Hash, t0: Tab, t: Tab, chain: Chains, t1: Tab, t2: Tab, chain2: Chains, ks: set<Key>,
      done: set<Key>, k: Key)
    requires Moving(hash, t0, t, chain, ks, done) && k in ks && k !in done
    requires SameMap(t, t1) && InPlace(t, t1, k) && ValueSet(t1, t2, k, ValueOf(t0, k)) && TabOk(hash, t2, chain2)
    requires UsedKeys(t2.node) == UsedKeys(t1.node) && |t2.arr| == |t.arr| && t2.dummy == t.dummy
    requires |t2.node| == |t.node|
    ensures Moving(hash, t0, t2, chain2, ks, done + {k})
  {
    MovedUsed(hash, t, t1, t2, chain2, ks, k);
    hide TabOk, UsedKeys, Outside;
    forall x ensures ValueOf(t2, x) == if x in done + {k} then ValueOf(t0, x) else None {
      assert ValueOf(t1, x) == ValueOf(t, x);
    }
  }

  /** setobjt2t(L, luaH_set(L, t, key), val) in resize. */
  method MoveKey(tb: Table, k: Key, v: Option<Value>, ghost t0: Tab, ghost ks: set<Key>, ghost done: set<Key>)
    requires Moving(tb.hash, t0, tb.t, tb.chain, ks, done) && k in ks && k !in done
    requires k != KNil && k != KNaN && v == ValueOf(t0, k)
    modifies tb`t, tb`chain
    ensures Moving(tb.hash, t0, tb.t, tb.chain, ks, done + {k}) && |tb.t.arr| == |old(tb.t.arr)|
    decreases 0, 5
  {
    hide TabOk, Outside, UsedKeys, ValueOf;
    ghost var before, chain0 := tb.t, tb.chain;
    RoomFor(tb.hash, tb.t, tb.chain, ks, k);
    var r := Set(tb, k, true);
    ghost var between := tb.t;
    SlotInRange(tb.t, r.s, k);
    StoreTab(tb.hash, tb.t, tb.chain, r.s, k, v);
    tb.t := StoredTab(tb.t, r.s, v);
    MovedKey(tb.hash, t0, before, chain0, between, tb.t, tb.chain, ks, done, k);
  }

  lemma SlotInRange(t: Tab, s: Slot, k: Key)
    requires SlotFor(t, s, k)
    ensures s.ArraySlot? ==> s.i < |t.arr|
    ensures s.NodeSlot? ==> s.i < |t.node|
  {}

  function FreshNodes(size: nat): seq<Node> { seq(size, _ => Node(KNil, None, -1)) }

  ghost function FreshChains(size: nat): Chains { seq(size, i => [i]) }

  lemma FreshTab(hash: Hash, arr: seq<Option<Value>>, size: nat, dummy: bool)
    requires size > 0 && |arr| <= MAXASIZE && (dummy ==> size == 1)
    ensures var t := Tab(arr, FreshNodes(size), if dummy then 0 else size, dummy);
      TabOk(hash, t, FreshChains(size)) && UsedKeys(t.node) == {} && forall k :: !Present(t, k)
  {
    var t := Tab(arr, FreshNodes(size), if dummy then 0 else size, dummy);
    var chain := FreshChains(size);
    forall i | 0 <= i < size ensures ChainAt(t.node, chain, i) {}
    assert forall k, i :: !HasKey(t, k, i);
  }

  lemma PowZero()
    ensures Pow2(0) == 1
  {}

  /** setnodevector (ltable.c:272-294): fails with "table overflow" beyond 2^MAXBITS nodes. */
  method SetNodeVector(tb: Table, size: nat) returns (ok: bool)
    requires |tb.t.arr| <= MAXASIZE
    modifies tb`t, tb`chain
    ensures ok <==> size <= 67108864
    ensures !ok ==> tb.t == old(tb.t) && tb.chain == old(tb.chain)
    ensures ok ==> TabOk(tb.hash, tb.t, tb.chain) && tb.t.arr == old(tb.t.arr)
    ensures ok ==> UsedKeys(tb.t.node) == {} && forall k :: !Present(tb.t, k)
    ensures ok ==> if size == 0 then tb.t.dummy else !tb.t.dummy && size <= |tb.t.node| < 2 * size
  {
    hide TabOk, Pow2, FreshNodes, FreshChains, UsedKeys;
    ok := true;
    if size == 0 {
      FreshTab(tb.hash, tb.t.arr, 1, true);
      tb.t := Tab(tb.t.arr, FreshNodes(1), 0, true);
      tb.chain := FreshChains(1);
    } else {
      var lsize := CeilLog2(size);
      PowMax();
      if lsize <= MAXBITS { PowMono(lsize, MAXBITS); }
      if lsize > 0 { PowNext(lsize - 1); } else { PowZero(); }
      if lsize > MAXBITS {
        PowMono(MAXBITS, lsize - 1);
        return false;
      }
      var n := TwoTo(lsize);
      FreshTab(tb.hash, tb.t.arr, n, false);
      FreshLength(n);
      tb.t := Tab(tb.t.arr, FreshNodes(n), n, false);
      tb.chain := FreshChains(n);
    }
  }

  lemma FreshLength(n: nat)
    ensures |FreshNodes(n)| == n
  {}

  /** The macro twoto. */
  function TwoTo(e: nat): (r: nat)
    ensures r == Pow2(e)
  {
    Pow2(e)
  }

  function Nones(n: nat): (r: seq<Option<Value>>)
    ensures |r| == n && forall i :: 0 <= i < n ==> r[i] == None
  {
    seq(n, _ => None)
  }

  /** After the array has been cut or extended and the nodes emptied, the common part is in place. */
  lemma MovingStart(hash: Hash, t0: Tab, chain0: Chains, t: Tab, chain: Chains, ks: set<Key>, nhsize: nat)
    requires TabOk(hash, t0, chain0) && TabOk(hash, t, chain) && UsedKeys(t.node) == {} && forall k :: !Present(t, k)
    requires if nhsize == 0 then t.dummy else !t.dummy && nhsize <= |t.node|
    requires |Outside(ks, |t.arr|)| <= nhsize
    requires forall i :: 0 <= i < |t.arr| ==> t.arr[i] == if i < |t0.arr| then t0.arr[i] else None
    ensures Moving(hash, t0, t, chain, ks, ArrRange(if |t.arr| < |t0.arr| then |t.arr| else |t0.arr|))
  {
    hide TabOk;
    var done := ArrRange(if |t.arr| < |t0.arr| then |t.arr| else |t0.arr|);
    forall k ensures ValueOf(t, k) == if k in done then ValueOf(t0, k) else None {
      if InArray(t, k) && k !in done {
        assert t.arr[k.n - 1] == None;
      }
    }
  }

  /** When every live key has been moved the map is the old one. */
  lemma MovingEnd(hash: Hash, t0: Tab, chain0: Chains, t: Tab, chain: Chains, ks: set<Key>, done: set<Key>)
    requires TabOk(hash, t0, chain0) && Moving(hash, t0, t, chain, ks, done) && Live(t0) <= done
    ensures SameMap(t0, t)
  {
    forall k ensures ValueOf(t, k) == ValueOf(t0, k) {
      LiveMeans(hash, t0, chain0, k);
    }
  }

  /** The first loop of resize (ltable.c:307-310): the vanishing slice. */
  method MoveSlice(tb: Table, arr: seq<Option<Value>>, nasize: nat, ghost t0: Tab, ghost chain0: Chains,
      ghost ks: set<Key>)
    requires TabOk(tb.hash, t0, chain0) && arr == t0.arr && |tb.t.arr| == nasize <= |arr| && Live(t0) <= ks
    requires Moving(tb.hash, t0, tb.t, tb.chain, ks, ArrRange(nasize))
    modifies tb`t, tb`chain
    ensures Moving(tb.hash, t0, tb.t, tb.chain, ks, ArrRange(|arr|)) && |tb.t.arr| == nasize
    decreases 1, 0
  {
    hide Moving, TabOk, ArrRange, Live;
    var i := nasize;
    while i < |arr|
      invariant nasize <= i <= |arr| && |tb.t.arr| == nasize
      invariant Moving(tb.hash, t0, tb.t, tb.chain, ks, ArrRange(i))
    {
      ArrNext(tb.hash, t0, chain0, i);
      if arr[i].Some? {
        MoveKey(tb, KInt(i + 1), arr[i], t0, ks, ArrRange(i));
      } else {
        SkipKey(tb.hash, t0, tb.t, tb.chain, ks, ArrRange(i), KInt(i + 1));
      }
      i := i + 1;
    }
  }

  lemma ArrNext(hash: Hash, t0: Tab, chain0: Chains, i: nat)
    requires TabOk(hash, t0, chain0) && i < |t0.arr|
    ensures ArrRange(i + 1) == ArrRange(i) + {KInt(i + 1)} && KInt(i + 1) !in ArrRange(i)
    ensures ValueOf(t0, KInt(i + 1)) == t0.arr[i]
    ensures t0.arr[i].Some? ==> KInt(i + 1) in Live(t0)
  {
    LiveMeans(hash, t0, chain0, KInt(i + 1));
  }

  /** The keys in place once the nodes from `m` on have been moved. */
  ghost function DoneFrom(t0: Tab, m: nat): set<Key> { ArrRange(|t0.arr|) + LiveFrom(t0.node, m) }

  lemma NodeNext(hash: Hash, t0: Tab, chain0: Chains, i: nat)
    requires TabOk(hash, t0, chain0) && i < |t0.node|
    ensures t0.node[i].val.None? ==> DoneFrom(t0, i) == DoneFrom(t0, i + 1)
    ensures t0.node[i].val.Some? ==>
      var k := t0.node[i].key;
      && DoneFrom(t0, i) == DoneFrom(t0, i + 1) + {k} && k !in DoneFrom(t0, i + 1)
      && ValueOf(t0, k) == t0.node[i].val && k in Live(t0) && k != KNil && k != KNaN
  {
    assert DistinctLive(t0.node);
    LiveStep(t0.node, i);
    var k := t0.node[i].key;
    hide HashOk;
    if t0.node[i].val.Some? {
      ValuedHasKey(hash, t0, chain0, i);
      KeyAt(hash, t0, chain0, k, i);
      LiveMeans(hash, t0, chain0, k);
      assert HashKey(t0, k);
      assert k !in ArrRange(|t0.arr|);
    }
  }

  /** The second loop of resize (ltable.c:314-319): the old nodes. */
  method MoveNodes(tb: Table, nold: seq<Node>, ghost t0: Tab, ghost chain0: Chains, ghost ks: set<Key>)
    requires TabOk(tb.hash, t0, chain0) && nold == t0.node && Live(t0) <= ks
    requires Moving(tb.hash, t0, tb.t, tb.chain, ks, DoneFrom(t0, |nold|))
    modifies tb`t, tb`chain
    ensures Moving(tb.hash, t0, tb.t, tb.chain, ks, DoneFrom(t0, 0)) && |tb.t.arr| == |old(tb.t.arr)|
    decreases 1, 0
  {
    hide Moving, TabOk, DoneFrom, Live;
    var i := |nold|;
    while i > 0
      invariant 0 <= i <= |nold| && |tb.t.arr| == |old(tb.t.arr)|
      invariant Moving(tb.hash, t0, tb.t, tb.chain, ks, DoneFrom(t0, i))
    {
      i := i - 1;
      NodeNext(tb.hash, t0, chain0, i);
      if nold[i].val.Some? {
        MoveKey(tb, nold[i].key, nold[i].val, t0, ks, DoneFrom(t0, i + 1));
      }
    }
  }

  /** resize (ltable.c:297-324) */
  method Resize(tb: Table, nasize: nat, nhsize: nat, ghost ks: set<Key>) returns (ok: bool)
    requires TabOk(tb.hash, tb.t, tb.chain) && nasize <= MAXASIZE && Live(tb.t) <= ks && |Outside(ks, nasize)| <= nhsize
    modifies tb`t, tb`chain
    ensures !ok ==> nhsize > MAXASIZE
    ensures ok ==> TabOk(tb.hash, tb.t, tb.chain) && SameMap(old(tb.t), tb.t) && |tb.t.arr| == nasize
    ensures ok ==> forall k :: k in ks ==> Room(tb.t, k)
    decreases 1, 1
  {
    hide TabOk, Outside, UsedKeys, Live, ArrRange, Moving, Room;
    ghost var t0, chain0 := tb.t, tb.chain;
    var oldarr, nold := tb.t.arr, tb.t.node;
    var oldasize := |oldarr|;
    ArrSize(tb.hash, t0, chain0);
    if nasize > oldasize {
      tb.t := tb.t.(arr := oldarr + Nones(nasize - oldasize));
    }
    ok := SetNodeVector(tb, nhsize);
    if !ok { return; }
    if nasize < oldasize {
      CutArr(tb.hash, tb.t, tb.chain, nasize);
      tb.t := tb.t.(arr := oldarr[..nasize]);
    }
    MovingStart(tb.hash, t0, chain0, tb.t, tb.chain, ks, nhsize);
    if nasize < oldasize {
      MoveSlice(tb, oldarr, nasize, t0, chain0, ks);
    }
    DoneStart(t0);
    MoveNodes(tb, nold, t0, chain0, ks);
    DoneEnd(t0);
    MovingEnd(tb.hash, t0, chain0, tb.t, tb.chain, ks, DoneFrom(t0, 0));
    RoomLeft(tb.hash, t0, tb.t, tb.chain, ks);
  }

  lemma ArrSize(hash: Hash, t: Tab, chain: Chains)
    requires TabOk(hash, t, chain)
    ensures |t.arr| <= MAXASIZE
  {}

  lemma CutArr(hash: Hash, t: Tab, chain: Chains, n: nat)
    requires TabOk(hash, t, chain) && (forall k :: !Present(t, k)) && n <= |t.arr|
    ensures var t' := t.(arr := t.arr[..n]); TabOk(hash, t', chain) && forall k :: !Present(t', k)
  {
    var t' := t.(arr := t.arr[..n]);
    hide HashOk;
    forall i | 0 <= i < |t'.node| ensures HashKey(t', t'.node[i].key) { assert HashKey(t, t.node[i].key); }
    forall k ensures !Present(t', k) {
      assert !Present(t, k);
      forall i ensures !HasKey(t', k, i) { assert !HasKey(t, k, i); }
    }
  }

  lemma DoneStart(t0: Tab)
    ensures DoneFrom(t0, |t0.node|) == ArrRange(|t0.arr|)
  {
    assert LiveFrom(t0.node, |t0.node|) == {};
  }

  lemma DoneEnd(t0: Tab)
    ensures Live(t0) <= DoneFrom(t0, 0)
  {}

  lemma RoomLeft(hash: Hash, t0: Tab, t: Tab, chain: Chains, ks: set<Key>)
    requires Moving(hash, t0, t, chain, ks, DoneFrom(t0, 0))
    ensures TabOk(hash, t, chain) && forall k :: k in ks ==> Room(t, k)
  {
    hide TabOk, Roomy, Room;
    forall k | k in ks ensures Room(t, k) { RoomFor(hash, t, chain, ks, k); }
  }

  // ----- rehash -----

  ghost function KeysIn(s: set<int>, n: nat): set<Key> { set x: int | x in s && 1 <= x <= n :: KInt(x) }

  lemma KeysInNext(s: set<int>, n: nat)
    requires n > 0
    ensures KInt(n) !in KeysIn(s, n - 1)
    ensures KeysIn(s, n) == KeysIn(s, n - 1) + if n in s then {KInt(n)} else {}
  {}

  lemma {:induction false} KeysInCard(s: set<int>, n: nat)
    ensures |KeysIn(s, n)| == Count(s, n)
  {
    if n > 0 {
      KeysInCard(s, n - 1);
      KeysInNext(s, n);
      hide KeysIn;
    }
  }

  /** The integer keys the array part is chosen for: those with a value and the extra one. */
  ghost function Candidates(t: Tab, ek: Key): set<int> { Ints(Live(t) + {ek}) }

  /** What numusearray and numusehash count makes up the candidates. */
  lemma CandidateParts(hash: Hash, t: Tab, chain: Chains, ek: Key)
    requires TabOk(hash, t, chain) && NewTo(t, ek)
    ensures var s := ArrKeys(t.arr, |t.arr|) + Ints(LiveFrom(t.node, 0));
      && |s| == |ArrKeys(t.arr, |t.arr|)| + |Ints(LiveFrom(t.node, 0))|
      && (ek.KInt? ==> ek.n !in s)
      && Candidates(t, ek) == if Countable(ek) then s + {ek.n} else s
    ensures |Live(t) + {ek}| == |ArrKeys(t.arr, |t.arr|)| + |LiveFrom(t.node, 0)| + 1
  {
    var a, l := ArrKeys(t.arr, |t.arr|), LiveFrom(t.node, 0);
    NodesApart(hash, t, chain, ek);
    ArrPart(t.arr);
    assert Live(t) == ArrLive(t.arr) + l;
    hide TabOk, LiveFrom, ArrLive, Ints, Live, ArrKeys;
    IntsUnion(ArrLive(t.arr), l);
    assert forall k :: k in ArrLive(t.arr) ==> InArray(t, k);
    assert ArrLive(t.arr) !! l && ek !in Live(t);
    IntsAdd(Live(t), ek);
  }

  lemma ArrPart(arr: seq<Option<Value>>)
    requires |arr| <= MAXASIZE
    ensures Ints(ArrLive(arr)) == ArrKeys(arr, |arr|) && |ArrLive(arr)| == |ArrKeys(arr, |arr|)|
    ensures forall k :: k in ArrLive(arr) ==> InRange(k, |arr|)
  {
    var a := ArrKeys(arr, |arr|);
    assert ArrLive(arr) == KeysIn(a, |arr|);
    KeysInCard(a, |arr|);
    CountCard(a, |arr|);
    assert a == set x | x in a && 1 <= x <= |arr|;
    forall x | x in a ensures x in Ints(ArrLive(arr)) { assert KInt(x) in ArrLive(arr) && Countable(KInt(x)); }
  }

  lemma IntsUnion(a: set<Key>, b: set<Key>)
    requires a !! b
    ensures Ints(a + b) == Ints(a) + Ints(b) && Ints(a) !! Ints(b)
  {
    forall x | x in Ints(a) ensures x !in Ints(b) {
      assert KInt(x) in a;
    }
  }

  lemma NodesApart(hash: Hash, t: Tab, chain: Chains, ek: Key)
    requires TabOk(hash, t, chain) && NewTo(t, ek)
    ensures forall k :: k in LiveFrom(t.node, 0) ==> !InArray(t, k)
    ensures ek !in LiveFrom(t.node, 0)
    ensures DistinctLive(t.node) && Apart(t.node, ArrKeys(t.arr, |t.arr|))
  {
    NewToNodes(t, ek);
    forall i | 0 <= i < |t.node| ensures !InArray(t, t.node[i].key) { assert HashKey(t, t.node[i].key); }
  }

  /** All candidates count, and those in 1..n go to the array part. */
  lemma OutsideCard(ks: set<Key>, n: nat)
    requires n <= MAXASIZE
    ensures |Outside(ks, n)| == |ks| - Count(Ints(ks), n)
    ensures Count(Ints(ks), MAXASIZE) == |Ints(ks)|
  {
    var inside := set k | k in ks && InRange(k, n);
    forall k | k in inside ensures k in KeysIn(Ints(ks), n) { assert Countable(k); }
    assert inside == KeysIn(Ints(ks), n);
    KeysInCard(Ints(ks), n);
    assert ks == inside + Outside(ks, n);
    CountCard(Ints(ks), MAXASIZE);
    assert (set x | x in Ints(ks) && 1 <= x <= MAXASIZE) == Ints(ks);
  }

  lemma NoKeys(nums: seq<int>)
    requires |nums| == MAXBITS + 1 && forall i :: 0 <= i <= MAXBITS ==> nums[i] == 0
    ensures Slices(nums, {})
  {
    forall e | 0 <= e <= MAXBITS ensures nums[e] == Slice({}, e) {
      CountRest({}, 0, Pow2(e));
      if e > 0 { CountRest({}, 0, Pow2(e - 1)); }
    }
  }

  /** The counting part of rehash (ltable.c:338-347): the new sizes. */
  method CountKeys(tb: Table, ek: Key) returns (nasize: nat, nhsize: nat)
    requires TabOk(tb.hash, tb.t, tb.chain) && NewTo(tb.t, ek)
    ensures BestSize(Candidates(tb.t, ek), nasize) && nasize <= MAXASIZE
    ensures nhsize == |Outside(Live(tb.t) + {ek}, nasize)|
  {
    hide TabOk, NewTo, Slices, Counted, BestSize, Live, LiveFrom, Ints, ArrKeys, Outside, Candidates, DistinctLive;
    hide Apart, Count, InArray, ValueOf, Present;
    var nums := seq(MAXBITS + 1, _ => 0);
    NoKeys(nums);
    ArrSize(tb.hash, tb.t, tb.chain);
    NodesApart(tb.hash, tb.t, tb.chain, ek);
    CandidateParts(tb.hash, tb.t, tb.chain, ek);
    ghost var a := ArrKeys(tb.t.arr, |tb.t.arr|);
    ghost var s := a + Ints(LiveFrom(tb.t.node, 0));
    var narray, totaluse: nat, nodeuse, hashints, c, na;
    narray, nums := NumUseArray(tb.t.arr, nums);
    totaluse := narray;
    nodeuse, hashints, nums := NumUseHash(tb.t.node, nums, a);
    CountedMeaning(tb.t.node, a, nodeuse, hashints, nums);
    totaluse := totaluse + nodeuse;
    narray := narray + hashints;
    c, nums := CountInt(ek, nums, s);
    narray := narray + c;
    totaluse := totaluse + 1;
    OutsideCard(Live(tb.t) + {ek}, 0);
    CandidatesBound(tb.t, ek);
    nasize, na := ComputeSizes(nums, narray, Candidates(tb.t, ek));
    OutsideCard(Live(tb.t) + {ek}, nasize);
    nhsize := totaluse - na;
  }

  lemma CountedMeaning(node: seq<Node>, s: set<int>, totaluse: nat, ause: nat, nums: seq<int>)
    requires Counted(node, 0, s, totaluse, ause, nums)
    ensures Slices(nums, s + Ints(LiveFrom(node, 0)))
    ensures totaluse == |LiveFrom(node, 0)| && ause == |Ints(LiveFrom(node, 0))|
  {}

  lemma CandidatesBound(t: Tab, ek: Key)
    ensures forall x :: x in Candidates(t, ek) ==> 1 <= x <= MAXASIZE
    ensures Candidates(t, ek) == Ints(Live(t) + {ek})
  {}

  /** rehash (ltable.c:333-349) */
  method Rehash(tb: Table, ek: Key) returns (ok: bool)
    requires TabOk(tb.hash, tb.t, tb.chain) && NewTo(tb.t, ek)
    modifies tb`t, tb`chain
    ensures !ok ==> |Live(old(tb.t))| >= MAXASIZE
    ensures ok ==> TabOk(tb.hash, tb.t, tb.chain) && SameMap(old(tb.t), tb.t) && Room(tb.t, ek)
    ensures ok ==> BestSize(Candidates(old(tb.t), ek), |tb.t.arr|)
    decreases 1, 2
  {
    hide TabOk, NewTo, BestSize, Live, Outside, Candidates, SameMap, Room;
    var nasize, nhsize := CountKeys(tb, ek);
    OutsideBound(Live(tb.t), ek, nasize);
    ok := Resize(tb, nasize, nhsize, Live(tb.t) + {ek});
  }

  lemma OutsideBound(ks: set<Key>, ek: Key, n: nat)
    ensures |Outside(ks + {ek}, n)| <= |ks| + 1
  {
    CardMono(Outside(ks + {ek}, n), ks + {ek});
    CardMono(ks + {ek}, ks + {ek});
    if ek in ks { assert ks + {ek} == ks; }
  }

  // ----- newkey and luaH_set -----

  /** newkey with a free position `n` and the colliding node `m` (ltable.c:409-424). `t0` is the table
      before the free pointer came down to `n`. */
  method PlaceKey(tb: Table, k: Key, m: nat, n: nat, ghost t0: Tab) returns (s: Slot)
    requires TabOk(tb.hash, t0, tb.chain) && NewTo(t0, k) && !t0.dummy && tb.t == t0.(lastfree := n)
    requires n < |t0.node| && IsFree(t0.node[n]) && forall i :: n < i < |t0.node| ==> !IsFree(t0.node[i])
    requires m == MainPosition(tb.hash, k, |t0.node|) && !IsFree(t0.node[m])
    modifies tb`t, tb`chain
    ensures s.NodeSlot? && KeyAdded(tb.hash, t0, tb.t, tb.chain, k, s.i)
  {
    NodesOk(tb.hash, t0, tb.chain);
    hide MainPosition, KeyAdded, TabOk, NewTo, HashOk, MovedNode, ChainNode, MovedChains, InsertedChains;
    ghost var chain0 := tb.chain;
    var othern := MainPosition(tb.hash, tb.t.node[m].key, |tb.t.node|);
    if othern != m {
      var prev := FindPrevious(tb, m);
      MoveTab(tb.hash, t0, chain0, k, n, prev);
      tb.t := tb.t.(node := MovedNode(tb.t.node, m, n, prev, k));
      tb.chain := MovedChains(chain0, m, n);
      s := NodeSlot(m);
    } else {
      InsertTab(tb.hash, t0, chain0, k, n);
      tb.t := tb.t.(node := ChainNode(tb.t.node, m, n, k));
      tb.chain := InsertedChains(chain0, m, n);
      s := NodeSlot(n);
    }
  }

  lemma NodesOk(hash: Hash, t: Tab, chain: Chains)
    requires TabOk(hash, t, chain)
    ensures |t.node| > 0 && HashOk(hash, t.node, chain) && |chain| == |t.node|
  {}

  lemma NodesExist(hash: Hash, t: Tab, chain: Chains)
    requires TabOk(hash, t, chain)
    ensures |t.node| > 0 && |chain| == |t.node|
  {}

  lemma AddedMakes(hash: Hash, t: Tab, t': Tab, chain': Chains, k: Key, i: nat)
    requires KeyAdded(hash, t, t', chain', k, i) && NewTo(t, k)
    ensures SlotMade(hash, t, t', chain', NodeSlot(i), k) && InPlace(t, t', k)
  {}

  /** Moving the free pointer does not show. */
  lemma MovedPointer(hash: Hash, t: Tab, chain: Chains, t': Tab, k: Key)
    requires TabOk(hash, t, chain) && NewTo(t, k) && t' == t.(lastfree := t'.lastfree) && FreePointerOk(t')
    ensures TabOk(hash, t', chain) && NewTo(t', k) && SameMap(t, t') && Live(t') == Live(t)
    ensures UsedKeys(t'.node) == UsedKeys(t.node)
  {
    hide HashOk;
    assert forall i :: 0 <= i < |t.node| ==> HashKey(t, t.node[i].key);
    assert forall k, i :: HasKey(t', k, i) <==> HasKey(t, k, i);
    assert forall k :: Present(t', k) <==> Present(t, k);
    assert TabOk(hash, t', chain);
    forall k ensures ValueOf(t', k) == ValueOf(t, k) {
      if !InArray(t, k) && Present(t, k) {
        var i :| HasKey(t, k, i);
        KeyAt(hash, t, chain, k, i);
        KeyAt(hash, t', chain, k, i);
      }
    }
  }

  lemma NoRoom(t: Tab, k: Key)
    requires NewTo(t, k) && (t.dummy || forall i :: 0 <= i < |t.node| ==> !IsFree(t.node[i]))
    ensures !Room(t, k)
  {}

  lemma ValuedTaken(hash: Hash, t: Tab, chain: Chains, i: nat)
    requires TabOk(hash, t, chain) && i < |t.node| && t.node[i].val.Some?
    ensures !IsFree(t.node[i])
  {}

  lemma SameMapTrans(t0: Tab, t1: Tab, t2: Tab)
    requires SameMap(t0, t1) && SameMap(t1, t2)
    ensures SameMap(t0, t2)
  {}

  lemma Usable(t: Tab, k: Key)
    requires NewTo(t, k)
    ensures k != KNil && k != KNaN
  {}

  lemma MadeVia(hash: Hash, t: Tab, t1: Tab, t': Tab, chain': Chains, s: Slot, k: Key)
    requires SameMap(t, t1) && SlotMade(hash, t1, t', chain', s, k)
    ensures SlotMade(hash, t, t', chain', s, k)
  {
    hide TabOk, UsedKeys;
  }

  lemma RoomIs(t: Tab, t': Tab, k: Key)
    requires t' == t.(lastfree := t'.lastfree) && Room(t, k)
    ensures Room(t', k)
  {
    if Present(t, k) {
      var i :| HasKey(t, k, i);
      assert HasKey(t', k, i);
    }
  }

  lemma MainInRange(hash: Hash, k: Key, size: nat)
    requires size > 0
    ensures MainPosition(hash, k, size) < size
  {}

  /** newkey (ltable.c:399-429) */
  method NewKey(tb: Table, k: Key, ghost nested: bool) returns (r: SetResult)
    requires TabOk(tb.hash, tb.t, tb.chain) && NewTo(tb.t, k)
    requires nested ==> Room(tb.t, k)
    modifies tb`t, tb`chain
    ensures r.At? || r.Overflow?
    ensures r.At? ==> SlotMade(tb.hash, old(tb.t), tb.t, tb.chain, r.s, k)
    ensures r.Overflow? ==> |Live(old(tb.t))| >= MAXASIZE
    ensures nested ==> r.At? && InPlace(old(tb.t), tb.t, k)
    decreases if nested then 0 else 1, 3
  {
    hide TabOk, MainPosition, KeyAdded, NewTo, SlotMade, InPlace, SameMap, Room, Live, FreePointerOk, UsedKeys;
    hide ValueOf, Present;
    NodesExist(tb.hash, tb.t, tb.chain);
    ghost var t0, chain0 := tb.t, tb.chain;
    var m := MainPosition(tb.hash, k, |tb.t.node|);
    MainInRange(tb.hash, k, |tb.t.node|);
    if tb.t.node[m].val.Some? || tb.t.dummy {
      var n := tb.GetFreePos();
      ghost var t1 := tb.t;
      if n == -1 {
        MovedPointer(tb.hash, t0, chain0, t1, k);
        NoRoom(t1, k);
        assert !nested by { if nested { RoomIs(t0, t1, k); } }
        var ok := Rehash(tb, k);
        if !ok { return Overflow; }
        SameMapTrans(t0, t1, tb.t);
        ghost var t2 := tb.t;
        Usable(t1, k);
        r := Set(tb, k, true);
        MadeVia(tb.hash, t0, t2, tb.t, tb.chain, r.s, k);
      } else {
        ValuedTaken(tb.hash, t0, chain0, m);
        var s := PlaceKey(tb, k, m, n, t0);
        AddedMakes(tb.hash, t0, tb.t, tb.chain, k, s.i);
        r := At(s);
      }
    } else {
      TakeMainTab(tb.hash, t0, chain0, k);
      tb.t := tb.t.(node := tb.t.node[m := tb.t.node[m].(key := k)]);
      AddedMakes(tb.hash, t0, tb.t, tb.chain, k, m);
      r := At(NodeSlot(m));
    }
  }

  /** luaH_set (ltable.c:494-505). A call from within a rehash never starts another. */
  method Set(tb: Table, k: Key, ghost nested: bool) returns (r: SetResult)
    requires TabOk(tb.hash, tb.t, tb.chain)
    requires nested ==> k != KNil && k != KNaN && Room(tb.t, k)
    modifies tb`t, tb`chain
    ensures r.NilIndex? <==> k == KNil
    ensures r.NanIndex? <==> k == KNaN
    ensures r.NilIndex? || r.NanIndex? ==> tb.t == old(tb.t) && tb.chain == old(tb.chain)
    ensures r.At? ==> SlotMade(tb.hash, old(tb.t), tb.t, tb.chain, r.s, k)
    ensures r.Overflow? ==> |Live(old(tb.t))| >= 67108864
    ensures nested ==> r.At? && InPlace(old(tb.t), tb.t, k)
    decreases if nested then 0 else 1, 4
  {
    hide TabOk, NewTo, SlotMade, InPlace, SlotFor, SameMap, Room, Live;
    var p := tb.GetSlot(k);
    SlotFound(tb.hash, tb.t, tb.chain, p, k);
    if p != NilObject {
      r := At(p);
    } else if k == KNil {
      r := NilIndex;
    } else if k == KNaN {
      r := NanIndex;
    } else {
      r := NewKey(tb, k, nested);
    }
  }

  lemma SlotFound(hash: Hash, t: Tab, chain: Chains, p: Slot, k: Key)
    requires TabOk(hash, t, chain) && SlotFor(t, p, k)
    ensures p != NilObject ==> k != KNil && k != KNaN && SlotMade(hash, t, t, chain, p, k) && InPlace(t, t, k)
    ensures p == NilObject && k != KNil && k != KNaN ==> NewTo(t, k)
  {
    hide HashOk;
    if p.NodeSlot? { assert HashKey(t, t.node[p.i].key); }
  }
}
