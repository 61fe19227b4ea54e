/** The hash part of a Lua table (ltable.c): a chained scatter table with Brent's variation. */
module TableModel {

  datatype Option<+T> = None | Some(value: T)

  /** A value other than nil, by identity. */
  type Value = int

  /** Keys: nil, NaN, numbers that convert to an int, and all the rest under an opaque equality. */
  datatype Key = KNil | KNaN | KInt(n: int) | KOther(id: nat)

  /** A node is free when its key is nil. `next` is -1 at the end of a chain. */
  datatype Node = Node(key: Key, val: Option<Value>, next: int)

  /** A table: array part, node vector, the free pointer, and whether the node vector is the
      common dummy node. */
  datatype Tab = Tab(arr: seq<Option<Value>>, node: seq<Node>, lastfree: int, dummy: bool)

  /** The hash function picks a position in a vector of the given size. */
  type Hash = (Key, nat) -> nat

  function MainPosition(hash: Hash, key: Key, size: nat): (i: nat)
    requires size > 0
    ensures i < size
  {
    hash(key, size) % size
  }

  predicate IsFree(n: Node) { n.key == KNil }

  // ----- chains -----

  /** `chain[i]` lists the nodes from `i` to the end of its chain. */
  type Chains = seq<seq<nat>>

  ghost predicate ChainsOk(node: seq<Node>, chain: Chains) {
    && |chain| == |node|
    && (forall i :: 0 <= i < |node| ==> -1 <= node[i].next < |node|)
    && (forall i :: 0 <= i < |node| ==> ChainAt(node, chain, i))
  }

  ghost predicate ChainAt(node: seq<Node>, chain: Chains, i: nat)
    requires i < |node| == |chain| && -1 <= node[i].next < |node|
  {
    chain[i] == [i] + if node[i].next == -1 then [] else chain[node[i].next]
  }

  /** No node follows two others, and none follows or is followed by a free one. */
  ghost predicate LinksOk(node: seq<Node>) {
    && (forall i, j :: 0 <= i < j < |node| && node[i].next == node[j].next ==> node[i].next == -1)
    && (forall i :: 0 <= i < |node| && IsFree(node[i]) ==> node[i].val == None && node[i].next == -1)
    && (forall i :: 0 <= i < |node| && 0 <= node[i].next < |node| ==> !IsFree(node[node[i].next]))
  }

  /** Keys are distinct, can be found from their main position, and a key away from its main position
      gave way to one that is in its own. */
  ghost predicate KeysOk(hash: Hash, node: seq<Node>, chain: Chains)
    requires ChainsOk(node, chain)
  {
    && (forall i, j :: 0 <= i < j < |node| && node[i].key == node[j].key ==> IsFree(node[i]))
    && (forall i :: 0 <= i < |node| && !IsFree(node[i]) ==> Placed(hash, node, chain, i))
  }

  ghost predicate Placed(hash: Hash, node: seq<Node>, chain: Chains, i: nat)
    requires ChainsOk(node, chain) && i < |node|
  {
    var m := MainPosition(hash, node[i].key, |node|);
    && i in chain[m]
    && (i != m ==> !IsFree(node[m]) && MainPosition(hash, node[m].key, |node|) == m)
  }

  ghost predicate HashOk(hash: Hash, node: seq<Node>, chain: Chains) {
    |node| > 0 && ChainsOk(node, chain) && LinksOk(node) && KeysOk(hash, node, chain)
  }

  /** Chains get shorter, so they end. */
  lemma {:induction false} ChainShrinks(node: seq<Node>, chain: Chains, i: nat, j: nat)
    requires ChainsOk(node, chain) && i < |node| && j in chain[i]
    ensures j < |node| && (j == i || |chain[j]| < |chain[i]|)
    decreases |chain[i]|
  {
    assert ChainAt(node, chain, i);
    if j != i {
      ChainShrinks(node, chain, node[i].next, j);
    }
  }

  lemma ChainHead(node: seq<Node>, chain: Chains, i: nat)
    requires ChainsOk(node, chain) && i < |node|
    ensures chain[i] != [] && chain[i][0] == i && i !in chain[i][1..]
  {
    assert ChainAt(node, chain, i);
    if i in chain[i][1..] {
      ChainShrinks(node, chain, node[i].next, i);
    }
  }

  /** A free node is alone: no chain but its own goes through it. */
  lemma {:induction false} FreeAlone(node: seq<Node>, chain: Chains, i: nat, n: nat)
    requires ChainsOk(node, chain) && LinksOk(node) && i < |node| && n < |node| && IsFree(node[n]) && n != i
    ensures n !in chain[i]
    decreases |chain[i]|
  {
    assert ChainAt(node, chain, i);
    if node[i].next != -1 {
      FreeAlone(node, chain, node[i].next, n);
    }
  }

  // ----- case 1: the main position holds no value -----

  lemma TakeMain(hash: Hash, node: seq<Node>, chain: Chains, key: Key)
    requires HashOk(hash, node, chain) && key != KNil && forall i :: 0 <= i < |node| ==> node[i].key != key
    requires node[MainPosition(hash, key, |node|)].val == None
    ensures var m := MainPosition(hash, key, |node|); HashOk(hash, node[m := node[m].(key := key)], chain)
  {
    var m := MainPosition(hash, key, |node|);
    var node' := node[m := node[m].(key := key)];
    assert forall i :: 0 <= i < |node| ==> node'[i].next == node[i].next;
    ChainHead(node, chain, m);
    forall i | 0 <= i < |node'| ensures ChainAt(node', chain, i) { assert ChainAt(node, chain, i); }
    forall i | 0 <= i < |node'| && !IsFree(node'[i]) ensures Placed(hash, node', chain, i) {
      if i != m { assert Placed(hash, node, chain, i); }
    }
  }

  // ----- case 2: the colliding node is not in its main position and moves to the free node -----

  function Swap(s: seq<nat>, m: nat, n: nat): (r: seq<nat>)
    ensures |r| == |s| && forall i :: 0 <= i < |s| ==> r[i] == if s[i] == m then n else s[i]
  {
    seq(|s|, i requires 0 <= i < |s| => if s[i] == m then n else s[i])
  }

  ghost function Tail(s: seq<nat>): seq<nat> { if s == [] then [] else s[1..] }

  ghost function MovedChain(chain: Chains, m: nat, n: nat, i: nat): seq<nat>
    requires m < |chain| && n < |chain| && i < |chain|
  {
    if i == n then [n] + Tail(chain[m]) else if i == m then [m] else Swap(chain[i], m, n)
  }

  ghost function MovedChains(chain: Chains, m: nat, n: nat): (r: Chains)
    requires m < |chain| && n < |chain|
    ensures |r| == |chain| && forall i :: 0 <= i < |chain| ==> r[i] == MovedChain(chain, m, n, i)
  {
    seq(|chain|, i requires 0 <= i < |chain| => MovedChain(chain, m, n, i))
  }

  /** ltable.c:412-416: `prev` now leads to `n`, which takes over the node `m`. */
  function MoveNode(node: seq<Node>, m: nat, n: nat, prev: nat): seq<Node>
    requires m < |node| && n < |node| && prev < |node|
  {
    node[prev := node[prev].(next := n)][n := node[m]][m := node[m].(next := -1, val := None)]
  }

  lemma MoveChainAt(node: seq<Node>, chain: Chains, m: nat, n: nat, prev: nat, i: nat)
    requires ChainsOk(node, chain) && m < |node| && n < |node| && prev < |node| && i < |node|
    requires m != n && prev != m && prev != n && node[prev].next == m && node[m].next != m && node[m].next != n
    requires node[i].next == m ==> i == prev
    requires node[i].next != n
    ensures var node' := MoveNode(node, m, n, prev);
      -1 <= node'[i].next < |node'| && ChainAt(node', MovedChains(chain, m, n), i)
  {
    hide MovedChains, Swap, ChainsOk;
    ChainHead(node, chain, m);
    ChainIs(node, chain, i);
    ChainIs(node, chain, m);
    var k := node[i].next;
    if i == n {
      var j := node[m].next;
      if j != -1 {
        assert Tail(chain[m]) == chain[j];
        SwapAbsent(chain[j], m, n);
      }
    } else if i == prev {
      SwapAbsent(Tail(chain[m]), m, n);
      SwapCons(m, Tail(chain[m]), m, n);
      SwapCons(i, chain[m], m, n);
      assert chain[m] == [m] + Tail(chain[m]);
    } else if i != m && k != -1 {
      SwapCons(i, chain[k], m, n);
    }
  }

  lemma ChainIs(node: seq<Node>, chain: Chains, i: nat)
    requires ChainsOk(node, chain) && i < |node|
    ensures |chain| == |node| && -1 <= node[i].next < |node| && ChainAt(node, chain, i)
  {}

  lemma SwapCons(x: nat, s: seq<nat>, m: nat, n: nat)
    ensures Swap([x] + s, m, n) == [if x == m then n else x] + Swap(s, m, n)
  {}

  lemma MoveChains(node: seq<Node>, chain: Chains, m: nat, n: nat, prev: nat)
    requires ChainsOk(node, chain) && LinksOk(node) && m < |node| && n < |node| && prev < |node|
    requires IsFree(node[n]) && !IsFree(node[m]) && node[prev].next == m && prev != m
    ensures ChainsOk(MoveNode(node, m, n, prev), MovedChains(chain, m, n))
  {
    var node', chain' := MoveNode(node, m, n, prev), MovedChains(chain, m, n);
    assert prev != n && node[n].next == -1;
    assert node[m].next != m;
    assert node[m].next != n by { assert 0 <= node[m].next ==> !IsFree(node[node[m].next]); }
    forall i | 0 <= i < |node'| ensures -1 <= node'[i].next < |node'| && ChainAt(node', chain', i) {
      assert node[i].next == m ==> i == prev;
      MoveChainAt(node, chain, m, n, prev, i);
    }
  }

  lemma SwapAbsent(s: seq<nat>, m: nat, n: nat)
    requires m !in s
    ensures Swap(s, m, n) == s
  {}

  /** The situation of ltable.c:410: the node `m` is in the way of `key` and not at its own place. */
  ghost predicate InTheWay(hash: Hash, node: seq<Node>, m: nat, n: nat, key: Key) {
    && m < |node| && n < |node| && IsFree(node[n]) && !IsFree(node[m])
    && key != KNil && (forall i :: 0 <= i < |node| ==> node[i].key != key)
    && MainPosition(hash, key, |node|) == m
  }

  lemma MovePlaced(hash: Hash, node: seq<Node>, chain: Chains, m: nat, n: nat, prev: nat, key: Key, i: nat)
    requires HashOk(hash, node, chain) && InTheWay(hash, node, m, n, key) && prev < |node| && prev != n
    requires MainPosition(hash, node[m].key, |node|) != m
    requires ChainsOk(MovedNode(node, m, n, prev, key), MovedChains(chain, m, n))
    requires i < |node| && !IsFree(MovedNode(node, m, n, prev, key)[i])
    ensures Placed(hash, MovedNode(node, m, n, prev, key), MovedChains(chain, m, n), i)
  {
    MovedKeys(node, m, n, prev, key);
    hide MainPosition, MovedNode, ChainsOk, LinksOk;
    var node', chain' := MovedNode(node, m, n, prev, key), MovedChains(chain, m, n);
    if i == m {
      assert chain'[m][0] == m;
    } else {
      var i0 := if i == n then m else i;
      assert node'[i].key == node[i0].key && Placed(hash, node, chain, i0);
      var h := MainPosition(hash, node[i0].key, |node|);
      assert h != m && h != n;
      var p :| 0 <= p < |chain[h]| && chain[h][p] == i0;
      assert chain'[h][p] == i;
    }
  }

  lemma MovedKeys(node: seq<Node>, m: nat, n: nat, prev: nat, key: Key)
    requires m < |node| && n < |node| && prev < |node| && prev != n && m != n
    ensures var node' := MovedNode(node, m, n, prev, key);
      && |node'| == |node| && node'[m].key == key && node'[n].key == node[m].key
      && forall i :: 0 <= i < |node| && i != m && i != n ==> node'[i].key == node[i].key
  {}

  /** The vector after the move, with the new key in place. */
  function MovedNode(node: seq<Node>, m: nat, n: nat, prev: nat, key: Key): seq<Node>
    requires m < |node| && n < |node| && prev < |node|
  {
    var node' := MoveNode(node, m, n, prev);
    node'[m := node'[m].(key := key)]
  }

  lemma MoveKeys(hash: Hash, node: seq<Node>, chain: Chains, m: nat, n: nat, prev: nat, key: Key)
    requires HashOk(hash, node, chain) && InTheWay(hash, node, m, n, key)
    requires prev < |node| && node[prev].next == m && prev != m && MainPosition(hash, node[m].key, |node|) != m
    ensures HashOk(hash, MovedNode(node, m, n, prev, key), MovedChains(chain, m, n))
  {
    hide MainPosition, MovedChains, Placed;
    var node', chain' := MovedNode(node, m, n, prev, key), MovedChains(chain, m, n);
    MovedChainsOk(node, chain, m, n, prev, key);
    MoveLinks(node, m, n, prev, key);
    forall i | 0 <= i < |node'| && !IsFree(node'[i]) ensures Placed(hash, node', chain', i) {
      MovePlaced(hash, node, chain, m, n, prev, key, i);
    }
    MoveDistinct(node, m, n, prev, key);
  }

  lemma MovedChainsOk(node: seq<Node>, chain: Chains, m: nat, n: nat, prev: nat, key: Key)
    requires ChainsOk(node, chain) && LinksOk(node) && m < |node| && n < |node| && prev < |node|
    requires IsFree(node[n]) && !IsFree(node[m]) && node[prev].next == m && prev != m
    ensures ChainsOk(MovedNode(node, m, n, prev, key), MovedChains(chain, m, n))
  {
    hide MovedChains;
    var node1, node', chain' := MoveNode(node, m, n, prev), MovedNode(node, m, n, prev, key), MovedChains(chain, m, n);
    MoveChains(node, chain, m, n, prev);
    assert forall i :: 0 <= i < |node| ==> node'[i].next == node1[i].next;
    forall i | 0 <= i < |node'| ensures ChainAt(node', chain', i) { assert ChainAt(node1, chain', i); }
  }

  lemma MoveDistinct(node: seq<Node>, m: nat, n: nat, prev: nat, key: Key)
    requires m < |node| && n < |node| && prev < |node| && prev != n && m != n
    requires forall i :: 0 <= i < |node| ==> node[i].key != key
    requires forall i, j :: 0 <= i < j < |node| && node[i].key == node[j].key ==> IsFree(node[i])
    ensures var node' := MovedNode(node, m, n, prev, key);
      forall i, j :: 0 <= i < j < |node'| && node'[i].key == node'[j].key ==> IsFree(node'[i])
  {
    var node' := MovedNode(node, m, n, prev, key);
    assert forall i :: 0 <= i < |node| && i != m ==> node'[i].key == node[if i == n then m else i].key;
  }

  lemma MoveLinks(node: seq<Node>, m: nat, n: nat, prev: nat, key: Key)
    requires LinksOk(node) && m < |node| && n < |node| && prev < |node| && key != KNil
    requires IsFree(node[n]) && !IsFree(node[m]) && node[prev].next == m && prev != m
    requires forall i :: 0 <= i < |node| ==> node[i].next < |node|
    ensures var node' := MoveNode(node, m, n, prev); LinksOk(node'[m := node'[m].(key := key)])
  {
    var node1 := MoveNode(node, m, n, prev);
    var node' := node1[m := node1[m].(key := key)];
    forall i, j | 0 <= i < j < |node'| && node'[i].next == node'[j].next ensures node'[i].next == -1 {
      var i0, j0 := if i == n then m else i, if j == n then m else j;
      if i != m && j != m && i != prev && j != prev {
        assert node[i0].next == node'[i].next && node[j0].next == node'[j].next;
      }
    }
  }

  // ----- case 3: the colliding node is in its main position; the new key goes to the free node -----

  function Insert(s: seq<nat>, m: nat, n: nat): (r: seq<nat>)
    ensures forall x :: x in s ==> x in r
    ensures m in s ==> n in r
    ensures m !in s ==> r == s
  {
    if s == [] then [] else if s[0] == m then [m, n] + s[1..] else [s[0]] + Insert(s[1..], m, n)
  }

  ghost function InsertedChain(chain: Chains, m: nat, n: nat, i: nat): seq<nat>
    requires m < |chain| && n < |chain| && i < |chain|
  {
    if i == n then [n] + Tail(chain[m]) else Insert(chain[i], m, n)
  }

  ghost function InsertedChains(chain: Chains, m: nat, n: nat): (r: Chains)
    requires m < |chain| && n < |chain|
    ensures |r| == |chain| && forall i :: 0 <= i < |chain| ==> r[i] == InsertedChain(chain, m, n, i)
  {
    seq(|chain|, i requires 0 <= i < |chain| => InsertedChain(chain, m, n, i))
  }

  /** ltable.c:420-422: `n` is chained after `m`. */
  function ChainNode(node: seq<Node>, m: nat, n: nat, key: Key): seq<Node>
    requires m < |node| && n < |node|
  {
    node[n := Node(key, None, node[m].next)][m := node[m].(next := n)]
  }

  lemma InsertChainAt(node: seq<Node>, chain: Chains, m: nat, n: nat, key: Key, i: nat)
    requires ChainsOk(node, chain) && m < |node| && n < |node| && i < |node|
    requires m != n && node[m].next != m && node[m].next != n && node[i].next != n
    ensures var node' := ChainNode(node, m, n, key);
      -1 <= node'[i].next < |node'| && ChainAt(node', InsertedChains(chain, m, n), i)
  {
    hide InsertedChains, ChainsOk;
    ChainHead(node, chain, m);
    ChainIs(node, chain, i);
    ChainIs(node, chain, m);
    var k := node[i].next;
    if i == n {
      if node[m].next != -1 {
        assert Tail(chain[m]) == chain[node[m].next];
        assert m !in chain[node[m].next];
      }
    } else if i == m {
      assert Insert(chain[m], m, n) == [m] + ([n] + Tail(chain[m]));
    } else if k != -1 {
      assert chain[i][1..] == chain[k];
    }
  }

  lemma InsertChains(node: seq<Node>, chain: Chains, m: nat, n: nat, key: Key)
    requires ChainsOk(node, chain) && LinksOk(node) && m < |node| && n < |node|
    requires IsFree(node[n]) && !IsFree(node[m])
    ensures ChainsOk(ChainNode(node, m, n, key), InsertedChains(chain, m, n))
  {
    var node', chain' := ChainNode(node, m, n, key), InsertedChains(chain, m, n);
    ChainHead(node, chain, m);
    assert ChainAt(node, chain, m);
    forall i | 0 <= i < |node'| ensures -1 <= node'[i].next < |node'| && ChainAt(node', chain', i) {
      assert 0 <= node[i].next ==> !IsFree(node[node[i].next]);
      if node[m].next == m { ChainHead(node, chain, m); }
      InsertChainAt(node, chain, m, n, key, i);
    }
  }

  lemma InsertPlaced(hash: Hash, node: seq<Node>, chain: Chains, m: nat, n: nat, key: Key, i: nat)
    requires HashOk(hash, node, chain) && InTheWay(hash, node, m, n, key)
    requires MainPosition(hash, node[m].key, |node|) == m
    requires ChainsOk(ChainNode(node, m, n, key), InsertedChains(chain, m, n))
    requires i < |node| && !IsFree(ChainNode(node, m, n, key)[i])
    ensures Placed(hash, ChainNode(node, m, n, key), InsertedChains(chain, m, n), i)
  {
    hide MainPosition;
    ChainHead(node, chain, m);
    if i != n {
      assert Placed(hash, node, chain, i);
      var h := MainPosition(hash, node[i].key, |node|);
      assert h != n;
    }
  }

  lemma InsertKeys(hash: Hash, node: seq<Node>, chain: Chains, m: nat, n: nat, key: Key)
    requires HashOk(hash, node, chain) && InTheWay(hash, node, m, n, key)
    requires MainPosition(hash, node[m].key, |node|) == m
    ensures HashOk(hash, ChainNode(node, m, n, key), InsertedChains(chain, m, n))
  {
    hide MainPosition, InsertedChains, Placed, ChainNode;
    InsertChains(node, chain, m, n, key);
    InsertLinks(node, m, n, key);
    InsertDistinct(node, m, n, key);
    var node', chain' := ChainNode(node, m, n, key), InsertedChains(chain, m, n);
    forall i | 0 <= i < |node'| && !IsFree(node'[i]) ensures Placed(hash, node', chain', i) {
      InsertPlaced(hash, node, chain, m, n, key, i);
    }
  }

  lemma InsertDistinct(node: seq<Node>, m: nat, n: nat, key: Key)
    requires m < |node| && n < |node| && forall i :: 0 <= i < |node| ==> node[i].key != key
    requires forall i, j :: 0 <= i < j < |node| && node[i].key == node[j].key ==> IsFree(node[i])
    ensures var node' := ChainNode(node, m, n, key);
      |node'| == |node| && forall i, j :: 0 <= i < j < |node'| && node'[i].key == node'[j].key ==> IsFree(node'[i])
  {
    var node' := ChainNode(node, m, n, key);
    assert forall i :: 0 <= i < |node| && i != n ==> node'[i].key == node[i].key;
  }

  lemma InsertLinks(node: seq<Node>, m: nat, n: nat, key: Key)
    requires LinksOk(node) && m < |node| && n < |node| && key != KNil
    requires IsFree(node[n]) && !IsFree(node[m])
    requires forall i :: 0 <= i < |node| ==> node[i].next < |node|
    ensures LinksOk(ChainNode(node, m, n, key))
  {
    var node' := ChainNode(node, m, n, key);
    assert node[n].next == -1 && m != n;
    assert forall i :: 0 <= i < |node| && i != m && i != n ==> node'[i] == node[i] && node[i].next != n;
    forall i, j | 0 <= i < j < |node'| && node'[i].next == node'[j].next ensures node'[i].next == -1 {
      if i != m && j != m {
        var i0, j0 := if i == n then m else i, if j == n then m else j;
        assert node[i0].next == node'[i].next && node[j0].next == node'[j].next && i0 != j0;
      }
    }
  }
}
