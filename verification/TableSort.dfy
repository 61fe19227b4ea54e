/** The quicksort of table.sort (ltablib.c:173-254), on the elements of the array part. */
module TableSort {

  type Less = (int, int) -> bool

  /** `x` need not come after `y`. */
  predicate Le(lt: Less, x: int, y: int) { !lt(y, x) }

  /** A strict weak order: asymmetric, and not being less is transitive. */
  ghost predicate StrictWeak(lt: Less) {
    && (forall x, y :: Le(lt, x, y) || Le(lt, y, x))
    && (forall x, y, z :: Le(lt, x, y) && Le(lt, y, z) ==> Le(lt, x, z))
  }

  /** Only positions from `l` to `u` have changed, and their elements are the same. */
  ghost predicate Permuted(s: seq<int>, s': seq<int>, l: int, u: int) {
    && |s'| == |s| && 0 <= l <= u + 1 <= |s|
    && (forall k :: 0 <= k < |s| && !(l <= k <= u) ==> s'[k] == s[k])
    && multiset(s'[l..u + 1]) == multiset(s[l..u + 1])
  }

  lemma PermutedTrans(s: seq<int>, s1: seq<int>, s2: seq<int>, l: int, u: int)
    requires Permuted(s, s1, l, u) && Permuted(s1, s2, l, u)
    ensures Permuted(s, s2, l, u)
  {}

  /** A permutation of a part is one of the whole. */
  lemma PermutedWider(s: seq<int>, s': seq<int>, l: int, u: int, lo: int, hi: int)
    requires Permuted(s, s', l, u) && 0 <= lo <= l && u <= hi < |s|
    ensures Permuted(s, s', lo, hi)
  {
    assert s[lo..hi + 1] == s[lo..l] + s[l..u + 1] + s[u + 1..hi + 1];
    assert s'[lo..hi + 1] == s'[lo..l] + s'[l..u + 1] + s'[u + 1..hi + 1];
    assert s[lo..l] == s'[lo..l] && s[u + 1..hi + 1] == s'[u + 1..hi + 1];
  }

  function Swapped(s: seq<int>, i: int, j: int): seq<int>
    requires 0 <= i < |s| && 0 <= j < |s|
  {
    s[i := s[j]][j := s[i]]
  }

  lemma SwapPermutes(s: seq<int>, i: int, j: int, l: int, u: int)
    requires 0 <= l <= i <= u < |s| && l <= j <= u
    ensures Permuted(s, Swapped(s, i, j), l, u)
  {
    var t := s[l..u + 1];
    assert Swapped(s, i, j)[l..u + 1] == t[i - l := t[j - l]][j - l := t[i - l]];
  }

  /** Every element of a part comes from that part. */
  lemma Origin(s: seq<int>, s': seq<int>, l: int, u: int, k: int) returns (k0: int)
    requires Permuted(s, s', l, u) && l <= k <= u
    ensures l <= k0 <= u && s[k0] == s'[k]
  {
    assert s'[l..u + 1][k - l] == s'[k];
    assert s'[k] in multiset(s[l..u + 1]);
    var x :| 0 <= x < u + 1 - l && s[l..u + 1][x] == s'[k];
    k0 := x + l;
  }

  // ----- order, but for two parts -----

  /** Positions `p` before `q` inside one part. */
  predicate Inside(p: int, q: int, l: int, u: int) { l <= p && q <= u }

  /** From `lo` to `hi` everything is in order, except perhaps pairs inside [l, u] or inside [l', u']. */
  ghost predicate OrderedBut(lt: Less, s: seq<int>, lo: int, hi: int, l: int, u: int, l': int, u': int) {
    && 0 <= lo && hi < |s|
    && forall p, q :: lo <= p < q <= hi && !Inside(p, q, l, u) && !Inside(p, q, l', u') ==> Le(lt, s[p], s[q])
  }

  ghost predicate Sorted(lt: Less, s: seq<int>, l: int, u: int) {
    0 <= l && u < |s| && forall p, q :: l <= p < q <= u ==> Le(lt, s[p], s[q])
  }

  /** Permuting one of the parts changes no pair that was in order. */
  lemma PermuteKeepsOrder(lt: Less, s: seq<int>, s': seq<int>, lo: int, hi: int, l: int, u: int, l': int, u': int)
    requires OrderedBut(lt, s, lo, hi, l, u, l', u') && Permuted(s, s', l, u) && lo <= l && u <= hi
    requires l' > u || u' < l
    ensures OrderedBut(lt, s', lo, hi, l, u, l', u')
  {
    forall p, q | lo <= p < q <= hi && !Inside(p, q, l, u) && !Inside(p, q, l', u') ensures Le(lt, s'[p], s'[q]) {
      var p0, q0 := p, q;
      if l <= p <= u { p0 := Origin(s, s', l, u, p); }
      if l <= q <= u { q0 := Origin(s, s', l, u, q); }
      assert lo <= p0 < q0 <= hi && !Inside(p0, q0, l, u) && !Inside(p0, q0, l', u');
    }
  }

  lemma SortedPart(lt: Less, s: seq<int>, lo: int, hi: int, l: int, u: int, l': int, u': int)
    requires OrderedBut(lt, s, lo, hi, l, u, l', u') && Sorted(lt, s, l, u)
    ensures OrderedBut(lt, s, lo, hi, l', u', l', u')
  {}

  /** The pivot at `i` separates the elements. */
  ghost predicate Split(lt: Less, s: seq<int>, l: int, i: int, u: int) {
    && 0 <= l <= i <= u < |s|
    && (forall k :: l <= k < i ==> Le(lt, s[k], s[i])) && (forall k :: i < k <= u ==> Le(lt, s[i], s[k]))
  }

  lemma SplitOrder(lt: Less, s: seq<int>, lo: int, hi: int, l: int, i: int, u: int)
    requires StrictWeak(lt) && OrderedBut(lt, s, lo, hi, l, u, l, u) && Split(lt, s, l, i, u)
    ensures OrderedBut(lt, s, lo, hi, l, i - 1, i + 1, u)
  {
    forall p, q | lo <= p < q <= hi && !Inside(p, q, l, i - 1) && !Inside(p, q, i + 1, u) ensures Le(lt, s[p], s[q]) {
      if Inside(p, q, l, u) {
        assert p < i ==> Le(lt, s[p], s[i]);
        assert i < q ==> Le(lt, s[i], s[q]);
        assert p <= i <= q;
      }
    }
  }

  // ----- the depth of recursion -----

  function Pow2(n: nat): nat { if n == 0 then 1 else 2 * Pow2(n - 1) }

  /** At most the logarithm of the number of elements. */
  ghost predicate Shallow(d: nat, n: int) { Pow2(d) <= if n < 1 then 1 else n }

  function Max(a: nat, b: nat): nat { if a < b then b else a }

  lemma DeeperShallow(d: nat, m: int, n: int)
    requires Shallow(d, m) && 2 * m < n && n >= 4
    ensures Shallow(d + 1, n)
  {}

  // ----- the steps of auxsort -----

  method Swap(a: array<int>, i: int, j: int)
    requires 0 <= i < a.Length && 0 <= j < a.Length
    modifies a
    ensures a[..] == Swapped(old(a[..]), i, j)
  {
    a[i], a[j] := a[j], a[i];
  }

  /** The ends are in order (ltablib.c:197-202). */
  method OrderEnds(a: array<int>, l: int, u: int, lt: Less)
    requires 0 <= l < u < a.Length && StrictWeak(lt)
    modifies a
    ensures Permuted(old(a[..]), a[..], l, u) && Le(lt, a[l], a[u])
  {
    SwapPermutes(a[..], l, u, l, u);
    if lt(a[u], a[l]) {
      Swap(a, l, u);
      assert a[..][l] == old(a[..])[u] && a[..][u] == old(a[..])[l];
    }
  }

  /** The middle element is between the ends (ltablib.c:204-216). */
  method OrderMiddle(a: array<int>, l: int, i: int, u: int, lt: Less)
    requires 0 <= l < i < u < a.Length && StrictWeak(lt) && Le(lt, a[l], a[u])
    modifies a
    ensures Permuted(old(a[..]), a[..], l, u) && Le(lt, a[l], a[i]) && Le(lt, a[i], a[u])
  {
    ghost var s := a[..];
    SwapPermutes(s, i, l, l, u);
    SwapPermutes(s, i, u, l, u);
    if lt(a[i], a[l]) {
      Swap(a, i, l);
      assert a[..][l] == s[i] && a[..][i] == s[l] && a[..][u] == s[u];
    } else if lt(a[u], a[i]) {
      Swap(a, i, u);
      assert a[..][l] == s[l] && a[..][i] == s[u] && a[..][u] == s[i];
    }
  }

  /** `while (a[++i] < P)` (ltablib.c:225-229): it stops at the pivot at the latest. */
  method ScanUp(a: array<int>, l: int, u: int, i0: int, P: int, lt: Less) returns (i: int)
    requires StrictWeak(lt) && 0 <= l <= i0 < u - 1 && u < a.Length && a[u - 1] == P
    requires forall k :: l <= k <= i0 ==> Le(lt, a[k], P)
    ensures i0 < i <= u - 1 && Le(lt, P, a[i]) && forall k :: l <= k < i ==> Le(lt, a[k], P)
  {
    i := i0 + 1;
    while lt(a[i], P)
      invariant i0 < i <= u - 1 && forall k :: l <= k < i ==> Le(lt, a[k], P)
      decreases u - i
    {
      assert !Le(lt, P, a[i]) && Le(lt, P, P);
      i := i + 1;
    }
  }

  /** `while (P < a[--j])` (ltablib.c:230-234): it stops at a[l] at the latest. */
  method ScanDown(a: array<int>, l: int, u: int, j0: int, P: int, lt: Less) returns (j: int)
    requires StrictWeak(lt) && 0 <= l < j0 <= u < a.Length && Le(lt, a[l], P)
    requires forall k :: j0 <= k <= u ==> Le(lt, P, a[k])
    ensures l <= j < j0 && Le(lt, a[j], P) && forall k :: j < k <= u ==> Le(lt, P, a[k])
  {
    j := j0 - 1;
    while lt(P, a[j])
      invariant l <= j < j0 && forall k :: j < k <= u ==> Le(lt, P, a[k])
      decreases j
    {
      assert !Le(lt, a[j], P);
      j := j - 1;
    }
  }

  /** Up to `i` nothing is above the pivot `P`, from `j` on nothing is below it, and it waits at u - 1. */
  ghost predicate Scanning(lt: Less, s: seq<int>, l: int, u: int, i: int, j: int, P: int) {
    && 0 <= l <= i <= j <= u - 1 && u < |s| && l < j && i < u - 1 && s[u - 1] == P && Le(lt, s[l], P)
    && (forall k :: l <= k <= i ==> Le(lt, s[k], P))
    && (forall k :: j <= k <= u ==> Le(lt, P, s[k]))
  }

  lemma SwapScanned(lt: Less, s: seq<int>, l: int, u: int, i: int, j: int, P: int)
    requires 0 <= l < i <= j < u - 1 && u < |s| && s[u - 1] == P && Le(lt, P, s[i]) && Le(lt, s[j], P)
    requires (forall k :: l <= k < i ==> Le(lt, s[k], P)) && (forall k :: j < k <= u ==> Le(lt, P, s[k]))
    ensures Scanning(lt, Swapped(s, i, j), l, u, i, j, P)
  {}

  lemma PivotPlaced(lt: Less, s: seq<int>, l: int, u: int, i: int, j: int, P: int)
    requires StrictWeak(lt) && Crossed(lt, s, l, u, i, j, P)
    ensures Split(lt, Swapped(s, u - 1, i), l, i, u)
  {}

  /** One round of the partition loop (ltablib.c:224-240): either the scans crossed, or the two elements they
      found change places. */
  method PartitionRound(a: array<int>, l: int, u: int, i0: int, j0: int, P: int, lt: Less, ghost s0: seq<int>)
    returns (crossed: bool, i: int, j: int)
    requires StrictWeak(lt) && Scanning(lt, a[..], l, u, i0, j0, P) && Permuted(s0, a[..], l, u)
    modifies a
    ensures Permuted(s0, a[..], l, u) && l < i <= u - 1 && l <= j < j0
    ensures crossed ==> Crossed(lt, a[..], l, u, i, j, P)
    ensures !crossed ==> Scanning(lt, a[..], l, u, i, j, P)
  {
    hide Permuted, Swapped, StrictWeak;
    i := ScanUp(a, l, u, i0, P, lt);
    j := ScanDown(a, l, u, j0, P, lt);
    if j < i { return true, i, j; }
    ghost var s := a[..];
    SwapScanned(lt, s, l, u, i, j, P);
    SwapPermutes(s, i, j, l, u);
    hide Scanning;
    Swap(a, i, j);
    PermutedTrans(s0, s, a[..], l, u);
    crossed := false;
  }

  ghost predicate Crossed(lt: Less, s: seq<int>, l: int, u: int, i: int, j: int, P: int) {
    && 0 <= l < i <= u - 1 && l <= j < i && u < |s| && s[u - 1] == P
    && (forall k :: l <= k < i ==> Le(lt, s[k], P)) && (forall k :: j < k <= u ==> Le(lt, P, s[k]))
  }

  /** The partition loop and the swap that puts the pivot into place (ltablib.c:223-243). */
  method Partition(a: array<int>, l: int, u: int, lt: Less) returns (i: int)
    requires StrictWeak(lt) && 0 <= l && l + 3 <= u < a.Length && Le(lt, a[l], a[u - 1]) && Le(lt, a[u - 1], a[u])
    modifies a
    ensures Permuted(old(a[..]), a[..], l, u) && Split(lt, a[..], l, i, u) && l < i < u
  {
    ghost var s0 := a[..];
    var P := a[u - 1];
    i := l;
    var j := u - 1;
    var crossed := false;
    PermutedSelf(s0, l, u);
    assert Le(lt, P, P);
    assert Scanning(lt, s0, l, u, i, j, P);
    hide Permuted, Split, Swapped, Scanning, Crossed, StrictWeak;
    while !crossed
      invariant Permuted(s0, a[..], l, u)
      invariant if crossed then Crossed(lt, a[..], l, u, i, j, P) && l < i <= u - 1
        else Scanning(lt, a[..], l, u, i, j, P)
      decreases !crossed, j + |s0|
    {
      ScanningBounds(lt, a[..], l, u, i, j, P);
      crossed, i, j := PartitionRound(a, l, u, i, j, P, lt, s0);
    }
    PlacePivot(a, l, u, i, j, P, lt, s0);
  }

  /** The pivot changes places with the first element that is not below it (ltablib.c:241-243). */
  method PlacePivot(a: array<int>, l: int, u: int, i: int, ghost j: int, ghost P: int, lt: Less, ghost s0: seq<int>)
    requires StrictWeak(lt) && Crossed(lt, a[..], l, u, i, j, P) && Permuted(s0, a[..], l, u)
    modifies a
    ensures Permuted(s0, a[..], l, u) && Split(lt, a[..], l, i, u)
  {
    hide *;
    PivotStep(lt, a[..], l, u, i, j, P, s0);
    Swap(a, u - 1, i);
  }

  lemma PivotStep(lt: Less, s: seq<int>, l: int, u: int, i: int, j: int, P: int, s0: seq<int>)
    requires StrictWeak(lt) && Crossed(lt, s, l, u, i, j, P) && Permuted(s0, s, l, u)
    ensures 0 <= i < |s| && 0 <= u - 1 < |s|
    ensures Permuted(s0, Swapped(s, u - 1, i), l, u) && Split(lt, Swapped(s, u - 1, i), l, i, u)
  {
    PivotPlaced(lt, s, l, u, i, j, P);
    hide Permuted, Split, Swapped, StrictWeak;
    SwapPermutes(s, u - 1, i, l, u);
    PermutedTrans(s0, s, Swapped(s, u - 1, i), l, u);
  }

  lemma ScanningBounds(lt: Less, s: seq<int>, l: int, u: int, i: int, j: int, P: int)
    requires Scanning(lt, s, l, u, i, j, P)
    ensures 0 <= j
  {}

  lemma PermutedSelf(s: seq<int>, l: int, u: int)
    requires 0 <= l <= u + 1 <= |s|
    ensures Permuted(s, s, l, u)
  {}

  /** auxsort (ltablib.c:193-254): a sorted permutation. It recurses on the smaller part only, so the depth
      `d` of the recursion is at most the logarithm of the number of elements. */
  method AuxSort(a: array<int>, l0: int, u0: int, lt: Less) returns (ghost d: nat)
    requires StrictWeak(lt) && 0 <= l0 <= u0 + 1 <= a.Length
    modifies a
    ensures Permuted(old(a[..]), a[..], l0, u0) && Sorted(lt, a[..], l0, u0)
    ensures Shallow(d, u0 - l0 + 1)
    decreases u0 - l0 + 1, 1
  {
    var l, u := l0, u0;
    d := 0;
    ghost var s0 := a[..];
    PermutedSelf(s0, l, u);
    hide Permuted, OrderedBut, StrictWeak, Shallow;
    NothingOrdered(lt, s0, l, u);
    FlatShallow(u0 - l0 + 1);
    while l < u
      invariant l0 <= l <= u + 1 && u <= u0 && Permuted(s0, a[..], l0, u0) && Shallow(d, u0 - l0 + 1)
      invariant OrderedBut(lt, a[..], l0, u0, l, u, l, u)
      decreases u - l + 1
    {
      ghost var d1;
      l, u, d1 := SortRound(a, l0, u0, l, u, lt, s0);
      d := Max(d, d1);
    }
    AllOrdered(lt, a[..], l0, u0, l, u);
  }

  /** One round of auxsort: afterwards only the larger part is left to sort. */
  method SortRound(a: array<int>, ghost l0: int, ghost u0: int, l: int, u: int, lt: Less, ghost s0: seq<int>)
    returns (l': int, u': int, ghost d: nat)
    requires StrictWeak(lt) && 0 <= l0 <= l < u <= u0 < a.Length
    requires Permuted(s0, a[..], l0, u0) && OrderedBut(lt, a[..], l0, u0, l, u, l, u)
    modifies a
    ensures l <= l' <= u' + 1 && u' <= u && u' - l' < u - l
    ensures Permuted(s0, a[..], l0, u0) && OrderedBut(lt, a[..], l0, u0, l', u', l', u') && Shallow(d, u0 - l0 + 1)
    decreases u0 - l0 + 1, 0
  {
    hide Permuted, Split, OrderedBut, StrictWeak, Shallow;
    ghost var s1 := a[..];
    var done, i := SplitRange(a, l, u, lt);
    ghost var s2 := a[..];
    PermuteStep(lt, s0, s1, s2, l0, u0, l, u, u + 1, u);
    FlatShallow(u0 - l0 + 1);
    if done {
      SortedPart(lt, s2, l0, u0, l, u, u + 1, u);
      return u + 1, u, 0;
    }
    SplitOrder(lt, s2, l0, u0, l, i, u);
    ghost var d1;
    if i - l < u - i {
      d1 := AuxSort(a, l, i - 1, lt);
      PermuteStep(lt, s0, s2, a[..], l0, u0, l, i - 1, i + 1, u);
      SortedPart(lt, a[..], l0, u0, l, i - 1, i + 1, u);
      DeeperShallow(d1, i - l, u0 - l0 + 1);
      l', u' := i + 1, u;
    } else {
      d1 := AuxSort(a, i + 1, u, lt);
      OrderedSwap(lt, s2, l0, u0, l, i - 1, i + 1, u);
      PermuteStep(lt, s0, s2, a[..], l0, u0, i + 1, u, l, i - 1);
      SortedPart(lt, a[..], l0, u0, i + 1, u, l, i - 1);
      DeeperShallow(d1, u - i, u0 - l0 + 1);
      l', u' := l, i - 1;
    }
    d := d1 + 1;
  }

  lemma NothingOrdered(lt: Less, s: seq<int>, l: int, u: int)
    requires 0 <= l && u < |s|
    ensures OrderedBut(lt, s, l, u, l, u, l, u)
  {}

  lemma AllOrdered(lt: Less, s: seq<int>, lo: int, hi: int, l: int, u: int)
    requires OrderedBut(lt, s, lo, hi, l, u, l, u) && l >= u
    ensures Sorted(lt, s, lo, hi)
  {}

  lemma FlatShallow(n: int)
    ensures Shallow(0, n)
  {}

  lemma OrderedSwap(lt: Less, s: seq<int>, lo: int, hi: int, l: int, u: int, l': int, u': int)
    requires OrderedBut(lt, s, lo, hi, l, u, l', u')
    ensures OrderedBut(lt, s, lo, hi, l', u', l, u)
  {}

  lemma OnePart(lt: Less, s: seq<int>, lo: int, hi: int, l: int, u: int, l': int, u': int)
    requires OrderedBut(lt, s, lo, hi, l, u, l, u) || OrderedBut(lt, s, lo, hi, l, u, l', u')
    ensures OrderedBut(lt, s, lo, hi, l, u, l', u')
  {}

  /** Part [l, u] has been permuted: the whole is still a permutation, and as ordered as before. */
  lemma PermuteStep(lt: Less, s0: seq<int>, s: seq<int>, s': seq<int>, lo: int, hi: int, l: int, u: int, l': int,
      u': int)
    requires Permuted(s0, s, lo, hi) && Permuted(s, s', l, u) && lo <= l && u <= hi && (l' > u || u' < l)
    requires OrderedBut(lt, s, lo, hi, l, u, l', u') || OrderedBut(lt, s, lo, hi, l, u, l, u)
    ensures Permuted(s0, s', lo, hi) && OrderedBut(lt, s', lo, hi, l, u, l', u')
    ensures l' > u' ==> OrderedBut(lt, s', lo, hi, l, u, l, u)
  {
    PermutedWider(s, s', l, u, lo, hi);
    PermutedTrans(s0, s, s', lo, hi);
    OnePart(lt, s, lo, hi, l, u, l', u');
    PermuteKeepsOrder(lt, s, s', lo, hi, l, u, l', u');
  }

  /** Two or three elements in order. */
  lemma FewSorted(lt: Less, s: seq<int>, l: int, i: int, u: int)
    requires StrictWeak(lt) && 0 <= l < u < |s|
    requires if u - l == 1 then Le(lt, s[l], s[u])
             else u - l == 2 && i == l + 1 && Le(lt, s[l], s[i]) && Le(lt, s[i], s[u])
    ensures Sorted(lt, s, l, u)
  {}

  /** The pivot goes to u - 1 (ltablib.c:218-221). */
  method HidePivot(a: array<int>, l: int, i: int, u: int, lt: Less)
    requires 0 <= l < i < u - 1 && u < a.Length && Le(lt, a[l], a[i]) && Le(lt, a[i], a[u])
    modifies a
    ensures Permuted(old(a[..]), a[..], l, u) && Le(lt, a[l], a[u - 1]) && Le(lt, a[u - 1], a[u])
  {
    hide Permuted;
    ghost var s := a[..];
    SwapPermutes(s, i, u - 1, l, u);
    Swap(a, i, u - 1);
    assert a[..][u - 1] == s[i] && a[..][l] == s[l] && a[..][u] == s[u];
  }

  /** The elements at both ends and in the middle are put in order, and if there are more, all are
      partitioned around the middle one (ltablib.c:196-243). */
  method SplitRange(a: array<int>, l: int, u: int, lt: Less) returns (done: bool, i: int)
    requires StrictWeak(lt) && 0 <= l < u < a.Length
    modifies a
    ensures Permuted(old(a[..]), a[..], l, u)
    ensures done ==> Sorted(lt, a[..], l, u)
    ensures !done ==> l + 3 <= u && l < i < u && Split(lt, a[..], l, i, u)
  {
    hide Permuted, Split, Sorted, StrictWeak;
    ghost var s0 := a[..];
    OrderEnds(a, l, u, lt);
    i := (l + u) / 2;
    if u - l == 1 {
      assert a[..][l] == a[l] && a[..][u] == a[u];
      FewSorted(lt, a[..], l, i, u);
      return true, i;
    }
    ghost var s1 := a[..];
    OrderMiddle(a, l, i, u, lt);
    PermutedTrans(s0, s1, a[..], l, u);
    if u - l == 2 {
      assert a[..][l] == a[l] && a[..][i] == a[i] && a[..][u] == a[u];
      FewSorted(lt, a[..], l, i, u);
      return true, i;
    }
    ghost var s2 := a[..];
    HidePivot(a, l, i, u, lt);
    ghost var s3 := a[..];
    PermutedTrans(s0, s2, s3, l, u);
    i := Partition(a, l, u, lt);
    PermutedTrans(s0, s3, a[..], l, u);
    done := false;
  }

  /** table.sort on the elements 1..n of an array (ltablib.c:256-264). */
  method Sort(a: array<int>, lt: Less) returns (ghost depth: nat)
    requires StrictWeak(lt) && a.Length > 0
    modifies a
    ensures forall i, j :: 1 <= i < j < a.Length ==> !lt(a[j], a[i])
    ensures multiset(a[..]) == multiset(old(a[..])) && a[0] == old(a[0])
    ensures Shallow(depth, a.Length - 1)
  {
    ghost var s := a[..];
    depth := AuxSort(a, 1, a.Length - 1, lt);
    PermutedWider(s, a[..], 1, a.Length - 1, 0, a.Length - 1);
    assert s[0..a.Length - 1 + 1] == s && a[..][0..a.Length - 1 + 1] == a[..];
    assert Sorted(lt, a[..], 1, a.Length - 1);
    assert forall k :: 0 <= k < a.Length ==> a[..][k] == a[k];
  }
}
