/** Choosing the sizes of a table in a rehash (ltable.c:189-260, lobject.c:54-69). */
module TableCount {
  import opened TableModel
  import opened TableHash

  // ----- powers of two and logarithms -----

  lemma PowAdd(a: nat, b: nat)
    ensures Pow2(a + b) == Pow2(a) * Pow2(b)
  {
    if a > 0 { PowAdd(a - 1, b); }
  }

  lemma PowMono(a: nat, b: nat)
    requires a <= b
    ensures Pow2(a) <= Pow2(b)
  {
    if a < b { PowMono(a, b - 1); }
  }

  lemma PowMax()
    ensures Pow2(MAXBITS) == MAXASIZE
  {
    assert Pow2(8) == 256;
    PowAdd(8, 8);
    PowAdd(16, 8);
    PowAdd(24, 2);
  }

  /** The table log_2 of luaO_log2: the number of bits of a byte. */
  function Bits(x: nat): (b: nat)
    requires x < 256
    ensures x < Pow2(b) && (x > 0 ==> b > 0 && Pow2(b - 1) <= x)
  {
    if x < 1 then 0 else if x < 2 then 1 else if x < 4 then 2 else if x < 8 then 3 else if x < 16 then 4
    else if x < 32 then 5 else if x < 64 then 6 else if x < 128 then 7 else 8
  }

  lemma ScaleUp(x: nat, y: nat, p: nat)
    requires y * p <= x < (y + 1) * p
    ensures (y / 256) * (256 * p) <= x < (y / 256 + 1) * (256 * p)
  {
    var q, r := y / 256, y % 256;
    assert y == 256 * q + r;
    MulAssoc(q, 256, p);
    MulMono(q * 256, y, p);
    MulAssoc(q + 1, 256, p);
    MulMono(y + 1, (q + 1) * 256, p);
  }

  lemma MulAssoc(a: nat, b: nat, c: nat)
    ensures a * (b * c) == (a * b) * c
  {}

  /** luaO_log2 (lobject.c:54-69) */
  method Log2(x: nat) returns (l: int)
    ensures x == 0 ==> l == -1
    ensures x > 0 ==> l >= 0 && Pow2(l) <= x < Pow2(l + 1)
  {
    l := -1;
    var y := x;
    while y >= 256
      invariant l >= -1 && (x > 0 ==> y > 0) && (x == 0 ==> y == 0 && l == -1)
      invariant y * Pow2(l + 1) <= x < (y + 1) * Pow2(l + 1)
      decreases y
    {
      ScaleUp(x, y, Pow2(l + 1));
      PowAdd(8, l + 1);
      assert Pow2(8) == 256;
      l := l + 8;
      y := y / 256;
    }
    var b := Bits(y);
    if x > 0 {
      PowAdd(b - 1, l + 1);
      PowAdd(b, l + 1);
      MulMono(Pow2(b - 1), y, Pow2(l + 1));
      MulMono(y + 1, Pow2(b), Pow2(l + 1));
    }
    l := l + b;
  }

  lemma MulMono(a: nat, b: nat, c: nat)
    requires a <= b
    ensures a * c <= b * c
  {}

  /** The macro ceillog2. */
  method CeilLog2(x: nat) returns (e: nat)
    requires x > 0
    ensures x <= Pow2(e) && (e > 0 ==> Pow2(e - 1) < x)
  {
    var l := Log2(x - 1);
    e := l + 1;
  }

  // ----- counting integer keys -----

  /** How many of 1..n are in `s`. */
  ghost function Count(s: set<int>, n: nat): nat {
    if n == 0 then 0 else Count(s, n - 1) + if n in s then 1 else 0
  }

  lemma {:induction false} CountAdd(s: set<int>, x: int, n: nat)
    requires x !in s
    ensures Count(s + {x}, n) == Count(s, n) + if 1 <= x <= n then 1 else 0
  {
    if n > 0 { CountAdd(s, x, n - 1); }
  }

  lemma {:induction false} CountBounds(s: set<int>, m: nat, n: nat)
    requires m <= n
    ensures Count(s, m) <= Count(s, n) <= Count(s, m) + (n - m) && Count(s, n) <= n
  {
    if m < n { CountBounds(s, m, n - 1); } else if n > 0 { CountBounds(s, n - 1, n - 1); }
  }

  /** Beyond the largest key there is nothing more to count. */
  lemma {:induction false} CountRest(s: set<int>, m: nat, n: nat)
    requires m <= n && forall x :: x in s ==> x <= m
    ensures Count(s, n) == Count(s, m)
  {
    if m < n { CountRest(s, m, n - 1); }
  }

  lemma {:induction false} CountCard(s: set<int>, n: nat)
    ensures Count(s, n) == |set x | x in s && 1 <= x <= n|
  {
    if n > 0 {
      CountCard(s, n - 1);
      var a, b := set x | x in s && 1 <= x <= n - 1, set x | x in s && 1 <= x <= n;
      if n in s { assert b == a + {n}; } else { assert b == a; }
    } else {
      assert (set x | x in s && 1 <= x <= 0) == {};
    }
  }

  /** The members of `s` in the slice (2^(e-1), 2^e]. */
  ghost function Slice(s: set<int>, e: nat): int {
    Count(s, Pow2(e)) - if e == 0 then 0 else Count(s, Pow2(e - 1))
  }

  /** What the array `nums` means. */
  ghost predicate Slices(nums: seq<int>, s: set<int>) {
    |nums| == MAXBITS + 1 && forall e :: 0 <= e <= MAXBITS ==> nums[e] == Slice(s, e)
  }

  lemma SliceAdd(nums: seq<int>, s: set<int>, x: int, e: nat)
    requires Slices(nums, s) && x !in s && e <= MAXBITS
    requires 1 <= x <= Pow2(e) && (e > 0 ==> Pow2(e - 1) < x)
    ensures Slices(nums[e := nums[e] + 1], s + {x})
  {
    var nums' := nums[e := nums[e] + 1];
    forall d | 0 <= d <= MAXBITS ensures nums'[d] == Slice(s + {x}, d) {
      CountAdd(s, x, Pow2(d));
      if d > 0 { CountAdd(s, x, Pow2(d - 1)); }
      if d < e { PowMono(d, e - 1); } else { PowMono(e, d); }
      if d > e { PowMono(e, d - 1); }
    }
  }

  // ----- computesizes -----

  ghost predicate Dense(s: set<int>, n: nat) { Count(s, n) > n / 2 }

  /** The size the header comment of ltable.c asks for: the largest power of two more than half full. */
  ghost predicate BestSize(s: set<int>, n: nat) {
    && (n == 0 || (exists e: nat :: n == Pow2(e) && Dense(s, n)))
    && forall e: nat :: Pow2(e) > n ==> !Dense(s, Pow2(e))
  }

  /** The same by counting the members: more than half of 1..n is in use, and of no larger power of two. */
  lemma BestSizeMeans(s: set<int>, n: nat)
    requires BestSize(s, n)
    ensures n > 0 ==> 2 * |set x | x in s && 1 <= x <= n| > n
    ensures n > 1 ==> n % 2 == 0
    ensures forall e: nat :: Pow2(e) > n ==> 2 * |set x | x in s && 1 <= x <= Pow2(e)| <= Pow2(e)
  {
    CountCard(s, n);
    if n > 0 {
      var e: nat :| n == Pow2(e);
      if e > 0 { PowNext(e - 1); }
    }
    forall e: nat | Pow2(e) > n ensures 2 * |set x | x in s && 1 <= x <= Pow2(e)| <= Pow2(e) {
      CountCard(s, Pow2(e));
      assert !Dense(s, Pow2(e));
      if e > 0 { PowNext(e - 1); }
    }
  }

  /** The best size among the powers below 2^i. */
  ghost predicate BestBelow(s: set<int>, n: nat, i: nat) {
    && (n == 0 || (exists e: nat :: e < i && n == Pow2(e) && Dense(s, n)))
    && forall e: nat :: e < i && Pow2(e) > n ==> !Dense(s, Pow2(e))
  }

  lemma BestStep(s: set<int>, n: nat, i: nat)
    requires BestBelow(s, n, i)
    ensures Dense(s, Pow2(i)) ==> BestBelow(s, Pow2(i), i + 1)
    ensures !Dense(s, Pow2(i)) ==> BestBelow(s, n, i + 1)
  {
    forall e: nat | e < i + 1 && Pow2(e) > Pow2(i) ensures false { PowMono(e, i); }
  }

  lemma BestDone(s: set<int>, n: nat, i: nat, total: nat)
    requires BestBelow(s, n, i) && total <= Pow2(i) / 2 && total == Count(s, MAXASIZE)
    requires forall x :: x in s ==> 1 <= x <= MAXASIZE
    ensures BestSize(s, n)
  {
    TotalBound(s);
    forall e: nat | Pow2(e) > n ensures !Dense(s, Pow2(e)) {
      if e >= i { PowMono(i, e); }
    }
  }

  /** A slice with no keys cannot make the next power more than half full. */
  lemma EmptySlice(s: set<int>, i: nat)
    requires Slice(s, i) == 0
    ensures !Dense(s, Pow2(i))
  {
    if i > 0 { CountBounds(s, Pow2(i - 1), Pow2(i - 1)); }
  }

  /** ltable.c:189-208 */
  method ComputeSizes(nums: seq<int>, narray: nat, ghost s: set<int>) returns (n: nat, na: nat)
    requires Slices(nums, s) && narray == Count(s, MAXASIZE) && forall x :: x in s ==> 1 <= x <= MAXASIZE
    ensures BestSize(s, n) && na == Count(s, n) && n <= MAXASIZE
  {
    hide Count, Pow2, Slices, Slice, BestBelow;
    BestStart(s);
    PowMax();
    CountBounds(s, 0, MAXASIZE);
    PowNext(MAXBITS);
    var i, twotoi, a := 0, 1, 0;
    na, n := 0, 0;
    while twotoi / 2 < narray
      invariant 0 <= i <= MAXBITS + 1 && twotoi == Pow2(i)
      invariant a == if i == 0 then 0 else Count(s, Pow2(i - 1))
      invariant BestBelow(s, n, i) && na == Count(s, n) && n <= MAXASIZE
      decreases MAXBITS + 1 - i
    {
      assert i <= MAXBITS;
      BestStep(s, n, i);
      PowMono(i, MAXBITS);
      PowNext(i);
      SliceIs(nums, s, i);
      if nums[i] > 0 {
        a := a + nums[i];
        if a > twotoi / 2 {
          n := twotoi;
          na := a;
        }
      }
      assert a == Count(s, Pow2(i)) && BestBelow(s, n, i + 1);
      if a == narray {
        CountBounds(s, 0, Pow2(i));
        BestDone(s, n, i + 1, narray);
        return;
      }
      i, twotoi := i + 1, twotoi * 2;
    }
    BestDone(s, n, i, narray);
  }

  lemma BestStart(s: set<int>)
    ensures BestBelow(s, 0, 0) && Count(s, 0) == 0 && Pow2(0) == 1
  {}

  lemma PowNext(i: nat)
    ensures Pow2(i + 1) == 2 * Pow2(i)
  {}

  lemma SliceIs(nums: seq<int>, s: set<int>, i: nat)
    requires Slices(nums, s) && i <= MAXBITS
    ensures |nums| == MAXBITS + 1
    ensures nums[i] == Count(s, Pow2(i)) - if i == 0 then 0 else Count(s, Pow2(i - 1))
    ensures nums[i] >= 0 && (nums[i] == 0 ==> !Dense(s, Pow2(i)))
  {
    assert nums[i] == Slice(s, i);
    if i > 0 { CountBounds(s, Pow2(i - 1), Pow2(i)); }
    if nums[i] == 0 { EmptySlice(s, i); }
  }

  lemma TotalBound(s: set<int>)
    requires forall x :: x in s ==> 1 <= x <= MAXASIZE
    ensures forall e: nat :: Count(s, Pow2(e)) <= Count(s, MAXASIZE)
  {
    forall e: nat ensures Count(s, Pow2(e)) <= Count(s, MAXASIZE) {
      if Pow2(e) <= MAXASIZE { CountBounds(s, Pow2(e), MAXASIZE); } else { CountRest(s, MAXASIZE, Pow2(e)); }
    }
  }

  // ----- counting the keys of a table -----

  /** The integer keys with a value among the first `m` array slots. */
  ghost function ArrKeys(arr: seq<Option<Value>>, m: nat): set<int> {
    set k: int | 1 <= k <= m && SlotUsed(arr, k)
  }

  predicate SlotUsed(arr: seq<Option<Value>>, k: int) { 1 <= k <= |arr| && arr[k - 1].Some? }

  lemma ArrKeysStep(arr: seq<Option<Value>>, i: nat)
    requires i < |arr|
    ensures ArrKeys(arr, i + 1) == if arr[i].Some? then ArrKeys(arr, i) + {i + 1} else ArrKeys(arr, i)
    ensures i + 1 !in ArrKeys(arr, i)
  {}

  function Plus(nums: seq<int>, lg: nat, lc: nat): (r: seq<int>)
    requires lg < |nums|
    ensures |r| == |nums|
  {
    nums[lg := nums[lg] + lc]
  }

  lemma PlusOne(nums: seq<int>, lg: nat, lc: nat)
    requires lg < |nums|
    ensures Plus(nums, lg, 0) == nums
    ensures var c := Plus(nums, lg, lc); Plus(nums, lg, lc + 1) == c[lg := c[lg] + 1]
  {}

  /** The keys of one slice of the array part (ltable.c:236-239). */
  method NumUseSlice(arr: seq<Option<Value>>, nums: seq<int>, lg: nat, i0: nat, lim: nat, ghost ause: nat)
    returns (i: nat, lc: nat)
    requires 1 <= i0 <= |arr| + 1 && lim <= |arr| && lg <= MAXBITS < |nums| && lim <= Pow2(lg)
    requires Slices(nums, ArrKeys(arr, i0 - 1)) && ause == |ArrKeys(arr, i0 - 1)|
    requires lg > 0 ==> i0 > Pow2(lg - 1) || i0 == |arr| + 1
    ensures i0 <= i <= |arr| + 1 && i > lim && (i > i0 ==> i == lim + 1)
    ensures Slices(Plus(nums, lg, lc), ArrKeys(arr, i - 1)) && ause + lc == |ArrKeys(arr, i - 1)|
  {
    hide Count, Pow2, Slices, Slice, Plus, ArrKeys;
    i, lc := i0, 0;
    PlusOne(nums, lg, 0);
    while i <= lim
      invariant i0 <= i <= |arr| + 1 && (i > i0 ==> i <= lim + 1)
      invariant Slices(Plus(nums, lg, lc), ArrKeys(arr, i - 1)) && ause + lc == |ArrKeys(arr, i - 1)|
      decreases |arr| + 1 - i
    {
      ArrKeysStep(arr, i - 1);
      if arr[i - 1].Some? {
        SliceAdd(Plus(nums, lg, lc), ArrKeys(arr, i - 1), i, lg);
        PlusOne(nums, lg, lc);
        lc := lc + 1;
      }
      i := i + 1;
    }
  }

  /** numusearray (ltable.c:222-244): count slice by slice. */
  method NumUseArray(arr: seq<Option<Value>>, nums0: seq<int>) returns (ause: nat, nums: seq<int>)
    requires |arr| <= MAXASIZE && Slices(nums0, {})
    ensures Slices(nums, ArrKeys(arr, |arr|)) && ause == |ArrKeys(arr, |arr|)|
  {
    PowMax();
    hide Count, Pow2, Slices, Slice;
    SlicesLength(nums0, {});
    nums, ause := nums0, 0;
    assert ArrKeys(arr, 0) == {};
    PowZero();
    var lg, ttlg, i := 0, 1, 1;
    while lg <= MAXBITS
      invariant 0 <= lg <= MAXBITS + 1 && ttlg == Pow2(lg) && 1 <= i <= |arr| + 1
      invariant Slices(nums, ArrKeys(arr, i - 1)) && ause == |ArrKeys(arr, i - 1)| && |nums| == MAXBITS + 1
      invariant lg > 0 ==> i > Pow2(lg - 1) || i == |arr| + 1
    {
      var lim := ttlg;
      if lim > |arr| {
        lim := |arr|;
        if i > lim { break; }
      }
      var i0, lc := i, 0;
      i, lc := NumUseSlice(arr, nums, lg, i0, lim, ause);
      assert Plus(nums, lg, lc) == nums[lg := nums[lg] + lc];
      nums := nums[lg := nums[lg] + lc];
      ause := ause + lc;
      PowNext(lg);
      lg, ttlg := lg + 1, ttlg * 2;
    }
    assert i == |arr| + 1;
  }

  lemma SlicesLength(nums: seq<int>, s: set<int>)
    requires Slices(nums, s)
    ensures |nums| == MAXBITS + 1
  {}

  lemma PowZero()
    ensures Pow2(0) == 1
  {}

  /** The integer that countint counts a key as. */
  predicate Countable(k: Key) { k.KInt? && 1 <= k.n <= MAXASIZE }

  /** countint (ltable.c:211-219) */
  method CountInt(k: Key, nums0: seq<int>, ghost s: set<int>) returns (c: nat, nums: seq<int>)
    requires Slices(nums0, s) && (k.KInt? ==> k.n !in s)
    ensures c == if k.KInt? && 1 <= k.n <= 67108864 then 1 else 0
    ensures Slices(nums, if Countable(k) then s + {k.n} else s)
  {
    hide Count, Pow2, Slices, Slice;
    c, nums := 0, nums0;
    if k.KInt? && 0 < k.n <= MAXASIZE {
      var e := CeilLog2(k.n);
      assert e <= MAXBITS by { if e > MAXBITS { PowMono(MAXBITS, e - 1); PowMax(); } }
      SlicesLength(nums, s);
      SliceAdd(nums, s, k.n, e);
      nums := nums[e := nums[e] + 1];
      c := 1;
    }
  }

  /** The keys with a value among the nodes from `m` on. */
  ghost function LiveFrom(node: seq<Node>, m: nat): set<Key> {
    set i: int | m <= i < |node| && node[i].val.Some? :: node[i].key
  }

  ghost function Ints(ks: set<Key>): set<int> {
    set k | k in ks && Countable(k) :: k.n
  }

  lemma IntsAdd(ks: set<Key>, k: Key)
    ensures Ints(ks + {k}) == if Countable(k) then Ints(ks) + {k.n} else Ints(ks)
    ensures k.KInt? && k !in ks ==> k.n !in Ints(ks)
  {
    if k.KInt? && k.n in Ints(ks) {
      var x :| x in ks && Countable(x) && x.n == k.n;
      assert x == k;
    }
  }

  /** No key has two values. */
  ghost predicate DistinctLive(node: seq<Node>) {
    forall i, j :: 0 <= i < j < |node| && node[i].key == node[j].key ==> node[i].val == None
  }

  lemma LiveStep(node: seq<Node>, m: nat)
    requires m < |node| && DistinctLive(node)
    ensures LiveFrom(node, m) == if node[m].val.Some? then LiveFrom(node, m + 1) + {node[m].key}
      else LiveFrom(node, m + 1)
    ensures node[m].val.Some? ==> node[m].key !in LiveFrom(node, m + 1)
  {}

  /** What numusehash knows after the nodes from `m` on. */
  ghost predicate Counted(node: seq<Node>, m: nat, s: set<int>, totaluse: nat, ause: nat, nums: seq<int>) {
    && Slices(nums, s + Ints(LiveFrom(node, m)))
    && totaluse == |LiveFrom(node, m)| && ause == |Ints(LiveFrom(node, m))|
  }

  lemma CountedStep(node: seq<Node>, m: nat, s: set<int>, totaluse: nat, ause: nat, nums: seq<int>, nums': seq<int>)
    requires m < |node| && DistinctLive(node) && Counted(node, m + 1, s, totaluse, ause, nums)
    requires node[m].key.KInt? ==> node[m].key.n !in s
    requires node[m].val.Some? ==>
      var k, ints := node[m].key, s + Ints(LiveFrom(node, m + 1));
      Slices(nums', if Countable(k) then ints + {k.n} else ints)
    ensures node[m].val.Some? ==>
      Counted(node, m, s, totaluse + 1, ause + (if Countable(node[m].key) then 1 else 0), nums')
    ensures node[m].val.None? ==> Counted(node, m, s, totaluse, ause, nums)
  {
    hide Slices, Ints, LiveFrom, DistinctLive;
    LiveStep(node, m);
    var live, k := LiveFrom(node, m + 1), node[m].key;
    if node[m].val.Some? {
      IntsAdd(live, k);
      if Countable(k) {
        assert (s + Ints(live)) + {k.n} == s + (Ints(live) + {k.n});
      }
    }
  }

  /** The integer keys of the nodes are not in `s`. */
  ghost predicate Apart(node: seq<Node>, s: set<int>) {
    forall i :: 0 <= i < |node| && node[i].key.KInt? ==> node[i].key.n !in s
  }

  /** numusehash (ltable.c:247-260) */
  method NumUseHash(node: seq<Node>, nums0: seq<int>, ghost s: set<int>)
    returns (totaluse: nat, ause: nat, nums: seq<int>)
    requires Slices(nums0, s) && DistinctLive(node) && Apart(node, s)
    ensures Counted(node, 0, s, totaluse, ause, nums)
  {
    hide *;
    totaluse, ause, nums := 0, 0, nums0;
    var i := |node|;
    CountedStart(node, s, nums);
    while i > 0
      invariant 0 <= i <= |node|
      invariant Counted(node, i, s, totaluse, ause, nums)
    {
      i := i - 1;
      totaluse, ause, nums := CountNode(node, i, s, totaluse, ause, nums);
    }
  }

  /** One round of the loop (ltable.c:251-257). */
  method CountNode(node: seq<Node>, i: nat, ghost s: set<int>, totaluse0: nat, ause0: nat, nums0: seq<int>)
      returns (totaluse: nat, ause: nat, nums: seq<int>)
    requires i < |node| && DistinctLive(node) && Apart(node, s) && Counted(node, i + 1, s, totaluse0, ause0, nums0)
    ensures Counted(node, i, s, totaluse, ause, nums)
  {
    assert node[i].key.KInt? ==> node[i].key.n !in s;
    hide *;
    totaluse, ause, nums := totaluse0, ause0, nums0;
    if node[i].val.Some? {
      CountedMeans(node, i, s, totaluse, ause, nums);
      var c;
      c, nums := CountInt(node[i].key, nums, s + Ints(LiveFrom(node, i + 1)));
      ause := ause + c;
      totaluse := totaluse + 1;
    }
    CountedStep(node, i, s, totaluse0, ause0, nums0, nums);
  }

  lemma CountedStart(node: seq<Node>, s: set<int>, nums: seq<int>)
    requires Slices(nums, s)
    ensures Counted(node, |node|, s, 0, 0, nums)
  {
    assert LiveFrom(node, |node|) == {} && Ints({}) == {} && s + Ints({}) == s;
  }

  lemma CountedMeans(node: seq<Node>, m: nat, s: set<int>, totaluse: nat, ause: nat, nums: seq<int>)
    requires m < |node| && DistinctLive(node) && Counted(node, m + 1, s, totaluse, ause, nums) && node[m].val.Some?
    requires node[m].key.KInt? ==> node[m].key.n !in s
    ensures Slices(nums, s + Ints(LiveFrom(node, m + 1)))
    ensures node[m].key.KInt? ==> node[m].key.n !in s + Ints(LiveFrom(node, m + 1))
  {
    LiveStep(node, m);
    IntsAdd(LiveFrom(node, m + 1), node[m].key);
  }
}
