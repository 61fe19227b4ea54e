/** What a pattern matches: all ways to match its items, in the order in which they are preferred. */
module PatternMeaning {
  import opened PatternSyntax

  const UNFINISHED := -1
  const POSITION := -2

  datatype Capture = Capture(init: nat, len: int)

  type Captures = seq<Capture>

  /** A way to match: where it ends and what it captured; or an error the search runs into. */
  datatype Way = Match(end: nat, caps: Captures) | Fault

  // ----- the parts -----

  /** How often `x` matches in a row from `s` on. */
  function RunLength(x: Single, src: Text, s: nat): (n: nat)
    requires s <= |src|
    ensures s + n <= |src|
    ensures forall k :: s <= k < s + n ==> Accepts(x, src[k])
    ensures s + n < |src| ==> !Accepts(x, src[s + n])
    decreases |src| - s
  {
    if s < |src| && Accepts(x, src[s]) then 1 + RunLength(x, src, s + 1) else 0
  }

  /** The nesting depth before position `k` of a balanced string that starts at `s`. */
  function Depth(src: Text, s: nat, k: nat, b: int, e: int): int
    requires s < k <= |src|
    decreases k
  {
    if k == s + 1 then 1
    else Depth(src, s, k - 1, b, e) + if src[k - 1] == e then -1 else if src[k - 1] == b then 1 else 0
  }

  /** The string from `s` to `r` is balanced, and no shorter one is. */
  ghost predicate Balanced(src: Text, s: nat, r: nat, b: int, e: int) {
    && s + 1 < r <= |src| && src[s] == b && Depth(src, s, r, b, e) == 0
    && forall k :: s < k < r ==> Depth(src, s, k, b, e) != 0
  }

  function BalanceFrom(src: Text, s: nat, k: nat, b: int, e: int): (r: Option<nat>)
    requires s < k <= |src|
    ensures r.Some? ==> k < r.value <= |src| && Depth(src, s, r.value, b, e) == 0
    ensures r.Some? ==> forall i :: k < i < r.value ==> Depth(src, s, i, b, e) != 0
    ensures r.None? ==> forall i :: k < i <= |src| ==> Depth(src, s, i, b, e) != 0
    decreases |src| - k
  {
    if k == |src| then None
    else if Depth(src, s, k + 1, b, e) == 0 then Some(k + 1)
    else BalanceFrom(src, s, k + 1, b, e)
  }

  function BalanceEnd(src: Text, s: nat, b: int, e: int): Option<nat>
    requires s <= |src|
  {
    if At(src, s) != b || s == |src| then None else BalanceFrom(src, s, s + 1, b, e)
  }

  predicate AtFrontier(x: Single, src: Text, s: nat) {
    !Accepts(x, if s == 0 then 0 else At(src, s - 1)) && Accepts(x, At(src, s))
  }

  /** The last capture that is still open among the first `n`. */
  function LastOpen(caps: Captures, n: nat): (r: int)
    requires n <= |caps|
    ensures -1 <= r < n
    ensures r >= 0 ==> caps[r].len == UNFINISHED
    ensures forall k :: r < k < n ==> caps[k].len != UNFINISHED
  {
    if n == 0 then -1 else if caps[n - 1].len == UNFINISHED then n - 1 else LastOpen(caps, n - 1)
  }

  function CloseCapture(caps: Captures, l: nat, s: nat): Captures
    requires l < |caps|
  {
    caps[l := Capture(caps[l].init, s - caps[l].init)]
  }

  predicate BadIndex(caps: Captures, l: int) { l < 0 || l >= |caps| || caps[l].len == UNFINISHED }

  /** The captured string stands at `s` again. */
  predicate Repeats(src: Text, c: Capture, s: nat) {
    && c.len >= 0 && s + c.len <= |src| && c.init + c.len <= |src|
    && src[s..s + c.len] == src[c.init..c.init + c.len]
  }

  // ----- the ways to match -----

  /** Every way to match `items` at `s`, the preferred ones first. */
  function Ways(items: seq<Item>, src: Text, s: nat, caps: Captures): seq<Way>
    requires s <= |src|
    decreases |items|, 0, 0
  {
    if items == [] then [Match(s, caps)]
    else
      var rest := items[1..];
      match items[0]
      case Malformed => [Fault]
      case AtEnd => if s == |src| then Ways(rest, src, s, caps) else []
      case Open => if |caps| >= MAXCAPTURES then [Fault] else Ways(rest, src, s, caps + [Capture(s, UNFINISHED)])
      case Position => if |caps| >= MAXCAPTURES then [Fault] else Ways(rest, src, s, caps + [Capture(s, POSITION)])
      case Close =>
        var l := LastOpen(caps, |caps|);
        if l < 0 then [Fault] else Ways(rest, src, s, CloseCapture(caps, l, s))
      case Balance(b, e) =>
        (match BalanceEnd(src, s, b, e) case None => [] case Some(r) => Ways(rest, src, r, caps))
      case Frontier(x) => if AtFrontier(x, src, s) then Ways(rest, src, s, caps) else []
      case Backref(l) =>
        if BadIndex(caps, l) then [Fault]
        else if Repeats(src, caps[l], s) then Ways(rest, src, s + caps[l].len, caps)
        else []
      case Chars(x, rep) =>
        var n := RunLength(x, src, s);
        match rep
        case Once => if n == 0 then [] else Ways(rest, src, s + 1, caps)
        case Optional => (if n == 0 then [] else Ways(rest, src, s + 1, caps)) + Ways(rest, src, s, caps)
        case Star => Longest(rest, src, s, 0, n, caps)
        case Plus => if n == 0 then [] else Longest(rest, src, s, 1, n, caps)
        case Minus => Shortest(rest, src, s, 0, n, caps)
  }

  /** After `n` repetitions, then `n - 1`, down to `low`. */
  function Longest(rest: seq<Item>, src: Text, s: nat, low: nat, n: nat, caps: Captures): seq<Way>
    requires s + n <= |src|
    decreases |rest|, 1, n
  {
    if n < low then []
    else Ways(rest, src, s + n, caps) + if n == 0 then [] else Longest(rest, src, s, low, n - 1, caps)
  }

  /** After `low` repetitions, then `low + 1`, up to `n`. */
  function Shortest(rest: seq<Item>, src: Text, s: nat, low: nat, n: nat, caps: Captures): seq<Way>
    requires s + n <= |src|
    decreases |rest|, 1, if n >= low then n - low + 1 else 0
  {
    if n < low then [] else Ways(rest, src, s + low, caps) + Shortest(rest, src, s, low + 1, n, caps)
  }
}
