/** What the order of the ways to match promises. */
module PatternLaws {
  import opened PatternSyntax
  import opened PatternMeaning
  import opened PatternMatch

  // ----- the same ways, without an order -----

  /** `w` is a way to match `items` at `s`, whatever is tried first. */
  ghost predicate Possible(items: seq<Item>, src: Text, s: nat, caps: Captures, w: Way)
    requires s <= |src|
    decreases |items|
  {
    if items == [] then w == Match(s, caps)
    else
      var rest := items[1..];
      match items[0]
      case Malformed => w == Fault
      case AtEnd => s == |src| && Possible(rest, src, s, caps, w)
      case Open => if |caps| >= MAXCAPTURES then w == Fault
        else Possible(rest, src, s, caps + [Capture(s, UNFINISHED)], w)
      case Position => if |caps| >= MAXCAPTURES then w == Fault
        else Possible(rest, src, s, caps + [Capture(s, POSITION)], w)
      case Close =>
        var l := LastOpen(caps, |caps|);
        if l < 0 then w == Fault else Possible(rest, src, s, CloseCapture(caps, l, s), w)
      case Balance(b, e) => exists r: nat :: Balanced(src, s, r, b, e) && Possible(rest, src, r, caps, w)
      case Frontier(x) => AtFrontier(x, src, s) && Possible(rest, src, s, caps, w)
      case Backref(l) =>
        if BadIndex(caps, l) then w == Fault
        else Repeats(src, caps[l], s) && Possible(rest, src, s + caps[l].len, caps, w)
      case Chars(x, rep) =>
        exists k: nat :: Allowed(rep, k) && AllAccepted(x, src, s, k) && Possible(rest, src, s + k, caps, w)
  }

  /** The numbers of repetitions a suffix allows. */
  predicate Allowed(rep: Repeat, k: nat) {
    match rep
    case Once => k == 1
    case Optional => k <= 1
    case Star => true
    case Plus => k >= 1
    case Minus => true
  }

  predicate AllAccepted(x: Single, src: Text, s: nat, k: nat) {
    s + k <= |src| && forall i :: s <= i < s + k ==> Accepts(x, src[i])
  }

  lemma RunAccepted(x: Single, src: Text, s: nat, k: nat)
    requires s <= |src|
    ensures AllAccepted(x, src, s, k) <==> k <= RunLength(x, src, s)
  {
    var n := RunLength(x, src, s);
    if n < k && s + k <= |src| { assert !Accepts(x, src[s + n]); }
  }

  /** `w` is among the ways to go on after `k` repetitions. */
  ghost predicate WayAfter(rest: seq<Item>, src: Text, s: nat, caps: Captures, w: Way, k: nat) {
    s + k <= |src| && w in Ways(rest, src, s + k, caps)
  }

  lemma {:induction false} InLongest(rest: seq<Item>, src: Text, s: nat, low: nat, n: nat, caps: Captures, w: Way)
    requires s + n <= |src|
    ensures w in Longest(rest, src, s, low, n, caps) <==>
      exists k: nat :: low <= k <= n && WayAfter(rest, src, s, caps, w, k)
    decreases n
  {
    if n >= low {
      var a, b := Ways(rest, src, s + n, caps), if n == 0 then [] else Longest(rest, src, s, low, n - 1, caps);
      assert Longest(rest, src, s, low, n, caps) == a + b;
      assert WayAfter(rest, src, s, caps, w, n) <==> w in a;
      if n > 0 { InLongest(rest, src, s, low, n - 1, caps, w); }
      assert w in b ==> n > 0;
      assert w in a + b <==> w in a || w in b;
      hide Ways, Longest, WayAfter;
      if k: nat :| low <= k <= n && WayAfter(rest, src, s, caps, w, k) {
        assert k == n || (k <= n - 1 && w in b);
      }
    }
  }

  lemma {:induction false} InShortest(rest: seq<Item>, src: Text, s: nat, low: nat, n: nat, caps: Captures, w: Way)
    requires s + n <= |src|
    ensures w in Shortest(rest, src, s, low, n, caps) <==>
      exists k: nat :: low <= k <= n && WayAfter(rest, src, s, caps, w, k)
    decreases if n >= low then n - low + 1 else 0
  {
    if n >= low {
      var a, b := Ways(rest, src, s + low, caps), Shortest(rest, src, s, low + 1, n, caps);
      assert Shortest(rest, src, s, low, n, caps) == a + b;
      assert WayAfter(rest, src, s, caps, w, low) <==> w in a;
      InShortest(rest, src, s, low + 1, n, caps, w);
      hide Ways, Shortest, WayAfter;
      assert w in a + b <==> w in a || w in b;
    }
  }

  /** The list of ways has exactly the possible ones: no match is missed, none is made up. */
  lemma {:induction false} WaysArePossible(items: seq<Item>, src: Text, s: nat, caps: Captures, w: Way)
    requires s <= |src|
    ensures w in Ways(items, src, s, caps) <==> Possible(items, src, s, caps, w)
    decreases |items|, 0
  {
    if items != [] {
      var rest := items[1..];
      match items[0]
      case Malformed =>
      case AtEnd => WaysArePossible(rest, src, s, caps, w);
      case Open => WaysArePossible(rest, src, s, caps + [Capture(s, UNFINISHED)], w);
      case Position => WaysArePossible(rest, src, s, caps + [Capture(s, POSITION)], w);
      case Close =>
        var l := LastOpen(caps, |caps|);
        if l >= 0 { WaysArePossible(rest, src, s, CloseCapture(caps, l, s), w); }
      case Balance(b, e) => BalancePossible(rest, src, s, b, e, caps, w);
      case Frontier(_) => WaysArePossible(rest, src, s, caps, w);
      case Backref(l) =>
        if !BadIndex(caps, l) && Repeats(src, caps[l], s) { WaysArePossible(rest, src, s + caps[l].len, caps, w); }
      case Chars(x, rep) => CharsPossible(rest, src, s, x, rep, caps, w, items);
    }
  }

  lemma BalancePossible(rest: seq<Item>, src: Text, s: nat, b: int, e: int, caps: Captures, w: Way)
    requires s <= |src|
    ensures (match BalanceEnd(src, s, b, e) case None => false case Some(r) => w in Ways(rest, src, r, caps))
      <==> exists r: nat :: Balanced(src, s, r, b, e) && Possible(rest, src, r, caps, w)
    decreases |rest|, 1
  {
    if s < |src| {
      BalanceMeans(src, s, b, e);
      match BalanceEnd(src, s, b, e)
      case None =>
      case Some(r) =>
        WaysArePossible(rest, src, r, caps, w);
        forall r': nat | Balanced(src, s, r', b, e) ensures r' == r {}
    }
  }

  lemma CharsPossible(rest: seq<Item>, src: Text, s: nat, x: Single, rep: Repeat, caps: Captures, w: Way,
      items: seq<Item>)
    requires s <= |src| && items != [] && items[0] == Chars(x, rep) && items[1..] == rest
    ensures w in Ways(items, src, s, caps) <==>
      exists k: nat :: Allowed(rep, k) && AllAccepted(x, src, s, k) && Possible(rest, src, s + k, caps, w)
    decreases |rest|, 1
  {
    forall k: nat ensures Allowed(rep, k) && k <= RunLength(x, src, s) && WayAfter(rest, src, s, caps, w, k) <==>
      Allowed(rep, k) && AllAccepted(x, src, s, k) && Possible(rest, src, s + k, caps, w)
    {
      RunAccepted(x, src, s, k);
      if s + k <= |src| { WaysArePossible(rest, src, s + k, caps, w); }
    }
    ChosenWays(rest, src, s, x, rep, caps, w, items);
  }

  /** Some number of repetitions that the suffix allows, and that the subject has, leads to `w`. */
  ghost predicate Chosen(rep: Repeat, n: nat, rest: seq<Item>, src: Text, s: nat, caps: Captures, w: Way) {
    exists k: nat :: Allowed(rep, k) && k <= n && WayAfter(rest, src, s, caps, w, k)
  }

  lemma ChosenFew(rep: Repeat, n: nat, rest: seq<Item>, src: Text, s: nat, caps: Captures, w: Way)
    requires s + n <= |src|
    ensures Chosen(Once, n, rest, src, s, caps, w) <==> n > 0 && w in Ways(rest, src, s + 1, caps)
    ensures Chosen(Optional, n, rest, src, s, caps, w) <==>
      (n > 0 && w in Ways(rest, src, s + 1, caps)) || w in Ways(rest, src, s, caps)
  {
    assert Allowed(Once, 1) && Allowed(Optional, 0) && Allowed(Optional, 1);
    assert n > 0 ==> (WayAfter(rest, src, s, caps, w, 1) <==> w in Ways(rest, src, s + 1, caps));
    assert WayAfter(rest, src, s, caps, w, 0) <==> w in Ways(rest, src, s, caps);
    hide Ways, WayAfter;
  }

  lemma ChosenMany(n: nat, rest: seq<Item>, src: Text, s: nat, caps: Captures, w: Way)
    requires s + n <= |src|
    ensures Chosen(Star, n, rest, src, s, caps, w) <==> w in Longest(rest, src, s, 0, n, caps)
    ensures Chosen(Plus, n, rest, src, s, caps, w) <==> w in Longest(rest, src, s, 1, n, caps)
    ensures Chosen(Minus, n, rest, src, s, caps, w) <==> w in Shortest(rest, src, s, 0, n, caps)
  {
    InLongest(rest, src, s, 0, n, caps, w);
    InLongest(rest, src, s, 1, n, caps, w);
    InShortest(rest, src, s, 0, n, caps, w);
    hide Longest, Shortest, WayAfter, Ways;
    assert forall k: nat :: Allowed(Star, k) && Allowed(Minus, k) && (Allowed(Plus, k) <==> 1 <= k);
  }

  lemma ChosenWays(rest: seq<Item>, src: Text, s: nat, x: Single, rep: Repeat, caps: Captures, w: Way, items: seq<Item>)
    requires s <= |src| && items != [] && items[0] == Chars(x, rep) && items[1..] == rest
    ensures w in Ways(items, src, s, caps) <==> Chosen(rep, RunLength(x, src, s), rest, src, s, caps, w)
  {
    var n := RunLength(x, src, s);
    ChosenFew(rep, n, rest, src, s, caps, w);
    ChosenMany(n, rest, src, s, caps, w);
    CharWays(rest, src, s, x, rep, caps, items);
    NoneLongest(rest, src, s, caps);
    hide Ways, Longest, Shortest, RunLength, Chosen;
    OptionalWays(if n == 0 then [] else Ways(rest, src, s + 1, caps), Ways(rest, src, s, caps), w);
  }

  lemma NoneLongest(rest: seq<Item>, src: Text, s: nat, caps: Captures)
    requires s <= |src|
    ensures Longest(rest, src, s, 1, 0, caps) == []
  {}

  lemma OptionalWays(a: seq<Way>, b: seq<Way>, w: Way)
    ensures w in a + b <==> w in a || w in b
  {}

  lemma CharWays(rest: seq<Item>, src: Text, s: nat, x: Single, rep: Repeat, caps: Captures, items: seq<Item>)
    requires s <= |src| && items != [] && items[0] == Chars(x, rep) && items[1..] == rest
    ensures var n := RunLength(x, src, s);
      Ways(items, src, s, caps) == match rep
        case Once => if n == 0 then [] else Ways(rest, src, s + 1, caps)
        case Optional => (if n == 0 then [] else Ways(rest, src, s + 1, caps)) + Ways(rest, src, s, caps)
        case Star => Longest(rest, src, s, 0, n, caps)
        case Plus => if n == 0 then [] else Longest(rest, src, s, 1, n, caps)
        case Minus => Shortest(rest, src, s, 0, n, caps)
  {}

  // ----- preferences -----

  ghost predicate NoWayAfter(rest: seq<Item>, src: Text, s: nat, caps: Captures, k: nat) {
    s + k <= |src| && Ways(rest, src, s + k, caps) == []
  }

  /** What `*` and `+` choose: after that many repetitions the rest matches, and after more it does not. */
  lemma {:induction false} LongestFirst(rest: seq<Item>, src: Text, s: nat, low: nat, n: nat, caps: Captures)
    returns (k: nat)
    requires s + n <= |src| && Longest(rest, src, s, low, n, caps) != []
    ensures low <= k <= n && Ways(rest, src, s + k, caps) != []
    ensures Longest(rest, src, s, low, n, caps)[0] == Ways(rest, src, s + k, caps)[0]
    ensures forall i: nat :: k < i <= n ==> NoWayAfter(rest, src, s, caps, i)
    decreases n
  {
    hide Ways;
    if Ways(rest, src, s + n, caps) != [] {
      k := n;
    } else {
      k := LongestFirst(rest, src, s, low, n - 1, caps);
    }
  }

  /** What `-` chooses: after that many repetitions the rest matches, and after fewer it does not. */
  lemma {:induction false} ShortestFirst(rest: seq<Item>, src: Text, s: nat, low: nat, n: nat, caps: Captures)
    returns (k: nat)
    requires s + n <= |src| && Shortest(rest, src, s, low, n, caps) != []
    ensures low <= k <= n && Ways(rest, src, s + k, caps) != []
    ensures Shortest(rest, src, s, low, n, caps)[0] == Ways(rest, src, s + k, caps)[0]
    ensures forall i: nat :: low <= i < k ==> NoWayAfter(rest, src, s, caps, i)
    decreases if n >= low then n - low + 1 else 0
  {
    hide Ways;
    if Ways(rest, src, s + low, caps) != [] {
      k := low;
    } else {
      k := ShortestFirst(rest, src, s, low + 1, n, caps);
    }
  }

  // ----- captures stay inside the subject -----

  predicate CaptureOk(c: Capture, s: nat) {
    c.init <= s && (c.len == UNFINISHED || c.len == POSITION || (0 <= c.len && c.init + c.len <= s))
  }

  predicate CapturesOk(caps: Captures, s: nat) {
    |caps| <= MAXCAPTURES && forall i :: 0 <= i < |caps| ==> CaptureOk(caps[i], s)
  }

  ghost predicate WayOk(w: Way, src: Text, s: nat, n: nat) {
    w.Match? ==> s <= w.end <= |src| && CapturesOk(w.caps, w.end) && n <= |w.caps|
  }

  lemma CapturesLater(caps: Captures, s: nat, s': nat)
    requires CapturesOk(caps, s) && s <= s'
    ensures CapturesOk(caps, s')
  {}

  /** A match ends inside the subject, and all it captured lies before its end. */
  lemma CapturesKept(caps: Captures, s: nat)
    requires CapturesOk(caps, s)
    ensures |caps| < MAXCAPTURES ==> CapturesOk(caps + [Capture(s, UNFINISHED)], s)
    ensures |caps| < MAXCAPTURES ==> CapturesOk(caps + [Capture(s, POSITION)], s)
    ensures var l := LastOpen(caps, |caps|);
      l >= 0 ==> CapturesOk(CloseCapture(caps, l, s), s) && |CloseCapture(caps, l, s)| == |caps|
  {}

  /** Further on, with more captures. */
  lemma WayEarlier(w: Way, src: Text, s: nat, s': nat, n: nat, n': nat)
    requires WayOk(w, src, s', n') && s <= s' && n <= n'
    ensures WayOk(w, src, s, n)
  {}

  lemma {:induction false} WaysInside(items: seq<Item>, src: Text, s: nat, caps: Captures, w: Way)
    requires s <= |src| && CapturesOk(caps, s) && Possible(items, src, s, caps, w)
    ensures WayOk(w, src, s, |caps|)
    decreases |items|
  {
    if items != [] {
      var rest := items[1..];
      var s', caps' := NextInside(items, src, s, caps, w);
      hide Possible, CapturesOk, WayOk;
      if w.Match? {
        WaysInside(rest, src, s', caps', w);
        WayEarlier(w, src, s, s', |caps|, |caps'|);
      } else {
        FaultOk(w, src, s, |caps|);
      }
    }
  }

  lemma FaultOk(w: Way, src: Text, s: nat, n: nat)
    requires w == Fault
    ensures WayOk(w, src, s, n)
  {}

  /** Where a way to match goes on after the first item. */
  lemma NextInside(items: seq<Item>, src: Text, s: nat, caps: Captures, w: Way) returns (s': nat, caps': Captures)
    requires s <= |src| && CapturesOk(caps, s) && items != [] && Possible(items, src, s, caps, w)
    ensures w.Match? ==>
      && s <= s' <= |src| && |caps| <= |caps'| && CapturesOk(caps', s') && Possible(items[1..], src, s', caps', w)
  {
    var rest := items[1..];
    hide Balanced, AllAccepted, Accepts, RunLength, Repeats;
    CapturesKept(caps, s);
    hide CapturesOk, CloseCapture, LastOpen, AtFrontier, Allowed;
    s', caps' := s, caps;
    match items[0]
    case Open => caps' := caps + [Capture(s, UNFINISHED)];
    case Position => caps' := caps + [Capture(s, POSITION)];
    case Close =>
      var l := LastOpen(caps, |caps|);
      if l >= 0 { caps' := CloseCapture(caps, l, s); }
    case Balance(b, e) =>
      s' :| Balanced(src, s, s', b, e) && Possible(rest, src, s', caps, w);
      BalancedAfter(src, s, s', b, e);
      CapturesLater(caps, s, s');
    case Backref(l) =>
      if !BadIndex(caps, l) {
        RepeatsAfter(src, caps[l], s);
        s' := s + caps[l].len;
        CapturesLater(caps, s, s');
      }
    case Chars(x, rep) =>
      var k: nat :| Allowed(rep, k) && AllAccepted(x, src, s, k) && Possible(rest, src, s + k, caps, w);
      AcceptedAfter(x, src, s, k);
      s' := s + k;
      CapturesLater(caps, s, s');
    case _ =>
  }

  lemma BalancedAfter(src: Text, s: nat, r: nat, b: int, e: int)
    requires Balanced(src, s, r, b, e)
    ensures s <= r <= |src|
  {}

  lemma RepeatsAfter(src: Text, c: Capture, s: nat)
    requires Repeats(src, c, s)
    ensures c.len >= 0 && s + c.len <= |src|
  {}

  lemma AcceptedAfter(x: Single, src: Text, s: nat, k: nat)
    requires AllAccepted(x, src, s, k)
    ensures s + k <= |src|
  {}

  // ----- well-formed patterns raise no error -----

  /** Which captures are open. */
  ghost function Opened(caps: Captures): (r: seq<bool>)
    ensures |r| == |caps| && forall i :: 0 <= i < |caps| ==> r[i] == (caps[i].len == UNFINISHED)
  {
    seq(|caps|, i requires 0 <= i < |caps| => caps[i].len == UNFINISHED)
  }

  function LastTrue(open: seq<bool>): (r: int)
    ensures -1 <= r < |open|
    ensures r >= 0 ==> open[r]
    ensures forall k :: r < k < |open| ==> !open[k]
  {
    if open == [] then -1 else if open[|open| - 1] then |open| - 1 else LastTrue(open[..|open| - 1])
  }

  /** Every item can be read, `)` closes an open capture, `%1` to `%9` name closed ones, and there are not too
      many captures; `open` says which of the captures so far are open. */
  predicate WellFormed(items: seq<Item>, open: seq<bool>)
    decreases |items|
  {
    items == [] ||
    var rest := items[1..];
    match items[0]
    case Malformed => false
    case Open => |open| < MAXCAPTURES && WellFormed(rest, open + [true])
    case Position => |open| < MAXCAPTURES && WellFormed(rest, open + [false])
    case Close => var l := LastTrue(open); l >= 0 && WellFormed(rest, open[l := false])
    case Backref(l) => 0 <= l < |open| && !open[l] && WellFormed(rest, open)
    case _ => WellFormed(rest, open)
  }

  lemma LastTrueOpen(caps: Captures)
    ensures LastTrue(Opened(caps)) == LastOpen(caps, |caps|)
  {}

  /** What opening, marking and closing do to the captures that are open. */
  lemma OpenedNext(caps: Captures, s: nat)
    ensures Opened(caps + [Capture(s, UNFINISHED)]) == Opened(caps) + [true]
    ensures Opened(caps + [Capture(s, POSITION)]) == Opened(caps) + [false]
  {
    assert Opened(caps + [Capture(s, UNFINISHED)]) == Opened(caps) + [true];
    assert Opened(caps + [Capture(s, POSITION)]) == Opened(caps) + [false];
  }

  lemma ClosedNext(caps: Captures, l: nat, s: nat)
    requires l < |caps| && caps[l].init <= s
    ensures Opened(CloseCapture(caps, l, s)) == Opened(caps)[l := false]
  {}

  lemma LastInit(caps: Captures, s: nat)
    requires CapturesOk(caps, s)
    ensures var l := LastOpen(caps, |caps|); l >= 0 ==> caps[l].init <= s
    ensures forall l :: 0 <= l < |caps| ==> (Opened(caps)[l] <==> caps[l].len == UNFINISHED)
  {}

  lemma {:induction false} NoFault(items: seq<Item>, src: Text, s: nat, caps: Captures)
    requires s <= |src| && CapturesOk(caps, s) && WellFormed(items, Opened(caps))
    ensures !Possible(items, src, s, caps, Fault)
    decreases |items|
  {
    if items != [] && Possible(items, src, s, caps, Fault) {
      var s', caps' := NextFault(items, src, s, caps);
      hide *;
      NoFault(items[1..], src, s', caps');
    }
  }

  /** A well-formed pattern that runs into an error runs into it after its first item. */
  lemma NextFault(items: seq<Item>, src: Text, s: nat, caps: Captures) returns (s': nat, caps': Captures)
    requires s <= |src| && CapturesOk(caps, s) && WellFormed(items, Opened(caps))
    requires items != [] && Possible(items, src, s, caps, Fault)
    ensures s' <= |src| && CapturesOk(caps', s') && WellFormed(items[1..], Opened(caps'))
    ensures Possible(items[1..], src, s', caps', Fault)
  {
    var rest := items[1..];
    OpenedNext(caps, s);
    LastTrueOpen(caps);
    LastInit(caps, s);
    if LastOpen(caps, |caps|) >= 0 { ClosedNext(caps, LastOpen(caps, |caps|), s); }
    CapturesKept(caps, s);
    hide Balanced, AllAccepted, Accepts, RunLength, Repeats, AtFrontier, Allowed;
    hide CapturesOk, CloseCapture, LastOpen, LastTrue, Opened;
    s', caps' := s, caps;
    match items[0]
    case Open => caps' := caps + [Capture(s, UNFINISHED)];
    case Position => caps' := caps + [Capture(s, POSITION)];
    case Close => caps' := CloseCapture(caps, LastOpen(caps, |caps|), s);
    case Balance(b, e) =>
      s' :| Balanced(src, s, s', b, e) && Possible(rest, src, s', caps, Fault);
      BalancedAfter(src, s, s', b, e);
      CapturesLater(caps, s, s');
    case Backref(l) =>
      RepeatsAfter(src, caps[l], s);
      s' := s + caps[l].len;
      CapturesLater(caps, s, s');
    case Chars(x, rep) =>
      var k: nat :| Allowed(rep, k) && AllAccepted(x, src, s, k) && Possible(rest, src, s + k, caps, Fault);
      AcceptedAfter(x, src, s, k);
      s' := s + k;
      CapturesLater(caps, s, s');
    case _ =>
  }
}
