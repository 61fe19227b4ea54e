/** The backtracking matcher (lstrlib.c:170-440), which keeps its captures in one array and undoes them. */
module PatternMatch {
  import opened PatternSyntax
  import opened PatternChars
  import opened PatternMeaning

  datatype Result = Null | Found(s: nat) | Error

  /** The result and the captures left behind are those of the preferred way to match. */
  ghost predicate IsFirst(r: Result, caps': Captures, ways: seq<Way>, caps: Captures) {
    if ways == [] then r == Null && caps' == caps
    else match ways[0]
      case Match(end, cs) => r == Found(end) && caps' == cs
      case Fault => r == Error
  }

  // ----- single characters -----

  /** matchbracketclass (lstrlib.c:245-265) */
  method MatchBracketClass(c: int, pat: Text, p0: nat, ec: nat) returns (b: bool)
    ensures b == Accepts(SetAt(pat, p0, ec), c) && b == BracketAccepts(pat, p0, ec, c)
  {
    BracketMeans(pat, p0, ec, c);
    hide Accepts, SetAt;
    var p, sig := p0, true;
    if At(pat, p + 1) == '^' as int {
      sig := false;
      p := p + 1;
    }
    p := p + 1;
    while p < ec
      invariant SetAccepts(pat, p, ec, c) == sig <==> BracketAccepts(pat, p0, ec, c)
      decreases ec - p
    {
      if At(pat, p) == ESC {
        p := p + 1;
        EscapeMeans(At(pat, p), c);
        if MatchClass(c, At(pat, p)) { return sig; }
      } else if At(pat, p + 1) == '-' as int && p + 2 < ec {
        p := p + 2;
        if At(pat, p - 2) <= c && c <= At(pat, p) { return sig; }
      } else {
        if At(pat, p) == c { return sig; }
      }
      p := p + 1;
    }
    return !sig;
  }

  /** singlematch (lstrlib.c:268-275) */
  method SingleMatch(c: int, pat: Text, p: nat, ep: nat) returns (b: bool)
    requires ep > 0
    ensures b == Accepts(SingleAt(pat, p, ep), c) && b == ItemAccepts(pat, p, ep, c)
  {
    ItemMeans(pat, p, ep, c);
    hide ItemAccepts, MatchClass;
    if At(pat, p) == '.' as int {
      b := true;
    } else if At(pat, p) == ESC {
      b := MatchClass(c, At(pat, p + 1));
    } else if At(pat, p) == '[' as int {
      b := MatchBracketClass(c, pat, p, ep - 1);
    } else {
      b := At(pat, p) == c;
    }
  }

  /** matchbalance (lstrlib.c:281-298), once both delimiters are known to be there */
  method MatchBalance(src: Text, s0: nat, b: int, e: int) returns (r: Option<nat>)
    requires s0 <= |src| && b != 0
    ensures r == BalanceEnd(src, s0, b, e)
  {
    if At(src, s0) != b { return None; }
    var s, cont := s0 + 1, 1;
    while s < |src|
      invariant s0 < s <= |src| && cont == Depth(src, s0, s, b, e) && cont != 0
      invariant BalanceFrom(src, s0, s, b, e) == BalanceFrom(src, s0, s0 + 1, b, e)
      decreases |src| - s
    {
      if src[s] == e {
        cont := cont - 1;
        if cont == 0 { return Some(s + 1); }
      } else if src[s] == b {
        cont := cont + 1;
      }
      s := s + 1;
    }
    return None;
  }

  /** A balanced match is what the manual says: the shortest balanced string from `s` on. */
  lemma BalanceMeans(src: Text, s: nat, b: int, e: int)
    requires s < |src|
    ensures match BalanceEnd(src, s, b, e)
      case Some(r) => Balanced(src, s, r, b, e)
      case None => forall r :: !Balanced(src, s, r, b, e)
  {}

  /** classend, as the loop it is (lstrlib.c:202-223) */
  method FindClassEnd(pat: Text, p0: nat) returns (r: Option<nat>)
    requires At(pat, p0) != 0
    ensures r == ClassEnd(pat, p0) && r == ItemEnd(pat, p0)
  {
    ItemEndMeans(pat, p0);
    var p := p0 + 1;
    if At(pat, p0) == ESC {
      if At(pat, p) == 0 { return None; }
      return Some(p + 1);
    } else if At(pat, p0) == '[' as int {
      if At(pat, p) == '^' as int { p := p + 1; }
      ghost var start := p;
      var first := true;
      while first || At(pat, p) != ']' as int
        invariant first ==> p == start
        invariant p <= |pat|
        invariant ClassEnd(pat, p0) == BracketEnd(pat, start)
        invariant first || At(pat, p) != ']' as int ==> BracketEnd(pat, start) == BracketEnd(pat, p)
        invariant !first && At(pat, p) == ']' as int ==> BracketEnd(pat, start) == Some(p + 1)
        decreases |pat| - p
      {
        if At(pat, p) == 0 { return None; }
        p := p + 1;
        if At(pat, p - 1) == ESC && At(pat, p) != 0 { p := p + 1; }
        first := false;
      }
      return Some(p + 1);
    } else {
      return Some(p);
    }
  }

  // ----- ordered choice -----

  lemma FirstOfFirst(r: Result, caps': Captures, a: seq<Way>, b: seq<Way>, caps: Captures)
    requires IsFirst(r, caps', a, caps) && r != Null
    ensures IsFirst(r, caps', a + b, caps)
  {
    assert a != [] && (a + b)[0] == a[0];
  }

  /** What is left to try after `n` repetitions. */
  ghost function Shorter(rest: seq<Item>, src: Text, s: nat, n: int, caps: Captures): seq<Way>
    requires n >= 0 ==> s + n <= |src|
  {
    if n < 0 then [] else Longest(rest, src, s, 0, n, caps)
  }

  lemma LongestTried(rest: seq<Item>, src: Text, s: nat, n: nat, caps: Captures, r: Result, caps': Captures)
    requires s + n <= |src| && IsFirst(r, caps', Ways(rest, src, s + n, caps), caps)
    ensures r != Null ==> IsFirst(r, caps', Shorter(rest, src, s, n, caps), caps)
    ensures r == Null ==> Shorter(rest, src, s, n, caps) == Shorter(rest, src, s, n - 1, caps) && caps' == caps
  {
    var first, more := Ways(rest, src, s + n, caps), Shorter(rest, src, s, n - 1, caps);
    assert Longest(rest, src, s, 0, n, caps) == first + more;
    if r != Null { FirstOfFirst(r, caps', first, more, caps); }
  }

  lemma NothingLeft(rest: seq<Item>, src: Text, s: nat, n: int, caps: Captures)
    requires n < 0
    ensures IsFirst(Null, caps, Shorter(rest, src, s, n, caps), caps)
  {}

  lemma {:induction false} LongestShift(rest: seq<Item>, src: Text, s: nat, n: nat, caps: Captures)
    requires n > 0 && s + n <= |src|
    ensures Longest(rest, src, s + 1, 0, n - 1, caps) == Longest(rest, src, s, 1, n, caps)
    decreases n
  {
    if n > 1 { LongestShift(rest, src, s, n - 1, caps); }
  }

  /** The ways to match a single character item with its repetition, by the suffix at `ep`. */
  lemma CharWays(pat: Text, p: nat, src: Text, s: nat, caps: Captures)
    requires At(pat, p) != 0 && s <= |src|
    ensures var w := Ways(CharItems(pat, p), src, s, caps);
      match ClassEnd(pat, p)
      case None => w == [Fault]
      case Some(ep) =>
        var x, c, rest := SingleAt(pat, p, ep), At(pat, ep), Items(pat, ep + 1);
        var n := RunLength(x, src, s);
        if c == '?' as int then
          w == (if n == 0 then [] else Ways(rest, src, s + 1, caps)) + Ways(rest, src, s, caps)
        else if c == '*' as int then w == Longest(rest, src, s, 0, n, caps)
        else if c == '+' as int then w == if n == 0 then [] else Longest(rest, src, s, 1, n, caps)
        else if c == '-' as int then w == Shortest(rest, src, s, 0, n, caps)
        else w == if n == 0 then [] else Ways(Items(pat, ep), src, s + 1, caps)
  {
    var items := CharItems(pat, p);
    match ClassEnd(pat, p)
    case None => assert items == [Malformed];
    case Some(ep) =>
      var x, c := SingleAt(pat, p, ep), At(pat, ep);
      var rep := if c == '?' as int then Optional else if c == '*' as int then Star
                 else if c == '+' as int then Plus else if c == '-' as int then Minus else Once;
      assert items[0] == Chars(x, rep) && items[1..] == Items(pat, if rep == Once then ep else ep + 1);
      hide CharItems, Items, ClassEnd, SingleAt, RunLength, Longest, Shortest;
  }

  /** The ways to match from `%f` on. */
  lemma FrontierWays(pat: Text, p: nat, src: Text, s: nat, caps: Captures)
    requires At(pat, p) == ESC && At(pat, p + 1) == 'f' as int && s <= |src|
    ensures var w := Ways(Items(pat, p), src, s, caps);
      if At(pat, p + 2) != '[' as int then w == [Fault]
      else match ClassEnd(pat, p + 2)
        case None => w == [Fault]
        case Some(ep) =>
          w == if AtFrontier(SetAt(pat, p + 2, ep - 1), src, s) then Ways(Items(pat, ep), src, s, caps) else []
  {
    var items := Items(pat, p);
    if At(pat, p + 2) != '[' as int || ClassEnd(pat, p + 2).None? {
      assert items == [Malformed];
    } else {
      var ep := ClassEnd(pat, p + 2).value;
      assert items[0] == Frontier(SetAt(pat, p + 2, ep - 1)) && items[1..] == Items(pat, ep);
    }
    hide Items, ClassEnd, SetAt, AtFrontier;
  }

  lemma NoWay(caps: Captures)
    ensures IsFirst(Null, caps, [], caps) && IsFirst(Error, caps, [Fault], caps)
  {}

  /** The same for the suffixes that repeat. */
  lemma RepeatWays(pat: Text, p: nat, ep: nat, src: Text, s: nat, caps: Captures)
    requires At(pat, p) != 0 && s <= |src| && ClassEnd(pat, p) == Some(ep)
    ensures var w, x, c := Ways(CharItems(pat, p), src, s, caps), SingleAt(pat, p, ep), At(pat, ep);
      var n, rest := RunLength(x, src, s), Items(pat, ep + 1);
      && (c == '*' as int ==> w == Longest(rest, src, s, 0, n, caps))
      && (c == '-' as int ==> w == Shortest(rest, src, s, 0, n, caps))
      && (c == '+' as int ==>
           w == if s < |src| && Accepts(x, src[s]) then Longest(rest, src, s, 1, n, caps) else [])
  {
    CharWays(pat, p, src, s, caps);
    RunStarts(SingleAt(pat, p, ep), src, s);
    hide Ways, CharItems, Items, Longest, Shortest, SingleAt, RunLength, Accepts, ClassEnd;
  }

  lemma RunStarts(x: Single, src: Text, s: nat)
    requires s <= |src|
    ensures RunLength(x, src, s) > 0 <==> s < |src| && Accepts(x, src[s])
  {}

  lemma RunNext(x: Single, src: Text, s: nat)
    requires s < |src| && RunLength(x, src, s) > 0
    ensures RunLength(x, src, s + 1) == RunLength(x, src, s) - 1
  {}

  class MatchState {
    const src: Text
    const pat: Text
    const capture: array<Capture>
    var level: nat

    constructor (src: Text, pat: Text)
      ensures Valid() && fresh(capture) && this.src == src && this.pat == pat && level == 0
    {
      this.src, this.pat, level := src, pat, 0;
      capture := new Capture[MAXCAPTURES](_ => Capture(0, 0));
    }

    predicate Valid()
      reads this
    {
      capture.Length == MAXCAPTURES && level <= MAXCAPTURES
    }

    ghost function Caps(): Captures
      requires Valid()
      reads this, capture
    {
      capture[..level]
    }

    /** capture_to_close (lstrlib.c:194-199) */
    method CaptureToClose() returns (l: int)
      requires Valid()
      ensures l == LastOpen(Caps(), level)
    {
      l := level - 1;
      while l >= 0
        invariant -1 <= l < level
        invariant LastOpen(Caps(), level) == LastOpen(Caps(), l + 1)
      {
        if capture[l].len == UNFINISHED { return; }
        l := l - 1;
      }
    }

    /** match_capture and check_capture (lstrlib.c:186-191, 354-362) */
    method MatchCapture(s: nat, l: int) returns (r: Result)
      requires Valid() && s <= |src|
      ensures r ==
        if BadIndex(Caps(), l) then Error
        else if Repeats(src, Caps()[l], s) then Found(s + Caps()[l].len) else Null
    {
      if l < 0 || l >= level || capture[l].len == UNFINISHED { return Error; }
      var c := capture[l];
      if c.len >= 0 && |src| - s >= c.len && c.init + c.len <= |src| &&
        src[c.init..c.init + c.len] == src[s..s + c.len] {
        return Found(s + c.len);
      }
      return Null;
    }

    /** start_capture (lstrlib.c:329-340) */
    method StartCapture(s: nat, p: nat, what: int) returns (r: Result)
      requires Valid() && s <= |src| && p <= |pat|
      modifies this`level, capture
      ensures Valid() && level >= 0
      ensures IsFirst(r, Caps(),
        if old(level) >= MAXCAPTURES then [Fault]
        else Ways(Items(pat, p), src, s, old(Caps()) + [Capture(s, what)]), old(Caps()))
      decreases |pat| - p, 7
    {
      if level >= MAXCAPTURES { return Error; }
      ghost var caps := Caps();
      capture[level] := Capture(s, what);
      level := level + 1;
      assert Caps() == caps + [Capture(s, what)];
      r := DoMatch(s, p);
      if r == Null {
        assert capture[..level - 1] == Caps()[..level - 1] == caps;
        level := level - 1;
      }
    }

    /** end_capture (lstrlib.c:343-351) */
    method EndCapture(s: nat, p: nat) returns (r: Result)
      requires Valid() && s <= |src| && p <= |pat|
      modifies this`level, capture
      ensures Valid()
      ensures IsFirst(r, Caps(),
        if LastOpen(old(Caps()), old(level)) < 0 then [Fault]
        else Ways(Items(pat, p), src, s, CloseCapture(old(Caps()), LastOpen(old(Caps()), old(level)), s)), old(Caps()))
      decreases |pat| - p, 7
    {
      var l := CaptureToClose();
      if l < 0 { return Error; }
      ghost var caps := Caps();
      capture[l] := Capture(capture[l].init, s - capture[l].init);
      assert Caps() == CloseCapture(caps, l, s);
      r := DoMatch(s, p);
      if r == Null {
        capture[l] := Capture(capture[l].init, UNFINISHED);
        assert Caps() == caps;
      }
    }

    /** How far an item goes (lstrlib.c:303-305). */
    method CountRun(s: nat, p: nat, ep: nat) returns (i: nat)
      requires s <= |src| && ep > 0
      ensures i == RunLength(SingleAt(pat, p, ep), src, s)
    {
      ghost var x := SingleAt(pat, p, ep);
      i := 0;
      while s + i < |src|
        invariant s + i <= |src| && RunLength(x, src, s) == i + RunLength(x, src, s + i)
        decreases |src| - i
      {
        var m := SingleMatch(src[s + i], pat, p, ep);
        if !m { break; }
        i := i + 1;
      }
    }

    /** max_expand (lstrlib.c:301-313) */
    method MaxExpand(s: nat, p: nat, ep: nat) returns (r: Result)
      requires Valid() && s <= |src| && p < ep < |pat|
      modifies this`level, capture
      ensures Valid()
      ensures IsFirst(r, Caps(),
        Longest(Items(pat, ep + 1), src, s, 0, RunLength(SingleAt(pat, p, ep), src, s), old(Caps())), old(Caps()))
      decreases |pat| - p, 2
    {
      var i := CountRun(s, p, ep);
      r := TryLongest(s, ep, i);
    }

    /** The loop that gives back one repetition at a time (lstrlib.c:307-312). */
    method TryLongest(s: nat, ep: nat, n: nat) returns (r: Result)
      requires Valid() && s + n <= |src| && ep < |pat|
      modifies this`level, capture
      ensures Valid()
      ensures IsFirst(r, Caps(), Shorter(Items(pat, ep + 1), src, s, n, old(Caps())), old(Caps()))
      decreases |pat| - ep, 2
    {
      ghost var rest, caps := Items(pat, ep + 1), Caps();
      ghost var ways := Shorter(rest, src, s, n, caps);
      hide Ways, Items, Longest, IsFirst, Shorter;
      var i: int := n;
      while i >= 0
        invariant -1 <= i && s + i <= |src| && Valid() && Caps() == caps
        invariant ways == Shorter(rest, src, s, i, caps)
      {
        r := DoMatch(s + i, ep + 1);
        LongestTried(rest, src, s, i, caps, r, Caps());
        if r != Null { return; }
        i := i - 1;
      }
      r := Null;
      NothingLeft(rest, src, s, i, caps);
    }

    /** min_expand (lstrlib.c:316-326) */
    method MinExpand(s0: nat, p: nat, ep: nat) returns (r: Result)
      requires Valid() && s0 <= |src| && p < ep < |pat|
      modifies this`level, capture
      ensures Valid()
      ensures IsFirst(r, Caps(),
        Shortest(Items(pat, ep + 1), src, s0, 0, RunLength(SingleAt(pat, p, ep), src, s0), old(Caps())), old(Caps()))
      decreases |pat| - p, 2
    {
      ghost var x, rest, caps := SingleAt(pat, p, ep), Items(pat, ep + 1), Caps();
      ghost var n := RunLength(x, src, s0);
      var s := s0;
      while true
        invariant s0 <= s <= s0 + n && Valid() && Caps() == caps
        invariant Shortest(rest, src, s0, 0, n, caps) == Shortest(rest, src, s0, s - s0, n, caps)
        decreases |src| - s
      {
        r := DoMatch(s, ep + 1);
        if r != Null {
          FirstOfFirst(r, Caps(), Ways(rest, src, s, caps), Shortest(rest, src, s0, s - s0 + 1, n, caps), caps);
          return;
        }
        var m := false;
        if s < |src| { m := SingleMatch(src[s], pat, p, ep); }
        if !m { return Null; }
        s := s + 1;
      }
    }

    /** An optional item that matches once (lstrlib.c:417-420). */
    method TryOptional(s: nat, ep: nat) returns (taken: bool, r: Result)
      requires Valid() && s < |src| && ep < |pat|
      modifies this`level, capture
      ensures Valid()
      ensures var rest, caps := Items(pat, ep + 1), old(Caps());
        if taken then IsFirst(r, Caps(), Ways(rest, src, s + 1, caps) + Ways(rest, src, s, caps), caps)
        else Caps() == caps && Ways(rest, src, s + 1, caps) == []
      decreases |pat| - ep, 2
    {
      ghost var rest, caps := Items(pat, ep + 1), Caps();
      hide Items, Ways;
      r := DoMatch(s + 1, ep + 1);
      taken := r != Null;
      if taken { FirstOfFirst(r, Caps(), Ways(rest, src, s + 1, caps), Ways(rest, src, s, caps), caps); }
    }

    /** One round of `match` on a single character item with its repetition (lstrlib.c:414-438): either the
        result, or where to go on. */
    method MatchChars(s: nat, p: nat) returns (done: bool, r: Result, s': nat, p': nat)
      requires Valid() && s <= |src| && At(pat, p) != 0
      modifies this`level, capture
      ensures Valid()
      ensures done ==> IsFirst(r, Caps(), Ways(CharItems(pat, p), src, s, old(Caps())), old(Caps()))
      ensures !done ==> Caps() == old(Caps()) && s' <= |src| && p < p' <= |pat|
      ensures !done ==> Ways(CharItems(pat, p), src, s, old(Caps())) == Ways(Items(pat, p'), src, s', old(Caps()))
      decreases |pat| - p, 5
    {
      CharWays(pat, p, src, s, Caps());
      NoWay(Caps());
      hide Ways, Items, CharItems, Longest, Shortest, SingleAt, IsFirst;
      done, r, s', p' := true, Null, s, p;
      var oep := FindClassEnd(pat, p);
      if oep == None { r := Error; return; }
      var ep := oep.value;
      var m := false;
      if s < |src| { m := SingleMatch(src[s], pat, p, ep); }
      hide ClassEnd;
      if At(pat, ep) == '*' as int || At(pat, ep) == '+' as int || At(pat, ep) == '-' as int {
        r := MatchRepeated(s, p, ep, m);
      } else if At(pat, ep) == '?' as int {
        if m { done, r := TryOptional(s, ep); } else { done := false; }
        p' := ep + 1;
      } else if m {
        done, s', p' := false, s + 1, ep;
      }
    }

    /** The suffixes that repeat (lstrlib.c:423-431); `m` tells whether the item matches at `s`. */
    method MatchRepeated(s: nat, p: nat, ep: nat, m: bool) returns (r: Result)
      requires Valid() && s <= |src| && At(pat, p) != 0 && ClassEnd(pat, p) == Some(ep)
      requires At(pat, ep) == '*' as int || At(pat, ep) == '+' as int || At(pat, ep) == '-' as int
      requires m <==> s < |src| && Accepts(SingleAt(pat, p, ep), src[s])
      modifies this`level, capture
      ensures Valid()
      ensures IsFirst(r, Caps(), Ways(CharItems(pat, p), src, s, old(Caps())), old(Caps()))
      decreases |pat| - p, 4
    {
      RepeatWays(pat, p, ep, src, s, Caps());
      NoWay(Caps());
      hide Ways, Items, CharItems, Longest, Shortest, SingleAt, IsFirst, RunLength, Accepts, ClassEnd;
      r := Null;
      if At(pat, ep) == '*' as int {
        r := MaxExpand(s, p, ep);
      } else if At(pat, ep) == '-' as int {
        r := MinExpand(s, p, ep);
      } else if m {
        r := MatchPlus(s, p, ep);
      }
    }

    /** One repetition, and then as many as possible (lstrlib.c:427-428). */
    method MatchPlus(s: nat, p: nat, ep: nat) returns (r: Result)
      requires Valid() && s < |src| && p < ep < |pat| && Accepts(SingleAt(pat, p, ep), src[s])
      modifies this`level, capture
      ensures Valid()
      ensures var caps := old(Caps());
        IsFirst(r, Caps(), Longest(Items(pat, ep + 1), src, s, 1, RunLength(SingleAt(pat, p, ep), src, s), caps), caps)
      decreases |pat| - p, 3
    {
      ghost var x := SingleAt(pat, p, ep);
      RunStarts(x, src, s);
      RunNext(x, src, s);
      LongestShift(Items(pat, ep + 1), src, s, RunLength(x, src, s), Caps());
      hide Items, Longest, SingleAt, IsFirst, RunLength;
      r := MaxExpand(s + 1, p, ep);
    }

    /** `%f` followed by a set (lstrlib.c:384-395). */
    method MatchFrontier(s: nat, p: nat) returns (done: bool, r: Result, p': nat)
      requires Valid() && s <= |src| && At(pat, p) == ESC && At(pat, p + 1) == 'f' as int
      ensures done ==> IsFirst(r, Caps(), Ways(Items(pat, p), src, s, Caps()), Caps())
      ensures !done ==> p < p' <= |pat| && Ways(Items(pat, p), src, s, Caps()) == Ways(Items(pat, p'), src, s, Caps())
    {
      FrontierWays(pat, p, src, s, Caps());
      hide Accepts, SetAt, Items, Ways;
      done, r, p' := true, Null, p;
      if At(pat, p + 2) != '[' as int {
        r := Error;
        return;
      }
      var oep := FindClassEnd(pat, p + 2);
      if oep == None {
        r := Error;
        return;
      }
      var ep := oep.value;
      hide ClassEnd;
      var previous := if s == 0 then 0 else At(src, s - 1);
      var before := MatchBracketClass(previous, pat, p + 2, ep - 1);
      if before { return; }
      var now := MatchBracketClass(At(src, s), pat, p + 2, ep - 1);
      if now { done, p' := false, ep; }
    }

    /** One round of `match` on an escape other than a character class (lstrlib.c:377-405). */
    method MatchEscape(s: nat, p: nat) returns (done: bool, r: Result, s': nat, p': nat)
      requires Valid() && s <= |src| && At(pat, p) == ESC
      requires At(pat, p + 1) == 'b' as int || At(pat, p + 1) == 'f' as int || IsDigit(At(pat, p + 1))
      ensures done ==> IsFirst(r, Caps(), Ways(Items(pat, p), src, s, Caps()), Caps())
      ensures !done ==> s' <= |src| && p < p' <= |pat|
      ensures !done ==> Ways(Items(pat, p), src, s, Caps()) == Ways(Items(pat, p'), src, s', Caps())
    {
      ghost var items := Items(pat, p);
      done, r, s', p' := true, Null, s, p;
      if At(pat, p + 1) == 'b' as int {
        if At(pat, p + 2) == 0 || At(pat, p + 3) == 0 { r := Error; return; }
        assert items[0] == Balance(At(pat, p + 2), At(pat, p + 3)) && items[1..] == Items(pat, p + 4);
        var o := MatchBalance(src, s, At(pat, p + 2), At(pat, p + 3));
        if o.Some? { done, s', p' := false, o.value, p + 4; }
      } else if At(pat, p + 1) == 'f' as int {
        done, r, p' := MatchFrontier(s, p);
      } else {
        assert items[0] == Backref(At(pat, p + 1) - '1' as int) && items[1..] == Items(pat, p + 2);
        r := MatchCapture(s, At(pat, p + 1) - '1' as int);
        if r.Found? { done, s', p' := false, r.s, p + 2; }
      }
    }

    /** match (lstrlib.c:365-440): the preferred way to match the rest of the pattern at `s`. A failed
        attempt leaves the captures as they were. */
    method DoMatch(s0: nat, p0: nat) returns (r: Result)
      requires Valid() && s0 <= |src| && p0 <= |pat|
      modifies this`level, capture
      ensures Valid() && IsFirst(r, Caps(), Ways(Items(pat, p0), src, s0, old(Caps())), old(Caps()))
      decreases |pat| - p0, 6
    {
      ghost var caps := Caps();
      var s: nat, p: nat := s0, p0;
      while true
        invariant s <= |src| && p0 <= p <= |pat| && Valid() && Caps() == caps
        invariant Ways(Items(pat, p), src, s, caps) == Ways(Items(pat, p0), src, s0, caps)
        decreases |pat| - p
      {
        var c, d := At(pat, p), At(pat, p + 1);
        ghost var items := Items(pat, p);
        var done := false;
        if c == '(' as int {
          if d == ')' as int {
            assert items[0] == Position && items[1..] == Items(pat, p + 2);
            r := StartCapture(s, p + 2, POSITION);
          } else {
            assert items[0] == Open && items[1..] == Items(pat, p + 1);
            r := StartCapture(s, p + 1, UNFINISHED);
          }
          return;
        } else if c == ')' as int {
          assert items[0] == Close && items[1..] == Items(pat, p + 1);
          r := EndCapture(s, p + 1);
          return;
        } else if c == ESC && (d == 'b' as int || d == 'f' as int || IsDigit(d)) {
          done, r, s, p := MatchEscape(s, p);
        } else if c == 0 {
          return Found(s);
        } else if c == '$' as int && d == 0 {
          assert items[0] == AtEnd && items[1..] == [];
          return if s == |src| then Found(s) else Null;
        } else {
          done, r, s, p := MatchChars(s, p);
        }
        if done { return; }
      }
    }
  }
}
