/** The meaning of a pattern string, read from its characters (Lua 5.1 Reference Manual, section 5.4.1), and that the
    items of a pattern have it. */
module PatternText {
  import opened PatternSyntax
  import opened PatternChars
  import opened PatternMeaning
  import opened PatternMatch
  import opened PatternLaws

  /** `k` repetitions of an item before the byte `suffix`. */
  predicate Repeatable(suffix: int, k: nat) {
    if suffix == 63 then k <= 1                       // ?
    else if suffix == 43 then k >= 1                  // +
    else if suffix == 42 || suffix == 45 then true    // * -
    else k == 1
  }

  function AfterSuffix(suffix: int, ep: nat): nat { if suffix in {63, 43, 42, 45} then ep + 1 else ep }

  /** The `k` bytes from `s` on are accepted by the item from `p` up to `ep`. */
  predicate ItemRun(pat: Text, p: nat, ep: nat, src: Text, s: nat, k: nat)
    requires ep > 0
  {
    s + k <= |src| && forall i :: s <= i < s + k ==> ItemAccepts(pat, p, ep, src[i])
  }

  /** Capture `l` is the last open one. */
  ghost predicate LastUnfinished(caps: Captures, l: nat) {
    l < |caps| && caps[l].len == -1 && forall k :: l < k < |caps| ==> caps[k].len != -1
  }

  /** `w` is a way to match the pattern from `p` on at `s`: a position and the captures, or an error. A capture has
      length -1 while it is open and -2 if it is a position. */
  ghost predicate Matches(pat: Text, p: nat, src: Text, s: nat, caps: Captures, w: Way)
    requires s <= |src|
    decreases if p < |pat| then |pat| - p else 0
  {
    var c, d := Byte(pat, p), Byte(pat, p + 1);
    if c == 0 then w == Match(s, caps)
    else if c == 40 && d == 41 then  // ()
      if |caps| >= 32 then w == Fault else Matches(pat, p + 2, src, s, caps + [Capture(s, -2)], w)
    else if c == 40 then  // (
      if |caps| >= 32 then w == Fault else Matches(pat, p + 1, src, s, caps + [Capture(s, -1)], w)
    else if c == 41 then  // )
      if forall k :: 0 <= k < |caps| ==> caps[k].len != -1 then w == Fault
      else exists l: nat ::
        LastUnfinished(caps, l) && Matches(pat, p + 1, src, s, caps[l := Capture(caps[l].init, s - caps[l].init)], w)
    else if c == 37 && d == 98 then  // %b
      if Byte(pat, p + 2) == 0 || Byte(pat, p + 3) == 0 then w == Fault
      else
        var b, e, next := Byte(pat, p + 2), Byte(pat, p + 3), p + 4;
        exists r: nat :: Balanced(src, s, r, b, e) && Matches(pat, next, src, r, caps, w)
    else if c == 37 && d == 102 then  // %f
      if Byte(pat, p + 2) != 91 || ItemEnd(pat, p + 2).None? then w == Fault
      else
        var ep := ItemEnd(pat, p + 2).value;
        && !BracketAccepts(pat, p + 2, ep - 1, if s == 0 then 0 else src[s - 1])
        && BracketAccepts(pat, p + 2, ep - 1, if s == |src| then 0 else src[s])
        && Matches(pat, ep, src, s, caps, w)
    else if c == 37 && 48 <= d <= 57 then  // %1
      var l := d - 49;
      if l < 0 || l >= |caps| || caps[l].len == -1 then w == Fault
      else
        var n, i := caps[l].len, caps[l].init;
        && n >= 0 && s + n <= |src| && i + n <= |src| && src[s..s + n] == src[i..i + n]
        && Matches(pat, p + 2, src, s + n, caps, w)
    else if c == 36 && d == 0 then s == |src| && w == Match(s, caps)  // $
    else
      match ItemEnd(pat, p)
      case None => w == Fault
      case Some(ep) =>
        var suffix := Byte(pat, ep);
        exists k: nat ::
          && Repeatable(suffix, k) && ItemRun(pat, p, ep, src, s, k)
          && Matches(pat, AfterSuffix(suffix, ep), src, s + k, caps, w)
  }

  /** A balanced string has as many closing as opening delimiters, and no shorter one has. */
  lemma {:induction false} DepthCounts(src: Text, s: nat, k: nat, b: int, e: int)
    requires s < k <= |src| && b != e && src[s] == b
    ensures Depth(src, s, k, b, e) + multiset(src[s..k])[e] == multiset(src[s..k])[b]
    decreases k
  {
    if k == s + 1 {
      assert src[s..k] == [b];
    } else {
      DepthCounts(src, s, k - 1, b, e);
      assert src[s..k] == src[s..k - 1] + [src[k - 1]];
    }
  }

  /** With one delimiter for both ends the string goes up to the next one. */
  lemma {:induction false} DepthSame(src: Text, s: nat, k: nat, b: int)
    requires s < k <= |src| && forall i :: s < i < k ==> src[i] != b
    ensures Depth(src, s, k, b, b) == 1
    ensures k < |src| && src[k] == b ==> Depth(src, s, k + 1, b, b) == 0
    decreases k
  {
    if k > s + 1 { DepthSame(src, s, k - 1, b); }
  }

  // ----- the items of a pattern mean what its text means -----

  lemma {:induction false} TextMeans(pat: Text, p: nat, src: Text, s: nat, caps: Captures, w: Way)
    requires s <= |src|
    ensures Possible(Items(pat, p), src, s, caps, w) <==> Matches(pat, p, src, s, caps, w)
    decreases if p < |pat| then |pat| - p else 0, 1, 0
  {
    var c, d := Byte(pat, p), Byte(pat, p + 1);
    var items := Items(pat, p);
    if c == 40 {
      OpenMeans(pat, p, src, s, caps, w);
    } else if c == 41 {
      CloseMeans(pat, p, src, s, caps, w);
    } else if c == 37 && d == 98 {
      BalanceTextMeans(pat, p, src, s, caps, w);
    } else if c == 37 && d == 102 {
      FrontierMeans(pat, p, src, s, caps, w);
    } else if c == 37 && 48 <= d <= 57 {
      BackrefMeans(pat, p, src, s, caps, w);
    } else if c != 0 && !(c == 36 && d == 0) {
      CharsMean(pat, p, src, s, caps, w);
    } else if c == 36 {
      assert items == [AtEnd];
    }
  }

  lemma OpenMeans(pat: Text, p: nat, src: Text, s: nat, caps: Captures, w: Way)
    requires s <= |src| && Byte(pat, p) == 40
    ensures Possible(Items(pat, p), src, s, caps, w) <==> Matches(pat, p, src, s, caps, w)
    decreases |pat| - p, 0
  {
    var items := Items(pat, p);
    if Byte(pat, p + 1) == 41 {
      assert items[0] == Position && items[1..] == Items(pat, p + 2);
      TextMeans(pat, p + 2, src, s, caps + [Capture(s, -2)], w);
    } else {
      assert items[0] == Open && items[1..] == Items(pat, p + 1);
      TextMeans(pat, p + 1, src, s, caps + [Capture(s, -1)], w);
    }
  }

  lemma CloseMeans(pat: Text, p: nat, src: Text, s: nat, caps: Captures, w: Way)
    requires s <= |src| && Byte(pat, p) == 41
    ensures Possible(Items(pat, p), src, s, caps, w) <==> Matches(pat, p, src, s, caps, w)
    decreases |pat| - p, 0
  {
    var l := LastOpen(caps, |caps|);
    hide *;
    StartInside(pat, p);
    CloseItems(pat, p);
    ClosePossible(Items(pat, p), src, s, caps, w);
    CloseMatches(pat, p, src, s, caps, w);
    if l >= 0 { TextMeans(pat, p + 1, src, s, CloseCapture(caps, l, s), w); }
  }

  lemma CloseItems(pat: Text, p: nat)
    requires Byte(pat, p) == 41
    ensures Items(pat, p) != [] && Items(pat, p)[0] == Close && Items(pat, p)[1..] == Items(pat, p + 1)
  {}

  lemma ClosePossible(items: seq<Item>, src: Text, s: nat, caps: Captures, w: Way)
    requires s <= |src| && items != [] && items[0] == Close
    ensures var l := LastOpen(caps, |caps|);
      Possible(items, src, s, caps, w) <==>
        if l < 0 then w == Fault else Possible(items[1..], src, s, CloseCapture(caps, l, s), w)
  {}

  lemma CloseMatches(pat: Text, p: nat, src: Text, s: nat, caps: Captures, w: Way)
    requires s <= |src| && Byte(pat, p) == 41
    ensures var l := LastOpen(caps, |caps|);
      Matches(pat, p, src, s, caps, w) <==>
        if l < 0 then w == Fault else Matches(pat, p + 1, src, s, CloseCapture(caps, l, s), w)
  {
    var l := LastOpen(caps, |caps|);
    if l >= 0 { assert LastUnfinished(caps, l) && forall k: nat :: LastUnfinished(caps, k) ==> k == l; }
  }

  lemma BalanceTextMeans(pat: Text, p: nat, src: Text, s: nat, caps: Captures, w: Way)
    requires s <= |src| && Byte(pat, p) == 37 && Byte(pat, p + 1) == 98
    ensures Possible(Items(pat, p), src, s, caps, w) <==> Matches(pat, p, src, s, caps, w)
    decreases |pat| - p, 0
  {
    var items := Items(pat, p);
    var b, e := Byte(pat, p + 2), Byte(pat, p + 3);
    if b == 0 || e == 0 {
      assert items == [Malformed];
    } else {
      assert items[0] == Balance(b, e) && items[1..] == Items(pat, p + 4);
      forall r: nat | Balanced(src, s, r, b, e)
        ensures Possible(Items(pat, p + 4), src, r, caps, w) <==> Matches(pat, p + 4, src, r, caps, w)
      {
        TextMeans(pat, p + 4, src, r, caps, w);
      }
      hide Balanced;
    }
  }

  lemma FrontierMeans(pat: Text, p: nat, src: Text, s: nat, caps: Captures, w: Way)
    requires s <= |src| && Byte(pat, p) == 37 && Byte(pat, p + 1) == 102
    ensures Possible(Items(pat, p), src, s, caps, w) <==> Matches(pat, p, src, s, caps, w)
    decreases |pat| - p, 0
  {
    hide *;
    StartInside(pat, p);
    FrontierItems(pat, p);
    FrontierMatches(pat, p, src, s, caps, w);
    var items := Items(pat, p);
    if Byte(pat, p + 2) != 91 || ItemEnd(pat, p + 2).None? {
      MalformedPossible(items, src, s, caps, w);
    } else {
      var ep := ItemEnd(pat, p + 2).value;
      var q := p + 2;
      var x, before, now := SetAt(pat, q, ep - 1), if s == 0 then 0 else src[s - 1], if s == |src| then 0 else src[s];
      BracketMeans(pat, q, ep - 1, before);
      BracketMeans(pat, q, ep - 1, now);
      TextMeans(pat, ep, src, s, caps, w);
      FrontierPossible(items, x, src, s, before, now, caps, w);
    }
  }

  lemma StartInside(pat: Text, p: nat)
    requires Byte(pat, p) != 0
    ensures p < |pat|
  {}

  lemma MalformedPossible(items: seq<Item>, src: Text, s: nat, caps: Captures, w: Way)
    requires s <= |src| && items == [Malformed]
    ensures Possible(items, src, s, caps, w) <==> w == Fault
  {}

  lemma FrontierPossible(items: seq<Item>, x: Single, src: Text, s: nat, before: int, now: int, caps: Captures, w: Way)
    requires s <= |src| && items != [] && items[0] == Frontier(x)
    requires before == (if s == 0 then 0 else src[s - 1]) && now == if s == |src| then 0 else src[s]
    ensures Possible(items, src, s, caps, w) <==>
      !Accepts(x, before) && Accepts(x, now) && Possible(items[1..], src, s, caps, w)
  {
    hide Accepts;
  }

  lemma FrontierItems(pat: Text, p: nat)
    requires Byte(pat, p) == 37 && Byte(pat, p + 1) == 102
    ensures Byte(pat, p + 2) != 91 || ItemEnd(pat, p + 2).None? ==> Items(pat, p) == [Malformed]
    ensures Byte(pat, p + 2) == 91 && ItemEnd(pat, p + 2).Some? ==>
      var ep := ItemEnd(pat, p + 2).value;
      && Items(pat, p) != [] && Items(pat, p)[0] == Frontier(SetAt(pat, p + 2, ep - 1))
      && Items(pat, p)[1..] == Items(pat, ep)
  {
    if Byte(pat, p + 2) == 91 { ItemEndMeans(pat, p + 2); }
    hide SetAt, ItemEnd, ClassEnd;
  }

  lemma FrontierMatches(pat: Text, p: nat, src: Text, s: nat, caps: Captures, w: Way)
    requires s <= |src| && Byte(pat, p) == 37 && Byte(pat, p + 1) == 102
    ensures Byte(pat, p + 2) != 91 || ItemEnd(pat, p + 2).None? ==> (Matches(pat, p, src, s, caps, w) <==> w == Fault)
    ensures Byte(pat, p + 2) == 91 && ItemEnd(pat, p + 2).Some? ==>
      var ep := ItemEnd(pat, p + 2).value;
      Matches(pat, p, src, s, caps, w) <==>
        && !BracketAccepts(pat, p + 2, ep - 1, if s == 0 then 0 else src[s - 1])
        && BracketAccepts(pat, p + 2, ep - 1, if s == |src| then 0 else src[s])
        && Matches(pat, ep, src, s, caps, w)
  {
    hide BracketAccepts, ItemEnd;
  }

  lemma BackrefMeans(pat: Text, p: nat, src: Text, s: nat, caps: Captures, w: Way)
    requires s <= |src| && Byte(pat, p) == 37 && 48 <= Byte(pat, p + 1) <= 57
    ensures Possible(Items(pat, p), src, s, caps, w) <==> Matches(pat, p, src, s, caps, w)
    decreases |pat| - p, 0
  {
    var l := Byte(pat, p + 1) - 49;
    hide *;
    StartInside(pat, p);
    BackrefItems(pat, p);
    BackrefPossible(Items(pat, p), l, src, s, caps, w);
    BackrefMatches(pat, p, src, s, caps, w);
    if !BadIndex(caps, l) && Repeats(src, caps[l], s) {
      RepeatsAfter(src, caps[l], s);
      TextMeans(pat, p + 2, src, s + caps[l].len, caps, w);
    }
  }

  lemma BackrefItems(pat: Text, p: nat)
    requires Byte(pat, p) == 37 && 48 <= Byte(pat, p + 1) <= 57
    ensures Items(pat, p) != [] && Items(pat, p)[0] == Backref(Byte(pat, p + 1) - 49)
    ensures Items(pat, p)[1..] == Items(pat, p + 2)
  {}

  lemma BackrefPossible(items: seq<Item>, l: int, src: Text, s: nat, caps: Captures, w: Way)
    requires s <= |src| && items != [] && items[0] == Backref(l)
    ensures BadIndex(caps, l) ==> (Possible(items, src, s, caps, w) <==> w == Fault)
    ensures !BadIndex(caps, l) ==> 0 <= l < |caps|
    ensures !BadIndex(caps, l) ==>
      (Possible(items, src, s, caps, w) <==>
       Repeats(src, caps[l], s) && Possible(items[1..], src, s + caps[l].len, caps, w))
  {
    hide Repeats;
  }

  lemma BackrefMatches(pat: Text, p: nat, src: Text, s: nat, caps: Captures, w: Way)
    requires s <= |src| && Byte(pat, p) == 37 && 48 <= Byte(pat, p + 1) <= 57
    ensures var l := Byte(pat, p + 1) - 49;
      Matches(pat, p, src, s, caps, w) <==>
        if BadIndex(caps, l) then w == Fault
        else Repeats(src, caps[l], s) && Matches(pat, p + 2, src, s + caps[l].len, caps, w)
  {}

  /** The items from a single character item on. */
  lemma CharItem(pat: Text, p: nat, ep: nat) returns (rep: Repeat)
    requires Byte(pat, p) != 0 && ItemEnd(pat, p) == Some(ep)
    ensures CharItems(pat, p) == [Chars(SingleAt(pat, p, ep), rep)] + Items(pat, AfterSuffix(Byte(pat, ep), ep))
    ensures forall k: nat :: Allowed(rep, k) <==> Repeatable(Byte(pat, ep), k)
  {
    ItemEndMeans(pat, p);
    var q := Byte(pat, ep);
    rep := if q == 63 then Optional else if q == 42 then Star else if q == 43 then Plus
      else if q == 45 then Minus else Once;
  }

  lemma ItemRunMeans(pat: Text, p: nat, ep: nat, src: Text, s: nat, k: nat)
    requires ep > 0
    ensures AllAccepted(SingleAt(pat, p, ep), src, s, k) <==> ItemRun(pat, p, ep, src, s, k)
  {
    forall c ensures Accepts(SingleAt(pat, p, ep), c) <==> ItemAccepts(pat, p, ep, c) { ItemMeans(pat, p, ep, c); }
    hide Accepts, ItemAccepts, SingleAt;
  }

  /** A single character item starts at `p`, not a parenthesis, `%b`, `%f`, `%1` or the final `$`. */
  predicate PlainStart(pat: Text, p: nat) {
    && Byte(pat, p) != 0 && Byte(pat, p) != 40 && Byte(pat, p) != 41 && !(Byte(pat, p) == 36 && Byte(pat, p + 1) == 0)
    && (Byte(pat, p) == 37 ==> Byte(pat, p + 1) !in {98, 102} && !(48 <= Byte(pat, p + 1) <= 57))
  }

  lemma CharsMean(pat: Text, p: nat, src: Text, s: nat, caps: Captures, w: Way)
    requires s <= |src| && PlainStart(pat, p)
    ensures Possible(Items(pat, p), src, s, caps, w) <==> Matches(pat, p, src, s, caps, w)
    decreases if p < |pat| then |pat| - p else 0, 0, 1
  {
    assert Byte(pat, p) != 0;
    hide *;
    CharsMatch(pat, p, src, s, caps, w);
    PlainChars(pat, p);
    match ItemEnd(pat, p)
    case None =>
      MalformedPossible(Items(pat, p), src, s, caps, w);
    case Some(ep) =>
      var rep := CharItem(pat, p, ep);
      var x, rest := SingleAt(pat, p, ep), Items(pat, AfterSuffix(Byte(pat, ep), ep));
      CharPossible(Items(pat, p), x, rep, rest, src, s, caps, w);
      forall k: nat
        ensures GoesOnBy(rep, x, rest, src, s, caps, w, k) <==> MatchesAfter(pat, p, ep, src, s, caps, w, k)
      {
        AfterMeans(pat, p, ep, rep, src, s, caps, w, k);
      }
  }

  lemma AfterMeans(pat: Text, p: nat, ep: nat, rep: Repeat, src: Text, s: nat, caps: Captures, w: Way, k: nat)
    requires p < ep <= |pat| && (Allowed(rep, k) <==> Repeatable(Byte(pat, ep), k))
    ensures GoesOnBy(rep, SingleAt(pat, p, ep), Items(pat, AfterSuffix(Byte(pat, ep), ep)), src, s, caps, w, k) <==>
      MatchesAfter(pat, p, ep, src, s, caps, w, k)
    decreases if p < |pat| then |pat| - p else 0, 0, 0
  {
    var next := AfterSuffix(Byte(pat, ep), ep);
    hide *;
    ItemRunMeans(pat, p, ep, src, s, k);
    NextAfter(Byte(pat, ep), ep);
    if ItemRun(pat, p, ep, src, s, k) {
      RunInside(pat, p, ep, src, s, k);
      TextMeans(pat, next, src, s + k, caps, w);
    }
    SameAfter(pat, p, ep, rep, src, s, caps, w, k);
  }

  lemma NextAfter(suffix: int, ep: nat)
    ensures AfterSuffix(suffix, ep) >= ep
  {}

  lemma PlainChars(pat: Text, p: nat)
    requires PlainStart(pat, p)
    ensures Items(pat, p) == CharItems(pat, p) && (ItemEnd(pat, p).None? ==> CharItems(pat, p) == [Malformed])
  {
    ItemEndMeans(pat, p);
    hide ItemEnd, ClassEnd, SingleAt;
  }

  /** After `k` repetitions of the item `x` its rest leads to `w`. */
  ghost predicate GoesOnBy(rep: Repeat, x: Single, rest: seq<Item>, src: Text, s: nat, caps: Captures, w: Way, k: nat) {
    Allowed(rep, k) && AllAccepted(x, src, s, k) && Possible(rest, src, s + k, caps, w)
  }

  ghost predicate MatchesAfter(pat: Text, p: nat, ep: nat, src: Text, s: nat, caps: Captures, w: Way, k: nat)
    requires ep > 0
  {
    var suffix := Byte(pat, ep);
    Repeatable(suffix, k) && ItemRun(pat, p, ep, src, s, k) &&
    Matches(pat, AfterSuffix(suffix, ep), src, s + k, caps, w)
  }

  lemma SameAfter(pat: Text, p: nat, ep: nat, rep: Repeat, src: Text, s: nat, caps: Captures, w: Way, k: nat)
    requires ep > 0 && (Allowed(rep, k) <==> Repeatable(Byte(pat, ep), k))
    requires AllAccepted(SingleAt(pat, p, ep), src, s, k) <==> ItemRun(pat, p, ep, src, s, k)
    requires var next := AfterSuffix(Byte(pat, ep), ep); ItemRun(pat, p, ep, src, s, k) ==>
      s + k <= |src| && (Possible(Items(pat, next), src, s + k, caps, w) <==> Matches(pat, next, src, s + k, caps, w))
    ensures GoesOnBy(rep, SingleAt(pat, p, ep), Items(pat, AfterSuffix(Byte(pat, ep), ep)), src, s, caps, w, k) <==>
      MatchesAfter(pat, p, ep, src, s, caps, w, k)
  {
    hide Possible, Matches, Items, SingleAt, ItemAccepts, Accepts, Allowed, Repeatable, AfterSuffix;
  }

  lemma CharPossible(items: seq<Item>, x: Single, rep: Repeat, rest: seq<Item>, src: Text, s: nat, caps: Captures,
      w: Way)
    requires s <= |src| && items == [Chars(x, rep)] + rest
    ensures Possible(items, src, s, caps, w) <==> exists k: nat :: GoesOnBy(rep, x, rest, src, s, caps, w, k)
  {
    assert items[1..] == rest;
    hide Allowed, Accepts;
    assert forall k: nat :: GoesOnBy(rep, x, rest, src, s, caps, w, k) <==>
      Allowed(rep, k) && AllAccepted(x, src, s, k) && Possible(rest, src, s + k, caps, w);
  }

  lemma CharsMatch(pat: Text, p: nat, src: Text, s: nat, caps: Captures, w: Way)
    requires s <= |src| && PlainStart(pat, p)
    ensures match ItemEnd(pat, p)
      case None => Matches(pat, p, src, s, caps, w) <==> w == Fault
      case Some(ep) =>
        Matches(pat, p, src, s, caps, w) <==> exists k: nat :: MatchesAfter(pat, p, ep, src, s, caps, w, k)
  {
    hide ItemEnd, ItemAccepts, Repeatable, AfterSuffix;
    if ItemEnd(pat, p).Some? {
      var ep := ItemEnd(pat, p).value;
      var suffix := Byte(pat, ep);
      var next := AfterSuffix(suffix, ep);
      assert forall k: nat :: MatchesAfter(pat, p, ep, src, s, caps, w, k) <==>
        Repeatable(suffix, k) && ItemRun(pat, p, ep, src, s, k) && Matches(pat, next, src, s + k, caps, w);
    }
  }

  lemma RunInside(pat: Text, p: nat, ep: nat, src: Text, s: nat, k: nat)
    requires ep > 0 && ItemRun(pat, p, ep, src, s, k)
    ensures s + k <= |src|
  {}

  // ----- the preferred match -----

  /** `p` is the start of a single character item that ends at `ep`. */
  predicate PlainItem(pat: Text, p: nat, ep: nat) {
    PlainStart(pat, p) && ItemEnd(pat, p) == Some(ep)
  }

  /** Some way matches the pattern from `p` on at `s`. */
  ghost predicate CanMatch(pat: Text, p: nat, src: Text, s: nat, caps: Captures) {
    s <= |src| && exists w :: Matches(pat, p, src, s, caps, w)
  }

  /** `k` repetitions are possible before the suffix at `ep`, and then the rest of the pattern matches. */
  ghost predicate GoesOn(pat: Text, p: nat, ep: nat, src: Text, s: nat, caps: Captures, k: nat)
    requires ep > 0
  {
    && Repeatable(Byte(pat, ep), k) && ItemRun(pat, p, ep, src, s, k)
    && CanMatch(pat, AfterSuffix(Byte(pat, ep), ep), src, s + k, caps)
  }

  lemma NoWays(pat: Text, p: nat, src: Text, s: nat, caps: Captures)
    requires s <= |src| && Ways(Items(pat, p), src, s, caps) == []
    ensures forall w :: !Matches(pat, p, src, s, caps, w)
  {
    forall w ensures !Matches(pat, p, src, s, caps, w) {
      WaysArePossible(Items(pat, p), src, s, caps, w);
      TextMeans(pat, p, src, s, caps, w);
    }
  }

  lemma FirstWay(pat: Text, p: nat, src: Text, s: nat, caps: Captures)
    requires s <= |src| && Ways(Items(pat, p), src, s, caps) != []
    ensures Matches(pat, p, src, s, caps, Ways(Items(pat, p), src, s, caps)[0])
  {
    var w := Ways(Items(pat, p), src, s, caps)[0];
    WaysArePossible(Items(pat, p), src, s, caps, w);
    TextMeans(pat, p, src, s, caps, w);
  }

  lemma CanMatchMeans(pat: Text, p: nat, src: Text, s: nat, caps: Captures)
    requires s <= |src|
    ensures CanMatch(pat, p, src, s, caps) <==> Ways(Items(pat, p), src, s, caps) != []
  {
    hide Ways, Matches, Items;
    if Ways(Items(pat, p), src, s, caps) == [] {
      NoWays(pat, p, src, s, caps);
    } else {
      FirstWay(pat, p, src, s, caps);
    }
  }

  /** The preferred match of an item with its suffix: the most repetitions before `*`, `+` and `?`, the fewest before
      `-`, after which the rest matches at all. */
  lemma Preferred(pat: Text, p: nat, ep: nat, src: Text, s: nat, caps: Captures) returns (k: nat)
    requires s <= |src| && PlainItem(pat, p, ep) && Ways(Items(pat, p), src, s, caps) != []
    ensures GoesOn(pat, p, ep, src, s, caps, k)
    ensures var rest := Ways(Items(pat, AfterSuffix(Byte(pat, ep), ep)), src, s + k, caps);
      rest != [] && Ways(Items(pat, p), src, s, caps)[0] == rest[0]
    ensures forall i: nat :: GoesOn(pat, p, ep, src, s, caps, i) ==> if Byte(pat, ep) == 45 then k <= i else i <= k
  {
    var rep := PlainItems(pat, p, ep);
    var x, items := SingleAt(pat, p, ep), Items(pat, p);
    var next := AfterSuffix(Byte(pat, ep), ep);
    var rest := Items(pat, next);
    hide *;
    k := PreferredCount(rest, src, s, x, rep, caps, items);
    forall i: nat ensures GoesOn(pat, p, ep, src, s, caps, i) <==> Allowed(rep, i) && Leads(rest, src, s, x, caps, i) {
      LeadsOn(pat, p, ep, src, s, caps, i, rep);
    }
    LeadsInside(rest, src, s, x, caps, k);
  }

  /** What a single character item is as an item. */
  lemma PlainItems(pat: Text, p: nat, ep: nat) returns (rep: Repeat)
    requires PlainItem(pat, p, ep)
    ensures Items(pat, p) != [] && Items(pat, p)[0] == Chars(SingleAt(pat, p, ep), rep)
    ensures Items(pat, p)[1..] == Items(pat, AfterSuffix(Byte(pat, ep), ep))
    ensures rep == Minus <==> Byte(pat, ep) == 45
    ensures forall k: nat :: Allowed(rep, k) <==> Repeatable(Byte(pat, ep), k)
  {
    ItemEndMeans(pat, p);
    assert Items(pat, p) == CharItems(pat, p);
    rep := CharItem(pat, p, ep);
  }

  /** After `k` repetitions of `x` the rest has a way to match. */
  ghost predicate Leads(rest: seq<Item>, src: Text, s: nat, x: Single, caps: Captures, k: nat) {
    s <= |src| && k <= RunLength(x, src, s) && Ways(rest, src, s + k, caps) != []
  }

  lemma LeadsInside(rest: seq<Item>, src: Text, s: nat, x: Single, caps: Captures, k: nat)
    requires Leads(rest, src, s, x, caps, k)
    ensures s + k <= |src| && Ways(rest, src, s + k, caps) != []
  {}

  lemma LeadsOn(pat: Text, p: nat, ep: nat, src: Text, s: nat, caps: Captures, k: nat, rep: Repeat)
    requires ep > 0 && s <= |src| && (Allowed(rep, k) <==> Repeatable(Byte(pat, ep), k))
    ensures GoesOn(pat, p, ep, src, s, caps, k) <==>
      Allowed(rep, k) && Leads(Items(pat, AfterSuffix(Byte(pat, ep), ep)), src, s, SingleAt(pat, p, ep), caps, k)
  {
    ItemRunMeans(pat, p, ep, src, s, k);
    RunAccepted(SingleAt(pat, p, ep), src, s, k);
    if s + k <= |src| { CanMatchMeans(pat, AfterSuffix(Byte(pat, ep), ep), src, s + k, caps); }
    hide Items, SingleAt, Ways, Matches, CanMatch, Allowed, Repeatable;
  }

  /** How many repetitions the first way has. */
  lemma PreferredCount(rest: seq<Item>, src: Text, s: nat, x: Single, rep: Repeat, caps: Captures, items: seq<Item>)
    returns (k: nat)
    requires s <= |src| && items != [] && items[0] == Chars(x, rep) && items[1..] == rest
    requires Ways(items, src, s, caps) != []
    ensures Allowed(rep, k) && Leads(rest, src, s, x, caps, k)
    ensures s + k <= |src| && Ways(rest, src, s + k, caps) != []
    ensures Ways(items, src, s, caps)[0] == Ways(rest, src, s + k, caps)[0]
    ensures forall i: nat :: Allowed(rep, i) && Leads(rest, src, s, x, caps, i) ==>
      if rep == Minus then k <= i else i <= k
  {
    var n := RunLength(x, src, s);
    PatternLaws.CharWays(rest, src, s, x, rep, caps, items);
    hide Ways;
    match rep
    case Once => k := 1;
    case Optional => k := if n > 0 && Ways(rest, src, s + 1, caps) != [] then 1 else 0;
    case Star => k := MostCount(rest, src, s, x, 0, caps);
    case Plus => k := MostCount(rest, src, s, x, 1, caps);
    case Minus => k := LeastCount(rest, src, s, x, caps);
  }

  lemma MostCount(rest: seq<Item>, src: Text, s: nat, x: Single, low: nat, caps: Captures) returns (k: nat)
    requires s <= |src| && Longest(rest, src, s, low, RunLength(x, src, s), caps) != []
    ensures low <= k && Leads(rest, src, s, x, caps, k)
    ensures Longest(rest, src, s, low, RunLength(x, src, s), caps)[0] == Ways(rest, src, s + k, caps)[0]
    ensures forall i: nat :: Leads(rest, src, s, x, caps, i) ==> i <= k
  {
    k := LongestFirst(rest, src, s, low, RunLength(x, src, s), caps);
    hide Longest, Ways, RunLength;
    forall i: nat | Leads(rest, src, s, x, caps, i) ensures i <= k {
      assert !NoWayAfter(rest, src, s, caps, i);
    }
  }

  lemma LeastCount(rest: seq<Item>, src: Text, s: nat, x: Single, caps: Captures) returns (k: nat)
    requires s <= |src| && Shortest(rest, src, s, 0, RunLength(x, src, s), caps) != []
    ensures Leads(rest, src, s, x, caps, k)
    ensures Shortest(rest, src, s, 0, RunLength(x, src, s), caps)[0] == Ways(rest, src, s + k, caps)[0]
    ensures forall i: nat :: Leads(rest, src, s, x, caps, i) ==> k <= i
  {
    k := ShortestFirst(rest, src, s, 0, RunLength(x, src, s), caps);
    hide Shortest, Ways, RunLength;
    forall i: nat | Leads(rest, src, s, x, caps, i) ensures k <= i {
      assert !NoWayAfter(rest, src, s, caps, i);
    }
  }
}
