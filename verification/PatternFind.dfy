/** Searching for the first match of a pattern (lstrlib.c:495-535). */
module PatternFind {
  import opened PatternSyntax
  import opened PatternMeaning
  import opened PatternMatch
  import opened PatternLaws
  import opened PatternText

  // ----- searching -----

  /** No match; where a match starts and ends; or the position where an error was raised. */
  datatype FindResult = NotFound | FoundAt(start: nat, end: nat) | FindError(at: nat)

  predicate Anchored(pat: Text) { At(pat, 0) == '^' as int }

  /** The items of a pattern without its anchor. */
  ghost function Body(pat: Text): seq<Item> { Items(pat, if Anchored(pat) then 1 else 0) }

  ghost predicate FailsAt(items: seq<Item>, src: Text, s: nat) { s <= |src| && Ways(items, src, s, []) == [] }

  ghost predicate FaultsAt(items: seq<Item>, src: Text, s: nat) {
    s <= |src| && Ways(items, src, s, []) != [] && Ways(items, src, s, [])[0] == Fault
  }

  lemma NoFaultAt(items: seq<Item>, src: Text, s: nat)
    requires s <= |src| && WellFormed(items, [])
    ensures !FaultsAt(items, src, s)
  {
    assert Opened([]) == [];
    NoFault(items, src, s, []);
    WaysArePossible(items, src, s, [], Fault);
  }

  /** Where the pattern starts after an anchor. */
  function Start(pat: Text): nat { if |pat| > 0 && pat[0] == 94 then 1 else 0 }

  /** The text of the pattern does not match at `s`. */
  ghost predicate NoMatchAt(pat: Text, src: Text, s: nat) {
    s <= |src| && forall w :: !Matches(pat, Start(pat), src, s, [], w)
  }

  lemma FailsMean(pat: Text, src: Text, s: nat)
    requires FailsAt(Body(pat), src, s)
    ensures NoMatchAt(pat, src, s)
  {
    NoWays(pat, Start(pat), src, s, []);
  }

  /** The last position that is tried: only the first one for an anchored pattern. */
  function LastTry(pat: Text, src: Text, init: nat): nat { if Start(pat) == 1 then init else |src| }

  /** The search gets to `s`, and the pattern matches at no position before it. */
  ghost predicate Reached(pat: Text, src: Text, init: nat, s: nat) {
    init <= s <= LastTry(pat, src, init) && forall i :: init <= i < s ==> NoMatchAt(pat, src, i)
  }

  /** The first position at which the pattern matches, with the preferred match there; or the first at which the
      search runs into an error before it matches, which a well-formed pattern never does. */
  method Find(src: Text, pat: Text, init: nat) returns (r: FindResult, caps: Captures)
    requires init <= |src|
    ensures r.FoundAt? ==>
      && r.start <= |src| && Reached(pat, src, init, r.start)
      && Matches(pat, Start(pat), src, r.start, [], Match(r.end, caps))
      && Ways(Body(pat), src, r.start, []) != [] && Ways(Body(pat), src, r.start, [])[0] == Match(r.end, caps)
    ensures r.FindError? ==>
      && r.at <= |src| && Reached(pat, src, init, r.at) && Matches(pat, Start(pat), src, r.at, [], Fault)
      && FaultsAt(Body(pat), src, r.at) && !WellFormed(Body(pat), [])
    ensures r.NotFound? ==> forall i :: init <= i <= LastTry(pat, src, init) ==> NoMatchAt(pat, src, i)
  {
    var ms := new MatchState(src, pat);
    var anchor := Anchored(pat);
    var p := if anchor then 1 else 0;
    ghost var items := Body(pat);
    var s1 := init;
    while true
      invariant s1 <= |src| && Reached(pat, src, init, s1)
      invariant ms.Valid() && fresh(ms) && fresh(ms.capture) && ms.src == src && ms.pat == pat
      decreases |src| - s1
    {
      ms.level := 0;
      assert ms.Caps() == [];
      var res := ms.DoMatch(s1, p);
      if res == Null { FailsMean(pat, src, s1); } else { FirstWay(pat, Start(pat), src, s1, []); }
      if res != Null {
        if res == Error {
          assert FaultsAt(items, src, s1);
          if WellFormed(items, []) { NoFaultAt(items, src, s1); }
          return FindError(s1), [];
        }
        return FoundAt(s1, res.s), ms.capture[..ms.level];
      }
      if s1 == |src| || anchor { return NotFound, []; }
      s1 := s1 + 1;
    }
  }
}
