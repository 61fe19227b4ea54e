/** Patterns of the string library (lstrlib.c:202-275; Lua 5.1 Reference Manual, section 5.4.1): their
    items, and which items a pattern string consists of. Strings are sequences of byte values. */
module PatternSyntax {

  datatype Option<+T> = None | Some(value: T)

  type Text = seq<int>

  const ESC := '%' as int
  const MAXCAPTURES := 32

  /** What the C code reads at `i`: the terminator after the last byte. */
  function At(t: Text, i: nat): int { if i < |t| then t[i] else 0 }

  // ----- character classes -----

  predicate IsDigit(c: int) { '0' as int <= c <= '9' as int }
  predicate IsLower(c: int) { 'a' as int <= c <= 'z' as int }
  predicate IsUpper(c: int) { 'A' as int <= c <= 'Z' as int }
  predicate IsAlpha(c: int) { IsLower(c) || IsUpper(c) }
  predicate IsCntrl(c: int) { 0 <= c < 32 || c == 127 }
  predicate IsSpace(c: int) { 9 <= c <= 13 || c == 32 }
  predicate IsPunct(c: int) { 33 <= c <= 126 && !IsAlpha(c) && !IsDigit(c) }
  predicate IsXDigit(c: int) { IsDigit(c) || 'a' as int <= c <= 'f' as int || 'A' as int <= c <= 'F' as int }

  function ToLower(c: int): int { if IsUpper(c) then c + 32 else c }

  /** match_class (lstrlib.c:226-242), in the "C" locale */
  predicate MatchClass(c: int, cl: int) {
    var l := ToLower(cl);
    if l == 'a' as int then IsAlpha(c) == IsLower(cl)
    else if l == 'c' as int then IsCntrl(c) == IsLower(cl)
    else if l == 'd' as int then IsDigit(c) == IsLower(cl)
    else if l == 'l' as int then IsLower(c) == IsLower(cl)
    else if l == 'p' as int then IsPunct(c) == IsLower(cl)
    else if l == 's' as int then IsSpace(c) == IsLower(cl)
    else if l == 'u' as int then IsUpper(c) == IsLower(cl)
    else if l == 'w' as int then (IsAlpha(c) || IsDigit(c)) == IsLower(cl)
    else if l == 'x' as int then IsXDigit(c) == IsLower(cl)
    else if l == 'z' as int then (c == 0) == IsLower(cl)
    else cl == c
  }

  datatype SetItem = Class(cl: int) | Range(lo: int, hi: int)

  predicate InItem(c: int, i: SetItem) {
    match i
    case Class(cl) => MatchClass(c, cl)
    case Range(lo, hi) => lo <= c <= hi
  }

  /** A single character item of a pattern. */
  datatype Single = Any | Escaped(cl: int) | Set(negated: bool, items: seq<SetItem>) | Literal(c: int)

  predicate InSet(c: int, items: seq<SetItem>) { exists i :: 0 <= i < |items| && InItem(c, items[i]) }

  predicate Accepts(x: Single, c: int) {
    match x
    case Any => true
    case Escaped(cl) => MatchClass(c, cl)
    case Set(negated, items) => InSet(c, items) != negated
    case Literal(d) => c == d
  }

  /** The items of a set from `p` up to the closing bracket at `ec`. */
  function SetItems(pat: Text, p: nat, ec: nat): seq<SetItem>
    decreases if ec > p then ec - p else 0
  {
    if p >= ec then []
    else if At(pat, p) == ESC then [Class(At(pat, p + 1))] + SetItems(pat, p + 2, ec)
    else if At(pat, p + 1) == '-' as int && p + 2 < ec then
      [Range(At(pat, p), At(pat, p + 2))] + SetItems(pat, p + 3, ec)
    else [Range(At(pat, p), At(pat, p))] + SetItems(pat, p + 1, ec)
  }

  /** The set that starts with the bracket at `p`. */
  function SetAt(pat: Text, p: nat, ec: nat): Single {
    var negated := At(pat, p + 1) == '^' as int;
    Set(negated, SetItems(pat, if negated then p + 2 else p + 1, ec))
  }

  /** Where the search for `]` ends (lstrlib.c:210-216). */
  function BracketEnd(pat: Text, p: nat): (r: Option<nat>)
    ensures r.Some? ==> p < r.value <= |pat|
    decreases if |pat| > p then |pat| - p else 0
  {
    if At(pat, p) == 0 then None
    else
      var q := if At(pat, p) == ESC && At(pat, p + 1) != 0 then p + 2 else p + 1;
      if At(pat, q) == ']' as int then Some(q + 1) else BracketEnd(pat, q)
  }

  /** classend (lstrlib.c:202-223): the position after the single character item at `p`. */
  function ClassEnd(pat: Text, p: nat): (r: Option<nat>)
    requires At(pat, p) != 0
    ensures r.Some? ==> p < r.value <= |pat|
  {
    if At(pat, p) == ESC then if At(pat, p + 1) == 0 then None else Some(p + 2)
    else if At(pat, p) == '[' as int then BracketEnd(pat, if At(pat, p + 1) == '^' as int then p + 2 else p + 1)
    else Some(p + 1)
  }

  /** The single character item between `p` and `ep`. */
  function SingleAt(pat: Text, p: nat, ep: nat): Single
    requires ep > 0
  {
    if At(pat, p) == '.' as int then Any
    else if At(pat, p) == ESC then Escaped(At(pat, p + 1))
    else if At(pat, p) == '[' as int then SetAt(pat, p, ep - 1)
    else Literal(At(pat, p))
  }

  // ----- patterns -----

  datatype Repeat = Once | Optional | Star | Plus | Minus

  datatype Item =
    | Chars(x: Single, rep: Repeat)
    | Open
    | Position
    | Close
    | Balance(b: int, e: int)
    | Frontier(x: Single)
    | Backref(l: int)
    | AtEnd
    | Malformed

  /** The items of the pattern from `p` on; what cannot be read is an item that raises an error. */
  function Items(pat: Text, p: nat): seq<Item>
    decreases if |pat| > p then |pat| - p else 0
  {
    var c, d := At(pat, p), At(pat, p + 1);
    if c == 0 then []
    else if c == '(' as int then
      if d == ')' as int then [Position] + Items(pat, p + 2) else [Open] + Items(pat, p + 1)
    else if c == ')' as int then [Close] + Items(pat, p + 1)
    else if c == ESC && d == 'b' as int then
      if At(pat, p + 2) == 0 || At(pat, p + 3) == 0 then [Malformed]
      else [Balance(At(pat, p + 2), At(pat, p + 3))] + Items(pat, p + 4)
    else if c == ESC && d == 'f' as int then
      if At(pat, p + 2) != '[' as int then [Malformed]
      else
        (match ClassEnd(pat, p + 2)
         case None => [Malformed]
         case Some(ep) => [Frontier(SetAt(pat, p + 2, ep - 1))] + Items(pat, ep))
    else if c == ESC && IsDigit(d) then [Backref(d - '1' as int)] + Items(pat, p + 2)
    else if c == '$' as int && d == 0 then [AtEnd]
    else CharItems(pat, p)
  }

  /** The items from a single character item with its repetition on. */
  function CharItems(pat: Text, p: nat): seq<Item>
    requires At(pat, p) != 0
    decreases if |pat| > p then |pat| - p else 0, 0
  {
    match ClassEnd(pat, p)
    case None => [Malformed]
    case Some(ep) =>
      var x, q := SingleAt(pat, p, ep), At(pat, ep);
      if q == '?' as int then [Chars(x, Optional)] + Items(pat, ep + 1)
      else if q == '*' as int then [Chars(x, Star)] + Items(pat, ep + 1)
      else if q == '+' as int then [Chars(x, Plus)] + Items(pat, ep + 1)
      else if q == '-' as int then [Chars(x, Minus)] + Items(pat, ep + 1)
      else [Chars(x, Once)] + Items(pat, ep)
  }
}
