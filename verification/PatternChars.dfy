/** What a single character item of a pattern accepts, read from the bytes of the pattern string
    (Lua 5.1 Reference Manual, section 5.4.1). */
module PatternChars {
  import opened PatternSyntax

  /** The byte at `i`, or the terminator. */
  function Byte(t: Text, i: nat): int { if i < |t| then t[i] else 0 }

  /** The small letters that stand for a class after `%`. */
  const CLASS_LETTERS := {97, 99, 100, 108, 112, 115, 117, 119, 120, 122}

  /** The bytes of each class. */
  predicate InClass(letter: int, c: int) {
    match letter
    case 97 => 65 <= c <= 90 || 97 <= c <= 122                                      // %a
    case 99 => 0 <= c <= 31 || c == 127                                             // %c
    case 100 => 48 <= c <= 57                                                       // %d
    case 108 => 97 <= c <= 122                                                      // %l
    case 112 => 33 <= c <= 47 || 58 <= c <= 64 || 91 <= c <= 96 || 123 <= c <= 126  // %p
    case 115 => 9 <= c <= 13 || c == 32                                             // %s
    case 117 => 65 <= c <= 90                                                       // %u
    case 119 => 48 <= c <= 57 || 65 <= c <= 90 || 97 <= c <= 122                    // %w
    case 120 => 48 <= c <= 57 || 65 <= c <= 70 || 97 <= c <= 102                    // %x
    case 122 => c == 0                                                              // %z
    case _ => false
  }

  /** `%` before `x` accepts the byte `c`: a small letter stands for its class, a capital one for the complement,
      and any other character for itself. */
  predicate EscapeAccepts(x: int, c: int) {
    if x in CLASS_LETTERS then InClass(x, c) else if x + 32 in CLASS_LETTERS then !InClass(x + 32, c) else c == x
  }

  lemma ClassMeans(x: int, c: int)
    ensures Accepts(Escaped(x), c) <==> EscapeAccepts(x, c)
  {
    EscapeMeans(x, c);
  }

  lemma EscapeMeans(x: int, c: int)
    ensures MatchClass(c, x) <==> EscapeAccepts(x, c)
  {}

  /** How the classes lie to each other: letters are small or capital, `%w` is letters and digits, `%x` lies in it,
      and control characters, spaces, punctuation and `%w` are apart but for the spaces that are control
      characters. */
  lemma ClassLaws(c: int)
    ensures Accepts(Escaped('a' as int), c) <==> Accepts(Escaped('l' as int), c) || Accepts(Escaped('u' as int), c)
    ensures Accepts(Escaped('w' as int), c) <==> Accepts(Escaped('a' as int), c) || Accepts(Escaped('d' as int), c)
    ensures Accepts(Escaped('x' as int), c) ==> Accepts(Escaped('w' as int), c)
    ensures Accepts(Escaped('d' as int), c) ==> Accepts(Escaped('x' as int), c) && !Accepts(Escaped('a' as int), c)
    ensures !(Accepts(Escaped('p' as int), c) && Accepts(Escaped('w' as int), c))
    ensures Accepts(Escaped('z' as int), c) ==> Accepts(Escaped('c' as int), c)
    ensures Accepts(Escaped('s' as int), c) && !Accepts(Escaped('c' as int), c) ==> c == ' ' as int
    ensures (&& 0 <= c < 128 && !Accepts(Escaped('c' as int), c) && !Accepts(Escaped('p' as int), c)
             && !Accepts(Escaped('w' as int), c)) ==> c == ' ' as int
  {
    ClassMeans('a' as int, c); ClassMeans('c' as int, c); ClassMeans('d' as int, c); ClassMeans('l' as int, c);
    ClassMeans('p' as int, c); ClassMeans('s' as int, c); ClassMeans('u' as int, c); ClassMeans('w' as int, c);
    ClassMeans('x' as int, c); ClassMeans('z' as int, c);
  }

  /** A capital letter takes the complement of its small letter. */
  lemma Complement(x: int, c: int)
    requires x in CLASS_LETTERS
    ensures Accepts(Escaped(x - 32), c) <==> !Accepts(Escaped(x), c)
  {
    ClassMeans(x, c);
    ClassMeans(x - 32, c);
  }

  /** Some element of the set between `q` and `ec` accepts `c`: an escape, a range or a byte. */
  predicate SetAccepts(pat: Text, q: nat, ec: nat, c: int)
    decreases ec - q
  {
    q < ec &&
    if Byte(pat, q) == 37 then EscapeAccepts(Byte(pat, q + 1), c) || SetAccepts(pat, q + 2, ec, c)
    else if Byte(pat, q + 1) == 45 && q + 2 < ec then
      Byte(pat, q) <= c <= Byte(pat, q + 2) || SetAccepts(pat, q + 3, ec, c)
    else c == Byte(pat, q) || SetAccepts(pat, q + 1, ec, c)
  }

  /** The set from the bracket at `p` to the one at `ec` accepts `c`. */
  predicate BracketAccepts(pat: Text, p: nat, ec: nat, c: int) {
    if Byte(pat, p + 1) == 94 then !SetAccepts(pat, p + 2, ec, c) else SetAccepts(pat, p + 1, ec, c)
  }

  /** The item from `p` up to `ep` accepts `c`. */
  predicate ItemAccepts(pat: Text, p: nat, ep: nat, c: int)
    requires ep > 0
  {
    if Byte(pat, p) == 46 then true
    else if Byte(pat, p) == 37 then EscapeAccepts(Byte(pat, p + 1), c)
    else if Byte(pat, p) == 91 then BracketAccepts(pat, p, ep - 1, c)
    else c == Byte(pat, p)
  }

  lemma InSetCons(c: int, x: SetItem, items: seq<SetItem>)
    ensures InSet(c, [x] + items) <==> InItem(c, x) || InSet(c, items)
  {
    if InSet(c, items) {
      var i :| 0 <= i < |items| && InItem(c, items[i]);
      assert ([x] + items)[i + 1] == items[i];
    }
    if InItem(c, x) { assert ([x] + items)[0] == x; }
  }

  lemma {:induction false} SetMeans(pat: Text, q: nat, ec: nat, c: int)
    ensures InSet(c, SetItems(pat, q, ec)) <==> SetAccepts(pat, q, ec, c)
    decreases ec - q
  {
    if q < ec {
      EscapeMeans(Byte(pat, q + 1), c);
      hide MatchClass, EscapeAccepts;
      if Byte(pat, q) == 37 {
        SetMeans(pat, q + 2, ec, c);
        InSetCons(c, Class(Byte(pat, q + 1)), SetItems(pat, q + 2, ec));
      } else if Byte(pat, q + 1) == 45 && q + 2 < ec {
        SetMeans(pat, q + 3, ec, c);
        InSetCons(c, Range(Byte(pat, q), Byte(pat, q + 2)), SetItems(pat, q + 3, ec));
      } else {
        SetMeans(pat, q + 1, ec, c);
        InSetCons(c, Range(Byte(pat, q), Byte(pat, q)), SetItems(pat, q + 1, ec));
      }
    }
  }

  lemma BracketMeans(pat: Text, p: nat, ec: nat, c: int)
    ensures Accepts(SetAt(pat, p, ec), c) <==> BracketAccepts(pat, p, ec, c)
  {
    SetMeans(pat, if Byte(pat, p + 1) == 94 then p + 2 else p + 1, ec, c);
    hide InSet, SetItems, SetAccepts;
  }

  lemma ItemMeans(pat: Text, p: nat, ep: nat, c: int)
    requires ep > 0
    ensures Accepts(SingleAt(pat, p, ep), c) <==> ItemAccepts(pat, p, ep, c)
  {
    EscapeMeans(Byte(pat, p + 1), c);
    BracketMeans(pat, p, ep - 1, c);
    hide MatchClass, EscapeAccepts, BracketAccepts;
  }

  /** The position after the bracket that closes a set whose contents start at `q`: the first bracket at which a
      character starts, but for the first one; `%` and the character after it are one. */
  function SetEnd(pat: Text, q: nat): (r: Option<nat>)
    ensures r.Some? ==> q < r.value <= |pat|
    decreases if q < |pat| then |pat| - q else 0
  {
    if Byte(pat, q) == 0 then None
    else
      var next := if Byte(pat, q) == 37 && Byte(pat, q + 1) != 0 then q + 2 else q + 1;
      if Byte(pat, next) == 93 then Some(next + 1) else SetEnd(pat, next)
  }

  /** The position after the single character item at `p`. */
  function ItemEnd(pat: Text, p: nat): (r: Option<nat>)
    requires Byte(pat, p) != 0
    ensures r.Some? ==> p < r.value <= |pat|
  {
    if Byte(pat, p) == 37 then if Byte(pat, p + 1) == 0 then None else Some(p + 2)
    else if Byte(pat, p) == 91 then SetEnd(pat, if Byte(pat, p + 1) == 94 then p + 2 else p + 1)
    else Some(p + 1)
  }

  lemma {:induction false} SetEndMeans(pat: Text, q: nat)
    ensures BracketEnd(pat, q) == SetEnd(pat, q)
    decreases if q < |pat| then |pat| - q else 0
  {
    if Byte(pat, q) != 0 {
      var next := if Byte(pat, q) == 37 && Byte(pat, q + 1) != 0 then q + 2 else q + 1;
      if Byte(pat, next) != 93 { SetEndMeans(pat, next); }
    }
  }

  lemma ItemEndMeans(pat: Text, p: nat)
    requires Byte(pat, p) != 0
    ensures At(pat, p) != 0 && ClassEnd(pat, p) == ItemEnd(pat, p)
  {
    SetEndMeans(pat, if Byte(pat, p + 1) == 94 then p + 2 else p + 1);
  }
}
