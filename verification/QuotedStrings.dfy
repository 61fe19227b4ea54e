/** The "%q" format (lstrlib.c:696-723) and the reader of quoted strings (llex.c:127-135, 276-329): what is
    written can be read back. Strings are sequences of byte values. */
module QuotedStrings {

  type Text = seq<int>

  const QUOTE := 34
  const BACKSLASH := 92
  const NEWLINE := 10
  const RETURN := 13

  predicate IsNewline(c: int) { c == NEWLINE || c == RETURN }

  predicate IsDigit(c: int) { 48 <= c <= 57 }

  // ----- writing -----

  /** How one byte is written. */
  function Escaped(c: int): Text {
    if c == QUOTE || c == BACKSLASH || c == NEWLINE then [BACKSLASH, c]
    else if c == RETURN then [BACKSLASH, 'r' as int]
    else if c == 0 then [BACKSLASH, '0' as int, '0' as int, '0' as int]
    else [c]
  }

  function Body(s: Text): Text { if s == [] then [] else Escaped(s[0]) + Body(s[1..]) }

  function Quoted(s: Text): Text { [QUOTE] + Body(s) + [QUOTE] }

  /** addquoted (lstrlib.c:696-723) */
  method AddQuoted(b: Text, s: Text) returns (r: Text)
    ensures r == b + Quoted(s)
  {
    r := b + [QUOTE];
    var i := 0;
    assert s[0..] == s;
    while i < |s|
      invariant 0 <= i <= |s| && r + Body(s[i..]) == b + [QUOTE] + Body(s)
    {
      BodyStep(r, s, i);
      var c := s[i];
      if c == QUOTE || c == BACKSLASH || c == NEWLINE {
        r := r + [BACKSLASH, c];
      } else if c == RETURN {
        r := r + [BACKSLASH, 'r' as int];
      } else if c == 0 {
        r := r + [BACKSLASH, '0' as int, '0' as int, '0' as int];
      } else {
        r := r + [c];
      }
      i := i + 1;
    }
    assert s[i..] == [];
    assert r == b + [QUOTE] + Body(s);
    r := r + [QUOTE];
    Regroup(b, [QUOTE], Body(s), [QUOTE]);
  }

  lemma Regroup(a: Text, b: Text, c: Text, d: Text)
    ensures a + b + c + d == a + (b + c + d)
  {}

  lemma BodyStep(r: Text, s: Text, i: nat)
    requires i < |s|
    ensures r + Body(s[i..]) == (r + Escaped(s[i])) + Body(s[i + 1..])
  {
    assert s[i..][1..] == s[i + 1..];
  }

  // ----- reading -----

  /** A string with the rest of the input and the number of line breaks passed; or an error. */
  datatype Scanned = Done(s: Text, rest: Text, lines: nat) | Unfinished | TooLarge

  /** What an escape stands for, the input after it, and the line breaks in it. */
  datatype Escape = Escape(s: Text, rest: Text, lines: nat) | EscapeTooLarge

  /** Up to three digits (llex.c:304-313). */
  function Digits(t: Text, n: nat, c: int): (int, Text)
    decreases n
  {
    if n == 0 || t == [] || !IsDigit(t[0]) then (c, t) else Digits(t[1..], n - 1, 10 * c + (t[0] - 48))
  }

  /** After a line break, its second half, if there is one (llex.c:127-135). */
  function SkipNewline(t: Text): Text
    requires t != []
  {
    if |t| > 1 && IsNewline(t[1]) && t[1] != t[0] then t[2..] else t[1..]
  }

  /** The escape after a backslash (llex.c:290-320); at the end of the input nothing is read. */
  function ReadEscape(t: Text): Escape {
    if t == [] then Escape([], [], 0)
    else
      var c := t[0];
      if c == 'a' as int then Escape([7], t[1..], 0)
      else if c == 'b' as int then Escape([8], t[1..], 0)
      else if c == 'f' as int then Escape([12], t[1..], 0)
      else if c == 'n' as int then Escape([10], t[1..], 0)
      else if c == 'r' as int then Escape([13], t[1..], 0)
      else if c == 't' as int then Escape([9], t[1..], 0)
      else if c == 'v' as int then Escape([11], t[1..], 0)
      else if IsNewline(c) then Escape([NEWLINE], SkipNewline(t), 1)
      else if !IsDigit(c) then Escape([c], t[1..], 0)
      else var (v, r) := Digits(t, 3, 0); if v > 255 then EscapeTooLarge else Escape([v], r, 0)
  }

  lemma DigitsShorter(t: Text, n: nat, c: int)
    ensures |Digits(t, n, c).1| <= |t|
    decreases n
  {}

  lemma EscapeShorter(t: Text)
    ensures ReadEscape(t).Escape? ==> |ReadEscape(t).rest| <= |t|
  {
    if t != [] && IsDigit(t[0]) { DigitsShorter(t, 3, 0); }
  }

  /** What read_string makes of the input after the opening delimiter. */
  function Scan(t: Text, del: int, buf: Text, lines: nat): Scanned
    decreases |t|
  {
    if t == [] then Unfinished
    else if t[0] == del then Done(buf, t[1..], lines)
    else if IsNewline(t[0]) then Unfinished
    else if t[0] == BACKSLASH then
      EscapeShorter(t[1..]);
      match ReadEscape(t[1..])
      case EscapeTooLarge => TooLarge
      case Escape(s, r, n) => Scan(r, del, buf + s, lines + n)
    else Scan(t[1..], del, buf + [t[0]], lines)
  }

  /** The lexer: the input that is left, the token buffer, and the line number. */
  class Lexer {
    var rest: Text
    var buff: Text
    var linenumber: nat

    constructor (input: Text)
      ensures rest == input && linenumber == 1
    {
      rest, buff, linenumber := input, [], 1;
    }

    /** inclinenumber (llex.c:127-135) */
    method IncLineNumber()
      requires rest != [] && IsNewline(rest[0])
      modifies this
      ensures rest == SkipNewline(old(rest)) && buff == old(buff) && linenumber == old(linenumber) + 1
    {
      var first := rest[0];
      rest := rest[1..];
      if rest != [] && IsNewline(rest[0]) && rest[0] != first {
        rest := rest[1..];
      }
      linenumber := linenumber + 1;
    }

    /** `\\ddd` (llex.c:306-315) */
    method ReadDigits() returns (c: int)
      requires rest != [] && IsDigit(rest[0])
      modifies this`rest
      ensures (c, rest) == Digits(old(rest), 3, 0)
    {
      var i := 0;
      c := 0;
      while i < 3 && rest != [] && IsDigit(rest[0])
        invariant 0 <= i <= 3 && Digits(rest, 3 - i, c) == Digits(old(rest), 3, 0)
      {
        c := 10 * c + (rest[0] - 48);
        rest := rest[1..];
        i := i + 1;
      }
    }

    /** The escape after a backslash (llex.c:290-320). */
    method Unescape() returns (ok: bool)
      modifies this
      ensures var e := ReadEscape(old(rest));
        ok == e.Escape? && (ok ==> rest == e.rest && buff == old(buff) + e.s && linenumber == old(linenumber) + e.lines)
    {
      if rest == [] { return true; }
      var c := rest[0];
      if IsNewline(c) {
        buff := buff + [NEWLINE];
        IncLineNumber();
        return true;
      }
      if IsDigit(c) {
        var v := ReadDigits();
        if v > 255 { return false; }
        buff := buff + [v];
        return true;
      }
      if c == 'a' as int { c := 7; }
      else if c == 'b' as int { c := 8; }
      else if c == 'f' as int { c := 12; }
      else if c == 'n' as int { c := 10; }
      else if c == 'r' as int { c := 13; }
      else if c == 't' as int { c := 9; }
      else if c == 'v' as int { c := 11; }
      buff := buff + [c];
      rest := rest[1..];
      return true;
    }

    /** read_string (llex.c:276-329), on input that starts with the delimiter */
    method ReadString(del: int) returns (r: Scanned)
      requires rest != [] && rest[0] == del
      modifies this
      ensures r == Scan(old(rest)[1..], del, [], 0)
      ensures r.Done? ==> rest == r.rest && linenumber == old(linenumber) + r.lines
    {
      var l0 := linenumber;
      buff := [];
      rest := rest[1..];
      ghost var t := rest;
      while rest != [] && rest[0] != del
        invariant linenumber >= l0 && Scan(rest, del, buff, linenumber - l0) == Scan(t, del, [], 0)
        decreases |rest|
      {
        if IsNewline(rest[0]) { return Unfinished; }
        if rest[0] == BACKSLASH {
          EscapeShorter(rest[1..]);
          rest := rest[1..];
          var ok := Unescape();
          if !ok { return TooLarge; }
        } else {
          buff := buff + [rest[0]];
          rest := rest[1..];
        }
      }
      if rest == [] { return Unfinished; }
      rest := rest[1..];
      return Done(buff, rest, linenumber - l0);
    }
  }

  // ----- what is written and read, byte by byte -----

  /** A quoted string: quotes around the bytes, of which quote, backslash and line feed get a backslash, carriage
      return is `\r` and zero is `\000`. */
  lemma QuoteMeans(s: Text, t: Text, c: int)
    ensures Quoted(s) == [34] + Body(s) + [34]
    ensures Body([]) == [] && Body(s + t) == Body(s) + Body(t)
    ensures Body([c]) ==
      if c in {10, 34, 92} then [92, c] else if c == 13 then [92, 114] else if c == 0 then [92, 48, 48, 48] else [c]
  {
    assert [c][1..] == [];
    BodyJoins(s, t);
  }

  lemma {:induction false} BodyJoins(s: Text, t: Text)
    ensures Body(s + t) == Body(s) + Body(t)
    decreases |s|
  {
    hide Escaped;
    if s == [] {
      assert s + t == t;
    } else {
      BodyJoins(s[1..], t);
      assert (s + t)[0] == s[0] && (s + t)[1..] == s[1..] + t;
    }
  }

  /** The bytes outside of escapes: the delimiter ends the string, line breaks and the end of the input are errors,
      any other byte but the backslash stands for itself. */
  lemma PlainMeans(c: int, more: Text, del: int, buf: Text, lines: nat)
    ensures Scan([], del, buf, lines) == Unfinished
    ensures c == del ==> Scan([c] + more, del, buf, lines) == Done(buf, more, lines)
    ensures c != del && c in {10, 13} ==> Scan([c] + more, del, buf, lines) == Unfinished
    ensures c !in {del, 10, 13, 92} ==> Scan([c] + more, del, buf, lines) == Scan(more, del, buf + [c], lines)
  {
    assert ([c] + more)[1..] == more;
  }

  /** What a letter after a backslash stands for, as a byte. */
  const ESCAPES: map<char, int> := map['a' := 7, 'b' := 8, 't' := 9, 'n' := 10, 'v' := 11, 'f' := 12, 'r' := 13]

  /** A backslash before a byte that is neither a digit nor a line break: a control character for the seven letters,
      the byte itself otherwise. */
  lemma LetterMeans(c: int, more: Text, del: int, buf: Text, lines: nat)
    requires del != 92 && c !in {10, 13} && !(48 <= c <= 57)
    ensures forall l :: l in ESCAPES && c == l as int ==>
      Scan([92, c] + more, del, buf, lines) == Scan(more, del, buf + [ESCAPES[l]], lines)
    ensures (forall l :: l in ESCAPES ==> c != l as int) ==>
      Scan([92, c] + more, del, buf, lines) == Scan(more, del, buf + [c], lines)
  {
    AfterBackslash([c] + more, del, buf, lines);
    assert ([c] + more)[1..] == more && [92, c] + more == [92] + ([c] + more);
    assert 'a' in ESCAPES && 'b' in ESCAPES && 't' in ESCAPES && 'n' in ESCAPES && 'v' in ESCAPES && 'f' in ESCAPES &&
      'r' in ESCAPES;
    hide Scan;
  }

  /** A backslash before a line break: a line feed; the two bytes of a pair are one line break. */
  lemma LineBreakMeans(c: int, more: Text, del: int, buf: Text, lines: nat)
    requires del != 92 && c in {10, 13}
    ensures var next := if more != [] && more[0] in {10, 13} && more[0] != c then more[1..] else more;
      Scan([92, c] + more, del, buf, lines) == Scan(next, del, buf + [10], lines + 1)
  {
    AfterBackslash([c] + more, del, buf, lines);
    assert ([c] + more)[1..] == more && [92, c] + more == [92] + ([c] + more);
    if more != [] { assert ([c] + more)[2..] == more[1..]; }
    hide Scan;
  }

  /** The number that up to three decimal digits stand for. */
  function Decimal(ds: Text): int
    requires 1 <= |ds| <= 3
  {
    if |ds| == 1 then ds[0] - 48
    else if |ds| == 2 then 10 * (ds[0] - 48) + ds[1] - 48
    else 100 * (ds[0] - 48) + 10 * (ds[1] - 48) + ds[2] - 48
  }

  /** A backslash before one to three digits, as many as there are: the byte of that number, an error beyond 255. */
  lemma DecimalMeans(ds: Text, more: Text, del: int, buf: Text, lines: nat)
    requires del != 92 && 1 <= |ds| <= 3 && forall i :: 0 <= i < |ds| ==> 48 <= ds[i] <= 57
    requires |ds| < 3 && more != [] ==> !(48 <= more[0] <= 57)
    ensures Scan([92] + ds + more, del, buf, lines) ==
      if Decimal(ds) > 255 then TooLarge else Scan(more, del, buf + [Decimal(ds)], lines)
  {
    AfterBackslash(ds + more, del, buf, lines);
    assert [92] + ds + more == [92] + (ds + more);
    DigitsMean(ds, more, 3, 0);
    assert (ds + more)[0] == ds[0];
    hide Scan, Digits;
  }

  lemma {:induction false} DigitsMean(ds: Text, more: Text, n: nat, c: int)
    requires |ds| <= n && forall i :: 0 <= i < |ds| ==> 48 <= ds[i] <= 57
    requires |ds| < n && more != [] ==> !(48 <= more[0] <= 57)
    ensures Digits(ds + more, n, c).1 == more
    ensures |ds| == 0 ==> Digits(ds + more, n, c).0 == c
    ensures |ds| == 1 ==> Digits(ds + more, n, c).0 == 10 * c + ds[0] - 48
    ensures |ds| == 2 ==> Digits(ds + more, n, c).0 == 100 * c + 10 * (ds[0] - 48) + ds[1] - 48
    ensures |ds| == 3 ==> Digits(ds + more, n, c).0 == 1000 * c + 100 * (ds[0] - 48) + 10 * (ds[1] - 48) + ds[2] - 48
    decreases |ds|
  {
    if ds == [] {
      assert ds + more == more;
    } else {
      assert (ds + more)[1..] == ds[1..] + more;
      DigitsMean(ds[1..], more, n - 1, 10 * c + (ds[0] - 48));
    }
  }

  lemma AfterBackslash(t: Text, del: int, buf: Text, lines: nat)
    requires del != 92
    ensures Scan([92] + t, del, buf, lines) ==
      match ReadEscape(t)
      case EscapeTooLarge => TooLarge
      case Escape(s, r, n) => if |r| <= |t| then Scan(r, del, buf + s, lines + n) else Unfinished
  {
    assert ([92] + t)[1..] == t;
    EscapeShorter(t);
    hide ReadEscape;
  }

  // ----- the round trip -----

  function Newlines(s: Text): nat { if s == [] then 0 else (if s[0] == NEWLINE then 1 else 0) + Newlines(s[1..]) }

  /** The quoted text never has a bare line break, so a `\\` with a line break skips just one byte. */
  lemma BodyStarts(s: Text)
    ensures var t := Body(s) + [QUOTE]; t != [] && !IsNewline(t[0])
  {}

  lemma {:induction false} ScanBody(s: Text, buf: Text, lines: nat, rest: Text)
    ensures Scan(Body(s) + [QUOTE] + rest, QUOTE, buf, lines) == Done(buf + s, rest, lines + Newlines(s))
    decreases |s|
  {
    hide *;
    if s == [] {
      ScanEnd(buf, lines, rest);
    } else {
      var c, more := s[0], Body(s[1..]) + [QUOTE] + rest;
      BodyNext(s, buf, rest);
      ScanByte(c, more, buf, lines);
      ScanBody(s[1..], buf + [c], lines + (if c == NEWLINE then 1 else 0), rest);
      NewlinesNext(s);
    }
  }

  lemma ScanEnd(buf: Text, lines: nat, rest: Text)
    ensures Scan(Body([]) + [QUOTE] + rest, QUOTE, buf, lines) == Done(buf + [], rest, lines + Newlines([]))
  {
    assert Body([]) + [QUOTE] + rest == [QUOTE] + rest;
    assert buf + [] == buf;
  }

  lemma BodyNext(s: Text, buf: Text, rest: Text)
    requires s != []
    ensures var more := Body(s[1..]) + [QUOTE] + rest;
      Body(s) + [QUOTE] + rest == Escaped(s[0]) + more && more != [] && !IsNewline(more[0])
    ensures buf + [s[0]] + s[1..] == buf + s
  {
    BodyStarts(s[1..]);
    assert Body(s) == Escaped(s[0]) + Body(s[1..]);
    var t := Body(s[1..]) + [QUOTE];
    hide Body, Escaped, IsNewline;
    assert (t + rest)[0] == t[0];
  }

  lemma NewlinesNext(s: Text)
    requires s != []
    ensures Newlines(s) == (if s[0] == NEWLINE then 1 else 0) + Newlines(s[1..])
  {}

  /** One written byte is read as that byte. */
  lemma ScanByte(c: int, more: Text, buf: Text, lines: nat)
    requires more != [] && !IsNewline(more[0])
    ensures Scan(Escaped(c) + more, QUOTE, buf, lines)
      == Scan(more, QUOTE, buf + [c], lines + if c == NEWLINE then 1 else 0)
  {
    var t := Escaped(c) + more;
    if c == QUOTE || c == BACKSLASH || c == NEWLINE {
      assert t[1..] == [c] + more;
      assert ([c] + more)[1..] == more;
    } else if c == RETURN {
      assert t[1..] == ['r' as int] + more;
      assert (['r' as int] + more)[1..] == more;
    } else if c == 0 {
      ScanZero(more, buf, lines);
    } else {
      assert t[1..] == more;
    }
  }

  lemma ThreeZeros(more: Text)
    ensures var z := '0' as int; Digits([z, z, z] + more, 3, 0) == (0, more)
  {
    var z := '0' as int;
    assert ([z, z, z] + more)[1..] == [z, z] + more && ([z, z] + more)[1..] == [z] + more && ([z] + more)[1..] == more;
    assert Digits([z] + more, 1, 0) == Digits(more, 0, 0) == (0, more);
    assert Digits([z, z] + more, 2, 0) == Digits([z] + more, 1, 0);
    assert Digits([z, z, z] + more, 3, 0) == Digits([z, z] + more, 2, 0);
  }

  lemma ScanZero(more: Text, buf: Text, lines: nat)
    ensures Scan(Escaped(0) + more, QUOTE, buf, lines) == Scan(more, QUOTE, buf + [0], lines)
  {
    var z := '0' as int;
    assert (Escaped(0) + more)[1..] == [z, z, z] + more;
    ThreeZeros(more);
    hide Digits;
  }

  /** Reading what "%q" wrote gives the string back and stops just after the closing quote. */
  method QuoteAndRead(s: Text, after: Text) returns (r: Scanned)
    ensures r == Done(s, after, Newlines(s))
  {
    var text := AddQuoted([], s);
    assert text + after == [QUOTE] + (Body(s) + [QUOTE] + after);
    var ls := new Lexer(text + after);
    assert (text + after)[1..] == Body(s) + [QUOTE] + after;
    r := ls.ReadString(QUOTE);
    ScanBody(s, [], 0, after);
    assert [] + s == s;
  }
}
