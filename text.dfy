/** The string functions of Go's standard library that the compute layer calls:
    `strings.Split` on a one-character separator, `strings.ToUpper`, and the
    `%q` and `%v` verbs of `fmt` applied to strings.

    A Go string is a sequence of bytes; here it is a `string` with one `char`
    per byte. */
module Text {
  import opened Errors

  const Space: char := ' '

  // ---------------------------------------------------------------------
  // strings.ToUpper, on ASCII letters
  // ---------------------------------------------------------------------

  function UpperChar(c: char): char
  {
    if 'a' <= c <= 'z' then (c as int - 32) as char else c
  }

  /** `strings.ToUpper`; only ASCII letters change case. */
  function ToUpper(s: string): (u: string)
    ensures |u| == |s|
  {
    seq(|s|, i requires 0 <= i < |s| => UpperChar(s[i]))
  }

  /** Upper-casing works byte by byte: each lower-case ASCII letter becomes
      its capital, and every other byte is kept. */
  lemma ToUpperBytes(s: string)
    ensures forall i :: 0 <= i < |s| ==> ToUpper(s)[i] == UpperChar(s[i])
    ensures forall i :: 0 <= i < |s| ==> ('a' <= s[i] <= 'z' <==> ToUpper(s)[i] != s[i])
  {
  }

  // ---------------------------------------------------------------------
  // strings.Split with a one-character separator
  // ---------------------------------------------------------------------

  /** `strings.Split(s, string(sep))`: the pieces of `s` between occurrences
      of `sep`. The input without separator, the empty input included, is a
      single piece. */
  function Split(s: string, sep: char): (parts: seq<string>)
    ensures |parts| >= 1
    decreases |s|
  {
    if s == [] then [[]]
    else
      var rest := Split(s[1..], sep);
      if s[0] == sep then [[]] + rest
      else [[s[0]] + rest[0]] + rest[1..]
  }

  /** `strings.Join(parts, string(sep))`, the inverse of `Split`. */
  function Join(parts: seq<string>, sep: char): string
    decreases |parts|
  {
    if |parts| == 0 then []
    else if |parts| == 1 then parts[0]
    else parts[0] + [sep] + Join(parts[1..], sep)
  }

  /** No piece contains the separator. */
  lemma {:induction false} SplitPiecesHaveNoSeparator(s: string, sep: char)
    ensures forall i :: 0 <= i < |Split(s, sep)| ==> sep !in Split(s, sep)[i]
    decreases |s|
  {
    if s != [] {
      SplitPiecesHaveNoSeparator(s[1..], sep);
    }
  }

  /** Joining the pieces gives the input back. */
  lemma {:induction false} JoinSplit(s: string, sep: char)
    ensures Join(Split(s, sep), sep) == s
    decreases |s|
  {
    if s != [] {
      var rest := Split(s[1..], sep);
      JoinSplit(s[1..], sep);
      if s[0] == sep {
        assert Split(s, sep) == [[]] + rest;
        assert s == [] + [sep] + s[1..];
      } else if |rest| == 1 {
        assert Split(s, sep) == [[s[0]] + rest[0]];
        assert s == [s[0]] + s[1..];
      } else {
        var parts := Split(s, sep);
        assert parts[1..] == rest[1..];
        assert Join(rest, sep) == rest[0] + [sep] + Join(rest[1..], sep);
        assert s == [s[0]] + s[1..];
      }
    }
  }

  /** An input without separator is its own single piece. */
  lemma {:induction false} SplitWithoutSeparator(s: string, sep: char)
    requires sep !in s
    ensures Split(s, sep) == [s]
    decreases |s|
  {
    if s != [] {
      assert sep !in s[1..];
      SplitWithoutSeparator(s[1..], sep);
      assert s == [s[0]] + s[1..];
    }
  }

  /** One step of `Split`: the first character either ends the first piece
      or joins it. */
  lemma SplitCons(c: char, t: string, sep: char)
    ensures Split([c] + t, sep) ==
      if c == sep then [[]] + Split(t, sep) else [[c] + Split(t, sep)[0]] + Split(t, sep)[1..]
  {
    assert ([c] + t)[0] == c && ([c] + t)[1..] == t;
  }

  /** Adding a character to the first piece commutes with appending pieces. */
  lemma ExtendFirstPiece(c: char, ra: seq<string>, rb: seq<string>)
    requires |ra| >= 1
    ensures [[c] + (ra + rb)[0]] + (ra + rb)[1..] == ([[c] + ra[0]] + ra[1..]) + rb
  {
    assert (ra + rb)[0] == ra[0];
    assert (ra + rb)[1..] == ra[1..] + rb;
  }

  /** The inductive step of SplitAtSeparator: one more character in front,
      which does not end the first piece. */
  lemma SplitAtSeparatorStep(c: char, t: string, b: string, sep: char)
    requires c != sep
    requires Split(t + [sep] + b, sep) == Split(t, sep) + Split(b, sep)
    ensures Split([c] + (t + [sep] + b), sep) == Split([c] + t, sep) + Split(b, sep)
  {
    SplitCons(c, t + [sep] + b, sep);
    SplitCons(c, t, sep);
    ExtendFirstPiece(c, Split(t, sep), Split(b, sep));
  }

  /** Splitting at one occurrence of the separator splits the pieces there. */
  lemma {:induction false} SplitAtSeparator(a: string, b: string, sep: char)
    ensures Split(a + [sep] + b, sep) == Split(a, sep) + Split(b, sep)
    decreases |a|
  {
    if a == [] {
      assert a + [sep] + b == [sep] + b;
      SplitCons(sep, b, sep);
    } else {
      var c, t := a[0], a[1..];
      SplitAtSeparator(t, b, sep);
      if c == sep {
        SplitCons(c, t + [sep] + b, sep);
        SplitCons(c, t, sep);
      } else {
        SplitAtSeparatorStep(c, t, b, sep);
      }
      assert a == [c] + t;
      assert a + [sep] + b == [c] + (t + [sep] + b);
    }
  }

  /** Two separators in a row leave an empty piece between the two sides. */
  lemma SplitAtDoubledSeparator(a: string, b: string, sep: char)
    ensures Split(a + [sep, sep] + b, sep) == Split(a, sep) + ([[]] + Split(b, sep))
  {
    assert a + [sep, sep] + b == a + [sep] + ([sep] + b);
    SplitAtSeparator(a, [sep] + b, sep);
    SplitCons(sep, b, sep);
  }

  /** There are at least two pieces exactly when the separator occurs. */
  lemma SplitHasTwoPiecesIff(s: string, sep: char)
    ensures |Split(s, sep)| >= 2 <==> sep in s
  {
    if sep in s {
      var k :| 0 <= k < |s| && s[k] == sep;
      assert s == s[..k] + [sep] + s[k + 1..];
      SplitAtSeparator(s[..k], s[k + 1..], sep);
    } else {
      SplitWithoutSeparator(s, sep);
    }
  }

  /** Splitting a join of separator-free pieces gives the pieces back. */
  lemma {:induction false} SplitJoin(parts: seq<string>, sep: char)
    requires |parts| >= 1
    requires forall i :: 0 <= i < |parts| ==> sep !in parts[i]
    ensures Split(Join(parts, sep), sep) == parts
    decreases |parts|
  {
    if |parts| == 1 {
      SplitWithoutSeparator(parts[0], sep);
    } else {
      SplitJoin(parts[1..], sep);
      SplitWithoutSeparator(parts[0], sep);
      SplitAtSeparator(parts[0], Join(parts[1..], sep), sep);
      assert parts == [parts[0]] + parts[1..];
    }
  }

  // ---------------------------------------------------------------------
  // fmt's %v and %q on strings
  // ---------------------------------------------------------------------

  /** `fmt.Sprintf("%v", v)` for a string value: the string itself. */
  function FormatV(v: string): string
  {
    v
  }

  const HexDigits: string := "0123456789abcdef"

  /** How `strconv.Quote` writes one character inside the quotes. */
  function EscapeChar(c: char): string
  {
    if c == '"' || c == '\\' then ['\\', c]
    else if ' ' <= c <= '~' || c as int >= 0x80 then [c]
    else if c as int == 7 then "\\a"
    else if c as int == 8 then "\\b"
    else if c as int == 12 then "\\f"
    else if c == '\n' then "\\n"
    else if c == '\r' then "\\r"
    else if c == '\t' then "\\t"
    else if c as int == 11 then "\\v"
    else ['\\', 'x', HexDigits[c as int / 16], HexDigits[c as int % 16]]
  }

  function Escape(s: string): string
    decreases |s|
  {
    if s == [] then [] else EscapeChar(s[0]) + Escape(s[1..])
  }

  /** `fmt.Sprintf("%q", s)`: `s` in double quotes with Go escapes. */
  function Quote(s: string): string
  {
    ['"'] + Escape(s) + ['"']
  }

  // The inverse of Quote, stating that %q loses nothing.

  function HexValue(c: char): int
  {
    if '0' <= c <= '9' then c as int - '0' as int
    else if 'a' <= c <= 'f' then c as int - 'a' as int + 10
    else -1
  }

  /** The character a one-letter escape `\e` stands for. */
  function SimpleUnescape(e: char): Option<char>
  {
    if e == '"' || e == '\\' then Some(e)
    else if e == 'a' then Some(7 as char)
    else if e == 'b' then Some(8 as char)
    else if e == 'f' then Some(12 as char)
    else if e == 'n' then Some('\n')
    else if e == 'r' then Some('\r')
    else if e == 't' then Some('\t')
    else if e == 'v' then Some(11 as char)
    else None
  }

  function Prepend(c: char, r: Option<string>): Option<string>
  {
    if r.Some? then Some([c] + r.value) else None
  }

  function Unescape(s: string): Option<string>
    decreases |s|
  {
    if s == [] then Some([])
    else if s[0] == '"' then None
    else if s[0] != '\\' then Prepend(s[0], Unescape(s[1..]))
    else if |s| >= 4 && s[1] == 'x' && HexValue(s[2]) >= 0 && HexValue(s[3]) >= 0 then
      Prepend((HexValue(s[2]) * 16 + HexValue(s[3])) as char, Unescape(s[4..]))
    else if |s| >= 2 && SimpleUnescape(s[1]).Some? then
      Prepend(SimpleUnescape(s[1]).value, Unescape(s[2..]))
    else None
  }

  function Unquote(q: string): Option<string>
  {
    if |q| >= 2 && q[0] == '"' && q[|q| - 1] == '"' then Unescape(q[1..|q| - 1]) else None
  }

  lemma HexDigitValue(i: int)
    requires 0 <= i < 16
    ensures HexValue(HexDigits[i]) == i
  {
    if i < 10 {
      assert HexDigits[i] as int == '0' as int + i;
    } else {
      assert HexDigits[i] as int == 'a' as int + i - 10;
    }
  }

  lemma UnescapeEscapeChar(c: char, t: string)
    ensures Unescape(EscapeChar(c) + t) == Prepend(c, Unescape(t))
  {
    var e := EscapeChar(c);
    var s := e + t;
    if c == '"' || c == '\\' {
      assert s[2..] == t;
    } else if ' ' <= c <= '~' || c as int >= 0x80 {
      assert s[1..] == t;
    } else if |e| == 2 {
      assert s[2..] == t;
    } else {
      HexDigitValue(c as int / 16);
      HexDigitValue(c as int % 16);
      assert s[4..] == t;
    }
  }

  lemma {:induction false} UnescapeEscape(s: string)
    ensures Unescape(Escape(s)) == Some(s)
    decreases |s|
  {
    if s != [] {
      UnescapeEscape(s[1..]);
      UnescapeEscapeChar(s[0], Escape(s[1..]));
      assert s == [s[0]] + s[1..];
    }
  }

  /** `%q` is injective: the quoted text determines the string. */
  lemma UnquoteQuote(s: string)
    ensures Unquote(Quote(s)) == Some(s)
  {
    var q := Quote(s);
    assert q[1..|q| - 1] == Escape(s);
    UnescapeEscape(s);
  }
}
