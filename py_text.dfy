/** Python's `repr` of a string, which is what `str(KeyError(m))` prints
    for a KeyError with one argument `m`, and a reader of the literal it
    writes. */
module PyText {
  import opened Results
  import opened Hex

  /** `str.isprintable` on one character. Printability outside Latin-1
      comes from the Unicode database; every character above U+00FF is
      taken as printable here. */
  predicate Printable(c: char)
  {
    (0x20 <= c as int < 0x7F) || (c as int > 0xA0 && c as int != 0xAD)
  }

  /** The quote `repr` puts around `s`: a double quote when `s` holds a
      single quote and no double quote, a single quote otherwise. */
  function Quote(s: string): (q: char)
    ensures q == '"' <==> '\'' in s && '"' !in s
    ensures q == '\'' || q == '"'
  {
    if '\'' in s && '"' !in s then '"' else '\''
  }

  /** How `repr` writes one character between quotes `q`: the quote and
      the backslash escaped, `\t`, `\n` and `\r` by name, any other
      character that is not printable as `\xhh`, and the rest as itself. */
  function ReprChar(c: char, q: char): (r: string)
    ensures r == [c] <==> Printable(c) && c != q && c != '\\'
    ensures r != [c] ==> |r| >= 2 && r[0] == '\\'
  {
    if c == q || c == '\\' then ['\\', c]
    else if c == '\t' then ['\\', 't']
    else if c == '\n' then ['\\', 'n']
    else if c == '\r' then ['\\', 'r']
    else if Printable(c) then [c]
    else ['\\', 'x', HexDigit(c as int / 16), HexDigit(c as int % 16)]
  }

  /** The characters of `s` as `repr` writes them between quotes `q`. */
  function ReprBody(s: string, q: char): (r: string)
    ensures |r| >= |s|
  {
    if s == [] then [] else ReprChar(s[0], q) + ReprBody(s[1..], q)
  }

  /** `repr(s)` for a `str`. */
  function Repr(s: string): (r: string)
    ensures |r| >= |s| + 2
    ensures r[0] == Quote(s) && r[|r| - 1] == Quote(s)
  {
    [Quote(s)] + ReprBody(s, Quote(s)) + [Quote(s)]
  }

  /** Reads the escape after a backslash, among those `repr` writes: the
      character it stands for and what follows it. */
  function ReadEscape(t: string): (r: Option<(char, string)>)
    ensures r.Some? ==> |r.value.1| < |t|
  {
    if t == [] then None
    else if t[0] == '\\' || t[0] == '\'' || t[0] == '"' then Some((t[0], t[1..]))
    else if t[0] == 't' then Some(('\t', t[1..]))
    else if t[0] == 'n' then Some(('\n', t[1..]))
    else if t[0] == 'r' then Some(('\r', t[1..]))
    else if t[0] == 'x' && |t| >= 3 then
      match (HexValue(t[1]), HexValue(t[2]))
      case (Some(hi), Some(lo)) => Some(((hi * 16 + lo) as char, t[3..]))
      case _ => None
    else None
  }

  /** Reads the body of a literal quoted with `q` up to its closing quote:
      the text and what follows the quote. */
  function ReadBody(t: string, q: char): (r: Option<(string, string)>)
    ensures r.Some? ==> |r.value.1| < |t|
    decreases |t|
  {
    if t == [] then None
    else if t[0] == q then Some(([], t[1..]))
    else if t[0] == '\\' then
      match ReadEscape(t[1..])
      case None => None
      case Some((c, after)) =>
        match ReadBody(after, q)
        case None => None
        case Some((text, rest)) => Some(([c] + text, rest))
    else
      match ReadBody(t[1..], q)
      case None => None
      case Some((text, rest)) => Some(([t[0]] + text, rest))
  }

  /** The text of a whole single-line string literal. */
  function ReadLiteral(t: string): (r: Option<string>)
  {
    if t == [] || (t[0] != '\'' && t[0] != '"') then None
    else
      match ReadBody(t[1..], t[0])
      case Some((text, rest)) => if rest == [] then Some(text) else None
      case None => None
  }

  /** The escape written for a character reads back as that character. */
  lemma ReadEscapeOf(c: char, q: char, tail: string)
    requires q == '\'' || q == '"'
    requires ReprChar(c, q) != [c]
    ensures ReadEscape(ReprChar(c, q)[1..] + tail) == Some((c, tail))
  {
    var e := ReprChar(c, q);
    var t := e[1..] + tail;
    if |e| == 2 {
      assert t[0] == e[1] && t[1..] == tail;
    } else {
      var hi, lo := c as int / 16, c as int % 16;
      assert c as int <= 0xAD && hi < 16;
      assert e == ['\\', 'x', HexDigit(hi), HexDigit(lo)];
      assert t[0] == 'x' && t[1] == HexDigit(hi) && t[2] == HexDigit(lo) && t[3..] == tail;
      HexValueOf(hi);
      HexValueOf(lo);
      assert hi * 16 + lo == c as int;
    }
  }

  /** A character written as itself is read as itself. */
  lemma ReadPlain(c: char, q: char, tail: string, s: string, rest: string)
    requires c != q && c != '\\'
    requires ReadBody(tail, q) == Some((s, rest))
    ensures ReadBody([c] + tail, q) == Some(([c] + s, rest))
  {
    var t := [c] + tail;
    assert t[0] == c && t[1..] == tail;
  }

  /** A character written as an escape is read back from the escape. */
  lemma ReadBackslash(c: char, q: char, u: string, tail: string, s: string, rest: string)
    requires ReadEscape(u + tail) == Some((c, tail))
    requires ReadBody(tail, q) == Some((s, rest))
    requires q != '\\'
    ensures ReadBody(['\\'] + (u + tail), q) == Some(([c] + s, rest))
  {
    var t := ['\\'] + (u + tail);
    assert t[0] == '\\' && t[1..] == u + tail;
  }

  /** The text written for one character reads back as that character,
      whatever follows it. */
  lemma ReadCharThen(c: char, q: char, tail: string, s: string, rest: string)
    requires q == '\'' || q == '"'
    requires ReadBody(tail, q) == Some((s, rest))
    ensures ReadBody(ReprChar(c, q) + tail, q) == Some(([c] + s, rest))
  {
    var e := ReprChar(c, q);
    if e == [c] {
      ReadPlain(c, q, tail, s, rest);
    } else {
      var u := e[1..];
      assert e == ['\\'] + u;
      assert e + tail == ['\\'] + (u + tail);
      ReadEscapeOf(c, q, tail);
      ReadBackslash(c, q, u, tail, s, rest);
    }
  }

  /** Reading stops at the first unescaped quote, so a written body
      followed by its quote reads back as the text. */
  lemma {:induction false} ReadRepr(s: string, q: char, rest: string)
    requires q == '\'' || q == '"'
    ensures ReadBody(ReprBody(s, q) + [q] + rest, q) == Some((s, rest))
  {
    if s == [] {
      assert ReprBody(s, q) + [q] + rest == [q] + rest;
    } else {
      var c, tail := s[0], ReprBody(s[1..], q) + [q] + rest;
      assert ReprBody(s, q) + [q] + rest == ReprChar(c, q) + tail by {
        assert ReprBody(s, q) == ReprChar(c, q) + ReprBody(s[1..], q);
      }
      assert [c] + s[1..] == s;
      ReadRepr(s[1..], q, rest);
      ReadCharThen(c, q, tail, s[1..], rest);
    }
  }

  /** `repr(s)` read back as a Python literal is `s`. */
  lemma ReprRoundTrip(s: string)
    ensures ReadLiteral(Repr(s)) == Some(s)
  {
    var q := Quote(s);
    var r := Repr(s);
    assert r[0] == q;
    assert r[1..] == ReprBody(s, q) + [q] + [];
    ReadRepr(s, q, []);
  }

  /** A text with only printable characters, no backslash and not both
      kinds of quote is written as itself between the quotes. */
  lemma {:induction false} ReprBodyPlain(s: string, q: char)
    requires forall i :: 0 <= i < |s| ==> Printable(s[i]) && s[i] != '\\' && s[i] != q
    ensures ReprBody(s, q) == s
  {
    if s != [] {
      ReprBodyPlain(s[1..], q);
      assert ReprChar(s[0], q) == [s[0]];
      assert [s[0]] + s[1..] == s;
    }
  }

  lemma ReprPlain(s: string)
    requires forall i :: 0 <= i < |s| ==> Printable(s[i]) && s[i] != '\\'
    requires !('\'' in s && '"' in s)
    ensures Repr(s) == [Quote(s)] + s + [Quote(s)]
  {
    var q := Quote(s);
    assert forall i :: 0 <= i < |s| ==> s[i] != q by {
      forall i | 0 <= i < |s|
        ensures s[i] != q
      {
        assert s[i] in s;
      }
    }
    ReprBodyPlain(s, q);
  }
}
