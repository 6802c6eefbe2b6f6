/** How the JSON encoder writes a string with its default `ensure_ascii=True`
    (Python's `encode_basestring_ascii`), and how to read it back.
    Quote and backslash get a backslash, the five short control escapes are
    used where they exist, every other character outside space..tilde becomes
    `\uXXXX` in lower-case hex, and a character above U+FFFF becomes a UTF-16
    surrogate pair of two such escapes. The output is always ASCII. */
module Escape {
  import opened Wrappers
  import opened Hex

  predicate IsAscii(s: string) {
    forall i :: 0 <= i < |s| ==> s[i] as int < 128
  }

  lemma AsciiConcat(a: string, b: string)
    requires IsAscii(a) && IsAscii(b)
    ensures IsAscii(a + b)
  {
    assert forall i :: |a| <= i < |a + b| ==> (a + b)[i] == b[i - |a|];
  }

  /** The escape of one character. */
  function EscapeChar(c: char): (e: string)
    ensures |e| > 0 && e[0] != '"'
    ensures IsAscii(e)
  {
    if c == '"' then "\\\""
    else if c == '\\' then "\\\\"
    else if c == '\n' then "\\n"
    else if c == '\r' then "\\r"
    else if c == '\t' then "\\t"
    else if c as int == 0x08 then "\\b"
    else if c as int == 0x0c then "\\f"
    else if ' ' <= c <= '~' then [c]
    else if c as int < 0x10000 then "\\u" + Hex4(c as int)
    else SurrogatePair(c)
  }

  /** The two `\uXXXX` escapes of a character above U+FFFF. Python writes the
      halves as 0xd800 | (n >> 10) and 0xdc00 | (n & 0x3ff); n < 2^20, so
      these are the sums below. */
  function SurrogatePair(c: char): (e: string)
    requires c as int >= 0x10000
    ensures |e| == 12 && e[0] == '\\' && IsAscii(e)
  {
    var n := c as int - 0x10000;
    var hi, lo := Hex4(0xD800 + n / 0x400), Hex4(0xDC00 + n % 0x400);
    AsciiConcat("\\u", hi);
    AsciiConcat("\\u" + hi, "\\u");
    AsciiConcat("\\u" + hi + "\\u", lo);
    "\\u" + hi + "\\u" + lo
  }

  /** The body of a JSON string literal: every character escaped, in order. */
  function EscapeString(s: string): (e: string)
    ensures IsAscii(e)
    ensures |e| >= |s|
  {
    if |s| == 0 then "" else EscapeChar(s[0]) + EscapeString(s[1..])
  }

  /** A JSON string literal as the encoder writes it. */
  function Quote(s: string): (q: string)
    ensures IsAscii(q)
    ensures |q| >= 2 && q[0] == '"'
  {
    "\"" + EscapeString(s) + "\""
  }

  /** Reads one possibly escaped character off the front of `s`; None at the
      closing quote or at a malformed escape. */
  function UnescapeChar(s: string): (r: Option<(char, string)>)
    ensures r.Some? ==> |r.value.1| < |s|
  {
    if |s| == 0 || s[0] == '"' then None
    else if s[0] != '\\' then Some((s[0], s[1..]))
    else if |s| < 2 then None
    else if s[1] == '"' then Some(('"', s[2..]))
    else if s[1] == '\\' then Some(('\\', s[2..]))
    else if s[1] == 'n' then Some(('\n', s[2..]))
    else if s[1] == 'r' then Some(('\r', s[2..]))
    else if s[1] == 't' then Some(('\t', s[2..]))
    else if s[1] == 'b' then Some((0x08 as char, s[2..]))
    else if s[1] == 'f' then Some((0x0c as char, s[2..]))
    else if s[1] != 'u' || |s| < 6 then None
    else match Hex4Value(s[2..6])
      case None => None
      case Some(n) =>
        if n < 0xD800 || 0xE000 <= n then Some((n as char, s[6..]))
        else if 0xDC00 <= n || |s| < 12 || s[6] != '\\' || s[7] != 'u' then None
        else match Hex4Value(s[8..12])
          case None => None
          case Some(m) =>
            if 0xDC00 <= m < 0xE000 then Some(((0x10000 + (n - 0xD800) * 0x400 + (m - 0xDC00)) as char, s[12..]))
            else None
  }

  lemma UnescapeEscapeChar(c: char, rest: string)
    ensures UnescapeChar(EscapeChar(c) + rest) == Some((c, rest))
  {
    var s := EscapeChar(c) + rest;
    if c == '"' || c == '\\' || c == '\n' || c == '\r' || c == '\t' || c as int == 0x08 || c as int == 0x0c {
      assert s[2..] == rest;
    } else if ' ' <= c <= '~' {
      assert s[1..] == rest;
    } else if c as int < 0x10000 {
      UnescapeBasic(c, rest);
    } else {
      UnescapeSurrogates(c, rest);
    }
  }

  lemma UnescapeBasic(c: char, rest: string)
    requires c as int < 0x10000
    ensures UnescapeChar("\\u" + Hex4(c as int) + rest) == Some((c, rest))
  {
    var s := "\\u" + Hex4(c as int) + rest;
    Hex4RoundTrip(c as int);
    assert s[2..6] == Hex4(c as int);
    assert s[6..] == rest;
  }

  lemma UnescapeSurrogates(c: char, rest: string)
    requires c as int >= 0x10000
    ensures UnescapeChar(SurrogatePair(c) + rest) == Some((c, rest))
  {
    var s := SurrogatePair(c) + rest;
    var n := c as int - 0x10000;
    var hi, lo := 0xD800 + n / 0x400, 0xDC00 + n % 0x400;
    Hex4RoundTrip(hi);
    Hex4RoundTrip(lo);
    assert s[..2] == "\\u";
    assert s[2..6] == Hex4(hi);
    assert s[6] == '\\' && s[7] == 'u';
    assert s[8..12] == Hex4(lo);
    assert s[12..] == rest;
    assert 0x10000 + (hi - 0xD800) * 0x400 + (lo - 0xDC00) == c as int;
  }

  /** Reads a string body up to and including its closing quote; returns the
      characters and what follows the quote. */
  function UnescapeString(s: string): (r: Option<(string, string)>)
    ensures r.Some? ==> |r.value.1| < |s|
    decreases |s|
  {
    if |s| == 0 then None
    else if s[0] == '"' then Some(("", s[1..]))
    else match UnescapeChar(s)
      case None => None
      case Some((c, t)) =>
        match UnescapeString(t)
        case None => None
        case Some((x, u)) => Some(([c] + x, u))
  }

  lemma {:induction false} UnescapeEscapeString(x: string, rest: string)
    ensures UnescapeString(EscapeString(x) + "\"" + rest) == Some((x, rest))
  {
    if |x| == 0 {
      assert EscapeString(x) + "\"" + rest == "\"" + rest;
    } else {
      var tail := EscapeString(x[1..]) + "\"" + rest;
      assert EscapeString(x) + "\"" + rest == EscapeChar(x[0]) + tail;
      UnescapeEscapeChar(x[0], tail);
      UnescapeEscapeString(x[1..], rest);
      assert [x[0]] + x[1..] == x;
    }
  }

  /** A quoted string is read back up to its closing quote. */
  lemma ReadQuoted(x: string, rest: string)
    ensures |Quote(x) + rest| > 0 && (Quote(x) + rest)[0] == '"'
    ensures UnescapeString((Quote(x) + rest)[1..]) == Some((x, rest))
  {
    assert (Quote(x) + rest)[1..] == EscapeString(x) + "\"" + rest;
    UnescapeEscapeString(x, rest);
  }
}
