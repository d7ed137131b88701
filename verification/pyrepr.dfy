/** Python's `repr` of a `str` and of a dict of strings, which is what
    `f"{params}"` writes into a cache key, together with a decoder that
    inverts the string form. */
module PyRepr {
  import opened Base

  /** Python quotes with `"` only when the text holds a `'` and no `"`. */
  function QuoteFor(s: string): (q: char)
    ensures q == '\'' || q == '"'
    ensures q == '"' <==> ('\'' in s && '"' !in s)
  {
    if '\'' in s && '"' !in s then '"' else '\''
  }

  /** The characters up to 0xff that Python does not print as themselves
      and writes as `\xhh` instead: those below 0x20, those from 0x7f to 0xa0
      (delete, the C1 controls and the no-break space), and the soft hyphen
      0xad. */
  predicate IsControl(c: char) {
    c as int < 0x20 || (0x7f <= c as int <= 0xa0) || c as int == 0xad
  }

  function HexDigit(n: nat): char
    requires n < 16
  {
    if n < 10 then ('0' as int + n) as char else ('a' as int + n - 10) as char
  }

  function HexValue(c: char): Option<nat> {
    if '0' <= c <= '9' then Some(c as int - '0' as int)
    else if 'a' <= c <= 'f' then Some(c as int - 'a' as int + 10)
    else None
  }

  lemma HexValueOfDigit(n: nat)
    requires n < 16
    ensures HexValue(HexDigit(n)) == Some(n)
  {
  }

  /** The escape sequence `repr` writes for one character inside quotes `q`. */
  function EscapeChar(c: char, q: char): string {
    if c == '\\' || c == q then ['\\', c]
    else if c == '\t' then "\\t"
    else if c == '\n' then "\\n"
    else if c == '\r' then "\\r"
    else if IsControl(c) then ['\\', 'x', HexDigit(c as int / 16), HexDigit(c as int % 16)]
    else [c]
  }

  function Escape(s: string, q: char): string {
    if s == [] then [] else EscapeChar(s[0], q) + Escape(s[1..], q)
  }

  /** `repr(s)` for a Python `str`. */
  function ReprStr(s: string): (r: string)
    ensures |r| >= 2 && r[0] == r[|r| - 1] == QuoteFor(s)
  {
    var q := QuoteFor(s);
    [q] + Escape(s, q) + [q]
  }

  /** Reads back the body of a quoted literal written by `Escape`. */
  function Unescape(t: string): Option<string>
    decreases |t|
  {
    if t == [] then Some([])
    else if t[0] != '\\' then Prepend(t[0], Unescape(t[1..]))
    else if |t| < 2 then None
    else if t[1] == 't' then Prepend('\t', Unescape(t[2..]))
    else if t[1] == 'n' then Prepend('\n', Unescape(t[2..]))
    else if t[1] == 'r' then Prepend('\r', Unescape(t[2..]))
    else if t[1] == 'x' then
      if |t| < 4 then None
      else match (HexValue(t[2]), HexValue(t[3]))
        case (Some(hi), Some(lo)) =>
          if hi < 16 && lo < 16 then Prepend((hi * 16 + lo) as char, Unescape(t[4..])) else None
        case _ => None
    else Prepend(t[1], Unescape(t[2..]))
  }

  function Prepend(c: char, r: Option<string>): Option<string> {
    match r
    case Some(s) => Some([c] + s)
    case None => None
  }

  /** Inverse of `ReprStr`: strips the quotes and undoes the escapes. */
  function Unrepr(t: string): Option<string> {
    if |t| >= 2 && (t[0] == '\'' || t[0] == '"') && t[|t| - 1] == t[0]
    then Unescape(t[1..|t| - 1])
    else None
  }

  /** Each escape `EscapeChar` writes reads back as its character. */
  lemma UnescapeEscapeChar(c: char, q: char, rest: string)
    requires q == '\'' || q == '"'
    ensures Unescape(EscapeChar(c, q) + rest) == Prepend(c, Unescape(rest))
  {
    if c == '\\' || c == q {
      UnescapeQuoted(c, rest);
    } else if c == '\t' || c == '\n' || c == '\r' {
      UnescapeNamed(c, rest);
    } else if IsControl(c) {
      UnescapeHex(c, rest);
    } else {
      var t := EscapeChar(c, q) + rest;
      assert t[0] == c && t[1..] == rest;
    }
  }

  lemma UnescapeQuoted(c: char, rest: string)
    requires c != 't' && c != 'n' && c != 'r' && c != 'x'
    ensures Unescape(['\\', c] + rest) == Prepend(c, Unescape(rest))
  {
    var t := ['\\', c] + rest;
    assert t[0] == '\\' && t[1] == c && t[2..] == rest;
  }

  lemma UnescapeNamed(c: char, rest: string)
    requires c == '\t' || c == '\n' || c == '\r'
    ensures Unescape(EscapeChar(c, '\'') + rest) == Prepend(c, Unescape(rest))
  {
    var t := EscapeChar(c, '\'') + rest;
    assert t[0] == '\\' && t[2..] == rest;
  }

  lemma UnescapeHex(c: char, rest: string)
    requires IsControl(c)
    ensures Unescape(['\\', 'x', HexDigit(c as int / 16), HexDigit(c as int % 16)] + rest) == Prepend(c, Unescape(rest))
  {
    var hi, lo := c as int / 16, c as int % 16;
    var t := ['\\', 'x', HexDigit(hi), HexDigit(lo)] + rest;
    assert t[0] == '\\' && t[1] == 'x' && t[2] == HexDigit(hi) && t[3] == HexDigit(lo);
    assert t[4..] == rest;
    HexValueOfDigit(hi);
    HexValueOfDigit(lo);
    assert (hi * 16 + lo) as char == c;
  }

  lemma {:induction false} UnescapeEscape(s: string, q: char)
    requires q == '\'' || q == '"'
    ensures Unescape(Escape(s, q)) == Some(s)
  {
    if s == [] {
    } else {
      UnescapeEscapeChar(s[0], q, Escape(s[1..], q));
      UnescapeEscape(s[1..], q);
      assert [s[0]] + s[1..] == s;
    }
  }

  /** Decoding what `repr` wrote gives back the original string, so two
      different strings never share a `repr`. */
  lemma ReprRoundTrip(s: string)
    ensures Unrepr(ReprStr(s)) == Some(s)
  {
    var q := QuoteFor(s);
    var r := ReprStr(s);
    assert r[1..|r| - 1] == Escape(s, q);
    UnescapeEscape(s, q);
  }

  lemma ReprInjective(s1: string, s2: string)
    ensures ReprStr(s1) == ReprStr(s2) ==> s1 == s2
  {
    ReprRoundTrip(s1);
    ReprRoundTrip(s2);
  }

  /** `repr` of a dict whose keys and values are strings, in insertion order. */
  function ReprDict(pairs: seq<(string, string)>): string {
    "{" + ReprItems(pairs) + "}"
  }

  lemma ReprDictBraces(pairs: seq<(string, string)>)
    ensures StartsWith(ReprDict(pairs), "{") && EndsWith(ReprDict(pairs), "}")
  {
    StartsWithConcat("{", ReprItems(pairs) + "}");
    assert ReprDict(pairs) == "{" + (ReprItems(pairs) + "}");
    EndsWithConcat("{" + ReprItems(pairs), "}");
  }

  function ReprItems(pairs: seq<(string, string)>): string {
    if |pairs| == 0 then ""
    else
      var item := ReprStr(pairs[0].0) + ": " + ReprStr(pairs[0].1);
      if |pairs| == 1 then item else item + ", " + ReprItems(pairs[1..])
  }
}
