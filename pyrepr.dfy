/** `repr()` and `str()` of decoded JSON values, as the error messages and
    `str.format` render them, and a reader for the string literals `repr`
    writes. */
module PyRepr {
  import opened Wrappers
  import opened PyJson
  import opened PyStr

  /** The quote `repr` puts around a string: a single quote, unless the text
      holds a single quote and no double quote. */
  function QuoteFor(s: string): char
  {
    if '\'' in s && '"' !in s then '"' else '\''
  }

  /** The characters `repr` writes as `\xhh`: the C0 controls other than tab,
      line feed and carriage return, DEL, and the non-printable Latin-1
      characters U+0080 to U+00A0 and U+00AD. */
  predicate HexEscaped(c: char) {
    || (c < ' ' && c != '\t' && c != '\n' && c != '\r')
    || ('\U{7F}' <= c <= '\U{A0}')
    || c == '\U{AD}'
  }

  /** How one character appears inside a literal quoted with `q`. */
  function EscapeChar(c: char, q: char): string
  {
    if c == q || c == '\\' then ['\\', c]
    else if c == '\t' then "\\t"
    else if c == '\n' then "\\n"
    else if c == '\r' then "\\r"
    else if HexEscaped(c) then "\\x" + Hex2(c as int)
    else [c]
  }

  function Escape(s: string, q: char): string
  {
    if s == "" then "" else EscapeChar(s[0], q) + Escape(s[1..], q)
  }

  /** `repr(s)` for a string. */
  function ReprString(s: string): string
  {
    var q := QuoteFor(s);
    [q] + Escape(s, q) + [q]
  }

  /** `repr(v)`: the Python literal of a decoded JSON value. A string's
      literal reads back as the string; a list is bracketed and a dict
      braced. */
  function Repr(j: Json): (r: string)
    ensures |r| > 0
    ensures j.JString? ==> ParseReprString(r) == Some(j.s)
    ensures j.JArray? ==> r[0] == '[' && r[|r| - 1] == ']'
    ensures j.JObject? ==> r[0] == '{' && r[|r| - 1] == '}'
  {
    match j
    case JNull => "None"
    case JBool(b) => if b then "True" else "False"
    case JInt(i) => Decimal(i)
    case JString(s) => ReprStringRoundTrip(s); ReprString(s)
    case JArray(items) =>
      "[" + Join(", ", seq(|items|, k requires 0 <= k < |items| => Repr(items[k]))) + "]"
    case JObject(members) =>
      "{" + Join(", ", seq(|members|, k requires 0 <= k < |members| =>
                             ReprString(members[k].0) + ": " + Repr(members[k].1))) + "}"
  }

  /** `str(v)`, which is also what `'{}'.format(v)` inserts: a string is
      itself, every other value its `repr`. */
  function Str(j: Json): (r: string)
    ensures j.JString? ==> r == j.s
    ensures !j.JString? ==> r == Repr(j)
  {
    if j.JString? then j.s else Repr(j)
  }

  /** The value of a hexadecimal digit, either case. */
  function HexValue(c: char): Option<nat>
  {
    if '0' <= c <= '9' then Some(c as int - '0' as int)
    else if 'a' <= c <= 'f' then Some(c as int - 'a' as int + 10)
    else if 'A' <= c <= 'F' then Some(c as int - 'A' as int + 10)
    else None
  }

  /** Reads the body of a literal quoted with `q`: the escapes `repr` writes
      stand for their characters, and an unescaped `q` cannot occur. */
  function Unescape(t: string, q: char): Option<string>
    decreases |t|
  {
    if t == "" then Some("")
    else if t[0] != '\\' then
      if t[0] == q then None else Prepend(t[0], Unescape(t[1..], q))
    else if |t| < 2 then None
    else if t[1] in "\\'\"" then Prepend(t[1], Unescape(t[2..], q))
    else if t[1] == 't' then Prepend('\t', Unescape(t[2..], q))
    else if t[1] == 'n' then Prepend('\n', Unescape(t[2..], q))
    else if t[1] == 'r' then Prepend('\r', Unescape(t[2..], q))
    else if t[1] == 'x' && |t| >= 4 && HexValue(t[2]).Some? && HexValue(t[3]).Some? then
      var n := HexValue(t[2]).value * 16 + HexValue(t[3]).value;
      assert n < 256;
      Prepend(n as char, Unescape(t[4..], q))
    else None
  }

  function Prepend(c: char, r: Option<string>): Option<string>
  {
    match r
    case Some(s) => Some([c] + s)
    case None => None
  }

  /** Reads a quoted string literal of the form `repr` writes. */
  function ParseReprString(t: string): Option<string>
  {
    if |t| < 2 || t[0] !in "'\"" || t[|t| - 1] != t[0] then None
    else Unescape(t[1..|t| - 1], t[0])
  }

  /** A hexadecimal digit reads back as its value. */
  lemma HexDigitBack(d: nat)
    requires d < 16
    ensures HexValue(HexChar(d)) == Some(d)
  {
    if d < 10 {
      assert HexChar(d) == ('0' as int + d) as char;
    } else {
      assert HexChar(d) == ('a' as int + d - 10) as char;
    }
  }

  /** One escaped character reads back as that character. */
  lemma UnescapeChar(c: char, q: char, rest: string)
    requires q == '\'' || q == '"'
    ensures Unescape(EscapeChar(c, q) + rest, q) == Prepend(c, Unescape(rest, q))
  {
    if c == q || c == '\\' || c == '\t' || c == '\n' || c == '\r' {
      UnescapeShort(c, q, rest);
    } else if HexEscaped(c) {
      UnescapeHex(c, q, rest);
    } else {
      assert (EscapeChar(c, q) + rest)[1..] == rest;
    }
  }

  /** A backslash and one letter or quote read back as the character they stand for. */
  lemma UnescapeShort(c: char, q: char, rest: string)
    requires q == '\'' || q == '"'
    requires c == q || c == '\\' || c == '\t' || c == '\n' || c == '\r'
    ensures Unescape(EscapeChar(c, q) + rest, q) == Prepend(c, Unescape(rest, q))
  {
    var t := EscapeChar(c, q) + rest;
    assert |EscapeChar(c, q)| == 2;
    assert t[2..] == rest;
  }

  /** `\x` and two hex digits read back as the character with that code. */
  lemma UnescapeHex(c: char, q: char, rest: string)
    requires q == '\'' || q == '"'
    requires c != q && c != '\\' && c != '\t' && c != '\n' && c != '\r' && HexEscaped(c)
    ensures Unescape(EscapeChar(c, q) + rest, q) == Prepend(c, Unescape(rest, q))
  {
    var n := c as int;
    var hi, lo := n / 16, n % 16;
    var t := EscapeChar(c, q) + rest;
    assert t == ['\\', 'x', HexChar(hi), HexChar(lo)] + rest;
    HexDigitBack(hi);
    HexDigitBack(lo);
    assert t[4..] == rest;
    assert hi * 16 + lo == n;
  }

  lemma {:induction false} UnescapeEscape(s: string, q: char)
    requires q == '\'' || q == '"'
    ensures Unescape(Escape(s, q), q) == Some(s)
  {
    if s != "" {
      UnescapeEscape(s[1..], q);
      UnescapeChar(s[0], q, Escape(s[1..], q));
      assert [s[0]] + s[1..] == s;
    }
  }

  /** Reading back what `repr` wrote for a string gives the string. */
  lemma ReprStringRoundTrip(s: string)
    ensures ParseReprString(ReprString(s)) == Some(s)
  {
    var q := QuoteFor(s);
    var t := ReprString(s);
    assert t[1..|t| - 1] == Escape(s, q);
    UnescapeEscape(s, q);
  }
}
