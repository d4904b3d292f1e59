/** The storage format of the favourites list: `JSON.stringify` of an array of
    strings, and the part of `JSON.parse` that reads such an array back. Any other
    JSON value counts as unparseable here. */
module FavoritesJson {
  import opened Wrappers

  // ----- JSON.stringify -----

  function HexDigit(d: int): char
    requires 0 <= d < 16
  {
    "0123456789abcdef"[d]
  }

  /** How `JSON.stringify` writes one character inside a string literal. */
  function EscapeChar(c: char): string {
    if c == '"' then "\\\""
    else if c == '\\' then "\\\\"
    else if c == '\U{8}' then "\\b"
    else if c == '\t' then "\\t"
    else if c == '\n' then "\\n"
    else if c == '\U{C}' then "\\f"
    else if c == '\r' then "\\r"
    else if (c as int) < 0x20 then "\\u00" + [HexDigit(c as int / 16), HexDigit(c as int % 16)]
    else [c]
  }

  function Escape(s: string): string {
    if s == [] then "" else EscapeChar(s[0]) + Escape(s[1..])
  }

  function Quote(s: string): string {
    "\"" + Escape(s) + "\""
  }

  function Elements(l: seq<string>): string {
    if l == [] then ""
    else if |l| == 1 then Quote(l[0])
    else Quote(l[0]) + "," + Elements(l[1..])
  }

  /** `JSON.stringify(list)`. */
  function Stringify(l: seq<string>): string {
    "[" + Elements(l) + "]"
  }

  // ----- JSON.parse, for an array of strings -----

  predicate IsJsonWhitespace(c: char) {
    c == ' ' || c == '\t' || c == '\n' || c == '\r'
  }

  function SkipWhitespace(s: string): (r: string)
    ensures |r| <= |s|
    ensures s != [] && !IsJsonWhitespace(s[0]) ==> r == s
  {
    if s != [] && IsJsonWhitespace(s[0]) then SkipWhitespace(s[1..]) else s
  }

  function HexValue(c: char): Option<int> {
    if '0' <= c <= '9' then Some(c as int - '0' as int)
    else if 'a' <= c <= 'f' then Some(c as int - 'a' as int + 10)
    else if 'A' <= c <= 'F' then Some(c as int - 'A' as int + 10)
    else None
  }

  /** The value of four hexadecimal digits. */
  function Hex4(s: string): (r: Option<int>)
    requires |s| == 4
    ensures r.Some? ==> 0 <= r.value < 0x10000
  {
    match (HexValue(s[0]), HexValue(s[1]), HexValue(s[2]), HexValue(s[3]))
    case (Some(a), Some(b), Some(c), Some(d)) =>
      if 0 <= a < 16 && 0 <= b < 16 && 0 <= c < 16 && 0 <= d < 16
      then Some(((a * 16 + b) * 16 + c) * 16 + d) else None
    case _ => None
  }

  /** The character an escape sequence stands for (the text after the backslash),
      and what follows it. */
  function DecodeEscape(s: string): (r: Option<(char, string)>)
    ensures r.Some? ==> |r.value.1| < |s|
  {
    if s == [] then None
    else if s[0] == '"' then Some(('"', s[1..]))
    else if s[0] == '\\' then Some(('\\', s[1..]))
    else if s[0] == '/' then Some(('/', s[1..]))
    else if s[0] == 'b' then Some(('\U{8}', s[1..]))
    else if s[0] == 't' then Some(('\t', s[1..]))
    else if s[0] == 'n' then Some(('\n', s[1..]))
    else if s[0] == 'f' then Some(('\U{C}', s[1..]))
    else if s[0] == 'r' then Some(('\r', s[1..]))
    else if s[0] == 'u' && |s| >= 5 then
      match Hex4(s[1..5])
      case Some(n) => if 0xD800 <= n < 0xE000 then None else Some((n as char, s[5..]))
      case None => None
    else None
  }

  /** The characters of a string literal up to its closing quote, and the text
      after that quote. */
  function StringBody(s: string): (r: Option<(string, string)>)
    ensures r.Some? ==> |r.value.1| < |s|
    decreases |s|
  {
    if s == [] then None
    else if s[0] == '"' then Some(("", s[1..]))
    else if s[0] == '\\' then
      match DecodeEscape(s[1..])
      case None => None
      case Some((c, rest)) => Prepend(c, StringBody(rest))
    else if (s[0] as int) < 0x20 then None
    else Prepend(s[0], StringBody(s[1..]))
  }

  function Prepend(c: char, r: Option<(string, string)>): (p: Option<(string, string)>)
    ensures p.Some? <==> r.Some?
    ensures p.Some? ==> p.value == ([c] + r.value.0, r.value.1)
  {
    match r
    case None => None
    case Some((v, rest)) => Some(([c] + v, rest))
  }

  /** One or more string values separated by commas, then the closing bracket. */
  function Values(s: string): (r: Option<(seq<string>, string)>)
    ensures r.Some? ==> |r.value.1| < |s|
    decreases |s|, 1
  {
    if s == [] || s[0] != '"' then None
    else
      match StringBody(s[1..])
      case None => None
      case Some((v, rest)) => AfterValue(v, SkipWhitespace(rest))
  }

  /** What may follow a value inside the array: the closing bracket, or a comma
      and further values. */
  function AfterValue(v: string, t: string): (r: Option<(seq<string>, string)>)
    ensures r.Some? ==> |r.value.1| < |t|
    decreases |t|, 0
  {
    if t != [] && t[0] == ']' then Some(([v], t[1..]))
    else if t != [] && t[0] == ',' then PrependValue(v, Values(SkipWhitespace(t[1..])))
    else None
  }

  function PrependValue(v: string, r: Option<(seq<string>, string)>): (p: Option<(seq<string>, string)>)
    ensures p.Some? <==> r.Some?
    ensures p.Some? ==> p.value == ([v] + r.value.0, r.value.1)
  {
    match r
    case None => None
    case Some((vs, rest)) => Some(([v] + vs, rest))
  }

  /** `JSON.parse(text)` when the text is an array of strings; None otherwise. */
  function Parse(text: string): Option<seq<string>> {
    var s := SkipWhitespace(text);
    if s == [] || s[0] != '[' then None
    else
      var t := SkipWhitespace(s[1..]);
      var items: Option<(seq<string>, string)> := if t != [] && t[0] == ']' then Some(([], t[1..])) else Values(t);
      match items
      case None => None
      case Some((vs, rest)) => if SkipWhitespace(rest) == [] then Some(vs) else None
  }

  // ----- the round trip -----

  lemma HexRoundTrip(d: int)
    requires 0 <= d < 16
    ensures HexValue(HexDigit(d)) == Some(d)
  {
  }

  /** Reading one written character gives that character back. */
  lemma EscapeCharRoundTrip(c: char, tail: string)
    ensures StringBody(EscapeChar(c) + tail) == Prepend(c, StringBody(tail))
  {
    if c == '"' || c == '\\' || c == '\U{8}' || c == '\t' || c == '\n' || c == '\U{C}' || c == '\r' {
      ShortEscapeRoundTrip(c, tail);
    } else if (c as int) < 0x20 {
      UnicodeEscapeRoundTrip(c, tail);
    } else {
      var s := EscapeChar(c) + tail;
      assert s[0] == c && s[1..] == tail;
    }
  }

  /** The two-character escapes: a backslash and one letter or symbol. */
  lemma ShortEscapeRoundTrip(c: char, tail: string)
    requires c == '"' || c == '\\' || c == '\U{8}' || c == '\t' || c == '\n' || c == '\U{C}' || c == '\r'
    ensures StringBody(EscapeChar(c) + tail) == Prepend(c, StringBody(tail))
  {
    var s := EscapeChar(c) + tail;
    assert s[0] == '\\' && s[1..] == [EscapeChar(c)[1]] + tail;
  }

  /** The other control characters, written as a backslash, `u00` and two hex digits. */
  lemma UnicodeEscapeRoundTrip(c: char, tail: string)
    requires !(c == '"' || c == '\\' || c == '\U{8}' || c == '\t' || c == '\n' || c == '\U{C}' || c == '\r')
    requires (c as int) < 0x20
    ensures StringBody(EscapeChar(c) + tail) == Prepend(c, StringBody(tail))
  {
    var s := EscapeChar(c) + tail;
    var hi, lo := c as int / 16, c as int % 16;
    HexRoundTrip(hi);
    HexRoundTrip(lo);
    assert s[0] == '\\' && s[1..] == "u00" + [HexDigit(hi), HexDigit(lo)] + tail;
    assert s[1..][1..5] == "00" + [HexDigit(hi), HexDigit(lo)];
    assert s[1..][5..] == tail;
  }

  /** A written string body is read back up to its closing quote. */
  lemma {:induction false} EscapeRoundTrip(v: string, tail: string)
    ensures StringBody(Escape(v) + "\"" + tail) == Some((v, tail))
    decreases |v|
  {
    if v == [] {
      assert Escape(v) + "\"" + tail == "\"" + tail;
    } else {
      assert Escape(v) + "\"" + tail == EscapeChar(v[0]) + (Escape(v[1..]) + "\"" + tail);
      EscapeCharRoundTrip(v[0], Escape(v[1..]) + "\"" + tail);
      EscapeRoundTrip(v[1..], tail);
      assert [v[0]] + v[1..] == v;
    }
  }

  lemma ElementsStartWithQuote(l: seq<string>)
    requires l != []
    ensures |Elements(l)| > 0 && Elements(l)[0] == '"'
  {
  }

  lemma {:induction false} ValuesRoundTrip(l: seq<string>, tail: string)
    requires l != []
    ensures Values(Elements(l) + "]" + tail) == Some((l, tail))
    decreases |l|
  {
    if |l| == 1 {
      LastValueRoundTrip(l[0], tail);
      assert Elements(l) == Quote(l[0]);
      assert l == [l[0]];
    } else {
      var first := Quote(l[0]) + ",";
      var later := Elements(l[1..]);
      var rest := later + "]" + tail;
      assert Elements(l) == first + later;
      Regroup(first, later, "]", tail);
      ValuesRoundTrip(l[1..], tail);
      ElementsStartWithQuote(l[1..]);
      NextValueRoundTrip(l[0], rest);
      assert [l[0]] + l[1..] == l;
    }
  }

  lemma Regroup(a: string, b: string, c: string, d: string)
    ensures (a + b) + c + d == a + (b + c + d)
  {
  }

  /** Unfolds `Values` at a string literal that has been read. */
  lemma ValuesStep(s: string, v: string, after: string)
    requires s != [] && s[0] == '"' && StringBody(s[1..]) == Some((v, after))
    ensures Values(s) == AfterValue(v, SkipWhitespace(after))
  {
  }

  lemma QuotedThen(v: string, sep: char, rest: string)
    ensures var s := Quote(v) + [sep] + rest;
      s != [] && s[0] == '"' && StringBody(s[1..]) == Some((v, [sep] + rest))
  {
    var s := Quote(v) + [sep] + rest;
    assert s[1..] == Escape(v) + "\"" + ([sep] + rest);
    EscapeRoundTrip(v, [sep] + rest);
  }

  lemma LastValueRoundTrip(v: string, tail: string)
    ensures Values(Quote(v) + "]" + tail) == Some(([v], tail))
  {
    QuotedThen(v, ']', tail);
    ValuesStep(Quote(v) + "]" + tail, v, "]" + tail);
    assert ("]" + tail)[1..] == tail;
  }

  lemma NextValueRoundTrip(v: string, rest: string)
    requires |rest| > 0 && rest[0] == '"'
    ensures Values(Quote(v) + "," + rest) == PrependValue(v, Values(rest))
  {
    QuotedThen(v, ',', rest);
    ValuesStep(Quote(v) + "," + rest, v, "," + rest);
    var t := "," + rest;
    assert t[1..] == rest;
    assert SkipWhitespace(rest) == rest;
  }

  /** What `JSON.stringify` writes, the parser reads back unchanged. */
  lemma ParseStringify(l: seq<string>)
    ensures Parse(Stringify(l)) == Some(l)
  {
    var s := Stringify(l);
    var body := Elements(l) + "]" + "";
    assert s == "[" + body;
    assert SkipWhitespace(s) == s;
    assert s[1..] == body;
    if l == [] {
      assert body == "]";
    } else {
      ElementsStartWithQuote(l);
      assert body[0] == '"';
      ValuesRoundTrip(l, "");
    }
    assert SkipWhitespace(body) == body;
    assert SkipWhitespace("") == "";
  }
}
