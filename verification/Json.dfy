/**
 JSON values, and the unwrapping of values that are themselves JSON-encoded strings. String literals are
 read and written as sections 2 and 7 of RFC 8259 say; the reading of texts that are not string literals
 is a parameter.
 */
module Json {
  import opened Wrappers

  datatype Value =
    | Null
    | Bool(b: bool)
    | Number(text: string)
    | String(s: string)
    | Array(items: seq<Value>)
    | Object(members: map<string, Value>)

  // ---------------------------------------------------------------- reading

  predicate IsSpace(c: char) { c == ' ' || c == '\t' || c == '\n' || c == '\r' }

  function SkipSpace(s: string): (r: string)
    ensures |r| <= |s| && (r != [] ==> !IsSpace(r[0]))
  {
    if s != [] && IsSpace(s[0]) then SkipSpace(s[1..]) else s
  }

  function HexDigit(c: char): Option<nat> {
    if '0' <= c <= '9' then Some(c as int - '0' as int)
    else if 'a' <= c <= 'f' then Some(c as int - 'a' as int + 10)
    else if 'A' <= c <= 'F' then Some(c as int - 'A' as int + 10)
    else None
  }

  /** The code unit written by the first four characters. */
  function Hex4(s: string): (r: Option<nat>)
    ensures r.Some? ==> |s| >= 4 && r.value < 0x1_0000
  {
    if |s| < 4 then None else
    match (HexDigit(s[0]), HexDigit(s[1]), HexDigit(s[2]), HexDigit(s[3]))
    case (Some(a), Some(b), Some(c), Some(d)) =>
      if a < 16 && b < 16 && c < 16 && d < 16 then Some(a * 0x1000 + b * 0x100 + c * 0x10 + d) else None
    case _ => None
  }

  /** What follows a backslash: the character it stands for and the rest. A high surrogate must be
      followed by an escaped low one. */
  function Escaped(s: string): (r: Option<(char, string)>)
    ensures r.Some? ==> |r.value.1| < |s|
  {
    if s == [] then None
    else if s[0] == '"' || s[0] == '\\' || s[0] == '/' then Some((s[0], s[1..]))
    else if s[0] == 'b' then Some((0x08 as char, s[1..]))
    else if s[0] == 'f' then Some((0x0c as char, s[1..]))
    else if s[0] == 'n' then Some(('\n', s[1..]))
    else if s[0] == 'r' then Some(('\r', s[1..]))
    else if s[0] == 't' then Some(('\t', s[1..]))
    else if s[0] != 'u' then None
    else
      match Hex4(s[1..])
      case None => None
      case Some(hi) =>
        if hi < 0xD800 || hi >= 0xE000 then Some((hi as char, s[5..]))
        else if hi >= 0xDC00 || |s| < 11 || s[5] != '\\' || s[6] != 'u' then None
        else
          match Hex4(s[7..])
          case None => None
          case Some(lo) =>
            if 0xDC00 <= lo < 0xE000
            then Some(((0x1_0000 + (hi - 0xD800) * 0x400 + (lo - 0xDC00)) as char, s[11..]))
            else None
  }

  /** The text of a string literal whose opening quote has been read, and the rest after the closing one. */
  function LiteralBody(s: string): (r: Option<(string, string)>)
    ensures r.Some? ==> |r.value.0| + |r.value.1| < |s|
    decreases |s|
  {
    if s == [] then None
    else if s[0] == '"' then Some(([], s[1..]))
    else if s[0] == '\\' then
      match Escaped(s[1..])
      case None => None
      case Some((c, rest)) =>
        (match LiteralBody(rest) case None => None case Some((text, rest')) => Some(([c] + text, rest')))
    else if s[0] < ' ' then None
    else
      match LiteralBody(s[1..]) case None => None case Some((text, rest)) => Some(([s[0]] + text, rest))
  }

  /** `serde_json::from_str`: `other` reads the texts that do not begin with a quote, which are never
      strings. A string literal is at least two characters longer than its text. */
  function Parse(s: string, other: string -> Option<Value>): (r: Option<Value>)
    ensures r.Some? && r.value.String? ==> |r.value.s| + 2 <= |s|
  {
    var t := SkipSpace(s);
    if t == [] then None
    else if t[0] == '"' then
      match LiteralBody(t[1..])
      case None => None
      case Some((text, rest)) => if SkipSpace(rest) == [] then Some(String(text)) else None
    else
      match other(t) case None => None case Some(v) => if v.String? then None else Some(v)
  }

  // ---------------------------------------------------------------- unwrapping

  function Size(v: Value): nat { if v.String? then |v.s| + 1 else 0 }

  /** `unwrap_json_value`. */
  function Unwrap(v: Value, other: string -> Option<Value>): (r: Value)
    ensures Size(r) <= Size(v)
    decreases Size(v)
  {
    if !v.String? then v else
    match Parse(v.s, other)
    case Some(parsed) => Unwrap(parsed, other)
    case None => v
  }

  /** A value that unwrapping leaves alone: no string, or one that is not JSON. */
  predicate Plain(v: Value, other: string -> Option<Value>) { v.String? ==> Parse(v.s, other) == None }

  lemma {:induction false} UnwrapIsPlain(v: Value, other: string -> Option<Value>)
    ensures Plain(Unwrap(v, other), other)
    decreases Size(v)
  {
    if v.String? && Parse(v.s, other).Some? {
      UnwrapIsPlain(Parse(v.s, other).value, other);
    }
  }

  /** Exactly when unwrapping changes a value: when it is a string that is JSON. */
  lemma UnwrapChangesIff(v: Value, other: string -> Option<Value>)
    ensures Unwrap(v, other) != v <==> v.String? && Parse(v.s, other).Some?
  {
    if v.String? && Parse(v.s, other).Some? {
      assert Size(Unwrap(v, other)) <= Size(Parse(v.s, other).value) < Size(v);
    }
  }

  lemma UnwrapIdempotent(v: Value, other: string -> Option<Value>)
    ensures Unwrap(Unwrap(v, other), other) == Unwrap(v, other)
  {
    UnwrapIsPlain(v, other);
    UnwrapChangesIff(Unwrap(v, other), other);
  }

  // ---------------------------------------------------------------- writing

  function Hex(d: nat): char
    requires d < 16
  {
    if d < 10 then (d + '0' as int) as char else (d - 10 + 'a' as int) as char
  }

  function EscapeChar(c: char): (r: string)
    ensures r != []
  {
    if c == '"' then "\\\""
    else if c == '\\' then "\\\\"
    else if c == '\n' then "\\n"
    else if c == '\r' then "\\r"
    else if c == '\t' then "\\t"
    else if c as int == 0x08 then "\\b"
    else if c as int == 0x0c then "\\f"
    else if c < ' ' then "\\u00" + [Hex(c as int / 16), Hex(c as int % 16)]
    else [c]
  }

  function QuoteBody(s: string): string { if s == [] then [] else EscapeChar(s[0]) + QuoteBody(s[1..]) }

  /** `serde_json::to_string` of a string value. */
  function Quote(s: string): string { "\"" + QuoteBody(s) + "\"" }

  lemma HexOfHex(d: nat)
    requires d < 16
    ensures HexDigit(Hex(d)) == Some(d)
  {
  }

  /** Whether a character is written as an escape. */
  predicate NeedsEscape(c: char) { c == '"' || c == '\\' || c < ' ' }

  lemma ReadShortEscape(c: char, tail: string)
    requires |EscapeChar(c)| == 2
    ensures Escaped([EscapeChar(c)[1]] + tail) == Some((c, tail))
  {
    assert ([EscapeChar(c)[1]] + tail)[1..] == tail;
  }

  lemma ReadUnicodeEscape(n: nat, tail: string)
    requires n < 32
    ensures Escaped("u00" + [Hex(n / 16), Hex(n % 16)] + tail) == Some((n as char, tail))
  {
    HexOfHex(n / 16);
    HexOfHex(n % 16);
    var s := "u00" + [Hex(n / 16), Hex(n % 16)] + tail;
    var t := s[1..];
    assert |t| >= 4 && t[0] == '0' && t[1] == '0' && t[2] == Hex(n / 16) && t[3] == Hex(n % 16);
    assert HexDigit(t[0]) == Some(0) && HexDigit(t[1]) == Some(0);
    assert s[5..] == tail;
  }

  lemma ReadEscaped(c: char, tail: string)
    requires NeedsEscape(c)
    ensures EscapeChar(c)[0] == '\\' && Escaped(EscapeChar(c)[1..] + tail) == Some((c, tail))
  {
    if |EscapeChar(c)| == 2 {
      assert EscapeChar(c)[1..] == [EscapeChar(c)[1]];
      ReadShortEscape(c, tail);
    } else {
      var n := c as int;
      assert EscapeChar(c)[1..] == "u00" + [Hex(n / 16), Hex(n % 16)];
      ReadUnicodeEscape(n, tail);
    }
  }

  function Hex4Of(n: nat): (r: string)
    requires n < 0x1_0000
    ensures |r| == 4
  {
    var q := n / 16;
    var p := q / 16;
    [Hex(p / 16), Hex(p % 16), Hex(q % 16), Hex(n % 16)]
  }

  lemma HexDigits(d: nat)
    requires d < 16
    ensures Hex(d) == "0123456789abcdef"[d] && HexDigit("0123456789abcdef"[d]) == Some(d)
    ensures HexDigit("0123456789ABCDEF"[d]) == Some(d)
  {
  }

  lemma ReadDigits(a: nat, b: nat, c: nat, d: nat, tail: string)
    requires a < 16 && b < 16 && c < 16 && d < 16
    ensures Hex4([Hex(a), Hex(b), Hex(c), Hex(d)] + tail) == Some(0x1000 * a + 0x100 * b + 0x10 * c + d)
  {
    var s := [Hex(a), Hex(b), Hex(c), Hex(d)] + tail;
    assert s[0] == Hex(a) && s[1] == Hex(b) && s[2] == Hex(c) && s[3] == Hex(d);
    HexOfHex(a);
    HexOfHex(b);
    HexOfHex(c);
    HexOfHex(d);
  }

  lemma ReadHex4(n: nat, tail: string)
    requires n < 0x1_0000
    ensures Hex4(Hex4Of(n) + tail) == Some(n)
  {
    var q := n / 16;
    var p := q / 16;
    ReadDigits(p / 16, p % 16, q % 16, n % 16, tail);
  }

  /** Every code point has an escape: one of four hexadecimal digits up to U+FFFF, and beyond a pair of
      surrogates. A surrogate on its own is no character. */
  lemma ReadCodeUnit(n: nat, tail: string)
    requires n < 0xD800 || 0xE000 <= n < 0x1_0000
    ensures Escaped("u" + Hex4Of(n) + tail) == Some((n as char, tail))
  {
    var s := "u" + Hex4Of(n) + tail;
    assert s[1..] == Hex4Of(n) + tail && s[5..] == tail;
    ReadHex4(n, tail);
  }

  lemma ReadSurrogates(n: nat, high: nat, low: nat, tail: string)
    requires 0xD800 <= high < 0xDC00 <= low < 0xE000 && n == 0x1_0000 + (high - 0xD800) * 0x400 + (low - 0xDC00)
    ensures Escaped("u" + Hex4Of(high) + ("\\u" + Hex4Of(low) + tail)) == Some((n as char, tail))
  {
    var rest := "\\u" + Hex4Of(low) + tail;
    var s := "u" + Hex4Of(high) + rest;
    assert rest[2..] == Hex4Of(low) + tail && rest[6..] == tail;
    assert s[1..] == Hex4Of(high) + rest && s[5] == rest[0] && s[6] == rest[1];
    assert s[7..] == rest[2..] && s[11..] == rest[6..];
    ReadHex4(high, rest);
    ReadHex4(low, tail);
  }

  lemma LoneSurrogate(n: nat, tail: string)
    requires 0xD800 <= n < 0xE000
    ensures tail == [] || tail[0] != '\\' || n >= 0xDC00 ==> Escaped("u" + Hex4Of(n) + tail) == None
  {
    var s := "u" + Hex4Of(n) + tail;
    assert s[1..] == Hex4Of(n) + tail && |s| == 5 + |tail| && (tail != [] ==> s[5] == tail[0]);
    ReadHex4(n, tail);
  }

  /** The escapes of two characters. */
  lemma ShortEscapes(c: char, tail: string)
    ensures Escaped([c] + tail) ==
            if c == '"' || c == '\\' || c == '/' then Some((c, tail))
            else if c == 'b' then Some((8 as char, tail))
            else if c == 't' then Some((9 as char, tail))
            else if c == 'n' then Some((10 as char, tail))
            else if c == 'f' then Some((12 as char, tail))
            else if c == 'r' then Some((13 as char, tail))
            else if c == 'u' then Escaped("u" + tail)
            else None
  {
    assert ([c] + tail)[1..] == tail;
  }

  /** The writing of one character reads back as that character, whatever follows. */
  lemma ReadEscapeChar(c: char, tail: string)
    requires LiteralBody(tail).Some?
    ensures LiteralBody(EscapeChar(c) + tail) == Some(([c] + LiteralBody(tail).value.0, LiteralBody(tail).value.1))
  {
    var s := EscapeChar(c) + tail;
    if NeedsEscape(c) {
      ReadEscaped(c, tail);
      assert s[1..] == EscapeChar(c)[1..] + tail;
    } else {
      assert EscapeChar(c) == [c];
      assert s[1..] == tail;
    }
  }

  lemma QuoteBodyStep(s: string, rest: string)
    requires s != []
    ensures QuoteBody(s) + "\"" + rest == EscapeChar(s[0]) + (QuoteBody(s[1..]) + "\"" + rest)
  {
    assert QuoteBody(s) == EscapeChar(s[0]) + QuoteBody(s[1..]);
  }

  lemma {:induction false} ReadQuoteBody(s: string, rest: string)
    ensures LiteralBody(QuoteBody(s) + "\"" + rest) == Some((s, rest))
    decreases |s|
  {
    if s == [] {
      assert ("\"" + rest)[1..] == rest;
      assert QuoteBody(s) + "\"" + rest == "\"" + rest;
    } else {
      ReadQuoteBody(s[1..], rest);
      assert [s[0]] + s[1..] == s;
      var tail := QuoteBody(s[1..]) + "\"" + rest;
      QuoteBodyStep(s, rest);
      ReadEscapeChar(s[0], tail);
    }
  }

  /** Writing a string as JSON and reading it gives it back, for every string. */
  lemma ParseQuote(s: string, other: string -> Option<Value>)
    ensures Parse(Quote(s), other) == Some(String(s))
  {
    ReadQuoteBody(s, []);
    assert Quote(s)[1..] == QuoteBody(s) + "\"" + [];
  }

  /** `n` nested encodings. */
  function QuoteTimes(s: string, n: nat): string
    decreases n
  {
    if n == 0 then s else QuoteTimes(Quote(s), n - 1)
  }

  lemma UnwrapQuote(s: string, other: string -> Option<Value>)
    ensures Unwrap(String(Quote(s)), other) == Unwrap(String(s), other)
  {
    ParseQuote(s, other);
  }

  /** Unwrapping undoes any number of nested encodings of a string. */
  lemma {:induction false} UnwrapQuotes(s: string, n: nat, other: string -> Option<Value>)
    ensures Unwrap(String(QuoteTimes(s, n)), other) == Unwrap(String(s), other)
    decreases n
  {
    if n > 0 {
      UnwrapQuotes(Quote(s), n - 1, other);
      UnwrapQuote(s, other);
    }
  }

  /** ... and of any other value whose text reads as that value. */
  lemma UnwrapQuotedValue(v: Value, text: string, n: nat, other: string -> Option<Value>)
    requires !v.String? && Parse(text, other) == Some(v)
    ensures Unwrap(String(QuoteTimes(text, n)), other) == v
  {
    UnwrapQuotes(text, n, other);
  }
}
