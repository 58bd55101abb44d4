/**
 * The string encoding of `JSON.stringify` (section 24.5.2.2, QuoteJSONString,
 * of ECMA-262), used for the SDP carried in a call push, with a decoder to
 * state that the encoding loses nothing.
 */
module Json {
  import opened Wrappers

  /** Lower-case hexadecimal digit, as QuoteJSONString writes `\u00XX`. */
  function HexDigit(d: nat): (c: char)
    requires d < 16
    ensures ('0' <= c <= '9') || ('a' <= c <= 'f')
    ensures HexValue(c) == Some(d)
  {
    if d < 10 then ('0' as int + d) as char else ('a' as int + d - 10) as char
  }

  function HexValue(c: char): Option<nat>
  {
    if '0' <= c <= '9' then Some(c as int - '0' as int)
    else if 'a' <= c <= 'f' then Some(c as int - 'a' as int + 10)
    else if 'A' <= c <= 'F' then Some(c as int - 'A' as int + 10)
    else None
  }

  /** The escape of one code point. */
  function EscapeChar(c: char): (r: string)
    ensures |r| > 0
    ensures forall x :: x in r ==> x >= ' '
  {
    if c == '"' then ['\\', '"']
    else if c == '\\' then ['\\', '\\']
    else if c == '\U{8}' then ['\\', 'b']
    else if c == '\U{C}' then ['\\', 'f']
    else if c == '\n' then ['\\', 'n']
    else if c == '\r' then ['\\', 'r']
    else if c == '\t' then ['\\', 't']
    else if c < ' ' then ['\\', 'u', '0', '0', HexDigit(c as int / 16), HexDigit(c as int % 16)]
    else [c]
  }

  /** The characters between the quotes of `JSON.stringify(s)`. */
  function Escape(s: string): (r: string)
    ensures forall x :: x in r ==> x >= ' '
  {
    if |s| == 0 then [] else EscapeChar(s[0]) + Escape(s[1..])
  }

  /** `JSON.stringify(s)` for a string `s`. */
  function Quote(s: string): string
  {
    "\"" + Escape(s) + "\""
  }

  /** `c` put in front of the decoded characters of a successful read. */
  function Prepend(c: char, r: Option<(string, string)>): Option<(string, string)>
  {
    if r.Some? then Some(([c] + r.value.0, r.value.1)) else None
  }

  /**
   * Reads the characters of a JSON string up to its closing quote: the decoded
   * string and the text after the quote, or `None` when a raw control
   * character, a bad escape, a surrogate escape or a missing quote is met.
   */
  function ReadString(t: string): Option<(string, string)>
    decreases |t|
  {
    if |t| == 0 then None
    else if t[0] == '"' then Some(([], t[1..]))
    else if t[0] < ' ' then None
    else if t[0] != '\\' then Prepend(t[0], ReadString(t[1..]))
    else if |t| < 2 then None
    else if t[1] == '"' then Prepend('"', ReadString(t[2..]))
    else if t[1] == '\\' then Prepend('\\', ReadString(t[2..]))
    else if t[1] == '/' then Prepend('/', ReadString(t[2..]))
    else if t[1] == 'b' then Prepend('\U{8}', ReadString(t[2..]))
    else if t[1] == 'f' then Prepend('\U{C}', ReadString(t[2..]))
    else if t[1] == 'n' then Prepend('\n', ReadString(t[2..]))
    else if t[1] == 'r' then Prepend('\r', ReadString(t[2..]))
    else if t[1] == 't' then Prepend('\t', ReadString(t[2..]))
    else if t[1] != 'u' || |t| < 6 then None
    else
      var h := [HexValue(t[2]), HexValue(t[3]), HexValue(t[4]), HexValue(t[5])];
      if h[0].None? || h[1].None? || h[2].None? || h[3].None? then None
      else
        var v := ((h[0].value * 16 + h[1].value) * 16 + h[2].value) * 16 + h[3].value;
        if 0xD800 <= v < 0xE000 then None
        else Prepend(v as char, ReadString(t[6..]))
  }

  /** Reads a quoted JSON string at the front of `t`: its value and the text after it. */
  function ReadQuoted(t: string): Option<(string, string)>
  {
    if |t| > 0 && t[0] == '"' then ReadString(t[1..]) else None
  }

  /** Decoding one escaped code point followed by more text. */
  lemma ReadChar(c: char, rest: string)
    ensures ReadString(EscapeChar(c) + rest) == Prepend(c, ReadString(rest))
  {
    var t := EscapeChar(c) + rest;
    if c < ' ' && c != '\U{8}' && c != '\U{C}' && c != '\n' && c != '\r' && c != '\t' {
      assert t[6..] == rest;
    } else if |EscapeChar(c)| == 2 {
      assert t[2..] == rest;
    } else {
      assert t[1..] == rest;
    }
  }

  /**
   * Decoding an encoded string up to its closing quote gives the string back
   * and leaves the text after the quote untouched.
   */
  lemma {:induction false} EscapeRoundTrip(s: string, rest: string)
    ensures ReadString(Escape(s) + "\"" + rest) == Some((s, rest))
  {
    if |s| == 0 {
      assert (Escape(s) + "\"" + rest)[1..] == rest;
    } else {
      EscapeRoundTrip(s[1..], rest);
      assert Escape(s) + "\"" + rest == EscapeChar(s[0]) + (Escape(s[1..]) + "\"" + rest);
      ReadChar(s[0], Escape(s[1..]) + "\"" + rest);
      assert [s[0]] + s[1..] == s;
    }
  }

  /** `JSON.parse` of a `JSON.stringify`d string, followed by more text, reads the string back. */
  lemma QuoteRoundTrip(s: string, rest: string)
    ensures ReadQuoted(Quote(s) + rest) == Some((s, rest))
  {
    var t := Quote(s) + rest;
    assert t[1..] == Escape(s) + "\"" + rest;
    EscapeRoundTrip(s, rest);
  }
}
