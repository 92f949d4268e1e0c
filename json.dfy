/**
 * JSON string literals as `JSON.stringify` writes them and `JSON.parse`
 * reads them: the escaping of the characters a string literal cannot hold
 * as they are, and the reading of a literal's body back into its value.
 */
module Json {
  import opened Wrappers

  const Backspace: char := '\U{0008}'
  const FormFeed: char := '\U{000C}'

  /** Lower-case hexadecimal digit for `d`, as `JSON.stringify` writes `\u` escapes. */
  function HexDigit(d: nat): (c: char)
    requires d < 16
    ensures HexValue(c) == Some(d)
  {
    if d < 10 then (48 + d) as char else (87 + d) as char
  }

  /** The value of a hexadecimal digit of either case. */
  function HexValue(c: char): (r: Option<nat>)
    ensures r.Some? ==> r.value < 16
  {
    if '0' <= c <= '9' then Some(c as int - 48)
    else if 'a' <= c <= 'f' then Some(c as int - 87)
    else if 'A' <= c <= 'F' then Some(c as int - 55)
    else None
  }

  /**
   * How `JSON.stringify` writes one character inside a string literal: the
   * quote and the backslash behind a backslash, the five control characters
   * with a short escape by it, the other control characters as `\u00XX`,
   * every other character as it is.
   */
  function EscapeChar(c: char): string {
    if c == '"' then ['\\', '"']
    else if c == '\\' then ['\\', '\\']
    else if c == Backspace then ['\\', 'b']
    else if c == FormFeed then ['\\', 'f']
    else if c == '\n' then ['\\', 'n']
    else if c == '\r' then ['\\', 'r']
    else if c == '\t' then ['\\', 't']
    else if (c as int) < 0x20 then ['\\', 'u', '0', '0', HexDigit(c as int / 16), HexDigit(c as int % 16)]
    else [c]
  }

  /** The body of the string literal `JSON.stringify` writes for `s`. */
  function Escape(s: string): string {
    if s == [] then [] else EscapeChar(s[0]) + Escape(s[1..])
  }

  /** `JSON.stringify(s)` for a string `s`. */
  function Quote(s: string): string {
    "\"" + Escape(s) + "\""
  }

  /**
   * The character an escape sequence stands for, read after its backslash,
   * and the text that follows it. A `\u` escape naming half of a surrogate
   * pair is refused here.
   */
  function ReadEscape(t: string): (r: Option<(char, string)>)
    ensures r.Some? ==> |r.value.1| < |t|
  {
    if t == [] then None
    else if t[0] == '"' || t[0] == '\\' || t[0] == '/' then Some((t[0], t[1..]))
    else if t[0] == 'b' then Some((Backspace, t[1..]))
    else if t[0] == 'f' then Some((FormFeed, t[1..]))
    else if t[0] == 'n' then Some(('\n', t[1..]))
    else if t[0] == 'r' then Some(('\r', t[1..]))
    else if t[0] == 't' then Some(('\t', t[1..]))
    else if t[0] == 'u' && |t| >= 5
      && HexValue(t[1]).Some? && HexValue(t[2]).Some? && HexValue(t[3]).Some? && HexValue(t[4]).Some? then
      var v := ((HexValue(t[1]).value * 16 + HexValue(t[2]).value) * 16 + HexValue(t[3]).value) * 16
        + HexValue(t[4]).value;
      if 0xD800 <= v < 0xE000 then None else Some((v as char, t[5..]))
    else None
  }

  /** A character read in front of the rest of a literal's body. */
  function Prepend(c: char, r: Option<(string, string)>): Option<(string, string)> {
    if r.None? then None else Some(([c] + r.value.0, r.value.1))
  }

  /**
   * `JSON.parse` reading the body of a string literal whose opening quote is
   * already consumed: the value, and the text after the closing quote.
   * Unescaped control characters and unknown escapes are syntax errors.
   */
  function ReadString(s: string): Option<(string, string)>
    decreases |s|
  {
    if s == [] then None
    else if s[0] == '"' then Some(([], s[1..]))
    else if s[0] == '\\' then
      var e := ReadEscape(s[1..]);
      if e.None? then None else Prepend(e.value.0, ReadString(e.value.1))
    else if (s[0] as int) < 0x20 then None
    else Prepend(s[0], ReadString(s[1..]))
  }

  /** A control character written as `\u00XX` reads back as itself. */
  lemma ReadUnicodeEscape(c: char, tail: string)
    requires (c as int) < 0x20
    ensures ReadEscape(['u', '0', '0', HexDigit(c as int / 16), HexDigit(c as int % 16)] + tail) == Some((c, tail))
  {
    var t := ['u', '0', '0', HexDigit(c as int / 16), HexDigit(c as int % 16)] + tail;
    assert t[1] == t[2] == '0' && t[5..] == tail;
    assert HexValue(t[3]) == Some(c as int / 16) && HexValue(t[4]) == Some(c as int % 16);
  }

  /** Each escaped character reads back as itself, in front of whatever the rest reads as. */
  lemma ReadEscapedChar(c: char, tail: string)
    ensures ReadString(EscapeChar(c) + tail) == Prepend(c, ReadString(tail))
  {
    if c == '"' || c == '\\' || c == Backspace || c == FormFeed || c == '\n' || c == '\r' || c == '\t' {
      ReadShortEscape(c, tail);
    } else if (c as int) < 0x20 {
      var s := EscapeChar(c) + tail;
      assert s == ['\\'] + (['u', '0', '0', HexDigit(c as int / 16), HexDigit(c as int % 16)] + tail);
      ReadUnicodeEscape(c, tail);
    } else {
      assert (EscapeChar(c) + tail)[1..] == tail;
    }
  }

  /** The seven characters with a two-character escape. */
  lemma ReadShortEscape(c: char, tail: string)
    requires c == '"' || c == '\\' || c == Backspace || c == FormFeed || c == '\n' || c == '\r' || c == '\t'
    ensures ReadString(EscapeChar(c) + tail) == Prepend(c, ReadString(tail))
  {
    var e := EscapeChar(c);
    assert |e| == 2 && e[0] == '\\';
    assert ReadEscape([e[1]] + tail) == Some((c, tail));
    assert (e + tail)[1..] == [e[1]] + tail;
  }

  /**
   * `JSON.parse` inverts `JSON.stringify` on strings: the escaped body of
   * `v` followed by the closing quote reads back as `v`, with the text after
   * the quote left over.
   */
  lemma {:induction false} ReadEscaped(v: string, rest: string)
    ensures ReadString(Escape(v) + "\"" + rest) == Some((v, rest))
  {
    if v == [] {
      assert Escape(v) + "\"" + rest == ['"'] + rest;
      assert (['"'] + rest)[1..] == rest;
    } else {
      var tail := Escape(v[1..]) + "\"" + rest;
      assert Escape(v) + "\"" + rest == EscapeChar(v[0]) + tail;
      ReadEscapedChar(v[0], tail);
      ReadEscaped(v[1..], rest);
      assert [v[0]] + v[1..] == v;
    }
  }

  /** `JSON.parse(JSON.stringify(s)) === s` for every string `s`. */
  lemma ParseQuote(s: string)
    ensures |Quote(s)| > 0 && Quote(s)[0] == '"' && ReadString(Quote(s)[1..]) == Some((s, []))
  {
    assert Quote(s)[1..] == Escape(s) + "\"" + [];
    ReadEscaped(s, []);
  }
}
