/**
 * The few JavaScript value semantics the plugins lean on: an optional value
 * (a property that may be `undefined`), the truthiness test `if (x)` / `x || y`
 * on such values, and `JSON.stringify` applied to a string.
 */
module Js {

  /** A property that is either present or `undefined`. */
  datatype Option<+T> = None | Some(value: T)

  /** `if (s)` for an optional string: present and not the empty string. */
  predicate Truthy(s: Option<string>) {
    s.Some? && s.value != ""
  }

  /** `if (b)` for an optional boolean. */
  predicate IsTrue(b: Option<bool>) {
    b == Some(true)
  }

  /** `s || fallback` for an optional string. */
  function OrElse(s: Option<string>, fallback: string): (r: string)
    ensures Truthy(s) ==> r == s.value
    ensures !Truthy(s) ==> r == fallback
    ensures fallback != "" ==> r != ""
  {
    if Truthy(s) then s.value else fallback
  }

  // ---------------------------------------------------------------------
  // JSON.stringify on strings
  // ---------------------------------------------------------------------

  const HexDigits: string := "0123456789abcdef"

  /** True for the characters JSON writes as an escape sequence. */
  predicate NeedsEscape(c: char) {
    c == '"' || c == '\\' || (c as int) < 0x20
  }

  /** The JSON text of one character inside a string literal. */
  function EscapeChar(c: char): (e: string)
    ensures |e| >= 1
    ensures !NeedsEscape(c) <==> e == [c]
  {
    if c == '"' then "\\\""
    else if c == '\\' then "\\\\"
    else if c as int == 0x08 then "\\b"
    else if c as int == 0x09 then "\\t"
    else if c as int == 0x0A then "\\n"
    else if c as int == 0x0C then "\\f"
    else if c as int == 0x0D then "\\r"
    else if (c as int) < 0x20 then "\\u00" + [HexDigits[(c as int) / 16], HexDigits[(c as int) % 16]]
    else [c]
  }

  /** The JSON text of the characters of `s`, without the quotes. */
  function Escape(s: string): (e: string)
    ensures |e| >= |s|
  {
    if s == [] then "" else EscapeChar(s[0]) + Escape(s[1..])
  }

  /** `JSON.stringify(s)` for a string `s`: a literal between double quotes, at least as long as `s`. */
  function JsonString(s: string): (r: string)
    ensures |r| >= |s| + 2 && r[0] == '"' && r[|r| - 1] == '"'
  {
    "\"" + Escape(s) + "\""
  }

  /** A string with nothing to escape is written between quotes as it is. */
  lemma {:induction false} JsonStringPlain(s: string)
    requires forall i :: 0 <= i < |s| ==> !NeedsEscape(s[i])
    ensures JsonString(s) == "\"" + s + "\""
  {
    EscapePlain(s);
  }

  lemma {:induction false} EscapePlain(s: string)
    requires forall i :: 0 <= i < |s| ==> !NeedsEscape(s[i])
    ensures Escape(s) == s
  {
    if s != [] {
      EscapePlain(s[1..]);
      assert [s[0]] + s[1..] == s;
    }
  }

  // ---------------------------------------------------------------------
  // Reading a JSON string literal back
  // ---------------------------------------------------------------------

  function HexValue(c: char): Option<nat>
  {
    if '0' <= c <= '9' then Some(c as int - '0' as int)
    else if 'a' <= c <= 'f' then Some(c as int - 'a' as int + 10)
    else if 'A' <= c <= 'F' then Some(c as int - 'A' as int + 10)
    else None
  }

  function Cons(c: char, rest: Option<string>): Option<string>
  {
    if rest.Some? then Some([c] + rest.value) else None
  }

  /** The code point of a `\uXXXX` escape whose four digits are `h`. */
  function CodeUnit(h: string): Option<nat>
    requires |h| == 4
  {
    var a, b, c, d := HexValue(h[0]), HexValue(h[1]), HexValue(h[2]), HexValue(h[3]);
    if a.Some? && b.Some? && c.Some? && d.Some? then
      Some(((a.value * 16 + b.value) * 16 + c.value) * 16 + d.value)
    else None
  }

  /** The characters a JSON string body (between the quotes) stands for, if it is well formed. */
  function Unescape(t: string): Option<string>
    decreases |t|
  {
    if t == [] then Some([])
    else if t[0] == '"' then None
    else if t[0] != '\\' then Cons(t[0], Unescape(t[1..]))
    else if |t| < 2 then None
    else if t[1] == '"' || t[1] == '\\' || t[1] == '/' then Cons(t[1], Unescape(t[2..]))
    else if t[1] == 'b' then Cons(0x08 as char, Unescape(t[2..]))
    else if t[1] == 't' then Cons(0x09 as char, Unescape(t[2..]))
    else if t[1] == 'n' then Cons(0x0A as char, Unescape(t[2..]))
    else if t[1] == 'f' then Cons(0x0C as char, Unescape(t[2..]))
    else if t[1] == 'r' then Cons(0x0D as char, Unescape(t[2..]))
    else if t[1] == 'u' && |t| >= 6 then
      var u := CodeUnit(t[2..6]);
      if u.Some? && (u.value < 0xD800 || 0xE000 <= u.value) && u.value < 0x11_0000 then
        Cons(u.value as char, Unescape(t[6..]))
      else None
    else None
  }

  /** The literal as a whole: a quote, a well-formed body, a quote. */
  function ParseJsonString(t: string): Option<string>
  {
    if |t| >= 2 && t[0] == '"' && t[|t| - 1] == '"' then Unescape(t[1..|t| - 1]) else None
  }

  /** A control character written as `\u00XX` reads back as itself. */
  lemma UnescapeUnicode(c: char, rest: string)
    requires NeedsEscape(c) && c != '"' && c != '\\' && !(c as int in {0x08, 0x09, 0x0A, 0x0C, 0x0D})
    ensures Unescape(EscapeChar(c) + rest) == Cons(c, Unescape(rest))
  {
    var n := c as int;
    var e := EscapeChar(c);
    var t := e + rest;
    assert e == "\\u00" + [HexDigits[n / 16], HexDigits[n % 16]];
    assert t[2..6] == ['0', '0', HexDigits[n / 16], HexDigits[n % 16]];
    assert HexValue(HexDigits[n / 16]) == Some(n / 16) by {
      assert n / 16 <= 1;
    }
    assert HexValue(HexDigits[n % 16]) == Some(n % 16);
    assert CodeUnit(t[2..6]) == Some(n);
    assert t[6..] == rest;
  }

  lemma UnescapeChar(c: char, rest: string)
    ensures Unescape(EscapeChar(c) + rest) == Cons(c, Unescape(rest))
  {
    var t := EscapeChar(c) + rest;
    if NeedsEscape(c) && c != '"' && c != '\\' && !(c as int in {0x08, 0x09, 0x0A, 0x0C, 0x0D}) {
      UnescapeUnicode(c, rest);
    } else if NeedsEscape(c) {
      assert t[2..] == rest;
    } else {
      assert t[1..] == rest;
    }
  }

  lemma {:induction false} UnescapeEscape(s: string)
    ensures Unescape(Escape(s)) == Some(s)
  {
    if s != [] {
      UnescapeEscape(s[1..]);
      UnescapeChar(s[0], Escape(s[1..]));
      assert [s[0]] + s[1..] == s;
    }
  }

  /** `JSON.parse(JSON.stringify(s)) === s`: the literal reads back as the string it was made from. */
  lemma JsonStringRoundTrip(s: string)
    ensures ParseJsonString(JsonString(s)) == Some(s)
  {
    var t := JsonString(s);
    assert t[1..|t| - 1] == Escape(s);
    UnescapeEscape(s);
  }
}
