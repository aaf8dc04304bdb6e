/** The part of `JSON.stringify` / `JSON.parse` the session store needs: string
    literals with the escapes `JSON.stringify` produces, integers, and flat
    objects of string and integer members read back key by key. */
module Json {
  import opened Wrappers
  import Js

  predicate IsDigit(c: char) {
    '0' <= c <= '9'
  }

  function HexDigit(d: nat): char
    requires d < 16
  {
    if d < 10 then (48 + d) as char else (87 + d) as char
  }

  function HexValue(c: char): Option<nat> {
    if '0' <= c <= '9' then Some(c as int - 48)
    else if 'a' <= c <= 'f' then Some(c as int - 87)
    else if 'A' <= c <= 'F' then Some(c as int - 55)
    else None
  }

  /** How `JSON.stringify` writes one character inside a string literal. */
  function EscapeChar(c: char): string {
    if c == '"' then "\\\""
    else if c == '\\' then "\\\\"
    else if c == '\U{8}' then "\\b"
    else if c == '\U{C}' then "\\f"
    else if c == '\n' then "\\n"
    else if c == '\r' then "\\r"
    else if c == '\t' then "\\t"
    else if c < ' ' then "\\u00" + [HexDigit(c as int / 16), HexDigit(c as int % 16)]
    else [c]
  }

  function Escape(s: string): string
    decreases |s|
  {
    if |s| == 0 then "" else EscapeChar(s[0]) + Escape(s[1..])
  }

  /** `JSON.stringify` of a string: the escaped text between double quotes. */
  function Quote(s: string): string {
    "\"" + Escape(s) + "\""
  }

  /** Reads a string body up to its closing quote; gives the decoded text and what follows the quote. */
  function Unescape(t: string): Option<(string, string)>
    decreases |t|
  {
    if |t| == 0 then None
    else if t[0] == '"' then Some(("", t[1..]))
    else if t[0] < ' ' then None
    else if t[0] != '\\' then
      match Unescape(t[1..])
      case Some((s, rest)) => Some(([t[0]] + s, rest))
      case None => None
    else if |t| < 2 then None
    else
      var (c, used) :=
        if t[1] == 'u' && |t| >= 6 then UnicodeEscape(t[2..6])
        else (SimpleEscape(t[1]), 2);
      match c
      case None => None
      case Some(ch) =>
        match Unescape(t[used..])
        case Some((s, rest)) => Some(([ch] + s, rest))
        case None => None
  }

  /** The character a two-character escape `\x` stands for. */
  function SimpleEscape(x: char): Option<char> {
    if x == '"' then Some('"')
    else if x == '\\' then Some('\\')
    else if x == '/' then Some('/')
    else if x == 'b' then Some('\U{8}')
    else if x == 'f' then Some('\U{C}')
    else if x == 'n' then Some('\n')
    else if x == 'r' then Some('\r')
    else if x == 't' then Some('\t')
    else None
  }

  /** The character of a `\uXXXX` escape; surrogate halves are not characters in this model. */
  function UnicodeEscape(h: string): (Option<char>, nat)
    requires |h| == 4
  {
    match (HexValue(h[0]), HexValue(h[1]), HexValue(h[2]), HexValue(h[3]))
    case (Some(a), Some(b), Some(c), Some(d)) =>
      var code := ((a * 16 + b) * 16 + c) * 16 + d;
      if 0xD800 <= code < 0xE000 then (None, 6) else (Some(code as char), 6)
    case _ => (None, 6)
  }

  /** Reads a string literal: an opening quote, the body and the closing quote. */
  function ParseString(t: string): Option<(string, string)> {
    if |t| > 0 && t[0] == '"' then Unescape(t[1..]) else None
  }

  /** The `\u00XX` escape of a control character names that character. */
  lemma ControlEscape(c: char)
    requires c < ' '
    ensures UnicodeEscape(['0', '0', HexDigit(c as int / 16), HexDigit(c as int % 16)]) == (Some(c), 6)
  {
    var hi, lo := c as int / 16, c as int % 16;
    assert hi < 2;
    assert HexValue(HexDigit(hi)) == Some(hi);
    assert HexValue(HexDigit(lo)) == Some(lo);
  }

  /** A `\u00XX` escape followed by `t` decodes to its character and then `t`. */
  lemma UnescapeControl(c: char, t: string)
    requires c < ' ' && c != '\U{8}' && c != '\U{C}' && c != '\n' && c != '\r' && c != '\t'
    ensures Unescape(EscapeChar(c) + t) ==
      match Unescape(t)
      case Some((s, rest)) => Some(([c] + s, rest))
      case None => None
  {
    var e := EscapeChar(c) + t;
    assert e[2..6] == ['0', '0', HexDigit(c as int / 16), HexDigit(c as int % 16)];
    assert e[6..] == t;
    ControlEscape(c);
  }

  /** A two-character escape followed by `t` decodes to its character and then `t`. */
  lemma UnescapeShort(c: char, t: string)
    requires c == '"' || c == '\\' || c == '\U{8}' || c == '\U{C}' || c == '\n' || c == '\r' || c == '\t'
    ensures Unescape(EscapeChar(c) + t) ==
      match Unescape(t)
      case Some((s, rest)) => Some(([c] + s, rest))
      case None => None
  {
    var e := EscapeChar(c) + t;
    assert e[2..] == t;
  }

  /** One character's escape followed by more input decodes to that character followed by the rest. */
  lemma UnescapeChar(c: char, t: string)
    ensures Unescape(EscapeChar(c) + t) ==
      match Unescape(t)
      case Some((s, rest)) => Some(([c] + s, rest))
      case None => None
  {
    if c == '"' || c == '\\' || c == '\U{8}' || c == '\U{C}' || c == '\n' || c == '\r' || c == '\t' {
      UnescapeShort(c, t);
    } else if c < ' ' {
      UnescapeControl(c, t);
    } else {
      var e := EscapeChar(c) + t;
      assert e[1..] == t;
    }
  }

  /** Whatever `JSON.stringify` writes for a string, reading it back gives the string and the rest. */
  lemma {:induction false} UnescapeEscape(s: string, rest: string)
    ensures Unescape(Escape(s) + "\"" + rest) == Some((s, rest))
    decreases |s|
  {
    if |s| == 0 {
      assert Escape(s) + "\"" + rest == "\"" + rest;
    } else {
      assert Escape(s) + "\"" + rest == EscapeChar(s[0]) + (Escape(s[1..]) + "\"" + rest);
      UnescapeChar(s[0], Escape(s[1..]) + "\"" + rest);
      UnescapeEscape(s[1..], rest);
      assert [s[0]] + s[1..] == s;
    }
  }

  lemma QuoteRoundTrip(s: string, rest: string)
    ensures ParseString(Quote(s) + rest) == Some((s, rest))
  {
    assert (Quote(s) + rest)[1..] == Escape(s) + "\"" + rest;
    UnescapeEscape(s, rest);
  }

  /** Number of leading decimal digits. */
  function LeadingDigits(t: string): (k: nat)
    ensures k <= |t|
    decreases |t|
  {
    if |t| > 0 && IsDigit(t[0]) then 1 + LeadingDigits(t[1..]) else 0
  }

  /** The value of a string of decimal digits. */
  function DigitsValue(d: string): nat
    requires forall i :: 0 <= i < |d| ==> IsDigit(d[i])
    decreases |d|
  {
    if |d| == 0 then 0
    else
      assert IsDigit(d[|d| - 1]);
      DigitsValue(d[..|d| - 1]) * 10 + (d[|d| - 1] as int - 48)
  }

  /** Reads an optionally negative integer. */
  function ParseInt(t: string): Option<(int, string)> {
    var neg := |t| > 0 && t[0] == '-';
    var u := if neg then t[1..] else t;
    var k := LeadingDigits(u);
    if k == 0 then None
    else
      assert forall i :: 0 <= i < k ==> IsDigit(u[..k][i]) by { LeadingDigitsAreDigits(u); }
      var m: int := DigitsValue(u[..k]);
      var v: int := if neg then 0 - m else m;
      Some((v, u[k..]))
  }

  lemma {:induction false} LeadingDigitsAreDigits(t: string)
    ensures forall i :: 0 <= i < LeadingDigits(t) ==> IsDigit(t[i])
    decreases |t|
  {
    if |t| > 0 && IsDigit(t[0]) {
      LeadingDigitsAreDigits(t[1..]);
    }
  }

  /** `NatToString` writes only digits, at least one, and they read back as the number. */
  lemma {:induction false} NatDigits(n: nat)
    ensures |Js.NatToString(n)| > 0
    ensures forall i :: 0 <= i < |Js.NatToString(n)| ==> IsDigit(Js.NatToString(n)[i])
    ensures DigitsValue(Js.NatToString(n)) == n
    decreases n
  {
    if n >= 10 {
      NatDigits(n / 10);
      var d := Js.NatToString(n);
      assert d[..|d| - 1] == Js.NatToString(n / 10);
    }
  }

  lemma {:induction false} LeadingDigitsOfDigits(d: string, rest: string)
    requires forall i :: 0 <= i < |d| ==> IsDigit(d[i])
    requires |rest| == 0 || !IsDigit(rest[0])
    ensures LeadingDigits(d + rest) == |d|
    decreases |d|
  {
    if |d| == 0 {
      assert d + rest == rest;
    } else {
      assert (d + rest)[1..] == d[1..] + rest;
      LeadingDigitsOfDigits(d[1..], rest);
    }
  }

  /** An integer written by `String(n)` reads back as `n`, when no digit follows it. */
  lemma IntRoundTrip(n: int, rest: string)
    requires |rest| == 0 || !IsDigit(rest[0])
    ensures ParseInt(Js.IntToString(n) + rest) == Some((n, rest))
  {
    var m: nat := if n < 0 then -n else n;
    var d := Js.NatToString(m);
    NatDigits(m);
    LeadingDigitsOfDigits(d, rest);
    var t := Js.IntToString(n) + rest;
    var u := if n < 0 then t[1..] else t;
    assert u == d + rest;
    assert u[..|d|] == d;
    assert u[|d|..] == rest;
  }

  /** `t` starts with the literal `lit`; gives what follows. */
  function Expect(t: string, lit: string): Option<string> {
    if Js.StartsWith(t, lit) then Some(t[|lit|..]) else None
  }

  lemma ExpectLiteral(lit: string, rest: string)
    ensures Expect(lit + rest, lit) == Some(rest)
  {
    assert (lit + rest)[..|lit|] == lit;
    assert (lit + rest)[|lit|..] == rest;
  }
}
