/** The parts of `JSON.stringify` and `JSON.parse` that the daily challenge
    record passes through: strings, integers and booleans. Each reader
    takes the text from the start of a value and gives back the value with
    the text after it. */
module Json {
  import opened Wrappers
  import opened Text

  /** A lower-case hexadecimal digit, as `JSON.stringify` writes them. */
  function HexDigit(d: nat): (c: char)
    requires d < 16
  {
    if d < 10 then ('0' as int + d) as char else ('a' as int + d - 10) as char
  }

  /** The value of a hexadecimal digit of either case. */
  function HexValue(c: char): (r: Option<nat>)
    ensures r.Some? ==> r.value < 16
  {
    if '0' <= c <= '9' then Some(c as int - '0' as int)
    else if 'a' <= c <= 'f' then Some(c as int - 'a' as int + 10)
    else if 'A' <= c <= 'F' then Some(c as int - 'A' as int + 10)
    else None
  }

  lemma HexDigitValue(d: nat)
    requires d < 16
    ensures HexValue(HexDigit(d)) == Some(d)
  {
  }

  /** Four hexadecimal digits, the code unit of a `\u` escape. */
  function Hex4(h: string): (r: Option<nat>)
    requires |h| == 4
    ensures r.Some? ==> r.value < 0x10000
  {
    match (HexValue(h[0]), HexValue(h[1]), HexValue(h[2]), HexValue(h[3]))
    case (Some(a), Some(b), Some(c), Some(d)) => Some(((a * 16 + b) * 16 + c) * 16 + d)
    case _ => None
  }

  /** How `JSON.stringify` writes one character inside a string. */
  function EscapeChar(c: char): string {
    if c == '"' then ['\\', '"']
    else if c == '\\' then ['\\', '\\']
    else if c == '\U{8}' then ['\\', 'b']
    else if c == '\U{C}' then ['\\', 'f']
    else if c == '\n' then ['\\', 'n']
    else if c == '\r' then ['\\', 'r']
    else if c == '\t' then ['\\', 't']
    else if c < ' ' then ['\\', 'u', '0', '0', HexDigit(c as int / 16), HexDigit(c as int % 16)]
    else [c]
  }

  function Escape(s: string): string {
    if s == [] then [] else EscapeChar(s[0]) + Escape(s[1..])
  }

  /** `JSON.stringify` of a string. */
  function Quote(s: string): string {
    ['"'] + Escape(s) + ['"']
  }

  /** The character an escape stands for (`e` follows the backslash) and
      how many characters of `e` it takes. A `\u` escape of half a
      surrogate pair has no character of its own and is refused. */
  function Unescape(e: string): (r: Option<(char, nat)>)
    ensures r.Some? ==> 1 <= r.value.1 <= |e|
  {
    if e == [] then None
    else if e[0] == '"' then Some(('"', 1))
    else if e[0] == '\\' then Some(('\\', 1))
    else if e[0] == '/' then Some(('/', 1))
    else if e[0] == 'b' then Some(('\U{8}', 1))
    else if e[0] == 'f' then Some(('\U{C}', 1))
    else if e[0] == 'n' then Some(('\n', 1))
    else if e[0] == 'r' then Some(('\r', 1))
    else if e[0] == 't' then Some(('\t', 1))
    else if e[0] == 'u' && |e| >= 5 then
      match Hex4(e[1..5])
      case Some(v) => if 0xD800 <= v < 0xE000 then None else Some((v as char, 5))
      case None => None
    else None
  }

  function Prepend(c: char, o: Option<(string, string)>): Option<(string, string)> {
    match o
    case None => None
    case Some((v, rest)) => Some(([c] + v, rest))
  }

  /** The characters of a string up to its closing quote, and what follows
      that quote. A raw control character is refused. */
  function ParseStringBody(s: string): Option<(string, string)>
    decreases |s|
  {
    if s == [] then None
    else if s[0] == '"' then Some(([], s[1..]))
    else if s[0] == '\\' then
      match Unescape(s[1..])
      case None => None
      case Some((c, n)) => Prepend(c, ParseStringBody(s[1 + n..]))
    else if s[0] < ' ' then None
    else Prepend(s[0], ParseStringBody(s[1..]))
  }

  /** A string value. */
  function ParseString(s: string): Option<(string, string)> {
    if |s| > 0 && s[0] == '"' then ParseStringBody(s[1..]) else None
  }

  /** The four digits written for a control character read back as its
      code. */
  lemma Hex4Control(c: char)
    requires c < ' '
    ensures Hex4(['0', '0', HexDigit(c as int / 16), HexDigit(c as int % 16)]) == Some(c as int)
  {
    var hi, lo := c as int / 16, c as int % 16;
    var h := ['0', '0', HexDigit(hi), HexDigit(lo)];
    assert h[0] == '0' && h[1] == '0' && h[2] == HexDigit(hi) && h[3] == HexDigit(lo);
    assert HexValue('0') == Some(0);
    HexDigitValue(hi);
    HexDigitValue(lo);
    assert hi * 16 + lo == c as int;
  }

  /** A control character without a short escape is written as `\u00`
      and two hexadecimal digits, which read back as that character. */
  lemma ControlEscapeStep(c: char, t: string)
    requires c < ' ' && c != '\U{8}' && c != '\U{C}' && c != '\n' && c != '\r' && c != '\t'
    ensures ParseStringBody(EscapeChar(c) + t) == Prepend(c, ParseStringBody(t))
  {
    var h := ['0', '0', HexDigit(c as int / 16), HexDigit(c as int % 16)];
    var s := EscapeChar(c) + t;
    assert EscapeChar(c) == ['\\', 'u'] + h;
    var e := s[1..];
    assert e[0] == 'u' && |e| >= 5 && e[1..5] == h;
    Hex4Control(c);
    assert Unescape(e) == Some((c, 5));
    assert s[0] == '\\' && s[6..] == t;
  }

  /** Reading one written character takes exactly its escape. */
  lemma EscapeCharStep(c: char, t: string)
    ensures ParseStringBody(EscapeChar(c) + t) == Prepend(c, ParseStringBody(t))
  {
    var s := EscapeChar(c) + t;
    if c == '"' || c == '\\' || c == '\U{8}' || c == '\U{C}' || c == '\n' || c == '\r' || c == '\t' {
      assert s[0] == '\\' && s[1..][0] == s[1] && s[2..] == t;
    } else if c < ' ' {
      ControlEscapeStep(c, t);
    } else {
      assert s[0] == c && s[1..] == t;
    }
  }

  /** Reading back a written string gives the string and the text after
      its closing quote. */
  lemma {:induction false} ParseEscaped(s: string, rest: string)
    ensures ParseStringBody(Escape(s) + ['"'] + rest) == Some((s, rest))
    decreases |s|
  {
    if s == [] {
      assert Escape(s) + ['"'] + rest == ['"'] + rest;
    } else {
      var tail := Escape(s[1..]) + ['"'] + rest;
      assert Escape(s) + ['"'] + rest == EscapeChar(s[0]) + tail;
      EscapeCharStep(s[0], tail);
      ParseEscaped(s[1..], rest);
      assert [s[0]] + s[1..] == s;
    }
  }

  /** The round trip for a string value. */
  lemma QuoteRoundTrip(s: string, rest: string)
    ensures ParseString(Quote(s) + rest) == Some((s, rest))
  {
    var w := Quote(s) + rest;
    assert w[1..] == Escape(s) + ['"'] + rest;
    ParseEscaped(s, rest);
  }

  /** The length of the run of digits that starts `s`. */
  function DigitRun(s: string): (n: nat)
    ensures n <= |s|
    ensures forall i :: 0 <= i < n ==> IsDigit(s[i])
    ensures n < |s| ==> !IsDigit(s[n])
  {
    if s == [] || !IsDigit(s[0]) then 0 else 1 + DigitRun(s[1..])
  }

  /** A natural number without leading zeros. */
  function ParseNat(s: string): Option<(nat, string)> {
    var n := DigitRun(s);
    if n == 0 || (n > 1 && s[0] == '0') then None else Some((DigitsValue(s[..n]), s[n..]))
  }

  /** An integer, as `JSON.stringify` writes integer-valued numbers. */
  function ParseInt(s: string): Option<(int, string)> {
    if |s| > 0 && s[0] == '-' then
      match ParseNat(s[1..])
      case None => None
      case Some((v, rest)) => Some((-(v as int), rest))
    else ParseNat(s)
  }

  lemma {:induction false} DigitRunOf(d: string, rest: string)
    requires forall i :: 0 <= i < |d| ==> IsDigit(d[i])
    requires rest == [] || !IsDigit(rest[0])
    ensures DigitRun(d + rest) == |d|
    decreases |d|
  {
    if d != [] {
      assert (d + rest)[1..] == d[1..] + rest;
      DigitRunOf(d[1..], rest);
    }
  }

  lemma NatRoundTrip(n: nat, rest: string)
    requires rest == [] || !IsDigit(rest[0])
    ensures ParseNat(NatToString(n) + rest) == Some((n, rest))
  {
    var d := NatToString(n);
    DigitRunOf(d, rest);
    assert (d + rest)[..|d|] == d && (d + rest)[|d|..] == rest;
    NatToStringValue(n);
    NatToStringNoLeadingZero(n);
  }

  /** A negative integer is a minus sign and the digits of its magnitude. */
  lemma NegativeRoundTrip(i: int, rest: string)
    requires i < 0
    requires rest == [] || !IsDigit(rest[0])
    ensures ParseInt(IntToString(i) + rest) == Some((i, rest))
  {
    var d := NatToString(-i);
    var w := ['-'] + (d + rest);
    assert IntToString(i) == ['-'] + d;
    assert IntToString(i) + rest == w;
    assert w[1..] == d + rest;
    NatRoundTrip(-i, rest);
    assert ParseNat(w[1..]) == Some((-i, rest));
  }

  /** The round trip for an integer, when what follows is not a digit. */
  lemma IntRoundTrip(i: int, rest: string)
    requires rest == [] || !IsDigit(rest[0])
    ensures ParseInt(IntToString(i) + rest) == Some((i, rest))
  {
    if i < 0 {
      NegativeRoundTrip(i, rest);
    } else {
      var d := NatToString(i);
      assert IntToString(i) + rest == d + rest;
      assert IsDigit(d[0]) && (d + rest)[0] == d[0];
      NatRoundTrip(i, rest);
    }
  }

  /** `JSON.stringify` of a boolean. */
  function BoolText(b: bool): string {
    if b then "true" else "false"
  }

  function ParseBool(s: string): Option<(bool, string)> {
    if StartsWith(s, "true") then Some((true, s[4..]))
    else if StartsWith(s, "false") then Some((false, s[5..]))
    else None
  }

  lemma BoolRoundTrip(b: bool, rest: string)
    ensures ParseBool(BoolText(b) + rest) == Some((b, rest))
  {
    var w := BoolText(b) + rest;
    if b {
      assert w[..4] == "true" && w[4..] == rest;
    } else {
      assert w[..4] != "true" by { assert w[0] == 'f'; }
      assert w[..5] == "false" && w[5..] == rest;
    }
  }

  /** The text after a fixed piece of punctuation. */
  function Expect(s: string, lit: string): Option<string> {
    if StartsWith(s, lit) then Some(s[|lit|..]) else None
  }

  lemma ExpectConcat(lit: string, rest: string)
    ensures Expect(lit + rest, lit) == Some(rest)
  {
    assert (lit + rest)[..|lit|] == lit && (lit + rest)[|lit|..] == rest;
  }
}
