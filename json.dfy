/**
 * The part of `JSON.stringify` the attestation summary uses: string
 * literals and integers, each with a reader that inverts it.
 */
module Json {
  import opened Wrappers

  /** Lower-case hexadecimal digit, as in `\u001f`. */
  function HexDigit(n: nat): char
    requires n < 16
  {
    if n < 10 then ('0' as int + n) as char else ('a' as int + n - 10) as char
  }

  function HexValue(c: char): Option<nat>
  {
    if '0' <= c <= '9' then Some(c as int - '0' as int)
    else if 'a' <= c <= 'f' then Some(c as int - 'a' as int + 10)
    else if 'A' <= c <= 'F' then Some(c as int - 'A' as int + 10)
    else None
  }

  lemma HexDigitValue(n: nat)
    requires n < 16
    ensures HexValue(HexDigit(n)) == Some(n)
  {
  }

  /**
   * One character of a string as `JSON.stringify` writes it: the quote and
   * the backslash escaped, the five control characters with short escapes
   * as `\b \t \n \f \r`, the other control characters as `\u00XX`, and
   * everything else as itself.
   */
  function EscapeChar(c: char): string
  {
    if c == '"' then "\\\""
    else if c == '\\' then "\\\\"
    else if c == '\U{0008}' then "\\b"
    else if c == '\t' then "\\t"
    else if c == '\n' then "\\n"
    else if c == '\U{000C}' then "\\f"
    else if c == '\r' then "\\r"
    else if (c as int) < 0x20 then "\\u00" + [HexDigit((c as int) / 16), HexDigit((c as int) % 16)]
    else [c]
  }

  function Escape(s: string): string
  {
    if s == [] then "" else EscapeChar(s[0]) + Escape(s[1..])
  }

  /** `JSON.stringify` of a string. */
  function Quote(s: string): string
  {
    "\"" + (Escape(s) + "\"")
  }

  /** The character a two-character escape `\x` stands for. */
  function ShortEscape(x: char): Option<char>
  {
    if x == '"' then Some('"')
    else if x == '\\' then Some('\\')
    else if x == '/' then Some('/')
    else if x == 'b' then Some('\U{0008}')
    else if x == 't' then Some('\t')
    else if x == 'n' then Some('\n')
    else if x == 'f' then Some('\U{000C}')
    else if x == 'r' then Some('\r')
    else None
  }

  /** The value of four hexadecimal digits. */
  function HexQuad(q: string): Option<nat>
    requires |q| == 4
  {
    var a :- HexValue(q[0]);
    var b :- HexValue(q[1]);
    var c :- HexValue(q[2]);
    var d :- HexValue(q[3]);
    Some(((a * 16 + b) * 16 + c) * 16 + d)
  }

  /**
   * The escape sequence `t` starts with (after its backslash): the
   * character it stands for and its length.
   */
  function ReadEscape(t: string): (r: Option<(char, nat)>)
    requires t != [] && t[0] == '\\'
    ensures r.Some? ==> 2 <= r.value.1 <= |t|
  {
    if |t| < 2 then None
    else if t[1] == 'u' then
      if |t| < 6 then None
      else
        var v :- HexQuad(t[2..6]);
        if v < 0xD800 || 0xE000 <= v < 0x11_0000 then Some((v as char, 6)) else None
    else
      var c :- ShortEscape(t[1]);
      Some((c, 2))
  }

  function Prepend(c: char, r: Option<(string, string)>): Option<(string, string)>
  {
    var p :- r;
    Some(([c] + p.0, p.1))
  }

  /**
   * Reads the body of a string literal whose opening quote has been
   * consumed: the decoded text and what follows the closing quote.
   */
  function ReadString(t: string): Option<(string, string)>
    decreases |t|
  {
    if t == [] then None
    else if t[0] == '"' then Some(("", t[1..]))
    else if t[0] == '\\' then
      var e :- ReadEscape(t);
      Prepend(e.0, ReadString(t[e.1..]))
    else if (t[0] as int) < 0x20 then None
    else Prepend(t[0], ReadString(t[1..]))
  }

  /** Reads a whole string literal, quotes included. */
  function ReadQuoted(t: string): Option<(string, string)>
  {
    if t != [] && t[0] == '"' then ReadString(t[1..]) else None
  }

  /** Reading one escaped character back, ahead of any readable rest. */
  lemma ReadEscapedChar(c: char, u: string)
    ensures ReadString(EscapeChar(c) + u) == Prepend(c, ReadString(u))
  {
    var t := EscapeChar(c) + u;
    if c == '"' || c == '\\' || c == '\U{0008}' || c == '\t' || c == '\n' || c == '\U{000C}' || c == '\r' {
      assert ReadEscape(t) == Some((c, 2));
      assert t[2..] == u;
    } else if (c as int) < 0x20 {
      ReadUnicodeEscape(c, u);
      assert t[6..] == u;
    } else {
      assert t[1..] == u;
    }
  }

  /** A `\u00XX` escape reads back as the control character it encodes. */
  lemma ReadUnicodeEscape(c: char, u: string)
    requires (c as int) < 0x20
    ensures var t := "\\u00" + [HexDigit((c as int) / 16), HexDigit((c as int) % 16)] + u;
      ReadEscape(t) == Some((c, 6))
  {
    var hi, lo := (c as int) / 16, (c as int) % 16;
    var t := "\\u00" + [HexDigit(hi), HexDigit(lo)] + u;
    HexDigitValue(hi);
    HexDigitValue(lo);
    assert t[2..6] == ['0', '0', HexDigit(hi), HexDigit(lo)];
    assert HexQuad(t[2..6]) == Some(c as int);
  }

  /** `ReadString` inverts `Escape`: the closing quote ends the text. */
  lemma {:induction false} ReadEscaped(s: string, rest: string)
    ensures ReadString(Escape(s) + ("\"" + rest)) == Some((s, rest))
    decreases |s|
  {
    if s == [] {
      assert Escape(s) + ("\"" + rest) == "\"" + rest;
    } else {
      var u := Escape(s[1..]) + ("\"" + rest);
      EscapeCons(s, "\"" + rest);
      ReadEscaped(s[1..], rest);
      ReadEscapedChar(s[0], u);
      assert Prepend(s[0], Some((s[1..], rest))) == Some(([s[0]] + s[1..], rest));
      assert [s[0]] + s[1..] == s;
    }
  }

  lemma EscapeCons(s: string, x: string)
    requires s != []
    ensures Escape(s) + x == EscapeChar(s[0]) + (Escape(s[1..]) + x)
  {
  }

  /** `ReadQuoted` inverts `Quote`, whatever follows the literal. */
  lemma ReadQuotedString(s: string, rest: string)
    ensures ReadQuoted(Quote(s) + rest) == Some((s, rest))
  {
    var t := Quote(s) + rest;
    assert t[1..] == Escape(s) + ("\"" + rest);
    ReadEscaped(s, rest);
  }

  predicate IsDigit(c: char)
  {
    '0' <= c <= '9'
  }

  function DigitChar(d: nat): char
    requires d < 10
  {
    ('0' as int + d) as char
  }

  /** The decimal digits of `n`, without leading zeros. */
  function NatString(n: nat): (s: string)
    ensures |s| >= 1 && forall k :: 0 <= k < |s| ==> IsDigit(s[k])
    decreases n
  {
    if n < 10 then [DigitChar(n)] else NatString(n / 10) + [DigitChar(n % 10)]
  }

  /** `JSON.stringify` of an integer. */
  function IntString(i: int): string
  {
    if i < 0 then "-" + NatString(-i) else NatString(i)
  }

  /** The number a run of decimal digits stands for. */
  function DigitsValue(d: string): nat
    requires forall k :: 0 <= k < |d| ==> IsDigit(d[k])
    decreases |d|
  {
    if d == [] then 0
    else
      assert IsDigit(d[|d| - 1]);
      DigitsValue(d[..|d| - 1]) * 10 + (d[|d| - 1] as int - '0' as int)
  }

  /** The length of the run of digits `t` starts with. */
  function DigitRun(t: string): (k: nat)
    ensures k <= |t|
    ensures forall j :: 0 <= j < k ==> IsDigit(t[j])
    ensures k == |t| || !IsDigit(t[k])
    decreases |t|
  {
    if t != [] && IsDigit(t[0]) then 1 + DigitRun(t[1..]) else 0
  }

  function ReadNat(t: string): Option<(nat, string)>
  {
    var k := DigitRun(t);
    if k == 0 then None else Some((DigitsValue(t[..k]), t[k..]))
  }

  /** Reads an optionally signed integer and returns what follows it. */
  function ReadInt(t: string): Option<(int, string)>
  {
    if t != [] && t[0] == '-' then
      var p :- ReadNat(t[1..]);
      var magnitude: int := p.0;
      Some((-magnitude, p.1))
    else ReadNat(t)
  }

  lemma {:induction false} NatStringValue(n: nat)
    ensures DigitsValue(NatString(n)) == n
    decreases n
  {
    if n >= 10 {
      var d := NatString(n / 10);
      NatStringValue(n / 10);
      assert (d + [DigitChar(n % 10)])[..|d|] == d;
    }
  }

  lemma {:induction false} DigitRunOf(d: string, rest: string)
    requires forall k :: 0 <= k < |d| ==> IsDigit(d[k])
    requires rest == [] || !IsDigit(rest[0])
    ensures DigitRun(d + rest) == |d|
    decreases |d|
  {
    if d != [] {
      assert (d + rest)[1..] == d[1..] + rest;
      DigitRunOf(d[1..], rest);
    } else {
      assert d + rest == rest;
    }
  }

  lemma ReadNatString(n: nat, rest: string)
    requires rest == [] || !IsDigit(rest[0])
    ensures ReadNat(NatString(n) + rest) == Some((n, rest))
  {
    var d := NatString(n);
    DigitRunOf(d, rest);
    assert (d + rest)[..|d|] == d && (d + rest)[|d|..] == rest;
    NatStringValue(n);
  }

  lemma ReadSigned(n: nat, rest: string)
    requires rest == [] || !IsDigit(rest[0])
    ensures ReadInt("-" + (NatString(n) + rest)) == Some((-(n as int), rest))
  {
    var u := NatString(n) + rest;
    ReadNatString(n, rest);
    assert ("-" + u)[1..] == u;
  }

  lemma ReadUnsigned(n: nat, rest: string)
    requires rest == [] || !IsDigit(rest[0])
    ensures ReadInt(NatString(n) + rest) == Some((n, rest))
  {
    var t := NatString(n) + rest;
    assert t[0] == NatString(n)[0];
    ReadNatString(n, rest);
  }

  /** `ReadInt` inverts `IntString` when no digit follows. */
  lemma ReadIntString(i: int, rest: string)
    requires rest == [] || !IsDigit(rest[0])
    ensures ReadInt(IntString(i) + rest) == Some((i, rest))
  {
    if i < 0 {
      ReadSigned(-i, rest);
      assert IntString(i) + rest == "-" + (NatString(-i) + rest);
    } else {
      ReadUnsigned(i, rest);
    }
  }

}
