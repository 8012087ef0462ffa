/**
 * Byte strings as text: the ASCII part of Rust's `str::as_bytes` and
 * `str::from_utf8`, and the decimal rendering `{}` gives an unsigned integer.
 */
module Text {
  import opened Wrappers
  import opened ByteOrder

  predicate IsAsciiChar(c: char) {
    c as int < 0x80
  }

  predicate IsAsciiByte(b: u8) {
    b < 0x80
  }

  /** The bytes of an ASCII string (`s.as_bytes()`): one byte per character, its code. */
  function AsciiBytes(s: string): (r: seq<u8>)
    requires forall i | 0 <= i < |s| :: IsAsciiChar(s[i])
    ensures |r| == |s|
    ensures forall i | 0 <= i < |r| :: IsAsciiByte(r[i]) && r[i] == s[i] as int
  {
    if s == [] then []
    else
      assert IsAsciiChar(s[0]);
      var code: u8 := s[0] as int;
      [code] + AsciiBytes(s[1..])
  }

  /** The characters whose codes are the bytes `b`. */
  function Chars(b: seq<u8>): (r: string)
    ensures |r| == |b|
    ensures forall i | 0 <= i < |b| :: r[i] as int == b[i]
  {
    if b == [] then [] else [b[0] as char] + Chars(b[1..])
  }

  /** `str::from_utf8` on bytes that are all ASCII; any other byte is refused. */
  function AsciiText(b: seq<u8>): (r: Option<string>)
    ensures r.Some? <==> forall i | 0 <= i < |b| :: IsAsciiByte(b[i])
    ensures r.Some? ==> |r.value| == |b| && forall i | 0 <= i < |b| :: IsAsciiChar(r.value[i])
    ensures r.Some? ==> AsciiBytes(r.value) == b
  {
    if forall i | 0 <= i < |b| :: IsAsciiByte(b[i]) then Some(Chars(b)) else None
  }

  /** Reading back the bytes of an ASCII string gives the string. */
  lemma AsciiTextOfBytes(s: string)
    requires forall i | 0 <= i < |s| :: IsAsciiChar(s[i])
    ensures AsciiText(AsciiBytes(s)) == Some(s)
  {
    var b := AsciiBytes(s);
    var t := Chars(b);
    assert AsciiText(b) == Some(t);
    forall i | 0 <= i < |s|
      ensures t[i] == s[i]
    {
      assert t[i] as int == b[i] == s[i] as int;
    }
    assert t == s;
  }

  predicate IsDigit(c: char) {
    '0' <= c <= '9'
  }

  function DigitValue(c: char): (d: nat)
    requires IsDigit(c)
    ensures d < 10
  {
    c as int - '0' as int
  }

  function DigitChar(d: nat): (c: char)
    requires d < 10
    ensures IsDigit(c) && DigitValue(c) == d
  {
    ('0' as int + d) as char
  }

  /** Decimal rendering of an unsigned integer, as Rust's `{}` prints a `usize`. */
  function Decimal(n: nat): (r: string)
    ensures |r| >= 1 && forall i | 0 <= i < |r| :: IsDigit(r[i])
    ensures |r| > 1 ==> r[0] != '0'
  {
    if n < 10 then [DigitChar(n)] else Decimal(n / 10) + [DigitChar(n % 10)]
  }

  /** The number a string of decimal digits denotes. */
  function DecimalValue(s: string): nat
    requires forall i | 0 <= i < |s| :: IsDigit(s[i])
  {
    if s == [] then 0
    else DecimalValue(s[..|s| - 1]) * 10 + DigitValue(s[|s| - 1])
  }

  /** Reading back a rendered number gives the number. */
  lemma {:induction false} DecimalRoundTrip(n: nat)
    ensures DecimalValue(Decimal(n)) == n
  {
    var r := Decimal(n);
    if n >= 10 {
      DecimalRoundTrip(n / 10);
      assert r[..|r| - 1] == Decimal(n / 10);
    }
  }
}
