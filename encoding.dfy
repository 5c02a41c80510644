/**
 * The three text encodings the signer relies on: decimal rendering of
 * integers (Rust's `to_string` on `i64`/`u64`/`u32`), lowercase Base16
 * (section 8 of RFC 4648, as the `hex` crate writes it) and UTF-8
 * (`str::as_bytes`).
 */
module Encoding {
  import opened Wrappers

  type byte = b: int | 0 <= b < 256

  // ---------------------------------------------------------------------
  // Machine integer ranges used by the source's fields and parameters
  // ---------------------------------------------------------------------

  type I32 = x: int | -0x8000_0000 <= x < 0x8000_0000
  type I64 = x: int | -0x8000_0000_0000_0000 <= x < 0x8000_0000_0000_0000
  type U32 = x: int | 0 <= x < 0x1_0000_0000
  type U64 = x: int | 0 <= x < 0x1_0000_0000_0000_0000

  // ---------------------------------------------------------------------
  // Decimal
  // ---------------------------------------------------------------------

  predicate IsDigit(c: char) { '0' <= c <= '9' }

  predicate AllDigits(s: string) { forall i :: 0 <= i < |s| ==> IsDigit(s[i]) }

  function DigitChar(d: nat): (c: char)
    requires d < 10
    ensures IsDigit(c) && (c as int) - ('0' as int) == d
  {
    (('0' as int) + d) as char
  }

  function DigitValue(c: char): (d: nat)
    requires IsDigit(c)
    ensures d < 10 && DigitChar(d) == c
  {
    (c as int) - ('0' as int)
  }

  /** Shortest decimal rendering of a natural number: no sign, no leading zero. */
  function NatToDecimal(n: nat): (s: string)
    ensures 1 <= |s|
    ensures AllDigits(s)
    ensures s[0] == '0' ==> n == 0
  {
    if n < 10 then [DigitChar(n)] else NatToDecimal(n / 10) + [DigitChar(n % 10)]
  }

  /** The value a string of decimal digits denotes. */
  function DecimalValue(s: string): nat
    requires AllDigits(s)
  {
    if s == [] then 0 else DecimalValue(s[..|s| - 1]) * 10 + DigitValue(s[|s| - 1])
  }

  lemma {:induction false} DecimalRoundTrip(n: nat)
    ensures DecimalValue(NatToDecimal(n)) == n
  {
    if n >= 10 {
      var s := NatToDecimal(n);
      assert s[..|s| - 1] == NatToDecimal(n / 10);
      DecimalRoundTrip(n / 10);
    }
  }

  /** Rust's `Display` for signed integers: a leading '-' for negative values only. */
  function IntToDecimal(x: int): (s: string)
    ensures 1 <= |s|
    ensures x >= 0 ==> s == NatToDecimal(x)
    ensures x < 0 ==> s[0] == '-' && s[1..] == NatToDecimal(-x)
  {
    if x < 0 then "-" + NatToDecimal(-x) else NatToDecimal(x)
  }

  predicate IsDecimalChar(c: char) { IsDigit(c) || c == '-' }

  /** Parses what `IntToDecimal` renders; `None` on anything else. */
  function ParseInt(s: string): Option<int>
  {
    if |s| >= 2 && s[0] == '-' && AllDigits(s[1..]) then Some(-(DecimalValue(s[1..]) as int))
    else if 1 <= |s| && AllDigits(s) then Some(DecimalValue(s))
    else None
  }

  lemma IntDecimalRoundTrip(x: int)
    ensures ParseInt(IntToDecimal(x)) == Some(x)
  {
    var s := IntToDecimal(x);
    if x < 0 {
      DecimalRoundTrip(-x);
      assert s[1..] == NatToDecimal(-x);
    } else {
      DecimalRoundTrip(x);
      assert !IsDigit('-');
    }
  }

  /** Distinct integers have distinct renderings. */
  lemma IntDecimalInjective(x: int, y: int)
    ensures IntToDecimal(x) == IntToDecimal(y) ==> x == y
  {
    IntDecimalRoundTrip(x);
    IntDecimalRoundTrip(y);
  }

  /** A rendering holds only digits and the minus sign. */
  lemma IntToDecimalChars(x: int)
    ensures forall i :: 0 <= i < |IntToDecimal(x)| ==> IsDecimalChar(IntToDecimal(x)[i])
  {
  }

  // ---------------------------------------------------------------------
  // Base16, lowercase
  // ---------------------------------------------------------------------

  predicate IsLowerHex(c: char) { ('0' <= c <= '9') || ('a' <= c <= 'f') }

  /** The digit of a nibble, from the alphabet 0123456789abcdef. */
  function HexDigit(d: nat): (c: char)
    requires d < 16
    ensures IsLowerHex(c)
  {
    if d < 10 then (('0' as int) + d) as char else (('a' as int) + d - 10) as char
  }

  function HexValue(c: char): (v: nat)
    requires IsLowerHex(c)
    ensures v < 16 && HexDigit(v) == c
  {
    if c <= '9' then (c as int) - ('0' as int) else (c as int) - ('a' as int) + 10
  }

  /** Two characters per byte, high nibble first, from a lowercase alphabet. */
  function Hex(bs: seq<byte>): (s: string)
    ensures |s| == 2 * |bs|
    ensures forall i :: 0 <= i < |s| ==> IsLowerHex(s[i])
  {
    if bs == [] then []
    else [HexDigit(bs[0] / 16), HexDigit(bs[0] % 16)] + Hex(bs[1..])
  }

  /** Decoding of lowercase Base16: `None` on an odd length or a character outside 0-9a-f. */
  function Unhex(s: string): Option<seq<byte>>
  {
    if s == [] then Some([])
    else if |s| < 2 || !IsLowerHex(s[0]) || !IsLowerHex(s[1]) then None
    else match Unhex(s[2..])
      case None => None
      case Some(rest) => Some([HexValue(s[0]) * 16 + HexValue(s[1]) as byte] + rest)
  }

  lemma {:induction false} HexRoundTrip(bs: seq<byte>)
    ensures Unhex(Hex(bs)) == Some(bs)
  {
    if bs != [] {
      var s := Hex(bs);
      assert s[2..] == Hex(bs[1..]);
      HexRoundTrip(bs[1..]);
      assert HexValue(HexDigit(bs[0] / 16)) == bs[0] / 16;
      assert HexValue(HexDigit(bs[0] % 16)) == bs[0] % 16;
      assert [bs[0]] + bs[1..] == bs;
    }
  }

  /** Base16 encoding loses nothing: distinct byte strings have distinct encodings. */
  lemma HexInjective(a: seq<byte>, b: seq<byte>)
    ensures Hex(a) == Hex(b) ==> a == b
  {
    HexRoundTrip(a);
    HexRoundTrip(b);
  }

  // ---------------------------------------------------------------------
  // UTF-8
  // ---------------------------------------------------------------------

  /** The UTF-8 encoding of one scalar value: 1 to 4 bytes. */
  function EncodeChar(c: char): (bs: seq<byte>)
    ensures 1 <= |bs| <= 4
    ensures (c as int) < 0x80 <==> |bs| == 1
    ensures |bs| == 1 ==> bs[0] == c as int
    ensures |bs| > 1 ==> forall i :: 0 <= i < |bs| ==> bs[i] >= 0x80
  {
    var n := c as int;
    if n < 0x80 then [n]
    else if n < 0x800 then [0xC0 + n / 0x40, 0x80 + n % 0x40]
    else if n < 0x1_0000 then [0xE0 + n / 0x1000, 0x80 + (n / 0x40) % 0x40, 0x80 + n % 0x40]
    else [0xF0 + n / 0x4_0000, 0x80 + (n / 0x1000) % 0x40, 0x80 + (n / 0x40) % 0x40, 0x80 + n % 0x40]
  }

  /** `str::as_bytes`: the UTF-8 encoding of a string. */
  function Utf8(s: string): (bs: seq<byte>)
    ensures |s| <= |bs| <= 4 * |s|
  {
    if s == [] then [] else EncodeChar(s[0]) + Utf8(s[1..])
  }

  /** The length of an encoded character, read off its first byte. */
  function SequenceLength(b: byte): nat
  {
    if b < 0x80 then 1 else if b < 0xE0 then 2 else if b < 0xF0 then 3 else 4
  }

  /** The scalar value carried by the bytes of one encoded character. */
  function DecodeScalar(bs: seq<byte>): int
    requires 1 <= |bs| <= 4
  {
    if |bs| == 1 then bs[0] as int
    else if |bs| == 2 then (bs[0] as int - 0xC0) * 0x40 + (bs[1] as int - 0x80)
    else if |bs| == 3 then ((bs[0] as int - 0xE0) * 0x40 + (bs[1] as int - 0x80)) * 0x40 + (bs[2] as int - 0x80)
    else (((bs[0] as int - 0xF0) * 0x40 + (bs[1] as int - 0x80)) * 0x40 + (bs[2] as int - 0x80)) * 0x40
         + (bs[3] as int - 0x80)
  }

  /** An encoded character announces its own length and decodes back to the character. */
  lemma EncodeCharDecodes(c: char)
    ensures |EncodeChar(c)| == SequenceLength(EncodeChar(c)[0])
    ensures DecodeScalar(EncodeChar(c)) == c as int
  {
    var n := c as int;
    if n >= 0x800 {
      assert n / 0x40 == (n / 0x1000) * 0x40 + (n / 0x40) % 0x40;
      if n >= 0x1_0000 {
        assert n / 0x1000 == (n / 0x4_0000) * 0x40 + (n / 0x1000) % 0x40;
      }
    }
  }

  /** Distinct strings have distinct UTF-8 encodings. */
  lemma {:induction false} Utf8Injective(a: string, b: string)
    requires Utf8(a) == Utf8(b)
    ensures a == b
  {
    if a != [] && b != [] {
      var ea, eb := EncodeChar(a[0]), EncodeChar(b[0]);
      EncodeCharDecodes(a[0]);
      EncodeCharDecodes(b[0]);
      assert Utf8(a) == ea + Utf8(a[1..]) && Utf8(b) == eb + Utf8(b[1..]);
      assert ea[0] == Utf8(a)[0] && eb[0] == Utf8(b)[0];
      assert ea == Utf8(a)[..|ea|] && eb == Utf8(b)[..|eb|];
      assert Utf8(a[1..]) == Utf8(a)[|ea|..] && Utf8(b[1..]) == Utf8(b)[|eb|..];
      Utf8Injective(a[1..], b[1..]);
      assert a == [a[0]] + a[1..] && b == [b[0]] + b[1..];
    }
  }
}
