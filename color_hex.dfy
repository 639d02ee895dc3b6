/**
 * The colour summary `String.format("#%08x", 0xffffffff & color)` used by the status bar screen.
 * In Java the literal `0xffffffff` is the `int` -1, so the mask leaves the colour as it is, and
 * `%x` of a negative `int` prints its two's-complement (unsigned) value.
 */
module ColorHex {
  import opened Decimal

  const TwoTo32: nat := 0x1_0000_0000

  /** The 32-bit pattern of a Java `int`, read as unsigned. */
  function Unsigned(c: Int32): (u: nat)
    ensures u < TwoTo32
    ensures (u - c) % TwoTo32 == 0
  {
    if c < 0 then c + TwoTo32 else c
  }

  const LowerHexDigits: string := "0123456789abcdef"

  predicate IsLowerHexDigit(c: char) { '0' <= c <= '9' || 'a' <= c <= 'f' }

  predicate AllLowerHex(s: string) { forall i :: 0 <= i < |s| ==> IsLowerHexDigit(s[i]) }

  function HexDigitValue(c: char): (d: nat)
    requires IsLowerHexDigit(c)
    ensures d < 16
  {
    if c <= '9' then c as int - '0' as int else c as int - 'a' as int + 10
  }

  function HexDigit(d: nat): (c: char)
    requires d < 16
    ensures IsLowerHexDigit(c) && HexDigitValue(c) == d
  {
    LowerHexDigits[d]
  }

  function Pow16(k: nat): (p: nat)
    ensures p > 0
  {
    if k == 0 then 1 else 16 * Pow16(k - 1)
  }

  /** The lowest `width` hexadecimal digits of `n`, most significant first, zero-padded. */
  function HexDigits(n: nat, width: nat): (s: string)
    ensures |s| == width && AllLowerHex(s)
  {
    if width == 0 then "" else HexDigits(n / 16, width - 1) + [HexDigit(n % 16)]
  }

  /** The number a string of lowercase hex digits denotes. */
  function HexValue(s: string): nat
    requires AllLowerHex(s)
  {
    if s == [] then 0 else HexValue(s[..|s| - 1]) * 16 + HexDigitValue(s[|s| - 1])
  }

  /** `#%08x`: a hash sign and exactly eight lowercase hex digits. */
  function FormatColor(color: Int32): (s: string)
    ensures |s| == 9 && s[0] == '#'
    ensures AllLowerHex(s[1..])
  {
    "#" + HexDigits(Unsigned(color), 8)
  }

  lemma {:induction false} HexDigitsValue(n: nat, width: nat)
    requires n < Pow16(width)
    ensures HexValue(HexDigits(n, width)) == n
  {
    if width > 0 {
      var s := HexDigits(n, width);
      assert s[..|s| - 1] == HexDigits(n / 16, width - 1);
      assert n / 16 < Pow16(width - 1);
      HexDigitsValue(n / 16, width - 1);
    }
  }

  /** The eight digits decode to the unsigned value of the colour: no digit is lost to padding. */
  lemma FormatColorDecodes(color: Int32)
    ensures HexValue(FormatColor(color)[1..]) == Unsigned(color)
  {
    assert Pow16(8) == TwoTo32;
    assert FormatColor(color)[1..] == HexDigits(Unsigned(color), 8);
    HexDigitsValue(Unsigned(color), 8);
  }

  /** Two different colours never share a summary. */
  lemma FormatColorInjective(a: Int32, b: Int32)
    ensures FormatColor(a) == FormatColor(b) ==> a == b
  {
    FormatColorDecodes(a);
    FormatColorDecodes(b);
  }
}
