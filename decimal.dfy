/**
 * Decimal text of 32-bit integers, as the settings store keeps them:
 * `Integer.toString` on the way in, `Integer.parseInt` on the way out.
 */
module Decimal {
  import opened Wrappers

  const MinInt: int := -0x8000_0000
  const MaxInt: int := 0x7fff_ffff

  /** A Java `int`. */
  type Int32 = x: int | -0x8000_0000 <= x <= 0x7fff_ffff

  predicate IsDigit(c: char) { '0' <= c <= '9' }

  function DigitChar(d: nat): (c: char)
    requires d < 10
    ensures IsDigit(c) && c as int - '0' as int == d
  {
    ('0' as int + d) as char
  }

  /** The digits of `n` without leading zeros. */
  function NatToDecimal(n: nat): (s: string)
    ensures |s| > 0 && IsDigit(s[0])
    ensures forall i :: 0 <= i < |s| ==> IsDigit(s[i])
  {
    if n < 10 then [DigitChar(n)] else NatToDecimal(n / 10) + [DigitChar(n % 10)]
  }

  /** `Integer.toString(n)`: a minus sign for negative values, then the digits. */
  function IntToDecimal(n: int): (s: string)
    ensures |s| > 0
    ensures n < 0 <==> s[0] == '-'
    ensures forall i :: 0 < i < |s| ==> IsDigit(s[i])
  {
    if n < 0 then "-" + NatToDecimal(-n) else NatToDecimal(n)
  }

  /**
   * The value of the ASCII digits `s[start..end]`, most significant first (0 when the range is
   * empty), or `None` when one of them is not a digit.
   */
  function DigitsValue(s: string, start: nat, end: nat): Option<nat>
    requires start <= end <= |s|
    decreases end - start
  {
    if end == start then Some(0)
    else match DigitsValue(s, start, end - 1)
      case None => None
      case Some(v) =>
        if IsDigit(s[end - 1]) then Some(v * 10 + (s[end - 1] as int - '0' as int)) else None
  }

  /**
   * `Integer.parseInt(s)`: an optional `-` or `+` (accepted since Java 7), at least one digit, and
   * a value that fits in 32 bits; anything else is a NumberFormatException, here `None`. Only the
   * ASCII digits are read as digits, where Java's `Character.digit` also reads the other Unicode
   * decimal digits.
   */
  function ParseInt(s: string): (r: Option<Int32>)
    ensures r.Some? ==> |s| > 0
    ensures r.Some? && r.value < 0 ==> s[0] == '-'
  {
    if s == [] then None
    else
      var start := if s[0] == '-' || s[0] == '+' then 1 else 0;
      if start == |s| then None
      else match DigitsValue(s, start, |s|)
        case None => None
        case Some(v) =>
          var m: int := if s[0] == '-' then -(v as int) else v;
          if MinInt <= m <= MaxInt then Some(m) else None
  }

  /** The value of a range of digits depends only on the characters in it. */
  lemma {:induction false} DigitsValueOfSameRange(s: string, a: nat, u: string, b: nat, len: nat)
    requires a + len <= |s| && b + len <= |u|
    requires s[a..a + len] == u[b..b + len]
    ensures DigitsValue(s, a, a + len) == DigitsValue(u, b, b + len)
  {
    if len > 0 {
      assert s[a..a + len - 1] == s[a..a + len][..len - 1];
      assert u[b..b + len - 1] == u[b..b + len][..len - 1];
      assert s[a + len - 1] == s[a..a + len][len - 1];
      assert u[b + len - 1] == u[b..b + len][len - 1];
      DigitsValueOfSameRange(s, a, u, b, len - 1);
    }
  }

  lemma {:induction false} DigitsValueOfDecimal(n: nat)
    ensures var s := NatToDecimal(n); DigitsValue(s, 0, |s|) == Some(n)
  {
    var s := NatToDecimal(n);
    if n >= 10 {
      var prefix := NatToDecimal(n / 10);
      assert s == prefix + [DigitChar(n % 10)];
      assert s[0..|prefix|] == prefix[0..|prefix|];
      DigitsValueOfSameRange(s, 0, prefix, 0, |prefix|);
      DigitsValueOfDecimal(n / 10);
    }
  }

  /** What `Integer.toString` writes, `Integer.parseInt` reads back. */
  lemma ParseIntOfDecimal(n: Int32)
    ensures ParseInt(IntToDecimal(n)) == Some(n)
  {
    var s := IntToDecimal(n);
    if n < 0 {
      var digits := NatToDecimal(-(n as int));
      assert s == "-" + digits;
      assert s[1..1 + |digits|] == digits[0..|digits|];
      DigitsValueOfSameRange(s, 1, digits, 0, |digits|);
      DigitsValueOfDecimal(-(n as int));
    } else {
      DigitsValueOfDecimal(n);
    }
  }

  /** Distinct integers have distinct decimal text. */
  lemma IntToDecimalInjective(a: Int32, b: Int32)
    ensures IntToDecimal(a) == IntToDecimal(b) ==> a == b
  {
    ParseIntOfDecimal(a);
    ParseIntOfDecimal(b);
  }
}
