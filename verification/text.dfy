/** Strings the identifier code reads and writes: Python's `int(s, 16)` on hexadecimal
    text, `ba2hex` with `str.upper()`, and `str(n)` on a non-negative integer. */
module Text {
  import opened Wrappers
  import opened Bits

  predicate IsHexDigit(c: char)
  {
    '0' <= c <= '9' || 'a' <= c <= 'f' || 'A' <= c <= 'F'
  }

  predicate AllHex(s: string)
  {
    forall i | 0 <= i < |s| :: IsHexDigit(s[i])
  }

  /** Digits and upper-case letters only: the alphabet of `J1939ID.hex`. */
  predicate IsUpperHex(s: string)
  {
    forall i | 0 <= i < |s| :: '0' <= s[i] <= '9' || 'A' <= s[i] <= 'F'
  }

  function HexDigitValue(c: char): (r: nat)
    requires IsHexDigit(c)
    ensures r < 16
  {
    if '0' <= c <= '9' then c as int - '0' as int
    else if 'a' <= c <= 'f' then c as int - 'a' as int + 10
    else c as int - 'A' as int + 10
  }

  /** The value of a string of hexadecimal digits, most significant first. */
  function HexValue(digits: string): nat
    requires AllHex(digits)
  {
    if digits == [] then 0
    else 16 * HexValue(digits[..|digits| - 1]) + HexDigitValue(digits[|digits| - 1])
  }

  /** `int(s, 16)` on the inputs the model admits: an optional `0x` or `0X` prefix followed
      by at least one hexadecimal digit. Anything else is a `ValueError` in Python, `None` here. */
  function ParseHex(s: string): (r: Option<nat>)
    ensures r.Some? <==> AllHex(HexBody(s)) && HexBody(s) != []
    ensures r.Some? ==> r.value == HexValue(HexBody(s))
  {
    var digits := HexBody(s);
    if digits != [] && AllHex(digits) then Some(HexValue(digits)) else None
  }

  /** What `int(s, 16)` reads as digits: s without a leading `0x` or `0X`. */
  function HexBody(s: string): (r: string)
    ensures |r| <= |s|
  {
    if |s| >= 2 && s[0] == '0' && (s[1] == 'x' || s[1] == 'X') then s[2..] else s
  }

  function LowerHexChar(d: nat): (c: char)
    requires d < 16
    ensures IsHexDigit(c) && HexDigitValue(c) == d
    ensures '0' <= c <= '9' || 'a' <= c <= 'f'
  {
    "0123456789abcdef"[d]
  }

  /** `ba2hex(bits)`: one lower-case hexadecimal digit per four bits, most significant first. */
  function Ba2Hex(bits: seq<bool>): (r: string)
    requires |bits| % 4 == 0
    ensures |r| == |bits| / 4
    ensures forall i | 0 <= i < |r| :: '0' <= r[i] <= '9' || 'a' <= r[i] <= 'f'
  {
    if bits == [] then ""
    else Ba2Hex(bits[..|bits| - 4]) + [LowerHexChar(BitsToNat(bits[|bits| - 4..]))]
  }

  function UpperChar(c: char): char
  {
    if 'a' <= c <= 'z' then (c as int - 32) as char else c
  }

  /** `str.upper()` on ASCII text. */
  function Upper(s: string): (r: string)
    ensures |r| == |s| && forall i | 0 <= i < |s| :: r[i] == UpperChar(s[i])
  {
    seq(|s|, i requires 0 <= i < |s| => UpperChar(s[i]))
  }

  function DigitChar(d: nat): (c: char)
    requires d < 10
    ensures '0' <= c <= '9' && c as int - '0' as int == d
  {
    "0123456789"[d]
  }

  predicate AllDecimal(s: string)
  {
    forall i | 0 <= i < |s| :: '0' <= s[i] <= '9'
  }

  /** `int(s)` on a string of decimal digits. */
  function DecimalValue(s: string): nat
    requires AllDecimal(s)
  {
    if s == [] then 0 else 10 * DecimalValue(s[..|s| - 1]) + (s[|s| - 1] as int - '0' as int)
  }

  /** `str(n)`: the decimal digits of n, without leading zeros. */
  function NatToDecimal(n: nat): (r: string)
    ensures |r| >= 1 && AllDecimal(r) && DecimalValue(r) == n
    ensures r[0] == '0' <==> n == 0
  {
    if n < 10 then [DigitChar(n)]
    else
      var r := NatToDecimal(n / 10) + [DigitChar(n % 10)];
      assert r[..|r| - 1] == NatToDecimal(n / 10);
      r
  }

  // ---------------------------------------------------------------------------
  // Lemmas

  /** The digits `ba2hex` writes spell out the value of the bits. */
  lemma {:induction false} Ba2HexValue(bits: seq<bool>)
    requires |bits| % 4 == 0
    ensures AllHex(Ba2Hex(bits)) && HexValue(Ba2Hex(bits)) == BitsToNat(bits)
  {
    if bits != [] {
      var high, low := bits[..|bits| - 4], bits[|bits| - 4..];
      assert bits == high + low;
      Ba2HexValue(high);
      HexValueSnoc(Ba2Hex(high), LowerHexChar(BitsToNat(low)));
      BitsToNatNibble(high, low);
    }
  }

  /** One more digit on the right multiplies the value by 16 and adds the digit. */
  lemma HexValueSnoc(s: string, c: char)
    requires AllHex(s) && IsHexDigit(c)
    ensures AllHex(s + [c]) && HexValue(s + [c]) == 16 * HexValue(s) + HexDigitValue(c)
  {
    assert (s + [c])[..|s|] == s;
  }

  /** Upper-casing the output of `ba2hex` keeps its value and leaves only digits and A-F. */
  lemma {:induction false} UpperHexValue(s: string)
    requires forall i | 0 <= i < |s| :: '0' <= s[i] <= '9' || 'a' <= s[i] <= 'f'
    ensures IsUpperHex(Upper(s)) && AllHex(Upper(s))
    ensures HexValue(Upper(s)) == HexValue(s)
  {
    if s != [] {
      var n := |s|;
      assert Upper(s)[..n - 1] == Upper(s[..n - 1]);
      UpperHexValue(s[..n - 1]);
    }
  }

  /** `int(s, 16)` reads the whole of a string of digits and upper-case letters: it cannot
      start with a `0x` prefix. */
  lemma UpperHexHasNoPrefix(s: string)
    requires IsUpperHex(s)
    ensures HexBody(s) == s
  {
    if |s| >= 2 {
      assert '0' <= s[1] <= '9' || 'A' <= s[1] <= 'F';
    }
  }

  /** `str(a) == str(b)` exactly when a == b. */
  lemma DecimalInjective(a: nat, b: nat)
    ensures NatToDecimal(a) == NatToDecimal(b) <==> a == b
  {
  }
}
