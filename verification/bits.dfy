/** The part of the `bitarray` library the identifier class relies on, as functions on
    MSB-first bit sequences: `ba2int`, `int2ba`, slice writes, `fill` on the left,
    `ba2hex` and `to01`. */
module Bits {

  function Pow2(n: nat): (r: nat)
    ensures r >= 1
  {
    if n == 0 then 1 else 2 * Pow2(n - 1)
  }

  function BitValue(b: bool): nat
  {
    if b then 1 else 0
  }

  /** `ba2int(bits)` (equally `int(bits.to01(), 2)`): the unsigned value of an MSB-first bit sequence. */
  function BitsToNat(s: seq<bool>): (r: nat)
    ensures r < Pow2(|s|)
  {
    if s == [] then 0 else 2 * BitsToNat(s[..|s| - 1]) + BitValue(s[|s| - 1])
  }

  /** `int2ba(v, n)`: the n-bit MSB-first representation of v. The library raises when
      v does not fit in n bits, hence the precondition. */
  function NatToBits(v: nat, n: nat): (r: seq<bool>)
    requires v < Pow2(n)
    ensures |r| == n && BitsToNat(r) == v
  {
    if n == 0 then [] else NatToBits(v / 2, n - 1) + [v % 2 == 1]
  }

  function Zeros(n: nat): (r: seq<bool>)
    ensures |r| == n && forall i | 0 <= i < n :: !r[i]
  {
    seq(n, _ => false)
  }

  /** The value of the bits lo..hi, as every field getter reads it. */
  function Field(bits: seq<bool>, lo: nat, hi: nat): (r: nat)
    requires lo <= hi <= |bits|
    ensures r < Pow2(hi - lo)
  {
    BitsToNat(bits[lo..hi])
  }

  /** `bits[lo:lo+w] = int2ba(v, w)`: an in-place slice write of a w-bit field. */
  function WriteField(bits: seq<bool>, lo: nat, w: nat, v: nat): (r: seq<bool>)
    requires lo + w <= |bits| && v < Pow2(w)
    ensures |r| == |bits|
    ensures Field(r, lo, lo + w) == v
    ensures r[..lo] == bits[..lo] && r[lo + w..] == bits[lo + w..]
  {
    var r := bits[..lo] + NatToBits(v, w) + bits[lo + w..];
    assert r[lo..lo + w] == NatToBits(v, w);
    r
  }

  /** `bits[lo:lo + len(src)] = src`: a slice assignment that keeps the length. */
  function Splice(bits: seq<bool>, lo: nat, src: seq<bool>): (r: seq<bool>)
    requires lo + |src| <= |bits|
    ensures |r| == |bits|
    ensures r[..lo] == bits[..lo] && r[lo..lo + |src|] == src && r[lo + |src|..] == bits[lo + |src|..]
  {
    bits[..lo] + src + bits[lo + |src|..]
  }

  /** `reverse(); fill(); reverse()`: zero bits added on the left up to a whole number of bytes. */
  function FillLeft(bits: seq<bool>): (r: seq<bool>)
    ensures |r| % 8 == 0 && |bits| <= |r| < |bits| + 8
    ensures BitsToNat(r) == BitsToNat(bits)
  {
    var k := (8 - |bits| % 8) % 8;
    PadToByte(|bits|, k);
    var pad := Zeros(k);
    FillLeftValue(pad, bits);
    pad + bits
  }

  lemma PadToByte(n: nat, k: nat)
    requires k == (8 - n % 8) % 8
    ensures k < 8 && (n + k) % 8 == 0
  {
  }

  /** `to01()`: the bits as a string of '0' and '1'. */
  function To01(bits: seq<bool>): (r: string)
    ensures |r| == |bits|
    ensures forall i | 0 <= i < |r| :: r[i] == (if bits[i] then '1' else '0')
  {
    seq(|bits|, i requires 0 <= i < |bits| => if bits[i] then '1' else '0')
  }

  /** `int(t, 2)` on a string of binary digits. */
  function BinaryValue(t: string): nat
  {
    if t == [] then 0 else 2 * BinaryValue(t[..|t| - 1]) + (if t[|t| - 1] == '1' then 1 else 0)
  }

  // ---------------------------------------------------------------------------
  // Lemmas

  lemma {:induction false} ZerosValue(n: nat)
    ensures BitsToNat(Zeros(n)) == 0
  {
    if n > 0 {
      assert Zeros(n)[..n - 1] == Zeros(n - 1);
      ZerosValue(n - 1);
    }
  }

  lemma FillLeftValue(pad: seq<bool>, bits: seq<bool>)
    requires forall i | 0 <= i < |pad| :: !pad[i]
    ensures BitsToNat(pad + bits) == BitsToNat(bits)
  {
    assert pad == Zeros(|pad|);
    ZerosValue(|pad|);
    BitsToNatAppend(pad, bits);
    assert BitsToNat(pad) * Pow2(|bits|) == 0 * Pow2(|bits|);
  }

  lemma ShiftStep(x: nat, p: nat, y: nat, bit: nat)
    ensures 2 * (x * p + y) + bit == x * (2 * p) + (2 * y + bit)
  {
  }

  /** Appending b to a shifts a's value left by |b| bits. */
  lemma {:induction false} BitsToNatAppend(a: seq<bool>, b: seq<bool>)
    ensures BitsToNat(a + b) == BitsToNat(a) * Pow2(|b|) + BitsToNat(b)
    decreases |b|
  {
    if b == [] {
      assert a + b == a;
    } else {
      var b' := b[..|b| - 1];
      assert (a + b)[..|a + b| - 1] == a + b';
      BitsToNatAppend(a, b');
      ShiftStep(BitsToNat(a), Pow2(|b'|), BitsToNat(b'), BitValue(b[|b| - 1]));
    }
  }

  /** Four more bits on the right multiply the value by 16 and add theirs. */
  lemma BitsToNatNibble(high: seq<bool>, low: seq<bool>)
    requires |low| == 4
    ensures BitsToNat(high + low) == 16 * BitsToNat(high) + BitsToNat(low)
  {
    BitsToNatAppend(high, low);
    assert Pow2(|low|) == 16;
  }

  /** `int2ba(ba2int(s), len(s)) == s`: reading a bit sequence and writing it back at the
      same width gives the same bits. */
  lemma {:induction false} NatToBitsOfValue(s: seq<bool>)
    ensures NatToBits(BitsToNat(s), |s|) == s
  {
    if s != [] {
      var s' := s[..|s| - 1];
      NatToBitsOfValue(s');
      assert s == s' + [s[|s| - 1]];
    }
  }

  lemma MulAtLeast(k: int, m: int)
    requires k >= 1 && m >= 0
    ensures k * m >= m
  {
  }

  /** Quotient and remainder are the only such pair. */
  lemma DivModUnique(v: nat, m: nat, q: nat, r: nat)
    requires 0 < m && r < m && v == q * m + r
    ensures v / m == q && v % m == r
  {
    var q', r' := v / m, v % m;
    assert q' * m + r' == v;
    if q' > q {
      assert (q' - q) * m == r - r';
      MulAtLeast(q' - q, m);
    } else if q' < q {
      assert (q - q') * m == r' - r;
      MulAtLeast(q - q', m);
    }
  }

  /** The bits i..j of int2ba(v, n) hold (v >> (n - j)) mod 2^(j - i). */
  lemma SliceValue(v: nat, n: nat, i: nat, j: nat)
    requires v < Pow2(n) && i <= j <= n
    ensures BitsToNat(NatToBits(v, n)[i..j]) == (v / Pow2(n - j)) % Pow2(j - i)
  {
    var s := NatToBits(v, n);
    assert BitsToNat(s[..j]) == v / Pow2(n - j) by {
      SplitValue(s, j);
    }
    var t := s[..j];
    assert t[i..] == s[i..j];
    assert BitsToNat(t[i..]) == BitsToNat(t) % Pow2(j - i) by {
      SplitValue(t, i);
    }
  }

  /** Cutting a bit sequence at k: the head is the value shifted right by the tail's length,
      the tail is the value modulo that power of two. */
  lemma SplitValue(s: seq<bool>, k: nat)
    requires k <= |s|
    ensures BitsToNat(s[..k]) == BitsToNat(s) / Pow2(|s| - k)
    ensures BitsToNat(s[k..]) == BitsToNat(s) % Pow2(|s| - k)
  {
    assert s == s[..k] + s[k..];
    BitsToNatAppend(s[..k], s[k..]);
    DivModUnique(BitsToNat(s), Pow2(|s| - k), BitsToNat(s[..k]), BitsToNat(s[k..]));
  }

  /** SliceValue for a field of the n-bit representation of v, with the two powers of two
      given as numbers. */
  lemma FieldOfValue(v: nat, n: nat, i: nat, j: nat, below: nat, size: nat)
    requires v < Pow2(n) && i <= j <= n && below == Pow2(n - j) && size == Pow2(j - i)
    ensures Field(NatToBits(v, n), i, j) == (v / below) % size
  {
    SliceValue(v, n, i, j);
  }

  /** `int(bits.to01(), 2) == ba2int(bits)`. */
  lemma {:induction false} BinaryValueOfTo01(bits: seq<bool>)
    ensures BinaryValue(To01(bits)) == BitsToNat(bits)
  {
    if bits != [] {
      var b' := bits[..|bits| - 1];
      assert To01(bits)[..|bits| - 1] == To01(b');
      BinaryValueOfTo01(b');
    }
  }
}
