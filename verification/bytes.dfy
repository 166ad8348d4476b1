/**
 * Byte-level vocabulary shared by every register handler of the driver.
 *
 * Bus values are integers in [0, 256). The handlers' bit operations are
 * written arithmetically, each beside the C mask it stands for: for a mask
 * of the form 2^n - 1, `v & mask` is `v % 2^n`, and `v >> n` is `v / 2^n`.
 * Dafny's `%` and `/` are Euclidean, which for a positive power-of-two
 * divisor agrees with masking and arithmetic shifting of a two's complement
 * `int`, negative values included.
 */
module Bytes {

  type byte = x: int | 0 <= x < 256

  /** A value that may be absent: an input port a board does not fit, or a
      handler that sent nothing to the sound latch. */
  datatype Option<T> = None | Some(value: T)

  /** `v & 0x10 != 0`, `v & 0x20 != 0`, ...: bit `k` of `v`. */
  predicate Bit(v: int, k: nat)
    requires k < 8
  {
    (v / Pow2(k)) % 2 == 1
  }

  function Pow2(k: nat): (p: nat)
    requires k < 8
    ensures p >= 1
  {
    match k
    case 0 => 1
    case 1 => 2
    case 2 => 4
    case 3 => 8
    case 4 => 16
    case 5 => 32
    case 6 => 64
    case 7 => 128
  }

  /** Each nibble of a byte is determined by its four bits. */
  lemma NibbleBits(v: byte)
    ensures v % 16 == BitValue(v, 0) + 2 * BitValue(v, 1) + 4 * BitValue(v, 2) + 8 * BitValue(v, 3)
    ensures v / 16 == BitValue(v, 4) + 2 * BitValue(v, 5) + 4 * BitValue(v, 6) + 8 * BitValue(v, 7)
  {
    LowNibbleBits(v);
    HighNibbleBits(v);
  }

  lemma LowNibbleBits(v: byte)
    ensures v % 16 == BitValue(v, 0) + 2 * BitValue(v, 1) + 4 * BitValue(v, 2) + 8 * BitValue(v, 3)
  {
    LowDigits(v);
    assert BitValue(v, 0) == v % 2 && BitValue(v, 1) == (v / 2) % 2;
    assert BitValue(v, 2) == (v / 4) % 2 && BitValue(v, 3) == (v / 8) % 2;
  }

  lemma HighNibbleBits(v: byte)
    ensures v / 16 == BitValue(v, 4) + 2 * BitValue(v, 5) + 4 * BitValue(v, 6) + 8 * BitValue(v, 7)
  {
    var h := v / 16;
    LowDigits(h);
    assert h < 16 && h % 16 == h;
    ShiftsAfterNibble(v);
    assert BitValue(v, 4) == h % 2 && BitValue(v, 5) == (h / 2) % 2;
    assert BitValue(v, 6) == (h / 4) % 2 && BitValue(v, 7) == (h / 8) % 2;
  }

  /** Binary digits of the low nibble of `v`, one bit at a time. */
  lemma LowDigits(v: nat)
    ensures v % 16 == v % 2 + 2 * ((v / 2) % 2) + 4 * ((v / 4) % 2) + 8 * ((v / 8) % 2)
  {
    Digit2(v);
    Digit4(v);
    Digit8(v);
  }

  /** Each lemma below adds the bit of weight d to the remainder by d. */
  lemma Digit2(v: nat)
    ensures v % 4 == v % 2 + 2 * ((v / 2) % 2)
  {
    var q := v / 2;
    assert v == 2 * q + v % 2;
    assert v == 4 * (q / 2) + (2 * (q % 2) + v % 2);
  }

  lemma Digit4(v: nat)
    ensures v % 8 == v % 4 + 4 * ((v / 4) % 2)
  {
    var q := v / 4;
    assert v == 4 * q + v % 4;
    assert v == 8 * (q / 2) + (4 * (q % 2) + v % 4);
  }

  lemma Digit8(v: nat)
    ensures v % 16 == v % 8 + 8 * ((v / 8) % 2)
  {
    var q := v / 8;
    assert v == 8 * q + v % 8;
    assert v == 16 * (q / 2) + (8 * (q % 2) + v % 8);
  }

  /** Shifting the high nibble down further: `(v >> 4) >> n == v >> (4 + n)`
      for n = 1, 2, 3. */
  lemma ShiftsAfterNibble(v: nat)
    ensures v / 16 / 2 == v / 32
    ensures v / 16 / 4 == v / 64
    ensures v / 16 / 8 == v / 128
  {
    var q := v / 16;
    assert v == 16 * q + v % 16;
    assert v == 32 * (q / 2) + (16 * (q % 2) + v % 16);
    assert v == 64 * (q / 4) + (16 * (q % 4) + v % 16);
    assert v == 128 * (q / 8) + (16 * (q % 8) + v % 16);
  }

  function BitValue(v: byte, k: nat): (b: nat)
    requires k < 8
    ensures b == 0 || b == 1
    ensures b == 1 <==> Bit(v, k)
  {
    (v / Pow2(k)) % 2
  }

  /** Bits `lo` up to (not including) `hi` of `a` and `b` agree. */
  predicate SameBits(a: byte, b: byte, lo: nat, hi: nat)
    requires lo <= hi <= 8
  {
    forall k :: lo <= k < hi ==> Bit(a, k) == Bit(b, k)
  }

  /** Four consecutive bits agree exactly when their binary values agree. */
  lemma SameBitsAt(a: byte, b: byte, lo: nat, hi: nat)
    requires (lo == 0 || lo == 4) && hi == lo + 4
    ensures SameBits(a, b, lo, hi) <==>
      BitValue(a, lo) + 2 * BitValue(a, lo + 1) + 4 * BitValue(a, lo + 2) + 8 * BitValue(a, lo + 3)
      == BitValue(b, lo) + 2 * BitValue(b, lo + 1) + 4 * BitValue(b, lo + 2) + 8 * BitValue(b, lo + 3)
  {
    if SameBits(a, b, lo, hi) {
      assert Bit(a, lo) == Bit(b, lo) && Bit(a, lo + 1) == Bit(b, lo + 1);
      assert Bit(a, lo + 2) == Bit(b, lo + 2) && Bit(a, lo + 3) == Bit(b, lo + 3);
    }
  }
}
