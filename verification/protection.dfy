/**
 * The protection chip, which is a multiplier: two operand registers
 * written at 0x0200-0x0201, the two bytes of their product read back from
 * the same addresses, and a clock strobe at 0x0206 that does nothing.
 */
module Protection {
  import opened Bytes

  /** The two operands (`m_prot[0]`, `m_prot[1]`). */
  datatype Prot = Prot(a: byte, b: byte)

  const ResetProt: Prot := Prot(0, 0)

  /** `protection_w(offset, data)`: stores operand `offset`. */
  function Write(p: Prot, offset: nat, data: byte): (r: Prot)
    requires offset < 2
    ensures offset == 0 ==> r.a == data && r.b == p.b
    ensures offset == 1 ==> r.b == data && r.a == p.a
  {
    if offset == 0 then p.(a := data) else p.(b := data)
  }

  /** `protection_r(offset)`: byte `offset` of the product,
      `((m_prot[0] * m_prot[1]) >> (offset * 8)) & 0xff`. */
  function Read(p: Prot, offset: nat): (r: byte)
    requires offset < 2
    // offset 1 is the whole high byte (nothing above bit 15 is cut off);
    // offset 0 agrees with the product modulo 256
    ensures offset == 1 ==> r == p.a * p.b / 256
    ensures offset == 0 ==> (p.a * p.b - r) % 256 == 0
  {
    ProductFitsSixteenBits(p.a, p.b);
    var product := p.a * p.b;
    (if offset == 0 then product else product / 256) % 256
  }

  /** `protection_clock_w`: the write is accepted and discarded. */
  function ClockWrite(p: Prot, data: byte): (r: Prot)
    ensures r == p
  {
    p
  }

  /** After writing operands `a` and `b`, in either order and with any clock
      strobes in between, the two reads together give the full 16-bit
      product: low byte at offset 0, high byte at offset 1. */
  lemma ProductReadBack(p: Prot, a: byte, b: byte, strobe: byte)
    ensures var q := ClockWrite(Write(Write(p, 0, a), 1, b), strobe);
            Read(q, 0) + 256 * Read(q, 1) == a * b
    ensures Write(Write(p, 0, a), 1, b) == Write(Write(p, 1, b), 0, a)
  {
    ProductFitsSixteenBits(a, b);
  }

  /** The product of two bytes fits the two bytes the chip exposes. */
  lemma ProductFitsSixteenBits(a: byte, b: byte)
    ensures 0 <= a * b < 0x10000
    ensures (a * b) / 256 < 256
  {
    assert a * b <= a * 255 <= 255 * 255;
  }
}
