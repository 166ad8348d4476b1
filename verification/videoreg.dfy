/**
 * The video register (`combatsc_vreg_w`): one byte whose low nibble banks
 * tilemap 0 and whose high nibble banks tilemap 1. A write that changes it
 * invalidates the affected layers; redrawing them is not modelled, only the
 * `mark_all_dirty` requests are.
 */
module VideoReg {
  import opened Bytes

  /** Which layers a single write asked to be fully redrawn. */
  datatype Marks = Marks(text: bool, tilemap0: bool, tilemap1: bool)

  const NoMarks: Marks := Marks(false, false, false)

  /** The register is an `int`; reset stores -1, which no byte equals. */
  const Unset: int := -1

  predicate Valid(vreg: int) {
    vreg == Unset || 0 <= vreg < 256
  }

  /** The register after a write, and the invalidations the write made. */
  datatype Update = Update(vreg: int, marks: Marks)

  function Write(vreg: int, data: byte): (r: Update)
    requires Valid(vreg)
    ensures Valid(r.vreg) && r.vreg == data
    ensures r.marks.text <==> vreg != data
    ensures r.marks.text <==> r.marks.tilemap0 || r.marks.tilemap1
    ensures vreg == Unset ==> r.marks.tilemap1 && (r.marks.tilemap0 <==> data % 16 != 0x0f)
  {
    if data != vreg then
      Update(data, Marks(true,
                         data % 16 != vreg % 16,   // (data & 0x0f) != (m_vreg & 0x0f)
                         data / 16 != vreg / 16))  // (data >> 4) != (m_vreg >> 4)
    else
      Update(vreg, NoMarks)
  }

  /** Writing the value the register already holds requests nothing. */
  lemma RewriteIsNoOp(vreg: int, data: byte)
    requires Valid(vreg)
    ensures Write(Write(vreg, data).vreg, data) == Update(data, NoMarks)
  {
  }

  /** Between two bytes, tilemap 0 is redrawn exactly when one of bits 3..0
      changed and tilemap 1 exactly when one of bits 7..4 changed. */
  lemma NibbleMarks(prev: byte, data: byte)
    ensures Write(prev, data).marks.tilemap0 <==> !SameBits(prev, data, 0, 4)
    ensures Write(prev, data).marks.tilemap1 <==> !SameBits(prev, data, 4, 8)
  {
    NibbleBits(prev);
    NibbleBits(data);
    SameBitsAt(prev, data, 0, 4);
    SameBitsAt(prev, data, 4, 8);
  }
}
