/**
 * The memory layout fixed once at machine start: the "maincpu" region of
 * 0x40000 bytes holds ten switchable 0x4000-byte bank entries starting at
 * 0x10000, followed by the work area at 0x38000 that is carved into the
 * bootleg's I/O RAM and the two video pages.
 */
module Layout {

  const MainRegionSize: nat := 0x40000

  /** `configure_entries(0, 10, base + 0x10000, 0x4000)` */
  const BankCount: nat := 10
  const BankStart: nat := 0x10000
  const BankSize: nat := 0x4000

  /** Start of the work area inside "maincpu". */
  const WorkBase: nat := 0x38000
  /** I/O RAM, page[0] and page[1], relative to `WorkBase`. */
  const IoRamOffset: nat := 0x0000
  const IoRamSize: nat := 0x4000
  const Page0Offset: nat := 0x4000
  const Page1Offset: nat := 0x6000
  const PageSize: nat := 0x2000
  const WorkSize: nat := 0x8000

  /** Address inside "maincpu" of bank entry `k`; every entry lies wholly
      between the start of the banked ROM and the work area. */
  function BankBase(k: nat): (base: nat)
    requires k < BankCount
    ensures BankStart <= base && base + BankSize <= WorkBase
    ensures k + 1 == BankCount ==> base + BankSize == WorkBase
    // consecutive entries follow one another, 0x4000 bytes apart
    ensures 0 < k ==> base == BankBase(k - 1) + BankSize
  {
    BankStart + k * BankSize
  }

  /** Offset (relative to `WorkBase`) of video page `p`; the two pages sit
      side by side right after the I/O RAM and fill the work area. */
  function PageOffset(p: nat): (off: nat)
    requires p < 2
    ensures IoRamOffset + IoRamSize <= off
    ensures off + PageSize <= WorkSize
    ensures p == 0 ==> off == IoRamOffset + IoRamSize
    ensures p == 1 ==> off == PageOffset(0) + PageSize && off + PageSize == WorkSize
    // page[1] ends exactly where the "maincpu" region ends
    ensures p == 1 ==> WorkBase + off + PageSize == MainRegionSize
  {
    if p == 0 then Page0Offset else Page1Offset
  }
}
