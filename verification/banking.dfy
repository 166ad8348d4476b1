/**
 * Bank and video-circuit selection: the original board's
 * `combatsc_bankselect_w`, the bootleg's `combatscb_bankselect_w` and the
 * bootleg's `combatscb_priority_w`.
 *
 * The live references of the source (`m_videoram`, `m_scrollram`) become
 * indices naming one of two fixed buffers, and installing or removing the
 * bootleg's I/O handlers over the 0x4000-0x7fff window becomes a mode.
 */
module Banking {
  import opened Bytes
  import Layout

  /** The video circuit in use, the page `m_videoram` points at (page[0] or
      page[1]), the scroll table `m_scrollram` points at (scrollram0 or
      scrollram1) and the priority flag (`data & 0x20`). */
  datatype Video = Video(circuit: nat, page: nat, scroll: nat, priority: byte) {
    predicate Valid() {
      && circuit < 2 && page < 2 && scroll < 2
      && (priority == 0 || priority == 0x20)
    }
  }

  /** How the bootleg's 0x4000-0x7fff window is wired: banked ROM with
      writes ignored, or the I/O sub-bus of `combatscb_io_w`. */
  datatype WindowMode = RomWindow | IoWindow

  /** The selected entry of "bank1", the bootleg's last masked selector
      (`m_bank_select`, an `int` that reset sets to -1) and the window mode. */
  datatype Bank = Bank(entry: nat, select: int, window: WindowMode) {
    predicate Valid() {
      entry < Layout.BankCount && (select == SelectUnset || 0 <= select < 0x20)
    }
  }

  const SelectUnset: int := -1

  /** The bootleg selector value that maps in the I/O sub-bus. */
  const IoSelect: int := 0x1f

  /** Bit 6 picks the video circuit. */
  function CircuitOf(data: byte): (c: nat)
    ensures c < 2 && (c == 1 <==> Bit(data, 6))
  {
    if data / 64 % 2 == 1 then 1 else 0   // data & 0x40
  }

  /** The bank entry a control byte selects: bits 3:1 when bit 4 is set,
      otherwise one of the two extra entries 8 and 9 by bit 0. */
  function EntryOf(data: byte): (e: nat)
    ensures e < Layout.BankCount
    ensures e < 8 <==> Bit(data, 4)
    ensures e < 8 ==> e == BitValue(data, 1) + 2 * BitValue(data, 2) + 4 * BitValue(data, 3)
    ensures e >= 8 ==> e == 8 + BitValue(data, 0)
  {
    LowDigits(data);
    if data / 16 % 2 == 1 then     // data & 0x10
      data % 16 / 2                // (data & 0x0e) >> 1
    else
      8 + data % 2                 // 8 + (data & 1)
  }

  /** A control byte selecting bank entry `entry`: every configured entry
      can be reached, so `EntryOf` maps onto exactly the ten entries. */
  function ControlFor(entry: nat): (data: byte)
    requires entry < Layout.BankCount
    ensures EntryOf(data) == entry
    ensures data < 0x1f
  {
    if entry < 8 then 0x10 + 2 * entry else entry - 8
  }

  /** `combatscb_priority_w`: bit 6 rebinds circuit, page and scroll table
      together, bit 5 is the priority flag. */
  function PriorityWrite(data: byte): (r: Video)
    ensures r.Valid()
    ensures (r.circuit == 1 <==> Bit(data, 6)) && r.page == r.circuit && r.scroll == r.circuit
    ensures r.priority != 0 <==> Bit(data, 5)
  {
    var c := CircuitOf(data);
    Video(c, c, c, if data / 32 % 2 == 1 then 0x20 else 0)   // data & 0x20
  }

  /** `combatsc_bankselect_w` (original board): the video state is replaced
      as by the bootleg priority handler, and the bank entry follows the
      control byte; the bootleg selector and window are not touched. */
  function OriginalSelect(b: Bank, data: byte): (r: (Video, Bank))
    ensures r.0.Valid() && r.0.page == r.0.circuit && r.0.scroll == r.0.circuit
    ensures (r.0.circuit == 1 <==> Bit(data, 6)) && (r.0.priority != 0 <==> Bit(data, 5))
    ensures r.1.entry < Layout.BankCount && (r.1.entry < 8 <==> Bit(data, 4))
    ensures r.1.select == b.select && r.1.window == b.window
    // the entry is the one `EntryOf` decodes, and the video state is the
    // one the priority handler produces
    ensures r.1 == b.(entry := EntryOf(data)) && r.0 == PriorityWrite(data)
  {
    var priority := if data / 32 % 2 == 1 then 0x20 else 0;   // data & 0x20
    var c := CircuitOf(data);
    (Video(c, c, c, priority), b.(entry := EntryOf(data)))
  }

  /** `combatscb_bankselect_w` (bootleg board). */
  function BootlegSelect(v: Video, b: Bank, data: byte): (r: (Video, Bank))
    requires b.Valid()
    ensures r.1.Valid()
    // the page follows bit 6 on every write; scroll table and priority never move
    ensures (r.0.circuit == 1 <==> Bit(data, 6)) && r.0.circuit < 2 && r.0.page == r.0.circuit
    ensures r.0.scroll == v.scroll && r.0.priority == v.priority
    // an unchanged selector leaves the bank and the window alone
    ensures data % 0x20 == b.select ==> r.1 == b
    // a changed one is stored, and only 0x1f opens the I/O window, on entry 9
    ensures data % 0x20 != b.select ==> r.1.select == data % 0x20
    ensures data % 0x20 != b.select ==> (r.1.window == IoWindow <==> data % 0x20 == IoSelect)
    ensures data % 0x20 != b.select && data % 0x20 == IoSelect ==> r.1.entry == 9
    ensures data % 0x20 != b.select && data % 0x20 != IoSelect ==> r.1.entry == EntryOf(data)
  {
    var c := CircuitOf(data);
    var v' := v.(circuit := c, page := c);
    var masked: byte := data % 0x20;   // data & 0x1f
    if masked == b.select then
      (v', b)
    else
      var first := EntryOf(masked);
      EntryIgnoresHighBits(data);
      if masked == IoSelect then
        // set_entry runs a second time: 8 + (data & 1) overrides entry 7
        (v', Bank(8 + masked % 2, masked, IoWindow))
      else
        (v', Bank(first, masked, RomWindow))
  }

  /** Only the low five bits of a control byte matter for the bank entry. */
  lemma EntryIgnoresHighBits(data: byte)
    ensures EntryOf(data) == EntryOf(data % 0x20)
  {
    var m := data % 0x20;
    var q := data / 0x20;
    assert data == 32 * q + 16 * (m / 16) + m % 16;
    assert data / 16 == 2 * q + m / 16;
    assert (data / 16) % 2 == (m / 16) % 2;
    assert data % 16 == m % 16;
    assert data % 2 == m % 2;
  }

  /** For any selector but 0x1f, a changed bootleg write picks the entry the
      original board would; 0x1f picks entry 9 where the original picks 7.
      Both boards bind the same page. */
  lemma BootlegAgreesWithOriginal(v: Video, b: Bank, data: byte)
    requires b.Valid() && data % 0x20 != b.select
    ensures BootlegSelect(v, b, data).0.page == OriginalSelect(b, data).0.page
    ensures data % 0x20 != IoSelect ==>
      BootlegSelect(v, b, data).1.entry == OriginalSelect(b, data).1.entry
    ensures data % 0x20 == IoSelect ==>
      BootlegSelect(v, b, data).1.entry == 9 && OriginalSelect(b, data).1.entry == 7
  {
  }

  /** Repeating a bootleg bank write changes nothing more. */
  lemma BootlegSelectIdempotent(v: Video, b: Bank, data: byte)
    requires b.Valid()
    ensures var r := BootlegSelect(v, b, data);
            BootlegSelect(r.0, r.1, data) == r
  {
  }

  /** Unlike the original board, the bootleg bank write can leave the
      scroll table on the other circuit: after priority 0x40 (circuit 1) a
      bank write of 0x00 returns to circuit 0 but keeps scrollram1. */
  lemma BootlegScrollCanLag(b: Bank)
    requires b.Valid()
    ensures var r := BootlegSelect(PriorityWrite(0x40), b, 0x00).0;
            r.circuit == 0 && r.scroll == 1
  {
  }
}
