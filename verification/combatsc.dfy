/**
 * The driver state of the Combat School boards as one immutable record,
 * with the reset hook, the bootleg's I/O sub-bus and a run of bus events
 * over all modelled handlers.
 */
module Combatsc {
  import opened Bytes
  import Layout
  import VideoReg
  import Banking
  import Trackball
  import Protection

  /** Everything the modelled handlers read or write. `work` is the 0x8000
      bytes of "maincpu" at 0x38000: I/O RAM, then page[0], then page[1]. */
  datatype Machine = Machine(
    video: Banking.Video,
    bank: Banking.Bank,
    vreg: int,
    prot: Protection.Prot,
    track: Trackball.Track,
    work: seq<byte>)
  {
    /** The circuit and the video page never disagree, the bank entry is
        one of the configured ten, and every buffer has its size. */
    predicate Valid() {
      && video.Valid() && video.page == video.circuit
      && bank.Valid()
      && VideoReg.Valid(vreg)
      && track.Valid()
      && |work| == Layout.WorkSize
    }
  }

  /** A handler's effect: the new state, the layers it asked to redraw and
      the byte it sent to the sound latch, if any. */
  datatype Step = Step(m: Machine, marks: VideoReg.Marks, latch: Option<byte>)

  /** `combatsc_bankselect_w` on the whole state. */
  function OriginalBankSelect(m: Machine, data: byte): (r: Machine)
    ensures m.Valid() ==> r.Valid()
    ensures r.video.scroll == r.video.circuit && r.bank.entry < Layout.BankCount
    ensures r.bank.select == m.bank.select && r.bank.window == m.bank.window
    ensures r.vreg == m.vreg && r.prot == m.prot && r.track == m.track && r.work == m.work
    ensures r.bank.entry == Banking.EntryOf(data) && r.video == Banking.PriorityWrite(data)
  {
    var s := Banking.OriginalSelect(m.bank, data);
    m.(video := s.0, bank := s.1)
  }

  /** `combatscb_bankselect_w` on the whole state. */
  function BootlegBankSelect(m: Machine, data: byte): (r: Machine)
    requires m.Valid()
    ensures r.Valid()
    ensures r.video.priority == m.video.priority && r.video.scroll == m.video.scroll
    ensures r.vreg == m.vreg && r.prot == m.prot && r.track == m.track && r.work == m.work
    // circuit, page, bank entry, selector and window are the bootleg handler's
    ensures (r.video, r.bank) == Banking.BootlegSelect(m.video, m.bank, data)
  {
    var s := Banking.BootlegSelect(m.video, m.bank, data);
    m.(video := s.0, bank := s.1)
  }

  /** `machine_reset`: clears the work area, sets the video register and
      the bootleg selector to -1, zeroes the protection operands and the
      trackball, then performs an original-board bank write of 0. The
      handlers installed over the bootleg window are not touched. */
  function Reset(m: Machine): (r: Machine)
    ensures r.Valid()
    ensures forall i :: 0 <= i < |r.work| ==> r.work[i] == 0
    ensures r.vreg == VideoReg.Unset && r.bank.select == Banking.SelectUnset
    ensures r.prot == Protection.ResetProt && r.track == Trackball.ResetTrack
    ensures r.video.circuit == 0 && r.video.scroll == 0 && r.video.priority == 0
    ensures r.bank.entry == 8 && r.bank.window == m.bank.window
  {
    var cleared := m.(
      work := seq(Layout.WorkSize, _ => 0),
      vreg := VideoReg.Unset,
      bank := m.bank.(select := Banking.SelectUnset),
      prot := Protection.ResetProt,
      track := Trackball.ResetTrack);
    OriginalBankSelect(cleared, 0)
  }

  /** The state after power-on: the bootleg window starts as banked ROM, as
      the address map declares it. */
  function PowerOn(): (r: Machine)
    ensures r.Valid() && r.bank.window == Banking.RomWindow
  {
    Reset(Machine(Banking.Video(0, 0, 0, 0), Banking.Bank(8, Banking.SelectUnset, Banking.RomWindow),
                  VideoReg.Unset, Protection.ResetProt, Trackball.ResetTrack, []))
  }

  /** `combatsc_vreg_w` on the whole state. */
  function VregWrite(m: Machine, data: byte): (r: Step)
    requires m.Valid()
    ensures r.m.Valid() && r.m.vreg == data && r.latch == None
    ensures r.m == m.(vreg := data)
    ensures r.marks.text <==> m.vreg != data
    ensures r.marks == VideoReg.Write(m.vreg, data).marks
  {
    var u := VideoReg.Write(m.vreg, data);
    Step(m.(vreg := u.vreg), u.marks, None)
  }

  /** Sub-offsets of the bootleg I/O window. */
  const PriorityOffset: nat := 0x400
  const SoundLatchOffset: nat := 0x800
  const VregOffset: nat := 0xc00

  /** `combatscb_io_w(offset, data)`, installed over 0x4000-0x7fff. */
  function IoWrite(m: Machine, offset: nat, data: byte): (r: Step)
    requires m.Valid() && offset < Layout.IoRamSize
    ensures r.m.Valid()
    ensures offset == PriorityOffset ==>
      r.m == m.(video := Banking.PriorityWrite(data)) && r.marks == VideoReg.NoMarks && r.latch == None
    ensures offset == SoundLatchOffset ==>
      r.m == m && r.marks == VideoReg.NoMarks && r.latch == Some(data)
    ensures offset == VregOffset ==>
      r == VregWrite(m, data)
    ensures offset != PriorityOffset && offset != SoundLatchOffset && offset != VregOffset ==>
      && r.m.work[offset] == data && r.marks == VideoReg.NoMarks && r.latch == None
      && r.m.video == m.video && r.m.bank == m.bank && r.m.vreg == m.vreg
      && r.m.prot == m.prot && r.m.track == m.track
    // nothing outside the one addressed I/O RAM byte changes, and the video
    // pages after the I/O RAM are never reached
    ensures forall i :: 0 <= i < Layout.WorkSize && i != offset ==> r.m.work[i] == m.work[i]
    ensures r.m.work[Layout.IoRamSize..] == m.work[Layout.IoRamSize..]
    ensures Layout.IoRamOffset + offset < Layout.PageOffset(0)
  {
    if offset == PriorityOffset then
      Step(m.(video := Banking.PriorityWrite(data)), VideoReg.NoMarks, None)
    else if offset == SoundLatchOffset then
      Step(m, VideoReg.NoMarks, Some(data))
    else if offset == VregOffset then
      VregWrite(m, data)
    else
      Step(m.(work := m.work[Layout.IoRamOffset + offset := data]), VideoReg.NoMarks, None)
  }

  /** A write into the bootleg's 0x4000-0x7fff window: ignored while it is
      banked ROM, dispatched by `combatscb_io_w` while it is the I/O bus. */
  function WindowWrite(m: Machine, offset: nat, data: byte): (r: Step)
    requires m.Valid() && offset < Layout.IoRamSize
    ensures r.m.Valid() && r.m.bank == m.bank
    ensures m.bank.window == Banking.RomWindow ==> r == Step(m, VideoReg.NoMarks, None)
    ensures m.bank.window == Banking.IoWindow ==> r == IoWrite(m, offset, data)
  {
    match m.bank.window
    case RomWindow => Step(m, VideoReg.NoMarks, None)
    case IoWindow => IoWrite(m, offset, data)
  }

  /** Where a read of the bootleg window is served from. */
  datatype Source =
    | BankRom(entry: nat, offset: nat)   // a byte of the selected bank entry
    | InputPort(index: nat)              // IN0, IN1, DSW1, DSW2 (`combatscb_io_r`)

  /** Reads stay on "bank1" in both modes; only the I/O mode routes
      0x4400-0x4403 to the input ports. I/O RAM written through the window
      is never read back through it. */
  function WindowRead(m: Machine, offset: nat): (r: Source)
    requires m.Valid() && offset < Layout.IoRamSize
    ensures r.InputPort? <==> m.bank.window == Banking.IoWindow && PriorityOffset <= offset < PriorityOffset + 4
    ensures r.InputPort? ==> r.index < 4
    ensures r.BankRom? ==> r == BankRom(m.bank.entry, offset)
    // a banked read lies inside its entry, below the work area
    ensures r.BankRom? ==>
      Layout.BankBase(r.entry) + r.offset < Layout.BankBase(r.entry) + Layout.BankSize <= Layout.WorkBase
  {
    if m.bank.window == Banking.IoWindow && PriorityOffset <= offset <= PriorityOffset + 3 then
      InputPort(offset - PriorityOffset)
    else
      BankRom(m.bank.entry, offset)
  }

  /** Right after reset any bootleg bank write takes effect: no masked
      selector equals the -1 sentinel. */
  lemma FirstBootlegSelectTakesEffect(m: Machine, data: byte)
    ensures var r := BootlegBankSelect(Reset(m), data);
            && r.bank.select == data % 0x20
            && (r.bank.window == Banking.IoWindow <==> data % 0x20 == Banking.IoSelect)
  {
  }

  /** Selector 0x1f opens the I/O bus: afterwards a plain window write lands
      in I/O RAM, and a write at 0x800 reaches the sound latch. */
  lemma IoSelectOpensWindow(m: Machine, offset: nat, data: byte)
    requires m.Valid() && m.bank.select != Banking.IoSelect
    requires offset < Layout.IoRamSize
    requires offset != PriorityOffset && offset != SoundLatchOffset && offset != VregOffset
    ensures var m1 := BootlegBankSelect(m, 0x1f);
            && m1.bank.window == Banking.IoWindow && m1.bank.entry == 9
            && WindowWrite(m1, offset, data).m.work[offset] == data
            && WindowWrite(m1, SoundLatchOffset, data).latch == Some(data)
  {
  }

  /** Any other changed selector returns the window to banked ROM, where
      every write is ignored. */
  lemma OtherSelectClosesWindow(m: Machine, sel: byte, offset: nat, data: byte)
    requires m.Valid() && sel % 0x20 != Banking.IoSelect && sel % 0x20 != m.bank.select
    requires offset < Layout.IoRamSize
    ensures var m1 := BootlegBankSelect(m, sel);
            WindowWrite(m1, offset, data) == Step(m1, VideoReg.NoMarks, None)
  {
  }

  /** One bus access to a modelled handler. */
  datatype Event =
    | OriginalBank(data: byte)                            // 0x0410
    | BootlegBank(data: byte)                             // 0x0500
    | Vreg(data: byte)                                    // 0x040c
    | Window(offset: nat, data: byte)                     // bootleg 0x4000-0x7fff
    | ProtWrite(offset: nat, data: byte)                  // 0x0200-0x0201
    | ProtClock(data: byte)                               // 0x0206
    | TrackRead(offset: nat, ports: seq<Option<byte>>)    // 0x0404-0x0407

  /** The event stays within the address range its handler is mapped on. */
  predicate WellFormed(e: Event) {
    match e
    case Window(offset, _) => offset < Layout.IoRamSize
    case ProtWrite(offset, _) => offset < 2
    case TrackRead(offset, ports) => offset < Trackball.Axes && |ports| == Trackball.Axes
    case _ => true
  }

  function Apply(m: Machine, e: Event): (r: Machine)
    requires m.Valid() && WellFormed(e)
    ensures r.Valid()
  {
    match e
    case OriginalBank(data) => OriginalBankSelect(m, data)
    case BootlegBank(data) => BootlegBankSelect(m, data)
    case Vreg(data) => VregWrite(m, data).m
    case Window(offset, data) => WindowWrite(m, offset, data).m
    case ProtWrite(offset, data) => m.(prot := Protection.Write(m.prot, offset, data))
    case ProtClock(data) => m.(prot := Protection.ClockWrite(m.prot, data))
    case TrackRead(offset, ports) => m.(track := Trackball.Read(m.track, offset, ports).track)
  }

  /** The state after a sequence of bus events. */
  function Run(m: Machine, es: seq<Event>): Machine
    requires m.Valid() && forall i :: 0 <= i < |es| ==> WellFormed(es[i])
    decreases |es|
  {
    if es == [] then m else Run(Apply(m, es[0]), es[1..])
  }

  /** Every reachable state is valid: whatever the bus does, the video page
      follows the circuit and the bank entry is one of the ten configured. */
  lemma {:induction false} RunPreservesValid(m: Machine, es: seq<Event>)
    requires m.Valid() && forall i :: 0 <= i < |es| ==> WellFormed(es[i])
    ensures Run(m, es).Valid()
    ensures Run(m, es).bank.entry < Layout.BankCount
    ensures Run(m, es).video.page == Run(m, es).video.circuit
    decreases |es|
  {
    if es != [] {
      RunPreservesValid(Apply(m, es[0]), es[1..]);
    }
  }

  /** No sequence of bus events writes the video pages: only the I/O RAM part
      of the work area is reachable from the modelled handlers. */
  lemma {:induction false} RunKeepsPages(m: Machine, es: seq<Event>)
    requires m.Valid() && forall i :: 0 <= i < |es| ==> WellFormed(es[i])
    ensures |Run(m, es).work| == Layout.WorkSize
    ensures Run(m, es).work[Layout.IoRamSize..] == m.work[Layout.IoRamSize..]
    decreases |es|
  {
    if es != [] {
      var m1 := Apply(m, es[0]);
      assert m1.work[Layout.IoRamSize..] == m.work[Layout.IoRamSize..];
      RunKeepsPages(m1, es[1..]);
    }
  }
}
