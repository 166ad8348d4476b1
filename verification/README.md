# Combat School driver registers, modelled in Dafny

This project models the register-level state machine of the MAME driver for
Konami's "Combat School" / "Boot Camp" (GX611) and its bootleg,
`src/mame/drivers/combatsc.cpp`: the handlers the main CPU reaches through
its memory map, which switch ROM banks and video circuits, track the video
register, decode the trackball and emulate the multiplier protection.

The state is one immutable record (`Combatsc.Machine`) and every handler is
a pure function from state and bus value to a new state plus effects:

- `bytes.dfy` (`Bytes`): bus bytes as integers in [0, 256); the source's
  masks and shifts written arithmetically, and digit lemmas relating them to
  individual bits.
- `layout.dfy` (`Layout`): the fixed layout made at machine start. Ten bank
  entries of 0x4000 bytes start at 0x10000 in "maincpu". The work area at
  0x38000 holds the bootleg I/O RAM (0x4000 bytes), page[0] and page[1]
  (0x2000 bytes each).
- `videoreg.dfy` (`VideoReg`): `combatsc_vreg_w`, with `mark_all_dirty`
  calls returned as flags.
- `banking.dfy` (`Banking`): `combatscb_priority_w`, `combatsc_bankselect_w`
  and `combatscb_bankselect_w`. The references `m_videoram` and `m_scrollram`
  become buffer indices. Installing the bootleg I/O handlers becomes a
  window mode.
- `trackball.dfy` (`Trackball`): `trackball_r`, and the joystick set's remap
  of offset 0 from `init_combatsc`.
- `protection.dfy` (`Protection`): `protection_w`, `protection_r`,
  `protection_clock_w`.
- `combatsc.dfy` (`Combatsc`): the whole state, `machine_reset`,
  `combatscb_io_w`, the bootleg window dispatch, and runs of bus events with
  the invariants they keep.

Hardware inputs enter as parameters: the four trackball counters are
`Option<byte>` values, with `None` standing for an absent port, and the IN1
port byte is a parameter too. A write to the sound latch is returned as an
effect.

Three behaviours of the code are worth stating plainly:

- Orthogonal-movement fix. Lines 281-282 and 286-287: a still first axis of
  a pair takes the complement (`^ 0x80`) of its partner's sign, and a still
  second axis copies it (`Trackball.FixPair`).
- Circuit and scroll table. `combatscb_bankselect_w` rebinds only the page,
  so the scroll table can stay on the other circuit: after a priority write
  of 0x40 and a bank write of 0x00, circuit 0 is paired with scrollram1
  (`Banking.BootlegScrollCanLag`). The invariant that does hold on both
  boards is page == circuit (`Combatsc.RunPreservesValid`).
- Window reads in I/O mode. Reads of the window are not redirected to the
  I/O RAM. They come from the selected bank entry (9 right after selector
  0x1f; 8 after a reset, which leaves the installed handlers in place),
  except 0x4400-0x4403, which go to the input ports (`Combatsc.WindowRead`).

The class header `includes/combatsc.h` is not part of this model. The
register types come from how the code uses them:

- `m_vreg` and `m_bank_select` are assumed to be declared `int` in that
  header; reset stores -1 in both, and the model keeps -1 as a value no
  byte equals. Under this assumption the first video-register write after
  reset always marks the text layer and tilemap 1, because `-1 >> 4` is -1,
  and marks tilemap 0 unless the low nibble is 0xf, because `-1 & 0x0f` is
  0xf; a first write of 0xff marks text and tilemap 1. Were `m_vreg` a
  `uint8_t`, reset would store 0xff and that first write of 0xff would mark
  nothing.
- The trackball `dir[i]` is a C `int` difference. Its bit 7 is taken from
  its two's-complement value.

## Model

| member | source | states |
|---|---|---|
| Layout.BankBase | src/mame/drivers/combatsc.cpp:648-656 | the ten bank entries follow one another 0x4000 bytes apart from 0x10000, every one lies below the work area at 0x38000, and the last one ends exactly where the work area begins |
| Layout.PageOffset | src/mame/drivers/combatsc.cpp:648-652 | page[0] begins where the 0x4000-byte I/O RAM ends, page[1] follows page[0], and the two pages fill the rest of the work area, so page[1] ends where the 0x40000-byte "maincpu" region ends |
| VideoReg.Write | src/mame/drivers/combatsc.cpp:139-150 | afterwards the register holds the written byte. The text layer is marked exactly when the value changed, and that is exactly when at least one tilemap is marked. From the reset value -1, tilemap 1 is always marked and tilemap 0 is marked unless the low nibble is 0xf |
| VideoReg.RewriteIsNoOp | src/mame/drivers/combatsc.cpp:139-141 | writing the same byte a second time marks no layer and leaves the register as it is |
| VideoReg.NibbleMarks | src/mame/drivers/combatsc.cpp:144-147 | between two bytes, tilemap 0 is marked exactly when one of bits 3..0 differs, and tilemap 1 exactly when one of bits 7..4 differs |
| Banking.EntryOf | src/mame/drivers/combatsc.cpp:194-197 | the entry is always one of the ten configured. It is below 8 exactly when bit 4 is set, and is then the binary number in bits 3..1. Otherwise it is 8 plus bit 0 |
| Banking.ControlFor | src/mame/drivers/combatsc.cpp:194-197 | inverse of the entry decode: for each of the ten entries it gives a control byte below 0x1f that selects that entry |
| Banking.PriorityWrite | src/mame/drivers/combatsc.cpp:159-175 | bit 6 picks circuit 1 or 0, and the page and scroll table are bound to that same circuit. The priority flag is non-zero exactly when bit 5 is set |
| Banking.OriginalSelect | src/mame/drivers/combatsc.cpp:177-198 | circuit, page and scroll table come from bit 6 together, and priority comes from bit 5, exactly as the priority handler sets them. The entry is the one `EntryOf` decodes: bits 3..1 when bit 4 is set, otherwise 8 plus bit 0. The bootleg selector and the window mode are unchanged |
| Banking.BootlegSelect | src/mame/drivers/combatsc.cpp:211-247 | circuit and page follow bit 6 on every write, and the scroll table and priority never change. An unchanged masked value leaves the bank state alone. A changed one is stored. Only 0x1f opens the I/O window, and it lands on entry 9. Any other value gives ROM mode on the entry its bits select |
| Banking.EntryIgnoresHighBits | src/mame/drivers/combatsc.cpp:224-233 | the entry depends only on the low five bits, so the bootleg's `& 0x1f` mask does not change which entry is chosen |
| Banking.BootlegAgreesWithOriginal | src/mame/drivers/combatsc.cpp:226-237 | for a changed masked value other than 0x1f, both boards pick the same bank entry and the same page. For 0x1f the bootleg picks entry 9 where the original board picks 7 |
| Banking.BootlegSelectIdempotent | src/mame/drivers/combatsc.cpp:211-228 | repeating a bootleg bank write changes nothing further |
| Banking.BootlegScrollCanLag | src/mame/drivers/combatsc.cpp:159-175 | a bootleg bank write can leave the scroll table on the other circuit: after priority 0x40 and bank 0x00 the state is circuit 0 with scrollram1 |
| Trackball.SignOf | src/mame/drivers/combatsc.cpp:273-274 | a raw sign is always 0 or 0x80 |
| Trackball.SignMeansBackward | src/mame/drivers/combatsc.cpp:273-274 | the raw sign is 0x80 exactly when the wrapped 8-bit movement, read as a signed byte, is negative. The difference is zero exactly when the sample equals the old position |
| Trackball.FixPair | src/mame/drivers/combatsc.cpp:278-289 | if both axes of a pair moved, or neither did, the signs are kept. If only the second axis moved, the first ends opposite to it. If only the first moved, the second copies it |
| Trackball.Resample | src/mame/drivers/combatsc.cpp:263-289 | every position becomes its new sample, with 0xff for an absent port. For each pair (0,1) and (2,3), each sign is the raw sign of its own movement or is derived from the moving partner, as the fix rule says |
| Trackball.Read | src/mame/drivers/combatsc.cpp:261-292 | reads at offsets 1-3 change nothing, and a read at offset 0 leaves exactly the resampled state (new positions and fixed signs). The byte read decodes back into the axis' sign in bit 7 and the low seven bits of its position |
| Trackball.StillTrackballReadsClear | src/mame/drivers/combatsc.cpp:263-291 | two resamples of unmoved counters leave every sign clear. Each port then reads the low seven bits of its counter |
| Trackball.JoystickRead | src/mame/drivers/combatsc.cpp:991-995 | on the joystick set offset 0 reads IN1 and the trackball state never changes. From reset, offsets 1-3 always read 0 |
| Protection.Write | src/mame/drivers/combatsc.cpp:296-299 | offset 0 replaces the first operand and offset 1 the second, and the other operand is kept |
| Protection.ClockWrite | src/mame/drivers/combatsc.cpp:304-307 | a clock strobe leaves the operands unchanged |
| Protection.ProductReadBack | src/mame/drivers/combatsc.cpp:295-303 | after operands a and b are written, in either order and with a strobe in between, read(0) + 256 * read(1) == a * b |
| Protection.ProductFitsSixteenBits | src/mame/drivers/combatsc.cpp:300-303 | the product of two bytes fits in 16 bits, so its high byte is below 256 and nothing is truncated |
| Protection.Read | src/mame/drivers/combatsc.cpp:300-303 | offset 1 returns the whole high byte of the operands' product, with nothing above bit 15 cut off; offset 0 agrees with the product modulo 256. `ProductReadBack` states the two together |
| Combatsc.OriginalBankSelect | src/mame/drivers/combatsc.cpp:177-198 | keeps the state valid. The bank entry is the one `EntryOf` decodes and the video state is the priority handler's for the same byte. Nothing outside video and bank entry changes |
| Combatsc.BootlegBankSelect | src/mame/drivers/combatsc.cpp:211-247 | keeps the state valid; circuit, page, bank entry, selector and I/O window become exactly what the bootleg selector computes from the written byte, while priority, scroll table, video register, protection, trackball and RAM stay unchanged |
| Combatsc.Reset | src/mame/drivers/combatsc.cpp:678-697 | the work area is all zero and the video register and bank selector are -1. Protection and trackball are zero. The result is circuit 0 with scrollram0, priority 0 and bank entry 8, and the window mode is untouched |
| Combatsc.PowerOn | src/mame/drivers/combatsc.cpp:378-385 | the power-on state is valid, with the bootleg window in banked-ROM mode as the address map declares |
| Combatsc.VregWrite | src/mame/drivers/combatsc.cpp:139-150 | only the video register changes, to the written byte. The text layer is marked exactly when the value differs, and the tilemap marks are the per-nibble ones of the video-register write |
| Combatsc.IoWrite | src/mame/drivers/combatsc.cpp:200-209 | 0x400 acts as the priority handler, 0x800 only emits a latch byte, and 0xc00 acts as the video register handler. Any other offset changes exactly I/O RAM byte `offset`, which lies below page[0]. No offset reaches the video pages |
| Combatsc.WindowWrite | src/mame/drivers/combatsc.cpp:238-244 | a window write never changes the bank state. In ROM mode it is ignored; in I/O mode it is exactly the `combatscb_io_w` dispatch |
| Combatsc.WindowRead | src/mame/drivers/combatsc.cpp:238-244 | a window read goes to an input port exactly in I/O mode at 0x400-0x403. Otherwise it reads the selected bank entry at that offset, an address inside that entry and below the work area |
| Combatsc.FirstBootlegSelectTakesEffect | src/mame/drivers/combatsc.cpp:684-697 | after reset any bootleg bank write is stored, and it opens the I/O window exactly for selector 0x1f, since no masked value equals -1 |
| Combatsc.IoSelectOpensWindow | src/mame/drivers/combatsc.cpp:235-239 | after a changed write of 0x1f the window is in I/O mode on entry 9. A plain window write then lands in I/O RAM, and offset 0x800 reaches the sound latch |
| Combatsc.OtherSelectClosesWindow | src/mame/drivers/combatsc.cpp:241-245 | after a changed write of any other selector, every window write is ignored |
| Combatsc.Apply | src/mame/drivers/combatsc.cpp:349-385 | any modelled bus access keeps the machine valid |
| Combatsc.RunPreservesValid | src/mame/drivers/combatsc.cpp:159-247 | along any sequence of bus events the page follows the circuit and the bank entry stays among the ten configured |
| Combatsc.RunKeepsPages | src/mame/drivers/combatsc.cpp:200-209 | no modelled handler writes the video pages: along any sequence of modelled bus events, the RAM writes of `combatscb_io_w` stay in the I/O RAM below offset 0x4000 |

## Left out

- Sound handlers (`combatsc_sh_irqtrigger_w`, `combatsc_busy_r`, `combatsc_play_w`, `combatsc_voice_reset_w`, `combatsc_portA_w`, `combatscb_msm_w`, `combatscb_sound_irq_ack`): they only call into the uPD7759, MSM5205, YM2203 and CPU-line devices, whose code is not part of this model. The sound latch write of `combatscb_io_w` is kept as an emitted byte.
- `combatsc_coin_counter_w` and `combatscb_io_r`: they only forward to machine bookkeeping and input ports. Which reads of the bootleg window go to the ports is modelled in `Combatsc.WindowRead`. The port values are not.
- Address maps, input ports and DIP switches, graphics layouts, ROM manifests and machine configurations: these are declarative data consumed by emulator code outside this driver. `Combatsc.Event` keeps only the addresses of the modelled handlers.
- The video handlers at 0x2000-0x3fff (`combatsc_video_r`, `combatsc_video_w`), `combatsc_pf_control_w` and the scroll-RAM handlers (`combatsc_scrollram_r`, `combatsc_scrollram_w`): they live in the video source file, which is not part of this model. `combatsc_video_w` writes the video pages through `m_videoram`, so the pages do change in the running program; `Combatsc.RunKeepsPages` speaks only of the modelled handlers.
- Tilemap rendering, sprites and the scroll-RAM contents: `mark_all_dirty` is modelled only as returned flags. The scroll tables are modelled only as which of the two is selected.
- Bank entry contents and ROM loading: a window read is described by its source (bank entry and offset), not by the byte.
- `m_boost`, the interleave timer, save-state registration and scheduling: these are plumbing with no effect on the handlers' results.
- Run-level events mix both boards' handlers. Each real board uses only its own address map. The invariants proved for the mixture also hold for each board alone.
