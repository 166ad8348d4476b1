/**
 * The trackball ports (`trackball_r`, four consecutive read addresses, one
 * per axis of the two players' controls). A read of the first address
 * resamples all four counters; every read returns a sign bit over the low
 * seven bits of the axis' last sample.
 */
module Trackball {
  import opened Bytes

  const Axes: nat := 4

  /** The value an absent input port reads as (`read_safe(0xff)`). */
  const AbsentSample: byte := 0xff

  predicate IsSign(s: byte) {
    s == 0 || s == 0x80
  }

  /** The last sample of each axis (`m_pos`) and its sign bit (`m_sign`). */
  datatype Track = Track(pos: seq<byte>, sign: seq<byte>) {
    predicate Valid() {
      |pos| == Axes && |sign| == Axes && forall i :: 0 <= i < Axes ==> IsSign(sign[i])
    }
  }

  /** What machine reset leaves: every position and sign zero. */
  const ResetTrack: Track := Track([0, 0, 0, 0], [0, 0, 0, 0])

  /** The hardware counter of one axis, or 0xff when the port is absent. */
  function Sample(port: Option<byte>): byte {
    match port
    case Some(v) => v
    case None => AbsentSample
  }

  /** `dir[i] = curr - m_pos[i]`: the bytes are promoted, so this is an
      ordinary integer difference in [-255, 255]. */
  function Delta(curr: byte, prev: byte): int {
    curr - prev
  }

  /** `dir & 0x80`: bit 7 of the two's complement difference, that is the
      top bit of the 8-bit wrap-around delta. */
  function SignOf(dir: int): (s: byte)
    ensures IsSign(s)
  {
    if dir % 256 >= 0x80 then 0x80 else 0
  }

  /** The 8-bit wrap-around delta read as a signed byte. */
  function SignedDelta(curr: byte, prev: byte): (d: int)
    ensures -128 <= d < 128
    ensures (d - (curr - prev)) % 256 == 0
  {
    var w := (curr - prev) % 256;
    if w >= 128 then w - 256 else w
  }

  /** The raw sign bit is set exactly when the wrapped movement, read as a
      signed byte, is backwards; a still axis has a clear sign. */
  lemma SignMeansBackward(curr: byte, prev: byte)
    ensures SignOf(Delta(curr, prev)) == 0x80 <==> SignedDelta(curr, prev) < 0
    ensures Delta(curr, prev) == 0 <==> curr == prev
  {
  }

  /** The "orthogonal movement" fix for one pair of axes: when exactly one
      axis of the pair stood still, its sign is derived from the other's,
      the first axis taking the complement and the second a copy. */
  function FixPair(s0: byte, s1: byte, d0: int, d1: int): (r: (byte, byte))
    requires IsSign(s0) && IsSign(s1)
    ensures IsSign(r.0) && IsSign(r.1)
    ensures (d0 == 0) == (d1 == 0) ==> r == (s0, s1)
    ensures d0 == 0 && d1 != 0 ==> r.1 == s1 && r.0 != s1
    ensures d0 != 0 && d1 == 0 ==> r.0 == s0 && r.1 == s0
  {
    if d0 != 0 || d1 != 0 then
      var f0 := if d0 == 0 then 0x80 - s1 else s0;   // m_sign[1] ^ 0x80
      var f1 := if d1 == 0 then f0 else s1;
      (f0, f1)
    else
      (s0, s1)
  }

  /** Resampling on a read of offset 0: new positions, raw signs, then the
      fix applied to the pairs (0, 1) and (2, 3) independently. */
  function Resample(t: Track, ports: seq<Option<byte>>): (r: Track)
    requires t.Valid() && |ports| == Axes
    ensures r.Valid()
    ensures forall i :: 0 <= i < Axes ==> r.pos[i] == Sample(ports[i])
    ensures forall i :: 0 <= i < Axes && ports[i].None? ==> r.pos[i] == AbsentSample
    ensures forall a | a == 0 || a == 2 ::
      var da := Delta(Sample(ports[a]), t.pos[a]);
      var db := Delta(Sample(ports[a + 1]), t.pos[a + 1]);
      && ((da == 0) == (db == 0) ==> r.sign[a] == SignOf(da) && r.sign[a + 1] == SignOf(db))
      && (da == 0 && db != 0 ==> r.sign[a + 1] == SignOf(db) && r.sign[a] != r.sign[a + 1])
      && (da != 0 && db == 0 ==> r.sign[a] == SignOf(da) && r.sign[a + 1] == r.sign[a])
  {
    var curr := seq(Axes, i requires 0 <= i < Axes => Sample(ports[i]));
    var dir := seq(Axes, i requires 0 <= i < Axes => Delta(curr[i], t.pos[i]));
    var raw := seq(Axes, i requires 0 <= i < Axes => SignOf(dir[i]));
    var p01 := FixPair(raw[0], raw[1], dir[0], dir[1]);
    var p23 := FixPair(raw[2], raw[3], dir[2], dir[3]);
    Track(curr, [p01.0, p01.1, p23.0, p23.1])
  }

  /** The result of one port read: the trackball state after it and the
      byte on the bus. */
  datatype ReadResult = ReadResult(track: Track, value: byte)

  /** `trackball_r(offset)`, mapped at 0x0404-0x0407. */
  function Read(t: Track, offset: nat, ports: seq<Option<byte>>): (r: ReadResult)
    requires t.Valid() && offset < Axes && |ports| == Axes
    ensures r.track.Valid()
    ensures offset != 0 ==> r.track == t
    ensures offset == 0 ==> forall i :: 0 <= i < Axes ==> r.track.pos[i] == Sample(ports[i])
    ensures offset == 0 ==> r.track == Resample(t, ports)
    // the byte decodes back into the axis' sign and the low 7 bits of its position
    ensures Bit(r.value, 7) <==> r.track.sign[offset] == 0x80
    ensures r.value % 0x80 == r.track.pos[offset] % 0x80
  {
    var t' := if offset == 0 then Resample(t, ports) else t;
    ReadResult(t', t'.sign[offset] + t'.pos[offset] % 0x80)   // m_sign | (m_pos & 0x7f)
  }

  /** Two resamples of unmoved counters: the second sees no movement on any
      axis, so all four signs come out clear and each port reads the low
      seven bits of its counter. */
  lemma StillTrackballReadsClear(t: Track, ports: seq<Option<byte>>, offset: nat)
    requires t.Valid() && |ports| == Axes && offset < Axes
    ensures var t1 := Read(t, 0, ports).track;
            var t2 := Read(t1, 0, ports).track;
            (forall i :: 0 <= i < Axes ==> t2.sign[i] == 0)
            && Read(t2, offset, ports).value == Sample(ports[offset]) % 0x80
  {
    var t1 := Read(t, 0, ports).track;
    var t2 := Read(t1, 0, ports).track;
    forall i | 0 <= i < Axes
      ensures t2.sign[i] == 0
    {
      assert Delta(Sample(ports[i]), t1.pos[i]) == 0;
    }
  }

  /** The ports as the joystick set (`init_combatsc`) sees them: offset 0 is
      remapped to the IN1 input port, so `trackball_r` is never called with
      offset 0 and nothing is ever resampled. */
  function JoystickRead(t: Track, offset: nat, in1: byte, ports: seq<Option<byte>>): (r: ReadResult)
    requires t.Valid() && offset < Axes && |ports| == Axes
    ensures r.track == t
    ensures offset == 0 ==> r.value == in1
    ensures t == ResetTrack && offset != 0 ==> r.value == 0
  {
    if offset == 0 then ReadResult(t, in1) else Read(t, offset, ports)
  }
}
