/** Transport-stream packets, their timing fields, and the selected PCR clock.
    Durations are whole ticks of the 90 kHz PCR base. */
module Ts {
  datatype Option<+T> = None | Some(value: T)

  type byte = b: int | 0 <= b < 256

  const TS_PACKET := 188

  type Raw = s: seq<byte> | |s| == 188 witness seq(188, _ => 0)

  datatype Packet = Packet(raw: Raw)

  const TS_SYNC: byte := 0x47
  const SDT_PID := 0x11
  const PCR_MODULUS := 0x2_0000_0000

  /** Bit `mask` (a power of two) of `b`. */
  predicate Bit(b: byte, mask: int)
    requires mask > 0
  {
    (b / mask) % 2 == 1
  }

  type Pcr = x: nat | x < PCR_MODULUS

  datatype Timing = Timing(pid: nat, pcr: Option<Pcr>, discontinuity: bool)

  function TsPid(p: Packet): nat {
    (p.raw[1] as int % 32) * 256 + p.raw[2] as int
  }

  /** PID, PCR base and discontinuity indicator of one packet. */
  function TsTiming(p: Packet): Timing {
    if p.raw[0] != TS_SYNC || !Bit(p.raw[3], 0x20) then Timing(0, None, false)
    else if p.raw[4] == 0 || p.raw[4] > 183 then Timing(TsPid(p), None, false)
    else
      var pcr: Option<Pcr> :=
        if Bit(p.raw[5], 0x10) && p.raw[4] >= 7 then
          Some(p.raw[6] as int * 0x200_0000 + p.raw[7] as int * 0x2_0000 + p.raw[8] as int * 0x200
               + p.raw[9] as int * 2 + p.raw[10] as int / 128)
        else None;
      Timing(TsPid(p), pcr, Bit(p.raw[5], 0x80))
  }

  /** Clear the discontinuity indicator of a packet that carries an adaptation field. */
  function ClearMarker(p: Packet): Packet {
    if Bit(p.raw[3], 0x20) && p.raw[4] > 0 then Packet(p.raw[5 := p.raw[5] % 128]) else p
  }

  lemma ClearMarkerClears(p: Packet)
    ensures !TsTiming(ClearMarker(p)).discontinuity
    ensures TsPid(ClearMarker(p)) == TsPid(p)
    ensures TsTiming(ClearMarker(p)).pcr == TsTiming(p).pcr
  {
    if Bit(p.raw[3], 0x20) && p.raw[4] > 0 {
      assert (p.raw[5] / 16) % 2 == ((p.raw[5] % 128) / 16) % 2;
    }
  }

  /** Forward distance between two PCR bases modulo the wrap, unless it exceeds half of it. */
  function PcrDelta(start: Pcr, end: Pcr): Option<nat> {
    var delta := if start <= end then end - start else end + PCR_MODULUS - start;
    if delta <= PCR_MODULUS / 2 then Some(delta) else None
  }

  datatype Clock = Clock(pid: Option<nat>, start: Option<Pcr>, last: Option<Pcr>)

  const CLEARED := Clock(None, None, None)

  datatype Observation = Ignored | Advanced(elapsed: nat) | Reset

  function Elapsed(c: Clock): Option<nat> {
    if c.start.Some? && c.last.Some? then PcrDelta(c.start.value, c.last.value) else None
  }

  function ClockObserve(c: Clock, t: Timing): (r: (Clock, Observation)) {
    if t.discontinuity then (CLEARED, Reset)
    else if t.pcr.None? then (c, Ignored)
    else if c.pid.Some? && c.pid.value != t.pid then (c, Ignored)
    else if c.last.Some? && PcrDelta(c.last.value, t.pcr.value).None? then (CLEARED, Reset)
    else
      var c' := Clock(Some(t.pid), if c.start.Some? then c.start else t.pcr, t.pcr);
      (c', Advanced(if Elapsed(c').Some? then Elapsed(c').value else 0))
  }

  /** A timing that started a clock: re-observing it leaves the clock at zero elapsed ticks. */
  ghost predicate Rebases(c: Clock, boundary: Option<Timing>) {
    if boundary.None? then c == CLEARED
    else
      && boundary.value.pcr.Some?
      && !boundary.value.discontinuity
      && c.pid == Some(boundary.value.pid)
      && c.start.Some?
      && c.last == boundary.value.pcr
  }

  /** The clock a segment boundary restarts: cleared, then seeded with the boundary timing. */
  function Rebase(boundary: Option<Timing>): Clock {
    if boundary.Some? then ClockObserve(CLEARED, boundary.value).0 else CLEARED
  }

  /** After a rebase at the latest accepted timing, observing that same packet again, or any
      packet that the clock ignored, leaves no elapsed time. */
  lemma RebaseIsZero(c: Clock, boundary: Option<Timing>, t: Timing)
    requires Rebases(c, boundary)
    requires !t.discontinuity
    requires ClockObserve(c, t).1.Ignored? || (boundary == Some(t) && ClockObserve(c, t).1.Advanced?)
    requires boundary.Some?
    ensures Rebases(Rebase(boundary), boundary)
    ensures ClockObserve(Rebase(boundary), t).0 == Rebase(boundary)
    ensures Elapsed(Rebase(boundary)) == Some(0)
  {
  }
}
