/** The streaming MPEG-audio probe against a parser that sees the whole stream at once:
    PES packets (section 2.4.3.6 of ISO/IEC 13818-1) carrying a chain of audio frames
    (section 2.4.2.3 of ISO/IEC 11172-3). */
module MpegProbe {
  import opened Arith
  import opened Ts

  // ----- Audio frames ---------------------------------------------------------------------

  datatype Signature = Signature(version: nat, layer: nat, rate: nat)

  datatype Frame = Frame(size: nat, signature: Signature)

  const MPEG1_L2: seq<nat> := [32, 48, 56, 64, 80, 96, 112, 128, 160, 192, 224, 256, 320, 384]
  const MPEG1_L3: seq<nat> := [32, 40, 48, 56, 64, 80, 96, 112, 128, 160, 192, 224, 256, 320]
  const MPEG2: seq<nat> := [8, 16, 24, 32, 40, 48, 56, 64, 80, 96, 112, 128, 144, 160]

  /** Bit rate in kbit/s for a bit-rate index in 1..14. */
  function Kbps(version: nat, layer: nat, index: nat): (k: nat)
    requires 1 <= index < 15
    ensures version != 3 ==> 8 <= k <= 160
    ensures version == 3 ==> 32 <= k <= 384
  {
    if version != 3 then MPEG2[index - 1] else if layer == 2 then MPEG1_L2[index - 1] else MPEG1_L3[index - 1]
  }

  function SampleRate(version: nat, index: nat): (r: nat)
    requires index < 3
    ensures version == 3 ==> 32000 <= r <= 48000
    ensures version == 2 ==> 16000 <= r <= 24000
    ensures version != 3 && version != 2 ==> 8000 <= r <= 12000
  {
    var base := [44100, 48000, 32000][index];
    if version == 3 then base else if version == 2 then base / 2 else base / 4
  }

  /** Bytes per frame. Every supported header gives at least 24, so skipping the four header
      bytes cannot underflow. */
  function FrameBytes(version: nat, layer: nat, kbps: nat, rate: nat, padding: nat): (size: nat)
    requires version < 4 && version != 1 && (layer == 1 || layer == 2) && padding <= 1
    requires if version == 3 then 32 <= kbps <= 384 && 32000 <= rate <= 48000
             else if version == 2 then 8 <= kbps <= 160 && 16000 <= rate <= 24000
             else 8 <= kbps <= 160 && 8000 <= rate <= 12000
    ensures 24 <= size <= 2881
  {
    var coefficient := if layer == 1 && version != 3 then 72000 else 144000;
    assert 24 * rate <= coefficient * kbps <= 2880 * rate;
    QuotientBounds(coefficient * kbps, rate, 24, 2880);
    coefficient * kbps / rate + padding
  }

  function FrameSize(h: seq<byte>): (f: Option<Frame>)
    requires |h| == 4
    ensures f.Some? ==> 24 <= f.value.size <= 2881
  {
    var version, layer := (h[1] / 8) % 4, (h[1] / 2) % 4;
    var bitrate, rate := h[2] / 16, (h[2] / 4) % 4;
    if h[0] != 0xff || h[1] / 32 != 7 || version == 1 || (layer != 1 && layer != 2)
       || !(1 <= bitrate < 15) || rate == 3 || h[3] % 4 == 2 then None
    else
      var size := FrameBytes(version, layer, Kbps(version, layer, bitrate), SampleRate(version, rate), (h[2] / 2) % 2);
      Some(Frame(size, Signature(version, layer, rate)))
  }

  /** Samples in one frame: half as many in Layer III (code 1) below MPEG-1 (code 3). */
  function Samples(version: nat, layer: nat): nat {
    if layer == 1 && version != 3 then 576 else 1152
  }

  /** The bit-rate ladders. MPEG-1 Layer III climbs in eighths of each octave and doubles every four
      steps; Layer II skips its second step and ends one step higher; the lower rates climb by 8, and by
      16 from 64 on. */
  lemma BitRates(layer: nat, version: nat, i: nat)
    requires 1 <= i < 15 && version != 3
    ensures i <= 4 ==> Kbps(3, 1, i) == 24 + 8 * i
    ensures i <= 10 ==> Kbps(3, 1, i + 4) == 2 * Kbps(3, 1, i)
    ensures Kbps(3, 2, 1) == Kbps(3, 1, 1) && Kbps(3, 2, 14) == 2 * Kbps(3, 2, 10)
    ensures 2 <= i <= 13 ==> Kbps(3, 2, i) == Kbps(3, 1, i + 1)
    ensures Kbps(version, layer, i) == if i <= 8 then 8 * i else 16 * (i - 4)
  {
  }

  /** Sample rates halve from MPEG-1 to MPEG-2 (code 2), and again to MPEG-2.5. */
  lemma SampleRates(i: nat)
    requires i < 3
    ensures SampleRate(3, 0) == 44100 && SampleRate(3, 1) == 48000 && SampleRate(3, 2) == 32000
    ensures 2 * SampleRate(2, i) == SampleRate(3, i) && 2 * SampleRate(0, i) == SampleRate(2, i)
  {
  }

  /** The four bytes of a frame header, field by field. */
  function HeaderOf(sync: nat, version: nat, layer: nat, protection: nat, bitrate: nat, rate: nat, padding: nat,
                    secret: nat, modes: nat, emphasis: nat): (h: seq<byte>)
    requires sync < 0x800 && version < 4 && layer < 4 && protection < 2 && bitrate < 16 && rate < 4 && padding < 2
    requires secret < 2 && modes < 64 && emphasis < 4
    ensures |h| == 4
  {
    [sync / 8, (sync % 8) * 32 + version * 8 + layer * 2 + protection, bitrate * 16 + rate * 4 + padding * 2 + secret,
     modes * 4 + emphasis]
  }

  lemma VersionByte(b: byte, high: nat, version: nat, layer: nat, protection: nat)
    requires high < 8 && version < 4 && layer < 4 && protection < 2
    requires b == high * 32 + version * 8 + layer * 2 + protection
    ensures b / 32 == high && (b / 8) % 4 == version && (b / 2) % 4 == layer
  {
    assert b / 8 == high * 4 + version && b / 2 == high * 16 + version * 4 + layer;
  }

  lemma RateByte(b: byte, bitrate: nat, rate: nat, padding: nat, secret: nat)
    requires bitrate < 16 && rate < 4 && padding < 2 && secret < 2
    requires b == bitrate * 16 + rate * 4 + padding * 2 + secret
    ensures b / 16 == bitrate && (b / 4) % 4 == rate && (b / 2) % 2 == padding
  {
    assert b / 4 == bitrate * 4 + rate && b / 2 == bitrate * 8 + rate * 2 + padding;
  }

  lemma Fields(sync: nat, version: nat, layer: nat, protection: nat, bitrate: nat, rate: nat, padding: nat, secret: nat,
               modes: nat, emphasis: nat)
    requires sync < 0x800 && version < 4 && layer < 4 && protection < 2 && bitrate < 16 && rate < 4 && padding < 2
    requires secret < 2 && modes < 64 && emphasis < 4
    ensures var h := HeaderOf(sync, version, layer, protection, bitrate, rate, padding, secret, modes, emphasis);
            && (h[0] == 0xff && h[1] / 32 == 7 <==> sync == 0x7ff)
            && (h[1] / 8) % 4 == version && (h[1] / 2) % 4 == layer
            && h[2] / 16 == bitrate && (h[2] / 4) % 4 == rate && (h[2] / 2) % 2 == padding && h[3] % 4 == emphasis
  {
    var h := HeaderOf(sync, version, layer, protection, bitrate, rate, padding, secret, modes, emphasis);
    VersionByte(h[1], sync % 8, version, layer, protection);
    RateByte(h[2], bitrate, rate, padding, secret);
  }

  /** Besides its padding byte a frame is the whole part of its samples' share of the bit rate. */
  lemma FrameBytesExact(version: nat, layer: nat, kbps: nat, rate: nat, padding: nat)
    requires version < 4 && version != 1 && (layer == 1 || layer == 2) && padding <= 1
    requires if version == 3 then 32 <= kbps <= 384 && 32000 <= rate <= 48000
             else if version == 2 then 8 <= kbps <= 160 && 16000 <= rate <= 24000
             else 8 <= kbps <= 160 && 8000 <= rate <= 12000
    ensures var whole := FrameBytes(version, layer, kbps, rate, padding) - padding;
            whole * rate <= Samples(version, layer) / 8 * 1000 * kbps < (whole + 1) * rate
  {
    DivMod((if layer == 1 && version != 3 then 72000 else 144000) * kbps, rate);
  }

  /** A header is supported exactly if it has the eleven sync bits, a known version, Layer II or III, a
      bit rate and a sample rate from the ladders, and a known emphasis. Its frame then holds, besides
      the padding byte, the whole part of its samples' share of the bit rate. */
  lemma FrameSizeExact(sync: nat, version: nat, layer: nat, protection: nat, bitrate: nat, rate: nat, padding: nat,
                       secret: nat, modes: nat, emphasis: nat)
    requires sync < 0x800 && version < 4 && layer < 4 && protection < 2 && bitrate < 16 && rate < 4 && padding < 2
    requires secret < 2 && modes < 64 && emphasis < 4
    ensures var f := FrameSize(HeaderOf(sync, version, layer, protection, bitrate, rate, padding, secret, modes, emphasis));
            && (f.Some? <==>
                  && sync == 0x7ff && version != 1 && 1 <= layer <= 2 && 1 <= bitrate <= 14 && rate <= 2 && emphasis != 2)
            && (f.Some? ==>
                  && f.value.signature == Signature(version, layer, rate)
                  && var whole, hertz := f.value.size - padding, SampleRate(version, rate);
                     var bytes := Samples(version, layer) / 8 * 1000 * Kbps(version, layer, bitrate);
                     whole * hertz <= bytes < (whole + 1) * hertz)
  {
    hide HeaderOf, Kbps, SampleRate, FrameBytes, Samples;
    Fields(sync, version, layer, protection, bitrate, rate, padding, secret, modes, emphasis);
    if sync == 0x7ff && version != 1 && 1 <= layer <= 2 && 1 <= bitrate <= 14 && rate <= 2 && emphasis != 2 {
      FrameBytesExact(version, layer, Kbps(version, layer, bitrate), SampleRate(version, rate), padding);
    }
  }

  /** The whole-stream reading of an elementary stream: the number of frame headers in it, every
      one found exactly where the previous frame ends, or nothing when a header is unsupported or
      changes signature. */
  ghost function Headers(es: seq<byte>, signature: Option<Signature>): Option<nat>
    decreases |es|
  {
    if |es| < 4 then Some(0)
    else
      var f := FrameSize(es[..4]);
      if f.None? || (signature.Some? && signature.value != f.value.signature) then None
      else if |es| <= f.value.size then Some(1)
      else
        var rest := Headers(es[f.value.size..], Some(f.value.signature));
        if rest.None? then None else Some(1 + rest.value)
  }

  // ----- The frame automaton --------------------------------------------------------------

  datatype Es = Es(header: seq<byte>, frameLeft: nat, headers: nat, signature: Option<Signature>)

  const ES_START := Es([], 0, 0, None)

  function Min2(n: nat): nat {
    if n < 2 then n else 2
  }

  function EsByte(e: Es, b: byte): (r: Option<Es>)
    requires |e.header| < 4
    ensures r.Some? ==> |r.value.header| < 4
  {
    if e.frameLeft != 0 then Some(e.(frameLeft := e.frameLeft - 1))
    else
      var header := e.header + [b];
      if |header| < 4 then Some(e.(header := header))
      else
        var f := FrameSize(header);
        if f.None? || (e.signature.Some? && e.signature.value != f.value.signature) then None
        else Some(Es([], f.value.size - 4, Min2(e.headers + 1), Some(f.value.signature)))
  }

  ghost function EsFeed(e: Es, s: seq<byte>): (r: Option<Es>)
    requires |e.header| < 4
    ensures r.Some? ==> |r.value.header| < 4
  {
    if s == [] then Some(e)
    else
      var before := EsFeed(e, s[..|s| - 1]);
      if before.None? then None else EsByte(before.value, s[|s| - 1])
  }

  lemma {:induction false} EsFeedConcat(e: Es, s: seq<byte>, t: seq<byte>)
    requires |e.header| < 4
    ensures EsFeed(e, s + t) == (if EsFeed(e, s).None? then None else EsFeed(EsFeed(e, s).value, t))
  {
    if t == [] {
      assert s + t == s;
    } else {
      EsFeedConcat(e, s, t[..|t| - 1]);
      assert (s + t)[..|s + t| - 1] == s + t[..|t| - 1];
    }
  }

  lemma {:induction false} EsSkip(e: Es, s: seq<byte>)
    requires |e.header| < 4 && |s| <= e.frameLeft
    ensures EsFeed(e, s) == Some(e.(frameLeft := e.frameLeft - |s|))
  {
    if s != [] {
      EsSkip(e, s[..|s| - 1]);
    }
  }

  lemma {:induction false} EsGather(e: Es, s: seq<byte>)
    requires e.frameLeft == 0 && |e.header| + |s| < 4
    ensures EsFeed(e, s) == Some(e.(header := e.header + s))
  {
    if s != [] {
      EsGather(e, s[..|s| - 1]);
      assert e.header + s == e.header + s[..|s| - 1] + [s[|s| - 1]];
    } else {
      assert e.header + s == e.header;
    }
  }

  /** Four header bytes at a frame boundary. */
  lemma {:induction false} EsHeader(e: Es, h: seq<byte>)
    requires e.frameLeft == 0 && e.header == [] && |h| == 4
    ensures EsFeed(e, h)
         == var f := FrameSize(h);
            if f.None? || (e.signature.Some? && e.signature.value != f.value.signature) then None
            else Some(Es([], f.value.size - 4, Min2(e.headers + 1), Some(f.value.signature)))
  {
    EsGather(e, h[..3]);
    assert [] + h[..3] + [h[3]] == h;
  }

  /** One whole frame, or the start of one. */
  lemma {:induction false} EsFrame(e: Es, es: seq<byte>, f: Frame)
    requires e.frameLeft == 0 && e.header == [] && |es| >= 4 && FrameSize(es[..4]) == Some(f)
    requires e.signature.Some? ==> e.signature.value == f.signature
    ensures
      var next := Es([], 0, Min2(e.headers + 1), Some(f.signature));
      EsFeed(e, es) == if |es| <= f.size then Some(next.(frameLeft := f.size - |es|)) else EsFeed(next, es[f.size..])
  {
    hide FrameSize, EsByte, EsFeed;
    EsHeader(e, es[..4]);
    EsFeedConcat(e, es[..4], es[4..]);
    assert es[..4] + es[4..] == es;
    var next := EsFeed(e, es[..4]).value;
    if |es| <= f.size {
      EsSkip(next, es[4..]);
    } else {
      EsSkip(next, es[4..f.size]);
      EsFeedConcat(next, es[4..f.size], es[f.size..]);
      assert es[4..f.size] + es[f.size..] == es[4..];
    }
  }

  /** The automaton accepts exactly the streams whose frame chain parses, and counts headers up to two. */
  lemma {:induction false} EsTracks(e: Es, es: seq<byte>)
    requires e.frameLeft == 0 && e.header == [] && e.headers <= 2
    ensures EsFeed(e, es).Some? <==> Headers(es, e.signature).Some?
    ensures EsFeed(e, es).Some? ==> EsFeed(e, es).value.headers == Min2(e.headers + Headers(es, e.signature).value)
    decreases |es|
  {
    hide FrameSize, EsByte, EsFeed;
    if |es| < 4 {
      EsGather(e, es);
    } else {
      var f := FrameSize(es[..4]);
      if f.None? || (e.signature.Some? && e.signature.value != f.value.signature) {
        EsHeader(e, es[..4]);
        EsFeedConcat(e, es[..4], es[4..]);
        assert es[..4] + es[4..] == es;
      } else {
        EsFrame(e, es, f.value);
        if |es| > f.value.size {
          EsTracks(Es([], 0, Min2(e.headers + 1), Some(f.value.signature)), es[f.value.size..]);
        }
      }
    }
  }

  // ----- PES packets ----------------------------------------------------------------------

  function PesLength(h: seq<byte>): nat
    requires |h| >= 6
  {
    h[4] as int * 256 + h[5] as int
  }

  /** The fixed nine bytes of an audio PES header: start code, stream id, the marker bits, no
      scrambling, no forbidden timestamp flag, and a length that covers the header itself. */
  predicate PesHeaderOk(h: seq<byte>)
    requires |h| == 9
  {
    && h[..3] == [0, 0, 1]
    && 0xc0 <= h[3] <= 0xdf
    && h[6] / 64 == 2
    && (h[6] / 16) % 4 == 0
    && h[7] / 64 != 1
    && (PesLength(h) == 0 || PesLength(h) >= 3 + h[8] as int)
  }

  /** Where the payload of a PES packet ends: six bytes plus the stated length, or nowhere yet. */
  ghost function UnitEnd(u: seq<byte>): nat
    requires |u| >= 9
  {
    if PesLength(u) == 0 then |u| else 6 + PesLength(u)
  }

  /** Where the payload starts: past the optional header fields. */
  ghost function BodyStart(u: seq<byte>): nat
    requires |u| >= 9
  {
    9 + u[8] as int
  }

  ghost function UnitEs(u: seq<byte>): seq<byte> {
    if |u| < 9 || |u| <= BodyStart(u) || UnitEnd(u) <= BodyStart(u) then []
    else u[BodyStart(u)..if UnitEnd(u) <= |u| then UnitEnd(u) else |u|]
  }

  /** The bytes of one PES packet so far are well formed; past its payload only stuffing follows. */
  ghost predicate UnitOk(u: seq<byte>) {
    |u| >= 9 ==> PesHeaderOk(u[..9]) && forall i | UnitEnd(u) <= i < |u| && BodyStart(u) <= i :: u[i] == 0xff
  }

  /** The PES packet is complete, or open-ended past its header. */
  ghost predicate UnitClosed(u: seq<byte>) {
    |u| >= 9 && |u| >= BodyStart(u) && UnitEnd(u) <= |u|
  }

  ghost function EsOf(units: seq<seq<byte>>): seq<byte> {
    if units == [] then [] else EsOf(units[..|units| - 1]) + UnitEs(units[|units| - 1])
  }

  ghost predicate UnitsOk(units: seq<seq<byte>>) {
    && (forall i | 0 <= i < |units| :: UnitOk(units[i]))
    && (forall i | 0 <= i < |units| - 1 :: UnitClosed(units[i]))
  }

  /** What the whole-stream parser accepts. */
  ghost predicate Good(units: seq<seq<byte>>) {
    UnitsOk(units) && Headers(EsOf(units), None).Some?
  }

  ghost function Extend(units: seq<seq<byte>>, v: seq<byte>): seq<seq<byte>>
    requires units != []
  {
    units[..|units| - 1] + [units[|units| - 1] + v]
  }

  // ----- The probe state ------------------------------------------------------------------

  datatype State = State(inPes: bool, pes: seq<byte>, optional: nat, left: Option<nat>, es: Es)

  const START := State(false, [], 0, None, ES_START)

  ghost predicate StateWf(s: State) {
    |s.pes| <= 9 && |s.es.header| < 4 && s.es.headers <= 2
  }

  /** One payload byte of a started PES packet; nothing when it is rejected. */
  function TakeByte(s: State, b: byte): (r: Option<State>)
    requires |s.pes| <= 9 && |s.es.header| < 4 && s.es.headers <= 2
    ensures r.Some? ==> StateWf(r.value) && r.value.inPes == s.inPes
  {
    if |s.pes| < 9 then
      var pes := s.pes + [b];
      if |pes| < 9 then Some(s.(pes := pes))
      else if !PesHeaderOk(pes) then None
      else
        var left := if PesLength(pes) == 0 then s.left else Some(PesLength(pes) - 3 - pes[8] as int);
        Some(s.(pes := pes, optional := pes[8], left := left))
    else if s.optional != 0 then Some(s.(optional := s.optional - 1))
    else if s.left == Some(0) then (if b == 0xff then Some(s) else None)
    else
      var es := EsByte(s.es, b);
      if es.None? then None
      else Some(s.(left := if s.left.Some? then Some(s.left.value - 1) else None, es := es.value))
  }

  /** The state the probe holds after well-formed PES packets `units`, the last one still open. */
  ghost predicate Tracks(s: State, units: seq<seq<byte>>) {
    && StateWf(s) && Good(units)
    && EsFeed(ES_START, EsOf(units)) == Some(s.es)
    && s.inPes == (units != [])
    && if units == [] then s == START else TracksUnit(s, units[|units| - 1])
  }

  ghost predicate TracksUnit(s: State, u: seq<byte>) {
    if |u| < 9 then s.pes == u && s.optional == 0 && s.left == None
    else
      && s.pes == u[..9]
      && s.optional == (if |u| < BodyStart(u) then BodyStart(u) - |u| else 0)
      && s.left == if PesLength(u) == 0 then None else Some(UnitEnd(u) - BodyStart(u) - |UnitEs(u)|)
  }

  /** Whether byte `b` after `u` is elementary-stream data. */
  ghost predicate IsData(u: seq<byte>) {
    |u| >= 9 && BodyStart(u) <= |u| && (PesLength(u) == 0 || |u| < UnitEnd(u))
  }

  lemma SameFields(u: seq<byte>, v: seq<byte>)
    requires 9 <= |u| <= |v| && v[..9] == u[..9]
    ensures BodyStart(v) == BodyStart(u) && PesLength(v) == PesLength(u)
    ensures PesLength(u) != 0 ==> UnitEnd(v) == UnitEnd(u)
  {
    assert forall i | 0 <= i < 9 :: v[i] == v[..9][i] && u[i] == u[..9][i];
  }

  lemma EsOfByte(u: seq<byte>, b: byte)
    requires UnitOk(u)
    ensures UnitEs(u + [b]) == UnitEs(u) + (if IsData(u) then [b] else [])
  {
    if |u| >= 9 {
      assert (u + [b])[..9] == u[..9];
      SameFields(u, u + [b]);
      hide PesLength;
    }
  }

  /** When one more byte keeps a PES packet well formed. */
  lemma OkByte(u: seq<byte>, b: byte)
    requires UnitOk(u)
    ensures |u| < 8 ==> UnitOk(u + [b])
    ensures |u| == 8 ==> (UnitOk(u + [b]) <==> PesHeaderOk(u + [b]))
    ensures |u| >= 9 ==> (UnitOk(u + [b]) <==> IsData(u) || |u| < BodyStart(u) || b == 0xff)
  {
    var v := u + [b];
    if |u| >= 9 {
      assert v[..9] == u[..9];
      SameFields(u, v);
      hide PesLength, PesHeaderOk;
      if !IsData(u) && |u| >= BodyStart(u) {
        assert v[|u|] == b;
      }
    } else if |u| == 8 {
      assert v[..9] == v;
    }
  }

  lemma {:induction false} EsOfExtend(units: seq<seq<byte>>, v: seq<byte>)
    requires units != []
    ensures EsOf(Extend(units, v)) == EsOf(units[..|units| - 1]) + UnitEs(units[|units| - 1] + v)
  {
    assert Extend(units, v)[..|units| - 1] == units[..|units| - 1];
  }

  lemma OkExtend(units: seq<seq<byte>>, v: seq<byte>)
    requires units != [] && UnitsOk(units)
    ensures UnitsOk(Extend(units, v)) <==> UnitOk(units[|units| - 1] + v)
  {
    hide UnitOk, UnitClosed;
    var w := Extend(units, v);
    assert forall i | 0 <= i < |units| - 1 :: w[i] == units[i];
    assert w[|units| - 1] == units[|units| - 1] + v;
  }

  lemma {:induction false} EsOfUnits(units: seq<seq<byte>>, b: byte)
    requires units != [] && UnitOk(units[|units| - 1])
    ensures EsOf(Extend(units, [b])) == EsOf(units) + (if IsData(units[|units| - 1]) then [b] else [])
  {
    var front, u := EsOf(units[..|units| - 1]), units[|units| - 1];
    EsOfByte(u, b);
    EsOfExtend(units, [b]);
    assert EsOf(units) == front + UnitEs(u);
    hide UnitOk, UnitEs, EsOf, IsData;
    var data := if IsData(u) then [b] else [];
    assert front + (UnitEs(u) + data) == (front + UnitEs(u)) + data;
  }

  /** What one byte does to the elementary stream. */
  lemma {:induction false} EsMoves(units: seq<seq<byte>>, b: byte, e: Es)
    requires units != [] && UnitOk(units[|units| - 1]) && EsFeed(ES_START, EsOf(units)) == Some(e)
    ensures
      var after := EsFeed(ES_START, EsOf(Extend(units, [b])));
      && after == (if IsData(units[|units| - 1]) then EsByte(e, b) else Some(e))
      && (after.Some? <==> Headers(EsOf(Extend(units, [b])), None).Some?)
  {
    EsOfUnits(units, b);
    hide UnitOk, EsOf, EsByte, Headers, IsData;
    var es := EsOf(units);
    EsTracks(ES_START, EsOf(Extend(units, [b])));
    assert (es + [b])[..|es + [b]| - 1] == es && es + [] == es;
  }

  /** One byte: the automaton moves on exactly when the whole-stream parser still accepts. */
  lemma ByteTracks(s: State, units: seq<seq<byte>>, b: byte)
    requires Tracks(s, units) && units != []
    ensures TakeByte(s, b).Some? <==> Good(Extend(units, [b]))
    ensures TakeByte(s, b).Some? ==> Tracks(TakeByte(s, b).value, Extend(units, [b]))
  {
    var u := units[|units| - 1];
    OkByte(u, b);
    hide UnitEs, EsOf, UnitOk, EsFeed, EsByte, Headers, PesHeaderOk, BodyStart;
    EsMoves(units, b, s.es);
    OkExtend(units, [b]);
    UnitByteTracks(s, u, b);
    hide UnitsOk, TracksUnit, IsData;
  }

  /** The PES part of one byte. */
  lemma UnitByteTracks(s: State, u: seq<byte>, b: byte)
    requires StateWf(s) && UnitOk(u) && TracksUnit(s, u)
    ensures IsData(u) <==> |s.pes| == 9 && s.optional == 0 && s.left != Some(0)
    ensures IsData(u) ==> (TakeByte(s, b).Some? <==> EsByte(s.es, b).Some?)
    ensures !IsData(u) ==> (TakeByte(s, b).Some? <==> UnitOk(u + [b]))
    ensures TakeByte(s, b).Some? ==>
      && TracksUnit(TakeByte(s, b).value, u + [b])
      && TakeByte(s, b).value.es == if IsData(u) then EsByte(s.es, b).value else s.es
  {
    OkByte(u, b);
    EsOfByte(u, b);
    hide EsByte;
    if |u| >= 9 {
      assert (u + [b])[..9] == u[..9];
      SameFields(u, u + [b]);
      hide PesLength, PesHeaderOk;
    } else if |u| == 8 {
      assert (u + [b])[..9] == u + [b];
    }
  }

  // ----- Whole packets --------------------------------------------------------------------

  datatype Verdict = Unsupported | Damaged | Sound

  /** A packet with a bad sync byte, scrambling or adaptation length is unsupported; one with the
      transport-error indicator is only damaged. */
  function Validate(p: Packet): (v: Verdict)
    ensures v.Sound? && Bit(p.raw[3], 0x10) && Bit(p.raw[3], 0x20) ==> p.raw[4] <= 182
  {
    if p.raw[0] != TS_SYNC || p.raw[3] / 64 != 0 then Unsupported
    else if Bit(p.raw[1], 0x80) then Damaged
    else if !Bit(p.raw[3], 0x10) && !Bit(p.raw[3], 0x20) then Unsupported
    else if Bit(p.raw[3], 0x20) && (p.raw[4] > 183 || (Bit(p.raw[3], 0x10) && p.raw[4] > 182)) then Unsupported
    else Sound
  }

  datatype Content = Nothing | Bad | Carry(start: bool, payload: seq<byte>)

  /** What a packet brings to the probe of one stream. */
  function ContentOf(pid: nat, p: Packet): (c: Content)
    ensures c.Carry? ==> c.payload != []
  {
    if TsPid(p) != pid then Nothing
    else if Validate(p).Unsupported? then Bad
    else if Validate(p).Damaged? || !Bit(p.raw[3], 0x10) then Nothing
    else
      var offset := if Bit(p.raw[3], 0x20) then 5 + p.raw[4] as int else 4;
      Carry(Bit(p.raw[1], 0x40), p.raw[offset..])
  }

  /** The PES packets in a run of transport packets, cut where a payload unit starts. */
  ghost function Units(pid: nat, ps: seq<Packet>): seq<seq<byte>> {
    if ps == [] then []
    else
      var before := Units(pid, ps[..|ps| - 1]);
      match ContentOf(pid, ps[|ps| - 1])
      case Carry(true, payload) => before + [payload]
      case Carry(false, payload) => if before == [] then [] else Extend(before, payload)
      case _ => before
  }

  /** The whole-stream parser over transport packets. */
  ghost predicate Accepts(pid: nat, ps: seq<Packet>) {
    (forall i | 0 <= i < |ps| :: !ContentOf(pid, ps[i]).Bad?) && Good(Units(pid, ps))
  }

  ghost predicate TwoHeaders(pid: nat, ps: seq<Packet>)
    requires Accepts(pid, ps)
  {
    Headers(EsOf(Units(pid, ps)), None).value >= 2
  }

  predicate Unfinished(s: State) {
    |s.pes| < 9 || s.optional != 0 || (s.left.Some? && s.left.value != 0)
  }

  ghost function TakeAll(s: State, bytes: seq<byte>): (r: Option<State>)
    requires StateWf(s)
    ensures r.Some? ==> StateWf(r.value) && r.value.inPes == s.inPes
  {
    if bytes == [] then Some(s)
    else
      var before := TakeAll(s, bytes[..|bytes| - 1]);
      if before.None? then None else TakeByte(before.value, bytes[|bytes| - 1])
  }

  function Begin(s: State): State {
    s.(inPes := true, pes := [], optional := 0, left := None)
  }

  ghost function Take(pid: nat, s: State, p: Packet): (r: Option<State>)
    requires StateWf(s)
    ensures r.Some? ==> StateWf(r.value)
  {
    match ContentOf(pid, p)
    case Nothing => Some(s)
    case Bad => None
    case Carry(start, payload) =>
      if start then if s.inPes && Unfinished(s) then None else TakeAll(Begin(s), payload)
      else if s.inPes then TakeAll(s, payload)
      else Some(s)
  }

  ghost function Run(pid: nat, ps: seq<Packet>): (r: Option<State>)
    ensures r.Some? ==> StateWf(r.value)
  {
    if ps == [] then Some(START)
    else
      var before := Run(pid, ps[..|ps| - 1]);
      if before.None? then None else Take(pid, before.value, ps[|ps| - 1])
  }

  /** More bytes never repair a rejected PES packet. */
  lemma UnitOkPrefix(u: seq<byte>, v: seq<byte>)
    requires UnitOk(u + v)
    ensures UnitOk(u)
    ensures UnitEs(u) <= UnitEs(u + v)
  {
    if |u| >= 9 {
      assert (u + v)[..9] == u[..9];
      SameFields(u, u + v);
      hide PesLength, PesHeaderOk;
      assert forall i | 0 <= i < |u| :: (u + v)[i] == u[i];
    }
  }

  lemma {:induction false} HeadersPrefix(es: seq<byte>, more: seq<byte>)
    requires Headers(es + more, None).Some?
    ensures Headers(es, None).Some?
  {
    EsTracks(ES_START, es + more);
    EsTracks(ES_START, es);
    EsFeedConcat(ES_START, es, more);
  }

  lemma {:induction false} GoodPrefix(units: seq<seq<byte>>, v: seq<byte>)
    requires units != [] && Good(Extend(units, v))
    ensures Good(units)
  {
    hide Headers, UnitOk, UnitEs, UnitClosed;
    var n := |units| - 1;
    var u, w := units[n], Extend(units, v);
    assert w[n] == u + v && forall i | 0 <= i < n :: w[i] == units[i];
    UnitOkPrefix(u, v);
    EsOfExtend(units, v);
    var more := UnitEs(u + v)[|UnitEs(u)|..];
    assert EsOf(w) == EsOf(units) + more;
    HeadersPrefix(EsOf(units), more);
  }

  /** A new PES packet may start exactly when the previous one is complete. */
  lemma {:induction false} GoodStart(units: seq<seq<byte>>)
    ensures Good(units + [[]]) <==> Good(units) && (units != [] ==> UnitClosed(units[|units| - 1]))
    ensures EsOf(units + [[]]) == EsOf(units)
  {
    hide Headers, UnitClosed;
    var w := units + [[]];
    assert UnitOk([]) && UnitEs([]) == [];
    hide UnitOk, UnitEs;
    assert w[..|units|] == units;
    assert EsOf(w) == EsOf(units);
    StartOk(units);
  }

  lemma StartOk(units: seq<seq<byte>>)
    requires UnitOk([])
    ensures UnitsOk(units + [[]]) <==> UnitsOk(units) && (units != [] ==> UnitClosed(units[|units| - 1]))
  {
    hide UnitOk, UnitClosed;
    var w := units + [[]];
    assert forall i | 0 <= i < |units| :: w[i] == units[i];
    assert UnitsOk(w) ==> forall i | 0 <= i < |units| :: UnitOk(w[i]) && UnitClosed(w[i]);
  }

  lemma {:induction false} BytesTrack(s: State, units: seq<seq<byte>>, bytes: seq<byte>)
    requires Tracks(s, units) && units != []
    ensures TakeAll(s, bytes).Some? <==> Good(Extend(units, bytes))
    ensures TakeAll(s, bytes).Some? ==> Tracks(TakeAll(s, bytes).value, Extend(units, bytes))
  {
    hide Good, TakeByte;
    var n := |bytes| - 1;
    if n < 0 {
      assert units[|units| - 1] + bytes == units[|units| - 1];
      assert Extend(units, bytes) == units;
    } else {
      BytesTrack(s, units, bytes[..n]);
      var mid := Extend(units, bytes[..n]);
      assert bytes == bytes[..n] + [bytes[n]];
      assert units[|units| - 1] + bytes == mid[|units| - 1] + [bytes[n]];
      assert Extend(mid, [bytes[n]]) == Extend(units, bytes);
      if TakeAll(s, bytes[..n]).Some? {
        ByteTracks(TakeAll(s, bytes[..n]).value, mid, bytes[n]);
      } else if Good(Extend(units, bytes)) {
        GoodPrefix(mid, [bytes[n]]);
      }
    }
  }

  lemma ClosedIsFinished(s: State, u: seq<byte>)
    requires UnitOk(u) && TracksUnit(s, u)
    ensures UnitClosed(u) <==> !Unfinished(s)
  {
  }

  /** One packet. */
  lemma TakeTracks(pid: nat, s: State, units: seq<seq<byte>>, p: Packet)
    requires Tracks(s, units)
    ensures
      var c := ContentOf(pid, p);
      var next := if c.Carry? && c.start then units + [c.payload]
                  else if c.Carry? && units != [] then Extend(units, c.payload) else units;
      && (Take(pid, s, p).Some? <==> !c.Bad? && Good(next))
      && (Take(pid, s, p).Some? ==> Tracks(Take(pid, s, p).value, next))
  {
    hide TakeByte, TakeAll, ContentOf, UnitOk, UnitEs, UnitClosed, UnitsOk, Headers, EsFeed;
    var c := ContentOf(pid, p);
    if c.Carry? && c.start {
      GoodStart(units);
      if units != [] {
        assert UnitsOk(units);
        LastOk(units);
        ClosedIsFinished(s, units[|units| - 1]);
      }
      var begun := units + [[]];
      assert [] + c.payload == c.payload;
      assert Extend(begun, c.payload) == units + [c.payload];
      if s.inPes && Unfinished(s) {
        if Good(units + [c.payload]) {
          GoodPrefix(begun, c.payload);
        }
      } else {
        assert Tracks(Begin(s), begun);
        BytesTrack(Begin(s), begun, c.payload);
      }
    } else if c.Carry? && units != [] {
      BytesTrack(s, units, c.payload);
    }
  }

  lemma LastOk(units: seq<seq<byte>>)
    requires units != [] && UnitsOk(units)
    ensures UnitOk(units[|units| - 1])
  {
  }

  /** The constant-space probe accepts exactly the packet runs the whole-stream parser accepts, and
      has seen two headers exactly when the parser finds two. */
  lemma {:induction false} ProbeExact(pid: nat, ps: seq<Packet>)
    ensures Run(pid, ps).Some? <==> Accepts(pid, ps)
    ensures Run(pid, ps).Some? ==> Tracks(Run(pid, ps).value, Units(pid, ps))
    ensures Run(pid, ps).Some? ==> (Run(pid, ps).value.es.headers >= 2 <==> TwoHeaders(pid, ps))
  {
    hide ContentOf, Take, Good, Tracks;
    if ps == [] {
      EmptyTracks();
    } else {
      var front, p := ps[..|ps| - 1], ps[|ps| - 1];
      ProbeExact(pid, front);
      assert forall i | 0 <= i < |front| :: front[i] == ps[i];
      assert ps == front + [p];
      if Run(pid, front).Some? {
        TakeTracks(pid, Run(pid, front).value, Units(pid, front), p);
      } else if Accepts(pid, ps) {
        AcceptsPrefix(pid, front, p);
      }
    }
    if Run(pid, ps).Some? {
      TracksHeaders(Run(pid, ps).value, Units(pid, ps));
    }
  }

  lemma EmptyTracks()
    ensures Good([]) && Tracks(START, [])
  {
  }

  lemma {:induction false} TracksHeaders(s: State, units: seq<seq<byte>>)
    requires Tracks(s, units)
    ensures Headers(EsOf(units), None).Some? && s.es.headers == Min2(Headers(EsOf(units), None).value)
  {
    hide EsOf, UnitOk, Headers, EsFeed;
    EsTracks(ES_START, EsOf(units));
  }

  lemma AcceptsPrefix(pid: nat, ps: seq<Packet>, p: Packet)
    requires Accepts(pid, ps + [p])
    ensures Accepts(pid, ps)
  {
    hide ContentOf, Good;
    var all := ps + [p];
    assert all[..|ps|] == ps;
    assert forall i | 0 <= i < |ps| :: all[i] == ps[i];
    var units, c := Units(pid, ps), ContentOf(pid, p);
    if c.Carry? && c.start {
      assert [] + c.payload == c.payload;
      assert Extend(units + [[]], c.payload) == units + [c.payload];
      GoodPrefix(units + [[]], c.payload);
      GoodStart(units);
    } else if c.Carry? && units != [] {
      GoodPrefix(units, c.payload);
    }
  }

  /** The verdict depends on the PES bytes alone, not on how they were cut into packets. */
  lemma SplitIndependent(pid: nat, ps: seq<Packet>, qs: seq<Packet>)
    requires Units(pid, ps) == Units(pid, qs)
    requires forall i | 0 <= i < |ps| :: !ContentOf(pid, ps[i]).Bad?
    requires forall i | 0 <= i < |qs| :: !ContentOf(pid, qs[i]).Bad?
    ensures Run(pid, ps).Some? <==> Run(pid, qs).Some?
    ensures Run(pid, ps).Some? ==> (Run(pid, ps).value.es.headers >= 2 <==> Run(pid, qs).value.es.headers >= 2)
  {
    ProbeExact(pid, ps);
    ProbeExact(pid, qs);
  }

  // ----- The probe object -----------------------------------------------------------------

  lemma RunStep(pid: nat, ps: seq<Packet>, p: Packet)
    ensures Run(pid, ps + [p]) == if Run(pid, ps).None? then None else Take(pid, Run(pid, ps).value, p)
  {
    assert (ps + [p])[..|ps|] == ps;
  }

  class MpegAudioProbe {
    const pid: nat
    const pes: array<byte>
    var pesUsed: nat
    var optional: nat
    var inPes: bool
    var payloadLeft: Option<nat>
    const header: array<byte>
    var headerUsed: nat
    var frameLeft: nat
    var headers: nat
    var signature: Option<Signature>
    var failed: bool
    /** Every packet observed so far. */
    ghost var seen: seq<Packet>

    ghost predicate Shape()
      reads this, pes, header
    {
      && pes.Length == 9 && header.Length == 4 && pes != header
      && pesUsed <= 9 && headerUsed < 4 && headers <= 2
    }

    ghost function View(): (s: State)
      reads this, pes, header
      requires Shape()
      ensures StateWf(s)
    {
      State(inPes, pes[..pesUsed], optional, payloadLeft, Es(header[..headerUsed], frameLeft, headers, signature))
    }

    ghost predicate Valid()
      reads this, pes, header
    {
      && Shape()
      && (failed <==> Run(pid, seen).None?)
      && (!failed ==> Run(pid, seen) == Some(View()))
    }

    constructor (pid: nat)
      ensures Valid() && this.pid == pid && seen == [] && fresh(pes) && fresh(header)
    {
      this.pid := pid;
      pes, header := new byte[9], new byte[4];
      pesUsed, optional, inPes, payloadLeft := 0, 0, false, None;
      headerUsed, frameLeft, headers, signature := 0, 0, 0, None;
      failed, seen := false, [];
    }

    /** Rejected, or whether two chained headers are complete: exactly as the whole-stream parser
        says of everything observed so far. */
    method Observe(packet: Packet) returns (r: Option<bool>)
      requires Valid()
      modifies this, pes, header
      ensures Valid() && seen == old(seen) + [packet]
      ensures r.Some? <==> Accepts(pid, seen)
      ensures r.Some? ==> (r.value <==> TwoHeaders(pid, seen))
    {
      hide Take, Run, Accepts, TwoHeaders, Tracks, Units;
      ghost var all := seen + [packet];
      RunStep(pid, seen, packet);
      ProbeExact(pid, all);
      if failed {
        seen := all;
        return None;
      }
      var ok := ObserveInner(packet);
      seen := all;
      if !ok {
        failed := true;
        return None;
      }
      return Some(headers >= 2);
    }

    method ObserveInner(packet: Packet) returns (ok: bool)
      requires Shape() && !failed
      modifies this`pesUsed, this`optional, this`inPes, this`payloadLeft, this`headerUsed, this`frameLeft,
               this`headers, this`signature, pes, header
      ensures Shape()
      ensures ok <==> Take(pid, old(View()), packet).Some?
      ensures ok ==> Take(pid, old(View()), packet) == Some(View())
    {
      hide TakeAll;
      var content := ContentOf(pid, packet);
      match content
      case Nothing =>
        return true;
      case Bad =>
        return false;
      case Carry(start, payload) =>
        if start {
          if inPes && (pesUsed < 9 || optional != 0 || (payloadLeft.Some? && payloadLeft.value != 0)) {
            return false;
          }
          inPes, pesUsed, optional, payloadLeft := true, 0, 0, None;
          assert pes[..0] == [];
          assert View() == Begin(old(View()));
        }
        if !inPes {
          return true;
        }
        ok := TakePayload(payload);
    }

    method TakePayload(payload: seq<byte>) returns (ok: bool)
      requires Shape() && inPes
      modifies this`pesUsed, this`optional, this`payloadLeft, this`headerUsed, this`frameLeft,
               this`headers, this`signature, pes, header
      ensures Shape()
      ensures ok <==> TakeAll(old(View()), payload).Some?
      ensures ok ==> TakeAll(old(View()), payload) == Some(View())
    {
      hide TakeByte;
      ghost var start := View();
      var i := 0;
      while i < |payload|
        invariant i <= |payload| && Shape()
        invariant TakeAll(start, payload[..i]) == Some(View())
      {
        assert payload[..i + 1][..i] == payload[..i];
        ok := TakeOne(payload[i]);
        if !ok {
          TakeAllNone(start, payload, i + 1);
          return;
        }
        i := i + 1;
      }
      assert payload[..i] == payload;
      ok := true;
    }

    method TakeOne(b: byte) returns (ok: bool)
      requires Shape()
      modifies this`pesUsed, this`optional, this`payloadLeft, this`headerUsed, this`frameLeft,
               this`headers, this`signature, pes, header
      ensures Shape()
      ensures ok <==> TakeByte(old(View()), b).Some?
      ensures ok ==> TakeByte(old(View()), b) == Some(View())
    {
      if pesUsed < 9 {
        pes[pesUsed] := b;
        pesUsed := pesUsed + 1;
        assert pes[..pesUsed] == old(pes[..pesUsed]) + [b];
        if pesUsed == 9 {
          if !PesHeaderOk(pes[..]) {
            return false;
          }
          optional := pes[8];
          if PesLength(pes[..]) != 0 {
            payloadLeft := Some(PesLength(pes[..]) - 3 - optional);
          }
        }
        return true;
      }
      if optional != 0 {
        optional := optional - 1;
        return true;
      }
      if payloadLeft == Some(0) {
        return b == 0xff;
      }
      if payloadLeft.Some? {
        payloadLeft := Some(payloadLeft.value - 1);
      }
      ok := TakeData(b);
    }

    method TakeData(b: byte) returns (ok: bool)
      requires Shape()
      modifies this`headerUsed, this`frameLeft, this`headers, this`signature, header
      ensures Shape()
      ensures ok <==> EsByte(old(View()).es, b).Some?
      ensures ok ==> EsByte(old(View()).es, b) == Some(View().es)
    {
      hide FrameSize;
      if frameLeft != 0 {
        frameLeft := frameLeft - 1;
        return true;
      }
      header[headerUsed] := b;
      headerUsed := headerUsed + 1;
      assert header[..headerUsed] == old(header[..headerUsed]) + [b];
      if headerUsed < 4 {
        return true;
      }
      var h := header[..];
      assert h == header[..headerUsed];
      var f := FrameSize(h);
      headerUsed := 0;
      assert header[..headerUsed] == [];
      if f.None? || (signature.Some? && signature.value != f.value.signature) {
        return false;
      }
      signature := Some(f.value.signature);
      headers := Min2(headers + 1);
      frameLeft := f.value.size - 4;
      return true;
    }
  }

  lemma {:induction false} TakeAllNone(s: State, bytes: seq<byte>, n: nat)
    requires StateWf(s) && n <= |bytes| && TakeAll(s, bytes[..n]).None?
    ensures TakeAll(s, bytes).None?
    decreases |bytes|
  {
    if n == |bytes| {
      assert bytes[..n] == bytes;
    } else {
      assert bytes[..|bytes| - 1][..n] == bytes[..n];
      TakeAllNone(s, bytes[..|bytes| - 1], n);
    }
  }
}
