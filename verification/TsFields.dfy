/** Transport packets and PES headers written field by field (sections 2.4.3.2, 2.4.3.4 and 2.4.3.6 of
    ISO/IEC 13818-1), and what the packet readers make of them. */
module TsFields {
  import opened Ts
  import opened MpegProbe

  function Flag(b: bool): nat {
    if b then 1 else 0
  }

  /** The header fields of a transport packet. */
  datatype Header = Header(error: bool, start: bool, priority: bool, pid: nat, scrambling: nat, counter: nat)

  predicate HeaderOk(h: Header) {
    h.pid < 0x2000 && h.scrambling < 4 && h.counter < 16
  }

  function Adapted(adaptation: Option<seq<byte>>): seq<byte>
    requires adaptation.Some? ==> |adaptation.value| < 184
  {
    if adaptation.None? then [] else [|adaptation.value|] + adaptation.value
  }

  /** Header, then the adaptation field if there is one, then the payload, filling 188 bytes. */
  predicate Fills(adaptation: Option<seq<byte>>, payload: seq<byte>) {
    && (adaptation.Some? ==> |adaptation.value| < 184)
    && |Adapted(adaptation)| + |payload| == 184
  }

  function Head(h: Header, adapted: bool, loaded: bool): (r: seq<byte>)
    requires HeaderOk(h)
    ensures |r| == 4 && r[0] == 0x47
  {
    [0x47, Flag(h.error) * 128 + Flag(h.start) * 64 + Flag(h.priority) * 32 + h.pid / 256, h.pid % 256,
     h.scrambling * 64 + Flag(adapted) * 32 + Flag(loaded) * 16 + h.counter]
  }

  function PacketOf(h: Header, adaptation: Option<seq<byte>>, payload: seq<byte>): Packet
    requires HeaderOk(h) && Fills(adaptation, payload)
  {
    Packet(Head(h, adaptation.Some?, payload != []) + Adapted(adaptation) + payload)
  }

  lemma HeadBits(h: Header, adapted: bool, loaded: bool)
    requires HeaderOk(h)
    ensures var r := Head(h, adapted, loaded);
            && Bit(r[1], 0x80) == h.error && Bit(r[1], 0x40) == h.start
            && (r[1] as int % 32) * 256 + r[2] as int == h.pid
            && r[3] / 64 == h.scrambling && Bit(r[3], 0x20) == adapted && Bit(r[3], 0x10) == loaded
  {
  }

  /** The bytes of a packet, read from the front. */
  lemma PacketBytes(h: Header, adaptation: Option<seq<byte>>, payload: seq<byte>)
    requires HeaderOk(h) && Fills(adaptation, payload)
    ensures var raw, head := PacketOf(h, adaptation, payload).raw, Head(h, adaptation.Some?, payload != []);
            && raw[0] == 0x47 && raw[1] == head[1] && raw[2] == head[2] && raw[3] == head[3]
            && (adaptation.Some? ==>
                  && raw[4] == |adaptation.value|
                  && (forall i | 0 <= i < |adaptation.value| :: raw[5 + i] == adaptation.value[i])
                  && raw[5 + raw[4]..] == payload)
            && (adaptation.None? ==> raw[4..] == payload)
  {
    hide Head;
    var raw := PacketOf(h, adaptation, payload).raw;
    if adaptation.Some? {
      forall i | 0 <= i < |adaptation.value| ensures raw[5 + i] == adaptation.value[i] {
        assert Adapted(adaptation)[1 + i] == adaptation.value[i];
      }
    }
  }

  /** The probe of a stream takes the payload of exactly its own packets: nothing of other streams, of
      damaged packets and of packets without payload, and a scrambled one is refused. */
  lemma ContentExact(h: Header, adaptation: Option<seq<byte>>, payload: seq<byte>, pid: nat)
    requires HeaderOk(h) && Fills(adaptation, payload)
    ensures ContentOf(pid, PacketOf(h, adaptation, payload)) ==
            if h.pid != pid then Nothing
            else if h.scrambling != 0 then Bad
            else if h.error || payload == [] then Nothing
            else Carry(h.start, payload)
  {
    hide Head, Bit;
    HeadBits(h, adaptation.Some?, payload != []);
    PacketBytes(h, adaptation, payload);
    assert payload == [] ==> adaptation.Some? && |adaptation.value| == 183;
  }

  // ----- Timing ---------------------------------------------------------------------------

  /** The six bytes of a program clock reference: its base, then seven bits and a byte that hold the
      reserved bits and the extension. */
  function PcrBytes(base: Pcr, low: nat, extension: byte): (b: seq<byte>)
    requires low < 128
    ensures |b| == 6
  {
    [base / 0x200_0000, (base / 0x2_0000) % 256, (base / 0x200) % 256, (base / 2) % 256, (base % 2) * 128 + low, extension]
  }

  lemma PcrBase(base: Pcr, low: nat, extension: byte)
    requires low < 128
    ensures var b := PcrBytes(base, low, extension);
            b[0] as int * 0x200_0000 + b[1] as int * 0x2_0000 + b[2] as int * 0x200 + b[3] as int * 2 + b[4] as int / 128
            == base
  {
    var q1, q2, q3 := base / 2, base / 0x200, base / 0x2_0000;
    assert q2 == q1 / 256 && q3 == q2 / 256 && base / 0x200_0000 == q3 / 256;
  }

  /** The adaptation-field flags of an adaptation field that is not empty. */
  function FlagByte(discontinuity: bool, access: bool, priority: bool, clocked: bool, others: nat): byte
    requires others < 16
  {
    Flag(discontinuity) * 128 + Flag(access) * 64 + Flag(priority) * 32 + Flag(clocked) * 16 + others
  }

  lemma FlagBits(discontinuity: bool, access: bool, priority: bool, clocked: bool, others: nat)
    requires others < 16
    ensures var b := FlagByte(discontinuity, access, priority, clocked, others);
            Bit(b, 0x80) == discontinuity && Bit(b, 0x10) == clocked
  {
  }

  /** A packet without an adaptation field shows no timing, and one with an empty field only its PID.
      Otherwise the marker is the discontinuity indicator. */
  lemma MarkerExact(h: Header, adaptation: Option<seq<byte>>, payload: seq<byte>, discontinuity: bool, access: bool,
                    priority: bool, clocked: bool, others: nat)
    requires HeaderOk(h) && Fills(adaptation, payload) && others < 16
    ensures adaptation.None? ==> TsTiming(PacketOf(h, adaptation, payload)) == Timing(0, None, false)
    ensures adaptation == Some([]) ==> TsTiming(PacketOf(h, adaptation, payload)) == Timing(h.pid, None, false)
    ensures adaptation.Some? && adaptation.value != []
            && adaptation.value[0] == FlagByte(discontinuity, access, priority, clocked, others) ==>
              var t := TsTiming(PacketOf(h, adaptation, payload));
              t.pid == h.pid && t.discontinuity == discontinuity && (!clocked ==> t.pcr.None?)
  {
    hide Head, Bit, FlagByte;
    HeadBits(h, adaptation.Some?, payload != []);
    PacketBytes(h, adaptation, payload);
    FlagBits(discontinuity, access, priority, clocked, others);
    if adaptation.Some? && adaptation.value != [] {
      assert PacketOf(h, adaptation, payload).raw[5 + 0] == adaptation.value[0];
    }
  }

  /** The clock reference that an adaptation field carries is the one that is read. */
  lemma PcrExact(h: Header, payload: seq<byte>, flags: byte, base: Pcr, low: nat, extension: byte, rest: seq<byte>)
    requires low < 128 && |rest| <= 176 && Bit(flags, 0x10)
    requires HeaderOk(h) && Fills(Some([flags] + PcrBytes(base, low, extension) + rest), payload)
    ensures TsTiming(PacketOf(h, Some([flags] + PcrBytes(base, low, extension) + rest), payload)).pcr == Some(base)
  {
    hide Head, Bit, PcrBytes;
    var adaptation := [flags] + PcrBytes(base, low, extension) + rest;
    HeadBits(h, true, payload != []);
    PacketBytes(h, Some(adaptation), payload);
    PcrBase(base, low, extension);
    var raw := PacketOf(h, Some(adaptation), payload).raw;
    assert raw[5 + 0] == flags;
    forall i | 0 <= i < 6 ensures raw[6 + i] == PcrBytes(base, low, extension)[i] {
      assert raw[5 + (i + 1)] == adaptation[i + 1];
    }
    assert raw[6 + 0] == raw[6] && raw[6 + 1] == raw[7] && raw[6 + 2] == raw[8] && raw[6 + 3] == raw[9]
           && raw[6 + 4] == raw[10];
  }

  // ----- PES headers ----------------------------------------------------------------------

  /** The fixed nine bytes of a PES header, field by field. */
  function PesOf(prefix: nat, id: byte, length: nat, marker: nat, scrambling: nat, others: nat, stamps: nat, flags: nat,
                 optional: byte): (h: seq<byte>)
    requires prefix < 0x100_0000 && length < 0x1_0000 && marker < 4 && scrambling < 4 && others < 16 && stamps < 4
    requires flags < 64
    ensures |h| == 9
  {
    [prefix / 0x1_0000, (prefix / 0x100) % 256, prefix % 256, id, length / 256, length % 256,
     marker * 64 + scrambling * 16 + others, stamps * 64 + flags, optional]
  }

  /** A PES header is accepted exactly if it has the start code, an audio stream id, the marker bits, no
      scrambling, no lone decoding time stamp, and a length that covers its optional part or is open. */
  lemma PesExact(prefix: nat, id: byte, length: nat, marker: nat, scrambling: nat, others: nat, stamps: nat, flags: nat,
                 optional: byte)
    requires prefix < 0x100_0000 && length < 0x1_0000 && marker < 4 && scrambling < 4 && others < 16 && stamps < 4
    requires flags < 64
    ensures var h := PesOf(prefix, id, length, marker, scrambling, others, stamps, flags, optional);
            && PesLength(h) == length
            && (PesHeaderOk(h) <==>
                  && prefix == 1 && 0xc0 <= id <= 0xdf && marker == 2 && scrambling == 0 && stamps != 1
                  && (length == 0 || length >= 3 + optional))
  {
    var h := PesOf(prefix, id, length, marker, scrambling, others, stamps, flags, optional);
    assert h[6] / 64 == marker && (h[6] / 16) % 4 == scrambling && h[7] / 64 == stamps;
    assert h[..3] == [h[0], h[1], h[2]];
    assert h[0] == 0 && h[1] == 0 && h[2] == 1 <==> prefix == 1;
  }
}
