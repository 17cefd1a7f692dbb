/** Packets of a transport of two programs, byte by byte, and what the parsers make of them. */
module TsSamples {
  import opened Ts
  import opened HlsModel
  import opened HlsInvariants
  import opened HlsDrive
  import opened TsTables

  function Bytes(f: nat -> byte): Packet {
    Packet(seq(TS_PACKET, i requires 0 <= i < TS_PACKET => f(i)))
  }

  /** A PAT: programs `first` on PMT PID 0x100 and 2 on PMT PID 0x110, its checksum, stuffing. */
  function PatByte(first: byte, crc: seq<byte>, i: nat): byte
    requires |crc| == 4
  {
    if i == 0 then 0x47 else if i == 1 then 0x40 else if i == 2 then 0x00 else if i == 3 then 0x10
    else if i == 4 then 0x00 else if i == 5 then 0x00 else if i == 6 then 0xb0 else if i == 7 then 17
    else if i == 8 then 0x00 else if i == 9 then 0x01 else if i == 10 then 0xc1 else if i == 11 then 0x00
    else if i == 12 then 0x00 else if i == 13 then 0x00 else if i == 14 then first else if i == 15 then 0xe1
    else if i == 16 then 0x00 else if i == 17 then 0x00 else if i == 18 then 0x02 else if i == 19 then 0xe1
    else if i == 20 then 0x10 else if i == 21 then crc[0] else if i == 22 then crc[1]
    else if i == 23 then crc[2] else if i == 24 then crc[3] else 0xff
  }

  function TwoPrograms(first: byte, crc: seq<byte>): Packet
    requires |crc| == 4
  {
    Bytes(i => PatByte(first, crc, i))
  }

  function Pat(): Packet {
    TwoPrograms(1, [0x07, 0x73, 0x21, 0x0a])
  }

  /** The same transport once its first program is called 3. */
  function RenamedPat(): Packet {
    TwoPrograms(3, [0x99, 0xdd, 0xf1, 0x28])
  }

  /** The PMT of program 1: one H.264 stream on PID 0x101, which also carries the clock. */
  function PmtByte(i: nat): byte {
    if i == 0 then 0x47 else if i == 1 then 0x41 else if i == 2 then 0x00 else if i == 3 then 0x10
    else if i == 4 then 0x00 else if i == 5 then 0x02 else if i == 6 then 0xb0 else if i == 7 then 18
    else if i == 8 then 0x00 else if i == 9 then 0x01 else if i == 10 then 0xc1 else if i == 11 then 0x00
    else if i == 12 then 0x00 else if i == 13 then 0xe1 else if i == 14 then 0x01 else if i == 15 then 0xf0
    else if i == 16 then 0x00 else if i == 17 then 0x1b else if i == 18 then 0xe1 else if i == 19 then 0x01
    else if i == 20 then 0xf0 else if i == 21 then 0x00 else if i == 22 then 0x4f else if i == 23 then 0xc4
    else if i == 24 then 0x3d else if i == 25 then 0x1b else 0xff
  }

  function Pmt(): Packet {
    Bytes(i => PmtByte(i))
  }

  function NullPacket(): Packet {
    Bytes(i => if i == 0 then 0x47 else if i == 1 then 0x1f else if i == 3 then 0x10 else 0xff)
  }

  type PidNumber = x: nat | x < 0x2000

  /** A packet on `pid`, with a PCR or not; `start` begins a picture at a random access point. */
  function ClockByte(pid: PidNumber, start: bool, pcr: bool, tick: Pcr, i: nat): byte {
    if i == 0 then 0x47 else if i == 1 then (if start then 0x40 else 0) + pid / 256
    else if i == 2 then pid % 256 else if i == 3 then 0x30 else if i == 4 then 7
    else if i == 5 then (if start then 0x40 else 0) + (if pcr then 0x10 else 0)
    else if i == 6 then tick / 2 / 256 / 256 / 256 else if i == 7 then tick / 2 / 256 / 256 % 256
    else if i == 8 then tick / 2 / 256 % 256 else if i == 9 then tick / 2 % 256
    else if i == 10 then tick % 2 * 128 else if i == 11 then 0 else 0xff
  }

  function ClockPacket(pid: PidNumber, start: bool, pcr: bool, tick: Pcr): Packet {
    Bytes(i => ClockByte(pid, start, pcr, tick, i))
  }

  const FIRST := Program(1, 0x100, 0x101, H264)

  lemma PatBytes(first: byte, crc: seq<byte>)
    requires |crc| == 4
    ensures var raw := TwoPrograms(first, crc).raw;
            && raw[0] == 0x47 && raw[1] == 0x40 && raw[2] == 0 && raw[3] == 0x10 && raw[4] == 0
            && raw[5] == 0 && raw[6] == 0xb0 && raw[7] == 17 && raw[10] == 0xc1
            && raw[13..21] == [0x00, first, 0xe1, 0x00, 0x00, 0x02, 0xe1, 0x10]
  {
    var raw := TwoPrograms(first, crc).raw;
    var entries: seq<byte> := [0x00, first, 0xe1, 0x00, 0x00, 0x02, 0xe1, 0x10];
    assert forall i | 0 <= i < 8 :: raw[13 + i] == entries[i];
  }

  lemma PatFields(first: byte, crc: seq<byte>)
    requires |crc| == 4 && first != 0
    ensures var p := TwoPrograms(first, crc);
            && On(p, 0) && !Marked(p) && TsTiming(p).pcr.None?
            && ParsePat(p) == Some(Some((first as nat, 0x100)))
  {
    hide TwoPrograms;
    var p := TwoPrograms(first, crc);
    PatBytes(first, crc);
    assert SectionStart(p) == Some(5);
    assert CurrentSection(p, 0, 9) == Some((5, 21));
    var entries := p.raw[13..21];
    assert p.raw[13] == entries[0] && p.raw[14] == entries[1] && p.raw[15] == entries[2] && p.raw[16] == entries[3];
    assert FirstProgram(p, 13, 21) == Some((first as nat, 0x100));
  }

  /** Whatever its checksum comes to, such a PAT passes through the audio selection. */
  lemma PatPasses(first: byte, bytes: seq<byte>, crc: seq<byte> -> nat)
    requires |bytes| == 4 && first != 0
    ensures Detach(TwoPrograms(first, bytes), crc).Pass?
  {
    hide TwoPrograms, Programs;
    var p := TwoPrograms(first, bytes);
    PatBytes(first, bytes);
    assert TsPid(p) == 0 && PayloadOffset(p) == Some(4);
    TwoEntries(first);
    var section := p.raw[5..25];
    assert section[8..16] == p.raw[13..21];
    assert StrictPat(p, crc) in {Whole(section), Psi.Unsupported, Invalid};
  }

  lemma TwoEntries(first: byte)
    requires first != 0
    ensures Programs([0x00, first, 0xe1, 0x00, 0x00, 0x02, 0xe1, 0x10]) == 2
  {
    var entries: seq<byte> := [0x00, first, 0xe1, 0x00, 0x00, 0x02, 0xe1, 0x10];
    assert entries[4..] == [0x00, 0x02, 0xe1, 0x10];
    assert Programs(entries[4..]) == 1;
  }

  lemma PmtBytes()
    ensures var raw := Pmt().raw;
            && raw[0] == 0x47 && raw[1] == 0x41 && raw[2] == 0 && raw[3] == 0x10 && raw[4] == 0
            && raw[5] == 2 && raw[6] == 0xb0 && raw[7] == 18 && raw[8] == 0 && raw[9] == 1 && raw[10] == 0xc1
            && raw[15] == 0xf0 && raw[16] == 0
            && raw[17] == 0x1b && raw[18] == 0xe1 && raw[19] == 1 && raw[20] == 0xf0 && raw[21] == 0
  {
  }

  lemma PmtFields(p: Packet)
    requires p == Pmt()
    ensures On(p, 0x100) && !Marked(p)
    ensures ParsePmt(p, Some(1)) == Some(Some((0x101, H264)))
  {
    PmtBytes();
    hide Bytes;
    assert SectionStart(p) == Some(5);
    assert CurrentSection(p, 2, 13) == Some((5, 22));
    assert FirstVideo(p, 22, 22, Some((0x101, H264))) == Some(Some((0x101, H264)));
    assert Pid(p, 18) == 0x101;
    assert FirstVideo(p, 17, 22, None) == FirstVideo(p, 22, 22, Some((0x101, H264)));
  }

  lemma NullFields()
    ensures Other(FIRST, NullPacket()) && TsPid(NullPacket()) == 0x1fff && TsTiming(NullPacket()).pcr.None?
  {
  }

  lemma ClockBytes(pid: PidNumber, start: bool, pcr: bool, tick: Pcr)
    ensures var raw := ClockPacket(pid, start, pcr, tick).raw;
            && raw[0] == 0x47 && raw[1] == (if start then 0x40 else 0) + pid / 256 && raw[2] == pid % 256
            && raw[3] == 0x30 && raw[4] == 7 && raw[5] == (if start then 0x40 else 0) + (if pcr then 0x10 else 0)
            && raw[6] == tick / 2 / 256 / 256 / 256 && raw[7] == tick / 2 / 256 / 256 % 256
            && raw[8] == tick / 2 / 256 % 256 && raw[9] == tick / 2 % 256 && raw[10] == tick % 2 * 128
  {
  }

  lemma ClockFields(pid: PidNumber, start: bool, pcr: bool, tick: Pcr)
    ensures var p := ClockPacket(pid, start, pcr, tick);
            && On(p, pid) && TsTiming(p) == Timing(pid, if pcr then Some(tick) else None, false)
            && (start ==> StartsUnit(p) && RandomAccessFlag(p))
  {
    hide ClockPacket;
    ClockBytes(pid, start, pcr, tick);
  }

  /** Nothing in the stream gives the audio selection a program to follow. */
  lemma {:induction false} StreamPasses(rest: Media, crc: seq<byte> -> nat, strict: bool, seen: seq<Packet>, ps: seq<Packet>)
    requires Unattached(seen, crc) && forall i | 0 <= i < |ps| :: Detach(ps[i], crc).Pass?
    requires strict ==> forall i | 0 <= i < |ps| :: ClearMarker(ps[i]) == ps[i]
    ensures PassesAll(TransportMedia(rest, crc), strict, seen, ps)
  {
    hide Detach, TransportMedia;
    forall i | 0 <= i < |ps| ensures Passes(TransportMedia(rest, crc), strict, seen + ps[..i], ps[i]) {
      assert forall j | 0 <= j < |seen + ps[..i]| ::
          (seen + ps[..i])[j] == if j < |seen| then seen[j] else ps[j - |seen|];
      SeveralProgramsPass(rest, crc, seen + ps[..i], ps[i]);
    }
  }

  /** The tables and the access point of program 1. */
  lemma SampleTables(rest: Media, crc: seq<byte> -> nat)
    ensures var m := TransportMedia(rest, crc);
            && m.patProgram(Pat()) == Some(Some((1, 0x100))) && m.patProgram(RenamedPat()) == Some(Some((3, 0x100)))
            && m.pmtVideo(Pmt(), Some(1)) == Some(Some((0x101, H264)))
            && (forall pcr, tick :: m.randomAccess(ClockPacket(0x101, true, pcr, tick), Some(H264)))
  {
    hide TwoPrograms, Pmt, ParsePat, ParsePmt, StartsUnit, RandomAccessFlag, ClockPacket;
    PatFields(1, [0x07, 0x73, 0x21, 0x0a]);
    PatFields(3, [0x99, 0xdd, 0xf1, 0x28]);
    PmtFields(Pmt());
    forall pcr, tick ensures OpensPicture(rest, ClockPacket(0x101, true, pcr, tick), Some(H264)) {
      ClockFields(0x101, true, pcr, tick);
    }
  }

  /** All of them pass the audio selection. */
  lemma SamplesPass(p: Packet, crc: seq<byte> -> nat)
    requires p in {Pat(), RenamedPat(), Pmt(), NullPacket()} || TsPid(p) != 0
    ensures Detach(p, crc).Pass?
  {
    hide TwoPrograms, Pmt, NullPacket, TsPid, TsTiming, ParsePmt, StrictPat;
    PatPasses(1, [0x07, 0x73, 0x21, 0x0a], crc);
    PatPasses(3, [0x99, 0xdd, 0xf1, 0x28], crc);
    PmtFields(Pmt());
    NullFields();
  }
}
