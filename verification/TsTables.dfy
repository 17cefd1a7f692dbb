/** Program tables at byte level: how a PAT, a PMT and an access point are read from one packet, and
    how the audio selection treats a transport that is not one single program. */
module TsTables {
  import opened Ts
  import opened HlsModel

  // ----- Table sections -------------------------------------------------------------------

  predicate StartsUnit(p: Packet) {
    Bit(p.raw[1], 0x40)
  }

  function PayloadOffset(p: Packet): (r: Option<nat>)
    ensures r.Some? ==> 4 <= r.value < TS_PACKET
  {
    var control := p.raw[3] / 16 % 4;
    if control == 1 then Some(4)
    else if control == 3 && 5 + p.raw[4] < TS_PACKET then Some(5 + p.raw[4])
    else None
  }

  function SectionStart(p: Packet): (r: Option<nat>)
    ensures r.Some? ==> 5 <= r.value < TS_PACKET
  {
    match PayloadOffset(p)
    case None => None
    case Some(offset) =>
      var start := offset + 1 + p.raw[offset];
      if start < TS_PACKET then Some(start) else None
  }

  /** The section of a complete, current table in one packet: its start, and the end of its data
      before the checksum. */
  function CurrentSection(p: Packet, table: byte, minimum: nat): (r: Option<(nat, nat)>)
    requires minimum >= 4
    ensures r.Some? ==>
              5 <= r.value.0 && r.value.0 + 3 + minimum <= r.value.1 + 4 <= TS_PACKET
  {
    var start := SectionStart(p);
    if !StartsUnit(p) || start.None? then None
    else
      var at := start.value;
      if at + 5 >= TS_PACKET || p.raw[at] != table || p.raw[at + 5] % 2 == 0 then None
      else
        var length := p.raw[at + 1] as int % 16 * 256 + p.raw[at + 2];
        if length >= minimum && at + 3 + length <= TS_PACKET then Some((at, at + 3 + length - 4)) else None
  }

  function U16(p: Packet, at: nat): nat
    requires at + 1 < TS_PACKET
  {
    p.raw[at] as int * 256 + p.raw[at + 1]
  }

  function Pid(p: Packet, at: nat): nat
    requires at + 1 < TS_PACKET
  {
    p.raw[at] as int % 32 * 256 + p.raw[at + 1]
  }

  /** The first entry of a PAT that is not its network entry. */
  function FirstProgram(p: Packet, pos: nat, end: nat): (r: Option<(nat, nat)>)
    requires end <= TS_PACKET
    ensures r.Some? ==> r.value.0 != 0
    decreases end - pos
  {
    if pos + 4 > end then None
    else if U16(p, pos) != 0 then Some((U16(p, pos), Pid(p, pos + 2)))
    else FirstProgram(p, pos + 4, end)
  }

  function ParsePat(p: Packet): Option<Option<(nat, nat)>> {
    match CurrentSection(p, 0x00, 9)
    case None => None
    case Some((start, end)) =>
      if (end - (start + 8)) % 4 != 0 then None else Some(FirstProgram(p, start + 8, end))
  }

  function VideoCodec(streamType: byte): Option<Codec> {
    if streamType == 0x02 then Some(Mpeg2)
    else if streamType == 0x1B then Some(H264)
    else if streamType == 0x24 then Some(Hevc)
    else None
  }

  /** The first video stream of a PMT, provided its entries fill the table exactly. */
  function FirstVideo(p: Packet, pos: nat, end: nat, video: Option<(nat, Codec)>): Option<Option<(nat, Codec)>>
    requires end <= TS_PACKET
    decreases end - pos
  {
    if pos + 5 > end then if pos == end then Some(video) else None
    else
      var codec := VideoCodec(p.raw[pos]);
      var next := pos + 5 + p.raw[pos + 3] as int % 16 * 256 + p.raw[pos + 4];
      FirstVideo(p, next, end,
                 if video.None? && codec.Some? then Some((Pid(p, pos + 1), codec.value)) else video)
  }

  function ParsePmt(p: Packet, program: Option<nat>): Option<Option<(nat, Codec)>> {
    match CurrentSection(p, 0x02, 13)
    case None => None
    case Some((start, end)) =>
      if program != Some(U16(p, start + 3)) then None
      else
        var info := p.raw[start + 10] as int % 16 * 256 + p.raw[start + 11];
        FirstVideo(p, start + 12 + info, end, None)
  }

  predicate RandomAccessFlag(p: Packet) {
    Bit(p.raw[3], 0x20) && p.raw[4] >= 1 && Bit(p.raw[5], 0x40)
  }

  // ----- The audio selection on other than one program ------------------------------------

  datatype Psi = Whole(section: seq<byte>) | Unsupported | Invalid

  /** The selection's own, stricter reading of a PAT; `crc` is the checksum over a section. */
  function StrictPat(p: Packet, crc: seq<byte> -> nat): (r: Psi)
    ensures r.Whole? ==> |r.section| >= 12
  {
    var offset := PayloadOffset(p);
    if p.raw[0] != TS_SYNC || p.raw[1] >= 0x80 || p.raw[3] >= 0x40 || offset.None? then Invalid
    else if !StartsUnit(p) then Psi.Unsupported
    else
      var start := offset.value + 1 + p.raw[offset.value];
      if start + 3 > TS_PACKET || p.raw[start] != 0 || p.raw[start + 1] / 16 != 0xb then Invalid
      else
        var length := p.raw[start + 1] as int % 16 * 256 + p.raw[start + 2];
        if length < 9 || length > 1021 || start + 5 >= TS_PACKET || p.raw[start + 5] % 2 == 0 then Invalid
        else if start + 3 + length > TS_PACKET then Psi.Unsupported
        else
          var section := p.raw[start..start + 3 + length];
          if crc(section) != 0 then Invalid
          else if section[6] != 0 || section[7] != 0 || p.raw[offset.value] != 0
                  || (exists i | start + 3 + length <= i < TS_PACKET :: p.raw[i] != 0xff) then Psi.Unsupported
          else Whole(section)
  }

  /** How many of the four-byte entries name a program. */
  function Programs(entries: seq<byte>): nat
    decreases |entries|
  {
    if |entries| < 4 then 0
    else (if entries[0] != 0 || entries[1] != 0 then 1 else 0) + Programs(entries[4..])
  }

  /** What the selection makes of a packet while it follows no program: it follows one only after a
      PAT that names exactly one. */
  datatype Detached = Pass | Drop | Attach

  function Detach(p: Packet, crc: seq<byte> -> nat): Detached {
    if TsPid(p) != 0 then Pass
    else
      match StrictPat(p, crc)
      case Whole(section) =>
        var entries := section[8..|section| - 4];
        if |entries| % 4 != 0 then Drop else if Programs(entries) == 1 then Attach else Pass
      case _ => Pass
  }

  /** No packet so far has given the selection a program to follow. */
  predicate Unattached(seen: seq<Packet>, crc: seq<byte> -> nat) {
    forall i | 0 <= i < |seen| :: !Detach(seen[i], crc).Attach?
  }

  function Packets(events: seq<AudioEvent>): seq<Packet> {
    if events == [] then []
    else Packets(events[..|events| - 1]) + if events[|events| - 1].Seen? then [events[|events| - 1].packet] else []
  }

  predicate OpensPicture(rest: Media, p: Packet, codec: Option<Codec>) {
    StartsUnit(p) && (RandomAccessFlag(p) || rest.randomAccess(p, codec))
  }

  function Hear(rest: Media, crc: seq<byte> -> nat, seen: seq<Packet>, p: Packet): AudioPacket {
    if Unattached(seen + [p], crc) then AudioPacket(if Detach(p, crc).Drop? then None else Some(p), false)
    else rest.audioObserve(seen, p)
  }

  function Tables(rest: Media, crc: seq<byte> -> nat, seen: seq<Packet>): seq<Packet> {
    if Unattached(seen, crc) then [] else rest.audioTables(seen)
  }

  function PcrPid(rest: Media, crc: seq<byte> -> nat, seen: seq<Packet>): Option<nat> {
    if Unattached(seen, crc) then None else rest.audioPcrPid(seen)
  }

  function Resend(rest: Media, crc: seq<byte> -> nat, events: seq<AudioEvent>, raw: seq<Packet>, i: nat): Packet {
    if Unattached(Packets(events), crc) && i < |raw| then raw[i] else rest.audioRewrite(events, raw, i)
  }

  /** The packager's media analysis with these parsers. Left to `rest`: finding a picture inside the
      payload, building an SDT, and an audio selection that does follow a program. */
  function TransportMedia(rest: Media, crc: seq<byte> -> nat): Media {
    Media(
      p => ParsePat(p),
      (p, program) => ParsePmt(p, program),
      (p, codec) => OpensPicture(rest, p, codec),
      rest.sdt,
      (seen, p) => Hear(rest, crc, seen, p),
      seen => Tables(rest, crc, seen),
      seen => PcrPid(rest, crc, seen),
      (events, raw, i: nat) => Resend(rest, crc, events, raw, i))
  }

  /** A PAT that names anything but one program passes through whole and leaves the selection
      without a program, whatever its checksum. */
  lemma SeveralProgramsPass(rest: Media, crc: seq<byte> -> nat, seen: seq<Packet>, p: Packet)
    requires Unattached(seen, crc) && Detach(p, crc).Pass?
    ensures var m := TransportMedia(rest, crc);
            && m.audioObserve(seen, p) == AudioPacket(Some(p), false)
            && m.audioPcrPid(seen + [p]).None? && Unattached(seen + [p], crc)
  {
    hide Detach;
    var seen' := seen + [p];
    assert forall i | 0 <= i < |seen'| :: !Detach(seen'[i], crc).Attach?;
  }
}
