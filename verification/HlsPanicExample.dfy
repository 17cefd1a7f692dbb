/** The panic is reachable: with the packager's own parsers, a transport of two programs panics it
    under every accepted configuration that leaves room for four packets. */
module HlsPanicExample {
  import opened Ts
  import opened HlsModel
  import opened HlsInvariants
  import opened HlsRuns
  import opened HlsConfig
  import opened HlsDrive
  import opened HlsRename
  import opened TsTables
  import opened TsSamples

  function Video(start: bool, tick: Pcr): Packet {
    ClockPacket(0x101, start, true, tick)
  }

  function Filling(n: nat): seq<Packet> {
    seq(n, _ => NullPacket())
  }

  /** The stream, for a run ceiling of `n` packets and a target of `ticks`. */
  function Stream(n: nat, ticks: Pcr): seq<Packet>
    requires n >= 4
  {
    [Pat(), Pmt(), Video(true, 0)] + (Filling(n - 4) + [RenamedPat(), Video(false, ticks)])
  }

  lemma StreamDetached(n: nat, ticks: Pcr, crc: seq<byte> -> nat)
    requires n >= 4
    ensures var ps := Stream(n, ticks); forall i | 0 <= i < |ps| :: Detach(ps[i], crc).Pass?
  {
    hide Pat, RenamedPat, Pmt, NullPacket, ClockPacket, Detach, TsPid, TsTiming;
    ClockFields(0x101, true, true, 0);
    ClockFields(0x101, false, true, ticks);
    var ps := Stream(n, ticks);
    forall i | 0 <= i < |ps| ensures Detach(ps[i], crc).Pass? {
      assert ps[i] in {Pat(), RenamedPat(), Pmt(), NullPacket(), Video(true, 0), Video(false, ticks)};
      SamplesPass(ps[i], crc);
    }
  }

  lemma StreamBegins(rest: Media, crc: seq<byte> -> nat)
    ensures Announces(TransportMedia(rest, crc), FIRST, Pat(), Pmt(), Video(true, 0), 0)
    ensures Renames(TransportMedia(rest, crc), FIRST, RenamedPat())
  {
    hide TsPid, TsTiming, TwoPrograms, Pmt, ClockPacket, TransportMedia, ParsePat, ParsePmt, StartsUnit, RandomAccessFlag;
    SampleTables(rest, crc);
    PatFields(1, [0x07, 0x73, 0x21, 0x0a]);
    PatFields(3, [0x99, 0xdd, 0xf1, 0x28]);
    PmtFields(Pmt());
    ClockFields(0x101, true, true, 0);
  }

  lemma StreamEnds(m: Media, k: Params, fill: seq<Packet>, ticks: Pcr)
    requires k.maxPackets >= 4 && k.target == ticks <= PCR_MODULUS / 2 && Renames(m, FIRST, RenamedPat())
    requires fill == Filling(k.maxPackets - 4)
    ensures Ends(m, k, FIRST, fill, RenamedPat(), Video(false, ticks), 0, ticks)
  {
    hide TsPid, TsTiming, RenamedPat, NullPacket, ClockPacket, Renames, Other;
    NullFields();
    ClockFields(0x101, false, true, ticks);
    assert PcrDelta(0, ticks) == Some(ticks);
  }

  lemma StreamPanics(k: Params, rest: Media, crc: seq<byte> -> nat)
    requires ValidParams(k) && k.maxPackets >= 4 && k.target <= PCR_MODULUS / 2
    ensures var m := TransportMedia(rest, crc);
            && FeedWf(m, k, Initial(k, false, false))
            && Run(m, k, Initial(k, false, false), Feeds(Stream(k.maxPackets, k.target))).panicked
  {
    hide Filling, TransportMedia, Pat, Pmt, Video, RenamedPat, NullPacket, Feeds, Run, FeedWf, Initial, Announces, Ends, Renames,
         Detach, PassesAll;
    var m, n, ticks := TransportMedia(rest, crc), k.maxPackets, k.target;
    var fill := Filling(n - 4);
    StreamBegins(rest, crc);
    StreamEnds(m, k, fill, ticks);
    StreamDetached(n, ticks, crc);
    StreamPasses(rest, crc, false, [], Stream(n, ticks));
    RenamePanics(m, k, FIRST, Pat(), Pmt(), Video(true, 0), fill, RenamedPat(), Video(false, ticks), 0, ticks);
  }

  lemma Limits(c: Config)
    requires Validate(c, ISIZE_MAX) == Accepted
    ensures ValidParams(Effective(c)) && Effective(c).maxPackets == c.segmentPackets && Effective(c).target == c.segmentMs * 90
  {
    ValidateExact(c, ISIZE_MAX);
  }

  /** With the packager's own parsers, every accepted configuration with room for four packets and
      a target within half the clock's range is panicked by a transport of two programs. */
  lemma PanicHappens(c: Config, rest: Media, crc: seq<byte> -> nat)
    requires Validate(c, ISIZE_MAX) == Accepted && c.segmentPackets >= 4 && c.segmentMs * 90 <= PCR_MODULUS / 2
    ensures var m, k := TransportMedia(rest, crc), Effective(c);
            && FeedWf(m, k, Initial(k, false, false))
            && Run(m, k, Initial(k, false, false), Feeds(Stream(c.segmentPackets, c.segmentMs * 90))).panicked
  {
    hide Validate, Effective, TransportMedia, Feeds, Run, FeedWf, Initial, Stream;
    Limits(c);
    StreamPanics(Effective(c), rest, crc);
  }

  /** The smallest such configuration: four packets, one millisecond. */
  lemma SmallestPanics(rest: Media, crc: seq<byte> -> nat)
    ensures var c := Config(4, 1, 1, 1, 1);
            var m, k := TransportMedia(rest, crc), Effective(c);
            && Validate(c, ISIZE_MAX) == Accepted
            && FeedWf(m, k, Initial(k, false, false))
            && Run(m, k, Initial(k, false, false), Feeds(Stream(4, 90))).panicked
  {
    hide TransportMedia, Feeds, Run, FeedWf, Initial, Stream;
    PanicHappens(Config(4, 1, 1, 1, 1), rest, crc);
  }
}
