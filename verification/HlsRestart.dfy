/** A generation that begins without announcing a recovery: once segments are out, the first segment
    of such a generation is unflagged although it continues nothing. */
module HlsRestart {
  import opened Ts
  import opened HlsModel
  import opened HlsInvariants
  import opened HlsRuns
  import opened HlsTheorems
  import opened HlsDrive
  import opened HlsConfig
  import opened HlsPanicExample
  import opened TsTables
  import opened TsSamples

  /** Tables, an access point, and a second one past the target. */
  datatype Opening = Opening(g: Program, pat: Packet, pmt: Packet, key: Packet, next: Packet, tick: Pcr, tick': Pcr)

  function Packets(o: Opening): seq<Packet> {
    [o.pat] + ([o.pmt] + ([o.key] + ([o.next] + [])))
  }

  ghost predicate Cuts(m: Media, k: Params, o: Opening) {
    && k.maxPackets >= 4
    && Announces(m, o.g, o.pat, o.pmt, o.key, o.tick)
    && On(o.next, o.g.videoPid) && m.randomAccess(o.next, Some(o.g.codec))
    && TsTiming(o.next) == Timing(o.g.videoPid, Some(o.tick'), false)
    && PcrDelta(o.tick, o.tick').Some? && PcrDelta(o.tick, o.tick').value >= k.target
    && PassesAll(m, true, [], Packets(o))
  }

  function KnownTables(o: Opening, identity: bool, pmt: bool): Access {
    Tabled(o.g, o.pat, if pmt then Some(o.pmt) else None).(identity := identity)
  }

  lemma OpeningLearns(m: Media, k: Params, o: Opening, identity: bool)
    requires Cuts(m, k, o)
    ensures Learns(m, NewAccess(false, identity), o.pat) == (KnownTables(o, identity, false), false)
    ensures Learns(m, KnownTables(o, identity, false), o.pmt) == (KnownTables(o, identity, true), false)
    ensures Learns(m, KnownTables(o, identity, true), o.key) == (KnownTables(o, identity, true), true)
    ensures Learns(m, KnownTables(o, identity, true), o.next) == (KnownTables(o, identity, true), true)
  {
    hide TsPid, TsTiming, PassesAll;
  }

  /** What a packager has between two openings: no run, no tables, nothing heard. */
  ghost predicate Rested(m: Media, k: Params, st: St, identity: bool) {
    Idle(m, k, st) && Bare(st.access) == NewAccess(false, identity) && st.audio.seen == []
  }

  lemma PassesEither(m: Media, strict: bool, ps: seq<Packet>)
    requires PassesAll(m, true, [], ps)
    ensures PassesAll(m, strict, [], ps)
  {
    forall i | 0 <= i < |ps| ensures Passes(m, strict, [] + ps[..i], ps[i]) {
      assert Passes(m, true, [] + ps[..i], ps[i]);
    }
  }

  /** A table packet of the opening. */
  lemma TableIn(m: Media, k: Params, st: St, ps: seq<Packet>, p: Packet, access: Access, access': Access, rest: seq<Packet>)
    requires Idle(m, k, st) && Bare(st.access) == access && !access.title && !Marked(p)
    requires st.audio.seen == ps && Learns(m, access, p) == (access', false)
    requires PassesAll(m, st.strict, ps, [p] + rest)
    ensures FeedWf(m, k, st)
    ensures var r := Feeding(m, k, st, p);
            && Idle(m, k, r) && Bare(r.access) == access' && r.audio.seen == ps + [p] && SameFeed(st, r)
            && r.hist.log == st.hist.log && r.hist.start == st.hist.start && r.pending == st.pending
            && PassesAll(m, r.strict, ps + [p], rest)
            && Run(m, k, st, Feeds([p] + rest, TagOf(st))) == Run(m, k, r, Feeds(rest, TagOf(st)))
  {
    hide Learns, Feeding, TsTiming, Run, Feeds, FeedWf, Passes, PassesAll, Taken;
    PassesFirst(m, st.strict, ps, p, rest);
    TakenHist(m, st, p);
    FeedTable(m, k, st, p);
    RunFeeds(m, k, st, p, rest);
  }

  lemma KeyIn(m: Media, k: Params, o: Opening, st: St, ps: seq<Packet>, identity: bool, rest: seq<Packet>)
    requires Cuts(m, k, o) && Idle(m, k, st) && Bare(st.access) == KnownTables(o, identity, true)
    requires st.audio.seen == ps && PassesAll(m, st.strict, ps, [o.key] + rest)
    ensures FeedWf(m, k, st)
    ensures var r := Feeding(m, k, st, o.key);
            && InRun(m, k, r, 3, Clock(Some(o.g.videoPid), Some(o.tick), Some(o.tick)))
            && Bare(r.access) == KnownTables(o, identity, true) && r.audio.seen == ps + [o.key] && SameFeed(st, r)
            && r.hist.log == st.hist.log && r.hist.start == st.hist.start && r.pending == st.pending
            && PassesAll(m, r.strict, ps + [o.key], rest)
            && Run(m, k, st, Feeds([o.key] + rest, TagOf(st))) == Run(m, k, r, Feeds(rest, TagOf(st)))
  {
    hide Learns, Feeding, TsTiming, TsPid, Run, Feeds, FeedWf, Passes, PassesAll, Taken, Packets;
    OpeningLearns(m, k, o, identity);
    PassesFirst(m, st.strict, ps, o.key, rest);
    TakenHist(m, st, o.key);
    FeedOpen(m, k, st, o.key);
    RunFeeds(m, k, st, o.key, rest);
  }

  /** The second access point cuts the segment. */
  lemma NextIn(m: Media, k: Params, o: Opening, st: St, ps: seq<Packet>, identity: bool)
    requires Cuts(m, k, o) && InRun(m, k, st, 3, Clock(Some(o.g.videoPid), Some(o.tick), Some(o.tick)))
    requires Bare(st.access) == KnownTables(o, identity, true)
    requires st.audio.seen == ps && PassesAll(m, st.strict, ps, [o.next] + [])
    ensures FeedWf(m, k, st)
    ensures var r := Run(m, k, st, Feeds([o.next] + [], TagOf(st)));
            InRun(m, k, r, 3, r.clock) && SameFeed(st, r) && r.hist.start == st.hist.start && Published(st, r)
            && r.access.title == st.access.title
  {
    hide Learns, Feeding, TsTiming, TsPid, Run, Feeds, FeedWf, Passes, PassesAll, Packets;
    OpeningLearns(m, k, o, identity);
    PassesFirst(m, st.strict, ps, o.next, []);
    FeedCut(m, k, st, o.next, 3);
    RunFeeds(m, k, st, o.next, []);
    EmptyRun(m, k, Feeding(m, k, st, o.next), TagOf(st));
  }

  /** The opening publishes one segment, flagged if the packager was pending. */
  lemma OpeningPublishes(m: Media, k: Params, o: Opening, st: St, identity: bool)
    requires Cuts(m, k, o) && Rested(m, k, st, identity)
    ensures FeedWf(m, k, st)
    ensures var r := Run(m, k, st, Feeds(Packets(o), TagOf(st)));
            InRun(m, k, r, 3, r.clock) && SameFeed(st, r) && r.hist.start == st.hist.start && Published(st, r)
            && !r.access.title
  {
    hide Learns, Feeding, TsTiming, TsPid, Run, Feeds, FeedWf, PassesAll, Idle, InRun, Bare, Announces;
    OpeningLearns(m, k, o, identity);
    PassesEither(m, st.strict, Packets(o));
    var rest := [o.key] + ([o.next] + []);
    UnmarkedTables(m, k, o);
    TableIn(m, k, st, [], o.pat, NewAccess(false, identity), KnownTables(o, identity, false), [o.pmt] + rest);
    var s1, ps1 := Feeding(m, k, st, o.pat), [] + [o.pat];
    TableIn(m, k, s1, ps1, o.pmt, KnownTables(o, identity, false), KnownTables(o, identity, true), rest);
    var s2, ps2 := Feeding(m, k, s1, o.pmt), ps1 + [o.pmt];
    KeyIn(m, k, o, s2, ps2, identity, [o.next] + []);
    var s3 := Feeding(m, k, s2, o.key);
    NextIn(m, k, o, s3, ps2 + [o.key], identity);
    BareTitle(s3.access, KnownTables(o, identity, true));
  }

  lemma UnmarkedTables(m: Media, k: Params, o: Opening)
    requires Cuts(m, k, o)
    ensures !Marked(o.pat) && !Marked(o.pmt)
  {
  }

  lemma BareTitle(a: Access, b: Access)
    requires Bare(a) == b
    ensures a.title == b.title
  {
  }

  // ----- Twice, without announcing a recovery ---------------------------------------------

  lemma {:induction false} RunAppend(m: Media, k: Params, st: St, a: seq<Call>, b: seq<Call>)
    requires FeedWf(m, k, st)
    ensures FeedWf(m, k, Run(m, k, st, a)) && Run(m, k, st, a + b) == Run(m, k, Run(m, k, st, a), b)
    decreases |a|
  {
    hide Apply, FeedWf;
    if a == [] {
      assert a + b == b;
    } else {
      ApplyWf(m, k, st, a[0]);
      RunAppend(m, k, Apply(m, k, st, a[0]), a[1..], b);
      assert (a + b)[0] == a[0] && (a + b)[1..] == a[1..] + b;
    }
  }

  /** The opening, a generation that begins as a first start, and the opening again. */
  function Twice(o: Opening, generation: nat): seq<Call> {
    Feeds(Packets(o)) + ([Begin(generation, false)] + Feeds(Packets(o), Fenced(generation)))
  }

  /** A new generation rests, unflagged. */
  lemma BeginRests(m: Media, k: Params, st: St, generation: nat)
    requires InRun(m, k, st, 3, st.clock) && !st.access.title && generation > st.generation
    ensures FeedWf(m, k, st)
    ensures var r := Apply(m, k, st, Begin(generation, false));
            && FeedWf(m, k, r) && Rested(m, k, r, true) && TagOf(r) == Fenced(generation)
            && !r.pending && r.hist.log == st.hist.log && r.hist.start > 0
  {
    hide AccessInv, Rebases;
    ApplyWf(m, k, st, Begin(generation, false));
  }

  lemma InitialRests(m: Media, k: Params)
    requires ValidParams(k)
    ensures var st := Initial(k, false, false);
            && FeedWf(m, k, st) && Rested(m, k, st, false) && !st.strict && st.generation == 0 && !st.pending
            && st.hist.log == [] && st.hist.start == 0
  {
  }

  lemma TwiceRuns(m: Media, k: Params, o: Opening, generation: nat)
    requires ValidParams(k) && Cuts(m, k, o) && generation > 0
    ensures FeedWf(m, k, Initial(k, false, false))
    ensures var h := Run(m, k, Initial(k, false, false), Twice(o, generation)).hist;
            && |h.log| == 2 && !h.log[1].segment.discontinuity && h.log[0].start < h.log[1].start
  {
    hide Run, Feeds, FeedWf, Rested, InRun, Initial, Packets, Cuts, Apply;
    var s0 := Initial(k, false, false);
    InitialRests(m, k);
    OpeningPublishes(m, k, o, s0, false);
    var s1 := Run(m, k, s0, Feeds(Packets(o)));
    BeginRests(m, k, s1, generation);
    var c := Begin(generation, false);
    var s2 := Apply(m, k, s1, c);
    OpeningPublishes(m, k, o, s2, true);
    var more := Feeds(Packets(o), Fenced(generation));
    RunAppend(m, k, s0, Feeds(Packets(o)), [c] + more);
    RunFirst(m, k, s1, c, more);
  }

  lemma RunFirst(m: Media, k: Params, st: St, c: Call, calls: seq<Call>)
    requires FeedWf(m, k, st)
    ensures FeedWf(m, k, Apply(m, k, st, c)) && Run(m, k, st, [c] + calls) == Run(m, k, Apply(m, k, st, c), calls)
  {
    hide Apply, FeedWf;
    ApplyWf(m, k, st, c);
    assert ([c] + calls)[0] == c && ([c] + calls)[1..] == calls;
  }

  /** Every such opening, fed before and after a generation that begins as a first start, ends in an
      unflagged segment that continues nothing. */
  lemma RestartUnflagged(m: Media, k: Params, o: Opening, generation: nat, st: St)
    requires ValidParams(k) && Cuts(m, k, o) && generation > 0
    requires Reachable(m, k, false, false, Twice(o, generation), st)
    ensures |st.hist.log| == 2 && !st.hist.log[1].segment.discontinuity && !Continues(st.hist, 1)
    ensures Restarted(st.hist.events, st.hist.log[1].start, st.hist.log[..1])
  {
    hide Run, Twice, FeedWf, Initial, Cuts, Restarted;
    TwiceRuns(m, k, o, generation);
    UnflaggedExactly(m, k, false, false, Twice(o, generation), st, 1);
  }

  // ----- A transport that does so ---------------------------------------------------------

  function Sample(ticks: Pcr): Opening {
    Opening(FIRST, Pat(), Pmt(), ClockPacket(0x101, true, true, 0), ClockPacket(0x101, true, true, ticks), 0, ticks)
  }

  lemma SampleCuts(k: Params, rest: Media, crc: seq<byte> -> nat)
    requires k.maxPackets >= 4 && k.target <= PCR_MODULUS / 2
    ensures Cuts(TransportMedia(rest, crc), k, Sample(k.target))
  {
    hide TsPid, TsTiming, TwoPrograms, Pmt, ClockPacket, TransportMedia, PassesAll, ParsePat, ParsePmt, StartsUnit,
         RandomAccessFlag, Detach, ClearMarker;
    var o := Sample(k.target);
    SampleTables(rest, crc);
    PatFields(1, [0x07, 0x73, 0x21, 0x0a]);
    PmtFields(Pmt());
    ClockFields(0x101, true, true, 0);
    ClockFields(0x101, true, true, k.target);
    SampleClear(k.target);
    var ps := Packets(o);
    forall i | 0 <= i < |ps| ensures Detach(ps[i], crc).Pass? {
      SamplesPass(ps[i], crc);
    }
    StreamPasses(rest, crc, true, [], ps);
  }

  /** None of them carries a marker to clear. */
  lemma SampleClear(ticks: Pcr)
    ensures ClearMarker(Pat()) == Pat() && ClearMarker(Pmt()) == Pmt()
    ensures ClearMarker(ClockPacket(0x101, true, true, 0)) == ClockPacket(0x101, true, true, 0)
    ensures ClearMarker(ClockPacket(0x101, true, true, ticks)) == ClockPacket(0x101, true, true, ticks)
  {
    hide TwoPrograms, Pmt, ClockPacket;
    PatBytes(1, [0x07, 0x73, 0x21, 0x0a]);
    PmtBytes();
    ClockBytes(0x101, true, true, 0);
    ClockBytes(0x101, true, true, ticks);
    UnmarkedClear(ClockPacket(0x101, true, true, 0));
    UnmarkedClear(ClockPacket(0x101, true, true, ticks));
  }

  lemma UnmarkedClear(p: Packet)
    requires p.raw[5] < 128
    ensures ClearMarker(p) == p
  {
    assert p.raw[5 := p.raw[5] % 128] == p.raw;
  }

  /** The packager's own parsers let it happen under every accepted configuration with room for four
      packets. */
  lemma RestartHappens(c: Config, rest: Media, crc: seq<byte> -> nat, generation: nat)
    requires Validate(c, ISIZE_MAX) == Accepted && c.segmentPackets >= 4 && c.segmentMs * 90 <= PCR_MODULUS / 2
    requires generation > 0
    ensures var m, k := TransportMedia(rest, crc), Effective(c);
            && FeedWf(m, k, Initial(k, false, false))
            && var h := Run(m, k, Initial(k, false, false), Twice(Sample(c.segmentMs * 90), generation)).hist;
               |h.log| == 2 && !h.log[1].segment.discontinuity && !Continues(h, 1)
  {
    hide Validate, Effective, TransportMedia, Twice, Sample, Cuts, FeedWf, Initial, Run;
    Limits(c);
    SampleCuts(Effective(c), rest, crc);
    TwiceRuns(TransportMedia(rest, crc), Effective(c), Sample(c.segmentMs * 90), generation);
  }
}
