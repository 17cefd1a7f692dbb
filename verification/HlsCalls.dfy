/** What every call does to the packager's status, and that every byte fed is on record. */
module HlsCalls {
  import opened Ts
  import opened HlsModel
  import opened HlsInvariants
  import opened HlsSteps
  import opened HlsRuns
  import opened HlsTheorems
  import opened HlsConfig
  import opened HlsOutcomes

  // ----- Intake ---------------------------------------------------------------------------

  /** The bytes that an event brought. */
  function Brought(e: Event): seq<byte> {
    if e.Source? then e.source.raw else []
  }

  /** The bytes that the events from `from` on brought. */
  ghost function Sources(events: seq<Event>, from: nat): seq<byte> {
    if |events| <= from then [] else Sources(events[..|events| - 1], from) + Brought(events[|events| - 1])
  }

  lemma {:induction false} SourcesSplit(events: seq<Event>, from: nat)
    requires from < |events|
    ensures Sources(events, from) == Brought(events[from]) + Sources(events, from + 1)
    decreases |events|
  {
    hide Brought;
    var before, last := events[..|events| - 1], Brought(events[|events| - 1]);
    if from == |events| - 1 {
      assert Sources(before, from) == [] && Sources(events, from + 1) == [];
    } else {
      SourcesSplit(before, from);
      assert Sources(before, from) + last == Brought(events[from]) + (Sources(before, from + 1) + last);
    }
  }

  /** All of `data` behind what was staged has become source packets on record and what is staged now,
      in order; after a panic, all up to some point. */
  ghost predicate Taken(st: St, r: St, data: seq<byte>) {
    && st.hist.events <= r.hist.events
    && Sources(r.hist.events, |st.hist.events|) + r.input <= st.input + data
    && (!r.panicked ==> Sources(r.hist.events, |st.hist.events|) + r.input == st.input + data)
  }

  lemma FillTakes(m: Media, k: Params, st: St, bytes: seq<byte>, tag: Tag)
    requires FeedWf(m, k, st) && |st.input| + |bytes| <= TS_PACKET
    ensures var r := Fill(m, k, st, bytes, tag);
            if |st.input| + |bytes| < TS_PACKET then r.hist.events == st.hist.events && r.input == st.input + bytes
            else
              && |r.hist.events| == |st.hist.events| + 1 && r.hist.events[..|st.hist.events|] == st.hist.events
              && r.hist.events[|st.hist.events|].Source?
              && r.hist.events[|st.hist.events|].source.raw == st.input + bytes && r.input == []
  {
    hide FeedWhole, Record, AccessInv, Rebases, PublicInv;
    var s := Stage(st, bytes, tag);
    if |s.input| == TS_PACKET {
      var o := s.(input := []);
      FeedWholeFrame(m, k, o, Packet(s.input));
      RecordShape(m, o, Packet(s.input));
    }
  }

  /** No byte is lost, repeated or reordered on its way into source packets. */
  lemma {:induction false} FeedBytesTakes(m: Media, k: Params, st: St, data: seq<byte>, tag: Tag)
    requires FeedWf(m, k, st) && !st.panicked
    ensures Taken(st, FeedBytes(m, k, st, data, tag), data)
    decreases |data|
  {
    hide Fill, ScanWf;
    var r := FeedBytes(m, k, st, data, tag);
    if data == [] {
      assert st.input + data == st.input;
    } else {
      var n := Take(st, data);
      var f := Fill(m, k, st, data[..n], tag);
      FillTakes(m, k, st, data[..n], tag);
      assert data == data[..n] + data[n..];
      if f.panicked {
        PanickedTakes(m, k, st, f, data, n);
      } else {
        FeedBytesTakes(m, k, f, data[n..], tag);
        TakenTrans(st, f, r, data, n);
      }
    }
  }

  lemma PanickedTakes(m: Media, k: Params, st: St, f: St, data: seq<byte>, n: nat)
    requires n <= |data| && f.panicked
    requires if |st.input| + n < TS_PACKET then f.hist.events == st.hist.events && f.input == st.input + data[..n]
             else
               && |f.hist.events| == |st.hist.events| + 1 && f.hist.events[..|st.hist.events|] == st.hist.events
               && f.hist.events[|st.hist.events|].Source?
               && f.hist.events[|st.hist.events|].source.raw == st.input + data[..n] && f.input == []
    ensures Taken(st, f, data)
  {
    if |st.input| + n >= TS_PACKET {
      SourcesSplit(f.hist.events, |st.hist.events|);
    }
  }

  lemma TakenTrans(st: St, f: St, r: St, data: seq<byte>, n: nat)
    requires n <= |data| && Taken(f, r, data[n..])
    requires if |st.input| + n < TS_PACKET then f.hist.events == st.hist.events && f.input == st.input + data[..n]
             else
               && |f.hist.events| == |st.hist.events| + 1 && f.hist.events[..|st.hist.events|] == st.hist.events
               && f.hist.events[|st.hist.events|].Source?
               && f.hist.events[|st.hist.events|].source.raw == st.input + data[..n] && f.input == []
    ensures Taken(st, r, data)
  {
    hide Sources;
    if |st.input| + n < TS_PACKET {
      assert st.input + data == st.input + data[..n] + data[n..];
    } else {
      SourcesSplit(r.hist.events, |st.hist.events|);
      assert r.hist.events[|st.hist.events|] == f.hist.events[|st.hist.events|];
      assert st.input + data == (st.input + data[..n]) + data[n..];
      var raw, rest := st.input + data[..n], Sources(r.hist.events, |f.hist.events|);
      assert Sources(r.hist.events, |st.hist.events|) + r.input == raw + (rest + r.input);
    }
  }

  /** The tags of what is staged. */
  function Staged(st: St): set<Tag> {
    if st.input == [] then {} else st.tags
  }

  /** Every source packet taken under `tag` is on record with exactly the tags its bytes were fed under,
      and so is what stays staged. */
  ghost predicate Tagged(st: St, r: St, tag: Tag) {
    && |st.hist.events| <= |r.hist.events|
    && (forall x | |st.hist.events| <= x < |r.hist.events| ::
          r.hist.events[x].Source?
          && r.hist.events[x].tags == (if x == |st.hist.events| then Staged(st) else {}) + {tag})
    && (r.input != [] ==> r.tags == (if |r.hist.events| == |st.hist.events| then Staged(st) else {}) + {tag})
  }

  lemma FillTags(m: Media, k: Params, st: St, bytes: seq<byte>, tag: Tag)
    requires FeedWf(m, k, st) && |st.input| + |bytes| <= TS_PACKET && bytes != []
    ensures var r := Fill(m, k, st, bytes, tag);
            if |st.input| + |bytes| < TS_PACKET then
              r.hist.events == st.hist.events && r.input != [] && r.tags == Staged(st) + {tag}
            else
              && |r.hist.events| == |st.hist.events| + 1 && r.hist.events[..|st.hist.events|] == st.hist.events
              && r.hist.events[|st.hist.events|].Source?
              && r.hist.events[|st.hist.events|].tags == Staged(st) + {tag} && r.input == []
  {
    hide FeedWhole, Record, AccessInv, Rebases, PublicInv;
    var s := Stage(st, bytes, tag);
    if |s.input| == TS_PACKET {
      var o := s.(input := []);
      FeedWholeFrame(m, k, o, Packet(s.input));
      RecordShape(m, o, Packet(s.input));
      RecordTags(m, o, Packet(s.input));
    }
  }

  lemma RecordTags(m: Media, st: St, source: Packet)
    ensures Record(m, st, source).hist.events[|st.hist.events|].tags == st.tags
  {
  }

  /** So it is with every feed. */
  lemma {:induction false} FeedBytesTags(m: Media, k: Params, st: St, data: seq<byte>, tag: Tag)
    requires FeedWf(m, k, st) && !st.panicked && data != []
    ensures Tagged(st, FeedBytes(m, k, st, data, tag), tag)
    decreases |data|
  {
    hide Fill, ScanWf;
    var n := Take(st, data);
    var f := Fill(m, k, st, data[..n], tag);
    FillTags(m, k, st, data[..n], tag);
    if !f.panicked && data[n..] != [] {
      FeedBytesTags(m, k, f, data[n..], tag);
      FeedBytesTakes(m, k, f, data[n..], tag);
      var r := FeedBytes(m, k, st, data, tag);
      forall x | |st.hist.events| <= x < |r.hist.events|
        ensures r.hist.events[x].Source?
                && r.hist.events[x].tags == (if x == |st.hist.events| then Staged(st) else {}) + {tag}
      {
        if x < |f.hist.events| { assert r.hist.events[x] == f.hist.events[x]; }
      }
    }
  }

  // ----- Readiness ------------------------------------------------------------------------

  /** Enough segments have been published: of the current generation, or in the window. */
  ghost predicate Enough(k: Params, st: St) {
    k.startup <= if st.strict then CountGen(st.hist.log, st.generation)
                 else if |st.hist.log| < k.window then |st.hist.log| else k.window
  }

  /** In every run an open packager is ready exactly if enough segments have been published. */
  lemma ReadyExactly(m: Media, k: Params, named: bool, strict: bool, calls: seq<Call>, st: St)
    requires Reachable(m, k, named, strict, calls, st) && !Closed(st.status)
    ensures st.status == Ready <==> Enough(k, st)
  {
    hide Reachable, Replay, Settled, ScanWf, CountGen;
    ReachableInv(m, k, named, strict, calls, st);
    ReplayLength(k, st.hist.log);
  }

  /** With an accepted configuration: an open packager is ready exactly once the configured number of
      segments, and at least one, has been published, by its generation if it is strict and in all
      otherwise; and each lasts at least the configured duration. */
  lemma ConfiguredReady(m: Media, c: Config, maxObjectBytes: U64, named: bool, strict: bool, calls: seq<Call>, st: St)
    requires Validate(c, maxObjectBytes) == Accepted && Reachable(m, Effective(c), named, strict, calls, st)
    ensures !Closed(st.status) ==>
              var n := if st.strict then CountGen(st.hist.log, st.generation) else |st.hist.log|;
              (st.status == Ready <==> n >= 1 && n >= c.startupSegments)
    ensures forall i | 0 <= i < |st.hist.log| :: st.hist.log[i].segment.duration >= c.segmentMs * 90
  {
    hide Reachable, CountGen, LogAt, Validate;
    ValidateExact(c, maxObjectBytes);
    if !Closed(st.status) {
      ReadyExactly(m, Effective(c), named, strict, calls, st);
    }
    forall i | 0 <= i < |st.hist.log| ensures st.hist.log[i].segment.duration >= c.segmentMs * 90 {
      ReachableLog(m, Effective(c), named, strict, calls, st, i);
      LongEnough(m, Effective(c), st.hist, Titled(Effective(c), named), st.hist.log, i);
    }
  }

  lemma LongEnough(m: Media, k: Params, h: History, title: bool, log: seq<Entry>, i: nat)
    requires i < |log| && LogAt(m, k, h, title, log, i)
    ensures log[i].segment.duration >= k.target
  {
    hide Stretch, Clean, Timely, Fenceable, Opening, AllKnown;
  }

  // ----- Calls ----------------------------------------------------------------------------

  /** A strict packager, still short of segments when its deadline has passed. */
  ghost predicate Overdue(k: Params, st: St, late: bool) {
    late && st.strict && !Closed(st.status) && !Enough(k, st)
  }

  /** Only the status has changed, to that of a missed deadline. */
  ghost predicate TimedOut(st: St, r: St) {
    r == st.(status := Failed(Deadline))
  }

  /** The packager is where a break leaves it: nothing staged, no run, and the next packet of a run to be
      flagged. */
  ghost predicate Cleared(st: St, r: St) {
    && r.input == [] && r.cur == [] && r.awaiting && r.audio == NEW_AUDIO && r.hist.log == st.hist.log && r.win == st.win
    && |r.hist.events| == |st.hist.events| + 1 && r.hist.events[|st.hist.events|].Break?
  }

  /** What a feed does that is let in. */
  ghost predicate FeedOutcome(k: Params, st: St, r: St, data: seq<byte>, tag: Tag, late: bool) {
    if Overdue(k, st, late) then TimedOut(st, r)
    else
      && Taken(st, r, data) && (data != [] ==> Tagged(st, r, tag))
      && !Closed(r.status) && r.generation == st.generation
  }

  /** What each call does. */
  ghost predicate CallOutcome(k: Params, st: St, r: St, c: Call) {
    match c
    case Begin(generation, recovering) =>
      if Closed(st.status) || generation <= st.generation then r == st
      else
        && Cleared(st, r) && r.generation == generation && r.strict && r.pending == recovering && r.generationOpening
        && r.status == if recovering then Recovering else Starting
    case FeedToken(token, data, late) =>
      if Closed(st.status) || token != st.generation then r == st else FeedOutcome(k, st, r, data, Fenced(token), late)
    case Feed(data, late) =>
      if Closed(st.status) then r == st else FeedOutcome(k, st, r, data, Native, late)
    case Fail(token, reason) =>
      if Closed(st.status) || token != st.generation then r == st else Cleared(st, r) && r.status == Failed(reason)
    case Stop => Cleared(st, r) && r.status == Stopped
    case Gap(paired) => Cleared(st, r) && r.status == st.status && r.pending && r.dedupe == paired && !r.generationOpening
    case Poll(late) =>
      if Overdue(k, st, late) then TimedOut(st, r) else r == st
  }

  lemma ExpireOutcome(k: Params, st: St, late: bool)
    requires !Closed(st.status) ==> (st.status == Ready <==> Enough(k, st))
    ensures if Overdue(k, st, late) then TimedOut(st, Expire(st, late)) else Expire(st, late) == st
  {
    hide Enough;
  }

  lemma ResetClears(st: St, dedupe: bool, restart: bool)
    ensures var r := ResetPartial(st, dedupe, restart);
            && Cleared(st, r) && r.status == st.status && r.pending && r.dedupe == dedupe && !r.generationOpening
  {
  }

  lemma FeedLockedOutcome(m: Media, k: Params, st: St, data: seq<byte>, tag: Tag, late: bool)
    requires FeedWf(m, k, st) && !st.panicked && !Closed(st.status) && (st.status == Ready <==> Enough(k, st))
    ensures FeedOutcome(k, st, FeedLocked(m, k, st, data, tag, late), data, tag, late)
  {
    hide FeedBytes, Enough, ScanWf, Taken, Tagged;
    ExpireOutcome(k, st, late);
    FeedBytesTakes(m, k, st, data, tag);
    FeedBytesOpen(m, k, st, data, tag);
    if data != [] { FeedBytesTags(m, k, st, data, tag); }
  }

  /** In every run every call does what it should: a stale or refused one nothing, a break clears, a
      missed deadline fails a strict packager that is short of segments and nothing else does, and a feed
      that is let in takes every byte. */
  lemma CallsDo(m: Media, k: Params, named: bool, strict: bool, calls: seq<Call>, st: St, c: Call)
    requires Reachable(m, k, named, strict, calls, st) && !st.panicked
    ensures FeedWf(m, k, st) && CallOutcome(k, st, Apply(m, k, st, c), c)
  {
    hide Reachable, FeedLocked, Enough, ScanWf, Settled, PublicInv, ResetPartial, Cleared, Expire, Taken;
    ReachableInv(m, k, named, strict, calls, st);
    if !Closed(st.status) {
      ReadyExactly(m, k, named, strict, calls, st);
    }
    match c
    case Begin(generation, recovering) =>
      if !Closed(st.status) && generation > st.generation { BeginClears(st, generation, recovering); }
    case FeedToken(token, data, late) =>
      if token == st.generation && !Closed(st.status) { FeedLockedOutcome(m, k, st, data, Fenced(token), late); }
    case Feed(data, late) =>
      if !Closed(st.status) { FeedLockedOutcome(m, k, st, data, Native, late); }
    case Fail(token, reason) =>
      ResetClears(st, false, false);
      StatusClears(st, ResetPartial(st, false, false), Failed(reason));
    case Stop =>
      ResetClears(st, false, false);
      StatusClears(st, ResetPartial(st, false, false), Stopped);
    case Gap(paired) => ResetClears(st, paired, false);
    case Poll(late) => ExpireOutcome(k, st, late);
  }

  lemma StatusClears(st: St, r: St, status: Status)
    requires Cleared(st, r)
    ensures Cleared(st, r.(status := status))
  {
  }

  lemma BeginClears(st: St, generation: nat, recovering: bool)
    requires !Closed(st.status) && generation > st.generation
    ensures var r := BeginGeneration(st, generation, recovering);
            && Cleared(st, r) && r.generation == generation && r.strict && r.pending == recovering && r.generationOpening
            && r.status == if recovering then Recovering else Starting
  {
  }

  // ----- Packets --------------------------------------------------------------------------

  /** In every run every whole source packet meets its fate. */
  lemma PacketsMeetTheirFate(m: Media, k: Params, named: bool, strict: bool, calls: seq<Call>, st: St, source: Packet)
    requires Reachable(m, k, named, strict, calls, st) && !st.panicked
    ensures ScanWf(m, k, st) && Meets(st, FeedWhole(m, k, st, source), SourceFate(m, k, st, source))
  {
    hide Reachable, RestInv, SourceFate, Meets, FeedWhole, ScanWf, PublicInv;
    ReachableInv(m, k, named, strict, calls, st);
    FeedWholeFate(m, k, st, source);
  }

  /** Until a generation that its owner announced has opened its first run, markers of its source packets
      are no gaps: they are on record without one, and nothing else of their timing changes. All other
      packets are on record as they came. */
  lemma OpeningMarkers(m: Media, k: Params, st: St, source: Packet)
    requires RestInv(m, k, st) && !st.panicked
    ensures var r, n := FeedWhole(m, k, st, source), |st.hist.events|;
            && |r.hist.events| == n + 1 && r.hist.events[n].Source?
            && var p := r.hist.events[n].packet;
               && TsPid(p) == TsPid(source) && TsTiming(p).pcr == TsTiming(source).pcr
               && (Marked(p) <==> Marked(source) && !(st.strict && st.generationOpening))
               && (!(st.strict && st.generationOpening) ==> p == source)
               && (st.strict && st.generationOpening ==> st.awaiting)
  {
    hide RestInv, TsTiming, TsPid, ClearMarker, FeedWhole, ScanWf;
    OpeningWaits(m, k, st);
    RecordedPacket(m, k, st, source);
    ClearMarkerClears(source);
  }

  lemma RecordedPacket(m: Media, k: Params, st: St, source: Packet)
    requires ScanWf(m, k, st)
    ensures var r, n := FeedWhole(m, k, st, source), |st.hist.events|;
            |r.hist.events| == n + 1 && r.hist.events[n].Source? && r.hist.events[n].packet == Opened(st, source)
  {
    hide Opened, FeedWhole, AccessInv, Rebases, PublicInv, TsTiming;
    FeedWholeFrame(m, k, st, source);
  }

  lemma OpeningWaits(m: Media, k: Params, st: St)
    requires RestInv(m, k, st)
    ensures ScanWf(m, k, st) && (st.generationOpening ==> st.awaiting)
  {
    hide LogOk, AccessInv, Cached, Recorded, Fenceable, AudioOk, Rebases, Stretch, Opening, Tracks;
  }
}
