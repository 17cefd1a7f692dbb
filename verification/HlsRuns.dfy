/** Whole runs of a packager: theorems over every sequence of calls. */
module HlsRuns {
  import opened Ts
  import opened HlsModel
  import opened HlsInvariants
  import opened HlsSteps

  /** Everything that holds between calls. A panic poisons the lock: nothing changes after it. */
  ghost predicate Inv(m: Media, k: Params, st: St) {
    && FeedWf(m, k, st)
    && Settled(m, k, st)
    && PublicInv(k, st)
  }

  // ----- Packets and bytes ----------------------------------------------------------------

  /** What the audio selection remembers once it has seen `packet`. */
  function Seeing(audio: Audio, packet: Packet): Audio {
    Audio(audio.seen + [packet], audio.events + [Seen(packet)])
  }

  lemma SeeingOk(m: Media, st: St, source: Packet)
    requires AudioOk(st.hist, st.audio) && !Unannounced(st, Opened(st, source)) && st.hist.start <= |st.hist.events|
    ensures AudioOk(Record(m, st, source).hist, Seeing(st.audio, Opened(st, source)))
  {
    hide TsTiming, AllKnown;
    var packet, s, events := Opened(st, source), Record(m, st, source), st.hist.events;
    var e := s.hist.events[|events|];
    UnbrokenAppend(events, e, |events| - |st.audio.seen|);
    KnownLater(events, s.hist.events, st.hist.log, st.hist.log, st.hist.start, st.audio.events);
    SeenKnown(s.hist, st.audio.events, packet);
  }

  lemma SeenKnown(h: History, memory: seq<AudioEvent>, p: Packet)
    requires AllKnown(h.events, h.log, h.start, memory) && h.start < |h.events|
    requires var e := h.events[|h.events| - 1]; e.Source? && e.packet == p
    ensures AllKnown(h.events, h.log, h.start, memory + [Seen(p)])
  {
    assert Known(h.events, h.log, h.start, Seen(p)) by {
      var x := |h.events| - 1;
      assert h.events[x].packet == p;
    }
    hide Known;
  }

  /** The source packet is recorded and the audio selection has seen it. */
  lemma HeardNext(m: Media, k: Params, st: St, source: Packet)
    requires RestInv(m, k, st) && !Unannounced(st, Opened(st, source))
    ensures Next(m, k, Record(m, st, source).(audio := Seeing(st.audio, Opened(st, source))))
  {
    hide LogOk, AccessInv, Cached, Recorded, Rebases, Covers, Tracks, TsTiming, AudioOk, Opened;
    var r, packet := Record(m, st, source), Opened(st, source);
    var s := r.(audio := Seeing(st.audio, packet));
    RecordLedger(m, k, st, source);
    RecordWf(m, k, st, source);
    LedgerKept(m, k, r, s);
    SeeingOk(m, st, source);
    CachedAppend(m, st.hist, r.hist.events[|st.hist.events|], st.access);
    if !st.awaiting {
      RecordAhead(m, k, st, source);
      HoldingHeard(m, k, r, s);
    }
  }

  lemma HoldingHeard(m: Media, k: Params, st: St, s: St)
    requires Holding(m, k, st) && s == st.(audio := s.audio)
    ensures Holding(m, k, s)
  {
    hide Stretch, Opening, Tracks, TsTiming;
  }

  lemma RelearnNext(m: Media, k: Params, st: St)
    requires Next(m, k, st)
    ensures Next(m, k, Relearn(m, st))
  {
    hide LogOk, AccessInv, Cached, Recorded, Fenceable, AudioOk, Rebases, Holding, TsTiming, ObserveAll;
    var s := Relearn(m, st);
    RelearnWf(m, k, st);
    ObserveAllInv(m, ResetAccess(st.access), m.audioTables(st.audio.seen), Since(st));
    AudioTablesSourced(m, st);
    ResetCached(m, st.hist, st.access);
    ObserveAllCached(m, st.hist, ResetAccess(st.access), m.audioTables(st.audio.seen), Since(st));
    DropInv(m, k, st, s);
  }

  lemma SelectNext(m: Media, k: Params, st: St, source: Packet)
    requires RestInv(m, k, st) && !Unannounced(st, Opened(st, source))
    ensures var s := Select(m, Record(m, st, source), Opened(st, source));
            && Next(m, k, s) && s.panicked == st.panicked
            && s.hist.events[|s.hist.events| - 1].kept == m.audioObserve(st.audio.seen, Opened(st, source)).packet
  {
    hide RestInv, Base, Waiting, Holding, TsTiming, Opened, ObserveAll;
    var r, packet := Record(m, st, source), Opened(st, source);
    HeardNext(m, k, st, source);
    RelearnNext(m, k, r.(audio := Seeing(st.audio, packet)));
    assert Relearn(m, r.(audio := Seeing(st.audio, packet))).hist == r.hist;
  }

  lemma FeedWholeInv(m: Media, k: Params, st: St, source: Packet)
    requires RestInv(m, k, st) && !st.panicked
    ensures Settled(m, k, FeedWhole(m, k, st, source))
  {
    hide LogOk, AccessInv, Cached, Recorded, Fenceable, AudioOk, Rebases, Running, Waiting, Holding, TsTiming,
         Opened, FeedPacket, Discard, Select;
    var r, packet := Record(m, st, source), Opened(st, source);
    RecordWf(m, k, st, source);
    if Unannounced(st, packet) {
      RecordLedger(m, k, st, source);
      NewAudioOk(r.hist);
      ForgetInv(m, k, r, NEW_AUDIO);
    } else {
      var s := Select(m, r, packet);
      SelectWf(m, k, r, packet);
      SelectNext(m, k, st, source);
      var result := m.audioObserve(st.audio.seen, packet);
      if result.packet.Some? {
        FeedPacketInv(m, k, s, result.packet.value);
      } else {
        NextDropped(m, k, s, s.dedupe && !TsTiming(packet).discontinuity);
      }
    }
  }

  /** Staged bytes are not part of the run. */
  lemma StagedInv(m: Media, k: Params, st: St, s: St)
    requires RestInv(m, k, st)
    requires s == st.(input := s.input, tags := s.tags, hist := st.hist.(fed := s.hist.fed))
    requires st.hist.fed <= s.hist.fed && Own(s.hist.fed, st.generation, s.tags)
    ensures RestInv(m, k, s)
  {
    hide LogOk, AccessInv, Recorded, Rebases, Stretch, Opening, Tracks, Sourced, Remembers, Unbroken, AllKnown;
    LogLater(m, k, st.hist, s.hist, st.access.title, st.hist.log);
    FenceableLater(st.hist, s.hist, st.generation);
    if !st.awaiting {
      assert Complete(m, k, s);
    }
  }

  lemma FenceableLater(h: History, h': History, gen: nat)
    requires h'.events == h.events && h'.start == h.start && h.fed <= h'.fed
    requires Fenceable(h.events, h.fed, h.start, gen)
    ensures Fenceable(h'.events, h'.fed, h'.start, gen)
  {
  }

  /** How feeding bytes may move the state: whole source packets are recorded, nothing else. */
  ghost predicate Fed(st: St, r: St, tags: set<Tag>) {
    && r.hist.fed <= st.hist.fed + tags
    && st.hist.events <= r.hist.events
    && (forall x | |st.hist.events| <= x < |r.hist.events| :: r.hist.events[x].Source?)
    && r.generation == st.generation && r.strict == st.strict && r.access.title == st.access.title
    && st.hist.log <= r.hist.log && r.hist.start == st.hist.start
    && (forall i | |st.hist.log| <= i < |r.hist.log| :: r.hist.log[i].start == st.hist.start)
    && (!Closed(st.status) ==> !Closed(r.status))
  }

  lemma RecordShape(m: Media, st: St, source: Packet)
    ensures var r := Record(m, st, source);
            && r == st.(hist := st.hist.(events := r.hist.events))
            && |r.hist.events| == |st.hist.events| + 1 && st.hist.events <= r.hist.events
            && r.hist.events[|st.hist.events|].Source? && r.hist.events[|st.hist.events|].source == source
  {
  }

  lemma FlushInv(m: Media, k: Params, st: St)
    requires RestInv(m, k, st) && PublicInv(k, st) && |st.input| <= TS_PACKET && !st.panicked
    ensures Inv(m, k, Flush(m, k, st))
    ensures Fed(st, Flush(m, k, st), {})
  {
    hide FeedWhole, LogOk, AccessInv, Recorded, Fenceable, AudioOk, Cached, Running, Waiting, Rebases, Record;
    if |st.input| == TS_PACKET {
      var s := st.(input := []);
      StagedInv(m, k, st, s);
      FeedWholeInv(m, k, s, Packet(st.input));
      FeedWholeFrame(m, k, s, Packet(st.input));
      RecordShape(m, s, Packet(st.input));
    }
  }

  /** Bytes that may be fed to the current generation. */
  predicate Admitted(st: St, tag: Tag) {
    tag == Native || tag == Fenced(st.generation)
  }

  lemma FillInv(m: Media, k: Params, st: St, bytes: seq<byte>, tag: Tag)
    requires Inv(m, k, st) && !st.panicked && Admitted(st, tag)
    requires |st.input| + |bytes| <= TS_PACKET
    ensures Inv(m, k, Fill(m, k, st, bytes, tag)) && Fed(st, Fill(m, k, st, bytes, tag), {tag})
  {
    hide Flush, LogOk, AccessInv, Recorded, Fenceable, AudioOk, Cached, Replay, CountGen, Running, Waiting;
    StageInv(m, k, st, bytes, tag);
    FlushInv(m, k, Stage(st, bytes, tag));
  }

  lemma {:induction false} FeedBytesInv(m: Media, k: Params, st: St, data: seq<byte>, tag: Tag)
    requires Inv(m, k, st) && Admitted(st, tag)
    ensures Inv(m, k, FeedBytes(m, k, st, data, tag)) && Fed(st, FeedBytes(m, k, st, data, tag), {tag})
    decreases |data|
  {
    hide Fill, ScanWf, PublicInv, Settled, Fed;
    if data != [] && !st.panicked {
      var take := Take(st, data);
      var s := Fill(m, k, st, data[..take], tag);
      FillInv(m, k, st, data[..take], tag);
      assert Admitted(s, tag) by { FedKeeps(st, s, {tag}); }
      FeedBytesInv(m, k, s, data[take..], tag);
      FedTrans(st, s, FeedBytes(m, k, s, data[take..], tag), {tag});
    } else {
      FedSame(st, {tag});
    }
  }

  lemma FedSame(st: St, tags: set<Tag>)
    ensures Fed(st, st, tags)
  {
  }

  lemma FedKeeps(st: St, r: St, tags: set<Tag>)
    requires Fed(st, r, tags)
    ensures r.generation == st.generation
  {
  }

  lemma FedTrans(a: St, b: St, c: St, tags: set<Tag>)
    requires Fed(a, b, tags) && Fed(b, c, tags)
    ensures Fed(a, c, tags)
  {
    forall x | |a.hist.events| <= x < |c.hist.events| ensures c.hist.events[x].Source? {
      if x < |b.hist.events| {
        assert c.hist.events[x] == b.hist.events[x];
      }
    }
    forall i | |a.hist.log| <= i < |c.hist.log| ensures c.hist.log[i].start == a.hist.start {
      if i < |b.hist.log| {
        assert c.hist.log[i] == b.hist.log[i];
      }
    }
  }

  lemma StageInv(m: Media, k: Params, st: St, bytes: seq<byte>, tag: Tag)
    requires Inv(m, k, st) && !st.panicked && Admitted(st, tag)
    ensures RestInv(m, k, Stage(st, bytes, tag)) && PublicInv(k, Stage(st, bytes, tag))
  {
    hide LogOk, AccessInv, Recorded, Fenceable, AudioOk, Cached, Replay, CountGen, Running, Waiting;
    StagedInv(m, k, st, Stage(st, bytes, tag));
  }

  // ----- Calls ----------------------------------------------------------------------------

  lemma CountGenNone(log: seq<Entry>, gen: nat)
    requires forall i | 0 <= i < |log| :: log[i].gen < gen
    ensures CountGen(log, gen) == 0
  {
  }

  /** A break leaves the packager waiting: flagged, or free to restart. */
  lemma BreakInv(m: Media, k: Params, st: St, s: St, restart: bool)
    requires Ledger(m, k, st) && ScanWf(m, k, s)
    requires s.hist == Broken(st.hist, restart) && s.tags == {} && s.access.title == st.access.title
    requires s.filterSdt == st.filterSdt && (s.dedupe ==> s.pending)
    requires s.cur == [] && s.scanned == 0 && s.boundary.None? && s.awaiting && s.audio == NEW_AUDIO
    requires s.pending || restart
    requires s.access.pat.None? && s.access.pmt.None?
    ensures RestInv(m, k, s)
  {
    hide LogOk, AccessInv, Recorded, Fenceable, AudioOk, Rebases;
    BreakLedger(m, k, st, s, restart);
    NewAudioOk(s.hist);
    if st.hist.log != [] {
      LastUpto(m, k, st);
    }
  }

  /** Every segment stops short of an event on record. */
  lemma LastUpto(m: Media, k: Params, st: St)
    requires Ledger(m, k, st) && st.hist.log != []
    ensures st.hist.log[|st.hist.log| - 1].upto < |st.hist.events|
  {
    hide EntryOk, Opening, AllKnown, Recorded, Fenceable;
    assert LogAt(m, k, st.hist, st.access.title, st.hist.log, |st.hist.log| - 1);
  }

  lemma ResetInv(m: Media, k: Params, st: St, dedupe: bool, status: Status)
    requires Inv(m, k, st) && !st.panicked && (Closed(status) || status == st.status)
    ensures Inv(m, k, ResetPartial(st, dedupe, false).(status := status))
  {
    hide LogOk, AccessInv, Recorded, Fenceable, AudioOk, Cached, Replay, CountGen, Running, Waiting;
    ResetWf(m, k, st, dedupe, false);
    BreakInv(m, k, st, ResetPartial(st, dedupe, false).(status := status), false);
  }

  lemma BeginInv(m: Media, k: Params, st: St, generation: nat, recovering: bool)
    requires Inv(m, k, st) && !st.panicked
    ensures Inv(m, k, BeginGeneration(st, generation, recovering))
    ensures !Closed(st.status) && generation > st.generation ==>
              var r := BeginGeneration(st, generation, recovering);
              && r.cur == [] && r.awaiting && r.clock == CLEARED && r.input == [] && r.audio == NEW_AUDIO
              && r.access.pat.None? && r.access.pmt.None? && r.hist.log == st.hist.log
              && (r.pending <==> recovering)
  {
    hide LogOk, Recorded, Fenceable, AudioOk, Cached, Replay, CountGen, Running, Waiting;
    if !Closed(st.status) && generation > st.generation {
      var s := BeginGeneration(st, generation, recovering);
      ResetWf(m, k, st, false, !recovering);
      BreakInv(m, k, st, s, !recovering);
      CountGenNone(st.hist.log, generation);
    }
  }

  /** How a call tags the bytes it feeds. */
  function Tags(c: Call): set<Tag> {
    match c
    case FeedToken(token, _, _) => {Fenced(token)}
    case Feed(_, _) => {Native}
    case _ => {}
  }

  /** How a call may move what is on record: everything grows, and only a generation that begins
      without announcing a recovery records a restart. */
  ghost predicate Grows(st: St, r: St, c: Call) {
    && st.hist.log <= r.hist.log && st.hist.events <= r.hist.events
    && r.hist.fed <= st.hist.fed + Tags(c)
    && r.access.title == st.access.title
    && (forall x | |st.hist.events| <= x < |r.hist.events| ::
          r.hist.events[x] == Break(true) ==> c.Begin? && !c.recovering)
    && (forall i | |st.hist.log| <= i < |r.hist.log| :: r.hist.log[i].start == r.hist.start)
  }

  lemma FedGrows(st: St, s: St, r: St, tag: Tag, c: Call)
    requires s.hist == st.hist && s.access == st.access && Fed(s, r, {tag}) && tag in Tags(c)
    ensures Grows(st, r, c)
  {
  }

  lemma FeedCallInv(m: Media, k: Params, st: St, data: seq<byte>, tag: Tag, late: bool, c: Call)
    requires Inv(m, k, st) && Admitted(st, tag) && tag in Tags(c)
    ensures var r := FeedLocked(m, k, st, data, tag, late); Inv(m, k, r) && Grows(st, r, c)
  {
    hide FeedLocked, Expire, Settled, ScanWf, PublicInv, Fed, Grows;
    FeedLockedInv(m, k, st, data, tag, late);
    FedGrows(st, Expire(st, late), FeedLocked(m, k, st, data, tag, late), tag, c);
  }

  lemma ResetCallInv(m: Media, k: Params, st: St, dedupe: bool, status: Status, c: Call)
    requires Inv(m, k, st) && !st.panicked && (Closed(status) || status == st.status)
    ensures var r := ResetPartial(st, dedupe, false).(status := status); Inv(m, k, r) && Grows(st, r, c)
  {
    hide ResetPartial, Settled, ScanWf, PublicInv;
    ResetInv(m, k, st, dedupe, status);
    ResetGrows(st, dedupe);
  }

  lemma SameGrows(st: St, r: St, c: Call)
    requires r.hist == st.hist && r.access == st.access
    ensures Grows(st, r, c)
  {
  }

  /** Every call keeps the invariant. */
  lemma ApplyInv(m: Media, k: Params, st: St, c: Call)
    requires Inv(m, k, st)
    ensures Inv(m, k, Apply(m, k, st, c)) && Grows(st, Apply(m, k, st, c), c)
  {
    hide BeginGeneration, FeedLocked, ResetPartial, Expire, Settled, ScanWf, PublicInv, Grows;
    SameGrows(st, st, c);
    if !st.panicked {
      match c
      case Begin(generation, recovering) =>
        BeginInv(m, k, st, generation, recovering);
        BeginGrows(st, generation, recovering);
      case FeedToken(token, data, late) =>
        if token == st.generation {
          FeedCallInv(m, k, st, data, Fenced(token), late, c);
        }
      case Feed(data, late) =>
        FeedCallInv(m, k, st, data, Native, late, c);
      case Fail(token, reason) =>
        ResetCallInv(m, k, st, false, Failed(reason), c);
      case Stop =>
        ResetCallInv(m, k, st, false, Stopped, c);
      case Gap(paired) =>
        ResetCallInv(m, k, st, paired, st.status, c);
        ResetGrows(st, paired);
      case Poll(late) =>
        ExpireInv(m, k, st, late);
        SameGrows(st, Expire(st, late), c);
    }
  }

  lemma BeginGrows(st: St, generation: nat, recovering: bool)
    ensures Grows(st, BeginGeneration(st, generation, recovering), Begin(generation, recovering))
  {
  }

  lemma ResetGrows(st: St, dedupe: bool)
    ensures var r := ResetPartial(st, dedupe, false);
            && r.status == st.status
            && r.hist.log == st.hist.log && r.hist.fed == st.hist.fed && r.access.title == st.access.title
            && r.hist.events == st.hist.events + [Break(false)]
  {
  }

  lemma StatusInv(m: Media, k: Params, st: St, status: Status)
    requires Inv(m, k, st) && Closed(status)
    ensures Inv(m, k, st.(status := status))
  {
    hide LogOk, AccessInv, Recorded, Fenceable, AudioOk, Cached, Stretch, Opening, Tracks, Rebases, Replay, CountGen;
    if !st.panicked && !st.awaiting {
      assert Running(m, k, st.(status := status));
    }
  }

  lemma ExpireInv(m: Media, k: Params, st: St, late: bool)
    requires Inv(m, k, st)
    ensures Inv(m, k, Expire(st, late)) && Expire(st, late).hist == st.hist
    ensures Expire(st, late).generation == st.generation && Expire(st, late).access == st.access
  {
    hide Inv;
    StatusInv(m, k, st, Failed(Deadline));
  }

  lemma FeedLockedInv(m: Media, k: Params, st: St, data: seq<byte>, tag: Tag, late: bool)
    requires Inv(m, k, st) && Admitted(st, tag)
    ensures var r := FeedLocked(m, k, st, data, tag, late); Inv(m, k, r) && Fed(Expire(st, late), r, {tag})
    ensures Expire(st, late).hist == st.hist && Expire(st, late).access == st.access
  {
    hide FeedBytes, Settled, ScanWf, PublicInv, Fed;
    ExpireInv(m, k, st, late);
    FeedBytesInv(m, k, Expire(st, late), data, tag);
    FedSame(Expire(st, late), {tag});
  }

  // ----- Runs -----------------------------------------------------------------------------

  /** A title is kept only when its SDT still leaves room for a packet. */
  predicate Titled(k: Params, named: bool) {
    named && k.maxPackets >= 4
  }

  ghost function Run(m: Media, k: Params, st: St, calls: seq<Call>): St
    requires FeedWf(m, k, st)
    decreases |calls|
  {
    if calls == [] then st
    else
      ApplyWf(m, k, st, calls[0]);
      Run(m, k, Apply(m, k, st, calls[0]), calls[1..])
  }

  lemma InitialInv(m: Media, k: Params, named: bool, strict: bool)
    requires ValidParams(k)
    ensures Inv(m, k, Initial(k, Titled(k, named), strict))
  {
  }

  /** Every run keeps the invariant; without a native feed, no byte is tagged native. */
  lemma {:induction false} RunKeeps(m: Media, k: Params, st: St, calls: seq<Call>)
    requires Inv(m, k, st)
    ensures Inv(m, k, Run(m, k, st, calls))
    ensures st.hist.log <= Run(m, k, st, calls).hist.log
    ensures Run(m, k, st, calls).access.title == st.access.title
    ensures Native in Run(m, k, st, calls).hist.fed ==>
              Native in st.hist.fed || exists i | 0 <= i < |calls| :: calls[i].Feed?
    decreases |calls|
  {
    hide Apply, ScanWf, PublicInv, Settled;
    if calls != [] {
      ApplyWf(m, k, st, calls[0]);
      ApplyInv(m, k, st, calls[0]);
      var s := Apply(m, k, st, calls[0]);
      RunKeeps(m, k, s, calls[1..]);
      if Native in Run(m, k, st, calls).hist.fed && Native !in s.hist.fed {
        var i :| 0 <= i < |calls[1..]| && calls[1..][i].Feed?;
        assert calls[i + 1].Feed?;
      }
    }
  }
}
