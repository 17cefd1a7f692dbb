/** Every step of the packager keeps its invariant. */
module HlsSteps {
  import opened Ts
  import opened HlsModel
  import opened HlsInvariants

  // ----- More events never disturb what is recorded ---------------------------------------

  /** `h'` extends `h` by later events and tags. */
  ghost predicate Later(h: History, h': History) {
    h.events <= h'.events && h.fed <= h'.fed
  }

  lemma PrefixLater(h: History, h': History, n: nat)
    requires Later(h, h') && n <= |h.events|
    ensures h'.events[..n] == h.events[..n]
  {
  }

  lemma OpeningLater(m: Media, h: History, h': History, title: bool, log: seq<Entry>, start: nat, gen: nat,
                     flagged: bool, mark: Mark, packets: seq<Packet>)
    requires Later(h, h') && start <= |h.events|
    requires Opening(m, h.events, title, log, start, gen, flagged, mark, packets)
    ensures Opening(m, h'.events, title, log, start, gen, flagged, mark, packets)
  {
    assert h'.events[mark.from] == h.events[mark.from] && h'.events[mark.chain] == h.events[mark.chain];
    assert start > 0 ==> h'.events[start - 1] == h.events[start - 1];
  }

  lemma LogLater(m: Media, k: Params, h: History, h': History, title: bool, log: seq<Entry>)
    requires Later(h, h') && LogOk(m, k, h, title, log)
    ensures LogOk(m, k, h', title, log)
  {
    hide Stretch, Clean, Timely, Rewritten, Opening, AllKnown;
    forall i | 0 <= i < |log| ensures LogAt(m, k, h', title, log, i) {
      var e := log[i];
      assert LogAt(m, k, h, title, log, i);
      PrefixLater(h, h', e.upto + 1);
      OpeningLater(m, h, h', title, log[..i], e.start, e.gen, e.segment.discontinuity, e.mark, e.raw);
    }
  }

  lemma UnbrokenAppend(events: seq<Event>, e: Event, since: nat)
    requires Unbroken(events, since) && Joined(e)
    ensures Unbroken(events + [e], since)
  {
  }

  lemma RemembersLater(events: seq<Event>, events': seq<Event>, n: nat, memory: seq<Packet>)
    requires events <= events' && Remembers(events, n, memory)
    ensures Remembers(events', n, memory)
  {
  }

  lemma LearnedLater(m: Media, events: seq<Event>, events': seq<Event>, p: Packet, since: nat)
    requires events <= events' && Learned(m, events, p, since)
    ensures Learned(m, events', p, since)
  {
    if y :| 0 <= y < |events| && events[y].Source? && events[y].kept == Some(p) && since + |events[y].memory| <= y {
      assert events'[y] == events[y];
    } else {
      var y: nat, memory :| Remembers(events, y, memory) && since + |memory| <= y && p in m.audioTables(memory);
      RemembersLater(events, events', y, memory);
    }
  }

  lemma SourcedAppend(m: Media, events: seq<Event>, e: Event, p: Packet, since: nat)
    requires Sourced(m, events, p, since) && Joined(e)
    ensures Sourced(m, events + [e], p, since)
  {
    hide Learned;
    UnbrokenAppend(events, e, since);
    LearnedLater(m, events, events + [e], p, since);
  }

  lemma KnownLater(events: seq<Event>, events': seq<Event>, log: seq<Entry>, log': seq<Entry>, start: nat,
                   memory: seq<AudioEvent>)
    requires events <= events' && log <= log' && AllKnown(events, log, start, memory)
    ensures AllKnown(events', log', start, memory)
  {
    forall i | 0 <= i < |memory| ensures Known(events', log', start, memory[i]) {
      assert Known(events, log, start, memory[i]);
      match memory[i]
      case Seen(p) =>
        var x :| start <= x < |events| && events[x].Source? && events[x].packet == p;
        assert events'[x] == events[x];
      case Sent(raw) =>
        var j :| 0 <= j < |log| && log[j].raw == raw && log[j].start == start;
        assert log'[j] == log[j];
    }
  }

  // ----- A new event ----------------------------------------------------------------------

  lemma RecordedLater(m: Media, events: seq<Event>, e: Event, x: nat)
    requires x < |events| && Recorded(m, events, x)
    ensures Recorded(m, events + [e], x)
  {
    var events' := events + [e];
    assert events'[x] == events[x] && events'[..x] == events[..x];
    if events[x].Source? {
      RemembersLater(events, events', x, events[x].memory);
    }
  }

  /** A recorded source packet says what it should. */
  lemma RecordsItself(m: Media, st: St, source: Packet)
    requires AudioOk(st.hist, st.audio)
    ensures var events := Record(m, st, source).hist.events; Recorded(m, events, |events| - 1)
  {
    hide AllKnown, TsTiming, ClearMarker;
    var events, events' := st.hist.events, Record(m, st, source).hist.events;
    assert events'[..|events|] == events;
    RemembersLater(events, events', |events|, st.audio.seen);
  }

  lemma RecordLedger(m: Media, k: Params, st: St, source: Packet)
    requires Ledger(m, k, st) && AudioOk(st.hist, st.audio)
    ensures Ledger(m, k, Record(m, st, source))
  {
    hide Recorded, Rebases, AccessInv, AudioOk, Opened, LogOk;
    var s := Record(m, st, source);
    RecordsItself(m, st, source);
    RecordWf(m, k, st, source);
    forall x | 0 <= x < |s.hist.events| ensures Recorded(m, s.hist.events, x) {
      if x < |st.hist.events| {
        RecordedLater(m, st.hist.events, s.hist.events[|st.hist.events|], x);
      }
    }
    LogLater(m, k, st.hist, s.hist, st.access.title, st.hist.log);
  }

  lemma BreakLedger(m: Media, k: Params, st: St, s: St, restart: bool)
    requires Ledger(m, k, st) && ScanWf(m, k, s)
    requires s.hist == Broken(st.hist, restart) && s.tags == {} && s.access.title == st.access.title
    requires s.filterSdt == st.filterSdt && (s.dedupe ==> s.pending)
    ensures Ledger(m, k, s)
  {
    hide Recorded, Rebases, AccessInv, LogOk;
    forall x | 0 <= x < |s.hist.events| ensures Recorded(m, s.hist.events, x) {
      if x < |st.hist.events| {
        RecordedLater(m, st.hist.events, Break(restart), x);
      } else {
        BreakRecorded(m, st.hist.events, restart);
      }
    }
    LogLater(m, k, st.hist, s.hist, st.access.title, st.hist.log);
  }

  lemma BreakRecorded(m: Media, events: seq<Event>, restart: bool)
    ensures Recorded(m, events + [Break(restart)], |events|)
  {
  }

  /** Only the parts of a state that the ledger depends on matter. */
  lemma LedgerKept(m: Media, k: Params, st: St, s: St)
    requires Ledger(m, k, st) && ScanWf(m, k, s)
    requires s.hist == st.hist && s.generation == st.generation && s.tags == st.tags
    requires s.filterSdt == st.filterSdt && s.access.title == st.access.title && (s.dedupe ==> s.pending)
    ensures Ledger(m, k, s)
  {
  }

  lemma NewAudioOk(h: History)
    ensures AudioOk(h, NEW_AUDIO)
  {
  }

  // ----- Tables ---------------------------------------------------------------------------

  /** Tables observed in a packet of the latest event are cached from there. */
  lemma ObserveCached(m: Media, st: St, p: Packet)
    requires AudioOk(st.hist, st.audio) && Cached(m, st.hist, st.access) && Offered(st, p)
    ensures Cached(m, st.hist, Observe(m, st.access, p, Since(st)).0)
  {
    hide TsTiming, AllKnown;
    assert Sourced(m, st.hist.events, p, Since(st)) by {
      var y := |st.hist.events| - 1;
      assert st.hist.events[y].kept == Some(p) && Since(st) + |st.hist.events[y].memory| <= y;
    }
    hide Sourced, AudioOk, Offered;
  }

  lemma ObserveAllCached(m: Media, h: History, a: Access, tables: seq<Packet>, since: nat)
    requires Cached(m, h, a)
    requires forall i | 0 <= i < |tables| :: Sourced(m, h.events, tables[i], since)
    ensures Cached(m, h, ObserveAll(m, a, tables, since))
    decreases |tables|
  {
    hide Sourced;
    if tables != [] {
      assert Cached(m, h, Observe(m, a, tables[0], since).0);
      ObserveAllCached(m, h, Observe(m, a, tables[0], since).0, tables[1..], since);
    }
  }

  /** The tables that the audio selection keeps come from what it remembers. */
  lemma AudioTablesSourced(m: Media, st: St)
    requires AudioOk(st.hist, st.audio)
    ensures forall i | 0 <= i < |m.audioTables(st.audio.seen)| ::
              Sourced(m, st.hist.events, m.audioTables(st.audio.seen)[i], Since(st))
  {
    hide AllKnown;
    assert Remembers(st.hist.events, |st.hist.events|, st.audio.seen);
  }

  lemma CachedAppend(m: Media, h: History, e: Event, a: Access)
    requires Cached(m, h, a) && Joined(e)
    ensures Cached(m, h.(events := h.events + [e]), a)
  {
    hide Sourced;
    if a.pat.Some? { SourcedAppend(m, h.events, e, a.pat.value, a.patSince); }
    if a.pmt.Some? { SourcedAppend(m, h.events, e, a.pmt.value, a.pmtSince); }
  }

  lemma PrefixIsTables(m: Media, a: Access)
    requires AccessInv(m, a) && TablePrefix(m, a).Some?
    ensures TablesOk(m, a.title, TablePrefix(m, a).value)
  {
  }

  /** A packet reported as an access point is one for the tables cached at that moment. */
  lemma ReportedAccess(m: Media, a: Access, p: Packet, since: nat)
    requires AccessInv(m, a) && Observe(m, a, p, since).1
    ensures Reported(m, Observe(m, a, p, since).0, true, p)
  {
    ObserveInv(m, a, p, since);
  }

  /** `isAccess` was reported for `p` with the tables `a` now holds. */
  ghost predicate Reported(m: Media, a: Access, isAccess: bool, p: Packet) {
    isAccess ==>
      && TablePrefix(m, a).Some?
      && AccessPoint(m, TablePrefix(m, a).value[0], TablePrefix(m, a).value[1], p)
  }

  // ----- Steps of the scan loop -----------------------------------------------------------

  /** Consuming the recovery token and caching tables disturb nothing. */
  lemma PreludeInv(m: Media, k: Params, st: St, access: Access, dedupe: bool)
    requires RunInv(m, k, st)
    requires AccessInv(m, access) && access.title == st.access.title && Cached(m, st.hist, access)
    requires dedupe ==> st.dedupe
    ensures RunInv(m, k, st.(access := access, dedupe := dedupe))
  {
    hide AccessInv, Cached, Stretch, Opening, Tracks, LogOk, Recorded, Fenceable, AudioOk, Rebases;
    var s := st.(access := access, dedupe := dedupe);
    LedgerKept(m, k, st, s);
    assert WouldReach(m, k, s) == WouldReach(m, k, st);
    if !st.awaiting {
      assert Running(m, k, s);
    }
  }

  /** A run that is dropped leaves the packager waiting. */
  lemma DropInv(m: Media, k: Params, st: St, s: St)
    requires Base(m, k, st) && ScanWf(m, k, s)
    requires s.hist == st.hist && s.generation == st.generation && s.tags == st.tags
    requires s.filterSdt == st.filterSdt && s.access.title == st.access.title
    requires s.cur == [] && s.scanned == 0 && s.boundary.None? && s.awaiting
    requires s.pending || (!s.dedupe && Waiting(st))
    requires !s.pending ==> !st.pending
    requires AudioOk(s.hist, s.audio) && Cached(m, s.hist, s.access)
    ensures RestInv(m, k, s)
  {
    hide AccessInv, Cached, LogOk, Recorded, Fenceable, AudioOk, Rebases;
    LedgerKept(m, k, st, s);
  }

  lemma ResetCached(m: Media, h: History, a: Access)
    ensures Cached(m, h, ResetAccess(a))
  {
  }

  lemma MarkerResetInv(m: Media, k: Params, st: St, i: nat)
    requires RunInv(m, k, st) && i == st.scanned < |st.cur|
    ensures RestInv(m, k, MarkerReset(st, i))
  {
    hide Stretch, Opening, Tracks, LogOk, Recorded, Fenceable, AudioOk, Offered, Cached;
    DropProgress(m, k, st, i, false);
    ResetCached(m, st.hist, st.access);
    DropInv(m, k, st, MarkerReset(st, i));
  }

  lemma ClockResetInv(m: Media, k: Params, st: St, s: St, i: nat)
    requires RunInv(m, k, st) && i == st.scanned < |st.cur|
    requires s == st.(clock := CLEARED, boundary := None)
    ensures RestInv(m, k, ClockReset(s, i))
  {
    hide Stretch, Opening, Tracks, LogOk, Recorded, Fenceable, AudioOk, Offered, Cached;
    ClockResetProgress(m, k, s, i);
    ResetCached(m, st.hist, st.access);
    NewAudioOk(st.hist);
    DropInv(m, k, st, ClockReset(s, i));
  }

  lemma SkipInv(m: Media, k: Params, st: St, i: nat, duplicate: bool, pending: bool)
    requires RunInv(m, k, st) && i == st.scanned < |st.cur| && st.awaiting
    requires st.pending ==> pending
    ensures RestInv(m, k, Skip(st, i, duplicate, pending))
  {
    hide LogOk, Recorded, Fenceable, AudioOk, Offered, Cached;
    SkipProgress(m, k, st, i, duplicate, pending);
    DropInv(m, k, st, Skip(st, i, duplicate, pending));
  }

  /** An event that brings nothing for a segment extends the run by nothing. */
  lemma StretchSkip(m: Media, events: seq<Event>, title: bool, cur: seq<Packet>, mark: Mark, start: nat)
    requires |events| > 0 && Stretch(m, events, title, cur, mark, start, |events| - 1)
    requires mark.from < |events| - 1
    requires Calm(events[|events| - 1]) && !InBody(title, events[|events| - 1])
    ensures Stretch(m, events, title, cur, mark, start, |events|)
  {
    hide TablesOk, Sourced, Calm, InBody;
    assert events[..|events|] == events;
    CleanStep(events, mark.chain);
    assert Bodies(events, title, mark.from) == Bodies(events[..|events| - 1], title, mark.from) + [];
  }

  lemma CleanStep(events: seq<Event>, chain: nat)
    requires |events| > 0 && Clean(events[..|events| - 1], chain)
    requires chain < |events| - 1 ==> Calm(events[|events| - 1])
    ensures Clean(events, chain)
  {
    hide Calm;
    forall x | chain < x < |events| ensures Calm(events[x]) {
      if x < |events| - 1 {
        assert events[..|events| - 1][x] == events[x];
      }
    }
  }

  /** A packet that the latest event brought joins the run. */
  lemma StretchTake(m: Media, events: seq<Event>, title: bool, cur: seq<Packet>, mark: Mark, start: nat, p: Packet)
    requires |events| > 0 && Stretch(m, events, title, cur, mark, start, |events| - 1)
    requires InBody(title, events[|events| - 1]) && events[|events| - 1].kept.value == p
    requires mark.chain < |events| - 1 ==> Calm(events[|events| - 1])
    ensures Stretch(m, events, title, cur + [p], mark, start, |events|)
  {
    hide TablesOk, Sourced, Calm, InBody;
    assert events[..|events|] == events;
    CleanStep(events, mark.chain);
    var t := PrefixLen(title);
    assert (cur + [p])[..t] == cur[..t] && (cur + [p])[t..] == cur[t..] + [p];
    assert (cur + [p])[0] == cur[0] && (cur + [p])[1] == cur[1];
    assert Bodies(events, title, mark.from) == Bodies(events[..|events| - 1], title, mark.from) + [p];
  }

  lemma DropSdtInv(m: Media, k: Params, st: St, i: nat, duplicate: bool)
    requires RunInv(m, k, st) && i == st.scanned < |st.cur|
    requires Filtered(st.access.title, st.cur[i])
    requires !st.awaiting ==> !st.dedupe && !Marked(st.cur[i])
    ensures RestInv(m, k, DropSdt(st, i, duplicate))
  {
    hide LogOk, AccessInv, Fenceable, AudioOk, Cached, Stretch, Opening, Tracks, Recorded, Rebases;
    DropProgress(m, k, st, i, duplicate);
    var s := DropSdt(st, i, duplicate);
    LedgerKept(m, k, st, s);
    assert s.cur == st.cur[..i];
    if !st.awaiting {
      SdtCompletes(m, k, st, s);
    }
  }

  /** A run is complete without the SDT packet that followed it. */
  lemma SdtCompletes(m: Media, k: Params, st: St, s: St)
    requires Unscanned(m, k, st) && Filtered(st.access.title, st.cur[st.scanned]) && !Marked(st.cur[st.scanned])
    requires |st.cur| <= k.maxPackets
    requires s == st.(cur := st.cur[..st.scanned], dedupe := s.dedupe) && (s.dedupe ==> st.dedupe)
    ensures Complete(m, k, s)
  {
    hide LogOk, TablesOk, Sourced, AccessPoint, WouldReach, Restarted, Tracks, TsTiming;
    var title, events, last := st.access.title, st.hist.events, |st.hist.events| - 1;
    assert st.mark.from != last;
    StretchSkip(m, events, title, s.cur, st.mark, st.hist.start);
    NotSeized(m, k, st);
    TracksSkip(events, title, k.maxPackets, st.mark, st.clock);
  }

  /** An SDT packet that still fits the run seizes nothing. */
  lemma NotSeized(m: Media, k: Params, st: St)
    requires Unscanned(m, k, st) && |st.cur| <= k.maxPackets && st.mark.from < |st.hist.events| - 1
    ensures var events, last := st.hist.events, |st.hist.events| - 1;
            Seizes(events[..last], events[last], st.access.title, k.maxPackets, st.mark.chain) ==>
              Captured(st.access.title, st.clock.pid)
  {
    hide Opening, TablesOk, Sourced, Clean, WouldReach, TsTiming, Bodies, ClockPid, Steady, LastPcr, Seized;
  }

  /** A run that so far holds only its tables. */
  lemma StretchOpens(m: Media, st: St, prefix: seq<Packet>, chain: nat)
    requires |st.hist.events| > 0 && AccessInv(m, st.access) && Cached(m, st.hist, st.access)
    requires TablePrefix(m, st.access) == Some(prefix)
    requires st.hist.start <= chain <= |st.hist.events| - 1
    requires Clean(st.hist.events[..|st.hist.events| - 1], chain)
    ensures Stretch(m, st.hist.events, st.access.title, prefix, MarkAt(st, chain), st.hist.start,
                    |st.hist.events| - 1)
  {
    hide TablesOk, Sourced, Clean;
    PrefixIsTables(m, st.access);
    assert prefix[..PrefixLen(st.access.title)] == prefix;
  }

  lemma FreshClockNotReached(k: Params, t: Timing)
    requires ValidParams(k) && !t.discontinuity
    ensures !TargetReached(k, ClockObserve(CLEARED, t).0)
  {
  }

  /** The stream has not been broken since the latest source packet. */
  lemma StartBefore(m: Media, k: Params, st: St)
    requires Ledger(m, k, st) && Heard(st)
    ensures st.hist.start <= |st.hist.events| - 1
  {
  }

  lemma AcceptInv(m: Media, k: Params, st: St, i: nat, prefix: seq<Packet>, duplicate: bool)
    requires RunInv(m, k, st) && i == st.scanned < |st.cur| && st.awaiting
    requires TablePrefix(m, st.access) == Some(prefix)
    requires AccessPoint(m, prefix[0], prefix[1], st.cur[i])
    requires duplicate == (Marked(st.cur[i]) && st.dedupe) && (Marked(st.cur[i]) ==> st.dedupe)
    requires !Filtered(st.access.title, st.cur[i])
    ensures RunInv(m, k, Accept(st, i, prefix, duplicate))
  {
    hide LogOk, AccessPoint, AccessInv, Fenceable, AudioOk, Cached, Stretch, Recorded, Marked, TablePrefix;
    AcceptProgress(m, k, st, i, prefix, duplicate);
    var s := Accept(st, i, prefix, duplicate);
    LedgerKept(m, k, st, s);
    StartBefore(m, k, st);
    assert |prefix| == PrefixLen(st.access.title) by { PrefixIsTables(m, st.access); }
    var last := |st.hist.events| - 1;
    assert s.cur == prefix + [st.cur[i]] && s.cur[..|prefix|] == prefix;
    assert s.mark == MarkAt(st, last);
    StretchOpens(m, st, prefix, last);
    FreshClockNotReached(k, Selected(m, s.audio.seen, TsTiming(st.cur[i]).(discontinuity := false)));
    assert Unscanned(m, k, s);
  }

  // ----- Emission -------------------------------------------------------------------------

  lemma LogAppend(m: Media, k: Params, h: History, title: bool, log: seq<Entry>, e: Entry)
    requires LogOk(m, k, h, title, log) && LogAt(m, k, h, title, log + [e], |log|)
    ensures LogOk(m, k, h, title, log + [e])
  {
    hide EntryOk, Opening, AllKnown;
    var log' := log + [e];
    forall i | 0 <= i < |log'| ensures LogAt(m, k, h, title, log', i) {
      if i < |log| {
        assert LogAt(m, k, h, title, log, i);
        assert log'[..i] == log[..i];
      }
    }
  }

  /** The part of an emission that the new log entry must meet. */
  ghost predicate Emittable(m: Media, k: Params, st: St, end: nat) {
    && end <= |st.cur| && PrefixLen(st.access.title) < end <= k.maxPackets
    && Ahead(m, st, st.cur[..end]) && Heard(st) && InBody(st.access.title, st.hist.events[|st.hist.events| - 1])
    && Calm(st.hist.events[|st.hist.events| - 1])
    && Tracks(st.hist.events, st.access.title, k.maxPackets, st.mark, st.clock)
    && st.clock.pid.Some? && !st.dedupe
  }

  lemma EmitEntry(m: Media, k: Params, st: St, end: nat, duration: nat)
    requires Base(m, k, st) && Emittable(m, k, st, end) && Elapsed(st.clock) == Some(duration) && duration >= k.target
    ensures var log := Emit(m, k, st, end, duration).hist.log;
            LogAt(m, k, st.hist, st.access.title, log, |log| - 1)
  {
    hide LogOk, AccessInv, Cached, Recorded, Stretch, Fenceable, AllKnown, Opening, Calm, Rewritten, Steady,
         ClockPid, LastPcr, Rebases, Own, Evict, Push, Remembers, Unbroken;
    var title, events := st.access.title, st.hist.events;
    var log := Emit(m, k, st, end, duration).hist.log;
    assert log[..|log| - 1] == st.hist.log;
    assert events[..|events|] == events;
    assert Clean(events, st.mark.chain) by {
      StretchClean(m, st, st.cur[..end]);
      CleanStep(events, st.mark.chain);
    }
  }

  lemma StretchClean(m: Media, st: St, cur: seq<Packet>)
    requires Ahead(m, st, cur)
    ensures Clean(st.hist.events[..|st.hist.events| - 1], st.mark.chain)
  {
  }

  /** Emission records the segment, and the audio selection learns what was sent. */
  lemma EmitBase(m: Media, k: Params, st: St, end: nat, duration: nat)
    requires Base(m, k, st) && Emittable(m, k, st, end) && Elapsed(st.clock) == Some(duration) && duration >= k.target
    ensures Base(m, k, Emit(m, k, st, end, duration))
  {
    hide LogOk, AccessInv, Cached, Recorded, Fenceable, AllKnown, LogAt, Ahead, Tracks, Own, Evict, Push,
         Remembers, Unbroken, Heard;
    EmitWf(m, k, st, end, duration);
    EmitEntry(m, k, st, end, duration);
    var s := Emit(m, k, st, end, duration);
    var e := s.hist.log[|st.hist.log|];
    LogAppend(m, k, st.hist, st.access.title, st.hist.log, e);
    LogLater(m, k, st.hist, s.hist, st.access.title, s.hist.log);
    KnownLater(st.hist.events, s.hist.events, st.hist.log, s.hist.log, st.hist.start, st.audio.events);
    SentKnown(s, st.audio.events, e);
    CachedSame(m, st.hist, s.hist, st.access);
  }

  lemma SentKnown(s: St, memory: seq<AudioEvent>, e: Entry)
    requires AllKnown(s.hist.events, s.hist.log, s.hist.start, memory)
    requires s.hist.log != [] && s.hist.log[|s.hist.log| - 1] == e && e.start == s.hist.start
    ensures AllKnown(s.hist.events, s.hist.log, s.hist.start, memory + [Sent(e.raw)])
  {
    hide Known;
    assert Known(s.hist.events, s.hist.log, s.hist.start, Sent(e.raw)) by { SentIsKnown(s, e); }
  }

  lemma SentIsKnown(s: St, e: Entry)
    requires s.hist.log != [] && s.hist.log[|s.hist.log| - 1] == e && e.start == s.hist.start
    ensures Known(s.hist.events, s.hist.log, s.hist.start, Sent(e.raw))
  {
    assert s.hist.log[|s.hist.log| - 1].raw == e.raw;
  }

  lemma CachedSame(m: Media, h: History, h': History, a: Access)
    requires Cached(m, h, a) && h'.events == h.events
    ensures Cached(m, h', a)
  {
  }

  // ----- Cutting at an access point -------------------------------------------------------

  /** The timing that the scan loop shows the clock is the one on record. */
  lemma ReadingShown(m: Media, k: Params, st: St, p: Packet)
    requires Ledger(m, k, st) && Offered(st, p)
    ensures var e := st.hist.events[|st.hist.events| - 1];
            && e.reading == Selected(m, st.audio.seen, TsTiming(p).(discontinuity := false))
            && (e.reading.pcr.Some? ==> e.reading.pid == TsPid(p)) && !e.reading.discontinuity
  {
    hide LogOk, AccessInv, Remembers, Unbroken, Fenceable, Rebases, ClearMarker;
    assert Recorded(m, st.hist.events, |st.hist.events| - 1);
  }

  /** Observing the packet still to be scanned brings the clock in step with it. */
  lemma ScanTracks(m: Media, k: Params, st: St, t: Timing)
    requires Ledger(m, k, st) && st.scanned < |st.cur| && Unscanned(m, k, st)
    requires t == TsTiming(st.cur[st.scanned]).(discontinuity := false)
    requires !Filtered(st.access.title, st.cur[st.scanned])
    requires !ObserveClock(m, st, t).1.Reset?
    ensures Tracks(st.hist.events, st.access.title, k.maxPackets, st.mark, ObserveClock(m, st, t).0.clock)
  {
    hide Ledger, Stretch, Opening, WouldReach, Tracks, ClockObserve, TsTiming;
    var title, events := st.access.title, st.hist.events;
    var e := events[|events| - 1];
    ReadingShown(m, k, st, st.cur[st.scanned]);
    ChainBefore(m, st, st.cur[..st.scanned]);
    if !(st.mark.chain < st.mark.from == |events| - 1) {
      TracksStep(events, title, k.maxPackets, st.mark, st.clock);
    } else {
      TracksAgain(events, title, k.maxPackets, st.mark, st.clock);
    }
  }

  lemma ChainBefore(m: Media, st: St, cur: seq<Packet>)
    requires Ahead(m, st, cur)
    ensures st.mark.chain <= st.mark.from <= |st.hist.events| - 1
    ensures st.clock.pid.None? ==> st.mark.from == st.mark.chain
  {
  }

  /** The packet still to be scanned breaks nothing. */
  lemma ScanCalm(m: Media, k: Params, st: St)
    requires Unscanned(m, k, st) && !st.dedupe
    requires st.mark.chain < |st.hist.events| - 1 ==> !Marked(st.cur[st.scanned])
    ensures st.mark.chain < |st.hist.events| - 1 ==> Calm(st.hist.events[|st.hist.events| - 1])
  {
    hide Stretch, Opening, WouldReach, Tracks, TsTiming;
  }

  /** Scanning a packet that neither resets nor cuts completes the run. */
  lemma ScannedInv(m: Media, k: Params, st: St, s: St)
    requires RunInv(m, k, st) && st.scanned < |st.cur| && !st.awaiting && !st.dedupe
    requires ScanWf(m, k, s) && !Filtered(st.access.title, st.cur[st.scanned])
    requires s == st.(clock := s.clock, boundary := s.boundary, scanned := st.scanned + 1)
    requires Tracks(st.hist.events, st.access.title, k.maxPackets, st.mark, s.clock)
    requires st.clock.pid.Some? ==> s.clock.pid.Some?
    requires st.mark.chain < |st.hist.events| - 1 ==> !Marked(st.cur[st.scanned])
    ensures RestInv(m, k, s)
  {
    hide LogOk, AccessInv, Fenceable, AudioOk, Cached, Stretch, Opening, Tracks, Recorded, Rebases, WouldReach,
         Calm, TsTiming;
    LedgerKept(m, k, st, s);
    ScanCalm(m, k, st);
    var i := st.scanned;
    StretchTake(m, st.hist.events, st.access.title, st.cur[..i], st.mark, st.hist.start, st.cur[i]);
    assert st.cur[..i] + [st.cur[i]] == st.cur;
    OpeningSame(m, st.hist.events, st.access.title, st.hist.log, st.hist.start, st.generation, st.pending, st.mark,
                st.cur[..i], st.cur);
  }

  lemma OpeningSame(m: Media, events: seq<Event>, title: bool, log: seq<Entry>, start: nat, gen: nat, flagged: bool,
                    mark: Mark, packets: seq<Packet>, packets': seq<Packet>)
    requires Opening(m, events, title, log, start, gen, flagged, mark, packets) && packets <= packets'
    ensures Opening(m, events, title, log, start, gen, flagged, mark, packets')
  {
    hide AccessPoint, Restarted;
    assert packets'[0] == packets[0] && packets'[1] == packets[1];
  }

  /** A running clock follows some PID. */
  lemma ReachedPid(k: Params, c: Clock, boundary: Option<Timing>)
    requires Rebases(c, boundary) && TargetReached(k, c)
    ensures c.pid.Some?
  {
  }

  /** A segment that continues the one just emitted. */
  lemma ContinuesLast(m: Media, k: Params, st: St, end: nat, duration: nat, packets: seq<Packet>)
    requires k.window >= 1 && end <= |st.cur| && |st.hist.events| > 0 && |packets| >= 2
    requires st.mark.chain < |st.hist.events| - 1 && InBody(st.access.title, st.hist.events[st.mark.chain])
    requires InBody(st.access.title, st.hist.events[|st.hist.events| - 1])
    ensures var s := Emit(m, k, st, end, duration);
            Opening(m, s.hist.events, s.access.title, s.hist.log, s.hist.start, s.generation, s.pending,
                    MarkAt(s, s.mark.chain), packets)
  {
    hide Evict, Push, Rewritten, AccessPoint, Restarted;
  }

  lemma CutInv(m: Media, k: Params, st: St, t: Timing)
    requires RunInv(m, k, st) && st.scanned < |st.cur| && !st.awaiting && !st.dedupe
    requires t == TsTiming(st.cur[st.scanned]).(discontinuity := false)
    requires !ObserveClock(m, st, t).1.Reset?
    requires TargetReached(k, ObserveClock(m, st, t).0.clock)
    requires TablePrefix(m, st.access).Some?
    requires !Filtered(st.access.title, st.cur[st.scanned])
    requires st.mark.chain < |st.hist.events| - 1 ==> !Marked(st.cur[st.scanned])
    ensures var s := ObserveClock(m, st, t).0;
            RunInv(m, k, Cut(m, k, s, st.scanned, Elapsed(s.clock).value))
  {
    hide LogOk, AccessInv, Fenceable, AudioOk, Cached, Stretch, Opening, Tracks, Recorded, Rebases, Calm, TsTiming,
         ClockObserve, Cut, TablePrefix;
    var i, s := st.scanned, ObserveClock(m, st, t).0;
    ObserveClockKeeps(m, st, t);
    assert WouldReach(m, k, st);
    ScanTracks(m, k, st, t);
    ScanCalm(m, k, st);
    ReachedPid(k, s.clock, s.boundary);
    LedgerKept(m, k, st, s);
    FromBefore(m, st, st.cur[..i]);
    assert Emittable(m, k, s, i);
    EmitBase(m, k, s, i, Elapsed(s.clock).value);
    CutProgress(m, k, st, t);
    CutRuns(m, k, s, i, Elapsed(s.clock).value);
  }

  lemma FromBefore(m: Media, st: St, cur: seq<Packet>)
    requires Ahead(m, st, cur) && PrefixLen(st.access.title) < |cur|
    ensures st.mark.chain <= st.mark.from < |st.hist.events| - 1
  {
    assert |Bodies(st.hist.events[..|st.hist.events| - 1], st.access.title, st.mark.from)| > 0;
  }

  lemma CutRuns(m: Media, k: Params, s: St, i: nat, duration: nat)
    requires i == |s.cur| - 1 && ScanWf(m, k, s) && !s.awaiting
    requires TablePrefix(m, s.access).Some? && !Filtered(s.access.title, s.cur[i])
    requires Emittable(m, k, s, i) && Offered(s, s.cur[i]) && s.mark.chain < |s.hist.events| - 1
    requires Base(m, k, Emit(m, k, s, i, duration))
    requires var c := Cut(m, k, s, i, duration); ScanWf(m, k, c) && !WouldReach(m, k, c)
    ensures RunInv(m, k, Cut(m, k, s, i, duration))
  {
    hide LogOk, AccessInv, Fenceable, AudioOk, Cached, Stretch, Opening, Tracks, Recorded, Rebases, TsTiming,
         TablePrefix, Emit, WouldReach, Rebase;
    var e, c := Emit(m, k, s, i, duration), Cut(m, k, s, i, duration);
    var prefix := TablePrefix(m, s.access).value;
    EmitShape(m, k, s, i, duration);
    LedgerKept(m, k, e, c);
    assert |prefix| == PrefixLen(s.access.title) by { PrefixIsTables(m, s.access); }
    assert c.cur == prefix + [s.cur[i]] && c.cur[..|prefix|] == prefix;
    StretchClean(m, s, s.cur[..i]);
    StartChain(m, s, s.cur[..i]);
    StretchOpens(m, e, prefix, s.mark.chain);
    ContinuesLast(m, k, s, i, duration, prefix);
    TracksRebased(s.hist.events, s.access.title, k.maxPackets, s.mark, c.mark, s.clock, s.boundary);
    assert Unscanned(m, k, c);
  }

  lemma StartChain(m: Media, st: St, cur: seq<Packet>)
    requires Ahead(m, st, cur)
    ensures st.hist.start <= st.mark.chain < |st.hist.events| && InBody(st.access.title, st.hist.events[st.mark.chain])
  {
  }

  /** What emission leaves alone. */
  lemma EmitShape(m: Media, k: Params, st: St, end: nat, duration: nat)
    requires k.window >= 1 && end <= |st.cur|
    ensures var e := Emit(m, k, st, end, duration);
            && e.cur == st.cur[end..] && e.mark == st.mark && e.access == st.access && e.audio.seen == st.audio.seen
            && e.hist == st.hist.(log := e.hist.log) && e.clock == st.clock && e.boundary == st.boundary
            && e.awaiting == st.awaiting && e.dedupe == st.dedupe && e.generationOpening == st.generationOpening
            && !e.pending && e.scanned == 0
  {
  }

  // ----- The whole scan -------------------------------------------------------------------

  lemma AdvanceInv(m: Media, k: Params, st: St, i: nat, isAccess: bool, t: Timing)
    requires RunInv(m, k, st) && st.scanned == i < |st.cur| && !st.awaiting && !st.dedupe
    requires t == TsTiming(st.cur[i]).(discontinuity := false)
    requires isAccess ==> TablePrefix(m, st.access).Some?
    requires !Filtered(st.access.title, st.cur[i])
    requires st.mark.chain < |st.hist.events| - 1 ==> !Marked(st.cur[i])
    ensures RunInv(m, k, Advance(m, k, st, i, isAccess, t))
  {
    hide LogOk, AccessInv, Fenceable, AudioOk, Cached, Unscanned, Tracks, Recorded, Marked, TsTiming, Cut, ClockReset,
         TablePrefix;
    ObserveClockKeeps(m, st, t);
    AdvanceProgress(m, k, st, i, isAccess, t);
    var (s, observation) := ObserveClock(m, st, t);
    if observation.Reset? {
      ClockResetInv(m, k, st, s, i);
    } else if i > 0 && TargetReached(k, s.clock) && isAccess {
      CutInv(m, k, st, t);
    } else {
      ScanTracks(m, k, st, t);
      ScannedInv(m, k, st, s.(scanned := i + 1));
    }
  }

  lemma OpenInv(m: Media, k: Params, st: St, i: nat, isAccess: bool, duplicate: bool)
    requires RunInv(m, k, st) && i == st.scanned < |st.cur| && st.awaiting
    requires duplicate == (Marked(st.cur[i]) && st.dedupe) && (Marked(st.cur[i]) ==> st.dedupe)
    requires !Filtered(st.access.title, st.cur[i])
    requires Reported(m, st.access, isAccess, st.cur[i])
    ensures RunInv(m, k, Open(m, k, st, i, isAccess, duplicate))
  {
    hide LogOk, AccessInv, Fenceable, AudioOk, Cached, Waiting, Running, Recorded, Marked, Skip, Accept, AccessPoint,
         TablePrefix, Rebases;
    var prefix := if isAccess then TablePrefix(m, st.access) else None;
    if prefix.None? {
      SkipInv(m, k, st, i, duplicate, st.pending);
    } else if |prefix.value| + 1 > k.maxPackets {
      SkipInv(m, k, st, i, duplicate, true);
    } else {
      AcceptInv(m, k, st, i, prefix.value, duplicate);
    }
  }

  /** The packet about to be scanned is the latest event's, and only a run that it opened itself
      may still hold a recovery token. */
  lemma ScansLatest(m: Media, k: Params, st: St)
    requires RunInv(m, k, st) && st.scanned < |st.cur|
    ensures Offered(st, st.cur[st.scanned])
    ensures !st.awaiting ==>
              && (st.dedupe ==> Marked(st.cur[st.scanned]))
              && (st.mark.chain < |st.hist.events| - 1 ==> !st.dedupe)
  {
    hide Base, Ahead, Tracks, WouldReach, Heard, TsTiming;
  }

  /** A run never opens with an SDT packet. */
  lemma SdtNotFirst(m: Media, k: Params, st: St)
    requires RunInv(m, k, st) && st.scanned < |st.cur| && !st.awaiting && Filtered(st.access.title, st.cur[st.scanned])
    ensures !st.dedupe
  {
    hide Base, Tracks, WouldReach, TsTiming, TablesOk, Sourced, Clean, AccessPoint, Restarted, Bodies;
  }

  /** A packet observed, its tables cached, and its marker not yet judged. */
  lemma NoticeInv(m: Media, k: Params, st: St)
    requires RunInv(m, k, st) && st.scanned < |st.cur|
    ensures AccessInv(m, st.access)
    ensures var (s, isAccess) := Notice(m, st); RunInv(m, k, s) && Reported(m, s.access, isAccess, st.cur[st.scanned])
  {
    hide Observe, TsTiming, LogOk, Waiting, Running, AccessPoint, Fenceable, Recorded, AudioOk, Cached, Rebases,
         TablePrefix, AccessInv;
    var packet := st.cur[st.scanned];
    ScansLatest(m, k, st);
    ObserveCached(m, st, packet);
    ReportedIf(m, st.access, packet, Since(st));
    PreludeInv(m, k, st, Notice(m, st).0.access, Notice(m, st).0.dedupe);
  }

  lemma SortInv(m: Media, k: Params, st: St, isAccess: bool, marked: bool, duplicate: bool, t: Timing)
    requires RunInv(m, k, st) && st.scanned < |st.cur|
    requires Reported(m, st.access, isAccess, st.cur[st.scanned])
    requires t == TsTiming(st.cur[st.scanned]).(discontinuity := false)
    requires st.awaiting ==> duplicate == (Marked(st.cur[st.scanned]) && st.dedupe)
    requires !marked ==> if st.awaiting then Marked(st.cur[st.scanned]) ==> st.dedupe
                         else Passing(st, st.cur[st.scanned])
    ensures RunInv(m, k, Sort(m, k, st, st.scanned, isAccess, marked, duplicate, t))
  {
    hide TsTiming, TsPid, Marked, MarkerReset, DropSdt, Open, Advance, Ledger, AudioOk, Cached, Waiting, Running, AccessPoint,
         TablePrefix, Quiet;
    RunWf(m, k, st);
    var i := st.scanned;
    if marked {
      MarkerResetInv(m, k, st, i);
    } else if st.filterSdt && TsPid(st.cur[i]) == SDT_PID {
      DropSdtInv(m, k, st, i, duplicate);
    } else if st.awaiting {
      OpenInv(m, k, st, i, isAccess, duplicate);
    } else {
      AdvanceInv(m, k, st, i, isAccess, t);
    }
  }

  /** The packet may join the run: it has no marker, or it opened the run itself. */
  ghost predicate Passing(st: St, p: Packet) {
    && !st.dedupe
    && (st.mark.chain < |st.hist.events| - 1 || Filtered(st.access.title, p) ==> !Marked(p))
  }

  lemma ScanStepInv(m: Media, k: Params, st: St)
    requires RunInv(m, k, st) && st.scanned < |st.cur|
    ensures AccessInv(m, st.access) && RunInv(m, k, ScanStep(m, k, st))
  {
    hide Sort, Observe, TsTiming, Ledger, AudioOk, Cached, Waiting, Running, Reported;
    assert ScanWf(m, k, st) by { RunWf(m, k, st); }
    var packet, t := st.cur[st.scanned], TsTiming(st.cur[st.scanned]);
    var (s, isAccess) := Notice(m, st);
    NoticeInv(m, k, st);
    ScansLatest(m, k, st);
    if !st.awaiting && Filtered(st.access.title, packet) { SdtNotFirst(m, k, st); }
    SortInv(m, k, s, isAccess, t.discontinuity && !st.dedupe, t.discontinuity && st.dedupe, t.(discontinuity := false));
  }

  lemma {:induction false} ScanInv(m: Media, k: Params, st: St)
    requires RunInv(m, k, st)
    ensures RestInv(m, k, Scan(m, k, st))
    decreases |st.cur| - st.scanned, st.awaiting, WouldReach(m, k, st)
  {
    hide Base, Running, Waiting, ScanStep;
    assert ScanWf(m, k, st) by { RunWf(m, k, st); }
    if st.scanned < |st.cur| {
      ScanStepProgress(m, k, st);
      ScanStepInv(m, k, st);
      ScanInv(m, k, ScanStep(m, k, st));
    }
  }

  lemma RunWf(m: Media, k: Params, st: St)
    requires Base(m, k, st)
    ensures ScanWf(m, k, st) && st.filterSdt == st.access.title
  {
  }

  // ----- Beyond the ceiling ---------------------------------------------------------------

  lemma DiscardInv(m: Media, k: Params, st: St)
    requires Base(m, k, st)
    ensures RestInv(m, k, Discard(st))
  {
    hide LogOk, AccessInv, Fenceable, AudioOk, Cached, Recorded;
    DiscardWf(m, k, st);
    DropInv(m, k, st, Discard(st));
  }

  /** Dropping the run together with its tables, and perhaps what the audio selection remembers. */
  lemma ForgetInv(m: Media, k: Params, st: St, audio: Audio)
    requires Ledger(m, k, st) && AudioOk(st.hist, audio)
    ensures RestInv(m, k, Discard(st.(access := ResetAccess(st.access), audio := audio)))
  {
    hide LogOk, Fenceable, AudioOk, Cached, Recorded;
    var s := st.(access := ResetAccess(st.access), audio := audio);
    ResetCached(m, st.hist, st.access);
    assert ScanWf(m, k, s);
    LedgerKept(m, k, st, s);
    DiscardInv(m, k, s);
  }

  /** A run that the latest event opens, its packet already scanned. */
  lemma SeedRuns(m: Media, k: Params, st: St, s: St, prefix: seq<Packet>, packet: Packet, chain: nat)
    requires Base(m, k, st) && Offered(st, packet) && !Filtered(st.access.title, packet)
    requires TablePrefix(m, st.access) == Some(prefix)
    requires st.hist.start <= chain <= |st.hist.events| - 1
    requires Clean(st.hist.events[..|st.hist.events| - 1], chain)
    requires chain < |st.hist.events| - 1 ==> Calm(st.hist.events[|st.hist.events| - 1])
    requires s == st.(cur := prefix + [packet], mark := MarkAt(st, chain), scanned := |prefix| + 1,
                      clock := s.clock, boundary := s.boundary, awaiting := false)
    requires ScanWf(m, k, s) && !st.dedupe && !st.generationOpening
    requires s.clock.pid.None? ==> chain == |st.hist.events| - 1
    requires Opening(m, st.hist.events, st.access.title, st.hist.log, st.hist.start, st.generation, st.pending,
                     s.mark, prefix)
    requires Tracks(st.hist.events, st.access.title, k.maxPackets, s.mark, s.clock)
    ensures RestInv(m, k, s)
  {
    hide LogOk, AccessInv, Fenceable, AudioOk, Cached, Stretch, Opening, Tracks, Recorded, Rebases, Clean, Calm,
         TsTiming, TablePrefix, Heard;
    LedgerKept(m, k, st, s);
    assert |prefix| == PrefixLen(st.access.title) by { PrefixIsTables(m, st.access); }
    OfferedNonempty(st, packet);
    StretchOpens(m, st, prefix, chain);
    StretchTake(m, st.hist.events, st.access.title, prefix, s.mark, st.hist.start, packet);
    OpeningSame(m, st.hist.events, st.access.title, st.hist.log, st.hist.start, st.generation, st.pending, s.mark,
                prefix, s.cur);
  }

  lemma OfferedNonempty(st: St, p: Packet)
    requires Offered(st, p)
    ensures |st.hist.events| > 0 && st.hist.events[|st.hist.events| - 1].Source?
  {
  }

  /** A full run and the unmarked packet after it, once the clock has seen that packet. */
  ghost predicate Facing(m: Media, k: Params, st: St, packet: Packet) {
    && Base(m, k, st) && Offered(st, packet) && !Marked(packet)
    && !st.awaiting && !st.dedupe
    && PrefixLen(st.access.title) < st.scanned == |st.cur| <= k.maxPackets
    && Ahead(m, st, st.cur)
    && Tracks(st.hist.events, st.access.title, k.maxPackets, st.mark, st.clock)
  }

  lemma FacingCalm(m: Media, k: Params, st: St, packet: Packet)
    requires Facing(m, k, st, packet)
    ensures Calm(st.hist.events[|st.hist.events| - 1])
    ensures st.mark.chain <= st.mark.from < |st.hist.events| - 1
  {
    hide Base, Covers, Tracks, TsTiming;
    FromBefore(m, st, st.cur);
  }

  /** A dropped upstream SDT packet leaves the full run waiting for its successor. */
  lemma HoldInv(m: Media, k: Params, st: St, packet: Packet)
    requires Facing(m, k, st, packet) && Filtered(st.access.title, packet)
    ensures RestInv(m, k, st)
  {
    hide Base, Stretch, Opening, Tracks, Calm, Marked;
    FacingCalm(m, k, st, packet);
    StretchSkip(m, st.hist.events, st.access.title, st.cur, st.mark, st.hist.start);
  }

  /** Forced emission keeps the run seamless, or panics because no tables are cached. */
  lemma ForceInv(m: Media, k: Params, st: St, packet: Packet, t: Timing)
    requires Facing(m, k, st, packet) && !st.panicked && !Filtered(st.access.title, packet)
    requires TargetReached(k, st.clock) && !t.discontinuity
    ensures Settled(m, k, Force(m, k, st, packet, t))
  {
    hide Ledger, AudioOk, Cached, RestInv, Ahead, Tracks, Calm, Marked, Emit, Seed, TablePrefix, Offered;
    var duration := Elapsed(st.clock).value;
    FacingCalm(m, k, st, packet);
    assert ScanWf(m, k, st) by { RunWf(m, k, st); }
    ReachedPid(k, st.clock, st.boundary);
    assert Emittable(m, k, st, |st.cur|) by {
      assert st.cur[..|st.cur|] == st.cur;
      OfferedHeard(st, packet);
    }
    EmitBase(m, k, st, |st.cur|, duration);
    EmitShape(m, k, st, |st.cur|, duration);
    var e := Emit(m, k, st, |st.cur|, duration);
    if TablePrefix(m, e.access).None? {
      PanickedBase(m, k, e);
    } else {
      ForcedRuns(m, k, st, e, packet, t, duration);
    }
  }

  lemma OfferedHeard(st: St, p: Packet)
    requires Offered(st, p)
    ensures Heard(st) && st.hist.events[|st.hist.events| - 1].kept == Some(p)
  {
  }

  lemma PanickedBase(m: Media, k: Params, e: St)
    requires Base(m, k, e)
    ensures Base(m, k, e.(panicked := true))
  {
    hide LogOk, AccessInv, Fenceable, AudioOk, Cached, Recorded;
  }

  lemma ForcedRuns(m: Media, k: Params, st: St, e: St, packet: Packet, t: Timing, duration: nat)
    requires Facing(m, k, st, packet) && !Filtered(st.access.title, packet) && !t.discontinuity
    requires e == Emit(m, k, st, |st.cur|, duration) && Base(m, k, e) && st.clock.pid.Some?
    requires TablePrefix(m, e.access).Some?
    ensures RestInv(m, k, Seed(m, e, TablePrefix(m, e.access).value, packet, t, e.mark.chain)
                          .(boundary := st.boundary, clock := Rebase(st.boundary)))
  {
    hide LogOk, AccessInv, Fenceable, AudioOk, Cached, Recorded, Stretch, Opening, Tracks, Clean, Calm, Marked,
         Emit, TablePrefix, Rebases, Rebase, ObserveClock;
    var prefix := TablePrefix(m, e.access).value;
    EmitShape(m, k, st, |st.cur|, duration);
    FacingCalm(m, k, st, packet);
    StretchClean(m, st, st.cur);
    StartChain(m, st, st.cur);
    TracksRebased(st.hist.events, st.access.title, k.maxPackets, st.mark, MarkAt(e, e.mark.chain), st.clock, st.boundary);
    assert |prefix| >= 2 by { PrefixIsTables(m, e.access); }
    ContinuesLast(m, k, st, |st.cur|, duration, prefix);
    SeedShape(m, e, prefix, packet, t, e.mark.chain);
    var s := Seed(m, e, prefix, packet, t, e.mark.chain).(boundary := st.boundary, clock := Rebase(st.boundary));
    SeedRuns(m, k, e, s, prefix, packet, e.mark.chain);
  }

  lemma SeedShape(m: Media, st: St, prefix: seq<Packet>, packet: Packet, t: Timing, chain: nat)
    ensures var s := Seed(m, st, prefix, packet, t, chain);
            s == st.(cur := prefix + [packet], mark := MarkAt(st, chain), scanned := |prefix| + 1,
                     clock := ClockObserve(CLEARED, Selected(m, st.audio.seen, t)).0, boundary := s.boundary,
                     awaiting := false)
  {
  }

  /** A discarded full run reopens at once on an access point. */
  lemma RestartInv(m: Media, k: Params, st: St, packet: Packet, t: Timing)
    requires Facing(m, k, st, packet) && !Filtered(st.access.title, packet)
    requires t == TsTiming(packet).(discontinuity := false)
    requires Reported(m, st.access, true, packet)
    ensures RestInv(m, k, Seed(m, Discard(st), TablePrefix(m, st.access).value, packet, t, Last(st.hist)))
  {
    hide LogOk, AccessInv, Fenceable, AudioOk, Cached, Recorded, Stretch, Tracks, Clean, Calm, TsTiming,
         TablePrefix, Rebases, AccessPoint, Seed;
    var d, prefix, last := Discard(st), TablePrefix(m, st.access).value, |st.hist.events| - 1;
    DiscardInv(m, k, st);
    StartBefore(m, k, st);
    assert |prefix| >= 2 by { PrefixIsTables(m, st.access); }
    SeedWf(m, k, d, prefix, packet, t, last);
    SeedShape(m, d, prefix, packet, t, last);
    ReadingShown(m, k, st, packet);
    assert Clean(st.hist.events[..last], last) by { CleanFrom(st.hist.events[..last]); }
    FreshTracks(st.hist.events, st.access.title, k.maxPackets, MarkAt(d, last));
    SeedRuns(m, k, d, Seed(m, d, prefix, packet, t, last), prefix, packet, last);
  }

  lemma CleanFrom(events: seq<Event>)
    ensures Clean(events, |events|)
  {
  }

  /** A cleared clock that has observed only the latest event. */
  lemma FreshTracks(events: seq<Event>, title: bool, max: nat, mark: Mark)
    requires |events| > 0 && mark.chain == mark.from == |events| - 1
    requires var e := events[|events| - 1];
             InBody(title, e) && (e.reading.pcr.Some? ==> e.reading.pid == TsPid(e.kept.value)) && !e.reading.discontinuity
    ensures Tracks(events, title, max, mark, ClockObserve(CLEARED, events[|events| - 1].reading).0)
  {
    TracksStep(events, title, max, mark, CLEARED);
  }

  lemma BeyondInv(m: Media, k: Params, st: St, packet: Packet, isAccess: bool, t: Timing)
    requires Facing(m, k, st, packet) && !st.panicked
    requires t == TsTiming(packet).(discontinuity := false)
    requires Reported(m, st.access, isAccess, packet)
    ensures Settled(m, k, Beyond(m, k, st, packet, isAccess, t))
  {
    hide Ledger, AudioOk, Cached, RunInv, Ahead, Tracks, Marked, Force, Seed, Offered, TsTiming, Discard, TablePrefix;
    assert st.filterSdt == st.access.title by { RunWf(m, k, st); }
    DiscardInv(m, k, st);
    assert Discard(st).panicked == st.panicked;
    if Filtered(st.access.title, packet) {
      HoldInv(m, k, st, packet);
    } else if TargetReached(k, st.clock) {
      ForceInv(m, k, st, packet, t);
    } else if isAccess {
      RestartInv(m, k, st, packet, t);
    }
  }

  lemma TimedInv(m: Media, k: Params, st: St, packet: Packet, isAccess: bool, t: Timing)
    requires Next(m, k, st) && !st.awaiting && Offered(st, packet) && !Marked(packet) && !st.panicked
    requires |st.cur| == k.maxPackets
    requires t == TsTiming(packet).(discontinuity := false)
    requires Reported(m, st.access, isAccess, packet)
    ensures Settled(m, k, Timed(m, k, st, packet, isAccess, t))
  {
    hide LogOk, AccessInv, Fenceable, AudioOk, Cached, Recorded, Stretch, Opening, Tracks, RunInv, Beyond, Discard,
         TsTiming, ClockObserve, TablePrefix;
    ObserveClockKeeps(m, st, t);
    var (s, observation) := ObserveClock(m, st, t);
    LedgerKept(m, k, st, s);
    if observation.Reset? {
      NewAudioOk(s.hist);
      ForgetInv(m, k, s, NEW_AUDIO);
    } else {
      TimedTracks(m, k, st, packet, t);
      BeyondInv(m, k, s, packet, isAccess, t);
    }
  }

  /** The clock has seen the packet after a full run. */
  lemma TimedTracks(m: Media, k: Params, st: St, packet: Packet, t: Timing)
    requires Base(m, k, st) && Holding(m, k, st) && Offered(st, packet) && |st.cur| == k.maxPackets
    requires t == TsTiming(packet).(discontinuity := false)
    requires !ObserveClock(m, st, t).1.Reset?
    ensures Tracks(st.hist.events, st.access.title, k.maxPackets, st.mark, ObserveClock(m, st, t).0.clock)
  {
    hide Base, Covers, Tracks, TsTiming, ClockObserve;
    var events, title := st.hist.events, st.access.title;
    assert Ledger(m, k, st) by { BaseLedger(m, k, st); }
    ReadingShown(m, k, st, packet);
    ChainBefore(m, st, st.cur);
    if Filtered(title, packet) {
      if st.clock.pid.None? { FullRun(m, k, st); }
      TracksFiltered(events, title, k.maxPackets, st.mark, st.clock);
    } else {
      TracksStep(events, title, k.maxPackets, st.mark, st.clock);
    }
  }

  /** As long as nothing has started the clock, the run is the whole chain. */
  lemma FullRun(m: Media, k: Params, st: St)
    requires Holding(m, k, st) && st.clock.pid.None?
    ensures PrefixLen(st.access.title)
            + |Bodies(st.hist.events[..|st.hist.events| - 1], st.access.title, st.mark.chain)| == |st.cur|
  {
    hide Opening, TablesOk, Sourced, Clean, Tracks, Bodies;
  }

  lemma BaseLedger(m: Media, k: Params, st: St)
    requires Base(m, k, st)
    ensures Ledger(m, k, st)
  {
  }

  lemma LookaheadInv(m: Media, k: Params, st: St, packet: Packet)
    requires Next(m, k, st) && !st.awaiting && Offered(st, packet) && !st.panicked && |st.cur| == k.maxPackets
    ensures Settled(m, k, Lookahead(m, k, st, packet))
  {
    hide Observe, TsTiming, Timed, LogOk, AccessInv, Fenceable, AudioOk, Cached, Recorded, Rebases, Stretch, Opening,
         Tracks, RunInv, Reported, Discard, TablePrefix;
    ObserveInv(m, st.access, packet, Since(st));
    ObserveCached(m, st, packet);
    var t := TsTiming(packet);
    var (access, isAccess) := Observe(m, st.access, packet, Since(st));
    assert Reported(m, access, isAccess, packet) by { ReportedIf(m, st.access, packet, Since(st)); }
    var s := st.(access := access);
    LedgerKept(m, k, st, s);
    if t.discontinuity {
      ForgetInv(m, k, s, st.audio);
    } else {
      assert Next(m, k, s);
      TimedInv(m, k, s, packet, isAccess, t.(discontinuity := false));
    }
  }

  lemma ReportedIf(m: Media, a: Access, p: Packet, since: nat)
    requires AccessInv(m, a)
    ensures Reported(m, Observe(m, a, p, since).0, Observe(m, a, p, since).1, p)
  {
    hide AccessInv, Observe;
    if Observe(m, a, p, since).1 {
      ReportedAccess(m, a, p, since);
    }
  }

  // ----- One packet -----------------------------------------------------------------------

  lemma AppendInv(m: Media, k: Params, st: St, packet: Packet)
    requires Next(m, k, st) && Offered(st, packet) && |st.cur| < k.maxPackets
    ensures RunInv(m, k, Append(st, packet))
  {
    hide LogOk, AccessInv, Fenceable, AudioOk, Cached, Recorded, Rebases, Stretch, Opening, Tracks, TsTiming, WouldReach;
    var s := Append(st, packet);
    LedgerKept(m, k, st, s);
    if !st.awaiting {
      assert s.cur[..s.scanned] == st.cur;
      assert Unscanned(m, k, s);
    }
  }

  lemma FeedPacketInv(m: Media, k: Params, st: St, packet: Packet)
    requires Next(m, k, st) && Offered(st, packet) && !st.panicked
    ensures Settled(m, k, FeedPacket(m, k, st, packet))
  {
    hide Base, Holding, RunInv, Scan, Lookahead, Offered, ScanWf;
    RunWf(m, k, st);
    assert ValidParams(k) by { assert ScanWf(m, k, st); WfParams(m, k, st); }
    if |st.cur| == k.maxPackets {
      LookaheadInv(m, k, st, packet);
    } else {
      AppendInv(m, k, st, packet);
      var s := Append(st, packet);
      AppendWf(m, k, st, packet);
      ScanInv(m, k, s);
      ScanFrame(m, k, s);
    }
  }

  lemma WfParams(m: Media, k: Params, st: St)
    requires ScanWf(m, k, st)
    ensures ValidParams(k)
  {
  }

  lemma AppendWf(m: Media, k: Params, st: St, packet: Packet)
    requires ScanWf(m, k, st)
    ensures ScanWf(m, k, Append(st, packet))
  {
  }

  // ----- One source packet ----------------------------------------------------------------

  lemma NextDropped(m: Media, k: Params, st: St, dedupe: bool)
    requires Next(m, k, st) && st.hist.events[|st.hist.events| - 1].kept.None? && (dedupe ==> st.dedupe)
    ensures RestInv(m, k, st.(dedupe := dedupe))
  {
    hide LogOk, AccessInv, Fenceable, AudioOk, Cached, Recorded, Rebases, Stretch, Opening, Tracks, Marked;
    var s := st.(dedupe := dedupe);
    LedgerKept(m, k, st, s);
    if !st.awaiting {
      FromBefore(m, st, st.cur);
      StretchSkip(m, st.hist.events, st.access.title, st.cur, st.mark, st.hist.start);
      TracksSkip(st.hist.events, st.access.title, k.maxPackets, st.mark, st.clock);
    }
  }

  /** The run and the new event, before anything is decided about it. */
  lemma RecordAhead(m: Media, k: Params, st: St, source: Packet)
    requires RestInv(m, k, st) && !st.awaiting && !Unannounced(st, Opened(st, source))
    ensures Holding(m, k, Record(m, st, source))
  {
    hide LogOk, AccessInv, Fenceable, Cached, Recorded, Rebases, Tracks, TsTiming, AccessPoint, TablesOk, AllKnown;
    var s, events := Record(m, st, source), st.hist.events;
    assert s.hist.events[..|events|] == events && events[..|events|] == events;
    var e := s.hist.events[|events|];
    assert Joined(e) && e.source == e.packet;
    SourcedAppend(m, events, e, st.cur[0], st.mark.pat);
    SourcedAppend(m, events, e, st.cur[1], st.mark.pmt);
    assert |Bodies(events, st.access.title, st.mark.from)| > 0;
    OpeningLater(m, st.hist, s.hist, st.access.title, st.hist.log, st.hist.start, st.generation, st.pending, st.mark,
                 st.cur);
  }
}
