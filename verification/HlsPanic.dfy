/** The one way a packager can panic: a forced cut at the packet ceiling expects cached tables, and
    a PAT that renames the program inside the run has just dropped the cached PMT. */
module HlsPanic {
  import opened Ts
  import opened HlsModel
  import opened HlsInvariants
  import opened HlsSteps
  import opened HlsRuns
  import opened HlsTheorems

  // ----- Exactly when ---------------------------------------------------------------------

  /** `packet` meets a full run whose target is reached while no PAT and PMT are cached. */
  ghost predicate Blind(m: Media, k: Params, st: St, packet: Packet) {
    var t := TsTiming(packet);
    var seen := ClockObserve(st.clock, Selected(m, st.audio.seen, t));
    && |st.cur| == k.maxPackets
    && !t.discontinuity && !seen.1.Reset?
    && !Filtered(st.access.title, packet)
    && TargetReached(k, seen.0)
    && TablePrefix(m, Observe(m, st.access, packet, Since(st)).0).None?
  }

  lemma ForcePanics(m: Media, k: Params, st: St, packet: Packet, t: Timing)
    requires k.window >= 1 && TargetReached(k, st.clock)
    ensures Force(m, k, st, packet, t).panicked == (st.panicked || TablePrefix(m, st.access).None?)
  {
  }

  lemma BeyondPanics(m: Media, k: Params, st: St, packet: Packet, isAccess: bool, t: Timing)
    requires k.window >= 1 && !st.panicked
    requires isAccess ==> TablePrefix(m, st.access).Some?
    ensures Beyond(m, k, st, packet, isAccess, t).panicked
            <==> !(st.filterSdt && TsPid(packet) == SDT_PID) && TargetReached(k, st.clock) && TablePrefix(m, st.access).None?
  {
    hide Force, Seed, Discard, TablePrefix;
    if TargetReached(k, st.clock) {
      ForcePanics(m, k, st, packet, t);
    }
  }

  lemma TimedPanics(m: Media, k: Params, st: St, packet: Packet, isAccess: bool, t: Timing)
    requires k.window >= 1 && !st.panicked
    requires isAccess ==> TablePrefix(m, st.access).Some?
    ensures Timed(m, k, st, packet, isAccess, t).panicked
            <==> && !ObserveClock(m, st, t).1.Reset?
                 && !(st.filterSdt && TsPid(packet) == SDT_PID)
                 && TargetReached(k, ObserveClock(m, st, t).0.clock) && TablePrefix(m, st.access).None?
  {
    hide Beyond, Discard, TablePrefix, ClockObserve;
    BeyondPanics(m, k, ObserveClock(m, st, t).0, packet, isAccess, t);
  }

  lemma LookaheadPanics(m: Media, k: Params, st: St, packet: Packet)
    requires ScanWf(m, k, st) && |st.cur| == k.maxPackets && !st.panicked && !st.dedupe
    requires st.filterSdt == st.access.title
    ensures Lookahead(m, k, st, packet).panicked <==> Blind(m, k, st, packet)
  {
    hide Timed, Discard, TablePrefix, ClockObserve, Observe, AccessInv, TsTiming;
    ObserveInv(m, st.access, packet, Since(st));
    var t := TsTiming(packet);
    var (access, isAccess) := Observe(m, st.access, packet, Since(st));
    if !t.discontinuity {
      TimedPanics(m, k, st.(access := access), packet, isAccess, t);
    }
  }

  lemma FeedPacketPanics(m: Media, k: Params, st: St, packet: Packet)
    requires Next(m, k, st) && !st.panicked
    ensures FeedPacket(m, k, st, packet).panicked <==> Blind(m, k, st, packet)
  {
    hide Ledger, AudioOk, Cached, Covers, Tracks, Lookahead, Scan, Heard, TsTiming;
    RunWf(m, k, st);
    if |st.cur| == k.maxPackets {
      assert !st.awaiting by { WfParams(m, k, st); }
      LookaheadPanics(m, k, st, packet);
    } else {
      AppendWf(m, k, st, packet);
      ScanFrame(m, k, Append(st, packet));
    }
  }

  /** What reaches the segmenter when `source` arrives: nothing if its marker is unannounced, if the
      audio selection drops it, or if that selection changes and so empties the run first. */
  ghost predicate BlindSource(m: Media, k: Params, st: St, source: Packet) {
    var packet := Opened(st, source);
    var result := m.audioObserve(st.audio.seen, packet);
    && !Unannounced(st, packet) && !result.changed && result.packet.Some?
    && Blind(m, k, st.(audio := Seeing(st.audio, packet)), result.packet.value)
  }

  lemma ChosenPanics(m: Media, k: Params, st: St, source: Packet, p: Packet)
    requires RestInv(m, k, st) && !st.panicked && !Unannounced(st, Opened(st, source))
    requires m.audioObserve(st.audio.seen, Opened(st, source)).packet == Some(p)
    ensures var packet := Opened(st, source);
            var s := Select(m, Record(m, st, source), packet);
            && ScanWf(m, k, s)
            && (FeedPacket(m, k, s, p).panicked <==>
                  && !m.audioObserve(st.audio.seen, packet).changed
                  && Blind(m, k, st.(audio := Seeing(st.audio, packet)), p))
  {
    hide Opened, RestInv, Next, Blind, FeedPacket, Select, TsTiming, ScanWf;
    var packet, r := Opened(st, source), Record(m, st, source);
    var s := Select(m, r, packet);
    SelectNext(m, k, st, source);
    NextWf(m, k, s);
    SelectShape(m, r, packet);
    FeedPacketPanics(m, k, s, p);
    if m.audioObserve(st.audio.seen, packet).changed {
      EmptyNotBlind(m, k, s, p);
    } else {
      BlindSame(m, k, st.(audio := Seeing(st.audio, packet)), s, p);
    }
  }

  lemma NextWf(m: Media, k: Params, st: St)
    requires Next(m, k, st)
    ensures ScanWf(m, k, st)
  {
  }

  /** A source packet panics the packager exactly when it arrives blind. */
  lemma PanicExactly(m: Media, k: Params, st: St, source: Packet)
    requires RestInv(m, k, st) && !st.panicked
    ensures FeedWhole(m, k, st, source).panicked <==> BlindSource(m, k, st, source)
  {
    hide Opened, RestInv, Blind, FeedPacket, Discard, Select, TsTiming, ScanWf;
    assert ScanWf(m, k, st) by { RestWf(m, k, st); }
    var packet := Opened(st, source);
    RecordWf(m, k, st, source);
    var result := m.audioObserve(st.audio.seen, packet);
    if !Unannounced(st, packet) {
      SelectWf(m, k, Record(m, st, source), packet);
      if result.packet.Some? {
        ChosenPanics(m, k, st, source, result.packet.value);
      }
    }
  }

  lemma SelectShape(m: Media, st: St, packet: Packet)
    ensures if m.audioObserve(st.audio.seen, packet).changed then Select(m, st, packet).awaiting
            else Select(m, st, packet) == st.(audio := Seeing(st.audio, packet))
  {
  }

  lemma RestWf(m: Media, k: Params, st: St)
    requires RestInv(m, k, st)
    ensures ScanWf(m, k, st)
  {
  }

  lemma EmptyNotBlind(m: Media, k: Params, st: St, packet: Packet)
    requires Next(m, k, st) && st.awaiting
    ensures !Blind(m, k, st, packet)
  {
    hide LogOk, AccessInv, Recorded, Fenceable, AudioOk, Cached, Rebases;
  }

  /** Only the run, the clock, the tables and the audio selection decide whether a packet is blind. */
  lemma BlindSame(m: Media, k: Params, st: St, s: St, packet: Packet)
    requires s.cur == st.cur && s.clock == st.clock && s.audio == st.audio && s.access == st.access
    ensures Blind(m, k, s, packet) == Blind(m, k, st, packet)
  {
    ObserveSame(m, st.access, packet, Since(st), Since(s));
  }

  lemma ObserveSame(m: Media, a: Access, p: Packet, since: nat, since': nat)
    ensures TablePrefix(m, Observe(m, a, p, since).0) == TablePrefix(m, Observe(m, a, p, since').0)
  {
  }

  // ----- Why ------------------------------------------------------------------------------

  /** `p` does not rename the program that `pat` announced. */
  ghost predicate SameMap(m: Media, pat: Packet, p: Packet) {
    p.raw[0] == TS_SYNC && TsPid(p) == 0 && m.patProgram(p).Some? ==> m.patProgram(p) == m.patProgram(pat)
  }

  ghost predicate TablesLive(m: Media, a: Access, pat: Packet) {
    a.pmt.Some? && a.program.Some? && a.pmtPid.Some?
    && m.patProgram(pat) == Some(Some((a.program.value, a.pmtPid.value)))
  }

  /** While none of the run's first `n` packets is a PAT that renames the program, the run's
      tables stay cached. */
  ghost predicate LiveUpTo(m: Media, st: St, n: nat) {
    !st.awaiting && 0 < |st.cur| && n <= |st.cur| ==>
      ((forall i | PrefixLen(st.access.title) <= i < n :: SameMap(m, st.cur[0], st.cur[i])) ==>
         TablesLive(m, st.access, st.cur[0]))
  }

  ghost predicate Live(m: Media, st: St) {
    LiveUpTo(m, st, st.scanned)
  }

  lemma ObserveLive(m: Media, a: Access, p: Packet, since: nat, pat: Packet)
    requires AccessInv(m, a) && TablesLive(m, a, pat) && SameMap(m, pat, p)
    ensures TablesLive(m, Observe(m, a, p, since).0, pat)
  {
  }

  lemma ScannedLive(m: Media, st: St, i: nat, dedupe: bool)
    requires AccessInv(m, st.access) && i == st.scanned < |st.cur| && Live(m, st)
    requires PrefixLen(st.access.title) <= i || st.awaiting
    ensures LiveUpTo(m, st.(access := Observe(m, st.access, st.cur[i], Since(st)).0, dedupe := dedupe), i + 1)
  {
    ObserveInv(m, st.access, st.cur[i], Since(st));
    if TablesLive(m, st.access, st.cur[0]) && SameMap(m, st.cur[0], st.cur[i]) {
      ObserveLive(m, st.access, st.cur[i], Since(st), st.cur[0]);
    }
  }

  /** A run that opens with the cached tables is live. */
  lemma FreshLive(m: Media, st: St)
    requires AccessInv(m, st.access) && TablePrefix(m, st.access).Some?
    requires |st.cur| > 0 && st.cur[0] == TablePrefix(m, st.access).value[0]
    ensures Live(m, st)
  {
  }

  lemma OpenLive(m: Media, k: Params, st: St, i: nat, isAccess: bool, duplicate: bool)
    requires AccessInv(m, st.access) && i < |st.cur| && st.awaiting
    ensures Live(m, Open(m, k, st, i, isAccess, duplicate))
  {
    var prefix := if isAccess then TablePrefix(m, st.access) else None;
    assert prefix.Some? ==> |prefix.value| >= 2;
    hide AccessInv, TablePrefix;
    if prefix.Some? && |prefix.value| + 1 <= k.maxPackets {
      FreshLive(m, Accept(st, i, prefix.value, duplicate));
    } else {
      AwaitingLive(m, Open(m, k, st, i, isAccess, duplicate));
    }
  }

  lemma AdvanceLive(m: Media, k: Params, st: St, i: nat, isAccess: bool, t: Timing)
    requires AccessInv(m, st.access) && k.window >= 1 && i < |st.cur|
    requires isAccess ==> TablePrefix(m, st.access).Some?
    requires LiveUpTo(m, st, i + 1)
    ensures Live(m, Advance(m, k, st, i, isAccess, t))
  {
    hide ClockObserve, Cut, ClockReset, SameMap, TablesLive;
    var (s, observation) := ObserveClock(m, st, t);
    if observation.Reset? {
      ResetLive(m, s, i);
    } else if i > 0 && TargetReached(k, s.clock) && isAccess {
      CutLive(m, k, s, i, Elapsed(s.clock).value);
    }
  }

  lemma ResetLive(m: Media, st: St, i: nat)
    requires i < |st.cur|
    ensures Live(m, ClockReset(st, i)) && Live(m, MarkerReset(st, i))
  {
  }

  lemma CutLive(m: Media, k: Params, st: St, i: nat, duration: nat)
    requires AccessInv(m, st.access) && k.window >= 1 && i < |st.cur|
    requires TablePrefix(m, st.access).Some?
    ensures Live(m, Cut(m, k, st, i, duration))
  {
    FreshLive(m, Cut(m, k, st, i, duration));
  }

  lemma DropSdtLive(m: Media, st: St, i: nat, duplicate: bool)
    requires i < |st.cur| && i == st.scanned && (st.awaiting || i > PrefixLen(st.access.title))
    requires LiveUpTo(m, st, i + 1) && TsPid(st.cur[i]) == SDT_PID
    ensures Live(m, DropSdt(st, i, duplicate))
  {
    var r := DropSdt(st, i, duplicate);
    assert SameMap(m, st.cur[0], st.cur[i]);
    assert forall j | 0 <= j < i :: r.cur[j] == st.cur[j];
  }

  lemma SortLive(m: Media, k: Params, st: St, i: nat, isAccess: bool, marked: bool, duplicate: bool, t: Timing)
    requires AccessInv(m, st.access) && k.window >= 1 && i == st.scanned < |st.cur| && LiveUpTo(m, st, i + 1)
    requires isAccess ==> TablePrefix(m, st.access).Some?
    requires !st.awaiting && st.filterSdt && TsPid(st.cur[i]) == SDT_PID ==> i > PrefixLen(st.access.title)
    ensures Live(m, Sort(m, k, st, i, isAccess, marked, duplicate, t))
  {
    hide DropSdt, Open, Advance, MarkerReset, Live, LiveUpTo, AccessInv, TablePrefix, TsPid, Quiet;
    if marked {
      ResetLive(m, st, i);
    } else if st.filterSdt && TsPid(st.cur[i]) == SDT_PID {
      DropSdtLive(m, st, i, duplicate);
    } else if st.awaiting {
      OpenLive(m, k, st, i, isAccess, duplicate);
    } else {
      AdvanceLive(m, k, st, i, isAccess, t);
    }
  }

  lemma NoticeLive(m: Media, k: Params, st: St)
    requires AccessInv(m, st.access) && st.scanned < |st.cur| && Live(m, st)
    requires PrefixLen(st.access.title) <= st.scanned || st.awaiting
    ensures LiveUpTo(m, Notice(m, st).0, st.scanned + 1)
  {
    hide Observe, Live, LiveUpTo, AccessInv, TsTiming;
    ScannedLive(m, st, st.scanned, Notice(m, st).0.dedupe);
  }

  lemma ScanStepLive(m: Media, k: Params, st: St)
    requires RunInv(m, k, st) && st.scanned < |st.cur| && Live(m, st)
    ensures AccessInv(m, st.access) && Live(m, ScanStep(m, k, st))
  {
    hide Sort, Notice, Ledger, AudioOk, Cached, Ahead, Tracks, Offered, Live, LiveUpTo, AccessInv, TsTiming, TsPid;
    RunWf(m, k, st);
    NoticeLive(m, k, st);
    var (s, isAccess) := Notice(m, st);
    var t := TsTiming(st.cur[st.scanned]);
    SortLive(m, k, s, st.scanned, isAccess, t.discontinuity && !st.dedupe, t.discontinuity && st.dedupe,
             t.(discontinuity := false));
  }

  lemma AwaitingLive(m: Media, st: St)
    requires st.awaiting
    ensures Live(m, st)
  {
  }

  lemma {:induction false} ScanLive(m: Media, k: Params, st: St)
    requires RunInv(m, k, st) && Live(m, st)
    ensures Live(m, Scan(m, k, st))
    decreases |st.cur| - st.scanned, st.awaiting, WouldReach(m, k, st)
  {
    if st.scanned < |st.cur| {
      ScanStepProgress(m, k, st);
      ScanStepInv(m, k, st);
      ScanStepLive(m, k, st);
      ScanLive(m, k, ScanStep(m, k, st));
    }
  }

  // ----- At the ceiling -------------------------------------------------------------------

  /** The segment forced out last, or the packet that forced it, renames the program. */
  ghost predicate Remapped(m: Media, st: St) {
    && st.hist.log != [] && st.hist.events != []
    && var e, last := st.hist.log[|st.hist.log| - 1], st.hist.events[|st.hist.events| - 1];
       && PrefixLen(st.access.title) < |e.raw| && last.Source? && last.kept.Some?
       && (|| !SameMap(m, e.raw[0], last.kept.value)
           || exists i :: PrefixLen(st.access.title) <= i < |e.raw| && !SameMap(m, e.raw[0], e.raw[i]))
  }

  ghost predicate LiveOrRemapped(m: Media, st: St) {
    if st.panicked then Remapped(m, st) else Live(m, st)
  }

  /** A full run and the packet after it: every table change so far has been observed. */
  ghost predicate LiveWith(m: Media, st: St, packet: Packet) {
    && PrefixLen(st.access.title) < |st.cur|
    && Offered(st, packet)
    && (SameMap(m, st.cur[0], packet)
        && (forall i | PrefixLen(st.access.title) <= i < |st.cur| :: SameMap(m, st.cur[0], st.cur[i]))
        ==> TablesLive(m, st.access, st.cur[0]))
  }

  lemma ForceLive(m: Media, k: Params, st: St, packet: Packet, t: Timing)
    requires AccessInv(m, st.access) && k.window >= 1 && TargetReached(k, st.clock)
    requires LiveWith(m, st, packet) && !st.panicked
    ensures LiveOrRemapped(m, Force(m, k, st, packet, t))
  {
    hide SameMap;
    var r := Force(m, k, st, packet, t);
    if TablePrefix(m, st.access).Some? {
      FreshLive(m, r);
    } else {
      assert r.hist.log[|r.hist.log| - 1].raw == st.cur;
    }
  }

  lemma BeyondLive(m: Media, k: Params, st: St, packet: Packet, isAccess: bool, t: Timing)
    requires AccessInv(m, st.access) && k.window >= 1 && st.scanned == |st.cur|
    requires isAccess ==> TablePrefix(m, st.access).Some?
    requires LiveWith(m, st, packet) && !st.panicked
    ensures LiveOrRemapped(m, Beyond(m, k, st, packet, isAccess, t))
  {
    hide Force, TablesLive;
    if st.filterSdt && TsPid(packet) == SDT_PID {
    } else if TargetReached(k, st.clock) {
      ForceLive(m, k, st, packet, t);
    } else if isAccess {
      FreshLive(m, Seed(m, Discard(st), TablePrefix(m, st.access).value, packet, t, Last(st.hist)));
    }
  }

  lemma TimedLive(m: Media, k: Params, st: St, packet: Packet, isAccess: bool, t: Timing)
    requires AccessInv(m, st.access) && k.window >= 1 && st.scanned == |st.cur|
    requires isAccess ==> TablePrefix(m, st.access).Some?
    requires LiveWith(m, st, packet) && !st.panicked
    ensures LiveOrRemapped(m, Timed(m, k, st, packet, isAccess, t))
  {
    hide ClockObserve, Beyond, SameMap, TablesLive, TablePrefix, AccessInv, Remapped;
    BeyondLive(m, k, ObserveClock(m, st, t).0, packet, isAccess, t);
  }

  lemma LookaheadLive(m: Media, k: Params, st: St, packet: Packet)
    requires ScanWf(m, k, st) && st.scanned == |st.cur| > PrefixLen(st.access.title) && !st.panicked && !st.awaiting
    requires Live(m, st) && Offered(st, packet)
    ensures LiveOrRemapped(m, Lookahead(m, k, st, packet))
  {
    hide Observe, AccessInv, Timed, TsTiming, SameMap, TablesLive, Rebases, TablePrefix, Remapped;
    ObserveInv(m, st.access, packet, Since(st));
    var t := TsTiming(packet);
    var (access, isAccess) := Observe(m, st.access, packet, Since(st));
    if TablesLive(m, st.access, st.cur[0]) && SameMap(m, st.cur[0], packet) {
      ObserveLive(m, st.access, packet, Since(st), st.cur[0]);
    }
    if !t.discontinuity || st.dedupe {
      var s := st.(access := access, dedupe := st.dedupe && !t.discontinuity);
      TimedLive(m, k, s, packet, isAccess, t.(discontinuity := false));
    }
  }

  lemma FeedPacketLive(m: Media, k: Params, st: St, packet: Packet)
    requires Next(m, k, st) && Offered(st, packet) && !st.panicked && Live(m, st)
    ensures LiveOrRemapped(m, FeedPacket(m, k, st, packet))
  {
    hide Ledger, AudioOk, Cached, Covers, Tracks, Lookahead, Scan, Offered, SameMap, TablesLive, TsTiming;
    RunWf(m, k, st);
    if |st.cur| == k.maxPackets {
      assert !st.awaiting by { WfParams(m, k, st); }
      LookaheadLive(m, k, st, packet);
    } else {
      var s := Append(st, packet);
      AppendWf(m, k, st, packet);
      AppendInv(m, k, st, packet);
      assert forall i | 0 <= i < |st.cur| :: s.cur[i] == st.cur[i];
      assert Live(m, s);
      ScanLive(m, k, s);
      ScanFrame(m, k, s);
    }
  }

  // ----- Runs -----------------------------------------------------------------------------

  lemma SelectLive(m: Media, st: St, packet: Packet)
    requires Live(m, st)
    ensures Live(m, Select(m, st, packet))
  {
    hide AccessInv, TablePrefix, Observe;
  }

  lemma FeedWholeLive(m: Media, k: Params, st: St, source: Packet)
    requires RestInv(m, k, st) && !st.panicked && Live(m, st)
    ensures LiveOrRemapped(m, FeedWhole(m, k, st, source))
  {
    hide Opened, TsTiming, Select, FeedPacket, RestInv, SameMap, TablesLive, ScanWf, Base, Waiting, Holding;
    assert ScanWf(m, k, st) by { RestWf(m, k, st); }
    var packet, r := Opened(st, source), Record(m, st, source);
    RecordWf(m, k, st, source);
    assert Live(m, r);
    if !Unannounced(st, packet) {
      SelectLive(m, r, packet);
      SelectWf(m, k, r, packet);
      SelectNext(m, k, st, source);
      var result := m.audioObserve(st.audio.seen, packet);
      if result.packet.Some? {
        FeedPacketLive(m, k, Select(m, r, packet), result.packet.value);
      }
    }
  }

  lemma FillLive(m: Media, k: Params, st: St, bytes: seq<byte>, tag: Tag)
    requires Inv(m, k, st) && !st.panicked && Admitted(st, tag) && Live(m, st)
    requires |st.input| + |bytes| <= TS_PACKET
    ensures LiveOrRemapped(m, Fill(m, k, st, bytes, tag))
  {
    hide FeedWhole, LogOk, AccessInv, Running, Waiting, PublicInv, SameMap, TablesLive;
    var s := Stage(st, bytes, tag);
    StageInv(m, k, st, bytes, tag);
    if |s.input| == TS_PACKET {
      StagedInv(m, k, s, s.(input := []));
      FeedWholeLive(m, k, s.(input := []), Packet(s.input));
    }
  }

  lemma {:induction false} FeedBytesLive(m: Media, k: Params, st: St, data: seq<byte>, tag: Tag)
    requires Inv(m, k, st) && Admitted(st, tag) && LiveOrRemapped(m, st)
    ensures LiveOrRemapped(m, FeedBytes(m, k, st, data, tag))
    decreases |data|
  {
    hide Fill, ScanWf, PublicInv, Settled, Live, Remapped;
    if data != [] && !st.panicked {
      var take := Take(st, data);
      FillInv(m, k, st, data[..take], tag);
      FillLive(m, k, st, data[..take], tag);
      FeedBytesLive(m, k, Fill(m, k, st, data[..take], tag), data[take..], tag);
    }
  }

  lemma ApplyLive(m: Media, k: Params, st: St, c: Call)
    requires Inv(m, k, st) && LiveOrRemapped(m, st)
    ensures LiveOrRemapped(m, Apply(m, k, st, c))
  {
    hide FeedBytes, ScanWf, PublicInv, Settled, Remapped, SameMap, TablesLive;
    if !st.panicked && !Closed(st.status) {
      match c
      case FeedToken(token, data, late) =>
        if token == st.generation {
          ExpireInv(m, k, st, late);
          FeedBytesLive(m, k, Expire(st, late), data, Fenced(token));
        }
      case Feed(data, late) =>
        ExpireInv(m, k, st, late);
        FeedBytesLive(m, k, Expire(st, late), data, Native);
      case _ =>
    }
  }

  lemma {:induction false} RunLive(m: Media, k: Params, st: St, calls: seq<Call>)
    requires Inv(m, k, st) && LiveOrRemapped(m, st)
    ensures LiveOrRemapped(m, Run(m, k, st, calls))
    decreases |calls|
  {
    hide Apply, ScanWf, PublicInv, Settled, LiveOrRemapped;
    if calls != [] {
      ApplyInv(m, k, st, calls[0]);
      ApplyLive(m, k, st, calls[0]);
      RunLive(m, k, Apply(m, k, st, calls[0]), calls[1..]);
    }
  }

  /** In every run, a panic means that a PAT inside the last emitted segment, or in the packet
      that forced it out, names another program than the segment's own PAT. */
  lemma PanicMeansRemap(m: Media, k: Params, named: bool, strict: bool, calls: seq<Call>, st: St)
    requires Reachable(m, k, named, strict, calls, st)
    ensures st.panicked ==> Remapped(m, st)
  {
    InitialInv(m, k, named, strict);
    RunLive(m, k, Initial(k, Titled(k, named), strict), calls);
  }
}
