/** What becomes of each packet: whether the packager then waits for an access point or holds an open
    run, and whether it publishes. */
module HlsOutcomes {
  import opened Ts
  import opened HlsModel
  import opened HlsInvariants
  import opened HlsSteps
  import opened HlsRuns
  import opened HlsPanic

  // ----- Fates ----------------------------------------------------------------------------

  /** After a packet the packager waits, holds a run open, or has published and goes on with a run. */
  datatype Fate = Waits | Runs | Publishes

  /** The packet opens an access point of the video that is cached once it is observed. */
  ghost predicate IsAccess(m: Media, st: St, p: Packet) {
    Observe(m, st.access, p, Since(st)).1
  }

  /** What the clock makes of the packet. */
  ghost function Sees(m: Media, st: St, p: Packet): (Clock, Observation) {
    ClockObserve(st.clock, Selected(m, st.audio.seen, TsTiming(p).(discontinuity := false)))
  }

  /** A marker ends the run, unless the owner announced it and no run is open. Without a run, an access
      point opens one. An open run goes on, cut before an access point once its target is reached. A
      full run is cut wherever its target is reached; short of it, an access point opens another run,
      and anything else ends it. A jump of the clock always ends a run. Upstream SDT packets of a titled
      stream do nothing, but the clock of a full run sees them. */
  ghost function FateOf(m: Media, k: Params, st: St, p: Packet): Fate {
    var full, sdt := |st.cur| == k.maxPackets, Filtered(st.access.title, p);
    if Marked(p) && !(st.awaiting && st.dedupe) then Waits
    else if st.awaiting then if !sdt && IsAccess(m, st, p) then Runs else Waits
    else if Sees(m, st, p).1.Reset? && (full || !sdt) then Waits
    else if sdt then Runs
    else if TargetReached(k, Sees(m, st, p).0) && (full || IsAccess(m, st, p)) then Publishes
    else if full && !IsAccess(m, st, p) then Waits
    else Runs
  }

  /** `r` is what that fate leaves of `st`. */
  ghost predicate Meets(st: St, r: St, fate: Fate) {
    && |r.hist.log| == |st.hist.log| + (if fate.Publishes? then 1 else 0)
    && (!r.panicked ==> (r.awaiting <==> fate.Waits?))
  }

  // ----- The scan loop --------------------------------------------------------------------

  lemma ScanUnfold(m: Media, k: Params, st: St)
    requires ScanWf(m, k, st) && st.scanned < |st.cur|
    ensures ScanWf(m, k, ScanStep(m, k, st)) && Scan(m, k, st) == Scan(m, k, ScanStep(m, k, st))
  {
    hide ScanStep, AccessInv, Rebases;
    ScanStepProgress(m, k, st);
  }

  lemma ScanDone(m: Media, k: Params, st: St)
    requires ScanWf(m, k, st) && st.scanned == |st.cur|
    ensures Scan(m, k, st) == st
  {
  }

  /** What one iteration of the scan loop leaves to decide. */
  lemma StepIsSort(m: Media, k: Params, st: St)
    requires ScanWf(m, k, st) && st.scanned < |st.cur|
    ensures var p, n := st.cur[st.scanned], Notice(m, st);
            && n.0 == st.(access := n.0.access, dedupe := n.0.dedupe)
            && n.0.dedupe == (st.dedupe && (st.awaiting || !Marked(p)))
            && n.1 == IsAccess(m, st, p) && (n.1 ==> TablePrefix(m, n.0.access).Some?)
            && n.0.access.title == st.access.title && AccessInv(m, n.0.access)
            && ScanStep(m, k, st) == Sort(m, k, n.0, st.scanned, n.1, Marked(p) && !st.dedupe, Marked(p) && st.dedupe,
                                          TsTiming(p).(discontinuity := false))
  {
    hide Observe, TsTiming, Sort, TablePrefix, AccessInv, Rebases;
  }

  /** A packet that is scanned again joins the run. */
  lemma Rescanned(m: Media, k: Params, st: St)
    requires ScanWf(m, k, st) && !st.awaiting && st.scanned == |st.cur| - 1 && st.filterSdt == st.access.title
    requires var p := st.cur[st.scanned];
             && !Filtered(st.access.title, p) && (Marked(p) ==> st.dedupe) && !Sees(m, st, p).1.Reset?
    requires !WouldReach(m, k, st)
    ensures var r := Scan(m, k, st); !r.awaiting && r.hist.log == st.hist.log
  {
    hide Scan, ScanStep, Sort, Notice, Marked, AccessInv, TablePrefix, Rebases, TsTiming, TsPid, Observe;
    var i, p := st.scanned, st.cur[st.scanned];
    var n, t := Notice(m, st), TsTiming(p).(discontinuity := false);
    StepIsSort(m, k, st);
    ScanUnfold(m, k, st);
    SortAdvances(m, k, n.0, i, n.1, Marked(p) && st.dedupe, t);
    var r := ScanStep(m, k, st);
    ScanDone(m, k, r);
  }

  lemma SortAdvances(m: Media, k: Params, st: St, i: nat, isAccess: bool, duplicate: bool, t: Timing)
    requires k.window >= 1 && i < |st.cur| && (isAccess ==> TablePrefix(m, st.access).Some?)
    requires !st.awaiting && !(st.filterSdt && TsPid(st.cur[i]) == SDT_PID)
    requires var seen := ClockObserve(st.clock, Selected(m, st.audio.seen, t));
             !seen.1.Reset? && !(TargetReached(k, seen.0) && isAccess)
    ensures var r := Sort(m, k, st, i, isAccess, false, duplicate, t);
            && r.cur == st.cur && r.scanned == i + 1 && !r.awaiting && r.hist == st.hist && r.panicked == st.panicked
  {
    hide ClockObserve, TablePrefix, TsPid, Cut, ClockReset;
  }

  // ----- Without a run --------------------------------------------------------------------

  /** The run is open, its packet still to be scanned again. */
  ghost predicate JustOpened(st: St, r: St, duplicate: bool) {
    && |st.cur| == 1 && !r.awaiting && r.scanned == |r.cur| - 1 && r.cur[r.scanned] == st.cur[0] && r.clock == st.clock
    && r.dedupe == (st.dedupe && duplicate) && r.access == st.access && r.mark.from == Last(st.hist)
  }

  lemma AcceptOpens(st: St, prefix: seq<Packet>, duplicate: bool)
    requires |st.cur| == 1
    ensures JustOpened(st, Accept(st, 0, prefix, duplicate), duplicate)
  {
  }

  lemma OpenIf(m: Media, k: Params, st: St, isAccess: bool, duplicate: bool)
    requires |st.cur| == 1 && st.awaiting && st.scanned == 0 && (isAccess ==> TablePrefix(m, st.access).Some?)
    requires AccessInv(m, st.access) && PrefixLen(st.access.title) + 1 <= k.maxPackets
    ensures var r := Open(m, k, st, 0, isAccess, duplicate);
            && r.hist == st.hist && r.audio == st.audio && r.filterSdt == st.filterSdt
            && if isAccess then JustOpened(st, r, duplicate) else r.awaiting && r.scanned == |r.cur|
  {
    hide AccessInv, TablePrefix, Accept, JustOpened;
    if isAccess {
      PrefixIsTables(m, st.access);
      AcceptOpens(st, TablePrefix(m, st.access).value, duplicate);
      AcceptKeeps(st, TablePrefix(m, st.access).value, duplicate);
    }
  }

  lemma AcceptKeeps(st: St, prefix: seq<Packet>, duplicate: bool)
    requires |st.cur| == 1
    ensures var r := Accept(st, 0, prefix, duplicate);
            r.hist == st.hist && r.audio == st.audio && r.filterSdt == st.filterSdt
  {
  }

  /** An iteration over the only buffered packet while no run is open. */
  lemma OpensIf(m: Media, k: Params, st: St, isAccess: bool, marked: bool, duplicate: bool, t: Timing)
    requires k.window >= 1 && |st.cur| == 1 && st.awaiting && st.scanned == 0 && st.filterSdt == st.access.title
    requires isAccess ==> TablePrefix(m, st.access).Some?
    requires AccessInv(m, st.access) && PrefixLen(st.access.title) + 1 <= k.maxPackets
    ensures var r := Sort(m, k, st, 0, isAccess, marked, duplicate, t);
            && r.hist == st.hist && r.audio == st.audio && r.filterSdt == st.filterSdt
            && if !marked && !Filtered(st.access.title, st.cur[0]) && isAccess then JustOpened(st, r, duplicate)
               else r.awaiting && r.scanned == |r.cur|
  {
    hide TsPid, AccessInv, TablePrefix, Open, JustOpened, Advance;
    if !marked && !Filtered(st.access.title, st.cur[0]) {
      OpenIf(m, k, st, isAccess, duplicate);
    }
  }

  lemma WaitingFate(m: Media, k: Params, st: St, p: Packet)
    requires RunInv(m, k, st) && st.awaiting && st.cur == [p] && !st.panicked
    ensures Meets(st, Scan(m, k, st), FateOf(m, k, st.(cur := []), p))
  {
    hide Scan, ScanStep, Sort, Notice, Marked, AccessInv, TablePrefix, Rebases, TsTiming, TsPid, Observe, Ledger, AudioOk,
         Cached, Unscanned, WouldReach;
    RunWf(m, k, st);
    assert PrefixLen(st.access.title) + 1 <= k.maxPackets by { LedgerRoom(m, k, st); }
    ScanUnfold(m, k, st);
    StepIsSort(m, k, st);
    var n, t := Notice(m, st), TsTiming(p).(discontinuity := false);
    OpensIf(m, k, n.0, n.1, Marked(p) && !st.dedupe, Marked(p) && st.dedupe, t);
    var r := ScanStep(m, k, st);
    ScanStepInv(m, k, st);
    if r.awaiting {
      ScanDone(m, k, r);
    } else {
      assert r.mark.from == |r.hist.events| - 1 by { ScansLatest(m, k, st); }
      ReopenedQuiet(m, k, r);
      assert r.clock == CLEARED by { WaitingClock(m, k, st); }
      ClearedNeverResets(m, r, p);
      Rescanned(m, k, r);
    }
  }

  lemma LedgerRoom(m: Media, k: Params, st: St)
    requires Base(m, k, st)
    ensures PrefixLen(st.access.title) + 1 <= k.maxPackets
  {
  }

  lemma WaitingClock(m: Media, k: Params, st: St)
    requires RunInv(m, k, st) && st.awaiting
    ensures st.clock == CLEARED && st.scanned == 0
  {
  }

  lemma ClearedNeverResets(m: Media, st: St, p: Packet)
    requires st.clock == CLEARED
    ensures !Sees(m, st, p).1.Reset?
  {
  }

  /** A run just opened or reopened on its packet. */
  lemma ReopenedQuiet(m: Media, k: Params, st: St)
    requires Unscanned(m, k, st) && st.mark.from == |st.hist.events| - 1
    ensures st.scanned == |st.cur| - 1 && !WouldReach(m, k, st) && !Filtered(st.access.title, st.cur[st.scanned])
  {
    hide Opening, Tracks, WouldReach, TablesOk, Sourced, Clean;
    var events, last := st.hist.events, |st.hist.events| - 1;
    assert Bodies(events[..last], st.access.title, st.mark.from) == [];
    assert st.cur[..st.scanned][PrefixLen(st.access.title)..] == [];
  }

  // ----- A run with room ------------------------------------------------------------------

  /** The run is dropped with its last packet. */
  lemma LastDropped(st: St, i: nat)
    requires i == |st.cur| - 1
    ensures var r := MarkerReset(st, i); r.awaiting && r.scanned == |r.cur| && r.hist == st.hist
    ensures var r := ClockReset(st, i); r.awaiting && r.scanned == |r.cur| && r.hist == st.hist
    ensures var r := DropSdt(st, i, false);
            r.awaiting == st.awaiting && (st.scanned == i ==> r.scanned == |r.cur|) && r.hist == st.hist
  {
  }

  /** One segment more, and the run reopened on its last packet. */
  ghost predicate JustCut(st: St, r: St, i: nat) {
    && i < |st.cur| && |r.hist.log| == |st.hist.log| + 1 && !r.awaiting && r.scanned == |r.cur| - 1
    && r.cur[r.scanned] == st.cur[i] && r.clock == Rebase(st.boundary) && r.audio.seen == st.audio.seen
    && r.dedupe == st.dedupe && r.access == st.access && r.filterSdt == st.filterSdt
  }

  lemma CutCuts(m: Media, k: Params, st: St, i: nat, duration: nat)
    requires k.window >= 1 && i == |st.cur| - 1 && TablePrefix(m, st.access).Some? && !st.awaiting
    ensures JustCut(st, Cut(m, k, st, i, duration), i)
  {
    hide Emit, TablePrefix, Rebase;
    EmitShape(m, k, st, i, duration);
    EmitLogs(m, k, st, i, duration);
  }

  lemma EmitLogs(m: Media, k: Params, st: St, end: nat, duration: nat)
    requires k.window >= 1 && end <= |st.cur|
    ensures |Emit(m, k, st, end, duration).hist.log| == |st.hist.log| + 1
  {
  }

  /** The fate of a packet that follows an open run with room, its marker aside. */
  lemma AdvanceFate(m: Media, k: Params, st: St, isAccess: bool, t: Timing)
    requires ScanWf(m, k, st) && !st.awaiting && !st.panicked && st.scanned == |st.cur| - 1
    requires st.filterSdt == st.access.title && !Filtered(st.access.title, st.cur[st.scanned]) && !st.dedupe
    requires !Marked(st.cur[st.scanned]) && t == TsTiming(st.cur[st.scanned]).(discontinuity := false)
    requires isAccess ==> TablePrefix(m, st.access).Some?
    requires PrefixLen(st.access.title) < |st.cur|
    ensures var r := Advance(m, k, st, st.scanned, isAccess, t);
            && ScanWf(m, k, r)
            && Meets(st, Scan(m, k, r),
                     if Sees(m, st, st.cur[st.scanned]).1.Reset? then Waits
                     else if TargetReached(k, Sees(m, st, st.cur[st.scanned]).0) && isAccess then Publishes
                     else Runs)
  {
    hide Scan, Cut, ClockReset, Marked, AccessInv, TablePrefix, Rebases, TsTiming, TsPid, ClockObserve, Selected,
         WouldReach, ScanDecreases;
    var i := st.scanned;
    AdvanceProgress(m, k, st, i, isAccess, t);
    var r := Advance(m, k, st, i, isAccess, t);
    var (s, observation) := ObserveClock(m, st, t);
    if observation.Reset? {
      LastDropped(s, i);
      ScanDone(m, k, r);
    } else if i > 0 && TargetReached(k, s.clock) && isAccess {
      CutCuts(m, k, s, i, Elapsed(s.clock).value);
      CutProgress(m, k, st, t);
      CutRescans(m, k, st, t);
      Rescanned(m, k, r);
    } else {
      ScanDone(m, k, r);
    }
  }

  /** The clock restarted for a cut accepts the packet it was cut before. */
  lemma CutRescans(m: Media, k: Params, st: St, t: Timing)
    requires ScanWf(m, k, st) && st.scanned < |st.cur| && t == TsTiming(st.cur[st.scanned]).(discontinuity := false)
    requires !ObserveClock(m, st, t).1.Reset? && TargetReached(k, ObserveClock(m, st, t).0.clock)
    ensures !ClockObserve(Rebase(ObserveClock(m, st, t).0.boundary), Selected(m, st.audio.seen, t)).1.Reset?
  {
    hide AccessInv, TsTiming;
    ObserveClockKeeps(m, st, t);
    var s, selected := ObserveClock(m, st, t).0, Selected(m, st.audio.seen, t);
    RebaseIsZero(s.clock, s.boundary, selected);
  }

  lemma RunningFate(m: Media, k: Params, st: St, p: Packet)
    requires RunInv(m, k, st) && !st.awaiting && !st.dedupe && !st.panicked
    requires st.scanned == |st.cur| - 1 && st.cur[st.scanned] == p && PrefixLen(st.access.title) < |st.cur| <= k.maxPackets
    ensures Meets(st, Scan(m, k, st), FateOf(m, k, st.(cur := st.cur[..st.scanned]), p))
  {
    hide Scan, ScanStep, Sort, Notice, Marked, AccessInv, TablePrefix, Rebases, TsTiming, TsPid, Observe, Ledger, AudioOk,
         Cached, Running, ClockObserve, TargetReached, Selected, Advance, MarkerReset, DropSdt;
    RunWf(m, k, st);
    ScanUnfold(m, k, st);
    StepIsSort(m, k, st);
    var i, n, t := st.scanned, Notice(m, st), TsTiming(p).(discontinuity := false);
    var r := ScanStep(m, k, st);
    LastDropped(n.0, i);
    SortBranch(m, k, n.0, i, n.1, Marked(p), false, t);
    if Marked(p) || Filtered(st.access.title, p) {
      ScanDone(m, k, r);
    } else {
      NoticedWf(m, k, st);
      AdvanceFate(m, k, n.0, n.1, t);
    }
  }

  lemma NoticedWf(m: Media, k: Params, st: St)
    requires ScanWf(m, k, st) && st.scanned < |st.cur|
    ensures ScanWf(m, k, Notice(m, st).0)
  {
    hide Notice, AccessInv, Rebases;
  }

  lemma SortBranch(m: Media, k: Params, st: St, i: nat, isAccess: bool, marked: bool, duplicate: bool, t: Timing)
    requires k.window >= 1 && i < |st.cur| && (isAccess ==> TablePrefix(m, st.access).Some?)
    requires !st.awaiting && st.filterSdt == st.access.title
    ensures Sort(m, k, st, i, isAccess, marked, duplicate, t) ==
              if marked then MarkerReset(st, i)
              else if Filtered(st.access.title, st.cur[i]) then DropSdt(st, i, duplicate)
              else Advance(m, k, st, i, isAccess, t)
  {
    hide MarkerReset, DropSdt, Advance, TablePrefix, TsPid;
  }

  // ----- Beyond a full run ----------------------------------------------------------------

  lemma ForceFate(m: Media, k: Params, st: St, p: Packet, t: Timing)
    requires k.window >= 1 && TargetReached(k, st.clock) && !st.awaiting
    ensures Meets(st, Force(m, k, st, p, t), Publishes)
  {
    hide Emit, TablePrefix, TargetReached, Elapsed, ObserveClock, Rebase;
    assert Elapsed(st.clock).Some? by { ReachedElapsed(k, st.clock); }
    EmitShape(m, k, st, |st.cur|, Elapsed(st.clock).value);
    EmitLogs(m, k, st, |st.cur|, Elapsed(st.clock).value);
    var s := Emit(m, k, st, |st.cur|, Elapsed(st.clock).value);
    if TablePrefix(m, s.access).Some? {
      SeedShape(m, s, TablePrefix(m, s.access).value, p, t, s.mark.chain);
    }
  }

  lemma ReachedElapsed(k: Params, c: Clock)
    requires TargetReached(k, c)
    ensures Elapsed(c).Some?
  {
  }

  lemma BeyondFate(m: Media, k: Params, st: St, p: Packet, isAccess: bool, t: Timing)
    requires k.window >= 1 && !st.awaiting && st.filterSdt == st.access.title
    requires isAccess ==> TablePrefix(m, st.access).Some?
    ensures Meets(st, Beyond(m, k, st, p, isAccess, t),
                  if Filtered(st.access.title, p) then Runs
                  else if TargetReached(k, st.clock) then Publishes
                  else if isAccess then Runs
                  else Waits)
  {
    hide Force, TablePrefix, TargetReached, Seed, TsPid;
    if Filtered(st.access.title, p) {
    } else if TargetReached(k, st.clock) {
      ForceFate(m, k, st, p, t);
    } else if isAccess {
      SeedShape(m, Discard(st), TablePrefix(m, st.access).value, p, t, Last(st.hist));
    }
  }

  lemma TimedFate(m: Media, k: Params, st: St, p: Packet, isAccess: bool, t: Timing)
    requires k.window >= 1 && !st.awaiting && st.filterSdt == st.access.title
    requires isAccess ==> TablePrefix(m, st.access).Some?
    ensures var seen := ClockObserve(st.clock, Selected(m, st.audio.seen, t));
            Meets(st, Timed(m, k, st, p, isAccess, t),
                  if seen.1.Reset? then Waits
                  else if Filtered(st.access.title, p) then Runs
                  else if TargetReached(k, seen.0) then Publishes
                  else if isAccess then Runs
                  else Waits)
  {
    hide Beyond, TablePrefix, TargetReached, TsPid, ClockObserve, Selected;
    var s := ObserveClock(m, st, t).0;
    BeyondFate(m, k, s, p, isAccess, t);
    assert s.hist == st.hist;
  }

  lemma LookaheadFate(m: Media, k: Params, st: St, p: Packet)
    requires ScanWf(m, k, st) && !st.awaiting && !st.dedupe && st.filterSdt == st.access.title && |st.cur| == k.maxPackets
    ensures Meets(st, Lookahead(m, k, st, p), FateOf(m, k, st, p))
  {
    hide Observe, TsTiming, Timed, TablePrefix, TargetReached, AccessInv, TsPid, ClockObserve, Selected, Rebases;
    ObserveInv(m, st.access, p, Since(st));
    var t := TsTiming(p).(discontinuity := false);
    var (access, isAccess) := Observe(m, st.access, p, Since(st));
    if !Marked(p) {
      var s := st.(access := access);
      TimedFate(m, k, s, p, isAccess, t);
      assert Lookahead(m, k, st, p) == Timed(m, k, s, p, isAccess, t);
      assert s.hist == st.hist;
    }
  }

  // ----- One packet, one source packet ----------------------------------------------------

  /** Every packet that reaches the segmenter meets its fate. */
  lemma FeedPacketFate(m: Media, k: Params, st: St, p: Packet)
    requires Next(m, k, st) && Offered(st, p) && !st.panicked
    ensures Meets(st, FeedPacket(m, k, st, p), FateOf(m, k, st, p))
  {
    hide Base, Holding, RunInv, Scan, Lookahead, Offered, ScanWf, FateOf, Meets;
    RunWf(m, k, st);
    if |st.cur| == k.maxPackets {
      FullIsOpen(m, k, st);
      LookaheadFate(m, k, st, p);
    } else {
      var a := Append(st, p);
      AppendInv(m, k, st, p);
      AppendWf(m, k, st, p);
      if st.awaiting {
        WaitingFate(m, k, a, p);
        assert a.(cur := []) == st;
      } else {
        OpenHasRoom(m, k, st);
        RunningFate(m, k, a, p);
        assert a.(cur := a.cur[..a.scanned]) == st;
      }
      MeetsSince(st, a, Scan(m, k, a), FateOf(m, k, st, p));
    }
  }

  lemma MeetsSince(st: St, a: St, r: St, fate: Fate)
    requires Meets(a, r, fate) && a.hist == st.hist
    ensures Meets(st, r, fate)
  {
  }

  lemma FullIsOpen(m: Media, k: Params, st: St)
    requires Next(m, k, st) && |st.cur| == k.maxPackets
    ensures !st.awaiting && !st.dedupe
  {
    hide Ledger, AudioOk, Cached, Ahead, Tracks;
    RunWf(m, k, st);
  }

  lemma OpenHasRoom(m: Media, k: Params, st: St)
    requires Next(m, k, st) && !st.awaiting
    ensures !st.dedupe && PrefixLen(st.access.title) < |st.cur| <= k.maxPackets
  {
    hide Ledger, AudioOk, Cached, Ahead, Tracks;
  }

  /** The fate of a source packet. A marker that was not announced ends the run before the audio
      selection sees it, and so does a change of that selection; a packet that the selection drops leaves
      the run as it is. */
  ghost function SourceFate(m: Media, k: Params, st: St, source: Packet): Fate {
    var packet := Opened(st, source);
    var result := m.audioObserve(st.audio.seen, packet);
    if Marked(packet) && !st.dedupe then Waits
    else if result.packet.None? then if st.awaiting || result.changed then Waits else Runs
    else FateOf(m, k, Select(m, Record(m, st, source), packet), result.packet.value)
  }

  /** Every source packet meets its fate, and is on record. */
  lemma FeedWholeFate(m: Media, k: Params, st: St, source: Packet)
    requires RestInv(m, k, st) && !st.panicked
    ensures var r := FeedWhole(m, k, st, source);
            && Meets(st, r, SourceFate(m, k, st, source))
            && |r.hist.events| == |st.hist.events| + 1 && r.hist.events[..|st.hist.events|] == st.hist.events
            && r.hist.events[|st.hist.events|].Source? && r.hist.events[|st.hist.events|].source == source
  {
    hide Opened, RestInv, FateOf, FeedPacket, Select, Record, TsTiming, ScanWf, Meets, Next, Frame;
    assert ScanWf(m, k, st) by { RestWf(m, k, st); }
    FeedWholeFrame(m, k, st, source);
    FrameEvents(k, Record(m, st, source), FeedWhole(m, k, st, source));
    RecordShape(m, st, source);
    ChooseFate(m, k, st, source);
  }

  lemma FrameEvents(k: Params, st: St, r: St)
    requires Frame(k, st, r)
    ensures r.hist.events == st.hist.events
  {
  }

  lemma ChooseFate(m: Media, k: Params, st: St, source: Packet)
    requires RestInv(m, k, st) && !st.panicked
    ensures Meets(st, FeedWhole(m, k, st, source), SourceFate(m, k, st, source))
  {
    hide Opened, RestInv, FateOf, FeedPacket, Select, Record, TsTiming, ScanWf, Next;
    assert ScanWf(m, k, st) by { RestWf(m, k, st); }
    var packet, r := Opened(st, source), Record(m, st, source);
    RecordWf(m, k, st, source);
    RecordShape(m, st, source);
    var result := m.audioObserve(st.audio.seen, packet);
    if !Unannounced(st, packet) {
      SelectWf(m, k, r, packet);
      SelectNext(m, k, st, source);
      SelectShape(m, r, packet);
      var s := Select(m, r, packet);
      assert s.hist.log == st.hist.log;
      if result.packet.Some? {
        NextOffered(m, k, s, result.packet.value);
        FeedPacketFate(m, k, s, result.packet.value);
      }
    }
  }

  lemma NextOffered(m: Media, k: Params, st: St, p: Packet)
    requires Next(m, k, st) && |st.hist.events| > 0
    requires var e := st.hist.events[|st.hist.events| - 1]; e.Source? && e.kept == Some(p)
    ensures Offered(st, p)
  {
    hide Base, Waiting, Holding;
  }
}
