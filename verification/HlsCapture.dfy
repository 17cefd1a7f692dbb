/** When a clock is captured: a packet beyond a full run is shown to the clock before upstream SDT
    packets are dropped, so an SDT packet with a PCR can capture a clock that has not started. */
module HlsCapture {
  import opened Ts
  import opened HlsModel
  import opened HlsInvariants
  import opened HlsSteps

  /** A packet captures the clock exactly when it meets a full run, carries no marker, is an upstream
      SDT packet with a PCR, and no PCR has started the clock yet. */
  lemma CapturesExactly(m: Media, k: Params, st: St, packet: Packet)
    requires Next(m, k, st) && !st.awaiting && Offered(st, packet) && !st.panicked
    requires !Captured(st.access.title, st.clock.pid)
    ensures Captured(st.access.title, FeedPacket(m, k, st, packet).clock.pid) <==>
              && |st.cur| == k.maxPackets && !Marked(packet) && Filtered(st.access.title, packet)
              && st.clock.pid.None? && Selected(m, st.audio.seen, TsTiming(packet)).pcr.Some?
  {
    hide Ledger, AudioOk, Cached, Ahead, Tracks, Offered, Lookahead, Scan, TsTiming, ScanWf;
    RunWf(m, k, st);
    if |st.cur| == k.maxPackets {
      LookaheadCaptures(m, k, st, packet);
    } else {
      AppendWf(m, k, st, packet);
      ScanUncaptured(m, k, Append(st, packet));
    }
  }

  lemma LookaheadCaptures(m: Media, k: Params, st: St, packet: Packet)
    requires ScanWf(m, k, st) && st.filterSdt == st.access.title && !st.dedupe && !Captured(st.access.title, st.clock.pid)
    ensures Captured(st.access.title, Lookahead(m, k, st, packet).clock.pid) <==>
              && !Marked(packet) && Filtered(st.access.title, packet)
              && st.clock.pid.None? && Selected(m, st.audio.seen, TsTiming(packet)).pcr.Some?
  {
    hide AccessInv, Observe, Timed, TsTiming, Rebases, TablePrefix, ClockObserve;
    ObserveInv(m, st.access, packet, Since(st));
    if !Marked(packet) {
      assert TsTiming(packet).(discontinuity := false) == TsTiming(packet);
      TimedCaptures(m, k, st.(access := Observe(m, st.access, packet, Since(st)).0), packet,
                    Observe(m, st.access, packet, Since(st)).1);
    }
  }

  lemma TimedCaptures(m: Media, k: Params, st: St, packet: Packet, isAccess: bool)
    requires k.window >= 1 && st.filterSdt == st.access.title && !Captured(st.access.title, st.clock.pid) && !Marked(packet)
    requires Rebases(st.clock, st.boundary) && (isAccess ==> TablePrefix(m, st.access).Some?)
    ensures Captured(st.access.title, Timed(m, k, st, packet, isAccess, TsTiming(packet)).clock.pid) <==>
              && Filtered(st.access.title, packet)
              && st.clock.pid.None? && Selected(m, st.audio.seen, TsTiming(packet)).pcr.Some?
  {
    hide TsTiming, TablePrefix, Beyond;
    var t := TsTiming(packet);
    TimingPid(packet);
    ObserveClockKeeps(m, st, t);
    var (s, observation) := ObserveClock(m, st, t);
    if !observation.Reset? {
      BeyondUncaptured(m, k, s, packet, isAccess, t);
    }
  }

  /** Whatever follows a full run, once the clock has seen it, captures nothing more. */
  lemma BeyondUncaptured(m: Media, k: Params, st: St, packet: Packet, isAccess: bool, t: Timing)
    requires k.window >= 1 && st.filterSdt == st.access.title && Rebases(st.clock, st.boundary)
    requires isAccess ==> TablePrefix(m, st.access).Some?
    requires t.pcr.Some? ==> t.pid == TsPid(packet)
    ensures var r := Beyond(m, k, st, packet, isAccess, t);
            if Filtered(st.access.title, packet) then r == st
            else Captured(st.access.title, r.clock.pid) ==> Captured(st.access.title, st.clock.pid)
  {
    hide Emit, TablePrefix;
    if TargetReached(k, st.clock) {
      EmitShape(m, k, st, |st.cur|, Elapsed(st.clock).value);
    }
  }

  lemma SortUncaptured(m: Media, k: Params, st: St, i: nat, isAccess: bool, marked: bool, duplicate: bool, t: Timing)
    requires k.window >= 1 && i < |st.cur| && Rebases(st.clock, st.boundary)
    requires isAccess ==> TablePrefix(m, st.access).Some?
    requires st.filterSdt == st.access.title && !Captured(st.access.title, st.clock.pid)
    requires t.pcr.Some? ==> t.pid == TsPid(st.cur[i])
    ensures var r := Sort(m, k, st, i, isAccess, marked, duplicate, t);
            !Captured(st.access.title, r.clock.pid) && r.access.title == st.access.title
  {
    hide TsPid, TablePrefix, Open, Advance, MarkerReset, DropSdt, Rebases, Quiet;
    DropUncaptured(st, i, duplicate);
    if !marked && st.awaiting {
      OpenUncaptured(m, k, st, i, isAccess, duplicate);
    } else if !marked && !(st.filterSdt && TsPid(st.cur[i]) == SDT_PID) {
      AdvanceUncaptured(m, k, st, i, isAccess, t);
    }
  }

  /** The scan loop shows the clock no SDT packet. */
  lemma ScanStepUncaptured(m: Media, k: Params, st: St)
    requires ScanWf(m, k, st) && st.scanned < |st.cur| && st.filterSdt == st.access.title
    requires !Captured(st.access.title, st.clock.pid)
    ensures var r := ScanStep(m, k, st);
            !Captured(st.access.title, r.clock.pid) && r.access.title == st.access.title
  {
    hide Sort, Notice, TsTiming, TsPid, AccessInv, TablePrefix, Rebases;
    TimingPid(st.cur[st.scanned]);
    var (s, isAccess) := Notice(m, st);
    var t := TsTiming(st.cur[st.scanned]);
    SortUncaptured(m, k, s, st.scanned, isAccess, t.discontinuity && !st.dedupe, t.discontinuity && st.dedupe,
                   t.(discontinuity := false));
  }

  lemma DropUncaptured(st: St, i: nat, duplicate: bool)
    requires i < |st.cur|
    ensures MarkerReset(st, i).clock == CLEARED && MarkerReset(st, i).access.title == st.access.title
    ensures DropSdt(st, i, duplicate).clock == st.clock && DropSdt(st, i, duplicate).access == st.access
  {
  }

  lemma OpenUncaptured(m: Media, k: Params, st: St, i: nat, isAccess: bool, duplicate: bool)
    requires i < |st.cur|
    ensures var r := Open(m, k, st, i, isAccess, duplicate); r.clock == st.clock && r.access == st.access
  {
    hide TablePrefix, Quiet;
  }

  lemma AdvanceUncaptured(m: Media, k: Params, st: St, i: nat, isAccess: bool, t: Timing)
    requires k.window >= 1 && i < |st.cur| && Rebases(st.clock, st.boundary)
    requires isAccess ==> TablePrefix(m, st.access).Some?
    requires !Captured(st.access.title, st.clock.pid) && (st.access.title && t.pcr.Some? ==> t.pid != SDT_PID)
    ensures var r := Advance(m, k, st, i, isAccess, t);
            !Captured(st.access.title, r.clock.pid) && r.access.title == st.access.title
  {
    hide Cut, ClockReset, TablePrefix, Rebases, ObserveClock, Quiet, Captured;
    ObserveClockKeeps(m, st, t);
    ObserveUncaptured(m, st, t);
    var (s, observation) := ObserveClock(m, st, t);
    var r := Advance(m, k, st, i, isAccess, t);
    if observation.Reset? {
      ResetShape(s, i);
      assert r == ClockReset(s, i);
    } else if i > 0 && TargetReached(k, s.clock) && isAccess {
      CutClock(m, k, s, i, Elapsed(s.clock).value);
      assert r == Cut(m, k, s, i, Elapsed(s.clock).value);
    } else {
      assert r == s.(scanned := i + 1);
    }
  }

  lemma ObserveUncaptured(m: Media, st: St, t: Timing)
    requires !Captured(st.access.title, st.clock.pid) && (st.access.title && t.pcr.Some? ==> t.pid != SDT_PID)
    ensures !Captured(st.access.title, ObserveClock(m, st, t).0.clock.pid)
  {
  }

  lemma ResetShape(st: St, i: nat)
    requires i < |st.cur|
    ensures var r := ClockReset(st, i); r.clock == st.clock && r.access.title == st.access.title
  {
  }

  lemma CutClock(m: Media, k: Params, st: St, i: nat, duration: nat)
    requires k.window >= 1 && i < |st.cur| && TablePrefix(m, st.access).Some? && Rebases(st.clock, st.boundary)
    ensures var r := Cut(m, k, st, i, duration); r.clock.pid == st.clock.pid && r.access == st.access
  {
    hide Emit, TablePrefix;
    EmitShape(m, k, st, i, duration);
  }

  lemma {:induction false} ScanUncaptured(m: Media, k: Params, st: St)
    requires ScanWf(m, k, st) && st.filterSdt == st.access.title && !Captured(st.access.title, st.clock.pid)
    ensures !Captured(st.access.title, Scan(m, k, st).clock.pid)
    decreases |st.cur| - st.scanned, st.awaiting, WouldReach(m, k, st)
  {
    hide ScanStep, AccessInv, Rebases, PublicInv;
    if st.scanned < |st.cur| {
      ScanStepProgress(m, k, st);
      ScanStepFrame(m, k, st);
      ScanStepUncaptured(m, k, st);
      ScanUncaptured(m, k, ScanStep(m, k, st));
    }
  }

  lemma TimingPid(p: Packet)
    ensures TsTiming(p).pcr.Some? ==> TsTiming(p).pid == TsPid(p)
  {
  }
}
