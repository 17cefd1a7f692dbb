/** The one way a clock reset can slip into a titled stream's segments: once an SDT packet has captured
    the clock, resets of the video's own clock go unnoticed. */
module HlsCaptureExample {
  import opened Ts
  import opened HlsModel
  import opened HlsInvariants
  import opened HlsSteps
  import opened HlsRuns
  import opened HlsTheorems
  import opened HlsDrive
  import opened HlsConfig
  import opened HlsPanicExample
  import opened TsTables
  import opened TsSamples

  // ----- Behind a full run ----------------------------------------------------------------

  /** An SDT packet behind a full run is dropped, but the clock has seen it. */
  lemma HoldStep(m: Media, k: Params, st: St, p: Packet)
    requires InRun(m, k, st, k.maxPackets, st.clock) && m.audioPcrPid(st.audio.seen).None?
    requires Filtered(st.access.title, p) && !Marked(p) && Learns(m, Bare(st.access), p).0 == Bare(st.access)
    requires !ClockObserve(st.clock, TsTiming(p)).1.Reset?
    ensures var r := FeedPacket(m, k, st, p);
            && InRun(m, k, r, k.maxPackets, ClockObserve(st.clock, TsTiming(p)).0)
            && Bare(r.access) == Bare(st.access) && r.audio == st.audio && r.hist == st.hist
            && r.pending == st.pending && r.mark == st.mark
  {
    hide Observe, TsTiming, AccessInv, Rebases, TablePrefix, ClockObserve, Learns;
    ObserveInv(m, st.access, p, Since(st));
    LearnsSame(m, st.access, p, Since(st));
    ObserveClockKeeps(m, st, TsTiming(p));
  }

  lemma LearnsSame(m: Media, a: Access, p: Packet, since: nat)
    requires Learns(m, Bare(a), p).0 == Bare(a)
    ensures Bare(Observe(m, a, p, since).0) == Bare(a)
    ensures Observe(m, a, p, since).0.title == a.title
  {
    LearnsBare(m, a, p, since);
  }

  /** The clock a forced cut restarts. */
  function Restarts(c: Clock): Clock {
    Clock(c.pid, c.last, c.last)
  }

  /** A packet that the clock ignores forces out a full run that has reached its target. */
  lemma ForceStep(m: Media, k: Params, st: St, p: Packet)
    requires InRun(m, k, st, k.maxPackets, st.clock) && m.audioPcrPid(st.audio.seen).None?
    requires !Filtered(st.access.title, p) && !Marked(p) && Learns(m, Bare(st.access), p).0 == Bare(st.access)
    requires ClockObserve(st.clock, TsTiming(p)).1.Ignored? && TargetReached(k, st.clock)
    requires TablePrefix(m, st.access).Some?
    ensures var r := FeedPacket(m, k, st, p);
            && InRun(m, k, r, PrefixLen(st.access.title) + 1, Restarts(st.clock))
            && Bare(r.access) == Bare(st.access) && r.audio.seen == st.audio.seen && r.hist.events == st.hist.events
            && !r.pending && r.mark.chain == st.mark.chain && Published(st, r)
            && r.hist.log[|st.hist.log|].mark == st.mark && r.hist.log[|st.hist.log|].upto == Last(st.hist)
  {
    hide Observe, TsTiming, AccessInv, TablePrefix, Learns, Emit;
    ObserveInv(m, st.access, p, Since(st));
    LearnsSame(m, st.access, p, Since(st));
    var access := Observe(m, st.access, p, Since(st)).0;
    PrefixSame(m, st.access, access);
    var s := st.(access := access);
    EmitShape(m, k, s, |s.cur|, Elapsed(s.clock).value);
    EmitPublishes(m, k, s, |s.cur|, Elapsed(s.clock).value);
    PrefixIsTables(m, access);
    EmitWf(m, k, s, |s.cur|, Elapsed(s.clock).value);
    assert s.cur[|s.cur|..] == [];
    ForceRest(m, k, s, p);
  }

  lemma PrefixSame(m: Media, a: Access, a': Access)
    requires Bare(a) == Bare(a')
    ensures TablePrefix(m, a) == TablePrefix(m, a')
  {
  }

  lemma ForceRest(m: Media, k: Params, s: St, p: Packet)
    requires InRun(m, k, s, k.maxPackets, s.clock) && TargetReached(k, s.clock) && !Marked(p)
    requires TablePrefix(m, s.access).Some?
    ensures var t := TsTiming(p);
            && InRun(m, k, Force(m, k, s, p, t), PrefixLen(s.access.title) + 1, Restarts(s.clock))
            && Force(m, k, s, p, t).access == s.access
  {
    hide TsTiming, AccessInv, TablePrefix, Emit;
    var t, duration := TsTiming(p), Elapsed(s.clock).value;
    EmitShape(m, k, s, |s.cur|, duration);
    EmitPublishes(m, k, s, |s.cur|, duration);
    EmitWf(m, k, s, |s.cur|, duration);
    PrefixIsTables(m, s.access);
    ForceWf(m, k, s, p, t);
  }

  // ----- The events on record -------------------------------------------------------------

  /** The events are these packets, passed through by the audio selection. */
  ghost predicate Shown(events: seq<Event>, ps: seq<Packet>) {
    && |events| == |ps|
    && forall i | 0 <= i < |ps| ::
         events[i].Source? && events[i].kept == Some(ps[i]) && events[i].reading == TsTiming(ps[i])
  }

  lemma TakenShown(m: Media, st: St, p: Packet, ps: seq<Packet>)
    requires Shown(st.hist.events, ps) && Passes(m, st.strict, st.audio.seen, p) && !Marked(p)
    ensures Shown(Taken(m, st, p).hist.events, ps + [p]) && Last(Taken(m, st, p).hist) == |ps|
  {
    hide TsTiming;
    assert TsTiming(p).(discontinuity := false) == TsTiming(p);
    var events, ps' := Taken(m, st, p).hist.events, ps + [p];
    forall i | 0 <= i < |ps'|
      ensures events[i].Source? && events[i].kept == Some(ps'[i]) && events[i].reading == TsTiming(ps'[i])
    {
      if i < |ps| {
        assert events[i] == st.hist.events[i];
      }
    }
  }

  lemma FeedHold(m: Media, k: Params, st: St, p: Packet, ps: seq<Packet>)
    requires InRun(m, k, st, k.maxPackets, st.clock) && st.audio.seen == ps
    requires Shown(st.hist.events, ps) && Passes(m, st.strict, ps, p)
    requires Filtered(st.access.title, p) && !Marked(p) && Learns(m, Bare(st.access), p).0 == Bare(st.access)
    requires !ClockObserve(st.clock, TsTiming(p)).1.Reset?
    ensures var r := Feeding(m, k, st, p);
            && InRun(m, k, r, k.maxPackets, ClockObserve(st.clock, TsTiming(p)).0)
            && Bare(r.access) == Bare(st.access) && r.audio.seen == ps + [p] && Shown(r.hist.events, ps + [p])
            && r.hist.log == st.hist.log && r.pending == st.pending && r.mark == st.mark && r.strict == st.strict
  {
    hide FeedPacket, TsTiming, Learns, Feeding, AccessInv, Rebases, Shown, ClockObserve;
    FeedOne(m, k, st, p);
    TakenShown(m, st, p, ps);
    HoldStep(m, k, Taken(m, st, p), p);
  }

  lemma FeedForce(m: Media, k: Params, st: St, p: Packet, ps: seq<Packet>)
    requires InRun(m, k, st, k.maxPackets, st.clock) && st.audio.seen == ps
    requires Shown(st.hist.events, ps) && Passes(m, st.strict, ps, p)
    requires !Filtered(st.access.title, p) && !Marked(p) && Learns(m, Bare(st.access), p).0 == Bare(st.access)
    requires ClockObserve(st.clock, TsTiming(p)).1.Ignored? && TargetReached(k, st.clock)
    requires TablePrefix(m, st.access).Some?
    ensures var r := Feeding(m, k, st, p);
            && InRun(m, k, r, PrefixLen(st.access.title) + 1, Restarts(st.clock))
            && Bare(r.access) == Bare(st.access) && r.audio.seen == ps + [p] && Shown(r.hist.events, ps + [p])
            && !r.pending && r.mark.chain == st.mark.chain && r.strict == st.strict
            && |r.hist.log| == |st.hist.log| + 1
            && var e := r.hist.log[|st.hist.log|];
               e.segment.discontinuity == st.pending && e.mark == st.mark && e.upto == |ps|
  {
    hide FeedPacket, TsTiming, Learns, Feeding, AccessInv, Rebases, Shown, ClockObserve, TargetReached, TablePrefix;
    FeedOne(m, k, st, p);
    TakenShown(m, st, p, ps);
    ForceStep(m, k, Taken(m, st, p), p);
  }

  // ----- The stream -----------------------------------------------------------------------

  /** The packets of the example, and the readings of its three SDT and two video packets. */
  datatype Scene = Scene(g: Program, pat: Packet, pmt: Packet, key: Packet, fill: seq<Packet>, sdt: seq<Packet>,
                         video: seq<Packet>, sdtTicks: seq<Pcr>, videoTicks: seq<Pcr>)

  ghost predicate Reads(p: Packet, pid: nat, tick: Pcr) {
    On(p, pid) && TsTiming(p) == Timing(pid, Some(tick), false)
  }

  /** Filling: neither a table, video nor an SDT packet, and without a PCR. */
  ghost predicate Fills(g: Program, p: Packet) {
    Other(g, p) && TsPid(p) != SDT_PID && TsTiming(p).pcr.None?
  }

  predicate Within(k: Params, tick: Pcr, tick': Pcr) {
    PcrDelta(tick, tick').Some? && PcrDelta(tick, tick').value >= k.target
  }

  /** Tables and an access point without a PCR; filling up to the ceiling; SDT packets whose PCRs
      advance by the target each time; and two video packets between which the video's own PCR goes
      back. */
  ghost predicate Hides(m: Media, k: Params, c: Scene) {
    && |c.sdt| == |c.sdtTicks| == 3 && |c.video| == |c.videoTicks| == 2
    && k.maxPackets >= 4 && |c.fill| == k.maxPackets - 4
    && On(c.pat, 0) && m.patProgram(c.pat) == Some(Some((c.g.number, c.g.pmtPid)))
    && On(c.pmt, c.g.pmtPid) && m.pmtVideo(c.pmt, Some(c.g.number)) == Some(Some((c.g.videoPid, c.g.codec)))
    && On(c.key, c.g.videoPid) && m.randomAccess(c.key, Some(c.g.codec)) && TsTiming(c.key).pcr.None?
    && !Marked(c.pat) && !Marked(c.pmt) && !Marked(c.key)
    && c.g.pmtPid !in {0, SDT_PID} && c.g.videoPid !in {0, SDT_PID, c.g.pmtPid}
    && (forall i | 0 <= i < |c.fill| :: Fills(c.g, c.fill[i]))
    && (forall i | 0 <= i < 3 :: Reads(c.sdt[i], SDT_PID, c.sdtTicks[i]))
    && (forall i | 0 <= i < 2 :: Reads(c.video[i], c.g.videoPid, c.videoTicks[i]))
    && (forall i | 0 <= i < 2 :: Within(k, c.sdtTicks[i], c.sdtTicks[i + 1]))
    && PcrDelta(c.videoTicks[0], c.videoTicks[1]).None?
    && PassesAll(m, false, [], Packets(c))
  }

  function Packets(c: Scene): (r: seq<Packet>)
    requires |c.sdt| == 3 && |c.video| == 2
  {
    [c.pat] + ([c.pmt] + ([c.key] + (c.fill + Second(c))))
  }

  /** From the SDT packet that captures the clock on. */
  function Second(c: Scene): seq<Packet>
    requires |c.sdt| == 3 && |c.video| == 2
  {
    [c.sdt[0]] + ([c.sdt[1]] + ([c.video[0]] + (c.fill + Third(c))))
  }

  function Third(c: Scene): seq<Packet>
    requires |c.sdt| == 3 && |c.video| == 2
  {
    [c.sdt[2]] + ([c.video[1]] + [])
  }

  function TitledTables(c: Scene, pmt: bool): Access {
    Tabled(c.g, c.pat, if pmt then Some(c.pmt) else None).(title := true)
  }

  lemma SceneLearns(m: Media, k: Params, c: Scene)
    requires Hides(m, k, c)
    ensures Learns(m, NewAccess(true, false), c.pat) == (TitledTables(c, false), false)
    ensures Learns(m, TitledTables(c, false), c.pmt) == (TitledTables(c, true), false)
    ensures Learns(m, TitledTables(c, true), c.key) == (TitledTables(c, true), true)
    ensures forall i | 0 <= i < 3 :: Learns(m, TitledTables(c, true), c.sdt[i]).0 == TitledTables(c, true)
    ensures forall i | 0 <= i < 2 :: Learns(m, TitledTables(c, true), c.video[i]).0 == TitledTables(c, true)
    ensures forall i | 0 <= i < |c.fill| :: Learns(m, TitledTables(c, true), c.fill[i]) == (TitledTables(c, true), false)
    ensures TablePrefix(m, TitledTables(c, true)).Some?
  {
    hide TsPid, TsTiming, PassesAll, Within;
    forall i | 0 <= i < 3 ensures Learns(m, TitledTables(c, true), c.sdt[i]).0 == TitledTables(c, true) {
      assert Reads(c.sdt[i], SDT_PID, c.sdtTicks[i]);
    }
    forall i | 0 <= i < 2 ensures Learns(m, TitledTables(c, true), c.video[i]).0 == TitledTables(c, true) {
      assert Reads(c.video[i], c.g.videoPid, c.videoTicks[i]);
    }
    forall i | 0 <= i < |c.fill|
      ensures Learns(m, TitledTables(c, true), c.fill[i]) == (TitledTables(c, true), false)
    {
      assert Fills(c.g, c.fill[i]);
    }
  }

  // ----- Packet by packet -----------------------------------------------------------------

  /** In the middle of the example: packets `ps` are in, the run holds `size` packets, and `entries`
      segments are out. */
  ghost predicate At(m: Media, k: Params, c: Scene, st: St, ps: seq<Packet>, size: nat, clock: Clock, entries: nat) {
    && InRun(m, k, st, size, clock) && !st.strict && Bare(st.access) == TitledTables(c, true)
    && st.audio.seen == ps && Shown(st.hist.events, ps)
    && st.mark.chain == 2 && !st.pending && |st.hist.log| == entries
  }

  function Sdt(tick: Pcr, tick': Pcr): Clock {
    Clock(Some(SDT_PID), Some(tick), Some(tick'))
  }

  lemma AtTitled(m: Media, k: Params, c: Scene, st: St, ps: seq<Packet>, size: nat, clock: Clock, entries: nat)
    requires At(m, k, c, st, ps, size, clock, entries)
    ensures FeedWf(m, k, st) && st.access.title && TagOf(st) == Native
  {
  }

  /** Dropping the `i`-th SDT packet moves the clock on. */
  lemma SdtStep(m: Media, k: Params, c: Scene, st: St, ps: seq<Packet>, i: nat, clock: Clock, clock': Clock, entries: nat,
                rest: seq<Packet>)
    requires Hides(m, k, c) && At(m, k, c, st, ps, k.maxPackets, clock, entries) && i < 3
    requires PassesAll(m, false, ps, [c.sdt[i]] + rest)
    requires clock' == ClockObserve(clock, Timing(SDT_PID, Some(c.sdtTicks[i]), false)).0
    requires clock == CLEARED || (i > 0 && clock.pid == Some(SDT_PID) && clock.last == Some(c.sdtTicks[i - 1]))
    ensures At(m, k, c, Feeding(m, k, st, c.sdt[i]), ps + [c.sdt[i]], k.maxPackets, clock', entries)
    ensures PassesAll(m, false, ps + [c.sdt[i]], rest)
    ensures Run(m, k, st, Feeds([c.sdt[i]] + rest)) == Run(m, k, Feeding(m, k, st, c.sdt[i]), Feeds(rest))
  {
    hide Learns, Feeding, TsTiming, TsPid, Run, Feeds, FeedWf, Passes, Shown, Packets, PassesAll, TitledTables;
    SceneLearns(m, k, c);
    PassesFirst(m, false, ps, c.sdt[i], rest);
    assert Reads(c.sdt[i], SDT_PID, c.sdtTicks[i]);
    assert i > 0 ==> Within(k, c.sdtTicks[i - 1], c.sdtTicks[i - 1 + 1]);
    AtTitled(m, k, c, st, ps, k.maxPackets, clock, entries);
    FeedHold(m, k, st, c.sdt[i], ps);
    RunFeeds(m, k, st, c.sdt[i], rest);
  }

  /** The `i`-th video packet forces a segment out. */
  lemma VideoStep(m: Media, k: Params, c: Scene, st: St, ps: seq<Packet>, i: nat, clock: Clock, entries: nat,
                  rest: seq<Packet>)
    requires Hides(m, k, c) && At(m, k, c, st, ps, k.maxPackets, clock, entries) && i < 2
    requires PassesAll(m, false, ps, [c.video[i]] + rest)
    requires clock.pid == Some(SDT_PID) && TargetReached(k, clock)
    ensures var r := Feeding(m, k, st, c.video[i]);
            && At(m, k, c, r, ps + [c.video[i]], 4, Restarts(clock), entries + 1)
            && !r.hist.log[entries].segment.discontinuity && r.hist.log[entries].mark.chain == 2
            && r.hist.log[entries].upto == |ps|
    ensures PassesAll(m, false, ps + [c.video[i]], rest)
    ensures Run(m, k, st, Feeds([c.video[i]] + rest)) == Run(m, k, Feeding(m, k, st, c.video[i]), Feeds(rest))
  {
    hide Learns, Feeding, TsTiming, TsPid, Run, Feeds, FeedWf, Passes, Shown, Packets, PassesAll, TitledTables, TablePrefix,
         TargetReached;
    SceneLearns(m, k, c);
    PassesFirst(m, false, ps, c.video[i], rest);
    assert Reads(c.video[i], c.g.videoPid, c.videoTicks[i]);
    AtTitled(m, k, c, st, ps, k.maxPackets, clock, entries);
    PrefixSame(m, st.access, TitledTables(c, true));
    FeedForce(m, k, st, c.video[i], ps);
    RunFeeds(m, k, st, c.video[i], rest);
  }

  ghost function FedAll(m: Media, k: Params, st: St, ps: seq<Packet>): (r: St)
    requires FeedWf(m, k, st)
    ensures FeedWf(m, k, r)
    decreases |ps|
  {
    if ps == [] then st else FedAll(m, k, Feeding(m, k, st, ps[0]), ps[1..])
  }

  lemma FillOne(m: Media, k: Params, c: Scene, st: St, ps: seq<Packet>, n: nat, size: nat, clock: Clock, entries: nat,
                rest: seq<Packet>)
    requires Hides(m, k, c) && n < |c.fill| && 0 < size < k.maxPackets && At(m, k, c, st, ps, size, clock, entries)
    requires PassesAll(m, false, ps, [c.fill[n]] + rest)
    ensures At(m, k, c, Feeding(m, k, st, c.fill[n]), ps + [c.fill[n]], size + 1, clock, entries)
    ensures PassesAll(m, false, ps + [c.fill[n]], rest)
    ensures Run(m, k, st, Feeds([c.fill[n]] + rest)) == Run(m, k, Feeding(m, k, st, c.fill[n]), Feeds(rest))
  {
    hide Learns, Feeding, TsTiming, TsPid, Run, Feeds, FeedWf, Passes, Shown, Packets, PassesAll, TitledTables;
    SceneLearns(m, k, c);
    var p := c.fill[n];
    PassesFirst(m, false, ps, p, rest);
    assert Fills(c.g, p);
    AtTitled(m, k, c, st, ps, size, clock, entries);
    TakenShown(m, st, p, ps);
    FeedMid(m, k, st, p, size);
    RunFeeds(m, k, st, p, rest);
  }

  lemma {:induction false} FillSteps(m: Media, k: Params, c: Scene, st: St, ps: seq<Packet>, n: nat, clock: Clock,
                                    entries: nat, rest: seq<Packet>)
    requires Hides(m, k, c) && n <= |c.fill| && At(m, k, c, st, ps, 4 + n, clock, entries)
    requires PassesAll(m, false, ps, c.fill[n..] + rest)
    ensures FeedWf(m, k, st)
    ensures At(m, k, c, FedAll(m, k, st, c.fill[n..]), ps + c.fill[n..], k.maxPackets, clock, entries)
    ensures PassesAll(m, false, ps + c.fill[n..], rest)
    ensures Run(m, k, st, Feeds(c.fill[n..] + rest)) == Run(m, k, FedAll(m, k, st, c.fill[n..]), Feeds(rest))
    decreases |c.fill| - n
  {
    hide Feeding, Run, Feeds, FeedWf, InRun, Shown, PassesAll, Bare, Packets, Fills, Reads, Within;
    AtTitled(m, k, c, st, ps, 4 + n, clock, entries);
    if n == |c.fill| {
      assert c.fill[n..] == [] && [] + rest == rest && ps + [] == ps;
    } else {
      var p, more := c.fill[n], c.fill[n + 1..];
      assert c.fill[n..] == [p] + more && [p] + more + rest == [p] + (more + rest);
      FillOne(m, k, c, st, ps, n, 4 + n, clock, entries, more + rest);
      FillSteps(m, k, c, Feeding(m, k, st, p), ps + [p], n + 1, clock, entries, rest);
      assert ps + [p] + more == ps + ([p] + more);
    }
  }

  // ----- The whole stream -----------------------------------------------------------------

  /** Segment 1 is not flagged, and the last two references of the video's clock that it and the
      packet after it hold go back. */
  ghost predicate Hidden(c: Scene, h: History) {
    var x, y := |c.fill| + 5, 2 * |c.fill| + 7;
    && |c.videoTicks| == 2 && PcrDelta(c.videoTicks[0], c.videoTicks[1]).None?
    && |h.log| == 2 && !h.log[1].segment.discontinuity
    && h.log[1].mark.chain == 2 && h.log[1].upto == y && |h.events| == y + 1
    && ClockPid(h.events, true, 2) == Some(c.g.videoPid)
    && Neighbours(h.events, true, c.g.videoPid, x, y)
    && h.events[x].reading.pcr == Some(c.videoTicks[0]) && h.events[y].reading.pcr == Some(c.videoTicks[1])
  }

  lemma TableIn(m: Media, k: Params, st: St, ps: seq<Packet>, p: Packet, access: Access, access': Access, rest: seq<Packet>)
    requires Idle(m, k, st) && !st.strict && Bare(st.access) == access && access.title && !Marked(p) && !Filtered(true, p)
    requires st.audio.seen == ps && Shown(st.hist.events, ps) && st.hist.log == [] && !st.pending
    requires Learns(m, access, p) == (access', false) && access'.title
    requires PassesAll(m, false, ps, [p] + rest)
    ensures FeedWf(m, k, st)
    ensures var r := Feeding(m, k, st, p);
            && Idle(m, k, r) && !r.strict && Bare(r.access) == access'
            && r.audio.seen == ps + [p] && Shown(r.hist.events, ps + [p]) && r.hist.log == [] && !r.pending
            && Run(m, k, st, Feeds([p] + rest)) == Run(m, k, r, Feeds(rest))
    ensures PassesAll(m, false, ps + [p], rest)
  {
    hide Learns, Feeding, TsTiming, Run, Feeds, FeedWf, Passes, Shown, PassesAll;
    PassesFirst(m, false, ps, p, rest);
    TakenShown(m, st, p, ps);
    FeedTable(m, k, st, p);
    RunFeeds(m, k, st, p, rest);
  }

  lemma KeyIn(m: Media, k: Params, c: Scene, st: St, ps: seq<Packet>, rest: seq<Packet>)
    requires Hides(m, k, c) && Idle(m, k, st) && !st.strict && Bare(st.access) == TitledTables(c, true)
    requires st.audio.seen == ps && Shown(st.hist.events, ps) && |ps| == 2 && st.hist.log == [] && !st.pending
    requires PassesAll(m, false, ps, [c.key] + rest)
    ensures FeedWf(m, k, st)
    ensures At(m, k, c, Feeding(m, k, st, c.key), ps + [c.key], 4, CLEARED, 0)
    ensures PassesAll(m, false, ps + [c.key], rest)
    ensures Run(m, k, st, Feeds([c.key] + rest)) == Run(m, k, Feeding(m, k, st, c.key), Feeds(rest))
  {
    hide Learns, Feeding, TsTiming, TsPid, Run, Feeds, FeedWf, Passes, Shown, PassesAll, Packets, Reads, Fills, Within;
    SceneLearns(m, k, c);
    PassesFirst(m, false, ps, c.key, rest);
    TakenShown(m, st, c.key, ps);
    FeedOpen(m, k, st, c.key);
    RunFeeds(m, k, st, c.key, rest);
  }

  lemma WithinReaches(k: Params, c: Scene, t0: Pcr, t1: Pcr, t2: Pcr)
    requires |c.sdtTicks| == 3 && t0 == c.sdtTicks[0] && t1 == c.sdtTicks[1] && t2 == c.sdtTicks[2]
    requires forall i | 0 <= i < 2 :: Within(k, c.sdtTicks[i], c.sdtTicks[i + 1])
    ensures TargetReached(k, Sdt(t0, t1)) && TargetReached(k, Sdt(t1, t2))
    ensures PcrDelta(t0, t1).Some? && PcrDelta(t1, t2).Some?
  {
    assert Within(k, c.sdtTicks[0], c.sdtTicks[0 + 1]);
    assert Within(k, c.sdtTicks[1], c.sdtTicks[1 + 1]);
  }

  /** The second full run is forced out across the reset. */
  lemma ThirdHides(m: Media, k: Params, c: Scene, st: St, ps: seq<Packet>)
    requires Hides(m, k, c) && At(m, k, c, st, ps, k.maxPackets, Sdt(c.sdtTicks[1], c.sdtTicks[1]), 1)
    requires ps + Third(c) == Packets(c) && PassesAll(m, false, ps, Third(c))
    ensures FeedWf(m, k, st) && Hidden(c, Run(m, k, st, Feeds(Third(c))).hist)
  {
    hide Feeding, Run, Feeds, FeedWf, InRun, Shown, PassesAll, Within, Reads, Fills, TsTiming, TsPid, TitledTables, Bare,
         Neighbours, ClockPid;
    AtTitled(m, k, c, st, ps, k.maxPackets, Sdt(c.sdtTicks[1], c.sdtTicks[1]), 1);
    var t1, t2 := c.sdtTicks[1], c.sdtTicks[2];
    WithinReaches(k, c, c.sdtTicks[0], t1, t2);
    SdtStep(m, k, c, st, ps, 2, Sdt(t1, t1), Sdt(t1, t2), 1, [c.video[1]] + []);
    var s7 := Feeding(m, k, st, c.sdt[2]);
    VideoStep(m, k, c, s7, ps + [c.sdt[2]], 1, Sdt(t1, t2), 1, []);
    var s8 := Feeding(m, k, s7, c.video[1]);
    EmptyRun(m, k, s8, Native);
    assert ps + [c.sdt[2]] + [c.video[1]] == ps + Third(c);
    PacketsSize(c);
    EventsHide(m, k, c, s8.hist.events);
  }

  lemma PacketsSize(c: Scene)
    requires |c.sdt| == 3 && |c.video| == 2
    ensures |Packets(c)| == 2 * |c.fill| + 8 && |Third(c)| == 2
  {
  }

  /** The first full run is captured, and forced out by a video packet. */
  lemma SecondHides(m: Media, k: Params, c: Scene, st: St, ps: seq<Packet>)
    requires Hides(m, k, c) && At(m, k, c, st, ps, k.maxPackets, CLEARED, 0)
    requires ps + Second(c) == Packets(c) && PassesAll(m, false, ps, Second(c))
    ensures FeedWf(m, k, st) && Hidden(c, Run(m, k, st, Feeds(Second(c))).hist)
  {
    hide Feeding, Run, Feeds, FeedWf, InRun, Shown, PassesAll, Within, Reads, Fills, TsTiming, TsPid, TitledTables, Bare,
         Hidden, Packets, Third;
    AtTitled(m, k, c, st, ps, k.maxPackets, CLEARED, 0);
    var t0, t1 := c.sdtTicks[0], c.sdtTicks[1];
    WithinReaches(k, c, t0, t1, c.sdtTicks[2]);
    var rest := c.fill + Third(c);
    SdtStep(m, k, c, st, ps, 0, CLEARED, Sdt(t0, t0), 0, [c.sdt[1]] + ([c.video[0]] + rest));
    var s4, ps4 := Feeding(m, k, st, c.sdt[0]), ps + [c.sdt[0]];
    SdtStep(m, k, c, s4, ps4, 1, Sdt(t0, t0), Sdt(t0, t1), 0, [c.video[0]] + rest);
    var s5, ps5 := Feeding(m, k, s4, c.sdt[1]), ps4 + [c.sdt[1]];
    VideoStep(m, k, c, s5, ps5, 0, Sdt(t0, t1), 0, rest);
    var s6, ps6 := Feeding(m, k, s5, c.video[0]), ps5 + [c.video[0]];
    assert c.fill[0..] == c.fill;
    FillSteps(m, k, c, s6, ps6, 0, Sdt(t1, t1), 1, Third(c));
    assert ps6 + c.fill + Third(c) == ps + Second(c);
    ThirdHides(m, k, c, FedAll(m, k, s6, c.fill), ps6 + c.fill);
  }

  lemma StreamHides(m: Media, k: Params, c: Scene)
    requires ValidParams(k) && Hides(m, k, c)
    ensures FeedWf(m, k, Initial(k, true, false))
    ensures Hidden(c, Run(m, k, Initial(k, true, false), Feeds(Packets(c))).hist)
  {
    hide Learns, Feeding, Run, Feeds, FeedWf, Idle, InRun, Shown, PassesAll, Initial, Bare, Reads, Fills, Within, TsTiming, TsPid,
         Hidden, Second;
    var s0 := Initial(k, true, false);
    InitialTitled(m, k);
    SceneLearns(m, k, c);
    var rest := c.fill + Second(c);
    TableIn(m, k, s0, [], c.pat, NewAccess(true, false), TitledTables(c, false), [c.pmt] + ([c.key] + rest));
    var s1, ps1 := Feeding(m, k, s0, c.pat), [] + [c.pat];
    TableIn(m, k, s1, ps1, c.pmt, TitledTables(c, false), TitledTables(c, true), [c.key] + rest);
    var s2, ps2 := Feeding(m, k, s1, c.pmt), ps1 + [c.pmt];
    KeyIn(m, k, c, s2, ps2, rest);
    var s3, ps3 := Feeding(m, k, s2, c.key), ps2 + [c.key];
    assert c.fill[0..] == c.fill;
    FillSteps(m, k, c, s3, ps3, 0, CLEARED, 0, Second(c));
    assert ps3 + c.fill + Second(c) == Packets(c);
    SecondHides(m, k, c, FedAll(m, k, s3, c.fill), ps3 + c.fill);
  }

  lemma InitialTitled(m: Media, k: Params)
    requires ValidParams(k)
    ensures var st := Initial(k, true, false);
            && FeedWf(m, k, st) && Idle(m, k, st) && !st.strict
            && Bare(st.access) == NewAccess(true, false) && st.audio.seen == [] && Shown(st.hist.events, [])
            && st.hist.log == [] && !st.pending
  {
  }

  // ----- What the events show -------------------------------------------------------------

  lemma {:induction false} FirstTick(events: seq<Event>, title: bool, chain: nat, x: nat)
    requires chain <= x < |events| && Ticks(title, events[x]) && forall z | chain <= z < x :: !Ticks(title, events[z])
    ensures ClockPid(events, title, chain) == Some(events[x].reading.pid)
    decreases |events|
  {
    if x < |events| - 1 {
      FirstTick(events[..|events| - 1], title, chain, x);
    } else {
      NoTick(events[..x], title, chain);
    }
  }

  lemma {:induction false} NoTick(events: seq<Event>, title: bool, chain: nat)
    requires forall z | chain <= z < |events| :: !Ticks(title, events[z])
    ensures ClockPid(events, title, chain).None?
    decreases |events|
  {
    if chain < |events| {
      NoTick(events[..|events| - 1], title, chain);
    }
  }

  /** Where each packet stands. */
  lemma PacketAt(c: Scene)
    requires |c.sdt| == 3 && |c.video| == 2
    ensures var ps, f := Packets(c), |c.fill|;
            && |ps| == 2 * f + 8 && ps[2] == c.key
            && (forall z | 3 <= z < f + 3 :: ps[z] == c.fill[z - 3])
            && ps[f + 3] == c.sdt[0] && ps[f + 4] == c.sdt[1] && ps[f + 5] == c.video[0]
            && (forall z | f + 6 <= z < 2 * f + 6 :: ps[z] == c.fill[z - f - 6])
            && ps[2 * f + 6] == c.sdt[2] && ps[2 * f + 7] == c.video[1]
  {
  }

  /** Only video brings clock references into the segments. */
  lemma SilentAt(m: Media, k: Params, c: Scene, events: seq<Event>, z: nat)
    requires Hides(m, k, c) && Shown(events, Packets(c)) && 2 <= z < 2 * |c.fill| + 7 && z != |c.fill| + 5
    ensures |events| == 2 * |c.fill| + 8 && !Ticks(true, events[z])
  {
    hide TsTiming, TsPid, PassesAll, Within, Packets;
    PacketAt(c);
    var f := |c.fill|;
    if 3 <= z < f + 3 {
      assert Fills(c.g, c.fill[z - 3]);
    } else if f + 6 <= z < 2 * f + 6 {
      assert Fills(c.g, c.fill[z - f - 6]);
    } else {
      assert Reads(c.sdt[0], SDT_PID, c.sdtTicks[0]) && Reads(c.sdt[1], SDT_PID, c.sdtTicks[1])
          && Reads(c.sdt[2], SDT_PID, c.sdtTicks[2]);
    }
  }

  lemma EventsHide(m: Media, k: Params, c: Scene, events: seq<Event>)
    requires Hides(m, k, c) && Shown(events, Packets(c))
    ensures var x, y := |c.fill| + 5, 2 * |c.fill| + 7;
            && |events| == y + 1
            && ClockPid(events, true, 2) == Some(c.g.videoPid)
            && Neighbours(events, true, c.g.videoPid, x, y)
            && events[x].reading.pcr == Some(c.videoTicks[0]) && events[y].reading.pcr == Some(c.videoTicks[1])
  {
    hide TsTiming, TsPid, PassesAll, Within, Packets, ClockPid, Fills;
    PacketAt(c);
    var x, y := |c.fill| + 5, 2 * |c.fill| + 7;
    assert Reads(c.video[0], c.g.videoPid, c.videoTicks[0]) && Reads(c.video[1], c.g.videoPid, c.videoTicks[1]);
    forall z | 2 <= z < y && z != x ensures !Ticks(true, events[z]) {
      SilentAt(m, k, c, events, z);
    }
    FirstTick(events, true, 2, x);
  }

  /** Every such stream makes a titled packager, of any ceiling, publish an unflagged segment across a
      reset of the video's clock. */
  lemma ResetGoesUnnoticed(m: Media, k: Params, c: Scene, st: St)
    requires ValidParams(k) && Hides(m, k, c)
    requires Reachable(m, k, true, false, Feeds(Packets(c)), st)
    ensures Hidden(c, st.hist) && Captured(true, st.hist.log[1].pid)
  {
    hide Run, Feeds, FeedWf, Initial, PassesAll, Reads, Fills, Within, TsTiming, TsPid, Neighbours, ClockPid;
    StreamHides(m, k, c);
    assert st.hist.events[..2 * |c.fill| + 8] == st.hist.events;
    ClockIsSteady(m, k, true, false, Feeds(Packets(c)), st, 1);
    CapturedExactly(m, k, true, false, Feeds(Packets(c)), st, 1);
  }

  // ----- A transport that does so ---------------------------------------------------------

  /** Two programs, as the parsers read them, whose SDT carries a clock that advances by `ticks`. */
  function Sample(n: nat, ticks: Pcr): Scene
    requires n >= 4 && 2 * ticks < PCR_MODULUS
  {
    Scene(FIRST, Pat(), Pmt(), ClockPacket(0x101, true, false, 0), Filling(n - 4),
          [ClockPacket(0x11, false, true, 0), ClockPacket(0x11, false, true, ticks), ClockPacket(0x11, false, true, 2 * ticks)],
          [ClockPacket(0x101, false, true, 1), ClockPacket(0x101, false, true, 0)],
          [0, ticks, 2 * ticks], [1, 0])
  }

  lemma SampleDetached(n: nat, ticks: Pcr, crc: seq<byte> -> nat)
    requires n >= 4 && 2 * ticks < PCR_MODULUS
    ensures var ps := Packets(Sample(n, ticks)); forall i | 0 <= i < |ps| :: Detach(ps[i], crc).Pass?
  {
    hide TsPid, TsTiming, Pat, Pmt, NullPacket, ClockPacket, Detach, Packets;
    ClockFields(0x101, true, false, 0);
    ClockFields(0x11, false, true, 0);
    ClockFields(0x11, false, true, ticks);
    ClockFields(0x11, false, true, 2 * ticks);
    ClockFields(0x101, false, true, 1);
    ClockFields(0x101, false, true, 0);
    var c := Sample(n, ticks);
    var ps := Packets(c);
    PacketAt(c);
    PacketHead(c);
    forall i | 0 <= i < |ps| ensures Detach(ps[i], crc).Pass? {
      SamplesPass(ps[i], crc);
    }
  }

  lemma PacketHead(c: Scene)
    requires |c.sdt| == 3 && |c.video| == 2
    ensures |Packets(c)| >= 2 && Packets(c)[0] == c.pat && Packets(c)[1] == c.pmt
  {
  }

  lemma SampleHides(k: Params, rest: Media, crc: seq<byte> -> nat)
    requires k.maxPackets >= 4 && k.target <= PCR_MODULUS / 4
    ensures Hides(TransportMedia(rest, crc), k, Sample(k.maxPackets, k.target))
  {
    hide TsPid, TsTiming, TwoPrograms, Pmt, NullPacket, ClockPacket, TransportMedia, PassesAll, ParsePat, ParsePmt, StartsUnit,
         RandomAccessFlag, Detach, Packets;
    var c, ticks := Sample(k.maxPackets, k.target), k.target;
    SampleTables(rest, crc);
    PatFields(1, [0x07, 0x73, 0x21, 0x0a]);
    PmtFields(Pmt());
    NullFields();
    ClockFields(0x101, true, false, 0);
    ClockFields(0x11, false, true, 0);
    ClockFields(0x11, false, true, ticks);
    ClockFields(0x11, false, true, 2 * ticks);
    ClockFields(0x101, false, true, 1);
    ClockFields(0x101, false, true, 0);
    SampleDetached(k.maxPackets, ticks, crc);
    StreamPasses(rest, crc, false, [], Packets(c));
    assert Within(k, 0, ticks) && Within(k, ticks, 2 * ticks);
  }

  /** The packager's own parsers let it happen under every accepted configuration with room for four
      packets. */
  lemma ResetHappens(c: Config, rest: Media, crc: seq<byte> -> nat)
    requires Validate(c, ISIZE_MAX) == Accepted && c.segmentPackets >= 4 && c.segmentMs * 90 <= PCR_MODULUS / 4
    ensures var m, k, scene := TransportMedia(rest, crc), Effective(c), Sample(c.segmentPackets, c.segmentMs * 90);
            && FeedWf(m, k, Initial(k, true, false))
            && Hidden(scene, Run(m, k, Initial(k, true, false), Feeds(Packets(scene))).hist)
  {
    hide Validate, Effective, TransportMedia, Feeds, Packets, Hides, Hidden, FeedWf, Initial, Run, Filling;
    Limits(c);
    SampleHides(Effective(c), rest, crc);
    StreamHides(TransportMedia(rest, crc), Effective(c), Sample(c.segmentPackets, c.segmentMs * 90));
  }
}
