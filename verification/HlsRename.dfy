/** A PAT that renames the program inside a run panics every packager whose audio selection passes
    the stream through. */
module HlsRename {
  import opened Ts
  import opened HlsModel
  import opened HlsInvariants
  import opened HlsRuns
  import opened HlsPanic
  import opened HlsDrive

  /** The ceiling is met on a packet past the target, and there are no tables to go on with. */
  lemma BlindStep(m: Media, k: Params, st: St, p: Packet, pid: nat, tick: Pcr, tick': Pcr)
    requires InRun(m, k, st, k.maxPackets, Clock(Some(pid), Some(tick), Some(tick))) && !st.strict
    requires m.audioPcrPid(st.audio.seen).None?
    requires TsTiming(p) == Timing(pid, Some(tick'), false)
    requires PcrDelta(tick, tick').Some? && PcrDelta(tick, tick').value >= k.target
    requires TablePrefix(m, Learns(m, Bare(st.access), p).0).None? && !Filtered(st.access.title, p)
    ensures FeedPacket(m, k, st, p).panicked
  {
    hide Observe, TsTiming, AccessInv, Rebases, Lookahead;
    LearnsBare(m, st.access, p, Since(st));
    LookaheadPanics(m, k, st, p);
  }

  /** A PAT that names another first program, or another PID for it, or none. */
  ghost predicate Renames(m: Media, g: Program, pat: Packet) {
    && On(pat, 0) && !Marked(pat) && TsTiming(pat).pcr.None?
    && m.patProgram(pat).Some? && m.patProgram(pat).value != Some((g.number, g.pmtPid))
    && (m.patProgram(pat).value.Some? ==> m.patProgram(pat).value.value.1 != g.videoPid)
  }

  lemma RenamesLearns(m: Media, g: Program, pat: Packet, pmt: Packet, pat': Packet, video: Packet)
    requires Renames(m, g, pat') && On(video, g.videoPid) && g.videoPid != 0
    ensures var a := Learns(m, Tabled(g, pat, Some(pmt)), pat');
            !a.1 && TablePrefix(m, Learns(m, a.0, video).0).None?
  {
    hide TsPid, TsTiming;
  }

  lemma FeedBlind(m: Media, k: Params, st: St, p: Packet, pid: nat, tick: Pcr, tick': Pcr)
    requires InRun(m, k, st, k.maxPackets, Clock(Some(pid), Some(tick), Some(tick))) && !st.strict
    requires Passes(m, st.strict, st.audio.seen, p) && TsTiming(p) == Timing(pid, Some(tick'), false)
    requires PcrDelta(tick, tick').Some? && PcrDelta(tick, tick').value >= k.target
    requires TablePrefix(m, Learns(m, Bare(st.access), p).0).None? && !Filtered(st.access.title, p)
    ensures Feeding(m, k, st, p).panicked
  {
    hide FeedPacket, TsTiming, Learns, Feeding, AccessInv, Rebases, TablePrefix;
    FeedOne(m, k, st, p);
    BlindStep(m, k, Taken(m, st, p), p, pid, tick, tick');
  }

  /** The end of the stream: the rename, and a packet past the target. */
  lemma RenameStep(m: Media, k: Params, st: St, g: Program, pat: Packet, pmt: Packet, pat': Packet, video: Packet,
                   tick: Pcr, tick': Pcr)
    requires k.maxPackets >= 4 && InRun(m, k, st, k.maxPackets - 1, Clock(Some(g.videoPid), Some(tick), Some(tick))) && !st.strict
    requires Bare(st.access) == Tabled(g, pat, Some(pmt)) && PassesAll(m, false, st.audio.seen, [pat', video])
    requires Renames(m, g, pat') && On(video, g.videoPid) && g.videoPid != 0
    requires TsTiming(video) == Timing(g.videoPid, Some(tick'), false)
    requires PcrDelta(tick, tick').Some? && PcrDelta(tick, tick').value >= k.target
    ensures Run(m, k, st, Feeds([pat', video])).panicked
  {
    hide Learns, Feeding, TsTiming, TsPid, Run, Feeds, FeedWf, Passes, TablePrefix;
    assert [pat', video] == [pat'] + [video] && [video] == [video] + [];
    PassesFirst(m, false, st.audio.seen, pat', [video]);
    PassesFirst(m, false, st.audio.seen + [pat'], video, []);
    RenamesLearns(m, g, pat, pmt, pat', video);
    FeedMid(m, k, st, pat', k.maxPackets - 1);
    var s := Feeding(m, k, st, pat');
    FeedBlind(m, k, s, video, g.videoPid, tick, tick');
    RunFeeds(m, k, st, pat', [video]);
    RunFeeds(m, k, s, video, []);
    EmptyRun(m, k, Feeding(m, k, s, video), TagOf(st));
  }

  /** The middle of the stream fills the run up to its ceiling, less one. */
  lemma {:induction false} FillStep(m: Media, k: Params, st: St, g: Program, pat: Packet, pmt: Packet,
                                   fill: seq<Packet>, pat': Packet, video: Packet, tick: Pcr, tick': Pcr)
    requires k.maxPackets >= 4 && |fill| <= k.maxPackets - 4
    requires InRun(m, k, st, k.maxPackets - 1 - |fill|, Clock(Some(g.videoPid), Some(tick), Some(tick))) && !st.strict
    requires Bare(st.access) == Tabled(g, pat, Some(pmt)) && PassesAll(m, false, st.audio.seen, fill + [pat', video])
    requires forall i | 0 <= i < |fill| :: Other(g, fill[i])
    requires Renames(m, g, pat') && On(video, g.videoPid) && g.videoPid != 0
    requires TsTiming(video) == Timing(g.videoPid, Some(tick'), false)
    requires PcrDelta(tick, tick').Some? && PcrDelta(tick, tick').value >= k.target
    ensures Run(m, k, st, Feeds(fill + [pat', video])).panicked
    decreases |fill|
  {
    hide Learns, Feeding, TsTiming, TsPid, Run, Feeds, FeedWf, Passes, Renames;
    if fill == [] {
      assert fill + [pat', video] == [pat', video];
      RenameStep(m, k, st, g, pat, pmt, pat', video, tick, tick');
    } else {
      var p, rest := fill[0], fill[1..];
      assert fill + [pat', video] == [p] + (rest + [pat', video]);
      PassesFirst(m, false, st.audio.seen, p, rest + [pat', video]);
      OtherLearns(m, g, pat, pmt, p);
      FeedMid(m, k, st, p, k.maxPackets - 1 - |fill|);
      FillStep(m, k, Feeding(m, k, st, p), g, pat, pmt, rest, pat', video, tick, tick');
      RunFeeds(m, k, st, p, rest + [pat', video]);
    }
  }

  /** The conditions on the rest of the stream. */
  ghost predicate Ends(m: Media, k: Params, g: Program, fill: seq<Packet>, pat: Packet, video: Packet, tick: Pcr, tick': Pcr) {
    && k.maxPackets >= 4 && |fill| == k.maxPackets - 4
    && (forall i | 0 <= i < |fill| :: Other(g, fill[i]))
    && Renames(m, g, pat)
    && On(video, g.videoPid) && TsTiming(video) == Timing(g.videoPid, Some(tick'), false)
    && PcrDelta(tick, tick').Some? && PcrDelta(tick, tick').value >= k.target
  }

  lemma KeyStep(m: Media, k: Params, st: St, g: Program, pat: Packet, pmt: Packet, key: Packet, fill: seq<Packet>,
                pat': Packet, video: Packet, tick: Pcr, tick': Pcr)
    requires Idle(m, k, st) && Bare(st.access) == Tabled(g, pat, Some(pmt)) && !st.strict
    requires Announces(m, g, pat, pmt, key, tick) && Ends(m, k, g, fill, pat', video, tick, tick')
    requires PassesAll(m, false, st.audio.seen, [key] + (fill + [pat', video]))
    ensures Run(m, k, st, Feeds([key] + (fill + [pat', video]))).panicked
  {
    hide Learns, Feeding, TsTiming, TsPid, Run, Feeds, FeedWf, Passes, Renames;
    var rest := fill + [pat', video];
    PassesFirst(m, false, st.audio.seen, key, rest);
    AnnouncesLearns(m, g, pat, pmt, key, tick);
    FeedOpen(m, k, st, key);
    assert ClockObserve(CLEARED, TsTiming(key)).0 == Clock(Some(g.videoPid), Some(tick), Some(tick));
    FillStep(m, k, Feeding(m, k, st, key), g, pat, pmt, fill, pat', video, tick, tick');
    RunFeeds(m, k, st, key, rest);
  }

  lemma PmtStep(m: Media, k: Params, st: St, g: Program, pat: Packet, pmt: Packet, key: Packet, fill: seq<Packet>,
                pat': Packet, video: Packet, tick: Pcr, tick': Pcr)
    requires Idle(m, k, st) && Bare(st.access) == Tabled(g, pat, None) && !st.strict
    requires Announces(m, g, pat, pmt, key, tick) && Ends(m, k, g, fill, pat', video, tick, tick')
    requires PassesAll(m, false, st.audio.seen, [pmt] + ([key] + (fill + [pat', video])))
    ensures Run(m, k, st, Feeds([pmt] + ([key] + (fill + [pat', video])))).panicked
  {
    hide Learns, Feeding, TsTiming, TsPid, Run, Feeds, FeedWf, Passes, Ends;
    var rest := [key] + (fill + [pat', video]);
    PassesFirst(m, false, st.audio.seen, pmt, rest);
    AnnouncesLearns(m, g, pat, pmt, key, tick);
    FeedTable(m, k, st, pmt);
    KeyStep(m, k, Feeding(m, k, st, pmt), g, pat, pmt, key, fill, pat', video, tick, tick');
    RunFeeds(m, k, st, pmt, rest);
  }

  lemma PatStep(m: Media, k: Params, st: St, g: Program, pat: Packet, pmt: Packet, key: Packet, fill: seq<Packet>,
                pat': Packet, video: Packet, tick: Pcr, tick': Pcr)
    requires Idle(m, k, st) && Bare(st.access) == NewAccess(false, false) && !st.strict
    requires Announces(m, g, pat, pmt, key, tick) && Ends(m, k, g, fill, pat', video, tick, tick')
    requires PassesAll(m, false, st.audio.seen, [pat] + ([pmt] + ([key] + (fill + [pat', video]))))
    ensures Run(m, k, st, Feeds([pat] + ([pmt] + ([key] + (fill + [pat', video]))))).panicked
  {
    hide Learns, Feeding, TsTiming, TsPid, Run, Feeds, FeedWf, Passes, Ends;
    var rest := [pmt] + ([key] + (fill + [pat', video]));
    PassesFirst(m, false, st.audio.seen, pat, rest);
    AnnouncesLearns(m, g, pat, pmt, key, tick);
    FeedTable(m, k, st, pat);
    PmtStep(m, k, Feeding(m, k, st, pat), g, pat, pmt, key, fill, pat', video, tick, tick');
    RunFeeds(m, k, st, pat, rest);
  }

  lemma InitialIdle(m: Media, k: Params)
    requires ValidParams(k)
    ensures var st := Initial(k, false, false);
            && FeedWf(m, k, st) && Idle(m, k, st)
            && Bare(st.access) == NewAccess(false, false) && st.audio.seen == []
  {
  }

  /** For every media analysis and all limits: if the audio selection passes the stream through, a
      stream of tables, an access point, filling and a PAT that renames the program panics the
      packager on the next packet past the target. */
  lemma RenamePanics(m: Media, k: Params, g: Program, pat: Packet, pmt: Packet, key: Packet, fill: seq<Packet>,
                     pat': Packet, video: Packet, tick: Pcr, tick': Pcr)
    requires ValidParams(k) && Announces(m, g, pat, pmt, key, tick) && Ends(m, k, g, fill, pat', video, tick, tick')
    requires PassesAll(m, false, [], [pat, pmt, key] + (fill + [pat', video]))
    ensures FeedWf(m, k, Initial(k, false, false))
    ensures Run(m, k, Initial(k, false, false), Feeds([pat, pmt, key] + (fill + [pat', video]))).panicked
  {
    InitialIdle(m, k);
    var rest := fill + [pat', video];
    assert [pat, pmt, key] + rest == [pat] + ([pmt] + ([key] + rest));
    hide Run, Feeds, FeedWf, PassesAll, Announces, Ends, Idle, Initial;
    PatStep(m, k, Initial(k, false, false), g, pat, pmt, key, fill, pat', video, tick, tick');
  }
}
