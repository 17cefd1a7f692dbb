/** Feeding a packager whole packets that its audio selection passes through, one at a time. */
module HlsDrive {
  import opened Ts
  import opened HlsModel
  import opened HlsInvariants
  import opened HlsSteps
  import opened HlsRuns

  // ----- States ---------------------------------------------------------------------------

  /** A packager that takes whole packets. */
  ghost predicate Plain(m: Media, k: Params, st: St) {
    && FeedWf(m, k, st) && st.input == [] && !st.panicked && !Closed(st.status)
    && !st.dedupe && st.filterSdt == st.access.title
  }

  /** No run is open. */
  ghost predicate Idle(m: Media, k: Params, st: St) {
    Plain(m, k, st) && st.awaiting && st.cur == [] && st.scanned == 0 && st.clock == CLEARED
  }

  /** A run of `n` packets is open. */
  ghost predicate InRun(m: Media, k: Params, st: St, n: nat, clock: Clock) {
    Plain(m, k, st) && !st.awaiting && |st.cur| == st.scanned == n && st.clock == clock
  }

  // ----- Calls ----------------------------------------------------------------------------

  /** The audio selection passes `p` on and names no clock of its own; a strict packager's opening
      leaves `p` as it is. */
  ghost predicate Passes(m: Media, strict: bool, seen: seq<Packet>, p: Packet) {
    && m.audioObserve(seen, p) == AudioPacket(Some(p), false) && m.audioPcrPid(seen + [p]).None?
    && (strict ==> ClearMarker(p) == p)
  }

  /** It does so for all of `ps`, one after the other. */
  ghost predicate PassesAll(m: Media, strict: bool, seen: seq<Packet>, ps: seq<Packet>) {
    forall i | 0 <= i < |ps| :: Passes(m, strict, seen + ps[..i], ps[i])
  }

  lemma PassesFirst(m: Media, strict: bool, seen: seq<Packet>, p: Packet, ps: seq<Packet>)
    requires PassesAll(m, strict, seen, [p] + ps)
    ensures Passes(m, strict, seen, p) && PassesAll(m, strict, seen + [p], ps)
  {
    hide Passes;
    var all := [p] + ps;
    assert seen + all[..0] == seen && all[0] == p;
    forall i | 0 <= i < |ps| ensures Passes(m, strict, seen + [p] + ps[..i], ps[i]) {
      assert all[i + 1] == ps[i];
      assert seen + all[..i + 1] == seen + [p] + ps[..i];
      assert Passes(m, strict, seen + all[..i + 1], all[i + 1]);
    }
  }

  /** Strict packagers are fed with their token, others natively. */
  function TagOf(st: St): Tag {
    if st.strict then Fenced(st.generation) else Native
  }

  /** The packager is fed the same way as before. */
  ghost predicate SameFeed(st: St, r: St) {
    r.strict == st.strict && r.generation == st.generation
  }

  function CallOf(tag: Tag, p: Packet): Call {
    match tag
    case Native => Feed(p.raw, false)
    case Fenced(token) => FeedToken(token, p.raw, false)
  }

  function Feeds(ps: seq<Packet>, tag: Tag := Native): seq<Call> {
    if ps == [] then [] else [CallOf(tag, ps[0])] + Feeds(ps[1..], tag)
  }

  ghost function Feeding(m: Media, k: Params, st: St, p: Packet): (r: St)
    requires FeedWf(m, k, st)
    ensures FeedWf(m, k, r)
  {
    ApplyWf(m, k, st, CallOf(TagOf(st), p));
    Apply(m, k, st, CallOf(TagOf(st), p))
  }

  lemma RunFeeds(m: Media, k: Params, st: St, p: Packet, ps: seq<Packet>)
    requires FeedWf(m, k, st)
    ensures Run(m, k, st, Feeds([p] + ps, TagOf(st))) == Run(m, k, Feeding(m, k, st, p), Feeds(ps, TagOf(st)))
  {
    hide Apply, FeedWf;
    assert ([p] + ps)[1..] == ps;
    assert Feeds([p] + ps, TagOf(st))[0] == CallOf(TagOf(st), p);
    assert Feeds([p] + ps, TagOf(st))[1..] == Feeds(ps, TagOf(st));
  }

  lemma EmptyRun(m: Media, k: Params, st: St, tag: Tag)
    requires FeedWf(m, k, st)
    ensures Run(m, k, st, Feeds([], tag)) == st
  {
  }

  /** The state in which the segmenter gets `p`. */
  function Taken(m: Media, st: St, p: Packet): St {
    Record(m, Staged(st), p).(audio := Seeing(st.audio, p))
  }

  function Staged(st: St): St {
    st.(tags := {TagOf(st)}, hist := st.hist.(fed := st.hist.fed + {TagOf(st)}))
  }

  lemma FeedOneBytes(m: Media, k: Params, st: St, p: Packet)
    requires FeedWf(m, k, st) && !st.panicked && st.input == []
    ensures FeedBytes(m, k, st, p.raw, TagOf(st)) == FeedWhole(m, k, Staged(st), p)
  {
    hide FeedWhole, AccessInv, Rebases;
    var tag := TagOf(st);
    assert p.raw[..188] == p.raw && p.raw[188..] == [];
    var f := Fill(m, k, st, p.raw, tag);
    assert FeedBytes(m, k, f, [], tag) == f;
    var staged := Stage(st, p.raw, tag);
    assert staged.input == p.raw && Packet(staged.input) == p;
    assert staged.tags == {tag};
  }

  lemma TakenHist(m: Media, st: St, p: Packet)
    ensures Taken(m, st, p).hist.log == st.hist.log && Taken(m, st, p).hist.start == st.hist.start
  {
  }

  lemma TakenWf(m: Media, k: Params, st: St, p: Packet)
    requires FeedWf(m, k, st)
    ensures FeedWf(m, k, Taken(m, st, p))
  {
  }

  lemma FeedOne(m: Media, k: Params, st: St, p: Packet)
    requires Plain(m, k, st) && Passes(m, st.strict, st.audio.seen, p) && !Marked(p)
    ensures FeedWf(m, k, Taken(m, st, p))
    ensures Feeding(m, k, st, p) == FeedPacket(m, k, Taken(m, st, p), p)
    ensures SameFeed(st, Feeding(m, k, st, p))
  {
    hide FeedPacket, FeedBytes, TsTiming, ScanWf, Record, PublicInv;
    TakenWf(m, k, st, p);
    FeedOneBytes(m, k, st, p);
    assert Expire(st, false) == st;
    RecordShape(m, Staged(st), p);
    FeedPacketFrame(m, k, Taken(m, st, p), p);
  }

  // ----- Tables and runs ------------------------------------------------------------------

  /** What a packet teaches the table cache. */
  function Bare(a: Access): Access {
    a.(patSince := 0, pmtSince := 0)
  }

  function Learns(m: Media, a: Access, p: Packet): (Access, bool) {
    (Bare(Observe(m, a, p, 0).0), Observe(m, a, p, 0).1)
  }

  lemma LearnsBare(m: Media, a: Access, p: Packet, since: nat)
    ensures Bare(Observe(m, a, p, since).0) == Learns(m, Bare(a), p).0
    ensures Observe(m, a, p, since).1 == Learns(m, Bare(a), p).1
    ensures Observe(m, a, p, since).0.title == a.title
  {
  }

  /** A packet that opens no run is dropped once its tables are learned. */
  lemma TableStep(m: Media, k: Params, st: St, p: Packet)
    requires Idle(m, k, st) && !Marked(p) && !Filtered(st.access.title, p) && !Learns(m, Bare(st.access), p).1
    ensures var r := FeedPacket(m, k, st, p);
            && Idle(m, k, r) && Bare(r.access) == Learns(m, Bare(st.access), p).0 && r.audio == st.audio
            && r.hist == st.hist && r.pending == st.pending
  {
    hide Observe, TsTiming, AccessInv, Rebases;
    var a := Append(st, p);
    ObserveInv(m, st.access, p, Since(a));
    LearnsBare(m, st.access, p, Since(a));
    assert a.cur == [p];
    var r := ScanStep(m, k, a);
    assert r.cur == [] && r.scanned == 0;
    ScanStepProgress(m, k, a);
    assert Scan(m, k, a) == r;
  }

  /** An access point opens a run: the tables go in front of it. */
  lemma OpenTables(m: Media, k: Params, a: St, p: Packet)
    requires ScanWf(m, k, a) && a.cur == [p] && a.scanned == 0 && a.awaiting && k.maxPackets >= 4
    requires !a.dedupe && !Marked(p) && !(a.filterSdt && TsPid(p) == SDT_PID) && Observe(m, a.access, p, Since(a)).1
    ensures
      var b := ScanStep(m, k, a);
      var access := Observe(m, a.access, p, Since(a)).0;
      && ScanWf(m, k, b) && Scan(m, k, a) == Scan(m, k, b)
      && TablePrefix(m, access).Some? && |TablePrefix(m, access).value| == PrefixLen(a.access.title)
      && b == a.(access := access, cur := TablePrefix(m, access).value + [p], mark := b.mark,
                 scanned := PrefixLen(a.access.title), awaiting := false, generationOpening := false)
      && b.mark.chain == Last(a.hist)
  {
    hide Observe, TsTiming, TsPid, Rebases;
    ObserveInv(m, a.access, p, Since(a));
    ScanStepProgress(m, k, a);
    assert a.cur[0..] == [p];
  }

  /** Then the clock sees the access point. */
  lemma OpenClock(m: Media, k: Params, b: St, p: Packet, t: nat)
    requires ScanWf(m, k, b) && |b.cur| == t + 1 && b.cur[t] == p && b.scanned == t && !b.awaiting && k.target > 0
    requires !b.dedupe && !Marked(p) && !(b.filterSdt && TsPid(p) == SDT_PID)
    requires b.clock == CLEARED && m.audioPcrPid(b.audio.seen) == None
    ensures var r := Scan(m, k, b);
            r == b.(access := Observe(m, b.access, p, Since(b)).0, clock := ClockObserve(CLEARED, TsTiming(p)).0,
                    boundary := r.boundary, scanned := t + 1)
  {
    hide Observe, TsTiming, TsPid, Rebases, AccessInv;
    ObserveInv(m, b.access, p, Since(b));
    ScanStepProgress(m, k, b);
    var c := ScanStep(m, k, b);
    assert c == ObserveClock(m, b.(access := Observe(m, b.access, p, Since(b)).0), TsTiming(p)).0.(scanned := t + 1);
    assert Scan(m, k, c) == c;
  }

  lemma OpenStep(m: Media, k: Params, st: St, p: Packet)
    requires Idle(m, k, st) && k.maxPackets >= 4 && m.audioPcrPid(st.audio.seen).None?
    requires !Marked(p) && !Filtered(st.access.title, p) && Learns(m, Bare(st.access), p).1
    ensures var r := FeedPacket(m, k, st, p);
            && InRun(m, k, r, PrefixLen(st.access.title) + 1, ClockObserve(CLEARED, TsTiming(p)).0)
            && Bare(r.access) == Learns(m, Learns(m, Bare(st.access), p).0, p).0
            && r.audio == st.audio && r.hist == st.hist && r.pending == st.pending && r.mark.chain == Last(st.hist)
  {
    hide Observe, TsTiming, AccessInv, Rebases, ScanStep, Scan, TablePrefix, ClockObserve;
    var a, t := Append(st, p), PrefixLen(st.access.title);
    LearnsBare(m, st.access, p, Since(a));
    OpenTables(m, k, a, p);
    var b := ScanStep(m, k, a);
    assert b.cur[t] == p;
    LearnsBare(m, b.access, p, Since(b));
    OpenClock(m, k, b, p, t);
    ScanWfKept(m, k, b);
  }

  lemma ScanWfKept(m: Media, k: Params, b: St)
    requires ScanWf(m, k, b)
    ensures ScanWf(m, k, Scan(m, k, b))
  {
  }

  /** A packet that the clock ignores and that is no access point joins the run. */
  lemma MidStep(m: Media, k: Params, st: St, p: Packet, n: nat)
    requires InRun(m, k, st, n, st.clock) && 0 < n < k.maxPackets && m.audioPcrPid(st.audio.seen).None?
    requires !Marked(p) && !Filtered(st.access.title, p)
    requires ClockObserve(st.clock, TsTiming(p)).1.Ignored? && !Learns(m, Bare(st.access), p).1
    ensures var r := FeedPacket(m, k, st, p);
            && InRun(m, k, r, n + 1, st.clock) && r.audio == st.audio && r.access.title == st.access.title
            && Bare(r.access) == Learns(m, Bare(st.access), p).0
            && r.hist == st.hist && r.pending == st.pending && r.mark == st.mark
  {
    hide Observe, TsTiming, AccessInv, Rebases, ClockObserve;
    var a := Append(st, p);
    ObserveInv(m, st.access, p, Since(a));
    LearnsBare(m, st.access, p, Since(a));
    ScanStepProgress(m, k, a);
    var b := ScanStep(m, k, a);
    assert b == ObserveClock(m, a.(access := Observe(m, a.access, p, Since(a)).0), TsTiming(p)).0.(scanned := n + 1);
    IgnoredKeeps(st.clock, TsTiming(p));
    assert Scan(m, k, a) == b;
  }

  lemma IgnoredKeeps(c: Clock, t: Timing)
    requires ClockObserve(c, t).1.Ignored?
    ensures ClockObserve(c, t).0 == c
  {
  }

  /** An access point past the target cuts the run before itself: the first scan of it. */
  lemma CutTables(m: Media, k: Params, a: St, p: Packet, n: nat)
    requires ScanWf(m, k, a) && 0 < n == a.scanned == |a.cur| - 1 && a.cur[n] == p && !a.awaiting && !a.dedupe
    requires !Marked(p) && !(a.filterSdt && TsPid(p) == SDT_PID) && m.audioPcrPid(a.audio.seen).None?
    requires Observe(m, a.access, p, Since(a)).1
    requires ClockObserve(a.clock, TsTiming(p)).1.Advanced? && TargetReached(k, ClockObserve(a.clock, TsTiming(p)).0)
    ensures
      var b, access := ScanStep(m, k, a), Observe(m, a.access, p, Since(a)).0;
      var s := ObserveClock(m, a.(access := access), TsTiming(p)).0;
      && TablePrefix(m, access).Some?
      && b == Cut(m, k, s, n, Elapsed(s.clock).value)
      && ScanWf(m, k, b) && Scan(m, k, a) == Scan(m, k, b) && s.boundary == Some(TsTiming(p))
  {
    hide Observe, TsTiming, TsPid, Rebases, AccessInv, Cut, TablePrefix, ClockObserve;
    ObserveInv(m, a.access, p, Since(a));
    ScanStepProgress(m, k, a);
  }

  /** The shape of a cut. */
  lemma CutFacts(m: Media, k: Params, s: St, p: Packet, n: nat, duration: nat)
    requires ScanWf(m, k, s) && n == |s.cur| - 1 && s.cur[n] == p && TablePrefix(m, s.access).Some?
    requires s.boundary == Some(TsTiming(p)) && TsTiming(p).pcr.Some? && !Marked(p)
    ensures
      var b, t := Cut(m, k, s, n, duration), PrefixLen(s.access.title);
      && |b.cur| == t + 1 && b.cur[t] == p && b.scanned == t
      && b.clock == Clock(Some(TsTiming(p).pid), TsTiming(p).pcr, TsTiming(p).pcr)
      && b.access == s.access && b.audio.seen == s.audio.seen && b.awaiting == s.awaiting && b.dedupe == s.dedupe
      && !b.pending && b.hist.events == s.hist.events && b.hist.start == s.hist.start
      && Published(s, b)
      && b.input == s.input && b.panicked == s.panicked && (Closed(b.status) ==> Closed(s.status))
      && b.strict == s.strict && b.generation == s.generation && b.filterSdt == s.filterSdt
  {
    hide TsTiming, Rebases, AccessInv, TablePrefix, Emit;
    EmitShape(m, k, s, n, duration);
    EmitPublishes(m, k, s, n, duration);
    PrefixIsTables(m, s.access);
    var prefix := TablePrefix(m, s.access).value;
    assert s.cur[n..] == [p];
    assert (prefix + [p])[|prefix|] == p;
  }

  /** One more segment is out, flagged if `st` was pending. */
  ghost predicate Published(st: St, r: St) {
    && |r.hist.log| == |st.hist.log| + 1 && r.hist.log[..|st.hist.log|] == st.hist.log
    && var e := r.hist.log[|st.hist.log|];
       e.segment.discontinuity == st.pending && e.start == st.hist.start
  }

  lemma EmitPublishes(m: Media, k: Params, st: St, end: nat, duration: nat)
    requires k.window >= 1 && end <= |st.cur|
    ensures var r := Emit(m, k, st, end, duration);
            && Published(st, r) && r.hist.log[|st.hist.log|].mark == st.mark && r.hist.log[|st.hist.log|].upto == Last(st.hist)
            && r.input == st.input && r.panicked == st.panicked && (Closed(r.status) ==> Closed(st.status))
            && r.strict == st.strict && r.filterSdt == st.filterSdt && r.generation == st.generation
  {
    hide Evict, Push, Rewritten;
  }

  /** The second scan of it: the clock stands at zero, so nothing is cut again. */
  lemma CutAgain(m: Media, k: Params, b: St, p: Packet, t: nat)
    requires ScanWf(m, k, b) && |b.cur| == t + 1 && b.cur[t] == p && b.scanned == t && !b.awaiting && !b.dedupe
    requires !Marked(p) && !(b.filterSdt && TsPid(p) == SDT_PID) && m.audioPcrPid(b.audio.seen).None?
    requires b.clock == Clock(Some(TsTiming(p).pid), TsTiming(p).pcr, TsTiming(p).pcr) && TsTiming(p).pcr.Some?
    ensures var r := Scan(m, k, b);
            r == b.(access := Observe(m, b.access, p, Since(b)).0, boundary := r.boundary, scanned := t + 1)
  {
    hide Observe, TsTiming, TsPid, Rebases, AccessInv;
    ObserveInv(m, b.access, p, Since(b));
    ScanStepProgress(m, k, b);
    var c := ScanStep(m, k, b);
    assert c == ObserveClock(m, b.(access := Observe(m, b.access, p, Since(b)).0), TsTiming(p)).0.(scanned := t + 1);
    assert Scan(m, k, c) == c;
  }

  lemma CutStep(m: Media, k: Params, st: St, p: Packet, n: nat)
    requires InRun(m, k, st, n, st.clock) && 0 < n < k.maxPackets && m.audioPcrPid(st.audio.seen).None?
    requires !Marked(p) && !Filtered(st.access.title, p) && TsTiming(p).pcr.Some? && Learns(m, Bare(st.access), p).1
    requires ClockObserve(st.clock, TsTiming(p)).1.Advanced? && TargetReached(k, ClockObserve(st.clock, TsTiming(p)).0)
    ensures var r := FeedPacket(m, k, st, p);
            && InRun(m, k, r, PrefixLen(st.access.title) + 1, r.clock) && r.audio.seen == st.audio.seen
            && !r.pending && r.hist.start == st.hist.start && Published(st, r) && r.access.title == st.access.title
  {
    hide Observe, TsTiming, AccessInv, Rebases, ScanStep, Scan, TablePrefix, ClockObserve, Cut;
    var a := Append(st, p);
    LearnsBare(m, st.access, p, Since(a));
    CutTables(m, k, a, p, n);
    var s := ObserveClock(m, a.(access := Observe(m, a.access, p, Since(a)).0), TsTiming(p)).0;
    ObserveClockKeeps(m, a.(access := Observe(m, a.access, p, Since(a)).0), TsTiming(p));
    ObserveInv(m, a.access, p, Since(a));
    var b := ScanStep(m, k, a);
    CutFacts(m, k, s, p, n, Elapsed(s.clock).value);
    LearnsBare(m, b.access, p, Since(b));
    CutAgain(m, k, b, p, PrefixLen(st.access.title));
    ScanWfKept(m, k, b);
  }

  lemma FeedCut(m: Media, k: Params, st: St, p: Packet, n: nat)
    requires InRun(m, k, st, n, st.clock) && 0 < n < k.maxPackets && Passes(m, st.strict, st.audio.seen, p)
    requires !Marked(p) && !Filtered(st.access.title, p) && TsTiming(p).pcr.Some? && Learns(m, Bare(st.access), p).1
    requires ClockObserve(st.clock, TsTiming(p)).1.Advanced? && TargetReached(k, ClockObserve(st.clock, TsTiming(p)).0)
    ensures var r := Feeding(m, k, st, p);
            && InRun(m, k, r, PrefixLen(st.access.title) + 1, r.clock) && r.audio.seen == st.audio.seen + [p]
            && !r.pending && r.hist.start == st.hist.start && Published(st, r) && r.access.title == st.access.title
            && SameFeed(st, r)
  {
    hide FeedPacket, TsTiming, Learns, Feeding, AccessInv, Rebases, ClockObserve, TargetReached;
    FeedOne(m, k, st, p);
    CutStep(m, k, Taken(m, st, p), p, n);
  }

  lemma FeedTable(m: Media, k: Params, st: St, p: Packet)
    requires Idle(m, k, st) && Passes(m, st.strict, st.audio.seen, p) && !Marked(p) && !Filtered(st.access.title, p)
    requires !Learns(m, Bare(st.access), p).1
    ensures var r := Feeding(m, k, st, p);
            && Idle(m, k, r) && Bare(r.access) == Learns(m, Bare(st.access), p).0
            && r.audio.seen == st.audio.seen + [p] && r.hist == Taken(m, st, p).hist && r.pending == st.pending
            && SameFeed(st, r)
  {
    hide FeedPacket, TsTiming, Learns, Feeding, AccessInv, Rebases;
    FeedOne(m, k, st, p);
    TableStep(m, k, Taken(m, st, p), p);
  }

  lemma FeedOpen(m: Media, k: Params, st: St, p: Packet)
    requires Idle(m, k, st) && Passes(m, st.strict, st.audio.seen, p) && k.maxPackets >= 4
    requires !Marked(p) && !Filtered(st.access.title, p) && Learns(m, Bare(st.access), p).1
    ensures var r := Feeding(m, k, st, p);
            && InRun(m, k, r, PrefixLen(st.access.title) + 1, ClockObserve(CLEARED, TsTiming(p)).0)
            && Bare(r.access) == Learns(m, Learns(m, Bare(st.access), p).0, p).0
            && r.audio.seen == st.audio.seen + [p] && r.hist == Taken(m, st, p).hist && r.pending == st.pending
            && r.mark.chain == Last(r.hist) && SameFeed(st, r)
  {
    hide FeedPacket, TsTiming, Learns, Feeding, AccessInv, Rebases, ClockObserve;
    FeedOne(m, k, st, p);
    OpenStep(m, k, Taken(m, st, p), p);
  }

  lemma FeedMid(m: Media, k: Params, st: St, p: Packet, n: nat)
    requires InRun(m, k, st, n, st.clock) && 0 < n < k.maxPackets
    requires Passes(m, st.strict, st.audio.seen, p) && !Marked(p) && !Filtered(st.access.title, p)
    requires ClockObserve(st.clock, TsTiming(p)).1.Ignored? && !Learns(m, Bare(st.access), p).1
    ensures var r := Feeding(m, k, st, p);
            && InRun(m, k, r, n + 1, st.clock) && r.access.title == st.access.title
            && Bare(r.access) == Learns(m, Bare(st.access), p).0
            && r.audio.seen == st.audio.seen + [p] && r.hist == Taken(m, st, p).hist && r.pending == st.pending
            && r.mark == st.mark && SameFeed(st, r)
  {
    hide FeedPacket, TsTiming, Learns, Feeding, AccessInv, Rebases, ClockObserve;
    FeedOne(m, k, st, p);
    MidStep(m, k, Taken(m, st, p), p, n);
  }

  // ----- Programs -------------------------------------------------------------------------

  predicate On(p: Packet, pid: nat) {
    p.raw[0] == TS_SYNC && TsPid(p) == pid
  }

  /** What is left of a first program: its number, its PMT's PID, its video PID and codec. */
  datatype Program = Program(number: nat, pmtPid: nat, videoPid: nat, codec: Codec)

  /** Tables of `g`, an access point of its video, and the first PCR. */
  ghost predicate Announces(m: Media, g: Program, pat: Packet, pmt: Packet, key: Packet, tick: Pcr) {
    && On(pat, 0) && m.patProgram(pat) == Some(Some((g.number, g.pmtPid)))
    && On(pmt, g.pmtPid) && m.pmtVideo(pmt, Some(g.number)) == Some(Some((g.videoPid, g.codec)))
    && On(key, g.videoPid) && m.randomAccess(key, Some(g.codec))
    && TsTiming(key) == Timing(g.videoPid, Some(tick), false) && !Marked(pat) && !Marked(pmt)
    && g.pmtPid != 0 && g.videoPid != 0 && g.videoPid != g.pmtPid
  }

  /** Neither a table nor video of `g`. */
  ghost predicate Other(g: Program, p: Packet) {
    p.raw[0] == TS_SYNC && TsPid(p) !in {0, g.pmtPid, g.videoPid} && !Marked(p)
  }

  function Tabled(g: Program, pat: Packet, pmt: Option<Packet>): Access {
    Access(false, false, Some(g.number), Some(g.pmtPid), if pmt.Some? then Some(g.videoPid) else None,
           if pmt.Some? then Some(g.codec) else None, Some(pat), pmt, 0, 0)
  }

  lemma AnnouncesLearns(m: Media, g: Program, pat: Packet, pmt: Packet, key: Packet, tick: Pcr)
    requires Announces(m, g, pat, pmt, key, tick)
    ensures Learns(m, NewAccess(false, false), pat) == (Tabled(g, pat, None), false)
    ensures Learns(m, Tabled(g, pat, None), pmt) == (Tabled(g, pat, Some(pmt)), false)
    ensures Learns(m, Tabled(g, pat, Some(pmt)), key) == (Tabled(g, pat, Some(pmt)), true)
  {
    hide TsPid, TsTiming;
  }

  lemma OtherLearns(m: Media, g: Program, pat: Packet, pmt: Packet, p: Packet)
    requires Other(g, p)
    ensures Learns(m, Tabled(g, pat, Some(pmt)), p) == (Tabled(g, pat, Some(pmt)), false)
    ensures TsTiming(p).pcr.None? || TsTiming(p).pid != g.videoPid
  {
    hide TsPid;
  }
}
