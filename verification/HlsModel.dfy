/** The live HLS packager as functions on one state value.

    Fields up to `panicked` are the packager's own. `mark`, `tags` and `hist`, and the two `Since`
    fields of the table cache, are history: they record every source packet and every break as it
    arrives, where the open run began, and every segment ever emitted. No operation branches on
    them. */
module HlsModel {
  import opened Ts

  // ----- Media analysis -------------------------------------------------------------------

  datatype Codec = Mpeg2 | H264 | Hevc

  datatype AudioEvent = Seen(packet: Packet) | Sent(packets: seq<Packet>)

  /** The audio selection's state is what it has observed and sent since its last reset. Sending
      affects only later continuity counters. */
  datatype Audio = Audio(seen: seq<Packet>, events: seq<AudioEvent>)

  const NEW_AUDIO := Audio([], [])

  datatype AudioPacket = AudioPacket(packet: Option<Packet>, changed: bool)

  /** Packet parsers and the audio selection, as arbitrary deterministic functions: every
      theorem holds for all of them. */
  datatype Media = Media(
    patProgram: Packet -> Option<Option<(nat, nat)>>,
    pmtVideo: (Packet, Option<nat>) -> Option<Option<(nat, Codec)>>,
    randomAccess: (Packet, Option<Codec>) -> bool,
    sdt: (Packet, nat, bool) -> Packet,
    audioObserve: (seq<Packet>, Packet) -> AudioPacket,
    audioTables: seq<Packet> -> seq<Packet>,
    audioPcrPid: seq<Packet> -> Option<nat>,
    audioRewrite: (seq<AudioEvent>, seq<Packet>, nat) -> Packet)

  /** Cached tables and the video PID they announce. */
  datatype Access = Access(
    title: bool,
    identity: bool,
    program: Option<nat>,
    pmtPid: Option<nat>,
    videoPid: Option<nat>,
    codec: Option<Codec>,
    pat: Option<Packet>,
    pmt: Option<Packet>,
    // history: the first event that each cached table depends on
    patSince: nat,
    pmtSince: nat)

  function NewAccess(title: bool, identity: bool): Access {
    Access(title, identity, None, None, None, None, None, None, 0, 0)
  }

  function ResetAccess(a: Access): Access {
    NewAccess(a.title, a.identity)
  }

  function ObservePat(m: Media, a: Access, p: Packet, since: nat): Access {
    match m.patProgram(p)
    case None => a
    case Some(mapping) =>
      var program := if mapping.Some? then Some(mapping.value.0) else None;
      var pmtPid := if mapping.Some? then Some(mapping.value.1) else None;
      if a.pmtPid != pmtPid || a.program != program then
        Access(a.title, a.identity, program, pmtPid, None, None, Some(p), None, since, 0)
      else
        a.(pat := Some(p), patSince := since)
  }

  function ObservePmt(m: Media, a: Access, p: Packet, since: nat): Access {
    match m.pmtVideo(p, a.program)
    case None => a
    case Some(video) =>
      a.(pmt := Some(p),
         pmtSince := since,
         videoPid := if video.Some? then Some(video.value.0) else None,
         codec := if video.Some? then Some(video.value.1) else None)
  }

  /** Update the table cache; true when the packet opens a video access point. */
  function Observe(m: Media, a: Access, p: Packet, since: nat): (Access, bool) {
    if p.raw[0] != TS_SYNC then (a, false)
    else
      var a' :=
        if TsPid(p) == 0 then ObservePat(m, a, p, since)
        else if a.pmtPid == Some(TsPid(p)) then ObservePmt(m, a, p, since)
        else a;
      (a', a'.videoPid == Some(TsPid(p)) && m.randomAccess(p, a'.codec))
  }

  function ObserveAll(m: Media, a: Access, tables: seq<Packet>, since: nat): Access
    decreases |tables|
  {
    if tables == [] then a else ObserveAll(m, Observe(m, a, tables[0], since).0, tables[1..], since)
  }

  function TablePrefix(m: Media, a: Access): Option<seq<Packet>> {
    if a.pat.None? || a.pmt.None? then None
    else if a.title && a.program.Some? then
      Some([a.pat.value, a.pmt.value, m.sdt(a.pat.value, a.program.value, a.identity)])
    else Some([a.pat.value, a.pmt.value])
  }

  // ----- Packager state -------------------------------------------------------------------

  datatype Failure =
    | Unsupported | Deadline | InputOverflow | Admission | ChildExit | Pipe | Pump
    | OutputInvalid | OutputStall | RecoveryLimit

  datatype Status = Starting | Ready | Recovering | Failed(reason: Failure) | Stopped

  predicate Closed(s: Status) {
    s.Stopped? || s.Failed?
  }

  datatype Segment = Segment(packets: seq<Packet>, duration: nat, discontinuity: bool)

  datatype Window = Window(mediaSeq: nat, discontinuitySeq: nat, segments: seq<Segment>, maxDuration: nat)

  /** How bytes were fed: through the native pipe, or fenced by a generation token. */
  datatype Tag = Native | Fenced(token: nat)

  /** What reaches the packager, in order: a break (a gap, a new generation, a failure or a stop;
      `restart` when a generation begins without announcing a recovery), or one whole source
      packet. A source packet is recorded before anything is decided about it, with the tags of its
      bytes, the form in which its generation opens it, whether a recovery token was outstanding,
      the packets the audio selection remembered, the packet that selection passed on, and the
      timing it shows the clock. */
  datatype Event =
    | Break(restart: bool)
    | Source(source: Packet, packet: Packet, tags: set<Tag>, paired: bool, memory: seq<Packet>,
             kept: Option<Packet>, reading: Timing)

  /** Where a run of segments began (`chain`), where the open one begins (`from`), and the first
      event its PAT and its PMT depend on. */
  datatype Mark = Mark(chain: nat, from: nat, pat: nat, pmt: nat)

  /** One emitted segment, with the packets it was cut from before continuity rewriting, what the
      audio selection remembered then, the PID of the clock that timed it, the event after the last
      break, and the event it stops short of. */
  datatype Entry = Entry(segment: Segment, raw: seq<Packet>, memory: seq<AudioEvent>, mark: Mark,
                         pid: Option<nat>, start: nat, upto: nat, gen: nat)

  /** All events, the first event after the last break, the emitted segments, and every tag fed. */
  datatype History = History(events: seq<Event>, start: nat, log: seq<Entry>, fed: set<Tag>)

  datatype St = St(
    generation: nat,
    status: Status,
    strict: bool,
    generationSegments: nat,
    generationOpening: bool,
    audio: Audio,
    input: seq<byte>,
    win: Window,
    cur: seq<Packet>,
    scanned: nat,
    clock: Clock,
    boundary: Option<Timing>,
    pending: bool,
    dedupe: bool,
    access: Access,
    awaiting: bool,
    filterSdt: bool,
    panicked: bool,
    // history
    mark: Mark,
    tags: set<Tag>,
    hist: History)

  /** Effective limits of a constructed packager; `target` is in ticks. */
  datatype Params = Params(maxPackets: nat, window: nat, target: nat, startup: nat)

  ghost predicate ValidParams(k: Params) {
    k.maxPackets >= 3 && k.window >= 1 && k.target >= 1 && k.startup >= 1
  }

  // ----- Frames ---------------------------------------------------------------------------

  /** Staged bytes, the record of events, the generation token and the filter mode are untouched. */
  ghost predicate SameIntake(st: St, st': St) {
    && st'.input == st.input && st'.tags == st.tags && st'.hist.fed == st.hist.fed
    && st'.hist.events == st.hist.events && st'.hist.start == st.hist.start
    && st'.generation == st.generation && st'.strict == st.strict
    && st'.filterSdt == st.filterSdt
  }

  /** Nothing a client can see has changed. */
  ghost predicate SamePublic(st: St, st': St) {
    && st'.win == st.win && st'.hist.log == st.hist.log
    && st'.generationSegments == st.generationSegments && st'.status == st.status
  }

  ghost predicate Quiet(st: St, st': St) {
    SameIntake(st, st') && SamePublic(st, st') && st'.panicked == st.panicked
  }

  /** The window that publishing `log` from the start leaves behind. */
  ghost function Replay(k: Params, log: seq<Entry>): Window
    requires k.window >= 1
  {
    if log == [] then Window(0, 0, [], k.target)
    else Push(Evict(Replay(k, log[..|log| - 1]), k.window), log[|log| - 1].segment)
  }

  /** How many entries were emitted under generation `gen`. */
  ghost function CountGen(log: seq<Entry>, gen: nat): nat {
    if log == [] then 0
    else CountGen(log[..|log| - 1], gen) + if log[|log| - 1].gen == gen then 1 else 0
  }

  /** The segments that count towards readiness: those of the generation, or those retained. */
  function Counted(st: St): nat {
    if st.strict then st.generationSegments else |st.win.segments|
  }

  /** What clients see is determined by the log of emitted segments. An open packager is ready exactly
      once enough segments count. */
  ghost predicate PublicInv(k: Params, st: St) {
    && k.window >= 1
    && st.win == Replay(k, st.hist.log)
    && st.generationSegments == CountGen(st.hist.log, st.generation)
    && (forall i | 0 <= i < |st.hist.log| :: st.hist.log[i].gen <= st.generation)
    && (!Closed(st.status) ==> (st.status == Ready <==> k.startup <= Counted(st)))
  }

  /** What every packet-level operation keeps; transitive. */
  ghost predicate Frame(k: Params, st: St, st': St) {
    && SameIntake(st, st')
    && st.hist.log <= st'.hist.log
    && (forall i | |st.hist.log| <= i < |st'.hist.log| :: st'.hist.log[i].start == st.hist.start)
    && (PublicInv(k, st) ==> PublicInv(k, st'))
    && (!Closed(st.status) ==> !Closed(st'.status))
    && (st.panicked ==> st'.panicked)
  }

  // ----- Resets ---------------------------------------------------------------------------

  function Discard(st: St): (r: St)
    ensures Quiet(st, r)
  {
    st.(cur := [], scanned := 0, clock := CLEARED, boundary := None, pending := true, dedupe := false,
        awaiting := true)
  }

  /** Record that the stream breaks here. */
  function Broken(h: History, restart: bool): History {
    h.(events := h.events + [Break(restart)], start := |h.events| + 1)
  }

  function ResetPartial(st: St, dedupe: bool, restart: bool): St {
    st.(generationOpening := false, cur := [], scanned := 0, clock := CLEARED, boundary := None,
        pending := true, dedupe := dedupe, access := ResetAccess(st.access), audio := NEW_AUDIO,
        input := [], tags := {}, awaiting := true, hist := Broken(st.hist, restart))
  }

  // ----- Clock and emission ---------------------------------------------------------------

  function Selected(m: Media, seen: seq<Packet>, t: Timing): Timing {
    var pcrPid := m.audioPcrPid(seen);
    if pcrPid.Some? && pcrPid.value != t.pid then t.(pcr := None) else t
  }

  /** The boundary timing a segment cut would restart from. */
  function Boundary(st: St, observation: Observation, t: Timing): Option<Timing> {
    match observation
    case Advanced(_) => Some(t)
    case Reset => None
    case Ignored => st.boundary
  }

  function ObserveClock(m: Media, st: St, t: Timing): (r: (St, Observation))
    ensures Quiet(st, r.0)
    ensures r.0.cur == st.cur && r.0.access == st.access
  {
    var t' := Selected(m, st.audio.seen, t);
    var seen := ClockObserve(st.clock, t');
    (st.(clock := seen.0, boundary := Boundary(st, seen.1, t')), seen.1)
  }

  predicate TargetReached(k: Params, c: Clock) {
    Elapsed(c).Some? && Elapsed(c).value >= k.target
  }

  /** Make room for one more segment. */
  function Evict(w: Window, limit: nat): (r: Window)
    requires limit >= 1
    ensures |r.segments| < limit
    decreases |w.segments|
  {
    if |w.segments| < limit then w
    else
      Evict(w.(segments := w.segments[1..], mediaSeq := w.mediaSeq + 1,
               discontinuitySeq := w.discontinuitySeq + if w.segments[0].discontinuity then 1 else 0),
            limit)
  }

  function Push(w: Window, s: Segment): Window {
    w.(segments := w.segments + [s],
       maxDuration := if w.maxDuration < s.duration then s.duration else w.maxDuration)
  }

  function Rewritten(m: Media, memory: seq<AudioEvent>, raw: seq<Packet>): (r: seq<Packet>)
    ensures |r| == |raw|
  {
    seq<Packet>(|raw|, i requires 0 <= i < |raw| => m.audioRewrite(memory, raw, i))
  }

  /** The event being handled. */
  function Last(h: History): nat {
    if |h.events| == 0 then 0 else |h.events| - 1
  }

  /** The first event that the audio selection remembers. */
  function Since(st: St): nat {
    if |st.audio.seen| <= |st.hist.events| then |st.hist.events| - |st.audio.seen| else 0
  }

  /** The event being handled opens a segment of the run that began at `chain`, behind the cached
      tables. */
  function MarkAt(st: St, chain: nat): Mark {
    Mark(chain, Last(st.hist), st.access.patSince, st.access.pmtSince)
  }

  function Emit(m: Media, k: Params, st: St, end: nat, duration: nat): (r: St)
    requires k.window >= 1
    requires end <= |st.cur|
    ensures SameIntake(st, r) && r.panicked == st.panicked
  {
    var raw := st.cur[..end];
    var segment := Segment(Rewritten(m, st.audio.events, raw), duration, st.pending);
    var win := Push(Evict(st.win, k.window), segment);
    var count := if st.strict then st.generationSegments + 1 else |win.segments|;
    var entry := Entry(segment, raw, st.audio.events, st.mark, st.clock.pid, st.hist.start, Last(st.hist),
                       st.generation);
    st.(win := win,
        cur := st.cur[end..],
        audio := st.audio.(events := st.audio.events + [Sent(raw)]),
        pending := false,
        generationSegments := st.generationSegments + 1,
        status := if st.status != Ready && count >= k.startup then Ready else st.status,
        scanned := 0,
        hist := st.hist.(log := st.hist.log + [entry]))
  }

  // ----- Scanning -------------------------------------------------------------------------

  /** Drop every buffered packet up to and including `i`. */
  function DropThrough(st: St, i: nat): (r: St)
    requires i < |st.cur|
    ensures Quiet(st, r)
  {
    st.(cur := st.cur[i + 1..], scanned := 0)
  }

  function MarkerReset(st: St, i: nat): (r: St)
    requires i < |st.cur|
    ensures Quiet(st, r)
  {
    DropThrough(st, i).(access := ResetAccess(st.access), clock := CLEARED, boundary := None,
                        pending := true, awaiting := true)
  }

  function ClockReset(st: St, i: nat): (r: St)
    requires i < |st.cur|
    ensures Quiet(st, r)
  {
    DropThrough(st, i).(access := ResetAccess(st.access), audio := NEW_AUDIO, pending := true,
                        dedupe := false, awaiting := true)
  }

  function DropSdt(st: St, i: nat, duplicate: bool): (r: St)
    requires i < |st.cur|
    ensures Quiet(st, r)
  {
    st.(cur := st.cur[..i] + st.cur[i + 1..], dedupe := st.dedupe && !duplicate)
  }

  /** Drop a packet that cannot open a run. */
  function Skip(st: St, i: nat, duplicate: bool, pending: bool): (r: St)
    requires i < |st.cur|
    ensures Quiet(st, r)
  {
    DropThrough(st, i).(dedupe := st.dedupe && !duplicate, pending := pending)
  }

  /** Open a run: tables, then access point `i`, which is scanned again for its timing. */
  function Accept(st: St, i: nat, prefix: seq<Packet>, duplicate: bool): (r: St)
    requires i < |st.cur|
    ensures |r.cur| == |prefix| + |st.cur| - i
    ensures Quiet(st, r)
  {
    st.(dedupe := st.dedupe && duplicate,
        cur := prefix + st.cur[i..],
        mark := MarkAt(st, Last(st.hist)),
        scanned := |prefix|,
        awaiting := false,
        generationOpening := false)
  }

  /** While no run is open: drop packets until an access point that fits behind its tables. */
  function Open(m: Media, k: Params, st: St, i: nat, isAccess: bool, duplicate: bool): (r: St)
    requires i < |st.cur|
    ensures Quiet(st, r)
  {
    var prefix := if isAccess then TablePrefix(m, st.access) else None;
    if prefix.None? then Skip(st, i, duplicate, st.pending)
    else if |prefix.value| + 1 > k.maxPackets then Skip(st, i, duplicate, true)
    else Accept(st, i, prefix.value, duplicate)
  }

  /** Cut the run before packet `i` and reopen on it. */
  function Cut(m: Media, k: Params, st: St, i: nat, duration: nat): (r: St)
    requires k.window >= 1
    requires i < |st.cur|
    requires TablePrefix(m, st.access).Some?
    ensures Quiet(Emit(m, k, st, i, duration), r)
  {
    var s := Emit(m, k, st, i, duration);
    var prefix := TablePrefix(m, s.access).value;
    s.(cur := prefix + s.cur,
       mark := MarkAt(s, s.mark.chain),
       scanned := |prefix|,
       clock := Rebase(s.boundary))
  }

  function Advance(m: Media, k: Params, st: St, i: nat, isAccess: bool, t: Timing): (r: St)
    requires k.window >= 1
    requires i < |st.cur|
    requires isAccess ==> TablePrefix(m, st.access).Some?
  {
    var (s, observation) := ObserveClock(m, st, t);
    if observation.Reset? then ClockReset(s, i)
    else if i > 0 && TargetReached(k, s.clock) && isAccess then Cut(m, k, s, i, Elapsed(s.clock).value)
    else s.(scanned := i + 1)
  }

  /** What becomes of packet `i`, once its tables are observed and its marker is judged. */
  function Sort(m: Media, k: Params, st: St, i: nat, isAccess: bool, marked: bool, duplicate: bool, t: Timing): St
    requires k.window >= 1 && i < |st.cur|
    requires isAccess ==> TablePrefix(m, st.access).Some?
  {
    if marked then MarkerReset(st, i)
    else if st.filterSdt && TsPid(st.cur[i]) == SDT_PID then DropSdt(st, i, duplicate)
    else if st.awaiting then Open(m, k, st, i, isAccess, duplicate)
    else Advance(m, k, st, i, isAccess, t)
  }

  /** Observe the packet about to be scanned. The recovery token lasts until the packet that opens a
      run is scanned again. */
  function Notice(m: Media, st: St): (r: (St, bool))
    requires st.scanned < |st.cur| && AccessInv(m, st.access)
    ensures r.0 == st.(access := r.0.access, dedupe := r.0.dedupe)
    ensures AccessInv(m, r.0.access) && r.0.access.title == st.access.title
    ensures r.1 ==> TablePrefix(m, r.0.access).Some?
  {
    var packet := st.cur[st.scanned];
    ObserveInv(m, st.access, packet, Since(st));
    var (access, isAccess) := Observe(m, st.access, packet, Since(st));
    (st.(access := access, dedupe := st.dedupe && !(TsTiming(packet).discontinuity && !st.awaiting)), isAccess)
  }

  /** One iteration of the scan loop. */
  function ScanStep(m: Media, k: Params, st: St): (r: St)
    requires k.window >= 1
    requires st.scanned < |st.cur|
    requires AccessInv(m, st.access)
  {
    var (s, isAccess) := Notice(m, st);
    var t := TsTiming(st.cur[st.scanned]);
    Sort(m, k, s, st.scanned, isAccess, t.discontinuity && !st.dedupe, t.discontinuity && st.dedupe,
         t.(discontinuity := false))
  }

  // ----- Table-cache invariant ------------------------------------------------------------

  /** The cached PMT is the one the cached PAT names, and video is known only through it. */
  ghost predicate AccessInv(m: Media, a: Access) {
    && (a.videoPid.Some? <==> a.codec.Some?)
    && (a.videoPid.Some? ==> a.pmt.Some?)
    && (a.pmt.Some? ==>
          && a.pat.Some? && a.program.Some? && a.pmtPid.Some?
          && TsPid(a.pmt.value) == a.pmtPid.value
          && m.pmtVideo(a.pmt.value, a.program)
             == Some(if a.videoPid.Some? then Some((a.videoPid.value, a.codec.value)) else None))
    && (a.pat.Some? ==> TsPid(a.pat.value) == 0)
    && (a.pat.Some? && a.program.Some? && a.pmtPid.Some? ==>
          m.patProgram(a.pat.value) == Some(Some((a.program.value, a.pmtPid.value))))
    && (a.program.Some? <==> a.pmtPid.Some?)
    && (a.program.Some? ==> a.pat.Some?)
  }

  lemma ObserveTablesInv(m: Media, a: Access, p: Packet, since: nat)
    requires AccessInv(m, a)
    ensures TsPid(p) == 0 ==> AccessInv(m, ObservePat(m, a, p, since))
    ensures a.pmtPid == Some(TsPid(p)) ==> AccessInv(m, ObservePmt(m, a, p, since))
  {
  }

  lemma ObserveInv(m: Media, a: Access, p: Packet, since: nat)
    requires AccessInv(m, a)
    ensures AccessInv(m, Observe(m, a, p, since).0)
    ensures Observe(m, a, p, since).0.title == a.title
    ensures Observe(m, a, p, since).0.identity == a.identity
    ensures Observe(m, a, p, since).1 ==> TablePrefix(m, Observe(m, a, p, since).0).Some?
  {
    ObserveTablesInv(m, a, p, since);
  }

  // ----- The scan loop --------------------------------------------------------------------

  /** What the scan loop needs to run: buffers in step, coherent tables and clock. */
  ghost predicate ScanWf(m: Media, k: Params, st: St) {
    && ValidParams(k)
    && st.scanned <= |st.cur|
    && AccessInv(m, st.access)
    && Rebases(st.clock, st.boundary)
  }

  /** Observing the next packet would bring the run to its target duration. */
  ghost predicate WouldReach(m: Media, k: Params, st: St) {
    && st.scanned < |st.cur|
    && var t := TsTiming(st.cur[st.scanned]).(discontinuity := false);
       TargetReached(k, ClockObserve(st.clock, Selected(m, st.audio.seen, t)).0)
  }

  /** Accepting an access point and cutting a segment both rescan their packet, yet every
      iteration lowers (unscanned packets, awaiting an access point, target within reach). */
  ghost predicate ScanDecreases(m: Media, k: Params, st: St, st': St) {
    var before, after := |st.cur| - st.scanned, |st'.cur| - st'.scanned;
    || after < before
    || (after == before && st.awaiting && !st'.awaiting)
    || (after == before && st.awaiting == st'.awaiting && WouldReach(m, k, st) && !WouldReach(m, k, st'))
  }

  lemma ObserveClockKeeps(m: Media, st: St, t: Timing)
    requires Rebases(st.clock, st.boundary)
    ensures Rebases(ObserveClock(m, st, t).0.clock, ObserveClock(m, st, t).0.boundary)
    ensures ObserveClock(m, st, t).1.Reset? ==> ObserveClock(m, st, t).0.boundary.None?
    ensures !ObserveClock(m, st, t).1.Reset? && st.clock.pid.Some? ==> ObserveClock(m, st, t).0.clock.pid.Some?
  {
  }

  lemma CutProgress(m: Media, k: Params, st: St, t: Timing)
    requires ScanWf(m, k, st) && st.scanned < |st.cur|
    requires t == TsTiming(st.cur[st.scanned]).(discontinuity := false)
    requires !ObserveClock(m, st, t).1.Reset?
    requires TargetReached(k, ObserveClock(m, st, t).0.clock)
    requires TablePrefix(m, st.access).Some?
    ensures var s := ObserveClock(m, st, t).0;
            var st' := Cut(m, k, s, st.scanned, Elapsed(s.clock).value);
            ScanWf(m, k, st') && |st'.cur| - st'.scanned == |st.cur| - st.scanned && !WouldReach(m, k, st')
  {
    ObserveClockKeeps(m, st, t);
    var s := ObserveClock(m, st, t).0;
    var st' := Cut(m, k, s, st.scanned, Elapsed(s.clock).value);
    assert st'.cur[st'.scanned] == st.cur[st.scanned];
    var selected := Selected(m, st.audio.seen, t);
    assert Selected(m, st'.audio.seen, t) == selected;
    RebaseIsZero(s.clock, s.boundary, selected);
  }

  /** The parts of ScanDecreases for a step that consumes its packet. */
  lemma DropProgress(m: Media, k: Params, st: St, i: nat, duplicate: bool)
    requires ScanWf(m, k, st) && st.scanned == i < |st.cur|
    ensures ScanWf(m, k, MarkerReset(st, i)) && ScanDecreases(m, k, st, MarkerReset(st, i))
    ensures ScanWf(m, k, DropSdt(st, i, duplicate)) && ScanDecreases(m, k, st, DropSdt(st, i, duplicate))
  {
  }

  lemma ClockResetProgress(m: Media, k: Params, st: St, i: nat)
    requires ScanWf(m, k, st) && st.scanned == i < |st.cur| && st.boundary.None?
    ensures ScanWf(m, k, ClockReset(st, i))
    ensures |ClockReset(st, i).cur| - ClockReset(st, i).scanned < |st.cur| - st.scanned
  {
  }

  lemma AcceptProgress(m: Media, k: Params, st: St, i: nat, prefix: seq<Packet>, duplicate: bool)
    requires ScanWf(m, k, st) && st.scanned == i < |st.cur|
    ensures ScanWf(m, k, Accept(st, i, prefix, duplicate))
  {
  }

  lemma SkipProgress(m: Media, k: Params, st: St, i: nat, duplicate: bool, pending: bool)
    requires ScanWf(m, k, st) && st.scanned == i < |st.cur|
    ensures var st' := Skip(st, i, duplicate, pending);
            ScanWf(m, k, st') && |st'.cur| - st'.scanned < |st.cur| - st.scanned
  {
  }

  lemma OpenProgress(m: Media, k: Params, st: St, i: nat, isAccess: bool, duplicate: bool)
    requires ScanWf(m, k, st) && st.scanned == i < |st.cur| && st.awaiting
    ensures var st' := Open(m, k, st, i, isAccess, duplicate);
            && ScanWf(m, k, st')
            && (if st'.awaiting then |st'.cur| - st'.scanned < |st.cur| - st.scanned
                else |st'.cur| - st'.scanned == |st.cur| - st.scanned)
  {
    var prefix := if isAccess then TablePrefix(m, st.access) else None;
    if prefix.None? {
      SkipProgress(m, k, st, i, duplicate, st.pending);
    } else if |prefix.value| + 1 > k.maxPackets {
      SkipProgress(m, k, st, i, duplicate, true);
    } else {
      AcceptProgress(m, k, st, i, prefix.value, duplicate);
    }
  }

  lemma AdvanceProgress(m: Media, k: Params, st: St, i: nat, isAccess: bool, t: Timing)
    requires ScanWf(m, k, st) && st.scanned == i < |st.cur|
    requires t == TsTiming(st.cur[st.scanned]).(discontinuity := false)
    requires isAccess ==> TablePrefix(m, st.access).Some?
    ensures var st' := Advance(m, k, st, i, isAccess, t);
            ScanWf(m, k, st') && ScanDecreases(m, k, st, st')
  {
    ObserveClockKeeps(m, st, t);
    var (s, observation) := ObserveClock(m, st, t);
    var st' := Advance(m, k, st, i, isAccess, t);
    if observation.Reset? {
      ClockResetProgress(m, k, s, i);
    } else if i > 0 && TargetReached(k, s.clock) && isAccess {
      CutProgress(m, k, st, t);
      assert WouldReach(m, k, st);
    } else {
      assert st' == s.(scanned := i + 1);
    }
  }

  lemma SortProgress(m: Media, k: Params, st: St, isAccess: bool, marked: bool, duplicate: bool, t: Timing)
    requires ScanWf(m, k, st) && st.scanned < |st.cur|
    requires t == TsTiming(st.cur[st.scanned]).(discontinuity := false)
    requires isAccess ==> TablePrefix(m, st.access).Some?
    ensures var r := Sort(m, k, st, st.scanned, isAccess, marked, duplicate, t);
            ScanWf(m, k, r) && ScanDecreases(m, k, st, r)
  {
    hide TsTiming, TsPid, MarkerReset, DropSdt, Open, Advance, TablePrefix, AccessInv, Rebases, Quiet, WouldReach;
    var i := st.scanned;
    if marked {
      DropProgress(m, k, st, i, duplicate);
    } else if st.filterSdt && TsPid(st.cur[i]) == SDT_PID {
      DropProgress(m, k, st, i, duplicate);
    } else if st.awaiting {
      OpenProgress(m, k, st, i, isAccess, duplicate);
    } else {
      AdvanceProgress(m, k, st, i, isAccess, t);
    }
  }

  lemma ScanStepProgress(m: Media, k: Params, st: St)
    requires ScanWf(m, k, st) && st.scanned < |st.cur|
    ensures ScanWf(m, k, ScanStep(m, k, st))
    ensures ScanDecreases(m, k, st, ScanStep(m, k, st))
  {
    hide Sort, Notice, TsTiming, TablePrefix, AccessInv, Rebases;
    var (s, isAccess) := Notice(m, st);
    var t := TsTiming(st.cur[st.scanned]);
    assert WouldReach(m, k, s) == WouldReach(m, k, st);
    SortProgress(m, k, s, isAccess, t.discontinuity && !st.dedupe, t.discontinuity && st.dedupe,
                 t.(discontinuity := false));
  }

  ghost function Scan(m: Media, k: Params, st: St): (r: St)
    requires ScanWf(m, k, st)
    ensures ScanWf(m, k, r) && r.scanned == |r.cur|
    decreases |st.cur| - st.scanned, st.awaiting, WouldReach(m, k, st)
  {
    if st.scanned == |st.cur| then st
    else
      ScanStepProgress(m, k, st);
      Scan(m, k, ScanStep(m, k, st))
  }

  // ----- Packet and byte intake -----------------------------------------------------------

  /** Restart the run with tables and the packet that just arrived. */
  function Seed(m: Media, st: St, prefix: seq<Packet>, packet: Packet, t: Timing, chain: nat): (r: St)
    ensures Quiet(st, r)
  {
    ObserveClock(m, st.(cur := prefix + [packet], mark := MarkAt(st, chain), scanned := |prefix| + 1,
                        clock := CLEARED, boundary := None, awaiting := false), t).0
  }

  /** Emit a ceiling-full run and continue mid-GOP on `packet`. Without cached tables the
      continuation panics while the state is locked. */
  function Force(m: Media, k: Params, st: St, packet: Packet, t: Timing): (r: St)
    requires k.window >= 1
    requires TargetReached(k, st.clock)
  {
    var s := Emit(m, k, st, |st.cur|, Elapsed(st.clock).value);
    var prefix := TablePrefix(m, s.access);
    if prefix.None? then s.(panicked := true)
    else Seed(m, s, prefix.value, packet, t, s.mark.chain).(boundary := st.boundary, clock := Rebase(st.boundary))
  }

  /** The packet after a ceiling-full run, once markers and the clock have passed. */
  function Beyond(m: Media, k: Params, st: St, packet: Packet, isAccess: bool, t: Timing): (r: St)
    requires k.window >= 1
    requires isAccess ==> TablePrefix(m, st.access).Some?
  {
    if st.filterSdt && TsPid(packet) == SDT_PID then st
    else if TargetReached(k, st.clock) then Force(m, k, st, packet, t)
    else if isAccess then Seed(m, Discard(st), TablePrefix(m, st.access).value, packet, t, Last(st.hist))
    else Discard(st)
  }

  /** The packet after a ceiling-full run, once it is known not to open a new gap. */
  function Timed(m: Media, k: Params, st: St, packet: Packet, isAccess: bool, t: Timing): St
    requires k.window >= 1
    requires isAccess ==> TablePrefix(m, st.access).Some?
  {
    var (s, observation) := ObserveClock(m, st, t);
    if observation.Reset? then Discard(s.(access := ResetAccess(st.access), audio := NEW_AUDIO))
    else Beyond(m, k, s, packet, isAccess, t)
  }

  /** Classify the packet after a ceiling-full run. */
  function Lookahead(m: Media, k: Params, st: St, packet: Packet): St
    requires k.window >= 1
    requires AccessInv(m, st.access)
  {
    ObserveInv(m, st.access, packet, Since(st));
    var t := TsTiming(packet);
    var (access, isAccess) := Observe(m, st.access, packet, Since(st));
    if t.discontinuity && !st.dedupe then Discard(st.(access := ResetAccess(access)))
    else
      Timed(m, k, st.(access := access, dedupe := st.dedupe && !t.discontinuity), packet, isAccess,
            t.(discontinuity := false))
  }

  /** Hand one selected packet to the segmenter. */
  ghost function FeedPacket(m: Media, k: Params, st: St, packet: Packet): St
    requires ScanWf(m, k, st)
  {
    if |st.cur| == k.maxPackets then Lookahead(m, k, st, packet) else Scan(m, k, Append(st, packet))
  }

  function Append(st: St, packet: Packet): St {
    st.(cur := st.cur + [packet])
  }

  /** The audio selection changed: drop the unfinished run and learn the new tables. */
  function Relearn(m: Media, st: St): (r: St)
    ensures Quiet(st, r)
  {
    var access := ObserveAll(m, ResetAccess(st.access), m.audioTables(st.audio.seen), Since(st));
    Discard(st).(access := access, pending := st.pending || !st.awaiting)
  }

  /** The owner already announced this generation, so its opening marker is not a new gap. */
  function Opened(st: St, source: Packet): Packet {
    if st.strict && st.generationOpening then ClearMarker(source) else source
  }

  /** Show a packet to the audio selection. */
  function Select(m: Media, st: St, packet: Packet): (r: St)
    ensures Quiet(st, r)
  {
    var s := st.(audio := Audio(st.audio.seen + [packet], st.audio.events + [Seen(packet)]));
    if m.audioObserve(st.audio.seen, packet).changed then Relearn(m, s) else s
  }

  lemma SelectWf(m: Media, k: Params, st: St, packet: Packet)
    requires ScanWf(m, k, st)
    ensures ScanWf(m, k, Select(m, st, packet))
  {
    RelearnWf(m, k, st.(audio := Audio(st.audio.seen + [packet], st.audio.events + [Seen(packet)])));
  }

  /** A marker that the owner has not already announced. */
  predicate Unannounced(st: St, packet: Packet) {
    TsTiming(packet).discontinuity && !st.dedupe
  }

  /** Write a source packet down, whatever becomes of it. */
  function Record(m: Media, st: St, source: Packet): (r: St)
    ensures SamePublic(st, r)
  {
    var packet := Opened(st, source);
    var kept := if Unannounced(st, packet) then None else m.audioObserve(st.audio.seen, packet).packet;
    var timing := TsTiming(if kept.Some? then kept.value else packet).(discontinuity := false);
    var reading := Selected(m, st.audio.seen + [packet], timing);
    var event := Source(source, packet, st.tags, st.dedupe, st.audio.seen, kept, reading);
    st.(hist := st.hist.(events := st.hist.events + [event]))
  }

  lemma RecordWf(m: Media, k: Params, st: St, source: Packet)
    requires ScanWf(m, k, st)
    ensures ScanWf(m, k, Record(m, st, source))
  {
  }

  /** One complete staged source packet. */
  ghost function FeedWhole(m: Media, k: Params, st: St, source: Packet): St
    requires ScanWf(m, k, st)
  {
    RecordWf(m, k, st, source);
    Choose(m, k, Record(m, st, source), Opened(st, source))
  }

  /** What becomes of the source packet that was just recorded. */
  ghost function Choose(m: Media, k: Params, st: St, packet: Packet): St
    requires ScanWf(m, k, st)
  {
    if Unannounced(st, packet) then Discard(st.(audio := NEW_AUDIO, access := ResetAccess(st.access)))
    else
      SelectWf(m, k, st, packet);
      var s := Select(m, st, packet);
      var result := m.audioObserve(st.audio.seen, packet);
      if result.packet.Some? then FeedPacket(m, k, s, result.packet.value)
      else s.(dedupe := s.dedupe && !TsTiming(packet).discontinuity)
  }

  lemma ObserveAllInv(m: Media, a: Access, tables: seq<Packet>, since: nat)
    requires AccessInv(m, a)
    ensures AccessInv(m, ObserveAll(m, a, tables, since))
    ensures ObserveAll(m, a, tables, since).title == a.title
    ensures ObserveAll(m, a, tables, since).identity == a.identity
    decreases |tables|
  {
    if tables != [] {
      ObserveInv(m, a, tables[0], since);
      ObserveAllInv(m, Observe(m, a, tables[0], since).0, tables[1..], since);
    }
  }

  lemma RelearnWf(m: Media, k: Params, st: St)
    requires ScanWf(m, k, st)
    ensures ScanWf(m, k, Relearn(m, st))
  {
    ObserveAllInv(m, ResetAccess(st.access), m.audioTables(st.audio.seen), Since(st));
  }

  lemma EmitWf(m: Media, k: Params, st: St, end: nat, duration: nat)
    requires ScanWf(m, k, st) && end <= |st.cur|
    ensures ScanWf(m, k, Emit(m, k, st, end, duration))
  {
  }

  lemma SeedWf(m: Media, k: Params, st: St, prefix: seq<Packet>, packet: Packet, t: Timing, chain: nat)
    requires ScanWf(m, k, st)
    requires !t.discontinuity
    ensures ScanWf(m, k, Seed(m, st, prefix, packet, t, chain))
  {
    var s := st.(cur := prefix + [packet], mark := MarkAt(st, chain), scanned := |prefix| + 1,
                 clock := CLEARED, boundary := None, awaiting := false);
    ObserveClockKeeps(m, s, t);
  }

  lemma DiscardWf(m: Media, k: Params, st: St)
    requires ScanWf(m, k, st)
    ensures ScanWf(m, k, Discard(st))
    ensures ScanWf(m, k, Discard(st.(access := ResetAccess(st.access))))
    ensures ScanWf(m, k, Discard(st.(access := ResetAccess(st.access), audio := NEW_AUDIO)))
  {
  }

  lemma ForceWf(m: Media, k: Params, st: St, packet: Packet, t: Timing)
    requires ScanWf(m, k, st) && TargetReached(k, st.clock) && !t.discontinuity
    ensures ScanWf(m, k, Force(m, k, st, packet, t))
  {
    hide Emit, Seed, AccessInv, TablePrefix;
    EmitWf(m, k, st, |st.cur|, Elapsed(st.clock).value);
    var s := Emit(m, k, st, |st.cur|, Elapsed(st.clock).value);
    var prefix := TablePrefix(m, s.access);
    if prefix.Some? {
      SeedWf(m, k, s, prefix.value, packet, t, s.mark.chain);
      assert Rebases(Rebase(st.boundary), st.boundary);
    } else {
      assert ScanWf(m, k, s.(panicked := true));
    }
  }

  lemma BeyondWf(m: Media, k: Params, st: St, packet: Packet, isAccess: bool, t: Timing)
    requires ScanWf(m, k, st) && !t.discontinuity
    requires isAccess ==> TablePrefix(m, st.access).Some?
    ensures ScanWf(m, k, Beyond(m, k, st, packet, isAccess, t))
  {
    DiscardWf(m, k, st);
    if TargetReached(k, st.clock) {
      ForceWf(m, k, st, packet, t);
    } else if isAccess {
      SeedWf(m, k, Discard(st), TablePrefix(m, st.access).value, packet, t, Last(st.hist));
    }
  }

  lemma TimedWf(m: Media, k: Params, st: St, packet: Packet, isAccess: bool, t: Timing)
    requires ScanWf(m, k, st) && !t.discontinuity
    requires isAccess ==> TablePrefix(m, st.access).Some?
    ensures ScanWf(m, k, Timed(m, k, st, packet, isAccess, t))
  {
    ObserveClockKeeps(m, st, t);
    var (s, observation) := ObserveClock(m, st, t);
    if observation.Reset? {
      DiscardWf(m, k, s);
    } else {
      BeyondWf(m, k, s, packet, isAccess, t);
    }
  }

  lemma LookaheadWf(m: Media, k: Params, st: St, packet: Packet)
    requires ScanWf(m, k, st)
    ensures ScanWf(m, k, Lookahead(m, k, st, packet))
  {
    hide Observe, TsTiming, Timed, TablePrefix;
    ObserveInv(m, st.access, packet, Since(st));
    var t := TsTiming(packet);
    var (access, isAccess) := Observe(m, st.access, packet, Since(st));
    if t.discontinuity && !st.dedupe {
      DiscardWf(m, k, st.(access := access));
    } else {
      TimedWf(m, k, st.(access := access, dedupe := st.dedupe && !t.discontinuity), packet, isAccess,
              t.(discontinuity := false));
    }
  }

  lemma FeedPacketWf(m: Media, k: Params, st: St, packet: Packet)
    requires ScanWf(m, k, st)
    ensures ScanWf(m, k, FeedPacket(m, k, st, packet))
  {
    if |st.cur| == k.maxPackets {
      LookaheadWf(m, k, st, packet);
    }
  }

  lemma ChooseWf(m: Media, k: Params, st: St, packet: Packet)
    requires ScanWf(m, k, st)
    ensures ScanWf(m, k, Choose(m, k, st, packet))
  {
    if Unannounced(st, packet) {
      DiscardWf(m, k, st);
    } else {
      SelectWf(m, k, st, packet);
      var result := m.audioObserve(st.audio.seen, packet);
      if result.packet.Some? {
        FeedPacketWf(m, k, Select(m, st, packet), result.packet.value);
      }
    }
  }

  // ----- Frames of packet intake ----------------------------------------------------------

  lemma QuietFrame(k: Params, st: St, st': St)
    requires Quiet(st, st')
    ensures Frame(k, st, st')
  {
  }

  lemma FrameTrans(k: Params, a: St, b: St, c: St)
    requires Frame(k, a, b) && Frame(k, b, c)
    ensures Frame(k, a, c)
  {
    hide PublicInv;
    forall i | |a.hist.log| <= i < |c.hist.log| ensures c.hist.log[i].start == a.hist.start {
      if i < |b.hist.log| {
        assert c.hist.log[i] == b.hist.log[i];
      }
    }
  }

  lemma EvictKeeps(w: Window, limit: nat)
    requires limit >= 1
    ensures Evict(w, limit).mediaSeq + |Evict(w, limit).segments| == w.mediaSeq + |w.segments|
    decreases |w.segments|
  {
  }

  lemma {:induction false} ReplayTotal(k: Params, log: seq<Entry>)
    requires k.window >= 1
    ensures Replay(k, log).mediaSeq + |Replay(k, log).segments| == |log|
  {
    if log != [] {
      ReplayTotal(k, log[..|log| - 1]);
      EvictKeeps(Replay(k, log[..|log| - 1]), k.window);
    }
  }

  lemma EvictLength(w: Window, limit: nat)
    requires limit >= 1
    ensures |Evict(w, limit).segments| == if |w.segments| < limit then |w.segments| else limit - 1
    decreases |w.segments|
  {
  }

  lemma {:induction false} ReplayLength(k: Params, log: seq<Entry>)
    requires k.window >= 1
    ensures |Replay(k, log).segments| == if |log| < k.window then |log| else k.window
  {
    if log != [] {
      ReplayLength(k, log[..|log| - 1]);
      EvictLength(Replay(k, log[..|log| - 1]), k.window);
    }
  }

  lemma EmitFrame(m: Media, k: Params, st: St, end: nat, duration: nat)
    requires k.window >= 1 && end <= |st.cur|
    ensures Frame(k, st, Emit(m, k, st, end, duration))
  {
    var r := Emit(m, k, st, end, duration);
    assert r.hist.log[..|r.hist.log| - 1] == st.hist.log;
    if PublicInv(k, st) {
      ReplayLength(k, st.hist.log);
      ReplayLength(k, r.hist.log);
    }
  }

  lemma CutFrame(m: Media, k: Params, st: St, i: nat, duration: nat)
    requires k.window >= 1 && i < |st.cur| && TablePrefix(m, st.access).Some?
    ensures Frame(k, st, Cut(m, k, st, i, duration)) && Cut(m, k, st, i, duration).panicked == st.panicked
  {
    hide Emit, Cut, Frame, SameIntake, SamePublic;
    EmitFrame(m, k, st, i, duration);
    QuietFrame(k, Emit(m, k, st, i, duration), Cut(m, k, st, i, duration));
    FrameTrans(k, st, Emit(m, k, st, i, duration), Cut(m, k, st, i, duration));
  }

  lemma ScannedFrame(k: Params, st: St, scanned: nat)
    ensures Frame(k, st, st.(scanned := scanned))
  {
  }

  lemma AdvanceFrame(m: Media, k: Params, st: St, i: nat, isAccess: bool, t: Timing)
    requires k.window >= 1 && i < |st.cur|
    requires isAccess ==> TablePrefix(m, st.access).Some?
    ensures Frame(k, st, Advance(m, k, st, i, isAccess, t))
    ensures Advance(m, k, st, i, isAccess, t).panicked == st.panicked
  {
    hide ObserveClock, ClockReset, Cut, Frame, TablePrefix, SameIntake, SamePublic;
    var (s, observation) := ObserveClock(m, st, t);
    QuietFrame(k, st, s);
    if observation.Reset? {
      QuietFrame(k, s, ClockReset(s, i));
    } else if i > 0 && TargetReached(k, s.clock) && isAccess {
      CutFrame(m, k, s, i, Elapsed(s.clock).value);
    } else {
      ScannedFrame(k, s, i + 1);
    }
    FrameTrans(k, st, s, Advance(m, k, st, i, isAccess, t));
  }

  lemma SortFrame(m: Media, k: Params, st: St, i: nat, isAccess: bool, marked: bool, duplicate: bool, t: Timing)
    requires k.window >= 1 && i < |st.cur|
    requires isAccess ==> TablePrefix(m, st.access).Some?
    ensures Frame(k, st, Sort(m, k, st, i, isAccess, marked, duplicate, t))
    ensures Sort(m, k, st, i, isAccess, marked, duplicate, t).panicked == st.panicked
  {
    hide MarkerReset, DropSdt, Open, Advance, TsPid, Frame, SameIntake, SamePublic, TablePrefix;
    if marked {
      QuietFrame(k, st, MarkerReset(st, i));
    } else if st.filterSdt && TsPid(st.cur[i]) == SDT_PID {
      QuietFrame(k, st, DropSdt(st, i, duplicate));
    } else if st.awaiting {
      QuietFrame(k, st, Open(m, k, st, i, isAccess, duplicate));
    } else {
      AdvanceFrame(m, k, st, i, isAccess, t);
    }
  }

  lemma PreludeFrame(k: Params, st: St, access: Access, dedupe: bool)
    ensures Frame(k, st, st.(access := access, dedupe := dedupe))
  {
  }

  lemma ScanStepFrame(m: Media, k: Params, st: St)
    requires ScanWf(m, k, st) && st.scanned < |st.cur|
    ensures Frame(k, st, ScanStep(m, k, st))
    ensures ScanStep(m, k, st).panicked == st.panicked
  {
    hide Sort, Notice, TsTiming, Frame, Rebases, AccessInv, TablePrefix;
    var (s, isAccess) := Notice(m, st);
    var t := TsTiming(st.cur[st.scanned]);
    PreludeFrame(k, st, s.access, s.dedupe);
    SortFrame(m, k, s, st.scanned, isAccess, t.discontinuity && !st.dedupe, t.discontinuity && st.dedupe,
              t.(discontinuity := false));
    FrameTrans(k, st, s, ScanStep(m, k, st));
  }

  lemma {:induction false} ScanFrame(m: Media, k: Params, st: St)
    requires ScanWf(m, k, st)
    ensures Frame(k, st, Scan(m, k, st)) && Scan(m, k, st).panicked == st.panicked
    decreases |st.cur| - st.scanned, st.awaiting, WouldReach(m, k, st)
  {
    if st.scanned < |st.cur| {
      var s := ScanStep(m, k, st);
      ScanStepProgress(m, k, st);
      ScanStepFrame(m, k, st);
      ScanFrame(m, k, s);
      FrameTrans(k, st, s, Scan(m, k, s));
    } else {
      QuietFrame(k, st, st);
    }
  }

  lemma ForceFrame(m: Media, k: Params, st: St, packet: Packet, t: Timing)
    requires k.window >= 1 && TargetReached(k, st.clock)
    ensures Frame(k, st, Force(m, k, st, packet, t))
  {
    hide Emit, Seed, TablePrefix;
    var s := Emit(m, k, st, |st.cur|, Elapsed(st.clock).value);
    EmitFrame(m, k, st, |st.cur|, Elapsed(st.clock).value);
    var r := Force(m, k, st, packet, t);
    var prefix := TablePrefix(m, s.access);
    if prefix.None? {
      assert r == s.(panicked := true);
    } else {
      QuietFrame(k, s, r);
    }
    FrameTrans(k, st, s, r);
  }

  lemma BeyondFrame(m: Media, k: Params, st: St, packet: Packet, isAccess: bool, t: Timing)
    requires k.window >= 1
    requires isAccess ==> TablePrefix(m, st.access).Some?
    ensures Frame(k, st, Beyond(m, k, st, packet, isAccess, t))
  {
    var r := Beyond(m, k, st, packet, isAccess, t);
    if st.filterSdt && TsPid(packet) == SDT_PID {
      QuietFrame(k, st, st);
    } else if TargetReached(k, st.clock) {
      ForceFrame(m, k, st, packet, t);
    } else {
      QuietFrame(k, st, r);
    }
  }

  lemma TimedFrame(m: Media, k: Params, st: St, packet: Packet, isAccess: bool, t: Timing)
    requires k.window >= 1
    requires isAccess ==> TablePrefix(m, st.access).Some?
    ensures Frame(k, st, Timed(m, k, st, packet, isAccess, t))
  {
    hide Beyond, Discard, Frame, ObserveClock;
    var (s, observation) := ObserveClock(m, st, t);
    var r := Timed(m, k, st, packet, isAccess, t);
    QuietFrame(k, st, s);
    if observation.Reset? {
      QuietFrame(k, s, r);
    } else {
      BeyondFrame(m, k, s, packet, isAccess, t);
    }
    FrameTrans(k, st, s, r);
  }

  lemma LookaheadFrame(m: Media, k: Params, st: St, packet: Packet)
    requires k.window >= 1 && AccessInv(m, st.access)
    ensures Frame(k, st, Lookahead(m, k, st, packet))
  {
    hide Observe, TsTiming, Timed, Discard, Frame, AccessInv, SameIntake, SamePublic, TablePrefix;
    ObserveInv(m, st.access, packet, Since(st));
    var t := TsTiming(packet);
    var (access, isAccess) := Observe(m, st.access, packet, Since(st));
    var r := Lookahead(m, k, st, packet);
    if t.discontinuity && !st.dedupe {
      var s := st.(access := ResetAccess(access));
      PreludeFrame(k, st, s.access, st.dedupe);
      QuietFrame(k, s, Discard(s));
      assert r == Discard(s);
      FrameTrans(k, st, s, r);
    } else {
      var s := st.(access := access, dedupe := st.dedupe && !t.discontinuity);
      PreludeFrame(k, st, s.access, s.dedupe);
      TimedFrame(m, k, s, packet, isAccess, t.(discontinuity := false));
      FrameTrans(k, st, s, r);
    }
  }

  lemma FeedPacketFrame(m: Media, k: Params, st: St, packet: Packet)
    requires ScanWf(m, k, st)
    ensures Frame(k, st, FeedPacket(m, k, st, packet))
  {
    if |st.cur| == k.maxPackets {
      LookaheadFrame(m, k, st, packet);
    } else {
      var a := Append(st, packet);
      QuietFrame(k, st, a);
      ScanFrame(m, k, a);
      FrameTrans(k, st, a, Scan(m, k, a));
    }
  }

  lemma ChooseFrame(m: Media, k: Params, st: St, packet: Packet)
    requires ScanWf(m, k, st)
    ensures Frame(k, st, Choose(m, k, st, packet))
  {
    hide TsTiming, Discard, Select, FeedPacket, Frame, AccessInv;
    var r := Choose(m, k, st, packet);
    if Unannounced(st, packet) {
      QuietFrame(k, st, r);
    } else {
      var s := Select(m, st, packet);
      SelectWf(m, k, st, packet);
      QuietFrame(k, st, s);
      var result := m.audioObserve(st.audio.seen, packet);
      if result.packet.Some? {
        FeedPacketFrame(m, k, s, result.packet.value);
      } else {
        QuietFrame(k, s, r);
      }
      FrameTrans(k, st, s, r);
    }
  }

  lemma FeedWholeFrame(m: Media, k: Params, st: St, source: Packet)
    requires ScanWf(m, k, st)
    ensures Frame(k, Record(m, st, source), FeedWhole(m, k, st, source))
  {
    hide Record, Opened, Choose, Frame, AccessInv;
    RecordWf(m, k, st, source);
    ChooseFrame(m, k, Record(m, st, source), Opened(st, source));
  }

  // ----- Bytes ----------------------------------------------------------------------------

  ghost predicate FeedWf(m: Media, k: Params, st: St) {
    ScanWf(m, k, st) && |st.input| < TS_PACKET
  }

  /** Stage bytes that were fed under `tag`. */
  function Stage(st: St, bytes: seq<byte>, tag: Tag): St {
    st.(input := st.input + bytes, tags := (if st.input == [] then {} else st.tags) + {tag},
        hist := st.hist.(fed := st.hist.fed + {tag}))
  }

  /** Feed the staged packet once it is complete. */
  ghost function Flush(m: Media, k: Params, st: St): (r: St)
    requires ScanWf(m, k, st) && |st.input| <= TS_PACKET
    ensures FeedWf(m, k, r)
  {
    if |st.input| < TS_PACKET then st
    else
      var s := st.(input := []);
      RecordWf(m, k, s, Packet(st.input));
      ChooseWf(m, k, Record(m, s, Packet(st.input)), Opened(s, Packet(st.input)));
      FeedWholeFrame(m, k, s, Packet(st.input));
      FeedWhole(m, k, s, Packet(st.input))
  }

  /** How much of `data` completes, at most, the staged packet. */
  function Take(st: St, data: seq<byte>): (n: nat)
    requires |st.input| < TS_PACKET
    ensures n <= |data| && |st.input| + n <= TS_PACKET && (data != [] ==> n > 0)
  {
    var room := TS_PACKET - |st.input|;
    if |data| < room then |data| else room
  }

  ghost function Fill(m: Media, k: Params, st: St, bytes: seq<byte>, tag: Tag): (r: St)
    requires FeedWf(m, k, st) && |st.input| + |bytes| <= TS_PACKET
    ensures FeedWf(m, k, r)
  {
    Flush(m, k, Stage(st, bytes, tag))
  }

  /** The intake loop; a panic unwinds it. */
  ghost function FeedBytes(m: Media, k: Params, st: St, data: seq<byte>, tag: Tag): (r: St)
    requires FeedWf(m, k, st)
    ensures FeedWf(m, k, r)
    decreases |data|
  {
    if data == [] || st.panicked then st
    else
      var take := Take(st, data);
      FeedBytes(m, k, Fill(m, k, st, data[..take], tag), data[take..], tag)
  }

  // ----- Operations -----------------------------------------------------------------------

  /** `late` says whether the startup deadline has passed. */
  function Expire(st: St, late: bool): St {
    if st.strict && (st.status == Starting || st.status == Recovering) && late then
      st.(status := Failed(Deadline))
    else st
  }

  ghost function FeedLocked(m: Media, k: Params, st: St, data: seq<byte>, tag: Tag, late: bool): (r: St)
    requires FeedWf(m, k, st)
    ensures FeedWf(m, k, r)
  {
    var s := Expire(st, late);
    if Closed(s.status) then s else FeedBytes(m, k, s, data, tag)
  }

  function BeginGeneration(st: St, generation: nat, recovering: bool): St {
    if Closed(st.status) || generation <= st.generation then st
    else
      ResetPartial(st, false, !recovering).(
        generation := generation, strict := true, generationSegments := 0,
        access := NewAccess(st.access.title, true), generationOpening := true,
        status := if recovering then Recovering else Starting, pending := recovering)
  }

  function FailGeneration(st: St, generation: nat, reason: Failure): St {
    if generation == st.generation && !Closed(st.status) then
      ResetPartial(st, false, false).(status := Failed(reason))
    else st
  }

  /** One call on the packager. After a panic the lock is poisoned and every call unwinds. */
  datatype Call =
    | Begin(generation: nat, recovering: bool)
    | FeedToken(token: nat, data: seq<byte>, late: bool)
    | Feed(data: seq<byte>, late: bool)
    | Fail(token: nat, reason: Failure)
    | Stop
    | Gap(paired: bool)
    | Poll(late: bool)

  ghost function Apply(m: Media, k: Params, st: St, c: Call): St
    requires FeedWf(m, k, st)
  {
    if st.panicked then st
    else
      match c
      case Begin(generation, recovering) => BeginGeneration(st, generation, recovering)
      case FeedToken(token, data, late) =>
        if token != st.generation || Closed(st.status) then st else FeedLocked(m, k, st, data, Fenced(token), late)
      case Feed(data, late) =>
        if Closed(st.status) then st else FeedLocked(m, k, st, data, Native, late)
      case Fail(token, reason) => FailGeneration(st, token, reason)
      case Stop => ResetPartial(st, false, false).(status := Stopped)
      case Gap(paired) => ResetPartial(st, paired, false)
      case Poll(late) => Expire(st, late)
  }

  lemma ResetWf(m: Media, k: Params, st: St, dedupe: bool, restart: bool)
    requires FeedWf(m, k, st)
    ensures FeedWf(m, k, ResetPartial(st, dedupe, restart))
  {
  }

  lemma ApplyWf(m: Media, k: Params, st: St, c: Call)
    requires FeedWf(m, k, st)
    ensures FeedWf(m, k, Apply(m, k, st, c))
  {
    ResetWf(m, k, st, false, c.Begin? && !c.recovering);
    ResetWf(m, k, st, c.Gap? && c.paired, false);
  }

  /** A packager as constructed for a session, before any call. */
  function Initial(k: Params, title: bool, strict: bool): St {
    St(0, Starting, strict, 0, strict, NEW_AUDIO, [], Window(0, 0, [], k.target), [], 0, CLEARED, None,
       false, false, NewAccess(title, strict), true, title, false, Mark(0, 0, 0, 0), {}, History([], 0, [], {}))
  }
}
