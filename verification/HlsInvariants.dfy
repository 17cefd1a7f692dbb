/** What every packager step keeps: how the open run and every emitted segment lie in the stream
    of source packets and breaks. */
module HlsInvariants {
  import opened Ts
  import opened HlsModel

  // ----- The source stream ----------------------------------------------------------------

  function PrefixLen(title: bool): nat {
    if title then 3 else 2
  }

  /** A PAT, the PMT that PAT names, and the title's SDT when there is one. */
  ghost predicate TablesOk(m: Media, title: bool, tables: seq<Packet>) {
    && |tables| == PrefixLen(title)
    && TsPid(tables[0]) == 0
    && var mapping := m.patProgram(tables[0]);
       && mapping.Some? && mapping.value.Some?
       && TsPid(tables[1]) == mapping.value.value.1
       && m.pmtVideo(tables[1], Some(mapping.value.value.0)).Some?
       && (title ==> exists identity :: tables[2] == m.sdt(tables[0], mapping.value.value.0, identity))
  }

  predicate Marked(p: Packet) {
    TsTiming(p).discontinuity
  }

  /** An upstream SDT packet, which a titled stream replaces. */
  predicate Filtered(title: bool, p: Packet) {
    title && TsPid(p) == SDT_PID
  }

  /** The event brought a packet that belongs in a segment. */
  predicate InBody(title: bool, e: Event) {
    e.Source? && e.kept.Some? && !Filtered(title, e.kept.value)
  }

  /** All packets that the events from `from` on brought for the segments, in order. */
  function Bodies(events: seq<Event>, title: bool, from: nat): seq<Packet> {
    if |events| <= from then []
    else
      var e := events[|events| - 1];
      Bodies(events[..|events| - 1], title, from) + if InBody(title, e) then [e.kept.value] else []
  }

  /** A source packet without a marker, on arrival and as the audio selection passes it on. */
  predicate Calm(e: Event) {
    e.Source? && !Marked(e.source) && (e.kept.Some? ==> !Marked(e.kept.value))
  }

  /** After event `chain` nothing breaks the stream. */
  ghost predicate Clean(events: seq<Event>, chain: nat) {
    forall x | chain < x < |events| :: Calm(events[x])
  }

  // ----- The clock of the source stream ---------------------------------------------------

  /** The event brought a clock reference into a segment. */
  predicate Ticks(title: bool, e: Event) {
    InBody(title, e) && e.reading.pcr.Some?
  }

  /** The PID of the first clock reference from `chain` on. */
  function ClockPid(events: seq<Event>, title: bool, chain: nat): Option<nat> {
    if |events| <= chain then None
    else
      var e, pid := events[|events| - 1], ClockPid(events[..|events| - 1], title, chain);
      if pid.None? && Ticks(title, e) then Some(e.reading.pid) else pid
  }

  /** The latest clock reference on `pid` from `chain` on. */
  function LastPcr(events: seq<Event>, title: bool, chain: nat, pid: nat): Option<Pcr> {
    if |events| <= chain then None
    else
      var e := events[|events| - 1];
      if Ticks(title, e) && e.reading.pid == pid then e.reading.pcr
      else LastPcr(events[..|events| - 1], title, chain, pid)
  }

  /** The first clock reference on `pid` from `chain` on. */
  function FirstPcr(events: seq<Event>, title: bool, chain: nat, pid: nat): Option<Pcr> {
    if |events| <= chain then None
    else
      var e, first := events[|events| - 1], FirstPcr(events[..|events| - 1], title, chain, pid);
      if first.None? && Ticks(title, e) && e.reading.pid == pid then e.reading.pcr else first
  }

  /** Where the clock of a segment starts: at the first reference of its run, or at the latest one up
      to the event with which the segment before it ended. */
  function StartPcr(events: seq<Event>, title: bool, mark: Mark, pid: nat): Option<Pcr> {
    if mark.from == mark.chain then FirstPcr(events, title, mark.chain, pid)
    else LastPcr(if mark.from < |events| then events[..mark.from + 1] else events, title, mark.chain, pid)
  }

  /** Each clock reference on `pid` from `chain` on follows the one before it within half the
      clock's range. */
  predicate Steady(events: seq<Event>, title: bool, chain: nat, pid: nat) {
    |events| <= chain ||
    var e, before := events[|events| - 1], events[..|events| - 1];
    && Steady(before, title, chain, pid)
    && (Ticks(title, e) && e.reading.pid == pid ==>
          var last := LastPcr(before, title, chain, pid);
          last.None? || PcrDelta(last.value, e.reading.pcr.value).Some?)
  }

  /** A titled stream's clock follows a PID whose packets are all dropped. */
  predicate Captured(title: bool, pid: Option<nat>) {
    title && pid == Some(SDT_PID)
  }

  /** After the events `before`, event `e` brings an upstream SDT packet with a clock reference, at a
      moment when a run that began at `chain` is full and no reference has started its clock. */
  predicate Seizes(before: seq<Event>, e: Event, title: bool, max: nat, chain: nat) {
    && e.Source? && e.kept.Some? && Filtered(title, e.kept.value) && e.reading.pcr.Some?
    && ClockPid(before, title, chain).None?
    && PrefixLen(title) + |Bodies(before, title, chain)| == max
  }

  /** Some event from `chain` on did so. */
  predicate Seized(events: seq<Event>, title: bool, max: nat, chain: nat) {
    && |events| > chain
    && var before := events[..|events| - 1];
       Seized(before, title, max, chain) || Seizes(before, events[|events| - 1], title, max, chain)
  }

  /** The clock was captured exactly if it was seized; otherwise it stands at the latest reference of
      the first PID that brought one, counts from the reference its segment started at, and all
      references have been steady. */
  ghost predicate Tracks(events: seq<Event>, title: bool, max: nat, mark: Mark, c: Clock) {
    && (Captured(title, c.pid) <==> Seized(events, title, max, mark.chain))
    && (!Captured(title, c.pid) ==>
          && c.pid == ClockPid(events, title, mark.chain)
          && (c.pid.Some? ==>
                && Steady(events, title, mark.chain, c.pid.value)
                && c.last == LastPcr(events, title, mark.chain, c.pid.value)
                && c.start.Some? && c.start == StartPcr(events, title, mark, c.pid.value))
          && (c.pid.None? ==> c.last.None? && c.start.None?))
  }

  lemma {:induction false} NoTicks(events: seq<Event>, title: bool, chain: nat, pid: nat)
    requires ClockPid(events, title, chain).None?
    ensures LastPcr(events, title, chain, pid).None? && Steady(events, title, chain, pid)
    ensures FirstPcr(events, title, chain, pid).None?
    decreases |events|
  {
    if |events| > chain {
      NoTicks(events[..|events| - 1], title, chain, pid);
    }
  }

  /** Where a segment's clock starts does not depend on the latest event. */
  lemma StartPcrKept(events: seq<Event>, title: bool, mark: Mark, pid: nat)
    requires |events| > 0 && (mark.chain != mark.from ==> mark.from < |events| - 1)
    requires StartPcr(events[..|events| - 1], title, mark, pid).Some?
    ensures StartPcr(events, title, mark, pid) == StartPcr(events[..|events| - 1], title, mark, pid)
  {
    if mark.chain != mark.from {
      assert events[..|events| - 1][..mark.from + 1] == events[..mark.from + 1];
    }
  }

  /** Observing the clock reference that the latest event brought keeps the clock in step. */
  lemma TracksStep(events: seq<Event>, title: bool, max: nat, mark: Mark, c: Clock)
    requires |events| > mark.chain && Tracks(events[..|events| - 1], title, max, mark, c)
    requires mark.chain != mark.from ==> mark.from < |events| - 1 && c.pid.Some?
    requires var e := events[|events| - 1];
             && InBody(title, e) && (e.reading.pcr.Some? ==> e.reading.pid == TsPid(e.kept.value))
             && !ClockObserve(c, e.reading).1.Reset?
    ensures Tracks(events, title, max, mark, ClockObserve(c, events[|events| - 1].reading).0)
  {
    var e, before := events[|events| - 1], events[..|events| - 1];
    if !Captured(title, c.pid) {
      if c.pid.Some? {
        StartPcrKept(events, title, mark, c.pid.value);
      } else if Ticks(title, e) {
        NoTicks(before, title, mark.chain, e.reading.pid);
      }
    }
  }

  /** Observing it a second time changes nothing. */
  lemma TracksAgain(events: seq<Event>, title: bool, max: nat, mark: Mark, c: Clock)
    requires |events| > mark.chain && Tracks(events, title, max, mark, c)
    requires var e := events[|events| - 1];
             InBody(title, e) && (e.reading.pcr.Some? ==> e.reading.pid == TsPid(e.kept.value)) && !e.reading.discontinuity
    ensures var r := ClockObserve(c, events[|events| - 1].reading);
            !r.1.Reset? && Tracks(events, title, max, mark, r.0)
  {
  }

  /** An event that brings nothing for a segment, and that the clock does not see, leaves the clock in
      step unless it should have captured it. */
  lemma TracksSkip(events: seq<Event>, title: bool, max: nat, mark: Mark, c: Clock)
    requires |events| > mark.chain && !InBody(title, events[|events| - 1])
    requires mark.chain != mark.from ==> mark.from < |events| - 1
    requires Tracks(events[..|events| - 1], title, max, mark, c)
    requires Seizes(events[..|events| - 1], events[|events| - 1], title, max, mark.chain) ==> Captured(title, c.pid)
    ensures Tracks(events, title, max, mark, c)
  {
    if !Captured(title, c.pid) && c.pid.Some? {
      StartPcrKept(events, title, mark, c.pid.value);
    }
  }

  /** Behind a full run the clock sees a dropped SDT packet: it is captured if it had not started. */
  lemma TracksFiltered(events: seq<Event>, title: bool, max: nat, mark: Mark, c: Clock)
    requires |events| > mark.chain && Tracks(events[..|events| - 1], title, max, mark, c)
    requires mark.chain != mark.from ==> mark.from < |events| - 1
    requires var e := events[|events| - 1];
             && e.Source? && e.kept.Some? && Filtered(title, e.kept.value)
             && (e.reading.pcr.Some? ==> e.reading.pid == SDT_PID)
             && !ClockObserve(c, e.reading).1.Reset?
    requires c.pid.None? ==> PrefixLen(title) + |Bodies(events[..|events| - 1], title, mark.chain)| == max
    ensures Tracks(events, title, max, mark, ClockObserve(c, events[|events| - 1].reading).0)
  {
    if !Captured(title, c.pid) && c.pid.Some? {
      StartPcrKept(events, title, mark, c.pid.value);
    }
  }

  /** A clock restarted for the segment that the latest event opens. */
  lemma TracksRebased(events: seq<Event>, title: bool, max: nat, mark: Mark, mark': Mark, c: Clock,
                      boundary: Option<Timing>)
    requires Tracks(events, title, max, mark, c) && Rebases(c, boundary)
    requires mark.chain == mark'.chain < mark'.from == |events| - 1
    ensures Tracks(events, title, max, mark', Rebase(boundary)) && Rebases(Rebase(boundary), boundary)
    ensures Rebase(boundary).pid == c.pid
  {
    assert events[..mark'.from + 1] == events;
  }

  // ----- Where packets come from ----------------------------------------------------------

  /** `memory` is what the events just before the `n`-th showed the audio selection. */
  ghost predicate Remembers(events: seq<Event>, n: nat, memory: seq<Packet>) {
    && |memory| <= n <= |events|
    && forall x | n - |memory| <= x < n ::
         events[x].Source? && events[x].packet == memory[x - (n - |memory|)]
  }

  /** A source packet whose marker, if any, the owner had announced. */
  predicate Joined(e: Event) {
    e.Source? && (Marked(e.packet) ==> e.paired)
  }

  /** Neither a break nor an unannounced marker since event `since`. */
  ghost predicate Unbroken(events: seq<Event>, since: nat) {
    since <= |events| && forall x | since <= x < |events| :: Joined(events[x])
  }

  /** What an event says of a source packet: the packet as its generation opens it, what the audio
      selection made of it and of the unbroken events before it, and its clock timing. */
  ghost predicate Recorded(m: Media, events: seq<Event>, x: nat)
    requires x < |events|
  {
    var e := events[x];
    e.Source? ==>
      && (e.packet == e.source || e.packet == ClearMarker(e.source))
      && Remembers(events, x, e.memory) && Unbroken(events[..x], x - |e.memory|)
      && e.kept == (if Joined(e) then m.audioObserve(e.memory, e.packet).packet else None)
      && (e.kept.Some? ==>
            e.reading == Selected(m, e.memory + [e.packet], TsTiming(e.kept.value).(discontinuity := false)))
  }

  /** `p` was passed on by the audio selection, or is one of the tables it keeps, from what it saw
      at event `since` or later. */
  ghost predicate Learned(m: Media, events: seq<Event>, p: Packet, since: nat) {
    || (exists y | 0 <= y < |events| ::
          events[y].Source? && events[y].kept == Some(p) && since + |events[y].memory| <= y)
    || (exists y: nat, memory: seq<Packet> ::
          Remembers(events, y, memory) && since + |memory| <= y && p in m.audioTables(memory))
  }

  ghost predicate Sourced(m: Media, events: seq<Event>, p: Packet, since: nat) {
    Unbroken(events, since) && Learned(m, events, p, since)
  }

  /** Bytes fed natively, or under the token of generation `gen`. */
  ghost predicate Own(fed: set<Tag>, gen: nat, tags: set<Tag>) {
    tags <= {Native, Fenced(gen)} && tags <= fed
  }

  /** Everything from event `start` on is a source packet of generation `gen`. */
  ghost predicate Fenceable(events: seq<Event>, fed: set<Tag>, start: nat, gen: nat) {
    && start <= |events| && (start > 0 ==> events[start - 1].Break?)
    && forall x | start <= x < |events| :: events[x].Source? && Own(fed, gen, events[x].tags)
  }

  /** What the continuity rewriting of a segment may depend on: packets seen since the last break,
      and segments emitted since then. */
  ghost predicate Known(events: seq<Event>, log: seq<Entry>, start: nat, a: AudioEvent) {
    match a
    case Seen(p) => exists x | start <= x < |events| :: events[x].Source? && events[x].packet == p
    case Sent(raw) => exists j | 0 <= j < |log| :: log[j].raw == raw && log[j].start == start
  }

  ghost predicate AllKnown(events: seq<Event>, log: seq<Entry>, start: nat, memory: seq<AudioEvent>) {
    forall i | 0 <= i < |memory| :: Known(events, log, start, memory[i])
  }

  // ----- Emitted segments -----------------------------------------------------------------

  /** `packet` is an access point of the video that these tables announce. */
  ghost predicate AccessPoint(m: Media, pat: Packet, pmt: Packet, packet: Packet) {
    var mapping := m.patProgram(pat);
    && mapping.Some? && mapping.value.Some?
    && var video := m.pmtVideo(pmt, Some(mapping.value.value.0));
       && video.Some? && video.value.Some?
       && TsPid(packet) == video.value.value.0
       && m.randomAccess(packet, Some(video.value.value.1))
  }

  /** Since the last segment, a generation began without announcing a recovery. */
  ghost predicate Restarted(events: seq<Event>, start: nat, log: seq<Entry>) {
    && 0 < start <= |events| && events[start - 1] == Break(true)
    && (log != [] ==> log[|log| - 1].upto < start)
  }

  /** How packets published after `log` open. A run begins on an access point, flagged unless
      nothing was published before it or its generation began as a restart; otherwise they begin
      with exactly the event where the last segment ended. */
  ghost predicate Opening(m: Media, events: seq<Event>, title: bool, log: seq<Entry>, start: nat, gen: nat,
                          flagged: bool, mark: Mark, packets: seq<Packet>) {
    && |packets| >= 2
    && mark.chain <= mark.from < |events|
    && InBody(title, events[mark.chain]) && InBody(title, events[mark.from])
    && var first := events[mark.from].kept.value;
       if mark.chain == mark.from then
         && AccessPoint(m, packets[0], packets[1], first)
         && (Marked(first) ==> flagged)
         && (flagged || log == [] || Restarted(events, start, log))
       else
         && !flagged && log != []
         && var e := log[|log| - 1];
            e.mark.chain == mark.chain && e.upto == mark.from && e.start == start && e.gen == gen
  }

  /** Tables, then everything that events `mark.from` up to the `n`-th brought for a segment, with
      nothing breaking the stream since `mark.chain`. */
  ghost predicate Stretch(m: Media, events: seq<Event>, title: bool, packets: seq<Packet>, mark: Mark, start: nat, n: nat) {
    var t := PrefixLen(title);
    && |packets| >= t && TablesOk(m, title, packets[..t])
    && start <= mark.chain <= mark.from <= n <= |events|
    && packets[t..] == Bodies(events[..n], title, mark.from)
    && Clean(events[..n], mark.chain)
    && Sourced(m, events, packets[0], mark.pat) && Sourced(m, events, packets[1], mark.pmt)
  }

  /** The clock that timed a segment followed the first PID that brought a reference, was steady, and
      measured `duration`, unless it was seized. */
  ghost predicate Timely(events: seq<Event>, title: bool, max: nat, mark: Mark, pid: Option<nat>, duration: nat) {
    && pid.Some?
    && (Captured(title, pid) <==> Seized(events, title, max, mark.chain))
    && (!Captured(title, pid) ==>
          && pid == ClockPid(events, title, mark.chain) && Steady(events, title, mark.chain, pid.value)
          && var start, last := StartPcr(events, title, mark, pid.value), LastPcr(events, title, mark.chain, pid.value);
             start.Some? && last.Some? && PcrDelta(start.value, last.value) == Some(duration))
  }

  /** A segment, judged by the events up to the one it stopped short of. */
  ghost predicate EntryOk(m: Media, k: Params, events: seq<Event>, fed: set<Tag>, title: bool, e: Entry) {
    && |events| == e.upto + 1 && InBody(title, events[e.upto])
    && Stretch(m, events, title, e.raw, e.mark, e.start, e.upto)
    && Clean(events, e.mark.chain)
    && Timely(events, title, k.maxPackets, e.mark, e.pid, e.segment.duration)
    && Fenceable(events, fed, e.start, e.gen)
    && e.segment.packets == Rewritten(m, e.memory, e.raw)
    && PrefixLen(title) < |e.raw| <= k.maxPackets
    && e.segment.duration >= k.target
  }

  ghost predicate LogAt(m: Media, k: Params, h: History, title: bool, log: seq<Entry>, i: nat)
    requires i < |log|
  {
    var e := log[i];
    && e.upto < |h.events|
    && EntryOk(m, k, h.events[..e.upto + 1], h.fed, title, e)
    && Opening(m, h.events, title, log[..i], e.start, e.gen, e.segment.discontinuity, e.mark, e.raw)
    && AllKnown(h.events[..e.upto + 1], log[..i], e.start, e.memory)
  }

  ghost predicate LogOk(m: Media, k: Params, h: History, title: bool, log: seq<Entry>) {
    forall i | 0 <= i < |log| :: LogAt(m, k, h, title, log, i)
  }

  // ----- The packager's state -------------------------------------------------------------

  /** The record of events, and everything that only depends on it. */
  ghost predicate Ledger(m: Media, k: Params, st: St) {
    && ScanWf(m, k, st)
    && st.filterSdt == st.access.title
    && PrefixLen(st.access.title) + 1 <= k.maxPackets
    && (st.dedupe ==> st.pending)
    && Own(st.hist.fed, st.generation, st.tags)
    && (forall x | 0 <= x < |st.hist.events| :: Recorded(m, st.hist.events, x))
    && Fenceable(st.hist.events, st.hist.fed, st.hist.start, st.generation)
    && LogOk(m, k, st.hist, st.access.title, st.hist.log)
  }

  /** The audio selection remembers exactly what it has seen since the last break. */
  ghost predicate AudioOk(h: History, audio: Audio) {
    && Remembers(h.events, |h.events|, audio.seen)
    && Unbroken(h.events, |h.events| - |audio.seen|)
    && AllKnown(h.events, h.log, h.start, audio.events)
  }

  /** Cached tables were learned since the last break. */
  ghost predicate Cached(m: Media, h: History, a: Access) {
    && (a.pat.Some? ==> Sourced(m, h.events, a.pat.value, a.patSince))
    && (a.pmt.Some? ==> Sourced(m, h.events, a.pmt.value, a.pmtSince))
  }

  ghost predicate Base(m: Media, k: Params, st: St) {
    Ledger(m, k, st) && AudioOk(st.hist, st.audio) && Cached(m, st.hist, st.access)
  }

  /** The latest event is a source packet, and the audio selection has seen it. */
  ghost predicate Heard(st: St) {
    && |st.hist.events| > 0
    && var e := st.hist.events[|st.hist.events| - 1];
       e.Source? && Joined(e) && st.audio.seen == e.memory + [e.packet]
  }

  /** The latest event brought `p`. */
  ghost predicate Offered(st: St, p: Packet) {
    Heard(st) && st.hist.events[|st.hist.events| - 1].kept == Some(p)
  }

  ghost predicate Waiting(st: St) {
    && st.scanned == 0
    && st.boundary.None?
    && (st.pending || st.hist.log == [] || Restarted(st.hist.events, st.hist.start, st.hist.log))
    && |st.cur| <= 1
    && (|st.cur| == 1 ==> Offered(st, st.cur[0]))
  }

  /** The open run covers the events from `st.mark.from` up to the `n`-th. */
  ghost predicate Covers(m: Media, st: St, cur: seq<Packet>, n: nat) {
    && Stretch(m, st.hist.events, st.access.title, cur, st.mark, st.hist.start, n)
    && Opening(m, st.hist.events, st.access.title, st.hist.log, st.hist.start, st.generation, st.pending,
               st.mark, cur)
    && !st.generationOpening
    && (st.clock.pid.None? ==> st.mark.from == st.mark.chain)
  }

  /** Everything that arrived is in the run. */
  ghost predicate Complete(m: Media, k: Params, st: St) {
    && PrefixLen(st.access.title) < |st.cur|
    && Covers(m, st, st.cur, |st.hist.events|)
    && Tracks(st.hist.events, st.access.title, k.maxPackets, st.mark, st.clock)
    && !st.dedupe
  }

  /** The latest event follows the run `cur`. */
  ghost predicate Ahead(m: Media, st: St, cur: seq<Packet>) {
    && |st.hist.events| > 0
    && var last := |st.hist.events| - 1;
       && Covers(m, st, cur, last)
       && st.hist.events[last].Source?
       && (st.mark.chain < last ==> !Marked(st.hist.events[last].source))
  }

  /** The last buffered packet is still to be scanned. */
  ghost predicate Unscanned(m: Media, k: Params, st: St) {
    var title, t := st.access.title, PrefixLen(st.access.title);
    && t <= st.scanned == |st.cur| - 1
    && Ahead(m, st, st.cur[..st.scanned]) && Offered(st, st.cur[st.scanned])
    && var last := |st.hist.events| - 1;
       && Tracks(if st.mark.chain < st.mark.from == last then st.hist.events else st.hist.events[..last], title,
                 k.maxPackets, st.mark, st.clock)
       && (st.scanned == t ==> !WouldReach(m, k, st) && !Filtered(title, st.cur[t]))
       && (st.dedupe ==> st.mark.chain == last && Marked(st.cur[st.scanned]))
  }

  ghost predicate Running(m: Media, k: Params, st: St) {
    if st.scanned == |st.cur| then Complete(m, k, st) else Unscanned(m, k, st)
  }

  /** Everything about the buffered run, at any point of the scan loop. */
  ghost predicate RunInv(m: Media, k: Params, st: St) {
    && Base(m, k, st)
    && |st.cur| <= k.maxPackets
    && (if st.awaiting then Waiting(st) else Running(m, k, st))
  }

  /** Between packets everything buffered has been scanned. */
  ghost predicate RestInv(m: Media, k: Params, st: St) {
    RunInv(m, k, st) && st.scanned == |st.cur|
  }

  /** Where intake leaves the packager: at rest, or panicked with its run already emitted. */
  ghost predicate Settled(m: Media, k: Params, st: St) {
    if st.panicked then Base(m, k, st) && st.cur == [] else RestInv(m, k, st)
  }

  /** The latest event has been heard, and is not yet part of the run. */
  ghost predicate Next(m: Media, k: Params, st: St) {
    && Base(m, k, st) && Heard(st)
    && st.scanned == |st.cur| <= k.maxPackets
    && if st.awaiting then Waiting(st) else Holding(m, k, st)
  }

  /** A run, complete but for the latest event. */
  ghost predicate Holding(m: Media, k: Params, st: St) {
    && PrefixLen(st.access.title) < |st.cur|
    && Ahead(m, st, st.cur)
    && Tracks(st.hist.events[..|st.hist.events| - 1], st.access.title, k.maxPackets, st.mark, st.clock)
    && st.mark.from < |st.hist.events| - 1
    && !st.dedupe
  }
}
