/** What a packager promises its clients, over every run. */
module HlsTheorems {
  import opened Ts
  import opened HlsModel
  import opened HlsInvariants
  import opened HlsSteps
  import opened HlsRuns
  import opened HlsConfig

  /** States a packager can reach from its construction, whatever its owner calls. */
  ghost predicate Reachable(m: Media, k: Params, named: bool, strict: bool, calls: seq<Call>, st: St) {
    && ValidParams(k)
    && var initial := Initial(k, Titled(k, named), strict);
       && FeedWf(m, k, initial)
       && st == Run(m, k, initial, calls)
  }

  lemma ReachableInv(m: Media, k: Params, named: bool, strict: bool, calls: seq<Call>, st: St)
    requires Reachable(m, k, named, strict, calls, st)
    ensures Inv(m, k, st) && st.access.title == Titled(k, named)
    ensures Native in st.hist.fed ==> exists i | 0 <= i < |calls| :: calls[i].Feed?
  {
    hide Apply, ScanWf, PublicInv, Settled;
    InitialInv(m, k, named, strict);
    RunKeeps(m, k, Initial(k, Titled(k, named), strict), calls);
  }

  lemma ReachableLog(m: Media, k: Params, named: bool, strict: bool, calls: seq<Call>, st: St, i: nat)
    requires Reachable(m, k, named, strict, calls, st) && i < |st.hist.log|
    ensures LogAt(m, k, st.hist, Titled(k, named), st.hist.log, i)
  {
    hide Reachable, RestInv, LogAt;
    ReachableInv(m, k, named, strict, calls, st);
    SettledLog(m, k, st);
  }

  lemma SettledLog(m: Media, k: Params, st: St)
    requires Settled(m, k, st)
    ensures LogOk(m, k, st.hist, st.access.title, st.hist.log)
  {
    hide LogOk;
  }

  // ----- Segments -------------------------------------------------------------------------

  /** Segment `e` is its tables, then exactly the packets that the source brought from event
      `e.mark.from` up to event `e.upto`, with nothing lost, repeated or reordered: packets that
      the audio selection drops and upstream SDT packets of a titled stream are all that is left
      out. Since event `e.mark.chain` the source has neither broken nor carried a marker. */
  ghost predicate Unmixed(m: Media, h: History, title: bool, e: Entry) {
    var t := PrefixLen(title);
    && t < |e.raw| && TablesOk(m, title, e.raw[..t])
    && e.segment.packets == Rewritten(m, e.memory, e.raw)
    && e.mark.chain <= e.mark.from < e.upto < |h.events|
    && e.raw[t..] == Bodies(h.events[..e.upto], title, e.mark.from)
    && InBody(title, h.events[e.mark.from]) && h.events[e.mark.from].kept == Some(e.raw[t])
    && (forall x | e.mark.chain < x <= e.upto :: Calm(h.events[x]))
  }

  /** Segment `i` begins a run of its own, on an access point of its own tables. */
  ghost predicate Begins(m: Media, h: History, title: bool, i: nat)
    requires i < |h.log|
  {
    var e, t := h.log[i], PrefixLen(title);
    && t < |e.raw| && e.mark.chain == e.mark.from
    && AccessPoint(m, e.raw[0], e.raw[1], e.raw[t])
    && (Marked(e.raw[t]) ==> e.segment.discontinuity)
  }

  /** Segment `i` begins with the very event that the segment before it stopped short of. */
  ghost predicate Continues(h: History, i: nat)
    requires 0 < i < |h.log|
  {
    var before, e := h.log[i - 1], h.log[i];
    e.mark.from == before.upto && e.mark.chain == before.mark.chain && e.gen == before.gen && e.start == before.start
  }

  /** Every segment of every run is one unbroken stretch of the source. The first and every flagged
      segment begins on an access point. Any other segment continues the one before it, or begins
      on an access point after its owner started a generation without announcing a recovery. */
  lemma SeamlessOrFlagged(m: Media, k: Params, named: bool, strict: bool, calls: seq<Call>, st: St, i: nat)
    requires Reachable(m, k, named, strict, calls, st) && i < |st.hist.log|
    ensures var title, e := Titled(k, named), st.hist.log[i];
            && Unmixed(m, st.hist, title, e)
            && (i == 0 || e.segment.discontinuity ==> Begins(m, st.hist, title, i))
            && (i > 0 && !e.segment.discontinuity ==>
                  || Continues(st.hist, i)
                  || (Begins(m, st.hist, title, i) && Restarted(st.hist.events, e.start, st.hist.log[..i])))
  {
    hide Reachable, TablesOk, Sourced, Timely, Fenceable, AllKnown, AccessPoint, Calm, Marked;
    ReachableLog(m, k, named, strict, calls, st, i);
    EntryUnmixed(m, k, st.hist, Titled(k, named), st.hist.log, i);
  }

  lemma EntryUnmixed(m: Media, k: Params, h: History, title: bool, log: seq<Entry>, i: nat)
    requires i < |log| && LogAt(m, k, h, title, log, i)
    ensures Unmixed(m, h, title, log[i])
  {
    hide TablesOk, Sourced, Timely, Fenceable, AllKnown, AccessPoint, Marked, Restarted, Rewritten;
    var e := log[i];
    var ev := h.events[..e.upto + 1];
    assert ev[..e.upto] == h.events[..e.upto];
    forall x | e.mark.chain < x <= e.upto ensures Calm(h.events[x]) {
      assert ev[x] == h.events[x];
    }
    assert |Bodies(h.events[..e.upto], title, e.mark.from)| > 0;
    BodiesFirst(h.events[..e.upto], title, e.mark.from);
  }

  lemma {:induction false} BodiesFirst(events: seq<Event>, title: bool, from: nat)
    requires from < |events| && InBody(title, events[from])
    ensures Bodies(events, title, from) != [] && Bodies(events, title, from)[0] == events[from].kept.value
    decreases |events|
  {
    if |events| > from + 1 {
      BodiesFirst(events[..|events| - 1], title, from);
    } else {
      assert Bodies(events[..|events| - 1], title, from) == [];
    }
  }

  /** A segment that is neither first nor flagged fails to continue the one before it exactly if its
      owner started a generation without announcing a recovery in between. */
  lemma UnflaggedExactly(m: Media, k: Params, named: bool, strict: bool, calls: seq<Call>, st: St, i: nat)
    requires Reachable(m, k, named, strict, calls, st)
    requires 0 < i < |st.hist.log| && !st.hist.log[i].segment.discontinuity
    ensures !Continues(st.hist, i) <==> Restarted(st.hist.events, st.hist.log[i].start, st.hist.log[..i])
  {
    hide Reachable, Unmixed, Begins, EntryOk;
    SeamlessOrFlagged(m, k, named, strict, calls, st, i);
    ReachableLog(m, k, named, strict, calls, st, i - 1);
    EntryStart(m, k, st.hist, Titled(k, named), i - 1);
    assert st.hist.log[..i][i - 1] == st.hist.log[i - 1];
  }

  /** No generation begins as a first start once anything has been published. */
  ghost predicate OwnerOk(m: Media, k: Params, st: St, calls: seq<Call>)
    requires FeedWf(m, k, st)
    decreases |calls|
  {
    calls == [] ||
    (&& (calls[0].Begin? && !calls[0].recovering ==> st.hist.log == [])
     && (ApplyWf(m, k, st, calls[0]); OwnerOk(m, k, Apply(m, k, st, calls[0]), calls[1..])))
  }

  /** No restart is on record since the first segment's last break. */
  ghost predicate Orderly(h: History) {
    forall i, x | 0 <= i < |h.log| && h.log[i].start <= x < |h.events| :: h.events[x] != Break(true)
  }

  lemma ApplyOrderly(m: Media, k: Params, st: St, c: Call)
    requires Inv(m, k, st) && Orderly(st.hist) && (c.Begin? && !c.recovering ==> st.hist.log == [])
    ensures Orderly(Apply(m, k, st, c).hist)
  {
    hide Apply, ScanWf, PublicInv, Settled;
    ApplyInv(m, k, st, c);
    var r := Apply(m, k, st, c);
    SettledFence(m, k, r);
    if c.Begin? {
      BeginPublishesNothing(m, k, st, c);
    }
    forall i, x | 0 <= i < |r.hist.log| && r.hist.log[i].start <= x < |r.hist.events|
      ensures r.hist.events[x] != Break(true)
    {
      if i < |st.hist.log| && x < |st.hist.events| {
        assert r.hist.log[i] == st.hist.log[i] && r.hist.events[x] == st.hist.events[x];
      }
    }
  }

  lemma SettledFence(m: Media, k: Params, st: St)
    requires Settled(m, k, st)
    ensures Fenceable(st.hist.events, st.hist.fed, st.hist.start, st.generation)
  {
    hide LogOk, Fenceable;
  }

  lemma BeginPublishesNothing(m: Media, k: Params, st: St, c: Call)
    requires FeedWf(m, k, st) && c.Begin?
    ensures Apply(m, k, st, c).hist.log == st.hist.log
  {
  }

  lemma {:induction false} RunOrderly(m: Media, k: Params, st: St, calls: seq<Call>)
    requires Inv(m, k, st) && Orderly(st.hist) && OwnerOk(m, k, st, calls)
    ensures Orderly(Run(m, k, st, calls).hist)
    decreases |calls|
  {
    hide Apply, ScanWf, PublicInv, Settled, Orderly;
    if calls != [] {
      ApplyInv(m, k, st, calls[0]);
      ApplyOrderly(m, k, st, calls[0]);
      RunOrderly(m, k, Apply(m, k, st, calls[0]), calls[1..]);
    }
  }

  /** Under such an owner every segment that is neither first nor flagged continues the one before. */
  lemma UnflaggedContinues(m: Media, k: Params, named: bool, strict: bool, calls: seq<Call>, st: St, i: nat)
    requires Reachable(m, k, named, strict, calls, st)
    requires OwnerOk(m, k, Initial(k, Titled(k, named), strict), calls)
    requires 0 < i < |st.hist.log| && !st.hist.log[i].segment.discontinuity
    ensures Continues(st.hist, i)
  {
    hide Unmixed, Begins, EntryOk, Run, OwnerOk, Inv;
    SeamlessOrFlagged(m, k, named, strict, calls, st, i);
    ReachableLog(m, k, named, strict, calls, st, i - 1);
    InitialInv(m, k, named, strict);
    RunOrderly(m, k, Initial(k, Titled(k, named), strict), calls);
    EntryStart(m, k, st.hist, Titled(k, named), i - 1);
    assert st.hist.log[..i][i - 1] == st.hist.log[i - 1];
    assert !Restarted(st.hist.events, st.hist.log[i].start, st.hist.log[..i]);
  }

  lemma EntryStart(m: Media, k: Params, h: History, title: bool, i: nat)
    requires i < |h.log| && LogAt(m, k, h, title, h.log, i)
    ensures h.log[i].start <= h.log[i].upto
  {
  }

  lemma {:induction false} BodiesSplit(events: seq<Event>, title: bool, from: nat, mid: nat)
    requires from <= mid <= |events|
    ensures Bodies(events, title, from) == Bodies(events[..mid], title, from) + Bodies(events, title, mid)
    decreases |events|
  {
    if |events| == mid {
      assert events[..mid] == events;
    } else {
      var before := events[..|events| - 1];
      BodiesSplit(before, title, from, mid);
      assert before[..mid] == events[..mid];
    }
  }

  /** The media of segments `i` to `j`, without their tables. */
  ghost function Pieces(log: seq<Entry>, title: bool, i: nat, j: nat): seq<Packet>
    requires i <= j < |log| && forall x | i <= x <= j :: PrefixLen(title) < |log[x].raw|
    decreases j
  {
    (if i == j then [] else Pieces(log, title, i, j - 1)) + log[j].raw[PrefixLen(title)..]
  }

  /** Segments that continue one another hold, together, everything the source brought between
      the first and the last of them, once and in order. */
  lemma {:induction false} ChainIsWhole(m: Media, k: Params, named: bool, strict: bool, calls: seq<Call>, st: St,
                                       i: nat, j: nat)
    requires Reachable(m, k, named, strict, calls, st) && i <= j < |st.hist.log|
    requires forall x | i < x <= j :: Continues(st.hist, x)
    ensures forall x | i <= x <= j :: PrefixLen(Titled(k, named)) < |st.hist.log[x].raw|
    ensures st.hist.log[i].mark.from < st.hist.log[j].upto <= |st.hist.events|
    ensures Pieces(st.hist.log, Titled(k, named), i, j)
            == Bodies(st.hist.events[..st.hist.log[j].upto], Titled(k, named), st.hist.log[i].mark.from)
    decreases j
  {
    hide Reachable, TablesOk, Calm, Rewritten, Begins, Restarted;
    var title, log := Titled(k, named), st.hist.log;
    SeamlessOrFlagged(m, k, named, strict, calls, st, j);
    if i < j {
      SeamlessOrFlagged(m, k, named, strict, calls, st, i);
      ChainIsWhole(m, k, named, strict, calls, st, i, j - 1);
      assert Continues(st.hist, j);
      var events := st.hist.events[..log[j].upto];
      BodiesSplit(events, title, log[i].mark.from, log[j - 1].upto);
      assert events[..log[j - 1].upto] == st.hist.events[..log[j - 1].upto];
    }
  }
  // ----- The clock ------------------------------------------------------------------------

  predicate OnClock(title: bool, e: Event, pid: nat) {
    Ticks(title, e) && e.reading.pid == pid
  }

  /** Events `x` and `y` bring two clock references on `pid` with none between them. */
  ghost predicate Neighbours(events: seq<Event>, title: bool, pid: nat, x: nat, y: nat) {
    && x < y < |events| && OnClock(title, events[x], pid) && OnClock(title, events[y], pid)
    && forall z | x < z < y :: !OnClock(title, events[z], pid)
  }

  lemma {:induction false} LastPcrAt(events: seq<Event>, title: bool, chain: nat, pid: nat, x: nat)
    requires chain <= x < |events| && OnClock(title, events[x], pid)
    requires forall z | x < z < |events| :: !OnClock(title, events[z], pid)
    ensures LastPcr(events, title, chain, pid) == events[x].reading.pcr
    decreases |events|
  {
    if x < |events| - 1 {
      assert !OnClock(title, events[|events| - 1], pid);
      LastPcrAt(events[..|events| - 1], title, chain, pid, x);
    }
  }

  lemma {:induction false} SteadyPairs(events: seq<Event>, title: bool, chain: nat, pid: nat, x: nat, y: nat)
    requires Steady(events, title, chain, pid) && chain <= x && Neighbours(events, title, pid, x, y)
    ensures PcrDelta(events[x].reading.pcr.value, events[y].reading.pcr.value).Some?
    decreases |events|
  {
    var before := events[..|events| - 1];
    if y < |events| - 1 {
      SteadyPairs(before, title, chain, pid, x, y);
    } else {
      LastPcrAt(before, title, chain, pid, x);
    }
  }

  /** Between the event where segment `e`'s run began and the one it stopped short of, event `x`
      brought an upstream SDT packet with a clock reference while the run was full and no reference had
      started its clock. */
  ghost predicate SeizedAt(k: Params, h: History, title: bool, e: Entry, x: nat) {
    && e.mark.chain < x < e.upto < |h.events|
    && h.events[x].Source? && h.events[x].kept.Some? && Filtered(title, h.events[x].kept.value)
    && h.events[x].reading.pcr.Some?
    && ClockPid(h.events[..x], title, e.mark.chain).None?
    && PrefixLen(title) + |Bodies(h.events[..x], title, e.mark.chain)| == k.maxPackets
  }

  lemma {:induction false} SeizedSome(events: seq<Event>, title: bool, max: nat, chain: nat)
    requires Seized(events, title, max, chain)
    ensures exists x | chain <= x < |events| :: Seizes(events[..x], events[x], title, max, chain)
    decreases |events|
  {
    var before := events[..|events| - 1];
    if Seized(before, title, max, chain) {
      SeizedSome(before, title, max, chain);
      var x :| chain <= x < |before| && Seizes(before[..x], before[x], title, max, chain);
      assert before[..x] == events[..x];
      assert Seizes(events[..x], events[x], title, max, chain);
    } else {
      assert Seizes(events[..|events| - 1], events[|events| - 1], title, max, chain);
    }
  }

  lemma {:induction false} SomeSeized(events: seq<Event>, title: bool, max: nat, chain: nat, x: nat)
    requires chain <= x < |events| && Seizes(events[..x], events[x], title, max, chain)
    ensures Seized(events, title, max, chain)
    decreases |events|
  {
    var before := events[..|events| - 1];
    if x < |events| - 1 {
      assert before[..x] == events[..x];
      SomeSeized(before, title, max, chain, x);
    }
  }

  /** A segment's clock, judged at the event the segment stopped short of. */
  ghost predicate JudgedAt(k: Params, h: History, title: bool, e: Entry) {
    && e.mark.chain <= e.mark.from < e.upto < |h.events|
    && InBody(title, h.events[e.mark.chain]) && InBody(title, h.events[e.upto])
    && Timely(h.events[..e.upto + 1], title, k.maxPackets, e.mark, e.pid, e.segment.duration)
  }

  lemma LogJudged(m: Media, k: Params, h: History, title: bool, log: seq<Entry>, i: nat)
    requires i < |log| && LogAt(m, k, h, title, log, i)
    ensures JudgedAt(k, h, title, log[i])
  {
    hide TablesOk, Sourced, Timely, Fenceable, AllKnown, AccessPoint, Restarted, Rewritten, Clean;
    EntryUnmixed(m, k, h, title, log, i);
  }

  lemma SeizedExactly(k: Params, h: History, title: bool, e: Entry)
    requires JudgedAt(k, h, title, e)
    ensures Seized(h.events[..e.upto + 1], title, k.maxPackets, e.mark.chain) <==> exists x: nat :: SeizedAt(k, h, title, e, x)
  {
    hide Timely, Seized, ClockPid, Bodies;
    var events := h.events[..e.upto + 1];
    if Seized(events, title, k.maxPackets, e.mark.chain) {
      SeizedSome(events, title, k.maxPackets, e.mark.chain);
      var x :| e.mark.chain <= x < |events| && Seizes(events[..x], events[x], title, k.maxPackets, e.mark.chain);
      assert events[..x] == h.events[..x] && events[x] == h.events[x];
      assert SeizedAt(k, h, title, e, x);
    }
    if x: nat :| SeizedAt(k, h, title, e, x) {
      assert events[..x] == h.events[..x] && events[x] == h.events[x];
      SomeSeized(events, title, k.maxPackets, e.mark.chain, x);
    }
  }

  /** The clock of a segment was captured exactly when such an event came. */
  lemma CapturedExactly(m: Media, k: Params, named: bool, strict: bool, calls: seq<Call>, st: St, i: nat)
    requires Reachable(m, k, named, strict, calls, st) && i < |st.hist.log|
    ensures Captured(Titled(k, named), st.hist.log[i].pid) <==>
              exists x: nat :: SeizedAt(k, st.hist, Titled(k, named), st.hist.log[i], x)
  {
    hide Reachable, LogAt, SeizedAt, InBody, Captured, Seized;
    ReachableLog(m, k, named, strict, calls, st, i);
    LogJudged(m, k, st.hist, Titled(k, named), st.hist.log, i);
    SeizedExactly(k, st.hist, Titled(k, named), st.hist.log[i]);
  }

  /** Clock references carry the PID of the packet they came in. */
  ghost predicate Honest(events: seq<Event>) {
    forall x | 0 <= x < |events| ::
      events[x].Source? && events[x].kept.Some? && events[x].reading.pcr.Some? ==>
        events[x].reading.pid == TsPid(events[x].kept.value)
  }

  lemma SettledHonest(m: Media, k: Params, st: St)
    requires Settled(m, k, st)
    ensures Honest(st.hist.events)
  {
    hide LogOk, Fenceable, AudioOk, Cached, Running, Waiting, AccessInv, Rebases, Remembers, Unbroken, ClearMarker;
    forall x | 0 <= x < |st.hist.events| && st.hist.events[x].Source? && st.hist.events[x].kept.Some?
               && st.hist.events[x].reading.pcr.Some?
      ensures st.hist.events[x].reading.pid == TsPid(st.hist.events[x].kept.value)
    {
      assert Recorded(m, st.hist.events, x);
    }
  }

  /** The first clock reference of a segment's packets is never on the PID of dropped ones. */
  lemma {:induction false} BodyPid(events: seq<Event>, title: bool, chain: nat)
    requires Honest(events)
    ensures !Captured(title, ClockPid(events, title, chain))
    decreases |events|
  {
    if |events| > chain {
      BodyPid(events[..|events| - 1], title, chain);
    }
  }

  /** From where a segment's run began to where the segment ends, seams included: the segment is timed
      by the PID of its run's first clock reference exactly if no event seized the clock, and then each
      reference on that PID follows the one before within half the clock's range. */
  lemma ClockIsSteady(m: Media, k: Params, named: bool, strict: bool, calls: seq<Call>, st: St, i: nat)
    requires Reachable(m, k, named, strict, calls, st) && i < |st.hist.log|
    ensures var title, e := Titled(k, named), st.hist.log[i];
            && e.upto < |st.hist.events| && e.pid.Some?
            && (e.pid == ClockPid(st.hist.events[..e.upto + 1], title, e.mark.chain) <==>
                  forall x: nat :: !SeizedAt(k, st.hist, title, e, x))
            && ((forall x: nat :: !SeizedAt(k, st.hist, title, e, x)) ==>
                  forall x: nat, y: nat | e.mark.chain <= x && y <= e.upto ::
                    Neighbours(st.hist.events, title, e.pid.value, x, y) ==>
                      PcrDelta(st.hist.events[x].reading.pcr.value, st.hist.events[y].reading.pcr.value).Some?)
  {
    hide Reachable, LogAt, SeizedAt, InBody, Seized, Inv, ClockPid, Steady, Neighbours;
    var title, e := Titled(k, named), st.hist.log[i];
    ReachableLog(m, k, named, strict, calls, st, i);
    LogJudged(m, k, st.hist, title, st.hist.log, i);
    SeizedExactly(k, st.hist, title, e);
    var events := st.hist.events[..e.upto + 1];
    assert Honest(events) by {
      ReachableInv(m, k, named, strict, calls, st);
      InvHonest(m, k, st);
    }
    BodyPid(events, title, e.mark.chain);
    if !Captured(title, e.pid) {
      SteadyEntry(st.hist, title, e);
    }
  }

  lemma InvHonest(m: Media, k: Params, st: St)
    requires Inv(m, k, st)
    ensures Honest(st.hist.events)
  {
    hide Settled;
    SettledHonest(m, k, st);
  }

  lemma SteadyEntry(h: History, title: bool, e: Entry)
    requires e.upto < |h.events| && e.pid.Some? && Steady(h.events[..e.upto + 1], title, e.mark.chain, e.pid.value)
    ensures forall x: nat, y: nat | e.mark.chain <= x && y <= e.upto :: Neighbours(h.events, title, e.pid.value, x, y) ==>
              PcrDelta(h.events[x].reading.pcr.value, h.events[y].reading.pcr.value).Some?
  {
    hide Steady;
    var events := h.events[..e.upto + 1];
    forall x: nat, y: nat | e.mark.chain <= x && y <= e.upto && Neighbours(h.events, title, e.pid.value, x, y)
      ensures PcrDelta(h.events[x].reading.pcr.value, h.events[y].reading.pcr.value).Some?
    {
      assert forall z | x <= z <= y :: events[z] == h.events[z];
      SteadyPairs(events, title, e.mark.chain, e.pid.value, x, y);
    }
  }

  // ----- The sliding window ---------------------------------------------------------------

  ghost function Flags(log: seq<Entry>): nat {
    if log == [] then 0
    else Flags(log[..|log| - 1]) + if log[|log| - 1].segment.discontinuity then 1 else 0
  }

  /** Window `w` shows the entries of `log` from `w.mediaSeq` on. */
  ghost predicate Shows(k: Params, w: Window, log: seq<Entry>) {
    && w.mediaSeq + |w.segments| == |log|
    && (forall i | 0 <= i < |w.segments| :: w.segments[i] == log[w.mediaSeq + i].segment)
    && w.discontinuitySeq == Flags(log[..w.mediaSeq])
    && k.target <= w.maxDuration
    && (forall i | 0 <= i < |log| :: log[i].segment.duration <= w.maxDuration)
    && (w.maxDuration == k.target || exists i | 0 <= i < |log| :: log[i].segment.duration == w.maxDuration)
  }

  lemma EvictShows(k: Params, w: Window, log: seq<Entry>, limit: nat)
    requires Shows(k, w, log) && limit >= 1
    ensures Shows(k, Evict(w, limit), log)
    ensures |Evict(w, limit).segments| == if |w.segments| < limit then |w.segments| else limit - 1
    decreases |w.segments|
  {
    if |w.segments| >= limit {
      assert log[..w.mediaSeq + 1][..w.mediaSeq] == log[..w.mediaSeq];
      var w' := w.(segments := w.segments[1..], mediaSeq := w.mediaSeq + 1,
                   discontinuitySeq := w.discontinuitySeq + if w.segments[0].discontinuity then 1 else 0);
      assert Shows(k, w', log);
      EvictShows(k, w', log, limit);
    }
  }

  lemma PushShows(k: Params, w: Window, log: seq<Entry>, e: Entry)
    requires Shows(k, w, log)
    ensures Shows(k, Push(w, e.segment), log + [e])
  {
    var w', log' := Push(w, e.segment), log + [e];
    assert log'[..w.mediaSeq] == log[..w.mediaSeq];
    if w'.maxDuration == e.segment.duration {
      assert log'[|log|].segment.duration == w'.maxDuration;
    } else if w.maxDuration != k.target {
      var i :| 0 <= i < |log| && log[i].segment.duration == w.maxDuration;
      assert log'[i].segment.duration == w'.maxDuration;
    }
  }

  lemma {:induction false} ReplayShows(k: Params, log: seq<Entry>)
    requires k.window >= 1
    ensures Shows(k, Replay(k, log), log)
    ensures |Replay(k, log).segments| == if |log| < k.window then |log| else k.window
  {
    if log != [] {
      var before := log[..|log| - 1];
      ReplayShows(k, before);
      EvictShows(k, Replay(k, before), before, k.window);
      PushShows(k, Evict(Replay(k, before), k.window), before, log[|log| - 1]);
      assert before + [log[|log| - 1]] == log;
    }
  }

  /** A retained segment, by its absolute sequence number. */
  function RetainedSegment(w: Window, seqNo: nat): Option<seq<Packet>> {
    if seqNo < w.mediaSeq || seqNo - w.mediaSeq >= |w.segments| then None
    else Some(w.segments[seqNo - w.mediaSeq].packets)
  }

  /** The window is the last `window` entries of the append-only log of everything emitted. */
  lemma WindowRefinesLog(m: Media, k: Params, named: bool, strict: bool, calls: seq<Call>, st: St, seqNo: nat)
    requires Reachable(m, k, named, strict, calls, st)
    ensures Shows(k, st.win, st.hist.log)
    ensures |st.win.segments| == if |st.hist.log| < k.window then |st.hist.log| else k.window
    ensures RetainedSegment(st.win, seqNo)
            == if |st.hist.log| - |st.win.segments| <= seqNo < |st.hist.log|
               then Some(st.hist.log[seqNo].segment.packets) else None
  {
    hide Reachable, Settled, Replay;
    ReachableInv(m, k, named, strict, calls, st);
    ReplayShows(k, st.hist.log);
  }

  lemma ReplayMonotone(k: Params, log: seq<Entry>, log': seq<Entry>)
    requires k.window >= 1 && log <= log'
    ensures Replay(k, log).maxDuration <= Replay(k, log').maxDuration
    ensures Replay(k, log).mediaSeq <= Replay(k, log').mediaSeq
    ensures Replay(k, log).discontinuitySeq <= Replay(k, log').discontinuitySeq
    decreases |log'|
  {
    if log != log' {
      var before := log'[..|log'| - 1];
      ReplayMonotone(k, log, before);
      EvictMonotone(Replay(k, before), k.window);
    }
  }

  lemma EvictMonotone(w: Window, limit: nat)
    requires limit >= 1
    ensures w.maxDuration == Evict(w, limit).maxDuration
    ensures w.mediaSeq <= Evict(w, limit).mediaSeq
    ensures w.discontinuitySeq <= Evict(w, limit).discontinuitySeq
    decreases |w.segments|
  {
  }

  /** As the run goes on, a sequence number keeps its bytes until it leaves the window, and the
      playlist's sequence numbers and target duration never go back. */
  lemma PlaylistOnlyAdvances(m: Media, k: Params, st: St, calls: seq<Call>, seqNo: nat)
    requires Inv(m, k, st)
    ensures var st' := Run(m, k, st, calls);
            && st.win.mediaSeq <= st'.win.mediaSeq
            && st.win.discontinuitySeq <= st'.win.discontinuitySeq
            && st.win.maxDuration <= st'.win.maxDuration
            && (RetainedSegment(st.win, seqNo).Some? ==>
                  RetainedSegment(st'.win, seqNo) in {None, RetainedSegment(st.win, seqNo)})
  {
    hide Run, Settled, Replay;
    RunKeeps(m, k, st, calls);
    var st' := Run(m, k, st, calls);
    ReplayMonotone(k, st.hist.log, st'.hist.log);
    ReplayShows(k, st.hist.log);
    ReplayShows(k, st'.hist.log);
    if RetainedSegment(st.win, seqNo).Some? && RetainedSegment(st'.win, seqNo).Some? {
      assert st'.win.segments[seqNo - st'.win.mediaSeq] == st'.hist.log[seqNo].segment;
      assert st.win.segments[seqNo - st.win.mediaSeq] == st.hist.log[seqNo].segment;
    }
  }

  // ----- Memory ---------------------------------------------------------------------------

  function Payload(segments: seq<Segment>): nat {
    if segments == [] then 0 else |segments[0].packets| * TS_PACKET + Payload(segments[1..])
  }

  lemma {:induction false} PayloadBound(segments: seq<Segment>, packets: nat)
    requires forall i | 0 <= i < |segments| :: |segments[i].packets| <= packets
    ensures Payload(segments) <= |segments| * (packets * TS_PACKET)
  {
    if segments != [] {
      PayloadBound(segments[1..], packets);
      var each := packets * TS_PACKET;
      assert |segments| * each == (|segments| - 1) * each + each;
    }
  }

  /** An accepted configuration bounds all retained media: every segment and the open run stay
      within the ceiling, and together within the safe pool, plus less than one staged packet. */
  lemma MemoryBound(m: Media, c: Config, named: bool, strict: bool, calls: seq<Call>, st: St)
    requires Validate(c, ISIZE_MAX) == Accepted
    requires Reachable(m, Effective(c), named, strict, calls, st)
    ensures |st.cur| <= c.segmentPackets && |st.win.segments| <= c.windowSegments
    ensures forall i | 0 <= i < |st.win.segments| :: |st.win.segments[i].packets| <= c.segmentPackets
    ensures |st.input| < TS_PACKET
    ensures |st.cur| * TS_PACKET + Payload(st.win.segments) <= SafePoolLimit(ISIZE_MAX)
  {
    hide Inv, Reachable, Validate, SafePoolLimit;
    var k := Effective(c);
    ValidateExact(c, ISIZE_MAX);
    ReachableInv(m, k, named, strict, calls, st);
    WindowBound(m, k, st);
    PayloadBound(st.win.segments, c.segmentPackets);
    PoolArithmetic(c, |st.cur|, |st.win.segments|);
  }

  lemma WindowBound(m: Media, k: Params, st: St)
    requires Inv(m, k, st)
    ensures |st.cur| <= k.maxPackets && |st.win.segments| <= k.window && |st.input| < TS_PACKET
    ensures forall i | 0 <= i < |st.win.segments| :: |st.win.segments[i].packets| <= k.maxPackets
  {
    hide Recorded, Fenceable, AudioOk, Cached, Complete, AccessInv, Rebases;
    ReplayShows(k, st.hist.log);
    SettledLog(m, k, st);
    forall i | 0 <= i < |st.win.segments| ensures |st.win.segments[i].packets| <= k.maxPackets {
      EntryFits(m, k, st.hist, st.access.title, st.win.mediaSeq + i);
    }
  }

  lemma EntryFits(m: Media, k: Params, h: History, title: bool, i: nat)
    requires LogOk(m, k, h, title, h.log) && i < |h.log|
    ensures |h.log[i].segment.packets| <= k.maxPackets
  {
    hide Stretch, Clean, Timely, Fenceable, Opening, AllKnown;
    assert LogAt(m, k, h, title, h.log, i);
  }

  lemma PoolArithmetic(c: Config, cur: nat, held: nat)
    requires cur <= c.segmentPackets && held <= c.windowSegments
    ensures cur * TS_PACKET + held * (c.segmentPackets * TS_PACKET)
            <= c.segmentPackets * 188 * (c.windowSegments + 1)
  {
    var each := c.segmentPackets * 188;
    assert held * each <= c.windowSegments * each;
    assert each * (c.windowSegments + 1) == c.windowSegments * each + each;
  }

  // ----- Readiness and fencing ------------------------------------------------------------

  /** Segment `i` is made of nothing but the source packets of one stretch without a break, all
      fed under `tags`: its media, what the audio selection remembered when it passed them on, its
      tables, and what its continuity rewriting depends on. */
  ghost predicate MadeFrom(m: Media, h: History, title: bool, i: nat, tags: set<Tag>)
    requires i < |h.log|
  {
    var e, t := h.log[i], PrefixLen(title);
    && e.start <= e.mark.from && e.upto < |h.events| && t < |e.raw|
    && (forall x | e.start <= x <= e.upto :: FedUnder(m, h.events, x, e.start, tags))
    && e.raw[t..] == Bodies(h.events[..e.upto], title, e.mark.from)
    && e.start <= e.mark.pat && Learned(m, h.events[..e.upto + 1], e.raw[0], e.mark.pat)
    && e.start <= e.mark.pmt && Learned(m, h.events[..e.upto + 1], e.raw[1], e.mark.pmt)
    && TablesOk(m, title, e.raw[..t])
    && AllKnown(h.events[..e.upto + 1], h.log[..i], e.start, e.memory)
    && e.segment.packets == Rewritten(m, e.memory, e.raw)
  }

  /** Event `x` is a source packet fed under `tags`, and what became of it depends only on events
      from `start` on. */
  ghost predicate FedUnder(m: Media, events: seq<Event>, x: nat, start: nat, tags: set<Tag>)
    requires x < |events|
  {
    events[x].Source? && events[x].tags <= tags && Recorded(m, events, x) && start + |events[x].memory| <= x
  }

  /** Under which tags a generation's bytes may have been fed. */
  ghost function OwnTags(calls: seq<Call>, gen: nat): set<Tag> {
    if exists i | 0 <= i < |calls| :: calls[i].Feed? then {Native, Fenced(gen)} else {Fenced(gen)}
  }

  /** Everything in a segment was fed with the token of its generation, or natively by a caller
      that uses the native feed at all. */
  lemma OnlyOwnBytes(m: Media, k: Params, named: bool, strict: bool, calls: seq<Call>, st: St, i: nat)
    requires Reachable(m, k, named, strict, calls, st) && i < |st.hist.log|
    ensures MadeFrom(m, st.hist, Titled(k, named), i, OwnTags(calls, st.hist.log[i].gen))
  {
    hide Reachable, Inv, Clean, Timely, Opening, TablesOk, AllKnown, Rewritten, Learned, Recorded;
    ReachableInv(m, k, named, strict, calls, st);
    ReachableLog(m, k, named, strict, calls, st, i);
    var title, e := Titled(k, named), st.hist.log[i];
    var events := st.hist.events[..e.upto + 1];
    assert e.raw[..PrefixLen(title)][..PrefixLen(title)] == e.raw[..PrefixLen(title)];
    assert events[..e.upto] == st.hist.events[..e.upto];
    SinceStart(events, e.start, e.mark.pat);
    SinceStart(events, e.start, e.mark.pmt);
    forall x | e.start <= x <= e.upto
      ensures FedUnder(m, st.hist.events, x, e.start, OwnTags(calls, e.gen))
    {
      assert events[x] == st.hist.events[x];
      SettledRecorded(m, k, st, x, e.start);
    }
  }

  lemma SinceStart(events: seq<Event>, start: nat, since: nat)
    requires Unbroken(events, since) && start <= |events| && (start > 0 ==> events[start - 1].Break?)
    ensures start <= since
  {
  }

  lemma SettledRecorded(m: Media, k: Params, st: St, x: nat, start: nat)
    requires Inv(m, k, st) && start <= x < |st.hist.events| && st.hist.events[x].Source?
    requires start > 0 ==> st.hist.events[start - 1].Break?
    ensures Recorded(m, st.hist.events, x) && start + |st.hist.events[x].memory| <= x
  {
    hide LogOk, Fenceable, AudioOk, Cached, Running, Waiting, AccessInv, PublicInv, Rebases;
  }

  /** In a strict packager, readiness was earned by the current generation, and every segment holds
      only its own generation's bytes. */
  lemma StrictReady(m: Media, k: Params, named: bool, strict: bool, calls: seq<Call>, st: St)
    requires Reachable(m, k, named, strict, calls, st)
    requires st.strict && st.status == Ready
    ensures CountGen(st.hist.log, st.generation) >= k.startup
    ensures forall i | 0 <= i < |st.hist.log| ::
              MadeFrom(m, st.hist, Titled(k, named), i, OwnTags(calls, st.hist.log[i].gen))
  {
    hide Reachable, Replay, Settled, MadeFrom, OwnTags;
    ReachableInv(m, k, named, strict, calls, st);
    forall i | 0 <= i < |st.hist.log|
      ensures MadeFrom(m, st.hist, Titled(k, named), i, OwnTags(calls, st.hist.log[i].gen))
    {
      OnlyOwnBytes(m, k, named, strict, calls, st, i);
    }
  }

  /** A failed or stopped packager never starts, recovers or publishes again. */
  lemma {:induction false} ClosedForever(m: Media, k: Params, st: St, calls: seq<Call>)
    requires FeedWf(m, k, st) && Closed(st.status)
    ensures Closed(Run(m, k, st, calls).status) && Run(m, k, st, calls).hist.log == st.hist.log
    decreases |calls|
  {
    hide FeedBytes, ScanWf;
    if calls != [] {
      ApplyWf(m, k, st, calls[0]);
      ClosedForever(m, k, Apply(m, k, st, calls[0]), calls[1..]);
    }
  }

  /** A call that carries a retired token, or announces one. */
  predicate Stale(st: St, c: Call) {
    match c
    case Begin(generation, _) => generation <= st.generation
    case FeedToken(token, _, _) => token != st.generation
    case Fail(token, _) => token != st.generation
    case _ => false
  }

  ghost function Fresh(m: Media, k: Params, st: St, calls: seq<Call>): seq<Call>
    requires FeedWf(m, k, st)
    decreases |calls|
  {
    if calls == [] then []
    else
      ApplyWf(m, k, st, calls[0]);
      (if Stale(st, calls[0]) then [] else [calls[0]]) + Fresh(m, k, Apply(m, k, st, calls[0]), calls[1..])
  }

  /** Retired workers leave no trace: erasing their calls from a run changes nothing. */
  lemma {:induction false} StaleCallsAreInert(m: Media, k: Params, st: St, calls: seq<Call>)
    requires FeedWf(m, k, st)
    ensures Run(m, k, st, calls) == Run(m, k, st, Fresh(m, k, st, calls))
    decreases |calls|
  {
    hide FeedLocked, ScanWf, ResetPartial;
    if calls != [] {
      ApplyWf(m, k, st, calls[0]);
      var s := Apply(m, k, st, calls[0]);
      StaleCallsAreInert(m, k, s, calls[1..]);
      var rest := Fresh(m, k, s, calls[1..]);
      if Stale(st, calls[0]) {
        assert s == st;
        assert Fresh(m, k, st, calls) == rest;
      } else {
        assert ([calls[0]] + rest)[1..] == rest;
      }
    }
  }

  // ----- Chunking -------------------------------------------------------------------------

  /** Bytes that do not complete the staged packet are only staged. */
  lemma StageOnly(m: Media, k: Params, st: St, a: seq<byte>, b: seq<byte>, tag: Tag)
    requires FeedWf(m, k, st) && !st.panicked && a != [] && |st.input| + |a| < TS_PACKET
    ensures FeedBytes(m, k, st, a + b, tag) == FeedBytes(m, k, FeedBytes(m, k, st, a, tag), b, tag)
  {
    hide FeedWhole, AccessInv, Rebases;
    var s := Stage(st, a, tag);
    assert a[..|a|] == a && a[|a|..] == [];
    assert FeedBytes(m, k, s, [], tag) == s;
    assert FeedBytes(m, k, st, a, tag) == s;
    if b == [] {
      assert a + b == a;
    } else {
      var n, n' := Take(st, a + b), Take(s, b);
      assert n == |a| + n';
      assert (a + b)[..n] == a + b[..n'];
      assert (a + b)[n..] == b[n'..];
      assert Stage(st, a + b[..n'], tag) == Stage(s, b[..n'], tag);
    }
  }

  /** Only the byte stream matters, not how it was chunked. */
  lemma {:induction false} SplitInvariance(m: Media, k: Params, st: St, a: seq<byte>, b: seq<byte>, tag: Tag)
    requires FeedWf(m, k, st)
    ensures FeedBytes(m, k, st, a + b, tag) == FeedBytes(m, k, FeedBytes(m, k, st, a, tag), b, tag)
    decreases |a|
  {
    hide Fill, ScanWf;
    if a == [] {
      assert a + b == b;
    } else if st.panicked {
    } else if |st.input| + |a| < TS_PACKET {
      StageOnly(m, k, st, a, b, tag);
    } else {
      var n := Take(st, a);
      assert Take(st, a + b) == n;
      assert (a + b)[..n] == a[..n] && (a + b)[n..] == a[n..] + b;
      SplitInvariance(m, k, Fill(m, k, st, a[..n], tag), a[n..], b, tag);
    }
  }

  lemma {:induction false} FeedBytesOpen(m: Media, k: Params, st: St, data: seq<byte>, tag: Tag)
    requires FeedWf(m, k, st) && !Closed(st.status)
    ensures var r := FeedBytes(m, k, st, data, tag); !Closed(r.status) && r.generation == st.generation
    decreases |data|
  {
    hide FeedWhole, AccessInv, Rebases, PublicInv;
    if data != [] && !st.panicked {
      var n := Take(st, data);
      var s := Stage(st, data[..n], tag);
      if |s.input| == TS_PACKET {
        FeedWholeFrame(m, k, s.(input := []), Packet(s.input));
      }
      FeedBytesOpen(m, k, Fill(m, k, st, data[..n], tag), data[n..], tag);
    }
  }

  /** Two feeds in a row, with no deadline passing between them, equal one feed of both. */
  lemma SplitFeeds(m: Media, k: Params, st: St, token: nat, a: seq<byte>, b: seq<byte>)
    requires FeedWf(m, k, st)
    ensures FeedWf(m, k, Apply(m, k, st, FeedToken(token, a, false)))
    ensures Apply(m, k, Apply(m, k, st, FeedToken(token, a, false)), FeedToken(token, b, false))
            == Apply(m, k, st, FeedToken(token, a + b, false))
  {
    hide FeedBytes, AccessInv, Rebases;
    ApplyWf(m, k, st, FeedToken(token, a, false));
    if !st.panicked && token == st.generation && !Closed(st.status) {
      SplitInvariance(m, k, st, a, b, Fenced(token));
      FeedBytesOpen(m, k, st, a, Fenced(token));
      FeedPanicked(m, k, FeedBytes(m, k, st, a, Fenced(token)), b, Fenced(token));
    }
  }

  lemma FeedPanicked(m: Media, k: Params, st: St, data: seq<byte>, tag: Tag)
    requires FeedWf(m, k, st)
    ensures st.panicked ==> FeedBytes(m, k, st, data, tag) == st
  {
  }

  // ----- Start offset ---------------------------------------------------------------------

  const TICKS_PER_SECOND := 90_000

  function CeilSeconds(ticks: nat): nat {
    (ticks + TICKS_PER_SECOND - 1) / TICKS_PER_SECOND
  }

  function Total(segments: seq<Segment>): nat {
    if segments == [] then 0 else segments[0].duration + Total(segments[1..])
  }

  /** A suffix that excludes the oldest segment and spans three target durations. */
  ghost predicate SafeSuffix(w: Window, start: nat) {
    1 <= start < |w.segments| && Total(w.segments[start..]) >= 3 * CeilSeconds(w.maxDuration) * TICKS_PER_SECOND
  }

  /** `offset` is the exact span of a safe suffix, one segment longer than the shortest when there
      is room for that. */
  ghost predicate Advised(w: Window, start: nat, offset: nat) {
    && SafeSuffix(w, start) && offset == Total(w.segments[start..])
    && (start == 1 || SafeSuffix(w, start + 1))
    && !SafeSuffix(w, start + 2)
  }

  /** The advised start, absent exactly when no suffix is safe. */
  method AdvisoryStartOffset(w: Window) returns (offset: Option<nat>)
    ensures offset.None? <==> forall start: nat :: !SafeSuffix(w, start)
    ensures offset.Some? ==> exists start: nat :: Advised(w, start, offset.value)
  {
    var safety := 3 * CeilSeconds(w.maxDuration) * TICKS_PER_SECOND;
    var suffix := 0;
    var index: nat := |w.segments|;
    while index > 1
      invariant index <= |w.segments|
      invariant suffix == Total(w.segments[index..])
      invariant forall start: nat | index <= start :: !SafeSuffix(w, start)
    {
      assert w.segments[index - 1..][1..] == w.segments[index..];
      assert !SafeSuffix(w, index) && !SafeSuffix(w, index + 1);
      index := index - 1;
      suffix := suffix + w.segments[index].duration;
      if suffix >= safety {
        if index > 1 {
          assert w.segments[index - 1..][1..] == w.segments[index..];
          var start: nat := index - 1;
          assert Advised(w, start, suffix + w.segments[start].duration);
          return Some(suffix + w.segments[start].duration);
        }
        assert Advised(w, index, suffix);
        return Some(suffix);
      }
    }
    return None;
  }
}
