/** What the duration of a published segment is, read off the source packets. */
module HlsDurations {
  import opened Ts
  import opened HlsModel
  import opened HlsInvariants
  import opened HlsRuns
  import opened HlsTheorems

  /** Event `x` brings the reference that segment `e` is timed from: the first one of its run, or the
      last one up to the event with which the segment before it ended. */
  ghost predicate StartsAt(events: seq<Event>, title: bool, e: Entry, pid: nat, x: nat) {
    && e.mark.chain <= x < |events| && OnClock(title, events[x], pid)
    && if e.mark.from == e.mark.chain then forall z | e.mark.chain <= z < x :: !OnClock(title, events[z], pid)
       else
         x <= e.mark.from < |events| && forall z | x < z <= e.mark.from :: !OnClock(title, events[z], pid)
  }

  /** Event `y` brings the last reference up to the event that segment `e` stopped short of. */
  ghost predicate EndsAt(events: seq<Event>, title: bool, e: Entry, pid: nat, y: nat) {
    && y <= e.upto < |events| && OnClock(title, events[y], pid)
    && forall z | y < z <= e.upto :: !OnClock(title, events[z], pid)
  }

  lemma {:induction false} FirstPcrAt(events: seq<Event>, title: bool, chain: nat, pid: nat) returns (x: nat)
    requires FirstPcr(events, title, chain, pid).Some?
    ensures chain <= x < |events| && OnClock(title, events[x], pid)
    ensures FirstPcr(events, title, chain, pid) == events[x].reading.pcr
    ensures forall z | chain <= z < x :: !OnClock(title, events[z], pid)
    decreases |events|
  {
    var before := events[..|events| - 1];
    if FirstPcr(before, title, chain, pid).Some? {
      x := FirstPcrAt(before, title, chain, pid);
      assert forall z | chain <= z < x :: before[z] == events[z];
    } else {
      x := |events| - 1;
      NoneBefore(before, title, chain, pid);
      assert forall z | chain <= z < x :: before[z] == events[z];
    }
  }

  lemma {:induction false} NoneBefore(events: seq<Event>, title: bool, chain: nat, pid: nat)
    requires FirstPcr(events, title, chain, pid).None?
    ensures forall z | chain <= z < |events| :: !OnClock(title, events[z], pid)
    decreases |events|
  {
    if |events| > chain {
      var before := events[..|events| - 1];
      NoneBefore(before, title, chain, pid);
      forall z | chain <= z < |events| ensures !OnClock(title, events[z], pid) {
        if z < |before| {
          assert before[z] == events[z];
        }
      }
    }
  }

  lemma {:induction false} LatestPcr(events: seq<Event>, title: bool, chain: nat, pid: nat) returns (x: nat)
    requires LastPcr(events, title, chain, pid).Some?
    ensures chain <= x < |events| && OnClock(title, events[x], pid)
    ensures LastPcr(events, title, chain, pid) == events[x].reading.pcr
    ensures forall z | x < z < |events| :: !OnClock(title, events[z], pid)
    decreases |events|
  {
    var before := events[..|events| - 1];
    if OnClock(title, events[|events| - 1], pid) {
      x := |events| - 1;
    } else {
      x := LatestPcr(before, title, chain, pid);
      assert forall z | x < z < |before| :: before[z] == events[z];
    }
  }

  lemma StartEvent(k: Params, h: History, title: bool, e: Entry) returns (x: nat)
    requires JudgedAt(k, h, title, e) && !Captured(title, e.pid)
    ensures StartsAt(h.events, title, e, e.pid.value, x) && x < |h.events| && OnClock(title, h.events[x], e.pid.value)
    ensures h.events[x].reading.pcr == StartPcr(h.events[..e.upto + 1], title, e.mark, e.pid.value)
  {
    hide ClockPid, Steady, Seized, InBody;
    var events, pid := h.events[..e.upto + 1], e.pid.value;
    if e.mark.from == e.mark.chain {
      x := FirstPcrAt(events, title, e.mark.chain, pid);
    } else {
      x := LatestPcr(events[..e.mark.from + 1], title, e.mark.chain, pid);
    }
    forall z | 0 <= z <= e.upto ensures events[z] == h.events[z] { }
  }

  lemma EndEvent(k: Params, h: History, title: bool, e: Entry) returns (y: nat)
    requires JudgedAt(k, h, title, e) && !Captured(title, e.pid)
    ensures EndsAt(h.events, title, e, e.pid.value, y) && y < |h.events| && OnClock(title, h.events[y], e.pid.value)
    ensures h.events[y].reading.pcr == LastPcr(h.events[..e.upto + 1], title, e.mark.chain, e.pid.value)
  {
    hide ClockPid, Steady, Seized, InBody, StartPcr, LastPcr;
    var events := h.events[..e.upto + 1];
    y := LatestPcr(events, title, e.mark.chain, e.pid.value);
    forall z | 0 <= z <= e.upto ensures events[z] == h.events[z] { }
  }

  /** A segment's duration is the clock's distance from the reference its clock started at to the last
      one up to its end, unless its clock was seized. */
  ghost predicate Measured(h: History, title: bool, e: Entry) {
    && e.upto < |h.events| && e.pid.Some?
    && exists x: nat, y: nat ::
         && StartsAt(h.events, title, e, e.pid.value, x) && EndsAt(h.events, title, e, e.pid.value, y)
         && PcrDelta(h.events[x].reading.pcr.value, h.events[y].reading.pcr.value) == Some(e.segment.duration)
  }

  lemma EntryMeasured(k: Params, h: History, title: bool, e: Entry)
    requires JudgedAt(k, h, title, e) && !Captured(title, e.pid)
    ensures Measured(h, title, e)
  {
    hide StartsAt, EndsAt, ClockPid, Steady, Seized, StartPcr, LastPcr, PcrDelta, Filtered, Captured;
    var x := StartEvent(k, h, title, e);
    var y := EndEvent(k, h, title, e);
  }

  /** Every segment of every run whose clock no event seized lasts exactly as long as its clock says. */
  lemma DurationExact(m: Media, k: Params, named: bool, strict: bool, calls: seq<Call>, st: St, i: nat)
    requires Reachable(m, k, named, strict, calls, st) && i < |st.hist.log|
    requires forall x: nat :: !SeizedAt(k, st.hist, Titled(k, named), st.hist.log[i], x)
    ensures Measured(st.hist, Titled(k, named), st.hist.log[i])
  {
    hide Reachable, LogAt, SeizedAt, JudgedAt, Measured;
    ReachableLog(m, k, named, strict, calls, st, i);
    LogJudged(m, k, st.hist, Titled(k, named), st.hist.log, i);
    CapturedExactly(m, k, named, strict, calls, st, i);
    EntryMeasured(k, st.hist, Titled(k, named), st.hist.log[i]);
  }

  // ----- Segments that continue one another -----------------------------------------------

  /** The durations of segments `i` to `j`. */
  ghost function Spans(log: seq<Entry>, i: nat, j: nat): nat
    requires i <= j < |log|
    decreases j
  {
    (if i == j then 0 else Spans(log, i, j - 1)) + log[j].segment.duration
  }

  lemma PcrAdds(start: Pcr, span: nat, mid: Pcr, end: Pcr)
    requires (start + span) % PCR_MODULUS == mid && PcrDelta(mid, end).Some?
    ensures (start + (span + PcrDelta(mid, end).value)) % PCR_MODULUS == end
  {
    var d := PcrDelta(mid, end).value;
    var turns := (start + span) / PCR_MODULUS;
    assert start + span == turns * PCR_MODULUS + mid;
    if mid <= end {
      assert start + span + d == turns * PCR_MODULUS + end;
    } else {
      assert start + span + d == (turns + 1) * PCR_MODULUS + end;
    }
  }

  /** `span` ticks around the clock's wrap, which are the clock's distance as long as they stay within
      half its range. */
  ghost predicate Apart(start: Pcr, end: Pcr, span: nat) {
    && (start + span) % PCR_MODULUS == end
    && (span <= PCR_MODULUS / 2 ==> PcrDelta(start, end) == Some(span))
  }

  lemma ApartIf(start: Pcr, end: Pcr, span: nat)
    requires (start + span) % PCR_MODULUS == end
    ensures Apart(start, end, span)
  {
  }

  lemma {:induction false} PidKept(events: seq<Event>, title: bool, chain: nat, n: nat)
    requires n <= |events| && ClockPid(events[..n], title, chain).Some?
    ensures ClockPid(events, title, chain) == ClockPid(events[..n], title, chain)
    decreases |events|
  {
    if n == |events| {
      assert events[..n] == events;
    } else {
      var before := events[..|events| - 1];
      assert before[..n] == events[..n];
      PidKept(before, title, chain, n);
      assert chain < |events[..n]|;
    }
  }

  lemma {:induction false} SeizureKept(events: seq<Event>, title: bool, max: nat, chain: nat, n: nat)
    requires n <= |events| && Seized(events[..n], title, max, chain)
    ensures Seized(events, title, max, chain)
    decreases |events|
  {
    if n == |events| {
      assert events[..n] == events;
    } else {
      var before := events[..|events| - 1];
      assert before[..n] == events[..n];
      SeizureKept(before, title, max, chain, n);
    }
  }

  /** A segment starts on the clock where the one it continues ended. */
  lemma ClockContinues(k: Params, h: History, title: bool, i: nat)
    requires 0 < i < |h.log| && Continues(h, i)
    requires JudgedAt(k, h, title, h.log[i - 1]) && JudgedAt(k, h, title, h.log[i]) && !Captured(title, h.log[i].pid)
    ensures var b, e := h.log[i - 1], h.log[i];
            && !Captured(title, b.pid) && b.pid == e.pid
            && StartPcr(h.events[..e.upto + 1], title, e.mark, e.pid.value)
               == LastPcr(h.events[..b.upto + 1], title, b.mark.chain, e.pid.value)
  {
    hide Steady, InBody, LastPcr, FirstPcr, ClockPid, Seized;
    var b, e := h.log[i - 1], h.log[i];
    var events := h.events[..e.upto + 1];
    assert events[..b.upto + 1] == h.events[..b.upto + 1];
    if Seized(events[..b.upto + 1], title, k.maxPackets, b.mark.chain) {
      SeizureKept(events, title, k.maxPackets, b.mark.chain, b.upto + 1);
    }
    PidKept(events, title, b.mark.chain, b.upto + 1);
  }

  /** The durations of segments `i` to `j` carry their common clock from where `i` starts to where `j`
      ends. */
  ghost predicate Carried(k: Params, h: History, title: bool, i: nat, j: nat) {
    && i <= j < |h.log|
    && var a, b := h.log[i], h.log[j];
       && JudgedAt(k, h, title, a) && JudgedAt(k, h, title, b)
       && !Captured(title, a.pid) && a.pid == b.pid
       && var start := StartPcr(h.events[..a.upto + 1], title, a.mark, a.pid.value);
          var end := LastPcr(h.events[..b.upto + 1], title, b.mark.chain, b.pid.value);
          start.Some? && end.Some? && (start.value + Spans(h.log, i, j)) % PCR_MODULUS == end.value
  }

  lemma {:induction false} SpansCarry(k: Params, h: History, title: bool, i: nat, j: nat)
    requires i <= j < |h.log| && forall x | i < x <= j :: Continues(h, x)
    requires forall x | i <= x <= j :: JudgedAt(k, h, title, h.log[x])
    requires !Captured(title, h.log[j].pid)
    ensures Carried(k, h, title, i, j)
    decreases j
  {
    hide StartPcr, LastPcr, ClockPid, Steady, Seized, Captured, InBody, PcrDelta;
    var log, b := h.log, h.log[j];
    var start, end := StartPcr(h.events[..b.upto + 1], title, b.mark, b.pid.value),
                      LastPcr(h.events[..b.upto + 1], title, b.mark.chain, b.pid.value);
    if i == j {
      PcrAdds(start.value, 0, start.value, end.value);
    } else {
      ClockContinues(k, h, title, j);
      SpansCarry(k, h, title, i, j - 1);
      var first := StartPcr(h.events[..log[i].upto + 1], title, log[i].mark, log[i].pid.value);
      PcrAdds(first.value, Spans(log, i, j - 1), start.value, end.value);
    }
  }

  /** The durations of segments `i` to `j` add up, around the clock's wrap, to the distance from the
      reference that `i` starts at to the last one up to the end of `j`. While they stay within half the
      clock's range, that distance is their sum. */
  ghost predicate AddUp(h: History, title: bool, i: nat, j: nat)
    requires i <= j < |h.log|
  {
    var a, b, sum := h.log[i], h.log[j], Spans(h.log, i, j);
    && a.pid.Some? && a.pid == b.pid
    && exists x: nat, y: nat ::
         && StartsAt(h.events, title, a, a.pid.value, x) && EndsAt(h.events, title, b, a.pid.value, y)
         && Apart(h.events[x].reading.pcr.value, h.events[y].reading.pcr.value, sum)
  }

  lemma CarriedAddsUp(k: Params, h: History, title: bool, i: nat, j: nat)
    requires Carried(k, h, title, i, j)
    ensures AddUp(h, title, i, j)
  {
    hide StartsAt, EndsAt, ClockPid, Steady, Seized, Captured, StartPcr, LastPcr, PcrDelta, Spans, Apart, Filtered;
    var a, b := h.log[i], h.log[j];
    var x := StartEvent(k, h, title, a);
    var y := EndEvent(k, h, title, b);
    ApartIf(h.events[x].reading.pcr.value, h.events[y].reading.pcr.value, Spans(h.log, i, j));
  }

  /** So it is in every run, for all segments that continue one another, unless the clock was seized. */
  lemma DurationsAddUp(m: Media, k: Params, named: bool, strict: bool, calls: seq<Call>, st: St, i: nat, j: nat)
    requires Reachable(m, k, named, strict, calls, st) && i <= j < |st.hist.log|
    requires forall x | i < x <= j :: Continues(st.hist, x)
    requires forall x: nat :: !SeizedAt(k, st.hist, Titled(k, named), st.hist.log[j], x)
    ensures AddUp(st.hist, Titled(k, named), i, j)
  {
    hide Reachable, LogAt, SeizedAt, Captured, JudgedAt, Carried, AddUp;
    var title := Titled(k, named);
    forall x | i <= x <= j ensures JudgedAt(k, st.hist, title, st.hist.log[x]) {
      ReachableLog(m, k, named, strict, calls, st, x);
      LogJudged(m, k, st.hist, title, st.hist.log, x);
    }
    CapturedExactly(m, k, named, strict, calls, st, j);
    SpansCarry(k, st.hist, title, i, j);
    CarriedAddsUp(k, st.hist, title, i, j);
  }
}
