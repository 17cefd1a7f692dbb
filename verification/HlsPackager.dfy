/** The packager's loops: its sliding window as an object, and the intake, scan and table loops over
    its locked state, each proved to do what the functions of HlsModel say. */
module HlsPackager {
  import opened Ts
  import opened HlsModel
  import opened HlsInvariants
  import opened HlsSteps
  import opened HlsRuns
  import opened HlsTheorems

  /** The published segments. `log` is everything ever published. */
  class SegmentWindow {
    const k: Params
    var segments: seq<Segment>
    var mediaSeq: nat
    var discontinuitySeq: nat
    var maxDuration: nat
    ghost var log: seq<Entry>

    ghost function View(): Window
      reads this
    {
      Window(mediaSeq, discontinuitySeq, segments, maxDuration)
    }

    /** The window shows the newest entries of the log, as many as it may hold. */
    ghost predicate Valid()
      reads this
    {
      && k.window >= 1 && Shows(k, View(), log)
      && |segments| == if |log| < k.window then |log| else k.window
    }

    constructor (k: Params)
      requires k.window >= 1
      ensures this.k == k && log == [] && Valid()
    {
      this.k := k;
      segments, mediaSeq, discontinuitySeq, maxDuration := [], 0, 0, k.target;
      log := [];
    }

    /** Room is made before the segment goes in, so no more than the window is ever held. */
    method Publish(segment: Segment, ghost e: Entry)
      requires Valid() && e.segment == segment
      modifies this
      ensures Valid() && log == old(log) + [e]
    {
      while |segments| >= k.window
        invariant Shows(k, View(), log) && log == old(log)
        invariant |segments| == (if |log| < k.window then |log| else k.window) || |segments| == k.window - 1
        decreases |segments|
      {
        ghost var before := View();
        if segments[0].discontinuity {
          discontinuitySeq := discontinuitySeq + 1;
        }
        segments, mediaSeq := segments[1..], mediaSeq + 1;
        DropShows(k, before, View(), log);
      }
      PushShows(k, View(), log, e);
      segments := segments + [segment];
      if maxDuration < segment.duration {
        maxDuration := segment.duration;
      }
      log := log + [e];
    }

    /** A sequence number is served from the window, with the bytes it was published with. */
    method Retained(seqNo: nat) returns (packets: Option<seq<Packet>>)
      requires Valid()
      ensures packets == if |log| - |segments| <= seqNo < |log| then Some(log[seqNo].segment.packets) else None
    {
      if seqNo < mediaSeq || seqNo - mediaSeq >= |segments| {
        return None;
      }
      return Some(segments[seqNo - mediaSeq].packets);
    }
  }

  /** Dropping the oldest segment keeps the window on the log. */
  lemma DropShows(k: Params, w: Window, w': Window, log: seq<Entry>)
    requires Shows(k, w, log) && w.segments != []
    requires w' == w.(segments := w.segments[1..], mediaSeq := w.mediaSeq + 1,
                      discontinuitySeq := w.discontinuitySeq + if w.segments[0].discontinuity then 1 else 0)
    ensures Shows(k, w', log)
  {
    assert log[..w.mediaSeq + 1][..w.mediaSeq] == log[..w.mediaSeq];
  }

  class Packager {
    const m: Media
    const k: Params
    var st: St

    /** Titles are dropped when the ceiling cannot hold their SDT and a packet. */
    constructor (m: Media, k: Params, named: bool, strict: bool)
      requires ValidParams(k)
      ensures this.m == m && this.k == k && Inv(m, k, st)
      ensures st.access.title == (named && k.maxPackets >= 4) && st.hist.log == []
    {
      this.m, this.k := m, k;
      var title := named;
      if title && k.maxPackets < 4 {
        title := false;
      }
      st := Initial(k, title, strict);
      InitialInv(m, k, named, strict);
    }

    /** Terminates although accepting an access point and cutting both rescan their packet. */
    method ScanAll()
      requires ScanWf(m, k, st)
      modifies this
      ensures st == Scan(m, k, old(st)) && st.scanned == |st.cur|
    {
      hide ScanStep, AccessInv, Rebases;
      while st.scanned < |st.cur|
        invariant ScanWf(m, k, st) && Scan(m, k, st) == Scan(m, k, old(st))
        decreases |st.cur| - st.scanned, st.awaiting, WouldReach(m, k, st)
      {
        ScanStepProgress(m, k, st);
        st := ScanStep(m, k, st);
      }
    }

    /** Learn again the tables that the audio selection keeps. */
    method LearnTables(tables: seq<Packet>)
      modifies this
      ensures st == old(st).(access := ObserveAll(m, old(st).access, tables, Since(old(st))))
    {
      var n, since := 0, Since(st);
      while n < |tables|
        invariant n <= |tables|
        invariant st == old(st).(access := st.access)
        invariant ObserveAll(m, st.access, tables[n..], since) == ObserveAll(m, old(st).access, tables, since)
      {
        assert tables[n..][1..] == tables[n + 1..];
        st := st.(access := Observe(m, st.access, tables[n], since).0);
        n := n + 1;
      }
    }

    /** Show a packet to the audio selection; when that changes, drop the run and its tables and learn
        the new ones. */
    method Hear(packet: Packet)
      modifies this
      ensures st == Select(m, old(st), packet)
      ensures m.audioObserve(old(st).audio.seen, packet).changed ==> st.cur == [] && st.awaiting
    {
      hide Quiet, ObserveAll;
      var result := m.audioObserve(st.audio.seen, packet);
      st := st.(audio := Audio(st.audio.seen + [packet], st.audio.events + [Seen(packet)]));
      if result.changed {
        var pending := st.pending || !st.awaiting;
        st := Discard(st.(access := ResetAccess(st.access)));
        st := st.(pending := pending);
        LearnTables(m.audioTables(st.audio.seen));
      }
    }

    /** One complete source packet: markers, audio selection, segmenter. The packager comes to rest
        again, or has panicked with its run already emitted. */
    method TakeSource(source: Packet)
      requires RestInv(m, k, st) && !st.panicked
      modifies this
      ensures Settled(m, k, st) && st == FeedWhole(m, k, old(st), source)
    {
      hide RestInv, ScanWf, Settled, TsTiming, ClearMarker, Lookahead, Select, Opened, Quiet;
      FeedWholeInv(m, k, st, source);
      assert ScanWf(m, k, st) by { RestScans(m, k, st); }
      RecordWf(m, k, st, source);
      var packet := Opened(st, source);
      st := Record(m, st, source);
      if Unannounced(st, packet) {
        st := Discard(st.(audio := NEW_AUDIO, access := ResetAccess(st.access)));
        return;
      }
      var result := m.audioObserve(st.audio.seen, packet);
      SelectWf(m, k, st, packet);
      Hear(packet);
      if result.packet.None? {
        st := st.(dedupe := st.dedupe && !TsTiming(packet).discontinuity);
      } else if |st.cur| == k.maxPackets {
        NextScans(m, k, st);
        st := Lookahead(m, k, st, result.packet.value);
      } else {
        AppendWf(m, k, st, result.packet.value);
        st := Append(st, result.packet.value);
        ScanAll();
      }
    }

    /** Stage bytes into packets; a panic unwinds the loop. Only whole source packets of this tag are
        recorded, and nothing that was published changes. */
    method FeedLocked(data: seq<byte>, tag: Tag, late: bool)
      requires Inv(m, k, st) && Admitted(st, tag)
      modifies this
      ensures Inv(m, k, st) && Fed(Expire(old(st), late), st, {tag})
      ensures st == HlsModel.FeedLocked(m, k, old(st), data, tag, late)
    {
      hide FeedWhole, ScanWf, PublicInv, Settled, RestInv, Fed;
      FeedLockedInv(m, k, st, data, tag, late);
      ExpireInv(m, k, st, late);
      st := Expire(st, late);
      if Closed(st.status) {
        return;
      }
      var remaining := data;
      ghost var whole := FeedBytes(m, k, st, data, tag);
      while remaining != [] && !st.panicked
        invariant Inv(m, k, st) && Admitted(st, tag) && FeedBytes(m, k, st, remaining, tag) == whole
        decreases |remaining|
      {
        var take := Take(st, remaining);
        ghost var next := Fill(m, k, st, remaining[..take], tag);
        FillInv(m, k, st, remaining[..take], tag);
        FedKeeps(st, next, {tag});
        StageInv(m, k, st, remaining[..take], tag);
        st := Stage(st, remaining[..take], tag);
        remaining := remaining[take..];
        if |st.input| == TS_PACKET {
          var packet := Packet(st.input);
          StagedRests(m, k, st);
          st := st.(input := []);
          TakeSource(packet);
        }
        assert st == next;
      }
    }

    /** Any sequence of calls on the object is a run of the model, and keeps its invariant. */
    method Drive(calls: seq<Call>)
      requires Inv(m, k, st)
      modifies this
      ensures Inv(m, k, st) && old(st).hist.log <= st.hist.log && st == Run(m, k, old(st), calls)
    {
      hide Apply, ScanWf, Settled, PublicInv, Grows;
      RunKeeps(m, k, st, calls);
      var n := 0;
      while n < |calls|
        invariant n <= |calls| && Inv(m, k, st)
        invariant Run(m, k, st, calls[n..]) == Run(m, k, old(st), calls)
      {
        assert calls[n..][1..] == calls[n + 1..];
        ApplyWf(m, k, st, calls[n]);
        Step(calls[n]);
        n := n + 1;
      }
    }

    /** One call: what is on record only grows. */
    method Step(c: Call)
      requires Inv(m, k, st)
      modifies this
      ensures Inv(m, k, st) && Grows(old(st), st, c) && st == Apply(m, k, old(st), c)
    {
      hide ScanWf, ResetPartial, HlsModel.FeedLocked, Settled, PublicInv, Grows, Fed;
      ApplyInv(m, k, st, c);
      if st.panicked {
        return;
      }
      match c
      case Begin(generation, recovering) => st := BeginGeneration(st, generation, recovering);
      case FeedToken(token, data, late) =>
        if token == st.generation && !Closed(st.status) {
          FeedLocked(data, Fenced(token), late);
        }
      case Feed(data, late) =>
        if !Closed(st.status) {
          FeedLocked(data, Native, late);
        }
      case Fail(token, reason) => st := FailGeneration(st, token, reason);
      case Stop => st := ResetPartial(st, false, false).(status := Stopped);
      case Gap(paired) => st := ResetPartial(st, paired, false);
      case Poll(late) => st := Expire(st, late);
    }
  }

  lemma RestScans(m: Media, k: Params, st: St)
    requires RestInv(m, k, st)
    ensures ScanWf(m, k, st)
  {
  }

  lemma NextScans(m: Media, k: Params, st: St)
    requires ScanWf(m, k, st)
    ensures k.window >= 1 && AccessInv(m, st.access)
  {
  }

  lemma StagedRests(m: Media, k: Params, st: St)
    requires RestInv(m, k, st)
    ensures RestInv(m, k, st.(input := []))
  {
    hide LogOk, AccessInv, Recorded, Fenceable, AudioOk, Cached, Running, Waiting;
    StagedInv(m, k, st, st.(input := []));
  }
}
