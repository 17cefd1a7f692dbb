/** What every step of the reservation protocol keeps. */
module BroadcastInvariants {
  import opened Ts
  import opened Broadcast

  /** What all entries share. */
  datatype World = World(disk: Disk, log: seq<Publication>, minted: nat, dead: nat, service: bool)

  function WorldOf(s: State): World {
    World(s.disk, s.log, s.minted, s.dead, s.service)
  }

  ghost predicate RecordOk(w: World, rec: Record) {
    rec.next <= rec.reserved && w.dead <= rec.identity < w.minted
  }

  /** Whatever may survive is whole, and the name reads as the highest mark of its identity. */
  ghost predicate DiskInv(w: World) {
    && w.dead <= w.minted
    && w.disk.cache in w.disk.durable
    && forall c | c in w.disk.durable ::
         && !c.Torn?
         && (c.Whole? ==> RecordOk(w, c.rec))
         && (c.Whole? && w.disk.cache.Whole? && c.rec.identity == w.disk.cache.rec.identity ==>
              c.rec.reserved <= w.disk.cache.rec.reserved)
  }

  /** Every surviving record of an identity is past every piece published under it. */
  ghost predicate Marked(w: World) {
    forall c, i | c in w.disk.durable && 0 <= i < |w.log| ::
      c.Whole? && c.rec.identity == w.log[i].identity ==> w.log[i].piece < c.rec.reserved
  }

  /** Later attempts publish strictly higher pieces. */
  ghost predicate NoReuse(log: seq<Publication>) {
    forall i, j | 0 <= i < j < |log| ::
      && log[i].lifetime <= log[j].lifetime
      && (log[i].attempt == log[j].attempt ==> log[i].lifetime == log[j].lifetime)
      && (log[i].identity == log[j].identity ==>
           log[i].attempt == log[j].attempt || log[i].piece < log[j].piece)
  }

  ghost predicate LogInv(s: State) {
    && NoReuse(s.log) && Marked(WorldOf(s))
    && forall i | 0 <= i < |s.log| ::
         s.log[i].identity < s.minted && s.log[i].attempt < s.ids && s.log[i].lifetime <= s.lifetime
  }

  ghost predicate Below(log: seq<Publication>, identity: nat, piece: nat) {
    forall i | 0 <= i < |log| :: log[i].identity == identity ==> log[i].piece < piece
  }

  ghost predicate Shut(en: Entry) {
    en.cursor.None? || en.cursor.value.closed
  }

  /** The highest mark that may be on disk while the cursor is in order. */
  ghost function Limit(en: Entry): nat
    requires en.cursor.Some?
  {
    if en.saver.Some? && !en.saver.value.Waiting? then en.saver.value.rec.reserved else en.cursor.value.reserved
  }

  ghost predicate CursorInv(w: World, en: Entry)
    requires en.cursor.Some?
  {
    var c := en.cursor.value;
    && w.dead <= c.identity
    && Below(w.log, c.identity, c.next)
    && forall d | d in w.disk.durable ::
         && d.Whole? && d.rec.identity == c.identity && d.rec.reserved >= c.reserved
         && (CheckOk(w.service, en) ==> d.rec.reserved <= Limit(en))
  }

  ghost predicate SavingInv(w: World, en: Entry)
    requires en.io.Saving?
  {
    var rec := en.io.rec;
    && RecordOk(w, rec)
    && (en.io.stage.Rename? ==> en.io.temp.Clean?)
    && (en.io.stage.SyncDirectory? ==> w.disk.cache == Whole(rec))
    && (forall d | d in w.disk.durable ::
         d.Whole? && d.rec.identity == rec.identity ==> d.rec.reserved <= rec.reserved)
    && (en.io.owner.Init? ==> en.cursor.None? && Below(w.log, rec.identity, rec.next))
    && (en.io.owner.Reserve? ==>
         && !Shut(en) && rec.identity == en.cursor.value.identity && rec.reserved >= en.cursor.value.reserved
         && (en.saver == Some(Running(rec)) || rec.reserved == en.cursor.value.reserved))
  }

  ghost predicate SaverInv(w: World, en: Entry)
    requires en.saver.Some?
  {
    var saver := en.saver.value;
    && (en.publication.ByJob? || en.publication.ByFlush?)
    && !Shut(en) && saver.rec.identity == en.cursor.value.identity
    && saver.rec.next <= saver.rec.reserved && saver.rec.reserved >= en.cursor.value.reserved
    && (saver.Running? ==> en.io.Saving? && en.io.owner.Reserve? && en.io.rec == saver.rec)
    && (saver.Saved? && !saver.ok ==> en.cursor.value.poisoned)
    && (saver.Saved? && saver.ok ==>
         en.io == Idle && forall d | d in w.disk.durable :: d.Whole? && d.rec.reserved >= saver.rec.reserved)
    && (en.publication.ByFlush? ==> saver.rec.reserved == en.cursor.value.reserved)
  }

  ghost predicate EntryInv(w: World, en: Entry) {
    && (!en.stop.NoStop? ==> en.cancel)
    && (en.publication.ByStop? ==> en.stop.Requested?)
    && (en.io.Deleting? ==>
         && en.publication.ByStop? && en.stop == Requested(true) && Shut(en)
         && (en.io.unlinked ==> en.unlinked && w.disk.cache == Absent))
    && (en.stop.Done? ==> en.io == Idle && Shut(en) && en.saver.None?)
    && (en.stop == Done(true) ==> en.unlinked)
    && (en.unlinked ==> Shut(en) && !en.io.Saving? && !en.stop.NoStop?)
    && (en.cursor.Some? ==> en.cursor.value.next <= en.cursor.value.reserved && en.cursor.value.identity < w.minted)
    && (en.cursor.Some? && !en.unlinked ==> CursorInv(w, en))
    && (en.io.Saving? ==> SavingInv(w, en))
    && (en.saver.Some? ==> SaverInv(w, en))
  }

  ghost predicate JobInv(a: nat, at: Attempt, en: Entry)
    requires at.job.Some?
  {
    var job := at.job.value;
    && en.publication == ByJob(a)
    && (forall p | p in job.outputs :: at.start <= p)
    && (job.phase.Reserving? <==> en.saver.Some?)
    && (job.phase.Reserving? && job.outputs != [] ==> job.outputs[0] < en.saver.value.rec.reserved)
    && (job.phase.Consumed? || job.phase.Checked? ==>
         !Shut(en) && job.outputs != [] && job.outputs[0] < en.cursor.value.next)
  }

  ghost predicate AttemptInv(log: seq<Publication>, lifetime: nat, a: nat, at: Attempt, en: Entry) {
    && en.cursor.Some?
    && (!Shut(en) ==>
         && en.producer.Some? && en.producer.value.authority == at.authority
         && forall i | 0 <= i < |log| ::
              log[i].identity == en.cursor.value.identity ==> log[i].attempt == a || log[i].piece < at.start)
    && (forall i | 0 <= i < |log| :: log[i].attempt == a ==> log[i].lifetime == lifetime)
    && (at.job.Some? ==> JobInv(a, at, en))
  }

  /** All entries but the current one are deleted; an attempt belongs to an entry, and no two share
      an authority. */
  ghost predicate IdsInv(s: State) {
    && (s.current.Some? ==> s.current.value in s.entries)
    && (forall e | e in s.entries :: e < s.ids && (s.current == Some(e) || s.entries[e].stop == Done(true)))
    && (forall e | e in s.entries :: s.entries[e].producer.Some? ==> s.entries[e].producer.value.authority < s.ids)
    && (forall a | a in s.attempts ::
         a < s.ids && s.attempts[a].entry in s.entries && s.attempts[a].authority in s.busy)
    && (forall a, b | a in s.attempts && b in s.attempts ::
         s.attempts[a].authority == s.attempts[b].authority ==> a == b)
    && (forall x | x in s.busy :: x < s.ids)
  }

  ghost predicate Inv(s: State) {
    && DiskInv(WorldOf(s)) && LogInv(s) && IdsInv(s)
    && (forall e | e in s.entries :: EntryInv(WorldOf(s), s.entries[e]))
    && (forall a | a in s.attempts ::
         AttemptInv(s.log, s.lifetime, a, s.attempts[a], s.entries[s.attempts[a].entry]))
  }

  // ----- Frames ---------------------------------------------------------------------------

  /** An entry changes and nothing else; its attempts still fit. */
  lemma EntryStep(s: State, e: nat, en: Entry)
    requires Inv(s) && e in s.entries && EntryInv(WorldOf(s), en)
    requires s.current == Some(e) || en.stop == Done(true)
    requires en.producer.Some? ==> en.producer.value.authority < s.ids
    requires forall a | a in s.attempts && s.attempts[a].entry == e ::
      AttemptInv(s.log, s.lifetime, a, s.attempts[a], en)
    ensures Inv(Put(s, e, en))
  {
    hide EntryInv, AttemptInv, DiskInv, NoReuse, Marked;
    assert WorldOf(Put(s, e, en)) == WorldOf(s);
  }

  /** An attempt changes and nothing else. */
  lemma AttemptStep(s: State, a: nat, at: Attempt)
    requires Inv(s) && a in s.attempts
    requires at.entry == s.attempts[a].entry && at.authority == s.attempts[a].authority
    requires AttemptInv(s.log, s.lifetime, a, at, s.entries[at.entry])
    ensures Inv(PutAttempt(s, a, at))
  {
    hide EntryInv, AttemptInv, DiskInv, NoReuse, Marked;
    assert WorldOf(PutAttempt(s, a, at)) == WorldOf(s);
  }

  /** A job moves: its attempt and its entry change together. */
  lemma JobStep(s: State, a: nat, at: Attempt, en: Entry)
    requires Inv(s) && a in s.attempts
    requires at.entry == s.attempts[a].entry && at.authority == s.attempts[a].authority
    requires EntryInv(WorldOf(s), en) && AttemptInv(s.log, s.lifetime, a, at, en)
    requires s.current == Some(at.entry) || en.stop == Done(true)
    requires en.producer == s.entries[at.entry].producer
    requires forall b | b in s.attempts && b != a && s.attempts[b].entry == at.entry ::
      AttemptInv(s.log, s.lifetime, b, s.attempts[b], en)
    ensures Inv(PutAttempt(Put(s, at.entry, en), a, at))
  {
    hide EntryInv, AttemptInv, DiskInv, NoReuse, Marked;
    assert WorldOf(PutAttempt(Put(s, at.entry, en), a, at)) == WorldOf(s);
  }

  /** An entry with an open cursor is the current one, and has at most one attempt. */
  lemma OpenIsCurrent(s: State, e: nat)
    requires Inv(s) && e in s.entries && !Shut(s.entries[e])
    ensures s.current == Some(e)
    ensures forall a, b | a in s.attempts && b in s.attempts && s.attempts[a].entry == e && s.attempts[b].entry == e ::
      a == b
  {
    assert EntryInv(WorldOf(s), s.entries[e]);
  }

  // ----- Steps that move one entry or attempt ---------------------------------------------

  lemma EnterInv(s: State)
    requires Inv(s) && CanEnter(s)
    ensures Inv(Enter(s))
  {
    hide EntryInv, AttemptInv, DiskInv, NoReuse, Marked;
    assert WorldOf(Enter(s)) == WorldOf(s);
    assert EntryInv(WorldOf(s), NEW_ENTRY) by {
      NewEntryInv(WorldOf(s));
    }
  }

  lemma NewEntryInv(w: World)
    ensures EntryInv(w, NEW_ENTRY)
  {
  }

  lemma BeginSaveInv(s: State, e: nat)
    requires Inv(s) && CanBeginSave(s, e)
    ensures Inv(BeginSave(s, e))
  {
    OpenIsCurrent(s, e);
    var en := s.entries[e];
    var rec := en.saver.value.rec;
    var en' := en.(io := Saving(rec, Create, NoTemp, Reserve), saver := Some(Running(rec)));
    assert EntryInv(WorldOf(s), en);
    assert EntryInv(WorldOf(s), en');
    hide EntryInv, IdsInv, DiskInv, LogInv;
    EntryStep(s, e, en');
  }

  lemma AcquireInv(s: State, e: nat)
    requires Inv(s) && CanAcquire(s, e)
    ensures Inv(Acquire(s, e))
  {
    OpenIsCurrent(s, e);
    var en := s.entries[e];
    var en' := en.(producer := Some(Producer(s.ids, true)));
    assert EntryInv(WorldOf(s), en);
    assert EntryInv(WorldOf(s), en');
    assert forall a | a in s.attempts :: s.attempts[a].entry != e;
    hide EntryInv, AttemptInv, DiskInv, NoReuse, Marked;
    assert WorldOf(Acquire(s, e)) == WorldOf(s);
  }

  lemma DropSessionInv(s: State, e: nat)
    requires Inv(s) && CanDropSession(s, e)
    ensures Inv(DropSession(s, e))
  {
    var en := s.entries[e];
    var en' := en.(producer := Some(en.producer.value.(alive := false)));
    assert EntryInv(WorldOf(s), en);
    assert EntryInv(WorldOf(s), en');
    hide EntryInv, DiskInv, LogInv;
    EntryStep(s, e, en');
  }

  lemma DetachInv(s: State, e: nat)
    requires Inv(s) && CanDetach(s, e)
    ensures Inv(Detach(s, e))
  {
    var en := s.entries[e];
    var en' := en.(producer := None);
    assert EntryInv(WorldOf(s), en);
    assert EntryInv(WorldOf(s), en');
    hide EntryInv, DiskInv, LogInv;
    EntryStep(s, e, en');
  }

  lemma OpenInv(s: State, e: nat)
    requires Inv(s) && CanOpen(s, e)
    ensures Inv(Open(s, e))
  {
    var en := s.entries[e];
    var at := Attempt(e, en.producer.value.authority, en.cursor.value.next, true, true, false, None);
    assert EntryInv(WorldOf(s), en);
    assert AttemptInv(s.log, s.lifetime, s.ids, at, en);
    hide EntryInv, AttemptInv, DiskInv, NoReuse, Marked;
    assert WorldOf(Open(s, e)) == WorldOf(s);
  }

  lemma SpoilInv(s: State, a: nat, held: bool)
    requires Inv(s) && a in s.attempts
    ensures Inv(Spoil(s, a, held))
  {
    hide EntryInv, DiskInv, LogInv;
    var at := s.attempts[a];
    AttemptStep(s, a, at.(failed := true, live := at.live && held, held := at.held && held));
  }

  lemma ReapInv(s: State, a: nat)
    requires Inv(s) && CanReap(s, a)
    ensures Inv(Reap(s, a))
  {
    hide EntryInv, AttemptInv, DiskInv, NoReuse, Marked;
    assert WorldOf(Reap(s, a)) == WorldOf(s);
  }

  lemma AdvanceInv(s: State, a: nat)
    requires Inv(s) && CanAdvance(s, a)
    ensures Inv(Advance(s, a))
  {
    hide EntryInv, DiskInv, LogInv;
    AttemptStep(s, a, s.attempts[a].(start := s.attempts[a].start + 1));
  }

  // ----- Publication jobs -----------------------------------------------------------------

  /** Attempts without a job do not see what a job does to their entry. */
  ghost predicate SameForOthers(en: Entry, en': Entry) {
    && en'.producer == en.producer && en'.cursor.Some? == en.cursor.Some?
    && (en.cursor.Some? ==>
         en'.cursor.value.identity == en.cursor.value.identity && en'.cursor.value.closed == en.cursor.value.closed)
  }

  lemma OthersKeep(s: State, a: nat, en: Entry)
    requires Inv(s) && a in s.attempts
    requires var en0 := s.entries[s.attempts[a].entry];
             SameForOthers(en0, en) && (en0.publication == Free || en0.publication == ByJob(a))
    ensures forall b | b in s.attempts && b != a && s.attempts[b].entry == s.attempts[a].entry ::
      AttemptInv(s.log, s.lifetime, b, s.attempts[b], en)
  {
    hide EntryInv, DiskInv, LogInv;
    forall b | b in s.attempts && b != a && s.attempts[b].entry == s.attempts[a].entry
      ensures AttemptInv(s.log, s.lifetime, b, s.attempts[b], en)
    {
      assert AttemptInv(s.log, s.lifetime, b, s.attempts[b], s.entries[s.attempts[b].entry]);
    }
  }

  lemma JobMoves(s: State, a: nat, at: Attempt, en: Entry)
    requires Inv(s) && a in s.attempts
    requires at.entry == s.attempts[a].entry && at.authority == s.attempts[a].authority
    requires EntryInv(WorldOf(s), en) && AttemptInv(s.log, s.lifetime, a, at, en)
    requires en.stop == s.entries[at.entry].stop
    requires var en0 := s.entries[at.entry];
             SameForOthers(en0, en) && (en0.publication == Free || en0.publication == ByJob(a))
    ensures Inv(PutAttempt(Put(s, at.entry, en), a, at))
  {
    hide EntryInv, AttemptInv, DiskInv, LogInv;
    OthersKeep(s, a, en);
    JobStep(s, a, at, en);
  }

  lemma StartInv(s: State, a: nat, outputs: seq<nat>, checkpoint: bool)
    requires Inv(s) && CanStart(s, a, outputs, checkpoint)
    ensures Inv(Start(s, a, outputs, checkpoint))
  {
    var at := s.attempts[a];
    var en := s.entries[at.entry].(publication := ByJob(a));
    var at' := at.(job := Some(Job(outputs, checkpoint, Ready)));
    assert EntryInv(WorldOf(s), s.entries[at.entry]);
    assert AttemptInv(s.log, s.lifetime, a, at, s.entries[at.entry]);
    assert EntryInv(WorldOf(s), en);
    assert AttemptInv(s.log, s.lifetime, a, at', en);
    hide EntryInv, AttemptInv, DiskInv, LogInv;
    JobMoves(s, a, at', en);
  }

  lemma ConsumeInv(s: State, a: nat)
    requires Inv(s) && CanConsume(s, a)
    ensures Inv(Consume(s, a))
  {
    var at := s.attempts[a];
    var en, job := s.entries[at.entry], at.job.value;
    var cursor, piece := en.cursor.value, job.outputs[0];
    assert EntryInv(WorldOf(s), en);
    assert AttemptInv(s.log, s.lifetime, a, at, en);
    if piece < cursor.reserved {
      ConsumeReserved(s, a);
    } else {
      var rec := Record(cursor.identity, cursor.next, Extension(cursor.reserved, piece).value);
      var en' := en.(saver := Some(Waiting(rec)));
      var at' := at.(job := Some(job.(phase := Reserving)));
      assert EntryInv(WorldOf(s), en');
      assert AttemptInv(s.log, s.lifetime, a, at', en');
      hide EntryInv, AttemptInv, DiskInv, LogInv;
      JobMoves(s, a, at', en');
    }
  }

  lemma ConsumeReserved(s: State, a: nat)
    requires Inv(s) && CanConsume(s, a)
    requires s.attempts[a].job.value.outputs[0] < s.entries[s.attempts[a].entry].cursor.value.reserved
    ensures Inv(Consume(s, a))
  {
    var at := s.attempts[a];
    var en, job := s.entries[at.entry], at.job.value;
    var next := Max(en.cursor.value.next, job.outputs[0] + 1);
    assert Consume(s, a) == PutAttempt(Put(s, at.entry, en.(cursor := Some(en.cursor.value.(next := next)))), a,
                                       at.(job := Some(job.(phase := Consumed))));
    hide Consume;
    assert EntryInv(WorldOf(s), en);
    assert AttemptInv(s.log, s.lifetime, a, at, en);
    assert !Shut(en) && en.saver.None? && en.publication == ByJob(a);
    var en' := en.(cursor := Some(en.cursor.value.(next := next)));
    var at' := at.(job := Some(job.(phase := Consumed)));
    RaiseNext(WorldOf(s), en, next);
    AttemptConsumes(s.log, s.lifetime, a, at, en, en');
    hide EntryInv, AttemptInv, Inv;
    JobMoves(s, a, at', en');
  }

  lemma AttemptConsumes(log: seq<Publication>, lifetime: nat, a: nat, at: Attempt, en: Entry, en': Entry)
    requires AttemptInv(log, lifetime, a, at, en) && at.job.Some? && at.job.value.outputs != []
    requires SameForOthers(en, en') && en'.publication == en.publication && en'.saver.None? && !Shut(en')
    requires at.job.value.outputs[0] < en'.cursor.value.next
    ensures AttemptInv(log, lifetime, a, at.(job := Some(at.job.value.(phase := Consumed))), en')
  {
  }

  lemma BelowMore(log: seq<Publication>, identity: nat, piece: nat, more: nat)
    requires Below(log, identity, piece) && piece <= more
    ensures Below(log, identity, more)
  {
  }

  lemma RaiseNext(w: World, en: Entry, next: nat)
    requires EntryInv(w, en) && !Shut(en) && en.cursor.value.next <= next <= en.cursor.value.reserved
    ensures EntryInv(w, en.(cursor := Some(en.cursor.value.(next := next))))
  {
    BelowMore(w.log, en.cursor.value.identity, en.cursor.value.next, next);
    hide Below, RecordOk;
  }

  lemma CheckpointInv(s: State, a: nat)
    requires Inv(s) && CanCheckpoint(s, a)
    ensures Inv(Checkpoint(s, a))
  {
    var at := s.attempts[a];
    var en := s.entries[at.entry];
    assert EntryInv(WorldOf(s), en);
    assert AttemptInv(s.log, s.lifetime, a, at, en);
    var rec := Record(en.cursor.value.identity, en.cursor.value.next, en.cursor.value.reserved);
    var en' := en.(saver := Some(Waiting(rec)));
    var at' := at.(job := Some(at.job.value.(phase := Reserving, checkpoint := false)));
    assert EntryInv(WorldOf(s), en');
    assert AttemptInv(s.log, s.lifetime, a, at', en');
    hide EntryInv, AttemptInv, DiskInv, LogInv;
    JobMoves(s, a, at', en');
  }

  lemma GrantInv(s: State, a: nat)
    requires Inv(s) && CanGrant(s, a)
    ensures Inv(Grant(s, a))
  {
    var at := s.attempts[a];
    var en, job := s.entries[at.entry], at.job.value;
    var raised := en.cursor.value.(reserved := Max(en.cursor.value.reserved, en.saver.value.rec.reserved));
    var en' := en.(cursor := Some(raised), saver := None);
    var next := if job.outputs == [] then raised.next else Max(raised.next, job.outputs[0] + 1);
    var last := en'.(cursor := Some(raised.(next := next)));
    var at' := at.(job := Some(job.(phase := if job.outputs == [] then Ready else Consumed)));
    assert Grant(s, a) == PutAttempt(Put(s, at.entry, last), a, at');
    hide Grant;
    assert EntryInv(WorldOf(s), en);
    assert AttemptInv(s.log, s.lifetime, a, at, en);
    GrantEntry(WorldOf(s), en, raised);
    assert en.publication == ByJob(a) && !Shut(en);
    RaiseNext(WorldOf(s), en', next);
    if job.outputs == [] {
      assert AttemptInv(s.log, s.lifetime, a, at', last);
    } else {
      AttemptConsumes(s.log, s.lifetime, a, at, en, last);
    }
    hide EntryInv, AttemptInv, Inv;
    JobMoves(s, a, at', last);
  }

  lemma GrantEntry(w: World, en: Entry, cursor: Cursor)
    requires EntryInv(w, en) && CheckOk(w.service, en) && en.saver.Some? && en.saver.value.Saved? && en.saver.value.ok
    requires cursor == en.cursor.value.(reserved := Max(en.cursor.value.reserved, en.saver.value.rec.reserved))
    ensures cursor.reserved == en.saver.value.rec.reserved && cursor.next <= cursor.reserved
    ensures EntryInv(w, en.(cursor := Some(cursor), saver := None))
    ensures !Shut(en.(cursor := Some(cursor)))
  {
    hide Below, RecordOk;
  }

  lemma CheckInv(s: State, a: nat)
    requires Inv(s) && CanCheck(s, a)
    ensures Inv(Check(s, a))
  {
    var at := s.attempts[a];
    assert AttemptInv(s.log, s.lifetime, a, at, s.entries[at.entry]);
    hide EntryInv, DiskInv, LogInv;
    AttemptStep(s, a, at.(job := Some(at.job.value.(phase := Checked))));
  }

  lemma EndInv(s: State, a: nat)
    requires Inv(s) && CanEnd(s, a)
    ensures Inv(End(s, a))
  {
    var at := s.attempts[a];
    var en := s.entries[at.entry];
    assert EntryInv(WorldOf(s), en);
    assert AttemptInv(s.log, s.lifetime, a, at, en);
    var en' := en.(publication := Free, saver := None);
    var at' := at.(job := None, failed := at.failed || at.job.value != Job([], false, Ready));
    assert EntryInv(WorldOf(s), en');
    assert AttemptInv(s.log, s.lifetime, a, at', en');
    hide EntryInv, AttemptInv, DiskInv, LogInv;
    JobMoves(s, a, at', en');
  }

  /** Putting a chunk in the store. */
  lemma StoreInv(s: State, a: nat)
    requires Inv(s) && CanStore(s, a)
    ensures Inv(Store(s, a))
  {
    var at := s.attempts[a];
    var en, job := s.entries[at.entry], at.job.value;
    var piece := job.outputs[0];
    assert EntryInv(WorldOf(s), en);
    assert AttemptInv(s.log, s.lifetime, a, at, en);
    OpenIsCurrent(s, at.entry);
    assert piece in job.outputs;
    var chunk := Publication(en.cursor.value.identity, s.lifetime, at.entry, a, piece);
    StoreLog(s, a, chunk);
    StoreEntries(s, chunk);
    StoreAttempts(s, a, chunk);
    hide EntryInv, AttemptInv, NoReuse, Marked;
    assert WorldOf(Store(s, a)) == WorldOf(s).(log := s.log + [chunk]);
    assert DiskInv(WorldOf(Store(s, a)));
  }

  lemma StoreLog(s: State, a: nat, chunk: Publication)
    requires Inv(s) && CanStore(s, a)
    requires var at := s.attempts[a];
             var en := s.entries[at.entry];
             && !Shut(en) && chunk.piece == at.job.value.outputs[0]
             && chunk == Publication(en.cursor.value.identity, s.lifetime, at.entry, a, chunk.piece)
    ensures NoReuse(s.log + [chunk]) && Marked(WorldOf(s).(log := s.log + [chunk]))
  {
    var at := s.attempts[a];
    var en := s.entries[at.entry];
    assert EntryInv(WorldOf(s), en);
    assert AttemptInv(s.log, s.lifetime, a, at, en);
    assert chunk.piece in at.job.value.outputs;
    hide DiskInv, IdsInv;
  }

  lemma StoreEntries(s: State, chunk: Publication)
    requires Inv(s)
    requires s.current.Some? && s.entries[s.current.value].cursor.Some?
    requires var c := s.entries[s.current.value].cursor.value;
             chunk.identity == c.identity && chunk.piece < c.next
    ensures forall e | e in s.entries :: EntryInv(WorldOf(s).(log := s.log + [chunk]), s.entries[e])
  {
    forall e | e in s.entries ensures EntryInv(WorldOf(s).(log := s.log + [chunk]), s.entries[e]) {
      assert EntryInv(WorldOf(s), s.entries[e]);
    }
  }

  lemma StoreAttempts(s: State, a: nat, chunk: Publication)
    requires Inv(s) && CanStore(s, a) && s.current == Some(s.attempts[a].entry) && !Shut(s.entries[s.attempts[a].entry])
    requires chunk.attempt == a && chunk.lifetime == s.lifetime
    ensures forall b | b in s.attempts && b != a ::
      AttemptInv(s.log + [chunk], s.lifetime, b, s.attempts[b], s.entries[s.attempts[b].entry])
    ensures
      var at := s.attempts[a];
      var job := at.job.value;
      AttemptInv(s.log + [chunk], s.lifetime, a,
                 at.(job := Some(job.(outputs := job.outputs[1..], phase := Ready))), s.entries[at.entry])
  {
    OpenIsCurrent(s, s.attempts[a].entry);
    assert AttemptInv(s.log, s.lifetime, a, s.attempts[a], s.entries[s.attempts[a].entry]);
    forall b | b in s.attempts && b != a
      ensures AttemptInv(s.log + [chunk], s.lifetime, b, s.attempts[b], s.entries[s.attempts[b].entry])
    {
      assert AttemptInv(s.log, s.lifetime, b, s.attempts[b], s.entries[s.attempts[b].entry]);
      assert EntryInv(WorldOf(s), s.entries[s.attempts[b].entry]);
    }
    hide EntryInv, DiskInv, LogInv, IdsInv;
    var outputs := s.attempts[a].job.value.outputs;
    assert forall p | p in outputs[1..] :: p in outputs;
  }

  // ----- Flush and stop -------------------------------------------------------------------

  /** The cursor, lock and saver of an entry look the same to its attempts. */
  ghost predicate LooksTheSame(en: Entry, en': Entry) {
    && (en.cursor.Some? ==>
         && en'.cursor.Some? && en'.cursor.value.identity == en.cursor.value.identity
         && en'.cursor.value.next == en.cursor.value.next
         && (en.cursor.value.closed ==> en'.cursor.value.closed)
         && (en'.cursor.value.closed ==> en.cursor.value.closed || !en.publication.ByJob?))
    && (en'.producer == en.producer || Shut(en'))
    && (en'.publication == en.publication || !en.publication.ByJob?)
    && (en.publication.ByJob? ==>
         && en'.saver.Some? == en.saver.Some?
         && (en.saver.Some? ==> en'.saver.value.rec == en.saver.value.rec))
  }

  lemma AttemptFits(log: seq<Publication>, lifetime: nat, a: nat, at: Attempt, en: Entry, en': Entry)
    requires AttemptInv(log, lifetime, a, at, en) && LooksTheSame(en, en')
    ensures AttemptInv(log, lifetime, a, at, en')
  {
  }

  lemma AttemptsFit(s: State, e: nat, en: Entry)
    requires Inv(s) && e in s.entries && LooksTheSame(s.entries[e], en)
    ensures forall a | a in s.attempts && s.attempts[a].entry == e ::
      AttemptInv(s.log, s.lifetime, a, s.attempts[a], en)
  {
    hide AttemptInv, EntryInv, LogInv, DiskInv;
    forall a | a in s.attempts && s.attempts[a].entry == e
      ensures AttemptInv(s.log, s.lifetime, a, s.attempts[a], en)
    {
      AttemptFits(s.log, s.lifetime, a, s.attempts[a], s.entries[e], en);
    }
  }

  lemma EntryMoves(s: State, e: nat, en: Entry)
    requires Inv(s) && e in s.entries && EntryInv(WorldOf(s), en)
    requires en.stop == s.entries[e].stop || !s.entries[e].stop.Done?
    requires en.producer == s.entries[e].producer || en.producer.None?
    requires LooksTheSame(s.entries[e], en)
    ensures Inv(Put(s, e, en))
  {
    AttemptsFit(s, e, en);
    hide EntryInv, AttemptInv, LogInv, DiskInv;
    EntryStep(s, e, en);
  }

  lemma FlushInv(s: State, e: nat)
    requires Inv(s) && CanFlush(s, e)
    ensures Inv(Flush(s, e))
  {
    var en := s.entries[e];
    assert EntryInv(WorldOf(s), en);
    var rec := Record(en.cursor.value.identity, en.cursor.value.next, en.cursor.value.reserved);
    var en' := en.(publication := ByFlush, saver := Some(Waiting(rec)));
    assert EntryInv(WorldOf(s), en');
    hide EntryInv, Inv;
    EntryMoves(s, e, en');
  }

  lemma LeaveFlushInv(s: State, e: nat)
    requires Inv(s) && CanLeaveFlush(s, e)
    ensures Inv(LeaveFlush(s, e))
  {
    var en := s.entries[e];
    assert EntryInv(WorldOf(s), en);
    var en' := en.(publication := Free, saver := None);
    assert EntryInv(WorldOf(s), en');
    hide EntryInv, Inv;
    EntryMoves(s, e, en');
  }

  lemma RequestStopInv(s: State, e: nat, delete: bool)
    requires Inv(s) && CanRequestStop(s, e)
    ensures Inv(RequestStop(s, e, delete))
  {
    var en := s.entries[e];
    assert EntryInv(WorldOf(s), en);
    var en' := en.(cancel := true, stop := Requested(delete));
    assert EntryInv(WorldOf(s), en');
    hide EntryInv, Inv;
    EntryMoves(s, e, en');
  }

  lemma StopPublicationInv(s: State, e: nat)
    requires Inv(s) && CanStopPublication(s, e)
    ensures Inv(StopPublication(s, e))
  {
    var en := s.entries[e];
    assert EntryInv(WorldOf(s), en);
    var en' := en.(publication := ByStop);
    assert EntryInv(WorldOf(s), en');
    hide EntryInv, Inv;
    EntryMoves(s, e, en');
  }

  lemma StopIoInv(s: State, e: nat)
    requires Inv(s) && CanStopIo(s, e)
    ensures Inv(StopIo(s, e))
  {
    var en := s.entries[e];
    assert EntryInv(WorldOf(s), en);
    var cursor := if en.cursor.Some? then Some(en.cursor.value.(closed := true)) else None;
    var en' := if en.stop.delete then en.(cursor := cursor, io := Deleting(false))
               else en.(cursor := cursor, stop := Done(false), publication := Free, producer := None);
    assert EntryInv(WorldOf(s), en');
    hide EntryInv, Inv;
    EntryMoves(s, e, en');
  }

  // ----- Steps that move the world --------------------------------------------------------

  lemma RetiredAny(w: World, w': World, en: Entry)
    requires EntryInv(w, en) && en.stop == Done(true) && w.minted <= w'.minted
    ensures EntryInv(w', en)
  {
  }

  /** The current entry acts on the disk; every other one is retired. */
  lemma WorldStep(s: State, s': State, e: nat, en: Entry)
    requires Inv(s) && s.current == Some(e)
    requires s' == Put(s, e, en).(disk := s'.disk, minted := s'.minted, dead := s'.dead, current := s'.current)
    requires s'.current == s.current || (s'.current.None? && en.stop == Done(true))
    requires s.minted <= s'.minted && DiskInv(WorldOf(s')) && Marked(WorldOf(s'))
    requires EntryInv(WorldOf(s'), en)
    requires en.producer == s.entries[e].producer || en.producer.None?
    requires LooksTheSame(s.entries[e], en)
    ensures Inv(s')
  {
    AttemptsFit(s, e, en);
    hide AttemptInv, DiskInv, Marked, NoReuse, LooksTheSame, EntryInv;
    forall x | x in s'.entries && x != e ensures EntryInv(WorldOf(s'), s'.entries[x]) {
      RetiredAny(WorldOf(s), WorldOf(s'), s.entries[x]);
    }
  }

  lemma CloseServiceInv(s: State)
    requires Inv(s)
    ensures Inv(CloseService(s))
  {
    var w := WorldOf(CloseService(s));
    forall e | e in s.entries ensures EntryInv(w, s.entries[e]) {
      assert EntryInv(WorldOf(s), s.entries[e]);
    }
    hide EntryInv, AttemptInv, NoReuse;
  }

  lemma CrashInv(s: State, disk: Disk)
    requires Inv(s) && Survives(s, disk)
    ensures Inv(Crash(s, disk))
  {
    hide EntryInv, AttemptInv, NoReuse;
  }

  /** An entry that is not retired is the current one. */
  lemma BusyIsCurrent(s: State, e: nat)
    requires Inv(s) && e in s.entries && !s.entries[e].stop.Done?
    ensures s.current == Some(e)
  {
    hide EntryInv, AttemptInv, LogInv, DiskInv;
  }

  lemma LoadInv(s: State, e: nat, fits: bool)
    requires Inv(s) && CanLoad(s, e)
    ensures Inv(Load(s, e, fits))
  {
    var en := s.entries[e];
    assert EntryInv(WorldOf(s), en);
    if fits && s.disk.cache.Absent? {
      MintStep(s, e, fits);
    } else if fits && Resume(s.disk.cache).Some? {
      var start := Resume(s.disk.cache).value;
      var rec := Record(s.disk.cache.rec.identity, start, start + INTERVAL);
      ResumeInv(s, en, rec);
      hide EntryInv, Inv;
      EntryMoves(s, e, en.(io := Saving(rec, Create, NoTemp, Init)));
    } else {
      assert EntryInv(WorldOf(s), en.(invalid := true));
      hide EntryInv, Inv;
      EntryMoves(s, e, en.(invalid := true));
    }
  }

  lemma MintStep(s: State, e: nat, fits: bool)
    requires Inv(s) && CanLoad(s, e) && fits && s.disk.cache.Absent?
    ensures Inv(Load(s, e, fits))
  {
    var s', en, rec := Load(s, e, fits), s.entries[e], Record(s.minted, 0, INTERVAL);
    var en' := en.(io := Saving(rec, Create, NoTemp, Init));
    assert s' == Put(s, e, en').(minted := s.minted + 1);
    hide Load;
    BusyIsCurrent(s, e);
    assert EntryInv(WorldOf(s), en);
    hide EntryInv, Inv;
    MintInv(s, en, rec);
    hide DiskInv, Marked;
    WorldStep(s, s', e, en');
  }

  lemma MintInv(s: State, en: Entry, rec: Record)
    requires Inv(s) && EntryInv(WorldOf(s), en) && en.cursor.None? && en.io == Idle && en.stop == NoStop
    requires rec.identity == s.minted && rec.next == 0 && rec.reserved == INTERVAL
    ensures var w := WorldOf(s).(minted := s.minted + 1);
            && DiskInv(w) && Marked(w)
            && EntryInv(w, en.(io := Saving(rec, Create, NoTemp, Init)))
  {
    hide IdsInv, NoReuse, AttemptInv;
  }

  lemma ResumeInv(s: State, en: Entry, rec: Record)
    requires Inv(s) && EntryInv(WorldOf(s), en) && en.cursor.None? && en.io == Idle && en.stop == NoStop
    requires s.disk.cache.Whole? && rec.identity == s.disk.cache.rec.identity
    requires rec.next == s.disk.cache.rec.reserved && rec.reserved == rec.next + INTERVAL
    ensures EntryInv(WorldOf(s), en.(io := Saving(rec, Create, NoTemp, Init)))
  {
    hide IdsInv, NoReuse, AttemptInv;
  }

  // ----- Filesystem operations ------------------------------------------------------------

  lemma SaveFailedInv(w: World, en: Entry)
    requires EntryInv(w, en) && en.io.Saving?
    ensures EntryInv(w, SaveFailed(en)) && LooksTheSame(en, SaveFailed(en))
  {
  }

  lemma SaveAdvances(w: World, en: Entry, stage: Stage, temp: Temp)
    requires EntryInv(w, en) && en.io.Saving?
    requires stage.Rename? ==> temp.Clean?
    requires stage.SyncDirectory? ==> w.disk.cache == Whole(en.io.rec)
    ensures EntryInv(w, en.(io := en.io.(stage := stage, temp := temp)))
  {
  }

  /** The rename only adds a record that is whole and marks higher than all others of its identity. */
  lemma RenameInv(s: State, w: World, en: Entry)
    requires Inv(s) && en.io.Saving? && w == WorldOf(s).(disk := Renamed(s.disk, en.io.rec, true))
    requires EntryInv(WorldOf(s), en)
    ensures DiskInv(w) && Marked(w) && EntryInv(w, en.(io := en.io.(stage := SyncDirectory)))
  {
    hide IdsInv, NoReuse, AttemptInv;
    var rec := en.io.rec;
    assert Below(s.log, rec.identity, rec.reserved) by {
      if en.io.owner.Init? {
        BelowMore(s.log, rec.identity, rec.next, rec.reserved);
      } else {
        BelowMore(s.log, rec.identity, en.cursor.value.next, rec.reserved);
      }
    }
    RenameDisk(s, w, rec);
    RenameEntry(WorldOf(s), w, en);
  }

  lemma RenameDisk(s: State, w: World, rec: Record)
    requires DiskInv(WorldOf(s)) && Marked(WorldOf(s)) && RecordOk(WorldOf(s), rec)
    requires w == WorldOf(s).(disk := Renamed(s.disk, rec, true))
    requires Below(s.log, rec.identity, rec.reserved)
    requires forall d | d in s.disk.durable :: d.Whole? && d.rec.identity == rec.identity ==> d.rec.reserved <= rec.reserved
    ensures DiskInv(w) && Marked(w)
  {
  }

  lemma RenameEntry(w: World, w': World, en: Entry)
    requires EntryInv(w, en) && en.io.Saving? && w' == w.(disk := Renamed(w.disk, en.io.rec, true))
    ensures EntryInv(w', en.(io := en.io.(stage := SyncDirectory)))
  {
    hide Below;
  }

  /** Only the renamed record survives a directory sync. */
  lemma SyncInv(s: State, w: World, en: Entry)
    requires Inv(s) && s.current.Some? && s.entries[s.current.value] == en && w == WorldOf(s).(disk := Synced(s.disk))
    requires en.io.Saving? && en.io.stage.SyncDirectory?
    ensures DiskInv(w) && Marked(w) && EntryInv(w, SaveDone(s.service, en)) && LooksTheSame(en, SaveDone(s.service, en))
  {
    assert EntryInv(WorldOf(s), en);
    SyncDisk(WorldOf(s), w);
    SyncEntry(s, w, en);
  }

  lemma SyncDisk(w: World, w': World)
    requires DiskInv(w) && Marked(w) && w' == w.(disk := Synced(w.disk))
    ensures DiskInv(w') && Marked(w')
  {
  }

  lemma SyncEntry(s: State, w: World, en: Entry)
    requires EntryInv(WorldOf(s), en) && w == WorldOf(s).(disk := Synced(s.disk))
    requires en.io.Saving? && en.io.stage.SyncDirectory?
    ensures EntryInv(w, SaveDone(s.service, en)) && LooksTheSame(en, SaveDone(s.service, en))
  {
    hide Below;
  }

  lemma SavingIsCurrent(s: State, e: nat)
    requires Inv(s) && CanSave(s, e)
    ensures s.current == Some(e) && !s.entries[e].stop.Done? && EntryInv(WorldOf(s), s.entries[e])
    ensures s.entries[e].io.stage.Rename? ==> s.entries[e].io.temp.Clean?
  {
    assert EntryInv(WorldOf(s), s.entries[e]);
    BusyIsCurrent(s, e);
  }

  lemma SaveInv(s: State, e: nat, ok: bool)
    requires Inv(s) && CanSave(s, e)
    ensures Inv(Save(s, e, ok))
  {
    hide EntryInv, Inv, DiskInv, Marked;
    var en, s' := s.entries[e], Save(s, e, ok);
    var w := WorldOf(s');
    SavingIsCurrent(s, e);
    if !ok {
      hide LooksTheSame;
      SaveFailedInv(WorldOf(s), en);
      EntryMoves(s, e, SaveFailed(en));
    } else if en.io.stage.Rename? {
      RenameInv(s, w, en);
      WorldStep(s, s', e, en.(io := en.io.(stage := SyncDirectory)));
    } else if en.io.stage.SyncDirectory? {
      hide LooksTheSame, SaveDone;
      SyncInv(s, w, en);
      WorldStep(s, s', e, SaveDone(s.service, en));
    } else {
      var stage := if en.io.stage.Create? then Write else if en.io.stage.Write? then Sync else Rename;
      var temp := if en.io.stage.Sync? then Clean else Dirty;
      SaveAdvances(WorldOf(s), en, stage, temp);
      EntryMoves(s, e, en.(io := en.io.(stage := stage, temp := temp)));
    }
  }

  lemma DeleteInv(s: State, e: nat, ok: bool)
    requires Inv(s) && CanDelete(s, e)
    ensures Inv(Delete(s, e, ok))
  {
    var en, s' := s.entries[e], Delete(s, e, ok);
    var w := WorldOf(s');
    assert EntryInv(WorldOf(s), en);
    BusyIsCurrent(s, e);
    if !ok {
      var en' := en.(io := Idle, publication := Free, stop := Refused);
      assert EntryInv(WorldOf(s), en');
      hide EntryInv, Inv;
      EntryMoves(s, e, en');
    } else if !en.io.unlinked {
      var en' := en.(io := Deleting(true), unlinked := true);
      assert EntryInv(w, en') && DiskInv(w) && Marked(w);
      hide EntryInv, Inv, DiskInv, Marked;
      WorldStep(s, s', e, en');
    } else {
      var en' := en.(io := Idle, publication := Free, stop := Done(true), producer := None);
      assert EntryInv(w, en') && DiskInv(w) && Marked(w);
      hide EntryInv, Inv, DiskInv, Marked;
      WorldStep(s, s', e, en');
    }
  }
}
