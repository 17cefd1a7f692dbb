/** What the reservation protocol promises over every run, crashes and restarts included. */
module BroadcastTheorems {
  import opened Ts
  import opened Broadcast
  import opened BroadcastInvariants

  lemma StepInv(s: State, t: Step)
    requires Inv(s) && Enabled(s, t)
    ensures Inv(Apply(s, t))
  {
    hide Inv, Load, Save, Delete, Consume, Checkpoint, Grant, Store, End, StopIo, Start, Open;
    match t
    case SEnter => EnterInv(s);
    case SLoad(e, fits) => LoadInv(s, e, fits);
    case SSave(e, ok) => SaveInv(s, e, ok);
    case SBeginSave(e) => BeginSaveInv(s, e);
    case SAcquire(e) => AcquireInv(s, e);
    case SDropSession(e) => DropSessionInv(s, e);
    case SDetach(e) => DetachInv(s, e);
    case SOpen(e) => OpenInv(s, e);
    case SSpoil(a, held) => SpoilInv(s, a, held);
    case SReap(a) => ReapInv(s, a);
    case SAdvance(a) => AdvanceInv(s, a);
    case SStart(a, outputs, checkpoint) => StartInv(s, a, outputs, checkpoint);
    case SConsume(a) => ConsumeInv(s, a);
    case SCheckpoint(a) => CheckpointInv(s, a);
    case SGrant(a) => GrantInv(s, a);
    case SCheck(a) => CheckInv(s, a);
    case SStore(a) => StoreInv(s, a);
    case SEnd(a) => EndInv(s, a);
    case SFlush(e) => FlushInv(s, e);
    case SLeaveFlush(e) => LeaveFlushInv(s, e);
    case SRequestStop(e, delete) => RequestStopInv(s, e, delete);
    case SStopPublication(e) => StopPublicationInv(s, e);
    case SStopIo(e) => StopIoInv(s, e);
    case SDelete(e, ok) => DeleteInv(s, e, ok);
    case SCloseService => CloseServiceInv(s);
    case SCrash(disk) => CrashInv(s, disk);
  }

  lemma {:induction false} RunInv(s: State, steps: seq<Step>)
    requires Inv(s) && CanRun(s, steps)
    ensures Inv(Run(s, steps))
    decreases |steps|
  {
    hide Inv, Apply, Enabled;
    if steps != [] {
      StepInv(s, steps[0]);
      RunInv(Apply(s, steps[0]), steps[1..]);
    }
  }

  lemma InitialInv()
    ensures Inv(START)
  {
  }

  /** Under one identity, a later chunk has the same ingest attempt or a higher piece; in a later
      process lifetime it always has a higher piece. */
  lemma NoIndexReuse(steps: seq<Step>, i: nat, j: nat)
    requires CanRun(START, steps) && i < j < |Run(START, steps).log|
    requires var log := Run(START, steps).log; log[i].identity == log[j].identity
    ensures var p, q := Run(START, steps).log[i], Run(START, steps).log[j];
            && (p.piece == q.piece ==> p.attempt == q.attempt)
            && (p.attempt != q.attempt ==> p.piece < q.piece)
            && (p.lifetime != q.lifetime ==> p.piece < q.piece)
  {
    InitialInv();
    RunInv(START, steps);
  }

  /** Whatever survives a crash at any moment is whole, and marks past every chunk stored under its
      identity. Until an entry's record is unlinked, nothing but that record survives, open, poisoned
      or closed, and it reserves at least what the entry's cursor may hand out. */
  lemma WriteAhead(steps: seq<Step>, c: Content)
    requires CanRun(START, steps) && c in Run(START, steps).disk.durable
    ensures
      var s := Run(START, steps);
      && !c.Torn?
      && (c.Whole? ==> Below(s.log, c.rec.identity, c.rec.reserved))
      && (forall e | e in s.entries && s.entries[e].cursor.Some? && !s.entries[e].unlinked ::
           c.Whole? && c.rec.identity == s.entries[e].cursor.value.identity
           && c.rec.reserved >= s.entries[e].cursor.value.reserved)
  {
    InitialInv();
    RunInv(START, steps);
    var s := Run(START, steps);
    assert forall e | e in s.entries && s.entries[e].cursor.Some? :: EntryInv(WorldOf(s), s.entries[e]);
  }

  /** A restart refuses a record this program wrote only when the key, descriptor or configuration
      does not fit or the indexes have run out; otherwise it goes on at the end of everything the
      record reserved, and first reserves the next interval. */
  lemma RestartAccepts(steps: seq<Step>, e: nat, fits: bool)
    requires CanRun(START, steps) && CanLoad(Run(START, steps), e)
    ensures
      var s := Run(START, steps);
      var en, cache := Load(s, e, fits).entries[e], s.disk.cache;
      && !cache.Torn?
      && (en.invalid <==> !fits || (cache.Whole? && cache.rec.reserved + INTERVAL > U64_MAX))
      && (!en.invalid && cache.Whole? ==>
           en.io == Saving(Record(cache.rec.identity, cache.rec.reserved, cache.rec.reserved + INTERVAL),
                           Create, NoTemp, Init))
  {
    InitialInv();
    RunInv(START, steps);
  }

  // ----- Marks never decrease -------------------------------------------------------------

  ghost predicate Has(d: Disk, identity: nat) {
    exists c | c in d.durable :: c.Whole? && c.rec.identity == identity
  }

  /** Every surviving record of the identity reserves at least `mark`. */
  ghost predicate Floor(d: Disk, identity: nat, mark: nat) {
    forall c | c in d.durable :: c.Whole? && c.rec.identity == identity ==> c.rec.reserved >= mark
  }

  /** No save of the identity is under way. */
  ghost predicate Unsaved(s: State, identity: nat) {
    forall e | e in s.entries && s.entries[e].io.Saving? :: s.entries[e].io.rec.identity != identity
  }

  /** The bound holds, and either a record of the identity survives or none is being saved: its first
      record, which nothing precedes, is not still to come. */
  ghost predicate Holds(s: State, identity: nat, mark: nat) {
    && identity < s.minted && Floor(s.disk, identity, mark)
    && (Has(s.disk, identity) || Unsaved(s, identity))
  }

  /** Once a record of an identity survives, what survives of it later reserves no less, whatever is
      saved, deleted, cancelled, lost or restarted in between. */
  lemma {:induction false} FloorNeverDrops(s: State, steps: seq<Step>, identity: nat, mark: nat)
    requires Inv(s) && CanRun(s, steps) && Holds(s, identity, mark)
    ensures Holds(Run(s, steps), identity, mark)
    decreases |steps|
  {
    hide Inv, Apply, Enabled, Holds;
    if steps != [] {
      StepInv(s, steps[0]);
      StepHolds(s, steps[0], identity, mark);
      FloorNeverDrops(Apply(s, steps[0]), steps[1..], identity, mark);
    }
  }

  lemma StepHolds(s: State, t: Step, identity: nat, mark: nat)
    requires Inv(s) && Enabled(s, t) && Holds(s, identity, mark)
    ensures Holds(Apply(s, t), identity, mark)
  {
    hide Holds, Inv, Load, Save, Delete, Consume, Checkpoint, Grant, Store, End, StopIo, Start, Open;
    match t
    case SLoad(e, fits) => LoadHolds(s, e, fits, identity, mark);
    case SSave(e, ok) => SaveHolds(s, e, ok, identity, mark);
    case SBeginSave(e) => BeginSaveHolds(s, e, identity, mark);
    case SDelete(e, ok) => DeleteHolds(s, e, ok, identity, mark);
    case SCrash(disk) => CrashHolds(s, disk, identity, mark);
    case _ =>
      if OfJob(t) {
        JobIsQuiet(s, t);
      } else {
        EntryIsQuiet(s, t);
      }
      QuietHolds(s, Apply(s, t), identity, mark);
  }

  ghost predicate OfJob(t: Step) {
    t.SStart? || t.SConsume? || t.SCheckpoint? || t.SGrant? || t.SCheck? || t.SStore? || t.SEnd?
  }

  ghost predicate OfDisk(t: Step) {
    t.SLoad? || t.SSave? || t.SBeginSave? || t.SDelete? || t.SCrash?
  }

  /** The disk is left alone and no save begins. */
  ghost predicate Quiet(s: State, s': State) {
    && s'.disk == s.disk && s'.minted == s.minted && s'.dead == s.dead
    && forall e | e in s'.entries && s'.entries[e].io.Saving? :: e in s.entries && s'.entries[e].io == s.entries[e].io
  }

  lemma JobIsQuiet(s: State, t: Step)
    requires Enabled(s, t) && OfJob(t)
    ensures Quiet(s, Apply(s, t))
  {
    hide Extension, CheckOk, PublicationOk;
  }

  lemma EntryIsQuiet(s: State, t: Step)
    requires Enabled(s, t) && !OfJob(t) && !OfDisk(t)
    ensures Quiet(s, Apply(s, t))
  {
    hide Extension, CheckOk, PublicationOk;
  }

  lemma QuietHolds(s: State, s': State, identity: nat, mark: nat)
    requires Quiet(s, s') && Holds(s, identity, mark)
    ensures Holds(s', identity, mark)
  {
    assert Unsaved(s, identity) ==> Unsaved(s', identity);
  }

  lemma CrashHolds(s: State, disk: Disk, identity: nat, mark: nat)
    requires Survives(s, disk) && Holds(s, identity, mark)
    ensures Holds(Crash(s, disk), identity, mark)
  {
  }

  lemma LoadHolds(s: State, e: nat, fits: bool, identity: nat, mark: nat)
    requires Inv(s) && CanLoad(s, e) && Holds(s, identity, mark)
    ensures Holds(Load(s, e, fits), identity, mark)
  {
    hide EntryInv, AttemptInv, LogInv, IdsInv;
    var s' := Load(s, e, fits);
    assert s'.disk == s.disk;
    if !Has(s.disk, identity) {
      assert s.disk.cache in s.disk.durable;
      assert Unsaved(s', identity);
    }
  }

  lemma BeginSaveHolds(s: State, e: nat, identity: nat, mark: nat)
    requires Inv(s) && CanBeginSave(s, e) && Holds(s, identity, mark)
    ensures Holds(BeginSave(s, e), identity, mark)
  {
    var s' := BeginSave(s, e);
    assert s'.disk == s.disk;
    assert EntryInv(WorldOf(s), s.entries[e]);
    hide AttemptInv, LogInv, IdsInv;
    if !Has(s.disk, identity) {
      assert s.disk.cache in s.disk.durable;
      assert Unsaved(s', identity);
    }
  }

  lemma OneSaver(s: State, e: nat)
    requires Inv(s) && s.current == Some(e)
    ensures forall x | x in s.entries && x != e :: !s.entries[x].io.Saving?
  {
    hide AttemptInv, LogInv, DiskInv;
    forall x | x in s.entries && x != e ensures !s.entries[x].io.Saving? {
      assert EntryInv(WorldOf(s), s.entries[x]);
    }
  }

  lemma SaveHolds(s: State, e: nat, ok: bool, identity: nat, mark: nat)
    requires Inv(s) && CanSave(s, e) && Holds(s, identity, mark)
    ensures Holds(Save(s, e, ok), identity, mark)
  {
    if ok && s.entries[e].io.stage.Rename? {
      RenameStepHolds(s, e, identity, mark);
    } else if ok && s.entries[e].io.stage.SyncDirectory? {
      SyncStepHolds(s, e, identity, mark);
    } else {
      hide Inv;
      assert Unsaved(s, identity) ==> Unsaved(Save(s, e, ok), identity);
    }
  }

  lemma RenameStepHolds(s: State, e: nat, identity: nat, mark: nat)
    requires Inv(s) && CanSave(s, e) && Holds(s, identity, mark) && s.entries[e].io.stage.Rename?
    ensures Holds(Save(s, e, true), identity, mark)
  {
    var s', rec := Save(s, e, true), s.entries[e].io.rec;
    assert SavingInv(WorldOf(s), s.entries[e]) by {
      assert EntryInv(WorldOf(s), s.entries[e]);
    }
    hide Inv;
    assert rec.identity == identity ==> Has(s.disk, identity);
    assert Unsaved(s, identity) ==> Unsaved(s', identity);
    RenameHolds(s.disk, rec, identity, mark);
  }

  lemma SyncStepHolds(s: State, e: nat, identity: nat, mark: nat)
    requires Inv(s) && CanSave(s, e) && Holds(s, identity, mark) && s.entries[e].io.stage.SyncDirectory?
    ensures Holds(Save(s, e, true), identity, mark)
  {
    var s', rec := Save(s, e, true), s.entries[e].io.rec;
    assert s.disk.cache == Whole(rec) && !s.entries[e].stop.Done? by {
      assert EntryInv(WorldOf(s), s.entries[e]);
    }
    assert s.disk.cache in s.disk.durable;
    BusyIsCurrent(s, e);
    OneSaver(s, e);
    hide Inv;
    assert Whole(rec) in s'.disk.durable;
    assert Unsaved(s', identity);
  }

  lemma RenameHolds(d: Disk, rec: Record, identity: nat, mark: nat)
    requires Floor(d, identity, mark) && (rec.identity == identity ==> Has(d, identity))
    requires forall c | c in d.durable :: c.Whole? && c.rec.identity == rec.identity ==> c.rec.reserved <= rec.reserved
    ensures Floor(Renamed(d, rec, true), identity, mark)
    ensures Has(d, identity) ==> Has(Renamed(d, rec, true), identity)
  {
    assert forall c | c in d.durable :: c in Renamed(d, rec, true).durable;
  }

  lemma DeleteHolds(s: State, e: nat, ok: bool, identity: nat, mark: nat)
    requires Inv(s) && CanDelete(s, e) && Holds(s, identity, mark)
    ensures Holds(Delete(s, e, ok), identity, mark)
  {
    var s', en := Delete(s, e, ok), s.entries[e];
    assert EntryInv(WorldOf(s), en);
    BusyIsCurrent(s, e);
    hide AttemptInv, LogInv, EntryInv;
    assert Unsaved(s, identity) ==> Unsaved(s', identity);
    assert forall c | c in s.disk.durable :: c in Unlinked(s.disk).durable;
  }

  // ----- Until an unlink, the record stays ------------------------------------------------

  /** Nothing but records of the identity survives, each reserving at least `mark`, and no other
      identity is being saved. */
  ghost predicate Rooted(s: State, identity: nat, mark: nat) {
    && (forall c | c in s.disk.durable :: c.Whole? && c.rec.identity == identity && c.rec.reserved >= mark)
    && (forall e | e in s.entries && s.entries[e].io.Saving? :: s.entries[e].io.rec.identity == identity)
  }

  /** The step removes the record's name. */
  predicate Unlinks(s: State, t: Step) {
    t.SDelete? && t.ok && CanDelete(s, t.e) && !s.entries[t.e].io.unlinked
  }

  ghost predicate NeverUnlinks(s: State, steps: seq<Step>)
    requires CanRun(s, steps)
    decreases |steps|
  {
    steps == [] || (!Unlinks(s, steps[0]) && NeverUnlinks(Apply(s, steps[0]), steps[1..]))
  }

  lemma LoadRooted(s: State, e: nat, fits: bool, identity: nat, mark: nat)
    requires Inv(s) && CanLoad(s, e) && Rooted(s, identity, mark)
    ensures Rooted(Load(s, e, fits), identity, mark)
  {
    hide EntryInv, AttemptInv, LogInv, IdsInv;
    assert s.disk.cache in s.disk.durable;
  }

  lemma BeginSaveRooted(s: State, e: nat, identity: nat, mark: nat)
    requires Inv(s) && CanBeginSave(s, e) && Rooted(s, identity, mark)
    ensures Rooted(BeginSave(s, e), identity, mark)
  {
    assert EntryInv(WorldOf(s), s.entries[e]);
    assert s.disk.cache in s.disk.durable;
    hide AttemptInv, LogInv, IdsInv;
  }

  lemma SaveRooted(s: State, e: nat, ok: bool, identity: nat, mark: nat)
    requires Inv(s) && CanSave(s, e) && Rooted(s, identity, mark)
    ensures Rooted(Save(s, e, ok), identity, mark)
  {
    assert s.disk.cache in s.disk.durable;
    assert SavingInv(WorldOf(s), s.entries[e]) by {
      assert EntryInv(WorldOf(s), s.entries[e]);
    }
    hide Inv;
  }

  lemma DeleteRooted(s: State, e: nat, ok: bool, identity: nat, mark: nat)
    requires Inv(s) && CanDelete(s, e) && Rooted(s, identity, mark) && !Unlinks(s, SDelete(e, ok))
    ensures Rooted(Delete(s, e, ok), identity, mark)
  {
    assert s.disk.cache in s.disk.durable;
    assert !s.entries[e].io.unlinked by {
      assert EntryInv(WorldOf(s), s.entries[e]);
    }
    hide Inv;
  }

  lemma StepRooted(s: State, t: Step, identity: nat, mark: nat)
    requires Inv(s) && Enabled(s, t) && Rooted(s, identity, mark) && !Unlinks(s, t)
    ensures Rooted(Apply(s, t), identity, mark)
  {
    hide Rooted, Inv, Load, Save, Delete, Consume, Checkpoint, Grant, Store, End, StopIo, Start, Open;
    match t
    case SLoad(e, fits) => LoadRooted(s, e, fits, identity, mark);
    case SSave(e, ok) => SaveRooted(s, e, ok, identity, mark);
    case SBeginSave(e) => BeginSaveRooted(s, e, identity, mark);
    case SDelete(e, ok) => DeleteRooted(s, e, ok, identity, mark);
    case SCrash(disk) => CrashRooted(s, disk, identity, mark);
    case _ =>
      if OfJob(t) {
        JobIsQuiet(s, t);
      } else {
        EntryIsQuiet(s, t);
      }
      QuietRooted(s, Apply(s, t), identity, mark);
  }

  lemma QuietRooted(s: State, s': State, identity: nat, mark: nat)
    requires Quiet(s, s') && Rooted(s, identity, mark)
    ensures Rooted(s', identity, mark)
  {
  }

  lemma CrashRooted(s: State, disk: Disk, identity: nat, mark: nat)
    requires Inv(s) && Survives(s, disk) && Rooted(s, identity, mark)
    ensures Rooted(Crash(s, disk), identity, mark)
  {
    hide Inv;
  }

  lemma {:induction false} RunRooted(s: State, steps: seq<Step>, identity: nat, mark: nat)
    requires Inv(s) && CanRun(s, steps) && NeverUnlinks(s, steps) && Rooted(s, identity, mark)
    ensures Rooted(Run(s, steps), identity, mark)
    decreases |steps|
  {
    hide Inv, Apply, Enabled, Rooted, Unlinks;
    if steps != [] {
      StepInv(s, steps[0]);
      StepRooted(s, steps[0], identity, mark);
      RunRooted(Apply(s, steps[0]), steps[1..], identity, mark);
    }
  }

  /** Once a save is synced, and until an unlink succeeds, every content that may survive is whole,
      has the saved identity and reserves at least what was saved: the record never goes missing and
      its mark never goes back, through any save, failure, cancellation, crash and restart. */
  lemma MarkNeverDecreases(s: State, e: nat, steps: seq<Step>, c: Content)
    requires Inv(s) && CanSave(s, e) && s.entries[e].io.stage.SyncDirectory?
    requires CanRun(Save(s, e, true), steps) && NeverUnlinks(Save(s, e, true), steps)
    requires c in Run(Save(s, e, true), steps).disk.durable
    ensures var rec := s.entries[e].io.rec;
            c.Whole? && c.rec.identity == rec.identity && c.rec.reserved >= rec.reserved
  {
    SaveInv(s, e, true);
    SyncRooted(s, e);
    hide Inv, Run, Save, NeverUnlinks;
    RunRooted(Save(s, e, true), steps, s.entries[e].io.rec.identity, s.entries[e].io.rec.reserved);
  }

  lemma SyncRooted(s: State, e: nat)
    requires Inv(s) && CanSave(s, e) && s.entries[e].io.stage.SyncDirectory?
    ensures Rooted(Save(s, e, true), s.entries[e].io.rec.identity, s.entries[e].io.rec.reserved)
  {
    assert SavingInv(WorldOf(s), s.entries[e]) && !s.entries[e].stop.Done? by {
      assert EntryInv(WorldOf(s), s.entries[e]);
    }
    BusyIsCurrent(s, e);
    OneSaver(s, e);
    hide Inv;
  }

  // ----- Deletion -------------------------------------------------------------------------

  /** The store only grows, and only under identities whose deletion was not reported. */
  ghost predicate Grows(s: State, s': State) {
    && s.dead <= s'.dead && |s.log| <= |s'.log| && s'.log[..|s.log|] == s.log
    && forall i | |s.log| <= i < |s'.log| :: s'.log[i].identity >= s.dead
  }

  lemma StepGrows(s: State, t: Step)
    requires Inv(s) && Enabled(s, t)
    ensures Grows(s, Apply(s, t))
  {
    assert s.dead <= s.minted;
    if t.SStore? {
      StoreGrows(s, t.a);
    } else {
      StepKeepsLog(s, t);
    }
  }

  lemma StoreGrows(s: State, a: nat)
    requires Inv(s) && CanStore(s, a)
    ensures Grows(s, Store(s, a))
  {
    var at := s.attempts[a];
    assert AttemptInv(s.log, s.lifetime, a, at, s.entries[at.entry]);
    assert EntryInv(WorldOf(s), s.entries[at.entry]);
    hide Inv, EntryInv, AttemptInv;
  }

  lemma StepKeepsLog(s: State, t: Step)
    requires Enabled(s, t) && !t.SStore? && s.dead <= s.minted
    ensures Apply(s, t).log == s.log && Grows(s, Apply(s, t))
  {
    if OfJob(t) {
      JobKeepsLog(s, t);
    } else {
      hide CheckOk;
    }
  }

  lemma JobKeepsLog(s: State, t: Step)
    requires Enabled(s, t) && OfJob(t) && !t.SStore?
    ensures Apply(s, t).log == s.log && Apply(s, t).dead == s.dead
  {
    hide Extension, CheckOk, PublicationOk;
  }

  lemma {:induction false} RunGrows(s: State, steps: seq<Step>)
    requires Inv(s) && CanRun(s, steps)
    ensures Inv(Run(s, steps)) && Grows(s, Run(s, steps))
    decreases |steps|
  {
    hide Inv, Apply, Enabled;
    if steps != [] {
      var next := Apply(s, steps[0]);
      StepInv(s, steps[0]);
      StepGrows(s, steps[0]);
      RunGrows(next, steps[1..]);
      var last := Run(s, steps);
      assert last.log[..|s.log|] == last.log[..|next.log|][..|s.log|];
      assert forall i | 0 <= i < |next.log| :: last.log[i] == next.log[i];
    }
  }

  /** Once a deletion is reported, no run that follows, of any old task or in any later process,
      brings back a record of an identity minted before it or stores another chunk under one. */
  lemma NoResurrection(s: State, e: nat, steps: seq<Step>)
    requires Inv(s) && CanDelete(s, e) && s.entries[e].io.unlinked && CanRun(Delete(s, e, true), steps)
    ensures
      var gone, last := Delete(s, e, true), Run(Delete(s, e, true), steps);
      && gone.disk.durable == {Absent}
      && (forall c | c in last.disk.durable && c.Whole? :: c.rec.identity >= s.minted)
      && |gone.log| <= |last.log| && last.log[..|gone.log|] == gone.log
      && (forall i | |gone.log| <= i < |last.log| :: last.log[i].identity >= s.minted)
  {
    DeleteInv(s, e, true);
    assert EntryInv(WorldOf(s), s.entries[e]);
    var gone := Delete(s, e, true);
    RunGrows(gone, steps);
    hide EntryInv, AttemptInv, LogInv, IdsInv;
    assert DiskInv(WorldOf(Run(gone, steps)));
  }

  // ----- Failure --------------------------------------------------------------------------

  /** Entry `e` failed its check: a save failed, or it was cancelled or closed. */
  ghost predicate Failing(s: State, e: nat) {
    e < s.ids && (e in s.entries ==> s.entries[e].cursor.Some? && !CheckOk(s.service, s.entries[e]))
  }

  ghost function Stored(log: seq<Publication>, e: nat): nat {
    if log == [] then 0
    else Stored(log[..|log| - 1], e) + if log[|log| - 1].entry == e then 1 else 0
  }

  /** One chunk may have passed its last check already. */
  ghost function Pending(s: State, e: nat): nat {
    if e in s.entries && s.entries[e].publication.ByJob? && OfEntry(s, s.entries[e].publication.attempt, e) then 1
    else 0
  }

  ghost predicate OfEntry(s: State, a: nat, e: nat) {
    InPhase(s, a, Checked) && s.attempts[a].entry == e
  }

  /** No step makes a failed check succeed again. */
  lemma CheckStaysFailed(s: State, t: Step, e: nat)
    requires Inv(s) && Enabled(s, t) && Failing(s, e)
    ensures Failing(Apply(s, t), e)
  {
    hide Inv, Failing;
    if OfJob(t) {
      JobFailing(s, t, e);
    } else if OfDisk(t) {
      DiskFailing(s, t, e);
    } else {
      EntryFailing(s, t, e);
    }
  }

  lemma DiskFailing(s: State, t: Step, e: nat)
    requires Inv(s) && Enabled(s, t) && Failing(s, e) && OfDisk(t)
    ensures Failing(Apply(s, t), e)
  {
    hide Inv, Failing, Save, Load, Delete;
    match t
    case SSave(x, ok) => SaveFailing(s, x, ok, e);
    case SLoad(x, fits) => LoadFailing(s, x, fits, e);
    case SDelete(x, ok) => DeleteFailing(s, x, ok, e);
    case SBeginSave(x) => BeginSaveFailing(s, x, e);
    case SCrash(disk) => CrashFailing(s, disk, e);
    case _ =>
  }

  lemma LoadFailing(s: State, x: nat, fits: bool, e: nat)
    requires CanLoad(s, x) && Failing(s, e)
    ensures Failing(Load(s, x, fits), e)
  {
  }

  lemma BeginSaveFailing(s: State, x: nat, e: nat)
    requires CanBeginSave(s, x) && Failing(s, e)
    ensures Failing(BeginSave(s, x), e)
  {
  }

  lemma DeleteFailing(s: State, x: nat, ok: bool, e: nat)
    requires CanDelete(s, x) && Failing(s, e)
    ensures Failing(Delete(s, x, ok), e)
  {
  }

  lemma CrashFailing(s: State, disk: Disk, e: nat)
    requires Failing(s, e)
    ensures Failing(Crash(s, disk), e)
  {
  }

  lemma SaveFailing(s: State, x: nat, ok: bool, e: nat)
    requires Inv(s) && CanSave(s, x) && Failing(s, e)
    ensures Failing(Save(s, x, ok), e)
  {
    assert s.entries[x].io.owner.Init? ==> s.entries[x].cursor.None? by {
      assert EntryInv(WorldOf(s), s.entries[x]);
    }
    hide Inv;
    var en := s.entries[x];
    assert en.cursor.Some? && !CheckOk(s.service, en) ==>
      var en' := SaveEntry(s.service, en, ok);
      en'.cursor.Some? && !CheckOk(s.service, en');
    hide SaveEntry, SaveDisk, CheckOk;
  }

  lemma JobFailing(s: State, t: Step, e: nat)
    requires Enabled(s, t) && Failing(s, e) && OfJob(t)
    ensures Failing(Apply(s, t), e)
  {
    hide Extension;
  }

  lemma EntryFailing(s: State, t: Step, e: nat)
    requires Enabled(s, t) && Failing(s, e) && !OfJob(t) && !OfDisk(t)
    ensures Failing(Apply(s, t), e)
  {
    hide Extension;
  }

  lemma StoreSpends(s: State, a: nat, e: nat)
    requires Inv(s) && CanStore(s, a)
    ensures Stored(Store(s, a).log, e) + Pending(Store(s, a), e) <= Stored(s.log, e) + Pending(s, e)
  {
    var at := s.attempts[a];
    assert AttemptInv(s.log, s.lifetime, a, at, s.entries[at.entry]);
    assert Store(s, a).log[..|s.log|] == s.log;
    hide Inv;
  }

  lemma JobSpends(s: State, t: Step, e: nat)
    requires Enabled(s, t) && Failing(s, e) && OfJob(t) && !t.SStore?
    ensures Pending(Apply(s, t), e) <= Pending(s, e)
  {
    hide Extension;
  }

  lemma EntrySpends(s: State, t: Step, e: nat)
    requires Enabled(s, t) && Failing(s, e) && !OfJob(t)
    ensures Pending(Apply(s, t), e) <= Pending(s, e)
  {
    if t.SLoad? || t.SSave? {
      SavingSpends(s, t, e);
    } else {
      hide Extension;
    }
  }

  lemma SavingSpends(s: State, t: Step, e: nat)
    requires Enabled(s, t) && (t.SLoad? || t.SSave?)
    ensures Pending(Apply(s, t), e) <= Pending(s, e)
  {
  }

  /** After a failed check an entry stores at most the one chunk whose last check had passed. */
  lemma {:induction false} FailureIsFinal(s: State, steps: seq<Step>, e: nat)
    requires Inv(s) && CanRun(s, steps) && Failing(s, e)
    ensures Failing(Run(s, steps), e)
    ensures Stored(Run(s, steps).log, e) <= Stored(s.log, e) + Pending(s, e) <= Stored(s.log, e) + 1
    decreases |steps|
  {
    hide Inv, Apply, Enabled, Failing, Stored;
    if steps != [] {
      var t, next := steps[0], Apply(s, steps[0]);
      StepInv(s, t);
      CheckStaysFailed(s, t, e);
      StepSpends(s, t, e);
      FailureIsFinal(next, steps[1..], e);
    }
  }

  lemma StepSpends(s: State, t: Step, e: nat)
    requires Inv(s) && Enabled(s, t) && Failing(s, e)
    ensures Stored(Apply(s, t).log, e) + Pending(Apply(s, t), e) <= Stored(s.log, e) + Pending(s, e)
  {
    assert s.dead <= s.minted;
    hide Inv, Failing, Stored, Pending;
    if t.SStore? {
      StoreSpends(s, t.a, e);
    } else {
      StepKeepsLog(s, t);
      if OfJob(t) {
        JobSpends(s, t, e);
      } else {
        EntrySpends(s, t, e);
      }
    }
  }
}
