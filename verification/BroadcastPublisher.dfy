/** Publishing as it executes when nothing interferes: the loops of a save and of a publication job,
    each a run of the protocol, with a filesystem that may fail at any operation. */
module BroadcastPublisher {
  import opened Ts
  import opened Broadcast
  import opened BroadcastInvariants
  import opened BroadcastTheorems

  lemma {:induction false} RunAppend(s: State, steps: seq<Step>, t: Step)
    requires CanRun(s, steps) && Enabled(Run(s, steps), t)
    ensures CanRun(s, steps + [t]) && Run(s, steps + [t]) == Apply(Run(s, steps), t)
    decreases |steps|
  {
    hide Enabled, Apply;
    if steps == [] {
      assert steps + [t] == [t] && [t][1..] == [];
      assert CanRun(Apply(s, t), []);
    } else {
      RunAppend(Apply(s, steps[0]), steps[1..], t);
      assert (steps + [t])[0] == steps[0] && (steps + [t])[1..] == steps[1..] + [t];
    }
  }

  /** Job `a` of entry `e` may go on: nothing is cancelled and no other save is under way. */
  ghost predicate Going(s: State, a: nat, e: nat, outputs: seq<nat>, checkpoint: bool) {
    && InPhase(s, a, Ready) && s.attempts[a].entry == e && s.attempts[a].job == Some(Job(outputs, checkpoint, Ready))
    && PublicationOk(s, s.entries[e], s.attempts[a]) && s.entries[e].io == Idle && s.entries[e].saver.None?
  }

  /** The chunks of some pieces. */
  ghost function Chunks(s: State, a: nat, e: nat, pieces: seq<nat>): seq<Publication>
    requires e in s.entries && s.entries[e].cursor.Some?
  {
    seq(|pieces|, i requires 0 <= i < |pieces| =>
      Publication(s.entries[e].cursor.value.identity, s.lifetime, e, a, pieces[i]))
  }

  function Rank(stage: Stage): nat {
    match stage
    case Create => 5
    case Write => 4
    case Sync => 3
    case Rename => 2
    case SyncDirectory => 1
  }

  /** What a save leaves alone while it runs. */
  ghost predicate Only(s: State, s': State, e: nat) {
    && e in s.entries && s' == s.(disk := s'.disk, entries := s'.entries)
    && e in s'.entries && s'.entries == s.entries[e := s'.entries[e]]
  }

  /** How a job's own steps move the state: its job, its entry's cursor, lock and saver, and the disk. */
  ghost predicate Progress(s: State, s': State, a: nat, e: nat) {
    && e in s.entries && a in s.attempts && s.attempts[a].entry == e && s.entries[e].cursor.Some?
    && s' == s.(disk := s'.disk, entries := s'.entries, attempts := s'.attempts)
    && e in s'.entries && s'.entries == s.entries[e := s'.entries[e]]
    && a in s'.attempts && s'.attempts == s.attempts[a := s.attempts[a].(job := s'.attempts[a].job)]
    && var en, en' := s.entries[e], s'.entries[e];
       && en'.cursor.Some? && en'.cursor.value.identity == en.cursor.value.identity
       && en'.cursor.value.closed == en.cursor.value.closed
       && en' == en.(cursor := en'.cursor, io := en'.io, saver := en'.saver)
  }

  /** The job's next piece is consumed: reserved, and behind the cursor. */
  ghost predicate Taken(s: State, a: nat, e: nat, outputs: seq<nat>, checkpoint: bool) {
    && outputs != [] && a in s.attempts && s.attempts[a].job == Some(Job(outputs, checkpoint, Consumed))
    && e in s.entries && CheckOk(s.service, s.entries[e]) && s.entries[e].io == Idle && s.entries[e].saver.None?
    && outputs[0] < s.entries[e].cursor.value.next <= s.entries[e].cursor.value.reserved
  }

  class Publisher {
    var st: State
    ghost var origin: State
    ghost var trace: seq<Step>

    ghost predicate Valid()
      reads this
    {
      Inv(st) && CanRun(origin, trace) && Run(origin, trace) == st
    }

    constructor ()
      ensures Valid() && st == START && origin == START
    {
      st, origin, trace := START, START, [];
      new;
      InitialInv();
    }

    method Do(t: Step)
      requires Valid() && Enabled(st, t)
      modifies this
      ensures Valid() && st == Apply(old(st), t) && origin == old(origin) && trace == old(trace) + [t]
    {
      hide Inv, Apply, Enabled;
      RunAppend(origin, trace, t);
      StepInv(st, t);
      st := Apply(st, t);
      trace := trace + [t];
    }

    /** Write, sync and rename a temporary file, then sync the directory. A failure anywhere poisons
        the cursor; success means nothing but the new record survives. */
    method SaveRecord(e: nat) returns (ok: bool)
      requires Valid() && e in st.entries && st.entries[e].cursor.Some?
      requires st.entries[e].io.Saving? && st.entries[e].io.owner.Reserve? && st.entries[e].io.stage.Create?
      requires st.entries[e].saver == Some(Running(st.entries[e].io.rec))
      modifies this
      ensures Valid() && origin == old(origin) && Only(old(st), st, e)
      ensures
        var was := old(st.entries[e]);
        st.entries[e] == was.(io := Idle, saver := Some(Saved(was.io.rec, ok)),
                              cursor := Some(was.cursor.value.(poisoned := was.cursor.value.poisoned || !ok)))
      ensures ok ==> st.disk.durable == {Whole(old(st.entries[e].io.rec))}
    {
      hide Inv, Run, CanRun, Save;
      ghost var was := st.entries[e];
      ok := true;
      while ok && st.entries[e].io.Saving?
        invariant Valid() && origin == old(origin) && Only(old(st), st, e)
        invariant st.entries[e].io.Saving? ==>
          ok && st.entries[e] == was.(io := was.io.(stage := st.entries[e].io.stage, temp := st.entries[e].io.temp))
        invariant st.entries[e].io.Saving? && st.entries[e].io.stage.SyncDirectory? ==> st.disk.cache == Whole(was.io.rec)
        invariant !st.entries[e].io.Saving? ==>
          st.entries[e] == was.(io := Idle, saver := Some(Saved(was.io.rec, ok)),
                                cursor := Some(was.cursor.value.(poisoned := was.cursor.value.poisoned || !ok)))
        invariant !st.entries[e].io.Saving? && ok ==> st.disk.durable == {Whole(was.io.rec)}
        decreases if st.entries[e].io.Saving? then Rank(st.entries[e].io.stage) else 0
      {
        ok := *;
        ReserveStep(st, e, ok);
        Do(SSave(e, ok));
      }
    }

    /** Load or mint the identity of an entry and save its first reservation before anything uses it. */
    method Initialize(e: nat, fits: bool) returns (ok: bool)
      requires Valid() && CanLoad(st, e)
      modifies this
      ensures Valid() && origin == old(origin) && e in st.entries && st.entries[e].io == Idle
      ensures ok ==>
        && st.entries[e] == old(st.entries[e]).(cursor := st.entries[e].cursor)
        && CheckOk(st.service, st.entries[e]) && st.busy == old(st.busy)
        && st.entries[e].cursor.value.next == (if old(st.disk.cache).Whole? then old(st.disk.cache).rec.reserved else 0)
        && st.disk.durable == {Whole(Record(st.entries[e].cursor.value.identity, st.entries[e].cursor.value.next,
                                            st.entries[e].cursor.value.next + INTERVAL))}
      ensures !ok ==> st.entries[e].cursor.None? && st.entries[e].invalid
    {
      hide Inv, Run, CanRun;
      ghost var was := st.entries[e];
      Do(SLoad(e, fits));
      if st.entries[e].invalid {
        return false;
      }
      ghost var rec := st.entries[e].io.rec;
      ok := true;
      while ok && st.entries[e].io.Saving?
        invariant Valid() && origin == old(origin) && e in st.entries && st.busy == old(st.busy) && !st.service
        invariant st.entries[e].io.Saving? ==>
          ok && st.entries[e] == was.(io := Saving(rec, st.entries[e].io.stage, st.entries[e].io.temp, Init))
        invariant st.entries[e].io.Saving? && st.entries[e].io.stage.SyncDirectory? ==> st.disk.cache == Whole(rec)
        invariant !st.entries[e].io.Saving? ==>
          if ok then
            && st.entries[e] == was.(cursor := Some(Cursor(rec.identity, rec.next, rec.reserved, false, false)))
            && st.disk.durable == {Whole(rec)}
          else st.entries[e] == was.(invalid := true)
        decreases if st.entries[e].io.Saving? then Rank(st.entries[e].io.stage) else 0
      {
        ok := *;
        Do(SSave(e, ok));
      }
    }

    /** From an empty process to an open ingest: everything publishing asks for. */
    method Prepare(fits: bool) returns (ok: bool, e: nat, a: nat)
      requires Valid() && CanEnter(st)
      modifies this
      ensures Valid() && origin == old(origin)
      ensures ok ==>
        && a in st.attempts && st.attempts[a].entry == e && e in st.entries
        && st.attempts[a].held && !st.attempts[a].failed && st.attempts[a].job.None?
        && st.attempts[a].start == st.entries[e].cursor.value.next
        && PublicationOk(st, st.entries[e], st.attempts[a])
        && st.entries[e].io == Idle && st.entries[e].saver.None? && st.entries[e].publication == Free
    {
      hide Inv, Run, CanRun;
      e, a := st.ids, 0;
      Do(SEnter);
      ok := Initialize(e, fits);
      if ok {
        UnusedId(st);
        Do(SAcquire(e));
        a := st.ids;
        Do(SOpen(e));
      }
    }

    /** Consume the next piece, saving a reservation first when it has none. */
    method ConsumeNext(a: nat, e: nat, ghost outputs: seq<nat>, ghost checkpoint: bool) returns (ok: bool)
      requires Valid() && Going(st, a, e, outputs, checkpoint) && outputs != []
      modifies this
      ensures Valid() && origin == old(origin) && Progress(old(st), st, a, e)
      ensures ok ==> Taken(st, a, e, outputs, checkpoint)
      ensures !ok ==> st.attempts[a].job.Some? && CanEnd(st, a)
    {
      hide Inv, Run, CanRun;
      var piece, reserved := st.attempts[a].job.value.outputs[0], st.entries[e].cursor.value.reserved;
      if piece >= reserved && Extension(reserved, piece).None? {
        return false;
      }
      CursorInOrder(st, e);
      ConsumeFacts(st, a, e);
      Do(SConsume(a));
      if piece < reserved {
        return true;
      }
      ok := Extend(a, e, outputs, checkpoint);
    }

    /** Save the requested reservation and take the piece it was for. */
    method Extend(a: nat, e: nat, ghost outputs: seq<nat>, ghost checkpoint: bool) returns (ok: bool)
      requires Valid() && Asking(st, a, e, outputs, checkpoint) && outputs != []
      modifies this
      ensures Valid() && origin == old(origin) && Progress(old(st), st, a, e)
      ensures ok ==> Taken(st, a, e, outputs, checkpoint)
      ensures !ok ==> st.attempts[a].job.Some? && CanEnd(st, a)
    {
      hide Inv, Run, CanRun;
      Do(SBeginSave(e));
      ok := SaveRecord(e);
      if ok {
        GrantFacts(st, a, e);
        Do(SGrant(a));
      }
    }

    /** Someone asks to stop the broadcast while the job is not waiting for a save. */
    method Interrupt(a: nat, e: nat, delete: bool)
      requires Valid() && a in st.attempts && st.attempts[a].entry == e && e in st.entries
      requires !st.entries[e].cancel && st.attempts[a].job.Some?
      requires st.attempts[a].job.value.phase.Ready? || st.attempts[a].job.value.phase.Consumed?
      requires st.entries[e].saver.None?
      modifies this
      ensures Valid() && origin == old(origin) && st.log == old(st.log) && st.lifetime == old(st.lifetime)
      ensures a in st.attempts && st.attempts[a] == old(st.attempts[a]) && e in st.entries && CanEnd(st, a)
    {
      hide Inv, Run, CanRun;
      NotStopping(st, e);
      Do(SRequestStop(e, delete));
    }

    /** Consume, check once more, and put the chunk in the store. */
    method PublishNext(a: nat, e: nat, ghost outputs: seq<nat>, ghost checkpoint: bool) returns (ok: bool)
      requires Valid() && Going(st, a, e, outputs, checkpoint) && outputs != []
      modifies this
      ensures Valid() && origin == old(origin) && a in st.attempts && e in st.entries && st.lifetime == old(st.lifetime)
      ensures ok ==>
        && Going(st, a, e, outputs[1..], checkpoint)
        && st.entries[e].cursor.value.identity == old(st.entries[e].cursor.value.identity)
        && st.log == old(st.log) + Chunks(old(st), a, e, [outputs[0]])
      ensures !ok ==> st.log == old(st.log) && st.attempts[a].entry == e && st.attempts[a].job.Some? && CanEnd(st, a)
    {
      hide Inv, Run, CanRun;
      ok := ConsumeNext(a, e, outputs, checkpoint);
      if ok {
        var stopped, delete := *, *;
        if stopped {
          Interrupt(a, e, delete);
          return false;
        }
        Do(SCheck(a));
        Do(SStore(a));
      }
    }

    /** Ask for a save of the position after the last chunk. */
    method AskCheckpoint(a: nat, e: nat)
      requires Valid() && Going(st, a, e, [], true)
      modifies this
      ensures Valid() && origin == old(origin) && Progress(old(st), st, a, e) && st.log == old(st.log)
      ensures Asking(st, a, e, [], false) && CanBeginSave(st, e)
      ensures var c := st.entries[e].cursor.value; st.entries[e].saver.value.rec == Record(c.identity, c.next, c.reserved)
    {
      hide Inv, Run, CanRun;
      CursorInOrder(st, e);
      CheckpointFacts(st, a, e);
      Do(SCheckpoint(a));
    }

    /** Save the position after the last chunk. */
    method SaveCheckpoint(a: nat, e: nat) returns (ok: bool)
      requires Valid() && Going(st, a, e, [], true)
      modifies this
      ensures Valid() && origin == old(origin) && st.log == old(st.log) && a in st.attempts && st.attempts[a].entry == e
      ensures st.attempts[a].job.Some? && CanEnd(st, a)
      ensures ok ==> st.attempts[a].job == Some(Job([], false, Ready)) && Recorded(st, e)
    {
      hide Inv, Run, CanRun, Progress;
      AskCheckpoint(a, e);
      Do(SBeginSave(e));
      ok := SaveRecord(e);
      if ok {
        Do(SGrant(a));
      }
    }

    /** Publish the next chunk, or end the job: because something failed, or because a stop was
        requested meanwhile. */
    method PublishOrEnd(a: nat, e: nat, ghost outputs: seq<nat>, ghost checkpoint: bool) returns (ok: bool)
      requires Valid() && Going(st, a, e, outputs, checkpoint) && outputs != []
      modifies this
      ensures Valid() && origin == old(origin) && a in st.attempts && e in st.entries && st.lifetime == old(st.lifetime)
      ensures ok ==>
        && Going(st, a, e, outputs[1..], checkpoint)
        && st.entries[e].cursor.value.identity == old(st.entries[e].cursor.value.identity)
        && st.log == old(st.log) + Chunks(old(st), a, e, [outputs[0]])
      ensures !ok ==> st.log == old(st.log) && st.attempts[a].job.None? && st.entries[e].publication == Free
    {
      hide Inv, Run, CanRun;
      var interrupted, delete := *, *;
      ok := false;
      if interrupted {
        Interrupt(a, e, delete);
      } else {
        ok := PublishNext(a, e, outputs, checkpoint);
      }
      if !ok {
        Do(SEnd(a));
      }
    }

    /** Save the final position if asked to, and end the job. */
    method Finish(a: nat, e: nat, checkpoint: bool) returns (ok: bool)
      requires Valid() && Going(st, a, e, [], checkpoint)
      modifies this
      ensures Valid() && origin == old(origin) && st.log == old(st.log)
      ensures a in st.attempts && st.attempts[a].job.None? && e in st.entries && st.entries[e].publication == Free
      ensures if checkpoint then ok ==> Recorded(st, e) else ok
    {
      hide Inv, Run, CanRun;
      ok := true;
      if checkpoint {
        var stopped, delete := *, *;
        if stopped {
          Interrupt(a, e, delete);
          ok := false;
        } else {
          ok := SaveCheckpoint(a, e);
        }
      }
      Do(SEnd(a));
    }

    /** Publish one chunk after the other, each only once its piece is reserved, save the final
        position if asked to, and end the job. Any filesystem operation may fail, and a stop may be
        requested before each chunk, between consuming and checking it, and before the final save. */
    method StoreOutputs(a: nat, e: nat, outputs: seq<nat>, checkpoint: bool) returns (ok: bool, stored: nat)
      requires Valid() && CanStart(st, a, outputs, checkpoint) && st.attempts[a].entry == e
      requires PublicationOk(st, st.entries[e], st.attempts[a]) && st.entries[e].io == Idle && st.entries[e].saver.None?
      modifies this
      ensures Valid() && origin == old(origin)
      ensures stored <= |outputs| && (ok ==> stored == |outputs|) && (stored == |outputs| && !checkpoint ==> ok)
      ensures st.log == old(st.log) + Chunks(old(st), a, e, outputs[..stored])
      ensures a in st.attempts && st.attempts[a].job.None? && e in st.entries && st.entries[e].publication == Free
      ensures ok && checkpoint ==> Recorded(st, e)
    {
      hide Inv, Run, CanRun, Recorded;
      Do(SStart(a, outputs, checkpoint));
      stored := 0;
      while stored < |outputs|
        invariant stored <= |outputs| && Valid() && origin == old(origin)
        invariant Going(st, a, e, outputs[stored..], checkpoint) && st.lifetime == old(st.lifetime)
        invariant st.entries[e].cursor.value.identity == old(st.entries[e].cursor.value.identity)
        invariant st.log == old(st.log) + Chunks(old(st), a, e, outputs[..stored])
      {
        ok := PublishOrEnd(a, e, outputs[stored..], checkpoint);
        if !ok {
          return;
        }
        assert outputs[..stored + 1] == outputs[..stored] + [outputs[stored]];
        stored := stored + 1;
      }
      assert outputs[stored..] == [];
      ok := Finish(a, e, checkpoint);
    }

    /** Save the current position on request. */
    method FlushRecord(e: nat) returns (ok: bool)
      requires Valid() && CanFlush(st, e) && st.entries[e].io == Idle
      modifies this
      ensures Valid() && origin == old(origin) && Only(old(st), st, e)
      ensures
        var was := old(st.entries[e]);
        st.entries[e] == was.(saver := None, cursor := Some(was.cursor.value.(poisoned := !ok)))
      ensures ok ==> Recorded(st, e) && CanFlush(st, e)
    {
      hide Inv, Run, CanRun;
      Do(SFlush(e));
      Do(SBeginSave(e));
      ok := SaveRecord(e);
      Do(SLeaveFlush(e));
    }

    /** A producer that is done gives way to the next one, which starts where publishing has got to. */
    method Replace(e: nat, a: nat) returns (b: nat)
      requires Valid() && a in st.attempts && st.attempts[a].entry == e && e in st.entries
      requires st.entries[e].producer.Some? && st.entries[e].producer.value.authority == st.attempts[a].authority
      requires st.attempts[a].job.None? && st.entries[e].publication == Free && st.entries[e].io == Idle
      requires CheckOk(st.service, st.entries[e]) && st.entries[e].stop == NoStop
      modifies this
      ensures Valid() && origin == old(origin) && st.disk == old(st.disk) && st.log == old(st.log)
      ensures a !in st.attempts && b !in old(st.attempts) && b in st.attempts && e in st.entries
      ensures st.attempts[b].entry == e && st.attempts[b].held && !st.attempts[b].failed && st.attempts[b].job.None?
      ensures st.entries[e].cursor == old(st.entries[e].cursor)
      ensures st.attempts[b].start == st.entries[e].cursor.value.next && PublicationOk(st, st.entries[e], st.attempts[b])
    {
      hide Inv, Run, CanRun;
      UnusedId(st);
      AttemptIds(st);
      Do(SDropSession(e));
      Do(SSpoil(a, false));
      Do(SReap(a));
      Do(SAcquire(e));
      b := st.ids;
      Do(SOpen(e));
    }

    /** A detached source makes room for another producer at once. */
    method DetachSource(e: nat)
      requires Valid() && CanDetach(st, e) && CheckOk(st.service, st.entries[e]) && st.entries[e].stop == NoStop
      modifies this
      ensures Valid() && origin == old(origin) && CanAcquire(st, e) && st.entries[e].producer.None?
      ensures st == old(st).(entries := st.entries) && st.entries[e].cursor == old(st.entries[e].cursor)
    {
      hide Inv, Run, CanRun;
      Do(SDetach(e));
    }

    /** Stop a broadcast whose locks are free. Asked to delete, it succeeds only once nothing but the
        absence of the record can survive, and then the name is free for another broadcast; otherwise it
        is refused and may be asked for again. Not asked to delete, it leaves the record alone. */
    method StopBroadcast(e: nat, delete: bool) returns (ok: bool)
      requires Valid() && CanRequestStop(st, e) && st.entries[e].publication == Free && st.entries[e].io == Idle
      modifies this
      ensures Valid() && origin == old(origin) && e in st.entries && st.log == old(st.log)
      ensures st.entries[e].cancel && st.entries[e].publication == Free && st.entries[e].io == Idle
      ensures st.entries[e].cursor.Some? ==> st.entries[e].cursor.value.closed
      ensures ok ==> st.entries[e].stop == Done(delete) && st.entries[e].producer.None?
      ensures ok && delete ==>
        && st.disk == Disk(Absent, {Absent})
        && st.current == if old(st.current) == Some(e) then None else old(st.current)
      ensures ok && !delete ==> st.disk == old(st.disk) && st.current == old(st.current)
      ensures !ok ==> delete && st.entries[e].stop == Refused && CanRequestStop(st, e) && st.current == old(st.current)
    {
      hide Inv, Run, CanRun;
      Do(SRequestStop(e, delete));
      Do(SStopPublication(e));
      Do(SStopIo(e));
      ok := true;
      if delete {
        ok := DeleteRecord(e);
      }
    }

    /** Unlink the record and sync the directory. */
    method DeleteRecord(e: nat) returns (ok: bool)
      requires Valid() && e in st.entries && st.entries[e].io == Deleting(false)
      modifies this
      ensures Valid() && origin == old(origin) && e in st.entries && st.log == old(st.log)
      ensures
        var was := old(st.entries[e]);
        st.entries[e] == was.(io := Idle, publication := Free, stop := if ok then Done(true) else Refused,
                              producer := if ok then None else was.producer, unlinked := st.entries[e].unlinked)
      ensures ok ==> st.disk == Disk(Absent, {Absent})
      ensures st.current == if ok && old(st.current) == Some(e) then None else old(st.current)
    {
      hide Inv, Run, CanRun;
      ok := *;
      Do(SDelete(e, ok));
      if ok {
        ok := *;
        Do(SDelete(e, ok));
      }
    }
  }

  /** Nothing survives but the entry's record, and it marks exactly where the cursor may go. */
  ghost predicate Recorded(s: State, e: nat) {
    && e in s.entries && s.entries[e].cursor.Some?
    && var c := s.entries[e].cursor.value;
       s.disk.durable == {Whole(Record(c.identity, c.next, c.reserved))}
  }

  /** A reservation was requested that covers the job's next piece. */
  ghost predicate Asking(s: State, a: nat, e: nat, outputs: seq<nat>, checkpoint: bool) {
    && InPhase(s, a, Reserving) && s.attempts[a].entry == e && s.attempts[a].job == Some(Job(outputs, checkpoint, Reserving))
    && PublicationOk(s, s.entries[e], s.attempts[a]) && s.entries[e].io == Idle
    && s.entries[e].saver.Some? && s.entries[e].saver.value.Waiting?
    && (outputs != [] ==> outputs[0] < s.entries[e].saver.value.rec.reserved)
    && s.entries[e].cursor.value.next <= s.entries[e].saver.value.rec.reserved
  }

  lemma UnusedId(s: State)
    requires Inv(s)
    ensures s.ids !in s.busy
  {
    hide EntryInv, AttemptInv, LogInv, DiskInv;
  }

  lemma AttemptIds(s: State)
    requires Inv(s)
    ensures forall a | a in s.attempts :: a < s.ids
  {
    hide EntryInv, LogInv, DiskInv;
  }

  lemma CursorInOrder(s: State, e: nat)
    requires Inv(s) && e in s.entries && s.entries[e].cursor.Some?
    ensures s.entries[e].cursor.value.next <= s.entries[e].cursor.value.reserved
  {
    assert EntryInv(WorldOf(s), s.entries[e]);
  }

  lemma ConsumeFacts(s: State, a: nat, e: nat)
    requires CanConsume(s, a) && s.attempts[a].entry == e
    ensures Progress(s, Consume(s, a), a, e)
  {
    hide Extension;
  }

  lemma CheckpointFacts(s: State, a: nat, e: nat)
    requires CanCheckpoint(s, a) && s.attempts[a].entry == e
    ensures Progress(s, Checkpoint(s, a), a, e)
  {
  }

  lemma NotStopping(s: State, e: nat)
    requires Inv(s) && e in s.entries && !s.entries[e].cancel
    ensures CanRequestStop(s, e)
  {
    assert EntryInv(WorldOf(s), s.entries[e]);
  }

  lemma GrantFacts(s: State, a: nat, e: nat)
    requires CanGrant(s, a) && s.attempts[a].entry == e
    ensures Progress(s, Grant(s, a), a, e)
  {
  }

  /** One filesystem operation of a save that a reservation asked for. */
  lemma ReserveStep(s: State, e: nat, ok: bool)
    requires CanSave(s, e) && s.entries[e].cursor.Some? && s.entries[e].io.owner.Reserve?
    requires s.entries[e].saver == Some(Running(s.entries[e].io.rec))
    ensures
      var s', en, rec := Save(s, e, ok), s.entries[e], s.entries[e].io.rec;
      && Only(s, s', e)
      && (!ok ==> s'.entries[e] == en.(io := Idle, saver := Some(Saved(rec, false)),
                                       cursor := Some(en.cursor.value.(poisoned := true))))
      && (ok && en.io.stage.SyncDirectory? ==>
            s'.entries[e] == en.(io := Idle, saver := Some(Saved(rec, true))) && s'.disk.durable == {s.disk.cache})
      && (ok && !en.io.stage.SyncDirectory? ==>
            && s'.entries[e].io.Saving? && Rank(s'.entries[e].io.stage) < Rank(en.io.stage)
            && s'.entries[e] == en.(io := en.io.(stage := s'.entries[e].io.stage, temp := s'.entries[e].io.temp))
            && (s'.entries[e].io.stage.SyncDirectory? ==> s'.disk.cache == Whole(rec)))
  {
  }
}
