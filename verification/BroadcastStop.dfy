/** What becomes of a requested stop, over every run. */
module BroadcastStop {
  import opened Ts
  import opened Broadcast
  import opened BroadcastInvariants
  import opened BroadcastTheorems

  /** How a requested stop ends. A deleting one is refused because a filesystem operation failed, or
      reported only when nothing but the absence of the record can survive. Any other one is reported
      with the record untouched. */
  ghost predicate Settles(s: State, t: Step, s': State, e: nat, delete: bool) {
    && e in s'.entries
    && if delete then
         || (s'.entries[e].stop == Refused && t == SDelete(e, false) && s'.current == s.current)
         || (s'.entries[e].stop == Done(true) && s'.disk == Disk(Absent, {Absent}) && s'.current != Some(e))
       else s'.entries[e].stop == Done(false) && s'.disk == s.disk && s'.current == s.current
  }

  /** No other step moves an entry's stop. */
  ghost predicate SameStop(s: State, s': State, e: nat) {
    e in s.entries && (e in s'.entries ==> s'.entries[e].stop == s.entries[e].stop)
  }

  lemma JobSameStop(s: State, t: Step, e: nat)
    requires Enabled(s, t) && OfJob(t) && e in s.entries
    ensures SameStop(s, Apply(s, t), e)
  {
    hide Extension, CheckOk, PublicationOk;
  }

  lemma DiskSameStop(s: State, t: Step, e: nat)
    requires Enabled(s, t) && OfDisk(t) && !(t.SDelete? && t.e == e) && e in s.entries
    ensures SameStop(s, Apply(s, t), e)
  {
    hide SaveDisk, CheckOk, Resume, Told;
  }

  lemma EntrySameStop(s: State, t: Step, e: nat)
    requires Enabled(s, t) && !OfJob(t) && !OfDisk(t) && !(t.SStopIo? && t.e == e)
    requires e in s.entries && s.entries[e].stop.Requested? && e < s.ids
    ensures SameStop(s, Apply(s, t), e)
  {
    hide CheckOk;
  }

  lemma UnlinkedIsAbsent(s: State, e: nat)
    requires Inv(s) && e in s.entries && s.entries[e].io == Deleting(true)
    ensures s.disk.cache == Absent
  {
    assert EntryInv(WorldOf(s), s.entries[e]);
  }

  lemma EntryIds(s: State, e: nat)
    requires Inv(s) && e in s.entries
    ensures e < s.ids
  {
    hide EntryInv, LogInv, DiskInv, AttemptInv;
  }

  lemma DeletingIsStopping(s: State, e: nat)
    requires Inv(s) && e in s.entries && s.entries[e].io.Deleting?
    ensures s.entries[e].stop == Requested(true)
  {
    assert EntryInv(WorldOf(s), s.entries[e]);
  }

  /** In every run, the step that takes an entry out of a requested stop settles it so. */
  lemma StopSettles(steps: seq<Step>, t: Step, e: nat)
    requires CanRun(START, steps) && Enabled(Run(START, steps), t)
    requires var s := Run(START, steps);
             && e in s.entries && s.entries[e].stop.Requested?
             && e in Apply(s, t).entries && Apply(s, t).entries[e].stop != s.entries[e].stop
    ensures var s := Run(START, steps); Settles(s, t, Apply(s, t), e, s.entries[e].stop.delete)
  {
    hide Inv, CanRun, Run, Apply;
    var s := Run(START, steps);
    InitialInv();
    RunInv(START, steps);
    EntryIds(s, e);
    if t.SStopIo? && t.e == e {
      StopIoSettles(s, e);
    } else if t.SDelete? && t.e == e {
      DeletingIsStopping(s, e);
      DeleteSettles(s, e, t.ok);
    } else if OfJob(t) {
      JobSameStop(s, t, e);
    } else if OfDisk(t) {
      DiskSameStop(s, t, e);
    } else {
      EntrySameStop(s, t, e);
    }
  }

  lemma StopIoSettles(s: State, e: nat)
    requires CanStopIo(s, e)
    ensures var s' := Apply(s, SStopIo(e));
            s'.entries[e].stop != s.entries[e].stop ==> Settles(s, SStopIo(e), s', e, s.entries[e].stop.delete)
  {
  }

  lemma DeleteSettles(s: State, e: nat, ok: bool)
    requires Inv(s) && CanDelete(s, e)
    ensures var s' := Apply(s, SDelete(e, ok));
            s'.entries[e].stop != s.entries[e].stop ==> Settles(s, SDelete(e, ok), s', e, true)
  {
    hide Inv;
    DeletingIsStopping(s, e);
    if s.entries[e].io.unlinked {
      UnlinkedIsAbsent(s, e);
    }
  }
}
