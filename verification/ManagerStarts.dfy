/** What a start of the stream manager is admitted to, passes and leaves behind. */
module ManagerStarts {
  import opened Ts
  import opened Manager
  import opened ManagerInvariants
  import opened ManagerTheorems

  // ----- The publication fence ------------------------------------------------------------

  /** The start goes on to publish. */
  ghost predicate Passes(s: State, i: nat) {
    i in s.tasks && s.tasks[i].phase.Publishing?
  }

  /** A start whose transition is registered is cancelled exactly if a stop of its key came after it
      registered. */
  lemma CancelledExactly(s: State, i: nat)
    requires Inv(s) && i in s.tasks && s.tasks[i].active && !s.tasks[i].phase.Disposing?
    ensures IsCancelled(s, s.tasks[i]) <==> StoppedBy(s, s.tasks[i].key, s.tasks[i].generation)
  {
    hide ResourcesInv, LifecycleInv, HolderInv, PackagersInv, Pending, SeenOk;
    var t := s.tasks[i];
    assert TaskInv(s, i, t);
    if IsCancelled(s, t) {
      var c := (t.key, t.generation);
      assert StoppedBy(s, c.0, c.1);
    }
    if StoppedBy(s, t.key, t.generation) {
      var m :| 0 <= m < |s.stops| && s.stops[m].key == t.key && t.generation <= s.stops[m].bound;
    }
  }

  /** Only the task, its transition and its start lock go when a start returns. */
  lemma LeaveShape(s: State, i: nat)
    requires i in s.tasks
    ensures var s' := Leave(s, i);
            && s' == s.(tasks := s'.tasks, lifecycle := s'.lifecycle, startLocks := s'.startLocks)
            && i !in s'.tasks
            && (!s.tasks[i].phase.Registered? ==> s'.startLocks == s.startLocks - {s.tasks[i].key})
  {
    hide Finish;
  }

  /** Given up: the lock is free, and the source, if there is one, is about to be disposed of. */
  ghost predicate GivenUp(s: State, s': State, i: nat, holding: Option<nat>) {
    && s'.holder == Nobody && s'.sessions == s.sessions && s'.packagers == s.packagers && s'.live == s.live
    && if holding.Some? then i in s'.tasks && s'.tasks[i].phase == Disposing(holding.value) else i !in s'.tasks
  }

  lemma AbandonGivesUp(s: State, i: nat)
    requires CanDecide(s, i)
    ensures GivenUp(s, Abandon(s, i), i, s.tasks[i].phase.holding)
  {
    hide Leave;
    LeaveShape(s, i);
  }

  lemma DecideOutcome(s: State, i: nat, withdrawn: bool)
    requires CanDecide(s, i)
    ensures var t, s' := s.tasks[i], Decide(s, i, withdrawn);
            if !withdrawn && !t.cancel && !IsCancelled(s, t) && !s.shutting then
              && i in s'.tasks && s'.tasks[i] == t.(active := false, phase := Publishing(t.phase.holding))
              && s' == s.(tasks := s.tasks[i := s'.tasks[i]], lifecycle := s'.lifecycle)
            else GivenUp(s, s', i, t.phase.holding)
  {
    hide Finish, Abandon, GivenUp, Decide;
    var t := s.tasks[i];
    if withdrawn || t.cancel {
      AbandonGivesUp(s, i);
      DecideBranch(s, i, withdrawn);
    } else {
      DecideBranch(s, i, withdrawn);
      LateGivesUp(s, i, if t.active then Finish(s.lifecycle, t.key, t.generation) else s.lifecycle);
    }
  }

  lemma DecideBranch(s: State, i: nat, withdrawn: bool)
    requires CanDecide(s, i)
    ensures
      var t := s.tasks[i];
      var l := if t.active then Finish(s.lifecycle, t.key, t.generation) else s.lifecycle;
      Decide(s, i, withdrawn) ==
        if withdrawn || t.cancel then Abandon(s, i)
        else if IsCancelled(s, t) || s.shutting then Abandon(PutTask(s, i, t.(active := false)).(lifecycle := l), i)
        else PutTask(s, i, t.(active := false, phase := Publishing(t.phase.holding))).(lifecycle := l)
  {
    hide Finish, Abandon;
    var t := s.tasks[i];
    assert s.tasks[i := t.(active := false)][i := t.(active := false, phase := Publishing(t.phase.holding))]
        == s.tasks[i := t.(active := false, phase := Publishing(t.phase.holding))];
  }

  lemma LateGivesUp(s: State, i: nat, l: Lifecycle)
    requires CanDecide(s, i)
    ensures GivenUp(s, Abandon(PutTask(s, i, s.tasks[i].(active := false)).(lifecycle := l), i), i,
                    s.tasks[i].phase.holding)
  {
    hide Abandon;
    AbandonGivesUp(PutTask(s, i, s.tasks[i].(active := false)).(lifecycle := l), i);
  }

  /** In every run, a start passes the fence exactly if it was not withdrawn, its caller did not cancel,
      no stop of its key came after it registered, and shutdown has not begun. It then keeps its source
      and the lock; otherwise the lock is free and the source is about to be disposed of. */
  lemma FenceExactly(cap: Option<nat>, steps: seq<Step>, i: nat, withdrawn: bool)
    requires CanRun(Start(cap), steps) && CanDecide(Run(Start(cap), steps), i)
    ensures var s := Run(Start(cap), steps);
            && Enabled(s, SDecide(i, withdrawn))
            && var t, s' := s.tasks[i], Apply(s, SDecide(i, withdrawn));
               && (Passes(s', i) <==>
                     && !withdrawn && !t.cancel && !s.shutting
                     && !exists m | 0 <= m < |s.stops| :: s.stops[m].key == t.key && t.generation <= s.stops[m].bound)
               && (Passes(s', i) ==> s'.tasks[i].phase.holding == t.phase.holding && s'.holder == Starting(i))
               && (!Passes(s', i) ==> GivenUp(s, s', i, t.phase.holding))
  {
    hide Run, CanRun, Decide, TasksInv, ResourcesInv, LifecycleInv, HistoryInv, HolderInv, PackagersInv;
    var s := Run(Start(cap), steps);
    Reached(cap, steps);
    FinalizerFacts(s, i);
    CancelledExactly(s, i);
    DecideOutcome(s, i, withdrawn);
  }

  lemma FinalizerFacts(s: State, i: nat)
    requires Core(s) && CanDecide(s, i)
    ensures s.tasks[i].active && s.holder == Starting(i)
  {
    assert TaskInv(s, i, s.tasks[i]);
  }

  /** Nothing is visible that was not, and nothing is gone. */
  ghost predicate SameVisible(s: State, s': State) {
    && s'.sessions == s.sessions && s'.packagers == s.packagers && s'.shutting == s.shutting && s'.cap == s.cap
    && s'.published == s.published && s'.running == s.running
  }

  // ----- Admission ------------------------------------------------------------------------

  /** There is room for one more provider resource. */
  ghost predicate Room(s: State) {
    s.cap.Some? ==> |s.live| < s.cap.value
  }

  /** In every run, a start that finds no session of its key begins opening a source, on a reservation
      of its own, exactly if fewer resources than the cap are alive. */
  lemma AdmissionExact(cap: Option<nat>, steps: seq<Step>, i: nat)
    requires CanRun(Start(cap), steps) && CanLook(Run(Start(cap), steps), i)
    ensures var s := Run(Start(cap), steps); Enabled(s, SLook(i)) && Looked(s, Apply(s, SLook(i)), i)
  {
    hide Run, CanRun, TasksInv, LifecycleInv, HistoryInv, HolderInv, PackagersInv, Look, Looked;
    var s := Run(Start(cap), steps);
    Reached(cap, steps);
    LookOutcome(s, i);
  }

  /** The start uses the session there is, or opens a source if there is room. */
  ghost predicate Looked(s: State, s': State, i: nat)
    requires CanLook(s, i)
  {
    var t := s.tasks[i];
    if t.key in s.sessions then
      if t.hls then s' == PutTask(s, i, t.(phase := Seen(s.sessions[t.key]))) else Gone(s, s', i) && s'.live == s.live
    else if Room(s) then
      && i in s'.tasks && s'.tasks[i].phase.Opening?
      && var r := s'.tasks[i].phase.source;
         && r !in s.live
         && s' == PutTask(s, i, t.(phase := Opening(r)))
                  .(live := s.live[r := AtTask(i)], ids := s'.ids, occupied := s.occupied + 1)
    else Gone(s, s', i) && s'.live == s.live
  }

  /** The start has returned, and what clients see is as it was. */
  ghost predicate Gone(s: State, s': State, i: nat)
    requires i in s.tasks
  {
    && i !in s'.tasks && s'.startLocks == s.startLocks - {s.tasks[i].key} && SameVisible(s, s') && s'.holder == s.holder
  }

  /** The start has what it takes to go on: the session there is, or a source of its own. */
  ghost predicate Fetched(s: State, s': State, i: nat) {
    && i in s.tasks && i in s'.tasks && s'.tasks[i] == s.tasks[i].(phase := s'.tasks[i].phase) && CanFinalize(s', i)
    && s'.lifecycle == s.lifecycle && s'.startLocks == s.startLocks
    && if s.tasks[i].key in s.sessions then
         s'.tasks[i].phase == Seen(s.sessions[s.tasks[i].key]) && s'.live == s.live
       else
         && s'.tasks[i].phase.Opened? && s'.tasks[i].phase.source !in s.live
         && s'.live == s.live[s'.tasks[i].phase.source := AtTask(i)]
  }

  lemma LookOutcome(s: State, i: nat)
    requires Inv(s) && CanLook(s, i)
    ensures Looked(s, Look(s, i), i)
  {
    hide Inv, Leave, Look, Opens, SameVisible;
    LiveCounts(s);
    LookBranch(s, i);
    var t := s.tasks[i];
    if t.key in s.sessions {
      LeaveGone(s, i);
    } else if Room(s) {
      OpensShape(s, i);
    } else {
      LeaveGone(s, i);
    }
  }

  function Opens(s: State, i: nat): State
    requires i in s.tasks
  {
    PutTask(s, i, s.tasks[i].(phase := Opening(s.ids)))
      .(ids := s.ids + 1, occupied := s.occupied + 1, live := s.live[s.ids := AtTask(i)])
  }

  lemma OpensShape(s: State, i: nat)
    requires i in s.tasks
    ensures var s' := Opens(s, i);
            && i in s'.tasks && s'.tasks[i].phase == Opening(s.ids)
            && s' == PutTask(s, i, s.tasks[i].(phase := Opening(s.ids)))
                     .(live := s.live[s.ids := AtTask(i)], ids := s'.ids, occupied := s.occupied + 1)
  {
  }

  lemma LeaveGone(s: State, i: nat)
    requires i in s.tasks && !s.tasks[i].phase.Registered?
    ensures Gone(s, Leave(s, i), i) && Leave(s, i).live == s.live
  {
    hide Leave;
    LeaveShape(s, i);
  }

  lemma LookBranch(s: State, i: nat)
    requires CanLook(s, i)
    ensures
      var t := s.tasks[i];
      Look(s, i) ==
        if t.key in s.sessions && t.hls then PutTask(s, i, t.(phase := Seen(s.sessions[t.key])))
        else if t.key in s.sessions then Leave(s, i)
        else if s.cap.Some? && s.occupied >= s.cap.value then Leave(s, i)
        else Opens(s, i)
  {
    hide Leave;
  }

  lemma OpenOutcome(s: State, i: nat, ok: bool)
    requires CanOpen(s, i)
    ensures var r, s' := s.tasks[i].phase.source, Open(s, i, ok);
            && (ok ==> s' == PutTask(s, i, s.tasks[i].(phase := Opened(r))))
            && (!ok ==> Gone(s, s', i) && s'.live == s.live - {r})
  {
    hide Leave;
    LeaveShape(s, i);
  }

  /** How a step moves the number of reservations: admission of a start or of a VOD content takes one; a
      source that fails to open or ends cleanly, and the last handle of a content, give one back. A
      source whose shutdown fails keeps its own. */
  ghost function Change(s: State, t: Step): int
    requires Enabled(s, t)
  {
    match t
    case SLook(i) => if s.tasks[i].key !in s.sessions && Room(s) then 1 else 0
    case SReserveVod => 1
    case SOpen(_, ok) => if ok then 0 else -1
    case SDispose(_, ok) => if ok then -1 else 0
    case SEndSession(_, ok) => if ok then -1 else 0
    case SDropVod(r) => if s.live[r].handles == 1 then -1 else 0
    case _ => 0
  }

  /** In every run each step moves the reservations so. */
  lemma ReservationsMove(cap: Option<nat>, steps: seq<Step>, t: Step)
    requires CanRun(Start(cap), steps) && Enabled(Run(Start(cap), steps), t)
    ensures var s := Run(Start(cap), steps);
            && Apply(s, t).occupied == s.occupied + Change(s, t) == |Apply(s, t).live|
            && s.occupied == |s.live|
  {
    hide Run, CanRun, Inv, Enabled, Apply, Change;
    var s := Run(Start(cap), steps);
    Reached(cap, steps);
    StepInv(s, t);
    LiveCounts(s);
    LiveCounts(Apply(s, t));
    if t.SLook? || t.SOpen? {
      FetchChanges(s, t);
    } else if t.SPublish? {
      PublishChanges(s, t);
    } else if t.SDecide? {
      DecideChanges(s, t);
    } else if t.SDispose? {
      DisposeChanges(s, t);
    } else if OfResources(t) {
      EndingIsLive(s, t);
      ResourceChanges(s, t);
    } else {
      OtherChanges(s, t);
    }
  }

  lemma FetchChanges(s: State, t: Step)
    requires Inv(s) && Enabled(s, t) && (t.SLook? || t.SOpen?) && s.occupied == |s.live|
    ensures Apply(s, t).occupied == s.occupied + Change(s, t)
  {
    hide Inv, Leave;
    LiveCounts(s);
    LeaveShape(s, t.i);
    if t.SOpen? {
      SourceIsLive(s, t.i);
    }
  }

  /** A source that a task holds is among the live resources, so there is at least one. */
  lemma SourceIsLive(s: State, i: nat)
    requires Inv(s) && i in s.tasks && SourceOf(s.tasks[i].phase).Some?
    ensures s.occupied > 0
  {
    hide Core;
    assert i in Held(s.tasks);
    NotEmpty(s.live, SourceOf(s.tasks[i].phase).value);
  }

  lemma PublishChanges(s: State, t: Step)
    requires Inv(s) && Enabled(s, t) && t.SPublish?
    ensures Apply(s, t).occupied == s.occupied + Change(s, t)
  {
    hide Inv, Leave, Publish;
    assert Core(s) by { CoreOf(s); }
    PublisherReady(s, t.i);
    PublishShape(s, t.i);
    if s.tasks[t.i].phase.holding.Some? && !s.tasks[t.i].hls {
      LeaveShape(Inserted(s, t.i), t.i);
    }
  }

  lemma CoreOf(s: State)
    requires Inv(s)
    ensures Core(s)
  {
  }

  lemma DecideChanges(s: State, t: Step)
    requires Enabled(s, t) && t.SDecide?
    ensures Apply(s, t).occupied == s.occupied + Change(s, t)
  {
    hide KeepsSource, Decide;
    DecideKeepsSource(s, t.i, t.withdrawn);
    KeepsOccupied(s, Decide(s, t.i, t.withdrawn), t.i);
  }

  lemma KeepsOccupied(s: State, s': State, i: nat)
    requires i in s.tasks && KeepsSource(s, s', i)
    ensures s'.occupied == s.occupied
  {
  }

  lemma ResourceChanges(s: State, t: Step)
    requires Enabled(s, t) && OfResources(t) && s.occupied == |s.live|
    requires t.SEndSession? ==> s.occupied > 0
    ensures Apply(s, t).occupied == s.occupied + Change(s, t)
  {
    if t.SDropVod? {
      NotEmpty(s.live, t.r);
    }
  }

  lemma DisposeChanges(s: State, t: Step)
    requires Inv(s) && Enabled(s, t) && t.SDispose?
    ensures Apply(s, t).occupied == s.occupied + Change(s, t)
  {
    hide Inv, Leave;
    LeaveShape(s, t.i);
    SourceIsLive(s, t.i);
  }

  lemma NotEmpty<K, V>(m: map<K, V>, k: K)
    requires k in m
    ensures |m| > 0
  {
    assert k in m.Keys;
    assert |m.Keys| == |m|;
  }

  lemma OtherChanges(s: State, t: Step)
    requires Enabled(s, t) && !OfResources(t)
    requires !t.SDispose? && !t.SLook? && !t.SOpen? && !t.SPublish? && !t.SDecide?
    ensures Apply(s, t).occupied == s.occupied + Change(s, t)
  {
    hide Leave, Begin, CancelAll;
    if t.SLeave? || t.SPackage? {
      LeaveShape(s, t.i);
    }
  }

  lemma EndingIsLive(s: State, t: Step)
    requires Inv(s) && Enabled(s, t)
    ensures t.SEndSession? ==> s.occupied > 0
  {
    hide Core;
    if t.SEndSession? {
      NotEmpty(s.live, s.running[t.x]);
    }
  }

  lemma SeenFetched(s: State, s': State, i: nat)
    requires CanLook(s, i) && s.holder == Nobody && s.tasks[i].key in s.sessions && s.tasks[i].hls && Looked(s, s', i)
    ensures Fetched(s, s', i) && SameVisible(s, s') && s'.holder == Nobody
  {
  }

  lemma RefusedGone(s: State, s': State, i: nat)
    requires CanLook(s, i) && s.tasks[i].key !in s.sessions && !Room(s) && Looked(s, s', i)
    ensures Gone(s, s', i) && s'.live == s.live && SameVisible(s, s') && s'.holder == s.holder
  {
  }

  lemma OpenFetched(s: State, s': State, i: nat, ok: bool)
    requires CanLook(s, i) && s.holder == Nobody && s.tasks[i].key !in s.sessions && Room(s) && Looked(s, s', i)
    ensures CanOpen(s', i)
    ensures var r := Open(s', i, ok);
            && SameVisible(s, r) && r.holder == Nobody
            && if ok then Fetched(s, r, i) else Gone(s, r, i) && r.live == s.live
  {
    hide Open;
    OpenOutcome(s', i, ok);
    var x := s'.tasks[i].phase.source;
    assert s.live[x := AtTask(i)] - {x} == s.live;
  }

  // ----- A start as it executes -----------------------------------------------------------

  lemma {:induction false} RunAppend(s: State, steps: seq<Step>, t: Step)
    requires CanRun(s, steps) && Enabled(Run(s, steps), t)
    ensures CanRun(s, steps + [t]) && Run(s, steps + [t]) == Apply(Run(s, steps), t)
    decreases |steps|
  {
    hide Enabled, Apply;
    if steps == [] {
      assert steps + [t] == [t] && [t][1..] == [];
      assert CanRun(Apply(s, t), []);
    } else {
      RunAppend(Apply(s, steps[0]), steps[1..], t);
      assert (steps + [t])[0] == steps[0] && (steps + [t])[1..] == steps[1..] + [t];
    }
  }

  /** A manager in which one start runs at a time, with nothing interfering. */
  class Starter {
    var st: State
    ghost var origin: State
    ghost var trace: seq<Step>

    ghost predicate Valid()
      reads this
    {
      Inv(st) && CanRun(origin, trace) && Run(origin, trace) == st
    }

    constructor (cap: Option<nat>)
      ensures Valid() && st == Start(cap) && origin == st
    {
      st, origin, trace := Start(cap), Start(cap), [];
      new;
      StartInv(cap);
    }

    method Do(t: Step)
      requires Valid() && Enabled(st, t)
      modifies this
      ensures Valid() && !st.panicked && st == Apply(old(st), t) && origin == old(origin) && trace == old(trace) + [t]
    {
      hide Inv, Apply, Enabled;
      RunAppend(origin, trace, t);
      StepInv(st, t);
      st := Apply(st, t);
      trace := trace + [t];
      NeverPanicked(st);
    }

    /** Serve a key. With a session of it there, or room and a provider that opens, it has a session
        afterwards, and for HLS a packager of that session; otherwise nothing has changed for clients. */
    method StartKey(k: Key, hls: bool, opens: bool) returns (started: bool)
      requires Valid() && CanRegister(st) && k !in st.startLocks
      modifies this
      ensures Valid() && origin == old(origin) && CanRegister(st) && k !in st.startLocks
      ensures started <==> k in old(st).sessions || (Room(old(st)) && opens)
      ensures started ==> Served(old(st), st, k, hls)
      ensures !started ==> SameVisible(old(st), st) && st.live == old(st.live)
    {
      hide Inv, Run, CanRun, Look, Served;
      ghost var was := st;
      var i := Enroll(k, hls);
      if k in st.sessions && !hls {
        NeverPanicked(st);
        LookOutcome(st, i);
        Do(SLook(i));
        SeenServed(was, st, k);
        return true;
      }
      started := Fetch(i, opens);
      if started {
        ghost var ready := st;
        Settle(i);
        ServedSince(was, ready, st, k, hls);
      }
    }

    /** Register a start and take its key's start lock. */
    method Enroll(k: Key, hls: bool) returns (i: nat)
      requires Valid() && CanRegister(st) && k !in st.startLocks
      modifies this
      ensures Valid() && origin == old(origin) && SameVisible(old(st), st) && st.live == old(st.live)
      ensures st.holder == Nobody && i in st.tasks && !IsCancelled(st, st.tasks[i])
      ensures st.tasks[i] == Task(k, st.tasks[i].generation, hls, false, true, Locked)
      ensures st.startLocks == old(st.startLocks)[k := i]
    {
      hide Inv, Run, CanRun, Pending;
      i := st.ids;
      NeverPanicked(st);
      NotYetCancelled(st);
      Do(SRegister(k, hls));
      Do(SLock(i));
    }

    /** Find the session or open a source for a new one; `opens` is what the provider says. */
    method Fetch(i: nat, opens: bool) returns (ok: bool)
      requires Valid() && CanLook(st, i) && st.holder == Nobody && (st.tasks[i].key in st.sessions ==> st.tasks[i].hls)
      modifies this
      ensures Valid() && origin == old(origin) && SameVisible(old(st), st) && st.holder == Nobody
      ensures ok <==> old(st.tasks[i].key) in st.sessions || (Room(old(st)) && opens)
      ensures ok ==> Fetched(old(st), st, i)
      ensures !ok ==> Gone(old(st), st, i) && st.live == old(st.live)
    {
      hide Inv, Run, CanRun, Look, Open, PutTask, Looked, Fetched, Gone;
      NeverPanicked(st);
      LiveCounts(st);
      LookOutcome(st, i);
      ok := st.tasks[i].key in st.sessions;
      var room := st.cap.None? || st.occupied < st.cap.value;
      ghost var was := st;
      Do(SLook(i));
      if ok {
        SeenFetched(was, st, i);
      } else if room {
        ok := opens;
        OpenFetched(was, st, i, opens);
        Do(SOpen(i, opens));
      } else {
        RefusedGone(was, st, i);
      }
    }

    /** Finalize, pass the fence, and publish. */
    method Settle(i: nat)
      requires Valid() && CanFinalize(st, i) && !st.tasks[i].cancel && !IsCancelled(st, st.tasks[i]) && !st.shutting
      modifies this
      ensures Valid() && origin == old(origin) && st.holder == Nobody && i !in st.tasks && !st.shutting
      ensures var t := old(st.tasks[i]); Served(old(st), st, t.key, t.hls)
      ensures st.startLocks == old(st.startLocks) - {old(st.tasks[i].key)} && st.live.Keys == old(st.live.Keys)
    {
      hide Inv, Run, CanRun, Decide, Publish, Package;
      NeverPanicked(st);
      SettlerFacts(st, i);
      Do(SFinalize(i));
      DecideOutcome(st, i, false);
      Do(SDecide(i, false));
      Serve(i);
    }

    /** Insert the session if there is none, and for HLS its packager. */
    method Serve(i: nat)
      requires Valid() && !st.panicked && st.holder == Starting(i) && Serving(st, i) && !st.shutting
      modifies this
      ensures Valid() && origin == old(origin) && st.holder == Nobody && i !in st.tasks && !st.shutting
      ensures var t := old(st.tasks[i]); Served(old(st), st, t.key, t.hls)
      ensures st.startLocks == old(st.startLocks) - {old(st.tasks[i].key)} && st.live.Keys == old(st.live.Keys)
    {
      hide Inv, Run, CanRun, Publish, Package;
      PublishOutcome(st, i);
      var hls := st.tasks[i].hls;
      Do(SPublish(i));
      if hls {
        PackageOutcome(st, i);
        Do(SPackage(i));
      }
    }
  }

  /** Past the fence, with a source of its own or the session there is. */
  ghost predicate Serving(s: State, i: nat) {
    && CanPublish(s, i) && s.ids !in s.running && s.ids !in s.live && !s.tasks[i].active
    && var t := s.tasks[i];
       && (if t.phase.holding.Some? then t.key !in s.sessions && t.phase.holding.value in s.live
           else t.key in s.sessions && t.hls)
       && (t.key in s.packagers ==> t.key in s.sessions && s.packagers[t.key] == s.sessions[t.key])
  }

  /** A session of the key is there, and the start has returned or goes on to package it. */
  lemma PublishOutcome(s: State, i: nat)
    requires Serving(s, i)
    ensures var t, s' := s.tasks[i], Publish(s, i);
            && t.key in s'.sessions && s'.packagers == s.packagers && s'.shutting == s.shutting
            && (t.key in s.sessions ==> s'.sessions == s.sessions)
            && (t.key !in s.sessions ==>
                  && s'.sessions == s.sessions[t.key := s'.sessions[t.key]] && s'.sessions[t.key] !in s.running
                  && s'.sessions[t.key] in s'.running && s'.running[s'.sessions[t.key]] in s'.live)
            && s'.live.Keys == s.live.Keys
            && if t.hls then
                 && i in s'.tasks && s'.tasks[i] == t.(phase := Packaging(s'.sessions[t.key]))
                 && s'.startLocks == s.startLocks && s'.holder == s.holder
               else i !in s'.tasks && s'.startLocks == s.startLocks - {t.key} && s'.holder == Nobody
  {
    hide Leave, Publish;
    var t := s.tasks[i];
    PublishShape(s, i);
    if t.phase.holding.Some? {
      assert Inserted(s, i).live.Keys == s.live.Keys;
      if !t.hls { LeaveShape(Inserted(s, i), i); }
    }
  }

  lemma PackageOutcome(s: State, i: nat)
    requires CanPackage(s, i) && !s.tasks[i].active
    requires s.tasks[i].key in s.packagers ==> s.packagers[s.tasks[i].key] == s.tasks[i].phase.session
    ensures var t, s' := s.tasks[i], Package(s, i);
            && s'.packagers == s.packagers[t.key := t.phase.session] && s'.sessions == s.sessions
            && s'.running == s.running && s'.live == s.live && s'.shutting == s.shutting
            && i !in s'.tasks && s'.startLocks == s.startLocks - {t.key} && s'.holder == Nobody
  {
    hide Leave;
    LeaveShape(s, i);
  }

  /** The key is served: by the session there was, or by a new one; and for HLS by a packager of it. */
  ghost predicate Served(s: State, s': State, k: Key, hls: bool) {
    && k in s'.sessions
    && (k in s.sessions ==> s'.sessions == s.sessions)
    && (k !in s.sessions ==>
          && s'.sessions == s.sessions[k := s'.sessions[k]] && s'.sessions[k] !in s.running && s'.sessions[k] in s'.running
          && s'.running[s'.sessions[k]] in s'.live)
    && (if hls then s'.packagers == s.packagers[k := s'.sessions[k]] else s'.packagers == s.packagers)
  }

  lemma NotYetCancelled(s: State)
    requires Inv(s)
    ensures forall c | c in s.lifecycle.cancelled :: c.1 <= s.lifecycle.next
  {
    hide ResourcesInv, HolderInv, PackagersInv, HistoryInv, SeenOk, Fenced;
    forall c | c in s.lifecycle.cancelled ensures c.1 <= s.lifecycle.next {
      assert InFlight(s, c.0, c.1);
      var i :| i in s.tasks && s.tasks[i].key == c.0 && s.tasks[i].generation == c.1 && s.tasks[i].active;
      assert TaskInv(s, i, s.tasks[i]);
    }
  }

  lemma SeenServed(s: State, s': State, k: Key)
    requires SameVisible(s, s') && k in s.sessions
    ensures Served(s, s', k, false)
  {
  }

  lemma ServedSince(s: State, ready: State, s': State, k: Key, hls: bool)
    requires SameVisible(s, ready) && Served(ready, s', k, hls)
    ensures Served(s, s', k, hls)
  {
  }

  lemma NeverPanicked(s: State)
    requires Inv(s)
    ensures !s.panicked
  {
  }

  lemma LiveCounts(s: State)
    requires Inv(s)
    ensures s.occupied == |s.live| && s.ids !in s.live
  {
    hide Core;
  }

  /** Behind the start lock and the finalization lock nothing has moved. */
  lemma SettlerFacts(s: State, i: nat)
    requires Inv(s) && CanFinalize(s, i) && !IsCancelled(s, s.tasks[i]) && !s.shutting
    ensures var t := s.tasks[i];
            && t.active && t.key in s.startLocks && s.startLocks[t.key] == i && s.ids !in s.running && s.ids !in s.live
            && (t.phase.Seen? ==> t.hls && t.key in s.sessions && s.sessions[t.key] == t.phase.session)
            && (t.phase.Opened? ==> t.key !in s.sessions && t.phase.source in s.live)
            && (t.key in s.packagers ==> t.key in s.sessions && s.packagers[t.key] == s.sessions[t.key])
  {
    hide HolderInv, LifecycleInv, HistoryInv, Fenced, Pending;
    assert TaskInv(s, i, s.tasks[i]);
    if s.tasks[i].phase.Opened? {
      assert i in Held(s.tasks);
    }
  }
}
