/** What every interleaving of the stream manager keeps. */
module ManagerInvariants {
  import opened Ts
  import opened Manager

  ghost function SourceOf(p: Phase): Option<nat> {
    match p
    case Opening(r) => Some(r)
    case Opened(r) => Some(r)
    case Finalizing(holding, _) => holding
    case Publishing(holding) => holding
    case Disposing(r) => Some(r)
    case _ => None
  }

  /** The finalization lock is held. */
  ghost predicate Final(p: Phase) {
    p.Finalizing? || p.Publishing? || p.Packaging?
  }

  /** The session seen under the start lock is still the published one, unless the start was
      cancelled or shutdown began. */
  ghost predicate SeenOk(s: State, t: Task, x: nat) {
    t.hls && ((t.key in s.sessions && s.sessions[t.key] == x) || IsCancelled(s, t) || s.shutting)
  }

  ghost predicate Fenced(s: State, t: Task) {
    forall m | 0 <= m < |s.stops| ::
      s.stops[m].key == t.key && t.generation <= s.stops[m].bound ==> IsCancelled(s, t) || t.phase.Disposing?
  }

  ghost predicate TaskInv(s: State, i: nat, t: Task) {
    && i < s.ids && t.generation <= s.lifecycle.next
    && (if t.active then t.generation in Pending(s.lifecycle, t.key)
        else t.phase.Publishing? || t.phase.Packaging? || t.phase.Disposing?)
    && (!t.phase.Registered? ==> t.key in s.startLocks && s.startLocks[t.key] == i)
    && (Final(t.phase) ==> s.holder == Starting(i))
    && (SourceOf(t.phase).Some? && !t.phase.Disposing? ==> t.key !in s.sessions)
    && (t.phase.Seen? ==> SeenOk(s, t, t.phase.session))
    && (t.phase.Finalizing? && t.phase.holding.None? ==> t.phase.seen.Some? && SeenOk(s, t, t.phase.seen.value))
    && (t.phase.Publishing? ==> !s.shutting && !t.active && (t.phase.holding.None? ==> t.hls && t.key in s.sessions))
    && (t.phase.Packaging? ==>
         !s.shutting && !t.active && t.key in s.sessions && s.sessions[t.key] == t.phase.session)
    && Fenced(s, t)
  }

  /** Each packager was built from its key's session; only a reap between its two removals may have
      taken the session first. */
  ghost predicate PackagersInv(s: State) {
    forall k | k in s.packagers ::
      (k in s.sessions && s.packagers[k] == s.sessions[k]) || (s.holder.ReapRemoved? && k !in s.holder.retained)
  }

  ghost predicate HolderInv(s: State) {
    match s.holder
    case StopCancelled(k) => forall g | g in Pending(s.lifecycle, k) :: (k, g) in s.lifecycle.cancelled
    case StopUnpackaged(k) =>
      k !in s.packagers && forall g | g in Pending(s.lifecycle, k) :: (k, g) in s.lifecycle.cancelled
    case ReapSnapshot(pending) => s.lifecycle.pending.Keys <= pending
    case ReapRemoved(retained) => retained == s.sessions.Keys
    case ShutdownFlagged => s.shutting
    case ShutdownUnpackaged => s.shutting && s.packagers == map[]
    case _ => true
  }

  /** Some task is registered under generation `g` of key `k`. */
  ghost predicate InFlight(s: State, k: Key, g: nat) {
    exists i | i in s.tasks :: s.tasks[i].key == k && s.tasks[i].generation == g && s.tasks[i].active
  }

  ghost predicate LifecycleInv(s: State) {
    && (forall k | k in s.lifecycle.pending :: s.lifecycle.pending[k] != {})
    && (forall k, g | k in s.lifecycle.pending && g in s.lifecycle.pending[k] :: InFlight(s, k, g))
    && (forall c | c in s.lifecycle.cancelled :: c.1 in Pending(s.lifecycle, c.0))
    && (forall i, j | i in s.tasks && j in s.tasks :: s.tasks[i].generation == s.tasks[j].generation ==> i == j)
  }

  ghost predicate StoppedBy(s: State, k: Key, g: nat) {
    exists m | 0 <= m < |s.stops| :: s.stops[m].key == k && g <= s.stops[m].bound
  }

  ghost predicate HistoryInv(s: State) {
    && (forall m | 0 <= m < |s.stops| :: s.stops[m].bound <= s.lifecycle.next && s.stops[m].at <= |s.published|)
    && (forall m, j | 0 <= m < |s.stops| && s.stops[m].at <= j < |s.published| ::
         s.published[j].key == s.stops[m].key ==> s.published[j].generation > s.stops[m].bound)
    && (forall c | c in s.lifecycle.cancelled :: StoppedBy(s, c.0, c.1))
    && (s.shutting ==> s.closedAt == |s.published|)
  }

  ghost predicate TasksInv(s: State) {
    forall i | i in s.tasks :: TaskInv(s, i, s.tasks[i])
  }

  /** The sources that tasks hold. */
  ghost function Held(tasks: map<nat, Task>): map<nat, nat> {
    map i | i in tasks && SourceOf(tasks[i].phase).Some? :: SourceOf(tasks[i].phase).value
  }

  /** The counter counts the live resources, each of which has the one owner that points back to it. */
  ghost predicate Accounts(held: map<nat, nat>, running: map<nat, nat>, live: map<nat, Place>, occupied: nat, ids: nat) {
    && occupied == |live|
    && (forall i | i in held :: held[i] in live && live[held[i]] == AtTask(i))
    && (forall x | x in running :: x < ids && running[x] in live && live[running[x]] == AtSession(x))
    && (forall r | r in live ::
         && r < ids
         && (live[r].AtTask? ==> live[r].task in held && held[live[r].task] == r)
         && (live[r].AtSession? ==> live[r].session in running && running[live[r].session] == r)
         && (live[r].AtVod? ==> live[r].handles > 0))
  }

  ghost predicate ResourcesInv(s: State) {
    && Accounts(Held(s.tasks), s.running, s.live, s.occupied, s.ids)
    && (s.cap.Some? ==> s.occupied <= s.cap.value)
    && (forall i | i in s.tasks :: i < s.ids)
  }

  ghost predicate Core(s: State) {
    !s.panicked && TasksInv(s) && PackagersInv(s) && HolderInv(s) && LifecycleInv(s) && HistoryInv(s)
  }

  ghost predicate Inv(s: State) {
    Core(s) && ResourcesInv(s)
  }

  // ----- Transitions ----------------------------------------------------------------------

  /** What finishing one transition does to the others. */
  lemma FinishOthers(l: Lifecycle, k: Key, g: nat)
    ensures forall k', g' | g' in Pending(Finish(l, k, g), k') :: g' in Pending(l, k') && (k', g') != (k, g)
    ensures forall k', g' | g' in Pending(l, k') && (k', g') != (k, g) :: g' in Pending(Finish(l, k, g), k')
    ensures Finish(l, k, g).pending.Keys <= l.pending.Keys
    ensures Finish(l, k, g).cancelled == l.cancelled - {(k, g)} && Finish(l, k, g).next == l.next
    ensures (forall k' | k' in l.pending :: l.pending[k'] != {}) ==>
      forall k' | k' in Finish(l, k, g).pending :: Finish(l, k, g).pending[k'] != {}
  {
  }

  /** Another task's view, after one transition ends or one task goes. */
  ghost predicate SameView(s: State, s': State) {
    && s'.sessions == s.sessions && s'.shutting == s.shutting && s'.stops == s.stops
    && s'.ids >= s.ids && s'.lifecycle.next == s.lifecycle.next
  }

  lemma OtherTask(s: State, s': State, k: Key, g: nat, j: nat, t: Task)
    requires TaskInv(s, j, t) && SameView(s, s') && t.generation != g
    requires s'.lifecycle == Finish(s.lifecycle, k, g) || s'.lifecycle == s.lifecycle
    requires s'.holder == s.holder || !Final(t.phase)
    requires !t.phase.Registered? ==> t.key in s'.startLocks && s'.startLocks[t.key] == s.startLocks[t.key]
    ensures TaskInv(s', j, t)
  {
    FinishOthers(s.lifecycle, k, g);
    hide Finish;
  }

  lemma FinishLifecycle(s: State, s': State, i: nat)
    requires LifecycleInv(s) && i in s.tasks && s.tasks[i].active
    requires s'.lifecycle == Finish(s.lifecycle, s.tasks[i].key, s.tasks[i].generation)
    requires s'.tasks == s.tasks - {i} ||
             (i in s'.tasks && s'.tasks == s.tasks[i := s'.tasks[i]] && s'.tasks[i].generation == s.tasks[i].generation)
    ensures LifecycleInv(s')
  {
    var t := s.tasks[i];
    FinishOthers(s.lifecycle, t.key, t.generation);
    forall k, g | k in s'.lifecycle.pending && g in s'.lifecycle.pending[k] ensures InFlight(s', k, g) {
      assert g in Pending(s'.lifecycle, k) && g in Pending(s.lifecycle, k);
      assert InFlight(s, k, g);
      var j :| j in s.tasks && s.tasks[j].key == k && s.tasks[j].generation == g && s.tasks[j].active;
      assert j != i && s'.tasks[j] == s.tasks[j];
    }
    forall c | c in s'.lifecycle.cancelled ensures c.1 in Pending(s'.lifecycle, c.0) {
      assert c in s.lifecycle.cancelled && c != (t.key, t.generation);
    }
  }

  lemma DropLifecycle(s: State, s': State, i: nat)
    requires LifecycleInv(s) && i in s.tasks && !s.tasks[i].active
    requires s'.lifecycle == s.lifecycle && s'.tasks == s.tasks - {i}
    ensures LifecycleInv(s')
  {
    forall k, g | k in s.lifecycle.pending && g in s.lifecycle.pending[k] ensures InFlight(s', k, g) {
      assert InFlight(s, k, g);
      var j :| j in s.tasks && s.tasks[j].key == k && s.tasks[j].generation == g && s.tasks[j].active;
      assert s'.tasks[j] == s.tasks[j];
    }
  }

  lemma SameLifecycle(s: State, s': State)
    requires LifecycleInv(s) && s'.tasks == s.tasks && s'.lifecycle.pending == s.lifecycle.pending
    requires forall c | c in s'.lifecycle.cancelled :: c.1 in Pending(s.lifecycle, c.0)
    ensures LifecycleInv(s')
  {
    forall k, g | k in s.lifecycle.pending && g in s.lifecycle.pending[k] ensures InFlight(s', k, g) {
      assert InFlight(s, k, g);
    }
  }

  /** A task leaves, giving up the finalization lock if it holds it. */
  lemma LeaveCore(s: State, i: nat)
    requires Core(s) && i in s.tasks
    ensures Core(Leave(s, i).(holder := if Final(s.tasks[i].phase) then Nobody else s.holder))
  {
    var t := s.tasks[i];
    var s' := Leave(s, i).(holder := if Final(t.phase) then Nobody else s.holder);
    FinishOthers(s.lifecycle, t.key, t.generation);
    hide Finish;
    LeaveTasks(s, s', i);
    LeaveHolder(s, s', i);
    if t.active {
      FinishLifecycle(s, s', i);
    } else {
      DropLifecycle(s, s', i);
    }
    hide LifecycleInv, TasksInv, PackagersInv, HolderInv;
    LeaveHistory(s, s');
  }

  lemma LeaveHolder(s: State, s': State, i: nat)
    requires i in s.tasks && HolderInv(s) && PackagersInv(s) && TasksInv(s)
    requires s' == Leave(s, i).(holder := if Final(s.tasks[i].phase) then Nobody else s.holder)
    ensures HolderInv(s') && PackagersInv(s')
  {
    var t := s.tasks[i];
    assert TaskInv(s, i, t);
    FinishOthers(s.lifecycle, t.key, t.generation);
    hide Finish, TaskInv, TasksInv, Fenced;
  }

  lemma LeaveTasks(s: State, s': State, i: nat)
    requires TasksInv(s) && LifecycleInv(s) && i in s.tasks
    requires s' == Leave(s, i).(holder := if Final(s.tasks[i].phase) then Nobody else s.holder)
    ensures TasksInv(s')
  {
    var t := s.tasks[i];
    assert TaskInv(s, i, t);
    forall j | j in s'.tasks ensures TaskInv(s', j, s'.tasks[j]) {
      assert TaskInv(s, j, s.tasks[j]);
      OtherTask(s, s', t.key, t.generation, j, s.tasks[j]);
    }
  }

  lemma LeaveHistory(s: State, s': State)
    requires HistoryInv(s) && SameView(s, s') && s'.published == s.published && s'.closedAt == s.closedAt
    requires s'.lifecycle.cancelled <= s.lifecycle.cancelled
    ensures HistoryInv(s')
  {
    forall c | c in s'.lifecycle.cancelled ensures StoppedBy(s', c.0, c.1) {
      assert StoppedBy(s, c.0, c.1);
    }
  }

  // ----- One task moves -------------------------------------------------------------------

  /** A task changes phase; the maps, the flags and the transitions stay. */
  lemma MoveCore(s: State, s': State, i: nat, t: Task)
    requires Core(s) && i in s.tasks && s'.tasks == s.tasks[i := t]
    requires t.key == s.tasks[i].key && t.generation == s.tasks[i].generation && t.active == s.tasks[i].active
    requires s' == s.(tasks := s'.tasks, holder := s'.holder, startLocks := s'.startLocks, ids := s'.ids,
                      occupied := s'.occupied, live := s'.live)
    requires s'.ids >= s.ids && TaskInv(s', i, t)
    requires s'.holder == s.holder || (s.holder == Nobody && s'.holder == Starting(i))
             || (s.holder == Starting(i) && s'.holder == Nobody)
    requires s'.startLocks == s.startLocks || (t.key !in s.startLocks && s'.startLocks == s.startLocks[t.key := i])
    ensures Core(s')
  {
    forall j | j in s'.tasks ensures TaskInv(s', j, s'.tasks[j]) {
      if j != i {
        assert TaskInv(s, j, s.tasks[j]);
        OtherTask(s, s', s.tasks[i].key, s.tasks[i].generation, j, s.tasks[j]);
      }
    }
    MoveLifecycle(s, s', i, t);
    LeaveHistory(s, s');
    hide TaskInv, LifecycleInv, HistoryInv;
  }

  lemma MoveLifecycle(s: State, s': State, i: nat, t: Task)
    requires LifecycleInv(s) && i in s.tasks && s'.tasks == s.tasks[i := t] && s'.lifecycle == s.lifecycle
    requires t.key == s.tasks[i].key && t.generation == s.tasks[i].generation && t.active == s.tasks[i].active
    ensures LifecycleInv(s')
  {
    forall k, g | k in s.lifecycle.pending && g in s.lifecycle.pending[k] ensures InFlight(s', k, g) {
      assert InFlight(s, k, g);
      var j :| j in s.tasks && s.tasks[j].key == k && s.tasks[j].generation == g && s.tasks[j].active;
      assert j in s'.tasks && s'.tasks[j].key == k && s'.tasks[j].generation == g && s'.tasks[j].active;
    }
  }

  lemma GetTask(s: State, i: nat)
    requires Core(s) && i in s.tasks
    ensures TaskInv(s, i, s.tasks[i])
  {
    hide TaskInv;
  }

  lemma CancelCore(s: State, i: nat)
    requires Core(s) && i in s.tasks
    ensures Core(PutTask(s, i, s.tasks[i].(cancel := true)))
  {
    hide Core;
    GetTask(s, i);
    var s' := PutTask(s, i, s.tasks[i].(cancel := true));
    assert TaskInv(s', i, s'.tasks[i]);
    hide TaskInv;
    MoveCore(s, s', i, s'.tasks[i]);
  }

  lemma LockCore(s: State, i: nat)
    requires Core(s) && CanLock(s, i)
    ensures Core(Lock(s, i))
  {
    hide Core;
    GetTask(s, i);
    var s' := Lock(s, i);
    assert TaskInv(s', i, s'.tasks[i]);
    hide TaskInv;
    MoveCore(s, s', i, s'.tasks[i]);
  }

  lemma LookCore(s: State, i: nat)
    requires Core(s) && CanLook(s, i)
    ensures Core(Look(s, i))
  {
    hide Core;
    GetTask(s, i);
    var s', t := Look(s, i), s.tasks[i];
    if t.key in s.sessions && t.hls {
      assert TaskInv(s', i, s'.tasks[i]);
      hide TaskInv;
      MoveCore(s, s', i, s'.tasks[i]);
    } else if t.key in s.sessions || (s.cap.Some? && s.occupied >= s.cap.value) {
      hide TaskInv;
      LeaveCore(s, i);
    } else {
      LookOpens(s, i);
    }
  }

  lemma LookOpens(s: State, i: nat)
    requires Core(s) && CanLook(s, i) && s.tasks[i].key !in s.sessions
    requires s.cap.Some? ==> s.occupied < s.cap.value
    ensures Core(Look(s, i))
  {
    hide Core;
    GetTask(s, i);
    var s' := Look(s, i);
    assert TaskInv(s', i, s'.tasks[i]);
    hide TaskInv;
    MoveCore(s, s', i, s'.tasks[i]);
  }

  lemma FinalizeCore(s: State, i: nat)
    requires Core(s) && CanFinalize(s, i)
    ensures Core(Finalize(s, i))
  {
    hide Core;
    GetTask(s, i);
    var s' := Finalize(s, i);
    assert TaskInv(s', i, s'.tasks[i]);
    hide TaskInv;
    MoveCore(s, s', i, s'.tasks[i]);
  }

  /** Resources do not matter here. */
  lemma SameCore(s: State, s': State)
    requires Core(s) && s' == s.(live := s'.live, occupied := s'.occupied, running := s'.running, ids := s'.ids)
    requires s'.ids >= s.ids
    ensures Core(s')
  {
    forall i | i in s.tasks ensures TaskInv(s', i, s.tasks[i]) {
      assert TaskInv(s, i, s.tasks[i]);
      OtherTask(s, s', s.tasks[i].key, s.lifecycle.next + 1, i, s.tasks[i]);
    }
    SameLifecycle(s, s');
    LeaveHistory(s, s');
    hide TaskInv, LifecycleInv, HistoryInv;
  }

  lemma OpenCore(s: State, i: nat, ok: bool)
    requires Core(s) && CanOpen(s, i)
    ensures Core(Open(s, i, ok))
  {
    hide Core;
    GetTask(s, i);
    var s' := Open(s, i, ok);
    if ok {
      assert TaskInv(s', i, s'.tasks[i]);
      hide TaskInv;
      MoveCore(s, s', i, s'.tasks[i]);
    } else {
      hide TaskInv;
      LeaveCore(s, i);
      SameCore(Leave(s, i), s');
    }
  }

  lemma DisposeCore(s: State, i: nat, ok: bool)
    requires Core(s) && CanDispose(s, i)
    ensures Core(Dispose(Leave(s, i), s.tasks[i].phase.source, ok))
  {
    hide Core;
    LeaveCore(s, i);
    SameCore(Leave(s, i), Dispose(Leave(s, i), s.tasks[i].phase.source, ok));
  }

  // ----- The publication fence ------------------------------------------------------------

  /** A task ends its transition and moves on. */
  lemma FinishCore(s: State, s': State, i: nat, t: Task)
    requires Core(s) && i in s.tasks && s.tasks[i].active && s.holder == Starting(i)
    requires t.key == s.tasks[i].key && t.generation == s.tasks[i].generation && !t.active
    requires s' == s.(tasks := s.tasks[i := t], holder := s'.holder,
                      lifecycle := Finish(s.lifecycle, t.key, t.generation))
    requires s'.holder == Nobody || s'.holder == Starting(i)
    requires TaskInv(s', i, t)
    ensures Core(s')
  {
    FinishOthers(s.lifecycle, t.key, t.generation);
    FinishLifecycle(s, s', i);
    hide Finish;
    forall j | j in s'.tasks ensures TaskInv(s', j, s'.tasks[j]) {
      if j != i {
        assert TaskInv(s, j, s.tasks[j]);
        OtherTask(s, s', t.key, t.generation, j, s.tasks[j]);
      }
    }
    hide TaskInv, LifecycleInv;
    LeaveHistory(s, s');
  }

  /** However a decision falls, the task keeps its source or had none and is gone. */
  ghost predicate KeepsSource(s: State, s': State, i: nat)
    requires i in s.tasks
  {
    && s'.live == s.live && s'.occupied == s.occupied && s'.cap == s.cap && s'.running == s.running && s'.ids == s.ids
    && s'.shutting == s.shutting && s'.published == s.published
    && if i in s'.tasks then
         s'.tasks == s.tasks[i := s'.tasks[i]] && SourceOf(s'.tasks[i].phase) == SourceOf(s.tasks[i].phase)
       else s'.tasks == s.tasks - {i} && SourceOf(s.tasks[i].phase).None?
  }

  lemma LeaveKeepsRest(s: State, i: nat)
    requires i in s.tasks && SourceOf(s.tasks[i].phase).None?
    ensures KeepsSource(s, Leave(s, i).(holder := Nobody), i)
  {
    hide Finish, SourceOf;
  }

  lemma AbandonKeeps(s: State, i: nat)
    requires CanDecide(s, i)
    ensures KeepsSource(s, Abandon(s, i), i)
  {
    hide Leave;
    if s.tasks[i].phase.holding.None? {
      LeaveKeepsRest(s, i);
    }
  }

  lemma DecideKeepsSource(s: State, i: nat, withdrawn: bool)
    requires CanDecide(s, i)
    ensures KeepsSource(s, Decide(s, i, withdrawn), i)
  {
    var t := s.tasks[i];
    if withdrawn || t.cancel {
      AbandonKeeps(s, i);
    } else if IsCancelled(s, t) || s.shutting {
      LateKeeps(s, i, if t.active then Finish(s.lifecycle, t.key, t.generation) else s.lifecycle);
    } else {
      hide Finish;
      assert s.tasks[i := t.(active := false)][i := t.(active := false, phase := Publishing(t.phase.holding))]
          == s.tasks[i := t.(active := false, phase := Publishing(t.phase.holding))];
    }
  }

  lemma LateKeeps(s: State, i: nat, l: Lifecycle)
    requires CanDecide(s, i)
    ensures
      var s1 := PutTask(s, i, s.tasks[i].(active := false)).(lifecycle := l);
      KeepsSource(s, Abandon(s1, i), i)
  {
    hide Abandon;
    var s1 := PutTask(s, i, s.tasks[i].(active := false)).(lifecycle := l);
    AbandonKeeps(s1, i);
    var s' := Abandon(s1, i);
    assert s1.tasks - {i} == s.tasks - {i};
    if i in s'.tasks {
      assert s1.tasks[i := s'.tasks[i]] == s.tasks[i := s'.tasks[i]];
    }
  }

  lemma AbandonCore(s: State, i: nat)
    requires Core(s) && CanDecide(s, i)
    ensures Core(Abandon(s, i))
  {
    hide Core;
    GetTask(s, i);
    var t, s' := s.tasks[i], Abandon(s, i);
    if t.phase.holding.Some? {
      assert TaskInv(s', i, s'.tasks[i]);
      hide TaskInv;
      MoveCore(s, s', i, s'.tasks[i]);
    } else {
      LeaveCore(s, i);
    }
  }

  lemma DecideCore(s: State, i: nat, withdrawn: bool)
    requires Core(s) && CanDecide(s, i)
    ensures Core(Decide(s, i, withdrawn))
  {
    hide Core;
    GetTask(s, i);
    var t := s.tasks[i];
    if withdrawn || t.cancel {
      hide TaskInv;
      AbandonCore(s, i);
    } else if !IsCancelled(s, t) && !s.shutting {
      DecidePublishes(s, i, withdrawn);
    } else if t.phase.holding.Some? {
      DecideDisposes(s, i, withdrawn);
    } else {
      assert Decide(s, i, withdrawn) == Leave(s, i).(holder := Nobody) by {
        assert s.tasks[i := t.(active := false)] - {i} == s.tasks - {i};
      }
      hide TaskInv;
      LeaveCore(s, i);
    }
  }

  lemma DecideDisposes(s: State, i: nat, withdrawn: bool)
    requires Core(s) && CanDecide(s, i) && !withdrawn && !s.tasks[i].cancel && s.tasks[i].phase.holding.Some?
    requires IsCancelled(s, s.tasks[i]) || s.shutting
    ensures Core(Decide(s, i, withdrawn))
  {
    hide Core;
    GetTask(s, i);
    var t := s.tasks[i];
    var t' := t.(active := false, phase := Disposing(t.phase.holding.value));
    var s' := s.(tasks := s.tasks[i := t'], holder := Nobody, lifecycle := Finish(s.lifecycle, t.key, t.generation));
    assert s.tasks[i := t.(active := false)][i := t'] == s.tasks[i := t'];
    assert Decide(s, i, withdrawn) == s';
    assert TaskInv(s', i, t') by {
      FinishOthers(s.lifecycle, t.key, t.generation);
    }
    hide TaskInv, Decide, Finish;
    FinishCore(s, s', i, t');
  }

  lemma DecidePublishes(s: State, i: nat, withdrawn: bool)
    requires Core(s) && CanDecide(s, i) && !withdrawn && !s.tasks[i].cancel
    requires !IsCancelled(s, s.tasks[i]) && !s.shutting
    ensures Core(Decide(s, i, withdrawn))
  {
    hide Core;
    GetTask(s, i);
    var t := s.tasks[i];
    var t' := t.(active := false, phase := Publishing(t.phase.holding));
    var s' := s.(tasks := s.tasks[i := t'], lifecycle := Finish(s.lifecycle, t.key, t.generation));
    assert s.tasks[i := t.(active := false)][i := t'] == s.tasks[i := t'];
    assert Decide(s, i, withdrawn) == s';
    assert TaskInv(s', i, t') by {
      FinishOthers(s.lifecycle, t.key, t.generation);
    }
    hide TaskInv, Decide, Finish;
    FinishCore(s, s', i, t');
  }

  /** An inactive task's generation is no longer cancelled, so every stop of its key came earlier. */
  lemma PublisherIsPast(s: State, i: nat, m: nat)
    requires Core(s) && i in s.tasks && !s.tasks[i].active && !s.tasks[i].phase.Disposing?
    requires m < |s.stops| && s.stops[m].key == s.tasks[i].key
    ensures s.tasks[i].generation > s.stops[m].bound
  {
    var t := s.tasks[i];
    assert TaskInv(s, i, t);
    assert IsCancelled(s, t) ==> InFlight(s, t.key, t.generation);
    assert !InFlight(s, t.key, t.generation);
  }

  /** The state right after a session is inserted. */
  ghost function Inserted(s: State, i: nat): State
    requires CanPublish(s, i) && s.tasks[i].phase.holding.Some?
  {
    var t := s.tasks[i];
    var r := t.phase.holding.value;
    s.(ids := s.ids + 1, sessions := s.sessions[t.key := s.ids], running := s.running[s.ids := r],
       live := s.live[r := AtSession(s.ids)], published := s.published + [Publication(t.key, t.generation, s.ids, false)],
       tasks := s.tasks[i := t.(phase := Packaging(s.ids))])
  }

  lemma InsertedCore(s: State, i: nat)
    requires Core(s) && CanPublish(s, i) && s.tasks[i].phase.holding.Some?
    ensures Core(Inserted(s, i))
  {
    var t, s' := s.tasks[i], Inserted(s, i);
    assert TaskInv(s, i, t);
    InsertedTasks(s, i);
    InsertedHistory(s, i);
    MoveLifecycle(s, s', i, s'.tasks[i]);
    assert PackagersInv(s') && HolderInv(s') by {
      hide LifecycleInv, HistoryInv, TasksInv;
    }
  }

  lemma InsertedTasks(s: State, i: nat)
    requires Core(s) && CanPublish(s, i) && s.tasks[i].phase.holding.Some?
    ensures TasksInv(Inserted(s, i))
  {
    var t, s' := s.tasks[i], Inserted(s, i);
    assert TaskInv(s, i, t);
    hide LifecycleInv, HistoryInv, PackagersInv;
    forall j | j in s'.tasks ensures TaskInv(s', j, s'.tasks[j]) {
      assert TaskInv(s, j, s.tasks[j]);
    }
  }

  lemma InsertedHistory(s: State, i: nat)
    requires Core(s) && CanPublish(s, i) && s.tasks[i].phase.holding.Some?
    ensures HistoryInv(Inserted(s, i))
  {
    var t, s' := s.tasks[i], Inserted(s, i);
    assert TaskInv(s, i, t);
    forall m | 0 <= m < |s.stops| && s.stops[m].key == t.key ensures t.generation > s.stops[m].bound {
      PublisherIsPast(s, i, m);
    }
    forall c | c in s'.lifecycle.cancelled ensures StoppedBy(s', c.0, c.1) {
      assert StoppedBy(s, c.0, c.1);
    }
    hide LifecycleInv, TasksInv, PackagersInv, TaskInv;
  }

  /** The two ways a publication can go: the seen session is there, or the source makes a new one. */
  lemma PublishShape(s: State, i: nat)
    requires CanPublish(s, i)
    requires var t := s.tasks[i];
             if t.phase.holding.None? then t.hls && t.key in s.sessions else t.key !in s.sessions
    ensures
      var t := s.tasks[i];
      Publish(s, i) ==
        if t.phase.holding.None? then PutTask(s, i, t.(phase := Packaging(s.sessions[t.key])))
        else if t.hls then Inserted(s, i)
        else Leave(Inserted(s, i), i).(holder := Nobody)
  {
    var t := s.tasks[i];
    if t.phase.holding.Some? && !t.hls {
      assert Inserted(s, i).tasks - {i} == s.tasks - {i};
    }
  }

  lemma PublisherReady(s: State, i: nat)
    requires Core(s) && CanPublish(s, i)
    ensures var t := s.tasks[i];
            if t.phase.holding.None? then t.hls && t.key in s.sessions else t.key !in s.sessions
  {
    GetTask(s, i);
    hide Core, Fenced, SeenOk;
  }

  /** Publication always inserts, and always has a source when it must. */
  lemma PublishCore(s: State, i: nat)
    requires Core(s) && CanPublish(s, i)
    ensures Core(Publish(s, i))
    ensures s.tasks[i].phase.holding.Some? ==> s.tasks[i].key !in s.sessions
  {
    hide Core, Publish;
    GetTask(s, i);
    PublishShape(s, i);
    var t, s' := s.tasks[i], Publish(s, i);
    if t.phase.holding.None? {
      assert TaskInv(s', i, s'.tasks[i]);
      hide TaskInv;
      MoveCore(s, s', i, s'.tasks[i]);
    } else {
      hide TaskInv;
      InsertedCore(s, i);
      LeaveCore(Inserted(s, i), i);
    }
  }

  lemma PackageCore(s: State, i: nat)
    requires Core(s) && CanPackage(s, i)
    ensures Core(Package(s, i))
  {
    GetTask(s, i);
    LeaveCore(s, i);
    assert PackagersInv(s);
    var t, left := s.tasks[i], Leave(s, i).(holder := Nobody);
    if t.key !in s.packagers {
      var p := Publication(t.key, t.generation, t.phase.session, true);
      forall m | 0 <= m < |s.stops| && s.stops[m].key == t.key ensures t.generation > s.stops[m].bound {
        PublisherIsPast(s, i, m);
      }
      PackagersCore(left, left.(packagers := s.packagers[t.key := t.phase.session]));
      hide Core, TaskInv, Leave;
      PublishedCore(left.(packagers := s.packagers[t.key := t.phase.session]), p);
    }
  }

  /** A publication that is past every stop of its key is recorded. */
  lemma PublishedCore(s: State, p: Publication)
    requires Core(s) && !s.shutting
    requires forall m | 0 <= m < |s.stops| :: s.stops[m].key == p.key ==> p.generation > s.stops[m].bound
    ensures Core(s.(published := s.published + [p]))
  {
    var s' := s.(published := s.published + [p]);
    forall i | i in s.tasks ensures TaskInv(s', i, s.tasks[i]) {
      assert TaskInv(s, i, s.tasks[i]);
    }
    SameLifecycle(s, s');
    hide TaskInv, LifecycleInv, HistoryInv;
    PublishedHistory(s, p);
  }

  lemma PublishedHistory(s: State, p: Publication)
    requires HistoryInv(s) && !s.shutting
    requires forall m | 0 <= m < |s.stops| :: s.stops[m].key == p.key ==> p.generation > s.stops[m].bound
    ensures HistoryInv(s.(published := s.published + [p]))
  {
    var s' := s.(published := s.published + [p]);
    forall c | c in s'.lifecycle.cancelled ensures StoppedBy(s', c.0, c.1) {
      assert StoppedBy(s, c.0, c.1);
    }
  }

  /** The packager map changes and nothing else. */
  lemma PackagersCore(s: State, s': State)
    requires Core(s) && s' == s.(packagers := s'.packagers, holder := s'.holder)
    requires PackagersInv(s') && HolderInv(s') && !s.holder.Starting? && !s'.holder.Starting?
    ensures Core(s')
  {
    forall i | i in s.tasks ensures TaskInv(s', i, s.tasks[i]) {
      assert TaskInv(s, i, s.tasks[i]);
      OtherTask(s, s', s.tasks[i].key, s.lifecycle.next + 1, i, s.tasks[i]);
    }
    SameLifecycle(s, s');
    hide TaskInv, LifecycleInv;
    LeaveHistory(s, s');
  }

  // ----- Registering and stopping ---------------------------------------------------------

  lemma RegisterCore(s: State, k: Key, hls: bool)
    requires Core(s) && CanRegister(s)
    ensures Core(Register(s, k, hls))
  {
    var s' := Register(s, k, hls);
    RegisterTasks(s, k, hls);
    assert LifecycleInv(s') by {
      assert s.ids !in s.tasks && forall j | j in s.tasks :: s.tasks[j].generation <= s.lifecycle.next by {
        assert forall j | j in s.tasks :: TaskInv(s, j, s.tasks[j]);
      }
      RegisterLifecycle(s, k, hls);
    }
    hide TasksInv, LifecycleInv, Begin;
    RegisterHistory(s, s');
  }

  lemma RegisterTasks(s: State, k: Key, hls: bool)
    requires Core(s) && CanRegister(s)
    ensures TasksInv(Register(s, k, hls))
  {
    var s' := Register(s, k, hls);
    assert forall k', g | g in Pending(s.lifecycle, k') :: g in Pending(s'.lifecycle, k');
    forall j | j in s'.tasks ensures TaskInv(s', j, s'.tasks[j]) {
      if j != s.ids {
        assert TaskInv(s, j, s.tasks[j]);
      } else {
        assert HistoryInv(s);
      }
    }
  }

  lemma RegisterLifecycle(s: State, k: Key, hls: bool)
    requires LifecycleInv(s) && s.ids !in s.tasks && forall j | j in s.tasks :: s.tasks[j].generation <= s.lifecycle.next
    ensures LifecycleInv(Register(s, k, hls))
  {
    var s' := Register(s, k, hls);
    assert forall j | j in s.tasks :: s'.tasks[j] == s.tasks[j];
    forall k', g | k' in s'.lifecycle.pending && g in s'.lifecycle.pending[k'] ensures InFlight(s', k', g) {
      if k' == k && g == s'.lifecycle.next {
        assert s'.tasks[s.ids].active;
      } else {
        assert InFlight(s, k', g);
        var j :| j in s.tasks && s.tasks[j].key == k' && s.tasks[j].generation == g && s.tasks[j].active;
        assert s'.tasks[j].active;
      }
    }
  }

  lemma RegisterHistory(s: State, s': State)
    requires HistoryInv(s) && s'.lifecycle.cancelled == s.lifecycle.cancelled && s'.lifecycle.next >= s.lifecycle.next
    requires s'.stops == s.stops && s'.published == s.published && s'.shutting == s.shutting && s'.closedAt == s.closedAt
    ensures HistoryInv(s')
  {
    forall c | c in s'.lifecycle.cancelled ensures StoppedBy(s', c.0, c.1) {
      assert StoppedBy(s, c.0, c.1);
    }
  }

  lemma StopCore(s: State, k: Key)
    requires Core(s) && CanStop(s)
    ensures Core(Stop(s, k))
  {
    var s' := Stop(s, k);
    StopTasks(s, k);
    StopHistory(s, k);
    SameLifecycle(s, s');
    hide LifecycleInv, TasksInv, HistoryInv;
  }

  lemma StopTasks(s: State, k: Key)
    requires Core(s) && CanStop(s)
    ensures TasksInv(Stop(s, k))
  {
    var s' := Stop(s, k);
    hide LifecycleInv, HistoryInv, PackagersInv;
    forall j | j in s'.tasks ensures TaskInv(s', j, s'.tasks[j]) {
      assert TaskInv(s, j, s.tasks[j]);
    }
  }

  lemma StopHistory(s: State, k: Key)
    requires Core(s) && CanStop(s)
    ensures HistoryInv(Stop(s, k))
  {
    var s' := Stop(s, k);
    var mark := |s.stops|;
    hide PackagersInv, HolderInv, Fenced, SeenOk;
    assert s'.stops[mark] == StopMark(k, s.lifecycle.next, |s.published|);
    forall c | c in s'.lifecycle.cancelled ensures StoppedBy(s', c.0, c.1) {
      if c in s.lifecycle.cancelled {
        assert StoppedBy(s, c.0, c.1);
        var m :| 0 <= m < |s.stops| && s.stops[m].key == c.0 && c.1 <= s.stops[m].bound;
        assert s'.stops[m] == s.stops[m];
      } else {
        assert InFlight(s, c.0, c.1);
        var i :| i in s.tasks && s.tasks[i].key == c.0 && s.tasks[i].generation == c.1 && s.tasks[i].active;
        assert TaskInv(s, i, s.tasks[i]);
        assert s'.stops[mark].key == c.0 && c.1 <= s'.stops[mark].bound;
      }
    }
  }

  lemma StopPackagerCore(s: State)
    requires Core(s) && s.holder.StopCancelled?
    ensures Core(StopPackager(s))
  {
    hide TasksInv, LifecycleInv, HistoryInv;
    assert PackagersInv(StopPackager(s)) && HolderInv(StopPackager(s));
    hide Core;
    PackagersCore(s, StopPackager(s));
  }

  lemma ReapPackagersCore(s: State)
    requires Core(s) && s.holder.ReapRemoved?
    ensures Core(ReapPackagers(s))
  {
    hide TasksInv, LifecycleInv, HistoryInv;
    assert PackagersInv(ReapPackagers(s)) && HolderInv(ReapPackagers(s));
    hide Core;
    PackagersCore(s, ReapPackagers(s));
  }

  lemma SnapshotCore(s: State)
    requires Core(s) && s.holder == Nobody
    ensures Core(Snapshot(s))
  {
    hide TasksInv, LifecycleInv, HistoryInv;
    assert PackagersInv(Snapshot(s)) && HolderInv(Snapshot(s));
    hide Core;
    PackagersCore(s, Snapshot(s));
  }

  lemma ShutdownPackagersCore(s: State)
    requires Core(s) && s.holder.ShutdownFlagged?
    ensures Core(s.(holder := ShutdownUnpackaged, packagers := map[]))
  {
    hide TasksInv, LifecycleInv, HistoryInv;
    var s' := s.(holder := ShutdownUnpackaged, packagers := map[]);
    assert PackagersInv(s') && HolderInv(s');
    hide Core;
    PackagersCore(s, s');
  }

  // ----- Removing sessions ----------------------------------------------------------------

  /** Sessions go while no start finalizes, none of them seen by a start that may still publish. */
  lemma RemoveCore(s: State, s': State)
    requires Core(s) && !s.holder.Starting? && !s'.holder.Starting?
    requires s' == s.(sessions := s'.sessions, packagers := s'.packagers, holder := s'.holder)
    requires forall k | k in s'.sessions :: k in s.sessions && s'.sessions[k] == s.sessions[k]
    requires forall i | i in s.tasks && s.tasks[i].phase.Seen? ::
      s.tasks[i].key in s'.sessions || s.tasks[i].key !in s.sessions || IsCancelled(s, s.tasks[i]) || s.shutting
    requires PackagersInv(s') && HolderInv(s')
    ensures Core(s')
  {
    forall i | i in s.tasks ensures TaskInv(s', i, s.tasks[i]) {
      assert TaskInv(s, i, s.tasks[i]);
    }
    SameLifecycle(s, s');
    hide TaskInv, LifecycleInv, PackagersInv;
    RegisterHistory(s, s');
  }

  /** A start that saw a session is in flight: its key is pending. */
  lemma SeenIsPending(s: State, i: nat)
    requires Core(s) && i in s.tasks && s.tasks[i].phase.Seen?
    ensures s.tasks[i].key in s.lifecycle.pending && s.tasks[i].generation in s.lifecycle.pending[s.tasks[i].key]
  {
    assert TaskInv(s, i, s.tasks[i]);
  }

  lemma StopSessionCore(s: State)
    requires Core(s) && s.holder.StopUnpackaged?
    ensures Core(StopSession(s))
  {
    forall i | i in s.tasks && s.tasks[i].phase.Seen?
      ensures s.tasks[i].key in StopSession(s).sessions || s.tasks[i].key !in s.sessions || IsCancelled(s, s.tasks[i])
    {
      SeenIsPending(s, i);
    }
    hide TasksInv, LifecycleInv, HistoryInv;
    assert PackagersInv(StopSession(s)) && HolderInv(StopSession(s));
    hide Core, PackagersInv, HolderInv;
    RemoveCore(s, StopSession(s));
  }

  lemma ReapSessionsCore(s: State, expired: set<Key>)
    requires Core(s) && CanReap(s, expired)
    ensures Core(ReapSessions(s, expired))
  {
    var s' := ReapSessions(s, expired);
    forall i | i in s.tasks && s.tasks[i].phase.Seen?
      ensures s.tasks[i].key in s'.sessions || s.tasks[i].key !in s.sessions
    {
      SeenIsPending(s, i);
    }
    hide TasksInv, LifecycleInv, HistoryInv;
    assert PackagersInv(s') && HolderInv(s');
    hide Core, PackagersInv, HolderInv;
    RemoveCore(s, s');
  }

  lemma ReleaseCore(s: State, k: Key, x: nat)
    requires Core(s) && CanRelease(s, k, x)
    ensures Core(Release(s, k))
  {
    var s' := Release(s, k);
    forall i | i in s.tasks && s.tasks[i].phase.Seen?
      ensures s.tasks[i].key in s'.sessions || s.tasks[i].key !in s.sessions
    {
      SeenIsPending(s, i);
    }
    hide TasksInv, LifecycleInv, HistoryInv;
    assert PackagersInv(s') && HolderInv(s');
    hide Core, PackagersInv, HolderInv;
    RemoveCore(s, s');
  }

  lemma ShutdownSessionsCore(s: State)
    requires Core(s) && s.holder.ShutdownUnpackaged?
    ensures Core(s.(holder := Nobody, sessions := map[]))
  {
    hide TasksInv, LifecycleInv, HistoryInv;
    var s' := s.(holder := Nobody, sessions := map[]);
    assert PackagersInv(s') && HolderInv(s');
    RemoveCore(s, s');
  }

  lemma ShutdownCore(s: State)
    requires Core(s) && s.holder == Nobody
    ensures Core(Shutdown(s))
  {
    var s' := Shutdown(s);
    ShutdownTasks(s);
    SameLifecycle(s, s');
    hide TasksInv, LifecycleInv, PackagersInv;
    assert PackagersInv(s') by {
      ShutdownPackagersInv(s);
    }
    forall c | c in s'.lifecycle.cancelled ensures StoppedBy(s', c.0, c.1) {
      assert StoppedBy(s, c.0, c.1);
    }
  }

  lemma ShutdownPackagersInv(s: State)
    requires PackagersInv(s) && s.holder == Nobody
    ensures PackagersInv(Shutdown(s))
  {
  }

  lemma ShutdownTasks(s: State)
    requires TasksInv(s) && s.holder == Nobody
    ensures TasksInv(Shutdown(s))
  {
    forall i | i in s.tasks ensures TaskInv(Shutdown(s), i, s.tasks[i]) {
      assert TaskInv(s, i, s.tasks[i]);
    }
  }
}
