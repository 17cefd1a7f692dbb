/** What the stream manager promises over every interleaving. */
module ManagerTheorems {
  import opened Ts
  import opened Manager
  import opened ManagerInvariants
  import opened ManagerResources

  // ----- Every step -----------------------------------------------------------------------

  ghost predicate OfTask(t: Step) {
    || t.SRegister? || t.SCancel? || t.SLeave? || t.SLock? || t.SLook? || t.SOpen? || t.SFinalize?
    || t.SDecide? || t.SPublish? || t.SPackage? || t.SDispose?
  }

  lemma TaskStepCore(s: State, t: Step)
    requires Core(s) && Enabled(s, t) && OfTask(t)
    ensures Core(Apply(s, t))
  {
    hide Core, Look, Open, Decide, Publish, Package, Finalize, Lock, Register;
    match t
    case SRegister(k, hls) => RegisterCore(s, k, hls);
    case SCancel(i) => CancelCore(s, i);
    case SLeave(i) => LeaveCore(s, i);
    case SLock(i) => LockCore(s, i);
    case SLook(i) => LookCore(s, i);
    case SOpen(i, ok) => OpenCore(s, i, ok);
    case SFinalize(i) => FinalizeCore(s, i);
    case SDecide(i, withdrawn) => DecideCore(s, i, withdrawn);
    case SPublish(i) => PublishCore(s, i);
    case SPackage(i) => PackageCore(s, i);
    case SDispose(i, ok) => DisposeCore(s, i, ok);
    case _ =>
  }

  ghost predicate OfResources(t: Step) {
    t.SEndSession? || t.SReserveVod? || t.SShareVod? || t.SDropVod?
  }

  lemma ResourceStepCore(s: State, t: Step)
    requires Core(s) && Enabled(s, t) && OfResources(t)
    ensures Core(Apply(s, t))
  {
    hide Core, EndSession, ReserveVod, ShareVod, DropVod, CanEndSession, CanReserveVod, CanHandle;
    match t
    case SEndSession(x, ok) => EndSessionCore(s, x, ok);
    case SReserveVod => ReserveVodCore(s);
    case SShareVod(r) => ShareVodCore(s, r);
    case SDropVod(r) => DropVodCore(s, r);
    case _ =>
  }

  lemma EndSessionCore(s: State, x: nat, ok: bool)
    requires Core(s) && CanEndSession(s, x)
    ensures Core(EndSession(s, x, ok))
  {
    hide Core;
    SameCore(s, EndSession(s, x, ok));
  }

  lemma ReserveVodCore(s: State)
    requires Core(s) && CanReserveVod(s)
    ensures Core(ReserveVod(s))
  {
    hide Core;
    SameCore(s, ReserveVod(s));
  }

  lemma ShareVodCore(s: State, r: nat)
    requires Core(s) && CanHandle(s, r)
    ensures Core(ShareVod(s, r))
  {
    hide Core;
    SameCore(s, ShareVod(s, r));
  }

  lemma DropVodCore(s: State, r: nat)
    requires Core(s) && CanHandle(s, r)
    ensures Core(DropVod(s, r))
  {
    hide Core;
    SameCore(s, DropVod(s, r));
  }

  lemma OtherStepCore(s: State, t: Step)
    requires Core(s) && Enabled(s, t) && !OfTask(t)
    ensures Core(Apply(s, t))
  {
    hide Core, Stop, StopPackager, StopSession, Snapshot, ReapSessions, ReapPackagers, Release, Shutdown, Destroy, Retain;
    match t
    case SStop(k) => StopCore(s, k);
    case SStopPackager => StopPackagerCore(s);
    case SStopSession => StopSessionCore(s);
    case SSnapshot => SnapshotCore(s);
    case SReapSessions(expired) => ReapSessionsCore(s, expired);
    case SReapPackagers => ReapPackagersCore(s);
    case SRelease(k, x) => ReleaseCore(s, k, x);
    case SShutdown => ShutdownCore(s);
    case SShutdownPackagers => ShutdownPackagersCore(s);
    case SShutdownSessions => ShutdownSessionsCore(s);
    case _ => ResourceStepCore(s, t);
  }

  lemma TaskStepResources(s: State, t: Step)
    requires Inv(s) && Enabled(s, t) && OfTask(t)
    ensures ResourcesInv(Apply(s, t))
  {
    hide Core, ResourcesInv, Look, Decide, Publish, Register, Leave, Dispose;
    match t
    case SRegister(k, hls) => RegisterKeeps(s, k, hls);
    case SCancel(i) => MoveKeeps(s, Apply(s, t), i, s.tasks[i].(cancel := true));
    case SLeave(i) => LeaveHolds(s, i);
    case SLock(i) => MoveKeeps(s, Apply(s, t), i, s.tasks[i].(phase := Locked));
    case SLook(i) => LookKeeps(s, i);
    case SOpen(i, ok) => OpenKeeps(s, i, ok);
    case SFinalize(i) => MoveKeeps(s, Apply(s, t), i, Apply(s, t).tasks[i]);
    case SDecide(i, withdrawn) => DecideKeeps(s, i, withdrawn);
    case SPublish(i) => PublishKeeps(s, i);
    case SPackage(i) => PackageKeeps(s, i);
    case SDispose(i, ok) => DisposeKeeps(s, i, s.tasks[i].phase.source, ok);
    case _ =>
  }

  lemma OpenKeeps(s: State, i: nat, ok: bool)
    requires ResourcesInv(s) && CanOpen(s, i)
    ensures ResourcesInv(Open(s, i, ok))
  {
    hide ResourcesInv, Leave;
    var r := s.tasks[i].phase.source;
    if ok {
      MoveKeeps(s, Open(s, i, ok), i, s.tasks[i].(phase := Opened(r)));
    } else {
      DisposeKeeps(s, i, r, true);
    }
  }

  lemma PackageKeeps(s: State, i: nat)
    requires ResourcesInv(s) && CanPackage(s, i)
    ensures ResourcesInv(Package(s, i))
  {
    hide ResourcesInv, Finish;
    LeaveKeeps(s, Package(s, i), i);
  }

  lemma OtherStepResources(s: State, t: Step)
    requires Inv(s) && Enabled(s, t) && !OfTask(t)
    ensures ResourcesInv(Apply(s, t))
  {
    hide Core, Accounts, Held;
    match t
    case SEndSession(x, ok) => EndSessionKeeps(s, x, ok);
    case SReserveVod => ReserveVodKeeps(s);
    case SShareVod(r) => VodKeeps(s, r, s.live[r].handles + 1);
    case SDropVod(r) => VodKeeps(s, r, if s.live[r].handles == 1 then 1 else s.live[r].handles - 1);
    case _ =>
  }

  lemma StepInv(s: State, t: Step)
    requires Inv(s) && Enabled(s, t)
    ensures Inv(Apply(s, t))
  {
    hide Core, ResourcesInv, Enabled, Apply;
    if OfTask(t) {
      TaskStepCore(s, t);
      TaskStepResources(s, t);
    } else {
      OtherStepCore(s, t);
      OtherStepResources(s, t);
    }
  }

  lemma {:induction false} RunInv(s: State, steps: seq<Step>)
    requires Inv(s) && CanRun(s, steps)
    ensures Inv(Run(s, steps))
    decreases |steps|
  {
    hide Inv, Apply, Enabled;
    if steps != [] {
      StepInv(s, steps[0]);
      RunInv(Apply(s, steps[0]), steps[1..]);
    }
  }

  lemma StartInv(cap: Option<nat>)
    ensures Inv(Start(cap))
  {
  }

  lemma Reached(cap: Option<nat>, steps: seq<Step>)
    requires CanRun(Start(cap), steps)
    ensures Inv(Run(Start(cap), steps))
  {
    StartInv(cap);
    RunInv(Start(cap), steps);
  }

  // ----- Publication ----------------------------------------------------------------------

  /** No interleaving makes an HLS start find neither the session it saw nor a source. */
  lemma PublicationHasSource(cap: Option<nat>, steps: seq<Step>)
    requires CanRun(Start(cap), steps)
    ensures !Run(Start(cap), steps).panicked
  {
    Reached(cap, steps);
  }

  /** A session seen under the start lock is the published one at finalization, or the start was
      cancelled, or shutdown began. */
  lemma SeenSessionStays(cap: Option<nat>, steps: seq<Step>, i: nat)
    requires CanRun(Start(cap), steps) && i in Run(Start(cap), steps).tasks
    requires var p := Run(Start(cap), steps).tasks[i].phase; p.Seen? || (p.Finalizing? && p.holding.None?)
    ensures
      var s := Run(Start(cap), steps);
      var t := s.tasks[i];
      || IsCancelled(s, t) || s.shutting
      || (t.key in s.sessions && Some(s.sessions[t.key]) == if t.phase.Seen? then Some(t.phase.session) else t.phase.seen)
  {
    Reached(cap, steps);
    var s := Run(Start(cap), steps);
    GetTask(s, i);
    hide Core, Fenced;
  }

  /** Whenever the finalization lock is free, each packager's key has a session, the one the
      packager was built from. */
  lemma PackagersMatch(cap: Option<nat>, steps: seq<Step>, k: Key)
    requires CanRun(Start(cap), steps)
    requires var s := Run(Start(cap), steps); s.holder == Nobody && k in s.packagers
    ensures var s := Run(Start(cap), steps); k in s.sessions && s.packagers[k] == s.sessions[k]
  {
    Reached(cap, steps);
  }

  /** Per key one start at a time holds a source, and only while the key has no session: every
      publication inserts. */
  lemma SingleFlight(cap: Option<nat>, steps: seq<Step>, i: nat, j: nat)
    requires CanRun(Start(cap), steps)
    requires var s := Run(Start(cap), steps);
             && i in s.tasks && j in s.tasks && s.tasks[i].key == s.tasks[j].key
             && SourceOf(s.tasks[i].phase).Some? && SourceOf(s.tasks[j].phase).Some?
    ensures i == j
    ensures var s := Run(Start(cap), steps); !s.tasks[i].phase.Disposing? ==> s.tasks[i].key !in s.sessions
  {
    Reached(cap, steps);
    var s := Run(Start(cap), steps);
    GetTask(s, i);
    GetTask(s, j);
    hide Core, Fenced;
  }

  // ----- The stop fence -------------------------------------------------------------------

  /** A session or packager published after a stop of its key was registered after that stop. */
  lemma StopFence(cap: Option<nat>, steps: seq<Step>, m: nat, j: nat)
    requires CanRun(Start(cap), steps)
    requires var s := Run(Start(cap), steps);
             && m < |s.stops| && s.stops[m].at <= j < |s.published| && s.published[j].key == s.stops[m].key
    ensures var s := Run(Start(cap), steps); s.published[j].generation > s.stops[m].bound
  {
    Reached(cap, steps);
  }

  /** Only a stop that came after its registration cancels a start. */
  lemma CancelledByStop(cap: Option<nat>, steps: seq<Step>, k: Key, g: nat)
    requires CanRun(Start(cap), steps) && (k, g) in Run(Start(cap), steps).lifecycle.cancelled
    ensures StoppedBy(Run(Start(cap), steps), k, g)
  {
    Reached(cap, steps);
  }

  /** Cancelled starts are pending ones, and without a start in flight neither is left. */
  lemma NothingLeftBehind(cap: Option<nat>, steps: seq<Step>)
    requires CanRun(Start(cap), steps)
    ensures
      var s := Run(Start(cap), steps);
      && (forall c | c in s.lifecycle.cancelled :: c.1 in Pending(s.lifecycle, c.0))
      && (s.tasks == map[] ==> s.lifecycle.pending == map[] && s.lifecycle.cancelled == {})
  {
    Reached(cap, steps);
    var s := Run(Start(cap), steps);
    forall k | k in s.lifecycle.pending ensures s.tasks != map[] {
      PendingHasTask(s, k);
    }
  }

  lemma PendingHasTask(s: State, k: Key)
    requires LifecycleInv(s) && k in s.lifecycle.pending
    ensures s.tasks != map[]
  {
    var g :| g in s.lifecycle.pending[k];
    assert InFlight(s, k, g);
  }

  /** Neither a session nor a packager is published once shutdown has set its flag. */
  lemma {:induction false} ShutdownIsFinal(s: State, steps: seq<Step>)
    requires Inv(s) && CanRun(s, steps) && s.shutting
    ensures Run(s, steps).shutting && |Run(s, steps).published| == |s.published|
    decreases |steps|
  {
    hide Inv, Apply, Enabled;
    if steps != [] {
      StepInv(s, steps[0]);
      StaysShut(s, steps[0]);
      ShutdownIsFinal(Apply(s, steps[0]), steps[1..]);
    }
  }

  lemma StaysShut(s: State, t: Step)
    requires Inv(s) && Enabled(s, t) && s.shutting
    ensures Apply(s, t).shutting && Apply(s, t).published == s.published
  {
    if t.SPublish? || t.SPackage? {
      GetTask(s, t.i);
      hide Core, Fenced, SeenOk, Publish, Package;
    } else {
      hide Core, ResourcesInv;
      StepIsSteady(s, t);
    }
  }

  /** Only publishing publishes, and no step reopens the manager or moves the cap. */
  ghost predicate Steady(s: State, s': State) {
    s'.cap == s.cap && s'.published == s.published && (s.shutting ==> s'.shutting)
  }

  lemma StepIsSteady(s: State, t: Step)
    requires Enabled(s, t) && !t.SPublish? && !t.SPackage?
    ensures Steady(s, Apply(s, t))
  {
    if t.SDecide? {
      DecideKeepsSource(s, t.i, t.withdrawn);
      hide Decide;
    } else if OfTask(t) {
      TaskIsSteady(s, t);
    } else {
      OtherIsSteady(s, t);
    }
  }

  lemma TaskIsSteady(s: State, t: Step)
    requires Enabled(s, t) && OfTask(t) && !t.SPublish? && !t.SPackage? && !t.SDecide?
    ensures Steady(s, Apply(s, t))
  {
    if t.SLeave? {
      hide Finish;
    } else if t.SLook? || t.SOpen? || t.SDispose? {
      LeavingIsSteady(s, t);
    } else {
      hide Begin;
    }
  }

  lemma LeavingIsSteady(s: State, t: Step)
    requires Enabled(s, t) && (t.SLook? || t.SOpen? || t.SDispose?)
    ensures Steady(s, Apply(s, t))
  {
    LeaveIsSteady(s, t.i);
    if t.SDispose? || (t.SOpen? && !t.ok) {
      var r := s.tasks[t.i].phase.source;
      DisposeIsSteady(Leave(s, t.i), r, true);
      DisposeIsSteady(Leave(s, t.i), r, false);
    }
    hide Leave, Destroy, Retain;
  }

  lemma DisposeIsSteady(s: State, r: nat, ok: bool)
    ensures Steady(s, Dispose(s, r, ok))
  {
  }

  lemma LeaveIsSteady(s: State, i: nat)
    requires i in s.tasks
    ensures Steady(s, Leave(s, i))
  {
    hide Finish;
  }

  lemma OtherIsSteady(s: State, t: Step)
    requires Enabled(s, t) && !OfTask(t)
    ensures Steady(s, Apply(s, t))
  {
    hide CancelAll, Destroy, Retain;
    if t.SEndSession? || t.SReserveVod? || t.SShareVod? || t.SDropVod? {
      ResourceIsSteady(s, t);
    }
  }

  lemma ResourceIsSteady(s: State, t: Step)
    requires Enabled(s, t) && (t.SEndSession? || t.SReserveVod? || t.SShareVod? || t.SDropVod?)
    ensures Steady(s, Apply(s, t))
  {
    if t.SEndSession? {
      DisposeIsSteady(s, s.running[t.x], t.ok);
      hide Dispose;
    } else if t.SDropVod? {
      DisposeIsSteady(s, t.r, true);
      hide Destroy;
    }
  }

  // ----- Reservations ---------------------------------------------------------------------

  /** The counter is the number of live reservations and never exceeds the cap; each belongs to a
      start that holds its source, a session not yet destroyed, a retained failure or shared content. */
  lemma ReservationsExact(cap: Option<nat>, steps: seq<Step>)
    requires CanRun(Start(cap), steps)
    ensures
      var s := Run(Start(cap), steps);
      && s.occupied == |s.live| && (cap.Some? ==> s.occupied <= cap.value)
      && Accounts(Held(s.tasks), s.running, s.live, s.occupied, s.ids)
      && (AllGone(s) ==> s.occupied == 0)
  {
    Reached(cap, steps);
    CapIsFixed(Start(cap), steps);
    var s := Run(Start(cap), steps);
    hide Core;
    if AllGone(s) {
      assert s.live.Keys == {};
    }
  }

  /** No start, no session, no shared content and no failure is left. */
  ghost predicate AllGone(s: State) {
    s.tasks == map[] && s.running == map[] && forall r | r in s.live :: !s.live[r].Failed? && !s.live[r].AtVod?
  }

  /** The cap is the one the manager was made with. */
  lemma {:induction false} CapIsFixed(s: State, steps: seq<Step>)
    requires CanRun(s, steps)
    ensures Run(s, steps).cap == s.cap
    decreases |steps|
  {
    hide Apply, Enabled;
    if steps != [] {
      StepKeepsCap(s, steps[0]);
      CapIsFixed(Apply(s, steps[0]), steps[1..]);
    }
  }

  lemma StepKeepsCap(s: State, t: Step)
    requires Enabled(s, t)
    ensures Apply(s, t).cap == s.cap
  {
    if t.SPublish? || t.SPackage? {
      hide Finish;
    } else {
      StepIsSteady(s, t);
      hide Apply;
    }
  }
}
