/** The stream manager: starts, stops, reaping, releases and shutdown as phases that interleave at
    lock boundaries, with counted provider reservations. */
module Manager {
  import opened Ts

  type Key = (string, string)

  // ----- Transitions ----------------------------------------------------------------------

  /** Starts in flight by key, and those of them a stop has cancelled. */
  datatype Lifecycle = Lifecycle(next: nat, pending: map<Key, set<nat>>, cancelled: set<(Key, nat)>)

  function Pending(l: Lifecycle, k: Key): set<nat> {
    if k in l.pending then l.pending[k] else {}
  }

  function Begin(l: Lifecycle, k: Key): Lifecycle {
    l.(next := l.next + 1, pending := l.pending[k := Pending(l, k) + {l.next + 1}])
  }

  function Finish(l: Lifecycle, k: Key, g: nat): Lifecycle {
    var rest := Pending(l, k) - {g};
    l.(cancelled := l.cancelled - {(k, g)},
       pending := if rest == {} then l.pending - {k} else l.pending[k := rest])
  }

  /** A stop cancels every start of its key in flight now. */
  function CancelAll(l: Lifecycle, k: Key): Lifecycle {
    l.(cancelled := l.cancelled + set g | g in Pending(l, k) :: (k, g))
  }

  // ----- State ----------------------------------------------------------------------------

  /** A start task. It holds its key's start lock from `Locked` on, and the finalization lock while
      finalizing, publishing or packaging. */
  datatype Phase =
    | Registered
    | Locked
    | Seen(session: nat)
    | Opening(source: nat)
    | Opened(source: nat)
    | Finalizing(holding: Option<nat>, seen: Option<nat>)
    | Publishing(holding: Option<nat>)
    | Packaging(session: nat)
    | Disposing(source: nat)

  datatype Task = Task(key: Key, generation: nat, hls: bool, cancel: bool, active: bool, phase: Phase)

  /** Who holds the finalization lock, and how far it got. */
  datatype Holder =
    | Nobody
    | Starting(task: nat)
    | StopCancelled(key: Key)
    | StopUnpackaged(key: Key)
    | ReapSnapshot(pending: set<Key>)
    | ReapRemoved(retained: set<Key>)
    | ShutdownFlagged
    | ShutdownUnpackaged

  /** Where a provider resource, and the reservation it carries, lives. */
  datatype Place = AtTask(task: nat) | AtSession(session: nat) | Failed | AtVod(handles: nat)

  /** A session, or the packager of one, became visible under `key`. */
  datatype Publication = Publication(key: Key, generation: nat, session: nat, packager: bool)

  /** A stop of `key`: the last generation registered before it, and how much was published. */
  datatype StopMark = StopMark(key: Key, bound: nat, at: nat)

  datatype State = State(
    lifecycle: Lifecycle, sessions: map<Key, nat>, packagers: map<Key, nat>, running: map<nat, nat>,
    shutting: bool, holder: Holder, startLocks: map<Key, nat>, tasks: map<nat, Task>, ids: nat,
    occupied: nat, cap: Option<nat>, live: map<nat, Place>,
    published: seq<Publication>, stops: seq<StopMark>, closedAt: nat, panicked: bool)

  function Start(cap: Option<nat>): State {
    State(Lifecycle(0, map[], {}), map[], map[], map[], false, Nobody, map[], map[], 0, 0, cap, map[], [], [], 0, false)
  }

  predicate IsCancelled(s: State, t: Task) {
    (t.key, t.generation) in s.lifecycle.cancelled
  }

  function PutTask(s: State, i: nat, t: Task): State {
    s.(tasks := s.tasks[i := t])
  }

  /** A source or content is destroyed, and its reservation with it. */
  function Destroy(s: State, r: nat): State {
    s.(live := s.live - {r}, occupied := if s.occupied > 0 then s.occupied - 1 else 0)
  }

  /** A source whose shutdown panicked keeps its reservation. */
  function Retain(s: State, r: nat): State {
    s.(live := s.live[r := Failed])
  }

  function Dispose(s: State, r: nat, ok: bool): State {
    if ok then Destroy(s, r) else Retain(s, r)
  }

  /** The task returns: its transition is dropped and its start lock released. */
  function Leave(s: State, i: nat): State
    requires i in s.tasks
  {
    var t := s.tasks[i];
    s.(tasks := s.tasks - {i},
       lifecycle := if t.active then Finish(s.lifecycle, t.key, t.generation) else s.lifecycle,
       startLocks := if t.phase.Registered? then s.startLocks else s.startLocks - {t.key})
  }

  // ----- Starting -------------------------------------------------------------------------

  predicate CanRegister(s: State) {
    s.holder == Nobody && !s.shutting
  }

  function Register(s: State, k: Key, hls: bool): State {
    var l := Begin(s.lifecycle, k);
    PutTask(s, s.ids, Task(k, l.next, hls, false, true, Registered)).(lifecycle := l, ids := s.ids + 1)
  }

  predicate CanLeave(s: State, i: nat) {
    i in s.tasks && (s.tasks[i].phase.Registered? || s.tasks[i].phase.Locked?)
  }

  predicate CanLock(s: State, i: nat) {
    && i in s.tasks && s.tasks[i].phase.Registered? && s.tasks[i].key !in s.startLocks
    && !s.tasks[i].cancel && !IsCancelled(s, s.tasks[i]) && !s.shutting
  }

  function Lock(s: State, i: nat): State
    requires CanLock(s, i)
  {
    var t := s.tasks[i];
    PutTask(s, i, t.(phase := Locked)).(startLocks := s.startLocks[t.key := i])
  }

  predicate CanLook(s: State, i: nat) {
    i in s.tasks && s.tasks[i].phase.Locked?
  }

  /** Under the start lock: use a running session, or reserve and begin opening a source. */
  function Look(s: State, i: nat): State
    requires CanLook(s, i)
  {
    var t := s.tasks[i];
    if t.key in s.sessions then
      if t.hls then PutTask(s, i, t.(phase := Seen(s.sessions[t.key]))) else Leave(s, i)
    else if s.cap.Some? && s.occupied >= s.cap.value then Leave(s, i)
    else
      PutTask(s, i, t.(phase := Opening(s.ids)))
        .(ids := s.ids + 1, occupied := s.occupied + 1, live := s.live[s.ids := AtTask(i)])
  }

  predicate CanOpen(s: State, i: nat) {
    i in s.tasks && s.tasks[i].phase.Opening?
  }

  function Open(s: State, i: nat, ok: bool): State
    requires CanOpen(s, i)
  {
    var t := s.tasks[i];
    if ok then PutTask(s, i, t.(phase := Opened(t.phase.source))) else Destroy(Leave(s, i), t.phase.source)
  }

  predicate CanFinalize(s: State, i: nat) {
    i in s.tasks && s.holder == Nobody && (s.tasks[i].phase.Opened? || s.tasks[i].phase.Seen?)
  }

  function Finalize(s: State, i: nat): State
    requires CanFinalize(s, i)
  {
    var t := s.tasks[i];
    var phase := if t.phase.Opened? then Finalizing(Some(t.phase.source), None) else Finalizing(None, Some(t.phase.session));
    PutTask(s, i, t.(phase := phase)).(holder := Starting(i))
  }

  predicate CanDecide(s: State, i: nat) {
    i in s.tasks && s.tasks[i].phase.Finalizing?
  }

  /** Give up after all: release the lock, then dispose of the source. */
  function Abandon(s: State, i: nat): State
    requires CanDecide(s, i)
  {
    var t := s.tasks[i];
    if t.phase.holding.Some? then PutTask(s, i, t.(phase := Disposing(t.phase.holding.value))).(holder := Nobody)
    else Leave(s, i).(holder := Nobody)
  }

  /** The publication fence. A withdrawn or cancelled start is abandoned with its transition still
      registered; otherwise the transition ends here, and tells whether a stop came first. */
  function Decide(s: State, i: nat, withdrawn: bool): State
    requires CanDecide(s, i)
  {
    var t := s.tasks[i];
    if withdrawn || t.cancel then Abandon(s, i)
    else
      var s' := PutTask(s, i, t.(active := false))
                .(lifecycle := if t.active then Finish(s.lifecycle, t.key, t.generation) else s.lifecycle);
      if IsCancelled(s, t) || s.shutting then Abandon(s', i)
      else PutTask(s', i, t.(active := false, phase := Publishing(t.phase.holding)))
  }

  predicate CanPublish(s: State, i: nat) {
    i in s.tasks && s.tasks[i].phase.Publishing?
  }

  /** Insert a session made from the opened source, unless one is there. An HLS start that neither
      finds a session nor has a source panics. */
  function Publish(s: State, i: nat): State
    requires CanPublish(s, i)
  {
    var t := s.tasks[i];
    var source := t.phase.holding;
    if t.key in s.sessions then
      var s' := if source.Some? then Destroy(s, source.value) else s;
      if t.hls then PutTask(s', i, t.(phase := Packaging(s.sessions[t.key]))) else Leave(s', i).(holder := Nobody)
    else if source.None? then s.(panicked := true)
    else
      var x := s.ids;
      var s' := s.(ids := s.ids + 1, sessions := s.sessions[t.key := x], running := s.running[x := source.value],
                   live := s.live[source.value := AtSession(x)],
                   published := s.published + [Publication(t.key, t.generation, x, false)]);
      if t.hls then PutTask(s', i, t.(phase := Packaging(x))) else Leave(s', i).(holder := Nobody)
  }

  predicate CanPackage(s: State, i: nat) {
    i in s.tasks && s.tasks[i].phase.Packaging?
  }

  function Package(s: State, i: nat): State
    requires CanPackage(s, i)
  {
    var t := s.tasks[i];
    var left := Leave(s, i).(holder := Nobody);
    if t.key in s.packagers then left
    else
      left.(packagers := s.packagers[t.key := t.phase.session],
            published := s.published + [Publication(t.key, t.generation, t.phase.session, true)])
  }

  predicate CanDispose(s: State, i: nat) {
    i in s.tasks && s.tasks[i].phase.Disposing?
  }

  // ----- Stop, reap, release, shutdown ----------------------------------------------------

  predicate CanStop(s: State) {
    s.holder == Nobody
  }

  function Stop(s: State, k: Key): State {
    s.(holder := StopCancelled(k), lifecycle := CancelAll(s.lifecycle, k),
       stops := s.stops + [StopMark(k, s.lifecycle.next, |s.published|)])
  }

  function StopPackager(s: State): State
    requires s.holder.StopCancelled?
  {
    s.(holder := StopUnpackaged(s.holder.key), packagers := s.packagers - {s.holder.key})
  }

  function StopSession(s: State): State
    requires s.holder.StopUnpackaged?
  {
    s.(holder := Nobody, sessions := s.sessions - {s.holder.key})
  }

  function Snapshot(s: State): State {
    s.(holder := ReapSnapshot(s.lifecycle.pending.Keys))
  }

  predicate CanReap(s: State, expired: set<Key>) {
    s.holder.ReapSnapshot? && expired !! s.holder.pending
  }

  /** Remove idle sessions; which ones have no subscriber, pin or active packager is arbitrary. */
  function ReapSessions(s: State, expired: set<Key>): State
    requires CanReap(s, expired)
  {
    var sessions := s.sessions - expired;
    s.(holder := ReapRemoved(sessions.Keys), sessions := sessions)
  }

  function ReapPackagers(s: State): State
    requires s.holder.ReapRemoved?
  {
    s.(holder := Nobody, packagers := map k | k in s.packagers && k in s.holder.retained :: s.packagers[k])
  }

  predicate CanRelease(s: State, k: Key, x: nat) {
    s.holder == Nobody && k !in s.lifecycle.pending && k in s.sessions && s.sessions[k] == x
  }

  function Release(s: State, k: Key): State {
    s.(sessions := s.sessions - {k}, packagers := s.packagers - {k})
  }

  function Shutdown(s: State): State {
    s.(holder := ShutdownFlagged, shutting := true, closedAt := if s.shutting then s.closedAt else |s.published|)
  }

  // ----- Resources ------------------------------------------------------------------------

  predicate CanEndSession(s: State, x: nat) {
    x in s.running
  }

  /** A session's source ends, by itself or after cancellation. */
  function EndSession(s: State, x: nat, ok: bool): State
    requires CanEndSession(s, x)
  {
    Dispose(s, s.running[x], ok).(running := s.running - {x})
  }

  predicate CanReserveVod(s: State) {
    s.cap.Some? ==> s.occupied < s.cap.value
  }

  function ReserveVod(s: State): State {
    s.(ids := s.ids + 1, occupied := s.occupied + 1, live := s.live[s.ids := AtVod(1)])
  }

  predicate CanHandle(s: State, r: nat) {
    r in s.live && s.live[r].AtVod? && s.live[r].handles > 0
  }

  /** Another handle or range shares the content. */
  function ShareVod(s: State, r: nat): State
    requires CanHandle(s, r)
  {
    s.(live := s.live[r := AtVod(s.live[r].handles + 1)])
  }

  function DropVod(s: State, r: nat): State
    requires CanHandle(s, r)
  {
    if s.live[r].handles == 1 then Destroy(s, r) else s.(live := s.live[r := AtVod(s.live[r].handles - 1)])
  }

  // ----- Steps and runs -------------------------------------------------------------------

  datatype Step =
    | SRegister(k: Key, hls: bool)
    | SCancel(i: nat)
    | SLeave(i: nat)
    | SLock(i: nat)
    | SLook(i: nat)
    | SOpen(i: nat, ok: bool)
    | SFinalize(i: nat)
    | SDecide(i: nat, withdrawn: bool)
    | SPublish(i: nat)
    | SPackage(i: nat)
    | SDispose(i: nat, ok: bool)
    | SStop(k: Key)
    | SStopPackager
    | SStopSession
    | SSnapshot
    | SReapSessions(expired: set<Key>)
    | SReapPackagers
    | SRelease(k: Key, x: nat)
    | SShutdown
    | SShutdownPackagers
    | SShutdownSessions
    | SEndSession(x: nat, ok: bool)
    | SReserveVod
    | SShareVod(r: nat)
    | SDropVod(r: nat)

  predicate Enabled(s: State, t: Step) {
    && !s.panicked
    && match t
       case SRegister(_, _) => CanRegister(s)
       case SCancel(i) => i in s.tasks
       case SLeave(i) => CanLeave(s, i)
       case SLock(i) => CanLock(s, i)
       case SLook(i) => CanLook(s, i)
       case SOpen(i, _) => CanOpen(s, i)
       case SFinalize(i) => CanFinalize(s, i)
       case SDecide(i, _) => CanDecide(s, i)
       case SPublish(i) => CanPublish(s, i)
       case SPackage(i) => CanPackage(s, i)
       case SDispose(i, _) => CanDispose(s, i)
       case SStop(_) => CanStop(s)
       case SStopPackager => s.holder.StopCancelled?
       case SStopSession => s.holder.StopUnpackaged?
       case SSnapshot => s.holder == Nobody
       case SReapSessions(expired) => CanReap(s, expired)
       case SReapPackagers => s.holder.ReapRemoved?
       case SRelease(k, x) => CanRelease(s, k, x)
       case SShutdown => s.holder == Nobody
       case SShutdownPackagers => s.holder.ShutdownFlagged?
       case SShutdownSessions => s.holder.ShutdownUnpackaged?
       case SEndSession(x, _) => CanEndSession(s, x)
       case SReserveVod => CanReserveVod(s)
       case SShareVod(r) => CanHandle(s, r)
       case SDropVod(r) => CanHandle(s, r)
  }

  function Apply(s: State, t: Step): State
    requires Enabled(s, t)
  {
    match t
    case SRegister(k, hls) => Register(s, k, hls)
    case SCancel(i) => PutTask(s, i, s.tasks[i].(cancel := true))
    case SLeave(i) => Leave(s, i)
    case SLock(i) => Lock(s, i)
    case SLook(i) => Look(s, i)
    case SOpen(i, ok) => Open(s, i, ok)
    case SFinalize(i) => Finalize(s, i)
    case SDecide(i, withdrawn) => Decide(s, i, withdrawn)
    case SPublish(i) => Publish(s, i)
    case SPackage(i) => Package(s, i)
    case SDispose(i, ok) => Dispose(Leave(s, i), s.tasks[i].phase.source, ok)
    case SStop(k) => Stop(s, k)
    case SStopPackager => StopPackager(s)
    case SStopSession => StopSession(s)
    case SSnapshot => Snapshot(s)
    case SReapSessions(expired) => ReapSessions(s, expired)
    case SReapPackagers => ReapPackagers(s)
    case SRelease(k, x) => Release(s, k)
    case SShutdown => Shutdown(s)
    case SShutdownPackagers => s.(holder := ShutdownUnpackaged, packagers := map[])
    case SShutdownSessions => s.(holder := Nobody, sessions := map[])
    case SEndSession(x, ok) => EndSession(s, x, ok)
    case SReserveVod => ReserveVod(s)
    case SShareVod(r) => ShareVod(s, r)
    case SDropVod(r) => DropVod(s, r)
  }

  ghost predicate CanRun(s: State, steps: seq<Step>)
    decreases |steps|
  {
    steps == [] || (Enabled(s, steps[0]) && CanRun(Apply(s, steps[0]), steps[1..]))
  }

  ghost function Run(s: State, steps: seq<Step>): State
    requires CanRun(s, steps)
    decreases |steps|
  {
    if steps == [] then s else Run(Apply(s, steps[0]), steps[1..])
  }
}
