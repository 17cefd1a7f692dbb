/** Crash-safe piece reservation for one broadcast name, as steps between awaits and lock
    boundaries, over any number of process lifetimes. */
module Broadcast {
  import opened Ts

  const INTERVAL: nat := 128
  const U64_MAX: nat := 0xffff_ffff_ffff_ffff

  /** The reservation that covers `piece`, in whole blocks past `current`. */
  function Extension(current: nat, piece: nat): (r: Option<nat>)
    requires current <= piece
    ensures r.Some? ==> piece < r.value <= piece + INTERVAL && r.value <= U64_MAX
    ensures r.Some? ==> (r.value - current) % INTERVAL == 0
    ensures r.None? ==> piece + INTERVAL > U64_MAX
  {
    var extension := current + ((piece - current) / INTERVAL + 1) * INTERVAL;
    if extension > U64_MAX then None else Some(extension)
  }

  // ----- The disk -------------------------------------------------------------------------

  datatype Record = Record(identity: nat, next: nat, reserved: nat)

  datatype Content = Absent | Torn | Whole(rec: Record)

  /** What the record's name reads as now, and everything it may read as after losing power. */
  datatype Disk = Disk(cache: Content, durable: set<Content>)

  /** Rename a temporary file over the name. One whose data was not synced may come back torn. */
  function Renamed(d: Disk, rec: Record, clean: bool): Disk {
    Disk(Whole(rec), d.durable + {Whole(rec)} + if clean then {} else {Torn})
  }

  function Unlinked(d: Disk): Disk {
    Disk(Absent, d.durable + {Absent})
  }

  /** Sync the directory: only the current name survives. */
  function Synced(d: Disk): Disk {
    Disk(d.cache, {d.cache})
  }

  // ----- The process ----------------------------------------------------------------------

  datatype Stage = Create | Write | Sync | Rename | SyncDirectory

  datatype Temp = NoTemp | Dirty | Clean

  datatype Owner = Init | Reserve

  /** The I/O lock and the blocking job that owns it. */
  datatype Io =
    | Idle
    | Saving(rec: Record, stage: Stage, temp: Temp, owner: Owner)
    | Deleting(unlinked: bool)

  datatype Cursor = Cursor(identity: nat, next: nat, reserved: nat, poisoned: bool, closed: bool)

  /** A save requested by the holder of the publication lock. */
  datatype Saver = Waiting(rec: Record) | Running(rec: Record) | Saved(rec: Record, ok: bool)

  datatype Lock = Free | ByJob(attempt: nat) | ByFlush | ByStop

  datatype Stop = NoStop | Requested(delete: bool) | Done(delete: bool) | Refused

  datatype Producer = Producer(authority: nat, alive: bool)

  datatype Entry = Entry(
    cancel: bool, invalid: bool, cursor: Option<Cursor>, io: Io, publication: Lock, saver: Option<Saver>,
    stop: Stop, producer: Option<Producer>,
    // history: the record was unlinked on behalf of this entry
    unlinked: bool)

  const NEW_ENTRY := Entry(false, false, None, Idle, Free, None, NoStop, None, false)

  datatype Phase = Ready | Reserving | Consumed | Checked

  /** A publication job: the pieces of the chunks still to publish. */
  datatype Job = Job(outputs: seq<nat>, checkpoint: bool, phase: Phase)

  datatype Attempt = Attempt(
    entry: nat, authority: nat, start: nat, live: bool, held: bool, failed: bool, job: Option<Job>)

  datatype Publication = Publication(identity: nat, lifetime: nat, entry: nat, attempt: nat, piece: nat)

  /** `ids` numbers entries, authorities and attempts, `minted` numbers signing identities. Every chunk
      ever stored is in `log`; `dead` bounds the identities whose deletion was reported. */
  datatype State = State(
    disk: Disk, entries: map<nat, Entry>, current: Option<nat>, service: bool, attempts: map<nat, Attempt>,
    busy: set<nat>, log: seq<Publication>, lifetime: nat, minted: nat, ids: nat, dead: nat)

  const START := State(Disk(Absent, {Absent}), map[], None, false, map[], {}, [], 0, 0, 0, 0)

  /** The cursor's check before every effect. */
  predicate CheckOk(service: bool, en: Entry) {
    en.cursor.Some? && !en.cursor.value.poisoned && !en.cursor.value.closed && !service && !en.cancel
  }

  predicate PublicationOk(s: State, en: Entry, at: Attempt) {
    CheckOk(s.service, en) && at.live && en.producer == Some(Producer(at.authority, true))
  }

  function Put(s: State, e: nat, en: Entry): State {
    s.(entries := s.entries[e := en])
  }

  function PutAttempt(s: State, a: nat, at: Attempt): State {
    s.(attempts := s.attempts[a := at])
  }

  function Max(a: nat, b: nat): nat {
    if a < b then b else a
  }

  // ----- Loading and saving ---------------------------------------------------------------

  predicate CanEnter(s: State) {
    s.current.None? && !s.service
  }

  function Enter(s: State): State {
    Put(s, s.ids, NEW_ENTRY).(current := Some(s.ids), ids := s.ids + 1)
  }

  predicate CanLoad(s: State, e: nat) {
    && e in s.entries
    && var en := s.entries[e];
       en.cursor.None? && !en.invalid && !en.cancel && !s.service && en.stop == NoStop && en.io == Idle
  }

  /** Where a restarted broadcast resumes: at the end of everything reserved before. */
  function Resume(c: Content): Option<nat> {
    if c.Whole? && c.rec.next <= c.rec.reserved && c.rec.reserved + INTERVAL <= U64_MAX then Some(c.rec.reserved)
    else None
  }

  /** Load or mint the identity and begin saving its first reservation. `fits` stands for the checks
      of the key, the descriptor and the configuration. */
  function Load(s: State, e: nat, fits: bool): State
    requires CanLoad(s, e)
  {
    var en := s.entries[e];
    if fits && s.disk.cache.Absent? then
      var rec := Record(s.minted, 0, INTERVAL);
      Put(s, e, en.(io := Saving(rec, Create, NoTemp, Init))).(minted := s.minted + 1)
    else if fits && Resume(s.disk.cache).Some? then
      var start := Resume(s.disk.cache).value;
      var rec := Record(s.disk.cache.rec.identity, start, start + INTERVAL);
      Put(s, e, en.(io := Saving(rec, Create, NoTemp, Init)))
    else Put(s, e, en.(invalid := true))
  }

  predicate CanSave(s: State, e: nat) {
    e in s.entries && s.entries[e].io.Saving?
  }

  /** The waiting saver, if it is still there, learns the outcome. */
  function Told(saver: Option<Saver>, ok: bool): Option<Saver> {
    if saver.Some? && saver.value.Running? then Some(Saved(saver.value.rec, ok)) else saver
  }

  function SaveFailed(en: Entry): Entry
    requires en.io.Saving?
  {
    if en.io.owner.Init? then en.(io := Idle, invalid := true)
    else if en.cursor.Some? then
      en.(io := Idle, cursor := Some(en.cursor.value.(poisoned := true)), saver := Told(en.saver, false))
    else en.(io := Idle)
  }

  function SaveDone(service: bool, en: Entry): Entry
    requires en.io.Saving?
  {
    if en.io.owner.Reserve? then en.(io := Idle, saver := Told(en.saver, true))
    else if service || en.cancel then en.(io := Idle, invalid := true)
    else
      var rec := en.io.rec;
      en.(io := Idle, cursor := Some(Cursor(rec.identity, rec.next, rec.reserved, false, false)))
  }

  function SaveEntry(service: bool, en: Entry, ok: bool): Entry
    requires en.io.Saving?
  {
    if !ok then SaveFailed(en)
    else
      match en.io.stage
      case Create => en.(io := en.io.(stage := Write, temp := Dirty))
      case Write => en.(io := en.io.(stage := Sync, temp := Dirty))
      case Sync => en.(io := en.io.(stage := Rename, temp := Clean))
      case Rename => en.(io := en.io.(stage := SyncDirectory))
      case SyncDirectory => SaveDone(service, en)
  }

  function SaveDisk(d: Disk, io: Io, ok: bool): Disk
    requires io.Saving?
  {
    if ok && io.stage.Rename? then Renamed(d, io.rec, io.temp.Clean?)
    else if ok && io.stage.SyncDirectory? then Synced(d)
    else d
  }

  /** One filesystem operation of a save. */
  function Save(s: State, e: nat, ok: bool): State
    requires CanSave(s, e)
  {
    var en := s.entries[e];
    Put(s, e, SaveEntry(s.service, en, ok)).(disk := SaveDisk(s.disk, en.io, ok))
  }

  predicate CanBeginSave(s: State, e: nat) {
    && e in s.entries
    && var en := s.entries[e];
       en.saver.Some? && en.saver.value.Waiting? && en.io == Idle && CheckOk(s.service, en)
  }

  function BeginSave(s: State, e: nat): State
    requires CanBeginSave(s, e)
  {
    var en := s.entries[e];
    var rec := en.saver.value.rec;
    Put(s, e, en.(io := Saving(rec, Create, NoTemp, Reserve), saver := Some(Running(rec))))
  }

  // ----- Producers and attempts -----------------------------------------------------------

  predicate CanAcquire(s: State, e: nat) {
    && e in s.entries
    && var en := s.entries[e];
       && en.stop == NoStop && CheckOk(s.service, en)
       && (en.producer.Some? ==>
            && !en.producer.value.alive && en.producer.value.authority !in s.busy
            && en.publication == Free && en.io == Idle)
  }

  function Acquire(s: State, e: nat): State
    requires CanAcquire(s, e)
  {
    Put(s, e, s.entries[e].(producer := Some(Producer(s.ids, true)))).(ids := s.ids + 1)
  }

  predicate CanDropSession(s: State, e: nat) {
    e in s.entries && s.entries[e].producer.Some?
  }

  function DropSession(s: State, e: nat): State
    requires CanDropSession(s, e)
  {
    var en := s.entries[e];
    Put(s, e, en.(producer := Some(en.producer.value.(alive := false))))
  }

  /** A detached source: its worker and its jobs were joined first. */
  predicate CanDetach(s: State, e: nat) {
    && e in s.entries && s.entries[e].producer.Some?
    && s.entries[e].publication == Free && s.entries[e].io == Idle
    && forall a | a in s.attempts :: s.attempts[a].authority != s.entries[e].producer.value.authority
  }

  function Detach(s: State, e: nat): State
    requires CanDetach(s, e)
  {
    Put(s, e, s.entries[e].(producer := None))
  }

  predicate CanOpen(s: State, e: nat) {
    && e in s.entries
    && var en := s.entries[e];
       CheckOk(s.service, en) && en.producer.Some? && en.producer.value.alive && en.producer.value.authority !in s.busy
  }

  function Open(s: State, e: nat): State
    requires CanOpen(s, e)
  {
    var en := s.entries[e];
    var authority := en.producer.value.authority;
    PutAttempt(s, s.ids, Attempt(e, authority, en.cursor.value.next, true, true, false, None))
      .(busy := s.busy + {authority}, ids := s.ids + 1)
  }

  /** The ingest fails, is cancelled, or its waiting caller goes away. */
  function Spoil(s: State, a: nat, held: bool): State
    requires a in s.attempts
  {
    var at := s.attempts[a];
    PutAttempt(s, a, at.(failed := true, live := at.live && held, held := at.held && held))
  }

  /** The last reference to an attempt goes: neither its ingest nor a job is left. */
  predicate CanReap(s: State, a: nat) {
    a in s.attempts && !s.attempts[a].held && s.attempts[a].job.None?
  }

  function Reap(s: State, a: nat): State
    requires CanReap(s, a)
  {
    s.(attempts := s.attempts - {a}, busy := s.busy - {s.attempts[a].authority})
  }

  predicate CanAdvance(s: State, a: nat) {
    && a in s.attempts && s.attempts[a].held && !s.attempts[a].failed && s.attempts[a].job.None?
    && s.attempts[a].start < U64_MAX
  }

  /** A whole piece was filled. */
  function Advance(s: State, a: nat): State
    requires CanAdvance(s, a)
  {
    PutAttempt(s, a, s.attempts[a].(start := s.attempts[a].start + 1))
  }

  // ----- Publication jobs -----------------------------------------------------------------

  predicate CanStart(s: State, a: nat, outputs: seq<nat>, checkpoint: bool) {
    && a in s.attempts && s.attempts[a].entry in s.entries
    && s.attempts[a].held && !s.attempts[a].failed && s.attempts[a].job.None?
    && s.entries[s.attempts[a].entry].publication == Free
    && (outputs != [] || checkpoint)
    && forall p | p in outputs :: s.attempts[a].start <= p < U64_MAX
  }

  function Start(s: State, a: nat, outputs: seq<nat>, checkpoint: bool): State
    requires CanStart(s, a, outputs, checkpoint)
  {
    var at := s.attempts[a];
    PutAttempt(Put(s, at.entry, s.entries[at.entry].(publication := ByJob(a))), a,
               at.(job := Some(Job(outputs, checkpoint, Ready))))
  }

  /** The running job of attempt `a`, in the given phase. */
  predicate InPhase(s: State, a: nat, phase: Phase) {
    && a in s.attempts && s.attempts[a].entry in s.entries
    && s.attempts[a].job.Some? && s.attempts[a].job.value.phase == phase
  }

  function PutJob(s: State, a: nat, job: Job): State
    requires a in s.attempts
  {
    PutAttempt(s, a, s.attempts[a].(job := Some(job)))
  }

  predicate CanConsume(s: State, a: nat) {
    && InPhase(s, a, Ready)
    && PublicationOk(s, s.entries[s.attempts[a].entry], s.attempts[a])
    && var outputs := s.attempts[a].job.value.outputs;
       && outputs != []
       && var reserved := s.entries[s.attempts[a].entry].cursor.value.reserved;
          outputs[0] < reserved || Extension(reserved, outputs[0]).Some?
  }

  /** Take the next piece: at once when it is reserved, otherwise after saving a reservation. */
  function Consume(s: State, a: nat): State
    requires CanConsume(s, a)
  {
    var at := s.attempts[a];
    var en, job := s.entries[at.entry], at.job.value;
    var cursor, piece := en.cursor.value, job.outputs[0];
    if piece < cursor.reserved then
      PutJob(Put(s, at.entry, en.(cursor := Some(cursor.(next := Max(cursor.next, piece + 1))))), a,
             job.(phase := Consumed))
    else
      var rec := Record(cursor.identity, cursor.next, Extension(cursor.reserved, piece).value);
      PutJob(Put(s, at.entry, en.(saver := Some(Waiting(rec)))), a, job.(phase := Reserving))
  }

  predicate CanCheckpoint(s: State, a: nat) {
    && InPhase(s, a, Ready)
    && PublicationOk(s, s.entries[s.attempts[a].entry], s.attempts[a])
    && s.attempts[a].job.value.outputs == [] && s.attempts[a].job.value.checkpoint
  }

  function Checkpoint(s: State, a: nat): State
    requires CanCheckpoint(s, a)
  {
    var at := s.attempts[a];
    var en := s.entries[at.entry];
    var rec := Record(en.cursor.value.identity, en.cursor.value.next, en.cursor.value.reserved);
    PutJob(Put(s, at.entry, en.(saver := Some(Waiting(rec)))), a, at.job.value.(phase := Reserving, checkpoint := false))
  }

  predicate CanGrant(s: State, a: nat) {
    && InPhase(s, a, Reserving)
    && var en := s.entries[s.attempts[a].entry];
       CheckOk(s.service, en) && en.saver.Some? && en.saver.value.Saved? && en.saver.value.ok
  }

  /** The save succeeded and nothing was cancelled meanwhile: raise the reservation. */
  function Grant(s: State, a: nat): State
    requires CanGrant(s, a)
  {
    var at := s.attempts[a];
    var en, job := s.entries[at.entry], at.job.value;
    var cursor := en.cursor.value.(reserved := Max(en.cursor.value.reserved, en.saver.value.rec.reserved));
    if job.outputs == [] then
      PutJob(Put(s, at.entry, en.(cursor := Some(cursor), saver := None)), a, job.(phase := Ready))
    else
      PutJob(Put(s, at.entry, en.(cursor := Some(cursor.(next := Max(cursor.next, job.outputs[0] + 1))), saver := None)),
             a, job.(phase := Consumed))
  }

  predicate CanCheck(s: State, a: nat) {
    InPhase(s, a, Consumed) && PublicationOk(s, s.entries[s.attempts[a].entry], s.attempts[a])
  }

  function Check(s: State, a: nat): State
    requires CanCheck(s, a)
  {
    PutJob(s, a, s.attempts[a].job.value.(phase := Checked))
  }

  predicate CanStore(s: State, a: nat) {
    InPhase(s, a, Checked) && s.attempts[a].job.value.outputs != [] && s.entries[s.attempts[a].entry].cursor.Some?
  }

  /** Put one chunk in the store. */
  function Store(s: State, a: nat): State
    requires CanStore(s, a)
  {
    var at := s.attempts[a];
    var job := at.job.value;
    var chunk := Publication(s.entries[at.entry].cursor.value.identity, s.lifetime, at.entry, a, job.outputs[0]);
    PutJob(s, a, job.(outputs := job.outputs[1..], phase := Ready)).(log := s.log + [chunk])
  }

  predicate CanEnd(s: State, a: nat) {
    && a in s.attempts && s.attempts[a].entry in s.entries && s.attempts[a].job.Some?
    && !s.attempts[a].job.value.phase.Checked?
    && var en := s.entries[s.attempts[a].entry];
       en.saver.Some? ==>
         && !en.saver.value.Running?
         && (en.saver.value.Saved? && en.saver.value.ok ==> !CheckOk(s.service, en))
  }

  /** The job is through, or one of its checks failed. A started save is always waited for. */
  function End(s: State, a: nat): State
    requires CanEnd(s, a)
  {
    var at := s.attempts[a];
    PutAttempt(Put(s, at.entry, s.entries[at.entry].(publication := Free, saver := None)), a,
               at.(job := None, failed := at.failed || at.job.value != Job([], false, Ready)))
  }

  // ----- Flush ----------------------------------------------------------------------------

  predicate CanFlush(s: State, e: nat) {
    e in s.entries && s.entries[e].publication == Free && CheckOk(s.service, s.entries[e])
  }

  function Flush(s: State, e: nat): State
    requires CanFlush(s, e)
  {
    var en := s.entries[e];
    var rec := Record(en.cursor.value.identity, en.cursor.value.next, en.cursor.value.reserved);
    Put(s, e, en.(publication := ByFlush, saver := Some(Waiting(rec))))
  }

  predicate CanLeaveFlush(s: State, e: nat) {
    e in s.entries && s.entries[e].publication == ByFlush
  }

  /** The flush returns, or its caller goes away while the write it started runs on. */
  function LeaveFlush(s: State, e: nat): State
    requires CanLeaveFlush(s, e)
  {
    Put(s, e, s.entries[e].(publication := Free, saver := None))
  }

  // ----- Stop and delete ------------------------------------------------------------------

  predicate CanRequestStop(s: State, e: nat) {
    e in s.entries && (s.entries[e].stop.NoStop? || s.entries[e].stop.Refused?)
  }

  function RequestStop(s: State, e: nat, delete: bool): State
    requires CanRequestStop(s, e)
  {
    Put(s, e, s.entries[e].(cancel := true, stop := Requested(delete)))
  }

  predicate CanStopPublication(s: State, e: nat) {
    && e in s.entries && s.entries[e].stop.Requested? && s.entries[e].publication == Free
    && !(s.entries[e].io.Saving? && s.entries[e].io.owner.Init?)
  }

  function StopPublication(s: State, e: nat): State
    requires CanStopPublication(s, e)
  {
    Put(s, e, s.entries[e].(publication := ByStop))
  }

  predicate CanStopIo(s: State, e: nat) {
    && e in s.entries && s.entries[e].stop.Requested? && s.entries[e].publication == ByStop
    && s.entries[e].io == Idle
  }

  /** With both locks held, close the cursor and begin deleting, or finish. */
  function StopIo(s: State, e: nat): State
    requires CanStopIo(s, e)
  {
    var en := s.entries[e];
    var cursor := if en.cursor.Some? then Some(en.cursor.value.(closed := true)) else None;
    if en.stop.delete then Put(s, e, en.(cursor := cursor, io := Deleting(false)))
    else Put(s, e, en.(cursor := cursor, stop := Done(false), publication := Free, producer := None))
  }

  predicate CanDelete(s: State, e: nat) {
    e in s.entries && s.entries[e].io.Deleting?
  }

  /** One filesystem operation of a deletion. Only a synced unlink reports success and frees the name. */
  function Delete(s: State, e: nat, ok: bool): State
    requires CanDelete(s, e)
  {
    var en := s.entries[e];
    if !ok then Put(s, e, en.(io := Idle, publication := Free, stop := Refused))
    else if !en.io.unlinked then
      Put(s, e, en.(io := Deleting(true), unlinked := true)).(disk := Unlinked(s.disk))
    else
      Put(s, e, en.(io := Idle, publication := Free, stop := Done(true), producer := None))
        .(disk := Synced(s.disk), current := if s.current == Some(e) then None else s.current, dead := s.minted)
  }

  function CloseService(s: State): State {
    s.(service := true)
  }

  /** The process dies; with `power` lost too, the name reads as any surviving content. */
  function Crash(s: State, disk: Disk): State {
    s.(disk := disk, entries := map[], current := None, service := false, attempts := map[], busy := {},
       lifetime := s.lifetime + 1)
  }

  predicate Survives(s: State, disk: Disk) {
    disk == s.disk || (disk.cache in s.disk.durable && disk.durable == {disk.cache})
  }

  // ----- Steps and runs -------------------------------------------------------------------

  datatype Step =
    | SEnter
    | SLoad(e: nat, fits: bool)
    | SSave(e: nat, ok: bool)
    | SBeginSave(e: nat)
    | SAcquire(e: nat)
    | SDropSession(e: nat)
    | SDetach(e: nat)
    | SOpen(e: nat)
    | SSpoil(a: nat, held: bool)
    | SReap(a: nat)
    | SAdvance(a: nat)
    | SStart(a: nat, outputs: seq<nat>, checkpoint: bool)
    | SConsume(a: nat)
    | SCheckpoint(a: nat)
    | SGrant(a: nat)
    | SCheck(a: nat)
    | SStore(a: nat)
    | SEnd(a: nat)
    | SFlush(e: nat)
    | SLeaveFlush(e: nat)
    | SRequestStop(e: nat, delete: bool)
    | SStopPublication(e: nat)
    | SStopIo(e: nat)
    | SDelete(e: nat, ok: bool)
    | SCloseService
    | SCrash(disk: Disk)

  predicate Enabled(s: State, t: Step) {
    match t
    case SEnter => CanEnter(s)
    case SLoad(e, _) => CanLoad(s, e)
    case SSave(e, _) => CanSave(s, e)
    case SBeginSave(e) => CanBeginSave(s, e)
    case SAcquire(e) => CanAcquire(s, e)
    case SDropSession(e) => CanDropSession(s, e)
    case SDetach(e) => CanDetach(s, e)
    case SOpen(e) => CanOpen(s, e)
    case SSpoil(a, _) => a in s.attempts
    case SReap(a) => CanReap(s, a)
    case SAdvance(a) => CanAdvance(s, a)
    case SStart(a, outputs, checkpoint) => CanStart(s, a, outputs, checkpoint)
    case SConsume(a) => CanConsume(s, a)
    case SCheckpoint(a) => CanCheckpoint(s, a)
    case SGrant(a) => CanGrant(s, a)
    case SCheck(a) => CanCheck(s, a)
    case SStore(a) => CanStore(s, a)
    case SEnd(a) => CanEnd(s, a)
    case SFlush(e) => CanFlush(s, e)
    case SLeaveFlush(e) => CanLeaveFlush(s, e)
    case SRequestStop(e, _) => CanRequestStop(s, e)
    case SStopPublication(e) => CanStopPublication(s, e)
    case SStopIo(e) => CanStopIo(s, e)
    case SDelete(e, _) => CanDelete(s, e)
    case SCloseService => true
    case SCrash(disk) => Survives(s, disk)
  }

  function Apply(s: State, t: Step): State
    requires Enabled(s, t)
  {
    match t
    case SEnter => Enter(s)
    case SLoad(e, fits) => Load(s, e, fits)
    case SSave(e, ok) => Save(s, e, ok)
    case SBeginSave(e) => BeginSave(s, e)
    case SAcquire(e) => Acquire(s, e)
    case SDropSession(e) => DropSession(s, e)
    case SDetach(e) => Detach(s, e)
    case SOpen(e) => Open(s, e)
    case SSpoil(a, held) => Spoil(s, a, held)
    case SReap(a) => Reap(s, a)
    case SAdvance(a) => Advance(s, a)
    case SStart(a, outputs, checkpoint) => Start(s, a, outputs, checkpoint)
    case SConsume(a) => Consume(s, a)
    case SCheckpoint(a) => Checkpoint(s, a)
    case SGrant(a) => Grant(s, a)
    case SCheck(a) => Check(s, a)
    case SStore(a) => Store(s, a)
    case SEnd(a) => End(s, a)
    case SFlush(e) => Flush(s, e)
    case SLeaveFlush(e) => LeaveFlush(s, e)
    case SRequestStop(e, delete) => RequestStop(s, e, delete)
    case SStopPublication(e) => StopPublication(s, e)
    case SStopIo(e) => StopIo(s, e)
    case SDelete(e, ok) => Delete(s, e, ok)
    case SCloseService => CloseService(s)
    case SCrash(disk) => Crash(s, disk)
  }

  ghost predicate CanRun(s: State, steps: seq<Step>)
    decreases |steps|
  {
    steps == [] || (Enabled(s, steps[0]) && CanRun(Apply(s, steps[0]), steps[1..]))
  }

  ghost function Run(s: State, steps: seq<Step>): State
    requires CanRun(s, steps)
    decreases |steps|
  {
    if steps == [] then s else Run(Apply(s, steps[0]), steps[1..])
  }
}
