/** Counted reservations: every live provider resource has one owner, and the counter counts them. */
module ManagerResources {
  import opened Ts
  import opened Manager
  import opened ManagerInvariants

  lemma Without<K, V>(m: map<K, V>, k: K)
    requires k in m
    ensures |m - {k}| == |m| - 1
  {
    assert (m - {k}).Keys == m.Keys - {k};
    assert |(m - {k}).Keys| == |m - {k}|;
  }

  lemma With<K, V>(m: map<K, V>, k: K, v: V)
    ensures |m[k := v]| == if k in m then |m| else |m| + 1
  {
    assert m[k := v].Keys == m.Keys + {k};
    assert |m[k := v].Keys| == |m[k := v]|;
  }

  // ----- The accounts ---------------------------------------------------------------------

  type Holdings = map<nat, nat>

  lemma Reserve(held: Holdings, running: Holdings, live: map<nat, Place>, occupied: nat, ids: nat, i: nat)
    requires Accounts(held, running, live, occupied, ids) && i !in held
    ensures Accounts(held[i := ids], running, live[ids := AtTask(i)], occupied + 1, ids + 1)
  {
    With(live, ids, AtTask(i));
  }

  lemma TaskDestroys(held: Holdings, running: Holdings, live: map<nat, Place>, occupied: nat, ids: nat, i: nat)
    requires Accounts(held, running, live, occupied, ids) && i in held
    ensures occupied > 0 && Accounts(held - {i}, running, live - {held[i]}, occupied - 1, ids)
  {
    Without(live, held[i]);
  }

  lemma TaskRetains(held: Holdings, running: Holdings, live: map<nat, Place>, occupied: nat, ids: nat, i: nat)
    requires Accounts(held, running, live, occupied, ids) && i in held
    ensures Accounts(held - {i}, running, live[held[i] := Failed], occupied, ids)
  {
    With(live, held[i], Failed);
  }

  lemma BecomesSession(held: Holdings, running: Holdings, live: map<nat, Place>, occupied: nat, ids: nat, i: nat)
    requires Accounts(held, running, live, occupied, ids) && i in held
    ensures Accounts(held - {i}, running[ids := held[i]], live[held[i] := AtSession(ids)], occupied, ids + 1)
  {
    With(live, held[i], AtSession(ids));
  }

  lemma SessionDestroys(held: Holdings, running: Holdings, live: map<nat, Place>, occupied: nat, ids: nat, x: nat)
    requires Accounts(held, running, live, occupied, ids) && x in running
    ensures occupied > 0 && Accounts(held, running - {x}, live - {running[x]}, occupied - 1, ids)
  {
    Without(live, running[x]);
  }

  lemma SessionRetains(held: Holdings, running: Holdings, live: map<nat, Place>, occupied: nat, ids: nat, x: nat)
    requires Accounts(held, running, live, occupied, ids) && x in running
    ensures Accounts(held, running - {x}, live[running[x] := Failed], occupied, ids)
  {
    With(live, running[x], Failed);
  }

  lemma VodReserves(held: Holdings, running: Holdings, live: map<nat, Place>, occupied: nat, ids: nat)
    requires Accounts(held, running, live, occupied, ids)
    ensures Accounts(held, running, live[ids := AtVod(1)], occupied + 1, ids + 1)
  {
    With(live, ids, AtVod(1));
  }

  lemma VodCounts(held: Holdings, running: Holdings, live: map<nat, Place>, occupied: nat, ids: nat, r: nat, n: nat)
    requires Accounts(held, running, live, occupied, ids) && r in live && live[r].AtVod? && n > 0
    ensures Accounts(held, running, live[r := AtVod(n)], occupied, ids)
  {
    With(live, r, AtVod(n));
  }

  lemma VodDestroys(held: Holdings, running: Holdings, live: map<nat, Place>, occupied: nat, ids: nat, r: nat)
    requires Accounts(held, running, live, occupied, ids) && r in live && live[r].AtVod?
    ensures occupied > 0 && Accounts(held, running, live - {r}, occupied - 1, ids)
  {
    Without(live, r);
  }

  lemma MoreIds(held: Holdings, running: Holdings, live: map<nat, Place>, occupied: nat, ids: nat, ids': nat)
    requires Accounts(held, running, live, occupied, ids) && ids <= ids'
    ensures Accounts(held, running, live, occupied, ids')
  {
  }

  // ----- Steps ----------------------------------------------------------------------------

  /** No resource changes hands. */
  lemma SameKeeps(s: State, s': State)
    requires ResourcesInv(s) && Held(s'.tasks) == Held(s.tasks)
    requires s'.live == s.live && s'.occupied == s.occupied && s'.cap == s.cap && s'.running == s.running && s'.ids >= s.ids
    requires forall i | i in s'.tasks :: i < s'.ids
    ensures ResourcesInv(s')
  {
    MoreIds(Held(s.tasks), s.running, s.live, s.occupied, s.ids, s'.ids);
    hide Accounts;
  }

  lemma HeldUpdate(tasks: map<nat, Task>, i: nat, t: Task)
    ensures Held(tasks[i := t]) ==
      if SourceOf(t.phase).Some? then Held(tasks)[i := SourceOf(t.phase).value] else Held(tasks) - {i}
  {
    hide SourceOf;
  }

  lemma HeldRemove(tasks: map<nat, Task>, i: nat)
    ensures Held(tasks - {i}) == Held(tasks) - {i}
  {
    hide SourceOf;
  }

  /** A task moves on with what it holds. */
  lemma MoveKeeps(s: State, s': State, i: nat, t: Task)
    requires ResourcesInv(s) && i in s.tasks && s'.tasks == s.tasks[i := t]
    requires SourceOf(t.phase) == SourceOf(s.tasks[i].phase)
    requires s'.live == s.live && s'.occupied == s.occupied && s'.cap == s.cap && s'.running == s.running && s'.ids == s.ids
    ensures ResourcesInv(s')
  {
    HeldUpdate(s.tasks, i, t);
    assert Held(s'.tasks) == Held(s.tasks) by {
      hide SourceOf;
    }
    SameKeeps(s, s');
  }

  lemma LeaveKeeps(s: State, s': State, i: nat)
    requires ResourcesInv(s) && i in s.tasks && SourceOf(s.tasks[i].phase).None? && s'.tasks == s.tasks - {i}
    requires s'.live == s.live && s'.occupied == s.occupied && s'.cap == s.cap && s'.running == s.running && s'.ids == s.ids
    ensures ResourcesInv(s')
  {
    HeldRemove(s.tasks, i);
    assert i !in Held(s.tasks);
    SameKeeps(s, s');
  }

  lemma DisposeKeeps(s: State, i: nat, r: nat, ok: bool)
    requires ResourcesInv(s) && i in s.tasks && SourceOf(s.tasks[i].phase) == Some(r)
    ensures ResourcesInv(Dispose(Leave(s, i), r, ok))
  {
    HeldRemove(s.tasks, i);
    assert i in Held(s.tasks) && Held(s.tasks)[i] == r;
    hide Accounts, SourceOf, Finish;
    TaskDestroys(Held(s.tasks), s.running, s.live, s.occupied, s.ids, i);
    TaskRetains(Held(s.tasks), s.running, s.live, s.occupied, s.ids, i);
  }

  lemma EndSessionKeeps(s: State, x: nat, ok: bool)
    requires ResourcesInv(s) && CanEndSession(s, x)
    ensures ResourcesInv(EndSession(s, x, ok))
  {
    hide Held;
    if ok {
      SessionDestroys(Held(s.tasks), s.running, s.live, s.occupied, s.ids, x);
      hide Accounts;
    } else {
      SessionRetains(Held(s.tasks), s.running, s.live, s.occupied, s.ids, x);
      hide Accounts;
    }
  }

  lemma LookKeeps(s: State, i: nat)
    requires ResourcesInv(s) && CanLook(s, i)
    ensures ResourcesInv(Look(s, i))
  {
    hide Accounts, Leave;
    var s', t := Look(s, i), s.tasks[i];
    if t.key in s.sessions && t.hls {
      hide ResourcesInv;
      MoveKeeps(s, s', i, s'.tasks[i]);
    } else if t.key in s.sessions || (s.cap.Some? && s.occupied >= s.cap.value) {
      hide ResourcesInv;
      LeaveHolds(s, i);
    } else {
      LookReserves(s, i);
    }
  }

  lemma LookReserves(s: State, i: nat)
    requires ResourcesInv(s) && CanLook(s, i) && s.tasks[i].key !in s.sessions && CanReserveVod(s)
    ensures ResourcesInv(Look(s, i))
  {
    hide Accounts;
    assert i !in Held(s.tasks);
    HeldUpdate(s.tasks, i, s.tasks[i].(phase := Opening(s.ids)));
    Reserve(Held(s.tasks), s.running, s.live, s.occupied, s.ids, i);
  }

  lemma InsertKeeps(s: State, i: nat)
    requires ResourcesInv(s) && CanPublish(s, i) && s.tasks[i].phase.holding.Some?
    ensures ResourcesInv(Inserted(s, i))
  {
    hide Accounts;
    HeldUpdate(s.tasks, i, s.tasks[i].(phase := Packaging(s.ids)));
    assert i in Held(s.tasks) && Held(s.tasks)[i] == s.tasks[i].phase.holding.value;
    BecomesSession(Held(s.tasks), s.running, s.live, s.occupied, s.ids, i);
  }

  lemma PublishKeeps(s: State, i: nat)
    requires Inv(s) && CanPublish(s, i)
    ensures ResourcesInv(Publish(s, i))
  {
    hide Core, Publish, ResourcesInv, Leave;
    PublisherReady(s, i);
    PublishShape(s, i);
    var t, s' := s.tasks[i], Publish(s, i);
    if t.phase.holding.None? {
      MoveKeeps(s, s', i, t.(phase := Packaging(s.sessions[t.key])));
    } else {
      InsertKeeps(s, i);
      if !t.hls {
        LeaveHolds(Inserted(s, i), i);
      }
    }
  }

  lemma LeaveHolds(s: State, i: nat)
    requires ResourcesInv(s) && i in s.tasks && SourceOf(s.tasks[i].phase).None?
    ensures ResourcesInv(Leave(s, i).(holder := Nobody)) && ResourcesInv(Leave(s, i))
  {
    hide Finish, ResourcesInv;
    LeaveKeeps(s, Leave(s, i).(holder := Nobody), i);
    LeaveKeeps(s, Leave(s, i), i);
  }

  lemma DecideKeeps(s: State, i: nat, withdrawn: bool)
    requires ResourcesInv(s) && CanDecide(s, i)
    ensures ResourcesInv(Decide(s, i, withdrawn))
  {
    hide ResourcesInv, Decide;
    DecideKeepsSource(s, i, withdrawn);
    var s' := Decide(s, i, withdrawn);
    if i in s'.tasks {
      MoveKeeps(s, s', i, s'.tasks[i]);
    } else {
      LeaveKeeps(s, s', i);
    }
  }

  lemma VodKeeps(s: State, r: nat, n: nat)
    requires ResourcesInv(s) && CanHandle(s, r) && n > 0
    ensures ResourcesInv(s.(live := s.live[r := AtVod(n)])) && ResourcesInv(Destroy(s, r))
  {
    hide Held;
    VodCounts(Held(s.tasks), s.running, s.live, s.occupied, s.ids, r, n);
    VodDestroys(Held(s.tasks), s.running, s.live, s.occupied, s.ids, r);
  }

  lemma ReserveVodKeeps(s: State)
    requires ResourcesInv(s) && CanReserveVod(s)
    ensures ResourcesInv(ReserveVod(s))
  {
    hide Held;
    VodReserves(Held(s.tasks), s.running, s.live, s.occupied, s.ids);
  }

  lemma RegisterKeeps(s: State, k: Key, hls: bool)
    requires ResourcesInv(s)
    ensures ResourcesInv(Register(s, k, hls))
  {
    hide Accounts, Begin;
    var s' := Register(s, k, hls);
    HeldUpdate(s.tasks, s.ids, s'.tasks[s.ids]);
    assert s.ids !in Held(s.tasks);
    SameKeeps(s, s');
  }
}
