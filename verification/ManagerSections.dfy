/** The critical sections of the manager as they execute: each loop of a stop, a reap or a shutdown
    amounts to the steps it stands for. */
module ManagerSections {
  import opened Ts
  import opened Manager

  /** Remove keys one by one. */
  method RemoveKeys(m: map<Key, nat>, keys: set<Key>) returns (r: map<Key, nat>)
    ensures r == m - keys
  {
    r := m;
    var rest := keys;
    while rest != {}
      invariant rest <= keys && r == m - (keys - rest)
      decreases |rest|
    {
      var k :| k in rest;
      assert keys - (rest - {k}) == (keys - rest) + {k};
      r, rest := r - {k}, rest - {k};
    }
    assert keys - rest == keys;
  }

  class StreamManager {
    var st: State

    constructor (cap: Option<nat>)
      ensures st == Start(cap)
    {
      st := Start(cap);
    }

    /** Cancel every start of the key in flight, then take its packager and its session. */
    method StopKey(k: Key)
      requires !st.panicked && st.holder == Nobody
      modifies this
      ensures
        var steps := [SStop(k), SStopPackager, SStopSession];
        CanRun(old(st), steps) && st == Run(old(st), steps)
    {
      hide Run, CanRun, Enabled, Apply;
      ghost var begin := st;
      var cancelled, rest := st.lifecycle.cancelled, Pending(st.lifecycle, k);
      while rest != {}
        invariant rest <= Pending(st.lifecycle, k) && st == begin
        invariant cancelled == st.lifecycle.cancelled + set g | g in Pending(st.lifecycle, k) - rest :: (k, g)
        decreases |rest|
      {
        var g :| g in rest;
        cancelled, rest := cancelled + {(k, g)}, rest - {g};
      }
      StopSteps(begin, k);
      assert st.lifecycle.(cancelled := cancelled) == CancelAll(begin.lifecycle, k);
      st := st.(lifecycle := st.lifecycle.(cancelled := cancelled),
                stops := st.stops + [StopMark(k, st.lifecycle.next, |st.published|)]);
      st := st.(packagers := st.packagers - {k});
      st := st.(sessions := st.sessions - {k});
    }

    /** Remove every session that is idle and not awaited by a start, then the packagers left over. */
    method ReapIdle(idle: set<Key>)
      requires !st.panicked && st.holder == Nobody
      modifies this
      ensures
        var steps := [SSnapshot, SReapSessions(idle - old(st).lifecycle.pending.Keys), SReapPackagers];
        CanRun(old(st), steps) && st == Run(old(st), steps)
    {
      hide Run, CanRun, Enabled, Apply;
      ghost var begin := st;
      var pending := st.lifecycle.pending.Keys;
      var sessions := RemoveKeys(st.sessions, set k | k in st.sessions && k in idle && k !in pending);
      var retained := sessions.Keys;
      var packagers := RemoveKeys(st.packagers, set k | k in st.packagers && k !in retained);
      st := st.(sessions := sessions, packagers := packagers, holder := Nobody);
      ReapSteps(begin, idle - pending, sessions, packagers);
    }

    /** Retire a session whose last pin goes, unless a start is pending or it was replaced. */
    method ReleaseSupport(k: Key, x: nat, demand: bool) returns (retired: bool)
      requires !st.panicked && st.holder == Nobody
      modifies this
      ensures retired <==> !demand && CanRelease(old(st), k, x)
      ensures retired ==> CanRun(old(st), [SRelease(k, x)]) && st == Run(old(st), [SRelease(k, x)])
      ensures !retired ==> st == old(st)
    {
      if k in st.lifecycle.pending || demand || k !in st.sessions || st.sessions[k] != x {
        return false;
      }
      ghost var begin := st;
      st := st.(sessions := st.sessions - {k}, packagers := st.packagers - {k});
      OneStep(begin, SRelease(k, x));
      return true;
    }

    /** Set the flag, then drain both maps: nothing stays visible. */
    method ShutDown()
      requires !st.panicked && st.holder == Nobody
      modifies this
      ensures
        var steps := [SShutdown, SShutdownPackagers, SShutdownSessions];
        CanRun(old(st), steps) && st == Run(old(st), steps)
      ensures st.shutting && st.packagers == map[] && st.sessions == map[] && st.published == old(st).published
    {
      hide Run, CanRun, Enabled, Apply;
      ghost var begin := st;
      ShutdownSteps(begin);
      st := st.(shutting := true, closedAt := if st.shutting then st.closedAt else |st.published|);
      var packagers := RemoveKeys(st.packagers, st.packagers.Keys);
      st := st.(packagers := packagers);
      var sessions := RemoveKeys(st.sessions, st.sessions.Keys);
      st := st.(sessions := sessions, holder := Nobody);
      assert packagers == map[] && sessions == map[];
    }
  }

  lemma ReapSteps(s: State, expired: set<Key>, sessions: map<Key, nat>, packagers: map<Key, nat>)
    requires !s.panicked && s.holder == Nobody && expired !! s.lifecycle.pending.Keys
    requires sessions == s.sessions - expired
    requires packagers == s.packagers - set k | k in s.packagers && k !in sessions.Keys
    ensures
      var steps := [SSnapshot, SReapSessions(expired), SReapPackagers];
      CanRun(s, steps) && Run(s, steps) == s.(sessions := sessions, packagers := packagers, holder := Nobody)
  {
    assert packagers == map k | k in s.packagers && k in sessions.Keys :: s.packagers[k];
    ThreeSteps(s, SSnapshot, SReapSessions(expired), SReapPackagers);
    hide Run, CanRun;
  }

  lemma StopSteps(s: State, k: Key)
    requires !s.panicked && s.holder == Nobody
    ensures
      var steps := [SStop(k), SStopPackager, SStopSession];
      && CanRun(s, steps)
      && Run(s, steps) == Stop(s, k).(packagers := s.packagers - {k}, sessions := s.sessions - {k}, holder := Nobody)
  {
    ThreeSteps(s, SStop(k), SStopPackager, SStopSession);
    hide Run, CanRun, CancelAll;
  }

  lemma ShutdownSteps(s: State)
    requires !s.panicked && s.holder == Nobody
    ensures
      var steps := [SShutdown, SShutdownPackagers, SShutdownSessions];
      CanRun(s, steps) && Run(s, steps) == Shutdown(s).(packagers := map[], sessions := map[], holder := Nobody)
  {
    ThreeSteps(s, SShutdown, SShutdownPackagers, SShutdownSessions);
    hide Run, CanRun;
  }

  lemma OneStep(s: State, a: Step)
    requires Enabled(s, a)
    ensures CanRun(s, [a]) && Run(s, [a]) == Apply(s, a)
  {
    hide Enabled, Apply;
    assert [a][1..] == [];
    assert CanRun(Apply(s, a), []);
  }

  lemma ThreeSteps(s: State, a: Step, b: Step, c: Step)
    requires Enabled(s, a) && Enabled(Apply(s, a), b) && Enabled(Apply(Apply(s, a), b), c)
    ensures CanRun(s, [a, b, c]) && Run(s, [a, b, c]) == Apply(Apply(Apply(s, a), b), c)
  {
    hide Enabled, Apply;
    var s1 := Apply(s, a);
    OneStep(Apply(s1, b), c);
    assert [a, b, c][1..] == [b, c] && [b, c][1..] == [c];
    assert CanRun(s1, [b, c]) && Run(s1, [b, c]) == Apply(Apply(s1, b), c);
  }
}
