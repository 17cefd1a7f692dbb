/** How the audio worker drives a packager: which calls its recoveries turn into, and that the
    packager's generation follows the limiter's. */
module HlsWorker {
  import opened Ts
  import opened HlsModel
  import opened HlsInvariants
  import opened HlsRuns
  import opened HlsTheorems
  import R = Recovery

  /** What can happen around one worker. Output of a retired child still carries the token it was
      started with. A worker that gives up fails its current generation; one whose source closes or
      that is cancelled stops the packager. */
  datatype Action =
    | Invalidate(now: nat, reason: R.Reason)
    | Opening
    | Output(token: nat, data: seq<byte>, late: bool)
    | Poll(late: bool)
    | GiveUp(failure: Failure)
    | Finish

  ghost function Calls(l: R.Ledger, a: Action): seq<Call> {
    match a
    case Invalidate(now, reason) =>
      (match R.Reply(l, now, reason)
       case Limit => [Fail(1 + |l.accepted|, RecoveryLimit)]
       case Generation(number) => if number == 1 + |l.accepted| then [] else [Begin(number, true)])
    case Opening => []
    case Output(token, data, late) => [FeedToken(token, data, late)]
    case Poll(late) => [Call.Poll(late)]
    case GiveUp(failure) => [Fail(1 + |l.accepted|, failure)]
    case Finish => [Stop]
  }

  ghost function After(l: R.Ledger, a: Action): R.Ledger {
    match a
    case Invalidate(now, reason) => R.Next(l, R.Invalidate(now, reason))
    case Opening => R.Next(l, R.Opening)
    case _ => l
  }

  ghost function Trace(l: R.Ledger, actions: seq<Action>): seq<Call>
    decreases |actions|
  {
    if actions == [] then [] else Calls(l, actions[0]) + Trace(After(l, actions[0]), actions[1..])
  }

  ghost function Final(l: R.Ledger, actions: seq<Action>): R.Ledger
    decreases |actions|
  {
    if actions == [] then l else Final(After(l, actions[0]), actions[1..])
  }

  /** Every call of a worker's life: the first generation, then what its actions cause. */
  ghost function Life(actions: seq<Action>): seq<Call> {
    [Begin(1, false)] + Trace(R.EMPTY, actions)
  }

  /** The packager runs the limiter's generation, unless it is closed for good. */
  ghost predicate InStep(st: St, l: R.Ledger) {
    st.generation == 1 + |l.accepted| || Closed(st.status) || st.panicked
  }

  lemma OutputInStep(m: Media, k: Params, st: St, l: R.Ledger, token: nat, data: seq<byte>, late: bool)
    requires Inv(m, k, st) && InStep(st, l)
    ensures InStep(Apply(m, k, st, FeedToken(token, data, late)), l)
  {
    hide FeedLocked, ScanWf, Settled, PublicInv;
    if !st.panicked && token == st.generation && !Closed(st.status) {
      FeedLockedInv(m, k, st, data, Fenced(token), late);
      ExpireInv(m, k, st, late);
      FedKeeps(Expire(st, late), FeedLocked(m, k, st, data, Fenced(token), late), {Fenced(token)});
    }
  }

  lemma ActionInStep(m: Media, k: Params, st: St, l: R.Ledger, a: Action)
    requires Inv(m, k, st) && InStep(st, l)
    ensures |Calls(l, a)| <= 1
    ensures Calls(l, a) == [] ==> InStep(st, After(l, a))
    ensures Calls(l, a) != [] ==>
      && (Calls(l, a)[0].Begin? ==> Calls(l, a)[0].recovering)
      && InStep(Apply(m, k, st, Calls(l, a)[0]), After(l, a))
  {
    hide R.Recent, FeedLocked, ResetPartial, Inv;
    if a.Output? {
      OutputInStep(m, k, st, l, a.token, a.data, a.late);
    }
  }

  /** A worker is a well-behaved owner, and after every life its packager is in step: whatever
      token is not the limiter's current generation is stale to the packager. */
  lemma {:induction false} TraceInStep(m: Media, k: Params, st: St, l: R.Ledger, actions: seq<Action>)
    requires Inv(m, k, st) && InStep(st, l)
    ensures OwnerOk(m, k, st, Trace(l, actions))
    ensures InStep(Run(m, k, st, Trace(l, actions)), Final(l, actions))
    decreases |actions|
  {
    hide Apply, Settled, PublicInv, ScanWf, InStep, Calls, After;
    if actions != [] {
      var a := actions[0];
      ActionInStep(m, k, st, l, a);
      var now, rest := Calls(l, a), Trace(After(l, a), actions[1..]);
      if now == [] {
        assert now + rest == rest;
        TraceInStep(m, k, st, After(l, a), actions[1..]);
      } else {
        var c := now[0];
        ApplyWf(m, k, st, c);
        ApplyInv(m, k, st, c);
        TraceInStep(m, k, Apply(m, k, st, c), After(l, a), actions[1..]);
        assert now + rest == [c] + rest;
        assert (now + rest)[0] == c && (now + rest)[1..] == rest;
      }
    }
  }

  lemma WorkerInStep(m: Media, k: Params, named: bool, strict: bool, actions: seq<Action>)
    requires ValidParams(k)
    ensures
      var initial := Initial(k, Titled(k, named), strict);
      && FeedWf(m, k, initial)
      && OwnerOk(m, k, initial, Life(actions))
      && Reachable(m, k, named, strict, Life(actions), Run(m, k, initial, Life(actions)))
      && InStep(Run(m, k, initial, Life(actions)), Final(R.EMPTY, actions))
  {
    var initial := Initial(k, Titled(k, named), strict);
    InitialInv(m, k, named, strict);
    var c := Begin(1, false);
    ApplyWf(m, k, initial, c);
    ApplyInv(m, k, initial, c);
    assert Life(actions)[0] == c && Life(actions)[1..] == Trace(R.EMPTY, actions);
    var begun := Apply(m, k, initial, c);
    assert begun.generation == 1;
    hide Apply, Inv, ResetPartial, Initial;
    TraceInStep(m, k, begun, R.EMPTY, actions);
  }

  /** Over a worker's whole life, every segment that is neither first nor flagged continues the one
      before it. */
  lemma WorkerSeamless(m: Media, k: Params, named: bool, strict: bool, actions: seq<Action>, st: St, i: nat)
    requires ValidParams(k) && Reachable(m, k, named, strict, Life(actions), st)
    requires 0 < i < |st.hist.log| && !st.hist.log[i].segment.discontinuity
    ensures Continues(st.hist, i)
  {
    hide Run, OwnerOk, Life, Inv, InStep;
    WorkerInStep(m, k, named, strict, actions);
    UnflaggedContinues(m, k, named, strict, Life(actions), st, i);
  }
}
