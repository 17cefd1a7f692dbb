/** The recovery limiter: a deque of at most three times, against a reference that remembers
    every accepted invalidation and counts. Times are nanoseconds of one monotonic clock. */
module Recovery {
  import opened Ts

  const MINUTE: nat := 60_000_000_000

  datatype Reason = Source | Lag | Layout | Transport

  datatype Answer = Generation(number: nat) | Limit

  // ----- The reference --------------------------------------------------------------------

  /** All accepted times, and whether a transport marker is still owed to a source event. */
  datatype Ledger = Ledger(accepted: seq<nat>, paired: bool)

  const EMPTY := Ledger([], false)

  datatype Event = Invalidate(now: nat, reason: Reason) | Opening

  /** How many times lie less than a minute before `now`. */
  ghost function Recent(times: seq<nat>, now: nat): nat {
    if times == [] then 0
    else Recent(times[..|times| - 1], now) + (if now - times[|times| - 1] < MINUTE then 1 else 0)
  }

  ghost function Next(l: Ledger, e: Event): Ledger {
    match e
    case Opening => l.(paired := false)
    case Invalidate(now, reason) =>
      if (reason == Transport && l.paired) || Recent(l.accepted, now) >= 3 then l
      else Ledger(l.accepted + [now], reason == Source)
  }

  ghost function Reply(l: Ledger, now: nat, reason: Reason): Answer {
    if !(reason == Transport && l.paired) && Recent(l.accepted, now) >= 3 then Limit
    else Generation(1 + |Next(l, Invalidate(now, reason)).accepted|)
  }

  ghost function History(events: seq<Event>): Ledger {
    if events == [] then EMPTY else Next(History(events[..|events| - 1]), events[|events| - 1])
  }

  /** Call times never go back. */
  ghost predicate Ordered(events: seq<Event>) {
    forall i, j | 0 <= i < j < |events| && events[i].Invalidate? && events[j].Invalidate? ::
      events[i].now <= events[j].now
  }

  ghost predicate Sorted(times: seq<nat>) {
    forall i, j | 0 <= i < j < |times| :: times[i] <= times[j]
  }

  ghost predicate Within(times: seq<nat>, now: nat) {
    forall i | 0 <= i < |times| :: times[i] <= now
  }

  lemma {:induction false} RecentSuffix(times: seq<nat>, now: nat, k: nat)
    requires Sorted(times) && k <= |times|
    requires forall i | 0 <= i < |times| - k :: now - times[i] >= MINUTE
    requires forall i | |times| - k <= i < |times| :: now - times[i] < MINUTE
    ensures Recent(times, now) == k
  {
    if times != [] {
      RecentSuffix(times[..|times| - 1], now, if k == 0 then 0 else k - 1);
    }
  }

  lemma {:induction false} RecentAtLeast(times: seq<nat>, now: nat, k: nat)
    requires Sorted(times) && k < |times| && now - times[k] < MINUTE
    ensures Recent(times, now) >= |times| - k
  {
    assert times[k] <= times[|times| - 1];
    if k < |times| - 1 {
      RecentAtLeast(times[..|times| - 1], now, k);
    }
  }

  lemma {:induction false} RecentWitness(times: seq<nat>, now: nat)
    requires Sorted(times)
    ensures Recent(times, now) <= |times|
    ensures Recent(times, now) >= 3 ==> |times| >= 3 && now - times[|times| - 3] < MINUTE
  {
    if times != [] {
      var front := times[..|times| - 1];
      RecentWitness(front, now);
      assert forall i | 0 <= i < |front| :: front[i] == times[i];
      if now - times[|times| - 1] >= MINUTE {
        NoneRecent(times, now);
      } else if Recent(front, now) == 2 {
        RecentPair(front, now);
      } else if Recent(front, now) >= 3 {
        assert times[|times| - 4] <= times[|times| - 3];
      }
    }
  }

  lemma {:induction false} NoneRecent(times: seq<nat>, now: nat)
    requires Sorted(times) && times != [] && now - times[|times| - 1] >= MINUTE
    ensures Recent(times, now) == 0
  {
    if |times| > 1 {
      NoneRecent(times[..|times| - 1], now);
    }
  }

  lemma RecentPair(times: seq<nat>, now: nat)
    requires Sorted(times) && Recent(times, now) == 2
    ensures |times| >= 2 && now - times[|times| - 2] < MINUTE
  {
    if now - times[|times| - 1] >= MINUTE {
      NoneRecent(times, now);
    } else if |times| >= 2 && now - times[|times| - 2] >= MINUTE {
      NoneRecent(times[..|times| - 1], now);
    }
  }

  ghost predicate Before(events: seq<Event>, now: nat) {
    forall i | 0 <= i < |events| && events[i].Invalidate? :: events[i].now <= now
  }

  lemma {:induction false} HistoryWithin(events: seq<Event>, now: nat)
    requires Before(events, now)
    ensures Within(History(events).accepted, now)
  {
    if events != [] {
      var front := events[..|events| - 1];
      assert forall i | 0 <= i < |front| :: front[i] == events[i];
      HistoryWithin(front, now);
    }
  }

  lemma {:induction false} HistorySorted(events: seq<Event>)
    requires Ordered(events)
    ensures Sorted(History(events).accepted)
  {
    if events != [] {
      var front, e := events[..|events| - 1], events[|events| - 1];
      assert forall i | 0 <= i < |front| :: front[i] == events[i];
      HistorySorted(front);
      if e.Invalidate? {
        HistoryWithin(front, e.now);
      }
    }
  }

  /** Any four accepted invalidations span at least a minute. */
  lemma {:induction false} FourSpanAMinute(events: seq<Event>, i: nat, j: nat)
    requires Ordered(events) && i + 3 <= j < |History(events).accepted|
    ensures History(events).accepted[j] - History(events).accepted[i] >= MINUTE
  {
    var front := events[..|events| - 1];
    var before, after := History(front).accepted, History(events).accepted;
    HistorySorted(events);
    HistorySorted(front);
    if j < |before| {
      FourSpanAMinute(front, i, j);
    } else if after[j] - after[i] < MINUTE {
      assert after == before + [after[j]];
      RecentAtLeast(before, after[j], i);
    }
  }

  lemma OrderedFront(events: seq<Event>, e: Event)
    requires Ordered(events + [e])
    ensures Ordered(events)
    ensures e.Invalidate? ==> Before(events, e.now)
  {
    var all := events + [e];
    assert forall i | 0 <= i < |events| :: all[i] == events[i];
    assert all[|events|] == e;
  }

  /** A call is refused exactly when three were accepted within the last minute and it is not a
      marker already paired with a source event. */
  lemma RefusedExactly(events: seq<Event>, now: nat, reason: Reason)
    requires Ordered(events + [Invalidate(now, reason)])
    ensures
      var l := History(events);
      Reply(l, now, reason) == Limit <==>
        && !(reason == Transport && l.paired)
        && |l.accepted| >= 3 && now - l.accepted[|l.accepted| - 3] < MINUTE
  {
    OrderedFront(events, Invalidate(now, reason));
    HistorySorted(events);
    hide Recent, Sorted, Ordered;
    var times := History(events).accepted;
    RecentWitness(times, now);
    if |times| >= 3 && now - times[|times| - 3] < MINUTE {
      RecentAtLeast(times, now, |times| - 3);
    }
  }

  function Markers(times: seq<nat>): seq<Event> {
    seq(|times|, i requires 0 <= i < |times| => Invalidate(times[i], Transport))
  }

  /** After an accepted source event, transport markers change nothing until the opening: each is
      answered with the source event's own generation, however many come and whenever. */
  lemma {:induction false} MarkersAbsorbed(events: seq<Event>, now: nat, times: seq<nat>, next: nat)
    requires Reply(History(events), now, Source) != Limit
    ensures
      var after := events + [Invalidate(now, Source)];
      && History(after + Markers(times)) == Ledger(History(events).accepted + [now], true)
      && Reply(History(after + Markers(times)), next, Transport) == Reply(History(events), now, Source)
  {
    hide Recent;
    var after := events + [Invalidate(now, Source)];
    if times == [] {
      assert after + Markers(times) == after && after[..|after| - 1] == events;
    } else {
      var fewer := times[..|times| - 1];
      MarkersAbsorbed(events, now, fewer, next);
      var all := after + Markers(times);
      assert all[..|all| - 1] == after + Markers(fewer);
    }
  }

  /** Call `i` opened a generation of its own: it was neither a marker owed to a source event nor one
      too many. */
  ghost predicate Accepted(events: seq<Event>, i: nat) {
    && i < |events| && events[i].Invalidate?
    && Reply(History(events[..i]), events[i].now, events[i].reason)
       == Generation(2 + |History(events[..i]).accepted|)
  }

  /** The last call that opened a generation was a source event, and no generation has opened since. */
  ghost predicate Owed(events: seq<Event>, i: nat) {
    && i < |events| && Accepted(events, i) && events[i].Invalidate? && events[i].reason == Source
    && forall j | i < j < |events| :: !Accepted(events, j) && events[j] != Opening
  }

  lemma AcceptedFront(events: seq<Event>, i: nat)
    requires i < |events| - 1
    ensures Accepted(events[..|events| - 1], i) == Accepted(events, i)
  {
    assert events[..|events| - 1][..i] == events[..i];
  }

  /** The latest call settles what is owed, or leaves it as it was. */
  lemma OwedSteps(events: seq<Event>)
    requires events != []
    ensures var front, last := events[..|events| - 1], |events| - 1;
            (exists i: nat :: Owed(events, i)) <==>
              if events[last] == Opening then false
              else if Accepted(events, last) then events[last].reason == Source
              else exists i: nat :: Owed(front, i)
  {
    hide Accepted;
    var front, last := events[..|events| - 1], |events| - 1;
    if events[last] == Opening { OpeningNotAccepted(events, last); }
    if i: nat :| Owed(events, i) {
      if i < last { OwedFront(events, i); }
    }
    if i: nat :| Owed(front, i) {
      OwedFront(events, i);
    }
    if Accepted(events, last) && events[last] != Opening && events[last].reason == Source {
      assert Owed(events, last);
    }
  }

  lemma OpeningNotAccepted(events: seq<Event>, i: nat)
    requires i < |events| && events[i] == Opening
    ensures !Accepted(events, i)
  {
  }

  lemma OwedFront(events: seq<Event>, i: nat)
    requires i < |events| - 1
    ensures var front, last := events[..|events| - 1], |events| - 1;
            Owed(events, i) <==> Owed(front, i) && !Accepted(events, last) && events[last] != Opening
  {
    hide Accepted;
    var front, last := events[..|events| - 1], |events| - 1;
    forall j: nat | j < last ensures Accepted(front, j) == Accepted(events, j) && front[j] == events[j] {
      AcceptedFront(events, j);
    }
    assert events[last] == events[last];
  }

  /** A transport marker is absorbed exactly as long as one is owed. */
  lemma {:induction false} PairedExactly(events: seq<Event>)
    ensures History(events).paired <==> exists i: nat :: Owed(events, i)
  {
    hide Recent, Owed;
    if events != [] {
      PairedExactly(events[..|events| - 1]);
      OwedSteps(events);
    } else {
      forall i: nat ensures !Owed(events, i) {
        NothingOwed(i);
      }
    }
  }

  lemma NothingOwed(i: nat)
    ensures !Owed([], i)
  {
  }

  /** How many calls opened a generation. */
  ghost function Generations(events: seq<Event>): nat {
    if events == [] then 0
    else Generations(events[..|events| - 1]) + if Accepted(events, |events| - 1) then 1 else 0
  }

  /** Every call that is not refused is answered with one more than the number of generations opened so
      far, itself included. */
  lemma {:induction false} GenerationsCount(events: seq<Event>)
    ensures |History(events).accepted| == Generations(events)
  {
    hide Recent;
    if events != [] {
      GenerationsCount(events[..|events| - 1]);
    }
  }

  // ----- The limiter ----------------------------------------------------------------------

  class RecoveryWindow {
    var invalidations: seq<nat>
    var generation: nat
    var pairedMarker: bool
    /** Every call so far. */
    ghost var events: seq<Event>

    /** The deque holds the latest accepted times; those it dropped are a minute old at any time
        a further call can come. */
    ghost predicate Valid()
      reads this
    {
      && Ordered(events)
      && generation == 1 + |History(events).accepted|
      && pairedMarker == History(events).paired
      && forall now | Before(events, now) :: Holds(invalidations, History(events).accepted, now)
    }

    constructor ()
      ensures Valid() && events == []
    {
      invalidations, generation, pairedMarker := [], 1, false;
      events := [];
    }

    /** Refines the reference for every order-respecting sequence of calls. */
    method Invalidate(now: nat, reason: Reason) returns (r: Answer)
      requires Valid() && Ordered(events + [Event.Invalidate(now, reason)])
      modifies this
      ensures Valid() && events == old(events) + [Event.Invalidate(now, reason)]
      ensures r == Reply(History(old(events)), now, reason)
    {
      hide Recent, Ordered, Sorted, Before, Within, Holds, History;
      ghost var call := Event.Invalidate(now, reason);
      ghost var accepted := History(events).accepted;
      HistoryAppend(events, call);
      OrderedFront(events, call);
      HistorySorted(events);
      events := events + [call];
      ghost var next := History(events);
      if reason == Transport && pairedMarker {
        StillHolds(invalidations, accepted, old(events), call);
        return Generation(generation);
      }
      while invalidations != [] && now - invalidations[0] >= MINUTE
        invariant Holds(invalidations, accepted, now)
        invariant generation == 1 + |accepted| && pairedMarker == old(pairedMarker) && events == old(events) + [call]
      {
        HoldsPop(invalidations, accepted, now);
        invalidations := invalidations[1..];
      }
      HoldsAll(invalidations, accepted, now);
      if |invalidations| == 3 {
        StillHolds(invalidations, accepted, old(events), call);
        return Limit;
      }
      HoldsPush(invalidations, accepted, now);
      invalidations := invalidations + [now];
      generation := generation + 1;
      pairedMarker := reason == Source;
      StillHolds(invalidations, accepted + [now], old(events), call);
      return Generation(generation);
    }

    method Opening()
      requires Valid()
      modifies this
      ensures Valid() && events == old(events) + [Event.Opening]
      ensures !pairedMarker
    {
      hide Recent, Holds;
      ghost var before := events;
      HistoryAppend(events, Event.Opening);
      events := events + [Event.Opening];
      pairedMarker := false;
      forall now | Before(events, now) ensures Before(before, now) {
        assert forall i | 0 <= i < |before| :: before[i] == events[i];
      }
    }
  }

  ghost predicate Holds(window: seq<nat>, accepted: seq<nat>, now: nat) {
    && |window| <= 3 && |window| <= |accepted|
    && window == accepted[|accepted| - |window|..]
    && forall i | 0 <= i < |accepted| - |window| :: now - accepted[i] >= MINUTE
  }

  lemma HistoryAppend(events: seq<Event>, e: Event)
    ensures History(events + [e]) == Next(History(events), e)
  {
    assert (events + [e])[..|events|] == events;
  }

  lemma StillHolds(window: seq<nat>, accepted: seq<nat>, events: seq<Event>, call: Event)
    requires call.Invalidate? && Holds(window, accepted, call.now)
    ensures forall now | Before(events + [call], now) :: Holds(window, accepted, now)
  {
    forall now | Before(events + [call], now) ensures Holds(window, accepted, now) {
      assert (events + [call])[|events|] == call;
    }
  }

  lemma HoldsPush(window: seq<nat>, accepted: seq<nat>, now: nat)
    requires Holds(window, accepted, now) && |window| < 3
    ensures Holds(window + [now], accepted + [now], now)
  {
  }

  lemma HoldsPop(window: seq<nat>, accepted: seq<nat>, now: nat)
    requires Holds(window, accepted, now) && window != [] && now - window[0] >= MINUTE
    ensures Holds(window[1..], accepted, now)
  {
    assert window[0] == accepted[|accepted| - |window|];
  }

  lemma HoldsAll(window: seq<nat>, accepted: seq<nat>, now: nat)
    requires Holds(window, accepted, now) && Sorted(accepted)
    requires window != [] ==> now - window[0] < MINUTE
    ensures Recent(accepted, now) == |window| <= 3
  {
    assert forall i | 0 <= i < |window| :: window[i] == accepted[|accepted| - |window| + i];
    RecentSuffix(accepted, now, |window|);
  }
}
