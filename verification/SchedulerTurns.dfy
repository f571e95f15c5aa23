/// What a turn of the owner's loop does to all the requests, and a run of turns
/// (deploy/house-model/exl3_server.py).

module SchedulerTurns {
  import opened SchedulerState
  import opened SchedulerMeasure

  // The answers that wait.

  /** Request `id` does not wait, or its pages do not fit. */
  predicate Misfit(v: View, l: Limits, id: nat) {
    id in v.requests && (v.requests[id].grow == 0 || v.reserved + v.requests[id].grow > l.poolPages)
  }

  predicate AllMisfit(v: View, l: Limits) {
    forall id :: id in v.active ==> Misfit(v, l, id)
  }

  /** No answer that waits can go, nor is forced to. */
  ghost predicate HeldBack(v: View, l: Limits) {
    AllMisfit(v, l) && (v.jobs != {} || Waiting(v) == {})
  }

  lemma WaitingWeighs(v: View, l: Limits, id: nat)
    requires Inv(v, l, {}, {}) && id in v.active && v.requests[id].grow > 0
    ensures Weight(v.requests[id]) == 4 && !v.requests[id].released && id in Waiting(v)
  {
    assert Stands(v, {}, id);
  }

  /** Answers tried, none forced. */
  ghost predicate Tried(v: View, w: View, l: Limits, depth: nat, inRoom: bool) {
    && Calm(v, w, l, depth, inRoom) && Pooled(v, w, l) && w.ingress == v.ingress
    && Waiting(w) <= Waiting(v) && v.jobs <= w.jobs && (w == v || Falls(v, w))
  }

  lemma TriedOn(a: View, v: View, w: View, id: nat, l: Limits, depth: nat, inRoom: bool)
    requires Tried(a, v, l, depth, inRoom) && Inv(v, l, {}, {}) && id in v.active && v.requests[id].grow > 0
    requires Grew(id, v, w) && !Misfit(v, l, id)
    ensures Falls(a, w) && Tried(a, w, l, depth, inRoom)
  {
    WaitingWeighs(v, l, id);
    WaitingShrinks(id, v, w);
    GrewIsSteady(id, v, w, l, depth, inRoom);
    SteadyOn(a, id, v, w, l, depth, inRoom);
  }

  predicate MisfitTo(v: View, l: Limits, all: seq<nat>, i: nat)
    requires i <= |all|
  {
    forall k :: 0 <= k < i ==> Misfit(v, l, all[k])
  }

  predicate From(v: View, all: seq<nat>, i: nat)
    requires i <= |all|
  {
    forall k :: i <= k < |all| ==> all[k] in v.active
  }

  /** The answers of `all` tried up to `i`. */
  ghost predicate TriedTo(a: View, v: View, all: seq<nat>, i: nat, l: Limits, depth: nat, inRoom: bool)
    requires i <= |all|
  {
    && Tried(a, v, l, depth, inRoom) && From(v, all, i)
    && (AllMisfit(a, l) ==> v == a) && (v == a ==> MisfitTo(a, l, all, i))
  }

  lemma TriedNext(a: View, v: View, w: View, all: seq<nat>, i: nat, n: nat, l: Limits, depth: nat, inRoom: bool)
    requires i < |all| && n == i + 1 && Distinct(all) && TriedTo(a, v, all, i, l, depth, inRoom) && Inv(v, l, {}, {})
    requires all[i] in v.active && if Misfit(v, l, all[i]) then w == v else Grew(all[i], v, w)
    ensures TriedTo(a, w, all, n, l, depth, inRoom)
  {
    if w != v {
      TriedOn(a, v, w, all[i], l, depth, inRoom);
      CalmSame(a, l, depth, inRoom);
      OthersStay(all[i], v, w, all, i);
    }
  }

  lemma TriedAll(a: View, v: View, l: Limits, depth: nat, inRoom: bool)
    requires TriedTo(a, v, a.active, |a.active|, l, depth, inRoom)
    ensures if AllMisfit(a, l) then v == a else Falls(a, v)
  {
    if v == a {
      forall id | id in a.active
        ensures Misfit(a, l, id)
      {
        var k :| 0 <= k < |a.active| && a.active[k] == id;
      }
    }
  }

  /** And one forced. */
  lemma ForcedOn(a: View, v: View, w: View, id: nat, l: Limits, depth: nat, inRoom: bool)
    requires Tried(a, v, l, depth, inRoom) && Inv(v, l, {}, {}) && id in v.active && v.requests[id].grow > 0
    requires Grew(id, v, w)
    ensures Falls(a, w) && Calm(a, w, l, depth, inRoom) && Waiting(w) <= Waiting(a) && id !in Waiting(w)
  {
    WaitingWeighs(v, l, id);
    WaitingShrinks(id, v, w);
    SteppedLowers(id, v, w);
    KinOne(id, v, w);
    assert inRoom && Roomy(v, l, depth) ==> HoldsNeed(v.requests[id], l, depth);
    CalmOn(a, v, w, l, depth, inRoom);
  }

  /** With no Job to run the oldest answer that waits goes, whatever is
      reserved; else nothing more does. */
  predicate ForcedFrom(mid: View, w: View)
    requires Known(mid.requests, mid.active)
  {
    var first := FirstWaiting(mid.requests, mid.active);
    if mid.jobs == {} && first.Some? then Grew(first.value, mid, w) else w == mid
  }

  /** The oldest answer that waits is forced, and does not fit. */
  predicate PastPool(mid: View, l: Limits) {
    && Known(mid.requests, mid.active) && mid.jobs == {}
    && var first := FirstWaiting(mid.requests, mid.active);
    first.Some? && mid.reserved + mid.requests[first.value].grow > l.poolPages
  }

  /** Its start did not fail. */
  predicate StillIn(mid: View, w: View) {
    && Known(mid.requests, mid.active)
    && var first := FirstWaiting(mid.requests, mid.active);
    first.Some? && first.value in w.active
  }

  /** Forcing an answer passes the pool exactly when its pages do not fit and
      its start does not fail. */
  lemma ForcedPasses(mid: View, w: View, l: Limits)
    requires Known(mid.requests, mid.active) && ForcedFrom(mid, w) && mid.reserved <= l.poolPages
    ensures w.reserved > l.poolPages <==> PastPool(mid, l) && StillIn(mid, w)
  {
  }

  lemma ForcedDone(v: View, mid: View, w: View, l: Limits, depth: nat, inRoom: bool)
    requires Tried(v, mid, l, depth, inRoom) && Inv(mid, l, {}, {}) && ForcedFrom(mid, w)
    requires if AllMisfit(v, l) then mid == v else Falls(v, mid)
    ensures Calm(v, w, l, depth, inRoom) && w.ingress == v.ingress && Waiting(w) <= Waiting(v)
    ensures if HeldBack(v, l) then w == v else Falls(v, w)
  {
    var first := FirstWaiting(mid.requests, mid.active);
    if mid.jobs == {} && first.Some? {
      ForcedOn(v, mid, w, first.value, l, depth, inRoom);
    }
  }

  lemma ForcedPooled(v: View, mid: View, w: View, l: Limits)
    requires Known(mid.requests, mid.active) && ForcedFrom(mid, w) && Pooled(v, mid, l)
    ensures Pooled(v, w, l) || PastPool(mid, l)
    ensures v.reserved <= l.poolPages ==> (w.reserved > l.poolPages <==> PastPool(mid, l) && StillIn(mid, w))
  {
    if mid.reserved <= l.poolPages {
      ForcedPasses(mid, w, l);
    }
  }

  // When nothing moves.

  /** Serial `s` is pending, or its call is not paused by the host; a stranded
      Job is never paused. */
  predicate Runs(v: View, started: set<nat>, s: nat) {
    s !in started || s !in v.bySerial || v.bySerial[s] !in v.requests
    || !v.requests[v.bySerial[s]].work.yielded || v.requests[v.bySerial[s]].custody
  }

  /** The Generator has a Job the policy may run. */
  predicate Runnable(v: View, started: set<nat>, prioritized: bool) {
    if prioritized then exists s :: s in v.jobs && Runs(v, started, s) else v.jobs != {}
  }

  predicate Reapt(v: View)
    requires Known(v.requests, v.active)
  {
    forall id :: id in v.active ==> v.requests[id].cancelled ==> v.requests[id].custody
  }

  predicate NoneDropped(v: View)
    requires Known(v.requests, v.ingress)
  {
    forall id :: id in v.ingress ==> !v.requests[id].cancelled
  }

  /** A pass would change nothing: no one to reap, no answer to start, no one
      to let in and no Job to run. */
  ghost predicate Moveless(v: View, started: set<nat>, l: Limits, prioritized: bool, blocked: bool)
    requires Known(v.requests, v.ingress) && Known(v.requests, v.active)
  {
    Reapt(v) && HeldBack(v, l) && !Admissible(v, l, prioritized, blocked) && !Runnable(v, started, prioritized)
  }

  /** And the queue holds no one cancelled: a turn finds nothing to do. */
  ghost predicate Stuck(v: View, started: set<nat>, l: Limits, prioritized: bool, blocked: bool)
    requires Known(v.requests, v.ingress) && Known(v.requests, v.active)
  {
    NoneDropped(v) && Moveless(v, started, l, prioritized, blocked)
  }

  /** The host paused it all: every Job in flight, or with none the queue. */
  predicate Parked(v: View, started: set<nat>)
    requires Known(v.requests, v.ingress)
  {
    if v.jobs != {} then forall s :: s in v.jobs ==> !Runs(v, started, s)
    else v.active == [] && v.ingress != [] && forall id :: id in v.ingress ==> v.requests[id].work.yielded
  }

  /** A request not over that the host paused. */
  predicate PausedCall(v: View, id: nat) {
    id in v.requests && v.requests[id].work.yielded && Weight(v.requests[id]) > 0
  }

  /** What is parked holds a paused request. */
  lemma ParkedPauses(v: View, started: set<nat>, l: Limits)
    requires Inv(v, l, {}, {}) && Parked(v, started)
    ensures exists id :: PausedCall(v, id)
  {
    if v.jobs != {} {
      var s :| s in v.jobs;
      assert Names(v, s);
      assert PausedCall(v, v.bySerial[s]);
    } else {
      FirstIn(v.ingress);
      assert Stands(v, {}, v.ingress[0]);
      assert PausedCall(v, v.ingress[0]);
    }
  }

  /** Under FIFO nothing is parked for ever: a turn finds nothing to do only
      once all is over. Under the class policy only then, or when the host
      paused what is left; so with no request paused, only once all is over. */
  lemma StuckIsOver(v: View, started: set<nat>, l: Limits, prioritized: bool, blocked: bool)
    requires Inv(v, l, {}, {}) && Stuck(v, started, l, prioritized, blocked) && l.maxInFlight >= 1
    ensures AllOver(v) || (prioritized && Parked(v, started))
    ensures AllOver(v) || (prioritized && exists id :: PausedCall(v, id))
  {
    StuckIsParked(v, started, l, prioritized, blocked);
    if !AllOver(v) {
      ParkedPauses(v, started, l);
    }
  }

  lemma StuckIsParked(v: View, started: set<nat>, l: Limits, prioritized: bool, blocked: bool)
    requires Inv(v, l, {}, {}) && Stuck(v, started, l, prioritized, blocked) && l.maxInFlight >= 1
    ensures AllOver(v) || (prioritized && Parked(v, started))
  {
    if v.jobs == {} {
      IdleIsEmpty(v, l, prioritized, blocked);
      if prioritized {
        HeadIsSome(v.requests, v.ingress);
      }
      forall id | id in v.requests && v.ingress == []
        ensures Weight(v.requests[id]) == 0
      {
        assert Stands(v, {}, id);
      }
    }
  }

  // Every request failed.

  /** Those of `some` up to `i` failed. */
  ghost predicate FailedTo(a: View, v: View, some: seq<nat>, i: nat, limbo: set<nat>, l: Limits, depth: nat, inRoom: bool)
    requires i <= |some|
  {
    && Known(v.requests, v.active) && LeftToFail(v, a.active, some, i, limbo) && v.ingress == a.ingress
    && Calm(a, v, l, depth, inRoom) && Pooled(a, v, l) && SameJobs(a, v)
  }

  /** Those still in flight have the Job they had. */
  predicate SameJobs(a: View, v: View) {
    forall id :: id in v.active ==> id in a.requests && id in v.requests && v.requests[id].job == a.requests[id].job
  }

  lemma FailedToStart(v: View, some: seq<nat>, limbo: set<nat>, l: Limits, depth: nat, inRoom: bool)
    requires Known(v.requests, v.active) && LeftToFail(v, v.active, some, 0, limbo)
    ensures FailedTo(v, v, some, 0, limbo, l, depth, inRoom)
  {
    CalmSame(v, l, depth, inRoom);
  }

  lemma SameJobsNext(a: View, v: View, w: View, id: nat)
    requires SameJobs(a, v) && Distinct(v.active) && id in v.active && FailedAs(id, v, w)
    ensures SameJobs(a, w)
  {
    WithoutIs(v.active, id);
  }

  lemma FailedToNext(a: View, v: View, w: View, some: seq<nat>, i: nat, n: nat, limbo: set<nat>, gone: set<nat>,
                     l: Limits, depth: nat, inRoom: bool)
    requires i < |some| && n == i + 1 && Distinct(some) && Inv(v, l, limbo, gone) && Known(w.requests, w.active)
    requires FailedTo(a, v, some, i, limbo, l, depth, inRoom) && FailedAs(some[i], v, w)
    ensures FailedTo(a, w, some, n, limbo - {some[i]}, l, depth, inRoom)
  {
    FailedNext(v, w, limbo, a.active, some, i);
    FailedIsSteady(some[i], v, w, l, depth, inRoom);
    SameJobsNext(a, v, w, some[i]);
    SteadyOn(a, some[i], v, w, l, depth, inRoom);
  }

  /** Those of `some` are over or in custody. */
  ghost predicate AllFailed(a: View, v: View, some: seq<nat>, l: Limits, depth: nat, inRoom: bool) {
    && v.ingress == a.ingress && Calm(a, v, l, depth, inRoom) && Pooled(a, v, l) && SameJobs(a, v)
    && forall id :: id in v.active ==> id in a.active && id in v.requests && (id in some ==> v.requests[id].custody)
  }

  lemma FailedAll(a: View, v: View, some: seq<nat>, limbo: set<nat>, gone: set<nat>, l: Limits, depth: nat, inRoom: bool)
    requires Inv(v, l, limbo, gone) && FailedTo(a, v, some, |some|, limbo, l, depth, inRoom)
    ensures Inv(v, l, {}, {}) && AllFailed(a, v, some, l, depth, inRoom)
  {
    assert limbo == {};
    assert forall id :: id in v.active ==> Failing(v, some, |some|, id);
    NoneGone(v, l, {}, gone);
  }

  ghost function AllOf(some: seq<nat>): set<nat> {
    set id | id in some
  }

  /** Those of `some` up to `i` failed, and none but of `some` was told its
      end. */
  ghost predicate FailedThus(a: View, v: View, some: seq<nat>, i: nat, limbo: set<nat>, log: seq<nat>, l: Limits, depth: nat, inRoom: bool)
    requires i <= |some|
  {
    FailedTo(a, v, some, i, limbo, l, depth, inRoom) && EndsFor(a, v, log, log, AllOf(some))
  }

  lemma FailedThusNext(a: View, v: View, w: View, some: seq<nat>, i: nat, n: nat, limbo: set<nat>, less: set<nat>, gone: set<nat>, log: seq<nat>,
                       l: Limits, depth: nat, inRoom: bool)
    requires i < |some| && n == i + 1 && less == limbo - {some[i]} && Distinct(some) && Inv(v, l, limbo, gone) && Inv(w, l, less, gone)
    requires FailedThus(a, v, some, i, limbo, log, l, depth, inRoom) && FailedAs(some[i], v, w)
    ensures FailedThus(a, w, some, n, less, log, l, depth, inRoom)
  {
    FailedToNext(a, v, w, some, i, n, limbo, gone, l, depth, inRoom);
    EndsForOne(some[i], v, w, log, log, AllOf(some));
    EndsForOn(a, v, w, log, log, log, AllOf(some));
  }

  lemma FailedThusAll(a: View, v: View, some: seq<nat>, n: nat, limbo: set<nat>, gone: set<nat>, log: seq<nat>,
                      l: Limits, depth: nat, inRoom: bool)
    requires n == |some| && Inv(v, l, limbo, gone) && FailedThus(a, v, some, n, limbo, log, l, depth, inRoom)
    ensures Inv(v, l, {}, {}) && AllFailed(a, v, some, l, depth, inRoom) && EndsFor(a, v, log, log, AllOf(some))
  {
    FailedAll(a, v, some, limbo, gone, l, depth, inRoom);
  }

  /** One request looked at, and ended if it is cancelled. */
  ghost predicate ReapedOne(id: nat, v: View, w: View, log: seq<nat>, l: Limits, depth: nat, inRoom: bool) {
    && Known(w.requests, w.ingress) && Known(w.requests, w.active) && Distinct(w.active)
    && Steady(id, v, w, l, depth, inRoom) && EndsFor(v, w, log, log, CancelledIn(v))
    && (id in w.active ==> w.requests[id].cancelled ==> w.requests[id].custody)
    && (!v.requests[id].cancelled || v.requests[id].custody ==> w == v)
  }

  lemma CancelledKin(v: View, w: View)
    requires Kin(v, w)
    ensures CancelledIn(w) == CancelledIn(v)
  {
    forall id | id in v.requests
      ensures id in CancelledIn(w) <==> id in CancelledIn(v)
    {
      assert KinAt(v, w, id);
    }
  }

  /** Those of `all` up to `i` looked at. */
  ghost predicate ReapedTo(a: View, v: View, all: seq<nat>, i: nat, log: seq<nat>, l: Limits, depth: nat, inRoom: bool)
    requires i <= |all|
  {
    && Known(a.requests, a.ingress) && Known(a.requests, a.active) && Distinct(v.active) && Distinct(all) && (Reapt(a) ==> v == a)
    && Known(v.requests, v.ingress) && Known(v.requests, v.active) && v.ingress == a.ingress && Reaped(v, all, i)
    && Calm(a, v, l, depth, inRoom) && Pooled(a, v, l) && EndsFor(a, v, log, log, CancelledIn(a))
  }

  lemma ReapedToNext(a: View, v: View, w: View, all: seq<nat>, i: nat, n: nat, log: seq<nat>, l: Limits, depth: nat, inRoom: bool)
    requires i < |all| && n == i + 1
    requires ReapedTo(a, v, all, i, log, l, depth, inRoom) && ReapedOne(all[i], v, w, log, l, depth, inRoom)
    ensures ReapedTo(a, w, all, n, log, l, depth, inRoom)
  {
    ReapedNext(v, w, all, i);
    SteadyOn(a, all[i], v, w, l, depth, inRoom);
    CancelledKin(a, v);
    EndsForOn(a, v, w, log, log, log, CancelledIn(a));
  }

  lemma ReapedStart(a: View, all: seq<nat>, log: seq<nat>, l: Limits, depth: nat, inRoom: bool)
    requires Known(a.requests, a.ingress) && Known(a.requests, a.active) && Distinct(a.active) && all == a.active
    ensures ReapedTo(a, a, all, 0, log, l, depth, inRoom)
  {
    CalmSame(a, l, depth, inRoom);
    EndsForSame(a, a, log, CancelledIn(a));
    assert a.active[0..] == a.active;
  }

  lemma ReapedAll(a: View, v: View, all: seq<nat>, i: nat, log: seq<nat>, l: Limits, depth: nat, inRoom: bool)
    requires i == |all| && ReapedTo(a, v, all, i, log, l, depth, inRoom)
    ensures ReapedFrom(a, v, log, l, depth, inRoom)
  {
    QueueKept(a, v);
  }

  /** No one cancelled is left in flight but in custody; with none there
      nothing changed. */
  ghost predicate ReapedFrom(a: View, v: View, log: seq<nat>, l: Limits, depth: nat, inRoom: bool) {
    && Known(a.requests, a.ingress) && Known(a.requests, a.active)
    && Known(v.requests, v.ingress) && Known(v.requests, v.active) && v.ingress == a.ingress && Reapt(v)
    && (NoneDropped(a) ==> NoneDropped(v)) && (Reapt(a) ==> v == a)
    && Calm(a, v, l, depth, inRoom) && Pooled(a, v, l) && EndsFor(a, v, log, log, CancelledIn(a))
  }

  lemma QueueKept(v: View, w: View)
    requires Known(v.requests, v.ingress) && Known(w.requests, w.ingress) && Kin(v, w) && w.ingress == v.ingress
    ensures NoneDropped(v) ==> NoneDropped(w)
  {
    forall id | id in w.ingress
      ensures w.requests[id].cancelled == v.requests[id].cancelled
    {
      assert KinAt(v, w, id);
    }
  }

  /** Those of `some` whose first pass cannot begin. */
  ghost function UnreadyOf(v: View, some: seq<nat>, encode: Encoder): set<nat> {
    set id | id in some && id in v.requests && Unready(encode, id, v.requests[id])
  }

  lemma StartedEnds(a: View, v: View, w: View, x: seq<nat>, y: seq<nat>, z: seq<nat>, some: seq<nat>, i: nat, encode: Encoder)
    requires i < |some| && Kin(a, v) && some[i] in v.requests && EndsFor(a, v, x, y, UnreadyOf(a, some, encode))
    requires EndsFor(v, w, y, z, if Unready(encode, some[i], v.requests[some[i]]) then {some[i]} else {})
    ensures EndsFor(a, w, x, z, UnreadyOf(a, some, encode))
  {
    assert KinAt(a, v, some[i]);
    EndsForWider(v, w, y, z, if Unready(encode, some[i], v.requests[some[i]]) then {some[i]} else {}, UnreadyOf(a, some, encode));
    EndsForOn(a, v, w, x, y, z, UnreadyOf(a, some, encode));
  }

  lemma LetInEnds(v: View, w: View, u: View, x: seq<nat>, z: seq<nat>, admitted: seq<nat>, limbo: set<nat>, prioritized: bool, encode: Encoder,
                  l: Limits, depth: nat, inRoom: bool)
    requires TakenIn(v, w, admitted, limbo, prioritized, l, depth, inRoom)
    requires EndsFor(w, u, x, z, UnreadyOf(w, admitted, encode))
    ensures EndsFor(v, u, x, z, UnreadyIn(v, encode))
  {
    forall id | id in UnreadyOf(w, admitted, encode)
      ensures id in UnreadyIn(v, encode)
    {
      assert KinAt(v, w, id);
    }
    EndsForWider(w, u, x, z, UnreadyOf(w, admitted, encode), UnreadyIn(v, encode));
    EndsForOn(v, w, u, x, x, z, UnreadyIn(v, encode));
  }

  // A round, a pass and a turn.

  /** What became of a round of the Generator: a fault, or the Jobs it ended. */
  datatype Ran = Fault | Finished(serials: set<nat>)

  /** Where the scheduler and its Generator stood at one time. */
  datatype Moment = Moment(view: View, started: set<nat>, rounds: seq<Ran>, refused: seq<nat>)

  /** What a scheduler was made with. */
  datatype Settings = Settings(limits: Limits, depth: nat, prioritized: bool, encode: Encoder)

  /** It ended no Job. */
  predicate Fruitless(r: Ran) {
    r.Fault? || r.serials == {}
  }

  /** One round more. */
  predicate OneMore(before: seq<Ran>, after: seq<Ran>) {
    |after| == |before| + 1 && after[..|before|] == before
  }

  /** At most one round more. */
  predicate OneAtMost(before: seq<Ran>, after: seq<Ran>) {
    after == before || OneMore(before, after)
  }

  /** A round more, and it ended no Job. */
  predicate Stalled(before: seq<Ran>, after: seq<Ran>) {
    OneMore(before, after) && Fruitless(after[|before|])
  }

  /** The rounds that ended no Job. */
  function IdleRounds(rounds: seq<Ran>): nat {
    if rounds == [] then 0
    else IdleRounds(rounds[..|rounds| - 1]) + if Fruitless(rounds[|rounds| - 1]) then 1 else 0
  }

  lemma IdleRoundsNext(before: seq<Ran>, after: seq<Ran>)
    requires OneAtMost(before, after)
    ensures IdleRounds(after) == IdleRounds(before) + if Stalled(before, after) then 1 else 0
  {
  }

  /** Every request that has a Job is in custody. */
  predicate Held(v: View)
    requires Known(v.requests, v.active)
  {
    forall id :: id in v.active ==> v.requests[id].job.Some? ==> v.requests[id].custody
  }

  /** A round that may run a Job takes a request on, unless it stalls: then
      nothing changed, or it faulted and what has a Job is in custody. */
  ghost predicate Rounded(v: View, w: View, started: set<nat>, after: set<nat>, raised: bool, stalled: bool, prioritized: bool,
                          l: Limits, depth: nat, inRoom: bool) {
    && Known(w.requests, w.active) && Calm(v, w, l, depth, inRoom) && Pooled(v, w, l)
    && if Runnable(v, started, prioritized) then
         if stalled then !raised && (w == v || Held(w)) else Falls(v, w)
       else !raised && !stalled && w == v && after == started
  }

  /** The Jobs a round ended or lost were named. */
  lemma LostKeeps(v: View, w: View, l: Limits, depth: nat, inRoom: bool, lost: set<nat>)
    requires Inv(v, l, {}, {}) && lost <= v.jobs && w == v.(jobs := v.jobs - lost)
    ensures Inv(w, l, {}, lost) && lost <= v.bySerial.Keys && Calm(v, w, l, depth, inRoom)
    ensures LeftToFail(w, w.active, WithJobs(w.requests, w.active), 0, {})
    ensures Distinct(WithJobs(w.requests, w.active))
  {
    forall s | s in lost
      ensures s < v.next
    {
      assert Names(v, s);
    }
    LoseKeeps(v, l, {}, lost);
    var some := WithJobs(w.requests, w.active);
    assert some[0..] == some;
  }

  lemma FaultHolds(v: View, w: View, u: View, prioritized: bool, l: Limits, depth: nat, inRoom: bool)
    requires Known(w.requests, w.active) && Known(u.requests, u.active)
    requires w.requests == v.requests && w.reserved == v.reserved && Calm(v, w, l, depth, inRoom)
    requires Inv(u, l, {}, {}) && AllFailed(w, u, WithJobs(w.requests, w.active), l, depth, inRoom)
    ensures Calm(v, u, l, depth, inRoom) && Pooled(v, u, l) && Held(u)
  {
    CalmOn(v, w, u, l, depth, inRoom);
  }

  lemma LostFalls(v: View, w: View, u: View)
    requires w.requests == v.requests
    ensures Falls(w, u) ==> Falls(v, u)
  {
    if Falls(w, u) {
      var id :| Lighter(w, u, id);
      assert Lighter(v, u, id);
    }
  }

  /** A round, by what became of it: it runs when there is a Job it may run; a
      fault leaves what has a Job in custody, and a round that ended none leaves
      all as it was. */
  ghost predicate RoundOf(v: View, w: View, started: set<nat>, after: set<nat>, before: seq<Ran>, rounds: seq<Ran>, raised: bool,
                          prioritized: bool, l: Limits, depth: nat, inRoom: bool) {
    && Rounded(v, w, started, after, raised, Stalled(before, rounds), prioritized, l, depth, inRoom)
    && (if Runnable(v, started, prioritized) then OneMore(before, rounds) else rounds == before)
    && (Stalled(before, rounds) ==> if rounds[|before|].Fault? then Held(w) else w == v)
  }

  lemma RoundSkipped(v: View, started: set<nat>, rounds: seq<Ran>, prioritized: bool, l: Limits, depth: nat, inRoom: bool)
    requires Inv(v, l, {}, {}) && !Runnable(v, started, prioritized)
    ensures RoundOf(v, v, started, started, rounds, rounds, false, prioritized, l, depth, inRoom)
  {
    CalmSame(v, l, depth, inRoom);
  }

  lemma RoundFaulted(v: View, w: View, u: View, started: set<nat>, after: set<nat>, before: seq<Ran>, rounds: seq<Ran>,
                     lost: set<nat>, prioritized: bool, l: Limits, depth: nat, inRoom: bool)
    requires Runnable(v, started, prioritized) && rounds == before + [Fault]
    requires w == v.(jobs := v.jobs - lost) && Known(w.requests, w.active) && Calm(v, w, l, depth, inRoom)
    requires Inv(u, l, {}, {}) && AllFailed(w, u, WithJobs(w.requests, w.active), l, depth, inRoom)
    ensures RoundOf(v, u, started, after, before, rounds, false, prioritized, l, depth, inRoom)
  {
    FaultHolds(v, w, u, prioritized, l, depth, inRoom);
    assert rounds[..|before|] == before;
  }

  lemma RoundRouted(v: View, w: View, u: View, started: set<nat>, after: set<nat>, before: seq<Ran>, rounds: seq<Ran>,
                    ended: set<nat>, raised: bool, prioritized: bool, l: Limits, depth: nat, inRoom: bool)
    requires Runnable(v, started, prioritized) && rounds == before + [Finished(ended)]
    requires w == v.(jobs := v.jobs - ended) && Calm(v, w, l, depth, inRoom) && Calm(w, u, l, depth, inRoom) && Pooled(w, u, l)
    requires Known(u.requests, u.active) && if ended == {} then !raised && u == w else Falls(w, u)
    ensures RoundOf(v, u, started, after, before, rounds, raised, prioritized, l, depth, inRoom)
  {
    CalmOn(v, w, u, l, depth, inRoom);
    LostFalls(v, w, u);
    assert rounds[..|before|] == before;
  }

  /** A round was run, or there was no Job to run. */
  predicate RanAny(w: View, after: set<nat>, before: seq<Ran>, rounds: seq<Ran>, prioritized: bool) {
    rounds == before ==> !Runnable(w, after, prioritized)
  }

  /** What a pass does: nothing, not a round, when it would change nothing;
      else, unless its round ended no Job, a request goes on or a pass would
      change nothing now. */
  ghost predicate Passed(v: View, w: View, started: set<nat>, after: set<nat>, before: seq<Ran>, rounds: seq<Ran>, raised: bool,
                         prioritized: bool, blocked: bool, l: Limits, depth: nat, inRoom: bool)
    requires Known(v.requests, v.ingress) && Known(v.requests, v.active)
  {
    && Known(w.requests, w.ingress) && Known(w.requests, w.active) && Calm(v, w, l, depth, inRoom)
    && OneAtMost(before, rounds) && (raised ==> OneMore(before, rounds) && !Stalled(before, rounds) && Falls(v, w))
    && (Moveless(v, started, l, prioritized, blocked) ==> w == v && !raised && rounds == before)
    && (Stalled(before, rounds) || Falls(v, w) || Quiet(v, w, started, after, prioritized, blocked, l))
  }

  /** Nothing is left to do, and if nothing was to be reaped nothing changed. */
  ghost predicate Quiet(v: View, w: View, started: set<nat>, after: set<nat>, prioritized: bool, blocked: bool, l: Limits)
    requires Known(v.requests, v.ingress) && Known(v.requests, v.active)
  {
    && Known(w.requests, w.ingress) && Known(w.requests, w.active) && Moveless(w, after, l, prioritized, blocked)
    && (NoneDropped(v) ==> NoneDropped(w)) && (Reapt(v) ==> w == v && after == started)
  }

  /** A pass up to its round: a request went on, or only the round is left. */
  ghost predicate Ready(v: View, w: View, started: set<nat>, prioritized: bool, blocked: bool, l: Limits, depth: nat, inRoom: bool)
    requires Known(v.requests, v.ingress) && Known(v.requests, v.active)
  {
    && Calm(v, w, l, depth, inRoom) && (Moveless(v, started, l, prioritized, blocked) ==> w == v)
    && (Falls(v, w) || RoundLeft(v, w, prioritized, blocked, l))
  }

  ghost predicate RoundLeft(v: View, w: View, prioritized: bool, blocked: bool, l: Limits)
    requires Known(v.requests, v.ingress) && Known(v.requests, v.active)
  {
    && Known(w.requests, w.ingress) && Known(w.requests, w.active)
    && Reapt(w) && HeldBack(w, l) && !Admissible(w, l, prioritized, blocked)
    && (NoneDropped(v) ==> NoneDropped(w)) && (Reapt(v) ==> w == v)
  }

  lemma ReadyBy(v: View, v1: View, v2: View, v3: View, started: set<nat>, prioritized: bool, blocked: bool,
                l: Limits, depth: nat, inRoom: bool)
    requires Known(v.requests, v.ingress) && Known(v.requests, v.active) && Known(v1.requests, v1.ingress)
    requires Known(v1.requests, v1.active) && Known(v2.requests, v2.ingress) && Known(v2.requests, v2.active)
    requires Calm(v, v1, l, depth, inRoom) && Reapt(v1) && (Reapt(v) ==> v1 == v) && (NoneDropped(v) ==> NoneDropped(v1))
    requires Calm(v1, v2, l, depth, inRoom) && if HeldBack(v1, l) then v2 == v1 else Falls(v1, v2)
    requires LetIn(v2, v3, Admissible(v2, l, prioritized, blocked), prioritized, l, depth, inRoom)
    ensures Ready(v, v3, started, prioritized, blocked, l, depth, inRoom)
  {
    CalmOn(v, v1, v2, l, depth, inRoom);
    CalmOn(v, v2, v3, l, depth, inRoom);
  }

  lemma PassedBy(v: View, v3: View, w: View, started: set<nat>, after: set<nat>, before: seq<Ran>, rounds: seq<Ran>, raised: bool,
                 prioritized: bool, blocked: bool, l: Limits, depth: nat, inRoom: bool)
    requires Known(v.requests, v.ingress) && Known(v.requests, v.active)
    requires Known(w.requests, w.ingress) && Known(w.requests, w.active)
    requires Ready(v, v3, started, prioritized, blocked, l, depth, inRoom)
    requires RoundOf(v3, w, started, after, before, rounds, raised, prioritized, l, depth, inRoom)
    ensures Passed(v, w, started, after, before, rounds, raised, prioritized, blocked, l, depth, inRoom)
  {
    CalmOn(v, v3, w, l, depth, inRoom);
  }

  // Why requests end in a turn.

  /** What a round may end: those that have a Job, if it faulted; else those
      whose Jobs it ended. */
  ghost function EndsInRound(v: View, before: seq<Ran>, rounds: seq<Ran>): set<nat> {
    if !OneMore(before, rounds) then {}
    else match rounds[|before|]
         case Fault => Working(v)
         case Finished(serials) => Owners(v, serials)
  }

  /** What a turn may end, but for refusals, from `v`, its round from `mid`: and
      if an answer's prompt did not encode, all in flight. */
  ghost function Causes(v: View, mid: View, before: seq<Ran>, rounds: seq<Ran>, encode: Encoder): set<nat> {
    EndsEarly(v, encode) + EndsInRound(mid, before, rounds)
    + if Misprompted(mid, EndsInRound(mid, before, rounds), encode) then AllOf(mid.active) else {}
  }

  /** Each request told its end has a cause: it was cancelled, its first pass
      could not begin, its Job was refused or ended, the round faulted, or an
      answer's prompt did not encode. */
  ghost predicate Caused(v: View, mid: View, z: View, log: seq<nat>, after: seq<nat>, before: seq<Ran>, rounds: seq<Ran>, encode: Encoder) {
    Kin(v, mid) && Kin(mid, z) && EndsFor(v, z, log, after, Causes(v, mid, before, rounds, encode))
  }

  /** No two requests have the same Job. */
  ghost predicate AllNamed(v: View) {
    forall id :: id in v.requests ==> Named(v, id)
  }

  /** Each request told its end in it has a cause, the round being from `mid`. */
  ghost predicate TurnCaused(a: Moment, mid: View, b: Moment, t: Settings) {
    AllNamed(mid) && Caused(a.view, mid, b.view, a.refused, b.refused, a.rounds, b.rounds, t.encode)
  }

  lemma ReadyEnds(v: View, v1: View, v2: View, v3: View, x: seq<nat>, y: seq<nat>, z: seq<nat>, encode: Encoder)
    requires Kin(v, v1) && Kin(v1, v2) && v2.ingress == v.ingress
    requires EndsFor(v, v1, x, x, CancelledIn(v)) && EndsFor(v1, v2, x, y, {}) && EndsFor(v2, v3, y, z, UnreadyIn(v2, encode))
    ensures EndsFor(v, v3, x, z, EndsEarly(v, encode))
  {
    var some := EndsEarly(v, encode);
    KinOn(v, v1, v2);
    EndsEarlyKin(v, v2, encode);
    EndsForWider(v, v1, x, x, CancelledIn(v), some);
    EndsForWider(v1, v2, x, y, {}, some);
    EndsForWider(v2, v3, y, z, UnreadyIn(v2, encode), some);
    EndsForOn(v, v1, v2, x, x, y, some);
    EndsForOn(v, v2, v3, x, y, z, some);
  }

  lemma FaultEnds(v: View, w: View, u: View, log: seq<nat>, before: seq<Ran>, rounds: seq<Ran>, l: Limits, depth: nat, inRoom: bool)
    requires w.requests == v.requests && w.active == v.active && Known(w.requests, w.active) && rounds == before + [Fault]
    requires EndsFor(w, u, log, log, AllOf(WithJobs(w.requests, w.active)))
    requires AllFailed(w, u, WithJobs(w.requests, w.active), l, depth, inRoom)
    ensures EndsFor(v, u, log, log, EndsInRound(v, before, rounds)) && NoneIn(v, u)
  {
    assert rounds[..|before|] == before;
    assert AllOf(WithJobs(w.requests, w.active)) <= Working(v);
    assert forall id :: TellsEnd(v, u, id) ==> TellsEnd(w, u, id);
  }

  lemma PassEnds(v: View, mid: View, u: View, x: seq<nat>, y: seq<nat>, z: seq<nat>, before: seq<Ran>, rounds: seq<Ran>, encode: Encoder)
    requires Kin(v, mid) && Kin(mid, u)
    requires EndsFor(v, mid, x, y, EndsEarly(v, encode)) && EndsFor(mid, u, y, z, EndsInRound(mid, before, rounds))
    ensures Caused(v, mid, u, x, z, before, rounds, encode)
  {
    var some := Causes(v, mid, before, rounds, encode);
    EndsForWider(v, mid, x, y, EndsEarly(v, encode), some);
    EndsForWider(mid, u, y, z, EndsInRound(mid, before, rounds), some);
    EndsForOn(v, mid, u, x, y, z, some);
  }

  /** A pass, its round from `mid`; what raised in it was an answer's prompt. */
  ghost predicate PassTo(a: Moment, mid: View, b: Moment, raised: bool, t: Settings, blocked: bool) {
    && Known(a.view.requests, a.view.ingress) && Known(a.view.requests, a.view.active)
    && Passed(a.view, b.view, a.started, b.started, a.rounds, b.rounds, raised, t.prioritized, blocked, t.limits, t.depth, InRoom(t.encode))
    && RanAny(b.view, b.started, a.rounds, b.rounds, t.prioritized) && TurnCaused(a, mid, b, t)
    && (raised ==> NoneIn(mid, b.view) && Misprompted(mid, EndsInRound(mid, a.rounds, b.rounds), t.encode))
  }

  /** And all in flight failed for it. */
  lemma PassedOver(a: Moment, mid: View, u: Moment, z: Moment, raised: bool, t: Settings, blocked: bool)
    requires PassTo(a, mid, u, raised, t, blocked) && FailedOver(u, z, raised, t)
    ensures PassTo(a, mid, z, false, t, blocked)
  {
    PassedOn(a.view, u.view, z.view, a.started, u.started, a.rounds, u.rounds, raised, t.prioritized, blocked, t.limits, t.depth,
             InRoom(t.encode));
    if raised {
      RaiseEnds(a.view, mid, u.view, z.view, a.refused, u.refused, a.rounds, u.rounds, t.encode);
    }
  }

  /** What a raise leaves: all in flight failed. */
  ghost predicate FailedOver(u: Moment, z: Moment, raised: bool, t: Settings) {
    && Known(z.view.requests, z.view.ingress) && Known(z.view.requests, z.view.active)
    && z.started == u.started && z.rounds == u.rounds && z.refused == u.refused
    && if raised then Calm(u.view, z.view, t.limits, t.depth, InRoom(t.encode))
                      && EndsFor(u.view, z.view, u.refused, u.refused, AllOf(u.view.active))
       else z == u
  }

  /** What a raise fails was in flight at the round. */
  lemma RaiseEnds(v: View, mid: View, u: View, z: View, x: seq<nat>, y: seq<nat>, before: seq<Ran>, rounds: seq<Ran>, encode: Encoder)
    requires Caused(v, mid, u, x, y, before, rounds, encode) && Kin(u, z) && NoneIn(mid, u) && EndsFor(u, z, y, y, AllOf(u.active))
    requires Misprompted(mid, EndsInRound(mid, before, rounds), encode)
    ensures Caused(v, mid, z, x, y, before, rounds, encode)
  {
    var some := Causes(v, mid, before, rounds, encode);
    KinOn(mid, u, z);
    EndsForWider(u, z, y, y, AllOf(u.active), some);
    KinOn(v, mid, u);
    EndsForOn(v, u, z, x, y, y, some);
  }

  lemma SweptEnds(v: View, w: View, mid: View, z: View, x: seq<nat>, y: seq<nat>, before: seq<Ran>, rounds: seq<Ran>, encode: Encoder)
    requires Kin(v, w) && (forall id :: id in w.ingress ==> id in v.ingress) && EndsFor(v, w, x, x, CancelledIn(v))
    requires Caused(w, mid, z, x, y, before, rounds, encode)
    ensures Caused(v, mid, z, x, y, before, rounds, encode)
  {
    var some := Causes(v, mid, before, rounds, encode);
    EndsEarlyKin(v, w, encode);
    KinOn(v, w, mid);
    EndsForWider(v, w, x, x, CancelledIn(v), some);
    EndsForWider(w, z, x, y, Causes(w, mid, before, rounds, encode), some);
    EndsForOn(v, w, z, x, x, y, some);
  }

  /** What a turn does: the same, with the queue swept first. */
  ghost predicate TurnOf(v: View, z: View, started: set<nat>, after: set<nat>, before: seq<Ran>, rounds: seq<Ran>,
                         prioritized: bool, blocked: bool, l: Limits, depth: nat, inRoom: bool)
    requires Known(v.requests, v.ingress) && Known(v.requests, v.active)
  {
    && Known(z.requests, z.ingress) && Known(z.requests, z.active) && Calm(v, z, l, depth, inRoom)
    && OneAtMost(before, rounds)
    && (Stuck(v, started, l, prioritized, blocked) ==> z == v && rounds == before)
    && (Stalled(before, rounds) || Falls(v, z) || Stuck(z, after, l, prioritized, blocked))
    && (!Stalled(before, rounds) && Reapt(v) ==> (Falls(v, z) <==> !Stuck(v, started, l, prioritized, blocked)))
  }

  /** A pass over a swept queue that took no one on has nothing left to do. */
  lemma PassStuck(v: View, u: View, started: set<nat>, after: set<nat>, before: seq<Ran>, rounds: seq<Ran>, raised: bool,
                  prioritized: bool, blocked: bool, l: Limits, depth: nat, inRoom: bool)
    requires Known(v.requests, v.ingress) && Known(v.requests, v.active) && NoneDropped(v)
    requires Passed(v, u, started, after, before, rounds, raised, prioritized, blocked, l, depth, inRoom)
    requires !Stalled(before, rounds) && !Falls(v, u)
    ensures !raised && Stuck(u, after, l, prioritized, blocked)
    ensures Reapt(v) ==> Stuck(v, started, l, prioritized, blocked)
  {
  }

  /** What a pass raised fails all in flight: the pass is then as it was but
      for that. */
  lemma PassedOn(w: View, u: View, z: View, started: set<nat>, after: set<nat>, before: seq<Ran>, rounds: seq<Ran>, raised: bool,
                 prioritized: bool, blocked: bool, l: Limits, depth: nat, inRoom: bool)
    requires Known(w.requests, w.ingress) && Known(w.requests, w.active)
    requires Known(z.requests, z.ingress) && Known(z.requests, z.active)
    requires Passed(w, u, started, after, before, rounds, raised, prioritized, blocked, l, depth, inRoom)
    requires raised ==> Calm(u, z, l, depth, inRoom)
    requires !raised ==> z == u
    ensures Passed(w, z, started, after, before, rounds, false, prioritized, blocked, l, depth, inRoom)
    ensures RanAny(u, after, before, rounds, prioritized) ==> RanAny(z, after, before, rounds, prioritized)
  {
    if raised {
      CalmOn(w, u, z, l, depth, inRoom);
    }
  }

  lemma TurnFalls(v: View, w: View, z: View, l: Limits, depth: nat, inRoom: bool)
    requires Calm(v, w, l, depth, inRoom) && Calm(w, z, l, depth, inRoom)
    ensures Calm(v, z, l, depth, inRoom) && (Falls(v, w) || Falls(w, z) ==> Falls(v, z)) && !Falls(v, v)
  {
    CalmSame(v, l, depth, inRoom);
    CalmOn(v, w, z, l, depth, inRoom);
  }

  lemma TurnStays(v: View, w: View, z: View, started: set<nat>, after: set<nat>, before: seq<Ran>, rounds: seq<Ran>,
                 prioritized: bool, blocked: bool, l: Limits, depth: nat, inRoom: bool)
    requires Known(v.requests, v.ingress) && Known(v.requests, v.active) && Known(w.requests, w.ingress)
    requires Known(w.requests, w.active) && Known(z.requests, z.ingress) && Known(z.requests, z.active)
    requires Calm(v, w, l, depth, inRoom) && NoneDropped(w) && if NoneDropped(v) then w == v else Falls(v, w)
    requires Passed(w, z, started, after, before, rounds, false, prioritized, blocked, l, depth, inRoom)
    ensures Stuck(v, started, l, prioritized, blocked) ==> z == v && rounds == before
  {
  }

  lemma TurnGoes(v: View, w: View, z: View, started: set<nat>, after: set<nat>, before: seq<Ran>, rounds: seq<Ran>,
                 prioritized: bool, blocked: bool, l: Limits, depth: nat, inRoom: bool)
    requires Known(v.requests, v.ingress) && Known(v.requests, v.active) && Known(w.requests, w.ingress)
    requires Known(w.requests, w.active) && Known(z.requests, z.ingress) && Known(z.requests, z.active)
    requires Calm(v, w, l, depth, inRoom) && NoneDropped(w) && if NoneDropped(v) then w == v else Falls(v, w)
    requires Passed(w, z, started, after, before, rounds, false, prioritized, blocked, l, depth, inRoom)
    ensures Calm(v, z, l, depth, inRoom)
    ensures Stalled(before, rounds) || Falls(v, z) || Stuck(z, after, l, prioritized, blocked)
    ensures !Stalled(before, rounds) && Reapt(v) ==> Falls(v, z) || Stuck(v, started, l, prioritized, blocked)
  {
    TurnFalls(v, w, z, l, depth, inRoom);
    if !Stalled(before, rounds) && !Falls(w, z) {
      PassStuck(w, z, started, after, before, rounds, false, prioritized, blocked, l, depth, inRoom);
    }
  }

  lemma TurnedBy(v: View, w: View, z: View, started: set<nat>, after: set<nat>, before: seq<Ran>, rounds: seq<Ran>,
                 prioritized: bool, blocked: bool, l: Limits, depth: nat, inRoom: bool)
    requires Known(v.requests, v.ingress) && Known(v.requests, v.active) && Known(w.requests, w.ingress)
    requires Known(w.requests, w.active) && Known(z.requests, z.ingress) && Known(z.requests, z.active)
    requires Calm(v, w, l, depth, inRoom) && NoneDropped(w) && if NoneDropped(v) then w == v else Falls(v, w)
    requires Passed(w, z, started, after, before, rounds, false, prioritized, blocked, l, depth, inRoom)
    ensures TurnOf(v, z, started, after, before, rounds, prioritized, blocked, l, depth, inRoom)
  {
    TurnStays(v, w, z, started, after, before, rounds, prioritized, blocked, l, depth, inRoom);
    TurnGoes(v, w, z, started, after, before, rounds, prioritized, blocked, l, depth, inRoom);
    CalmSame(v, l, depth, inRoom);
  }

  /** A whole turn: what it does, that it runs a round unless it leaves no Job
      to run, and that no request ends in it without a cause. */
  ghost predicate TurnOver(a: Moment, mid: View, b: Moment, t: Settings, blocked: bool) {
    && Known(a.view.requests, a.view.ingress) && Known(a.view.requests, a.view.active)
    && TurnOf(a.view, b.view, a.started, b.started, a.rounds, b.rounds, t.prioritized, blocked, t.limits, t.depth, InRoom(t.encode))
    && RanAny(b.view, b.started, a.rounds, b.rounds, t.prioritized) && TurnCaused(a, mid, b, t)
  }

  lemma SweptTurn(a: Moment, w: Moment, mid: View, z: Moment, t: Settings, blocked: bool)
    requires Known(a.view.requests, a.view.ingress) && Known(a.view.requests, a.view.active)
    requires PassTo(w, mid, z, false, t, blocked)
    requires Calm(a.view, w.view, t.limits, t.depth, InRoom(t.encode)) && NoneDropped(w.view)
    requires if NoneDropped(a.view) then w.view == a.view else Falls(a.view, w.view)
    requires forall id :: id in w.view.ingress ==> id in a.view.ingress
    requires EndsFor(a.view, w.view, a.refused, a.refused, CancelledIn(a.view))
    requires w.started == a.started && w.rounds == a.rounds && w.refused == a.refused
    ensures TurnOver(a, mid, z, t, blocked)
  {
    TurnedBy(a.view, w.view, z.view, a.started, z.started, a.rounds, z.rounds, t.prioritized, blocked, t.limits, t.depth, InRoom(t.encode));
    SweptEnds(a.view, w.view, mid, z.view, a.refused, z.refused, a.rounds, z.rounds, t.encode);
  }

  // The cancelled leave the queue.

  /** Those of `all` up to `i` were looked at. */
  ghost predicate SweptTo(was: View, v: View, all: seq<nat>, i: nat, l: Limits, depth: nat, inRoom: bool)
    requires i <= |all|
  {
    && Known(v.requests, v.ingress) && Swept(was.ingress, v, all, i) && Calm(was, v, l, depth, inRoom)
    && (v == was || Falls(was, v)) && (v == was ==> Kept(v, all, i))
    && (Kept(was, all, |all|) ==> v == was) && EndsFor(was, v, [], [], CancelledIn(was))
  }

  predicate Kept(v: View, all: seq<nat>, i: nat)
    requires i <= |all|
  {
    forall k :: 0 <= k < i ==> all[k] in v.requests && !v.requests[all[k]].cancelled
  }

  lemma SweptOut(was: seq<nat>, v: View, w: View, all: seq<nat>, i: nat, n: nat, l: Limits)
    requires i < |all| && n == i + 1 && Distinct(all) && Inv(v, l, {}, {}) && Swept(was, v, all, i) && all[i] in v.ingress
    requires Known(w.requests, w.ingress) && w == if v.requests[all[i]].cancelled then Unqueued(v, all[i], true) else v
    ensures Swept(was, w, all, n)
  {
    assert v.requests == v.requests[all[i] := v.requests[all[i]]];
    WithoutIs(v.ingress, all[i]);
    SweptNext(was, v, w, all, i);
  }

  lemma KeptNext(v: View, all: seq<nat>, i: nat, n: nat)
    requires i < |all| && n == i + 1 && all[i] in v.requests
    ensures Kept(v, all, n) <==> Kept(v, all, i) && !v.requests[all[i]].cancelled
    ensures Kept(v, all, |all|) ==> !v.requests[all[i]].cancelled
  {
  }

  lemma SweptToNext(was: View, v: View, w: View, all: seq<nat>, i: nat, n: nat, l: Limits, depth: nat, inRoom: bool)
    requires i < |all| && n == i + 1 && Distinct(all) && Inv(v, l, {}, {}) && Known(w.requests, w.ingress)
    requires SweptTo(was, v, all, i, l, depth, inRoom) && all[i] in v.ingress
    requires w == if v.requests[all[i]].cancelled then Unqueued(v, all[i], true) else v
    ensures SweptTo(was, w, all, n, l, depth, inRoom)
  {
    SweptOut(was.ingress, v, w, all, i, n, l);
    KeptNext(v, all, i, n);
    if v.requests[all[i]].cancelled {
      assert Stands(v, {}, all[i]);
      UnqueuedIsCalm(v, all[i], true, l, depth, inRoom);
      CalmOn(was, v, w, l, depth, inRoom);
      CalmSame(was, l, depth, inRoom);
      UnqueuedEnds(was, v, w, all[i]);
    }
  }

  lemma UnqueuedEnds(was: View, v: View, w: View, id: nat)
    requires Kin(was, v) && id in v.requests && v.requests[id].cancelled && w == Unqueued(v, id, true)
    requires EndsFor(was, v, [], [], CancelledIn(was))
    ensures EndsFor(was, w, [], [], CancelledIn(was))
  {
    assert KinAt(was, v, id);
    assert forall o :: TellsEnd(v, w, o) ==> o == id;
    EndsForOn(was, v, w, [], [], [], CancelledIn(was));
  }

  lemma SweptStart(was: View, l: Limits, depth: nat, inRoom: bool)
    requires Known(was.requests, was.ingress)
    ensures SweptTo(was, was, was.ingress, 0, l, depth, inRoom)
  {
    CalmSame(was, l, depth, inRoom);
    assert was.ingress[0..] == was.ingress;
  }

  lemma SweptAll(was: View, v: View, l: Limits, depth: nat, inRoom: bool)
    requires Known(was.requests, was.ingress) && SweptTo(was, v, was.ingress, |was.ingress|, l, depth, inRoom)
    ensures NoneDropped(v) && forall id :: id in v.ingress ==> id in was.ingress
    ensures if NoneDropped(was) then v == was else Falls(was, v)
  {
    if v == was {
      forall id | id in was.ingress
        ensures !was.requests[id].cancelled
      {
        var k :| 0 <= k < |was.ingress| && was.ingress[k] == id;
      }
    }
  }

  // What is left over a run.

  /** All is over, or what is left is at most `n`. */
  ghost predicate Ranked(v: View, order: seq<nat>, n: int) {
    && Known(v.requests, order) && (forall id :: id in v.requests ==> id in order)
    && (AllOver(v) || Rank(v.requests, order) <= n)
  }

  lemma RankedStart(v: View, order: seq<nat>)
    requires Known(v.requests, order) && forall id :: id in v.requests ==> id in order
    ensures Ranked(v, order, 8 * |order|)
  {
    RankBound(v.requests, order);
  }

  lemma RankedNext(v: View, w: View, order: seq<nat>, n: int, m: int)
    requires Ranked(v, order, n) && Lower(v, w) && (m == n || (m == n - 1 && (Falls(v, w) || AllOver(w))))
    ensures Ranked(w, order, m)
  {
    if AllOver(v) {
      assert forall id :: id in w.requests ==> Weight(w.requests[id]) <= Weight(v.requests[id]);
    } else if Falls(v, w) {
      RankFalls(v, w, order);
    } else {
      RankLowers(v, w, order);
    }
  }

  lemma {:induction false} RankCovers(t: Table, order: seq<nat>, id: nat)
    requires Known(t, order) && id in order
    ensures Weight(t[id]) <= Rank(t, order)
    decreases |order|
  {
    var front, last := order[..|order| - 1], order[|order| - 1];
    assert order == front + [last];
    if last != id {
      RankCovers(t, front, id);
    }
  }

  lemma RankedOver(v: View, order: seq<nat>, n: int)
    requires Ranked(v, order, n)
    ensures n <= 0 ==> AllOver(v)
  {
    if !AllOver(v) && n <= 0 {
      var id :| id in v.requests && Weight(v.requests[id]) != 0;
      RankCovers(v.requests, order, id);
    }
  }

  /** With no request paused under the class policy nothing parks. */
  ghost predicate Unpaused(v: View, prioritized: bool) {
    prioritized ==> !exists id :: PausedCall(v, id)
  }

  /** And a turn pauses none. */
  lemma StaysUnpaused(v: View, w: View, prioritized: bool)
    requires Unpaused(v, prioritized) && Lower(v, w) && Kin(v, w)
    ensures Unpaused(w, prioritized)
  {
    if prioritized && exists id :: PausedCall(w, id) {
      var id :| PausedCall(w, id);
      assert KinAt(v, w, id);
      assert PausedCall(v, id);
    }
  }

  /** A turn, from one moment to the next. */
  ghost predicate TurnTo(a: Moment, b: Moment, t: Settings, blocked: bool) {
    exists mid :: TurnOver(a, mid, b, t, blocked)
  }

  /** How a turn ended: its round ended no Job; or it took a request on or found
      all over; or neither. */
  datatype Outcome = Goes | Stalls | Parks

  ghost function OutcomeOf(a: Moment, b: Moment): Outcome {
    if Stalled(a.rounds, b.rounds) then Stalls else if Falls(a.view, b.view) || AllOver(b.view) then Goes else Parks
  }

  /** If neither, all that is left is paused by the host. */
  ghost predicate Turned(a: Moment, b: Moment, o: Outcome, t: Settings, blocked: bool) {
    && TurnTo(a, b, t, blocked) && o == OutcomeOf(a, b)
    && (o.Parks? ==> t.prioritized && Known(b.view.requests, b.view.ingress) && Parked(b.view, b.started))
    && (o.Parks? ==> exists id :: PausedCall(b.view, id))
  }

  /** Request `id`'s cause, spelled out. */
  ghost predicate CauseOf(a: Moment, mid: View, b: Moment, t: Settings, id: nat)
    requires id in a.view.requests && id in mid.requests
  {
    var r, ended := a.view.requests[id], EndsInRound(mid, a.rounds, b.rounds);
    r.cancelled || (id in a.view.ingress && Unready(t.encode, id, r)) || RefusedSince(a.refused, b.refused, id)
    || (OneMore(a.rounds, b.rounds)
        && match b.rounds[|a.rounds|]
           case Fault => mid.requests[id].job.Some?
           case Finished(serials) => mid.requests[id].job.Some? && mid.requests[id].job.value in serials)
    || (id in mid.active && Misprompted(mid, ended, t.encode))
  }

  lemma CausedIs(a: Moment, mid: View, b: Moment, t: Settings, id: nat)
    requires TurnCaused(a, mid, b, t) && TellsEnd(a.view, b.view, id)
    ensures KinAt(a.view, mid, id) && CauseOf(a, mid, b, t, id)
  {
    assert id in Causes(a.view, mid, a.rounds, b.rounds, t.encode) || RefusedSince(a.refused, b.refused, id);
  }

  lemma TurnEnds(a: Moment, b: Moment, t: Settings, blocked: bool)
    requires TurnTo(a, b, t, blocked) && Inv(b.view, t.limits, {}, {}) && t.limits.maxInFlight >= 1
    ensures Turned(a, b, OutcomeOf(a, b), t, blocked)
  {
    if OutcomeOf(a, b).Parks? {
      StuckIsOver(b.view, b.started, t.limits, t.prioritized, blocked);
    }
  }

  /** The turns that took no one on. */
  function Idles(outs: seq<Outcome>): nat {
    if outs == [] then 0 else Idles(outs[..|outs| - 1]) + if outs[|outs| - 1].Goes? then 0 else 1
  }

  /** The turns that left all that is left parked. */
  function ParksIn(outs: seq<Outcome>): nat {
    if outs == [] then 0 else ParksIn(outs[..|outs| - 1]) + if outs[|outs| - 1].Parks? then 1 else 0
  }

  /** Turns, by where all stood between them and how each ended. */
  ghost predicate Run(moments: seq<Moment>, outs: seq<Outcome>, turns: seq<bool>, t: Settings) {
    |outs| <= |turns| && |moments| == |outs| + 1 && forall i :: 0 <= i < |outs| ==> RunAt(moments, outs, turns, t, i)
  }

  ghost predicate RunAt(moments: seq<Moment>, outs: seq<Outcome>, turns: seq<bool>, t: Settings, i: nat) {
    i < |outs| && i < |turns| && i + 1 < |moments| && Turned(moments[i], moments[i + 1], outs[i], t, turns[i])
  }

  lemma RunNext(moments: seq<Moment>, outs: seq<Outcome>, turns: seq<bool>, t: Settings, b: Moment, o: Outcome)
    requires Run(moments, outs, turns, t) && |outs| < |turns| && Turned(moments[|outs|], b, o, t, turns[|outs|])
    ensures Run(moments + [b], outs + [o], turns, t)
  {
    forall i | 0 <= i < |outs| + 1
      ensures RunAt(moments + [b], outs + [o], turns, t, i)
    {
      assert i < |outs| ==> RunAt(moments, outs, turns, t, i);
    }
  }

  /** What is left once those turns are over, and which took no one on: those
      that parked, and those whose round ended no Job. From a time no request
      was paused none parks. */
  ghost predicate LeftAfter(was: seq<Ran>, b: Moment, outs: seq<Outcome>, order: seq<nat>, prioritized: bool, unpaused: bool) {
    && Ranked(b.view, order, 8 * |order| + Idles(outs) - |outs|)
    && Idles(outs) + IdleRounds(was) == ParksIn(outs) + IdleRounds(b.rounds)
    && (unpaused ==> ParksIn(outs) == 0 && Unpaused(b.view, prioritized))
  }

  lemma LeftNext(was: seq<Ran>, a: Moment, b: Moment, outs: seq<Outcome>, order: seq<nat>, o: Outcome, t: Settings, blocked: bool, unpaused: bool)
    requires LeftAfter(was, a, outs, order, t.prioritized, unpaused) && Turned(a, b, o, t, blocked)
    ensures LeftAfter(was, b, outs + [o], order, t.prioritized, unpaused)
  {
    var n := 8 * |order| + Idles(outs) - |outs|;
    assert (outs + [o])[..|outs|] == outs;
    IdleRoundsNext(a.rounds, b.rounds);
    RankedNext(a.view, b.view, order, n, if o.Goes? then n - 1 else n);
    if unpaused {
      StaysUnpaused(a.view, b.view, t.prioritized);
    }
  }
}
