/// How far the scheduler's requests have come, and what they hold of the pool
/// (deploy/house-model/exl3_server.py).

module SchedulerMeasure {
  import opened Bounds
  import opened Wrappers
  import opened ExecutorRank
  import opened Pages
  import opened SchedulerState

  // How far a request has to go.

  /** The steps a request has left at most: queued, let in, reasoning, its
      thought over, its answer waiting for pages, answering, over. */
  function Weight(r: Request): nat {
    if r.job.Some? then (if r.phase.Answer? then 2 else 6)
    else if r.ends > 0 then 0
    else if !r.admitted then 8
    else if r.grow > 0 then 4
    else if r.phase.Answer? then 1
    else if r.phase.Reason? then 5
    else 7
  }

  /** What a request's handler and the host set of it. */
  predicate SameCall(r: Request, s: Request) {
    s.solo == r.solo && s.sizes == r.sizes && s.reasonFirst == r.reasonFirst && s.work == r.work && s.cancelled == r.cancelled
  }

  /** A request's Job is the one it had, or one given out since. */
  predicate SameJob(r: Request, s: Request, next: nat) {
    s.job.Some? ==> s.job == r.job || s.job.value >= next
  }

  predicate KinAt(v: View, w: View, id: nat) {
    id in v.requests && id in w.requests && SameCall(v.requests[id], w.requests[id]) && SameJob(v.requests[id], w.requests[id], v.next)
  }

  /** Each request is the call it was, and has its Job or a new one. */
  ghost predicate Kin(v: View, w: View) {
    v.next <= w.next && w.requests.Keys == v.requests.Keys && forall id :: id in v.requests ==> KinAt(v, w, id)
  }

  lemma KinSame(v: View, w: View)
    requires v.next <= w.next && w.requests == v.requests
    ensures Kin(v, w)
  {
    forall id | id in v.requests
      ensures KinAt(v, w, id)
    {
    }
  }

  lemma KinOn(a: View, b: View, c: View)
    requires Kin(a, b) && Kin(b, c)
    ensures Kin(a, c)
  {
    forall id | id in a.requests
      ensures KinAt(a, c, id)
    {
      assert KinAt(a, b, id) && KinAt(b, c, id);
    }
  }

  /** One request changed. */
  lemma KinOne(id: nat, v: View, w: View)
    requires v.next <= w.next && id in v.requests && id in w.requests && w.requests == v.requests[id := w.requests[id]]
    requires SameCall(v.requests[id], w.requests[id]) && SameJob(v.requests[id], w.requests[id], v.next)
    ensures Kin(v, w)
  {
    forall o | o in v.requests
      ensures KinAt(v, w, o)
    {
      assert o != id ==> w.requests[o] == v.requests[o];
    }
  }

  /** No request goes back. */
  ghost predicate Lower(v: View, w: View) {
    w.requests.Keys == v.requests.Keys
    && forall id :: id in v.requests ==> Weight(w.requests[id]) <= Weight(v.requests[id])
  }

  predicate Lighter(v: View, w: View, id: nat) {
    id in v.requests && id in w.requests && Weight(w.requests[id]) < Weight(v.requests[id])
  }

  /** No request goes back and one goes on. */
  ghost predicate Falls(v: View, w: View) {
    Lower(v, w) && exists id :: Lighter(v, w, id)
  }

  ghost predicate AllOver(v: View) {
    forall id :: id in v.requests ==> Weight(v.requests[id]) == 0
  }

  /** Nothing left to go is nothing held and every handler told. */
  lemma OverIsWeightless(v: View, l: Limits)
    requires Inv(v, l, {}, {})
    ensures AllOver(v) <==> forall id :: id in v.requests ==> Over(v.requests[id])
    ensures AllOver(v) ==> v.active == [] && v.ingress == [] && v.reserved == 0
  {
    forall id | id in v.requests
      ensures Weight(v.requests[id]) == 0 <==> Over(v.requests[id])
      ensures Weight(v.requests[id]) == 0 ==> id !in v.active && id !in v.ingress
    {
      assert Stands(v, {}, id);
    }
    FirstIn(v.active);
    FirstIn(v.ingress);
  }

  lemma LowerOn(a: View, b: View, c: View)
    requires Lower(a, b) && Lower(b, c)
    ensures Lower(a, c)
    ensures Falls(a, b) || Falls(b, c) ==> Falls(a, c)
  {
    forall id | id in a.requests
      ensures Weight(c.requests[id]) <= Weight(a.requests[id])
    {
      assert Weight(b.requests[id]) <= Weight(a.requests[id]);
    }
    if Falls(a, b) {
      var id :| Lighter(a, b, id);
      assert Lighter(a, c, id);
    }
    if Falls(b, c) {
      var id :| Lighter(b, c, id);
      assert Lighter(a, c, id);
    }
  }

  lemma SteppedLowers(id: nat, v: View, w: View)
    requires Stepped(id, v, w) && id in v.requests && Weight(w.requests[id]) <= Weight(v.requests[id])
    ensures Lower(v, w) && (Lighter(v, w, id) ==> Falls(v, w))
  {
  }

  /** What is left over a list of requests. */
  function Rank(t: Table, order: seq<nat>): nat
    requires Known(t, order)
  {
    if order == [] then 0 else Rank(t, order[..|order| - 1]) + Weight(t[order[|order| - 1]])
  }

  lemma {:induction false} RankBound(t: Table, order: seq<nat>)
    requires Known(t, order)
    ensures Rank(t, order) <= 8 * |order|
    decreases |order|
  {
    if order != [] {
      RankBound(t, order[..|order| - 1]);
    }
  }

  lemma {:induction false} RankLowers(v: View, w: View, order: seq<nat>)
    requires Known(v.requests, order) && Known(w.requests, order) && Lower(v, w)
    ensures Rank(w.requests, order) <= Rank(v.requests, order)
    decreases |order|
  {
    if order != [] {
      RankLowers(v, w, order[..|order| - 1]);
    }
  }

  lemma {:induction false} RankFallsAt(v: View, w: View, order: seq<nat>, id: nat)
    requires Known(v.requests, order) && Known(w.requests, order) && Lower(v, w) && Lighter(v, w, id) && id in order
    ensures Rank(w.requests, order) < Rank(v.requests, order)
    decreases |order|
  {
    var front, last := order[..|order| - 1], order[|order| - 1];
    assert order == front + [last];
    if last == id {
      RankLowers(v, w, front);
    } else {
      RankFallsAt(v, w, front, id);
    }
  }

  /** What is left falls when a request goes on. */
  lemma RankFalls(v: View, w: View, order: seq<nat>)
    requires Known(v.requests, order) && Known(w.requests, order) && Falls(v, w)
    requires forall id :: id in v.requests ==> id in order
    ensures Rank(w.requests, order) < Rank(v.requests, order)
  {
    var id :| Lighter(v, w, id);
    RankFallsAt(v, w, order, id);
  }

  // Why a request ends.

  /** Request `id`'s handler is told its end between `v` and `w`. */
  predicate TellsEnd(v: View, w: View, id: nat) {
    id in v.requests && id in w.requests && v.requests[id].ends == 0 && w.requests[id].ends > 0
  }

  /** Request `id` was refused a Job since the list of refusals was `before`. */
  predicate RefusedSince(before: seq<nat>, after: seq<nat>, id: nat) {
    |before| <= |after| && id in after[|before|..]
  }

  /** Each request told its end is one of `some`, or was refused a Job. */
  ghost predicate EndsFor(v: View, w: View, before: seq<nat>, after: seq<nat>, some: set<nat>) {
    before <= after && forall id :: TellsEnd(v, w, id) ==> id in some || RefusedSince(before, after, id)
  }

  lemma EndsForSame(v: View, w: View, log: seq<nat>, some: set<nat>)
    requires w.requests == v.requests
    ensures EndsFor(v, w, log, log, some)
  {
  }

  lemma EndsForOn(a: View, b: View, c: View, x: seq<nat>, y: seq<nat>, z: seq<nat>, some: set<nat>)
    requires EndsFor(a, b, x, y, some) && EndsFor(b, c, y, z, some) && a.requests.Keys <= b.requests.Keys
    ensures EndsFor(a, c, x, z, some)
  {
    assert z[|x|..] == y[|x|..] + z[|y|..];
    forall id | TellsEnd(a, c, id)
      ensures id in some || RefusedSince(x, z, id)
    {
      assert TellsEnd(a, b, id) || TellsEnd(b, c, id);
    }
  }

  lemma EndsForWider(v: View, w: View, x: seq<nat>, y: seq<nat>, some: set<nat>, more: set<nat>)
    requires EndsFor(v, w, x, y, some) && some <= more
    ensures EndsFor(v, w, x, y, more)
  {
  }

  /** One request stepped. */
  lemma EndsForOne(id: nat, v: View, w: View, x: seq<nat>, y: seq<nat>, some: set<nat>)
    requires Stepped(id, v, w) && x <= y && (TellsEnd(v, w, id) ==> id in some || RefusedSince(x, y, id))
    ensures EndsFor(v, w, x, y, some)
  {
    assert forall o :: TellsEnd(v, w, o) ==> o == id;
  }

  /** No request was let in. */
  predicate NoneIn(v: View, w: View) {
    forall id :: id in w.active ==> id in v.active
  }

  /** No request was told its end. */
  ghost predicate NoEnds(v: View, w: View) {
    forall id :: !TellsEnd(v, w, id)
  }

  lemma NoEndsOn(a: View, b: View, c: View, id: nat)
    requires NoEnds(a, b) && a.requests.Keys <= b.requests.Keys && id in b.requests && id in c.requests
    requires c.requests == b.requests[id := c.requests[id]] && c.requests[id].ends == b.requests[id].ends
    ensures NoEnds(a, c)
  {
    forall o | TellsEnd(a, c, o)
      ensures false
    {
      assert TellsEnd(a, b, o);
    }
  }

  /** A step before that told nothing. */
  lemma EndsForAfter(id: nat, v: View, w: View, u: View, x: seq<nat>, y: seq<nat>, some: set<nat>)
    requires id in v.requests && Stepped(id, v, w) && w.requests[id].ends == v.requests[id].ends && EndsFor(w, u, x, y, some)
    ensures EndsFor(v, u, x, y, some)
  {
    assert forall o :: TellsEnd(v, u, o) ==> TellsEnd(w, u, o);
  }

  /** Or was refused. */
  lemma EndsForRefused(id: nat, v: View, w: View, log: seq<nat>)
    requires Stepped(id, v, w)
    ensures EndsFor(v, w, log, log + [id], {})
  {
    assert (log + [id])[|log|] == id;
    EndsForOne(id, v, w, log, log + [id], {});
  }

  ghost function CancelledIn(v: View): set<nat> {
    set id | id in v.requests && v.requests[id].cancelled
  }

  /** A queued request whose first pass cannot begin: it asks for no token, or
      its answer comes first and its prompt does not encode. */
  predicate Unready(encode: Encoder, id: nat, r: Request) {
    !r.reasonFirst && (r.sizes.maxTokens == 0 || (r.sizes.thinking && encode(id, r.sizes, 0).None?))
  }

  ghost function UnreadyIn(v: View, encode: Encoder): set<nat> {
    set id | id in v.ingress && id in v.requests && Unready(encode, id, v.requests[id])
  }

  /** What may end a request before its turn's round, but for a refusal. */
  ghost function EndsEarly(v: View, encode: Encoder): set<nat> {
    CancelledIn(v) + UnreadyIn(v, encode)
  }

  /** The requests whose Jobs are these. */
  ghost function Owners(v: View, serials: set<nat>): set<nat> {
    set id | id in v.requests && v.requests[id].job.Some? && v.requests[id].job.value in serials
  }

  ghost function Working(v: View): set<nat> {
    set id | id in v.requests && v.requests[id].job.Some?
  }

  /** After some tokens spent request `id`'s answer prompt does not encode. */
  ghost predicate Unencodable(encode: Encoder, id: nat, sizes: Sizes) {
    sizes.thinking && exists n :: encode(id, sizes, n).None?
  }

  lemma NoPrompt(encode: Encoder, id: nat, sizes: Sizes, n: nat)
    requires sizes.thinking && encode(id, sizes, n).None?
    ensures Unencodable(encode, id, sizes)
  {
  }

  /** So for one of `some`. */
  ghost predicate Misprompted(v: View, some: set<nat>, encode: Encoder) {
    exists id :: id in some && id in v.requests && Unencodable(encode, id, v.requests[id].sizes)
  }

  lemma EndsEarlyKin(v: View, w: View, encode: Encoder)
    requires Kin(v, w) && forall id :: id in w.ingress ==> id in v.ingress
    ensures EndsEarly(w, encode) <= EndsEarly(v, encode)
  {
    forall id | id in EndsEarly(w, encode)
      ensures id in EndsEarly(v, encode)
    {
      assert KinAt(v, w, id);
    }
  }

  // What the requests hold of the pool.

  /** The tokens a request's prompt encodes to once its thought is closed, by
      request, sizes and the tokens it has spent; none when that fails. */
  type Encoder = (nat, Sizes, nat) -> Option<nat>

  /** Every such prompt is within the prompt, what was spent and the close
      room. */
  ghost predicate InRoom(encode: Encoder) {
    forall id, sizes: Sizes, spent ::
      encode(id, sizes, spent).Some? ==> encode(id, sizes, spent).value <= sizes.promptTokens + spent + CLOSE_ROOM_TOKENS
  }

  /** A request holds what its sizes need from its admission to its end, and
      never waits for more. */
  predicate HoldsNeed(r: Request, l: Limits, depth: nat) {
    WantsPositive(r.sizes, depth);
    r.need == Need(r.sizes, depth, l.poolPages) && r.grow == 0
    && r.pages == if r.admitted && !r.released then r.need else 0
  }

  /** The pool is kept, and no answer needs more of it. */
  ghost predicate Roomy(v: View, l: Limits, depth: nat) {
    v.reserved <= l.poolPages && forall id :: id in v.requests ==> HoldsNeed(v.requests[id], l, depth)
  }

  /** What is reserved passes neither the pool nor what it was. */
  predicate Pooled(v: View, w: View, l: Limits) {
    w.reserved <= Max(v.reserved, l.poolPages)
  }

  // What a step of one request keeps of all this.

  ghost predicate Steady(id: nat, v: View, w: View, l: Limits, depth: nat, inRoom: bool) {
    && id in v.requests && Stepped(id, v, w) && Pooled(v, w, l)
    && Weight(w.requests[id]) <= Weight(v.requests[id])
    && (inRoom && HoldsNeed(v.requests[id], l, depth) ==> HoldsNeed(w.requests[id], l, depth))
    && SameCall(v.requests[id], w.requests[id]) && SameJob(v.requests[id], w.requests[id], v.next)
  }

  /** And any step or run of steps. */
  ghost predicate Calm(v: View, w: View, l: Limits, depth: nat, inRoom: bool) {
    Lower(v, w) && Kin(v, w) && (inRoom && Roomy(v, l, depth) ==> Roomy(w, l, depth))
  }

  lemma SteadyIsCalm(id: nat, v: View, w: View, l: Limits, depth: nat, inRoom: bool)
    requires Steady(id, v, w, l, depth, inRoom)
    ensures Calm(v, w, l, depth, inRoom) && Pooled(v, w, l)
    ensures Lighter(v, w, id) ==> Falls(v, w)
  {
    SteppedLowers(id, v, w);
    KinOne(id, v, w);
  }

  lemma CalmOn(a: View, b: View, c: View, l: Limits, depth: nat, inRoom: bool)
    requires Calm(a, b, l, depth, inRoom) && Calm(b, c, l, depth, inRoom)
    ensures Calm(a, c, l, depth, inRoom)
    ensures Falls(a, b) || Falls(b, c) ==> Falls(a, c)
  {
    LowerOn(a, b, c);
    KinOn(a, b, c);
  }

  /** A request's end: `r` is the request once it has no Job. */
  lemma OverIsSteady(id: nat, v: View, w: View, l: Limits, depth: nat, inRoom: bool, r: Request)
    requires id in v.requests && Stepped(id, v, w) && w.reserved <= v.reserved
    requires r.job.None? && SameCall(v.requests[id], r) && r.need == v.requests[id].need
    requires r.admitted == v.requests[id].admitted
    requires w.requests[id] == Freed(r).(ends := 1)
    ensures Steady(id, v, w, l, depth, inRoom) && Weight(w.requests[id]) == 0
  {
  }

  /** The growth of an answer in room is none. */
  lemma InRoomGrow(encode: Encoder, id: nat, r: Request, l: Limits, depth: nat, tokens: nat)
    requires InRoom(encode) && HoldsNeed(r, l, depth) && r.admitted && !r.released && r.spent < r.sizes.maxTokens
    requires if r.sizes.thinking then encode(id, r.sizes, r.spent) == Some(tokens) else tokens == r.sizes.promptTokens
    ensures Grow(tokens, r.sizes.maxTokens - r.spent, depth, l.poolPages, r.pages) == 0
  {
    AnswerNeverWaits(r.sizes, depth, l.poolPages, r.spent, tokens);
  }

  /** A request's Job taken off, or kept by the Generator: `w` is where the
      cancel left it. */
  predicate Cancelled(id: nat, v: View, w: View, dropped: bool) {
    && id in v.requests && Stepped(id, v, w) && id in v.active && id in w.active && w.reserved == v.reserved
    && w.requests[id] == (if dropped then v.requests[id].(job := None, custody := false) else v.requests[id].(custody := true))
    && (!dropped ==> w.requests[id].job.Some? && w.requests[id].job.value in w.jobs)
    && DropsOnly(id, v, w)
  }

  /** No Job but request `id`'s left the Generator. */
  predicate DropsOnly(id: nat, v: View, w: View)
    requires id in v.requests
  {
    w.jobs <= v.jobs && forall s :: s in v.jobs - w.jobs ==> v.requests[id].job == Some(s)
  }

  /** A cancel the Generator does not carry out leaves the request in custody. */
  lemma CustodyCancels(v: View, l: Limits, limbo: set<nat>, gone: set<nat>, id: nat, r: Request, w: View)
    requires Core(v, l, limbo, gone) && id in v.active && r == v.requests[id] && r.job.Some? && r.job.value in v.jobs
    requires w == Put(v, id, r.(custody := true))
    ensures Core(w, l, limbo, gone) && Cancelled(id, v, w, false) && (ToldBut(v, id) ==> ToldBut(w, id))
  {
    CustodyKeeps(v, l, limbo, gone, id, r.ends);
    assert r.(custody := true) == r.(custody := true, ends := r.ends);
  }

  /** One it does takes the Job off the request and out of every list. */
  lemma DropCancels(v: View, l: Limits, limbo: set<nat>, gone: set<nat>, id: nat, serial: nat, w: View)
    requires Core(v, l, limbo, gone) && id in v.active && v.requests[id].job == Some(serial)
    requires w.jobs == v.jobs - {serial} && w == Dropped(v, id, w.jobs)
    ensures Core(w, l, limbo + {id}, gone) && Cancelled(id, v, w, true) && (ToldBut(v, id) ==> ToldBut(w, id))
  {
    assert w.jobs == (v.bySerial.Keys - {serial}) - gone;
    DropKeeps(v, l, limbo, gone, gone, id, w.jobs);
  }

  /** A request that failed: over, or in custody with its Job still the
      Generator's. */
  predicate FailedAs(id: nat, v: View, w: View) {
    && id in v.requests && Stepped(id, v, w) && DropsOnly(id, v, w)
    && if id in w.active then
         w.requests[id] == v.requests[id].(custody := true, ends := 1) && w.reserved == v.reserved
         && w.requests[id].job.Some? && w.requests[id].job.value in w.jobs
       else
         w.requests[id] == Freed(v.requests[id].(job := None, custody := false)).(ends := 1)
         && w.reserved == v.reserved - v.requests[id].pages
  }

  lemma FailedDropped(id: nat, v: View, w: View, u: View)
    requires Cancelled(id, v, w, true) && Stepped(id, w, u) && id !in u.active && u.jobs == w.jobs
    requires u.requests[id] == Freed(w.requests[id]).(ends := 1) && u.reserved == w.reserved - w.requests[id].pages
    ensures FailedAs(id, v, u)
  {
    SteppedOn(id, v, w, u);
  }

  lemma FailedHeld(id: nat, v: View, w: View, u: View)
    requires Cancelled(id, v, w, false) && Stepped(id, w, u) && id in u.active && u.jobs == w.jobs && u.reserved == w.reserved
    requires u.requests[id] == w.requests[id].(ends := 1)
    ensures FailedAs(id, v, u)
  {
    SteppedOn(id, v, w, u);
  }

  lemma FailedIsSteady(id: nat, v: View, w: View, l: Limits, depth: nat, inRoom: bool)
    requires FailedAs(id, v, w)
    ensures Steady(id, v, w, l, depth, inRoom)
  {
    if id !in w.active {
      OverIsSteady(id, v, w, l, depth, inRoom, v.requests[id].(job := None, custody := false));
    }
  }

  /** A pass begun: the request has a Job the Generator holds, or is over; what
      is left of it is at most `n`. */
  predicate Begun(id: nat, v: View, w: View, n: nat) {
    && id in v.requests && Stepped(id, v, w) && v.jobs <= w.jobs
    && var r, s := v.requests[id], w.requests[id];
    && s.need == r.need && SameCall(r, s) && SameJob(r, s, v.next) && s.admitted == r.admitted && s.grow == 0 && Weight(s) <= n
    && if id in w.active then
         !s.released && s.pages == r.pages && w.reserved == v.reserved && s.job.Some? && s.job.value in w.jobs
       else
         s.released && s.pages == 0 && w.reserved == v.reserved - r.pages
  }

  /** With the pages the answer waited for. */
  predicate Grew(id: nat, v: View, w: View) {
    && id in v.requests && Stepped(id, v, w) && v.jobs <= w.jobs
    && var r, s := v.requests[id], w.requests[id];
    && s.need == r.need && SameCall(r, s) && SameJob(r, s, v.next) && s.admitted == r.admitted && s.grow == 0 && Weight(s) <= 2
    && if id in w.active then
         !s.released && s.pages == r.pages + r.grow && w.reserved == v.reserved + r.grow
         && s.job.Some? && s.job.value in w.jobs
       else
         s.released && s.pages == 0 && w.reserved == v.reserved - r.pages
  }

  /** A Job given out to it. */
  predicate StartedAs(id: nat, v: View, w: View) {
    && id in v.requests && Stepped(id, v, w) && id in w.active && w.reserved == v.reserved && v.jobs <= w.jobs
    && w.requests[id] == v.requests[id].(job := Some(v.next)) && v.next in w.jobs
  }

  lemma BegunStarted(id: nat, v: View, w: View, u: View, phase: Phase)
    requires id in v.requests && v.requests[id].grow == 0 && !v.requests[id].released
    requires Stepped(id, v, w) && id in w.active && w.requests[id] == v.requests[id].(phase := phase)
    requires w.reserved == v.reserved && w.jobs == v.jobs
    requires StartedAs(id, w, u)
    ensures Begun(id, v, u, if phase.Answer? then 2 else 6)
  {
    SteppedOn(id, v, w, u);
  }

  lemma BegunFailed(id: nat, v: View, w: View, u: View, phase: Phase)
    requires id in v.requests && v.requests[id].job.None?
    requires Stepped(id, v, w) && id in w.active && w.requests[id] == v.requests[id].(phase := phase)
    requires w.reserved == v.reserved && w.jobs == v.jobs && FailedAs(id, w, u)
    ensures Begun(id, v, u, 0)
  {
    SteppedOn(id, v, w, u);
    forall s | s in w.jobs
      ensures s in u.jobs
    {
      assert s in u.jobs || s in w.jobs - u.jobs;
    }
  }

  lemma GrewBegun(id: nat, v: View, w: View, u: View)
    requires id in v.requests && v.requests[id].pages <= v.reserved
    requires w == (if v.requests[id].grow > 0 then Grown(v, id) else v) && id in v.active
    requires Begun(id, w, u, 2)
    ensures Grew(id, v, u)
  {
    if v.requests[id].grow == 0 {
      SteppedSame(id, v, v);
    }
    SteppedOn(id, v, w, u);
  }

  /** Growth tells nothing. */
  lemma GrewEnds(id: nat, v: View, w: View, u: View, x: seq<nat>, y: seq<nat>)
    requires id in v.requests && w == (if v.requests[id].grow > 0 then Grown(v, id) else v)
    requires EndsFor(w, u, x, y, {})
    ensures EndsFor(v, u, x, y, {})
  {
    assert forall o :: TellsEnd(v, u, o) ==> TellsEnd(w, u, o);
  }

  lemma BegunIsSteady(id: nat, v: View, w: View, n: nat, l: Limits, depth: nat, inRoom: bool)
    requires Begun(id, v, w, n) && n <= Weight(v.requests[id]) && !v.requests[id].released
    ensures Steady(id, v, w, l, depth, inRoom)
  {
  }

  lemma GrewIsSteady(id: nat, v: View, w: View, l: Limits, depth: nat, inRoom: bool)
    requires Grew(id, v, w) && 2 <= Weight(v.requests[id]) && !v.requests[id].released
    requires v.requests[id].grow == 0 || v.reserved + v.requests[id].grow <= l.poolPages
    ensures Steady(id, v, w, l, depth, inRoom)
  {
  }

  /** Steps before, then one of one request. */
  lemma SteadyOn(a: View, id: nat, v: View, w: View, l: Limits, depth: nat, inRoom: bool)
    requires Calm(a, v, l, depth, inRoom) && Steady(id, v, w, l, depth, inRoom)
    ensures Calm(a, w, l, depth, inRoom) && (Pooled(a, v, l) ==> Pooled(a, w, l))
    ensures Falls(a, v) || Lighter(v, w, id) ==> Falls(a, w)
  {
    SteadyIsCalm(id, v, w, l, depth, inRoom);
    CalmOn(a, v, w, l, depth, inRoom);
  }

  lemma CalmSame(v: View, l: Limits, depth: nat, inRoom: bool)
    ensures Calm(v, v, l, depth, inRoom) && Pooled(v, v, l) && !Falls(v, v)
  {
    KinSame(v, v);
  }

  /** An answer pass sized: `grow` pages wait for room, none if it is within
      its own. */
  predicate Sized(id: nat, v: View, w: View, l: Limits, depth: nat, inRoom: bool) {
    && id in v.requests && Stepped(id, v, w) && id in w.active && w.reserved == v.reserved && w.jobs == v.jobs
    && Loose(v.requests[id]) && v.requests[id].ends == 0 && !v.requests[id].phase.Answer?
    && w.requests[id] == v.requests[id].(left := w.requests[id].left, grow := w.requests[id].grow)
    && (inRoom && HoldsNeed(v.requests[id], l, depth) ==> w.requests[id].grow == 0)
  }

  /** Then tried: it waits, has a Job or is over. */
  lemma AnswerBegun(id: nat, v: View, w: View, u: View, l: Limits, depth: nat, inRoom: bool)
    requires Sized(id, v, w, l, depth, inRoom)
    requires if w.requests[id].grow > 0 && w.reserved + w.requests[id].grow > l.poolPages then u == w else Grew(id, w, u)
    ensures Steady(id, v, u, l, depth, inRoom) && Weight(u.requests[id]) <= 4 && v.jobs <= u.jobs
  {
    if u != w {
      GrewIsSteady(id, w, u, l, depth, inRoom);
      SteppedOn(id, v, w, u);
    }
  }

  /** What a pass spent is counted. */
  predicate SpentBy(id: nat, v: View, w: View, spent: nat) {
    && id in v.requests && Stepped(id, v, w) && id in w.active && w.reserved == v.reserved
    && w.requests[id] == v.requests[id].(spent := spent)
  }

  /** It counts neither in the request's way nor in its hold. */
  lemma SpentIsSteady(id: nat, v: View, w: View, u: View, l: Limits, depth: nat, inRoom: bool, spent: nat)
    requires SpentBy(id, v, w, spent) && Steady(id, w, u, l, depth, inRoom)
    ensures Steady(id, v, u, l, depth, inRoom)
  {
    SteppedOn(id, v, w, u);
  }

  /** A request's Job taken off the table. */
  predicate Popped(id: nat, v: View, w: View) {
    && id in v.requests && Stepped(id, v, w) && id in w.active && w.reserved == v.reserved
    && w.requests[id] == v.requests[id].(job := None, custody := false)
  }

  /** A Job's end, and what follows it. */
  lemma PoppedOn(id: nat, v: View, w: View, u: View, l: Limits, depth: nat, inRoom: bool)
    requires Popped(id, v, w) && Steady(id, w, u, l, depth, inRoom) && Weight(u.requests[id]) < Weight(v.requests[id])
    ensures Steady(id, v, u, l, depth, inRoom) && Lighter(v, u, id)
  {
    SteppedOn(id, v, w, u);
  }

  lemma AdmittedIsCalm(v: View, id: nat, l: Limits, depth: nat, inRoom: bool)
    requires id in v.requests && Fresh(v.requests[id]) && v.reserved + v.requests[id].need <= l.poolPages
    ensures Calm(v, Admitted(v, id), l, depth, inRoom) && Pooled(v, Admitted(v, id), l) && Falls(v, Admitted(v, id))
  {
    assert Lighter(v, Admitted(v, id), id);
    KinOne(id, v, Admitted(v, id));
  }

  lemma UnqueuedIsCalm(v: View, id: nat, released: bool, l: Limits, depth: nat, inRoom: bool)
    requires id in v.requests && Fresh(v.requests[id])
    ensures Calm(v, Unqueued(v, id, released), l, depth, inRoom) && Falls(v, Unqueued(v, id, released))
  {
    assert Lighter(v, Unqueued(v, id, released), id);
    KinOne(id, v, Unqueued(v, id, released));
  }

  /** What admission has taken and kept: nothing, or someone went on. */
  ghost predicate TakenIn(was: View, v: View, admitted: seq<nat>, limbo: set<nat>, prioritized: bool, l: Limits, depth: nat, inRoom: bool) {
    && Known(v.requests, v.active) && Taken(was, v, admitted, limbo, prioritized)
    && Calm(was, v, l, depth, inRoom) && Pooled(was, v, l) && NoEnds(was, v)
    && if admitted == [] then v == was else Falls(was, v)
  }

  /** A queued request has a place and pages. */
  predicate MayEnter(v: View, l: Limits, id: nat) {
    && Known(v.requests, v.active) && id in v.ingress && id in v.requests && |v.active| < l.maxInFlight
    && (forall o :: o in v.active ==> !v.requests[o].solo) && (v.requests[id].solo ==> v.active == [])
    && v.reserved + v.requests[id].need <= l.poolPages
  }

  /** It is let in. */
  ghost predicate Entered(id: nat, v: View, w: View, l: Limits, depth: nat, inRoom: bool) {
    && w.ingress == Without(v.ingress, id) && w.active == v.active + [id] && id in v.requests && id in w.requests
    && w.requests == v.requests[id := w.requests[id]] && Unstarted(w.requests[id]) && w.requests[id].ends == v.requests[id].ends
    && Calm(v, w, l, depth, inRoom) && Pooled(v, w, l) && Falls(v, w)
  }

  lemma EnterKeeps(v: View, l: Limits, limbo: set<nat>, id: nat, depth: nat, inRoom: bool)
    requires Inv(v, l, limbo, {}) && MayEnter(v, l, id)
    ensures Inv(Admitted(v, id), l, limbo + {id}, {}) && Entered(id, v, Admitted(v, id), l, depth, inRoom)
  {
    assert Stands(v, limbo, id);
    AdmitKeeps(v, l, limbo, {}, id);
    AdmittedIsCalm(v, id, l, depth, inRoom);
  }

  lemma HeadMayEnter(v: View, l: Limits, prioritized: bool, blocked: bool)
    requires Known(v.requests, v.ingress) && Known(v.requests, v.active) && Admissible(v, l, prioritized, blocked)
    ensures v.ingress != [] && HeadOf(v.requests, v.ingress, prioritized).Some?
    ensures MayEnter(v, l, HeadOf(v.requests, v.ingress, prioritized).value)
    ensures !prioritized ==> HeadOf(v.requests, v.ingress, prioritized).value == v.ingress[0]
  {
  }

  lemma TakenInNext(was: View, v: View, w: View, admitted: seq<nat>, limbo: set<nat>, head: nat, prioritized: bool,
                    l: Limits, depth: nat, inRoom: bool)
    requires TakenIn(was, v, admitted, limbo, prioritized, l, depth, inRoom) && Known(w.requests, w.active)
    requires Distinct(v.ingress) && v.ingress != [] && (!prioritized ==> head == v.ingress[0])
    requires Entered(head, v, w, l, depth, inRoom) && head in v.ingress
    ensures TakenIn(was, w, admitted + [head], limbo + {head}, prioritized, l, depth, inRoom)
    ensures |w.ingress| < |v.ingress|
  {
    WithoutIs(v.ingress, head);
    TakenNext(was, v, w, admitted, limbo, head, prioritized);
    CalmOn(was, v, w, l, depth, inRoom);
    NoEndsOn(was, v, w, head);
  }

  lemma TakenToStart(was: View, v: View, admitted: seq<nat>, limbo: set<nat>, prioritized: bool, l: Limits, depth: nat, inRoom: bool)
    requires TakenIn(was, v, admitted, limbo, prioritized, l, depth, inRoom) && Distinct(v.active)
    ensures Distinct(admitted) && ToStart(v, admitted, 0, limbo)
  {
    SuffixDistinct(was.active, admitted);
    assert admitted[0..] == admitted;
  }

  /** Requests let in and started: someone goes on if any was; under FIFO they
      are a front of the queue. */
  ghost predicate LetIn(v: View, w: View, any: bool, prioritized: bool, l: Limits, depth: nat, inRoom: bool) {
    && Calm(v, w, l, depth, inRoom) && Pooled(v, w, l) && (if any then Falls(v, w) else w == v)
    && (!prioritized ==> exists k :: 0 <= k <= |v.ingress| && w.ingress == v.ingress[k..])
  }

  lemma LetInAll(v: View, w: View, u: View, admitted: seq<nat>, limbo: set<nat>, prioritized: bool, l: Limits, depth: nat, inRoom: bool)
    requires TakenIn(v, w, admitted, limbo, prioritized, l, depth, inRoom)
    requires u.ingress == w.ingress && Calm(w, u, l, depth, inRoom) && Pooled(w, u, l) && (admitted == [] ==> u == w)
    ensures LetIn(v, u, admitted != [], prioritized, l, depth, inRoom)
  {
    CalmOn(v, w, u, l, depth, inRoom);
    if !prioritized {
      assert u.ingress == v.ingress[|admitted|..];
    }
  }

  // Requests from outside.

  lemma SubmittedRoomy(v: View, l: Limits, depth: nat, id: nat, solo: bool, sizes: Sizes, work: Work)
    requires Roomy(v, l, depth)
    ensures Roomy(Submitted(v, id, NewRequest(l, depth, solo, sizes, work)), l, depth)
  {
    var w := Submitted(v, id, NewRequest(l, depth, solo, sizes, work));
    forall o | o in w.requests
      ensures HoldsNeed(w.requests[o], l, depth)
    {
      assert o != id ==> HoldsNeed(v.requests[o], l, depth);
    }
  }

  lemma MarkedRoomy(v: View, l: Limits, depth: nat, id: nat, r: Request)
    requires Roomy(v, l, depth) && id in v.requests
    requires r == v.requests[id].(cancelled := r.cancelled, work := r.work)
    ensures Roomy(Put(v, id, r), l, depth)
  {
    var w := Put(v, id, r);
    forall o | o in w.requests
      ensures HoldsNeed(w.requests[o], l, depth)
    {
      assert HoldsNeed(v.requests[o], l, depth);
    }
  }
}
