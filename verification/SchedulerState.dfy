/// What the scheduler's steps keep, as a property of the values it holds
/// (deploy/house-model/exl3_server.py).

module SchedulerState {
  import opened Wrappers
  import opened ExecutorRank
  import opened Pages

  datatype Phase = Queued | Reason | Answer

  /** One call: what its handler filled in, and what the scheduler changes.
      `ends` counts the terminal events its handler was told, `refunds` the
      times its charge was given back. */
  datatype Request = Request(
    solo: bool, sizes: Sizes, reasonFirst: bool, work: Work, cancelled: bool, need: nat,
    admitted: bool, phase: Phase, job: Option<nat>, pages: nat, grow: nat, left: nat, spent: nat,
    released: bool, custody: bool, ends: nat, refunds: nat)

  type Table = map<nat, Request>

  /** The scheduler's and the Generator's fields at one time. */
  datatype View = View(
    ingress: seq<nat>, active: seq<nat>, requests: Table, bySerial: map<nat, nat>, reserved: nat,
    jobs: set<nat>, next: nat)

  /** What the machine was started with. */
  datatype Limits = Limits(maxInFlight: nat, poolPages: nat)

  /** A request as it is submitted, with the pages it will hold. */
  function NewRequest(l: Limits, depth: nat, solo: bool, sizes: Sizes, work: Work): Request {
    WantsPositive(sizes, depth);
    Request(solo, sizes, sizes.thinking && sizes.cap > 0, work, false, Need(sizes, depth, l.poolPages),
            false, Queued, None, 0, 0, 0, 0, false, false, 0, 0)
  }

  // Requests, by where they stand.

  /** Waiting for a place: nothing held, nothing told. */
  predicate Fresh(r: Request) {
    r.job.None? && r.pages == 0 && r.grow == 0 && r.phase.Queued? && r.spent == 0
    && !r.admitted && !r.released && !r.custody && r.ends == 0 && r.refunds == 0
  }

  /** In flight, its charge held. */
  predicate Charged(r: Request) {
    r.admitted && !r.released && r.refunds == 0
  }

  /** In flight, in the midst of a step: it has no Job. */
  predicate Loose(r: Request) {
    Charged(r) && r.job.None? && !r.custody
  }

  /** In flight: it has a Job or waits for pages, never both; in custody it
      has a Job. */
  predicate InFlight(r: Request) {
    Charged(r) && (r.job.Some? <==> r.grow == 0) && (r.custody ==> r.job.Some?)
  }

  /** Over: nothing held, its handler told once, its charge given back once
      if it was ever taken. */
  predicate Over(r: Request) {
    r.job.None? && r.pages == 0 && r.grow == 0 && !r.custody && r.ends == 1 && r.refunds == if r.admitted then 1 else 0
  }

  // Lists of requests.

  predicate Distinct(s: seq<nat>) {
    forall i, j :: 0 <= i < j < |s| ==> s[i] != s[j]
  }

  function Without(s: seq<nat>, id: nat): seq<nat> {
    if s == [] then []
    else if s[|s| - 1] == id then s[..|s| - 1]
    else Without(s[..|s| - 1], id) + [s[|s| - 1]]
  }

  predicate Known(t: Table, s: seq<nat>) {
    forall id :: id in s ==> id in t
  }

  /** The pages the listed requests hold. */
  function Sum(t: Table, s: seq<nat>): nat
    requires Known(t, s)
  {
    if s == [] then 0 else Sum(t, s[..|s| - 1]) + t[s[|s| - 1]].pages
  }

  lemma DistinctPush(s: seq<nat>, id: nat)
    requires Distinct(s) && id !in s
    ensures Distinct(s + [id])
  {
  }

  lemma SumPush(t: Table, s: seq<nat>, id: nat)
    requires Known(t, s + [id])
    ensures Known(t, s) && Sum(t, s + [id]) == Sum(t, s) + t[id].pages
  {
    assert (s + [id])[..|s|] == s;
    assert forall x :: x in s ==> x in s + [id];
  }

  lemma {:induction false} WithoutIs(s: seq<nat>, id: nat)
    requires Distinct(s)
    ensures Distinct(Without(s, id)) && forall x :: x in Without(s, id) <==> x in s && x != id
    ensures |Without(s, id)| == |s| - (if id in s then 1 else 0)
    decreases |s|
  {
    if s != [] {
      var front, last := s[..|s| - 1], s[|s| - 1];
      WithoutIs(front, id);
      assert last !in front && forall x :: x in s <==> x in front || x == last;
      if last != id {
        DistinctPush(Without(front, id), last);
      }
    }
  }

  /** Taking the first of a queue. */
  lemma TakeFirst(whole: seq<nat>, taken: seq<nat>, queue: seq<nat>)
    requires Distinct(queue) && queue != [] && whole == taken + queue
    ensures whole == taken + [queue[0]] + Without(queue, queue[0])
  {
    WithoutFirst(queue);
  }

  lemma SuffixDistinct(a: seq<nat>, b: seq<nat>)
    requires Distinct(a + b)
    ensures Distinct(b)
  {
    forall i, j | 0 <= i < j < |b|
      ensures b[i] != b[j]
    {
      assert (a + b)[|a| + i] == b[i] && (a + b)[|a| + j] == b[j];
    }
  }

  lemma {:induction false} WithoutFirst(s: seq<nat>)
    requires Distinct(s) && s != []
    ensures Without(s, s[0]) == s[1..]
    decreases |s|
  {
    if |s| > 1 {
      WithoutFirst(s[..|s| - 1]);
      assert s[..|s| - 1][1..] + [s[|s| - 1]] == s[1..];
    }
  }

  lemma {:induction false} SumWithout(t: Table, s: seq<nat>, id: nat)
    requires Distinct(s) && Known(t, s) && id in s
    ensures Known(t, Without(s, id)) && Sum(t, s) == Sum(t, Without(s, id)) + t[id].pages
    decreases |s|
  {
    var front, last := s[..|s| - 1], s[|s| - 1];
    assert front + [last] == s;
    WithoutIs(s, id);
    if last != id {
      SumWithout(t, front, id);
      SumPush(t, Without(front, id), last);
    }
  }

  /** One request of the list changed. */
  lemma {:induction false} SumChange(t: Table, s: seq<nat>, id: nat, r: Request)
    requires Distinct(s) && Known(t, s)
    ensures Known(t[id := r], s)
    ensures id in s ==> Sum(t[id := r], s) == Sum(t, s) - t[id].pages + r.pages
    ensures id !in s ==> Sum(t[id := r], s) == Sum(t, s)
    decreases |s|
  {
    if s != [] {
      var front, last := s[..|s| - 1], s[|s| - 1];
      assert front + [last] == s && last !in front;
      SumChange(t, front, id, r);
    }
  }

  // What every step keeps.

  /** Every request is known, and stands in one place. */
  predicate Lists(v: View, l: Limits) {
    && Distinct(v.active) && Distinct(v.ingress)
    && Known(v.requests, v.active) && Known(v.requests, v.ingress)
    && (forall id :: id in v.ingress ==> id !in v.active && v.requests[id].need <= l.poolPages)
  }

  /** The account: what is reserved is what the active requests hold. */
  predicate Accounts(v: View)
    requires Known(v.requests, v.active)
  {
    v.reserved == Sum(v.requests, v.active)
  }

  /** Where request `id` stands, `limbo` being those in the midst of a step. */
  predicate Stands(v: View, limbo: set<nat>, id: nat)
    requires id in v.requests
  {
    var r := v.requests[id];
    if id in limbo then id in v.active && Loose(r)
    else if id in v.active then InFlight(r)
    else if id in v.ingress then Fresh(r)
    else Over(r)
  }

  ghost predicate AllStand(v: View, limbo: set<nat>) {
    limbo <= v.requests.Keys && forall id :: id in v.requests ==> Stands(v, limbo, id)
  }

  /** Serial `s` names the active request whose Job it is. */
  predicate Names(v: View, s: nat)
    requires s in v.bySerial
  {
    s < v.next && v.bySerial[s] in v.active && v.bySerial[s] in v.requests && v.requests[v.bySerial[s]].job == Some(s)
  }

  /** A request's Job is named by its serial. */
  predicate Named(v: View, id: nat)
    requires id in v.requests
  {
    var job := v.requests[id].job;
    job.Some? ==> job.value in v.bySerial && v.bySerial[job.value] == id
  }

  /** The Generator holds the named Jobs but those of `gone`, which have ended
      or are lost. */
  ghost predicate Jobs(v: View, gone: set<nat>) {
    && (forall s :: s in v.bySerial ==> Names(v, s))
    && (forall id :: id in v.requests ==> Named(v, id))
    && v.jobs == v.bySerial.Keys - gone
    && (forall s :: s in gone ==> s < v.next)
  }

  /** A handler is told its call's end once it is over or in custody. */
  ghost predicate Told(v: View)
    requires Known(v.requests, v.active)
  {
    forall id :: id in v.active ==> v.requests[id].ends == if v.requests[id].custody then 1 else 0
  }

  /** So for every active request but one. */
  ghost predicate ToldBut(v: View, id: nat)
    requires Known(v.requests, v.active)
  {
    forall o :: o in v.active && o != id ==> v.requests[o].ends == if v.requests[o].custody then 1 else 0
  }

  /** No more in flight than there are places; a solo request is alone. */
  ghost predicate Places(v: View, l: Limits)
    requires Known(v.requests, v.active)
  {
    |v.active| <= l.maxInFlight && forall id :: id in v.active && v.requests[id].solo ==> |v.active| == 1
  }

  ghost predicate Core(v: View, l: Limits, limbo: set<nat>, gone: set<nat>) {
    Lists(v, l) && Accounts(v) && AllStand(v, limbo) && Jobs(v, gone) && Places(v, l)
  }

  ghost predicate Inv(v: View, l: Limits, limbo: set<nat>, gone: set<nat>) {
    Core(v, l, limbo, gone) && Told(v)
  }

  // The steps, and what each keeps.

  function Put(v: View, id: nat, r: Request): View {
    v.(requests := v.requests[id := r])
  }

  /** Fields a step may set of a request it holds: not its place, its pages or
      its Job. */
  predicate SameHold(a: Request, b: Request) {
    a.solo == b.solo && a.need == b.need && a.admitted == b.admitted && a.job == b.job && a.pages == b.pages
    && a.released == b.released && a.custody == b.custody && a.ends == b.ends && a.refunds == b.refunds
  }

  lemma PutKeeps(v: View, l: Limits, limbo: set<nat>, gone: set<nat>, id: nat, r: Request)
    requires Core(v, l, limbo, gone) && id in limbo && SameHold(v.requests[id], r)
    ensures Core(Put(v, id, r), l, limbo, gone)
    ensures Told(v) ==> Told(Put(v, id, r))
  {
    var w := Put(v, id, r);
    SumChange(v.requests, v.active, id, r);
    forall o | o in w.requests
      ensures Stands(w, limbo, o) && Named(w, o)
    {
      assert Stands(v, limbo, o) && Named(v, o);
    }
    forall s | s in w.bySerial
      ensures Names(w, s)
    {
      assert Names(v, s);
    }
  }

  /** A request with no Job in the midst of a step. */
  lemma Loosens(v: View, l: Limits, limbo: set<nat>, gone: set<nat>, id: nat)
    requires Core(v, l, limbo, gone) && id in v.active && v.requests[id].job.None?
    ensures Core(v, l, limbo + {id}, gone)
  {
    assert Stands(v, limbo, id);
    forall o | o in v.requests
      ensures Stands(v, limbo + {id}, o)
    {
      assert Stands(v, limbo, o);
    }
  }

  /** And back, once it waits for pages. */
  lemma Waits(v: View, l: Limits, limbo: set<nat>, gone: set<nat>, id: nat)
    requires Core(v, l, limbo, gone) && id in limbo && v.requests[id].grow > 0
    ensures Core(v, l, limbo - {id}, gone)
  {
    assert Stands(v, limbo, id);
    forall o | o in v.requests
      ensures Stands(v, limbo - {id}, o)
    {
      assert Stands(v, limbo, o);
    }
  }

  /** The Generator no longer holds request `id`'s Job. */
  function Dropped(v: View, id: nat, jobs: set<nat>): View
    requires id in v.requests && v.requests[id].job.Some?
  {
    var r := v.requests[id];
    Put(v, id, r.(job := None, custody := false)).(bySerial := v.bySerial - {r.job.value}, jobs := jobs)
  }

  lemma DropKeeps(v: View, l: Limits, limbo: set<nat>, gone: set<nat>, after: set<nat>, id: nat, jobs: set<nat>)
    requires Core(v, l, limbo, gone) && id in v.active && v.requests[id].job.Some?
    requires var s := v.requests[id].job.value;
      jobs == (v.bySerial.Keys - {s}) - after && forall x :: x in after ==> x < v.next
    ensures Core(Dropped(v, id, jobs), l, limbo + {id}, after)
  {
    var w, r := Dropped(v, id, jobs), v.requests[id];
    var s := r.job.value;
    SumChange(v.requests, v.active, id, w.requests[id]);
    assert Stands(v, limbo, id) && Named(v, id);
    forall o | o in w.requests
      ensures Stands(w, limbo + {id}, o) && Named(w, o)
    {
      assert Stands(v, limbo, o) && Named(v, o);
    }
    forall x | x in w.bySerial
      ensures Names(w, x)
    {
      assert Names(v, x);
    }
    assert w.bySerial.Keys == v.bySerial.Keys - {s};
  }

  /** The Generator keeps a Job it could not cancel. */
  lemma CustodyKeeps(v: View, l: Limits, limbo: set<nat>, gone: set<nat>, id: nat, ends: nat)
    requires Core(v, l, limbo, gone) && id in v.active && v.requests[id].job.Some?
    ensures Core(Put(v, id, v.requests[id].(custody := true, ends := ends)), l, limbo, gone)
  {
    var r := v.requests[id].(custody := true, ends := ends);
    var w := Put(v, id, r);
    SumChange(v.requests, v.active, id, r);
    assert Stands(v, limbo, id);
    forall o | o in w.requests
      ensures Stands(w, limbo, o) && Named(w, o)
    {
      assert Stands(v, limbo, o) && Named(v, o);
    }
    forall s | s in w.bySerial
      ensures Names(w, s)
    {
      assert Names(v, s);
    }
  }

  /** Request `id`'s place and pages given back. */
  function Freed(r: Request): Request {
    r.(released := true, pages := 0, grow := 0, refunds := r.refunds + 1)
  }

  function GivenBack(v: View, id: nat, ends: nat): View
    requires id in v.requests && v.requests[id].pages <= v.reserved
  {
    var r := v.requests[id];
    Put(v, id, Freed(r).(ends := ends)).(reserved := v.reserved - r.pages, active := Without(v.active, id))
  }

  lemma HoldsPages(v: View, l: Limits, limbo: set<nat>, gone: set<nat>, id: nat)
    requires Core(v, l, limbo, gone) && id in v.active
    ensures id in v.requests && v.requests[id].pages <= v.reserved
  {
    SumWithout(v.requests, v.active, id);
  }

  /** A request's end: its charge is given back, and its handler told once. */
  lemma EndKeeps(v: View, l: Limits, limbo: set<nat>, gone: set<nat>, id: nat)
    requires Core(v, l, limbo, gone) && id in limbo
    ensures id in v.active && v.requests[id].pages <= v.reserved
    ensures Core(GivenBack(v, id, 1), l, limbo - {id}, gone)
  {
    assert Stands(v, limbo, id) && Named(v, id);
    HoldsPages(v, l, limbo, gone, id);
    var w := GivenBack(v, id, 1);
    WithoutIs(v.active, id);
    SumWithout(v.requests, v.active, id);
    SumChange(v.requests, w.active, id, w.requests[id]);
    forall o | o in w.requests
      ensures Stands(w, limbo - {id}, o) && Named(w, o)
    {
      assert Stands(v, limbo, o) && Named(v, o);
    }
    forall s | s in w.bySerial
      ensures Names(w, s)
    {
      assert Names(v, s);
    }
  }

  /** A Job enqueued for request `id`. */
  function Enqueued(v: View, id: nat): View
    requires id in v.requests
  {
    Put(v, id, v.requests[id].(job := Some(v.next)))
      .(bySerial := v.bySerial[v.next := id], jobs := v.jobs + {v.next}, next := v.next + 1)
  }

  lemma EnqueueKeeps(v: View, l: Limits, limbo: set<nat>, gone: set<nat>, id: nat)
    requires Core(v, l, limbo, gone) && id in limbo && v.requests[id].grow == 0
    ensures Core(Enqueued(v, id), l, limbo - {id}, gone)
    ensures Told(v) ==> Told(Enqueued(v, id))
  {
    var w := Enqueued(v, id);
    assert Stands(v, limbo, id) && Named(v, id);
    SumChange(v.requests, v.active, id, w.requests[id]);
    assert v.next !in v.bySerial;
    forall o | o in w.requests
      ensures Stands(w, limbo - {id}, o) && Named(w, o)
    {
      assert Stands(v, limbo, o) && Named(v, o);
    }
    forall s | s in w.bySerial
      ensures Names(w, s)
    {
      assert s != v.next ==> Names(v, s);
    }
    assert w.jobs == w.bySerial.Keys - gone;
  }

  /** The pages an answer waited for, reserved. */
  function Grown(v: View, id: nat): View
    requires id in v.requests
  {
    var r := v.requests[id];
    Put(v, id, r.(pages := r.pages + r.grow, grow := 0)).(reserved := v.reserved + r.grow)
  }

  lemma GrowKeeps(v: View, l: Limits, limbo: set<nat>, gone: set<nat>, id: nat)
    requires Core(v, l, limbo, gone) && id in limbo
    ensures Core(Grown(v, id), l, limbo, gone)
    ensures Told(v) ==> Told(Grown(v, id))
  {
    var w := Grown(v, id);
    assert Stands(v, limbo, id);
    SumChange(v.requests, v.active, id, w.requests[id]);
    forall o | o in w.requests
      ensures Stands(w, limbo, o) && Named(w, o)
    {
      assert Stands(v, limbo, o) && Named(v, o);
    }
    forall s | s in w.bySerial
      ensures Names(w, s)
    {
      assert Names(v, s);
    }
  }

  /** A request let in, its pages charged. */
  function Admitted(v: View, id: nat): View
    requires id in v.requests
  {
    var r := v.requests[id];
    Put(v, id, r.(pages := r.need, admitted := true))
      .(reserved := v.reserved + r.need, ingress := Without(v.ingress, id), active := v.active + [id])
  }

  lemma AdmitLists(v: View, l: Limits, id: nat)
    requires Lists(v, l) && Accounts(v) && id in v.ingress && v.requests[id].pages == 0
    ensures Lists(Admitted(v, id), l) && Accounts(Admitted(v, id))
    ensures forall o :: o in Admitted(v, id).active <==> o in v.active || o == id
    ensures forall o :: o in Admitted(v, id).ingress <==> o in v.ingress && o != id
  {
    var w := Admitted(v, id);
    WithoutIs(v.ingress, id);
    DistinctPush(v.active, id);
    SumChange(v.requests, v.active, id, w.requests[id]);
    SumPush(w.requests, v.active, id);
  }

  lemma AdmitKeeps(v: View, l: Limits, limbo: set<nat>, gone: set<nat>, id: nat)
    requires Core(v, l, limbo, gone) && id in v.ingress && |v.active| < l.maxInFlight
    requires forall o :: o in v.active ==> !v.requests[o].solo
    requires v.requests[id].solo ==> v.active == []
    ensures Core(Admitted(v, id), l, limbo + {id}, gone)
    ensures Told(v) ==> Told(Admitted(v, id))
  {
    var w := Admitted(v, id);
    assert Stands(v, limbo, id) && Named(v, id);
    AdmitLists(v, l, id);
    forall o | o in w.requests
      ensures Stands(w, limbo + {id}, o) && Named(w, o)
    {
      assert Stands(v, limbo, o) && Named(v, o);
    }
    forall s | s in w.bySerial
      ensures Names(w, s)
    {
      assert Names(v, s);
    }
  }

  /** A new request at the end of the queue. */
  function Submitted(v: View, id: nat, r: Request): View {
    Put(v, id, r).(ingress := v.ingress + [id])
  }

  lemma SubmitKeeps(v: View, l: Limits, id: nat, r: Request)
    requires Inv(v, l, {}, {}) && id !in v.requests && Fresh(r) && r.need <= l.poolPages
    ensures Inv(Submitted(v, id, r), l, {}, {})
  {
    var w := Submitted(v, id, r);
    SumChange(v.requests, v.active, id, r);
    DistinctPush(v.ingress, id);
    forall o | o in w.requests
      ensures Stands(w, {}, o) && Named(w, o)
    {
      assert o != id ==> Stands(v, {}, o) && Named(v, o);
    }
    forall s | s in w.bySerial
      ensures Names(w, s)
    {
      assert Names(v, s);
    }
  }

  /** A queued request ended before it was let in. */
  function Unqueued(v: View, id: nat, released: bool): View
    requires id in v.requests
  {
    Put(v, id, v.requests[id].(released := released, ends := 1)).(ingress := Without(v.ingress, id))
  }

  lemma UnqueueKeeps(v: View, l: Limits, gone: set<nat>, id: nat, released: bool)
    requires Core(v, l, {}, gone) && id in v.ingress
    ensures Core(Unqueued(v, id, released), l, {}, gone)
    ensures Told(v) ==> Told(Unqueued(v, id, released))
  {
    var w := Unqueued(v, id, released);
    assert Stands(v, {}, id) && Named(v, id);
    SumChange(v.requests, v.active, id, w.requests[id]);
    WithoutIs(v.ingress, id);
    forall o | o in w.requests
      ensures Stands(w, {}, o) && Named(w, o)
    {
      assert Stands(v, {}, o) && Named(v, o);
    }
    forall s | s in w.bySerial
      ensures Names(w, s)
    {
      assert Names(v, s);
    }
  }

  /** The Generator ended or lost Jobs. */
  lemma LoseKeeps(v: View, l: Limits, limbo: set<nat>, gone: set<nat>)
    requires Core(v, l, limbo, {}) && forall s :: s in gone ==> s < v.next
    ensures Core(v.(jobs := v.jobs - gone), l, limbo, gone)
    ensures Told(v) ==> Told(v.(jobs := v.jobs - gone))
  {
    var w := v.(jobs := v.jobs - gone);
    forall o | o in w.requests
      ensures Stands(w, limbo, o) && Named(w, o)
    {
      assert Stands(v, limbo, o) && Named(v, o);
    }
    forall s | s in w.bySerial
      ensures Names(w, s)
    {
      assert Names(v, s);
    }
  }

  /** Once every named Job is the Generator's, none is gone. */
  lemma NoneGone(v: View, l: Limits, limbo: set<nat>, gone: set<nat>)
    requires Core(v, l, limbo, gone)
    requires forall id :: id in v.active && v.requests[id].job.Some? ==> v.requests[id].job.value in v.jobs
    ensures Core(v, l, limbo, {})
  {
    forall s | s in v.bySerial
      ensures s in v.jobs
    {
      assert Names(v, s);
    }
    assert v.jobs == v.bySerial.Keys;
  }

  /** A step of one request: no other changed, and it is still active or has
      left. */
  predicate Stepped(id: nat, v: View, w: View) {
    && id in w.requests && w.requests == v.requests[id := w.requests[id]]
    && w.ingress == v.ingress && v.next <= w.next
    && w.active == if id in w.active then v.active else Without(v.active, id)
  }

  lemma SteppedOn(id: nat, a: View, b: View, c: View)
    requires Stepped(id, a, b) && Stepped(id, b, c) && id in b.active
    ensures Stepped(id, a, c)
  {
    assert a.requests[id := b.requests[id]][id := c.requests[id]] == a.requests[id := c.requests[id]];
  }

  lemma SteppedSame(id: nat, v: View, w: View)
    requires id in v.requests && id in v.active && w.requests == v.requests && w.active == v.active
    requires w.ingress == v.ingress && w.next == v.next
    ensures Stepped(id, v, w)
  {
    assert v.requests == v.requests[id := v.requests[id]];
  }

  /** Request `id`'s Job ended, and is no longer one of those gone. */
  lemma GoneShrinks(v: View, l: Limits, limbo: set<nat>, gone: set<nat>, rest: set<nat>, s: nat)
    requires Core(v, l, limbo, gone) && s !in v.bySerial && (gone == rest || gone == {s} + rest)
    ensures Core(v, l, limbo, rest)
  {
    assert v.bySerial.Keys - gone == v.bySerial.Keys - rest;
  }

  /** The requests that wait for pages. */
  ghost function Waiting(v: View): set<nat> {
    set id | id in v.active && id in v.requests && v.requests[id].grow > 0
  }

  /** A request waits only as it did. */
  lemma WaitingShrinks(id: nat, v: View, w: View)
    requires Stepped(id, v, w) && Distinct(v.active) && id in v.active && id in v.requests
    requires id in w.active ==> w.requests[id].grow == 0 || w.requests[id].grow == v.requests[id].grow
    ensures Waiting(w) <= Waiting(v)
    ensures id !in w.active || w.requests[id].grow == 0 ==> Waiting(w) == Waiting(v) - {id}
  {
    WithoutIs(v.active, id);
  }

  // Admission.

  /** The request admission takes next: the head of the queue, or under the
      class policy the best ranked one the host has not paused. */
  function HeadOf(t: Table, ingress: seq<nat>, prioritized: bool): (head: Option<nat>)
    requires Known(t, ingress)
    ensures head.Some? ==> head.value in ingress
  {
    if ingress == [] then None
    else if !prioritized then Some(ingress[0])
    else
      var front, last := HeadOf(t, ingress[..|ingress| - 1], true), ingress[|ingress| - 1];
      if t[last].work.yielded then front
      else if front.Some? && !Outranks(t[last].work, t[front.value].work) then front
      else Some(last)
  }

  lemma HeadIsSome(t: Table, ingress: seq<nat>)
    requires Known(t, ingress)
    ensures HeadOf(t, ingress, true).None? <==> forall id :: id in ingress ==> t[id].work.yielded
    ensures HeadOf(t, ingress, true).Some? ==> !t[HeadOf(t, ingress, true).value].work.yielded
    decreases |ingress|
  {
    if ingress != [] {
      var front, last := ingress[..|ingress| - 1], ingress[|ingress| - 1];
      assert ingress == front + [last];
      HeadIsSome(t, front);
    }
  }

  /** Under the class policy the head is the best ranked request the host has
      not paused: none of those outranks it. */
  lemma {:induction false} HeadIsBest(t: Table, ingress: seq<nat>)
    requires Known(t, ingress) && HeadOf(t, ingress, true).Some?
    ensures var head := HeadOf(t, ingress, true).value;
      !t[head].work.yielded
      && forall id :: id in ingress && !t[id].work.yielded ==> !Outranks(t[id].work, t[head].work)
    decreases |ingress|
  {
    var front, last := ingress[..|ingress| - 1], ingress[|ingress| - 1];
    assert ingress == front + [last];
    HeadIsSome(t, ingress);
    HeadIsSome(t, front);
    var head, best := HeadOf(t, ingress, true).value, HeadOf(t, front, true);
    forall id | id in ingress && !t[id].work.yielded
      ensures !Outranks(t[id].work, t[head].work)
    {
      RankIsTotal(t[id].work, t[head].work, t[id].work);
      if id in front {
        HeadIsBest(t, front);
        RankIsTotal(t[head].work, t[id].work, t[best.value].work);
        RankIsTotal(t[id].work, t[head].work, t[best.value].work);
      }
    }
  }

  predicate Counts(r: Request) {
    r.work.foreground && !r.work.yielded && !r.custody
  }

  /** The background requests in flight, but those in custody. */
  function BackgroundIn(t: Table, s: seq<nat>): nat
    requires Known(t, s)
  {
    if s == [] then 0 else
    BackgroundIn(t, s[..|s| - 1]) + (if !t[s[|s| - 1]].work.foreground && !t[s[|s| - 1]].custody then 1 else 0)
  }

  /** Under the class policy a background request waits while foreground work
      is present and enough of its own is in flight. */
  predicate BackgroundRoom(t: Table, ingress: seq<nat>, active: seq<nat>, prioritized: bool, blocked: bool, work: Work)
    requires Known(t, ingress) && Known(t, active)
  {
    !prioritized || work.foreground
    || !(blocked || (exists id :: id in ingress && Counts(t[id])) || (exists id :: id in active && Counts(t[id])))
    || BackgroundIn(t, active) < BACKGROUND_ACTIVE_LIMIT
  }

  /** The head of the queue may be let in beside what is in flight. */
  predicate Admissible(v: View, l: Limits, prioritized: bool, blocked: bool)
    requires Known(v.requests, v.ingress) && Known(v.requests, v.active)
  {
    && (forall id :: id in v.active ==> v.requests[id].grow == 0)
    && |v.active| < l.maxInFlight
    && var head := HeadOf(v.requests, v.ingress, prioritized);
    head.Some?
    && var r := v.requests[head.value];
    (forall id :: id in v.active ==> !v.requests[id].solo)
    && (r.solo ==> v.active == [])
    && BackgroundRoom(v.requests, v.ingress, v.active, prioritized, blocked, r.work)
    && v.reserved + r.need <= l.poolPages
  }

  /** With nothing in flight the head of the queue is let in, whatever its
      size, class or standing. */
  lemma HeadIsAdmissible(v: View, l: Limits, prioritized: bool, blocked: bool)
    requires Lists(v, l) && Accounts(v) && v.active == [] && l.maxInFlight >= 1
    requires HeadOf(v.requests, v.ingress, prioritized).Some?
    ensures Admissible(v, l, prioritized, blocked)
  {
  }

  /** A pass would do nothing: no Job, no answer waiting, no one to let in. */
  ghost predicate Idle(v: View, l: Limits, prioritized: bool, blocked: bool)
    requires Known(v.requests, v.ingress) && Known(v.requests, v.active)
  {
    v.jobs == {} && Waiting(v) == {} && !Admissible(v, l, prioritized, blocked)
  }

  lemma FirstIn(s: seq<nat>)
    ensures s != [] ==> s[0] in s
  {
  }

  /** With no Job to run, what is in flight waits for pages. */
  lemma JoblessWaits(v: View, l: Limits)
    requires Inv(v, l, {}, {}) && v.jobs == {}
    ensures forall id :: id in v.active ==> id in Waiting(v)
  {
    assert v.bySerial.Keys == {};
    forall id | id in v.active
      ensures id in Waiting(v)
    {
      assert Stands(v, {}, id) && Named(v, id);
    }
  }

  /** Nothing is parked: with no Job to run the owner sleeps only when no
      request is in flight, in custody or out of it, and none in the queue
      can be a head. */
  lemma IdleIsEmpty(v: View, l: Limits, prioritized: bool, blocked: bool)
    requires Inv(v, l, {}, {}) && Idle(v, l, prioritized, blocked) && l.maxInFlight >= 1
    ensures v.active == [] && v.reserved == 0 && HeadOf(v.requests, v.ingress, prioritized).None?
    ensures !prioritized ==> v.ingress == []
  {
    FirstIn(v.active);
    JoblessWaits(v, l);
    if HeadOf(v.requests, v.ingress, prioritized).Some? {
      HeadIsAdmissible(v, l, prioritized, blocked);
    }
  }

  /** Request `id`'s Job, if it has one, is the Generator's. */
  predicate Live(v: View, id: nat) {
    id in v.requests && (v.requests[id].job.Some? ==> v.requests[id].job.value in v.jobs)
  }

  /** Dropping one request's Job leaves every other's. */
  lemma OthersLive(v: View, w: View, id: nat, o: nat)
    requires Distinct(v.active) && Stepped(id, v, w) && id in v.requests && o != id && o in v.requests
    requires Named(v, id) && Named(v, o)
    requires forall s :: s in v.jobs - w.jobs ==> v.requests[id].job == Some(s)
    ensures w.requests[o] == v.requests[o] && (o in w.active <==> o in v.active)
    ensures Live(v, o) ==> Live(w, o)
  {
    WithoutIs(v.active, id);
  }

  /** What is left to fail: `some` from `i` on, in flight; every other Job is
      the Generator's, and those failed that are still in flight of the first
      ones, `was`, are in custody. */
  ghost predicate LeftToFail(v: View, was: seq<nat>, some: seq<nat>, i: nat, limbo: set<nat>)
    requires i <= |some| && Known(v.requests, v.active)
  {
    && (forall k :: i <= k < |some| ==> some[k] in v.active)
    && (forall id :: id in limbo ==> id in some[i..])
    && (forall id :: id in v.active ==> id in was && Failing(v, some, i, id))
  }

  predicate Failing(v: View, some: seq<nat>, i: nat, id: nat)
    requires i <= |some| && id in v.requests
  {
    id in some[i..] || (Live(v, id) && (id in some ==> v.requests[id].custody))
  }

  lemma FailedNext(v: View, w: View, limbo: set<nat>, was: seq<nat>, some: seq<nat>, i: nat)
    requires Known(v.requests, v.active) && Distinct(v.active) && forall o :: o in v.requests ==> Named(v, o)
    requires i < |some| && LeftToFail(v, was, some, i, limbo) && Distinct(some)
    requires Known(w.requests, w.active) && Stepped(some[i], v, w)
    requires some[i] in w.active ==> Live(w, some[i]) && w.requests[some[i]].custody
    requires forall s :: s in v.jobs - w.jobs ==> v.requests[some[i]].job == Some(s)
    ensures LeftToFail(w, was, some, i + 1, limbo - {some[i]})
  {
    var id := some[i];
    WithoutIs(v.active, id);
    assert some[i..] == [id] + some[i + 1..];
    forall o | o in w.active
      ensures o in was && Failing(w, some, i + 1, o)
    {
      assert Failing(v, some, i, o);
      if o != id {
        OthersLive(v, w, id, o);
      }
    }
    forall k | i + 1 <= k < |some|
      ensures some[k] in w.active
    {
      OthersLive(v, w, id, some[k]);
    }
  }

  /** A step of one request leaves the others in flight. */
  lemma OthersStay(id: nat, v: View, w: View, some: seq<nat>, i: nat)
    requires Stepped(id, v, w) && Distinct(v.active) && Distinct(some) && i < |some| && some[i] == id
    requires forall k :: i <= k < |some| ==> some[k] in v.active
    ensures forall k :: i < k < |some| ==> some[k] in w.active
    ensures forall o :: o in w.active && o != id ==> o in v.active && o in w.requests && o in v.requests ==> w.requests[o] == v.requests[o]
    ensures forall o :: o in w.active ==> o in v.active
  {
    WithoutIs(v.active, id);
  }

  /** The oldest answer that waits for pages. */
  function FirstWaiting(t: Table, s: seq<nat>): (first: Option<nat>)
    requires Known(t, s)
    ensures first.Some? ==> first.value in s && t[first.value].grow > 0
    ensures first.None? ==> forall id :: id in s ==> t[id].grow == 0
  {
    if s == [] then None
    else if t[s[0]].grow > 0 then Some(s[0])
    else
      assert forall id :: id in s ==> id == s[0] || id in s[1..];
      FirstWaiting(t, s[1..])
  }

  /** The requests that have a Job, in order. */
  function WithJobs(t: Table, s: seq<nat>): (some: seq<nat>)
    requires Known(t, s)
    ensures forall id :: id in some <==> id in s && t[id].job.Some?
    ensures Distinct(s) ==> Distinct(some)
  {
    if s == [] then [] else
    var front, last := WithJobs(t, s[..|s| - 1]), s[|s| - 1];
    assert s == s[..|s| - 1] + [last];
    if t[last].job.Some? then front + [last] else front
  }

  /** A request marked cancelled, or given another standing. */
  lemma MarkKeeps(v: View, l: Limits, id: nat, r: Request)
    requires Inv(v, l, {}, {}) && id in v.requests
    requires r == v.requests[id].(cancelled := r.cancelled, work := r.work)
    ensures Inv(Put(v, id, r), l, {}, {})
  {
    var w := Put(v, id, r);
    SumChange(v.requests, v.active, id, r);
    forall o | o in w.requests
      ensures Stands(w, {}, o) && Named(w, o)
    {
      assert Stands(v, {}, o) && Named(v, o);
    }
    forall s | s in w.bySerial
      ensures Names(w, s)
    {
      assert Names(v, s);
    }
  }

  /** The cancelled requests in flight are in custody, but those of `all` from
      `i` on. */
  ghost predicate Reaped(v: View, all: seq<nat>, i: nat)
    requires i <= |all| && Known(v.requests, v.active)
  {
    && (forall k :: i <= k < |all| ==> all[k] in v.active)
    && (forall id :: id in v.active ==> id in all[i..] || (v.requests[id].cancelled ==> v.requests[id].custody))
  }

  lemma ReapedNext(v: View, w: View, all: seq<nat>, i: nat)
    requires i < |all| && Known(v.requests, v.active) && Known(w.requests, w.active) && Reaped(v, all, i)
    requires Distinct(v.active) && Distinct(all) && Stepped(all[i], v, w)
    requires all[i] in w.active ==> w.requests[all[i]].cancelled ==> w.requests[all[i]].custody
    ensures Reaped(w, all, i + 1)
  {
    assert all[i..] == [all[i]] + all[i + 1..];
    OthersStay(all[i], v, w, all, i);
  }

  /** The requests let in and not yet started: `all` from `i` on. */
  ghost predicate ToStart(v: View, all: seq<nat>, i: nat, loose: set<nat>)
    requires i <= |all| && Known(v.requests, v.active)
  {
    && (forall id :: id in loose <==> id in all[i..])
    && (forall k :: i <= k < |all| ==> all[k] in v.active && Unstarted(v.requests[all[k]]))
  }

  /** Let in, and its first pass not begun. */
  predicate Unstarted(r: Request) {
    r.grow == 0 && r.phase.Queued? && r.spent == 0
  }

  lemma ToStartNext(v: View, w: View, all: seq<nat>, i: nat, loose: set<nat>)
    requires i < |all| && Known(v.requests, v.active) && Known(w.requests, w.active) && ToStart(v, all, i, loose)
    requires Distinct(v.active) && Distinct(all) && Stepped(all[i], v, w)
    ensures ToStart(w, all, i + 1, loose - {all[i]})
  {
    var id := all[i];
    assert all[i..] == [id] + all[i + 1..];
    OthersStay(id, v, w, all, i);
    forall k | i < k < |all|
      ensures all[k] in w.active && Unstarted(w.requests[all[k]])
    {
      assert all[k] != id;
    }
  }

  /** What admission has taken: `admitted`, now in flight after those that
      were; under FIFO from the front of the queue. */
  ghost predicate Taken(was: View, v: View, admitted: seq<nat>, limbo: set<nat>, prioritized: bool)
    requires Known(v.requests, v.active)
  {
    && v.active == was.active + admitted
    && (forall id :: id in limbo <==> id in admitted)
    && (forall id :: id in v.active && id in admitted ==> Unstarted(v.requests[id]))
    && (forall id :: id in v.ingress || id in admitted ==> id in was.ingress)
    && (!prioritized ==> was.ingress == admitted + v.ingress)
  }

  lemma TakenNext(was: View, v: View, w: View, admitted: seq<nat>, limbo: set<nat>, head: nat, prioritized: bool)
    requires Known(v.requests, v.active) && Known(w.requests, w.active) && Taken(was, v, admitted, limbo, prioritized)
    requires Distinct(v.ingress) && head in v.ingress && (!prioritized ==> head == v.ingress[0])
    requires w.ingress == Without(v.ingress, head) && w.active == v.active + [head] && head in w.requests
    requires w.requests == v.requests[head := w.requests[head]] && Unstarted(w.requests[head])
    ensures Taken(was, w, admitted + [head], limbo + {head}, prioritized)
  {
    WithoutIs(v.ingress, head);
    assert w.active == was.active + (admitted + [head]);
    if !prioritized {
      TakeFirst(was.ingress, admitted, v.ingress);
    }
  }

  /** The queue holds no cancelled request, but those of `all` from `i` on. */
  ghost predicate Swept(was: seq<nat>, v: View, all: seq<nat>, i: nat)
    requires i <= |all| && Known(v.requests, v.ingress)
  {
    && (forall k :: i <= k < |all| ==> all[k] in v.ingress)
    && (forall id :: id in v.ingress ==> id in was && (id in all[i..] || !v.requests[id].cancelled))
  }

  lemma SweptNext(was: seq<nat>, v: View, w: View, all: seq<nat>, i: nat)
    requires i < |all| && Known(v.requests, v.ingress) && Known(w.requests, w.ingress) && Swept(was, v, all, i)
    requires Distinct(v.ingress) && Distinct(all) && all[i] in w.requests && w.requests == v.requests[all[i] := w.requests[all[i]]]
    requires if w.ingress == v.ingress then !w.requests[all[i]].cancelled else w.ingress == Without(v.ingress, all[i])
    ensures Swept(was, w, all, i + 1)
  {
    assert all[i..] == [all[i]] + all[i + 1..];
    WithoutIs(v.ingress, all[i]);
  }

  /** A request whose Job the Generator took and whose start failed after it:
      the call fails with no Job to cancel. */
  function Strayed(v: View, id: nat): View
    requires id in v.requests && v.requests[id].pages <= v.reserved
  {
    GivenBack(v, id, 1).(jobs := v.jobs + {v.next}, next := v.next + 1)
  }

  /** Such a Job is the Generator's and no request's: the table no longer names
      what the Generator holds, while the account of pages still holds. Taking a
      Job keeps the table right exactly when nothing fails after it. */
  lemma StrayUnnamed(v: View, l: Limits, limbo: set<nat>, gone: set<nat>, id: nat)
    requires Core(v, l, limbo, gone) && id in limbo && v.requests[id].grow == 0
    ensures id in v.active && v.requests[id].pages <= v.reserved
    ensures Core(Enqueued(v, id), l, limbo - {id}, gone)
    ensures var w := Strayed(v, id); v.next in w.jobs && v.next !in w.bySerial && !Jobs(w, gone)
    ensures Lists(Strayed(v, id), l) && Accounts(Strayed(v, id)) && AllStand(Strayed(v, id), limbo - {id})
  {
    EnqueueKeeps(v, l, limbo, gone, id);
    EndKeeps(v, l, limbo, gone, id);
    var u, w := GivenBack(v, id, 1), Strayed(v, id);
    assert v.next !in v.bySerial;
    forall o | o in w.requests
      ensures Stands(w, limbo - {id}, o)
    {
      assert Stands(u, limbo - {id}, o);
    }
  }
}
