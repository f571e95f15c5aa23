/// The one owner of the Generator: it admits requests, runs their passes and
/// keeps the account of the pages they hold
/// (deploy/house-model/exl3_server.py, with no session layer). Each method is
/// a section the owner thread runs whole; what the Generator, the tokenizer
/// and the handlers do is arbitrary.

module Scheduler {
  import opened Wrappers
  import opened ExecutorRank
  import opened Pages
  import opened SchedulerState
  import opened SchedulerMeasure
  import opened SchedulerTurns

  datatype Stage = Failed | Streaming | OtherStage

  /** Why a pass ended, as the Generator names it. */
  datatype End = StopString | MaxNewTokens | OtherEnd

  /** One Job's result of a round: a failed Job has ended, and so has a
      streaming one at its `eos`. */
  datatype Result = Result(serial: nat, stage: Stage, eos: bool, end: End, newTokens: Option<nat>)

  predicate EndsJob(r: Result) {
    r.stage.Failed? || r.eos
  }

  /** The Generator marks the end of streaming Jobs alone. */
  predicate WellMade(r: Result) {
    r.eos ==> r.stage.Streaming?
  }

  function Ended(results: seq<Result>): set<nat> {
    if results == [] then {} else
    (if EndsJob(results[0]) then {results[0].serial} else {}) + Ended(results[1..])
  }

  /** The Generator: it holds Jobs under serials it gives out, and has started
      some of them; the rest are pending. `rounds` is what became of each round
      it ran, `refused` the requests whose Job it refused or could not be made. */
  class Generator {
    var jobs: set<nat>
    var started: set<nat>
    var next: nat
    ghost var rounds: seq<Ran>
    ghost var refused: seq<nat>

    constructor ()
      ensures jobs == {} && started == {} && rounds == [] && refused == []
    {
      jobs, started, next, rounds, refused := {}, {}, 0, [], [];
    }

    /** What a request's answer is made with; it may fail. */
    method Make(ghost id: nat) returns (made: bool)
      modifies `refused
      ensures refused == if made then old(refused) else old(refused) + [id]
    {
      made := *;
      if !made {
        refused := refused + [id];
      }
    }

    /** A Job for request `id`, unless it is refused. */
    method Enqueue(ghost id: nat) returns (serial: Option<nat>)
      modifies `jobs, `next, `refused
      ensures serial.None? ==> jobs == old(jobs) && next == old(next) && refused == old(refused) + [id]
      ensures serial.Some? ==> serial.value == old(next) && next == old(next) + 1 && jobs == old(jobs) + {old(next)}
      ensures serial.Some? ==> refused == old(refused)
    {
      var refuses: bool := *;
      if refuses {
        refused := refused + [id];
        return None;
      }
      serial, jobs, next := Some(next), jobs + {next}, next + 1;
    }

    /** A cancel drops the Job, or raises and may leave it. */
    method Cancel(serial: nat) returns (raised: bool)
      modifies `jobs
      ensures jobs == old(jobs) - {serial} || (raised && jobs == old(jobs))
    {
      raised := *;
      var keeps: bool := *;
      if !raised || !keeps {
        jobs := jobs - {serial};
      }
    }

    /** A round: results of Jobs it holds, some of which they end; or a
        fault, in which Jobs may be lost. */
    method Iterate() returns (results: Option<seq<Result>>, ghost gone: set<nat>)
      modifies `jobs, `started, `rounds
      ensures jobs == old(jobs) - gone && gone <= old(jobs)
      ensures results.Some? ==> gone == Ended(results.value) && forall r :: r in results.value ==> WellMade(r)
      ensures rounds == old(rounds) + [if results.Some? then Finished(gone) else Fault]
    {
      var more: set<nat>, faults: bool, made: seq<Result> := *, *, *;
      started := started + more * jobs;
      if faults {
        var kept: set<nat> := *;
        gone := jobs - kept;
        jobs := jobs * kept;
        rounds := rounds + [Fault];
        return None, gone;
      }
      var answers := Answers(made, jobs);
      gone := Ended(answers);
      jobs := jobs - Ended(answers);
      rounds := rounds + [Finished(gone)];
      results := Some(answers);
    }
  }

  /** What the request has spent once this pass has ended: a result that names
      no count is taken to have spent all it was allowed. */
  function SpentAfter(r: Request, result: Result): nat {
    r.spent + if result.newTokens.Some? then result.newTokens.value
              else if r.phase.Reason? then r.sizes.cap
              else r.left
  }

  /** A reasoning pass that closed, or was cut short of the call's cap, with a
      token left for the answer. */
  predicate GoesOn(r: Request, result: Result) {
    r.phase.Reason? && (result.end.StopString? || (result.end.MaxNewTokens? && r.sizes.cap < r.sizes.maxTokens))
    && SpentAfter(r, result) < r.sizes.maxTokens
  }

  /** `s` is where a pass's end left the request: over, unless its answer comes
      next and no error stopped it; then it waits for pages, answers or, its
      start having failed, is over too. */
  predicate Followed(r: Request, result: Result, raised: bool, s: Request) {
    if r.custody || result.stage.Failed? || !GoesOn(r, result) then !raised && Weight(s) == 0
    else if raised then s == r.(job := None, spent := SpentAfter(r, result))
    else Weight(s) <= 4
  }

  /** What follows the end of a Job, once it is off the table. */
  ghost predicate Ends(id: nat, w: View, u: View, custody: bool, result: Result, raised: bool, l: Limits, depth: nat, inRoom: bool) {
    Steady(id, w, u, l, depth, inRoom) && Followed(w.requests[id].(custody := custody), result, raised, u.requests[id])
  }

  lemma PhaseEnds(id: nat, v: View, w: View, u: View, result: Result, raised: bool, l: Limits, depth: nat, inRoom: bool)
    requires id in v.requests && SpentBy(id, v, w, SpentAfter(v.requests[id], result)) && v.requests[id].job.None?
    requires Steady(id, w, u, l, depth, inRoom) && !v.requests[id].custody && !result.stage.Failed?
    requires if GoesOn(v.requests[id], result) then (if raised then u == w else Weight(u.requests[id]) <= 4)
             else !raised && Weight(u.requests[id]) == 0
    ensures Ends(id, v, u, false, result, raised, l, depth, inRoom)
  {
    SpentIsSteady(id, v, w, u, l, depth, inRoom, SpentAfter(v.requests[id], result));
  }

  lemma RoutedOn(id: nat, v: View, w: View, u: View, result: Result, raised: bool, l: Limits, depth: nat, inRoom: bool)
    requires Popped(id, v, w) && v.requests[id].job.Some? && Charged(v.requests[id]) && v.requests[id].grow == 0
    requires Ends(id, w, u, v.requests[id].custody, result, raised, l, depth, inRoom)
    ensures Routed(id, v, u, result, raised, l, depth, inRoom)
  {
    PoppedOn(id, v, w, u, l, depth, inRoom);
  }

  /** The request whose Job ended has followed, and gone on. */
  ghost predicate Routed(id: nat, v: View, w: View, result: Result, raised: bool, l: Limits, depth: nat, inRoom: bool) {
    Steady(id, v, w, l, depth, inRoom) && Lighter(v, w, id) && Followed(v.requests[id], result, raised, w.requests[id])
  }

  /** Results routed, those of `rest` still to come: a request went on, or
      nothing has changed and none of `gone` has come. */
  ghost predicate RoutedTo(was: View, v: View, gone: set<nat>, rest: set<nat>, l: Limits, depth: nat, inRoom: bool) {
    && Calm(was, v, l, depth, inRoom) && Pooled(was, v, l) && rest <= gone
    && (if gone == {} then v == was else Falls(was, v) || (v == was && rest == gone))
  }

  lemma RoutedNext(was: View, v: View, w: View, result: Result, raised: bool, gone: set<nat>, before: set<nat>, rest: set<nat>,
                   l: Limits, depth: nat, inRoom: bool)
    requires RoutedTo(was, v, gone, before, l, depth, inRoom) && gone <= was.bySerial.Keys
    requires before == (if EndsJob(result) then {result.serial} else {}) + rest
    requires result.serial !in v.bySerial || !EndsJob(result) ==> !raised && w == v
    requires result.serial in v.bySerial && EndsJob(result) ==>
      Routed(v.bySerial[result.serial], v, w, result, raised, l, depth, inRoom)
    ensures RoutedTo(was, w, gone, rest, l, depth, inRoom) && (raised ==> gone != {} && Falls(was, w))
  {
    if EndsJob(result) {
      assert result.serial in before;
      if result.serial in v.bySerial {
        SteadyOn(was, v.bySerial[result.serial], v, w, l, depth, inRoom);
      }
    } else {
      assert before == rest;
    }
  }

  /** Those told their end are requests whose Jobs came, and none was let in. */
  ghost predicate RoutedEnds(was: View, v: View, before: seq<nat>, after: seq<nat>, gone: set<nat>) {
    EndsFor(was, v, before, after, Owners(was, gone)) && NoneIn(was, v)
  }

  lemma RoutedEndsNext(was: View, v: View, w: View, x: seq<nat>, y: seq<nat>, z: seq<nat>, gone: set<nat>, id: nat, serial: nat)
    requires RoutedEnds(was, v, x, y, gone) && Kin(was, v) && Stepped(id, v, w) && Distinct(v.active) && y <= z
    requires serial in gone && serial < was.next && id in v.requests && v.requests[id].job == Some(serial)
    ensures RoutedEnds(was, w, x, z, gone) && id in Owners(was, gone)
  {
    assert KinAt(was, v, id);
    EndsForOne(id, v, w, y, z, Owners(was, gone));
    EndsForOn(was, v, w, x, y, z, Owners(was, gone));
    WithoutIs(v.active, id);
  }

  /** One result more. */
  lemma RouteEnds(was: View, v: View, w: View, x: seq<nat>, y: seq<nat>, z: seq<nat>, gone: set<nat>, before: set<nat>, rest: set<nat>,
                  result: Result, raised: bool, l: Limits, depth: nat, inRoom: bool, encode: Encoder)
    requires RoutedEnds(was, v, x, y, gone) && Kin(was, v) && y <= z && Inv(was, l, {}, gone) && Inv(v, l, {}, before)
    requires before <= gone && before == (if EndsJob(result) then {result.serial} else {}) + rest
    requires result.serial !in v.bySerial || !EndsJob(result) ==> !raised && w == v
    requires result.serial in v.bySerial && EndsJob(result) ==>
      Routed(v.bySerial[result.serial], v, w, result, raised, l, depth, inRoom)
    requires raised ==> result.serial in v.bySerial
    requires raised ==> v.bySerial[result.serial] in v.requests
    requires raised ==> Unencodable(encode, v.bySerial[result.serial], v.requests[v.bySerial[result.serial]].sizes)
    ensures RoutedEnds(was, w, x, z, gone) && (raised ==> Misprompted(was, Owners(was, gone), encode))
  {
    if result.serial in v.bySerial && EndsJob(result) {
      var id := v.bySerial[result.serial];
      assert Names(v, result.serial);
      RoutedEndsNext(was, v, w, x, y, z, gone, id, result.serial);
      if raised {
        MispromptedBy(was, v, id, gone, encode);
      }
    } else {
      EndsForOn(was, v, w, x, y, z, Owners(was, gone));
    }
  }

  /** A raise is a prompt's that does not encode. */
  lemma MispromptedBy(was: View, v: View, id: nat, gone: set<nat>, encode: Encoder)
    requires Kin(was, v) && id in Owners(was, gone) && id in v.requests && Unencodable(encode, id, v.requests[id].sizes)
    ensures Misprompted(was, Owners(was, gone), encode)
  {
    assert KinAt(was, v, id);
  }

  lemma RoundEnds(v: View, w: View, u: View, x: seq<nat>, z: seq<nat>, ended: set<nat>, raised: bool, before: seq<Ran>, rounds: seq<Ran>,
                  encode: Encoder)
    requires w.requests == v.requests && w.active == v.active && RoutedEnds(w, u, x, z, ended) && rounds == before + [Finished(ended)]
    requires raised ==> Misprompted(w, Owners(w, ended), encode)
    ensures EndsFor(v, u, x, z, EndsInRound(v, before, rounds)) && NoneIn(v, u)
    ensures raised ==> Misprompted(v, EndsInRound(v, before, rounds), encode)
  {
    assert rounds[..|before|] == before;
    assert Owners(w, ended) == Owners(v, ended);
    assert forall id :: TellsEnd(v, u, id) ==> TellsEnd(w, u, id);
  }

  /** Results a Generator that holds `jobs` may give. */
  function Answers(made: seq<Result>, jobs: set<nat>): (some: seq<Result>)
    ensures forall r :: r in some ==> WellMade(r)
    ensures Ended(some) <= jobs
  {
    if made == [] then [] else
    var rest := Answers(made[1..], jobs);
    if WellMade(made[0]) && made[0].serial in jobs then
      assert ([made[0]] + rest)[1..] == rest;
      [made[0]] + rest
    else rest
  }

  class Scheduler {
    const generator: Generator
    const limits: Limits
    const depth: nat
    const prioritized: bool
    const encode: Encoder
    var ingress: seq<nat>
    var active: seq<nat>
    var requests: Table
    var bySerial: map<nat, nat>
    var reserved: nat
    var closing: bool

    function Now(): View
      reads this, generator
    {
      View(ingress, active, requests, bySerial, reserved, generator.jobs, generator.next)
    }

    /** Now, with the Jobs the Generator started and the rounds it ran. */
    ghost function Standing(): Moment
      reads this, generator
    {
      Moment(Now(), generator.started, generator.rounds, generator.refused)
    }

    ghost function Made(): Settings {
      Settings(limits, depth, prioritized, encode)
    }

    /** What holds between passes. */
    ghost predicate Valid()
      reads this, generator
    {
      Inv(Now(), limits, {}, {})
    }

    constructor (generator: Generator, limits: Limits, depth: nat, prioritized: bool, encode: Encoder)
      requires generator.jobs == {}
      ensures Valid() && ingress == [] && active == [] && requests == map[] && !closing
      ensures this.generator == generator && this.limits == limits && this.encode == encode
    {
      this.generator, this.limits, this.depth, this.prioritized := generator, limits, depth, prioritized;
      this.encode := encode;
      ingress, active, requests, bySerial, reserved, closing := [], [], map[], map[], 0, false;
    }

    /** What a step of one request keeps of its way and of the pool. */
    ghost predicate SteadyFrom(id: nat, v: View)
      reads this, generator
    {
      Steady(id, v, Now(), limits, depth, InRoom(encode))
    }

    /** Which requests were told their end since. */
    ghost predicate EndsFrom(v: View, before: seq<nat>, some: set<nat>)
      reads this, generator
    {
      EndsFor(v, Now(), before, generator.refused, some)
    }

    /** And a run of steps. */
    ghost predicate CalmFrom(v: View)
      reads this, generator
    {
      Calm(v, Now(), limits, depth, InRoom(encode))
    }

    /** Cancels a request's Job: true once the Generator no longer holds it;
        false when the cancel raised and it does, the request now in custody. */
    method DropJob(id: nat, ghost limbo: set<nat>, ghost gone: set<nat>) returns (dropped: bool)
      requires Core(Now(), limits, limbo, gone) && id in active
      modifies this`requests, this`bySerial, generator`jobs
      ensures Core(Now(), limits, if dropped then limbo + {id} else limbo, gone)
      ensures Cancelled(id, old(Now()), Now(), dropped)
      ensures ToldBut(old(Now()), id) ==> ToldBut(Now(), id)
    {
      ghost var v := Now();
      assert Stands(v, limbo, id) && Named(v, id);
      var r := requests[id];
      if r.job.None? {
        Loosens(v, limits, limbo, gone, id);
        SteppedSame(id, v, Now());
        return true;
      }
      var serial := r.job.value;
      var raised := generator.Cancel(serial);
      if raised && serial in generator.jobs {
        requests := requests[id := r.(custody := true)];
        CustodyCancels(v, limits, limbo, gone, id, r, Now());
        return false;
      }
      requests := requests[id := r.(job := None, custody := false)];
      bySerial := bySerial - {serial};
      DropCancels(v, limits, limbo, gone, id, serial, Now());
      return true;
    }

    /** Gives back a request's place and pages, once; `tells` when its handler
        is told its end at that. */
    method Release(id: nat, tells: bool, ghost limbo: set<nat>, ghost gone: set<nat>)
      requires Core(Now(), limits, limbo, gone) && id in limbo && ToldBut(Now(), id)
      requires requests[id].ends == if tells then 0 else 1
      modifies `requests, `active, `reserved
      ensures Inv(Now(), limits, limbo - {id}, gone)
      ensures Stepped(id, old(Now()), Now()) && id !in active
      ensures requests[id] == Freed(old(requests[id])).(ends := 1) && reserved == old(reserved - requests[id].pages)
      ensures SteadyFrom(id, old(Now()))
    {
      ghost var v := Now();
      EndKeeps(v, limits, limbo, gone, id);
      WithoutIs(active, id);
      var r := requests[id];
      assert Stands(v, limbo, id);
      if r.released {
        return;
      }
      requests := requests[id := Freed(r).(ends := if tells then r.ends + 1 else r.ends)];
      reserved := reserved - r.pages;
      active := Without(active, id);
      assert Now() == GivenBack(v, id, 1);
      OverIsSteady(id, v, Now(), limits, depth, InRoom(encode), r);
    }

    /** Ends a request's call in custody: what it holds stays charged until the
        Generator ends its Job. */
    method Hold(id: nat, ghost limbo: set<nat>, ghost gone: set<nat>)
      requires Core(Now(), limits, limbo, gone) && id in active && requests[id].custody && requests[id].job.Some?
      requires ToldBut(Now(), id) && requests[id].ends == 0
      modifies `requests
      ensures Inv(Now(), limits, limbo, gone)
      ensures Stepped(id, old(Now()), Now()) && requests[id] == old(requests[id]).(ends := 1)
    {
      ghost var v := Now();
      assert Stands(v, limbo, id);
      CustodyKeeps(v, limits, limbo, gone, id, 1);
      requests := requests[id := requests[id].(ends := requests[id].ends + 1)];
      assert Now() == Put(v, id, v.requests[id].(custody := true, ends := 1));
    }

    /** The end of a request whose Job is cancelled. */
    method EndFailed(id: nat, tells: bool, ghost v: View, ghost limbo: set<nat>, ghost gone: set<nat>)
      requires Core(Now(), limits, limbo + {id}, gone) && ToldBut(Now(), id)
      requires Cancelled(id, v, Now(), true) && requests[id].ends == if tells then 0 else 1
      modifies `requests, `active, `reserved
      ensures Inv(Now(), limits, limbo - {id}, gone) && FailedAs(id, v, Now())
    {
      ghost var w := Now();
      Release(id, tells, limbo + {id}, gone);
      FailedDropped(id, v, w, Now());
      assert limbo + {id} - {id} == limbo - {id};
    }

    /** The end of a call whose Job the Generator kept. */
    method HoldFailed(id: nat, tells: bool, ghost v: View, ghost limbo: set<nat>, ghost gone: set<nat>)
      requires Core(Now(), limits, limbo, gone) && ToldBut(Now(), id)
      requires Cancelled(id, v, Now(), false) && requests[id].ends == if tells then 0 else 1
      modifies `requests
      ensures Inv(Now(), limits, limbo - {id}, gone) && FailedAs(id, v, Now())
    {
      ghost var w := Now();
      assert Stands(w, limbo, id);
      assert limbo - {id} == limbo;
      SteppedSame(id, w, w);
      if tells {
        Hold(id, limbo, gone);
      }
      FailedHeld(id, v, w, Now());
    }

    /** Ends a request in error: its Job cancelled and its charge given back,
        or held in custody when the Generator cannot cancel it. */
    method Fail(id: nat, ghost limbo: set<nat>, ghost gone: set<nat>)
      requires Inv(Now(), limits, limbo, gone) && id in active
      modifies this`requests, this`bySerial, this`active, this`reserved, generator`jobs
      ensures Inv(Now(), limits, limbo - {id}, gone) && FailedAs(id, old(Now()), Now())
    {
      ghost var v := Now();
      var tells := !requests[id].custody;
      var dropped := DropJob(id, limbo, gone);
      if dropped {
        EndFailed(id, tells, v, limbo, gone);
      } else {
        HoldFailed(id, tells, v, limbo, gone);
      }
    }

    /** Sets fields of a request in the midst of a step. */
    method Set(id: nat, r: Request, ghost limbo: set<nat>, ghost gone: set<nat>)
      requires Inv(Now(), limits, limbo, gone) && id in limbo && SameHold(requests[id], r)
      modifies `requests
      ensures Inv(Now(), limits, limbo, gone) && Stepped(id, old(Now()), Now())
      ensures requests[id] == r && id in active && old(id in requests)
    {
      ghost var v := Now();
      assert Stands(v, limbo, id);
      PutKeeps(v, limits, limbo, gone, id, r);
      requests := requests[id := r];
      assert Now() == Put(v, id, r);
    }

    /** A Job enqueued under its serial, unless the Generator refuses it. */
    method Start(id: nat, ghost limbo: set<nat>, ghost gone: set<nat>) returns (started: bool)
      requires Inv(Now(), limits, limbo, gone) && id in limbo && requests[id].grow == 0
      modifies this`requests, this`bySerial, generator`jobs, generator`next, generator`refused
      ensures Inv(Now(), limits, if started then limbo - {id} else limbo, gone)
      ensures Stepped(id, old(Now()), Now()) && id in active
      ensures old(id in requests) && requests[id] == old(requests[id]).(job := requests[id].job)
      ensures if started then requests[id].job == Some(old(generator.next)) && old(generator.next) in generator.jobs else Now() == old(Now())
      ensures old(generator.jobs) <= generator.jobs
      ensures generator.refused == if started then old(generator.refused) else old(generator.refused) + [id]
    {
      ghost var v := Now();
      assert Stands(v, limbo, id);
      var serial := generator.Enqueue(id);
      if serial.None? {
        assert Now() == v;
        SteppedSame(id, v, v);
        return false;
      }
      EnqueueKeeps(v, limits, limbo, gone, id);
      requests := requests[id := requests[id].(job := serial)];
      bySerial := bySerial[serial.value := id];
      assert Now() == Enqueued(v, id);
      return true;
    }

    /** A Job enqueued, or, the Generator refusing it, the request's end. */
    method StartOrFail(id: nat, ghost limbo: set<nat>, ghost gone: set<nat>) returns (started: bool)
      requires Inv(Now(), limits, limbo, gone) && id in limbo && requests[id].grow == 0
      modifies this`requests, this`bySerial, this`active, this`reserved, generator`jobs, generator`next, generator`refused
      ensures Inv(Now(), limits, limbo - {id}, gone) && old(id in requests)
      ensures if started then StartedAs(id, old(Now()), Now()) else FailedAs(id, old(Now()), Now())
      ensures EndsFrom(old(Now()), old(generator.refused), {})
    {
      ghost var w, log := Now(), generator.refused;
      started := Start(id, limbo, gone);
      if started {
        EndsForOne(id, w, Now(), log, log, {});
      } else {
        Fail(id, limbo, gone);
        EndsForRefused(id, w, Now(), log);
      }
    }

    /** A Job for a request's pass, unless making or enqueuing it fails. */
    method Enqueue(id: nat, phase: Phase, ghost limbo: set<nat>, ghost gone: set<nat>)
      requires Inv(Now(), limits, limbo, gone) && id in limbo && requests[id].grow == 0
      modifies this`requests, this`bySerial, this`active, this`reserved, generator`jobs, generator`next, generator`refused
      ensures Inv(Now(), limits, limbo - {id}, gone)
      ensures Begun(id, old(Now()), Now(), if phase.Answer? then 2 else 6)
      ensures EndsFrom(old(Now()), old(generator.refused), {})
    {
      ghost var v, log := Now(), generator.refused;
      assert Stands(v, limbo, id);
      Set(id, requests[id].(phase := phase), limbo, gone);
      ghost var w := Now();
      var started := StartOrFail(id, limbo, gone);
      if started {
        BegunStarted(id, v, w, Now(), phase);
      } else {
        BegunFailed(id, v, w, Now(), phase);
      }
      EndsForAfter(id, v, w, Now(), log, generator.refused, {});
    }

    /** An answer that would wait: its pages do not fit. */
    predicate Misfits(id: nat)
      requires id in requests
      reads this
    {
      requests[id].grow > 0 && reserved + requests[id].grow > limits.poolPages
    }

    /** An answer's Job once its pages fit; until then it waits, holding its
        place. `force` starts it past what is reserved. */
    method TryAnswer(id: nat, force: bool, ghost limbo: set<nat>, ghost gone: set<nat>)
      requires Inv(Now(), limits, limbo, gone) && id in limbo
      modifies this`requests, this`bySerial, this`active, this`reserved, generator`jobs, generator`next, generator`refused
      ensures Inv(Now(), limits, limbo - {id}, gone) && old(id in requests)
      ensures if !force && old(Misfits(id)) then Now() == old(Now()) && id in active else Grew(id, old(Now()), Now())
      ensures EndsFrom(old(Now()), old(generator.refused), {})
    {
      ghost var v, log := Now(), generator.refused;
      assert Stands(v, limbo, id);
      HoldsPages(v, limits, limbo, gone, id);
      var grow := requests[id].grow;
      if grow > 0 {
        if reserved + grow > limits.poolPages && !force {
          Waits(v, limits, limbo, gone, id);
          EndsForSame(v, v, log, {});
          return;
        }
        GrowKeeps(v, limits, limbo, gone, id);
        requests := requests[id := requests[id].(pages := requests[id].pages + grow, grow := 0)];
        reserved := reserved + grow;
        assert Now() == Grown(v, id);
      }
      ghost var w := Now();
      StartAnswer(id, limbo, gone);
      GrewBegun(id, v, w, Now());
      GrewEnds(id, v, w, Now(), log, generator.refused);
    }

    /** The answer's Job, its pages reserved. */
    method StartAnswer(id: nat, ghost limbo: set<nat>, ghost gone: set<nat>)
      requires Inv(Now(), limits, limbo, gone) && id in limbo && requests[id].grow == 0
      modifies this`requests, this`bySerial, this`active, this`reserved, generator`jobs, generator`next, generator`refused
      ensures Inv(Now(), limits, limbo - {id}, gone) && Begun(id, old(Now()), Now(), 2)
      ensures EndsFrom(old(Now()), old(generator.refused), {})
    {
      ghost var w, log := Now(), generator.refused;
      assert Stands(w, limbo, id);
      var made := generator.Make(id);
      if !made {
        SteppedSame(id, w, w);
        Fail(id, limbo, gone);
        BegunFailed(id, w, w, Now(), requests[id].phase);
        EndsForRefused(id, w, Now(), log);
      } else {
        Enqueue(id, Answer, limbo, gone);
      }
    }

    /** Starts a request's answer pass: over at once with no token left for
        it, else sized by its prompt and tried. A prompt that cannot be encoded
        raises. */
    method BeginAnswer(id: nat, ghost limbo: set<nat>, ghost gone: set<nat>) returns (raised: bool)
      requires Inv(Now(), limits, limbo, gone) && id in limbo && requests[id].grow == 0 && !requests[id].phase.Answer?
      modifies this`requests, this`bySerial, this`active, this`reserved, generator`jobs, generator`next, generator`refused
      ensures Inv(Now(), limits, if raised then limbo else limbo - {id}, gone)
      ensures SteadyFrom(id, old(Now())) && old(Now()).jobs <= generator.jobs
      ensures raised ==> Now() == old(Now())
      ensures !raised ==> Weight(requests[id]) <= 4
      ensures old(requests[id].sizes.maxTokens <= requests[id].spent) ==> !raised && id !in active && Weight(requests[id]) == 0
      ensures EndsFrom(old(Now()), old(generator.refused), if old(requests[id].sizes.maxTokens <= requests[id].spent) then {id} else {})
      ensures raised ==> requests[id].sizes.thinking && encode(id, requests[id].sizes, requests[id].spent).None?
    {
      ghost var v, log := Now(), generator.refused;
      assert Stands(v, limbo, id);
      var r := requests[id];
      if r.sizes.maxTokens < r.spent + 1 {
        Release(id, true, limbo, gone);
        EndsForOne(id, v, Now(), log, log, {id});
        return false;
      }
      var encoded := if r.sizes.thinking then encode(id, r.sizes, r.spent) else Some(r.sizes.promptTokens);
      if encoded.None? {
        SteppedSame(id, v, v);
        EndsForSame(v, v, log, {});
        return true;
      }
      SizeAnswer(id, encoded.value, limbo, gone);
      return false;
    }

    /** An answer pass sized for its prompt, and tried. */
    method SizeAnswer(id: nat, tokens: nat, ghost limbo: set<nat>, ghost gone: set<nat>)
      requires Inv(Now(), limits, limbo, gone) && id in limbo && Unsized(id, tokens)
      modifies this`requests, this`bySerial, this`active, this`reserved, generator`jobs, generator`next, generator`refused
      ensures Inv(Now(), limits, limbo - {id}, gone)
      ensures SteadyFrom(id, old(Now())) && old(Now()).jobs <= generator.jobs
      ensures Weight(requests[id]) <= 4 && EndsFrom(old(Now()), old(generator.refused), {})
    {
      ghost var v, log := Now(), generator.refused;
      SetAnswer(id, tokens, limbo, gone);
      ghost var w := Now();
      TryAnswer(id, false, limbo, gone);
      AnswerBegun(id, v, w, Now(), limits, depth, InRoom(encode));
      EndsForAfter(id, v, w, Now(), log, generator.refused, {});
    }

    /** `tokens` is what the answer's prompt is encoded to. */
    predicate Unsized(id: nat, tokens: nat)
      reads this
    {
      && id in requests
      && var r := requests[id];
      r.grow == 0 && !r.phase.Answer? && r.spent < r.sizes.maxTokens
      && if r.sizes.thinking then encode(id, r.sizes, r.spent) == Some(tokens) else tokens == r.sizes.promptTokens
    }

    method SetAnswer(id: nat, tokens: nat, ghost limbo: set<nat>, ghost gone: set<nat>)
      requires Inv(Now(), limits, limbo, gone) && id in limbo && Unsized(id, tokens)
      modifies this`requests
      ensures Inv(Now(), limits, limbo, gone) && Sized(id, old(Now()), Now(), limits, depth, InRoom(encode))
    {
      ghost var v := Now();
      assert Stands(v, limbo, id);
      var r := requests[id];
      var left := r.sizes.maxTokens - r.spent;
      if InRoom(encode) && HoldsNeed(r, limits, depth) {
        InRoomGrow(encode, id, r, limits, depth, tokens);
      }
      Set(id, r.(left := left, grow := Grow(tokens, left, depth, limits.poolPages, r.pages)), limbo, gone);
    }

    /** What follows a pass that ended: the answer's, or the request's end. */
    method EndPhase(id: nat, result: Result, ghost limbo: set<nat>, ghost gone: set<nat>) returns (raised: bool)
      requires Inv(Now(), limits, limbo, gone) && id in limbo && requests[id].grow == 0 && !result.stage.Failed?
      modifies this`requests, this`bySerial, this`active, this`reserved, generator`jobs, generator`next, generator`refused
      ensures Inv(Now(), limits, if raised then limbo else limbo - {id}, gone)
      ensures Ends(id, old(Now()), Now(), false, result, raised, limits, depth, InRoom(encode))
      ensures old(generator.refused) <= generator.refused && (raised ==> Unencodable(encode, id, old(requests[id].sizes)))
    {
      ghost var v := Now();
      assert Stands(v, limbo, id);
      var r := requests[id];
      SetSpent(id, SpentAfter(r, result), limbo, gone);
      ghost var w := Now();
      if r.phase.Reason? && (result.end.StopString? || (result.end.MaxNewTokens? && r.sizes.cap < r.sizes.maxTokens)) {
        raised := BeginAnswer(id, limbo, gone);
        if raised {
          NoPrompt(encode, id, r.sizes, SpentAfter(r, result));
        }
      } else {
        assert Stands(w, limbo, id);
        Release(id, true, limbo, gone);
        raised := false;
      }
      PhaseEnds(id, v, w, Now(), result, raised, limits, depth, InRoom(encode));
    }

    method SetSpent(id: nat, spent: nat, ghost limbo: set<nat>, ghost gone: set<nat>)
      requires Inv(Now(), limits, limbo, gone) && id in limbo
      modifies `requests
      ensures Inv(Now(), limits, limbo, gone) && SpentBy(id, old(Now()), Now(), spent)
    {
      assert Stands(Now(), limbo, id);
      Set(id, requests[id].(spent := spent), limbo, gone);
    }

    /** A Job the Generator has ended leaves the table. */
    method Pop(id: nat, serial: nat, ghost gone: set<nat>, ghost rest: set<nat>)
      requires Inv(Now(), limits, {}, gone) && serial in bySerial && bySerial[serial] == id
      requires gone == {serial} + rest
      modifies `requests, `bySerial
      ensures Core(Now(), limits, {id}, rest) && ToldBut(Now(), id) && id in active
      ensures Popped(id, old(Now()), Now())
    {
      ghost var v := Now();
      assert Names(v, serial) && Stands(v, {}, id);
      requests := requests[id := requests[id].(job := None, custody := false)];
      bySerial := bySerial - {serial};
      assert generator.jobs == (v.bySerial.Keys - {serial}) - rest;
      DropKeeps(v, limits, {}, gone, rest, id, generator.jobs);
      assert {} + {id} == {id};
      assert Now() == Dropped(v, id, generator.jobs);
    }

    /** The end of a Job, its serial already popped. */
    method RouteEnd(id: nat, custody: bool, result: Result, ghost rest: set<nat>) returns (raised: bool)
      requires Core(Now(), limits, {id}, rest) && ToldBut(Now(), id) && requests[id].grow == 0
      requires requests[id].ends == if custody then 1 else 0
      modifies this`requests, this`bySerial, this`active, this`reserved, generator`jobs, generator`next, generator`refused
      ensures Inv(Now(), limits, if raised then {id} else {}, rest)
      ensures Ends(id, old(Now()), Now(), custody, result, raised, limits, depth, InRoom(encode))
      ensures old(generator.refused) <= generator.refused && (raised ==> Unencodable(encode, id, old(requests[id].sizes)))
    {
      ghost var w := Now();
      assert Stands(w, {id}, id);
      assert {id} - {id} == {};
      raised := false;
      if custody {
        Release(id, false, {id}, rest);
      } else if result.stage.Failed? {
        Fail(id, {id}, rest);
        FailedIsSteady(id, w, Now(), limits, depth, InRoom(encode));
      } else {
        raised := EndPhase(id, result, {id}, rest);
      }
    }

    /** A Job that has ended, and what its request follows with. */
    method RouteJob(id: nat, result: Result, ghost gone: set<nat>, ghost rest: set<nat>) returns (raised: bool)
      requires Inv(Now(), limits, {}, gone) && result.serial in bySerial && bySerial[result.serial] == id
      requires EndsJob(result) && gone == {result.serial} + rest
      modifies this`requests, this`bySerial, this`active, this`reserved, generator`jobs, generator`next, generator`refused
      ensures Inv(Now(), limits, if raised then {id} else {}, rest)
      ensures Routed(id, old(Now()), Now(), result, raised, limits, depth, InRoom(encode))
      ensures old(generator.refused) <= generator.refused && (raised ==> Unencodable(encode, id, old(requests[id].sizes)))
    {
      ghost var v := Now();
      assert Names(v, result.serial) && Stands(v, {}, id);
      var custody := requests[id].custody;
      Pop(id, result.serial, gone, rest);
      ghost var w := Now();
      raised := RouteEnd(id, custody, result, rest);
      RoutedOn(id, v, w, Now(), result, raised, limits, depth, InRoom(encode));
    }

    /** One result of a round: nothing for a Job already gone or one that goes
        on, else its request follows. `limbo` is what a raise leaves in the
        midst of its step. */
    method RouteOne(result: Result, ghost gone: set<nat>, ghost rest: set<nat>) returns (raised: bool, ghost limbo: set<nat>)
      requires Inv(Now(), limits, {}, gone) && WellMade(result)
      requires gone == (if EndsJob(result) then {result.serial} else {}) + rest
      modifies this`requests, this`bySerial, this`active, this`reserved, generator`jobs, generator`next, generator`refused
      ensures Inv(Now(), limits, limbo, rest) && (!raised ==> limbo == {})
      ensures result.serial !in old(bySerial) || !EndsJob(result) ==> !raised && Now() == old(Now())
      ensures result.serial in old(bySerial) && EndsJob(result) ==>
        Routed(old(bySerial)[result.serial], old(Now()), Now(), result, raised, limits, depth, InRoom(encode))
      ensures old(generator.refused) <= generator.refused && (raised ==> result.serial in old(bySerial))
      ensures raised ==> var id := old(bySerial)[result.serial]; id in old(requests) && Unencodable(encode, id, old(requests)[id].sizes)
    {
      raised, limbo := false, {};
      if result.serial !in bySerial {
        assert !EndsJob(result) ==> gone == rest;
        GoneShrinks(Now(), limits, {}, gone, rest, result.serial);
        return;
      }
      var id := bySerial[result.serial];
      assert Names(Now(), result.serial);
      if !EndsJob(result) {
        assert gone == rest;
        return;
      }
      raised := RouteJob(id, result, gone, rest);
      limbo := if raised then {id} else {};
    }

    /** Every result of a round, in order, unless one raises. */
    method Route(results: seq<Result>, ghost gone: set<nat>) returns (raised: bool, ghost limbo: set<nat>, ghost rest: set<nat>)
      requires Inv(Now(), limits, {}, gone) && gone == Ended(results) && gone <= bySerial.Keys
      requires forall r :: r in results ==> WellMade(r)
      modifies this`requests, this`bySerial, this`active, this`reserved, generator`jobs, generator`next, generator`refused
      ensures Inv(Now(), limits, limbo, rest) && (!raised ==> limbo == {} && rest == {})
      ensures CalmFrom(old(Now())) && Pooled(old(Now()), Now(), limits)
      ensures if gone == {} then !raised && Now() == old(Now()) else Falls(old(Now()), Now())
      ensures RoutedEnds(old(Now()), Now(), old(generator.refused), generator.refused, gone)
      ensures raised ==> Misprompted(old(Now()), Owners(old(Now()), gone), encode)
    {
      raised, limbo, rest := false, {}, gone;
      ghost var was, log := Now(), generator.refused;
      EndsForSame(was, was, log, Owners(was, gone));
      assert results[0..] == results;
      CalmSame(was, limits, depth, InRoom(encode));
      for i := 0 to |results|
        invariant !raised && limbo == {} && rest == Ended(results[i..]) && Inv(Now(), limits, {}, rest)
        invariant RoutedTo(was, Now(), gone, rest, limits, depth, InRoom(encode))
        invariant RoutedEnds(was, Now(), log, generator.refused, gone)
      {
        assert results[i..][1..] == results[i + 1..] && results[i..][0] == results[i];
        ghost var before, v, y := rest, Now(), generator.refused;
        rest := Ended(results[i + 1..]);
        raised, limbo := RouteOne(results[i], before, rest);
        RoutedNext(was, v, Now(), results[i], raised, gone, before, rest, limits, depth, InRoom(encode));
        RouteEnds(was, v, Now(), log, y, generator.refused, gone, before, rest, results[i], raised, limits, depth, InRoom(encode), encode);
        if raised {
          return;
        }
      }
    }

    /** Each of `some` failed; `loose` is what is left in the midst of a step. */
    method FailSome(some: seq<nat>, ghost limbo: set<nat>, ghost gone: set<nat>, ghost log: seq<nat>) returns (n: nat, ghost loose: set<nat>)
      requires Inv(Now(), limits, limbo, gone) && Distinct(some)
      requires FailedThus(Now(), Now(), some, 0, limbo, log, limits, depth, InRoom(encode))
      modifies this`requests, this`bySerial, this`active, this`reserved, generator`jobs
      ensures Inv(Now(), limits, loose, gone) && n == |some|
      ensures FailedThus(old(Now()), Now(), some, n, loose, log, limits, depth, InRoom(encode))
    {
      ghost var v := Now();
      n, loose := 0, limbo;
      while n < |some|
        invariant n <= |some| && Inv(Now(), limits, loose, gone)
        invariant FailedThus(v, Now(), some, n, loose, log, limits, depth, InRoom(encode))
      {
        ghost var w, m := Now(), n + 1;
        Fail(some[n], loose, gone);
        ghost var u, less := Now(), loose - {some[n]};
        FailedThusNext(v, w, u, some, n, m, loose, less, gone, log, limits, depth, InRoom(encode));
        n, loose := n + 1, less;
      }
    }

    /** Fails each request of `some`, and leaves no Job gone. */
    method FailEach(some: seq<nat>, ghost limbo: set<nat>, ghost gone: set<nat>)
      requires Inv(Now(), limits, limbo, gone) && Distinct(some) && LeftToFail(Now(), active, some, 0, limbo)
      modifies this`requests, this`bySerial, this`active, this`reserved, generator`jobs
      ensures Valid() && AllFailed(old(Now()), Now(), some, limits, depth, InRoom(encode))
      ensures EndsFrom(old(Now()), old(generator.refused), AllOf(some))
    {
      ghost var v, log := Now(), generator.refused;
      FailedToStart(v, some, limbo, limits, depth, InRoom(encode));
      EndsForSame(v, v, log, AllOf(some));
      var n, loose := FailSome(some, limbo, gone, log);
      FailedThusAll(v, Now(), some, n, loose, gone, log, limits, depth, InRoom(encode));
    }

    /** Ends a request in flight that is cancelled, unless it is in custody
        already. */
    method ReapOne(id: nat, ghost log: seq<nat>)
      requires Valid() && id in active
      modifies this`requests, this`bySerial, this`active, this`reserved, generator`jobs
      ensures Valid() && ReapedOne(id, old(Now()), Now(), log, limits, depth, InRoom(encode))
    {
      ghost var v := Now();
      SteppedSame(id, v, v);
      if requests[id].cancelled && !requests[id].custody {
        Fail(id, {}, {});
        assert {} - {id} == {};
        FailedIsSteady(id, v, Now(), limits, depth, InRoom(encode));
      }
      EndsForOne(id, v, Now(), log, log, CancelledIn(v));
    }

    /** Each of `all` looked at. */
    method ReapEach(all: seq<nat>, ghost log: seq<nat>) returns (n: nat)
      requires Valid() && ReapedTo(Now(), Now(), all, 0, log, limits, depth, InRoom(encode))
      modifies this`requests, this`bySerial, this`active, this`reserved, generator`jobs
      ensures Valid() && n == |all| && ReapedTo(old(Now()), Now(), all, n, log, limits, depth, InRoom(encode))
    {
      ghost var was := Now();
      n := 0;
      while n < |all|
        invariant n <= |all| && Valid() && ReapedTo(was, Now(), all, n, log, limits, depth, InRoom(encode))
      {
        ghost var v, m := Now(), n + 1;
        ReapOne(all[n], log);
        ghost var w := Now();
        ReapedToNext(was, v, w, all, n, m, log, limits, depth, InRoom(encode));
        n := n + 1;
      }
    }

    /** Ends every cancelled request in flight, as a failure does but for the
        event its handler is told. */
    method ReapCancelled()
      requires Valid()
      modifies this`requests, this`bySerial, this`active, this`reserved, generator`jobs
      ensures Valid() && ReapedFrom(old(Now()), Now(), old(generator.refused), limits, depth, InRoom(encode))
    {
      ghost var was, log := Now(), generator.refused;
      var all := active;
      ReapedStart(was, all, log, limits, depth, InRoom(encode));
      var n := ReapEach(all, log);
      ReapedAll(was, Now(), all, n, log, limits, depth, InRoom(encode));
    }

    /** An answer that waits, tried or forced. */
    method TryOne(id: nat, force: bool)
      requires Valid() && id in active && requests[id].grow > 0
      modifies this`requests, this`bySerial, this`active, this`reserved, generator`jobs, generator`next, generator`refused
      ensures Valid()
      ensures if !force && old(Misfits(id)) then Now() == old(Now()) else Grew(id, old(Now()), Now())
      ensures EndsFrom(old(Now()), old(generator.refused), {})
    {
      ghost var v := Now();
      assert Stands(v, {}, id);
      Loosens(v, limits, {}, {}, id);
      assert {} + {id} == {id} && {id} - {id} == {};
      TryAnswer(id, force, {id}, {});
    }

    /** Tries every answer that waits, oldest first. */
    method TryWaiting()
      requires Valid()
      modifies this`requests, this`bySerial, this`active, this`reserved, generator`jobs, generator`next, generator`refused
      ensures Valid() && Tried(old(Now()), Now(), limits, depth, InRoom(encode))
      ensures if AllMisfit(old(Now()), limits) then Now() == old(Now()) else Falls(old(Now()), Now())
      ensures EndsFrom(old(Now()), old(generator.refused), {})
    {
      var all := active;
      CalmSame(Now(), limits, depth, InRoom(encode));
      for i := 0 to |all|
        invariant Valid() && TriedTo(old(Now()), Now(), all, i, limits, depth, InRoom(encode))
        invariant EndsFrom(old(Now()), old(generator.refused), {})
      {
        ghost var v, y := Now(), generator.refused;
        if requests[all[i]].grow > 0 {
          TryOne(all[i], false);
          EndsForOn(old(Now()), v, Now(), old(generator.refused), y, generator.refused, {});
        }
        TriedNext(old(Now()), v, Now(), all, i, i + 1, limits, depth, InRoom(encode));
      }
      TriedAll(old(Now()), Now(), limits, depth, InRoom(encode));
    }

    /** With no Job to run the oldest answer that waits goes, past what is
        reserved. */
    method ForceFirst()
      requires Valid()
      modifies this`requests, this`bySerial, this`active, this`reserved, generator`jobs, generator`next, generator`refused
      ensures Valid() && ForcedFrom(old(Now()), Now()) && EndsFrom(old(Now()), old(generator.refused), {})
    {
      EndsForSame(Now(), Now(), generator.refused, {});
      if generator.jobs == {} {
        var first := FirstWaiting(requests, active);
        if first.Some? {
          TryOne(first.value, true);
        }
      }
    }

    /** Every answer that waits is tried, oldest first, which leaves `mid`;
        then, with no Job to run, the oldest of them goes past what is
        reserved. That alone may take it past the pool, and does exactly when
        its pages do not fit and its start does not fail. */
    method GrowWaiting() returns (ghost mid: View)
      requires Valid()
      modifies this`requests, this`bySerial, this`active, this`reserved, generator`jobs, generator`next, generator`refused
      ensures Valid() && Tried(old(Now()), mid, limits, depth, InRoom(encode)) && Known(mid.requests, mid.active)
      ensures ForcedFrom(mid, Now())
      ensures CalmFrom(old(Now())) && ingress == old(ingress) && Waiting(Now()) <= Waiting(old(Now()))
      ensures if HeldBack(old(Now()), limits) then Now() == old(Now()) else Falls(old(Now()), Now())
      ensures Pooled(old(Now()), Now(), limits) || PastPool(mid, limits)
      ensures old(reserved) <= limits.poolPages ==> (reserved > limits.poolPages <==> PastPool(mid, limits) && StillIn(mid, Now()))
      ensures EndsFrom(old(Now()), old(generator.refused), {})
    {
      ghost var v, x := Now(), generator.refused;
      TryWaiting();
      mid := Now();
      ghost var y := generator.refused;
      ForceFirst();
      EndsForOn(v, mid, Now(), x, y, generator.refused, {});
      ForcedDone(v, mid, Now(), limits, depth, InRoom(encode));
      ForcedPooled(v, mid, Now(), limits);
    }

    /** One request let in, its pages charged. */
    method TakeOne(id: nat, ghost limbo: set<nat>)
      requires Inv(Now(), limits, limbo, {}) && MayEnter(Now(), limits, id)
      modifies this`requests, this`ingress, this`active, this`reserved
      ensures Inv(Now(), limits, limbo + {id}, {})
      ensures Entered(id, old(Now()), Now(), limits, depth, InRoom(encode))
    {
      ghost var v := Now();
      var r := requests[id];
      ingress := Without(ingress, id);
      reserved := reserved + r.need;
      requests := requests[id := r.(pages := r.need, admitted := true)];
      active := active + [id];
      assert Now() == Admitted(v, id);
      EnterKeeps(v, limits, limbo, id, depth, InRoom(encode));
    }

    /** Lets in requests from the queue while places and pages allow; under
        FIFO in the order they came. */
    method TakeIn(blocked: bool) returns (admitted: seq<nat>, ghost limbo: set<nat>)
      requires Valid()
      modifies this`requests, this`ingress, this`active, this`reserved
      ensures Inv(Now(), limits, limbo, {}) && TakenIn(old(Now()), Now(), admitted, limbo, prioritized, limits, depth, InRoom(encode))
      ensures old(Admissible(Now(), limits, prioritized, blocked)) <==> admitted != []
    {
      admitted, limbo := [], {};
      ghost var was := Now();
      CalmSame(was, limits, depth, InRoom(encode));
      while Admissible(Now(), limits, prioritized, blocked)
        invariant admitted != [] ==> Admissible(was, limits, prioritized, blocked)
        invariant Inv(Now(), limits, limbo, {}) && TakenIn(was, Now(), admitted, limbo, prioritized, limits, depth, InRoom(encode))
        decreases |ingress|
      {
        var head := HeadOf(requests, ingress, prioritized).value;
        ghost var v := Now();
        HeadMayEnter(v, limits, prioritized, blocked);
        TakeOne(head, limbo);
        TakenInNext(was, v, Now(), admitted, limbo, head, prioritized, limits, depth, InRoom(encode));
        admitted, limbo := admitted + [head], limbo + {head};
      }
    }

    /** Starts the first pass of a request let in. */
    method StartFirst(id: nat, ghost limbo: set<nat>)
      requires Inv(Now(), limits, limbo, {}) && id in limbo && Unstarted(requests[id])
      modifies this`requests, this`bySerial, this`active, this`reserved, generator`jobs, generator`next, generator`refused
      ensures Inv(Now(), limits, limbo - {id}, {})
      ensures SteadyFrom(id, old(Now())) && Lighter(old(Now()), Now(), id)
      ensures EndsFrom(old(Now()), old(generator.refused), if Unready(encode, id, old(requests[id])) then {id} else {})
    {
      ghost var v, log := Now(), generator.refused;
      ghost var some := if Unready(encode, id, requests[id]) then {id} else {};
      assert Stands(v, limbo, id);
      if requests[id].reasonFirst {
        Enqueue(id, Reason, limbo, {});
        BegunIsSteady(id, v, Now(), 6, limits, depth, InRoom(encode));
        EndsForWider(v, Now(), log, generator.refused, {}, some);
      } else {
        var raised := BeginAnswer(id, limbo, {});
        if raised {
          Fail(id, limbo, {});
          FailedIsSteady(id, v, Now(), limits, depth, InRoom(encode));
          EndsForOne(id, v, Now(), log, generator.refused, some);
        }
      }
    }

    method StartAll(admitted: seq<nat>, ghost limbo: set<nat>)
      requires Inv(Now(), limits, limbo, {}) && Distinct(admitted)
      requires ToStart(Now(), admitted, 0, limbo)
      modifies this`requests, this`bySerial, this`active, this`reserved, generator`jobs, generator`next, generator`refused
      ensures Valid() && ingress == old(ingress)
      ensures CalmFrom(old(Now())) && Pooled(old(Now()), Now(), limits)
      ensures admitted == [] ==> Now() == old(Now())
      ensures EndsFrom(old(Now()), old(generator.refused), UnreadyOf(old(Now()), admitted, encode))
    {
      ghost var loose := limbo;
      EndsForSame(Now(), Now(), generator.refused, UnreadyOf(Now(), admitted, encode));
      CalmSame(Now(), limits, depth, InRoom(encode));
      for i := 0 to |admitted|
        invariant Inv(Now(), limits, loose, {}) && ingress == old(ingress) && ToStart(Now(), admitted, i, loose)
        invariant CalmFrom(old(Now())) && Pooled(old(Now()), Now(), limits)
        invariant i == 0 ==> Now() == old(Now())
        invariant EndsFrom(old(Now()), old(generator.refused), UnreadyOf(old(Now()), admitted, encode))
      {
        ghost var v, y := Now(), generator.refused;
        StartFirst(admitted[i], loose);
        StartedEnds(old(Now()), v, Now(), old(generator.refused), y, generator.refused, admitted, i, encode);
        ToStartNext(v, Now(), admitted, i, loose);
        SteadyOn(old(Now()), admitted[i], v, Now(), limits, depth, InRoom(encode));
        loose := loose - {admitted[i]};
      }
      assert loose == {};
    }

    /** Lets in what fits, and starts each one's first pass: someone goes on
        exactly when the head of the queue may be let in. Under FIFO no request
        passes another. */
    method Admit(blocked: bool)
      requires Valid()
      modifies this`requests, this`ingress, this`bySerial, this`active, this`reserved, generator`jobs, generator`next, generator`refused
      ensures Valid()
      ensures LetIn(old(Now()), Now(), old(Admissible(Now(), limits, prioritized, blocked)), prioritized, limits, depth, InRoom(encode))
      ensures EndsFrom(old(Now()), old(generator.refused), UnreadyIn(old(Now()), encode))
    {
      ghost var v, log := Now(), generator.refused;
      var admitted, limbo := TakeIn(blocked);
      ghost var w := Now();
      TakenToStart(v, w, admitted, limbo, prioritized, limits, depth, InRoom(encode));
      StartAll(admitted, limbo);
      LetInAll(v, w, Now(), admitted, limbo, prioritized, limits, depth, InRoom(encode));
      LetInEnds(v, w, Now(), log, generator.refused, admitted, limbo, prioritized, encode, limits, depth, InRoom(encode));
    }

    /** One round of the Generator, unless it has no Job the policy may run. A
        fault in it fails every request that has a Job. A round that ends Jobs
        takes a request on; one that ends none changes nothing. */
    method Round() returns (raised: bool, ghost limbo: set<nat>, ghost gone: set<nat>)
      requires Valid()
      modifies this`requests, this`bySerial, this`active, this`reserved, generator
      ensures Inv(Now(), limits, limbo, gone) && (!raised ==> limbo == {} && gone == {})
      ensures RoundOf(old(Now()), Now(), old(generator.started), generator.started, old(generator.rounds), generator.rounds,
                      raised, prioritized, limits, depth, InRoom(encode))
      ensures RanAny(Now(), generator.started, old(generator.rounds), generator.rounds, prioritized)
      ensures EndsFrom(old(Now()), old(generator.refused), EndsInRound(old(Now()), old(generator.rounds), generator.rounds))
      ensures NoneIn(old(Now()), Now())
      ensures raised ==> Misprompted(old(Now()), EndsInRound(old(Now()), old(generator.rounds), generator.rounds), encode)
    {
      raised, limbo, gone := false, {}, {};
      ghost var v, was, before, log := Now(), generator.started, generator.rounds, generator.refused;
      if !Runnable(Now(), generator.started, prioritized) {
        RoundSkipped(v, was, before, prioritized, limits, depth, InRoom(encode));
        EndsForSame(v, v, log, EndsInRound(v, before, before));
        return;
      }
      var results, lost := generator.Iterate();
      ghost var w := Now();
      LostKeeps(v, w, limits, depth, InRoom(encode), lost);
      if results.None? {
        FailEach(WithJobs(requests, active), {}, lost);
        RoundFaulted(v, w, Now(), was, generator.started, before, generator.rounds, lost, prioritized, limits, depth, InRoom(encode));
        FaultEnds(v, w, Now(), log, before, generator.rounds, limits, depth, InRoom(encode));
      } else {
        raised, limbo, gone := Route(results.value, lost);
        RoundRouted(v, w, Now(), was, generator.started, before, generator.rounds, lost, raised, prioritized, limits, depth, InRoom(encode));
        RoundEnds(v, w, Now(), log, generator.refused, lost, raised, before, generator.rounds, encode);
      }
    }

    /** A pass up to its round. */
    method MakeReady(blocked: bool)
      requires Valid()
      modifies this`requests, this`ingress, this`bySerial, this`active, this`reserved, generator`jobs, generator`next, generator`refused
      ensures Valid() && Ready(old(Now()), Now(), generator.started, prioritized, blocked, limits, depth, InRoom(encode))
      ensures EndsFrom(old(Now()), old(generator.refused), EndsEarly(old(Now()), encode))
    {
      ghost var v, x := Now(), generator.refused;
      ReapCancelled();
      ghost var v1 := Now();
      assert EndsFor(v, v1, x, x, CancelledIn(v));
      ghost var mid := GrowWaiting();
      ghost var v2, y := Now(), generator.refused;
      assert EndsFor(v1, v2, x, y, {});
      Admit(blocked);
      ReadyEnds(v, v1, v2, Now(), x, y, generator.refused, encode);
      ReadyBy(v, v1, v2, Now(), generator.started, prioritized, blocked, limits, depth, InRoom(encode));
    }

    /** One pass of the owner thread; `mid` is where all stood at its round. */
    method Pass(blocked: bool) returns (raised: bool, ghost limbo: set<nat>, ghost gone: set<nat>, ghost mid: View)
      requires Valid()
      modifies this`requests, this`ingress, this`bySerial, this`active, this`reserved, generator
      ensures Inv(Now(), limits, limbo, gone) && (!raised ==> limbo == {} && gone == {})
      ensures PassTo(old(Standing()), mid, Standing(), raised, Made(), blocked)
    {
      ghost var a := Standing();
      MakeReady(blocked);
      mid := Now();
      ghost var y := generator.refused;
      raised, limbo, gone := Round();
      ghost var b := Standing();
      PassedBy(a.view, mid, b.view, a.started, b.started, a.rounds, b.rounds, raised, prioritized, blocked, limits, depth, InRoom(encode));
      PassEnds(a.view, mid, b.view, a.refused, y, b.refused, a.rounds, b.rounds, encode);
    }

    /** Cancelled requests leave the queue. */
    method DropCancelled()
      requires Valid()
      modifies this`requests, this`ingress
      ensures Valid() && active == old(active)
      ensures forall id :: id in ingress ==> id in old(ingress) && !requests[id].cancelled
      ensures CalmFrom(old(Now())) && NoneDropped(Now())
      ensures if old(NoneDropped(Now())) then Now() == old(Now()) else Falls(old(Now()), Now())
      ensures EndsFrom(old(Now()), old(generator.refused), CancelledIn(old(Now())))
    {
      var all := ingress;
      ghost var was := Now();
      SweptStart(was, limits, depth, InRoom(encode));
      for i := 0 to |all|
        invariant Valid() && active == old(active) && SweptTo(was, Now(), all, i, limits, depth, InRoom(encode))
      {
        ghost var v := Now();
        if requests[all[i]].cancelled {
          EndQueued(all[i], true);
        }
        SweptToNext(was, v, Now(), all, i, i + 1, limits, depth, InRoom(encode));
      }
      SweptAll(was, Now(), limits, depth, InRoom(encode));
    }

    /** A queued request ends before it was let in. */
    method EndQueued(id: nat, released: bool)
      requires Valid() && id in ingress
      modifies `requests, `ingress
      ensures Valid() && Now() == Unqueued(old(Now()), id, released)
    {
      ghost var v := Now();
      assert Stands(v, {}, id);
      UnqueueKeeps(v, limits, {}, id, released);
      requests := requests[id := requests[id].(released := released, ends := requests[id].ends + 1)];
      ingress := Without(ingress, id);
      assert Now() == Unqueued(v, id, released);
    }

    /** A pass, and what it raised: all in flight fails. */
    method PassOver(blocked: bool) returns (ghost mid: View)
      requires Valid()
      modifies this`requests, this`ingress, this`bySerial, this`active, this`reserved, generator
      ensures Valid() && PassTo(old(Standing()), mid, Standing(), false, Made(), blocked)
    {
      ghost var a := Standing();
      var raised, limbo, gone, at := Pass(blocked);
      mid := at;
      ghost var u := Standing();
      FailRaised(raised, limbo, gone);
      PassedOver(a, mid, u, Standing(), raised, Made(), blocked);
    }

    method FailRaised(raised: bool, ghost limbo: set<nat>, ghost gone: set<nat>)
      requires Inv(Now(), limits, limbo, gone) && (!raised ==> limbo == {} && gone == {})
      modifies this`requests, this`bySerial, this`active, this`reserved, generator`jobs
      ensures Valid() && FailedOver(old(Standing()), Standing(), raised, Made())
    {
      if raised {
        FailAll(limbo, gone);
      }
    }

    /** The owner thread's loop, once. A turn that finds nothing to do changes
        nothing and runs no round; every other runs at most one and, unless that
        ended no Job, takes a request on or leaves nothing to do. No request
        ends without a cause; `mid` is where all stood at the round. */
    method Turn(blocked: bool) returns (ghost mid: View)
      requires Valid()
      modifies this`requests, this`ingress, this`bySerial, this`active, this`reserved, generator
      ensures Valid() && TurnOver(old(Standing()), mid, Standing(), Made(), blocked)
    {
      ghost var v := Standing();
      DropCancelled();
      ghost var w := Standing();
      mid := PassOver(blocked);
      SweptTurn(v, w, mid, Standing(), Made(), blocked);
    }

    method FailAll(ghost limbo: set<nat>, ghost gone: set<nat>)
      requires Inv(Now(), limits, limbo, gone)
      modifies this`requests, this`bySerial, this`active, this`reserved, generator`jobs
      ensures Valid() && ingress == old(ingress)
      ensures forall id :: id in active ==> requests[id].custody
      ensures CalmFrom(old(Now())) && Pooled(old(Now()), Now(), limits)
      ensures EndsFrom(old(Now()), old(generator.refused), AllOf(old(active)))
    {
      forall id | id in limbo
        ensures id in active
      {
        assert Stands(Now(), limbo, id);
      }
      FailEach(active, limbo, gone);
    }

    /** Queues a request of these sizes, unless the queue is full for it or the
        server is closing. */
    method Submit(id: nat, solo: bool, sizes: Sizes, work: Work) returns (queued: bool)
      requires Valid() && id !in requests
      modifies `requests, `ingress
      ensures Valid() && queued == !old(closing || Full(Now(), prioritized, work))
      ensures Now() == if queued then Submitted(old(Now()), id, NewRequest(limits, depth, solo, sizes, work)) else old(Now())
      ensures !prioritized && old(|ingress|) <= INGRESS_CAPACITY ==> |ingress| <= INGRESS_CAPACITY
    {
      if closing || Full(Now(), prioritized, work) {
        return false;
      }
      var r := NewRequest(limits, depth, solo, sizes, work);
      SubmitKeeps(Now(), limits, id, r);
      ghost var v := Now();
      requests := requests[id := r];
      ingress := ingress + [id];
      assert Now() == Submitted(v, id, r);
      return true;
    }

    /** A handler cancels its request, or the host changes its standing: at
        any time, between passes. */
    method Mark(id: nat, cancelled: bool, work: Work)
      requires Valid() && id in requests
      modifies `requests
      ensures Valid() && Now() == old(Put(Now(), id, requests[id].(cancelled := cancelled, work := work)))
    {
      MarkKeeps(Now(), limits, id, requests[id].(cancelled := cancelled, work := work));
      requests := requests[id := requests[id].(cancelled := cancelled, work := work)];
    }

    /** Ends everything: each request in flight fails, and each in the queue
        is told the server is shutting down. */
    method Shutdown()
      requires Valid()
      modifies this`requests, this`ingress, this`bySerial, this`active, this`reserved, this`closing, generator`jobs
      ensures Valid() && ingress == [] && closing && CalmFrom(old(Now()))
      ensures forall id :: id in active ==> requests[id].custody
      ensures forall id :: id in requests ==> requests[id].ends == 1
    {
      closing := true;
      FailAll({}, {});
      var all := ingress;
      for i := 0 to |all|
        invariant Valid() && closing && (forall id :: id in active ==> requests[id].custody)
        invariant ingress == all[i..] && CalmFrom(old(Now()))
      {
        ghost var v := Now();
        assert Stands(v, {}, all[i]);
        WithoutFirst(all[i..]);
        UnqueuedIsCalm(v, all[i], false, limits, depth, InRoom(encode));
        EndQueued(all[i], false);
        CalmOn(old(Now()), v, Now(), limits, depth, InRoom(encode));
      }
      forall id | id in requests
        ensures requests[id].ends == 1
      {
        assert Stands(Now(), {}, id);
      }
    }
  }

  /** The queue is full, and under the class policy holds none `work`
      outranks. */
  predicate Full(v: View, prioritized: bool, work: Work)
    requires Known(v.requests, v.ingress)
  {
    |v.ingress| >= INGRESS_CAPACITY
    && (!prioritized || forall id :: id in v.ingress ==> !Outranks(work, v.requests[id].work))
  }

  /** What reaches the scheduler from outside, and a turn of its own loop, in
      which foreground work the scheduler does not hold may be present. */
  datatype Event =
    | Arrives(id: nat, solo: bool, sizes: Sizes, work: Work)
    | Marks(id: nat, cancelled: bool, work: Work)
    | Turns(blocked: bool)

  /** What an event did. */
  ghost predicate Happened(event: Event, a: Moment, b: Moment, t: Settings) {
    && Known(a.view.requests, a.view.ingress) && Known(a.view.requests, a.view.active)
    && match event
       case Arrives(id, solo, sizes, work) =>
         b.rounds == a.rounds
         && b.view == if id in a.view.requests || Full(a.view, t.prioritized, work) then a.view
                      else Submitted(a.view, id, NewRequest(t.limits, t.depth, solo, sizes, work))
       case Marks(id, cancelled, work) =>
         b.rounds == a.rounds
         && b.view == if id !in a.view.requests then a.view
                      else Put(a.view, id, a.view.requests[id].(cancelled := cancelled, work := work))
       case Turns(blocked) => TurnTo(a, b, t, blocked)
  }

  /** What every moment keeps: the account is right, and the pool is kept when
      every answer prompt is encoded within the close room. */
  ghost predicate Right(a: Moment, t: Settings) {
    Inv(a.view, t.limits, {}, {}) && (InRoom(t.encode) ==> Roomy(a.view, t.limits, t.depth))
  }

  lemma HappenedKeeps(event: Event, a: Moment, b: Moment, t: Settings)
    requires Happened(event, a, b, t) && Right(a, t) && Inv(b.view, t.limits, {}, {})
    ensures Right(b, t) && a.view.requests.Keys <= b.view.requests.Keys
  {
    if InRoom(t.encode) {
      match event
      case Arrives(id, solo, sizes, work) =>
        SubmittedRoomy(a.view, t.limits, t.depth, id, solo, sizes, work);
      case Marks(id, cancelled, work) =>
        if id in a.view.requests {
          MarkedRoomy(a.view, t.limits, t.depth, id, a.view.requests[id].(cancelled := cancelled, work := work));
        }
      case Turns(_) =>
    }
  }

  /** Events, with where all stood between them. */
  ghost predicate Lived(events: seq<Event>, moments: seq<Moment>, t: Settings) {
    LivedTo(events, moments, t, |events|)
  }

  /** The first `n` of them. */
  ghost predicate LivedTo(events: seq<Event>, moments: seq<Moment>, t: Settings, n: nat) {
    |moments| == n + 1 && (forall i :: 0 <= i < n ==> LivedAt(events, moments, t, i))
    && forall i :: 0 <= i < |moments| ==> RightAt(moments, t, i)
  }

  ghost predicate LivedAt(events: seq<Event>, moments: seq<Moment>, t: Settings, i: nat) {
    i < |events| && i + 1 < |moments| && Happened(events[i], moments[i], moments[i + 1], t)
  }

  /** No request known by moment `i` is ever forgotten. */
  ghost predicate RightAt(moments: seq<Moment>, t: Settings, i: nat) {
    i < |moments| && Right(moments[i], t) && moments[i].view.requests.Keys <= moments[|moments| - 1].view.requests.Keys
  }

  lemma RightNext(moments: seq<Moment>, t: Settings, n: nat, b: Moment, i: nat)
    requires |moments| == n + 1 && RightAt(moments, t, i) && Right(b, t) && moments[n].view.requests.Keys <= b.view.requests.Keys
    ensures RightAt(moments + [b], t, i)
  {
  }

  lemma LivedNext(events: seq<Event>, moments: seq<Moment>, t: Settings, n: nat, m: nat, b: Moment)
    requires m == n + 1 && n < |events| && LivedTo(events, moments, t, n) && Happened(events[n], moments[n], b, t)
    requires Inv(b.view, t.limits, {}, {})
    ensures LivedTo(events, moments + [b], t, m)
  {
    assert RightAt(moments, t, n);
    HappenedKeeps(events[n], moments[n], b, t);
    forall i | 0 <= i < m
      ensures LivedAt(events, moments + [b], t, i)
    {
      assert i < n ==> LivedAt(events, moments, t, i);
    }
    forall i | 0 <= i < |moments| + 1
      ensures RightAt(moments + [b], t, i)
    {
      if i < |moments| {
        RightNext(moments, t, n, b, i);
      }
    }
  }

  /** Over a run no request is told its end but in a turn, and there for a
      cause: it was cancelled, its first pass could not begin, its Job was
      refused or ended, the round faulted, or an answer's prompt did not
      encode. */
  lemma EndsHaveCause(events: seq<Event>, moments: seq<Moment>, t: Settings, i: nat, id: nat)
    requires Lived(events, moments, t) && i < |events| && TellsEnd(moments[i].view, moments[i + 1].view, id)
    ensures events[i].Turns?
    ensures exists mid :: TurnCaused(moments[i], mid, moments[i + 1], t) && KinAt(moments[i].view, mid, id)
                          && CauseOf(moments[i], mid, moments[i + 1], t, id)
  {
    assert LivedAt(events, moments, t, i);
    if events[i].Turns? {
      var mid :| TurnCaused(moments[i], mid, moments[i + 1], t);
      CausedIs(moments[i], mid, moments[i + 1], t, id);
    }
  }

  /** One event. */
  method Step(scheduler: Scheduler, event: Event)
    requires scheduler.Valid() && !scheduler.closing
    modifies scheduler, scheduler.generator
    ensures scheduler.Valid() && !scheduler.closing
    ensures Happened(event, old(scheduler.Standing()), scheduler.Standing(), scheduler.Made())
  {
    match event
    case Arrives(id, solo, sizes, work) =>
      if id !in scheduler.requests {
        var queued := scheduler.Submit(id, solo, sizes, work);
      }
    case Marks(id, cancelled, work) =>
      if id in scheduler.requests {
        scheduler.Mark(id, cancelled, work);
      }
    case Turns(blocked) =>
      ghost var mid := scheduler.Turn(blocked);
  }

  /** Events one after another: each does what it does, and at every moment
      between them the account is right, no request is forgotten and, when every
      answer prompt is encoded within the close room, no more is reserved than
      the pool has. */
  method Events(scheduler: Scheduler, events: seq<Event>) returns (ghost moments: seq<Moment>)
    requires scheduler.Valid() && scheduler.requests == map[] && scheduler.active == [] && !scheduler.closing
    modifies scheduler, scheduler.generator
    ensures scheduler.Valid() && Lived(events, moments, scheduler.Made())
    ensures moments[0] == old(scheduler.Standing()) && moments[|events|] == scheduler.Standing()
  {
    moments := [scheduler.Standing()];
    ghost var t := scheduler.Made();
    for i := 0 to |events|
      invariant scheduler.Valid() && !scheduler.closing && LivedTo(events, moments, t, i)
      invariant moments[0] == old(scheduler.Standing()) && moments[i] == scheduler.Standing()
    {
      Step(scheduler, events[i]);
      ghost var b := scheduler.Standing();
      LivedNext(events, moments, t, i, i + 1, b);
      moments := moments + [b];
    }
  }

  /** Every run: events one after another, then the server shuts down. Every
      request that was queued at any moment was told its end exactly once, and
      what is still charged is in custody. */
  method Serve(scheduler: Scheduler, events: seq<Event>) returns (ghost moments: seq<Moment>)
    requires scheduler.Valid() && scheduler.requests == map[] && scheduler.active == [] && !scheduler.closing
    modifies scheduler, scheduler.generator
    ensures scheduler.Valid() && scheduler.ingress == [] && Lived(events, moments, scheduler.Made())
    ensures moments[0] == old(scheduler.Standing())
    ensures forall i, id :: 0 <= i < |moments| && id in moments[i].view.requests ==>
      id in scheduler.requests && scheduler.requests[id].ends == 1
    ensures forall id :: id in scheduler.active ==> scheduler.requests[id].custody
    ensures InRoom(scheduler.encode) ==> scheduler.reserved <= scheduler.limits.poolPages
  {
    moments := Events(scheduler, events);
    scheduler.Shutdown();
    forall i, id | 0 <= i < |moments| && id in moments[i].view.requests
      ensures id in scheduler.requests
    {
      assert RightAt(moments, scheduler.Made(), i);
    }
    assert RightAt(moments, scheduler.Made(), |events|);
  }

  /** Turns with no event between them: each takes a request on, but those
      whose round ended no Job and those that leave all that is left paused by
      the host. So all is over once there are eight more for each request. With
      no request paused at the start, and under FIFO always, none is parked: if
      every round ends a Job, eight turns a request end them all. */
  method Settle(scheduler: Scheduler, turns: seq<bool>, ghost order: seq<nat>)
    returns (ghost outs: seq<Outcome>, ghost moments: seq<Moment>)
    requires scheduler.Valid() && scheduler.limits.maxInFlight >= 1
    requires Known(scheduler.requests, order) && forall id :: id in scheduler.requests ==> id in order
    modifies scheduler, scheduler.generator
    ensures scheduler.Valid() && |outs| == |turns| && Run(moments, outs, turns, scheduler.Made())
    ensures moments[0] == old(scheduler.Standing()) && moments[|turns|] == scheduler.Standing()
    ensures Idles(outs) == ParksIn(outs) + IdleRounds(scheduler.generator.rounds) - IdleRounds(old(scheduler.generator.rounds))
    ensures old(Unpaused(scheduler.Now(), scheduler.prioritized)) ==> ParksIn(outs) == 0
    ensures |turns| >= Idles(outs) + 8 * |order| ==> AllOver(scheduler.Now())
    ensures (old(Unpaused(scheduler.Now(), scheduler.prioritized)) && |turns| >= 8 * |order|
             && IdleRounds(scheduler.generator.rounds) == IdleRounds(old(scheduler.generator.rounds))) ==>
      AllOver(scheduler.Now())
    ensures AllOver(scheduler.Now()) ==> scheduler.active == [] && scheduler.ingress == [] && scheduler.reserved == 0
  {
    outs, moments := [], [scheduler.Standing()];
    ghost var was, unpaused := scheduler.generator.rounds, Unpaused(scheduler.Now(), scheduler.prioritized);
    ghost var t := scheduler.Made();
    RankedStart(scheduler.Now(), order);
    for i := 0 to |turns|
      invariant scheduler.Valid() && |outs| == i && Run(moments, outs, turns, t)
      invariant LeftAfter(was, scheduler.Standing(), outs, order, t.prioritized, unpaused)
      invariant moments[0] == old(scheduler.Standing()) && moments[i] == scheduler.Standing()
    {
      ghost var a := scheduler.Standing();
      ghost var o := SettleOne(scheduler, turns[i]);
      ghost var b := scheduler.Standing();
      RunNext(moments, outs, turns, t, b, o);
      LeftNext(was, a, b, outs, order, o, t, turns[i], unpaused);
      outs, moments := outs + [o], moments + [b];
    }
    RankedOver(scheduler.Now(), order, 8 * |order| + Idles(outs) - |outs|);
    OverIsWeightless(scheduler.Now(), scheduler.limits);
  }

  /** One such turn. */
  method SettleOne(scheduler: Scheduler, blocked: bool) returns (ghost o: Outcome)
    requires scheduler.Valid() && scheduler.limits.maxInFlight >= 1
    modifies scheduler, scheduler.generator
    ensures scheduler.Valid() && Turned(old(scheduler.Standing()), scheduler.Standing(), o, scheduler.Made(), blocked)
  {
    ghost var a := scheduler.Standing();
    ghost var mid := scheduler.Turn(blocked);
    ghost var b := scheduler.Standing();
    o := OutcomeOf(a, b);
    TurnEnds(a, b, scheduler.Made(), blocked);
  }
}
