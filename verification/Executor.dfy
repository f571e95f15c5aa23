/// The choice of the Jobs a round runs
/// (deploy/house-model/exl3_executor.py). Only the class policy chooses;
/// under FIFO every Job runs.

module Executor {
  import opened ExecutorRank
  import opened Wrappers

  const PREFILL_CHUNK_TOKENS: nat := 256
  const EXECUTION_ROUNDS_PER_GRANT: nat := 1

  /** A Job with its call's place in the order and its execution record. */
  class Job {
    var work: Work
    var stranded: bool
    var lastRound: int
    var roundsRun: nat
    var roundsWithheld: nat
    var roundsYielded: nat
    var prefillBound: Option<nat>

    predicate Foreground()
      reads this
    {
      !stranded && work.foreground
    }

    predicate Paused()
      reads this
    {
      work.yielded && !stranded
    }

    function Order(): Key
      reads this
    {
      Key(stranded, work.priority, work.deadline, lastRound, work.arrival)
    }

    /** This Job's record and bound, unchanged. */
    twostate predicate Same()
      reads this
    {
      lastRound == old(lastRound) && roundsRun == old(roundsRun) && roundsWithheld == old(roundsWithheld)
      && roundsYielded == old(roundsYielded) && prefillBound == old(prefillBound)
    }

    /** What a round leaves of this Job's record, run or not. */
    twostate predicate After(ran: bool, round: int, present: bool)
      reads this
    {
      if ran then
        lastRound == round && roundsRun == old(roundsRun) + 1
        && roundsWithheld == old(roundsWithheld) && roundsYielded == old(roundsYielded)
        && prefillBound == if present && !Foreground() then Some(PREFILL_CHUNK_TOKENS) else None
      else
        lastRound == old(lastRound) && roundsRun == old(roundsRun) && prefillBound == old(prefillBound)
        && roundsYielded == old(roundsYielded) + (if Paused() then 1 else 0)
        && roundsWithheld == old(roundsWithheld) + (if Paused() then 0 else 1)
    }

    method Record(ran: bool, round: int, present: bool)
      modifies `lastRound, `roundsRun, `roundsWithheld, `roundsYielded, `prefillBound
      ensures After(ran, round, present)
    {
      if ran {
        prefillBound := if present && !Foreground() then Some(PREFILL_CHUNK_TOKENS) else None;
        lastRound, roundsRun := round, roundsRun + 1;
      } else if Paused() {
        roundsYielded := roundsYielded + 1;
      } else {
        roundsWithheld := roundsWithheld + 1;
      }
    }
  }

  predicate Distinct(jobs: seq<Job>) {
    forall i, j :: 0 <= i < j < |jobs| ==> jobs[i] != jobs[j]
  }

  /** The unpaused background Jobs, in their order. */
  function Background(jobs: seq<Job>): (back: seq<Job>)
    reads jobs
    ensures forall k :: 0 <= k < |back| ==> back[k] in jobs
  {
    if jobs == [] then [] else
    var j := jobs[|jobs| - 1];
    Background(jobs[..|jobs| - 1]) + (if !j.Paused() && !j.Foreground() then [j] else [])
  }

  lemma {:induction false} BackgroundIs(jobs: seq<Job>)
    ensures forall k :: 0 <= k < |Background(jobs)| ==> !Background(jobs)[k].Paused() && !Background(jobs)[k].Foreground()
    ensures forall k :: 0 <= k < |jobs| && !jobs[k].Paused() && !jobs[k].Foreground() ==> jobs[k] in Background(jobs)
  {
    if jobs != [] {
      var front := jobs[..|jobs| - 1];
      BackgroundIs(front);
      assert forall k :: 0 <= k < |front| ==> jobs[k] == front[k];
    }
  }

  function Orders(jobs: seq<Job>): (keys: seq<Key>)
    reads jobs
    ensures |keys| == |jobs|
  {
    seq(|jobs|, i requires 0 <= i < |jobs| reads jobs => jobs[i].Order())
  }

  /** Job `j` runs this round: every unpaused foreground Job, and all the
      background ones, or while foreground work is present the first in their
      order alone. */
  predicate Picked(jobs: seq<Job>, present: bool, j: Job)
    reads jobs, j
  {
    !j.Paused() &&
    (j.Foreground() || !present || |Background(jobs)| <= BACKGROUND_ACTIVE_LIMIT
     || j == Background(jobs)[Best(Orders(Background(jobs)))])
  }

  ghost function PickedOf(jobs: seq<Job>, present: bool): set<Job>
    reads jobs
  {
    set j | j in jobs && Picked(jobs, present, j)
  }

  function Keep(jobs: seq<Job>, some: set<Job>): seq<Job> {
    if jobs == [] then [] else
    Keep(jobs[..|jobs| - 1], some) + (if jobs[|jobs| - 1] in some then [jobs[|jobs| - 1]] else [])
  }

  class Executor {
    var round: int
    var foregroundPresent: bool
    var choice: Option<set<Job>>
    var choiceJobs: set<Job>
    var choicePresent: bool
    var chosenRound: int

    /** No choice was made in a round to come. */
    ghost predicate Valid()
      reads this
    {
      chosenRound <= round
    }

    constructor ()
      ensures Valid() && round == 0
    {
      round, foregroundPresent, choice, choiceJobs, choicePresent, chosenRound := 0, false, None, {}, false, 0;
    }

    /** The Jobs the policy lets run. */
    method Decide(jobs: seq<Job>) returns (picked: set<Job>)
      ensures picked == PickedOf(jobs, foregroundPresent)
    {
      BackgroundIs(jobs);
      var back := Background(jobs);
      var few := if foregroundPresent && |back| > BACKGROUND_ACTIVE_LIMIT then {back[Best(Orders(back))]}
                 else set j | j in back;
      picked := (set j | j in jobs && !j.Paused() && j.Foreground()) + few;
    }

    /** One round's Jobs, in their order, with every Job's round recorded. */
    method Choose(jobs: seq<Job>) returns (chosen: seq<Job>)
      requires Valid() && Distinct(jobs)
      modifies this, jobs
      ensures Valid() && round == old(round) + 1 && foregroundPresent == old(foregroundPresent)
      ensures chosen == Keep(jobs, old(PickedOf(jobs, foregroundPresent)))
      ensures forall j :: j in jobs ==>
        j.After(old(Picked(jobs, foregroundPresent, j)), round, foregroundPresent)
        && j.work == old(j.work) && j.stranded == old(j.stranded)
    {
      round := round + 1;
      var all := set j | j in jobs;
      if choice.None? || round - chosenRound >= EXECUTION_ROUNDS_PER_GRANT
         || choiceJobs != all || choicePresent != foregroundPresent {
        var picked := Decide(jobs);
        choice, choiceJobs, choicePresent, chosenRound := Some(picked), all, foregroundPresent, round;
      }
      chosen := RecordAll(jobs, choice.value, round, foregroundPresent);
    }
  }

  /** Every Job's round recorded; those of `picked` in their order. */
  method RecordAll(jobs: seq<Job>, picked: set<Job>, round: int, present: bool) returns (chosen: seq<Job>)
    requires Distinct(jobs)
    modifies jobs
    ensures chosen == Keep(jobs, picked)
    ensures forall k :: 0 <= k < |jobs| ==>
      jobs[k].After(jobs[k] in picked, round, present)
      && jobs[k].work == old(jobs[k].work) && jobs[k].stranded == old(jobs[k].stranded)
  {
    chosen := [];
    for i := 0 to |jobs|
      invariant chosen == Keep(jobs[..i], picked)
      invariant forall k :: 0 <= k < |jobs| ==>
        jobs[k].work == old(jobs[k].work) && jobs[k].stranded == old(jobs[k].stranded)
      invariant forall k :: 0 <= k < i ==> jobs[k].After(jobs[k] in picked, round, present)
      invariant forall k :: i <= k < |jobs| ==> jobs[k].Same()
    {
      assert jobs[..i + 1][..i] == jobs[..i];
      jobs[i].Record(jobs[i] in picked, round, present);
      if jobs[i] in picked {
        chosen := chosen + [jobs[i]];
      }
    }
    assert jobs[..|jobs|] == jobs;
  }

  /** The background Jobs, in their order, after a round that ran the first. */
  twostate lemma BackgroundSame(jobs: seq<Job>)
    requires forall k :: 0 <= k < |jobs| ==>
      jobs[k].work == old(jobs[k].work) && jobs[k].stranded == old(jobs[k].stranded)
    ensures Background(jobs) == old(Background(jobs))
  {
    if jobs != [] {
      BackgroundSame(jobs[..|jobs| - 1]);
    }
  }

  lemma BackgroundDistinct(jobs: seq<Job>)
    requires Distinct(jobs)
    ensures Distinct(Background(jobs))
  {
    if jobs != [] {
      BackgroundDistinct(jobs[..|jobs| - 1]);
    }
  }

  /** Of the background Jobs `back` of `jobs` a round runs the first in their
      order alone. */
  lemma PickedBackground(jobs: seq<Job>, back: seq<Job>, best: nat, i: nat)
    requires back == Background(jobs) && Distinct(back) && i < |back| && best == Best(Orders(back))
    ensures back[i] in jobs && (Picked(jobs, true, back[i]) <==> i == best)
  {
    BackgroundIs(jobs);
    assert i < best ==> back[i] != back[best];
    assert best < i ==> back[i] != back[best];
  }

  function Runs(jobs: seq<Job>): (runs: seq<nat>)
    reads jobs
    ensures |runs| == |jobs|
  {
    seq(|jobs|, i requires 0 <= i < |jobs| reads jobs => jobs[i].roundsRun)
  }

  function OneMore(runs: seq<nat>, at: nat): seq<nat>
    requires at < |runs|
  {
    runs[at := runs[at] + 1]
  }

  /** One round while foreground work is present. */
  method OneRound(executor: Executor, jobs: seq<Job>, ghost back: seq<Job>, ghost orders: seq<Key>, ghost runs: seq<nat>,
                  ghost next: int)
    returns (ghost ordersAfter: seq<Key>, ghost runsAfter: seq<nat>)
    requires executor.Valid() && Distinct(jobs) && executor.foregroundPresent
    requires back != [] && back == Background(jobs) && Distinct(back)
    requires orders == Orders(back) && runs == Runs(back) && next == executor.round + 1
    modifies executor, jobs
    ensures executor.Valid() && executor.foregroundPresent && executor.round == next
    ensures Background(jobs) == back
    ensures Orders(back) == ordersAfter == Ran(orders, Best(orders), next)
    ensures Runs(back) == runsAfter == OneMore(runs, Best(orders))
    ensures forall k :: 0 <= k < |jobs| ==> Foremost(jobs[k], 1)
  {
    ghost var best := Best(orders);
    forall i: nat | i < |back|
      ensures back[i] in jobs && (Picked(jobs, true, back[i]) <==> i == best)
      ensures orders[i] == back[i].Order() && runs[i] == back[i].roundsRun
    {
      PickedBackground(jobs, back, best, i);
    }
    var chosen := executor.Choose(jobs);
    BackgroundSame(jobs);
    ordersAfter, runsAfter := Ran(orders, best, next), OneMore(runs, best);
    forall i: nat | i < |back|
      ensures back[i].Order() == ordersAfter[i] && back[i].roundsRun == runsAfter[i]
    {
      assert back[i].After(i == best, next, true);
    }
    SameOrders(back, ordersAfter, runsAfter);
  }

  lemma SameOrders(jobs: seq<Job>, keys: seq<Key>, runs: seq<nat>)
    requires |keys| == |runs| == |jobs|
    requires forall i: nat :: i < |jobs| ==> jobs[i].Order() == keys[i] && jobs[i].roundsRun == runs[i]
    ensures Orders(jobs) == keys && Runs(jobs) == runs
  {
  }

  /** An unpaused foreground Job that stays so has run `n` more rounds. */
  twostate predicate Foremost(j: Job, n: nat)
    reads j
  {
    j.work == old(j.work) && j.stranded == old(j.stranded)
    && (old(j.Foreground() && !j.Paused()) ==> j.roundsRun == old(j.roundsRun) + n)
  }

  /** A Job's standing, and the rounds it has run. */
  datatype Standing = Standing(work: Work, stranded: bool, runs: nat)

  function Standings(jobs: seq<Job>): (all: seq<Standing>)
    reads jobs
    ensures |all| == |jobs|
  {
    seq(|jobs|, i requires 0 <= i < |jobs| reads jobs => Standing(jobs[i].work, jobs[i].stranded, jobs[i].roundsRun))
  }

  /** The standings are the same, and each unpaused foreground Job has run `n`
      more rounds. */
  predicate Served(was: seq<Standing>, now: seq<Standing>, n: nat) {
    |was| == |now| && forall k :: 0 <= k < |was| ==> ServedAt(was[k], now[k], n)
  }

  predicate ServedAt(a: Standing, b: Standing, n: nat) {
    b.work == a.work && b.stranded == a.stranded
    && (!a.stranded && a.work.foreground && !a.work.yielded ==> b.runs == a.runs + n)
  }

  lemma ServedOn(a: seq<Standing>, b: seq<Standing>, c: seq<Standing>, n: nat, m: nat)
    requires Served(a, b, n) && Served(b, c, 1) && m == n + 1
    ensures Served(a, c, m)
  {
    forall k | 0 <= k < |a|
      ensures ServedAt(a[k], c[k], m)
    {
      assert ServedAt(a[k], b[k], n) && ServedAt(b[k], c[k], 1);
    }
  }

  /** The rounds alike Jobs have run, once the first `n` are over. */
  ghost function Total(runs: seq<nat>, keys: seq<Key>, first: int, n: nat): (total: seq<nat>)
    requires |keys| == |runs| > 0
    ensures |total| == |runs|
  {
    seq(|runs|, i requires 0 <= i < |runs| => runs[i] + (if i in RunSet(keys, first, n) then 1 else 0))
  }

  lemma TotalStep(runs: seq<nat>, keys: seq<Key>, first: int, n: nat)
    requires |keys| == |runs| && n < |keys| && Alike(keys) && forall k :: 0 <= k < |keys| ==> keys[k].last < first
    ensures Total(runs, keys, first, n + 1) == OneMore(Total(runs, keys, first, n), Chosen(keys, first, n))
    ensures n == 0 ==> Total(runs, keys, first, n) == runs
  {
    RunsNew(keys, first, n);
    RunSetStep(keys, first, n);
  }

  /** Where alike Jobs stand after `n` rounds: their keys and the rounds each
      has run. */
  ghost predicate Stand(keys: seq<Key>, runs: seq<nat>, first: int, n: nat, now: seq<Key>, total: seq<nat>)
    requires |keys| == |runs| > 0
  {
    now == After(keys, first, n) && total == Total(runs, keys, first, n)
  }

  lemma StandStep(keys: seq<Key>, runs: seq<nat>, first: int, n: nat, m: nat, now: seq<Key>, total: seq<nat>, round: int)
    requires |keys| == |runs| && n < |keys| && m == n + 1 && Alike(keys) && forall k :: 0 <= k < |keys| ==> keys[k].last < first
    requires Stand(keys, runs, first, n, now, total) && round == first + n
    ensures |now| == |keys| && |total| == |keys|
    ensures Stand(keys, runs, first, m, Ran(now, Best(now), round), OneMore(total, Best(now)))
  {
    TotalStep(runs, keys, first, n);
    AfterStep(keys, first, n, round);
  }

  /** One more round of those: where alike Jobs stand after it. */
  method NextRound(executor: Executor, jobs: seq<Job>, ghost back: seq<Job>, ghost keys: seq<Key>, ghost runs: seq<nat>,
                   ghost first: int, ghost n: nat, ghost m: nat, ghost now: seq<Key>, ghost total: seq<nat>)
    returns (ghost nowAfter: seq<Key>, ghost totalAfter: seq<nat>)
    requires executor.Valid() && Distinct(jobs) && executor.foregroundPresent && executor.round + 1 == first + n
    requires back != [] && back == Background(jobs) && Distinct(back) && Orders(back) == now && Runs(back) == total
    requires |keys| == |runs| && n < |keys| && m == n + 1 && Alike(keys) && forall k :: 0 <= k < |keys| ==> keys[k].last < first
    requires Stand(keys, runs, first, n, now, total)
    modifies executor, jobs
    ensures executor.Valid() && executor.foregroundPresent && executor.round + 1 == first + m
    ensures back == Background(jobs) && Orders(back) == nowAfter && Runs(back) == totalAfter
    ensures Stand(keys, runs, first, m, nowAfter, totalAfter)
    ensures Served(old(Standings(jobs)), Standings(jobs), 1)
  {
    ghost var next := executor.round + 1;
    StandStep(keys, runs, first, n, m, now, total, next);
    nowAfter, totalAfter := OneRound(executor, jobs, back, now, total, next);
    assert forall k :: 0 <= k < |jobs| ==> Foremost(jobs[k], 1);
  }

  /** As many rounds as there are background Jobs. */
  method RunEach(executor: Executor, jobs: seq<Job>, count: nat, ghost back: seq<Job>, ghost keys: seq<Key>, ghost runs: seq<nat>)
    returns (ghost total: seq<nat>)
    requires executor.Valid() && Distinct(jobs) && executor.foregroundPresent
    requires back != [] && back == Background(jobs) && Distinct(back) && count == |back|
    requires keys == Orders(back) && Alike(keys) && forall k :: 0 <= k < |keys| ==> keys[k].last <= executor.round
    requires runs == Runs(back)
    modifies executor, jobs
    ensures Runs(back) == total && total == Total(runs, keys, old(executor.round) + 1, count)
    ensures Served(old(Standings(jobs)), Standings(jobs), count)
  {
    ghost var first, now := executor.round + 1, keys;
    ghost var was := Standings(jobs);
    total := runs;
    TotalStep(runs, keys, first, 0);
    var n := 0;
    while n < count
      invariant 0 <= n <= count
      invariant executor.Valid() && executor.foregroundPresent && executor.round + 1 == first + n
      invariant Background(jobs) == back && Orders(back) == now && Runs(back) == total
      invariant Stand(keys, runs, first, n, now, total)
      invariant Served(was, Standings(jobs), n)
    {
      var m := n + 1;
      ghost var before := Standings(jobs);
      now, total := NextRound(executor, jobs, back, keys, runs, first, n, m, now, total);
      ServedOn(was, before, Standings(jobs), n, m);
      n := m;
    }
  }

  /** Rounds over Jobs that stay as they are, while foreground work is
      present: each foreground Job runs in every one, and over as many rounds
      as there are background Jobs, alike but for when they last ran, each of
      those runs exactly once. */
  method Rounds(executor: Executor, jobs: seq<Job>)
    requires executor.Valid() && Distinct(jobs) && executor.foregroundPresent
    requires Background(jobs) != [] && Alike(Orders(Background(jobs)))
    requires forall k :: 0 <= k < |jobs| ==> jobs[k].lastRound <= executor.round
    modifies executor, jobs
    ensures forall i :: 0 <= i < |old(Background(jobs))| ==>
      var j := old(Background(jobs))[i]; j.roundsRun == old(j.roundsRun) + 1
    ensures forall k :: 0 <= k < |jobs| ==> Foremost(jobs[k], |old(Background(jobs))|)
  {
    ghost var back := Background(jobs);
    ghost var keys, first, runs := Orders(back), executor.round + 1, Runs(back);
    BackgroundDistinct(jobs);
    AllRan(keys, first);
    ghost var total := RunEach(executor, jobs, |Background(jobs)|, back, keys, runs);
    forall k | 0 <= k < |jobs|
      ensures Foremost(jobs[k], |back|)
    {
      assert ServedAt(old(Standings(jobs))[k], Standings(jobs)[k], |back|);
    }
    forall i | 0 <= i < |back|
      ensures back[i].roundsRun == old(back[i].roundsRun) + 1
    {
      assert Runs(back)[i] == runs[i] + 1;
    }
  }
}
