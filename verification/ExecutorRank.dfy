/// The orders the executor ranks work by, and what they give over many
/// rounds (deploy/house-model/exl3_executor.py).

module ExecutorRank {
  import opened Wrappers

  /** Background units that run in a round, and that are let in, while
      foreground work is present. */
  const BACKGROUND_ACTIVE_LIMIT: nat := 1

  /** A call's place in the admission order. */
  datatype Work = Work(foreground: bool, priority: int, deadline: Option<int>, arrival: nat, yielded: bool)

  /** The earliest deadline first, none last. */
  predicate Sooner(a: Option<int>, b: Option<int>) {
    a.Some? && (b.None? || a.value < b.value)
  }

  /** Class, then priority, then deadline, then arrival. */
  predicate Outranks(a: Work, b: Work) {
    if a.foreground != b.foreground then a.foreground
    else if a.priority != b.priority then a.priority > b.priority
    else if a.deadline != b.deadline then Sooner(a.deadline, b.deadline)
    else a.arrival < b.arrival
  }

  /** A strict total order on works of different arrivals. */
  lemma RankIsTotal(a: Work, b: Work, c: Work)
    ensures !Outranks(a, a)
    ensures Outranks(a, b) ==> !Outranks(b, a)
    ensures Outranks(a, b) && Outranks(b, c) ==> Outranks(a, c)
    ensures a.arrival != b.arrival ==> Outranks(a, b) || Outranks(b, a)
  {
  }

  /** What a background Job is ordered by for a round's place. */
  datatype Key = Key(stranded: bool, priority: int, deadline: Option<int>, last: int, arrival: nat)

  /** Stranded last, then priority and deadline, then the least recently run. */
  predicate Ahead(a: Key, b: Key) {
    if a.stranded != b.stranded then b.stranded
    else if a.priority != b.priority then a.priority > b.priority
    else if a.deadline != b.deadline then Sooner(a.deadline, b.deadline)
    else if a.last != b.last then a.last < b.last
    else a.arrival < b.arrival
  }

  lemma AheadIsTotal(a: Key, b: Key, c: Key)
    ensures !Ahead(a, a)
    ensures Ahead(a, b) ==> !Ahead(b, a)
    ensures Ahead(a, b) && Ahead(b, c) ==> Ahead(a, c)
    ensures !Ahead(b, a) && !Ahead(c, b) ==> !Ahead(c, a)
    ensures a.arrival != b.arrival ==> Ahead(a, b) || Ahead(b, a)
  {
  }

  /** The first of the keys none is ahead of: the head of a stable sort. */
  function Best(keys: seq<Key>): (at: nat)
    requires keys != []
    ensures at < |keys|
  {
    if |keys| == 1 then 0 else
    var front := Best(keys[..|keys| - 1]);
    if Ahead(keys[|keys| - 1], keys[front]) then |keys| - 1 else front
  }

  lemma {:induction false} BestIsFirst(keys: seq<Key>)
    requires keys != []
    ensures forall i :: 0 <= i < |keys| ==> !Ahead(keys[i], keys[Best(keys)])
    ensures forall i :: 0 <= i < Best(keys) ==> Ahead(keys[Best(keys)], keys[i])
    decreases |keys|
  {
    if |keys| > 1 {
      var front, last := keys[..|keys| - 1], keys[|keys| - 1];
      BestIsFirst(front);
      var b := Best(front);
      forall i | 0 <= i < |keys|
        ensures !Ahead(keys[i], keys[Best(keys)])
        ensures i < Best(keys) ==> Ahead(keys[Best(keys)], keys[i])
      {
        assert i < |front| ==> keys[i] == front[i];
        AheadIsTotal(last, front[b], keys[i]);
        AheadIsTotal(keys[i], front[b], last);
      }
    }
  }

  // Rounds over a fixed set of Jobs: each runs the best, which is then the
  // most recently run.

  function Ran(keys: seq<Key>, at: nat, round: int): (after: seq<Key>)
    requires at < |keys|
    ensures |after| == |keys|
  {
    keys[at := keys[at].(last := round)]
  }

  /** The keys after `n` rounds from `round`. */
  function After(keys: seq<Key>, round: int, n: nat): (after: seq<Key>)
    requires keys != []
    ensures |after| == |keys|
  {
    if n == 0 then keys else
    var before := After(keys, round, n - 1);
    Ran(before, Best(before), round + n - 1)
  }

  /** The Job the round after those `n` runs. */
  function Chosen(keys: seq<Key>, round: int, n: nat): (at: nat)
    requires keys != []
    ensures at < |keys|
  {
    Best(After(keys, round, n))
  }

  lemma AfterStep(keys: seq<Key>, first: int, n: nat, round: int)
    requires keys != [] && round == first + n
    ensures After(keys, first, n + 1) == Ran(After(keys, first, n), Chosen(keys, first, n), round)
  {
  }

  /** Jobs alike but for when they last ran and when they arrived. */
  predicate Alike(keys: seq<Key>) {
    forall i, j :: 0 <= i < j < |keys| ==>
      keys[i].stranded == keys[j].stranded && keys[i].priority == keys[j].priority
      && keys[i].deadline == keys[j].deadline && keys[i].arrival != keys[j].arrival
  }

  /** Which of the Jobs ran in the `n` rounds from `round`. */
  predicate RanSince(keys: seq<Key>, round: int, n: nat, i: nat)
    requires keys != [] && i < |keys|
  {
    After(keys, round, n)[i].last >= round
  }

  ghost function RunSet(keys: seq<Key>, round: int, n: nat): set<nat>
    requires keys != []
  {
    set i: nat | i < |keys| && RanSince(keys, round, n, i)
  }

  lemma {:induction false} AfterAlike(keys: seq<Key>, round: int, n: nat)
    requires keys != [] && Alike(keys) && forall i :: 0 <= i < |keys| ==> keys[i].last < round
    ensures Alike(After(keys, round, n))
    ensures forall i :: 0 <= i < |keys| ==> After(keys, round, n)[i].last < round + n
  {
    if n > 0 {
      AfterAlike(keys, round, n - 1);
    }
  }

  /** While some Job has not run, the next round runs one that has not. */
  lemma NextIsNew(keys: seq<Key>, round: int, n: nat)
    requires keys != [] && Alike(keys) && forall i :: 0 <= i < |keys| ==> keys[i].last < round
    requires exists j: nat :: j < |keys| && !RanSince(keys, round, n, j)
    ensures !RanSince(keys, round, n, Chosen(keys, round, n))
  {
    var after := After(keys, round, n);
    AfterAlike(keys, round, n);
    var j: nat :| j < |keys| && !RanSince(keys, round, n, j);
    var best := Best(after);
    BestIsFirst(after);
    assert !Ahead(after[j], after[best]);
    assert best < j ==> after[best].stranded == after[j].stranded;
    assert j < best ==> after[best].stranded == after[j].stranded;
  }

  ghost function UpTo(n: nat): (all: set<nat>)
    ensures |all| == n && forall i: nat :: i in all <==> i < n
  {
    if n == 0 then {} else UpTo(n - 1) + {n - 1}
  }

  lemma RunSetStep(keys: seq<Key>, round: int, n: nat)
    requires keys != []
    ensures RunSet(keys, round, n + 1) == RunSet(keys, round, n) + {Chosen(keys, round, n)}
  {
    var at, before := Chosen(keys, round, n), After(keys, round, n);
    assert After(keys, round, n + 1) == Ran(before, at, round + n);
    forall i: nat | i < |keys|
      ensures RanSince(keys, round, n + 1, i) <==> RanSince(keys, round, n, i) || i == at
    {
    }
  }

  lemma ChosenIsNew(keys: seq<Key>, round: int, n: nat)
    requires keys != [] && Alike(keys) && forall i :: 0 <= i < |keys| ==> keys[i].last < round
    requires |RunSet(keys, round, n)| < |keys|
    ensures Chosen(keys, round, n) !in RunSet(keys, round, n)
  {
    var ran, all := RunSet(keys, round, n), UpTo(|keys|);
    assert ran <= all && ran != all;
    var j :| j in all && j !in ran;
    assert !RanSince(keys, round, n, j);
    NextIsNew(keys, round, n);
  }

  lemma {:induction false} RunsNew(keys: seq<Key>, round: int, n: nat)
    requires keys != [] && n <= |keys| && Alike(keys) && forall i :: 0 <= i < |keys| ==> keys[i].last < round
    ensures |RunSet(keys, round, n)| == n
    ensures n < |keys| ==> Chosen(keys, round, n) !in RunSet(keys, round, n)
  {
    if n == 0 {
      assert RunSet(keys, round, 0) == {};
    } else {
      RunsNew(keys, round, n - 1);
      RunSetStep(keys, round, n - 1);
    }
    if n < |keys| {
      ChosenIsNew(keys, round, n);
    }
  }

  lemma {:induction false} ChosenStays(keys: seq<Key>, round: int, m: nat, n: nat)
    requires keys != [] && m < n
    ensures Chosen(keys, round, m) in RunSet(keys, round, n)
  {
    RunSetStep(keys, round, n - 1);
    if m < n - 1 {
      ChosenStays(keys, round, m, n - 1);
    }
  }

  /** Job `i` runs in one of the `n` rounds from `round`. */
  ghost predicate RunsIn(keys: seq<Key>, round: int, n: nat, i: nat)
    requires keys != []
  {
    exists m: nat :: m < n && Chosen(keys, round, m) == i
  }

  lemma AllRan(keys: seq<Key>, round: int)
    requires keys != [] && Alike(keys) && forall i :: 0 <= i < |keys| ==> keys[i].last < round
    ensures forall i: nat :: i in RunSet(keys, round, |keys|) <==> i < |keys|
  {
    RunsNew(keys, round, |keys|);
    var ran := RunSet(keys, round, |keys|);
    assert ran <= UpTo(|keys|);
    SubsetFull(ran, UpTo(|keys|));
  }

  /** Fairness: over any as many rounds as there are alike Jobs, each runs
      exactly once, whenever each had last run before. */
  lemma EachRunsOnce(keys: seq<Key>, round: int)
    requires keys != [] && Alike(keys) && forall i :: 0 <= i < |keys| ==> keys[i].last < round
    ensures forall m: nat, n: nat :: m < n < |keys| ==> Chosen(keys, round, m) != Chosen(keys, round, n)
    ensures forall i: nat :: RunsIn(keys, round, |keys|, i) <==> i < |keys|
  {
    forall m: nat, n: nat | m < n < |keys|
      ensures Chosen(keys, round, m) != Chosen(keys, round, n)
    {
      ChosenStays(keys, round, m, n);
      RunsNew(keys, round, n);
    }
    AllRan(keys, round);
    var ran := RunSet(keys, round, |keys|);
    forall i: nat
      ensures RunsIn(keys, round, |keys|, i) <==> i < |keys|
    {
      if i < |keys| {
        assert i in ran;
        RanWasChosen(keys, round, |keys|, i);
      }
    }
  }

  lemma SubsetFull(a: set<nat>, b: set<nat>)
    requires a <= b && |a| == |b|
    ensures a == b
  {
    if a != b {
      var x :| x in b && x !in a;
      assert a + {x} <= b;
      SubsetSize(a + {x}, b);
    }
  }

  lemma {:induction false} SubsetSize(a: set<nat>, b: set<nat>)
    requires a <= b
    ensures |a| <= |b|
  {
    if a != {} {
      var x :| x in a;
      SubsetSize(a - {x}, b - {x});
    }
  }

  lemma {:induction false} RanWasChosen(keys: seq<Key>, round: int, n: nat, i: nat)
    requires keys != [] && i < |keys| && keys[i].last < round && RanSince(keys, round, n, i)
    ensures RunsIn(keys, round, n, i)
  {
    if n > 0 && Chosen(keys, round, n - 1) != i {
      RanWasChosen(keys, round, n - 1, i);
    }
  }
}
