/// Refs packed in order into groups under a byte cap, and a group split in
/// halves (components/code-run-quickjs/reader_forks.js).

module ReaderPack {
  import opened ReaderCites

  /** The bytes of items `lo` to `hi`. */
  function Bytes(items: seq<Item>, lo: nat, hi: nat): nat
    requires lo <= hi <= |items|
  {
    if lo == hi then 0 else Bytes(items, lo, hi - 1) + items[hi - 1].bytes
  }

  lemma {:induction false} BytesWithin(items: seq<Item>, lo: nat, hi: nat, innerLo: nat, innerHi: nat)
    requires lo <= innerLo <= innerHi <= hi <= |items|
    ensures Bytes(items, innerLo, innerHi) <= Bytes(items, lo, hi)
    decreases hi
  {
    if lo < hi {
      if innerHi < hi {
        BytesWithin(items, lo, hi - 1, innerLo, innerHi);
      } else if innerLo < innerHi {
        BytesWithin(items, lo, hi - 1, innerLo, innerHi - 1);
      }
    }
  }

  function Refs(items: seq<Item>): (refs: seq<string>)
    ensures |refs| == |items|
  {
    seq(|items|, i requires 0 <= i < |items| => items[i].ref)
  }

  // A partition into runs, as the places where one run ends and the next
  // begins: the first cut is 0 and the last is the number of items.

  predicate IsPartition(cuts: seq<nat>, n: nat) {
    |cuts| > 0 && cuts[0] == 0 && cuts[|cuts| - 1] == n && Rising(cuts)
  }

  predicate Rising(cuts: seq<nat>) {
    forall k, m :: 0 <= k < m < |cuts| ==> cuts[k] < cuts[m]
  }

  /** A partition of the first `n` items. */
  predicate Marks(items: seq<Item>, n: nat, cuts: seq<nat>) {
    n <= |items| && IsPartition(cuts, n) && forall k :: 0 <= k < |cuts| ==> cuts[k] <= n
  }

  /** Run `k` holds one item, or no more bytes than the cap. */
  predicate RunFits(items: seq<Item>, n: nat, cap: nat, cuts: seq<nat>, k: nat)
    requires Marks(items, n, cuts)
  {
    k + 1 < |cuts| ==> cuts[k + 1] == cuts[k] + 1 || Bytes(items, cuts[k], cuts[k + 1]) <= cap
  }

  /** Run `k` could not have held the item after it too. */
  predicate RunIsFull(items: seq<Item>, n: nat, cap: nat, cuts: seq<nat>, k: nat)
    requires Marks(items, n, cuts)
  {
    k + 2 < |cuts| ==> Bytes(items, cuts[k], cuts[k + 1] + 1) > cap
  }

  ghost predicate KeepsCap(items: seq<Item>, n: nat, cap: nat, cuts: seq<nat>) {
    Marks(items, n, cuts) && forall k: nat :: RunFits(items, n, cap, cuts, k)
  }

  ghost predicate IsGreedy(items: seq<Item>, n: nat, cap: nat, cuts: seq<nat>) {
    KeepsCap(items, n, cap, cuts) && forall k: nat :: RunIsFull(items, n, cap, cuts, k)
  }

  predicate IsRun(items: seq<Item>, n: nat, cuts: seq<nat>, k: nat, group: seq<string>)
    requires Marks(items, n, cuts)
  {
    k + 1 < |cuts| ==> group == Refs(items[cuts[k]..cuts[k + 1]])
  }

  /** The groups are the refs of the runs the cuts mark. */
  predicate AreRuns(items: seq<Item>, n: nat, cuts: seq<nat>, groups: seq<seq<string>>)
    requires Marks(items, n, cuts)
  {
    |groups| == |cuts| - 1 &&
    forall k :: 0 <= k < |groups| ==> IsRun(items, n, cuts, k, groups[k])
  }

  /** The last run could not hold the item after it. */
  predicate NoRoom(items: seq<Item>, n: nat, cap: nat, cuts: seq<nat>)
    requires Marks(items, n, cuts)
  {
    |cuts| > 1 && n < |items| ==> Bytes(items, cuts[|cuts| - 2], n + 1) > cap
  }

  lemma AddRun(items: seq<Item>, n: nat, cap: nat, cuts: seq<nat>, groups: seq<seq<string>>, end: nat)
    requires IsGreedy(items, n, cap, cuts) && AreRuns(items, n, cuts, groups) && NoRoom(items, n, cap, cuts)
    requires n < end <= |items| && (end == n + 1 || Bytes(items, n, end) <= cap)
    ensures IsGreedy(items, end, cap, cuts + [end])
    ensures AreRuns(items, end, cuts + [end], groups + [Refs(items[n..end])])
  {
    var more := cuts + [end];
    assert more[|cuts| - 1] == n;
    assert Marks(items, end, more);
    forall k: nat
      ensures RunFits(items, end, cap, more, k)
    {
      assert RunFits(items, n, cap, cuts, k);
    }
    forall k: nat
      ensures RunIsFull(items, end, cap, more, k)
    {
      assert RunIsFull(items, n, cap, cuts, k);
    }
    var after := groups + [Refs(items[n..end])];
    forall k | 0 <= k < |after|
      ensures IsRun(items, end, more, k, after[k])
    {
      assert k < |groups| ==> IsRun(items, n, cuts, k, groups[k]);
    }
  }

  lemma RefsPush(items: seq<Item>, lo: nat, hi: nat)
    requires lo <= hi < |items|
    ensures Refs(items[lo..hi + 1]) == Refs(items[lo..hi]) + [items[hi].ref]
  {
    assert items[lo..hi + 1] == items[lo..hi] + [items[hi]];
  }

  /** The greedy partition, as the groups of its refs: in order, none empty,
      each within the cap or a single item, and none that had room for the
      item after it. */
  method Pack(items: seq<Item>, cap: nat) returns (groups: seq<seq<string>>, ghost cuts: seq<nat>)
    ensures IsGreedy(items, |items|, cap, cuts) && AreRuns(items, |items|, cuts, groups)
  {
    groups, cuts := [], [0];
    var group: seq<string>, bytes := [], 0;
    ghost var at := 0;
    for i := 0 to |items|
      invariant at <= i && (at == i ==> i == 0)
      invariant IsGreedy(items, at, cap, cuts) && AreRuns(items, at, cuts, groups) && NoRoom(items, at, cap, cuts)
      invariant group == Refs(items[at..i]) && bytes == Bytes(items, at, i)
      invariant i > at + 1 ==> bytes <= cap
    {
      if group != [] && bytes + items[i].bytes > cap {
        AddRun(items, at, cap, cuts, groups, i);
        groups, cuts := groups + [group], cuts + [i];
        at := i;
        group, bytes := [], 0;
      }
      RefsPush(items, at, i);
      group := group + [items[i].ref];
      bytes := bytes + items[i].bytes;
    }
    if group != [] {
      AddRun(items, at, cap, cuts, groups, |items|);
      groups, cuts := groups + [group], cuts + [|items|];
    }
  }

  /** Greedy stays ahead: its run `k` starts no sooner than any other's. */
  lemma {:induction false} GreedyAhead(items: seq<Item>, cap: nat, greedy: seq<nat>, other: seq<nat>, k: nat)
    requires IsGreedy(items, |items|, cap, greedy) && KeepsCap(items, |items|, cap, other)
    requires k < |greedy| && k < |other|
    ensures other[k] <= greedy[k]
  {
    if k > 0 {
      GreedyAhead(items, cap, greedy, other, k - 1);
      assert greedy[k - 1] < greedy[k];
      assert RunIsFull(items, |items|, cap, greedy, k - 1);
      assert RunFits(items, |items|, cap, other, k - 1);
      if greedy[k] < other[k] {
        BytesWithin(items, other[k - 1], other[k], greedy[k - 1], greedy[k] + 1);
      }
    }
  }

  /** No partition that keeps the cap has fewer groups. */
  lemma PackIsLeast(items: seq<Item>, cap: nat, greedy: seq<nat>, other: seq<nat>)
    requires IsGreedy(items, |items|, cap, greedy) && KeepsCap(items, |items|, cap, other)
    ensures |greedy| <= |other|
  {
    if |greedy| > |other| {
      assert greedy[|other| - 1] < greedy[|greedy| - 1];
      GreedyAhead(items, cap, greedy, other, |other| - 1);
    }
  }

  lemma {:induction false} RunsUnique(items: seq<Item>, cuts: seq<nat>, a: seq<seq<string>>, b: seq<seq<string>>)
    requires Marks(items, |items|, cuts) && AreRuns(items, |items|, cuts, a) && AreRuns(items, |items|, cuts, b)
    ensures a == b
  {
    forall k | 0 <= k < |a|
      ensures a[k] == b[k]
    {
      assert IsRun(items, |items|, cuts, k, a[k]) && IsRun(items, |items|, cuts, k, b[k]);
    }
  }

  /** There is one greedy partition. */
  lemma GreedyUnique(items: seq<Item>, cap: nat, a: seq<nat>, b: seq<nat>)
    requires IsGreedy(items, |items|, cap, a) && IsGreedy(items, |items|, cap, b)
    ensures a == b
  {
    PackIsLeast(items, cap, a, b);
    PackIsLeast(items, cap, b, a);
    forall k | 0 <= k < |a|
      ensures a[k] == b[k]
    {
      GreedyAhead(items, cap, a, b, k);
      GreedyAhead(items, cap, b, a, k);
    }
  }

  predicate PairOver(items: seq<Item>, cap: nat, i: nat) {
    i + 1 < |items| ==> items[i].bytes + items[i + 1].bytes > cap
  }

  lemma TwoBytes(items: seq<Item>, i: nat)
    requires i + 2 <= |items|
    ensures Bytes(items, i, i + 2) == items[i].bytes + items[i + 1].bytes
  {
    assert Bytes(items, i, i + 1) == items[i].bytes;
  }

  lemma {:induction false} AllSingle(n: nat, cuts: seq<nat>, k: nat)
    requires IsPartition(cuts, n) && |cuts| == n + 1 && k <= n
    ensures cuts[k] == k
  {
    CutAtLeast(cuts, k);
    CutAtMost(cuts, k);
  }

  lemma {:induction false} CutAtLeast(cuts: seq<nat>, k: nat)
    requires Rising(cuts) && k < |cuts|
    ensures cuts[k] >= k
  {
    if k > 0 {
      CutAtLeast(cuts, k - 1);
    }
  }

  lemma {:induction false} CutAtMost(cuts: seq<nat>, k: nat)
    requires Rising(cuts) && k < |cuts|
    ensures cuts[k] + (|cuts| - 1 - k) <= cuts[|cuts| - 1]
    decreases |cuts| - k
  {
    if k < |cuts| - 1 {
      CutAtMost(cuts, k + 1);
    }
  }

  lemma {:induction false} SingleRuns(items: seq<Item>, cap: nat, cuts: seq<nat>, k: nat)
    requires IsGreedy(items, |items|, cap, cuts) && k < |cuts|
    requires forall i: nat :: PairOver(items, cap, i)
    ensures cuts[k] == k
  {
    if k > 0 {
      SingleRuns(items, cap, cuts, k - 1);
      assert RunFits(items, |items|, cap, cuts, k - 1);
      if cuts[k] > k {
        TwoBytes(items, k - 1);
        assert PairOver(items, cap, k - 1);
        BytesWithin(items, k - 1, cuts[k], k - 1, k + 1);
        assert false;
      }
    }
  }

  /** A stage packs to as many groups as it had members exactly when no two
      neighbours fit the cap together: then it makes no progress. */
  lemma StuckExactly(items: seq<Item>, cap: nat, cuts: seq<nat>)
    requires IsGreedy(items, |items|, cap, cuts)
    ensures |cuts| == |items| + 1 <==> forall i: nat :: PairOver(items, cap, i)
  {
    if |cuts| == |items| + 1 {
      forall i: nat
        ensures PairOver(items, cap, i)
      {
        if i + 1 < |items| {
          AllSingle(|items|, cuts, i);
          AllSingle(|items|, cuts, i + 1);
          assert RunIsFull(items, |items|, cap, cuts, i);
          TwoBytes(items, i);
        }
      }
    }
    if forall i: nat :: PairOver(items, cap, i) {
      SingleRuns(items, cap, cuts, |cuts| - 1);
    }
  }

  /** A group's halves: together the group, in order, both nonempty when it
      has more than one member. */
  method Split(refs: seq<string>) returns (a: seq<string>, b: seq<string>)
    ensures a + b == refs && |a| <= |b| <= |a| + 1
    ensures |refs| > 1 ==> a != [] && b != []
  {
    var half := |refs| / 2;
    a, b := [], [];
    for i := 0 to |refs|
      invariant |a| == (if i < half then i else half)
      invariant a + b == refs[..i]
      invariant i <= half ==> b == []
    {
      if i < half {
        a := a + [refs[i]];
      } else {
        b := b + [refs[i]];
      }
    }
  }
}
