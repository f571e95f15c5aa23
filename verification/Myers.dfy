/// Myers' greedy O(ND) search with a bounded frontier, and the walk back over
/// the saved frontiers (components/code-run-quickjs/diff.js).

module Myers {
  import opened EditScript
  import opened Wrappers

  const DIFF_MAX_EDITS: nat := 512

  /** Diagonal `k` is one round `d` visits. */
  predicate OnRound(d: int, k: int) {
    -d <= k <= d && (k + d) % 2 == 0
  }

  /** A frontier array: diagonal 0 at `offset`, room for every diagonal of a
      round before `offset`. */
  predicate Sized(v: seq<int>, offset: int, d: int) {
    0 <= d < offset && |v| == 2 * offset + 2
  }

  /** The diagonal round `d` comes to `k` from: one "-" on from the diagonal
      below or one "+" from the one above, whichever is further. */
  function PrevDiagonal(v: seq<int>, offset: int, d: int, k: int): (p: int)
    requires Sized(v, offset, d) && -d <= k <= d
    ensures p == k - 1 || p == k + 1
  {
    if k == -d || (k != d && v[offset + k - 1] < v[offset + k + 1]) then k + 1 else k - 1
  }

  function RoundStart(v: seq<int>, offset: int, d: int, k: int): int
    requires Sized(v, offset, d) && -d <= k <= d
  {
    var p := PrevDiagonal(v, offset, d, k);
    if p == k + 1 then v[offset + p] else v[offset + p] + 1
  }

  /** `e` is the furthest point `d` changes reach on diagonal `k`. */
  ghost predicate Furthest<T>(x: seq<T>, y: seq<T>, d: int, k: int, e: int)
  {
    Reach(x, y, d, e, e - k) && forall i, j :: Reach(x, y, d, i, j) && i - j == k ==> i <= e
  }

  /** `v` holds the furthest point of every diagonal `d` changes reach. */
  ghost predicate Frontier<T>(x: seq<T>, y: seq<T>, v: seq<int>, offset: int, d: int)
  {
    forall p :: 0 <= p < |v| && OnRound(d, p - offset) ==> Furthest(x, y, d, p - offset, v[p])
  }

  /** The frontier round `d` starts from: all zero for the first round. */
  ghost predicate FrontierBefore<T>(x: seq<T>, y: seq<T>, v: seq<int>, offset: int, d: int)
  {
    if d == 0 then forall p :: 0 <= p < |v| ==> v[p] == 0 else Frontier(x, y, v, offset, d - 1)
  }

  /** Diagonal `k`'s step at `q` is over a line both sides share. */
  predicate Shared<T(==)>(x: seq<T>, y: seq<T>, k: int, q: int)
  {
    0 <= q < |x| && 0 <= q - k < |y| && x[q] == y[q - k]
  }

  /** From `s` to `e` diagonal `k` runs over shared lines. */
  ghost predicate Snake<T>(x: seq<T>, y: seq<T>, k: int, s: int, e: int)
  {
    s <= e && forall q :: s <= q < e ==> Shared(x, y, k, q)
  }

  /** The start of a round's diagonal is itself reachable in `d` changes. */
  lemma StartReachable<T>(x: seq<T>, y: seq<T>, v: seq<int>, offset: int, d: int, k: int)
    requires Sized(v, offset, d) && OnRound(d, k) && FrontierBefore(x, y, v, offset, d)
    ensures Reach(x, y, d, RoundStart(v, offset, d, k), RoundStart(v, offset, d, k) - k)
  {
    if d > 0 {
      var p := PrevDiagonal(v, offset, d, k);
      assert Furthest(x, y, d - 1, offset + p - offset, v[offset + p]);
    }
  }

  /** Walking a snake costs nothing. */
  lemma {:induction false} SnakeReachable<T>(x: seq<T>, y: seq<T>, d: int, k: int, s: int, e: int)
    requires Reach(x, y, d, s, s - k) && Snake(x, y, k, s, e)
    ensures Reach(x, y, d, e, e - k)
    decreases e - s
  {
    if s < e {
      SnakeReachable(x, y, d, k, s, e - 1);
      assert Shared(x, y, k, e - 1);
    }
  }

  /** The greedy step is furthest: nothing `d` changes reach on diagonal `k`
      lies past the end of the snake from the round's start. */
  lemma {:induction false} NothingPastSnake<T>(x: seq<T>, y: seq<T>, v: seq<int>, offset: int, d: int, k: int, e: int, i: int, j: int)
    requires Sized(v, offset, d) && OnRound(d, k) && FrontierBefore(x, y, v, offset, d)
    requires RoundStart(v, offset, d, k) <= e && 0 <= e && 0 <= e - k
    requires !(e < |x| && e - k < |y| && x[e] == y[e - k])
    requires Reach(x, y, d, i, j) && i - j == k
    ensures i <= e
    decreases i
  {
    if d == 0 && i == 0 && j == 0 {
    } else if 0 < i <= |x| && 0 < j <= |y| && x[i - 1] == y[j - 1] && Reach(x, y, d, i - 1, j - 1) {
      NothingPastSnake(x, y, v, offset, d, k, e, i - 1, j - 1);
    } else if 0 < i && Reach(x, y, d - 1, i - 1, j) {
      ReachDiagonal(x, y, d - 1, i - 1, j);
      var p := offset + k - 1;
      assert Furthest(x, y, d - 1, p - offset, v[p]);
    } else {
      ReachDiagonal(x, y, d - 1, i, j - 1);
      var p := offset + k + 1;
      assert Furthest(x, y, d - 1, p - offset, v[p]);
    }
  }

  /** So the end of a full snake from the round's start is the new frontier
      point of its diagonal. */
  lemma GreedyFurthest<T>(x: seq<T>, y: seq<T>, v: seq<int>, offset: int, d: int, k: int, e: int)
    requires Sized(v, offset, d) && OnRound(d, k) && FrontierBefore(x, y, v, offset, d)
    requires Snake(x, y, k, RoundStart(v, offset, d, k), e)
    requires !(e < |x| && e - k < |y| && e >= 0 && e - k >= 0 && x[e] == y[e - k])
    ensures Furthest(x, y, d, k, e)
  {
    StartReachable(x, y, v, offset, d, k);
    SnakeReachable(x, y, d, k, RoundStart(v, offset, d, k), e);
    forall i, j | Reach(x, y, d, i, j) && i - j == k
      ensures i <= e
    {
      NothingPastSnake(x, y, v, offset, d, k, e, i, j);
    }
  }

  /** The first point past both edges is the far corner itself: a point
      beyond it would make the corner cheaper than it can be. */
  lemma FirstPastIsCorner<T>(x: seq<T>, y: seq<T>, d: int, i: int, j: int)
    requires Reach(x, y, d, i, j) && i >= |x| && j >= |y|
    requires forall c :: 0 <= c < d ==> !Reach(x, y, c, |x|, |y|)
    ensures i == |x| && j == |y|
  {
    ReachClamped(x, y, d, i, j);
  }

  /** A full round that never passed the corner leaves it unreached. */
  lemma CornerUnreached<T>(x: seq<T>, y: seq<T>, v: seq<int>, offset: int, d: int)
    requires Sized(v, offset, d) && Frontier(x, y, v, offset, d)
    requires forall p :: 0 <= p < |v| && OnRound(d, p - offset) ==> v[p] < |x| || v[p] - (p - offset) < |y|
    ensures !Reach(x, y, d, |x|, |y|)
  {
    if OnRound(d, |x| - |y|) {
      var p := offset + |x| - |y|;
      assert Furthest(x, y, d, p - offset, v[p]);
    } else if Reach(x, y, d, |x|, |y|) {
      ReachDiagonal(x, y, d, |x|, |y|);
    }
  }

  /** Each point of frontier `w` ends a snake from its start in `v`, the
      frontier before round `d`. */
  ghost predicate Extends<T>(x: seq<T>, y: seq<T>, v: seq<int>, w: seq<int>, offset: int, d: int)
  {
    Sized(v, offset, d) && Sized(w, offset, d) &&
    forall p :: 0 <= p < |w| && OnRound(d, p - offset)
      ==> Snake(x, y, p - offset, RoundStart(v, offset, d, p - offset), w[p])
  }

  /** `trace[d]` is the frontier round `d` started from, extending the one
      before. */
  ghost predicate Saved<T>(x: seq<T>, y: seq<T>, trace: seq<seq<int>>, offset: int, d: int)
  {
    0 <= d < |trace| && Sized(trace[d], offset, d) && FrontierBefore(x, y, trace[d], offset, d) &&
    (d > 0 ==> Extends(x, y, trace[d - 1], trace[d], offset, d - 1))
  }

  ghost predicate Traced<T>(x: seq<T>, y: seq<T>, trace: seq<seq<int>>, offset: int)
  {
    forall d :: 0 <= d < |trace| ==> Saved(x, y, trace, offset, d)
  }

  /** What the forward pass knows before round `|trace|`: the frontiers so
      far are saved, `v` is the one to go on from, and no earlier round's
      number of changes reaches the corner. */
  ghost predicate Ready<T>(x: seq<T>, y: seq<T>, trace: seq<seq<int>>, v: seq<int>, offset: int)
  {
    Traced(x, y, trace, offset) && |v| == 2 * offset + 2 &&
    FrontierBefore(x, y, v, offset, |trace|) &&
    (trace != [] ==> Extends(x, y, trace[|trace| - 1], v, offset, |trace| - 1)) &&
    (forall c :: 0 <= c < |trace| ==> !Reach(x, y, c, |x|, |y|))
  }

  lemma SaveFrontier<T>(x: seq<T>, y: seq<T>, trace: seq<seq<int>>, v: seq<int>, offset: int)
    requires Ready(x, y, trace, v, offset) && |trace| < offset
    ensures Traced(x, y, trace + [v], offset)
  {
    forall d | 0 <= d < |trace + [v]|
      ensures Saved(x, y, trace + [v], offset, d)
    {
      if d < |trace| {
        assert Saved(x, y, trace, offset, d);
      }
    }
  }

  lemma NextReady<T>(x: seq<T>, y: seq<T>, trace: seq<seq<int>>, v: seq<int>, w: seq<int>, offset: int)
    requires Ready(x, y, trace, v, offset) && |trace| < offset
    requires Frontier(x, y, w, offset, |trace|) && Extends(x, y, v, w, offset, |trace|)
    requires !Reach(x, y, |trace|, |x|, |y|)
    ensures Ready(x, y, trace + [v], w, offset)
  {
    var more, d := trace + [v], |trace|;
    SaveFrontier(x, y, trace, v, offset);
    assert |more| == d + 1 && more[d] == v;
    assert FrontierBefore(x, y, w, offset, |more|);
    forall c | 0 <= c < |more|
      ensures !Reach(x, y, c, |x|, |y|)
    {
      assert c < d || c == d;
    }
  }

  function Reversed<T>(s: seq<T>): (r: seq<T>)
    ensures |r| == |s| && forall k :: 0 <= k < |s| ==> r[k] == s[|s| - 1 - k]
  {
    if s == [] then [] else Reversed(s[1..]) + [s[0]]
  }

  /** The steps pushed so far, in reverse, are the script's last `c` changes:
      they turn `x[i..]` into `y[j..]`. */
  ghost predicate Suffix<T>(pushed: seq<Op>, x: seq<T>, y: seq<T>, i: int, j: int, c: int)
  {
    0 <= i && 0 <= j && Edits(Reversed(pushed), x, y, i, j) && Cost(Reversed(pushed)) == c
  }

  lemma PushStep<T>(pushed: seq<Op>, x: seq<T>, y: seq<T>, i: int, j: int, c: int, op: Op, i': int, j': int)
    requires Suffix(pushed, x, y, i, j, c) && 0 <= i' && 0 <= j'
    requires i' == (if op == Ins then i else i - 1) && j' == (if op == Del then j else j - 1)
    requires op == Keep ==> i' < |x| && j' < |y| && x[i'] == y[j']
    requires (op == Del ==> i' < |x|) && (op == Ins ==> j' < |y|)
    ensures Suffix(pushed + [op], x, y, i', j', if op == Keep then c else c + 1)
  {
    assert Reversed(pushed + [op]) == [op] + Reversed(pushed);
    assert ([op] + Reversed(pushed))[1..] == Reversed(pushed);
  }

  /** The point before round `d`'s start on diagonal `k`: the start is one "+"
      or one "-" past it, and it ends a snake of the round before. */
  lemma PrevPoint<T>(x: seq<T>, y: seq<T>, trace: seq<seq<int>>, offset: int, d: int, k: int)
    requires Traced(x, y, trace, offset) && 0 <= d < |trace| && OnRound(d, k)
    ensures Sized(trace[d], offset, d) && (d > 0 ==> Sized(trace[d - 1], offset, d - 1))
    ensures var p := PrevDiagonal(trace[d], offset, d, k); var pi, s := trace[d][offset + p], RoundStart(trace[d], offset, d, k);
            s == (if p == k + 1 then pi else pi + 1) && 0 <= s - k
            && (d == 0 ==> pi == 0 && p == 1)
            && (d > 0 ==> 0 <= pi && 0 <= pi - p && OnRound(d - 1, p)
                          && Snake(x, y, p, RoundStart(trace[d - 1], offset, d - 1, p), pi))
  {
    assert Saved(x, y, trace, offset, d);
    StartReachable(x, y, trace[d], offset, d, k);
    if d > 0 {
      var q := offset + PrevDiagonal(trace[d], offset, d, k);
      assert Extends(x, y, trace[d - 1], trace[d], offset, d - 1);
      assert OnRound(d - 1, q - offset);
      assert Furthest(x, y, d - 1, q - offset, trace[d][q]);
    }
  }

  /** One round walked back: down the snake to the round's start, then over
      the change that led to it. */
  method BackRound<T(==)>(ghost x: seq<T>, ghost y: seq<T>, pushed: seq<Op>, n: int, m: int, pi: int, pj: int, d: int, ghost c: int)
    returns (ops: seq<Op>)
    requires Suffix(pushed, x, y, n, m, c) && n <= |x| && m <= |y|
    requires var s := if pi - pj == n - m + 1 then pi else pi + 1;
             (pi - pj == n - m + 1 || pi - pj == n - m - 1) && 0 <= s - (n - m) && Snake(x, y, n - m, s, n)
    requires if d > 0 then 0 <= pi && 0 <= pj else pi == 0 && pj == -1
    ensures if d > 0 then Suffix(ops, x, y, pi, pj, c + 1) && pi <= n && pj <= m else Suffix(ops, x, y, 0, 0, c)
  {
    ops := pushed;
    var i, j := n, m;
    ghost var s := if pi - pj == n - m + 1 then pi else pi + 1;
    while i > pi && j > pj
      invariant i - j == n - m && s <= i <= n
      invariant Suffix(ops, x, y, i, j, c)
    {
      assert Shared(x, y, n - m, i - 1);
      i := i - 1;
      j := j - 1;
      PushStep(ops, x, y, i + 1, j + 1, c, Keep, i, j);
      ops := ops + [Keep];
    }
    if d > 0 {
      PushStep(ops, x, y, i, j, c, if i == pi then Ins else Del, pi, pj);
      ops := ops + [if i == pi then Ins else Del];
    }
  }

  /** The walk stands at the end of round `d`'s snake. */
  ghost predicate Stands<T>(x: seq<T>, y: seq<T>, trace: seq<seq<int>>, offset: int, d: int, i: int, j: int) {
    0 <= d < |trace| ==>
      i <= |x| && j <= |y| && Sized(trace[d], offset, d) && OnRound(d, i - j)
      && Snake(x, y, i - j, RoundStart(trace[d], offset, d, i - j), i)
  }

  /** From there the walk goes to the end of the snake of the round before. */
  lemma StandsBefore<T>(x: seq<T>, y: seq<T>, trace: seq<seq<int>>, offset: int, d: int, e: int, i: int, j: int, k: int, pi: int, pj: int)
    requires Traced(x, y, trace, offset) && 0 <= d < |trace| && e == d - 1 && k == i - j && Stands(x, y, trace, offset, d, i, j)
    requires Sized(trace[d], offset, d) && OnRound(d, k)
    requires var p := PrevDiagonal(trace[d], offset, d, k); pi == trace[d][offset + p] && pj == pi - p
    requires d > 0 ==> pi <= i && pj <= j
    ensures d > 0 ==> Stands(x, y, trace, offset, e, pi, pj)
  {
    PrevPoint(x, y, trace, offset, d, k);
  }

  /** What the walk needs of a round to go back through it. */
  lemma StandsReady<T>(x: seq<T>, y: seq<T>, trace: seq<seq<int>>, offset: int, d: int, i: int, j: int, k: int, p: int, pi: int, pj: int, s: int)
    requires Traced(x, y, trace, offset) && 0 <= d < |trace| && k == i - j && Stands(x, y, trace, offset, d, i, j)
    requires Sized(trace[d], offset, d) && OnRound(d, k) && p == PrevDiagonal(trace[d], offset, d, k)
    requires pi == trace[d][offset + p] && pj == pi - p && s == if p == k + 1 then pi else pi + 1
    ensures i <= |x| && j <= |y| && 0 <= s - k && Snake(x, y, k, s, i) && (p == k + 1 || p == k - 1)
    ensures if d > 0 then 0 <= pi && 0 <= pj else pi == 0 && pj == -1
  {
    PrevPoint(x, y, trace, offset, d, k);
  }

  /** The script walked back from the far corner, last step first, then
      reversed: it turns `x` into `y` with one change a round. */
  method Backtrack<T(==)>(ghost x: seq<T>, ghost y: seq<T>, trace: seq<seq<int>>, n: nat, m: nat, offset: nat)
    returns (ops: seq<Op>)
    requires n == |x| && m == |y|
    requires trace != [] && Traced(x, y, trace, offset) && Sized(trace[|trace| - 1], offset, |trace| - 1)
    requires OnRound(|trace| - 1, n - m)
    requires Snake(x, y, n - m, RoundStart(trace[|trace| - 1], offset, |trace| - 1, n - m), n)
    ensures Edits(ops, x, y, 0, 0) && Cost(ops) == |trace| - 1
  {
    ops := [];
    var i: int, j: int := n, m;
    var d := |trace| - 1;
    ghost var c := 0;
    while d >= 0
      invariant -1 <= d < |trace| && c == if d < 0 then |trace| - 1 else |trace| - 1 - d
      invariant Stands(x, y, trace, offset, d, i, j)
      invariant if d < 0 then Suffix(ops, x, y, 0, 0, c) else Suffix(ops, x, y, i, j, c)
    {
      var v := trace[d];
      var k := i - j;
      var prevK := if k == -d || (k != d && v[offset + k - 1] < v[offset + k + 1]) then k + 1 else k - 1;
      var pi := v[offset + prevK];
      var pj := pi - prevK;
      ghost var s := if prevK == k + 1 then pi else pi + 1;
      StandsReady(x, y, trace, offset, d, i, j, k, prevK, pi, pj, s);
      ops := BackRound(x, y, ops, i, j, pi, pj, d, c);
      ghost var e := d - 1;
      StandsBefore(x, y, trace, offset, d, e, i, j, k, pi, pj);
      i := pi;
      j := pj;
      c := if d > 0 then c + 1 else c;
      d := d - 1;
    }
    ops := Reversed(ops);
  }

  /** What round `d` has done to the frontier `v` once diagonals below `k` are
      visited: each such diagonal of the round holds its furthest point,
      short of the corner, and every other entry is as before. */
  ghost predicate Partway<T>(x: seq<T>, y: seq<T>, before: seq<int>, v: seq<int>, offset: int, d: int, k: int)
  {
    Sized(before, offset, d) && |v| == |before| &&
    (forall p :: 0 <= p < |v| && !(OnRound(d, p - offset) && p - offset < k) ==> v[p] == before[p]) &&
    (forall p :: 0 <= p < |v| && OnRound(d, p - offset) && p - offset < k ==> Visited(x, y, before, v, offset, d, p))
  }

  /** Entry `p` of the frontier is its diagonal's furthest point, short of the
      corner. */
  ghost predicate Visited<T>(x: seq<T>, y: seq<T>, before: seq<int>, v: seq<int>, offset: int, d: int, p: int)
  {
    Sized(before, offset, d) && 0 <= p < |v| && OnRound(d, p - offset) &&
    Furthest(x, y, d, p - offset, v[p]) && Snake(x, y, p - offset, RoundStart(before, offset, d, p - offset), v[p]) &&
    (v[p] < |x| || v[p] - (p - offset) < |y|)
  }

  /** The inner loop: from a round's start down its diagonal over equal
      lines, to the diagonal's furthest point. */
  method Slide<T(==)>(x: seq<T>, y: seq<T>, ghost v: seq<int>, ghost offset: int, ghost d: int, k: int, start: int)
    returns (i: int)
    requires Sized(v, offset, d) && OnRound(d, k) && FrontierBefore(x, y, v, offset, d)
    requires start == RoundStart(v, offset, d, k)
    ensures Snake(x, y, k, start, i) && Furthest(x, y, d, k, i)
  {
    StartReachable(x, y, v, offset, d, k);
    i := start;
    var j := i - k;
    while i < |x| && j < |y| && x[i] == y[j]
      invariant j == i - k && Snake(x, y, k, start, i)
    {
      i := i + 1;
      j := j + 1;
    }
    GreedyFurthest(x, y, v, offset, d, k, i);
  }

  /** With the corner out of reach of fewer than `d` changes, no script has
      fewer. */
  lemma CheapestAt<T>(x: seq<T>, y: seq<T>, d: int)
    requires forall c :: 0 <= c < d ==> !Reach(x, y, c, |x|, |y|)
    ensures forall other :: Edits(other, x, y, 0, 0) ==> d <= Cost(other)
  {
    forall other | Edits(other, x, y, 0, 0)
      ensures d <= Cost(other)
    {
      ScriptReaches(other, x, y, 0, 0, 0);
    }
  }

  lemma PartwayStep<T>(x: seq<T>, y: seq<T>, before: seq<int>, v: seq<int>, offset: int, d: int, k: int, e: int)
    requires Partway(x, y, before, v, offset, d, k) && OnRound(d, k)
    requires Snake(x, y, k, RoundStart(before, offset, d, k), e) && Furthest(x, y, d, k, e)
    requires e < |x| || e - k < |y|
    ensures Partway(x, y, before, v[offset + k := e], offset, d, k + 2)
  {
    var w := v[offset + k := e];
    forall p | 0 <= p < |w| && OnRound(d, p - offset) && p - offset < k + 2
      ensures Visited(x, y, before, w, offset, d, p)
    {
      if p - offset != k {
        assert p - offset < k && Visited(x, y, before, v, offset, d, p);
      }
    }
  }

  lemma RoundDone<T>(x: seq<T>, y: seq<T>, before: seq<int>, v: seq<int>, offset: int, d: int, k: int)
    requires Partway(x, y, before, v, offset, d, k) && k > d
    ensures Frontier(x, y, v, offset, d) && Extends(x, y, before, v, offset, d)
    ensures !Reach(x, y, d, |x|, |y|)
  {
    forall p | 0 <= p < |v| && OnRound(d, p - offset)
      ensures Furthest(x, y, d, p - offset, v[p]) && Snake(x, y, p - offset, RoundStart(before, offset, d, p - offset), v[p])
      ensures v[p] < |x| || v[p] - (p - offset) < |y|
    {
      assert Visited(x, y, before, v, offset, d, p);
    }
    CornerUnreached(x, y, v, offset, d);
  }

  /** A round reads only the entries of the other parity, which it leaves. */
  lemma StartUntouched<T>(x: seq<T>, y: seq<T>, before: seq<int>, v: seq<int>, offset: int, d: int, k: int)
    requires Partway(x, y, before, v, offset, d, k) && OnRound(d, k)
    ensures RoundStart(v, offset, d, k) == RoundStart(before, offset, d, k)
  {
    RoundStride(d, k);
    var below, above := offset + k - 1, offset + k + 1;
    assert !OnRound(d, below - offset) && !OnRound(d, above - offset);
    assert v[below] == before[below] && v[above] == before[above];
  }

  lemma RoundStride(d: int, k: int)
    requires OnRound(d, k)
    ensures !OnRound(d, k - 1) && !OnRound(d, k + 1) && (k + 2 <= d ==> OnRound(d, k + 2))
  {
  }

  /** One round: every diagonal's furthest point, until one is the far
      corner. */
  method Round<T(==)>(x: seq<T>, y: seq<T>, v: array<int>, ghost trace: seq<seq<int>>, d: int, offset: int)
    returns (atCorner: bool)
    requires Ready(x, y, trace, v[..], offset) && d == |trace| < offset
    modifies v
    ensures atCorner ==> OnRound(d, |x| - |y|)
    ensures atCorner ==> Snake(x, y, |x| - |y|, RoundStart(old(v[..]), offset, d, |x| - |y|), |x|)
    ensures !atCorner ==> Ready(x, y, trace + [old(v[..])], v[..], offset)
  {
    ghost var before := v[..];
    var k := -d;
    while k <= d
      invariant k <= d ==> OnRound(d, k)
      invariant Partway(x, y, before, v[..], offset, d, k)
    {
      RoundStride(d, k);
      var start := if k == -d || (k != d && v[offset + k - 1] < v[offset + k + 1])
                   then v[offset + k + 1] else v[offset + k - 1] + 1;
      StartUntouched(x, y, before, v[..], offset, d, k);
      var i := Slide(x, y, before, offset, d, k, start);
      var j := i - k;
      if i >= |x| && j >= |y| {
        FirstPastIsCorner(x, y, d, i, j);
        v[offset + k] := i;
        return true;
      }
      PartwayStep(x, y, before, v[..], offset, d, k, i);
      ghost var stepped := v[..][offset + k := i];
      v[offset + k] := i;
      assert v[..] == stepped;
      k := k + 2;
    }
    RoundDone(x, y, before, v[..], offset, d, k);
    NextReady(x, y, trace, before, v[..], offset);
    return false;
  }

  /** The forward pass. It answers a script that turns `x` into `y` at the
      least cost any script has, and nothing exactly when that least cost is
      past `DIFF_MAX_EDITS`. */
  method Diff<T(==)>(x: seq<T>, y: seq<T>) returns (ops: Option<seq<Op>>)
    ensures ops.Some? ==> Edits(ops.value, x, y, 0, 0) && Cost(ops.value) <= DIFF_MAX_EDITS
    ensures ops.Some? ==> forall other :: Edits(other, x, y, 0, 0) ==> Cost(ops.value) <= Cost(other)
    ensures ops.None? ==> forall other :: Edits(other, x, y, 0, 0) ==> Cost(other) > DIFF_MAX_EDITS
    ensures |x| + |y| <= DIFF_MAX_EDITS ==> ops.Some?
  {
    var n, m := |x|, |y|;
    var offset := DIFF_MAX_EDITS + 1;
    var v := new int[2 * offset + 2](_ => 0);
    var trace: seq<seq<int>> := [];
    var last := if n + m < DIFF_MAX_EDITS then n + m else DIFF_MAX_EDITS;
    var d := 0;
    while d <= last
      invariant d <= last + 1 && |trace| == d && v.Length == 2 * offset + 2
      invariant Ready(x, y, trace, v[..], offset)
    {
      SaveFrontier(x, y, trace, v[..], offset);
      ghost var earlier := trace;
      trace := trace + [v[..]];
      var atCorner := Round(x, y, v, earlier, d, offset);
      if atCorner {
        var script := Backtrack(x, y, trace, n, m, offset);
        CheapestAt(x, y, d);
        return Some(script);
      }
      d := d + 1;
    }
    CornerReachable(x, y, n, m);
    CheapestAt(x, y, d);
    return None;
  }
}
