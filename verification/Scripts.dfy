/// Pieces of an edit script, and the hunk body each piece spells.

module Scripts {
  import opened EditScript
  import opened Hunks
  import Lines
  import opened Sequences

  /** The lines before step `t` on each side. */
  function A(ops: seq<Op>, t: int): nat
    requires 0 <= t <= |ops|
  {
    OldLen(ops[..t])
  }

  function B(ops: seq<Op>, t: int): nat
    requires 0 <= t <= |ops|
  {
    NewLen(ops[..t])
  }

  lemma {:induction false} LenAppend(p: seq<Op>, q: seq<Op>)
    ensures OldLen(p + q) == OldLen(p) + OldLen(q) && NewLen(p + q) == NewLen(p) + NewLen(q)
  {
    if p == [] {
      assert p + q == q;
    } else {
      assert (p + q)[1..] == p[1..] + q;
      LenAppend(p[1..], q);
    }
  }

  lemma {:induction false} StepsAppend<T>(p: seq<Op>, q: seq<Op>, x: seq<T>, y: seq<T>, i: int, j: int)
    ensures Steps(p + q, x, y, i, j) <==> Steps(p, x, y, i, j) && Steps(q, x, y, i + OldLen(p), j + NewLen(p))
  {
    if p == [] {
      assert p + q == q;
    } else {
      assert (p + q)[1..] == p[1..] + q && (p + q)[0] == p[0];
      StepsAppend(p[1..], q, x, y, NextA(p[0], i), NextB(p[0], j));
    }
  }

  /** The step at `t` and the lines each side has passed after it. */
  lemma StepAt(ops: seq<Op>, t: int)
    requires 0 <= t < |ops|
    ensures A(ops, t + 1) == NextA(ops[t], A(ops, t)) && B(ops, t + 1) == NextB(ops[t], B(ops, t))
  {
    assert ops[..t + 1] == ops[..t] + [ops[t]];
    LenAppend(ops[..t], [ops[t]]);
    OneStep(ops[t]);
  }

  lemma OneStep(op: Op)
    ensures OldLen([op]) == (if op == Ins then 0 else 1) && NewLen([op]) == (if op == Del then 0 else 1)
  {
    assert [op][1..] == [];
  }

  lemma StepsFrom<T>(ops: seq<Op>, x: seq<T>, y: seq<T>, t: int)
    requires Steps(ops, x, y, 0, 0) && 0 <= t <= |ops|
    ensures Steps(ops[t..], x, y, A(ops, t), B(ops, t))
  {
    assert ops == ops[..t] + ops[t..];
    StepsAppend(ops[..t], ops[t..], x, y, 0, 0);
  }

  /** A script carries over to sides that hold its own in the middle. */
  lemma {:induction false} StepsShift<T>(ops: seq<Op>, xs: seq<T>, ys: seq<T>, x: seq<T>, y: seq<T>, d: int, i: int, j: int)
    requires Steps(ops, xs, ys, i, j) && 0 <= d && d + |xs| <= |x| && d + |ys| <= |y|
    requires forall k :: 0 <= k < |xs| ==> xs[k] == x[d + k]
    requires forall k :: 0 <= k < |ys| ==> ys[k] == y[d + k]
    ensures Steps(ops, x, y, d + i, d + j)
    decreases |ops|
  {
    if ops != [] {
      StepsShift(ops[1..], xs, ys, x, y, d, NextA(ops[0], i), NextB(ops[0], j));
    }
  }

  function Keeps(n: nat): (ops: seq<Op>)
    ensures |ops| == n && forall k :: 0 <= k < n ==> ops[k] == Keep
  {
    if n == 0 then [] else [Keep] + Keeps(n - 1)
  }

  ghost predicate AllKeep(ops: seq<Op>, lo: int, hi: int) {
    forall t :: lo <= t < hi && 0 <= t < |ops| ==> ops[t] == Keep
  }

  lemma SameOneOn<T>(x: seq<T>, y: seq<T>, i: nat, i': nat, j: nat, j': nat)
    requires i <= i' < |x| && j <= j' < |y| && x[i..i'] == y[j..j'] && x[i'] == y[j']
    ensures x[i..i' + 1] == y[j..j' + 1]
  {
    assert x[i..i' + 1] == x[i..i'] + [x[i']] && y[j..j' + 1] == y[j..j'] + [y[j']];
  }

  /** A run of kept lines passes as many lines of each side, and they are the
      same lines. */
  lemma {:induction false} KeepRun<T>(ops: seq<Op>, x: seq<T>, y: seq<T>, lo: int, hi: int)
    requires 0 <= lo <= hi <= |ops| && Steps(ops, x, y, 0, 0) && AllKeep(ops, lo, hi)
    ensures A(ops, hi) == A(ops, lo) + hi - lo <= |x| && B(ops, hi) == B(ops, lo) + hi - lo <= |y|
    ensures x[A(ops, lo)..A(ops, hi)] == y[B(ops, lo)..B(ops, hi)]
    decreases hi - lo
  {
    StepsFrom(ops, x, y, lo);
    if lo < hi {
      KeepRun(ops, x, y, lo, hi - 1);
      StepAt(ops, hi - 1);
      StepsFrom(ops, x, y, hi - 1);
      SameOneOn(x, y, A(ops, lo), A(ops, hi - 1), B(ops, lo), B(ops, hi - 1));
    }
  }

  /** A shared range of both sides is a script of kept lines. */
  lemma {:induction false} KeepsSteps<T>(n: nat, x: seq<T>, y: seq<T>, i: int, j: int)
    requires 0 <= i && i + n <= |x| && 0 <= j && j + n <= |y|
    requires forall k :: i <= k < i + n ==> x[k] == y[k - i + j]
    ensures Steps(Keeps(n), x, y, i, j) && OldLen(Keeps(n)) == NewLen(Keeps(n)) == n
    decreases n
  {
    if n > 0 {
      KeepsSteps(n - 1, x, y, i + 1, j + 1);
      assert Keeps(n)[1..] == Keeps(n - 1);
    }
  }

  lemma StepsJoin<T>(p: seq<Op>, q: seq<Op>, x: seq<T>, y: seq<T>, i: int, j: int, i': int, j': int)
    requires Steps(p, x, y, i, j) && i' == i + OldLen(p) && j' == j + NewLen(p) && Steps(q, x, y, i', j')
    ensures Steps(p + q, x, y, i, j) && i + OldLen(p + q) == i' + OldLen(q) && j + NewLen(p + q) == j' + NewLen(q)
  {
    StepsAppend(p, q, x, y, i, j);
    LenAppend(p, q);
  }

  lemma EditsJoin<T>(p: seq<Op>, q: seq<Op>, r: seq<Op>, x: seq<T>, y: seq<T>, i: int, j: int, i': int, j': int)
    requires Steps(p, x, y, 0, 0) && i == OldLen(p) && j == NewLen(p)
    requires Steps(q, x, y, i, j) && i' == i + OldLen(q) && j' == j + NewLen(q)
    requires Edits(r, x, y, i', j')
    ensures Edits(p + q + r, x, y, 0, 0)
  {
    StepsJoin(p, q, x, y, 0, 0, i, j);
    StepsJoin(p + q, r, x, y, 0, 0, i', j');
  }

  lemma CoreShift<T>(ops: seq<Op>, xs: seq<T>, ys: seq<T>, x: seq<T>, y: seq<T>, head: int, a: int, b: int)
    requires 0 <= head <= a <= |x| && head <= b <= |y| && xs == x[head..a] && ys == y[head..b]
    requires Edits(ops, xs, ys, 0, 0)
    ensures Steps(ops, x, y, head, head) && head + OldLen(ops) == a && head + NewLen(ops) == b
  {
    StepsShift(ops, xs, ys, x, y, head, 0, 0);
  }

  predicate HeadAt<T(==)>(x: seq<T>, y: seq<T>, k: int) {
    0 <= k < |x| && k < |y| && x[k] == y[k]
  }

  predicate TailAt<T(==)>(x: seq<T>, y: seq<T>, k: int) {
    0 <= k < |x| && k < |y| && x[|x| - 1 - k] == y[|y| - 1 - k]
  }

  /** The first `head` lines and the last `tail` are shared. */
  ghost predicate Ends<T>(x: seq<T>, y: seq<T>, head: int, tail: int)
  {
    0 <= head && 0 <= tail && head + tail <= |x| && head + tail <= |y| &&
    (forall k :: 0 <= k < head ==> HeadAt(x, y, k)) && (forall k :: 0 <= k < tail ==> TailAt(x, y, k))
  }

  /** A core's script, with the shared head and tail kept around it, is a
      script of the whole. */
  lemma WholeScript<T>(ops: seq<Op>, x: seq<T>, y: seq<T>, head: nat, tail: nat)
    requires Ends(x, y, head, tail)
    requires Edits(ops, x[head..|x| - tail], y[head..|y| - tail], 0, 0)
    ensures Edits(Keeps(head) + ops + Keeps(tail), x, y, 0, 0)
    ensures OldLen(Keeps(head)) == NewLen(Keeps(head)) == head
  {
    var a, b := |x| - tail, |y| - tail;
    forall k | 0 <= k < head
      ensures x[k] == y[k]
    {
      assert HeadAt(x, y, k);
    }
    forall k | a <= k < a + tail
      ensures x[k] == y[k - a + b]
    {
      assert TailAt(x, y, |x| - 1 - k);
    }
    KeepsSteps(head, x, y, 0, 0);
    CoreShift(ops, x[head..a], y[head..b], x, y, head, a, b);
    KeepsSteps(tail, x, y, a, b);
    EditsJoin(Keeps(head), ops, Keeps(tail), x, y, head, head, a, b);
  }

  lemma {:induction false} CostAppend(p: seq<Op>, q: seq<Op>)
    ensures Cost(p + q) == Cost(p) + Cost(q)
  {
    if p == [] {
      assert p + q == q;
    } else {
      assert (p + q)[1..] == p[1..] + q;
      CostAppend(p[1..], q);
    }
  }

  lemma {:induction false} KeepsFree(n: nat)
    ensures Cost(Keeps(n)) == 0
  {
    if n > 0 {
      KeepsFree(n - 1);
      assert Keeps(n)[1..] == Keeps(n - 1);
    }
  }

  lemma WholeCost(head: nat, core: seq<Op>, tail: nat)
    ensures Cost(Keeps(head) + core + Keeps(tail)) == Cost(core)
  {
    CostAppend(Keeps(head) + core, Keeps(tail));
    CostAppend(Keeps(head), core);
    KeepsFree(head);
    KeepsFree(tail);
  }

  /** The body line of a step taken at `i` and `j`. */
  ghost function LineAt(op: Op, x: seq<string>, y: seq<string>, i: int, j: int): HunkLine
    requires Legal(op, x, y, i, j)
  {
    HunkLine(op, if op == Ins then y[j] else x[i])
  }

  /** The body a piece of script spells from line `i` of `x` and `j` of `y`. */
  ghost function Lined(ops: seq<Op>, x: seq<string>, y: seq<string>, i: int, j: int): (body: seq<HunkLine>)
    requires Steps(ops, x, y, i, j)
  {
    if ops == [] then [] else
    [LineAt(ops[0], x, y, i, j)] + Lined(ops[1..], x, y, NextA(ops[0], i), NextB(ops[0], j))
  }

  lemma {:induction false} StepsBounds<T>(ops: seq<Op>, x: seq<T>, y: seq<T>, i: int, j: int)
    requires Steps(ops, x, y, i, j)
    ensures i + OldLen(ops) <= |x| && j + NewLen(ops) <= |y|
    decreases |ops|
  {
    if ops != [] {
      StepsBounds(ops[1..], x, y, NextA(ops[0], i), NextB(ops[0], j));
    }
  }

  lemma SidesCons(l: HunkLine, rest: seq<HunkLine>)
    ensures OldSide([l] + rest) == (if l.op == Ins then OldSide(rest) else [l.line] + OldSide(rest))
    ensures NewSide([l] + rest) == (if l.op == Del then NewSide(rest) else [l.line] + NewSide(rest))
  {
    assert ([l] + rest)[1..] == rest;
  }

  lemma TakeNext<T>(x: seq<T>, i: int, m: int, n: int)
    requires 0 <= i && m == i + 1 <= n <= |x|
    ensures x[i..n] == [x[i]] + x[m..n]
  {
  }

  lemma LinedFirst(ops: seq<Op>, op: Op, rest: seq<Op>, x: seq<string>, y: seq<string>, i: int, j: int, ia: int, jb: int)
    requires ops == [op] + rest && Legal(op, x, y, i, j) && ia == NextA(op, i) && jb == NextB(op, j) && Steps(rest, x, y, ia, jb)
    ensures Steps(ops, x, y, i, j) && Lined(ops, x, y, i, j) == [LineAt(op, x, y, i, j)] + Lined(rest, x, y, ia, jb)
  {
    assert ops[1..] == rest;
  }

  /** Its old lines are the range of `x` it passes. */
  lemma {:induction false} LinedOld(ops: seq<Op>, x: seq<string>, y: seq<string>, i: int, j: int, i': int)
    requires Steps(ops, x, y, i, j) && i' == i + OldLen(ops) <= |x|
    ensures OldSide(Lined(ops, x, y, i, j)) == x[i..i']
    decreases |ops|
  {
    if ops != [] {
      var op, rest, ia, jb := ops[0], ops[1..], NextA(ops[0], i), NextB(ops[0], j);
      assert ops == [op] + rest;
      LinedOld(rest, x, y, ia, jb, i');
      LinedFirst(ops, op, rest, x, y, i, j, ia, jb);
      SidesCons(LineAt(op, x, y, i, j), Lined(rest, x, y, ia, jb));
      if op != Ins {
        TakeNext(x, i, ia, i');
      }
    }
  }

  /** Its new lines are the range of `y`. */
  lemma {:induction false} LinedNew(ops: seq<Op>, x: seq<string>, y: seq<string>, i: int, j: int, j': int)
    requires Steps(ops, x, y, i, j) && j' == j + NewLen(ops) <= |y|
    ensures NewSide(Lined(ops, x, y, i, j)) == y[j..j']
    decreases |ops|
  {
    if ops != [] {
      var op, rest, ia, jb := ops[0], ops[1..], NextA(ops[0], i), NextB(ops[0], j);
      assert ops == [op] + rest;
      LinedNew(rest, x, y, ia, jb, j');
      LinedFirst(ops, op, rest, x, y, i, j, ia, jb);
      SidesCons(LineAt(op, x, y, i, j), Lined(rest, x, y, ia, jb));
      if op != Del {
        TakeNext(y, j, jb, j');
      }
    }
  }

  lemma LinedSides(ops: seq<Op>, x: seq<string>, y: seq<string>, i: int, j: int)
    requires Steps(ops, x, y, i, j)
    ensures i + OldLen(ops) <= |x| && j + NewLen(ops) <= |y|
    ensures OldSide(Lined(ops, x, y, i, j)) == x[i..i + OldLen(ops)]
    ensures NewSide(Lined(ops, x, y, i, j)) == y[j..j + NewLen(ops)]
  {
    StepsBounds(ops, x, y, i, j);
    LinedOld(ops, x, y, i, j, i + OldLen(ops));
    LinedNew(ops, x, y, i, j, j + NewLen(ops));
  }

  lemma {:induction false} LinedLikes(ops: seq<Op>, x: seq<string>, y: seq<string>, i: int, j: int)
    requires Steps(ops, x, y, i, j)
    requires forall k :: 0 <= k < |x| ==> Lines.LineLike(x[k])
    requires forall k :: 0 <= k < |y| ==> Lines.LineLike(y[k])
    ensures LineLikes(Lined(ops, x, y, i, j))
    decreases |ops|
  {
    if ops != [] {
      LinedLikes(ops[1..], x, y, NextA(ops[0], i), NextB(ops[0], j));
    }
  }

  lemma StepsPiece<T>(ops: seq<Op>, x: seq<T>, y: seq<T>, lo: int, hi: int)
    requires Steps(ops, x, y, 0, 0) && 0 <= lo <= hi <= |ops|
    ensures Steps(ops[lo..hi], x, y, A(ops, lo), B(ops, lo))
    ensures A(ops, hi) == A(ops, lo) + OldLen(ops[lo..hi]) && B(ops, hi) == B(ops, lo) + NewLen(ops[lo..hi])
  {
    StepsFrom(ops, x, y, lo);
    assert ops[lo..] == ops[lo..hi] + ops[hi..];
    StepsAppend(ops[lo..hi], ops[hi..], x, y, A(ops, lo), B(ops, lo));
    assert ops[..hi] == ops[..lo] + ops[lo..hi];
    LenAppend(ops[..lo], ops[lo..hi]);
  }

  /** The body steps `[lo, hi)` of a script spell. */
  ghost function Piece(ops: seq<Op>, x: seq<string>, y: seq<string>, lo: int, hi: int): seq<HunkLine>
    requires Steps(ops, x, y, 0, 0) && 0 <= lo <= hi <= |ops|
  {
    StepsPiece(ops, x, y, lo, hi);
    Lined(ops[lo..hi], x, y, A(ops, lo), B(ops, lo))
  }

  lemma PieceSides(ops: seq<Op>, x: seq<string>, y: seq<string>, lo: int, hi: int)
    requires Steps(ops, x, y, 0, 0) && 0 <= lo <= hi <= |ops|
    ensures A(ops, lo) <= A(ops, hi) <= |x| && B(ops, lo) <= B(ops, hi) <= |y|
    ensures OldSide(Piece(ops, x, y, lo, hi)) == x[A(ops, lo)..A(ops, hi)]
    ensures NewSide(Piece(ops, x, y, lo, hi)) == y[B(ops, lo)..B(ops, hi)]
  {
    StepsPiece(ops, x, y, lo, hi);
    LinedSides(ops[lo..hi], x, y, A(ops, lo), B(ops, lo));
  }

  lemma LegalAt<T>(ops: seq<Op>, x: seq<T>, y: seq<T>, t: int)
    requires Steps(ops, x, y, 0, 0) && 0 <= t < |ops|
    ensures Legal(ops[t], x, y, A(ops, t), B(ops, t))
  {
    StepsFrom(ops, x, y, t);
  }

  lemma {:induction false} LinedAppend(p: seq<Op>, q: seq<Op>, x: seq<string>, y: seq<string>, i: int, j: int, i': int, j': int)
    requires Steps(p, x, y, i, j) && i' == i + OldLen(p) && j' == j + NewLen(p) && Steps(q, x, y, i', j')
    ensures Steps(p + q, x, y, i, j)
    ensures Lined(p + q, x, y, i, j) == Lined(p, x, y, i, j) + Lined(q, x, y, i', j')
    decreases |p|
  {
    if p == [] {
      assert p + q == q;
    } else {
      var op, rest, ia, jb := p[0], p[1..], NextA(p[0], i), NextB(p[0], j);
      assert p == [op] + rest;
      Assoc([op], rest, q);
      LinedAppend(rest, q, x, y, ia, jb, i', j');
      LinedFirst(p, op, rest, x, y, i, j, ia, jb);
      LinedFirst(p + q, op, rest + q, x, y, i, j, ia, jb);
      Assoc([LineAt(op, x, y, i, j)], Lined(rest, x, y, ia, jb), Lined(q, x, y, i', j'));
    }
  }

  lemma {:induction false} LinedLength(ops: seq<Op>, x: seq<string>, y: seq<string>, i: int, j: int)
    requires Steps(ops, x, y, i, j)
    ensures |Lined(ops, x, y, i, j)| == |ops|
    decreases |ops|
  {
    if ops != [] {
      LinedLength(ops[1..], x, y, NextA(ops[0], i), NextB(ops[0], j));
    }
  }

  /** A script's whole body, one line a step. */
  ghost function Tape(ops: seq<Op>, x: seq<string>, y: seq<string>): (tape: seq<HunkLine>)
    requires Steps(ops, x, y, 0, 0)
    ensures |tape| == |ops|
  {
    LinedLength(ops, x, y, 0, 0);
    Lined(ops, x, y, 0, 0)
  }

  lemma TapeSplit(ops: seq<Op>, x: seq<string>, y: seq<string>, t: int)
    requires Steps(ops, x, y, 0, 0) && 0 <= t <= |ops|
    ensures Steps(ops[t..], x, y, A(ops, t), B(ops, t))
    ensures Tape(ops, x, y)[t..] == Lined(ops[t..], x, y, A(ops, t), B(ops, t))
  {
    assert ops == ops[..t] + ops[t..];
    StepsAppend(ops[..t], ops[t..], x, y, 0, 0);
    LinedAppend(ops[..t], ops[t..], x, y, 0, 0, A(ops, t), B(ops, t));
    LinedLength(ops[..t], x, y, 0, 0);
  }

  lemma TapeAt(ops: seq<Op>, x: seq<string>, y: seq<string>, t: int)
    requires Steps(ops, x, y, 0, 0) && 0 <= t < |ops|
    ensures Legal(ops[t], x, y, A(ops, t), B(ops, t))
    ensures Tape(ops, x, y)[t] == LineAt(ops[t], x, y, A(ops, t), B(ops, t))
  {
    TapeSplit(ops, x, y, t);
    assert Tape(ops, x, y)[t..][0] == Tape(ops, x, y)[t];
  }

  lemma PrefixPiece(p: seq<Op>, q: seq<Op>, x: seq<string>, y: seq<string>, i: int, j: int, i': int, j': int)
    requires Steps(p, x, y, i, j) && i' == i + OldLen(p) && j' == j + NewLen(p) && Steps(q, x, y, i', j')
    ensures Steps(p + q, x, y, i, j) && |Lined(p + q, x, y, i, j)| >= |p|
    ensures Lined(p + q, x, y, i, j)[..|p|] == Lined(p, x, y, i, j)
  {
    LinedAppend(p, q, x, y, i, j, i', j');
    LinedLength(p, x, y, i, j);
  }

  lemma SliceTwice<T>(s: seq<T>, lo: int, hi: int)
    requires 0 <= lo <= hi <= |s|
    ensures s[lo..][..hi - lo] == s[lo..hi]
  {
  }

  /** A piece of the tape is the piece of the script's own body. */
  lemma TapePiece(ops: seq<Op>, x: seq<string>, y: seq<string>, lo: int, hi: int)
    requires Steps(ops, x, y, 0, 0) && 0 <= lo <= hi <= |ops|
    ensures Tape(ops, x, y)[lo..hi] == Piece(ops, x, y, lo, hi)
  {
    TapeSplit(ops, x, y, lo);
    StepsPiece(ops, x, y, lo, hi);
    StepsFrom(ops, x, y, hi);
    var p, q, rest := ops[lo..hi], ops[hi..], ops[lo..];
    assert rest == p + q;
    PrefixPiece(p, q, x, y, A(ops, lo), B(ops, lo), A(ops, hi), B(ops, hi));
    SliceTwice(Tape(ops, x, y), lo, hi);
  }

  /** The partial edit that reaches a point inside the grid, as a script. */
  lemma {:induction false} ReachScript<T>(x: seq<T>, y: seq<T>, d: int, i: int, j: int) returns (ops: seq<Op>)
    requires Reach(x, y, d, i, j) && i <= |x| && j <= |y|
    ensures Steps(ops, x, y, 0, 0) && OldLen(ops) == i && NewLen(ops) == j && Cost(ops) == d
    decreases i + j
  {
    if d == 0 && i == 0 && j == 0 {
      ops := [];
    } else {
      var op, init: seq<Op> := Keep, [];
      if 0 < i <= |x| && 0 < j <= |y| && x[i - 1] == y[j - 1] && Reach(x, y, d, i - 1, j - 1) {
        init := ReachScript(x, y, d, i - 1, j - 1);
      } else if 0 < i && Reach(x, y, d - 1, i - 1, j) {
        op := Del;
        init := ReachScript(x, y, d - 1, i - 1, j);
      } else {
        op := Ins;
        init := ReachScript(x, y, d - 1, i, j - 1);
      }
      ops := init + [op];
      PushOne(init, op, x, y);
    }
  }

  lemma PushOne<T>(init: seq<Op>, op: Op, x: seq<T>, y: seq<T>)
    requires Steps(init, x, y, 0, 0) && Legal(op, x, y, OldLen(init), NewLen(init))
    ensures Steps(init + [op], x, y, 0, 0) && Cost(init + [op]) == Cost(init) + (if op == Keep then 0 else 1)
    ensures OldLen(init + [op]) == NextA(op, OldLen(init)) && NewLen(init + [op]) == NextB(op, NewLen(init))
  {
    assert [op][1..] == [];
    StepsAppend(init, [op], x, y, 0, 0);
    LenAppend(init, [op]);
    CostAppend(init, [op]);
    OneStep(op);
  }

  /** The far corner is reached in exactly the changes some script costs. */
  lemma CornerExactly<T>(x: seq<T>, y: seq<T>, d: int)
    ensures Reach(x, y, d, |x|, |y|) <==> exists ops :: Edits(ops, x, y, 0, 0) && Cost(ops) == d
  {
    if Reach(x, y, d, |x|, |y|) {
      var ops := ReachScript(x, y, d, |x|, |y|);
      assert Edits(ops, x, y, 0, 0);
    }
    if exists ops :: Edits(ops, x, y, 0, 0) && Cost(ops) == d {
      var ops :| Edits(ops, x, y, 0, 0) && Cost(ops) == d;
      ScriptReaches(ops, x, y, 0, 0, 0);
    }
  }
}
