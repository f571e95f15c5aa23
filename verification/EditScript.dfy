/// Edit scripts between two sequences, the meaning every diff result is
/// judged by, and the grid of partial edits Myers' search walks.

module EditScript {

  /** One step of a script: "=" keeps a line of both sides, "-" drops one of
      the old side, "+" adds one of the new side. */
  datatype Op = Keep | Del | Ins

  /** The line each side is at after a step taken at `i` (at `j`). */
  function NextA(op: Op, i: int): int {
    if op == Ins then i else i + 1
  }

  function NextB(op: Op, j: int): int {
    if op == Del then j else j + 1
  }

  /** A step can be taken from line `i` of `x` and line `j` of `y`: a kept line
      is the same on both sides. */
  ghost predicate Legal<T>(op: Op, x: seq<T>, y: seq<T>, i: int, j: int)
  {
    0 <= i <= NextA(op, i) <= |x| && 0 <= j <= NextB(op, j) <= |y| && (op == Keep ==> x[i] == y[j])
  }

  ghost predicate Steps<T>(ops: seq<Op>, x: seq<T>, y: seq<T>, i: int, j: int)
  {
    if ops == [] then 0 <= i <= |x| && 0 <= j <= |y|
    else Legal(ops[0], x, y, i, j) && Steps(ops[1..], x, y, NextA(ops[0], i), NextB(ops[0], j))
  }

  /** Lines of the old side (of the new side) a script passes. */
  function OldLen(ops: seq<Op>): nat
  {
    if ops == [] then 0 else (if ops[0] == Ins then 0 else 1) + OldLen(ops[1..])
  }

  function NewLen(ops: seq<Op>): nat
  {
    if ops == [] then 0 else (if ops[0] == Del then 0 else 1) + NewLen(ops[1..])
  }

  /** `ops` turns `x[i..]` into `y[j..]`. */
  ghost predicate Edits<T>(ops: seq<Op>, x: seq<T>, y: seq<T>, i: int, j: int)
  {
    Steps(ops, x, y, i, j) && i + OldLen(ops) == |x| && j + NewLen(ops) == |y|
  }

  /** What a script costs: its "-" and "+" steps. */
  ghost function Cost(ops: seq<Op>): nat
  {
    if ops == [] then 0 else (if ops[0] == Keep then 0 else 1) + Cost(ops[1..])
  }

  /** Some partial edit with exactly `d` changes ends at grid point `(i, j)`.
      Points outside the grid (`i > |x|` or `j > |y|`) are reached by changes
      alone, as the forward pass holds them. */
  ghost predicate Reach<T>(x: seq<T>, y: seq<T>, d: int, i: int, j: int)
    decreases i + j
  {
    0 <= d && 0 <= i && 0 <= j &&
    ( (d == 0 && i == 0 && j == 0)
    || (0 < i <= |x| && 0 < j <= |y| && x[i - 1] == y[j - 1] && Reach(x, y, d, i - 1, j - 1))
    || (0 < i && Reach(x, y, d - 1, i - 1, j))
    || (0 < j && Reach(x, y, d - 1, i, j - 1)))
  }

  /** A point `d` changes away lies on a diagonal of `d`'s parity in `-d..d`. */
  lemma {:induction false} ReachDiagonal<T>(x: seq<T>, y: seq<T>, d: int, i: int, j: int)
    requires Reach(x, y, d, i, j)
    ensures -d <= i - j <= d && (i - j + d) % 2 == 0
    decreases i + j
  {
    if d == 0 && i == 0 && j == 0 {
    } else if 0 < i <= |x| && 0 < j <= |y| && x[i - 1] == y[j - 1] && Reach(x, y, d, i - 1, j - 1) {
      ReachDiagonal(x, y, d, i - 1, j - 1);
    } else if 0 < i && Reach(x, y, d - 1, i - 1, j) {
      ReachDiagonal(x, y, d - 1, i - 1, j);
    } else {
      ReachDiagonal(x, y, d - 1, i, j - 1);
    }
  }

  /** A point past an edge of the grid is dearer than its nearest point
      inside by exactly the steps it overshot. */
  lemma {:induction false} ReachClamped<T>(x: seq<T>, y: seq<T>, d: int, i: int, j: int)
    requires Reach(x, y, d, i, j)
    ensures var a, b := if i < |x| then i else |x|, if j < |y| then j else |y|;
            Reach(x, y, d - (i - a) - (j - b), a, b)
    decreases i + j
  {
    if d == 0 && i == 0 && j == 0 {
    } else if 0 < i <= |x| && 0 < j <= |y| && x[i - 1] == y[j - 1] && Reach(x, y, d, i - 1, j - 1) {
    } else if 0 < i && Reach(x, y, d - 1, i - 1, j) {
      ReachClamped(x, y, d - 1, i - 1, j);
    } else {
      ReachClamped(x, y, d - 1, i, j - 1);
    }
  }

  /** No point `d` changes reach lies more than `d` past an edge, so a
      frontier entry never leaves a 32-bit integer for sides of fewer than
      2^31 - 513 lines. */
  lemma OvershootBounded<T>(x: seq<T>, y: seq<T>, d: int, i: int, j: int)
    requires Reach(x, y, d, i, j)
    ensures i <= |x| + d && j <= |y| + d
  {
    ReachClamped(x, y, d, i, j);
  }

  /** A whole script is a path through the grid: it reaches the far corner in
      exactly its cost. */
  lemma {:induction false} ScriptReaches<T>(ops: seq<Op>, x: seq<T>, y: seq<T>, c: int, i: int, j: int)
    requires Reach(x, y, c, i, j) && Edits(ops, x, y, i, j)
    ensures Reach(x, y, c + Cost(ops), |x|, |y|)
    decreases |ops|
  {
    if ops == [] {
    } else {
      match ops[0]
      case Keep => ScriptReaches(ops[1..], x, y, c, i + 1, j + 1);
      case Del => ScriptReaches(ops[1..], x, y, c + 1, i + 1, j);
      case Ins => ScriptReaches(ops[1..], x, y, c + 1, i, j + 1);
    }
  }

  /** The far corner is never more than `|x| + |y|` changes away. */
  lemma {:induction false} CornerReachable<T>(x: seq<T>, y: seq<T>, i: nat, j: nat)
    ensures Reach(x, y, i + j, i, j)
    decreases i + j
  {
    if i > 0 {
      CornerReachable(x, y, i - 1, j);
    } else if j > 0 {
      CornerReachable(x, y, i, j - 1);
    }
  }
}
