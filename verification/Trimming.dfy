/// Trimming what two sides share at their ends costs no optimality: a least
/// script of the cores, with the ends kept, is a least script of the whole.

module Trimming {
  import opened EditScript

  /** No script of `x` and `y` has fewer changes. */
  ghost predicate Least<T>(ops: seq<Op>, x: seq<T>, y: seq<T>)
  {
    Edits(ops, x, y, 0, 0) && forall other :: Edits(other, x, y, 0, 0) ==> Cost(ops) <= Cost(other)
  }

  lemma Cons<T>(op: Op, ops: seq<Op>, x: seq<T>, y: seq<T>, i: int, j: int)
    requires Legal(op, x, y, i, j) && Edits(ops, x, y, NextA(op, i), NextB(op, j))
    ensures Edits([op] + ops, x, y, i, j) && Cost([op] + ops) == (if op == Keep then 0 else 1) + Cost(ops)
  {
    assert ([op] + ops)[1..] == ops;
  }

  lemma Uncons<T>(ops: seq<Op>, x: seq<T>, y: seq<T>, i: int, j: int)
    requires Edits(ops, x, y, i, j) && ops != []
    ensures Legal(ops[0], x, y, i, j) && Edits(ops[1..], x, y, NextA(ops[0], i), NextB(ops[0], j))
  {
  }

  /** A line of the new side less to make costs at most one change more. */
  lemma {:induction false} SkipNew<T>(ops: seq<Op>, x: seq<T>, y: seq<T>, i: int, j: int) returns (skip: seq<Op>)
    requires Edits(ops, x, y, i, j) && j < |y|
    ensures Edits(skip, x, y, i, j + 1) && Cost(skip) <= Cost(ops) + 1
    decreases |ops|
  {
    Uncons(ops, x, y, i, j);
    match ops[0]
    case Ins =>
      skip := ops[1..];
    case Keep =>
      skip := [Del] + ops[1..];
      Cons(Del, ops[1..], x, y, i, j + 1);
    case Del =>
      var rest := SkipNew(ops[1..], x, y, i + 1, j);
      skip := [Del] + rest;
      Cons(Del, rest, x, y, i, j + 1);
  }

  lemma {:induction false} SkipOld<T>(ops: seq<Op>, x: seq<T>, y: seq<T>, i: int, j: int) returns (skip: seq<Op>)
    requires Edits(ops, x, y, i, j) && i < |x|
    ensures Edits(skip, x, y, i + 1, j) && Cost(skip) <= Cost(ops) + 1
    decreases |ops|
  {
    Uncons(ops, x, y, i, j);
    match ops[0]
    case Del =>
      skip := ops[1..];
    case Keep =>
      skip := [Ins] + ops[1..];
      Cons(Ins, ops[1..], x, y, i + 1, j);
    case Ins =>
      var rest := SkipOld(ops[1..], x, y, i, j + 1);
      skip := [Ins] + rest;
      Cons(Ins, rest, x, y, i + 1, j);
  }

  /** A first line less on both sides costs no change more. */
  lemma SkipShared<T>(ops: seq<Op>, x: seq<T>, y: seq<T>, i: int, j: int) returns (skip: seq<Op>)
    requires Edits(ops, x, y, i, j) && i < |x| && j < |y|
    ensures Edits(skip, x, y, i + 1, j + 1) && Cost(skip) <= Cost(ops)
  {
    Uncons(ops, x, y, i, j);
    match ops[0]
    case Keep => skip := ops[1..];
    case Del => skip := SkipNew(ops[1..], x, y, i + 1, j);
    case Ins => skip := SkipOld(ops[1..], x, y, i, j + 1);
  }

  lemma {:induction false} SkipHead<T>(ops: seq<Op>, x: seq<T>, y: seq<T>, head: nat) returns (skip: seq<Op>)
    requires Edits(ops, x, y, 0, 0) && head <= |x| && head <= |y|
    ensures Edits(skip, x, y, head, head) && Cost(skip) <= Cost(ops)
    decreases head
  {
    if head == 0 {
      skip := ops;
    } else {
      skip := SkipHead(ops, x, y, head - 1);
      skip := SkipShared(skip, x, y, head - 1, head - 1);
    }
  }

  /** A script changes at least as many lines as it makes the side longer or
      shorter by. */
  lemma {:induction false} CostAtLeast(ops: seq<Op>)
    ensures Cost(ops) >= NewLen(ops) - OldLen(ops) && Cost(ops) >= OldLen(ops) - NewLen(ops)
  {
    if ops != [] {
      CostAtLeast(ops[1..]);
    }
  }

  function Changes(n: nat, op: Op): seq<Op> {
    if n == 0 then [] else [op] + Changes(n - 1, op)
  }

  lemma {:induction false} OnlyNew<T>(x: seq<T>, y: seq<T>, n: nat)
    requires n <= |y|
    ensures Edits(Changes(n, Ins), x, y, |x|, |y| - n) && Cost(Changes(n, Ins)) == n
  {
    if n > 0 {
      OnlyNew(x, y, n - 1);
      Cons(Ins, Changes(n - 1, Ins), x, y, |x|, |y| - n);
    }
  }

  lemma {:induction false} OnlyOld<T>(x: seq<T>, y: seq<T>, n: nat)
    requires n <= |x|
    ensures Edits(Changes(n, Del), x, y, |x| - n, |y|) && Cost(Changes(n, Del)) == n
  {
    if n > 0 {
      OnlyOld(x, y, n - 1);
      Cons(Del, Changes(n - 1, Del), x, y, |x| - n, |y|);
    }
  }

  /** Nor does a last line less on both sides. */
  lemma {:induction false} DropLast<T>(ops: seq<Op>, x: seq<T>, y: seq<T>, i: int, j: int) returns (drop: seq<Op>)
    requires Edits(ops, x, y, i, j) && i < |x| && j < |y|
    ensures Edits(drop, x[..|x| - 1], y[..|y| - 1], i, j) && Cost(drop) <= Cost(ops)
    decreases |ops|
  {
    var x', y' := x[..|x| - 1], y[..|y| - 1];
    CostAtLeast(ops);
    if i == |x'| {
      drop := Changes(|y'| - j, Ins);
      OnlyNew(x', y', |y'| - j);
    } else if j == |y'| {
      drop := Changes(|x'| - i, Del);
      OnlyOld(x', y', |x'| - i);
    } else {
      Uncons(ops, x, y, i, j);
      var rest := DropLast(ops[1..], x, y, NextA(ops[0], i), NextB(ops[0], j));
      assert Legal(ops[0], x', y', i, j);
      drop := [ops[0]] + rest;
      Cons(ops[0], rest, x', y', i, j);
    }
  }

  lemma {:induction false} DropTail<T>(ops: seq<Op>, x: seq<T>, y: seq<T>, i: int, j: int, tail: nat) returns (drop: seq<Op>)
    requires Edits(ops, x, y, i, j) && i + tail <= |x| && j + tail <= |y|
    ensures Edits(drop, x[..|x| - tail], y[..|y| - tail], i, j) && Cost(drop) <= Cost(ops)
    decreases tail
  {
    if tail == 0 {
      drop := ops;
      assert x[..|x|] == x && y[..|y|] == y;
    } else {
      var shorter := DropTail(ops, x, y, i, j, tail - 1);
      drop := DropLast(shorter, x[..|x| - tail + 1], y[..|y| - tail + 1], i, j);
      assert x[..|x| - tail + 1][..|x| - tail] == x[..|x| - tail] && y[..|y| - tail + 1][..|y| - tail] == y[..|y| - tail];
    }
  }

  lemma {:induction false} Unshift<T>(ops: seq<Op>, x: seq<T>, y: seq<T>, xs: seq<T>, ys: seq<T>, head: int, i: int, j: int)
    requires Edits(ops, x, y, head + i, head + j) && 0 <= head && 0 <= i && 0 <= j
    requires |x| == head + |xs| && |y| == head + |ys|
    requires forall k :: 0 <= k < |xs| ==> xs[k] == x[head + k]
    requires forall k :: 0 <= k < |ys| ==> ys[k] == y[head + k]
    ensures Edits(ops, xs, ys, i, j)
    decreases |ops|
  {
    if ops != [] {
      Unshift(ops[1..], x, y, xs, ys, head, NextA(ops[0], i), NextB(ops[0], j));
    }
  }

  /** Any script of the whole yields one of the cores that costs no more. */
  lemma CoreScript<T>(ops: seq<Op>, x: seq<T>, y: seq<T>, head: nat, tail: nat) returns (core: seq<Op>)
    requires Edits(ops, x, y, 0, 0) && head + tail <= |x| && head + tail <= |y|
    ensures Edits(core, x[head..|x| - tail], y[head..|y| - tail], 0, 0) && Cost(core) <= Cost(ops)
  {
    core := SkipHead(ops, x, y, head);
    core := DropTail(core, x, y, head, head, tail);
    Unshift(core, x[..|x| - tail], y[..|y| - tail], x[head..|x| - tail], y[head..|y| - tail], head, 0, 0);
  }

  /** A least script of the cores is, kept ends and all, least for the whole:
      trimming shared ends loses nothing. */
  lemma LeastWhole<T>(whole: seq<Op>, core: seq<Op>, x: seq<T>, y: seq<T>, head: nat, tail: nat)
    requires head + tail <= |x| && head + tail <= |y| && Least(core, x[head..|x| - tail], y[head..|y| - tail])
    requires Edits(whole, x, y, 0, 0) && Cost(whole) == Cost(core)
    ensures Least(whole, x, y)
  {
    forall other | Edits(other, x, y, 0, 0)
      ensures Cost(whole) <= Cost(other)
    {
      var cut := CoreScript(other, x, y, head, tail);
    }
  }
}
