/// Replaced ranges: what an ordered list of them does to a sequence, and how
/// two lists side by side make one.

module Blocks {

  /** Lines `[aStart, aEnd)` of the old side, which are `dropped`, stand
      against lines `[bStart, bEnd)` of the new one, which are `made`. */
  datatype Block<T> = Block(aStart: int, aEnd: int, bStart: int, bEnd: int, dropped: seq<T>, made: seq<T>)

  /** Lines `[i, i')` of `x`, whose first line is numbered `xBase`, are lines
      `[j, j')` of `y`, whose first is `yBase`. */
  ghost predicate Same<T>(x: seq<T>, xBase: int, i: int, i': int, y: seq<T>, yBase: int, j: int, j': int)
  {
    xBase <= i <= i' <= xBase + |x| && yBase <= j <= j' <= yBase + |y| &&
    x[i - xBase..i' - xBase] == y[j - yBase..j' - yBase]
  }

  ghost predicate Fits<T>(b: Block<T>, x: seq<T>, y: seq<T>, aBase: int, bBase: int)
  {
    Same(x, aBase, b.aStart, b.aEnd, b.dropped, 0, 0, |b.dropped|) &&
    Same(y, bBase, b.bStart, b.bEnd, b.made, 0, 0, |b.made|)
  }

  /** Where what is left of a side before block `k` begins and ends: from the
      block before it, or the side's first line, to the block, or the side's
      end. */
  function EndA<T>(bs: seq<Block<T>>, k: int, aBase: int): int
    requires 0 <= k <= |bs|
  {
    if k == 0 then aBase else bs[k - 1].aEnd
  }

  function EndB<T>(bs: seq<Block<T>>, k: int, bBase: int): int
    requires 0 <= k <= |bs|
  {
    if k == 0 then bBase else bs[k - 1].bEnd
  }

  function StartA<T>(bs: seq<Block<T>>, k: int, aEnd: int): int
    requires 0 <= k <= |bs|
  {
    if k == |bs| then aEnd else bs[k].aStart
  }

  function StartB<T>(bs: seq<Block<T>>, k: int, bEnd: int): int
    requires 0 <= k <= |bs|
  {
    if k == |bs| then bEnd else bs[k].bStart
  }

  /** Block `k` fits, and what is left of the sides before it is the same. */
  ghost predicate PlacedAt<T>(bs: seq<Block<T>>, x: seq<T>, y: seq<T>, aBase: int, bBase: int, k: int)
  {
    0 <= k <= |bs| && (k < |bs| ==> Fits(bs[k], x, y, aBase, bBase)) &&
    Same(x, aBase, EndA(bs, k, aBase), StartA(bs, k, aBase + |x|), y, bBase, EndB(bs, k, bBase), StartB(bs, k, bBase + |y|))
  }

  /** The blocks stand in order, and with both sides the same line for line
      outside them are all the difference between `x` and `y`, whose first
      lines are numbered `aBase` and `bBase`. */
  ghost predicate PatchOf<T>(bs: seq<Block<T>>, x: seq<T>, y: seq<T>, aBase: int, bBase: int)
  {
    forall k :: 0 <= k <= |bs| ==> PlacedAt(bs, x, y, aBase, bBase, k)
  }

  datatype Patched<T> = Rejected | Applied(lines: seq<T>)

  /** One block of the patch program, `at` the line it has come to: it copies
      `x` up to the block, checks the lines to drop against `x` and puts down
      the new lines. */
  function ApplyOne<T(==)>(done: Patched<T>, b: Block<T>, at: int, x: seq<T>, aBase: int): Patched<T> {
    if done.Rejected? || !(aBase <= at <= b.aStart <= b.aEnd <= aBase + |x|) then Rejected
    else if b.dropped != x[b.aStart - aBase..b.aEnd - aBase] then Rejected
    else Applied(done.lines + x[at - aBase..b.aStart - aBase] + b.made)
  }

  /** The patch program over the first `n` blocks. It reads the blocks and `x`,
      never `y`. */
  function Apply<T(==)>(bs: seq<Block<T>>, n: nat, x: seq<T>, aBase: int): Patched<T>
    requires n <= |bs|
  {
    if n == 0 then Applied([]) else ApplyOne(Apply(bs, n - 1, x, aBase), bs[n - 1], EndA(bs, n - 1, aBase), x, aBase)
  }

  function Patch<T(==)>(bs: seq<Block<T>>, x: seq<T>, aBase: int): Patched<T>
  {
    var done, at := Apply(bs, |bs|, x, aBase), EndA(bs, |bs|, aBase);
    if done.Rejected? || !(aBase <= at <= aBase + |x|) then Rejected else Applied(done.lines + x[at - aBase..])
  }

  lemma Join3<T>(y: seq<T>, i: int, j: int, k: int)
    requires 0 <= i <= j <= k <= |y|
    ensures y[..i] + y[i..j] + y[j..k] == y[..k]
  {
  }

  lemma WholeOf<T>(y: seq<T>, i: int)
    requires 0 <= i <= |y|
    ensures y[i..] == y[i..|y|] && y[..i] + y[i..|y|] == y
  {
  }

  /** A block that fits, put down where the new side's lines have come to. */
  lemma ApplyFits<T>(b: Block<T>, at: int, x: seq<T>, y: seq<T>, aBase: int, bBase: int, to: int, from: int, upto: int)
    requires Fits(b, x, y, aBase, bBase) && Same(x, aBase, at, b.aStart, y, bBase, bBase + to, b.bStart)
    requires from == b.bStart - bBase && upto == b.bEnd - bBase
    ensures 0 <= to <= upto <= |y| && ApplyOne(Applied(y[..to]), b, at, x, aBase) == Applied(y[..upto])
  {
    FitsRanges(b, x, y, aBase, bBase);
    Join3(y, to, from, upto);
  }

  lemma FitsRanges<T>(b: Block<T>, x: seq<T>, y: seq<T>, aBase: int, bBase: int)
    requires Fits(b, x, y, aBase, bBase)
    ensures aBase <= b.aStart <= b.aEnd <= aBase + |x| && b.dropped == x[b.aStart - aBase..b.aEnd - aBase]
    ensures bBase <= b.bStart <= b.bEnd <= bBase + |y| && b.made == y[b.bStart - bBase..b.bEnd - bBase]
  {
    assert b.dropped == b.dropped[0..|b.dropped|] && b.made == b.made[0..|b.made|];
  }

  lemma OneApplies<T>(bs: seq<Block<T>>, m: nat, x: seq<T>, y: seq<T>, aBase: int, bBase: int, to: int, upto: int, done: Patched<T>)
    requires PatchOf(bs, x, y, aBase, bBase) && m < |bs|
    requires to == EndB(bs, m, bBase) - bBase && upto == bs[m].bEnd - bBase && 0 <= to <= |y| && done == Applied(y[..to])
    ensures 0 <= upto <= |y| && ApplyOne(done, bs[m], EndA(bs, m, aBase), x, aBase) == Applied(y[..upto])
  {
    assert PlacedAt(bs, x, y, aBase, bBase, m);
    var at, from := EndA(bs, m, aBase), bs[m].bStart - bBase;
    ApplyFits(bs[m], at, x, y, aBase, bBase, to, from, upto);
  }

  lemma ApplyNext<T>(bs: seq<Block<T>>, m: nat, n: nat, x: seq<T>, aBase: int, done: Patched<T>, next: Patched<T>)
    requires n == m + 1 <= |bs| && done == Apply(bs, m, x, aBase) && next == ApplyOne(done, bs[m], EndA(bs, m, aBase), x, aBase)
    ensures Apply(bs, n, x, aBase) == next
  {
  }

  lemma PrefixNext<T>(bs: seq<Block<T>>, m: nat, n: nat, x: seq<T>, y: seq<T>, aBase: int, bBase: int, to: int, upto: int, done: Patched<T>)
    requires PatchOf(bs, x, y, aBase, bBase) && n == m + 1 <= |bs| && to == EndB(bs, m, bBase) - bBase && upto == EndB(bs, n, bBase) - bBase
    requires 0 <= to <= |y| && done == Applied(y[..to]) && done == Apply(bs, m, x, aBase)
    ensures 0 <= upto <= |y| && Apply(bs, n, x, aBase) == Applied(y[..upto])
  {
    OneApplies(bs, m, x, y, aBase, bBase, to, upto, done);
    ApplyNext(bs, m, n, x, aBase, done, Applied(y[..upto]));
  }

  lemma {:induction false} PrefixApplies<T>(bs: seq<Block<T>>, n: nat, x: seq<T>, y: seq<T>, aBase: int, bBase: int, upto: int)
    requires PatchOf(bs, x, y, aBase, bBase) && n <= |bs| && upto == EndB(bs, n, bBase) - bBase
    ensures 0 <= upto <= |y| && Apply(bs, n, x, aBase) == Applied(y[..upto])
    decreases n
  {
    if n == 0 {
      assert y[..upto] == [];
    } else {
      var m := n - 1;
      var to := EndB(bs, m, bBase) - bBase;
      PrefixApplies(bs, m, x, y, aBase, bBase, to);
      PrefixNext(bs, m, n, x, y, aBase, bBase, to, upto, Applied(y[..to]));
    }
  }

  /** The patch theorem: a patch of `x` and `y`, applied to `x`, gives `y`. */
  lemma PatchApplies<T>(bs: seq<Block<T>>, x: seq<T>, y: seq<T>, aBase: int, bBase: int)
    requires PatchOf(bs, x, y, aBase, bBase)
    ensures Patch(bs, x, aBase) == Applied(y)
  {
    var a, b := EndA(bs, |bs|, aBase) - aBase, EndB(bs, |bs|, bBase) - bBase;
    PrefixApplies(bs, |bs|, x, y, aBase, bBase, b);
    assert 0 <= a <= |x| && x[a..|x|] == y[b..|y|] by {
      assert PlacedAt(bs, x, y, aBase, bBase, |bs|);
    }
    WholeOf(x, a);
    WholeOf(y, b);
  }

  /** Blocks in order are disjoint on both sides. */
  lemma {:induction false} PatchOrdered<T>(bs: seq<Block<T>>, x: seq<T>, y: seq<T>, aBase: int, bBase: int, p: int, q: int)
    requires PatchOf(bs, x, y, aBase, bBase) && 0 <= p < q < |bs|
    ensures bs[p].aStart <= bs[p].aEnd <= bs[q].aStart <= bs[q].aEnd
    ensures bs[p].bStart <= bs[p].bEnd <= bs[q].bStart <= bs[q].bEnd
    decreases q
  {
    assert PlacedAt(bs, x, y, aBase, bBase, p) && PlacedAt(bs, x, y, aBase, bBase, q);
    if p < q - 1 {
      PatchOrdered(bs, x, y, aBase, bBase, p, q - 1);
    }
  }

  // Two patches side by side.

  lemma Middle<T>(p: seq<T>, q: seq<T>, r: seq<T>)
    ensures (p + q + r)[..|p|] == p && (p + q + r)[|p|..|p| + |q|] == q && (p + q + r)[|p| + |q|..] == r
  {
  }

  lemma SameWider<T>(x: seq<T>, xBase: int, i: int, i': int, y: seq<T>, yBase: int, j: int, j': int, x': seq<T>, y': seq<T>)
    requires Same(x, xBase, i, i', y, yBase, j, j')
    ensures Same(x + x', xBase, i, i', y, yBase, j, j') && Same(x + x', xBase, i, i', y + y', yBase, j, j')
  {
    assert (x + x')[i - xBase..i' - xBase] == x[i - xBase..i' - xBase];
    assert (y + y')[j - yBase..j' - yBase] == y[j - yBase..j' - yBase];
  }

  lemma SameAfter<T>(x0: seq<T>, x: seq<T>, xBase: int, xMid: int, i: int, i': int,
                     y0: seq<T>, y: seq<T>, yBase: int, yMid: int, j: int, j': int)
    requires xMid == xBase + |x0| && yMid == yBase + |y0| && Same(x, xMid, i, i', y, yMid, j, j')
    ensures Same(x0 + x, xBase, i, i', y0 + y, yBase, j, j') && Same(x0 + x, xBase, i, i', y, yMid, j, j')
  {
    var p, p', q, q' := i - xMid, i' - xMid, j - yMid, j' - yMid;
    assert (x0 + x)[|x0| + p..|x0| + p'] == x[p..p'];
    assert (y0 + y)[|y0| + q..|y0| + q'] == y[q..q'];
  }

  lemma SameAcross<T>(x: seq<T>, xBase: int, i: int, y: seq<T>, yBase: int, j: int, x': seq<T>, xMid: int, i': int, y': seq<T>, yMid: int, j': int)
    requires xMid == xBase + |x| && yMid == yBase + |y|
    requires Same(x, xBase, i, xMid, y, yBase, j, yMid) && Same(x', xMid, xMid, i', y', yMid, yMid, j')
    ensures Same(x + x', xBase, i, i', y + y', yBase, j, j')
  {
    var p, p', q, q' := i - xBase, i' - xMid, j - yBase, j' - yMid;
    assert (x + x')[p..|x| + p'] == x[p..|x|] + x'[0..p'];
    assert (y + y')[q..|y| + q'] == y[q..|y|] + y'[0..q'];
  }

  lemma PlacedBy<T>(bs: seq<Block<T>>, x: seq<T>, y: seq<T>, aBase: int, bBase: int, k: int, a: int, a': int, b: int, b': int)
    requires 0 <= k <= |bs| && (k < |bs| ==> Fits(bs[k], x, y, aBase, bBase))
    requires a == EndA(bs, k, aBase) && a' == StartA(bs, k, aBase + |x|) && b == EndB(bs, k, bBase) && b' == StartB(bs, k, bBase + |y|)
    requires Same(x, aBase, a, a', y, bBase, b, b')
    ensures PlacedAt(bs, x, y, aBase, bBase, k)
  {
  }

  lemma FitsWider<T>(b: Block<T>, x: seq<T>, y: seq<T>, x': seq<T>, y': seq<T>, aBase: int, bBase: int)
    requires Fits(b, x, y, aBase, bBase)
    ensures Fits(b, x + x', y + y', aBase, bBase)
  {
    SameWider(x, aBase, b.aStart, b.aEnd, b.dropped, 0, 0, |b.dropped|, x', []);
    SameWider(y, bBase, b.bStart, b.bEnd, b.made, 0, 0, |b.made|, y', []);
  }

  lemma FitsAfter<T>(b: Block<T>, x: seq<T>, y: seq<T>, x': seq<T>, y': seq<T>, aBase: int, bBase: int, aMid: int, bMid: int)
    requires aMid == aBase + |x| && bMid == bBase + |y| && Fits(b, x', y', aMid, bMid)
    ensures Fits(b, x + x', y + y', aBase, bBase)
  {
    SameAfter(x, x', aBase, aMid, b.aStart, b.aEnd, [], b.dropped, 0, 0, 0, |b.dropped|);
    SameAfter(y, y', bBase, bMid, b.bStart, b.bEnd, [], b.made, 0, 0, 0, |b.made|);
  }

  /** A patch of one part and a patch of the next, numbered on from the first,
      are together a patch of both. */
  lemma PatchConcat<T>(p: seq<Block<T>>, q: seq<Block<T>>, x: seq<T>, y: seq<T>,
                       x': seq<T>, y': seq<T>, aBase: int, bBase: int, aMid: int, bMid: int)
    requires aMid == aBase + |x| && bMid == bBase + |y|
    requires PatchOf(p, x, y, aBase, bBase) && PatchOf(q, x', y', aMid, bMid)
    ensures PatchOf(p + q, x + x', y + y', aBase, bBase)
  {
    forall k | 0 <= k <= |p + q|
      ensures PlacedAt(p + q, x + x', y + y', aBase, bBase, k)
    {
      if k < |p| {
        BeforeJoin(p, q, x, y, x', y', aBase, bBase, k);
      } else if k == |p| {
        AtJoin(p, q, x, y, x', y', aBase, bBase, aMid, bMid);
      } else {
        AfterJoin(p, q, x, y, x', y', aBase, bBase, aMid, bMid, k);
      }
    }
  }

  lemma BeforeJoin<T>(p: seq<Block<T>>, q: seq<Block<T>>, x: seq<T>, y: seq<T>, x': seq<T>, y': seq<T>, aBase: int, bBase: int, k: int)
    requires PatchOf(p, x, y, aBase, bBase) && 0 <= k < |p|
    ensures PlacedAt(p + q, x + x', y + y', aBase, bBase, k)
  {
    assert PlacedAt(p, x, y, aBase, bBase, k);
    FitsWider(p[k], x, y, x', y', aBase, bBase);
    SameWider(x, aBase, EndA(p, k, aBase), p[k].aStart, y, bBase, EndB(p, k, bBase), p[k].bStart, x', y');
    assert EndA(p + q, k, aBase) == EndA(p, k, aBase) && EndB(p + q, k, bBase) == EndB(p, k, bBase);
  }

  lemma SameAtJoin<T>(p: seq<Block<T>>, q: seq<Block<T>>, x: seq<T>, y: seq<T>, x': seq<T>, y': seq<T>,
                      aBase: int, bBase: int, aMid: int, bMid: int)
    requires aMid == aBase + |x| && bMid == bBase + |y|
    requires PlacedAt(p, x, y, aBase, bBase, |p|) && PlacedAt(q, x', y', aMid, bMid, 0)
    ensures Same(x + x', aBase, EndA(p, |p|, aBase), StartA(q, 0, aMid + |x'|), y + y', bBase, EndB(p, |p|, bBase), StartB(q, 0, bMid + |y'|))
  {
    LastSame(p, x, y, aBase, bBase, aMid, bMid);
    FirstSame(q, x', y', aMid, bMid);
    SameAcross(x, aBase, EndA(p, |p|, aBase), y, bBase, EndB(p, |p|, bBase),
      x', aMid, StartA(q, 0, aMid + |x'|), y', bMid, StartB(q, 0, bMid + |y'|));
  }

  lemma LastSame<T>(p: seq<Block<T>>, x: seq<T>, y: seq<T>, aBase: int, bBase: int, aEnd: int, bEnd: int)
    requires PlacedAt(p, x, y, aBase, bBase, |p|) && aEnd == aBase + |x| && bEnd == bBase + |y|
    ensures Same(x, aBase, EndA(p, |p|, aBase), aEnd, y, bBase, EndB(p, |p|, bBase), bEnd)
  {
  }

  lemma FirstSame<T>(q: seq<Block<T>>, x: seq<T>, y: seq<T>, aBase: int, bBase: int)
    requires PlacedAt(q, x, y, aBase, bBase, 0)
    ensures Same(x, aBase, aBase, StartA(q, 0, aBase + |x|), y, bBase, bBase, StartB(q, 0, bBase + |y|))
  {
  }

  lemma JoinEnds<T>(p: seq<Block<T>>, q: seq<Block<T>>, aBase: int, bBase: int, aEnd: int, bEnd: int)
    ensures EndA(p + q, |p|, aBase) == EndA(p, |p|, aBase) && EndB(p + q, |p|, bBase) == EndB(p, |p|, bBase)
    ensures StartA(p + q, |p|, aEnd) == StartA(q, 0, aEnd) && StartB(p + q, |p|, bEnd) == StartB(q, 0, bEnd)
    ensures q != [] ==> (p + q)[|p|] == q[0]
  {
  }

  lemma AtJoin<T>(p: seq<Block<T>>, q: seq<Block<T>>, x: seq<T>, y: seq<T>, x': seq<T>, y': seq<T>,
                  aBase: int, bBase: int, aMid: int, bMid: int)
    requires aMid == aBase + |x| && bMid == bBase + |y|
    requires PatchOf(p, x, y, aBase, bBase) && PatchOf(q, x', y', aMid, bMid)
    ensures PlacedAt(p + q, x + x', y + y', aBase, bBase, |p|)
  {
    assert PlacedAt(p, x, y, aBase, bBase, |p|) && PlacedAt(q, x', y', aMid, bMid, 0);
    if q != [] {
      FitsAfter(q[0], x, y, x', y', aBase, bBase, aMid, bMid);
    }
    SameAtJoin(p, q, x, y, x', y', aBase, bBase, aMid, bMid);
    assert aBase + |x + x'| == aMid + |x'| && bBase + |y + y'| == bMid + |y'|;
    JoinEnds(p, q, aBase, bBase, aMid + |x'|, bMid + |y'|);
    PlacedBy(p + q, x + x', y + y', aBase, bBase, |p|,
      EndA(p, |p|, aBase), StartA(q, 0, aMid + |x'|), EndB(p, |p|, bBase), StartB(q, 0, bMid + |y'|));
  }

  lemma AfterJoin<T>(p: seq<Block<T>>, q: seq<Block<T>>, x: seq<T>, y: seq<T>, x': seq<T>, y': seq<T>,
                     aBase: int, bBase: int, aMid: int, bMid: int, k: int)
    requires aMid == aBase + |x| && bMid == bBase + |y|
    requires PatchOf(q, x', y', aMid, bMid) && |p| < k <= |p + q|
    ensures PlacedAt(p + q, x + x', y + y', aBase, bBase, k)
  {
    var j := k - |p|;
    assert PlacedAt(q, x', y', aMid, bMid, j);
    if j < |q| {
      FitsAfter(q[j], x, y, x', y', aBase, bBase, aMid, bMid);
    }
    SameAfter(x, x', aBase, aMid, EndA(q, j, aMid), StartA(q, j, aMid + |x'|), y, y', bBase, bMid, EndB(q, j, bMid), StartB(q, j, bMid + |y'|));
    PlacedBy(p + q, x + x', y + y', aBase, bBase, k, EndA(q, j, aMid), StartA(q, j, aMid + |x'|), EndB(q, j, bMid), StartB(q, j, bMid + |y'|));
  }
}
