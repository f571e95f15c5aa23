/// The hunks of one window pair: shared ends trimmed, Myers' script of the
/// core grouped into hunks with context, and a core past the edit bound split
/// in halves (components/code-run-quickjs/diff.js).

module DiffRange {
  import opened Bounds
  import opened EditScript
  import opened Lines
  import opened Hunks
  import opened Scripts
  import Blocks
  import Myers
  import opened Trimming

  const DIFF_WINDOW_LINES: nat := 4096
  const DIFF_CONTEXT_LINES: nat := 3
  const DIFF_COARSE_MAX_LINES: nat := 128
  const DIFF_SPLIT_DEPTH: nat := 6
  const MERGE_GAP: nat := 2 * DIFF_CONTEXT_LINES

  // Spans of changes.

  /** Steps `[op0, op1)` of a script and the lines of each side they stand
      against. */
  datatype Span = Span(a0: int, b0: int, a1: int, b1: int, op0: int, op1: int)

  ghost predicate SpanOf(ops: seq<Op>, s: Span)
  {
    0 <= s.op0 < s.op1 <= |ops| && ops[s.op0] != Keep && ops[s.op1 - 1] != Keep &&
    s.a0 == A(ops, s.op0) && s.b0 == B(ops, s.op0) && s.a1 == A(ops, s.op1) && s.b1 == B(ops, s.op1)
  }

  ghost predicate ChangeWithin(ops: seq<Op>, t: int, gap: int)
  {
    exists u :: t <= u <= t + gap && 0 <= u < |ops| && ops[u] != Keep
  }

  /** No more than `gap` lines in a row are kept within `[lo, hi)`. */
  ghost predicate Tight(ops: seq<Op>, lo: int, hi: int, gap: int)
  {
    forall t :: lo <= t && t + gap < hi ==> ChangeWithin(ops, t, gap)
  }

  ghost function PrevEnd(spans: seq<Span>, q: int): int
    requires 0 <= q <= |spans|
  {
    if q == 0 then 0 else spans[q - 1].op1
  }

  /** Span `q` begins and ends with a change, keeps at most `gap` lines in a
      row inside, and stands more than `gap` kept lines past the one before. */
  ghost predicate SpanAt(ops: seq<Op>, spans: seq<Span>, q: int, gap: int)
  {
    0 <= q < |spans| && SpanOf(ops, spans[q]) && Tight(ops, spans[q].op0, spans[q].op1, gap) &&
    PrevEnd(spans, q) <= spans[q].op0 && AllKeep(ops, PrevEnd(spans, q), spans[q].op0) &&
    (q > 0 ==> spans[q].op0 - PrevEnd(spans, q) > gap)
  }

  /** The spans hold every change of the script before step `upto`. */
  ghost predicate SpanList(ops: seq<Op>, spans: seq<Span>, upto: int, gap: int)
  {
    (forall q :: 0 <= q < |spans| ==> SpanAt(ops, spans, q, gap)) &&
    0 <= PrevEnd(spans, |spans|) <= upto && AllKeep(ops, PrevEnd(spans, |spans|), upto)
  }

  lemma PushSpan(ops: seq<Op>, spans: seq<Span>, upto: int, gap: int, s: Span)
    requires SpanList(ops, spans, upto, gap) && SpanOf(ops, s) && Tight(ops, s.op0, s.op1, gap)
    requires upto <= s.op0 && AllKeep(ops, upto, s.op0)
    requires spans != [] ==> s.op0 - PrevEnd(spans, |spans|) > gap
    ensures SpanList(ops, spans + [s], s.op1, gap)
  {
    var more := spans + [s];
    forall q | 0 <= q < |more|
      ensures SpanAt(ops, more, q, gap)
    {
      if q < |spans| {
        assert SpanAt(ops, spans, q, gap);
        assert PrevEnd(more, q) == PrevEnd(spans, q);
      }
    }
  }

  lemma PopSpan(ops: seq<Op>, spans: seq<Span>, upto: int, gap: int)
    requires SpanList(ops, spans, upto, gap) && spans != []
    ensures SpanAt(ops, spans, |spans| - 1, gap)
    ensures SpanList(ops, spans[..|spans| - 1], spans[|spans| - 1].op0, gap)
  {
    var less := spans[..|spans| - 1];
    forall q | 0 <= q < |less|
      ensures SpanAt(ops, less, q, gap)
    {
      assert SpanAt(ops, spans, q, gap);
    }
    assert SpanAt(ops, spans, |spans| - 1, gap);
    if less != [] {
      assert SpanAt(ops, spans, |less| - 1, gap);
    }
  }

  lemma SingleChange(ops: seq<Op>, i: int)
    requires 0 <= i < |ops| && ops[i] != Keep
    ensures Tight(ops, i, i + 1, 0)
  {
    assert ChangeWithin(ops, i, 0);
  }

  lemma OneMoreChange(ops: seq<Op>, lo: int, i: int, n: int)
    requires 0 <= lo <= i < |ops| && n == i + 1 && ops[i] != Keep && Tight(ops, lo, i, 0)
    ensures Tight(ops, lo, n, 0)
  {
    assert ChangeWithin(ops, i, 0);
  }

  /** The first change of a run opens a span. */
  lemma OpenSpan(ops: seq<Op>, closed: seq<Span>, i: int, n: int, s: Span)
    requires SpanList(ops, closed, i, 0) && (closed != [] ==> closed[|closed| - 1].op1 < i)
    requires 0 <= i < |ops| && n == i + 1 && ops[i] != Keep
    requires s == Span(A(ops, i), B(ops, i), A(ops, n), B(ops, n), i, n)
    ensures SpanList(ops, closed + [s], n, 0)
  {
    SingleChange(ops, i);
    PushSpan(ops, closed, i, 0, s);
  }

  /** One more change lengthens the span it follows. */
  lemma GrowSpan(ops: seq<Op>, closed: seq<Span>, i: int, n: int, front: seq<Span>, last: Span, s: Span)
    requires SpanList(ops, closed, i, 0) && closed == front + [last] && last.op1 == i
    requires 0 <= i < |ops| && n == i + 1 && ops[i] != Keep && s == last.(a1 := A(ops, n), b1 := B(ops, n), op1 := n)
    ensures SpanList(ops, front + [s], n, 0) && last.a1 == A(ops, i) && last.b1 == B(ops, i)
  {
    PopSpan(ops, closed, i, 0);
    assert front == closed[..|closed| - 1];
    OneMoreChange(ops, last.op0, i, n);
    PushSpan(ops, front, last.op0, 0, s);
  }

  /** The spans of a script: its runs of changes, as a scan of its steps
      finds them. */
  method ChangeSpans(ops: seq<Op>) returns (spans: seq<Span>)
    ensures SpanList(ops, spans, |ops|, 0)
  {
    spans := [];
    var ai, bi, open := 0, 0, false;
    ghost var done: seq<Span>, last := [], Span(0, 0, 0, 0, 0, 0);
    var i := 0;
    while i < |ops|
      invariant 0 <= i <= |ops| && ai == A(ops, i) && bi == B(ops, i)
      invariant !open ==> spans == done
      invariant open ==> spans == done + [last.(op1 := |ops|)] && last.op1 == i
      invariant SpanList(ops, if open then done + [last] else done, i, 0)
      invariant !open && done != [] ==> done[|done| - 1].op1 < i
    {
      var op := ops[i];
      ghost var n := i + 1;
      StepAt(ops, i);
      if op == Keep {
        if open {
          spans := spans[|spans| - 1 := spans[|spans| - 1].(op1 := i)];
          done := done + [last];
          open := false;
        }
        ai := ai + 1;
        bi := bi + 1;
      } else {
        ghost var to := Span(ai, bi, A(ops, n), B(ops, n), i, n);
        if !open {
          OpenSpan(ops, done, i, n, to);
          spans := spans + [Span(ai, bi, ai, bi, i, |ops|)];
          open := true;
        } else {
          to := last.(a1 := A(ops, n), b1 := B(ops, n), op1 := n);
          GrowSpan(ops, done + [last], i, n, done, last, to);
        }
        last := to;
        if op == Del {
          ai := ai + 1;
          spans := spans[|spans| - 1 := spans[|spans| - 1].(a1 := ai)];
        } else {
          bi := bi + 1;
          spans := spans[|spans| - 1 := spans[|spans| - 1].(b1 := bi)];
        }
        assert spans == done + [last.(op1 := |ops|)];
      }
      i := i + 1;
    }
  }

  // Ranges of spans.

  function ContextLo(s: Span): int {
    Max(0, s.op0 - DIFF_CONTEXT_LINES)
  }

  function ContextHi(ops: seq<Op>, s: Span): int {
    Min(|ops|, s.op1 + DIFF_CONTEXT_LINES)
  }

  /** The line ranges steps `[lo, hi)` of a script stand against. */
  ghost predicate Covers(aStart: int, aEnd: int, bStart: int, bEnd: int, ops: seq<Op>, lo: int, hi: int, aBase: int, bBase: int)
  {
    0 <= lo <= hi <= |ops| &&
    aStart == aBase + A(ops, lo) && aEnd == aBase + A(ops, hi) && bStart == bBase + B(ops, lo) && bEnd == bBase + B(ops, hi)
  }

  ghost predicate RangeOf<T>(b: Blocks.Block<T>, ops: seq<Op>, lo: int, hi: int, aBase: int, bBase: int)
  {
    Covers(b.aStart, b.aEnd, b.bStart, b.bEnd, ops, lo, hi, aBase, bBase)
  }

  /** One block a span, over the span with the kept lines either side of it,
      as many as there are up to `DIFF_CONTEXT_LINES`. */
  ghost predicate RangesOf<T>(bs: seq<Blocks.Block<T>>, ops: seq<Op>, x: seq<T>, y: seq<T>, spans: seq<Span>, aBase: int, bBase: int)
  {
    |bs| == |spans| && forall q :: 0 <= q < |bs| ==> RangeAt(bs, ops, x, y, spans, aBase, bBase, q)
  }

  ghost predicate RangeAt<T>(bs: seq<Blocks.Block<T>>, ops: seq<Op>, x: seq<T>, y: seq<T>, spans: seq<Span>, aBase: int, bBase: int, q: int)
  {
    0 <= q < |bs| && q < |spans| &&
    RangeOf(bs[q], ops, ContextLo(spans[q]), ContextHi(ops, spans[q]), aBase, bBase) && Blocks.Fits(bs[q], x, y, aBase, bBase)
  }

  /** The steps kept before span `q`'s block, or after the last block. */
  ghost function KeptFrom(ops: seq<Op>, spans: seq<Span>, q: int): int
    requires 0 <= q <= |spans|
  {
    if q == 0 then 0 else ContextHi(ops, spans[q - 1])
  }

  ghost function KeptTo(ops: seq<Op>, spans: seq<Span>, q: int): int
    requires 0 <= q <= |spans|
  {
    if q == |spans| then |ops| else ContextLo(spans[q])
  }

  /** The context of neighbouring spans does not meet. */
  lemma ContextApart(ops: seq<Op>, spans: seq<Span>, q: int)
    requires SpanList(ops, spans, |ops|, MERGE_GAP) && 0 <= q <= |spans|
    ensures 0 <= KeptFrom(ops, spans, q) <= KeptTo(ops, spans, q) <= |ops|
    ensures AllKeep(ops, KeptFrom(ops, spans, q), KeptTo(ops, spans, q))
  {
    if q > 0 {
      assert SpanAt(ops, spans, q - 1, MERGE_GAP);
    }
    if q < |spans| {
      assert SpanAt(ops, spans, q, MERGE_GAP);
    }
  }

  lemma KeptSame<T>(ops: seq<Op>, x: seq<T>, y: seq<T>, lo: int, hi: int, aBase: int, bBase: int, a: int, b: int, a': int, b': int)
    requires Steps(ops, x, y, 0, 0) && 0 <= lo <= hi <= |ops| && AllKeep(ops, lo, hi)
    requires a == aBase + A(ops, lo) && b == bBase + B(ops, lo) && a' == aBase + A(ops, hi) && b' == bBase + B(ops, hi)
    ensures Blocks.Same(x, aBase, a, a', y, bBase, b, b')
  {
    KeepRun(ops, x, y, lo, hi);
  }

  /** Blocks of a script's spans, more than twice their context apart, are a
      patch: everything they leave out is kept. */
  lemma RangesPatch<T>(bs: seq<Blocks.Block<T>>, ops: seq<Op>, x: seq<T>, y: seq<T>, spans: seq<Span>, aBase: int, bBase: int)
    requires Edits(ops, x, y, 0, 0) && SpanList(ops, spans, |ops|, MERGE_GAP) && RangesOf(bs, ops, x, y, spans, aBase, bBase)
    ensures Blocks.PatchOf(bs, x, y, aBase, bBase)
  {
    forall q | 0 <= q <= |bs|
      ensures Blocks.PlacedAt(bs, x, y, aBase, bBase, q)
    {
      RangePlaced(bs, ops, x, y, spans, aBase, bBase, q);
    }
  }

  lemma RangePlaced<T>(bs: seq<Blocks.Block<T>>, ops: seq<Op>, x: seq<T>, y: seq<T>, spans: seq<Span>, aBase: int, bBase: int, q: int)
    requires Edits(ops, x, y, 0, 0) && SpanList(ops, spans, |ops|, MERGE_GAP) && RangesOf(bs, ops, x, y, spans, aBase, bBase)
    requires 0 <= q <= |bs|
    ensures Blocks.PlacedAt(bs, x, y, aBase, bBase, q)
  {
    ContextApart(ops, spans, q);
    assert ops[..0] == [] && ops[..|ops|] == ops;
    if q > 0 {
      assert RangeAt(bs, ops, x, y, spans, aBase, bBase, q - 1);
    }
    if q < |bs| {
      assert RangeAt(bs, ops, x, y, spans, aBase, bBase, q);
    }
    KeptSame(ops, x, y, KeptFrom(ops, spans, q), KeptTo(ops, spans, q), aBase, bBase, Blocks.EndA(bs, q, aBase), Blocks.EndB(bs, q, bBase),
      Blocks.StartA(bs, q, aBase + |x|), Blocks.StartB(bs, q, bBase + |y|));
  }

  // Hunks of spans.

  ghost predicate AllLines(x: seq<string>) {
    forall k :: 0 <= k < |x| ==> LineLike(x[k])
  }

  /** The hunk of steps `[lo, hi)`: its header names the lines they pass, its
      body spells them. */
  ghost predicate HunkOf(h: Hunk, ops: seq<Op>, x: seq<string>, y: seq<string>, lo: int, hi: int, aBase: int, bBase: int, edge: bool)
  {
    Steps(ops, x, y, 0, 0) && Covers(h.aStart, h.aEnd, h.bStart, h.bEnd, ops, lo, hi, aBase, bBase) &&
    h.text == Header(h.aStart, h.aEnd, h.bStart, h.bEnd) + BodyText(Piece(ops, x, y, lo, hi)) &&
    h.edge == edge && !h.coarse
  }

  ghost predicate HunkAt(hs: seq<Hunk>, ops: seq<Op>, x: seq<string>, y: seq<string>, spans: seq<Span>, q: int, aBase: int, bBase: int, edge: bool)
  {
    0 <= q < |hs| && q < |spans| && HunkOf(hs[q], ops, x, y, ContextLo(spans[q]), ContextHi(ops, spans[q]), aBase, bBase, edge)
  }

  /** One hunk a span, in order. */
  ghost predicate HunksOf(hs: seq<Hunk>, ops: seq<Op>, x: seq<string>, y: seq<string>, spans: seq<Span>, aBase: int, bBase: int, edge: bool)
  {
    |hs| == |spans| && forall q :: 0 <= q < |hs| ==> HunkAt(hs, ops, x, y, spans, q, aBase, bBase, edge)
  }

  lemma SameRange<T>(x: seq<T>, base: int, i: int, j: int, p: int, q: int, r: seq<T>)
    requires 0 <= p <= q <= |x| && x[p..q] == r && i == base + p && j == base + q
    ensures Blocks.Same(x, base, i, j, r, 0, 0, |r|)
  {
    assert r[0 - 0..|r| - 0] == r;
  }

  lemma HunkFits(h: Hunk, ops: seq<Op>, x: seq<string>, y: seq<string>, lo: int, hi: int, aBase: int, bBase: int, edge: bool)
    requires HunkOf(h, ops, x, y, lo, hi, aBase, bBase, edge) && AllLines(x) && AllLines(y)
    ensures Headed(h) && Blocks.Fits(BlockOf(h), x, y, aBase, bBase)
  {
    var body := Piece(ops, x, y, lo, hi);
    PieceSides(ops, x, y, lo, hi);
    StepsPiece(ops, x, y, lo, hi);
    LinedLikes(ops[lo..hi], x, y, A(ops, lo), B(ops, lo));
    BodyOf(h, body);
    SameRange(x, aBase, h.aStart, h.aEnd, A(ops, lo), A(ops, hi), OldSide(body));
    SameRange(y, bBase, h.bStart, h.bEnd, B(ops, lo), B(ops, hi), NewSide(body));
  }

  /** The hunks of a script's spans are a patch of the two sides. */
  lemma HunksPatch(hs: seq<Hunk>, ops: seq<Op>, x: seq<string>, y: seq<string>, spans: seq<Span>, aBase: int, bBase: int, edge: bool)
    requires Edits(ops, x, y, 0, 0) && AllLines(x) && AllLines(y)
    requires SpanList(ops, spans, |ops|, MERGE_GAP) && HunksOf(hs, ops, x, y, spans, aBase, bBase, edge)
    ensures PatchOf(hs, x, y, aBase, bBase)
  {
    var bs := seq(|hs|, k requires 0 <= k < |hs| => BlockOf(hs[k]));
    forall q | 0 <= q < |hs|
      ensures SaysAt(hs, bs, q) && RangeAt(bs, ops, x, y, spans, aBase, bBase, q)
    {
      assert HunkAt(hs, ops, x, y, spans, q, aBase, bBase, edge);
      HunkFits(hs[q], ops, x, y, ContextLo(spans[q]), ContextHi(ops, spans[q]), aBase, bBase, edge);
    }
    assert Says(hs, bs);
    RangesPatch(bs, ops, x, y, spans, aBase, bBase);
  }

  // The window's own script.

  /** The whole script of two sides with `head` shared lines before their core
      and `tail` after it. */
  ghost function Whole(head: nat, core: seq<Op>, tail: nat): seq<Op> {
    Keeps(head) + core + Keeps(tail)
  }

  /** `core` stands in `ops` after `head` shared lines. */
  ghost predicate CoreAt(ops: seq<Op>, head: int, core: seq<Op>, t: int)
  {
    0 <= t <= |core| && 0 <= head && head + t <= |ops| &&
    A(ops, head + t) == head + A(core, t) && B(ops, head + t) == head + B(core, t) &&
    (t < |core| ==> head + t < |ops| && ops[head + t] == core[t])
  }

  /** ... and everything outside it is kept. */
  ghost predicate Embeds(ops: seq<Op>, head: int, core: seq<Op>)
  {
    0 <= head && head + |core| <= |ops| && AllKeep(ops, 0, head) && AllKeep(ops, head + |core|, |ops|) &&
    forall t :: 0 <= t <= |core| ==> CoreAt(ops, head, core, t)
  }

  lemma WholeEmbeds(head: nat, core: seq<Op>, tail: nat)
    requires OldLen(Keeps(head)) == NewLen(Keeps(head)) == head
    ensures |Whole(head, core, tail)| == head + |core| + tail && Embeds(Whole(head, core, tail), head, core)
  {
    var ops := Whole(head, core, tail);
    forall t | 0 <= t <= |core|
      ensures CoreAt(ops, head, core, t)
    {
      assert ops[..head + t] == Keeps(head) + core[..t];
      LenAppend(Keeps(head), core[..t]);
    }
  }

  /** A span of the core, in the whole script. */
  function Lifted(head: int, s: Span): Span {
    Span(head + s.a0, head + s.b0, head + s.a1, head + s.b1, head + s.op0, head + s.op1)
  }

  lemma LiftSpan(ops: seq<Op>, head: int, core: seq<Op>, s: Span)
    requires Embeds(ops, head, core) && SpanOf(core, s)
    ensures SpanOf(ops, Lifted(head, s))
  {
    assert CoreAt(ops, head, core, s.op0) && CoreAt(ops, head, core, s.op1) && CoreAt(ops, head, core, s.op1 - 1);
  }

  lemma LiftTight(ops: seq<Op>, head: int, core: seq<Op>, lo: int, hi: int, gap: int)
    requires Embeds(ops, head, core) && Tight(core, lo, hi, gap)
    ensures Tight(ops, head + lo, head + hi, gap)
  {
    forall t | head + lo <= t && t + gap < head + hi
      ensures ChangeWithin(ops, t, gap)
    {
      assert ChangeWithin(core, t - head, gap);
      var u :| t - head <= u <= t - head + gap && 0 <= u < |core| && core[u] != Keep;
      assert CoreAt(ops, head, core, u);
    }
  }

  lemma LiftKeeps(ops: seq<Op>, head: int, core: seq<Op>, lo: int, hi: int)
    requires Embeds(ops, head, core) && 0 <= lo <= hi <= |core| && AllKeep(core, lo, hi)
    ensures AllKeep(ops, head + lo, head + hi)
    ensures lo == 0 ==> AllKeep(ops, 0, head + hi)
    ensures hi == |core| ==> AllKeep(ops, head + lo, |ops|)
  {
    forall t | head + lo <= t < head + hi
      ensures 0 <= t < |ops| && ops[t] == Keep
    {
      assert CoreAt(ops, head, core, t - head);
    }
  }

  /** Two spans at most `gap` kept lines apart, taken as one. */
  lemma Merged(ops: seq<Op>, lo: int, mid: int, mid': int, hi: int, gap: int)
    requires Tight(ops, lo, mid, gap) && Tight(ops, mid', hi, 0) && 0 <= lo < mid <= mid' < hi <= |ops| && mid' - mid <= gap
    requires ops[mid - 1] != Keep && ops[mid'] != Keep
    ensures Tight(ops, lo, hi, gap)
  {
    forall t | lo <= t && t + gap < hi
      ensures ChangeWithin(ops, t, gap)
    {
      if t < mid {
        if t + gap >= mid {
          assert ops[mid - 1] != Keep;
        }
      } else if t <= mid' {
        assert ops[mid'] != Keep;
      } else {
        assert ChangeWithin(ops, t, 0);
      }
    }
  }

  lemma TightWider(ops: seq<Op>, lo: int, hi: int, gap: int)
    requires Tight(ops, lo, hi, 0) && gap >= 0
    ensures Tight(ops, lo, hi, gap)
  {
    forall t | lo <= t && t + gap < hi
      ensures ChangeWithin(ops, t, gap)
    {
      assert ChangeWithin(ops, t, 0);
    }
  }

  /** Past a whole run of kept lines, or well into the sides, the context
      before a span is as long counted in lines of `x` as in steps. */
  lemma ContextLines<T>(ops: seq<Op>, x: seq<T>, y: seq<T>, prev: int, op0: int, c: int)
    requires Steps(ops, x, y, 0, 0) && 0 <= prev <= op0 <= |ops| && AllKeep(ops, prev, op0) && (prev == 0 || op0 - prev > c)
    ensures Min(c, A(ops, op0)) == Min(c, op0)
  {
    KeepRun(ops, x, y, prev, op0);
    assert ops[..0] == [];
  }

  lemma ContextLinesAfter<T>(ops: seq<Op>, x: seq<T>, y: seq<T>, op1: int, next: int, c: int)
    requires Edits(ops, x, y, 0, 0) && 0 <= op1 <= next <= |ops| && AllKeep(ops, op1, next) && (next == |ops| || next - op1 > c)
    ensures Min(c, |x| - A(ops, op1)) == Min(c, |ops| - op1)
  {
    KeepRun(ops, x, y, op1, next);
    assert ops[..|ops|] == ops;
  }

  /** Step `k` of the tape keeps line `k + shift` of `x`. */
  ghost predicate KeptAt(tape: seq<HunkLine>, x: seq<string>, k: int, shift: int)
  {
    0 <= k < |tape| && 0 <= k + shift < |x| && tape[k] == HunkLine(Keep, x[k + shift])
  }

  ghost predicate KeptRun(tape: seq<HunkLine>, x: seq<string>, lo: int, hi: int, shift: int)
  {
    forall k :: lo <= k < hi ==> KeptAt(tape, x, k, shift)
  }

  /** Lines `[start, start + n)` of `x`, kept, put after a text. */
  method KeptText(x: seq<string>, before: string, start: int, n: int, ghost tape: seq<HunkLine>, ghost lo: int, ghost t0: int, ghost t1: int,
                  ghost shift: int)
    returns (text: string)
    requires 0 <= lo <= t0 <= t1 <= |tape| && n == t1 - t0 && before == BodyText(tape[lo..t0]) && start == t0 + shift
    requires KeptRun(tape, x, t0, t1, shift)
    ensures text == BodyText(tape[lo..t1])
  {
    text := before;
    var i := start;
    ghost var t := t0;
    while i < start + n
      invariant t0 <= t <= t1 && i == t + shift
      invariant text == BodyText(tape[lo..t])
    {
      assert KeptAt(tape, x, t, shift);
      ghost var m := t + 1;
      TapePush(tape, lo, t, m, Keep, x[i]);
      text := text + LineText(Keep, x[i]);
      i, t := i + 1, m;
    }
  }

  lemma TapePush(tape: seq<HunkLine>, lo: int, t: int, n: int, op: Op, line: string)
    requires 0 <= lo <= t < |tape| && n == t + 1 && tape[t] == HunkLine(op, line)
    ensures BodyText(tape[lo..n]) == BodyText(tape[lo..t]) + LineText(op, line)
  {
    assert tape[lo..n] == tape[lo..t] + [tape[t]];
    TextPush(tape[lo..t], tape[t]);
  }

  /** Where each side stands before every step of a script. */
  ghost function Places(ops: seq<Op>): (places: seq<(int, int)>)
    ensures |places| == |ops| + 1 && forall t :: 0 <= t <= |ops| ==> places[t] == (A(ops, t), B(ops, t))
  {
    seq(|ops| + 1, t requires 0 <= t <= |ops| => (A(ops, t) as int, B(ops, t) as int))
  }

  /** Step `head + i` of the tape is the core's step `i`, with the line the
      core takes from its own place. */
  ghost predicate OnTape(tape: seq<HunkLine>, head: int, core: seq<Op>, xs: seq<string>, ys: seq<string>, places: seq<(int, int)>, i: int)
  {
    0 <= i < |core| && |places| == |core| + 1 && 0 <= head + i < |tape| &&
    0 <= places[i].0 && 0 <= places[i].1 && (if core[i] == Ins then places[i].1 < |ys| else places[i].0 < |xs|) &&
    places[i + 1] == (NextA(core[i], places[i].0), NextB(core[i], places[i].1)) &&
    tape[head + i] == HunkLine(core[i], if core[i] == Ins then ys[places[i].1] else xs[places[i].0])
  }

  /** The line the core takes at step `i` is the tape's next. */
  lemma TapeLine(tape: seq<HunkLine>, head: int, core: seq<Op>, xs: seq<string>, ys: seq<string>, places: seq<(int, int)>,
                 i: int, lo: int, t: int, n: int, ci: int, cj: int)
    requires OnTape(tape, head, core, xs, ys, places, i) && places[i] == (ci, cj)
    requires t == head + i && n == t + 1 && 0 <= lo <= t
    ensures if core[i] == Ins then 0 <= cj < |ys| else 0 <= ci < |xs|
    ensures BodyText(tape[lo..n]) == BodyText(tape[lo..t]) + LineText(core[i], if core[i] == Ins then ys[cj] else xs[ci])
    ensures places[i + 1] == (NextA(core[i], ci), NextB(core[i], cj))
  {
    TapePush(tape, lo, t, n, core[i], if core[i] == Ins then ys[cj] else xs[ci]);
  }

  /** A span's own steps put after a text. */
  method CoreText(xs: seq<string>, ys: seq<string>, core: seq<Op>, span: Span, before: string,
                  ghost tape: seq<HunkLine>, ghost head: int, ghost lo: int, ghost t0: int, ghost t1: int, ghost places: seq<(int, int)>)
    returns (text: string)
    requires 0 <= span.op0 <= span.op1 <= |core| && |places| == |core| + 1 && places[span.op0] == (span.a0, span.b0)
    requires 0 <= lo <= t0 <= t1 <= |tape| && t0 == head + span.op0 && t1 == head + span.op1
    requires forall i :: span.op0 <= i < span.op1 ==> OnTape(tape, head, core, xs, ys, places, i)
    requires before == BodyText(tape[lo..t0])
    ensures text == BodyText(tape[lo..t1])
  {
    text := before;
    var ci, cj := span.a0, span.b0;
    var i := span.op0;
    ghost var t := t0;
    while i < span.op1
      invariant span.op0 <= i <= span.op1 && t == head + i && places[i] == (ci, cj)
      invariant text == BodyText(tape[lo..t])
    {
      var op := core[i];
      ghost var n := t + 1;
      TapeLine(tape, head, core, xs, ys, places, i, lo, t, n, ci, cj);
      text := text + LineText(op, if op == Ins then ys[cj] else xs[ci]);
      ci, cj := NextA(op, ci), NextB(op, cj);
      i, t := i + 1, n;
    }
  }

  /** The text of one hunk: kept lines up to the span, the span's steps, kept
      lines after it. */
  method SpanText(x: seq<string>, xs: seq<string>, ys: seq<string>, head: int, core: seq<Op>, span: Span, pre: int, post: int,
                  ghost tape: seq<HunkLine>, ghost lo: int, ghost t0: int, ghost t1: int, ghost hi: int)
    returns (text: string)
    requires lo == t0 - pre && t0 == head + span.op0 && t1 == head + span.op1 && hi == t1 + post
    requires SpanOf(core, span) && 0 <= pre <= t0 && 0 <= post && hi <= |tape|
    requires forall i :: span.op0 <= i < span.op1 ==> OnTape(tape, head, core, xs, ys, Places(core), i)
    requires KeptRun(tape, x, lo, t0, span.a0 - span.op0) && KeptRun(tape, x, t1, hi, span.a1 - span.op1)
    ensures text == BodyText(tape[lo..hi])
  {
    assert tape[lo..lo] == [];
    text := KeptText(x, "", head + span.a0 - pre, pre, tape, lo, lo, t0, span.a0 - span.op0);
    text := CoreText(xs, ys, core, span, text, tape, head, lo, t0, t1, Places(core));
    text := KeptText(x, text, head + span.a1, post, tape, lo, t1, hi, span.a1 - span.op1);
  }

  // One range.

  /** Lines of a core and of the sides around it. */
  ghost predicate Cores<T>(x: seq<T>, y: seq<T>, head: int, xs: seq<T>, ys: seq<T>)
  {
    0 <= head && head + |xs| <= |x| && head + |ys| <= |y| &&
    (forall k :: 0 <= k < |xs| ==> xs[k] == x[head + k]) && (forall k :: 0 <= k < |ys| ==> ys[k] == y[head + k])
  }

  /** A script of the two sides with Myers' script of their cores inside. */
  ghost predicate Framed(ops: seq<Op>, x: seq<string>, y: seq<string>, head: int, core: seq<Op>, xs: seq<string>, ys: seq<string>)
  {
    Edits(ops, x, y, 0, 0) && Embeds(ops, head, core) && Edits(core, xs, ys, 0, 0) && Cores(x, y, head, xs, ys)
  }

  lemma SpanOnTape(ops: seq<Op>, x: seq<string>, y: seq<string>, head: int, core: seq<Op>, xs: seq<string>, ys: seq<string>, i: int)
    requires Framed(ops, x, y, head, core, xs, ys) && 0 <= i < |core|
    ensures OnTape(Tape(ops, x, y), head, core, xs, ys, Places(core), i)
  {
    assert CoreAt(ops, head, core, i);
    LegalAt(core, xs, ys, i);
    StepAt(core, i);
    TapeAt(ops, x, y, head + i);
  }

  lemma KeptOnTape(ops: seq<Op>, x: seq<string>, y: seq<string>, lo: int, hi: int, shift: int)
    requires Steps(ops, x, y, 0, 0) && 0 <= lo <= hi <= |ops| && AllKeep(ops, lo, hi) && shift == A(ops, lo) - lo
    ensures KeptRun(Tape(ops, x, y), x, lo, hi, shift)
  {
    forall k | lo <= k < hi
      ensures KeptAt(Tape(ops, x, y), x, k, shift)
    {
      KeepRun(ops, x, y, lo, k);
      TapeAt(ops, x, y, k);
    }
  }

  /** The hunk of one span, `prev` the step the last change before it ends at
      and `next` the step the next change after it begins at. */
  method SpanHunk(x: seq<string>, xs: seq<string>, ys: seq<string>, head: nat, core: seq<Op>, span: Span,
                  aBase: int, bBase: int, edge: bool, ghost y: seq<string>, ghost ops: seq<Op>, ghost prev: int, ghost next: int)
    returns (h: Hunk)
    requires Framed(ops, x, y, head, core, xs, ys) && SpanOf(core, span) && AllLines(x) && AllLines(y)
    requires 0 <= prev <= head + span.op0 && AllKeep(ops, prev, head + span.op0) && (prev == 0 || head + span.op0 - prev > MERGE_GAP)
    requires head + span.op1 <= next <= |ops| && AllKeep(ops, head + span.op1, next) && (next == |ops| || next - head - span.op1 > MERGE_GAP)
    ensures HunkOf(h, ops, x, y, ContextLo(Lifted(head, span)), ContextHi(ops, Lifted(head, span)), aBase, bBase, edge)
  {
    var pre := Min(DIFF_CONTEXT_LINES, head + span.a0);
    var post := Min(DIFF_CONTEXT_LINES, |x| - (head + span.a1));
    ghost var lo, hi := ContextLo(Lifted(head, span)), ContextHi(ops, Lifted(head, span));
    ghost var t0, t1 := head + span.op0, head + span.op1;
    var aStart, aLen := aBase + head + span.a0 - pre, pre + (span.a1 - span.a0) + post;
    var bStart, bLen := bBase + head + span.b0 - pre, pre + (span.b1 - span.b0) + post;
    ghost var aEnd, bEnd := aStart + aLen, bStart + bLen;
    SpanContext(x, y, head, core, span, ops, prev, next, pre, post);
    SpanCovers(x, y, head, core, span, ops, pre, post, lo, hi, aBase, bBase, aStart, aEnd, bStart, bEnd);
    SpanTape(x, y, xs, ys, head, core, span, ops, pre, post, lo, t0, t1, hi);
    var text := SpanText(x, xs, ys, head, core, span, pre, post, Tape(ops, x, y), lo, t0, t1, hi);
    h := MakeHunk(aStart, aLen, bStart, bLen, text, edge, false);
    MadeHunk(h, ops, x, y, lo, hi, aBase, bBase, aStart, aLen, aEnd, bStart, bLen, bEnd, text, edge);
  }

  lemma SpanTape(x: seq<string>, y: seq<string>, xs: seq<string>, ys: seq<string>, head: nat, core: seq<Op>, span: Span, ops: seq<Op>,
                 pre: int, post: int, lo: int, t0: int, t1: int, hi: int)
    requires Framed(ops, x, y, head, core, xs, ys) && SpanOf(core, span)
    requires lo == t0 - pre && t0 == head + span.op0 && t1 == head + span.op1 && hi == t1 + post
    requires 0 <= pre <= t0 && AllKeep(ops, lo, t0) && 0 <= post && hi <= |ops| && AllKeep(ops, t1, hi)
    requires A(ops, lo) == head + span.a0 - pre && A(ops, t1) == head + span.a1
    ensures forall i :: span.op0 <= i < span.op1 ==> OnTape(Tape(ops, x, y), head, core, xs, ys, Places(core), i)
    ensures KeptRun(Tape(ops, x, y), x, lo, t0, span.a0 - span.op0) && KeptRun(Tape(ops, x, y), x, t1, hi, span.a1 - span.op1)
  {
    forall i | span.op0 <= i < span.op1
      ensures OnTape(Tape(ops, x, y), head, core, xs, ys, Places(core), i)
    {
      SpanOnTape(ops, x, y, head, core, xs, ys, i);
    }
    KeptOnTape(ops, x, y, lo, t0, span.a0 - span.op0);
    KeptOnTape(ops, x, y, t1, hi, span.a1 - span.op1);
  }

  lemma MadeHunk(h: Hunk, ops: seq<Op>, x: seq<string>, y: seq<string>, lo: int, hi: int, aBase: int, bBase: int,
                 aStart: int, aLen: int, aEnd: int, bStart: int, bLen: int, bEnd: int, text: string, edge: bool)
    requires Steps(ops, x, y, 0, 0) && 0 <= lo <= hi <= |ops| && text == BodyText(Tape(ops, x, y)[lo..hi])
    requires Covers(aStart, aEnd, bStart, bEnd, ops, lo, hi, aBase, bBase)
    requires aEnd == aStart + aLen && bEnd == bStart + bLen && h == MakeHunk(aStart, aLen, bStart, bLen, text, edge, false)
    ensures HunkOf(h, ops, x, y, lo, hi, aBase, bBase, edge)
  {
    TapePiece(ops, x, y, lo, hi);
    MadeByEnds(aStart, aLen, aEnd, bStart, bLen, bEnd, text, edge, false);
    HeaderedHunk(h, ops, x, y, lo, hi, aBase, bBase, aStart, aEnd, bStart, bEnd, text, edge);
  }

  lemma SameEnds(aStart: int, e: int, aEnd: int, bStart: int, f: int, bEnd: int, text: string, edge: bool, coarse: bool)
    requires e == aEnd && f == bEnd
    ensures WithHeader(aStart, e, bStart, f, text, edge, coarse) == WithHeader(aStart, aEnd, bStart, bEnd, text, edge, coarse)
  {
  }

  lemma MadeByEnds(aStart: int, aLen: int, aEnd: int, bStart: int, bLen: int, bEnd: int, text: string, edge: bool, coarse: bool)
    requires aEnd == aStart + aLen && bEnd == bStart + bLen
    ensures MakeHunk(aStart, aLen, bStart, bLen, text, edge, coarse) == WithHeader(aStart, aEnd, bStart, bEnd, text, edge, coarse)
  {
    SameEnds(aStart, aStart + aLen, aEnd, bStart, bStart + bLen, bEnd, text, edge, coarse);
  }

  lemma HeaderedHunk(h: Hunk, ops: seq<Op>, x: seq<string>, y: seq<string>, lo: int, hi: int, aBase: int, bBase: int,
                     aStart: int, aEnd: int, bStart: int, bEnd: int, text: string, edge: bool)
    requires Steps(ops, x, y, 0, 0) && Covers(aStart, aEnd, bStart, bEnd, ops, lo, hi, aBase, bBase)
    requires text == BodyText(Piece(ops, x, y, lo, hi)) && h == WithHeader(aStart, aEnd, bStart, bEnd, text, edge, false)
    ensures HunkOf(h, ops, x, y, lo, hi, aBase, bBase, edge)
  {
  }

  function MakeHunk(aStart: int, aLen: int, bStart: int, bLen: int, text: string, edge: bool, coarse: bool): Hunk {
    WithHeader(aStart, aStart + aLen, bStart, bStart + bLen, text, edge, coarse)
  }

  function WithHeader(aStart: int, aEnd: int, bStart: int, bEnd: int, text: string, edge: bool, coarse: bool): Hunk {
    Hunk(aStart, aEnd, bStart, bEnd, Header(aStart, aEnd, bStart, bEnd) + text, edge, coarse)
  }

  /** The context a hunk takes is lines kept, as many as its sides have. */
  lemma SpanContext(x: seq<string>, y: seq<string>, head: int, core: seq<Op>, span: Span, ops: seq<Op>, prev: int, next: int, pre: int, post: int)
    requires Edits(ops, x, y, 0, 0) && Embeds(ops, head, core) && SpanOf(core, span)
    requires 0 <= prev <= head + span.op0 && AllKeep(ops, prev, head + span.op0) && (prev == 0 || head + span.op0 - prev > MERGE_GAP)
    requires head + span.op1 <= next <= |ops| && AllKeep(ops, head + span.op1, next) && (next == |ops| || next - head - span.op1 > MERGE_GAP)
    requires pre == Min(DIFF_CONTEXT_LINES, head + span.a0) && post == Min(DIFF_CONTEXT_LINES, |x| - (head + span.a1))
    ensures ContextLo(Lifted(head, span)) == head + span.op0 - pre && ContextHi(ops, Lifted(head, span)) == head + span.op1 + post
    ensures 0 <= pre <= head + span.op0 && 0 <= post && head + span.op1 + post <= |ops|
    ensures AllKeep(ops, head + span.op0 - pre, head + span.op0) && AllKeep(ops, head + span.op1, head + span.op1 + post)
    ensures A(ops, head + span.op0) == head + span.a0 && A(ops, head + span.op1) == head + span.a1
    ensures B(ops, head + span.op0) == head + span.b0 && B(ops, head + span.op1) == head + span.b1
  {
    assert CoreAt(ops, head, core, span.op0) && CoreAt(ops, head, core, span.op1);
    ContextLines(ops, x, y, prev, head + span.op0, DIFF_CONTEXT_LINES);
    ContextLinesAfter(ops, x, y, head + span.op1, next, DIFF_CONTEXT_LINES);
  }

  /** Where the hunk stands on both sides: its span, `pre` kept lines before
      it and `post` after it. */
  lemma SpanCovers(x: seq<string>, y: seq<string>, head: int, core: seq<Op>, span: Span, ops: seq<Op>, pre: int, post: int, lo: int, hi: int,
                   aBase: int, bBase: int, aStart: int, aEnd: int, bStart: int, bEnd: int)
    requires Steps(ops, x, y, 0, 0) && span.op0 <= span.op1 && lo == head + span.op0 - pre && hi == head + span.op1 + post
    requires 0 <= pre <= head + span.op0 && 0 <= post && head + span.op1 + post <= |ops|
    requires AllKeep(ops, lo, head + span.op0) && AllKeep(ops, head + span.op1, hi)
    requires A(ops, head + span.op0) == head + span.a0 && A(ops, head + span.op1) == head + span.a1
    requires B(ops, head + span.op0) == head + span.b0 && B(ops, head + span.op1) == head + span.b1
    requires aStart == aBase + head + span.a0 - pre && aEnd == aStart + (pre + (span.a1 - span.a0) + post)
    requires bStart == bBase + head + span.b0 - pre && bEnd == bStart + (pre + (span.b1 - span.b0) + post)
    ensures A(ops, lo) == head + span.a0 - pre && Covers(aStart, aEnd, bStart, bEnd, ops, lo, hi, aBase, bBase)
  {
    KeepRun(ops, x, y, lo, head + span.op0);
    KeepRun(ops, x, y, head + span.op1, hi);
  }

  /** The spans grouped, changes at most `MERGE_GAP` kept lines apart in one
      hunk, and the hunk of each group. */
  method GroupHunks(x: seq<string>, xs: seq<string>, ys: seq<string>, head: nat, core: seq<Op>, spans: seq<Span>,
                    aBase: int, bBase: int, edge: bool, ghost y: seq<string>, ghost ops: seq<Op>)
    returns (out: seq<Hunk>, ghost groups: seq<Span>)
    requires Framed(ops, x, y, head, core, xs, ys) && AllLines(x) && AllLines(y)
    requires SpanList(core, spans, |core|, 0)
    ensures SpanList(ops, groups, |ops|, MERGE_GAP) && HunksOf(out, ops, x, y, groups, aBase, bBase, edge)
  {
    out, groups := [], [];
    var s := 0;
    while s < |spans|
      invariant 0 <= s <= |spans| && Grouped(ops, groups, head, spans, s)
      invariant HunksOf(out, ops, x, y, groups, aBase, bBase, edge)
    {
      out, s, groups := NextHunk(x, xs, ys, head, core, spans, s, out, aBase, bBase, edge, y, ops, groups);
      s := s + 1;
    }
    GroupsDone(ops, groups, head, core, spans);
  }

  lemma HunksPush(hs: seq<Hunk>, h: Hunk, ops: seq<Op>, x: seq<string>, y: seq<string>, spans: seq<Span>, s: Span,
                  aBase: int, bBase: int, edge: bool)
    requires HunksOf(hs, ops, x, y, spans, aBase, bBase, edge)
    requires HunkOf(h, ops, x, y, ContextLo(s), ContextHi(ops, s), aBase, bBase, edge)
    ensures HunksOf(hs + [h], ops, x, y, spans + [s], aBase, bBase, edge)
  {
    forall q | 0 <= q < |hs + [h]|
      ensures HunkAt(hs + [h], ops, x, y, spans + [s], q, aBase, bBase, edge)
    {
      if q < |hs| {
        assert HunkAt(hs, ops, x, y, spans, q, aBase, bBase, edge);
      }
    }
  }

  /** The hunk of the group that begins with span `s0`, put after the hunks
      before it; `s` is the last span of the group. */
  method NextHunk(x: seq<string>, xs: seq<string>, ys: seq<string>, head: nat, core: seq<Op>, spans: seq<Span>, s0: nat, before: seq<Hunk>,
                  aBase: int, bBase: int, edge: bool, ghost y: seq<string>, ghost ops: seq<Op>, ghost groups: seq<Span>)
    returns (out: seq<Hunk>, s: nat, ghost more: seq<Span>)
    requires Framed(ops, x, y, head, core, xs, ys) && AllLines(x) && AllLines(y)
    requires SpanList(core, spans, |core|, 0) && s0 < |spans| && Grouped(ops, groups, head, spans, s0)
    requires HunksOf(before, ops, x, y, groups, aBase, bBase, edge)
    ensures s0 <= s < |spans| && Grouped(ops, more, head, spans, s + 1)
    ensures HunksOf(out, ops, x, y, more, aBase, bBase, edge)
  {
    GroupStart(ops, groups, head, core, spans, s0);
    var span;
    span, s := MergeSpans(core, spans, s0, xs, ys);
    ghost var next := if s + 1 < |spans| then head + spans[s + 1].op0 else |ops|;
    GroupEnd(ops, head, core, xs, ys, spans, s, span, next);
    PushGroup(ops, groups, head, core, spans, s, span, head + PrevEnd(spans, s0));
    var h := SpanHunk(x, xs, ys, head, core, span, aBase, bBase, edge, y, ops, PrevEnd(groups, |groups|), next);
    HunksPush(before, h, ops, x, y, groups, Lifted(head, span), aBase, bBase, edge);
    out := before + [h];
    more := groups + [Lifted(head, span)];
  }

  /** The span at `s0` joined by those at most `2 * DIFF_CONTEXT_LINES` kept
      lines on, and the index of the last joined. */
  method MergeSpans(core: seq<Op>, spans: seq<Span>, s0: nat, ghost xs: seq<string>, ghost ys: seq<string>)
    returns (span: Span, s: nat)
    requires Steps(core, xs, ys, 0, 0) && SpanList(core, spans, |core|, 0) && s0 < |spans|
    requires Tight(core, spans[s0].op0, spans[s0].op1, MERGE_GAP) && SpanOf(core, spans[s0])
    ensures s0 <= s < |spans| && span.op0 == spans[s0].op0 && span.op1 == spans[s].op1
    ensures SpanOf(core, span) && Tight(core, span.op0, span.op1, MERGE_GAP)
    ensures s + 1 < |spans| ==> spans[s + 1].a0 - span.a1 > MERGE_GAP
  {
    s := s0;
    span := spans[s];
    while s + 1 < |spans| && spans[s + 1].a0 - span.a1 <= 2 * DIFF_CONTEXT_LINES
      invariant s0 <= s < |spans| && span.op0 == spans[s0].op0 && span.op1 == spans[s].op1
      invariant SpanOf(core, span) && Tight(core, span.op0, span.op1, MERGE_GAP)
    {
      MergeNext(core, xs, ys, spans, s, span);
      s := s + 1;
      span := span.(a1 := spans[s].a1, b1 := spans[s].b1, op1 := spans[s].op1);
    }
  }

  /** The groups so far hold every span before the `s`th, which stands more
      than `MERGE_GAP` lines on. */
  ghost predicate Grouped(ops: seq<Op>, groups: seq<Span>, head: int, spans: seq<Span>, s: int)
  {
    0 <= s <= |spans| && SpanList(ops, groups, head + PrevEnd(spans, s), MERGE_GAP) &&
    (s == 0 <==> groups == []) && (s > 0 ==> PrevEnd(groups, |groups|) == head + PrevEnd(spans, s)) &&
    (0 < s < |spans| ==> spans[s].op0 - PrevEnd(spans, s) > MERGE_GAP)
  }

  lemma GroupStart(ops: seq<Op>, groups: seq<Span>, head: int, core: seq<Op>, spans: seq<Span>, s: int)
    requires Grouped(ops, groups, head, spans, s) && s < |spans| && SpanList(core, spans, |core|, 0) && Embeds(ops, head, core)
    ensures SpanOf(core, spans[s]) && Tight(core, spans[s].op0, spans[s].op1, MERGE_GAP)
    ensures var prev, op0 := PrevEnd(groups, |groups|), head + spans[s].op0;
            0 <= prev <= op0 && AllKeep(ops, prev, op0) && (prev == 0 || op0 - prev > MERGE_GAP)
            && (groups != [] ==> op0 - prev > MERGE_GAP) && head + PrevEnd(spans, s) <= op0 && AllKeep(ops, head + PrevEnd(spans, s), op0)
  {
    assert SpanAt(core, spans, s, 0);
    TightWider(core, spans[s].op0, spans[s].op1, MERGE_GAP);
    if s > 0 {
      assert SpanAt(core, spans, s - 1, 0);
    }
    LiftKeeps(ops, head, core, PrevEnd(spans, s), spans[s].op0);
  }

  lemma MergeNext<T>(core: seq<Op>, xs: seq<T>, ys: seq<T>, spans: seq<Span>, s: int, span: Span)
    requires Steps(core, xs, ys, 0, 0) && SpanList(core, spans, |core|, 0) && 0 <= s && s + 1 < |spans|
    requires SpanOf(core, span) && Tight(core, span.op0, span.op1, MERGE_GAP) && span.op1 == spans[s].op1
    requires spans[s + 1].a0 - span.a1 <= MERGE_GAP
    ensures SpanOf(core, span.(a1 := spans[s + 1].a1, b1 := spans[s + 1].b1, op1 := spans[s + 1].op1))
    ensures Tight(core, span.op0, spans[s + 1].op1, MERGE_GAP)
  {
    assert SpanAt(core, spans, s + 1, 0);
    KeepRun(core, xs, ys, span.op1, spans[s + 1].op0);
    Merged(core, span.op0, span.op1, spans[s + 1].op0, spans[s + 1].op1, MERGE_GAP);
  }

  lemma GroupEnd<T>(ops: seq<Op>, head: int, core: seq<Op>, xs: seq<T>, ys: seq<T>, spans: seq<Span>, s: int, span: Span, next: int)
    requires Embeds(ops, head, core) && Steps(core, xs, ys, 0, 0) && SpanList(core, spans, |core|, 0) && 0 <= s < |spans|
    requires next == if s + 1 < |spans| then head + spans[s + 1].op0 else |ops|
    requires SpanOf(core, span) && span.op1 == spans[s].op1
    requires s + 1 < |spans| ==> spans[s + 1].a0 - span.a1 > MERGE_GAP
    ensures head + span.op1 <= next <= |ops| && AllKeep(ops, head + span.op1, next)
    ensures next == |ops| || next - head - span.op1 > MERGE_GAP
    ensures s + 1 < |spans| ==> spans[s + 1].op0 - spans[s].op1 > MERGE_GAP
  {
    if s + 1 < |spans| {
      assert SpanAt(core, spans, s + 1, 0);
      KeepRun(core, xs, ys, span.op1, spans[s + 1].op0);
      LiftKeeps(ops, head, core, span.op1, spans[s + 1].op0);
    } else {
      LiftKeeps(ops, head, core, span.op1, |core|);
    }
  }

  lemma PushGroup(ops: seq<Op>, groups: seq<Span>, head: int, core: seq<Op>, spans: seq<Span>, s: int, span: Span, upto: int)
    requires Embeds(ops, head, core) && SpanList(core, spans, |core|, 0) && 0 <= s < |spans|
    requires SpanOf(core, span) && Tight(core, span.op0, span.op1, MERGE_GAP) && span.op1 == spans[s].op1
    requires SpanList(ops, groups, upto, MERGE_GAP) && upto <= head + span.op0 && AllKeep(ops, upto, head + span.op0)
    requires groups != [] ==> head + span.op0 - PrevEnd(groups, |groups|) > MERGE_GAP
    requires s + 1 < |spans| ==> spans[s + 1].op0 - spans[s].op1 > MERGE_GAP
    ensures Grouped(ops, groups + [Lifted(head, span)], head, spans, s + 1)
  {
    LiftSpan(ops, head, core, span);
    LiftTight(ops, head, core, span.op0, span.op1, MERGE_GAP);
    PushSpan(ops, groups, upto, MERGE_GAP, Lifted(head, span));
  }

  lemma GroupsDone(ops: seq<Op>, groups: seq<Span>, head: int, core: seq<Op>, spans: seq<Span>)
    requires Grouped(ops, groups, head, spans, |spans|) && SpanList(core, spans, |core|, 0) && Embeds(ops, head, core)
    ensures SpanList(ops, groups, |ops|, MERGE_GAP)
  {
    LiftKeeps(ops, head, core, PrevEnd(spans, |spans|), |core|);
  }

  // The whole of it.

  /** The hunks of a least script of the two sides: its changes grouped by
      `MERGE_GAP`, each group with its context. */
  ghost predicate LeastHunks(hs: seq<Hunk>, x: seq<string>, y: seq<string>, aBase: int, bBase: int, edge: bool)
  {
    exists ops, groups :: Least(ops, x, y) && SpanList(ops, groups, |ops|, MERGE_GAP) && HunksOf(hs, ops, x, y, groups, aBase, bBase, edge)
  }

  /** The most lines of a side a window's halves hold at each depth. */
  function HalfCap(depth: nat): nat {
    if depth == 0 then DIFF_WINDOW_LINES else HalfCap(depth - 1) / 2
  }

  /** `x` and `y` are no more than a window's halves at `depth`. */
  predicate InWindow(x: seq<string>, y: seq<string>, depth: nat) {
    depth <= 4 && |x| <= HalfCap(depth) && |y| <= HalfCap(depth)
  }

  lemma HalfCaps()
    ensures HalfCap(0) == 4096 && HalfCap(1) == 2048 && HalfCap(2) == 1024 && HalfCap(3) == 512 && HalfCap(4) == 256
  {
    assert HalfCap(1) == 2048;
    assert HalfCap(2) == 1024;
    assert HalfCap(3) == 512;
  }

  /** Lines both sides share at their heads, then at the tails of what is
      left. */
  method SharedEnds(x: seq<string>, y: seq<string>) returns (head: nat, tail: nat)
    ensures Ends(x, y, head, tail)
    ensures head < |x| && head < |y| ==> x[head] != y[head]
    ensures head + tail < |x| && head + tail < |y| ==> x[|x| - 1 - tail] != y[|y| - 1 - tail]
  {
    head := 0;
    while head < |x| && head < |y| && x[head] == y[head]
      invariant head <= |x| && head <= |y| && forall k :: 0 <= k < head ==> HeadAt(x, y, k)
    {
      head := head + 1;
    }
    tail := 0;
    while tail < |x| - head && tail < |y| - head && x[|x| - 1 - tail] == y[|y| - 1 - tail]
      invariant head + tail <= |x| && head + tail <= |y| && forall k :: 0 <= k < tail ==> TailAt(x, y, k)
    {
      tail := tail + 1;
    }
  }

  ghost predicate NoCoarse(out: seq<Hunk>) {
    forall h :: h in out ==> !h.coarse
  }

  /** The marks of a range's hunks: a coarse one stands only past the split
      depth, over more than `DIFF_MAX_EDITS` lines, and every hunk of a range
      cut at its edge is an edge hunk. */
  ghost predicate Marked(out: seq<Hunk>, deepest: int, edge: bool, depth: int)
  {
    depth <= deepest && (DIFF_SPLIT_DEPTH <= deepest || NoCoarse(out)) &&
    forall h :: h in out ==> (edge ==> h.edge) && (h.coarse ==> h.aEnd - h.aStart + h.bEnd - h.bStart > Myers.DIFF_MAX_EDITS)
  }

  lemma Unsplit(out: seq<Hunk>, core: seq<Op>, groups: seq<Span>, x: seq<string>, y: seq<string>, head: nat, tail: nat,
                aBase: int, bBase: int, edge: bool, depth: int)
    requires head + tail <= |x| && head + tail <= |y| && AllLines(x) && AllLines(y)
    requires Least(core, x[head..|x| - tail], y[head..|y| - tail])
    requires var ops := Whole(head, core, tail);
             Edits(ops, x, y, 0, 0) && SpanList(ops, groups, |ops|, MERGE_GAP) && HunksOf(out, ops, x, y, groups, aBase, bBase, edge)
    ensures PatchOf(out, x, y, aBase, bBase) && LeastHunks(out, x, y, aBase, bBase, edge)
    ensures Marked(out, depth, edge, depth) && NoCoarse(out)
  {
    var ops := Whole(head, core, tail);
    HunksPatch(out, ops, x, y, groups, aBase, bBase, edge);
    WholeCost(head, core, tail);
    LeastWhole(ops, core, x, y, head, tail);
    forall h | h in out
      ensures h.edge == edge && !h.coarse
    {
      var q :| 0 <= q < |out| && out[q] == h;
      assert HunkAt(out, ops, x, y, groups, q, aBase, bBase, edge);
    }
  }

  lemma CoarseOld(xs: seq<string>, ys: seq<string>)
    requires AllLines(xs) && AllLines(ys)
    ensures OldSide(SideBody(Del, xs) + SideBody(Ins, ys)) == xs
  {
    SideLines(Del, xs);
    SideLines(Ins, ys);
    OldAppend(SideBody(Del, xs), SideBody(Ins, ys));
  }

  lemma CoarseLikes(xs: seq<string>, ys: seq<string>)
    requires AllLines(xs) && AllLines(ys)
    ensures LineLikes(SideBody(Del, xs) + SideBody(Ins, ys))
  {
    SideLines(Del, xs);
    SideLines(Ins, ys);
  }

  lemma CoarseNew(xs: seq<string>, ys: seq<string>)
    requires AllLines(xs) && AllLines(ys)
    ensures NewSide(SideBody(Del, xs) + SideBody(Ins, ys)) == ys
  {
    SideLines(Del, xs);
    SideLines(Ins, ys);
    NewAppend(SideBody(Del, xs), SideBody(Ins, ys));
  }

  /** A hunk of one body, whatever it is, says the block of that body's sides. */
  lemma SaysBody(h: Hunk, body: seq<HunkLine>, text: string, b: Blocks.Block<string>)
    requires LineLikes(body) && text == BodyText(body) && h.text == Header(h.aStart, h.aEnd, h.bStart, h.bEnd) + text
    requires b == Blocks.Block(h.aStart, h.aEnd, h.bStart, h.bEnd, OldSide(body), NewSide(body))
    ensures Says([h], [b])
  {
    BodyOf(h, body);
    SaysOne(h, b);
  }

  lemma SaysOne(h: Hunk, b: Blocks.Block<string>)
    requires Headed(h) && b == BlockOf(h)
    ensures Says([h], [b])
  {
    assert SaysAt([h], [b], 0);
  }

  /** The coarse hunk of two sides says all of both. */
  lemma CoarseBody(aStart: int, aEnd: int, bStart: int, bEnd: int, xs: seq<string>, ys: seq<string>, text: string, edge: bool, h: Hunk,
                   b: Blocks.Block<string>)
    requires AllLines(xs) && AllLines(ys) && b == Blocks.Block(aStart, aEnd, bStart, bEnd, xs, ys)
    requires text == BodyText(SideBody(Del, xs) + SideBody(Ins, ys)) && h == WithHeader(aStart, aEnd, bStart, bEnd, text, edge, true)
    ensures Says([h], [b])
    ensures h.coarse && h.edge == edge && h.aEnd - h.aStart == aEnd - aStart && h.bEnd - h.bStart == bEnd - bStart
  {
    CoarseOld(xs, ys);
    CoarseNew(xs, ys);
    CoarseLikes(xs, ys);
    SaysBody(h, SideBody(Del, xs) + SideBody(Ins, ys), text, b);
  }

  lemma OneBlock<T>(b: Blocks.Block<T>, x: seq<T>, y: seq<T>, head: nat, tail: nat, aBase: int, bBase: int)
    requires Ends(x, y, head, tail)
    requires b.aStart == aBase + head && b.aEnd == aBase + |x| - tail && b.bStart == bBase + head && b.bEnd == bBase + |y| - tail
    requires b.dropped == x[head..|x| - tail] && b.made == y[head..|y| - tail]
    ensures Blocks.PatchOf([b], x, y, aBase, bBase)
  {
    SameRange(x, aBase, b.aStart, b.aEnd, head, |x| - tail, b.dropped);
    SameRange(y, bBase, b.bStart, b.bEnd, head, |y| - tail, b.made);
    SharedHead(x, y, head, aBase, bBase);
    SharedTail(x, y, tail, aBase, bBase);
    Blocks.PlacedBy([b], x, y, aBase, bBase, 0, aBase, b.aStart, bBase, b.bStart);
    Blocks.PlacedBy([b], x, y, aBase, bBase, 1, b.aEnd, aBase + |x|, b.bEnd, bBase + |y|);
  }

  lemma SharedHead<T>(x: seq<T>, y: seq<T>, head: nat, aBase: int, bBase: int)
    requires head <= |x| && head <= |y| && forall k :: 0 <= k < head ==> HeadAt(x, y, k)
    ensures Blocks.Same(x, aBase, aBase, aBase + head, y, bBase, bBase, bBase + head)
  {
    forall k | 0 <= k < head
      ensures x[0..head][k] == y[0..head][k]
    {
      assert HeadAt(x, y, k);
    }
    assert x[0..head] == y[0..head];
    assert aBase + head - aBase == head && bBase + head - bBase == head;
  }

  lemma SharedTail<T>(x: seq<T>, y: seq<T>, tail: nat, aBase: int, bBase: int)
    requires tail <= |x| && tail <= |y| && forall k :: 0 <= k < tail ==> TailAt(x, y, k)
    ensures Blocks.Same(x, aBase, aBase + |x| - tail, aBase + |x|, y, bBase, bBase + |y| - tail, bBase + |y|)
  {
    var p, q := |x| - tail, |y| - tail;
    forall k | 0 <= k < tail
      ensures x[p..|x|][k] == y[q..|y|][k]
    {
      assert TailAt(x, y, tail - 1 - k);
    }
    assert x[p..|x|] == y[q..|y|];
    assert aBase + |x| - tail - aBase == p && bBase + |y| - tail - bBase == q;
  }

  /** Every line of a side, dropped or added. */
  function SideBody(op: Op, side: seq<string>): seq<HunkLine> {
    if side == [] then [] else SideBody(op, side[..|side| - 1]) + [HunkLine(op, side[|side| - 1])]
  }

  lemma SidesPush(body: seq<HunkLine>, h: HunkLine)
    ensures OldSide(body + [h]) == OldSide(body) + (if h.op == Ins then [] else [h.line])
    ensures NewSide(body + [h]) == NewSide(body) + (if h.op == Del then [] else [h.line])
  {
    OldAppend(body, [h]);
    NewAppend(body, [h]);
    assert [h][1..] == [];
  }

  lemma {:induction false} SideLines(op: Op, side: seq<string>)
    requires op != Keep && AllLines(side)
    ensures LineLikes(SideBody(op, side))
    ensures OldSide(SideBody(op, side)) == (if op == Del then side else [])
    ensures NewSide(SideBody(op, side)) == (if op == Ins then side else [])
  {
    if side != [] {
      var init, last := side[..|side| - 1], side[|side| - 1];
      SideLines(op, init);
      SidesPush(SideBody(op, init), HunkLine(op, last));
      assert init + [last] == side;
    }
  }

  method SideText(op: Op, side: seq<string>) returns (text: string)
    ensures text == BodyText(SideBody(op, side))
  {
    text := "";
    var i := 0;
    while i < |side|
      invariant 0 <= i <= |side| && text == BodyText(SideBody(op, side[..i]))
    {
      assert side[..i + 1][..i] == side[..i];
      TextPush(SideBody(op, side[..i]), HunkLine(op, side[i]));
      text := text + LineText(op, side[i]);
      i := i + 1;
    }
    assert side[..i] == side;
  }

  /** A core Myers gives up on, as one coarse hunk. */
  method CoarseHunk(x: seq<string>, y: seq<string>, head: nat, tail: nat, xs: seq<string>, ys: seq<string>, aBase: int, bBase: int, edge: bool)
    returns (h: Hunk)
    requires Ends(x, y, head, tail) && AllLines(xs) && AllLines(ys)
    requires xs == x[head..|x| - tail] && ys == y[head..|y| - tail]
    ensures PatchOf([h], x, y, aBase, bBase)
    ensures h.coarse && h.edge == edge && h.aEnd - h.aStart == |xs| && h.bEnd - h.bStart == |ys|
  {
    ghost var block;
    h, block := SidesHunk(xs, ys, aBase + head, bBase + head, edge);
    CoarseMade(h, block, x, y, head, tail, aBase, bBase);
  }

  /** All of one side dropped and all of the other added, in one hunk. */
  method SidesHunk(xs: seq<string>, ys: seq<string>, aStart: int, bStart: int, edge: bool)
    returns (h: Hunk, ghost block: Blocks.Block<string>)
    requires AllLines(xs) && AllLines(ys)
    ensures Says([h], [block]) && block == Blocks.Block(aStart, aStart + |xs|, bStart, bStart + |ys|, xs, ys)
    ensures h.coarse && h.edge == edge && h.aEnd - h.aStart == |xs| && h.bEnd - h.bStart == |ys|
  {
    var text := CoarseText(xs, ys);
    h := MakeHunk(aStart, |xs|, bStart, |ys|, text, edge, true);
    ghost var aEnd, bEnd := aStart + |xs|, bStart + |ys|;
    MadeByEnds(aStart, |xs|, aEnd, bStart, |ys|, bEnd, text, edge, true);
    block := Blocks.Block(aStart, aEnd, bStart, bEnd, xs, ys);
    CoarseBody(aStart, aEnd, bStart, bEnd, xs, ys, text, edge, h, block);
  }

  lemma CoarseMade(h: Hunk, block: Blocks.Block<string>, x: seq<string>, y: seq<string>, head: nat, tail: nat, aBase: int, bBase: int)
    requires Ends(x, y, head, tail) && Says([h], [block])
    requires block.dropped == x[head..|x| - tail] && block.made == y[head..|y| - tail]
    requires block.aStart == aBase + head && block.aEnd == aBase + |x| - tail
    requires block.bStart == bBase + head && block.bEnd == bBase + |y| - tail
    ensures PatchOf([h], x, y, aBase, bBase)
  {
    OneBlock(block, x, y, head, tail, aBase, bBase);
    PatchBy([h], [block], x, y, aBase, bBase);
  }

  method CoarseText(xs: seq<string>, ys: seq<string>) returns (text: string)
    ensures text == BodyText(SideBody(Del, xs) + SideBody(Ins, ys))
  {
    var dropped := SideText(Del, xs);
    var added := SideText(Ins, ys);
    TextAppend(SideBody(Del, xs), SideBody(Ins, ys));
    text := dropped + added;
  }

  /** The search gives up on the two sides: every script has more changes than
      it may spend. */
  ghost predicate TooFar(x: seq<string>, y: seq<string>) {
    forall ops :: Edits(ops, x, y, 0, 0) ==> Cost(ops) > Myers.DIFF_MAX_EDITS
  }

  /** How deep the two sides, themselves at `depth`, are split in halves. */
  ghost function SplitDepth(x: seq<string>, y: seq<string>, depth: nat): (deepest: nat)
    ensures depth <= deepest
    decreases DIFF_SPLIT_DEPTH - depth
  {
    if depth < DIFF_SPLIT_DEPTH && TooFar(x, y) then
      Max(SplitDepth(x[..|x| / 2], y[..|y| / 2], depth + 1), SplitDepth(x[|x| / 2..], y[|y| / 2..], depth + 1))
    else depth
  }

  lemma TooFarIsLong(x: seq<string>, y: seq<string>)
    requires TooFar(x, y)
    ensures |x| + |y| > Myers.DIFF_MAX_EDITS
  {
    CornerReachable(x, y, |x|, |y|);
    CornerExactly(x, y, |x| + |y|);
  }

  /** Trimming shared ends changes nothing in that. */
  lemma TooFarCore(x: seq<string>, y: seq<string>, head: nat, tail: nat, xs: seq<string>, ys: seq<string>)
    requires Ends(x, y, head, tail) && xs == x[head..|x| - tail] && ys == y[head..|y| - tail]
    ensures TooFar(x, y) <==> TooFar(xs, ys)
  {
    if TooFar(x, y) {
      forall ops | Edits(ops, xs, ys, 0, 0)
        ensures Cost(ops) > Myers.DIFF_MAX_EDITS
      {
        WholeScript(ops, x, y, head, tail);
        WholeCost(head, ops, tail);
      }
    }
    if TooFar(xs, ys) {
      forall ops | Edits(ops, x, y, 0, 0)
        ensures Cost(ops) > Myers.DIFF_MAX_EDITS
      {
        var core := CoreScript(ops, x, y, head, tail);
      }
    }
  }

  /** A window of at most `DIFF_WINDOW_LINES` a side is split at most four
      deep. */
  lemma {:induction false} WindowDepth(x: seq<string>, y: seq<string>, depth: nat)
    requires InWindow(x, y, depth)
    ensures SplitDepth(x, y, depth) <= 4
    decreases DIFF_SPLIT_DEPTH - depth
  {
    HalfCaps();
    if TooFar(x, y) {
      TooFarIsLong(x, y);
      HalfWindow(x, y, depth);
      WindowDepth(x[..|x| / 2], y[..|y| / 2], depth + 1);
      WindowDepth(x[|x| / 2..], y[|y| / 2..], depth + 1);
    }
  }

  /** The hunks of one window pair. They are a patch of it; unless the search
      gives up on it they are the hunks of a least script of it; and a coarse
      hunk stands only past the split depth, over more than `DIFF_MAX_EDITS`
      lines. */
  method DiffRange(x: seq<string>, y: seq<string>, aBase: int, bBase: int, edge: bool, depth: nat)
    returns (out: seq<Hunk>)
    requires AllLines(x) && AllLines(y)
    ensures PatchOf(out, x, y, aBase, bBase)
    ensures !TooFar(x, y) ==> LeastHunks(out, x, y, aBase, bBase, edge) && NoCoarse(out)
    ensures Marked(out, SplitDepth(x, y, depth), edge, depth)
    decreases DIFF_SPLIT_DEPTH - depth
  {
    var head, tail := SharedEnds(x, y);
    var xs, ys := x[head..|x| - tail], y[head..|y| - tail];
    TooFarCore(x, y, head, tail, xs, ys);
    if xs == [] && ys == [] {
      if TooFar(xs, ys) {
        TooFarIsLong(xs, ys);
      }
      NoChange(x, y, head, tail, aBase, bBase, edge, depth);
      return [];
    }
    var core := Myers.Diff(xs, ys);
    if core.None? {
      TooFarIsLong(xs, ys);
      if |xs| + |ys| <= DIFF_COARSE_MAX_LINES || depth >= DIFF_SPLIT_DEPTH {
        var h := CoarseHunk(x, y, head, tail, xs, ys, aBase, bBase, edge);
        return [h];
      }
      out := SplitHunks(x, y, aBase, bBase, depth);
      return;
    }
    out := CoreHunks(x, y, xs, ys, head, tail, core.value, aBase, bBase, edge, depth);
  }

  lemma HalfWindow(x: seq<string>, y: seq<string>, depth: nat)
    requires depth < 4
    ensures InWindow(x, y, depth) ==> InWindow(x[..|x| / 2], y[..|y| / 2], depth + 1) && InWindow(x[|x| / 2..], y[|y| / 2..], depth + 1)
  {
    HalfCaps();
  }

  lemma MarkedConcat(p: seq<Hunk>, deep: int, q: seq<Hunk>, deep': int, depth: int)
    requires Marked(p, deep, true, depth) && Marked(q, deep', true, depth)
    ensures Marked(p + q, Max(deep, deep'), true, depth)
  {
    forall h | h in p + q
      ensures h in p || h in q
    {
    }
  }

  lemma HalvesPatch(p: seq<Hunk>, q: seq<Hunk>, x: seq<string>, y: seq<string>, mx: nat, my: nat, aBase: int, bBase: int)
    requires mx <= |x| && my <= |y|
    requires PatchOf(p, x[..mx], y[..my], aBase, bBase) && PatchOf(q, x[mx..], y[my..], aBase + mx, bBase + my)
    ensures PatchOf(p + q, x, y, aBase, bBase)
  {
    assert x[..mx] + x[mx..] == x && y[..my] + y[my..] == y;
    PatchConcat(p, q, x[..mx], y[..my], x[mx..], y[my..], aBase, bBase, aBase + mx, bBase + my);
  }

  lemma HalfLines(x: seq<string>, m: nat)
    requires AllLines(x) && m <= |x|
    ensures AllLines(x[..m]) && AllLines(x[m..])
  {
  }

  lemma HalvesDepth(x: seq<string>, y: seq<string>, mx: nat, my: nat, depth: nat, n: nat)
    requires depth < DIFF_SPLIT_DEPTH && TooFar(x, y) && n == depth + 1 && mx == |x| / 2 && my == |y| / 2
    ensures SplitDepth(x, y, depth) == Max(SplitDepth(x[..mx], y[..my], n), SplitDepth(x[mx..], y[my..], n))
  {
  }

  lemma MarkedHalves(p: seq<Hunk>, deep: nat, q: seq<Hunk>, deep': nat, both: nat, n: nat)
    requires Marked(p, deep, true, n) && Marked(q, deep', true, n) && both == Max(deep, deep')
    ensures Marked(p + q, both, true, n)
  {
    MarkedConcat(p, deep, q, deep', n);
  }

  /** Both sides cut at their midpoints and the halves diffed. */
  method SplitHunks(x: seq<string>, y: seq<string>, aBase: int, bBase: int, depth: nat)
    returns (out: seq<Hunk>)
    requires AllLines(x) && AllLines(y) && depth < DIFF_SPLIT_DEPTH && TooFar(x, y)
    ensures PatchOf(out, x, y, aBase, bBase)
    ensures Marked(out, SplitDepth(x, y, depth), true, depth + 1)
    decreases DIFF_SPLIT_DEPTH - depth, 0
  {
    var mx, my := |x| / 2, |y| / 2;
    HalfLines(x, mx);
    HalfLines(y, my);
    var n := depth + 1;
    out := DiffRange(x[..mx], y[..my], aBase, bBase, true, n);
    var rest := DiffRange(x[mx..], y[my..], aBase + mx, bBase + my, true, n);
    HalvesPatch(out, rest, x, y, mx, my, aBase, bBase);
    HalvesDepth(x, y, mx, my, depth, n);
    MarkedHalves(out, SplitDepth(x[..mx], y[..my], n), rest, SplitDepth(x[mx..], y[my..], n), SplitDepth(x, y, depth), n);
    out := out + rest;
  }

  lemma NoChange(x: seq<string>, y: seq<string>, head: nat, tail: nat, aBase: int, bBase: int, edge: bool, depth: int)
    requires head + tail == |x| == |y| && AllLines(x) && AllLines(y) && Ends(x, y, head, tail)
    ensures PatchOf([], x, y, aBase, bBase) && LeastHunks([], x, y, aBase, bBase, edge)
  {
    WholeScript([], x, y, head, tail);
    WholeEmbeds(head, [], tail);
    Unsplit([], [], [], x, y, head, tail, aBase, bBase, edge, depth);
  }

  /** The hunks of a core's least script. */
  method CoreHunks(x: seq<string>, y: seq<string>, xs: seq<string>, ys: seq<string>, head: nat, tail: nat, core: seq<Op>,
                   aBase: int, bBase: int, edge: bool, ghost depth: int)
    returns (out: seq<Hunk>)
    requires Ends(x, y, head, tail) && AllLines(x) && AllLines(y)
    requires xs == x[head..|x| - tail] && ys == y[head..|y| - tail]
    requires Least(core, xs, ys)
    ensures PatchOf(out, x, y, aBase, bBase) && LeastHunks(out, x, y, aBase, bBase, edge)
    ensures Marked(out, depth, edge, depth) && NoCoarse(out)
  {
    WholeScript(core, x, y, head, tail);
    WholeEmbeds(head, core, tail);
    var spans := ChangeSpans(core);
    ghost var groups;
    out, groups := GroupHunks(x, xs, ys, head, core, spans, aBase, bBase, edge, y, Whole(head, core, tail));
    Unsplit(out, core, groups, x, y, head, tail, aBase, bBase, edge, depth);
  }
}
