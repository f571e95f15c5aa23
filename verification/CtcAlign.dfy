/// Forced alignment of tokens to emission frames: the Viterbi recurrence over
/// blank and token states with a back-pointer table, and the walk back to the
/// tokens' frame spans (scripts/meeting_audio_ctc.py).

module CtcAlign {
  import opened CtcLabels
  import opened Wrappers

  /** A score of the emission matrix, which may not be finite. */
  datatype Cell = Finite(v: real) | NotFinite

  datatype Error = CtcAlignmentUnavailable | InvalidCtcEmissions

  datatype Result<T> = Ok(value: T) | Err(error: Error)

  /** A path score: minus infinity where no path ends. */
  datatype Score = NegInf | Fin(v: real)

  predicate Gt(a: Score, b: Score) {
    a.Fin? && (b.NegInf? || a.v > b.v)
  }

  predicate AtLeast(a: Score, b: Score) {
    b.NegInf? || (a.Fin? && a.v >= b.v)
  }

  function Plus(a: Score, e: real): Score {
    if a.NegInf? then NegInf else Fin(a.v + e)
  }

  predicate RowOk(row: seq<Cell>, width: int) {
    |row| == width && forall k :: 0 <= k < |row| ==> row[k].Finite?
  }

  /** What the emissions must be: a blank and tokens that are labels of the
      rows, no token the blank, and every score finite. */
  predicate Valid(em: seq<seq<Cell>>, tokens: seq<int>, blank: int)
  {
    em != [] && 0 <= blank < |em[0]| &&
    (forall t :: 0 <= t < |tokens| ==> 0 <= tokens[t] < |em[0]| && tokens[t] != blank) &&
    (forall f :: 0 <= f < |em| ==> RowOk(em[f], |em[0]|))
  }

  /** The emission of label `k` in frame `f`. */
  function E(em: seq<seq<Cell>>, f: int, k: int): real
  {
    if 0 <= f < |em| && 0 <= k < |em[f]| && em[f][k].Finite? then em[f][k].v else 0.0
  }

  /** The total emission of a labelling of the first `|l|` frames. */
  function Total(em: seq<seq<Cell>>, l: seq<int>): real
  {
    if l == [] then 0.0 else Total(em, l[..|l| - 1]) + E(em, |l| - 1, l[|l| - 1])
  }

  lemma TotalPush(em: seq<seq<Cell>>, l: seq<int>, x: int)
    ensures Total(em, l + [x]) == Total(em, l) + E(em, |l|, x)
  {
    assert (l + [x])[..|l|] == l;
  }

  // One frame of the recurrence.

  ghost function At(row: seq<Score>, s: int): Score {
    if 0 <= s < |row| then row[s] else NegInf
  }

  /** Row `next` follows row `prev` by one frame: each state's score is its
      label's emission past the best state it can be come to from, which
      `steps` says. */
  ghost predicate FollowsAt(em: seq<seq<Cell>>, tokens: seq<int>, blank: int, f: int, prev: seq<Score>, next: seq<Score>, steps: seq<int>, s: int)
  {
    0 <= s < |steps| && 0 <= s - steps[s] && CanStep(tokens, blank, s - steps[s], s) &&
    At(next, s) == Plus(At(prev, s - steps[s]), E(em, f, Label(tokens, blank, s))) &&
    forall from :: 0 <= from <= s && CanStep(tokens, blank, from, s) ==> AtLeast(At(prev, s - steps[s]), At(prev, from))
  }

  ghost predicate Follows(em: seq<seq<Cell>>, tokens: seq<int>, blank: int, f: int, prev: seq<Score>, next: seq<Score>, steps: seq<int>)
  {
    |prev| == |next| == |steps| == 2 * |tokens| + 1 &&
    forall s :: 0 <= s <= 2 * |tokens| ==> FollowsAt(em, tokens, blank, f, prev, next, steps, s)
  }

  /** No labelling of the first frames that spells a prefix of the tokens
      beats the score of the state it ends in. */
  ghost predicate Bounded(em: seq<seq<Cell>>, tokens: seq<int>, blank: int, row: seq<Score>, l: seq<int>)
  {
    Spells(l, tokens, blank) ==> AtLeast(At(row, StateOf(l, blank)), Fin(Total(em, l)))
  }

  ghost predicate Best(em: seq<seq<Cell>>, tokens: seq<int>, blank: int, f: int, row: seq<Score>)
  {
    forall l: seq<int> :: |l| == f ==> Bounded(em, tokens, blank, row, l)
  }

  lemma BestStep(em: seq<seq<Cell>>, tokens: seq<int>, blank: int, f: int, prev: seq<Score>, next: seq<Score>, steps: seq<int>)
    requires blank !in tokens && 0 <= f && Best(em, tokens, blank, f, prev) && Follows(em, tokens, blank, f, prev, next, steps)
    ensures Best(em, tokens, blank, f + 1, next)
  {
    forall l: seq<int> | |l| == f + 1
      ensures Bounded(em, tokens, blank, next, l)
    {
      var init, x := l[..f], l[f];
      assert l == init + [x];
      if Spells(l, tokens, blank) {
        FrameSteps(init, x, tokens, blank);
        TotalPush(em, init, x);
        assert Bounded(em, tokens, blank, prev, init);
        var s := StateOf(l, blank);
        assert FollowsAt(em, tokens, blank, f, prev, next, steps, s);
      }
    }
  }

  lemma BestStart(em: seq<seq<Cell>>, tokens: seq<int>, blank: int, row: seq<Score>)
    requires |row| == 2 * |tokens| + 1 && row[0] == Fin(0.0)
    ensures Best(em, tokens, blank, 0, row)
  {
    forall l: seq<int> | |l| == 0
      ensures Bounded(em, tokens, blank, row, l)
    {
      assert l == [];
    }
  }

  // The back-pointer table.

  /** The table's entries, a frame after another. */
  function Flat(steps: seq<seq<int>>): seq<int> {
    if steps == [] then [] else Flat(steps[..|steps| - 1]) + steps[|steps| - 1]
  }

  lemma {:induction false} FlatAt(steps: seq<seq<int>>, size: nat, f: int, s: int)
    requires forall k :: 0 <= k < |steps| ==> |steps[k]| == size
    requires 0 <= f < |steps| && 0 <= s < size
    ensures |Flat(steps)| == |steps| * size && 0 <= f * size + s < |Flat(steps)| && Flat(steps)[f * size + s] == steps[f][s]
    decreases |steps|
  {
    var init := steps[..|steps| - 1];
    FlatLength(init, size);
    FlatLength(steps, size);
    if f < |init| {
      FlatAt(init, size, f, s);
    }
  }

  lemma {:induction false} FlatLength(steps: seq<seq<int>>, size: nat)
    requires forall k :: 0 <= k < |steps| ==> |steps[k]| == size
    ensures |Flat(steps)| == |steps| * size
    decreases |steps|
  {
    if steps != [] {
      FlatLength(steps[..|steps| - 1], size);
      assert |steps| * size == (|steps| - 1) * size + size;
    }
  }

  /** The best state to come to `state` from, and how far back it is: staying
      before moving on before skipping, each only when strictly better. */
  method BestFrom(previous: seq<Score>, states: seq<int>, state: nat, tokens: seq<int>, blank: int) returns (best: Score, step: int)
    requires |previous| == |states| == 2 * |tokens| + 1 && state < |states|
    requires forall s :: 0 <= s < |states| ==> states[s] == Label(tokens, blank, s)
    ensures 0 <= step <= 2 && 0 <= state - step && CanStep(tokens, blank, state - step, state) && best == At(previous, state - step)
    ensures forall from :: 0 <= from <= state && CanStep(tokens, blank, from, state) ==> AtLeast(best, At(previous, from))
    ensures step > 0 ==> Gt(best, previous[state])
  {
    best, step := previous[state], 0;
    if state > 0 && Gt(previous[state - 1], best) {
      best, step := previous[state - 1], 1;
    }
    if state > 1 && states[state] != blank && states[state] != states[state - 2] && Gt(previous[state - 2], best) {
      best, step := previous[state - 2], 2;
    }
  }

  /** `done` written over `was` from `base` on. */
  ghost predicate Written(now: seq<int>, was: seq<int>, base: int, done: seq<int>) {
    0 <= base && base + |done| <= |was| && now == was[..base] + done + was[base + |done|..]
  }

  lemma WriteNext(was: seq<int>, base: int, done: seq<int>, at: int, step: int, now: seq<int>)
    requires Written(now, was, base, done) && at == base + |done| < |was|
    ensures |now| == |was| && Written(now[at := step], was, base, done + [step])
  {
  }

  /** One frame: the next row of scores, and its steps in the table from
      `base` on. */
  method Frame(em: seq<seq<Cell>>, tokens: seq<int>, blank: int, f: nat, previous: seq<Score>, states: seq<int>, trace: array<int>, base: nat)
    returns (current: seq<Score>, ghost steps: seq<int>)
    requires Valid(em, tokens, blank) && f < |em| && |previous| == |states| == 2 * |tokens| + 1
    requires forall s :: 0 <= s < |states| ==> states[s] == Label(tokens, blank, s)
    requires base + |states| <= trace.Length
    modifies trace
    ensures Follows(em, tokens, blank, f, previous, current, steps)
    ensures trace[..] == old(trace[..base]) + steps + old(trace[base + |states|..])
  {
    var emission, size := em[f], |states|;
    current, steps := [], [];
    ghost var was := trace[..];
    assert RowOk(em[f], |em[0]|);
    var state := 0;
    while state < size
      invariant 0 <= state <= size && |current| == |steps| == state
      invariant Written(trace[..], was, base, steps)
      invariant forall s :: 0 <= s < state ==> FollowsAt(em, tokens, blank, f, previous, current, steps, s)
    {
      var best, step := BestFrom(previous, states, state, tokens, blank);
      var symbol := states[state];
      var score := Plus(best, emission[symbol].v);
      FollowsPush(em, tokens, blank, f, previous, current, steps, score, step);
      ghost var at := base + state;
      WriteNext(was, base, steps, at, step, trace[..]);
      ghost var written := trace[..][at := step];
      current := current + [score];
      steps := steps + [step];
      trace[base + state] := step;
      assert trace[..] == written;
      state := state + 1;
    }
  }

  lemma FollowsPush(em: seq<seq<Cell>>, tokens: seq<int>, blank: int, f: nat, prev: seq<Score>, next: seq<Score>, steps: seq<int>,
                    score: Score, step: int)
    requires |next| == |steps| <= 2 * |tokens|
    requires forall s :: 0 <= s < |next| ==> FollowsAt(em, tokens, blank, f, prev, next, steps, s)
    requires var s := |next|;
             0 <= s - step && CanStep(tokens, blank, s - step, s) && score == Plus(At(prev, s - step), E(em, f, Label(tokens, blank, s))) &&
             forall from :: 0 <= from <= s && CanStep(tokens, blank, from, s) ==> AtLeast(At(prev, s - step), At(prev, from))
    ensures forall s :: 0 <= s <= |next| ==> FollowsAt(em, tokens, blank, f, prev, next + [score], steps + [step], s)
  {
    forall s | 0 <= s <= |next|
      ensures FollowsAt(em, tokens, blank, f, prev, next + [score], steps + [step], s)
    {
      if s < |next| {
        assert FollowsAt(em, tokens, blank, f, prev, next, steps, s);
      }
    }
  }

  // The forward pass.

  /** Row after row: rows `0..frames` of scores and the steps between them. */
  ghost predicate RowAt(em: seq<seq<Cell>>, tokens: seq<int>, blank: int, rows: seq<seq<Score>>, steps: seq<seq<int>>, f: int)
  {
    0 <= f && f + 1 < |rows| && f < |steps| && Follows(em, tokens, blank, f, rows[f], rows[f + 1], steps[f])
  }

  ghost predicate Start(tokens: seq<int>, row: seq<Score>)
  {
    |row| == 2 * |tokens| + 1 && row[0] == Fin(0.0) && forall s :: 0 < s < |row| ==> row[s] == NegInf
  }

  ghost predicate Rows(em: seq<seq<Cell>>, tokens: seq<int>, blank: int, rows: seq<seq<Score>>, steps: seq<seq<int>>)
  {
    |rows| == |steps| + 1 && Start(tokens, rows[0]) &&
    forall f :: 0 <= f < |steps| ==> RowAt(em, tokens, blank, rows, steps, f)
  }

  lemma RowsPush(em: seq<seq<Cell>>, tokens: seq<int>, blank: int, rows: seq<seq<Score>>, steps: seq<seq<int>>, next: seq<Score>, step: seq<int>)
    requires Rows(em, tokens, blank, rows, steps) && Follows(em, tokens, blank, |steps|, rows[|steps|], next, step)
    ensures Rows(em, tokens, blank, rows + [next], steps + [step])
  {
    forall f | 0 <= f < |steps + [step]|
      ensures RowAt(em, tokens, blank, rows + [next], steps + [step], f)
    {
      if f < |steps| {
        assert RowAt(em, tokens, blank, rows, steps, f);
      }
    }
  }

  lemma StepSizes(em: seq<seq<Cell>>, tokens: seq<int>, blank: int, rows: seq<seq<Score>>, steps: seq<seq<int>>)
    requires Rows(em, tokens, blank, rows, steps)
    ensures forall k :: 0 <= k < |steps| ==> |steps[k]| == 2 * |tokens| + 1
    ensures |Flat(steps)| == |steps| * (2 * |tokens| + 1)
  {
    forall k | 0 <= k < |steps|
      ensures |steps[k]| == 2 * |tokens| + 1
    {
      assert RowAt(em, tokens, blank, rows, steps, k);
    }
    FlatLength(steps, 2 * |tokens| + 1);
  }

  lemma FlatPush(steps: seq<seq<int>>, step: seq<int>)
    ensures Flat(steps + [step]) == Flat(steps) + step
  {
    assert (steps + [step])[..|steps|] == steps;
  }

  /** The rows of the first frames, the last of them `previous`. */
  ghost predicate Filled(em: seq<seq<Cell>>, tokens: seq<int>, blank: int, rows: seq<seq<Score>>, steps: seq<seq<int>>, previous: seq<Score>) {
    Rows(em, tokens, blank, rows, steps) && previous == rows[|steps|] && Best(em, tokens, blank, |steps|, previous)
  }

  lemma FilledNext(em: seq<seq<Cell>>, tokens: seq<int>, blank: int, rows: seq<seq<Score>>, steps: seq<seq<int>>, previous: seq<Score>,
                   current: seq<Score>, step: seq<int>)
    requires blank !in tokens && Filled(em, tokens, blank, rows, steps, previous)
    requires Follows(em, tokens, blank, |steps|, previous, current, step)
    ensures Filled(em, tokens, blank, rows + [current], steps + [step], current)
    ensures Flat(steps + [step]) == Flat(steps) + step
  {
    BestStep(em, tokens, blank, |steps|, previous, current, step);
    RowsPush(em, tokens, blank, rows, steps, current, step);
    FlatPush(steps, step);
  }

  /** Every frame's row in turn; the table holds every step, and no labelling
      beats the last row. */
  method Forward(em: seq<seq<Cell>>, tokens: seq<int>, blank: int, states: seq<int>)
    returns (trace: array<int>, previous: seq<Score>, ghost rows: seq<seq<Score>>, ghost steps: seq<seq<int>>)
    requires Valid(em, tokens, blank) && |states| == 2 * |tokens| + 1
    requires forall s :: 0 <= s < |states| ==> states[s] == Label(tokens, blank, s)
    ensures |steps| == |em| && Rows(em, tokens, blank, rows, steps) && previous == rows[|em|]
    ensures |previous| == |states| && trace[..] == Flat(steps) && Best(em, tokens, blank, |em|, previous)
  {
    var size := |states|;
    var cells := |em| * size;
    trace := new int[cells];
    previous := seq(size, s requires 0 <= s < size => if s == 0 then Fin(0.0) else NegInf);
    rows, steps := [previous], [];
    assert blank !in tokens;
    BestStart(em, tokens, blank, previous);
    var frame, base := 0, 0;
    while frame < |em|
      invariant 0 <= frame == |steps| <= |em| && Place(frame, |em|, size, base, cells)
      invariant Filled(em, tokens, blank, rows, steps, previous)
      invariant |previous| == size && trace.Length == cells && trace[..base] == Flat(steps)
    {
      Room(frame, |em|, size, base, cells);
      ghost var done := trace[..base];
      var current, step := Frame(em, tokens, blank, frame, previous, states, trace, base);
      FilledNext(em, tokens, blank, rows, steps, previous, current, step);
      assert trace[..base + size] == done + step;
      previous := current;
      rows, steps := rows + [current], steps + [step];
      frame, base := frame + 1, base + size;
    }
    assert trace[..base] == trace[..];
  }

  /** Frame `frame`'s entries start at `base` of the table's `cells`. */
  ghost predicate Place(frame: int, frames: int, size: int, base: int, cells: int) {
    0 <= frame <= frames && 0 <= base <= cells && base == frame * size && cells == frames * size && (frame == frames ==> base == cells)
  }

  lemma Distribute(p: int, q: int, size: int)
    ensures (p + q) * size == p * size + q * size
  {
  }

  lemma Room(frame: int, frames: int, size: int, base: int, cells: int)
    requires Place(frame, frames, size, base, cells) && frame < frames && 0 <= size
    ensures Place(frame + 1, frames, size, base + size, cells) && base + size <= cells
  {
    Distribute(frame, 1, size);
    Distribute(frame + 1, frames - frame - 1, size);
    NonNegative(frames - frame - 1, size);
  }

  lemma NonNegative(p: int, q: int)
    requires 0 <= p && 0 <= q
    ensures 0 <= p * q
  {
  }

  // A path of states.

  ghost predicate StepsAt(tokens: seq<int>, blank: int, path: seq<int>, k: int)
  {
    0 <= k < |path| && 0 <= path[k] <= 2 * |tokens| && (k > 0 ==> CanStep(tokens, blank, path[k - 1], path[k]))
  }

  /** Each state of a path is a step from the one before. */
  ghost predicate Path(tokens: seq<int>, blank: int, path: seq<int>)
  {
    forall k :: 0 <= k < |path| ==> StepsAt(tokens, blank, path, k)
  }

  ghost function LabelsOf(tokens: seq<int>, blank: int, path: seq<int>): (l: seq<int>)
    ensures |l| == |path| && forall k :: 0 <= k < |path| ==> l[k] == Label(tokens, blank, path[k])
  {
    seq(|path|, k requires 0 <= k < |path| => Label(tokens, blank, path[k]))
  }

  lemma PathPrefix(tokens: seq<int>, blank: int, path: seq<int>, n: nat)
    requires Path(tokens, blank, path) && n <= |path|
    ensures Path(tokens, blank, path[..n]) && LabelsOf(tokens, blank, path[..n]) == LabelsOf(tokens, blank, path)[..n]
  {
    forall k | 0 <= k < n
      ensures StepsAt(tokens, blank, path[..n], k)
    {
      assert StepsAt(tokens, blank, path, k);
    }
  }

  /** A path from the start spells the tokens it has passed. */
  lemma {:induction false} PathSpells(tokens: seq<int>, blank: int, path: seq<int>)
    requires blank !in tokens && Path(tokens, blank, path) && (path != [] ==> CanStep(tokens, blank, 0, path[0]))
    ensures var l := LabelsOf(tokens, blank, path);
            Spells(l, tokens, blank) && StateOf(l, blank) == if path == [] then 0 else path[|path| - 1]
    decreases |path|
  {
    if path != [] {
      var n := |path| - 1;
      PathPrefix(tokens, blank, path, n);
      PathSpells(tokens, blank, path[..n]);
      assert StepsAt(tokens, blank, path, n);
      var l := LabelsOf(tokens, blank, path);
      StepFrames(l[..n], path[n], tokens, blank);
      assert l == l[..n] + [Label(tokens, blank, path[n])];
    }
  }

  /** The emission of a path from frame `i` on. */
  ghost function Rest(em: seq<seq<Cell>>, tokens: seq<int>, blank: int, path: seq<int>, i: int): real
  {
    if path == [] then 0.0 else
    E(em, i, Label(tokens, blank, path[0])) + Rest(em, tokens, blank, path[1..], i + 1)
  }

  lemma {:induction false} RestTotal(em: seq<seq<Cell>>, tokens: seq<int>, blank: int, path: seq<int>, n: nat)
    requires Path(tokens, blank, path) && n <= |path|
    ensures Total(em, LabelsOf(tokens, blank, path)[..n]) + Rest(em, tokens, blank, path[n..], n) == Total(em, LabelsOf(tokens, blank, path))
    decreases |path| - n
  {
    var l := LabelsOf(tokens, blank, path);
    if n == |path| {
      assert l[..n] == l;
    } else {
      RestTotal(em, tokens, blank, path, n + 1);
      assert StepsAt(tokens, blank, path, n);
      assert l[..n + 1] == l[..n] + [l[n]];
      TotalPush(em, l[..n], l[n]);
      assert path[n..][1..] == path[n + 1..];
    }
  }

  // The walk back.

  /** Token `t`'s frames in a path that starts at frame `i`: none yet, or a
      span of frames, exactly those in its state. */
  ghost predicate SpanAt(spans: seq<Option<(int, int)>>, t: int, path: seq<int>, i: int)
  {
    0 <= t < |spans| &&
    match spans[t]
    case None => forall k :: 0 <= k < |path| ==> path[k] != 2 * t + 1
    case Some((from, to)) =>
      i <= from < to <= i + |path| && forall k :: 0 <= k < |path| ==> (path[k] == 2 * t + 1 <==> from <= i + k < to)
  }

  ghost predicate SpansOf(spans: seq<Option<(int, int)>>, path: seq<int>, i: int)
  {
    forall t :: 0 <= t < |spans| ==> SpanAt(spans, t, path, i)
  }

  ghost predicate Rising(path: seq<int>, from: int)
  {
    (forall k :: 0 <= k < |path| ==> from <= path[k]) && forall k, m :: 0 <= k <= m < |path| ==> path[k] <= path[m]
  }

  /** A frame put before the path: its state's token span begins at it. */
  lemma SpanFrame(spans: seq<Option<(int, int)>>, path: seq<int>, i: int, state: int, after: seq<Option<(int, int)>>)
    requires SpansOf(spans, path, i) && Rising(path, state) && 0 <= state <= 2 * |spans| && |after| == |spans|
    requires forall u :: 0 <= u < |spans| ==>
               after[u] == if state == 2 * u + 1 then Some((i - 1, if spans[u].Some? then spans[u].value.1 else i)) else spans[u]
    ensures SpansOf(after, [state] + path, i - 1)
  {
    var longer, j := [state] + path, i - 1;
    forall u | 0 <= u < |after|
      ensures SpanAt(after, u, longer, j)
    {
      assert SpanAt(spans, u, path, i);
      assert forall k :: 0 <= k < |path| ==> longer[k + 1] == path[k];
      if state == 2 * u + 1 && spans[u].Some? {
        var from := spans[u].value.0;
        assert path[from - i] == state;
        assert path[0] == state;
        assert from == i;
      }
    }
  }

  /** A row's score, when it is finite, is come to from a finite score. */
  lemma FiniteBefore(em: seq<seq<Cell>>, tokens: seq<int>, blank: int, rows: seq<seq<Score>>, steps: seq<seq<int>>, f: int, s: int)
    requires Rows(em, tokens, blank, rows, steps) && 0 <= f < |steps| && 0 <= s <= 2 * |tokens| && At(rows[f + 1], s).Fin?
    ensures |steps[f]| == 2 * |tokens| + 1 && 0 <= s - steps[f][s] && CanStep(tokens, blank, s - steps[f][s], s)
    ensures At(rows[f], s - steps[f][s]).Fin?
    ensures At(rows[f + 1], s).v == At(rows[f], s - steps[f][s]).v + E(em, f, Label(tokens, blank, s))
  {
    assert RowAt(em, tokens, blank, rows, steps, f);
    assert FollowsAt(em, tokens, blank, f, rows[f], rows[f + 1], steps[f], s);
  }

  /** The path from frame `i` on walked back so far, the state before it, and
      how much of the final score it makes up. */
  ghost predicate Walked(em: seq<seq<Cell>>, tokens: seq<int>, blank: int, rows: seq<seq<Score>>, path: seq<int>, i: int, state: int, final: real)
  {
    0 <= i < |rows| && 0 <= state <= 2 * |tokens| && Path(tokens, blank, path) && Rising(path, state) &&
    (path != [] ==> CanStep(tokens, blank, state, path[0])) &&
    At(rows[i], state).Fin? && At(rows[i], state).v + Rest(em, tokens, blank, path, i) == final
  }

  lemma WalkStep(em: seq<seq<Cell>>, tokens: seq<int>, blank: int, rows: seq<seq<Score>>, steps: seq<seq<int>>, path: seq<int>, i: int,
                 state: int, final: real)
    requires Rows(em, tokens, blank, rows, steps) && Walked(em, tokens, blank, rows, path, i, state, final) && 0 < i <= |steps|
    ensures |steps[i - 1]| == 2 * |tokens| + 1
    ensures Walked(em, tokens, blank, rows, [state] + path, i - 1, state - steps[i - 1][state], final)
  {
    FiniteBefore(em, tokens, blank, rows, steps, i - 1, state);
    var longer := [state] + path;
    forall k | 0 <= k < |longer|
      ensures StepsAt(tokens, blank, longer, k)
    {
      if k > 0 {
        assert StepsAt(tokens, blank, path, k - 1);
      }
    }
    assert longer[1..] == path;
  }

  /** The path read back from the table, as each token's span. */
  method WalkBack(em: seq<seq<Cell>>, tokens: seq<int>, blank: int, size: nat, trace: array<int>, last: int,
                  ghost rows: seq<seq<Score>>, ghost steps: seq<seq<int>>)
    returns (spans: seq<Option<(int, int)>>, state: int, ghost path: seq<int>)
    requires Rows(em, tokens, blank, rows, steps) && |steps| == |em| && trace[..] == Flat(steps)
    requires size == 2 * |tokens| + 1 && 0 <= last < size && At(rows[|em|], last).Fin?
    ensures |spans| == |tokens| && |path| == |em| && SpansOf(spans, path, 0) && Rising(path, 0)
    ensures Walked(em, tokens, blank, rows, path, 0, state, At(rows[|em|], last).v)
    ensures path != [] ==> path[|path| - 1] == last
    ensures path == [] ==> state == last
  {
    spans := seq(|tokens|, _ => None);
    path := [];
    state := last;
    ghost var final := At(rows[|em|], last).v;
    StepSizes(em, tokens, blank, rows, steps);
    var i := |em|;
    while i > 0
      invariant 0 <= i <= |em| && |spans| == |tokens| && |path| == |em| - i
      invariant Walked(em, tokens, blank, rows, path, i, state, final) && SpansOf(spans, path, i)
      invariant if path == [] then state == last else path[|path| - 1] == last
    {
      var frame := i - 1;
      ghost var was := spans;
      WalkStep(em, tokens, blank, rows, steps, path, i, state, final);
      FlatAt(steps, size, frame, state);
      if state % 2 == 1 {
        var token := state / 2;
        spans := spans[token := Some((frame, if spans[token].Some? then spans[token].value.1 else frame + 1))];
      }
      SpanFrame(was, path, i, state, spans);
      path := [state] + path;
      state := state - trace[frame * size + state];
      i := frame;
    }
  }

  /** A whole path passes every token: no token's state can be skipped. */
  lemma {:induction false} TokenVisited(tokens: seq<int>, blank: int, path: seq<int>, t: int, k: int)
    requires blank !in tokens && Path(tokens, blank, path) && path != [] && CanStep(tokens, blank, 0, path[0])
    requires 0 <= t < |tokens| && 0 <= k < |path| && path[k] >= 2 * t + 1
    ensures exists m :: 0 <= m <= k && path[m] == 2 * t + 1
    decreases k
  {
    assert StepsAt(tokens, blank, path, k);
    if path[k] != 2 * t + 1 {
      if k > 0 && path[k - 1] >= 2 * t + 1 {
        TokenVisited(tokens, blank, path, t, k - 1);
      }
    }
  }

  // What the spans say.

  ghost predicate InSpan(spans: seq<(int, int)>, t: int, f: int) {
    0 <= t < |spans| && spans[t].0 <= f < spans[t].1
  }

  /** The label spans give a frame: the token whose span it is in, or a blank. */
  ghost function LabelIn(spans: seq<(int, int)>, tokens: seq<int>, blank: int, f: int): int
  {
    if exists t :: 0 <= t < |tokens| && InSpan(spans, t, f) then
      var t :| 0 <= t < |tokens| && InSpan(spans, t, f);
      tokens[t]
    else blank
  }

  ghost function Labelling(spans: seq<(int, int)>, tokens: seq<int>, blank: int, frames: nat): (l: seq<int>)
    ensures |l| == frames
  {
    seq(frames, f => LabelIn(spans, tokens, blank, f))
  }

  /** The labelling of a path's spans is the path's own. */
  lemma LabellingOfPath(spans: seq<(int, int)>, found: seq<Option<(int, int)>>, tokens: seq<int>, blank: int, path: seq<int>)
    requires |spans| == |found| == |tokens| && Path(tokens, blank, path) && SpansOf(found, path, 0)
    requires forall t :: 0 <= t < |spans| ==> found[t] == Some(spans[t])
    ensures Labelling(spans, tokens, blank, |path|) == LabelsOf(tokens, blank, path)
  {
    forall f | 0 <= f < |path|
      ensures LabelIn(spans, tokens, blank, f) == Label(tokens, blank, path[f])
    {
      assert StepsAt(tokens, blank, path, f);
      forall t | 0 <= t < |tokens|
        ensures InSpan(spans, t, f) <==> path[f] == 2 * t + 1
      {
        assert SpanAt(found, t, path, 0);
      }
      if path[f] % 2 == 1 {
        assert InSpan(spans, path[f] / 2, f);
      }
    }
  }

  /** The spans are nonempty, in order and disjoint within the frames, with a
      frame between equal neighbours. */
  ghost predicate Ordered(spans: seq<(int, int)>, tokens: seq<int>, frames: int)
  {
    |spans| == |tokens| &&
    (forall t :: 0 <= t < |spans| ==> 0 <= spans[t].0 < spans[t].1 <= frames) &&
    (forall t :: 0 < t < |spans| ==> spans[t - 1].1 + (if tokens[t - 1] == tokens[t] then 1 else 0) <= spans[t].0)
  }

  lemma SpansOrdered(spans: seq<(int, int)>, found: seq<Option<(int, int)>>, tokens: seq<int>, blank: int, path: seq<int>)
    requires |spans| == |found| == |tokens| && Path(tokens, blank, path) && Rising(path, 0) && SpansOf(found, path, 0)
    requires forall t :: 0 <= t < |spans| ==> found[t] == Some(spans[t])
    ensures Ordered(spans, tokens, |path|)
  {
    forall t | 0 <= t < |spans|
      ensures 0 <= spans[t].0 < spans[t].1 <= |path|
    {
      assert SpanAt(found, t, path, 0);
    }
    forall t | 0 < t < |spans|
      ensures spans[t - 1].1 + (if tokens[t - 1] == tokens[t] then 1 else 0) <= spans[t].0
    {
      SpanAfter(spans, found, tokens, blank, path, t);
    }
  }

  lemma SpanAfter(spans: seq<(int, int)>, found: seq<Option<(int, int)>>, tokens: seq<int>, blank: int, path: seq<int>, t: int)
    requires |spans| == |found| == |tokens| && Path(tokens, blank, path) && Rising(path, 0) && SpansOf(found, path, 0)
    requires forall t :: 0 <= t < |spans| ==> found[t] == Some(spans[t])
    requires 0 < t < |spans|
    ensures spans[t - 1].1 + (if tokens[t - 1] == tokens[t] then 1 else 0) <= spans[t].0
  {
    assert SpanAt(found, t - 1, path, 0) && SpanAt(found, t, path, 0);
    var last, first := spans[t - 1].1 - 1, spans[t].0;
    assert path[last] == 2 * (t - 1) + 1 && path[first] == 2 * t + 1;
    if first == last + 1 {
      assert StepsAt(tokens, blank, path, first);
    }
  }

  /** The guard: the tokens and a blank between each equal pair need as many
      frames. It is exact: short of them no labelling spells the tokens, and
      from them on one does. */
  lemma GuardExact(tokens: seq<int>, blank: int, frames: nat)
    requires blank !in tokens
    ensures (exists l: seq<int> :: |l| == frames && Collapse(l, blank) == tokens) <==> frames >= Needs(tokens)
  {
    forall l: seq<int> | |l| == frames && Collapse(l, blank) == tokens
      ensures frames >= Needs(tokens)
    {
      FramesNeeded(l, blank);
    }
    if frames >= Needs(tokens) {
      var l := FramesEnough(tokens, blank, frames);
    }
  }

  /** Whole labellings end in one of the last two states. */
  lemma WholeEnds(l: seq<int>, tokens: seq<int>, blank: int)
    requires Collapse(l, blank) == tokens && tokens != []
    ensures Spells(l, tokens, blank) && (StateOf(l, blank) == 2 * |tokens| || StateOf(l, blank) == 2 * |tokens| - 1)
  {
  }

  /** Where the best whole path ends, and that there is one. */
  lemma EndBest(em: seq<seq<Cell>>, tokens: seq<int>, blank: int, row: seq<Score>, state: int)
    requires blank !in tokens && tokens != [] && |row| == 2 * |tokens| + 1 && Best(em, tokens, blank, |em|, row)
    requires |em| >= Needs(tokens)
    requires state == if AtLeast(row[2 * |tokens|], row[2 * |tokens| - 1]) then 2 * |tokens| else 2 * |tokens| - 1
    ensures row[state].Fin?
    ensures forall l: seq<int> :: |l| == |em| && Collapse(l, blank) == tokens ==> Total(em, l) <= row[state].v
  {
    forall l: seq<int> | |l| == |em| && Collapse(l, blank) == tokens
      ensures AtLeast(row[state], Fin(Total(em, l)))
    {
      BelowEnd(em, tokens, blank, row, state, l);
    }
    var some := FramesEnough(tokens, blank, |em|);
    assert AtLeast(row[state], Fin(Total(em, some)));
  }

  lemma BelowEnd(em: seq<seq<Cell>>, tokens: seq<int>, blank: int, row: seq<Score>, state: int, l: seq<int>)
    requires tokens != [] && |row| == 2 * |tokens| + 1 && Best(em, tokens, blank, |em|, row)
    requires state == if AtLeast(row[2 * |tokens|], row[2 * |tokens| - 1]) then 2 * |tokens| else 2 * |tokens| - 1
    requires |l| == |em| && Collapse(l, blank) == tokens
    ensures AtLeast(row[state], Fin(Total(em, l)))
  {
    WholeEnds(l, tokens, blank);
    assert Bounded(em, tokens, blank, row, l);
    assert AtLeast(row[state], row[StateOf(l, blank)]);
  }

  /** The path walked back from there spells the tokens at that score, and
      passes each. */
  lemma WholePath(em: seq<seq<Cell>>, tokens: seq<int>, blank: int, rows: seq<seq<Score>>, path: seq<int>, state: int, final: real)
    requires blank !in tokens && tokens != [] && rows != [] && Start(tokens, rows[0]) && path != []
    requires Walked(em, tokens, blank, rows, path, 0, state, final) && path[|path| - 1] >= 2 * |tokens| - 1
    ensures state == 0 && Collapse(LabelsOf(tokens, blank, path), blank) == tokens && Total(em, LabelsOf(tokens, blank, path)) == final
    ensures forall t :: 0 <= t < |tokens| ==> (2 * t + 1) in path
  {
    PathSpells(tokens, blank, path);
    RestTotal(em, tokens, blank, path, 0);
    assert path[0..] == path && LabelsOf(tokens, blank, path)[..0] == [];
    forall t | 0 <= t < |tokens|
      ensures (2 * t + 1) in path
    {
      TokenVisited(tokens, blank, path, t, |path| - 1);
    }
  }

  method CheckInput(em: seq<seq<Cell>>, tokens: seq<int>, blank: int) returns (valid: bool)
    requires em != []
    ensures valid <==> Valid(em, tokens, blank)
  {
    var width := |em[0]|;
    valid := 0 <= blank < width;
    for t := 0 to |tokens|
      invariant valid <==> 0 <= blank < width && forall u :: 0 <= u < t ==> 0 <= tokens[u] < width && tokens[u] != blank
    {
      valid := valid && 0 <= tokens[t] < width && tokens[t] != blank;
    }
    ghost var tokensOk := valid;
    for f := 0 to |em|
      invariant valid <==> tokensOk && forall g :: 0 <= g < f ==> RowOk(em[g], width)
    {
      valid := valid && RowOk(em[f], width);
    }
  }

  method StateLabels(tokens: seq<int>, blank: int) returns (states: seq<int>)
    ensures |states| == 2 * |tokens| + 1 && forall s :: 0 <= s < |states| ==> states[s] == Label(tokens, blank, s)
  {
    states := [blank];
    for t := 0 to |tokens|
      invariant |states| == 2 * t + 1 && forall s :: 0 <= s < |states| ==> states[s] == if s % 2 == 1 then tokens[s / 2] else blank
    {
      states := states + [tokens[t], blank];
    }
  }

  method CountRepeats(tokens: seq<int>) returns (n: nat)
    ensures n == Repeats(tokens)
  {
    n := 0;
    var t := 1;
    while t < |tokens|
      invariant 1 <= t && (t <= |tokens| ==> n == Repeats(tokens[..t])) && (t > |tokens| ==> n == Repeats(tokens))
    {
      assert tokens[..t + 1][..t] == tokens[..t];
      n := n + if tokens[t - 1] == tokens[t] then 1 else 0;
      t := t + 1;
    }
    assert tokens[..|tokens|] == tokens;
  }

  /** The frame span of each token on the best path. The labelling the spans
      give spells the tokens, and none that spells them has a greater total
      emission; the spans are nonempty, ordered and disjoint, with a frame
      between equal neighbours. It refuses exactly the empty input, the
      invalid, and the one no labelling could spell. */
  method TokenSpans(em: seq<seq<Cell>>, tokens: seq<int>, blank: int) returns (r: Result<seq<(int, int)>>)
    ensures em == [] || tokens == [] ==> r == Err(CtcAlignmentUnavailable)
    ensures em != [] && tokens != [] && !Valid(em, tokens, blank) ==> r == Err(InvalidCtcEmissions)
    ensures em != [] && tokens != [] && Valid(em, tokens, blank) && |em| < Needs(tokens) ==> r == Err(CtcAlignmentUnavailable)
    ensures em != [] && tokens != [] && Valid(em, tokens, blank) && |em| >= Needs(tokens) ==> r.Ok?
    ensures r.Ok? ==> Ordered(r.value, tokens, |em|) && Collapse(Labelling(r.value, tokens, blank, |em|), blank) == tokens
    ensures r.Ok? ==> forall l: seq<int> :: |l| == |em| && Collapse(l, blank) == tokens ==>
                        Total(em, l) <= Total(em, Labelling(r.value, tokens, blank, |em|))
  {
    var frames := |em|;
    if frames == 0 || |tokens| == 0 {
      return Err(CtcAlignmentUnavailable);
    }
    var valid := CheckInput(em, tokens, blank);
    if !valid {
      return Err(InvalidCtcEmissions);
    }
    var states := StateLabels(tokens, blank);
    var size := |states|;
    var repeats := CountRepeats(tokens);
    if frames < |tokens| + repeats {
      return Err(CtcAlignmentUnavailable);
    }
    assert blank !in tokens;
    var trace, previous;
    ghost var rows, steps;
    trace, previous, rows, steps := Forward(em, tokens, blank, states);
    var last := if AtLeast(previous[size - 1], previous[size - 2]) then size - 1 else size - 2;
    EndBest(em, tokens, blank, previous, last);
    if !previous[last].Fin? {
      assert false;
    }
    var found, state;
    ghost var path;
    found, state, path := WalkBack(em, tokens, blank, size, trace, last, rows, steps);
    WholePath(em, tokens, blank, rows, path, state, previous[last].v);
    AllFound(found, path, tokens);
    if state != 0 || exists t :: 0 <= t < |found| && found[t].None? {
      assert false;
    }
    var spans := seq(|found|, t requires 0 <= t < |found| && found[t].Some? => found[t].value);
    LabellingOfPath(spans, found, tokens, blank, path);
    SpansOrdered(spans, found, tokens, blank, path);
    r := Ok(spans);
  }

  lemma AllFound(found: seq<Option<(int, int)>>, path: seq<int>, tokens: seq<int>)
    requires |found| == |tokens| && SpansOf(found, path, 0) && forall t :: 0 <= t < |tokens| ==> (2 * t + 1) in path
    ensures forall t :: 0 <= t < |found| ==> found[t].Some?
  {
    forall t | 0 <= t < |found|
      ensures found[t].Some?
    {
      assert SpanAt(found, t, path, 0);
      assert (2 * t + 1) in path;
    }
  }
}
