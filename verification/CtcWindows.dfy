/// Emissions of audio of any length: the model's frame grid stitched from
/// windows with context either side (scripts/meeting_audio_ctc.py).

module CtcWindows {
  import opened Bounds

  const FRAME_SAMPLES: int := 400
  const STRIDE_SAMPLES: int := 320
  const WINDOW_SAMPLES: int := 16000 * 120 / STRIDE_SAMPLES * STRIDE_SAMPLES
  const CONTEXT_SAMPLES: int := 16000 * 2 / STRIDE_SAMPLES * STRIDE_SAMPLES

  datatype Result<T> = Ok(value: T) | TooFewFrames

  /** The frames of the recording's own grid: one every stride, each whole. */
  function Frames(samples: int): int {
    (samples - FRAME_SAMPLES) / STRIDE_SAMPLES + 1
  }

  /** The model answers one row for each whole frame of what it is given. */
  ghost predicate RowsAt<T(!new), R>(forward: seq<T> -> seq<R>, s: seq<T>) {
    |s| >= FRAME_SAMPLES ==> |forward(s)| == Frames(|s|)
  }

  ghost predicate Grid<T(!new), R>(forward: seq<T> -> seq<R>) {
    forall s :: RowsAt(forward, s)
  }

  const OWNED: int := WINDOW_SAMPLES / STRIDE_SAMPLES

  lemma Windows()
    ensures WINDOW_SAMPLES == 1920000 && CONTEXT_SAMPLES == 32000 && OWNED == 6000
  {
  }

  /** The samples window `q` is given, its context included. */
  function Lo(q: int): int {
    Max(0, q * WINDOW_SAMPLES - CONTEXT_SAMPLES)
  }

  function Hi(q: int, samples: int): int {
    Min(samples, q * WINDOW_SAMPLES + WINDOW_SAMPLES + CONTEXT_SAMPLES)
  }

  /** Where frame `g` of the recording is found: the window that owns it and
      its place among that window's frames, which covers the same samples. */
  ghost predicate FrameAt<T, R>(audio: seq<T>, forward: seq<T> -> seq<R>, g: int, row: R)
  {
    var q := g / OWNED;
    var lo, hi := Lo(q), Hi(q, |audio|);
    0 <= g < Frames(|audio|) && 0 <= lo <= hi <= |audio| &&
    var local := g - lo / STRIDE_SAMPLES;
    0 <= local < |forward(audio[lo..hi])| && row == forward(audio[lo..hi])[local] &&
    lo + local * STRIDE_SAMPLES == g * STRIDE_SAMPLES && g * STRIDE_SAMPLES + FRAME_SAMPLES <= hi &&
    (lo == 0 || g * STRIDE_SAMPLES - lo >= CONTEXT_SAMPLES)
  }

  /** Window `q`'s own frames: there are as many rows as it owns, and each is
      the recording's frame it stands for. */
  lemma OwnedFrames(samples: int, q: int, owned: int)
    requires 0 <= q && q * WINDOW_SAMPLES < samples && samples > WINDOW_SAMPLES
    requires owned == Min(q * OWNED + OWNED, Frames(samples)) - q * OWNED && owned > 0
    ensures var lo, hi := Lo(q), Hi(q, samples);
            0 <= lo <= hi <= samples && hi - lo >= FRAME_SAMPLES && lo % STRIDE_SAMPLES == 0
            && (q * WINDOW_SAMPLES - lo) / STRIDE_SAMPLES + lo / STRIDE_SAMPLES == q * OWNED
            && (q * WINDOW_SAMPLES - lo) / STRIDE_SAMPLES + owned <= Frames(hi - lo)
            && (q * OWNED + owned - 1) * STRIDE_SAMPLES + FRAME_SAMPLES <= hi
  {
    Windows();
  }

  /** The emissions of some audio: short audio in one pass, longer a window at
      a time, each window keeping the frames it owns. With a model that answers
      a row a frame it never refuses, and row `g` is the frame of the
      recording that starts at sample `320 * g`. */
  method EmissionsOf<T(!new), R>(audio: seq<T>, forward: seq<T> -> seq<R>) returns (r: Result<seq<R>>)
    ensures |audio| <= WINDOW_SAMPLES ==> r == Ok(forward(audio))
    ensures |audio| > WINDOW_SAMPLES && Grid(forward) ==>
              r.Ok? && |r.value| == Frames(|audio|) && forall g :: 0 <= g < |r.value| ==> FrameAt(audio, forward, g, r.value[g])
  {
    if |audio| <= WINDOW_SAMPLES {
      return Ok(forward(audio));
    }
    Windows();
    var frames := (|audio| - FRAME_SAMPLES) / STRIDE_SAMPLES + 1;
    var emissions: seq<R> := [];
    ghost var q := 0;
    var start := 0;
    while start < |audio|
      invariant start == q * WINDOW_SAMPLES && 0 <= q
      invariant Grid(forward) ==> |emissions| == Min(q * OWNED, frames)
      invariant Grid(forward) ==> forall g :: 0 <= g < |emissions| ==> FrameAt(audio, forward, g, emissions[g])
    {
      var first := start / STRIDE_SAMPLES;
      var owned := Min(first + WINDOW_SAMPLES / STRIDE_SAMPLES, frames) - first;
      if owned <= 0 {
        break;
      }
      var left := Max(0, start - CONTEXT_SAMPLES);
      var right := Min(|audio|, start + WINDOW_SAMPLES + CONTEXT_SAMPLES);
      OwnedFrames(|audio|, q, owned);
      var rows := forward(audio[left..right]);
      var offset := (start - left) / STRIDE_SAMPLES;
      assert Grid(forward) ==> RowsAt(forward, audio[left..right]);
      if |rows| < offset + owned {
        return TooFewFrames;
      }
      ghost var before := emissions;
      emissions := emissions + rows[offset..offset + owned];
      if Grid(forward) {
        OwnedRows(audio, forward, q, owned, rows, offset, before, emissions);
      }
      start := start + WINDOW_SAMPLES;
      q := q + 1;
    }
    r := Ok(emissions);
  }

  lemma OwnedRows<T(!new), R>(audio: seq<T>, forward: seq<T> -> seq<R>, q: int, owned: int, rows: seq<R>, offset: int,
                              before: seq<R>, after: seq<R>)
    requires |audio| > WINDOW_SAMPLES && 0 <= q && q * WINDOW_SAMPLES < |audio|
    requires owned == Min(q * OWNED + OWNED, Frames(|audio|)) - q * OWNED && owned > 0
    requires 0 <= Lo(q) <= Hi(q, |audio|) <= |audio| && rows == forward(audio[Lo(q)..Hi(q, |audio|)])
    requires offset == (q * WINDOW_SAMPLES - Lo(q)) / STRIDE_SAMPLES && 0 <= offset && offset + owned <= |rows|
    requires |before| == Min(q * OWNED, Frames(|audio|)) && after == before + rows[offset..offset + owned]
    requires forall g :: 0 <= g < |before| ==> FrameAt(audio, forward, g, before[g])
    ensures |after| == Min((q + 1) * OWNED, Frames(|audio|))
    ensures forall g :: 0 <= g < |after| ==> FrameAt(audio, forward, g, after[g])
  {
    Windows();
    forall g | 0 <= g < |after|
      ensures FrameAt(audio, forward, g, after[g])
    {
      if g < |before| {
        assert after[g] == before[g];
      } else {
        var k := offset + g - |before|;
        OwnedRow(audio, forward, q, owned, rows, offset, g, k);
        assert after[g] == rows[k];
      }
    }
  }

  lemma OwnedRow<T(!new), R>(audio: seq<T>, forward: seq<T> -> seq<R>, q: int, owned: int, rows: seq<R>, offset: int, g: int, k: int)
    requires |audio| > WINDOW_SAMPLES && 0 <= q && q * WINDOW_SAMPLES < |audio|
    requires owned == Min(q * OWNED + OWNED, Frames(|audio|)) - q * OWNED && 0 <= k - offset == g - q * OWNED < owned
    requires 0 <= Lo(q) <= Hi(q, |audio|) <= |audio| && rows == forward(audio[Lo(q)..Hi(q, |audio|)])
    requires offset == (q * WINDOW_SAMPLES - Lo(q)) / STRIDE_SAMPLES && 0 <= offset && offset + owned <= |rows|
    ensures FrameAt(audio, forward, g, rows[k])
  {
    OwnedFrames(|audio|, q, owned);
    assert g / OWNED == q by {
      Windows();
    }
  }

  /** A per-frame encoder, run over the windows, gives what it would give run
      over the recording's own grid. */
  lemma WindowsAreTheGrid<T(!new), R>(audio: seq<T>, forward: seq<T> -> seq<R>, encode: seq<T> -> R, rows: seq<R>)
    requires |audio| > WINDOW_SAMPLES && |rows| == Frames(|audio|)
    requires forall g :: 0 <= g < |rows| ==> FrameAt(audio, forward, g, rows[g])
    requires forall s, i :: EncodesAt(forward, encode, s, i)
    ensures forall g :: 0 <= g < |rows| ==>
              0 <= g * STRIDE_SAMPLES && g * STRIDE_SAMPLES + FRAME_SAMPLES <= |audio|
              && rows[g] == encode(audio[g * STRIDE_SAMPLES..g * STRIDE_SAMPLES + FRAME_SAMPLES])
  {
    forall g | 0 <= g < |rows|
      ensures g * STRIDE_SAMPLES + FRAME_SAMPLES <= |audio|
      ensures rows[g] == encode(audio[g * STRIDE_SAMPLES..g * STRIDE_SAMPLES + FRAME_SAMPLES])
    {
      assert FrameAt(audio, forward, g, rows[g]);
      var lo, hi := Lo(g / OWNED), Hi(g / OWNED, |audio|);
      var local := g - lo / STRIDE_SAMPLES;
      assert EncodesAt(forward, encode, audio[lo..hi], local);
      SliceOfSlice(audio, lo, hi, local * STRIDE_SAMPLES, local * STRIDE_SAMPLES + FRAME_SAMPLES,
        g * STRIDE_SAMPLES, g * STRIDE_SAMPLES + FRAME_SAMPLES);
    }
  }

  lemma SliceOfSlice<T>(s: seq<T>, lo: int, hi: int, i: int, j: int, p: int, q: int)
    requires 0 <= lo <= hi <= |s| && 0 <= i <= j <= hi - lo && p == lo + i && q == lo + j
    ensures s[lo..hi][i..j] == s[p..q]
  {
    var part := s[lo..hi];
    assert |part[i..j]| == |s[p..q]|;
    forall k | 0 <= k < j - i
      ensures part[i..j][k] == s[p..q][k]
    {
      assert part[i..j][k] == part[i + k] == s[lo + (i + k)];
    }
  }

  /** Row `i` of a pass is the encoding of the frame at its stride. */
  ghost predicate EncodesAt<T(!new), R>(forward: seq<T> -> seq<R>, encode: seq<T> -> R, s: seq<T>, i: int)
  {
    0 <= i < |forward(s)| && i * STRIDE_SAMPLES + FRAME_SAMPLES <= |s| ==>
      forward(s)[i] == encode(s[i * STRIDE_SAMPLES..i * STRIDE_SAMPLES + FRAME_SAMPLES])
  }
}
