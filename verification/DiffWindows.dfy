/// One resumable step of `diff` by lines: both bodies read a window at a time
/// under a budget of host calls, each window pair diffed, and the offsets to
/// go on from (components/code-run-quickjs/diff.js).

module DiffWindows {
  import opened Bounds
  import opened Lines
  import opened Hunks
  import opened HunkTexts
  import opened DiffRange
  import Blocks
  import opened Wrappers

  const HOST_CALLS_PER_STEP: nat := 200
  const DIFF_STORE_PAST_BYTES: nat := 1048576

  datatype Side = Left | Right

  /** One host reply to a read. */
  datatype Piece = Text(text: string) | Withheld

  /** How the host pages each read: the pieces it answers, in order, for the
      window of a side at a line. Each but the last promises a next. */
  type Host = (Side, int) -> seq<Piece>

  /** Lines `[i, j)` of a body, as far as it goes. */
  function Range(body: seq<string>, i: int, j: int): seq<string>
    requires 0 <= i <= j
  {
    body[Min(i, |body|)..Min(j, |body|)]
  }

  function TextOf(pieces: seq<Piece>): string
  {
    if pieces == [] then "" else (if pieces[0].Text? then pieces[0].text else "") + TextOf(pieces[1..])
  }

  predicate AllText(pieces: seq<Piece>) {
    forall k :: 0 <= k < |pieces| ==> pieces[k].Text?
  }

  /** The host's pieces for a window are the window's text, cut anywhere, up to
      a withheld one if there is one. */
  ghost predicate ServesAt(host: Host, side: Side, body: seq<string>, start: int)
  {
    0 <= start ==>
      var pieces, text := host(side, start), Concat(Range(body, start, start + DIFF_WINDOW_LINES));
      pieces != [] && (AllText(pieces) ==> TextOf(pieces) == text) && PrefixesOf(pieces, text)
  }

  ghost predicate PrefixesOf(pieces: seq<Piece>, text: string)
  {
    forall k :: 0 <= k <= |pieces| && AllText(pieces[..k]) ==> TextOf(pieces[..k]) <= text
  }

  ghost predicate Serves(host: Host, side: Side, body: seq<string>)
  {
    forall start :: ServesAt(host, side, body, start)
  }

  lemma {:induction false} TextOfAppend(p: seq<Piece>, q: seq<Piece>)
    ensures TextOf(p + q) == TextOf(p) + TextOf(q)
  {
    if p == [] {
      assert p + q == q;
    } else {
      assert (p + q)[1..] == p[1..] + q;
      TextOfAppend(p[1..], q);
    }
  }

  /** What one read of a window took: whole lines from `at` on, and whether
      the body ended in it. */
  datatype Window = Window(lines: seq<string>, at: int, eof: bool)

  ghost predicate WindowOf(w: Window, body: seq<string>, start: int)
  {
    0 <= start && w.at == start && |w.lines| <= DIFF_WINDOW_LINES && w.lines == Range(body, start, start + |w.lines|) &&
    (w.eof ==> start + |w.lines| >= |body|) && (!w.eof ==> w.lines != [])
  }

  lemma RangeLines(body: seq<string>, i: int, j: int)
    requires LineSeq(body) && 0 <= i <= j
    ensures LineSeq(Range(body, i, j))
  {
    var r := Range(body, i, j);
    forall k | 0 <= k < |r| - 1
      ensures Ended(r[k])
    {
      assert r[k] == body[Min(i, |body|) + k];
    }
  }

  /** All the lines read, the last but for a stopped read's broken one, are the
      first of those there are. */
  lemma KeptPrefix(sel: seq<string>, read: seq<string>, kept: seq<string>)
    requires |read| <= |sel| && forall k :: 0 <= k < |read| - 1 ==> read[k] == sel[k]
    requires if kept == read then read != [] ==> read[|read| - 1] == sel[|read| - 1] else read != [] && kept == read[..|read| - 1]
    ensures kept <= sel
  {
    assert kept == sel[..|kept|];
  }

  /** The lines of a window's text read as far as some piece: all of them, or,
      where the read stopped, the whole ones. */
  lemma ReadLines(sel: seq<string>, read: seq<string>, text: string, rest: string, stopped: bool, kept: seq<string>)
    requires LineSeq(sel) && LineSeq(read) && Concat(read) == text && text + rest == Concat(sel)
    requires read != [] ==> (Ended(read[|read| - 1]) <==> Ended(text))
    requires stopped ==> '\n' in text
    requires !stopped ==> rest == ""
    requires kept == if stopped && read != [] && !Ended(text) then read[..|read| - 1] else read
    ensures kept <= sel && (!stopped ==> kept == sel) && (stopped ==> kept != [])
  {
    SplitPrefix(sel, read, rest);
    if read != [] {
      FirstLine(read);
    }
    KeptPrefix(sel, read, kept);
  }

  /** The text of one read, across the host's pieces, and whether it stopped
      short: once the step's calls are spent it stops at the next piece's end,
      but never before it holds a whole line. None for a withheld piece: the
      step ends in that error. */
  method ReadText(host: Host, side: Side, start: nat, calls: nat, ghost body: seq<string>)
    returns (text: Option<string>, stopped: bool, spent: nat)
    requires ServesAt(host, side, body, start)
    ensures text.Some? ==> text.value <= Concat(Range(body, start, start + DIFF_WINDOW_LINES))
    ensures text.Some? && !stopped ==> text.value == Concat(Range(body, start, start + DIFF_WINDOW_LINES))
    ensures text.Some? && stopped ==> '\n' in text.value && spent >= HOST_CALLS_PER_STEP
    ensures text.None? ==> Withheld in host(side, start)
    ensures spent > calls
  {
    var pieces := host(side, start);
    var read := "";
    spent, stopped := calls, false;
    var k := 0;
    while true
      invariant 0 <= k < |pieces| && spent == calls + k && read == TextOf(pieces[..k]) && AllText(pieces[..k])
      decreases |pieces| - k
    {
      spent := spent + 1;
      if pieces[k].Withheld? {
        return None, false, spent;
      }
      assert pieces[..k + 1] == pieces[..k] + [pieces[k]];
      TextOfAppend(pieces[..k], [pieces[k]]);
      read := read + pieces[k].text;
      k := k + 1;
      if k == |pieces| {
        assert pieces[..k] == pieces;
        break;
      }
      var nl := IndexOfNewline(read, 0);
      if spent >= HOST_CALLS_PER_STEP && nl >= 0 {
        stopped := true;
        break;
      }
    }
    text := Some(read);
  }

  /** One window of one side: its whole lines as far as the read went. */
  method Read(host: Host, side: Side, start: nat, calls: nat, ghost body: seq<string>) returns (w: Option<Window>, spent: nat)
    requires LineSeq(body) && ServesAt(host, side, body, start)
    ensures w.Some? ==> WindowOf(w.value, body, start)
    ensures w.None? ==> Withheld in host(side, start)
    ensures spent > calls
  {
    var text, stopped;
    text, stopped, spent := ReadText(host, side, start, calls, body);
    if text.None? {
      return None, spent;
    }
    var kept := Split(text.value);
    ghost var read := kept;
    if stopped && |kept| > 0 && !Ended(text.value) {
      kept := kept[..|kept| - 1];
    }
    w := Some(Window(kept, start, !stopped && |kept| < DIFF_WINDOW_LINES));
    ghost var end := start + DIFF_WINDOW_LINES;
    RangeLines(body, start, end);
    ReadWindow(body, start, end, Range(body, start, end), text.value, stopped, read, kept, w.value);
  }

  /** The lines a read keeps are the first of its window, all of them if it
      did not stop short and some if it did. */
  lemma ReadKeeps(sel: seq<string>, read: seq<string>, text: string, stopped: bool, kept: seq<string>)
    requires LineSeq(sel) && text <= Concat(sel) && (if stopped then '\n' in text else text == Concat(sel))
    requires LineSeq(read) && Concat(read) == text && (read != [] ==> (Ended(read[|read| - 1]) <==> Ended(text)))
    requires kept == if stopped && read != [] && !Ended(text) then read[..|read| - 1] else read
    ensures kept <= sel && (if stopped then kept != [] else kept == sel)
  {
    var all := Concat(sel);
    var rest := all[|text|..];
    assert text + rest == all;
    ReadLines(sel, read, text, rest, stopped, kept);
  }

  lemma PrefixWindow(body: seq<string>, start: nat, end: nat, sel: seq<string>, kept: seq<string>, n: nat, stopped: bool)
    requires end == start + DIFF_WINDOW_LINES && sel == Range(body, start, end) && n == start + |kept|
    requires kept <= sel && (if stopped then kept != [] else kept == sel)
    ensures |kept| <= DIFF_WINDOW_LINES && kept == Range(body, start, n)
    ensures kept == [] || (!stopped && |kept| < DIFF_WINDOW_LINES) ==> n >= |body| && !stopped
  {
    assert kept == sel[..|kept|];
  }

  lemma KeptWindow(body: seq<string>, start: nat, end: nat, sel: seq<string>, kept: seq<string>, stopped: bool, w: Window)
    requires end == start + DIFF_WINDOW_LINES && sel == Range(body, start, end)
    requires kept <= sel && (if stopped then kept != [] else kept == sel)
    requires w == Window(kept, start, !stopped && |kept| < DIFF_WINDOW_LINES)
    ensures WindowOf(w, body, start)
  {
    var n := start + |kept|;
    PrefixWindow(body, start, end, sel, kept, n, stopped);
  }

  lemma ReadWindow(body: seq<string>, start: nat, end: nat, sel: seq<string>, text: string, stopped: bool, read: seq<string>, kept: seq<string>,
                   w: Window)
    requires LineSeq(sel) && end == start + DIFF_WINDOW_LINES && sel == Range(body, start, end)
    requires text <= Concat(sel) && (if stopped then '\n' in text else text == Concat(sel))
    requires LineSeq(read) && Concat(read) == text && (read != [] ==> (Ended(read[|read| - 1]) <==> Ended(text)))
    requires kept == if stopped && read != [] && !Ended(text) then read[..|read| - 1] else read
    requires w == Window(kept, start, !stopped && |kept| < DIFF_WINDOW_LINES)
    ensures WindowOf(w, body, start)
  {
    ReadKeeps(sel, read, text, stopped, kept);
    KeptWindow(body, start, end, sel, kept, stopped, w);
  }

  /** The forward cursor a reply answers and `from` takes back; a field that
      was absent or no integer is None. */
  datatype Cursor = Cursor(window: Option<int>, a: Option<int>, b: Option<int>)

  function Off(value: Option<int>): nat {
    if value.Some? && value.value >= 0 then value.value else 0
  }

  function FromA(from: Cursor): nat {
    if from.a.Some? then Off(from.a) else Off(from.window) * DIFF_WINDOW_LINES
  }

  function FromB(from: Cursor): nat {
    if from.b.Some? then Off(from.b) else Off(from.window) * DIFF_WINDOW_LINES
  }

  /** The hunks found, in the reply or, past `DIFF_STORE_PAST_BYTES`, their
      text stored as a result. */
  datatype Content = Shown(hunks: seq<Hunk>) | Stored(text: string)

  datatype Reply =
    | Refused(side: Side)
    | Failed
    | Reply(content: Content, count: nat, done: bool, next: Cursor)

  /** The two offsets are equal until one side has ended. */
  predicate Aligned(a: seq<string>, b: seq<string>, i: int, j: int) {
    i == j || i >= |a| || j >= |b|
  }

  /** What is done between `(i, j)` and `(i', j')`: hunks that patch that
      range of one body into that range of the other. */
  ghost predicate Between(a: seq<string>, b: seq<string>, i: int, j: int, found: seq<Hunk>, i': int, j': int)
  {
    0 <= i <= i' && 0 <= j <= j' && |Range(a, i, i')| == i' - i && |Range(b, j, j')| == j' - j &&
    PatchOf(found, Range(a, i, i'), Range(b, j, j'), i, j)
  }

  lemma RangeJoin(body: seq<string>, i: int, i': int, i'': int)
    requires 0 <= i <= i' <= i'' && |Range(body, i, i')| == i' - i && |Range(body, i', i'')| == i'' - i'
    ensures Range(body, i, i'') == Range(body, i, i') + Range(body, i', i'') && |Range(body, i, i'')| == i'' - i
  {
  }

  /** One piece of work and the next, from where it ended, are one. */
  lemma BetweenJoin(a: seq<string>, b: seq<string>, i: int, j: int, found: seq<Hunk>, i': int, j': int, made: seq<Hunk>, i'': int, j'': int)
    requires Between(a, b, i, j, found, i', j') && Between(a, b, i', j', made, i'', j'')
    ensures Between(a, b, i, j, found + made, i'', j'')
  {
    RangeJoin(a, i, i', i'');
    RangeJoin(b, j, j', j'');
    PatchConcat(found, made, Range(a, i, i'), Range(b, j, j'), Range(a, i', i''), Range(b, j', j''), i, j, i', j');
  }

  /** How much of the two windows is compared: where the shorter read stopped
      short of its body's end, both are cut to it. */
  function Common(x: Window, y: Window): int {
    if |x.lines| < |y.lines| && !x.eof then |x.lines|
    else if |y.lines| < |x.lines| && !y.eof then |y.lines|
    else -1
  }

  lemma CutRange(body: seq<string>, start: int, end: int, lines: seq<string>, n: int, upto: int)
    requires 0 <= start && end == start + |lines| && 0 <= n <= |lines| && lines == Range(body, start, end) && upto == start + n
    ensures lines[..n] == Range(body, start, upto) && |Range(body, start, upto)| == n
  {
    var lo, hi := Min(start, |body|), Min(end, |body|);
    assert |lines| == hi - lo && (lines != [] ==> lo == start && hi == end);
    assert body[lo..hi][..n] == body[lo..lo + n];
  }

  lemma RangeAllLines(body: seq<string>, i: int, j: int)
    requires LineSeq(body) && 0 <= i <= j
    ensures AllLines(Range(body, i, j))
  {
  }

  /** The windows as compared, and the offsets after them: the sides stay
      level until one of them has ended, and unless both have ended at least
      one moves on. */
  lemma CutPair(x: Window, y: Window, a: seq<string>, b: seq<string>, xl: seq<string>, yl: seq<string>, aAt: int, bAt: int)
    requires WindowOf(x, a, x.at) && WindowOf(y, b, y.at)
    requires xl == (if Common(x, y) >= 0 then x.lines[..Common(x, y)] else x.lines)
    requires yl == (if Common(x, y) >= 0 then y.lines[..Common(x, y)] else y.lines)
    requires aAt == x.at + |xl| && bAt == y.at + |yl|
    ensures |xl| <= DIFF_WINDOW_LINES && |yl| <= DIFF_WINDOW_LINES
    ensures xl == Range(a, x.at, aAt) && yl == Range(b, y.at, bAt)
    ensures Aligned(a, b, x.at, y.at) ==> Aligned(a, b, aAt, bAt)
    ensures x.eof && y.eof ==> aAt >= |a| && bAt >= |b|
    ensures !(x.eof && y.eof) ==> aAt > x.at || bAt > y.at
  {
    CutRange(a, x.at, x.at + |x.lines|, x.lines, |xl|, aAt);
    CutRange(b, y.at, y.at + |y.lines|, y.lines, |yl|, bAt);
  }

  /** One window pair diffed. */
  method WindowPair(x: Window, y: Window, ghost a: seq<string>, ghost b: seq<string>)
    returns (made: seq<Hunk>, aAt: int, bAt: int)
    requires LineSeq(a) && LineSeq(b) && WindowOf(x, a, x.at) && WindowOf(y, b, y.at)
    ensures Between(a, b, x.at, y.at, made, aAt, bAt) && NoCoarse(made)
    ensures Aligned(a, b, x.at, y.at) ==> Aligned(a, b, aAt, bAt)
    ensures x.eof && y.eof ==> aAt >= |a| && bAt >= |b|
    ensures !(x.eof && y.eof) ==> aAt > x.at || bAt > y.at
    ensures forall h :: h in made && !(x.eof && y.eof) ==> h.edge
  {
    var xLines, yLines := x.lines, y.lines;
    var common := Common(x, y);
    if common >= 0 {
      xLines, yLines := xLines[..common], yLines[..common];
    }
    aAt, bAt := x.at + |xLines|, y.at + |yLines|;
    CutPair(x, y, a, b, xLines, yLines, aAt, bAt);
    made := PairHunks(xLines, yLines, x.at, y.at, !(x.eof && y.eof), a, b, aAt, bAt);
  }

  method PairHunks(x: seq<string>, y: seq<string>, i: int, j: int, edge: bool, ghost a: seq<string>, ghost b: seq<string>,
                   ghost i': int, ghost j': int)
    returns (made: seq<Hunk>)
    requires LineSeq(a) && LineSeq(b) && 0 <= i && 0 <= j && |x| <= DIFF_WINDOW_LINES && |y| <= DIFF_WINDOW_LINES
    requires i' == i + |x| && j' == j + |y| && x == Range(a, i, i') && y == Range(b, j, j')
    ensures Between(a, b, i, j, made, i', j') && NoCoarse(made)
    ensures forall h :: h in made && edge ==> h.edge
  {
    RangeAllLines(a, i, i');
    RangeAllLines(b, j, j');
    HalfCaps();
    WindowDepth(x, y, 0);
    made := DiffRange.DiffRange(x, y, i, j, edge, 0);
  }

  /** A step's reply, tied to what it found: the bodies between the cursor it
      was given and the one it answers, all of them once it is done. */
  ghost predicate StepOf(a: seq<string>, b: seq<string>, from: Cursor, found: seq<Hunk>, r: Reply)
  {
    r.Reply? && r.count == |found| && r.next.window.Some? && r.next.a.Some? && r.next.b.Some? &&
    var i, j, i', j' := FromA(from), FromB(from), FromA(r.next), FromB(r.next);
    Between(a, b, i, j, found, i', j') && NoCoarse(found) &&
    (Aligned(a, b, i, j) ==> Aligned(a, b, i', j')) &&
    (if r.done then i' >= |a| && j' >= |b| else i' + j' > i + j) &&
    r.content == (if |Texts(found)| > DIFF_STORE_PAST_BYTES then Stored(Texts(found)) else Shown(found))
  }

  /** A stored reply's text alone is read back as the headers and bodies of
      the hunks the step found, and hunks it is read as do what those do. */
  lemma StoredReadsBack(a: seq<string>, b: seq<string>, from: Cursor, found: seq<Hunk>, r: Reply, read: seq<Hunk>)
    requires StepOf(a, b, from, found, r) && r.content.Stored?
    requires AllHeaded(read) && Texts(read) == r.content.text
    ensures ParseTexts(r.content.text) == ReadsOf(found) && ReadsOf(read) == ReadsOf(found)
    ensures var x := Range(a, FromA(from), FromA(r.next));
            Blocks.Patch(BlocksOf(read), x, FromA(from)) == Blocks.Applied(Range(b, FromB(from), FromB(r.next)))
  {
    var x, y := Range(a, FromA(from), FromA(r.next)), Range(b, FromB(from), FromB(r.next));
    TextApplies(found, read, x, y, FromA(from), FromB(from));
    TextsRoundTrip(read);
  }

  lemma TextsNext(hs: seq<Hunk>, k: int)
    requires 0 <= k < |hs|
    ensures Texts(hs[..k + 1]) == Texts(hs[..k]) + hs[k].text
  {
    assert hs[..k + 1][..k] == hs[..k];
  }

  lemma TextsPush(p: seq<Hunk>, q: seq<Hunk>, k: int)
    requires 0 <= k < |q|
    ensures Texts(p + q[..k + 1]) == Texts(p + q[..k]) + q[k].text
  {
    assert (p + q[..k + 1])[..|p| + k] == p + q[..k];
  }

  /** One step of `diff` by lines from a cursor: window after window until both
      bodies have ended or the step's calls are spent. */
  method DiffStep(host: Host, canLeft: bool, canRight: bool, from: Cursor, ghost a: seq<string>, ghost b: seq<string>)
    returns (r: Reply, ghost found: seq<Hunk>)
    requires LineSeq(a) && LineSeq(b) && Serves(host, Left, a) && Serves(host, Right, b)
    ensures !canLeft ==> r == Refused(Left)
    ensures canLeft && !canRight ==> r == Refused(Right)
    ensures canLeft && canRight ==> StepOf(a, b, from, found, r) || (r.Failed? && HasWithheld(host))
  {
    found := [];
    if !canLeft {
      return Refused(Left), [];
    }
    if !canRight {
      return Refused(Right), [];
    }
    var calls := 2;
    var aAt, bAt := FromA(from), FromB(from);
    var w := Off(from.window);
    var hunks: seq<Hunk>, bytes, done := [], 0, false;
    EmptyBetween(a, b, aAt, bAt);
    while !done && calls < HOST_CALLS_PER_STEP
      invariant FromA(from) <= aAt && FromB(from) <= bAt
      invariant Between(a, b, FromA(from), FromB(from), hunks, aAt, bAt) && NoCoarse(hunks) && bytes == |Texts(hunks)|
      invariant Aligned(a, b, FromA(from), FromB(from)) ==> Aligned(a, b, aAt, bAt)
      invariant done ==> aAt >= |a| && bAt >= |b|
      invariant calls > 2 ==> done || aAt + bAt > FromA(from) + FromB(from)
      invariant calls >= 2
      decreases HOST_CALLS_PER_STEP - calls
    {
      var x, y;
      assert ServesAt(host, Left, a, aAt) && ServesAt(host, Right, b, bAt);
      x, calls := Read(host, Left, aAt, calls, a);
      if x.None? {
        return Failed, [];
      }
      y, calls := Read(host, Right, bAt, calls, b);
      if y.None? {
        return Failed, [];
      }
      done := x.value.eof && y.value.eof;
      var made, aNext, bNext := WindowPair(x.value, y.value, a, b);
      BetweenJoin(a, b, FromA(from), FromB(from), hunks, aAt, bAt, made, aNext, bNext);
      hunks, bytes := Gather(hunks, bytes, made);
      var aWas, bWas := aAt, bAt;
      aAt, bAt := aNext, bNext;
      w := w + 1;
      if !done && aAt <= aWas && bAt <= bWas {
        break;
      }
    }
    var content := Shown(hunks);
    if bytes > DIFF_STORE_PAST_BYTES {
      var text := JoinTexts(hunks);
      content := Stored(text);
    }
    r := Reply(content, |hunks|, done, Cursor(Some(w), Some(aAt), Some(bAt)));
    found := hunks;
  }

  ghost predicate HasWithheld(host: Host) {
    exists side, start :: Withheld in host(side, start)
  }

  lemma NoHunks(i: int, j: int)
    ensures PatchOf([], [], [], i, j)
  {
    assert Blocks.Same<string>([], i, i, i, [], j, j, j);
    Blocks.PlacedBy<string>([], [], [], i, j, 0, i, i, j, j);
    PatchBy([], [], [], [], i, j);
  }

  lemma EmptyBetween(a: seq<string>, b: seq<string>, i: int, j: int)
    requires 0 <= i && 0 <= j
    ensures Between(a, b, i, j, [], i, j)
  {
    NoHunks(i, j);
    assert Range(a, i, i) == [] && Range(b, j, j) == [];
  }

  /** A window's hunks put after those found, and their text's length. */
  method Gather(found: seq<Hunk>, bytes: nat, made: seq<Hunk>) returns (all: seq<Hunk>, total: nat)
    requires bytes == |Texts(found)|
    ensures all == found + made && total == |Texts(all)|
  {
    all, total := found, bytes;
    var i := 0;
    while i < |made|
      invariant 0 <= i <= |made| && all == found + made[..i] && total == |Texts(all)|
    {
      TextsPush(found, made, i);
      all, total := all + [made[i]], total + |made[i].text|;
      i := i + 1;
    }
    assert made[..i] == made;
  }

  method JoinTexts(found: seq<Hunk>) returns (text: string)
    ensures text == Texts(found)
  {
    text := "";
    var i := 0;
    while i < |found|
      invariant 0 <= i <= |found| && text == Texts(found[..i])
    {
      TextsNext(found, i);
      text := text + found[i].text;
      i := i + 1;
    }
    assert found[..i] == found;
  }

  // Every resumed run.

  /** A step of a run: the cursor it was given, what it found and replied. */
  datatype Step = Step(from: Cursor, found: seq<Hunk>, reply: Reply)

  ghost predicate LinkedAt(a: seq<string>, b: seq<string>, steps: seq<Step>, k: int)
  {
    0 <= k < |steps| && StepOf(a, b, steps[k].from, steps[k].found, steps[k].reply) &&
    (k > 0 ==> steps[k - 1].reply.Reply? && !steps[k - 1].reply.done && steps[k].from == steps[k - 1].reply.next)
  }

  /** A run: each step goes on from the cursor the one before it answered. */
  ghost predicate Run(a: seq<string>, b: seq<string>, steps: seq<Step>)
  {
    forall k :: 0 <= k < |steps| ==> LinkedAt(a, b, steps, k)
  }

  predicate Finished(r: Reply) {
    r.Reply? && r.done
  }

  function Found(steps: seq<Step>): seq<Hunk> {
    if steps == [] then [] else Found(steps[..|steps| - 1]) + steps[|steps| - 1].found
  }

  lemma RunPrefix(a: seq<string>, b: seq<string>, steps: seq<Step>)
    requires Run(a, b, steps) && steps != []
    ensures Run(a, b, steps[..|steps| - 1]) && LinkedAt(a, b, steps, |steps| - 1)
  {
    var init := steps[..|steps| - 1];
    forall k | 0 <= k < |init|
      ensures LinkedAt(a, b, init, k)
    {
      assert LinkedAt(a, b, steps, k);
    }
  }

  /** A run's windows tile both bodies: what its steps found patches exactly
      the lines between its first cursor and its last, however its host paged
      the reads and wherever the budget cut it. */
  lemma {:induction false} RunBetween(a: seq<string>, b: seq<string>, steps: seq<Step>)
    requires Run(a, b, steps) && steps != []
    ensures var first, last := steps[0].from, steps[|steps| - 1].reply;
            last.Reply? &&
            Between(a, b, FromA(first), FromB(first), Found(steps), FromA(last.next), FromB(last.next)) &&
            (Aligned(a, b, FromA(first), FromB(first)) ==> Aligned(a, b, FromA(last.next), FromB(last.next))) &&
            (last.done ==> FromA(last.next) >= |a| && FromB(last.next) >= |b|) && NoCoarse(Found(steps))
    decreases |steps|
  {
    RunPrefix(a, b, steps);
    var init, last := steps[..|steps| - 1], steps[|steps| - 1];
    if init == [] {
      assert Found(steps) == [] + last.found == last.found;
    } else {
      RunBetween(a, b, init);
      var first := steps[0].from;
      BetweenJoin(a, b, FromA(first), FromB(first), Found(init), FromA(last.from), FromB(last.from), last.found,
        FromA(last.reply.next), FromB(last.reply.next));
      forall h | h in Found(steps)
        ensures !h.coarse
      {
        assert h in Found(init) || h in last.found;
      }
    }
  }

  lemma BetweenWhole(a: seq<string>, b: seq<string>, found: seq<Hunk>, i: int, j: int)
    requires Between(a, b, 0, 0, found, i, j) && i >= |a| && j >= |b|
    ensures PatchOf(found, a, b, 0, 0)
  {
    assert Range(a, 0, i) == a && Range(b, 0, j) == b;
  }

  const START: Cursor := Cursor(None, None, None)

  /** The windowed diff is a diff: a run from a fresh start to its end leaves,
      all its steps' hunks together, a patch of the whole of `a` into the
      whole of `b`, and applying it to `a` gives `b`. */
  lemma RunPatches(a: seq<string>, b: seq<string>, steps: seq<Step>)
    requires Run(a, b, steps) && steps != [] && steps[0].from == START && Finished(steps[|steps| - 1].reply)
    ensures PatchOf(Found(steps), a, b, 0, 0) && NoCoarse(Found(steps))
    ensures Blocks.Patch(BlocksOf(Found(steps)), a, 0) == Blocks.Applied(b)
  {
    RunBetween(a, b, steps);
    var last := steps[|steps| - 1].reply.next;
    BetweenWhole(a, b, Found(steps), FromA(last), FromB(last));
    PatchApplies(Found(steps), a, b, 0, 0);
  }

  /** From a fresh start the two offsets stay level until one side has ended. */
  lemma RunLevel(a: seq<string>, b: seq<string>, steps: seq<Step>)
    requires Run(a, b, steps) && steps != [] && steps[0].from == START
    ensures steps[|steps| - 1].reply.Reply?
    ensures var next := steps[|steps| - 1].reply.next; Aligned(a, b, FromA(next), FromB(next))
  {
    RunBetween(a, b, steps);
  }

  /** Every unfinished step moves on, so a run from a fresh start has at most
      one step more than the bodies have lines: a caller that goes on from
      `next` always comes to the end. */
  lemma {:induction false} RunEnds(a: seq<string>, b: seq<string>, steps: seq<Step>)
    requires Run(a, b, steps) && steps != [] && steps[0].from == START
    ensures |steps| <= |a| + |b| + 1
  {
    if |steps| > 1 {
      RunPrefix(a, b, steps);
      var init := steps[..|steps| - 1];
      assert LinkedAt(a, b, steps, |steps| - 1);
      RunMoves(a, b, init);
      RunBetween(a, b, init);
    }
  }

  lemma {:induction false} RunMoves(a: seq<string>, b: seq<string>, steps: seq<Step>)
    requires Run(a, b, steps) && steps != [] && steps[0].from == START && !Finished(steps[|steps| - 1].reply)
    ensures steps[|steps| - 1].reply.Reply?
    ensures var next := steps[|steps| - 1].reply.next; FromA(next) + FromB(next) >= |steps|
    decreases |steps|
  {
    RunPrefix(a, b, steps);
    if |steps| > 1 {
      RunMoves(a, b, steps[..|steps| - 1]);
    }
  }
}
