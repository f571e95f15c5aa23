/// Text and bytes sent in frames of one message
/// (components/code-run-quickjs/bootstrap.js). UTF-8 is section 3 of RFC 3629.

module Framing {
  import opened Sequences

  const TEXT_FRAME: nat := 349525
  const BYTE_FRAME: nat := 1048576
  const REPLACEMENT: Unit := 0xFFFD

  /** A UTF-16 code unit. */
  type Unit = u: int | 0 <= u < 0x1_0000

  predicate High(u: Unit) {
    0xD800 <= u < 0xDC00
  }

  predicate Low(u: Unit) {
    0xDC00 <= u < 0xE000
  }

  /** Unit `i` is half a surrogate pair without its other half. */
  predicate Lone(s: seq<Unit>, i: nat)
    requires i < |s|
  {
    (High(s[i]) && !(i + 1 < |s| && Low(s[i + 1]))) || (Low(s[i]) && !(i > 0 && High(s[i - 1])))
  }

  predicate IsWellFormed(s: seq<Unit>) {
    forall i: nat :: i < |s| ==> !Lone(s, i)
  }

  /** Each lone surrogate replaced. */
  function WellFormed(s: seq<Unit>): (r: seq<Unit>)
    ensures |r| == |s| && forall i: nat :: i < |s| ==> r[i] == if Lone(s, i) then REPLACEMENT else s[i]
  {
    seq(|s|, i requires 0 <= i < |s| => if Lone(s, i) then REPLACEMENT else s[i])
  }

  lemma WellFormedIs(s: seq<Unit>)
    ensures IsWellFormed(WellFormed(s))
    ensures IsWellFormed(s) ==> WellFormed(s) == s
  {
    var r := WellFormed(s);
    forall i: nat | i < |s|
      ensures !Lone(r, i)
    {
      assert i + 1 < |s| ==> r[i + 1] == if Lone(s, i + 1) then REPLACEMENT else s[i + 1];
      assert i > 0 ==> r[i - 1] == if Lone(s, i - 1) then REPLACEMENT else s[i - 1];
    }
  }

  /** No pair stands across the end of `a` and the start of `b`. */
  predicate SafeJoin(a: seq<Unit>, b: seq<Unit>) {
    a != [] && b != [] ==> !(High(a[|a| - 1]) && Low(b[0]))
  }

  lemma WellFormedAt(a: seq<Unit>, b: seq<Unit>, i: nat)
    requires SafeJoin(a, b) && i < |a + b|
    ensures WellFormed(a + b)[i] == if i < |a| then WellFormed(a)[i] else WellFormed(b)[i - |a|]
  {
    if i < |a| {
      assert Lone(a + b, i) == Lone(a, i);
    } else {
      assert Lone(a + b, i) == Lone(b, i - |a|);
    }
  }

  lemma WellFormedJoin(a: seq<Unit>, b: seq<Unit>)
    requires SafeJoin(a, b)
    ensures WellFormed(a + b) == WellFormed(a) + WellFormed(b)
  {
    forall i: nat | i < |a + b|
      ensures WellFormed(a + b)[i] == (WellFormed(a) + WellFormed(b))[i]
    {
      WellFormedAt(a, b, i);
    }
  }

  datatype Frame = Frame(start: bool, text: seq<Unit>)

  function Texts(frames: seq<Frame>): seq<Unit> {
    if frames == [] then [] else Texts(frames[..|frames| - 1]) + frames[|frames| - 1].text
  }

  lemma TextsPush(frames: seq<Frame>, f: Frame)
    ensures Texts(frames + [f]) == Texts(frames) + f.text
  {
    assert (frames + [f])[..|frames|] == frames;
  }

  lemma {:induction false} TextsAppend(a: seq<Frame>, b: seq<Frame>)
    ensures Texts(a + b) == Texts(a) + Texts(b)
    decreases |b|
  {
    if b == [] {
      assert a + b == a;
    } else {
      var front, last := b[..|b| - 1], b[|b| - 1];
      TextsAppend(a, front);
      assert a + b == (a + front) + [last] && b == front + [last];
      TextsPush(a + front, last);
      TextsPush(front, last);
      Assoc(Texts(a), Texts(front), last.text);
    }
  }

  predicate Fits(f: Frame) {
    |f.text| <= TEXT_FRAME && IsWellFormed(f.text)
  }

  ghost predicate AllFit(frames: seq<Frame>) {
    forall k :: 0 <= k < |frames| ==> Fits(frames[k])
  }

  /** The first frame carries the caller's flag, the rest none. */
  predicate StartsOnce(frames: seq<Frame>, start: bool) {
    |frames| > 0 && forall k :: 0 <= k < |frames| ==> frames[k].start == (start && k == 0)
  }

  lemma SafeCut(value: seq<Unit>, end: nat)
    requires end <= |value|
    requires 0 < end < |value| ==> !(High(value[end - 1]) && Low(value[end]))
    ensures SafeJoin(value[..end], value[end..])
    ensures WellFormed(value) == WellFormed(value[..end]) + WellFormed(value[end..])
  {
    assert value == value[..end] + value[end..];
    assert SafeJoin(value[..end], value[end..]);
    WellFormedJoin(value[..end], value[end..]);
  }

  /** The frames carry `value` up to `at`. */
  ghost predicate Sent(value: seq<Unit>, at: nat, frames: seq<Frame>, start: bool)
    requires at <= |value|
  {
    && AllFit(frames) && (frames != [] ==> StartsOnce(frames, start))
    && Texts(frames) + WellFormed(value[at..]) == WellFormed(value)
  }

  /** Where a frame that starts at `at` may end. */
  predicate FrameEnd(value: seq<Unit>, at: nat, end: nat) {
    at <= end <= |value| && end - at <= TEXT_FRAME
    && (0 < end < |value| ==> !(High(value[end - 1]) && Low(value[end])))
  }

  lemma FramesPush(frames: seq<Frame>, start: bool, part: seq<Unit>)
    requires AllFit(frames) && (frames != [] ==> StartsOnce(frames, start)) && |part| <= TEXT_FRAME
    ensures var more := frames + [Frame(start && frames == [], WellFormed(part))];
      AllFit(more) && StartsOnce(more, start)
  {
    WellFormedIs(part);
    var frame := Frame(start && frames == [], WellFormed(part));
    assert Fits(frame);
  }

  lemma SentStep(value: seq<Unit>, at: nat, end: nat, frames: seq<Frame>, start: bool)
    requires FrameEnd(value, at, end) && Sent(value, at, frames, start)
    ensures Sent(value, end, frames + [Frame(start && frames == [], WellFormed(value[at..end]))], start)
  {
    var part := value[at..end];
    FramesPush(frames, start, part);
    RestSplits(value, at, end);
    TextsPush(frames, Frame(start && frames == [], WellFormed(part)));
    Assoc(Texts(frames), WellFormed(part), WellFormed(value[end..]));
  }

  lemma SentNone(value: seq<Unit>, start: bool)
    ensures Sent(value, 0, [], start)
  {
    assert value[0..] == value;
  }

  lemma SentAll(value: seq<Unit>, frames: seq<Frame>, start: bool)
    requires Sent(value, |value|, frames, start)
    ensures Texts(frames) == WellFormed(value) && AllFit(frames) && (frames != [] ==> StartsOnce(frames, start))
  {
  }

  lemma RestSplits(value: seq<Unit>, at: nat, end: nat)
    requires FrameEnd(value, at, end)
    ensures WellFormed(value[at..]) == WellFormed(value[at..end]) + WellFormed(value[end..])
  {
    var rest := value[at..];
    assert rest[..end - at] == value[at..end] && rest[end - at..] == value[end..];
    SafeCut(rest, end - at);
  }

  /** A text in frames: each at most a message, none ending inside a pair. */
  method SendFramed(value: seq<Unit>, start: bool) returns (frames: seq<Frame>)
    ensures StartsOnce(frames, start) && AllFit(frames)
    ensures Texts(frames) == WellFormed(value)
  {
    frames := [];
    var at: nat, flag := 0, start;
    SentNone(value, start);
    while true
      invariant at <= |value| && (at == |value| ==> at == 0)
      invariant flag == (start && frames == [])
      invariant Sent(value, at, frames, start)
      decreases |value| - at
    {
      var end := if |value| - at > TEXT_FRAME then at + TEXT_FRAME else |value|;
      if end < |value| && High(value[end - 1]) {
        end := end - 1;
      }
      SentStep(value, at, end, frames, start);
      frames := frames + [Frame(flag, WellFormed(value[at..end]))];
      flag := false;
      at := end;
      if at >= |value| {
        break;
      }
    }
    SentAll(value, frames, start);
  }

  // The bytes a frame is sent as.

  function PairBytes(h: Unit, l: Unit): seq<int>
    requires High(h) && Low(l)
  {
    var point := 0x1_0000 + (h - 0xD800) * 0x400 + (l - 0xDC00);
    [0xF0 + point / 0x4_0000, 0x80 + point / 0x1000 % 0x40, 0x80 + point / 0x40 % 0x40, 0x80 + point % 0x40]
  }

  function UnitBytes(u: Unit): (b: seq<int>)
    ensures 1 <= |b| <= 3
  {
    if u < 0x80 then [u]
    else if u < 0x800 then [0xC0 + u / 0x40, 0x80 + u % 0x40]
    else [0xE0 + u / 0x1000, 0x80 + u / 0x40 % 0x40, 0x80 + u % 0x40]
  }

  predicate PairFirst(s: seq<Unit>) {
    |s| > 1 && High(s[0]) && Low(s[1])
  }

  /** UTF-8: four bytes for a pair, else one to three. */
  function Utf8(s: seq<Unit>): (b: seq<int>)
    ensures |b| <= 3 * |s|
  {
    if s == [] then []
    else if PairFirst(s) then PairBytes(s[0], s[1]) + Utf8(s[2..])
    else UnitBytes(s[0]) + Utf8(s[1..])
  }

  lemma {:induction false} Utf8Join(a: seq<Unit>, b: seq<Unit>)
    requires SafeJoin(a, b)
    ensures Utf8(a + b) == Utf8(a) + Utf8(b)
    decreases |a|
  {
    if a == [] {
      assert a + b == b;
    } else {
      var n := if PairFirst(a) then 2 else 1;
      assert (a + b)[n..] == a[n..] + b;
      Utf8Join(a[n..], b);
    }
  }

  function Bytes(frames: seq<Frame>): seq<int> {
    if frames == [] then [] else Bytes(frames[..|frames| - 1]) + Utf8(frames[|frames| - 1].text)
  }

  lemma LastNotHigh(s: seq<Unit>)
    requires IsWellFormed(s) && s != []
    ensures !High(s[|s| - 1])
  {
    assert !Lone(s, |s| - 1);
  }

  /** The messages' bytes joined are the UTF-8 of the texts joined: nothing is
      lost or split at a frame's end. */
  lemma {:induction false} FramesJoin(frames: seq<Frame>)
    requires AllFit(frames)
    ensures Bytes(frames) == Utf8(Texts(frames))
    ensures Texts(frames) != [] ==> !High(Texts(frames)[|Texts(frames)| - 1])
    decreases |frames|
  {
    if frames != [] {
      var front, last := frames[..|frames| - 1], frames[|frames| - 1];
      assert AllFit(front) && Fits(last);
      FramesJoin(front);
      Utf8Join(Texts(front), last.text);
      if last.text != [] {
        LastNotHigh(last.text);
      }
    }
  }

  /** A frame is at most 1 MiB. */
  lemma FrameBytes(f: Frame)
    requires Fits(f)
    ensures |Utf8(f.text)| <= 1048576
  {
  }

  /** What the host holds once a value's frames are joined is its UTF-8. */
  method SendText(value: seq<Unit>, start: bool) returns (frames: seq<Frame>)
    ensures StartsOnce(frames, start)
    ensures Bytes(frames) == Utf8(WellFormed(value))
    ensures forall k :: 0 <= k < |frames| ==> |Utf8(frames[k].text)| <= 1048576
  {
    frames := SendFramed(value, start);
    FramesJoin(frames);
    forall k | 0 <= k < |frames|
      ensures |Utf8(frames[k].text)| <= 1048576
    {
      assert Fits(frames[k]);
      FrameBytes(frames[k]);
    }
  }

  // Stored bytes.

  datatype ByteFrame = ByteFrame(start: bool, bytes: seq<int>)

  function Joined(frames: seq<ByteFrame>): seq<int> {
    if frames == [] then [] else Joined(frames[..|frames| - 1]) + frames[|frames| - 1].bytes
  }

  predicate IsByteFrame(frames: seq<ByteFrame>, k: nat)
    requires k < |frames|
  {
    frames[k].start == (k == 0) && |frames[k].bytes| <= BYTE_FRAME
    && (k + 1 < |frames| ==> |frames[k].bytes| == BYTE_FRAME)
    && (k > 0 ==> frames[k].bytes != [])
  }

  /** One frame more. */
  lemma ByteFramesNext(frames: seq<ByteFrame>, f: ByteFrame, bytes: seq<int>, at: int, end: int)
    requires 0 <= at <= end <= |bytes| && Joined(frames) == bytes[..at] && f == ByteFrame(frames == [], bytes[at..end])
    requires end - at <= BYTE_FRAME && (frames != [] ==> at < end)
    requires forall k: nat :: k < |frames| ==> IsByteFrame(frames, k) && |frames[k].bytes| == BYTE_FRAME
    ensures Joined(frames + [f]) == bytes[..end]
    ensures forall k: nat :: k < |frames| ==> IsByteFrame(frames + [f], k) && |(frames + [f])[k].bytes| == BYTE_FRAME
    ensures IsByteFrame(frames + [f], |frames|)
  {
    assert (frames + [f])[..|frames|] == frames;
    assert bytes[..end] == bytes[..at] + bytes[at..end];
    forall k: nat | k < |frames|
      ensures IsByteFrame(frames + [f], k) && |(frames + [f])[k].bytes| == BYTE_FRAME
    {
      assert IsByteFrame(frames, k);
    }
  }

  /** Bytes in frames: all but the last full, only the first a start, none
      empty but that of an empty value. */
  method SendStoreFramed(bytes: seq<int>) returns (frames: seq<ByteFrame>)
    ensures |frames| > 0 && Joined(frames) == bytes
    ensures forall k: nat :: k < |frames| ==> IsByteFrame(frames, k)
  {
    frames := [];
    var at, start := 0, true;
    while true
      invariant 0 <= at <= |bytes| && start == (frames == []) && (frames != [] ==> at < |bytes|)
      invariant Joined(frames) == bytes[..at]
      invariant forall k: nat :: k < |frames| ==> IsByteFrame(frames, k) && |frames[k].bytes| == BYTE_FRAME
      decreases |bytes| - at
    {
      var end := if at + BYTE_FRAME < |bytes| then at + BYTE_FRAME else |bytes|;
      var f := ByteFrame(start, bytes[at..end]);
      ByteFramesNext(frames, f, bytes, at, end);
      frames := frames + [f];
      start := false;
      if at + BYTE_FRAME >= |bytes| {
        assert bytes[..end] == bytes;
        break;
      }
      at := at + BYTE_FRAME;
    }
  }

  // The console's lines, gathered into frames.

  const NEWLINE: Unit := 0x0A

  function Flat(parts: seq<seq<Unit>>): seq<Unit> {
    if parts == [] then [] else Flat(parts[..|parts| - 1]) + parts[|parts| - 1]
  }

  lemma FlatPush(parts: seq<seq<Unit>>, part: seq<Unit>)
    ensures Flat(parts + [part]) == Flat(parts) + part
  {
    assert (parts + [part])[..|parts|] == parts;
  }

  /** A step's lines, joined. */
  function Lines(lines: seq<seq<Unit>>): seq<Unit> {
    if |lines| == 0 then []
    else if |lines| == 1 then lines[0]
    else Lines(lines[..|lines| - 1]) + [NEWLINE] + lines[|lines| - 1]
  }

  lemma LinesPush(lines: seq<seq<Unit>>, line: seq<Unit>)
    ensures Lines(lines + [line]) == if lines == [] then line else Lines(lines) + [NEWLINE] + line
  {
    assert (lines + [line])[..|lines|] == lines;
  }

  /** What is sent can be put before what is not yet. */
  predicate Split(sent: seq<Frame>, raw: seq<Unit>, pending: seq<Unit>) {
    Texts(sent) == WellFormed(raw) && (raw != [] && pending != [] ==> pending[0] == NEWLINE)
  }

  lemma SplitSent(sent: seq<Frame>, raw: seq<Unit>, pending: seq<Unit>, frames: seq<Frame>)
    requires Split(sent, raw, pending) && Texts(frames) == WellFormed(pending)
    ensures Split(sent + frames, raw + pending, [])
  {
    TextsAppend(sent, frames);
    WellFormedJoin(raw, pending);
  }

  lemma SplitLine(sent: seq<Frame>, raw: seq<Unit>, line: seq<Unit>, frames: seq<Frame>)
    requires Split(sent, raw, []) && Texts(frames) == WellFormed(line)
    requires raw != [] ==> raw[|raw| - 1] == NEWLINE
    ensures Split(sent + frames, raw + line, [])
  {
    TextsAppend(sent, frames);
    WellFormedJoin(raw, line);
  }

  class Console {
    var parts: seq<seq<Unit>>
    var units: nat
    var logged: bool
    var sent: seq<Frame>
    ghost var raw: seq<Unit>
    ghost var lines: seq<seq<Unit>>

    /** The lines are what was sent with what waits, which is less than a
        frame; no frame starts the console over. */
    ghost predicate Valid()
      reads this
    {
      && raw + Flat(parts) == Lines(lines) && Split(sent, raw, Flat(parts))
      && |Flat(parts)| <= units < TEXT_FRAME
      && logged == (lines != [])
      && forall k :: 0 <= k < |sent| ==> !sent[k].start
    }

    constructor ()
      ensures Valid() && lines == [] && sent == []
    {
      parts, units, logged, sent, raw, lines := [], 0, false, [], [], [];
    }

    /** Sends what waits. */
    method Flush()
      requires Split(sent, raw, Flat(parts))
      requires forall k :: 0 <= k < |sent| ==> !sent[k].start
      modifies `parts, `units, `sent, `raw
      ensures raw == old(raw + Flat(parts)) && parts == [] && units <= old(units) && (old(parts) != [] ==> units == 0)
      ensures Split(sent, raw, []) && forall k :: 0 <= k < |sent| ==> !sent[k].start
    {
      if parts == [] {
        assert raw + Flat(parts) == raw;
        return;
      }
      var value := Flat(parts);
      parts, units := [], 0;
      var frames := SendFramed(value, false);
      SplitSent(sent, raw, value, frames);
      sent, raw := sent + frames, raw + value;
    }

    /** The line's break before it, which a first line has not. */
    method Break(line: seq<Unit>)
      requires Valid()
      modifies `parts, `logged, `lines
      ensures lines == old(lines) + [line] && logged
      ensures raw + Flat(parts) + line == Lines(lines)
      ensures Split(sent, raw, Flat(parts)) && |Flat(parts)| <= units + 1
      ensures raw != [] ==> Flat(parts) != []
      ensures raw + Flat(parts) != [] ==> (raw + Flat(parts))[|raw + Flat(parts)| - 1] == NEWLINE
    {
      LinesPush(lines, line);
      ghost var waiting := Flat(parts);
      if logged {
        FlatPush(parts, [NEWLINE]);
        parts := parts + [[NEWLINE]];
        Assoc(raw, waiting, [NEWLINE]);
      }
      logged, lines := true, lines + [line];
    }

    /** A line that fills no frame, put with those that wait. */
    method Wait(line: seq<Unit>)
      requires raw + Flat(parts) + line == Lines(lines) && lines != [] && logged
      requires Split(sent, raw, Flat(parts)) && |Flat(parts)| <= units + 1
      requires raw != [] ==> Flat(parts) != []
      requires forall k :: 0 <= k < |sent| ==> !sent[k].start
      modifies `parts, `units, `sent, `raw
      ensures Valid()
    {
      FlatPush(parts, line);
      assert raw + (Flat(parts) + line) == Lines(lines);
      parts := parts + [line];
      units := units + |line| + 1;
      if units >= TEXT_FRAME {
        Flush();
        assert raw + [] == raw;
      }
    }

    method Log(line: seq<Unit>)
      requires Valid()
      modifies this
      ensures Valid() && lines == old(lines) + [line]
    {
      Break(line);
      if |line| >= TEXT_FRAME {
        Flush();
        var frames := SendFramed(line, false);
        SplitLine(sent, raw, line, frames);
        sent, raw := sent + frames, raw + line;
        assert raw + [] == raw;
        return;
      }
      Wait(line);
    }

    /** At the step's end: what the host holds of the console is the step's
        lines, joined, as UTF-8 text. */
    method Close()
      requires Valid()
      modifies this
      ensures Texts(sent) == WellFormed(Lines(lines)) && lines == old(lines)
      ensures forall k :: 0 <= k < |sent| ==> !sent[k].start
    {
      Flush();
      assert raw == Lines(lines);
    }
  }
}
