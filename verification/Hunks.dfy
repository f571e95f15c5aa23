/// Hunks of a line diff: their text, what the text says, and what applying a
/// list of them does to a body (components/code-run-quickjs/diff.js).

module Hunks {
  import opened EditScript
  import opened Lines
  import Blocks
  import Decimal

  /** A body line of a hunk: kept, dropped from the old side, or added. */
  datatype HunkLine = HunkLine(op: Op, line: string)

  /** A hunk over lines `[aStart, aEnd)` of the old side and `[bStart, bEnd)`
      of the new one. */
  datatype Hunk = Hunk(aStart: int, aEnd: int, bStart: int, bEnd: int, text: string, edge: bool, coarse: bool)

  const NO_NEWLINE: string := "\\ No newline at end of file\n"

  function Sign(op: Op): char {
    match op
    case Keep => ' '
    case Del => '-'
    case Ins => '+'
  }

  function LineText(op: Op, line: string): string {
    Marked(op, line, NO_NEWLINE)
  }

  function Marked(op: Op, line: string, mark: string): string {
    [Sign(op)] + line + (if Ended(line) then "" else "\n" + mark)
  }

  function BodyText(body: seq<HunkLine>): string {
    if body == [] then "" else LineText(body[0].op, body[0].line) + BodyText(body[1..])
  }

  /** What stands before, between and after a header's numbers. */
  datatype Marks = Marks(s: string, t: string, u: string, v: string, w: string)

  function HeaderMarks(): Marks {
    Marks("@@ -", ",", " +", ",", " @@\n")
  }

  function Header(aStart: int, aEnd: int, bStart: int, bEnd: int): string {
    Ranges(HeaderMarks(), aStart, aEnd, bStart, bEnd)
  }

  /** Two ranges, each as its first line's number and its length. */
  function Ranges(mark: Marks, aStart: int, aEnd: int, bStart: int, bEnd: int): string {
    Between(mark, Decimal.Numeral(aStart + 1), Decimal.Numeral(aEnd - aStart), Decimal.Numeral(bStart + 1), Decimal.Numeral(bEnd - bStart))
  }

  function Between(mark: Marks, k: string, l: string, m: string, n: string): string {
    mark.s + k + mark.t + l + mark.u + m + mark.v + n + mark.w
  }

  /** The old (the new) side's lines a hunk body names. */
  function OldSide(body: seq<HunkLine>): seq<string> {
    if body == [] then [] else (if body[0].op == Ins then [] else [body[0].line]) + OldSide(body[1..])
  }

  function NewSide(body: seq<HunkLine>): seq<string> {
    if body == [] then [] else (if body[0].op == Del then [] else [body[0].line]) + NewSide(body[1..])
  }

  lemma {:induction false} TextAppend(p: seq<HunkLine>, q: seq<HunkLine>)
    ensures BodyText(p + q) == BodyText(p) + BodyText(q)
  {
    if p == [] {
      assert p + q == q;
    } else {
      assert (p + q)[1..] == p[1..] + q;
      TextAppend(p[1..], q);
    }
  }

  lemma TextPush(p: seq<HunkLine>, l: HunkLine)
    ensures BodyText(p + [l]) == BodyText(p) + LineText(l.op, l.line)
  {
    TextAppend(p, [l]);
    assert [l][1..] == [];
  }

  lemma {:induction false} OldAppend(p: seq<HunkLine>, q: seq<HunkLine>)
    ensures OldSide(p + q) == OldSide(p) + OldSide(q)
  {
    if p == [] {
      assert p + q == q;
    } else {
      assert (p + q)[1..] == p[1..] + q;
      OldAppend(p[1..], q);
    }
  }

  lemma {:induction false} NewAppend(p: seq<HunkLine>, q: seq<HunkLine>)
    ensures NewSide(p + q) == NewSide(p) + NewSide(q)
  {
    if p == [] {
      assert p + q == q;
    } else {
      assert (p + q)[1..] == p[1..] + q;
      NewAppend(p[1..], q);
    }
  }

  // Reading a hunk's text back.

  /** The place past the first newline of `text`, or its end. */
  function PastNewline(text: string): (e: nat)
    ensures e <= |text| && (text != "" ==> e > 0)
  {
    if text == "" then 0 else if text[0] == '\n' then 1 else 1 + PastNewline(text[1..])
  }

  function OpOf(sign: char): Op {
    if sign == '-' then Del else if sign == '+' then Ins else Keep
  }

  /** The first line of a hunk body's text, by its sign, without its newline
      when `mark` follows, and the text after it. */
  function ReadLine(text: string, mark: string): (r: (HunkLine, string))
    requires text != ""
    ensures |r.1| < |text|
  {
    var e := PastNewline(text);
    if mark <= text[e..]
    then (HunkLine(OpOf(text[0]), text[1..if e > 1 then e - 1 else 1]), text[e..][|mark|..])
    else (HunkLine(OpOf(text[0]), text[1..e]), text[e..])
  }

  /** A hunk body read from its text. */
  function ParseBody(text: string): seq<HunkLine>
    decreases |text|
  {
    if text == "" then [] else
    var (line, rest) := ReadLine(text, NO_NEWLINE);
    [line] + ParseBody(rest)
  }

  lemma {:induction false} PastNewlineAt(text: string, e: nat)
    requires 0 < e <= |text| && text[e - 1] == '\n' && forall k :: 0 <= k < e - 1 ==> text[k] != '\n'
    ensures PastNewline(text) == e
  {
    if e > 1 {
      PastNewlineAt(text[1..], e - 1);
    }
  }

  ghost predicate LineLikes(body: seq<HunkLine>) {
    forall k :: 0 <= k < |body| ==> LineLike(body[k].line)
  }

  /** Reading one line back, whatever text a further line could start with
      follows it. */
  lemma LineRoundTrip(op: Op, line: string, rest: string, mark: string)
    requires LineLike(line) && mark != "" && (rest == "" || rest[0] != mark[0])
    ensures Marked(op, line, mark) + rest != ""
    ensures ReadLine(Marked(op, line, mark) + rest, mark) == (HunkLine(op, line), rest)
  {
    var text := Marked(op, line, mark) + rest;
    if Ended(line) {
      assert text == [Sign(op)] + line + rest;
      EndedRoundTrip(op, line, rest, mark, text);
    } else {
      assert text == [Sign(op)] + (line + "\n") + (mark + rest);
      UnendedRoundTrip(op, line, rest, mark, text);
    }
  }

  lemma EndedRoundTrip(op: Op, line: string, rest: string, mark: string, text: string)
    requires LineLike(line) && Ended(line) && mark != "" && (rest == "" || rest[0] != mark[0])
    requires text == [Sign(op)] + line + rest
    ensures ReadLine(text, mark) == (HunkLine(op, line), rest)
  {
    Blocks.Middle([Sign(op)], line, rest);
    FirstNewline([Sign(op)], line, text);
  }

  lemma UnendedRoundTrip(op: Op, line: string, rest: string, mark: string, text: string)
    requires LineLike(line) && !Ended(line)
    requires text == [Sign(op)] + (line + "\n") + (mark + rest)
    ensures ReadLine(text, mark) == (HunkLine(op, line), rest)
  {
    Blocks.Middle([Sign(op)], line + "\n", mark + rest);
    FirstNewline([Sign(op)], line + "\n", text);
    assert text[1..1 + |line|] == line;
    assert (mark + rest)[|mark|..] == rest;
  }

  lemma FirstNewline(sign: string, line: string, text: string)
    requires |sign| == 1 && sign[0] != '\n' && LineLike(line) && Ended(line) && sign + line <= text
    ensures PastNewline(text) == 1 + |line|
  {
    assert forall k :: 0 <= k < 1 + |line| ==> text[k] == (sign + line)[k];
    PastNewlineAt(text, 1 + |line|);
  }

  lemma TextStart(body: seq<HunkLine>)
    ensures BodyText(body) == "" || BodyText(body)[0] == ' ' || BodyText(body)[0] == '-' || BodyText(body)[0] == '+'
  {
    if body != [] {
      assert LineText(body[0].op, body[0].line)[0] == Sign(body[0].op);
    }
  }

  lemma ParseLine(text: string, line: HunkLine, rest: string)
    requires text != "" && ReadLine(text, NO_NEWLINE) == (line, rest)
    ensures ParseBody(text) == [line] + ParseBody(rest)
  {
  }

  /** Round trip: the text of a hunk body says exactly that body, a missing
      last newline included. */
  lemma {:induction false} BodyRoundTrip(body: seq<HunkLine>)
    requires LineLikes(body)
    ensures ParseBody(BodyText(body)) == body
  {
    if body != [] {
      var op, line, rest := body[0].op, body[0].line, BodyText(body[1..]);
      BodyRoundTrip(body[1..]);
      TextStart(body[1..]);
      LineRoundTrip(op, line, rest, NO_NEWLINE);
      ParseLine(BodyText(body), HunkLine(op, line), rest);
    }
  }

  /** The body a hunk's text says, past its header line. */
  function Body(h: Hunk): seq<HunkLine> {
    ParseBody(h.text[PastNewline(h.text)..])
  }

  lemma HeaderOneLine(aStart: int, aEnd: int, bStart: int, bEnd: int, rest: string)
    ensures PastNewline(Header(aStart, aEnd, bStart, bEnd) + rest) == |Header(aStart, aEnd, bStart, bEnd)|
  {
    var a, b := Decimal.Numeral(aStart + 1), Decimal.Numeral(aEnd - aStart);
    var c, d := Decimal.Numeral(bStart + 1), Decimal.Numeral(bEnd - bStart);
    NoNewlineIn(a, b, c, d);
    var line := "@@ -" + a + "," + b + " +" + c + "," + d + " @@";
    var h := Header(aStart, aEnd, bStart, bEnd);
    assert h == line + "\n";
    assert forall k :: 0 <= k < |line| ==> (h + rest)[k] == line[k] && line[k] in line;
    PastNewlineAt(h + rest, |h|);
  }

  lemma NoNewlineIn(a: string, b: string, c: string, d: string)
    requires forall s, k :: s in {a, b, c, d} && 0 <= k < |s| ==> s[k] in Decimal.DIGITS || s[k] == '-'
    ensures '\n' !in "@@ -" + a + "," + b + " +" + c + "," + d + " @@"
  {
    assert '\n' !in Decimal.DIGITS;
    assert '\n' !in a && '\n' !in b && '\n' !in c && '\n' !in d;
  }

  /** A hunk made of a header and a body's text says that body. */
  lemma BodyOf(h: Hunk, body: seq<HunkLine>)
    requires LineLikes(body)
    requires h.text == Header(h.aStart, h.aEnd, h.bStart, h.bEnd) + BodyText(body)
    ensures Body(h) == body && Headed(h)
  {
    HeaderOneLine(h.aStart, h.aEnd, h.bStart, h.bEnd, BodyText(body));
    var header := Header(h.aStart, h.aEnd, h.bStart, h.bEnd);
    assert h.text[|header|..] == BodyText(body);
    BodyRoundTrip(body);
  }

  /** The hunks' texts, joined. */
  function Texts(hs: seq<Hunk>): string {
    if hs == [] then "" else Texts(hs[..|hs| - 1]) + hs[|hs| - 1].text
  }

  // What a list of hunks does.

  /** A hunk as the ranges it names and the lines its text says. */
  function BlockOf(h: Hunk): Blocks.Block<string> {
    Blocks.Block(h.aStart, h.aEnd, h.bStart, h.bEnd, OldSide(Body(h)), NewSide(Body(h)))
  }

  function BlocksOf(hs: seq<Hunk>): seq<Blocks.Block<string>> {
    seq(|hs|, k requires 0 <= k < |hs| => BlockOf(hs[k]))
  }

  /** The text is a header that names the hunk's ranges, and its body's
      lines. */
  ghost predicate Headed(h: Hunk) {
    h.text == Header(h.aStart, h.aEnd, h.bStart, h.bEnd) + BodyText(Body(h)) && LineLikes(Body(h))
  }

  ghost predicate SaysAt(hs: seq<Hunk>, bs: seq<Blocks.Block<string>>, k: int) {
    0 <= k < |hs| && k < |bs| && Headed(hs[k]) && bs[k] == BlockOf(hs[k])
  }

  /** Each hunk's header and text say the block at its place. */
  ghost predicate Says(hs: seq<Hunk>, bs: seq<Blocks.Block<string>>) {
    |hs| == |bs| && forall k :: 0 <= k < |hs| ==> SaysAt(hs, bs, k)
  }

  /** The hunks say blocks that are all the difference between `x` and `y`,
      whose first lines are numbered `aBase` and `bBase`. */
  ghost predicate PatchOf(hs: seq<Hunk>, x: seq<string>, y: seq<string>, aBase: int, bBase: int)
  {
    exists bs :: Says(hs, bs) && Blocks.PatchOf(bs, x, y, aBase, bBase)
  }

  lemma SaysBlocks(hs: seq<Hunk>, bs: seq<Blocks.Block<string>>)
    requires Says(hs, bs)
    ensures bs == BlocksOf(hs)
  {
    forall k | 0 <= k < |hs|
      ensures bs[k] == BlocksOf(hs)[k]
    {
      assert SaysAt(hs, bs, k);
    }
  }

  lemma PatchBlocks(hs: seq<Hunk>, x: seq<string>, y: seq<string>, aBase: int, bBase: int) returns (bs: seq<Blocks.Block<string>>)
    requires PatchOf(hs, x, y, aBase, bBase)
    ensures Says(hs, bs) && Blocks.PatchOf(bs, x, y, aBase, bBase)
  {
    bs :| Says(hs, bs) && Blocks.PatchOf(bs, x, y, aBase, bBase);
  }

  lemma PatchBy(hs: seq<Hunk>, bs: seq<Blocks.Block<string>>, x: seq<string>, y: seq<string>, aBase: int, bBase: int)
    requires Says(hs, bs) && Blocks.PatchOf(bs, x, y, aBase, bBase)
    ensures PatchOf(hs, x, y, aBase, bBase)
  {
  }

  lemma SaysConcat(p: seq<Hunk>, bs: seq<Blocks.Block<string>>, q: seq<Hunk>, cs: seq<Blocks.Block<string>>)
    requires Says(p, bs) && Says(q, cs)
    ensures Says(p + q, bs + cs)
  {
    forall k | 0 <= k < |p + q|
      ensures SaysAt(p + q, bs + cs, k)
    {
      if k < |p| {
        assert SaysAt(p, bs, k);
      } else {
        assert SaysAt(q, cs, k - |p|);
      }
    }
  }

  /** Applying the hunks' text, read back line by line, to the old lines gives
      the new ones. */
  lemma PatchApplies(hs: seq<Hunk>, x: seq<string>, y: seq<string>, aBase: int, bBase: int)
    requires PatchOf(hs, x, y, aBase, bBase)
    ensures Blocks.Patch(BlocksOf(hs), x, aBase) == Blocks.Applied(y)
  {
    var bs := PatchBlocks(hs, x, y, aBase, bBase);
    SaysBlocks(hs, bs);
    Blocks.PatchApplies(bs, x, y, aBase, bBase);
  }

  /** The hunks are in order and disjoint on both sides. */
  lemma PatchOrdered(hs: seq<Hunk>, x: seq<string>, y: seq<string>, aBase: int, bBase: int, p: int, q: int)
    requires PatchOf(hs, x, y, aBase, bBase) && 0 <= p < q < |hs|
    ensures hs[p].aStart <= hs[p].aEnd <= hs[q].aStart <= hs[q].aEnd
    ensures hs[p].bStart <= hs[p].bEnd <= hs[q].bStart <= hs[q].bEnd
  {
    var bs := PatchBlocks(hs, x, y, aBase, bBase);
    assert SaysAt(hs, bs, p) && SaysAt(hs, bs, q);
    Blocks.PatchOrdered(bs, x, y, aBase, bBase, p, q);
  }

  /** Patches of two parts, the second numbered on from the first, are together
      a patch of the whole. */
  lemma PatchConcat(p: seq<Hunk>, q: seq<Hunk>, x: seq<string>, y: seq<string>,
                    x': seq<string>, y': seq<string>, aBase: int, bBase: int, aMid: int, bMid: int)
    requires aMid == aBase + |x| && bMid == bBase + |y|
    requires PatchOf(p, x, y, aBase, bBase)
    requires PatchOf(q, x', y', aMid, bMid)
    ensures PatchOf(p + q, x + x', y + y', aBase, bBase)
  {
    var bs := PatchBlocks(p, x, y, aBase, bBase);
    var cs := PatchBlocks(q, x', y', aMid, bMid);
    Blocks.PatchConcat(bs, cs, x, y, x', y', aBase, bBase, aMid, bMid);
    SaysConcat(p, bs, q, cs);
    PatchBy(p + q, bs + cs, x + x', y + y', aBase, bBase);
  }
}
