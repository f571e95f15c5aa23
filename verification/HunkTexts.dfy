/// The stored text of many hunks read back
/// (components/code-run-quickjs/diff.js).

module HunkTexts {
  import opened Hunks
  import opened Sequences
  import Blocks
  import Decimal

  /** A hunk body from the front of `text`, up to the next hunk's header, and
      the text from there. */
  function ReadBody(text: string): (r: (seq<HunkLine>, string))
    ensures |r.1| <= |text|
    decreases |text|
  {
    if text == "" || text[0] == '@' then ([], text) else
    var (line, rest) := ReadLine(text, NO_NEWLINE);
    var (body, after) := ReadBody(rest);
    ([line] + body, after)
  }

  /** A hunk as its text names it: its header line and its body. */
  datatype Read = Read(header: string, body: seq<HunkLine>)

  /** Every hunk of a joined text. */
  function ParseTexts(text: string): seq<Read>
    decreases |text|
  {
    if text == "" then [] else
    var e := PastNewline(text);
    var (body, rest) := ReadBody(text[e..]);
    [Read(text[..e], body)] + ParseTexts(rest)
  }

  function HeaderOf(h: Hunk): string {
    Header(h.aStart, h.aEnd, h.bStart, h.bEnd)
  }

  function ReadsOf(hs: seq<Hunk>): seq<Read> {
    if hs == [] then [] else [Read(HeaderOf(hs[0]), Body(hs[0]))] + ReadsOf(hs[1..])
  }

  ghost predicate AllHeaded(hs: seq<Hunk>) {
    forall k :: 0 <= k < |hs| ==> Headed(hs[k])
  }

  lemma ReadBodyLine(text: string, line: HunkLine, rest: string)
    requires text != "" && text[0] != '@' && ReadLine(text, NO_NEWLINE) == (line, rest)
    ensures ReadBody(text) == ([line] + ReadBody(rest).0, ReadBody(rest).1)
  {
  }

  lemma RestStarts(body: seq<HunkLine>, after: string, mark: char)
    requires (after == "" || after[0] == '@') && mark == '\\'
    ensures BodyText(body) + after == "" || (BodyText(body) + after)[0] != mark
  {
    TextStart(body);
    if BodyText(body) == "" {
      assert BodyText(body) + after == after;
    }
  }

  lemma LeadLine(body: seq<HunkLine>, after: string, text: string, rest: string)
    requires body != [] && text == BodyText(body) + after && rest == BodyText(body[1..]) + after
    ensures text == LineText(body[0].op, body[0].line) + rest && text != "" && text[0] != '@'
  {
    Assoc(LineText(body[0].op, body[0].line), BodyText(body[1..]), after);
    assert LineText(body[0].op, body[0].line)[0] == Sign(body[0].op);
  }

  /** A body's text says that body, whatever hunk follows. */
  lemma {:induction false} BodyBeforeHunk(body: seq<HunkLine>, after: string)
    requires LineLikes(body) && (after == "" || after[0] == '@')
    ensures ReadBody(BodyText(body) + after) == (body, after)
  {
    if body == [] {
      assert BodyText(body) + after == after;
    } else {
      var op, line, rest := body[0].op, body[0].line, BodyText(body[1..]) + after;
      var text := BodyText(body) + after;
      BodyBeforeHunk(body[1..], after);
      RestStarts(body[1..], after, NO_NEWLINE[0]);
      LeadLine(body, after, text, rest);
      LineRoundTrip(op, line, rest, NO_NEWLINE);
      ReadBodyLine(text, HunkLine(op, line), rest);
      assert [HunkLine(op, line)] + body[1..] == body;
    }
  }

  /** The texts joined, from the first. */
  function Joined(hs: seq<Hunk>): string {
    if hs == [] then "" else hs[0].text + Joined(hs[1..])
  }

  lemma {:induction false} JoinedLast(front: seq<Hunk>, last: Hunk)
    ensures Joined(front + [last]) == Joined(front) + last.text
  {
    if front == [] {
      assert [last][1..] == [];
    } else {
      JoinedLast(front[1..], last);
      assert (front + [last])[1..] == front[1..] + [last];
      Assoc(front[0].text, Joined(front[1..]), last.text);
    }
  }

  lemma {:induction false} TextsJoined(hs: seq<Hunk>)
    ensures Texts(hs) == Joined(hs)
    decreases |hs|
  {
    if hs != [] {
      var front, last := hs[..|hs| - 1], hs[|hs| - 1];
      assert hs == front + [last];
      TextsJoined(front);
      JoinedLast(front, last);
    }
  }

  lemma HeaderNotEmpty(h: Hunk)
    ensures HeaderOf(h) != "" && HeaderOf(h)[0] == '@'
  {
  }

  lemma StartsWith(header: string, body: string, after: string, c: char)
    requires header != "" && header[0] == c
    ensures header + body + after != "" && (header + body + after)[0] == c
  {
  }

  lemma HunkStart(h: Hunk, after: string)
    requires Headed(h)
    ensures h.text + after != "" && (h.text + after)[0] == '@'
  {
    HeaderNotEmpty(h);
    StartsWith(HeaderOf(h), BodyText(Body(h)), after, '@');
  }

  lemma HeadedParts(hs: seq<Hunk>)
    requires AllHeaded(hs) && hs != []
    ensures Headed(hs[0]) && AllHeaded(hs[1..])
  {
  }

  lemma JoinedStart(hs: seq<Hunk>)
    requires AllHeaded(hs)
    ensures Joined(hs) == "" || Joined(hs)[0] == '@'
  {
    if hs != [] {
      HeadedParts(hs);
      HunkStart(hs[0], Joined(hs[1..]));
    }
  }

  lemma ParseOne(header: string, body: string, after: string, read: seq<HunkLine>, text: string)
    requires text == header + body + after && PastNewline(text) == |header| && header != ""
    requires ReadBody(body + after) == (read, after)
    ensures ParseTexts(text) == [Read(header, read)] + ParseTexts(after)
  {
    Assoc(header, body, after);
    assert text[..|header|] == header && text[|header|..] == body + after;
  }

  lemma PastHeader(h: Hunk, text: string, rest: string)
    requires text == HeaderOf(h) + rest
    ensures PastNewline(text) == |HeaderOf(h)|
  {
    HeaderOneLine(h.aStart, h.aEnd, h.bStart, h.bEnd, rest);
  }

  lemma FirstHunk(h: Hunk, after: string)
    requires Headed(h) && (after == "" || after[0] == '@')
    ensures ParseTexts(h.text + after) == [Read(HeaderOf(h), Body(h))] + ParseTexts(after)
  {
    var header, body := HeaderOf(h), BodyText(Body(h));
    HeaderNotEmpty(h);
    Assoc(header, body, after);
    PastHeader(h, h.text + after, body + after);
    BodyBeforeHunk(Body(h), after);
    ParseOne(header, body, after, Body(h), h.text + after);
  }

  lemma {:induction false} JoinedRoundTrip(hs: seq<Hunk>)
    requires AllHeaded(hs)
    ensures ParseTexts(Joined(hs)) == ReadsOf(hs)
  {
    if hs != [] {
      HeadedParts(hs);
      JoinedRoundTrip(hs[1..]);
      JoinedStart(hs[1..]);
      FirstHunk(hs[0], Joined(hs[1..]));
    }
  }

  /** Round trip: the joined text of hunks is read back as each one's header
      and body, in order. */
  lemma TextsRoundTrip(hs: seq<Hunk>)
    requires AllHeaded(hs)
    ensures ParseTexts(Texts(hs)) == ReadsOf(hs)
  {
    TextsJoined(hs);
    JoinedRoundTrip(hs);
  }

  lemma Cancel(start: string, a: string, b: string)
    requires start + a == start + b
    ensures a == b
  {
    assert (start + a)[|start|..] == a && (start + b)[|start|..] == b;
  }

  /** Text and numeral in turn, from the left and from the right. */
  lemma Regroup(s: string, m: string, t: string, n: string, u: string, o: string, v: string, p: string, w: string)
    ensures s + m + t + n + u + o + v + p + w == s + (m + (t + (n + (u + (o + (v + (p + w)))))))
  {
    Assoc(s + m + t + n + u + o + v, p, w);
    Assoc(s + m + t + n + u + o, v, p + w);
    Assoc(s + m + t + n + u, o, v + (p + w));
    Assoc(s + m + t + n, u, o + (v + (p + w)));
    Assoc(s + m + t, n, u + (o + (v + (p + w))));
    Assoc(s + m, t, n + (u + (o + (v + (p + w)))));
    Assoc(s, m, t + (n + (u + (o + (v + (p + w))))));
  }

  lemma SignedAfter(start: string, k: string, k': string, a: string, b: string)
    requires start + (k + a) == start + (k' + b)
    requires Decimal.Signed(k) && Decimal.Signed(k') && Decimal.Breaks(a) && Decimal.Breaks(b)
    ensures k == k' && a == b
  {
    Cancel(start, k + a, k' + b);
    Decimal.SignedPrefix(k, k', a, b);
  }

  predicate Apart(mark: Marks) {
    Decimal.Breaks(mark.t) && Decimal.Breaks(mark.u) && Decimal.Breaks(mark.v) && Decimal.Breaks(mark.w)
  }

  predicate AllSigned(k: string, l: string, m: string, n: string) {
    Decimal.Signed(k) && Decimal.Signed(l) && Decimal.Signed(m) && Decimal.Signed(n)
  }

  /** Marks and digits in turn, the same twice over, are of the same digits. */
  lemma BetweenNamed(mark: Marks, k: string, l: string, m: string, n: string, k': string, l': string, m': string, n': string)
    requires Apart(mark) && AllSigned(k, l, m, n) && AllSigned(k', l', m', n')
    requires Between(mark, k, l, m, n) == Between(mark, k', l', m', n')
    ensures k == k' && l == l' && m == m' && n == n'
  {
    var c, c' := mark.v + (n + mark.w), mark.v + (n' + mark.w);
    var b, b' := mark.u + (m + c), mark.u + (m' + c');
    var a, a' := mark.t + (l + b), mark.t + (l' + b');
    Regroup(mark.s, k, mark.t, l, mark.u, m, mark.v, n, mark.w);
    Regroup(mark.s, k', mark.t, l', mark.u, m', mark.v, n', mark.w);
    SignedAfter(mark.s, k, k', a, a');
    SignedAfter(mark.t, l, l', b, b');
    SignedAfter(mark.u, m, m', c, c');
    SignedAfter(mark.v, n, n', mark.w, mark.w);
  }

  lemma NumeralsSigned(k: int, l: int, m: int, n: int)
    ensures AllSigned(Decimal.Numeral(k), Decimal.Numeral(l), Decimal.Numeral(m), Decimal.Numeral(n))
  {
    Decimal.NumeralIs(k);
    Decimal.NumeralIs(l);
    Decimal.NumeralIs(m);
    Decimal.NumeralIs(n);
  }

  lemma NumeralsNamed(mark: Marks, k: int, l: int, m: int, n: int, k': int, l': int, m': int, n': int)
    requires Apart(mark)
    requires Between(mark, Decimal.Numeral(k), Decimal.Numeral(l), Decimal.Numeral(m), Decimal.Numeral(n))
      == Between(mark, Decimal.Numeral(k'), Decimal.Numeral(l'), Decimal.Numeral(m'), Decimal.Numeral(n'))
    ensures k == k' && l == l' && m == m' && n == n'
  {
    NumeralsSigned(k, l, m, n);
    NumeralsSigned(k', l', m', n');
    BetweenNamed(mark, Decimal.Numeral(k), Decimal.Numeral(l), Decimal.Numeral(m), Decimal.Numeral(n),
      Decimal.Numeral(k'), Decimal.Numeral(l'), Decimal.Numeral(m'), Decimal.Numeral(n'));
    Decimal.SameNumeral(k, k');
    Decimal.SameNumeral(l, l');
    Decimal.SameNumeral(m, m');
    Decimal.SameNumeral(n, n');
  }

  lemma SameBetween(mark: Marks, e: int, f: int, g: int, h: int, k: int, l: int, m: int, n: int)
    requires e == k && f == l && g == m && h == n
    ensures Between(mark, Decimal.Numeral(e), Decimal.Numeral(f), Decimal.Numeral(g), Decimal.Numeral(h))
      == Between(mark, Decimal.Numeral(k), Decimal.Numeral(l), Decimal.Numeral(m), Decimal.Numeral(n))
  {
  }

  lemma RangesAre(mark: Marks, a: int, b: int, c: int, d: int, k: int, l: int, m: int, n: int)
    requires k == a + 1 && l == b - a && m == c + 1 && n == d - c
    ensures Ranges(mark, a, b, c, d)
      == Between(mark, Decimal.Numeral(k), Decimal.Numeral(l), Decimal.Numeral(m), Decimal.Numeral(n))
  {
    SameBetween(mark, a + 1, b - a, c + 1, d - c, k, l, m, n);
  }

  /** A header names its ranges. */
  lemma RangesNamed(mark: Marks, a: int, b: int, c: int, d: int, a': int, b': int, c': int, d': int)
    requires Apart(mark) && Ranges(mark, a, b, c, d) == Ranges(mark, a', b', c', d')
    ensures a == a' && b == b' && c == c' && d == d'
  {
    var k, l, m, n, k', l', m', n' := a + 1, b - a, c + 1, d - c, a' + 1, b' - a', c' + 1, d' - c';
    RangesAre(mark, a, b, c, d, k, l, m, n);
    RangesAre(mark, a', b', c', d', k', l', m', n');
    NumeralsNamed(mark, k, l, m, n, k', l', m', n');
  }

  lemma MarksApart()
    ensures Apart(HeaderMarks())
  {
  }

  /** What two lists of hunks do is the same when their joined texts are. */
  lemma {:induction false} TextsSayBlocks(hs: seq<Hunk>, gs: seq<Hunk>)
    requires ReadsOf(hs) == ReadsOf(gs)
    ensures BlocksOf(hs) == BlocksOf(gs)
    decreases |hs|
  {
    if hs != [] {
      var h, g := hs[0], gs[0];
      assert ReadsOf(hs)[0] == Read(HeaderOf(h), Body(h)) && ReadsOf(gs)[0] == Read(HeaderOf(g), Body(g));
      assert ReadsOf(hs)[1..] == ReadsOf(hs[1..]) && ReadsOf(gs)[1..] == ReadsOf(gs[1..]);
      SameBlock(h, g);
      TextsSayBlocks(hs[1..], gs[1..]);
      BlocksFront(hs);
      BlocksFront(gs);
    }
  }

  lemma SameBlock(h: Hunk, g: Hunk)
    requires HeaderOf(h) == HeaderOf(g) && Body(h) == Body(g)
    ensures BlockOf(h) == BlockOf(g)
  {
    MarksApart();
    RangesNamed(HeaderMarks(), h.aStart, h.aEnd, h.bStart, h.bEnd, g.aStart, g.aEnd, g.bStart, g.bEnd);
  }

  lemma BlocksFront(hs: seq<Hunk>)
    requires hs != []
    ensures BlocksOf(hs) == [BlockOf(hs[0])] + BlocksOf(hs[1..])
  {
  }

  lemma SaysHeaded(hs: seq<Hunk>, x: seq<string>, y: seq<string>, aBase: int, bBase: int)
    requires PatchOf(hs, x, y, aBase, bBase)
    ensures AllHeaded(hs)
  {
    var bs := PatchBlocks(hs, x, y, aBase, bBase);
    forall k | 0 <= k < |hs|
      ensures Headed(hs[k])
    {
      assert SaysAt(hs, bs, k);
    }
  }

  /** The joined text of a patch alone turns the old lines into the new: any
      hunks it is read as do. */
  lemma TextApplies(hs: seq<Hunk>, gs: seq<Hunk>, x: seq<string>, y: seq<string>, aBase: int, bBase: int)
    requires PatchOf(hs, x, y, aBase, bBase) && AllHeaded(gs) && Texts(gs) == Texts(hs)
    ensures ParseTexts(Texts(hs)) == ReadsOf(hs)
    ensures Blocks.Patch(BlocksOf(gs), x, aBase) == Blocks.Applied(y)
  {
    SaysHeaded(hs, x, y, aBase, bBase);
    TextsRoundTrip(hs);
    TextsRoundTrip(gs);
    TextsSayBlocks(hs, gs);
    PatchApplies(hs, x, y, aBase, bBase);
  }
}
