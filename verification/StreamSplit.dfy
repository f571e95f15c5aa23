/// A streamed answer split as it comes: what may go out at once, and what is
/// held from the first tool-call marker on
/// (deploy/house-model/exl3_tools.py).

module StreamSplit {
  import opened ToolText
  import opened Wrappers

  /** `mark` stands in `text` at `p`, or could once more text comes. */
  predicate Begins(text: string, p: nat, mark: string) {
    p <= |text| && forall i :: 0 <= i < |mark| && p + i < |text| ==> text[p + i] == mark[i]
  }

  /** The first place a marker stands or could begin. */
  function Safe(text: string, mark: string): (n: nat)
    ensures n <= |text|
  {
    SafeFrom(text, mark, 0)
  }

  function SafeFrom(text: string, mark: string, from: nat): (n: nat)
    requires from <= |text|
    ensures from <= n <= |text|
    decreases |text| - from
  {
    if Begins(text, from, mark) then from else if from == |text| then from else SafeFrom(text, mark, from + 1)
  }

  lemma {:induction false} SafeFromIs(text: string, mark: string, from: nat, n: nat)
    requires from <= n <= |text| && Begins(text, n, mark)
    requires forall p: nat :: from <= p < n ==> !Begins(text, p, mark)
    ensures SafeFrom(text, mark, from) == n
    decreases n - from
  {
    if from < n {
      SafeFromIs(text, mark, from + 1, n);
    }
  }

  /** `n` is the safe length: a marker begins there and nowhere before. */
  ghost predicate IsSafe(text: string, mark: string, n: nat) {
    Begins(text, n, mark) && forall p: nat :: p < n ==> !Begins(text, p, mark)
  }

  lemma SafeIs(text: string, mark: string, n: nat)
    requires IsSafe(text, mark, n)
    ensures Safe(text, mark) == n
  {
    SafeFromIs(text, mark, 0, n);
  }

  lemma OccursBegins(text: string, p: nat, mark: string)
    requires p <= |text|
    ensures Occurs(text, p, mark) <==> Begins(text, p, mark) && p + |mark| <= |text|
  {
    if p + |mark| <= |text| {
      if Begins(text, p, mark) {
        assert text[p..p + |mark|] == mark;
      }
      if Occurs(text, p, mark) {
        forall i | 0 <= i < |mark| && p + i < |text|
          ensures text[p + i] == mark[i]
        {
          assert text[p..p + |mark|][i] == mark[i];
        }
      }
    }
  }

  /** More text begins no marker where none could begin. */
  lemma BeginsMono(text: string, more: string, p: nat, mark: string)
    requires p <= |text| && Begins(text + more, p, mark)
    ensures Begins(text, p, mark)
  {
    forall i | 0 <= i < |mark| && p + i < |text|
      ensures text[p + i] == mark[i]
    {
      assert (text + more)[p + i] == mark[i];
    }
  }

  lemma BeginsShift(before: string, text: string, p: nat, mark: string)
    ensures Begins(before + text, |before| + p, mark) <==> Begins(text, p, mark)
  {
    if p <= |text| {
      if Begins(before + text, |before| + p, mark) {
        forall i | 0 <= i < |mark| && p + i < |text|
          ensures text[p + i] == mark[i]
        {
          assert (before + text)[|before| + p + i] == mark[i];
        }
      }
    }
  }

  /** Text after a safe length moves the safe length to where it is in what is
      held with it. */
  lemma SafeOn(out: string, held: string, piece: string, mark: string, n: nat)
    requires IsSafe(out + held, mark, |out|) && IsSafe(held + piece, mark, n)
    ensures IsSafe(out + held + piece, mark, |out| + n)
  {
    var text := held + piece;
    assert out + held + piece == out + text;
    BeginsShift(out, text, n, mark);
    forall p: nat | p < |out| + n
      ensures !Begins(out + text, p, mark)
    {
      if p < |out| {
        assert !Begins(out + held, p, mark);
        if Begins(out + held + piece, p, mark) {
          BeginsMono(out + held, piece, p, mark);
        }
      } else {
        assert !Begins(text, p - |out|, mark);
        BeginsShift(out, text, p - |out|, mark);
      }
    }
  }

  /** Where a marker occurs the first one is the safe length; where none does
      all but a tail shorter than a marker is safe. */
  lemma SafeIsFirst(text: string, mark: string)
    requires mark != ""
    ensures Find(text, mark) >= 0 ==> Safe(text, mark) == Find(text, mark)
    ensures Occurs(text, Safe(text, mark), mark) <==> Find(text, mark) >= 0
    ensures Find(text, mark) < 0 ==> |text| < Safe(text, mark) + |mark|
  {
    var at := Find(text, mark);
    FindIsFirst(text, mark);
    SafeIsSafe(text, mark, 0);
    var n := Safe(text, mark);
    OccursBegins(text, n, mark);
    if at >= 0 {
      FoundIsSafe(text, mark, at);
    }
  }

  lemma {:induction false} SafeIsSafe(text: string, mark: string, from: nat)
    requires from <= |text|
    requires forall p: nat :: p < from ==> !Begins(text, p, mark)
    ensures IsSafe(text, mark, SafeFrom(text, mark, from))
    decreases |text| - from
  {
    if !Begins(text, from, mark) && from < |text| {
      SafeIsSafe(text, mark, from + 1);
    }
  }

  lemma FoundIsSafe(text: string, mark: string, at: nat)
    requires Occurs(text, at, mark) && forall p :: 0 <= p < at ==> !Occurs(text, p, mark)
    ensures IsSafe(text, mark, at) && Safe(text, mark) == at
  {
    OccursBegins(text, at, mark);
    forall p: nat | p < at
      ensures !Begins(text, p, mark)
    {
      OccursBegins(text, p, mark);
    }
    SafeIs(text, mark, at);
  }

  lemma KeptIsSafe(text: string, mark: string, keep: nat)
    requires keep <= |text| && mark != "" && Absent(text, mark)
    requires Starts(text, mark, keep) && forall size :: keep < size < |mark| && size <= |text| ==> !Starts(text, mark, size)
    ensures IsSafe(text, mark, |text| - keep)
  {
    StartsBegins(text, mark, keep);
    forall p: nat | p < |text| - keep
      ensures !Begins(text, p, mark)
    {
      OccursBegins(text, p, mark);
      StartsBegins(text, mark, |text| - p);
    }
  }

  /** The last `size` characters of `text` begin `mark`. */
  predicate Starts(text: string, mark: string, size: int) {
    0 <= size <= |text| && size < |mark| && mark[..size] == text[|text| - size..]
  }

  lemma StartsBegins(text: string, mark: string, size: nat)
    requires size <= |text|
    ensures size < |mark| ==> (Starts(text, mark, size) <==> Begins(text, |text| - size, mark))
  {
    var from := |text| - size;
    if size < |mark| {
      if Starts(text, mark, size) {
        forall i | 0 <= i < |mark| && from + i < |text|
          ensures text[from + i] == mark[i]
        {
          assert mark[..size][i] == text[from..][i];
        }
      }
      if Begins(text, from, mark) {
        assert mark[..size] == text[from..];
      }
    }
  }

  /** How much of a text may go out, and whether a marker stopped it. */
  method Cut(text: string, mark: string) returns (n: nat, marked: bool)
    requires mark != ""
    ensures IsSafe(text, mark, n) && (marked <==> Occurs(text, n, mark))
  {
    var start := Find(text, mark);
    FindIsFirst(text, mark);
    if start >= 0 {
      FoundIsSafe(text, mark, start);
      return start, true;
    }
    var keep: nat := 0;
    var size := if |text| < |mark| - 1 then |text| else |mark| - 1;
    while size > 0
      invariant 0 <= size < |mark| && size <= |text|
      invariant forall k :: size < k < |mark| && k <= |text| ==> !Starts(text, mark, k)
    {
      if mark[..size] == text[|text| - size..] {
        keep := size;
        break;
      }
      size := size - 1;
    }
    KeptIsSafe(text, mark, keep);
    return |text| - keep, false;
  }

  /** A text's blocks with other text before the first. */
  function Before(before: string, d: Doc): Doc
    requires !d.Plain?
  {
    if d.Block? then Block(before, d.inner, d.rest) else Unclosed(before, d.inner)
  }

  function AfterOpen(after: string, before: string, open: string, close: string): Doc
    requires open != "" && close != ""
  {
    var end := Find(after, close);
    if end < 0 then Unclosed(before, after)
    else Block(before, after[..end], Scan(after[end + |close|..], open, close))
  }

  lemma ScanParts(text: string, before: string, after: string, open: string, close: string)
    requires open != "" && close != ""
    requires Find(text, open) == |before| && text == before + open + after
    ensures Scan(text, open, close) == AfterOpen(after, before, open, close)
  {
    assert text[..|before|] == before;
    assert text[|before| + |open|..] == after;
  }

  lemma ScanAfter(before: string, held: string, open: string, close: string)
    requires open != "" && close != ""
    requires Find(before + held, open) == |before| && Find(held, open) == 0
    ensures !Scan(held, open, close).Plain? && Scan(held, open, close).before == ""
    ensures Scan(before + held, open, close) == Before(before, Scan(held, open, close))
  {
    FindIsFirst(held, open);
    var after := held[|open|..];
    assert held == open + after && held == "" + open + after;
    assert before + held == before + open + after;
    ScanParts(held, "", after, open, close);
    ScanParts(before + held, before, after, open, close);
  }

  lemma SafeStep(out: string, held: string, piece: string, mark: string, n: nat, text: string, all: string, m: nat)
    requires IsSafe(out + held, mark, |out|) && IsSafe(held + piece, mark, n)
    requires text == held + piece && all == out + held + piece && m == |out| + n
    ensures Safe(all, mark) == m && all[..m] == out + text[..n] && all[m..] == text[n..] && (Occurs(all, m, mark) <==> Occurs(text, n, mark))
  {
    assert all == out + text;
    SafeOn(out, held, piece, mark, n);
    OccursShift(out, text, n, mark);
    SafeIs(all, mark, m);
  }

  /** The splitter: `fed` is all it was given, `sent` all it gave out. */
  class StreamSplitter<C> {
    const read: string -> Option<C>
    const space: char -> bool
    const tools: bool
    var held: string
    var marked: bool
    ghost var fed: string
    ghost var sent: string

    /** What is out and what is held depend on the text alone, never on the
        pieces it came in. */
    ghost predicate Valid()
      reads this
    {
      && sent == fed[..Safe(fed, CALL_OPEN)]
      && held == fed[Safe(fed, CALL_OPEN)..]
      && marked == Occurs(fed, Safe(fed, CALL_OPEN), CALL_OPEN)
    }

    constructor (read: string -> Option<C>, space: char -> bool, tools: bool)
      ensures Valid() && fed == "" && this.read == read && this.space == space && this.tools == tools
    {
      this.read, this.space, this.tools := read, space, tools;
      held, marked, fed, sent := "", false, "", "";
    }

    /** The text that may go out now that `piece` has come. */
    method Feed(piece: string) returns (out: string)
      requires Valid()
      modifies this
      ensures Valid() && fed == old(fed) + piece && sent == old(sent) + out
    {
      SafeIsSafe(fed, CALL_OPEN, 0);
      ghost var was := fed;
      fed := fed + piece;
      if marked {
        MarkedStays(was, piece, CALL_OPEN);
        held := held + piece;
        return "";
      }
      var text := held + piece;
      var n, found := Cut(text, CALL_OPEN);
      assert was == sent + held;
      SafeStep(sent, held, piece, CALL_OPEN, n, text, fed, |sent| + n);
      out, held, marked := text[..n], text[n..], found;
      sent := sent + out;
    }

    /** What was held, and the calls in it; with `readCalls` false, a reply
        its cap cut, the held text alone. */
    method Finish(readCalls: bool) returns (tail: string, calls: seq<C>)
      requires Valid()
      modifies this
      ensures calls == if readCalls then Parse(read, space, tools, fed).calls else []
      ensures |calls| == 0 ==> sent + tail == fed
      ensures tail == if readCalls then Parse(read, space, tools, fed[Safe(fed, CALL_OPEN)..]).content
                      else fed[Safe(fed, CALL_OPEN)..]
      ensures |calls| > 0 ==> sent == fed[..Find(fed, CALL_OPEN)]
      ensures |calls| > 0 ==> (sent + tail == Parse(read, space, tools, fed).content
                               <==> KeepsSpace(space, sent, OutsideAfter(fed)))
      ensures held == "" && unchanged(`fed, `sent, `marked)
    {
      var rest := held;
      held := "";
      SafeIsFirst(fed, CALL_OPEN);
      assert sent + rest == fed;
      if !marked || !readCalls {
        if !marked {
          Unmarked(read, space, tools, fed, rest);
        }
        return rest, [];
      }
      HeldCalls(read, space, tools, sent, rest);
      var content, got := ParseText(read, space, tools, rest);
      if |got| == 0 {
        return rest, [];
      }
      return content, got;
    }
  }

  lemma MarkedStays(text: string, more: string, mark: string)
    requires Occurs(text, Safe(text, mark), mark) && IsSafe(text, mark, Safe(text, mark))
    ensures Safe(text + more, mark) == Safe(text, mark) && Occurs(text + more, Safe(text, mark), mark)
  {
    var n := Safe(text, mark);
    assert (text + more)[n..n + |mark|] == text[n..n + |mark|];
    OccursBegins(text + more, n, mark);
    forall p: nat | p < n
      ensures !Begins(text + more, p, mark)
    {
      if Begins(text + more, p, mark) {
        BeginsMono(text, more, p, mark);
      }
    }
    SafeIs(text + more, mark, n);
  }

  lemma OccursShift(before: string, text: string, p: nat, mark: string)
    ensures Occurs(before + text, |before| + p, mark) <==> Occurs(text, p, mark)
  {
    if p + |mark| <= |text| {
      assert (before + text)[|before| + p..|before| + p + |mark|] == text[p..p + |mark|];
    }
  }

  // What streaming changes: the whole parse strips the text before the first
  // marker together with the text outside the blocks after it, the stream only
  // the latter.

  predicate AllSpace(space: char -> bool, s: string) {
    forall i :: 0 <= i < |s| ==> space(s[i])
  }

  /** Sending `b` as it is and then `o` stripped is the two stripped together. */
  predicate KeepsSpace(space: char -> bool, b: string, o: string) {
    b == "" || (!space(b[0]) && if AllSpace(space, o) then !space(b[|b| - 1]) else !space(o[0]))
  }

  /** The text outside the blocks from the first marker on. */
  function OutsideAfter(text: string): string {
    Outside(Scan(text[Safe(text, CALL_OPEN)..], CALL_OPEN, CALL_CLOSE))
  }

  lemma {:induction false} StripStartIs(space: char -> bool, s: string)
    ensures var r := StripStart(space, s);
      |r| <= |s| && r == s[|s| - |r|..] && (r != "" ==> !space(r[0])) && (r == "" <==> AllSpace(space, s))
    ensures |StripStart(space, s)| == |s| <==> s == "" || !space(s[0])
    decreases |s|
  {
    if s != "" && space(s[0]) {
      StripStartIs(space, s[1..]);
      assert forall i :: 0 < i < |s| ==> s[i] == s[1..][i - 1];
    }
  }

  lemma {:induction false} StripEndIs(space: char -> bool, s: string)
    ensures var r := StripEnd(space, s);
      |r| <= |s| && r == s[..|r|] && (r != "" ==> !space(r[|r| - 1])) && (r == "" <==> AllSpace(space, s))
    ensures |StripEnd(space, s)| == |s| <==> s == "" || !space(s[|s| - 1])
    decreases |s|
  {
    if s != "" && space(s[|s| - 1]) {
      StripEndIs(space, s[..|s| - 1]);
    }
  }

  lemma {:induction false} StripEndJoin(space: char -> bool, b: string, o: string)
    ensures StripEnd(space, b + o) == if AllSpace(space, o) then StripEnd(space, b) else b + StripEnd(space, o)
    decreases |o|
  {
    if o == "" {
      assert b + o == b;
    } else if space(o[|o| - 1]) {
      assert (b + o)[..|b + o| - 1] == b + o[..|o| - 1];
      StripEndJoin(space, b, o[..|o| - 1]);
    }
  }

  /** What is stripped at the start of a text is not stripped at its end too. */
  lemma StripLength(space: char -> bool, o: string)
    requires !AllSpace(space, o)
    ensures |Strip(space, o)| == |StripEnd(space, o)| <==> !space(o[0])
    ensures Strip(space, o) == StripEnd(space, o) <==> !space(o[0])
  {
    var r := StripStart(space, o);
    StripStartIs(space, o);
    var lead := o[..|o| - |r|];
    assert o == lead + r;
    assert !AllSpace(space, r);
    StripEndJoin(space, lead, r);
  }

  /** Exactly when a streamed answer's content is the whole parse's. */
  lemma StripJoin(space: char -> bool, b: string, o: string)
    ensures b + Strip(space, o) == Strip(space, b + o) <==> KeepsSpace(space, b, o)
  {
    var s := b + o;
    StripStartIs(space, s);
    StripEndIs(space, StripStart(space, s));
    if b == "" {
      assert b + o == o;
    } else if space(b[0]) {
      assert (b + Strip(space, o))[0] == b[0];
    } else {
      assert StripStart(space, s) == s;
      StripEndJoin(space, b, o);
      if AllSpace(space, o) {
        StripStartIs(space, o);
        StripEndIs(space, b);
      } else {
        StripLength(space, o);
        SameAfter(b, Strip(space, o), StripEnd(space, o));
      }
    }
  }

  lemma SameAfter(b: string, p: string, q: string)
    ensures b + p == b + q <==> p == q
  {
    assert (b + p)[|b|..] == p && (b + q)[|b|..] == q;
  }

  /** A text of one block, and the part held from its first marker on. */
  lemma OneBlock(before: string, inner: string, text: string, held: string)
    requires Absent(before, CALL_OPEN) && Absent(inner, CALL_CLOSE)
    requires held == CALL_OPEN + inner + CALL_CLOSE && text == before + held
    ensures Scan(text, CALL_OPEN, CALL_CLOSE) == Block(before, inner, Plain(""))
    ensures Scan(held, CALL_OPEN, CALL_CLOSE) == Block("", inner, Plain(""))
    ensures Safe(text, CALL_OPEN) == |before| && text[..|before|] == before && text[|before|..] == held
  {
    MarkersAreSharp();
    OneBlockOf(before, inner, text, held, CALL_OPEN, CALL_CLOSE);
  }

  lemma RenderOne(before: string, inner: string, text: string, held: string, after: string, open: string, close: string)
    requires held == open + inner + close && text == before + held && after == inner + close
    ensures text == Render(Block(before, inner, Plain("")), open, close) && text == before + open + after
    ensures text[..|before|] == before && text[|before|..] == held
  {
    assert held == open + after;
    assert before + open + after == before + held;
    assert before + open + inner + close + "" == before + open + after;
  }

  lemma SafeAt(before: string, after: string, text: string, open: string)
    requires Sharp(open) && Absent(before, open) && text == before + open + after
    ensures Find(text, open) == |before| == Safe(text, open)
  {
    FirstAfter(before, open, after);
    SafeIsFirst(text, open);
  }

  lemma OneBlockOf(before: string, inner: string, text: string, held: string, open: string, close: string)
    requires Sharp(open) && Sharp(close) && Absent(before, open) && Absent(inner, close)
    requires held == open + inner + close && text == before + held
    ensures Scan(text, open, close) == Block(before, inner, Plain("")) && Scan(held, open, close) == Block("", inner, Plain(""))
    ensures Safe(text, open) == |before| && text[..|before|] == before && text[|before|..] == held
  {
    var d := Block(before, inner, Plain(""));
    RenderOne(before, inner, text, held, inner + close, open, close);
    SafeAt(before, inner + close, text, open);
    RenderScans(d, open, close);
    HeldFound(before, held, open);
    ScanAfter(before, held, open, close);
  }

  lemma OneCall<C>(read: string -> Option<C>, before: string, inner: string)
    requires read(inner).Some?
    ensures var d := Block(before, inner, Plain("")); Outside(d) == before && CallsOf(read, true, d) == [read(inner).value]
  {
    assert before + "" == before;
    assert CallsOf(read, true, Plain("")) == [];
  }

  /** A text with one call streams what stands before it as it is, and the
      whole parse strips it. */
  lemma StreamKeepsSpace<C>(read: string -> Option<C>, space: char -> bool, before: string, inner: string)
    requires Absent(before, CALL_OPEN) && Absent(inner, CALL_CLOSE) && read(inner).Some?
    ensures var text := before + (CALL_OPEN + inner + CALL_CLOSE);
      var n := Safe(text, CALL_OPEN);
      Parse(read, space, true, text) == Parsed(Strip(space, before), [read(inner).value])
      && text[..n] + Parse(read, space, true, text[n..]).content == before
  {
    var held := CALL_OPEN + inner + CALL_CLOSE;
    OneBlock(before, inner, before + held, held);
    OneCall(read, before, inner);
    OneCall(read, "", inner);
    assert Strip(space, "") == "" && before + "" == before;
  }

  /** So the two need not agree: a space before a call is streamed, and the
      whole parse strips it. */
  lemma StreamKeepsTrailingSpace<C>(read: string -> Option<C>, space: char -> bool, inner: string)
    requires space(' ') && !space('H') && !space('i') && Absent(inner, CALL_CLOSE) && read(inner).Some?
    ensures var text := "Hi " + (CALL_OPEN + inner + CALL_CLOSE);
      var n := Safe(text, CALL_OPEN);
      Parse(read, space, true, text) == Parsed("Hi", [read(inner).value])
      && text[..n] + Parse(read, space, true, text[n..]).content == "Hi "
  {
    assert Absent("Hi ", CALL_OPEN);
    StreamKeepsSpace(read, space, "Hi ", inner);
    assert "Hi "[..2] == "Hi";
    assert StripStart(space, "Hi ") == "Hi ";
  }

  lemma Unmarked<C>(read: string -> Option<C>, space: char -> bool, tools: bool, text: string, held: string)
    requires held == text[Safe(text, CALL_OPEN)..] && !Occurs(text, Safe(text, CALL_OPEN), CALL_OPEN)
    ensures Parse(read, space, tools, text).calls == [] && Parse(read, space, tools, held) == Parsed(held, [])
  {
    SafeIsFirst(text, CALL_OPEN);
    FindIsFirst(held, CALL_OPEN);
  }

  /** The held text reads as the whole text does. */
  lemma HeldCalls<C>(read: string -> Option<C>, space: char -> bool, tools: bool, before: string, held: string)
    requires Find(before + held, CALL_OPEN) == |before|
    ensures Parse(read, space, tools, held).calls == Parse(read, space, tools, before + held).calls
    ensures |Parse(read, space, tools, held).calls| > 0 ==>
      (before + Parse(read, space, tools, held).content == Parse(read, space, tools, before + held).content
       <==> KeepsSpace(space, before, Outside(Scan(held, CALL_OPEN, CALL_CLOSE))))
  {
    var d := Scan(held, CALL_OPEN, CALL_CLOSE);
    HeldFound(before, held, CALL_OPEN);
    assert !d.Plain? && d.before == "" && Scan(before + held, CALL_OPEN, CALL_CLOSE) == Before(before, d) by {
      ScanAfter(before, held, CALL_OPEN, CALL_CLOSE);
    }
    HeldDoc(read, space, tools, before, held, d);
  }

  lemma HeldFound(before: string, held: string, mark: string)
    requires Find(before + held, mark) == |before|
    ensures Find(held, mark) == 0
  {
    FindIsFirst(before + held, mark);
    OccursShift(before, held, 0, mark);
  }

  lemma HeldDoc<C>(read: string -> Option<C>, space: char -> bool, tools: bool, before: string, held: string, d: Doc)
    requires !d.Plain? && d.before == ""
    ensures var part, whole := ParseDoc(read, space, tools, held, d),
      ParseDoc(read, space, tools, before + held, Before(before, d));
      part.calls == whole.calls
      && (|part.calls| > 0 ==> (before + part.content == whole.content <==> KeepsSpace(space, before, Outside(d))))
  {
    BeforeReads(read, before, d);
    StripJoin(space, before, Outside(d));
  }

  lemma BeforeReads<C>(read: string -> Option<C>, before: string, d: Doc)
    requires !d.Plain? && d.before == ""
    ensures ReadAll(read, Before(before, d)) == ReadAll(read, d)
    ensures Outside(Before(before, d)) == before + Outside(d)
  {
    if d.Block? {
      assert "" + Outside(d.rest) == Outside(d.rest);
    }
  }

  function Joined(pieces: seq<string>): string {
    if pieces == [] then "" else Joined(pieces[..|pieces| - 1]) + pieces[|pieces| - 1]
  }

  /** A whole answer streamed, in any pieces. */
  method Stream<C>(read: string -> Option<C>, space: char -> bool, tools: bool, pieces: seq<string>, readCalls: bool)
    returns (outs: seq<string>, tail: string, calls: seq<C>)
    ensures Joined(outs) == Joined(pieces)[..Safe(Joined(pieces), CALL_OPEN)]
    ensures calls == if readCalls then Parse(read, space, tools, Joined(pieces)).calls else []
    ensures |calls| == 0 ==> Joined(outs) + tail == Joined(pieces)
    ensures var text := Joined(pieces);
      tail == if readCalls then Parse(read, space, tools, text[Safe(text, CALL_OPEN)..]).content
              else text[Safe(text, CALL_OPEN)..]
    ensures |calls| > 0 ==> (Joined(outs) + tail == Parse(read, space, tools, Joined(pieces)).content
                             <==> KeepsSpace(space, Joined(outs), OutsideAfter(Joined(pieces))))
  {
    var splitter := new StreamSplitter(read, space, tools);
    outs := [];
    for i := 0 to |pieces|
      invariant fresh(splitter) && splitter.Valid()
      invariant splitter.fed == Joined(pieces[..i]) && splitter.sent == Joined(outs)
    {
      var out := splitter.Feed(pieces[i]);
      assert pieces[..i + 1][..i] == pieces[..i];
      outs := outs + [out];
      assert outs[..|outs| - 1] + [out] == outs;
    }
    assert pieces[..|pieces|] == pieces;
    tail, calls := splitter.Finish(readCalls);
  }
}
