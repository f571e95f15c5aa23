/// Text read for tool-call blocks, whole (deploy/house-model/exl3_tools.py).

module ToolText {
  import opened Wrappers

  const CALL_OPEN: string := "<tool_call>"
  const CALL_CLOSE: string := "</tool_call>"

  /** A marker whose first character is nowhere else in it: two of them never
      overlap. */
  predicate Sharp(mark: string) {
    mark != "" && forall i :: 0 < i < |mark| ==> mark[i] != mark[0]
  }

  lemma MarkersAreSharp()
    ensures Sharp(CALL_OPEN) && Sharp(CALL_CLOSE)
  {
  }

  /** `mark` stands in `text` at `p`. */
  predicate Occurs(text: string, p: int, mark: string) {
    0 <= p && p + |mark| <= |text| && text[p..p + |mark|] == mark
  }

  predicate Absent(text: string, mark: string) {
    forall p :: 0 <= p <= |text| ==> !Occurs(text, p, mark)
  }

  /** Where `mark` first stands in `text`, or -1. */
  function Find(text: string, mark: string): (at: int)
    ensures -1 <= at && (at >= 0 ==> at + |mark| <= |text|)
  {
    FindFrom(text, mark, 0)
  }

  function FindFrom(text: string, mark: string, from: nat): (at: int)
    requires from <= |text|
    ensures -1 <= at && (at >= 0 ==> at + |mark| <= |text|)
    decreases |text| - from
  {
    if Occurs(text, from, mark) then from
    else if from == |text| then -1
    else FindFrom(text, mark, from + 1)
  }

  lemma {:induction false} FindFromIsFirst(text: string, mark: string, from: nat)
    requires from <= |text|
    requires forall p :: 0 <= p < from ==> !Occurs(text, p, mark)
    ensures var at := FindFrom(text, mark, from);
      if at < 0 then Absent(text, mark)
      else Occurs(text, at, mark) && forall p :: 0 <= p < at ==> !Occurs(text, p, mark)
    decreases |text| - from
  {
    if !Occurs(text, from, mark) && from < |text| {
      FindFromIsFirst(text, mark, from + 1);
    }
  }

  lemma FindIsFirst(text: string, mark: string)
    ensures var at := Find(text, mark);
      if at < 0 then Absent(text, mark)
      else Occurs(text, at, mark) && forall p :: 0 <= p < at ==> !Occurs(text, p, mark)
  {
    FindFromIsFirst(text, mark, 0);
  }

  /** A text as its blocks: what stands before each, and what is inside. A
      last block may be left open. */
  datatype Doc =
    | Plain(text: string)
    | Block(before: string, inner: string, rest: Doc)
    | Unclosed(before: string, inner: string)

  function Render(d: Doc, open: string, close: string): string {
    match d
    case Plain(text) => text
    case Block(before, inner, rest) => before + open + (inner + close + Render(rest, open, close))
    case Unclosed(before, inner) => before + open + inner
  }

  /** No marker stands where the blocks do not say so. */
  predicate Proper(d: Doc, open: string, close: string) {
    match d
    case Plain(text) => Absent(text, open)
    case Block(before, inner, rest) => Absent(before, open) && Absent(inner, close) && Proper(rest, open, close)
    case Unclosed(before, inner) => Absent(before, open) && Absent(inner, close)
  }

  /** The blocks of a text, as the reader finds them. */
  function Scan(text: string, open: string, close: string): Doc
    requires open != "" && close != ""
    decreases |text|
  {
    var start := Find(text, open);
    if start < 0 then Plain(text) else
    var before, after := text[..start], text[start + |open|..];
    var end := Find(after, close);
    if end < 0 then Unclosed(before, after)
    else Block(before, after[..end], Scan(after[end + |close|..], open, close))
  }

  lemma PrefixSlice(text: string, hi: nat, lo: nat, end: nat)
    requires lo <= end <= hi <= |text|
    ensures text[..hi][lo..end] == text[lo..end]
  {
  }

  lemma AbsentBefore(text: string, mark: string, hi: nat)
    requires hi <= |text|
    requires forall p :: 0 <= p < hi ==> !Occurs(text, p, mark)
    requires mark != ""
    ensures Absent(text[..hi], mark)
  {
    forall p | 0 <= p <= hi
      ensures !Occurs(text[..hi], p, mark)
    {
      if p + |mark| <= hi {
        assert !Occurs(text, p, mark);
        PrefixSlice(text, hi, p, p + |mark|);
      }
    }
  }

  /** A text is what stands before its first marker, the marker, and the rest. */
  lemma FoundParts(text: string, mark: string)
    requires Find(text, mark) >= 0 && mark != ""
    ensures var at := Find(text, mark);
      text == text[..at] + mark + text[at + |mark|..] && Absent(text[..at], mark)
  {
    FindIsFirst(text, mark);
    AbsentBefore(text, mark, Find(text, mark));
  }

  /** The blocks found are the text's: nothing is lost, nothing made up. */
  lemma {:induction false} ScanRenders(text: string, open: string, close: string)
    requires open != "" && close != ""
    ensures Render(Scan(text, open, close), open, close) == text
    ensures Proper(Scan(text, open, close), open, close)
    decreases |text|
  {
    var start := Find(text, open);
    if start < 0 {
      FindIsFirst(text, open);
    } else {
      FoundParts(text, open);
      var after := text[start + |open|..];
      var end := Find(after, close);
      if end < 0 {
        FindIsFirst(after, close);
      } else {
        FoundParts(after, close);
        ScanRenders(after[end + |close|..], open, close);
        assert after == after[..end] + close + after[end + |close|..];
      }
    }
  }

  /** A sharp marker put after a text without it first stands there. */
  lemma FirstAfter(before: string, mark: string, after: string)
    requires Sharp(mark) && Absent(before, mark)
    ensures Find(before + mark + after, mark) == |before|
  {
    var text := before + mark + after;
    FindIsFirst(text, mark);
    assert text[|before|..|before| + |mark|] == mark;
    assert Occurs(text, |before|, mark);
    forall p | 0 <= p < |before|
      ensures !Occurs(text, p, mark)
    {
      if p + |mark| <= |before| {
        assert text[p..p + |mark|] == before[p..p + |mark|];
        assert !Occurs(before, p, mark);
      } else {
        assert text[p..p + |mark|][|before| - p] == text[|before|] == mark[0];
      }
    }
  }

  /** And the text of any proper blocks reads back as those blocks. */
  lemma {:induction false} RenderScans(d: Doc, open: string, close: string)
    requires Sharp(open) && Sharp(close) && Proper(d, open, close)
    ensures Scan(Render(d, open, close), open, close) == d
  {
    var text := Render(d, open, close);
    match d
    case Plain(_) =>
      FindIsFirst(text, open);
    case Unclosed(before, inner) =>
      FindIsFirst(inner, close);
      FirstAfter(before, open, inner);
      assert text[..|before|] == before && text[|before| + |open|..] == inner;
    case Block(before, inner, rest) =>
      var tail := Render(rest, open, close);
      var after := inner + close + tail;
      FirstAfter(before, open, after);
      assert text[..|before|] == before && text[|before| + |open|..] == after;
      FirstAfter(inner, close, tail);
      assert after[..|inner|] == inner && after[|inner| + |close|..] == tail;
      RenderScans(rest, open, close);
  }

  // What the blocks say.

  function Outside(d: Doc): string {
    match d
    case Plain(text) => text
    case Block(before, _, rest) => before + Outside(rest)
    case Unclosed(before, _) => before
  }

  /** Every block's call, or none when one does not read as a call. */
  function ReadAll<C>(read: string -> Option<C>, d: Doc): Option<seq<C>> {
    match d
    case Plain(_) => Some([])
    case Unclosed(_, inner) => Put([], read(inner), Some([]))
    case Block(_, inner, rest) => Put([], read(inner), ReadAll(read, rest))
  }

  /** A call, and those after it, put on the end of some. */
  function Put<C>(got: seq<C>, call: Option<C>, more: Option<seq<C>>): Option<seq<C>> {
    if call.Some? && more.Some? then Some(got + [call.value] + more.value) else None
  }

  /** A text's content with its calls. */
  datatype Parsed<C> = Parsed(content: string, calls: seq<C>)

  function CallsOf<C>(read: string -> Option<C>, tools: bool, d: Doc): seq<C> {
    if tools && ReadAll(read, d).Some? then ReadAll(read, d).value else []
  }

  /** A document's content with its calls. `text` is what it renders. */
  function ParseDoc<C>(read: string -> Option<C>, space: char -> bool, tools: bool, text: string, d: Doc): Parsed<C> {
    var calls := CallsOf(read, tools, d);
    if |calls| == 0 then Parsed(text, []) else Parsed(Strip(space, Outside(d)), calls)
  }

  /** What a text parses to: its calls with the text outside the blocks,
      stripped; with no calls the text exactly. */
  function Parse<C>(read: string -> Option<C>, space: char -> bool, tools: bool, text: string): Parsed<C> {
    ParseDoc(read, space, tools, text, Scan(text, CALL_OPEN, CALL_CLOSE))
  }

  function Strip(space: char -> bool, s: string): string {
    StripEnd(space, StripStart(space, s))
  }

  function StripStart(space: char -> bool, s: string): string {
    if s != "" && space(s[0]) then StripStart(space, s[1..]) else s
  }

  function StripEnd(space: char -> bool, s: string): string {
    if s != "" && space(s[|s| - 1]) then StripEnd(space, s[..|s| - 1]) else s
  }

  /** What is left of a document once its first blocks are read. */
  ghost predicate Left<C>(read: string -> Option<C>, doc: Doc, d: Doc, outside: string, got: seq<C>) {
    Outside(doc) == outside + Outside(d) &&
    match ReadAll(read, d)
    case None => ReadAll(read, doc).None?
    case Some(more) => ReadAll(read, doc) == Some(got + more)
  }

  lemma LeftStart<C>(read: string -> Option<C>, doc: Doc)
    ensures Left(read, doc, doc, "", [])
  {
    if ReadAll(read, doc).Some? {
      assert [] + ReadAll(read, doc).value == ReadAll(read, doc).value;
    }
  }

  lemma LeftEnds<C>(read: string -> Option<C>, doc: Doc, d: Doc, outside: string, got: seq<C>)
    requires Left(read, doc, d, outside, got)
    ensures d.Plain? ==> ReadAll(read, doc) == Some(got) && Outside(doc) == outside + d.text
    ensures !d.Plain? && read(d.inner).None? ==> ReadAll(read, doc).None?
    ensures d.Unclosed? && read(d.inner).Some? ==>
      ReadAll(read, doc) == Some(got + [read(d.inner).value]) && Outside(doc) == outside + d.before
  {
    assert got + [] == got;
    if d.Unclosed? && read(d.inner).Some? {
      assert got + ([] + [read(d.inner).value] + []) == got + [read(d.inner).value];
    }
  }

  lemma LeftStep<C>(read: string -> Option<C>, doc: Doc, d: Doc, outside: string, got: seq<C>)
    requires Left(read, doc, d, outside, got) && d.Block? && read(d.inner).Some?
    ensures Left(read, doc, d.rest, outside + d.before, got + [read(d.inner).value])
  {
    assert outside + (d.before + Outside(d.rest)) == (outside + d.before) + Outside(d.rest);
    if ReadAll(read, d.rest).Some? {
      var more, call := ReadAll(read, d.rest).value, read(d.inner).value;
      assert got + ([] + [call] + more) == (got + [call]) + more;
    }
  }

  /** A text up to its first block's end, with the text after it if the
      block is closed. */
  datatype Head = NoBlock | Head(before: string, inner: string, after: Option<string>)

  predicate Heads(head: Head, text: string, d: Doc, rest: Doc) {
    match head
    case NoBlock => d == Plain(text)
    case Head(before, inner, None) => d == Unclosed(before, inner)
    case Head(before, inner, Some(after)) => d == Block(before, inner, rest) && |after| < |text|
  }

  method NextBlock(text: string, open: string, close: string) returns (head: Head)
    requires open != "" && close != ""
    ensures Heads(head, text, Scan(text, open, close),
                  Scan(if head.Head? && head.after.Some? then head.after.value else "", open, close))
  {
    var start := Find(text, open);
    if start < 0 {
      return NoBlock;
    }
    var before, after := text[..start], text[start + |open|..];
    var end := Find(after, close);
    head := if end < 0 then Head(before, after, None) else Head(before, after[..end], Some(after[end + |close|..]));
  }

  /** One pass over a text's blocks: the text outside them, and their calls
      when every one reads as a call. */
  method ReadDoc<C>(read: string -> Option<C>, text: string, open: string, close: string, ghost doc: Doc)
    returns (outside: string, calls: Option<seq<C>>)
    requires open != "" && close != "" && doc == Scan(text, open, close)
    ensures calls == ReadAll(read, doc)
    ensures calls.Some? ==> outside == Outside(doc)
  {
    outside := "";
    var rest, got: seq<C> := text, [];
    ghost var d := doc;
    LeftStart(read, doc);
    while true
      invariant d == Scan(rest, open, close) && Left(read, doc, d, outside, got)
      decreases |rest|
    {
      LeftEnds(read, doc, d, outside, got);
      var head := NextBlock(rest, open, close);
      if head.NoBlock? {
        return outside + rest, Some(got);
      }
      var parsed := read(head.inner);
      if parsed.None? {
        return outside, None;
      }
      if head.after.None? {
        return outside + head.before, Some(got + [parsed.value]);
      }
      LeftStep(read, doc, d, outside, got);
      outside, got, rest := outside + head.before, got + [parsed.value], head.after.value;
      d := d.rest;
    }
  }

  /** A text parsed: with no tools, no marker or a block that does not read,
      the text exactly. */
  method ParseText<C>(read: string -> Option<C>, space: char -> bool, tools: bool, text: string)
    returns (content: string, calls: seq<C>)
    ensures Parsed(content, calls) == Parse(read, space, tools, text)
  {
    if !tools || Find(text, CALL_OPEN) < 0 {
      return text, [];
    }
    ghost var doc := Scan(text, CALL_OPEN, CALL_CLOSE);
    var outside, got := ReadDoc(read, text, CALL_OPEN, CALL_CLOSE, doc);
    if got.None? {
      return text, [];
    }
    content, calls := Strip(space, outside), got.value;
  }

  /** The text of any well-formed blocks parses as those blocks. */
  lemma RenderParses<C>(read: string -> Option<C>, space: char -> bool, tools: bool, d: Doc)
    requires Proper(d, CALL_OPEN, CALL_CLOSE)
    ensures var text := Render(d, CALL_OPEN, CALL_CLOSE);
      Parse(read, space, tools, text) == ParseDoc(read, space, tools, text, d)
  {
    MarkersAreSharp();
    RenderScans(d, CALL_OPEN, CALL_CLOSE);
  }
}
