/// Text as lines that keep their newlines (components/code-run-quickjs/diff.js).

module Lines {

  /** A line: not empty, a newline nowhere but at its end. */
  predicate LineLike(l: string) {
    l != "" && forall k :: 0 <= k < |l| - 1 ==> l[k] != '\n'
  }

  predicate Ended(l: string) {
    l != "" && l[|l| - 1] == '\n'
  }

  function Concat(ls: seq<string>): string
  {
    if ls == [] then "" else ls[0] + Concat(ls[1..])
  }

  /** The lines of some text: only the last may lack its newline. */
  ghost predicate LineSeq(ls: seq<string>)
  {
    (forall k :: 0 <= k < |ls| ==> LineLike(ls[k])) && (forall k :: 0 <= k < |ls| - 1 ==> Ended(ls[k]))
  }

  lemma {:induction false} ConcatAppend(a: seq<string>, b: seq<string>)
    ensures Concat(a + b) == Concat(a) + Concat(b)
  {
    if a == [] {
      assert a + b == b;
    } else {
      assert (a + b)[1..] == a[1..] + b;
      ConcatAppend(a[1..], b);
    }
  }

  lemma ConcatPush(a: seq<string>, l: string)
    ensures Concat(a + [l]) == Concat(a) + l
  {
    ConcatAppend(a, [l]);
    assert Concat([l]) == l + Concat([]);
  }

  lemma LinePush(a: seq<string>, l: string)
    requires LineSeq(a) && LineLike(l) && (a != [] ==> Ended(a[|a| - 1]))
    ensures LineSeq(a + [l])
  {
    var b := a + [l];
    forall k | 0 <= k < |b| - 1
      ensures Ended(b[k])
    {
      assert b[k] == a[k];
    }
  }

  /** The place of the first newline at or after `from`, or -1. */
  method IndexOfNewline(text: string, from: nat) returns (at: int)
    requires from <= |text|
    ensures at == -1 || from <= at < |text|
    ensures forall k :: from <= k < (if at < 0 then |text| else at) ==> text[k] != '\n'
    ensures at >= 0 ==> text[at] == '\n'
  {
    at := from;
    while at < |text|
      invariant from <= at <= |text|
      invariant forall k :: from <= k < at ==> text[k] != '\n'
    {
      if text[at] == '\n' {
        return;
      }
      at := at + 1;
    }
    at := -1;
  }

  /** The lines of the text up to `at`, where a line starts. */
  ghost predicate SplitTo(text: string, out: seq<string>, at: int) {
    && 0 <= at <= |text| && LineSeq(out) && Concat(out) == text[..at]
    && (out != [] ==> at > 0 && (Ended(out[|out| - 1]) <==> text[at - 1] == '\n'))
    && (0 < at < |text| ==> text[at - 1] == '\n')
  }

  lemma SplitNext(text: string, out: seq<string>, at: int, end: int, line: string)
    requires SplitTo(text, out, at) && at < end <= |text| && line == text[at..end]
    requires forall k :: at <= k < end - 1 ==> text[k] != '\n'
    requires end < |text| ==> text[end - 1] == '\n'
    ensures SplitTo(text, out + [line], end)
  {
    assert line[|line| - 1] == text[end - 1];
    assert forall k :: 0 <= k < |line| - 1 ==> line[k] == text[at + k];
    ConcatPush(out, line);
    LinePush(out, line);
    assert text[..at] + line == text[..end];
  }

  /** The text cut after each newline: nothing is lost, and each piece is a
      line. */
  method Split(text: string) returns (out: seq<string>)
    ensures LineSeq(out) && Concat(out) == text
    ensures out != [] ==> (Ended(out[|out| - 1]) <==> Ended(text))
  {
    out := [];
    var at := 0;
    while at < |text|
      invariant SplitTo(text, out, at)
    {
      var nl := IndexOfNewline(text, at);
      var end := if nl < 0 then |text| else nl + 1;
      SplitNext(text, out, at, end, text[at..end]);
      out := out + [text[at..end]];
      at := end;
    }
    assert text[..at] == text;
  }

  /** The first line of some text, when it is ended, runs through the text's
      first newline; when it is not, it is the whole text. */
  lemma FirstLine(ls: seq<string>)
    requires LineSeq(ls) && ls != []
    ensures var t, a := Concat(ls), ls[0];
            0 < |a| <= |t| && t[..|a|] == a && t[|a|..] == Concat(ls[1..])
            && (forall k :: 0 <= k < |a| - 1 ==> t[k] != '\n')
            && (if Ended(a) then t[|a| - 1] == '\n' else ls == [a] && t == a && '\n' !in t)
  {
    var t, a := Concat(ls), ls[0];
    assert forall k :: 0 <= k < |a| ==> t[k] == a[k];
    if !Ended(a) {
      assert ls == [a] && ls[1..] == [];
    }
  }

  /** Text has one reading as lines: of two, where one's text is a prefix of
      the other's, all but the shorter's last line stand at the head of the
      longer, and the last too when it is ended or the texts are equal. */
  lemma {:induction false} SplitPrefix(ls: seq<string>, r: seq<string>, rest: string)
    requires LineSeq(ls) && LineSeq(r) && Concat(ls) == Concat(r) + rest
    ensures |r| <= |ls| && forall k :: 0 <= k < |r| - 1 ==> r[k] == ls[k]
    ensures r != [] && (Ended(r[|r| - 1]) || rest == "") ==> r[|r| - 1] == ls[|r| - 1]
    ensures rest == "" ==> r == ls
  {
    var t := Concat(ls);
    if ls != [] {
      FirstLine(ls);
    }
    if r != [] {
      FirstLine(r);
      var b := r[0];
      assert Concat(r) == t[..|Concat(r)|];
      assert forall k :: 0 <= k < |Concat(r)| ==> Concat(r)[k] == t[k];
      if Ended(b) {
        assert |ls[0]| == |b|;
        assert ls[0] == b;
        assert Concat(ls[1..]) == t[|b|..] == Concat(r[1..]) + rest;
        SplitPrefix(ls[1..], r[1..], rest);
        assert forall k :: 0 < k < |r| - 1 ==> r[k] == r[1..][k - 1] && ls[k] == ls[1..][k - 1];
      } else if rest == "" {
        assert t == b;
      }
    }
  }
}
