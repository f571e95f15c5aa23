/// Frame labellings under the CTC collapse, and the blank/token states an
/// alignment walks through (scripts/meeting_audio_ctc.py).

module CtcLabels {

  /** Each run of one label as a single label. */
  function DropRepeats(l: seq<int>): seq<int> {
    if |l| <= 1 then l else
    var init := l[..|l| - 1];
    if l[|l| - 1] == l[|l| - 2] then DropRepeats(init) else DropRepeats(init) + [l[|l| - 1]]
  }

  function DropBlanks(l: seq<int>, blank: int): seq<int> {
    if l == [] then [] else
    var init := l[..|l| - 1];
    if l[|l| - 1] == blank then DropBlanks(init, blank) else DropBlanks(init, blank) + [l[|l| - 1]]
  }

  /** What a frame labelling spells: repeats dropped, then blanks. */
  function Collapse(l: seq<int>, blank: int): seq<int> {
    DropBlanks(DropRepeats(l), blank)
  }

  lemma BlanksPush(l: seq<int>, x: int, blank: int)
    ensures DropBlanks(l + [x], blank) == (if x == blank then DropBlanks(l, blank) else DropBlanks(l, blank) + [x])
  {
    assert (l + [x])[..|l|] == l;
  }

  /** One more frame adds its label unless it is blank or goes on the last. */
  lemma CollapsePush(l: seq<int>, x: int, blank: int)
    ensures Collapse(l + [x], blank)
            == (if x == blank || (l != [] && l[|l| - 1] == x) then Collapse(l, blank) else Collapse(l, blank) + [x])
  {
    var m := l + [x];
    assert m[..|l|] == l;
    if l == [] {
      assert m == [x] && [x][..0] == [];
    } else if l[|l| - 1] != x {
      BlanksPush(DropRepeats(l), x, blank);
    }
  }

  lemma {:induction false} LastLabel(l: seq<int>, blank: int)
    requires l != [] && l[|l| - 1] != blank
    ensures Collapse(l, blank) != [] && Collapse(l, blank)[|Collapse(l, blank)| - 1] == l[|l| - 1]
    decreases |l|
  {
    var init, x := l[..|l| - 1], l[|l| - 1];
    assert l == init + [x];
    CollapsePush(init, x, blank);
    if init != [] && init[|init| - 1] == x {
      LastLabel(init, blank);
    }
  }

  // States: blank before, between and after the tokens.

  /** State `2 * t + 1` is on token `t`, every other on a blank. */
  function Label(tokens: seq<int>, blank: int, s: int): int {
    if s % 2 == 1 && 0 <= s < 2 * |tokens| then tokens[s / 2] else blank
  }

  /** A frame may stay in its state, go on to the next, or skip a blank between
      different tokens. */
  predicate CanStep(tokens: seq<int>, blank: int, from: int, s: int) {
    from == s || (s > 0 && from == s - 1) ||
    (s > 1 && from == s - 2 && Label(tokens, blank, s) != blank && Label(tokens, blank, s) != Label(tokens, blank, s - 2))
  }

  /** The state a labelling so far stands in: past its last token's blank, or
      on its last token. */
  function StateOf(l: seq<int>, blank: int): int {
    2 * |Collapse(l, blank)| - (if l != [] && l[|l| - 1] != blank then 1 else 0)
  }

  ghost predicate Spells(l: seq<int>, tokens: seq<int>, blank: int) {
    Collapse(l, blank) <= tokens
  }

  /** A labelling that ends on a token ends on the last token it spells. */
  lemma LastToken(l: seq<int>, tokens: seq<int>, blank: int)
    requires Spells(l, tokens, blank) && l != [] && l[|l| - 1] != blank
    ensures var n := |Collapse(l, blank)|; 0 < n <= |tokens| && tokens[n - 1] == l[|l| - 1]
  {
    var c := Collapse(l, blank);
    LastLabel(l, blank);
    assert c[|c| - 1] == tokens[|c| - 1];
  }

  lemma BlankStep(l: seq<int>, tokens: seq<int>, blank: int, n: nat)
    requires Spells(l, tokens, blank) && n == |Collapse(l, blank)|
    ensures n <= |tokens| && Label(tokens, blank, 2 * n) == blank && CanStep(tokens, blank, StateOf(l, blank), 2 * n)
  {
    if l != [] && l[|l| - 1] != blank {
      LastToken(l, tokens, blank);
    }
  }

  lemma TokenStep(l: seq<int>, x: int, tokens: seq<int>, blank: int, n: nat)
    requires blank !in tokens && x != blank && Spells(l, tokens, blank) && 0 < n <= |tokens| && tokens[n - 1] == x
    requires |Collapse(l, blank)| == if l != [] && l[|l| - 1] == x then n else n - 1
    ensures Label(tokens, blank, 2 * n - 1) == x && CanStep(tokens, blank, StateOf(l, blank), 2 * n - 1)
  {
    assert (2 * n - 1) / 2 == n - 1 && (2 * n - 1) % 2 == 1;
    if l != [] && l[|l| - 1] != blank && l[|l| - 1] != x {
      LastToken(l, tokens, blank);
      assert Label(tokens, blank, 2 * n - 3) == tokens[n - 2];
    }
  }

  /** Every frame of a labelling that spells a prefix of the tokens is a step
      of the states, on its state's label. */
  lemma FrameSteps(l: seq<int>, x: int, tokens: seq<int>, blank: int)
    requires blank !in tokens && Spells(l + [x], tokens, blank)
    ensures Spells(l, tokens, blank)
    ensures var s := StateOf(l + [x], blank);
            0 <= s <= 2 * |tokens| && CanStep(tokens, blank, StateOf(l, blank), s) && Label(tokens, blank, s) == x
  {
    var m := l + [x];
    var n := |Collapse(m, blank)|;
    CollapsePush(l, x, blank);
    assert m[|l|] == x;
    if x == blank {
      BlankStep(l, tokens, blank, n);
    } else {
      LastToken(m, tokens, blank);
      TokenStep(l, x, tokens, blank, n);
    }
  }

  /** And every step of the states goes on a labelling that spells a prefix. */
  lemma StepFrames(l: seq<int>, s: int, tokens: seq<int>, blank: int)
    requires blank !in tokens && Spells(l, tokens, blank) && 0 <= s <= 2 * |tokens|
    requires CanStep(tokens, blank, StateOf(l, blank), s)
    ensures var m := l + [Label(tokens, blank, s)]; Spells(m, tokens, blank) && StateOf(m, blank) == s
  {
    var x := Label(tokens, blank, s);
    CollapsePush(l, x, blank);
    assert (l + [x])[|l|] == x;
    if s % 2 == 1 {
      OntoToken(l, s, tokens, blank);
    } else {
      OntoBlank(l, s, tokens, blank);
    }
  }

  lemma OntoBlank(l: seq<int>, s: int, tokens: seq<int>, blank: int)
    requires blank !in tokens && Spells(l, tokens, blank) && 0 <= s <= 2 * |tokens| && s % 2 == 0
    requires CanStep(tokens, blank, StateOf(l, blank), s)
    ensures Label(tokens, blank, s) == blank && 2 * |Collapse(l, blank)| == s
  {
  }

  lemma OntoToken(l: seq<int>, s: int, tokens: seq<int>, blank: int)
    requires blank !in tokens && Spells(l, tokens, blank) && 0 <= s <= 2 * |tokens| && s % 2 == 1
    requires CanStep(tokens, blank, StateOf(l, blank), s)
    ensures var x, c := tokens[s / 2], Collapse(l, blank);
            Label(tokens, blank, s) == x && x != blank &&
            if l != [] && l[|l| - 1] == x then 2 * |c| - 1 == s else 2 * |c| + 1 == s && c + [x] <= tokens
  {
    if StateOf(l, blank) != s {
      NextToken(l, s, tokens, blank);
    } else {
      LastToken(l, tokens, blank);
    }
  }

  /** A step onto a new state on a token is onto the token after those spelled,
      and off any frame of that label. */
  lemma NextToken(l: seq<int>, s: int, tokens: seq<int>, blank: int)
    requires blank !in tokens && Spells(l, tokens, blank) && 0 <= s <= 2 * |tokens| && s % 2 == 1
    requires CanStep(tokens, blank, StateOf(l, blank), s) && StateOf(l, blank) != s
    ensures |Collapse(l, blank)| == s / 2 && Collapse(l, blank) + [tokens[s / 2]] <= tokens
    ensures l != [] ==> l[|l| - 1] != tokens[s / 2]
  {
    var c := Collapse(l, blank);
    if l != [] && l[|l| - 1] != blank {
      LastToken(l, tokens, blank);
    }
    assert |c| == s / 2;
    assert c + [tokens[|c|]] == tokens[..|c| + 1];
  }

  // How many frames the tokens need.

  /** Neighbouring tokens that are the same. */
  function Repeats(tokens: seq<int>): nat {
    if |tokens| <= 1 then 0 else
    Repeats(tokens[..|tokens| - 1]) + (if tokens[|tokens| - 1] == tokens[|tokens| - 2] then 1 else 0)
  }

  function Needs(tokens: seq<int>): nat {
    |tokens| + Repeats(tokens)
  }

  lemma NeedsPush(tokens: seq<int>, x: int)
    ensures Needs(tokens + [x]) == Needs(tokens) + 1 + (if tokens != [] && tokens[|tokens| - 1] == x then 1 else 0)
  {
    assert (tokens + [x])[..|tokens|] == tokens;
  }

  ghost predicate EndsBlank(l: seq<int>, blank: int) {
    l != [] && l[|l| - 1] == blank
  }

  lemma NeededStep(l: seq<int>, x: int, blank: int)
    requires |l| >= Needs(Collapse(l, blank)) + (if EndsBlank(l, blank) then 1 else 0)
    ensures |l + [x]| >= Needs(Collapse(l + [x], blank)) + (if EndsBlank(l + [x], blank) then 1 else 0)
  {
    CollapsePush(l, x, blank);
    assert EndsBlank(l + [x], blank) <==> x == blank;
    NeedsPush(Collapse(l, blank), x);
    if l != [] && l[|l| - 1] != blank {
      LastLabel(l, blank);
    }
  }

  /** A labelling has at least the frames its spelling needs, and one more
      when it ends in a blank. */
  lemma {:induction false} FramesNeeded(l: seq<int>, blank: int)
    ensures |l| >= Needs(Collapse(l, blank)) + (if EndsBlank(l, blank) then 1 else 0)
    decreases |l|
  {
    if l != [] {
      assert l == l[..|l| - 1] + [l[|l| - 1]];
      FramesNeeded(l[..|l| - 1], blank);
      NeededStep(l[..|l| - 1], l[|l| - 1], blank);
    }
  }

  /** A token spelled with one more frame, off the frame before it. */
  lemma OneMoreToken(l: seq<int>, init: seq<int>, x: int, blank: int)
    requires Collapse(l, blank) == init && x != blank
    requires init != [] && init[|init| - 1] == x ==> EndsBlank(l, blank)
    ensures Collapse(l + [x], blank) == init + [x]
  {
    CollapsePush(l, x, blank);
    if l != [] && l[|l| - 1] != blank {
      LastLabel(l, blank);
    }
  }

  /** As many frames as the tokens need are enough, and so are more. */
  lemma {:induction false} FramesEnough(tokens: seq<int>, blank: int, frames: nat) returns (l: seq<int>)
    requires blank !in tokens && frames >= Needs(tokens)
    ensures |l| == frames && Collapse(l, blank) == tokens
    ensures frames > Needs(tokens) ==> EndsBlank(l, blank)
    decreases |tokens|, frames
  {
    if frames > Needs(tokens) {
      var shorter := FramesEnough(tokens, blank, frames - 1);
      l := shorter + [blank];
      CollapsePush(shorter, blank, blank);
    } else if tokens == [] {
      l := [];
    } else {
      var init, x := tokens[..|tokens| - 1], tokens[|tokens| - 1];
      assert tokens == init + [x];
      NeedsPush(init, x);
      var shorter := FramesEnough(init, blank, frames - 1);
      OneMoreToken(shorter, init, x, blank);
      l := shorter + [x];
    }
  }
}
