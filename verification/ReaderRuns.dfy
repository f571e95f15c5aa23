/// A read has one answer: every run of calls that ends, however cut or
/// parked, ends as the run with no cut does
/// (components/code-run-quickjs/reader_forks.js).

module ReaderRuns {
  import opened ReaderCites
  import opened ReaderPack
  import opened ReaderHost
  import opened ReaderPhases
  import opened Wrappers

  lemma {:induction false} ChunkRunStays(h: Host, size: nat, k: nat, m: nat)
    requires k <= m && !ChunkRun(h, size, k).Going?
    ensures ChunkRun(h, size, m) == ChunkRun(h, size, k)
  {
    if k < m {
      ChunkRunStays(h, size, k, m - 1);
    }
  }

  /** Pages end one way. */
  lemma ChunkRunOnce(h: Host, size: nat, k: nat, m: nat)
    requires !ChunkRun(h, size, k).Going? && !ChunkRun(h, size, m).Going?
    ensures ChunkRun(h, size, k) == ChunkRun(h, size, m)
  {
    if k <= m {
      ChunkRunStays(h, size, k, m);
    } else {
      ChunkRunStays(h, size, m, k);
    }
  }

  lemma {:induction false} TextRunStays(h: Host, ref: string, k: nat, m: nat)
    requires k <= m && !TextRun(h, ref, k).More?
    ensures TextRun(h, ref, m) == TextRun(h, ref, k)
  {
    if k < m {
      TextRunStays(h, ref, k, m - 1);
    }
  }

  lemma TextRunOnce(h: Host, ref: string, k: nat, m: nat)
    requires !TextRun(h, ref, k).More? && !TextRun(h, ref, m).More?
    ensures TextRun(h, ref, k) == TextRun(h, ref, m)
  {
    if k <= m {
      TextRunStays(h, ref, k, m);
    } else {
      TextRunStays(h, ref, m, k);
    }
  }

  lemma ChunksOnce(h: Host, size: nat, a: seq<Chunk>, b: seq<Chunk>)
    requires AllChunks(h, size, a) && AllChunks(h, size, b)
    ensures a == b
  {
    var k: nat :| ChunkRun(h, size, k) == Whole(a);
    var m: nat :| ChunkRun(h, size, m) == Whole(b);
    ChunkRunOnce(h, size, k, m);
  }

  lemma NotBarred(h: Host, size: nat, a: seq<Chunk>, m: nat)
    requires AllChunks(h, size, a)
    ensures ChunkRun(h, size, m) != Barred
  {
    var k: nat :| ChunkRun(h, size, k) == Whole(a);
    if ChunkRun(h, size, m) == Barred {
      ChunkRunOnce(h, size, k, m);
    }
  }

  lemma TasksOnce(h: Host, chunks: seq<Chunk>, a: seq<string>, b: seq<string>)
    requires AllSpawned(h, chunks, a) && AllSpawned(h, chunks, b)
    ensures a == b
  {
    forall i | 0 <= i < |a| && i < |b|
      ensures a[i] == b[i]
    {
      assert h.spawn(chunks[i]) == Some(a[i]) == Some(b[i]);
    }
  }

  lemma GatheredOnce(h: Host, o: Options, c1: seq<Chunk>, t1: seq<string>, c2: seq<Chunk>, t2: seq<string>)
    requires Gathered(h, o, c1, t1) && Gathered(h, o, c2, t2)
    ensures c1 == c2 && t1 == t2
  {
    ChunksOnce(h, SizeOf(h, o), c1, c2);
    TasksOnce(h, c1, t1, t2);
  }

  lemma SettlesOnce(h: Host, request: Request, a: Settled, b: Settled)
    requires Settles(h, request, a) && Settles(h, request, b)
    ensures a == b
  {
    match h.wait(request)
    case Inline(_) =>
    case Stored(ref) =>
      var k: nat :| TextRun(h, ref, k).TextWhole? && h.parseReply(TextRun(h, ref, k).text) == Some(a);
      var m: nat :| TextRun(h, ref, m).TextWhole? && h.parseReply(TextRun(h, ref, m).text) == Some(b);
      TextRunOnce(h, ref, k, m);
  }

  lemma ReadyOnce(h: Host, o: Options, tasks: seq<string>, a: seq<Placed>, b: seq<Placed>)
    requires IsReady(h, o, tasks, a) && IsReady(h, o, tasks, b)
    ensures a == b
  {
    var x :| Settles(h, RequestFor(o, tasks), x) && a == InOrder(tasks, x);
    var y :| Settles(h, RequestFor(o, tasks), y) && b == InOrder(tasks, y);
    SettlesOnce(h, RequestFor(o, tasks), x, y);
  }

  lemma FindingsOnce(h: Host, o: Options, tasks: seq<string>, a: seq<Finding>, b: seq<Finding>)
    requires AllFound(h, o, tasks, a) && AllFound(h, o, tasks, b)
    ensures a == b
  {
    if tasks != [] {
      var p: seq<Placed> :| IsReady(h, o, tasks, p) && Found(h, p, a) && |a| == |p|;
      var q: seq<Placed> :| IsReady(h, o, tasks, q) && Found(h, q, b) && |b| == |q|;
      ReadyOnce(h, o, tasks, p, q);
      forall i | 0 <= i < |a|
        ensures a[i] == b[i]
      {
        FindingOnce(h, p[i].child, a[i], b[i]);
      }
    }
  }

  lemma PackedOnce(items: seq<Item>, cap: nat, a: seq<seq<string>>, b: seq<seq<string>>)
    requires IsPacked(items, cap, a) && IsPacked(items, cap, b)
    ensures a == b
  {
    var x :| IsGreedy(items, |items|, cap, x) && AreRuns(items, |items|, x, a);
    var y :| IsGreedy(items, |items|, cap, y) && AreRuns(items, |items|, y, b);
    GreedyUnique(items, cap, x, y);
    RunsUnique(items, x, a, b);
  }

  /** No page or finding is taken twice or skipped: every run that reaches
      its groups reaches these. */
  lemma OneOutcome(h: Host, o: Options, a: Outcome, b: Outcome)
    requires Reaches(h, o, a) && Reaches(h, o, b)
    ensures a == b
  {
    GatheredOnce(h, o, a.chunks, a.tasks, b.chunks, b.tasks);
    FindingsOnce(h, o, a.tasks, a.findings, b.findings);
    PackedOnce(a.kept, WindowOf(h.can.value), a.groups, b.groups);
  }

  /** A stored reply's text ends one way. */
  lemma ReplyEndsOnce(h: Host, o: Options, a: Text, b: Text)
    requires ReplyEnds(h, o, a) && ReplyEnds(h, o, b) && !a.More? && !b.More?
    ensures a == b
  {
    var c1, t1, r1, k1: nat :| Gathered(h, o, c1, t1) && t1 != [] &&
      h.wait(RequestFor(o, t1)) == Stored(r1) && TextRun(h, r1, k1) == a;
    var c2, t2, r2, k2: nat :| Gathered(h, o, c2, t2) && t2 != [] &&
      h.wait(RequestFor(o, t2)) == Stored(r2) && TextRun(h, r2, k2) == b;
    GatheredOnce(h, o, c1, t1, c2, t2);
    TextRunOnce(h, r1, k1, k2);
  }

  /** A read that reaches its groups over a stored reply read it whole. */
  lemma ReachedReply(h: Host, o: Options, out: Outcome, end: Text)
    requires Reaches(h, o, out) && ReplyEnds(h, o, end) && !end.More?
    ensures end.TextWhole? && h.parseReply(end.text).Some?
  {
    var c, t, ref, k: nat :| Gathered(h, o, c, t) && t != [] &&
      h.wait(RequestFor(o, t)) == Stored(ref) && TextRun(h, ref, k) == end;
    GatheredOnce(h, o, c, t, out.chunks, out.tasks);
    var ready: seq<Placed> :| IsReady(h, o, t, ready) && Found(h, ready, out.findings) && |out.findings| == |ready|;
    var settled :| Settles(h, RequestFor(o, t), settled) && ready == InOrder(t, settled);
    var m: nat :| TextRun(h, ref, m).TextWhole? && h.parseReply(TextRun(h, ref, m).text) == Some(settled);
    TextRunOnce(h, ref, k, m);
  }

  /** A reply that was waited for came after every page. */
  lemma ReplyPastPages(h: Host, o: Options, end: Text, k: nat)
    requires ReplyEnds(h, o, end)
    ensures h.can.Some? && ChunkRun(h, SizeOf(h, o), k) != Barred
  {
    var c, t, ref, m: nat :| Gathered(h, o, c, t) && t != [] &&
      h.wait(RequestFor(o, t)) == Stored(ref) && TextRun(h, ref, m) == end;
    NotBarred(h, SizeOf(h, o), c, k);
  }

  lemma RefusedNotReached(h: Host, o: Options, reason: Reason, out: Outcome)
    requires Refuses(h, o, reason)
    ensures !Reaches(h, o, out)
  {
    if Reaches(h, o, out) {
      match reason
      case Denied =>
      case Tainted =>
        if ReplyEnds(h, o, TextBarred) {
          ReachedReply(h, o, out, TextBarred);
        } else {
          var k: nat :| ChunkRun(h, SizeOf(h, o), k) == Barred;
          NotBarred(h, SizeOf(h, o), out.chunks, k);
        }
      case InvalidReply =>
        var text :| h.parseReply(text).None? && ReplyEnds(h, o, TextWhole(text));
        ReachedReply(h, o, out, TextWhole(text));
    }
  }

  lemma OneReason(h: Host, o: Options, a: Reason, b: Reason)
    requires Refuses(h, o, a) && Refuses(h, o, b)
    ensures a == b
  {
    if a == InvalidReply && b != InvalidReply {
      InvalidNotOther(h, o, b);
    } else if b == InvalidReply && a != InvalidReply {
      InvalidNotOther(h, o, a);
    }
  }

  lemma InvalidNotOther(h: Host, o: Options, other: Reason)
    requires Refuses(h, o, InvalidReply) && other != InvalidReply
    ensures !Refuses(h, o, other)
  {
    var text :| h.parseReply(text).None? && ReplyEnds(h, o, TextWhole(text));
    ReplyPastPages(h, o, TextWhole(text), 0);
    forall k: nat
      ensures ChunkRun(h, SizeOf(h, o), k) != Barred
    {
      ReplyPastPages(h, o, TextWhole(text), k);
    }
    if ReplyEnds(h, o, TextBarred) {
      ReplyEndsOnce(h, o, TextWhole(text), TextBarred);
    }
  }

  /** A reply page that failed leaves the read no other end. */
  lemma FailedOnly(h: Host, o: Options, b: Answer)
    requires ReplyEnds(h, o, TextFailed) && Ends(h, o, b)
    ensures b == Failed
  {
    ReplyPastPages(h, o, TextFailed, 0);
    match b
    case Failed =>
    case Reached(out) =>
      ReachedReply(h, o, out, TextFailed);
    case Refused(reason) =>
      forall k: nat
        ensures ChunkRun(h, SizeOf(h, o), k) != Barred
      {
        ReplyPastPages(h, o, TextFailed, k);
      }
      if reason == Tainted {
        ReplyEndsOnce(h, o, TextFailed, TextBarred);
      } else {
        var text :| h.parseReply(text).None? && ReplyEnds(h, o, TextWhole(text));
        ReplyEndsOnce(h, o, TextFailed, TextWhole(text));
      }
  }

  /** Pauses are transparent: any two runs of calls that end, each cut and
      parked in its own way, give the same answer, reached or refused. */
  lemma OneAnswer(h: Host, o: Options, a: Answer, b: Answer)
    requires Ends(h, o, a) && Ends(h, o, b)
    ensures a == b
  {
    if a.Failed? {
      FailedOnly(h, o, b);
    } else if b.Failed? {
      FailedOnly(h, o, a);
    } else if a.Reached? && b.Reached? {
      OneOutcome(h, o, a.outcome, b.outcome);
    } else if a.Refused? && b.Refused? {
      OneReason(h, o, a.reason, b.reason);
    } else if a.Refused? {
      RefusedNotReached(h, o, a.reason, b.outcome);
    } else {
      RefusedNotReached(h, o, b.reason, a.outcome);
    }
  }
}
