/// A resumable read over a host, phase by phase: chunk pages, a child spawned
/// for each chunk, one wait, one reading a child, then findings kept once and
/// packed (components/code-run-quickjs/reader_forks.js). A call stops when its
/// host calls are spent or the run parks, and the next goes on from what was
/// stored.

module ReaderPhases {
  import opened Bounds
  import opened ReaderCites
  import opened ReaderPack
  import opened ReaderHost
  import opened Wrappers

  /** So far: the run stands where `s` does, `calls - calls0` host calls on. */
  predicate Gone(run: nat -> Where, budget: nat, at: nat, calls0: nat, s: State, calls: nat, to: nat) {
    calls0 <= calls <= Max(calls0, budget) && to == at + calls - calls0 && run(to) == Rest(s)
  }

  lemma PageNext(h: Host, o: Options, run: nat -> Where, n: nat, m: nat, s: State, page: ChunkPage)
    requires IsUncut(h, o, run) && run(n) == Standing(s) && m == n + 1 && s.phase == Chunking && page == h.page(s.size, s.cursor)
    ensures run(m) == Paged(s, page)
  {
    RunNext(h, o, run, n, m, s);
  }

  lemma SpawnNext(h: Host, o: Options, run: nat -> Where, n: nat, m: nat, s: State, task: Option<string>)
    requires IsUncut(h, o, run) && run(n) == Standing(s) && m == n + 1 && s.phase == Spawning && |s.tasks| < |s.chunks|
    requires task == h.spawn(s.chunks[|s.tasks|])
    ensures run(m) == SpawnedOne(s, task)
  {
    RunNext(h, o, run, n, m, s);
  }

  lemma WaitNext(h: Host, o: Options, run: nat -> Where, n: nat, m: nat, s: State, reply: Reply)
    requires IsUncut(h, o, run) && run(n) == Standing(s) && m == n + 1 && AtWait(s) && reply == h.wait(RequestFor(o, s.tasks))
    ensures run(m) == Waited(s, reply)
  {
    RunNext(h, o, run, n, m, s);
  }

  lemma ReplyNext(h: Host, o: Options, run: nat -> Where, n: nat, m: nat, s: State, p: Progress, end: Text)
    requires IsUncut(h, o, run) && run(n) == Standing(s) && m == n + 1 && s.phase == Waiting && s.reply == Some(p)
    requires end == TextStep(p.text, h.slice(p.ref, p.next))
    ensures run(m) == Replied(h, s, p.ref, end)
  {
    RunNext(h, o, run, n, m, s);
  }

  lemma ReadNext(h: Host, o: Options, run: nat -> Where, n: nat, m: nat, s: State, f: Finding)
    requires IsUncut(h, o, run) && run(n) == Standing(s) && m == n + 1 && s.phase == Reading && |s.findings| < |s.ready|
    requires IsFinding(h, s.ready[|s.findings|].child, f)
    ensures run(m) == Rest(s.(findings := s.findings + [f]))
  {
    RunNext(h, o, run, n, m, s);
    FindingOnce(h, s.ready[|s.findings|].child, f, FindingOf(h, s.ready[|s.findings|].child));
  }

  /** The pages on from where the state stands, `at` host calls along the
      run. */
  method ChunkPhase(h: Host, o: Options, budget: nat, s0: State, calls0: nat, ghost run: nat -> Where, ghost at: nat)
    returns (s: State, calls: nat, halt: Halt, ghost to: nat)
    requires GoodChunking(h, o, s0) && IsUncut(h, o, run) && run(at) == Rest(s0)
    ensures halt.Go? ==> GoodSpawning(h, o, s) && s.tasks == []
    ensures halt.Pause? ==> GoodChunking(h, o, s)
    ensures Walks(run, budget, at, calls0, s, calls, halt, to)
    ensures halt.Go? || halt.Pause? || (halt == Refuse(Tainted) && Refuses(h, o, Tainted))
  {
    s, calls, to := s0, calls0, at;
    while true
      invariant GoodChunking(h, o, s) && Gone(run, budget, at, calls0, s, calls, to)
      decreases budget - calls
    {
      if calls >= budget {
        return s, calls, Pause, to;
      }
      calls := calls + 1;
      var page := h.page(s.size, s.cursor);
      ghost var k: nat :| ChunkRun(h, s.size, k) == Going(s.chunks, s.cursor);
      assert ChunkRun(h, s.size, k + 1) == ChunkStep(s.chunks, page);
      ghost var n := to;
      to := n + 1;
      PageNext(h, o, run, n, to, s, page);
      if page.PageWithheld? {
        return s, calls, Refuse(Tainted), to;
      }
      s := s.(chunks := s.chunks + page.chunks);
      if page.done || page.next.None? {
        return s.(phase := Spawning, tasks := []), calls, Go, to;
      }
      s := s.(cursor := page.next);
    }
  }

  /** A child for each chunk that has none yet. */
  method SpawnPhase(h: Host, o: Options, budget: nat, s0: State, calls0: nat, ghost run: nat -> Where, ghost at: nat)
    returns (s: State, calls: nat, halt: Halt, ghost to: nat)
    requires GoodSpawning(h, o, s0) && IsUncut(h, o, run) && run(at) == Rest(s0)
    ensures halt.Go? ==> if s.tasks == [] then GoodPacking(h, o, s) else GoodWaiting(h, o, s) && s.reply == None
    ensures halt.Pause? ==> GoodSpawning(h, o, s)
    ensures Walks(run, budget, at, calls0, s, calls, halt, to)
    ensures halt.Go? || halt.Pause?
  {
    s, calls, to := s0, calls0, at;
    while |s.tasks| < |s.chunks|
      invariant GoodSpawning(h, o, s) && Gone(run, budget, at, calls0, s, calls, to)
      decreases |s.chunks| - |s.tasks|
    {
      if calls >= budget {
        return s, calls, Pause, to;
      }
      calls := calls + 1;
      var task := h.spawn(s.chunks[|s.tasks|]);
      ghost var n := to;
      to := n + 1;
      SpawnNext(h, o, run, n, to, s, task);
      if task.None? {
        break;
      }
      s := s.(tasks := s.tasks + [task.value]);
    }
    assert run(to) == AfterSpawns(s);
    s := s.(phase := if s.tasks == [] then Packing else Waiting, findings := [], reply := None);
    halt := Go;
  }

  /** A stored reply's pages on from where its text stands; `s` is the state
      that waits for it. */
  method ReadReplyPages(h: Host, o: Options, budget: nat, ghost s: State, p0: Progress, calls0: nat, ghost run: nat -> Where, ghost at: nat)
    returns (p: Progress, calls: nat, end: Text, ghost to: nat)
    requires s.phase == Waiting && s.reply == Some(p0) && IsUncut(h, o, run) && run(at) == Standing(s)
    requires exists k: nat :: TextRun(h, p0.ref, k) == More(p0.next, p0.text)
    ensures p.ref == p0.ref && exists k: nat :: TextRun(h, p0.ref, k) == end
    ensures end.More? ==> end == More(p.next, p.text) && calls >= budget
    ensures calls0 <= calls <= Max(calls0, budget) && to == at + calls - calls0 && run(to) == Replied(h, s, p0.ref, end)
  {
    p, calls, end, to := p0, calls0, More(p0.next, p0.text), at;
    while calls < budget
      invariant p.ref == p0.ref && end == More(p.next, p.text)
      invariant calls0 <= calls <= Max(calls0, budget) && to == at + calls - calls0
      invariant run(to) == Standing(s.(reply := Some(p)))
      invariant exists k: nat :: TextRun(h, p0.ref, k) == end
    {
      calls := calls + 1;
      var piece := h.slice(p.ref, p.next);
      ghost var k: nat :| TextRun(h, p0.ref, k) == end;
      assert TextRun(h, p0.ref, k + 1) == TextStep(p.text, piece);
      end := TextStep(p.text, piece);
      ghost var n := to;
      to := n + 1;
      ReplyNext(h, o, run, n, to, s.(reply := Some(p)), p, end);
      if !end.More? {
        return p, calls, end, to;
      }
      p := p.(next := end.next, text := end.text);
    }
  }

  /** Each task's place, the last to hold it kept; one that is no chunk's
      is looked up as 0. */
  method Places(tasks: seq<string>) returns (byTask: map<string, nat>)
    ensures forall t :: PlaceOf(tasks, t) == if t in byTask then byTask[t] else 0
  {
    byTask := map[];
    for i := 0 to |tasks|
      invariant forall t :: PlaceOf(tasks[..i], t) == if t in byTask then byTask[t] else 0
    {
      assert tasks[..i + 1][..i] == tasks[..i];
      byTask := byTask[tasks[i] := i];
    }
    assert tasks[..|tasks|] == tasks;
  }

  /** A wait's settled children, ready then partial, each with its place,
      sorted by it. */
  method Order(tasks: seq<string>, settled: Settled) returns (ready: seq<Placed>)
    ensures ready == InOrder(tasks, settled)
  {
    var byTask := Places(tasks);
    var found := settled.ready + settled.partial;
    var placed: seq<Placed> := [];
    for i := 0 to |found|
      invariant placed == PlacedBy(tasks, found)[..i]
    {
      placed := placed + [Placed(found[i], if found[i].task in byTask then byTask[found[i].task] else 0)];
    }
    assert placed == PlacedBy(tasks, found);
    ready := ByPlace(placed, |tasks| + 1);
  }

  /** Where a wait leaves the run. */
  predicate WaitWalks(run: nat -> Where, budget: nat, at: nat, calls0: nat, s: State, calls: nat, halt: Halt, settled: Settled, to: nat) {
    Walks(run, budget, at, calls0, if halt.Go? then Ordered(s, settled) else s, calls, halt, to)
  }

  /** The wait itself: a reply in line settles it, and a stored one is still to
      be read. */
  method WaitOnce(h: Host, o: Options, budget: nat, parked: bool, s0: State, calls0: nat, ghost run: nat -> Where, ghost at: nat)
    returns (s: State, calls: nat, halt: Halt, settled: Settled, ghost to: nat)
    requires GoodWaiting(h, o, s0) && AtWait(s0) && IsUncut(h, o, run) && run(at) == Rest(s0)
    ensures if halt.Go? && s.reply.Some? then GoodWaiting(h, o, s) && Gone(run, budget, at, calls0, s, calls, to)
            else s == s0 && WaitWalks(run, budget, at, calls0, s, calls, halt, settled, to)
    ensures halt.Go? && s.reply.None? ==> Settles(h, RequestFor(o, s.tasks), settled)
    ensures s == s0.(reply := s.reply) && !halt.Refuse? && !halt.Fail? && (halt.Park? ==> parked)
  {
    s, calls, settled, to := s0, calls0, Settled([], []), at;
    if calls >= budget {
      halt := Pause;
      return;
    }
    calls := calls + 1;
    if parked {
      halt := Park;
      return;
    }
    halt, to := Go, at + 1;
    var reply := h.wait(RequestFor(o, s.tasks));
    WaitNext(h, o, run, at, to, s0, reply);
    if reply.Inline? {
      settled := reply.settled;
      return;
    }
    assert TextRun(h, reply.ref, 0) == More(Start, "");
    s := s.(reply := Some(Progress(reply.ref, Start, "")));
  }

  /** One wait, its reply followed to its end. A read that was cut mid-reply
      goes on from there and makes no second wait. */
  method WaitFor(h: Host, o: Options, budget: nat, parked: bool, s0: State, calls0: nat, ghost run: nat -> Where, ghost at: nat)
    returns (s: State, calls: nat, halt: Halt, settled: Settled, ghost to: nat)
    requires GoodWaiting(h, o, s0) && IsUncut(h, o, run) && run(at) == Rest(s0)
    ensures halt.Go? ==> GoodWaiting(h, o, s) && Settles(h, RequestFor(o, s.tasks), settled)
    ensures halt.Pause? ==> GoodWaiting(h, o, s)
    ensures WaitWalks(run, budget, at, calls0, s, calls, halt, settled, to)
    ensures halt.Park? ==> s == s0 && parked
    ensures halt.Refuse? ==> Refuses(h, o, halt.reason)
    ensures halt.Fail? ==> ReplyEnds(h, o, TextFailed)
    ensures s == s0.(reply := s.reply)
  {
    s, calls, halt, settled, to := s0, calls0, Go, Settled([], []), at;
    if s.reply.None? {
      s, calls, halt, settled, to := WaitOnce(h, o, budget, parked, s0, calls0, run, at);
      if !halt.Go? || s.reply.None? {
        return;
      }
    }
    s, calls, halt, settled, to := FollowReply(h, o, budget, s, calls0, calls, run, at, to);
  }

  /** A stored reply followed to its end. */
  method FollowReply(h: Host, o: Options, budget: nat, s1: State, ghost calls0: nat, calls1: nat, ghost run: nat -> Where, ghost at: nat,
                     ghost at1: nat)
    returns (s: State, calls: nat, halt: Halt, settled: Settled, ghost to: nat)
    requires GoodWaiting(h, o, s1) && s1.reply.Some? && IsUncut(h, o, run) && Gone(run, budget, at, calls0, s1, calls1, at1)
    ensures halt.Go? ==> GoodWaiting(h, o, s) && Settles(h, RequestFor(o, s.tasks), settled)
    ensures halt.Pause? ==> GoodWaiting(h, o, s)
    ensures WaitWalks(run, budget, at, calls0, s, calls, halt, settled, to)
    ensures !halt.Park? && (halt.Refuse? ==> Refuses(h, o, halt.reason)) && (halt.Fail? ==> ReplyEnds(h, o, TextFailed))
    ensures s == s1.(reply := s.reply)
  {
    s, settled := s1, Settled([], []);
    var p, end;
    p, calls, end, to := ReadReplyPages(h, o, budget, s1, s1.reply.value, calls1, run, at1);
    ghost var k: nat :| TextRun(h, p.ref, k) == end;
    match end
    case More(_, _) =>
      s := s.(reply := Some(p));
      halt := Pause;
    case TextFailed =>
      assert ReplyEnds(h, o, end);
      halt := Fail;
    case TextBarred =>
      assert ReplyEnds(h, o, end);
      halt := Refuse(Tainted);
    case TextWhole(text) =>
      assert ReplyEnds(h, o, end);
      var value := h.parseReply(text);
      s := s.(reply := None);
      if value.None? {
        halt := Refuse(InvalidReply);
      } else {
        settled, halt := value.value, Go;
      }
  }

  method WaitPhase(h: Host, o: Options, budget: nat, parked: bool, s0: State, calls0: nat, ghost run: nat -> Where, ghost at: nat)
    returns (s: State, calls: nat, halt: Halt, ghost to: nat)
    requires GoodWaiting(h, o, s0) && IsUncut(h, o, run) && run(at) == Rest(s0)
    ensures halt.Go? ==> GoodReading(h, o, s)
    ensures halt.Pause? ==> GoodWaiting(h, o, s)
    ensures Walks(run, budget, at, calls0, s, calls, halt, to)
    ensures halt.Park? ==> s == s0 && parked
    ensures halt.Refuse? ==> Refuses(h, o, halt.reason)
    ensures halt.Fail? ==> ReplyEnds(h, o, TextFailed)
  {
    var settled;
    s, calls, halt, settled, to := WaitFor(h, o, budget, parked, s0, calls0, run, at);
    if halt.Go? {
      var ready := Order(s.tasks, settled);
      assert IsReady(h, o, s.tasks, ready);
      s := s.(phase := Reading, ready := ready, findings := []);
    }
  }

  method ReadOne(h: Host, child: Child) returns (f: Finding)
    ensures IsFinding(h, child, f)
  {
    var raw := CitesOf(h, child);
    var cites := None;
    if raw.Some? {
      var ranges := NormaliseCites(raw);
      cites := Some(ranges);
    }
    f := Finding(child.ref, child.bytes, cites);
  }

  lemma GoodReadingNext(h: Host, o: Options, s: State, f: Finding)
    requires GoodReading(h, o, s) && |s.findings| < |s.ready| && IsFinding(h, s.ready[|s.findings|].child, f)
    ensures GoodReading(h, o, s.(findings := s.findings + [f]))
  {
    var all := s.findings + [f];
    forall i | 0 <= i < |all|
      ensures IsFinding(h, s.ready[i].child, all[i])
    {
      assert i < |s.findings| ==> all[i] == s.findings[i];
    }
  }

  lemma ReadingDone(h: Host, o: Options, s: State)
    requires GoodReading(h, o, s) && |s.findings| == |s.ready|
    ensures GoodPacking(h, o, s.(phase := Packing))
  {
  }

  /** One slice a child, its cites made canonical. */
  method ReadPhase(h: Host, o: Options, budget: nat, s0: State, calls0: nat, ghost run: nat -> Where, ghost at: nat)
    returns (s: State, calls: nat, halt: Halt, ghost to: nat)
    requires GoodReading(h, o, s0) && IsUncut(h, o, run) && run(at) == Rest(s0)
    ensures halt.Go? ==> GoodPacking(h, o, s)
    ensures halt.Pause? ==> GoodReading(h, o, s)
    ensures Walks(run, budget, at, calls0, s, calls, halt, to)
    ensures halt.Go? || halt.Pause?
  {
    s, calls, to := s0, calls0, at;
    while |s.findings| < |s.ready|
      invariant GoodReading(h, o, s) && Gone(run, budget, at, calls0, s, calls, to)
      decreases |s.ready| - |s.findings|
    {
      if calls >= budget {
        return s, calls, Pause, to;
      }
      calls := calls + 1;
      var f := ReadOne(h, s.ready[|s.findings|].child);
      ghost var n := to;
      to := n + 1;
      ReadNext(h, o, run, n, to, s, f);
      GoodReadingNext(h, o, s, f);
      s := s.(findings := s.findings + [f]);
    }
    ReadingDone(h, o, s);
    s := s.(phase := Packing);
    halt := Go;
  }

  // The sort loses nothing, orders by place, and is stable.

  function Times(placed: seq<Placed>, c: Placed): nat {
    if placed == [] then 0
    else Times(placed[..|placed| - 1], c) + (if placed[|placed| - 1] == c then 1 else 0)
  }

  lemma {:induction false} TimesJoin(a: seq<Placed>, b: seq<Placed>, c: Placed)
    ensures Times(a + b, c) == Times(a, c) + Times(b, c)
    decreases |b|
  {
    if b == [] {
      assert a + b == a;
    } else {
      TimesJoin(a, b[..|b| - 1], c);
      assert (a + b)[..|a + b| - 1] == a + b[..|b| - 1];
    }
  }

  lemma TimesPush(a: seq<Placed>, x: Placed, c: Placed)
    ensures Times(a + [x], c) == Times(a, c) + (if x == c then 1 else 0)
  {
    assert (a + [x])[..|a|] == a;
  }

  lemma {:induction false} TimesIsCount(a: seq<Placed>, c: Placed)
    ensures Times(a, c) == multiset(a)[c]
    decreases |a|
  {
    if a != [] {
      TimesIsCount(a[..|a| - 1], c);
      assert a == a[..|a| - 1] + [a[|a| - 1]];
    }
  }

  lemma SameTimes(a: seq<Placed>, b: seq<Placed>)
    requires forall c :: Times(a, c) == Times(b, c)
    ensures multiset(a) == multiset(b)
  {
    forall c
      ensures multiset(a)[c] == multiset(b)[c]
    {
      TimesIsCount(a, c);
      TimesIsCount(b, c);
    }
  }

  lemma {:induction false} AtPlaceCount(placed: seq<Placed>, at: nat, c: Placed)
    ensures Times(AtPlace(placed, at), c) == if c.at == at then Times(placed, c) else 0
    decreases |placed|
  {
    if placed != [] {
      var front, last := placed[..|placed| - 1], placed[|placed| - 1];
      AtPlaceCount(front, at, c);
      if last.at == at {
        TimesPush(AtPlace(front, at), last, c);
      } else {
        assert AtPlace(placed, at) == AtPlace(front, at);
      }
    }
  }

  lemma {:induction false} ByPlaceCount(placed: seq<Placed>, n: nat, c: Placed)
    ensures Times(ByPlace(placed, n), c) == if c.at < n then Times(placed, c) else 0
  {
    if n > 0 {
      var m := n - 1;
      ByPlaceCount(placed, m, c);
      AtPlaceCount(placed, m, c);
      TimesJoin(ByPlace(placed, m), AtPlace(placed, m), c);
    }
  }

  lemma {:induction false} AtPlaceAppend(a: seq<Placed>, b: seq<Placed>, at: nat)
    ensures AtPlace(a + b, at) == AtPlace(a, at) + AtPlace(b, at)
    decreases |b|
  {
    if b == [] {
      assert a + b == a;
    } else {
      var front := b[..|b| - 1];
      AtPlaceAppend(a, front, at);
      assert (a + b)[..|a + b| - 1] == a + front;
    }
  }

  lemma {:induction false} AtPlaceOnly(placed: seq<Placed>, at: nat)
    ensures forall i :: 0 <= i < |AtPlace(placed, at)| ==> AtPlace(placed, at)[i].at == at
    decreases |placed|
  {
    if placed != [] {
      AtPlaceOnly(placed[..|placed| - 1], at);
    }
  }

  /** All of one place: nothing else is at another. */
  lemma {:induction false} AtPlaceAgain(placed: seq<Placed>, at: nat, again: nat)
    requires forall i :: 0 <= i < |placed| ==> placed[i].at == at
    ensures AtPlace(placed, again) == if at == again then placed else []
    decreases |placed|
  {
    if placed != [] {
      AtPlaceAgain(placed[..|placed| - 1], at, again);
    }
  }

  lemma {:induction false} ByPlaceStable(placed: seq<Placed>, n: nat, at: nat)
    ensures AtPlace(ByPlace(placed, n), at) == if at < n then AtPlace(placed, at) else []
  {
    if n > 0 {
      ByPlaceStable(placed, n - 1, at);
      AtPlaceOnly(placed, n - 1);
      AtPlaceJoin(ByPlace(placed, n - 1), AtPlace(placed, n - 1), n - 1, at);
    }
  }

  /** Children of one place put after those of others. */
  lemma AtPlaceJoin(front: seq<Placed>, last: seq<Placed>, place: nat, at: nat)
    requires forall i :: 0 <= i < |last| ==> last[i].at == place
    ensures AtPlace(front + last, at) == if at == place then AtPlace(front, at) + last else AtPlace(front, at)
  {
    AtPlaceAppend(front, last, at);
    AtPlaceAgain(last, place, at);
  }

  lemma {:induction false} ByPlaceSorted(placed: seq<Placed>, n: nat)
    ensures forall i :: 0 <= i < |ByPlace(placed, n)| ==> ByPlace(placed, n)[i].at < n
    ensures forall i, j :: 0 <= i < j < |ByPlace(placed, n)| ==> ByPlace(placed, n)[i].at <= ByPlace(placed, n)[j].at
  {
    if n > 0 {
      ByPlaceSorted(placed, n - 1);
      AtPlaceOnly(placed, n - 1);
    }
  }

  lemma {:induction false} PlaceWithin(tasks: seq<string>, task: string)
    ensures PlaceOf(tasks, task) <= |tasks|
    decreases |tasks|
  {
    if tasks != [] {
      PlaceWithin(tasks[..|tasks| - 1], task);
    }
  }

  lemma PlacedWithin(tasks: seq<string>, found: seq<Child>, c: Placed)
    requires c in PlacedBy(tasks, found)
    ensures c.at <= |tasks|
  {
    PlaceWithin(tasks, c.child.task);
  }

  /** Sorting by place takes each child as often as it was. */
  lemma SortedTimes(tasks: seq<string>, found: seq<Child>, placed: seq<Placed>, n: nat, c: Placed)
    requires placed == PlacedBy(tasks, found) && n == |tasks| + 1
    ensures Times(ByPlace(placed, n), c) == Times(placed, c)
  {
    ByPlaceCount(placed, n, c);
    TimesIsCount(placed, c);
    if c in placed {
      PlacedWithin(tasks, found, c);
    }
  }

  lemma SortKeepsAll(tasks: seq<string>, found: seq<Child>, placed: seq<Placed>, n: nat)
    requires placed == PlacedBy(tasks, found) && n == |tasks| + 1
    ensures multiset(ByPlace(placed, n)) == multiset(placed)
  {
    forall c: Placed
      ensures Times(ByPlace(placed, n), c) == Times(placed, c)
    {
      SortedTimes(tasks, found, placed, n, c);
    }
    SameTimes(ByPlace(placed, n), placed);
  }

  /** The order of the findings: every settled child once, by its chunk's
      place, those of one place as the wait gave them. */
  lemma OrderIsStableSort(tasks: seq<string>, settled: Settled)
    ensures multiset(InOrder(tasks, settled)) == multiset(PlacedBy(tasks, settled.ready + settled.partial))
    ensures forall i, j :: 0 <= i < j < |InOrder(tasks, settled)| ==>
      InOrder(tasks, settled)[i].at <= InOrder(tasks, settled)[j].at
    ensures forall at :: 0 <= at <= |tasks| ==>
      AtPlace(InOrder(tasks, settled), at) == AtPlace(PlacedBy(tasks, settled.ready + settled.partial), at)
  {
    var found, n := settled.ready + settled.partial, |tasks| + 1;
    var placed := PlacedBy(tasks, found);
    SortKeepsAll(tasks, found, placed, n);
    ByPlaceSorted(placed, n);
    forall at | 0 <= at <= |tasks|
      ensures AtPlace(InOrder(tasks, settled), at) == AtPlace(placed, at)
    {
      ByPlaceStable(placed, n, at);
    }
  }

  // Calls, and runs of them.

  /** What a call finds: the host calls it may spend, those its state takes to
      load, and whether the run parks on its wait. */
  datatype Turn = Turn(budget: nat, loads: nat, parks: bool)

  datatype Answer = Paused | Parked | Failed | Refused(reason: Reason) | Reached(outcome: Outcome)

  predicate Final(a: Answer) {
    a.Failed? || a.Refused? || a.Reached?
  }

  /** The answer that ends the read, whatever its calls were. */
  ghost predicate Ends(h: Host, o: Options, a: Answer) {
    match a
    case Paused => false
    case Parked => false
    case Failed => ReplyEnds(h, o, TextFailed)
    case Refused(reason) => Refuses(h, o, reason)
    case Reached(out) => Reaches(h, o, out)
  }

  /** The host's verdict, and the sizes the read goes by. */
  method Open(h: Host, o: Options) returns (s: State, halt: Halt)
    ensures halt.Go? ==> GoodChunking(h, o, s)
    ensures !halt.Go? ==> halt == Refuse(Denied) && Refuses(h, o, Denied)
    ensures Came(s, halt) == OpenStep(h, o)
  {
    if h.can.None? {
      return FRESH, Refuse(Denied);
    }
    var window := WindowOf(h.can.value);
    s, halt := FRESH.(phase := Chunking, window := window, size := ChunkTokens(window, o.window)), Go;
    assert ChunkRun(h, s.size, 0) == Going(s.chunks, s.cursor);
  }

  /** Where a call's phases may leave the read. */
  ghost predicate Left(h: Host, o: Options, s: State, halt: Halt) {
    match halt
    case Go => GoodPacking(h, o, s)
    case Pause => Good(h, o, s) && Unfinished(s)
    case Park => Good(h, o, s) && Unfinished(s)
    case Refuse(reason) => Refuses(h, o, reason)
    case Fail => ReplyEnds(h, o, TextFailed)
  }

  /** Where the phases that gather the settled children go on from. */
  ghost predicate Gathers(h: Host, o: Options, s: State) {
    GoodChunking(h, o, s) || GoodSpawning(h, o, s) || GoodWaiting(h, o, s) || GoodReading(h, o, s) || GoodPacking(h, o, s)
  }

  /** The phases that gather the settled children, from where the state
      stands. */
  method Early(h: Host, o: Options, turn: Turn, s0: State, calls0: nat, ghost run: nat -> Where, ghost at: nat)
    returns (s: State, calls: nat, halt: Halt, ghost to: nat)
    requires Gathers(h, o, s0) && IsUncut(h, o, run) && run(at) == Rest(s0)
    ensures if halt.Go? then GoodReading(h, o, s) || GoodPacking(h, o, s) else Left(h, o, s, halt)
    ensures Walks(run, turn.budget, at, calls0, s, calls, halt, to)
    ensures halt.Park? ==> turn.parks
  {
    s, calls, halt, to := s0, calls0, Go, at;
    if s.phase == Chunking {
      s, calls, halt, to := ChunkPhase(h, o, turn.budget, s, calls, run, to);
    }
    if halt.Go? && s.phase == Spawning {
      s, calls, halt, to := SpawnPhase(h, o, turn.budget, s, calls, run, to);
    }
    if halt.Go? && s.phase == Waiting {
      s, calls, halt, to := WaitPhase(h, o, turn.budget, turn.parks, s, calls, run, to);
    }
  }

  /** The first phase, when the read is fresh: the host's verdict, asked
      whatever the budget. */
  method Begin(h: Host, o: Options, turn: Turn, s0: State, ghost run: nat -> Where, ghost at: nat)
    returns (s: State, calls: nat, halt: Halt, ghost to: nat)
    requires Good(h, o, s0) && (s0 == FRESH || Unfinished(s0)) && IsUncut(h, o, run) && run(at) == Standing(s0)
    ensures if halt.Go? then Gathers(h, o, s) else halt == Refuse(Denied) && Refuses(h, o, Denied)
    ensures run(to) == Came(s, halt) && calls == turn.loads + to - at && to == at + if s0 == FRESH then 1 else 0
  {
    s, calls, halt, to := s0, turn.loads, Go, at;
    if s.phase == Opening {
      s, halt := Open(h, o);
      calls, to := calls + 1, at + 1;
      RunNext(h, o, run, at, to, s0);
    }
  }

  /** Every phase, until the call's host calls are spent, the run parks, or
      the read ends. */
  method Phases(h: Host, o: Options, turn: Turn, s0: State, ghost run: nat -> Where, ghost at: nat)
    returns (s: State, calls: nat, halt: Halt, ghost to: nat)
    requires Good(h, o, s0) && (s0 == FRESH || Unfinished(s0)) && IsUncut(h, o, run) && run(at) == Standing(s0)
    ensures Left(h, o, s, halt) && run(to) == Came(s, halt)
    ensures at <= to <= at + Room(turn, s0 == FRESH) && (halt.Pause? ==> to == at + Room(turn, s0 == FRESH))
    ensures halt.Park? ==> turn.parks && AtWait(s)
  {
    s, calls, halt, to := Begin(h, o, turn, s0, run, at);
    if halt.Go? {
      s, calls, halt, to := Early(h, o, turn, s, calls, run, to);
    }
    if halt.Go? && s.phase == Reading {
      s, calls, halt, to := ReadPhase(h, o, turn.budget, s, calls, run, to);
    }
  }

  /** The host calls a call of the read makes before it pauses, those that load
      its state taken off: at least one when the read is fresh. */
  function Room(turn: Turn, anew: bool): nat {
    var floor := if anew then 1 else 0;
    if turn.budget - turn.loads > floor then turn.budget - turn.loads else floor
  }

  /** A call's answer says where the run with no cut stands. */
  predicate Tells(w: Where, answer: Answer) {
    match answer
    case Paused => w.Standing?
    case Parked => w.Standing? && AtWait(w.s)
    case Failed => w == Halted(Fail)
    case Refused(reason) => w == Halted(Refuse(reason))
    case Reached(out) => w.Done? && out.chunks == w.s.chunks && out.tasks == w.s.tasks && out.findings == w.s.findings
  }

  class Read {
    var stored: Option<State>
    ghost var made: nat

    /** What is stored is where the run with no cut stands after `made` host
        calls. */
    ghost predicate Valid(h: Host, o: Options, run: nat -> Where)
      reads this
    {
      run(made) == Standing(Now())
      && (stored.Some? ==> Good(h, o, stored.value) && Unfinished(stored.value))
    }

    function Now(): State
      reads this
    {
      if stored.Some? then stored.value else FRESH
    }

    constructor ()
      ensures stored == None && made == 0
    {
      stored, made := None, 0;
    }

    method Save(h: Host, o: Options, s: State, ghost run: nat -> Where, ghost at: nat)
      requires Good(h, o, s) && Unfinished(s) && run(at) == Standing(s)
      modifies this
      ensures Valid(h, o, run) && stored == Some(s) && made == at
    {
      stored, made := Some(s), at;
    }

    /** A call that has answered before its findings were all read. */
    method Stop(h: Host, o: Options, s: State, halt: Halt, ghost run: nat -> Where, ghost at: nat) returns (answer: Answer)
      requires Valid(h, o, run) && !halt.Go? && Left(h, o, s, halt) && run(at) == Came(s, halt)
      requires halt.Park? ==> AtWait(s)
      modifies this
      ensures Valid(h, o, run) && Tells(run(at), answer)
      ensures if Final(answer) then Ends(h, o, answer) && stored == old(stored) && made == old(made)
              else stored == Some(s) && made == at
      ensures (answer.Paused? <==> halt.Pause?) && (answer.Parked? <==> halt.Park?)
    {
      match halt
      case Pause =>
        Save(h, o, s, run, at);
        answer := Paused;
      case Park =>
        Save(h, o, s, run, at);
        answer := Parked;
      case Refuse(reason) =>
        answer := Refused(reason);
      case Fail =>
        answer := Failed;
    }

    /** One call: on from what was stored, phase by phase. It goes along the run
        with no cut from host call `made` to host call `at`, answers what the
        run is there, and pauses only with its own calls spent. */
    method Call(h: Host, o: Options, turn: Turn, ghost run: nat -> Where) returns (answer: Answer, ghost at: nat)
      requires Valid(h, o, run) && IsUncut(h, o, run)
      modifies this
      ensures Valid(h, o, run) && Tells(run(at), answer)
      ensures old(made) <= at <= old(made) + Room(turn, old(stored).None?)
      ensures answer.Paused? ==> at == old(made) + Room(turn, old(stored).None?)
      ensures answer.Parked? ==> turn.parks
      ensures if Final(answer) then Ends(h, o, answer) && stored == old(stored) && made == old(made) else stored.Some? && made == at
    {
      var s, spent, halt;
      s, spent, halt, at := Phases(h, o, turn, Now(), run, made);
      if !halt.Go? {
        answer := Stop(h, o, s, halt, run, at);
        return;
      }
      var out := Finish(h, o, s);
      answer := Reached(out);
    }
  }

  /** Findings kept once and packed. */
  method Finish(h: Host, o: Options, s: State) returns (out: Outcome)
    requires GoodPacking(h, o, s)
    ensures Reaches(h, o, out) && Tells(Done(s), Answer.Reached(out))
  {
    FoundCanonical(h, o, s);
    var kept := Dedupe(s.findings);
    var groups, cuts := Pack(kept, s.window);
    out := Outcome(s.chunks, s.tasks, s.findings, kept, groups);
    assert IsPacked(kept, s.window, groups);
  }

  lemma FoundCanonical(h: Host, o: Options, s: State)
    requires GoodPacking(h, o, s)
    ensures AllCanonical(s.findings)
  {
    if s.tasks != [] {
      var ready: seq<Placed> :| IsReady(h, o, s.tasks, ready) && Found(h, ready, s.findings) && |s.findings| == |ready|;
      forall i | 0 <= i < |s.findings| && HasCites(s.findings[i])
        ensures Canonical(s.findings[i].cites.value)
      {
        assert IsFinding(h, ready[i].child, s.findings[i]);
      }
    }
  }

  /** A call that goes on: its load leaves it host calls, and nothing parks. */
  predicate Prompt(turn: Turn) {
    turn.loads < turn.budget && !turn.parks
  }

  function Prompts(turns: seq<Turn>): nat {
    if turns == [] then 0 else Prompts(turns[..|turns| - 1]) + if Prompt(turns[|turns| - 1]) then 1 else 0
  }

  /** A read that stands before its end has made fewer calls than the run. */
  lemma StandsBefore(h: Host, o: Options, n: nat, at: nat)
    requires EndsAfter(h, o, n) && Uncut(h, o, at).Standing?
    ensures at < n
  {
    if n <= at {
      UncutStays(h, o, n, at);
    }
  }

  /** A read called again and again, whatever each call's budget and parks: an
      answer that ends it is the uncut run's, and if that run is over after `n`
      host calls, `n` calls that go on end the read. */
  method Drive(h: Host, o: Options, turns: seq<Turn>) returns (answer: Answer)
    ensures Final(answer) ==> Ends(h, o, answer) && exists at: nat :: Tells(Uncut(h, o, at), answer)
    ensures forall n: nat :: EndsAfter(h, o, n) && Prompts(turns) >= n ==> Final(answer)
  {
    ghost var run := (n: nat) => Uncut(h, o, n);
    UncutIsRun(h, o, run);
    var read := new Read();
    answer := Paused;
    for i := 0 to |turns|
      invariant fresh(read) && read.Valid(h, o, run) && !Final(answer)
      invariant read.made >= Prompts(turns[..i])
    {
      assert turns[..i + 1][..i] == turns[..i];
      ghost var at;
      answer, at := read.Call(h, o, turns[i], run);
      if Final(answer) {
        RunIsUncut(h, o, run, at);
        return;
      }
    }
    assert turns[..|turns|] == turns;
    RunIsUncut(h, o, run, read.made);
    forall n: nat | EndsAfter(h, o, n)
      ensures Prompts(turns) < n
    {
      StandsBefore(h, o, n, read.made);
    }
  }
}
