/// The host a resumable read runs over, the state it is stored as between
/// calls, and the run with no cut, one host call at a time
/// (components/code-run-quickjs/reader_forks.js).

module ReaderHost {
  import opened Bounds
  import opened ReaderCites
  import opened ReaderPack
  import opened Wrappers

  /** The child window a read sizes by when the host names none, in tokens. */
  const FALLBACK_WINDOW_TOKENS: nat := 16384

  datatype Chunk = Chunk(ref: string, start: nat, end: nat)

  datatype ChunkPage = PageWithheld | ChunkPage(chunks: seq<Chunk>, done: bool, next: Option<string>)

  /** Where a stored text is read from: its start, or a cursor a page gave. */
  datatype Selection = Start | From(cursor: string)

  datatype Piece = PieceWithheld | PieceRefused | Piece(text: Option<string>, done: bool, next: Option<string>)

  datatype Child = Child(task: string, ref: string, bytes: nat)

  datatype Settled = Settled(ready: seq<Child>, partial: seq<Child>)

  /** A wait's reply: inline, or stored past one message's size. */
  datatype Reply = Inline(settled: Settled) | Stored(ref: string)

  datatype Request = Request(tasks: seq<string>, count: Option<int>)

  /** A host whose every reply depends on the call's arguments alone. */
  datatype Host = Host(
    can: Option<nat>,
    page: (nat, Option<string>) -> ChunkPage,
    spawn: Chunk -> Option<string>,
    wait: Request -> Reply,
    slice: (string, Selection) -> Piece,
    parseReply: string -> Option<Settled>,
    parseCites: string -> Option<seq<RawCite>>)

  datatype Options = Options(window: Option<int>, nOf: Option<int>)

  function WindowOf(tokens: nat): nat {
    if tokens == 0 then FALLBACK_WINDOW_TOKENS else tokens
  }

  /** Half the child window, which the caller may only lower. */
  function ChunkTokens(window: nat, asked: Option<int>): (tokens: nat)
    ensures tokens <= window / 2
  {
    if asked.Some? && 0 < asked.value < window / 2 then asked.value else window / 2
  }

  function RequestFor(o: Options, tasks: seq<string>): Request {
    Request(tasks, if o.nOf.None? then None else Some(if o.nOf.value < |tasks| then o.nOf.value else |tasks|))
  }

  // What a run with no cut gathers.

  datatype Gather = Going(chunks: seq<Chunk>, cursor: Option<string>) | Whole(chunks: seq<Chunk>) | Barred

  /** The chunks after `k` pages. */
  function ChunkRun(h: Host, size: nat, k: nat): Gather {
    if k == 0 then Going([], None) else
    match ChunkRun(h, size, k - 1)
    case Going(chunks, cursor) => ChunkStep(chunks, h.page(size, cursor))
    case end => end
  }

  function ChunkStep(chunks: seq<Chunk>, page: ChunkPage): Gather {
    match page
    case PageWithheld => Barred
    case ChunkPage(more, done, next) =>
      if done || next.None? then Whole(chunks + more) else Going(chunks + more, next)
  }

  ghost predicate AllChunks(h: Host, size: nat, chunks: seq<Chunk>) {
    exists k: nat :: ChunkRun(h, size, k) == Whole(chunks)
  }

  /** One child for each chunk, in order, up to the first the host refuses. */
  ghost predicate Spawned(h: Host, chunks: seq<Chunk>, tasks: seq<string>) {
    |tasks| <= |chunks| && forall i :: 0 <= i < |tasks| ==> h.spawn(chunks[i]) == Some(tasks[i])
  }

  ghost predicate AllSpawned(h: Host, chunks: seq<Chunk>, tasks: seq<string>) {
    Spawned(h, chunks, tasks) && (|tasks| < |chunks| ==> h.spawn(chunks[|tasks|]).None?)
  }

  datatype Text = More(next: Selection, text: string) | TextWhole(text: string) | TextBarred | TextFailed

  /** A stored reply's text after `k` pages. */
  function TextRun(h: Host, ref: string, k: nat): Text {
    if k == 0 then More(Start, "") else
    match TextRun(h, ref, k - 1)
    case More(next, text) => TextStep(text, h.slice(ref, next))
    case end => end
  }

  function TextStep(text: string, piece: Piece): Text {
    match piece
    case PieceWithheld => TextBarred
    case PieceRefused => TextFailed
    case Piece(more, done, next) =>
      var all := if more.Some? then text + more.value else text;
      if done || next.None? then TextWhole(all) else More(From(next.value), all)
  }

  ghost predicate Settles(h: Host, request: Request, settled: Settled) {
    match h.wait(request)
    case Inline(value) => settled == value
    case Stored(ref) =>
      exists k: nat :: TextRun(h, ref, k).TextWhole? && h.parseReply(TextRun(h, ref, k).text) == Some(settled)
  }

  /** A settled child's chunk: the last with its task, else the first chunk. */
  function PlaceOf(tasks: seq<string>, task: string): nat {
    if tasks == [] then 0
    else if tasks[|tasks| - 1] == task then |tasks| - 1
    else PlaceOf(tasks[..|tasks| - 1], task)
  }

  /** A settled child and the place of the chunk it read. */
  datatype Placed = Placed(child: Child, at: nat)

  function PlacedBy(tasks: seq<string>, found: seq<Child>): (placed: seq<Placed>)
    ensures |placed| == |found|
  {
    seq(|found|, i requires 0 <= i < |found| => Placed(found[i], PlaceOf(tasks, found[i].task)))
  }

  function AtPlace(placed: seq<Placed>, at: nat): seq<Placed> {
    if placed == [] then [] else
    AtPlace(placed[..|placed| - 1], at)
      + (if placed[|placed| - 1].at == at then [placed[|placed| - 1]] else [])
  }

  /** What a stable sort by place gives: the places in order, the children of
      one place as they came. */
  function ByPlace(placed: seq<Placed>, n: nat): seq<Placed> {
    if n == 0 then [] else ByPlace(placed, n - 1) + AtPlace(placed, n - 1)
  }

  function InOrder(tasks: seq<string>, settled: Settled): seq<Placed> {
    ByPlace(PlacedBy(tasks, settled.ready + settled.partial), |tasks| + 1)
  }

  ghost predicate IsReady(h: Host, o: Options, tasks: seq<string>, ready: seq<Placed>) {
    exists settled :: Settles(h, RequestFor(o, tasks), settled) && ready == InOrder(tasks, settled)
  }

  /** The cites a child's result holds: none when it is not one whole text
      that lists them. */
  function CitesOf(h: Host, child: Child): Option<seq<RawCite>> {
    match h.slice(child.ref, Start)
    case Piece(Some(text), true, _) => h.parseCites(text)
    case _ => None
  }

  ghost predicate IsFinding(h: Host, child: Child, f: Finding) {
    f.ref == child.ref && f.bytes == child.bytes &&
    match CitesOf(h, child)
    case None => f.cites == None
    case Some(raw) => f.cites.Some? && Normal(raw, f.cites.value)
  }

  /** The canonical ranges of exactly the offsets the cites hold. */
  ghost predicate Normal(raw: seq<RawCite>, ranges: seq<Range>) {
    Canonical(ranges) && forall p :: Covered(ranges, p) <==> Cited(raw, p)
  }

  ghost predicate Found(h: Host, ready: seq<Placed>, findings: seq<Finding>) {
    |findings| <= |ready| && forall i :: 0 <= i < |findings| ==> IsFinding(h, ready[i].child, findings[i])
  }

  datatype Outcome = Outcome(
    chunks: seq<Chunk>,
    tasks: seq<string>,
    findings: seq<Finding>,
    kept: seq<Item>,
    groups: seq<seq<string>>)

  ghost predicate IsPacked(items: seq<Item>, cap: nat, groups: seq<seq<string>>) {
    exists cuts :: IsGreedy(items, |items|, cap, cuts) && AreRuns(items, |items|, cuts, groups)
  }

  ghost predicate AllFound(h: Host, o: Options, tasks: seq<string>, findings: seq<Finding>) {
    if tasks == [] then findings == [] else
    exists ready :: IsReady(h, o, tasks, ready) && Found(h, ready, findings) && |findings| == |ready|
  }

  ghost predicate Gathered(h: Host, o: Options, chunks: seq<Chunk>, tasks: seq<string>) {
    h.can.Some? && AllChunks(h, SizeOf(h, o), chunks) && AllSpawned(h, chunks, tasks)
  }

  ghost function SizeOf(h: Host, o: Options): nat
    requires h.can.Some?
  {
    ChunkTokens(WindowOf(h.can.value), o.window)
  }

  /** The outcome of the read, whatever its calls were. */
  ghost predicate Reaches(h: Host, o: Options, out: Outcome) {
    && Gathered(h, o, out.chunks, out.tasks)
    && AllFound(h, o, out.tasks, out.findings)
    && out.kept == Kept(out.findings, |out.findings|)
    && IsPacked(out.kept, WindowOf(h.can.value), out.groups)
  }

  datatype Reason = Denied | Tainted | InvalidReply

  ghost predicate ReplyEnds(h: Host, o: Options, end: Text) {
    exists chunks, tasks, ref, k: nat ::
      Gathered(h, o, chunks, tasks) && tasks != [] &&
      h.wait(RequestFor(o, tasks)) == Stored(ref) && TextRun(h, ref, k) == end
  }

  /** Why the read ends refused, whatever its calls were. */
  ghost predicate Refuses(h: Host, o: Options, reason: Reason) {
    match reason
    case Denied => h.can.None?
    case Tainted =>
      h.can.Some? && ((exists k: nat :: ChunkRun(h, SizeOf(h, o), k) == Barred) || ReplyEnds(h, o, TextBarred))
    case InvalidReply =>
      exists text :: h.parseReply(text).None? && ReplyEnds(h, o, TextWhole(text))
  }

  // The read's state, as it is stored between calls.

  datatype Phase = Opening | Chunking | Spawning | Waiting | Reading | Packing

  datatype Progress = Progress(ref: string, next: Selection, text: string)

  datatype State = State(
    phase: Phase,
    window: nat,
    size: nat,
    chunks: seq<Chunk>,
    cursor: Option<string>,
    tasks: seq<string>,
    reply: Option<Progress>,
    ready: seq<Placed>,
    findings: seq<Finding>)

  const FRESH := State(Opening, 0, 0, [], None, [], None, [], [])

  ghost predicate Opened(h: Host, o: Options, s: State) {
    h.can.Some? && s.window == WindowOf(h.can.value) && s.size == SizeOf(h, o)
  }

  ghost predicate GoodChunking(h: Host, o: Options, s: State) {
    Opened(h, o, s) && s.phase == Chunking
    && exists k: nat :: ChunkRun(h, s.size, k) == Going(s.chunks, s.cursor)
  }

  ghost predicate GoodSpawning(h: Host, o: Options, s: State) {
    Opened(h, o, s) && s.phase == Spawning && AllChunks(h, s.size, s.chunks) && Spawned(h, s.chunks, s.tasks)
  }

  ghost predicate GoodWaiting(h: Host, o: Options, s: State) {
    Opened(h, o, s) && s.phase == Waiting && Gathered(h, o, s.chunks, s.tasks) && s.tasks != []
    && (s.reply.Some? ==> Replying(h, o, s.tasks, s.reply.value))
  }

  ghost predicate Replying(h: Host, o: Options, tasks: seq<string>, p: Progress) {
    h.wait(RequestFor(o, tasks)) == Stored(p.ref) && exists k: nat :: TextRun(h, p.ref, k) == More(p.next, p.text)
  }

  ghost predicate GoodReading(h: Host, o: Options, s: State) {
    Opened(h, o, s) && s.phase == Reading && Gathered(h, o, s.chunks, s.tasks) && s.tasks != []
    && IsReady(h, o, s.tasks, s.ready) && Found(h, s.ready, s.findings)
  }

  ghost predicate GoodPacking(h: Host, o: Options, s: State) {
    Opened(h, o, s) && s.phase == Packing && Gathered(h, o, s.chunks, s.tasks) && AllFound(h, o, s.tasks, s.findings)
  }

  /** What every stored state keeps: it is where the run with no cut was. */
  ghost predicate Good(h: Host, o: Options, s: State) {
    match s.phase
    case Opening => true
    case Chunking => GoodChunking(h, o, s)
    case Spawning => GoodSpawning(h, o, s)
    case Waiting => GoodWaiting(h, o, s)
    case Reading => GoodReading(h, o, s)
    case Packing => GoodPacking(h, o, s)
  }

  /** A host call is still to be made where the state stands. */
  predicate Unfinished(s: State) {
    match s.phase
    case Spawning => |s.tasks| < |s.chunks|
    case Reading => |s.findings| < |s.ready|
    case Chunking => true
    case Waiting => true
    case _ => false
  }

  /** Why a phase answers before it is over. */
  datatype Halt = Go | Pause | Park | Refuse(reason: Reason) | Fail

  lemma FindingOnce(h: Host, child: Child, a: Finding, b: Finding)
    requires IsFinding(h, child, a) && IsFinding(h, child, b)
    ensures a == b
  {
    if CitesOf(h, child).Some? {
      CanonicalUnique(a.cites.value, b.cites.value);
    }
  }

  // The run with no cut, one host call at a time.

  /** Where the run stands: before a host call, or over. */
  datatype Where = Standing(s: State) | Done(s: State) | Halted(halt: Halt)

  /** A state once what takes no host call is done. */
  function Rest(s: State): Where {
    match s.phase
    case Spawning => if |s.tasks| < |s.chunks| then Standing(s) else AfterSpawns(s)
    case Reading => if |s.findings| < |s.ready| then Standing(s) else Done(s.(phase := Packing))
    case Packing => Done(s)
    case _ => Standing(s)
  }

  /** Every child spawned that will be. */
  function AllOut(s: State): State {
    s.(phase := if s.tasks == [] then Packing else Waiting, findings := [], reply := None)
  }

  function AfterSpawns(s: State): Where {
    if s.tasks == [] then Done(AllOut(s)) else Standing(AllOut(s))
  }

  /** The settled children to read, in order. */
  function Ordered(s: State, settled: Settled): State {
    s.(phase := Reading, ready := InOrder(s.tasks, settled), findings := [])
  }

  function OpenedState(window: nat, size: nat): State {
    FRESH.(phase := Chunking, window := window, size := size)
  }

  function OpenStep(h: Host, o: Options): Where {
    if h.can.None? then Halted(Refuse(Denied)) else
    Standing(OpenedState(WindowOf(h.can.value), ChunkTokens(WindowOf(h.can.value), o.window)))
  }

  /** A page taken in. */
  function Paged(s: State, page: ChunkPage): Where {
    match page
    case PageWithheld => Halted(Refuse(Tainted))
    case ChunkPage(more, done, next) =>
      if done || next.None? then Rest(s.(chunks := s.chunks + more, phase := Spawning, tasks := []))
      else Standing(s.(chunks := s.chunks + more, cursor := next))
  }

  /** A child spawned, or refused. */
  function SpawnedOne(s: State, task: Option<string>): Where {
    if task.None? then AfterSpawns(s) else Rest(s.(tasks := s.tasks + [task.value]))
  }

  function Waited(s: State, reply: Reply): Where {
    match reply
    case Inline(settled) => Rest(Ordered(s, settled))
    case Stored(ref) => Standing(s.(reply := Some(Progress(ref, Start, ""))))
  }

  /** A page of the stored reply taken in: `end` is its text now. */
  function Replied(h: Host, s: State, ref: string, end: Text): Where {
    match end
    case More(next, text) => Standing(s.(reply := Some(Progress(ref, next, text))))
    case TextFailed => Halted(Fail)
    case TextBarred => Halted(Refuse(Tainted))
    case TextWhole(text) =>
      var value := h.parseReply(text);
      if value.None? then Halted(Refuse(InvalidReply)) else Rest(Ordered(s.(reply := None), value.value))
  }

  /** The one finding a settled child gives. */
  ghost function FindingOf(h: Host, child: Child): Finding {
    if exists f :: IsFinding(h, child, f) then
      var f :| IsFinding(h, child, f);
      f
    else Finding(child.ref, child.bytes, None)
  }

  ghost function StepOn(h: Host, o: Options, s: State): Where {
    match s.phase
    case Opening => OpenStep(h, o)
    case Chunking => Paged(s, h.page(s.size, s.cursor))
    case Spawning => if |s.tasks| < |s.chunks| then SpawnedOne(s, h.spawn(s.chunks[|s.tasks|])) else Rest(s)
    case Waiting =>
      if s.reply.None? then Waited(s, h.wait(RequestFor(o, s.tasks)))
      else Replied(h, s, s.reply.value.ref, TextStep(s.reply.value.text, h.slice(s.reply.value.ref, s.reply.value.next)))
    case Reading =>
      if |s.findings| < |s.ready| then Rest(s.(findings := s.findings + [FindingOf(h, s.ready[|s.findings|].child)])) else Rest(s)
    case Packing => Rest(s)
  }

  /** One host call on, unless it is over. */
  ghost function Onto(h: Host, o: Options, w: Where): Where {
    if w.Standing? then StepOn(h, o, w.s) else w
  }

  /** Where the run with no cut stands after `n` host calls. */
  ghost function Uncut(h: Host, o: Options, n: nat): Where {
    if n == 0 then Standing(FRESH) else Onto(h, o, Uncut(h, o, n - 1))
  }

  lemma {:induction false} UncutStays(h: Host, o: Options, n: nat, m: nat)
    requires n <= m && !Uncut(h, o, n).Standing?
    ensures Uncut(h, o, m) == Uncut(h, o, n)
  {
    if n < m {
      UncutStays(h, o, n, m - 1);
    }
  }

  /** It is over by then. */
  ghost predicate EndsAfter(h: Host, o: Options, n: nat) {
    !Uncut(h, o, n).Standing?
  }

  ghost predicate Follows(h: Host, o: Options, run: nat -> Where, n: nat) {
    run(n + 1) == Onto(h, o, run(n))
  }

  /** `run` is the run with no cut. */
  ghost predicate IsUncut(h: Host, o: Options, run: nat -> Where) {
    run(0) == Standing(FRESH) && forall n: nat :: Follows(h, o, run, n)
  }

  lemma UncutIsRun(h: Host, o: Options, run: nat -> Where)
    requires forall n: nat :: run(n) == Uncut(h, o, n)
    ensures IsUncut(h, o, run)
  {
    forall n: nat
      ensures Follows(h, o, run, n)
    {
      assert run(n + 1) == Uncut(h, o, n + 1);
    }
  }

  lemma {:induction false} RunIsUncut(h: Host, o: Options, run: nat -> Where, n: nat)
    requires IsUncut(h, o, run)
    ensures run(n) == Uncut(h, o, n)
  {
    if n > 0 {
      RunIsUncut(h, o, run, n - 1);
      assert Follows(h, o, run, n - 1);
    }
  }

  lemma RunNext(h: Host, o: Options, run: nat -> Where, n: nat, m: nat, s: State)
    requires IsUncut(h, o, run) && run(n) == Standing(s) && m == n + 1
    ensures run(m) == StepOn(h, o, s)
  {
    assert Follows(h, o, run, n);
  }

  /** Where a phase that answers `halt` with state `s` leaves the run. */
  function Came(s: State, halt: Halt): Where {
    match halt
    case Refuse(_) => Halted(halt)
    case Fail => Halted(halt)
    case _ => Rest(s)
  }

  predicate AtWait(s: State) {
    s.phase == Waiting && s.reply.None?
  }

  /** A phase that stood `at` host calls along the run, its call having made
      `calls0`, made calls on to `calls` and stands at `to`: each took the run
      on but one that parked, and it pauses only with its calls spent, before
      the next. */
  predicate Walks(run: nat -> Where, budget: nat, at: nat, calls0: nat, s: State, calls: nat, halt: Halt, to: nat) {
    && calls0 <= calls <= Max(calls0, budget)
    && to == (if halt.Park? then at + calls - calls0 - 1 else at + calls - calls0)
    && (halt.Pause? ==> calls == Max(calls0, budget) && Unfinished(s))
    && (halt.Park? ==> calls0 < calls && AtWait(s))
    && run(to) == Came(s, halt)
  }
}
