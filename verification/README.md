# Oneiron cores in Dafny

Proofs about the dense algorithms and state machines of the Oneiron repository:
the windowed Myers diff and the resumable reads that the code runner gives its
programs, the CTC forced alignment of meeting audio, the EXL3 scheduler and
executor of the house model, and the two streaming forms that must agree with
their whole-text forms whatever pieces they come in.

`dafny verify dfyconfig.toml` checks everything.

## How it is laid out

**Windowed diff** (`components/code-run-quickjs/diff.js`)

- `EditScript`, `Myers`: edit scripts as paths through a grid, the bounded
  greedy search over an array frontier, and the walk back over the saved
  frontiers. The search answers a script of least cost, or nothing exactly when
  the least cost is past 512. The frontier may hold points outside the grid;
  the first to pass both ends is the corner.
- `Lines`, `Decimal`, `Blocks`, `Hunks`, `HunkTexts`: a body's lines, hunk texts
  that read back to the lines they say, alone and joined, blocks of change with
  places in both bodies, and what it is to apply them.
- `Scripts`, `Trimming`, `DiffRange`: a least script of the trimmed core is a
  least script of the whole; its changes merge into hunks with context; past
  the edit limit both sides split in halves. The hunks are a patch through all
  of it.
- `DiffWindows`: both bodies read in lockstep under a budget of host calls, cut
  anywhere, and resumed from the offsets a step answers. A host is a function
  from a side and a line to the pieces it answers, at least one, whose texts
  joined are the window's text unless one of them is withheld.

**Forced alignment** (`scripts/meeting_audio_ctc.py`)

- `CtcLabels`: frame labellings, what they collapse to, and how many frames a
  token list needs.
- `CtcAlign`: the Viterbi recurrence with its back-pointer table and the walk
  back. Scores are exact reals; a cell may also be not finite.
- `CtcWindows`: long audio through the model a window at a time, as the
  recording's own frame grid.

**Resumable reads** (`components/code-run-quickjs/reader_forks.js`)

- `ReaderCites`, `ReaderPack`: cited ranges in canonical form, findings kept
  once by a rendered key, greedy packing, and halving.
- `ReaderHost`, `ReaderPhases`, `ReaderRuns`: the phase machine over a host
  whose replies depend on the call's arguments alone. `ReaderHost.Uncut` is the
  run with no cut, one host call at a time; every stored state is where it
  stands after the host calls made so far, so any two schedules of calls that
  end give the same answer, and calls that go on reach its end.

**Streaming forms** (`deploy/house-model/exl3_tools.py`,
`components/code-run-quickjs/bootstrap.js`)

- `ToolText`, `StreamSplit`: a text's tool-call blocks, and an answer split as
  it streams. What one block reads as is a function the proofs take as given.
- `Framing`: text and bytes in frames of one message, the UTF-8 the host
  joins, and the console's gathered lines.

**Scheduler and executor** (`deploy/house-model/exl3_server.py`,
`deploy/house-model/exl3_executor.py`)

- `Pages`: the arithmetic of cache pages, from the pool a server loads with to
  the pages an answer pass must add. `Bounds` is the lesser and the greater of
  two numbers, `Sequences` how joins of sequences group, `Wrappers` an optional
  value.
- `SchedulerState`, `SchedulerMeasure`, `SchedulerTurns`, `Scheduler`: the owner
  thread as a class over a queue, the requests in flight, the table of Jobs and
  the reserved pages. The Generator refuses, fails, loses and keeps Jobs as it
  likes; what a prompt is encoded to is any function, and handlers are
  arbitrary too. `SchedulerState.Inv` is what every step keeps;
  `SchedulerMeasure` how far each request has to go and what it holds of the
  pool; `SchedulerTurns` what a whole turn, and a run of them, does with both.
- `SchedulerCases`: two runs worked through step by step.
- `ExecutorRank`, `Executor`: the orders work is ranked by, the choice of each
  round's Jobs, and fairness over many rounds.

## Where the code and its comments differ

- `components/code-run-quickjs/diff.js:122-128` says a coarse hunk spans at
  most `DIFF_COARSE_MAX_LINES` lines of a side. The search gives up only past
  512 edits, so a core it gives up on has more than 512 lines and the test for
  a small one never holds: a coarse hunk stands only past the split depth, over
  more than 512 lines (`DiffRange.DiffRange`). A window of at most 4096 lines a
  side never gets that deep, so `diff` itself never makes a coarse hunk.
- The break for a window pair in which no side moved
  (`components/code-run-quickjs/diff.js:376-378`) never fires by lines when
  the host's pieces join to the window's text: an unfinished step always moves
  (`DiffWindows.RunEnds` bounds the steps of a run).
- Two summaries that do not fit the cap together pack into two groups again;
  `ReaderPack.StuckExactly` says exactly when a stage makes no progress.
- Forced growth can take `reserved` past the pool
  (`SchedulerCases.ForcedGrowthOverbooks`, from an empty server). From a kept
  pool it does so exactly when no Job is left, the oldest waiting answer's pages
  do not fit and its start does not fail (`Scheduler.Scheduler.GrowWaiting`). No
  other step of the scheduler passes the pool, and no run does whose answer
  prompts are encoded within the close room (`Scheduler.Events`). Always,
  `reserved` is what the requests in flight hold.
- `deploy/house-model/exl3_server.py:1055` forces an answer once the Generator
  has no Job, and counts the paused ones. Under the class policy an answer may
  so wait behind a Job the host paused, and the owner does not sleep meanwhile
  (`deploy/house-model/exl3_server.py:1001`): turns pass that change nothing
  (`SchedulerCases.WaitsBehindPaused`). `SchedulerTurns.StuckIsOver` says when
  that is all a turn can do; under FIFO it is only once everything is over.
- A streamed answer and the buffered reply to the same text may differ in the
  space at the first call: `deploy/house-model/exl3_tools.py:238-254` sends the
  space before it and `deploy/house-model/exl3_tools.py:199` strips it
  (`StreamSplit.StreamKeepsTrailingSpace`). `StreamSplit.StripJoin` says exactly
  when they agree.

## Model

| member | source | states |
|---|---|---|
| EditScript.ReachDiagonal | components/code-run-quickjs/diff.js:71-89 | A point reached in `d` edits lies on a diagonal of `d`'s parity between `-d` and `d`: the diagonals a round visits are all there are. |
| EditScript.OvershootBounded | components/code-run-quickjs/diff.js:72-84 | A frontier point may pass a side's end, by no more than the edits spent, so every entry fits 32 bits. |
| EditScript.ScriptReaches | components/code-run-quickjs/diff.js:67-70 | Any edit script is a path that reaches the far corner in as many edits as it costs. |
| EditScript.CornerReachable | components/code-run-quickjs/diff.js:67-70 | The far corner is never further than the two bodies have lines together, so a search that may spend that many edits reaches it. |
| Scripts.CornerExactly | components/code-run-quickjs/diff.js:67-70 | The far corner is reached in `d` edits exactly when some script costs `d`: what the search explores is what scripts there are. |
| Myers.GreedyFurthest | components/code-run-quickjs/diff.js:78-84 | The greedy start, slid down its shared lines, is the furthest point of its diagonal reachable in this many edits. |
| Myers.FirstPastIsCorner | components/code-run-quickjs/diff.js:84 | The first point past both ends is the corner itself, though points outside the grid come before it. |
| Myers.CornerUnreached | components/code-run-quickjs/diff.js:74-87 | A round that passes no corner means no script of that cost exists. |
| Myers.PrevPoint | components/code-run-quickjs/diff.js:96-98 | The walk back finds, in each saved frontier, the point the forward pass came from, one edit and a run of shared lines before. |
| Myers.Backtrack | components/code-run-quickjs/diff.js:90-104 | Walking the saved frontiers back spells a script of one body into the other, of as many edits as there were rounds after the first. |
| Myers.Round | components/code-run-quickjs/diff.js:78-85 | One round fills the array frontier with the furthest points of its diagonals, or stops at the corner. |
| Myers.Diff | components/code-run-quickjs/diff.js:71-89 | A script of the two bodies no other script beats, or none exactly when every script costs more than 512; never none for two bodies of at most 512 lines together. |
| Lines.Split | components/code-run-quickjs/diff.js:57-66 | The lines joined are the text; every one but the last ends in its one newline and none is empty. |
| Hunks.BodyRoundTrip | components/code-run-quickjs/diff.js:105-111 | A hunk body's text, missing last newlines marked, reads back to the very lines and signs it was made from. |
| Hunks.PatchApplies | components/code-run-quickjs/diff.js:112-121 | Hunks that are a patch of two bodies, read from their own texts and applied, turn the first into the second. |
| Hunks.PatchOrdered | components/code-run-quickjs/diff.js:112-121 | Such hunks are in order and disjoint on both sides. |
| Hunks.PatchConcat | components/code-run-quickjs/diff.js:141-147 | Patches of two halves put together are a patch of the whole. |
| Blocks.PatchApplies | components/code-run-quickjs/diff.js:129-189 | Changes placed in order with equal lines between them, in equal numbers, replay one body into the other. |
| Scripts.WholeScript | components/code-run-quickjs/diff.js:130-137 | A script of the core with the shared head and tail kept is a script of the whole. |
| Scripts.WholeCost | components/code-run-quickjs/diff.js:130-137 | It costs what the core's script costs. |
| Trimming.LeastWhole | components/code-run-quickjs/diff.js:130-137 | If it is least for the core it is least for the whole: trimming loses no shorter script. |
| DiffRange.ChangeSpans | components/code-run-quickjs/diff.js:148-161 | The change spans are the script's maximal runs of changes, each with its places on both sides. |
| DiffRange.MergeSpans | components/code-run-quickjs/diff.js:163-170 | Spans merge across up to six unchanged lines, and what is left stands further apart than two contexts. |
| DiffRange.RangesPatch | components/code-run-quickjs/diff.js:162-188 | Spans with three lines of context either side are blocks of a patch: disjoint, in order, the lines between them equal. |
| DiffRange.SpanText | components/code-run-quickjs/diff.js:173-182 | A hunk's text is its stretch of the script: context, dropped and added lines, in order. |
| DiffRange.GroupHunks | components/code-run-quickjs/diff.js:148-189 | The hunks of a script answered by the search: ranges and texts of merged spans. |
| DiffRange.DiffRange | components/code-run-quickjs/diff.js:129-189 | The hunks are a patch of the two sides through trimming, merging and half-splits; when some script costs at most 512 the sides do not split and the hunks come from a least one; coarse ones stand only where halving comes to the split depth, over more than 512 lines. |
| DiffRange.WindowDepth | components/code-run-quickjs/diff.js:138-147 | Two sides of a window split at most four deep, whatever their lines: short of the depth a coarse hunk needs. |
| DiffRange.TooFarIsLong | components/code-run-quickjs/diff.js:138-141 | Sides that split have more than 512 lines together. |
| DiffRange.HalfCaps | components/code-run-quickjs/diff.js:22-36 | The bounds on a side of a window after none to four halvings: 4096 lines down to 256. |
| DiffRange.HalfWindow | components/code-run-quickjs/diff.js:142-147 | Both halves of two sides within a depth's bound are within the next depth's. |
| DiffRange.SplitHunks | components/code-run-quickjs/diff.js:142-147 | The two halves' hunks together are a patch of both sides, every one marked an edge. |
| DiffRange.CoarseHunk | components/code-run-quickjs/diff.js:138-141 | A coarse hunk drops one whole side and adds the other, and is itself a patch. |
| DiffWindows.Read | components/code-run-quickjs/diff.js:292-328 | A read's window is whole lines of the body from its start, ended only where the body is, and never empty unless it is. |
| DiffWindows.WindowPair | components/code-run-quickjs/diff.js:334-378 | A window pair, cut to what both reads reached, is diffed into a patch of exactly what the offsets move over, level if they were level. |
| DiffWindows.DiffStep | components/code-run-quickjs/diff.js:262-390 | One step from any cursor answers a patch of both bodies between that cursor and the one it answers; done means both bodies whole, not done means an offset moved. |
| HunkTexts.TextsRoundTrip | components/code-run-quickjs/diff.js:112-121 | The joined text of hunks is read back as each one's header line and body, in order. |
| DiffWindows.StoredReadsBack | components/code-run-quickjs/diff.js:382-390 | A reply too long to show is stored as text, and that text alone turns the old lines into the new. |
| DiffWindows.RunPatches | components/code-run-quickjs/diff.js:331-389 | Over any host paging and any cuts, the hunks of all steps from a fresh start to done are one patch of the bodies, applied they turn the first into the second, and none is coarse. |
| DiffWindows.RunLevel | components/code-run-quickjs/diff.js:336-372 | The two offsets stay equal until one side has ended. |
| DiffWindows.RunEnds | components/code-run-quickjs/diff.js:373-381 | A run from a fresh start has at most one step more than the bodies have lines. |
| CtcLabels.FramesNeeded | scripts/meeting_audio_ctc.py:68-69 | A labelling that collapses to the tokens has a frame for each and one between equal neighbours. |
| CtcLabels.FramesEnough | scripts/meeting_audio_ctc.py:68-69 | With that many frames or more such a labelling exists. |
| CtcAlign.GuardExact | scripts/meeting_audio_ctc.py:68-69 | The guard is exact: a labelling exists if and only if it passes. |
| CtcAlign.BestStep | scripts/meeting_audio_ctc.py:76-81 | The three-way choice at a state is the best over every path that reaches it. |
| CtcAlign.Frame | scripts/meeting_audio_ctc.py:74-82 | One frame fills its row of scores and back-pointers with best paths and the steps they took. |
| CtcAlign.Forward | scripts/meeting_audio_ctc.py:70-83 | Every frame's row does. |
| CtcAlign.WalkBack | scripts/meeting_audio_ctc.py:87-95 | The back-pointers walk the best path, and each token's span is the frames the path spends on it. |
| CtcAlign.TokenSpans | scripts/meeting_audio_ctc.py:55-95 | Which error on which input and success on every other; the spans are ordered, nonempty, with a frame between equal tokens, and their labelling collapses to the tokens with the greatest total emission of all that do. |
| CtcWindows.EmissionsOf | scripts/meeting_audio_ctc.py:115-141 | If each pass emits the rows its samples hold, long audio never raises and row `g` is the window-local frame over the samples from `320 * g`. |
| CtcWindows.WindowsAreTheGrid | scripts/meeting_audio_ctc.py:12-19 | If a frame's row were a function of its own 400 samples alone, the joined rows would be the recording's own frame grid; the model is not such an encoder. |
| ReaderCites.NormaliseCites | components/code-run-quickjs/reader_forks.js:128-148 | Sorted, strictly separated ranges that cover exactly the offsets of the valid cites. |
| ReaderCites.CanonicalUnique | components/code-run-quickjs/reader_forks.js:128-148 | The form is canonical: lists that cover the same offsets are the same list. |
| ReaderCites.IdInjective | components/code-run-quickjs/reader_forks.js:150-159 | No two cite lists render to the same id. |
| ReaderCites.SameIdSameBytes | components/code-run-quickjs/reader_forks.js:150-159 | Two cited findings share an id exactly when they cover the same offsets. |
| ReaderCites.Dedupe | components/code-run-quickjs/reader_forks.js:153-166 | The first finding of each cited set of offsets, in order, with every finding that cites nothing. |
| ReaderPack.Pack | components/code-run-quickjs/reader_forks.js:170-184 | In order, none empty, each within the cap or a single item, and none with room for the item after it. |
| ReaderPack.PackIsLeast | components/code-run-quickjs/reader_forks.js:168-184 | No contiguous partition that keeps the cap has fewer groups. |
| ReaderPack.GreedyUnique | components/code-run-quickjs/reader_forks.js:168-184 | Only one partition is greedy. |
| ReaderPack.StuckExactly | components/code-run-quickjs/reader_forks.js:499-512 | A stage packs to as many groups as it had members exactly when no two neighbours fit the cap together. |
| ReaderPack.Split | components/code-run-quickjs/reader_forks.js:187-193 | The halves are the group, in order, both nonempty when it has more than one member. |
| ReaderPhases.ChunkPhase | components/code-run-quickjs/reader_forks.js:381-394 | However many calls it has, it leaves the chunks of some number of whole pages and the cursor after them, or all chunks. |
| ReaderPhases.SpawnPhase | components/code-run-quickjs/reader_forks.js:396-411 | One child a chunk in order, up to the first refusal, and none spawned twice. |
| ReaderPhases.WaitFor | components/code-run-quickjs/reader_forks.js:231-247 | A stored reply cut mid-way goes on from its page, is parsed only once whole, and is never read as a wait that found nothing. |
| ReaderPhases.OrderIsStableSort | components/code-run-quickjs/reader_forks.js:421-427 | Settled children come each once, by their chunk's place, those of one place as they came. |
| ReaderPhases.ReadPhase | components/code-run-quickjs/reader_forks.js:432-448 | One finding for each settled child, in order, its cites canonical. |
| ReaderPhases.Read.Call | components/code-run-quickjs/reader_forks.js:303-456 | A call goes on along the run with no cut, from host call `made` on, and answers what that run is where it stops: a state it stores, or the run's end. It passes no more host calls than its budget less its loads, or one when the read is fresh, and pauses only once it has passed them all. |
| ReaderPhases.Drive | components/code-run-quickjs/reader_forks.js:303-456 | Over any schedule of budgets, loads and parks, an answer that ends the read is the uncut run's; if that run is over after `n` host calls, any schedule with `n` calls whose load leaves them a host call and which do not park ends the read. |
| ReaderRuns.OneOutcome | components/code-run-quickjs/reader_forks.js:381-456 | Chunks, children, findings, kept list and groups are determined by the host: none taken twice or skipped. |
| ReaderRuns.OneAnswer | components/code-run-quickjs/reader_forks.js:303-456 | Any two runs that end give the same answer, reached, refused for the same reason, or failed. |
| ToolText.ScanRenders | deploy/house-model/exl3_tools.py:176-199 | The blocks found render back to the text, and no marker stands outside them. |
| ToolText.RenderScans | deploy/house-model/exl3_tools.py:176-199 | The text of any well-formed blocks is read as those blocks. |
| ToolText.ParseText | deploy/house-model/exl3_tools.py:165-199 | The loop over the shrinking rest gives the content and calls of the text's blocks, or the text itself when one does not read. |
| ToolText.RenderParses | deploy/house-model/exl3_tools.py:165-199 | With the call markers the rendering of well-formed blocks parses to those blocks' content and calls. |
| StreamSplit.SafeIsFirst | deploy/house-model/exl3_tools.py:238-254 | What may go out ends at the first marker where there is one, and else less than a marker short of the end. |
| StreamSplit.StreamSplitter.Feed | deploy/house-model/exl3_tools.py:238-254 | After any pieces, what is out and what is held depend on the text so far alone. |
| StreamSplit.StreamSplitter.Finish | deploy/house-model/exl3_tools.py:256-265 | The calls are those of the whole text, and the tail is what the held text parses to. With no calls all sent and the tail are the text unchanged; with some they are the whole parse's content exactly when the space between what was sent and the rest is kept. |
| StreamSplit.Stream | deploy/house-model/exl3_tools.py:225-265 | So for every chunking of an answer: content and calls depend on the text alone. |
| StreamSplit.StripJoin | deploy/house-model/exl3_tools.py:199-265 | Stripping only the part after the first marker gives what stripping the whole gives exactly when nothing was before it, or what was starts with no space and no space stands on either side of the join. |
| StreamSplit.StreamKeepsSpace | deploy/house-model/exl3_tools.py:199-265 | For any reader and any one call it reads, text before it with no call marker is streamed as it stands, while the whole parse strips it: the two differ exactly when stripping changes that text. |
| StreamSplit.StreamKeepsTrailingSpace | deploy/house-model/exl3_tools.py:199-265 | So a space before the one call of a text is streamed, and the whole parse strips it, whatever the reader and the block. |
| Framing.WellFormedJoin | components/code-run-quickjs/bootstrap.js:296-299 | Replacing lone surrogates commutes with joining texts no pair stands across. |
| Framing.SendFramed | components/code-run-quickjs/bootstrap.js:303-312 | At least one frame, the caller's flag on the first alone, each at most 349525 units and well formed, joined the well-formed form of the whole. |
| Framing.FramesJoin | components/code-run-quickjs/bootstrap.js:300-312 | The frames' UTF-8 joined is the UTF-8 of their texts joined: no character is split. |
| Framing.SendText | components/code-run-quickjs/bootstrap.js:300-312 | What the host joins is the whole value's UTF-8, and each frame is at most 1 MiB of it. |
| Framing.SendStoreFramed | components/code-run-quickjs/bootstrap.js:315-322 | Byte frames join to the value, all but the last are full, and only the first starts it. |
| Framing.Console.Log | components/code-run-quickjs/bootstrap.js:373-382 | Lines sent and waiting are the lines logged, joined; what waits stays under a frame. |
| Framing.Console.Close | components/code-run-quickjs/bootstrap.js:324-330 | At the step's end the host holds the step's lines joined, well formed, and no frame started them over. |
| Pages.WholePagesHold | deploy/house-model/exl3_server.py:474-482 | The pages counted are the fewest that hold the tokens. |
| Pages.Prepare | deploy/house-model/exl3_server.py:1626-1638 | Which requests are accepted, and their sizes: the first named cap that is not zero, else the default, cut only by the context's room; the thinking budget within it. |
| Pages.AcceptedFits | deploy/house-model/exl3_server.py:225-229 | Every accepted request fits the pool the server loaded with, so the pool never cuts its pages. |
| Pages.AnswerNeverWaits | deploy/house-model/exl3_server.py:1301-1314 | An answer whose prompt is within the prompt, what was spent and the close room needs no more pages. |
| SchedulerState.EndKeeps | deploy/house-model/exl3_server.py:1519-1537 | Giving back a request's pages keeps the account, and its charge is given back once and its handler told once. |
| SchedulerState.AdmitKeeps | deploy/house-model/exl3_server.py:1224-1232 | Admission charges what the request holds, within the places, and a solo request goes in alone. |
| SchedulerState.DropKeeps | deploy/house-model/exl3_server.py:1502-1505 | Dropping a Job leaves every other Job named and held. |
| SchedulerState.EnqueueKeeps | deploy/house-model/exl3_server.py:1292-1299 | A Job enqueued with nothing failing after it is named once, and its request no longer waits. |
| SchedulerState.StrayUnnamed | deploy/house-model/exl3_server.py:1292-1297 | If an evaluator's hook raises once the Generator took the Job, the call ends with no Job to cancel: the Generator keeps one no request names, while the account of pages still holds. |
| SchedulerState.GrowKeeps | deploy/house-model/exl3_server.py:1321-1326 | Growth is charged to the request that grows. |
| SchedulerState.CustodyKeeps | deploy/house-model/exl3_server.py:1492-1501 | A Job the Generator keeps leaves its request charged. |
| SchedulerState.HeadIsAdmissible | deploy/house-model/exl3_server.py:969-992 | With nothing in flight the head of the queue is admissible, under either policy and whatever its size. |
| SchedulerState.HeadIsBest | deploy/house-model/exl3_server.py:960-967 | Under the class policy the head of the queue is not paused and no unpaused request in it ranks before it. |
| SchedulerState.IdleIsEmpty | deploy/house-model/exl3_server.py:994-1005 | The owner sleeps with no Job only when nothing is in flight, nothing is reserved, and no queued request could be a head. |
| SchedulerMeasure.RankFalls | deploy/house-model/exl3_server.py:1050-1087 | Each request goes forward only, from queued to over in at most eight steps: what all have left falls whenever one goes on. |
| SchedulerMeasure.InRoomGrow | deploy/house-model/exl3_server.py:1301-1315 | A request that holds its need, its answer prompt encoded within the close room, sizes an answer that waits for no pages. |
| SchedulerTurns.ForcedPasses | deploy/house-model/exl3_server.py:1055-1061 | Forcing the oldest waiting answer takes a kept pool past its size exactly when no Job is left, its pages do not fit and its start does not fail. |
| SchedulerTurns.StuckIsOver | deploy/house-model/exl3_server.py:994-1005 | Once a turn finds nothing to do, all is over; or under the class policy the host paused every Job in flight, or with no Job the whole queue: some request not over is paused. |
| SchedulerCases.ForcedGrowthOverbooks | deploy/house-model/exl3_server.py:1055-1061 | Two requests from submission to their answers, each prompt encoded one token past the close room, end with eleven pages of ten reserved, though the server loads with that pool and accepts those sizes. |
| SchedulerCases.WaitsBehindPaused | deploy/house-model/exl3_server.py:1055-1068 | Under the class policy an answer waits behind a paused Job and no turn changes anything until the host resumes it. |
| Scheduler.Scheduler.DropJob | deploy/house-model/exl3_server.py:1484-1505 | True exactly when the Generator no longer holds the Job; else the request is in custody. |
| Scheduler.Scheduler.Release | deploy/house-model/exl3_server.py:1519-1537 | The request leaves its place and its pages leave the account, once. |
| Scheduler.Scheduler.Fail | deploy/house-model/exl3_server.py:1471-1482 | The request is over, or in custody with its Job still the Generator's. |
| Scheduler.Scheduler.TryAnswer | deploy/house-model/exl3_server.py:1317-1336 | It waits, unchanged, exactly when its growth does not fit and is not forced; else it has a Job or is over. |
| Scheduler.Scheduler.BeginAnswer | deploy/house-model/exl3_server.py:1301-1315 | With no token left the request ends; a prompt that does not encode raises and changes nothing; else its answer starts, waits for pages or fails. No request goes back, the pool is passed by none of it, and an answer in room holds no more. |
| Scheduler.Scheduler.EndPhase | deploy/house-model/exl3_server.py:1390-1418 | A pass that ended ends the request, unless it was a thought that closed or was cut short of the cap with a token left: then the answer begins. |
| Scheduler.Scheduler.RouteOne | deploy/house-model/exl3_server.py:1338-1374 | A result of no known Job, or of one that goes on, changes nothing; the end of a Job in custody or failed ends its request, and any other is followed by the answer or the end. Its request goes on in every case. |
| Scheduler.Scheduler.Route | deploy/house-model/exl3_server.py:1338-1374 | A round's results in order: a request goes on when a Job ended, and nothing changes when none did. |
| Scheduler.Scheduler.GrowWaiting | deploy/house-model/exl3_server.py:1050-1061 | Every waiting answer is tried in order, then with no Job left the oldest is forced. Some request goes on, unless no answer fits and a Job is left or none waits: then nothing changes. From a kept pool it passes the pool exactly as forcing does, and never otherwise. |
| Scheduler.Scheduler.ReapCancelled | deploy/house-model/exl3_server.py:1089-1101 | No cancelled request is left in flight but in custody; with none to reap nothing changes. |
| Scheduler.Scheduler.TakeIn | deploy/house-model/exl3_server.py:1223-1232 | Someone is let in exactly when the head of the queue is admissible, within the pool; under FIFO what is admitted is a front of the queue, in order. |
| Scheduler.Scheduler.Admit | deploy/house-model/exl3_server.py:1215-1260 | Who is let in is started: a request goes on exactly when the head was admissible, and else nothing changes. |
| Scheduler.Scheduler.Round | deploy/house-model/exl3_server.py:1066-1079 | The Generator runs exactly when it has a Job the policy may run, and then one round. If that round ended a Job a request goes on; if it ended none nothing changed; if it faulted every request with a Job is over or in custody. The pool is not passed. |
| Scheduler.Scheduler.Turn | deploy/house-model/exl3_server.py:1007-1041 | A turn that finds nothing to do changes nothing and runs no round. Any other runs at most one round of the Generator, none only if it leaves no Job the policy may run, and takes a request on or leaves nothing to do, unless that round ended no Job; with nobody to reap it takes one on exactly when there was something to do. The invariant holds even when a pass raises in the midst of a step. No request's handler is told its end without a cause (`Scheduler.EndsHaveCause`). |
| Scheduler.Scheduler.Submit | deploy/house-model/exl3_server.py:693-722 | A request is queued last with the pages it will hold, and under FIFO the queue stays within its capacity. |
| Scheduler.Scheduler.Shutdown | deploy/house-model/exl3_server.py:1539-1559 | Every request known was told its end exactly once, and what is still charged is in custody. |
| Scheduler.Step | deploy/house-model/exl3_server.py:1007-1041 | An event does what it says: an arrival is queued last unless it is known or the queue is full for it, a mark sets one request's flags, a turn is `Turn`'s. |
| Scheduler.Events | deploy/house-model/exl3_server.py:1007-1041 | Every event does what it says; at each moment between them the account is right and no request known before is forgotten; if every answer prompt is encoded within the close room no more is ever reserved than the pool has. |
| Scheduler.EndsHaveCause | deploy/house-model/exl3_server.py:1007-1103 | Over every run a request's handler is told its end only in a turn, and there only if the request was cancelled, it was queued and its first pass could not begin, its Job was refused or could not be made, its Job ended in the turn's round, it had a Job and the round faulted, or it was in flight and the prompt of an answer that followed the round did not encode. |
| Scheduler.Serve | deploy/house-model/exl3_server.py:1007-1041 | Over every run of events, once shut down, every request known at any moment of the run has been told its end exactly once; with answers in room the pool was kept. |
| Scheduler.Settle | deploy/house-model/exl3_server.py:1050-1087 | Over turns alone all is over once there are eight turns for each request and one for each idle one. The idle ones are exactly the rounds the Generator ran that ended no Job and the turns that leave every Job paused by the host, or with none the queue. Under FIFO, or with no request paused at the start, none is the latter: if every round ends a Job eight turns a request end them all. |
| ExecutorRank.RankIsTotal | deploy/house-model/exl3_executor.py:213-217 | The admission rank is a strict total order on calls of different arrivals. |
| ExecutorRank.BestIsFirst | deploy/house-model/exl3_executor.py:351-360 | The chosen background Job is the first of a stable sort by its order. |
| ExecutorRank.EachRunsOnce | deploy/house-model/exl3_executor.py:351-360 | Over any as many rounds as there are background Jobs alike in priority and deadline, each runs exactly once, whenever each had last run. |
| Executor.Executor.Choose | deploy/house-model/exl3_executor.py:466-504 | A round runs every unpaused foreground Job and, while foreground work is present, the first background Job alone; every Job's record and prefill bound follow. |
| Executor.Rounds | deploy/house-model/exl3_executor.py:466-504 | Over as many rounds as there are background Jobs each of them has run once more and each foreground Job in every round. |

## Left out

- Scheduler.Scheduler: requests are records in a table the scheduler holds, not objects its handlers share, so aliasing of a request between threads is not captured; a request named by a number stands for the object.
- Scheduler.Scheduler.Submit: the wait for an ingress place is not modelled; a full queue answers that nothing was queued.
- Scheduler.Scheduler.Release: the wait behind a solo request, receipts and statistics are bookkeeping and are not kept.
- Scheduler.Generator: Jobs are serials; a result that replaces a Job's object under its serial changes nothing here.
- Scheduler.Scheduler.Round: which Jobs a round runs and ends is the Generator's; the choice among them is in the executor's part, and the two are not joined, so how many rounds a Job takes to end is not bounded and a round that ends none counts as idle.
- Scheduler.Scheduler.Turn: the waits between turns, and chores, asks and commits.
- SchedulerState.EnqueueKeeps: an evaluator's calls (`deploy/house-model/exl3_evaluator.py:181-185`) are not requests of this machine; what its hook's raise leaves is `SchedulerState.StrayUnnamed` alone.
- CtcWindows.WindowsAreTheGrid: the source's model attends across the frames of a window, so a row depends on more than its own samples; how far the joined rows are then from those of one pass is not modelled.
- ReaderPhases.Drive: a host that pages without end has no run that is over, and no schedule ends the read.
- Executor.Job: a Job carries its own record; the record two passes of one call share is not modelled, nor Jobs with no context, nor grants and updates of a call's standing (`deploy/house-model/exl3_executor.py:397-455`).
- Executor.Executor.Choose: with the one background place the source sets, the sorted front is the first in order; times are not kept.
- The session layer, snapshots and commits: `sessions` is None throughout.
- ReaderPhases.Read.Call: the summarize and store stages are not modelled past packing and splitting; they need not end. The state is taken to read back as it was stored; a host call that throws otherwise than by parking ends the call with nothing saved.
- ReaderHost.Host: the children's cutoff in a wait, the byte bound of chunks and the effort of summaries are part of the host's arguments and are not named.
- DiffWindows.DiffStep: byte windows (`byteRuns`, base64, UTF-8 and hex) are not modelled; text length is in characters.
- CtcAlign.TokenSpans: rounding of floating-point scores is not modelled; `transcript_tokens` and the milliseconds of `word_spans` are left out.
- ToolText.ParseText: JSON, argument typing and call ids; what a block's text reads as is arbitrary.
- Framing.SendFramed: the host calls themselves; a send is the frame it carries.
- Proposed files, output paths and the rest of the program's globals in `components/code-run-quickjs/bootstrap.js`.
- Locks, threads, clocks, HTTP, sockets, models and templates.
