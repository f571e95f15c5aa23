/// Two runs worked through: the scheduler reserves more than its pool, and an
/// answer waits behind a paused Job (deploy/house-model/exl3_server.py).

module SchedulerCases {
  import opened Wrappers
  import opened ExecutorRank
  import opened Pages
  import opened SchedulerState
  import opened SchedulerMeasure
  import opened SchedulerTurns

  /** Four places, a pool of ten pages. */
  const LIMITS := Limits(4, 10)
  const SIZES := Sizes(1000, 263, 100, true)

  /** What the answer's prompt is encoded to: one token past what the prompt,
      the thought and the close room hold. */
  const ANSWER_TOKENS: nat := 1000 + 100 + CLOSE_ROOM_TOKENS + 1

  /** A server loads with these limits, and accepts a request of these sizes:
      263 tokens asked for, 100 of them for its thought. */
  lemma Accepted()
    ensures Loads(2048, 0, LIMITS.poolPages * PAGE, LIMITS.maxInFlight)
    ensures Prepare(2048, 1000, Asked(Some(263), None, Some(100)), 512, true) == Some(SIZES)
  {
    WholePagesHold(2048 + 1 + 0 + CLOSE_ROOM_TOKENS);
  }

  const EMPTY := View([], [], map[], map[], 0, {}, 0)

  // A request from its submission to its answer.

  function New(): Request {
    NewRequest(LIMITS, 0, false, SIZES, Work(true, 0, None, 0, false))
  }

  function LetIn(): Request {
    New().(admitted := true, pages := New().need)
  }

  function Reasons(serial: nat): Request {
    LetIn().(phase := Reason, job := Some(serial))
  }

  /** Its thought is over, and its answer waits for pages. */
  function Waiter(): Request {
    LetIn().(phase := Reason, spent := 100, left := 163, grow := Grow(ANSWER_TOKENS, 163, 0, LIMITS.poolPages, New().need))
  }

  lemma WaiterSizes()
    ensures New().need == 5 && Waiter().grow == 1 && Waiter().pages == 5
  {
    WholePagesHold(1280);
    WholePagesHold(1281);
  }

  // Two such requests, step by step.

  lemma {:induction false} Submits()
    ensures var v := Submitted(Submitted(EMPTY, 0, New()), 1, New());
      Inv(v, LIMITS, {}, {}) && v == Queue()
  {
    WaiterSizes();
    SubmitKeeps(EMPTY, LIMITS, 0, New());
    SubmitKeeps(Submitted(EMPTY, 0, New()), LIMITS, 1, New());
  }

  /** Both let in. */
  function In(): View {
    View([], [0, 1], map[0 := LetIn(), 1 := LetIn()], map[], 10, {}, 0)
  }

  function Queue(): View {
    View([0, 1], [], map[0 := New(), 1 := New()], map[], 0, {}, 0)
  }

  /** The first let in. */
  function HalfIn(): View {
    View([1], [0], map[0 := LetIn(), 1 := New()], map[], 5, {}, 0)
  }

  lemma AdmitsFirst()
    ensures Admitted(Queue(), 0) == HalfIn()
  {
    WaiterSizes();
    WithoutFirst([0, 1]);
  }

  lemma AdmitsBoth()
    ensures Admitted(Queue(), 0) == HalfIn() && Admitted(HalfIn(), 1) == In()
  {
    AdmitsFirst();
    WaiterSizes();
    WithoutFirst([1]);
  }

  lemma BothMayEnter()
    ensures MayEnter(Queue(), LIMITS, 0) && MayEnter(HalfIn(), LIMITS, 1)
  {
    WaiterSizes();
  }

  lemma Admits(v: View, w: View, limbo: set<nat>, more: set<nat>, id: nat)
    requires Inv(v, LIMITS, limbo, {}) && MayEnter(v, LIMITS, id) && w == Admitted(v, id) && more == limbo + {id}
    ensures Inv(w, LIMITS, more, {})
  {
    EnterKeeps(v, LIMITS, limbo, id, 0, false);
  }

  lemma AdmitsKeep()
    requires Inv(Queue(), LIMITS, {}, {})
    ensures Inv(In(), LIMITS, {0, 1}, {})
  {
    var none: set<nat>, one: set<nat>, two: set<nat> := {}, {0}, {0, 1};
    assert one == none + {0} && two == one + {1};
    AdmitsBoth();
    BothMayEnter();
    Admits(Queue(), HalfIn(), none, one, 0);
    Admits(HalfIn(), In(), one, two, 1);
  }

  /** A Job enqueued for the first pass. */
  function Started(v: View, id: nat): View
    requires id in v.requests
  {
    Enqueued(Put(v, id, v.requests[id].(phase := Reason)), id)
  }

  /** Both reason. */
  function Running(): View {
    View([], [0, 1], map[0 := Reasons(0), 1 := Reasons(1)], map[0 := 0, 1 := 1], 10, {0, 1}, 2)
  }

  lemma StartKeeps(v: View, limbo: set<nat>, id: nat)
    requires Inv(v, LIMITS, limbo, {}) && id in limbo && id in v.requests && v.requests[id].grow == 0
    ensures Inv(Started(v, id), LIMITS, limbo - {id}, {})
  {
    var r := v.requests[id].(phase := Reason);
    PutKeeps(v, LIMITS, limbo, {}, id, r);
    EnqueueKeeps(Put(v, id, r), LIMITS, limbo, {}, id);
  }

  /** The first started. */
  function HalfRunning(): View {
    View([], [0, 1], map[0 := Reasons(0), 1 := LetIn()], map[0 := 0], 10, {0}, 1)
  }

  lemma StartsBoth()
    ensures Started(In(), 0) == HalfRunning() && Started(HalfRunning(), 1) == Running()
  {
  }

  lemma Starts()
    requires Inv(In(), LIMITS, {0, 1}, {})
    ensures Inv(Running(), LIMITS, {}, {})
  {
    StartsBoth();
    assert {0, 1} - {0} == {1} && {1} - {1} == {};
    StartKeeps(In(), {0, 1}, 0);
    StartKeeps(HalfRunning(), {1}, 1);
  }

  /** A Job that ended, its thought over, the answer sized and not fitting. */
  function Thought(v: View, id: nat): View
    requires id in v.requests && v.requests[id].job.Some?
  {
    var w := Dropped(v, id, v.jobs);
    var r := w.requests[id];
    var spent := r.spent + 100;
    var left := r.sizes.maxTokens - spent;
    if left < 0 then w else
    Put(w, id, r.(spent := spent, left := left, grow := Grow(ANSWER_TOKENS, left, 0, LIMITS.poolPages, r.pages)))
  }

  /** Both answers wait. */
  function Both(): View {
    View([], [0, 1], map[0 := Waiter(), 1 := Waiter()], map[], 10, {}, 2)
  }

  lemma Thinks(v: View, id: nat, gone: set<nat>, rest: set<nat>)
    requires Inv(v, LIMITS, {}, gone) && id in v.active && v.requests[id] == Reasons(id)
    requires gone == {id} + rest && id !in rest
    ensures Inv(Thought(v, id), LIMITS, {}, rest)
  {
    WaiterSizes();
    assert Stands(v, {}, id) && Named(v, id);
    assert v.jobs == (v.bySerial.Keys - {id}) - rest;
    DropKeeps(v, LIMITS, {}, gone, rest, id, v.jobs);
    var w := Dropped(v, id, v.jobs);
    assert {} + {id} == {id} && {id} - {id} == {};
    PutKeeps(w, LIMITS, {id}, rest, id, Waiter());
    Waits(Put(w, id, Waiter()), LIMITS, {id}, rest, id);
  }

  /** A round ended both Jobs. */
  function Ended(): View {
    Running().(jobs := {})
  }

  function HalfThought(): View {
    View([], [0, 1], map[0 := Waiter(), 1 := Reasons(1)], map[1 := 1], 10, {}, 2)
  }

  lemma ThinkBoth()
    ensures Thought(Ended(), 0) == HalfThought() && Thought(HalfThought(), 1) == Both()
  {
    WaiterSizes();
  }

  lemma EndedKeeps()
    requires Inv(Running(), LIMITS, {}, {})
    ensures Inv(Ended(), LIMITS, {}, {0, 1})
  {
    assert {0, 1} - {0, 1} == {};
    LoseKeeps(Running(), LIMITS, {}, {0, 1});
  }

  lemma HalfThoughtKeeps()
    requires Inv(Ended(), LIMITS, {}, {0, 1})
    ensures Inv(HalfThought(), LIMITS, {}, {1})
  {
    ThinkBoth();
    Thinks(Ended(), 0, {0, 1}, {1});
  }

  lemma BothThink()
    requires Inv(Running(), LIMITS, {}, {})
    ensures Inv(Both(), LIMITS, {}, {})
  {
    EndedKeeps();
    HalfThoughtKeeps();
    ThinkBoth();
    Thinks(HalfThought(), 1, {1}, {});
  }

  /** The first forced, and its Job enqueued. */
  function Forced(): View {
    Enqueued(Put(Grown(Both(), 0), 0, Grown(Both(), 0).requests[0].(phase := Answer)), 0)
  }

  lemma Forces()
    ensures Both().reserved == LIMITS.poolPages && PastPool(Both(), LIMITS) && AllMisfit(Both(), LIMITS)
    ensures ForcedFrom(Both(), Forced()) && StillIn(Both(), Forced()) && Forced().reserved == LIMITS.poolPages + 1
  {
    WaiterSizes();
    assert Both().active[0] == 0;
    assert FirstWaiting(Both().requests, Both().active) == Some(0);
  }

  /** From an empty server, two requests accepted, let in, run and ended as the
      code does, their answers' prompts one token past the close room: the
      account is right, the pool is full, neither answer fits and no Job is
      left, so the first is forced and eleven pages of ten are reserved. */
  lemma {:induction false} ForcedGrowthOverbooks()
    ensures Loads(2048, 0, LIMITS.poolPages * PAGE, LIMITS.maxInFlight)
    ensures Prepare(2048, 1000, Asked(Some(263), None, Some(100)), 512, true) == Some(SIZES)
    ensures Submitted(Submitted(EMPTY, 0, New()), 1, New()) == Queue()
    ensures Admitted(Queue(), 0) == HalfIn() && Admitted(HalfIn(), 1) == In()
    ensures Started(In(), 0) == HalfRunning() && Started(HalfRunning(), 1) == Running()
    ensures Thought(Ended(), 0) == HalfThought() && Thought(HalfThought(), 1) == Both()
    ensures Inv(Both(), LIMITS, {}, {}) && Both().reserved == LIMITS.poolPages && PastPool(Both(), LIMITS)
    ensures ForcedFrom(Both(), Forced()) && StillIn(Both(), Forced()) && Forced().reserved == LIMITS.poolPages + 1
  {
    Accepted();
    Submits();
    AdmitsBoth();
    AdmitsKeep();
    StartsBoth();
    Starts();
    ThinkBoth();
    BothThink();
    Forces();
  }

  // The class policy: an answer may wait behind a Job the host paused.

  /** A round ended the first's Job alone. */
  function OneEnded(): View {
    Running().(jobs := {1})
  }

  /** The host resumed the other's. */
  function Resumed(): View {
    View([], [0, 1], map[0 := Waiter(), 1 := Reasons(1)], map[1 := 1], 10, {1}, 2)
  }

  /** And paused it. */
  function Paused(): View {
    View([], [0, 1], map[0 := Waiter(), 1 := Yielded()], map[1 := 1], 10, {1}, 2)
  }

  function Yielded(): Request {
    Reasons(1).(work := New().work.(yielded := true))
  }

  lemma Pauses()
    ensures Thought(OneEnded(), 0) == Resumed() && Put(Resumed(), 1, Yielded()) == Paused()
  {
    WaiterSizes();
  }

  lemma ResumedKeeps()
    requires Inv(Running(), LIMITS, {}, {})
    ensures Inv(Resumed(), LIMITS, {}, {})
  {
    Pauses();
    assert {0, 1} - {0} == {1};
    LoseKeeps(Running(), LIMITS, {}, {0});
    Thinks(OneEnded(), 0, {0}, {});
  }

  lemma PausedKeeps()
    requires Inv(Resumed(), LIMITS, {}, {})
    ensures Inv(Paused(), LIMITS, {}, {})
  {
    Pauses();
    MarkKeeps(Resumed(), LIMITS, 1, Yielded());
  }

  lemma PausedIsStuck(blocked: bool)
    ensures Waiting(Paused()) == {0} && Stuck(Paused(), {0, 1}, LIMITS, true, blocked)
    ensures Known(Resumed().requests, Resumed().ingress) && Known(Resumed().requests, Resumed().active)
    ensures !Stuck(Resumed(), {0, 1}, LIMITS, true, blocked)
  {
    WaiterSizes();
    var v := Paused();
    assert v.requests[0] == Waiter() && 0 in v.active;
    assert Misfit(v, LIMITS, 0) && Misfit(v, LIMITS, 1);
    assert forall s :: s in v.jobs ==> s == 1 && !Runs(v, {0, 1}, s);
    assert 1 in Resumed().jobs && Runs(Resumed(), {0, 1}, 1);
  }

  lemma RunningKeeps()
    ensures Inv(Running(), LIMITS, {}, {})
  {
    Submits();
    AdmitsKeep();
    Starts();
  }

  /** Both Jobs started, one thought over, the other's Job paused: no turn
      changes anything, and the answer waits until the host resumes that
      Job. */
  lemma {:induction false} WaitsBehindPaused(blocked: bool)
    ensures Inv(Paused(), LIMITS, {}, {}) && Waiting(Paused()) == {0}
    ensures Stuck(Paused(), {0, 1}, LIMITS, true, blocked)
    ensures Known(Resumed().requests, Resumed().ingress) && Known(Resumed().requests, Resumed().active)
    ensures !Stuck(Resumed(), {0, 1}, LIMITS, true, blocked)
  {
    RunningKeeps();
    ResumedKeeps();
    PausedKeeps();
    PausedIsStuck(blocked);
  }
}
