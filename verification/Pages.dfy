/// The cache pages a request needs (deploy/house-model/exl3_server.py).

module Pages {
  import opened Bounds
  import opened Wrappers

  const PAGE: nat := 256
  const CLOSE_ROOM_TOKENS: nat := 16
  const MAX_IN_FLIGHT: nat := 4
  const INGRESS_CAPACITY: nat := 4

  /** Whole pages, as the server rounds up: the floor of the negative, negated. */
  function WholePages(tokens: int): int {
    -((-tokens) / PAGE)
  }

  /** The fewest pages that hold the tokens. */
  lemma WholePagesHold(tokens: int)
    ensures (WholePages(tokens) - 1) * PAGE < tokens <= WholePages(tokens) * PAGE
  {
  }

  lemma WholePagesMono(a: int, b: int)
    requires a <= b
    ensures WholePages(a) <= WholePages(b)
  {
    WholePagesHold(a);
    WholePagesHold(b);
  }

  /** A job's pages: its prompt, its output cap, one token and the draft depth. */
  function PagesFor(inputTokens: int, maxNewTokens: int, depth: nat): int {
    WholePages(inputTokens + maxNewTokens + 1 + depth)
  }

  /** The tokens of the pool one full-context request needs alone. */
  function FullRequestPool(context: nat, depth: nat): int {
    WholePages(context + 1 + depth + CLOSE_ROOM_TOKENS) * PAGE
  }

  /** What a server loads with: a pool of at least one full request, in whole
      pages, and one to `MAX_IN_FLIGHT` places. */
  predicate Loads(context: nat, depth: nat, cacheTokens: int, maxInFlight: nat) {
    context % PAGE == 0 && cacheTokens % PAGE == 0 && cacheTokens >= FullRequestPool(context, depth)
    && 1 <= maxInFlight <= MAX_IN_FLIGHT
  }

  /** A prepared request's sizes. */
  datatype Sizes = Sizes(promptTokens: nat, maxTokens: nat, cap: nat, thinking: bool)

  /** The output cap a body asks for, before the context's room bounds it:
      a zero counts as not named, as Python's `or` has it. */
  function AskedTokens(completion: Option<int>, plain: Option<int>, fallback: int): int {
    if completion.Some? && completion.value != 0 then completion.value
    else if plain.Some? && plain.value != 0 then plain.value
    else fallback
  }

  /** A body's numbers: the two names of its output cap, and its thinking
      budget. */
  datatype Asked = Asked(completion: Option<int>, plain: Option<int>, budget: Option<int>)

  /** The sizes of a request the server accepts, or none when it refuses it. */
  function Prepare(context: nat, promptTokens: nat, body: Asked, fallback: int, thinking: bool): (r: Option<Sizes>)
    ensures r.Some? <==> promptTokens < context && AskedTokens(body.completion, body.plain, fallback) >= 1
                         && (body.budget.None? || body.budget.value >= 0)
    ensures r.Some? ==> r.value.promptTokens == promptTokens && r.value.thinking == thinking
    ensures r.Some? ==> 1 <= r.value.maxTokens && promptTokens + r.value.maxTokens <= context
    ensures r.Some? && promptTokens + r.value.maxTokens < context ==>
      r.value.maxTokens == AskedTokens(body.completion, body.plain, fallback)
    ensures r.Some? ==> r.value.cap <= r.value.maxTokens
                        && (r.value.cap < r.value.maxTokens ==> body.budget == Some(r.value.cap))
  {
    var room, asked := context - promptTokens, AskedTokens(body.completion, body.plain, fallback);
    if room < 1 || asked < 1 || (body.budget.Some? && body.budget.value < 0) then None else
    var maxTokens := Min(asked, room);
    Some(Sizes(promptTokens, maxTokens, if body.budget.None? then maxTokens else Min(body.budget.value, maxTokens), thinking))
  }

  /** The pages a request holds through both its passes, before the pool
      bounds them. */
  function Wants(s: Sizes, depth: nat): int {
    PagesFor(s.promptTokens + (if s.thinking then CLOSE_ROOM_TOKENS else 0), s.maxTokens, depth)
  }

  /** What it holds: a request bigger than the pool waits until it is alone. */
  function Need(s: Sizes, depth: nat, pool: nat): (n: nat)
    requires Wants(s, depth) >= 0
    ensures n <= pool
  {
    Min(Wants(s, depth), pool)
  }

  lemma WantsPositive(s: Sizes, depth: nat)
    ensures Wants(s, depth) >= 1
  {
    WholePagesHold(s.promptTokens + (if s.thinking then CLOSE_ROOM_TOKENS else 0) + s.maxTokens + 1 + depth);
  }

  /** Every request the server accepts fits the pool it loaded with, whole:
      the pool never bounds its pages. */
  lemma AcceptedFits(context: nat, depth: nat, cacheTokens: int, maxInFlight: nat, pool: nat,
                     promptTokens: nat, body: Asked, fallback: int, thinking: bool)
    requires Loads(context, depth, cacheTokens, maxInFlight) && pool * PAGE == cacheTokens
    requires Prepare(context, promptTokens, body, fallback, thinking).Some?
    ensures var s := Prepare(context, promptTokens, body, fallback, thinking).value;
      1 <= Wants(s, depth) <= pool && Need(s, depth, pool) == Wants(s, depth)
  {
    var s := Prepare(context, promptTokens, body, fallback, thinking).value;
    WantsPositive(s, depth);
    WholePagesMono(s.promptTokens + (if s.thinking then CLOSE_ROOM_TOKENS else 0) + s.maxTokens + 1 + depth,
                   context + 1 + depth + CLOSE_ROOM_TOKENS);
  }

  /** The pages an answer pass must add to those its request holds. */
  function Grow(answerTokens: nat, left: int, depth: nat, pool: nat, pages: nat): nat {
    Max(0, Min(PagesFor(answerTokens, left, depth), pool) - pages)
  }

  /** An answer whose prompt is within the prompt, what was spent and the close
      room (the prompt itself, with no thought to close) never waits for
      pages. */
  lemma AnswerNeverWaits(s: Sizes, depth: nat, pool: nat, spent: nat, answerTokens: nat)
    requires spent < s.maxTokens
    requires answerTokens <= s.promptTokens + spent + (if s.thinking then CLOSE_ROOM_TOKENS else 0)
    ensures Wants(s, depth) >= 0
    ensures Grow(answerTokens, s.maxTokens - spent, depth, pool, Need(s, depth, pool)) == 0
  {
    WantsPositive(s, depth);
    WholePagesMono(answerTokens + (s.maxTokens - spent) + 1 + depth,
                   s.promptTokens + (if s.thinking then CLOSE_ROOM_TOKENS else 0) + s.maxTokens + 1 + depth);
  }
}
