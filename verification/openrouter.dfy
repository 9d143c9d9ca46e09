/** The OpenRouter client's request policy: a throttle that spaces requests
    at least two seconds apart, and a retry loop over the outcomes of the
    successive fetches, with its waits; plus the analysis prompt. The fetches
    themselves are a parameter: `fetch(k)` is what attempt `k` gets back. */
module OpenRouter {
  import opened Wrappers
  import opened Strings

  /** Milliseconds required between the starts of two requests. */
  const MinRequestInterval: int := 2000

  /** The number of attempts when the caller gives none. */
  const DefaultRetries: nat := 3

  /** A throttle decision: how long to sleep, and the request time recorded
      afterwards. */
  datatype Throttle = Throttle(wait: int, lastRequestTime: int)

  /** `waitForRateLimit`: sleep for the rest of the interval when the last
      request started less than `MinRequestInterval` ago, then record the
      clock reading `after` taken once the sleep is over. */
  function WaitForRateLimit(last: int, now: int, after: int): (t: Throttle)
    ensures t.lastRequestTime == after
    ensures t.wait >= 0 && now + t.wait >= last + MinRequestInterval
    ensures t.wait == 0 <==> now - last >= MinRequestInterval
    ensures now - last >= 0 ==> t.wait <= MinRequestInterval
    ensures t.wait > 0 ==> now + t.wait == last + MinRequestInterval
  {
    var elapsed := now - last;
    Throttle(if elapsed < MinRequestInterval then MinRequestInterval - elapsed else 0, after)
  }

  /** A response: its status and, for a 429, the `retry-after` header read
      as whole seconds when it is present and non-empty. */
  datatype Reply = Reply(status: int, retryAfter: Option<int>)

  /** What one fetch produced: a response, or a thrown transport error. */
  datatype Outcome = Answered(reply: Reply) | Threw

  /** Why a request failed. */
  datatype Failure = InsufficientCredits | InvalidKey | HttpError(status: int) | NetworkError | MaxRetriesExceeded

  /** How the loop treats one outcome. */
  datatype Step = Accept | RateLimited(retryAfter: Option<int>) | Fail(failure: Failure)

  predicate Ok(status: int) {
    200 <= status <= 299
  }

  /** The checks of the loop body, in order: 429, 402, 401, any other non-OK
      status, then success; a transport error is a failure too. */
  function Classify(o: Outcome): (s: Step)
    ensures s.Accept? <==> o.Answered? && Ok(o.reply.status)
    ensures s.RateLimited? <==> o.Answered? && o.reply.status == 429
    ensures s == Fail(InvalidKey) <==> o.Answered? && o.reply.status == 401
    ensures s == Fail(InsufficientCredits) <==> o.Answered? && o.reply.status == 402
    ensures s != Fail(MaxRetriesExceeded)
  {
    match o
    case Threw => Fail(NetworkError)
    case Answered(r) =>
      if r.status == 429 then RateLimited(r.retryAfter)
      else if r.status == 402 then Fail(InsufficientCredits)
      else if r.status == 401 then Fail(InvalidKey)
      else if !Ok(r.status) then Fail(HttpError(r.status))
      else Accept
  }

  function Pow2(n: nat): (p: nat)
    ensures p >= 1
  {
    if n == 0 then 1 else 2 * Pow2(n - 1)
  }

  function Min(a: int, b: int): int {
    if a <= b then a else b
  }

  /** The sleep after a 429: the server's `retry-after` in milliseconds, or
      an exponential backoff from two seconds capped at thirty. */
  function RateLimitWait(attempt: nat, retryAfter: Option<int>): (w: int)
    ensures retryAfter.None? ==> 2000 <= w <= 30000
    ensures retryAfter.Some? ==> w == retryAfter.value * 1000
  {
    match retryAfter
    case Some(s) => s * 1000
    case None => Min(Pow2(attempt) * 2000, 30000)
  }

  /** The sleep after a failed attempt: exponential from one second, capped
      at ten. */
  function BackoffWait(attempt: nat): (w: int)
    ensures 1000 <= w <= 10000
  {
    Min(Pow2(attempt) * 1000, 10000)
  }

  /** A finished retry loop: the sleeps taken in order, the number of
      fetches made, and the index of the returned response or the failure. */
  datatype Run = Run(waits: seq<int>, fetches: nat, result: Result<nat, Failure>)

  /** The retry loop from `attempt` on. A 429 sleeps and moves on, even on
      the last attempt; any other failure sleeps and moves on, except on the
      last attempt, where it is reported at once. */
  function Attempts(fetch: nat -> Outcome, attempt: nat, retries: nat): (r: Run)
    ensures attempt + r.fetches <= retries || (attempt >= retries && r.fetches == 0)
    ensures r.result.Success? ==>
              && attempt <= r.result.value < retries
              && r.fetches == r.result.value - attempt + 1
              && Classify(fetch(r.result.value)).Accept?
              && forall j :: attempt <= j < r.result.value ==> !Classify(fetch(j)).Accept?
    ensures |r.waits| == if r.result == Failure(MaxRetriesExceeded) then r.fetches else r.fetches - 1
    decreases retries - attempt
  {
    if attempt >= retries then Run([], 0, Failure(MaxRetriesExceeded))
    else match Classify(fetch(attempt))
      case Accept => Run([], 1, Success(attempt))
      case RateLimited(ra) =>
        var rest := Attempts(fetch, attempt + 1, retries);
        Run([RateLimitWait(attempt, ra)] + rest.waits, 1 + rest.fetches, rest.result)
      case Fail(f) =>
        if attempt == retries - 1 then Run([], 1, Failure(f))
        else
          var rest := Attempts(fetch, attempt + 1, retries);
          Run([BackoffWait(attempt)] + rest.waits, 1 + rest.fetches, rest.result)
  }

  /** When the loop has room for an accepted response, that first accepted
      response is the one returned. */
  lemma {:induction false} FirstOkReturned(fetch: nat -> Outcome, attempt: nat, retries: nat, k: nat)
    requires attempt <= k < retries && Classify(fetch(k)).Accept?
    requires forall j :: attempt <= j < k ==> !Classify(fetch(j)).Accept?
    ensures Attempts(fetch, attempt, retries).result == Success(k)
    decreases k - attempt
  {
    if attempt < k {
      FirstOkReturned(fetch, attempt + 1, retries, k);
    }
  }

  /** A failure other than running out of attempts comes only from the last
      attempt: a 401, a 402 or a transport error earlier on is retried. */
  lemma {:induction false} FailuresOnlyAtLastAttempt(fetch: nat -> Outcome, attempt: nat, retries: nat)
    ensures var r := Attempts(fetch, attempt, retries);
            r.result.Failure? && r.result.error != MaxRetriesExceeded ==>
              attempt + r.fetches == retries && Classify(fetch(retries - 1)) == Fail(r.result.error)
    decreases retries - attempt
  {
    if attempt < retries && attempt != retries - 1 {
      FailuresOnlyAtLastAttempt(fetch, attempt + 1, retries);
    }
  }

  /** When every attempt is rate limited, every attempt is made and the call
      ends with 'Max retries exceeded'. */
  lemma {:induction false} AllRateLimited(fetch: nat -> Outcome, attempt: nat, retries: nat)
    requires forall j :: attempt <= j < retries ==> Classify(fetch(j)).RateLimited?
    ensures var r := Attempts(fetch, attempt, retries);
            r.result == Failure(MaxRetriesExceeded) && r.fetches == if attempt <= retries then retries - attempt else 0
    decreases retries - attempt
  {
    if attempt < retries {
      AllRateLimited(fetch, attempt + 1, retries);
    }
  }

  /** Without `retry-after` headers no sleep of the loop exceeds thirty
      seconds. */
  lemma {:induction false} WaitsBounded(fetch: nat -> Outcome, attempt: nat, retries: nat)
    requires forall j :: attempt <= j < retries && Classify(fetch(j)).RateLimited? ==> Classify(fetch(j)).retryAfter.None?
    ensures forall i :: 0 <= i < |Attempts(fetch, attempt, retries).waits| ==>
              1000 <= Attempts(fetch, attempt, retries).waits[i] <= 30000
    decreases retries - attempt
  {
    if attempt < retries {
      WaitsBounded(fetch, attempt + 1, retries);
    }
  }

  /** One call of `makeRequestWithRetry`: the throttle, once, then the loop. */
  datatype Request = Request(throttle: Throttle, run: Run)

  function MakeRequestWithRetry(last: int, now: int, after: int, fetch: nat -> Outcome, retries: nat): (q: Request)
    ensures q.throttle.lastRequestTime == after
    ensures now + q.throttle.wait >= last + MinRequestInterval
    ensures q.run.fetches <= retries
    ensures q.run.result.Success? ==> Classify(fetch(q.run.result.value)).Accept?
  {
    Request(WaitForRateLimit(last, now, after), Attempts(fetch, 0, retries))
  }

  // ---------------------------------------------------------------- prompt

  datatype Role = System | User | Assistant

  datatype Message = Message(role: Role, content: string)

  const SystemPrompt: string :=
    "You are an AI assistant specialized in analyzing e-commerce cart data. You have access to cart information including items, prices, categories, and user behavior patterns.\n\n"
    + "Your role is to:\n- Analyze cart data and provide insights\n- Answer questions about shopping patterns\n- Suggest optimizations for cart abandonment\n- Provide recommendations based on cart contents\n- Help with inventory and sales analysis\n\n"
    + "Always provide clear, actionable insights based on the data provided."

  const DataIntro: string := "Here is the current cart data:\n\n"
  const QuestionIntro: string := "\n\nUser question: "
  const PromptClosing: string := "\n\nPlease analyze this data and provide a helpful response."

  /** `createCartAnalysisPrompt`: the fixed system prompt, then a user
      message carrying the cart data (its JSON text, passed in) and the
      question. */
  function CreateCartAnalysisPrompt(cartJson: string, question: string): (ms: seq<Message>)
    ensures |ms| == 2 && ms[0] == Message(System, SystemPrompt) && ms[1].role == User
    ensures Contains(ms[1].content, question) && Contains(ms[1].content, cartJson)
  {
    var content := DataIntro + cartJson + QuestionIntro + question + PromptClosing;
    ContainsMiddle(DataIntro + cartJson + QuestionIntro, question, PromptClosing);
    ContainsMiddle(DataIntro, cartJson, QuestionIntro + question + PromptClosing);
    assert content == DataIntro + cartJson + (QuestionIntro + question + PromptClosing);
    [Message(System, SystemPrompt), Message(User, content)]
  }
}
