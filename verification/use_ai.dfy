/**
 * The `useAI` composable: the `loading` and `error` state and the `generate`
 * call that posts the request and records the outcome.  The network call is a
 * parameter that maps the request to its outcome.
 */
module UseAI {
  import opened Wrappers
  import G = Generate

  /** The composable's state: the `loading` flag and the `error` slot (`None` is `null`). */
  datatype State = State(loading: bool, error: Option<string>)

  const Initial := State(false, None)

  const FallbackMessage := "Unable to contact the AI service. Please try again."

  /** The arguments of `generate`. */
  datatype Options = Options(template: string, placeholders: seq<G.Entry>, messages: seq<G.ChatMessage>)

  /** The request handed to `$fetch`. */
  datatype FetchRequest = FetchRequest(url: string, httpMethod: string, body: G.Body)

  /** How the request ended: a decoded response, or a rejection with its optional `statusMessage`. */
  datatype FetchOutcome = Resolved(response: G.GenerationResult) | Rejected(statusMessage: Option<string>)

  /** One `generate` call: the request it sent, the state after each step, and its return value. */
  datatype Call = Call(
    request: FetchRequest,
    entered: State,
    settled: State,
    final: State,
    result: Option<G.GenerationResult>)

  /** The user-facing error for a rejection: its status message if non-empty, else the fallback. */
  function ErrorMessage(statusMessage: Option<string>): (m: string)
    ensures m != ""
    ensures Present(statusMessage) ==> m == statusMessage.value
    ensures !Present(statusMessage) ==> m == FallbackMessage
  {
    if Present(statusMessage) then statusMessage.value else FallbackMessage
  }

  /** The POST request built from the arguments. */
  function RequestFor(opts: Options): (req: FetchRequest)
    ensures req.url == "/api/generate" && req.httpMethod == "POST"
    ensures req.body.template == Some(opts.template)
    ensures req.body.placeholders == Some(opts.placeholders)
    ensures req.body.messages == Some(opts.messages)
  {
    FetchRequest("/api/generate", "POST", G.Body(Some(opts.template), Some(opts.placeholders), Some(opts.messages)))
  }

  /** Entering `generate`: busy, and any earlier error cleared. */
  function Enter(s: State): State
  {
    s.(loading := true, error := None)
  }

  /** The `try`/`catch` on the outcome: the state after it and the value returned. */
  function Settle(s: State, outcome: FetchOutcome): (State, Option<G.GenerationResult>)
  {
    match outcome
    case Resolved(response) => (s, Some(response))
    case Rejected(statusMessage) => (s.(error := Some(ErrorMessage(statusMessage))), None)
  }

  /** The `finally` block: no longer busy. */
  function Finish(s: State): State
  {
    s.(loading := false)
  }

  /** One sequential `generate` call from state `s`, with `fetch` answering the request. */
  function Generate(s: State, opts: Options, fetch: FetchRequest -> FetchOutcome): (c: Call)
    ensures c.request == RequestFor(opts)
    ensures c.entered == State(true, None)
    ensures c.settled.loading
    ensures !c.final.loading
    ensures c.final.error == c.settled.error
    ensures fetch(c.request).Resolved? ==> c.result == Some(fetch(c.request).response) && c.final.error.None?
    ensures fetch(c.request).Rejected? ==>
              c.result.None? && c.final.error == Some(ErrorMessage(fetch(c.request).statusMessage))
  {
    var request := RequestFor(opts);
    var entered := Enter(s);
    var (settled, result) := Settle(entered, fetch(request));
    Call(request, entered, settled, Finish(settled), result)
  }

  /** After a call the error slot is filled exactly when no result was returned. */
  lemma ErrorIffNoResult(s: State, opts: Options, fetch: FetchRequest -> FetchOutcome)
    ensures Generate(s, opts, fetch).final.error.Some? <==> Generate(s, opts, fetch).result.None?
  {
  }

  /** The state before the call does not matter: the outcome alone decides the end state and the result. */
  lemma PriorStateForgotten(s1: State, s2: State, opts: Options, fetch: FetchRequest -> FetchOutcome)
    ensures Generate(s1, opts, fetch).final == Generate(s2, opts, fetch).final
    ensures Generate(s1, opts, fetch).result == Generate(s2, opts, fetch).result
  {
  }

  /** Two calls in a row: the second's outcome alone decides the end state; `loading` ends false. */
  lemma SecondCallOverrides(s: State, o1: Options, o2: Options, f1: FetchRequest -> FetchOutcome, f2: FetchRequest -> FetchOutcome)
    ensures Generate(Generate(s, o1, f1).final, o2, f2).final == Generate(Initial, o2, f2).final
  {
  }
}
