/**
 * The composable talking to the handler: the handler's reply reaches the
 * client as a resolved response or as a rejection carrying the status message.
 */
module ClientServer {
  import opened Wrappers
  import G = Generate
  import U = UseAI

  /**
   * Delivery of a reply over HTTP.  A failure's status message arrives as the
   * rejection's `statusMessage` only when the transport keeps the reason phrase.
   */
  function Deliver(reply: G.Reply, keepsReason: bool): (o: U.FetchOutcome)
    ensures reply.Success? <==> o.Resolved?
    ensures reply.Success? ==> o.response == reply.result
  {
    match reply
    case Success(result) => U.Resolved(result)
    case Failure(_, message) => U.Rejected(if keepsReason then Some(message) else None)
  }

  /** The client's fetch, answered by the handler with the given configuration and collaborators. */
  function ServedBy(
    apiKey: Option<string>,
    stringify: Option<seq<G.Entry>> -> string,
    provider: string -> G.ProviderOutcome,
    parse: string -> Option<seq<G.Entry>>,
    keepsReason: bool): U.FetchRequest -> U.FetchOutcome
  {
    (req: U.FetchRequest) => Deliver(G.Handle(apiKey, Some(req.body), stringify, provider, parse).reply, keepsReason)
  }

  /**
   * Whatever the handler does, the client ends idle, and its error is one of
   * the handler's fixed messages or the client's own fallback.
   */
  lemma ClientErrorIsKnown(
    s: U.State, opts: U.Options, apiKey: Option<string>,
    stringify: Option<seq<G.Entry>> -> string,
    provider: string -> G.ProviderOutcome,
    parse: string -> Option<seq<G.Entry>>,
    keepsReason: bool)
    ensures var c := U.Generate(s, opts, ServedBy(apiKey, stringify, provider, parse, keepsReason));
            && !c.final.loading
            && (c.final.error.Some? ==>
                  c.final.error.value in {G.MissingKeyMessage, G.TemplateRequiredMessage, G.UpstreamMessage, U.FallbackMessage})
  {
  }

  /**
   * An empty template with a configured key: the client gets no result, the
   * provider is not asked, and the error is the handler's message (or the
   * fallback when the reason phrase is lost).
   */
  lemma EmptyTemplateReachesClient(
    s: U.State, opts: U.Options, apiKey: string,
    stringify: Option<seq<G.Entry>> -> string,
    provider: string -> G.ProviderOutcome,
    parse: string -> Option<seq<G.Entry>>,
    keepsReason: bool)
    requires apiKey != "" && opts.template == ""
    ensures var c := U.Generate(s, opts, ServedBy(Some(apiKey), stringify, provider, parse, keepsReason));
            && c.result.None?
            && G.Handle(Some(apiKey), Some(c.request.body), stringify, provider, parse).prompts == []
            && c.final.error == Some(if keepsReason then G.TemplateRequiredMessage else U.FallbackMessage)
  {
  }
}
