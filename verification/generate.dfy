/**
 * The `POST /api/generate` handler: request validation, prompt assembly,
 * extraction of the provider's text output, and rendering of the summary of
 * filled placeholders.  The provider call, JSON serialization and JSON
 * parsing are parameters of the handler.
 */
module Generate {
  import opened Wrappers
  import opened Text

  datatype Role = User | Assistant | System

  /** The role as it travels on the wire. */
  function RoleName(r: Role): string
  {
    match r
    case User => "user"
    case Assistant => "assistant"
    case System => "system"
  }

  datatype ChatMessage = ChatMessage(role: Role, content: string, createdAt: string)

  /** One placeholder name with its value; a placeholder map is a list of these in entry order. */
  type Entry = (string, string)

  /** The request body; any field (or the whole body) may be missing. */
  datatype Body = Body(
    template: Option<string>,
    placeholders: Option<seq<Entry>>,
    messages: Option<seq<ChatMessage>>)

  datatype GenerationResult = GenerationResult(placeholders: seq<Entry>, assistantMessage: string)

  /** What the handler answers: the result, or an HTTP error status with its status message. */
  datatype Reply = Success(result: GenerationResult) | Failure(status: nat, message: string)

  const MissingKeyMessage := "Missing OpenAI API key. Set OPENAI_API_KEY in your environment."
  const TemplateRequiredMessage := "Template is required."
  const UpstreamMessage := "Failed to generate placeholder values. Please try again."
  const NoConversation := "No conversation provided."
  const NoPlaceholders := "No placeholders were filled."

  // ---------------------------------------------------------------------------
  // Conversation rendering

  /** The upper-cased role names. */
  lemma UpperRoleNames()
    ensures Upper(RoleName(User)) == "USER"
    ensures Upper(RoleName(Assistant)) == "ASSISTANT"
    ensures Upper(RoleName(System)) == "SYSTEM"
  {
  }

  /** `ROLE: content` for one message. */
  function Line(m: ChatMessage): string
  {
    Upper(RoleName(m.role)) + ": " + m.content
  }

  function Lines(messages: seq<ChatMessage>): (ls: seq<string>)
    ensures |ls| == |messages|
    ensures forall i :: 0 <= i < |messages| ==> ls[i] == Line(messages[i])
  {
    seq(|messages|, i requires 0 <= i < |messages| => Line(messages[i]))
  }

  /** `formatConversation`: one line per message, or the fallback when there are none. */
  function FormatConversation(messages: Option<seq<ChatMessage>>): (r: string)
    ensures r != ""
    ensures messages.None? || |messages.value| == 0 ==> r == NoConversation
    ensures messages.Some? && |messages.value| > 0 ==> Line(messages.value[0]) <= r
    ensures messages.Some? && |messages.value| > 0 ==> EndsWith(r, Line(messages.value[|messages.value| - 1]))
  {
    if messages.None? || |messages.value| == 0 then NoConversation
    else
      JoinShape(Lines(messages.value), "\n");
      Join(Lines(messages.value), "\n")
  }

  /** The rendered conversation is the fallback exactly when there is no message. */
  lemma ConversationFallbackIff(messages: Option<seq<ChatMessage>>)
    ensures FormatConversation(messages) == NoConversation <==> messages.None? || |messages.value| == 0
  {
  }

  /** A message line has a newline only where its content has one. */
  lemma LineWithoutNewline(m: ChatMessage)
    requires '\n' !in m.content
    ensures '\n' !in Line(m)
  {
    UpperRoleNames();
    var tag := Upper(RoleName(m.role));
    assert '\n' !in tag;
    assert forall ch :: ch in Line(m) ==> ch in tag || ch in ": " || ch in m.content;
  }

  /**
   * When no message content contains a newline, the rendered conversation has
   * exactly one line per message, in order, each `ROLE: content`.
   */
  lemma ConversationLines(messages: seq<ChatMessage>)
    requires |messages| > 0
    requires forall i :: 0 <= i < |messages| ==> '\n' !in messages[i].content
    ensures Split(FormatConversation(Some(messages)), '\n') == Lines(messages)
    ensures |Split(FormatConversation(Some(messages)), '\n')| == |messages|
  {
    var ls := Lines(messages);
    forall i | 0 <= i < |ls|
      ensures '\n' !in ls[i]
    {
      LineWithoutNewline(messages[i]);
    }
    SplitJoin(ls, '\n');
  }

  /**
   * The rendering grows message by message, whatever the contents: a single
   * message is its line, and one more message adds a newline and its line.
   */
  lemma ConversationAppend(messages: seq<ChatMessage>, m: ChatMessage)
    ensures FormatConversation(Some([m])) == Line(m)
    ensures |messages| > 0 ==>
              FormatConversation(Some(messages + [m])) == FormatConversation(Some(messages)) + "\n" + Line(m)
  {
    if |messages| > 0 {
      assert Lines(messages + [m]) == Lines(messages) + [Line(m)];
      JoinAppend(Lines(messages), Line(m), "\n");
    }
  }

  // ---------------------------------------------------------------------------
  // Prompt assembly

  const Preamble := "Fill the following placeholders based on the user input.\n"
  const TemplateHeading := "Template:\n"
  const ExistingHeading := "Existing placeholder values (if any): "
  const ContextHeading := "User context: "
  const Closing := "Return valid JSON with placeholder names as keys and filled values as strings."

  /** Where the template starts in the prompt. */
  const TemplateOffset := |Preamble| + |TemplateHeading|

  /**
   * The user prompt: five segments in a fixed order — the preamble, the
   * template, the serialized placeholder values, the rendered conversation
   * and the closing instruction.
   */
  function BuildPrompt(template: string, placeholdersJson: string, conversation: string): (p: string)
    ensures Preamble <= p
    ensures OccursAt(TemplateHeading, p, |Preamble|)
    ensures OccursAt(template, p, TemplateOffset)
    ensures OccursAt(ExistingHeading + placeholdersJson + "\n", p, TemplateOffset + |template| + 1)
    ensures OccursAt(ContextHeading + conversation + "\n", p,
                     TemplateOffset + |template| + 1 + |ExistingHeading| + |placeholdersJson| + 1)
    ensures EndsWith(p, Closing)
    ensures |p| == TemplateOffset + |template| + 1 + |ExistingHeading| + |placeholdersJson| + 1
                   + |ContextHeading| + |conversation| + 1 + |Closing|
  {
    var templateSegment := TemplateHeading + template + "\n";
    var existingSegment := ExistingHeading + placeholdersJson + "\n";
    var contextSegment := ContextHeading + conversation + "\n";
    FivePieces(Preamble, templateSegment, existingSegment, contextSegment, Closing);
    assert OccursAt(TemplateHeading, templateSegment, 0);
    OccursWithin(TemplateHeading, templateSegment, Preamble + templateSegment + existingSegment + contextSegment + Closing, 0, |Preamble|);
    OccursInConcat(TemplateHeading, template, "\n");
    OccursWithin(template, templateSegment, Preamble + templateSegment + existingSegment + contextSegment + Closing, |TemplateHeading|, |Preamble|);
    Preamble + templateSegment + existingSegment + contextSegment + Closing
  }

  /** The template can be read back from the prompt: different templates give different prompts. */
  lemma PromptDeterminesTemplate(t1: string, t2: string, json: string, conversation: string)
    requires BuildPrompt(t1, json, conversation) == BuildPrompt(t2, json, conversation)
    ensures t1 == t2
  {
  }

  // ---------------------------------------------------------------------------
  // Provider output

  /** A content part of an output item; `text` is absent for part types that carry none. */
  datatype Content = Content(kind: string, text: Option<string>)

  /** An output item: a `message` item with its content parts, or an item of any other type. */
  datatype OutputItem = MessageItem(content: seq<Content>) | OtherItem

  /** The provider's response: the convenience `output_text` and the optional item list. */
  datatype ProviderResponse = ProviderResponse(outputText: string, output: Option<seq<OutputItem>>)

  /** The abstract outcome of the provider call. */
  datatype ProviderOutcome = ProviderFailed | ProviderOk(response: ProviderResponse)

  /** `filter(type === 'output_text').map(text or '')` over the content of one message item. */
  function ContentTexts(content: seq<Content>): seq<string>
  {
    if |content| == 0 then []
    else
      var head := if content[0].kind == "output_text" then [content[0].text.GetOr("")] else [];
      head + ContentTexts(content[1..])
  }

  /** The `flatMap` over the output items: message items give their texts, others nothing. */
  function ItemTexts(items: seq<OutputItem>): seq<string>
  {
    if |items| == 0 then []
    else
      var head := match items[0]
        case MessageItem(content) => ContentTexts(content)
        case OtherItem => [];
      head + ItemTexts(items[1..])
  }

  /**
   * The text output: `output_text` when non-empty, else the joined texts of the
   * items, or nothing when the item list is absent as well.
   */
  function ExtractText(resp: ProviderResponse): (t: Option<string>)
    ensures resp.outputText != "" ==> t == Some(resp.outputText)
    ensures resp.outputText == "" && resp.output.None? ==> t.None?
    ensures resp.outputText == "" && resp.output.Some? ==> t == Some(MessageText(resp.output.value))
  {
    if resp.outputText != "" then Some(resp.outputText)
    else match resp.output
      case None => None
      case Some(items) =>
        ItemTextsJoin(items);
        Some(Join(ItemTexts(items), ""))
  }

  /** Reference reading of the item scan: text of the `output_text` parts, part by part. */
  function PartsText(content: seq<Content>): string
  {
    if |content| == 0 then ""
    else (if content[0].kind == "output_text" then content[0].text.GetOr("") else "")
         + PartsText(content[1..])
  }

  /** Reference reading of the item scan: text of the message items, item by item. */
  function MessageText(items: seq<OutputItem>): string
  {
    if |items| == 0 then ""
    else (if items[0].MessageItem? then PartsText(items[0].content) else "")
         + MessageText(items[1..])
  }

  lemma {:induction false} ContentTextsJoin(content: seq<Content>)
    ensures Join(ContentTexts(content), "") == PartsText(content)
  {
    if |content| > 0 {
      ContentTextsJoin(content[1..]);
      var head := if content[0].kind == "output_text" then [content[0].text.GetOr("")] else [];
      JoinEmptyAppend(head, ContentTexts(content[1..]));
    }
  }

  /** The source's flatMap-then-join pipeline agrees with the item-by-item reading. */
  lemma {:induction false} ItemTextsJoin(items: seq<OutputItem>)
    ensures Join(ItemTexts(items), "") == MessageText(items)
  {
    if |items| > 0 {
      ItemTextsJoin(items[1..]);
      var head := match items[0]
        case MessageItem(content) => ContentTexts(content)
        case OtherItem => [];
      JoinEmptyAppend(head, ItemTexts(items[1..]));
      if items[0].MessageItem? {
        ContentTextsJoin(items[0].content);
      }
    }
  }

  /** The text of consecutive item lists is the concatenation of their texts. */
  lemma {:induction false} MessageTextAppend(a: seq<OutputItem>, b: seq<OutputItem>)
    ensures MessageText(a + b) == MessageText(a) + MessageText(b)
  {
    if |a| == 0 {
      assert a + b == b;
    } else {
      MessageTextAppend(a[1..], b);
      assert (a + b)[1..] == a[1..] + b;
    }
  }

  /** An item that is not a message contributes nothing, wherever it stands. */
  lemma NonMessageItemIgnored(a: seq<OutputItem>, b: seq<OutputItem>)
    ensures MessageText(a + [OtherItem] + b) == MessageText(a + b)
  {
    MessageTextAppend(a + [OtherItem], b);
    MessageTextAppend(a, [OtherItem]);
    MessageTextAppend(a, b);
  }

  /** A content part that is not `output_text` contributes nothing, wherever it stands. */
  lemma {:induction false} OtherContentIgnored(a: seq<Content>, c: Content, b: seq<Content>)
    requires c.kind != "output_text"
    ensures PartsText(a + [c] + b) == PartsText(a + b)
  {
    if |a| == 0 {
      assert (a + [c] + b)[1..] == b;
      assert a + b == b;
    } else {
      OtherContentIgnored(a[1..], c, b);
      assert (a + [c] + b)[1..] == a[1..] + [c] + b;
      assert (a + b)[1..] == a[1..] + b;
    }
  }

  // ---------------------------------------------------------------------------
  // Summary of the filled placeholders

  function SummaryLine(e: Entry): string
  {
    "{{" + e.0 + "}}: " + e.1
  }

  function SummaryLines(entries: seq<Entry>): (ls: seq<string>)
    ensures |ls| == |entries|
    ensures forall i :: 0 <= i < |entries| ==> ls[i] == SummaryLine(entries[i])
  {
    seq(|entries|, i requires 0 <= i < |entries| => SummaryLine(entries[i]))
  }

  /** The assistant message: one `{{key}}: value` line per entry, or the fallback when that is empty. */
  function Summary(entries: seq<Entry>): (r: string)
    ensures r != ""
    ensures |entries| == 0 ==> r == NoPlaceholders
    ensures |entries| > 0 ==> "{{" <= r
    ensures |entries| > 0 ==> EndsWith(r, SummaryLine(entries[|entries| - 1]))
  {
    var joined := Join(SummaryLines(entries), "\n");
    if joined == "" then NoPlaceholders
    else
      if |entries| > 0 then JoinShape(SummaryLines(entries), "\n"); joined
      else joined
  }

  /**
   * The summary grows entry by entry, whatever the keys and values: a single
   * entry is its line, and one more entry adds a newline and its line.
   */
  lemma SummaryAppend(entries: seq<Entry>, e: Entry)
    ensures Summary([e]) == SummaryLine(e)
    ensures |entries| > 0 ==> Summary(entries + [e]) == Summary(entries) + "\n" + SummaryLine(e)
  {
    assert SummaryLines([e]) == [SummaryLine(e)];
    if |entries| > 0 {
      assert SummaryLines(entries + [e]) == SummaryLines(entries) + [SummaryLine(e)];
      JoinAppend(SummaryLines(entries), SummaryLine(e), "\n");
      JoinPrefix(SummaryLines(entries), "\n");
      JoinPrefix(SummaryLines(entries + [e]), "\n");
    }
  }

  /** The summary is the fallback exactly when no placeholder was filled. */
  lemma SummaryFallbackIff(entries: seq<Entry>)
    ensures Summary(entries) == NoPlaceholders <==> |entries| == 0
  {
    if |entries| > 0 {
      assert Summary(entries)[0] == '{';
    }
  }

  /**
   * When no key or value contains a newline, the summary has exactly one
   * line per entry, in entry order, each `{{key}}: value`.
   */
  lemma SummaryRoundTrip(entries: seq<Entry>)
    requires |entries| > 0
    requires forall i :: 0 <= i < |entries| ==> '\n' !in entries[i].0 && '\n' !in entries[i].1
    ensures Split(Summary(entries), '\n') == SummaryLines(entries)
    ensures forall i :: 0 <= i < |entries| ==>
              Split(Summary(entries), '\n')[i] == "{{" + entries[i].0 + "}}: " + entries[i].1
  {
    var ls := SummaryLines(entries);
    forall i | 0 <= i < |ls|
      ensures '\n' !in ls[i]
    {
      assert ls[i] == "{{" + entries[i].0 + "}}: " + entries[i].1;
    }
    assert Join(ls, "\n") != "" by {
      JoinShape(ls, "\n");
      assert ls[0] <= Join(ls, "\n");
    }
    SplitJoin(ls, '\n');
  }

  // ---------------------------------------------------------------------------
  // The handler

  /** Replies the handler can give; none carries text that came from the provider. */
  predicate FixedFailure(r: Reply)
  {
    || r == Failure(500, MissingKeyMessage)
    || r == Failure(400, TemplateRequiredMessage)
    || r == Failure(502, UpstreamMessage)
  }

  /** Whether the provider outcome carries a usable text output. */
  predicate HasText(outcome: ProviderOutcome)
  {
    outcome.ProviderOk? && Present(ExtractText(outcome.response))
  }

  /**
   * The `try` block after the provider call: extraction, parsing and the
   * summary; every failure in it becomes the one generic 502.
   */
  function Upstream(outcome: ProviderOutcome, parse: string -> Option<seq<Entry>>): (r: Reply)
    ensures r.Failure? ==> r == Failure(502, UpstreamMessage)
    ensures r.Success? <==> HasText(outcome) && parse(ExtractText(outcome.response).value).Some?
    ensures r.Success? ==> r.result.placeholders == parse(ExtractText(outcome.response).value).value
    ensures r.Success? ==> r.result.assistantMessage == Summary(r.result.placeholders)
  {
    match outcome
    case ProviderFailed => Failure(502, UpstreamMessage)
    case ProviderOk(resp) =>
      var text := ExtractText(resp);
      if !Present(text) then Failure(502, UpstreamMessage)
      else match parse(text.value)
        case None => Failure(502, UpstreamMessage)
        case Some(parsed) => Success(GenerationResult(parsed, Summary(parsed)))
  }

  /** The handler's reply together with the prompts it sent to the provider. */
  datatype Exchange = Exchange(reply: Reply, prompts: seq<string>)

  /** The request passes validation: a body with a non-empty template. */
  predicate HasTemplate(body: Option<Body>)
  {
    body.Some? && Present(body.value.template)
  }

  /**
   * The handler.  `stringify` stands for `JSON.stringify` of the placeholder
   * values, `provider` for the provider call on the user prompt, and `parse`
   * for `JSON.parse` of the text output.
   */
  function Handle(
    apiKey: Option<string>,
    body: Option<Body>,
    stringify: Option<seq<Entry>> -> string,
    provider: string -> ProviderOutcome,
    parse: string -> Option<seq<Entry>>): (x: Exchange)
    ensures !Present(apiKey) ==> x == Exchange(Failure(500, MissingKeyMessage), [])
    ensures Present(apiKey) && !HasTemplate(body) ==> x == Exchange(Failure(400, TemplateRequiredMessage), [])
    ensures |x.prompts| == 1 <==> Present(apiKey) && HasTemplate(body)
    ensures |x.prompts| <= 1
    ensures |x.prompts| == 1 ==>
              var t := body.value.template.value;
              && OccursAt(t, x.prompts[0], TemplateOffset)
              && x.prompts[0] == BuildPrompt(t, stringify(body.value.placeholders), FormatConversation(body.value.messages))
              && x.reply == Upstream(provider(x.prompts[0]), parse)
    ensures x.reply.Failure? ==> FixedFailure(x.reply)
  {
    if !Present(apiKey) then Exchange(Failure(500, MissingKeyMessage), [])
    else if !HasTemplate(body) then Exchange(Failure(400, TemplateRequiredMessage), [])
    else
      var b := body.value;
      var prompt := BuildPrompt(b.template.value, stringify(b.placeholders), FormatConversation(b.messages));
      Exchange(Upstream(provider(prompt), parse), [prompt])
  }

  /** With no messages the prompt's context segment is the fallback line. */
  lemma PromptWithoutMessages(template: string, json: string, messages: Option<seq<ChatMessage>>)
    requires messages.None? || |messages.value| == 0
    ensures OccursAt(ContextHeading + NoConversation + "\n", BuildPrompt(template, json, FormatConversation(messages)),
                     TemplateOffset + |template| + 1 + |ExistingHeading| + |json| + 1)
  {
  }

  /**
   * The worked example: template `Hello {{name}}`, no placeholders, no
   * messages, and a provider answering `{"name": "Ada"}`.
   */
  lemma ExampleAda(
    apiKey: string,
    stringify: Option<seq<Entry>> -> string,
    provider: string -> ProviderOutcome,
    parse: string -> Option<seq<Entry>>)
    requires apiKey != ""
    requires forall p :: provider(p) == ProviderOk(ProviderResponse("{\"name\": \"Ada\"}", None))
    requires parse("{\"name\": \"Ada\"}") == Some([("name", "Ada")])
    ensures Handle(Some(apiKey), Some(Body(Some("Hello {{name}}"), Some([]), Some([]))), stringify, provider, parse).reply
         == Success(GenerationResult([("name", "Ada")], "{{name}}: Ada"))
  {
    SummaryAppend([], ("name", "Ada"));
    assert SummaryLine(("name", "Ada")) == "{{name}}: Ada";
  }
}
