# chat-to-template: the generation endpoint and the `useAI` composable

This project models, in Dafny, the two pieces of logic in the chat-to-template
application: the server route `POST /api/generate` and the client composable
`useAI`.

The route does five things. It checks that a provider API key is configured (500 otherwise). It checks that the
body has a non-empty template (400 otherwise). It builds a user prompt from the
template, the serialized placeholder values and the rendered conversation. It
calls the AI provider and takes the text output: `output_text`, or else the
`output_text` parts of the `message` items. Finally it parses that text as JSON and returns
the parsed placeholders with a `{{key}}: value` summary. Every failure after validation
becomes one generic 502.

The composable keeps two pieces of state, `loading` and `error`. Each `generate` call sets
`loading` and clears `error`, posts the request, and then records either the result or a
user-facing error message. It always ends with `loading` false.

Files:

- `wrappers.dfy` (`Wrappers`): `Option` and JavaScript truthiness of an optional string.
- `text.dfy` (`Text`): `join`, single-character `split` and ASCII `toUpperCase`, with
  the split/join round trip.
- `generate.dfy` (`Generate`): the route. The provider call, `JSON.stringify` and
  `JSON.parse` are function parameters of `Handle`. The handler returns an `Exchange`:
  its reply plus the list of prompts it sent to the provider. "The provider is not called"
  is stated as "that list is empty".
- `use_ai.dfy` (`UseAI`): the composable. One `generate` call is `Enter`, then `Settle`
  on the fetch outcome, then `Finish`. The `$fetch` call is a function parameter.
- `client_server.dfy` (`ClientServer`): the composable answered by the route.

The model follows the code's JavaScript truthiness tests (`!apiKey`, `!body?.template`,
`!textOutput`, `||`). An empty string counts as absent in every one of them. In particular,
an empty `statusMessage` falls back to the generic client message. The summary falls back
when the joined lines are empty, and `Generate.SummaryFallbackIff` shows that this happens
exactly when there are no entries.

A JavaScript object of placeholder values is modelled as the list of its entries in
`Object.entries` order (`seq<(string, string)>`). The summary depends on that order.

## Model

| member | source | states |
|---|---|---|
| Text.JoinShape | server/api/generate.post.ts:15-17 | `join` puts the parts in order with no leading or trailing separator: the first part begins the text, the last ends it, and the length is the parts' total plus one separator between each pair of neighbours |
| Text.SplitJoin | server/api/generate.post.ts:15-17 | when no part contains the separator character, splitting the joined text at it gives back exactly the parts, in order |
| Text.JoinAppend | server/api/generate.post.ts:15-17 | joining one more part appends the separator and that part to the join of the others |
| Text.Upper | server/api/generate.post.ts:16 | upper-casing keeps the length, lowers each lower-case ASCII letter's code by 32 to its capital, keeps every other character, and leaves no lower-case ASCII letter |
| Generate.UpperRoleNames | server/api/generate.post.ts:16 | the three roles upper-case to `USER`, `ASSISTANT` and `SYSTEM` |
| Generate.FormatConversation | server/api/generate.post.ts:13-18 | the rendering is never empty; an absent or empty message list gives exactly `No conversation provided.`; otherwise the text begins with the first message's `ROLE: content` line and ends with the last one's |
| Generate.ConversationFallbackIff | server/api/generate.post.ts:13-14 | the rendering equals the fallback if and only if the message list is absent or empty |
| Generate.ConversationLines | server/api/generate.post.ts:15-17 | for messages whose content has no newline, the rendering splits into exactly one line per message, in order, each `ROLE: content` |
| Generate.ConversationAppend | server/api/generate.post.ts:15-17 | for any contents, newlines included, one message renders as its line, and one more message appends a newline and its line; by induction this fixes the whole rendering |
| Generate.BuildPrompt | server/api/generate.post.ts:38-42 | the prompt consists of five segments in order. The preamble comes first, then `Template:` and the template verbatim, then the existing-values heading with the serialized placeholders, then the `User context:` heading with the rendered conversation, and the closing instruction last. Each segment is located at its offset, and the length is the sum of the segments |
| Generate.PromptDeterminesTemplate | server/api/generate.post.ts:38-42 | with the same placeholders and conversation, two prompts are equal only if their templates are |
| Generate.PromptWithoutMessages | server/api/generate.post.ts:41 | with an absent or empty message list, the prompt's context segment is `User context: No conversation provided.` followed by a newline |
| Generate.ExtractText | server/api/generate.post.ts:60-69 | a non-empty `output_text` is used as is; otherwise an absent item list gives no text, and an item list gives the item-by-item text of its message items |
| Generate.ItemTextsJoin | server/api/generate.post.ts:60-69 | the flatMap/filter/map/join pipeline equals the item-by-item reading: the `output_text` parts of message items, concatenated in order |
| Generate.MessageTextAppend | server/api/generate.post.ts:61-69 | the text of two consecutive item lists is the concatenation of their texts |
| Generate.NonMessageItemIgnored | server/api/generate.post.ts:62-67 | an item whose type is not `message` contributes nothing, wherever it stands |
| Generate.OtherContentIgnored | server/api/generate.post.ts:64-66 | a content part that is not `output_text` contributes nothing, wherever it stands |
| Generate.Summary | server/api/generate.post.ts:77-79 | the summary is never empty; no entries gives exactly `No placeholders were filled.`; otherwise it begins with `{{` and ends with the last entry's `{{key}}: value` line |
| Generate.SummaryAppend | server/api/generate.post.ts:77-79 | for any keys and values, newlines included, one entry renders as its `{{key}}: value` line, and one more entry appends a newline and its line; by induction this fixes the whole summary |
| Generate.SummaryFallbackIff | server/api/generate.post.ts:77-79 | the summary equals the fallback if and only if there are no entries |
| Generate.SummaryRoundTrip | server/api/generate.post.ts:77-79 | when no key or value contains a newline, the summary splits into exactly one `{{key}}: value` line per entry, in entry order |
| Generate.Upstream | server/api/generate.post.ts:60-90 | every failure after the provider call is exactly the generic 502. Success happens if and only if the provider answered, the extracted text is non-empty and it parses. On success the placeholders are the parsed value and the message is their summary |
| Generate.Handle | server/api/generate.post.ts:20-92 | a missing key gives 500 with no provider call, whatever the body. A key with a missing body or template gives 400 `Template is required.` with no provider call. Otherwise exactly one prompt is sent: the prompt built from the template, the serialized placeholder values and the rendered messages of the body. The reply is the outcome of that call. Every failure is one of the three fixed replies and never carries provider text |
| Generate.ExampleAda | server/api/generate.post.ts:75-84 | template `Hello {{name}}` with a provider answering `{"name": "Ada"}` yields placeholders `name = Ada` and the message `{{name}}: Ada` |
| UseAI.ErrorMessage | composables/useAI.ts:35-36 | the error is the status message when present and non-empty, else the fallback; it is never empty |
| UseAI.RequestFor | composables/useAI.ts:24-31 | the request is a POST to `/api/generate` whose body carries the template, placeholders and messages unchanged |
| UseAI.Generate | composables/useAI.ts:19-41 | entering sets `loading` and clears `error`. `loading` stays true until the outcome is settled and is false at the end. On success the response is returned unchanged and `error` stays null. On failure the result is null and `error` is the chosen message |
| UseAI.ErrorIffNoResult | composables/useAI.ts:32-37 | after a call, `error` is set if and only if no result was returned |
| UseAI.PriorStateForgotten | composables/useAI.ts:20-21 | the state before a call has no influence on the state after it or on its result |
| UseAI.SecondCallOverrides | composables/useAI.ts:19-41 | after two calls in a row, the state is what the second call alone would leave |
| ClientServer.Deliver | composables/useAI.ts:24-37 | a handler success reaches the client as the same result; a handler failure reaches it as a rejection |
| ClientServer.ClientErrorIsKnown | composables/useAI.ts:33-40 | served by the handler, the client always ends idle, and its error is one of the handler's three fixed messages or its own fallback |
| ClientServer.EmptyTemplateReachesClient | server/api/generate.post.ts:32-34 | an empty template with a configured key: no provider call, no client result, and the client error `Template is required.` (or the fallback when the reason phrase is lost) |

## Left out

- The provider SDK call is left out: the client construction, the model name `gpt-4o-mini`, the system message and the JSON response format. It is a foreign network call, so it becomes the `provider` parameter, a function from the user prompt to `ProviderFailed` or `ProviderOk(response)`. An exception thrown while constructing the client (outside the `try`) is not modelled.
- `JSON.stringify` of the placeholder values is library behaviour, so it becomes the `stringify` parameter.
- `JSON.parse` is library behaviour, so it becomes the `parse` parameter, returning `None` for invalid JSON.
- The `as Record<string, string>` cast is unchecked in the source. The model assumes the parsed value is an object with string values. A parse result that is an array, a number or `null`, or that has non-string values, is not modelled.
- The order of `Object.entries` is taken from the parse oracle. The JavaScript rule that integer-like keys come first is not modelled.
- Runtime config loading, `readBody`, `createError` and the HTTP transport are framework plumbing. The body fields are assumed to have their declared types: the template is a string, and each role is `user`, `assistant` or `system`.
- Text.Upper: raises ASCII letters only, unlike JavaScript's full Unicode `toUpperCase`. The only strings it is applied to are the three ASCII role names.
- ClientServer.Deliver: the client reads `statusMessage` from the HTTP reason phrase. Whether the transport keeps that phrase is the parameter `keepsReason`, not a model of HTTP versions.
- `console.error` logging in both files is a side effect with no stated behaviour.
- Vue `ref` reactivity and overlapping `generate` calls are left out. The source promises nothing about concurrent calls sharing `loading`/`error`, so only sequential calls are modelled.
- Round-tripping the request through the JSON wire format is left out: it is JSON library behaviour. The client's request body is handed to the handler as the same value.
- `tailwind.config.ts` and `nuxt.config.ts` are build and style configuration with no logic.
