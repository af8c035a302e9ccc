# Chat stream decoder of the Open Agents Builder client, in Dafny

This project models the chat part of the TypeScript client for the Open Agents
Builder API (`src/index.ts`) and proves properties of the model. It covers
four parts.

- **`ChatApi.streamChat`** is the stream decoder. It keeps a text buffer across
  reads of the response body and cuts it at each newline. Each line is trimmed
  and then classified by its one-character type tag:
  - `0` is text, with at most one leading and at most one trailing quote
    removed;
  - `g` and `3` pass the payload through raw;
  - the other thirteen listed tags run the payload through `JSON.parse`;
  - an unlisted tag on a `data:` line is the legacy path, where `data: [DONE]`
    ends the stream.

  A frame whose payload `JSON.parse` rejects is dropped. A newline-less
  fragment left at the end of the body is never emitted.
- **`ChatApi.collectMessages`** joins the `text` events into one assistant
  message. It appends that message to the conversation and returns the
  `Agent-Session-Id` header of the first response.
- **`ChatApi.streamChatWithCallbacks`** calls one optional callback per event
  kind, then `onFinish`. Anything thrown, by the stream or by a callback,
  goes to `onError` and is rethrown.
- **The request rules** of `ChatApi.chat` and `BaseClient.request` cover five
  things:
  - the required `agentId`;
  - the header map, including the session header and consumer overrides;
  - the optional `experimental_attachments`;
  - the `Error (status): message` text of a failed response;
  - the base URL default.

Modules, one per file:

- `Wrappers`: `Option` and `Result`.
- `Json`: JSON values, truthiness, and the `message` field of an error body.
- `Text`: `indexOf`, `trim`, `startsWith` and the decimal rendering of a
  status.
- `Frames`: one line of the protocol, with the 16-entry tag table, quote
  stripping, the legacy path and `ClassifyLine`.
- `Decoder`: the buffered line framer. `Decode` is the reference reading of a
  whole text, and the class `StreamDecoder` with its `Feed` method is the
  source's loop, proved to agree with it.
- `ChatRequest`: the client, `chat` and `request`.
- `Stream`: the generator as a whole, as `StreamChat` and `ReadBody`.
- `Collector`: `collectMessages`.
- `Dispatcher`: `streamChatWithCallbacks`.

Several things that are I/O in the source are parameters of the model:

- **Transport.** The network is a parameter: each call of `chat` receives
  the `HttpResponse` the server gives.
- **Body.** A response body is the sequence of already-decoded text chunks
  its reads deliver, optionally followed by a read that fails.
- **`JSON.parse`** is an arbitrary partial function `parse`.
- **Clock.** The three date and time header values come in as a `Clock`.
- **Callbacks.** The dispatcher sees the consumer's callbacks through the set
  of those supplied (`registered`). A function `fails` says whether the n-th
  callback invocation throws, and what it throws.

The decoder's splitting and bookkeeping are proved for any classifier of a
trimmed line. `Decoder.Classifier(parse)` is the classifier of the source.

## Model

| member | source | states |
|---|---|---|
| ChatRequest.NewClient | src/index.ts:387-391 | the base URL is the configured one when it is non-empty and the default host otherwise; the key and database hash are kept |
| ChatRequest.ChatHeaders | src/index.ts:647-659 | the header keys are the defaults plus the consumer's; a consumer value overrides its default key by key; without a consumer override, `Agent-Session-Id` is present exactly when the session id is non-empty; `Agent-Id` is the agent id |
| ChatRequest.BuildBody | src/index.ts:661-667 | the body carries the messages unchanged; `experimental_attachments` is present exactly when the attachment list is present and non-empty |
| ChatRequest.ErrorTextRoundTrip | src/index.ts:684 | the status and the message can be read back out of `Error (status): message` |
| ChatRequest.ChatErrorMessage | src/index.ts:677-683 | the reported message is the JSON body's `message` when it is a non-empty string, and the status text otherwise |
| ChatRequest.Chat | src/index.ts:640-685 | a missing or empty agent id is rejected and nothing is sent; otherwise a POST to `<baseUrl>/api/chat/` is sent with the merged headers and the body; the call succeeds with the response exactly when it is OK, and otherwise fails with `Error (status): message` |
| ChatRequest.ChatFailureShape | src/index.ts:676-684 | every failed `chat` reports its own status and message in the documented shape |
| ChatRequest.RequestHeaders | src/index.ts:408-416 | `Authorization` and `database-id-hash` are always sent; `Content-Type: application/json` is sent exactly when the body is truthy and the method is not GET |
| ChatRequest.BuildHttpRequest | src/index.ts:398-417 | the URL is the base URL plus the endpoint; a body is sent exactly when it is truthy and the method is not GET, and the content type goes with it |
| ChatRequest.RequestAsWritten | src/index.ts:418-428 | success exactly for an OK response; a non-OK response whose JSON body is `null` throws the TypeError of reading a property of `null` |
| ChatRequest.NullErrorBodyEscapesFormat | src/index.ts:425-426 | a status-500 response with the body `null` fails with a text that is not of the form `Error (status): message` |
| ChatRequest.Request | src/index.ts:418-428 | an OK response yields the parsed body (`{}` when it is not JSON); every non-OK response fails with `Error (status): message`, with the body's `message` or else the status text; it agrees with `RequestAsWritten` wherever the body is not `null` |
| Text.IndexOfFirst | src/index.ts:742 | `indexOf` is -1 exactly when the character is absent, and no earlier position holds it |
| Text.IndexOfAppend | src/index.ts:740-742 | the first newline of the buffer is still the first after more text is appended |
| Text.TrimShape | src/index.ts:743 | `trim` keeps one contiguous piece and removes only white space on either side of it |
| Text.TrimIdempotent | src/index.ts:743 | trimming twice is trimming once |
| Text.DecimalRoundTrip | src/index.ts:684 | the decimal digits of the status read back as the status |
| Frames.Lookup | src/index.ts:756-806 | a tag has a table entry exactly when it is one character long and is one of the sixteen listed tags, and the entry found is the table's entry for that character |
| Frames.StripQuotes | src/index.ts:759 | the result is the text without its first character when that is `"`, and then without its last character when what is left ends with `"` (so `"` alone becomes empty); it is at most two characters shorter, and unchanged exactly when the text neither starts nor ends with `"` |
| Frames.StripQuotesLeading | src/index.ts:759 | a text with only a leading `"` loses just that quote |
| Frames.StripQuotesTrailing | src/index.ts:759 | a text with only a trailing `"` loses just that quote |
| Frames.StripQuotesOfQuoted | src/index.ts:759 | a quoted text loses exactly its outer quotes; inner quotes stay |
| Frames.ClassifyLine | src/index.ts:745-817 | an empty line and a line without `:` yield nothing; every event it emits is well formed: the text, reasoning and error kinds carry text and every other kind a parsed value |
| Frames.TagCoverage | src/index.ts:756-806 | a line `<tag>:<payload>` with a listed tag yields the table's kind with the table's payload mode, and nothing when `JSON.parse` fails |
| Frames.TextExample | src/index.ts:758-761 | `0:"hello"` yields the text event `hello` |
| Frames.LegacyLine | src/index.ts:807-813 | `data:X` yields the text `trim(X)`, or ends the stream when `trim(X)` is `[DONE]` |
| Frames.UnknownTagSilent | src/index.ts:807-813 | a line with `:` whose tag is not listed and that does not start with `data:` yields nothing |
| Frames.StopOnlyOnSentinel | src/index.ts:807-813 | a line ends the stream only if it starts with `data:` and its remainder trims to `[DONE]` |
| Decoder.Pending | src/index.ts:742-744 | what is kept after all complete lines are cut contains no newline |
| Decoder.LinesCount | src/index.ts:742-744 | a text has one complete line per newline |
| Decoder.LinesAppend | src/index.ts:740-744 | cutting two pieces of text gives the lines of the first, then the lines of the first's unfinished line followed by the second |
| Decoder.DecodeAppend | src/index.ts:737-746 | decoding text in two pieces gives the first piece's events, then those of its unfinished last line followed by the second piece, unless the first piece already ended the stream |
| Decoder.DecodeLinesAppend | src/index.ts:742-817 | reading two runs of lines gives the events of the first run, then those of the second, unless the first run ended the stream |
| Decoder.DecodeStep | src/index.ts:742-744 | decoding takes the first line's result, then decodes the rest of the text after that line's newline |
| Decoder.DecodeLinesEvents | src/index.ts:742-817 | each line yields at most one event, and every event is one that some line yields |
| Decoder.DecodeEvents | src/index.ts:742-817 | a text yields at most one event per newline, and every event is well formed |
| Decoder.ClassifierWellFormed | src/index.ts:756-813 | the classifier of the source only emits well-formed events |
| Decoder.DecodeLine | src/index.ts:742-744 | a line and its newline contribute exactly that line's result, in front of the rest |
| Decoder.DecodeNoNewline | src/index.ts:742 | a text without a newline yields nothing |
| Decoder.TrailingFragmentSilent | src/index.ts:738-746 | a newline-less fragment at the end yields no event |
| Decoder.SkippedLineSilent | src/index.ts:745-752 | a line the classifier drops, such as a blank line or one without `:`, yields nothing, and decoding continues with the next line |
| Decoder.ParseFailureDropsOnlyThatFrame | src/index.ts:754-817 | a listed frame whose payload fails to parse is lost, and everything after it decodes as if it were not there |
| Decoder.StopEndsStream | src/index.ts:811 | after complete lines, a stopping line ends the stream: nothing after it, even text already buffered, yields an event |
| Decoder.DoneEndsStream | src/index.ts:807-813 | a line that trims to `data:` followed by something that trims to `[DONE]` ends the stream with the events before it |
| Decoder.LinesCons | src/index.ts:742-744 | a line without a newline, followed by a newline, is the first line cut off, and cutting continues after it |
| Decoder.LinesOfTerminated | src/index.ts:742-744 | cutting a newline-terminated text, with any trailing fragment, gives back exactly the lines it was built from |
| Decoder.LinesThenPending | src/index.ts:740-744 | every text is its complete lines, each followed by its newline, and then the pending fragment: cutting neither loses nor adds text |
| Decoder.DecodeOfTerminated | src/index.ts:742-817 | such a text yields what reading its lines in order yields |
| Decoder.ReadLine | src/index.ts:742-746 | cutting one line off the buffer keeps the pending fragment, and the events still to come are that line's result followed by the rest: skipped, emitted after the events so far, or the end of the stream |
| Decoder.Drain | src/index.ts:741-818 | the inner loop yields exactly the events, and the stop flag, that `Decode` gives for the buffer; when the stream goes on, what is left is the unfinished last line and holds no newline |
| Decoder.StreamDecoder.constructor | src/index.ts:735-736 | a new decoder has an empty buffer and has not stopped |
| Decoder.StreamDecoder.Feed | src/index.ts:740-818 | one read appends the chunk to the buffer and returns exactly the events, and the stop flag, that `Decode` gives for the old buffer plus the chunk; afterwards the buffer is the unfinished last line and holds no newline |
| Stream.ReadBody | src/index.ts:735-819 | reading every chunk through one decoder yields what decoding the whole text yields; a later failing read is reported unless `[DONE]` ended the stream first |
| Stream.StreamChat | src/index.ts:728-820 | the generator yields what its own `chat` call and the body decoding give: `chat`'s error before any event, nothing for a response without a body, and otherwise the decoded events |
| Stream.ChunkInvariance | src/index.ts:737-746 | any split of a body into chunks yields the same events and the same ending as the whole text in one chunk |
| Stream.ChatStreamEvents | src/index.ts:728-820 | every event the generator yields is well formed, and a failed `chat` call throws before any event |
| Collector.TextContentAppend | src/index.ts:705-710 | the reply of a stream read in two parts is the two replies joined |
| Collector.NonTextIgnored | src/index.ts:707-709 | an event of any kind other than text leaves the reply unchanged |
| Collector.TextJoined | src/index.ts:707-709 | a text event contributes its content at its place in the stream |
| Collector.ToolCallBetweenTexts | src/index.ts:705-710 | text `A`, a tool call, then text `B` give the reply `AB` |
| Collector.SessionIdOf | src/index.ts:701 | the session id is the `Agent-Session-Id` header value, or null when the header is absent |
| Collector.JoinText | src/index.ts:703-710 | the loop's result is the reply text of the events: the contents of the `text` events, joined in stream order |
| Collector.CollectMessages | src/index.ts:693-722 | either `chat` call's error and a failing body read reject the promise; otherwise the result is the input messages, unchanged, followed by one assistant message holding the joined text events, together with the session id of the first response |
| Dispatcher.CallFor | src/index.ts:850-899 | an event causes a call exactly when its kind is listed and that callback is supplied, and the call goes to its kind's callback with its content |
| Dispatcher.TableKindsHandled | src/index.ts:756-806 | every kind in the decoder's table has a callback |
| Dispatcher.KindOfHandler | src/index.ts:850-899 | the callback of each listed kind answers exactly that kind |
| Dispatcher.HandlerOfInjective | src/index.ts:850-899 | no two kinds share a callback, and `onFinish` answers no event |
| Dispatcher.UnknownKindSilent | src/index.ts:849-900 | an event of an unlisted kind calls nothing |
| Dispatcher.StreamKindsHandled | src/index.ts:849-900 | every event the generator yields has a listed kind |
| Dispatcher.CallsForNoFinish | src/index.ts:849-900 | the event callbacks never include `onFinish` |
| Dispatcher.DeliverQuiet | src/index.ts:849-900 | while no callback throws, the loop makes exactly one call per delivered event, in stream order |
| Dispatcher.DeliverThrows | src/index.ts:849-902 | when a callback is the first to throw, the loop stops right after calling it |
| Dispatcher.QuietDispatch | src/index.ts:848-905 | when no callback throws, every event reaches its own callback once, in order; then `onFinish` runs after a normal end, or `onError` gets the stream's error, which is rethrown |
| Dispatcher.HandlerThrowDispatch | src/index.ts:848-905 | when the k-th callback first throws: no later event is delivered; `onFinish` is not called; `onError` gets the message; the error is rethrown, unless `onError` itself throws |
| Dispatcher.FinishOnce | src/index.ts:901 | if no event callback throws, `onFinish` is called exactly once after a normal end and never after a failure |
| Dispatcher.CallbacksMatchStream | src/index.ts:848-905 | with every callback supplied and none throwing, the event callbacks see exactly the generator's events, in order, followed by one final call |
| Dispatcher.DeliverStream | src/index.ts:848-905 | the loop, `onFinish` and the catch block make exactly the calls, and throw exactly the error, that `Dispatch` gives for the events and the failure of the stream |
| Dispatcher.StreamChatWithCallbacks | src/index.ts:826-906 | the calls made and the error thrown are those `Dispatch` gives for what the generator yields |

## Left out

- A `fetch` that rejects (a network failure before any response) is not modelled: every call receives a response. In the source the rejection would propagate out of `chat`, and so out of `streamChat`, `collectMessages` and `streamChatWithCallbacks`, like a failed `chat`.
- `fetch`, `ReadableStream.getReader` and `TextDecoder` are not modelled. A body is its sequence of already-decoded chunks, so UTF-8 sequences split across chunks are out of scope.
- `JSON.parse` internals are not modelled; `parse` is an arbitrary partial function.
- Serialising requests with `JSON.stringify` is not modelled; a sent body is the value itself.
- The query string of `BaseClient.request`, built with `URLSearchParams`, is not modelled.
- The date, time and time-zone header values are not computed. They are inputs (`Clock`), because they come from the system clock and locale.
- `console.log` and `console.error` are not modelled, because they have no effect the model can observe.
- Asynchrony is not modelled. That covers promises, generator suspension and releasing the reader. The dispatcher reads the whole stream before calling any callback. This changes nothing observable: decoding has no side effects, and a failing read comes only after all chunks.
- `collectMessages` makes two requests, its own `chat` and the one inside `streamChat`. They are modelled by two given responses, since each is I/O.
- Collector.SessionIdOf: looks the header up by exact key. The `Headers` object of `fetch` compares names case-insensitively, and the header store is not modelled.
- ChatRequest.ChatErrorMessage: treats a `message` field that is not a string as absent. The source would print it through `String(...)`, and rendering arbitrary JSON as text is not modelled.
- ChatRequest.Request: like `ChatErrorMessage`, treats a `message` field that is not a string as absent and falls back to the status text. The source renders any truthy `message` (for the body `{"message": 42}` its error is `Error (500): 42`).
- ChatRequest.RequestAsWritten: the same simplification of a truthy non-string `message` as `ChatRequest.Request`.
- Dispatcher.StreamChatWithCallbacks: every thrown value is an `Error` with a message. The `String(err)` branch for other thrown values is not modelled.
- The zod schemas, the CRUD API classes and `OpenAgentsBuilderClient` are not part of this model. They are data declarations and thin wrappers around `fetch`.
- The demo driver `example.ts` is not part of this model.

## Findings

| source | as written | input that shows it | evidently intended | confidence | as-written member | corrected member |
|---|---|---|---|---|---|---|
| src/index.ts:418-426 | `result.message` is read from whatever `resp.json()` returned | a non-OK response (status 500) whose body is the JSON text `null`: `result` becomes `null` and reading `.message` throws a TypeError, not `Error (500): <statusText>` | `result?.message`, as `chat` does at line 681, so that every failed request reports its status | not executed | ChatRequest.RequestAsWritten, ChatRequest.NullErrorBodyEscapesFormat | ChatRequest.Request |
