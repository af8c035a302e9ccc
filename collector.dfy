/** `ChatApi.collectMessages`: run a chat to its end and return the
    conversation with the assistant's reply appended, plus the session id
    the server assigned. */
module Collector {
  import opened Wrappers
  import opened Json
  import opened Text
  import opened Frames
  import opened Decoder
  import opened ChatRequest
  import opened Stream

  /** What one event adds to the reply: the text of a `text` event, and
      nothing for every other kind. */
  function Piece(e: Event): string {
    if e.kind == "text" && e.content.Str? then e.content.s else ""
  }

  /** The reply text: the pieces of all events, in stream order. */
  function TextContent(events: seq<Event>): string {
    if events == [] then "" else TextContent(events[..|events| - 1]) + Piece(events[|events| - 1])
  }

  /** The reply of a stream read in two parts is the two replies joined. */
  lemma {:induction false} TextContentAppend(a: seq<Event>, b: seq<Event>)
    ensures TextContent(a + b) == TextContent(a) + TextContent(b)
    decreases |b|
  {
    if b == [] {
      assert a + b == a;
    } else {
      var b', last := b[..|b| - 1], b[|b| - 1];
      assert (a + b)[..|a + b| - 1] == a + b';
      assert (a + b)[|a + b| - 1] == last;
      TextContentAppend(a, b');
      var x, y, p := TextContent(a), TextContent(b'), Piece(last);
      assert TextContent(a + b) == (x + y) + p;
      assert TextContent(b) == y + p;
      assert (x + y) + p == x + (y + p);
    }
  }

  lemma TextContentOne(e: Event)
    ensures TextContent([e]) == Piece(e)
  {
    assert [e][..0] == [];
  }

  /** Events of any other kind leave the reply unchanged, wherever they are. */
  lemma NonTextIgnored(a: seq<Event>, e: Event, b: seq<Event>)
    requires e.kind != "text"
    ensures TextContent(a + [e] + b) == TextContent(a + b)
  {
    TextContentAppend(a + [e], b);
    TextContentAppend(a, [e]);
    TextContentOne(e);
    TextContentAppend(a, b);
  }

  /** Text events contribute their content in order. */
  lemma TextJoined(a: seq<Event>, s: string, b: seq<Event>)
    ensures TextContent(a + [Event("text", Str(s))] + b) == TextContent(a) + s + TextContent(b)
  {
    var e := Event("text", Str(s));
    TextContentAppend(a + [e], b);
    TextContentAppend(a, [e]);
    TextContentOne(e);
  }

  /** The reply of `text A`, a tool call, `text B` is `AB`. */
  lemma ToolCallBetweenTexts(x: string, y: string, call: Json)
    ensures TextContent([Event("text", Str(x)), Event("tool_call", Value(call)), Event("text", Str(y))]) == x + y
  {
    var t1 := Event("text", Str(x));
    var t2 := Event("text", Str(y));
    var tc := Event("tool_call", Value(call));
    assert [t1, tc, t2] == [t1] + [tc] + [t2];
    NonTextIgnored([t1], tc, [t2]);
    TextContentAppend([t1], [t2]);
    TextContentOne(t1);
    TextContentOne(t2);
  }

  /** What `collectMessages` resolves to. */
  datatype Collected = Collected(messages: seq<Message>, sessionId: Option<string>)

  /** `response.headers.get("Agent-Session-Id")`: the value, or null. */
  function SessionIdOf(reply: HttpResponse): (s: Option<string>)
    ensures s.Some? <==> SessionHeader in reply.headers
    ensures s.Some? ==> s.value == reply.headers[SessionHeader]
  {
    if SessionHeader in reply.headers then Some(reply.headers[SessionHeader]) else None
  }

  /** The assistant message appended to the conversation. */
  function AssistantMessage(content: string): Message {
    Message("assistant", content, None, None)
  }

  /** The `for await` loop: the contents of the `text` events, joined in
      stream order. */
  method JoinText(events: seq<Event>) returns (content: string)
    requires forall i :: 0 <= i < |events| ==> WellFormed(events[i])
    ensures content == TextContent(events)
  {
    content := "";
    var i := 0;
    while i < |events|
      invariant 0 <= i <= |events|
      invariant content == TextContent(events[..i])
    {
      assert events[..i + 1][..i] == events[..i];
      if events[i].kind == "text" {
        assert WellFormed(events[i]);
        content := content + events[i].content.s;
      }
      i := i + 1;
    }
    assert events[..i] == events;
  }

  /** `collectMessages(messages, options)`. The two calls of `chat` it makes
      (its own, and the one inside `streamChat`) receive the replies `first`
      and `second`. Either call's error, or a failing read of the body,
      rejects the promise; otherwise the reply text is built from the `text`
      events. */
  method CollectMessages(client: Client, messages: seq<Message>, options: ChatOptions, clock: Clock,
                         first: HttpResponse, second: HttpResponse, parse: string -> Option<Json>)
    returns (r: Result<Collected, Error>)
    ensures var call := Chat(client, messages, options, clock, first);
            var stream := ChatStream(Chat(client, messages, options, clock, second), parse);
            && (call.outcome.Failure? ==> r == Failure(call.outcome.error))
            && (call.outcome.Success? && stream.failure.Some? ==> r == Failure(stream.failure.value))
            && (r.Success? <==> call.outcome.Success? && stream.failure.None?)
            && (r.Success? ==>
                  && |r.value.messages| == |messages| + 1
                  && r.value.messages[..|messages|] == messages
                  && r.value.messages[|messages|] == AssistantMessage(TextContent(stream.events))
                  && r.value.sessionId == SessionIdOf(first))
  {
    var call := Chat(client, messages, options, clock, first);
    if call.outcome.Failure? {
      return Failure(call.outcome.error);
    }
    var sessionId := SessionIdOf(call.outcome.value);
    var events, failure := StreamChat(client, messages, options, clock, second, parse);
    ChatStreamEvents(Chat(client, messages, options, clock, second), parse);
    if failure.Some? {
      return Failure(failure.value);
    }
    var content := JoinText(events);
    var updated := messages + [AssistantMessage(content)];
    assert updated[..|messages|] == messages;
    r := Success(Collected(updated, sessionId));
  }
}
