/** `ChatApi.streamChatWithCallbacks`: the events of `streamChat` delivered
    to optional consumer callbacks, one per kind, then `onFinish`; anything
    thrown on the way -- by the stream or by a callback -- goes to `onError`
    and is rethrown.

    Callbacks are observed through the calls they receive. Which callbacks
    the consumer supplied is the set `registered`; whether the n-th callback
    invocation (counting from 0) throws, and what, is `fails(n)`. */
module Dispatcher {
  import opened Wrappers
  import opened Json
  import opened Text
  import opened Frames
  import opened Decoder
  import opened ChatRequest
  import opened Stream

  /** The optional callbacks of the options object. */
  datatype Handler =
    | OnText | OnReasoning | OnRedactedReasoning | OnReasoningSignature
    | OnSource | OnFile | OnData | OnAnnotation | OnError
    | OnToolCallStart | OnToolCallDelta | OnToolCall | OnToolResult
    | OnStepStart | OnStepFinish | OnMessageFinish
    | OnFinish

  /** `switch (chunk.type)`: the callback for each event kind. */
  const HandlerOf: map<string, Handler> := map[
    "text" := OnText,
    "reasoning" := OnReasoning,
    "redacted_reasoning" := OnRedactedReasoning,
    "reasoning_signature" := OnReasoningSignature,
    "source" := OnSource,
    "file" := OnFile,
    "data" := OnData,
    "annotation" := OnAnnotation,
    "error" := OnError,
    "tool_call_start" := OnToolCallStart,
    "tool_call_delta" := OnToolCallDelta,
    "tool_call" := OnToolCall,
    "tool_result" := OnToolResult,
    "step_start" := OnStepStart,
    "step_finish" := OnStepFinish,
    "message_finish" := OnMessageFinish
  ]

  /** What a callback was given: an event's content, an error message
      (`onError` in the catch block), or nothing (`onFinish`). */
  datatype Arg = Payload(content: Content) | ErrorMessage(message: string) | NoArg

  datatype Call = Call(handler: Handler, arg: Arg)

  /** The callbacks invoked, in order, and what the returned promise
      rejects with (None: it resolves). */
  datatype Dispatched = Dispatched(calls: seq<Call>, thrown: Option<Error>)

  /** The call an event causes, if its kind is listed and the consumer
      supplied that callback. */
  function CallFor(e: Event, registered: set<Handler>): (c: Option<Call>)
    ensures c.Some? <==> e.kind in HandlerOf && HandlerOf[e.kind] in registered
    ensures c.Some? ==> c.value == Call(HandlerOf[e.kind], Payload(e.content))
  {
    if e.kind in HandlerOf && HandlerOf[e.kind] in registered
    then Some(Call(HandlerOf[e.kind], Payload(e.content)))
    else None
  }

  /** The switch for a given set of supplied callbacks. */
  function Route(registered: set<Handler>): Event -> Option<Call> {
    e => CallFor(e, registered)
  }

  /** The reference order of calls when nothing throws: each event's own
      callback (as `route` gives it), in stream order. */
  function CallsFor(events: seq<Event>, route: Event -> Option<Call>): seq<Call> {
    if events == [] then []
    else
      (match route(events[0]) case Some(c) => [c] case None => [])
      + CallsFor(events[1..], route)
  }

  /** The `for await` loop: after the calls already made, deliver the
      remaining events; the first callback that throws ends the loop. */
  function Deliver(events: seq<Event>, route: Event -> Option<Call>, fails: nat -> Option<Error>,
                   calls: seq<Call>): Dispatched
    decreases |events|
  {
    if events == [] then Dispatched(calls, None)
    else
      match route(events[0])
      case None => Deliver(events[1..], route, fails, calls)
      case Some(c) =>
        if fails(|calls|).Some? then Dispatched(calls + [c], fails(|calls|))
        else Deliver(events[1..], route, fails, calls + [c])
  }

  /** After the loop: the stream's own failure, or else `onFinish?.()`. */
  function Finish(d: Dispatched, failure: Option<Error>, registered: set<Handler>,
                  fails: nat -> Option<Error>): Dispatched
  {
    if d.thrown.Some? then d
    else if failure.Some? then Dispatched(d.calls, failure)
    else if OnFinish in registered then Dispatched(d.calls + [Call(OnFinish, NoArg)], fails(|d.calls|))
    else d
  }

  /** The catch block: `onError?.(err.message)`, then `throw err`; a throw
      from `onError` itself is what escapes instead. */
  function Catch(d: Dispatched, registered: set<Handler>, fails: nat -> Option<Error>): Dispatched {
    if d.thrown.None? || OnError !in registered then d
    else
      Dispatched(d.calls + [Call(OnError, ErrorMessage(d.thrown.value.message))],
                 Some(fails(|d.calls|).GetOr(d.thrown.value)))
  }

  /** The whole of `streamChatWithCallbacks` for what the stream yields. */
  function Dispatch(stream: StreamResult, registered: set<Handler>, fails: nat -> Option<Error>): Dispatched {
    Catch(Finish(Deliver(stream.events, Route(registered), fails, []), stream.failure, registered, fails),
          registered, fails)
  }

  /** Every kind in the decoder's tag table has a callback. */
  lemma TableKindsHandled(c: char)
    requires c in Table
    ensures Table[c].kind in HandlerOf
  {
  }

  /** The event kind a callback answers (`onFinish` answers none). */
  function KindOf(h: Handler): Option<string> {
    match h
    case OnText => Some("text")
    case OnReasoning => Some("reasoning")
    case OnRedactedReasoning => Some("redacted_reasoning")
    case OnReasoningSignature => Some("reasoning_signature")
    case OnSource => Some("source")
    case OnFile => Some("file")
    case OnData => Some("data")
    case OnAnnotation => Some("annotation")
    case OnError => Some("error")
    case OnToolCallStart => Some("tool_call_start")
    case OnToolCallDelta => Some("tool_call_delta")
    case OnToolCall => Some("tool_call")
    case OnToolResult => Some("tool_result")
    case OnStepStart => Some("step_start")
    case OnStepFinish => Some("step_finish")
    case OnMessageFinish => Some("message_finish")
    case OnFinish => None
  }

  /** Each listed kind's callback answers that kind and no other. */
  lemma KindOfHandler(k: string)
    requires k in HandlerOf
    ensures KindOf(HandlerOf[k]) == Some(k)
  {
  }

  /** The switch is one-to-one, and `onFinish` answers no event. */
  lemma HandlerOfInjective(k1: string, k2: string)
    requires k1 in HandlerOf && k2 in HandlerOf && HandlerOf[k1] == HandlerOf[k2]
    ensures k1 == k2 && HandlerOf[k1] != OnFinish
  {
    KindOfHandler(k1);
    KindOfHandler(k2);
  }

  /** An unlisted kind calls nothing. */
  lemma UnknownKindSilent(e: Event, registered: set<Handler>)
    requires e.kind !in HandlerOf
    ensures CallsFor([e], Route(registered)) == []
  {
  }

  /** Every event of the stream has a listed kind. */
  lemma StreamKindsHandled(call: ChatCall, parse: string -> Option<Json>)
    ensures forall i :: 0 <= i < |ChatStream(call, parse).events| ==> ChatStream(call, parse).events[i].kind in HandlerOf
  {
    if call.outcome.Success? && call.outcome.value.body.Some? {
      var lines := Lines(Concat(call.outcome.value.body.value.chunks));
      var classify := Classifier(parse);
      DecodeLinesEvents(lines, classify);
      var o := DecodeLines(lines, classify);
      forall i | 0 <= i < |o.events|
        ensures o.events[i].kind in HandlerOf
      {
        var j :| 0 <= j < |lines| && classify(Trim(lines[j])) == Emit(o.events[i]);
        ClassifiedKindHandled(Trim(lines[j]), parse);
      }
    }
  }

  /** The classifier only emits listed kinds. */
  lemma ClassifiedKindHandled(line: string, parse: string -> Option<Json>)
    ensures Classifier(parse)(line).Emit? ==> Classifier(parse)(line).event.kind in HandlerOf
  {
    var r := ClassifyLine(line, parse);
    assert Classifier(parse)(line) == r;
    if r.Emit? && line != "" {
      var colon := IndexOf(line, ':');
      if colon >= 0 && Lookup(line[..colon]).Some? {
        TableKindsHandled(line[..colon][0]);
      }
    }
  }

  function Occurrences(calls: seq<Call>, h: Handler): nat {
    if calls == [] then 0 else (if calls[0].handler == h then 1 else 0) + Occurrences(calls[1..], h)
  }

  lemma {:induction false} OccurrencesAppend(a: seq<Call>, b: seq<Call>, h: Handler)
    ensures Occurrences(a + b, h) == Occurrences(a, h) + Occurrences(b, h)
  {
    if a == [] {
      assert a + b == b;
    } else {
      assert (a + b)[1..] == a[1..] + b;
      OccurrencesAppend(a[1..], b, h);
    }
  }

  /** Event callbacks never include `onFinish`. */
  lemma {:induction false} CallsForNoFinish(events: seq<Event>, registered: set<Handler>)
    ensures Occurrences(CallsFor(events, Route(registered)), OnFinish) == 0
  {
    if events != [] {
      var head := match CallFor(events[0], registered) case Some(c) => [c] case None => [];
      CallsForNoFinish(events[1..], registered);
      OccurrencesAppend(head, CallsFor(events[1..], Route(registered)), OnFinish);
      if CallFor(events[0], registered).Some? {
        HandlerOfInjective(events[0].kind, events[0].kind);
      }
    }
  }

  /** While no callback throws, the loop makes exactly the reference calls. */
  lemma {:induction false} DeliverQuiet(events: seq<Event>, route: Event -> Option<Call>,
                                        fails: nat -> Option<Error>, calls: seq<Call>)
    requires forall n :: |calls| <= n < |calls| + |CallsFor(events, route)| ==> fails(n).None?
    ensures Deliver(events, route, fails, calls) == Dispatched(calls + CallsFor(events, route), None)
    decreases |events|
  {
    if events == [] {
      assert calls + [] == calls;
    } else {
      var rest := CallsFor(events[1..], route);
      match route(events[0])
      case None =>
        DeliverQuiet(events[1..], route, fails, calls);
      case Some(c) =>
        assert CallsFor(events, route) == [c] + rest;
        assert fails(|calls|).None?;
        DeliverQuiet(events[1..], route, fails, calls + [c]);
        assert (calls + [c]) + rest == calls + ([c] + rest);
    }
  }

  /** If the k-th callback is the first to throw, the loop stops right after
      calling it: later events reach no callback. */
  lemma {:induction false} DeliverThrows(events: seq<Event>, route: Event -> Option<Call>,
                                         fails: nat -> Option<Error>, calls: seq<Call>, k: nat)
    requires |calls| <= k < |calls| + |CallsFor(events, route)|
    requires fails(k).Some? && forall n :: |calls| <= n < k ==> fails(n).None?
    ensures Deliver(events, route, fails, calls)
         == Dispatched(calls + CallsFor(events, route)[..k + 1 - |calls|], fails(k))
    decreases |events|
  {
    var rest := CallsFor(events[1..], route);
    match route(events[0])
    case None =>
      DeliverThrows(events[1..], route, fails, calls, k);
    case Some(c) =>
      assert CallsFor(events, route) == [c] + rest;
      if k == |calls| {
        assert ([c] + rest)[..1] == [c];
      } else {
        DeliverThrows(events[1..], route, fails, calls + [c], k);
        assert ([c] + rest)[..k + 1 - |calls|] == [c] + rest[..k + 1 - (|calls| + 1)];
        assert (calls + [c]) + rest[..k + 1 - (|calls| + 1)] == calls + ([c] + rest[..k + 1 - (|calls| + 1)]);
      }
  }

  /** When no callback throws: every event reaches its own callback once, in
      order; then `onFinish` after a normal end, or `onError` with the
      stream's error, which is rethrown. */
  lemma QuietDispatch(stream: StreamResult, registered: set<Handler>, fails: nat -> Option<Error>)
    requires forall n :: fails(n).None?
    ensures var d := Dispatch(stream, registered, fails);
            var delivered := CallsFor(stream.events, Route(registered));
            && d.thrown == stream.failure
            && (stream.failure.None? ==>
                  d.calls == delivered + (if OnFinish in registered then [Call(OnFinish, NoArg)] else []))
            && (stream.failure.Some? ==>
                  d.calls == delivered + (if OnError in registered
                                          then [Call(OnError, ErrorMessage(stream.failure.value.message))]
                                          else []))
  {
    DeliverQuiet(stream.events, Route(registered), fails, []);
    assert [] + CallsFor(stream.events, Route(registered)) == CallsFor(stream.events, Route(registered));
  }

  /** When the k-th callback is the first to throw: no later event is
      delivered, `onFinish` is not called, `onError` gets the message and the
      error is rethrown (or what `onError` itself threw). */
  lemma HandlerThrowDispatch(stream: StreamResult, registered: set<Handler>, fails: nat -> Option<Error>, k: nat)
    requires k < |CallsFor(stream.events, Route(registered))|
    requires fails(k).Some? && forall n: nat :: n < k ==> fails(n).None?
    ensures var d := Dispatch(stream, registered, fails);
            var e := fails(k).value;
            && d.calls == CallsFor(stream.events, Route(registered))[..k + 1]
                          + (if OnError in registered then [Call(OnError, ErrorMessage(e.message))] else [])
            && d.thrown == (if OnError in registered && fails(k + 1).Some? then fails(k + 1) else Some(e))
  {
    DeliverThrows(stream.events, Route(registered), fails, [], k);
    var prefix := CallsFor(stream.events, Route(registered))[..k + 1];
    assert [] + prefix == prefix;
  }

  /** `onFinish` is called exactly once when the stream ends normally and no
      callback threw, and never otherwise. */
  lemma FinishOnce(stream: StreamResult, registered: set<Handler>, fails: nat -> Option<Error>)
    requires OnFinish in registered
    requires forall n: nat :: n < |CallsFor(stream.events, Route(registered))| ==> fails(n).None?
    ensures Occurrences(Dispatch(stream, registered, fails).calls, OnFinish)
         == if stream.failure.None? then 1 else 0
  {
    var delivered := CallsFor(stream.events, Route(registered));
    DeliverQuiet(stream.events, Route(registered), fails, []);
    assert [] + delivered == delivered;
    CallsForNoFinish(stream.events, registered);
    FinishCatchOnce(delivered, stream.failure, registered, fails);
  }

  /** After calls without `onFinish`, `Finish` and `Catch` add `onFinish`
      once after a normal end and never after a failure. */
  lemma FinishCatchOnce(delivered: seq<Call>, failure: Option<Error>, registered: set<Handler>,
                        fails: nat -> Option<Error>)
    requires OnFinish in registered && Occurrences(delivered, OnFinish) == 0
    ensures Occurrences(Catch(Finish(Dispatched(delivered, None), failure, registered, fails), registered, fails).calls,
                        OnFinish)
         == if failure.None? then 1 else 0
  {
    var d := Finish(Dispatched(delivered, None), failure, registered, fails);
    var finish := if failure.None? then [Call(OnFinish, NoArg)] else [];
    assert d.calls == delivered + finish;
    OccurrencesAppend(delivered, finish, OnFinish);
    assert Occurrences(finish, OnFinish) == if failure.None? then 1 else 0;
    var report := if d.thrown.Some? && OnError in registered
                  then [Call(OnError, ErrorMessage(d.thrown.value.message))] else [];
    assert Catch(d, registered, fails).calls == d.calls + report;
    OccurrencesAppend(d.calls, report, OnFinish);
  }

  /** Callbacks against the plain generator: with every callback supplied
      and none throwing, the event callbacks see exactly the events
      `streamChat` yields, in order. */
  lemma CallbacksMatchStream(call: ChatCall, parse: string -> Option<Json>, fails: nat -> Option<Error>)
    requires forall n :: fails(n).None?
    ensures var stream := ChatStream(call, parse);
            var d := Dispatch(stream, AllHandlers, fails);
            && |d.calls| == |stream.events| + 1
            && (forall i :: 0 <= i < |stream.events| ==>
                  stream.events[i].kind in HandlerOf &&
                  d.calls[i] == Call(HandlerOf[stream.events[i].kind], Payload(stream.events[i].content)))
  {
    var stream := ChatStream(call, parse);
    StreamKindsHandled(call, parse);
    QuietDispatch(stream, AllHandlers, fails);
    AllDelivered(stream.events);
  }

  /** Every callback the options object can carry. */
  const AllHandlers: set<Handler> := {
    OnText, OnReasoning, OnRedactedReasoning, OnReasoningSignature,
    OnSource, OnFile, OnData, OnAnnotation, OnError,
    OnToolCallStart, OnToolCallDelta, OnToolCall, OnToolResult,
    OnStepStart, OnStepFinish, OnMessageFinish,
    OnFinish
  }

  lemma {:induction false} AllDelivered(events: seq<Event>)
    requires forall i :: 0 <= i < |events| ==> events[i].kind in HandlerOf
    ensures |CallsFor(events, Route(AllHandlers))| == |events|
    ensures forall i :: 0 <= i < |events| ==>
              CallsFor(events, Route(AllHandlers))[i] == Call(HandlerOf[events[i].kind], Payload(events[i].content))
  {
    if events != [] {
      AllDelivered(events[1..]);
      assert HandlerOf[events[0].kind] in AllHandlers;
      var rest := CallsFor(events[1..], Route(AllHandlers));
      assert CallsFor(events, Route(AllHandlers)) == [Call(HandlerOf[events[0].kind], Payload(events[0].content))] + rest;
      forall i | 0 < i < |events|
        ensures CallsFor(events, Route(AllHandlers))[i] == Call(HandlerOf[events[i].kind], Payload(events[i].content))
      {
        assert events[1..][i - 1] == events[i];
      }
    }
  }

  /** The body of the `try` block and its `catch`, for what the generator
      yields: call each event's callback as it comes, then `onFinish`; catch
      whatever is thrown, report it to `onError` and rethrow it. */
  method DeliverStream(events: seq<Event>, failure: Option<Error>,
                       registered: set<Handler>, fails: nat -> Option<Error>)
    returns (calls: seq<Call>, thrown: Option<Error>)
    ensures Dispatched(calls, thrown) == Dispatch(StreamResult(events, failure), registered, fails)
  {
    calls, thrown := [], None;
    var i := 0;
    while i < |events| && thrown.None?
      invariant 0 <= i <= |events|
      invariant thrown.None? ==> Deliver(events, Route(registered), fails, []) == Deliver(events[i..], Route(registered), fails, calls)
      invariant thrown.Some? ==> Deliver(events, Route(registered), fails, []) == Dispatched(calls, thrown)
    {
      var e := events[i];
      assert events[i..][0] == e && events[i..][1..] == events[i + 1..];
      if e.kind in HandlerOf && HandlerOf[e.kind] in registered {
        var c := Call(HandlerOf[e.kind], Payload(e.content));
        thrown := fails(|calls|);
        calls := calls + [c];
      }
      i := i + 1;
    }
    if thrown.None? {
      assert events[i..] == [];
      if failure.Some? {
        thrown := failure;
      } else if OnFinish in registered {
        thrown := fails(|calls|);
        calls := calls + [Call(OnFinish, NoArg)];
      }
    }
    if thrown.Some? && OnError in registered {
      var err := thrown.value;
      thrown := Some(fails(|calls|).GetOr(err));
      calls := calls + [Call(OnError, ErrorMessage(err.message))];
    }
  }

  /** `streamChatWithCallbacks(messages, options)`: run the generator and
      hand what it yields to the callbacks. */
  method StreamChatWithCallbacks(client: Client, messages: seq<Message>, options: ChatOptions, clock: Clock,
                                 reply: HttpResponse, parse: string -> Option<Json>,
                                 registered: set<Handler>, fails: nat -> Option<Error>)
    returns (calls: seq<Call>, thrown: Option<Error>)
    ensures Dispatched(calls, thrown)
         == Dispatch(ChatStream(Chat(client, messages, options, clock, reply), parse), registered, fails)
  {
    var events, failure := StreamChat(client, messages, options, clock, reply, parse);
    calls, thrown := DeliverStream(events, failure, registered, fails);
  }
}
