/** `ChatApi.streamChat` as a whole: the chat call, then the response body
    read chunk by chunk through one `StreamDecoder`. */
module Stream {
  import opened Wrappers
  import opened Json
  import opened Text
  import opened Frames
  import opened Decoder
  import opened ChatRequest

  /** Everything the generator yields, and how its iteration ends:
      normally (None) or by throwing. */
  datatype StreamResult = StreamResult(events: seq<Event>, failure: Option<Error>)

  /** What reading a body yields: the events of all the text it delivers
      (how that text was cut into chunks plays no part), and the failure of a
      later read unless the legacy sentinel ended the stream first. No body
      yields nothing. */
  function BodyStream(body: Option<Body>, classify: string -> LineResult): StreamResult {
    match body
    case None => StreamResult([], None)
    case Some(b) =>
      var o := Decode(Concat(b.chunks), classify);
      StreamResult(o.events, if o.stopped then None else b.failure)
  }

  /** What `streamChat` yields after its own call of `chat`. */
  function ChatStream(call: ChatCall, parse: string -> Option<Json>): StreamResult {
    match call.outcome
    case Failure(e) => StreamResult([], Some(e))
    case Success(resp) => BodyStream(resp.body, Classifier(parse))
  }

  /** Every event the stream yields is well formed, and a failed chat call
      throws before any event. */
  lemma ChatStreamEvents(call: ChatCall, parse: string -> Option<Json>)
    ensures var r := ChatStream(call, parse);
            (forall i :: 0 <= i < |r.events| ==> WellFormed(r.events[i]))
            && (call.outcome.Failure? ==> r.events == [] && r.failure == Some(call.outcome.error))
  {
    if call.outcome.Success? && call.outcome.value.body.Some? {
      DecodeEvents(Concat(call.outcome.value.body.value.chunks), parse);
    }
  }

  /** Chunk invariance: the same text in any chunks yields the same as in one.
      At this level it follows from `BodyStream` being defined on the
      concatenated text; the proof that the chunk-by-chunk reading loop
      actually computes that is the loop invariant of `ReadBody` (and of
      `Decoder.Drain` it calls through `StreamDecoder.Feed`). */
  lemma ChunkInvariance(chunks: seq<string>, failure: Option<Error>, classify: string -> LineResult)
    ensures BodyStream(Some(Body(chunks, failure)), classify)
         == BodyStream(Some(Body([Concat(chunks)], failure)), classify)
  {
    var whole := Concat(chunks);
    assert Concat([whole]) == whole by {
      assert [whole][1..] == [];
      assert Concat([whole]) == whole + "";
    }
  }

  lemma ConcatStep(chunks: seq<string>, i: nat)
    requires i < |chunks|
    ensures Concat(chunks[i..]) == chunks[i] + Concat(chunks[i + 1..])
  {
    assert chunks[i..][1..] == chunks[i + 1..];
  }

  /** One read of the loop of `StreamChat`, in terms of `Decode`. */
  lemma FeedStep(total: Outcome, events: seq<Event>, before: string, chunk: string, later: string,
                 more: seq<Event>, stop: bool, after: string, classify: string -> LineResult)
    requires total == Prepend(events, Decode(before + (chunk + later), classify))
    requires Outcome(more, stop) == Decode(before + chunk, classify)
    requires !stop ==> after == Pending(before + chunk)
    ensures stop ==> total == Outcome(events + more, true)
    ensures !stop ==> total == Prepend(events + more, Decode(after + later, classify))
  {
    assert before + (chunk + later) == (before + chunk) + later;
    DecodeAppend(before + chunk, later, classify);
    if stop {
      assert more + [] == more;
      assert (events + more) + [] == events + more;
      PrependPrepend(events, more, Outcome([], true));
    } else {
      PrependPrepend(events, more, Decode(after + later, classify));
    }
  }

  /** The read loop of the generator: feed every chunk of the body to one
      decoder, in order, and stop early on the sentinel; a read that fails
      after the last chunk makes the generator throw. */
  method ReadBody(body: Body, parse: string -> Option<Json>) returns (events: seq<Event>, failure: Option<Error>)
    ensures StreamResult(events, failure) == BodyStream(Some(body), Classifier(parse))
  {
    var chunks := body.chunks;
    var decoder := new StreamDecoder(Classifier(parse));
    ghost var classify := decoder.classify;
    events := [];
    var i := 0;
    assert "" + Concat(chunks[0..]) == Concat(chunks) by {
      assert chunks[0..] == chunks;
    }
    assert [] + Decode(Concat(chunks), classify).events == Decode(Concat(chunks), classify).events;
    while i < |chunks|
      invariant 0 <= i <= |chunks|
      invariant decoder.Valid() && !decoder.stopped && decoder.classify == classify
      invariant Decode(Concat(chunks), classify)
             == Prepend(events, Decode(decoder.buffer + Concat(chunks[i..]), classify))
    {
      ghost var before := decoder.buffer;
      ConcatStep(chunks, i);
      var more, stop := decoder.Feed(chunks[i]);
      FeedStep(Decode(Concat(chunks), classify), events, before, chunks[i], Concat(chunks[i + 1..]),
               more, stop, decoder.buffer, classify);
      events := events + more;
      if stop {
        return events, None;
      }
      i := i + 1;
    }
    assert chunks[i..] == [];
    assert decoder.buffer + "" == decoder.buffer;
    DecodeNoNewline(decoder.buffer, classify);
    assert events + [] == events;
    failure := body.failure;
  }

  /** The generator: call `chat`, then read the body (if any) to its end. */
  method StreamChat(client: Client, messages: seq<Message>, options: ChatOptions, clock: Clock,
                    reply: HttpResponse, parse: string -> Option<Json>)
    returns (events: seq<Event>, failure: Option<Error>)
    ensures StreamResult(events, failure) == ChatStream(Chat(client, messages, options, clock, reply), parse)
  {
    var call := Chat(client, messages, options, clock, reply);
    if call.outcome.Failure? {
      return [], Some(call.outcome.error);
    }
    var resp := call.outcome.value;
    if resp.body.None? {
      return [], None;
    }
    events, failure := ReadBody(resp.body.value, parse);
  }
}
