/** ChatService._stream_events and the streaming half of api/v1/routes/chat.py: provider chunks become chat events,
    and chat events become the frames of a response that already started. */
module ChatStream {
  import opened Prelude
  import opened Streaming

  datatype ChatEvent =
    | ChunkEvent(requestId: string, sequence: nat, delta: string, provider: string, model: string)
    | DoneEvent(requestId: string, sequence: nat, provider: string, model: string, finish: FinishReason,
                usage: Option<Usage>)
    | ErrorEvent(requestId: string, code: string, message: string, retryAfter: Option<real>)

  /** An exception that leaves the event generator: one of the LLM exceptions, or anything else. */
  datatype Raised = Llm(failure: ProviderFailure) | Other

  /** Events yielded, then a normal end or an exception. */
  datatype Events = Events(events: seq<ChatEvent>, raised: Option<Raised>)

  /** The upstream iterator of _stream_events: chunks, then its end. */
  datatype Upstream = Upstream(chunks: seq<Chunk>, raised: Option<Raised>)

  function UpstreamOf(out: Output): Upstream {
    Upstream(out.chunks, match out.failure case None => None case Some(f) => Some(Llm(f)))
  }

  function ToChunkEvent(requestId: string, c: Chunk): ChatEvent {
    ChunkEvent(requestId, c.sequence, c.delta, c.provider, c.model)
  }

  /** None where the source raises for a final chunk without finish reason. */
  function ToDoneEvent(requestId: string, c: Chunk, sequence: nat): Option<ChatEvent> {
    if c.finish == None then None
    else Some(DoneEvent(requestId, sequence, c.provider, c.model, c.finish.value, c.usage))
  }

  /** The final chunk: its text, if any, as a chunk event, then the done event with the next number. */
  function FinalEvents(requestId: string, c: Chunk): Events {
    var text := if c.delta == "" then [] else [ToChunkEvent(requestId, c)];
    match ToDoneEvent(requestId, c, c.sequence + |text|)
    case None => Events(text, Some(Llm(InvalidResponse)))
    case Some(done) => Events(text + [done], None)
  }

  function StreamEvents(requestId: string, up: Upstream): Events
    decreases |up.chunks|
  {
    if up.chunks == [] then
      Events([], if up.raised == None then Some(Llm(InvalidResponse)) else up.raised)
    else
      var c := up.chunks[0];
      if !c.isFinal then
        var rest := StreamEvents(requestId, up.(chunks := up.chunks[1..]));
        Events([ToChunkEvent(requestId, c)] + rest.events, rest.raised)
      else FinalEvents(requestId, c)
  }

  method YieldFinal(requestId: string, chunk: Chunk) returns (r: Events)
    ensures r == FinalEvents(requestId, chunk)
  {
    var doneSequence := chunk.sequence;
    var yielded: seq<ChatEvent> := [];
    if chunk.delta != "" {
      yielded := yielded + [ToChunkEvent(requestId, chunk)];
      doneSequence := doneSequence + 1;
    }
    var done := ToDoneEvent(requestId, chunk, doneSequence);
    return if done == None then Events(yielded, Some(Llm(InvalidResponse))) else Events(yielded + [done.value], None);
  }

  /** The generator's loop, with its early return. */
  method RunStreamEvents(requestId: string, up: Upstream) returns (r: Events)
    ensures r == StreamEvents(requestId, up)
  {
    var yielded: seq<ChatEvent> := [];
    for i := 0 to |up.chunks|
      invariant var rest := StreamEvents(requestId, up.(chunks := up.chunks[i..]));
                StreamEvents(requestId, up) == Events(yielded + rest.events, rest.raised)
    {
      var chunk := up.chunks[i];
      assert up.chunks[i..][0] == chunk && up.chunks[i..][1..] == up.chunks[i + 1..];
      if chunk.isFinal {
        var last := YieldFinal(requestId, chunk);
        return Events(yielded + last.events, last.raised);
      }
      var event := ToChunkEvent(requestId, chunk);
      ghost var rest := StreamEvents(requestId, up.(chunks := up.chunks[i + 1..]));
      assert yielded + ([event] + rest.events) == yielded + [event] + rest.events;
      yielded := yielded + [event];
    }
    assert up.chunks[|up.chunks|..] == [];
    assert yielded + [] == yielded;
    return Events(yielded, if up.raised == None then Some(Llm(InvalidResponse)) else up.raised);
  }

  /** Code, message and retry delay that map_llm_exception assigns to a failure. */
  datatype ErrorInfo = ErrorInfo(code: string, message: string, retryAfter: Option<real>)

  type Describe = ProviderFailure -> ErrorInfo

  const INTERNAL := ErrorInfo("internal_server_error", "An unexpected error occurred", None)

  function ToErrorEvent(requestId: string, info: ErrorInfo): ChatEvent {
    ErrorEvent(requestId, info.code, info.message, info.retryAfter)
  }

  function InfoOf(describe: Describe, raised: Raised): ErrorInfo {
    match raised
    case Llm(failure) => describe(failure)
    case Other => INTERNAL
  }

  /** What the HTTP client gets: a plain failure before anything was sent, or a stream of events. */
  datatype Response = Refused(raised: Option<Raised>) | Streamed(events: seq<ChatEvent>)

  /** _encode_event_stream after the first event. */
  function EncodedRest(describe: Describe, requestId: string, rest: Events): seq<ChatEvent>
    decreases |rest.events|
  {
    if rest.events == [] then
      if rest.raised == None then [] else [ToErrorEvent(requestId, InfoOf(describe, rest.raised.value))]
    else if rest.events[0].requestId != requestId then [ToErrorEvent(requestId, INTERNAL)]
    else [rest.events[0]] + EncodedRest(describe, requestId, rest.(events := rest.events[1..]))
  }

  /** _create_streaming_response: one event is fetched before the response starts. */
  function CreateResponse(describe: Describe, events: Events): Response {
    if events.events == [] then Refused(events.raised)
    else
      var first := events.events[0];
      Streamed([first] + EncodedRest(describe, first.requestId, events.(events := events.events[1..])))
  }

  /** The two coroutines driven to the end. */
  method ServeStream(describe: Describe, events: Events) returns (r: Response)
    ensures r == CreateResponse(describe, events)
  {
    if events.events == [] {
      return Refused(events.raised);
    }
    var first := events.events[0];
    var requestId := first.requestId;
    var rest := events.events[1..];
    var sent := [first];
    while rest != []
      invariant CreateResponse(describe, events) ==
                Streamed(sent + EncodedRest(describe, requestId, Events(rest, events.raised)))
      decreases |rest|
    {
      var event := rest[0];
      if event.requestId != requestId {
        return Streamed(sent + [ToErrorEvent(requestId, INTERNAL)]);
      }
      ghost var tail := EncodedRest(describe, requestId, Events(rest[1..], events.raised));
      assert sent + ([event] + tail) == sent + [event] + tail;
      sent := sent + [event];
      rest := rest[1..];
    }
    if events.raised.Some? {
      return Streamed(sent + [ToErrorEvent(requestId, InfoOf(describe, events.raised.value))]);
    }
    assert sent + [] == sent;
    return Streamed(sent);
  }

  // ---------------------------------------------------------------------------------------------------------
  // The shape of every response, given a provider that meets its contract.

  /** What _stream_events may rely on: the provider contract up to the first failure. */
  ghost predicate GoodUpstream(up: Upstream, from: nat) {
    MeetsContract(Output(up.chunks, if up.raised == None then None else Some(Internal)), from)
  }

  function EventText(events: seq<ChatEvent>): string {
    if events == [] then ""
    else (if events[0].ChunkEvent? then events[0].delta else "") + EventText(events[1..])
  }

  /** One chunk event per chunk, in order, with the chunk's text and names. */
  predicate Mirrors(events: seq<ChatEvent>, chunks: seq<Chunk>, requestId: string, from: nat) {
    |events| <= |chunks| &&
    forall i :: 0 <= i < |events| ==>
                  events[i] == ChunkEvent(requestId, from + i, chunks[i].delta, chunks[i].provider, chunks[i].model)
  }

  lemma MirrorsCons(c: Chunk, e: ChatEvent, events: seq<ChatEvent>, chunks: seq<Chunk>, requestId: string, from: nat)
    requires Mirrors(events, chunks, requestId, from + 1)
    requires e == ChunkEvent(requestId, from, c.delta, c.provider, c.model)
    ensures Mirrors([e] + events, [c] + chunks, requestId, from)
  {
    forall i | 0 < i < |[e] + events|
      ensures ([e] + events)[i] == events[i - 1] && ([c] + chunks)[i] == chunks[i - 1]
    {
    }
  }

  /** Chunk events numbered from `from`, all for one request. */
  predicate NumberedChunks(events: seq<ChatEvent>, requestId: string, from: nat) {
    forall i :: 0 <= i < |events| ==>
                  events[i].ChunkEvent? && events[i].sequence == from + i && events[i].requestId == requestId
  }

  lemma NumberedCons(e: ChatEvent, rest: seq<ChatEvent>, requestId: string, from: nat)
    requires NumberedChunks(rest, requestId, from + 1)
    requires e.ChunkEvent? && e.sequence == from && e.requestId == requestId
    ensures NumberedChunks([e] + rest, requestId, from)
  {
    forall i | 0 < i < |[e] + rest|
      ensures ([e] + rest)[i] == rest[i - 1]
    {
    }
  }

  /** The chunks that become chunk events: all, but not a final one without text. */
  function Shown(up: Upstream): nat {
    if up.raised == None && up.chunks != [] && up.chunks[|up.chunks| - 1].delta == "" then |up.chunks| - 1
    else |up.chunks|
  }

  /** Chunk events, then a done event with the next number exactly when the upstream did not fail. */
  ghost predicate EventsShape(r: Events, up: Upstream, requestId: string, from: nat) {
    var n := if r.raised == None then |r.events| - 1 else |r.events|;
    && r.raised == up.raised
    && n >= 0
    && NumberedChunks(r.events[..n], requestId, from)
    && Mirrors(r.events[..n], up.chunks, requestId, from)
    && n == Shown(up)
    && EventText(r.events) == Deltas(up.chunks)
    && (r.raised == None ==>
          up.chunks != [] &&
          var last := up.chunks[|up.chunks| - 1];
          last.finish.Some? &&
          r.events[n] == DoneEvent(requestId, from + n, last.provider, last.model, last.finish.value, last.usage))
  }

  lemma {:induction false} ShownCons(up: Upstream, from: nat)
    requires GoodUpstream(up, from) && up.chunks != [] && !up.chunks[0].isFinal
    ensures Shown(up) == Shown(up.(chunks := up.chunks[1..])) + 1
  {
    if |up.chunks| == 1 {
      assert up.chunks[|up.chunks| - 1] == up.chunks[0];
    }
  }

  /** Putting one more chunk in front. */
  lemma {:induction false} ShapeCons(requestId: string, up: Upstream, from: nat)
    requires GoodUpstream(up, from) && up.chunks != [] && !up.chunks[0].isFinal
    requires var up1 := up.(chunks := up.chunks[1..]);
             EventsShape(StreamEvents(requestId, up1), up1, requestId, from + 1)
    ensures EventsShape(StreamEvents(requestId, up), up, requestId, from)
  {
    var c := up.chunks[0];
    assert c.sequence == from + 0;
    var r := StreamEvents(requestId, up);
    var r1 := StreamEvents(requestId, up.(chunks := up.chunks[1..]));
    var n1 := if r1.raised == None then |r1.events| - 1 else |r1.events|;
    ShownCons(up, from);
    NumberedCons(ToChunkEvent(requestId, c), r1.events[..n1], requestId, from);
    MirrorsCons(c, ToChunkEvent(requestId, c), r1.events[..n1], up.chunks[1..], requestId, from);
    assert [c] + up.chunks[1..] == up.chunks;
    assert r.events[..n1 + 1] == [ToChunkEvent(requestId, c)] + r1.events[..n1];
    assert r.events[1..] == r1.events;
  }

  lemma {:induction false} RestIsGood(up: Upstream, from: nat)
    requires GoodUpstream(up, from) && up.chunks != [] && !up.chunks[0].isFinal
    ensures GoodUpstream(up.(chunks := up.chunks[1..]), from + 1)
  {
    var rest := up.chunks[1..];
    assert forall i :: 0 <= i < |rest| ==> rest[i] == up.chunks[i + 1];
  }

  /** The final chunk alone. */
  lemma {:induction false} FinalShape(requestId: string, up: Upstream, from: nat)
    requires GoodUpstream(up, from) && up.chunks != [] && up.chunks[0].isFinal
    ensures EventsShape(StreamEvents(requestId, up), up, requestId, from)
    ensures StreamEvents(requestId, up).events != []
  {
    var r := StreamEvents(requestId, up);
    var c := up.chunks[0];
    assert c.sequence == from + 0;
    assert up.chunks[1..] == [];
    var done := ToDoneEvent(requestId, c, c.sequence + |r.events| - 1).value;
    assert [done][1..] == [];
    assert EventText([done]) == "" + EventText([]) == "";
    assert Deltas(up.chunks) == c.delta + "" == c.delta;
    if c.delta == "" {
      assert r.events == [done];
      assert r.events[..0] == [];
    } else {
      assert r.events == [ToChunkEvent(requestId, c), done];
      assert r.events[..1] == [ToChunkEvent(requestId, c)] && r.events[1..] == [done];
    }
  }

  lemma {:induction false} StreamEventsShape(requestId: string, up: Upstream, from: nat)
    requires GoodUpstream(up, from)
    ensures EventsShape(StreamEvents(requestId, up), up, requestId, from)
    ensures up.chunks != [] ==> StreamEvents(requestId, up).events != []
    decreases |up.chunks|
  {
    if up.chunks == [] {
    } else if up.chunks[0].isFinal {
      FinalShape(requestId, up, from);
    } else {
      RestIsGood(up, from);
      StreamEventsShape(requestId, up.(chunks := up.chunks[1..]), from + 1);
      ShapeCons(requestId, up, from);
    }
  }

  lemma {:induction false} EncodedRestOfOneRequest(describe: Describe, requestId: string, rest: Events)
    requires forall i :: 0 <= i < |rest.events| ==> rest.events[i].requestId == requestId
    ensures EncodedRest(describe, requestId, rest) ==
            rest.events +
            (if rest.raised == None then [] else [ToErrorEvent(requestId, InfoOf(describe, rest.raised.value))])
    decreases |rest.events|
  {
    if rest.events != [] {
      EncodedRestOfOneRequest(describe, requestId, rest.(events := rest.events[1..]));
    }
  }

  /** The done event carries the final chunk's names, finish reason and usage. */
  predicate DoneIs(e: ChatEvent, requestId: string, sequence: nat, last: Chunk) {
    last.finish.Some? &&
    e == DoneEvent(requestId, sequence, last.provider, last.model, last.finish.value, last.usage)
  }

  /** A started response: chunk events numbered from 0, then exactly one closing event. */
  ghost predicate WellFormedStream(describe: Describe, events: seq<ChatEvent>, requestId: string, up: Upstream) {
    && events != []
    && var n := |events| - 1;
       && NumberedChunks(events[..n], requestId, 0)
       && Mirrors(events[..n], up.chunks, requestId, 0)
       && n == Shown(up)
       && EventText(events) == Deltas(up.chunks)
       && match up.raised
          case None =>
            up.chunks != [] && DoneIs(events[n], requestId, n, up.chunks[|up.chunks| - 1])
          case Some(Llm(failure)) =>
            var info := describe(failure);
            events[n] == ErrorEvent(requestId, info.code, info.message, info.retryAfter)
          case Some(Other) =>
            events[n] == ErrorEvent(requestId, "internal_server_error", "An unexpected error occurred", None)
  }

  lemma EventTextSnoc(events: seq<ChatEvent>, last: ChatEvent)
    requires !last.ChunkEvent?
    ensures EventText(events + [last]) == EventText(events)
  {
    if events == [] {
      assert [last][1..] == [];
      assert [] + [last] == [last];
    } else {
      EventTextSnoc(events[1..], last);
      assert (events + [last])[1..] == events[1..] + [last];
    }
  }

  lemma CompletedResponse(describe: Describe, requestId: string, r: Events, up: Upstream)
    requires EventsShape(r, up, requestId, 0) && r.events != [] && r.raised == None
    ensures CreateResponse(describe, r) == Streamed(r.events)
    ensures WellFormedStream(describe, r.events, requestId, up)
  {
    var n := |r.events| - 1;
    forall i | 0 <= i < |r.events|
      ensures r.events[i].requestId == requestId
    {
      if i < n {
        assert r.events[..n][i] == r.events[i];
      }
    }
    EncodedRestOfOneRequest(describe, requestId, r.(events := r.events[1..]));
    assert [r.events[0]] + (r.events[1..] + []) == r.events;
  }

  lemma BrokenResponse(describe: Describe, requestId: string, r: Events, up: Upstream)
    requires EventsShape(r, up, requestId, 0) && r.events != [] && r.raised.Some?
    ensures var closing := ToErrorEvent(requestId, InfoOf(describe, r.raised.value));
            CreateResponse(describe, r) == Streamed(r.events + [closing]) &&
            WellFormedStream(describe, r.events + [closing], requestId, up)
  {
    assert r.events[..|r.events|] == r.events;
    EncodedRestOfOneRequest(describe, requestId, r.(events := r.events[1..]));
    var closing := ToErrorEvent(requestId, InfoOf(describe, r.raised.value));
    var all := r.events + [closing];
    assert [r.events[0]] + (r.events[1..] + [closing]) == all;
    assert all[..|all| - 1] == r.events;
    EventTextSnoc(r.events, closing);
  }

  /** Main result: with a provider that meets its contract up to its first failure, a response that starts is chunk
      events numbered from 0 that carry the provider's text, then one done event with the next number or one error
      event; a provider that fails before its first chunk starts no response. */
  lemma ResponseShape(describe: Describe, requestId: string, up: Upstream)
    requires GoodUpstream(up, 0)
    ensures var response := CreateResponse(describe, StreamEvents(requestId, up));
            if up.chunks == [] then up.raised.Some? && response == Refused(up.raised)
            else response.Streamed? && WellFormedStream(describe, response.events, requestId, up)
  {
    StreamEventsShape(requestId, up, 0);
    var r := StreamEvents(requestId, up);
    if r.events != [] {
      if r.raised == None {
        CompletedResponse(describe, requestId, r, up);
      } else {
        BrokenResponse(describe, requestId, r, up);
      }
    }
  }

  /** An upstream that ends without a final chunk is an invalid response. */
  lemma {:induction false} MissingFinalIsInvalid(requestId: string, up: Upstream)
    requires forall i :: 0 <= i < |up.chunks| ==> !up.chunks[i].isFinal
    ensures StreamEvents(requestId, up).raised == if up.raised == None then Some(Llm(InvalidResponse)) else up.raised
    ensures |StreamEvents(requestId, up).events| == |up.chunks|
    decreases |up.chunks|
  {
    if up.chunks != [] {
      assert forall i :: 0 <= i < |up.chunks[1..]| ==> up.chunks[1..][i] == up.chunks[i + 1];
      MissingFinalIsInvalid(requestId, up.(chunks := up.chunks[1..]));
    }
  }

  /** An event of another request ends the response with an internal error, and is not sent. */
  lemma {:induction false} OtherRequestIsStopped(describe: Describe, events: Events, k: nat)
    requires 0 < k < |events.events|
    requires forall i :: 0 <= i < k ==> events.events[i].requestId == events.events[0].requestId
    requires events.events[k].requestId != events.events[0].requestId
    ensures CreateResponse(describe, events) ==
            Streamed(events.events[..k] + [ErrorEvent(events.events[0].requestId, "internal_server_error",
                                                      "An unexpected error occurred", None)])
  {
    var rest := events.(events := events.events[1..]);
    assert forall i :: 0 <= i < |rest.events| ==> rest.events[i] == events.events[i + 1];
    RestIsStopped(describe, events.events[0].requestId, rest, k - 1);
    assert events.events[..k] == [events.events[0]] + rest.events[..k - 1];
  }

  lemma {:induction false} RestIsStopped(describe: Describe, requestId: string, rest: Events, k: nat)
    requires k < |rest.events| && rest.events[k].requestId != requestId
    requires forall i :: 0 <= i < k ==> rest.events[i].requestId == requestId
    ensures EncodedRest(describe, requestId, rest) ==
            rest.events[..k] + [ErrorEvent(requestId, "internal_server_error", "An unexpected error occurred", None)]
    decreases k
  {
    if k > 0 {
      var tail := rest.(events := rest.events[1..]);
      assert forall i :: 0 <= i < |tail.events| ==> tail.events[i] == rest.events[i + 1];
      RestIsStopped(describe, requestId, tail, k - 1);
      assert rest.events[..k] == [rest.events[0]] + tail.events[..k - 1];
    }
  }
}
