/** The streaming pipeline end to end: provider bytes (as text), parser, mapper, event translator, printer, and the
    parser again on the client's side. */
module Pipeline {
  import opened Prelude
  import opened Streaming
  import opened ChatStream
  import opened SsePrinter
  import opened SseGuard
  import Sse
  import OpenAiStream

  /** A JSON encoder for chat events, and the decoder that undoes it. */
  datatype Codec = Codec(encode: ChatEvent -> string, decode: string -> Option<ChatEvent>)

  /** What pydantic's model_dump_json guarantees of the events that are sent: one line, an object, and decodable. */
  predicate GoodCodec(codec: Codec, sent: seq<ChatEvent>) {
    forall i :: 0 <= i < |sent| ==>
                  ObjectLine(codec.encode(sent[i])) && codec.decode(codec.encode(sent[i])) == Some(sent[i])
  }

  /** Place of the event's first occurrence, or the length. */
  function FirstAt(sent: seq<ChatEvent>, e: ChatEvent): (i: nat)
    ensures i <= |sent|
    ensures e in sent ==> i < |sent| && sent[i] == e
  {
    if sent == [] || sent[0] == e then 0 else 1 + FirstAt(sent[1..], e)
  }

  /** A codec for a given list of events: an opening brace, and as many more as tell the event's place. */
  function PlaceCodec(sent: seq<ChatEvent>): Codec {
    Codec(e => seq(FirstAt(sent, e) + 1, _ => '{'),
          s => if 0 < |s| <= |sent| then Some(sent[|s| - 1]) else None)
  }

  /** Whatever is sent, there is a codec for it. */
  lemma CodecExists(sent: seq<ChatEvent>)
    ensures GoodCodec(PlaceCodec(sent), sent)
  {
    var codec := PlaceCodec(sent);
    forall i | 0 <= i < |sent|
      ensures ObjectLine(codec.encode(sent[i])) && codec.decode(codec.encode(sent[i])) == Some(sent[i])
    {
      assert sent[i] in sent;
      assert |codec.encode(sent[i])| == FirstAt(sent, sent[i]) + 1;
    }
  }

  function EventName(e: ChatEvent): string {
    match e
    case ChunkEvent(_, _, _, _, _) => "chunk"
    case DoneEvent(_, _, _, _, _, _) => "done"
    case ErrorEvent(_, _, _, _) => "error"
  }

  function Frames(codec: Codec, events: seq<ChatEvent>): (frames: seq<Frame>)
    ensures |frames| == |events|
  {
    seq(|events|, i requires 0 <= i < |events| => Frame(EventName(events[i]), codec.encode(events[i])))
  }

  /** What goes over the wire for one event: its name, its JSON, and a blank line. */
  lemma {:induction false} FrameIs(codec: Codec, events: seq<ChatEvent>, i: nat)
    requires i < |events|
    ensures var e := events[i];
            var name := if e.ChunkEvent? then "chunk" else if e.DoneEvent? then "done" else "error";
            EncodeFrame(Frames(codec, events)[i]) == "event: " + name + "\ndata: " + codec.encode(e) + "\n\n"
  {
    var e := events[i];
    assert "\n" + ("data: " + codec.encode(e) + "\n\n") == "\ndata: " + codec.encode(e) + "\n\n";
  }

  /** The provider's output for a response body that arrives in the given pieces. */
  function Provide(env: OpenAiStream.Env, body: seq<string>, max: nat): Output {
    var parsed := Sse.ParseSse(body, max);
    OpenAiStream.MapStream(env, OpenAiStream.START, parsed.events,
                           if parsed.failure == None then OpenAiStream.Ended else OpenAiStream.ProtocolError)
  }

  function Serve(env: OpenAiStream.Env, describe: Describe, requestId: string, body: seq<string>, max: nat): Response {
    CreateResponse(describe, StreamEvents(requestId, UpstreamOf(Provide(env, body, max))))
  }

  /** Everything the client is sent depends on the provider's text alone, not on how the network cuts it. */
  lemma CuttingDoesNotMatter(env: OpenAiStream.Env, describe: Describe, requestId: string, max: nat,
                             body: seq<string>, body': seq<string>)
    requires Concat(body) == Concat(body')
    requires CutsFit(body, max) && CutsFit(body', max)
    ensures Serve(env, describe, requestId, body, max) == Serve(env, describe, requestId, body', max)
  {
    OnePassIffCutsFit(body, max);
    OnePassIffCutsFit(body', max);
  }

  lemma ContractGivesUpstream(out: Output)
    requires MeetsContract(out, 0)
    ensures GoodUpstream(UpstreamOf(out), 0)
  {
    var up := UpstreamOf(out);
    var alike := Output(up.chunks, if up.raised == None then None else Some(Internal));
    assert up.raised == None <==> out.failure == None;
    assert alike.chunks == out.chunks;
  }

  /** A chunk event with this number and text, from this provider. */
  predicate ChunkSays(e: ChatEvent, requestId: string, i: nat, text: string) {
    e.ChunkEvent? && e.requestId == requestId && e.sequence == i && e.delta == text && e.provider == "openai"
  }

  /** The done event sums up what the provider's payloads said. */
  predicate DoneSays(env: OpenAiStream.Env, e: ChatEvent, requestId: string, n: nat, events: seq<Sse.Event>) {
    var known := OpenAiStream.Known(OpenAiStream.START,
                                    OpenAiStream.Payloads(env, events[..OpenAiStream.FirstDone(events)]));
    && e.DoneEvent? && e.requestId == requestId && e.sequence == n && e.provider == "openai"
    && Some(e.finish) == known.finish && e.usage == known.usage
  }

  predicate ErrorSays(describe: Describe, e: ChatEvent, requestId: string, failure: ProviderFailure) {
    e == ErrorEvent(requestId, describe(failure).code, describe(failure).message, describe(failure).retryAfter)
  }

  /** The response shows the provider's events: a chunk event for each content of the longest accepted prefix, numbered
      from 0, and then a done event exactly when the provider's stream completes; otherwise an invalid response is
      reported. */
  ghost predicate Renders(env: OpenAiStream.Env, describe: Describe, requestId: string, sent: seq<ChatEvent>,
                          events: seq<Sse.Event>, n: nat) {
    && OpenAiStream.LongestAccepted(env, OpenAiStream.START, events, n)
    && var texts := OpenAiStream.Spoken(OpenAiStream.Payloads(env, events[..n]));
       && |sent| == |texts| + 1
       && (forall i :: 0 <= i < |texts| ==> ChunkSays(sent[i], requestId, i, texts[i]))
       && (OpenAiStream.Completes(env, OpenAiStream.START, events) ==>
             DoneSays(env, sent[|texts|], requestId, |texts|, events))
       && (!OpenAiStream.Completes(env, OpenAiStream.START, events) ==>
             ErrorSays(describe, sent[|texts|], requestId, InvalidResponse))
  }

  /** What was parsed decodes to what was sent. */
  ghost predicate Delivers(codec: Codec, sent: seq<ChatEvent>, got: Sse.Parsed) {
    && got.failure == None
    && |got.events| == |sent|
    && forall i :: 0 <= i < |sent| ==> codec.decode(got.events[i].data) == Some(sent[i])
  }

  lemma ServerRenders(env: OpenAiStream.Env, describe: Describe, requestId: string, events: seq<Sse.Event>,
                      ending: OpenAiStream.Ending)
    returns (n: nat)
    requires ending.Ended? || ending.ProtocolError?
    requires CreateResponse(describe, StreamEvents(requestId, UpstreamOf(
               OpenAiStream.MapStream(env, OpenAiStream.START, events, ending)))).Streamed?
    ensures Renders(env, describe, requestId, CreateResponse(describe, StreamEvents(requestId, UpstreamOf(
               OpenAiStream.MapStream(env, OpenAiStream.START, events, ending)))).events, events, n)
  {
    var out := OpenAiStream.MapStream(env, OpenAiStream.START, events, ending);
    OpenAiStream.MapStreamContract(env, OpenAiStream.START, events, ending);
    n := OpenAiStream.MapStreamDeltas(env, OpenAiStream.START, events, ending);
    ContractGivesUpstream(out);
    ResponseShape(describe, requestId, UpstreamOf(out));
    OpenAiStream.ProviderIsNamed(env, OpenAiStream.START, events, ending);
    OpenAiStream.FailureIs(env, OpenAiStream.START, events, ending);
    if out.failure == None {
      OpenAiStream.FinalChunkSummarises(env, OpenAiStream.START, events, ending);
    }
    var sent := CreateResponse(describe, StreamEvents(requestId, UpstreamOf(out))).events;
    ShownChunks(describe, requestId, sent, out, OpenAiStream.Spoken(OpenAiStream.Payloads(env, events[..n])));
  }

  lemma {:induction false} ShownChunks(describe: Describe, requestId: string, sent: seq<ChatEvent>, out: Output,
                                       texts: seq<string>)
    requires WellFormedStream(describe, sent, requestId, UpstreamOf(out))
    requires OpenAiStream.Carries(out.chunks, texts, out.failure == None)
    requires forall c :: c in out.chunks ==> c.provider == "openai"
    requires out.failure == None ==> out.chunks != [] && out.chunks[|out.chunks| - 1].delta == ""
    ensures |sent| == |texts| + 1
    ensures forall i :: 0 <= i < |texts| ==> ChunkSays(sent[i], requestId, i, texts[i])
  {
    forall i | 0 <= i < |texts|
      ensures ChunkSays(sent[i], requestId, i, texts[i])
    {
      assert sent[..|sent| - 1][i] == sent[i];
      assert out.chunks[i] in out.chunks;
    }
  }

  lemma FramesArePrintable(codec: Codec, sent: seq<ChatEvent>)
    requires GoodCodec(codec, sent)
    ensures forall f :: f in Frames(codec, sent) ==> Printable(f)
  {
    forall f | f in Frames(codec, sent)
      ensures Printable(f)
    {
      var i :| 0 <= i < |sent| && Frames(codec, sent)[i] == f;
      NameIsPrintable(sent[i]);
      assert ObjectLine(codec.encode(sent[i]));
    }
  }

  lemma NameIsPrintable(e: ChatEvent)
    ensures NoBreak(EventName(e))
  {
  }

  lemma FramesDecode(codec: Codec, sent: seq<ChatEvent>)
    requires GoodCodec(codec, sent)
    ensures Delivers(codec, sent, Sse.Parsed(ParsedFrames(Frames(codec, sent)), None))
  {
  }

  lemma ClientReceives(codec: Codec, sent: seq<ChatEvent>, received: seq<string>, max: nat)
    requires GoodCodec(codec, sent)
    requires Concat(received) == EncodeFrames(Frames(codec, sent))
    requires CutsFit(received, max)
    ensures Delivers(codec, sent, Sse.ParseSse(received, max))
  {
    var frames := Frames(codec, sent);
    FramesArePrintable(codec, sent);
    FramesDecode(codec, sent);
    PrintThenParse(frames, received, max);
  }

  /** Main result. A client that parses the printed response, however the network cuts it, recovers exactly the
      events that were sent, and they render the one-pass events of the provider's text, however that was cut. */
  lemma ClientReadsProviderText(env: OpenAiStream.Env, describe: Describe, codec: Codec, requestId: string,
                                body: seq<string>, max: nat, received: seq<string>, clientMax: nat)
    returns (n: nat)
    requires CutsFit(body, max)
    requires Serve(env, describe, requestId, body, max).Streamed?
    requires GoodCodec(codec, Serve(env, describe, requestId, body, max).events)
    requires Concat(received) ==
             EncodeFrames(Frames(codec, Serve(env, describe, requestId, body, max).events))
    requires CutsFit(received, clientMax)
    ensures Delivers(codec, Serve(env, describe, requestId, body, max).events, Sse.ParseSse(received, clientMax))
    ensures Renders(env, describe, requestId, Serve(env, describe, requestId, body, max).events,
                    Sse.OnePass(Concat(body)).events, n)
  {
    OnePassIffCutsFit(body, max);
    var whole := Sse.OnePass(Concat(body));
    n := ServerRenders(env, describe, requestId, whole.events,
                       if whole.failure == None then OpenAiStream.Ended else OpenAiStream.ProtocolError);
    ClientReceives(codec, Serve(env, describe, requestId, body, max).events, received, clientMax);
  }

  /** For every response that starts there are a codec and a client that reads it. */
  lemma EveryResponseIsReadable(env: OpenAiStream.Env, describe: Describe, requestId: string, body: seq<string>,
                                max: nat)
    requires Serve(env, describe, requestId, body, max).Streamed?
    ensures var sent := Serve(env, describe, requestId, body, max).events;
            var printed := EncodeFrames(Frames(PlaceCodec(sent), sent));
            Delivers(PlaceCodec(sent), sent, Sse.ParseSse([printed], |printed|))
  {
    var sent := Serve(env, describe, requestId, body, max).events;
    var printed := EncodeFrames(Frames(PlaceCodec(sent), sent));
    CodecExists(sent);
    assert Concat([printed]) == printed + Concat([]) == printed;
    Sse.SmallTextIsOnePass([printed], |printed|);
    OnePassIffCutsFit([printed], |printed|);
    ClientReceives(PlaceCodec(sent), sent, [printed], |printed|);
  }
}
