/** OpenAIProvider._map_stream: from server-sent events to normalized chunks. The JSON decoder and the string
    constraints of the chunk schema are parameters; everything in between is the source's. */
module OpenAiStream {
  import opened Prelude
  import opened Text
  import opened Streaming
  import Sse

  datatype Json =
    | Null
    | Bool(b: bool)
    | Int(n: int)
    | Float(r: real)
    | Str(s: string)
    | Array(items: seq<Json>)
    | Object(fields: map<string, Json>)

  /** dict.get: an absent key and a JSON null read the same. */
  function Get(fields: map<string, Json>, key: string): Json {
    if key in fields then fields[key] else Null
  }

  /** `decode` is json.loads (None when it raises); `cleanModel` and `cleanId` are the chunk schema's constrained
      strings (None when validation fails). */
  datatype Env = Env(
    decode: string -> Option<Json>,
    requestModel: string,
    cleanModel: string -> Option<string>,
    cleanId: string -> Option<string>)

  datatype Mapper = Mapper(
    sequence: nat,
    model: Option<string>,
    id: Option<string>,
    finish: Option<FinishReason>,
    usage: Option<Usage>)

  const START := Mapper(0, None, None, None, None)

  /** Each helper below returns None where the source raises ProviderInvalidResponse. */
  function MergeIdentity(current: Option<string>, incoming: Json): Option<Option<string>> {
    match incoming
    case Null => Some(current)
    case Str(s) => if Blank(s) || (current.Some? && s != current.value) then None else Some(Some(s))
    case _ => None
  }

  function MapFinishReason(value: Json): Option<FinishReason> {
    if !value.Str? || Blank(value.s) then None
    else if value.s == "stop" then Some(Stop)
    else if value.s == "length" then Some(Length)
    else if value.s == "content_filter" then Some(ContentFilter)
    else if value.s == "tool_calls" || value.s == "function_call" then None
    else Some(Unknown)
  }

  function TokenCount(value: Json): Option<Option<nat>> {
    match value
    case Null => Some(None)
    case Int(n) => if n >= 0 then Some(Some(n)) else None
    case _ => None
  }

  function MapUsage(value: Json): Option<Usage> {
    if !value.Object? then None
    else
      var input := TokenCount(Get(value.fields, "prompt_tokens"));
      var output := TokenCount(Get(value.fields, "completion_tokens"));
      var total := TokenCount(Get(value.fields, "total_tokens"));
      if input.None? || output.None? || total.None? then None
      else Some(Usage(input.value, output.value, total.value))
  }

  predicate HasToolCall(delta: map<string, Json>) {
    "tool_calls" in delta || "tool_call" in delta || "function_call" in delta
  }

  /** The body of the loop up to the point where content may be yielded: the new state and the content ("" for
      none). */
  function TakePayload(m: Mapper, payload: Json): Option<(Mapper, string)> {
    if !payload.Object? then None
    else
      var fields := payload.fields;
      var model := MergeIdentity(m.model, Get(fields, "model"));
      var id := MergeIdentity(m.id, Get(fields, "id"));
      var reported := Get(fields, "usage");
      var usage := if reported == Null then Some(m.usage)
                   else match MapUsage(reported) case None => None case Some(u) => Some(Some(u));
      if model.None? || id.None? || usage.None? then None
      else
        var m1 := m.(model := model.value, id := id.value, usage := usage.value);
        var choices := Get(fields, "choices");
        if !choices.Array? then None
        else if choices.items == [] then (if reported == Null then None else Some((m1, "")))
        else if |choices.items| != 1 || !choices.items[0].Object? then None
        else
          var choice := choices.items[0].fields;
          var delta := Get(choice, "delta");
          if !delta.Object? || HasToolCall(delta.fields) then None
          else
            var finish := TakeFinish(m1.finish, Get(choice, "finish_reason"));
            var content := Get(delta.fields, "content");
            if finish.None? || !(content.Null? || content.Str?) then None
            else Some((m1.(finish := finish.value), if content.Null? then "" else content.s))
  }

  function TakeFinish(current: Option<FinishReason>, incoming: Json): Option<Option<FinishReason>> {
    if incoming == Null then Some(current)
    else
      match MapFinishReason(incoming)
      case None => None
      case Some(reason) => if current.Some? && current.value != reason then None else Some(Some(reason))
  }

  function ModelName(env: Env, model: Option<string>): string {
    if model.Some? then model.value else env.requestModel
  }

  /** Whether the chunk schema accepts the two names. */
  predicate NamesOk(env: Env, model: Option<string>, id: Option<string>) {
    env.cleanModel(ModelName(env, model)).Some? && (id.Some? ==> env.cleanId(id.value).Some?)
  }

  function BuildChunk(env: Env, m: Mapper, delta: string, isFinal: bool): Option<Chunk> {
    if !NamesOk(env, m.model, m.id) then None
    else
      Some(Chunk(m.sequence, delta, "openai", env.cleanModel(ModelName(env, m.model)).value,
                 if m.id.Some? then env.cleanId(m.id.value) else None,
                 isFinal, if isFinal then m.finish else None, if isFinal then m.usage else None))
  }

  /** How the event source ends when it is read to its end: by itself, or by a protocol or transport error. */
  datatype Ending = Ended | ProtocolError | TimedOut | Broken

  function EndingFailure(ending: Ending): ProviderFailure {
    match ending
    case Ended => InvalidResponse
    case ProtocolError => InvalidResponse
    case TimedOut => Timeout
    case Broken => Unavailable
  }

  function Decoded(env: Env, e: Sse.Event): Json {
    var payload := env.decode(e.data);
    if payload.None? then Null else payload.value
  }

  const INVALID := Output([], Some(InvalidResponse))

  function MapStream(env: Env, m: Mapper, events: seq<Sse.Event>, ending: Ending): Output
    decreases |events|
  {
    if events == [] then Output([], Some(EndingFailure(ending)))
    else if events[0].isDone then
      if m.finish == None || BuildChunk(env, m, "", true) == None then INVALID
      else Output([BuildChunk(env, m, "", true).value], None)
    else
      match TakePayload(m, Decoded(env, events[0]))
      case None => INVALID
      case Some((m1, content)) =>
        if content == "" then MapStream(env, m1, events[1..], ending)
        else if BuildChunk(env, m1, content, false) == None then INVALID
        else
          var rest := MapStream(env, m1.(sequence := m1.sequence + 1), events[1..], ending);
          Output([BuildChunk(env, m1, content, false).value] + rest.chunks, rest.failure)
  }

  /** The first event is a payload the mapper takes. */
  predicate CanStep(env: Env, m: Mapper, events: seq<Sse.Event>)
    requires events != []
  {
    !events[0].isDone && TakePayload(m, Decoded(env, events[0])).Some? &&
    var (m1, content) := TakePayload(m, Decoded(env, events[0])).value;
    content == "" || BuildChunk(env, m1, content, false).Some?
  }

  function Stepped(env: Env, m: Mapper, events: seq<Sse.Event>): Mapper
    requires events != [] && CanStep(env, m, events)
  {
    var (m1, content) := TakePayload(m, Decoded(env, events[0])).value;
    if content == "" then m1 else m1.(sequence := m1.sequence + 1)
  }

  lemma {:induction false} MapStreamStep(env: Env, m: Mapper, events: seq<Sse.Event>, ending: Ending)
    requires events != [] && CanStep(env, m, events)
    ensures var out := MapStream(env, m, events, ending);
            var rest := MapStream(env, Stepped(env, m, events), events[1..], ending);
            var (m1, content) := TakePayload(m, Decoded(env, events[0])).value;
            out.failure == rest.failure && Deltas(out.chunks) == content + Deltas(rest.chunks) &&
            out.chunks == (if content == "" then [] else [BuildChunk(env, m1, content, false).value]) + rest.chunks
  {
    var rest := MapStream(env, Stepped(env, m, events), events[1..], ending);
    var (m1, content) := TakePayload(m, Decoded(env, events[0])).value;
    if content == "" {
      assert [] + rest.chunks == rest.chunks;
    } else {
      assert ([BuildChunk(env, m1, content, false).value] + rest.chunks)[1..] == rest.chunks;
    }
  }

  /** Chunks in front of what comes later. */
  function Then(chunks: seq<Chunk>, rest: Output): Output {
    Output(chunks + rest.chunks, rest.failure)
  }

  lemma {:induction false} ThenTwice(a: seq<Chunk>, b: seq<Chunk>, rest: Output)
    ensures Then(a + b, rest) == Then(a, Then(b, rest))
  {
    assert a + b + rest.chunks == a + (b + rest.chunks);
  }

  lemma {:induction false} ThenNothing(rest: Output)
    ensures Then([], rest) == rest
  {
    assert [] + rest.chunks == rest.chunks;
  }

  /** One event that is not [DONE]: the mapper after it and the chunk to yield, if any. */
  method TakeEvent(env: Env, m: Mapper, events: seq<Sse.Event>, ghost ending: Ending)
    returns (r: Option<(Mapper, seq<Chunk>)>)
    requires events != [] && !events[0].isDone
    ensures r == None ==> MapStream(env, m, events, ending) == INVALID
    ensures r.Some? ==>
              MapStream(env, m, events, ending) == Then(r.value.1, MapStream(env, r.value.0, events[1..], ending))
  {
    var taken := TakePayload(m, Decoded(env, events[0]));
    if taken == None {
      return None;
    }
    var next := taken.value.0;
    var yielded: seq<Chunk> := [];
    if taken.value.1 != "" {
      var chunk := BuildChunk(env, next, taken.value.1, false);
      if chunk == None {
        return None;
      }
      next := next.(sequence := next.sequence + 1);
      yielded := [chunk.value];
    }
    MapStreamStep(env, m, events, ending);
    return Some((next, yielded));
  }

  /** [DONE]: the final chunk, if there is a finish reason. */
  method TakeDone(env: Env, m: Mapper, events: seq<Sse.Event>, ending: Ending) returns (out: Output)
    requires events != [] && events[0].isDone
    ensures out == MapStream(env, m, events, ending)
  {
    if m.finish == None {
      return INVALID;
    }
    var last := BuildChunk(env, m, "", true);
    return if last == None then INVALID else Output([last.value], None);
  }

  /** The generator's loop. `chunks` is what the consumer receives. */
  method MapEvents(env: Env, events: seq<Sse.Event>, ending: Ending) returns (out: Output)
    ensures out == MapStream(env, START, events, ending)
  {
    var m := START;
    var chunks: seq<Chunk> := [];
    var rest := events;
    ThenNothing(MapStream(env, m, rest, ending));
    while rest != []
      invariant MapStream(env, START, events, ending) == Then(chunks, MapStream(env, m, rest, ending))
      decreases |rest|
    {
      if rest[0].isDone {
        var last := TakeDone(env, m, rest, ending);
        return Output(chunks + last.chunks, last.failure);
      }
      var taken := TakeEvent(env, m, rest, ending);
      if taken == None {
        assert chunks + [] == chunks;
        return Output(chunks, Some(InvalidResponse));
      }
      ThenTwice(chunks, taken.value.1, MapStream(env, taken.value.0, rest[1..], ending));
      m, chunks, rest := taken.value.0, chunks + taken.value.1, rest[1..];
    }
    assert chunks + [] == chunks;
    return Output(chunks, Some(EndingFailure(ending)));
  }

  // ---------------------------------------------------------------------------------------------------------
  // What a payload says, read off the JSON alone.

  function TextAt(p: Json, key: string): Option<string> {
    if p.Object? && Get(p.fields, key).Str? then Some(Get(p.fields, key).s) else None
  }

  function OnlyChoice(p: Json): Option<map<string, Json>> {
    if p.Object? && Get(p.fields, "choices").Array? && |Get(p.fields, "choices").items| == 1 &&
       Get(p.fields, "choices").items[0].Object?
    then Some(Get(p.fields, "choices").items[0].fields)
    else None
  }

  function ContentOf(p: Json): string {
    if OnlyChoice(p).Some? then
      var delta := Get(OnlyChoice(p).value, "delta");
      if delta.Object? && Get(delta.fields, "content").Str? then Get(delta.fields, "content").s else ""
    else ""
  }

  function FinishOf(p: Json): Option<FinishReason> {
    if OnlyChoice(p).Some? then MapFinishReason(Get(OnlyChoice(p).value, "finish_reason")) else None
  }

  function UsageOf(p: Json): Option<Usage> {
    if p.Object? then MapUsage(Get(p.fields, "usage")) else None
  }

  predicate NullOr(value: Json, ok: bool) {
    value == Null || ok
  }

  /** The shape a payload must have, whatever came before it. */
  predicate WellFormed(p: Json) {
    && p.Object?
    && NullOr(Get(p.fields, "model"), TextAt(p, "model").Some? && !Blank(TextAt(p, "model").value))
    && NullOr(Get(p.fields, "id"), TextAt(p, "id").Some? && !Blank(TextAt(p, "id").value))
    && NullOr(Get(p.fields, "usage"), UsageOf(p).Some?)
    && Get(p.fields, "choices").Array?
    && if Get(p.fields, "choices").items == [] then Get(p.fields, "usage") != Null
       else
         OnlyChoice(p).Some? &&
         var choice := OnlyChoice(p).value;
         var delta := Get(choice, "delta");
         && delta.Object? && !HasToolCall(delta.fields)
         && NullOr(Get(choice, "finish_reason"), FinishOf(p).Some?)
         && NullOr(Get(delta.fields, "content"), Get(delta.fields, "content").Str?)
  }

  function FirstSome<T>(current: Option<T>, values: seq<Option<T>>): Option<T>
    decreases |values|
  {
    if current.Some? || values == [] then current else FirstSome(values[0], values[1..])
  }

  function LastSome<T>(current: Option<T>, values: seq<Option<T>>): Option<T>
    decreases |values|
  {
    if values == [] then current else LastSome(if values[0].Some? then values[0] else current, values[1..])
  }

  function Merged<T>(current: Option<T>, value: Option<T>): Option<T> {
    if current.Some? then current else value
  }

  /** No value contradicts the first one. */
  predicate Agree<T(==)>(current: Option<T>, values: seq<Option<T>>) {
    forall i :: 0 <= i < |values| && values[i].Some? ==> values[i] == FirstSome(current, values)
  }

  function Models(ps: seq<Json>): (r: seq<Option<string>>)
    ensures |r| == |ps|
  {
    seq(|ps|, i requires 0 <= i < |ps| => TextAt(ps[i], "model"))
  }

  function Ids(ps: seq<Json>): (r: seq<Option<string>>)
    ensures |r| == |ps|
  {
    seq(|ps|, i requires 0 <= i < |ps| => TextAt(ps[i], "id"))
  }

  function Finishes(ps: seq<Json>): (r: seq<Option<FinishReason>>)
    ensures |r| == |ps|
  {
    seq(|ps|, i requires 0 <= i < |ps| => FinishOf(ps[i]))
  }

  function Usages(ps: seq<Json>): (r: seq<Option<Usage>>)
    ensures |r| == |ps|
  {
    seq(|ps|, i requires 0 <= i < |ps| => UsageOf(ps[i]))
  }

  function Contents(ps: seq<Json>): string {
    if ps == [] then "" else ContentOf(ps[0]) + Contents(ps[1..])
  }

  /** The contents that are not empty. */
  function Spoken(ps: seq<Json>): seq<string> {
    if ps == [] then [] else (if ContentOf(ps[0]) == "" then [] else [ContentOf(ps[0])]) + Spoken(ps[1..])
  }

  /** A chunk for each text, in order, and after them at most one more. */
  predicate Carries(chunks: seq<Chunk>, texts: seq<string>, last: bool) {
    && |chunks| == |texts| + (if last then 1 else 0)
    && forall i :: 0 <= i < |texts| ==> chunks[i].delta == texts[i]
  }

  predicate AllWellFormed(ps: seq<Json>) {
    forall i :: 0 <= i < |ps| ==> WellFormed(ps[i])
  }

  /** Payloads the mapper takes one after the other: well formed, never contradicting an identity or finish reason
      already given, and with names the chunk schema accepts wherever there is content to yield. */
  predicate Accepts(env: Env, m: Mapper, ps: seq<Json>) {
    && AllWellFormed(ps)
    && Agree(m.model, Models(ps))
    && Agree(m.id, Ids(ps))
    && Agree(m.finish, Finishes(ps))
    && NamesHold(env, m.model, m.id, ps)
  }

  /** The names known at each payload that brings content are accepted. */
  predicate NamesHold(env: Env, model: Option<string>, id: Option<string>, ps: seq<Json>)
    decreases |ps|
  {
    ps == [] ||
    var model' := Merged(model, TextAt(ps[0], "model"));
    var id' := Merged(id, TextAt(ps[0], "id"));
    (ContentOf(ps[0]) != "" ==> NamesOk(env, model', id')) && NamesHold(env, model', id', ps[1..])
  }

  /** Index of the first [DONE] event, or the number of events. */
  function FirstDone(events: seq<Sse.Event>): (d: nat)
    ensures d <= |events|
    ensures forall i :: 0 <= i < d ==> !events[i].isDone
    ensures d < |events| ==> events[d].isDone
  {
    if events == [] || events[0].isDone then 0 else 1 + FirstDone(events[1..])
  }

  function Payloads(env: Env, events: seq<Sse.Event>): (ps: seq<Json>)
    ensures |ps| == |events|
  {
    seq(|events|, i requires 0 <= i < |events| => Decoded(env, events[i]))
  }

  predicate CompletesAfter(env: Env, m: Mapper, ps: seq<Json>) {
    && Accepts(env, m, ps)
    && FirstSome(m.finish, Finishes(ps)).Some?
    && NamesOk(env, FirstSome(m.model, Models(ps)), FirstSome(m.id, Ids(ps)))
  }

  /** A [DONE] comes, everything before it is accepted, and it carries a finish reason. */
  predicate Completes(env: Env, m: Mapper, events: seq<Sse.Event>) {
    var d := FirstDone(events);
    d < |events| && CompletesAfter(env, m, Payloads(env, events[..d]))
  }

  // ---------------------------------------------------------------------------------------------------------

  lemma {:induction false} AgreeCons<T>(current: Option<T>, value: Option<T>, rest: seq<Option<T>>)
    ensures FirstSome(current, [value] + rest) == FirstSome(Merged(current, value), rest)
    ensures Agree(current, [value] + rest) <==>
            (value.Some? && current.Some? ==> value == current) && Agree(Merged(current, value), rest)
  {
    var all := [value] + rest;
    assert all[1..] == rest;
    var first := FirstSome(current, all);
    assert FirstSome(current, all) == FirstSome(Merged(current, value), rest);
    assert Merged(current, value).Some? ==> first == Merged(current, value);
    if Agree(current, all) {
      assert all[0] == value;
      assert forall i :: 0 <= i < |rest| ==> rest[i] == all[i + 1];
    }
  }

  /** One step of the mapper, described by the payload alone. */
  lemma {:induction false} TakePayloadIsDescribed(m: Mapper, p: Json)
    ensures TakePayload(m, p).Some? <==>
            WellFormed(p) &&
            (TextAt(p, "model").Some? && m.model.Some? ==> TextAt(p, "model") == m.model) &&
            (TextAt(p, "id").Some? && m.id.Some? ==> TextAt(p, "id") == m.id) &&
            (FinishOf(p).Some? && m.finish.Some? ==> FinishOf(p) == m.finish)
    ensures TakePayload(m, p).Some? ==>
              TakePayload(m, p).value ==
              (Mapper(m.sequence, Merged(m.model, TextAt(p, "model")), Merged(m.id, TextAt(p, "id")),
                      Merged(m.finish, FinishOf(p)), LastSome(m.usage, [UsageOf(p)])), ContentOf(p))
  {
    if p.Object? {
      var usage := UsageOf(p);
      assert [usage][1..] == [];
      assert LastSome(m.usage, [usage]) == if usage.Some? then usage else m.usage;
    }
  }

  lemma {:induction false} PayloadLists(p: Json, rest: seq<Json>)
    ensures Models([p] + rest) == [TextAt(p, "model")] + Models(rest)
    ensures Ids([p] + rest) == [TextAt(p, "id")] + Ids(rest)
    ensures Finishes([p] + rest) == [FinishOf(p)] + Finishes(rest)
    ensures Usages([p] + rest) == [UsageOf(p)] + Usages(rest)
    ensures Contents([p] + rest) == ContentOf(p) + Contents(rest)
    ensures Spoken([p] + rest) == (if ContentOf(p) == "" then [] else [ContentOf(p)]) + Spoken(rest)
  {
    assert ([p] + rest)[1..] == rest;
  }

  lemma {:induction false} WellFormedCons(p: Json, rest: seq<Json>)
    ensures AllWellFormed([p] + rest) <==> WellFormed(p) && AllWellFormed(rest)
  {
    var all := [p] + rest;
    assert all[0] == p;
    assert forall i :: 0 <= i < |rest| ==> all[i + 1] == rest[i];
  }

  lemma {:induction false} AcceptsCons(env: Env, m: Mapper, p: Json, rest: seq<Json>)
    ensures Accepts(env, m, [p] + rest) <==>
            TakePayload(m, p).Some? &&
            var m1 := TakePayload(m, p).value.0;
            (ContentOf(p) != "" ==> NamesOk(env, m1.model, m1.id)) && Accepts(env, m1, rest)
  {
    var all := [p] + rest;
    PayloadLists(p, rest);
    TakePayloadIsDescribed(m, p);
    AgreeCons(m.model, TextAt(p, "model"), Models(rest));
    AgreeCons(m.id, TextAt(p, "id"), Ids(rest));
    AgreeCons(m.finish, FinishOf(p), Finishes(rest));
    assert all[1..] == rest;
    WellFormedCons(p, rest);
  }

  lemma {:induction false} AcceptsNone(env: Env, m: Mapper)
    ensures Accepts(env, m, [])
  {
  }

  /** MapStream after one more event, in terms of the payload lists. */
  lemma {:induction false} CompletesCons(env: Env, m: Mapper, events: seq<Sse.Event>)
    requires events != [] && !events[0].isDone
    ensures var p := Decoded(env, events[0]);
            Completes(env, m, events) <==>
            TakePayload(m, p).Some? &&
            var m1 := TakePayload(m, p).value.0;
            (ContentOf(p) != "" ==> NamesOk(env, m1.model, m1.id)) && Completes(env, m1, events[1..])
  {
    var p := Decoded(env, events[0]);
    var d := FirstDone(events);
    assert d == 1 + FirstDone(events[1..]);
    if d < |events| {
      var rest := Payloads(env, events[1..][..d - 1]);
      assert Payloads(env, events[..d]) == [p] + rest;
      PayloadLists(p, rest);
      TakePayloadIsDescribed(m, p);
      AcceptsCons(env, m, p, rest);
      AgreeCons(m.model, TextAt(p, "model"), Models(rest));
      AgreeCons(m.id, TextAt(p, "id"), Ids(rest));
      AgreeCons(m.finish, FinishOf(p), Finishes(rest));
    }
  }

  lemma {:induction false} AcceptsIgnoresSequence(env: Env, m: Mapper, sequence: nat, events: seq<Sse.Event>)
    ensures Completes(env, m.(sequence := sequence), events) == Completes(env, m, events)
  {
  }

  /** Where the mapper does not go on, it yields at most the final chunk. */
  lemma {:induction false} EndMeetsContract(env: Env, m: Mapper, events: seq<Sse.Event>, ending: Ending)
    requires events == [] || !CanStep(env, m, events)
    ensures MeetsContract(MapStream(env, m, events, ending), m.sequence)
  {
  }

  lemma {:induction false} StepMeetsContract(env: Env, m: Mapper, events: seq<Sse.Event>, ending: Ending)
    requires events != [] && CanStep(env, m, events)
    requires var m2 := Stepped(env, m, events); MeetsContract(MapStream(env, m2, events[1..], ending), m2.sequence)
    ensures MeetsContract(MapStream(env, m, events, ending), m.sequence)
  {
    var rest := MapStream(env, Stepped(env, m, events), events[1..], ending);
    MapStreamStep(env, m, events, ending);
    var (m1, content) := TakePayload(m, Decoded(env, events[0])).value;
    if content != "" {
      ContractCons(BuildChunk(env, m1, content, false).value, rest, m1.sequence);
    }
  }

  lemma {:induction false} StreamMeetsContract(env: Env, m: Mapper, events: seq<Sse.Event>, ending: Ending)
    ensures MeetsContract(MapStream(env, m, events, ending), m.sequence)
    decreases |events|
  {
    if events == [] || !CanStep(env, m, events) {
      EndMeetsContract(env, m, events, ending);
    } else {
      StreamMeetsContract(env, Stepped(env, m, events), events[1..], ending);
      StepMeetsContract(env, m, events, ending);
    }
  }

  lemma {:induction false} StreamCompletes(env: Env, m: Mapper, events: seq<Sse.Event>, ending: Ending)
    ensures MapStream(env, m, events, ending).failure == None <==> Completes(env, m, events)
    decreases |events|
  {
    if events == [] {
    } else if events[0].isDone {
      assert events[..0] == [];
      assert Payloads(env, events[..0]) == [];
      AcceptsNone(env, m);
    } else {
      CompletesCons(env, m, events);
      TakePayloadIsDescribed(m, Decoded(env, events[0]));
      if CanStep(env, m, events) {
        var m1 := TakePayload(m, Decoded(env, events[0])).value.0;
        var m2 := Stepped(env, m, events);
        MapStreamStep(env, m, events, ending);
        StreamCompletes(env, m2, events[1..], ending);
        AcceptsIgnoresSequence(env, m1, m2.sequence, events[1..]);
      }
    }
  }

  /** Main result: the stream ends without failure exactly when a [DONE] arrives after accepted payloads of which
      one gave a finish reason; the chunks meet the provider contract in every case. */
  lemma {:induction false} MapStreamContract(env: Env, m: Mapper, events: seq<Sse.Event>, ending: Ending)
    ensures MeetsContract(MapStream(env, m, events, ending), m.sequence)
    ensures MapStream(env, m, events, ending).failure == None <==> Completes(env, m, events)
  {
    StreamMeetsContract(env, m, events, ending);
    StreamCompletes(env, m, events, ending);
  }

  /** The number of events consumed before the stream ended, when it ended in failure at some payload or at a
      [DONE]: the longest accepted prefix. */
  ghost predicate LongestAccepted(env: Env, m: Mapper, events: seq<Sse.Event>, n: nat) {
    && n <= FirstDone(events)
    && Accepts(env, m, Payloads(env, events[..n]))
    && (n < FirstDone(events) ==> !Accepts(env, m, Payloads(env, events[..n + 1])))
  }

  lemma {:induction false} CarriesCons(chunk: Chunk, chunks: seq<Chunk>, texts: seq<string>, last: bool)
    requires Carries(chunks, texts, last)
    ensures Carries([chunk] + chunks, [chunk.delta] + texts, last)
  {
  }

  /** Main result: the deltas are the contents of the longest accepted prefix of the events, in order and complete,
      whether or not the stream fails afterwards: one chunk for each payload that has content, with exactly that
      content, and a last one exactly when the stream does not fail. */
  lemma {:induction false} MapStreamDeltas(env: Env, m: Mapper, events: seq<Sse.Event>, ending: Ending)
    returns (n: nat)
    ensures LongestAccepted(env, m, events, n)
    ensures Deltas(MapStream(env, m, events, ending).chunks) == Contents(Payloads(env, events[..n]))
    ensures var out := MapStream(env, m, events, ending);
            Carries(out.chunks, Spoken(Payloads(env, events[..n])), out.failure == None)
    decreases |events|
  {
    if events != [] && !events[0].isDone && CanStep(env, m, events) {
      var k := MapStreamDeltas(env, Stepped(env, m, events), events[1..], ending);
      n := k + 1;
      LongestCons(env, m, events, k);
      PayloadsCons(env, events, k);
      DeltasStep(env, m, events, ending, Payloads(env, events[1..][..k]));
    } else {
      n := 0;
      NothingAccepted(env, m, events);
    }
  }

  /** A stream that does not go on has accepted nothing. */
  lemma {:induction false} NothingAccepted(env: Env, m: Mapper, events: seq<Sse.Event>)
    requires events == [] || events[0].isDone || !CanStep(env, m, events)
    ensures LongestAccepted(env, m, events, 0) && Payloads(env, events[..0]) == []
  {
    AcceptsNone(env, m);
    assert Payloads(env, events[..0]) == [];
    if events != [] && !events[0].isDone {
      PrefixCons(env, m, events, 0);
      assert Payloads(env, events[1..][..0]) == [];
      TakePayloadIsDescribed(m, Decoded(env, events[0]));
    }
  }

  lemma {:induction false} PayloadsCons(env: Env, events: seq<Sse.Event>, k: nat)
    requires k < |events|
    ensures Payloads(env, events[..k + 1]) == [Decoded(env, events[0])] + Payloads(env, events[1..][..k])
  {
  }

  lemma {:induction false} DeltasStep(env: Env, m: Mapper, events: seq<Sse.Event>, ending: Ending, ps: seq<Json>)
    requires events != [] && CanStep(env, m, events)
    requires var rest := MapStream(env, Stepped(env, m, events), events[1..], ending);
             Deltas(rest.chunks) == Contents(ps) && Carries(rest.chunks, Spoken(ps), rest.failure == None)
    ensures var out := MapStream(env, m, events, ending);
            var all := [Decoded(env, events[0])] + ps;
            Deltas(out.chunks) == Contents(all) && Carries(out.chunks, Spoken(all), out.failure == None)
  {
    TakenContent(m, Decoded(env, events[0]));
    PayloadLists(Decoded(env, events[0]), ps);
    CarriesStep(env, m, events, ending, Spoken(ps));
    MapStreamStep(env, m, events, ending);
  }

  lemma {:induction false} TakenContent(m: Mapper, p: Json)
    ensures TakePayload(m, p).Some? ==> TakePayload(m, p).value.1 == ContentOf(p)
  {
    TakePayloadIsDescribed(m, p);
  }

  lemma {:induction false} CarriesStep(env: Env, m: Mapper, events: seq<Sse.Event>, ending: Ending, texts: seq<string>)
    requires events != [] && CanStep(env, m, events)
    requires var rest := MapStream(env, Stepped(env, m, events), events[1..], ending);
             Carries(rest.chunks, texts, rest.failure == None)
    ensures var out := MapStream(env, m, events, ending);
            var content := TakePayload(m, Decoded(env, events[0])).value.1;
            Carries(out.chunks, (if content == "" then [] else [content]) + texts, out.failure == None)
  {
    MapStreamStep(env, m, events, ending);
    var rest := MapStream(env, Stepped(env, m, events), events[1..], ending);
    var (m1, content) := TakePayload(m, Decoded(env, events[0])).value;
    if content == "" {
      assert [] + texts == texts;
      assert [] + rest.chunks == rest.chunks;
    } else {
      CarriesCons(BuildChunk(env, m1, content, false).value, rest.chunks, texts, rest.failure == None);
    }
  }

  lemma {:induction false} LongestCons(env: Env, m: Mapper, events: seq<Sse.Event>, k: nat)
    requires events != [] && CanStep(env, m, events)
    requires LongestAccepted(env, Stepped(env, m, events), events[1..], k)
    ensures LongestAccepted(env, m, events, k + 1)
  {
    TakePayloadIsDescribed(m, Decoded(env, events[0]));
    PrefixCons(env, m, events, k);
    if k < FirstDone(events[1..]) {
      PrefixCons(env, m, events, k + 1);
    }
  }

  lemma {:induction false} PrefixCons(env: Env, m: Mapper, events: seq<Sse.Event>, k: nat)
    requires events != [] && k < |events|
    ensures var p := Decoded(env, events[0]);
            var rest := Payloads(env, events[1..][..k]);
            Payloads(env, events[..k + 1]) == [p] + rest &&
            (Accepts(env, m, [p] + rest) <==>
             TakePayload(m, p).Some? &&
             var m1 := TakePayload(m, p).value.0;
             (ContentOf(p) != "" ==> NamesOk(env, m1.model, m1.id)) &&
             Accepts(env, m1.(sequence := m1.sequence + 1), rest) && Accepts(env, m1, rest))
  {
    var p := Decoded(env, events[0]);
    var rest := Payloads(env, events[1..][..k]);
    assert Payloads(env, events[..k + 1]) == [p] + rest;
    AcceptsCons(env, m, p, rest);
  }

  /** Names already known when a chunk is built are the names of every later chunk. */
  lemma {:induction false} KnownNamesStay(env: Env, m: Mapper, events: seq<Sse.Event>, ending: Ending)
    ensures forall c :: c in MapStream(env, m, events, ending).chunks ==>
                          (m.id.Some? ==> c.requestId == env.cleanId(m.id.value)) &&
                          (m.model.Some? ==> Some(c.model) == env.cleanModel(m.model.value))
    decreases |events|
  {
    if events != [] && !events[0].isDone {
      var p := Decoded(env, events[0]);
      TakePayloadIsDescribed(m, p);
      if TakePayload(m, p).Some? {
        var (m1, content) := TakePayload(m, p).value;
        KnownNamesStay(env, if content == "" then m1 else m1.(sequence := m1.sequence + 1), events[1..], ending);
      }
    }
  }

  /** How the names of a chunk and of a later chunk relate. */
  predicate SameNames(env: Env, earlier: Chunk, later: Chunk) {
    (earlier.requestId.Some? ==> later.requestId == earlier.requestId) &&
    (later.model != earlier.model ==> Some(earlier.model) == env.cleanModel(env.requestModel))
  }

  /** Main result: once a chunk carries a request id every later chunk carries the same one, and a chunk's model
      differs from an earlier chunk's only while the earlier one still has the requested model. */
  lemma {:induction false} IdentitiesNeverChange(env: Env, m: Mapper, events: seq<Sse.Event>, ending: Ending)
    ensures var chunks := MapStream(env, m, events, ending).chunks;
            forall i, j :: 0 <= i < j < |chunks| ==> SameNames(env, chunks[i], chunks[j])
    decreases |events|
  {
    if events != [] && CanStep(env, m, events) {
      MapStreamStep(env, m, events, ending);
      var m2 := Stepped(env, m, events);
      KnownNamesStay(env, m2, events[1..], ending);
      IdentitiesNeverChange(env, m2, events[1..], ending);
      var chunks := MapStream(env, m, events, ending).chunks;
      var rest := MapStream(env, m2, events[1..], ending).chunks;
      var (m1, content) := TakePayload(m, Decoded(env, events[0])).value;
      if content != "" {
        var first := BuildChunk(env, m1, content, false).value;
        forall i, j | 0 <= i < j < |chunks|
          ensures SameNames(env, chunks[i], chunks[j])
        {
          assert chunks[j] == rest[j - 1] && rest[j - 1] in rest;
          if i > 0 {
            assert SameNames(env, rest[i - 1], rest[j - 1]);
          }
        }
      }
    }
  }

  /** The chunks end with a final chunk that says what is known. */
  predicate EndsWith(env: Env, chunks: seq<Chunk>, known: Mapper) {
    chunks != [] &&
    var last := chunks[|chunks| - 1];
    && last.isFinal && last.delta == "" && last.finish == known.finish && last.usage == known.usage
    && last.provider == "openai"
    && Some(last.model) == env.cleanModel(if known.model.Some? then known.model.value else env.requestModel)
    && (if known.id.Some? then last.requestId.Some? && last.requestId == env.cleanId(known.id.value)
        else last.requestId == None)
  }

  lemma {:induction false} EndsWithCons(env: Env, first: seq<Chunk>, chunks: seq<Chunk>, known: Mapper)
    requires EndsWith(env, chunks, known)
    ensures EndsWith(env, first + chunks, known)
  {
  }

  /** What the mapper knows after the payloads: the first of each identity and finish reason, the last usage. */
  function Known(m: Mapper, ps: seq<Json>): Mapper {
    Mapper(m.sequence, FirstSome(m.model, Models(ps)), FirstSome(m.id, Ids(ps)), FirstSome(m.finish, Finishes(ps)),
           LastSome(m.usage, Usages(ps)))
  }

  lemma {:induction false} SteppedKnows(env: Env, m: Mapper, events: seq<Sse.Event>)
    requires events != [] && CanStep(env, m, events)
    ensures var p := Decoded(env, events[0]);
            var m2 := Stepped(env, m, events);
            m2.model == Merged(m.model, TextAt(p, "model")) && m2.id == Merged(m.id, TextAt(p, "id")) &&
            m2.finish == Merged(m.finish, FinishOf(p)) && m2.usage == LastSome(m.usage, [UsageOf(p)])
  {
    TakePayloadIsDescribed(m, Decoded(env, events[0]));
  }

  lemma {:induction false} NoFailureSteps(env: Env, m: Mapper, events: seq<Sse.Event>, ending: Ending)
    requires MapStream(env, m, events, ending).failure == None
    ensures events != []
    ensures events[0].isDone ==> EndsWith(env, MapStream(env, m, events, ending).chunks, m)
    ensures !events[0].isDone ==> CanStep(env, m, events)
  {
  }

  lemma {:induction false} EndsWithIgnoresSequence(env: Env, chunks: seq<Chunk>, a: Mapper, b: Mapper)
    requires a.(sequence := 0) == b.(sequence := 0) && EndsWith(env, chunks, a)
    ensures EndsWith(env, chunks, b)
  {
  }

  lemma {:induction false} KnownOfNone(m: Mapper)
    ensures Known(m, []) == m
  {
  }

  /** Main result: the final chunk carries the finish reason and the identities every payload agreed on, and the last
      usage reported. */
  lemma {:induction false} FinalChunkSummarises(env: Env, m: Mapper, events: seq<Sse.Event>, ending: Ending)
    requires MapStream(env, m, events, ending).failure == None
    ensures EndsWith(env, MapStream(env, m, events, ending).chunks,
                     Known(m, Payloads(env, events[..FirstDone(events)])))
    decreases |events|
  {
    NoFailureSteps(env, m, events, ending);
    if events[0].isDone {
      assert Payloads(env, events[..FirstDone(events)]) == [];
      KnownOfNone(m);
    } else {
      var m2 := Stepped(env, m, events);
      MapStreamStep(env, m, events, ending);
      FinalChunkSummarises(env, m2, events[1..], ending);
      SteppedKnows(env, m, events);
      SummariesCons(env, m, events);
      var (m1, content) := TakePayload(m, Decoded(env, events[0])).value;
      var first := if content == "" then [] else [BuildChunk(env, m1, content, false).value];
      var known := Known(m2, Payloads(env, events[1..][..FirstDone(events[1..])]));
      EndsWithCons(env, first, MapStream(env, m2, events[1..], ending).chunks, known);
      EndsWithIgnoresSequence(env, MapStream(env, m, events, ending).chunks, known,
                              Known(m, Payloads(env, events[..FirstDone(events)])));
    }
  }

  lemma {:induction false} SummariesCons(env: Env, m: Mapper, events: seq<Sse.Event>)
    requires events != [] && !events[0].isDone
    ensures var p := Decoded(env, events[0]);
            var ps := Payloads(env, events[..FirstDone(events)]);
            var rest := Payloads(env, events[1..][..FirstDone(events[1..])]);
            Known(m, ps) ==
            Known(Mapper(m.sequence, Merged(m.model, TextAt(p, "model")), Merged(m.id, TextAt(p, "id")),
                         Merged(m.finish, FinishOf(p)), LastSome(m.usage, [UsageOf(p)])), rest)
  {
    var p := Decoded(env, events[0]);
    var d := FirstDone(events);
    var rest := Payloads(env, events[1..][..d - 1]);
    assert Payloads(env, events[..d]) == [p] + rest;
    PayloadLists(p, rest);
    AgreeCons(m.model, TextAt(p, "model"), Models(rest));
    AgreeCons(m.id, TextAt(p, "id"), Ids(rest));
    AgreeCons(m.finish, FinishOf(p), Finishes(rest));
    assert ([UsageOf(p)] + Usages(rest))[1..] == Usages(rest);
    assert [UsageOf(p)][1..] == [];
  }

  // ---------------------------------------------------------------------------------------------------------
  // What the provider's words mean.

  /** The text under finish_reason of the payload's only choice. */
  function FinishText(p: Json): Option<string> {
    if OnlyChoice(p).Some? && Get(OnlyChoice(p).value, "finish_reason").Str?
    then Some(Get(OnlyChoice(p).value, "finish_reason").s)
    else None
  }

  /** A finish_reason that was accepted, and what it is called in a chunk. */
  predicate ReasonIs(text: string, finish: Option<FinishReason>) {
    && !Blank(text) && text != "tool_calls" && text != "function_call"
    && (text == "stop" ==> finish == Some(Stop))
    && (text == "length" ==> finish == Some(Length))
    && (text == "content_filter" ==> finish == Some(ContentFilter))
    && (text !in {"stop", "length", "content_filter"} ==> finish == Some(Unknown))
  }

  lemma {:induction false} FinishTextIs(p: Json)
    requires WellFormed(p)
    ensures FinishText(p).Some? ==> FinishOf(p).Some? && ReasonIs(FinishText(p).value, FinishOf(p))
    ensures FinishOf(p).Some? ==> FinishText(p).Some?
  {
  }

  lemma {:induction false} FirstSomeAt<T>(values: seq<Option<T>>) returns (k: nat)
    requires FirstSome(None, values).Some?
    ensures k < |values| && values[k] == FirstSome(None, values)
  {
    if values[0].Some? {
      k := 0;
    } else {
      var rest := FirstSomeAt(values[1..]);
      k := rest + 1;
    }
  }

  /** Main result: when the stream does not fail, some payload gave a finish reason, and the final chunk reports the
      reason of every payload that gave one. */
  lemma {:induction false} FinalReason(env: Env, events: seq<Sse.Event>, ending: Ending) returns (k: nat)
    requires MapStream(env, START, events, ending).failure == None
    ensures var ps := Payloads(env, events[..FirstDone(events)]);
            var chunks := MapStream(env, START, events, ending).chunks;
            k < |ps| && FinishText(ps[k]).Some? && chunks != [] &&
            forall i :: 0 <= i < |ps| && FinishText(ps[i]).Some? ==>
                          ReasonIs(FinishText(ps[i]).value, chunks[|chunks| - 1].finish)
  {
    var ps := Payloads(env, events[..FirstDone(events)]);
    StreamCompletes(env, START, events, ending);
    FinalChunkSummarises(env, START, events, ending);
    k := FirstSomeAt(Finishes(ps));
    assert Finishes(ps)[k] == FinishOf(ps[k]);
    FinishTextIs(ps[k]);
    forall i | 0 <= i < |ps| && FinishText(ps[i]).Some?
      ensures ReasonIs(FinishText(ps[i]).value, FirstSome(None, Finishes(ps)))
    {
      assert WellFormed(ps[i]);
      FinishTextIs(ps[i]);
      assert Finishes(ps)[i] == FinishOf(ps[i]);
    }
  }

  /** A count is the integer that was reported, or was not reported. */
  predicate CountIs(reported: Json, count: Option<nat>) {
    reported == if count == None then Null else Int(count.value)
  }

  predicate UsageIs(reported: Json, usage: Option<Usage>) {
    reported.Object? && usage.Some? &&
    CountIs(Get(reported.fields, "prompt_tokens"), usage.value.input) &&
    CountIs(Get(reported.fields, "completion_tokens"), usage.value.output) &&
    CountIs(Get(reported.fields, "total_tokens"), usage.value.total)
  }

  function UsageAt(p: Json): Json {
    if p.Object? then Get(p.fields, "usage") else Null
  }

  lemma {:induction false} UsageAtIs(p: Json)
    requires WellFormed(p)
    ensures UsageAt(p) != Null ==> UsageOf(p).Some? && UsageIs(UsageAt(p), UsageOf(p))
    ensures UsageAt(p) == Null ==> UsageOf(p) == None
  {
  }

  lemma {:induction false} LastSomeAt<T>(current: Option<T>, values: seq<Option<T>>) returns (k: Option<nat>)
    ensures k == None ==> LastSome(current, values) == current && forall i :: 0 <= i < |values| ==> values[i] == None
    ensures k.Some? ==>
              k.value < |values| && values[k.value].Some? && LastSome(current, values) == values[k.value] &&
              forall i :: k.value < i < |values| ==> values[i] == None
    decreases |values|
  {
    if values == [] {
      k := None;
    } else {
      var rest := LastSomeAt(if values[0].Some? then values[0] else current, values[1..]);
      k := if rest.Some? then Some(rest.value + 1) else if values[0].Some? then Some(0) else None;
      assert forall i :: 0 < i < |values| ==> values[i] == values[1..][i - 1];
    }
  }

  /** Main result: the final chunk's counts are the integers of the last usage reported, or there is no usage. */
  lemma {:induction false} FinalUsage(env: Env, events: seq<Sse.Event>, ending: Ending) returns (k: Option<nat>)
    requires MapStream(env, START, events, ending).failure == None
    ensures var ps := Payloads(env, events[..FirstDone(events)]);
            var chunks := MapStream(env, START, events, ending).chunks;
            chunks != [] &&
            (k == None ==>
               chunks[|chunks| - 1].usage == None && forall i :: 0 <= i < |ps| ==> UsageAt(ps[i]) == Null) &&
            (k.Some? ==>
               k.value < |ps| && UsageIs(UsageAt(ps[k.value]), chunks[|chunks| - 1].usage) &&
               forall i :: k.value < i < |ps| ==> UsageAt(ps[i]) == Null)
  {
    var ps := Payloads(env, events[..FirstDone(events)]);
    StreamCompletes(env, START, events, ending);
    FinalChunkSummarises(env, START, events, ending);
    k := LastSomeAt(None, Usages(ps));
    forall i | 0 <= i < |ps|
      ensures Usages(ps)[i] == UsageOf(ps[i])
      ensures UsageAt(ps[i]) != Null ==> UsageOf(ps[i]).Some? && UsageIs(UsageAt(ps[i]), UsageOf(ps[i]))
      ensures UsageAt(ps[i]) == Null ==> UsageOf(ps[i]) == None
    {
      assert WellFormed(ps[i]);
      UsageAtIs(ps[i]);
    }
  }

  /** Tool calls are not supported: neither in a delta nor as a finish reason. */
  lemma {:induction false} ToolCallsAreRefused(m: Mapper, p: Json)
    requires OnlyChoice(p).Some?
    requires var choice := OnlyChoice(p).value;
             var delta := Get(choice, "delta");
             (delta.Object? && ("tool_calls" in delta.fields || "tool_call" in delta.fields ||
                                "function_call" in delta.fields)) ||
             Get(choice, "finish_reason") == Str("tool_calls") || Get(choice, "finish_reason") == Str("function_call")
    ensures TakePayload(m, p) == None
  {
  }

  /** Every chunk names the provider. */
  lemma {:induction false} ProviderIsNamed(env: Env, m: Mapper, events: seq<Sse.Event>, ending: Ending)
    ensures forall c :: c in MapStream(env, m, events, ending).chunks ==> c.provider == "openai"
    decreases |events|
  {
    if events != [] && CanStep(env, m, events) {
      MapStreamStep(env, m, events, ending);
      ProviderIsNamed(env, Stepped(env, m, events), events[1..], ending);
    }
  }

  /** The event source was read to its end: every event is a payload that was accepted. */
  predicate ReadToEnd(env: Env, m: Mapper, events: seq<Sse.Event>) {
    FirstDone(events) == |events| && Accepts(env, m, Payloads(env, events))
  }

  /** Main result: the failure is the event source's own exactly when it was read to its end; any other is an invalid
      response. */
  lemma {:induction false} FailureIs(env: Env, m: Mapper, events: seq<Sse.Event>, ending: Ending)
    ensures MapStream(env, m, events, ending).failure ==
            if Completes(env, m, events) then None
            else if !ReadToEnd(env, m, events) then Some(InvalidResponse)
            else if ending == TimedOut then Some(Timeout)
            else if ending == Broken then Some(Unavailable)
            else Some(InvalidResponse)
    decreases |events|
  {
    StreamCompletes(env, m, events, ending);
    if events == [] {
      assert Payloads(env, events) == [];
      AcceptsNone(env, m);
    } else if !events[0].isDone {
      ReadToEndCons(env, m, events);
      if CanStep(env, m, events) {
        MapStreamStep(env, m, events, ending);
        FailureIs(env, Stepped(env, m, events), events[1..], ending);
        StreamCompletes(env, Stepped(env, m, events), events[1..], ending);
      }
    }
  }

  lemma {:induction false} ReadToEndCons(env: Env, m: Mapper, events: seq<Sse.Event>)
    requires events != [] && !events[0].isDone
    ensures ReadToEnd(env, m, events) <==>
            CanStep(env, m, events) && ReadToEnd(env, Stepped(env, m, events), events[1..])
  {
    var p := Decoded(env, events[0]);
    var rest := Payloads(env, events[1..]);
    assert Payloads(env, events) == [p] + rest;
    AcceptsCons(env, m, p, rest);
    TakePayloadIsDescribed(m, p);
  }
}
