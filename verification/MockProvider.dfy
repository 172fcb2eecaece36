/** llm/providers/mock.py: the deterministic provider meets the same stream contract as a real one. */
module MockProvider {
  import opened Prelude
  import opened Streaming
  import opened LlmSchemas

  const CHUNK_SIZE := 8

  function Digits(n: nat): string {
    (if n < 10 then "" else Digits(n / 10)) + [('0' as int + n % 10) as char]
  }

  function Padded(digits: string, width: nat): string
    decreases width - |digits|
  {
    if |digits| >= width then digits else Padded("0" + digits, width)
  }

  function RequestId(n: nat): string {
    "mock-request-" + Padded(Digits(n), 6)
  }

  /** The i-th piece of eight characters; the last one may be shorter. */
  function Slice(text: string, i: nat): string
    requires 8 * i <= |text|
  {
    text[8 * i..if 8 * i + 8 < |text| then 8 * i + 8 else |text|]
  }

  /** How much of the text the first k pieces cover. */
  function Covered(text: string, k: nat): (n: nat)
    ensures n <= |text|
  {
    if 8 * k < |text| then 8 * k else |text|
  }

  /** The i-th chunk of the stream. */
  predicate IsPiece(c: Chunk, text: string, model: string, id: string, i: nat) {
    && c.sequence == i && !c.isFinal && c.finish == None && c.usage == None
    && c.provider == "mock" && c.model == model && c.requestId == Some(id)
    && 8 * i <= |text| && c.delta == Slice(text, i)
  }

  lemma SliceExtends(text: string, k: nat)
    requires 8 * k < |text|
    ensures text[..Covered(text, k)] + Slice(text, k) == text[..Covered(text, k + 1)]
  {
  }

  lemma NextPiece(chunks: seq<Chunk>, text: string, model: string, id: string, c: Chunk)
    requires 8 * |chunks| < |text| && IsPiece(c, text, model, id, |chunks|)
    requires Deltas(chunks) == text[..Covered(text, |chunks|)]
    ensures Deltas(chunks + [c]) == text[..Covered(text, |chunks| + 1)]
  {
    DeltasAppend(chunks, [c]);
    assert Deltas([c]) == c.delta + Deltas([]) == c.delta;
    SliceExtends(text, |chunks|);
  }

  lemma LastPiece(chunks: seq<Chunk>, last: Chunk)
    requires last.delta == ""
    ensures Deltas(chunks + [last]) == Deltas(chunks)
  {
    DeltasAppend(chunks, [last]);
    assert Deltas([last]) == "" + Deltas([]) == "";
  }

  function ValueOf(digits: string): nat
    requires forall i :: 0 <= i < |digits| ==> '0' <= digits[i] <= '9'
  {
    if digits == "" then 0
    else ValueOf(digits[..|digits| - 1]) * 10 + (digits[|digits| - 1] as int - '0' as int)
  }

  lemma {:induction false} DigitsValue(n: nat)
    ensures forall i :: 0 <= i < |Digits(n)| ==> '0' <= Digits(n)[i] <= '9'
    ensures ValueOf(Digits(n)) == n
  {
    var last := ('0' as int + n % 10) as char;
    if n < 10 {
      assert Digits(n) == [last];
      assert ValueOf("") == 0;
    } else {
      DigitsValue(n / 10);
      assert Digits(n) == Digits(n / 10) + [last];
      assert Digits(n)[..|Digits(n)| - 1] == Digits(n / 10);
    }
  }

  lemma {:induction false} PaddedValue(digits: string, width: nat)
    requires forall i :: 0 <= i < |digits| ==> '0' <= digits[i] <= '9'
    ensures var r := Padded(digits, width);
            |r| == (if |digits| < width then width else |digits|) &&
            (forall i :: 0 <= i < |r| ==> '0' <= r[i] <= '9') && ValueOf(r) == ValueOf(digits)
    decreases width - |digits|
  {
    if |digits| < width {
      LeadingZero(digits);
      PaddedValue("0" + digits, width);
    }
  }

  lemma {:induction false} LeadingZero(digits: string)
    requires forall i :: 0 <= i < |digits| ==> '0' <= digits[i] <= '9'
    ensures forall i :: 0 <= i < |"0" + digits| ==> '0' <= ("0" + digits)[i] <= '9'
    ensures ValueOf("0" + digits) == ValueOf(digits)
    decreases |digits|
  {
    var s := "0" + digits;
    if digits == "" {
      assert s == "0" && s[..|s| - 1] == "";
    } else {
      LeadingZero(digits[..|digits| - 1]);
      assert s[..|s| - 1] == "0" + digits[..|digits| - 1];
    }
  }

  /** A request id ends in the request's number, in at least six digits. */
  lemma {:induction false} RequestIdIs(n: nat)
    ensures "mock-request-" <= RequestId(n) && |RequestId(n)| >= 19
    ensures var number := RequestId(n)[13..];
            (forall i :: 0 <= i < |number| ==> '0' <= number[i] <= '9') && ValueOf(number) == n
  {
    DigitsValue(n);
    PaddedValue(Digits(n), 6);
    assert RequestId(n)[13..] == Padded(Digits(n), 6);
  }

  class Mock {
    const responseText: string
    const defaultModel: string
    const errorMode: Option<ProviderFailure>
    var recordedRequests: seq<LlmRequest>

    constructor (responseText: string, defaultModel: string, errorMode: Option<ProviderFailure>)
      ensures this.responseText == responseText && this.defaultModel == defaultModel
      ensures this.errorMode == errorMode && recordedRequests == []
    {
      this.responseText, this.defaultModel, this.errorMode := responseText, defaultModel, errorMode;
      recordedRequests := [];
    }

    method RecordRequest(request: LlmRequest) returns (id: string)
      modifies this
      ensures recordedRequests == old(recordedRequests) + [request]
      ensures id == RequestId(|old(recordedRequests)| + 1)
    {
      recordedRequests := recordedRequests + [request];
      return RequestId(|recordedRequests|);
    }

    function ModelFor(request: LlmRequest): string {
      if request.modelName.Some? && request.modelName.value != "" then request.modelName.value else defaultModel
    }

    method Generate(request: LlmRequest) returns (r: Result<LlmResponse, ProviderFailure>)
      modifies this
      ensures recordedRequests == old(recordedRequests) + [request]
      ensures errorMode.Some? ==> r == Err(errorMode.value)
      ensures errorMode == None ==>
                var named := request.modelName.Some? && request.modelName.value != "";
                r == Ok(LlmResponse(responseText, "mock", if named then request.modelName.value else defaultModel, Stop,
                                    None, Some(RequestId(|recordedRequests|))))
    {
      var id := RecordRequest(request);
      if errorMode.Some? {
        return Err(errorMode.value);
      }
      return Ok(LlmResponse(responseText, "mock", ModelFor(request), Stop, None, Some(id)));
    }

    method StreamGenerate(request: LlmRequest) returns (out: Output)
      modifies this
      ensures recordedRequests == old(recordedRequests) + [request]
      ensures MeetsContract(out, 0)
      ensures out.failure == errorMode
      ensures Deltas(out.chunks) == if errorMode == None then responseText else ""
    {
      var id := RecordRequest(request);
      out := StreamResponse(ModelFor(request), id);
    }

    /** Slices of eight characters, numbered from 0, then the final chunk whose number is the length over eight
        rounded up; the slices rejoin to the text generate returns. */
    method StreamResponse(model: string, id: string) returns (out: Output)
      ensures MeetsContract(out, 0)
      ensures out.failure == errorMode
      ensures Deltas(out.chunks) == if errorMode == None then responseText else ""
      ensures forall i :: 0 <= i < |out.chunks| ==>
                            out.chunks[i].provider == "mock" && out.chunks[i].model == model &&
                            out.chunks[i].requestId == Some(id)
      ensures errorMode == None ==>
                out.chunks != [] &&
                var last := out.chunks[|out.chunks| - 1];
                last.delta == "" && last.finish == Some(Stop) && last.usage == None
      ensures errorMode == None ==>
                |out.chunks| == (|responseText| + 7) / 8 + 1 &&
                forall i :: 0 <= i < |out.chunks| - 1 ==>
                              out.chunks[i].delta == Slice(responseText, i)
    {
      if errorMode.Some? {
        return Output([], errorMode);
      }
      var chunks: seq<Chunk> := [];
      var start := 0;
      while start < |responseText|
        invariant start == CHUNK_SIZE * |chunks| < |responseText| + CHUNK_SIZE
        invariant forall i :: 0 <= i < |chunks| ==> IsPiece(chunks[i], responseText, model, id, i)
        invariant Deltas(chunks) == responseText[..Covered(responseText, |chunks|)]
      {
        var stop := if start + CHUNK_SIZE < |responseText| then start + CHUNK_SIZE else |responseText|;
        var chunk := Chunk(|chunks|, responseText[start..stop], "mock", model, Some(id), false, None, None);
        NextPiece(chunks, responseText, model, id, chunk);
        chunks := chunks + [chunk];
        start := start + CHUNK_SIZE;
      }
      var finalSequence := (|responseText| + CHUNK_SIZE - 1) / CHUNK_SIZE;
      assert |chunks| == finalSequence;
      var last := Chunk(finalSequence, "", "mock", model, Some(id), true, Some(Stop), None);
      LastPiece(chunks, last);
      assert responseText[..|responseText|] == responseText;
      assert forall i :: 0 <= i < |chunks| ==> (chunks + [last])[i] == chunks[i];
      return Output(chunks + [last], None);
    }
  }
}
