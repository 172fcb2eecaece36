/** Values of the streaming pipeline (llm/schemas/response.py) and the contract every provider stream meets. */
module Streaming {
  import opened Prelude

  datatype FinishReason = Stop | Length | ContentFilter | Cancelled | Unknown

  datatype Usage = Usage(input: Option<nat>, output: Option<nat>, total: Option<nat>)

  datatype Chunk = Chunk(
    sequence: nat,
    delta: string,
    provider: string,
    model: string,
    requestId: Option<string>,
    isFinal: bool,
    finish: Option<FinishReason>,
    usage: Option<Usage>)

  /** Failures of a provider, as the pipeline tells them apart. */
  datatype ProviderFailure = InvalidResponse | Timeout | Unavailable | Authentication | RateLimit | Internal

  /** Chunks yielded, then either a normal end or a failure. */
  datatype Output = Output(chunks: seq<Chunk>, failure: Option<ProviderFailure>)

  function Deltas(chunks: seq<Chunk>): string {
    if chunks == [] then "" else chunks[0].delta + Deltas(chunks[1..])
  }

  /** Chunks are numbered `from`, `from + 1`, ...; the last one is final exactly when the stream did not fail, no
      other is, and completion metadata sits on the final chunk only. */
  ghost predicate MeetsContract(out: Output, from: nat) {
    && (forall i :: 0 <= i < |out.chunks| ==> out.chunks[i].sequence == from + i)
    && (forall i :: 0 <= i < |out.chunks| ==>
                      (out.chunks[i].isFinal <==> i == |out.chunks| - 1 && out.failure == None))
    && (forall i :: 0 <= i < |out.chunks| ==>
                      (out.chunks[i].isFinal <==> out.chunks[i].finish.Some?) &&
                      (!out.chunks[i].isFinal ==> out.chunks[i].usage == None))
    && (out.failure == None ==> out.chunks != [])
  }

  lemma ContractCons(c: Chunk, out: Output, from: nat)
    requires MeetsContract(out, from + 1)
    requires c.sequence == from && !c.isFinal && c.finish == None && c.usage == None
    ensures MeetsContract(Output([c] + out.chunks, out.failure), from)
  {
    var all := [c] + out.chunks;
    forall i | 0 <= i < |all|
      ensures all[i].sequence == from + i
      ensures all[i].isFinal <==> i == |all| - 1 && out.failure == None
      ensures (all[i].isFinal <==> all[i].finish.Some?) && (!all[i].isFinal ==> all[i].usage == None)
    {
      if i > 0 {
        assert all[i] == out.chunks[i - 1];
      }
    }
  }

  lemma DeltasAppend(a: seq<Chunk>, b: seq<Chunk>)
    ensures Deltas(a + b) == Deltas(a) + Deltas(b)
  {
    if a == [] {
      assert a + b == b;
    } else {
      DeltasAppend(a[1..], b);
      assert (a + b)[1..] == a[1..] + b;
    }
  }
}
