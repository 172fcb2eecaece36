/** SSEParser as the object the source mutates, each method proved against the functions of module Sse. */
module SseParser {
  import opened Prelude
  import opened Sse

  class SSEParser {
    const maxEventCharacters: nat
    var buffer: string
    var dataLines: seq<string>
    var pendingDataCharacters: nat
    var finished: bool

    /** The fields as one value. */
    function State(): Parser
      reads this
    {
      Parser(maxEventCharacters, buffer, dataLines, pendingDataCharacters, finished)
    }

    constructor (maxEventCharacters: nat)
      requires 1 <= maxEventCharacters
      ensures State() == NewParser(maxEventCharacters)
      ensures Ready(State())
    {
      this.maxEventCharacters := maxEventCharacters;
      buffer, dataLines, pendingDataCharacters, finished := "", [], 0, false;
    }

    /** Every successful call leaves the counter exact and buffer plus counter within the limit. */
    method Feed(chunk: string) returns (r: Result<seq<Event>, Failure>)
      modifies this
      ensures (State(), r) == Sse.Feed(old(State()), chunk)
      ensures old(Ready(State())) && r.Ok? ==> Ready(State())
    {
      ghost var before := State();
      if Ready(before) {
        FeedKeepsReady(before, chunk);
      }
      if finished {
        return Err(AlreadyFinalized);
      }
      if chunk == "" {
        return Ok([]);
      }
      buffer := buffer + chunk;
      r := DrainLines(false);
      if r.Ok? && !WithinLimit() {
        r := Err(TooLarge);
      }
    }

    method Finalize() returns (r: Result<seq<Event>, Failure>)
      modifies this
      ensures (State(), r) == Sse.Finalize(old(State()))
    {
      if finished {
        return Ok([]);
      }
      finished := true;
      r := DrainLines(true);
      if r.Ok? && dataLines != [] {
        r := Err(Truncated);
      }
    }

    method DrainLines(final: bool) returns (r: Result<seq<Event>, Failure>)
      modifies this
      ensures (State(), r) == Drain(old(State()), final)
    {
      ghost var start := State();
      var events: seq<Event> := [];
      ghost var p := start;
      AfterAfter([], [], Drain(p, final));
      var line := ExtractLine(final);
      while line.Some?
        invariant match Sse.ExtractLine(p.buffer, final)
                  case None => line == None && State() == p
                  case Some((l, rest)) => line == Some(l) && State() == p.(buffer := rest)
        invariant Drain(start, final) == After(events, Drain(p, final))
        decreases |p.buffer|
      {
        DrainOneLine(p, final);
        var event := ProcessLine(line.value);
        if event.Err? {
          return Err(event.error);
        }
        p := State();
        AfterAfter(events, event.value.ToSeq(), Drain(p, final));
        events := events + event.value.ToSeq();
        line := ExtractLine(final);
      }
      assert events + [] == events;
      return Ok(events);
    }

    method ExtractLine(final: bool) returns (line: Option<string>)
      modifies this`buffer
      ensures var x := Sse.ExtractLine(old(buffer), final);
              match x
              case None => line == None && buffer == old(buffer)
              case Some((l, rest)) => line == Some(l) && buffer == rest
    {
      for index := 0 to |buffer|
        invariant buffer == old(buffer)
        invariant forall j :: 0 <= j < index ==> !IsBreak(buffer[j])
      {
        var character := buffer[index];
        if character == '\n' {
          FirstBreakUnique(buffer, index);
          line := Some(buffer[..index]);
          buffer := buffer[index + 1..];
          return;
        }
        if character == '\r' {
          FirstBreakUnique(buffer, index);
          if index + 1 == |buffer| && !final {
            return None;
          }
          var separatorLength := if index + 1 < |buffer| && buffer[index + 1] == '\n' then 2 else 1;
          line := Some(buffer[..index]);
          buffer := buffer[index + separatorLength..];
          return;
        }
      }
      FirstBreakUnique(buffer, |buffer|);
      if final && buffer != "" {
        line := Some(buffer);
        buffer := "";
        return;
      }
      return None;
    }

    method ProcessLine(line: string) returns (r: Result<Option<Event>, Failure>)
      modifies this
      ensures (State(), r) == Sse.ProcessLine(old(State()), line)
      ensures buffer == old(buffer)
    {
      if line == "" {
        if dataLines == [] {
          return Ok(None);
        }
        var data := Joined(dataLines);
        dataLines, pendingDataCharacters := [], 0;
        return Ok(Some(Event(data, data == "[DONE]")));
      }
      var value := DataField(line);
      if value == None {
        return Ok(None);
      }
      if dataLines != [] {
        pendingDataCharacters := pendingDataCharacters + 1;
      }
      dataLines := dataLines + [value.value];
      pendingDataCharacters := pendingDataCharacters + |value.value|;
      return if WithinLimit() then Ok(None) else Err(TooLarge);
    }

    predicate WithinLimit()
      reads this
    {
      |buffer| + pendingDataCharacters <= maxEventCharacters
    }
  }

  /** parse_sse: the events handed to the consumer before the stream ended or failed. The limit must be positive. */
  method ParseChunks(chunks: seq<string>, maxEventCharacters: nat) returns (got: Option<Parsed>)
    ensures got == if maxEventCharacters < 1 then None else Some(ParseSse(chunks, maxEventCharacters))
    ensures got.Some? ==> (got.value == OnePass(Concat(chunks)) <==> Peak("", [], chunks) <= maxEventCharacters)
  {
    if maxEventCharacters < 1 {
      return None;
    }
    OnePassIffWithinPeak(chunks, maxEventCharacters);
    var parser := new SSEParser(maxEventCharacters);
    var yielded: seq<Event> := [];
    for i := 0 to |chunks|
      invariant fresh(parser) && parser.maxEventCharacters == maxEventCharacters
      invariant var rest := ParseFrom(parser.State(), chunks[i..]);
                ParseSse(chunks, maxEventCharacters) == Parsed(yielded + rest.events, rest.failure)
    {
      assert chunks[i..][1..] == chunks[i + 1..];
      var events := parser.Feed(chunks[i]);
      if events.Err? {
        assert yielded + [] == yielded;
        return Some(Parsed(yielded, Some(events.error)));
      }
      ghost var rest := ParseFrom(parser.State(), chunks[i + 1..]);
      assert yielded + (events.value + rest.events) == yielded + events.value + rest.events;
      yielded := yielded + events.value;
    }
    assert chunks[|chunks|..] == [];
    var events := parser.Finalize();
    if events.Err? {
      assert yielded + [] == yielded;
      return Some(Parsed(yielded, Some(events.error)));
    }
    return Some(Parsed(yielded + events.value, None));
  }
}
