/** The incremental parser of llm/http/sse.py as functions on its state, an independent one-pass reading of a
    whole text, and the theorems that connect the two. */
module Sse {
  import opened Prelude

  datatype Event = Event(data: string, isDone: bool)

  datatype Failure = TooLarge | Truncated | AlreadyFinalized

  /** The fields of SSEParser; `pending` is the counter the size guard reads. */
  datatype Parser = Parser(max: nat, buffer: string, lines: seq<string>, pending: nat, finished: bool)

  function NewParser(max: nat): Parser {
    Parser(max, "", [], 0, false)
  }

  predicate IsBreak(c: char) {
    c == '\n' || c == '\r'
  }

  /** Index of the first line break, or the length. */
  function FirstBreak(s: string): (i: nat)
    ensures i <= |s|
    ensures forall j :: 0 <= j < i ==> !IsBreak(s[j])
    ensures i < |s| ==> IsBreak(s[i])
  {
    if s == "" || IsBreak(s[0]) then 0 else 1 + FirstBreak(s[1..])
  }

  lemma FirstBreakUnique(s: string, i: nat)
    requires i <= |s|
    requires forall j :: 0 <= j < i ==> !IsBreak(s[j])
    requires i < |s| ==> IsBreak(s[i])
    ensures FirstBreak(s) == i
  {
    if i > 0 {
      FirstBreakUnique(s[1..], i - 1);
    }
  }

  /** One line and what remains of the buffer; None while the line may still grow. */
  function ExtractLine(buffer: string, final: bool): (r: Option<(string, string)>)
    ensures r.Some? ==> |r.value.0| + |r.value.1| <= |buffer| && |r.value.1| < |buffer|
  {
    var i := FirstBreak(buffer);
    if i == |buffer| then
      if final && buffer != "" then Some((buffer, "")) else None
    else if buffer[i] == '\n' then
      Some((buffer[..i], buffer[i + 1..]))
    else if i + 1 == |buffer| && !final then
      None
    else
      var separator := if i + 1 < |buffer| && buffer[i + 1] == '\n' then 2 else 1;
      Some((buffer[..i], buffer[i + separator..]))
  }

  /** Position of the first colon, or the length. */
  function FirstColon(s: string): (i: nat)
    ensures i <= |s|
    ensures forall j :: 0 <= j < i ==> s[j] != ':'
    ensures i < |s| ==> s[i] == ':'
  {
    if s == "" || s[0] == ':' then 0 else 1 + FirstColon(s[1..])
  }

  /** The value a non-empty line adds to the pending event, as the source takes the line apart. */
  function DataField(line: string): Option<string> {
    if line != "" && line[0] == ':' then None
    else
      var i := FirstColon(line);
      var field := line[..i];
      var value := if i < |line| then line[i + 1..] else "";
      var value := if i < |line| && value != "" && value[0] == ' ' then value[1..] else value;
      if field != "data" then None else Some(value)
  }

  /** "\n".join(lines) */
  function Joined(lines: seq<string>): string {
    if lines == [] then "" else if |lines| == 1 then lines[0] else lines[0] + "\n" + Joined(lines[1..])
  }

  function EventOf(lines: seq<string>): Event {
    Event(Joined(lines), Joined(lines) == "[DONE]")
  }

  predicate Fits(p: Parser) {
    |p.buffer| + p.pending <= p.max
  }

  function ProcessLine(p: Parser, line: string): (Parser, Result<Option<Event>, Failure>) {
    if line == "" then
      if p.lines == [] then (p, Ok(None))
      else (p.(lines := [], pending := 0), Ok(Some(EventOf(p.lines))))
    else
      match DataField(line)
      case None => (p, Ok(None))
      case Some(value) =>
        var gap := if p.lines == [] then 0 else 1;
        var q := p.(lines := p.lines + [value], pending := p.pending + gap + |value|);
        (q, if Fits(q) then Ok(None) else Err(TooLarge))
  }

  function Drain(p: Parser, final: bool): (Parser, Result<seq<Event>, Failure>)
    decreases |p.buffer|
  {
    match ExtractLine(p.buffer, final)
    case None => (p, Ok([]))
    case Some((line, rest)) =>
      var (q, r) := ProcessLine(p.(buffer := rest), line);
      if r.Err? then (q, Err(r.error))
      else
        var (z, rs) := Drain(q, final);
        (z, if rs.Err? then rs else Ok(r.value.ToSeq() + rs.value))
  }

  /** `events` already drained, then the rest of the drain. */
  function After(events: seq<Event>, d: (Parser, Result<seq<Event>, Failure>)): (Parser, Result<seq<Event>, Failure>) {
    (d.0, if d.1.Err? then d.1 else Ok(events + d.1.value))
  }

  lemma DrainOneLine(p: Parser, final: bool)
    requires ExtractLine(p.buffer, final).Some?
    ensures var (line, rest) := ExtractLine(p.buffer, final).value;
            var (q, r) := ProcessLine(p.(buffer := rest), line);
            Drain(p, final) == if r.Err? then (q, Err(r.error)) else After(r.value.ToSeq(), Drain(q, final))
  {
  }

  lemma AfterAfter(a: seq<Event>, b: seq<Event>, d: (Parser, Result<seq<Event>, Failure>))
    ensures After(a, After(b, d)) == After(a + b, d)
    ensures After([], d) == d
  {
    if d.1.Ok? {
      assert a + (b + d.1.value) == a + b + d.1.value;
      assert [] + d.1.value == d.1.value;
    }
  }

  function Feed(p: Parser, chunk: string): (Parser, Result<seq<Event>, Failure>) {
    if p.finished then (p, Err(AlreadyFinalized))
    else if chunk == "" then (p, Ok([]))
    else
      var (q, r) := Drain(p.(buffer := p.buffer + chunk), false);
      (q, if r.Ok? && !Fits(q) then Err(TooLarge) else r)
  }

  function Finalize(p: Parser): (Parser, Result<seq<Event>, Failure>) {
    if p.finished then (p, Ok([]))
    else
      var (q, r) := Drain(p.(finished := true), true);
      (q, if r.Ok? && q.lines != [] then Err(Truncated) else r)
  }

  /** What a consumer of parse_sse receives: the events yielded and the failure that ended the stream. */
  datatype Parsed = Parsed(events: seq<Event>, failure: Option<Failure>)

  function ParseFrom(p: Parser, chunks: seq<string>): Parsed
    decreases |chunks|
  {
    if chunks == [] then
      var (_, r) := Finalize(p);
      if r.Err? then Parsed([], Some(r.error)) else Parsed(r.value, None)
    else
      var (q, r) := Feed(p, chunks[0]);
      if r.Err? then Parsed([], Some(r.error))
      else
        var rest := ParseFrom(q, chunks[1..]);
        Parsed(r.value + rest.events, rest.failure)
  }

  function ParseSse(chunks: seq<string>, max: nat): Parsed {
    ParseFrom(NewParser(max), chunks)
  }

  // ---------------------------------------------------------------------------------------------------------
  // The one-pass reading: fold every line end to LF, split at LF, collect the data lines of each block.

  function FoldBreaks(t: string): string {
    if t == "" then ""
    else if t[0] == '\r' then
      "\n" + FoldBreaks(if |t| > 1 && t[1] == '\n' then t[2..] else t[1..])
    else [t[0]] + FoldBreaks(t[1..])
  }

  /** Pieces that end in LF, and the unterminated piece at the end when it is not empty. */
  function SplitAtLf(t: string): seq<string> {
    if t == "" then []
    else if t[0] == '\n' then [""] + SplitAtLf(t[1..])
    else
      var rest := SplitAtLf(t[1..]);
      if |t| == 1 || t[1] == '\n' then [[t[0]]] + (if |t| == 1 then [] else SplitAtLf(t[2..]))
      else if rest == [] then [[t[0]]] else [[t[0]] + rest[0]] + rest[1..]
  }

  function Lines(t: string): seq<string> {
    SplitAtLf(FoldBreaks(t))
  }

  /** A data line is "data" alone or "data:" followed by the value, less one leading space. */
  function DataOf(line: string): Option<string> {
    if line == "data" then Some("")
    else if "data: " <= line then Some(line[6..])
    else if "data:" <= line then Some(line[5..])
    else None
  }

  /** Events of the blocks closed by an empty line, and the data lines of the block still open. */
  function Interpret(lines: seq<string>, open: seq<string>): (seq<Event>, seq<string>) {
    if lines == [] then ([], open)
    else if lines[0] == "" then
      var (es, o) := Interpret(lines[1..], []);
      (if open == [] then es else [EventOf(open)] + es, o)
    else
      Interpret(lines[1..], open + DataOf(lines[0]).ToSeq())
  }

  function OnePass(text: string): Parsed {
    var (es, open) := Interpret(Lines(text), []);
    Parsed(es, if open == [] then None else Some(Truncated))
  }

  // ---------------------------------------------------------------------------------------------------------
  // The parser's field rule is the standard's.

  lemma DataFieldIsDataOf(line: string)
    requires line != ""
    ensures DataField(line) == DataOf(line)
  {
    var i := FirstColon(line);
    if i < |line| && line[..i] == "data" {
      assert line[..5] == "data:";
    }
    if "data:" <= line {
      assert line[4] == ':' && line[0] == 'd' && line[1] == 'a' && line[2] == 't' && line[3] == 'a';
      assert line[..4] == "data";
    }
  }

  // ---------------------------------------------------------------------------------------------------------
  // Lines of a text, cut one at a time.

  lemma {:induction false} FoldPlain(a: string, b: string)
    requires forall j :: 0 <= j < |a| ==> !IsBreak(a[j])
    ensures FoldBreaks(a + b) == a + FoldBreaks(b)
  {
    if a == "" {
      assert a + b == b;
    } else {
      assert !IsBreak(a[0]);
      assert (a + b)[1..] == a[1..] + b;
      FoldPlain(a[1..], b);
    }
  }

  lemma {:induction false} SplitPlain(a: string, b: string)
    requires forall j :: 0 <= j < |a| ==> a[j] != '\n'
    ensures SplitAtLf(a + "\n" + b) == [a] + SplitAtLf(b)
    ensures a != "" ==> SplitAtLf(a) == [a]
  {
    var t := a + "\n" + b;
    if a == "" {
      assert t[1..] == b;
    } else {
      assert a[0] != '\n';
      assert t[1..] == a[1..] + "\n" + b;
      SplitPlain(a[1..], b);
      if |a| == 1 {
        assert t[2..] == b;
        assert [t[0]] == a;
      } else {
        assert t[1] == a[1] != '\n';
        assert [a[0]] + a[1..] == a;
        assert SplitAtLf(a[1..]) == [a[1..]];
      }
    }
  }

  lemma LinesCut(a: string, c: string, b: string)
    requires forall j :: 0 <= j < |a| ==> !IsBreak(a[j])
    requires c == "\n" || c == "\r\n" || (c == "\r" && !("\n" <= b))
    ensures Lines(a + c + b) == [a] + Lines(b)
  {
    assert a + c + b == a + (c + b);
    FoldPlain(a, c + b);
    assert FoldBreaks(c + b) == "\n" + FoldBreaks(b) by {
      if c == "\r\n" {
        assert (c + b)[2..] == b;
      } else {
        assert (c + b)[1..] == b;
        if |c + b| > 1 {
          assert (c + b)[1] == b[0];
          assert b[0] == '\n' ==> "\n" <= b;
        }
      }
    }
    assert a + ("\n" + FoldBreaks(b)) == a + "\n" + FoldBreaks(b);
    SplitPlain(a, FoldBreaks(b));
  }

  /** A line taken from a buffer is the next line of every text that starts with that buffer. */
  lemma ExtractIsNextLine(buffer: string, final: bool, later: string)
    requires final ==> later == ""
    ensures match ExtractLine(buffer, final)
            case Some((line, rest)) => Lines(buffer + later) == [line] + Lines(rest + later)
            case None => final ==> Lines(buffer) == []
  {
    var i := FirstBreak(buffer);
    if i == |buffer| {
      if final && buffer != "" {
        FoldPlain(buffer, "");
        assert buffer + "" == buffer;
        SplitPlain(buffer, "");
        assert buffer + later == buffer;
        assert "" + later == "";
      }
    } else {
      var a := buffer[..i];
      if buffer[i] == '\n' {
        assert buffer + later == a + "\n" + (buffer[i + 1..] + later);
        LinesCut(a, "\n", buffer[i + 1..] + later);
      } else if i + 1 < |buffer| && buffer[i + 1] == '\n' {
        assert buffer + later == a + "\r\n" + (buffer[i + 2..] + later);
        LinesCut(a, "\r\n", buffer[i + 2..] + later);
      } else if i + 1 < |buffer| || final {
        assert buffer + later == a + "\r" + (buffer[i + 1..] + later);
        LinesCut(a, "\r", buffer[i + 1..] + later);
      }
    }
  }

  // ---------------------------------------------------------------------------------------------------------
  // Draining agrees with the one-pass reading, whatever text is still to come.

  /** Reading `text` after the data lines `open`. */
  function Reading(text: string, open: seq<string>): (seq<Event>, seq<string>) {
    Interpret(Lines(text), open)
  }

  lemma ProcessIsInterpret(p: Parser, line: string, rest: seq<string>)
    requires ProcessLine(p, line).1.Ok?
    ensures var (q, r) := ProcessLine(p, line);
            var (es, open) := Interpret(rest, q.lines);
            Interpret([line] + rest, p.lines) == (r.value.ToSeq() + es, open)
  {
    assert ([line] + rest)[1..] == rest;
    if line != "" {
      DataFieldIsDataOf(line);
      assert p.lines + [] == p.lines;
    }
    var (q, r) := ProcessLine(p, line);
    var (es, open) := Interpret(rest, q.lines);
    if r.value == None {
      assert r.value.ToSeq() + es == es;
    }
  }

  /** Taking one line off the buffer and processing it is one step of the reading. */
  lemma StepIsReading(p: Parser, final: bool, later: string)
    requires final ==> later == ""
    requires var x := ExtractLine(p.buffer, final);
             x.Some? && ProcessLine(p.(buffer := x.value.1), x.value.0).1.Ok?
    ensures var (line, rest) := ExtractLine(p.buffer, final).value;
            var (q, r) := ProcessLine(p.(buffer := rest), line);
            q.buffer == rest && q.max == p.max && q.finished == p.finished &&
            Reading(p.buffer + later, p.lines) ==
              (r.value.ToSeq() + Reading(q.buffer + later, q.lines).0, Reading(q.buffer + later, q.lines).1)
  {
    ExtractIsNextLine(p.buffer, final, later);
    var (line, rest) := ExtractLine(p.buffer, final).value;
    ProcessIsInterpret(p.(buffer := rest), line, Lines(rest + later));
  }

  lemma {:induction false} DrainIsReading(p: Parser, final: bool, later: string)
    requires final ==> later == ""
    requires Drain(p, final).1.Ok?
    ensures var (q, r) := Drain(p, final);
            var after := Reading(q.buffer + later, q.lines);
            Reading(p.buffer + later, p.lines) == (r.value + after.0, after.1)
    decreases |p.buffer|
  {
    var x := ExtractLine(p.buffer, final);
    if x == None {
      var now := Reading(p.buffer + later, p.lines);
      assert [] + now.0 == now.0;
    } else {
      StepIsReading(p, final, later);
      var (q, r) := ProcessLine(p.(buffer := x.value.1), x.value.0);
      DrainIsReading(q, final, later);
      var (z, rs) := Drain(q, final);
      var after := Reading(z.buffer + later, z.lines);
      assert r.value.ToSeq() + (rs.value + after.0) == (r.value.ToSeq() + rs.value) + after.0;
    }
  }

  // ---------------------------------------------------------------------------------------------------------
  // Every chunking agrees with the one-pass reading.

  /** No complete line is left: at most a trailing CR whose LF may still come. */
  predicate Drained(p: Parser) {
    ExtractLine(p.buffer, false) == None
  }

  lemma {:induction false} DrainOutcome(p: Parser, final: bool)
    ensures var (q, r) := Drain(p, final);
            q.finished == p.finished && (if r.Ok? then ExtractLine(q.buffer, final) == None else r.error == TooLarge)
    decreases |p.buffer|
  {
    match ExtractLine(p.buffer, final)
    case None =>
    case Some((line, rest)) =>
      DrainOutcome(ProcessLine(p.(buffer := rest), line).0, final);
  }

  lemma DrainConsumesAll(p: Parser)
    requires Drain(p, true).1.Ok?
    ensures Drain(p, true).0.buffer == ""
  {
    DrainOutcome(p, true);
  }

  /** The last drain handles one line at most, so it never both emits an event and leaves data lines open. */
  lemma FinalDrainLosesNothing(p: Parser)
    requires Drained(p) && Drain(p, true).1.Ok?
    ensures var (q, r) := Drain(p, true); r.value == [] || q.lines == []
  {
    var i := FirstBreak(p.buffer);
    if p.buffer != "" {
      var (line, rest) := ExtractLine(p.buffer, true).value;
      assert rest == "";
      var (q, r) := ProcessLine(p.(buffer := rest), line);
      assert Drain(q, true) == (q, Ok([]));
    }
  }

  lemma {:induction false} ParseIsReading(p: Parser, chunks: seq<string>)
    requires !p.finished && Drained(p)
    ensures var got := ParseFrom(p, chunks);
            var (es, open) := Reading(p.buffer + Concat(chunks), p.lines);
            if got.failure == Some(TooLarge) then got.events <= es
            else got == Parsed(es, if open == [] then None else Some(Truncated))
    decreases |chunks|
  {
    if chunks == [] {
      var p1 := p.(finished := true);
      DrainOutcome(p1, true);
      if Drain(p1, true).1.Ok? {
        DrainIsReading(p1, true, "");
        DrainConsumesAll(p1);
        FinalDrainLosesNothing(p1);
      }
    } else {
      var later := Concat(chunks[1..]);
      var p1 := p.(buffer := p.buffer + chunks[0]);
      assert p.buffer + Concat(chunks) == p1.buffer + later;
      if chunks[0] == "" {
        assert p1.buffer == p.buffer;
        ParseIsReading(p, chunks[1..]);
        var rest := ParseFrom(p, chunks[1..]);
        assert [] + rest.events == rest.events;
      } else {
        DrainOutcome(p1, false);
        var (q, r) := Drain(p1, false);
        if r.Ok? {
          DrainIsReading(p1, false, later);
          if Fits(q) {
            ParseIsReading(q, chunks[1..]);
          }
        }
      }
    }
  }

  /** Main result: any cutting of a text that never trips the size guard yields exactly the one-pass events, or
      the same truncation error; when the guard does trip, what was yielded is still a prefix of those events. */
  lemma ChunkingIsOnePass(chunks: seq<string>, max: nat)
    ensures var got := ParseSse(chunks, max);
            var whole := OnePass(Concat(chunks));
            if got.failure == Some(TooLarge) then got.events <= whole.events else got == whole
  {
    ParseIsReading(NewParser(max), chunks);
    assert "" + Concat(chunks) == Concat(chunks);
  }

  // ---------------------------------------------------------------------------------------------------------
  // What an event says.

  lemma {:induction false} InterpretMarksDone(lines: seq<string>, open: seq<string>)
    ensures forall e :: e in Interpret(lines, open).0 ==> (e.isDone <==> e.data == "[DONE]")
    decreases |lines|
  {
    if lines != [] {
      InterpretMarksDone(lines[1..], if lines[0] == "" then [] else open + DataOf(lines[0]).ToSeq());
    }
  }

  /** Main result: whatever the text and its cutting, an event is a done marker exactly when its data is [DONE]. */
  lemma {:induction false} DoneIsMarked(chunks: seq<string>, max: nat, e: Event)
    requires e in OnePass(Concat(chunks)).events || e in ParseSse(chunks, max).events
    ensures e.isDone <==> e.data == "[DONE]"
  {
    InterpretMarksDone(Lines(Concat(chunks)), []);
    ChunkingIsOnePass(chunks, max);
  }

  /** The pieces between line feeds. */
  function Pieces(data: string): (r: seq<string>)
    ensures r != []
  {
    if data == "" then [""]
    else
      var rest := Pieces(data[1..]);
      if data[0] == '\n' then [""] + rest else [[data[0]] + rest[0]] + rest[1..]
  }

  lemma {:induction false} PiecesOfLine(line: string, rest: string)
    requires '\n' !in line
    ensures Pieces(line) == [line]
    ensures Pieces(line + "\n" + rest) == [line] + Pieces(rest)
  {
    if line == "" {
      assert (line + "\n" + rest)[1..] == rest;
    } else {
      PiecesOfLine(line[1..], rest);
      assert (line + "\n" + rest)[1..] == line[1..] + "\n" + rest;
      assert line == [line[0]] + line[1..];
    }
  }

  /** The data of an event is its data lines with line feeds between them: cut there it gives the lines back. */
  lemma {:induction false} JoinedSplits(lines: seq<string>)
    requires lines != [] && forall i :: 0 <= i < |lines| ==> '\n' !in lines[i]
    ensures Pieces(Joined(lines)) == lines
  {
    if |lines| == 1 {
      PiecesOfLine(lines[0], "");
    } else {
      JoinedSplits(lines[1..]);
      PiecesOfLine(lines[0], Joined(lines[1..]));
    }
  }

  /** A finalized parser takes no more text and has no more events. */
  lemma {:induction false} FinalizedIsClosed(p: Parser, chunk: string)
    ensures var q := Finalize(p).0;
            q.finished && Finalize(q) == (q, Ok([])) && Feed(q, chunk) == (q, Err(AlreadyFinalized))
  {
    DrainKeepsFinished(p.(finished := true), true);
  }

  lemma {:induction false} DrainKeepsFinished(p: Parser, final: bool)
    ensures Drain(p, final).0.finished == p.finished
    decreases |p.buffer|
  {
    match ExtractLine(p.buffer, final)
    case None =>
    case Some((line, rest)) =>
      DrainKeepsFinished(ProcessLine(p.(buffer := rest), line).0, final);
  }

  // ---------------------------------------------------------------------------------------------------------
  // The size guard.

  /** The counter is the length of the pending data. */
  predicate Counted(p: Parser) {
    p.pending == |Joined(p.lines)|
  }

  lemma {:induction false} JoinedSnoc(lines: seq<string>, value: string)
    ensures Joined(lines + [value]) == if lines == [] then value else Joined(lines) + "\n" + value
  {
    if |lines| > 1 {
      JoinedSnoc(lines[1..], value);
      assert (lines + [value])[1..] == lines[1..] + [value];
    }
  }

  lemma DataFieldIsShorter(line: string)
    requires line != "" && DataField(line).Some?
    ensures |DataField(line).value| + 1 <= |line|
  {
  }

  /** One line keeps the counter exact and adds no more than its length; the guard lets it pass when there is room. */
  lemma {:induction false} LineKeepsCount(p: Parser, line: string)
    requires Counted(p)
    ensures var q := ProcessLine(p, line).0;
            Counted(q) && q.max == p.max && q.buffer == p.buffer && q.pending <= p.pending + |line|
    ensures |p.buffer| + p.pending + |line| <= p.max ==> ProcessLine(p, line).1.Ok?
  {
    if line != "" && DataField(line).Some? {
      JoinedSnoc(p.lines, DataField(line).value);
      DataFieldIsShorter(line);
    }
  }

  /** Draining keeps the counter exact and never increases buffer plus counter. */
  lemma {:induction false} DrainKeepsCount(p: Parser, final: bool)
    requires Counted(p)
    ensures var (q, r) := Drain(p, final);
            Counted(q) && q.max == p.max && |q.buffer| + q.pending <= |p.buffer| + p.pending
    ensures |p.buffer| + p.pending <= p.max ==> Drain(p, final).1.Ok?
    decreases |p.buffer|
  {
    match ExtractLine(p.buffer, final)
    case None =>
    case Some((line, rest)) =>
      LineKeepsCount(p.(buffer := rest), line);
      DrainKeepsCount(ProcessLine(p.(buffer := rest), line).0, final);
  }

  /** What holds between calls: the counter is exact, the size fits, and no complete line waits. */
  predicate Ready(p: Parser) {
    !p.finished && Drained(p) && Counted(p) && Fits(p)
  }

  lemma FeedKeepsReady(p: Parser, chunk: string)
    requires Ready(p)
    ensures Feed(p, chunk).1.Ok? ==> Ready(Feed(p, chunk).0) && Feed(p, chunk).0.max == p.max
    ensures |p.buffer| + p.pending + |chunk| <= p.max ==>
              Feed(p, chunk).1.Ok? &&
              var q := Feed(p, chunk).0; |q.buffer| + q.pending <= |p.buffer| + p.pending + |chunk|
  {
    var p1 := p.(buffer := p.buffer + chunk);
    if chunk != "" {
      DrainKeepsCount(p1, false);
      DrainOutcome(p1, false);
    }
  }

  lemma {:induction false} SmallTextFits(p: Parser, chunks: seq<string>)
    requires Ready(p) && |p.buffer| + p.pending + |Concat(chunks)| <= p.max
    ensures ParseFrom(p, chunks).failure != Some(TooLarge)
    decreases |chunks|
  {
    if chunks == [] {
      DrainKeepsCount(p.(finished := true), true);
    } else {
      FeedKeepsReady(p, chunks[0]);
      SmallTextFits(Feed(p, chunks[0]).0, chunks[1..]);
    }
  }

  /** A text no longer than the limit parses as its one-pass reading however it is cut. */
  lemma SmallTextIsOnePass(chunks: seq<string>, max: nat)
    requires |Concat(chunks)| <= max
    ensures ParseSse(chunks, max) == OnePass(Concat(chunks))
  {
    SmallTextFits(NewParser(max), chunks);
    ChunkingIsOnePass(chunks, max);
  }

  // ---------------------------------------------------------------------------------------------------------
  // Exactly when the guard fires. The size it looks at depends on how the text is cut.

  function Larger(a: nat, b: nat): nat {
    if a < b then b else a
  }

  /** Draining without a guard: the buffer left, the open data lines, and the largest size a guard would see. */
  function DrainPeak(buffer: string, lines: seq<string>, final: bool): (string, seq<string>, nat)
    decreases |buffer|
  {
    match ExtractLine(buffer, final)
    case None => (buffer, lines, 0)
    case Some((line, rest)) =>
      if line == "" then DrainPeak(rest, [], final)
      else if DataField(line) == None then DrainPeak(rest, lines, final)
      else
        var lines' := lines + [DataField(line).value];
        var (b, o, peak) := DrainPeak(rest, lines', final);
        (b, o, Larger(|rest| + |Joined(lines')|, peak))
  }

  /** The largest size seen while the chunks are fed one by one and the parser is finalized. */
  function Peak(buffer: string, lines: seq<string>, chunks: seq<string>): nat
    decreases |chunks|
  {
    if chunks == [] then DrainPeak(buffer, lines, true).2
    else if chunks[0] == "" then Peak(buffer, lines, chunks[1..])
    else
      var (b, o, peak) := DrainPeak(buffer + chunks[0], lines, false);
      Larger(Larger(peak, |b| + |Joined(o)|), Peak(b, o, chunks[1..]))
  }

  lemma {:induction false} DrainFailsAtPeak(p: Parser, final: bool)
    requires Counted(p)
    ensures var (b, o, peak) := DrainPeak(p.buffer, p.lines, final);
            var (q, r) := Drain(p, final);
            (r.Ok? <==> peak <= p.max) && (r.Ok? ==> q.buffer == b && q.lines == o)
    decreases |p.buffer|
  {
    match ExtractLine(p.buffer, final)
    case None =>
    case Some((line, rest)) =>
      LineKeepsCount(p.(buffer := rest), line);
      DrainFailsAtPeak(ProcessLine(p.(buffer := rest), line).0, final);
  }

  lemma {:induction false} ParseFailsAtPeak(p: Parser, chunks: seq<string>)
    requires Ready(p)
    ensures ParseFrom(p, chunks).failure == Some(TooLarge) <==> Peak(p.buffer, p.lines, chunks) > p.max
    decreases |chunks|
  {
    if chunks == [] {
      DrainFailsAtPeak(p.(finished := true), true);
      DrainOutcome(p.(finished := true), true);
    } else {
      var p1 := p.(buffer := p.buffer + chunks[0]);
      FeedKeepsReady(p, chunks[0]);
      DrainFailsAtPeak(p1, false);
      DrainKeepsCount(p1, false);
      DrainOutcome(p1, false);
      if Feed(p, chunks[0]).1.Ok? {
        ParseFailsAtPeak(Feed(p, chunks[0]).0, chunks[1..]);
      }
    }
  }

  /** Main result: the stream parses as its one-pass reading exactly when its peak size is within the limit. */
  lemma OnePassIffWithinPeak(chunks: seq<string>, max: nat)
    ensures ParseSse(chunks, max) == OnePass(Concat(chunks)) <==> Peak("", [], chunks) <= max
  {
    ParseFailsAtPeak(NewParser(max), chunks);
    ChunkingIsOnePass(chunks, max);
  }

  lemma CommentIsExtracted(c: string, rest: string)
    requires c != "" && c[0] == ':' && forall j :: 0 <= j < |c| ==> !IsBreak(c[j])
    ensures ExtractLine(c + "\n" + rest, false) == Some((c, rest))
    ensures ExtractLine(c, false) == None
    ensures DataField(c) == None
  {
    var t := c + "\n" + rest;
    FirstBreakUnique(t, |c|);
    FirstBreakUnique(c, |c|);
    assert t[..|c|] == c && t[|c| + 1..] == rest;
  }

  /** A comment line longer than the limit passes whole and is refused when its line end arrives separately. */
  lemma SplitCommentIsRefused(c: string, max: nat)
    requires |c| > max && c[0] == ':' && forall j :: 0 <= j < |c| ==> !IsBreak(c[j])
    ensures ParseSse([c + "\n"], max) == Parsed([], None)
    ensures ParseSse([c, "\n"], max).failure == Some(TooLarge)
  {
    var p := NewParser(max);
    CommentIsExtracted(c, "");
    assert c + "\n" + "" == c + "\n";
    assert "" + (c + "\n") == c + "\n" && "" + c == c;
    var p1 := p.(buffer := c + "\n");
    assert ExtractLine("", false) == None;
    assert Drain(p1.(buffer := ""), false) == (p, Ok([]));
    DrainOneLine(p1, false);
    AfterAfter([], [], Drain(p, false));
    assert p.buffer + (c + "\n") == c + "\n";
    assert Feed(p, c + "\n") == (p, Ok([]));
    assert ParseFrom(p, []) == Parsed([], None);
    var whole := [c + "\n"];
    assert whole[1..] == [];
    assert ParseFrom(p, whole) == Parsed([] + [], None);
    var split := [c, "\n"];
    assert Drain(p.(buffer := c), false) == (p.(buffer := c), Ok([]));
    assert Feed(p, split[0]).1 == Err(TooLarge);
  }

  /** The parser after one short data line. */
  function HoldingX(max: nat): Parser {
    Parser(max, "", ["x"], 1, false)
  }

  lemma TakeDataLine(p: Parser, rest: string)
    requires p.buffer == "data:x\n" + rest && p.lines == [] && p.pending == 0
    ensures ExtractLine(p.buffer, false) == Some(("data:x", rest))
    ensures var q := p.(buffer := rest, lines := ["x"], pending := 1);
            ProcessLine(p.(buffer := rest), "data:x") == (q, if Fits(q) then Ok(None) else Err(TooLarge))
  {
    FirstBreakUnique(p.buffer, 6);
    assert p.buffer[..6] == "data:x" && p.buffer[7..] == rest;
    var line := "data:x";
    assert line[..5] == "data:" && line[5..] == "x";
    assert "data:" <= line;
    DataFieldIsDataOf(line);
    assert [] + ["x"] == ["x"];
  }

  lemma FeedDataLine(max: nat)
    requires max >= 1
    ensures Feed(NewParser(max), "data:x\n") == (HoldingX(max), Ok([]))
  {
    var p := NewParser(max).(buffer := "data:x\n");
    assert NewParser(max).buffer + "data:x\n" == p.buffer == "data:x\n" + "";
    TakeDataLine(p, "");
    DrainOneLine(p, false);
    AfterAfter([], [], Drain(HoldingX(max), false));
    assert Drain(HoldingX(max), false) == (HoldingX(max), Ok([]));
  }

  lemma DrainBlankLine(max: nat)
    ensures Drain(HoldingX(max).(buffer := "\n"), false) == (NewParser(max), Ok([Event("x", false)]))
  {
    var q := HoldingX(max).(buffer := "\n");
    FirstBreakUnique("\n", 0);
    assert q.buffer[..0] == "" && q.buffer[1..] == "";
    assert Joined(["x"]) == "x";
    DrainOneLine(q, false);
    assert Drain(NewParser(max), false) == (NewParser(max), Ok([]));
    assert [Event("x", false)] + [] == [Event("x", false)];
  }

  lemma FeedCommentAndBlank(c: string, max: nat)
    requires max >= 1 && c != "" && c[0] == ':' && forall j :: 0 <= j < |c| ==> !IsBreak(c[j])
    ensures Feed(HoldingX(max), c + "\n\n") == (NewParser(max), Ok([Event("x", false)]))
  {
    var p := HoldingX(max).(buffer := c + "\n\n");
    assert p.buffer == c + "\n" + "\n";
    CommentIsExtracted(c, "\n");
    DrainOneLine(p, false);
    DrainBlankLine(max);
    AfterAfter([], [], Drain(HoldingX(max).(buffer := "\n"), false));
    assert HoldingX(max).buffer + (c + "\n\n") == p.buffer;
    assert p == HoldingX(max).(buffer := HoldingX(max).buffer + (c + "\n\n"));
  }

  /** A chunk that brings a data line together with a long comment is refused; the same text cut after the data
      line passes. */
  lemma LargeChunkIsRefused(c: string, max: nat)
    requires |c| > max >= 1 && c[0] == ':' && forall j :: 0 <= j < |c| ==> !IsBreak(c[j])
    ensures ParseSse(["data:x\n" + (c + "\n\n")], max).failure == Some(TooLarge)
    ensures ParseSse(["data:x\n", c + "\n\n"], max) == Parsed([Event("x", false)], None)
  {
    var p := NewParser(max);
    var tail := c + "\n\n";
    var whole := p.(buffer := "data:x\n" + tail);
    TakeDataLine(whole, tail);
    DrainOneLine(whole, false);
    assert p.buffer + whole.buffer == whole.buffer;
    assert Feed(p, whole.buffer).1 == Err(TooLarge);

    FeedDataLine(max);
    FeedCommentAndBlank(c, max);
    assert ParseFrom(p, []) == Parsed([], None);
    assert [tail][1..] == [];
    assert ParseFrom(HoldingX(max), [tail]) == Parsed([Event("x", false)] + [], None);
    assert ["data:x\n", tail][1..] == [tail];
    assert ParseFrom(p, ["data:x\n", tail]) == Parsed([] + [Event("x", false)], None);
  }
}
