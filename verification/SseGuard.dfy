/** When the parser's size guard fires, said of the text and the places where it is cut, without running the parser. */
module SseGuard {
  import opened Prelude
  import opened Sse

  /** A line of the text ends before position q, and no more text can change that: a CR at the very end may still be
      the first half of a CRLF. */
  predicate Boundary(text: string, q: nat) {
    q <= |text| &&
    (q == 0 || text[q - 1] == '\n' || (text[q - 1] == '\r' && q < |text| && text[q] != '\n'))
  }

  /** The last boundary at or before q. */
  function BoundaryFrom(text: string, q: nat): (b: nat)
    requires q <= |text|
    ensures b <= q && Boundary(text, b)
    ensures forall k :: b < k <= q ==> !Boundary(text, k)
  {
    if Boundary(text, q) then q else BoundaryFrom(text, q - 1)
  }

  function LastBoundary(text: string): (b: nat)
    ensures b <= |text| && Boundary(text, b)
    ensures forall k :: b < k ==> !Boundary(text, k)
  {
    BoundaryFrom(text, |text|)
  }

  /** The data lines of the event that is open after the text. */
  function OpenData(text: string): seq<string> {
    Interpret(Lines(text), []).1
  }

  predicate EndsWithData(text: string) {
    Lines(text) != [] && DataOf(Lines(text)[|Lines(text)| - 1]).Some?
  }

  /** What is held when the text has arrived and its first q characters have been read as lines: the rest of the text,
      and the open event's data joined by line feeds. */
  function Held(text: string, q: nat): nat
    requires q <= |text|
  {
    |text| - q + |Joined(OpenData(text[..q]))|
  }

  /** Where the guard looks while the text grows from `before` to `text`: after each data line that becomes complete, and
      at the end of what can be read. */
  predicate LooksAt(before: string, text: string, q: nat) {
    Boundary(text, q) && (q == LastBoundary(text) || (!Boundary(before, q) && EndsWithData(text[..q])))
  }

  predicate CutFits(before: string, text: string, max: nat) {
    forall q :: 0 <= q <= |text| && LooksAt(before, text, q) ==> Held(text, q) <= max
  }

  /** The text that has arrived after the first i chunks. */
  function Arrived(chunks: seq<string>, i: nat): string
    requires i <= |chunks|
  {
    Concat(chunks[..i])
  }

  predicate CutsFit(chunks: seq<string>, max: nat) {
    forall i :: 0 <= i < |chunks| ==> CutFits(Arrived(chunks, i), Arrived(chunks, i + 1), max)
  }

  // ---------------------------------------------------------------------------------------------------------
  // Lines of a text that is cut at a boundary.

  /** A line, its line end, and text that does not turn a CR into a CRLF. */
  predicate Cuts(line: string, cut: string, rest: string) {
    && (forall j :: 0 <= j < |line| ==> !IsBreak(line[j]))
    && (cut == "\n" || cut == "\r\n" || (cut == "\r" && !("\n" <= rest)))
  }

  lemma {:induction false} FirstLineOf(a: string) returns (line: string, cut: string, rest: string)
    requires a != "" && IsBreak(a[|a| - 1])
    ensures a == line + cut + rest && cut != "" && Cuts(line, cut, rest)
    ensures if rest == "" then cut[|cut| - 1] == a[|a| - 1] else rest[|rest| - 1] == a[|a| - 1]
  {
    var i := FirstBreak(a);
    assert i < |a|;
    var n := if a[i] == '\r' && i + 1 < |a| && a[i + 1] == '\n' then 2 else 1;
    line, cut, rest := a[..i], a[i..i + n], a[i + n..];
    assert n == 1 ==> cut == [a[i]];
    assert n == 2 ==> cut == [a[i], a[i + 1]];
  }

  lemma {:induction false} CutsWith(line: string, cut: string, rest: string, b: string)
    requires Cuts(line, cut, rest) && cut != ""
    requires rest == "" && cut[|cut| - 1] == '\r' ==> !("\n" <= b)
    ensures Cuts(line, cut, rest + b)
  {
    if rest != "" && "\n" <= rest + b {
      assert rest[0] == (rest + b)[0] == '\n';
    }
    if rest == "" {
      assert rest + b == b;
    }
  }

  lemma {:induction false} ConsAppend<T>(x: T, a: seq<T>, b: seq<T>)
    ensures [x] + (a + b) == [x] + a + b
  {
  }

  lemma {:induction false} LineInFront(line: string, cut: string, rest: string, b: string)
    requires Cuts(line, cut, rest) && Cuts(line, cut, rest + b)
    requires Lines(rest + b) == Lines(rest) + Lines(b)
    ensures Lines(line + cut + (rest + b)) == Lines(line + cut + rest) + Lines(b)
  {
    LinesCut(line, cut, rest);
    LinesCut(line, cut, rest + b);
    ConsAppend(line, Lines(rest), Lines(b));
  }

  lemma {:induction false} NothingInFront(b: string)
    ensures Lines("" + b) == Lines("") + Lines(b)
  {
    assert "" + b == b;
  }

  lemma {:induction false} LinesAppend(a: string, b: string)
    requires a == "" || IsBreak(a[|a| - 1])
    requires a != "" && a[|a| - 1] == '\r' ==> !("\n" <= b)
    ensures Lines(a + b) == Lines(a) + Lines(b)
    decreases |a|
  {
    if a == "" {
      NothingInFront(b);
    } else {
      var line, cut, rest := FirstLineOf(a);
      assert a + b == line + cut + (rest + b);
      CutsWith(line, cut, rest, b);
      LinesAppend(rest, b);
      LineInFront(line, cut, rest, b);
    }
  }

  lemma {:induction false} InterpretSnoc(lines: seq<string>, line: string, open: seq<string>)
    ensures Interpret(lines + [line], open).1 ==
            if line == "" then [] else Interpret(lines, open).1 + DataOf(line).ToSeq()
    decreases |lines|
  {
    if lines == [] {
      assert [] + [line] == [line] && [line][1..] == [];
    } else {
      assert (lines + [line])[0] == lines[0] && (lines + [line])[1..] == lines[1..] + [line];
      InterpretSnoc(lines[1..], line, if lines[0] == "" then [] else open + DataOf(lines[0]).ToSeq());
    }
  }

  /** The line that ends at the next boundary. */
  lemma {:induction false} NextLine(text: string, q: nat, next: nat, line: string, cut: string)
    requires Boundary(text, q) && q < next && Boundary(text, next) && text[q..next] == line + cut
    requires forall j :: 0 <= j < |line| ==> !IsBreak(line[j])
    requires cut == "\n" || cut == "\r\n" || cut == "\r"
    ensures Lines(text[..next]) == Lines(text[..q]) + [line]
  {
    LinesCut(line, cut, "");
    assert line + cut + "" == line + cut;
    assert Lines(line + cut) == [line] + Lines("") == [line];
    assert text[..next] == text[..q] + text[q..next];
    LinesAppend(text[..q], text[q..next]);
  }

  /** Position p holds the first line break at or after q. */
  predicate FirstBreakAt(text: string, q: nat, p: nat) {
    q <= p < |text| && IsBreak(text[p]) && forall k :: q <= k < p ==> !IsBreak(text[k])
  }

  function AfterBreak(text: string, p: nat): nat
    requires p < |text|
  {
    if text[p] == '\r' && p + 1 < |text| && text[p + 1] == '\n' then p + 2 else p + 1
  }

  lemma {:induction false} BreakIsBoundary(text: string, q: nat, p: nat)
    requires FirstBreakAt(text, q, p)
    ensures AfterBreak(text, p) <= |text|
    ensures forall k :: q < k < AfterBreak(text, p) ==> !Boundary(text, k)
    ensures Boundary(text, AfterBreak(text, p)) <==> !(text[p] == '\r' && p + 1 == |text|)
  {
  }

  lemma {:induction false} UnreadBreak(text: string, q: nat)
    requires q <= |text|
    ensures var p := q + FirstBreak(text[q..]);
            if p < |text| then FirstBreakAt(text, q, p) else forall k :: q <= k < |text| ==> !IsBreak(text[k])
  {
    var i := FirstBreak(text[q..]);
    forall k | q <= k < q + i
      ensures !IsBreak(text[k])
    {
      assert text[q..][k - q] == text[k];
    }
  }

  lemma {:induction false} DropDrop(text: string, q: nat, p: nat)
    requires q <= p <= |text|
    ensures text[q..][..p - q] == text[q..p] && text[q..][p - q..] == text[p..]
  {
  }

  lemma {:induction false} ExtractAt(text: string, q: nat, p: nat)
    requires FirstBreakAt(text, q, p)
    ensures ExtractLine(text[q..], false) ==
            if text[p] == '\r' && p + 1 == |text| then None else Some((text[q..p], text[AfterBreak(text, p)..]))
  {
    var unread := text[q..];
    assert forall j :: 0 <= j < |unread| ==> unread[j] == text[q + j];
    FirstBreakUnique(unread, p - q);
    DropDrop(text, q, p);
    DropDrop(text, q, AfterBreak(text, p));
  }

  lemma {:induction false} LineAt(text: string, q: nat, p: nat)
    requires Boundary(text, q) && FirstBreakAt(text, q, p)
    requires Boundary(text, AfterBreak(text, p))
    ensures Lines(text[..AfterBreak(text, p)]) == Lines(text[..q]) + [text[q..p]]
  {
    var next := AfterBreak(text, p);
    assert text[q..next] == text[q..p] + text[p..next];
    assert text[p..next] == if next == p + 1 then [text[p]] else [text[p], text[p + 1]];
    NextLine(text, q, next, text[q..p], text[p..next]);
  }

  /** Extracting a line from the unread part goes to the next boundary; None means that there is none. */
  lemma {:induction false} ExtractGoesToBoundary(text: string, q: nat) returns (next: nat)
    requires Boundary(text, q)
    ensures ExtractLine(text[q..], false) == None ==> q == LastBoundary(text)
    ensures ExtractLine(text[q..], false).Some? ==>
              var (line, rest) := ExtractLine(text[q..], false).value;
              q < next && Boundary(text, next) && rest == text[next..] &&
              (forall k :: q < k < next ==> !Boundary(text, k)) &&
              Lines(text[..next]) == Lines(text[..q]) + [line]
  {
    var p := q + FirstBreak(text[q..]);
    UnreadBreak(text, q);
    next := q;
    if p < |text| {
      BreakIsBoundary(text, q, p);
      ExtractAt(text, q, p);
      if ExtractLine(text[q..], false).Some? {
        next := AfterBreak(text, p);
        LineAt(text, q, p);
      }
    }
  }

  // ---------------------------------------------------------------------------------------------------------
  // One chunk.

  /** Every data line that ends after q fits. */
  predicate DataFits(text: string, q: nat, max: nat) {
    forall k :: q < k <= |text| && Boundary(text, k) && EndsWithData(text[..k]) ==> Held(text, k) <= max
  }

  /** Stepping over the next boundary. */
  lemma {:induction false} DataFitsStep(text: string, q: nat, next: nat, max: nat)
    requires q < next && Boundary(text, next) && forall k :: q < k < next ==> !Boundary(text, k)
    ensures DataFits(text, q, max) <==>
            (EndsWithData(text[..next]) ==> Held(text, next) <= max) && DataFits(text, next, max)
  {
  }

  lemma {:induction false} LineOpens(before: string, text: string, line: string)
    requires Lines(text) == Lines(before) + [line]
    ensures OpenData(text) == if line == "" then [] else OpenData(before) + DataOf(line).ToSeq()
    ensures EndsWithData(text) <==> DataOf(line).Some?
  {
    InterpretSnoc(Lines(before), line, []);
  }

  /** Draining the unread part leaves what follows the last boundary and the data open there, and sees the sizes held
      after the data lines on the way. */
  lemma {:induction false} DrainSeesHeld(text: string, q: nat, max: nat)
    requires Boundary(text, q)
    ensures var (b, o, peak) := DrainPeak(text[q..], OpenData(text[..q]), false);
            b == text[LastBoundary(text)..] && o == OpenData(text[..LastBoundary(text)]) &&
            (peak <= max <==> DataFits(text, q, max))
    decreases |text| - q
  {
    var next := ExtractGoesToBoundary(text, q);
    match ExtractLine(text[q..], false)
    case None =>
    case Some((line, rest)) =>
      LineOpens(text[..q], text[..next], line);
      if line != "" {
        DataFieldIsDataOf(line);
      }
      DrainSeesHeld(text, next, max);
      DataFitsStep(text, q, next, max);
      assert OpenData(text[..q]) + [] == OpenData(text[..q]);
  }

  /** Boundaries stay when more text arrives, and no new one appears before the last. */
  lemma {:induction false} BoundariesStay(before: string, more: string, q: nat)
    ensures q <= LastBoundary(before) ==> (Boundary(before + more, q) <==> Boundary(before, q))
    ensures LastBoundary(before) < q ==> !Boundary(before, q)
  {
  }

  lemma {:induction false} CutFitsIff(before: string, more: string, max: nat)
    ensures var text := before + more;
            Boundary(text, LastBoundary(before)) &&
            (CutFits(before, text, max) <==>
             DataFits(text, LastBoundary(before), max) && Held(text, LastBoundary(text)) <= max)
  {
    var text := before + more;
    var b := LastBoundary(before);
    BoundariesStay(before, more, b);
    if CutFits(before, text, max) {
      assert LooksAt(before, text, LastBoundary(text));
      forall k | b < k <= |text| && Boundary(text, k) && EndsWithData(text[..k])
        ensures Held(text, k) <= max
      {
        assert LooksAt(before, text, k);
      }
    }
    if DataFits(text, b, max) && Held(text, LastBoundary(text)) <= max {
      forall q | 0 <= q <= |text| && LooksAt(before, text, q)
        ensures Held(text, q) <= max
      {
        BoundariesStay(before, more, q);
      }
    }
  }

  // ---------------------------------------------------------------------------------------------------------
  // All chunks.

  /** Finalizing never adds to what is held. */
  lemma {:induction false} LastDrainFits(buffer: string, lines: seq<string>, max: nat)
    requires |buffer| + |Joined(lines)| <= max
    ensures DrainPeak(buffer, lines, true).2 <= max
  {
    var p := Parser(max, buffer, lines, |Joined(lines)|, false);
    DrainKeepsCount(p, true);
    DrainFailsAtPeak(p, true);
  }

  predicate CutsFitFrom(before: string, chunks: seq<string>, max: nat)
    decreases |chunks|
  {
    chunks == [] ||
    (CutFits(before, before + chunks[0], max) && CutsFitFrom(before + chunks[0], chunks[1..], max))
  }

  /** One chunk, fed to what the text before it left. */
  lemma {:induction false} ChunkPeak(before: string, chunk: string, max: nat)
    ensures var b := LastBoundary(before);
            var text := before + chunk;
            var (rest, open, peak) := DrainPeak(before[b..] + chunk, OpenData(before[..b]), false);
            rest == text[LastBoundary(text)..] && open == OpenData(text[..LastBoundary(text)]) &&
            (CutFits(before, text, max) <==> peak <= max && |rest| + |Joined(open)| <= max)
  {
    var b := LastBoundary(before);
    var text := before + chunk;
    CutFitsIff(before, chunk, max);
    assert text[b..] == before[b..] + chunk && text[..b] == before[..b];
    DrainSeesHeld(text, b, max);
  }

  lemma {:induction false} PeakFrom(before: string, chunks: seq<string>, max: nat)
    requires Held(before, LastBoundary(before)) <= max
    ensures var b := LastBoundary(before);
            Peak(before[b..], OpenData(before[..b]), chunks) <= max <==> CutsFitFrom(before, chunks, max)
    decreases |chunks|
  {
    var b := LastBoundary(before);
    if chunks == [] {
      LastDrainFits(before[b..], OpenData(before[..b]), max);
    } else if chunks[0] == "" {
      NothingArrives(before, max);
      PeakFrom(before, chunks[1..], max);
    } else {
      ChunkPeak(before, chunks[0], max);
      if CutFits(before, before + chunks[0], max) {
        PeakFrom(before + chunks[0], chunks[1..], max);
      }
    }
  }

  lemma {:induction false} NothingArrives(before: string, max: nat)
    requires Held(before, LastBoundary(before)) <= max
    ensures before + "" == before && CutFits(before, before, max)
  {
    assert before + "" == before;
    CutFitsIff(before, "", max);
  }

  lemma {:induction false} ArrivedCons(chunk: string, rest: seq<string>, i: nat)
    requires i <= |rest|
    ensures Arrived([chunk] + rest, i + 1) == chunk + Arrived(rest, i)
  {
    assert ([chunk] + rest)[..i + 1] == [chunk] + rest[..i];
    assert ([chunk] + rest[..i])[1..] == rest[..i];
  }

  predicate CutsFitAfter(before: string, chunks: seq<string>, max: nat) {
    forall i :: 0 <= i < |chunks| ==> CutFits(before + Arrived(chunks, i), before + Arrived(chunks, i + 1), max)
  }

  lemma {:induction false} FirstAndRest(before: string, chunks: seq<string>, max: nat)
    requires chunks != []
    ensures CutsFitAfter(before, chunks, max) <==>
            CutFits(before, before + chunks[0], max) && CutsFitAfter(before + chunks[0], chunks[1..], max)
  {
    var rest := chunks[1..];
    var text := before + chunks[0];
    assert chunks == [chunks[0]] + rest;
    forall i | 0 <= i <= |rest|
      ensures before + Arrived(chunks, i + 1) == text + Arrived(rest, i)
    {
      ArrivedCons(chunks[0], rest, i);
    }
    assert before + Arrived(chunks, 0) == before && text + Arrived(rest, 0) == text;
    if CutsFitAfter(before, chunks, max) {
      forall i | 0 <= i < |rest|
        ensures CutFits(text + Arrived(rest, i), text + Arrived(rest, i + 1), max)
      {
        assert CutFits(before + Arrived(chunks, i + 1), before + Arrived(chunks, i + 1 + 1), max);
      }
    }
    if CutFits(before, text, max) && CutsFitAfter(text, rest, max) {
      forall i | 0 <= i < |chunks|
        ensures CutFits(before + Arrived(chunks, i), before + Arrived(chunks, i + 1), max)
      {
        if i > 0 {
          assert CutFits(text + Arrived(rest, i - 1), text + Arrived(rest, i - 1 + 1), max);
        }
      }
    }
  }

  lemma {:induction false} CutsFitIsFrom(before: string, chunks: seq<string>, max: nat)
    ensures CutsFitFrom(before, chunks, max) <==> CutsFitAfter(before, chunks, max)
    decreases |chunks|
  {
    if chunks != [] {
      CutsFitIsFrom(before + chunks[0], chunks[1..], max);
      FirstAndRest(before, chunks, max);
    }
  }

  /** Main result: the stream parses as its one-pass reading exactly when, at every chunk end and after every data line
      that the chunk completes, the unread text together with the open event's data is within the limit. */
  lemma {:induction false} OnePassIffCutsFit(chunks: seq<string>, max: nat)
    ensures ParseSse(chunks, max) == OnePass(Concat(chunks)) <==> CutsFit(chunks, max)
    ensures Peak("", [], chunks) <= max <==> CutsFit(chunks, max)
  {
    assert LastBoundary("") == 0 && OpenData("") == [] && ""[..0] == "";
    PeakFrom("", chunks, max);
    CutsFitIsFrom("", chunks, max);
    assert forall i :: 0 <= i <= |chunks| ==> "" + Arrived(chunks, i) == Arrived(chunks, i);
    OnePassIffWithinPeak(chunks, max);
  }
}
