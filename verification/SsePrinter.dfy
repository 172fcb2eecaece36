/** _encode_sse_event of api/v1/routes/chat.py, and the parser as its inverse. */
module SsePrinter {
  import opened Prelude
  import opened Sse
  import opened SseGuard

  datatype Frame = Frame(name: string, json: string)

  function EncodeFrame(f: Frame): string {
    "event: " + f.name + "\n" + ("data: " + f.json + "\n\n")
  }

  function EncodeFrames(frames: seq<Frame>): string {
    if frames == [] then "" else EncodeFrame(frames[0]) + EncodeFrames(frames[1..])
  }

  predicate NoBreak(s: string) {
    forall j :: 0 <= j < |s| ==> !IsBreak(s[j])
  }

  /** A JSON encoder's output for an object: one line that opens with a brace. */
  predicate ObjectLine(json: string) {
    NoBreak(json) && json != "" && json[0] == '{'
  }

  predicate Printable(f: Frame) {
    NoBreak(f.name) && ObjectLine(f.json)
  }

  function ParsedFrames(frames: seq<Frame>): (events: seq<Event>)
    ensures |events| == |frames|
    ensures forall i :: 0 <= i < |frames| ==> events[i] == Event(frames[i].json, false)
  {
    seq(|frames|, i requires 0 <= i < |frames| => Event(frames[i].json, false))
  }

  lemma FrameIsThreeLines(f: Frame, rest: string)
    requires Printable(f)
    ensures Lines(EncodeFrame(f) + rest) == ["event: " + f.name, "data: " + f.json, ""] + Lines(rest)
  {
    var a := "event: " + f.name;
    var b := "data: " + f.json;
    LinesCut("", "\n", rest);
    assert "" + "\n" + rest == "\n" + rest;
    LinesCut(b, "\n", "\n" + rest);
    LinesCut(a, "\n", b + "\n" + ("\n" + rest));
    assert EncodeFrame(f) + rest == a + "\n" + (b + "\n" + ("\n" + rest));
    assert [a] + ([b] + ([""] + Lines(rest))) == [a, b, ""] + Lines(rest);
  }

  lemma FrameReading(f: Frame, rest: seq<string>)
    requires Printable(f)
    ensures Interpret(["event: " + f.name, "data: " + f.json, ""] + rest, []) ==
            ([Event(f.json, false)] + Interpret(rest, []).0, Interpret(rest, []).1)
  {
    var a := "event: " + f.name;
    var b := "data: " + f.json;
    var all := [a, b, ""] + rest;
    assert a[0] == 'e';
    assert DataOf(a) == None;
    assert b[..6] == "data: " && b[6..] == f.json && "data: " <= b;
    assert DataOf(b) == Some(f.json);
    assert all[1..] == [b, ""] + rest;
    assert ([b, ""] + rest)[1..] == [""] + rest;
    assert ([""] + rest)[1..] == rest;
    assert [] + [f.json] == [f.json];
    assert Joined([f.json]) == f.json && f.json != "[DONE]";
    assert Interpret([""] + rest, [f.json]) == ([Event(f.json, false)] + Interpret(rest, []).0, Interpret(rest, []).1);
    assert Interpret([b, ""] + rest, []) == Interpret([""] + rest, [f.json]);
    var open: seq<string> := [];
    assert open + DataOf(a).ToSeq() == open;
    assert all[0] == a != "";
    assert Interpret(all, open) == Interpret(all[1..], open);
  }

  lemma {:induction false} FramesReading(frames: seq<Frame>)
    requires forall f :: f in frames ==> Printable(f)
    ensures OnePass(EncodeFrames(frames)) == Parsed(ParsedFrames(frames), None)
  {
    if frames != [] {
      var rest := EncodeFrames(frames[1..]);
      FramesReading(frames[1..]);
      FrameIsThreeLines(frames[0], rest);
      FrameReading(frames[0], Lines(rest));
      assert ParsedFrames(frames) == [Event(frames[0].json, false)] + ParsedFrames(frames[1..]);
    }
  }

  /** Main result: print then parse is the identity. However the printed frames are cut on the way, the parser
      yields one event per frame, in order, with exactly that JSON and never a done marker - precisely when the
      cutting stays within the parser's limit. */
  lemma PrintThenParse(frames: seq<Frame>, chunks: seq<string>, max: nat)
    requires forall f :: f in frames ==> Printable(f)
    requires Concat(chunks) == EncodeFrames(frames)
    ensures ParseSse(chunks, max) == Parsed(ParsedFrames(frames), None) <==> CutsFit(chunks, max)
    ensures |EncodeFrames(frames)| <= max ==> ParseSse(chunks, max) == Parsed(ParsedFrames(frames), None)
  {
    FramesReading(frames);
    OnePassIffCutsFit(chunks, max);
    if |EncodeFrames(frames)| <= max {
      SmallTextIsOnePass(chunks, max);
    }
  }
}
