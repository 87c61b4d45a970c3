/**
 * The text framing of server-sent events: how frames are printed, how a scanner cuts the text into lines, and how
 * lines are gathered back into frames ("Interpreting an event stream", section 9.2.6 of the WHATWG HTML standard,
 * as far as the router implements it).
 */
module EventStream {
  import opened Collections

  datatype RawFrame = RawFrame(name: string, payload: string)

  // ---- trimming and lines ---------------------------------------------------------------------

  predicate IsSpace(c: char) {
    '\t' <= c <= '\r' || c == ' ' || c == '\U{0085}' || c == '\U{00A0}' || c == '\U{1680}'
    || '\U{2000}' <= c <= '\U{200A}' || c == '\U{2028}' || c == '\U{2029}' || c == '\U{202F}' || c == '\U{205F}'
    || c == '\U{3000}'
  }

  function TrimLeft(s: string): string {
    if s != "" && IsSpace(s[0]) then TrimLeft(s[1..]) else s
  }

  function TrimRight(s: string): string {
    if s != "" && IsSpace(s[|s| - 1]) then TrimRight(s[..|s| - 1]) else s
  }

  function Trim(s: string): string {
    TrimRight(TrimLeft(s))
  }

  /** Text that fits on one line and that trimming leaves alone. */
  predicate Clean(s: string) {
    '\n' !in s && (s != "" ==> !IsSpace(s[0]) && !IsSpace(s[|s| - 1]))
  }

  function DropCR(s: string): string {
    if s != "" && s[|s| - 1] == '\r' then s[..|s| - 1] else s
  }

  /** The length of the first line, without its newline. */
  function FirstLine(text: string): (k: nat)
    ensures k <= |text| && forall i :: 0 <= i < k ==> text[i] != '\n'
    ensures k < |text| ==> text[k] == '\n'
  {
    if text == "" || text[0] == '\n' then 0 else 1 + FirstLine(text[1..])
  }

  /** The tokens of a line scanner: a final unterminated line counts, a final empty one does not. */
  function Lines(text: string): seq<string>
    decreases |text|
  {
    if text == "" then []
    else
      var k := FirstLine(text);
      if k == |text| then [DropCR(text)] else [DropCR(text[..k])] + Lines(text[k + 1..])
  }

  // ---- printing -------------------------------------------------------------------------------

  function EventLine(frame: RawFrame): string { "event: " + frame.name }

  function DataLine(frame: RawFrame): string { "data: " + frame.payload }

  function Render(frame: RawFrame): string {
    EventLine(frame) + "\n" + DataLine(frame) + "\n" + "\n"
  }

  function RenderAll(frames: seq<RawFrame>): string {
    if frames == [] then "" else Render(frames[0]) + RenderAll(frames[1..])
  }

  // ---- gathering lines into frames ------------------------------------------------------------

  /** The frame being built. */
  datatype Pending = Pending(name: string, data: seq<string>)

  const NOTHING := Pending("", [])

  function Join(lines: seq<string>): string
    requires lines != []
  {
    if |lines| == 1 then lines[0] else lines[0] + "\n" + Join(lines[1..])
  }

  /** A field line; comments and other fields are ignored. */
  function TakeField(p: Pending, line: string): Pending {
    if "event:" <= line then p.(name := Trim(line[6..]))
    else if "data:" <= line then p.(data := p.data + [Trim(line[5..])])
    else p
  }

  /** A frame is pending once it has a data line. */
  function Flush(p: Pending): seq<RawFrame> {
    if p.data == [] then [] else [RawFrame(p.name, Join(p.data))]
  }

  /** The frames completed by blank lines, and what is left pending at the end. */
  datatype Gathered = Gathered(frames: seq<RawFrame>, rest: Pending)

  function Gather(p: Pending, lines: seq<string>): Gathered
    decreases |lines|
  {
    if lines == [] then Gathered([], p)
    else if lines[0] == "" then
      var more := Gather(NOTHING, lines[1..]);
      Gathered(Flush(p) + more.frames, more.rest)
    else Gather(TakeField(p, lines[0]), lines[1..])
  }

  /** All frames of a text that was read to its end: a trailing frame needs no blank line. */
  function Parse(text: string): seq<RawFrame> {
    var gathered := Gather(NOTHING, Lines(text));
    gathered.frames + Flush(gathered.rest)
  }

  // ---- round trip -----------------------------------------------------------------------------

  function Terminated(line: string, rest: string): string {
    line + ("\n" + rest)
  }

  lemma {:induction false} LinesCons(line: string, rest: string)
    requires '\n' !in line
    ensures Lines(Terminated(line, rest)) == [DropCR(line)] + Lines(rest)
  {
    var text := Terminated(line, rest);
    assert text[|line|] == '\n' && text[..|line|] == line && text[|line| + 1..] == rest;
    assert forall i :: 0 <= i < |line| ==> text[i] == line[i];
  }

  lemma {:induction false} LinesLast(line: string)
    requires '\n' !in line && line != ""
    ensures Lines(line) == [DropCR(line)]
  {
  }

  predicate Printable(frame: RawFrame) {
    Clean(frame.name) && Clean(frame.payload)
  }

  lemma {:induction false} FieldValue(prefix: string, value: string)
    requires Clean(value)
    ensures Trim(" " + value) == value
    ensures DropCR(prefix + " " + value) == prefix + " " + value
  {
    assert (" " + value)[1..] == value;
    assert TrimLeft(value) == value && TrimRight(value) == value;
    var line := prefix + " " + value;
    assert value != "" ==> line[|line| - 1] == value[|value| - 1];
  }

  lemma {:induction false} FieldLines(frame: RawFrame, p: Pending)
    requires Printable(frame)
    ensures DropCR(EventLine(frame)) == EventLine(frame) && DropCR(DataLine(frame)) == DataLine(frame)
    ensures '\n' !in EventLine(frame) && '\n' !in DataLine(frame)
    ensures TakeField(p, EventLine(frame)) == p.(name := frame.name)
    ensures TakeField(p, DataLine(frame)) == p.(data := p.data + [frame.payload])
  {
    FieldValue("event:", frame.name);
    FieldValue("data:", frame.payload);
    assert EventLine(frame) == "event:" + " " + frame.name && EventLine(frame)[6..] == " " + frame.name;
    assert DataLine(frame) == "data:" + " " + frame.payload && DataLine(frame)[5..] == " " + frame.payload;
    assert DataLine(frame)[0] != "event:"[0];
  }

  lemma {:induction false} RenderIsLines(frame: RawFrame, rest: string)
    ensures Render(frame) + rest == Terminated(EventLine(frame), Terminated(DataLine(frame), Terminated("", rest)))
  {
    var e, d := EventLine(frame), DataLine(frame);
    assert Render(frame) + rest == e + ("\n" + (d + ("\n" + ("\n" + rest))));
    assert Terminated("", rest) == "\n" + rest;
  }

  lemma {:induction false} GatherField(p: Pending, line: string, lines: seq<string>)
    requires line != ""
    ensures Gather(p, [line] + lines) == Gather(TakeField(p, line), lines)
  {
    assert ([line] + lines)[1..] == lines;
  }

  lemma {:induction false} GatherFrame(frame: RawFrame, lines: seq<string>)
    requires Printable(frame)
    ensures Gather(NOTHING, [EventLine(frame)] + ([DataLine(frame)] + lines))
         == Gather(Pending(frame.name, [frame.payload]), lines)
  {
    var e, d := EventLine(frame), DataLine(frame);
    FieldLines(frame, NOTHING);
    FieldLines(frame, Pending(frame.name, []));
    GatherField(NOTHING, e, [d] + lines);
    GatherField(Pending(frame.name, []), d, lines);
    assert [] + [frame.payload] == [frame.payload];
  }

  lemma {:induction false} ParseFrame(frame: RawFrame, rest: string)
    requires Printable(frame)
    ensures Parse(Render(frame) + rest) == [frame] + Parse(rest)
  {
    var e, d := EventLine(frame), DataLine(frame);
    RenderIsLines(frame, rest);
    FieldLines(frame, NOTHING);
    LinesCons(e, Terminated(d, Terminated("", rest)));
    LinesCons(d, Terminated("", rest));
    LinesCons("", rest);
    GatherFrame(frame, [""] + Lines(rest));
    assert ([""] + Lines(rest))[1..] == Lines(rest);
  }

  lemma {:induction false} ParsePrinted(frames: seq<RawFrame>, rest: string)
    requires forall f :: f in frames ==> Printable(f)
    ensures Parse(RenderAll(frames) + rest) == frames + Parse(rest)
  {
    if frames == [] {
      assert RenderAll(frames) + rest == rest;
    } else {
      var f := frames[0];
      var more := RenderAll(frames[1..]) + rest;
      calc {
        Parse(RenderAll(frames) + rest);
        { Regroup(Render(f), RenderAll(frames[1..]), rest); }
        Parse(Render(f) + more);
        { ParseFrame(f, more); }
        [f] + Parse(more);
        { ParsePrinted(frames[1..], rest); }
        [f] + (frames[1..] + Parse(rest));
        ([f] + frames[1..]) + Parse(rest);
        { assert [f] + frames[1..] == frames; }
        frames + Parse(rest);
      }
    }
  }

  /** Scanning printed frames gives back exactly those frames, in order. */
  lemma {:induction false} FramingRoundTrip(frames: seq<RawFrame>)
    requires forall f :: f in frames ==> Printable(f)
    ensures Parse(RenderAll(frames)) == frames
  {
    ParsePrinted(frames, "");
    assert RenderAll(frames) + "" == RenderAll(frames);
  }

  /** A frame without its blank line, with or without the newline of its data line. */
  lemma {:induction false} ParseCutFrame(frame: RawFrame, end: string)
    requires Printable(frame) && (end == "" || end == "\n")
    ensures Parse(Terminated(EventLine(frame), DataLine(frame) + end)) == [frame]
  {
    var e, d := EventLine(frame), DataLine(frame);
    FieldLines(frame, NOTHING);
    LinesCons(e, d + end);
    if end == "" {
      assert d + end == d;
      LinesLast(d);
    } else {
      assert d + end == Terminated(d, "");
      LinesCons(d, "");
    }
    assert Lines(d + end) == [d] + [];
    GatherFrame(frame, []);
  }

  lemma {:induction false} CutFrame(frame: RawFrame, cut: nat)
    requires cut <= 2
    ensures var tail := Render(frame)[..|Render(frame)| - cut];
            tail == if cut == 0 then Render(frame) + ""
                    else Terminated(EventLine(frame), DataLine(frame) + if cut == 1 then "\n" else "")
  {
  }

  lemma {:induction false} ParseTail(frame: RawFrame, cut: nat)
    requires Printable(frame) && cut <= 2
    ensures Parse(Render(frame)[..|Render(frame)| - cut]) == [frame]
  {
    CutFrame(frame, cut);
    if cut == 0 {
      ParseFrame(frame, "");
    } else {
      ParseCutFrame(frame, if cut == 1 then "\n" else "");
    }
  }

  /** A stream cut off inside its final blank line, or just before it, still delivers the last frame. */
  lemma {:induction false} LastFrameSurvives(frames: seq<RawFrame>, last: RawFrame, cut: nat)
    requires (forall f :: f in frames ==> Printable(f)) && Printable(last) && cut <= 2
    ensures Parse(RenderAll(frames) + Render(last)[..|Render(last)| - cut]) == frames + [last]
  {
    ParsePrinted(frames, Render(last)[..|Render(last)| - cut]);
    ParseTail(last, cut);
  }

  // ---- fields and payloads --------------------------------------------------------------------

  lemma {:induction false} TrimLeftIs(s: string) returns (a: string)
    ensures s == a + TrimLeft(s) && forall c :: c in a ==> IsSpace(c)
    ensures TrimLeft(s) != "" ==> !IsSpace(TrimLeft(s)[0])
  {
    a := "";
    if s != "" && IsSpace(s[0]) {
      var more := TrimLeftIs(s[1..]);
      a := [s[0]] + more;
      Regroup([s[0]], more, TrimLeft(s));
    }
  }

  lemma {:induction false} TrimRightIs(s: string) returns (b: string)
    ensures s == TrimRight(s) + b && forall c :: c in b ==> IsSpace(c)
    ensures TrimRight(s) != "" ==> !IsSpace(TrimRight(s)[|TrimRight(s)| - 1])
  {
    b := "";
    if s != "" && IsSpace(s[|s| - 1]) {
      var n := |s| - 1;
      var more := TrimRightIs(s[..n]);
      b := more + [s[n]];
      Regroup(TrimRight(s), more, [s[n]]);
    }
  }

  /** Trimming takes off all blanks at either end, and nothing else. */
  lemma {:induction false} TrimIs(s: string) returns (a: string, b: string)
    ensures s == a + Trim(s) + b && forall c :: c in a + b ==> IsSpace(c)
    ensures Trim(s) != "" ==> !IsSpace(Trim(s)[0]) && !IsSpace(Trim(s)[|Trim(s)| - 1])
  {
    a := TrimLeftIs(s);
    b := TrimRightIs(TrimLeft(s));
    Regroup(a, Trim(s), b);
    assert Trim(s) != "" ==> Trim(s)[0] == TrimLeft(s)[0];
  }

  /** A field line sets its field to the trimmed text after the colon, with or without a blank; others are ignored. */
  lemma {:induction false} FieldsAre(p: Pending, line: string)
    ensures forall value :: line == "event:" + value ==> TakeField(p, line) == p.(name := Trim(value))
    ensures forall value :: line == "data:" + value ==> TakeField(p, line) == p.(data := p.data + [Trim(value)])
    ensures (forall value :: line != "event:" + value && line != "data:" + value) ==> TakeField(p, line) == p
  {
    forall value | line == "event:" + value
      ensures line[6..] == value
    {
    }
    forall value | line == "data:" + value
      ensures line[5..] == value && line[0] == 'd'
    {
    }
    if "event:" <= line {
      assert line == "event:" + line[6..];
    } else if "data:" <= line {
      assert line == "data:" + line[5..];
    }
  }

  /** A line may end in a newline, or in a carriage return and a newline. */
  lemma {:induction false} LineEndings(line: string, rest: string)
    requires '\n' !in line
    ensures Lines(Terminated(line + "\r", rest)) == [line] + Lines(rest)
    ensures (line == "" || line[|line| - 1] != '\r') ==> Lines(Terminated(line, rest)) == [line] + Lines(rest)
  {
    assert (line + "\r")[|line|] == '\r' && (line + "\r")[..|line|] == line;
    LinesCons(line + "\r", rest);
    LinesCons(line, rest);
  }

  predicate IsLine(line: string) {
    '\n' !in line && DropCR(line) == line
  }

  /** The payload of several data lines has exactly those lines. */
  lemma {:induction false} LinesOfJoin(lines: seq<string>)
    requires lines != [] && lines[|lines| - 1] != "" && forall line :: line in lines ==> IsLine(line)
    ensures Lines(Join(lines)) == lines
  {
    assert IsLine(lines[0]);
    if |lines| == 1 {
      LinesLast(lines[0]);
    } else {
      LinesOfJoin(lines[1..]);
      LinesCons(lines[0], Join(lines[1..]));
      Regroup(lines[0], "\n", Join(lines[1..]));
      assert lines == [lines[0]] + lines[1..];
    }
  }
}
