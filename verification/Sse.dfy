/** Server-sent events: the parser and the encoder every stream of the proxy passes through. */
module Sse {
  import opened Text

  datatype SseEvent = SseEvent(event: Option<string>, data: string)

  const LF: char := '\n'
  const CR: char := '\r'
  const BLANK: string := "\n\n"

  // ---------------------------------------------------------------- line endings

  /** CR LF and a lone CR both become LF. */
  function Normalize(s: string): (t: string)
    ensures CR !in t
  {
    if s == [] then [] else [if s[0] == CR then LF else s[0]] + Normalize(s[Width(s)..])
  }

  /** How many characters the first one stands for: CR LF goes together. */
  function Width(s: string): (w: nat)
    requires s != []
    ensures 1 <= w <= |s|
  {
    if s[0] == CR && |s| > 1 && s[1] == LF then 2 else 1
  }

  method NormalizeLines(input: string) returns (normalized: string)
    ensures normalized == Normalize(input)
  {
    normalized := "";
    var i := 0;
    while i < |input|
      invariant 0 <= i <= |input|
      invariant normalized + Normalize(input[i..]) == Normalize(input)
    {
      var ch := input[i];
      ghost var rest := input[i..];
      ghost var head, tail := if ch == CR then LF else ch, Normalize(rest[Width(rest)..]);
      assert rest[Width(rest)..] == input[i + Width(rest)..];
      assert normalized + ([head] + tail) == normalized + [head] + tail;
      i := i + 1;
      if ch == CR {
        if i < |input| && input[i] == LF {
          i := i + 1;
        }
        normalized := normalized + [LF];
      } else {
        normalized := normalized + [ch];
      }
    }
  }

  // ---------------------------------------------------------------- one block

  /** A field line is `key:value`; every leading space of the value goes. */
  function TrimSpaces(s: string): (t: string)
    ensures |t| <= |s| && t == s[|s| - |t|..]
    ensures t != [] ==> t[0] != ' '
    ensures (s != [] && s[0] != ' ') || s == [] ==> t == s
  {
    if s != [] && s[0] == ' ' then TrimSpaces(s[1..]) else s
  }

  function Key(line: string): string {
    Split(line, ':')[0]
  }

  function Value(line: string): string {
    var key := Key(line);
    TrimSpaces(if |key| < |line| then line[|key| + 1..] else "")
  }

  function Flush(event: Option<string>, data: seq<string>): seq<SseEvent> {
    if data == [] then [] else [SseEvent(event, Join(data, LF))]
  }

  /** The events of the lines of one block, with the event name and data lines read so far. */
  function BlockEvents(lines: seq<string>, event: Option<string>, data: seq<string>): seq<SseEvent> {
    if lines == [] then Flush(event, data)
    else if Key(lines[0]) == "event" then
      Flush(event, data) + BlockEvents(lines[1..], Some(Value(lines[0])), [])
    else if Key(lines[0]) == "data" then
      BlockEvents(lines[1..], event, data + [Value(lines[0])])
    else BlockEvents(lines[1..], event, data)
  }

  /** `str::lines`: LF or CR LF ends a line, and a final line ending opens no further line. */
  function Lines(s: string): seq<string> {
    LinesOf(Split(s, LF))
  }

  function LinesOf(parts: seq<string>): seq<string>
    requires |parts| > 0
  {
    if |parts| == 1 then (if parts[0] == "" then [] else parts)
    else [if EndsWith(parts[0], [CR]) then parts[0][..|parts[0]| - 1] else parts[0]] + LinesOf(parts[1..])
  }

  method ParseBlock(block: string) returns (events: seq<SseEvent>)
    ensures events == BlockEvents(Lines(block), None, [])
  {
    hide Value, Flush;
    var event: Option<string> := None;
    var dataLines: seq<string> := [];
    events := [];
    var lines := Lines(block);
    for i := 0 to |lines|
      invariant events + BlockEvents(lines[i..], event, dataLines) == BlockEvents(lines, None, [])
    {
      var raw := lines[i];
      assert lines[i..][0] == raw && lines[i..][1..] == lines[i + 1..];
      if raw == "" || raw[0] == ':' {
        continue;
      }
      var value := Value(raw);
      match Key(raw) {
        case "event" =>
          events := events + Flush(event, dataLines);
          dataLines := [];
          event := Some(value);
        case "data" =>
          dataLines := dataLines + [value];
        case _ =>
      }
    }
    events := events + Flush(event, dataLines);
  }

  // ---------------------------------------------------------------- a whole stream

  /** The events of a list of lines: an empty line closes the block read so far. */
  function SegmentEvents(segments: seq<string>, block: seq<string>): seq<SseEvent> {
    if segments == [] then BlockEvents(block, None, [])
    else if segments[0] == "" then BlockEvents(block, None, []) + SegmentEvents(segments[1..], [])
    else SegmentEvents(segments[1..], block + [segments[0]])
  }

  function Parse(input: string): seq<SseEvent> {
    SegmentEvents(Split(Normalize(input), LF), [])
  }

  /** A line the parser may keep in its block: not empty, and holding no line ending. */
  predicate BlockLine(line: string) {
    line != "" && LF !in line && CR !in line
  }

  /** The block is kept as text and split again later; that loses nothing. */
  lemma {:induction false} LinesOfBlock(lines: seq<string>)
    requires forall i :: 0 <= i < |lines| ==> BlockLine(lines[i])
    ensures Lines(Join(lines, LF)) == lines
    ensures Join(lines, LF) == "" <==> lines == []
  {
    if lines != [] {
      SplitJoin(lines, LF);
      LinesOfKeeps(lines);
    }
  }

  lemma {:induction false} LinesOfKeeps(lines: seq<string>)
    requires |lines| > 0
    requires forall i :: 0 <= i < |lines| ==> BlockLine(lines[i])
    ensures LinesOf(lines) == lines
  {
    var last := |lines[0]| - 1;
    assert lines[0][last] == lines[0][last..][0];
    if |lines| > 1 {
      LinesOfKeeps(lines[1..]);
      assert lines == [lines[0]] + lines[1..];
    }
  }

  method ParseSseEvents(input: string) returns (events: seq<SseEvent>)
    ensures events == Parse(input)
  {
    var normalized := NormalizeLines(input);
    events := [];
    var block := "";
    ghost var lines: seq<string> := [];
    var segments := Split(normalized, LF);
    SplitKeepsOut(normalized, LF, CR);
    for i := 0 to |segments|
      invariant forall k :: 0 <= k < |lines| ==> BlockLine(lines[k])
      invariant block == Join(lines, LF)
      invariant events + SegmentEvents(segments[i..], lines) == Parse(input)
    {
      var segment := segments[i];
      assert segments[i..][0] == segment && segments[i..][1..] == segments[i + 1..];
      LinesOfBlock(lines);
      if segment == "" {
        var more := ParseBlock(block);
        events := events + more;
        block, lines := "", [];
        continue;
      }
      if block != "" {
        JoinPush(lines, segment, LF);
        block := block + [LF];
      }
      block := block + segment;
      lines := lines + [segment];
    }
    LinesOfBlock(lines);
    if block != "" {
      var more := ParseBlock(block);
      events := events + more;
    }
  }

  // ---------------------------------------------------------------- parsing in pieces

  lemma {:induction false} NormalizeAppend(a: string, b: string)
    requires a == [] || a[|a| - 1] != CR
    ensures Normalize(a + b) == Normalize(a) + Normalize(b)
  {
    if a == [] {
      assert a + b == b;
    } else {
      var width := Width(a);
      assert Width(a + b) == width;
      assert (a + b)[width..] == a[width..] + b;
      NormalizeAppend(a[width..], b);
      var head, tail := if a[0] == CR then LF else a[0], Normalize(a[width..]);
      assert [head] + (tail + Normalize(b)) == ([head] + tail) + Normalize(b);
    }
  }

  /** Text ending in a blank line still does after normalisation. */
  lemma {:induction false} NormalizeEndsBlank(p: string)
    ensures EndsWith(Normalize(p + BLANK), BLANK)
    decreases |p|
  {
    var a := p + BLANK;
    if |p| == 0 {
      assert a[1..] == "\n" && a[1..][1..] == "";
      assert Normalize("\n") == "\n";
      assert Normalize(a) == [LF] + Normalize(a[1..]);
    } else if p == [CR] {
      assert a[2..] == "\n" && a[2..][1..] == "";
      assert Normalize("\n") == "\n";
      assert Normalize(a) == [LF] + Normalize(a[2..]);
    } else {
      var width := Width(a);
      assert a[width..] == p[width..] + BLANK;
      NormalizeEndsBlank(p[width..]);
      assert Normalize(a)[1..] == Normalize(a[width..]);
    }
  }

  /** An empty line drops the block, so what follows is read on its own. */
  lemma {:induction false} SegmentEventsAppend(x: seq<string>, y: seq<string>, block: seq<string>)
    ensures SegmentEvents(x + [""] + y, block) == SegmentEvents(x + [""], block) + SegmentEvents(y, [])
  {
    if x == [] {
      assert (x + [""] + y)[1..] == y;
      assert (x + [""])[1..] == [];
      assert BlockEvents([], None, []) == [];
    } else {
      assert (x + [""] + y)[1..] == x[1..] + [""] + y;
      assert (x + [""])[1..] == x[1..] + [""];
      SegmentEventsAppend(x[1..], y, if x[0] == "" then [] else block + [x[0]]);
    }
  }

  /** Parsing distributes over a blank line, whatever line endings surround it. */
  lemma {:induction false} ParseAppend(a: string, b: string)
    requires EndsWith(a, BLANK)
    ensures Parse(a + b) == Parse(a) + Parse(b)
  {
    hide Normalize, SegmentEvents, Split;
    var p := a[..|a| - 2];
    assert a == p + BLANK;
    assert a[|a| - 1] == a[|a| - 2..][1];
    NormalizeEndsBlank(p);
    NormalizeAppend(a, b);
    var na, nb := Normalize(a), Normalize(b);
    var q := na[..|na| - 2];
    assert na == q + [LF] + [LF];
    SplitLine(q);
    SplitLine(q + [LF]);
    SplitAppend(q + [LF], LF, nb);
    var parts := Split(q, LF);
    SegmentEventsAppend(parts, [""], []);
    SegmentEventsAppend(parts, Split(nb, LF), []);
    assert na + nb == q + [LF] + [LF] + nb;
    NothingInSegment();
  }

  lemma NothingInSegment()
    ensures SegmentEvents([""], []) == []
  {
    assert BlockEvents([], None, []) == [];
    assert [""][1..] == [];
    assert SegmentEvents([], []) == [];
  }

  lemma SplitLine(t: string)
    ensures Split(t + [LF], LF) == Split(t, LF) + [""]
  {
    SplitAppend(t, LF, "");
    assert t + [LF] + "" == t + [LF];
    assert Split("", LF) == [""];
  }

  // ---------------------------------------------------------------- encoding

  function Terminated(lines: seq<string>): string {
    if lines == [] then "" else lines[0] + [LF] + Terminated(lines[1..])
  }

  function DataLines(parts: seq<string>): seq<string> {
    if parts == [] then [] else ["data: " + parts[0]] + DataLines(parts[1..])
  }

  function FieldLines(e: SseEvent): seq<string> {
    (if e.event.Some? then ["event: " + e.event.value] else []) + DataLines(Split(e.data, LF))
  }

  function Encode(e: SseEvent): string {
    Terminated(FieldLines(e)) + [LF]
  }

  function EncodeAll(es: seq<SseEvent>): string {
    if es == [] then "" else Encode(es[0]) + EncodeAll(es[1..])
  }

  lemma {:induction false} TerminatedAppend(x: seq<string>, y: seq<string>)
    ensures Terminated(x + y) == Terminated(x) + Terminated(y)
  {
    if x == [] {
      assert x + y == y;
    } else {
      assert (x + y)[1..] == x[1..] + y;
      TerminatedAppend(x[1..], y);
    }
  }

  method EncodeSseEvent(event: Option<string>, data: string) returns (out: string)
    ensures out == Encode(SseEvent(event, data))
  {
    out := "";
    ghost var head: seq<string> := [];
    if event.Some? {
      out := out + "event: ";
      out := out + event.value;
      out := out + [LF];
      head := ["event: " + event.value];
      assert Terminated(head) == out;
    }
    var lines := Split(data, LF);
    for i := 0 to |lines|
      invariant out + Terminated(DataLines(lines[i..])) == Terminated(head) + Terminated(DataLines(lines))
    {
      assert lines[i..][0] == lines[i] && lines[i..][1..] == lines[i + 1..];
      ghost var rest := DataLines(lines[i + 1..]);
      assert (["data: " + lines[i]] + rest)[1..] == rest;
      out := out + "data: ";
      out := out + lines[i];
      out := out + [LF];
    }
    TerminatedAppend(head, DataLines(lines));
    out := out + [LF];
  }

  // ---------------------------------------------------------------- round trip

  /** What survives the wire: no CR, no LF in a name, no leading space in a name or a data line. */
  ghost predicate WireSafe(e: SseEvent) {
    && (e.event.Some? ==> LF !in e.event.value && CR !in e.event.value && !LeadingSpace(e.event.value))
    && CR !in e.data
    && forall i :: 0 <= i < |Split(e.data, LF)| ==> !LeadingSpace(Split(e.data, LF)[i])
  }

  predicate LeadingSpace(s: string) {
    s != [] && s[0] == ' '
  }

  predicate SafePart(s: string) {
    LF !in s && CR !in s && !LeadingSpace(s)
  }

  lemma ValueIsSafe(line: string)
    requires LF !in line && CR !in line
    ensures SafePart(Value(line))
  {
    var key := Key(line);
    var raw := if |key| < |line| then line[|key| + 1..] else "";
    assert forall c :: c in raw ==> c in line;
    assert forall c :: c in TrimSpaces(raw) ==> c in raw;
  }

  lemma FlushIsSafe(event: Option<string>, data: seq<string>)
    requires event.Some? ==> SafePart(event.value)
    requires forall i :: 0 <= i < |data| ==> SafePart(data[i])
    ensures forall i :: 0 <= i < |Flush(event, data)| ==> WireSafe(Flush(event, data)[i])
  {
    if data != [] {
      SplitJoin(data, LF);
      JoinKeepsOut(data, LF, CR);
    }
  }

  lemma {:induction false} BlockEventsAreSafe(lines: seq<string>, event: Option<string>, data: seq<string>)
    requires forall i :: 0 <= i < |lines| ==> LF !in lines[i] && CR !in lines[i]
    requires event.Some? ==> SafePart(event.value)
    requires forall i :: 0 <= i < |data| ==> SafePart(data[i])
    ensures forall i :: 0 <= i < |BlockEvents(lines, event, data)| ==> WireSafe(BlockEvents(lines, event, data)[i])
  {
    hide Value, Flush, WireSafe, SafePart, Key;
    FlushIsSafe(event, data);
    if lines != [] {
      ValueIsSafe(lines[0]);
      if Key(lines[0]) == "event" {
        BlockEventsAreSafe(lines[1..], Some(Value(lines[0])), []);
      } else if Key(lines[0]) == "data" {
        BlockEventsAreSafe(lines[1..], event, data + [Value(lines[0])]);
      } else {
        BlockEventsAreSafe(lines[1..], event, data);
      }
    }
  }

  lemma {:induction false} SegmentEventsAreSafe(segments: seq<string>, block: seq<string>)
    requires forall i :: 0 <= i < |segments| ==> LF !in segments[i] && CR !in segments[i]
    requires forall i :: 0 <= i < |block| ==> LF !in block[i] && CR !in block[i]
    ensures forall i :: 0 <= i < |SegmentEvents(segments, block)| ==> WireSafe(SegmentEvents(segments, block)[i])
  {
    BlockEventsAreSafe(block, None, []);
    if segments != [] {
      SegmentEventsAreSafe(segments[1..], []);
      SegmentEventsAreSafe(segments[1..], block + [segments[0]]);
    }
  }

  /** Whatever the input, every parsed event can be written back. */
  lemma ParsedIsWireSafe(input: string)
    ensures forall i :: 0 <= i < |Parse(input)| ==> WireSafe(Parse(input)[i])
  {
    SplitKeepsOut(Normalize(input), LF, CR);
    SegmentEventsAreSafe(Split(Normalize(input), LF), []);
  }

  lemma {:induction false} NormalizeClean(s: string)
    requires CR !in s
    ensures Normalize(s) == s
  {
    if s != [] {
      NormalizeClean(s[1..]);
      assert s == [s[0]] + s[1..];
    }
  }

  lemma {:induction false} SplitTerminated(lines: seq<string>, tail: string)
    requires forall i :: 0 <= i < |lines| ==> LF !in lines[i]
    ensures Split(Terminated(lines) + tail, LF) == lines + Split(tail, LF)
  {
    if lines == [] {
      assert Terminated(lines) + tail == tail;
    } else {
      SplitTerminated(lines[1..], tail);
      SplitNone(lines[0], LF);
      SplitAppend(lines[0], LF, Terminated(lines[1..]) + tail);
      assert Terminated(lines) + tail == lines[0] + [LF] + (Terminated(lines[1..]) + tail);
    }
  }

  lemma {:induction false} SegmentEventsOfBlock(lines: seq<string>, block: seq<string>)
    requires forall i :: 0 <= i < |lines| ==> lines[i] != ""
    ensures SegmentEvents(lines + ["", ""], block) == BlockEvents(block + lines, None, [])
  {
    if lines == [] {
      assert (lines + ["", ""])[1..] == [""];
      assert [""][1..] == [];
      assert BlockEvents([], None, []) == [];
      assert SegmentEvents([], []) == [];
      assert SegmentEvents([""], []) == [];
      assert block + lines == block;
    } else {
      assert (lines + ["", ""])[1..] == lines[1..] + ["", ""];
      SegmentEventsOfBlock(lines[1..], block + [lines[0]]);
      assert block + [lines[0]] + lines[1..] == block + lines;
    }
  }

  lemma {:induction false} DataLinesShape(parts: seq<string>)
    requires forall i :: 0 <= i < |parts| ==> LF !in parts[i]
    ensures |DataLines(parts)| == |parts|
    ensures forall i :: 0 <= i < |parts| ==> DataLines(parts)[i] == "data: " + parts[i]
    ensures forall i :: 0 <= i < |parts| ==> LF !in DataLines(parts)[i] && DataLines(parts)[i] != ""
  {
    if parts != [] {
      DataLinesShape(parts[1..]);
    }
  }

  /** A field line written as `key: value` reads back as that key and value. */
  lemma ReadField(key: string, value: string)
    requires ':' !in key && !LeadingSpace(value)
    ensures Key(key + ": " + value) == key && Value(key + ": " + value) == value
  {
    var line := key + ": " + value;
    SplitNone(key, ':');
    SplitAppend(key, ':', " " + value);
    assert line == key + [':'] + (" " + value);
    assert line[|key| + 1..] == " " + value;
    assert (" " + value)[1..] == value;
  }

  lemma {:induction false} BlockEventsOfData(parts: seq<string>, event: Option<string>, data: seq<string>)
    requires forall i :: 0 <= i < |parts| ==> !LeadingSpace(parts[i])
    ensures BlockEvents(DataLines(parts), event, data) == Flush(event, data + parts)
  {
    hide Key, Value, Flush;
    if parts == [] {
      assert data + parts == data;
    } else {
      ReadField("data", parts[0]);
      assert "data: " + parts[0] == "data" + ": " + parts[0];
      var lines := DataLines(parts);
      assert lines[0] == "data: " + parts[0] && lines[1..] == DataLines(parts[1..]);
      BlockEventsOfData(parts[1..], event, data + [parts[0]]);
      assert data + [parts[0]] + parts[1..] == data + parts;
    }
  }

  lemma {:induction false} CleanTerminated(lines: seq<string>)
    requires forall i :: 0 <= i < |lines| ==> CR !in lines[i]
    ensures CR !in Terminated(lines)
  {
    if lines != [] {
      CleanTerminated(lines[1..]);
    }
  }

  lemma EncodedEndsBlank(e: SseEvent)
    ensures EndsWith(Encode(e), BLANK)
  {
    hide Split;
    var lines := FieldLines(e);
    var parts := Split(e.data, LF);
    DataLinesShape(parts);
    var last := lines[|lines| - 1];
    assert lines == lines[..|lines| - 1] + [last];
    TerminatedAppend(lines[..|lines| - 1], [last]);
    assert Terminated([last]) == last + [LF];
  }

  /** The encoder writes its field lines, then two empty ones. */
  lemma EncodedLines(e: SseEvent)
    requires WireSafe(e)
    ensures Split(Normalize(Encode(e)), LF) == FieldLines(e) + ["", ""]
    ensures forall i :: 0 <= i < |FieldLines(e)| ==> FieldLines(e)[i] != ""
  {
    var parts := Split(e.data, LF);
    var lines := FieldLines(e);
    DataLinesShape(parts);
    SplitKeepsOut(e.data, LF, CR);
    CleanTerminated(lines);
    NormalizeClean(Encode(e));
    SplitTerminated(lines, [LF]);
    SplitAppend("", LF, "");
    assert "" + [LF] + "" == [LF];
  }

  lemma RoundTripOne(e: SseEvent)
    requires WireSafe(e)
    ensures Parse(Encode(e)) == [e]
  {
    hide TrimSpaces, Key, Width;
    EncodedLines(e);
    var parts := Split(e.data, LF);
    var lines := FieldLines(e);
    SegmentEventsOfBlock(lines, []);
    assert [] + lines == lines;
    JoinSplit(e.data, LF);
    assert [] + parts == parts;
    BlockEventsOfData(parts, e.event, []);
    if e.event.Some? {
      ReadField("event", e.event.value);
      assert "event: " + e.event.value == "event" + ": " + e.event.value;
      assert lines[0] == "event: " + e.event.value && lines[1..] == DataLines(parts);
    } else {
      assert lines == DataLines(parts);
    }
  }

  lemma {:induction false} RoundTripSafe(es: seq<SseEvent>)
    requires forall i :: 0 <= i < |es| ==> WireSafe(es[i])
    ensures Parse(EncodeAll(es)) == es
  {
    if es == [] {
      assert Normalize("") == "";
      assert Split("", LF) == [""];
      assert [""][1..] == [];
      assert BlockEvents([], None, []) == [];
      assert SegmentEvents([], []) == [];
    } else {
      RoundTripOne(es[0]);
      EncodedEndsBlank(es[0]);
      ParseAppend(Encode(es[0]), EncodeAll(es[1..]));
      RoundTripSafe(es[1..]);
    }
  }

  /** A list of events survives encoding and parsing exactly when each of them is wire-safe. */
  lemma RoundTrip(es: seq<SseEvent>)
    ensures Parse(EncodeAll(es)) == es <==> forall i :: 0 <= i < |es| ==> WireSafe(es[i])
  {
    ParsedIsWireSafe(EncodeAll(es));
    if forall i :: 0 <= i < |es| ==> WireSafe(es[i]) {
      RoundTripSafe(es);
    }
  }

  /** Encoding what was parsed is a normal form: parsing it again changes nothing. */
  lemma ReencodingIsStable(input: string)
    ensures Parse(EncodeAll(Parse(input))) == Parse(input)
  {
    ParsedIsWireSafe(input);
    RoundTripSafe(Parse(input));
  }

  // ---------------------------------------------------------------- text that no blank line ends

  /** A LF behind a CR belongs to it. */
  lemma {:induction false} NormalizeSwallows(p: string)
    ensures Normalize(p + [CR] + [LF]) == Normalize(p + [CR])
    decreases |p|
  {
    var s := p + [CR];
    if p == "" {
      assert (s + [LF])[2..] == "" && s[1..] == "";
    } else {
      var width := Width(s);
      assert width <= |p|;
      assert s[width..] == p[width..] + [CR] && (s + [LF])[width..] == p[width..] + [CR] + [LF];
      assert Width(s + [LF]) == width;
      NormalizeSwallows(p[width..]);
    }
  }

  lemma NormalizeLine(s: string)
    requires s == "" || s[|s| - 1] != CR
    ensures Normalize(s + [LF]) == Normalize(s) + [LF]
  {
    NormalizeAppend(s, [LF]);
    hide Normalize;
    NormalizeClean([LF]);
  }

  /** The end of the text closes the last block as an empty line does. */
  lemma {:induction false} SegmentEventsEnd(segments: seq<string>, block: seq<string>)
    ensures SegmentEvents(segments + [""], block) == SegmentEvents(segments, block)
  {
    hide BlockEvents;
    if segments == [] {
      assert [""][1..] == [];
      NothingInBlock();
    } else {
      assert (segments + [""])[0] == segments[0] && (segments + [""])[1..] == segments[1..] + [""];
      SegmentEventsEnd(segments[1..], if segments[0] == "" then [] else block + [segments[0]]);
    }
  }

  lemma NothingInBlock()
    ensures BlockEvents([], None, []) == []
  {}

  lemma ParseLine(s: string)
    ensures Parse(s + [LF]) == Parse(s)
  {
    hide Normalize, SegmentEvents, Split;
    if s != "" && s[|s| - 1] == CR {
      var p := s[..|s| - 1];
      assert s == p + [CR];
      NormalizeSwallows(p);
    } else {
      NormalizeLine(s);
      SplitLine(Normalize(s));
      SegmentEventsEnd(Split(Normalize(s), LF), []);
    }
  }

  /** The last block needs no blank line behind it: every text is read as if one followed. */
  lemma ParseUnterminated(s: string)
    ensures Parse(s + BLANK) == Parse(s)
  {
    hide Parse;
    assert s + BLANK == s + [LF] + [LF];
    ParseLine(s);
    ParseLine(s + [LF]);
  }

  /** Events written out read back in full when the last line ending, or both of the last two, are cut off. */
  lemma CutOffReadsBack(es: seq<SseEvent>)
    requires es != [] && forall i :: 0 <= i < |es| ==> WireSafe(es[i])
    ensures var text := EncodeAll(es);
      |text| >= 2 && Parse(text[..|text| - 1]) == es && Parse(text[..|text| - 2]) == es
  {
    hide Parse, WireSafe, Encode;
    RoundTripSafe(es);
    EncodedAllEndsBlank(es);
    var text := EncodeAll(es);
    var one, two := text[..|text| - 1], text[..|text| - 2];
    assert text[|text| - 2..] == BLANK;
    assert text == two + BLANK && one == two + [LF];
    ParseUnterminated(two);
    ParseLine(two);
  }

  lemma {:induction false} EncodedAllEndsBlank(es: seq<SseEvent>)
    requires es != []
    ensures EndsWith(EncodeAll(es), BLANK)
  {
    hide Encode;
    EncodedEndsBlank(es[0]);
    if |es| == 1 {
      assert es[1..] == [];
      assert Encode(es[0]) + "" == Encode(es[0]);
    } else {
      EncodedAllEndsBlank(es[1..]);
      var head, tail := Encode(es[0]), EncodeAll(es[1..]);
      assert (head + tail)[|head + tail| - 2..] == tail[|tail| - 2..];
    }
  }

  // ---------------------------------------------------------------- what the lines of a block mean

  lemma KeyMeaning(key: string, rest: string)
    requires ':' !in key
    ensures Key(key) == key && Key(key + [':'] + rest) == key
  {
    hide Split;
    SplitNone(key, ':');
    SplitAppend(key, ':', rest);
  }

  /** The key is what stands before the first colon; all spaces behind the colon are dropped. */
  lemma FieldMeaning(key: string, spaces: string, value: string)
    requires ':' !in key && !LeadingSpace(value) && forall i :: 0 <= i < |spaces| ==> spaces[i] == ' '
    ensures Key(key) == key && Value(key) == ""
    ensures var line := key + [':'] + (spaces + value); Key(line) == key && Value(line) == value
  {
    hide Key, TrimSpaces;
    KeyMeaning(key, spaces + value);
    var line := key + [':'] + (spaces + value);
    assert line[|key| + 1..] == spaces + value;
    SpacesGo(spaces, value);
    assert TrimSpaces("") == "";
  }

  lemma {:induction false} SpacesGo(spaces: string, value: string)
    requires !LeadingSpace(value) && forall i :: 0 <= i < |spaces| ==> spaces[i] == ' '
    ensures TrimSpaces(spaces + value) == value
  {
    if spaces == "" {
      assert spaces + value == value;
    } else {
      assert (spaces + value)[1..] == spaces[1..] + value;
      SpacesGo(spaces[1..], value);
    }
  }

  function DataValues(lines: seq<string>): seq<string> {
    if lines == [] then []
    else (if Key(lines[0]) == "data" then [Value(lines[0])] else []) + DataValues(lines[1..])
  }

  /** Lines with no `event` field among them: one event of all their data, or none without any. */
  lemma {:induction false} BlockOfData(lines: seq<string>, event: Option<string>, data: seq<string>)
    requires forall i :: 0 <= i < |lines| ==> Key(lines[i]) != "event"
    ensures BlockEvents(lines, event, data)
         == if data + DataValues(lines) == [] then [] else [SseEvent(event, Join(data + DataValues(lines), LF))]
  {
    hide Key, Value, Join;
    if lines == [] {
      assert data + [] == data;
    } else if Key(lines[0]) == "data" {
      BlockOfData(lines[1..], event, data + [Value(lines[0])]);
      assert (data + [Value(lines[0])]) + DataValues(lines[1..]) == data + DataValues(lines);
    } else {
      BlockOfData(lines[1..], event, data);
      assert [] + DataValues(lines[1..]) == DataValues(lines[1..]);
    }
  }

  /** An `event` line closes what was read before it, and names what is read behind it. */
  lemma {:induction false} BlockCut(x: seq<string>, line: string, y: seq<string>, event: Option<string>,
                                    data: seq<string>)
    requires Key(line) == "event"
    ensures BlockEvents(x + [line] + y, event, data)
         == BlockEvents(x, event, data) + BlockEvents(y, Some(Value(line)), [])
  {
    hide Key, Value, Flush;
    var all := x + [line] + y;
    if x == [] {
      assert all[0] == line && all[1..] == y;
    } else {
      assert all[0] == x[0] && all[1..] == x[1..] + [line] + y;
      if Key(x[0]) == "event" {
        BlockCut(x[1..], line, y, Some(Value(x[0])), []);
        var first, mid, rest := Flush(event, data), BlockEvents(x[1..], Some(Value(x[0])), []),
                                BlockEvents(y, Some(Value(line)), []);
        assert first + (mid + rest) == (first + mid) + rest;
      } else {
        BlockCut(x[1..], line, y, event, if Key(x[0]) == "data" then data + [Value(x[0])] else data);
      }
    }
  }

  // ---------------------------------------------------------------- what an event looks like

  /** Parts without line endings, each on a data line. */
  function DataText(parts: seq<string>): string {
    if parts == [] then "" else "data: " + parts[0] + "\n" + DataText(parts[1..])
  }

  lemma {:induction false} TerminatedData(parts: seq<string>)
    ensures Terminated(DataLines(parts)) == DataText(parts)
  {
    if parts != [] {
      TerminatedData(parts[1..]);
      assert DataLines(parts)[1..] == DataLines(parts[1..]);
      assert "data: " + parts[0] + [LF] == "data: " + parts[0] + "\n";
    }
  }

  /** An event on the wire: its name, if it has one, on a line of its own, then its data line by line, then an empty
      line. */
  lemma EncodedText(event: Option<string>, parts: seq<string>)
    requires parts != [] && forall i :: 0 <= i < |parts| ==> LF !in parts[i]
    ensures Encode(SseEvent(event, Join(parts, LF)))
         == (if event.Some? then "event: " + event.value + "\n" else "") + DataText(parts) + "\n"
  {
    hide Split, Join, DataLines, Terminated, DataText;
    SplitJoin(parts, LF);
    TerminatedData(parts);
    match event {
      case None =>
        assert [] + DataLines(parts) == DataLines(parts);
        assert "" + DataText(parts) == DataText(parts);
      case Some(name) =>
        TerminatedAppend(["event: " + name], DataLines(parts));
        OneTerminated("event: " + name);
    }
  }

  lemma OneTerminated(line: string)
    ensures Terminated([line]) == line + "\n"
  {
    assert [line][1..] == [];
    assert line + [LF] + "" == line + "\n";
  }
}
