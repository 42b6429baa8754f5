/** The buffered path end to end: a Messages object is written out as a stream, translated, and its terminal response
    picked from the bytes. JSON printing and reading are parameters. */
module Wire {
  import opened Text
  import opened Protocol
  import opened TranslatorSpec
  import opened Chunking
  import opened Terminal
  import opened MessageObjects
  import opened Buffered
  import opened WholeMessage
  import Sse
  import Translator

  /** JSON in both directions: upstream events by `encode` and `decode`, outgoing ones by `write` and `parse`. */
  datatype Codec = Codec(encode: Upstream -> string, decode: Decoder,
                         write: (nat, Body) -> string, parse: string -> Option<Body>)

  /** Serialised JSON stays on one line and starts with no space. */
  predicate OneLine(s: string) {
    Sse.LF !in s && Sse.CR !in s && !Sse.LeadingSpace(s)
  }

  /** These events come back as they were written. */
  predicate Reads(c: Codec, us: seq<Upstream>) {
    forall u :: u in us ==> c.decode(c.encode(u)) == Some(u) && OneLine(c.encode(u))
  }

  predicate Returns(c: Codec, n: nat, body: Body) {
    c.parse(c.write(n, body)) == Some(body) && OneLine(c.write(n, body)) && c.write(n, body) != "[DONE]"
  }

  /** So do the events of these frames. */
  predicate Carries(c: Codec, frames: seq<Frame>) {
    forall f :: f in frames && f.Event? ==> Returns(c, f.sequence, f.body)
  }

  function Where<T(==)>(xs: seq<T>, x: T): (k: nat)
    ensures x in xs ==> k < |xs| && xs[k] == x
  {
    if xs == [] || xs[0] == x then 0 else 1 + Where(xs[1..], x)
  }

  function Numbered<T>(xs: seq<T>, s: string, k: nat): Option<T>
    requires k <= |xs|
    decreases |xs| - k
  {
    if k == |xs| then None else if Digits(k) == s then Some(xs[k]) else Numbered(xs, s, k + 1)
  }

  lemma {:induction false} NumberedAt<T>(xs: seq<T>, k: nat, j: nat)
    requires k <= j < |xs|
    ensures Numbered(xs, Digits(j), k) == Some(xs[j])
    decreases |xs| - k
  {
    if k < j {
      if Digits(k) == Digits(j) {
        DigitsInjective(k, j);
      }
      NumberedAt(xs, k + 1, j);
    }
  }

  function Bodies(frames: seq<Frame>): seq<Body> {
    if frames == [] then [] else (if frames[0].Event? then [frames[0].body] else []) + Bodies(frames[1..])
  }

  lemma {:induction false} BodyIn(frames: seq<Frame>, f: Frame)
    requires f in frames && f.Event?
    ensures f.body in Bodies(frames)
  {
    if f != frames[0] {
      BodyIn(frames[1..], f);
    }
  }

  lemma NumberIsOneLine(k: nat)
    ensures OneLine(Digits(k)) && Digits(k) != "[DONE]"
  {
    assert Digits(k)[0] != '[';
  }

  /** For any events and any frames some codec does: it numbers them. */
  lemma SomeCodec(us: seq<Upstream>, frames: seq<Frame>) returns (c: Codec)
    ensures Reads(c, us) && Carries(c, frames)
  {
    hide Digits, OneLine, Where, Numbered;
    var bodies := Bodies(frames);
    c := Codec(u => Digits(Where(us, u)), s => Numbered(us, s, 0),
               (n, body) => Digits(Where(bodies, body)), s => Numbered(bodies, s, 0));
    forall u | u in us ensures c.decode(c.encode(u)) == Some(u) && OneLine(c.encode(u)) {
      NumberedAt(us, 0, Where(us, u));
      NumberIsOneLine(Where(us, u));
    }
    forall f | f in frames && f.Event? ensures Returns(c, f.sequence, f.body) {
      BodyIn(frames, f);
      NumberedAt(bodies, 0, Where(bodies, f.body));
      NumberIsOneLine(Where(bodies, f.body));
    }
  }

  // ---------------------------------------------------------------- writing the object

  function Name(u: Upstream): string {
    match u
    case MessageStart(_, _) => "message_start"
    case BlockStart(_, _) => "content_block_start"
    case BlockDelta(_, _) => "content_block_delta"
    case BlockStop(_) => "content_block_stop"
    case MessageDelta(_, _) => "message_delta"
    case MessageStop => "message_stop"
    case ErrorEvent(_, _) => "error"
    case Ping => "ping"
    case OtherEvent => ""
  }

  function OnWire(c: Codec, us: seq<Upstream>): seq<Sse.SseEvent> {
    if us == [] then [] else [Sse.SseEvent(Some(Name(us[0])), c.encode(us[0]))] + OnWire(c, us[1..])
  }

  function Written(c: Codec, us: seq<Upstream>): string {
    Sse.EncodeAll(OnWire(c, us))
  }

  lemma {:induction false} WrittenAppend(c: Codec, x: seq<Upstream>, y: seq<Upstream>)
    ensures Written(c, x + y) == Written(c, x) + Written(c, y)
    decreases |x|
  {
    if x == [] {
      assert x + y == y;
    } else {
      assert (x + y)[0] == x[0] && (x + y)[1..] == x[1..] + y;
      WrittenAppend(c, x[1..], y);
      var e := Sse.SseEvent(Some(Name(x[0])), c.encode(x[0]));
      assert OnWire(c, x + y) == [e] + OnWire(c, x[1..] + y);
      assert ([e] + OnWire(c, x[1..]))[1..] == OnWire(c, x[1..]);
      assert ([e] + OnWire(c, x[1..] + y))[1..] == OnWire(c, x[1..] + y);
      assert Sse.Encode(e) + (Written(c, x[1..]) + Written(c, y)) == Sse.Encode(e) + Written(c, x[1..]) + Written(c, y);
    }
  }

  lemma {:induction false} ContentPush(index: nat, content: seq<Content>, block: Content)
    ensures ContentEvents(index, content + [block])
         == ContentEvents(index, content) + BlockEvents(index + |content|, block)
    decreases |content|
  {
    hide BlockEvents;
    if content == [] {
      assert content + [block] == [block] && [block][1..] == [];
      assert BlockEvents(index, block) + [] == [] + BlockEvents(index, block);
    } else {
      assert (content + [block])[0] == content[0] && (content + [block])[1..] == content[1..] + [block];
      ContentPush(index + 1, content[1..], block);
      var first, mid, last := BlockEvents(index, content[0]), ContentEvents(index + 1, content[1..]),
        BlockEvents(index + |content|, block);
      assert first + (mid + last) == (first + mid) + last;
    }
  }

  lemma WrittenOne(c: Codec, u: Upstream)
    ensures Written(c, [u]) == Sse.Encode(Sse.SseEvent(Some(Name(u)), c.encode(u)))
  {
    hide Sse.Encode, Name;
    var e := Sse.SseEvent(Some(Name(u)), c.encode(u));
    assert [u][1..] == [];
    assert OnWire(c, [u]) == [e];
    assert [e][1..] == [];
    assert Sse.EncodeAll([]) == "";
    assert Sse.Encode(e) + "" == Sse.Encode(e);
  }

  method EncodeOne(c: Codec, u: Upstream) returns (bytes: string)
    ensures bytes == Written(c, [u])
  {
    bytes := Sse.EncodeSseEvent(Some(Name(u)), c.encode(u));
    WrittenOne(c, u);
  }

  method EncodeBlock(c: Codec, index: nat, block: Content) returns (bytes: string)
    ensures bytes == Written(c, BlockEvents(index, block))
  {
    bytes := "";
    var more;
    match block {
      case TextContent(text) => bytes := EncodeOne(c, BlockDelta(Some(index), TextPiece(Some(text))));
      case ToolContent(id, name, input) =>
        var start := BlockStart(Some(index), ToolUse(Some(id.GetOr("")), name, None));
        var piece := BlockDelta(Some(index), InputJsonPiece(Some(input)));
        bytes := EncodeOne(c, start);
        more := EncodeOne(c, piece);
        bytes := bytes + more;
        WrittenAppend(c, [start], [piece]);
        assert [start] + [piece] == BlockEvents(index, block);
      case ThinkingContent(thinking) => bytes := EncodeOne(c, BlockDelta(Some(index), ThinkingPiece(Some(thinking))));
      case CompactionContent(summary) =>
        var start := BlockStart(Some(index), CompactionBlock(Some("")));
        bytes := EncodeOne(c, start);
        ghost var said := [start];
        if summary != "" {
          var piece := BlockDelta(Some(index), CompactionPiece(Some(summary)));
          more := EncodeOne(c, piece);
          bytes := bytes + more;
          WrittenAppend(c, said, [piece]);
          said := said + [piece];
        }
        more := EncodeOne(c, BlockStop(Some(index)));
        bytes := bytes + more;
        WrittenAppend(c, said, [BlockStop(Some(index))]);
        assert said + [BlockStop(Some(index))] == BlockEvents(index, block);
      case OtherContent =>
    }
  }

  lemma NoContent()
    ensures ContentEvents(0, []) == []
  {}

  method MessageToSse(c: Codec, m: MessageObject, model: string) returns (bytes: string)
    ensures bytes == Written(c, ObjectEvents(m, model))
  {
    hide Written, ContentEvents, BlockEvents;
    var start := MessageStart(Some(m.model.GetOr(model)), None);
    bytes := EncodeOne(c, start);
    var more;
    NoContent();
    assert [start] == [start] + ContentEvents(0, m.content[..0]);
    for i := 0 to |m.content|
      invariant bytes == Written(c, [start] + ContentEvents(0, m.content[..i]))
    {
      more := EncodeBlock(c, i, m.content[i]);
      bytes := bytes + more;
      WrittenAppend(c, [start] + ContentEvents(0, m.content[..i]), BlockEvents(i, m.content[i]));
      ContentPush(0, m.content[..i], m.content[i]);
      assert m.content[..i] + [m.content[i]] == m.content[..i + 1];
      assert [start] + ContentEvents(0, m.content[..i]) + BlockEvents(i, m.content[i])
          == [start] + ContentEvents(0, m.content[..i + 1]);
    }
    assert m.content[..|m.content|] == m.content;
    ghost var said := [start] + ContentEvents(0, m.content);
    more := EncodeOne(c, Ending(m));
    bytes := bytes + more;
    WrittenAppend(c, said, [Ending(m)]);
    more := EncodeOne(c, MessageStop);
    bytes := bytes + more;
    WrittenAppend(c, said + [Ending(m)], [MessageStop]);
    assert said + [Ending(m)] + [MessageStop] == ObjectEvents(m, model);
  }

  /** Reading the written events back gives the events. */
  lemma WrittenReadsBack(c: Codec, us: seq<Upstream>)
    requires Reads(c, us)
    ensures Sse.Parse(Written(c, us)) == OnWire(c, us) && Decoded(c.decode, OnWire(c, us)) == us
  {
    OnWireSafe(c, us);
    Sse.RoundTripSafe(OnWire(c, us));
  }

  lemma OneIsSafe(u: Upstream, data: string)
    requires OneLine(data)
    ensures Sse.WireSafe(Sse.SseEvent(Some(Name(u)), data))
  {
    SplitNone(data, Sse.LF);
  }

  lemma {:induction false} OnWireSafe(c: Codec, us: seq<Upstream>)
    requires Reads(c, us)
    ensures forall i :: 0 <= i < |OnWire(c, us)| ==> Sse.WireSafe(OnWire(c, us)[i])
    ensures Decoded(c.decode, OnWire(c, us)) == us
  {
    hide Sse.WireSafe, OneLine, Name;
    if us != [] {
      OnWireSafe(c, us[1..]);
      OneIsSafe(us[0], c.encode(us[0]));
      var e := Sse.SseEvent(Some(Name(us[0])), c.encode(us[0]));
      assert OnWire(c, us)[1..] == OnWire(c, us[1..]);
    }
  }

  lemma {:induction false} OnWireAt(c: Codec, us: seq<Upstream>)
    ensures |OnWire(c, us)| == |us|
    ensures forall i :: 0 <= i < |us| ==> OnWire(c, us)[i] == Sse.SseEvent(Some(Name(us[i])), c.encode(us[i]))
  {
    hide Name;
    if us != [] {
      OnWireAt(c, us[1..]);
    }
  }

  /** The kind of a block event, as its name ends. */
  function BlockKind(u: Upstream): string {
    if u.BlockStart? then "start" else if u.BlockDelta? then "delta" else if u.BlockStop? then "stop" else ""
  }

  lemma {:induction false} OnlyBlockEvents(index: nat, content: seq<Content>)
    ensures forall u :: u in ContentEvents(index, content) ==> BlockKind(u) != ""
    decreases |content|
  {
    if content != [] {
      OnlyBlockEvents(index + 1, content[1..]);
    }
  }

  lemma NamesAre(u: Upstream)
    ensures BlockKind(u) != "" ==> Name(u) == "content_block_" + BlockKind(u)
    ensures u.MessageStart? ==> Name(u) == "message_start"
    ensures u.MessageDelta? ==> Name(u) == "message_delta"
    ensures u.MessageStop? ==> Name(u) == "message_stop"
  {}

  lemma ObjectShape(m: MessageObject, model: string)
    ensures var us := ObjectEvents(m, model); var n := |us| - 2;
      && n > 0 && us[0].MessageStart? && us[n].MessageDelta? && us[n + 1].MessageStop?
      && forall i :: 0 < i < n ==> BlockKind(us[i]) != ""
  {
    hide ContentEvents, BlockKind;
    var us, content := ObjectEvents(m, model), ContentEvents(0, m.content);
    OnlyBlockEvents(0, m.content);
    forall i | 0 < i < |us| - 2 ensures BlockKind(us[i]) != "" {
      assert us[i] == content[i - 1] && content[i - 1] in content;
    }
  }

  /** Read back, a written object names its events as every stream does: message_start, block events by their kind,
      message_delta and message_stop; each carries its event. */
  lemma NamesReadBack(c: Codec, m: MessageObject, model: string)
    requires Reads(c, ObjectEvents(m, model))
    ensures var us := ObjectEvents(m, model); var es := Sse.Parse(Written(c, us)); var n := |us| - 2;
      && |es| == |us| && n > 0 && (forall i :: 0 <= i < |us| ==> es[i].data == c.encode(us[i]))
      && es[0].event == Some("message_start")
      && (forall i :: 0 < i < n ==> BlockKind(us[i]) != "" && es[i].event == Some("content_block_" + BlockKind(us[i])))
      && es[n].event == Some("message_delta") && es[n + 1].event == Some("message_stop")
  {
    hide Sse.Parse, Written, OnWire, Name, ObjectEvents, BlockKind, Decoded;
    var us := ObjectEvents(m, model);
    WrittenReadsBack(c, us);
    OnWireAt(c, us);
    ObjectShape(m, model);
    forall i | 0 <= i < |us|
      ensures BlockKind(us[i]) != "" ==> Name(us[i]) == "content_block_" + BlockKind(us[i])
    {
      NamesAre(us[i]);
    }
    NamesAre(us[0]);
    NamesAre(us[|us| - 2]);
    NamesAre(us[|us| - 1]);
  }

  // ---------------------------------------------------------------- picking the terminal response

  function Printed(c: Codec, frame: Frame): string {
    match frame
    case Event(n, body) => c.write(n, body)
    case DoneMark => "[DONE]"
  }

  /** The bytes of outgoing frames. */
  function Emitted(c: Codec, frames: seq<Frame>): string {
    if frames == [] then "" else Sse.Encode(Sse.SseEvent(None, Printed(c, frames[0]))) + Emitted(c, frames[1..])
  }

  /** `split("\n\n")`: the pieces between blank lines, from left to right. */
  function SplitBlank(s: string): (parts: seq<string>)
    ensures |parts| > 0
  {
    if |s| < 2 then [s]
    else if s[..2] == Sse.BLANK then [""] + SplitBlank(s[2..])
    else
      var rest := SplitBlank(s[1..]);
      [[s[0]] + rest[0]] + rest[1..]
  }

  function JoinBlank(parts: seq<string>): string {
    if parts == [] then ""
    else if |parts| == 1 then parts[0]
    else parts[0] + "\n\n" + JoinBlank(parts[1..])
  }

  ghost predicate NoBlank(part: string) {
    forall i: nat :: !BlankAt(part, i)
  }

  /** The pieces hold no blank line, and joined by blank lines they are the text. */
  lemma {:induction false} SplitBlankMeaning(s: string)
    ensures JoinBlank(SplitBlank(s)) == s
    ensures forall i :: 0 <= i < |SplitBlank(s)| ==> NoBlank(SplitBlank(s)[i])
  {
    hide NoBlank, JoinBlank;
    if |s| < 2 {
      OnePiece(s);
    } else if s[..2] == Sse.BLANK {
      var rest := SplitBlank(s[2..]);
      SplitBlankMeaning(s[2..]);
      OnePiece("");
      JoinMore("", rest);
      assert s == s[..2] + s[2..];
    } else {
      var rest := SplitBlank(s[1..]);
      SplitBlankMeaning(s[1..]);
      HeadJoined(s[0], rest);
      assert s == [s[0]] + s[1..];
      HeadHasNone(s, rest);
    }
  }

  lemma OnePiece(s: string)
    requires |s| < 2
    ensures JoinBlank([s]) == s && NoBlank(s)
  {}

  lemma JoinMore(first: string, rest: seq<string>)
    requires rest != []
    ensures JoinBlank([first] + rest) == first + "\n\n" + JoinBlank(rest)
  {
    assert ([first] + rest)[1..] == rest;
  }

  lemma HeadHasNone(s: string, rest: seq<string>)
    requires |s| >= 2 && s[..2] != Sse.BLANK && rest != [] && NoBlank(rest[0]) && JoinBlank(rest) == s[1..]
    ensures NoBlank([s[0]] + rest[0])
  {
    hide JoinBlank;
    JoinStarts(rest);
    var head := [s[0]] + rest[0];
    forall i: nat ensures !BlankAt(head, i) {
      if i == 0 {
        assert s[..2] == [s[0], s[1]];
        assert rest[0] != "" ==> head[1] == s[1];
      } else {
        assert !BlankAt(rest[0], i - 1);
      }
    }
  }

  lemma HeadJoined(first: char, rest: seq<string>)
    requires rest != []
    ensures JoinBlank([[first] + rest[0]] + rest[1..]) == [first] + JoinBlank(rest)
  {
    var all := [[first] + rest[0]] + rest[1..];
    assert all[1..] == rest[1..];
    if |rest| > 1 {
      assert [first] + (rest[0] + "\n\n" + JoinBlank(rest[1..])) == [first] + rest[0] + "\n\n" + JoinBlank(rest[1..]);
    }
  }

  lemma JoinStarts(parts: seq<string>)
    requires parts != []
    ensures parts[0] != "" ==> JoinBlank(parts) != "" && JoinBlank(parts)[0] == parts[0][0]
  {}

  /** The first line that carries data. */
  function DataOf(lines: seq<string>): Option<string> {
    if lines == [] then None
    else match StripPrefix(lines[0], "data: ")
      case Some(data) => Some(data)
      case None => DataOf(lines[1..])
  }

  function TerminalOf(c: Codec, block: string): Option<Body> {
    match DataOf(Sse.Lines(block))
    case None => None
    case Some(data) =>
      if data == "[DONE]" then None
      else match c.parse(data)
        case Some(body) => if body.Terminal() then Some(body) else None
        case None => None
  }

  function LastTerminal(c: Codec, blocks: seq<string>, last: Option<Body>): Option<Body>
    decreases |blocks|
  {
    if blocks == [] then last
    else LastTerminal(c, blocks[1..], if TerminalOf(c, blocks[0]).Some? then TerminalOf(c, blocks[0]) else last)
  }

  method TerminalResponse(c: Codec, bytes: string) returns (last: Option<Body>)
    ensures last == LastTerminal(c, SplitBlank(bytes), None)
  {
    last := None;
    var blocks := SplitBlank(bytes);
    for i := 0 to |blocks|
      invariant LastTerminal(c, blocks[i..], last) == LastTerminal(c, blocks, None)
    {
      assert blocks[i..][0] == blocks[i] && blocks[i..][1..] == blocks[i + 1..];
      var lines := Sse.Lines(blocks[i]);
      var data: Option<string> := None;
      for j := 0 to |lines|
        invariant data.None? && DataOf(lines[j..]) == DataOf(lines)
      {
        assert lines[j..][0] == lines[j] && lines[j..][1..] == lines[j + 1..];
        data := StripPrefix(lines[j], "data: ");
        if data.Some? {
          break;
        }
      }
      if data.None? || data.value == "[DONE]" {
        continue;
      }
      var event := c.parse(data.value);
      if event.None? {
        continue;
      }
      if event.value.Terminal() {
        last := event;
      }
    }
  }

  /** The last terminal event among frames. */
  function LastOf(frames: seq<Frame>, last: Option<Body>): Option<Body>
    decreases |frames|
  {
    if frames == [] then last
    else LastOf(frames[1..], if frames[0].Event? && frames[0].body.Terminal() then Some(frames[0].body) else last)
  }

  lemma {:induction false} SplitBlankFirst(line: string, rest: string)
    requires Sse.LF !in line
    ensures SplitBlank(line + Sse.BLANK + rest) == [line] + SplitBlank(rest)
  {
    var s := line + Sse.BLANK + rest;
    if line == "" {
      assert s[..2] == Sse.BLANK && s[2..] == rest;
    } else {
      assert s[0] == line[0] && s[1..] == line[1..] + Sse.BLANK + rest;
      assert s[..2] != Sse.BLANK by {
        assert s[..2][0] == line[0];
      }
      SplitBlankFirst(line[1..], rest);
      var parts := SplitBlank(s[1..]);
      assert parts[0] == line[1..] && parts[1..] == SplitBlank(rest);
      assert [line[0]] + line[1..] == line;
    }
  }

  lemma EncodedFrame(data: string)
    requires OneLine(data)
    ensures Sse.Encode(Sse.SseEvent(None, data)) == "data: " + data + Sse.BLANK
  {
    SplitNone(data, Sse.LF);
    assert [data][1..] == [];
    assert Sse.DataLines([data]) == ["data: " + data];
    assert ["data: " + data][1..] == [];
    assert Sse.Terminated(["data: " + data]) == "data: " + data + [Sse.LF];
    assert "data: " + data + [Sse.LF] + [Sse.LF] == "data: " + data + Sse.BLANK;
  }

  lemma DataOfFrame(data: string)
    requires OneLine(data)
    ensures DataOf(Sse.Lines("data: " + data)) == Some(data)
  {
    var line := "data: " + data;
    SplitNone(line, Sse.LF);
    assert StartsWith(line, "data: ");
  }

  /** Reading emitted frames picks their last terminal event. */
  lemma {:induction false} PicksLast(c: Codec, frames: seq<Frame>, last: Option<Body>)
    requires Carries(c, frames)
    ensures LastTerminal(c, SplitBlank(Emitted(c, frames)), last) == LastOf(frames, last)
    decreases |frames|
  {
    hide SplitBlank, Sse.Encode, DataOf, Sse.Lines;
    if frames == [] {
      NoBlocks(c, last);
    } else {
      var data, rest := Printed(c, frames[0]), Emitted(c, frames[1..]);
      assert OneLine(data);
      EncodedFrame(data);
      SplitBlankFirst("data: " + data, rest);
      DataOfFrame(data);
      var blocks := SplitBlank(Emitted(c, frames));
      assert blocks[1..] == SplitBlank(rest);
      PicksLast(c, frames[1..], if frames[0].Event? && frames[0].body.Terminal() then Some(frames[0].body) else last);
    }
  }

  lemma NoBlocks(c: Codec, last: Option<Body>)
    ensures LastTerminal(c, SplitBlank(""), last) == last
  {
    assert Split("", Sse.LF) == [""];
    assert SplitBlank("")[1..] == [];
    assert TerminalOf(c, "").None?;
  }

  lemma {:induction false} LastOfAppend(x: seq<Frame>, y: seq<Frame>, last: Option<Body>)
    ensures LastOf(x + y, last) == LastOf(y, LastOf(x, last))
    decreases |x|
  {
    if x == [] {
      assert x + y == y;
    } else {
      assert (x + y)[0] == x[0] && (x + y)[1..] == x[1..] + y;
      LastOfAppend(x[1..], y, if x[0].Event? && x[0].body.Terminal() then Some(x[0].body) else last);
    }
  }

  lemma LastOfConcluded(out: seq<Frame>, response: Response)
    requires Concludes(out, response)
    ensures LastOf(out, None) == Some(out[|out| - 2].body)
  {
    var front, back := out[..|out| - 2], out[|out| - 2..];
    assert out == front + back;
    LastOfAppend(front, back, None);
    assert back[0] == out[|out| - 2] && back[1..] == [DoneMark];
    assert [DoneMark][1..] == [];
  }

  // ---------------------------------------------------------------- end to end

  function ResponseOf(body: Body): Response
    requires body.Terminal()
  {
    body.response
  }

  /** What a fresh translator answers to the whole stream at once, and then to its end. */
  lemma PushAndFinish(c: Codec, id: string, model: string, m: MessageObject)
    requires Reads(c, ObjectEvents(m, model))
    ensures var st, whole := Fresh(id, model), "" + Written(c, ObjectEvents(m, model));
      var pushed := RenderAll(c.decode, st, Sse.Parse(whole[..Cut(whole)]));
      var rest := RenderAll(c.decode, pushed.state, Sse.Parse(whole[Cut(whole)..]));
      pushed.out + (rest.out + Wrap(rest.state).out) == Run(st, ObjectEvents(m, model)).out
  {
    hide RenderAll, Run, Fresh, ObjectEvents, Sse.Parse, Written;
    var st, events := Fresh(id, model), ObjectEvents(m, model);
    var bytes := Written(c, events);
    assert "" + bytes == bytes;
    assert [bytes][1..] == [];
    assert Concat([bytes]) == bytes + "" == bytes;
    ChunkingIndependence(c.decode, st, [bytes]);
    WrittenReadsBack(c, events);
    RenderIsRun(c.decode, st, Sse.Parse(bytes));
    var pushed := RenderAll(c.decode, st, Sse.Parse(bytes[..Cut(bytes)]));
    var rest := RenderAll(c.decode, pushed.state, Sse.Parse(bytes[Cut(bytes)..]));
    assert pushed.out + [] == pushed.out;
    assert pushed.out + rest.out + Wrap(rest.state).out == pushed.out + (rest.out + Wrap(rest.state).out);
    RunIsClosed(id, model, m);
    assert Run(st, events).out + [] == Run(st, events).out;
  }

  lemma StepOfClosed(st: State)
    ensures st.Closed() ==> Step(st, MessageStop) == Silent(st)
  {}

  lemma RunIsClosed(id: string, model: string, m: MessageObject)
    ensures Run(Fresh(id, model), ObjectEvents(m, model)).state.Closed()
  {
    hide Run, Fresh, Step, ContentEvents;
    var st := Fresh(id, model);
    var before := [MessageStart(Some(m.model.GetOr(model)), None)] + (ContentEvents(0, m.content) + [Ending(m)]);
    assert ObjectEvents(m, model) == before + [MessageStop];
    RunAppend(st, before, [MessageStop]);
    RunOne(Run(st, before).state, MessageStop);
    if !Run(st, before).state.Closed() {
      StepShape(Run(st, before).state, MessageStop);
    } else {
      StepOfClosed(Run(st, before).state);
    }
  }

  /** A Messages object through the whole buffered path: one response with its model, status and usage, whose output is
      what the object means exactly when calls that end up with the same id do no harm. The code's fallback for a
      stream without a terminal response is never reached. */
  method MessagesJsonToResponses(c: Codec, m: MessageObject, id: string, model: string) returns (response: Response)
    requires Reads(c, ObjectEvents(m, model)) && Carries(c, Run(Fresh(id, model), ObjectEvents(m, model)).out)
    ensures response == Response(id, m.model.GetOr(model), EndStatus(m.stopReason), response.output,
                                 UsageTotals(m.usage.GetOr(Usage(None, None, None, None))))
    ensures response.output == Meaning(id, m.content) <==> Harmless(id, m.content)
  {
    hide RenderAll, Run, Fresh, ObjectEvents, Sse.Parse, Written, Wrap, HarmlessPlan, Meaning, LastTerminal;
    hide LastOf, SplitBlank, Reads, Carries, Emitted;
    var translator := new Translator.AnthropicToResponses(c.decode, id, model);
    var sse := MessageToSse(c, m, model);
    var pushed := translator.Push(sse);
    var finished := translator.Finish();
    PushAndFinish(c, id, model, m);
    var bytes := Emitted(c, pushed + finished);
    var last := TerminalResponse(c, bytes);
    ghost var output := ObjectKeepsMeaning(id, model, m);
    PicksLast(c, pushed + finished, None);
    LastOfConcluded(pushed + finished, Response(id, m.model.GetOr(model), EndStatus(m.stopReason), output,
                                                UsageTotals(m.usage.GetOr(Usage(None, None, None, None)))));
    if last.None? {
      assert false;
    } else {
      response := ResponseOf(last.value);
    }
  }
}
