// Streams other than the SDK's own writer sends - any mixture of event lines,
// bare data lines and line endings - and what both readers make of streams that
// are too long, broken or closed by an end marker.
module AgentFrames {
  import opened AgentStream
  import opened Sequences
  import opened Wrappers

  // ---- any framing ----

  // An event or a heartbeat as some producer writes it: with or without a line
  // that names a kind, and with either line ending.
  datatype Frame = Frame(input: Input, kind: Option<string>, cr: bool)

  function Ended(line: string, cr: bool): string {
    line + if cr then "\r" else ""
  }

  function DataText(data: string, cr: bool): string {
    Ended("data: " + data, cr) + ("\n" + (Ended("", cr) + "\n"))
  }

  function FrameText(codec: Codec, f: Frame): string {
    match f.input
    case Next(e) =>
      (match codec.encode(FieldsOf(e))
       case None => ""
       case Some(data) =>
         (if f.kind.Some? then Ended("event: " + f.kind.value, f.cr) + "\n" else "") + DataText(data, f.cr))
    case Tick => Ended(": heartbeat", f.cr) + ("\n" + (Ended("", f.cr) + "\n"))
    case Cancelled => ""
  }

  function FramesText(codec: Codec, frames: seq<Frame>): string {
    if frames == [] then "" else FrameText(codec, frames[0]) + FramesText(codec, frames[1..])
  }

  // What a reader should make of it: with a kind, what the data means as that
  // kind; without, what the event is taken for by its fields.
  function TakenOf(codec: Codec, f: Frame): seq<Event> {
    if !f.input.Next? || codec.encode(FieldsOf(f.input.event)).None? then []
    else if f.kind.None? || f.kind.value == "" then Optional(TakenFor(f.input.event))
    else Optional(ParseStreamEvent(codec, f.kind.value, codec.encode(FieldsOf(f.input.event)).value))
  }

  function AllTaken(codec: Codec, frames: seq<Frame>): seq<Event> {
    if frames == [] then [] else TakenOf(codec, frames[0]) + AllTaken(codec, frames[1..])
  }

  predicate GoodKind(kind: string) {
    '\n' !in kind && '\r' !in kind && |kind| < 1000
  }

  predicate GoodFrame(codec: Codec, f: Frame) {
    && (f.kind.Some? ==> GoodKind(f.kind.value))
    && (f.input.Next? && codec.encode(FieldsOf(f.input.event)).Some? ==>
          |Ended("data: " + codec.encode(FieldsOf(f.input.event)).value, f.cr)| <= LINE_LIMIT)
  }

  lemma EndIsDropped(line: string, cr: bool)
    requires '\n' !in line && (cr || line == "" || line[|line| - 1] != '\r')
    ensures DropCR(Ended(line, cr)) == line && '\n' !in Ended(line, cr)
  {}

  lemma ReadsEnded(codec: Codec, line: string, cr: bool, rest: string, kind: string)
    requires '\n' !in line && (cr || line == "" || line[|line| - 1] != '\r') && |Ended(line, cr)| <= LINE_LIMIT
    ensures var r, h := Read(codec, Ended(line, cr) + ("\n" + rest), kind), OnLine(codec, line, kind);
      && (h.Nothing? ==> r == Read(codec, rest, h.kind))
      && (h.Data? ==> r == Prepend(Optional(h.event), Read(codec, rest, "")))
      && (h == EndMarker ==> r == Reading([], Marker))
  {
    EndIsDropped(line, cr);
    ReadsLine(codec, Ended(line, cr), rest, kind);
  }

  lemma ReadsDataText(codec: Codec, data: string, cr: bool, rest: string, kind: string)
    requires data != "" && data[0] == '{' && data[|data| - 1] == '}' && '\n' !in data
    requires |Ended("data: " + data, cr)| <= LINE_LIMIT
    ensures Read(codec, DataText(data, cr) + rest, kind)
      == Prepend(Optional(ParseStreamEvent(codec, kind, data)), Read(codec, rest, ""))
  {
    var line := "data: " + data;
    var tail := Ended("", cr) + ("\n" + rest);
    assert DataText(data, cr) + rest == Ended(line, cr) + ("\n" + tail);
    assert line[|line| - 1] == '}' && line[6..] == data && line[0] == 'd' && "[DONE]"[0] == '[';
    ReadsEnded(codec, line, cr, tail, kind);
    ReadsEnded(codec, "", cr, rest, "");
  }

  lemma ReadsKindLine(codec: Codec, kind: string, cr: bool, rest: string)
    requires GoodKind(kind)
    ensures Read(codec, Ended("event: " + kind, cr) + ("\n" + rest), "") == Read(codec, rest, kind)
  {
    var line := "event: " + kind;
    assert line[7..] == kind && line[0] == 'e' && "event: " <= line;
    if kind == "" { assert line[|line| - 1] == ' '; } else { assert line[|line| - 1] == kind[|kind| - 1] != '\r'; }
    ReadsEnded(codec, line, cr, rest, "");
  }

  lemma ReadsTick(codec: Codec, cr: bool, rest: string)
    ensures Read(codec, FrameText(codec, Frame(Tick, None, cr)) + rest, "") == Read(codec, rest, "")
  {
    var line := ": heartbeat";
    var tail := Ended("", cr) + ("\n" + rest);
    assert FrameText(codec, Frame(Tick, None, cr)) + rest == Ended(line, cr) + ("\n" + tail);
    ReadsEnded(codec, line, cr, tail, "");
    ReadsEnded(codec, "", cr, rest, "");
  }

  lemma ReadsFrame(codec: Codec, f: Frame, rest: string)
    requires Faithful(codec) && GoodFrame(codec, f)
    ensures Read(codec, FrameText(codec, f) + rest, "") == Prepend(TakenOf(codec, f), Read(codec, rest, ""))
  {
    assert "" + rest == rest;
    match f.input
    case Next(e) =>
      if codec.encode(FieldsOf(e)).Some? { ReadsEventFrame(codec, f, e, codec.encode(FieldsOf(e)).value, rest); }
    case Tick => ReadsTick(codec, f.cr, rest);
    case Cancelled =>
  }

  lemma ReadsEventFrame(codec: Codec, f: Frame, e: Event, data: string, rest: string)
    requires Faithful(codec) && GoodFrame(codec, f) && f.input == Next(e) && codec.encode(FieldsOf(e)) == Some(data)
    ensures Read(codec, FrameText(codec, f) + rest, "") == Prepend(TakenOf(codec, f), Read(codec, rest, ""))
  {
    Infers(codec, e, data);
    if f.kind.Some? {
      var line := Ended("event: " + f.kind.value, f.cr);
      assert FrameText(codec, f) + rest == line + ("\n" + (DataText(data, f.cr) + rest));
      ReadsKindLine(codec, f.kind.value, f.cr, DataText(data, f.cr) + rest);
      ReadsDataText(codec, data, f.cr, rest, f.kind.value);
    } else {
      assert FrameText(codec, f) == DataText(data, f.cr);
      ReadsDataText(codec, data, f.cr, rest, "");
    }
  }

  // The SDK's writer is a producer of this kind: it names the kind of each event
  // and sends a blank line after it.
  lemma WriterIsAProducer(codec: Codec, input: Input)
    ensures TextOf(codec, input)
      == FrameText(codec, Frame(input, if input.Next? then Some(Kind(input.event)) else None, false))
  {
    match input
    case Next(e) =>
      if codec.encode(FieldsOf(e)).Some? {
        var data := codec.encode(FieldsOf(e)).value;
        assert ("event: " + Kind(e)) + "" == "event: " + Kind(e) && ("data: " + data) + "" == "data: " + data;
        assert EventText(Kind(e), data) == (("event: " + Kind(e)) + "\n") + DataText(data, false);
      }
    case Tick => assert ": heartbeat" + "" == ": heartbeat" && "" + "" == "";
    case Cancelled =>
  }

  ghost predicate AllGood(codec: Codec, frames: seq<Frame>) {
    forall i :: 0 <= i < |frames| ==> GoodFrame(codec, frames[i])
  }

  // Event lines name the kind of the one data line that follows and of no other,
  // carriage returns do not matter, and what comes after is read as if it had
  // come first.
  lemma {:induction false} AnyFramingIsRead(codec: Codec, frames: seq<Frame>, rest: string)
    requires Faithful(codec) && AllGood(codec, frames)
    ensures Read(codec, FramesText(codec, frames) + rest, "")
      == Prepend(AllTaken(codec, frames), Read(codec, rest, ""))
  {
    if frames == [] {
      assert "" + rest == rest;
    } else {
      var tail := FramesText(codec, frames[1..]);
      assert FramesText(codec, frames) + rest == FrameText(codec, frames[0]) + (tail + rest);
      assert AllGood(codec, frames[1..]);
      AnyFramingIsRead(codec, frames[1..], rest);
      ReadsFrame(codec, frames[0], tail + rest);
      PrependTwice(TakenOf(codec, frames[0]), AllTaken(codec, frames[1..]), Read(codec, rest, ""));
    }
  }

  // With its own kind an event is taken for itself; with an unknown kind it is
  // dropped, whatever the data.
  lemma KindsAreKnown(codec: Codec, kind: string, data: string)
    requires kind !in {"", "token", "tool_call", "tool_result", "done", "error"}
    ensures ParseStreamEvent(codec, kind, data) == None
  {
  }

  lemma NamedIsTaken(codec: Codec, e: Event, cr: bool)
    requires Faithful(codec) && codec.encode(FieldsOf(e)).Some?
    ensures TakenOf(codec, Frame(Next(e), Some(Kind(e)), cr)) == [e]
  {
    ParsesBack(codec, e, codec.encode(FieldsOf(e)).value);
    assert Kind(e) != "";
  }

  // Data without a kind is dropped exactly if it cannot be decoded or none of
  // the fields looked at has anything in it.  Otherwise a response makes it a
  // final event, an error without a name a failure, content a token, and a name
  // a tool event; the earlier of these counts, whatever else is there.
  lemma BareDataIsTakenFor(codec: Codec, data: string)
    requires codec.decode(ProbeShape, data).Some?
    ensures var f, r := codec.decode(ProbeShape, data).value, InferStreamEvent(codec, data);
      var failed := f.error != "" && f.name == "";
      && (r == None <==> f.response == f.error == f.content == f.name == "")
      && (r.Some? && r.value.Done? <==> f.response != "")
      && (r.Some? && r.value.Failure? <==> f.response == "" && failed)
      && (r.Some? && r.value.Token? <==> f.response == "" && !failed && f.content != "")
      && (r.Some? && r.value.ToolResult? <==>
            f.response == f.content == "" && f.name != "" && (f.result != "" || f.error != ""))
  {
  }

  // Both readers take bare data for a final event, a failure or something else alike.
  lemma ReadersClassifyAlike(codec: Codec, data: string)
    requires data != "[DONE]"
    ensures var line, r := ParseSSELine(codec, "data: " + data), InferStreamEvent(codec, data);
      && (line == None <==> codec.decode(ProbeShape, data) == None)
      && (line == Some(("done", data)) <==> r.Some? && r.value.Done?)
      && (line == Some(("error", data)) <==> r.Some? && r.value.Failure?)
      && (line == Some(("token", data)) <==> r.Some? && r.value.Token?)
      && (line == Some(("tool", data)) <==> r.Some? && (r.value.ToolCall? || r.value.ToolResult?))
  {
    assert ("data: " + data)[6..] == data;
    assert "done" != "error" && "done"[0] == 'd' && "token"[0] == 't' && |"tool"| == 4 && "unknown"[0] == 'u';
  }

  // The writer serves exactly the inputs before the request is cancelled.
  lemma {:induction false} ServedIs(inputs: seq<Input>)
    ensures Served(inputs) <= inputs && Cancelled !in Served(inputs)
    ensures Served(inputs) == inputs || inputs[|Served(inputs)|].Cancelled?
  {
    if inputs != [] && !inputs[0].Cancelled? {
      ServedIs(inputs[1..]);
      assert inputs == [inputs[0]] + inputs[1..];
    }
  }

  // ---- the end marker ----

  const DONE_LINE := "data: [DONE]"

  lemma DoneLineIs(codec: Codec)
    ensures OnLine(codec, DONE_LINE, "") == EndMarker && '\n' !in DONE_LINE && DONE_LINE[|DONE_LINE| - 1] == ']'
  {
    assert DONE_LINE[6..] == "[DONE]" && DONE_LINE[0] == 'd';
  }

  // The streaming reader stops at the marker, whatever follows.
  lemma MarkerEndsTheStream(codec: Codec, frames: seq<Frame>, cr: bool, rest: string)
    requires Faithful(codec) && AllGood(codec, frames)
    ensures Read(codec, FramesText(codec, frames) + (Ended(DONE_LINE, cr) + ("\n" + rest)), "")
      == Reading(AllTaken(codec, frames), Marker)
  {
    AnyFramingIsRead(codec, frames, Ended(DONE_LINE, cr) + ("\n" + rest));
    DoneLineIs(codec);
    ReadsEnded(codec, DONE_LINE, cr, rest, "");
  }

  // The collecting reader goes on behind it.
  lemma MarkerIsSkipped(codec: Codec, rest: string, a: Answer, broken: Option<string>)
    requires a.Answer?
    ensures Chat(codec, DONE_LINE + ("\n" + rest), a, broken) == Chat(codec, rest, a, broken)
  {
    assert DONE_LINE[6..] == "[DONE]" && DONE_LINE[|DONE_LINE| - 1] == ']';
    ChatsLine(codec, DONE_LINE, rest, a, broken);
  }

  // ---- a final event whose details cannot be decoded ----

  // The streaming reader passes an empty final event on; the collecting reader
  // gives up.
  lemma UndecodableFinalEvent(codec: Codec, data: string, rest: string, a: Answer, broken: Option<string>)
    requires codec.decode(ProbeShape, data).Some? && codec.decode(ProbeShape, data).value.response != ""
    requires codec.decode(DoneShape, data) == None
    requires '\n' !in data && data != "" && data[|data| - 1] != '\r' && data != "[DONE]" && Fits(data) && a.Answer?
    ensures var text := ("data: " + data) + ("\n" + rest);
      && Read(codec, text, "") == Prepend([Done("", map[])], Read(codec, rest, ""))
      && Chat(codec, text, a, broken) == ReadError("parse done event")
  {
    var line := "data: " + data;
    assert line[6..] == data && line[0] == 'd' && "data: " <= line && line[|line| - 1] == data[|data| - 1];
    assert DropCR(line) == line;
    ReadsData(codec, line, rest, "", Some(Done("", map[])));
    ChatsLine(codec, line, rest, a, broken);
  }

  // ---- a caller of the streaming reader ----

  // However the connection ends, the caller gets first events of those it
  // should get, and then an error event exactly if the connection broke or a
  // line was too long, and the caller had not gone away.
  lemma CallerLearnsOfTheBreak(codec: Codec, inputs: seq<Input>, k: nat, broken: Option<string>, cancelled: bool)
    requires Faithful(codec) && PartsAreInvalid(codec) && k <= |Text(codec, inputs)|
    ensures var r := Read(codec, Text(codec, inputs)[..k], "");
      var ch := Delivered(r, broken, cancelled);
      var wrong := !cancelled && (broken.Some? || r.end == LineTooLong);
      && r.events <= Expected(codec, inputs).events
      && (!wrong ==> ch == r.events)
      && (wrong ==>
            ch == r.events + [Failure("reading stream: " + if r.end == LineTooLong then TOO_LONG else broken.value)])
  {
    BrokenStreamIsPrefix(codec, inputs, k);
  }

  // ---- the collecting reader on every stream of the writer ----

  // What a stream read so far amounts to.
  function Concluded(r: Reading, a: Answer, broken: Option<string>): Answer
    requires a.Answer?
  {
    var b := Amount(r.events, a);
    if !b.Answer? then b
    else if r.end == LineTooLong then ReadError(TOO_LONG)
    else if broken.Some? then ReadError(broken.value)
    else b
  }

  lemma ChatsOverlong(codec: Codec, line: string, rest: string, a: Answer, broken: Option<string>)
    requires a.Answer? && '\n' !in line && |line| > LINE_LIMIT
    ensures Chat(codec, line + ("\n" + rest), a, broken) == ReadError(TOO_LONG)
  {
    BreakAtLine(line, rest);
  }

  lemma ChatsKindLine(codec: Codec, e: Event, rest: string, a: Answer, broken: Option<string>)
    requires a.Answer?
    ensures Chat(codec, ("event: " + Kind(e)) + ("\n" + rest), a, broken) == Chat(codec, rest, a, broken)
  {
    KindLine(codec, e);
    assert Kind(e)[|Kind(e)| - 1] != '\r';
    ChatsSkipped(codec, "event: " + Kind(e), rest, a, broken);
  }

  lemma EventTextIs(kind: string, data: string, rest: string)
    ensures EventText(kind, data) + rest
      == ("event: " + kind) + ("\n" + (("data: " + data) + ("\n" + ("" + ("\n" + rest)))))
  {}

  lemma ChatsTooLong(codec: Codec, e: Event, data: string, rest: string, a: Answer, broken: Option<string>)
    requires Faithful(codec) && codec.encode(FieldsOf(e)) == Some(data) && !Fits(data) && a.Answer?
    ensures Chat(codec, EventText(Kind(e), data) + rest, a, broken) == ReadError(TOO_LONG)
  {
    EventTextIs(Kind(e), data, rest);
    DataLineIsWhole(data);
    ChatsKindLine(codec, e, ("data: " + data) + ("\n" + ("" + ("\n" + rest))), a, broken);
    ChatsOverlong(codec, "data: " + data, "" + ("\n" + rest), a, broken);
  }

  // Whatever events were sent, with encodings that fail and lines that are too
  // long: the call returns what the events expected amount to, or the first
  // error - of the agent, of the reading, or of the connection.
  lemma {:induction false} ChatReadsWhatIsExpected(
      codec: Codec, inputs: seq<Input>, a: Answer, broken: Option<string>)
    requires Faithful(codec) && a.Answer?
    ensures Chat(codec, Text(codec, inputs), a, broken) == Concluded(Expected(codec, inputs), a, broken)
  {
    if inputs != [] {
      var x, rest := inputs[0], inputs[1..];
      var tail, r := Text(codec, rest), Expected(codec, rest);
      if !x.Next? || Sendable(codec, x.event) {
        ChatsInput(codec, x, tail, a, broken);
        var b := if x.Next? then Amount([x.event], a) else a;
        if x.Next? { AmountCons(x.event, r.events, a); }
        if b.Answer? { ChatReadsWhatIsExpected(codec, rest, b, broken); }
      } else if codec.encode(FieldsOf(x.event)).None? {
        assert "" + tail == tail;
        ChatReadsWhatIsExpected(codec, rest, a, broken);
      } else {
        ChatsTooLong(codec, x.event, codec.encode(FieldsOf(x.event)).value, tail, a, broken);
      }
    }
  }
}
