// The server-sent events between an agent plugin and its callers: the writer
// (pkg/pluginsdk/agent_handler.go) and the two readers
// (pkg/pluginsdk/agent_client.go).  Text is a sequence of bytes, one char each.
module AgentStream {
  import opened Sequences
  import opened Wrappers

  // What a Done event carries besides its response.
  type Extras = map<string, string>

  datatype Event =
    | Token(content: string)
    | ToolCall(name: string, arguments: string)
    | ToolResult(name: string, result: string, error: string)
    | Done(response: string, extras: Extras)
    | Failure(error: string)

  // A JSON object as Go reads it into a struct: an absent field is empty.
  datatype Fields = Fields(
    content: string, name: string, arguments: string, result: string, error: string, response: string, extras: Extras)

  // The structs a data line is decoded into.
  datatype Shape = TokenShape | ToolCallShape | ToolResultShape | DoneShape | FailureShape | ProbeShape

  const NO_FIELDS := Fields("", "", "", "", "", "", map[])

  function FieldsOf(e: Event): Fields {
    match e
    case Token(content) => NO_FIELDS.(content := content)
    case ToolCall(name, arguments) => NO_FIELDS.(name := name, arguments := arguments)
    case ToolResult(name, result, error) => NO_FIELDS.(name := name, result := result, error := error)
    case Done(response, extras) => NO_FIELDS.(response := response, extras := extras)
    case Failure(error) => NO_FIELDS.(error := error)
  }

  // The fields a struct has.
  function Project(shape: Shape, f: Fields): Fields {
    match shape
    case TokenShape => NO_FIELDS.(content := f.content)
    case ToolCallShape => NO_FIELDS.(name := f.name, arguments := f.arguments)
    case ToolResultShape => NO_FIELDS.(name := f.name, result := f.result, error := f.error)
    case DoneShape => NO_FIELDS.(response := f.response, extras := f.extras)
    case FailureShape => NO_FIELDS.(error := f.error)
    case ProbeShape => f.(arguments := "", extras := map[])
  }

  // The JSON library.  Encoding can fail (a cost that is not a number), and
  // so can decoding a line that some other producer has written.
  datatype Codec = Codec(encode: Fields -> Option<string>, decode: (Shape, string) -> Option<Fields>)

  // An encoding is an object on one line, and decoding undoes it.
  ghost predicate Faithful(codec: Codec) {
    forall f :: codec.encode(f).Some? ==>
      var t := codec.encode(f).value;
      && t != "" && t[0] == '{' && t[|t| - 1] == '}' && '\n' !in t
      && forall shape :: codec.decode(shape, t) == Some(Project(shape, f))
  }

  function Kind(e: Event): string {
    match e
    case Token(_) => "token"
    case ToolCall(_, _) => "tool_call"
    case ToolResult(_, _, _) => "tool_result"
    case Done(_, _) => "done"
    case Failure(_) => "error"
  }

  // ---- the writer ----

  datatype Input = Next(event: Event) | Tick | Cancelled

  function EventText(kind: string, data: string): string {
    ("event: " + kind) + ("\n" + (("data: " + data) + ("\n" + ("" + "\n"))))
  }

  const HEARTBEAT := ": heartbeat" + ("\n" + ("" + "\n"))

  function TextOf(codec: Codec, input: Input): string {
    match input
    case Next(e) => (match codec.encode(FieldsOf(e)) case Some(data) => EventText(Kind(e), data) case None => "")
    case Tick => HEARTBEAT
    case Cancelled => ""
  }

  // The inputs before the request is cancelled.
  function Served(inputs: seq<Input>): seq<Input> {
    if inputs == [] || inputs[0].Cancelled? then [] else [inputs[0]] + Served(inputs[1..])
  }

  function Text(codec: Codec, inputs: seq<Input>): string {
    if inputs == [] then "" else TextOf(codec, inputs[0]) + Text(codec, inputs[1..])
  }

  class ResponseWriter {
    var body: string

    constructor ()
      ensures body == ""
    {
      body := "";
    }

    method WriteAgentSSE(codec: Codec, e: Event)
      modifies this
      ensures body == old(body) + TextOf(codec, Next(e))
    {
      var data := codec.encode(FieldsOf(e));
      if data.None? {
        return;
      }
      body := body + EventText(Kind(e), data.value);
    }

    // The select loop: events, ticks of the heartbeat timer and the end of
    // the request in any order.
    method AgentChatHandler(codec: Codec, inputs: seq<Input>)
      modifies this
      ensures body == old(body) + Text(codec, Served(inputs))
    {
      for i := 0 to |inputs|
        invariant body + Text(codec, Served(inputs[i..])) == old(body) + Text(codec, Served(inputs))
      {
        ghost var rest := Served(inputs[i + 1..]);
        assert inputs[i..][0] == inputs[i] && inputs[i..][1..] == inputs[i + 1..];
        if inputs[i].Cancelled? {
          assert Text(codec, Served(inputs[i..])) == "";
          return;
        }
        assert ([inputs[i]] + rest)[1..] == rest;
        Regroup(body, TextOf(codec, inputs[i]), Text(codec, rest));
        match inputs[i]
        case Next(e) => WriteAgentSSE(codec, e);
        case Tick => body := body + HEARTBEAT;
      }
    }
  }

  // ---- the reader's scanner ----

  // A line longer than this fills the 256 KB buffer before its end is seen.
  const LINE_LIMIT := 262143

  const TOO_LONG := "bufio.Scanner: token too long"

  function BreakAt(t: string): (n: nat)
    ensures n <= |t| && '\n' !in t[..n] && (n < |t| ==> t[n] == '\n')
  {
    if t == "" || t[0] == '\n' then 0 else BreakAt(t[1..]) + 1
  }

  function AfterBreak(t: string, n: nat): string
    requires n <= |t|
  {
    if n < |t| then t[n + 1..] else ""
  }

  // The scanner takes a carriage return off the end of a line.
  function DropCR(line: string): string {
    if line != "" && line[|line| - 1] == '\r' then line[..|line| - 1] else line
  }

  // ---- one line ----

  // What one data line turns into; None is a line that is dropped.
  function AsEvent(shape: Shape, f: Fields): Option<Event> {
    match shape
    case TokenShape => Some(Token(f.content))
    case ToolCallShape => Some(ToolCall(f.name, f.arguments))
    case ToolResultShape => Some(ToolResult(f.name, f.result, f.error))
    case DoneShape => Some(Done(f.response, f.extras))
    case FailureShape => Some(Failure(f.error))
    case ProbeShape => None
  }

  function Decoded(codec: Codec, shape: Shape, data: string): Option<Event> {
    match codec.decode(shape, data) case Some(f) => AsEvent(shape, f) case None => None
  }

  // In the field-sniffing branches the error of a failed second decode is
  // ignored: the zero struct is passed on.
  function DecodedOrZero(codec: Codec, shape: Shape, data: string): Option<Event> {
    match codec.decode(shape, data) case Some(f) => AsEvent(shape, f) case None => AsEvent(shape, NO_FIELDS)
  }

  function InferStreamEvent(codec: Codec, data: string): Option<Event> {
    match codec.decode(ProbeShape, data)
    case None => None
    case Some(f) =>
      if f.response != "" then DecodedOrZero(codec, DoneShape, data)
      else if f.error != "" && f.name == "" then Some(Failure(f.error))
      else if f.content != "" then Some(Token(f.content))
      else if f.name != "" && (f.result != "" || f.error != "") then DecodedOrZero(codec, ToolResultShape, data)
      else if f.name != "" then DecodedOrZero(codec, ToolCallShape, data)
      else None
  }

  function ParseStreamEvent(codec: Codec, kind: string, data: string): Option<Event> {
    if kind == "token" then Decoded(codec, TokenShape, data)
    else if kind == "tool_call" then Decoded(codec, ToolCallShape, data)
    else if kind == "tool_result" then Decoded(codec, ToolResultShape, data)
    else if kind == "done" then Decoded(codec, DoneShape, data)
    else if kind == "error" then Decoded(codec, FailureShape, data)
    else if kind == "" then InferStreamEvent(codec, data)
    else None
  }

  datatype Heard = Nothing(kind: string) | Data(event: Option<Event>) | EndMarker

  function OnLine(codec: Codec, line: string, kind: string): Heard {
    if ":" <= line then Nothing(kind)
    else if "event: " <= line then Nothing(line[7..])
    else if !("data: " <= line) then Nothing(kind)
    else if line[6..] == "[DONE]" then EndMarker
    else Data(ParseStreamEvent(codec, kind, line[6..]))
  }

  // ---- the whole stream ----

  datatype End = EndOfText | Marker | LineTooLong

  datatype Reading = Reading(events: seq<Event>, end: End)

  function Optional(e: Option<Event>): seq<Event> {
    if e.Some? then [e.value] else []
  }

  function Prepend(events: seq<Event>, r: Reading): (p: Reading)
    ensures r.events == [] ==> p == Reading(events, r.end)
  {
    Reading(events + r.events, r.end)
  }

  // kind is the last event line not yet used up.
  function Read(codec: Codec, t: string, kind: string): Reading
    decreases |t|
  {
    var n := BreakAt(t);
    if t == "" then Reading([], EndOfText)
    else if n > LINE_LIMIT then Reading([], LineTooLong)
    else
      match OnLine(codec, DropCR(t[..n]), kind)
      case Nothing(k) => Read(codec, AfterBreak(t, n), k)
      case Data(e) => Prepend(Optional(e), Read(codec, AfterBreak(t, n), ""))
      case EndMarker => Reading([], Marker)
  }

  // After an over-long line, or when the connection broke (broken is the
  // message), one error event follows, unless the caller has gone away.
  function Delivered(r: Reading, broken: Option<string>, cancelled: bool): seq<Event> {
    if cancelled || r.end == Marker then r.events
    else if r.end == LineTooLong then r.events + [Failure("reading stream: " + TOO_LONG)]
    else if broken.Some? then r.events + [Failure("reading stream: " + broken.value)]
    else r.events
  }

  lemma PrependTwice(a: seq<Event>, b: seq<Event>, r: Reading)
    ensures Prepend(a, Prepend(b, r)) == Prepend(a + b, r)
  {
    Regroup(a, b, r.events);
  }

  method FindBreak(t: string) returns (n: nat)
    ensures n == BreakAt(t)
  {
    n := 0;
    while n < |t| && t[n] != '\n'
      invariant n <= |t| && BreakAt(t) == n + BreakAt(t[n..])
    {
      assert t[n..][1..] == t[n + 1..];
      n := n + 1;
    }
  }

  // The goroutine of AgentChatStream: one scan loop over the lines.
  method AgentChatStream(codec: Codec, text: string, broken: Option<string>, cancelled: bool) returns (ch: seq<Event>)
    ensures ch == Delivered(Read(codec, text, ""), broken, cancelled)
  {
    ch := [];
    var rest, lastEventType, tooLong := text, "", false;
    ghost var all := Read(codec, text, "");
    while rest != "" && !tooLong
      invariant Prepend(ch, if tooLong then Reading([], LineTooLong) else Read(codec, rest, lastEventType)) == all
      decreases |rest|, !tooLong
    {
      var n := FindBreak(rest);
      if n > LINE_LIMIT {
        tooLong := true;
      } else {
        var line := DropCR(rest[..n]);
        rest := AfterBreak(rest, n);
        match OnLine(codec, line, lastEventType)
        case Nothing(kind) =>
          lastEventType := kind;
        case Data(e) =>
          PrependTwice(ch, Optional(e), Read(codec, rest, ""));
          ch := ch + Optional(e);
          lastEventType := "";
        case EndMarker =>
          assert all == Reading(ch, Marker);
          return;
      }
    }
    assert all == Reading(ch, if tooLong then LineTooLong else EndOfText);
    if tooLong || broken.Some? {
      if !cancelled {
        var message := if tooLong then TOO_LONG else broken.value;
        ch := ch + [Failure("reading stream: " + message)];
      }
    }
  }

  // ---- the reader undoes the writer ----

  predicate Fits(data: string) { |"data: " + data| < 256 * 1024 }

  // What one input adds to what is read.
  function Received(codec: Codec, input: Input, r: Reading): Reading {
    if !input.Next? then r
    else
      match codec.encode(FieldsOf(input.event))
      case None => r
      case Some(data) => if Fits(data) then Prepend([input.event], r) else Reading([], LineTooLong)
  }

  // What a caller should get: the events that could be encoded, up to the
  // first whose line is too long for the scanner.
  function Expected(codec: Codec, inputs: seq<Input>): Reading {
    if inputs == [] then Reading([], EndOfText) else Received(codec, inputs[0], Expected(codec, inputs[1..]))
  }

  lemma {:induction false} BreakAtLine(line: string, rest: string)
    requires '\n' !in line
    ensures BreakAt(line + ("\n" + rest)) == |line|
  {
    var t := line + ("\n" + rest);
    if line != "" {
      assert t[1..] == line[1..] + ("\n" + rest);
      assert t[0] == line[0] && line[0] in line;
      BreakAtLine(line[1..], rest);
    }
  }

  lemma ReadsLine(codec: Codec, line: string, rest: string, kind: string)
    requires '\n' !in line
    ensures BreakAt(line + ("\n" + rest)) == |line|
    ensures var t := line + ("\n" + rest); t[..|line|] == line && AfterBreak(t, |line|) == rest
  {
    BreakAtLine(line, rest);
  }

  lemma ReadsSkipped(codec: Codec, line: string, rest: string, kind: string, k: string)
    requires '\n' !in line && |line| <= LINE_LIMIT && OnLine(codec, DropCR(line), kind) == Nothing(k)
    ensures Read(codec, line + ("\n" + rest), kind) == Read(codec, rest, k)
  {
    ReadsLine(codec, line, rest, kind);
  }

  lemma ReadsData(codec: Codec, line: string, rest: string, kind: string, e: Option<Event>)
    requires '\n' !in line && OnLine(codec, DropCR(line), kind) == Data(e)
    ensures Read(codec, line + ("\n" + rest), kind)
      == if |line| > LINE_LIMIT then Reading([], LineTooLong) else Prepend(Optional(e), Read(codec, rest, ""))
  {
    ReadsLine(codec, line, rest, kind);
  }

  lemma ReadsBlank(codec: Codec, rest: string, kind: string)
    ensures Read(codec, "" + ("\n" + rest), kind) == Read(codec, rest, kind)
  {
    ReadsSkipped(codec, "", rest, kind, kind);
  }

  lemma ReadsHeartbeat(codec: Codec, rest: string)
    ensures Read(codec, HEARTBEAT + rest, "") == Read(codec, rest, "")
  {
    var line := ": heartbeat";
    assert HEARTBEAT + rest == line + ("\n" + ("" + ("\n" + rest)));
    ReadsSkipped(codec, line, "" + ("\n" + rest), "", "");
    ReadsBlank(codec, rest, "");
  }

  lemma DataLine(codec: Codec, data: string, kind: string)
    requires data != "" && data[0] == '{' && data[|data| - 1] == '}'
    ensures OnLine(codec, DropCR("data: " + data), kind) == Data(ParseStreamEvent(codec, kind, data))
  {
    var line := "data: " + data;
    assert line[|line| - 1] == '}';
    assert line[6..] == data;
    assert line[0] == 'd';
    assert "[DONE]"[0] == '[';
  }

  // One data line, with whatever is known of the event's kind.
  lemma ReadsDataLine(codec: Codec, data: string, rest: string, kind: string)
    requires data != "" && data[0] == '{' && data[|data| - 1] == '}' && '\n' !in data
    ensures Read(codec, ("data: " + data) + ("\n" + ("" + ("\n" + rest))), kind)
      == if Fits(data) then Prepend(Optional(ParseStreamEvent(codec, kind, data)), Read(codec, rest, ""))
         else Reading([], LineTooLong)
  {
    DataLine(codec, data, kind);
    ReadsData(codec, "data: " + data, "" + ("\n" + rest), kind, ParseStreamEvent(codec, kind, data));
    ReadsBlank(codec, rest, "");
  }

  lemma ReadsEvent(codec: Codec, e: Event, data: string, rest: string)
    requires Faithful(codec) && codec.encode(FieldsOf(e)) == Some(data)
    ensures Read(codec, EventText(Kind(e), data) + rest, "")
      == if Fits(data) then Prepend([e], Read(codec, rest, "")) else Reading([], LineTooLong)
  {
    var line := "event: " + Kind(e);
    var tail := ("data: " + data) + ("\n" + ("" + ("\n" + rest)));
    assert EventText(Kind(e), data) + rest == line + ("\n" + tail);
    KindLine(codec, e);
    ReadsSkipped(codec, line, tail, "", Kind(e));
    ReadsDataLine(codec, data, rest, Kind(e));
    ParsesBack(codec, e, data);
  }

  lemma KindLine(codec: Codec, e: Event)
    ensures var line := "event: " + Kind(e);
      '\n' !in line && |line| <= LINE_LIMIT && OnLine(codec, DropCR(line), "") == Nothing(Kind(e))
  {
    var kind := Kind(e);
    var line := "event: " + kind;
    assert '\n' !in kind && 0 < |kind| < 20 && kind[|kind| - 1] != '\r';
    assert line[|line| - 1] == kind[|kind| - 1];
    assert line[7..] == kind && line[0] == 'e' && "event: " <= line;
  }

  lemma ParsesBack(codec: Codec, e: Event, data: string)
    requires Faithful(codec) && codec.encode(FieldsOf(e)) == Some(data)
    ensures ParseStreamEvent(codec, Kind(e), data) == Some(e)
  {
    var shape := match e
      case Token(_) => TokenShape
      case ToolCall(_, _) => ToolCallShape
      case ToolResult(_, _, _) => ToolResultShape
      case Done(_, _) => DoneShape
      case Failure(_) => FailureShape;
    assert codec.decode(shape, data) == Some(Project(shape, FieldsOf(e)));
    assert Kind(e)[0] == 't' || Kind(e)[0] == 'd' || Kind(e)[0] == 'e';
  }

  lemma ReadsInput(codec: Codec, input: Input, rest: string)
    requires Faithful(codec)
    ensures Read(codec, TextOf(codec, input) + rest, "") == Received(codec, input, Read(codec, rest, ""))
  {
    assert "" + rest == rest;
    match input
    case Next(e) =>
      if codec.encode(FieldsOf(e)).Some? { ReadsEvent(codec, e, codec.encode(FieldsOf(e)).value, rest); }
    case Tick => ReadsHeartbeat(codec, rest);
    case Cancelled =>
  }

  // Reading what was written gives back the events, whatever the events and
  // wherever heartbeats fall; an event too long for the scanner ends it.
  lemma {:induction false} ReaderUndoesWriter(codec: Codec, inputs: seq<Input>)
    requires Faithful(codec)
    ensures Read(codec, Text(codec, inputs), "") == Expected(codec, inputs)
  {
    if inputs != [] {
      ReaderUndoesWriter(codec, inputs[1..]);
      ReadsInput(codec, inputs[0], Text(codec, inputs[1..]));
    }
  }

  function EventsOf(inputs: seq<Input>): seq<Event> {
    if inputs == [] then []
    else if inputs[0].Next? then [inputs[0].event] + EventsOf(inputs[1..])
    else EventsOf(inputs[1..])
  }

  predicate Sendable(codec: Codec, e: Event) {
    var data := codec.encode(FieldsOf(e));
    data.Some? && Fits(data.value)
  }

  ghost predicate AllSendable(codec: Codec, inputs: seq<Input>) {
    forall i :: 0 <= i < |inputs| && inputs[i].Next? ==> Sendable(codec, inputs[i].event)
  }

  lemma {:induction false} ExpectedIs(codec: Codec, inputs: seq<Input>)
    ensures |Expected(codec, inputs).events| <= |EventsOf(inputs)|
    ensures Expected(codec, inputs) == Reading(EventsOf(inputs), EndOfText) <==> AllSendable(codec, inputs)
  {
    if inputs != [] {
      var x, rest := inputs[0], inputs[1..];
      ExpectedIs(codec, rest);
      assert AllSendable(codec, inputs) <==> (x.Next? ==> Sendable(codec, x.event)) && AllSendable(codec, rest) by {
        assert forall i :: 1 <= i < |inputs| ==> inputs[i] == rest[i - 1];
        assert forall i :: 0 <= i < |rest| ==> rest[i] == inputs[i + 1];
      }
      if x.Next? && Sendable(codec, x.event) {
        var a, b := Expected(codec, rest).events, EventsOf(rest);
        assert [x.event] + a == [x.event] + b ==> a == b by {
          assert ([x.event] + a)[1..] == a && ([x.event] + b)[1..] == b;
        }
      }
    }
  }

  // Exactly the events sent come out at the other end when, and only when,
  // each of them can be encoded and fits the scanner's buffer.
  lemma RoundTrip(codec: Codec, inputs: seq<Input>)
    requires Faithful(codec)
    ensures Read(codec, Text(codec, inputs), "") == Reading(EventsOf(inputs), EndOfText) <==> AllSendable(codec, inputs)
  {
    ReaderUndoesWriter(codec, inputs);
    ExpectedIs(codec, inputs);
  }

  // ---- a connection that breaks ----

  // No part of an object is itself an object.
  ghost predicate PartsAreInvalid(codec: Codec) {
    forall f, part, shape ::
      codec.encode(f).Some? && part < codec.encode(f).value ==> codec.decode(shape, part) == None
  }

  // A last line without line break.
  lemma ReadsLast(codec: Codec, line: string, kind: string)
    requires '\n' !in line
    ensures Read(codec, line, kind).events
      == if line == "" || |line| > LINE_LIMIT then []
         else match OnLine(codec, DropCR(line), kind) case Data(e) => Optional(e) case _ => []
    ensures Read(codec, line, kind).end == Marker ==> OnLine(codec, DropCR(line), kind) == EndMarker
  {
    BreakAtEnd(line);
    assert line[..|line|] == line && AfterBreak(line, |line|) == "";
    forall k ensures Read(codec, "", k) == Reading([], EndOfText) {}
  }

  lemma {:induction false} BreakAtEnd(line: string)
    requires '\n' !in line
    ensures BreakAt(line) == |line|
  {
    if line != "" {
      assert line[0] in line;
      BreakAtEnd(line[1..]);
    }
  }

  lemma CutHeartbeat(codec: Codec, k: nat)
    requires k < |HEARTBEAT|
    ensures Read(codec, HEARTBEAT[..k], "").events == [] && Read(codec, HEARTBEAT[..k], "").end != Marker
  {
    var line := ": heartbeat";
    var t := HEARTBEAT[..k];
    if k <= |line| {
      assert t == line[..k];
      ReadsLast(codec, t, "");
      if k > 0 { assert DropCR(t) == t && t[0] == ':'; }
    } else {
      assert t == line + ("\n" + "");
      ReadsSkipped(codec, line, "", "", "");
    }
  }

  lemma CutKindLine(codec: Codec, e: Event, k: nat)
    requires k <= |"event: " + Kind(e)|
    ensures var r := Read(codec, ("event: " + Kind(e))[..k], ""); r.events == [] && r.end != Marker
  {
    var line := ("event: " + Kind(e))[..k];
    KindLine(codec, e);
    ReadsLast(codec, line, "");
    if line != "" {
      assert line[0] == 'e';
      if DropCR(line) != "" { assert DropCR(line)[0] == 'e'; }
    }
  }

  lemma CutDataLine(codec: Codec, e: Event, data: string, k: nat)
    requires Faithful(codec) && PartsAreInvalid(codec) && codec.encode(FieldsOf(e)) == Some(data)
    requires k <= |data| + 6
    ensures var r := Read(codec, ("data: " + data)[..k], Kind(e));
      r.events == (if k == |data| + 6 && Fits(data) then [e] else []) && r.end != Marker
  {
    var whole := "data: " + data;
    var q := whole[..k];
    ReadsLast(codec, q, Kind(e));
    if k == |whole| {
      assert q == whole;
      DataLine(codec, data, Kind(e));
      ParsesBack(codec, e, data);
    } else {
      var line := DropCR(q);
      assert line < whole;
      PartOfDataLine(codec, e, data, line);
    }
  }

  lemma PartOfDataLine(codec: Codec, e: Event, data: string, line: string)
    requires Faithful(codec) && PartsAreInvalid(codec) && codec.encode(FieldsOf(e)) == Some(data)
    requires line < "data: " + data
    ensures OnLine(codec, line, Kind(e)) == if "data: " <= line then Data(None) else Nothing(Kind(e))
  {
    if line != "" { assert line[0] == 'd'; }
    if "data: " <= line {
      var part := line[6..];
      assert ("data: " + data)[6..] == data;
      assert part < data;
      if part != "" { assert part[0] == '{' != "[DONE]"[0]; }
      assert Kind(e) != "";
      PartsDoNotParse(codec, e, data, part);
    }
  }

  lemma PartsDoNotParse(codec: Codec, e: Event, data: string, part: string)
    requires PartsAreInvalid(codec) && codec.encode(FieldsOf(e)) == Some(data) && part < data
    ensures ParseStreamEvent(codec, Kind(e), part) == None
  {
    forall shape ensures codec.decode(shape, part) == None {}
    assert Kind(e)[0] == 't' || Kind(e)[0] == 'd' || Kind(e)[0] == 'e';
  }

  // Of an event cut short, nothing is read, or all of it.
  lemma CutEvent(codec: Codec, e: Event, data: string, k: nat)
    requires Faithful(codec) && PartsAreInvalid(codec) && codec.encode(FieldsOf(e)) == Some(data)
    requires k < |EventText(Kind(e), data)|
    ensures var r := Read(codec, EventText(Kind(e), data)[..k], "");
      r.events <= (if Fits(data) then [e] else []) && r.end != Marker
  {
    var first, second := "event: " + Kind(e), "data: " + data;
    var t := EventText(Kind(e), data)[..k];
    KindLine(codec, e);
    if k <= |first| {
      assert t == first[..k];
      CutKindLine(codec, e, k);
    } else {
      var m := k - |first| - 1;
      if m <= |second| {
        assert t == first + ("\n" + second[..m]);
        ReadsSkipped(codec, first, second[..m], "", Kind(e));
        CutDataLine(codec, e, data, m);
      } else {
        assert t == first + ("\n" + (second + ("\n" + "")));
        ReadsSkipped(codec, first, second + ("\n" + ""), "", Kind(e));
        DataLine(codec, data, Kind(e));
        ParsesBack(codec, e, data);
        ReadsData(codec, second, "", Kind(e), Some(e));
        assert Read(codec, "", "") == Reading([], EndOfText);
      }
    }
  }

  lemma CutInput(codec: Codec, input: Input, k: nat)
    requires Faithful(codec) && PartsAreInvalid(codec) && k < |TextOf(codec, input)|
    ensures var r := Read(codec, TextOf(codec, input)[..k], "");
      r.events <= Received(codec, input, Reading([], EndOfText)).events && r.end != Marker
  {
    match input
    case Next(e) => CutEvent(codec, e, codec.encode(FieldsOf(e)).value, k);
    case Tick => CutHeartbeat(codec, k);
  }

  lemma CutText(t: string, rest: string, k: nat)
    requires k <= |t| + |rest|
    ensures k < |t| ==> (t + rest)[..k] == t[..k]
    ensures k >= |t| ==> (t + rest)[..k] == t + rest[..k - |t|]
  {}

  // Wherever the connection breaks, even inside an event, the events read are
  // the first of those that would have been read.
  lemma {:induction false} BrokenStreamIsPrefix(codec: Codec, inputs: seq<Input>, k: nat)
    requires Faithful(codec) && PartsAreInvalid(codec) && k <= |Text(codec, inputs)|
    ensures var r := Read(codec, Text(codec, inputs)[..k], "");
      r.events <= Expected(codec, inputs).events && r.end != Marker
  {
    if inputs == [] {
      assert Read(codec, "", "") == Reading([], EndOfText);
    } else {
      var x, rest := inputs[0], inputs[1..];
      var t := TextOf(codec, x);
      CutText(t, Text(codec, rest), k);
      if k < |t| {
        CutInput(codec, x, k);
        ReceivedGrows(codec, x, Reading([], EndOfText), Expected(codec, rest));
      } else {
        var cut := Text(codec, rest)[..k - |t|];
        BrokenStreamIsPrefix(codec, rest, k - |t|);
        ReadsInput(codec, x, cut);
        ReceivedGrows(codec, x, Read(codec, cut, ""), Expected(codec, rest));
      }
    }
  }

  lemma ReceivedGrows(codec: Codec, x: Input, a: Reading, b: Reading)
    requires a.events <= b.events
    ensures Received(codec, x, a).events <= Received(codec, x, b).events
  {}

  // ---- without event lines ----

  // The fields an event is told by.
  predicate Telling(e: Event) {
    match e
    case Token(content) => content != ""
    case ToolCall(name, _) => name != ""
    case ToolResult(name, result, error) => name != "" && (result != "" || error != "")
    case Done(response, _) => response != ""
    case Failure(error) => error != ""
  }

  // What an event is taken for: it may be lost, a nameless tool error passes
  // for a failure of the agent and an empty tool result for a tool call.
  function TakenFor(e: Event): Option<Event> {
    if Telling(e) then Some(e)
    else if e.ToolResult? && e.name != "" then Some(ToolCall(e.name, ""))
    else if e.ToolResult? && e.error != "" then Some(Failure(e.error))
    else None
  }

  lemma Infers(codec: Codec, e: Event, data: string)
    requires Faithful(codec) && codec.encode(FieldsOf(e)) == Some(data)
    ensures InferStreamEvent(codec, data) == TakenFor(e)
  {
    var f := FieldsOf(e);
    assert codec.decode(ProbeShape, data) == Some(Project(ProbeShape, f));
    assert codec.decode(DoneShape, data) == Some(Project(DoneShape, f));
    assert codec.decode(ToolResultShape, data) == Some(Project(ToolResultShape, f));
    assert codec.decode(ToolCallShape, data) == Some(Project(ToolCallShape, f));
  }

  // The kind is recovered from the data alone exactly when the fields the
  // event is told by are not empty.
  lemma InferenceIsExact(codec: Codec, e: Event, data: string)
    requires Faithful(codec) && codec.encode(FieldsOf(e)) == Some(data)
    ensures InferStreamEvent(codec, data) == Some(e) <==> Telling(e)
  {
    Infers(codec, e, data);
  }

  // A simpler producer, which writes no event lines.
  function BareTextOf(codec: Codec, input: Input): string {
    match input
    case Next(e) =>
      (match codec.encode(FieldsOf(e))
       case Some(data) => ("data: " + data) + ("\n" + ("" + "\n"))
       case None => "")
    case Tick => HEARTBEAT
    case Cancelled => ""
  }

  function BareText(codec: Codec, inputs: seq<Input>): string {
    if inputs == [] then "" else BareTextOf(codec, inputs[0]) + BareText(codec, inputs[1..])
  }

  function Taken(inputs: seq<Input>): seq<Event> {
    if inputs == [] then []
    else if inputs[0].Next? then Optional(TakenFor(inputs[0].event)) + Taken(inputs[1..])
    else Taken(inputs[1..])
  }

  lemma ReadsBare(codec: Codec, e: Event, tail: string)
    requires Faithful(codec) && Sendable(codec, e)
    ensures Read(codec, BareTextOf(codec, Next(e)) + tail, "") == Prepend(Optional(TakenFor(e)), Read(codec, tail, ""))
  {
    var data := codec.encode(FieldsOf(e)).value;
    var line := "data: " + data;
    assert BareTextOf(codec, Next(e)) + tail == line + ("\n" + ("" + ("\n" + tail))) by {
      Regroup(line, "\n" + ("" + "\n"), tail);
    }
    ReadsDataLine(codec, data, tail, "");
    Infers(codec, e, data);
  }

  lemma {:induction false} BareReading(codec: Codec, inputs: seq<Input>)
    requires Faithful(codec) && AllSendable(codec, inputs)
    ensures Read(codec, BareText(codec, inputs), "") == Reading(Taken(inputs), EndOfText)
  {
    if inputs != [] {
      var rest := inputs[1..];
      assert forall i :: 0 <= i < |rest| ==> rest[i] == inputs[i + 1];
      BareReading(codec, rest);
      match inputs[0]
      case Next(e) =>
        assert Sendable(codec, inputs[0].event);
        ReadsBare(codec, e, BareText(codec, rest));
      case Tick => ReadsHeartbeat(codec, BareText(codec, rest));
      case Cancelled => assert "" + BareText(codec, rest) == BareText(codec, rest);
    }
  }

  ghost predicate AllTelling(inputs: seq<Input>) {
    forall i :: 0 <= i < |inputs| && inputs[i].Next? ==> Telling(inputs[i].event)
  }

  lemma {:induction false} TakenIs(inputs: seq<Input>)
    ensures |Taken(inputs)| <= |EventsOf(inputs)|
    ensures Taken(inputs) == EventsOf(inputs) <==> AllTelling(inputs)
  {
    if inputs != [] {
      var x, rest := inputs[0], inputs[1..];
      TakenIs(rest);
      assert AllTelling(inputs) <==> (x.Next? ==> Telling(x.event)) && AllTelling(rest) by {
        assert forall i :: 1 <= i < |inputs| ==> inputs[i] == rest[i - 1];
        assert forall i :: 0 <= i < |rest| ==> rest[i] == inputs[i + 1];
      }
      if x.Next? && TakenFor(x.event).Some? {
        var y := TakenFor(x.event).value;
        assert Taken(inputs)[0] == y && Taken(inputs)[1..] == Taken(rest);
        assert EventsOf(inputs)[0] == x.event && EventsOf(inputs)[1..] == EventsOf(rest);
      }
    }
  }

  // Without event lines the events sent come out exactly when each is told by
  // its fields.
  lemma BareRoundTrip(codec: Codec, inputs: seq<Input>)
    requires Faithful(codec) && AllSendable(codec, inputs)
    ensures Read(codec, BareText(codec, inputs), "") == Reading(EventsOf(inputs), EndOfText) <==> AllTelling(inputs)
  {
    BareReading(codec, inputs);
    TakenIs(inputs);
  }

  // ---- the reader that waits for the answer (AgentChat) ----

  datatype Answer = Answer(response: string, extras: Extras) | AgentError(message: string) | ReadError(message: string)

  // The data of a line and the kind of event it is taken for.
  function ParseSSELine(codec: Codec, line: string): Option<(string, string)> {
    if !("data: " <= line) || line[6..] == "[DONE]" then None
    else
      match codec.decode(ProbeShape, line[6..])
      case None => None
      case Some(f) =>
        var kind :=
          if f.response != "" then "done"
          else if f.error != "" && f.name == "" then "error"
          else if f.content != "" then "token"
          else if f.name != "" then "tool"
          else "unknown";
        Some((kind, line[6..]))
  }

  // Decoding into the same struct again keeps the fields that are absent.
  function Merged(a: Answer, f: Fields): Answer
    requires a.Answer?
  {
    Answer(if f.response != "" then f.response else a.response, a.extras + f.extras)
  }

  // One line; anything but an Answer ends the call.
  function HearLine(codec: Codec, line: string, a: Answer): Answer
    requires a.Answer?
  {
    match ParseSSELine(codec, line)
    case None => a
    case Some((kind, data)) =>
      if kind == "done" then
        (match codec.decode(DoneShape, data)
         case Some(f) => Merged(a, f)
         case None => ReadError("parse done event"))
      else if kind == "error" then
        (match codec.decode(FailureShape, data)
         case Some(f) => if f.error != "" then AgentError(f.error) else a
         case None => a)
      else a
  }

  function Chat(codec: Codec, t: string, a: Answer, broken: Option<string>): Answer
    requires a.Answer?
    decreases |t|
  {
    var n := BreakAt(t);
    if t == "" then (if broken.Some? then ReadError(broken.value) else a)
    else if n > LINE_LIMIT then ReadError(TOO_LONG)
    else
      var b := HearLine(codec, DropCR(t[..n]), a);
      if b.Answer? then Chat(codec, AfterBreak(t, n), b, broken) else b
  }

  method AgentChat(codec: Codec, text: string, broken: Option<string>) returns (a: Answer)
    ensures a == Chat(codec, text, Answer("", map[]), broken)
  {
    a := Answer("", map[]);
    var rest := text;
    while rest != ""
      invariant a.Answer? && Chat(codec, rest, a, broken) == Chat(codec, text, Answer("", map[]), broken)
      decreases |rest|
    {
      var n := FindBreak(rest);
      if n > LINE_LIMIT {
        return ReadError(TOO_LONG);
      }
      a := HearLine(codec, DropCR(rest[..n]), a);
      if !a.Answer? {
        return;
      }
      rest := AfterBreak(rest, n);
    }
    if broken.Some? {
      return ReadError(broken.value);
    }
  }

  // The answer a list of events amounts to: the last response that is not
  // empty, unless an error comes first.
  function Amount(events: seq<Event>, a: Answer): Answer
    requires a.Answer?
  {
    if events == [] then a
    else
      match events[0]
      case Done(response, extras) =>
        Amount(events[1..], if response != "" then Answer(response, a.extras + extras) else a)
      case Failure(error) => if error != "" then AgentError(error) else Amount(events[1..], a)
      case ToolResult(name, _, error) =>
        if name == "" && error != "" then AgentError(error) else Amount(events[1..], a)
      case _ => Amount(events[1..], a)
  }

  lemma ChatsLine(codec: Codec, line: string, rest: string, a: Answer, broken: Option<string>)
    requires a.Answer? && '\n' !in line && |line| <= LINE_LIMIT
    ensures Chat(codec, line + ("\n" + rest), a, broken)
      == var b := HearLine(codec, DropCR(line), a); if b.Answer? then Chat(codec, rest, b, broken) else b
  {
    ReadsLine(codec, line, rest, "");
  }

  lemma ChatsSkipped(codec: Codec, line: string, rest: string, a: Answer, broken: Option<string>)
    requires a.Answer? && '\n' !in line && |line| <= LINE_LIMIT &&
        (line == "" || (line[0] != 'd' && line[|line| - 1] != '\r'))
    ensures Chat(codec, line + ("\n" + rest), a, broken) == Chat(codec, rest, a, broken)
  {
    ChatsLine(codec, line, rest, a, broken);
    assert DropCR(line) == line;
  }

  lemma ChatsDataLine(codec: Codec, e: Event, data: string, rest: string, a: Answer, broken: Option<string>)
    requires Faithful(codec) && codec.encode(FieldsOf(e)) == Some(data) && Fits(data) && a.Answer?
    ensures Chat(codec, ("data: " + data) + ("\n" + rest), a, broken)
      == var b := Amount([e], a); if b.Answer? then Chat(codec, rest, b, broken) else b
  {
    DataLineIsWhole(data);
    ChatsLine(codec, "data: " + data, rest, a, broken);
    Hears(codec, e, data, a);
  }

  lemma DataLineIsWhole(data: string)
    requires data != "" && data[|data| - 1] == '}' && '\n' !in data
    ensures var line := "data: " + data; DropCR(line) == line && '\n' !in line && |line| == |data| + 6
  {
    assert ("data: " + data)[|data| + 5] == '}';
  }

  lemma Hears(codec: Codec, e: Event, data: string, a: Answer)
    requires Faithful(codec) && codec.encode(FieldsOf(e)) == Some(data) && a.Answer?
    ensures HearLine(codec, "data: " + data, a) == Amount([e], a)
  {
    var line, f := "data: " + data, FieldsOf(e);
    assert line[6..] == data && "data: " <= line;
    assert "[DONE]"[0] == '[';
    assert codec.decode(ProbeShape, data) == Some(Project(ProbeShape, f));
    assert codec.decode(DoneShape, data) == Some(Project(DoneShape, f));
    assert codec.decode(FailureShape, data) == Some(Project(FailureShape, f));
    assert [e][1..] == [];
  }

  lemma ChatsInput(codec: Codec, input: Input, rest: string, a: Answer, broken: Option<string>)
    requires Faithful(codec) && a.Answer? && (input.Next? ==> Sendable(codec, input.event))
    ensures Chat(codec, TextOf(codec, input) + rest, a, broken)
      == var b := if input.Next? then Amount([input.event], a) else a;
         if b.Answer? then Chat(codec, rest, b, broken) else b
  {
    match input
    case Cancelled => assert "" + rest == rest;
    case Tick =>
      var line := ": heartbeat";
      assert HEARTBEAT + rest == line + ("\n" + ("" + ("\n" + rest)));
      ChatsSkipped(codec, line, "" + ("\n" + rest), a, broken);
      ChatsSkipped(codec, "", rest, a, broken);
    case Next(e) =>
      var data, line := codec.encode(FieldsOf(e)).value, "event: " + Kind(e);
      var tail := ("data: " + data) + ("\n" + ("" + ("\n" + rest)));
      assert EventText(Kind(e), data) + rest == line + ("\n" + tail);
      KindLine(codec, e);
      assert Kind(e)[|Kind(e)| - 1] != '\r';
      ChatsSkipped(codec, line, tail, a, broken);
      ChatsDataLine(codec, e, data, "" + ("\n" + rest), a, broken);
      var b := Amount([e], a);
      if b.Answer? { ChatsSkipped(codec, "", rest, b, broken); }
  }

  lemma AmountCons(e: Event, events: seq<Event>, a: Answer)
    requires a.Answer?
    ensures Amount([e] + events, a) == var b := Amount([e], a); if b.Answer? then Amount(events, b) else b
  {
    assert ([e] + events)[1..] == events && [e][1..] == [];
  }

  // The call returns what the events sent amount to.
  lemma {:induction false} ChatReadsTheAnswer(codec: Codec, inputs: seq<Input>, a: Answer)
    requires Faithful(codec) && AllSendable(codec, inputs) && a.Answer?
    ensures Chat(codec, Text(codec, inputs), a, None) == Amount(EventsOf(inputs), a)
  {
    if inputs != [] {
      var x, rest := inputs[0], inputs[1..];
      assert forall i :: 0 <= i < |rest| ==> rest[i] == inputs[i + 1];
      assert x.Next? ==> Sendable(codec, inputs[0].event);
      ChatsInput(codec, x, Text(codec, rest), a, None);
      var b := if x.Next? then Amount([x.event], a) else a;
      if x.Next? { AmountCons(x.event, EventsOf(rest), a); }
      if b.Answer? { ChatReadsTheAnswer(codec, rest, b); }
    }
  }

  // ---- when the two readers agree ----

  // An event that makes the collecting reader fail.
  predicate Fatal(e: Event) {
    (e.Failure? && e.error != "") || (e.ToolResult? && e.name == "" && e.error != "")
  }

  predicate NoneFatal(events: seq<Event>) {
    forall e :: e in events ==> !Fatal(e)
  }

  predicate Worded(e: Event) { e.Done? && e.response != "" }

  // The last response that is not empty.
  function LastText(events: seq<Event>): string {
    if events == [] then ""
    else if LastText(events[1..]) != "" then LastText(events[1..])
    else if Worded(events[0]) then events[0].response
    else ""
  }

  // What the final events with a response add up to besides.
  function MergedExtras(events: seq<Event>): Extras {
    if events == [] then map[]
    else (if Worded(events[0]) then events[0].extras else map[]) + MergedExtras(events[1..])
  }

  lemma Merge(a: Extras, b: Extras, c: Extras)
    ensures a + (b + c) == (a + b) + c
    ensures a + map[] == a && map[] + a == a
  {}

  lemma {:induction false} AmountIs(events: seq<Event>, a: Answer)
    requires a.Answer?
    ensures Amount(events, a).Answer? <==> NoneFatal(events)
    ensures NoneFatal(events) ==>
      var text := if LastText(events) != "" then LastText(events) else a.response;
      Amount(events, a) == Answer(text, a.extras + MergedExtras(events))
  {
    if events != [] {
      var e, rest := events[0], events[1..];
      assert NoneFatal(events) <==> !Fatal(e) && NoneFatal(rest) by {
        assert events == [e] + rest;
      }
      if !Fatal(e) {
        var b := if Worded(e) then Answer(e.response, a.extras + e.extras) else a;
        AmountIs(rest, b);
        var x: Extras := if Worded(e) then e.extras else map[];
        Merge(a.extras, x, MergedExtras(rest));
      }
    }
  }

  lemma {:induction false} LaterEventsWin(before: seq<Event>, after: seq<Event>)
    ensures MergedExtras(before + after) == MergedExtras(before) + MergedExtras(after)
    ensures LastText(before + after) == if LastText(after) != "" then LastText(after) else LastText(before)
  {
    if before == [] {
      assert before + after == after;
      Merge(MergedExtras(after), map[], map[]);
    } else {
      assert (before + after)[1..] == before[1..] + after;
      LaterEventsWin(before[1..], after);
      var x: Extras := if Worded(before[0]) then before[0].extras else map[];
      Merge(x, MergedExtras(before[1..]), MergedExtras(after));
    }
  }

  lemma {:induction false} WithoutWords(events: seq<Event>)
    ensures LastText(events) == "" <==> forall e :: e in events ==> !Worded(e)
    ensures LastText(events) == "" ==> MergedExtras(events) == map[]
  {
    if events != [] {
      WithoutWords(events[1..]);
      assert events == [events[0]] + events[1..];
    }
  }

  lemma KeepsOnlyLast(a: Extras, b: Extras)
    ensures a + b == b <==> a.Keys <= b.Keys
  {
    if a.Keys <= b.Keys {
      assert (a + b).Keys == b.Keys;
    } else {
      assert exists k :: k in a.Keys && k !in b.Keys;
      assert (a + b).Keys != b.Keys;
    }
  }

  lemma AmountIsLast(events: seq<Event>, k: nat)
    requires k < |events| && events[k].Done? && forall j :: k < j < |events| ==> !events[j].Done?
    ensures var last := events[k];
      Amount(events, Answer("", map[])) == Answer(last.response, last.extras)
      <==> NoneFatal(events)
           && if last.response != "" then MergedExtras(events[..k]).Keys <= last.extras.Keys
              else last.extras == map[] && forall e :: e in events[..k] ==> !Worded(e)
  {
    AmountIs(events, Answer("", map[]));
    LastFinalEvent(events, k);
    WithoutWords(events[..k]);
    KeepsOnlyLast(MergedExtras(events[..k]), events[k].extras);
    Merge(MergedExtras(events), map[], map[]);
    Merge(MergedExtras(events[..k]), map[], map[]);
  }

  // Of a stream whose last final event is the k-th, the collecting reader
  // returns that event - what a reader of the stream has seen last - exactly if
  // nothing in the stream is fatal to it and the event has a response and leaves
  // nothing of earlier ones in place, or it and all before it are wordless and
  // it has nothing else either.
  lemma ReadersAgreeExactlyWhen(codec: Codec, inputs: seq<Input>, k: nat)
    requires Faithful(codec) && AllSendable(codec, inputs)
    requires var events := EventsOf(inputs);
      k < |events| && events[k].Done? && forall j :: k < j < |events| ==> !events[j].Done?
    ensures var events := EventsOf(inputs); var last := events[k];
      && Read(codec, Text(codec, inputs), "").events == events
      && (Chat(codec, Text(codec, inputs), Answer("", map[]), None) == Answer(last.response, last.extras)
          <==> NoneFatal(events)
               && if last.response != "" then MergedExtras(events[..k]).Keys <= last.extras.Keys
                  else last.extras == map[] && forall e :: e in events[..k] ==> !Worded(e))
  {
    var events := EventsOf(inputs);
    RoundTrip(codec, inputs);
    ChatReadsTheAnswer(codec, inputs, Answer("", map[]));
    AmountIsLast(events, k);
  }

  lemma LastFinalEvent(events: seq<Event>, k: nat)
    requires k < |events| && events[k].Done? && forall j :: k < j < |events| ==> !events[j].Done?
    ensures var last := events[k];
      && LastText(events) == (if last.response != "" then last.response else LastText(events[..k]))
      && MergedExtras(events) == MergedExtras(events[..k]) + if last.response != "" then last.extras else map[]
  {
    var last, after := events[k], events[k + 1..];
    assert events == events[..k] + ([last] + after);
    LaterEventsWin(events[..k], [last] + after);
    LaterEventsWin([last], after);
    WithoutWords(after);
    assert [last][1..] == [];
    var x: Extras := if last.response != "" then last.extras else map[];
    assert MergedExtras([last]) == x + map[];
    Merge(x, map[], map[]);
    Merge(MergedExtras(events[..k]), x, map[]);
  }

  // A final event by itself reaches a caller of AgentChat as it was sent, as it
  // does a caller of AgentChatStream, exactly if it has a response or nothing
  // else: an answer that is not text, such as attachments alone, is lost.
  lemma WordlessAnswerIsLost(codec: Codec, e: Event)
    requires Faithful(codec) && e.Done? && Sendable(codec, e)
    ensures var text := Text(codec, [Next(e)]);
      && Read(codec, text, "").events == [e]
      && (Chat(codec, text, Answer("", map[]), None) == Answer(e.response, e.extras)
          <==> e.response != "" || e.extras == map[])
  {
    var inputs := [Next(e)];
    assert inputs[1..] == [];
    assert EventsOf(inputs) == [e];
    assert [e][..0] == [];
    ReadersAgreeExactlyWhen(codec, inputs, 0);
  }
}
