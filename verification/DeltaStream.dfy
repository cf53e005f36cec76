// Turning the CLI's cumulative text snapshots into deltas
// (pkg/claudecli/process.go, sendMessage).
module DeltaStream {
  import opened Sequences

  datatype Block = Block(kind: string, text: string, name: string)

  // One line of the subprocess' output, parsed.
  datatype Line =
    | Blank
    | Unparseable
    | Assistant(model: string, blocks: seq<Block>)
    | Result(isError: bool, result: string)
    | OtherEvent

  datatype Event =
    | Model(model: string)
    | Tool(name: string)
    | Text(text: string)
    | Error(message: string)
    | Usage

  datatype Reply = Response(text: string, model: string) | CliError(message: string) | ProcessDied

  // The text a caller of the stream puts together.
  function TextOf(events: seq<Event>): string {
    if events == [] then ""
    else TextOf(events[..|events| - 1]) + match events[|events| - 1] case Text(t) => t case _ => ""
  }

  // Locals of the read loop.
  datatype Acc = Acc(events: seq<Event>, lastText: string, model: string)

  // What is emitted for a new snapshot: the part that is new if it continues
  // the last one, otherwise all of it; nothing if nothing is new.
  function DeltaEvents(last: string, text: string): seq<Event> {
    var delta := if last <= text && last != "" then text[|last|..] else text;
    if delta == "" then [] else [Text(delta)]
  }

  function AddBlock(a: Acc, b: Block): Acc {
    if b.kind == "tool_use" && b.name != "" then a.(events := a.events + [Tool(b.name)])
    else if b.kind == "text" && b.text != "" then
      a.(events := a.events + DeltaEvents(a.lastText, b.text), lastText := b.text)
    else a
  }

  function AddBlocks(a: Acc, blocks: seq<Block>): Acc {
    if blocks == [] then a else AddBlock(AddBlocks(a, blocks[..|blocks| - 1]), blocks[|blocks| - 1])
  }

  function AddLine(a: Acc, line: Line): Acc {
    match line
    case Assistant(model, blocks) =>
      AddBlocks(if model == "" then a else a.(model := model, events := a.events + [Model(model)]), blocks)
    case _ => a
  }

  function AddLines(a: Acc, lines: seq<Line>): Acc {
    if lines == [] then a else AddLine(AddLines(a, lines[..|lines| - 1]), lines[|lines| - 1])
  }

  const START := Acc([], "", "")

  lemma {:induction false} AddBlocksKeepsModel(a: Acc, blocks: seq<Block>)
    ensures AddBlocks(a, blocks).model == a.model
  {
    if blocks != [] { AddBlocksKeepsModel(a, blocks[..|blocks| - 1]); }
  }

  // What follows the result line.
  function ResultEvents(last: string, result: string): seq<Event> {
    (if result != "" && result != last then DeltaEvents(last, result) else []) + [Usage]
  }

  predicate FirstResult(lines: seq<Line>, k: int) {
    0 <= k < |lines| && lines[k].Result? && forall j :: 0 <= j < k ==> !lines[j].Result?
  }

  // ---- the subprocess ----

  class Process {
    var alive: bool

    constructor ()
      ensures alive
    {
      alive := true;
    }

    // The content blocks of one assistant line.
    method StreamBlocks(blocks: seq<Block>, streaming: bool, lastText0: string, events0: seq<Event>, ghost a: Acc)
      returns (lastText: string, events: seq<Event>)
      requires lastText0 == a.lastText && events0 == if streaming then a.events else []
      ensures lastText == AddBlocks(a, blocks).lastText
      ensures events == if streaming then AddBlocks(a, blocks).events else []
    {
      lastText, events := lastText0, events0;
      for j := 0 to |blocks|
        invariant lastText == AddBlocks(a, blocks[..j]).lastText
        invariant events == if streaming then AddBlocks(a, blocks[..j]).events else []
      {
        assert blocks[..j + 1][..j] == blocks[..j];
        var block := blocks[j];
        if block.kind == "tool_use" && block.name != "" && streaming {
          events := events + [Tool(block.name)];
        }
        if block.kind == "text" && block.text != "" {
          if streaming {
            if lastText <= block.text && lastText != "" {
              var delta := block.text[|lastText|..];
              if delta != "" { events := events + [Text(delta)]; }
            } else if lastText == "" || !(lastText <= block.text) {
              events := events + [Text(block.text)];
            }
          }
          lastText := block.text;
        }
      }
      assert blocks[..|blocks|] == blocks;
    }

    // `streaming` is whether the caller passed a callback; `events` is what the
    // callback received.
    method SendMessage(writeOk: bool, lines: seq<Line>, streaming: bool) returns (reply: Reply, events: seq<Event>)
      modifies this
      ensures !writeOk ==> reply == ProcessDied && events == [] && !alive
      ensures writeOk && (forall k :: 0 <= k < |lines| ==> !lines[k].Result?) ==>
        reply == ProcessDied && !alive && events == if streaming then AddLines(START, lines).events else []
      ensures forall k :: writeOk && FirstResult(lines, k) ==>
        var a := AddLines(START, lines[..k]);
        && alive == old(alive)
        && reply == (if lines[k].isError then CliError(lines[k].result) else Response(lines[k].result, a.model))
        && events == (if !streaming then []
                      else if lines[k].isError then a.events + [Error(lines[k].result)]
                      else a.events + ResultEvents(a.lastText, lines[k].result))
    {
      events := [];
      if !writeOk {
        alive := false;
        return ProcessDied, events;
      }
      var model, lastText := "", "";
      for i := 0 to |lines|
        invariant alive == old(alive)
        invariant forall j :: 0 <= j < i ==> !lines[j].Result?
        invariant lastText == AddLines(START, lines[..i]).lastText && model == AddLines(START, lines[..i]).model
        invariant events == if streaming then AddLines(START, lines[..i]).events else []
      {
        assert lines[..i + 1][..i] == lines[..i];
        ghost var acc := AddLines(START, lines[..i]);
        match lines[i]
        case Assistant(m, blocks) =>
          if m != "" {
            model := m;
            if streaming { events := events + [Model(m)]; }
          }
          ghost var acc1 := if m == "" then acc else acc.(model := m, events := acc.events + [Model(m)]);
          lastText, events := StreamBlocks(blocks, streaming, lastText, events, acc1);
          assert AddLines(START, lines[..i + 1]) == AddBlocks(acc1, blocks);
          AddBlocksKeepsModel(acc1, blocks);
        case Result(isError, result) =>
          if isError {
            if streaming { events := events + [Error(result)]; }
            return CliError(result), events;
          }
          if streaming {
            if result != "" && result != lastText {
              if lastText <= result && lastText != "" {
                var remainder := result[|lastText|..];
                if remainder != "" { events := events + [Text(remainder)]; }
              } else {
                events := events + [Text(result)];
              }
            }
            events := events + [Usage];
          }
          return Response(result, model), events;
        case _ =>
      }
      assert lines[..|lines|] == lines;
      alive := false;
      return ProcessDied, events;
    }
  }

  // ---- reassembly ----

  function BlockTexts(blocks: seq<Block>): seq<string> {
    if blocks == [] then []
    else
      var b := blocks[|blocks| - 1];
      BlockTexts(blocks[..|blocks| - 1]) + if b.kind == "text" && b.text != "" then [b.text] else []
  }

  // The non-empty text snapshots, in order.
  function Snapshots(lines: seq<Line>): seq<string> {
    if lines == [] then []
    else
      Snapshots(lines[..|lines| - 1])
      + match lines[|lines| - 1] case Assistant(_, blocks) => BlockTexts(blocks) case _ => []
  }

  // Each text continues the one before.
  ghost predicate Chain(texts: seq<string>) {
    forall i :: 0 <= i < |texts| - 1 ==> texts[i] <= texts[i + 1]
  }

  // After some snapshots: the text put together so far is `extra` followed by
  // the last snapshot, and `extra` is empty exactly if they form a chain.
  ghost predicate Tracks(a: Acc, texts: seq<string>, extra: string) {
    && (forall i :: 0 <= i < |texts| ==> texts[i] != "")
    && a.lastText == (if texts == [] then "" else texts[|texts| - 1])
    && TextOf(a.events) == extra + a.lastText
    && (extra == "" <==> Chain(texts))
  }

  lemma TextOfSnoc(events: seq<Event>, e: Event)
    ensures TextOf(events + [e]) == TextOf(events) + match e case Text(t) => t case _ => ""
  {
    assert (events + [e])[..|events|] == events;
  }

  lemma ChainSnoc(texts: seq<string>, t: string)
    ensures Chain(texts + [t]) <==> Chain(texts) && (texts == [] || texts[|texts| - 1] <= t)
  {
    var all := texts + [t];
    if Chain(all) {
      forall i | 0 <= i < |texts| - 1 ensures texts[i] <= texts[i + 1] {
        assert all[i] <= all[i + 1];
      }
      if texts != [] { assert all[|texts| - 1] <= all[|texts|]; }
    }
  }

  // Emitting the delta for t, whether it comes from a block or the result.
  lemma DeltaStep(a: Acc, texts: seq<string>, t: string, extra: string) returns (extra': string)
    requires Tracks(a, texts, extra) && t != ""
    ensures Tracks(a.(events := a.events + DeltaEvents(a.lastText, t), lastText := t), texts + [t], extra')
  {
    var last := a.lastText;
    ChainSnoc(texts, t);
    if last <= t && last != "" {
      extra' := extra;
      var delta := t[|last|..];
      assert last + delta == t;
      Regroup(extra, last, delta);
      if delta != "" {
        TextOfSnoc(a.events, Text(delta));
      } else {
        assert a.events + [] == a.events;
      }
    } else {
      extra' := extra + last;
      assert last == "" ==> extra == "";
      TextOfSnoc(a.events, Text(t));
    }
  }

  lemma SilentStep(a: Acc, texts: seq<string>, e: Event, a': Acc, extra: string)
    requires Tracks(a, texts, extra) && !e.Text? && a'.events == a.events + [e] && a'.lastText == a.lastText
    ensures Tracks(a', texts, extra)
  {
    TextOfSnoc(a.events, e);
  }

  lemma BlockTracks(a: Acc, texts: seq<string>, b: Block, extra: string) returns (extra': string)
    requires Tracks(a, texts, extra)
    ensures Tracks(AddBlock(a, b), if b.kind == "text" && b.text != "" then texts + [b.text] else texts, extra')
  {
    extra' := extra;
    if b.kind == "tool_use" && b.name != "" {
      SilentStep(a, texts, Tool(b.name), AddBlock(a, b), extra);
    } else if b.kind == "text" && b.text != "" {
      extra' := DeltaStep(a, texts, b.text, extra);
    }
  }

  lemma {:induction false} BlocksTrack(a: Acc, texts: seq<string>, blocks: seq<Block>, extra: string)
      returns (extra': string)
    requires Tracks(a, texts, extra)
    ensures Tracks(AddBlocks(a, blocks), texts + BlockTexts(blocks), extra')
  {
    if blocks == [] {
      assert texts + [] == texts;
      extra' := extra;
    } else {
      var init, b := blocks[..|blocks| - 1], blocks[|blocks| - 1];
      extra' := BlocksTrack(a, texts, init, extra);
      var t1 := texts + BlockTexts(init);
      extra' := BlockTracks(AddBlocks(a, init), t1, b, extra');
      assert texts + BlockTexts(blocks) == if b.kind == "text" && b.text != "" then t1 + [b.text] else t1;
    }
  }

  lemma {:induction false} LinesTrack(lines: seq<Line>) returns (extra: string)
    ensures Tracks(AddLines(START, lines), Snapshots(lines), extra)
  {
    extra := "";
    if lines != [] {
      var init, line := lines[..|lines| - 1], lines[|lines| - 1];
      extra := LinesTrack(init);
      var a := AddLines(START, init);
      match line
      case Assistant(model, blocks) =>
        var a1 := if model == "" then a else a.(model := model, events := a.events + [Model(model)]);
        if model != "" { SilentStep(a, Snapshots(init), Model(model), a1, extra); }
        extra := BlocksTrack(a1, Snapshots(init), blocks, extra);
      case _ =>
        assert Snapshots(init) + [] == Snapshots(init);
    }
  }

  // The text events put together are the result exactly if the snapshots and a
  // non-empty result form a chain of continuations; an empty result is met
  // only by an empty stream.
  lemma DeltasReassembleTheResult(lines: seq<Line>, result: string)
    ensures var a := AddLines(START, lines);
      TextOf(a.events + ResultEvents(a.lastText, result)) == result
      <==> if result == "" then Snapshots(lines) == [] else Chain(Snapshots(lines) + [result])
  {
    var extra := LinesTrack(lines);
    var a := AddLines(START, lines);
    UsageIsSilent(a, result);
    ResultTracks(a, Snapshots(lines), extra, result);
  }

  lemma UsageIsSilent(a: Acc, result: string)
    ensures TextOf(a.events + ResultEvents(a.lastText, result))
      == TextOf(a.events + if result != "" && result != a.lastText then DeltaEvents(a.lastText, result) else [])
  {
    var last := if result != "" && result != a.lastText then DeltaEvents(a.lastText, result) else [];
    Regroup(a.events, last, [Usage]);
    TextOfSnoc(a.events + last, Usage);
  }

  lemma ResultTracks(a: Acc, texts: seq<string>, extra: string, result: string)
    requires Tracks(a, texts, extra)
    ensures
      TextOf(a.events + if result != "" && result != a.lastText then DeltaEvents(a.lastText, result) else []) == result
      <==> if result == "" then texts == [] else Chain(texts + [result])
  {
    assert a.events + [] == a.events;
    if result == "" {
      assert texts == [] ==> Chain(texts);
    } else if result == a.lastText {
      ChainSnoc(texts, result);
      assert extra + result == result <==> extra == "";
    } else {
      var extra' := DeltaStep(a, texts, result, extra);
      assert extra' + result == result <==> extra' == "";
    }
  }

  // ---- events that are not text ----

  function Silent(events: seq<Event>): seq<Event> {
    if events == [] then []
    else
      var e := events[|events| - 1];
      Silent(events[..|events| - 1]) + if e.Text? then [] else [e]
  }

  predicate NoEmptyText(events: seq<Event>) {
    Text("") !in events
  }

  lemma SilentSnoc(events: seq<Event>, e: Event)
    ensures Silent(events + [e]) == Silent(events) + if e.Text? then [] else [e]
    ensures NoEmptyText(events + [e]) <==> NoEmptyText(events) && e != Text("")
  {
    assert (events + [e])[..|events|] == events;
  }

  // The named tools among the blocks.
  function ToolOf(b: Block): seq<Event> {
    if b.kind == "tool_use" && b.name != "" then [Tool(b.name)] else []
  }

  function ToolsOf(blocks: seq<Block>): seq<Event> {
    if blocks == [] then [] else ToolsOf(blocks[..|blocks| - 1]) + ToolOf(blocks[|blocks| - 1])
  }

  // A model where a line names one, and the tools of the line after it.
  function Shown(lines: seq<Line>): seq<Event> {
    if lines == [] then []
    else
      Shown(lines[..|lines| - 1])
      + match lines[|lines| - 1]
        case Assistant(model, blocks) => (if model == "" then [] else [Model(model)]) + ToolsOf(blocks)
        case _ => []
  }

  function LastModel(lines: seq<Line>): string {
    if lines == [] then ""
    else
      var line := lines[|lines| - 1];
      if line.Assistant? && line.model != "" then line.model else LastModel(lines[..|lines| - 1])
  }

  lemma DeltaIsSilent(events: seq<Event>, last: string, text: string)
    requires NoEmptyText(events)
    ensures var r := events + DeltaEvents(last, text); Silent(r) == Silent(events) && NoEmptyText(r)
  {
    var delta := if last <= text && last != "" then text[|last|..] else text;
    SilentSnoc(events, Text(delta));
    assert events + [] == events && Silent(events) + [] == Silent(events);
  }

  lemma BlockShows(a: Acc, b: Block)
    requires NoEmptyText(a.events)
    ensures var m := AddBlock(a, b); Silent(m.events) == Silent(a.events) + ToolOf(b) && NoEmptyText(m.events)
  {
    assert Silent(a.events) + [] == Silent(a.events);
    SilentSnoc(a.events, Tool(b.name));
    DeltaIsSilent(a.events, a.lastText, b.text);
  }

  lemma {:induction false} BlocksShow(a: Acc, blocks: seq<Block>)
    requires NoEmptyText(a.events)
    ensures Silent(AddBlocks(a, blocks).events) == Silent(a.events) + ToolsOf(blocks)
    ensures NoEmptyText(AddBlocks(a, blocks).events)
  {
    if blocks != [] {
      var init, b := blocks[..|blocks| - 1], blocks[|blocks| - 1];
      BlocksShow(a, init);
      BlockShows(AddBlocks(a, init), b);
      Regroup(Silent(a.events), ToolsOf(init), ToolOf(b));
    }
  }

  lemma LineShows(a: Acc, model: string, blocks: seq<Block>)
    requires NoEmptyText(a.events)
    ensures var b := AddLine(a, Assistant(model, blocks));
      && Silent(b.events) == Silent(a.events) + (if model == "" then [] else [Model(model)]) + ToolsOf(blocks)
      && NoEmptyText(b.events) && b.model == if model == "" then a.model else model
  {
    var named := if model == "" then a else a.(model := model, events := a.events + [Model(model)]);
    SilentSnoc(a.events, Model(model));
    assert Silent(a.events) + [] == Silent(a.events);
    BlocksShow(named, blocks);
    AddBlocksKeepsModel(named, blocks);
  }

  // Besides text, the stream carries one event for every model named and one for
  // every named tool, in order, and no text event is empty; the model of the
  // reply is the last one named.
  lemma {:induction false} LinesShow(lines: seq<Line>)
    ensures var a := AddLines(START, lines);
      Silent(a.events) == Shown(lines) && NoEmptyText(a.events) && a.model == LastModel(lines)
  {
    if lines != [] {
      var init, line := lines[..|lines| - 1], lines[|lines| - 1];
      LinesShow(init);
      var a := AddLines(START, init);
      match line
      case Assistant(model, blocks) =>
        LineShows(a, model, blocks);
        Regroup(Shown(init), if model == "" then [] else [Model(model)], ToolsOf(blocks));
      case _ =>
        assert Shown(init) + [] == Shown(init);
    }
  }

  // A result adds text at most, and the usage as the last event.
  lemma ResultShows(lines: seq<Line>, result: string)
    ensures var a := AddLines(START, lines);
      var events := a.events + ResultEvents(a.lastText, result);
      Silent(events) == Shown(lines) + [Usage] && NoEmptyText(events) && events[|events| - 1] == Usage
  {
    LinesShow(lines);
    var a := AddLines(START, lines);
    var rest := if result != "" && result != a.lastText then DeltaEvents(a.lastText, result) else [];
    DeltaIsSilent(a.events, a.lastText, result);
    assert a.events + [] == a.events;
    Regroup(a.events, rest, [Usage]);
    SilentSnoc(a.events + rest, Usage);
  }
}
