// What a whole stream comes to: when it fails, what is announced besides the
// text, and how the text is cut up.
module RelayRuns {
  import opened MediaMarkers
  import opened Relay
  import opened Wrappers

  // ---- failures ----

  predicate FirstFailure(evs: seq<Event>, k: int) {
    0 <= k < |evs| && evs[k].Failure? && forall j :: 0 <= j < k ==> !evs[j].Failure?
  }

  // A stream fails exactly if it has an error event: with the message of the
  // first, and having published what the events before it had published.
  lemma FailsExactlyWhen(evs: seq<Event>, dec: Decoder)
    ensures Run(evs, dec).failed.None? <==> NoFailure(evs)
    ensures forall k :: FirstFailure(evs, k) ==>
      NoFailure(evs[..k]) && Run(evs, dec) == Run(evs[..k], dec).(failed := Some(evs[k].message))
  {
    FailsIfFailure(evs, dec);
    forall k | FirstFailure(evs, k)
      ensures NoFailure(evs[..k]) && Run(evs, dec) == Run(evs[..k], dec).(failed := Some(evs[k].message))
    {
      RunConserves(evs[..k], dec);
      assert evs[..k + 1][..k] == evs[..k];
      FailureIsFinal(evs, k + 1, dec);
    }
  }

  // ---- what is announced besides the text ----

  function Notices(emissions: seq<Emission>): seq<Emission> {
    if emissions == [] then []
    else
      var e := emissions[|emissions| - 1];
      Notices(emissions[..|emissions| - 1]) + if e.Chunk? then [] else [e]
  }

  // One line for each tool event.
  function Notice(ev: Event): seq<Emission> {
    if ev.ToolCall? then [Using(ev.name)]
    else if ev.ToolResult? && ev.error == "" then [GotResult(ev.name)]
    else if ev.ToolResult? then [ErrorFrom(ev.name)]
    else []
  }

  function Announced(evs: seq<Event>): seq<Emission> {
    if evs == [] then [] else Announced(evs[..|evs| - 1]) + Notice(evs[|evs| - 1])
  }

  lemma NoticesSnoc(emissions: seq<Emission>, e: Emission)
    ensures Notices(emissions + [e]) == Notices(emissions) + if e.Chunk? then [] else [e]
  {
    assert (emissions + [e])[..|emissions|] == emissions;
  }

  lemma EmitAddsNoNotice(s: State, text: string, dec: Decoder)
    ensures Notices(Emit(s, text, dec).emissions) == Notices(s.emissions)
  {
    NoticesSnoc(s.emissions, Chunk(Unescape(Resolve(text, dec).text)));
    assert Notices(s.emissions) + [] == Notices(s.emissions);
  }

  lemma StepNotices(s: State, ev: Event, dec: Decoder)
    requires s.failed == None
    ensures Notices(Step(s, ev, dec).emissions) == Notices(s.emissions) + Notice(ev)
  {
    var f := Filled(s, ev);
    EmitAddsNoNotice(f, SplitAtPartialMarker(f.pending).0, dec);
    assert Notices(Flush(f, dec).emissions) == Notices(s.emissions);
    NotedNotices(f, ev);
    NotedNotices(Flush(f, dec), ev);
  }

  lemma NotedNotices(s: State, ev: Event)
    ensures Notices(Noted(s, ev).emissions) == Notices(s.emissions) + Notice(ev)
  {
    assert Notices(s.emissions) + [] == Notices(s.emissions);
    match ev
    case ToolCall(name) =>
      NoticesSnoc(s.emissions, Using(name));
    case ToolResult(name, error) =>
      NoticesSnoc(s.emissions, if error != "" then ErrorFrom(name) else GotResult(name));
    case _ =>
  }

  // Each tool event is announced once, in order, and nothing else is.
  lemma {:induction false} NoticesAreTheTools(evs: seq<Event>, dec: Decoder)
    requires NoFailure(evs)
    ensures Notices(Run(evs, dec).emissions) == Announced(evs)
    ensures Notices(Closed(Run(evs, dec), dec).emissions) == Announced(evs)
  {
    if evs != [] {
      var init, ev := evs[..|evs| - 1], evs[|evs| - 1];
      NoticesAreTheTools(init, dec);
      RunConserves(init, dec);
      StepNotices(Run(init, dec), ev, dec);
    }
    EmitAddsNoNotice(Run(evs, dec), Run(evs, dec).pending, dec);
  }

  // A tool call is announced after the text before it: what is still pending is
  // too short to be sent by itself, or a marker still being received.
  lemma ToolCallFollowsTheText(evs: seq<Event>, dec: Decoder)
    requires NoFailure(evs) && evs != [] && evs[|evs| - 1].ToolCall?
    ensures var s := Run(evs, dec);
      && s.emissions != [] && s.emissions[|s.emissions| - 1] == Using(evs[|evs| - 1].name)
      && (|s.pending| < CHUNK_MIN || Unterminated(s.pending))
  {
    var init := evs[..|evs| - 1];
    RunConserves(init, dec);
    FlushBounds(Run(init, dec), dec);
  }

  // ---- whether anything was streamed ----

  predicate SaysSo(s: State) {
    s.chunksEmitted <==> exists e :: e in s.emissions && e.Chunk?
  }

  lemma EmitSaysSo(s: State, text: string, dec: Decoder)
    requires SaysSo(s)
    ensures SaysSo(Emit(s, text, dec))
  {
    var t := Emit(s, text, dec);
    if Resolve(text, dec).text != "" { assert t.emissions[|s.emissions|] in t.emissions; }
  }

  lemma StepSaysSo(s: State, ev: Event, dec: Decoder)
    requires SaysSo(s)
    ensures SaysSo(Step(s, ev, dec))
  {
    var f := Filled(s, ev);
    EmitSaysSo(f, SplitAtPartialMarker(f.pending).0, dec);
  }

  // The reply says truly whether a piece of text was sent ahead.
  lemma {:induction false} ReplySaysSo(evs: seq<Event>, dec: Decoder)
    ensures SaysSo(Run(evs, dec)) && SaysSo(Closed(Run(evs, dec), dec))
    ensures ReplyOf(Closed(Run(evs, dec), dec), dec).chunksEmitted
      <==> exists e :: e in Closed(Run(evs, dec), dec).emissions && e.Chunk?
  {
    if evs != [] {
      ReplySaysSo(evs[..|evs| - 1], dec);
      StepSaysSo(Run(evs[..|evs| - 1], dec), evs[|evs| - 1], dec);
    }
    EmitSaysSo(Run(evs, dec), Run(evs, dec).pending, dec);
  }

  // ---- how the text is cut up ----

  // The length below which text waits for the end of the stream.
  function Patience(evs: seq<Event>): nat {
    if exists ev :: ev in evs && ev.ToolCall? then 50 else 500
  }

  lemma {:induction false} ShortTextWaits(evs: seq<Event>, dec: Decoder, limit: nat)
    requires NoFailure(evs) && |Tokens(evs)| < limit <= CHUNK_MAX
    requires limit <= CHUNK_MIN || forall ev :: ev in evs ==> !ev.ToolCall?
    ensures Run(evs, dec).pending == Tokens(evs) && Run(evs, dec).raw == []
  {
    if evs != [] {
      var init, ev := evs[..|evs| - 1], evs[|evs| - 1];
      ShortTextWaits(init, dec, limit);
      RunConserves(init, dec);
      assert !FlushesOn(Run(init, dec), ev);
    }
  }

  // A short text goes out whole, when the stream has ended.
  lemma ShortTextIsOneChunk(evs: seq<Event>, dec: Decoder)
    requires NoFailure(evs) && |Tokens(evs)| < Patience(evs)
    ensures Closed(Run(evs, dec), dec).raw == if Tokens(evs) == "" then [] else [Tokens(evs)]
    ensures Messages(Run(evs, dec).emissions) == ""
  {
    ShortTextWaits(evs, dec, Patience(evs));
    RunPublishes(evs, dec);
  }

  // A text that is not short does not wait: with 500 bytes pending and no
  // marker open all of it goes out.
  lemma LongTextGoesOut(evs: seq<Event>, more: string, dec: Decoder)
    requires NoFailure(evs) && '{' !in Run(evs, dec).pending + more
    requires |Run(evs, dec).pending + more| >= CHUNK_MAX
    ensures var s := Run(evs + [Token(more)], dec);
      s.pending == "" && s.raw == Run(evs, dec).raw + [Run(evs, dec).pending + more]
  {
    assert (evs + [Token(more)])[..|evs|] == evs;
    RunConserves(evs, dec);
    FlushesWhole(Filled(Run(evs, dec), Token(more)), dec);
  }

  // ---- at signs ----

  function Doubled(t: string): string {
    if t == "" then "" else (if t[0] == '@' then "@@" else [t[0]]) + Doubled(t[1..])
  }

  // Unescaping undoes the doubling of at signs.
  lemma {:induction false} UnescapeUndoesDoubling(t: string)
    ensures Unescape(Doubled(t)) == t
    ensures '@' !in t ==> Doubled(t) == t
  {
    if t != "" {
      var d, rest := Doubled(t), Doubled(t[1..]);
      UnescapeUndoesDoubling(t[1..]);
      if t[0] == '@' {
        assert d[2..] == rest;
      } else {
        assert d[1..] == rest;
        if |d| < 2 { assert rest == "" && t[1..] == ""; }
      }
      assert t == [t[0]] + t[1..];
    }
  }
}
