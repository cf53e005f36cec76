// The relay's streaming loop (plugins/infra-agent-relay/main.go,
// callAgentStream): token events are buffered and handed on in chunks whose
// media markers are already resolved.
module Relay {
  import opened MediaMarkers
  import opened Sequences
  import opened Wrappers

  const CHUNK_MAX := 500
  const CHUNK_MIN := 50

  datatype Event =
    | Token(content: string)
    | ToolCall(name: string)
    | ToolResult(name: string, error: string)
    | Done(response: string, attachments: seq<Attachment>)
    | Failure(message: string)

  // What is published on the progress topic.
  datatype Emission = Chunk(message: string) | Using(name: string) | GotResult(name: string) | ErrorFrom(name: string)

  // raw lists the texts handed to emitChunk; final is the last Done event.
  datatype State = State(
    full: string, pending: string, raw: seq<string>, emissions: seq<Emission>, attachments: seq<Attachment>,
    chunksEmitted: bool, final: Option<Event>, failed: Option<string>)

  datatype Reply = Reply(response: string, attachments: seq<Attachment>, chunksEmitted: bool)

  // strings.ReplaceAll(t, "@@", "@")
  function Unescape(t: string): string {
    if |t| < 2 then t
    else if t[0] == '@' && t[1] == '@' then ['@'] + Unescape(t[2..])
    else [t[0]] + Unescape(t[1..])
  }

  // ---- the specification ----

  function Emit(s: State, text: string, dec: Decoder): State {
    var r := Resolve(text, dec);
    var t := s.(raw := s.raw + [text], attachments := s.attachments + r.attachments);
    if r.text == "" then t
    else t.(emissions := s.emissions + [Chunk(Unescape(r.text))], chunksEmitted := true)
  }

  function Flush(s: State, dec: Decoder): State {
    if |s.pending| < CHUNK_MIN then s
    else
      var (safe, held) := SplitAtPartialMarker(s.pending);
      if safe == "" then s else Emit(s, safe, dec).(pending := held)
  }

  function Filled(s: State, ev: Event): State {
    if ev.Token? then s.(full := s.full + ev.content, pending := s.pending + ev.content) else s
  }

  predicate FlushesOn(s: State, ev: Event) {
    || (ev.Token? && |Filled(s, ev).pending| >= CHUNK_MAX)
    || (ev.ToolCall? && |s.pending| >= CHUNK_MIN)
  }

  function Noted(s: State, ev: Event): State {
    match ev
    case Token(_) => s
    case ToolCall(name) => s.(emissions := s.emissions + [Using(name)])
    case ToolResult(name, error) =>
      s.(emissions := s.emissions + [if error != "" then ErrorFrom(name) else GotResult(name)])
    case Done(_, _) => s.(final := Some(ev))
    case Failure(message) => s.(failed := Some(message))
  }

  // A failure ends the loop.
  function Step(s: State, ev: Event, dec: Decoder): State {
    if s.failed.Some? then s
    else if FlushesOn(s, ev) then Noted(Flush(Filled(s, ev), dec), ev)
    else Noted(Filled(s, ev), ev)
  }

  const START := State("", "", [], [], [], false, None, None)

  function Run(evs: seq<Event>, dec: Decoder): State {
    if evs == [] then START else Step(Run(evs[..|evs| - 1], dec), evs[|evs| - 1], dec)
  }

  // The flush after the stream has closed has no minimum length.
  function Closed(s: State, dec: Decoder): State {
    if s.pending == "" then s else Emit(s, s.pending, dec).(pending := "")
  }

  function ReplyOf(s: State, dec: Decoder): Reply {
    var last := if s.final.Some? && s.final.value.Done? then s.final.value else Done("", []);
    var r := Resolve(if last.response == "" then s.full else last.response, dec);
    Reply(dec.trim(r.text), last.attachments + s.attachments + r.attachments, s.chunksEmitted)
  }

  // ---- the implementation ----

  class Chunker {
    const dec: Decoder
    var full: string
    var pending: string
    ghost var raw: seq<string>
    var emissions: seq<Emission>
    var attachments: seq<Attachment>
    var chunksEmitted: bool
    var final: Option<Event>
    var failed: Option<string>

    ghost function View(): State
      reads this
    {
      State(full, pending, raw, emissions, attachments, chunksEmitted, final, failed)
    }

    constructor (dec: Decoder)
      ensures View() == START && this.dec == dec
    {
      this.dec := dec;
      full, pending, raw, emissions, attachments := "", "", [], [], [];
      chunksEmitted, final, failed := false, None, None;
    }

    method EmitChunk(text: string)
      modifies this
      ensures View() == Emit(old(View()), text, dec)
    {
      raw := raw + [text];
      var cleaned, atts := ResolveMediaMarkers(text, dec);
      assert Resolved(cleaned, atts) == Resolve(text, dec);
      attachments := attachments + atts;
      if cleaned != "" {
        emissions := emissions + [Chunk(Unescape(cleaned))];
        chunksEmitted := true;
      }
    }

    method FlushChunk()
      modifies this
      ensures View() == Flush(old(View()), dec)
    {
      if |pending| >= CHUNK_MIN {
        var (safe, held) := SplitAtPartialMarker(pending);
        if safe != "" {
          EmitChunk(safe);
          pending := held;
        }
      }
    }

    method OnEvent(ev: Event)
      requires failed == None
      modifies this
      ensures View() == Step(old(View()), ev, dec)
    {
      match ev
      case Token(content) =>
        full := full + content;
        pending := pending + content;
        if |pending| >= CHUNK_MAX {
          FlushChunk();
        }
      case ToolCall(name) =>
        if |pending| >= CHUNK_MIN {
          FlushChunk();
        }
        emissions := emissions + [Using(name)];
      case ToolResult(name, error) =>
        emissions := emissions + [if error != "" then ErrorFrom(name) else GotResult(name)];
      case Done(_, _) =>
        final := Some(ev);
      case Failure(message) =>
        failed := Some(message);
    }

    // The loop over the events, up to the first error.
    method CallAgentStream(evs: seq<Event>) returns (reply: Option<Reply>)
      requires View() == START
      modifies this
      ensures reply.Some? <==> NoFailure(evs)
      ensures reply == None ==> View() == Run(evs, dec)
      ensures reply.Some? ==>
        View() == Closed(Run(evs, dec), dec) && reply == Some(ReplyOf(Closed(Run(evs, dec), dec), dec))
    {
      FailsIfFailure(evs, dec);
      for i := 0 to |evs|
        invariant View() == Run(evs[..i], dec) && failed == None
      {
        assert evs[..i + 1][..i] == evs[..i];
        OnEvent(evs[i]);
        if failed.Some? {
          FailureIsFinal(evs, i + 1, dec);
          return None;
        }
      }
      assert evs[..|evs|] == evs;
      var r := Finish();
      reply := Some(r);
    }

    // What follows the end of the stream.
    method Finish() returns (reply: Reply)
      modifies this
      ensures View() == Closed(old(View()), dec) && reply == ReplyOf(View(), dec)
    {
      if pending != "" {
        EmitChunk(pending);
        pending := "";
      }
      var last := if final.Some? && final.value.Done? then final.value else Done("", []);
      var text := if last.response == "" then full else last.response;
      var cleaned, atts := ResolveMediaMarkers(text, dec);
      assert Resolved(cleaned, atts) == Resolve(text, dec);
      reply := Reply(dec.trim(cleaned), last.attachments + attachments + atts, chunksEmitted);
    }
  }

  lemma {:induction false} FailureIsFinal(evs: seq<Event>, n: nat, dec: Decoder)
    requires n <= |evs| && Run(evs[..n], dec).failed.Some?
    ensures Run(evs, dec) == Run(evs[..n], dec)
  {
    if n < |evs| {
      var init := evs[..|evs| - 1];
      assert init[..n] == evs[..n];
      FailureIsFinal(init, n, dec);
    } else {
      assert evs[..n] == evs;
    }
  }

  predicate NoFailure(evs: seq<Event>) {
    forall ev :: ev in evs ==> !ev.Failure?
  }

  lemma StepFails(s: State, ev: Event, dec: Decoder)
    ensures Step(s, ev, dec).failed.Some? <==> s.failed.Some? || ev.Failure?
  {}

  lemma {:induction false} FailsIfFailure(evs: seq<Event>, dec: Decoder)
    ensures Run(evs, dec).failed.None? <==> NoFailure(evs)
  {
    if evs != [] {
      var init, ev := evs[..|evs| - 1], evs[|evs| - 1];
      FailsIfFailure(init, dec);
      StepFails(Run(init, dec), ev, dec);
      assert evs == init + [ev];
    }
  }

  // ---- nothing is lost ----

  function Tokens(evs: seq<Event>): string {
    if evs == [] then ""
    else if evs[|evs| - 1].Token? then Tokens(evs[..|evs| - 1]) + evs[|evs| - 1].content
    else Tokens(evs[..|evs| - 1])
  }

  function Concat(texts: seq<string>): string {
    if texts == [] then "" else Concat(texts[..|texts| - 1]) + texts[|texts| - 1]
  }

  function CleanedText(texts: seq<string>, dec: Decoder): string {
    if texts == [] then ""
    else CleanedText(texts[..|texts| - 1], dec) + Resolve(texts[|texts| - 1], dec).text
  }

  lemma ConcatSnoc(texts: seq<string>, t: string, dec: Decoder)
    ensures Concat(texts + [t]) == Concat(texts) + t
    ensures CleanedText(texts + [t], dec) == CleanedText(texts, dec) + Resolve(t, dec).text
  {
    assert (texts + [t])[..|texts|] == texts;
  }

  lemma FlushConserves(s: State, dec: Decoder)
    ensures var f := Flush(s, dec);
      f.failed == s.failed && f.full == s.full && Concat(f.raw) + f.pending == Concat(s.raw) + s.pending
  {
    SplitConserves(s.pending);
    var (safe, held) := SplitAtPartialMarker(s.pending);
    ConcatSnoc(s.raw, safe, dec);
    Regroup(Concat(s.raw), safe, held);
  }

  lemma StepConserves(s: State, ev: Event, dec: Decoder)
    requires !ev.Failure? && s.failed == None
    ensures var n := Step(s, ev, dec); var f := Filled(s, ev);
      n.failed == None && n.full == f.full && Concat(n.raw) + n.pending == Concat(s.raw) + f.pending
  {
    var f := Filled(s, ev);
    FlushConserves(f, dec);
    NotingKeeps(f, ev);
    NotingKeeps(Flush(f, dec), ev);
  }

  lemma NotingKeeps(s: State, ev: Event)
    requires !ev.Failure?
    ensures var n := Noted(s, ev);
      && n.full == s.full && n.pending == s.pending && n.raw == s.raw
      && n.attachments == s.attachments && n.failed == s.failed
  {}

  lemma {:induction false} RunConserves(evs: seq<Event>, dec: Decoder)
    requires NoFailure(evs)
    ensures var s := Run(evs, dec);
      s.failed == None && s.full == Tokens(evs) && Concat(s.raw) + s.pending == Tokens(evs)
  {
    if evs != [] {
      var init, ev := evs[..|evs| - 1], evs[|evs| - 1];
      RunConserves(init, dec);
      var s := Run(init, dec);
      StepConserves(s, ev, dec);
      if ev.Token? { Regroup(Concat(s.raw), s.pending, ev.content); }
    }
  }

  // The texts handed to emitChunk are exactly the tokens received, cut up.
  lemma ChunksAreTheTokens(evs: seq<Event>, dec: Decoder)
    requires NoFailure(evs)
    ensures Concat(Closed(Run(evs, dec), dec).raw) == Tokens(evs)
  {
    RunConserves(evs, dec);
    var s := Run(evs, dec);
    ConcatSnoc(s.raw, s.pending, dec);
  }

  // ---- chunked resolution agrees with whole-text resolution ----

  // The attachments of the markers in a well-formed text, order forgotten.
  function Bag(items: seq<Item>, dec: Decoder): multiset<Attachment> {
    if items == [] then multiset{}
    else Bag1(items[0], dec) + Bag(items[1..], dec)
  }

  function Bag1(x: Item, dec: Decoder): multiset<Attachment> {
    match x
    case Plain(_) => multiset{}
    case Media(body) => multiset{dec.media(body)}
    case Url(body) => (match dec.url(body) case Some(a) => multiset{a} case None => multiset{})
  }

  predicate LoneBrace(b: string) {
    EndsOpen(b) && !(|b| >= 2 && b[|b| - 2] == '{')
  }

  // A flush sees a buffer ending between the two braces of an opener.
  predicate CutsOpener(evs: seq<Event>, dec: Decoder) {
    evs != [] &&
    var init, ev := evs[..|evs| - 1], evs[|evs| - 1];
    || CutsOpener(init, dec)
    || (FlushesOn(Run(init, dec), ev) && LoneBrace(Filled(Run(init, dec), ev).pending))
  }

  // ---- splitting the list of items at a flush ----

  // LastIndex is the position of an opener after which there is none.
  lemma OpenerIsLast(t: string, i: nat)
    requires OpensAt(t, i) && forall j :: i < j ==> !OpensAt(t, j)
    ensures LastOpener(t) == Some(i)
  {
    LastOpenerIs(t);
  }

  // The braces of an item are those of its marker.
  lemma BracesOfItem(x: Item, j: nat)
    requires ValidItem(x) && j < |Render1(x)|
    ensures var r := Render1(x);
      && (r[j] == '{' <==> !x.Plain? && j < 2)
      && (r[j] == '}' <==> !x.Plain? && j >= |r| - 2)
  {
    var r := Render1(x);
    match x
    case Plain(s) => assert r[j] in s;
    case Media(body) => MarkerBraces(MEDIA, body, j);
    case Url(body) => MarkerBraces(URL, body, j);
  }

  lemma MarkerBraces(opener: string, body: string, j: nat)
    requires IsOpener(opener) && BraceFree(body) && j < |opener| + |body| + 2
    ensures var r := opener + (body + "}}");
      (r[j] == '{' <==> j < 2) && (r[j] == '}' <==> j >= |r| - 2)
  {
    var r := opener + (body + "}}");
    if j < |opener| {
      assert r[j] == opener[j];
    } else {
      assert r[j] == (body + "}}")[j - |opener|];
      if j < |opener| + |body| { assert r[j] in body; }
    }
  }

  lemma RenderedOpeners(x: Item, b: string)
    requires ValidItem(x)
    ensures var t := Render1(x) + b; var n := |Render1(x)|;
      && (forall j :: j >= n ==> (OpensAt(t, j) <==> OpensAt(b, j - n)))
      && (forall j :: 0 < j < n ==> !OpensAt(t, j))
      && (OpensAt(t, 0) && n > 0 <==> !x.Plain?)
  {
    var r := Render1(x);
    var t := r + b;
    forall j | 0 <= j < |r| ensures t[j] == r[j] && (r[j] == '{' <==> !x.Plain? && j < 2) {
      BracesOfItem(x, j);
    }
    if !x.Plain? { assert |r| > 2; }
  }

  lemma SplitAtOpener(r: string, b: string, i: nat)
    requires LastOpener(b) == Some(i) && LastOpener(r + b) == Some(|r| + i)
    ensures var (safe, held) := SplitAtPartialMarker(b);
      SplitAtPartialMarker(r + b) == (r + safe, held)
  {
    LastOpenerIs(b);
    assert (r + b)[|r| + i..] == b[i..];
    assert (r + b)[..|r| + i] == r + b[..i];
    assert b == b[..i] + b[i..];
  }

  lemma NothingHeld(x: Item, b: string)
    requires ValidItem(x) && LastOpener(b) == None
    ensures SplitAtPartialMarker(Render1(x) + b) == (Render1(x) + b, "")
  {
    var t := Render1(x) + b;
    LastOpenerIs(b);
    LastOpenerIs(t);
    RenderedOpeners(x, b);
    if !x.Plain? {
      OpenerIsLast(t, 0);
      assert t[0..] == t;
      assert ClosesAt(t, |Render1(x)| - 2);
    }
  }

  lemma SplitAfterItem(x: Item, b: string)
    requires ValidItem(x)
    ensures var (safe, held) := SplitAtPartialMarker(b);
      SplitAtPartialMarker(Render1(x) + b) == (Render1(x) + safe, held)
  {
    var r := Render1(x);
    match LastOpener(b)
    case Some(i) =>
      LastOpenerIs(b);
      RenderedOpeners(x, b);
      OpenerIsLast(r + b, |r| + i);
      SplitAtOpener(r, b, i);
    case None =>
      NothingHeld(x, b);
  }

  lemma SplitPartialMarker(x: Item, b: string)
    requires ValidItem(x) && !x.Plain? && b < Render1(x) && b != ""
    ensures SplitAtPartialMarker(b) == if LoneBrace(b) then (b, "") else ("", b)
    ensures LoneBrace(b) <==> |b| == 1
  {
    forall j | 0 <= j < |b| ensures (b[j] == '{' <==> j < 2) && (b[j] == '}' ==> j >= |Render1(x)| - 2) {
      BracesOfItem(x, j);
    }
    LastOpenerIs(b);
    if |b| >= 2 {
      OpenerIsLast(b, 0);
      assert b[0..] == b;
    }
  }

  lemma SplitPlain(b: string)
    requires BraceFree(b)
    ensures SplitAtPartialMarker(b) == (b, "")
  {
    LastOpenerIs(b);
  }

  lemma ItemEnds(x: Item)
    requires ValidItem(x)
    ensures !EndsOpen(Render1(x))
  {
    if Render1(x) != "" {
      BracesOfItem(x, |Render1(x)| - 1);
      assert !x.Plain? ==> |Render1(x)| > 2;
    }
  }

  // items falls into xs and zs; a plain segment may be cut in two.
  predicate Parted(items: seq<Item>, xs: seq<Item>, zs: seq<Item>, dec: Decoder) {
    && WellFormed(xs) && WellFormed(zs)
    && PlainText(items) == PlainText(xs) + PlainText(zs)
    && Bag(items, dec) == Bag(xs, dec) + Bag(zs, dec)
  }

  lemma PartBefore(x: Item, items: seq<Item>, xs: seq<Item>, zs: seq<Item>, dec: Decoder)
    requires ValidItem(x) && items != [] && items[0] == x && Parted(items[1..], xs, zs, dec)
    ensures Parted(items, [x] + xs, zs, dec)
    ensures Render([x] + xs) == Render1(x) + Render(xs)
  {
    assert ([x] + xs)[1..] == xs;
    if x.Plain? { Regroup(x.s, PlainText(xs), PlainText(zs)); }
  }

  lemma PartPlain(s: string, n: nat, items: seq<Item>, dec: Decoder)
    requires WellFormed(items) && items != [] && items[0] == Plain(s) && n <= |s|
    ensures Parted(items, [Plain(s[..n])], [Plain(s[n..])] + items[1..], dec)
    ensures Render([Plain(s[..n])]) == s[..n] && Render([Plain(s[n..])] + items[1..]) == s[n..] + Render(items[1..])
  {
    var rest := items[1..];
    assert BraceFree(s) by { assert items[0] in items; }
    assert ([Plain(s[n..])] + rest)[1..] == rest;
    assert [Plain(s[..n])][1..] == [];
    assert s[..n] + s[n..] == s;
    Regroup(s[..n], s[n..], PlainText(rest));
  }

  lemma PartNone(items: seq<Item>, dec: Decoder)
    requires WellFormed(items)
    ensures Parted(items, [], items, dec)
  {}

  lemma CutPrefix<T>(r: seq<T>, rest: seq<T>, b: seq<T>, more: seq<T>)
    requires r + rest == b + more
    ensures |b| < |r| ==> b < r && more == r[|b|..] + rest
    ensures |b| >= |r| ==> b == r + b[|r|..] && b[|r|..] + more == rest
  {
    assert (r + rest)[|r|..] == rest;
    assert (b + more)[|b|..] == more;
    if |b| < |r| {
      assert (r + rest)[..|b|] == b;
      assert (r + rest)[|b|..] == r[|b|..] + rest;
    } else {
      assert (b + more)[..|r|] == r;
      assert (b + more)[|r|..] == b[|r|..] + more;
    }
  }

  lemma LoneAfterItem(x: Item, b: string)
    requires ValidItem(x)
    ensures LoneBrace(Render1(x) + b) <==> LoneBrace(b)
  {
    ItemEnds(x);
    var r := Render1(x);
    var t := r + b;
    if b != "" {
      assert t[|t| - 1] == b[|b| - 1];
      if |b| >= 2 {
        assert t[|t| - 2] == b[|b| - 2];
      } else if r != "" {
        assert t[|t| - 2] == r[|r| - 1];
      }
    } else {
      assert t == r;
    }
  }

  // A buffer that starts a well-formed text is split between two items, or
  // inside a plain one, unless it ends between the braces of an opener.
  lemma {:induction false} SplitItems(items: seq<Item>, b: string, rest: string, dec: Decoder)
      returns (xs: seq<Item>, zs: seq<Item>)
    requires WellFormed(items) && b + rest == Render(items)
    ensures LoneBrace(b) ==> SplitAtPartialMarker(b) == (b, "")
    ensures var (safe, held) := SplitAtPartialMarker(b);
      !LoneBrace(b) ==> Render(xs) == safe && held + rest == Render(zs) && Parted(items, xs, zs, dec)
  {
    xs, zs := [], items;
    PartNone(items, dec);
    if b == "" { return; }
    var x, more := items[0], items[1..];
    assert x in items;
    CutPrefix(Render1(x), Render(more), b, rest);
    if |b| < |Render1(x)| {
      if x.Plain? {
        SplitPlain(b);
        PartPlain(x.s, |b|, items, dec);
        xs, zs := [Plain(x.s[..|b|])], [Plain(x.s[|b|..])] + more;
      } else {
        SplitPartialMarker(x, b);
      }
    } else {
      var tail := b[|Render1(x)|..];
      xs, zs := SplitItems(more, tail, rest, dec);
      SplitAfterItem(x, tail);
      LoneAfterItem(x, tail);
      if !LoneBrace(b) { PartBefore(x, items, xs, zs, dec); }
      xs := [x] + xs;
    }
  }

  // ---- what a chunk of whole items resolves to ----

  lemma {:induction false} MediaCons(b: string, bodies: seq<string>, dec: Decoder)
    ensures MediaAttachments([b] + bodies, dec) == [dec.media(b)] + MediaAttachments(bodies, dec)
  {
    var all := [b] + bodies;
    if bodies == [] {
      assert all[..0] == [];
    } else {
      var init := bodies[..|bodies| - 1];
      assert all[..|all| - 1] == [b] + init;
      MediaCons(b, init, dec);
    }
  }

  lemma {:induction false} UrlCons(b: string, bodies: seq<string>, dec: Decoder)
    ensures UrlAttachments([b] + bodies, dec)
      == (match dec.url(b) case Some(a) => [a] case None => []) + UrlAttachments(bodies, dec)
  {
    var all := [b] + bodies;
    if bodies == [] {
      assert all[..0] == [];
    } else {
      var init := bodies[..|bodies| - 1];
      assert all[..|all| - 1] == [b] + init;
      UrlCons(b, init, dec);
    }
  }

  function Found(items: seq<Item>, dec: Decoder): multiset<Attachment> {
    multiset(MediaAttachments(MediaBodies(items), dec)) + multiset(UrlAttachments(UrlBodies(items), dec))
  }

  lemma {:induction false} FoundIsBag(items: seq<Item>, dec: Decoder)
    ensures Found(items, dec) == Bag(items, dec)
  {
    if items != [] {
      var x, rest := items[0], items[1..];
      FoundIsBag(rest, dec);
      match x
      case Plain(_) =>
      case Media(body) => MediaCons(body, MediaBodies(rest), dec);
      case Url(body) => UrlCons(body, UrlBodies(rest), dec);
    }
  }

  lemma ResolveItems(items: seq<Item>, dec: Decoder)
    requires WellFormed(items)
    ensures var r := Resolve(Render(items), dec);
      r.text == PlainText(items) && multiset(r.attachments) == Bag(items, dec)
  {
    ResolveWellFormed(items, dec);
    FoundIsBag(items, dec);
  }

  // ---- the run ----

  // Of the items, zs are still to come: the rest of the tokens, after what
  // is pending.  The others have gone out.
  predicate OnTrack(s: State, rest: string, items: seq<Item>, zs: seq<Item>, dec: Decoder) {
    && WellFormed(zs)
    && s.pending + rest == Render(zs)
    && CleanedText(s.raw, dec) + PlainText(zs) == PlainText(items)
    && multiset(s.attachments) + Bag(zs, dec) == Bag(items, dec)
  }

  lemma EmitOnTrack(s: State, safe: string, held: string, rest: string, items: seq<Item>, zs: seq<Item>,
      xs: seq<Item>, ys: seq<Item>, dec: Decoder)
    requires OnTrack(s, rest, items, zs, dec) && Parted(zs, xs, ys, dec)
    requires Render(xs) == safe && held + rest == Render(ys)
    ensures OnTrack(Emit(s, safe, dec).(pending := held), rest, items, ys, dec)
  {
    ResolveItems(xs, dec);
    ConcatSnoc(s.raw, safe, dec);
    Regroup(CleanedText(s.raw, dec), PlainText(xs), PlainText(ys));
    MultisetJoin(s.attachments, Resolve(safe, dec).attachments);
  }

  lemma MultisetJoin<T>(a: seq<T>, b: seq<T>)
    ensures multiset(a + b) == multiset(a) + multiset(b)
  {}

  lemma FlushOnTrack(s: State, rest: string, items: seq<Item>, zs: seq<Item>, dec: Decoder) returns (ys: seq<Item>)
    requires OnTrack(s, rest, items, zs, dec) && !LoneBrace(s.pending)
    ensures OnTrack(Flush(s, dec), rest, items, ys, dec)
  {
    ys := zs;
    var (safe, held) := SplitAtPartialMarker(s.pending);
    if |s.pending| >= CHUNK_MIN && safe != "" {
      var xs;
      xs, ys := SplitItems(zs, s.pending, rest, dec);
      EmitOnTrack(s, safe, held, rest, items, zs, xs, ys, dec);
    }
  }

  lemma StepOnTrack(s: State, ev: Event, rest: string, items: seq<Item>, zs: seq<Item>, dec: Decoder)
      returns (ys: seq<Item>)
    requires !ev.Failure? && s.failed == None && OnTrack(Filled(s, ev), rest, items, zs, dec)
    requires !(FlushesOn(s, ev) && LoneBrace(Filled(s, ev).pending))
    ensures OnTrack(Step(s, ev, dec), rest, items, ys, dec)
  {
    ys := zs;
    var f := Filled(s, ev);
    if FlushesOn(s, ev) {
      ys := FlushOnTrack(f, rest, items, zs, dec);
      assert OnTrack(Noted(Flush(f, dec), ev), rest, items, ys, dec);
    }
  }

  function Ahead(ev: Event, rest: string): string {
    if ev.Token? then ev.content + rest else rest
  }

  lemma FillOnTrack(s: State, ev: Event, rest: string, items: seq<Item>, zs: seq<Item>, dec: Decoder)
    requires OnTrack(s, Ahead(ev, rest), items, zs, dec)
    ensures OnTrack(Filled(s, ev), rest, items, zs, dec)
  {
    if ev.Token? { Regroup(s.pending, ev.content, rest); }
  }

  lemma TokensSnoc(evs: seq<Event>, rest: string)
    requires evs != []
    ensures Tokens(evs) + rest == Tokens(evs[..|evs| - 1]) + Ahead(evs[|evs| - 1], rest)
  {
    var ev := evs[|evs| - 1];
    if ev.Token? { Regroup(Tokens(evs[..|evs| - 1]), ev.content, rest); }
  }

  lemma {:induction false} Track(evs: seq<Event>, rest: string, items: seq<Item>, dec: Decoder) returns (zs: seq<Item>)
    requires WellFormed(items) && Tokens(evs) + rest == Render(items)
    requires NoFailure(evs) && !CutsOpener(evs, dec)
    ensures OnTrack(Run(evs, dec), rest, items, zs, dec)
  {
    if evs == [] {
      zs := items;
      StartOnTrack(rest, items, dec);
    } else {
      var init, ev := evs[..|evs| - 1], evs[|evs| - 1];
      TokensSnoc(evs, rest);
      zs := Track(init, Ahead(ev, rest), items, dec);
      RunConserves(init, dec);
      FillOnTrack(Run(init, dec), ev, rest, items, zs, dec);
      zs := StepOnTrack(Run(init, dec), ev, rest, items, zs, dec);
    }
  }

  lemma StartOnTrack(rest: string, items: seq<Item>, dec: Decoder)
    requires WellFormed(items) && "" + rest == Render(items)
    ensures OnTrack(START, rest, items, items, dec)
  {}

  // ---- a cut shows ----

  predicate HasBrace(t: string) { '{' in t }

  lemma {:induction false} PlainHasNoBrace(items: seq<Item>)
    requires WellFormed(items)
    ensures !HasBrace(PlainText(items))
  {
    if items != [] {
      assert items[0] in items;
      PlainHasNoBrace(items[1..]);
    }
  }

  lemma BraceStays(s: State, text: string, dec: Decoder)
    requires HasBrace(CleanedText(s.raw, dec)) || EndsOpen(text)
    ensures HasBrace(CleanedText(Emit(s, text, dec).raw, dec))
  {
    ConcatSnoc(s.raw, text, dec);
    if EndsOpen(text) {
      ResolveKeepsLastBrace(text, dec);
      var r := Resolve(text, dec).text;
      assert r[|r| - 1] in r;
    }
  }

  lemma FlushKeepsBrace(s: State, dec: Decoder)
    requires HasBrace(CleanedText(s.raw, dec))
    ensures HasBrace(CleanedText(Flush(s, dec).raw, dec))
  {
    BraceStays(s, SplitAtPartialMarker(s.pending).0, dec);
  }

  lemma StepKeepsBrace(s: State, ev: Event, dec: Decoder)
    requires HasBrace(CleanedText(s.raw, dec))
    ensures HasBrace(CleanedText(Step(s, ev, dec).raw, dec))
  {
    FlushKeepsBrace(Filled(s, ev), dec);
    NotePublishes(Filled(s, ev), ev);
    NotePublishes(Flush(Filled(s, ev), dec), ev);
  }

  lemma {:induction false} CutShows(evs: seq<Event>, rest: string, items: seq<Item>, dec: Decoder)
    requires WellFormed(items) && Tokens(evs) + rest == Render(items)
    requires NoFailure(evs) && CutsOpener(evs, dec)
    ensures HasBrace(CleanedText(Run(evs, dec).raw, dec))
  {
    var init, ev := evs[..|evs| - 1], evs[|evs| - 1];
    var s, more := Run(init, dec), Ahead(ev, rest);
    TokensSnoc(evs, rest);
    if CutsOpener(init, dec) {
      CutShows(init, more, items, dec);
      StepKeepsBrace(s, ev, dec);
    } else {
      RunConserves(init, dec);
      var zs := Track(init, more, items, dec);
      FillOnTrack(s, ev, rest, items, zs, dec);
      var f := Filled(s, ev);
      var _, _ := SplitItems(zs, f.pending, rest, dec);
      BraceStays(f, f.pending, dec);
    }
  }

  // Chunked resolution agrees with whole-text resolution: for every
  // well-formed text, however it is cut into tokens and wherever tool events
  // fall, the cleaned chunks put together are the cleaned text exactly when
  // no flush cuts an opener in two; then the attachments agree as well.
  lemma ChunksAgreeWithWhole(evs: seq<Event>, items: seq<Item>, dec: Decoder)
    requires WellFormed(items) && Tokens(evs) == Render(items) && NoFailure(evs)
    ensures var s := Closed(Run(evs, dec), dec); var whole := Resolve(Tokens(evs), dec);
      && (CleanedText(s.raw, dec) == whole.text <==> !CutsOpener(evs, dec))
      && (!CutsOpener(evs, dec) ==> multiset(s.attachments) == multiset(whole.attachments))
  {
    ResolveItems(items, dec);
    assert Tokens(evs) + "" == Tokens(evs);
    var s := Run(evs, dec);
    if CutsOpener(evs, dec) {
      CutShows(evs, "", items, dec);
      BraceStays(s, s.pending, dec);
      PlainHasNoBrace(items);
    } else {
      var zs := Track(evs, "", items, dec);
      ClosedOnTrack(s, items, zs, dec);
    }
  }

  lemma ClosedOnTrack(s: State, items: seq<Item>, zs: seq<Item>, dec: Decoder)
    requires OnTrack(s, "", items, zs, dec)
    ensures var c := Closed(s, dec);
      CleanedText(c.raw, dec) == PlainText(items) && multiset(c.attachments) == Bag(items, dec)
  {
    assert s.pending + "" == s.pending;
    ResolveItems(zs, dec);
    ConcatSnoc(s.raw, s.pending, dec);
    MultisetJoin(s.attachments, Resolve(s.pending, dec).attachments);
    if s.pending == "" { assert Resolve("", dec) == Resolved("", []); }
  }

  // Such a cut happens: 499 plain bytes and half an opener fill the buffer.
  lemma OpenerCanBeCut(s: string, dec: Decoder)
    requires BraceFree(s) && |s| == CHUNK_MAX - 1
    ensures var items := [Plain(s), Media("a")];
      var evs := [Token(s + "{"), Token("{media:a}}")];
      WellFormed(items) && NoFailure(evs) && Tokens(evs) == Render(items) && CutsOpener(evs, dec)
  {
    assert s[|s| - 1] in s;
    var b, tail := s + "{", "{media:a}}";
    TwoTokens(b, tail, dec);
    RenderTwo(s, "a");
    assert b + tail == s + (MEDIA + ("a" + "}}"));
  }

  lemma TwoTokens(b: string, tail: string, dec: Decoder)
    requires |b| >= CHUNK_MAX && LoneBrace(b)
    ensures Tokens([Token(b), Token(tail)]) == b + tail && CutsOpener([Token(b), Token(tail)], dec)
  {
    FirstToken(b, dec);
    assert [Token(b), Token(tail)][..1] == [Token(b)];
  }

  lemma FirstToken(b: string, dec: Decoder)
    requires |b| >= CHUNK_MAX && LoneBrace(b)
    ensures Tokens([Token(b)]) == b && CutsOpener([Token(b)], dec)
  {
    var evs := [Token(b)];
    assert evs[..0] == [];
    assert "" + b == b;
    assert Filled(START, Token(b)).pending == b;
    assert FlushesOn(Run(evs[..0], dec), evs[0]);
  }

  lemma RenderTwo(s: string, body: string)
    ensures Render([Plain(s), Media(body)]) == s + (MEDIA + (body + "}}"))
  {
    var items := [Plain(s), Media(body)];
    var marker := MEDIA + (body + "}}");
    assert items[1..] == [Media(body)] && items[1..][1..] == [];
    assert marker + "" == marker;
    assert Render([Media(body)]) == marker;
  }

  // ---- published messages ----

  function Messages(emissions: seq<Emission>): string {
    if emissions == [] then ""
    else if emissions[|emissions| - 1].Chunk? then
      Messages(emissions[..|emissions| - 1]) + emissions[|emissions| - 1].message
    else Messages(emissions[..|emissions| - 1])
  }

  function Unescaped(texts: seq<string>, dec: Decoder): string {
    if texts == [] then ""
    else Unescaped(texts[..|texts| - 1], dec) + Unescape(Resolve(texts[|texts| - 1], dec).text)
  }

  lemma MessagesSnoc(emissions: seq<Emission>, e: Emission)
    ensures e.Chunk? ==> Messages(emissions + [e]) == Messages(emissions) + e.message
    ensures !e.Chunk? ==> Messages(emissions + [e]) == Messages(emissions)
  {
    assert (emissions + [e])[..|emissions|] == emissions;
  }

  lemma EmitPublishes(s: State, text: string, dec: Decoder)
    requires Published(s, dec)
    ensures Published(Emit(s, text, dec), dec)
  {
    assert (s.raw + [text])[..|s.raw|] == s.raw;
    var message := Unescape(Resolve(text, dec).text);
    MessagesSnoc(s.emissions, Chunk(message));
    if message == "" { assert Messages(s.emissions) + message == Messages(s.emissions); }
  }

  lemma NotePublishes(s: State, ev: Event)
    ensures Messages(Noted(s, ev).emissions) == Messages(s.emissions) && Noted(s, ev).raw == s.raw
  {
    match ev
    case ToolCall(name) => MessagesSnoc(s.emissions, Using(name));
    case ToolResult(name, error) => MessagesSnoc(s.emissions, if error != "" then ErrorFrom(name) else GotResult(name));
    case _ =>
  }

  predicate Published(s: State, dec: Decoder) {
    Messages(s.emissions) == Unescaped(s.raw, dec)
  }

  lemma FlushPublishes(s: State, dec: Decoder)
    requires Published(s, dec)
    ensures Published(Flush(s, dec), dec)
  {
    EmitPublishes(s, SplitAtPartialMarker(s.pending).0, dec);
  }

  lemma StepPublishes(s: State, ev: Event, dec: Decoder)
    requires Published(s, dec)
    ensures Published(Step(s, ev, dec), dec)
  {
    var f := Filled(s, ev);
    FlushPublishes(f, dec);
    NotePublishes(f, ev);
    NotePublishes(Flush(f, dec), ev);
  }

  // What is published is the unescaped cleaned chunks, in order.
  lemma {:induction false} RunPublishes(evs: seq<Event>, dec: Decoder)
    ensures Published(Run(evs, dec), dec)
  {
    if evs != [] {
      RunPublishes(evs[..|evs| - 1], dec);
      StepPublishes(Run(evs[..|evs| - 1], dec), evs[|evs| - 1], dec);
    }
  }

  // An '@' is left over at the end when t is read in pairs.
  predicate OddTail(t: string) {
    if |t| < 2 then t == "@"
    else if t[0] == '@' && t[1] == '@' then OddTail(t[2..])
    else OddTail(t[1..])
  }

  // t starts with an odd number of '@'.
  predicate OddHead(t: string) {
    t != "" && t[0] == '@' && !OddHead(t[1..])
  }

  lemma {:induction false} UnescapeAfterAt(b: string)
    ensures Unescape("@" + b) == if OddHead(b) then Unescape(b) else "@" + Unescape(b)
  {
    var t := "@" + b;
    assert t[1..] == b;
    if b != "" && b[0] == '@' {
      assert t[2..] == b[1..];
      if |b| >= 2 && b[1] == '@' {
        var c := b[2..];
        assert b[1..] == "@" + c && b[1..][1..] == c;
        UnescapeAfterAt(c);
      }
    }
  }

  // Unescaping piece by piece differs from unescaping the whole exactly where
  // a pair is cut in two, and then by one '@' too many.
  lemma {:induction false} UnescapeSeam(a: string, b: string)
    ensures |Unescape(a)| + |Unescape(b)| == |Unescape(a + b)| + (if OddTail(a) && OddHead(b) then 1 else 0)
    ensures !(OddTail(a) && OddHead(b)) ==> Unescape(a) + Unescape(b) == Unescape(a + b)
    decreases |a|
  {
    if a == "" {
      assert a + b == b;
    } else if a == "@" {
      UnescapeAfterAt(b);
    } else if |a| == 1 {
      assert (a + b)[1..] == b;
    } else {
      var n := if a[0] == '@' && a[1] == '@' then 2 else 1;
      assert (a + b)[n..] == a[n..] + b;
      UnescapeSeam(a[n..], b);
      Regroup([a[0]], Unescape(a[n..]), Unescape(b));
    }
  }

  function Seams(texts: seq<string>, dec: Decoder): nat {
    if texts == [] then 0
    else
      var init, last := texts[..|texts| - 1], Resolve(texts[|texts| - 1], dec).text;
      Seams(init, dec) + if OddTail(CleanedText(init, dec)) && OddHead(last) then 1 else 0
  }

  lemma {:induction false} UnescapedIs(texts: seq<string>, dec: Decoder)
    ensures |Unescaped(texts, dec)| == |Unescape(CleanedText(texts, dec))| + Seams(texts, dec)
    ensures Seams(texts, dec) == 0 ==> Unescaped(texts, dec) == Unescape(CleanedText(texts, dec))
  {
    if texts != [] {
      var init, last := texts[..|texts| - 1], Resolve(texts[|texts| - 1], dec).text;
      UnescapedIs(init, dec);
      UnescapeSeam(CleanedText(init, dec), last);
    }
  }

  lemma {:induction false} UnescapeKeepsBrace(t: string)
    ensures HasBrace(Unescape(t)) <==> HasBrace(t)
    decreases |t|
  {
    if |t| >= 2 {
      var n := if t[0] == '@' && t[1] == '@' then 2 else 1;
      UnescapeKeepsBrace(t[n..]);
      assert t == t[..n] + t[n..];
      assert HasBrace(t[..n]) <==> t[0] == '{';
    }
  }

  lemma {:induction false} UnescapedKeepsBrace(texts: seq<string>, dec: Decoder)
    ensures HasBrace(Unescaped(texts, dec)) <==> HasBrace(CleanedText(texts, dec))
  {
    if texts != [] {
      UnescapedKeepsBrace(texts[..|texts| - 1], dec);
      UnescapeKeepsBrace(Resolve(texts[|texts| - 1], dec).text);
    }
  }

  // The messages a channel receives spell the unescaped whole text exactly
  // when no flush cuts an opener and no "@@" pair falls across two chunks.
  lemma MessagesSpellTheText(evs: seq<Event>, items: seq<Item>, dec: Decoder)
    requires WellFormed(items) && Tokens(evs) == Render(items) && NoFailure(evs)
    ensures var s := Closed(Run(evs, dec), dec);
      Messages(s.emissions) == Unescape(Resolve(Tokens(evs), dec).text)
      <==> !CutsOpener(evs, dec) && Seams(s.raw, dec) == 0
  {
    ChunksAgreeWithWhole(evs, items, dec);
    RunPublishes(evs, dec);
    var s := Run(evs, dec);
    EmitPublishes(s, s.pending, dec);
    if CutsOpener(evs, dec) {
      CutMessagesShow(evs, items, dec);
    } else {
      UnescapedIs(Closed(s, dec).raw, dec);
    }
  }

  lemma CutMessagesShow(evs: seq<Event>, items: seq<Item>, dec: Decoder)
    requires WellFormed(items) && Tokens(evs) == Render(items) && NoFailure(evs) && CutsOpener(evs, dec)
    ensures Unescaped(Closed(Run(evs, dec), dec).raw, dec) != Unescape(Resolve(Tokens(evs), dec).text)
  {
    assert Tokens(evs) + "" == Tokens(evs);
    var s := Run(evs, dec);
    CutShows(evs, "", items, dec);
    BraceStays(s, s.pending, dec);
    UnescapedKeepsBrace(Closed(s, dec).raw, dec);
    ResolveItems(items, dec);
    PlainHasNoBrace(items);
    UnescapeKeepsBrace(PlainText(items));
  }

  // Nothing to resolve in a text without opening braces.
  lemma ResolvesToItself(t: string, dec: Decoder)
    requires '{' !in t
    ensures Resolve(t, dec).text == t
  {
    var none := ReplaceAll(MEDIA, "");
    assert t + "" == t;
    KeepsBraceFree(MEDIA, t, "");
    KeepsBraceFree(URL, t, "");
    assert t + none.text == t;
  }

  lemma {:induction false} SingleAtIsOdd(s: string)
    requires '@' !in s
    ensures OddTail(s + "@")
  {
    if s == "" {
      assert s + "@" == "@";
    } else {
      assert s[0] in s && (s + "@")[1..] == s[1..] + "@";
      SingleAtIsOdd(s[1..]);
    }
  }

  // Only openers are held back.
  lemma FlushesWhole(s: State, dec: Decoder)
    requires |s.pending| >= CHUNK_MIN && '{' !in s.pending
    ensures Flush(s, dec) == Emit(s, s.pending, dec).(pending := "")
  {
    LastOpenerIs(s.pending);
  }

  lemma RunTwo(d: Event, e: Event, dec: Decoder)
    ensures Run([d, e], dec) == Step(Step(START, d, dec), e, dec)
  {
    assert [d, e][..1] == [d] && [d][..0] == [];
    assert Run([], dec) == START && Run([d], dec) == Step(START, d, dec);
  }

  lemma TokensTwo(b: string, c: string)
    ensures Tokens([Token(b), Token(c)]) == b + c
  {
    assert [Token(b), Token(c)][..1] == [Token(b)] && [Token(b)][..0] == [];
    assert Tokens([]) == "" && "" + b == b && Tokens([Token(b)]) == b;
  }

  lemma RenderPlain(s: string)
    ensures Render([Plain(s)]) == s
  {
    assert [Plain(s)][1..] == [] && s + "" == s;
  }

  lemma FirstPiece(b: string, dec: Decoder)
    requires |b| >= CHUNK_MAX && '{' !in b
    ensures var s := Step(START, Token(b), dec); s.pending == "" && s.raw == [b] && s.failed == None
  {
    assert "" + b == b && [] + [b] == [b];
    FlushesWhole(Filled(START, Token(b)), dec);
  }

  lemma LastPiece(s: State, dec: Decoder)
    requires s.pending == "" && s.failed == None
    ensures Closed(Step(s, Token("@"), dec), dec).raw == s.raw + ["@"]
  {
    assert "" + "@" == "@";
  }

  lemma TwoPieces(b: string, dec: Decoder)
    requires |b| >= CHUNK_MAX && '{' !in b
    ensures Closed(Run([Token(b), Token("@")], dec), dec).raw == [b, "@"]
  {
    RunTwo(Token(b), Token("@"), dec);
    FirstPiece(b, dec);
    LastPiece(Step(START, Token(b), dec), dec);
    assert [b] + ["@"] == [b, "@"];
  }

  // Such a seam happens: 499 plain bytes and the first of two at signs fill the
  // buffer, and each sign is unescaped by itself.
  lemma PairCanBeCut(s: string, dec: Decoder)
    requires BraceFree(s) && '@' !in s && |s| == CHUNK_MAX - 1
    ensures var items := [Plain(s + "@@")];
      var evs := [Token(s + "@"), Token("@")];
      var t := Closed(Run(evs, dec), dec);
      && WellFormed(items) && NoFailure(evs) && Tokens(evs) == Render(items) && !CutsOpener(evs, dec)
      && t.raw == [s + "@", "@"] && Seams(t.raw, dec) == 1
      && Messages(t.emissions) != Unescape(Resolve(Tokens(evs), dec).text)
  {
    PairStream(s, dec);
    TwoPieces(s + "@", dec);
    PairSeams(s, dec);
    MessagesSpellTheText([Token(s + "@"), Token("@")], [Plain(s + "@@")], dec);
  }

  lemma PairStream(s: string, dec: Decoder)
    requires BraceFree(s)
    ensures var items := [Plain(s + "@@")];
      var evs := [Token(s + "@"), Token("@")];
      WellFormed(items) && NoFailure(evs) && Tokens(evs) == Render(items) && !CutsOpener(evs, dec)
  {
    var evs := [Token(s + "@"), Token("@")];
    TokensTwo(s + "@", "@");
    RenderPlain(s + "@@");
    assert (s + "@") + "@" == s + "@@";
    if CutsOpener(evs, dec) { CutNeedsBrace(evs, dec); }
  }

  lemma BraceInPart(a: string, b: string)
    requires HasBrace(b) || HasBrace(a)
    ensures HasBrace(a + b)
  {}

  // Only a text with an opening brace can have an opener cut.
  lemma {:induction false} CutNeedsBrace(evs: seq<Event>, dec: Decoder)
    requires NoFailure(evs) && CutsOpener(evs, dec)
    ensures HasBrace(Tokens(evs))
  {
    var init, ev := evs[..|evs| - 1], evs[|evs| - 1];
    RunConserves(init, dec);
    var s := Run(init, dec);
    if CutsOpener(init, dec) {
      CutNeedsBrace(init, dec);
      if ev.Token? { BraceInPart(Tokens(init), ev.content); }
    } else {
      var b := Filled(s, ev).pending;
      assert b[|b| - 1] in b;
      BraceInPart(Concat(s.raw), b);
      if ev.Token? { Regroup(Concat(s.raw), s.pending, ev.content); }
    }
  }

  lemma PairSeams(s: string, dec: Decoder)
    requires BraceFree(s) && '@' !in s
    ensures Seams([s + "@", "@"], dec) == 1
  {
    var b := s + "@";
    var texts := [b, "@"];
    assert texts[..1] == [b] && [b][..0] == [];
    ResolvesToItself(b, dec);
    ResolvesToItself("@", dec);
    SingleAtIsOdd(s);
    assert CleanedText([], dec) == "" && Seams([], dec) == 0;
    assert "" + b == b;
    assert CleanedText([b], dec) == b && !OddTail("");
    assert Seams([b], dec) == 0;
  }

  // ---- the reply ----

  // The last Done event of the stream.
  function LastDone(evs: seq<Event>): (last: Option<Event>)
    ensures last.Some? ==> last.value.Done? && last.value in evs
    ensures last.None? ==> forall ev :: ev in evs ==> !ev.Done?
  {
    if evs == [] then None
    else if evs[|evs| - 1].Done? then Some(evs[|evs| - 1])
    else LastDone(evs[..|evs| - 1])
  }

  lemma FinalStays(s: State, ev: Event, dec: Decoder)
    requires s.failed == None && !ev.Failure?
    ensures Step(s, ev, dec).final == if ev.Done? then Some(ev) else s.final
  {}

  lemma {:induction false} FinalIsLastDone(evs: seq<Event>, dec: Decoder)
    requires NoFailure(evs)
    ensures Run(evs, dec).final == LastDone(evs)
  {
    if evs != [] {
      FinalIsLastDone(evs[..|evs| - 1], dec);
      RunConserves(evs[..|evs| - 1], dec);
      FinalStays(Run(evs[..|evs| - 1], dec), evs[|evs| - 1], dec);
    }
  }

  // What the reply is made of: the text of the last Done event or, if that is
  // empty or there was none, all tokens.
  function FinalText(evs: seq<Event>): string {
    if LastDone(evs).Some? && LastDone(evs).value.response != "" then LastDone(evs).value.response else Tokens(evs)
  }

  function DoneAttachments(evs: seq<Event>): seq<Attachment> {
    if LastDone(evs).Some? then LastDone(evs).value.attachments else []
  }

  // For every stream without an error: the reply is the resolved final text,
  // with the attachments of the last Done event, then those of the chunks, then
  // those of the final text.
  lemma ReplyIs(evs: seq<Event>, dec: Decoder)
    requires NoFailure(evs)
    ensures var s := Closed(Run(evs, dec), dec);
      var reply, final := ReplyOf(s, dec), Resolve(FinalText(evs), dec);
      && reply.response == dec.trim(final.text)
      && reply.attachments == DoneAttachments(evs) + s.attachments + final.attachments
  {
    RunConserves(evs, dec);
    FinalIsLastDone(evs, dec);
    ClosedKeeps(Run(evs, dec), dec);
  }

  lemma BagDifference(d: multiset<Attachment>, w: multiset<Attachment>, x: multiset<Attachment>,
      y: multiset<Attachment>)
    ensures d + w + x == d + w + y <==> x == y
  {
    if d + w + x == d + w + y {
      assert x == (d + w + x) - (d + w) && y == (d + w + y) - (d + w);
    }
  }

  // The attachments of the markers streamed are listed once from the chunks
  // and again from the final text.  They are listed once in all exactly if the
  // final text has none, and twice exactly if it has the same ones, as it has
  // whenever it is the text streamed.
  lemma AttachmentsAreListedAgain(evs: seq<Event>, items: seq<Item>, dec: Decoder)
    requires WellFormed(items) && Tokens(evs) == Render(items) && NoFailure(evs) && !CutsOpener(evs, dec)
    ensures var s := Closed(Run(evs, dec), dec);
      var reply, final, whole := ReplyOf(s, dec), Resolve(FinalText(evs), dec), Resolve(Tokens(evs), dec);
      var done, once := multiset(DoneAttachments(evs)), multiset(whole.attachments);
      && multiset(reply.attachments) == done + once + multiset(final.attachments)
      && (multiset(reply.attachments) == done + once <==> final.attachments == [])
      && (multiset(reply.attachments) == done + once + once <==> multiset(final.attachments) == once)
      && (FinalText(evs) == Tokens(evs) ==>
            reply.response == dec.trim(CleanedText(s.raw, dec)) && multiset(reply.attachments) == done + once + once)
  {
    ChunksAgreeWithWhole(evs, items, dec);
    ReplyIs(evs, dec);
    var s := Closed(Run(evs, dec), dec);
    MultisetJoin(DoneAttachments(evs), s.attachments);
    MultisetJoin(DoneAttachments(evs) + s.attachments, Resolve(FinalText(evs), dec).attachments);
    var done, once := multiset(DoneAttachments(evs)), multiset(Resolve(Tokens(evs), dec).attachments);
    var final := Resolve(FinalText(evs), dec).attachments;
    BagDifference(done, once, multiset(final), multiset{});
    BagDifference(done, once, multiset(final), once);
    assert done + once + multiset{} == done + once;
    assert |multiset(final)| == |final|;
  }

  lemma ClosedKeeps(s: State, dec: Decoder)
    ensures Closed(s, dec).final == s.final && Closed(s, dec).full == s.full
  {}

  // ---- the buffer ----

  predicate Unterminated(t: string) { OpensAt(t, 0) && !HasCloser(t) }

  lemma FlushBounds(s: State, dec: Decoder)
    ensures var p := Flush(s, dec).pending; p == s.pending || p == "" || Unterminated(p)
    ensures |s.pending| >= CHUNK_MIN ==> var p := Flush(s, dec).pending; p == "" || Unterminated(p)
  {
    SplitConserves(s.pending);
    var (safe, held) := SplitAtPartialMarker(s.pending);
    if safe == "" { assert held == s.pending; }
  }

  predicate BufferOk(p: string) { |p| < CHUNK_MAX || Unterminated(p) }

  lemma StepBounds(s: State, ev: Event, dec: Decoder)
    requires BufferOk(s.pending)
    ensures BufferOk(Step(s, ev, dec).pending)
  {
    FlushBounds(Filled(s, ev), dec);
  }

  // Between events the buffer is short, or it is a marker still being received.
  lemma {:induction false} BufferIsShort(evs: seq<Event>, dec: Decoder)
    ensures BufferOk(Run(evs, dec).pending)
  {
    if evs != [] {
      BufferIsShort(evs[..|evs| - 1], dec);
      StepBounds(Run(evs[..|evs| - 1], dec), evs[|evs| - 1], dec);
    }
  }
}
