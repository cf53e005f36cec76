// Media markers in agent text (plugins/infra-agent-relay/media_markers.go).
// A text is a sequence of bytes, one char each.
module MediaMarkers {
  import opened Sequences
  import opened Wrappers

  const MEDIA := "{{media:"
  const URL := "{{media_url:"

  datatype Attachment = Attachment(kind: string, url: string, imageData: string, mimeType: string, filename: string)

  // What the body of a marker stands for, and what is left of a text without
  // the white space around it.  MIME types, URL and base64 decoding and Unicode's
  // notion of white space are parameters; a malformed data URL yields nothing.
  datatype Decoder = Decoder(
    media: string -> Attachment, url: string -> Option<Attachment>, trim: string -> string)

  // ---- the regular expressions OPENER(.+?)\}\} ----

  // Length of the shortest text without a newline before a "}}".
  function CloseAt(t: string): Option<nat> {
    if |t| < 2 then None
    else if t[0] == '}' && t[1] == '}' then Some(0)
    else if t[0] == '\n' then None
    else match CloseAt(t[1..]) case Some(n) => Some(n + 1) case None => None
  }

  // Length of the shortest non-empty body at the start of t.
  function BodyLength(t: string): (n: Option<nat>)
    ensures n.Some? ==> 0 < n.value && n.value + 2 <= |t| && t[n.value] == '}' && t[n.value + 1] == '}'
  {
    CloseAtIsClose(if t == "" then "" else t[1..]);
    if t == "" || t[0] == '\n' then None
    else match CloseAt(t[1..]) case Some(n) => Some(n + 1) case None => None
  }

  lemma {:induction false} CloseAtIsClose(t: string)
    ensures CloseAt(t).Some? ==>
      var n := CloseAt(t).value; n + 2 <= |t| && t[n] == '}' && t[n + 1] == '}'
  {
    if |t| >= 2 { CloseAtIsClose(t[1..]); }
  }

  function MatchHere(opener: string, t: string): (n: Option<nat>)
    ensures n.Some? ==> opener <= t && 0 < n.value && |opener| + n.value + 2 <= |t| && t[|opener| + n.value + 1] == '}'
  {
    if opener <= t then BodyLength(t[|opener|..]) else None
  }

  predicate Closes(t: string, n: int) {
    0 <= n && n + 2 <= |t| && t[n] == '}' && t[n + 1] == '}' && '\n' !in t[..n]
  }

  lemma ClosesLater(t: string, m: nat)
    requires t != "" && m > 0
    ensures Closes(t, m) <==> t[0] != '\n' && Closes(t[1..], m - 1)
  {
    if m <= |t| { assert t[..m] == [t[0]] + t[1..][..m - 1]; }
  }

  ghost predicate ClosesFirst(t: string, n: nat) {
    Closes(t, n) && forall m :: 0 <= m < n ==> !Closes(t, m)
  }

  lemma ClosesFirstLater(t: string, n: nat)
    requires t != "" && n > 0
    ensures ClosesFirst(t, n) <==> t[0] != '\n' && !Closes(t, 0) && ClosesFirst(t[1..], n - 1)
  {
    forall m: nat | m > 0 ensures Closes(t, m) <==> t[0] != '\n' && Closes(t[1..], m - 1) {
      ClosesLater(t, m);
    }
    if ClosesFirst(t, n) {
      forall m | 0 <= m < n - 1 ensures !Closes(t[1..], m) { assert !Closes(t, m + 1); }
    }
  }

  lemma {:induction false} CloseAtIsFirst(t: string, n: nat)
    ensures CloseAt(t) == Some(n) <==> ClosesFirst(t, n)
  {
    if |t| >= 2 && n > 0 {
      CloseAtIsFirst(t[1..], n - 1);
      ClosesFirstLater(t, n);
    }
  }

  // The opener, a body of n bytes that is not empty and has no line break, and
  // two closing braces.
  predicate IsMatch(opener: string, t: string, n: int) {
    n > 0 && opener <= t && Closes(t[|opener|..], n)
  }

  // A match is the shortest there is: the expression is not greedy.
  lemma MatchIsShortest(opener: string, t: string, n: nat)
    ensures MatchHere(opener, t) == Some(n)
      <==> IsMatch(opener, t, n) && forall m :: 0 <= m < n ==> !IsMatch(opener, t, m)
  {
    if opener <= t && n > 0 && |opener| < |t| {
      var u := t[|opener|..];
      CloseAtIsFirst(u[1..], n - 1);
      forall m: nat | m > 0 ensures IsMatch(opener, t, m) <==> u[0] != '\n' && Closes(u[1..], m - 1) {
        ClosesLater(u, m);
      }
      if IsMatch(opener, t, n) && forall m :: 0 <= m < n ==> !IsMatch(opener, t, m) {
        forall m | 0 <= m < n - 1 ensures !Closes(u[1..], m) { assert !IsMatch(opener, t, m + 1); }
      }
    }
  }

  datatype Replaced = Replaced(text: string, bodies: seq<string>)

  function BodyAt(opener: string, t: string, n: nat): string
    requires |opener| + n + 2 <= |t|
  {
    t[|opener|..|opener| + n]
  }

  function AfterMatch(opener: string, t: string, n: nat): (rest: string)
    requires |opener| + n + 2 <= |t|
    ensures |rest| == |t| - |opener| - n - 2
  {
    t[|opener| + n + 2..]
  }

  function WithBody(body: string, r: Replaced): Replaced { Replaced(r.text, [body] + r.bodies) }

  function WithChar(c: char, r: Replaced): Replaced { Replaced([c] + r.text, r.bodies) }

  // Removes every leftmost match, keeping the bodies.
  function ReplaceAll(opener: string, t: string): Replaced
    decreases |t|
  {
    if t == "" then Replaced("", [])
    else match MatchHere(opener, t)
      case Some(n) => WithBody(BodyAt(opener, t, n), ReplaceAll(opener, AfterMatch(opener, t, n)))
      case None => WithChar(t[0], ReplaceAll(opener, t[1..]))
  }

  function MediaAttachments(bodies: seq<string>, dec: Decoder): seq<Attachment> {
    if bodies == [] then [] else MediaAttachments(bodies[..|bodies| - 1], dec) + [dec.media(bodies[|bodies| - 1])]
  }

  function UrlAttachments(bodies: seq<string>, dec: Decoder): seq<Attachment> {
    if bodies == [] then []
    else
      var init := UrlAttachments(bodies[..|bodies| - 1], dec);
      match dec.url(bodies[|bodies| - 1])
      case Some(a) => init + [a]
      case None => init
  }

  datatype Resolved = Resolved(text: string, attachments: seq<Attachment>)

  function Resolve(t: string, dec: Decoder): Resolved {
    var first := ReplaceAll(MEDIA, t);
    var second := ReplaceAll(URL, first.text);
    Resolved(second.text, MediaAttachments(first.bodies, dec) + UrlAttachments(second.bodies, dec))
  }

  function Join(cleaned: string, bodies: seq<string>, r: Replaced): Replaced {
    Replaced(cleaned + r.text, bodies + r.bodies)
  }

  lemma PassMatch(opener: string, cleaned: string, bodies: seq<string>, t: string, n: nat)
    requires t != "" && MatchHere(opener, t) == Some(n)
    ensures Join(cleaned, bodies, ReplaceAll(opener, t))
      == Join(cleaned, bodies + [BodyAt(opener, t, n)], ReplaceAll(opener, AfterMatch(opener, t, n)))
  {
    MatchIs(opener, t, n);
    JoinBody(cleaned, bodies, BodyAt(opener, t, n), ReplaceAll(opener, AfterMatch(opener, t, n)));
  }

  lemma MatchIs(opener: string, t: string, n: nat)
    requires t != "" && MatchHere(opener, t) == Some(n)
    ensures ReplaceAll(opener, t) == WithBody(BodyAt(opener, t, n), ReplaceAll(opener, AfterMatch(opener, t, n)))
  {}

  lemma JoinBody(cleaned: string, bodies: seq<string>, body: string, r: Replaced)
    ensures Join(cleaned, bodies, WithBody(body, r)) == Join(cleaned, bodies + [body], r)
  {
    Regroup(bodies, [body], r.bodies);
  }

  lemma PassSkip(opener: string, cleaned: string, bodies: seq<string>, t: string)
    requires t != "" && MatchHere(opener, t) == None
    ensures Join(cleaned, bodies, ReplaceAll(opener, t)) == Join(cleaned + [t[0]], bodies, ReplaceAll(opener, t[1..]))
  {
    Regroup(cleaned, [t[0]], ReplaceAll(opener, t[1..]).text);
  }

  // One pass of ReplaceAllStringFunc, collecting the bodies.
  method ReplacePass(opener: string, text: string) returns (cleaned: string, bodies: seq<string>)
    ensures Replaced(cleaned, bodies) == ReplaceAll(opener, text)
  {
    cleaned, bodies := "", [];
    var rest := text;
    ghost var all := ReplaceAll(opener, text);
    while rest != ""
      invariant Join(cleaned, bodies, ReplaceAll(opener, rest)) == all
      decreases |rest|
    {
      match MatchHere(opener, rest)
      case Some(n) =>
        PassMatch(opener, cleaned, bodies, rest, n);
        bodies, rest := bodies + [BodyAt(opener, rest, n)], AfterMatch(opener, rest, n);
      case None =>
        PassSkip(opener, cleaned, bodies, rest);
        cleaned, rest := cleaned + [rest[0]], rest[1..];
    }
  }

  // What the two replacement callbacks append.
  method DecodeMedia(bodies: seq<string>, dec: Decoder) returns (atts: seq<Attachment>)
    ensures atts == MediaAttachments(bodies, dec)
  {
    atts := [];
    for i := 0 to |bodies|
      invariant atts == MediaAttachments(bodies[..i], dec)
    {
      assert bodies[..i + 1][..i] == bodies[..i];
      atts := atts + [dec.media(bodies[i])];
    }
    assert bodies[..|bodies|] == bodies;
  }

  method DecodeUrls(bodies: seq<string>, dec: Decoder) returns (atts: seq<Attachment>)
    ensures atts == UrlAttachments(bodies, dec)
  {
    atts := [];
    for i := 0 to |bodies|
      invariant atts == UrlAttachments(bodies[..i], dec)
    {
      assert bodies[..i + 1][..i] == bodies[..i];
      match dec.url(bodies[i])
      case Some(a) => atts := atts + [a];
      case None =>
    }
    assert bodies[..|bodies|] == bodies;
  }

  method ResolveMediaMarkers(text: string, dec: Decoder) returns (cleaned: string, atts: seq<Attachment>)
    ensures Resolved(cleaned, atts) == Resolve(text, dec)
  {
    var bodies;
    cleaned, bodies := ReplacePass(MEDIA, text);
    ghost var first := ReplaceAll(MEDIA, text);
    assert first == Replaced(cleaned, bodies);
    atts := DecodeMedia(bodies, dec);
    cleaned, bodies := ReplacePass(URL, cleaned);
    assert ReplaceAll(URL, first.text) == Replaced(cleaned, bodies);
    var urls := DecodeUrls(bodies, dec);
    atts := atts + urls;
  }

  // ---- splitAtPartialMarker ----

  predicate OpensAt(t: string, i: int) {
    0 <= i && i + 1 < |t| && t[i] == '{' && t[i + 1] == '{'
  }

  predicate ClosesAt(t: string, i: int) {
    0 <= i && i + 1 < |t| && t[i] == '}' && t[i + 1] == '}'
  }

  // strings.LastIndex(t, "{{")
  function LastOpener(t: string): Option<nat> {
    if |t| < 2 then None
    else match LastOpener(t[1..])
      case Some(i) => Some(i + 1)
      case None => if t[0] == '{' && t[1] == '{' then Some(0) else None
  }

  // strings.Contains(t, "}}")
  predicate HasCloser(t: string) {
    exists i :: 0 <= i < |t| && ClosesAt(t, i)
  }

  function SplitAtPartialMarker(t: string): (string, string) {
    LastOpenerIs(t);
    match LastOpener(t)
    case None => (t, "")
    case Some(i) => if HasCloser(t[i..]) then (t, "") else (t[..i], t[i..])
  }

  lemma {:induction false} LastOpenerIs(t: string)
    ensures match LastOpener(t)
      case Some(i) => OpensAt(t, i) && forall j :: i < j ==> !OpensAt(t, j)
      case None => forall j :: !OpensAt(t, j)
  {
    if |t| >= 2 {
      LastOpenerIs(t[1..]);
      forall j | j > 0 ensures OpensAt(t, j) <==> OpensAt(t[1..], j - 1) {}
    }
  }

  // Nothing is lost, and what is held back is an opener without a closer and
  // without a later opener.
  lemma SplitConserves(t: string)
    ensures var (safe, held) := SplitAtPartialMarker(t);
      && safe + held == t
      && (held != "" ==> OpensAt(held, 0) && !HasCloser(held) && forall j :: 0 < j ==> !OpensAt(held, j))
      && (held == "" ==> forall i :: OpensAt(t, i) && (forall j :: i < j ==> !OpensAt(t, j)) ==> HasCloser(t[i..]))
  {
    LastOpenerIs(t);
    var (safe, held) := SplitAtPartialMarker(t);
    if held != "" {
      forall j | 0 < j ensures !OpensAt(held, j) {
        assert !OpensAt(t, |safe| + j);
      }
    } else {
      forall i | OpensAt(t, i) && forall j :: i < j ==> !OpensAt(t, j) ensures HasCloser(t[i..]) {
        assert LastOpener(t) == Some(i);
      }
    }
  }

  // ---- well-formed texts ----

  datatype Item = Plain(s: string) | Media(body: string) | Url(body: string)

  predicate BraceFree(s: string) {
    '{' !in s && '}' !in s
  }

  predicate ValidItem(x: Item) {
    match x
    case Plain(s) => BraceFree(s)
    case Media(body) => body != "" && BraceFree(body) && '\n' !in body
    case Url(body) => body != "" && BraceFree(body) && '\n' !in body
  }

  predicate WellFormed(items: seq<Item>) {
    forall x :: x in items ==> ValidItem(x)
  }

  function Render1(x: Item): string {
    match x
    case Plain(s) => s
    case Media(body) => MEDIA + (body + "}}")
    case Url(body) => URL + (body + "}}")
  }

  function Render(items: seq<Item>): string {
    if items == [] then "" else Render1(items[0]) + Render(items[1..])
  }

  function PlainText(items: seq<Item>): string {
    if items == [] then "" else if items[0].Plain? then items[0].s + PlainText(items[1..]) else PlainText(items[1..])
  }

  function MediaBodies(items: seq<Item>): seq<string> {
    if items == [] then []
    else if items[0].Media? then [items[0].body] + MediaBodies(items[1..])
    else MediaBodies(items[1..])
  }

  function UrlBodies(items: seq<Item>): seq<string> {
    if items == [] then [] else if items[0].Url? then [items[0].body] + UrlBodies(items[1..]) else UrlBodies(items[1..])
  }

  function WithoutMedia(items: seq<Item>): seq<Item> {
    if items == [] then []
    else if items[0].Media? then WithoutMedia(items[1..])
    else [items[0]] + WithoutMedia(items[1..])
  }

  function Prepend(s: string, r: Replaced): Replaced { Replaced(s + r.text, r.bodies) }

  predicate IsOpener(opener: string) { opener == MEDIA || opener == URL }

  // A stretch at whose every position the opener does not start is kept.
  lemma {:induction false} KeepsStretch(opener: string, s: string, rest: string)
    requires forall i :: 0 <= i < |s| ==> !(opener <= (s + rest)[i..])
    ensures ReplaceAll(opener, s + rest) == Prepend(s, ReplaceAll(opener, rest))
  {
    if s == "" {
      assert s + rest == rest;
    } else {
      var t := s + rest;
      assert t[1..] == s[1..] + rest;
      forall i | 0 <= i < |s[1..]| ensures !(opener <= (s[1..] + rest)[i..]) {
        assert t[1..][i..] == t[i + 1..];
      }
      KeepsStretch(opener, s[1..], rest);
      assert t[0..] == t;
      assert MatchHere(opener, t) == None;
      assert [s[0]] + (s[1..] + ReplaceAll(opener, rest).text) == s + ReplaceAll(opener, rest).text;
    }
  }

  lemma KeepsBraceFree(opener: string, s: string, rest: string)
    requires IsOpener(opener) && '{' !in s
    ensures ReplaceAll(opener, s + rest) == Prepend(s, ReplaceAll(opener, rest))
  {
    forall i | 0 <= i < |s| ensures !(opener <= (s + rest)[i..]) {
      assert (s + rest)[i..][0] == s[i] && opener[0] == '{';
      assert s[i] in s;
    }
    KeepsStretch(opener, s, rest);
  }

  // The media expression does not match a media_url marker.
  lemma MediaKeepsUrl(body: string, rest: string)
    requires BraceFree(body)
    ensures ReplaceAll(MEDIA, URL + (body + "}}") + rest) == Prepend(URL + (body + "}}"), ReplaceAll(MEDIA, rest))
  {
    var s := URL + (body + "}}");
    forall i | 0 <= i < |s| ensures !(MEDIA <= (s + rest)[i..]) {
      var u := (s + rest)[i..];
      if i == 0 {
        assert u[7] == URL[7] != MEDIA[7];
      } else if i == 1 {
        assert u[1] == URL[2] != MEDIA[1];
      } else {
        assert u[0] == s[i] != MEDIA[0];
      }
    }
    KeepsStretch(MEDIA, s, rest);
  }

  lemma {:induction false} ClosesAfterBody(body: string, rest: string)
    requires BraceFree(body) && '\n' !in body
    ensures CloseAt(body + "}}" + rest) == Some(|body|)
  {
    var t := body + "}}" + rest;
    if body != "" {
      assert t[1..] == body[1..] + "}}" + rest;
      assert t[0] == body[0] && body[0] in body;
      ClosesAfterBody(body[1..], rest);
    }
  }

  lemma BodyIsFound(body: string, rest: string)
    requires body != "" && BraceFree(body) && '\n' !in body
    ensures BodyLength(body + "}}" + rest) == Some(|body|)
  {
    var u := body + "}}" + rest;
    assert u[1..] == body[1..] + "}}" + rest;
    ClosesAfterBody(body[1..], rest);
    assert u[0] == body[0] && body[0] in body;
  }

  lemma Slices<T>(a: seq<T>, b: seq<T>, c: seq<T>, d: seq<T>)
    ensures var t := a + (b + c) + d;
      a <= t && t[|a|..] == b + c + d && t[|a|..|a| + |b|] == b && t[|a| + |b| + |c|..] == d
  {}

  // A complete marker is removed and its body kept.
  lemma RemovesMarker(opener: string, body: string, rest: string)
    requires IsOpener(opener) && body != "" && BraceFree(body) && '\n' !in body
    ensures var r := ReplaceAll(opener, rest);
      ReplaceAll(opener, opener + (body + "}}") + rest) == Replaced(r.text, [body] + r.bodies)
  {
    var t := opener + (body + "}}") + rest;
    Slices(opener, body, "}}", rest);
    BodyIsFound(body, rest);
    assert MatchHere(opener, t) == Some(|body|);
  }

  // First pass over a well-formed text.
  lemma {:induction false} FirstPass(items: seq<Item>)
    requires WellFormed(items)
    ensures ReplaceAll(MEDIA, Render(items)) == Replaced(Render(WithoutMedia(items)), MediaBodies(items))
  {
    if items != [] {
      var x, rest := items[0], items[1..];
      assert x in items;
      FirstPass(rest);
      match x
      case Plain(s) => KeepsBraceFree(MEDIA, s, Render(rest));
      case Media(body) => RemovesMarker(MEDIA, body, Render(rest));
      case Url(body) => MediaKeepsUrl(body, Render(rest));
      if !x.Media? { assert ([x] + WithoutMedia(rest))[1..] == WithoutMedia(rest); }
    }
  }

  // Second pass over what the first one leaves.
  lemma {:induction false} SecondPass(items: seq<Item>)
    requires WellFormed(items) && forall x :: x in items ==> !x.Media?
    ensures ReplaceAll(URL, Render(items)) == Replaced(PlainText(items), UrlBodies(items))
  {
    if items != [] {
      var x, rest := items[0], items[1..];
      assert x in items;
      SecondPass(rest);
      match x
      case Plain(s) => KeepsBraceFree(URL, s, Render(rest));
      case Url(body) => RemovesMarker(URL, body, Render(rest));
    }
  }

  lemma {:induction false} WithoutMediaIs(items: seq<Item>)
    requires WellFormed(items)
    ensures var r := WithoutMedia(items);
      && WellFormed(r) && (forall x :: x in r ==> !x.Media?)
      && PlainText(r) == PlainText(items) && UrlBodies(r) == UrlBodies(items)
  {
    if items != [] {
      var x, rest := items[0], items[1..];
      assert x in items;
      WithoutMediaIs(rest);
      if !x.Media? { assert ([x] + WithoutMedia(rest))[1..] == WithoutMedia(rest); }
    }
  }

  // Resolving a well-formed text leaves its plain text, and yields one
  // attachment for each marker that decodes: media markers first.
  lemma ResolveWellFormed(items: seq<Item>, dec: Decoder)
    requires WellFormed(items)
    ensures Resolve(Render(items), dec)
      == Resolved(PlainText(items), MediaAttachments(MediaBodies(items), dec) + UrlAttachments(UrlBodies(items), dec))
  {
    FirstPass(items);
    WithoutMediaIs(items);
    SecondPass(WithoutMedia(items));
  }

  predicate EndsOpen(t: string) { t != "" && t[|t| - 1] == '{' }

  lemma TailEndsOpen(t: string, n: nat)
    requires n < |t| && EndsOpen(t)
    ensures EndsOpen(t[n..])
  {}

  lemma ConsEndsOpen(c: char, t: string)
    requires EndsOpen(t)
    ensures EndsOpen([c] + t)
  {}

  lemma MatchEndsInside(opener: string, t: string, n: nat)
    requires EndsOpen(t) && MatchHere(opener, t) == Some(n)
    ensures |opener| + n + 2 < |t|
  {
    assert t[|opener| + n + 1] == '}';
  }

  lemma MatchLeavesEnd(opener: string, t: string, n: nat)
    requires EndsOpen(t) && MatchHere(opener, t) == Some(n)
    ensures EndsOpen(AfterMatch(opener, t, n))
  {
    MatchEndsInside(opener, t, n);
    TailEndsOpen(t, |opener| + n + 2);
  }

  lemma SkipIs(opener: string, t: string)
    requires t != "" && MatchHere(opener, t) == None
    ensures ReplaceAll(opener, t).text == [t[0]] + ReplaceAll(opener, t[1..]).text
  {}

  // A text ending in an opening brace still does after resolution: a match
  // ends in a closing one.
  lemma {:induction false} ReplaceKeepsLastBrace(opener: string, t: string)
    requires EndsOpen(t)
    ensures EndsOpen(ReplaceAll(opener, t).text)
    decreases |t|
  {
    match MatchHere(opener, t)
    case Some(n) =>
      MatchLeavesEnd(opener, t, n);
      MatchIs(opener, t, n);
      ReplaceKeepsLastBrace(opener, AfterMatch(opener, t, n));
    case None =>
      SkipIs(opener, t);
      if |t| > 1 {
        TailEndsOpen(t, 1);
        ReplaceKeepsLastBrace(opener, t[1..]);
        ConsEndsOpen(t[0], ReplaceAll(opener, t[1..]).text);
      }
  }

  lemma ResolveKeepsLastBrace(t: string, dec: Decoder)
    requires EndsOpen(t)
    ensures EndsOpen(Resolve(t, dec).text)
  {
    ReplaceKeepsLastBrace(MEDIA, t);
    ReplaceKeepsLastBrace(URL, ReplaceAll(MEDIA, t).text);
  }
}
