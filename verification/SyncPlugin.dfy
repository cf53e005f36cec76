// Installing and upgrading plugins from a provider's manifests
// (kernel/internal/handlers/marketplace.go): a depth-first search that
// carries on past the errors of dependencies.
module SyncPlugin {
  import opened Wrappers
  import opened Graph

  type Capability = string

  datatype Entry = Entry(id: Id, version: string, image: string)

  datatype Container = Container(name: string, role: string)

  // A manifest; fields of a plugin that neither the search nor its checks
  // look at are summed up in other.
  datatype Manifest = Manifest(
    version: string, image: string, capabilities: Option<seq<Capability>>, dependencies: Option<seq<Capability>>,
    containers: seq<Container>, other: bool)

  // A row of the plugin table.
  datatype Record = Record(
    id: Id, version: string, image: string, capabilities: seq<Capability>, dependencies: seq<Capability>,
    containers: seq<Container>)

  type Table = map<Id, Record>

  // The provider asked for by id may not exist, and without an id there may be
  // none that is enabled.
  datatype Lookup = Found | NotFound | NoneEnabled

  // Everything outside: the provider and what it answers, which writes the database
  // accepts, and the order of ids in which the database looks through the table.
  datatype World = World(
    provider: Lookup, fetch: Id -> Option<Manifest>, catalog: Option<seq<Entry>>, search: Id -> Option<seq<Entry>>,
    creates: Id -> bool, writes: Id -> bool, order: seq<Id>)

  datatype State = State(rows: Table, visited: set<Id>, list: seq<Record>)

  // ---- manifests ----

  predicate ValidRole(role: string) { role == "api" || role == "sidecar" || role == "" }

  function ApiCount(cs: seq<Container>): nat {
    if cs == [] then 0 else ApiCount(cs[..|cs| - 1]) + if cs[|cs| - 1].role == "api" then 1 else 0
  }

  // No container at all is fine: the top-level image is used.
  predicate ContainersOk(cs: seq<Container>) {
    cs == [] || (ApiCount(cs) == 1 && forall c :: c in cs ==> c.name != "" && ValidRole(c.role))
  }

  predicate HasUpdates(m: Manifest) {
    m.version != "" || m.image != "" || m.capabilities.Some? || m.dependencies.Some? || m.containers != [] || m.other
  }

  predicate Applies(w: World, id: Id) {
    w.fetch(id).Some? && ContainersOk(w.fetch(id).value.containers) && (HasUpdates(w.fetch(id).value) ==> w.writes(id))
  }

  function Or<T>(o: Option<T>, t: T): T { if o.Some? then o.value else t }

  function Applied(p: Record, m: Manifest): Record {
    Record(
      p.id, if m.version != "" then m.version else p.version, if m.image != "" then m.image else p.image,
      Or(m.capabilities, p.capabilities), Or(m.dependencies, p.dependencies),
      if m.containers != [] then m.containers else p.containers)
  }

  function Bare(e: Entry): Record { Record(e.id, e.version, e.image, [], [], []) }

  // ---- the specification ----

  predicate Offers(w: World, e: Entry, cap: Capability) {
    w.fetch(e.id).Some? && w.fetch(e.id).value.capabilities.Some? && cap in w.fetch(e.id).value.capabilities.value
  }

  function FirstOffer(w: World, entries: seq<Entry>, cap: Capability): (e: Option<Entry>)
    ensures e.Some? ==> e.value in entries && Offers(w, e.value, cap)
    ensures e.None? ==> forall x :: x in entries ==> !Offers(w, x, cap)
  {
    if entries == [] then None
    else if Offers(w, entries[0], cap) then Some(entries[0])
    else FirstOffer(w, entries[1..], cap)
  }

  function InCatalog(w: World, cap: Capability): Option<Entry> {
    if w.catalog.None? then None else FirstOffer(w, w.catalog.value, cap)
  }

  // How the capabilities column is stored: a JSON array.  Capabilities hold no
  // character that JSON would escape.
  function JsonItems(caps: seq<Capability>): string {
    if caps == [] then "" else "\"" + (caps[0] + ("\"" + ((if |caps| == 1 then "" else ",") + JsonItems(caps[1..]))))
  }

  function JsonText(caps: seq<Capability>): string {
    "[" + (JsonItems(caps) + "]")
  }

  predicate Contains(text: string, part: string) {
    exists i :: 0 <= i <= |text| && part <= text[i..]
  }

  // capabilities LIKE "%" + cap + "%"
  predicate Matches(r: Record, cap: Capability) {
    Contains(JsonText(r.capabilities), cap)
  }

  // The first row, by id, whose capabilities column contains the text.
  function FirstMatch(order: seq<Id>, rows: Table, cap: Capability): (id: Option<Id>)
    ensures id.Some? ==> id.value in order && id.value in rows && Matches(rows[id.value], cap)
    ensures id.None? ==> forall x :: x in order && x in rows ==> !Matches(rows[x], cap)
  {
    if order == [] then None
    else if order[0] in rows && Matches(rows[order[0]], cap) then Some(order[0])
    else FirstMatch(order[1..], rows, cap)
  }

  // The record a dependency is synced on, if there is one or it can be made.
  function Dependency(w: World, install: bool, cap: Capability, rows: Table): Option<Record> {
    if install then
      match InCatalog(w, cap)
      case None => None
      case Some(e) =>
        if e.id in rows then Some(rows[e.id]) else if w.creates(e.id) then Some(Bare(e)) else None
    else
      match FirstMatch(w.order, rows, cap)
      case None => None
      case Some(id) => Some(rows[id])
  }

  function WithRow(rows: Table, d: Record): Table {
    if d.id in rows then rows else rows[d.id := d]
  }

  // u bounds the ids there are: those of the table and of the catalog.
  ghost predicate Bounded(w: World, u: set<Id>, rows: Table) {
    rows.Keys <= u && Keyed(rows) && (w.catalog.Some? ==> forall e :: e in w.catalog.value ==> e.id in u)
  }

  ghost predicate Keyed(rows: Table) {
    forall id :: id in rows ==> rows[id].id == id
  }

  lemma DependencyFits(w: World, u: set<Id>, install: bool, cap: Capability, rows: Table)
    requires Bounded(w, u, rows)
    ensures match Dependency(w, install, cap, rows)
      case None => true
      case Some(d) => Bounded(w, u, WithRow(rows, d)) && WithRow(rows, d)[d.id] == d
  {}

  // What a request does, from the record with the given id on.  The flag is
  // false when the manifest of that record could not be fetched or applied;
  // the flags of dependencies are dropped.
  ghost function Sync(w: World, u: set<Id>, install: bool, id: Id, s: State): (r: (State, bool))
    requires Bounded(w, u, s.rows) && id in s.rows
    ensures s.visited <= r.0.visited && Bounded(w, u, r.0.rows)
    decreases u - s.visited, 0
  {
    if id in s.visited then (s, true)
    else if !Applies(w, id) then (s.(visited := s.visited + {id}), false)
    else
      var q := Applied(s.rows[id], w.fetch(id).value);
      (SyncDeps(w, u, install, q.dependencies, State(s.rows[id := q], s.visited + {id}, s.list + [q])), true)
  }

  ghost function SyncDeps(w: World, u: set<Id>, install: bool, deps: seq<Capability>, s: State): (r: State)
    requires Bounded(w, u, s.rows)
    ensures s.visited <= r.visited && Bounded(w, u, r.rows)
    decreases u - s.visited, |deps|
  {
    if deps == [] then s
    else
      match Dependency(w, install, deps[0], s.rows)
      case None => SyncDeps(w, u, install, deps[1..], s)
      case Some(d) =>
        var t := Sync(w, u, install, d.id, s.(rows := WithRow(s.rows, d))).0;
        SyncDeps(w, u, install, deps[1..], t)
  }

  datatype Outcome =
    | Conflict | ProviderNotFound | NoProvider | NoCatalog | NotInCatalog | BootstrapFailed | NotInstalled
    | SyncFailed | Done(list: seq<Record>)

  function EntryOf(entries: seq<Entry>, id: Id): (e: Option<Entry>)
    ensures e.Some? ==> e.value in entries && e.value.id == id
    ensures e.None? ==> forall x :: x in entries ==> x.id != id
  {
    if entries == [] then None else if entries[0].id == id then Some(entries[0]) else EntryOf(entries[1..], id)
  }

  // The refusal of a request when there is no provider.
  function Refusal(w: World): Outcome {
    if w.provider.NotFound? then ProviderNotFound else NoProvider
  }

  ghost function SyncFrom(w: World, u: set<Id>, install: bool, id: Id, rows: Table): (Table, Outcome)
    requires Bounded(w, u, rows) && id in rows
  {
    var r := Sync(w, u, install, id, State(rows, {}, []));
    (r.0.rows, if r.1 then Done(r.0.list) else SyncFailed)
  }

  ghost function Install(w: World, u: set<Id>, id: Id, rows: Table): (Table, Outcome)
    requires Bounded(w, u, rows) && id in u
  {
    if id in rows then (rows, Conflict)
    else if w.provider != Found then (rows, Refusal(w))
    else if w.search(id).None? then (rows, NoCatalog)
    else
      match EntryOf(w.search(id).value, id)
      case None => (rows, NotInCatalog)
      case Some(e) =>
        if !w.creates(id) then (rows, BootstrapFailed)
        else SyncFrom(w, u, true, id, rows[id := Bare(e)])
  }

  ghost function Upgrade(w: World, u: set<Id>, id: Id, rows: Table): (Table, Outcome)
    requires Bounded(w, u, rows)
  {
    if id !in rows then (rows, NotInstalled)
    else if w.provider != Found then (rows, Refusal(w))
    else SyncFrom(w, u, false, id, rows)
  }

  // ---- the implementation ----

  class Marketplace {
    const w: World
    var rows: Table
    var visited: set<Id>
    var allInstalled: seq<Record>

    ghost function View(): State
      reads this
    {
      State(rows, visited, allInstalled)
    }

    constructor (w: World, rows: Table)
      ensures this.w == w && View() == State(rows, {}, [])
    {
      this.w, this.rows, visited, allInstalled := w, rows, {}, [];
    }

    method CheckContainers(cs: seq<Container>) returns (ok: bool)
      ensures ok == ContainersOk(cs)
    {
      if cs == [] {
        return true;
      }
      var apiCount := 0;
      for i := 0 to |cs|
        invariant apiCount == ApiCount(cs[..i])
        invariant forall k :: 0 <= k < i ==> cs[k].name != "" && ValidRole(cs[k].role)
      {
        assert cs[..i + 1][..i] == cs[..i];
        if cs[i].name == "" {
          return false;
        }
        if cs[i].role == "api" {
          apiCount := apiCount + 1;
        } else if cs[i].role != "sidecar" && cs[i].role != "" {
          return false;
        }
      }
      assert cs[..|cs|] == cs;
      return apiCount == 1;
    }

    // fetchPluginManifest and applyManifest: the row is written at the end,
    // or not at all.
    method ApplyManifest(p: Record) returns (q: Record, ok: bool)
      requires p.id in rows && rows[p.id] == p
      modifies this`rows
      ensures ok == Applies(w, p.id)
      ensures ok ==> q == Applied(p, w.fetch(p.id).value) && rows == old(rows)[p.id := q]
      ensures !ok ==> rows == old(rows)
    {
      q, ok := p, false;
      var manifest := w.fetch(p.id);
      if manifest.None? {
        return;
      }
      var m := manifest.value;
      if m.version != "" {
        q := q.(version := m.version);
      }
      if m.image != "" {
        q := q.(image := m.image);
      }
      if m.capabilities.Some? {
        q := q.(capabilities := m.capabilities.value);
      }
      if m.dependencies.Some? {
        q := q.(dependencies := m.dependencies.value);
      }
      var valid := CheckContainers(m.containers);
      if !valid {
        return;
      }
      if m.containers != [] {
        q := q.(containers := m.containers);
      }
      if HasUpdates(m) {
        if !w.writes(p.id) {
          return;
        }
        rows := rows[p.id := q];
      }
      ok := true;
    }

    method FindProviderPlugin(cap: Capability) returns (e: Option<Entry>)
      ensures e == InCatalog(w, cap)
    {
      if w.catalog.None? {
        return None;
      }
      var entries := w.catalog.value;
      for i := 0 to |entries|
        invariant FirstOffer(w, entries, cap) == FirstOffer(w, entries[i..], cap)
      {
        var manifest := w.fetch(entries[i].id);
        if manifest.Some? && manifest.value.capabilities.Some? && cap in manifest.value.capabilities.value {
          return Some(entries[i]);
        }
      }
      return None;
    }

    method FindDependency(install: bool, cap: Capability) returns (d: Option<Record>)
      requires Keyed(rows)
      modifies this`rows
      ensures d == Dependency(w, install, cap, old(rows))
      ensures rows == if d.Some? then WithRow(old(rows), d.value) else old(rows)
      ensures d.Some? ==> d.value.id in rows && rows[d.value.id] == d.value
    {
      if install {
        var entry := FindProviderPlugin(cap);
        if entry.None? {
          return None;
        }
        var e := entry.value;
        if e.id in rows {
          return Some(rows[e.id]);
        }
        if !w.creates(e.id) {
          return None;
        }
        rows := rows[e.id := Bare(e)];
        return Some(Bare(e));
      } else {
        for i := 0 to |w.order|
          invariant rows == old(rows)
          invariant FirstMatch(w.order, rows, cap) == FirstMatch(w.order[i..], rows, cap)
        {
          if w.order[i] in rows && Matches(rows[w.order[i]], cap) {
            return Some(rows[w.order[i]]);
          }
        }
        return None;
      }
    }

    method SyncPlugin(ghost u: set<Id>, install: bool, p: Record) returns (ok: bool)
      requires Bounded(w, u, rows) && p.id in rows && rows[p.id] == p
      modifies this
      ensures (View(), ok) == Sync(w, u, install, p.id, old(View()))
      decreases u - visited
    {
      if p.id in visited {
        return true;
      }
      ghost var before := visited;
      visited := visited + {p.id};
      var q;
      q, ok := ApplyManifest(p);
      if !ok {
        return;
      }
      allInstalled := allInstalled + [q];
      var deps := q.dependencies;
      ghost var after := SyncDeps(w, u, install, deps, View());
      for i := 0 to |deps|
        invariant Bounded(w, u, rows) && before + {p.id} <= visited
        invariant after == SyncDeps(w, u, install, deps[i..], View())
      {
        assert deps[i..][0] == deps[i] && deps[i..][1..] == deps[i + 1..];
        DependencyFits(w, u, install, deps[i], rows);
        var d := FindDependency(install, deps[i]);
        if d.Some? {
          assert p.id in u - before;
          var _ := SyncPlugin(u, install, d.value);
        }
      }
    }

    method FindEntry(entries: seq<Entry>, id: Id) returns (e: Option<Entry>)
      ensures e == EntryOf(entries, id)
    {
      for i := 0 to |entries|
        invariant EntryOf(entries, id) == EntryOf(entries[i..], id)
      {
        if entries[i].id == id {
          return Some(entries[i]);
        }
      }
      return None;
    }

    method InstallPlugin(ghost u: set<Id>, id: Id) returns (outcome: Outcome)
      requires Bounded(w, u, rows) && id in u
      modifies this
      ensures (rows, outcome) == Install(w, u, id, old(rows))
    {
      if id in rows {
        return Conflict;
      }
      if w.provider != Found {
        return if w.provider.NotFound? then ProviderNotFound else NoProvider;
      }
      var entries := w.search(id);
      if entries.None? {
        return NoCatalog;
      }
      var entry := FindEntry(entries.value, id);
      if entry.None? {
        return NotInCatalog;
      }
      if !w.creates(id) {
        return BootstrapFailed;
      }
      rows := rows[id := Bare(entry.value)];
      visited, allInstalled := {}, [];
      var ok := SyncPlugin(u, true, rows[id]);
      outcome := if ok then Done(allInstalled) else SyncFailed;
    }

    method UpgradePlugin(ghost u: set<Id>, id: Id) returns (outcome: Outcome)
      requires Bounded(w, u, rows)
      modifies this
      ensures (rows, outcome) == Upgrade(w, u, id, old(rows))
    {
      if id !in rows {
        return NotInstalled;
      }
      if w.provider != Found {
        return if w.provider.NotFound? then ProviderNotFound else NoProvider;
      }
      visited, allInstalled := {}, [];
      var ok := SyncPlugin(u, false, rows[id]);
      outcome := if ok then Done(allInstalled) else SyncFailed;
    }
  }

  // ---- errors ----

  // The flag is about the first record alone.
  lemma FailsOnlyForTheRoot(w: World, u: set<Id>, install: bool, id: Id, s: State)
    requires Bounded(w, u, s.rows) && id in s.rows
    ensures Sync(w, u, install, id, s).1 <==> id in s.visited || Applies(w, id)
    ensures !Sync(w, u, install, id, s).1 ==> Sync(w, u, install, id, s).0.rows == s.rows
  {}

  // The request gets as far as creating the record.
  predicate Bootstraps(w: World, id: Id) {
    w.provider == Found && w.search(id).Some? && EntryOf(w.search(id).value, id).Some? && w.creates(id)
  }

  // A first install fails on the manifest, or is done, exactly when it gets so
  // far and the manifest of the plugin cannot, or can, be applied.
  lemma InstallOutcome(w: World, u: set<Id>, id: Id, rows: Table)
    requires Bounded(w, u, rows) && id in u && id !in rows
    ensures var r := Install(w, u, id, rows);
      && (r.1 == SyncFailed <==> Bootstraps(w, id) && !Applies(w, id))
      && (r.1.Done? <==> Bootstraps(w, id) && Applies(w, id))
      && (r.1 == SyncFailed ==> r.0 == rows[id := Bare(EntryOf(w.search(id).value, id).value)])
      && (!Bootstraps(w, id) ==> r.0 == rows)
  {
    if Bootstraps(w, id) {
      var e := EntryOf(w.search(id).value, id).value;
      FailsOnlyForTheRoot(w, u, true, id, State(rows[id := Bare(e)], {}, []));
    }
  }

  // A failed first install can be retried exactly if it did not get as far as
  // creating the record: otherwise the bare record stays behind, and because
  // of it every later attempt is refused, whatever has changed meanwhile.
  lemma FailedInstallBlocksRetry(w: World, later: World, u: set<Id>, id: Id, rows: Table)
    requires Bounded(w, u, rows) && id in u && id !in rows && !Install(w, u, id, rows).1.Done?
    requires Bounded(later, u, Install(w, u, id, rows).0)
    ensures var r := Install(w, u, id, rows);
      Install(later, u, id, r.0) == (r.0, Conflict) <==> Bootstraps(w, id)
  {
    InstallOutcome(w, u, id, rows);
  }

  // ---- upgrades ----

  // An upgrade creates no record, whatever the manifests say.
  lemma {:induction false} UpgradeCreatesNothing(w: World, u: set<Id>, id: Id, s: State)
    requires Bounded(w, u, s.rows) && id in s.rows
    ensures Sync(w, u, false, id, s).0.rows.Keys == s.rows.Keys
    decreases u - s.visited, 0
  {
    if id !in s.visited && Applies(w, id) {
      var q := Applied(s.rows[id], w.fetch(id).value);
      UpgradeDepsCreateNothing(w, u, q.dependencies, State(s.rows[id := q], s.visited + {id}, s.list + [q]));
    }
  }

  lemma {:induction false} UpgradeDepsCreateNothing(w: World, u: set<Id>, deps: seq<Capability>, s: State)
    requires Bounded(w, u, s.rows)
    ensures SyncDeps(w, u, false, deps, s).rows.Keys == s.rows.Keys
    decreases u - s.visited, |deps|
  {
    if deps != [] {
      match Dependency(w, false, deps[0], s.rows)
      case None => UpgradeDepsCreateNothing(w, u, deps[1..], s);
      case Some(d) =>
        assert s.(rows := WithRow(s.rows, d)) == s;
        UpgradeCreatesNothing(w, u, d.id, s);
        UpgradeDepsCreateNothing(w, u, deps[1..], Sync(w, u, false, d.id, s).0);
    }
  }

  // ---- what the capability query finds ----

  lemma PartAvoids(t: string, n: nat, part: string, i: nat)
    requires n < |t| && i <= |t| && part <= t[i..] && t[n] !in part
    ensures n < i || i + |part| <= n
  {
    assert forall k :: 0 <= k < |part| ==> part[k] == t[i + k] && part[k] in part;
  }

  lemma ContainsIfPart(a: string, x: char, b: string, part: string)
    requires x !in part && part != ""
    ensures Contains(a + ([x] + b), part) <==> Contains(a, part) || Contains(b, part)
  {
    var t := a + ([x] + b);
    if Contains(t, part) {
      var i :| 0 <= i <= |t| && part <= t[i..];
      PartAvoids(t, |a|, part, i);
      if i <= |a| {
        assert part == t[i..][..|part|] == a[i..][..|part|];
        assert part <= a[i..];
      } else {
        assert t[i..] == b[i - |a| - 1..];
        assert part <= b[i - |a| - 1..];
      }
    }
    if Contains(a, part) { ContainsOnTheLeft(a, [x] + b, part); }
    if Contains(b, part) {
      ContainsOnTheRight([x], b, part);
      ContainsOnTheRight(a, [x] + b, part);
    }
  }

  lemma ContainsOnTheLeft(a: string, b: string, part: string)
    requires Contains(a, part)
    ensures Contains(a + b, part)
  {
    var i :| 0 <= i <= |a| && part <= a[i..];
    assert (a + b)[i..] == a[i..] + b;
    assert part <= (a + b)[i..];
  }

  lemma ContainsOnTheRight(a: string, b: string, part: string)
    requires Contains(b, part)
    ensures Contains(a + b, part)
  {
    var i :| 0 <= i <= |b| && part <= b[i..];
    assert (a + b)[|a| + i..] == b[i..];
    assert part <= (a + b)[|a| + i..];
  }

  // Not empty, and without the characters that frame a JSON array of strings.
  predicate PlainCapability(cap: Capability) {
    cap != "" && '"' !in cap && '[' !in cap && ']' !in cap && ',' !in cap
  }

  ghost predicate Resembles(caps: seq<Capability>, cap: Capability) {
    exists c :: c in caps && Contains(c, cap)
  }

  lemma {:induction false} ItemsContain(caps: seq<Capability>, cap: Capability)
    requires PlainCapability(cap)
    ensures Contains(JsonItems(caps), cap) <==> Resembles(caps, cap)
  {
    if caps != [] {
      var rest := (if |caps| == 1 then "" else ",") + JsonItems(caps[1..]);
      ItemsContain(caps[1..], cap);
      ContainsIfPart("", '"', caps[0] + ("\"" + rest), cap);
      assert "\"" + (caps[0] + ("\"" + rest)) == "" + (['"'] + (caps[0] + ("\"" + rest)));
      ContainsIfPart(caps[0], '"', rest, cap);
      if |caps| == 1 {
        assert caps == [caps[0]];
      } else {
        ContainsIfPart("", ',', JsonItems(caps[1..]), cap);
        assert rest == "" + ([','] + JsonItems(caps[1..]));
        assert caps == [caps[0]] + caps[1..];
      }
    }
  }

  // A row matches exactly if some capability of it contains the one looked for:
  // being equal to it is enough, but not needed.
  lemma MatchesExactlyWhen(r: Record, cap: Capability)
    requires PlainCapability(cap)
    ensures Matches(r, cap) <==> Resembles(r.capabilities, cap)
    ensures cap in r.capabilities ==> Matches(r, cap)
  {
    var items := JsonItems(r.capabilities);
    ItemsContain(r.capabilities, cap);
    ContainsIfPart("", '[', items + "]", cap);
    assert JsonText(r.capabilities) == "" + (['['] + (items + "]"));
    ContainsIfPart(items, ']', "", cap);
    assert items + "]" == items + ([']'] + "");
    assert cap[0..] == cap;
    assert Contains(cap, cap);
  }

  // The first row that really offers the capability.
  function FirstOfferer(order: seq<Id>, rows: Table, cap: Capability): (id: Option<Id>)
    ensures id.Some? ==> id.value in rows && cap in rows[id.value].capabilities
    ensures id.None? ==> forall x :: x in order && x in rows ==> cap !in rows[x].capabilities
  {
    if order == [] then None
    else if order[0] in rows && cap in rows[order[0]].capabilities then Some(order[0])
    else FirstOfferer(order[1..], rows, cap)
  }

  predicate OffersAt(order: seq<Id>, rows: Table, cap: Capability, i: nat) {
    i < |order| && order[i] in rows && cap in rows[order[i]].capabilities
  }

  // Row i comes before every row that offers the capability, and has one that
  // merely contains it.
  ghost predicate Shadows(order: seq<Id>, rows: Table, cap: Capability, i: nat) {
    && i < |order| && order[i] in rows && Resembles(rows[order[i]].capabilities, cap)
    && forall j: nat :: j <= i ==> !OffersAt(order, rows, cap, j)
  }

  // The query of an upgrade finds the first row that offers the capability, or
  // none if there is none, exactly if no row shadows it.
  lemma {:induction false} QueryIsRightExactlyWhen(order: seq<Id>, rows: Table, cap: Capability)
    requires PlainCapability(cap)
    ensures FirstMatch(order, rows, cap) == FirstOfferer(order, rows, cap)
      <==> !exists i: nat :: Shadows(order, rows, cap, i)
  {
    if order != [] {
      var rest := order[1..];
      QueryIsRightExactlyWhen(rest, rows, cap);
      if order[0] in rows { MatchesExactlyWhen(rows[order[0]], cap); }
      if OffersAt(order, rows, cap, 0) {
        assert forall i: nat :: !Shadows(order, rows, cap, i);
      } else if order[0] in rows && Matches(rows[order[0]], cap) {
        assert Shadows(order, rows, cap, 0);
      } else {
        ShadowsShift(order, rows, cap);
      }
    }
  }

  lemma ShadowsShift(order: seq<Id>, rows: Table, cap: Capability)
    requires order != [] && !OffersAt(order, rows, cap, 0) && !Shadows(order, rows, cap, 0)
    ensures (exists i: nat :: Shadows(order, rows, cap, i)) <==> exists i: nat :: Shadows(order[1..], rows, cap, i)
  {
    forall i: nat ensures OffersAt(order[1..], rows, cap, i) <==> OffersAt(order, rows, cap, i + 1) {}
    if i: nat :| Shadows(order, rows, cap, i) {
      assert i > 0;
      assert Shadows(order[1..], rows, cap, i - 1);
    }
    if i: nat :| Shadows(order[1..], rows, cap, i) {
      forall j: nat | j <= i + 1 ensures !OffersAt(order, rows, cap, j) {
        if j > 0 { assert !OffersAt(order[1..], rows, cap, j - 1); }
      }
      assert Shadows(order, rows, cap, i + 1);
    }
  }

  // A table in which it is shadowed, for every capability: row a offers what
  // the capability is the beginning of.
  lemma LongerCapabilityShadows(cap: Capability, more: string)
    requires PlainCapability(cap) && more != ""
    ensures var a, b := Record("a", "", "", [cap + more], [], []), Record("b", "", "", [cap], [], []);
      var rows := map["a" := a, "b" := b];
      FirstMatch(["a", "b"], rows, cap) == Some("a") && FirstOfferer(["a", "b"], rows, cap) == Some("b")
  {
    var a, b := Record("a", "", "", [cap + more], [], []), Record("b", "", "", [cap], [], []);
    assert (cap + more)[0..] == cap + more && cap <= cap + more;
    assert Contains(cap + more, cap) && cap + more in a.capabilities && |cap + more| > |cap|;
    MatchesExactlyWhen(a, cap);
    assert ["a", "b"][1..] == ["b"];
    assert cap !in a.capabilities && cap in b.capabilities;
  }

  // ---- what a search has done ----

  ghost function ListIds(list: seq<Record>): set<Id> {
    set r | r in list :: r.id
  }

  // The bare record of a catalog entry.
  ghost predicate OfCatalog(w: World, o: Record) {
    w.catalog.Some? && exists e :: e in w.catalog.value && o == Bare(e)
  }

  // o is what the record was before its manifest was applied.
  ghost predicate FromOrigin(w: World, base: Table, o: Record) {
    if o.id in base then o == base[o.id] else w.creates(o.id) && OfCatalog(w, o)
  }

  ghost predicate FromManifest(w: World, base: Table, r: Record) {
    exists o :: FromOrigin(w, base, o) && o.id == r.id && w.fetch(o.id).Some? && r == Applied(o, w.fetch(o.id).value)
  }

  ghost predicate RowOk(w: World, base: Table, visited: set<Id>, r: Record) {
    if r.id in visited && Applies(w, r.id) then FromManifest(w, base, r) else FromOrigin(w, base, r)
  }

  ghost predicate NoDuplicates(list: seq<Record>) {
    forall i, j :: 0 <= i < j < |list| ==> list[i].id != list[j].id
  }

  // The list holds, once each and as stored, exactly the visited records
  // whose manifest was applied; no other record has changed.
  ghost predicate Inv(w: World, base: Table, s: State) {
    && Keyed(s.rows) && base.Keys <= s.rows.Keys && s.visited <= s.rows.Keys && NoDuplicates(s.list)
    && (forall id :: id in ListIds(s.list) <==> id in s.visited && Applies(w, id))
    && (forall r :: r in s.list ==> r.id in s.rows && s.rows[r.id] == r)
    && (forall id :: id in s.rows ==> RowOk(w, base, s.visited, s.rows[id]))
  }

  // Nothing that had been visited or listed is touched again.
  ghost predicate Extends(s: State, r: State) {
    s.visited <= r.visited && s.list <= r.list
  }

  lemma ListSnoc(list: seq<Record>, q: Record)
    requires NoDuplicates(list) && q.id !in ListIds(list)
    ensures NoDuplicates(list + [q]) && ListIds(list + [q]) == ListIds(list) + {q.id}
  {
    forall i, j | 0 <= i < j < |list + [q]| ensures (list + [q])[i].id != (list + [q])[j].id {
      assert list[i] in list;
    }
    forall id | id in ListIds(list + [q]) ensures id in ListIds(list) + {q.id} {
      var r :| r in list + [q] && r.id == id;
      if r in list { assert r.id in ListIds(list); }
    }
    forall id | id in ListIds(list) + {q.id} ensures id in ListIds(list + [q]) {
      if id in ListIds(list) {
        var r :| r in list && r.id == id;
        assert r in list + [q];
      } else {
        assert q in list + [q];
      }
    }
  }

  lemma VisitFails(w: World, base: Table, id: Id, s: State)
    requires Inv(w, base, s) && id in s.rows && !Applies(w, id)
    ensures Inv(w, base, s.(visited := s.visited + {id}))
  {}

  lemma VisitApplies(w: World, base: Table, id: Id, s: State)
    requires Inv(w, base, s) && id in s.rows && id !in s.visited && Applies(w, id)
    ensures var q := Applied(s.rows[id], w.fetch(id).value);
      Inv(w, base, State(s.rows[id := q], s.visited + {id}, s.list + [q]))
  {
    var q := Applied(s.rows[id], w.fetch(id).value);
    ListSnoc(s.list, q);
    assert RowOk(w, base, s.visited, s.rows[id]);
    assert FromManifest(w, base, q);
    var t := State(s.rows[id := q], s.visited + {id}, s.list + [q]);
    forall r | r in t.list ensures r.id in t.rows && t.rows[r.id] == r {
      if r in s.list { assert r.id in ListIds(s.list); }
    }
    forall k | k in t.rows ensures RowOk(w, base, t.visited, t.rows[k]) {
      if k != id { assert RowOk(w, base, s.visited, s.rows[k]); }
    }
  }

  lemma AddRow(w: World, install: bool, cap: Capability, base: Table, s: State)
    requires Inv(w, base, s)
    ensures match Dependency(w, install, cap, s.rows)
      case None => true
      case Some(d) => Inv(w, base, s.(rows := WithRow(s.rows, d)))
  {
    if Dependency(w, install, cap, s.rows).Some? {
      var d := Dependency(w, install, cap, s.rows).value;
      var t := WithRow(s.rows, d);
      forall k | k in t ensures RowOk(w, base, s.visited, t[k]) {
        if k in s.rows { assert RowOk(w, base, s.visited, s.rows[k]); }
      }
    }
  }

  lemma {:induction false} SyncKeepsInv(w: World, u: set<Id>, install: bool, id: Id, base: Table, s: State)
    requires Bounded(w, u, s.rows) && id in s.rows && Inv(w, base, s)
    ensures var r := Sync(w, u, install, id, s).0; Inv(w, base, r) && Extends(s, r) && id in r.visited
    decreases u - s.visited, 0
  {
    if id !in s.visited {
      if Applies(w, id) {
        var q := Applied(s.rows[id], w.fetch(id).value);
        var t := State(s.rows[id := q], s.visited + {id}, s.list + [q]);
        VisitApplies(w, base, id, s);
        SyncDepsKeepInv(w, u, install, q.dependencies, base, t);
        assert Extends(s, t);
      } else {
        VisitFails(w, base, id, s);
      }
    }
  }

  lemma {:induction false} SyncDepsKeepInv(w: World, u: set<Id>, install: bool, deps: seq<Capability>, base: Table,
      s: State)
    requires Bounded(w, u, s.rows) && Inv(w, base, s)
    ensures var r := SyncDeps(w, u, install, deps, s); Inv(w, base, r) && Extends(s, r)
    decreases u - s.visited, |deps|
  {
    if deps != [] {
      match Dependency(w, install, deps[0], s.rows)
      case None => SyncDepsKeepInv(w, u, install, deps[1..], base, s);
      case Some(d) =>
        AddRow(w, install, deps[0], base, s);
        var a := s.(rows := WithRow(s.rows, d));
        var t := Sync(w, u, install, d.id, a).0;
        SyncKeepsInv(w, u, install, d.id, base, a);
        SyncDepsKeepInv(w, u, install, deps[1..], base, t);
    }
  }

  lemma InitialInv(w: World, rows: Table)
    requires Keyed(rows)
    ensures Inv(w, rows, State(rows, {}, []))
  {}

  // On any graph: the list has no id twice and holds exactly the visited
  // plugins whose manifest was fetched and applied, as they are stored.
  lemma ListIsWhatWasApplied(w: World, u: set<Id>, install: bool, id: Id, rows: Table)
    requires Bounded(w, u, rows) && id in rows
    ensures var r := Sync(w, u, install, id, State(rows, {}, [])).0; Inv(w, rows, r) && id in r.visited
  {
    InitialInv(w, rows);
    SyncKeepsInv(w, u, install, id, rows, State(rows, {}, []));
  }

  // ---- how far a request reaches ----

  // The dependencies of a record once its manifest has been applied.
  function DepsAfter(w: World, base: Table, id: Id): seq<Capability>
    requires w.fetch(id).Some?
  {
    Or(w.fetch(id).value.dependencies, if id in base then base[id].dependencies else [])
  }

  // For an install: the catalog has a provider, and a record of it exists or can
  // be made.  For an upgrade: some row matches.
  predicate Provided(w: World, install: bool, base: Table, cap: Capability) {
    if install then
      InCatalog(w, cap).Some? && (InCatalog(w, cap).value.id in base || w.creates(InCatalog(w, cap).value.id))
    else FirstMatch(w.order, base, cap).Some?
  }

  function ProviderId(w: World, install: bool, base: Table, cap: Capability): Id
    requires Provided(w, install, base, cap)
  {
    if install then InCatalog(w, cap).value.id else FirstMatch(w.order, base, cap).value
  }

  // No manifest changes the capabilities of a row there is.
  ghost predicate CapabilitiesStay(w: World, base: Table) {
    forall id :: id in base && Applies(w, id) ==>
      Or(w.fetch(id).value.capabilities, base[id].capabilities) == base[id].capabilities
  }

  // An upgrade looks dependencies up in the table; what it finds can be told
  // beforehand as long as no capabilities change on the way.
  ghost predicate Foreseeable(w: World, install: bool, base: Table, rows: Table) {
    install || (CapabilitiesStay(w, base) && rows.Keys == base.Keys)
  }

  // The plugins a request goes on to from a plugin.
  ghost function Next(w: World, install: bool, base: Table, id: Id): set<Id> {
    if !Applies(w, id) then {}
    else set cap | cap in DepsAfter(w, base, id) && Provided(w, install, base, cap) :: ProviderId(w, install, base, cap)
  }

  lemma AppliedDeps(w: World, base: Table, r: Record)
    requires Keyed(base) && FromOrigin(w, base, r) && w.fetch(r.id).Some?
    ensures Applied(r, w.fetch(r.id).value).dependencies == DepsAfter(w, base, r.id)
  {}

  lemma {:induction false} SameMatches(order: seq<Id>, a: Table, b: Table, cap: Capability)
    requires a.Keys == b.Keys && forall id :: id in a ==> a[id].capabilities == b[id].capabilities
    ensures FirstMatch(order, a, cap) == FirstMatch(order, b, cap)
  {
    if order != [] { SameMatches(order[1..], a, b, cap); }
  }

  lemma DependencyIs(w: World, install: bool, base: Table, s: State, cap: Capability)
    requires Keyed(base) && Inv(w, base, s) && Foreseeable(w, install, base, s.rows)
    ensures Dependency(w, install, cap, s.rows).Some? <==> Provided(w, install, base, cap)
    ensures Provided(w, install, base, cap) ==>
      Dependency(w, install, cap, s.rows).value.id == ProviderId(w, install, base, cap)
  {
    if install {
      if InCatalog(w, cap).Some? && InCatalog(w, cap).value.id in s.rows {
        assert RowOk(w, base, s.visited, s.rows[InCatalog(w, cap).value.id]);
      }
    } else {
      forall id | id in base ensures s.rows[id].capabilities == base[id].capabilities {
        assert RowOk(w, base, s.visited, s.rows[id]) && s.rows[id].id == id;
      }
      SameMatches(w.order, s.rows, base, cap);
    }
  }

  ghost predicate DepsVisited(w: World, install: bool, base: Table, deps: seq<Capability>, visited: set<Id>) {
    forall i :: 0 <= i < |deps| && Provided(w, install, base, deps[i]) ==>
      ProviderId(w, install, base, deps[i]) in visited
  }

  ghost predicate ClosedBut(w: World, install: bool, base: Table, visited: set<Id>, open: set<Id>) {
    forall id :: id in visited && id !in open ==> Next(w, install, base, id) <= visited
  }

  lemma NextIsVisited(w: World, install: bool, base: Table, id: Id, visited: set<Id>)
    requires Applies(w, id) && DepsVisited(w, install, base, DepsAfter(w, base, id), visited)
    ensures Next(w, install, base, id) <= visited
  {
    var deps := DepsAfter(w, base, id);
    forall x | x in Next(w, install, base, id) ensures x in visited {
      var cap :| cap in deps && Provided(w, install, base, cap) && ProviderId(w, install, base, cap) == x;
      var i :| 0 <= i < |deps| && deps[i] == cap;
      assert Provided(w, install, base, deps[i]);
    }
  }

  // The invariant, with what an upgrade finds foreseeable.
  ghost predicate Going(w: World, u: set<Id>, install: bool, base: Table, s: State) {
    Bounded(w, u, s.rows) && Keyed(base) && Inv(w, base, s) && Foreseeable(w, install, base, s.rows)
  }

  lemma VisitGoesOn(w: World, u: set<Id>, install: bool, base: Table, id: Id, s: State)
    requires Going(w, u, install, base, s) && id in s.rows && id !in s.visited && Applies(w, id)
    ensures var q := Applied(s.rows[id], w.fetch(id).value);
      Going(w, u, install, base, State(s.rows[id := q], s.visited + {id}, s.list + [q]))
      && q.dependencies == DepsAfter(w, base, id)
  {
    assert RowOk(w, base, s.visited, s.rows[id]);
    AppliedDeps(w, base, s.rows[id]);
    VisitApplies(w, base, id, s);
  }

  // Syncing the provider of a dependency, and going on from there.
  lemma ProviderGoesOn(w: World, u: set<Id>, install: bool, base: Table, cap: Capability, s: State)
    requires Going(w, u, install, base, s) && Provided(w, install, base, cap)
    ensures Dependency(w, install, cap, s.rows).Some?
    ensures var d := Dependency(w, install, cap, s.rows).value;
      var a := s.(rows := WithRow(s.rows, d));
      && d.id == ProviderId(w, install, base, cap) && d.id in a.rows
      && Going(w, u, install, base, a) && Going(w, u, install, base, Sync(w, u, install, d.id, a).0)
  {
    DependencyIs(w, install, base, s, cap);
    DependencyFits(w, u, install, cap, s.rows);
    AddRow(w, install, cap, base, s);
    var d := Dependency(w, install, cap, s.rows).value;
    var a := s.(rows := WithRow(s.rows, d));
    SyncKeepsInv(w, u, install, d.id, base, a);
    if !install { UpgradeCreatesNothing(w, u, d.id, a); }
  }

  lemma {:induction false} SyncCloses(
      w: World, u: set<Id>, install: bool, id: Id, base: Table, s: State, open: set<Id>)
    requires Going(w, u, install, base, s) && id in s.rows && ClosedBut(w, install, base, s.visited, open)
    ensures ClosedBut(w, install, base, Sync(w, u, install, id, s).0.visited, open)
    decreases u - s.visited, 0
  {
    if id !in s.visited && Applies(w, id) {
      var q := Applied(s.rows[id], w.fetch(id).value);
      var t := State(s.rows[id := q], s.visited + {id}, s.list + [q]);
      VisitGoesOn(w, u, install, base, id, s);
      WidenVisited(w, install, base, s.visited, id, open);
      SyncDepsClose(w, u, install, q.dependencies, base, t, open + {id});
      NextIsVisited(w, install, base, id, SyncDeps(w, u, install, q.dependencies, t).visited);
    } else if id !in s.visited {
      assert Next(w, install, base, id) == {};
    }
  }

  lemma WidenVisited(w: World, install: bool, base: Table, visited: set<Id>, id: Id, open: set<Id>)
    requires ClosedBut(w, install, base, visited, open)
    ensures ClosedBut(w, install, base, visited + {id}, open + {id})
  {}

  lemma {:induction false} SyncDepsClose(
      w: World, u: set<Id>, install: bool, deps: seq<Capability>, base: Table, s: State, open: set<Id>)
    requires Going(w, u, install, base, s) && ClosedBut(w, install, base, s.visited, open)
    ensures var r := SyncDeps(w, u, install, deps, s);
      ClosedBut(w, install, base, r.visited, open) && DepsVisited(w, install, base, deps, r.visited)
    decreases u - s.visited, |deps|
  {
    if deps != [] {
      DependencyIs(w, install, base, s, deps[0]);
      var t := s;
      if Provided(w, install, base, deps[0]) {
        var d := Dependency(w, install, deps[0], s.rows).value;
        var a := s.(rows := WithRow(s.rows, d));
        ProviderGoesOn(w, u, install, base, deps[0], s);
        t := Sync(w, u, install, d.id, a).0;
        SyncKeepsInv(w, u, install, d.id, base, a);
        SyncCloses(w, u, install, d.id, base, a, open);
      }
      SyncDepsClose(w, u, install, deps[1..], base, t, open);
      DepsVisitedCons(w, install, base, deps, SyncDeps(w, u, install, deps[1..], t).visited);
    }
  }

  lemma DepsVisitedCons(w: World, install: bool, base: Table, deps: seq<Capability>, visited: set<Id>)
    requires deps != [] && DepsVisited(w, install, base, deps[1..], visited)
    requires Provided(w, install, base, deps[0]) ==> ProviderId(w, install, base, deps[0]) in visited
    ensures DepsVisited(w, install, base, deps, visited)
  {
    forall i | 0 <= i < |deps| && Provided(w, install, base, deps[i])
      ensures ProviderId(w, install, base, deps[i]) in visited
    {
      if i > 0 { assert deps[i] == deps[1..][i - 1]; }
    }
  }

  ghost predicate ClosedSet(w: World, install: bool, base: Table, ids: set<Id>) {
    forall id :: id in ids ==> Next(w, install, base, id) <= ids
  }

  lemma {:induction false} SyncStaysWithin(
      w: World, u: set<Id>, install: bool, id: Id, base: Table, s: State, ids: set<Id>)
    requires Going(w, u, install, base, s) && id in s.rows
    requires ClosedSet(w, install, base, ids) && id in ids && s.visited <= ids
    ensures Sync(w, u, install, id, s).0.visited <= ids
    decreases u - s.visited, 0
  {
    if id !in s.visited && Applies(w, id) {
      var q := Applied(s.rows[id], w.fetch(id).value);
      VisitGoesOn(w, u, install, base, id, s);
      forall cap | cap in q.dependencies && Provided(w, install, base, cap)
        ensures ProviderId(w, install, base, cap) in ids
      {
        assert ProviderId(w, install, base, cap) in Next(w, install, base, id);
      }
      var t := State(s.rows[id := q], s.visited + {id}, s.list + [q]);
      SyncDepsStayWithin(w, u, install, q.dependencies, base, t, ids);
    }
  }

  lemma {:induction false} SyncDepsStayWithin(
      w: World, u: set<Id>, install: bool, deps: seq<Capability>, base: Table, s: State, ids: set<Id>)
    requires Going(w, u, install, base, s)
    requires ClosedSet(w, install, base, ids) && s.visited <= ids
    requires forall cap :: cap in deps && Provided(w, install, base, cap) ==> ProviderId(w, install, base, cap) in ids
    ensures SyncDeps(w, u, install, deps, s).visited <= ids
    decreases u - s.visited, |deps|
  {
    if deps != [] {
      DependencyIs(w, install, base, s, deps[0]);
      var t := s;
      if Provided(w, install, base, deps[0]) {
        var d := Dependency(w, install, deps[0], s.rows).value;
        var a := s.(rows := WithRow(s.rows, d));
        ProviderGoesOn(w, u, install, base, deps[0], s);
        t := Sync(w, u, install, d.id, a).0;
        SyncStaysWithin(w, u, install, d.id, base, a, ids);
      }
      SyncDepsStayWithin(w, u, install, deps[1..], base, t, ids);
    }
  }

  ghost predicate LeastClosed(w: World, install: bool, base: Table, id: Id, visited: set<Id>) {
    && id in visited && ClosedSet(w, install, base, visited)
    && forall ids :: id in ids && ClosedSet(w, install, base, ids) ==> visited <= ids
  }

  lemma ReachesTheClosure(w: World, u: set<Id>, install: bool, id: Id, rows: Table)
    requires Bounded(w, u, rows) && id in rows && Foreseeable(w, install, rows, rows)
    ensures LeastClosed(w, install, rows, id, Sync(w, u, install, id, State(rows, {}, [])).0.visited)
  {
    var s := State(rows, {}, []);
    InitialInv(w, rows);
    SyncKeepsInv(w, u, install, id, rows, s);
    SyncCloses(w, u, install, id, rows, s, {});
    forall ids | id in ids && ClosedSet(w, install, rows, ids) ensures Sync(w, u, install, id, s).0.visited <= ids {
      SyncStaysWithin(w, u, install, id, rows, s, ids);
    }
  }

  // An install reaches exactly the dependency closure of the plugin: the
  // least set with the plugin in it that is closed under going on to the
  // catalog's first provider of each dependency.
  lemma InstallReachesTheClosure(w: World, u: set<Id>, id: Id, rows: Table)
    requires Bounded(w, u, rows) && id in rows
    ensures LeastClosed(w, true, rows, id, Sync(w, u, true, id, State(rows, {}, [])).0.visited)
  {
    ReachesTheClosure(w, u, true, id, rows);
  }

  // As long as no manifest changes capabilities, an upgrade reaches exactly the
  // least set closed under going on to the first row that matches.  It always
  // stays among the rows there are.
  lemma UpgradeReachesTheMatches(w: World, u: set<Id>, id: Id, rows: Table)
    requires Bounded(w, u, rows) && id in rows
    ensures var visited := Sync(w, u, false, id, State(rows, {}, [])).0.visited;
      && visited <= rows.Keys
      && (CapabilitiesStay(w, rows) ==> LeastClosed(w, false, rows, id, visited))
  {
    ListIsWhatWasApplied(w, u, false, id, rows);
    UpgradeCreatesNothing(w, u, id, State(rows, {}, []));
    if CapabilitiesStay(w, rows) { ReachesTheClosure(w, u, false, id, rows); }
  }

  lemma {:induction false} SyncAddsVisited(w: World, u: set<Id>, install: bool, id: Id, s: State)
    requires Bounded(w, u, s.rows) && id in s.rows
    ensures var r := Sync(w, u, install, id, s).0; r.rows.Keys <= s.rows.Keys + r.visited && id in r.visited
    decreases u - s.visited, 0
  {
    if id !in s.visited && Applies(w, id) {
      var q := Applied(s.rows[id], w.fetch(id).value);
      SyncDepsAddVisited(w, u, install, q.dependencies, State(s.rows[id := q], s.visited + {id}, s.list + [q]));
    }
  }

  lemma {:induction false} SyncDepsAddVisited(w: World, u: set<Id>, install: bool, deps: seq<Capability>, s: State)
    requires Bounded(w, u, s.rows)
    ensures var r := SyncDeps(w, u, install, deps, s); r.rows.Keys <= s.rows.Keys + r.visited
    decreases u - s.visited, |deps|
  {
    if deps != [] {
      match Dependency(w, install, deps[0], s.rows)
      case None => SyncDepsAddVisited(w, u, install, deps[1..], s);
      case Some(d) =>
        var a := s.(rows := WithRow(s.rows, d));
        SyncAddsVisited(w, u, install, d.id, a);
        SyncDepsAddVisited(w, u, install, deps[1..], Sync(w, u, install, d.id, a).0);
    }
  }

  // The records an install creates are the plugins it reaches that were not
  // there; one whose manifest does not apply stays bare.  Records it does not
  // reach are as they were.
  lemma InstallCreatesTheClosure(w: World, u: set<Id>, id: Id, rows: Table)
    requires Bounded(w, u, rows) && id in rows
    ensures var r := Sync(w, u, true, id, State(rows, {}, [])).0;
      && r.rows.Keys == rows.Keys + r.visited
      && (forall k :: k in r.rows && k !in rows && !Applies(w, k) ==>
            r.rows[k].dependencies == [] && r.rows[k].capabilities == [])
      && (forall k :: k in rows && !(k in r.visited && Applies(w, k)) ==> r.rows[k] == rows[k])
  {
    ListIsWhatWasApplied(w, u, true, id, rows);
    SyncAddsVisited(w, u, true, id, State(rows, {}, []));
    var r := Sync(w, u, true, id, State(rows, {}, [])).0;
    forall k | k in r.rows ensures RowOk(w, rows, r.visited, r.rows[k]) && r.rows[k].id == k {}
  }
}
