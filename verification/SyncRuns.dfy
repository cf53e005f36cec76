// What an install or upgrade request comes to, told from the table and the
// manifests alone.
module SyncRuns {
  import opened Wrappers
  import opened Graph
  import opened SyncPlugin

  // ---- first means first ----

  lemma {:induction false} EntryOfIs(entries: seq<Entry>, id: Id, k: nat)
    requires k < |entries| && entries[k].id == id && forall j :: 0 <= j < k ==> entries[j].id != id
    ensures EntryOf(entries, id) == Some(entries[k])
  {
    if k > 0 { EntryOfIs(entries[1..], id, k - 1); }
  }

  ghost predicate ManifestLists(w: World, id: Id, cap: Capability) {
    exists m: Manifest, caps :: w.fetch(id) == Some(m) && m.capabilities == Some(caps) && cap in caps
  }

  lemma {:induction false} FirstOfferIs(w: World, entries: seq<Entry>, cap: Capability, k: nat)
    requires k < |entries| && ManifestLists(w, entries[k].id, cap)
    requires forall j :: 0 <= j < k ==> !ManifestLists(w, entries[j].id, cap)
    ensures FirstOffer(w, entries, cap) == Some(entries[k])
  {
    if k > 0 { FirstOfferIs(w, entries[1..], cap, k - 1); }
  }

  // ---- manifests ----

  // Every column the manifest gives is as it gives it.
  predicate Carries(q: Record, m: Manifest) {
    && (m.version == "" || m.version == q.version) && (m.image == "" || m.image == q.image)
    && (m.capabilities.Some? ==> m.capabilities.value == q.capabilities)
    && (m.dependencies.Some? ==> m.dependencies.value == q.dependencies)
    && (m.containers == [] || m.containers == q.containers)
  }

  // Every other column is as it was.
  predicate KeepsTheRest(p: Record, q: Record, m: Manifest) {
    && p.id == q.id && (m.version == "" ==> p.version == q.version) && (m.image == "" ==> p.image == q.image)
    && (m.capabilities.None? ==> p.capabilities == q.capabilities)
    && (m.dependencies.None? ==> p.dependencies == q.dependencies)
    && (m.containers == [] ==> p.containers == q.containers)
  }

  // Applying a manifest makes the record carry it and keeps the rest, and no
  // other record does both; applying it again changes nothing.
  lemma AppliedIs(p: Record, q: Record, m: Manifest)
    ensures q == Applied(p, m) <==> Carries(q, m) && KeepsTheRest(p, q, m)
    ensures Applied(Applied(p, m), m) == Applied(p, m)
  {
  }

  // The write is skipped exactly for manifests that change no record.
  lemma SkipsOnlyEmptyManifests(m: Manifest)
    ensures !HasUpdates(m) <==> !m.other && forall p :: Applied(p, m) == p
  {
    if HasUpdates(m) && !m.other {
      var p := Record("", "", "", [], [], []);
      var long := Record("", "", "", [""], [""], []);
      assert Applied(p, m) != p || Applied(long, m) != long;
    }
  }

  // Containers are accepted exactly if there are none, or all are named, with a
  // known role, and one of them and no other is the api.
  lemma {:induction false} OneApi(cs: seq<Container>)
    ensures ApiCount(cs) == 0 <==> forall i :: 0 <= i < |cs| ==> cs[i].role != "api"
    ensures ApiCount(cs) == 1 <==> exists i :: OnlyApi(cs, i)
  {
    if cs != [] {
      var init, n := cs[..|cs| - 1], |cs| - 1;
      OneApi(init);
      assert forall i :: 0 <= i < n ==> init[i] == cs[i];
      if cs[n].role == "api" {
        if ApiCount(init) == 0 { assert OnlyApi(cs, n); }
        if i :| OnlyApi(cs, i) { assert i == n && ApiCount(init) == 0; }
      } else {
        if i :| OnlyApi(init, i) { assert OnlyApi(cs, i); }
        if i :| OnlyApi(cs, i) { assert OnlyApi(init, i); }
      }
    }
  }

  predicate OnlyApi(cs: seq<Container>, i: int) {
    0 <= i < |cs| && cs[i].role == "api" && forall j :: 0 <= j < |cs| && j != i ==> cs[j].role != "api"
  }

  predicate KnownRole(role: string) { role in {"api", "sidecar", ""} }

  lemma ContainersAreAccepted(cs: seq<Container>)
    ensures ContainersOk(cs)
      <==> cs == [] || ((exists i :: OnlyApi(cs, i)) && forall c :: c in cs ==> c.name != "" && KnownRole(c.role))
  {
    OneApi(cs);
  }

  // A manifest is applied exactly if it can be fetched, its containers are
  // accepted, and its columns can be written or it has none.
  lemma AppliesExactlyWhen(w: World, id: Id)
    ensures Applies(w, id)
      <==> match w.fetch(id)
           case None => false
           case Some(m) =>
             && (m.containers == [] || ((exists i :: OnlyApi(m.containers, i))
                                        && forall c :: c in m.containers ==> c.name != "" && KnownRole(c.role)))
             && (w.writes(id) || (!m.other && forall p :: Applied(p, m) == p))
  {
    if w.fetch(id).Some? {
      ContainersAreAccepted(w.fetch(id).value.containers);
      SkipsOnlyEmptyManifests(w.fetch(id).value);
    }
  }

  // ---- the outcome of a request ----

  // The record a catalog entry gives by itself.
  predicate IsBare(o: Record, e: Entry) {
    && (o.id, o.version, o.image) == (e.id, e.version, e.image)
    && o.capabilities == o.dependencies == [] && o.containers == []
  }

  ghost predicate InCatalogBare(w: World, o: Record) {
    w.catalog.Some? && exists e :: e in w.catalog.value && IsBare(o, e)
  }

  // Where a record that has been synced comes from: the table, or the catalog.
  ghost predicate Origin(w: World, base: Table, id: Id, o: Record) {
    o.id == id && if id in base then o == base[id] else InCatalogBare(w, o)
  }

  ghost predicate SyncedFrom(w: World, base: Table, r: Record) {
    && w.fetch(r.id).Some? && Carries(r, w.fetch(r.id).value)
    && exists o :: Origin(w, base, r.id, o) && KeepsTheRest(o, r, w.fetch(r.id).value)
  }

  // The request has visited exactly these plugins, made records of those that
  // had none, applied every manifest that could be applied, the first being
  // that of the plugin asked for, and left all other records as they were.
  ghost predicate Settled(w: World, base: Table, t: Table, id: Id, visited: set<Id>, list: seq<Record>) {
    && t.Keys == base.Keys + visited && NoDuplicates(list) && list != [] && list[0].id == id
    && (forall k :: k in ListIds(list) <==> k in visited && Applies(w, k))
    && (forall r :: r in list ==> r.id in t && t[r.id] == r && SyncedFrom(w, base, r))
    && (forall k :: k in t && k !in ListIds(list) ==> Origin(w, base, k, t[k]))
  }

  lemma ListStartsWithRoot(w: World, u: set<Id>, install: bool, id: Id, rows: Table)
    requires Bounded(w, u, rows) && id in rows && Applies(w, id)
    ensures var r := Sync(w, u, install, id, State(rows, {}, [])).0; r.list != [] && r.list[0].id == id
  {
    var s := State(rows, {}, []);
    var q := Applied(rows[id], w.fetch(id).value);
    var t := State(rows[id := q], s.visited + {id}, s.list + [q]);
    InitialInv(w, rows);
    VisitApplies(w, rows, id, s);
    SyncDepsKeepInv(w, u, install, q.dependencies, rows, t);
    assert t.list == [q];
    assert Sync(w, u, install, id, s).0 == SyncDeps(w, u, install, q.dependencies, t);
  }

  lemma SyncSettles(w: World, u: set<Id>, install: bool, id: Id, rows: Table)
    requires Bounded(w, u, rows) && id in rows && Applies(w, id)
    ensures var r := Sync(w, u, install, id, State(rows, {}, [])).0;
      Settled(w, rows, r.rows, id, r.visited, r.list)
  {
    var r := Sync(w, u, install, id, State(rows, {}, [])).0;
    ListIsWhatWasApplied(w, u, install, id, rows);
    ListStartsWithRoot(w, u, install, id, rows);
    SyncAddsVisited(w, u, install, id, State(rows, {}, []));
    forall x | x in r.list ensures x.id in r.rows && r.rows[x.id] == x && SyncedFrom(w, rows, x) {
      assert x.id in ListIds(r.list);
      assert RowOk(w, rows, r.visited, r.rows[x.id]);
      var o :| FromOrigin(w, rows, o) && o.id == x.id && x == Applied(o, w.fetch(o.id).value);
      AppliedIs(o, x, w.fetch(o.id).value);
      OriginOf(w, rows, o);
    }
    forall k | k in r.rows && k !in ListIds(r.list) ensures Origin(w, rows, k, r.rows[k]) {
      assert RowOk(w, rows, r.visited, r.rows[k]) && r.rows[k].id == k;
      OriginOf(w, rows, r.rows[k]);
    }
  }

  lemma OriginOf(w: World, base: Table, o: Record)
    requires FromOrigin(w, base, o) && Keyed(base)
    ensures Origin(w, base, o.id, o)
  {
    if o.id !in base {
      var e :| e in w.catalog.value && o == Bare(e);
      assert IsBare(o, e);
    }
  }

  // An install that succeeds has bootstrapped the record from the provider's
  // catalog and settled the plugin with its dependency closure: the least set
  // closed under going on to the catalog's first provider of each dependency.
  lemma InstallSettlesTheClosure(w: World, u: set<Id>, id: Id, rows: Table) returns (visited: set<Id>)
    requires Bounded(w, u, rows) && id in u && Install(w, u, id, rows).1.Done?
    ensures var (t, outcome) := Install(w, u, id, rows);
      var base := rows[id := Bare(EntryOf(w.search(id).value, id).value)];
      IsBare(base[id], EntryOf(w.search(id).value, id).value) &&
      LeastClosed(w, true, base, id, visited) && Settled(w, base, t, id, visited, outcome.list)
  {
    var base := rows[id := Bare(EntryOf(w.search(id).value, id).value)];
    var r := Sync(w, u, true, id, State(base, {}, [])).0;
    FailsOnlyForTheRoot(w, u, true, id, State(base, {}, []));
    InstallReachesTheClosure(w, u, id, base);
    SyncSettles(w, u, true, id, base);
    visited := r.visited;
  }

  // An upgrade that succeeds has settled plugins of the table and created
  // nothing; as long as no manifest changes capabilities, exactly those reached
  // by going on to the first row that matches.
  lemma UpgradeSettlesTheMatches(w: World, u: set<Id>, id: Id, rows: Table) returns (visited: set<Id>)
    requires Bounded(w, u, rows) && Upgrade(w, u, id, rows).1.Done?
    ensures var (t, outcome) := Upgrade(w, u, id, rows);
      && t.Keys == rows.Keys
      && Settled(w, rows, t, id, visited, outcome.list) && id in visited
      && (CapabilitiesStay(w, rows) ==> LeastClosed(w, false, rows, id, visited))
  {
    var r := Sync(w, u, false, id, State(rows, {}, [])).0;
    FailsOnlyForTheRoot(w, u, false, id, State(rows, {}, []));
    UpgradeReachesTheMatches(w, u, id, rows);
    UpgradeCreatesNothing(w, u, id, State(rows, {}, []));
    SyncSettles(w, u, false, id, rows);
    ListIsWhatWasApplied(w, u, false, id, rows);
    visited := r.visited;
  }

  // Why an install is refused, and in which order the reasons are looked at.
  lemma InstallReplies(w: World, u: set<Id>, id: Id, rows: Table)
    requires Bounded(w, u, rows) && id in u
    ensures var (t, outcome) := Install(w, u, id, rows); var asked := id !in rows && w.provider == Found;
      && (outcome == Conflict <==> id in rows)
      && (outcome == ProviderNotFound <==> id !in rows && w.provider == Lookup.NotFound)
      && (outcome == NoProvider <==> id !in rows && w.provider == NoneEnabled)
      && (outcome == NoCatalog <==> asked && w.search(id) == None)
      && (outcome == NotInCatalog <==>
            asked && w.search(id).Some? && forall e :: e in w.search(id).value ==> e.id != id)
      && (outcome == BootstrapFailed <==>
            asked && w.search(id).Some? && (exists e :: e in w.search(id).value && e.id == id) && !w.creates(id))
      && (!outcome.Done? && outcome != SyncFailed ==> t == rows)
  {
  }

  // An upgrade is refused for a plugin that is not there or for want of a
  // provider; it fails exactly on the plugin's own manifest, and then, as when it
  // is refused, nothing has changed.
  lemma UpgradeReplies(w: World, u: set<Id>, id: Id, rows: Table)
    requires Bounded(w, u, rows)
    ensures var (t, outcome) := Upgrade(w, u, id, rows);
      && (outcome == NotInstalled <==> id !in rows)
      && (outcome == ProviderNotFound <==> id in rows && w.provider == Lookup.NotFound)
      && (outcome == NoProvider <==> id in rows && w.provider == NoneEnabled)
      && (outcome == SyncFailed <==> id in rows && w.provider == Found && !Applies(w, id))
      && (outcome.Done? <==> id in rows && w.provider == Found && Applies(w, id))
      && (!outcome.Done? ==> t == rows)
  {
    if id in rows { FailsOnlyForTheRoot(w, u, false, id, State(rows, {}, [])); }
  }

  // ---- upgrading twice ----

  lemma NextStays(w: World, a: Table, b: Table, id: Id)
    requires a.Keys == b.Keys && forall k :: k in a ==> a[k].capabilities == b[k].capabilities
    requires Applies(w, id) ==> DepsAfter(w, a, id) == DepsAfter(w, b, id)
    ensures Next(w, false, a, id) == Next(w, false, b, id)
  {
    forall cap ensures FirstMatch(w.order, a, cap) == FirstMatch(w.order, b, cap) {
      SameMatches(w.order, a, b, cap);
    }
    forall cap ensures Provided(w, false, a, cap) <==> Provided(w, false, b, cap) {
      assert FirstMatch(w.order, a, cap) == FirstMatch(w.order, b, cap);
    }
    forall x | x in Next(w, false, a, id) ensures x in Next(w, false, b, id) {
      var cap :| cap in DepsAfter(w, a, id) && Provided(w, false, a, cap) && ProviderId(w, false, a, cap) == x;
      assert Provided(w, false, b, cap) && ProviderId(w, false, b, cap) == x;
    }
    forall x | x in Next(w, false, b, id) ensures x in Next(w, false, a, id) {
      var cap :| cap in DepsAfter(w, b, id) && Provided(w, false, b, cap) && ProviderId(w, false, b, cap) == x;
      assert Provided(w, false, a, cap) && ProviderId(w, false, a, cap) == x;
    }
  }

  // t is the table after an upgrade: every record is as before, or has had its
  // manifest applied.
  ghost predicate PartlyApplied(w: World, base: Table, t: Table, visited: set<Id>) {
    && t.Keys == base.Keys && Keyed(base) && Keyed(t)
    && forall k :: k in base ==>
         t[k] == if k in visited && Applies(w, k) then Applied(base[k], w.fetch(k).value) else base[k]
  }

  lemma UpgradeApplies(w: World, u: set<Id>, id: Id, rows: Table)
    requires Bounded(w, u, rows) && id in rows
    ensures var r := Sync(w, u, false, id, State(rows, {}, [])).0; PartlyApplied(w, rows, r.rows, r.visited)
  {
    var r := Sync(w, u, false, id, State(rows, {}, [])).0;
    ListIsWhatWasApplied(w, u, false, id, rows);
    UpgradeCreatesNothing(w, u, id, State(rows, {}, []));
    forall k | k in rows
      ensures r.rows[k] == if k in r.visited && Applies(w, k) then Applied(rows[k], w.fetch(k).value) else rows[k]
    {
      assert RowOk(w, rows, r.visited, r.rows[k]) && r.rows[k].id == k;
    }
  }

  lemma SameClosedSets(w: World, base: Table, t: Table, visited: set<Id>, ids: set<Id>)
    requires CapabilitiesStay(w, base) && PartlyApplied(w, base, t, visited)
    ensures ClosedSet(w, false, base, ids) <==> ClosedSet(w, false, t, ids)
    ensures CapabilitiesStay(w, t)
  {
    forall id ensures Next(w, false, base, id) == Next(w, false, t, id) {
      NextStays(w, base, t, id);
    }
  }

  // As long as no manifest changes capabilities, upgrading again changes nothing.
  lemma UpgradingAgainChangesNothing(w: World, u: set<Id>, id: Id, rows: Table)
    requires Bounded(w, u, rows) && CapabilitiesStay(w, rows) && Upgrade(w, u, id, rows).1.Done?
    ensures var t := Upgrade(w, u, id, rows).0;
      Bounded(w, u, t) && Upgrade(w, u, id, t).0 == t && Upgrade(w, u, id, t).1.Done?
  {
    UpgradeReplies(w, u, id, rows);
    var r := Sync(w, u, false, id, State(rows, {}, [])).0;
    UpgradeApplies(w, u, id, rows);
    ReachesTheClosure(w, u, false, id, rows);
    var t := r.rows;
    SameClosedSets(w, rows, t, r.visited, {});
    UpgradeReplies(w, u, id, t);
    var again := Sync(w, u, false, id, State(t, {}, [])).0;
    UpgradeApplies(w, u, id, t);
    ReachesTheClosure(w, u, false, id, t);
    SameClosedSets(w, rows, t, r.visited, r.visited);
    assert again.visited <= r.visited;
    forall k | k in t ensures again.rows[k] == t[k] {
      if k in again.visited && Applies(w, k) { AppliedIs(rows[k], t[k], w.fetch(k).value); }
    }
    assert again.rows == t;
  }
}
