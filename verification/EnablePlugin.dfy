// Enabling a plugin together with what it depends on
// (kernel/internal/handlers/plugins.go, enablePlugin): a depth-first search
// that aborts on the first error and undoes nothing.
module EnablePlugin {
  import opened Graph
  import opened Plugins
  import opened Wrappers

  datatype Error = NoProvider(cap: Capability) | StartFailed(id: Id) | NotFound(id: Id)

  // enabled and container are the columns that change, and are not looked up in
  // the rows; calls lists the plugins StartPlugin was called for.
  datatype State = State(
    enabled: set<Id>, container: map<Id, string>,
    visited: set<Id>, list: seq<Id>, calls: seq<Id>, error: Option<Error>)
  {
    predicate Live(id: Id) {
      id in enabled && id in container && container[id] != ""
    }
  }

  // The first row, in the order of the query, that has the capability.
  function FirstProvider(ps: seq<Plugin>, cap: Capability): (q: Option<Plugin>)
    ensures q.Some? ==> q.value in ps && cap in q.value.capabilities
    ensures q.None? ==> forall p :: p in ps ==> cap !in p.capabilities
  {
    if ps == [] then None else if cap in ps[0].capabilities then Some(ps[0]) else FirstProvider(ps[1..], cap)
  }

  // No row before it has.
  lemma {:induction false} FirstProviderIs(ps: seq<Plugin>, cap: Capability, k: nat)
    requires k < |ps| && cap in ps[k].capabilities && forall j :: 0 <= j < k ==> cap !in ps[j].capabilities
    ensures FirstProvider(ps, cap) == Some(ps[k])
  {
    if k > 0 { FirstProviderIs(ps[1..], cap, k - 1); }
  }

  // ---- the specification ----

  // The last step: mark the row, after starting a container if there is one
  // to start.
  function Launch(p: Plugin, s: State, start: Id -> Option<string>): State {
    if p.IsMetadataOnly() then s.(enabled := s.enabled + {p.id}, list := s.list + [p.id])
    else
      match start(p.id)
      case None => s.(calls := s.calls + [p.id], error := Some(StartFailed(p.id)))
      case Some(c) =>
        s.(enabled := s.enabled + {p.id}, container := s.container[p.id := c],
           list := s.list + [p.id], calls := s.calls + [p.id])
  }

  ghost function Enable(ps: seq<Plugin>, start: Id -> Option<string>, p: Plugin, s: State): (r: State)
    requires p in ps
    ensures s.visited <= r.visited
    decreases IdSet(ps) - s.visited, 0
  {
    if p.id in s.visited then s
    else
      var s1 := s.(visited := s.visited + {p.id});
      if s1.Live(p.id) then s1
      else
        var s2 := EnableDeps(ps, start, p.dependencies, s1);
        if s2.error.Some? then s2 else Launch(p, s2, start)
  }

  ghost function EnableDeps(ps: seq<Plugin>, start: Id -> Option<string>, deps: seq<Capability>, s: State): (r: State)
    ensures s.visited <= r.visited
    decreases IdSet(ps) - s.visited, |deps|
  {
    if deps == [] then s
    else
      match FirstProvider(ps, deps[0])
      case None => s.(error := Some(NoProvider(deps[0])))
      case Some(q) =>
        var t := Enable(ps, start, q, s);
        if t.error.Some? then t else EnableDeps(ps, start, deps[1..], t)
  }

  // ---- the implementation ----

  class Handler {
    const plugins: seq<Plugin>
    const start: Id -> Option<string>   // what the runtime answers
    var enabled: set<Id>
    var container: map<Id, string>
    var visited: set<Id>
    var allEnabled: seq<Id>
    ghost var calls: seq<Id>

    ghost function View(error: Option<Error>): State
      reads this
    {
      State(enabled, container, visited, allEnabled, calls, error)
    }

    constructor (plugins: seq<Plugin>, start: Id -> Option<string>, enabled: set<Id>, container: map<Id, string>)
      ensures this.plugins == plugins && this.start == start
      ensures View(None) == State(enabled, container, {}, [], [], None)
    {
      this.plugins, this.start, this.enabled, this.container := plugins, start, enabled, container;
      visited, allEnabled, calls := {}, [], [];
    }

    method FindProvider(cap: Capability) returns (dep: Option<Plugin>)
      ensures dep == FirstProvider(plugins, cap)
    {
      for i := 0 to |plugins|
        invariant FirstProvider(plugins, cap) == FirstProvider(plugins[i..], cap)
      {
        if cap in plugins[i].capabilities {
          return Some(plugins[i]);
        }
      }
      return None;
    }

    method EnableOne(p: Plugin) returns (error: Option<Error>)
      requires p in plugins
      modifies this
      ensures View(error) == Enable(plugins, start, p, old(View(None)))
      decreases IdSet(plugins) - visited
    {
      if p.id in visited {
        return None;
      }
      ghost var before := visited;
      visited := visited + {p.id};
      if p.id in enabled && p.id in container && container[p.id] != "" {
        return None;
      }
      ghost var s1 := View(None);
      ghost var after := EnableDeps(plugins, start, p.dependencies, s1);
      for i := 0 to |p.dependencies|
        invariant after == EnableDeps(plugins, start, p.dependencies[i..], View(None))
        invariant before + {p.id} <= visited
      {
        var cap := p.dependencies[i];
        assert p.dependencies[i..][0] == cap && p.dependencies[i..][1..] == p.dependencies[i + 1..];
        var dep := FindProvider(cap);
        if dep.None? {
          return Some(NoProvider(cap));
        }
        assert p.id in IdSet(plugins) - before;
        error := EnableOne(dep.value);
        if error.Some? {
          return;
        }
      }
      assert View(None) == after;
      error := LaunchOne(p);
    }

    method LaunchOne(p: Plugin) returns (error: Option<Error>)
      modifies this
      ensures View(error) == Launch(p, old(View(None)), start)
    {
      error := None;
      if p.IsMetadataOnly() {
        enabled := enabled + {p.id};
      } else {
        calls := calls + [p.id];
        match start(p.id)
        case None => return Some(StartFailed(p.id));
        case Some(c) =>
          enabled := enabled + {p.id};
          container := container[p.id := c];
      }
      allEnabled := allEnabled + [p.id];
    }

    method FindById(id: Id) returns (p: Option<Plugin>)
      ensures p.Some? ==> p.value in plugins && p.value.id == id
      ensures p.None? ==> forall q :: q in plugins ==> q.id != id
    {
      for i := 0 to |plugins|
        invariant forall k :: 0 <= k < i ==> plugins[k].id != id
      {
        if plugins[i].id == id {
          return Some(plugins[i]);
        }
      }
      return None;
    }

    // The request handler: each request has its own visited map and list.
    method EnablePlugin(id: Id) returns (error: Option<Error>)
      requires DistinctIds(plugins)
      modifies this
      ensures (forall p :: p in plugins ==> p.id != id) ==>
        error == Some(NotFound(id)) && enabled == old(enabled) && container == old(container)
      ensures forall p :: p in plugins && p.id == id ==>
        View(error) == Enable(plugins, start, p, State(old(enabled), old(container), {}, [], [], None))
    {
      var p := FindById(id);
      if p.None? {
        return Some(NotFound(id));
      }
      visited, allEnabled, calls := {}, [], [];
      error := EnableOne(p.value);
    }
  }

  // ---- every outcome ----

  // r comes after s; what had been visited is not enabled or started again.
  ghost predicate Extends(s: State, r: State) {
    && s.visited <= r.visited && s.list <= r.list
    && forall id :: id in s.visited ==> (id in r.list ==> id in s.list) && (id in r.calls ==> id in s.calls)
  }

  ghost predicate NoDuplicates(ids: seq<Id>) {
    forall i, j :: 0 <= i < j < |ids| ==> ids[i] != ids[j]
  }

  ghost predicate SameContainer(a: State, b: State, id: Id) {
    (id in a.container <==> id in b.container) && (id in a.container ==> a.container[id] == b.container[id])
  }

  // The container column, given what the runtime answered.
  ghost predicate ContainerIs(start: Id -> Option<string>, base: State, s: State, id: Id) {
    if id in s.list && id in s.calls then start(id).Some? && id in s.container && s.container[id] == start(id).value
    else SameContainer(base, s, id)
  }

  ghost predicate Booked(ps: seq<Plugin>, s: State) {
    && (forall p :: p in ps && p.id in s.calls ==> !p.IsMetadataOnly())
    && (forall p :: p in ps && p.id in s.list && !p.IsMetadataOnly() ==> p.id in s.calls)
  }

  // What s, reached from base, has done to the table: exactly the listed
  // plugins have become enabled, and those of them that run have the
  // container that was started for them.
  ghost predicate Accounts(ps: seq<Plugin>, start: Id -> Option<string>, base: State, s: State) {
    && NoDuplicates(s.list) && NoDuplicates(s.calls) && Booked(ps, s)
    && (forall id :: id in s.list || id in s.calls ==> id in s.visited && !base.Live(id))
    && (forall id :: id in s.enabled <==> id in base.enabled || id in s.list)
    && (forall id :: ContainerIs(start, base, s, id))
  }

  lemma LaunchAccounts(ps: seq<Plugin>, start: Id -> Option<string>, p: Plugin, base: State, s: State)
    requires DistinctIds(ps) && p in ps && Accounts(ps, start, base, s)
    requires p.id in s.visited && p.id !in s.list && p.id !in s.calls && !base.Live(p.id)
    ensures Accounts(ps, start, base, Launch(p, s, start))
    ensures Extends(s.(visited := s.visited - {p.id}), Launch(p, s, start))
  {
    var r := Launch(p, s, start);
    assert ContainerIs(start, base, s, p.id);
    forall id ensures ContainerIs(start, base, r, id) {
      assert ContainerIs(start, base, s, id);
    }
    assert Booked(ps, r);
  }

  lemma {:induction false} EnableAccounts(ps: seq<Plugin>, start: Id -> Option<string>, p: Plugin, base: State,
      s: State)
    requires DistinctIds(ps) && p in ps && Accounts(ps, start, base, s)
    ensures var r := Enable(ps, start, p, s); Extends(s, r) && Accounts(ps, start, base, r)
    decreases IdSet(ps) - s.visited, 0
  {
    if p.id !in s.visited {
      var s1 := s.(visited := s.visited + {p.id});
      VisitAccounts(ps, start, p, base, s);
      if !s1.Live(p.id) {
        var s2 := EnableDeps(ps, start, p.dependencies, s1);
        EnableDepsAccounts(ps, start, p.dependencies, base, s1);
        if s2.error.None? { LaunchAccounts(ps, start, p, base, s2); }
      }
    }
  }

  lemma VisitAccounts(ps: seq<Plugin>, start: Id -> Option<string>, p: Plugin, base: State, s: State)
    requires Accounts(ps, start, base, s) && p.id !in s.visited
    ensures var s1 := s.(visited := s.visited + {p.id});
      Accounts(ps, start, base, s1) && (s1.Live(p.id) <==> base.Live(p.id)) && p.id !in s.list && p.id !in s.calls
  {
    var s1 := s.(visited := s.visited + {p.id});
    assert ContainerIs(start, base, s, p.id);
    forall id ensures ContainerIs(start, base, s1, id) {
      assert ContainerIs(start, base, s, id);
    }
  }

  lemma {:induction false} EnableDepsAccounts(
      ps: seq<Plugin>, start: Id -> Option<string>, deps: seq<Capability>, base: State, s: State)
    requires DistinctIds(ps) && Accounts(ps, start, base, s)
    ensures var r := EnableDeps(ps, start, deps, s); Extends(s, r) && Accounts(ps, start, base, r)
    decreases IdSet(ps) - s.visited, |deps|
  {
    if deps != [] {
      match FirstProvider(ps, deps[0])
      case None =>
        ErrorAccounts(ps, start, base, s, NoProvider(deps[0]));
      case Some(q) =>
        var t := Enable(ps, start, q, s);
        EnableAccounts(ps, start, q, base, s);
        if t.error.None? { EnableDepsAccounts(ps, start, deps[1..], base, t); }
    }
  }

  lemma ErrorAccounts(ps: seq<Plugin>, start: Id -> Option<string>, base: State, s: State, e: Error)
    requires Accounts(ps, start, base, s)
    ensures Accounts(ps, start, base, s.(error := Some(e)))
  {
    forall id ensures ContainerIs(start, base, s.(error := Some(e)), id) {
      assert ContainerIs(start, base, s, id);
    }
  }

  // ---- the order ----

  // a depends on what b is the first to provide.
  ghost function Needs(ps: seq<Plugin>): Edges {
    set p, cap | p in ps && cap in p.dependencies && FirstProvider(ps, cap).Some? ::
      (p.id, FirstProvider(ps, cap).value.id)
  }

  ghost predicate Met(ps: seq<Plugin>, base: State, cap: Capability, earlier: seq<Id>) {
    var q := FirstProvider(ps, cap);
    q.Some? && (q.value.id in earlier || base.Live(q.value.id))
  }

  ghost predicate AllMet(ps: seq<Plugin>, base: State, deps: seq<Capability>, earlier: seq<Id>) {
    forall i :: 0 <= i < |deps| ==> Met(ps, base, deps[i], earlier)
  }

  // Each entry from k on comes after the providers it depends on, as far as
  // they were not running to begin with.
  ghost predicate OrderedFrom(ps: seq<Plugin>, base: State, list: seq<Id>, k: nat) {
    forall p, i :: p in ps && k <= i < |list| && list[i] == p.id ==> AllMet(ps, base, p.dependencies, list[..i])
  }

  // The search has been to the first provider of each capability.
  ghost predicate Reached(ps: seq<Plugin>, deps: seq<Capability>, s: State) {
    forall i :: 0 <= i < |deps| ==> FirstProvider(ps, deps[i]).Some? && FirstProvider(ps, deps[i]).value.id in s.visited
  }

  ghost predicate AllReached(ps: seq<Plugin>, s: State) {
    forall p :: p in ps && p.id in s.list ==> Reached(ps, p.dependencies, s)
  }

  // path is the chain of calls in progress: visited, neither running nor
  // listed.  Everything else visited is one or the other.
  ghost predicate Searching(ps: seq<Plugin>, base: State, s: State, path: seq<Id>) {
    && Path(Needs(ps), path) && AllReached(ps, s)
    && (forall id :: id in path ==> id in s.visited && id !in s.list && !base.Live(id))
    && (forall id :: id in s.visited ==> id in s.list || id in path || base.Live(id))
  }

  ghost predicate CycleWithin(ps: seq<Plugin>, c: seq<Id>, list: seq<Id>, path: seq<Id>) {
    IsCycle(Needs(ps), c) && forall id :: id in c ==> id in list || id in path
  }

  lemma StepPath(ps: seq<Plugin>, path: seq<Id>, id: Id)
    requires Path(Needs(ps), path) && (path == [] || (path[|path| - 1], id) in Needs(ps))
    ensures Path(Needs(ps), path + [id])
  {}

  lemma PluginOfId(ps: seq<Plugin>, p: Plugin, q: Plugin)
    requires DistinctIds(ps) && p in ps && q in ps && p.id == q.id
    ensures p == q
  {}

  // An enabling that succeeds orders what it adds, or meets a cycle.
  lemma {:induction false} EnableOrders(
      ps: seq<Plugin>, start: Id -> Option<string>, p: Plugin, base: State, s: State, path: seq<Id>)
      returns (c: seq<Id>)
    requires DistinctIds(ps) && p in ps && Accounts(ps, start, base, s) && Searching(ps, base, s, path)
    requires path == [] || (path[|path| - 1], p.id) in Needs(ps)
    requires s.error == None && Enable(ps, start, p, s).error == None
    ensures var r := Enable(ps, start, p, s);
      && Searching(ps, base, r, path) && p.id in r.visited && s.list <= r.list
      && (c == [] ==> OrderedFrom(ps, base, r.list, |s.list|))
      && (c != [] ==> CycleWithin(ps, c, r.list, path))
    decreases IdSet(ps) - s.visited, 0
  {
    c := [];
    if p.id in s.visited { return; }
    var s1 := s.(visited := s.visited + {p.id});
    VisitAccounts(ps, start, p, base, s);
    if s1.Live(p.id) { return; }
    StepPath(ps, path, p.id);
    c := EnableDepsOrders(ps, start, p, p.dependencies, base, s1, path + [p.id]);
    var s2 := EnableDeps(ps, start, p.dependencies, s1);
    EnableDepsAccounts(ps, start, p.dependencies, base, s1);
    LaunchOrders(ps, start, p, base, s2, path, |s.list|, c);
  }

  lemma LaunchOrders(ps: seq<Plugin>, start: Id -> Option<string>, p: Plugin, base: State, s: State, path: seq<Id>,
      k: nat, c: seq<Id>)
    requires DistinctIds(ps) && p in ps && p.id !in path && k <= |s.list|
    requires Path(Needs(ps), path) && Searching(ps, base, s, path + [p.id]) && Reached(ps, p.dependencies, s)
    requires c == [] ==> OrderedFrom(ps, base, s.list, k) && AllMet(ps, base, p.dependencies, s.list)
    requires c != [] ==> CycleWithin(ps, c, s.list, path + [p.id])
    requires Launch(p, s, start).error == None
    ensures var r := Launch(p, s, start);
      && Searching(ps, base, r, path) && r.list == s.list + [p.id] && r.visited == s.visited
      && (c == [] ==> OrderedFrom(ps, base, r.list, k))
      && (c != [] ==> CycleWithin(ps, c, r.list, path))
  {
    var r := Launch(p, s, start);
    assert AllReached(ps, r) by {
      forall q | q in ps && q.id in r.list ensures Reached(ps, q.dependencies, r) {
        if q.id == p.id { PluginOfId(ps, p, q); }
      }
    }
    assert forall id :: id in path ==> id in path + [p.id];
    if c == [] {
      forall q, i | q in ps && k <= i < |r.list| && r.list[i] == q.id
        ensures AllMet(ps, base, q.dependencies, r.list[..i])
      {
        if i < |s.list| {
          assert r.list[..i] == s.list[..i];
        } else {
          PluginOfId(ps, p, q);
          assert r.list[..i] == s.list;
        }
      }
    }
  }

  lemma {:induction false} EnableDepsOrders(
      ps: seq<Plugin>, start: Id -> Option<string>, p: Plugin, deps: seq<Capability>, base: State, s: State,
      path: seq<Id>) returns (c: seq<Id>)
    requires DistinctIds(ps) && p in ps && Accounts(ps, start, base, s) && Searching(ps, base, s, path)
    requires path != [] && path[|path| - 1] == p.id && forall cap :: cap in deps ==> cap in p.dependencies
    requires s.error == None && EnableDeps(ps, start, deps, s).error == None
    ensures var r := EnableDeps(ps, start, deps, s);
      && Searching(ps, base, r, path) && Reached(ps, deps, r) && s.list <= r.list
      && (c == [] ==> OrderedFrom(ps, base, r.list, |s.list|) && AllMet(ps, base, deps, r.list))
      && (c != [] ==> CycleWithin(ps, c, r.list, path))
    decreases IdSet(ps) - s.visited, |deps|
  {
    c := [];
    if deps == [] { return; }
    var q := FirstProvider(ps, deps[0]).value;
    assert deps[0] in p.dependencies;
    assert (p.id, q.id) in Needs(ps);
    var c1 := EnableOrders(ps, start, q, base, s, path);
    var t := Enable(ps, start, q, s);
    EnableAccounts(ps, start, q, base, s);
    var c2 := EnableDepsOrders(ps, start, p, deps[1..], base, t, path);
    EnableDepsAccounts(ps, start, deps[1..], base, t);
    c := FirstDependency(ps, deps, q, base, t, EnableDeps(ps, start, deps, s), path, |s.list|, c1, c2);
  }

  // Puts together what the search did for the first of the capabilities (t)
  // and for the others (r).
  lemma FirstDependency(ps: seq<Plugin>, deps: seq<Capability>, q: Plugin, base: State, t: State, r: State,
      path: seq<Id>, k: nat, c1: seq<Id>, c2: seq<Id>) returns (c: seq<Id>)
    requires deps != [] && FirstProvider(ps, deps[0]) == Some(q) && q.id in t.visited
    requires path != [] && (path[|path| - 1], q.id) in Needs(ps)
    requires Searching(ps, base, t, path) && Searching(ps, base, r, path) && Reached(ps, deps[1..], r)
    requires t.visited <= r.visited && t.list <= r.list && k <= |t.list|
    requires c1 == [] ==> OrderedFrom(ps, base, t.list, k)
    requires c1 != [] ==> CycleWithin(ps, c1, t.list, path)
    requires c2 == [] ==> OrderedFrom(ps, base, r.list, |t.list|) && AllMet(ps, base, deps[1..], r.list)
    requires c2 != [] ==> CycleWithin(ps, c2, r.list, path)
    ensures Reached(ps, deps, r)
    ensures c == [] ==> OrderedFrom(ps, base, r.list, k) && AllMet(ps, base, deps, r.list)
    ensures c != [] ==> CycleWithin(ps, c, r.list, path)
  {
    forall i | 0 <= i < |deps|
      ensures FirstProvider(ps, deps[i]).Some? && FirstProvider(ps, deps[i]).value.id in r.visited
    {
      if i > 0 { assert deps[i] == deps[1..][i - 1]; }
    }
    c := if c1 != [] then c1 else c2;
    if q.id in path {
      var k :| 0 <= k < |path| && path[k] == q.id;
      BackEdgeClosesCycle(Needs(ps), path, k);
      c := path[k..];
    } else if c == [] {
      OrderedJoin(ps, base, t.list, r.list, k);
      AllMetCons(ps, base, deps, r.list);
    }
  }

  lemma OrderedJoin(ps: seq<Plugin>, base: State, t: seq<Id>, r: seq<Id>, k: nat)
    requires k <= |t| && t <= r && OrderedFrom(ps, base, t, k) && OrderedFrom(ps, base, r, |t|)
    ensures OrderedFrom(ps, base, r, k)
  {
    forall p, i | p in ps && k <= i < |r| && r[i] == p.id ensures AllMet(ps, base, p.dependencies, r[..i]) {
      if i < |t| { assert t[..i] == r[..i]; }
    }
  }

  lemma AllMetCons(ps: seq<Plugin>, base: State, deps: seq<Capability>, list: seq<Id>)
    requires deps != [] && Met(ps, base, deps[0], list) && AllMet(ps, base, deps[1..], list)
    ensures AllMet(ps, base, deps, list)
  {
    forall i | 0 <= i < |deps| ensures Met(ps, base, deps[i], list) {
      if i > 0 { assert deps[i] == deps[1..][i - 1]; }
    }
  }

  // ---- main results ----

  // The first call, with empty visited map and result list.
  predicate Initial(s: State) {
    s.visited == {} && s.list == [] && s.calls == [] && s.error == None
  }

  lemma InitialAccounts(ps: seq<Plugin>, start: Id -> Option<string>, base: State)
    requires Initial(base)
    ensures Accounts(ps, start, base, base) && Searching(ps, base, base, [])
  {
    assert forall id :: ContainerIs(start, base, base, id);
  }

  // On any graph and whatever the runtime answers: no plugin is enabled or
  // started twice, none that was running is touched, the listed ones and no
  // others become enabled, and on an error they stay enabled.
  lemma EachAtMostOnce(ps: seq<Plugin>, start: Id -> Option<string>, p: Plugin, base: State)
    requires DistinctIds(ps) && p in ps && Initial(base)
    ensures Accounts(ps, start, base, Enable(ps, start, p, base))
  {
    InitialAccounts(ps, start, base);
    EnableAccounts(ps, start, p, base, base);
  }

  // After a success the plugin and, transitively, every provider it needs is
  // newly enabled or was running.
  lemma EverythingNeededIsUp(ps: seq<Plugin>, start: Id -> Option<string>, p: Plugin, base: State)
    requires DistinctIds(ps) && p in ps && Initial(base) && Enable(ps, start, p, base).error == None
    ensures var r := Enable(ps, start, p, base);
      && (p.id in r.list <==> !(p.id in base.enabled && p.id in base.container && base.container[p.id] != ""))
      && forall q :: q in ps && q.id in r.list ==> AllMet(ps, base, q.dependencies, r.list)
  {
    InitialAccounts(ps, start, base);
    EnableAccounts(ps, start, p, base, base);
    var c := EnableOrders(ps, start, p, base, base, []);
    var r := Enable(ps, start, p, base);
    forall q | q in ps && q.id in r.list ensures AllMet(ps, base, q.dependencies, r.list) {
      assert Reached(ps, q.dependencies, r);
    }
  }

  ghost function Among(edges: Edges, list: seq<Id>): Edges {
    set e | e in edges && e.0 in list && e.1 in list
  }

  function IndexOf(list: seq<Id>, id: Id): (i: nat)
    requires id in list
    ensures i < |list| && list[i] == id && forall k :: 0 <= k < |list| && list[k] == id ==> i <= k
  {
    assert forall k :: 1 <= k < |list| ==> list[k] == list[1..][k - 1];
    if list[0] == id then 0 else IndexOf(list[1..], id) + 1
  }

  lemma OrderLeavesNoCycle(ps: seq<Plugin>, base: State, list: seq<Id>)
    requires OrderedFrom(ps, base, list, 0) && forall id :: id in list ==> !base.Live(id)
    ensures Acyclic(Among(Needs(ps), list))
  {
    var rank := map id | id in list :: IndexOf(list, id);
    forall a, b | (a, b) in Among(Needs(ps), list) ensures rank[b] < rank[a] {
      var p, cap :| p in ps && cap in p.dependencies && FirstProvider(ps, cap).Some? &&
          (a, b) == (p.id, FirstProvider(ps, cap).value.id);
      var i := rank[a];
      assert AllMet(ps, base, p.dependencies, list[..i]);
      var j :| 0 <= j < |p.dependencies| && p.dependencies[j] == cap;
      assert Met(ps, base, p.dependencies[j], list[..i]);
      EarlierHasSmallerIndex(list, i, b);
    }
    RankedIsAcyclic(Among(Needs(ps), list), rank);
  }

  lemma EarlierHasSmallerIndex(list: seq<Id>, i: nat, id: Id)
    requires i < |list| && id in list[..i]
    ensures id in list && IndexOf(list, id) < i
  {
    var k :| 0 <= k < i && list[..i][k] == id;
    assert list[k] == id;
  }

  lemma CycleAmong(ps: seq<Plugin>, c: seq<Id>, list: seq<Id>)
    requires CycleWithin(ps, c, list, [])
    ensures IsCycle(Among(Needs(ps), list), c)
  {
    forall i | 0 <= i < |c| ensures c[i] in list {
      assert c[i] in c;
    }
  }

  // An enabling that succeeds is ordered exactly if what it lists has no cycle.
  lemma OrderedUnlessListHasCycle(ps: seq<Plugin>, start: Id -> Option<string>, p: Plugin, base: State)
    requires DistinctIds(ps) && p in ps && Initial(base) && Enable(ps, start, p, base).error == None
    ensures var r := Enable(ps, start, p, base);
      OrderedFrom(ps, base, r.list, 0) <==> Acyclic(Among(Needs(ps), r.list))
  {
    InitialAccounts(ps, start, base);
    EnableAccounts(ps, start, p, base, base);
    var c := EnableOrders(ps, start, p, base, base, []);
    var r := Enable(ps, start, p, base);
    if c == [] {
      OrderLeavesNoCycle(ps, base, r.list);
    } else {
      CycleAmong(ps, c, r.list);
      if OrderedFrom(ps, base, r.list, 0) { OrderLeavesNoCycle(ps, base, r.list); }
    }
  }

  // ---- when it succeeds ----

  ghost predicate Able(ps: seq<Plugin>, start: Id -> Option<string>, q: Plugin) {
    (forall cap :: cap in q.dependencies ==> FirstProvider(ps, cap).Some?) && (q.IsMetadataOnly() || start(q.id).Some?)
  }

  ghost predicate ToBlame(ps: seq<Plugin>, start: Id -> Option<string>, base: State, r: State, q: Plugin) {
    q in ps && q.id in r.visited && !base.Live(q.id) && !Able(ps, start, q)
  }

  // The error names a capability q depends on and nobody has, or q itself, which
  // was the last to be started and did not start.
  ghost predicate Explains(ps: seq<Plugin>, start: Id -> Option<string>, r: State, q: Plugin) {
    match r.error
    case Some(NoProvider(cap)) => cap in q.dependencies && forall p :: p in ps ==> cap !in p.capabilities
    case Some(StartFailed(id)) =>
      id == q.id && !q.IsMetadataOnly() && start(id) == None && r.calls != [] && r.calls[|r.calls| - 1] == id
    case _ => false
  }

  lemma {:induction false} EnableBlames(
      ps: seq<Plugin>, start: Id -> Option<string>, p: Plugin, base: State, s: State) returns (q: Plugin)
    requires DistinctIds(ps) && p in ps && Accounts(ps, start, base, s)
    requires s.error == None && Enable(ps, start, p, s).error.Some?
    ensures ToBlame(ps, start, base, Enable(ps, start, p, s), q) && Explains(ps, start, Enable(ps, start, p, s), q)
    decreases IdSet(ps) - s.visited, 0
  {
    q := p;
    var s1 := s.(visited := s.visited + {p.id});
    VisitAccounts(ps, start, p, base, s);
    var s2 := EnableDeps(ps, start, p.dependencies, s1);
    if s2.error.Some? { q := EnableDepsBlames(ps, start, p, p.dependencies, base, s1); }
  }

  lemma {:induction false} EnableDepsBlames(
      ps: seq<Plugin>, start: Id -> Option<string>, p: Plugin, deps: seq<Capability>, base: State, s: State)
      returns (q: Plugin)
    requires DistinctIds(ps) && p in ps && Accounts(ps, start, base, s) && p.id in s.visited && !base.Live(p.id)
    requires forall cap :: cap in deps ==> cap in p.dependencies
    requires s.error == None && EnableDeps(ps, start, deps, s).error.Some?
    ensures ToBlame(ps, start, base, EnableDeps(ps, start, deps, s), q)
    ensures Explains(ps, start, EnableDeps(ps, start, deps, s), q)
    decreases IdSet(ps) - s.visited, |deps|
  {
    assert deps[0] in p.dependencies;
    match FirstProvider(ps, deps[0])
    case None => q := p;
    case Some(d) =>
      var t := Enable(ps, start, d, s);
      EnableAccounts(ps, start, d, base, s);
      if t.error.Some? {
        q := EnableBlames(ps, start, d, base, s);
      } else {
        q := EnableDepsBlames(ps, start, p, deps[1..], base, t);
      }
  }

  lemma SucceedsIfVisitedAreAble(ps: seq<Plugin>, start: Id -> Option<string>, p: Plugin, base: State)
    requires DistinctIds(ps) && p in ps && Initial(base)
    ensures var r := Enable(ps, start, p, base);
      r.error == None <==> forall q :: q in ps && q.id in r.visited && !base.Live(q.id) ==> Able(ps, start, q)
  {
    InitialAccounts(ps, start, base);
    EnableAccounts(ps, start, p, base, base);
    var r := Enable(ps, start, p, base);
    if r.error.Some? {
      var q := EnableBlames(ps, start, p, base, base);
    } else {
      var _ := EnableOrders(ps, start, p, base, base, []);
      forall q | q in ps && q.id in r.visited && !base.Live(q.id) ensures Able(ps, start, q) {
        assert Reached(ps, q.dependencies, r);
        assert ContainerIs(start, base, r, q.id);
      }
    }
  }

  // A failed call says why: the error is true of a plugin that was visited and
  // was not running, and nothing has been started after it.
  lemma ErrorIsTrue(ps: seq<Plugin>, start: Id -> Option<string>, p: Plugin, base: State) returns (q: Plugin)
    requires DistinctIds(ps) && p in ps && Initial(base) && Enable(ps, start, p, base).error.Some?
    ensures var r := Enable(ps, start, p, base);
      ToBlame(ps, start, base, r, q) && Explains(ps, start, r, q) && (r.error.value.StartFailed? ==> q.id !in r.list)
  {
    InitialAccounts(ps, start, base);
    EnableAccounts(ps, start, p, base, base);
    q := EnableBlames(ps, start, p, base, base);
    var r := Enable(ps, start, p, base);
    assert ContainerIs(start, base, r, q.id);
  }

  // ---- what a call comes to, told from the table alone ----

  // Where the search goes on to from a plugin that is not running.
  ghost predicate Leads(ps: seq<Plugin>, ids: set<Id>, q: Plugin) {
    forall cap :: cap in q.dependencies && FirstProvider(ps, cap).Some? ==> FirstProvider(ps, cap).value.id in ids
  }

  ghost predicate Closed(ps: seq<Plugin>, base: State, ids: set<Id>) {
    forall q :: q in ps && q.id in ids && !base.Live(q.id) ==> Leads(ps, ids, q)
  }

  ghost predicate InEveryClosed(ps: seq<Plugin>, base: State, p: Plugin, id: Id) {
    forall ids :: p.id in ids && Closed(ps, base, ids) ==> id in ids
  }

  // The plugin and, as far as plugins are not running, the first providers of
  // their dependencies, and so on.
  ghost function Closure(ps: seq<Plugin>, base: State, p: Plugin): set<Id> {
    set id | id in IdSet(ps) && InEveryClosed(ps, base, p, id)
  }

  ghost function NotRunning(base: State, ids: set<Id>): set<Id> {
    set id | id in ids && !base.Live(id)
  }

  lemma ClosureIsLeast(ps: seq<Plugin>, base: State, p: Plugin)
    requires p in ps
    ensures p.id in Closure(ps, base, p) && Closed(ps, base, Closure(ps, base, p))
    ensures forall ids :: p.id in ids && Closed(ps, base, ids) ==> Closure(ps, base, p) <= ids
  {
    var c := Closure(ps, base, p);
    forall q | q in ps && q.id in c && !base.Live(q.id) ensures Leads(ps, c, q) {
      forall cap | cap in q.dependencies && FirstProvider(ps, cap).Some? ensures FirstProvider(ps, cap).value.id in c {
        var id := FirstProvider(ps, cap).value.id;
        forall ids | p.id in ids && Closed(ps, base, ids) ensures id in ids {
          assert q.id in ids && Leads(ps, ids, q);
        }
      }
    }
  }

  ghost predicate AllAble(ps: seq<Plugin>, start: Id -> Option<string>, base: State, ids: set<Id>) {
    forall q :: q in ps && q.id in ids && !base.Live(q.id) ==> Able(ps, start, q)
  }

  // The search stays within a closed set, and succeeds if all there are able.
  lemma {:induction false} EnableStaysWithin(
      ps: seq<Plugin>, start: Id -> Option<string>, p: Plugin, base: State, s: State, ids: set<Id>)
    requires DistinctIds(ps) && p in ps && Accounts(ps, start, base, s)
    requires Closed(ps, base, ids) && p.id in ids && s.visited <= ids
    ensures var r := Enable(ps, start, p, s);
      r.visited <= ids && (s.error == None && AllAble(ps, start, base, ids) ==> r.error == None)
    decreases IdSet(ps) - s.visited, 0
  {
    if p.id !in s.visited {
      var s1 := s.(visited := s.visited + {p.id});
      VisitAccounts(ps, start, p, base, s);
      if !s1.Live(p.id) {
        assert Leads(ps, ids, p);
        EnableDepsStayWithin(ps, start, p, p.dependencies, base, s1, ids);
      }
    }
  }

  lemma {:induction false} EnableDepsStayWithin(
      ps: seq<Plugin>, start: Id -> Option<string>, p: Plugin, deps: seq<Capability>, base: State, s: State,
      ids: set<Id>)
    requires DistinctIds(ps) && p in ps && Accounts(ps, start, base, s) && p.id in ids && !base.Live(p.id)
    requires Closed(ps, base, ids) && s.visited <= ids && Leads(ps, ids, p)
    requires forall cap :: cap in deps ==> cap in p.dependencies
    ensures var r := EnableDeps(ps, start, deps, s);
      r.visited <= ids && (s.error == None && AllAble(ps, start, base, ids) ==> r.error == None)
    decreases IdSet(ps) - s.visited, |deps|
  {
    if deps != [] {
      assert deps[0] in p.dependencies;
      match FirstProvider(ps, deps[0])
      case None =>
        assert !Able(ps, start, p);
      case Some(q) =>
        var t := Enable(ps, start, q, s);
        EnableStaysWithin(ps, start, q, base, s, ids);
        EnableAccounts(ps, start, q, base, s);
        if t.error.None? { EnableDepsStayWithin(ps, start, p, deps[1..], base, t, ids); }
    }
  }

  // A success comes to exactly the closure.
  lemma VisitedIsClosure(ps: seq<Plugin>, start: Id -> Option<string>, p: Plugin, base: State)
    requires DistinctIds(ps) && p in ps && Initial(base)
    ensures var r := Enable(ps, start, p, base);
      && r.visited <= Closure(ps, base, p)
      && (r.error == None ==> r.visited == Closure(ps, base, p)
                              && forall id :: id in r.list <==> id in NotRunning(base, Closure(ps, base, p)))
  {
    InitialAccounts(ps, start, base);
    ClosureIsLeast(ps, base, p);
    EnableAccounts(ps, start, p, base, base);
    EnableStaysWithin(ps, start, p, base, base, Closure(ps, base, p));
    var r := Enable(ps, start, p, base);
    if r.error == None {
      var _ := EnableOrders(ps, start, p, base, base, []);
      forall q | q in ps && q.id in r.visited && !base.Live(q.id) ensures Leads(ps, r.visited, q) {
        assert Reached(ps, q.dependencies, r);
      }
    }
  }

  // Enabling succeeds exactly when each plugin of the closure that is not
  // running has its capabilities provided and can be started.
  lemma SucceedsExactlyWhen(ps: seq<Plugin>, start: Id -> Option<string>, p: Plugin, base: State)
    requires DistinctIds(ps) && p in ps && Initial(base)
    ensures Enable(ps, start, p, base).error == None <==> AllAble(ps, start, base, Closure(ps, base, p))
  {
    InitialAccounts(ps, start, base);
    ClosureIsLeast(ps, base, p);
    EnableStaysWithin(ps, start, p, base, base, Closure(ps, base, p));
    VisitedIsClosure(ps, start, p, base);
    SucceedsIfVisitedAreAble(ps, start, p, base);
  }

  ghost function Inside(edges: Edges, ids: set<Id>): Edges {
    set e | e in edges && e.0 in ids && e.1 in ids
  }

  // A success puts every newly enabled plugin after the providers it depends
  // on, as far as they were not running already, exactly when the plugins of
  // the closure that are not running have no dependency cycle among them.
  lemma OrderedExactlyWithoutCycle(ps: seq<Plugin>, start: Id -> Option<string>, p: Plugin, base: State)
    requires DistinctIds(ps) && p in ps && Initial(base) && Enable(ps, start, p, base).error == None
    ensures OrderedFrom(ps, base, Enable(ps, start, p, base).list, 0)
      <==> Acyclic(Inside(Needs(ps), NotRunning(base, Closure(ps, base, p))))
  {
    OrderedUnlessListHasCycle(ps, start, p, base);
    VisitedIsClosure(ps, start, p, base);
    var list := Enable(ps, start, p, base).list;
    assert Among(Needs(ps), list) == Inside(Needs(ps), NotRunning(base, Closure(ps, base, p)));
  }

  // ---- the order after an abort ----

  ghost predicate CycleMet(ps: seq<Plugin>, base: State, c: seq<Id>, r: State) {
    IsCycle(Needs(ps), c) && forall id :: id in c ==> id in r.visited && !base.Live(id)
  }

  lemma WithinIsMet(
      ps: seq<Plugin>, start: Id -> Option<string>, base: State, t: State, r: State, path: seq<Id>, c: seq<Id>)
    requires Accounts(ps, start, base, t) && Searching(ps, base, t, path) && CycleWithin(ps, c, t.list, path)
    requires t.visited <= r.visited
    ensures CycleMet(ps, base, c, r)
  {}

  // An enabling that fails has ordered what it has added, or met a cycle.
  lemma {:induction false} AbortOrders(
      ps: seq<Plugin>, start: Id -> Option<string>, p: Plugin, base: State, s: State, path: seq<Id>)
      returns (c: seq<Id>)
    requires DistinctIds(ps) && p in ps && Accounts(ps, start, base, s) && Searching(ps, base, s, path)
    requires path == [] || (path[|path| - 1], p.id) in Needs(ps)
    requires s.error == None && Enable(ps, start, p, s).error.Some?
    ensures var r := Enable(ps, start, p, s);
      && s.list <= r.list
      && (c == [] ==> OrderedFrom(ps, base, r.list, |s.list|))
      && (c != [] ==> CycleMet(ps, base, c, r))
    decreases IdSet(ps) - s.visited, 0
  {
    var s1 := s.(visited := s.visited + {p.id});
    VisitAccounts(ps, start, p, base, s);
    StepPath(ps, path, p.id);
    var s2 := EnableDeps(ps, start, p.dependencies, s1);
    if s2.error.Some? {
      c := AbortDepsOrder(ps, start, p, p.dependencies, base, s1, path + [p.id]);
    } else {
      c := EnableDepsOrders(ps, start, p, p.dependencies, base, s1, path + [p.id]);
      EnableDepsAccounts(ps, start, p.dependencies, base, s1);
      if c != [] { WithinIsMet(ps, start, base, s2, Enable(ps, start, p, s), path + [p.id], c); }
    }
  }

  lemma {:induction false} AbortDepsOrder(
      ps: seq<Plugin>, start: Id -> Option<string>, p: Plugin, deps: seq<Capability>, base: State, s: State,
      path: seq<Id>) returns (c: seq<Id>)
    requires DistinctIds(ps) && p in ps && Accounts(ps, start, base, s) && Searching(ps, base, s, path)
    requires path != [] && path[|path| - 1] == p.id && forall cap :: cap in deps ==> cap in p.dependencies
    requires s.error == None && EnableDeps(ps, start, deps, s).error.Some?
    ensures var r := EnableDeps(ps, start, deps, s);
      && s.list <= r.list
      && (c == [] ==> OrderedFrom(ps, base, r.list, |s.list|))
      && (c != [] ==> CycleMet(ps, base, c, r))
    decreases IdSet(ps) - s.visited, |deps|
  {
    c := [];
    if FirstProvider(ps, deps[0]).None? { return; }
    var q := FirstProvider(ps, deps[0]).value;
    assert deps[0] in p.dependencies;
    assert (p.id, q.id) in Needs(ps);
    var t := Enable(ps, start, q, s);
    if t.error.Some? {
      c := AbortOrders(ps, start, q, base, s, path);
    } else {
      var c1 := EnableOrders(ps, start, q, base, s, path);
      EnableAccounts(ps, start, q, base, s);
      var c2 := AbortDepsOrder(ps, start, p, deps[1..], base, t, path);
      var r := EnableDeps(ps, start, deps, s);
      c := if c1 != [] then c1 else c2;
      if c1 != [] {
        WithinIsMet(ps, start, base, t, r, path, c1);
      } else if c2 == [] {
        OrderedJoin(ps, base, t.list, r.list, |s.list|);
      }
    }
  }

  // Without a dependency cycle among the plugins of the closure that are not
  // running, whatever has been enabled comes after the providers it depends on,
  // as far as they were not running - also when the call has failed.
  lemma OrderedWithoutCycle(ps: seq<Plugin>, start: Id -> Option<string>, p: Plugin, base: State)
    requires DistinctIds(ps) && p in ps && Initial(base)
    requires Acyclic(Inside(Needs(ps), NotRunning(base, Closure(ps, base, p))))
    ensures OrderedFrom(ps, base, Enable(ps, start, p, base).list, 0)
  {
    var r := Enable(ps, start, p, base);
    if r.error == None {
      OrderedExactlyWithoutCycle(ps, start, p, base);
    } else {
      InitialAccounts(ps, start, base);
      VisitedIsClosure(ps, start, p, base);
      var c := AbortOrders(ps, start, p, base, base, []);
      if c != [] { MetInside(ps, base, p, c, r); }
    }
  }

  lemma MetInside(ps: seq<Plugin>, base: State, p: Plugin, c: seq<Id>, r: State)
    requires CycleMet(ps, base, c, r) && r.visited <= Closure(ps, base, p)
    ensures IsCycle(Inside(Needs(ps), NotRunning(base, Closure(ps, base, p))), c)
  {
    forall i | 0 <= i < |c| ensures c[i] in NotRunning(base, Closure(ps, base, p)) {
      assert c[i] in c;
    }
  }

  // In particular when no plugin of the table depends on itself through others.
  lemma OrderedIfAcyclic(ps: seq<Plugin>, start: Id -> Option<string>, p: Plugin, base: State)
    requires DistinctIds(ps) && p in ps && Initial(base) && Acyclic(Needs(ps))
    ensures OrderedFrom(ps, base, Enable(ps, start, p, base).list, 0)
  {
    var edges := Inside(Needs(ps), NotRunning(base, Closure(ps, base, p)));
    forall c ensures !IsCycle(edges, c) {
      if IsCycle(edges, c) { assert IsCycle(Needs(ps), c); }
    }
    OrderedWithoutCycle(ps, start, p, base);
  }

  // Two plugins that need each other are both enabled, the second one first.
  lemma MutualDependencyIsEnabled(start: Id -> Option<string>, base: State)
    requires Initial(base) && !base.Live("a") && !base.Live("b")
    ensures var a, b := Plugin("a", "", [], false, ["A"], ["B"]), Plugin("b", "", [], false, ["B"], ["A"]);
      var r := Enable([a, b], start, a, base);
      r.error == None && r.list == ["b", "a"]
  {
    var a, b := Plugin("a", "", [], false, ["A"], ["B"]), Plugin("b", "", [], false, ["B"], ["A"]);
    var ps := [a, b];
    assert ps[1..] == [b];
    assert FirstProvider(ps, "B") == Some(b) && FirstProvider(ps, "A") == Some(a);
    var s1 := base.(visited := {"a"});
    var s2 := base.(visited := {"a", "b"});
    assert base.visited + {"a"} == {"a"} && s1.visited + {"b"} == {"a", "b"};
    assert EnableDeps(ps, start, ["A"], s2) == s2 by {
      assert ["A"][1..] == [];
      assert Enable(ps, start, a, s2) == s2;
    }
    var t := Launch(b, s2, start);
    assert Enable(ps, start, b, s1) == t;
    assert ["B"][1..] == [];
    assert EnableDeps(ps, start, ["B"], s1) == t;
    assert Enable(ps, start, a, base) == Launch(a, t, start);
  }
}
