// Boot orchestration (kernel/internal/orchestrator/orchestrator.go): which
// plugins are started at boot, and in which order.
module BootOrder {
  import opened Graph
  import opened Plugins

  function Provide(m: map<Capability, Plugin>, caps: seq<Capability>, p: Plugin): map<Capability, Plugin> {
    if caps == [] then m else Provide(m, caps[..|caps| - 1], p)[caps[|caps| - 1] := p]
  }

  // Later providers of a capability replace earlier ones.
  function Providers(ps: seq<Plugin>): map<Capability, Plugin> {
    if ps == [] then map[]
    else Provide(Providers(ps[..|ps| - 1]), ps[|ps| - 1].capabilities, ps[|ps| - 1])
  }

  lemma {:induction false} ProvideIs(m: map<Capability, Plugin>, caps: seq<Capability>, p: Plugin)
    ensures var r := Provide(m, caps, p);
      forall c :: (c in r <==> c in m || c in caps) && (c in r ==> r[c] == if c in caps then p else m[c])
  {
    if caps != [] {
      ProvideIs(m, caps[..|caps| - 1], p);
      assert caps == caps[..|caps| - 1] + [caps[|caps| - 1]];
    }
  }

  lemma {:induction false} ProvidersAre(ps: seq<Plugin>)
    ensures forall c :: c in Providers(ps) ==> Providers(ps)[c] in ps && c in Providers(ps)[c].capabilities
    ensures forall p, c :: p in ps && c in p.capabilities ==> c in Providers(ps)
  {
    if ps != [] {
      var init, p := ps[..|ps| - 1], ps[|ps| - 1];
      ProvidersAre(init);
      ProvideIs(Providers(init), p.capabilities, p);
      assert ps == init + [p];
    }
  }

  // Of several providers of a capability the last one counts.
  lemma {:induction false} LastProviderCounts(ps: seq<Plugin>, k: nat, c: Capability)
    requires k < |ps| && c in ps[k].capabilities && forall j :: k < j < |ps| ==> c !in ps[j].capabilities
    ensures c in Providers(ps) && Providers(ps)[c] == ps[k]
  {
    var init, p := ps[..|ps| - 1], ps[|ps| - 1];
    ProvideIs(Providers(init), p.capabilities, p);
    if k < |init| { LastProviderCounts(init, k, c); }
  }

  // p waits for q: p has a container and q provides something p depends on.
  ghost function Waits(ps: seq<Plugin>): Edges {
    var prov := Providers(ps);
    set p, c | p in ps && !p.IsMetadataOnly() && c in p.dependencies && c in prov :: (p.id, prov[c].id)
  }

  method CollectProviders(ps: seq<Plugin>) returns (m: map<Capability, Plugin>)
    ensures m == Providers(ps)
  {
    m := map[];
    for i := 0 to |ps|
      invariant m == Providers(ps[..i])
    {
      assert ps[..i + 1][..i] == ps[..i];
      var caps := ps[i].capabilities;
      ghost var before := m;
      for j := 0 to |caps|
        invariant m == Provide(before, caps[..j], ps[i])
      {
        assert caps[..j + 1][..j] == caps[..j];
        m := m[caps[j] := ps[i]];
      }
      assert caps[..|caps|] == caps;
    }
    assert ps[..|ps|] == ps;
  }

  // ---- which plugins ----

  // The boot query also enables every row whose image column is empty.
  function EnabledAtBoot(all: seq<Plugin>): seq<Plugin> {
    if all == [] then []
    else
      var p := all[|all| - 1];
      EnabledAtBoot(all[..|all| - 1]) + if p.enabled || p.image == "" then [p.(enabled := true)] else []
  }

  // Appends the providers of `deps` that are not in the list yet.
  ghost function AddProviders(result: seq<Plugin>, deps: seq<Capability>, prov: map<Capability, Plugin>): seq<Plugin> {
    if deps == [] then result
    else
      var r := AddProviders(result, deps[..|deps| - 1], prov);
      var c := deps[|deps| - 1];
      if c in prov && prov[c].id !in IdSet(r) then r + [prov[c]] else r
  }

  // The expansion is one level deep: only the given plugins' dependencies count.
  ghost function Resolve(result: seq<Plugin>, plugins: seq<Plugin>, prov: map<Capability, Plugin>): seq<Plugin> {
    if plugins == [] then result
    else AddProviders(Resolve(result, plugins[..|plugins| - 1], prov), plugins[|plugins| - 1].dependencies, prov)
  }

  ghost predicate Needed(plugins: seq<Plugin>, prov: map<Capability, Plugin>, q: Plugin) {
    exists p, c :: p in plugins && c in p.dependencies && c in prov && prov[c] == q
  }

  lemma {:induction false} AddProvidersIs(result: seq<Plugin>, deps: seq<Capability>, prov: map<Capability, Plugin>)
    requires DistinctIds(result)
    ensures var r := AddProviders(result, deps, prov);
      && DistinctIds(r) && result <= r
      && (forall c :: c in deps && c in prov ==> prov[c].id in IdSet(r))
      && (forall q :: q in r ==> q in result || exists c :: c in deps && c in prov && prov[c] == q)
  {
    if deps != [] {
      var init, c := deps[..|deps| - 1], deps[|deps| - 1];
      AddProvidersIs(result, init, prov);
      assert deps == init + [c];
      var r := AddProviders(result, init, prov);
      assert forall i :: 0 <= i < |r| ==> r[i] in r;
    }
  }

  lemma {:induction false} ResolveIs(plugins: seq<Plugin>, n: nat, prov: map<Capability, Plugin>)
    requires DistinctIds(plugins) && n <= |plugins|
    ensures var r := Resolve(plugins, plugins[..n], prov);
      && DistinctIds(r) && plugins <= r
      && (forall p, c :: p in plugins[..n] && c in p.dependencies && c in prov ==> prov[c].id in IdSet(r))
      && (forall q :: q in r ==> q in plugins || Needed(plugins, prov, q))
  {
    if n > 0 {
      ResolveIs(plugins, n - 1, prov);
      assert plugins[..n] == plugins[..n - 1] + [plugins[n - 1]];
      var r := Resolve(plugins, plugins[..n - 1], prov);
      assert plugins[..n][..n - 1] == plugins[..n - 1];
      AddProvidersIs(r, plugins[n - 1].dependencies, prov);
      forall q | q in AddProviders(r, plugins[n - 1].dependencies, prov)
        ensures q in plugins || Needed(plugins, prov, q)
      {
        if q !in r {
          var c :| c in plugins[n - 1].dependencies && c in prov && prov[c] == q;
          assert plugins[n - 1] in plugins;
        }
      }
    }
  }

  // The list to boot: the given plugins, then the current provider of each of
  // their dependencies that is not in the list yet, and nothing else.
  lemma ResolvedDependencies(plugins: seq<Plugin>, all: seq<Plugin>)
    requires DistinctIds(plugins)
    ensures var r := Resolve(plugins, plugins, Providers(all));
      && DistinctIds(r) && plugins <= r
      && (forall p, c :: p in plugins && c in p.dependencies && c in Providers(all) ==>
          Providers(all)[c].id in IdSet(r))
      && (forall q :: q in r ==> q in plugins || (q in all && Needed(plugins, Providers(all), q)))
  {
    assert plugins[..|plugins|] == plugins;
    ResolveIs(plugins, |plugins|, Providers(all));
    ProvidersAre(all);
  }

  method ResolveDependencies(plugins: seq<Plugin>, all: seq<Plugin>) returns (result: seq<Plugin>)
    ensures result == Resolve(plugins, plugins, Providers(all))
  {
    var seen := set p | p in plugins :: p.id;
    var capMap := CollectProviders(all);
    result := plugins;
    for i := 0 to |plugins|
      invariant result == Resolve(plugins, plugins[..i], capMap) && seen == IdSet(result)
    {
      assert plugins[..i + 1][..i] == plugins[..i];
      var deps := plugins[i].dependencies;
      ghost var before := result;
      for j := 0 to |deps|
        invariant result == AddProviders(before, deps[..j], capMap) && seen == IdSet(result)
      {
        assert deps[..j + 1][..j] == deps[..j];
        if deps[j] !in capMap || capMap[deps[j]].id in seen { continue; }
        seen := seen + {capMap[deps[j]].id};
        result := result + [capMap[deps[j]]];
      }
      assert deps[..|deps|] == deps;
    }
    assert plugins[..|plugins|] == plugins;
  }

  // ---- in which order ----

  datatype Event =
    | Start(id: Id)        // startPlugin called
    | Ready(id: Id)        // registered, or waited for until the timeout
    | ForceStart(id: Id)   // startPlugin called by the deadlock breaker

  // The ids handed to startPlugin.
  function Starts(trace: seq<Event>): multiset<Id> {
    if trace == [] then multiset{}
    else
      var e := trace[|trace| - 1];
      Starts(trace[..|trace| - 1]) + if e.Ready? then multiset{} else multiset{e.id}
  }

  lemma StartsSnoc(trace: seq<Event>, e: Event)
    ensures Starts(trace + [e]) == Starts(trace) + if e.Ready? then multiset{} else multiset{e.id}
  {
    assert (trace + [e])[..|trace|] == trace;
  }

  // What must have happened before an event: a plugin with a container is
  // started, unless by force, only when the provider of each of its known
  // dependencies is ready, and nothing is ready before it was started.
  ghost predicate Timely(e: Event, before: seq<Event>, ps: seq<Plugin>) {
    match e
    case Start(id) =>
      forall p, c :: p in ps && p.id == id && !p.IsMetadataOnly() && c in p.dependencies && c in Providers(ps) ==>
        Ready(Providers(ps)[c].id) in before
    case Ready(id) => Start(id) in before
    case ForceStart(_) => true
  }

  ghost predicate WellOrdered(trace: seq<Event>, ps: seq<Plugin>) {
    trace == [] || (WellOrdered(trace[..|trace| - 1], ps) && Timely(trace[|trace| - 1], trace[..|trace| - 1], ps))
  }

  lemma {:induction false} EveryEventIsTimely(trace: seq<Event>, ps: seq<Plugin>, k: nat)
    requires WellOrdered(trace, ps) && k < |trace|
    ensures Timely(trace[k], trace[..k], ps)
  {
    if k < |trace| - 1 {
      EveryEventIsTimely(trace[..|trace| - 1], ps, k);
      assert trace[..|trace| - 1][..k] == trace[..k];
    }
  }

  ghost predicate DepsReady(p: Plugin, ps: seq<Plugin>, healthy: set<Id>) {
    forall c :: c in p.dependencies && c in Providers(ps) ==> Providers(ps)[c].id in healthy
  }

  method AllMet(p: Plugin, providers: map<Capability, Plugin>, healthy: set<Id>) returns (met: bool)
    ensures met <==> forall c :: c in p.dependencies && c in providers ==> providers[c].id in healthy
  {
    for j := 0 to |p.dependencies|
      invariant forall c :: c in p.dependencies[..j] && c in providers ==> providers[c].id in healthy
    {
      var dep := p.dependencies[j];
      if dep !in providers { continue; }
      if providers[dep].id !in healthy { return false; }
    }
    assert p.dependencies[..|p.dependencies|] == p.dependencies;
    return true;
  }

  lemma AppendTimely(trace: seq<Event>, ps: seq<Plugin>, e: Event)
    requires WellOrdered(trace, ps) && Timely(e, trace, ps)
    ensures WellOrdered(trace + [e], ps)
  {
    assert (trace + [e])[..|trace|] == trace;
  }

  lemma AppendStart(trace: seq<Event>, ps: seq<Plugin>, p: Plugin, healthy: set<Id>)
    requires DistinctIds(ps) && p in ps && WellOrdered(trace, ps)
    requires p.IsMetadataOnly() || DepsReady(p, ps, healthy)
    requires forall q :: q in healthy ==> Ready(q) in trace
    ensures WellOrdered(trace + [Start(p.id)], ps)
  {
    AppendTimely(trace, ps, Start(p.id));
  }

  // The ids of a list, with multiplicity.
  ghost function IdBag(ps: seq<Plugin>): multiset<Id> {
    if ps == [] then multiset{} else IdBag(ps[..|ps| - 1]) + multiset{ps[|ps| - 1].id}
  }

  lemma IdBagSnoc(ps: seq<Plugin>, p: Plugin)
    ensures IdBag(ps + [p]) == IdBag(ps) + multiset{p.id}
  {
    assert (ps + [p])[..|ps|] == ps;
  }

  // ---- one pass over the queue ----

  datatype Pass = Pass(
    batch: seq<Plugin>, deferred: seq<Plugin>, metas: seq<Plugin>, healthy: set<Id>, trace: seq<Event>)

  // Metadata-only plugins are ready at once, plugins whose dependencies are
  // ready join the batch, the others are deferred.
  ghost function Classify(a: Pass, p: Plugin, ps: seq<Plugin>): Pass {
    if p.IsMetadataOnly() then
      a.(metas := a.metas + [p], healthy := a.healthy + {p.id}, trace := a.trace + [Start(p.id)] + [Ready(p.id)])
    else if DepsReady(p, ps, a.healthy) then a.(batch := a.batch + [p])
    else a.(deferred := a.deferred + [p])
  }

  ghost function ClassifyAll(queue: seq<Plugin>, a: Pass, ps: seq<Plugin>): Pass {
    if queue == [] then a else Classify(ClassifyAll(queue[..|queue| - 1], a, ps), queue[|queue| - 1], ps)
  }

  ghost predicate TraceOk(ps: seq<Plugin>, healthy: set<Id>, trace: seq<Event>) {
    && WellOrdered(trace, ps)
    && (forall x :: x in healthy ==> Ready(x) in trace)
    && (forall id :: ForceStart(id) !in trace)
  }

  lemma TraceStep(b: Pass, p: Plugin, ps: seq<Plugin>)
    requires DistinctIds(ps) && TraceOk(ps, b.healthy, b.trace) && p in ps
    ensures var b' := Classify(b, p, ps); TraceOk(ps, b'.healthy, b'.trace)
  {
    if p.IsMetadataOnly() {
      var t := b.trace + [Start(p.id)];
      AppendStart(b.trace, ps, p, b.healthy);
      AppendTimely(t, ps, Ready(p.id));
      forall x | x in b.healthy + {p.id} ensures Ready(x) in t + [Ready(p.id)] {}
    }
  }

  lemma {:induction false} ClassifyTrace(queue: seq<Plugin>, a: Pass, ps: seq<Plugin>)
    requires DistinctIds(ps) && TraceOk(ps, a.healthy, a.trace)
    requires forall x :: x in queue ==> x in ps
    ensures var b := ClassifyAll(queue, a, ps); TraceOk(ps, b.healthy, b.trace)
  {
    if queue != [] {
      ClassifyTrace(queue[..|queue| - 1], a, ps);
      TraceStep(ClassifyAll(queue[..|queue| - 1], a, ps), queue[|queue| - 1], ps);
    }
  }

  ghost predicate Counted(queue: seq<Plugin>, a: Pass, b: Pass) {
    && Starts(b.trace) == Starts(a.trace) + IdBag(b.metas)
    && IdBag(queue) == IdBag(b.batch) + IdBag(b.deferred) + IdBag(b.metas)
    && |queue| == |b.batch| + |b.deferred| + |b.metas|
  }

  lemma BagAssoc(a: multiset<Id>, b: multiset<Id>, c: multiset<Id>)
    ensures (a + b) + c == a + (b + c)
  {
  }

  lemma BagSums(b: multiset<Id>, d: multiset<Id>, m: multiset<Id>, x: multiset<Id>)
    ensures b + d + m + x == (b + x) + d + m
    ensures b + d + m + x == b + (d + x) + m
    ensures b + d + m + x == b + d + (m + x)
  {
  }

  lemma CountStep(queue: seq<Plugin>, a: Pass, b: Pass, p: Plugin, ps: seq<Plugin>)
    requires Counted(queue, a, b)
    ensures Counted(queue + [p], a, Classify(b, p, ps))
  {
    IdBagSnoc(queue, p);
    BagSums(IdBag(b.batch), IdBag(b.deferred), IdBag(b.metas), multiset{p.id});
    if p.IsMetadataOnly() {
      CountMeta(b.metas, b.trace, p);
    } else if DepsReady(p, ps, b.healthy) {
      IdBagSnoc(b.batch, p);
    } else {
      IdBagSnoc(b.deferred, p);
    }
  }

  lemma CountMeta(metas: seq<Plugin>, trace: seq<Event>, p: Plugin)
    ensures IdBag(metas + [p]) == IdBag(metas) + multiset{p.id}
    ensures Starts(trace + [Start(p.id)] + [Ready(p.id)]) == Starts(trace) + multiset{p.id}
  {
    IdBagSnoc(metas, p);
    StartsSnoc(trace, Start(p.id));
    StartsSnoc(trace + [Start(p.id)], Ready(p.id));
  }

  lemma {:induction false} ClassifyCounts(queue: seq<Plugin>, a: Pass, ps: seq<Plugin>)
    requires a.batch == a.deferred == a.metas == []
    ensures Counted(queue, a, ClassifyAll(queue, a, ps))
  {
    if queue != [] {
      var init, p := queue[..|queue| - 1], queue[|queue| - 1];
      assert queue == init + [p];
      ClassifyCounts(init, a, ps);
      CountStep(init, a, ClassifyAll(init, a, ps), p, ps);
    }
  }

  ghost predicate Sorted(queue: seq<Plugin>, a: Pass, b: Pass, ps: seq<Plugin>) {
    && b.healthy == a.healthy + IdSet(b.metas)
    && (forall x :: x in queue <==> x in b.batch || x in b.deferred || x in b.metas)
    && (forall x :: x in b.metas ==> x.IsMetadataOnly())
    && (forall x :: x in b.batch ==> !x.IsMetadataOnly() && DepsReady(x, ps, b.healthy))
    && (forall x :: x in b.deferred ==> !x.IsMetadataOnly() && !DepsReady(x, ps, a.healthy))
  }

  lemma SortStep(queue: seq<Plugin>, a: Pass, b: Pass, p: Plugin, ps: seq<Plugin>)
    requires Sorted(queue, a, b, ps)
    ensures Sorted(queue + [p], a, Classify(b, p, ps), ps)
  {
    var b' := Classify(b, p, ps);
    assert IdSet(b.metas + [p]) == IdSet(b.metas) + {p.id};
    assert b.healthy <= b'.healthy;
    forall x | x in b'.batch ensures !x.IsMetadataOnly() && DepsReady(x, ps, b'.healthy) {}
    forall x | x in b'.deferred ensures !x.IsMetadataOnly() && !DepsReady(x, ps, a.healthy) {}
  }

  lemma {:induction false} ClassifySorts(queue: seq<Plugin>, a: Pass, ps: seq<Plugin>)
    requires a.batch == a.deferred == a.metas == []
    ensures Sorted(queue, a, ClassifyAll(queue, a, ps), ps)
  {
    if queue != [] {
      var init, p := queue[..|queue| - 1], queue[|queue| - 1];
      ClassifySorts(init, a, ps);
      SortStep(init, a, ClassifyAll(init, a, ps), p, ps);
      assert queue == init + [p];
    }
  }

  function MetaIds(queue: seq<Plugin>): set<Id> {
    set x | x in queue && x.IsMetadataOnly() :: x.id
  }

  lemma ClassifyGrows(queue: seq<Plugin>, a: Pass, ps: seq<Plugin>, k: nat)
    requires k <= |queue|
    ensures var b, e := ClassifyAll(queue[..k], a, ps), ClassifyAll(queue, a, ps);
      b.batch <= e.batch && b.deferred <= e.deferred && b.metas <= e.metas
    decreases |queue|
  {
    if k < |queue| {
      assert queue[..|queue| - 1][..k] == queue[..k];
      ClassifyGrows(queue[..|queue| - 1], a, ps, k);
    } else {
      assert queue[..k] == queue;
    }
  }

  // A metadata-only plugin counts as ready for those after it in the queue, in
  // the same pass; one with a container does not.
  lemma LooksAtTheReady(queue: seq<Plugin>, a: Pass, ps: seq<Plugin>, k: nat)
    requires a.batch == a.deferred == a.metas == [] && k < |queue| && !queue[k].IsMetadataOnly()
    ensures var b := ClassifyAll(queue, a, ps);
      if DepsReady(queue[k], ps, a.healthy + MetaIds(queue[..k])) then queue[k] in b.batch else queue[k] in b.deferred
  {
    var before, p := queue[..k], queue[k];
    assert queue[..k + 1][..k] == before;
    ClassifySorts(before, a, ps);
    var b := ClassifyAll(before, a, ps);
    assert IdSet(b.metas) == MetaIds(before);
    ClassifyGrows(queue, a, ps, k + 1);
    var e := Classify(b, p, ps);
    assert e == ClassifyAll(queue[..k + 1], a, ps);
    assert if DepsReady(p, ps, b.healthy) then e.batch[|b.batch|] == p else e.deferred[|b.deferred|] == p;
  }

  method SplitQueue(queue: seq<Plugin>, providers: map<Capability, Plugin>, healthy0: set<Id>, trace0: seq<Event>,
                    ghost ps: seq<Plugin>)
    returns (batch: seq<Plugin>, deferred: seq<Plugin>, metas: seq<Plugin>, healthy: set<Id>, trace: seq<Event>)
    requires providers == Providers(ps)
    ensures Pass(batch, deferred, metas, healthy, trace) == ClassifyAll(queue, Pass([], [], [], healthy0, trace0), ps)
  {
    batch, deferred, metas, healthy, trace := [], [], [], healthy0, trace0;
    for i := 0 to |queue|
      invariant Pass(batch, deferred, metas, healthy, trace) ==
          ClassifyAll(queue[..i], Pass([], [], [], healthy0, trace0), ps)
    {
      assert queue[..i + 1][..i] == queue[..i];
      var p := queue[i];
      if p.IsMetadataOnly() {
        trace := trace + [Start(p.id)] + [Ready(p.id)];
        healthy := healthy + {p.id};
        metas := metas + [p];
        continue;
      }
      var met := AllMet(p, providers, healthy);
      if met || |p.dependencies| == 0 {
        batch := batch + [p];
      } else {
        deferred := deferred + [p];
      }
    }
    assert queue[..|queue|] == queue;
  }

  // ---- starting a batch ----

  ghost function StartEach(batch: seq<Plugin>, trace: seq<Event>): seq<Event> {
    if batch == [] then trace else StartEach(batch[..|batch| - 1], trace) + [Start(batch[|batch| - 1].id)]
  }

  ghost function AwaitEach(batch: seq<Plugin>, trace: seq<Event>): seq<Event> {
    if batch == [] then trace else AwaitEach(batch[..|batch| - 1], trace) + [Ready(batch[|batch| - 1].id)]
  }

  ghost function ForceEach(queue: seq<Plugin>, trace: seq<Event>): seq<Event> {
    if queue == [] then trace else ForceEach(queue[..|queue| - 1], trace) + [ForceStart(queue[|queue| - 1].id)]
  }

  lemma {:induction false} StartEachOk(batch: seq<Plugin>, trace: seq<Event>, ps: seq<Plugin>, healthy: set<Id>)
    requires DistinctIds(ps) && TraceOk(ps, healthy, trace)
    requires forall x :: x in batch ==> x in ps && DepsReady(x, ps, healthy)
    ensures var t := StartEach(batch, trace);
      && TraceOk(ps, healthy, t)
      && (forall x :: x in batch ==> Start(x.id) in t)
  {
    if batch != [] {
      var init, p := batch[..|batch| - 1], batch[|batch| - 1];
      StartEachOk(init, trace, ps, healthy);
      assert batch == init + [p];
      AppendStart(StartEach(init, trace), ps, p, healthy);
    }
  }

  lemma {:induction false} StartEachCounts(batch: seq<Plugin>, trace: seq<Event>)
    ensures Starts(StartEach(batch, trace)) == Starts(trace) + IdBag(batch)
  {
    if batch != [] {
      var init, p := batch[..|batch| - 1], batch[|batch| - 1];
      StartEachCounts(init, trace);
      BagAssoc(Starts(trace), IdBag(init), multiset{p.id});
      StartsSnoc(StartEach(init, trace), Start(p.id));
    }
  }

  lemma {:induction false} AwaitEachOk(batch: seq<Plugin>, trace: seq<Event>, ps: seq<Plugin>)
    requires WellOrdered(trace, ps) && forall x :: x in batch ==> Start(x.id) in trace
    ensures var t := AwaitEach(batch, trace); WellOrdered(t, ps) && Starts(t) == Starts(trace) && trace <= t
  {
    if batch != [] {
      var init, p := batch[..|batch| - 1], batch[|batch| - 1];
      AwaitEachOk(init, trace, ps);
      assert p in batch && Start(p.id) in trace;
      AppendTimely(AwaitEach(init, trace), ps, Ready(p.id));
      StartsSnoc(AwaitEach(init, trace), Ready(p.id));
    }
  }

  lemma {:induction false} AwaitEachAdds(batch: seq<Plugin>, trace: seq<Event>)
    ensures var t := AwaitEach(batch, trace);
      && (forall id :: Ready(id) in t <==> Ready(id) in trace || id in IdSet(batch))
      && (forall id :: ForceStart(id) in t <==> ForceStart(id) in trace)
  {
    if batch != [] {
      var init, p := batch[..|batch| - 1], batch[|batch| - 1];
      AwaitEachAdds(init, trace);
      assert batch == init + [p];
      assert IdSet(batch) == IdSet(init) + {p.id};
    }
  }

  lemma {:induction false} ForceEachOk(queue: seq<Plugin>, trace: seq<Event>, ps: seq<Plugin>)
    requires WellOrdered(trace, ps)
    ensures var t := ForceEach(queue, trace); WellOrdered(t, ps) && Starts(t) == Starts(trace) + IdBag(queue)
  {
    if queue != [] {
      var init, p := queue[..|queue| - 1], queue[|queue| - 1];
      ForceEachOk(init, trace, ps);
      BagAssoc(Starts(trace), IdBag(init), multiset{p.id});
      AppendTimely(ForceEach(init, trace), ps, ForceStart(p.id));
      StartsSnoc(ForceEach(init, trace), ForceStart(p.id));
    }
  }

  lemma {:induction false} ForceEachAdds(queue: seq<Plugin>, trace: seq<Event>)
    ensures forall id :: ForceStart(id) in ForceEach(queue, trace) <==> ForceStart(id) in trace || id in IdSet(queue)
    ensures forall id :: Ready(id) in trace ==> Ready(id) in ForceEach(queue, trace)
  {
    if queue != [] {
      var init, p := queue[..|queue| - 1], queue[|queue| - 1];
      ForceEachAdds(init, trace);
      assert queue == init + [p];
      assert IdSet(queue) == IdSet(init) + {p.id};
    }
  }

  method ForceStartAll(queue: seq<Plugin>, trace0: seq<Event>) returns (trace: seq<Event>)
    ensures trace == ForceEach(queue, trace0)
  {
    trace := trace0;
    for i := 0 to |queue|
      invariant trace == ForceEach(queue[..i], trace0)
    {
      assert queue[..i + 1][..i] == queue[..i];
      trace := trace + [ForceStart(queue[i].id)];
    }
    assert queue[..|queue|] == queue;
  }

  // The batch is started in parallel, then each member is waited for.
  method RunBatch(batch: seq<Plugin>, healthy0: set<Id>, trace0: seq<Event>)
      returns (healthy: set<Id>, trace: seq<Event>)
    ensures trace == AwaitEach(batch, StartEach(batch, trace0)) && healthy == healthy0 + IdSet(batch)
  {
    trace, healthy := trace0, healthy0;
    for i := 0 to |batch|
      invariant trace == StartEach(batch[..i], trace0)
    {
      assert batch[..i + 1][..i] == batch[..i];
      trace := trace + [Start(batch[i].id)];
    }
    assert batch[..|batch|] == batch;
    for i := 0 to |batch|
      invariant trace == AwaitEach(batch[..i], StartEach(batch, trace0)) && healthy == healthy0 + IdSet(batch[..i])
    {
      assert batch[..i + 1] == batch[..i] + [batch[i]];
      trace := trace + [Ready(batch[i].id)];
      healthy := healthy + {batch[i].id};
    }
  }

  // ---- the boot loop ----

  lemma WaitsHas(ps: seq<Plugin>, p: Plugin, c: Capability)
    requires p in ps && !p.IsMetadataOnly() && c in p.dependencies && c in Providers(ps)
    ensures (p.id, Providers(ps)[c].id) in Waits(ps)
  {
  }

  lemma WaitsFrom(ps: seq<Plugin>, a: Id, b: Id) returns (p: Plugin, c: Capability)
    requires (a, b) in Waits(ps)
    ensures p in ps && !p.IsMetadataOnly() && p.id == a && c in p.dependencies && c in Providers(ps) &&
        Providers(ps)[c].id == b
  {
    p, c :| p in ps && !p.IsMetadataOnly() && c in p.dependencies && c in Providers(ps) &&
        (a, b) == (p.id, Providers(ps)[c].id);
  }

  lemma UnreadyWaits(ps: seq<Plugin>, x: Plugin, healthy: set<Id>) returns (y: Plugin)
    requires x in ps && !x.IsMetadataOnly() && !DepsReady(x, ps, healthy)
    ensures y in ps && y.id !in healthy && (x.id, y.id) in Waits(ps)
  {
    ProvidersAre(ps);
    var c :| c in x.dependencies && c in Providers(ps) && Providers(ps)[c].id !in healthy;
    y := Providers(ps)[c];
    WaitsHas(ps, x, c);
  }

  // A pass without progress: everything left waits for something left.
  lemma StuckIsTrapped(ps: seq<Plugin>, queue: seq<Plugin>, healthy: set<Id>)
    requires forall x :: x in queue ==> x in ps && !x.IsMetadataOnly() && !DepsReady(x, ps, healthy)
    requires forall x :: x in ps ==> x.id in healthy || x in queue
    ensures Trapped(Waits(ps), IdSet(queue))
  {
    var edges, nodes := Waits(ps), IdSet(queue);
    forall a | a in nodes ensures HasEdgeInto(edges, a, nodes) {
      var x :| x in queue && x.id == a;
      var y := UnreadyWaits(ps, x, healthy);
      assert y in queue;
      assert y.id in nodes && (a, y.id) in edges;
    }
  }

  // Every edge out of a ready plugin leads to one that became ready before.
  ghost predicate RankOk(ps: seq<Plugin>, healthy: set<Id>, rank: map<Id, nat>, now: nat) {
    && rank.Keys == healthy
    && (forall x :: x in rank ==> rank[x] < now)
    && (forall a, b :: (a, b) in Waits(ps) && a in healthy ==> b in healthy && rank[b] < rank[a])
  }

  lemma RankNewcomers(ps: seq<Plugin>, healthy: set<Id>, rank: map<Id, nat>, now: nat, news: seq<Plugin>)
      returns (rank': map<Id, nat>)
    requires DistinctIds(ps) && RankOk(ps, healthy, rank, now)
    requires forall x :: x in news ==> x in ps && x.id !in healthy && (x.IsMetadataOnly() || DepsReady(x, ps, healthy))
    ensures RankOk(ps, healthy + IdSet(news), rank', now + 1)
  {
    rank' := rank + map x | x in IdSet(news) :: now;
    forall a, b | (a, b) in Waits(ps) && a in healthy + IdSet(news)
      ensures b in healthy && rank'[b] < rank'[a]
    {
      if a !in healthy {
        var p, c := WaitsFrom(ps, a, b);
        var x :| x in news && x.id == a;
        assert x == p;
      }
    }
  }

  ghost predicate Partitioned(ps: seq<Plugin>, queue: seq<Plugin>, healthy: set<Id>) {
    && (forall x :: x in queue ==> x in ps && x.id !in healthy)
    && (forall x :: x in ps ==> x.id in healthy || x in queue)
    && DistinctIds(queue)
  }

  // Between passes: everything not in the queue has been started and is ready.
  ghost predicate QueueOk(ps: seq<Plugin>, queue: seq<Plugin>, healthy: set<Id>, trace: seq<Event>) {
    Starts(trace) + IdBag(queue) == IdBag(ps) && Partitioned(ps, queue, healthy)
  }

  ghost predicate Separate(b: Pass) {
    && DistinctIds(b.deferred) && DistinctIds(b.batch) && DistinctIds(b.metas)
    && IdSet(b.deferred) !! IdSet(b.batch) !! IdSet(b.metas)
  }

  lemma IdSetSnoc(ps: seq<Plugin>, p: Plugin)
    requires DistinctIds(ps) && p.id !in IdSet(ps)
    ensures IdSet(ps + [p]) == IdSet(ps) + {p.id} && DistinctIds(ps + [p])
  {
    forall i | 0 <= i < |ps| ensures ps[i].id != p.id {
      assert ps[i] in ps && ps[i].id in IdSet(ps);
    }
  }

  lemma SeparateStep(b: Pass, p: Plugin, ps: seq<Plugin>)
    requires Separate(b) && p.id !in IdSet(b.deferred) + IdSet(b.batch) + IdSet(b.metas)
    ensures Separate(Classify(b, p, ps))
  {
    IdSetSnoc(b.deferred, p);
    IdSetSnoc(b.batch, p);
    IdSetSnoc(b.metas, p);
  }

  lemma {:induction false} ClassifySeparates(queue: seq<Plugin>, a: Pass, ps: seq<Plugin>)
    requires DistinctIds(queue) && a.batch == a.deferred == a.metas == []
    ensures Separate(ClassifyAll(queue, a, ps))
  {
    if queue != [] {
      var init, p := queue[..|queue| - 1], queue[|queue| - 1];
      ClassifySeparates(init, a, ps);
      ClassifySorts(init, a, ps);
      forall x | x in init ensures x.id != p.id {}
      SeparateStep(ClassifyAll(init, a, ps), p, ps);
    }
  }

  lemma PassKeepsQueue(ps: seq<Plugin>, queue: seq<Plugin>, a: Pass, b: Pass)
    requires DistinctIds(ps) && Partitioned(ps, queue, a.healthy)
    requires Sorted(queue, a, b, ps) && Separate(b)
    ensures Partitioned(ps, b.deferred, b.healthy + IdSet(b.batch))
  {
    forall x | x in b.deferred ensures x in ps && x.id !in b.healthy + IdSet(b.batch) {
      assert x.id in IdSet(b.deferred);
    }
    forall x | x in ps ensures x.id in b.healthy + IdSet(b.batch) || x in b.deferred {}
  }

  lemma PassKeepsRank(ps: seq<Plugin>, queue: seq<Plugin>, a: Pass, b: Pass, rank: map<Id, nat>, now: nat)
      returns (rank': map<Id, nat>)
    requires DistinctIds(ps) && Partitioned(ps, queue, a.healthy) && Sorted(queue, a, b, ps)
    requires Separate(b)
    requires RankOk(ps, a.healthy, rank, now)
    ensures RankOk(ps, b.healthy + IdSet(b.batch), rank', now + 2)
  {
    var rank1 := RankNewcomers(ps, a.healthy, rank, now, b.metas);
    forall x | x in b.batch ensures x.id !in b.healthy {
      assert x.id in IdSet(b.batch);
    }
    rank' := RankNewcomers(ps, b.healthy, rank1, now + 1, b.batch);
  }

  lemma PassKeepsTrace(ps: seq<Plugin>, queue: seq<Plugin>, a: Pass)
    requires DistinctIds(ps) && a.batch == a.deferred == a.metas == []
    requires TraceOk(ps, a.healthy, a.trace) && forall x :: x in queue ==> x in ps
    ensures var b := ClassifyAll(queue, a, ps);
      var trace := AwaitEach(b.batch, StartEach(b.batch, b.trace));
      && TraceOk(ps, b.healthy + IdSet(b.batch), trace) && Starts(trace) == Starts(b.trace) + IdBag(b.batch)
  {
    var b := ClassifyAll(queue, a, ps);
    ClassifyTrace(queue, a, ps);
    ClassifySorts(queue, a, ps);
    StartEachOk(b.batch, b.trace, ps, b.healthy);
    StartEachCounts(b.batch, b.trace);
    AwaitEachOk(b.batch, StartEach(b.batch, b.trace), ps);
    AwaitEachAdds(b.batch, StartEach(b.batch, b.trace));
  }

  ghost predicate BootInv(
    ps: seq<Plugin>, queue: seq<Plugin>, healthy: set<Id>, trace: seq<Event>, rank: map<Id, nat>, now: nat)
  {
    TraceOk(ps, healthy, trace) && QueueOk(ps, queue, healthy, trace) && RankOk(ps, healthy, rank, now)
  }

  // What one pass keeps.
  lemma PassKeeps(ps: seq<Plugin>, queue: seq<Plugin>, a: Pass, rank: map<Id, nat>, now: nat)
      returns (rank': map<Id, nat>)
    requires DistinctIds(ps) && a.batch == a.deferred == a.metas == []
    requires BootInv(ps, queue, a.healthy, a.trace, rank, now)
    ensures var b := ClassifyAll(queue, a, ps);
      var trace := AwaitEach(b.batch, StartEach(b.batch, b.trace));
      && BootInv(ps, b.deferred, b.healthy + IdSet(b.batch), trace, rank', now + 2)
      && |queue| == |b.batch| + |b.deferred| + |b.metas|
      && Sorted(queue, a, b, ps)
  {
    var b := ClassifyAll(queue, a, ps);
    PassKeepsTrace(ps, queue, a);
    ClassifyCounts(queue, a, ps);
    ClassifySorts(queue, a, ps);
    ClassifySeparates(queue, a, ps);
    PassKeepsQueue(ps, queue, a, b);
    rank' := PassKeepsRank(ps, queue, a, b, rank, now);
  }

  // What is started by force when a pass made no progress.
  lemma ForceKeeps(ps: seq<Plugin>, queue: seq<Plugin>, healthy: set<Id>, trace: seq<Event>, rank: map<Id, nat>,
      now: nat)
    requires BootInv(ps, queue, healthy, trace, rank, now) && queue != []
    requires forall x :: x in queue ==> !x.IsMetadataOnly() && !DepsReady(x, ps, healthy)
    ensures var t := ForceEach(queue, trace);
      && Starts(t) == IdBag(ps) && WellOrdered(t, ps)
      && (forall id :: ForceStart(id) in t <==> id in IdSet(queue))
      && (forall p :: p in ps && p.id !in IdSet(queue) ==> Ready(p.id) in t)
    ensures Trapped(Waits(ps), IdSet(queue)) && !Acyclic(Waits(ps))
  {
    ForceEachOk(queue, trace, ps);
    ForceEachAdds(queue, trace);
    StuckIsTrapped(ps, queue, healthy);
    assert queue[0].id in IdSet(queue);
    var c := TrappedSetHasCycle(Waits(ps), IdSet(queue));
  }

  // ---- nobody waits needlessly ----

  // Some known dependency of p is not ready yet, or is a metadata-only plugin,
  // which is ready from where it is listed on.
  ghost predicate Blocked(p: Plugin, before: seq<Event>, ps: seq<Plugin>) {
    exists c :: c in p.dependencies && c in Providers(ps)
      && (Ready(Providers(ps)[c].id) !in before || Providers(ps)[c].IsMetadataOnly())
  }

  ghost predicate StartsContainer(q: Plugin, trace: seq<Event>, i: nat, ps: seq<Plugin>) {
    q in ps && !q.IsMetadataOnly() && i < |trace| && trace[i] == Start(q.id)
  }

  // Before p is started, no other container is started and waited for unless p
  // was blocked at the time.
  ghost predicate EagerAt(trace: seq<Event>, ps: seq<Plugin>, p: Plugin, k: nat)
    requires k <= |trace|
  {
    forall q, i: nat :: StartsContainer(q, trace, i, ps) && i < k && Ready(q.id) in trace[..k] ==>
      Blocked(p, trace[..i], ps)
  }

  // Nobody waits needlessly.
  ghost predicate Eager(trace: seq<Event>, ps: seq<Plugin>) {
    forall p, k: nat :: StartsContainer(p, trace, k, ps) ==> EagerAt(trace, ps, p, k)
  }

  // Whatever has been started, p was blocked at the time.
  ghost predicate BlockedSoFar(trace: seq<Event>, ps: seq<Plugin>, p: Plugin) {
    forall q, i: nat :: StartsContainer(q, trace, i, ps) ==> Blocked(p, trace[..i], ps)
  }

  ghost predicate EagerInv(ps: seq<Plugin>, queue: seq<Plugin>, healthy: set<Id>, trace: seq<Event>) {
    && Eager(trace, ps)
    && (forall p :: p in queue && !p.IsMetadataOnly() ==> BlockedSoFar(trace, ps, p))
    && (forall x :: Ready(x) in trace ==> x in healthy)
  }

  // The events of metadata-only plugins.
  ghost predicate MetaEvent(e: Event, queue: seq<Plugin>) {
    !e.ForceStart? && exists m :: m in queue && m.IsMetadataOnly() && e.id == m.id
  }

  ghost predicate OnlyMetaEvents(trace: seq<Event>, from: nat, queue: seq<Plugin>) {
    forall i :: from <= i < |trace| ==> MetaEvent(trace[i], queue)
  }

  lemma {:induction false} ClassifyAddsMetas(queue: seq<Plugin>, a: Pass, ps: seq<Plugin>)
    ensures var b := ClassifyAll(queue, a, ps); a.trace <= b.trace && OnlyMetaEvents(b.trace, |a.trace|, queue)
  {
    if queue != [] {
      var init, p := queue[..|queue| - 1], queue[|queue| - 1];
      ClassifyAddsMetas(init, a, ps);
      assert queue == init + [p];
      var t, r := ClassifyAll(init, a, ps).trace, ClassifyAll(queue, a, ps).trace;
      forall i | |a.trace| <= i < |r| ensures MetaEvent(r[i], queue) {
        if i < |t| {
          assert MetaEvent(t[i], init);
        } else {
          assert r == t + [Start(p.id)] + [Ready(p.id)] && p in queue;
        }
      }
    }
  }

  lemma {:induction false} StartEachIs(batch: seq<Plugin>, trace: seq<Event>)
    ensures var t := StartEach(batch, trace);
      && trace <= t && |t| == |trace| + |batch|
      && forall i :: |trace| <= i < |t| ==> t[i] == Start(batch[i - |trace|].id)
  {
    if batch != [] { StartEachIs(batch[..|batch| - 1], trace); }
  }

  lemma {:induction false} AwaitEachIs(batch: seq<Plugin>, trace: seq<Event>)
    ensures var t := AwaitEach(batch, trace); trace <= t && forall i :: |trace| <= i < |t| ==> t[i].Ready?
  {
    if batch != [] { AwaitEachIs(batch[..|batch| - 1], trace); }
  }

  lemma {:induction false} ForceEachIs(queue: seq<Plugin>, trace: seq<Event>)
    ensures var t := ForceEach(queue, trace); trace <= t && forall i :: |trace| <= i < |t| ==> t[i].ForceStart?
  {
    if queue != [] { ForceEachIs(queue[..|queue| - 1], trace); }
  }

  // Events that start nothing, appended at the end.
  lemma EagerGrows(t: seq<Event>, u: seq<Event>, ps: seq<Plugin>)
    requires Eager(t, ps) && t <= u && forall i :: |t| <= i < |u| ==> !u[i].Start?
    ensures Eager(u, ps)
    ensures forall p :: BlockedSoFar(t, ps, p) ==> BlockedSoFar(u, ps, p)
  {
    forall p, k: nat | StartsContainer(p, u, k, ps) ensures EagerAt(u, ps, p, k) {
      assert StartsContainer(p, t, k, ps);
      forall q, i: nat | StartsContainer(q, u, i, ps) && i < k && Ready(q.id) in u[..k]
        ensures Blocked(p, u[..i], ps)
      {
        assert StartsContainer(q, t, i, ps) && u[..k] == t[..k] && u[..i] == t[..i];
      }
    }
    forall p, q, i: nat | BlockedSoFar(t, ps, p) && StartsContainer(q, u, i, ps) ensures Blocked(p, u[..i], ps) {
      assert StartsContainer(q, t, i, ps) && u[..i] == t[..i];
    }
  }

  // The trace after a batch has been started: old events, metadata-only plugins
  // that have become ready, and the starts of the batch.
  ghost predicate BatchStarted(ps: seq<Plugin>, queue: seq<Plugin>, batch: seq<Plugin>, t0: seq<Event>, n1: nat,
      t2: seq<Event>)
  {
    && t0 <= t2 && |t0| <= n1 && |t2| == n1 + |batch|
    && (forall i :: |t0| <= i < n1 ==> MetaEvent(t2[i], queue))
    && (forall i :: n1 <= i < |t2| ==> t2[i] == Start(batch[i - n1].id))
    && (forall x :: x in queue ==> x in ps) && (forall x :: x in batch ==> x in queue)
  }

  // A container has no events among those of the metadata-only plugins.
  lemma NoMetaEvent(ps: seq<Plugin>, queue: seq<Plugin>, q: Plugin, e: Event)
    requires DistinctIds(ps) && (forall x :: x in queue ==> x in ps) && q in ps && !q.IsMetadataOnly()
    requires MetaEvent(e, queue)
    ensures e.id != q.id
  {
    var m :| m in queue && m.IsMetadataOnly() && e.id == m.id;
    if m.id == q.id { SameRow(ps, m, q); }
  }

  lemma StartIsOldOrOfBatch(ps: seq<Plugin>, queue: seq<Plugin>, batch: seq<Plugin>, t0: seq<Event>, n1: nat,
      t2: seq<Event>, q: Plugin, i: nat)
    requires DistinctIds(ps) && BatchStarted(ps, queue, batch, t0, n1, t2) && StartsContainer(q, t2, i, ps)
    ensures i < |t0| || (i >= n1 && batch[i - n1] == q)
  {
    if |t0| <= i < n1 {
      NoMetaEvent(ps, queue, q, t2[i]);
    } else if i >= n1 {
      SameRow(ps, batch[i - n1], q);
    }
  }

  lemma ReadyIsOld(ps: seq<Plugin>, queue: seq<Plugin>, batch: seq<Plugin>, t0: seq<Event>, n1: nat,
      t2: seq<Event>, k: nat, q: Plugin)
    requires DistinctIds(ps) && BatchStarted(ps, queue, batch, t0, n1, t2) && k <= |t2|
    requires q in ps && Ready(q.id) in t2[..k]
    ensures Ready(q.id) in t0 || q.IsMetadataOnly()
  {
    var i :| 0 <= i < k && t2[i] == Ready(q.id);
    if i < |t0| {
      assert t0[i] == t2[i];
    } else if i < n1 {
      var m :| m in queue && m.IsMetadataOnly() && t2[i].id == m.id;
      SameRow(ps, m, q);
    }
  }

  lemma BatchIsEager(ps: seq<Plugin>, queue: seq<Plugin>, healthy: set<Id>, batch: seq<Plugin>, t0: seq<Event>,
      n1: nat, t2: seq<Event>)
    requires DistinctIds(ps) && EagerInv(ps, queue, healthy, t0) && BatchStarted(ps, queue, batch, t0, n1, t2)
    requires forall x :: x in queue ==> x.id !in healthy
    ensures Eager(t2, ps)
  {
    forall p, k: nat | StartsContainer(p, t2, k, ps) ensures EagerAt(t2, ps, p, k) {
      StartIsOldOrOfBatch(ps, queue, batch, t0, n1, t2, p, k);
      forall q, i: nat | StartsContainer(q, t2, i, ps) && i < k && Ready(q.id) in t2[..k]
        ensures Blocked(p, t2[..i], ps)
      {
        StartIsOldOrOfBatch(ps, queue, batch, t0, n1, t2, q, i);
        ReadyIsOld(ps, queue, batch, t0, n1, t2, k, q);
        assert StartsContainer(q, t0, i, ps) && t2[..i] == t0[..i];
        if k < |t0| {
          assert StartsContainer(p, t0, k, ps) && t2[..k] == t0[..k];
        } else {
          assert p in queue;
        }
      }
    }
  }

  lemma DeferredIsBlocked(ps: seq<Plugin>, queue: seq<Plugin>, healthy: set<Id>, batch: seq<Plugin>, t0: seq<Event>,
      n1: nat, t2: seq<Event>, p: Plugin)
    requires DistinctIds(ps) && EagerInv(ps, queue, healthy, t0) && BatchStarted(ps, queue, batch, t0, n1, t2)
    requires p in queue && !p.IsMetadataOnly() && !DepsReady(p, ps, healthy)
    ensures BlockedSoFar(t2, ps, p)
  {
    ProvidersAre(ps);
    var c :| c in p.dependencies && c in Providers(ps) && Providers(ps)[c].id !in healthy;
    var r := Providers(ps)[c];
    forall q, i: nat | StartsContainer(q, t2, i, ps) ensures Blocked(p, t2[..i], ps) {
      StartIsOldOrOfBatch(ps, queue, batch, t0, n1, t2, q, i);
      if i < |t0| {
        assert StartsContainer(q, t0, i, ps) && t2[..i] == t0[..i];
      } else if Ready(r.id) in t2[..i] {
        ReadyIsOld(ps, queue, batch, t0, n1, t2, i, r);
      }
    }
  }

  // One pass keeps it.
  lemma PassKeepsEager(ps: seq<Plugin>, queue: seq<Plugin>, a: Pass)
    requires DistinctIds(ps) && a.batch == a.deferred == a.metas == []
    requires Partitioned(ps, queue, a.healthy) && EagerInv(ps, queue, a.healthy, a.trace)
    ensures var b := ClassifyAll(queue, a, ps);
      EagerInv(ps, b.deferred, b.healthy + IdSet(b.batch), AwaitEach(b.batch, StartEach(b.batch, b.trace)))
  {
    var b := ClassifyAll(queue, a, ps);
    var t2 := StartEach(b.batch, b.trace);
    var t3 := AwaitEach(b.batch, t2);
    ClassifySorts(queue, a, ps);
    PassStartsBatch(ps, queue, a, b);
    BatchIsEager(ps, queue, a.healthy, b.batch, a.trace, |b.trace|, t2);
    AwaitEachIs(b.batch, t2);
    EagerGrows(t2, t3, ps);
    forall p | p in b.deferred ensures BlockedSoFar(t3, ps, p) {
      DeferredIsBlocked(ps, queue, a.healthy, b.batch, a.trace, |b.trace|, t2, p);
    }
    ReadyOfPass(ps, queue, a, b);
  }

  lemma PassStartsBatch(ps: seq<Plugin>, queue: seq<Plugin>, a: Pass, b: Pass)
    requires b == ClassifyAll(queue, a, ps) && Sorted(queue, a, b, ps) && forall x :: x in queue ==> x in ps
    ensures BatchStarted(ps, queue, b.batch, a.trace, |b.trace|, StartEach(b.batch, b.trace))
  {
    ClassifyAddsMetas(queue, a, ps);
    StartEachIs(b.batch, b.trace);
  }

  lemma ReadyOfPass(ps: seq<Plugin>, queue: seq<Plugin>, a: Pass, b: Pass)
    requires b == ClassifyAll(queue, a, ps) && Sorted(queue, a, b, ps)
    requires forall x :: Ready(x) in a.trace ==> x in a.healthy
    ensures forall x :: Ready(x) in AwaitEach(b.batch, StartEach(b.batch, b.trace)) ==> x in b.healthy + IdSet(b.batch)
  {
    var t2 := StartEach(b.batch, b.trace);
    ClassifyAddsMetas(queue, a, ps);
    StartEachIs(b.batch, b.trace);
    AwaitEachAdds(b.batch, t2);
    forall x | Ready(x) in t2 ensures x in b.healthy {
      var i :| 0 <= i < |t2| && t2[i] == Ready(x);
      assert i < |b.trace| && b.trace[i] == t2[i];
      if i < |a.trace| {
        assert a.trace[i] == t2[i];
      } else {
        assert MetaEvent(b.trace[i], queue);
        var m :| m in queue && m.IsMetadataOnly() && x == m.id;
        assert m in b.metas;
      }
    }
  }

  // What a boot comes to.  Every plugin is started exactly once; nobody is
  // started before its providers are ready unless by force, nor waits while
  // others are started and waited for without being blocked; everybody else
  // becomes ready; and force is used exactly when the plugins that have a container
  // wait for each other in a cycle.
  ghost predicate Booted(ps: seq<Plugin>, trace: seq<Event>, forced: seq<Plugin>) {
    && Starts(trace) == IdBag(ps) && WellOrdered(trace, ps) && Eager(trace, ps)
    && (forall id :: ForceStart(id) in trace <==> id in IdSet(forced))
    && (forall p :: p in ps && p.id !in IdSet(forced) ==> Ready(p.id) in trace)
    && (forced == [] <==> Acyclic(Waits(ps))) && Trapped(Waits(ps), IdSet(forced))
  }

  ghost predicate LoopInv(
    ps: seq<Plugin>, queue: seq<Plugin>, healthy: set<Id>, trace: seq<Event>, rank: map<Id, nat>, now: nat)
  {
    BootInv(ps, queue, healthy, trace, rank, now) && EagerInv(ps, queue, healthy, trace)
  }

  lemma PassKeepsLoop(ps: seq<Plugin>, queue: seq<Plugin>, a: Pass, rank: map<Id, nat>, now: nat)
      returns (rank': map<Id, nat>)
    requires DistinctIds(ps) && a.batch == a.deferred == a.metas == []
    requires LoopInv(ps, queue, a.healthy, a.trace, rank, now)
    ensures var b := ClassifyAll(queue, a, ps);
      var trace := AwaitEach(b.batch, StartEach(b.batch, b.trace));
      && LoopInv(ps, b.deferred, b.healthy + IdSet(b.batch), trace, rank', now + 2)
      && |queue| == |b.batch| + |b.deferred| + |b.metas|
      && (b.batch == b.metas == [] ==>
            && b.healthy + IdSet(b.batch) == a.healthy
            && forall x :: x in b.deferred ==> !x.IsMetadataOnly() && !DepsReady(x, ps, a.healthy))
  {
    PassKeepsEager(ps, queue, a);
    rank' := PassKeeps(ps, queue, a, rank, now);
  }

  // Ends the run of a queue on which a pass made no progress.
  lemma ForceEnds(ps: seq<Plugin>, queue: seq<Plugin>, healthy: set<Id>, trace: seq<Event>, rank: map<Id, nat>,
      now: nat)
    requires LoopInv(ps, queue, healthy, trace, rank, now) && DistinctIds(ps) && queue != []
    requires forall x :: x in queue ==> !x.IsMetadataOnly() && !DepsReady(x, ps, healthy)
    ensures Booted(ps, ForceEach(queue, trace), queue)
  {
    ForceKeeps(ps, queue, healthy, trace, rank, now);
    ForceEachIs(queue, trace);
    EagerGrows(trace, ForceEach(queue, trace), ps);
  }

  lemma LoopEnds(ps: seq<Plugin>, healthy: set<Id>, trace: seq<Event>, rank: map<Id, nat>, now: nat)
    requires LoopInv(ps, [], healthy, trace, rank, now)
    ensures Booted(ps, trace, [])
  {
    AllReadyIsAcyclic(ps, healthy, rank, now);
  }

  // The boot loop.
  method StartAll(ps: seq<Plugin>) returns (trace: seq<Event>, passes: nat, forced: seq<Plugin>)
    requires DistinctIds(ps)
    ensures Booted(ps, trace, forced) && passes <= |ps|
  {
    var providers := CollectProviders(ps);
    var queue, healthy := ps, {};
    trace, passes, forced := [], 0, [];
    ghost var rank: map<Id, nat> := map[];
    while |queue| > 0
      invariant LoopInv(ps, queue, healthy, trace, rank, 2 * passes)
      invariant passes + |queue| <= |ps|
      decreases |queue|
    {
      ghost var before := healthy;
      rank := PassKeepsLoop(ps, queue, Pass([], [], [], healthy, trace), rank, 2 * passes);
      var batch, deferred, metas, healthy1, trace1 := SplitQueue(queue, providers, healthy, trace, ps);
      var progress := |metas| > 0 || |batch| > 0;
      healthy, trace := RunBatch(batch, healthy1, trace1);
      queue := deferred;
      passes := passes + 1;

      if !progress && |queue| > 0 {
        assert healthy == before;
        ForceEnds(ps, queue, healthy, trace, rank, 2 * passes);
        forced := queue;
        trace := ForceStartAll(queue, trace);
        return;
      }
    }
    LoopEnds(ps, healthy, trace, rank, 2 * passes);
  }

  lemma AllReadyIsAcyclic(ps: seq<Plugin>, healthy: set<Id>, rank: map<Id, nat>, now: nat)
    requires RankOk(ps, healthy, rank, now) && forall x :: x in ps ==> x.id in healthy
    ensures Acyclic(Waits(ps))
  {
    forall a, b | (a, b) in Waits(ps) ensures a in rank && b in rank && rank[b] < rank[a] {
      var p, c := WaitsFrom(ps, a, b);
    }
    RankedIsAcyclic(Waits(ps), rank);
  }

  // Boot as a whole: the rows enabled at boot, one level of their missing
  // dependencies, and the boot loop over them.
  method StartEnabledPlugins(all: seq<Plugin>) returns (trace: seq<Event>, passes: nat, forced: seq<Plugin>)
    requires DistinctIds(all)
    ensures var ps := Resolve(EnabledAtBoot(all), EnabledAtBoot(all), Providers(all));
      Booted(ps, trace, forced) && passes <= |ps|
  {
    var plugins := [];
    for i := 0 to |all|
      invariant plugins == EnabledAtBoot(all[..i])
    {
      assert all[..i + 1][..i] == all[..i];
      if all[i].enabled || all[i].image == "" {
        plugins := plugins + [all[i].(enabled := true)];
      }
    }
    assert all[..|all|] == all;
    EnabledAtBootIs(all);
    ResolvedDependencies(plugins, all);
    plugins := ResolveDependencies(plugins, all);
    trace, passes, forced := StartAll(plugins);
  }

  ghost predicate BootsAs(all: seq<Plugin>, q: Plugin) {
    exists p :: p in all && (p.enabled || p.image == "") && q == p.(enabled := true)
  }

  lemma {:induction false} EnabledAtBootIs(all: seq<Plugin>)
    requires DistinctIds(all)
    ensures DistinctIds(EnabledAtBoot(all))
    ensures forall q :: q in EnabledAtBoot(all) <==> BootsAs(all, q)
  {
    if all != [] {
      var init, p := all[..|all| - 1], all[|all| - 1];
      EnabledAtBootIs(init);
      assert all == init + [p];
      var r := EnabledAtBoot(init);
      forall i | 0 <= i < |r| ensures r[i].id != p.id {
        assert r[i] in r;
        var x :| x in init && r[i] == x.(enabled := true);
      }
    }
  }

  // The boot query means to pick up plugins that are metadata only.  It looks
  // at the image column alone, so it also enables a plugin that nobody enabled
  // exactly when that plugin has its images in explicit container specs.
  lemma AutoEnableLooksAtImageOnly(all: seq<Plugin>, p: Plugin)
    requires DistinctIds(all) && p in all && !p.enabled
    ensures (p.(enabled := true) in EnabledAtBoot(all) <==> p.IsMetadataOnly())
      <==> !(p.image == "" && exists c :: c in p.containerImages && c != "")
  {
    EnabledAtBootIs(all);
    if p.(enabled := true) in EnabledAtBoot(all) {
      var q :| q in all && (q.enabled || q.image == "") && p.(enabled := true) == q.(enabled := true);
      assert q == p;
    }
  }

  ghost predicate KnownDepsIn(p: Plugin, prov: map<Capability, Plugin>, ids: set<Id>) {
    forall c :: c in p.dependencies && c in prov ==> prov[c].id in ids
  }

  // The ids of the plugins enabled and of the providers they depend on.
  ghost predicate FirstLevel(plugins: seq<Plugin>, prov: map<Capability, Plugin>, id: Id) {
    id in IdSet(plugins) || exists q :: Needed(plugins, prov, q) && q.id == id
  }

  // What the providers depend on is enabled, or such a provider itself.
  ghost predicate ProvidersGetBy(plugins: seq<Plugin>, prov: map<Capability, Plugin>) {
    forall q, c :: Needed(plugins, prov, q) && c in q.dependencies && c in prov ==>
      FirstLevel(plugins, prov, prov[c].id)
  }

  lemma ResolvedIds(plugins: seq<Plugin>, all: seq<Plugin>, id: Id)
    requires DistinctIds(plugins)
    ensures id in IdSet(Resolve(plugins, plugins, Providers(all))) <==> FirstLevel(plugins, Providers(all), id)
  {
    ResolvedDependencies(plugins, all);
    var r := Resolve(plugins, plugins, Providers(all));
    if x :| x in plugins && x.id == id {
      assert x in r;
    }
    if q :| Needed(plugins, Providers(all), q) && q.id == id {
      var p, c :| p in plugins && c in p.dependencies && c in Providers(all) && Providers(all)[c] == q;
      assert Providers(all)[c].id in IdSet(r);
    }
  }

  // Expansion is one level deep.  The list to boot holds the current provider
  // of every known dependency of its members exactly if the providers that the
  // enabled plugins depend on get by, for their own dependencies, with enabled
  // plugins and each other.
  lemma ExpansionIsOneLevel(all: seq<Plugin>)
    requires DistinctIds(all)
    ensures var plugins, prov := EnabledAtBoot(all), Providers(all);
      var r := Resolve(plugins, plugins, prov);
      (forall p :: p in r ==> KnownDepsIn(p, prov, IdSet(r)))
      <==> ProvidersGetBy(plugins, prov)
  {
    var plugins, prov := EnabledAtBoot(all), Providers(all);
    var r := Resolve(plugins, plugins, prov);
    EnabledAtBootIs(all);
    ResolvedDependencies(plugins, all);
    ProvidersAre(all);
    if forall p :: p in r ==> KnownDepsIn(p, prov, IdSet(r)) {
      forall q, c | Needed(plugins, prov, q) && c in q.dependencies && c in prov
        ensures FirstLevel(plugins, prov, prov[c].id)
      {
        ResolvedIds(plugins, all, q.id);
        var p := MemberLike(all, q);
        assert KnownDepsIn(p, prov, IdSet(r));
        ResolvedIds(plugins, all, prov[c].id);
      }
    }
    if ProvidersGetBy(plugins, prov) {
      forall p, c | p in r && c in p.dependencies && c in prov ensures prov[c].id in IdSet(r) {
        if p !in plugins { ResolvedIds(plugins, all, prov[c].id); }
      }
    }
  }

  // The row a member of the list to boot is, but perhaps for its flag.
  lemma RowOfMember(all: seq<Plugin>, p: Plugin) returns (x: Plugin)
    requires DistinctIds(all) && p in Resolve(EnabledAtBoot(all), EnabledAtBoot(all), Providers(all))
    ensures x in all && p.id == x.id && p.dependencies == x.dependencies
  {
    EnabledAtBootIs(all);
    ResolvedDependencies(EnabledAtBoot(all), all);
    if p in EnabledAtBoot(all) {
      x :| x in all && p == x.(enabled := true);
    } else {
      x := p;
    }
  }

  lemma MemberLike(all: seq<Plugin>, q: Plugin) returns (p: Plugin)
    requires DistinctIds(all) && Needed(EnabledAtBoot(all), Providers(all), q)
    ensures p in Resolve(EnabledAtBoot(all), EnabledAtBoot(all), Providers(all))
    ensures p.id == q.id && p.dependencies == q.dependencies
  {
    EnabledAtBootIs(all);
    ProvidersAre(all);
    ResolvedIds(EnabledAtBoot(all), all, q.id);
    p :| p in Resolve(EnabledAtBoot(all), EnabledAtBoot(all), Providers(all)) && p.id == q.id;
    var x := RowOfMember(all, p);
    SameRow(all, x, q);
  }

  lemma SameRow(all: seq<Plugin>, x: Plugin, q: Plugin)
    requires DistinctIds(all) && x in all && q in all && x.id == q.id
    ensures x == q
  {}

  // A table for which it does not: b is pulled in for a, but c, which b
  // depends on, is not, and b's dependency is unknown to the boot loop.
  lemma ExpansionCanFallShort()
    ensures exists all: seq<Plugin>, p, q, c ::
      && DistinctIds(all) && p in Resolve(EnabledAtBoot(all), EnabledAtBoot(all), Providers(all))
      && c in p.dependencies && q in all && c in q.capabilities
      && c !in Providers(Resolve(EnabledAtBoot(all), EnabledAtBoot(all), Providers(all)))
  {
    var pa := Plugin("a", "img", [], true, [], ["cap:b"]);
    var pb := Plugin("b", "img", [], false, ["cap:b"], ["cap:c"]);
    var pc := Plugin("c", "img", [], false, ["cap:c"], []);
    var all := [pa, pb, pc];
    assert all[..2] == [pa, pb] && all[..2][..1] == [pa] && [pa][..0] == [];
    assert EnabledAtBoot([pa]) == [pa];
    assert EnabledAtBoot([pa, pb]) == [pa];
    assert EnabledAtBoot(all) == [pa];
    var prov := Providers(all);
    assert Provide(map[], ["cap:b"], pb) == map["cap:b" := pb] by { assert ["cap:b"][..0] == []; }
    assert Providers([pa]) == map[];
    assert Providers([pa, pb]) == map["cap:b" := pb];
    assert Provide(map["cap:b" := pb], ["cap:c"], pc) ==
        map["cap:b" := pb, "cap:c" := pc] by { assert ["cap:c"][..0] == []; }
    assert prov == map["cap:b" := pb, "cap:c" := pc];
    assert AddProviders([pa], ["cap:b"], prov) == [pa, pb] by { assert ["cap:b"][..0] == []; }
    assert Resolve([pa], [pa], prov) == [pa, pb];
    assert "cap:c" !in Providers([pa, pb]);
    assert pb in Resolve(EnabledAtBoot(all), EnabledAtBoot(all), prov);
    assert "cap:c" in pb.dependencies && pc in all && "cap:c" in pc.capabilities;
  }
}
