// Runs of the whole plugin table: events of any plugin in any order, and
// passes of the candidate monitor over all of them.
module TableRuns {
  import opened CandidateModel

  type PluginId = string
  type Table = map<PluginId, State>

  datatype TableEvent = On(id: PluginId, event: Event) | CheckAll(now: Time)

  function TableStep(t: Table, e: TableEvent): Table {
    match e
    case On(id, event) => if id in t then t[id := Step(t[id], event)] else t
    case CheckAll(now) => map id | id in t :: Step(t[id], Check(now))
  }

  lemma PassOverAll(t: Table, u: Table, now: Time)
    requires u.Keys == t.Keys && forall id :: id in t ==> u[id] == CheckStep(t[id], now)
    ensures u == TableStep(t, CheckAll(now))
  {
    forall id | id in t ensures u[id] == Step(t[id], Check(now)) {
      CheckIsStep(t[id], now);
    }
  }

  lemma CheckIsStep(s: State, now: Time)
    ensures Step(s, Check(now)) == CheckStep(s, now)
  {}

  function TableExec(t: Table, run: seq<TableEvent>): Table
    decreases |run|
  {
    if run == [] then t else TableExec(TableStep(t, run[0]), run[1..])
  }

  // What happens to one plugin.
  function Project(run: seq<TableEvent>, id: PluginId): seq<Event> {
    if run == [] then []
    else
      match run[0]
      case CheckAll(now) => [Check(now)] + Project(run[1..], id)
      case On(x, event) => if x == id then [event] + Project(run[1..], id) else Project(run[1..], id)
  }

  // Each plugin runs by itself: its state is that of its own events, whatever
  // happens to the others in between.
  lemma {:induction false} TableRunsApart(t: Table, run: seq<TableEvent>, id: PluginId)
    ensures TableExec(t, run).Keys == t.Keys
    ensures id in t ==> TableExec(t, run)[id] == Exec(t[id], Project(run, id))
    decreases |run|
  {
    if run != [] {
      var u := TableStep(t, run[0]);
      TableRunsApart(u, run[1..], id);
      if id in t { ProjectedStep(t, run, id); }
    }
  }

  lemma ProjectedStep(t: Table, run: seq<TableEvent>, id: PluginId)
    requires run != [] && id in t
    ensures Exec(t[id], Project(run, id)) == Exec(TableStep(t, run[0])[id], Project(run[1..], id))
  {
    var rest := Project(run[1..], id);
    match run[0]
    case CheckAll(now) => ExecFirst(t[id], Check(now), rest);
    case On(_, event) => ExecFirst(t[id], event, rest);
  }

  lemma ExecFirst(s: State, e: Event, rest: seq<Event>)
    ensures Exec(s, [e] + rest) == Exec(Step(s, e), rest)
  {
    assert ([e] + rest)[1..] == rest;
  }

  // ---- noninterference ----

  predicate CandidateTableEvent(e: TableEvent) {
    e.CheckAll? || CandidateEvent(e.event)
  }

  function EraseAll(run: seq<TableEvent>): seq<TableEvent> {
    if run == [] then []
    else (if CandidateTableEvent(run[0]) then [] else [run[0]]) + EraseAll(run[1..])
  }

  lemma {:induction false} ErasedProjection(run: seq<TableEvent>, id: PluginId)
    ensures Project(EraseAll(run), id) == Erase(Project(run, id))
  {
    if run != [] {
      var e, rest, erased := run[0], Project(run[1..], id), EraseAll(run[1..]);
      ErasedProjection(run[1..], id);
      if CandidateTableEvent(e) {
        assert EraseAll(run) == erased;
      } else {
        assert EraseAll(run)[0] == e && EraseAll(run)[1..] == erased;
      }
      if e.CheckAll? {
        assert ([Check(e.now)] + rest)[1..] == rest;
      } else if e.id == id {
        assert ([e.event] + rest)[1..] == rest;
      }
    }
  }

  // Where the requests for every plugin go.
  ghost predicate SameRoutes(a: Table, b: Table) {
    a.Keys == b.Keys && forall id :: id in a ==> a[id].row.Route() == b[id].row.Route()
  }

  // As long as nothing reaches a plugin in service, erasing everything about
  // every candidate, the passes of the monitor included, changes no route of
  // any plugin.
  lemma CandidatesDisturbNobody(t: Table, run: seq<TableEvent>)
    requires forall id :: id in t ==> NothingReaches(t[id], Project(run, id))
    ensures SameRoutes(TableExec(t, run), TableExec(t, EraseAll(run)))
  {
    TableRunsApart(t, run, "");
    TableRunsApart(t, EraseAll(run), "");
    forall id | id in t ensures TableExec(t, run)[id].row.Route() == TableExec(t, EraseAll(run))[id].row.Route() {
      TableRunsApart(t, run, id);
      TableRunsApart(t, EraseAll(run), id);
      ErasedProjection(run, id);
      CandidateDoesNotInterfere(t[id], t[id], Project(run, id));
    }
  }

  // ---- containers ----

  function StartOf(e: Event): set<ContainerId> {
    match e
    case Deploy(_, start, _) => if start.Some? then {start.value} else {}
    case Rollback(start) => if start.Some? then {start.value} else {}
    case _ => {}
  }

  // A container that starts is new to the whole table.
  ghost predicate TableEnabled(t: Table, e: TableEvent) {
    match e
    case On(id, event) =>
      id in t ==> Enabled(t[id], event) && forall x :: x in t ==> StartOf(event) !! t[x].started
    case CheckAll(now) => now > 0
  }

  ghost predicate TableLegal(t: Table, run: seq<TableEvent>)
    decreases |run|
  {
    run == [] || (TableEnabled(t, run[0]) && TableLegal(TableStep(t, run[0]), run[1..]))
  }

  ghost predicate TableContainersOk(t: Table) {
    && (forall id :: id in t ==> ContainersOk(t[id]) && t[id].hasRuntime)
    && (forall a, b :: a in t && b in t && a != b ==> t[a].started !! t[b].started)
  }

  lemma StepStarts(s: State, e: Event)
    ensures Step(s, e).started <= s.started + StartOf(e)
  {}

  lemma TableStepKeepsContainers(t: Table, e: TableEvent)
    requires TableContainersOk(t) && TableEnabled(t, e)
    ensures TableContainersOk(TableStep(t, e))
  {
    var u := TableStep(t, e);
    forall id | id in t
      ensures ContainersOk(u[id]) && u[id].hasRuntime
      ensures u[id].started <= t[id].started + if e.On? && e.id == id then StartOf(e.event) else {}
    {
      var event := if e.On? then e.event else Check(e.now);
      if e.CheckAll? || e.id == id {
        StepKeepsContainers(t[id], event);
        StepKeepsSlots(t[id], event);
        StepStarts(t[id], event);
      }
    }
  }

  lemma {:induction false} TableRunKeepsContainers(t: Table, run: seq<TableEvent>)
    requires TableContainersOk(t) && TableLegal(t, run)
    ensures TableContainersOk(TableExec(t, run))
    decreases |run|
  {
    if run != [] {
      TableStepKeepsContainers(t, run[0]);
      TableRunKeepsContainers(TableStep(t, run[0]), run[1..]);
    }
  }

  ghost predicate Names(t: Table, id: PluginId, c: ContainerId) {
    id in t && c in Recorded(t[id].row)
  }

  // In every run of a table with a container runtime: a container started for
  // a plugin is still recorded in its row or was stopped, and none is recorded
  // for two plugins.
  lemma NoContainerIsLostOrShared(t: Table, run: seq<TableEvent>)
    requires TableContainersOk(t) && TableLegal(t, run)
    ensures var u := TableExec(t, run);
      && (forall id, c :: id in u && c in u[id].started ==> Names(u, id, c) || c in u[id].stopped)
      && (forall a, b, c :: Names(u, a, c) && Names(u, b, c) ==> a == b)
  {
    TableRunKeepsContainers(t, run);
    var u := TableExec(t, run);
    forall a, b, c | Names(u, a, c) && Names(u, b, c) ensures a == b {
      assert c in u[a].started && c in u[b].started;
    }
  }
}
