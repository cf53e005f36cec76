// The kernel's handlers and the candidate monitor over the whole plugin table,
// each proved to make exactly its transition of CandidateModel on the plugin it
// is about and to leave every other plugin alone.  A handler, and the monitor's
// treatment of one row, is one atomic step.
module Kernel {
  import opened Wrappers
  import M = CandidateModel
  import T = TableRuns

  type PluginId = T.PluginId

  datatype Reply = NotFound | Reply(response: M.Response)

  // What the container runtime was asked to do for a plugin, and what the
  // monitor found when it checked the plugin's candidate.
  datatype History = History(started: set<M.ContainerId>, stopped: set<M.ContainerId>, checks: seq<M.Outcome>)

  function StateOf(row: M.Row, count: nat, hasRuntime: bool, h: History): M.State {
    M.State(row, count, hasRuntime, h.started, h.stopped, h.checks)
  }

  class Kernel {
    const hasRuntime: bool
    var rows: map<PluginId, M.Row>
    var candidateUnhealthyCounts: map<PluginId, nat>
    ghost var history: map<PluginId, History>

    ghost predicate Valid()
      reads this
    {
      history.Keys == rows.Keys
    }

    function CountOf(id: PluginId): nat
      reads this`candidateUnhealthyCounts
    {
      if id in candidateUnhealthyCounts then candidateUnhealthyCounts[id] else 0
    }

    ghost function At(id: PluginId): M.State
      requires Valid() && id in rows
      reads this
    {
      StateOf(rows[id], CountOf(id), hasRuntime, history[id])
    }

    ghost function Table(): T.Table
      requires Valid()
      reads this
    {
      map id | id in rows :: At(id)
    }

    // Plugin id, and nothing else in the kernel, is now in state s.
    twostate predicate Became(id: PluginId, s: M.State)
      reads this
    {
      && rows == old(rows)[id := s.row]
      && history == old(history)[id := History(s.started, s.stopped, s.checks)]
      && s.hasRuntime == hasRuntime && CountOf(id) == s.unhealthy
      && forall x :: x != id ==> CountOf(x) == old(CountOf(x))
    }

    twostate predicate Same()
      reads this
    {
      rows == old(rows) && history == old(history) && candidateUnhealthyCounts == old(candidateUnhealthyCounts)
    }

    // What a handler does is a step of the whole table.
    twostate lemma BecameIsTableStep(id: PluginId, e: M.Event)
      requires old(Valid()) && Valid() && id in old(rows) && Became(id, M.Step(old(At(id)), e))
      ensures Table() == T.TableStep(old(Table()), T.On(id, e))
    {
    }

    // And so is a pass of the monitor.
    twostate lemma PassIsTableStep(now: M.Time)
      requires old(Valid()) && Valid() && rows.Keys == old(rows.Keys)
      requires forall id :: id in rows ==> At(id) == M.CheckStep(old(At(id)), now)
      ensures Table() == T.TableStep(old(Table()), T.CheckAll(now))
    {
      T.PassOverAll(old(Table()), Table(), now);
    }

    method StopPlugin(id: PluginId, container: M.ContainerId)
      requires id in history && container != ""
      modifies this`history
      ensures history == old(history)[id := old(history)[id].(stopped := old(history)[id].stopped + {container})]
    {
      history := history[id := history[id].(stopped := history[id].stopped + {container})];
    }

    method StartPlugin(id: PluginId, container: M.ContainerId)
      requires id in history
      modifies this`history
      ensures history == old(history)[id := old(history)[id].(started := old(history)[id].started + {container})]
    {
      history := history[id := history[id].(started := history[id].started + {container})];
    }

    method DeployCandidate(id: PluginId, image: string, start: Option<M.ContainerId>, now: M.Time)
        returns (reply: Reply)
      requires Valid()
      modifies this`rows, this`history
      ensures Valid()
      ensures id !in old(rows) ==> Same() && reply == if hasRuntime then NotFound else Reply(M.Unavailable)
      ensures id in old(rows) ==>
        var (s, response) := M.DeployStep(old(At(id)), image, start, now);
        Became(id, s) && reply == Reply(response)
    {
      if !hasRuntime { return Reply(M.Unavailable); }
      if id !in rows { return NotFound; }
      var plugin := rows[id];
      if plugin.IsMetadataOnly() { return Reply(M.BadRequest); }
      if plugin.candidateContainerId != "" { return Reply(M.Conflict); }
      var candidateImage := image;
      if candidateImage == "" {
        candidateImage := plugin.image;
      }
      if start.None? { return Reply(M.Failed); }
      StartPlugin(id, start.value);
      rows := rows[id := plugin.(candidateContainerId := start.value, candidateImage := candidateImage,
                                 candidateVersion := "", candidateHost := "", candidatePort := 0,
                                 candidateHealthy := false, candidateDeployedAt := now, candidateLastSeen := 0)];
      return Reply(M.Ok);
    }

    method PromoteCandidate(id: PluginId, now: M.Time) returns (reply: Reply)
      requires Valid()
      modifies this`rows, this`history
      ensures Valid()
      ensures id !in old(rows) ==> Same() && reply == NotFound
      ensures id in old(rows) ==>
        var (s, response) := M.PromoteStep(old(At(id)), now);
        Became(id, s) && reply == Reply(response)
    {
      if id !in rows { return NotFound; }
      var plugin := rows[id];
      if plugin.candidateContainerId == "" { return Reply(M.BadRequest); }
      if plugin.candidateHost == "" { return Reply(M.BadRequest); }
      if hasRuntime && plugin.containerId != "" {
        StopPlugin(id, plugin.containerId);
      }
      rows := rows[id := plugin.ClearCandidate().(
        previousImage := plugin.image, previousVersion := plugin.version,
        containerId := plugin.candidateContainerId, image := plugin.candidateImage, version := plugin.candidateVersion,
        host := plugin.candidateHost, httpPort := plugin.candidatePort, status := "running", lastSeen := now)];
      return Reply(M.Ok);
    }

    method RollbackCandidate(id: PluginId, start: Option<M.ContainerId>) returns (reply: Reply)
      requires Valid()
      modifies this`rows, this`history
      ensures Valid()
      ensures id !in old(rows) ==> Same() && reply == NotFound
      ensures id in old(rows) ==>
        var (s, response) := M.RollbackStep(old(At(id)), start);
        Became(id, s) && reply == Reply(response)
    {
      if id !in rows { return NotFound; }
      var plugin := rows[id];
      if plugin.candidateContainerId == "" && plugin.previousImage == "" { return Reply(M.BadRequest); }
      if plugin.candidateContainerId != "" && plugin.previousImage == "" {
        if hasRuntime {
          StopPlugin(id, plugin.candidateContainerId);
        }
        rows := rows[id := plugin.ClearCandidate()];
        return Reply(M.Ok);
      }
      if !hasRuntime { return Reply(M.Unavailable); }
      reply := RestorePrevious(id, start);
    }

    // The part of a rollback that undoes a promotion.
    method RestorePrevious(id: PluginId, start: Option<M.ContainerId>) returns (reply: Reply)
      requires Valid() && hasRuntime && id in rows && rows[id].previousImage != ""
      modifies this`rows, this`history
      ensures Valid()
      ensures var (s, response) := M.RollbackStep(old(At(id)), start);
        Became(id, s) && reply == Reply(response)
    {
      var plugin := rows[id];
      StopBoth(id);
      if start.None? {
        rows := rows[id := plugin.(containerId := "", status := "error")];
        return Reply(M.Failed);
      }
      StartPlugin(id, start.value);
      rows := rows[id := plugin.ClearCandidate().(
        containerId := start.value, image := plugin.previousImage, version := plugin.previousVersion,
        status := "running", host := "", lastSeen := 0, previousImage := "", previousVersion := "")];
      return Reply(M.Ok);
    }

    // Stops the containers in both slots.
    method StopBoth(id: PluginId)
      requires Valid() && id in rows
      modifies this`history
      ensures Valid()
      ensures var s := M.Stop(M.Stop(old(At(id)), rows[id].containerId), rows[id].candidateContainerId);
        history == old(history)[id := History(s.started, s.stopped, s.checks)]
    {
      if rows[id].containerId != "" {
        StopPlugin(id, rows[id].containerId);
      }
      if rows[id].candidateContainerId != "" {
        StopPlugin(id, rows[id].candidateContainerId);
      }
    }

    method SelfRegister(id: PluginId, candidate: bool, host: string, port: int, version: string, now: M.Time)
        returns (reply: Reply)
      requires Valid()
      modifies this`rows
      ensures Valid()
      ensures reply == if host == "" then Reply(M.BadRequest) else if id in old(rows) then Reply(M.Ok) else NotFound
      ensures host == "" || id !in old(rows) ==> Same()
      ensures host != "" && id in old(rows) ==>
        Became(id, if candidate then M.RegisterCandidateStep(old(At(id)), host, port, version, now)
                   else M.RegisterPrimaryStep(old(At(id)), host, port, version, now))
    {
      if host == "" { return Reply(M.BadRequest); }
      if id !in rows { return NotFound; }
      var plugin := rows[id];
      if candidate {
        plugin := plugin.(candidateHost := host, candidatePort := port, candidateHealthy := true,
            candidateLastSeen := now);
        if version != "" {
          plugin := plugin.(candidateVersion := version);
        }
      } else {
        plugin := plugin.(host := host, httpPort := port, status := "running", lastSeen := now);
        if version != "" {
          plugin := plugin.(version := version);
        }
      }
      rows := rows[id := plugin];
      return Reply(M.Ok);
    }

    // The reply also tells a plugin without an address to register again.
    method Heartbeat(id: PluginId, candidate: bool, now: M.Time) returns (reply: Reply, reRegister: bool)
      requires Valid()
      modifies this`rows
      ensures Valid()
      ensures reply == if id in old(rows) then Reply(M.Ok) else NotFound
      ensures if id in old(rows) then Became(id, M.HeartbeatStep(old(At(id)), candidate, now)) else Same()
      ensures reRegister <==> id in rows && (rows[id].host == "" || rows[id].httpPort == 0)
    {
      if id !in rows { return NotFound, false; }
      if candidate {
        rows := rows[id := rows[id].(candidateLastSeen := now, candidateHealthy := true)];
      } else {
        rows := rows[id := rows[id].(lastSeen := now, status := "running")];
      }
      return Reply(M.Ok), rows[id].host == "" || rows[id].httpPort == 0;
    }

    method Deregister(id: PluginId) returns (reply: Reply)
      requires Valid()
      modifies this`rows
      ensures Valid()
      ensures reply == if id in old(rows) then Reply(M.Ok) else NotFound
      ensures if id in old(rows) then Became(id, M.DeregisterStep(old(At(id)))) else Same()
    {
      if id !in rows { return NotFound; }
      rows := rows[id := rows[id].(status := "stopped", host := "")];
      return Reply(M.Ok);
    }

    method RouteToPlugin(id: PluginId) returns (target: Option<(string, int)>)
      ensures target == if id in rows then rows[id].Route() else None
    {
      if id !in rows { return None; }
      var plugin := rows[id];
      if plugin.status != "running" || plugin.host == "" { return None; }
      return Some((plugin.host, plugin.httpPort));
    }

    method AutoRollbackCandidate(id: PluginId)
      requires Valid() && id in rows
      modifies this`rows, this`history, this`candidateUnhealthyCounts
      ensures Valid() && Became(id, M.AutoRollbackStep(old(At(id))))
    {
      var plugin := rows[id];
      if plugin.candidateContainerId != "" && hasRuntime {
        StopPlugin(id, plugin.candidateContainerId);
      }
      rows := rows[id := plugin.ClearCandidate()];
      candidateUnhealthyCounts := candidateUnhealthyCounts - {id};
    }

    ghost method Note(id: PluginId, outcome: M.Outcome)
      requires id in history
      modifies this`history
      ensures history == old(history)[id := old(history)[id].(checks := old(history)[id].checks + [outcome])]
    {
      history := history[id := history[id].(checks := history[id].checks + [outcome])];
    }

    // The loop body of checkCandidates.
    method CheckOne(id: PluginId, now: M.Time)
      requires Valid() && id in rows && rows[id].candidateHost != ""
      modifies this`rows, this`history, this`candidateUnhealthyCounts
      ensures Valid() && Became(id, M.CheckStep(old(At(id)), now))
    {
      if rows[id].candidateLastSeen == 0 {
        Note(id, M.Unknown);
        return;
      }
      if now - rows[id].candidateLastSeen > M.STALE_TIMEOUT {
        StaleCandidate(id, now);
      } else {
        candidateUnhealthyCounts := candidateUnhealthyCounts[id := 0];
        Note(id, M.Fresh);
      }
    }

    // Its branch for a candidate whose heartbeat is stale.
    method StaleCandidate(id: PluginId, now: M.Time)
      requires Valid() && id in rows && rows[id].candidateHost != "" && rows[id].candidateLastSeen != 0
      requires now - rows[id].candidateLastSeen > M.STALE_TIMEOUT
      modifies this`rows, this`history, this`candidateUnhealthyCounts
      ensures Valid() && Became(id, M.CheckStep(old(At(id)), now))
    {
      MarkStale(id);
      if candidateUnhealthyCounts[id] >= M.ROLLBACK_THRESHOLD {
        RollBackStale(id);
      } else {
        Note(id, M.Stale(false));
      }
    }

    method RollBackStale(id: PluginId)
      requires Valid() && id in rows
      modifies this`rows, this`history, this`candidateUnhealthyCounts
      ensures Valid()
      ensures var s := M.AutoRollbackStep(old(At(id))); Became(id, s.(checks := s.checks + [M.Stale(true)]))
    {
      AutoRollbackCandidate(id);
      Note(id, M.Stale(true));
    }

    method MarkStale(id: PluginId)
      requires Valid() && id in rows
      modifies this`rows, this`candidateUnhealthyCounts
      ensures Valid() && id in candidateUnhealthyCounts
      ensures Became(id, old(At(id)).(row := old(rows)[id].(candidateHealthy := false),
          unhealthy := old(CountOf(id)) + 1))
    {
      if rows[id].candidateHealthy {
        rows := rows[id := rows[id].(candidateHealthy := false)];
      }
      candidateUnhealthyCounts := candidateUnhealthyCounts[id := CountOf(id) + 1];
    }

    // One pass of the monitor: every plugin makes its check step, those without
    // a registered candidate by losing their counter at the end.
    method CheckCandidates(now: M.Time)
      requires Valid()
      modifies this`rows, this`history, this`candidateUnhealthyCounts
      ensures Valid() && rows.Keys == old(rows.Keys)
      ensures forall id :: id in rows ==> At(id) == M.CheckStep(old(At(id)), now)
    {
      var registered := set id | id in rows && rows[id].candidateHost != "";
      CheckRegistered(registered, now);
      ForgetCounters(registered);
    }

    method CheckRegistered(registered: set<PluginId>, now: M.Time)
      requires Valid() && registered <= rows.Keys && forall id :: id in registered ==> rows[id].candidateHost != ""
      modifies this`rows, this`history, this`candidateUnhealthyCounts
      ensures Valid() && rows.Keys == old(rows.Keys)
      ensures forall id :: id in registered ==> At(id) == M.CheckStep(old(At(id)), now)
      ensures forall id :: id in rows && id !in registered ==> At(id) == old(At(id))
    {
      ghost var before := map id | id in rows :: At(id);
      var todo := registered;
      while todo != {}
        invariant Valid() && todo <= registered && rows.Keys == before.Keys
        invariant forall id :: id in before && (id in todo || id !in registered) ==> At(id) == before[id]
        invariant forall id :: id in registered && id !in todo ==> At(id) == M.CheckStep(before[id], now)
        decreases todo
      {
        var id :| id in todo;
        CheckOneOfMany(id, now);
        todo := todo - {id};
      }
    }

    method CheckOneOfMany(id: PluginId, now: M.Time)
      requires Valid() && id in rows && rows[id].candidateHost != ""
      modifies this`rows, this`history, this`candidateUnhealthyCounts
      ensures Valid() && rows.Keys == old(rows.Keys)
      ensures At(id) == M.CheckStep(old(At(id)), now)
      ensures forall x :: x in rows && x != id ==> At(x) == old(At(x))
    {
      CheckOne(id, now);
    }

    // Drops the counters of plugins without a registered candidate.
    method ForgetCounters(registered: set<PluginId>)
      requires Valid() && registered <= rows.Keys
      modifies this`candidateUnhealthyCounts, this`history
      ensures Valid()
      ensures forall id :: id in registered ==> At(id) == old(At(id))
      ensures forall id :: id in rows && id !in registered ==>
        At(id) == old(At(id)).(unhealthy := 0, checks := old(history)[id].checks + [M.Absent])
    {
      var keys := candidateUnhealthyCounts.Keys;
      candidateUnhealthyCounts := map id | id in keys && id in registered :: candidateUnhealthyCounts[id];
      history := map id | id in history :: if id in registered then history[id]
                                           else history[id].(checks := history[id].checks + [M.Absent]);
    }
  }
}
