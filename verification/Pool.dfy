// The pool object itself: every method of pkg/claudecli/pool.go that runs under
// the lock, proved to make exactly its transition of PoolModel.
module Pool {
  import opened Wrappers
  import M = PoolModel

  class Pool {
    const maxSize: nat
    var active: map<M.Conv, M.Entry>
    var sessions: map<M.Conv, M.Sid>
    var hot: seq<M.ProcId>
    var closed: bool

    // The processes the pool has started, and which still have their flag set.
    var procs: seq<M.Sid>
    var alive: set<M.ProcId>

    // The warm-ups in flight.
    var warm: map<nat, M.WarmUp>

    ghost function View(): M.State
      reads this
    {
      M.State(active, sessions, hot, closed, maxSize, procs, alive, warm)
    }

    constructor (poolMax: int)
      ensures View() == M.Init(poolMax)
    {
      active, sessions, hot, closed := map[], map[], [], false;
      procs, alive, warm := [], {}, map[];
      maxSize := if poolMax < M.HOT_SIZE then M.MAX_HOT_SIZE else poolMax;
    }

    method StartWithSession(sid: M.Sid, ok: bool) returns (p: Option<M.ProcId>)
      modifies this`procs, this`alive
      ensures ok ==> p == Some(|old(procs)|) && View() == M.Start(old(View()), sid)
      ensures !ok ==> p == None && View() == old(View())
    {
      if !ok { return None; }
      p := Some(|procs|);
      alive := alive + {|procs|};
      procs := procs + [sid];
    }

    method Kill(p: M.ProcId)
      modifies this`alive
      ensures View() == old(View()).(alive := old(alive) - {p})
    {
      alive := alive - {p};
    }

    method Acquire(c: M.Conv, now: int, startOk: bool, uuid: M.Sid) returns (proc: Option<M.ProcId>, spawnWarmUp: bool)
      modifies this`active, this`sessions, this`hot, this`procs, this`alive
      ensures M.Acquired(View(), proc, spawnWarmUp) == M.AcquireStep(old(View()), c, now, startOk, uuid)
    {
      if c in active {
        if active[c].proc in alive {
          active := active[c := active[c].(lastUsed := now)];
          return Some(active[c].proc), false;
        }
        active := active - {c};
      }
      assert active == old(active) - {c};

      if c in sessions {
        var sid := sessions[c];
        proc := StartWithSession(sid, startOk);
        if proc.None? { return None, false; }
        assert sessions == sessions[c := sid];
        active := active[c := M.Entry(proc.value, sid, now)];
        return proc, false;
      }

      while |hot| > 0
        invariant M.PopHot(hot, alive) == M.PopHot(old(hot), alive)
        invariant View() == old(View()).(active := old(active) - {c}, hot := hot)
        decreases |hot|
      {
        var p := hot[|hot| - 1];
        hot := hot[..|hot| - 1];
        if p in alive {
          var sid := if p < |procs| then procs[p] else "";
          sessions := sessions[c := sid];
          active := active[c := M.Entry(p, sid, now)];
          return Some(p), M.NeedsWarm(hot);
        }
      }

      proc := StartWithSession(uuid, startOk);
      if proc.None? { return None, false; }
      sessions := sessions[c := uuid];
      active := active[c := M.Entry(proc.value, uuid, now)];
      return proc, true;
    }

    method Release(c: M.Conv, now: int)
      modifies this`active
      ensures View() == M.ReleaseStep(old(View()), c, now)
    {
      if c in active {
        active := active[c := active[c].(lastUsed := now)];
      }
    }

    method MarkDead(c: M.Conv)
      modifies this`active, this`sessions, this`alive
      ensures View() == M.MarkDeadStep(old(View()), c)
    {
      if c in active {
        Kill(active[c].proc);
        active := active - {c};
        sessions := sessions - {c};
      }
    }

    // The loops shared by Shutdown and Cycle.
    method KillAll()
      modifies this`active, this`hot, this`alive
      ensures View() == M.KillAll(old(View()))
    {
      var todo := active.Keys;
      while todo != {}
        invariant todo == active.Keys && active == old(active) - (old(active).Keys - todo)
        invariant View() == old(View()).(active := active, alive := alive)
        invariant alive == old(alive) - (set d | d in old(active) && d !in todo :: old(active)[d].proc)
        decreases todo
      {
        var d :| d in todo;
        Kill(active[d].proc);
        active := active - {d};
        todo := todo - {d};
      }
      ghost var afterActive := alive;
      for i := 0 to |hot|
        invariant View() == old(View()).(active := map[], alive := alive)
        invariant alive == afterActive - (set p | p in hot[..i])
      {
        assert hot[..i + 1] == hot[..i] + [hot[i]];
        Kill(hot[i]);
      }
      assert hot[..|hot|] == hot;
      hot := [];
    }

    method Shutdown()
      modifies this`active, this`hot, this`alive, this`closed
      ensures View() == M.ShutdownStep(old(View()))
    {
      if closed { return; }
      closed := true;
      KillAll();
    }

    method Cycle() returns (spawnWarmUp: bool)
      modifies this`active, this`hot, this`alive
      ensures View() == M.CycleStep(old(View()))
      ensures spawnWarmUp == !old(closed)
    {
      if closed { return false; }
      KillAll();
      return true;
    }

    method ReapIdle()
      modifies this`active, this`hot
      ensures View() == M.ReapStep(old(View()))
    {
      var todo := active.Keys;
      while todo != {}
        invariant todo <= active.Keys <= old(active).Keys
        invariant View() == old(View()).(active := active)
        invariant forall d :: d in active ==> active[d] == old(active)[d]
        invariant forall d :: d in old(active) && d !in todo ==> (d in active <==> old(active)[d].proc in alive)
        decreases todo
      {
        var d :| d in todo;
        todo := todo - {d};
        if active[d].proc !in alive {
          active := active - {d};
        }
      }
      var living := [];
      for i := 0 to |hot|
        invariant View() == old(View()).(active := M.ReapStep(old(View())).active)
        invariant living == M.Living(hot[..i], alive)
      {
        assert hot[..i + 1][..i] == hot[..i];
        if hot[i] in alive {
          living := living + [hot[i]];
        }
      }
      assert hot[..|hot|] == hot;
      hot := living;
    }

    // warmUp, first critical section.
    method WarmRead(w: nat)
      requires w !in warm
      modifies this`warm
      ensures View() == M.WarmReadStep(old(View()), w)
    {
      var target := M.HOT_SIZE;
      if target > maxSize {
        target := maxSize;
      }
      var need := target - |hot|;
      if closed || need <= 0 { return; }
      warm := warm[w := M.WarmUp(need, None)];
    }

    // warmUp, outside the lock: start the next process.
    method WarmStart(w: nat, startOk: bool, uuid: M.Sid)
      requires w in warm && warm[w].held.None?
      modifies this`warm, this`procs, this`alive
      ensures View() == M.WarmStartStep(old(View()), w, startOk, uuid)
    {
      var p := StartWithSession(uuid, startOk);
      if p.None? {
        warm := warm - {w};
        return;
      }
      warm := warm[w := warm[w].(held := p)];
    }

    // warmUp, second critical section: append the process or kill it.
    method WarmFinish(w: nat)
      requires w in warm && warm[w].held.Some? && warm[w].left > 0
      modifies this`warm, this`hot, this`alive
      ensures View() == M.WarmFinishStep(old(View()), w)
    {
      var p := warm[w].held.value;
      var left := warm[w].left - 1;
      if closed || |hot| >= maxSize {
        warm := warm - {w};
        Kill(p);
        return;
      }
      hot := hot + [p];
      if left == 0 {
        warm := warm - {w};
      } else {
        warm := warm[w := M.WarmUp(left, None)];
      }
    }
  }
}
