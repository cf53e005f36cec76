// What every run of the pool keeps: each process has one owner, live processes
// carry different sessions, and a conversation keeps its own.
module PoolSafety {
  import opened Wrappers
  import opened PoolModel
  import opened Sequences

  // Two owners of one process are the same owner.
  lemma OwnersAreUnique(s: State, o1: Owner, o2: Owner, p: ProcId)
    requires Inv(s) && Owns(s, o1, p) && Owns(s, o2, p)
    ensures o1 == o2
  {
  }

  // Two processes that are alive never share a session.
  lemma LiveSessionsDiffer(s: State, p: ProcId, q: ProcId)
    requires Inv(s) && p in s.alive && q in s.alive && p != q
    ensures p < |s.procs| && q < |s.procs| && s.procs[p] != s.procs[q]
  {
    assert p in ActiveProcs(s.active) || Spare(s, p);
    assert q in ActiveProcs(s.active) || Spare(s, q);
  }

  // In every reachable state a process has at most one owner, owners agree with
  // the sessions map, and two processes that are alive never share a session.
  lemma OneOwnerPerProcess(poolMax: int, run: seq<Event>)
    requires Legal(Init(poolMax), run)
    ensures var s := Exec(Init(poolMax), run);
      && (forall o1, o2, p :: Owns(s, o1, p) && Owns(s, o2, p) ==> o1 == o2)
      && SessionsOk(s) && ActiveOk(s) && SpareOk(s)
      && (forall p, q :: p in s.alive && q in s.alive && p != q ==> SidOf(s, p) != SidOf(s, q))
  {
    RunKeepsInv(Init(poolMax), run);
    var s := Exec(Init(poolMax), run);
    forall o1, o2, p | Owns(s, o1, p) && Owns(s, o2, p) ensures o1 == o2 {
      OwnersAreUnique(s, o1, o2, p);
    }
    forall p, q | p in s.alive && q in s.alive && p != q ensures SidOf(s, p) != SidOf(s, q) {
      LiveSessionsDiffer(s, p, q);
    }
  }

  // Every live process has an owner, and the hot list respects its limit.
  lemma NoProcessLeaks(poolMax: int, run: seq<Event>)
    requires Legal(Init(poolMax), run)
    ensures var s := Exec(Init(poolMax), run);
      && (forall p :: p in s.alive ==> exists o :: Owns(s, o, p))
      && |s.hot| <= (if poolMax < HOT_SIZE then MAX_HOT_SIZE else poolMax)
  {
    RunKeepsInv(Init(poolMax), run);
    MaxSizeIsFixed(Init(poolMax), run);
    var s := Exec(Init(poolMax), run);
    forall p | p in s.alive ensures exists o :: Owns(s, o, p) {
      if p in ActiveProcs(s.active) {
        var c :| c in s.active && s.active[c].proc == p;
        assert Owns(s, ActiveOf(c), p);
      } else if p in s.hot {
        var i: nat :| i < |s.hot| && s.hot[i] == p;
        assert Owns(s, HotAt(i), p);
      } else {
        var w :| w in s.warm && s.warm[w].held == Some(p);
        assert Owns(s, HeldBy(w), p);
      }
    }
  }

  lemma {:induction false} MaxSizeIsFixed(s: State, run: seq<Event>)
    requires Legal(s, run)
    ensures Exec(s, run).maxSize == s.maxSize
    decreases |run|
  {
    if run != [] { MaxSizeIsFixed(Step(s, run[0]), run[1..]); }
  }

  // Once shut down, the hot list stays empty however the run goes on.
  lemma {:induction false} ShutdownIsForever(s: State, run: seq<Event>)
    requires Inv(s) && s.closed && Legal(s, run)
    ensures Exec(s, run).closed && Exec(s, run).hot == []
    decreases |run|
  {
    RunKeepsInv(s, run);
    if run != [] {
      StepKeepsInv(s, run[0]);
      ShutdownIsForever(Step(s, run[0]), run[1..]);
    }
  }

  // After a shutdown every warm-up in flight kills what it started and ends;
  // the hot list and every other process stay as they were.
  lemma WarmUpAfterShutdown(poolMax: int, before: seq<Event>, after: seq<Event>, w: nat)
    requires Legal(Init(poolMax), before)
    requires var s := ShutdownStep(Exec(Init(poolMax), before));
      Legal(s, after) && Enabled(Exec(s, after), WarmFinish(w))
    ensures var s := Exec(ShutdownStep(Exec(Init(poolMax), before)), after);
      var t := Step(s, WarmFinish(w));
      && t == s.(alive := s.alive - {s.warm[w].held.value}, warm := s.warm - {w})
      && s.hot == [] && t.hot == []
  {
    RunKeepsInv(Init(poolMax), before);
    var s0 := Exec(Init(poolMax), before);
    StepKeepsInv(s0, Shutdown);
    ShutdownIsForever(ShutdownStep(s0), after);
  }

  // ---- conversation continuity ----

  // Acquire hands out, if anything, a process of the session now recorded for c.
  lemma AcquireHandsOutTheSession(s: State, c: Conv, now: int, ok: bool, uuid: Sid)
    requires Inv(s) && uuid !in s.procs
    ensures var a := AcquireStep(s, c, now, ok, uuid);
      && (a.proc.Some? ==>
            && c in a.state.sessions && LiveEntry(a.state, c)
            && a.state.active[c].proc == a.proc.value && SidOf(a.state, a.proc.value) == a.state.sessions[c])
      && (c in s.sessions ==> c in a.state.sessions && a.state.sessions[c] == s.sessions[c])
      && (ok ==> a.proc.Some?)
      && (forall d :: d != c ==> (d in s.sessions <==> d in a.state.sessions))
      && (forall d :: d != c && d in s.sessions ==> s.sessions[d] == a.state.sessions[d])
  {
    PopHotIs(s.hot, s.alive);
  }

  lemma {:induction false} SessionSurvives(s: State, run: seq<Event>, c: Conv)
    requires Inv(s) && Legal(s, run) && c in s.sessions && MarkDead(c) !in run
    ensures c in Exec(s, run).sessions && Exec(s, run).sessions[c] == s.sessions[c]
    decreases |run|
  {
    if run != [] {
      StepKeepsInv(s, run[0]);
      SessionSurvivesStep(s, run[0], c);
      SessionSurvives(Step(s, run[0]), run[1..], c);
    }
  }

  lemma SessionSurvivesStep(s: State, e: Event, c: Conv)
    requires Inv(s) && Enabled(s, e) && c in s.sessions && e != MarkDead(c)
    ensures c in Step(s, e).sessions && Step(s, e).sessions[c] == s.sessions[c]
  {
    if e.Acquire? {
      AcquireHandsOutTheSession(s, e.conv, e.now, e.startOk, e.uuid);
    }
  }

  // Killing every active and hot process leaves only what warm-ups in flight
  // hold, and forgets no session.
  lemma KillAllLeavesWarmUps(s: State, p: ProcId)
    requires Inv(s) && p in s.alive
    ensures p in KillAll(s).alive <==> exists w :: w in s.warm && s.warm[w].held == Some(p)
    ensures KillAll(s).sessions == s.sessions
  {
    assert p in ActiveProcs(s.active) || Spare(s, p);
    if p in ActiveProcs(s.active) {
      var c :| c in s.active && s.active[c].proc == p;
    }
  }

  // Once a conversation has a session, whatever happens short of MarkDead for
  // it - even a cycle or a shutdown - the next successful Acquire resumes it.
  lemma ConversationContinuity(poolMax: int, before: seq<Event>, c: Conv, now: int, ok: bool, uuid: Sid,
                               between: seq<Event>, now': int, ok': bool, uuid': Sid)
    requires Legal(Init(poolMax), before) && uuid !in Exec(Init(poolMax), before).procs
    requires var a := AcquireStep(Exec(Init(poolMax), before), c, now, ok, uuid);
      a.proc.Some? && Legal(a.state, between) && MarkDead(c) !in between && uuid' !in Exec(a.state, between).procs
    ensures var a := AcquireStep(Exec(Init(poolMax), before), c, now, ok, uuid);
      var b := AcquireStep(Exec(a.state, between), c, now', ok', uuid');
      && (b.proc.Some? ==> SidOf(b.state, b.proc.value) == SidOf(a.state, a.proc.value))
      && (ok' ==> b.proc.Some?)
  {
    RunKeepsInv(Init(poolMax), before);
    var s := Exec(Init(poolMax), before);
    AcquireKeepsInv(s, c, now, ok, uuid);
    AcquireHandsOutTheSession(s, c, now, ok, uuid);
    var t := AcquireStep(s, c, now, ok, uuid).state;
    SessionSurvives(t, between, c);
    RunKeepsInv(t, between);
    AcquireHandsOutTheSession(Exec(t, between), c, now', ok', uuid');
  }

  // MarkDead is there to make the next Acquire start afresh.  It does so
  // exactly if the conversation still has its active entry: when the reaper or
  // a cycle has removed the entry, the old session is resumed.
  lemma MarkDeadDropsTheSession(s: State, c: Conv, now: int, ok: bool, uuid: Sid)
    requires Inv(s) && uuid !in s.procs
    ensures var t := MarkDeadStep(s, c);
      var a := AcquireStep(t, c, now, ok, uuid);
      && (c in s.active ==> s.active[c].proc !in t.alive)
      && (ok ==> a.proc.Some?)
      && (a.proc.Some? && c in s.sessions ==>
            (SidOf(a.state, a.proc.value) == s.sessions[c] <==> c !in s.active))
  {
    var t := MarkDeadStep(s, c);
    MarkDeadKeepsInv(s, c);
    AcquireHandsOutTheSession(t, c, now, ok, uuid);
    PopHotIs(t.hot, t.alive);
    if c in s.sessions { assert s.sessions[c] in s.procs; }
  }

  // Its callers mean to discard the session of a process that has died.  They
  // get that, and kill nothing else, exactly if the entry is still that of a
  // dead process.
  lemma MarkDeadDoesWhatIsMeant(s: State, c: Conv)
    requires Inv(s) && c in s.sessions
    ensures var t := MarkDeadStep(s, c);
      && (c !in t.sessions && t.alive == s.alive <==> c in s.active && s.active[c].proc !in s.alive)
      && (t.alive != s.alive <==> LiveEntry(s, c))
      && (t == s <==> c !in s.active)
  {
  }

  // ---- which process Acquire hands out ----

  ghost predicate NoLiveHot(s: State) {
    forall p :: p in s.hot ==> p !in s.alive
  }

  // Acquire starts a process only when it must: not for a conversation whose
  // process lives, nor for a new one while a hot process does.  What it hands out
  // otherwise was alive and is the conversation's own, or the last hot one alive.
  lemma AcquireStartsOnlyWhenItMust(s: State, c: Conv, now: int, ok: bool, uuid: Sid)
    requires Inv(s)
    ensures var a := AcquireStep(s, c, now, ok, uuid);
      && (a.proc == Some(|s.procs|) <==> ok && !LiveEntry(s, c) && (c in s.sessions || NoLiveHot(s)))
      && (a.proc.Some? && a.proc.value in s.alive ==>
            && a.state.procs == s.procs && a.state.alive == s.alive
            && if LiveEntry(s, c) then a.proc.value == s.active[c].proc && a.state.hot == s.hot
               else |a.state.hot| < |s.hot| && s.hot[|a.state.hot|] == a.proc.value
                    && forall i :: |a.state.hot| < i < |s.hot| ==> s.hot[i] !in s.alive)
      && (a.proc == Some(|s.procs|) || a.proc.None? || a.proc.value in s.alive)
  {
    PopHotIs(s.hot, s.alive);
    AliveWereStarted(s);
  }

  lemma AliveWereStarted(s: State)
    requires Inv(s)
    ensures forall p :: p in s.alive ==> p < |s.procs|
  {
    forall p | p in s.alive ensures p < |s.procs| {
      assert p in ActiveProcs(s.active) || Spare(s, p);
    }
  }

  // It leaves every other conversation alone.
  lemma AcquireLeavesOthersAlone(s: State, c: Conv, now: int, ok: bool, uuid: Sid)
    ensures var a := AcquireStep(s, c, now, ok, uuid);
      && (forall d :: d != c ==> (d in a.state.active <==> d in s.active))
      && (forall d :: d != c && d in s.active ==> a.state.active[d] == s.active[d])
  {
    PopHotIs(s.hot, s.alive);
  }

  // It kills nothing, and takes nothing from a warm-up.
  lemma AcquireKillsNothing(s: State, c: Conv, now: int, ok: bool, uuid: Sid)
    ensures var t := AcquireStep(s, c, now, ok, uuid).state;
      s.alive <= t.alive && s.procs <= t.procs && t.hot <= s.hot && t.warm == s.warm && t.closed == s.closed
  {
    PopHotIs(s.hot, s.alive);
  }

  // It asks for a warm-up exactly when it has given a process to a new
  // conversation and left at most one in the hot list.
  lemma AcquireAsksForWarmUp(s: State, c: Conv, now: int, ok: bool, uuid: Sid)
    requires ActiveOk(s)
    ensures var a := AcquireStep(s, c, now, ok, uuid);
      a.spawnWarmUp <==> c !in s.sessions && a.proc.Some? && |a.state.hot| <= 1
  {
    PopHotIs(s.hot, s.alive);
  }

  // ---- what the operations are for ----

  // Shutdown and Cycle on an open pool, at any moment of a run: no process is
  // left but those held by warm-ups in flight, no session is forgotten, and no
  // warm-up is interrupted.  On a closed pool they do nothing.
  lemma StopsEverything(s: State, e: Event)
    requires Inv(s) && (e.Shutdown? || e.Cycle?)
    ensures var t := Step(s, e);
      && (s.closed ==> t == s)
      && (!s.closed ==>
            && t.active == map[] && t.hot == [] && t.sessions == s.sessions && t.procs == s.procs && t.warm == s.warm
            && (forall p :: p in t.alive <==> p in s.alive && exists w :: w in s.warm && s.warm[w].held == Some(p))
            && (t.closed <==> e.Shutdown?))
  {
    forall p | p in s.alive
      ensures p in KillAll(s).alive <==> exists w :: w in s.warm && s.warm[w].held == Some(p)
    {
      KillAllLeavesWarmUps(s, p);
    }
  }

  // Started after the n-th process, or with a warm-up in flight.
  predicate NewOrHeld(p: ProcId, n: nat, held: set<ProcId>) {
    p >= n || p in held
  }

  ghost predicate AllNew(s: State, n: nat, held: set<ProcId>) {
    && |s.procs| >= n
    && (forall c :: c in s.active ==> NewOrHeld(s.active[c].proc, n, held))
    && (forall p :: p in s.hot ==> NewOrHeld(p, n, held))
    && (forall w :: w in s.warm && s.warm[w].held.Some? ==> NewOrHeld(s.warm[w].held.value, n, held))
  }

  lemma StepKeepsNew(s: State, e: Event, n: nat, held: set<ProcId>)
    requires Enabled(s, e) && AllNew(s, n, held)
    ensures AllNew(Step(s, e), n, held)
  {
    match e
    case Acquire(c, now, ok, uuid) => AcquireKeepsNew(s, c, now, ok, uuid, n, held);
    case ReapIdle => LivingIs(s.hot, s.alive);
    case _ =>
  }

  lemma AcquireKeepsNew(s: State, c: Conv, now: int, ok: bool, uuid: Sid, n: nat, held: set<ProcId>)
    requires AllNew(s, n, held)
    ensures AllNew(AcquireStep(s, c, now, ok, uuid).state, n, held)
  {
    PopHotIs(s.hot, s.alive);
  }

  lemma {:induction false} RunKeepsNew(s: State, run: seq<Event>, n: nat, held: set<ProcId>)
    requires Legal(s, run) && AllNew(s, n, held)
    ensures AllNew(Exec(s, run), n, held)
    decreases |run|
  {
    if run != [] {
      StepKeepsNew(s, run[0], n, held);
      RunKeepsNew(Step(s, run[0]), run[1..], n, held);
    }
  }

  function HeldProcs(warm: map<nat, WarmUp>): set<ProcId> {
    set w | w in warm && warm[w].held.Some? :: warm[w].held.value
  }

  // What Cycle is for: however a run goes on after it, a process handed out was
  // started after the cycle - with the configuration of that time - or was in
  // the hands of a warm-up when it happened.
  lemma CycleRenews(s: State, run: seq<Event>, c: Conv, now: int, ok: bool, uuid: Sid)
    requires Inv(s) && !s.closed && Legal(Step(s, Cycle), run) && uuid !in Exec(Step(s, Cycle), run).procs
    ensures var a := AcquireStep(Exec(Step(s, Cycle), run), c, now, ok, uuid);
      a.proc.Some? ==> NewOrHeld(a.proc.value, |s.procs|, HeldProcs(s.warm))
  {
    var t := Step(s, Cycle);
    RunKeepsNew(t, run, |s.procs|, HeldProcs(s.warm));
    var u := Exec(t, run);
    StepKeepsNew(u, Acquire(c, now, ok, uuid), |s.procs|, HeldProcs(s.warm));
    StepKeepsInv(s, Cycle);
    RunKeepsInv(t, run);
    AcquireHandsOutTheSession(u, c, now, ok, uuid);
  }

  lemma {:induction false} PopLiving(hot: seq<ProcId>, alive: set<ProcId>)
    ensures PopHot(Living(hot, alive), alive).1 == PopHot(hot, alive).1
    ensures PopHot(Living(hot, alive), alive).0 == Living(PopHot(hot, alive).0, alive)
  {
    if hot != [] {
      var init, p := hot[..|hot| - 1], hot[|hot| - 1];
      if p in alive {
        var l := Living(hot, alive);
        assert l[..|l| - 1] == Living(init, alive) && l[|l| - 1] == p;
      } else {
        assert Living(hot, alive) == Living(init, alive);
        PopLiving(init, alive);
      }
    }
  }

  // The reaper forgets exactly the dead: the entries left are those that live, as
  // they were, and the hot processes left are those alive.
  lemma ReaperForgetsTheDead(s: State)
    ensures var t := Step(s, ReapIdle);
      && (forall d :: d in t.active <==> LiveEntry(s, d))
      && (forall d :: d in t.active ==> t.active[d] == s.active[d])
      && (forall p :: p in t.hot <==> p in s.hot && p in s.alive)
      && t.(active := s.active, hot := s.hot) == s
  {
    LivingIs(s.hot, s.alive);
  }

  // And nobody notices: an Acquire gets the same process, of the same session,
  // whether or not the reaper has been there before it.
  lemma ReaperIsInvisible(s: State, c: Conv, now: int, ok: bool, uuid: Sid)
    ensures var a, b := AcquireStep(s, c, now, ok, uuid), AcquireStep(Step(s, ReapIdle), c, now, ok, uuid);
      && a.proc == b.proc && a.state.sessions == b.state.sessions
      && a.state.procs == b.state.procs && a.state.alive == b.state.alive
  {
    var t := Step(s, ReapIdle);
    assert LiveEntry(t, c) <==> LiveEntry(s, c);
    if c !in s.sessions && !LiveEntry(s, c) { NewAfterReaping(s, t, c, now, ok, uuid); }
  }

  lemma NewAfterReaping(s: State, t: State, c: Conv, now: int, ok: bool, uuid: Sid)
    requires c !in s.sessions && !LiveEntry(s, c) && !LiveEntry(t, c)
    requires t.sessions == s.sessions && t.procs == s.procs && t.alive == s.alive && t.hot == Living(s.hot, s.alive)
    ensures var a, b := AcquireStep(s, c, now, ok, uuid), AcquireStep(t, c, now, ok, uuid);
      && a.proc == b.proc && a.state.sessions == b.state.sessions
      && a.state.procs == b.state.procs && a.state.alive == b.state.alive
  {
    PopLiving(s.hot, s.alive);
  }

  // Compaction keeps the order.
  lemma {:induction false} LivingJoins(a: seq<ProcId>, b: seq<ProcId>, alive: set<ProcId>)
    ensures Living(a + b, alive) == Living(a, alive) + Living(b, alive)
  {
    if b != [] {
      var init := b[..|b| - 1];
      assert (a + b)[..|a + b| - 1] == a + init;
      LivingJoins(a, init, alive);
      Regroup(Living(a, alive), Living(init, alive), if b[|b| - 1] in alive then [b[|b| - 1]] else []);
    } else {
      assert a + b == a;
    }
  }

  lemma {:induction false} NothingDead(hot: seq<ProcId>, alive: set<ProcId>)
    ensures Living(hot, alive) == hot <==> forall p :: p in hot ==> p in alive
  {
    if hot != [] {
      var init, p := hot[..|hot| - 1], hot[|hot| - 1];
      assert hot == init + [p];
      NothingDead(init, alive);
      LivingIs(init, alive);
    }
  }

  // MarkDead is about its own conversation alone.
  lemma MarkDeadLeavesOthersAlone(s: State, c: Conv, p: ProcId)
    requires Inv(s)
    ensures var t := Step(s, MarkDead(c));
      && t.active == s.active - {c} && t.hot == s.hot && t.warm == s.warm && t.procs == s.procs
      && t.sessions - {c} == s.sessions - {c}
      && (p in s.alive && p !in t.alive <==> p in s.alive && c in s.active && s.active[c].proc == p)
  {
    assert c !in s.active ==> s.active - {c} == s.active;
  }

  // ---- when an entry was last used ----

  // The time of the last Acquire or Release of conversation c.
  function LastUse(run: seq<Event>, c: Conv): Option<int> {
    if run == [] then None
    else if LastUse(run[1..], c).Some? then LastUse(run[1..], c)
    else match run[0]
      case Acquire(d, now, _, _) => if d == c then Some(now) else None
      case Release(d, now) => if d == c then Some(now) else None
      case _ => None
  }

  lemma StepUses(s: State, e: Event, c: Conv)
    requires Enabled(s, e) && c in Step(s, e).active
    ensures LastUse([e], c).Some? ==> Step(s, e).active[c].lastUsed == LastUse([e], c).value
    ensures LastUse([e], c).None? ==> c in s.active && Step(s, e).active[c] == s.active[c]
  {
    assert [e][1..] == [];
    if e.Acquire? { AcquireUses(s, e, c); }
  }

  lemma AcquireUses(s: State, e: Event, c: Conv)
    requires e.Acquire?
    ensures var t := AcquireStep(s, e.conv, e.now, e.startOk, e.uuid).state;
      && (c == e.conv && c in t.active ==> t.active[c].lastUsed == e.now)
      && (c != e.conv && c in t.active ==> c in s.active && t.active[c] == s.active[c])
  {
  }

  // An entry there is bears the time of its last Acquire or Release.
  lemma {:induction false} LastUsedIs(s: State, run: seq<Event>, c: Conv)
    requires Legal(s, run) && c in Exec(s, run).active
    ensures var e := Exec(s, run).active[c];
      if LastUse(run, c).Some? then e.lastUsed == LastUse(run, c).value
      else c in s.active && e.lastUsed == s.active[c].lastUsed
    decreases |run|
  {
    if run != [] {
      var t := Step(s, run[0]);
      LastUsedIs(t, run[1..], c);
      assert [run[0]][1..] == [];
      if c in t.active { StepUses(s, run[0], c); }
    }
  }
}
