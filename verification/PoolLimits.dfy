// What bounds the hot list of the pool, what is left of it after a shutdown,
// and calls of MarkDead that come too late (pkg/claudecli/pool.go).
module PoolLimits {
  import opened Wrappers
  import opened PoolModel
  import opened PoolSafety

  // ---- late calls of MarkDead ----

  lemma ExecTwo(s: State, d: Event, e: Event, rest: seq<Event>)
    requires Enabled(s, d) && Enabled(Step(s, d), e) && Legal(Step(Step(s, d), e), rest)
    ensures Legal(s, [d, e] + rest) && Exec(s, [d, e] + rest) == Exec(Step(Step(s, d), e), rest)
  {
    ExecCons(Step(s, d), e, rest);
    ExecCons(s, d, [e] + rest);
    assert [d] + ([e] + rest) == [d, e] + rest;
  }

  // The process of a conversation dies, the reaper removes its entry, and the
  // call of MarkDead for it finds nothing: the next Acquire resumes the session.
  lemma ReaperForestallsMarkDead(poolMax: int, c: Conv, now: int, uuid: Sid, later: int, uuid': Sid)
    requires uuid' != uuid
    ensures var run := [Acquire(c, now, true, uuid), Die(0), ReapIdle, MarkDead(c)];
      Legal(Init(poolMax), run) &&
      var a := AcquireStep(Exec(Init(poolMax), run), c, later, true, uuid');
      a.proc == Some(1) && SidOf(a.state, 1) == uuid
  {
    var s := Init(poolMax);
    var s1 := Step(s, Acquire(c, now, true, uuid));
    assert s1.procs == [uuid] && s1.active == map[c := Entry(0, uuid, now)] && s1.sessions == map[c := uuid];
    var s2 := Step(s1, Die(0));
    assert s2.alive == {};
    var s3 := Step(s2, ReapIdle);
    assert s3.active == map[];
    assert Step(s3, MarkDead(c)) == s3;
    assert [ReapIdle, MarkDead(c)] + [] == [ReapIdle, MarkDead(c)];
    ExecTwo(s2, ReapIdle, MarkDead(c), []);
    ExecTwo(s, Acquire(c, now, true, uuid), Die(0), [ReapIdle, MarkDead(c)]);
    assert [Acquire(c, now, true, uuid), Die(0)] + [ReapIdle, MarkDead(c)]
        == [Acquire(c, now, true, uuid), Die(0), ReapIdle, MarkDead(c)];
  }

  // The process dies, another request resumes its session, and the call of
  // MarkDead for the first one kills the healthy process and drops the session.
  lemma MarkDeadHitsTheSuccessor(poolMax: int, c: Conv, now: int, uuid: Sid, later: int, uuid': Sid)
    requires uuid' != uuid
    ensures var run := [Acquire(c, now, true, uuid), Die(0), Acquire(c, later, true, uuid')];
      Legal(Init(poolMax), run) &&
      var s := Exec(Init(poolMax), run);
      LiveEntry(s, c) && s.active[c].proc == 1 && 1 !in MarkDeadStep(s, c).alive && c !in MarkDeadStep(s, c).sessions
  {
    var s := Init(poolMax);
    var s1 := Step(s, Acquire(c, now, true, uuid));
    assert s1.procs == [uuid] && s1.active == map[c := Entry(0, uuid, now)] && s1.sessions == map[c := uuid];
    var s2 := Step(s1, Die(0));
    assert s2.alive == {};
    var again := Acquire(c, later, true, uuid');
    var s3 := Step(s2, again);
    assert s3.active[c] == Entry(1, uuid, later) && 1 in s3.alive;
    ExecCons(s2, again, []);
    assert [again] + [] == [again];
    ExecTwo(s, Acquire(c, now, true, uuid), Die(0), [again]);
    assert [Acquire(c, now, true, uuid), Die(0)] + [again] == [Acquire(c, now, true, uuid), Die(0), again];
  }

  // ---- how many processes the warm-ups in flight may still add ----

  ghost function Left(warm: map<nat, WarmUp>): nat {
    if warm == map[] then 0
    else
      var w :| w in warm;
      warm[w].left + Left(warm - {w})
  }

  lemma {:induction false} LeftWithout(warm: map<nat, WarmUp>, w: nat)
    requires w in warm
    ensures Left(warm) == warm[w].left + Left(warm - {w})
  {
    var v :| v in warm && Left(warm) == warm[v].left + Left(warm - {v});
    if v != w {
      LeftWithout(warm - {v}, w);
      LeftWithout(warm - {w}, v);
      assert warm - {v} - {w} == warm - {w} - {v};
    }
  }

  lemma LeftWith(warm: map<nat, WarmUp>, w: nat, x: WarmUp)
    ensures Left(warm[w := x]) == x.left + Left(warm - {w})
  {
    LeftWithout(warm[w := x], w);
    assert warm[w := x] - {w} == warm - {w};
  }

  // The hot processes there are or may come without another reading of the need.
  ghost function Load(s: State): nat {
    |s.hot| + Left(s.warm)
  }

  lemma StepKeepsLoad(s: State, e: Event)
    requires Enabled(s, e) && !e.WarmRead?
    ensures Load(Step(s, e)) <= Load(s)
  {
    match e
    case Acquire(c, now, ok, uuid) => PopHotIs(s.hot, s.alive);
    case ReapIdle => LivingIs(s.hot, s.alive);
    case WarmStart(w, ok, uuid) =>
      LeftWithout(s.warm, w);
      LeftWith(s.warm, w, s.warm[w].(held := Some(|s.procs|)));
    case WarmFinish(w) =>
      LeftWithout(s.warm, w);
      LeftWith(s.warm, w, WarmUp(s.warm[w].left - 1, None));
    case _ =>
  }

  predicate NoRead(run: seq<Event>) {
    forall e :: e in run ==> !e.WarmRead?
  }

  lemma {:induction false} RunKeepsLoad(s: State, run: seq<Event>)
    requires Legal(s, run) && NoRead(run)
    ensures Load(Exec(s, run)) <= Load(s)
    decreases |run|
  {
    if run != [] {
      StepKeepsLoad(s, run[0]);
      RunKeepsLoad(Step(s, run[0]), run[1..]);
    }
  }

  function Longest(sids: seq<Sid>): (n: nat)
    ensures forall x :: x in sids ==> |x| <= n
  {
    if sids == [] then 0
    else
      var n := Longest(sids[1..]);
      if |sids[0]| > n then |sids[0]| else n
  }

  function FreshSid(sids: seq<Sid>): (x: Sid)
    ensures x !in sids
  {
    seq(Longest(sids) + 1, i => 'x')
  }

  lemma FinishAdds(s: State, w: nat)
    requires Inv(s) && Enabled(s, WarmFinish(w)) && !s.closed && |s.hot| < s.maxSize
    ensures var t := Step(s, WarmFinish(w));
      Inv(t) && Load(t) == Load(s) && |t.hot| == |s.hot| + 1 && t.closed == s.closed && t.maxSize == s.maxSize
  {
    StepKeepsInv(s, WarmFinish(w));
    LeftWithout(s.warm, w);
    LeftWith(s.warm, w, WarmUp(s.warm[w].left - 1, None));
  }

  lemma StartHolds(s: State, w: nat, sid: Sid)
    requires Inv(s) && Enabled(s, WarmStart(w, true, sid))
    ensures var t := Step(s, WarmStart(w, true, sid));
      Inv(t) && Load(t) == Load(s) && t.hot == s.hot && t.closed == s.closed && t.maxSize == s.maxSize
      && Enabled(t, WarmFinish(w))
  {
    StepKeepsInv(s, WarmStart(w, true, sid));
    LeftWithout(s.warm, w);
    LeftWith(s.warm, w, s.warm[w].(held := Some(|s.procs|)));
  }

  // The warm-ups in flight can be let run until there are n hot processes.
  lemma {:induction false} FillUp(s: State, n: nat) returns (run: seq<Event>)
    requires Inv(s) && !s.closed && n <= s.maxSize && n <= Load(s)
    ensures Legal(s, run) && NoRead(run) && |Exec(s, run).hot| == if |s.hot| >= n then |s.hot| else n
    decreases n - |s.hot|
  {
    if |s.hot| >= n { return []; }
    assert s.warm != map[];
    var w :| w in s.warm;
    if s.warm[w].held.Some? {
      FinishAdds(s, w);
      run := FillUp(Step(s, WarmFinish(w)), n);
      ExecCons(s, WarmFinish(w), run);
      run := [WarmFinish(w)] + run;
    } else {
      var sid := FreshSid(s.procs);
      StartHolds(s, w, sid);
      var t := Step(s, WarmStart(w, true, sid));
      FinishAdds(t, w);
      run := FillUp(Step(t, WarmFinish(w)), n);
      ExecTwo(s, WarmStart(w, true, sid), WarmFinish(w), run);
      run := [WarmStart(w, true, sid), WarmFinish(w)] + run;
    }
  }

  ghost predicate Exceeds(s: State, run: seq<Event>) {
    Legal(s, run) && NoRead(run) && |Exec(s, run).hot| > HOT_SIZE
  }

  // From a reachable state, and until some warm-up reads the need again, the
  // hot list can exceed its target exactly if the pool is open, its maximum is
  // above the target, and the hot processes together with what the warm-ups in
  // flight still have to start are too many already.
  lemma OvershootExactlyWhen(poolMax: int, before: seq<Event>)
    requires Legal(Init(poolMax), before)
    ensures var s := Exec(Init(poolMax), before);
      (exists run :: Exceeds(s, run)) <==> !s.closed && s.maxSize > HOT_SIZE && Load(s) > HOT_SIZE
  {
    RunKeepsInv(Init(poolMax), before);
    var s := Exec(Init(poolMax), before);
    forall run | Exceeds(s, run) ensures !s.closed && s.maxSize > HOT_SIZE && Load(s) > HOT_SIZE {
      RunKeepsLoad(s, run);
      RunKeepsInv(s, run);
      MaxSizeIsFixed(s, run);
      if s.closed { ShutdownIsForever(s, run); }
    }
    if !s.closed && s.maxSize > HOT_SIZE && Load(s) > HOT_SIZE {
      var run := FillUp(s, HOT_SIZE + 1);
      assert Exceeds(s, run);
    }
  }

  ghost predicate OverTarget(poolMax: int, run: seq<Event>) {
    Legal(Init(poolMax), run) && |Exec(Init(poolMax), run).hot| > HOT_SIZE
  }

  lemma ReadLoads(s: State, w: nat)
    requires Inv(s) && !s.closed && s.hot == [] && s.maxSize >= HOT_SIZE && w !in s.warm
    ensures var t := Step(s, WarmRead(w));
      && Inv(t) && !t.closed && t.hot == [] && t.maxSize == s.maxSize && t.warm.Keys == s.warm.Keys + {w}
      && Load(t) == Load(s) + HOT_SIZE
  {
    WarmReadKeepsInv(s, w);
    LeftWith(s.warm, w, WarmUp(HOT_SIZE, None));
    assert s.warm - {w} == s.warm;
  }

  // Two warm-ups that read the need before either has added anything.
  lemma TwoReads(s: State) returns (run: seq<Event>)
    requires Inv(s) && !s.closed && s.hot == [] && s.maxSize > HOT_SIZE && s.warm == map[]
    ensures Legal(s, run) && |Exec(s, run).hot| > HOT_SIZE
  {
    ReadLoads(s, 0);
    var s1 := Step(s, WarmRead(0));
    ReadLoads(s1, 1);
    run := FillUp(Step(s1, WarmRead(1)), HOT_SIZE + 1);
    ExecTwo(s, WarmRead(0), WarmRead(1), run);
    run := [WarmRead(0), WarmRead(1)] + run;
  }

  // Racing warm-ups exceed the target, unless the configured maximum is the
  // target itself.
  lemma RacingWarmUpsOvershoot(poolMax: int)
    ensures (exists run :: OverTarget(poolMax, run)) <==> poolMax != HOT_SIZE
  {
    if poolMax != HOT_SIZE {
      var run := TwoReads(Init(poolMax));
      assert OverTarget(poolMax, run);
    } else {
      forall run | Legal(Init(poolMax), run) ensures |Exec(Init(poolMax), run).hot| <= HOT_SIZE {
        NoProcessLeaks(poolMax, run);
      }
    }
  }

  // k warm-ups that read the need before any has added anything.
  lemma {:induction false} ManyReads(s: State, k: nat, from: nat) returns (run: seq<Event>)
    requires Inv(s) && !s.closed && s.hot == [] && s.maxSize >= HOT_SIZE && forall w :: w in s.warm ==> w < from
    ensures Legal(s, run)
    ensures var t := Exec(s, run);
      Inv(t) && !t.closed && t.hot == [] && t.maxSize == s.maxSize && Load(t) == Load(s) + k * HOT_SIZE
    decreases k
  {
    if k == 0 { return []; }
    ReadLoads(s, from);
    run := ManyReads(Step(s, WarmRead(from)), k - 1, from + 1);
    ExecCons(s, WarmRead(from), run);
    run := [WarmRead(from)] + run;
  }

  lemma {:induction false} ExecJoin(s: State, a: seq<Event>, b: seq<Event>)
    requires Legal(s, a) && Legal(Exec(s, a), b)
    ensures Legal(s, a + b) && Exec(s, a + b) == Exec(Exec(s, a), b)
    decreases |a|
  {
    if a == [] {
      assert a + b == b;
    } else {
      ExecJoin(Step(s, a[0]), a[1..], b);
      assert (a + b)[1..] == a[1..] + b;
    }
  }

  ghost predicate HotReaches(poolMax: int, run: seq<Event>, n: nat) {
    Legal(Init(poolMax), run) && |Exec(Init(poolMax), run).hot| == n
  }

  function Capacity(poolMax: int): nat {
    if poolMax < 2 then 10 else poolMax
  }

  // The bound on the hot list is sharp: the sizes it has in some run are those
  // up to the configured maximum.
  lemma HotReachesItsMaximum(poolMax: int, n: nat)
    ensures (exists run :: HotReaches(poolMax, run, n)) <==> n <= Capacity(poolMax)
  {
    if run :| HotReaches(poolMax, run, n) { NoProcessLeaks(poolMax, run); }
    if n <= Capacity(poolMax) {
      var s := Init(poolMax);
      var readings := ManyReads(s, n, 0);
      var more := FillUp(Exec(s, readings), n);
      ExecJoin(s, readings, more);
      assert HotReaches(poolMax, readings + more, n);
    }
  }

  // ---- what one warm-up adds ----

  // The steps of a warm-up whose starts succeed.
  function Warming(w: nat, sids: seq<Sid>): seq<Event> {
    if sids == [] then [] else [WarmStart(w, true, sids[0]), WarmFinish(w)] + Warming(w, sids[1..])
  }

  predicate AllFresh(sids: seq<Sid>, procs: seq<Sid>) {
    && (forall x :: x in sids ==> x !in procs)
    && (forall i, j :: 0 <= i < j < |sids| ==> sids[i] != sids[j])
  }

  function NewProcs(s: State, n: nat): seq<ProcId> {
    seq(n, i requires 0 <= i < n => |s.procs| + i)
  }

  // s with n processes more, all of them hot.
  ghost predicate Grown(s: State, t: State, sids: seq<Sid>) {
    && t.hot == s.hot + NewProcs(s, |sids|) && t.procs == s.procs + sids
    && t.alive == s.alive + (set p | p in NewProcs(s, |sids|))
    && t.active == s.active && t.sessions == s.sessions && t.closed == s.closed && t.maxSize == s.maxSize
  }

  lemma OneMore(s: State, w: nat, sid: Sid)
    requires w in s.warm && s.warm[w].held.None? && s.warm[w].left > 0 && !s.closed && |s.hot| < s.maxSize
    requires sid !in s.procs
    ensures Enabled(s, WarmStart(w, true, sid)) && Enabled(Step(s, WarmStart(w, true, sid)), WarmFinish(w))
    ensures var t := Step(Step(s, WarmStart(w, true, sid)), WarmFinish(w));
      && Grown(s, t, [sid]) && t.warm - {w} == s.warm - {w}
      && (w in t.warm <==> s.warm[w].left > 1)
      && (w in t.warm ==> t.warm[w] == WarmUp(s.warm[w].left - 1, None))
  {
    assert NewProcs(s, 1) == [|s.procs|];
  }

  lemma GrownTwice(s: State, t: State, u: State, sid: Sid, sids: seq<Sid>)
    requires Grown(s, t, [sid]) && Grown(t, u, sids)
    ensures Grown(s, u, [sid] + sids)
  {
    assert [|s.procs|] + NewProcs(t, |sids|) == NewProcs(s, |sids| + 1);
    assert NewProcs(s, 1) == [|s.procs|];
    forall p ensures p in NewProcs(s, |sids| + 1) <==> p == |s.procs| || p in NewProcs(t, |sids|) {
      assert p in NewProcs(s, |sids| + 1) <==> p in [|s.procs|] + NewProcs(t, |sids|);
    }
  }

  lemma {:induction false} WarmingAdds(s: State, w: nat, sids: seq<Sid>)
    requires !s.closed && AllFresh(sids, s.procs) && |s.hot| + |sids| <= s.maxSize
    requires w in s.warm && s.warm[w].held.None? && |sids| <= s.warm[w].left
    ensures Legal(s, Warming(w, sids))
    ensures var t := Exec(s, Warming(w, sids));
      && Grown(s, t, sids) && t.warm - {w} == s.warm - {w}
      && (w in t.warm <==> sids == [] || |sids| < s.warm[w].left)
      && (w in t.warm ==> t.warm[w] == WarmUp(s.warm[w].left - |sids|, None))
    decreases |sids|
  {
    if sids == [] {
      assert s.hot + NewProcs(s, 0) == s.hot && s.procs + [] == s.procs;
    } else {
      var t := Step(Step(s, WarmStart(w, true, sids[0])), WarmFinish(w));
      OneMore(s, w, sids[0]);
      if |sids| > 1 {
        WarmingAdds(t, w, sids[1..]);
      } else {
        assert Legal(t, []) && Exec(t, []) == t;
        assert t.hot + NewProcs(t, 0) == t.hot && t.procs + [] == t.procs;
      }
      ExecTwo(s, WarmStart(w, true, sids[0]), WarmFinish(w), Warming(w, sids[1..]));
      GrownTwice(s, t, Exec(t, Warming(w, sids[1..])), sids[0], sids[1..]);
      assert [sids[0]] + sids[1..] == sids;
    }
  }

  // What is missing when a warm-up reads the need.
  function Missing(s: State): nat {
    if s.closed || |s.hot| >= HOT_SIZE then 0 else HOT_SIZE - |s.hot|
  }

  // A warm-up with nothing else going on that starts the processes sids and
  // then, if they are too few, fails to start one.
  function WholeWarmUp(s: State, w: nat, sids: seq<Sid>): seq<Event> {
    [WarmRead(w)] + (Warming(w, sids)
    + if |sids| < Missing(s) then [WarmStart(w, false, FreshSid(s.procs + sids))] else [])
  }

  // Whatever state it finds, such a warm-up adds the processes it has started to
  // the end of the hot list - as many as are missing unless a start fails, and
  // none to a pool that is closed or has enough - and ends.
  lemma WarmUpAdds(s: State, w: nat, sids: seq<Sid>)
    requires Inv(s) && s.maxSize >= HOT_SIZE && w !in s.warm && AllFresh(sids, s.procs) && |sids| <= Missing(s)
    ensures var run := WholeWarmUp(s, w, sids);
      Legal(s, run) && Grown(s, Exec(s, run), sids) && Exec(s, run).warm == s.warm
    ensures |sids| == Missing(s) && !s.closed ==> |Exec(s, WholeWarmUp(s, w, sids)).hot| >= HOT_SIZE
  {
    var t := Step(s, WarmRead(w));
    if Missing(s) > 0 {
      WarmUpGoes(s, t, w, sids);
    } else {
      assert s.hot + NewProcs(s, 0) == s.hot && s.procs + [] == s.procs;
      assert Warming(w, sids) + [] == [] && Legal(t, []) && Exec(t, []) == s;
    }
    var rest := WholeWarmUp(s, w, sids)[1..];
    assert WholeWarmUp(s, w, sids) == [WarmRead(w)] + rest;
    ExecCons(s, WarmRead(w), rest);
  }

  lemma WarmUpGoes(s: State, t: State, w: nat, sids: seq<Sid>)
    requires s.maxSize >= HOT_SIZE && w !in s.warm && AllFresh(sids, s.procs) && |sids| <= Missing(s)
    requires Missing(s) > 0 && t == s.(warm := s.warm[w := WarmUp(Missing(s), None)])
    ensures var rest := WholeWarmUp(s, w, sids)[1..];
      Legal(t, rest) && Grown(s, Exec(t, rest), sids) && Exec(t, rest).warm == s.warm
  {
    WarmingAdds(t, w, sids);
    var u := Exec(t, Warming(w, sids));
    assert t.warm - {w} == s.warm;
    var end := if |sids| < Missing(s) then [WarmStart(w, false, FreshSid(s.procs + sids))] else [];
    if |sids| < Missing(s) {
      assert end[1..] == [];
      assert Legal(Step(u, end[0]), []);
    } else {
      assert u.warm - {w} == u.warm;
    }
    ExecJoin(t, Warming(w, sids), end);
  }

  // A process a warm-up brings joins the hot list exactly if the pool is open
  // and has room for it; otherwise it is killed and the warm-up ends.
  lemma TurnedAway(s: State, w: nat)
    requires Inv(s) && Enabled(s, WarmFinish(w))
    ensures var t := Step(s, WarmFinish(w)); var p := s.warm[w].held.value;
      && (p in t.hot <==> !s.closed && |s.hot| < s.maxSize)
      && (p !in t.hot ==> t == s.(alive := s.alive - {p}, warm := s.warm - {w}))
      && (p in t.hot ==> t.hot == s.hot + [p] && t.alive == s.alive)
  {
    var p := s.warm[w].held.value;
    forall i | 0 <= i < |s.hot| ensures s.hot[i] != p {
      assert s.procs[s.hot[i]] != s.procs[p];
    }
  }

  // A warm-up reads the need only when no other is in flight.
  ghost predicate OneWarmUpAtATime(s: State, run: seq<Event>)
    requires Legal(s, run)
    decreases |run|
  {
    run == [] || ((run[0].WarmRead? ==> s.warm == map[]) && OneWarmUpAtATime(Step(s, run[0]), run[1..]))
  }

  lemma ReadKeepsTarget(s: State, w: nat)
    requires s.warm == map[] && Load(s) <= HOT_SIZE
    ensures Load(WarmReadStep(s, w)) <= HOT_SIZE
  {
    var need := Min(HOT_SIZE, s.maxSize) - |s.hot|;
    if !s.closed && need > 0 {
      LeftWith(s.warm, w, WarmUp(need, None));
      assert s.warm - {w} == s.warm;
    }
  }

  // If warm-ups do not race, the target is kept.
  lemma {:induction false} TargetHoldsWithoutRaces(s: State, run: seq<Event>)
    requires Load(s) <= HOT_SIZE && Legal(s, run) && OneWarmUpAtATime(s, run)
    ensures Load(Exec(s, run)) <= HOT_SIZE && |Exec(s, run).hot| <= HOT_SIZE
    decreases |run|
  {
    if run != [] {
      if run[0].WarmRead? {
        ReadKeepsTarget(s, run[0].w);
      } else {
        StepKeepsLoad(s, run[0]);
      }
      TargetHoldsWithoutRaces(Step(s, run[0]), run[1..]);
    }
  }

  lemma TargetHoldsFromTheStart(poolMax: int, run: seq<Event>)
    requires Legal(Init(poolMax), run) && OneWarmUpAtATime(Init(poolMax), run)
    ensures |Exec(Init(poolMax), run).hot| <= HOT_SIZE
  {
    TargetHoldsWithoutRaces(Init(poolMax), run);
  }

  // ---- after a shutdown ----

  predicate NoAcquire(run: seq<Event>) {
    forall e :: e in run ==> !e.Acquire?
  }

  lemma {:induction false} NothingBecomesActive(s: State, run: seq<Event>)
    requires Legal(s, run) && NoAcquire(run) && s.active == map[]
    ensures Exec(s, run).active == map[]
    decreases |run|
  {
    if run != [] { NothingBecomesActive(Step(s, run[0]), run[1..]); }
  }

  // Once the pool is shut down, what lives is acquired or held by a warm-up in
  // flight; when those have ended and nothing has been acquired since, no
  // process lives.  Acquire does not look at whether the pool is closed: it
  // starts a process as before.
  lemma ShutdownEndsEverything(poolMax: int, before: seq<Event>, after: seq<Event>, c: Conv, now: int, uuid: Sid)
    requires Legal(Init(poolMax), before) && !Exec(Init(poolMax), before).closed
    requires Legal(ShutdownStep(Exec(Init(poolMax), before)), after)
    ensures var t := Exec(ShutdownStep(Exec(Init(poolMax), before)), after);
      && (t.warm == map[] ==> (t.alive == {} <==> forall d :: !LiveEntry(t, d)))
      && (t.warm == map[] && NoAcquire(after) ==> t.alive == {})
      && (uuid !in t.procs ==> AcquireStep(t, c, now, true, uuid).state.alive != {})
  {
    RunKeepsInv(Init(poolMax), before);
    var s := Exec(Init(poolMax), before);
    StepKeepsInv(s, Shutdown);
    ShutdownIsForever(ShutdownStep(s), after);
    RunKeepsInv(ShutdownStep(s), after);
    if NoAcquire(after) { NothingBecomesActive(ShutdownStep(s), after); }
    var t := Exec(ShutdownStep(s), after);
    if t.warm == map[] { OnlyActiveLive(t); }
    if uuid !in t.procs {
      AcquireHandsOutTheSession(t, c, now, true, uuid);
      var u := AcquireStep(t, c, now, true, uuid).state;
      assert u.active[c].proc in u.alive;
    }
  }

  lemma OnlyActiveLive(t: State)
    requires Inv(t) && t.hot == [] && t.warm == map[]
    ensures t.alive == {} <==> forall d :: !LiveEntry(t, d)
  {
    if p :| p in t.alive {
      var d :| d in t.active && t.active[d].proc == p;
      assert LiveEntry(t, d);
    }
  }
}
