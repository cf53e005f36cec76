// The Claude CLI process pool as a transition system (pkg/claudecli/pool.go).
//
// One transition is one critical section of the pool lock.  A warm-up gives the
// lock up between reading how many processes it needs, starting one, and
// appending it, so it is three kinds of transition.  A process may die between
// any two transitions.
module PoolModel {
  import opened Wrappers

  type Conv = string   // conversation id
  type Sid = string    // session id
  type ProcId = nat    // index into the table of processes ever started

  const HOT_SIZE := 2
  const MAX_HOT_SIZE := 10

  datatype Entry = Entry(proc: ProcId, sid: Sid, lastUsed: int)

  // A warm-up past its first critical section: iterations left and, between
  // starting a process and taking the lock again, the process it holds.
  datatype WarmUp = WarmUp(left: nat, held: Option<ProcId>)

  datatype State = State(
    active: map<Conv, Entry>,
    sessions: map<Conv, Sid>,
    hot: seq<ProcId>,
    closed: bool,
    maxSize: nat,
    procs: seq<Sid>,          // procs[p] is the session id process p was started with
    alive: set<ProcId>,
    warm: map<nat, WarmUp>)

  datatype Event =
    | Acquire(conv: Conv, now: int, startOk: bool, uuid: Sid)
    | Release(conv: Conv, now: int)
    | MarkDead(conv: Conv)
    | Shutdown
    | Cycle
    | ReapIdle
    | Die(proc: ProcId)
    | WarmRead(w: nat)
    | WarmStart(w: nat, startOk: bool, uuid: Sid)
    | WarmFinish(w: nat)

  function Init(poolMax: int): State {
    State(map[], map[], [], false, if poolMax < HOT_SIZE then MAX_HOT_SIZE else poolMax, [], {}, map[])
  }

  // ---- transitions ----

  function Start(s: State, sid: Sid): State {
    s.(procs := s.procs + [sid], alive := s.alive + {|s.procs|})
  }

  // Pops from the end of the hot list until a live process turns up.
  function PopHot(hot: seq<ProcId>, alive: set<ProcId>): (seq<ProcId>, Option<ProcId>) {
    if hot == [] then ([], None)
    else if hot[|hot| - 1] in alive then (hot[..|hot| - 1], Some(hot[|hot| - 1]))
    else PopHot(hot[..|hot| - 1], alive)
  }

  function Assign(s: State, c: Conv, p: ProcId, sid: Sid, now: int): State {
    s.(sessions := s.sessions[c := sid], active := s.active[c := Entry(p, sid, now)])
  }

  // int(float64(hotSize) * 0.8) is 1.
  predicate NeedsWarm(hot: seq<ProcId>) {
    |hot| <= 1
  }

  datatype Acquired = Acquired(state: State, proc: Option<ProcId>, spawnWarmUp: bool)

  predicate LiveEntry(s: State, c: Conv) {
    c in s.active && s.active[c].proc in s.alive
  }

  function SidOf(s: State, p: ProcId): Sid {
    if p < |s.procs| then s.procs[p] else ""
  }

  function AcquireStep(s: State, c: Conv, now: int, ok: bool, uuid: Sid): Acquired {
    if LiveEntry(s, c) then
      Acquired(s.(active := s.active[c := s.active[c].(lastUsed := now)]), Some(s.active[c].proc), false)
    else
      var s0 := s.(active := s.active - {c});
      if c in s.sessions then
        if ok then
          Acquired(Assign(Start(s0, s.sessions[c]), c, |s.procs|, s.sessions[c], now), Some(|s.procs|), false)
        else Acquired(s0, None, false)
      else
        var (rest, got) := PopHot(s.hot, s.alive);
        var s1 := s0.(hot := rest);
        match got
        case Some(p) => Acquired(Assign(s1, c, p, SidOf(s, p), now), got, NeedsWarm(rest))
        case None =>
          if ok then Acquired(Assign(Start(s1, uuid), c, |s.procs|, uuid, now), Some(|s.procs|), true)
          else Acquired(s1, None, false)
  }

  function ReleaseStep(s: State, c: Conv, now: int): State {
    if c in s.active then s.(active := s.active[c := s.active[c].(lastUsed := now)]) else s
  }

  function MarkDeadStep(s: State, c: Conv): State {
    if c in s.active then
      s.(alive := s.alive - {s.active[c].proc}, active := s.active - {c}, sessions := s.sessions - {c})
    else s
  }

  function ActiveProcs(active: map<Conv, Entry>): set<ProcId> {
    set c | c in active :: active[c].proc
  }

  function KillAll(s: State): State {
    s.(active := map[], hot := [], alive := s.alive - ActiveProcs(s.active) - (set p | p in s.hot))
  }

  function ShutdownStep(s: State): State {
    if s.closed then s else KillAll(s).(closed := true)
  }

  function CycleStep(s: State): State {
    if s.closed then s else KillAll(s)
  }

  function Living(hot: seq<ProcId>, alive: set<ProcId>): seq<ProcId> {
    if hot == [] then []
    else Living(hot[..|hot| - 1], alive) + if hot[|hot| - 1] in alive then [hot[|hot| - 1]] else []
  }

  function ReapStep(s: State): State {
    s.(active := map c | c in s.active && s.active[c].proc in s.alive :: s.active[c],
       hot := Living(s.hot, s.alive))
  }

  function Min(a: int, b: int): int { if a < b then a else b }

  function WarmReadStep(s: State, w: nat): State {
    var need := Min(HOT_SIZE, s.maxSize) - |s.hot|;
    if s.closed || need <= 0 then s else s.(warm := s.warm[w := WarmUp(need, None)])
  }

  function WarmStartStep(s: State, w: nat, ok: bool, uuid: Sid): State
    requires w in s.warm
  {
    if ok then Start(s, uuid).(warm := s.warm[w := s.warm[w].(held := Some(|s.procs|))])
    else s.(warm := s.warm - {w})
  }

  function WarmFinishStep(s: State, w: nat): State
    requires w in s.warm && s.warm[w].held.Some? && s.warm[w].left > 0
  {
    var p := s.warm[w].held.value;
    if s.closed || |s.hot| >= s.maxSize then
      s.(alive := s.alive - {p}, warm := s.warm - {w})
    else
      var left := s.warm[w].left - 1;
      s.(hot := s.hot + [p],
         warm := if left == 0 then s.warm - {w} else s.warm[w := WarmUp(left, None)])
  }

  // What makes an event possible: a UUID is one no process was started with,
  // and a warm-up takes its steps in order.
  ghost predicate Enabled(s: State, e: Event) {
    match e
    case Acquire(_, _, _, uuid) => uuid !in s.procs
    case WarmRead(w) => w !in s.warm
    case WarmStart(w, _, uuid) => w in s.warm && s.warm[w].held.None? && uuid !in s.procs
    case WarmFinish(w) => w in s.warm && s.warm[w].held.Some? && s.warm[w].left > 0
    case _ => true
  }

  ghost function Step(s: State, e: Event): State
    requires Enabled(s, e)
  {
    match e
    case Acquire(c, now, ok, uuid) => AcquireStep(s, c, now, ok, uuid).state
    case Release(c, now) => ReleaseStep(s, c, now)
    case MarkDead(c) => MarkDeadStep(s, c)
    case Shutdown => ShutdownStep(s)
    case Cycle => CycleStep(s)
    case ReapIdle => ReapStep(s)
    case Die(p) => s.(alive := s.alive - {p})
    case WarmRead(w) => WarmReadStep(s, w)
    case WarmStart(w, ok, uuid) => WarmStartStep(s, w, ok, uuid)
    case WarmFinish(w) => WarmFinishStep(s, w)
  }

  // A run: the events in order, each possible where it happens.
  ghost predicate Legal(s: State, run: seq<Event>)
    decreases |run|
  {
    run == [] || (Enabled(s, run[0]) && Legal(Step(s, run[0]), run[1..]))
  }

  ghost function Exec(s: State, run: seq<Event>): State
    requires Legal(s, run)
    decreases |run|
  {
    if run == [] then s else Exec(Step(s, run[0]), run[1..])
  }

  // ---- ownership ----

  datatype Owner = ActiveOf(conv: Conv) | HotAt(index: nat) | HeldBy(w: nat)

  predicate Owns(s: State, o: Owner, p: ProcId) {
    match o
    case ActiveOf(c) => c in s.active && s.active[c].proc == p
    case HotAt(i) => i < |s.hot| && s.hot[i] == p
    case HeldBy(w) => w in s.warm && s.warm[w].held == Some(p)
  }

  // Owned but not yet given to a conversation.
  predicate Spare(s: State, p: ProcId) {
    p in s.hot || exists w :: w in s.warm && s.warm[w].held == Some(p)
  }

  // The sessions map is injective and names only sessions that were started.
  ghost predicate SessionsOk(s: State) {
    && (forall c :: c in s.sessions ==> s.sessions[c] in s.procs)
    && (forall c, d :: c in s.sessions && d in s.sessions && s.sessions[c] == s.sessions[d] ==> c == d)
  }

  // An active entry, the sessions map and the process agree on the session.
  ghost predicate ActiveOk(s: State) {
    forall c :: c in s.active ==>
      c in s.sessions && s.active[c].proc < |s.procs|
      && s.active[c].sid == s.sessions[c] == s.procs[s.active[c].proc]
  }

  // No spare process carries a session that a conversation already has.
  ghost predicate SpareOk(s: State) {
    && (forall i :: 0 <= i < |s.hot| ==>
          s.hot[i] < |s.procs| && forall c :: c in s.sessions ==> s.sessions[c] != s.procs[s.hot[i]])
    && (forall w :: w in s.warm && s.warm[w].held.Some? ==>
          && s.warm[w].held.value < |s.procs|
          && forall c :: c in s.sessions ==> s.sessions[c] != s.procs[s.warm[w].held.value])
  }

  // Spare processes have pairwise different sessions.
  ghost predicate SpareDistinct(s: State)
    requires SpareOk(s)
  {
    && (forall i, j :: 0 <= i < j < |s.hot| ==> s.procs[s.hot[i]] != s.procs[s.hot[j]])
    && (forall i, w :: 0 <= i < |s.hot| && w in s.warm && s.warm[w].held.Some? ==>
        s.procs[s.hot[i]] != s.procs[s.warm[w].held.value])
    && (forall v, w :: v in s.warm && w in s.warm && v != w && s.warm[v].held.Some? && s.warm[w].held.Some? ==>
          s.procs[s.warm[v].held.value] != s.procs[s.warm[w].held.value])
  }

  ghost predicate NoLeak(s: State) {
    forall p :: p in s.alive ==> p in ActiveProcs(s.active) || Spare(s, p)
  }

  ghost predicate SizesOk(s: State) {
    && |s.hot| <= s.maxSize
    && (s.closed ==> s.hot == [])
    && (forall w :: w in s.warm ==> s.warm[w].left > 0)
  }

  ghost predicate Inv(s: State) {
    SessionsOk(s) && ActiveOk(s) && SpareOk(s) && SpareDistinct(s) && NoLeak(s) && SizesOk(s)
  }

  // ---- what one transition keeps ----

  lemma {:induction false} PopHotIs(hot: seq<ProcId>, alive: set<ProcId>)
    ensures var (rest, got) := PopHot(hot, alive);
      && rest <= hot
      && (got.Some? ==> |rest| < |hot| && hot[|rest|] == got.value && got.value in alive)
      && (got.None? ==> rest == [])
      && (forall i :: |rest| + (if got.Some? then 1 else 0) <= i < |hot| ==> hot[i] !in alive)
  {
    if hot != [] && hot[|hot| - 1] !in alive {
      PopHotIs(hot[..|hot| - 1], alive);
    }
  }

  lemma {:induction false} LivingIs(hot: seq<ProcId>, alive: set<ProcId>)
    ensures forall p :: p in Living(hot, alive) <==> p in hot && p in alive
    ensures |Living(hot, alive)| <= |hot|
  {
    if hot != [] {
      LivingIs(hot[..|hot| - 1], alive);
      assert hot == hot[..|hot| - 1] + [hot[|hot| - 1]];
    }
  }

  // Compaction keeps a list without repeated sessions free of them.
  lemma {:induction false} LivingDistinct(hot: seq<ProcId>, alive: set<ProcId>, procs: seq<Sid>)
    requires forall i :: 0 <= i < |hot| ==> hot[i] < |procs|
    requires forall i, j :: 0 <= i < j < |hot| ==> procs[hot[i]] != procs[hot[j]]
    ensures forall p :: p in Living(hot, alive) ==> p < |procs|
    ensures var l := Living(hot, alive);
      forall i, j :: 0 <= i < j < |l| ==> l[i] in l && l[j] in l && procs[l[i]] != procs[l[j]]
  {
    LivingIs(hot, alive);
    if hot != [] {
      var init := hot[..|hot| - 1];
      LivingDistinct(init, alive, procs);
      LivingIs(init, alive);
      var l := Living(init, alive);
      forall i | 0 <= i < |l| ensures l[i] in l && procs[l[i]] != procs[hot[|hot| - 1]] {
        assert l[i] in init;
      }
    }
  }

  lemma ReuseKeepsInv(s: State, c: Conv, now: int)
    requires Inv(s) && c in s.active
    ensures Inv(s.(active := s.active[c := s.active[c].(lastUsed := now)]))
  {
    var a := s.active[c := s.active[c].(lastUsed := now)];
    forall p | p in ActiveProcs(s.active) ensures p in ActiveProcs(a) {
      var d :| d in s.active && s.active[d].proc == p;
      assert d in a && a[d].proc == p;
    }
    forall p | Spare(s, p) ensures Spare(s.(active := a), p) {}
  }

  // Forgetting a dead entry.
  lemma DropDeadKeepsInv(s: State, c: Conv)
    requires Inv(s) && !LiveEntry(s, c)
    ensures Inv(s.(active := s.active - {c}))
  {
    var t := s.(active := s.active - {c});
    forall p | p in s.alive && p in ActiveProcs(s.active) ensures p in ActiveProcs(t.active) {
      var d :| d in s.active && s.active[d].proc == p;
      assert d in t.active && t.active[d].proc == p;
    }
    forall p | Spare(s, p) ensures Spare(t, p) {}
  }

  // Giving conversation c the process just started with session sid.
  lemma StartAssignKeepsInv(s: State, c: Conv, sid: Sid, now: int)
    requires Inv(s) && c !in s.active
    requires if c in s.sessions then s.sessions[c] == sid else sid !in s.procs
    ensures Inv(Assign(Start(s, sid), c, |s.procs|, sid, now))
  {
    var t := Assign(Start(s, sid), c, |s.procs|, sid, now);
    StartAssignSessions(s, c, sid, now);
    StartAssignSpare(s, c, sid, now);
    forall p | p in t.alive ensures p in ActiveProcs(t.active) || Spare(t, p) {
      if p == |s.procs| {
        assert c in t.active && t.active[c].proc == p;
      } else if Spare(s, p) {
        assert Spare(t, p);
      } else {
        var d :| d in s.active && s.active[d].proc == p;
        assert d in t.active && t.active[d].proc == p;
      }
    }
  }

  lemma StartAssignSessions(s: State, c: Conv, sid: Sid, now: int)
    requires SessionsOk(s) && ActiveOk(s) && c !in s.active
    requires if c in s.sessions then s.sessions[c] == sid else sid !in s.procs
    ensures var t := Assign(Start(s, sid), c, |s.procs|, sid, now); SessionsOk(t) && ActiveOk(t)
  {
    var t := Assign(Start(s, sid), c, |s.procs|, sid, now);
    assert t.procs[|s.procs|] == sid;
    assert forall x :: x in s.procs ==> x in t.procs;
  }

  lemma StartAssignSpare(s: State, c: Conv, sid: Sid, now: int)
    requires SessionsOk(s) && SpareOk(s) && SpareDistinct(s)
    requires if c in s.sessions then s.sessions[c] == sid else sid !in s.procs
    ensures var t := Assign(Start(s, sid), c, |s.procs|, sid, now); SpareOk(t) && SpareDistinct(t)
  {
    var t := Assign(Start(s, sid), c, |s.procs|, sid, now);
    forall i | 0 <= i < |s.hot| ensures t.procs[s.hot[i]] == s.procs[s.hot[i]] && s.procs[s.hot[i]] != sid {
      assert s.procs[s.hot[i]] in s.procs;
    }
    forall w | w in s.warm && s.warm[w].held.Some?
      ensures var p := s.warm[w].held.value; t.procs[p] == s.procs[p] && s.procs[p] != sid
    {
      assert s.procs[s.warm[w].held.value] in s.procs;
    }
  }

  // Forgetting a tail of the hot list that holds only dead processes.
  lemma TrimHotKeepsInv(s: State, n: nat)
    requires Inv(s) && n <= |s.hot|
    requires forall i :: n <= i < |s.hot| ==> s.hot[i] !in s.alive
    ensures Inv(s.(hot := s.hot[..n]))
  {
    var t := s.(hot := s.hot[..n]);
    forall p | p in s.alive && Spare(s, p) ensures Spare(t, p) {
      if p in s.hot {
        var i :| 0 <= i < |s.hot| && s.hot[i] == p;
        assert t.hot[i] == p;
      }
    }
  }

  // Giving conversation c the last process of the hot list.
  lemma AssignHotKeepsInv(s: State, c: Conv, now: int)
    requires Inv(s) && c !in s.active && c !in s.sessions && s.hot != []
    ensures Inv(AssignHot(s, c, now))
  {
    var p := s.hot[|s.hot| - 1];
    var t := AssignHot(s, c, now);
    AssignHotSpare(s, c, now);
    AssignHotLeaksNothing(s, c, now);
    assert SessionsOk(t) && ActiveOk(t) by {
      assert s.procs[p] in s.procs;
    }
  }

  lemma AssignHotLeaksNothing(s: State, c: Conv, now: int)
    requires NoLeak(s) && c !in s.active && s.hot != []
    ensures NoLeak(AssignHot(s, c, now))
  {
    var p := s.hot[|s.hot| - 1];
    var t := AssignHot(s, c, now);
    forall q | q in t.alive ensures q in ActiveProcs(t.active) || Spare(t, q) {
      if q == p {
        assert c in t.active && t.active[c].proc == p;
      } else if q in ActiveProcs(s.active) {
        var d :| d in s.active && s.active[d].proc == q;
        assert d in t.active && t.active[d].proc == q;
      } else if q in s.hot {
        var i :| 0 <= i < |s.hot| && s.hot[i] == q;
        assert t.hot[i] == q;
      }
    }
  }

  ghost function AssignHot(s: State, c: Conv, now: int): State
    requires s.hot != []
  {
    var p := s.hot[|s.hot| - 1];
    Assign(s.(hot := s.hot[..|s.hot| - 1]), c, p, SidOf(s, p), now)
  }

  lemma AssignHotSpare(s: State, c: Conv, now: int)
    requires SpareOk(s) && SpareDistinct(s) && s.hot != []
    ensures SpareOk(AssignHot(s, c, now)) && SpareDistinct(AssignHot(s, c, now))
  {
    var n := |s.hot| - 1;
    var sid := s.procs[s.hot[n]];
    var t := AssignHot(s, c, now);
    forall i | 0 <= i < n ensures t.hot[i] == s.hot[i] && s.procs[s.hot[i]] != sid {}
    forall w | w in s.warm && s.warm[w].held.Some? ensures s.procs[s.warm[w].held.value] != sid {}
    forall d | d in t.sessions ensures t.sessions[d] == sid || (d in s.sessions && t.sessions[d] == s.sessions[d]) {}
  }

  // A dead entry makes no difference to what Acquire does.
  lemma AcquireForgetsDeadEntry(s: State, c: Conv, now: int, ok: bool, uuid: Sid)
    requires !LiveEntry(s, c)
    ensures AcquireStep(s, c, now, ok, uuid) == AcquireStep(s.(active := s.active - {c}), c, now, ok, uuid)
  {
    var s0 := s.(active := s.active - {c});
    assert s0.active - {c} == s0.active;
    assert s0.(active := s0.active - {c}) == s0;
  }

  lemma AcquireKeepsInv(s: State, c: Conv, now: int, ok: bool, uuid: Sid)
    requires Inv(s) && uuid !in s.procs
    ensures Inv(AcquireStep(s, c, now, ok, uuid).state)
  {
    if LiveEntry(s, c) {
      ReuseKeepsInv(s, c, now);
    } else {
      DropDeadKeepsInv(s, c);
      AcquireForgetsDeadEntry(s, c, now, ok, uuid);
      AcquireStartsKeepsInv(s.(active := s.active - {c}), c, now, ok, uuid);
    }
  }

  lemma AcquireStartsKeepsInv(s: State, c: Conv, now: int, ok: bool, uuid: Sid)
    requires Inv(s) && c !in s.active && uuid !in s.procs
    ensures Inv(AcquireStep(s, c, now, ok, uuid).state)
  {
    if c in s.sessions {
      assert s.(active := s.active - {c}) == s;
      if ok { StartAssignKeepsInv(s, c, s.sessions[c], now); }
    } else {
      AcquireNewKeepsInv(s, c, now, ok, uuid);
    }
  }

  // The two branches for a conversation without a session, after the hot list
  // has lost the dead processes at its end.
  lemma AcquireNewIs(s: State, c: Conv, now: int, ok: bool, uuid: Sid, n: nat)
    requires c !in s.active && c !in s.sessions && n <= |s.hot|
    requires var (rest, got) := PopHot(s.hot, s.alive); n == |rest| + if got.Some? then 1 else 0
    ensures var s1 := s.(hot := s.hot[..n]);
      AcquireStep(s, c, now, ok, uuid).state ==
      if s1.hot != [] then AssignHot(s1, c, now)
      else if ok then Assign(Start(s1, uuid), c, |s1.procs|, uuid, now)
      else s1
  {
    PopHotIs(s.hot, s.alive);
    var (rest, got) := PopHot(s.hot, s.alive);
    assert s.(active := s.active - {c}) == s;
    assert rest == s.hot[..|rest|];
    if got.Some? {
      assert s.hot[..n][..|rest|] == rest;
    }
  }

  lemma AcquireNewKeepsInv(s: State, c: Conv, now: int, ok: bool, uuid: Sid)
    requires Inv(s) && c !in s.active && c !in s.sessions && uuid !in s.procs
    ensures Inv(AcquireStep(s, c, now, ok, uuid).state)
  {
    PopHotIs(s.hot, s.alive);
    var (rest, got) := PopHot(s.hot, s.alive);
    var n := |rest| + if got.Some? then 1 else 0;
    TrimHotKeepsInv(s, n);
    var s1 := s.(hot := s.hot[..n]);
    AcquireNewIs(s, c, now, ok, uuid, n);
    if s1.hot != [] {
      AssignHotKeepsInv(s1, c, now);
    } else if ok {
      StartAssignKeepsInv(s1, c, uuid, now);
    }
  }

  lemma MarkDeadKeepsInv(s: State, c: Conv)
    requires Inv(s)
    ensures Inv(MarkDeadStep(s, c))
  {
    if c in s.active {
      var t := MarkDeadStep(s, c);
      forall p | p in t.alive ensures p in ActiveProcs(t.active) || Spare(t, p) {
        if p in ActiveProcs(s.active) {
          var d :| d in s.active && s.active[d].proc == p;
          assert d in t.active && t.active[d].proc == p;
        } else {
          assert Spare(s, p);
        }
      }
    }
  }

  lemma KillAllKeepsInv(s: State)
    requires Inv(s)
    ensures Inv(KillAll(s)) && Inv(KillAll(s).(closed := true))
  {
    var t := KillAll(s);
    forall p | p in t.alive ensures Spare(t, p) && Spare(t.(closed := true), p) {
      assert Spare(s, p);
    }
  }

  lemma ReapKeepsInv(s: State)
    requires Inv(s)
    ensures Inv(ReapStep(s))
  {
    var t := ReapStep(s);
    LivingIs(s.hot, s.alive);
    LivingDistinct(s.hot, s.alive, s.procs);
    forall i | 0 <= i < |t.hot| ensures t.hot[i] in s.hot { assert t.hot[i] in t.hot; }
    forall p | p in t.alive ensures p in ActiveProcs(t.active) || Spare(t, p) {
      if p in ActiveProcs(s.active) {
        var d :| d in s.active && s.active[d].proc == p;
        assert d in t.active && t.active[d].proc == p;
      }
    }
  }

  lemma DieKeepsInv(s: State, p: ProcId)
    requires Inv(s)
    ensures Inv(s.(alive := s.alive - {p}))
  {
    var t := s.(alive := s.alive - {p});
    forall q | Spare(s, q) ensures Spare(t, q) {}
  }

  lemma WarmReadKeepsInv(s: State, w: nat)
    requires Inv(s) && w !in s.warm
    ensures Inv(WarmReadStep(s, w))
  {
    WarmReadSpare(s, w);
    WarmReadLeaksNothing(s, w);
  }

  lemma WarmReadSpare(s: State, w: nat)
    requires Inv(s) && w !in s.warm
    ensures SpareOk(WarmReadStep(s, w)) && SpareDistinct(WarmReadStep(s, w))
  {
    var t := WarmReadStep(s, w);
    forall v | v in t.warm && t.warm[v].held.Some? ensures v in s.warm && s.warm[v] == t.warm[v] {}
  }

  lemma WarmReadLeaksNothing(s: State, w: nat)
    requires NoLeak(s) && w !in s.warm
    ensures NoLeak(WarmReadStep(s, w))
  {
    var t := WarmReadStep(s, w);
    forall p | Spare(s, p) ensures Spare(t, p) {
      if p !in s.hot {
        var v :| v in s.warm && s.warm[v].held == Some(p);
        assert v in t.warm && t.warm[v].held == Some(p);
      }
    }
  }

  lemma WarmStartKeepsInv(s: State, w: nat, ok: bool, uuid: Sid)
    requires Inv(s) && w in s.warm && s.warm[w].held.None? && uuid !in s.procs
    ensures Inv(WarmStartStep(s, w, ok, uuid))
  {
    var t := WarmStartStep(s, w, ok, uuid);
    if ok {
      WarmStartSpare(s, w, uuid);
      assert SessionsOk(t) && ActiveOk(t) by {
        assert forall x :: x in s.procs ==> x in t.procs;
      }
    }
    forall p | p in t.alive ensures p in ActiveProcs(t.active) || Spare(t, p) {
      if ok && p == |s.procs| {
        assert w in t.warm && t.warm[w].held == Some(p);
      } else if Spare(s, p) && p !in s.hot {
        var v :| v in s.warm && s.warm[v].held == Some(p);
        assert v in t.warm && t.warm[v].held == Some(p);
      }
    }
  }

  lemma WarmStartSpare(s: State, w: nat, uuid: Sid)
    requires Inv(s) && w in s.warm && s.warm[w].held.None? && uuid !in s.procs
    ensures SpareOk(WarmStartStep(s, w, true, uuid)) && SpareDistinct(WarmStartStep(s, w, true, uuid))
  {
    var t := WarmStartStep(s, w, true, uuid);
    assert t.procs[|s.procs|] == uuid;
    forall i | 0 <= i < |s.hot| ensures t.procs[s.hot[i]] == s.procs[s.hot[i]] != uuid {
      assert s.procs[s.hot[i]] in s.procs;
    }
    forall v | v in s.warm && s.warm[v].held.Some?
      ensures var p := s.warm[v].held.value; t.warm[v] == s.warm[v] && t.procs[p] == s.procs[p] != uuid
    {
      assert s.procs[s.warm[v].held.value] in s.procs;
    }
  }

  lemma WarmFinishKeepsInv(s: State, w: nat)
    requires Inv(s) && Enabled(s, WarmFinish(w))
    ensures Inv(WarmFinishStep(s, w))
  {
    var t := WarmFinishStep(s, w);
    var p := s.warm[w].held.value;
    WarmFinishSpare(s, w);
    forall q | q in t.alive ensures q in ActiveProcs(t.active) || Spare(t, q) {
      if q == p {
        assert t.hot[|t.hot| - 1] == p;
      } else if Spare(s, q) && q !in s.hot {
        var v :| v in s.warm && s.warm[v].held == Some(q);
        assert v in t.warm && t.warm[v].held == Some(q);
      }
    }
  }

  lemma WarmFinishSpare(s: State, w: nat)
    requires Inv(s) && Enabled(s, WarmFinish(w))
    ensures SpareOk(WarmFinishStep(s, w)) && SpareDistinct(WarmFinishStep(s, w))
  {
    var t := WarmFinishStep(s, w);
    var p := s.warm[w].held.value;
    forall v | v in t.warm && t.warm[v].held.Some? ensures v in s.warm && v != w && t.warm[v] == s.warm[v] {}
    if !(s.closed || |s.hot| >= s.maxSize) {
      assert t.hot[|s.hot|] == p;
      forall i | 0 <= i < |s.hot| ensures t.hot[i] == s.hot[i] && s.procs[s.hot[i]] != s.procs[p] {}
    }
  }

  lemma StepKeepsInv(s: State, e: Event)
    requires Inv(s) && Enabled(s, e)
    ensures Inv(Step(s, e))
  {
    match e
    case Acquire(c, now, ok, uuid) => AcquireKeepsInv(s, c, now, ok, uuid);
    case Release(c, now) => if c in s.active { ReuseKeepsInv(s, c, now); }
    case MarkDead(c) => MarkDeadKeepsInv(s, c);
    case Shutdown => KillAllKeepsInv(s);
    case Cycle => KillAllKeepsInv(s);
    case ReapIdle => ReapKeepsInv(s);
    case Die(p) => DieKeepsInv(s, p);
    case WarmRead(w) => WarmReadKeepsInv(s, w);
    case WarmStart(w, ok, uuid) => WarmStartKeepsInv(s, w, ok, uuid);
    case WarmFinish(w) => WarmFinishKeepsInv(s, w);
  }

  // ---- whole runs ----

  lemma {:induction false} RunKeepsInv(s: State, run: seq<Event>)
    requires Inv(s) && Legal(s, run)
    ensures Inv(Exec(s, run))
    decreases |run|
  {
    if run != [] {
      StepKeepsInv(s, run[0]);
      RunKeepsInv(Step(s, run[0]), run[1..]);
    }
  }

  lemma ExecCons(s: State, e: Event, rest: seq<Event>)
    requires Enabled(s, e) && Legal(Step(s, e), rest)
    ensures Legal(s, [e] + rest) && Exec(s, [e] + rest) == Exec(Step(s, e), rest)
  {
    var run := [e] + rest;
    assert run[1..] == rest;
  }
}
