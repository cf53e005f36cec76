// Blue/green deployment of one plugin as a state machine: the plugin row, the
// monitor's unhealthy counter, and a log of what happened to its containers
// (kernel/internal/handlers/deploy.go, plugin_registration.go, health/monitor.go).
module CandidateModel {
  import opened Wrappers

  type ContainerId = string   // "" is "no container"
  type Time = nat             // seconds; 0 is the zero time

  const STALE_TIMEOUT: nat := 90
  const ROLLBACK_THRESHOLD: nat := 4

  datatype Row = Row(
    containerImages: seq<string>,   // images of the explicit container specs
    image: string, version: string, containerId: ContainerId,
    status: string, host: string, httpPort: int, lastSeen: Time,
    candidateContainerId: ContainerId, candidateImage: string, candidateVersion: string,
    candidateHost: string, candidatePort: int, candidateHealthy: bool,
    candidateDeployedAt: Time, candidateLastSeen: Time,
    previousImage: string, previousVersion: string)
  {
    predicate IsMetadataOnly() {
      image == "" && forall c :: c in containerImages ==> c == ""
    }

    function ClearCandidate(): Row {
      this.(candidateContainerId := "", candidateImage := "", candidateVersion := "", candidateHost := "",
            candidatePort := 0, candidateHealthy := false, candidateDeployedAt := 0, candidateLastSeen := 0)
    }

    // Where RouteToPlugin sends a request, if anywhere.
    function Route(): Option<(string, int)> {
      if status != "running" || host == "" then None else Some((host, httpPort))
    }
  }

  // What a candidate check found.
  datatype Outcome = Absent | Unknown | Fresh | Stale(rolledBack: bool)

  datatype State = State(
    row: Row,
    unhealthy: nat,             // the monitor's counter; no entry counts as 0
    hasRuntime: bool,
    started: set<ContainerId>,  // every container started for this plugin
    stopped: set<ContainerId>,  // every container id passed to StopPlugin
    checks: seq<Outcome>)       // completed candidate checks, oldest first

  datatype Response = Ok | BadRequest | Conflict | Unavailable | Failed

  // The outcome of starting a container is a parameter of the event.
  datatype Event =
    | Deploy(image: string, start: Option<ContainerId>, now: Time)
    | Promote(now: Time)
    | Rollback(start: Option<ContainerId>)
    | RegisterCandidate(host: string, port: int, version: string, now: Time)
    | RegisterPrimary(host: string, port: int, version: string, now: Time)
    | Heartbeat(candidate: bool, now: Time)
    | Deregister
    | Check(now: Time)

  function Stop(s: State, id: ContainerId): State {
    if id == "" then s else s.(stopped := s.stopped + {id})
  }

  function DeployStep(s: State, image: string, start: Option<ContainerId>, now: Time): (State, Response) {
    var r := s.row;
    if !s.hasRuntime then (s, Unavailable)
    else if r.IsMetadataOnly() then (s, BadRequest)
    else if r.candidateContainerId != "" then (s, Conflict)
    else if start.None? then (s, Failed)
    else
      (s.(row := r.(candidateContainerId := start.value, candidateImage := if image == "" then r.image else image,
                    candidateVersion := "", candidateHost := "", candidatePort := 0, candidateHealthy := false,
                    candidateDeployedAt := now, candidateLastSeen := 0),
          started := s.started + {start.value}), Ok)
  }

  function PromoteStep(s: State, now: Time): (State, Response) {
    var r := s.row;
    if r.candidateContainerId == "" || r.candidateHost == "" then (s, BadRequest)
    else
      var s1 := if s.hasRuntime then Stop(s, r.containerId) else s;
      (s1.(row := r.(previousImage := r.image, previousVersion := r.version,
                     containerId := r.candidateContainerId, image := r.candidateImage, version := r.candidateVersion,
                     host := r.candidateHost, httpPort := r.candidatePort, status := "running", lastSeen := now,
                     candidateContainerId := "", candidateImage := "", candidateVersion := "", candidateHost := "",
                     candidatePort := 0, candidateHealthy := false,
                     candidateDeployedAt := 0, candidateLastSeen := 0)), Ok)
  }

  function RollbackStep(s: State, start: Option<ContainerId>): (State, Response) {
    var r := s.row;
    if r.candidateContainerId == "" && r.previousImage == "" then (s, BadRequest)
    else if r.candidateContainerId != "" && r.previousImage == "" then
      ((if s.hasRuntime then Stop(s, r.candidateContainerId) else s).(row := r.ClearCandidate()), Ok)
    else if !s.hasRuntime then (s, Unavailable)
    else
      var s1 := Stop(Stop(s, r.containerId), r.candidateContainerId);
      match start
      case None => (s1.(row := r.(containerId := "", status := "error")), Failed)
      case Some(id) =>
        (s1.(row := r.ClearCandidate().(containerId := id, image := r.previousImage, version := r.previousVersion,
                                        status := "running", host := "", lastSeen := 0,
                                        previousImage := "", previousVersion := ""),
             started := s1.started + {id}), Ok)
  }

  function RegisterCandidateStep(s: State, host: string, port: int, version: string, now: Time): State {
    s.(row := s.row.(candidateHost := host, candidatePort := port, candidateHealthy := true, candidateLastSeen := now,
                     candidateVersion := if version != "" then version else s.row.candidateVersion))
  }

  function RegisterPrimaryStep(s: State, host: string, port: int, version: string, now: Time): State {
    s.(row := s.row.(host := host, httpPort := port, status := "running", lastSeen := now,
                     version := if version != "" then version else s.row.version))
  }

  function HeartbeatStep(s: State, candidate: bool, now: Time): State {
    if candidate then s.(row := s.row.(candidateLastSeen := now, candidateHealthy := true))
    else s.(row := s.row.(lastSeen := now, status := "running"))
  }

  function DeregisterStep(s: State): State {
    s.(row := s.row.(status := "stopped", host := ""))
  }

  function AutoRollbackStep(s: State): State {
    (if s.hasRuntime then Stop(s, s.row.candidateContainerId) else s).(row := s.row.ClearCandidate(), unhealthy := 0)
  }

  // What checkCandidates does to one plugin.
  function CheckStep(s: State, now: Time): State {
    var r := s.row;
    if r.candidateHost == "" then s.(unhealthy := 0, checks := s.checks + [Absent])
    else if r.candidateLastSeen == 0 then s.(checks := s.checks + [Unknown])
    else if now - r.candidateLastSeen > STALE_TIMEOUT then
      var s1 := s.(row := r.(candidateHealthy := false), unhealthy := s.unhealthy + 1);
      if s1.unhealthy >= ROLLBACK_THRESHOLD then AutoRollbackStep(s1).(checks := s.checks + [Stale(true)])
      else s1.(checks := s.checks + [Stale(false)])
    else s.(unhealthy := 0, checks := s.checks + [Fresh])
  }

  // Requests the handlers accept: a host is required, time does not stand at
  // zero, and a container that starts has an id not seen before.  Without a
  // container runtime the monitor does not run.
  ghost predicate Enabled(s: State, e: Event) {
    match e
    case Deploy(_, start, now) => now > 0 && (start.Some? ==> start.value != "" && start.value !in s.started)
    case Promote(now) => now > 0
    case Rollback(start) => start.Some? ==> start.value != "" && start.value !in s.started
    case RegisterCandidate(host, _, _, now) => host != "" && now > 0
    case RegisterPrimary(host, _, _, now) => host != "" && now > 0
    case Heartbeat(_, now) => now > 0
    case Deregister => true
    case Check(now) => s.hasRuntime && now > 0
  }

  function StepResponse(s: State, e: Event): (State, Response) {
    match e
    case Deploy(image, start, now) => DeployStep(s, image, start, now)
    case Promote(now) => PromoteStep(s, now)
    case Rollback(start) => RollbackStep(s, start)
    case RegisterCandidate(h, p, v, now) => (RegisterCandidateStep(s, h, p, v, now), Ok)
    case RegisterPrimary(h, p, v, now) => (RegisterPrimaryStep(s, h, p, v, now), Ok)
    case Heartbeat(c, now) => (HeartbeatStep(s, c, now), Ok)
    case Deregister => (DeregisterStep(s), Ok)
    case Check(now) => (CheckStep(s, now), Ok)
  }

  function Step(s: State, e: Event): State {
    StepResponse(s, e).0
  }

  function Exec(s: State, run: seq<Event>): State
    decreases |run|
  {
    if run == [] then s else Exec(Step(s, run[0]), run[1..])
  }

  ghost predicate Legal(s: State, run: seq<Event>)
    decreases |run|
  {
    run == [] || (Enabled(s, run[0]) && Legal(Step(s, run[0]), run[1..]))
  }

  // ---- noninterference ----

  // Everything in the row that does not belong to the candidate.
  predicate SamePrimary(a: Row, b: Row) {
    a.ClearCandidate() == b.ClearCandidate()
  }

  predicate CandidateEvent(e: Event) {
    e.Deploy? || e.Promote? || e.Rollback? || e.RegisterCandidate? || e.Check? || (e.Heartbeat? && e.candidate)
  }

  function Erase(run: seq<Event>): seq<Event> {
    if run == [] then []
    else (if CandidateEvent(run[0]) then [] else [run[0]]) + Erase(run[1..])
  }

  // An accepted promotion, and a rollback that goes through to the plugin in
  // service because a previous image is recorded.
  predicate Reaches(s: State, e: Event) {
    || (e.Promote? && StepResponse(s, e).1 == Ok)
    || (e.Rollback? && s.hasRuntime && s.row.previousImage != "")
  }

  ghost predicate NothingReaches(s: State, run: seq<Event>)
    decreases |run|
  {
    run == [] || (!Reaches(s, run[0]) && NothingReaches(Step(s, run[0]), run[1..]))
  }

  // Deploying, registering, checking, rolling back a candidate: as long as
  // nothing reaches the plugin in service, the rest of the row - and so every
  // routing decision - is what it would be had none of this happened.
  lemma {:induction false} CandidateDoesNotInterfere(s: State, t: State, run: seq<Event>)
    requires SamePrimary(s.row, t.row) && NothingReaches(s, run)
    ensures SamePrimary(Exec(s, run).row, Exec(t, Erase(run)).row)
    ensures Exec(s, run).row.Route() == Exec(t, Erase(run)).row.Route()
    decreases |run|
  {
    if run != [] {
      var e := run[0];
      PrimaryStep(s, t, e);
      if CandidateEvent(e) {
        assert Erase(run) == Erase(run[1..]);
        CandidateDoesNotInterfere(Step(s, e), t, run[1..]);
      } else {
        assert Erase(run)[0] == e && Erase(run)[1..] == Erase(run[1..]);
        CandidateDoesNotInterfere(Step(s, e), Step(t, e), run[1..]);
      }
    }
  }

  lemma PrimaryStep(s: State, t: State, e: Event)
    requires SamePrimary(s.row, t.row) && !Reaches(s, e)
    ensures SamePrimary(Step(s, e).row, if CandidateEvent(e) then t.row else Step(t, e).row)
  {
  }

  // No Promote of the run is accepted.
  ghost predicate NothingPromoted(s: State, run: seq<Event>)
    decreases |run|
  {
    run == [] || ((run[0].Promote? ==> StepResponse(s, run[0]).1 != Ok) && NothingPromoted(Step(s, run[0]), run[1..]))
  }

  // For a plugin without previous image it is enough that nothing is promoted.
  lemma {:induction false} NothingReachesWithoutPromotion(s: State, run: seq<Event>)
    requires s.row.previousImage == "" && NothingPromoted(s, run)
    ensures NothingReaches(s, run)
    decreases |run|
  {
    if run != [] { NothingReachesWithoutPromotion(Step(s, run[0]), run[1..]); }
  }

  // The condition on the previous image is needed: with one recorded, a
  // rollback reaches through to the plugin in service and takes it off the air.
  lemma RollbackAfterPromoteInterferes(s: State, start: Option<ContainerId>)
    requires s.hasRuntime && s.row.Route().Some?
    ensures Step(s, Rollback(start)).row.Route() == s.row.Route() <==> s.row.previousImage == ""
  {
  }

  // What a promotion is for: traffic moves to the host that has registered, and
  // the container deployed takes the place of the one in service.
  lemma PromoteRoutesToCandidate(s: State, now: Time)
    ensures var (t, resp) := PromoteStep(s, now);
      && (resp == Ok <==> s.row.candidateContainerId != "" && s.row.candidateHost != "")
      && (resp == Ok ==> t.row.Route() == Some((s.row.candidateHost, s.row.candidatePort))
                         && t.row.containerId == s.row.candidateContainerId && t.row.candidateContainerId == "")
      && (resp != Ok ==> resp == BadRequest && t == s)
  {
  }

  // No step of the run changes which host is registered for the candidate.
  ghost predicate HostStays(s: State, run: seq<Event>)
    decreases |run|
  {
    run == [] || (SameHost(s, Step(s, run[0])) && HostStays(Step(s, run[0]), run[1..]))
  }

  predicate SameHost(s: State, t: State) {
    t.row.candidateHost == s.row.candidateHost && t.row.candidatePort == s.row.candidatePort
  }

  lemma {:induction false} HostKept(s: State, run: seq<Event>)
    requires HostStays(s, run)
    ensures SameHost(s, Exec(s, run))
    decreases |run|
  {
    if run != [] { HostKept(Step(s, run[0]), run[1..]); }
  }

  // The host routed to is that of the last registration, whoever sent it.
  lemma LastRegistrationIsRoutedTo(
      s: State, host: string, port: int, version: string, seen: Time, run: seq<Event>, now: Time)
    requires HostStays(Step(s, RegisterCandidate(host, port, version, seen)), run)
    ensures var (t, resp) := PromoteStep(Exec(Step(s, RegisterCandidate(host, port, version, seen)), run), now);
      resp == Ok ==> t.row.Route() == Some((host, port))
  {
    HostKept(Step(s, RegisterCandidate(host, port, version, seen)), run);
  }

  // A registration does not say which container it comes from.  When a
  // candidate that has been rolled back registers late, its successor can be
  // promoted and the traffic goes to the host of the container stopped before.
  lemma PromotedContainerNeedNotBeRoutedTo(
      s: State, a: ContainerId, b: ContainerId, hostA: string, port: int, now: Time)
    requires s.hasRuntime && !s.row.IsMetadataOnly() && s.row.candidateContainerId == "" && s.row.previousImage == ""
    requires a != "" && b != "" && a != b && a !in s.started && b !in s.started && hostA != "" && now > 0
    ensures var run :=
        [Deploy("", Some(a), now), Rollback(None), Deploy("", Some(b), now), RegisterCandidate(hostA, port, "", now)];
      Legal(s, run) &&
      var (t, resp) := PromoteStep(Exec(s, run), now);
      resp == Ok && t.row.containerId == b && t.row.Route() == Some((hostA, port)) && a in t.stopped
  {
    var e1, e2 := Deploy("", Some(a), now), Rollback(None);
    var e3, e4 := Deploy("", Some(b), now), RegisterCandidate(hostA, port, "", now);
    var s1 := Step(s, e1);
    assert s1.row.candidateContainerId == a && s1.row.previousImage == "" && s1.started == s.started + {a};
    var s2 := Step(s1, e2);
    assert s2.row.candidateContainerId == "" && s2.row.image == s.row.image;
    assert a in s2.stopped && s2.started == s1.started;
    var s3 := Step(s2, e3);
    assert s3.row.candidateContainerId == b && a in s3.stopped;
    ExecFour(s, e1, e2, e3, e4);
    LegalFour(s, e1, e2, e3, e4);
  }

  // ---- conservation of containers ----

  function Recorded(r: Row): set<ContainerId> {
    {r.containerId, r.candidateContainerId} - {""}
  }

  // What is recorded or was stopped has been started, and the two slots never
  // name the same container.
  ghost predicate SlotsOk(s: State) {
    && Recorded(s.row) + s.stopped <= s.started
    && (s.row.containerId == s.row.candidateContainerId ==> s.row.containerId == "")
  }

  // Besides, what has been started is recorded or was stopped.
  ghost predicate ContainersOk(s: State) {
    SlotsOk(s) && s.started <= Recorded(s.row) + s.stopped
  }

  lemma StepKeepsSlots(s: State, e: Event)
    requires SlotsOk(s) && Enabled(s, e)
    ensures SlotsOk(Step(s, e)) && Step(s, e).hasRuntime == s.hasRuntime
  {
  }

  // The container that leaves the row in a step.
  function Leaving(s: State, e: Event): ContainerId {
    match e
    case Promote(now) => if PromoteStep(s, now).1 == Ok then s.row.containerId else ""
    case Rollback(_) => if s.row.previousImage == "" then s.row.candidateContainerId else ""
    case _ => ""
  }

  // A kernel without a container runtime drops a running container's id.
  predicate Abandons(s: State, e: Event) {
    !s.hasRuntime && Leaving(s, e) != "" && Leaving(s, e) !in s.stopped
  }

  // A step loses track of a container exactly if it abandons one.
  lemma StepKeepsContainers(s: State, e: Event)
    requires ContainersOk(s) && Enabled(s, e)
    ensures ContainersOk(Step(s, e)) <==> !Abandons(s, e)
  {
    StepKeepsSlots(s, e);
    var x := Leaving(s, e);
    if x != "" {
      assert x in Recorded(s.row) && x in s.started;
      assert x !in Recorded(Step(s, e).row);
    }
  }

  ghost predicate NothingAbandoned(s: State, run: seq<Event>)
    decreases |run|
  {
    run == [] || (!Abandons(s, run[0]) && NothingAbandoned(Step(s, run[0]), run[1..]))
  }

  // Started, but neither recorded nor stopped.
  predicate Lost(s: State, c: ContainerId) {
    c in s.started && c !in Recorded(s.row) && c !in s.stopped
  }

  lemma {:induction false} LostForGood(s: State, run: seq<Event>, c: ContainerId)
    requires SlotsOk(s) && Legal(s, run) && Lost(s, c)
    ensures Lost(Exec(s, run), c)
    decreases |run|
  {
    if run != [] {
      StepKeepsSlots(s, run[0]);
      StaysLost(s, run[0], c);
      LostForGood(Step(s, run[0]), run[1..], c);
    }
  }

  lemma StaysLost(s: State, e: Event, c: ContainerId)
    requires SlotsOk(s) && Enabled(s, e) && Lost(s, c)
    ensures Lost(Step(s, e), c)
  {}

  // Nothing is recorded or stopped that was not started, and the two slots
  // never name the same container.  Every container ever started is still
  // recorded in the row or was stopped exactly if no step of the run abandons
  // one, and with a container runtime none does.
  lemma {:induction false} NoContainerIsLost(s: State, run: seq<Event>)
    requires ContainersOk(s) && Legal(s, run)
    ensures SlotsOk(Exec(s, run))
    ensures NothingAbandoned(s, run) <==> ContainersOk(Exec(s, run))
    ensures s.hasRuntime ==> NothingAbandoned(s, run)
    decreases |run|
  {
    SlotsStayOk(s, run);
    if run != [] {
      var t := Step(s, run[0]);
      StepKeepsSlots(s, run[0]);
      StepKeepsContainers(s, run[0]);
      if Abandons(s, run[0]) {
        var c := Leaving(s, run[0]);
        assert c in Recorded(s.row);
        LostForGood(t, run[1..], c);
      } else {
        NoContainerIsLost(t, run[1..]);
      }
    }
  }

  lemma {:induction false} SlotsStayOk(s: State, run: seq<Event>)
    requires SlotsOk(s) && Legal(s, run)
    ensures SlotsOk(Exec(s, run))
    decreases |run|
  {
    if run != [] {
      StepKeepsSlots(s, run[0]);
      SlotsStayOk(Step(s, run[0]), run[1..]);
    }
  }

  // Deploy never takes over an occupied candidate slot.
  lemma DeployNeedsEmptySlot(s: State, image: string, start: Option<ContainerId>, now: Time)
    requires s.row.candidateContainerId != ""
    ensures DeployStep(s, image, start, now).0 == s && DeployStep(s, image, start, now).1 != Ok
  {
  }

  // No container named in the row has been stopped.
  ghost predicate RecordedAreRunning(s: State) {
    Recorded(s.row) !! s.stopped
  }

  // A rollback of a promotion that fails to start the previous image, with a
  // candidate deployed: the candidate is stopped but stays in its slot.
  predicate LeavesStoppedCandidate(s: State, e: Event) {
    s.hasRuntime && e.Rollback? && e.start.None? && s.row.previousImage != "" && s.row.candidateContainerId != ""
  }

  // That is the only event after which the row names a stopped container.
  lemma OnlyFailedRollbackRecordsStopped(s: State, e: Event)
    requires SlotsOk(s) && RecordedAreRunning(s) && Enabled(s, e)
    ensures RecordedAreRunning(Step(s, e)) <==> !LeavesStoppedCandidate(s, e)
  {
    if LeavesStoppedCandidate(s, e) {
      assert s.row.candidateContainerId in Recorded(Step(s, e).row) && s.row.candidateContainerId in Step(s, e).stopped;
    }
  }

  ghost predicate NoFailedRollback(s: State, run: seq<Event>)
    decreases |run|
  {
    run == [] || (!LeavesStoppedCandidate(s, run[0]) && NoFailedRollback(Step(s, run[0]), run[1..]))
  }

  lemma {:induction false} RunningUnlessRollbackFails(s: State, run: seq<Event>)
    requires SlotsOk(s) && RecordedAreRunning(s) && Legal(s, run) && NoFailedRollback(s, run)
    ensures RecordedAreRunning(Exec(s, run))
    decreases |run|
  {
    if run != [] {
      StepKeepsSlots(s, run[0]);
      OnlyFailedRollbackRecordsStopped(s, run[0]);
      RunningUnlessRollbackFails(Step(s, run[0]), run[1..]);
    }
  }

  // After such a failure the candidate can still be promoted exactly if it had
  // registered: the plugin is then routed to a container that was stopped.
  lemma StoppedCandidateCanBePromoted(s: State, now: Time)
    requires SlotsOk(s) && s.hasRuntime && s.row.candidateContainerId != "" && s.row.previousImage != ""
    ensures var failed := Step(s, Rollback(None));
      var (t, response) := PromoteStep(failed, now);
      && (response == Ok <==> s.row.candidateHost != "")
      && (response == Ok ==>
            t.row.containerId in failed.stopped && t.row.containerId in t.stopped && t.row.Route().Some?)
  {
  }

  // From a row without candidate: promote a, deploy and register b, fail to go
  // back, promote b.  Traffic goes to b, which was stopped in between.
  function UnluckyRun(a: ContainerId, b: ContainerId, host: string, port: int, now: Time): seq<Event> {
    [Deploy("", Some(a), now), RegisterCandidate(host, port, "", now), Promote(now),
     Deploy("", Some(b), now), RegisterCandidate(host, port, "", now), Rollback(None), Promote(now)]
  }

  // A candidate c is registered in the slot and i is the image in service.
  predicate Ready(s: State, c: ContainerId, host: string, i: string) {
    && s.hasRuntime && s.row.candidateContainerId == c && s.row.candidateHost == host
    && s.row.candidateImage == s.row.image == i
  }

  lemma DeployAndRegister(s: State, c: ContainerId, host: string, port: int, now: Time, rest: seq<Event>)
    requires s.hasRuntime && s.row.image != "" && s.row.candidateContainerId == ""
    requires c != "" && c !in s.started && host != "" && now > 0
    ensures var e1, e2 := Deploy("", Some(c), now), RegisterCandidate(host, port, "", now);
      var t := Step(Step(s, e1), e2);
      && Ready(t, c, host, s.row.image) && t.started == s.started + {c} && t.stopped == s.stopped
      && t.row.containerId == s.row.containerId && t.row.previousImage == s.row.previousImage
      && (Legal(t, rest) ==> Legal(s, [e1, e2] + rest) && Exec(s, [e1, e2] + rest) == Exec(t, rest))
  {
    var e1, e2 := Deploy("", Some(c), now), RegisterCandidate(host, port, "", now);
    var t := Step(Step(s, e1), e2);
    if Legal(t, rest) {
      ExecCons(Step(s, e1), e2, rest);
      ExecCons(s, e1, [e2] + rest);
      assert [e1, e2] + rest == [e1] + ([e2] + rest);
    }
  }

  lemma ExecCons(s: State, e: Event, rest: seq<Event>)
    requires Enabled(s, e) && Legal(Step(s, e), rest)
    ensures Legal(s, [e] + rest) && Exec(s, [e] + rest) == Exec(Step(s, e), rest)
  {
    assert ([e] + rest)[1..] == rest;
  }

  lemma FailedRollbackIsReached(s: State, a: ContainerId, b: ContainerId, host: string, port: int, now: Time)
    requires s.hasRuntime && s.row.image != "" && s.row.candidateContainerId == "" && s.row.previousImage == ""
    requires a != "" && b != "" && a != b && a !in s.started && b !in s.started && host != "" && now > 0
    ensures var run := UnluckyRun(a, b, host, port, now);
      Legal(s, run) &&
      var t := Exec(s, run);
      t.row.containerId == b && b in t.stopped && t.row.Route() == Some((host, port))
  {
    var deployB, registerB := Deploy("", Some(b), now), RegisterCandidate(host, port, "", now);
    var tail := [Rollback(None), Promote(now)];
    var later := [Promote(now)] + ([deployB, registerB] + tail);
    DeployAndRegister(s, a, host, port, now, later);
    var s2 := Step(Step(s, Deploy("", Some(a), now)), registerB);
    var s3 := Step(s2, Promote(now));
    assert s3.row.image == s2.row.image && s3.row.previousImage == s2.row.image && s3.row.candidateContainerId == "";
    DeployAndRegister(s3, b, host, port, now, tail);
    var s5 := Step(Step(s3, deployB), registerB);
    var s6 := Step(s5, Rollback(None));
    assert b in s6.stopped && s6.row.candidateContainerId == b;
    assert s6.row.candidateHost == host && s6.row.candidatePort == port;
    ExecCons(s6, Promote(now), []);
    ExecCons(s5, Rollback(None), [Promote(now)]);
    assert [Promote(now)] + [] == [Promote(now)] && [Rollback(None)] + [Promote(now)] == tail;
    ExecCons(s2, Promote(now), [deployB, registerB] + tail);
    assert UnluckyRun(a, b, host, port, now) == [Deploy("", Some(a), now), registerB] + later;
  }

  // ---- promote, then roll back ----

  // No promotion and no rollback of the run is accepted.
  ghost predicate Quiet(s: State, run: seq<Event>)
    decreases |run|
  {
    run == []
    || ((run[0].Promote? || run[0].Rollback? ==> StepResponse(s, run[0]).1 != Ok) && Quiet(Step(s, run[0]), run[1..]))
  }

  lemma {:induction false} PreviousSurvives(s: State, run: seq<Event>)
    requires Quiet(s, run)
    ensures Exec(s, run).row.previousImage == s.row.previousImage
    ensures Exec(s, run).row.previousVersion == s.row.previousVersion
    ensures Exec(s, run).hasRuntime == s.hasRuntime
    decreases |run|
  {
    if run != [] { PreviousSurvives(Step(s, run[0]), run[1..]); }
  }

  // Whatever happens between a promotion and the next accepted rollback -
  // deployments, registrations, heartbeats, automatic rollbacks, rejected
  // requests - the rollback restores the image and version in service before
  // the promotion and leaves neither a candidate nor a previous version.
  lemma RollbackUndoesPromote(s: State, now: Time, run: seq<Event>, id: ContainerId)
    requires s.row.image != "" && s.hasRuntime && PromoteStep(s, now).1 == Ok
    requires Quiet(PromoteStep(s, now).0, run)
    ensures var (t, resp) := RollbackStep(Exec(PromoteStep(s, now).0, run), Some(id));
      && resp == Ok
      && t.row.image == s.row.image && t.row.version == s.row.version && t.row.containerId == id
      && t.row.previousImage == "" && t.row.previousVersion == ""
      && t.row == t.row.ClearCandidate()
  {
    PreviousSurvives(PromoteStep(s, now).0, run);
  }

  // A plugin without an image of its own (its images are in container specs)
  // cannot be brought back: right after a promotion, rollback is accepted
  // exactly when the image was not empty.
  lemma RollbackNeedsAnImage(s: State, now: Time, id: ContainerId)
    requires s.hasRuntime && PromoteStep(s, now).1 == Ok
    ensures RollbackStep(PromoteStep(s, now).0, Some(id)).1 == Ok <==> s.row.image != ""
  {
  }

  // ---- automatic rollback ----

  // How many checks in a row, counting back from the last, found the candidate
  // stale without rolling it back.
  function StaleRun(checks: seq<Outcome>): nat {
    if checks != [] && checks[|checks| - 1] == Stale(false) then 1 + StaleRun(checks[..|checks| - 1]) else 0
  }

  ghost predicate CounterOk(s: State) {
    && (s.row.candidateHost != "" ==> s.row.candidateLastSeen != 0)
    && s.unhealthy == StaleRun(s.checks)
    && s.unhealthy < ROLLBACK_THRESHOLD
  }

  lemma StepKeepsCounter(s: State, e: Event)
    requires CounterOk(s) && Enabled(s, e)
    ensures CounterOk(Step(s, e))
  {
    match e
    case Check(now) => CheckKeepsCounter(s, now);
    case _ =>
  }

  lemma CheckKeepsCounter(s: State, now: Time)
    requires CounterOk(s)
    ensures CounterOk(CheckStep(s, now))
  {
    StaleRunSnoc(s.checks, OutcomeOf(s, now));
  }

  // What a check of a registered candidate, or of none, finds.
  function OutcomeOf(s: State, now: Time): Outcome {
    if s.row.candidateHost == "" then Absent
    else if s.row.candidateLastSeen == 0 then Unknown
    else if now - s.row.candidateLastSeen > STALE_TIMEOUT then Stale(s.unhealthy + 1 >= ROLLBACK_THRESHOLD)
    else Fresh
  }

  lemma StaleRunSnoc(checks: seq<Outcome>, o: Outcome)
    ensures StaleRun(checks + [o]) == if o == Stale(false) then 1 + StaleRun(checks) else 0
  {
    assert (checks + [o])[..|checks|] == checks;
  }

  // In every reachable state a registered candidate has been seen, and the
  // counter is the number of stale checks in a row.
  lemma {:induction false} CounterIsHistory(s: State, run: seq<Event>)
    requires CounterOk(s) && Legal(s, run)
    ensures CounterOk(Exec(s, run))
    decreases |run|
  {
    if run != [] {
      StepKeepsCounter(s, run[0]);
      CounterIsHistory(Step(s, run[0]), run[1..]);
    }
  }

  lemma {:induction false} StaleRunIs(checks: seq<Outcome>, n: nat)
    ensures StaleRun(checks) >= n
      <==> n <= |checks| && forall i :: |checks| - n <= i < |checks| ==> checks[i] == Stale(false)
  {
    if n > 0 && checks != [] && checks[|checks| - 1] == Stale(false) {
      var init := checks[..|checks| - 1];
      StaleRunIs(init, n - 1);
      if n <= |checks| && forall i :: |checks| - n <= i < |checks| ==> checks[i] == Stale(false) {
        forall i | |init| - (n - 1) <= i < |init| ensures init[i] == Stale(false) {
          assert init[i] == checks[i];
        }
      }
    }
  }

  predicate FoundStale(s: State, now: Time) {
    s.row.candidateHost != "" && now - s.row.candidateLastSeen > STALE_TIMEOUT
  }

  predicate LastThreeStale(checks: seq<Outcome>) {
    var n := |checks|;
    n >= 3 && checks[n - 3] == checks[n - 2] == checks[n - 1] == Stale(false)
  }

  lemma CounterIsThree(s: State)
    requires CounterOk(s)
    ensures s.unhealthy == 3 <==> LastThreeStale(s.checks)
  {
    StaleRunIs(s.checks, 3);
    var n := |s.checks|;
    if LastThreeStale(s.checks) {
      assert forall i :: n - 3 <= i < n ==> s.checks[i] == Stale(false);
    }
  }

  lemma CheckOutcome(s: State, now: Time)
    requires CounterOk(s)
    ensures var t := CheckStep(s, now);
      && (t.checks == s.checks + [Stale(true)] <==> FoundStale(s, now) && s.unhealthy == 3)
      && (t.checks == s.checks + [Stale(true)] ==> t == AutoRollbackStep(s).(checks := t.checks))
      && (t.checks != s.checks + [Stale(true)] ==>
            t.stopped == s.stopped && t.row == s.row.(candidateHealthy := t.row.candidateHealthy))
  {
    var t := CheckStep(s, now);
    var n := |s.checks|;
    assert t.checks == s.checks + [t.checks[n]];
    assert (s.checks + [Stale(true)])[n] == Stale(true);
  }

  // In a reachable state a check rolls the candidate back exactly when it finds
  // it stale for the fourth time running; the rest of the row is untouched.
  lemma AutoRollbackAfterFourStaleChecks(s0: State, run: seq<Event>, now: Time)
    requires CounterOk(s0) && Legal(s0, run) && now > 0
    ensures var s := Exec(s0, run);
      var t := Step(s, Check(now));
      && (t.checks == s.checks + [Stale(true)] <==> FoundStale(s, now) && LastThreeStale(s.checks))
      && (t.checks == s.checks + [Stale(true)] ==>
            t.row == s.row.ClearCandidate() && t.unhealthy == 0
            && (s.hasRuntime && s.row.candidateContainerId != "" ==> s.row.candidateContainerId in t.stopped))
      && (t.checks != s.checks + [Stale(true)] ==>
            t.stopped == s.stopped && t.row == s.row.(candidateHealthy := t.row.candidateHealthy))
  {
    CounterIsHistory(s0, run);
    CounterIsThree(Exec(s0, run));
    CheckOutcome(Exec(s0, run), now);
  }

  // Nothing is heard of the candidate, seen last at the given time: there are
  // only checks, all of them too late, and events of the plugin in service.
  predicate Unattended(run: seq<Event>, seen: Time) {
    forall e :: e in run ==>
      || (e.Check? && e.now - seen > STALE_TIMEOUT)
      || e.RegisterPrimary? || e.Deregister? || (e.Heartbeat? && !e.candidate)
  }

  function Checks(run: seq<Event>): nat {
    if run == [] then 0 else (if run[0].Check? then 1 else 0) + Checks(run[1..])
  }

  lemma {:induction false} GoneStaysGone(s: State, run: seq<Event>, seen: Time)
    requires Unattended(run, seen) && s.row.candidateHost == ""
    ensures Exec(s, run).row.candidateHost == ""
    decreases |run|
  {
    if run != [] {
      assert run[0] in run;
      GoneStaysGone(Step(s, run[0]), run[1..], seen);
    }
  }

  // A registered candidate that falls silent outlives exactly as many stale
  // checks as the counter leaves it.
  lemma {:induction false} SilentCandidateSurvives(s: State, run: seq<Event>)
    requires CounterOk(s) && s.row.candidateHost != "" && Unattended(run, s.row.candidateLastSeen)
    ensures var t := Exec(s, run);
      && (t.row.candidateHost != "" <==> Checks(run) + s.unhealthy < ROLLBACK_THRESHOLD)
      && (t.row.candidateHost != "" ==>
            && t.unhealthy == Checks(run) + s.unhealthy
            && t.row.candidateLastSeen == s.row.candidateLastSeen && CounterOk(t))
    decreases |run|
  {
    if run != [] {
      var e := run[0];
      assert e in run;
      var t := Step(s, e);
      SilentStep(s, e);
      if t.row.candidateHost == "" {
        GoneStaysGone(t, run[1..], s.row.candidateLastSeen);
      } else {
        SilentCandidateSurvives(t, run[1..]);
      }
    }
  }

  lemma SilentStep(s: State, e: Event)
    requires CounterOk(s) && s.row.candidateHost != "" && Unattended([e], s.row.candidateLastSeen)
    ensures var t := Step(s, e); var n := s.unhealthy + if e.Check? then 1 else 0;
      && CounterOk(t)
      && (t.row.candidateHost != "" <==> n < ROLLBACK_THRESHOLD)
      && (t.row.candidateHost != "" ==> t.unhealthy == n && t.row.candidateLastSeen == s.row.candidateLastSeen)
  {
    assert e in [e];
    if e.Check? { CheckKeepsCounter(s, e.now); }
  }

  // So of the checks that find it stale, the one that rolls it back is the one
  // that brings the counter to four.
  lemma RolledBackByTheCheckThat(s: State, run: seq<Event>, now: Time)
    requires CounterOk(s) && s.row.candidateHost != "" && Unattended(run, s.row.candidateLastSeen)
    requires now - s.row.candidateLastSeen > STALE_TIMEOUT && Checks(run) + s.unhealthy < ROLLBACK_THRESHOLD
    ensures var t := Exec(s, run);
      Step(t, Check(now)).checks == t.checks + [Stale(true)] <==> Checks(run) == 3 - s.unhealthy
  {
    SilentCandidateSurvives(s, run);
    var t := Exec(s, run);
    assert (t.checks + [Stale(true)])[|t.checks|] == Stale(true);
    assert (t.checks + [Stale(false)])[|t.checks|] == Stale(false);
  }

  // n checks a second after the heartbeat of time `seen` has become stale.
  function LateChecks(n: nat, seen: Time): seq<Event> {
    if n == 0 then [] else [Check(seen + STALE_TIMEOUT + 1)] + LateChecks(n - 1, seen)
  }

  lemma {:induction false} LateChecksAre(n: nat, seen: Time)
    ensures Unattended(LateChecks(n, seen), seen) && Checks(LateChecks(n, seen)) == n
  {
    if n > 0 {
      LateChecksAre(n - 1, seen);
      assert LateChecks(n, seen)[1..] == LateChecks(n - 1, seen);
    }
  }

  ghost predicate Outlives(t: State, run: seq<Event>) {
    Exec(t, run).row.candidateHost != ""
  }

  // The counter belongs to the plugin, not to the candidate.  A candidate that
  // registers gets four stale checks of its own exactly if the last check
  // before did not count against a candidate.
  lemma NewCandidateInheritsCounter(s: State, host: string, port: int, version: string, now: Time)
    requires CounterOk(s) && host != "" && now > 0
    ensures var t := Step(s, RegisterCandidate(host, port, version, now));
      (forall run :: Unattended(run, now) ==> (Outlives(t, run) <==> Checks(run) < ROLLBACK_THRESHOLD))
      <==> s.unhealthy == 0
    ensures s.unhealthy == 0 <==> s.checks == [] || s.checks[|s.checks| - 1] != Stale(false)
  {
    var t := Step(s, RegisterCandidate(host, port, version, now));
    forall run | Unattended(run, now)
      ensures Outlives(t, run) <==> Checks(run) + s.unhealthy < ROLLBACK_THRESHOLD
    {
      SilentCandidateSurvives(t, run);
    }
    var last := LateChecks(3, now);
    LateChecksAre(3, now);
    assert Outlives(t, last) <==> s.unhealthy == 0;
  }

  // And it can: a candidate that replaces one with three stale checks behind
  // it, and registers before the next check, is rolled back by the first check
  // that finds it stale.
  lemma CounterOutlivesTheCandidate(s: State, image: string, id: ContainerId, host: string, port: int, now: Time)
    requires CounterOk(s) && s.unhealthy == 3 && s.hasRuntime && !s.row.IsMetadataOnly()
    requires s.row.candidateContainerId != "" && s.row.previousImage == ""
    requires host != "" && now > 0 && id != "" && id !in s.started
    ensures var run :=
        [Rollback(None), Deploy(image, Some(id), now), RegisterCandidate(host, port, "", now), Check(now + 91)];
      var t := Exec(s, run);
      && t.checks == s.checks + [Stale(true)] && id in t.stopped
  {
    var s1 := Step(s, Rollback(None));
    assert s1.row == s.row.ClearCandidate() && s1.unhealthy == 3 && s1.checks == s.checks;
    var s2 := Step(s1, Deploy(image, Some(id), now));
    assert s2.row.candidateContainerId == id && s2.unhealthy == 3 && s2.checks == s.checks;
    var s3 := Step(s2, RegisterCandidate(host, port, "", now));
    assert s3.row.candidateContainerId == id && s3.row.candidateHost == host && s3.row.candidateLastSeen == now;
    assert s3.unhealthy == 3 && s3.checks == s.checks && s3.hasRuntime;
    ExecFour(s, Rollback(None), Deploy(image, Some(id), now), RegisterCandidate(host, port, "", now), Check(now + 91));
  }

  lemma LegalFour(s: State, a: Event, b: Event, c: Event, d: Event)
    requires Enabled(s, a) && Enabled(Step(s, a), b) && Enabled(Step(Step(s, a), b), c)
    requires Enabled(Step(Step(Step(s, a), b), c), d)
    ensures Legal(s, [a, b, c, d])
  {
    var s1 := Step(s, a);
    var s2 := Step(s1, b);
    assert [a, b, c, d][1..] == [b, c, d] && [b, c, d][1..] == [c, d] && [c, d][1..] == [d] && [d][1..] == [];
    assert Legal(Step(s2, c), [d]);
    assert Legal(s2, [c, d]);
    assert Legal(s1, [b, c, d]);
  }

  lemma ExecFour(s: State, a: Event, b: Event, c: Event, d: Event)
    ensures Exec(s, [a, b, c, d]) == Step(Step(Step(Step(s, a), b), c), d)
  {
    var s1 := Step(s, a);
    var s2 := Step(s1, b);
    assert [a, b, c, d][1..] == [b, c, d] && [b, c, d][1..] == [c, d] && [c, d][1..] == [d];
    assert Exec(s2, [c, d]) == Exec(Step(s2, c), [d]) == Step(Step(s2, c), d);
    assert Exec(s, [a, b, c, d]) == Exec(s1, [b, c, d]) == Exec(s2, [c, d]);
  }
}
