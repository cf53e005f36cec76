// What a deployment comes to over a whole run: promoted, rolled back, kept
// alive by its heartbeats; and where a plugin is routed to meanwhile.
module CandidateRuns {
  import opened Wrappers
  import opened CandidateModel

  lemma {:induction false} ExecSnoc(s: State, run: seq<Event>, e: Event)
    ensures Exec(s, run + [e]) == Step(Exec(s, run), e)
    decreases |run|
  {
    if run == [] {
      assert [] + [e] == [e] && [e][1..] == [];
    } else {
      assert (run + [e])[1..] == run[1..] + [e];
      ExecSnoc(Step(s, run[0]), run[1..], e);
    }
  }

  // ---- the candidate's columns ----

  predicate SlotEmpty(r: Row) {
    && r.candidateContainerId == r.candidateImage == r.candidateVersion == r.candidateHost == ""
    && r.candidatePort == 0 && !r.candidateHealthy && r.candidateDeployedAt == r.candidateLastSeen == 0
  }

  // Clearing the candidate empties all of its columns and touches no other.
  lemma EmptySlotIs(r: Row)
    ensures r == r.ClearCandidate() <==> SlotEmpty(r)
    ensures SlotEmpty(r.ClearCandidate())
  {
  }

  // ---- deploy, register, promote ----

  function BlueGreen(image: string, c: ContainerId, host: string, port: int, version: string, now: Time): seq<Event> {
    [Deploy(image, Some(c), now), RegisterCandidate(host, port, version, now), Promote(now)]
  }

  lemma ExecThree(s: State, a: Event, b: Event, c: Event)
    ensures Exec(s, [a, b, c]) == Step(Step(Step(s, a), b), c)
  {
    assert [a, b, c][1..] == [b, c] && [b, c][1..] == [c] && [c][1..] == [];
    assert Exec(Step(s, a), [b, c]) == Exec(Step(Step(s, a), b), [c]);
  }

  // The row after a blue/green deployment from a row without candidate: the
  // container, image, version and host deployed are those in service, the image
  // and version before are on record, the slot is empty, and the container that
  // was in service has been stopped.  Nothing else has changed.
  lemma BlueGreenReplaces(s: State, image: string, c: ContainerId, host: string, port: int, version: string, now: Time)
    requires s.hasRuntime && !s.row.IsMetadataOnly() && s.row == s.row.ClearCandidate()
    requires c != "" && c !in s.started && host != "" && now > 0
    ensures var t := Exec(s, BlueGreen(image, c, host, port, version, now));
      && t.row == s.row.(
           containerId := c, image := if image == "" then s.row.image else image, version := version,
           host := host, httpPort := port, status := "running", lastSeen := now,
           previousImage := s.row.image, previousVersion := s.row.version)
      && t.started == s.started + {c} && t.stopped == s.stopped + ({s.row.containerId} - {""})
  {
    ExecThree(s, Deploy(image, Some(c), now), RegisterCandidate(host, port, version, now), Promote(now));
    var s1 := Step(s, Deploy(image, Some(c), now));
    assert s1.row.candidateContainerId == c && s1.started == s.started + {c};
    var s2 := Step(s1, RegisterCandidate(host, port, version, now));
    assert s2.row.candidateHost == host && s2.row.candidateVersion == version && s2.stopped == s.stopped;
  }

  // And from any row: a promotion that is accepted moves every column of the
  // candidate that has a counterpart, and puts the old image and version away.
  lemma PromotionMovesTheCandidate(s: State, now: Time)
    requires PromoteStep(s, now).1 == Ok
    ensures var r, t := s.row, PromoteStep(s, now).0;
      && (t.row.image, t.row.version) == (r.candidateImage, r.candidateVersion)
      && (t.row.previousImage, t.row.previousVersion) == (r.image, r.version)
      && t.row == t.row.ClearCandidate()
      && (s.hasRuntime && r.containerId != "" ==> r.containerId in t.stopped)
  {
  }

  // ---- deploy, roll back ----

  predicate OnlyCandidate(run: seq<Event>) {
    forall e :: e in run ==> CandidateEvent(e)
  }

  lemma {:induction false} NothingIsLeft(run: seq<Event>)
    requires OnlyCandidate(run)
    ensures Erase(run) == []
  {
    if run != [] {
      assert run[0] in run;
      NothingIsLeft(run[1..]);
    }
  }

  // Whatever is done to candidates of a plugin that was never promoted - any
  // number of deployments, registrations, heartbeats, checks and rollbacks -
  // when the slot is occupied a rollback gives back the very row there was.
  lemma RollbackUndoesDeploy(s: State, run: seq<Event>, start: Option<ContainerId>)
    requires s.row == s.row.ClearCandidate() && s.row.previousImage == ""
    requires OnlyCandidate(run) && NothingReaches(s, run)
    ensures var t := Exec(s, run); var (u, response) := RollbackStep(t, start);
      && (response == Ok <==> t.row.candidateContainerId != "")
      && (response == Ok ==> u.row == s.row && (t.hasRuntime ==> t.row.candidateContainerId in u.stopped))
      && (response != Ok ==> response == BadRequest && u == t)
  {
    NothingIsLeft(run);
    CandidateDoesNotInterfere(s, s, run);
    var t := Exec(s, run);
    assert Exec(s, []) == s;
    assert t.row.ClearCandidate() == s.row;
    assert t.row.previousImage == t.row.ClearCandidate().previousImage;
  }

  // What a rollback of a promotion leaves: a new container of the previous
  // image that is not routed to until it registers, and both containers named
  // before stopped.  Without a container runtime it is refused.
  lemma RollbackStartsAfresh(s: State, id: ContainerId, host: string, port: int, version: string, now: Time)
    requires s.row.previousImage != "" && host != ""
    ensures var (t, response) := RollbackStep(s, Some(id));
      && (response == Ok <==> s.hasRuntime) && (response != Ok ==> response == Unavailable && t == s)
      && (response == Ok ==>
            && t.row.containerId == id && (t.row.image, t.row.version) == (s.row.previousImage, s.row.previousVersion)
            && t.row == t.row.ClearCandidate() && t.row.previousImage == t.row.previousVersion == ""
            && t.row.Route() == None && t.row.lastSeen == 0
            && Step(t, RegisterPrimary(host, port, version, now)).row.Route() == Some((host, port))
            && t.stopped == s.stopped + Recorded(s.row) && t.started == s.started + {id})
  {
  }

  // When the previous image does not start, the plugin is off the air but can
  // be rolled back again.
  lemma FailedRollbackCanBeRetried(s: State, id: ContainerId)
    requires s.hasRuntime && s.row.previousImage != ""
    ensures var (t, response) := RollbackStep(s, None);
      && response == Failed && t.row.Route() == None && t.row.status == "error" && t.row.containerId == ""
      && RollbackStep(t, Some(id)).1 == Ok && RollbackStep(t, Some(id)).0.row == RollbackStep(s, Some(id)).0.row
  {
  }

  // ---- replies ----

  predicate HasNoImage(r: Row) {
    r.image == "" && forall c :: c in r.containerImages ==> c == ""
  }

  // A deployment is refused for want of a runtime, for a plugin without any
  // image, for an occupied slot, and when the container does not start, in this
  // order; a refusal changes nothing.
  lemma DeployReplies(s: State, image: string, start: Option<ContainerId>, now: Time)
    ensures var (t, response) := DeployStep(s, image, start, now);
      && (response == Unavailable <==> !s.hasRuntime)
      && (response == BadRequest <==> s.hasRuntime && HasNoImage(s.row))
      && (response == Conflict <==> s.hasRuntime && !HasNoImage(s.row) && s.row.candidateContainerId != "")
      && (response == Ok ==> start.Some? && t.row.candidateContainerId == start.value
                             && t.row.Route() == s.row.Route() && t.row.candidateHost == ""
                             && !t.row.candidateHealthy && t.row.candidateDeployedAt == now)
      && (response != Ok ==> t == s)
      && (response == Failed ==> start == None)
  {
  }

  // ---- heartbeats of the candidate ----

  // Every check comes at most 90 seconds after the candidate was heard of.
  predicate Attended(run: seq<Event>, seen: Time) {
    run == []
    || match run[0]
       case Check(now) => now - seen <= 90 && Attended(run[1..], seen)
       case Heartbeat(true, now) => now > 0 && Attended(run[1..], now)
       case RegisterCandidate(host, _, _, now) => host != "" && now > 0 && Attended(run[1..], now)
       case RegisterPrimary(_, _, _, _) => Attended(run[1..], seen)
       case Heartbeat(false, _) => Attended(run[1..], seen)
       case Deregister => Attended(run[1..], seen)
       case _ => false
  }

  // The time of the last heartbeat or registration of a candidate.
  function LastHeard(run: seq<Event>, seen: Time): Time {
    if run == [] then seen
    else
      var heard := (run[0].Heartbeat? && run[0].candidate) || run[0].RegisterCandidate?;
      LastHeard(run[1..], if heard then run[0].now else seen)
  }

  lemma AttendedStep(s: State, e: Event)
    requires Attended([e], s.row.candidateLastSeen) && s.row.candidateHost != "" && s.row.candidateLastSeen != 0
    ensures var t := Step(s, e);
      && t.row.candidateHost != "" && t.row.candidateLastSeen == LastHeard([e], s.row.candidateLastSeen) != 0
      && t.row.candidateContainerId == s.row.candidateContainerId && t.stopped == s.stopped
      && t.checks == s.checks + (if e.Check? then [Fresh] else [])
      && t.unhealthy == (if e.Check? then 0 else s.unhealthy)
      && t.row.candidateHealthy ==
         (s.row.candidateHealthy || (e.Heartbeat? && e.candidate) || e.RegisterCandidate?)
  {
    assert [e][1..] == [];
  }

  // A registered candidate that is heard of in time is never rolled back: it
  // keeps its slot and its container, each check finds it fresh, and the first of
  // them clears the counter.
  lemma {:induction false} HeardCandidateSurvives(s: State, run: seq<Event>)
    requires Attended(run, s.row.candidateLastSeen) && s.row.candidateHost != "" && s.row.candidateLastSeen != 0
    ensures var t := Exec(s, run);
      && t.row.candidateHost != "" && t.row.candidateLastSeen == LastHeard(run, s.row.candidateLastSeen)
      && t.row.candidateContainerId == s.row.candidateContainerId && t.stopped == s.stopped
      && t.unhealthy == (if Checks(run) > 0 then 0 else s.unhealthy)
      && (s.row.candidateHealthy ==> t.row.candidateHealthy)
    decreases |run|
  {
    if run != [] {
      assert [run[0]][1..] == [];
      AttendedStep(s, run[0]);
      HeardCandidateSurvives(Step(s, run[0]), run[1..]);
    }
  }

  // A check marks a candidate unhealthy exactly when it finds it stale; only a
  // heartbeat or a registration makes it healthy again.
  lemma HealthIsTheLastWord(s: State, now: Time)
    requires CounterOk(s)
    ensures var t := Step(s, Check(now));
      t.row.candidateHost != "" ==> (t.row.candidateHealthy <==> s.row.candidateHealthy && !FoundStale(s, now))
    ensures Step(s, Heartbeat(true, now)).row.candidateHealthy
    ensures Step(s, Heartbeat(true, now)).row.Route() == s.row.Route()
  {
  }

  // ---- the plugin in service ----

  // The run neither registers the plugin nor lets a promotion or a rollback through.
  ghost predicate LeftAlone(s: State, run: seq<Event>) {
    NothingReaches(s, run) && forall e :: e in run ==> !e.RegisterPrimary?
  }

  lemma {:induction false} AddressStays(s: State, run: seq<Event>)
    requires LeftAlone(s, run)
    ensures Exec(s, run).row.httpPort == s.row.httpPort && Exec(s, run).row.version == s.row.version
    ensures Exec(s, run).row.host == if Deregister in run then "" else s.row.host
    decreases |run|
  {
    if run != [] {
      AddressStays(Step(s, run[0]), run[1..]);
      assert run == [run[0]] + run[1..];
    }
  }

  // A plugin is routed to where it registered last.  Once it has deregistered it
  // is not routed to, whatever heartbeats still arrive.
  lemma RegisteredIsRoutedTo(s: State, host: string, port: int, version: string, now: Time, run: seq<Event>)
    requires host != "" && LeftAlone(Step(s, RegisterPrimary(host, port, version, now)), run)
    ensures var t := Exec(Step(s, RegisterPrimary(host, port, version, now)), run);
      && t.row.Route() == (if Deregister in run then None else Some((host, port)))
      && t.row.version == if version != "" then version else s.row.version
  {
    var s1 := Step(s, RegisterPrimary(host, port, version, now));
    AddressStays(s1, run);
    if Deregister !in run { StatusStays(s1, run); }
  }

  lemma {:induction false} StatusStays(s: State, run: seq<Event>)
    requires LeftAlone(s, run) && Deregister !in run && s.row.status == "running"
    ensures Exec(s, run).row.status == "running"
    decreases |run|
  {
    if run != [] { StatusStays(Step(s, run[0]), run[1..]); }
  }

  lemma DeregisteredIsNotRoutedTo(s: State, run: seq<Event>)
    requires LeftAlone(Step(s, Deregister), run)
    ensures Exec(Step(s, Deregister), run).row.Route() == None
    ensures Step(s, Deregister).row.status == "stopped"
  {
    AddressStays(Step(s, Deregister), run);
  }

  // When the plugin in service was last heard of.
  function PrimaryHeard(run: seq<Event>, seen: Time): Time {
    if run == [] then seen
    else
      var heard := (run[0].Heartbeat? && !run[0].candidate) || run[0].RegisterPrimary?;
      PrimaryHeard(run[1..], if heard then run[0].now else seen)
  }

  // The row says when that was, whatever happens to candidates meanwhile.
  lemma {:induction false} LastSeenIs(s: State, run: seq<Event>)
    requires NothingReaches(s, run)
    ensures Exec(s, run).row.lastSeen == PrimaryHeard(run, s.row.lastSeen)
    decreases |run|
  {
    if run != [] { LastSeenIs(Step(s, run[0]), run[1..]); }
  }
}
