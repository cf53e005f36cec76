// What a run of the event client comes to, told from the calls made.
module OutboxRuns {
  import opened Outbox
  import opened Sequences

  // The messages the calls of a run publish, numbered from n.
  function MessagesFrom(run: seq<Event>, n: nat): seq<Message> {
    if run == [] then []
    else if run[0].Publish? then
      [Message(n, run[0].eventType, run[0].detail, run[0].destination)] + MessagesFrom(run[1..], n + 1)
    else MessagesFrom(run[1..], n)
  }

  lemma {:induction false} SubmittedIs(s: State, run: seq<Event>)
    requires Legal(s, run)
    ensures Exec(s, run).submitted == s.submitted + MessagesFrom(run, |s.submitted|)
    decreases |run|
  {
    if run != [] {
      SubmittedIs(Step(s, run[0]), run[1..]);
      if run[0].Publish? {
        var m := Message(|s.submitted|, run[0].eventType, run[0].detail, run[0].destination);
        Regroup(s.submitted, [m], MessagesFrom(run[1..], |s.submitted| + 1));
      }
    } else {
      assert s.submitted + [] == s.submitted;
    }
  }

  // Under every interleaving: each message of a call, as the call gave it, is at
  // exactly one position, and nothing else is anywhere.
  lemma EveryCallIsKept(run: seq<Event>)
    requires Legal(INIT, run)
    ensures var s, all := Exec(INIT, run), MessagesFrom(run, 0);
      && (forall m :: m in all ==> Somewhere(s, m))
      && (forall a, m :: Holds(s, a, m) ==> m in all)
      && (forall a, b, m :: Holds(s, a, m) && Holds(s, b, m) ==> a == b)
      && forall i :: 0 <= i < |all| ==> all[i].id == i
  {
    SubmittedIs(INIT, run);
    assert [] + MessagesFrom(run, 0) == MessagesFrom(run, 0);
    ExactlyOnce(run);
    RunKeepsInv(INIT, run);
  }

  // ---- before the bus is there ----

  // Until the bus is available nothing is handed over, and everything waits in
  // the outbox in the order of the calls.
  lemma {:induction false} NothingGoesBeforeTheBus(s: State, run: seq<Event>)
    requires Legal(s, run) && !s.ready && s.threads == map[] && s.published == [] && s.outbox == s.submitted
    requires forall e :: e in run ==> !e.BusAvailable?
    ensures var t := Exec(s, run);
      !t.ready && t.threads == map[] && t.published == [] && t.outbox == t.submitted
    decreases |run|
  {
    if run != [] { NothingGoesBeforeTheBus(Step(s, run[0]), run[1..]); }
  }

  lemma QueuedInOrder(run: seq<Event>)
    requires Legal(INIT, run) && forall e :: e in run ==> !e.BusAvailable?
    ensures Exec(INIT, run).outbox == MessagesFrom(run, 0) && Exec(INIT, run).published == []
  {
    NothingGoesBeforeTheBus(INIT, run);
    SubmittedIs(INIT, run);
    assert [] + MessagesFrom(run, 0) == MessagesFrom(run, 0);
  }

  // ---- when all threads have ended ----

  // What is in the outbox of a ready client is about to be flushed.
  ghost predicate FlushIsDue(s: State) {
    s.ready && s.outbox != [] ==> exists t :: t in s.threads && s.threads[t].WillFlush?
  }

  lemma StepKeepsFlushDue(s: State, e: Event)
    requires FlushIsDue(s) && Enabled(s, e)
    ensures FlushIsDue(Step(s, e))
  {
    var v := Step(s, e);
    if v.ready && v.outbox != [] {
      if e.BusAvailable? {
        assert v.threads[e.t].WillFlush?;
      } else {
        var t :| t in s.threads && s.threads[t].WillFlush?;
        assert t in v.threads && v.threads[t].WillFlush?;
      }
    }
  }

  lemma {:induction false} RunKeepsFlushDue(s: State, run: seq<Event>)
    requires FlushIsDue(s) && Legal(s, run)
    ensures FlushIsDue(Exec(s, run))
    decreases |run|
  {
    if run != [] {
      StepKeepsFlushDue(s, run[0]);
      RunKeepsFlushDue(Step(s, run[0]), run[1..]);
    }
  }

  // No message gets stuck: once the bus has come up and every thread has done
  // its work, each message of each call has been handed over, once.
  lemma NothingGetsStuck(run: seq<Event>)
    requires Legal(INIT, run) && Exec(INIT, run).ready && Exec(INIT, run).threads == map[]
    ensures var s, all := Exec(INIT, run), MessagesFrom(run, 0);
      && s.outbox == [] && |s.published| == |all|
      && (forall m :: m in all <==> m in s.published)
      && forall i, j :: 0 <= i < j < |s.published| ==> s.published[i] != s.published[j]
  {
    SubmittedIs(INIT, run);
    assert [] + MessagesFrom(run, 0) == MessagesFrom(run, 0);
    RunKeepsInv(INIT, run);
    RunKeepsFlushDue(INIT, run);
    AllAreOut(Exec(INIT, run));
  }

  lemma AllAreOut(s: State)
    requires Inv(s) && FlushIsDue(s) && s.ready && s.threads == map[]
    ensures s.outbox == [] && |s.published| == |s.submitted|
    ensures forall m :: m in s.submitted <==> m in s.published
    ensures forall i, j :: 0 <= i < j < |s.published| ==> s.published[i] != s.published[j]
  {
    WaitingIs(s);
    AllPublished(s);
    PublishedAreSubmitted(s);
  }

  lemma PublishedAreSubmitted(s: State)
    requires Inv(s)
    ensures forall m :: m in s.published ==> m in s.submitted
    ensures forall i, j :: 0 <= i < j < |s.published| ==> s.published[i] != s.published[j]
  {
  }
}
