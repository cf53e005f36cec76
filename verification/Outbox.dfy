// The event client's outbox (pkg/pluginsdk/eventclient.go) as a transition
// system: one transition is one critical section of the client's lock, or one
// call of publish made outside it.
module Outbox {
  type ThreadId = nat

  // Messages are numbered in the order they were submitted.
  datatype Message = Message(id: nat, eventType: string, detail: string, destination: string)

  // A thread that left the lock with work to do: the bus-available callback
  // before its flush, or a Publish, PublishTo or flush with messages to hand on.
  datatype Thread = WillFlush | Sending(rest: seq<Message>)

  // Where a message is; a record kept beside the client's own state.
  datatype Place = InOutbox | HeldBy(t: ThreadId) | Published

  datatype State = State(
    ready: bool,
    outbox: seq<Message>,
    threads: map<ThreadId, Thread>,
    published: seq<Message>,     // handed to publish, in order
    submitted: seq<Message>,
    place: seq<Place>)           // place[id]

  datatype Event =
    | Publish(t: ThreadId, eventType: string, detail: string, destination: string)
    | BusAvailable(t: ThreadId)
    | TakeOutbox(t: ThreadId)
    | HandOver(t: ThreadId)

  const INIT := State(false, [], map[], [], [], [])

  function PublishStep(s: State, t: ThreadId, eventType: string, detail: string, destination: string): State {
    var m := Message(|s.submitted|, eventType, detail, destination);
    if !s.ready then
      s.(outbox := s.outbox + [m], submitted := s.submitted + [m], place := s.place + [InOutbox])
    else
      s.(threads := s.threads[t := Sending([m])], submitted := s.submitted + [m], place := s.place + [HeldBy(t)])
  }

  function BusAvailableStep(s: State, t: ThreadId): State {
    s.(ready := true, threads := s.threads[t := WillFlush])
  }

  function TakeStep(s: State, t: ThreadId): State {
    s.(threads := if s.outbox == [] then s.threads - {t} else s.threads[t := Sending(s.outbox)],
       outbox := [],
       place := seq(|s.place|, i requires 0 <= i < |s.place| =>
                      if s.place[i] == InOutbox then HeldBy(t) else s.place[i]))
  }

  function HandOverStep(s: State, t: ThreadId): State
    requires t in s.threads && s.threads[t].Sending? && s.threads[t].rest != []
  {
    var rest := s.threads[t].rest;
    s.(threads := if |rest| == 1 then s.threads - {t} else s.threads[t := Sending(rest[1..])],
       published := s.published + [rest[0]],
       place := if rest[0].id < |s.place| then s.place[rest[0].id := Published] else s.place)
  }

  predicate Enabled(s: State, e: Event) {
    match e
    case Publish(t, _, _, _) => t !in s.threads
    case BusAvailable(t) => t !in s.threads
    case TakeOutbox(t) => t in s.threads && s.threads[t].WillFlush?
    case HandOver(t) => t in s.threads && s.threads[t].Sending? && s.threads[t].rest != []
  }

  function Step(s: State, e: Event): State
    requires Enabled(s, e)
  {
    match e
    case Publish(t, ty, d, dest) => PublishStep(s, t, ty, d, dest)
    case BusAvailable(t) => BusAvailableStep(s, t)
    case TakeOutbox(t) => TakeStep(s, t)
    case HandOver(t) => HandOverStep(s, t)
  }

  predicate Legal(s: State, run: seq<Event>)
    decreases |run|
  {
    run == [] || (Enabled(s, run[0]) && Legal(Step(s, run[0]), run[1..]))
  }

  function Exec(s: State, run: seq<Event>): State
    requires Legal(s, run)
    decreases |run|
  {
    if run == [] then s else Exec(Step(s, run[0]), run[1..])
  }

  // ---- the client object ----

  class EventClient {
    var ready: bool
    var outbox: seq<Message>
    var threads: map<ThreadId, Thread>
    var published: seq<Message>
    ghost var submitted: seq<Message>
    ghost var place: seq<Place>
    var count: nat    // messages submitted so far

    ghost function View(): State
      reads this
    {
      State(ready, outbox, threads, published, submitted, place)
    }

    ghost predicate Valid()
      reads this
    {
      count == |submitted|
    }

    constructor ()
      ensures Valid() && View() == INIT
    {
      ready, outbox, threads, published, submitted, place, count := false, [], map[], [], [], [], 0;
    }

    // Publish (no destination) and PublishTo, up to where they leave the lock.
    method PublishTo(t: ThreadId, eventType: string, detail: string, target: string) returns (queued: bool)
      requires Valid() && t !in threads
      modifies this
      ensures Valid() && View() == PublishStep(old(View()), t, eventType, detail, target)
      ensures queued <==> !old(ready)
    {
      var m := Message(count, eventType, detail, target);
      count := count + 1;
      submitted := submitted + [m];
      if !ready {
        outbox := outbox + [m];
        place := place + [InOutbox];
        return true;
      }
      threads := threads[t := Sending([m])];
      place := place + [HeldBy(t)];
      return false;
    }

    // The callback of NewEventClient, up to where it leaves the lock.
    method OnBusAvailable(t: ThreadId)
      requires Valid() && t !in threads
      modifies this`ready, this`threads
      ensures Valid() && View() == BusAvailableStep(old(View()), t)
    {
      ready := true;
      threads := threads[t := WillFlush];
    }

    // flushOutbox, under the lock.
    method TakeOutbox(t: ThreadId)
      requires Valid() && t in threads && threads[t].WillFlush?
      modifies this`outbox, this`threads, this`place
      ensures Valid() && View() == TakeStep(old(View()), t)
    {
      var entries := outbox;
      outbox := [];
      place := TakeStep(View(), t).place;
      if |entries| > 0 {
        threads := threads[t := Sending(entries)];
      } else {
        threads := threads - {t};
      }
    }

    // One call of publish, outside the lock.
    method HandOver(t: ThreadId)
      requires Valid() && t in threads && threads[t].Sending? && threads[t].rest != []
      modifies this`threads, this`published, this`place
      ensures Valid() && View() == HandOverStep(old(View()), t)
    {
      var rest := threads[t].rest;
      published := published + [rest[0]];
      place := if rest[0].id < |place| then place[rest[0].id := Published] else place;
      if |rest| == 1 {
        threads := threads - {t};
      } else {
        threads := threads[t := Sending(rest[1..])];
      }
    }
  }

  // ---- exactly once ----

  // The messages in `ms` were submitted as they are here, and in this order.
  ghost predicate InSubmissionOrder(s: State, ms: seq<Message>) {
    && (forall i :: 0 <= i < |ms| ==> ms[i].id < |s.submitted| && s.submitted[ms[i].id] == ms[i])
    && (forall i, j :: 0 <= i < j < |ms| ==> ms[i].id < ms[j].id)
  }

  ghost predicate Located(s: State, ms: seq<Message>, p: Place)
    requires |s.place| == |s.submitted|
  {
    && (forall i :: 0 <= i < |ms| ==> ms[i].id < |s.place| && s.place[ms[i].id] == p)
    && (forall id :: 0 <= id < |s.place| && s.place[id] == p ==> s.submitted[id] in ms)
  }

  ghost predicate Inv(s: State) {
    && |s.place| == |s.submitted|
    && (forall id :: 0 <= id < |s.submitted| ==> s.submitted[id].id == id)
    && InSubmissionOrder(s, s.outbox) && Located(s, s.outbox, InOutbox)
    && (forall t :: t in s.threads && s.threads[t].Sending? ==>
          && s.threads[t].rest != [] && InSubmissionOrder(s, s.threads[t].rest)
          && Located(s, s.threads[t].rest, HeldBy(t)))
    && (forall id :: 0 <= id < |s.place| && s.place[id].HeldBy? ==>
          s.place[id].t in s.threads && s.threads[s.place[id].t].Sending?)
    && (forall i :: 0 <= i < |s.published| ==>
          s.published[i].id < |s.submitted| && s.submitted[s.published[i].id] == s.published[i])
    && (forall i, j :: 0 <= i < j < |s.published| ==> s.published[i].id != s.published[j].id)
    && Located(s, s.published, Published)
    && (s.ready || s.threads == map[])
  }

  lemma PublishKeepsInv(s: State, t: ThreadId, ty: string, d: string, dest: string)
    requires Inv(s) && t !in s.threads
    ensures Inv(PublishStep(s, t, ty, d, dest))
  {
    var s' := PublishStep(s, t, ty, d, dest);
    var m := Message(|s.submitted|, ty, d, dest);
    var p := if s.ready then HeldBy(t) else InOutbox;
    assert s'.submitted == s.submitted + [m] && s'.place == s.place + [p];
    SubmittedGrows(s, s', s.outbox, m, p, InOutbox);
    SubmittedGrows(s, s', s.published, m, p, Published);
    PublishKeepsThreads(s, t, ty, d, dest);
  }

  lemma PublishKeepsThreads(s: State, t: ThreadId, ty: string, d: string, dest: string)
    requires Inv(s) && t !in s.threads
    ensures var s' := PublishStep(s, t, ty, d, dest);
      && (forall u :: u in s'.threads && s'.threads[u].Sending? ==>
            && s'.threads[u].rest != [] && InSubmissionOrder(s', s'.threads[u].rest)
            && Located(s', s'.threads[u].rest, HeldBy(u)))
      && (forall id :: 0 <= id < |s'.place| && s'.place[id].HeldBy? ==>
            s'.place[id].t in s'.threads && s'.threads[s'.place[id].t].Sending?)
  {
    var s' := PublishStep(s, t, ty, d, dest);
    var m := Message(|s.submitted|, ty, d, dest);
    var p := if s.ready then HeldBy(t) else InOutbox;
    forall u | u in s'.threads && s'.threads[u].Sending?
      ensures s'.threads[u].rest != [] && InSubmissionOrder(s', s'.threads[u].rest)
      ensures Located(s', s'.threads[u].rest, HeldBy(u))
    {
      if u != t {
        SubmittedGrows(s, s', s.threads[u].rest, m, p, HeldBy(u));
      }
    }
  }

  // One more submitted message changes nothing for a list it is not in, and
  // extends the list it is added to.
  lemma SubmittedGrows(s: State, s': State, ms: seq<Message>, m: Message, p: Place, q: Place)
    requires |s.place| == |s.submitted| && m.id == |s.submitted|
    requires s'.submitted == s.submitted + [m] && s'.place == s.place + [p]
    requires Located(s, ms, q) && forall i :: 0 <= i < |ms| ==> ms[i].id < |s.submitted|
    ensures p != q ==> Located(s', ms, q)
    ensures p == q ==> Located(s', ms + [m], q)
    ensures InSubmissionOrder(s, ms) ==> InSubmissionOrder(s', ms) && InSubmissionOrder(s', ms + [m])
  {
  }

  lemma TakeKeepsInv(s: State, t: ThreadId)
    requires Inv(s) && Enabled(s, TakeOutbox(t))
    ensures Inv(TakeStep(s, t))
  {
  }

  lemma HandOverLocates(s: State, t: ThreadId)
    requires Inv(s) && Enabled(s, HandOver(t))
    ensures var s' := HandOverStep(s, t);
      && Located(s', s'.outbox, InOutbox) && Located(s', s'.published, Published)
      && s'.place == s.place[s.threads[t].rest[0].id := Published]
  {
    var s' := HandOverStep(s, t);
    var m := s.threads[t].rest[0];
    assert s'.published[|s.published|] == m;
    assert forall i :: 0 <= i < |s.published| ==> s'.published[i] == s.published[i];
  }

  lemma HandOverKeepsThread(s: State, t: ThreadId, u: ThreadId)
    requires Inv(s) && Enabled(s, HandOver(t))
    requires var s' := HandOverStep(s, t); u in s'.threads && s'.threads[u].Sending?
    ensures var s' := HandOverStep(s, t); var rest := s'.threads[u].rest;
      rest != [] && InSubmissionOrder(s', rest) && Located(s', rest, HeldBy(u))
  {
    var s' := HandOverStep(s, t);
    var rest := s.threads[t].rest;
    if u == t {
      assert s'.threads[u].rest == rest[1..];
      forall id | 0 <= id < |s'.place| && s'.place[id] == HeldBy(t) ensures s'.submitted[id] in rest[1..] {
        var i :| 0 <= i < |rest| && rest[i] == s.submitted[id];
        assert rest[1..][i - 1] == s.submitted[id];
      }
    }
  }

  lemma HandOverKeepsInv(s: State, t: ThreadId)
    requires Inv(s) && Enabled(s, HandOver(t))
    ensures Inv(HandOverStep(s, t))
  {
    var s' := HandOverStep(s, t);
    HandOverLocates(s, t);
    forall u | u in s'.threads && s'.threads[u].Sending?
      ensures s'.threads[u].rest != [] && InSubmissionOrder(s', s'.threads[u].rest)
      ensures Located(s', s'.threads[u].rest, HeldBy(u))
    {
      HandOverKeepsThread(s, t, u);
    }
    var rest := s.threads[t].rest;
    forall id | 0 <= id < |s'.place| && s'.place[id].HeldBy?
      ensures s'.place[id].t in s'.threads && s'.threads[s'.place[id].t].Sending?
    {
      if s'.place[id].t == t {
        assert s.submitted[id] in rest && s.submitted[id] != rest[0];
      }
    }
    forall i | 0 <= i < |s.published| ensures s.published[i].id != rest[0].id {}
  }

  lemma StepKeepsInv(s: State, e: Event)
    requires Inv(s) && Enabled(s, e)
    ensures Inv(Step(s, e))
  {
    match e
    case Publish(t, ty, d, dest) => PublishKeepsInv(s, t, ty, d, dest);
    case BusAvailable(t) =>
    case TakeOutbox(t) => TakeKeepsInv(s, t);
    case HandOver(t) => HandOverKeepsInv(s, t);
  }

  lemma {:induction false} RunKeepsInv(s: State, run: seq<Event>)
    requires Inv(s) && Legal(s, run)
    ensures Inv(Exec(s, run))
    decreases |run|
  {
    if run != [] {
      StepKeepsInv(s, run[0]);
      RunKeepsInv(Step(s, run[0]), run[1..]);
    }
  }

  // One position a message can be at.
  datatype Slot = QueuedAt(i: nat) | HeldAt(t: ThreadId, i: nat) | PublishedAt(i: nat)

  predicate Holds(s: State, slot: Slot, m: Message) {
    match slot
    case QueuedAt(i) => i < |s.outbox| && s.outbox[i] == m
    case HeldAt(t, i) => t in s.threads && s.threads[t].Sending? && i < |s.threads[t].rest| && s.threads[t].rest[i] == m
    case PublishedAt(i) => i < |s.published| && s.published[i] == m
  }

  ghost predicate Somewhere(s: State, m: Message) {
    exists slot :: Holds(s, slot, m)
  }

  lemma SlotOf(s: State, id: nat) returns (slot: Slot)
    requires Inv(s) && id < |s.submitted|
    ensures Holds(s, slot, s.submitted[id])
  {
    var m := s.submitted[id];
    match s.place[id]
    case InOutbox =>
      var i :| 0 <= i < |s.outbox| && s.outbox[i] == m;
      slot := QueuedAt(i);
    case HeldBy(t) =>
      assert t in s.threads && s.threads[t].Sending?;
      var i :| 0 <= i < |s.threads[t].rest| && s.threads[t].rest[i] == m;
      slot := HeldAt(t, i);
    case Published =>
      var i :| 0 <= i < |s.published| && s.published[i] == m;
      slot := PublishedAt(i);
  }

  lemma SlotIsUnique(s: State, a: Slot, b: Slot, m: Message)
    requires Inv(s) && Holds(s, a, m) && Holds(s, b, m)
    ensures a == b && m.id < |s.submitted| && s.submitted[m.id] == m
  {
  }

  // Under every interleaving, each message is at exactly one position: in the
  // outbox, with one thread, or handed to publish once; and only submitted
  // messages are anywhere.
  lemma ExactlyOnce(run: seq<Event>)
    requires Legal(INIT, run)
    ensures var s := Exec(INIT, run);
      && (forall m :: m in s.submitted ==> Somewhere(s, m))
      && (forall a, m :: Holds(s, a, m) ==> m in s.submitted)
      && (forall a, b, m :: Holds(s, a, m) && Holds(s, b, m) ==> a == b)
  {
    RunKeepsInv(INIT, run);
    var s := Exec(INIT, run);
    forall m | m in s.submitted ensures Somewhere(s, m) {
      var id :| 0 <= id < |s.submitted| && s.submitted[id] == m;
      var slot := SlotOf(s, id);
    }
    forall a, b, m | Holds(s, a, m) && Holds(s, b, m) ensures a == b && m in s.submitted {
      SlotIsUnique(s, a, b, m);
    }
  }

  // ---- the moment the bus becomes available ----

  // After the first flush has taken the outbox it stays empty for good.
  lemma {:induction false} OutboxStaysEmpty(s: State, run: seq<Event>)
    requires s.ready && s.outbox == [] && Legal(s, run)
    ensures Exec(s, run).outbox == [] && Exec(s, run).ready
    decreases |run|
  {
    if run != [] { OutboxStaysEmpty(Step(s, run[0]), run[1..]); }
  }

  lemma FirstFlushEmptiesForGood(before: seq<Event>, t: ThreadId, after: seq<Event>)
    requires Legal(INIT, before) && Enabled(Exec(INIT, before), TakeOutbox(t))
    requires Legal(Step(Exec(INIT, before), TakeOutbox(t)), after)
    ensures Exec(Step(Exec(INIT, before), TakeOutbox(t)), after).outbox == []
  {
    RunKeepsInv(INIT, before);
    OutboxStaysEmpty(Step(Exec(INIT, before), TakeOutbox(t)), after);
  }

  // Of the published messages, those in the batch.
  function Of(published: seq<Message>, batch: seq<Message>): seq<Message> {
    if published == [] then []
    else
      var m := published[|published| - 1];
      Of(published[..|published| - 1], batch) + if m in batch then [m] else []
  }

  function RestOf(s: State, t: ThreadId): seq<Message> {
    if t in s.threads && s.threads[t].Sending? then s.threads[t].rest else []
  }

  lemma OfSnoc(published: seq<Message>, m: Message, batch: seq<Message>)
    ensures Of(published + [m], batch) == Of(published, batch) + if m in batch then [m] else []
  {
    assert (published + [m])[..|published|] == published;
  }

  lemma {:induction false} NoneOf(published: seq<Message>, batch: seq<Message>)
    requires forall m :: m in published ==> m !in batch
    ensures Of(published, batch) == []
  {
    if published != [] { NoneOf(published[..|published| - 1], batch); }
  }

  // What has been published of the batch thread t took, followed by what t has
  // left of it, is the batch; once nothing is left, t may be used again.
  ghost predicate InOrder(s: State, t: ThreadId, batch: seq<Message>) {
    && (forall m :: m in batch ==> m in s.submitted)
    && (Of(s.published, batch) + RestOf(s, t) == batch
        || (Of(s.published, batch) == batch && forall m :: m in RestOf(s, t) ==> m !in batch))
  }

  lemma {:induction false} OfMembers(published: seq<Message>, batch: seq<Message>)
    ensures forall m :: m in Of(published, batch) ==> m in published
  {
    if published != [] {
      OfMembers(published[..|published| - 1], batch);
      assert published == published[..|published| - 1] + [published[|published| - 1]];
    }
  }

  // A message that has not been published and is not left with t is not in the batch.
  lemma NotInBatch(s: State, t: ThreadId, batch: seq<Message>, m: Message)
    requires InOrder(s, t, batch) && m !in s.published && m !in RestOf(s, t)
    ensures m !in batch
  {
    OfMembers(s.published, batch);
  }

  lemma MoveOne(done: seq<Message>, rest: seq<Message>, batch: seq<Message>)
    requires done + rest == batch && rest != []
    ensures rest[0] in batch && (done + [rest[0]]) + rest[1..] == batch
  {
    assert rest == [rest[0]] + rest[1..];
    assert batch[|done|] == rest[0];
  }

  lemma OwnHandOverKeepsOrder(s: State, t: ThreadId, batch: seq<Message>)
    requires InOrder(s, t, batch) && Enabled(s, HandOver(t))
    ensures InOrder(HandOverStep(s, t), t, batch)
  {
    var rest := s.threads[t].rest;
    var done := Of(s.published, batch);
    OfSnoc(s.published, rest[0], batch);
    assert RestOf(HandOverStep(s, t), t) == rest[1..];
    if done + rest == batch {
      MoveOne(done, rest, batch);
    } else {
      assert forall x :: x in rest[1..] ==> x in rest;
      assert done + [] == done;
    }
  }

  lemma HandOverKeepsOrder(s: State, t: ThreadId, batch: seq<Message>, u: ThreadId)
    requires Inv(s) && InOrder(s, t, batch) && Enabled(s, HandOver(u))
    ensures InOrder(HandOverStep(s, u), t, batch)
  {
    if u == t {
      OwnHandOverKeepsOrder(s, t, batch);
    } else {
      var m := s.threads[u].rest[0];
      HandOverOfOther(s, t, u);
      NotInBatch(s, t, batch, m);
      OfSnoc(s.published, m, batch);
      assert Of(s.published, batch) + [] == Of(s.published, batch);
    }
  }

  // What another thread hands over is neither published yet nor left with t.
  lemma HandOverOfOther(s: State, t: ThreadId, u: ThreadId)
    requires Inv(s) && Enabled(s, HandOver(u)) && u != t
    ensures var m := s.threads[u].rest[0]; m !in s.published && m !in RestOf(s, t)
    ensures RestOf(HandOverStep(s, u), t) == RestOf(s, t)
  {
    var m := s.threads[u].rest[0];
    assert s.place[m.id] == HeldBy(u);
  }

  lemma NothingLeft(s: State, t: ThreadId, batch: seq<Message>)
    requires InOrder(s, t, batch) && RestOf(s, t) == []
    ensures Of(s.published, batch) == batch
  {
    var done := Of(s.published, batch);
    assert done + [] == done;
  }

  lemma StepKeepsOrder(s: State, t: ThreadId, batch: seq<Message>, e: Event)
    requires Inv(s) && InOrder(s, t, batch) && Enabled(s, e)
    ensures InOrder(Step(s, e), t, batch)
  {
    match e
    case HandOver(u) => HandOverKeepsOrder(s, t, batch, u);
    case Publish(u, ty, d, dest) => PublishKeepsOrder(s, t, batch, u, ty, d, dest);
    case TakeOutbox(u) => TakeKeepsOrder(s, t, batch, u);
    case BusAvailable(u) => if u == t { NothingLeft(s, t, batch); }
  }

  lemma PublishKeepsOrder(
      s: State, t: ThreadId, batch: seq<Message>, u: ThreadId, ty: string, d: string, dest: string)
    requires Inv(s) && InOrder(s, t, batch) && u !in s.threads
    ensures InOrder(PublishStep(s, u, ty, d, dest), t, batch)
  {
    var m := Message(|s.submitted|, ty, d, dest);
    assert m !in s.submitted;
    if u == t { NothingLeft(s, t, batch); }
  }

  lemma TakeKeepsOrder(s: State, t: ThreadId, batch: seq<Message>, u: ThreadId)
    requires Inv(s) && InOrder(s, t, batch) && Enabled(s, TakeOutbox(u))
    ensures InOrder(TakeStep(s, u), t, batch)
  {
    if u == t {
      NothingLeft(s, t, batch);
      forall m | m in s.outbox ensures m !in batch { NotInBatch(s, t, batch, m); }
    }
  }

  lemma {:induction false} RunKeepsOrder(s: State, t: ThreadId, batch: seq<Message>, run: seq<Event>)
    requires Inv(s) && InOrder(s, t, batch) && Legal(s, run)
    ensures InOrder(Exec(s, run), t, batch)
    decreases |run|
  {
    if run != [] {
      StepKeepsInv(s, run[0]);
      StepKeepsOrder(s, t, batch, run[0]);
      RunKeepsOrder(Step(s, run[0]), t, batch, run[1..]);
    }
  }

  // One flush hands its messages over in the order they were submitted: what
  // has been published of the batch is always a prefix of it.
  lemma FlushKeepsSubmissionOrder(before: seq<Event>, t: ThreadId, after: seq<Event>)
    requires Legal(INIT, before) && Enabled(Exec(INIT, before), TakeOutbox(t))
    requires Legal(Step(Exec(INIT, before), TakeOutbox(t)), after)
    ensures var s := Exec(INIT, before);
      var batch := s.outbox;
      && InSubmissionOrder(s, batch)
      && Of(Exec(Step(s, TakeOutbox(t)), after).published, batch) <= batch
  {
    RunKeepsInv(INIT, before);
    var s := Exec(INIT, before);
    TakeStartsInOrder(s, t);
    StepKeepsInv(s, TakeOutbox(t));
    RunKeepsOrder(Step(s, TakeOutbox(t)), t, s.outbox, after);
  }

  lemma TakeStartsInOrder(s: State, t: ThreadId)
    requires Inv(s) && Enabled(s, TakeOutbox(t))
    ensures InOrder(TakeStep(s, t), t, s.outbox)
  {
    forall m | m in s.published ensures m !in s.outbox {
      assert s.place[m.id] == Published;
    }
    NoneOf(s.published, s.outbox);
    assert RestOf(TakeStep(s, t), t) == s.outbox;
    assert [] + s.outbox == s.outbox;
  }

  // ---- overtaking ----

  function IdsOf(ms: seq<Message>): set<nat> {
    set m | m in ms :: m.id
  }

  lemma {:induction false} DistinctIdsCount(ms: seq<Message>)
    requires forall i, j :: 0 <= i < j < |ms| ==> ms[i].id != ms[j].id
    ensures |IdsOf(ms)| == |ms|
  {
    if ms != [] {
      var init, m := ms[..|ms| - 1], ms[|ms| - 1];
      DistinctIdsCount(init);
      assert ms == init + [m];
      assert IdsOf(ms) == IdsOf(init) + {m.id};
      assert m.id !in IdsOf(init);
    }
  }

  function Below(n: nat): (ids: set<nat>)
    ensures |ids| == n && forall i :: i in ids <==> 0 <= i < n
  {
    if n == 0 then {} else Below(n - 1) + {n - 1}
  }

  lemma SmallerSet(a: set<nat>, b: set<nat>)
    requires a <= b
    ensures |a| <= |b| && (|a| == |b| <==> a == b)
  {
    var rest := b - a;
    assert |b| == |a| + |rest| by { assert b == a + rest; }
    if rest == {} { assert a == b; }
  }

  // All has been handed over exactly if the counts agree.
  lemma AllPublished(s: State)
    requires Inv(s)
    ensures |s.published| <= |s.submitted|
    ensures (forall x :: x in s.submitted ==> x in s.published) <==> |s.published| == |s.submitted|
  {
    var ids, all := IdsOf(s.published), Below(|s.submitted|);
    DistinctIdsCount(s.published);
    forall i | i in ids ensures i in all {
      var m :| m in s.published && m.id == i;
    }
    SmallerSet(ids, all);
    if |s.published| == |s.submitted| {
      forall x | x in s.submitted ensures x in s.published {
        assert x.id in ids;
        var m :| m in s.published && m.id == x.id;
        assert s.submitted[m.id] == m && s.submitted[x.id] == x;
      }
    }
    if forall x :: x in s.submitted ==> x in s.published {
      forall i | i in all ensures i in ids {
        assert s.submitted[i] in s.published && s.submitted[i].id == i;
      }
    }
  }

  // m has been handed over, and a message submitted before it has not.
  ghost predicate Overtook(s: State, m: Message) {
    m in s.published && exists x :: x in s.submitted && x.id < m.id && x !in s.published
  }

  // Something is in the outbox, or a thread has something to hand over.
  ghost predicate SomethingWaits(s: State) {
    s.outbox != [] || exists u :: u in s.threads && s.threads[u].Sending?
  }

  lemma WaitingIs(s: State)
    requires Inv(s)
    ensures SomethingWaits(s) <==> exists x :: x in s.submitted && x !in s.published
  {
    if s.outbox != [] {
      var x := s.outbox[0];
      assert s.place[x.id] == InOutbox && x in s.submitted;
      if x in s.published { PublishedPlace(s, x); }
    }
    if u :| u in s.threads && s.threads[u].Sending? {
      var x := s.threads[u].rest[0];
      assert s.place[x.id] == HeldBy(u) && x in s.submitted;
      if x in s.published { PublishedPlace(s, x); }
    }
    if x :| x in s.submitted && x !in s.published {
      var id :| 0 <= id < |s.submitted| && s.submitted[id] == x;
      assert s.place[id] != Published;
    }
  }

  lemma PublishedPlace(s: State, x: Message)
    requires Inv(s) && x in s.published
    ensures x.id < |s.place| && s.place[x.id] == Published
  {}

  // In every reachable state with the bus available, a message that is
  // published and handed over at once overtakes one submitted before exactly
  // if something is in the outbox or some thread has something to hand over.
  lemma OvertakesExactlyWhen(before: seq<Event>, t: ThreadId, ty: string, d: string, dest: string)
    requires Legal(INIT, before) && Exec(INIT, before).ready && t !in Exec(INIT, before).threads
    ensures var s := Exec(INIT, before); var run := [Publish(t, ty, d, dest), HandOver(t)];
      Legal(s, run) &&
      (Overtook(Exec(s, run), Message(|s.submitted|, ty, d, dest)) <==> SomethingWaits(s))
  {
    RunKeepsInv(INIT, before);
    var s := Exec(INIT, before);
    WaitingIs(s);
    var m := Message(|s.submitted|, ty, d, dest);
    var u := Step(s, Publish(t, ty, d, dest));
    ExecCons(u, HandOver(t), []);
    ExecCons(s, Publish(t, ty, d, dest), [HandOver(t)]);
    assert [HandOver(t)] + [] == [HandOver(t)];
    assert [Publish(t, ty, d, dest)] + [HandOver(t)] == [Publish(t, ty, d, dest), HandOver(t)];
    SentAtOnce(s, t, m);
  }

  lemma SentAtOnce(s: State, t: ThreadId, m: Message)
    requires Inv(s) && s.ready && t !in s.threads && m.id == |s.submitted|
    ensures var v := Step(Step(s, Publish(t, m.eventType, m.detail, m.destination)), HandOver(t));
      Overtook(v, m) <==> exists x :: x in s.submitted && x !in s.published
  {
    var v := Step(Step(s, Publish(t, m.eventType, m.detail, m.destination)), HandOver(t));
    assert v.published == s.published + [m] && v.submitted == s.submitted + [m];
    if x :| x in s.submitted && x !in s.published {
      assert x.id < m.id && x in v.submitted && x !in v.published && m in v.published;
    }
  }

  // A message published after the bus has come up finds all the others handed over.
  ghost predicate Patient(s: State, run: seq<Event>)
    requires Legal(s, run)
    decreases |run|
  {
    run == []
    || ((run[0].Publish? && s.ready ==> |s.published| == |s.submitted|) && Patient(Step(s, run[0]), run[1..]))
  }

  ghost predicate OnlyFlushesWait(threads: map<ThreadId, Thread>, but: set<ThreadId>) {
    forall u :: u in threads && u !in but ==> threads[u].WillFlush?
  }

  ghost predicate OnlySender(s: State, u: ThreadId, rest: seq<Message>) {
    u in s.threads && s.threads[u] == Sending(rest) && OnlyFlushesWait(s.threads, {u})
  }

  // What has been handed over is the first part of what was submitted, and the
  // rest is in the outbox or with one thread.
  ghost predicate InStep(s: State) {
    && |s.published| <= |s.submitted| && s.published == s.submitted[..|s.published|]
    && var rest := s.submitted[|s.published|..];
      || (s.outbox == rest && OnlyFlushesWait(s.threads, {}))
      || (s.outbox == [] && exists u :: OnlySender(s, u, rest))
  }

  lemma PublishKeepsStep(s: State, t: ThreadId, ty: string, d: string, dest: string)
    requires Inv(s) && InStep(s) && t !in s.threads && (s.ready ==> |s.published| == |s.submitted|)
    ensures InStep(PublishStep(s, t, ty, d, dest))
  {
    var v := PublishStep(s, t, ty, d, dest);
    var m := Message(|s.submitted|, ty, d, dest);
    var n := |s.published|;
    assert v.submitted == s.submitted + [m];
    assert v.submitted[..n] == s.submitted[..n] && v.submitted[n..] == s.submitted[n..] + [m];
    if s.ready {
      assert s.submitted[n..] == [];
      assert OnlySender(v, t, v.submitted[n..]);
    }
  }

  lemma NextOne(all: seq<Message>, n: nat)
    requires n < |all|
    ensures all[n..][0] == all[n] && all[n..][1..] == all[n + 1..] && all[..n] + [all[n]] == all[..n + 1]
  {}

  // Only the thread with the rest has something to hand over.
  lemma SenderHasRest(s: State, t: ThreadId)
    requires Inv(s) && InStep(s) && Enabled(s, HandOver(t))
    ensures |s.published| < |s.submitted| && s.threads[t] == Sending(s.submitted[|s.published|..])
    ensures s.outbox == [] && OnlyFlushesWait(s.threads, {t})
  {}

  lemma HandOverKeepsStep(s: State, t: ThreadId)
    requires Inv(s) && InStep(s) && Enabled(s, HandOver(t))
    ensures InStep(HandOverStep(s, t))
  {
    SenderHasRest(s, t);
    var v, n := HandOverStep(s, t), |s.published|;
    NextOne(s.submitted, n);
    assert v.published == s.submitted[..n + 1];
    if n + 1 < |s.submitted| { assert OnlySender(v, t, s.submitted[n + 1..]); }
  }

  lemma StepKeepsStep(s: State, e: Event)
    requires Inv(s) && InStep(s) && Enabled(s, e)
    requires e.Publish? && s.ready ==> |s.published| == |s.submitted|
    ensures InStep(Step(s, e))
  {
    match e
    case Publish(t, ty, d, dest) => PublishKeepsStep(s, t, ty, d, dest);
    case HandOver(t) => HandOverKeepsStep(s, t);
    case BusAvailable(t) =>
      var rest := s.submitted[|s.published|..];
      if u :| OnlySender(s, u, rest) { assert OnlySender(Step(s, e), u, rest); }
    case TakeOutbox(t) => TakeKeepsStep(s, t);
  }

  lemma TakeKeepsStep(s: State, t: ThreadId)
    requires Inv(s) && InStep(s) && Enabled(s, TakeOutbox(t))
    ensures InStep(TakeStep(s, t))
  {
    var v := TakeStep(s, t);
    var rest := s.submitted[|s.published|..];
    if s.outbox == rest && OnlyFlushesWait(s.threads, {}) {
      if rest != [] { assert OnlySender(v, t, rest); }
    } else {
      var u :| OnlySender(s, u, rest);
      assert u != t && OnlySender(v, u, rest);
    }
  }

  lemma {:induction false} RunKeepsStep(s: State, run: seq<Event>)
    requires Inv(s) && InStep(s) && Legal(s, run) && Patient(s, run)
    ensures InStep(Exec(s, run)) && Inv(Exec(s, run))
    decreases |run|
  {
    if run != [] {
      StepKeepsInv(s, run[0]);
      StepKeepsStep(s, run[0]);
      RunKeepsStep(Step(s, run[0]), run[1..]);
    }
  }

  // If every message published after the bus has come up waits until all the
  // others have been handed over, messages are handed over in the order in
  // which they were submitted.
  lemma PatientRunsKeepOrder(run: seq<Event>)
    requires Legal(INIT, run) && Patient(INIT, run)
    ensures var s := Exec(INIT, run);
      s.published <= s.submitted && forall i :: 0 <= i < |s.published| ==> s.published[i].id == i
  {
    RunKeepsStep(INIT, run);
  }

  // ---- the order of a whole run ----

  ghost predicate InIdOrder(s: State) {
    forall i :: 0 <= i < |s.published| ==> s.published[i].id == i
  }

  // What thread t hands over next is the oldest message not handed over.
  ghost predicate TakesOldest(s: State, t: ThreadId)
    requires Enabled(s, HandOver(t))
  {
    forall x :: x in s.submitted && x !in s.published ==> s.threads[t].rest[0].id <= x.id
  }

  ghost predicate OldestFirst(s: State, run: seq<Event>)
    requires Legal(s, run)
    decreases |run|
  {
    run == [] || ((run[0].HandOver? ==> TakesOldest(s, run[0].t)) && OldestFirst(Step(s, run[0]), run[1..]))
  }

  lemma NextInOrder(s: State, t: ThreadId)
    requires Inv(s) && InIdOrder(s) && Enabled(s, HandOver(t))
    ensures TakesOldest(s, t) <==> s.threads[t].rest[0].id == |s.published|
    ensures TakesOldest(s, t) <==> InIdOrder(HandOverStep(s, t))
  {
    var m, n := s.threads[t].rest[0], |s.published|;
    assert s.place[m.id] == HeldBy(t) && m in s.submitted;
    AllPublished(s);
    forall id | 0 <= id < n ensures s.submitted[id] == s.published[id] && s.place[id] == Published {
      assert s.published[id].id == id;
      PublishedPlace(s, s.published[id]);
    }
    assert n <= m.id && s.submitted[n].id == n && s.submitted[n] !in s.published;
    forall x | x in s.submitted && x !in s.published ensures n <= x.id {}
    assert HandOverStep(s, t).published[n] == m;
  }

  lemma {:induction false} OutOfOrderForGood(s: State, run: seq<Event>)
    requires Legal(s, run) && !InIdOrder(s)
    ensures !InIdOrder(Exec(s, run))
    decreases |run|
  {
    if run != [] {
      assert s.published <= Step(s, run[0]).published;
      OutOfOrderForGood(Step(s, run[0]), run[1..]);
    }
  }

  lemma {:induction false} RunInOrder(s: State, run: seq<Event>)
    requires Inv(s) && InIdOrder(s) && Legal(s, run)
    ensures InIdOrder(Exec(s, run)) <==> OldestFirst(s, run)
    decreases |run|
  {
    if run != [] {
      var t := Step(s, run[0]);
      StepKeepsInv(s, run[0]);
      if run[0].HandOver? { NextInOrder(s, run[0].t); }
      if InIdOrder(t) { RunInOrder(t, run[1..]); } else { OutOfOrderForGood(t, run[1..]); }
    }
  }

  // Messages are handed over one after the other as they were submitted
  // exactly if whoever hands one over takes the oldest that is left.
  lemma InOrderExactlyWhen(run: seq<Event>)
    requires Legal(INIT, run)
    ensures InIdOrder(Exec(INIT, run)) <==> OldestFirst(INIT, run)
  {
    RunInOrder(INIT, run);
  }

  // A run in which it happens: a message submitted after the client turned
  // ready is published while an earlier one still waits for the flush.
  lemma PublishCanOvertake(a: string, b: string)
    ensures var swapped := [Message(1, b, "", ""), Message(0, a, "", "")];
      exists run :: Legal(INIT, run) && Exec(INIT, run).published == swapped
  {
    var s1 := Step(INIT, Publish(0, a, "", ""));
    var s2 := Step(s1, BusAvailable(1));
    var s3 := Step(s2, Publish(2, b, "", ""));
    var s4 := Step(s3, HandOver(2));
    var s5 := Step(s4, TakeOutbox(1));
    var s6 := Step(s5, HandOver(1));
    assert s4.published == [Message(1, b, "", "")];
    var run: seq<Event> := [];
    ExecCons(s5, HandOver(1), run);
    run := [HandOver(1)] + run;
    ExecCons(s4, TakeOutbox(1), run);
    run := [TakeOutbox(1)] + run;
    ExecCons(s3, HandOver(2), run);
    run := [HandOver(2)] + run;
    ExecCons(s2, Publish(2, b, "", ""), run);
    run := [Publish(2, b, "", "")] + run;
    ExecCons(s1, BusAvailable(1), run);
    run := [BusAvailable(1)] + run;
    ExecCons(INIT, Publish(0, a, "", ""), run);
    run := [Publish(0, a, "", "")] + run;
  }

  lemma ExecCons(s: State, e: Event, rest: seq<Event>)
    requires Enabled(s, e) && Legal(Step(s, e), rest)
    ensures Legal(s, [e] + rest) && Exec(s, [e] + rest) == Exec(Step(s, e), rest)
  {
    assert ([e] + rest)[1..] == rest;
  }
}
