/** The run in which an import is lost: its worker loses the connection in the middle of the processing and goes on,
    another worker succeeds and acknowledges the redelivered message, and then the first one writes DEAD_LETTER.
    With a mark that failed, the same run loses nothing: the event will be published again. */
module LostRun {
  import opened Text
  import opened Pipeline
  import opened Tables
  import opened Flow
  import opened FlowKept
  import opened Safety
  import opened Loss
  import Leases
  import opened Ledger

  const REQUEST := Request("client-a", "import-0001", "normal", 25)
  const ERROR: Bytes := [101]
  const BODY := Decoded(Payload(0, "client-a", "normal", 25))

  // Process 7 creates import 0 with event 1, publisher 3 queues copy 2 of its message, workers 4 and 5 process it.

  /** The tables hold import 0 with its event, and nothing else. */
  ghost predicate Rows(s: State, status: Status, published: bool) {
    (
      && s.imports.Keys == {0} && s.imports[0].status == status
      && s.creations.eventOf == map[0 := 1] && s.outbox.Keys == {1}
      && s.outbox[1].body == BODY && (s.outbox[1].publishedAt.Some? <==> published)
    ) == true
  }

  /** The message was queued once, and is where the arguments say. */
  ghost predicate Queue(s: State, ready: set<Id>, unacked: map<Id, Delivery>) {
    (
      && 2 in s.broker.copies && s.broker.copies[2] == Copy(Some(1), BODY)
      && s.broker.ready == ready && s.broker.unacked == unacked && s.broker.dead == {}
    ) == true
  }

  ghost predicate At(s: State, w: Id, phase: Phase, attached: bool) {
    (WorkerOf(s, w) == Worker(Some(Job(2, phase)), attached)) == true
  }

  lemma Next(s: State, step: Step) returns (t: State)
    requires Reachable(s) && Enabled(s, step)
    ensures t == Apply(s, step) && Reachable(t)
  {
    t := Apply(s, step);
    Onward(s, step, t);
  }

  // ---------------------------------------------------------------- the import is created and published

  lemma Inserts() returns (s: State)
    ensures Reachable(s) && s == Empty().(creators := map[7 := Inserted(REQUEST, 0, 0)], nextId := 1)
  {
    Begun();
    s := Next(Empty(), ByCreator(7, Begin(REQUEST)));
    assert CreatorOf(s, 7) == Snapshot(REQUEST, None, 0);
    s := Next(s, ByCreator(7, Insert));
    assert s.creators == map[7 := Inserted(REQUEST, 0, 0)];
  }

  lemma WritesEvent() returns (s: State)
    ensures Reachable(s) && s == Empty().(creators := map[7 := Written(REQUEST, 0, 1, 0)], nextId := 2)
  {
    s := Inserts();
    s := Next(s, ByCreator(7, WriteEvent));
    assert s.creators == map[7 := Written(REQUEST, 0, 1, 0)];
  }

  lemma Creates() returns (s: State)
    ensures Reachable(s) && Rows(s, Queued, false) && Claimable(s, 1)
    ensures s.broker == Empty().broker && s.publishers == map[] && s.workers == map[] && s.nextId == 2
  {
    s := WritesEvent();
    s := Next(s, ByCreator(7, Commit(true, true)));
  }

  lemma Claims() returns (s: State)
    ensures Reachable(s) && Rows(s, Queued, false) && PublisherOf(s, 3) == Holding([1], s.clock, Unsent)
    ensures s.broker == Empty().broker && s.workers == map[] && s.nextId == 2
  {
    s := Creates();
    Leases.ClaimableAlone(s, 1);
    s := Next(s, ByPublisher(3, Claim([1], s.outbox.Keys - {1}, true)));
  }

  lemma Sends() returns (s: State)
    ensures Reachable(s) && Rows(s, Queued, false) && PublisherOf(s, 3) == Holding([1], s.clock, Confirmed)
    ensures Queue(s, {2}, map[]) && s.workers == map[]
  {
    s := Claims();
    s := Next(s, ByPublisher(3, Send(true, true)));
    s := Next(s, ByPublisher(3, Confirmation(true)));
  }

  /** The mark that ends the batch takes effect or not. */
  lemma Marks(marked: bool) returns (s: State)
    ensures Reachable(s) && Rows(s, Queued, marked) && Queue(s, {2}, map[]) && s.workers == map[]
  {
    s := Sends();
    s := Next(s, ByPublisher(3, Mark(marked, marked)));
  }

  // ---------------------------------------------------------------- single steps of the workers

  lemma Delivers(s: State, w: Id) returns (t: State)
    requires Reachable(s) && Queue(s, {2}, map[]) && WorkerOf(s, w) == Worker(None, true)
    ensures Reachable(t) && Queue(t, {}, map[2 := Delivery(w, false)]) && t == s.(broker := t.broker)
  {
    assert HeldBy(s.broker, w) == {};
    t := Next(s, ByChannel(w, Deliver(2)));
  }

  lemma Takes(s: State, w: Id) returns (t: State)
    requires Reachable(s) && Queue(s, {2}, map[]) && WorkerOf(s, w) == Worker(None, true)
    ensures Reachable(t) && Queue(t, {}, map[2 := Delivery(w, true)]) && At(t, w, Received, true)
    ensures t == s.(broker := t.broker, workers := s.workers[w := Worker(Some(Job(2, Received)), true)], work := t.work)
  {
    var u := Delivers(s, w);
    t := Next(u, ByChannel(w, Take(2)));
  }

  /** What a step of worker `w` on the import changes. */
  ghost predicate Works(s: State, w: Id, t: State, status: Status, published: bool) {
    (
      && Reachable(t) && Rows(t, status, published)
      && t.broker == s.broker && t.publishers == s.publishers
      && (forall v :: v != w ==> WorkerOf(t, v) == WorkerOf(s, v))
    ) == true
  }

  lemma Framed(s: State, w: Id, step: WorkerStep, t: State)
    requires Reachable(s) && WorkerEnabled(s, w, step) && t == WorkerApply(s, w, step)
    ensures WorkerFrame(s, w, t) && s.work.attempts.Keys == s.imports.Keys
  {
    ReachableOk(s);
    WorkerFramed(s, w, step);
  }

  lemma Starts(s: State, w: Id, status: Status, published: bool) returns (t: State, n: nat)
    requires Reachable(s) && Rows(s, status, published) && 2 in s.broker.copies && s.broker.copies[2].body == BODY
    requires At(s, w, Received, true)
    ensures Works(s, w, t, Processing, published) && At(t, w, Calling(n, 0), true)
  {
    t := Next(s, ByWorker(w, Start(true, true)));
    n := s.imports[0].attempts + 1;
    Framed(s, w, Start(true, true), t);
  }

  lemma Calls(s: State, w: Id, n: nat, published: bool) returns (t: State)
    requires Reachable(s) && Rows(s, Processing, published) && 2 in s.broker.copies && s.broker.copies[2].body == BODY
    requires At(s, w, Calling(n, 0), true)
    ensures Works(s, w, t, Processing, published) && At(t, w, Passed(n), true)
  {
    t := Next(s, ByWorker(w, Call(true)));
    Framed(s, w, Call(true), t);
  }

  lemma ErrorStorable()
    ensures Storable(SafeMessage(Some(ERROR)))
  {
    assert CharLength(ERROR) == 1 && ERROR[1..] == [];
    StorableIff(ERROR);
  }

  lemma UpdatedRows(s: State, w: Id, row: Import, work: Work, phase: Phase, attached: bool, status: Status,
                    published: bool, t: State)
    requires Rows(s, status, published) && Busy(s, w) && WorkerOf(s, w).attached == attached && JobOf(s, w).copy == 2
    requires t == RowUpdate(s, w, 0, row, work, phase)
    ensures Rows(t, row.status, published) && At(t, w, phase, attached)
  {
  }

  lemma FinalRows(s: State, w: Id, phase: Phase, attached: bool, status: Status, published: bool, t: State)
    requires Rows(s, status, published) && 2 in s.broker.copies && s.broker.copies[2].body == BODY
    requires At(s, w, phase, attached) && (phase.Passed? || phase.Refused?)
    requires t == DoComplete(s, w, JobOf(s, w), true, true)
    ensures Rows(t, if phase.Passed? then Succeeded else DeadLetter, published)
    ensures At(t, w, if phase.Passed? then Completed else Doomed, attached)
  {
    var j := JobOf(s, w);
    UpdatedRows(s, w, FinalRow(s, 0, phase), FinalWork(s, 0, j), if phase.Passed? then Completed else Doomed, attached,
                status, published, t);
  }

  lemma Completes(s: State, w: Id, phase: Phase, attached: bool, status: Status, published: bool) returns (t: State)
    requires Reachable(s) && Rows(s, status, published) && 2 in s.broker.copies && s.broker.copies[2].body == BODY
    requires At(s, w, phase, attached) && (phase.Passed? || (phase.Refused? && phase.error == ERROR))
    ensures t == WorkerApply(s, w, Complete(true, true))
    ensures Works(s, w, t, if phase.Passed? then Succeeded else DeadLetter, published)
    ensures At(t, w, if phase.Passed? then Completed else Doomed, attached)
  {
    ErrorStorable();
    t := Next(s, ByWorker(w, Complete(true, true)));
    Framed(s, w, Complete(true, true), t);
    FinalRows(s, w, phase, attached, status, published, t);
  }

  lemma Detaches(s: State, w: Id, phase: Phase) returns (t: State)
    requires Reachable(s) && Queue(s, {}, map[2 := Delivery(w, true)]) && At(s, w, phase, true)
    ensures Reachable(t) && Queue(t, {2}, map[]) && At(t, w, phase, false)
    ensures t == s.(broker := t.broker, workers := s.workers[w := Worker(Some(Job(2, phase)), false)])
  {
    assert HeldBy(s.broker, w) == {2};
    t := Next(s, ByChannel(w, Detach));
  }

  lemma Acknowledges(s: State, w: Id) returns (t: State)
    requires Reachable(s) && Queue(s, {}, map[2 := Delivery(w, true)]) && At(s, w, Completed, true)
    ensures Reachable(t) && Queue(t, {}, map[])
    ensures t == s.(broker := t.broker, workers := s.workers[w := Worker(None, true)])
  {
    t := Next(s, ByChannel(w, Ack(true)));
    assert s.broker.unacked - {2} == map[];
  }

  // ---------------------------------------------------------------- the run

  /** The import is queued, and no worker has done anything yet. */
  ghost predicate Waits(s: State, published: bool) {
    (Reachable(s) && Rows(s, Queued, published) && Queue(s, {2}, map[]) && s.workers == map[]) == true
  }

  /** Worker 4 starts the import and loses its connection. */
  lemma FirstDelivery(start: State, published: bool) returns (s: State, n: nat)
    requires Waits(start, published)
    ensures Reachable(s) && Rows(s, Processing, published) && Queue(s, {2}, map[]) && s.publishers == start.publishers
    ensures At(s, 4, Calling(n, 0), false) && WorkerOf(s, 5) == Worker(None, true)
  {
    s := Takes(start, 4);
    assert WorkerOf(s, 5) == Worker(None, true);
    s, n := Starts(s, 4, Queued, published);
    assert WorkerOf(s, 5) == Worker(None, true);
    s := Detaches(s, 4, Calling(n, 0));
  }

  /** Worker 5 gets the message again and succeeds. */
  lemma SecondDelivery(start: State, published: bool) returns (s: State, n: nat)
    requires Waits(start, published)
    ensures Reachable(s) && Rows(s, Succeeded, published) && Queue(s, {}, map[2 := Delivery(5, true)])
    ensures At(s, 4, Calling(n, 0), false) && At(s, 5, Completed, true) && s.publishers == start.publishers
  {
    var m;
    s, n := FirstDelivery(start, published);
    s := Takes(s, 5);
    s, m := Starts(s, 5, Processing, published);
    s := Calls(s, 5, m, published);
    s := Completes(s, 5, Passed(m), true, Processing, published);
  }

  /** It acknowledges the message, and worker 4, still at work, gives up. */
  lemma GivesUp(start: State, published: bool) returns (s: State, n: nat)
    requires Waits(start, published)
    ensures Reachable(s) && Rows(s, Succeeded, published) && Queue(s, {}, map[]) && At(s, 4, Refused(n, ERROR), false)
    ensures s.publishers == start.publishers
  {
    s, n := SecondDelivery(start, published);
    s := Acknowledges(s, 5);
    s := Next(s, ByWorker(4, GiveUp(ERROR)));
  }

  const LAST_STEP := ByWorker(4, Complete(true, true))

  lemma WritesDeadLetter(start: State, published: bool) returns (s: State, t: State)
    requires Waits(start, published)
    ensures Reachable(s) && Reachable(t) && Goes(s, LAST_STEP, t) && StaleWrite(s, LAST_STEP)
    ensures Rows(t, DeadLetter, published) && !Carried(t, 0) && t.publishers == start.publishers
  {
    var n;
    s, n := GivesUp(start, published);
    t := Completes(s, 4, Refused(n, ERROR), false, Succeeded, published);
    assert s.broker.copies[2].origin == Some(1);
  }

  lemma Finishes(s: State, n: nat, t: State)
    requires Rows(s, Succeeded, true) && 2 in s.broker.copies && s.broker.copies[2].body == BODY
    requires At(s, 4, Refused(n, ERROR), false) && WorkerEnabled(s, 4, Complete(true, true))
    requires t == WorkerApply(s, 4, Complete(true, true))
    ensures Regresses(s, LAST_STEP, 0) && Goes(s, LAST_STEP, t)
  {
  }

  /** So a finished import can be finished otherwise: its SUCCEEDED row becomes DEAD_LETTER. */
  lemma AFinishedImportCanRegress()
    ensures exists s, t ::
              && Reachable(s) && Goes(s, LAST_STEP, t) && 0 in s.imports && Regresses(s, LAST_STEP, 0)
              && s.imports[0].status == Succeeded && 0 in t.imports && t.imports[0].status == DeadLetter
  {
    var start := Marks(true);
    var s, n := GivesUp(start, true);
    var t := Completes(s, 4, Refused(n, ERROR), false, Succeeded, true);
    Finishes(s, n, t);
  }

  /** So without fail-stop workers an import can be lost: its row says DEAD_LETTER, its event is published, and no copy
      of its message is queued, held or dead-lettered. */
  lemma AnImportCanBeLost()
    ensures exists s :: Reachable(s) && 0 in s.imports && s.imports[0].status == DeadLetter && Lost(s, 0)
  {
    var start := Marks(true);
    var s, t := WritesDeadLetter(start, true);
    assert Lost(t, 0);
  }

  lemma Sound(s: State)
    requires Reachable(s)
    ensures HoldsOk(s) && Channels(s) && JobsOk(s) && s.work.attempts.Keys == s.imports.Keys
  {
    ReachableOk(s);
  }

  /** And not every stale write loses one: had the publisher's mark failed, the same step would leave the import with
      its event still to be published. */
  lemma AStaleWriteCanBeHarmless()
    ensures exists s, t ::
              Reachable(s) && Goes(s, LAST_STEP, t) && StaleWrite(s, LAST_STEP) && !AllSafe(t) && NoneLost(t)
  {
    var start := Marks(false);
    var s, t := WritesDeadLetter(start, false);
    Sound(s);
    StaleBreaks(s, 4, Complete(true, true), t);
    assert NoneLost(t);
  }

  /** Publisher 3's applied mark is a losing step: nothing is lost before it, and import 0 is lost after it. */
  ghost predicate LosesByMark(s: State, t: State) {
    (
      && Goes(s, ByPublisher(3, Mark(true, true)), t) && MarksUnattended(s, ByPublisher(3, Mark(true, true)))
      && NoneLost(s) && 0 in t.imports && Lost(t, 0)
    ) == true
  }

  lemma MarkedLate(s: State, t: State)
    requires Rows(s, DeadLetter, false) && !Carried(s, 0) && Goes(s, ByPublisher(3, Mark(true, true)), t)
    requires PublisherOf(s, 3).Holding? && PublisherOf(s, 3).batch == [1]
    ensures LosesByMark(s, t)
  {
    SameCarried(s, t, 0);
  }

  /** Had it only come late, the mark itself would lose the import: until then the event was still to be published. */
  lemma AMarkCanLose()
    ensures exists s, t :: Reachable(s) && LosesByMark(s, t)
  {
    var start := Sends();
    var r, s := WritesDeadLetter(start, false);
    var t := Next(s, ByPublisher(3, Mark(true, true)));
    MarkedLate(s, t);
  }
}
