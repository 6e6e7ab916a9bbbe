/** Invariants of the broker, the publishers and the workers. */
module Flow {
  import opened Text
  import opened Pipeline
  import opened Tables

  // ---------------------------------------------------------------- the broker

  /** Every copy that ever entered the queue is in exactly one place. */
  ghost predicate Places(b: Broker) {
    (
      && b.copies.Keys == b.ready + b.unacked.Keys + b.acked + b.dead
      && b.ready !! b.unacked.Keys && b.ready !! b.acked && b.ready !! b.dead
      && b.unacked.Keys !! b.acked && b.unacked.Keys !! b.dead && b.acked !! b.dead
    ) == true
  }

  /** A copy sent for an event carries that event's text. */
  ghost predicate Origins(s: State) {
    forall c :: c in s.broker.copies && s.broker.copies[c].origin.Some? ==>
      var e := s.broker.copies[c].origin.value;
      e in s.outbox && s.broker.copies[c].body == s.outbox[e].body
  }

  /** Only open channels hold deliveries. */
  ghost predicate Channels(s: State) {
    forall c :: c in s.broker.unacked ==> WorkerOf(s, s.broker.unacked[c].worker).attached
  }

  ghost predicate Enqueued(b: Broker, e: Id) {
    exists c :: c in b.copies && b.copies[c].origin == Some(e)
  }

  // ---------------------------------------------------------------- the publishers

  ghost predicate PublisherOk(s: State, p: Publisher) {
    p.Holding? ==>
      (
        && p.batch != [] && Distinct(p.batch) && p.since <= s.clock
        && (forall e :: e in p.batch ==> e in s.outbox)
        && (p.head == Awaiting(true) ==> Enqueued(s.broker, p.batch[0]))
        && (p.head == Confirmed ==> p.batch[0] in s.publications.confirmed)
      ) == true
  }

  ghost predicate PublishersOk(s: State) {
    forall p :: p in s.publishers ==> PublisherOk(s, s.publishers[p])
  }

  /** A confirmed event has a copy; a published event is confirmed and never leased. */
  ghost predicate PublicationsOk(s: State) {
    (
      && (forall e :: e in s.publications.confirmed ==> Enqueued(s.broker, e))
      && (forall e :: e in s.outbox && s.outbox[e].publishedAt.Some? ==>
            e in s.publications.confirmed && s.outbox[e].lockedAt == None)
      && (forall e :: e in s.outbox ==> (s.outbox[e].lockedAt == None <==> s.outbox[e].lockedBy == None))
    ) == true
  }

  // ---------------------------------------------------------------- the workers

  predicate Active(phase: Phase) { phase.Calling? || phase.Passed? || phase.Refused? }

  /** What a worker holds: a copy that exists, and, while its channel is open, the delivery itself. */
  ghost predicate HoldOk(s: State, w: Id, worker: Worker) {
    worker.job.Some? ==>
      (
        && worker.job.value.copy in s.broker.copies
        && (worker.attached ==> worker.job.value.copy in s.broker.unacked
                                && s.broker.unacked[worker.job.value.copy] == Delivery(w, true))
        && (worker.job.value.phase.Completed? ==> worker.job.value.copy in s.work.done)
      ) == true
  }

  ghost predicate HoldsOk(s: State) {
    (
      && (forall w :: w in s.workers ==> HoldOk(s, w, s.workers[w]))
      && s.broker.acked <= s.work.done && s.work.done <= s.broker.copies.Keys
    ) == true
  }

  /** A worker in the middle of an import owns one open attempt of its row. */
  ghost predicate JobOk(s: State, j: Job) {
    Active(j.phase) ==>
      (
        && OnRow(s, j.copy)
        && 1 <= j.phase.attempt <= |AttemptsOf(s, RowOf(s, j.copy))|
        && !AttemptsOf(s, RowOf(s, j.copy))[j.phase.attempt - 1].completed
        && (j.phase.Calling? ==> j.phase.made <= 3
                                 && AttemptsOf(s, RowOf(s, j.copy))[j.phase.attempt - 1].calls == j.phase.made)
        && (j.phase.Passed? ==> RowOf(s, j.copy) in s.work.passed)
        && (j.phase.Refused? ==> j.phase.error != [])
      ) == true
  }

  ghost predicate Separate(s: State, j: Job, k: Job) {
    Active(j.phase) && Active(k.phase) && OnRow(s, j.copy) && OnRow(s, k.copy)
        && RowOf(s, j.copy) == RowOf(s, k.copy) ==>
      j.phase.attempt != k.phase.attempt
  }

  ghost predicate JobsOk(s: State) {
    (
      && (forall w :: w in s.workers && s.workers[w].job.Some? ==> JobOk(s, s.workers[w].job.value))
      && (forall w, v ::
            w in s.workers && v in s.workers && w != v && s.workers[w].job.Some? && s.workers[v].job.Some? ==>
            Separate(s, s.workers[w].job.value, s.workers[v].job.value))
    ) == true
  }

  // ---------------------------------------------------------------- the rows

  predicate Terminal(status: Status) { status == Succeeded || status == DeadLetter }

  ghost predicate RowOk(row: Import, attempts: seq<Attempt>, passed: bool) {
    (
      && |attempts| == row.attempts
      && (forall n :: 0 <= n < |attempts| ==> attempts[n].calls <= 3)
      && row.status != Failed
      && (row.status == Queued <==> row.attempts == 0)
      && (row.status == Queued ==> row.processedAt == None)
      && (Terminal(row.status) ==> row.processedAt.Some?)
      && (row.lastError != [] <==> row.status == DeadLetter)
      && |row.lastError| <= 300 && NEWLINE !in row.lastError && Storable(row.lastError)
      && (row.status == Succeeded ==> passed)
      && (row.attempts <= 1 ==> (row.processedAt.Some? <==> Terminal(row.status)))
      && (row.attempts == 1 && Terminal(row.status) ==> attempts[0].completed)
    ) == true
  }

  ghost predicate RowsOk(s: State) {
    forall i :: i in s.imports ==> RowOk(s.imports[i], AttemptsOf(s, i), i in s.work.passed)
  }

  ghost predicate FlowOk(s: State) {
    (
      && Places(s.broker) && Origins(s) && Channels(s)
      && PublishersOk(s) && PublicationsOk(s)
      && HoldsOk(s) && JobsOk(s) && RowsOk(s)
    ) == true
  }

  /** The whole invariant. */
  ghost predicate Inv(s: State) { (TablesOk(s) && FlowOk(s)) == true }

  lemma EmptyOk()
    ensures Inv(Empty())
  {
  }

  // ---------------------------------------------------------------- broker operations keep every copy in its place

  lemma EnqueuePlaces(s: State, copy: Copy)
    requires Places(s.broker) && FreshIds(s)
    ensures Places(Enqueue(s, copy).broker)
  {
  }

  lemma ChannelPlaces(s: State, w: Id, step: ChannelStep)
    requires Places(s.broker) && HoldsOk(s) && ChannelEnabled(s, w, step)
    ensures Places(ChannelApply(s, w, step).broker)
  {
    match step
    case Deliver(copy) =>
    case Take(copy) => assert s.broker.unacked[copy := Delivery(w, true)].Keys == s.broker.unacked.Keys;
    case Ack(applied) => SettlePlaces(s, w, applied, true);
    case Nack(applied) => SettlePlaces(s, w, applied, false);
    case Detach => RequeuePlaces(s.broker, w);
    case Stop => RequeuePlaces(s.broker, w);
  }

  lemma SettlePlaces(s: State, w: Id, applied: bool, ack: bool)
    requires Places(s.broker) && HoldsOk(s) && Busy(s, w) && (applied ==> WorkerOf(s, w).attached)
    ensures Places(DoSettle(s, w, JobOf(s, w).copy, applied, ack).broker)
  {
    assert HoldOk(s, w, s.workers[w]);
    var c := JobOf(s, w).copy;
    if applied {
      assert (s.broker.unacked - {c}).Keys == s.broker.unacked.Keys - {c};
    }
  }

  lemma RequeuePlaces(b: Broker, w: Id)
    requires Places(b)
    ensures Places(Requeue(b, w))
  {
    assert (b.unacked - HeldBy(b, w)).Keys == b.unacked.Keys - HeldBy(b, w);
  }
}
