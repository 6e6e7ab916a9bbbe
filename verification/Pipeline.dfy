/** The import pipeline as one step system: the API's create transactions, the outbox publishers, the broker,
    the workers and their surroundings. Every SQL statement, publish, confirm, ack, nack or crash is one step,
    and everything that may go one way or the other is a parameter of the step.
    (Here and in the modules about it, an invariant is written `(...) == true`, so that the verifier passes it
    around as one fact instead of conjunct by conjunct.) */
module Pipeline {
  import opened Text

  type Id = nat

  const BATCH := 25         // publishBatch claims at most this many events
  const LEASE := 60_000     // interval '1 minute', in milliseconds
  const PREFETCH := 10      // Qos

  // ---------------------------------------------------------------- tables

  datatype Status = Queued | Processing | Succeeded | Failed | DeadLetter

  datatype Request = Request(tenant: string, key: string, source: string, records: int)

  datatype Key = Key(tenant: string, key: string)

  datatype Import = Import(tenant: string, key: string, source: string, records: int,
                           status: Status, attempts: nat, lastError: Bytes, processedAt: Option<nat>)

  datatype Payload = Payload(importId: Id, tenant: string, source: string, records: int)

  /** The JSON text of an event: it decodes to a payload or it does not. */
  datatype Body = Malformed | Decoded(payload: Payload)

  datatype Event = Event(body: Body, createdAt: nat,
                         lockedAt: Option<nat>, lockedBy: Option<Id>, publishedAt: Option<nat>)

  // ---------------------------------------------------------------- broker

  /** A copy of a message that entered the process queue, with the outbox event it was sent for, if any. */
  datatype Copy = Copy(origin: Option<Id>, body: Body)

  /** An unacknowledged delivery: the worker's channel that holds it, and whether the worker took it up. */
  datatype Delivery = Delivery(worker: Id, taken: bool)

  // ---------------------------------------------------------------- processes

  /** A create transaction. Nothing it wrote is visible to anyone before its commit. */
  datatype Creator =
    | NoTransaction
    | Snapshot(req: Request, seen: Option<Id>, began: nat)
    | Inserted(req: Request, id: Id, began: nat)
    | Written(req: Request, id: Id, event: Id, began: nat)
    | Replaying(req: Request, id: Id)

  datatype Head = Unsent | Awaiting(stored: bool) | Confirmed | Unpublished

  /** A publisher between two batches, or inside one: the events left, its claim time, and how far the first one is. */
  datatype Publisher = Resting | Holding(batch: seq<Id>, since: nat, head: Head)

  datatype Phase =
    | Received
    | Calling(attempt: nat, made: nat)
    | Passed(attempt: nat)
    | Refused(attempt: nat, error: Bytes)
    | Completed
    | Doomed

  datatype Job = Job(copy: Id, phase: Phase)

  /** A worker process; it is attached while its broker channel is open. */
  datatype Worker = Worker(job: Option<Job>, attached: bool)

  // ---------------------------------------------------------------- history variables, never read by a step

  datatype Reply = Reply(key: Key, id: Id, replay: bool)

  /** What the create transactions achieved: the event made for each import, and the successful answers. */
  datatype Creations = Creations(eventOf: map<Id, Id>, replies: seq<Reply>)

  /** What the publishers achieved: how often each event was claimed, and which were confirmed to their sender. */
  datatype Publications = Publications(claims: map<Id, nat>, confirmed: set<Id>)

  /** One applied StartProcessing: the integration calls made under it, and whether its final update was applied. */
  datatype Attempt = Attempt(calls: nat, completed: bool)

  /** What the workers achieved: how often a message naming an import was taken up, its applied StartProcessing
      updates, the imports with a successful integration call, and the copies whose own SUCCEEDED update was applied. */
  datatype Work = Work(takes: multiset<Id>, attempts: map<Id, seq<Attempt>>, passed: set<Id>, done: set<Id>)

  // ---------------------------------------------------------------- the state

  /** Every copy that ever entered the queue, and where it is now. */
  datatype Broker = Broker(copies: map<Id, Copy>, ready: set<Id>, unacked: map<Id, Delivery>, acked: set<Id>,
      dead: set<Id>)

  datatype State = State(
    clock: nat, nextId: Id,
    imports: map<Id, Import>, index: map<Key, Id>, outbox: map<Id, Event>,
    broker: Broker,
    creators: map<Id, Creator>, publishers: map<Id, Publisher>, workers: map<Id, Worker>,
    creations: Creations, publications: Publications, work: Work)

  function Empty(): State {
    State(0, 0, map[], map[], map[], Broker(map[], {}, map[], {}, {}), map[], map[], map[],
          Creations(map[], []), Publications(map[], {}), Work(multiset{}, map[], {}, {}))
  }

  function KeyOf(r: Request): Key { Key(r.tenant, r.key) }

  function CreatorOf(s: State, c: Id): Creator { if c in s.creators then s.creators[c] else NoTransaction }

  function PublisherOf(s: State, p: Id): Publisher { if p in s.publishers then s.publishers[p] else Resting }

  function WorkerOf(s: State, w: Id): Worker { if w in s.workers then s.workers[w] else Worker(None, true) }

  // ---------------------------------------------------------------- steps

  datatype CreatorStep =
    | Begin(req: Request)
    | Insert
    | Conflict
    | WriteEvent
    | Commit(applied: bool, reported: bool)
    | Abort

  datatype PublisherStep =
    | Claim(batch: seq<Id>, skipped: set<Id>, reported: bool)
    | Undecodable
    | Send(stored: bool, reported: bool)
    | Confirmation(positive: bool)
    | Mark(applied: bool, reported: bool)
    | Release(applied: bool)
    | Halt

  /** What happens between the broker and a worker's channel. */
  datatype ChannelStep =
    | Deliver(copy: Id)
    | Take(copy: Id)
    | Ack(applied: bool)
    | Nack(applied: bool)
    | Detach
    | Stop

  /** What a worker does about the message it has taken up. */
  datatype WorkerStep =
    | BadBody
    | Start(applied: bool, reported: bool)
    | Call(ok: bool)
    | GiveUp(error: Bytes)
    | Complete(applied: bool, reported: bool)

  datatype Step =
    | ByCreator(c: Id, creator: CreatorStep)
    | ByPublisher(p: Id, publisher: PublisherStep)
    | ByChannel(w: Id, channel: ChannelStep)
    | ByWorker(v: Id, worker: WorkerStep)
    | Tick(elapsed: nat)
    | Inject(body: Body)

  // ---------------------------------------------------------------- CreateImport

  /** A transaction that has inserted a row for the key and is still open makes others wait. */
  predicate KeyHeld(s: State, k: Key) {
    exists c :: c in s.creators && Holds(s.creators[c], k)
  }

  predicate Holds(c: Creator, k: Key) { (c.Inserted? || c.Written?) && KeyOf(c.req) == k }

  predicate CreatorEnabled(s: State, c: Id, step: CreatorStep) {
    var phase := CreatorOf(s, c);
    match step
    case Begin(req) => phase.NoTransaction?
    case Insert => phase.Snapshot? && KeyOf(phase.req) !in s.index && !KeyHeld(s, KeyOf(phase.req))
                   && 1 <= phase.req.records <= 10_000
    case Conflict => phase.Snapshot? && KeyOf(phase.req) in s.index
    case WriteEvent => phase.Inserted?
    case Commit(applied, reported) => (phase.Written? || phase.Replaying?) && (reported ==> applied)
    case Abort => true
  }

  function SetCreator(s: State, c: Id, phase: Creator): State { s.(creators := s.creators[c := phase]) }

  function NewImport(r: Request): Import {
    Import(r.tenant, r.key, r.source, r.records, Queued, 0, [], None)
  }

  function NewEvent(r: Request, id: Id, began: nat): Event {
    Event(Decoded(Payload(id, r.tenant, r.source, r.records)), began, None, None, None)
  }

  /** Row and event become visible together. */
  function CommitRows(s: State, r: Request, id: Id, event: Id, began: nat): State {
    s.(imports := s.imports[id := NewImport(r)],
       index := s.index[KeyOf(r) := id],
       outbox := s.outbox[event := NewEvent(r, id, began)],
       creations := s.creations.(eventOf := s.creations.eventOf[id := event]),
       publications := s.publications.(claims := s.publications.claims[event := 0]),
       work := s.work.(attempts := s.work.attempts[id := []]))
  }

  function Answered(s: State, reply: Reply): State {
    s.(creations := s.creations.(replies := s.creations.replies + [reply]))
  }

  function DoBegin(s: State, c: Id, req: Request): State {
    SetCreator(s, c, Snapshot(req, if KeyOf(req) in s.index then Some(s.index[KeyOf(req)]) else None, s.clock))
  }

  function DoInsert(s: State, c: Id, phase: Creator): State
    requires phase.Snapshot?
  {
    SetCreator(s, c, Inserted(phase.req, s.nextId, phase.began)).(nextId := s.nextId + 1)
  }

  /** The second arm of the UNION reads with the statement's snapshot: a row committed after it is not seen,
      and the query then returns no row at all. */
  function DoConflict(s: State, c: Id, phase: Creator): State
    requires phase.Snapshot?
  {
    SetCreator(s, c, if phase.seen.Some? then Replaying(phase.req, phase.seen.value) else NoTransaction)
  }

  function DoWriteEvent(s: State, c: Id, phase: Creator): State
    requires phase.Inserted?
  {
    SetCreator(s, c, Written(phase.req, phase.id, s.nextId, phase.began)).(nextId := s.nextId + 1)
  }

  function DoCommit(s: State, c: Id, phase: Creator, applied: bool, reported: bool): State
    requires phase.Written? || phase.Replaying?
  {
    var s1 := if applied && phase.Written? then CommitRows(s, phase.req, phase.id, phase.event, phase.began) else s;
    var s2 := if reported then Answered(s1, Reply(KeyOf(phase.req), phase.id, phase.Replaying?)) else s1;
    SetCreator(s2, c, NoTransaction)
  }

  function CreatorApply(s: State, c: Id, step: CreatorStep): State
    requires CreatorEnabled(s, c, step)
  {
    match step
    case Begin(req) => DoBegin(s, c, req)
    case Insert => DoInsert(s, c, CreatorOf(s, c))
    case Conflict => DoConflict(s, c, CreatorOf(s, c))
    case WriteEvent => DoWriteEvent(s, c, CreatorOf(s, c))
    case Commit(applied, reported) => DoCommit(s, c, CreatorOf(s, c), applied, reported)
    case Abort => SetCreator(s, c, NoTransaction)
  }

  // ---------------------------------------------------------------- publishBatch

  predicate Claimable(s: State, e: Id) {
    && e in s.outbox
    && s.outbox[e].publishedAt == None
    && (s.outbox[e].lockedAt == None || s.outbox[e].lockedAt.value + LEASE < s.clock)
  }

  predicate Distinct(ids: seq<Id>) {
    forall i, j :: 0 <= i < j < |ids| ==> ids[i] != ids[j]
  }

  /** What the claim query may return: of the claimable rows that nobody has locked at this moment, the oldest
      up to the limit, in any order. */
  predicate ClaimResult(s: State, batch: seq<Id>, skipped: set<Id>) {
    && Distinct(batch)
    && |batch| <= BATCH
    && (forall e :: e in batch ==> Claimable(s, e) && e !in skipped)
    && (|batch| < BATCH ==> forall e :: e in s.outbox && Claimable(s, e) && e !in skipped ==> e in batch)
    && (forall e, b :: e in s.outbox && Claimable(s, e) && e !in skipped && e !in batch && b in batch ==>
          s.outbox[b].createdAt <= s.outbox[e].createdAt)
  }

  /** The event a publisher is at. */
  predicate AtEvent(s: State, phase: Publisher) {
    phase.Holding? && phase.batch != [] && phase.batch[0] in s.outbox
  }

  predicate PublisherEnabled(s: State, p: Id, step: PublisherStep) {
    var phase := PublisherOf(s, p);
    match step
    case Claim(batch, skipped, reported) => phase.Resting? && ClaimResult(s, batch, skipped)
    case Undecodable => AtEvent(s, phase) && phase.head.Unsent? && s.outbox[phase.batch[0]].body.Malformed?
    case Send(stored, reported) => AtEvent(s, phase) && phase.head.Unsent? && s.outbox[phase.batch[0]].body.Decoded?
    case Confirmation(positive) => AtEvent(s, phase) && phase.head.Awaiting? && (positive ==> phase.head.stored)
    case Mark(applied, reported) => AtEvent(s, phase) && phase.head.Confirmed? && (reported ==> applied)
    case Release(applied) => AtEvent(s, phase) && phase.head.Unpublished?
    case Halt => true
  }

  function SetPublisher(s: State, p: Id, phase: Publisher): State { s.(publishers := s.publishers[p := phase]) }

  function LeaseRows(outbox: map<Id, Event>, p: Id, batch: seq<Id>, now: nat): map<Id, Event> {
    map e | e in outbox :: if e in batch then outbox[e].(lockedAt := Some(now), lockedBy := Some(p)) else outbox[e]
  }

  function CountClaims(claims: map<Id, nat>, batch: seq<Id>): map<Id, nat> {
    map e | e in claims :: if e in batch then claims[e] + 1 else claims[e]
  }

  function Enqueue(s: State, copy: Copy): State {
    s.(broker := s.broker.(copies := s.broker.copies[s.nextId := copy], ready := s.broker.ready + {s.nextId}),
       nextId := s.nextId + 1)
  }

  function SetEvent(s: State, e: Id, row: Event): State { s.(outbox := s.outbox[e := row]) }

  function Rest(batch: seq<Id>, since: nat): Publisher {
    if batch == [] then Resting else Holding(batch, since, Unsent)
  }

  function DoClaim(s: State, p: Id, batch: seq<Id>, reported: bool): State {
    s.(outbox := LeaseRows(s.outbox, p, batch, s.clock),
       publications := s.publications.(claims := CountClaims(s.publications.claims, batch)),
       publishers := s.publishers[p := if reported then Rest(batch, s.clock) else Resting])
  }

  function DoSend(s: State, p: Id, phase: Publisher, stored: bool, reported: bool): State
    requires AtEvent(s, phase)
  {
    var s1 := if stored then Enqueue(s, Copy(Some(phase.batch[0]), s.outbox[phase.batch[0]].body)) else s;
    SetPublisher(s1, p, phase.(head := if reported then Awaiting(stored) else Unpublished))
  }

  function DoConfirmation(s: State, p: Id, phase: Publisher, positive: bool): State
    requires AtEvent(s, phase)
  {
    var s1 := if positive
              then s.(publications := s.publications.(confirmed := s.publications.confirmed + {phase.batch[0]}))
              else s;
    SetPublisher(s1, p, phase.(head := if positive then Confirmed else Unpublished))
  }

  /** MarkOutboxPublished looks at neither the lease nor its owner. */
  function DoMark(s: State, p: Id, phase: Publisher, applied: bool, reported: bool): State
    requires AtEvent(s, phase)
  {
    var e := phase.batch[0];
    var s1 := if applied
              then SetEvent(s, e, s.outbox[e].(publishedAt := Some(s.clock), lockedAt := None, lockedBy := None))
              else s;
    SetPublisher(s1, p, if reported then Rest(phase.batch[1..], phase.since) else Resting)
  }

  /** ReleaseOutbox neither; and the batch is given up with only this event released. */
  function DoRelease(s: State, p: Id, phase: Publisher, applied: bool): State
    requires AtEvent(s, phase)
  {
    var e := phase.batch[0];
    SetPublisher(if applied then SetEvent(s, e, s.outbox[e].(lockedAt := None, lockedBy := None)) else s, p, Resting)
  }

  function PublisherApply(s: State, p: Id, step: PublisherStep): State
    requires PublisherEnabled(s, p, step)
  {
    match step
    case Claim(batch, skipped, reported) => DoClaim(s, p, batch, reported)
    case Undecodable => SetPublisher(s, p, PublisherOf(s, p).(head := Unpublished))
    case Send(stored, reported) => DoSend(s, p, PublisherOf(s, p), stored, reported)
    case Confirmation(positive) => DoConfirmation(s, p, PublisherOf(s, p), positive)
    case Mark(applied, reported) => DoMark(s, p, PublisherOf(s, p), applied, reported)
    case Release(applied) => DoRelease(s, p, PublisherOf(s, p), applied)
    case Halt => SetPublisher(s, p, Resting)
  }

  // ---------------------------------------------------------------- the worker's channel

  function HeldBy(b: Broker, w: Id): set<Id> { set c | c in b.unacked && b.unacked[c].worker == w }

  function BodyOf(b: Broker, copy: Id): Body { if copy in b.copies then b.copies[copy].body else Malformed }

  predicate Busy(s: State, w: Id) { WorkerOf(s, w).job.Some? }

  function JobOf(s: State, w: Id): Job
    requires Busy(s, w)
  {
    WorkerOf(s, w).job.value
  }

  predicate ChannelEnabled(s: State, w: Id, step: ChannelStep) {
    var attached := WorkerOf(s, w).attached;
    match step
    case Deliver(copy) => attached && copy in s.broker.ready && |HeldBy(s.broker, w)| < PREFETCH
    case Take(copy) => attached && !Busy(s, w) && copy in s.broker.unacked
        && s.broker.unacked[copy] == Delivery(w, false)
    case Ack(applied) => Busy(s, w) && JobOf(s, w).phase.Completed? && (applied ==> attached)
    case Nack(applied) => Busy(s, w) && JobOf(s, w).phase.Doomed? && (applied ==> attached)
    case Detach => attached
    case Stop => true
  }

  function SetWorker(s: State, w: Id, worker: Worker): State { s.(workers := s.workers[w := worker]) }

  function CountTake(takes: multiset<Id>, body: Body): multiset<Id> {
    if body.Decoded? then takes + multiset{body.payload.importId} else takes
  }

  function Requeue(b: Broker, w: Id): Broker {
    b.(ready := b.ready + HeldBy(b, w), unacked := b.unacked - HeldBy(b, w))
  }

  function DoDeliver(s: State, w: Id, copy: Id): State {
    s.(broker := s.broker.(ready := s.broker.ready - {copy}, unacked := s.broker.unacked[copy := Delivery(w, false)]))
  }

  function DoTake(s: State, w: Id, copy: Id): State {
    s.(broker := s.broker.(unacked := s.broker.unacked[copy := Delivery(w, true)]),
       workers := s.workers[w := WorkerOf(s, w).(job := Some(Job(copy, Received)))],
       work := s.work.(takes := CountTake(s.work.takes, BodyOf(s.broker, copy))))
  }

  /** Nothing settles a delivery but its own channel: an attempt that does not arrive leaves it unacknowledged. */
  function DoSettle(s: State, w: Id, copy: Id, applied: bool, ack: bool): State {
    var b := s.broker;
    var b1 := if !applied then b
              else if ack then b.(unacked := b.unacked - {copy}, acked := b.acked + {copy})
              else b.(unacked := b.unacked - {copy}, dead := b.dead + {copy});
    s.(broker := b1, workers := s.workers[w := WorkerOf(s, w).(job := None)])
  }

  /** The connection is lost: the broker requeues what the channel held. A worker that is busy goes on. */
  function DoDetach(s: State, w: Id): State {
    s.(broker := Requeue(s.broker, w), workers := s.workers[w := WorkerOf(s, w).(attached := false)])
  }

  /** The process ends; its successor starts afresh with a new connection. */
  function DoStop(s: State, w: Id): State {
    s.(broker := Requeue(s.broker, w), workers := s.workers[w := Worker(None, true)])
  }

  function ChannelApply(s: State, w: Id, step: ChannelStep): State
    requires ChannelEnabled(s, w, step)
  {
    match step
    case Deliver(copy) => DoDeliver(s, w, copy)
    case Take(copy) => DoTake(s, w, copy)
    case Ack(applied) => DoSettle(s, w, JobOf(s, w).copy, applied, true)
    case Nack(applied) => DoSettle(s, w, JobOf(s, w).copy, applied, false)
    case Detach => DoDetach(s, w)
    case Stop => DoStop(s, w)
  }

  // ---------------------------------------------------------------- processDelivery

  /** The row a message names, if there is one. */
  predicate OnRow(s: State, copy: Id) {
    BodyOf(s.broker, copy).Decoded? && BodyOf(s.broker, copy).payload.importId in s.imports
  }

  function RowOf(s: State, copy: Id): Id
    requires BodyOf(s.broker, copy).Decoded?
  {
    BodyOf(s.broker, copy).payload.importId
  }

  /** Whether the final update of a delivery can take effect: PostgreSQL refuses an error text it cannot store. */
  predicate Recordable(phase: Phase) { phase.Refused? ==> Storable(SafeMessage(Some(phase.error))) }

  predicate WorkerEnabled(s: State, w: Id, step: WorkerStep) {
    Busy(s, w) &&
    var j := JobOf(s, w);
    match step
    case BadBody => j.phase.Received? && BodyOf(s.broker, j.copy).Malformed?
    case Start(applied, reported) => j.phase.Received? && BodyOf(s.broker, j.copy).Decoded? && (reported ==> applied)
    case Call(ok) => j.phase.Calling? && j.phase.made < 3
    case GiveUp(error) => j.phase.Calling? && error != []
    case Complete(applied, reported) =>
      (j.phase.Passed? || j.phase.Refused?) && (reported ==> applied) && (applied ==> Recordable(j.phase))
  }

  function InPhase(s: State, w: Id, phase: Phase): State
    requires Busy(s, w)
  {
    SetWorker(s, w, WorkerOf(s, w).(job := Some(Job(JobOf(s, w).copy, phase))))
  }

  function AttemptsOf(s: State, i: Id): seq<Attempt> { if i in s.work.attempts then s.work.attempts[i] else [] }

  /** One row, what is known of its attempts, and the worker's phase change together. */
  function RowUpdate(s: State, w: Id, i: Id, row: Import, work: Work, phase: Phase): State
    requires Busy(s, w)
  {
    InPhase(s.(imports := s.imports[i := row], work := work), w, phase)
  }

  function Changed(attempts: seq<Attempt>, n: nat, calls: nat, completed: bool): seq<Attempt> {
    if 1 <= n <= |attempts|
    then attempts[n - 1 := Attempt(attempts[n - 1].calls + calls, attempts[n - 1].completed || completed)]
    else attempts
  }

  /** StartProcessing has no guard on the status: a later delivery takes a finished import up again. */
  function StartedRow(row: Import): Import {
    row.(status := Processing, attempts := row.attempts + 1, lastError := [])
  }

  function CompletedRow(row: Import, status: Status, error: Bytes, now: nat): Import {
    row.(status := status, lastError := error, processedAt := Some(now))
  }

  function DoStart(s: State, w: Id, j: Job, applied: bool, reported: bool): State
    requires Busy(s, w) && BodyOf(s.broker, j.copy).Decoded?
  {
    if !OnRow(s, j.copy) || !applied then InPhase(s, w, Doomed)
    else
      var i := RowOf(s, j.copy);
      RowUpdate(s, w, i, StartedRow(s.imports[i]),
                s.work.(attempts := s.work.attempts[i := AttemptsOf(s, i) + [Attempt(0, false)]]),
                if reported then Calling(s.imports[i].attempts + 1, 0) else Doomed)
  }

  function CalledWork(s: State, i: Id, n: nat, ok: bool): Work {
    s.work.(attempts := s.work.attempts[i := Changed(AttemptsOf(s, i), n, 1, false)],
            passed := if ok then s.work.passed + {i} else s.work.passed)
  }

  function DoCall(s: State, w: Id, j: Job, ok: bool): State
    requires Busy(s, w) && j.phase.Calling?
  {
    if !OnRow(s, j.copy) then InPhase(s, w, Doomed)
    else
      var i := RowOf(s, j.copy);
      RowUpdate(s, w, i, s.imports[i], CalledWork(s, i, j.phase.attempt, ok),
                if ok then Passed(j.phase.attempt) else Calling(j.phase.attempt, j.phase.made + 1))
  }

  function FinalRow(s: State, i: Id, phase: Phase): Import
    requires i in s.imports && (phase.Passed? || phase.Refused?)
  {
    if phase.Passed? then CompletedRow(s.imports[i], Succeeded, SafeMessage(None), s.clock)
    else CompletedRow(s.imports[i], DeadLetter, SafeMessage(Some(phase.error)), s.clock)
  }

  function FinalWork(s: State, i: Id, j: Job): Work
    requires j.phase.Passed? || j.phase.Refused?
  {
    s.work.(attempts := s.work.attempts[i := Changed(AttemptsOf(s, i), j.phase.attempt, 0, true)],
            done := if j.phase.Passed? then s.work.done + {j.copy} else s.work.done)
  }

  /** A failed import is nacked whatever became of its final update; a succeeded one is acked only if the update
      was reported to be applied. */
  function DoComplete(s: State, w: Id, j: Job, applied: bool, reported: bool): State
    requires Busy(s, w) && (j.phase.Passed? || j.phase.Refused?)
  {
    var next := if j.phase.Passed? && reported then Completed else Doomed;
    if !OnRow(s, j.copy) then InPhase(s, w, Doomed)
    else if !applied then InPhase(s, w, next)
    else RowUpdate(s, w, RowOf(s, j.copy), FinalRow(s, RowOf(s, j.copy), j.phase), FinalWork(s, RowOf(s, j.copy), j),
        next)
  }

  function WorkerApply(s: State, w: Id, step: WorkerStep): State
    requires WorkerEnabled(s, w, step)
  {
    match step
    case BadBody => InPhase(s, w, Doomed)
    case Start(applied, reported) => DoStart(s, w, JobOf(s, w), applied, reported)
    case Call(ok) => DoCall(s, w, JobOf(s, w), ok)
    case GiveUp(error) => InPhase(s, w, Refused(JobOf(s, w).phase.attempt, error))
    case Complete(applied, reported) => DoComplete(s, w, JobOf(s, w), applied, reported)
  }

  // ---------------------------------------------------------------- runs

  predicate Enabled(s: State, step: Step) {
    match step
    case ByCreator(c, cs) => CreatorEnabled(s, c, cs)
    case ByPublisher(p, ps) => PublisherEnabled(s, p, ps)
    case ByChannel(w, cs) => ChannelEnabled(s, w, cs)
    case ByWorker(w, ws) => WorkerEnabled(s, w, ws)
    case Tick(_) => true
    case Inject(_) => true
  }

  function Apply(s: State, step: Step): State
    requires Enabled(s, step)
  {
    match step
    case ByCreator(c, cs) => CreatorApply(s, c, cs)
    case ByPublisher(p, ps) => PublisherApply(s, p, ps)
    case ByChannel(w, cs) => ChannelApply(s, w, cs)
    case ByWorker(w, ws) => WorkerApply(s, w, ws)
    case Tick(elapsed) => s.(clock := s.clock + elapsed)
    case Inject(body) => Enqueue(s, Copy(None, body))
  }

  ghost predicate Goes(s: State, step: Step, t: State) { (Enabled(s, step) && t == Apply(s, step)) == true }

  ghost predicate GoesAt(states: seq<State>, steps: seq<Step>, n: nat)
    requires n < |steps| && n + 1 < |states|
  {
    Goes(states[n], steps[n], states[n + 1])
  }

  /** A run of the whole system from the empty state: any interleaving of any processes. */
  ghost predicate Trace(states: seq<State>, steps: seq<Step>) {
    (
      && |states| == |steps| + 1
      && states[0] == Empty()
      && forall n :: 0 <= n < |steps| ==> GoesAt(states, steps, n)
    ) == true
  }
}
