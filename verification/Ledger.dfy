/** What a reader of the tables and queues can rely on in every run, faults included. */
module Ledger {
  import opened Text
  import opened Sets
  import opened Pipeline
  import opened Tables
  import opened Flow
  import opened FlowKept

  // ---------------------------------------------------------------- publication is sound and permanent

  predicate Published(s: State, e: Id) { e in s.outbox && s.outbox[e].publishedAt.Some? }

  /** A published event was queued and positively confirmed to the publisher that sent it, and is not leased. */
  lemma PublishedIsConfirmed(s: State, e: Id)
    requires Reachable(s) && Published(s, e)
    ensures e in s.publications.confirmed && Enqueued(s.broker, e)
    ensures s.outbox[e].lockedAt == None && s.outbox[e].lockedBy == None
    ensures forall batch, skipped :: ClaimResult(s, batch, skipped) ==> e !in batch
  {
    ReachableOk(s);
  }

  lemma PublisherKeepsPublished(s: State, p: Id, step: PublisherStep, t: State, e: Id)
    requires PublisherEnabled(s, p, step) && t == PublisherApply(s, p, step)
    requires Published(s, e)
    ensures Published(t, e)
  {
  }

  lemma PublishedStep(s: State, step: Step, t: State, e: Id)
    requires TablesOk(s) && Goes(s, step, t) && Published(s, e)
    ensures Published(t, e)
  {
    if step.ByPublisher? {
      PublisherKeepsPublished(s, step.p, step.publisher, t, e);
    } else {
      EventUntouched(s, step, t, e);
    }
  }

  lemma EventUntouched(s: State, step: Step, t: State, e: Id)
    requires TablesOk(s) && Goes(s, step, t) && e in s.outbox && !step.ByPublisher?
    ensures e in t.outbox && t.outbox[e] == s.outbox[e]
  {
    match step
    case ByCreator(c, cs) => CreatorKeepsEvents(s, c, cs, t);
    case ByChannel(w, ks) => ChannelFramed(s, w, ks);
    case ByWorker(w, ws) => WorkerFramed(s, w, ws);
    case Tick(_) =>
    case Inject(_) =>
  }

  lemma CreatorKeepsEvents(s: State, c: Id, step: CreatorStep, t: State)
    requires TablesOk(s) && CreatorEnabled(s, c, step) && t == CreatorApply(s, c, step)
    ensures forall e :: e in s.outbox ==> e in t.outbox && t.outbox[e] == s.outbox[e]
  {
    CreatorGrows(s, c, step);
  }

  lemma StepAtPublished(states: seq<State>, steps: seq<Step>, n: nat, e: Id)
    requires Trace(states, steps) && n < |steps| && Published(states[n], e)
    ensures Published(states[n + 1], e)
  {
    StepAt(states, steps, n);
    PublishedStep(states[n], steps[n], states[n + 1], e);
  }

  lemma ClaimsOnlyUnpublished(s: State, step: Step, t: State, e: Id)
    requires Goes(s, step, t) && Published(s, e)
    requires step.ByPublisher? && step.publisher.Claim?
    ensures e !in step.publisher.batch
  {
    assert ClaimResult(s, step.publisher.batch, step.publisher.skipped);
  }

  /** Once published, an event stays published, whatever late marks, releases or claims other publishers still issue. */
  lemma {:induction false} PublishedForever(states: seq<State>, steps: seq<Step>, k: nat, m: nat, e: Id)
    requires Trace(states, steps) && k <= m < |states| && Published(states[k], e)
    ensures Published(states[m], e)
    decreases m - k
  {
    if k < m {
      PublishedForever(states, steps, k, m - 1, e);
      StepAtPublished(states, steps, m - 1, e);
    }
  }

  /** And it is never leased again. */
  lemma PublishedNeverLeased(states: seq<State>, steps: seq<Step>, k: nat, m: nat, e: Id)
    requires Trace(states, steps) && k <= m < |steps| && Published(states[k], e)
    ensures steps[m].ByPublisher? && steps[m].publisher.Claim? ==> e !in steps[m].publisher.batch
    ensures e in states[m].outbox && states[m].outbox[e].lockedAt == None
  {
    PublishedForever(states, steps, k, m, e);
    assert GoesAt(states, steps, m);
    if steps[m].ByPublisher? && steps[m].publisher.Claim? {
      ClaimsOnlyUnpublished(states[m], steps[m], states[m + 1], e);
    }
    assert PublicationsOk(states[m]) by { InvThroughout(states, steps, m); }
  }

  // ---------------------------------------------------------------- conservation and settlement

  /** Copies that entered the queue are all accounted for, each once; a copy was acknowledged only after its own
      SUCCEEDED update was applied. */
  lemma CopiesConserved(s: State)
    requires Reachable(s)
    ensures |s.broker.copies| == |s.broker.ready| + |s.broker.unacked| + |s.broker.acked| + |s.broker.dead|
    ensures s.broker.acked <= s.work.done
  {
    ReachableOk(s);
    var b := s.broker;
    DisjointSizes(b.ready, b.unacked.Keys);
    DisjointSizes(b.ready + b.unacked.Keys, b.acked);
    DisjointSizes(b.ready + b.unacked.Keys + b.acked, b.dead);
    assert |b.copies| == |b.copies.Keys| && |b.unacked| == |b.unacked.Keys|;
  }

  /** Acknowledged and dead-lettered copies stay where they are; a copy gets there only by its holder's own
      acknowledgement after success, or its own rejection. */
  lemma SettlementStep(s: State, step: Step, t: State)
    requires Inv(s) && Goes(s, step, t)
    ensures s.broker.acked <= t.broker.acked && s.broker.dead <= t.broker.dead
    ensures forall c :: c in t.broker.acked - s.broker.acked ==>
              step.ByChannel? && step.channel == Ack(true) && s.broker.unacked[c] == Delivery(step.w, true)
                  && c in s.work.done
    ensures forall c :: c in t.broker.dead - s.broker.dead ==>
              step.ByChannel? && step.channel == Nack(true) && s.broker.unacked[c] == Delivery(step.w, true)
  {
    if step.ByChannel? {
      ChannelSettlement(s, step.w, step.channel, t);
    } else {
      OthersSettleNothing(s, step, t);
    }
  }

  lemma OthersSettleNothing(s: State, step: Step, t: State)
    requires s.work.attempts.Keys == s.imports.Keys && Goes(s, step, t) && !step.ByChannel?
    ensures t.broker.acked == s.broker.acked && t.broker.dead == s.broker.dead
  {
    match step
    case ByCreator(c, cs) => CreatorFramed(s, c, cs);
    case ByPublisher(p, ps) => PublisherFramed(s, p, ps);
    case ByWorker(w, ws) => WorkerFramed(s, w, ws);
    case Tick(_) =>
    case Inject(_) =>
  }

  lemma ChannelSettlement(s: State, w: Id, step: ChannelStep, t: State)
    requires HoldsOk(s) && ChannelEnabled(s, w, step) && t == ChannelApply(s, w, step)
    ensures s.broker.acked <= t.broker.acked && s.broker.dead <= t.broker.dead
    ensures forall c :: c in t.broker.acked - s.broker.acked ==>
              step == Ack(true) && c in s.broker.unacked && s.broker.unacked[c] == Delivery(w, true) && c in s.work.done
    ensures forall c :: c in t.broker.dead - s.broker.dead ==>
              step == Nack(true) && c in s.broker.unacked && s.broker.unacked[c] == Delivery(w, true)
  {
    assert w in s.workers ==> HoldOk(s, w, s.workers[w]);
  }

  // ---------------------------------------------------------------- the prefetch limit

  ghost predicate WithinPrefetch(s: State) { (forall w :: |HeldBy(s.broker, w)| <= 10) == true }

  lemma ChannelPrefetch(s: State, w: Id, step: ChannelStep, t: State)
    requires ChannelEnabled(s, w, step) && t == ChannelApply(s, w, step) && WithinPrefetch(s)
    ensures WithinPrefetch(t)
  {
    forall v
      ensures |HeldBy(t.broker, v)| <= 10
    {
      if step.Deliver? && v == w {
        assert HeldBy(t.broker, v) <= HeldBy(s.broker, v) + {step.copy};
        SubsetSize(HeldBy(t.broker, v), HeldBy(s.broker, v) + {step.copy});
      } else {
        SubsetSize(HeldBy(t.broker, v), HeldBy(s.broker, v));
      }
    }
  }

  lemma OthersDeliverNothing(s: State, step: Step, t: State)
    requires s.work.attempts.Keys == s.imports.Keys && Goes(s, step, t) && !step.ByChannel?
    ensures forall w :: HeldBy(t.broker, w) == HeldBy(s.broker, w)
  {
    match step
    case ByCreator(c, cs) => CreatorFramed(s, c, cs);
    case ByPublisher(p, ps) => PublisherFramed(s, p, ps);
    case ByWorker(w, ws) => WorkerFramed(s, w, ws);
    case Tick(_) =>
    case Inject(_) =>
  }

  lemma StepAtPrefetch(states: seq<State>, steps: seq<Step>, n: nat)
    requires Trace(states, steps) && n < |steps| && WithinPrefetch(states[n])
    ensures WithinPrefetch(states[n + 1])
  {
    StepAt(states, steps, n);
    if steps[n].ByChannel? {
      ChannelPrefetch(states[n], steps[n].w, steps[n].channel, states[n + 1]);
    } else {
      OthersDeliverNothing(states[n], steps[n], states[n + 1]);
    }
  }

  /** No worker ever has more than ten deliveries that it has not settled. */
  lemma {:induction false} PrefetchBound(states: seq<State>, steps: seq<Step>, k: nat)
    requires Trace(states, steps) && k < |states|
    ensures WithinPrefetch(states[k])
  {
    if k == 0 {
      assert forall w :: HeldBy(states[0].broker, w) == {};
    } else {
      PrefetchBound(states, steps, k - 1);
      StepAtPrefetch(states, steps, k - 1);
    }
  }

  // ---------------------------------------------------------------- rows

  function CallsOf(attempts: seq<Attempt>): nat {
    if attempts == [] then 0 else attempts[0].calls + CallsOf(attempts[1..])
  }

  lemma {:induction false} CallsBound(attempts: seq<Attempt>)
    requires forall n :: 0 <= n < |attempts| ==> attempts[n].calls <= 3
    ensures CallsOf(attempts) <= 3 * |attempts|
  {
    if attempts != [] {
      CallsBound(attempts[1..]);
    }
  }

  /** Every row in every reachable state, duplicates and crashes included. */
  lemma RowFacts(s: State, i: Id)
    requires Reachable(s) && i in s.imports
    ensures var row := s.imports[i];
            && row.status != Failed
            && (row.status == Queued <==> row.attempts == 0)
            && (row.status == Succeeded || row.status == DeadLetter ==> row.processedAt.Some?)
            && (row.lastError != [] <==> row.status == DeadLetter)
            && |row.lastError| <= 300 && 10 !in row.lastError && Storable(row.lastError)
            && (row.status == Succeeded ==> i in s.work.passed)
            && 1 <= row.records <= 10_000
    ensures i in s.work.attempts && CallsOf(s.work.attempts[i]) <= 3 * s.imports[i].attempts
  {
    ReachableOk(s);
    assert RowOk(s.imports[i], AttemptsOf(s, i), i in s.work.passed);
    CallsBound(s.work.attempts[i]);
  }

  // ---------------------------------------------------------------- provenance

  /** Every message the outbox produced agrees with an existing row, so starting it cannot report not-found. */
  lemma Provenance(s: State, c: Id)
    requires Reachable(s) && c in s.broker.copies && s.broker.copies[c].origin.Some?
    ensures OnRow(s, c)
    ensures var i := RowOf(s, c);
            BodyOf(s.broker, c) == Decoded(PayloadOf(i, s.imports[i])) && i in s.creations.eventOf
            && s.creations.eventOf[i] == s.broker.copies[c].origin.value
  {
    ReachableOk(s);
  }

  // ---------------------------------------------------------------- idempotent creation

  /** All successful answers for one key carry the same identifier, and at most one of them is not a replay. */
  lemma SameAnswer(s: State, m: nat, n: nat)
    requires Reachable(s) && m < n < |s.creations.replies| && s.creations.replies[m].key == s.creations.replies[n].key
    ensures s.creations.replies[m].id == s.creations.replies[n].id
    ensures s.creations.replies[m].replay || s.creations.replies[n].replay
    ensures s.creations.replies[n].id in s.imports
  {
    ReachableOk(s);
  }

  ghost predicate RepliesRemain(s: State, t: State) { (s.creations.replies <= t.creations.replies) == true }

  lemma CreatorReplies(s: State, c: Id, step: CreatorStep, t: State)
    requires CreatorEnabled(s, c, step) && t == CreatorApply(s, c, step)
    ensures RepliesRemain(s, t)
  {
  }

  lemma StepReplies(s: State, step: Step, t: State)
    requires s.work.attempts.Keys == s.imports.Keys && Goes(s, step, t)
    ensures RepliesRemain(s, t)
  {
    match step
    case ByCreator(c, cs) => CreatorReplies(s, c, cs, t);
    case ByPublisher(p, ps) => PublisherFramed(s, p, ps);
    case ByChannel(w, ks) => ChannelFramed(s, w, ks);
    case ByWorker(w, ws) => WorkerFramed(s, w, ws);
    case Tick(_) =>
    case Inject(_) =>
  }

  lemma StepAtReplies(states: seq<State>, steps: seq<Step>, n: nat)
    requires Trace(states, steps) && n < |steps|
    ensures RepliesRemain(states[n], states[n + 1])
  {
    StepAt(states, steps, n);
    StepReplies(states[n], steps[n], states[n + 1]);
  }

  lemma RemainTransitive(s: State, t: State, u: State)
    requires RepliesRemain(s, t) && RepliesRemain(t, u)
    ensures RepliesRemain(s, u)
  {
  }

  lemma {:induction false} AllRepliesRemain(states: seq<State>, steps: seq<Step>, k: nat, m: nat)
    requires Trace(states, steps) && k <= m < |states|
    ensures RepliesRemain(states[k], states[m])
    decreases m - k
  {
    if k < m {
      AllRepliesRemain(states, steps, k, m - 1);
      StepAtReplies(states, steps, m - 1);
      RemainTransitive(states[k], states[m - 1], states[m]);
    }
  }

  /** Whenever two create calls for one key answered, however long apart, they answered with the same identifier. */
  lemma AnswersAgree(states: seq<State>, steps: seq<Step>, k: nat, m: nat, a: Reply, b: Reply)
    requires Trace(states, steps) && k <= m < |states|
    requires a in states[k].creations.replies && b in states[m].creations.replies && a.key == b.key
    ensures a.id == b.id
  {
    AllRepliesRemain(states, steps, k, m);
    assert RepliesOk(states[m]) by { InvThroughout(states, steps, m); }
    var x :| 0 <= x < |states[k].creations.replies| && states[k].creations.replies[x] == a;
    var y :| 0 <= y < |states[m].creations.replies| && states[m].creations.replies[y] == b;
    assert states[m].creations.replies[x] == a;
  }

  /** The import an event tells about. */
  function ImportOf(s: State, e: Id): Option<Id>
    requires e in s.outbox
  {
    if s.outbox[e].body.Decoded? then Some(s.outbox[e].body.payload.importId) else None
  }

  // What the tables' index knows, it knows for good.

  ghost predicate IndexRemains(s: State, t: State) {
    (forall k :: k in s.index ==> k in t.index && t.index[k] == s.index[k]) == true
  }

  lemma CreatorIndex(s: State, c: Id, step: CreatorStep, t: State)
    requires CreatorsOk(s) && CreatorEnabled(s, c, step) && t == CreatorApply(s, c, step)
    ensures IndexRemains(s, t)
  {
    assert c in s.creators ==> CreatorOk(s, s.creators[c]);
  }

  lemma StepIndex(s: State, step: Step, t: State)
    requires TablesOk(s) && Goes(s, step, t)
    ensures IndexRemains(s, t)
  {
    match step
    case ByCreator(c, cs) => CreatorIndex(s, c, cs, t);
    case ByPublisher(p, ps) => PublisherFramed(s, p, ps);
    case ByChannel(w, ks) => ChannelFramed(s, w, ks);
    case ByWorker(w, ws) => WorkerFramed(s, w, ws);
    case Tick(_) =>
    case Inject(_) =>
  }

  lemma StepAtIndex(states: seq<State>, steps: seq<Step>, n: nat)
    requires Trace(states, steps) && n < |steps|
    ensures IndexRemains(states[n], states[n + 1])
  {
    StepAt(states, steps, n);
    StepIndex(states[n], steps[n], states[n + 1]);
  }

  lemma IndexTransitive(s: State, t: State, u: State)
    requires IndexRemains(s, t) && IndexRemains(t, u)
    ensures IndexRemains(s, u)
  {
  }

  lemma {:induction false} IndexForever(states: seq<State>, steps: seq<Step>, k: nat, m: nat)
    requires Trace(states, steps) && k <= m < |states|
    ensures IndexRemains(states[k], states[m])
    decreases m - k
  {
    if k < m {
      IndexForever(states, steps, k, m - 1);
      StepAtIndex(states, steps, m - 1);
      IndexTransitive(states[k], states[m - 1], states[m]);
    }
  }

  predicate TakenBy(c: Id, step: Step) { step.ByCreator? && step.c == c }

  lemma OthersLeaveCreator(s: State, step: Step, t: State, c: Id)
    requires s.work.attempts.Keys == s.imports.Keys && Goes(s, step, t) && !TakenBy(c, step)
    ensures CreatorOf(t, c) == CreatorOf(s, c)
  {
    match step
    case ByCreator(d, cs) => CreatorFramed(s, d, cs);
    case ByPublisher(p, ps) => PublisherFramed(s, p, ps);
    case ByChannel(w, ks) => ChannelFramed(s, w, ks);
    case ByWorker(w, ws) => WorkerFramed(s, w, ws);
    case Tick(_) =>
    case Inject(_) =>
  }

  lemma StepAtLeavesCreator(states: seq<State>, steps: seq<Step>, n: nat, c: Id)
    requires Trace(states, steps) && n < |steps| && !TakenBy(c, steps[n])
    ensures CreatorOf(states[n + 1], c) == CreatorOf(states[n], c)
  {
    StepAt(states, steps, n);
    OthersLeaveCreator(states[n], steps[n], states[n + 1], c);
  }

  /** A create call whose statement begins with step `b` and takes its next step, of any kind, with step `k`. */
  ghost predicate CallOf(states: seq<State>, steps: seq<Step>, c: Id, req: Request, b: nat, k: nat) {
    && Trace(states, steps) && b < k < |steps|
    && steps[b] == ByCreator(c, Begin(req)) && TakenBy(c, steps[k])
    && forall n :: b < n < k ==> !TakenBy(c, steps[n])
  }

  /** What the statement's snapshot holds: the row its key named when it began. */
  function SnapshotOf(s: State, req: Request): Creator {
    Snapshot(req, if KeyOf(req) in s.index then Some(s.index[KeyOf(req)]) else None, s.clock)
  }

  lemma BeginsWithSnapshot(s: State, c: Id, req: Request, t: State)
    requires Goes(s, ByCreator(c, Begin(req)), t)
    ensures CreatorOf(t, c) == SnapshotOf(s, req)
  {
  }

  lemma {:induction false} SnapshotStays(states: seq<State>, steps: seq<Step>, c: Id, req: Request, b: nat, k: nat,
                                         m: nat)
    requires CallOf(states, steps, c, req, b, k) && b < m <= k
    ensures CreatorOf(states[m], c) == SnapshotOf(states[b], req)
    decreases m
  {
    if m == b + 1 {
      StepAt(states, steps, b);
      BeginsWithSnapshot(states[b], c, req, states[m]);
    } else {
      SnapshotStays(states, steps, c, req, b, k, m - 1);
      StepAtLeavesCreator(states, steps, m - 1, c);
    }
  }

  lemma ConflictGoesOn(s: State, c: Id, t: State)
    requires CreatorEnabled(s, c, Conflict) && t == CreatorApply(s, c, Conflict)
    ensures CreatorOf(t, c) == match CreatorOf(s, c).seen
                               case Some(id) => Replaying(CreatorOf(s, c).req, id)
                               case None => NoTransaction
    ensures t.creations == s.creations && t.imports == s.imports && t.outbox == s.outbox
  {
  }

  /** A call that finds its key taken goes on to an answer if and only if the key named a row before its statement
      began, and then with that row, which the key still names; otherwise it fails without any effect. */
  lemma ReplayIff(states: seq<State>, steps: seq<Step>, c: Id, req: Request, b: nat, k: nat)
    requires CallOf(states, steps, c, req, b, k) && steps[k].creator.Conflict?
    ensures CreatorOf(states[k + 1], c).Replaying? <==> KeyOf(req) in states[b].index
    ensures KeyOf(req) in states[b].index ==>
              CreatorOf(states[k + 1], c).id == states[b].index[KeyOf(req)]
              && KeyOf(req) in states[k].index && states[k].index[KeyOf(req)] == states[b].index[KeyOf(req)]
    ensures KeyOf(req) !in states[b].index ==>
              CreatorOf(states[k + 1], c).NoTransaction? && states[k + 1].creations == states[k].creations
              && states[k + 1].imports == states[k].imports && states[k + 1].outbox == states[k].outbox
  {
    SnapshotStays(states, steps, c, req, b, k, k);
    StepAt(states, steps, k);
    ConflictGoesOn(states[k], c, states[k + 1]);
    IndexForever(states, steps, b, k);
  }

  lemma AnsweredIsIndexed(s: State, reply: Reply)
    requires RepliesOk(s) && reply in s.creations.replies
    ensures reply.key in s.index && s.index[reply.key] == reply.id
  {
  }

  /** What a client relies on: a call that begins after any call for its key was answered never inserts a second row;
      if it gets as far as finding the key taken, it goes on with the identifier of that answer. */
  lemma AnsweredThenReplays(states: seq<State>, steps: seq<Step>, c: Id, req: Request, b: nat, k: nat, a: nat,
                            reply: Reply)
    requires CallOf(states, steps, c, req, b, k) && a <= b
    requires reply in states[a].creations.replies && reply.key == KeyOf(req)
    ensures !steps[k].creator.Insert?
    ensures steps[k].creator.Conflict? ==> CreatorOf(states[k + 1], c) == Replaying(req, reply.id)
  {
    assert RepliesOk(states[a]) by { InvThroughout(states, steps, a); }
    AnsweredIsIndexed(states[a], reply);
    IndexForever(states, steps, a, b);
    IndexForever(states, steps, b, k);
    SnapshotStays(states, steps, c, req, b, k, k);
    StepAt(states, steps, k);
    if steps[k].creator.Conflict? {
      ConflictGoesOn(states[k], c, states[k + 1]);
    }
  }

  /** One import per key, one event per import, one import per event. */
  lemma OneToOne(s: State)
    requires Reachable(s)
    ensures forall i, k :: i in s.imports && k in s.imports && RowKey(s.imports[i]) == RowKey(s.imports[k]) ==> i == k
    ensures forall i :: i in s.imports ==>
              i in s.creations.eventOf && s.creations.eventOf[i] in s.outbox
              && s.outbox[s.creations.eventOf[i]].body == Decoded(PayloadOf(i, s.imports[i]))
    ensures forall e, f :: e in s.outbox && f in s.outbox && ImportOf(s, e) == ImportOf(s, f) ==>
        ImportOf(s, e).Some? && e == f
    ensures |s.imports| == |s.outbox|
  {
    assert UniqueKeys(s) && OneEventEach(s) by { ReachableOk(s); }
    EqualSizes(s, s.imports.Keys, s.outbox.Keys);
  }

  lemma {:induction false} EqualSizes(s: State, rows: set<Id>, es: set<Id>)
    requires OneEventEach(s) && rows <= s.imports.Keys && es <= s.outbox.Keys
    requires forall i :: i in rows ==> s.creations.eventOf[i] in es
    requires forall e :: e in es ==> s.outbox[e].body.payload.importId in rows
    ensures |rows| == |es|
    decreases rows
  {
    if rows == {} {
      assert forall e :: e !in es;
    } else {
      var i :| i in rows;
      EqualSizes(s, rows - {i}, es - {s.creations.eventOf[i]});
    }
  }

  /** A commit that reports an error left either nothing or the whole pair of row and event; so does every other step
      of the transaction, which shows nothing at all. */
  ghost predicate NothingChanged(s: State, t: State) {
    t.imports == s.imports && t.index == s.index && t.outbox == s.outbox
  }

  ghost predicate PairAdded(s: State, t: State, i: Id, e: Id) {
    && i !in s.imports && e !in s.outbox && i in t.imports && e in t.outbox
    && t.imports == s.imports[i := t.imports[i]] && t.outbox == s.outbox[e := t.outbox[e]]
    && t.outbox[e].body == Decoded(PayloadOf(i, t.imports[i])) && t.outbox[e].publishedAt == None
    && RowKey(t.imports[i]) !in s.index && t.index == s.index[RowKey(t.imports[i]) := i]
    && t.imports[i].status == Queued
  }

  lemma CommitIsAtomic(s: State, c: Id, step: CreatorStep, t: State)
    requires CreatorsOk(s) && CreatorEnabled(s, c, step) && t == CreatorApply(s, c, step)
    ensures NothingChanged(s, t) || (step.Commit? && step.applied && exists i, e :: PairAdded(s, t, i, e))
    ensures !(step.Commit? && step.reported) ==> t.creations.replies == s.creations.replies
  {
    if step.Commit? && step.applied && CreatorOf(s, c).Written? {
      assert CreatorOk(s, s.creators[c]);
      AddsPair(s, c, CreatorOf(s, c), step.reported);
    } else {
      NothingShown(s, c, step);
    }
  }

  lemma NothingShown(s: State, c: Id, step: CreatorStep)
    requires CreatorEnabled(s, c, step) && !(step.Commit? && step.applied && CreatorOf(s, c).Written?)
    ensures NothingChanged(s, CreatorApply(s, c, step))
  {
  }

  lemma AddsPair(s: State, c: Id, phase: Creator, reported: bool)
    requires phase.Written? && CreatorOk(s, phase)
    ensures PairAdded(s, DoCommit(s, c, phase, true, reported), phase.id, phase.event)
  {
  }

  // ---------------------------------------------------------------- without duplicates

  /** QUEUED, PROCESSING, then SUCCEEDED or DEAD_LETTER, and never back. */
  predicate Forward(a: Status, b: Status) {
    a == b || (a == Queued && b == Processing) || (a == Processing && Terminal(b))
  }

  lemma StartForward(s: State, w: Id, i: Id, t: State)
    requires JobsOk(s) && RowsOk(s) && Busy(s, w) && i in s.imports
    requires Busy(t, w) && t == RowUpdate(s, w, i, StartedRow(s.imports[i]), t.work, JobOf(t, w).phase)
    requires t.imports[i].attempts <= 1
    ensures Forward(s.imports[i].status, t.imports[i].status)
  {
    assert RowOk(s.imports[i], AttemptsOf(s, i), i in s.work.passed);
  }

  lemma FinalForward(s: State, w: Id, i: Id)
    requires JobsOk(s) && RowsOk(s) && Busy(s, w) && (JobOf(s, w).phase.Passed? || JobOf(s, w).phase.Refused?)
    requires BodyOf(s.broker, JobOf(s, w).copy).Decoded? && RowOf(s, JobOf(s, w).copy) == i && i in s.imports
    requires s.imports[i].attempts <= 1
    ensures s.imports[i].status == Processing
  {
    assert JobOk(s, s.workers[w].job.value);
    assert RowOk(s.imports[i], AttemptsOf(s, i), i in s.work.passed);
  }

  lemma WorkerForward(s: State, w: Id, step: WorkerStep, t: State, i: Id)
    requires JobsOk(s) && RowsOk(s) && WorkerEnabled(s, w, step) && t == WorkerApply(s, w, step)
    requires i in s.imports && i in t.imports && t.imports[i].attempts <= 1
    ensures Forward(s.imports[i].status, t.imports[i].status)
  {
    var copy := JobOf(s, w).copy;
    if OnRow(s, copy) && i == RowOf(s, copy) {
      match step
      case Start(applied, reported) =>
        if applied {
          StartForward(s, w, i, t);
        }
      case Complete(applied, reported) =>
        if applied {
          FinalForward(s, w, i);
        }
      case _ =>
    } else {
      OtherRow(s, w, step, t, i);
    }
  }

  predicate Elsewhere(s: State, copy: Id, i: Id) { OnRow(s, copy) ==> RowOf(s, copy) != i }

  lemma StartElsewhere(s: State, w: Id, applied: bool, reported: bool, i: Id)
    requires WorkerEnabled(s, w, Start(applied, reported)) && i in s.imports && Elsewhere(s, JobOf(s, w).copy, i)
    ensures var t := DoStart(s, w, JobOf(s, w), applied, reported); i in t.imports && t.imports[i] == s.imports[i]
  {
  }

  lemma CallElsewhere(s: State, w: Id, ok: bool, i: Id)
    requires WorkerEnabled(s, w, Call(ok)) && i in s.imports && Elsewhere(s, JobOf(s, w).copy, i)
    ensures var t := DoCall(s, w, JobOf(s, w), ok); i in t.imports && t.imports[i] == s.imports[i]
  {
  }

  lemma CompleteElsewhere(s: State, w: Id, applied: bool, reported: bool, i: Id)
    requires WorkerEnabled(s, w, Complete(applied, reported)) && i in s.imports && Elsewhere(s, JobOf(s, w).copy, i)
    ensures var t := DoComplete(s, w, JobOf(s, w), applied, reported); i in t.imports && t.imports[i] == s.imports[i]
  {
  }

  lemma OtherRow(s: State, w: Id, step: WorkerStep, t: State, i: Id)
    requires WorkerEnabled(s, w, step) && t == WorkerApply(s, w, step) && i in s.imports
    requires Elsewhere(s, JobOf(s, w).copy, i)
    ensures i in t.imports && t.imports[i] == s.imports[i]
  {
    match step
    case BadBody =>
    case Start(applied, reported) => StartElsewhere(s, w, applied, reported, i);
    case Call(ok) => CallElsewhere(s, w, ok, i);
    case GiveUp(_) =>
    case Complete(applied, reported) => CompleteElsewhere(s, w, applied, reported, i);
  }

  /** While a row was started at most once it only moves forward. */
  lemma ForwardStep(s: State, step: Step, t: State, i: Id)
    requires TablesOk(s) && JobsOk(s) && RowsOk(s) && Goes(s, step, t)
    requires i in s.imports && i in t.imports && t.imports[i].attempts <= 1
    ensures Forward(s.imports[i].status, t.imports[i].status)
  {
    if step.ByWorker? {
      WorkerForward(s, step.v, step.worker, t, i);
    } else {
      RowUntouched(s, step, t, i);
    }
  }

  lemma RowUntouched(s: State, step: Step, t: State, i: Id)
    requires TablesOk(s) && Goes(s, step, t) && i in s.imports && !step.ByWorker?
    ensures i in t.imports && t.imports[i] == s.imports[i]
  {
    match step
    case ByCreator(c, cs) => CreatorGrows(s, c, cs);
    case ByPublisher(p, ps) => PublisherFramed(s, p, ps);
    case ByChannel(w, ks) => ChannelFramed(s, w, ks);
    case Tick(_) =>
    case Inject(_) =>
  }

  /** What takes a finished import up again, or finishes it otherwise: neither update looks at the status. */
  predicate Regresses(s: State, step: Step, i: Id)
    requires i in s.imports
  {
    step.ByWorker? && Busy(s, step.v) && OnRow(s, JobOf(s, step.v).copy) && RowOf(s, JobOf(s, step.v).copy) == i
    && Terminal(s.imports[i].status)
    && match step.worker
       case Start(applied, _) => applied
       case Complete(applied, _) => applied
           && s.imports[i].status != if JobOf(s, step.v).phase.Passed? then Succeeded else DeadLetter
       case _ => false
  }

  lemma StartRegresses(s: State, w: Id, applied: bool, reported: bool, i: Id)
    requires WorkerEnabled(s, w, Start(applied, reported)) && i in s.imports && s.imports[i].status != Failed
    requires OnRow(s, JobOf(s, w).copy) && RowOf(s, JobOf(s, w).copy) == i
    ensures var t := DoStart(s, w, JobOf(s, w), applied, reported);
            i in t.imports && (!Forward(s.imports[i].status, t.imports[i].status) <==>
                Regresses(s, ByWorker(w, Start(applied, reported)), i))
  {
  }

  lemma CompleteRegresses(s: State, w: Id, applied: bool, reported: bool, i: Id)
    requires WorkerEnabled(s, w, Complete(applied, reported)) && i in s.imports
    requires s.imports[i].status != Failed && s.imports[i].status != Queued
    requires OnRow(s, JobOf(s, w).copy) && RowOf(s, JobOf(s, w).copy) == i
    ensures var t := DoComplete(s, w, JobOf(s, w), applied, reported);
            i in t.imports && (!Forward(s.imports[i].status, t.imports[i].status) <==>
                Regresses(s, ByWorker(w, Complete(applied, reported)), i))
  {
  }

  lemma WorkerRegresses(s: State, w: Id, step: WorkerStep, t: State, i: Id)
    requires JobsOk(s) && RowsOk(s) && WorkerEnabled(s, w, step) && t == WorkerApply(s, w, step) && i in s.imports
    ensures i in t.imports && (!Forward(s.imports[i].status, t.imports[i].status) <==>
        Regresses(s, ByWorker(w, step), i))
  {
    assert RowOk(s.imports[i], AttemptsOf(s, i), i in s.work.passed);
    assert JobOk(s, s.workers[w].job.value);
    if Elsewhere(s, JobOf(s, w).copy, i) {
      OtherRow(s, w, step, t, i);
    } else {
      match step
      case Start(applied, reported) => StartRegresses(s, w, applied, reported, i);
      case Complete(applied, reported) => CompleteRegresses(s, w, applied, reported, i);
      case BadBody =>
      case Call(_) =>
      case GiveUp(_) =>
    }
  }

  /** The documented life of an import, QUEUED, PROCESSING, then SUCCEEDED or DEAD_LETTER, is left by exactly these
      steps. */
  lemma RegressIff(s: State, step: Step, t: State, i: Id)
    requires TablesOk(s) && JobsOk(s) && RowsOk(s) && Goes(s, step, t) && i in s.imports
    ensures i in t.imports && (!Forward(s.imports[i].status, t.imports[i].status) <==> Regresses(s, step, i))
  {
    if step.ByWorker? {
      WorkerRegresses(s, step.v, step.worker, t, i);
    } else {
      RowUntouched(s, step, t, i);
    }
  }

  /** The workers that hold a message naming row `i` and have not started it yet. */
  function Waiting(s: State, i: Id): set<Id> {
    set w | w in s.workers && s.workers[w].job.Some? && s.workers[w].job.value.phase.Received?
            && BodyOf(s.broker, s.workers[w].job.value.copy).Decoded?
            && BodyOf(s.broker, s.workers[w].job.value.copy).payload.importId == i
  }

  function StartsOf(s: State, i: Id): nat { if i in s.imports then s.imports[i].attempts else 0 }

  /** An import is started at most as often as a message naming it is taken up. */
  ghost predicate StartsCounted(s: State) {
    forall i :: StartsOf(s, i) + |Waiting(s, i)| <= s.work.takes[i]
  }

  lemma FewerWaiting(s: State, t: State, i: Id)
    requires Waiting(t, i) <= Waiting(s, i)
    ensures |Waiting(t, i)| <= |Waiting(s, i)|
  {
    SubsetSize(Waiting(t, i), Waiting(s, i));
  }

  /** Nothing is started and nobody new waits. */
  lemma CountQuiet(s: State, t: State)
    requires StartsCounted(s)
    requires forall i ::
               StartsOf(t, i) <= StartsOf(s, i) && Waiting(t, i) <= Waiting(s, i) && s.work.takes[i] <= t.work.takes[i]
    ensures StartsCounted(t)
  {
    forall i
      ensures StartsOf(t, i) + |Waiting(t, i)| <= t.work.takes[i]
    {
      FewerWaiting(s, t, i);
    }
  }

  predicate Names(b: Broker, copy: Id, i: Id) { BodyOf(b, copy).Decoded? && BodyOf(b, copy).payload.importId == i }

  lemma TakeAdds(s: State, w: Id, copy: Id, i: Id)
    requires ChannelEnabled(s, w, Take(copy))
    ensures Waiting(DoTake(s, w, copy), i) == if Names(s.broker, copy, i) then Waiting(s, i) + {w} else Waiting(s, i)
  {
  }

  lemma TakeWaiting(s: State, w: Id, copy: Id, i: Id)
    requires ChannelEnabled(s, w, Take(copy))
    ensures |Waiting(DoTake(s, w, copy), i)| - |Waiting(s, i)| <= DoTake(s, w, copy).work.takes[i] - s.work.takes[i]
  {
    TakeAdds(s, w, copy, i);
    assert w !in Waiting(s, i);
  }

  lemma TakeCounted(s: State, w: Id, copy: Id)
    requires StartsCounted(s) && ChannelEnabled(s, w, Take(copy))
    ensures StartsCounted(DoTake(s, w, copy))
  {
    var t := DoTake(s, w, copy);
    forall i
      ensures StartsOf(t, i) + |Waiting(t, i)| <= t.work.takes[i]
    {
      assert StartsOf(t, i) == StartsOf(s, i);
      TakeWaiting(s, w, copy, i);
    }
  }

  lemma SettleWaiting(s: State, w: Id, copy: Id, applied: bool, ack: bool, i: Id)
    ensures Waiting(DoSettle(s, w, copy, applied, ack), i) <= Waiting(s, i)
  {
  }

  lemma ChannelCounted(s: State, w: Id, step: ChannelStep, t: State)
    requires StartsCounted(s) && ChannelEnabled(s, w, step) && t == ChannelApply(s, w, step)
    ensures StartsCounted(t)
  {
    match step
    case Take(copy) => TakeCounted(s, w, copy);
    case Ack(applied) =>
      forall i { SettleWaiting(s, w, JobOf(s, w).copy, applied, true, i); }
      CountQuiet(s, t);
    case Nack(applied) =>
      forall i { SettleWaiting(s, w, JobOf(s, w).copy, applied, false, i); }
      CountQuiet(s, t);
    case Deliver(_) => CountQuiet(s, t);
    case Detach => CountQuiet(s, t);
    case Stop => CountQuiet(s, t);
  }

  lemma NoLongerWaiting(s: State, w: Id, phase: Phase, t: State, i: Id)
    requires Busy(s, w) && !phase.Received? && t.broker == s.broker
    requires t.workers == s.workers[w := WorkerOf(s, w).(job := Some(Job(JobOf(s, w).copy, phase)))]
    ensures Waiting(t, i) == Waiting(s, i) - {w} && |Waiting(t, i)| <= |Waiting(s, i)|
    ensures w in Waiting(s, i) ==> |Waiting(t, i)| < |Waiting(s, i)|
  {
    assert Waiting(t, i) == Waiting(s, i) - {w};
    FewerWaiting(s, t, i);
  }

  lemma UpdateCounted(s: State, w: Id, i: Id, row: Import, work: Work, phase: Phase, t: State)
    requires StartsCounted(s) && Busy(s, w) && i in s.imports && work.takes == s.work.takes && !phase.Received?
    requires t == RowUpdate(s, w, i, row, work, phase)
    requires row.attempts <= s.imports[i].attempts + (if w in Waiting(s, i) then 1 else 0)
    ensures StartsCounted(t)
  {
    forall k
      ensures StartsOf(t, k) + |Waiting(t, k)| <= t.work.takes[k]
    {
      NoLongerWaiting(s, w, phase, t, k);
      assert k != i ==> StartsOf(t, k) == StartsOf(s, k);
    }
  }

  lemma PhaseCounted(s: State, w: Id, phase: Phase, t: State)
    requires StartsCounted(s) && Busy(s, w) && !phase.Received? && t == InPhase(s, w, phase)
    ensures StartsCounted(t)
  {
    forall i
      ensures Waiting(t, i) <= Waiting(s, i)
    {
    }
    CountQuiet(s, t);
  }

  lemma StartCounted(s: State, w: Id, applied: bool, reported: bool, t: State)
    requires StartsCounted(s) && WorkerEnabled(s, w, Start(applied, reported))
    requires t == DoStart(s, w, JobOf(s, w), applied, reported)
    ensures StartsCounted(t)
  {
    var j := JobOf(s, w);
    if OnRow(s, j.copy) && applied {
      UpdateCounted(s, w, RowOf(s, j.copy), StartedRow(s.imports[RowOf(s, j.copy)]), t.work, JobOf(t, w).phase, t);
    } else {
      PhaseCounted(s, w, Doomed, t);
    }
  }

  lemma CallCounted(s: State, w: Id, ok: bool, t: State)
    requires StartsCounted(s) && WorkerEnabled(s, w, Call(ok)) && t == DoCall(s, w, JobOf(s, w), ok)
    ensures StartsCounted(t)
  {
    var j := JobOf(s, w);
    if OnRow(s, j.copy) {
      UpdateCounted(s, w, RowOf(s, j.copy), s.imports[RowOf(s, j.copy)], t.work, JobOf(t, w).phase, t);
    } else {
      PhaseCounted(s, w, Doomed, t);
    }
  }

  lemma CompleteCounted(s: State, w: Id, applied: bool, reported: bool, t: State)
    requires StartsCounted(s) && WorkerEnabled(s, w, Complete(applied, reported))
    requires t == DoComplete(s, w, JobOf(s, w), applied, reported)
    ensures StartsCounted(t)
  {
    var j := JobOf(s, w);
    if OnRow(s, j.copy) && applied {
      var i := RowOf(s, j.copy);
      UpdateCounted(s, w, i, FinalRow(s, i, j.phase), FinalWork(s, i, j),
                    if j.phase.Passed? && reported then Completed else Doomed, t);
    } else {
      PhaseCounted(s, w, JobOf(t, w).phase, t);
    }
  }

  lemma WorkerCounted(s: State, w: Id, step: WorkerStep, t: State)
    requires StartsCounted(s) && WorkerEnabled(s, w, step) && t == WorkerApply(s, w, step)
    ensures StartsCounted(t)
  {
    match step
    case BadBody => PhaseCounted(s, w, Doomed, t);
    case GiveUp(error) => PhaseCounted(s, w, Refused(JobOf(s, w).phase.attempt, error), t);
    case Start(applied, reported) => StartCounted(s, w, applied, reported, t);
    case Call(ok) => CallCounted(s, w, ok, t);
    case Complete(applied, reported) => CompleteCounted(s, w, applied, reported, t);
  }

  /** New copies and new rows start nothing. */
  lemma OthersCounted(s: State, t: State)
    requires StartsCounted(s) && t.workers == s.workers && t.work.takes == s.work.takes && HoldsOk(s)
    requires forall c :: c in s.broker.copies ==> c in t.broker.copies && t.broker.copies[c] == s.broker.copies[c]
    requires forall i :: StartsOf(t, i) <= StartsOf(s, i)
    ensures StartsCounted(t)
  {
    forall i
      ensures Waiting(t, i) <= Waiting(s, i)
    {
      forall w | w in Waiting(t, i)
        ensures w in Waiting(s, i)
      {
        assert HoldOk(s, w, s.workers[w]);
      }
    }
    CountQuiet(s, t);
  }

  lemma CreatorStarts(s: State, c: Id, step: CreatorStep, t: State)
    requires TablesOk(s) && CreatorEnabled(s, c, step) && t == CreatorApply(s, c, step)
    ensures t.workers == s.workers && t.broker == s.broker && forall i :: StartsOf(t, i) <= StartsOf(s, i)
  {
    CreatorGrows(s, c, step);
  }

  lemma CreatorCounted(s: State, c: Id, step: CreatorStep, t: State)
    requires TablesOk(s) && HoldsOk(s) && StartsCounted(s) && CreatorEnabled(s, c, step)
    requires t == CreatorApply(s, c, step)
    ensures StartsCounted(t)
  {
    CreatorStarts(s, c, step, t);
    CreatorTakes(s, c, step);
    OthersCounted(s, t);
  }

  lemma PublisherCounted(s: State, p: Id, step: PublisherStep, t: State)
    requires FreshIds(s) && HoldsOk(s) && StartsCounted(s) && PublisherEnabled(s, p, step)
    requires t == PublisherApply(s, p, step)
    ensures StartsCounted(t)
  {
    PublisherFramed(s, p, step);
    PublisherKeepsCopies(s, p, step);
    OthersCounted(s, t);
  }

  lemma QuietCounted(s: State, step: Step, t: State)
    requires FreshIds(s) && HoldsOk(s) && StartsCounted(s) && (step.Tick? || step.Inject?) && Goes(s, step, t)
    ensures StartsCounted(t)
  {
    OthersCounted(s, t);
  }

  lemma StepCounted(s: State, step: Step, t: State)
    requires TablesOk(s) && HoldsOk(s) && StartsCounted(s) && Goes(s, step, t)
    ensures StartsCounted(t)
  {
    match step
    case ByCreator(c, cs) => CreatorCounted(s, c, cs, t);
    case ByPublisher(p, ps) => PublisherCounted(s, p, ps, t);
    case ByChannel(w, ks) => ChannelCounted(s, w, ks, t);
    case ByWorker(w, ws) => WorkerCounted(s, w, ws, t);
    case Tick(_) => QuietCounted(s, step, t);
    case Inject(_) => QuietCounted(s, step, t);
  }

  lemma CreatorTakes(s: State, c: Id, step: CreatorStep)
    requires CreatorEnabled(s, c, step)
    ensures CreatorApply(s, c, step).work.takes == s.work.takes
  {
  }

  lemma PublisherKeepsCopies(s: State, p: Id, step: PublisherStep)
    requires FreshIds(s) && PublisherEnabled(s, p, step)
    ensures forall c :: c in s.broker.copies ==>
              c in PublisherApply(s, p, step).broker.copies
                  && PublisherApply(s, p, step).broker.copies[c] == s.broker.copies[c]
  {
  }

  lemma StepAtCounted(states: seq<State>, steps: seq<Step>, n: nat)
    requires Trace(states, steps) && n < |steps| && StartsCounted(states[n])
    ensures StartsCounted(states[n + 1])
  {
    StepAt(states, steps, n);
    StepCounted(states[n], steps[n], states[n + 1]);
  }

  lemma {:induction false} CountedThroughout(states: seq<State>, steps: seq<Step>, k: nat)
    requires Trace(states, steps) && k < |states|
    ensures StartsCounted(states[k])
  {
    if k > 0 {
      CountedThroughout(states, steps, k - 1);
      StepAtCounted(states, steps, k - 1);
    }
  }

  lemma StartedOnce(s: State, i: Id)
    requires RowsOk(s) && StartsCounted(s) && i in s.imports && s.work.takes[i] <= 1
    ensures s.imports[i].attempts <= 1
    ensures s.imports[i].processedAt.Some? <==> Terminal(s.imports[i].status)
  {
    assert StartsOf(s, i) + |Waiting(s, i)| <= s.work.takes[i];
    assert RowOk(s.imports[i], AttemptsOf(s, i), i in s.work.passed);
  }

  lemma StepAtForward(states: seq<State>, steps: seq<Step>, n: nat, i: Id)
    requires Trace(states, steps) && n < |steps| && i in states[n + 1].imports && states[n + 1].imports[i].attempts <= 1
    ensures i in states[n].imports ==> Forward(states[n].imports[i].status, states[n + 1].imports[i].status)
    ensures i !in states[n].imports ==> states[n + 1].imports[i].status == Queued
  {
    StepAt(states, steps, n);
    CameForward(states[n], steps[n], states[n + 1], i);
  }

  lemma ChannelTakes(s: State, w: Id, step: ChannelStep, i: Id)
    requires ChannelEnabled(s, w, step)
    ensures s.work.takes[i] <= ChannelApply(s, w, step).work.takes[i]
  {
  }

  lemma StepTakes(s: State, step: Step, t: State, i: Id)
    requires s.work.attempts.Keys == s.imports.Keys && Goes(s, step, t)
    ensures s.work.takes[i] <= t.work.takes[i]
  {
    match step
    case ByCreator(c, cs) => CreatorTakes(s, c, cs);
    case ByPublisher(p, ps) => PublisherFramed(s, p, ps);
    case ByChannel(w, ks) => ChannelTakes(s, w, ks, i);
    case ByWorker(w, ws) => WorkerFramed(s, w, ws);
    case Tick(_) =>
    case Inject(_) =>
  }

  lemma StepAtTakes(states: seq<State>, steps: seq<Step>, n: nat, i: Id)
    requires Trace(states, steps) && n < |steps|
    ensures states[n].work.takes[i] <= states[n + 1].work.takes[i]
  {
    StepAt(states, steps, n);
    StepTakes(states[n], steps[n], states[n + 1], i);
  }

  /** The statuses an import has had up to state `k`, in their order, each change once. */
  function History(states: seq<State>, i: Id, k: nat): seq<Status>
    requires k < |states|
  {
    var earlier := if k == 0 then [] else History(states, i, k - 1);
    if i !in states[k].imports || (earlier != [] && earlier[|earlier| - 1] == states[k].imports[i].status) then earlier
    else earlier + [states[k].imports[i].status]
  }

  /** The documented lives of an import, and their beginnings. */
  ghost predicate Documented(history: seq<Status>) {
    history <= [Queued, Processing, Succeeded] || history <= [Queued, Processing, DeadLetter]
  }

  lemma GrowsDocumented(history: seq<Status>, status: Status)
    requires Documented(history) && status != Failed
    requires history == [] ==> status == Queued
    requires history != [] ==> history[|history| - 1] != status && Forward(history[|history| - 1], status)
    ensures Documented(history + [status])
  {
    if history == [] {
      assert history + [status] <= [Queued, Processing, Succeeded];
    } else if |history| == 1 {
      assert history == [Queued] && history + [status] <= [Queued, Processing, Succeeded];
    } else if |history| == 2 {
      assert history == [Queued, Processing] && history + [status] == [Queued, Processing, status];
    }
  }

  lemma StartedOnceAt(states: seq<State>, steps: seq<Step>, k: nat, i: Id)
    requires Trace(states, steps) && k < |states| && i in states[k].imports && states[k].work.takes[i] <= 1
    ensures states[k].imports[i].attempts <= 1 && states[k].imports[i].status != Failed
    ensures states[k].imports[i].processedAt.Some? <==> Terminal(states[k].imports[i].status)
  {
    CountedThroughout(states, steps, k);
    assert RowsOk(states[k]) by { InvThroughout(states, steps, k); }
    StartedOnce(states[k], i);
  }

  /** In a run in which at most one delivery of an import was taken up, the whole history of its status is a beginning
      of QUEUED, PROCESSING, and then SUCCEEDED or DEAD_LETTER; it was started at most once, and `processed_at` is set
      exactly when the status is final. */
  lemma {:induction false} LifecycleWithoutDuplicates(states: seq<State>, steps: seq<Step>, k: nat, i: Id)
    requires Trace(states, steps) && k < |states| && states[k].work.takes[i] <= 1
    ensures Documented(History(states, i, k))
    ensures History(states, i, k) == [] <==> i !in states[k].imports
    ensures i in states[k].imports ==>
              var history := History(states, i, k);
              && history[|history| - 1] == states[k].imports[i].status
              && states[k].imports[i].attempts <= 1
              && (states[k].imports[i].processedAt.Some? <==> Terminal(states[k].imports[i].status))
  {
    if i in states[k].imports {
      StartedOnceAt(states, steps, k, i);
    }
    if k > 0 {
      StepAtTakes(states, steps, k - 1, i);
      LifecycleWithoutDuplicates(states, steps, k - 1, i);
      if i in states[k - 1].imports {
        RowStays(states, steps, k - 1, i);
      }
      if i in states[k].imports {
        StepAtForward(states, steps, k - 1, i);
        var earlier := History(states, i, k - 1);
        if earlier == [] || earlier[|earlier| - 1] != states[k].imports[i].status {
          GrowsDocumented(earlier, states[k].imports[i].status);
        }
      }
    }
  }

  // ---------------------------------------------------------------- exactly which runs keep to the documented life

  lemma RegressLeavesDocumented(history: seq<Status>, status: Status)
    requires history != [] && !Forward(history[|history| - 1], status)
    ensures !Documented(history + [status])
  {
    var n := |history|;
    assert (history + [status])[n - 1] == history[n - 1] && (history + [status])[n] == status;
  }

  lemma DocumentedBefore(history: seq<Status>, status: Status)
    requires Documented(history + [status])
    ensures Documented(history)
  {
    assert history <= history + [status];
  }

  /** No step before state `k` finished the import otherwise or took it up again. */
  ghost predicate NeverRegresses(states: seq<State>, steps: seq<Step>, i: Id, k: nat)
    requires k <= |steps| < |states|
  {
    forall n :: 0 <= n < k && i in states[n].imports ==> !Regresses(states[n], steps[n], i)
  }

  lemma {:induction false} HistoryEnds(states: seq<State>, steps: seq<Step>, k: nat, i: Id)
    requires Trace(states, steps) && k < |states|
    ensures History(states, i, k) == [] <==> i !in states[k].imports
    ensures i in states[k].imports ==>
              History(states, i, k)[|History(states, i, k)| - 1] == states[k].imports[i].status
  {
    if k > 0 {
      HistoryEnds(states, steps, k - 1, i);
      if i in states[k - 1].imports {
        RowStays(states, steps, k - 1, i);
      }
    }
  }

  lemma StepAtRegress(states: seq<State>, steps: seq<Step>, n: nat, i: Id)
    requires Trace(states, steps) && n < |steps| && i in states[n].imports
    ensures i in states[n + 1].imports && states[n + 1].imports[i].status != Failed
    ensures Forward(states[n].imports[i].status, states[n + 1].imports[i].status)
            <==> !Regresses(states[n], steps[n], i)
  {
    StepAt(states, steps, n);
    RegressIff(states[n], steps[n], states[n + 1], i);
    assert RowsOk(states[n + 1]) by { InvThroughout(states, steps, n + 1); }
    assert RowOk(states[n + 1].imports[i], AttemptsOf(states[n + 1], i), i in states[n + 1].work.passed);
  }

  lemma OneStatusMore(earlier: seq<Status>, a: Status, b: Status, now: seq<Status>)
    requires earlier != [] && earlier[|earlier| - 1] == a && b != Failed
    requires now == if a == b then earlier else earlier + [b]
    ensures Documented(now) <==> Documented(earlier) && Forward(a, b)
  {
    if a != b {
      if Forward(a, b) {
        if Documented(earlier) {
          GrowsDocumented(earlier, b);
        }
      } else {
        RegressLeavesDocumented(earlier, b);
      }
      if Documented(now) {
        DocumentedBefore(earlier, b);
      }
    }
  }

  /** A step on a row that was known before. */
  lemma KnownRow(states: seq<State>, steps: seq<Step>, n: nat, i: Id)
    requires Trace(states, steps) && n < |steps| && i in states[n].imports
    ensures Documented(History(states, i, n + 1))
            <==> Documented(History(states, i, n)) && !Regresses(states[n], steps[n], i)
  {
    HistoryEnds(states, steps, n, i);
    StepAtRegress(states, steps, n, i);
    OneStatusMore(History(states, i, n), states[n].imports[i].status, states[n + 1].imports[i].status,
                  History(states, i, n + 1));
  }

  lemma NewStatus(states: seq<State>, steps: seq<Step>, n: nat, i: Id)
    requires Trace(states, steps) && n < |steps| && i !in states[n].imports && i in states[n + 1].imports
    ensures states[n + 1].imports[i].status == Queued
  {
    StepAt(states, steps, n);
    AppearsQueued(states[n], steps[n], states[n + 1], i);
  }

  /** A step before which the row was not there. */
  lemma NewRow(states: seq<State>, steps: seq<Step>, n: nat, i: Id)
    requires Trace(states, steps) && n < |steps| && i !in states[n].imports
    ensures Documented(History(states, i, n)) && Documented(History(states, i, n + 1))
  {
    HistoryEnds(states, steps, n, i);
    if i in states[n + 1].imports {
      NewStatus(states, steps, n, i);
      assert History(states, i, n + 1) == [Queued];
    }
  }

  /** In every run, the history of an import's status is a beginning of QUEUED, PROCESSING, and then SUCCEEDED or
      DEAD_LETTER if and only if no step finished it otherwise or took it up again. */
  lemma {:induction false} DocumentedIff(states: seq<State>, steps: seq<Step>, k: nat, i: Id)
    requires Trace(states, steps) && k < |states|
    ensures Documented(History(states, i, k)) <==> NeverRegresses(states, steps, i, k)
  {
    if k == 0 {
      HistoryEnds(states, steps, 0, i);
    } else {
      DocumentedIff(states, steps, k - 1, i);
      if i in states[k - 1].imports {
        KnownRow(states, steps, k - 1, i);
      } else {
        NewRow(states, steps, k - 1, i);
      }
      OneStepOfRegress(states, steps, k - 1, i);
    }
  }

  lemma OneStepOfRegress(states: seq<State>, steps: seq<Step>, n: nat, i: Id)
    requires n < |steps| < |states|
    ensures NeverRegresses(states, steps, i, n + 1)
            <==> NeverRegresses(states, steps, i, n) && (i in states[n].imports ==> !Regresses(states[n], steps[n], i))
  {
  }

  lemma RowStays(states: seq<State>, steps: seq<Step>, n: nat, i: Id)
    requires Trace(states, steps) && n < |steps| && i in states[n].imports
    ensures i in states[n + 1].imports
  {
    StepAt(states, steps, n);
    RegressIff(states[n], steps[n], states[n + 1], i);
  }

  lemma CameForward(s: State, step: Step, t: State, i: Id)
    requires TablesOk(s) && JobsOk(s) && RowsOk(s) && Goes(s, step, t) && i in t.imports && t.imports[i].attempts <= 1
    ensures i in s.imports ==> Forward(s.imports[i].status, t.imports[i].status)
    ensures i !in s.imports ==> t.imports[i].status == Queued
  {
    if i in s.imports {
      ForwardStep(s, step, t, i);
    } else {
      AppearsQueued(s, step, t, i);
    }
  }

  lemma AppearsQueued(s: State, step: Step, t: State, i: Id)
    requires TablesOk(s) && Goes(s, step, t) && i !in s.imports && i in t.imports
    ensures t.imports[i].status == Queued
  {
    match step
    case ByCreator(c, cs) => CreatorGrows(s, c, cs);
    case ByPublisher(p, ps) => PublisherFramed(s, p, ps);
    case ByChannel(w, ks) => ChannelFramed(s, w, ks);
    case ByWorker(w, ws) => WorkerFramed(s, w, ws);
    case Tick(_) =>
    case Inject(_) =>
  }
}
