/** Every step of every process keeps the invariant. */
module FlowKept {
  import opened Text
  import opened Pipeline
  import opened Tables
  import opened Flow

  // ---------------------------------------------------------------- create transactions only add

  ghost predicate Grown(s: State, t: State) {
    (
      && t == s.(nextId := t.nextId, imports := t.imports, index := t.index, outbox := t.outbox, creators := t.creators,
                 creations := t.creations, publications := t.publications, work := t.work)
      && t.publications.confirmed == s.publications.confirmed
      && t.work.passed == s.work.passed && t.work.done == s.work.done
      && (forall i :: i in s.imports ==>
            i in t.imports && t.imports[i] == s.imports[i] && AttemptsOf(t, i) == AttemptsOf(s, i))
      && (forall i :: i in t.imports && i !in s.imports ==>
            t.imports[i].status == Queued && t.imports[i].attempts == 0 && t.imports[i].lastError == []
            && t.imports[i].processedAt == None && AttemptsOf(t, i) == [])
      && (forall e :: e in s.outbox ==> e in t.outbox && t.outbox[e] == s.outbox[e])
      && (forall e :: e in t.outbox && e !in s.outbox ==>
            t.outbox[e].publishedAt == None && t.outbox[e].lockedAt == None && t.outbox[e].lockedBy == None)
    ) == true
  }

  lemma CommitGrows(s: State, r: Request, id: Id, event: Id, began: nat)
    requires id !in s.imports && event !in s.outbox
    ensures Grown(s, CommitRows(s, r, id, event, began))
  {
  }

  /** Whatever else a creator step changes, nobody but create transactions looks at it. */
  lemma GrownFurther(s: State, u: State, t: State)
    requires Grown(s, u) && t == u.(creators := t.creators, nextId := t.nextId, creations := t.creations)
    ensures Grown(s, t)
  {
    assert forall i :: AttemptsOf(t, i) == AttemptsOf(u, i);
  }

  lemma GrownSelf(s: State)
    ensures Grown(s, s)
  {
  }

  lemma CommitStepGrows(s: State, c: Id, applied: bool, reported: bool)
    requires TablesOk(s) && CreatorEnabled(s, c, Commit(applied, reported))
    ensures Grown(s, DoCommit(s, c, CreatorOf(s, c), applied, reported))
  {
    var phase := CreatorOf(s, c);
    var t := DoCommit(s, c, phase, applied, reported);
    assert CreatorOk(s, phase);
    if applied && phase.Written? {
      CommitGrows(s, phase.req, phase.id, phase.event, phase.began);
      GrownFurther(s, CommitRows(s, phase.req, phase.id, phase.event, phase.began), t);
    } else {
      GrownSelf(s);
      GrownFurther(s, s, t);
    }
  }

  lemma CreatorGrows(s: State, c: Id, step: CreatorStep)
    requires TablesOk(s) && CreatorEnabled(s, c, step)
    ensures Grown(s, CreatorApply(s, c, step))
  {
    match step
    case Commit(applied, reported) => CommitStepGrows(s, c, applied, reported);
    case _ =>
      GrownSelf(s);
      GrownFurther(s, s, CreatorApply(s, c, step));
  }

  lemma GrownPublications(s: State, t: State)
    requires Grown(s, t) && PublishersOk(s) && PublicationsOk(s)
    ensures PublishersOk(t) && PublicationsOk(t)
  {
    forall p | p in t.publishers
      ensures PublisherOk(t, t.publishers[p])
    {
      assert PublisherOk(s, s.publishers[p]);
    }
  }

  lemma GrownHolds(s: State, t: State)
    requires Grown(s, t) && HoldsOk(s) && Channels(s)
    ensures HoldsOk(t) && Channels(t)
  {
    forall w | w in t.workers
      ensures HoldOk(t, w, t.workers[w])
    {
      assert HoldOk(s, w, s.workers[w]);
    }
  }

  lemma GrownJobs(s: State, t: State)
    requires Grown(s, t) && JobsOk(s)
    ensures JobsOk(t)
  {
    forall w | w in t.workers && t.workers[w].job.Some?
      ensures JobOk(t, t.workers[w].job.value)
    {
      assert JobOk(s, s.workers[w].job.value);
    }
    forall w, v | w in t.workers && v in t.workers && w != v && t.workers[w].job.Some? && t.workers[v].job.Some?
      ensures Separate(t, t.workers[w].job.value, t.workers[v].job.value)
    {
      assert JobOk(s, s.workers[w].job.value) && JobOk(s, s.workers[v].job.value);
      assert Separate(s, s.workers[w].job.value, s.workers[v].job.value);
    }
  }

  lemma GrownRows(s: State, t: State)
    requires Grown(s, t) && RowsOk(s)
    ensures RowsOk(t)
  {
    forall i | i in t.imports
      ensures RowOk(t.imports[i], AttemptsOf(t, i), i in t.work.passed)
    {
      if i in s.imports {
        assert RowOk(s.imports[i], AttemptsOf(s, i), i in s.work.passed);
      }
    }
  }

  lemma GrownFlow(s: State, t: State)
    requires FlowOk(s) && Grown(s, t)
    ensures FlowOk(t)
  {
    assert Places(t.broker) && Origins(t);
    assert PublishersOk(t) && PublicationsOk(t) by { GrownPublications(s, t); }
    assert HoldsOk(t) && Channels(t) by { GrownHolds(s, t); }
    assert JobsOk(t) by { GrownJobs(s, t); }
    assert RowsOk(t) by { GrownRows(s, t); }
  }

  // ---------------------------------------------------------------- publishers, time and strangers only add copies

  ghost predicate MoreCopies(s: State, t: State) {
    (
      && t == s.(clock := t.clock, outbox := t.outbox, broker := t.broker, nextId := t.nextId,
                 publishers := t.publishers, publications := t.publications)
      && t.broker == s.broker.(copies := t.broker.copies, ready := t.broker.ready)
      && (forall c :: c in s.broker.copies ==> c in t.broker.copies && t.broker.copies[c] == s.broker.copies[c])
    ) == true
  }

  lemma EnqueueMore(s: State, copy: Copy)
    requires FreshIds(s)
    ensures MoreCopies(s, Enqueue(s, copy))
  {
  }

  lemma MoreHolds(s: State, t: State)
    requires MoreCopies(s, t) && HoldsOk(s) && Channels(s)
    ensures HoldsOk(t) && Channels(t)
  {
    forall w | w in t.workers
      ensures HoldOk(t, w, t.workers[w])
    {
      assert HoldOk(s, w, s.workers[w]);
    }
  }

  lemma MoreJobs(s: State, t: State)
    requires MoreCopies(s, t) && HoldsOk(s) && JobsOk(s)
    ensures JobsOk(t)
  {
    forall w | w in t.workers && t.workers[w].job.Some?
      ensures JobOk(t, t.workers[w].job.value)
    {
      assert JobOk(s, s.workers[w].job.value) && HoldOk(s, w, s.workers[w]);
    }
    forall w, v | w in t.workers && v in t.workers && w != v && t.workers[w].job.Some? && t.workers[v].job.Some?
      ensures Separate(t, t.workers[w].job.value, t.workers[v].job.value)
    {
      assert HoldOk(s, w, s.workers[w]) && HoldOk(s, v, s.workers[v]);
      assert Separate(s, s.workers[w].job.value, s.workers[v].job.value);
    }
  }

  lemma MoreFlow(s: State, t: State)
    requires FlowOk(s) && MoreCopies(s, t) && Places(t.broker) && Origins(t) && PublishersOk(t) && PublicationsOk(t)
    ensures FlowOk(t)
  {
    assert HoldsOk(t) && Channels(t) by { MoreHolds(s, t); }
    assert JobsOk(t) by { MoreJobs(s, t); }
    assert RowsOk(t) by {
      forall i | i in t.imports
        ensures RowOk(t.imports[i], AttemptsOf(t, i), i in t.work.passed)
      {
        assert RowOk(s.imports[i], AttemptsOf(s, i), i in s.work.passed);
      }
    }
  }

  lemma StillEnqueued(s: State, t: State, e: Id)
    requires MoreCopies(s, t) && Enqueued(s.broker, e)
    ensures Enqueued(t.broker, e)
  {
    var c :| c in s.broker.copies && s.broker.copies[c].origin == Some(e);
    assert t.broker.copies[c].origin == Some(e);
  }

  /** Other publishers keep their places in their batches. */
  lemma OthersKept(s: State, p: Id, phase: Publisher, t: State)
    requires PublishersOk(s) && MoreCopies(s, t) && t.publishers == s.publishers[p := phase]
    requires t.outbox.Keys == s.outbox.Keys && s.clock <= t.clock
    requires s.publications.confirmed <= t.publications.confirmed
    requires PublisherOk(t, phase)
    ensures PublishersOk(t)
  {
    forall q | q in t.publishers
      ensures PublisherOk(t, t.publishers[q])
    {
      if q != p {
        assert PublisherOk(s, s.publishers[q]);
        if s.publishers[q].Holding? && s.publishers[q].head == Awaiting(true) {
          StillEnqueued(s, t, s.publishers[q].batch[0]);
        }
      }
    }
  }

  /** Publications keep their meaning when no event loses a copy and only unleased, confirmed ones get published. */
  lemma PublicationsKept(s: State, t: State)
    requires PublicationsOk(s) && MoreCopies(s, t) && SameEvents(s, t)
    requires forall e :: e in t.publications.confirmed ==> e in s.publications.confirmed || Enqueued(t.broker, e)
    requires s.publications.confirmed <= t.publications.confirmed
    requires forall e :: e in s.outbox ==>
               t.outbox[e] == s.outbox[e]
               || ((t.outbox[e].publishedAt.Some? ==> e in t.publications.confirmed && t.outbox[e].lockedAt == None)
                   && (t.outbox[e].lockedAt == None <==> t.outbox[e].lockedBy == None))
    ensures PublicationsOk(t)
  {
    forall e | e in t.publications.confirmed
      ensures Enqueued(t.broker, e)
    {
      if e in s.publications.confirmed {
        StillEnqueued(s, t, e);
      }
    }
  }

  /** A publisher step that sends nothing. */
  lemma SameBrokerMore(s: State, t: State)
    requires Places(s.broker) && Origins(s) && SameEvents(s, t)
    requires t == s.(outbox := t.outbox, publishers := t.publishers, publications := t.publications)
    ensures MoreCopies(s, t) && Places(t.broker) && Origins(t)
  {
  }

  lemma ClaimKept(s: State, p: Id, batch: seq<Id>, skipped: set<Id>, reported: bool)
    requires FlowOk(s) && PublisherEnabled(s, p, Claim(batch, skipped, reported))
    ensures FlowOk(DoClaim(s, p, batch, reported))
  {
    var t := DoClaim(s, p, batch, reported);
    ClaimFrame(s, p, batch, reported);
    SameBrokerMore(s, t);
    assert PublishersOk(t) by { OthersKept(s, p, t.publishers[p], t); }
    assert PublicationsOk(t) by { ClaimPublications(s, p, batch, reported); }
    MoreFlow(s, t);
  }

  lemma ClaimPublications(s: State, p: Id, batch: seq<Id>, reported: bool)
    requires PublicationsOk(s) && forall e :: e in batch ==> Claimable(s, e)
    ensures PublicationsOk(DoClaim(s, p, batch, reported))
  {
  }

  lemma EnqueueOrigins(s: State, copy: Copy)
    requires Origins(s) && (copy.origin.Some? ==>
        copy.origin.value in s.outbox && copy.body == s.outbox[copy.origin.value].body)
    ensures Origins(Enqueue(s, copy))
  {
  }

  lemma SendMore(s: State, p: Id, phase: Publisher, stored: bool, reported: bool, t: State)
    requires FreshIds(s) && Places(s.broker) && Origins(s) && AtEvent(s, phase)
    requires t == DoSend(s, p, phase, stored, reported)
    ensures MoreCopies(s, t) && Places(t.broker) && Origins(t) && (stored ==> Enqueued(t.broker, phase.batch[0]))
  {
    var copy := Copy(Some(phase.batch[0]), s.outbox[phase.batch[0]].body);
    if stored {
      EnqueueMore(s, copy);
      EnqueuePlaces(s, copy);
      EnqueueOrigins(s, copy);
      assert t.broker.copies[s.nextId].origin == Some(phase.batch[0]);
    }
  }

  lemma SendKept(s: State, p: Id, stored: bool, reported: bool)
    requires FlowOk(s) && FreshIds(s) && PublisherEnabled(s, p, Send(stored, reported))
    ensures FlowOk(DoSend(s, p, PublisherOf(s, p), stored, reported))
  {
    var phase := PublisherOf(s, p);
    var t := DoSend(s, p, phase, stored, reported);
    SendMore(s, p, phase, stored, reported, t);
    assert PublishersOk(t) by {
      assert PublisherOk(s, phase);
      OthersKept(s, p, phase.(head := if reported then Awaiting(stored) else Unpublished), t);
    }
    assert PublicationsOk(t) by { PublicationsKept(s, t); }
    MoreFlow(s, t);
  }

  lemma HeadOk(s: State, phase: Publisher, head: Head, t: State)
    requires PublisherOk(s, phase) && phase.Holding? && t.outbox.Keys == s.outbox.Keys && t.clock == s.clock
    requires !head.Awaiting? && (head.Confirmed? ==> phase.batch[0] in t.publications.confirmed)
    ensures PublisherOk(t, phase.(head := head))
  {
  }

  lemma ConfirmationPublications(s: State, p: Id, phase: Publisher, positive: bool)
    requires PublicationsOk(s) && AtEvent(s, phase) && (positive ==> Enqueued(s.broker, phase.batch[0]))
    ensures PublicationsOk(DoConfirmation(s, p, phase, positive))
  {
  }

  lemma ConfirmationKept(s: State, p: Id, positive: bool)
    requires FlowOk(s) && PublisherEnabled(s, p, Confirmation(positive))
    ensures FlowOk(DoConfirmation(s, p, PublisherOf(s, p), positive))
  {
    var phase := PublisherOf(s, p);
    var t := DoConfirmation(s, p, phase, positive);
    assert PublisherOk(s, phase);
    PublisherFramed(s, p, Confirmation(positive));
    SameBrokerMore(s, t);
    assert PublishersOk(t) by {
      HeadOk(s, phase, if positive then Confirmed else Unpublished, t);
      OthersKept(s, p, phase.(head := if positive then Confirmed else Unpublished), t);
    }
    assert PublicationsOk(t) by { ConfirmationPublications(s, p, phase, positive); }
    MoreFlow(s, t);
  }

  lemma MarkPublications(s: State, p: Id, phase: Publisher, applied: bool, reported: bool)
    requires PublicationsOk(s) && AtEvent(s, phase) && phase.batch[0] in s.publications.confirmed
    ensures PublicationsOk(DoMark(s, p, phase, applied, reported))
  {
  }

  /** What is left of a batch after its first event. */
  lemma RestOk(s: State, phase: Publisher, t: State)
    requires PublisherOk(s, phase) && phase.Holding? && t.outbox.Keys == s.outbox.Keys && t.clock == s.clock
    ensures PublisherOk(t, Rest(phase.batch[1..], phase.since))
  {
  }

  lemma MarkKept(s: State, p: Id, applied: bool, reported: bool)
    requires FlowOk(s) && PublisherEnabled(s, p, Mark(applied, reported))
    ensures FlowOk(DoMark(s, p, PublisherOf(s, p), applied, reported))
  {
    var phase := PublisherOf(s, p);
    var t := DoMark(s, p, phase, applied, reported);
    assert PublisherOk(s, phase);
    PublisherFramed(s, p, Mark(applied, reported));
    SameBrokerMore(s, t);
    assert PublishersOk(t) by {
      var next := if reported then Rest(phase.batch[1..], phase.since) else Resting;
      assert PublisherOk(t, next) by { RestOk(s, phase, t); }
      OthersKept(s, p, next, t);
    }
    assert PublicationsOk(t) by { MarkPublications(s, p, phase, applied, reported); }
    MoreFlow(s, t);
  }

  lemma ReleasePublications(s: State, p: Id, phase: Publisher, applied: bool)
    requires PublicationsOk(s) && AtEvent(s, phase)
    ensures PublicationsOk(DoRelease(s, p, phase, applied))
  {
  }

  lemma ReleaseKept(s: State, p: Id, applied: bool)
    requires FlowOk(s) && PublisherEnabled(s, p, Release(applied))
    ensures FlowOk(DoRelease(s, p, PublisherOf(s, p), applied))
  {
    var t := DoRelease(s, p, PublisherOf(s, p), applied);
    PublisherFramed(s, p, Release(applied));
    SameBrokerMore(s, t);
    assert PublishersOk(t) by { OthersKept(s, p, Resting, t); }
    assert PublicationsOk(t) by { ReleasePublications(s, p, PublisherOf(s, p), applied); }
    MoreFlow(s, t);
  }

  lemma PhaseOnlyKept(s: State, p: Id, phase: Publisher)
    requires FlowOk(s) && PublisherOk(s, phase)
    ensures FlowOk(SetPublisher(s, p, phase))
  {
    var t := SetPublisher(s, p, phase);
    assert PublisherOk(t, phase);
    OthersKept(s, p, phase, t);
    PublicationsKept(s, t);
    MoreFlow(s, t);
  }

  /** Every stored payload decodes, so the publisher's decoding error is never taken. */
  lemma PayloadsDecode(s: State, p: Id)
    requires TablesOk(s)
    ensures !PublisherEnabled(s, p, Undecodable)
  {
  }

  lemma PublisherKeepsFlow(s: State, p: Id, step: PublisherStep, t: State)
    requires Inv(s) && PublisherEnabled(s, p, step) && t == PublisherApply(s, p, step)
    ensures FlowOk(t)
  {
    match step
    case Claim(batch, skipped, reported) => ClaimKept(s, p, batch, skipped, reported);
    case Undecodable => PayloadsDecode(s, p);
    case Send(stored, reported) => SendKept(s, p, stored, reported);
    case Confirmation(positive) => ConfirmationKept(s, p, positive);
    case Mark(applied, reported) => MarkKept(s, p, applied, reported);
    case Release(applied) => ReleaseKept(s, p, applied);
    case Halt => PhaseOnlyKept(s, p, Resting);
  }

  lemma TickKept(s: State, elapsed: nat, t: State)
    requires FlowOk(s) && t == s.(clock := s.clock + elapsed)
    ensures FlowOk(t)
  {
    forall p | p in t.publishers
      ensures PublisherOk(t, t.publishers[p])
    {
      assert PublisherOk(s, s.publishers[p]);
    }
    MoreFlow(s, t);
  }

  lemma InjectKept(s: State, body: Body, t: State)
    requires FlowOk(s) && FreshIds(s) && t == Enqueue(s, Copy(None, body))
    ensures FlowOk(t)
  {
    EnqueueMore(s, Copy(None, body));
    EnqueuePlaces(s, Copy(None, body));
    forall p | p in t.publishers
      ensures PublisherOk(t, t.publishers[p])
    {
      assert PublisherOk(s, s.publishers[p]);
      if s.publishers[p].Holding? && s.publishers[p].head == Awaiting(true) {
        StillEnqueued(s, t, s.publishers[p].batch[0]);
      }
    }
    PublicationsKept(s, t);
    MoreFlow(s, t);
  }

  // ---------------------------------------------------------------- channels move copies only

  /** The rest of the invariant does not look at the places. */
  lemma ChannelRest(s: State, w: Id, t: State)
    requires FlowOk(s) && ChannelFrame(s, w, t)
    ensures Origins(t) && PublishersOk(t) && PublicationsOk(t) && RowsOk(t)
  {
    forall p | p in t.publishers
      ensures PublisherOk(t, t.publishers[p])
    {
      assert PublisherOk(s, s.publishers[p]);
    }
    forall i | i in t.imports
      ensures RowOk(t.imports[i], AttemptsOf(t, i), i in t.work.passed)
    {
      assert RowOk(s.imports[i], AttemptsOf(s, i), i in s.work.passed);
    }
  }

  /** A worker that only takes up, settles or drops a message owns no attempt yet or any more. */
  lemma ChannelJobs(s: State, w: Id, t: State)
    requires JobsOk(s) && ChannelFrame(s, w, t)
    requires WorkerOf(t, w).job.Some? && Active(WorkerOf(t, w).job.value.phase) ==>
        WorkerOf(t, w).job == WorkerOf(s, w).job
    ensures JobsOk(t)
  {
    forall v | v in t.workers && t.workers[v].job.Some?
      ensures JobOk(t, t.workers[v].job.value)
    {
      assert WorkerOf(t, v) == t.workers[v];
      if Active(t.workers[v].job.value.phase) {
        assert WorkerOf(s, v).job == t.workers[v].job && v in s.workers;
        assert JobOk(s, s.workers[v].job.value);
      }
    }
    forall u, v | u in t.workers && v in t.workers && u != v && t.workers[u].job.Some? && t.workers[v].job.Some?
      ensures Separate(t, t.workers[u].job.value, t.workers[v].job.value)
    {
      assert WorkerOf(t, u) == t.workers[u] && WorkerOf(t, v) == t.workers[v];
      if Active(t.workers[u].job.value.phase) && Active(t.workers[v].job.value.phase) {
        assert WorkerOf(s, u).job == t.workers[u].job && WorkerOf(s, v).job == t.workers[v].job;
        assert Separate(s, s.workers[u].job.value, s.workers[v].job.value);
      }
    }
  }

  lemma DeliverHolds(s: State, w: Id, copy: Id)
    requires Places(s.broker) && HoldsOk(s) && Channels(s) && ChannelEnabled(s, w, Deliver(copy))
    ensures HoldsOk(DoDeliver(s, w, copy)) && Channels(DoDeliver(s, w, copy))
  {
    var t := DoDeliver(s, w, copy);
    forall v | v in t.workers
      ensures HoldOk(t, v, t.workers[v])
    {
      assert HoldOk(s, v, s.workers[v]);
    }
  }

  lemma TakeHolds(s: State, w: Id, copy: Id)
    requires Places(s.broker) && HoldsOk(s) && Channels(s) && ChannelEnabled(s, w, Take(copy))
    ensures HoldsOk(DoTake(s, w, copy)) && Channels(DoTake(s, w, copy))
  {
    var t := DoTake(s, w, copy);
    forall v | v in t.workers
      ensures HoldOk(t, v, t.workers[v])
    {
      if v != w {
        assert HoldOk(s, v, s.workers[v]);
      }
    }
  }

  lemma SettleHolds(s: State, w: Id, applied: bool, ack: bool)
    requires Places(s.broker) && HoldsOk(s) && Channels(s) && Busy(s, w) && (applied ==> WorkerOf(s, w).attached)
    requires ack ==> JobOf(s, w).phase.Completed?
    ensures HoldsOk(DoSettle(s, w, JobOf(s, w).copy, applied, ack))
    ensures Channels(DoSettle(s, w, JobOf(s, w).copy, applied, ack))
  {
    var c := JobOf(s, w).copy;
    var t := DoSettle(s, w, c, applied, ack);
    assert HoldOk(s, w, s.workers[w]);
    forall v | v in t.workers
      ensures HoldOk(t, v, t.workers[v])
    {
      if v != w {
        assert HoldOk(s, v, s.workers[v]);
      }
    }
  }

  lemma RequeueHolds(s: State, w: Id, worker: Worker, t: State)
    requires HoldsOk(s) && Channels(s)
    requires t == s.(broker := Requeue(s.broker, w), workers := s.workers[w := worker])
    requires worker == Worker(None, true) || worker == WorkerOf(s, w).(attached := false)
    ensures HoldsOk(t) && Channels(t)
  {
    forall v | v in t.workers
      ensures HoldOk(t, v, t.workers[v])
    {
      if v in s.workers {
        assert HoldOk(s, v, s.workers[v]);
      }
    }
  }

  lemma ChannelHolds(s: State, w: Id, step: ChannelStep)
    requires Places(s.broker) && HoldsOk(s) && Channels(s) && ChannelEnabled(s, w, step)
    ensures HoldsOk(ChannelApply(s, w, step)) && Channels(ChannelApply(s, w, step))
  {
    match step
    case Deliver(copy) => DeliverHolds(s, w, copy);
    case Take(copy) => TakeHolds(s, w, copy);
    case Ack(applied) => SettleHolds(s, w, applied, true);
    case Nack(applied) => SettleHolds(s, w, applied, false);
    case Detach => RequeueHolds(s, w, WorkerOf(s, w).(attached := false), DoDetach(s, w));
    case Stop => RequeueHolds(s, w, Worker(None, true), DoStop(s, w));
  }

  lemma ChannelKeepsFlow(s: State, w: Id, step: ChannelStep, t: State)
    requires FlowOk(s) && ChannelEnabled(s, w, step) && t == ChannelApply(s, w, step)
    ensures FlowOk(t)
  {
    ChannelFramed(s, w, step);
    assert Places(t.broker) by { ChannelPlaces(s, w, step); }
    assert HoldsOk(t) && Channels(t) by { ChannelHolds(s, w, step); }
    ChannelRest(s, w, t);
    assert JobsOk(t) by { ChannelJobs(s, w, t); }
  }

  // ---------------------------------------------------------------- workers write one row and own one attempt

  lemma WorkerHolds(s: State, w: Id, t: State)
    requires HoldsOk(s) && Channels(s) && WorkerFrame(s, w, t)
    requires s.work.done <= t.work.done <= s.work.done + {JobOf(s, w).copy}
    requires JobOf(t, w).phase.Completed? ==> JobOf(t, w).copy in t.work.done
    ensures HoldsOk(t) && Channels(t)
  {
    assert HoldOk(s, w, s.workers[w]);
    forall v | v in t.workers
      ensures HoldOk(t, v, t.workers[v])
    {
      assert WorkerOf(t, v) == t.workers[v];
      if v != w {
        assert WorkerOf(s, v) == t.workers[v];
        if v in s.workers {
          assert HoldOk(s, v, s.workers[v]);
        }
      }
    }
  }

  /** Outbox, publishers and publications do not look at what workers do. */
  lemma WorkerRest(s: State, w: Id, t: State)
    requires Places(s.broker) && Origins(s) && PublishersOk(s) && PublicationsOk(s) && WorkerFrame(s, w, t)
    ensures Places(t.broker) && Origins(t) && PublishersOk(t) && PublicationsOk(t)
  {
    forall p | p in t.publishers
      ensures PublisherOk(t, t.publishers[p])
    {
      assert PublisherOk(s, s.publishers[p]);
    }
  }

  /** Attempt records that change from `a` to `b` only grow, and keep the entries other workers own. */
  ghost predicate OthersAttempts(a: seq<Attempt>, b: seq<Attempt>, mine: nat) {
    |a| <= |b| && forall n :: 0 <= n < |a| && n + 1 != mine ==> b[n] == a[n]
  }

  /** The row the worker is on and the attempts of that row change; all other rows stay as they are. */
  ghost predicate OneRow(s: State, w: Id, i: Id, t: State) {
    (
      && WorkerFrame(s, w, t)
      && i in s.imports
      && (forall k :: k in s.imports && k != i ==> t.imports[k] == s.imports[k])
      && (forall k :: k != i ==> AttemptsOf(t, k) == AttemptsOf(s, k) && (k in t.work.passed <==> k in s.work.passed))
      && s.work.passed <= t.work.passed
    ) == true
  }

  lemma OneRowRows(s: State, w: Id, i: Id, t: State)
    requires RowsOk(s) && OneRow(s, w, i, t)
    requires RowOk(t.imports[i], AttemptsOf(t, i), i in t.work.passed)
    ensures RowsOk(t)
  {
    forall k | k in t.imports
      ensures RowOk(t.imports[k], AttemptsOf(t, k), k in t.work.passed)
    {
      if k != i {
        assert RowOk(s.imports[k], AttemptsOf(s, k), k in s.work.passed);
      }
    }
  }

  /** The other workers' jobs stay in order when the attempts they own stay as they are. */
  lemma OtherJobOk(s: State, w: Id, i: Id, mine: nat, t: State, j: Job)
    requires OneRow(s, w, i, t) && JobOk(s, j)
    requires OthersAttempts(AttemptsOf(s, i), AttemptsOf(t, i), mine)
    requires Active(j.phase) && OnRow(s, j.copy) && RowOf(s, j.copy) == i ==> j.phase.attempt != mine
    ensures JobOk(t, j)
  {
  }

  lemma OneRowJobs(s: State, w: Id, i: Id, mine: nat, t: State)
    requires JobsOk(s) && OneRow(s, w, i, t)
    requires OthersAttempts(AttemptsOf(s, i), AttemptsOf(t, i), mine)
    requires forall v :: v in s.workers && v != w && s.workers[v].job.Some? && Active(s.workers[v].job.value.phase)
                         && OnRow(s, s.workers[v].job.value.copy) && RowOf(s, s.workers[v].job.value.copy) == i ==>
               s.workers[v].job.value.phase.attempt != mine
    requires JobOk(t, JobOf(t, w))
    requires Active(JobOf(t, w).phase) ==>
        OnRow(s, JobOf(t, w).copy) && RowOf(s, JobOf(t, w).copy) == i && JobOf(t, w).phase.attempt == mine
    ensures JobsOk(t)
  {
    forall v | v in t.workers && t.workers[v].job.Some?
      ensures JobOk(t, t.workers[v].job.value)
    {
      assert WorkerOf(t, v) == t.workers[v];
      if v != w {
        assert WorkerOf(s, v) == t.workers[v];
        OtherJobOk(s, w, i, mine, t, s.workers[v].job.value);
      }
    }
    forall u, v | u in t.workers && v in t.workers && u != v && t.workers[u].job.Some? && t.workers[v].job.Some?
      ensures Separate(t, t.workers[u].job.value, t.workers[v].job.value)
    {
      assert WorkerOf(t, u) == t.workers[u] && WorkerOf(t, v) == t.workers[v];
      if u != w && v != w {
        assert WorkerOf(s, u) == t.workers[u] && WorkerOf(s, v) == t.workers[v];
        assert Separate(s, s.workers[u].job.value, s.workers[v].job.value);
      } else if u != w {
        assert WorkerOf(s, u) == t.workers[u];
      } else {
        assert WorkerOf(s, v) == t.workers[v];
      }
    }
  }

  lemma StartedRowOk(row: Import, attempts: seq<Attempt>, passed: bool)
    requires RowOk(row, attempts, passed)
    ensures RowOk(StartedRow(row), attempts + [Attempt(0, false)], passed)
  {
  }

  lemma CalledRowOk(row: Import, attempts: seq<Attempt>, passed: bool, n: nat, ok: bool)
    requires RowOk(row, attempts, passed) && 1 <= n <= |attempts| && attempts[n - 1].calls < 3
    ensures RowOk(row, Changed(attempts, n, 1, false), passed || ok)
  {
  }

  lemma CompletedRowOk(row: Import, attempts: seq<Attempt>, passed: bool, n: nat, status: Status, error: Bytes,
                       now: nat)
    requires RowOk(row, attempts, passed) && 1 <= n <= |attempts|
    requires (status == Succeeded && error == [] && passed) || (status == DeadLetter && error != [])
    requires |error| <= 300 && NEWLINE !in error && Storable(error)
    ensures RowOk(CompletedRow(row, status, error, now), Changed(attempts, n, 0, true), passed)
  {
  }

  lemma PhaseJobs(s: State, w: Id, phase: Phase)
    requires JobsOk(s) && Busy(s, w)
    requires Active(phase) ==> Active(JobOf(s, w).phase) && phase.attempt == JobOf(s, w).phase.attempt
    requires JobOk(InPhase(s, w, phase), Job(JobOf(s, w).copy, phase))
    ensures JobsOk(InPhase(s, w, phase))
  {
    var t := InPhase(s, w, phase);
    forall v | v in t.workers && t.workers[v].job.Some?
      ensures JobOk(t, t.workers[v].job.value)
    {
      if v != w {
        assert JobOk(s, s.workers[v].job.value);
      }
    }
    forall u, v | u in t.workers && v in t.workers && u != v && t.workers[u].job.Some? && t.workers[v].job.Some?
      ensures Separate(t, t.workers[u].job.value, t.workers[v].job.value)
    {
      assert u in s.workers && v in s.workers;
      assert Separate(s, s.workers[u].job.value, s.workers[v].job.value);
    }
  }

  /** Only the worker's own phase changes. */
  lemma PhaseKeepsFlow(s: State, w: Id, phase: Phase, t: State)
    requires FlowOk(s) && Busy(s, w)
    requires phase.Doomed? || (phase.Refused? && phase.error != [] && JobOf(s, w).phase.Calling?
                               && phase.attempt == JobOf(s, w).phase.attempt)
    requires t == InPhase(s, w, phase)
    ensures FlowOk(t)
  {
    assert JobOk(s, s.workers[w].job.value);
    PhaseFrame(s, w, phase);
    WorkerRest(s, w, t);
    assert HoldsOk(t) && Channels(t) by { WorkerHolds(s, w, t); }
    assert JobsOk(t) by { PhaseJobs(s, w, phase); }
    assert RowsOk(t);
  }

  /** The row, its attempts and the worker's new phase fit together. */
  ghost predicate Fits(s: State, w: Id, i: Id, row: Import, work: Work, phase: Phase, mine: nat)
    requires Busy(s, w)
  {
    (
      && i in s.imports && OnRow(s, JobOf(s, w).copy) && RowOf(s, JobOf(s, w).copy) == i
      && RowKey(row) == RowKey(s.imports[i]) && PayloadOf(i, row) == PayloadOf(i, s.imports[i])
      && i in s.work.attempts && i in work.attempts
      && work == s.work.(attempts := s.work.attempts[i := work.attempts[i]], passed := work.passed, done := work.done)
      && (work.passed == s.work.passed || work.passed == s.work.passed + {i})
      && s.work.done <= work.done <= s.work.done + {JobOf(s, w).copy}
      && (phase.Completed? ==> JobOf(s, w).copy in work.done)
      && RowOk(row, work.attempts[i], i in work.passed)
      && OthersAttempts(s.work.attempts[i], work.attempts[i], mine)
      && NobodyElse(s, w, i, mine)
      && (Active(phase) ==> phase.attempt == mine)
      && JobOk(RowUpdate(s, w, i, row, work, phase), Job(JobOf(s, w).copy, phase))
    ) == true
  }

  lemma FitsOneRow(s: State, w: Id, i: Id, row: Import, work: Work, phase: Phase, mine: nat)
    requires Busy(s, w) && Fits(s, w, i, row, work, phase, mine)
    ensures OneRow(s, w, i, RowUpdate(s, w, i, row, work, phase))
  {
    RowUpdateFrame(s, w, i, row, work, phase);
  }

  lemma RowUpdateKeepsFlow(s: State, w: Id, i: Id, row: Import, work: Work, phase: Phase, mine: nat, t: State)
    requires FlowOk(s) && Busy(s, w) && Fits(s, w, i, row, work, phase, mine)
    requires t == RowUpdate(s, w, i, row, work, phase)
    ensures FlowOk(t)
  {
    FitsOneRow(s, w, i, row, work, phase, mine);
    WorkerRest(s, w, t);
    assert HoldsOk(t) && Channels(t) by { WorkerHolds(s, w, t); }
    assert JobsOk(t) by { OneRowJobs(s, w, i, mine, t); }
    assert RowsOk(t) by { OneRowRows(s, w, i, t); }
  }

  /** No other worker is in attempt `n` of row `i`. */
  ghost predicate NobodyElse(s: State, w: Id, i: Id, n: nat) {
    forall v :: v in s.workers && v != w && s.workers[v].job.Some? && Active(s.workers[v].job.value.phase)
                && OnRow(s, s.workers[v].job.value.copy) && RowOf(s, s.workers[v].job.value.copy) == i ==>
      s.workers[v].job.value.phase.attempt != n
  }

  lemma OwnAttempt(s: State, w: Id)
    requires JobsOk(s) && Busy(s, w) && Active(JobOf(s, w).phase)
    ensures JobOk(s, JobOf(s, w)) && OnRow(s, JobOf(s, w).copy)
    ensures NobodyElse(s, w, RowOf(s, JobOf(s, w).copy), JobOf(s, w).phase.attempt)
  {
    assert JobOk(s, s.workers[w].job.value);
    forall v | v in s.workers && v != w && s.workers[v].job.Some? && Active(s.workers[v].job.value.phase)
               && OnRow(s, s.workers[v].job.value.copy)
                   && RowOf(s, s.workers[v].job.value.copy) == RowOf(s, JobOf(s, w).copy)
      ensures s.workers[v].job.value.phase.attempt != JobOf(s, w).phase.attempt
    {
      assert Separate(s, s.workers[v].job.value, s.workers[w].job.value);
    }
  }

  lemma NewAttempt(s: State, w: Id, i: Id)
    requires JobsOk(s)
    ensures NobodyElse(s, w, i, |AttemptsOf(s, i)| + 1)
  {
    forall v | v in s.workers && v != w && s.workers[v].job.Some? && Active(s.workers[v].job.value.phase)
               && OnRow(s, s.workers[v].job.value.copy) && RowOf(s, s.workers[v].job.value.copy) == i
      ensures s.workers[v].job.value.phase.attempt != |AttemptsOf(s, i)| + 1
    {
      assert JobOk(s, s.workers[v].job.value);
    }
  }

  function StartedWork(s: State, i: Id): Work {
    s.work.(attempts := s.work.attempts[i := AttemptsOf(s, i) + [Attempt(0, false)]])
  }

  lemma StartedJobOk(s: State, w: Id, i: Id, phase: Phase)
    requires Busy(s, w) && OnRow(s, JobOf(s, w).copy) && RowOf(s, JobOf(s, w).copy) == i
    requires phase == Calling(|AttemptsOf(s, i)| + 1, 0) || phase == Doomed
    ensures JobOk(RowUpdate(s, w, i, StartedRow(s.imports[i]), StartedWork(s, i), phase), Job(JobOf(s, w).copy, phase))
  {
    var t := RowUpdate(s, w, i, StartedRow(s.imports[i]), StartedWork(s, i), phase);
    assert AttemptsOf(t, i) == AttemptsOf(s, i) + [Attempt(0, false)];
  }

  lemma StartFits(s: State, w: Id, i: Id, reported: bool)
    requires Busy(s, w) && OnRow(s, JobOf(s, w).copy) && RowOf(s, JobOf(s, w).copy) == i && i in s.work.attempts
    requires RowOk(s.imports[i], AttemptsOf(s, i), i in s.work.passed) && NobodyElse(s, w, i, |AttemptsOf(s, i)| + 1)
    ensures Fits(s, w, i, StartedRow(s.imports[i]), StartedWork(s, i),
                 if reported then Calling(s.imports[i].attempts + 1, 0) else Doomed, |AttemptsOf(s, i)| + 1)
  {
    StartedRowOk(s.imports[i], AttemptsOf(s, i), i in s.work.passed);
    StartedJobOk(s, w, i, if reported then Calling(s.imports[i].attempts + 1, 0) else Doomed);
  }

  lemma AppliedStartKept(s: State, w: Id, i: Id, reported: bool, t: State)
    requires FlowOk(s) && s.work.attempts.Keys == s.imports.Keys && Busy(s, w) && OnRow(s, JobOf(s, w).copy)
    requires RowOf(s, JobOf(s, w).copy) == i
    requires t == RowUpdate(s, w, i, StartedRow(s.imports[i]), StartedWork(s, i),
                            if reported then Calling(s.imports[i].attempts + 1, 0) else Doomed)
    ensures FlowOk(t)
  {
    NewAttempt(s, w, i);
    StartFits(s, w, i, reported);
    RowUpdateKeepsFlow(s, w, i, StartedRow(s.imports[i]), StartedWork(s, i),
                       if reported then Calling(s.imports[i].attempts + 1, 0) else Doomed, |AttemptsOf(s, i)| + 1, t);
  }

  lemma StartKept(s: State, w: Id, applied: bool, reported: bool, t: State)
    requires FlowOk(s) && s.work.attempts.Keys == s.imports.Keys && WorkerEnabled(s, w, Start(applied, reported))
    requires t == DoStart(s, w, JobOf(s, w), applied, reported)
    ensures FlowOk(t)
  {
    if OnRow(s, JobOf(s, w).copy) && applied {
      AppliedStartKept(s, w, RowOf(s, JobOf(s, w).copy), reported, t);
    } else {
      assert t == InPhase(s, w, Doomed);
      PhaseKeepsFlow(s, w, Doomed, t);
    }
  }

  lemma CalledJobOk(s: State, w: Id, i: Id, n: nat, ok: bool, phase: Phase)
    requires Busy(s, w) && JobOk(s, JobOf(s, w)) && JobOf(s, w).phase.Calling? && JobOf(s, w).phase.made < 3
    requires i == RowOf(s, JobOf(s, w).copy) && n == JobOf(s, w).phase.attempt
    requires phase == if ok then Passed(n) else Calling(n, JobOf(s, w).phase.made + 1)
    ensures JobOk(RowUpdate(s, w, i, s.imports[i], CalledWork(s, i, n, ok), phase), Job(JobOf(s, w).copy, phase))
  {
    var t := RowUpdate(s, w, i, s.imports[i], CalledWork(s, i, n, ok), phase);
    assert AttemptsOf(t, i) == Changed(AttemptsOf(s, i), n, 1, false);
  }

  lemma CallFits(s: State, w: Id, i: Id, n: nat, ok: bool, phase: Phase)
    requires Busy(s, w) && JobOk(s, JobOf(s, w)) && JobOf(s, w).phase.Calling? && JobOf(s, w).phase.made < 3
    requires i == RowOf(s, JobOf(s, w).copy) && n == JobOf(s, w).phase.attempt && i in s.work.attempts
    requires RowOk(s.imports[i], AttemptsOf(s, i), i in s.work.passed) && NobodyElse(s, w, i, n)
    requires phase == if ok then Passed(n) else Calling(n, JobOf(s, w).phase.made + 1)
    ensures Fits(s, w, i, s.imports[i], CalledWork(s, i, n, ok), phase, n)
  {
    CalledRowOk(s.imports[i], AttemptsOf(s, i), i in s.work.passed, n, ok);
    CalledJobOk(s, w, i, n, ok, phase);
  }

  lemma AppliedCallKept(s: State, w: Id, i: Id, n: nat, ok: bool, phase: Phase, t: State)
    requires FlowOk(s) && Busy(s, w) && JobOf(s, w).phase.Calling? && JobOf(s, w).phase.made < 3
    requires JobOk(s, JobOf(s, w))
    requires i == RowOf(s, JobOf(s, w).copy) && n == JobOf(s, w).phase.attempt && i in s.work.attempts
    requires NobodyElse(s, w, i, n)
    requires phase == if ok then Passed(n) else Calling(n, JobOf(s, w).phase.made + 1)
    requires t == RowUpdate(s, w, i, s.imports[i], CalledWork(s, i, n, ok), phase)
    ensures FlowOk(t)
  {
    CallFits(s, w, i, n, ok, phase);
    RowUpdateKeepsFlow(s, w, i, s.imports[i], CalledWork(s, i, n, ok), phase, n, t);
  }

  lemma CallKept(s: State, w: Id, ok: bool, t: State)
    requires FlowOk(s) && s.work.attempts.Keys == s.imports.Keys && WorkerEnabled(s, w, Call(ok))
    requires t == DoCall(s, w, JobOf(s, w), ok)
    ensures FlowOk(t)
  {
    var j := JobOf(s, w);
    OwnAttempt(s, w);
    AppliedCallKept(s, w, RowOf(s, j.copy), j.phase.attempt, ok,
                    if ok then Passed(j.phase.attempt) else Calling(j.phase.attempt, j.phase.made + 1), t);
  }

  lemma FinalRowOk(s: State, i: Id, j: Job)
    requires i in s.imports && RowOk(s.imports[i], AttemptsOf(s, i), i in s.work.passed)
    requires (j.phase.Passed? || j.phase.Refused?) && Recordable(j.phase) && JobOk(s, j) && i == RowOf(s, j.copy)
    ensures RowOk(FinalRow(s, i, j.phase), Changed(AttemptsOf(s, i), j.phase.attempt, 0, true), i in s.work.passed)
  {
    if j.phase.Refused? {
      SafeMessageShape(j.phase.error);
    }
    var row := FinalRow(s, i, j.phase);
    CompletedRowOk(s.imports[i], AttemptsOf(s, i), i in s.work.passed, j.phase.attempt, row.status, row.lastError,
        s.clock);
  }

  lemma FinalFits(s: State, w: Id, i: Id, j: Job, phase: Phase)
    requires Busy(s, w) && j == JobOf(s, w) && (j.phase.Passed? || j.phase.Refused?) && Recordable(j.phase)
    requires JobOk(s, j)
    requires i == RowOf(s, j.copy) && i in s.work.attempts
    requires RowOk(s.imports[i], AttemptsOf(s, i), i in s.work.passed) && NobodyElse(s, w, i, j.phase.attempt)
    requires phase == Doomed || (phase == Completed && j.phase.Passed?)
    ensures Fits(s, w, i, FinalRow(s, i, j.phase), FinalWork(s, i, j), phase, j.phase.attempt)
  {
    FinalRowOk(s, i, j);
  }

  lemma AppliedCompleteKept(s: State, w: Id, reported: bool, t: State)
    requires FlowOk(s) && s.work.attempts.Keys == s.imports.Keys && WorkerEnabled(s, w, Complete(true, reported))
    requires t == DoComplete(s, w, JobOf(s, w), true, reported)
    ensures FlowOk(t)
  {
    var j := JobOf(s, w);
    OwnAttempt(s, w);
    var i := RowOf(s, j.copy);
    var phase := if j.phase.Passed? && reported then Completed else Doomed;
    FinalFits(s, w, i, j, phase);
    RowUpdateKeepsFlow(s, w, i, FinalRow(s, i, j.phase), FinalWork(s, i, j), phase, j.phase.attempt, t);
  }

  lemma WorkerKeepsFlow(s: State, w: Id, step: WorkerStep, t: State)
    requires FlowOk(s) && s.work.attempts.Keys == s.imports.Keys && WorkerEnabled(s, w, step)
    requires t == WorkerApply(s, w, step)
    ensures FlowOk(t)
  {
    match step
    case BadBody => PhaseKeepsFlow(s, w, Doomed, t);
    case Start(applied, reported) => StartKept(s, w, applied, reported, t);
    case Call(ok) => CallKept(s, w, ok, t);
    case GiveUp(error) => PhaseKeepsFlow(s, w, Refused(JobOf(s, w).phase.attempt, error), t);
    case Complete(applied, reported) =>
      if applied {
        AppliedCompleteKept(s, w, reported, t);
      } else {
        assert JobOk(s, s.workers[w].job.value);
        PhaseKeepsFlow(s, w, Doomed, t);
      }
  }

  // ---------------------------------------------------------------- all steps, all runs

  lemma CreatorKeepsFlow(s: State, c: Id, step: CreatorStep, t: State)
    requires Inv(s) && CreatorEnabled(s, c, step) && t == CreatorApply(s, c, step)
    ensures FlowOk(t)
  {
    CreatorGrows(s, c, step);
    GrownFlow(s, t);
  }

  lemma StepKeepsFlow(s: State, step: Step, t: State)
    requires Inv(s) && Goes(s, step, t)
    ensures FlowOk(t)
  {
    match step
    case ByCreator(c, cs) => CreatorKeepsFlow(s, c, cs, t);
    case ByPublisher(p, ps) => PublisherKeepsFlow(s, p, ps, t);
    case ByChannel(w, ks) => ChannelKeepsFlow(s, w, ks, t);
    case ByWorker(w, ws) => WorkerKeepsFlow(s, w, ws, t);
    case Tick(elapsed) => TickKept(s, elapsed, t);
    case Inject(body) => InjectKept(s, body, t);
  }

  lemma StepKeepsInv(s: State, step: Step, t: State)
    requires Inv(s) && Goes(s, step, t)
    ensures Inv(t)
  {
    assert TablesOk(t) by { StepKeepsTables(s, step, t); }
    assert FlowOk(t) by { StepKeepsFlow(s, step, t); }
  }

  /** The invariant holds in every state of every run. */
  lemma {:induction false} InvThroughout(states: seq<State>, steps: seq<Step>, k: nat)
    requires Trace(states, steps) && k < |states|
    ensures Inv(states[k])
  {
    if k == 0 {
      EmptyOk();
    } else {
      InvThroughout(states, steps, k - 1);
      assert GoesAt(states, steps, k - 1);
      StepKeepsInv(states[k - 1], steps[k - 1], states[k]);
    }
  }

  /** One step of a run, and the invariant before it. */
  lemma StepAt(states: seq<State>, steps: seq<Step>, n: nat)
    requires Trace(states, steps) && n < |steps|
    ensures Goes(states[n], steps[n], states[n + 1]) && Inv(states[n])
    ensures states[n].work.attempts.Keys == states[n].imports.Keys
  {
    assert GoesAt(states, steps, n);
    InvThroughout(states, steps, n);
  }

  lemma Extend(states: seq<State>, steps: seq<Step>, step: Step, t: State)
    requires Trace(states, steps) && Goes(states[|steps|], step, t)
    ensures Trace(states + [t], steps + [step])
  {
    forall n | 0 <= n < |steps + [step]|
      ensures GoesAt(states + [t], steps + [step], n)
    {
      if n < |steps| {
        assert GoesAt(states, steps, n);
      }
    }
  }

  /** A state some run ends in. */
  ghost predicate Reachable(s: State) {
    exists states, steps :: Trace(states, steps) && states[|steps|] == s
  }

  lemma Onward(s: State, step: Step, t: State)
    requires Reachable(s) && Goes(s, step, t)
    ensures Reachable(t)
  {
    var states, steps :| Trace(states, steps) && states[|steps|] == s;
    Extend(states, steps, step, t);
    assert (states + [t])[|steps + [step]|] == t;
  }

  lemma Begun()
    ensures Reachable(Empty())
  {
    var states, steps := [Empty()], [];
    assert Trace(states, steps) && states[|steps|] == Empty();
  }

  lemma ReachableOk(s: State)
    requires Reachable(s)
    ensures Inv(s)
  {
    var states, steps :| Trace(states, steps) && states[|steps|] == s;
    InvThroughout(states, steps, |steps|);
  }
}
