/** Every queued import stays SUCCEEDED or carried by a copy: exactly when that holds, and that it does with
    fail-stop workers. */
module Safety {
  import opened Text
  import opened Pipeline
  import opened Tables
  import opened Flow
  import opened FlowKept

  /** The copy is about to be acknowledged: its own SUCCEEDED update has been reported. */
  predicate Finishing(s: State, c: Id) {
    c in s.broker.unacked &&
    var w := s.broker.unacked[c].worker;
    Busy(s, w) && JobOf(s, w).copy == c && JobOf(s, w).phase.Completed?
  }

  /** The copy is still around: queued, held and not about to be acknowledged, or dead-lettered. */
  predicate Live(s: State, c: Id) {
    c in s.broker.ready || c in s.broker.dead || (c in s.broker.unacked && !Finishing(s, c))
  }

  predicate About(s: State, c: Id, i: Id) {
    c in s.broker.copies && s.broker.copies[c].body.Decoded? && s.broker.copies[c].body.payload.importId == i
  }

  ghost predicate Carried(s: State, i: Id) {
    exists c :: About(s, c, i) && Live(s, c)
  }

  ghost predicate Sent(s: State, i: Id) {
    i in s.creations.eventOf && Enqueued(s.broker, s.creations.eventOf[i])
  }

  /** The event of the import is still to be published. */
  predicate AwaitsPublication(s: State, i: Id) {
    i in s.creations.eventOf && s.creations.eventOf[i] in s.outbox
        && s.outbox[s.creations.eventOf[i]].publishedAt == None
  }

  /** An import that is not SUCCEEDED, has no event left to publish, and whose message is nowhere any more. */
  ghost predicate Lost(s: State, i: Id)
    requires i in s.imports
  {
    s.imports[i].status != Succeeded && !AwaitsPublication(s, i) && !Carried(s, i)
  }

  /** Once its message was queued, an import is SUCCEEDED or a copy of the message is still around. */
  ghost predicate Safe(s: State, i: Id)
    requires i in s.imports
  {
    s.imports[i].status == Succeeded || Carried(s, i) || !Sent(s, i)
  }

  ghost predicate AllSafe(s: State) {
    (forall i :: i in s.imports ==> Safe(s, i)) == true
  }

  /** The step that breaks it: a row leaves SUCCEEDED or stays outside it by the hand of a worker whose delivery
      is gone, when nothing else carries the import. The guard could be checked before the update. */
  ghost predicate StaleWrite(s: State, step: Step) {
    && step.ByWorker? && Busy(s, step.v) && OnRow(s, JobOf(s, step.v).copy)
    && ((step.worker.Start? && step.worker.applied && JobOf(s, step.v).phase.Received?)
        || (step.worker.Complete? && step.worker.applied && JobOf(s, step.v).phase.Refused?))
    && Sent(s, RowOf(s, JobOf(s, step.v).copy))
    && !Carried(s, RowOf(s, JobOf(s, step.v).copy))
  }

  lemma SafeIsNotLost(s: State, i: Id)
    requires Inv(s) && i in s.imports && Safe(s, i)
    ensures !Lost(s, i)
  {
  }

  // ---------------------------------------------------------------- which steps keep copies alive

  /** Everything that is around stays around. */
  ghost predicate StillCarried(s: State, t: State) {
    forall i :: Carried(s, i) ==> Carried(t, i)
  }

  lemma LiveCarries(s: State, t: State)
    requires forall c :: c in s.broker.copies ==> c in t.broker.copies && t.broker.copies[c] == s.broker.copies[c]
    requires forall c :: c in s.broker.copies && Live(s, c) ==> Live(t, c)
    ensures StillCarried(s, t)
  {
    forall i | Carried(s, i)
      ensures Carried(t, i)
    {
      var c :| About(s, c, i) && Live(s, c);
      assert About(t, c, i) && Live(t, c);
    }
  }

  lemma SettleLive(s: State, w: Id, applied: bool, ack: bool, c: Id)
    requires Places(s.broker) && HoldsOk(s) && Busy(s, w) && (applied ==> WorkerOf(s, w).attached)
    requires ack <==> JobOf(s, w).phase.Completed?
    requires Live(s, c)
    ensures Live(DoSettle(s, w, JobOf(s, w).copy, applied, ack), c)
  {
    assert HoldOk(s, w, s.workers[w]);
  }

  lemma TakeLive(s: State, w: Id, copy: Id, c: Id)
    requires Places(s.broker) && ChannelEnabled(s, w, Take(copy)) && Live(s, c)
    ensures Live(DoTake(s, w, copy), c)
  {
  }

  lemma DeliverLive(s: State, w: Id, copy: Id, c: Id)
    requires Places(s.broker) && HoldsOk(s) && ChannelEnabled(s, w, Deliver(copy)) && Live(s, c)
    ensures Live(DoDeliver(s, w, copy), c)
  {
    assert w in s.workers ==> HoldOk(s, w, s.workers[w]);
  }

  lemma RequeueLive(s: State, w: Id, worker: Worker, t: State, c: Id)
    requires t == s.(broker := Requeue(s.broker, w), workers := s.workers[w := worker]) && Live(s, c)
    ensures Live(t, c)
  {
  }

  lemma ChannelLive(s: State, w: Id, step: ChannelStep, t: State, c: Id)
    requires Places(s.broker) && HoldsOk(s) && ChannelEnabled(s, w, step) && t == ChannelApply(s, w, step) && Live(s, c)
    ensures Live(t, c)
  {
    match step
    case Deliver(copy) => DeliverLive(s, w, copy, c);
    case Take(copy) => TakeLive(s, w, copy, c);
    case Ack(applied) => SettleLive(s, w, applied, true, c);
    case Nack(applied) => SettleLive(s, w, applied, false, c);
    case Detach => RequeueLive(s, w, WorkerOf(s, w).(attached := false), t, c);
    case Stop => RequeueLive(s, w, Worker(None, true), t, c);
  }

  /** A worker's own work can only make the copy it holds a finishing one. */
  lemma WorkerLive(s: State, w: Id, t: State, c: Id)
    requires WorkerFrame(s, w, t) && (JobOf(t, w).phase.Completed? ==> c != JobOf(s, w).copy) && Live(s, c)
    ensures Live(t, c)
  {
    if c in s.broker.unacked && s.broker.unacked[c].worker != w {
      assert WorkerOf(t, s.broker.unacked[c].worker) == WorkerOf(s, s.broker.unacked[c].worker);
    }
  }

  /** The import of a message an attached worker is working on is carried by that message. */
  lemma OwnCarried(s: State, w: Id)
    requires HoldsOk(s) && Busy(s, w) && WorkerOf(s, w).attached && !JobOf(s, w).phase.Completed?
    requires BodyOf(s.broker, JobOf(s, w).copy).Decoded?
    ensures Carried(s, RowOf(s, JobOf(s, w).copy))
  {
    var c := JobOf(s, w).copy;
    assert HoldOk(s, w, s.workers[w]);
    assert About(s, c, RowOf(s, c)) && Live(s, c);
  }

  /** A detached worker's own phase makes no copy any more or any less alive. */
  lemma DetachedLive(s: State, w: Id, t: State, c: Id)
    requires Channels(s) && WorkerFrame(s, w, t) && !WorkerOf(s, w).attached
    ensures Live(t, c) <==> Live(s, c)
  {
    if c in s.broker.unacked {
      assert WorkerOf(t, s.broker.unacked[c].worker) == WorkerOf(s, s.broker.unacked[c].worker);
    }
  }

  /** The step of a detached worker carries nothing new. */
  lemma DetachedCarries(s: State, w: Id, t: State, i: Id)
    requires Channels(s) && WorkerFrame(s, w, t) && !WorkerOf(s, w).attached && Carried(t, i)
    ensures Carried(s, i)
  {
    var c :| About(t, c, i) && Live(t, c);
    DetachedLive(s, w, t, c);
    assert About(s, c, i) && Live(s, c);
  }

  /** Only a detached worker can write a row nothing carries. */
  lemma StaleIsDetached(s: State, step: Step)
    requires HoldsOk(s) && StaleWrite(s, step)
    ensures !WorkerOf(s, step.v).attached
  {
    if WorkerOf(s, step.v).attached {
      OwnCarried(s, step.v);
    }
  }

  // ---------------------------------------------------------------- one step

  /** Rows that keep their status stay safe as long as nothing around disappears. */
  lemma SafeStays(s: State, t: State, i: Id)
    requires i in s.imports && i in t.imports && Safe(s, i)
    requires StillCarried(s, t) && (Sent(t, i) ==> Sent(s, i) || Carried(t, i))
    requires t.imports[i].status == s.imports[i].status || t.imports[i].status == Succeeded
    ensures Safe(t, i)
  {
  }

  lemma GrownSafe(s: State, t: State, i: Id)
    requires OneEventEach(s) && OneEventEach(t) && Origins(s) && Grown(s, t) && AllSafe(s) && StillCarried(s, t)
    requires i in t.imports
    ensures Safe(t, i)
  {
    if i in s.imports {
      KnownEvent(s, t, i);
      SafeStays(s, t, i);
    } else {
      NewEventUnsent(s, t, i);
    }
  }

  lemma GrownCarried(s: State, t: State)
    requires Grown(s, t)
    ensures StillCarried(s, t)
  {
    forall c | c in s.broker.copies && Live(s, c)
      ensures Live(t, c)
    {
    }
    LiveCarries(s, t);
  }

  lemma CreatorSafe(s: State, c: Id, step: CreatorStep, t: State)
    requires TablesOk(s) && Origins(s) && AllSafe(s) && CreatorEnabled(s, c, step) && t == CreatorApply(s, c, step)
    requires OneEventEach(t)
    ensures AllSafe(t)
  {
    assert Grown(s, t) by { CreatorGrows(s, c, step); }
    GrownCarried(s, t);
    forall i | i in t.imports
      ensures Safe(t, i)
    {
      GrownSafe(s, t, i);
    }
  }

  lemma KnownEvent(s: State, t: State, i: Id)
    requires OneEventEach(s) && OneEventEach(t) && Grown(s, t) && i in s.imports
    ensures t.creations.eventOf[i] == s.creations.eventOf[i]
  {
    assert s.outbox[s.creations.eventOf[i]].body == t.outbox[s.creations.eventOf[i]].body;
  }

  lemma NewEventNew(s: State, t: State, i: Id)
    requires OneEventEach(s) && OneEventEach(t) && Grown(s, t) && i in t.imports && i !in s.imports
    ensures t.creations.eventOf[i] !in s.outbox
  {
    assert forall e :: e in s.outbox ==> t.outbox[e].body == s.outbox[e].body;
  }

  lemma NewEventUnsent(s: State, t: State, i: Id)
    requires OneEventEach(s) && OneEventEach(t) && Origins(s) && Grown(s, t) && i in t.imports && i !in s.imports
    ensures !Sent(t, i)
  {
    NewEventNew(s, t, i);
  }

  /** Every copy there was is as it was, and what is new is ready and carries the text of its event, if it has one. */
  ghost predicate NewCopiesReady(s: State, t: State) {
    (
      && (forall c :: c in s.broker.copies ==> c in t.broker.copies && t.broker.copies[c] == s.broker.copies[c])
      && s.broker.ready <= t.broker.ready
      && (forall c :: c in t.broker.copies && c !in s.broker.copies ==>
            c in t.broker.ready
            && (t.broker.copies[c].origin.Some? ==>
                  (t.broker.copies[c].origin.value in s.outbox
                   && t.broker.copies[c].body == s.outbox[t.broker.copies[c].origin.value].body)))
    ) == true
  }

  lemma PublisherCopies(s: State, p: Id, step: PublisherStep)
    requires FreshIds(s) && PublisherEnabled(s, p, step)
    ensures NewCopiesReady(s, PublisherApply(s, p, step))
  {
  }

  lemma NewlySent(s: State, t: State, i: Id)
    requires OneEventEach(s) && NewCopiesReady(s, t) && t.creations == s.creations && i in s.imports
    requires Sent(t, i) && !Sent(s, i)
    ensures Carried(t, i)
  {
    var c :| c in t.broker.copies && t.broker.copies[c].origin == Some(s.creations.eventOf[i]);
    assert About(t, c, i) && Live(t, c);
  }

  lemma NewCopiesSafe(s: State, t: State)
    requires OneEventEach(s) && AllSafe(s) && NewCopiesReady(s, t)
    requires t.imports == s.imports && t.creations == s.creations && t.workers == s.workers
    requires t.broker == s.broker.(copies := t.broker.copies, ready := t.broker.ready)
    ensures AllSafe(t)
  {
    LiveCarries(s, t);
    forall i | i in t.imports
      ensures Safe(t, i)
    {
      if Sent(t, i) && !Sent(s, i) {
        NewlySent(s, t, i);
      }
      SafeStays(s, t, i);
    }
  }

  lemma PublisherSafe(s: State, p: Id, step: PublisherStep, t: State)
    requires OneEventEach(s) && FreshIds(s) && AllSafe(s) && PublisherEnabled(s, p, step)
    requires t == PublisherApply(s, p, step)
    ensures AllSafe(t)
  {
    PublisherFramed(s, p, step);
    PublisherCopies(s, p, step);
    NewCopiesSafe(s, t);
  }

  lemma ChannelSafe(s: State, w: Id, step: ChannelStep, t: State)
    requires FlowOk(s) && AllSafe(s) && ChannelEnabled(s, w, step) && t == ChannelApply(s, w, step)
    ensures AllSafe(t)
  {
    ChannelFramed(s, w, step);
    assert StillCarried(s, t) by {
      forall c | c in s.broker.copies && Live(s, c)
        ensures Live(t, c)
      {
        ChannelLive(s, w, step, t, c);
      }
      LiveCarries(s, t);
    }
    forall i | i in t.imports
      ensures Safe(t, i)
    {
      SafeStays(s, t, i);
    }
  }

  /** Worker steps that do not make the copy a finishing one lose nothing. */
  lemma WorkerCarried(s: State, w: Id, t: State)
    requires WorkerFrame(s, w, t) && !JobOf(t, w).phase.Completed?
    ensures StillCarried(s, t)
  {
    forall c | c in s.broker.copies && Live(s, c)
      ensures Live(t, c)
    {
      WorkerLive(s, w, t, c);
    }
    LiveCarries(s, t);
  }

  /** A finishing copy takes away only what carried its own, now SUCCEEDED, import. */
  lemma FinishCarried(s: State, w: Id, t: State, i: Id)
    requires WorkerFrame(s, w, t) && Carried(s, i)
    requires BodyOf(s.broker, JobOf(s, w).copy).Decoded? ==> RowOf(s, JobOf(s, w).copy) != i
    ensures Carried(t, i)
  {
    var c :| About(s, c, i) && Live(s, c);
    WorkerLive(s, w, t, c);
    assert About(t, c, i) && Live(t, c);
  }

  /** What a worker step may do to the status of the row it is on, and when the copy becomes a finishing one. */
  ghost predicate StatusChange(s: State, w: Id, t: State, i: Id, mayLeave: bool) {
    (
      && WorkerFrame(s, w, t)
      && (forall k :: k in s.imports && k != i ==> t.imports[k].status == s.imports[k].status)
      && (i in s.imports ==> t.imports[i].status == s.imports[i].status || t.imports[i].status == Succeeded || mayLeave)
      && (JobOf(t, w).phase.Completed? ==> i in s.imports && t.imports[i].status == Succeeded)
    ) == true
  }

  lemma UpdateStatus(s: State, w: Id, i: Id, row: Import, work: Work, phase: Phase, mayLeave: bool, t: State)
    requires Busy(s, w) && i in s.imports && t == RowUpdate(s, w, i, row, work, phase) && WorkerFrame(s, w, t)
    requires row.status == s.imports[i].status || row.status == Succeeded || mayLeave
    requires phase.Completed? ==> row.status == Succeeded
    ensures StatusChange(s, w, t, i, mayLeave)
  {
  }

  lemma PhaseStatus(s: State, w: Id, i: Id, phase: Phase, t: State)
    requires Busy(s, w) && t == InPhase(s, w, phase) && WorkerFrame(s, w, t) && !phase.Completed?
    ensures StatusChange(s, w, t, i, false)
  {
  }

  predicate MayLeave(s: State, w: Id, step: WorkerStep)
    requires Busy(s, w)
  {
    (step.Start? && step.applied && JobOf(s, w).phase.Received?)
    || (step.Complete? && step.applied && JobOf(s, w).phase.Refused?)
  }

  lemma StartStatus(s: State, w: Id, applied: bool, reported: bool, t: State)
    requires s.work.attempts.Keys == s.imports.Keys && WorkerEnabled(s, w, Start(applied, reported))
    requires t == DoStart(s, w, JobOf(s, w), applied, reported) && OnRow(s, JobOf(s, w).copy)
    ensures StatusChange(s, w, t, RowOf(s, JobOf(s, w).copy), applied)
  {
    StartFrame(s, w, applied, reported);
    var i := RowOf(s, JobOf(s, w).copy);
    if applied {
      UpdateStatus(s, w, i, StartedRow(s.imports[i]), t.work, JobOf(t, w).phase, true, t);
    } else {
      PhaseStatus(s, w, i, Doomed, t);
    }
  }

  lemma CompleteStatus(s: State, w: Id, applied: bool, reported: bool, t: State)
    requires s.work.attempts.Keys == s.imports.Keys && WorkerEnabled(s, w, Complete(applied, reported))
    requires t == DoComplete(s, w, JobOf(s, w), applied, reported) && OnRow(s, JobOf(s, w).copy)
    ensures StatusChange(s, w, t, RowOf(s, JobOf(s, w).copy), applied && JobOf(s, w).phase.Refused?)
  {
    CompleteFrame(s, w, applied, reported);
    var j := JobOf(s, w);
    var i := RowOf(s, j.copy);
    if applied {
      UpdateStatus(s, w, i, FinalRow(s, i, j.phase), FinalWork(s, i, j),
                   if j.phase.Passed? && reported then Completed else Doomed, j.phase.Refused?, t);
    } else {
      PhaseStatus(s, w, i, Doomed, t);
    }
  }

  lemma WorkerStatus(s: State, w: Id, step: WorkerStep, t: State)
    requires s.work.attempts.Keys == s.imports.Keys && WorkerEnabled(s, w, step) && t == WorkerApply(s, w, step)
    requires OnRow(s, JobOf(s, w).copy)
    ensures StatusChange(s, w, t, RowOf(s, JobOf(s, w).copy), MayLeave(s, w, step))
  {
    WorkerFramed(s, w, step);
    var i := RowOf(s, JobOf(s, w).copy);
    match step
    case BadBody => PhaseStatus(s, w, i, Doomed, t);
    case Start(applied, reported) => StartStatus(s, w, applied, reported, t);
    case Call(ok) => UpdateStatus(s, w, i, s.imports[i], t.work, JobOf(t, w).phase, false, t);
    case GiveUp(error) => PhaseStatus(s, w, i, Refused(JobOf(s, w).phase.attempt, error), t);
    case Complete(applied, reported) => CompleteStatus(s, w, applied, reported, t);
  }

  /** Off any row, a worker step changes no row and finishes nothing. */
  lemma OffRowStatus(s: State, w: Id, step: WorkerStep, t: State)
    requires JobsOk(s) && s.work.attempts.Keys == s.imports.Keys && WorkerEnabled(s, w, step)
    requires t == WorkerApply(s, w, step)
    requires !OnRow(s, JobOf(s, w).copy)
    ensures WorkerFrame(s, w, t) && t.imports == s.imports && JobOf(t, w).phase == Doomed
  {
    WorkerFramed(s, w, step);
    assert JobOk(s, s.workers[w].job.value);
  }

  lemma SameRowsSafe(s: State, w: Id, t: State, i: Id)
    requires AllSafe(s) && WorkerFrame(s, w, t) && i in s.imports && t.imports[i].status == s.imports[i].status
    requires JobOf(t, w).phase.Completed? && BodyOf(s.broker, JobOf(s, w).copy).Decoded? ==>
        RowOf(s, JobOf(s, w).copy) != i
    ensures Safe(t, i)
  {
    if Carried(s, i) {
      if JobOf(t, w).phase.Completed? {
        FinishCarried(s, w, t, i);
      } else {
        WorkerCarried(s, w, t);
      }
    }
  }

  lemma OnRowSafe(s: State, w: Id, step: WorkerStep, t: State)
    requires HoldsOk(s) && JobsOk(s) && s.work.attempts.Keys == s.imports.Keys && AllSafe(s)
    requires WorkerEnabled(s, w, step) && t == WorkerApply(s, w, step)
    requires OnRow(s, JobOf(s, w).copy) && !StaleWrite(s, ByWorker(w, step))
    ensures AllSafe(t)
  {
    var i := RowOf(s, JobOf(s, w).copy);
    WorkerStatus(s, w, step, t);
    forall k | k in t.imports
      ensures Safe(t, k)
    {
      if k != i || (t.imports[k].status == s.imports[k].status && !JobOf(t, w).phase.Completed?) {
        SameRowsSafe(s, w, t, k);
      } else if t.imports[i].status != Succeeded {
        if WorkerOf(s, w).attached {
          OwnCarried(s, w);
        }
        WorkerCarried(s, w, t);
      }
    }
  }

  lemma WorkerSafe(s: State, w: Id, step: WorkerStep, t: State)
    requires HoldsOk(s) && JobsOk(s) && s.work.attempts.Keys == s.imports.Keys && AllSafe(s)
    requires WorkerEnabled(s, w, step) && t == WorkerApply(s, w, step) && !StaleWrite(s, ByWorker(w, step))
    ensures AllSafe(t)
  {
    if OnRow(s, JobOf(s, w).copy) {
      OnRowSafe(s, w, step, t);
    } else {
      OffRowStatus(s, w, step, t);
      forall i | i in t.imports
        ensures Safe(t, i)
      {
        SameRowsSafe(s, w, t, i);
      }
    }
  }

  lemma LeftStatus(s: State, w: Id, step: WorkerStep, t: State)
    requires WorkerEnabled(s, w, step) && t == WorkerApply(s, w, step)
    requires OnRow(s, JobOf(s, w).copy) && MayLeave(s, w, step)
    ensures RowOf(s, JobOf(s, w).copy) in t.imports && t.imports[RowOf(s, JobOf(s, w).copy)].status != Succeeded
  {
  }

  /** The stale write itself leaves its row outside SUCCEEDED with nothing to carry it. */
  lemma StaleBreaks(s: State, w: Id, step: WorkerStep, t: State)
    requires HoldsOk(s) && Channels(s) && JobsOk(s) && s.work.attempts.Keys == s.imports.Keys
    requires WorkerEnabled(s, w, step) && t == WorkerApply(s, w, step) && StaleWrite(s, ByWorker(w, step))
    ensures !AllSafe(t)
  {
    var i := RowOf(s, JobOf(s, w).copy);
    StaleIsDetached(s, ByWorker(w, step));
    WorkerFramed(s, w, step);
    LeftStatus(s, w, step, t);
    if Carried(t, i) {
      DetachedCarries(s, w, t, i);
    }
    assert !Safe(t, i);
  }

  lemma WorkerSafeIff(s: State, w: Id, step: WorkerStep, t: State)
    requires HoldsOk(s) && Channels(s) && JobsOk(s) && s.work.attempts.Keys == s.imports.Keys && AllSafe(s)
    requires WorkerEnabled(s, w, step) && t == WorkerApply(s, w, step)
    ensures AllSafe(t) <==> !StaleWrite(s, ByWorker(w, step))
  {
    if StaleWrite(s, ByWorker(w, step)) {
      StaleBreaks(s, w, step, t);
    } else {
      WorkerSafe(s, w, step, t);
    }
  }

  lemma QuietSafe(s: State, step: Step, t: State)
    requires OneEventEach(s) && FreshIds(s) && AllSafe(s) && (step.Tick? || step.Inject?) && Goes(s, step, t)
    ensures AllSafe(t)
  {
    NewCopiesSafe(s, t);
  }

  lemma CreatorStepSafe(s: State, c: Id, step: CreatorStep, t: State)
    requires Inv(s) && AllSafe(s) && CreatorEnabled(s, c, step) && t == CreatorApply(s, c, step)
    ensures AllSafe(t)
  {
    CreatorKeepsTables(s, c, step, t);
    CreatorSafe(s, c, step, t);
  }

  // ---------------------------------------------------------------- all steps, all runs

  /** One step keeps every import safe exactly if it is not a stale write. */
  lemma StepSafeIff(s: State, step: Step, t: State)
    requires Inv(s) && AllSafe(s) && Goes(s, step, t)
    ensures AllSafe(t) <==> !StaleWrite(s, step)
  {
    match step
    case ByCreator(c, cs) => CreatorStepSafe(s, c, cs, t);
    case ByPublisher(p, ps) => PublisherSafe(s, p, ps, t);
    case ByChannel(w, ks) => ChannelSafe(s, w, ks, t);
    case ByWorker(w, ws) => WorkerSafeIff(s, w, ws, t);
    case Tick(_) => QuietSafe(s, step, t);
    case Inject(_) => QuietSafe(s, step, t);
  }

  ghost predicate SafeUntil(states: seq<State>, k: nat)
    requires k < |states|
  {
    forall n :: 0 <= n <= k ==> AllSafe(states[n])
  }

  ghost predicate NoStaleWrite(states: seq<State>, steps: seq<Step>, k: nat)
    requires k <= |steps| < |states|
  {
    forall n :: 0 <= n < k ==> !StaleWrite(states[n], steps[n])
  }

  lemma StepAtSafeIff(states: seq<State>, steps: seq<Step>, n: nat)
    requires Trace(states, steps) && n < |steps|
    ensures AllSafe(states[n]) ==> (AllSafe(states[n + 1]) <==> !StaleWrite(states[n], steps[n]))
  {
    StepAt(states, steps, n);
    if AllSafe(states[n]) {
      StepSafeIff(states[n], steps[n], states[n + 1]);
    }
  }

  lemma NothingYet(states: seq<State>, steps: seq<Step>)
    requires |steps| < |states| && states[0] == Empty()
    ensures SafeUntil(states, 0) && NoStaleWrite(states, steps, 0)
  {
  }

  lemma OneStepMore(states: seq<State>, steps: seq<Step>, n: nat)
    requires n < |steps| < |states| && (SafeUntil(states, n) <==> NoStaleWrite(states, steps, n))
    requires AllSafe(states[n]) ==> (AllSafe(states[n + 1]) <==> !StaleWrite(states[n], steps[n]))
    ensures SafeUntil(states, n + 1) <==> NoStaleWrite(states, steps, n + 1)
  {
    assert SafeUntil(states, n + 1) <==> SafeUntil(states, n) && AllSafe(states[n + 1]);
  }

  lemma SafeOneMore(states: seq<State>, steps: seq<Step>, n: nat)
    requires Trace(states, steps) && n < |steps| && (SafeUntil(states, n) <==> NoStaleWrite(states, steps, n))
    ensures SafeUntil(states, n + 1) <==> NoStaleWrite(states, steps, n + 1)
  {
    StepAtSafeIff(states, steps, n);
    OneStepMore(states, steps, n);
  }

  /** Every import is safe in every state of a run exactly if the run contains no stale write. */
  lemma {:induction false} SafeThroughoutIff(states: seq<State>, steps: seq<Step>, k: nat)
    requires Trace(states, steps) && k < |states|
    ensures SafeUntil(states, k) <==> NoStaleWrite(states, steps, k)
  {
    if k == 0 {
      NothingYet(states, steps);
    } else {
      SafeThroughoutIff(states, steps, k - 1);
      SafeOneMore(states, steps, k - 1);
    }
  }

  /** A run without stale writes loses nothing. */
  lemma SafeRunLosesNothing(states: seq<State>, steps: seq<Step>, k: nat, i: Id)
    requires Trace(states, steps) && k < |states| && i in states[k].imports
    requires NoStaleWrite(states, steps, k)
    ensures !Lost(states[k], i)
  {
    InvThroughout(states, steps, k);
    SafeThroughoutIff(states, steps, k);
    SafeIsNotLost(states[k], i);
  }

  // ---------------------------------------------------------------- fail-stop workers

  /** No worker goes on with a message after its connection is gone. */
  ghost predicate FailStop(states: seq<State>, steps: seq<Step>)
    requires |states| == |steps| + 1
  {
    forall n :: 0 <= n < |steps| && steps[n].ByChannel? && steps[n].channel.Detach? ==> !Busy(states[n], steps[n].w)
  }

  ghost predicate BusyAttached(s: State) {
    forall w :: w in s.workers && s.workers[w].job.Some? ==> s.workers[w].attached
  }

  lemma ChannelBusyAttached(s: State, w: Id, step: ChannelStep, t: State)
    requires BusyAttached(s) && ChannelEnabled(s, w, step) && t == ChannelApply(s, w, step)
    requires step.Detach? ==> !Busy(s, w)
    ensures BusyAttached(t)
  {
  }

  lemma WorkerBusyAttached(s: State, w: Id, t: State)
    requires BusyAttached(s) && WorkerFrame(s, w, t)
    ensures BusyAttached(t)
  {
    forall v | v in t.workers && t.workers[v].job.Some?
      ensures t.workers[v].attached
    {
      assert WorkerOf(t, v) == t.workers[v];
      assert v != w ==> WorkerOf(s, v) == t.workers[v];
    }
  }

  lemma StepBusyAttached(s: State, step: Step, t: State)
    requires BusyAttached(s) && Goes(s, step, t) && s.work.attempts.Keys == s.imports.Keys
    requires step.ByChannel? && step.channel.Detach? ==> !Busy(s, step.w)
    ensures BusyAttached(t)
  {
    match step
    case ByCreator(c, cs) => CreatorFramed(s, c, cs);
    case ByPublisher(p, ps) => PublisherFramed(s, p, ps);
    case ByChannel(w, ks) => ChannelBusyAttached(s, w, ks, t);
    case ByWorker(w, ws) =>
      WorkerFramed(s, w, ws);
      WorkerBusyAttached(s, w, t);
    case Tick(_) =>
    case Inject(_) =>
  }

  lemma StepAtAttached(states: seq<State>, steps: seq<Step>, n: nat)
    requires Trace(states, steps) && FailStop(states, steps) && n < |steps| && BusyAttached(states[n])
    ensures BusyAttached(states[n + 1])
  {
    StepAt(states, steps, n);
    StepBusyAttached(states[n], steps[n], states[n + 1]);
  }

  lemma {:induction false} FailStopAttached(states: seq<State>, steps: seq<Step>, k: nat)
    requires Trace(states, steps) && FailStop(states, steps) && k < |states|
    ensures BusyAttached(states[k])
  {
    if k == 0 {
      assert states[0].workers == map[];
    } else {
      FailStopAttached(states, steps, k - 1);
      StepAtAttached(states, steps, k - 1);
    }
  }

  /** With fail-stop workers no run contains a stale write, so no import is ever lost. */
  lemma FailStopLosesNothing(states: seq<State>, steps: seq<Step>, k: nat, i: Id)
    requires Trace(states, steps) && FailStop(states, steps) && k < |states| && i in states[k].imports
    ensures !Lost(states[k], i)
  {
    forall n | 0 <= n < k
      ensures !StaleWrite(states[n], steps[n])
    {
      FailStopAttached(states, steps, n);
      InvThroughout(states, steps, n);
      if StaleWrite(states[n], steps[n]) {
        StaleIsDetached(states[n], steps[n]);
      }
    }
    SafeRunLosesNothing(states, steps, k, i);
  }
}
