/** No import is lost: exactly which steps lose one, and what that means once everything has come to rest. */
module Loss {
  import opened Text
  import opened Pipeline
  import opened Tables
  import opened Flow
  import opened FlowKept
  import opened Safety

  ghost predicate NoneLost(s: State) {
    (forall i :: i in s.imports ==> !Lost(s, i)) == true
  }

  /** No event of the import is left to publish, and no copy of its message is around. */
  ghost predicate Unattended(s: State, i: Id) { !AwaitsPublication(s, i) && !Carried(s, i) }

  /** An applied start, or an applied DEAD_LETTER update, of a row nothing will bring back. */
  ghost predicate WritesUnattended(s: State, step: Step) {
    && step.ByWorker? && Busy(s, step.v) && OnRow(s, JobOf(s, step.v).copy) && MayLeave(s, step.v, step.worker)
    && Unattended(s, RowOf(s, JobOf(s, step.v).copy))
  }

  /** An applied mark of an event whose import is not SUCCEEDED and whose message is already gone. */
  ghost predicate MarksUnattended(s: State, step: Step) {
    && step.ByPublisher? && step.publisher.Mark? && step.publisher.applied && AtEvent(s, PublisherOf(s, step.p))
    && var e := PublisherOf(s, step.p).batch[0];
       s.outbox[e].body.Decoded? && s.outbox[e].body.payload.importId in s.imports
       && s.imports[s.outbox[e].body.payload.importId].status != Succeeded
       && !Carried(s, s.outbox[e].body.payload.importId)
  }

  /** The steps that lose an import. Each is a guard that could be checked before the update. */
  ghost predicate Loses(s: State, step: Step) { WritesUnattended(s, step) || MarksUnattended(s, step) }

  // ---------------------------------------------------------------- worker steps

  /** A row that keeps its status, or becomes SUCCEEDED, is lost only if its own copy was the one that finished. */
  lemma KeptRow(s: State, w: Id, t: State, i: Id)
    requires NoneLost(s) && WorkerFrame(s, w, t) && i in s.imports && t.imports[i].status == s.imports[i].status
    requires JobOf(t, w).phase.Completed? && BodyOf(s.broker, JobOf(s, w).copy).Decoded? ==>
        RowOf(s, JobOf(s, w).copy) != i
    ensures !Lost(t, i)
  {
    if Carried(s, i) {
      if JobOf(t, w).phase.Completed? {
        FinishCarried(s, w, t, i);
      } else {
        WorkerCarried(s, w, t);
      }
    }
  }

  lemma OnRowLoss(s: State, w: Id, step: WorkerStep, t: State)
    requires s.work.attempts.Keys == s.imports.Keys && NoneLost(s)
    requires WorkerEnabled(s, w, step) && t == WorkerApply(s, w, step)
    requires OnRow(s, JobOf(s, w).copy) && !WritesUnattended(s, ByWorker(w, step))
    ensures NoneLost(t)
  {
    var i := RowOf(s, JobOf(s, w).copy);
    WorkerStatus(s, w, step, t);
    forall k | k in t.imports
      ensures !Lost(t, k)
    {
      if k != i || (t.imports[k].status == s.imports[k].status && !JobOf(t, w).phase.Completed?) {
        KeptRow(s, w, t, k);
      } else if t.imports[i].status != Succeeded {
        WorkerCarried(s, w, t);
      }
    }
  }

  lemma OffRowLoss(s: State, w: Id, step: WorkerStep, t: State)
    requires JobsOk(s) && s.work.attempts.Keys == s.imports.Keys && NoneLost(s)
    requires WorkerEnabled(s, w, step) && t == WorkerApply(s, w, step) && !OnRow(s, JobOf(s, w).copy)
    ensures NoneLost(t)
  {
    OffRowStatus(s, w, step, t);
    forall i | i in t.imports
      ensures !Lost(t, i)
    {
      KeptRow(s, w, t, i);
    }
  }

  /** Only a worker that has lost its connection can write a row nothing will bring back. */
  lemma WriterIsDetached(s: State, step: Step)
    requires HoldsOk(s) && WritesUnattended(s, step)
    ensures !WorkerOf(s, step.v).attached
  {
    if WorkerOf(s, step.v).attached {
      OwnCarried(s, step.v);
    }
  }

  lemma WriteLoses(s: State, w: Id, step: WorkerStep, t: State)
    requires HoldsOk(s) && Channels(s) && s.work.attempts.Keys == s.imports.Keys
    requires WorkerEnabled(s, w, step) && t == WorkerApply(s, w, step) && WritesUnattended(s, ByWorker(w, step))
    ensures !NoneLost(t)
  {
    var i := RowOf(s, JobOf(s, w).copy);
    WriterIsDetached(s, ByWorker(w, step));
    WorkerFramed(s, w, step);
    LeftStatus(s, w, step, t);
    if Carried(t, i) {
      DetachedCarries(s, w, t, i);
    }
    assert Lost(t, i);
  }

  lemma WorkerLossIff(s: State, w: Id, step: WorkerStep, t: State)
    requires HoldsOk(s) && Channels(s) && JobsOk(s) && s.work.attempts.Keys == s.imports.Keys && NoneLost(s)
    requires WorkerEnabled(s, w, step) && t == WorkerApply(s, w, step)
    ensures NoneLost(t) <==> !Loses(s, ByWorker(w, step))
  {
    if WritesUnattended(s, ByWorker(w, step)) {
      WriteLoses(s, w, step, t);
    } else if OnRow(s, JobOf(s, w).copy) {
      OnRowLoss(s, w, step, t);
    } else {
      OffRowLoss(s, w, step, t);
    }
  }

  // ---------------------------------------------------------------- publisher steps

  /** Where rows and events' publication stay as they are and nothing around disappears, nothing is lost. */
  lemma StillNoneLost(s: State, t: State)
    requires NoneLost(s) && t.imports == s.imports && t.creations == s.creations && StillCarried(s, t)
    requires forall e :: e in s.outbox && s.outbox[e].publishedAt == None ==>
        e in t.outbox && t.outbox[e].publishedAt == None
    ensures NoneLost(t)
  {
    forall i | i in t.imports
      ensures !Lost(t, i)
    {
      assert !Lost(s, i);
    }
  }

  lemma PublisherCarries(s: State, p: Id, step: PublisherStep, t: State)
    requires FreshIds(s) && PublisherEnabled(s, p, step) && t == PublisherApply(s, p, step)
    ensures StillCarried(s, t) && t.imports == s.imports && t.creations == s.creations
  {
    PublisherFramed(s, p, step);
    PublisherCopies(s, p, step);
    LiveCarries(s, t);
  }

  lemma NoMarkPublications(s: State, p: Id, step: PublisherStep, t: State)
    requires PublisherEnabled(s, p, step) && t == PublisherApply(s, p, step) && !(step.Mark? && step.applied)
    ensures forall e :: e in s.outbox && s.outbox[e].publishedAt == None ==>
        e in t.outbox && t.outbox[e].publishedAt == None
  {
  }

  lemma MarkEffect(s: State, p: Id, reported: bool, t: State)
    requires AtEvent(s, PublisherOf(s, p)) && t == DoMark(s, p, PublisherOf(s, p), true, reported)
    ensures t.imports == s.imports && t.creations == s.creations && t.broker == s.broker && t.workers == s.workers
    ensures var e := PublisherOf(s, p).batch[0];
            t.outbox.Keys == s.outbox.Keys && t.outbox[e].publishedAt.Some?
            && forall f :: f in s.outbox && f != e ==> t.outbox[f] == s.outbox[f]
  {
  }

  lemma SameCarried(s: State, t: State, i: Id)
    requires t.broker == s.broker && t.workers == s.workers
    ensures Carried(t, i) <==> Carried(s, i)
  {
    assert forall c :: (About(t, c, i) <==> About(s, c, i)) && (Live(t, c) <==> Live(s, c));
  }

  lemma MarkLossIff(s: State, p: Id, reported: bool, t: State)
    requires OneEventEach(s) && NoneLost(s) && AtEvent(s, PublisherOf(s, p)) && PublisherOf(s, p).head.Confirmed?
    requires t == DoMark(s, p, PublisherOf(s, p), true, reported)
    ensures NoneLost(t) <==> !MarksUnattended(s, ByPublisher(p, Mark(true, reported)))
  {
    var e := PublisherOf(s, p).batch[0];
    var i := s.outbox[e].body.payload.importId;
    MarkEffect(s, p, reported, t);
    forall k | k in t.imports
      ensures (Carried(t, k) <==> Carried(s, k)) && (k != i ==> !Lost(t, k))
    {
      SameCarried(s, t, k);
      assert !Lost(s, k);
    }
    assert !AwaitsPublication(t, i);
  }

  lemma PublisherLossIff(s: State, p: Id, step: PublisherStep, t: State)
    requires FreshIds(s) && OneEventEach(s) && NoneLost(s) && PublisherEnabled(s, p, step)
    requires t == PublisherApply(s, p, step)
    ensures NoneLost(t) <==> !Loses(s, ByPublisher(p, step))
  {
    if step.Mark? && step.applied {
      MarkLossIff(s, p, step.reported, t);
    } else {
      PublisherCarries(s, p, step, t);
      NoMarkPublications(s, p, step, t);
      StillNoneLost(s, t);
    }
  }

  // ---------------------------------------------------------------- the other steps

  lemma GrownLoss(s: State, t: State)
    requires OneEventEach(s) && OneEventEach(t) && Grown(s, t) && NoneLost(s)
    ensures NoneLost(t)
  {
    GrownCarried(s, t);
    forall i | i in t.imports
      ensures !Lost(t, i)
    {
      if i in s.imports {
        assert !Lost(s, i);
        KnownEvent(s, t, i);
      } else {
        NewEventNew(s, t, i);
      }
    }
  }

  lemma CreatorLoss(s: State, c: Id, step: CreatorStep, t: State)
    requires TablesOk(s) && NoneLost(s) && CreatorEnabled(s, c, step) && t == CreatorApply(s, c, step)
    ensures NoneLost(t)
  {
    assert OneEventEach(t) by { CreatorKeepsTables(s, c, step, t); }
    assert Grown(s, t) by { CreatorGrows(s, c, step); }
    GrownLoss(s, t);
  }

  lemma ChannelLoss(s: State, w: Id, step: ChannelStep, t: State)
    requires Places(s.broker) && HoldsOk(s) && NoneLost(s) && ChannelEnabled(s, w, step)
    requires t == ChannelApply(s, w, step)
    ensures NoneLost(t)
  {
    ChannelFramed(s, w, step);
    forall c | c in s.broker.copies && Live(s, c)
      ensures Live(t, c)
    {
      ChannelLive(s, w, step, t, c);
    }
    LiveCarries(s, t);
    StillNoneLost(s, t);
  }

  lemma QuietLoss(s: State, step: Step, t: State)
    requires FreshIds(s) && NoneLost(s) && (step.Tick? || step.Inject?) && Goes(s, step, t)
    ensures NoneLost(t)
  {
    LiveCarries(s, t);
    StillNoneLost(s, t);
  }

  // ---------------------------------------------------------------- all steps, all runs

  /** One step loses no import exactly if it is none of the two kinds above. */
  lemma StepLossIff(s: State, step: Step, t: State)
    requires Inv(s) && NoneLost(s) && Goes(s, step, t)
    ensures NoneLost(t) <==> !Loses(s, step)
  {
    match step
    case ByCreator(c, cs) => CreatorLoss(s, c, cs, t);
    case ByPublisher(p, ps) => PublisherLossIff(s, p, ps, t);
    case ByChannel(w, ks) => ChannelLoss(s, w, ks, t);
    case ByWorker(w, ws) => WorkerLossIff(s, w, ws, t);
    case Tick(_) => QuietLoss(s, step, t);
    case Inject(_) => QuietLoss(s, step, t);
  }

  ghost predicate NoneLostUntil(states: seq<State>, k: nat)
    requires k < |states|
  {
    forall n :: 0 <= n <= k ==> NoneLost(states[n])
  }

  ghost predicate NoLosingStep(states: seq<State>, steps: seq<Step>, k: nat)
    requires k <= |steps| < |states|
  {
    forall n :: 0 <= n < k ==> !Loses(states[n], steps[n])
  }

  lemma StepAtLossIff(states: seq<State>, steps: seq<Step>, n: nat)
    requires Trace(states, steps) && n < |steps|
    ensures NoneLost(states[n]) ==> (NoneLost(states[n + 1]) <==> !Loses(states[n], steps[n]))
  {
    StepAt(states, steps, n);
    if NoneLost(states[n]) {
      StepLossIff(states[n], steps[n], states[n + 1]);
    }
  }

  lemma NothingLostYet(states: seq<State>, steps: seq<Step>)
    requires |steps| < |states| && states[0] == Empty()
    ensures NoneLostUntil(states, 0) && NoLosingStep(states, steps, 0)
  {
  }

  lemma OneStepFurther(states: seq<State>, steps: seq<Step>, n: nat)
    requires n < |steps| < |states| && (NoneLostUntil(states, n) <==> NoLosingStep(states, steps, n))
    requires NoneLost(states[n]) ==> (NoneLost(states[n + 1]) <==> !Loses(states[n], steps[n]))
    ensures NoneLostUntil(states, n + 1) <==> NoLosingStep(states, steps, n + 1)
  {
    assert NoneLostUntil(states, n + 1) <==> NoneLostUntil(states, n) && NoneLost(states[n + 1]);
  }

  lemma LossOneMore(states: seq<State>, steps: seq<Step>, n: nat)
    requires Trace(states, steps) && n < |steps| && (NoneLostUntil(states, n) <==> NoLosingStep(states, steps, n))
    ensures NoneLostUntil(states, n + 1) <==> NoLosingStep(states, steps, n + 1)
  {
    StepAtLossIff(states, steps, n);
    OneStepFurther(states, steps, n);
  }

  /** No state of a run has a lost import exactly if no step of the run is a losing one. */
  lemma {:induction false} NoImportLostIff(states: seq<State>, steps: seq<Step>, k: nat)
    requires Trace(states, steps) && k < |states|
    ensures NoneLostUntil(states, k) <==> NoLosingStep(states, steps, k)
  {
    if k == 0 {
      NothingLostYet(states, steps);
    } else {
      NoImportLostIff(states, steps, k - 1);
      LossOneMore(states, steps, k - 1);
    }
  }

  /** No event is left to publish, no copy is ready, and none is unacknowledged. */
  ghost predicate Settled(s: State) {
    && s.broker.ready == {} && s.broker.unacked == map[]
    && forall e :: e in s.outbox ==> s.outbox[e].publishedAt.Some?
  }

  /** The import is SUCCEEDED, or a copy of its message is in the dead-letter queue. */
  ghost predicate Ended(s: State, i: Id)
    requires i in s.imports
  {
    s.imports[i].status == Succeeded || exists c :: About(s, c, i) && c in s.broker.dead
  }

  lemma SettledCopy(s: State, i: Id)
    requires i in s.imports && !Lost(s, i) && Settled(s)
    ensures Ended(s, i)
  {
    if s.imports[i].status != Succeeded {
      var c :| About(s, c, i) && Live(s, c);
    }
  }

  /** Once the outbox is published and the main queue is empty with nothing unacknowledged, every import is
      SUCCEEDED or has a copy in the dead-letter queue. */
  lemma SettledOutcome(states: seq<State>, steps: seq<Step>, k: nat, i: Id)
    requires Trace(states, steps) && k < |states| && i in states[k].imports
    requires NoLosingStep(states, steps, k) && Settled(states[k])
    ensures Ended(states[k], i)
  {
    NoImportLostIff(states, steps, k);
    assert NoneLost(states[k]);
    SettledCopy(states[k], i);
  }

  /** With fail-stop workers that is so in every run. */
  lemma FailStopSettled(states: seq<State>, steps: seq<Step>, k: nat, i: Id)
    requires Trace(states, steps) && k < |states| && i in states[k].imports
    requires FailStop(states, steps) && Settled(states[k])
    ensures Ended(states[k], i)
  {
    FailStopLosesNothing(states, steps, k, i);
    SettledCopy(states[k], i);
  }
}
