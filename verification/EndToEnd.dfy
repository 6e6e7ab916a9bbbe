/** From the outbox to the end: once faults and creations stop, publisher and workers together bring every import to
    SUCCEEDED or to the dead-letter queue, each of them within a number of steps known beforehand. */
module EndToEnd {
  import opened Pipeline
  import opened Tables
  import opened FlowKept
  import opened Ledger
  import opened Safety
  import opened Loss
  import Drain
  import QueueDrain

  /** Nothing reaches the queue but what publisher `p` sends. */
  ghost predicate QuietRun(states: seq<State>, steps: seq<Step>, k: nat, m: nat, p: Id) {
    (
      && Drain.CalmRun(states, steps, k, m, p) && QueueDrain.CalmRun(states, steps, k, m)
      && forall n :: k <= n < m ==> !steps[n].Inject?
    ) == true
  }

  /** The event the publisher is at has been sent and is not yet marked. */
  function UnderWay(phase: Publisher): nat { if phase.Holding? && !phase.head.Unsent? then 1 else 0 }

  /** The copies there are and those still to come. */
  function Expected(s: State, p: Id): int { |s.broker.copies| + |Drain.Unpublished(s)| - UnderWay(PublisherOf(s, p)) }

  /** The publisher rests, or is at an unpublished event. */
  ghost predicate Working(s: State, p: Id) {
    PublisherOf(s, p).Holding? ==> AtEvent(s, PublisherOf(s, p)) && PublisherOf(s, p).batch[0] in Drain.Unpublished(s)
  }

  lemma SendExpected(s: State, p: Id, t: State)
    requires FreshIds(s) && PublisherEnabled(s, p, Send(true, true)) && t == PublisherApply(s, p, Send(true, true))
    ensures Expected(t, p) == Expected(s, p)
  {
    assert s.nextId !in s.broker.copies;
    assert Drain.Unpublished(t) == Drain.Unpublished(s);
  }

  lemma MarkExpected(s: State, p: Id, t: State)
    requires PublisherEnabled(s, p, Mark(true, true)) && t == PublisherApply(s, p, Mark(true, true))
    requires PublisherOf(s, p).batch[0] in Drain.Unpublished(s)
    ensures Expected(t, p) == Expected(s, p)
  {
    assert Drain.Unpublished(t) == Drain.Unpublished(s) - {PublisherOf(s, p).batch[0]};
  }

  lemma PublisherExpected(s: State, p: Id, step: PublisherStep, t: State)
    requires FreshIds(s) && PublisherEnabled(s, p, step) && t == PublisherApply(s, p, step) && Drain.FaultFree(step)
    requires Working(s, p)
    ensures Expected(t, p) == Expected(s, p)
  {
    match step
    case Claim(_, _, _) => assert Drain.Unpublished(t) == Drain.Unpublished(s);
    case Send(_, _) => SendExpected(s, p, t);
    case Confirmation(_) => assert Drain.Unpublished(t) == Drain.Unpublished(s);
    case Mark(_, _) => MarkExpected(s, p, t);
  }

  lemma QuietExpected(s: State, p: Id, t: State)
    requires t.outbox == s.outbox && t.broker.copies == s.broker.copies && PublisherOf(t, p) == PublisherOf(s, p)
    ensures Expected(t, p) == Expected(s, p)
  {
    assert Drain.Unpublished(t) == Drain.Unpublished(s);
  }

  lemma StepExpected(s: State, step: Step, t: State, p: Id)
    requires FreshIds(s) && s.work.attempts.Keys == s.imports.Keys && Goes(s, step, t)
    requires Drain.Calm(p, step) && !step.Inject?
    requires Working(s, p)
    ensures Expected(t, p) == Expected(s, p)
  {
    match step
    case ByCreator(c, cs) =>
      CreatorFramed(s, c, cs);
      NothingShown(s, c, cs);
      QuietExpected(s, p, t);
    case ByPublisher(_, ps) => PublisherExpected(s, p, ps, t);
    case ByChannel(w, ks) =>
      ChannelFramed(s, w, ks);
      QuietExpected(s, p, t);
    case ByWorker(w, ws) =>
      WorkerFramed(s, w, ws);
      QuietExpected(s, p, t);
    case Tick(_) => QuietExpected(s, p, t);
  }

  lemma AlwaysWorking(states: seq<State>, steps: seq<Step>, k: nat, m: nat, p: Id)
    requires Drain.CalmRun(states, steps, k, m, p)
    ensures Working(states[m], p)
  {
    Drain.DrainedThroughout(states, steps, k, m, p);
    match PublisherOf(states[m], p)
    case Resting =>
    case Holding(batch, _, _) => assert batch[0] in Drain.Unpublished(states[m]);
  }

  lemma StepAtExpected(states: seq<State>, steps: seq<Step>, n: nat, p: Id)
    requires Trace(states, steps) && n < |steps| && Drain.Calm(p, steps[n]) && !steps[n].Inject?
    requires Working(states[n], p)
    ensures Expected(states[n + 1], p) == Expected(states[n], p)
  {
    StepAt(states, steps, n);
    StepExpected(states[n], steps[n], states[n + 1], p);
  }

  lemma {:induction false} ExpectedThroughout(states: seq<State>, steps: seq<Step>, k: nat, m: nat, p: Id)
    requires QuietRun(states, steps, k, m, p)
    ensures Expected(states[m], p) == Expected(states[k], p)
    decreases m - k
  {
    if k < m {
      ExpectedThroughout(states, steps, k, m - 1, p);
      AlwaysWorking(states, steps, k, m - 1, p);
      StepAtExpected(states, steps, m - 1, p);
    }
  }

  /** Between two batches as many copies came in as events were published, each event once. */
  lemma EachSentOnce(states: seq<State>, steps: seq<Step>, k: nat, m: nat, p: Id)
    requires QuietRun(states, steps, k, m, p)
    ensures QueueDrain.NewCopies(states[k], states[m]) <= |Drain.Unpublished(states[k])|
    ensures PublisherOf(states[m], p).Resting? ==>
              QueueDrain.NewCopies(states[k], states[m])
              == |Drain.Unpublished(states[k])| - |Drain.Unpublished(states[m])|
  {
    ExpectedThroughout(states, steps, k, m, p);
    AlwaysWorking(states, steps, k, m, p);
  }

  /** The publisher has taken the steps its events need at most. */
  ghost predicate PublisherDone(states: seq<State>, steps: seq<Step>, k: nat, m: nat)
    requires k <= m < |states| && |states| == |steps| + 1
  {
    var events := |Drain.Unpublished(states[k])|;
    Drain.StepsTaken(steps, k, m) >= (events + 24) / 25 + 3 * events
  }

  /** The workers need at most nine steps for each copy there was and each event that was still to be published. */
  lemma WorkersBound(states: seq<State>, steps: seq<Step>, k: nat, m: nat, p: Id)
    requires QuietRun(states, steps, k, m, p)
    ensures QueueDrain.StepsTaken(steps, k, m)
            <= 9 * (|states[k].broker.ready| + |states[k].broker.unacked| + |Drain.Unpublished(states[k])|)
  {
    EachSentOnce(states, steps, k, m, p);
    QueueDrain.QueueDrains(states, steps, k, m);
  }

  lemma AllPublished(states: seq<State>, steps: seq<Step>, k: nat, m: nat, p: Id)
    requires QuietRun(states, steps, k, m, p) && PublisherDone(states, steps, k, m)
    ensures forall e :: e in states[m].outbox ==> states[m].outbox[e].publishedAt.Some?
  {
    Drain.DrainTerminates(states, steps, k, m, p);
    forall e | e in states[m].outbox
      ensures states[m].outbox[e].publishedAt.Some?
    {
      assert e !in Drain.Unpublished(states[m]);
    }
  }

  /** When the publisher has taken those steps and the workers have none left, every import has come to its end, unless
      a losing step happened at some time before. */
  lemma EveryImportEnds(states: seq<State>, steps: seq<Step>, k: nat, m: nat, p: Id, i: Id)
    requires QuietRun(states, steps, k, m, p) && PublisherDone(states, steps, k, m) && QueueDrain.Finished(states[m])
    requires NoLosingStep(states, steps, m) && i in states[m].imports
    ensures Ended(states[m], i)
  {
    AllPublished(states, steps, k, m, p);
    QueueDrain.QueueDrains(states, steps, k, m);
    SettledOutcome(states, steps, m, i);
  }

  /** With workers that always stopped with their connection that is every import. */
  lemma FailStopEnds(states: seq<State>, steps: seq<Step>, k: nat, m: nat, p: Id, i: Id)
    requires QuietRun(states, steps, k, m, p) && PublisherDone(states, steps, k, m) && QueueDrain.Finished(states[m])
    requires FailStop(states, steps) && i in states[m].imports
    ensures Ended(states[m], i)
  {
    AllPublished(states, steps, k, m, p);
    QueueDrain.QueueDrains(states, steps, k, m);
    FailStopSettled(states, steps, m, i);
  }

  /** Until then the publisher or a worker always has a step to take. */
  lemma NeverStuck(states: seq<State>, steps: seq<Step>, k: nat, m: nat, p: Id) returns (step: Step)
    requires QuietRun(states, steps, k, m, p) && !(PublisherDone(states, steps, k, m) && QueueDrain.Finished(states[m]))
    ensures Enabled(states[m], step) && Drain.Calm(p, step) && QueueDrain.Calm(step)
    ensures step.ByPublisher? || QueueDrain.OwnStep(step)
  {
    if QueueDrain.Finished(states[m]) {
      var next := Drain.NeverStuck(states, steps, k, m, p);
      step := ByPublisher(p, next);
    } else {
      step :| QueueDrain.OwnStep(step) && QueueDrain.Calm(step) && Enabled(states[m], step);
    }
  }
}
