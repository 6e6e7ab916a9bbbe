/** Where duplicates come from: the steps that leave a queued event behind unpublished, and overrun leases. */
module Duplicates {
  import opened Text
  import opened Pipeline
  import opened Tables
  import opened Flow
  import opened FlowKept
  import opened Leases

  predicate UnderWay(head: Head) { head == Awaiting(true) || head == Confirmed }

  /** Some publisher is between the queueing of the event and its mark. */
  ghost predicate Tended(s: State, e: Id) {
    exists p :: p in s.publishers && Tends(s.publishers[p], e)
  }

  predicate Tends(p: Publisher, e: Id) { p.Holding? && p.batch != [] && p.batch[0] == e && UnderWay(p.head) }

  /** The four ways to leave a queued event behind: a publish that errs although the message was queued, a lost or
      negative confirmation, a mark without effect, and a crash before the mark. */
  predicate LeavesBehind(s: State, step: Step, e: Id) {
    step.ByPublisher? &&
    var phase := PublisherOf(s, step.p);
    phase.Holding? && phase.batch != [] && phase.batch[0] == e &&
    match step.publisher
    case Send(stored, reported) => stored && !reported
    case Confirmation(positive) => phase.head == Awaiting(true) && !positive
    case Mark(applied, _) => !applied
    case Halt => UnderWay(phase.head)
    case _ => false
  }

  /** Queued, not published, and nobody is on it. */
  ghost predicate Abandoned(s: State, e: Id) {
    Enqueued(s.broker, e) && e in s.outbox && s.outbox[e].publishedAt == None && !Tended(s, e)
  }

  lemma OtherAbandons(s: State, t: State, e: Id)
    requires Origins(s) && t.publishers == s.publishers && !Abandoned(s, e)
    requires Enqueued(t.broker, e) ==> Enqueued(s.broker, e)
    requires e in s.outbox ==> e in t.outbox && t.outbox[e] == s.outbox[e]
    ensures !Abandoned(t, e)
  {
  }

  lemma StillTended(s: State, p: Id, t: State, e: Id)
    requires Tended(s, e) && p in t.publishers && t.publishers == s.publishers[p := t.publishers[p]]
    requires Tends(PublisherOf(s, p), e) ==> Tends(t.publishers[p], e)
    ensures Tended(t, e)
  {
    var q :| q in s.publishers && Tends(s.publishers[q], e);
    assert Tends(t.publishers[q], e);
  }

  lemma SendAbandons(s: State, p: Id, stored: bool, reported: bool, t: State, e: Id)
    requires FreshIds(s) && PublisherEnabled(s, p, Send(stored, reported))
    requires t == DoSend(s, p, PublisherOf(s, p), stored, reported)
    requires !Abandoned(s, e) && !LeavesBehind(s, ByPublisher(p, Send(stored, reported)), e)
    ensures !Abandoned(t, e)
  {
    if Tended(s, e) {
      StillTended(s, p, t, e);
    } else if PublisherOf(s, p).batch[0] == e {
      assert stored && reported ==> Tends(t.publishers[p], e);
      assert !stored ==> t.broker == s.broker;
    } else if Enqueued(t.broker, e) {
      var c :| c in t.broker.copies && t.broker.copies[c].origin == Some(e);
      assert c in s.broker.copies;
    }
  }

  lemma OtherStepAbandons(s: State, p: Id, step: PublisherStep, t: State, e: Id)
    requires PublisherEnabled(s, p, step) && t == PublisherApply(s, p, step) && !step.Send?
    requires !Abandoned(s, e) && !LeavesBehind(s, ByPublisher(p, step), e)
    ensures !Abandoned(t, e)
  {
    if Tended(s, e) && !(Tends(PublisherOf(s, p), e) && step.Mark?) {
      StillTended(s, p, t, e);
    }
  }

  lemma PublisherAbandons(s: State, p: Id, step: PublisherStep, t: State, e: Id)
    requires FreshIds(s) && PublisherEnabled(s, p, step) && t == PublisherApply(s, p, step)
    requires !Abandoned(s, e) && !LeavesBehind(s, ByPublisher(p, step), e)
    ensures !Abandoned(t, e)
  {
    match step
    case Send(stored, reported) => SendAbandons(s, p, stored, reported, t, e);
    case _ => OtherStepAbandons(s, p, step, t, e);
  }

  lemma CreatorAbandons(s: State, c: Id, step: CreatorStep, t: State, e: Id)
    requires TablesOk(s) && Origins(s) && CreatorEnabled(s, c, step) && t == CreatorApply(s, c, step)
    requires !Abandoned(s, e)
    ensures !Abandoned(t, e)
  {
    CreatorGrows(s, c, step);
    OtherAbandons(s, t, e);
  }

  lemma InjectAbandons(s: State, body: Body, t: State, e: Id)
    requires FreshIds(s) && Origins(s) && t == Enqueue(s, Copy(None, body)) && !Abandoned(s, e)
    ensures !Abandoned(t, e)
  {
    if Enqueued(t.broker, e) {
      var c :| c in t.broker.copies && t.broker.copies[c].origin == Some(e);
      assert c in s.broker.copies;
    }
    OtherAbandons(s, t, e);
  }

  lemma StepAbandons(s: State, step: Step, t: State, e: Id)
    requires TablesOk(s) && Origins(s) && Goes(s, step, t) && !Abandoned(s, e) && !LeavesBehind(s, step, e)
    ensures !Abandoned(t, e)
  {
    match step
    case ByCreator(c, cs) => CreatorAbandons(s, c, cs, t, e);
    case ByPublisher(p, ps) => PublisherAbandons(s, p, ps, t, e);
    case ByChannel(w, ks) =>
      ChannelFramed(s, w, ks);
      OtherAbandons(s, t, e);
    case ByWorker(w, ws) =>
      WorkerFramed(s, w, ws);
      OtherAbandons(s, t, e);
    case Tick(_) => OtherAbandons(s, t, e);
    case Inject(body) => InjectAbandons(s, body, t, e);
  }

  lemma StepAtAbandons(states: seq<State>, steps: seq<Step>, n: nat, e: Id)
    requires Trace(states, steps) && n < |steps| && !Abandoned(states[n], e) && !LeavesBehind(states[n], steps[n], e)
    ensures !Abandoned(states[n + 1], e)
  {
    StepAt(states, steps, n);
    StepAbandons(states[n], steps[n], states[n + 1], e);
  }

  lemma {:induction false} NeverAbandoned(states: seq<State>, steps: seq<Step>, k: nat, e: Id)
    requires Trace(states, steps) && k < |states|
    requires forall n :: 0 <= n < k ==> !LeavesBehind(states[n], steps[n], e)
    ensures !Abandoned(states[k], e)
  {
    if k > 0 {
      NeverAbandoned(states, steps, k - 1, e);
      StepAtAbandons(states, steps, k - 1, e);
    }
  }

  /** An event somebody is on is not claimed within the lease. */
  lemma TendedNotClaimed(states: seq<State>, steps: seq<Step>, n: nat, e: Id)
    requires Trace(states, steps) && n < |steps| && TimelyUntil(states, n + 1) && Claims(steps[n], e)
    ensures !Tended(states[n], e)
  {
    if Tended(states[n], e) {
      var p :| p in states[n].publishers && Tends(states[n].publishers[p], e);
      ClaimsDisjoint(states, steps, n, p, e);
    }
  }

  /** Without a crash, an ambiguous publish, a lost or negative confirmation or a failed mark about an event, and with
      every batch done within its lease, the event is queued at most once. */
  lemma QueuedOnce(states: seq<State>, steps: seq<Step>, k: nat, e: Id)
    requires Trace(states, steps) && k < |states| && TimelyUntil(states, k)
    requires forall n :: 0 <= n < k ==> !LeavesBehind(states[n], steps[n], e)
    ensures |CopiesOf(states[k].broker, e)| <= 1
  {
    forall n | 0 <= n < k
      ensures !ClaimsAgain(states[n], steps[n], e)
    {
      if ClaimsAgain(states[n], steps[n], e) {
        TimelyCause(states, steps, n, e);
        NeverAbandoned(states, steps, n, e);
        TendedNotClaimed(states, steps, n, e);
      }
    }
    SecondCopyHasCause(states, steps, k, e);
  }
}
