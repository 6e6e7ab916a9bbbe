/** The queue drains: once connections hold and settlements arrive, the workers settle every copy with at most nine
    steps of their own for each, whatever publishers, clients and the database do meanwhile. */
module QueueDrain {
  import opened Text
  import opened Pipeline
  import opened Sets
  import opened Tables
  import opened Flow
  import opened FlowKept
  import opened Safety
  import opened Loss

  // ---------------------------------------------------------------- runs without connection losses

  /** Settlements arrive and the connection holds; statements and calls may go any way. */
  predicate Calm(step: Step) {
    step.ByChannel? ==>
      match step.channel
      case Ack(applied) => applied
      case Nack(applied) => applied
      case Detach => false
      case Stop => false
      case _ => true
  }

  predicate OwnStep(step: Step) { step.ByChannel? || step.ByWorker? }

  /** Every delivery that was taken up is the job of the worker that holds it, and nobody works without a connection. */
  ghost predicate Tidy(s: State) {
    (
      && BusyAttached(s)
      && (forall c :: c in s.broker.unacked && s.broker.unacked[c].taken ==>
            Busy(s, s.broker.unacked[c].worker) && JobOf(s, s.broker.unacked[c].worker).copy == c)
    ) == true
  }

  // ---------------------------------------------------------------- how much is left to do

  function Untaken(b: Broker): set<Id> { set c | c in b.unacked && !b.unacked[c].taken }

  function LeftIn(phase: Phase): nat {
    match phase
    case Received => 7
    case Calling(_, made) => if made <= 3 then 6 - made else 3
    case Passed(_) => 2
    case Refused(_, _) => 2
    case Completed => 1
    case Doomed => 1
  }

  /** The steps left for a copy that was taken up. */
  function LeftOf(s: State, c: Id): nat {
    if c in s.broker.unacked && s.broker.unacked[c].taken && Busy(s, s.broker.unacked[c].worker)
    then LeftIn(JobOf(s, s.broker.unacked[c].worker).phase)
    else 0
  }

  function AtLeast(s: State, n: nat): set<Id> { set c | c in s.broker.unacked && LeftOf(s, c) >= n }

  /** How many copies need a first, a second, ..., an `n`-th step. */
  function Levels(s: State, n: nat): nat { if n == 0 then 0 else Levels(s, n - 1) + |AtLeast(s, n)| }

  /** The steps the workers need at most: nine for a ready copy, eight for one delivered, the rest for those at work. */
  function Todo(s: State): nat { 9 * |s.broker.ready| + 8 * |Untaken(s.broker)| + Levels(s, 7) }

  lemma LeftAtMost(s: State, c: Id)
    ensures LeftOf(s, c) <= 7
  {
  }

  lemma LevelShrinks(s: State, t: State, c: Id, n: nat)
    requires 1 <= n && forall d :: LeftOf(t, d) <= LeftOf(s, d)
    ensures |AtLeast(t, n)| + (if LeftOf(t, c) < n <= LeftOf(s, c) then 1 else 0) <= |AtLeast(s, n)|
  {
    if LeftOf(t, c) < n <= LeftOf(s, c) {
      assert c in AtLeast(s, n);
      SubsetSize(AtLeast(t, n), AtLeast(s, n) - {c});
    } else {
      SubsetSize(AtLeast(t, n), AtLeast(s, n));
    }
  }

  function Upto(n: nat, left: nat): nat { if left < n then left else n }

  lemma {:induction false} LevelsShrink(s: State, t: State, c: Id, n: nat)
    requires forall d :: LeftOf(t, d) <= LeftOf(s, d)
    ensures Levels(t, n) + Upto(n, LeftOf(s, c)) - Upto(n, LeftOf(t, c)) <= Levels(s, n)
  {
    if n > 0 {
      LevelsShrink(s, t, c, n - 1);
      LevelShrinks(s, t, c, n);
    }
  }

  /** What one copy no longer needs is no longer to do. */
  lemma LeftShrinks(s: State, t: State, c: Id)
    requires forall d :: LeftOf(t, d) <= LeftOf(s, d)
    ensures Levels(t, 7) + LeftOf(s, c) - LeftOf(t, c) <= Levels(s, 7)
  {
    LevelsShrink(s, t, c, 7);
    LeftAtMost(s, c);
    LeftAtMost(t, c);
  }

  lemma {:induction false} LevelsGrow(s: State, t: State, c: Id, n: nat)
    requires forall d :: d != c ==> LeftOf(t, d) <= LeftOf(s, d)
    ensures Levels(t, n) <= Levels(s, n) + n
  {
    if n > 0 {
      LevelsGrow(s, t, c, n - 1);
      SubsetSize(AtLeast(t, n), AtLeast(s, n) + {c});
    }
  }

  // ---------------------------------------------------------------- every step of a worker is progress

  ghost predicate Progress(s: State, t: State) { (Tidy(t) && Todo(t) < Todo(s)) == true }

  lemma DeliverSizes(b: Broker, w: Id, copy: Id, d: Broker)
    requires copy in b.ready && copy !in b.unacked
    requires d == b.(ready := b.ready - {copy}, unacked := b.unacked[copy := Delivery(w, false)])
    ensures |d.ready| == |b.ready| - 1 && |Untaken(d)| == |Untaken(b)| + 1
  {
    assert Untaken(d) == Untaken(b) + {copy};
  }

  lemma DeliverLeft(s: State, w: Id, copy: Id, t: State)
    requires copy !in s.broker.unacked && Tidy(s) && t == DoDeliver(s, w, copy)
    ensures Tidy(t) && forall c :: LeftOf(t, c) == LeftOf(s, c)
  {
  }

  lemma DeliverProgress(s: State, w: Id, copy: Id, t: State)
    requires Places(s.broker) && Tidy(s) && ChannelEnabled(s, w, Deliver(copy)) && t == DoDeliver(s, w, copy)
    ensures Progress(s, t)
  {
    assert copy !in s.broker.unacked;
    DeliverSizes(s.broker, w, copy, t.broker);
    DeliverLeft(s, w, copy, t);
    LeftShrinks(s, t, copy);
  }

  lemma TakeSizes(s: State, w: Id, copy: Id, t: State)
    requires ChannelEnabled(s, w, Take(copy)) && t == DoTake(s, w, copy)
    ensures t.broker.ready == s.broker.ready && |Untaken(t.broker)| == |Untaken(s.broker)| - 1
  {
    assert Untaken(t.broker) == Untaken(s.broker) - {copy} && copy in Untaken(s.broker);
  }

  lemma TakeLeft(s: State, w: Id, copy: Id, t: State)
    requires Tidy(s) && ChannelEnabled(s, w, Take(copy)) && t == DoTake(s, w, copy)
    ensures Tidy(t) && forall c :: c != copy ==> LeftOf(t, c) == LeftOf(s, c)
  {
  }

  lemma TakeProgress(s: State, w: Id, copy: Id, t: State)
    requires Tidy(s) && ChannelEnabled(s, w, Take(copy)) && t == DoTake(s, w, copy)
    ensures Progress(s, t)
  {
    TakeSizes(s, w, copy, t);
    TakeLeft(s, w, copy, t);
    LevelsGrow(s, t, copy, 7);
  }

  lemma SettleLeft(s: State, w: Id, ack: bool, t: State)
    requires HoldsOk(s) && Tidy(s) && Busy(s, w) && t == DoSettle(s, w, JobOf(s, w).copy, true, ack)
    ensures Tidy(t) && forall c :: LeftOf(t, c) <= LeftOf(s, c)
    ensures LeftOf(t, JobOf(s, w).copy) == 0 && LeftOf(s, JobOf(s, w).copy) == LeftIn(JobOf(s, w).phase)
    ensures t.broker.ready == s.broker.ready && Untaken(t.broker) == Untaken(s.broker)
  {
    assert HoldOk(s, w, s.workers[w]);
  }

  lemma SettleProgress(s: State, w: Id, ack: bool, t: State)
    requires HoldsOk(s) && Tidy(s) && Busy(s, w) && t == DoSettle(s, w, JobOf(s, w).copy, true, ack)
    ensures Progress(s, t)
  {
    SettleLeft(s, w, ack, t);
    LeftShrinks(s, t, JobOf(s, w).copy);
  }

  lemma ChannelProgress(s: State, w: Id, step: ChannelStep, t: State)
    requires Places(s.broker) && HoldsOk(s) && Tidy(s) && Calm(ByChannel(w, step))
    requires ChannelEnabled(s, w, step) && t == ChannelApply(s, w, step)
    ensures Progress(s, t)
  {
    match step
    case Deliver(copy) => DeliverProgress(s, w, copy, t);
    case Take(copy) => TakeProgress(s, w, copy, t);
    case Ack(_) => SettleProgress(s, w, true, t);
    case Nack(_) => SettleProgress(s, w, false, t);
  }

  lemma StartPhases(s: State, w: Id, applied: bool, reported: bool)
    requires WorkerEnabled(s, w, Start(applied, reported))
    ensures LeftIn(JobOf(DoStart(s, w, JobOf(s, w), applied, reported), w).phase) < 7
  {
  }

  lemma CallPhases(s: State, w: Id, ok: bool)
    requires WorkerEnabled(s, w, Call(ok))
    ensures LeftIn(JobOf(DoCall(s, w, JobOf(s, w), ok), w).phase) < LeftIn(JobOf(s, w).phase)
  {
  }

  lemma CompletePhases(s: State, w: Id, applied: bool, reported: bool)
    requires WorkerEnabled(s, w, Complete(applied, reported))
    ensures LeftIn(JobOf(DoComplete(s, w, JobOf(s, w), applied, reported), w).phase) == 1
  {
  }

  lemma WorkerPhases(s: State, w: Id, step: WorkerStep, t: State)
    requires WorkerEnabled(s, w, step) && t == WorkerApply(s, w, step) && Busy(t, w)
    ensures LeftIn(JobOf(t, w).phase) < LeftIn(JobOf(s, w).phase)
  {
    match step
    case BadBody =>
    case Start(applied, reported) => StartPhases(s, w, applied, reported);
    case Call(ok) => CallPhases(s, w, ok);
    case GiveUp(_) =>
    case Complete(applied, reported) => CompletePhases(s, w, applied, reported);
  }

  lemma WorkerLeft(s: State, w: Id, t: State)
    requires HoldsOk(s) && Tidy(s) && WorkerFrame(s, w, t) && LeftIn(JobOf(t, w).phase) < LeftIn(JobOf(s, w).phase)
    ensures Tidy(t) && forall c :: LeftOf(t, c) <= LeftOf(s, c)
    ensures LeftOf(t, JobOf(s, w).copy) < LeftOf(s, JobOf(s, w).copy)
  {
    assert HoldOk(s, w, s.workers[w]);
    WorkerBusyAttached(s, w, t);
    forall c
      ensures LeftOf(t, c) <= LeftOf(s, c)
    {
      if c in s.broker.unacked && s.broker.unacked[c].worker != w {
        assert WorkerOf(t, s.broker.unacked[c].worker) == WorkerOf(s, s.broker.unacked[c].worker);
      }
    }
    forall c | c in t.broker.unacked && t.broker.unacked[c].taken
      ensures Busy(t, t.broker.unacked[c].worker) && JobOf(t, t.broker.unacked[c].worker).copy == c
    {
      if s.broker.unacked[c].worker != w {
        assert WorkerOf(t, s.broker.unacked[c].worker) == WorkerOf(s, s.broker.unacked[c].worker);
      }
    }
  }

  lemma WorkerProgress(s: State, w: Id, step: WorkerStep, t: State)
    requires HoldsOk(s) && Tidy(s) && s.work.attempts.Keys == s.imports.Keys
    requires WorkerEnabled(s, w, step) && t == WorkerApply(s, w, step)
    ensures Progress(s, t)
  {
    WorkerFramed(s, w, step);
    WorkerPhases(s, w, step, t);
    WorkerLeft(s, w, t);
    LeftShrinks(s, t, JobOf(s, w).copy);
  }

  // ---------------------------------------------------------------- everybody else can only add ready copies

  /** The queue has as many more ready copies as copies came in, and everything else is as it was. */
  ghost predicate OnlyAdds(s: State, t: State) {
    (
      && t.workers == s.workers && t.broker.unacked == s.broker.unacked
      && |t.broker.ready| - |s.broker.ready| == |t.broker.copies| - |s.broker.copies| >= 0
    ) == true
  }

  lemma EnqueueAdds(s: State, copy: Copy)
    requires FreshIds(s) && Places(s.broker)
    ensures OnlyAdds(s, Enqueue(s, copy))
  {
    assert s.nextId !in s.broker.ready;
  }

  lemma SendAdds(s: State, p: Id, stored: bool, reported: bool, t: State)
    requires FreshIds(s) && Places(s.broker) && AtEvent(s, PublisherOf(s, p))
    requires t == DoSend(s, p, PublisherOf(s, p), stored, reported)
    ensures OnlyAdds(s, t)
  {
    if stored {
      EnqueueAdds(s, Copy(Some(PublisherOf(s, p).batch[0]), s.outbox[PublisherOf(s, p).batch[0]].body));
    }
  }

  lemma PublisherAdds(s: State, p: Id, step: PublisherStep, t: State)
    requires FreshIds(s) && Places(s.broker) && PublisherEnabled(s, p, step) && t == PublisherApply(s, p, step)
    ensures OnlyAdds(s, t)
  {
    match step
    case Send(stored, reported) => SendAdds(s, p, stored, reported, t);
    case _ => assert t.broker == s.broker && t.workers == s.workers;
  }

  lemma OtherAdds(s: State, step: Step, t: State)
    requires FreshIds(s) && Places(s.broker) && Goes(s, step, t) && !OwnStep(step)
    ensures OnlyAdds(s, t)
  {
    match step
    case ByCreator(c, cs) => CreatorFramed(s, c, cs);
    case ByPublisher(p, ps) => PublisherAdds(s, p, ps, t);
    case Tick(_) =>
    case Inject(body) => EnqueueAdds(s, Copy(None, body));
  }

  lemma AddsTodo(s: State, t: State)
    requires Tidy(s) && OnlyAdds(s, t)
    ensures Tidy(t) && Todo(t) <= Todo(s) + 9 * (|t.broker.copies| - |s.broker.copies|)
    ensures |t.broker.copies| >= |s.broker.copies|
  {
    assert forall c :: LeftOf(t, c) == LeftOf(s, c);
    LeftShrinks(s, t, 0);
  }

  lemma OwnKeepsCopies(s: State, step: Step, t: State)
    requires s.work.attempts.Keys == s.imports.Keys && Goes(s, step, t) && OwnStep(step)
    ensures t.broker.copies == s.broker.copies
  {
    match step
    case ByChannel(w, ks) => ChannelFramed(s, w, ks);
    case ByWorker(w, ws) => WorkerFramed(s, w, ws);
  }

  lemma OwnProgress(s: State, step: Step, t: State)
    requires Places(s.broker) && HoldsOk(s) && s.work.attempts.Keys == s.imports.Keys
    requires Tidy(s) && Goes(s, step, t) && Calm(step) && OwnStep(step)
    ensures Progress(s, t)
  {
    match step
    case ByChannel(w, ks) => ChannelProgress(s, w, ks, t);
    case ByWorker(w, ws) => WorkerProgress(s, w, ws, t);
  }

  // ---------------------------------------------------------------- whole runs

  /** From state `k` to state `m` no connection is lost and every settlement arrives. */
  ghost predicate CalmRun(states: seq<State>, steps: seq<Step>, k: nat, m: nat) {
    (
      && Trace(states, steps) && k <= m < |states| && Tidy(states[k])
      && forall n :: k <= n < m ==> Calm(steps[n])
    ) == true
  }

  function StepsTaken(steps: seq<Step>, k: nat, m: nat): nat
    requires k <= m <= |steps|
  {
    if k == m then 0 else StepsTaken(steps, k, m - 1) + Own(steps[m - 1])
  }

  /** The copies that come in between two states. */
  function NewCopies(s: State, t: State): int { |t.broker.copies| - |s.broker.copies| }

  /** The steps taken between two states are paid for by what was to do and by the copies that came in. */
  ghost predicate Accounted(s: State, t: State, taken: nat) {
    (NewCopies(s, t) >= 0 && taken + Todo(t) <= Todo(s) + 9 * NewCopies(s, t)) == true
  }

  lemma AccountedTransitive(s: State, t: State, u: State, taken: nat, more: nat)
    requires Accounted(s, t, taken) && Accounted(t, u, more)
    ensures Accounted(s, u, taken + more)
  {
  }

  function Own(step: Step): nat { if OwnStep(step) then 1 else 0 }

  lemma StepAccounted(s: State, step: Step, t: State)
    requires FreshIds(s) && Places(s.broker) && HoldsOk(s) && s.work.attempts.Keys == s.imports.Keys
    requires Tidy(s) && Calm(step) && Goes(s, step, t)
    ensures Tidy(t) && Accounted(s, t, Own(step))
  {
    if OwnStep(step) {
      OwnKeepsCopies(s, step, t);
      OwnProgress(s, step, t);
    } else {
      OtherAdds(s, step, t);
      AddsTodo(s, t);
    }
  }

  lemma StepAtCalm(states: seq<State>, steps: seq<Step>, n: nat)
    requires Trace(states, steps) && n < |steps| && Calm(steps[n]) && Tidy(states[n])
    ensures Tidy(states[n + 1]) && Accounted(states[n], states[n + 1], Own(steps[n]))
  {
    StepAt(states, steps, n);
    StepAccounted(states[n], steps[n], states[n + 1]);
  }

  /** Where a calm run is: everything tidy, and the steps taken since state `s` paid for. */
  ghost predicate PaidFor(s: State, t: State, taken: nat) { (Tidy(t) && Accounted(s, t, taken)) == true }

  lemma OneStepOn(states: seq<State>, steps: seq<Step>, s: State, n: nat, taken: nat)
    requires Trace(states, steps) && n < |steps| && Calm(steps[n]) && PaidFor(s, states[n], taken)
    ensures PaidFor(s, states[n + 1], taken + Own(steps[n]))
  {
    StepAtCalm(states, steps, n);
    AccountedTransitive(s, states[n], states[n + 1], taken, Own(steps[n]));
  }

  lemma {:induction false} CalmThroughout(states: seq<State>, steps: seq<Step>, k: nat, m: nat)
    requires CalmRun(states, steps, k, m)
    ensures PaidFor(states[k], states[m], StepsTaken(steps, k, m))
    decreases m - k
  {
    if k < m {
      CalmThroughout(states, steps, k, m - 1);
      OneStepOn(states, steps, states[k], m - 1, StepsTaken(steps, k, m - 1));
    }
  }

  lemma LevelBound(s: State, taken: set<Id>, n: nat)
    requires n > 0 && taken == s.broker.unacked.Keys - Untaken(s.broker)
    ensures Levels(s, n) <= Levels(s, n - 1) + |taken|
  {
    SubsetSize(AtLeast(s, n), taken);
  }

  function Times(n: nat, size: nat): nat { if n == 0 then 0 else Times(n - 1, size) + size }

  lemma {:induction false} TimesIs(n: nat, size: nat)
    ensures Times(n, size) == n * size
  {
    if n > 0 {
      TimesIs(n - 1, size);
    }
  }

  lemma {:induction false} LevelsBound(s: State, taken: set<Id>, n: nat)
    requires taken == s.broker.unacked.Keys - Untaken(s.broker)
    ensures Levels(s, n) <= Times(n, |taken|)
  {
    if n > 0 {
      LevelBound(s, taken, n);
      LevelsBound(s, taken, n - 1);
    }
  }

  lemma {:induction false} LevelsLeast(s: State, n: nat)
    requires n > 0
    ensures Levels(s, n) >= |AtLeast(s, 1)|
  {
    if n > 1 {
      LevelsLeast(s, n - 1);
    }
  }

  lemma NothingHeld(s: State)
    requires Tidy(s)
    ensures AtLeast(s, 1) == s.broker.unacked.Keys - Untaken(s.broker)
  {
  }

  /** Nine steps for every copy that is ready or held are enough, and nothing is left to do only when no copy is. */
  lemma TodoBound(s: State)
    requires Tidy(s)
    ensures Todo(s) <= 9 * (|s.broker.ready| + |s.broker.unacked|)
    ensures Todo(s) == 0 <==> s.broker.ready == {} && s.broker.unacked == map[]
  {
    var taken := s.broker.unacked.Keys - Untaken(s.broker);
    LevelsBound(s, taken, 7);
    TimesIs(7, |taken|);
    LevelsLeast(s, 7);
    NothingHeld(s);
    assert s.broker.unacked.Keys == Untaken(s.broker) + taken;
    assert |s.broker.unacked| == |s.broker.unacked.Keys|;
    assert s.broker.unacked.Keys == {} <==> s.broker.unacked == map[];
  }

  // ---------------------------------------------------------------- and the workers get on as long as there is work

  /** No worker has a step to take. */
  ghost predicate Finished(s: State) {
    forall step :: OwnStep(step) && Calm(step) ==> !Enabled(s, step)
  }

  lemma {:induction false} Unused(ids: set<Id>) returns (w: Id)
    ensures forall i :: i in ids ==> i < w
    decreases ids
  {
    if ids == {} {
      w := 0;
    } else {
      var i :| i in ids;
      var v := Unused(ids - {i});
      assert forall j :: j in ids ==> j == i || j in ids - {i};
      w := if i < v then v else i + 1;
    }
  }

  lemma NextOfJob(s: State, w: Id) returns (step: Step)
    requires Busy(s, w) && WorkerOf(s, w).attached
    ensures Enabled(s, step) && Calm(step) && OwnStep(step)
  {
    match JobOf(s, w).phase
    case Received =>
      step := ByWorker(w, if BodyOf(s.broker, JobOf(s, w).copy).Malformed? then BadBody else Start(true, true));
    case Calling(_, made) => step := ByWorker(w, if made < 3 then Call(true) else GiveUp([63]));
    case Passed(_) => step := ByWorker(w, Complete(true, true));
    case Refused(_, _) => step := ByWorker(w, Complete(false, false));
    case Completed => step := ByChannel(w, Ack(true));
    case Doomed => step := ByChannel(w, Nack(true));
  }

  /** While a copy is ready or held, some worker has a step to take. */
  lemma NeverStuck(s: State) returns (step: Step)
    requires Channels(s) && Tidy(s) && (s.broker.ready != {} || s.broker.unacked != map[])
    ensures Enabled(s, step) && Calm(step) && OwnStep(step)
  {
    if s.broker.unacked != map[] {
      var c :| c in s.broker.unacked;
      var w := s.broker.unacked[c].worker;
      if Busy(s, w) {
        step := NextOfJob(s, w);
      } else {
        assert s.broker.unacked[c] == Delivery(w, false);
        step := ByChannel(w, Take(c));
      }
    } else {
      var c :| c in s.broker.ready;
      var w := Unused(s.workers.Keys);
      assert w !in s.workers.Keys;
      assert WorkerOf(s, w) == Worker(None, true);
      assert HeldBy(s.broker, w) == {};
      step := ByChannel(w, Deliver(c));
    }
  }

  lemma JobIsHeld(s: State, w: Id)
    requires HoldsOk(s) && Tidy(s) && Busy(s, w)
    ensures JobOf(s, w).copy in s.broker.unacked
  {
    assert HoldOk(s, w, s.workers[w]);
  }

  lemma NoJobs(s: State)
    requires HoldsOk(s) && Tidy(s) && s.broker.unacked == map[]
    ensures forall w :: !Busy(s, w)
  {
    forall w | Busy(s, w)
      ensures JobOf(s, w).copy in s.broker.unacked
    {
      JobIsHeld(s, w);
    }
  }

  lemma NothingToDo(s: State, step: Step)
    requires s.broker.ready == {} && s.broker.unacked == map[] && (forall w :: !Busy(s, w))
    requires OwnStep(step) && Calm(step)
    ensures !Enabled(s, step)
  {
    assert step.ByChannel? ==> !Busy(s, step.w);
    assert step.ByWorker? ==> !Busy(s, step.v);
  }

  lemma FinishedIff(s: State)
    requires HoldsOk(s) && Channels(s) && Tidy(s)
    ensures Finished(s) <==> s.broker.ready == {} && s.broker.unacked == map[]
  {
    if s.broker.ready == {} && s.broker.unacked == map[] {
      NoJobs(s);
      forall step | OwnStep(step) && Calm(step)
        ensures !Enabled(s, step)
      {
        NothingToDo(s, step);
      }
    } else {
      var step := NeverStuck(s);
    }
  }

  /** In every run without connection losses the workers take at most nine steps for each copy that was ready or held or
      came in, and they have no step left if and only if every copy is acknowledged or dead-lettered. */
  lemma QueueDrains(states: seq<State>, steps: seq<Step>, k: nat, m: nat)
    requires CalmRun(states, steps, k, m)
    ensures StepsTaken(steps, k, m)
            <= 9 * (|states[k].broker.ready| + |states[k].broker.unacked| + NewCopies(states[k], states[m]))
    ensures Finished(states[m]) <==> states[m].broker.copies.Keys == states[m].broker.acked + states[m].broker.dead
    ensures Finished(states[m]) <==> states[m].broker.ready == {} && states[m].broker.unacked == map[]
  {
    CalmThroughout(states, steps, k, m);
    assert HoldsOk(states[m]) && Channels(states[m]) && Places(states[m].broker) by { InvThroughout(states, steps, m); }
    TodoBound(states[k]);
    FinishedIff(states[m]);
    EmptyIff(states[m].broker);
  }

  lemma EmptyIff(b: Broker)
    requires Places(b)
    ensures b.copies.Keys == b.acked + b.dead <==> b.ready == {} && b.unacked == map[]
  {
    assert b.unacked.Keys == {} <==> b.unacked == map[];
    if b.copies.Keys == b.acked + b.dead {
      assert forall c :: c in b.ready ==> c in b.copies;
      assert forall c :: c in b.unacked.Keys ==> c in b.copies;
    }
  }

  /** If nothing was lost and nothing is left to publish, every import has then come to its end. */
  lemma EveryImportEnds(states: seq<State>, steps: seq<Step>, k: nat, m: nat, i: Id)
    requires CalmRun(states, steps, k, m) && Finished(states[m]) && NoLosingStep(states, steps, m)
    requires i in states[m].imports && forall e :: e in states[m].outbox ==> states[m].outbox[e].publishedAt.Some?
    ensures Ended(states[m], i)
  {
    QueueDrains(states, steps, k, m);
    SettledOutcome(states, steps, m, i);
  }
}
