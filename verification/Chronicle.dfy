/** The history variables say what happened: each is, in every state of every run, the number of steps of one kind that
    were taken so far, or the fact that there was one. */
module Chronicle {
  import opened Pipeline
  import opened Tables
  import opened Flow
  import opened FlowKept
  import opened Ledger
  import Leases

  /** What can happen about an import, an event, or a copy. */
  datatype Kind =
    | TakeOf(id: Id)
    | StartOf(id: Id)
    | CallOf(id: Id)
    | PassOf(id: Id)
    | ClaimOf(id: Id)
    | ConfirmOf(id: Id)
    | FinishOf(id: Id)
    | AnswerOf(reply: Reply)

  /** The worker works on a message that names import `i`. */
  predicate WorksOn(s: State, w: Id, i: Id) {
    Busy(s, w) && BodyOf(s.broker, JobOf(s, w).copy).Decoded?
    && BodyOf(s.broker, JobOf(s, w).copy).payload.importId == i
  }

  predicate Publishes(s: State, p: Id, e: Id) {
    PublisherOf(s, p).Holding? && PublisherOf(s, p).batch != [] && PublisherOf(s, p).batch[0] == e
  }

  /** The step is one of that kind. */
  predicate Happens(s: State, step: Step, kind: Kind) {
    match kind
    case TakeOf(i) =>
      step.ByChannel? && step.channel.Take? && BodyOf(s.broker, step.channel.copy).Decoded?
      && BodyOf(s.broker, step.channel.copy).payload.importId == i
    case StartOf(i) =>
      step.ByWorker? && step.worker.Start? && step.worker.applied && WorksOn(s, step.v, i) && i in s.imports
    case CallOf(i) => step.ByWorker? && step.worker.Call? && WorksOn(s, step.v, i)
    case PassOf(i) => step.ByWorker? && step.worker.Call? && step.worker.ok && WorksOn(s, step.v, i)
    case ClaimOf(e) => step.ByPublisher? && step.publisher.Claim? && e in step.publisher.batch
    case ConfirmOf(e) =>
      step.ByPublisher? && step.publisher.Confirmation? && step.publisher.positive && Publishes(s, step.p, e)
    case FinishOf(c) =>
      step.ByWorker? && step.worker.Complete? && step.worker.applied && Busy(s, step.v)
      && JobOf(s, step.v).phase.Passed? && JobOf(s, step.v).copy == c
    case AnswerOf(r) =>
      step.ByCreator? && step.creator.Commit? && step.creator.reported
      && (CreatorOf(s, step.c).Written? || CreatorOf(s, step.c).Replaying?)
      && r == Reply(KeyOf(CreatorOf(s, step.c).req), CreatorOf(s, step.c).id, CreatorOf(s, step.c).Replaying?)
  }

  /** How often it happened before state number `k`. */
  function Times(states: seq<State>, steps: seq<Step>, kind: Kind, k: nat): nat
    requires k <= |steps| < |states|
  {
    if k == 0 then 0
    else Times(states, steps, kind, k - 1) + if Happens(states[k - 1], steps[k - 1], kind) then 1 else 0
  }

  /** What the history variables say about it: how often, or one for at least once. */
  function Noted(s: State, kind: Kind): nat {
    match kind
    case TakeOf(i) => s.work.takes[i]
    case StartOf(i) => StartsOf(s, i)
    case CallOf(i) => CallsOf(AttemptsOf(s, i))
    case PassOf(i) => if i in s.work.passed then 1 else 0
    case ClaimOf(e) => Leases.ClaimsOf(s, e)
    case ConfirmOf(e) => if e in s.publications.confirmed then 1 else 0
    case FinishOf(c) => if c in s.work.done then 1 else 0
    case AnswerOf(r) => if r in s.creations.replies then 1 else 0
  }

  predicate Counted(kind: Kind) { kind.TakeOf? || kind.StartOf? || kind.CallOf? || kind.ClaimOf? }

  /** A step adds to what is noted exactly what happens with it. */
  ghost predicate NotedOn(s: State, step: Step, t: State, kind: Kind) {
    (
      if Counted(kind) then Noted(t, kind) == Noted(s, kind) + (if Happens(s, step, kind) then 1 else 0)
      else Noted(t, kind) == 1 <==> Noted(s, kind) == 1 || Happens(s, step, kind)
    ) == true
  }

  // ---------------------------------------------------------------- one step

  lemma NewRowNotes(s: State, r: Request, id: Id, event: Id, began: nat, kind: Kind)
    requires id !in s.imports && id !in s.work.attempts && event !in s.publications.claims
    ensures Noted(CommitRows(s, r, id, event, began), kind) == Noted(s, kind)
  {
  }

  lemma AnswerNotes(s: State, reply: Reply, kind: Kind)
    requires !kind.AnswerOf?
    ensures Noted(Answered(s, reply), kind) == Noted(s, kind)
  {
  }

  lemma CreatorNotesCommit(s: State, c: Id, applied: bool, reported: bool, t: State, kind: Kind)
    requires TablesOk(s) && CreatorEnabled(s, c, Commit(applied, reported)) && !kind.AnswerOf?
    requires t == DoCommit(s, c, CreatorOf(s, c), applied, reported)
    ensures Noted(t, kind) == Noted(s, kind)
  {
    var phase := CreatorOf(s, c);
    assert CreatorOk(s, phase) && OneEventEach(s);
    var u := if applied && phase.Written? then CommitRows(s, phase.req, phase.id, phase.event, phase.began) else s;
    if applied && phase.Written? {
      NewRowNotes(s, phase.req, phase.id, phase.event, phase.began, kind);
    }
    var reply := Reply(KeyOf(phase.req), phase.id, phase.Replaying?);
    AnswerNotes(u, reply, kind);
    var v := if reported then Answered(u, reply) else u;
    assert t == SetCreator(v, c, NoTransaction);
    SameNotes(v, t, kind);
  }

  lemma CreatorNotesAnswer(s: State, c: Id, applied: bool, reported: bool, t: State, reply: Reply)
    requires CreatorEnabled(s, c, Commit(applied, reported)) && t == DoCommit(s, c, CreatorOf(s, c), applied, reported)
    ensures NotedOn(s, ByCreator(c, Commit(applied, reported)), t, AnswerOf(reply))
  {
  }

  lemma NothingHappens(s: State, step: Step, t: State, kind: Kind)
    requires Noted(t, kind) == Noted(s, kind) && !Happens(s, step, kind)
    ensures NotedOn(s, step, t, kind)
  {
  }

  lemma CommitNotes(s: State, c: Id, applied: bool, reported: bool, t: State, kind: Kind)
    requires TablesOk(s) && CreatorEnabled(s, c, Commit(applied, reported))
    requires t == DoCommit(s, c, CreatorOf(s, c), applied, reported)
    ensures NotedOn(s, ByCreator(c, Commit(applied, reported)), t, kind)
  {
    if kind.AnswerOf? {
      CreatorNotesAnswer(s, c, applied, reported, t, kind.reply);
    } else {
      CreatorNotesCommit(s, c, applied, reported, t, kind);
      NothingHappens(s, ByCreator(c, Commit(applied, reported)), t, kind);
    }
  }

  lemma CreatorNotes(s: State, c: Id, step: CreatorStep, t: State, kind: Kind)
    requires TablesOk(s) && CreatorEnabled(s, c, step) && t == CreatorApply(s, c, step)
    ensures NotedOn(s, ByCreator(c, step), t, kind)
  {
    if step.Commit? {
      CommitNotes(s, c, step.applied, step.reported, t, kind);
    } else {
      OpenStepEffect(s, c, step, t);
      SameNotes(s, t, kind);
      NothingHappens(s, ByCreator(c, step), t, kind);
    }
  }

  lemma OpenStepEffect(s: State, c: Id, step: CreatorStep, t: State)
    requires CreatorEnabled(s, c, step) && t == CreatorApply(s, c, step) && !step.Commit?
    ensures t.work == s.work && t.publications == s.publications && t.creations == s.creations
    ensures t.imports == s.imports
  {
  }

  /** A step that leaves the tables' rows, the answers and what is noted alone. */
  lemma SameNotes(s: State, t: State, kind: Kind)
    requires t.work == s.work && t.publications == s.publications && t.creations == s.creations
    requires t.imports == s.imports
    ensures Noted(t, kind) == Noted(s, kind)
  {
  }

  lemma ClaimNotes(s: State, p: Id, batch: seq<Id>, skipped: set<Id>, reported: bool, t: State, kind: Kind)
    requires s.publications.claims.Keys == s.outbox.Keys && PublisherEnabled(s, p, Claim(batch, skipped, reported))
    requires t == DoClaim(s, p, batch, reported)
    ensures NotedOn(s, ByPublisher(p, Claim(batch, skipped, reported)), t, kind)
  {
    assert forall e :: e in batch ==> Claimable(s, e);
  }

  lemma ConfirmationNotes(s: State, p: Id, positive: bool, t: State, kind: Kind)
    requires PublisherEnabled(s, p, Confirmation(positive)) && t == DoConfirmation(s, p, PublisherOf(s, p), positive)
    ensures NotedOn(s, ByPublisher(p, Confirmation(positive)), t, kind)
  {
  }

  lemma PublisherNotes(s: State, p: Id, step: PublisherStep, t: State, kind: Kind)
    requires s.publications.claims.Keys == s.outbox.Keys && PublisherEnabled(s, p, step)
    requires t == PublisherApply(s, p, step)
    ensures NotedOn(s, ByPublisher(p, step), t, kind)
  {
    match step
    case Claim(batch, skipped, reported) => ClaimNotes(s, p, batch, skipped, reported, t, kind);
    case Confirmation(positive) => ConfirmationNotes(s, p, positive, t, kind);
    case _ => SameNotes(s, t, kind);
  }

  lemma ChannelNotes(s: State, w: Id, step: ChannelStep, t: State, kind: Kind)
    requires ChannelEnabled(s, w, step) && t == ChannelApply(s, w, step)
    ensures NotedOn(s, ByChannel(w, step), t, kind)
  {
  }

  lemma {:induction false} OneCallMore(attempts: seq<Attempt>, n: nat)
    requires 1 <= n <= |attempts|
    ensures CallsOf(Changed(attempts, n, 1, false)) == CallsOf(attempts) + 1
  {
    var changed := Changed(attempts, n, 1, false);
    if n > 1 {
      OneCallMore(attempts[1..], n - 1);
      assert changed[1..] == Changed(attempts[1..], n - 1, 1, false);
    } else {
      assert changed[1..] == attempts[1..];
    }
  }

  lemma {:induction false} NoCallMore(attempts: seq<Attempt>, n: nat, completed: bool)
    ensures CallsOf(Changed(attempts, n, 0, completed)) == CallsOf(attempts)
  {
    if 1 <= n <= |attempts| {
      var changed := Changed(attempts, n, 0, completed);
      if n > 1 {
        NoCallMore(attempts[1..], n - 1, completed);
        assert changed[1..] == Changed(attempts[1..], n - 1, 0, completed);
      } else {
        assert changed[1..] == attempts[1..];
      }
    }
  }

  lemma {:induction false} NoneMade(attempts: seq<Attempt>)
    ensures CallsOf(attempts + [Attempt(0, false)]) == CallsOf(attempts)
  {
    if attempts != [] {
      NoneMade(attempts[1..]);
      assert (attempts + [Attempt(0, false)])[1..] == attempts[1..] + [Attempt(0, false)];
    }
  }

  lemma StartNotes(s: State, w: Id, applied: bool, reported: bool, t: State, kind: Kind)
    requires s.work.attempts.Keys == s.imports.Keys && WorkerEnabled(s, w, Start(applied, reported))
    requires t == DoStart(s, w, JobOf(s, w), applied, reported)
    ensures NotedOn(s, ByWorker(w, Start(applied, reported)), t, kind)
  {
    if applied && OnRow(s, JobOf(s, w).copy) {
      NoneMade(AttemptsOf(s, RowOf(s, JobOf(s, w).copy)));
      AppliedStartNotes(s, w, reported, t, kind);
    }
  }

  lemma AppliedStartNotes(s: State, w: Id, reported: bool, t: State, kind: Kind)
    requires s.work.attempts.Keys == s.imports.Keys && WorkerEnabled(s, w, Start(true, reported))
    requires t == DoStart(s, w, JobOf(s, w), true, reported) && OnRow(s, JobOf(s, w).copy)
    requires var attempts := AttemptsOf(s, RowOf(s, JobOf(s, w).copy));
             CallsOf(attempts + [Attempt(0, false)]) == CallsOf(attempts)
    ensures NotedOn(s, ByWorker(w, Start(true, reported)), t, kind)
  {
    var i := RowOf(s, JobOf(s, w).copy);
    assert forall k :: k != i ==> StartsOf(t, k) == StartsOf(s, k) && AttemptsOf(t, k) == AttemptsOf(s, k);
  }

  lemma CallNotes(s: State, w: Id, ok: bool, t: State, kind: Kind)
    requires JobsOk(s) && WorkerEnabled(s, w, Call(ok)) && t == DoCall(s, w, JobOf(s, w), ok)
    ensures NotedOn(s, ByWorker(w, Call(ok)), t, kind)
  {
    assert JobOk(s, s.workers[w].job.value);
    OneCallMore(AttemptsOf(s, RowOf(s, JobOf(s, w).copy)), JobOf(s, w).phase.attempt);
  }

  lemma CompleteNotes(s: State, w: Id, applied: bool, reported: bool, t: State, kind: Kind)
    requires JobsOk(s) && WorkerEnabled(s, w, Complete(applied, reported))
    requires t == DoComplete(s, w, JobOf(s, w), applied, reported)
    ensures NotedOn(s, ByWorker(w, Complete(applied, reported)), t, kind)
  {
    assert JobOk(s, s.workers[w].job.value);
    NoCallMore(AttemptsOf(s, RowOf(s, JobOf(s, w).copy)), JobOf(s, w).phase.attempt, true);
  }

  lemma WorkerNotes(s: State, w: Id, step: WorkerStep, t: State, kind: Kind)
    requires JobsOk(s) && s.work.attempts.Keys == s.imports.Keys
    requires WorkerEnabled(s, w, step) && t == WorkerApply(s, w, step)
    ensures NotedOn(s, ByWorker(w, step), t, kind)
  {
    match step
    case Start(applied, reported) => StartNotes(s, w, applied, reported, t, kind);
    case Call(ok) => CallNotes(s, w, ok, t, kind);
    case Complete(applied, reported) => CompleteNotes(s, w, applied, reported, t, kind);
    case _ => SameNotes(s, t, kind);
  }

  lemma StepNotes(s: State, step: Step, t: State, kind: Kind)
    requires Inv(s) && s.work.attempts.Keys == s.imports.Keys && Goes(s, step, t)
    ensures NotedOn(s, step, t, kind)
  {
    match step
    case ByCreator(c, cs) => CreatorNotes(s, c, cs, t, kind);
    case ByPublisher(p, ps) => PublisherNotes(s, p, ps, t, kind);
    case ByChannel(w, ks) => ChannelNotes(s, w, ks, t, kind);
    case ByWorker(w, ws) => WorkerNotes(s, w, ws, t, kind);
    case Tick(_) => SameNotes(s, t, kind);
    case Inject(_) => SameNotes(s, t, kind);
  }

  // ---------------------------------------------------------------- whole runs

  lemma StepAtNotes(states: seq<State>, steps: seq<Step>, n: nat, kind: Kind)
    requires Trace(states, steps) && n < |steps|
    ensures NotedOn(states[n], steps[n], states[n + 1], kind)
  {
    StepAt(states, steps, n);
    StepNotes(states[n], steps[n], states[n + 1], kind);
  }

  lemma NothingNoted(kind: Kind)
    ensures Noted(Empty(), kind) == 0
  {
  }

  /** The counters are the numbers of steps of their kind, and what is in a set or a list of the history is exactly what
      happened at least once. */
  lemma {:induction false} NotedIsCounted(states: seq<State>, steps: seq<Step>, kind: Kind, k: nat)
    requires Trace(states, steps) && k < |states|
    ensures Counted(kind) ==> Noted(states[k], kind) == Times(states, steps, kind, k)
    ensures !Counted(kind) ==> (Noted(states[k], kind) == 1 <==> Times(states, steps, kind, k) >= 1)
  {
    if k == 0 {
      NothingNoted(kind);
    } else {
      NotedIsCounted(states, steps, kind, k - 1);
      StepAtNotes(states, steps, k - 1, kind);
    }
  }

  /** So the ledger's facts are about steps: an import's attempts are its applied starts, and there is no more than one
      for each time its message was taken up, and no more than three calls for each. */
  lemma AttemptsAreStarts(states: seq<State>, steps: seq<Step>, k: nat, i: Id)
    requires Trace(states, steps) && k < |states| && i in states[k].imports
    ensures states[k].imports[i].attempts == Times(states, steps, StartOf(i), k)
    ensures Times(states, steps, StartOf(i), k) <= Times(states, steps, TakeOf(i), k)
    ensures Times(states, steps, CallOf(i), k) <= 3 * Times(states, steps, StartOf(i), k)
  {
    NotedIsCounted(states, steps, StartOf(i), k);
    NotedIsCounted(states, steps, TakeOf(i), k);
    NotedIsCounted(states, steps, CallOf(i), k);
    CountedThroughout(states, steps, k);
    assert RowsOk(states[k]) by { InvThroughout(states, steps, k); }
    CallsWithinAttempts(states[k], i);
  }

  lemma CallsWithinAttempts(s: State, i: Id)
    requires RowsOk(s) && i in s.imports
    ensures CallsOf(AttemptsOf(s, i)) <= 3 * s.imports[i].attempts
  {
    assert RowOk(s.imports[i], AttemptsOf(s, i), i in s.work.passed);
    CallsBound(AttemptsOf(s, i));
  }

  /** A published event was confirmed to its publisher. */
  lemma PublishedWasConfirmed(states: seq<State>, steps: seq<Step>, k: nat, e: Id)
    requires Trace(states, steps) && k < |states| && Published(states[k], e)
    ensures Times(states, steps, ConfirmOf(e), k) >= 1
  {
    assert PublicationsOk(states[k]) by { InvThroughout(states, steps, k); }
    NotedIsCounted(states, steps, ConfirmOf(e), k);
  }

  /** A SUCCEEDED import had a successful call. */
  lemma SucceededWasCalled(states: seq<State>, steps: seq<Step>, k: nat, i: Id)
    requires Trace(states, steps) && k < |states| && i in states[k].imports && states[k].imports[i].status == Succeeded
    ensures Times(states, steps, PassOf(i), k) >= 1
  {
    assert RowsOk(states[k]) by { InvThroughout(states, steps, k); }
    assert RowOk(states[k].imports[i], AttemptsOf(states[k], i), i in states[k].work.passed);
    NotedIsCounted(states, steps, PassOf(i), k);
  }

  /** An acknowledged copy had its own applied SUCCEEDED update. */
  lemma AcknowledgedWasFinished(states: seq<State>, steps: seq<Step>, k: nat, c: Id)
    requires Trace(states, steps) && k < |states| && c in states[k].broker.acked
    ensures Times(states, steps, FinishOf(c), k) >= 1
  {
    assert c in states[k].work.done by { InvThroughout(states, steps, k); }
    NotedIsCounted(states, steps, FinishOf(c), k);
  }
}
