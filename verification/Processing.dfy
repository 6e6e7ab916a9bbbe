/** The worker process: one delivery at a time from the broker's channel through the integration client to the
    row's final update and one settlement attempt. */
module Processing {
  import opened Text
  import opened Pipeline
  import opened Tables
  import opened Flow
  import opened Platform
  import Requests
  import Breaker
  import Simulator
  import Integration

  // ---------------------------------------------------------------- what an error and an identifier look like as text

  function ErrorText(error: Integration.ProcessError, detail: Bytes): (r: Bytes)
    ensures r != []
  {
    match error
    case CircuitOpen => Ascii("integration circuit breaker is open")
    case ContextDone => Ascii("context ") + detail
    case CallsFailed => Ascii(RETRIES_FAILED) + detail
  }

  /** The text of a failed last call reaches the row, if nothing else fails, exactly when byte 266 of its detail, if
      there is one, starts a character, and none of the bytes before it is zero. */
  lemma FailureStorableIff(detail: Bytes)
    requires ValidUtf8(detail)
    ensures Storable(SafeMessage(Some(ErrorText(Integration.CallsFailed, detail)))) <==>
            (|detail| <= 266 || !Continuation(detail[266]))
            && forall i :: 0 <= i < |detail| && i < 266 ==> detail[i] != 0
  {
    RetriesFailedPlain();
    PrefixedStorableIff(Ascii(RETRIES_FAILED), detail);
  }

  /** It cannot for a call that was answered with a long line instead of an HTTP response. */
  lemma ErrorSplitsCharacter()
    ensures ValidUtf8(LongDetail()) && !Storable(SafeMessage(Some(ErrorText(Integration.CallsFailed, LongDetail()))))
  {
    LongDetailValid();
    FailureStorableIff(LongDetail());
  }

  function IdText(i: Id): (r: string)
    ensures r != ""
  {
    if i < 10 then ["0123456789"[i]] else IdText(i / 10) + ["0123456789"[i % 10]]
  }

  /** Different identifiers have different texts. */
  lemma {:induction false} IdTextInjective(i: Id, k: Id)
    requires IdText(i) == IdText(k)
    ensures i == k
    decreases i
  {
    var text := IdText(i);
    if i >= 10 && k >= 10 {
      assert text[..|text| - 1] == IdText(i / 10) && text[..|text| - 1] == IdText(k / 10);
      IdTextInjective(i / 10, k / 10);
    }
    assert text[|text| - 1] == "0123456789"[i % 10] && text[|text| - 1] == "0123456789"[k % 10];
  }

  function RequestFor(i: Id, row: Import): Simulator.Request {
    Simulator.Request(IdText(i), row.source, row.records)
  }

  /** The request is about import `i`: it has its identifier, its source and its record count. */
  ghost predicate Concerns(s: State, i: Id, r: Simulator.Request) {
    (
      i in s.imports && r.importId == IdText(i) && r.source == s.imports[i].source && r.records == s.imports[i].records
    ) == true
  }

  /** It is about no other one. */
  lemma ConcernsOne(s: State, i: Id, k: Id, r: Simulator.Request)
    requires Concerns(s, i, r) && Concerns(s, k, r)
    ensures i == k
  {
    IdTextInjective(i, k);
  }

  /** And it stays so, whatever happens. */
  lemma ConcernsForever(states: seq<State>, steps: seq<Step>, k: nat, m: nat, i: Id, r: Simulator.Request)
    requires Trace(states, steps) && k <= m < |states| && Concerns(states[k], i, r)
    ensures Concerns(states[m], i, r)
  {
    var s := states[k];
    assert OneEventEach(s) by { FlowKept.InvThroughout(states, steps, k); }
    var row := s.imports[i];
    var req := Pipeline.Request(row.tenant, row.key, row.source, row.records);
    Requests.DataForever(states, steps, k, m, i, req, s.outbox[s.creations.eventOf[i]].createdAt);
  }

  lemma StillConcerns(states: seq<State>, steps: seq<Step>, states': seq<State>, steps': seq<Step>, i: Id,
                      r: Simulator.Request)
    requires Trace(states, steps) && Trace(states', steps') && Continues(states, states')
    requires Concerns(states[|steps|], i, r)
    ensures Concerns(states'[|steps'|], i, r)
  {
    assert states'[|steps|] == states[|steps|];
    ConcernsForever(states', steps', |steps|, |steps'|, i, r);
  }

  /** The row has just been given its end. */
  ghost predicate Ended(s: State, i: Id, status: Status, error: Bytes) {
    (
      && i in s.imports && s.imports[i].status == status && s.imports[i].lastError == error
      && s.imports[i].processedAt == Some(s.clock)
    ) == true
  }

  /** That happened in one of the states from number `from` on. */
  ghost predicate EndedSince(states: seq<State>, from: nat, i: Id, status: Status, error: Bytes) {
    exists n :: from <= n < |states| && Ended(states[n], i, status, error)
  }

  lemma StillEnded(states: seq<State>, later: seq<State>, from: nat, i: Id, status: Status, error: Bytes)
    requires EndedSince(states, from, i, status, error) && Continues(states, later)
    ensures EndedSince(later, from, i, status, error)
  {
    var n :| from <= n < |states| && Ended(states[n], i, status, error);
    assert later[n] == states[n];
  }

  lemma CompleteEnds(s: State, w: Id, reported: bool, t: State)
    requires JobsOk(s) && WorkerEnabled(s, w, Complete(true, reported))
    requires t == DoComplete(s, w, JobOf(s, w), true, reported)
    ensures BodyOf(s.broker, JobOf(s, w).copy).Decoded?
    ensures JobOf(s, w).phase.Passed? ==> Ended(t, RowOf(s, JobOf(s, w).copy), Succeeded, [])
    ensures JobOf(s, w).phase.Refused? ==>
              Ended(t, RowOf(s, JobOf(s, w).copy), DeadLetter, SafeMessage(Some(JobOf(s, w).phase.error)))
  {
    assert JobOk(s, s.workers[w].job.value);
  }

  // ---------------------------------------------------------------- which steps a delivery consists of

  function CallSteps(w: Id, calls: seq<bool>): seq<Step> {
    seq(|calls|, i requires 0 <= i < |calls| => ByWorker(w, Call(calls[i])))
  }

  /** What became of a delivery; a rejected one has its error, and whether its DEAD_LETTER update was reported. */
  datatype Verdict = NotDecoded | NotStarted | Rejected(error: Bytes, recorded: bool) | NotCompleted | Done

  /** The error a delivery is rejected with, and that its text reaches the row only if PostgreSQL can store it: without
      failures exactly then. */
  ghost predicate Explained(verdict: Verdict, error: Integration.ProcessError, detail: Bytes, calm: bool)
    requires verdict.Rejected?
  {
    (
      && verdict.error == ErrorText(error, detail)
      && (verdict.recorded ==> Storable(SafeMessage(Some(verdict.error))))
      && (calm ==> (verdict.recorded <==> Storable(SafeMessage(Some(verdict.error)))))
    ) == true
  }

  /** What the verdict says about the row has been written to it since state number `from`. */
  ghost predicate Recorded(states: seq<State>, from: nat, i: Id, verdict: Verdict) {
    (
      && (verdict.Done? ==> EndedSince(states, from, i, Succeeded, []))
      && (verdict.Rejected? && verdict.recorded ==>
            EndedSince(states, from, i, DeadLetter, SafeMessage(Some(verdict.error))))
    ) == true
  }

  /** What becomes of an import that was started, by its source and its surroundings. */
  ghost predicate ComesTo(lab: bool, admitted: bool, env: nat -> Integration.Attempt, source: string, verdict: Verdict,
                           calls: seq<bool>, detail: Bytes) {
    (
      // The open breaker.
      && (!admitted ==>
            verdict.Rejected? && calls == [] && verdict.error == Ascii("integration circuit breaker is open"))
      // A target that cannot be reached, and a worker that is stopped before it tries again.
      && (admitted && Integration.Down(env) ==> verdict.Rejected? && calls != [] && true !in calls)
      && (admitted && Integration.Down(env) && env(2).cancelled ==>
            calls == [false] && verdict.error == Ascii("context ") + detail)
      // The simulator, with nothing in its way.
      && (admitted && Integration.Calm(env) && lab && source == "force-error" ==>
            && verdict.Rejected? && calls == [false, false, false]
            && verdict.error == Ascii("integration failed after retries: ") + detail)
      && (admitted && Integration.Calm(env) && lab && source == "flaky" ==>
            !verdict.Rejected? && (calls == [true] || calls == [false, true]))
      && (admitted && Integration.Calm(env) && (lab ==> source != "force-error" && source != "flaky") ==>
            !verdict.Rejected? && calls == [true])
    ) == true
  }

  /** What the client's outcome leads to. */
  ghost predicate Follows(o: Integration.Outcome, verdict: Verdict, calls: seq<bool>, detail: Bytes) {
    (
      && calls == o.calls && (verdict.Rejected? <==> o.error.Some?)
      && (verdict.Rejected? ==> verdict.error == ErrorText(o.error.value, detail))
    ) == true
  }

  lemma CalmAnswered(c: Breaker.Config, h: seq<Breaker.Op>, lab: bool, counter: Simulator.Counter,
                     r: Simulator.Request, env: nat -> Integration.Attempt, now: int)
    requires Simulator.Acceptable(r) && Breaker.Admits(c, h, now) && Integration.Calm(env)
    ensures var o := Integration.Processed(c, h, lab, counter, r, env, now);
            && (lab && r.source == "force-error" ==>
                  o.error == Some(Integration.CallsFailed) && o.calls == [false, false, false])
            && (lab && r.source == "flaky" ==> o.error == None && (o.calls == [true] || o.calls == [false, true]))
            && ((lab ==> r.source != "force-error" && r.source != "flaky") ==> o.error == None && o.calls == [true])
  {
    if lab && r.source == "force-error" {
      Integration.ForcedFails(c, h, counter, r, env, now);
    } else if lab && r.source == "flaky" {
      Integration.FlakySucceeds(c, h, counter, r, env, now);
    } else {
      Integration.PlainSucceeds(c, h, lab, counter, r, env, now);
    }
  }

  lemma DownAnswered(c: Breaker.Config, h: seq<Breaker.Op>, lab: bool, counter: Simulator.Counter,
                     r: Simulator.Request, env: nat -> Integration.Attempt, now: int)
    requires Breaker.Admits(c, h, now) && Integration.Down(env)
    ensures var o := Integration.Processed(c, h, lab, counter, r, env, now);
            && o.error.Some? && o.calls != [] && true !in o.calls
            && (env(2).cancelled ==> o.calls == [false] && o.error == Some(Integration.ContextDone))
  {
    Integration.DownFails(c, h, lab, counter, r, env, now);
    Integration.ProcessedShape(c, h, lab, counter, r, env, now);
    if env(2).cancelled {
      Integration.DownThenCancelled(c, h, lab, counter, r, env, now);
    }
  }

  lemma OutcomeComesTo(c: Breaker.Config, h: seq<Breaker.Op>, lab: bool, counter: Simulator.Counter,
                           r: Simulator.Request, env: nat -> Integration.Attempt, now: int, verdict: Verdict,
                           calls: seq<bool>, detail: Bytes)
    requires Simulator.Acceptable(r)
    requires Follows(Integration.Processed(c, h, lab, counter, r, env, now), verdict, calls, detail)
    ensures ComesTo(lab, Breaker.Admits(c, h, now), env, r.source, verdict, calls, detail)
  {
    if Breaker.Admits(c, h, now) {
      if Integration.Calm(env) {
        CalmAnswered(c, h, lab, counter, r, env, now);
      }
      if Integration.Down(env) {
        DownAnswered(c, h, lab, counter, r, env, now);
      }
    }
  }

  function Settlement(w: Id, verdict: Verdict, applied: bool): Step {
    ByChannel(w, if verdict.Done? then Ack(applied) else Nack(applied))
  }

  /** What is done about the message before it is settled; `calls` are the integration calls in their order. */
  ghost predicate Handling(w: Id, own: seq<Step>, verdict: Verdict, calls: seq<bool>) {
    match verdict
    case NotDecoded => calls == [] && own == [ByWorker(w, BadBody)]
    case NotStarted => calls == [] && exists applied :: own == [ByWorker(w, Start(applied, false))]
    case Rejected(error, recorded) => exists applied ::
      own == [ByWorker(w, Start(true, true))] + CallSteps(w, calls)
             + [ByWorker(w, GiveUp(error)), ByWorker(w, Complete(applied, recorded))]
    case NotCompleted => exists applied ::
      own == [ByWorker(w, Start(true, true))] + CallSteps(w, calls) + [ByWorker(w, Complete(applied, false))]
    case Done =>
      own == [ByWorker(w, Start(true, true))] + CallSteps(w, calls) + [ByWorker(w, Complete(true, true))]
  }

  /** A whole delivery: what is done about it, and then exactly one settlement attempt. */
  ghost predicate DeliverySteps(w: Id, own: seq<Step>, verdict: Verdict, calls: seq<bool>) {
    exists handling, applied :: own == handling + [Settlement(w, verdict, applied)]
        && Handling(w, handling, verdict, calls)
  }

  /** The same about everything a worker did so far and what it had done `before`. */
  ghost predicate Delivered(w: Id, before: seq<Step>, own: seq<Step>, verdict: Verdict, calls: seq<bool>) {
    (before <= own && DeliverySteps(w, own[|before|..], verdict, calls)) == true
  }

  lemma Composed(w: Id, before: seq<Step>, handling: seq<Step>, own: seq<Step>, verdict: Verdict, calls: seq<bool>,
                 applied: bool)
    requires Handling(w, handling, verdict, calls) && own == before + handling + [Settlement(w, verdict, applied)]
    ensures Delivered(w, before, own, verdict, calls)
  {
    assert own[|before|..] == handling + [Settlement(w, verdict, applied)];
  }

  /** Every way through a delivery ends with its only acknowledgement or rejection, and it acknowledges exactly when its
      own SUCCEEDED update was the last thing it did and was reported. */
  lemma OneSettlement(w: Id, own: seq<Step>, verdict: Verdict, calls: seq<bool>)
    requires DeliverySteps(w, own, verdict, calls)
    ensures |own| >= 2 && own[|own| - 1].ByChannel? && forall i :: 0 <= i < |own| - 1 ==> own[i].ByWorker?
    ensures own[|own| - 1].channel.Ack? || own[|own| - 1].channel.Nack?
    ensures own[|own| - 1].channel.Ack? <==> verdict.Done?
    ensures verdict.Done? ==> own[|own| - 2] == ByWorker(w, Complete(true, true))
    ensures verdict.Done? ==> forall e :: ByWorker(w, GiveUp(e)) !in own
    // A rejected import was started, called for, given up with its error, and got one update, reported or not.
    ensures verdict.Rejected? ==>
              |own| == |calls| + 4 && own[0] == ByWorker(w, Start(true, true))
              && (forall i :: 0 <= i < |calls| ==> own[i + 1] == ByWorker(w, Call(calls[i])))
              && own[|calls| + 1] == ByWorker(w, GiveUp(verdict.error))
              && exists applied :: own[|calls| + 2] == ByWorker(w, Complete(applied, verdict.recorded))
    ensures verdict.NotCompleted? || verdict.Done? ==>
              |own| == |calls| + 3 && own[0] == ByWorker(w, Start(true, true))
              && (forall i :: 0 <= i < |calls| ==> own[i + 1] == ByWorker(w, Call(calls[i])))
    ensures verdict.NotDecoded? || verdict.NotStarted? ==> |own| == 2 && calls == []
  {
    var handling, applied :| own == handling + [Settlement(w, verdict, applied)]
        && Handling(w, handling, verdict, calls);
    assert forall i :: 0 <= i < |own| - 1 ==> own[i] == handling[i];
  }

  predicate Takes(w: Id, step: Step) { step.ByChannel? && step.w == w && step.channel.Take? }

  function After(own: seq<Step>, k: nat): seq<Step>
    requires k < |own|
  {
    own[k + 1..]
  }

  /** What a worker does from its start: it takes up `n` deliveries one after the other, each with the steps above. */
  ghost predicate Served(w: Id, own: seq<Step>, n: nat) {
    if n == 0 then own == []
    else exists k, verdict, calls ::
      0 <= k < |own| && Takes(w, own[k]) && Served(w, own[..k], n - 1)
          && DeliverySteps(w, After(own, k), verdict, calls)
  }

  lemma OneMoreServed(w: Id, before: seq<Step>, n: nat, copy: Id, own: seq<Step>, verdict: Verdict, calls: seq<bool>)
    requires Served(w, before, n) && Delivered(w, before + [ByChannel(w, Take(copy))], own, verdict, calls)
    ensures Served(w, own, n + 1)
  {
    var k := |before|;
    assert own[..k] == before && own[k] == ByChannel(w, Take(copy));
    assert DeliverySteps(w, After(own, k), verdict, calls);
  }

  lemma OneCallMore(w: Id, before: seq<Step>, calls: seq<bool>, n: nat)
    requires n < |calls|
    ensures before + CallSteps(w, calls[..n]) + [ByWorker(w, Call(calls[n]))] == before + CallSteps(w, calls[..n + 1])
  {
    assert calls[..n + 1] == calls[..n] + [calls[n]];
    assert CallSteps(w, calls[..n + 1]) == CallSteps(w, calls[..n]) + [ByWorker(w, Call(calls[n]))];
  }

  /** Where a worker is after its calls. */
  function AfterCalls(attempt: nat, calls: seq<bool>): Phase {
    if calls != [] && calls[|calls| - 1] then Passed(attempt) else Calling(attempt, |calls|)
  }

  ghost predicate InHand(s: State, w: Id, copy: Id, phase: Phase) {
    (Busy(s, w) && JobOf(s, w) == Job(copy, phase)) == true
  }

  lemma CallPhase(s: State, w: Id, copy: Id, attempt: nat, made: nat, ok: bool, t: State)
    requires JobsOk(s) && InHand(s, w, copy, Calling(attempt, made)) && made < 3 && t == DoCall(s, w, JobOf(s, w), ok)
    ensures InHand(t, w, copy, if ok then Passed(attempt) else Calling(attempt, made + 1))
  {
    assert JobOk(s, s.workers[w].job.value);
  }

  lemma CompletePhase(s: State, w: Id, copy: Id, phase: Phase, applied: bool, ok: bool, t: State)
    requires JobsOk(s) && InHand(s, w, copy, phase) && (phase.Passed? || phase.Refused?)
    requires t == DoComplete(s, w, JobOf(s, w), applied, ok)
    ensures InHand(t, w, copy, if phase.Passed? && ok then Completed else Doomed)
  {
    assert JobOk(s, s.workers[w].job.value);
  }

  /** Where `calm` is true, no statement fails and every settlement arrives as long as the channel is open. */
  class WorkerProcess {
    const system: System
    const integration: Integration.IntegrationClient
    const id: Id

    constructor (system: System, integration: Integration.IntegrationClient, id: Id)
      ensures this.system == system && this.integration == integration && this.id == id
    {
      this.system := system;
      this.integration := integration;
      this.id := id;
    }

    /** This process is in the given phase with the copy in hand, and `own` is all it ever did. */
    ghost predicate Has(copy: Id, phase: Phase, own: seq<Step>)
      reads system
    {
      (system.Valid() && InHand(system.st, id, copy, phase) && Own(Working(id), system.steps) == own) == true
    }

    method BadBody(copy: Id, ghost own: seq<Step>)
      requires Has(copy, Received, own) && BodyOf(system.st.broker, copy).Malformed?
      modifies system
      ensures Has(copy, Doomed, own + [ByWorker(id, Pipeline.BadBody)]) && Continues(old(system.states), system.states)
    {
      system.Act(Working(id), ByWorker(id, Pipeline.BadBody));
    }

    /** `StartProcessing`: the update may have taken effect whatever is reported; a missing row is reported. */
    method StartProcessing(copy: Id, calm: bool, ghost own: seq<Step>)
      returns (started: Option<Simulator.Request>, ghost attempt: nat, ghost applied: bool)
      requires Has(copy, Received, own) && BodyOf(system.st.broker, copy).Decoded?
      modifies system
      ensures Continues(old(system.states), system.states)
      ensures Has(copy, if started.Some? then Calling(attempt, 0) else Doomed,
                  own + [ByWorker(id, Start(applied, started.Some?))])
      ensures started.Some? ==> applied && Simulator.Acceptable(started.value)
      ensures BodyOf(system.st.broker, copy) == old(BodyOf(system.st.broker, copy))
      // The request is about the row the message names, which this has just put into PROCESSING.
      ensures started.Some? ==>
                var i := RowOf(system.st, copy);
                && Concerns(system.st, i, started.value) && system.st.imports[i].status == Processing
                && system.st.imports[i].lastError == [] && system.st.imports[i].attempts == attempt >= 1
      ensures calm && old(OnRow(system.st, copy)) ==> started.Some?
    {
      system.Others(Working(id));
      var took, reported: bool := *, *;
      var found := OnRow(system.st, copy);
      took, reported := took || calm, ((reported && took) || calm) && found;
      system.Act(Working(id), ByWorker(id, Start(took, reported)));
      applied := took;
      if reported {
        assert RecordsInRange(system.st) by { system.Sound(); }
        var i := RowOf(system.st, copy);
        attempt := JobOf(system.st, id).phase.attempt;
        started := Some(RequestFor(i, system.st.imports[i]));
      } else {
        attempt, started := 0, None;
      }
    }

    /** The message in hand names import `i`. */
    ghost predicate Names(copy: Id, i: Id)
      reads system
    {
      BodyOf(system.st.broker, copy).Decoded? && BodyOf(system.st.broker, copy).payload.importId == i
    }

    method MakeCall(copy: Id, attempt: nat, made: nat, ok: bool, ghost own: seq<Step>)
      requires Has(copy, Calling(attempt, made), own) && made < 3
      modifies system
      ensures Continues(old(system.states), system.states)
      ensures BodyOf(system.st.broker, copy) == old(BodyOf(system.st.broker, copy))
      ensures Has(copy, if ok then Passed(attempt) else Calling(attempt, made + 1), own + [ByWorker(id, Call(ok))])
    {
      system.Others(Working(id));
      assert JobsOk(system.st) by { system.Sound(); }
      ghost var s := system.st;
      system.Act(Working(id), ByWorker(id, Call(ok)));
      CallPhase(s, id, copy, attempt, made, ok, system.st);
    }

    method MakeCalls(copy: Id, attempt: nat, calls: seq<bool>, ghost own: seq<Step>)
      requires Has(copy, Calling(attempt, 0), own)
      requires |calls| <= 3 && forall i :: 0 <= i < |calls| - 1 ==> !calls[i]
      modifies system
      ensures Continues(old(system.states), system.states)
      ensures BodyOf(system.st.broker, copy) == old(BodyOf(system.st.broker, copy))
      ensures Has(copy, AfterCalls(attempt, calls), own + CallSteps(id, calls))
    {
      var n := 0;
      assert own + CallSteps(id, calls[..0]) == own;
      while n < |calls|
        invariant 0 <= n <= |calls| && Continues(old(system.states), system.states)
        invariant Has(copy, AfterCalls(attempt, calls[..n]), own + CallSteps(id, calls[..n]))
        invariant BodyOf(system.st.broker, copy) == old(BodyOf(system.st.broker, copy))
      {
        MakeCall(copy, attempt, n, calls[n], own + CallSteps(id, calls[..n]));
        OneCallMore(id, own, calls, n);
        n := n + 1;
      }
      assert calls[..n] == calls;
    }

    method GiveUp(copy: Id, attempt: nat, made: nat, error: Bytes, ghost own: seq<Step>)
      requires Has(copy, Calling(attempt, made), own) && error != []
      modifies system
      ensures Continues(old(system.states), system.states)
      ensures BodyOf(system.st.broker, copy) == old(BodyOf(system.st.broker, copy))
      ensures Has(copy, Refused(attempt, error), own + [ByWorker(id, Pipeline.GiveUp(error))])
    {
      system.Act(Working(id), ByWorker(id, Pipeline.GiveUp(error)));
    }

    /** `CompleteImport` with SUCCEEDED or DEAD_LETTER. */
    method CompleteImport(copy: Id, phase: Phase, calm: bool, ghost own: seq<Step>, ghost i: Id)
      returns (ok: bool, ghost applied: bool)
      requires Has(copy, phase, own) && (phase.Passed? || phase.Refused?) && Names(copy, i)
      modifies system
      ensures Continues(old(system.states), system.states) && (ok ==> applied) && (applied ==> Recordable(phase))
      ensures calm && Recordable(phase) ==> ok
      ensures applied && phase.Passed? ==> Ended(system.st, i, Succeeded, [])
      ensures applied && phase.Refused? ==> Ended(system.st, i, DeadLetter, SafeMessage(Some(phase.error)))
      ensures Has(copy, if phase.Passed? && ok then Completed else Doomed, own + [ByWorker(id, Complete(applied, ok))])
    {
      system.Others(Working(id));
      assert JobsOk(system.st) by { system.Sound(); }
      var took: bool := *;
      ok := *;
      took := (took || calm) && Recordable(phase);
      ok := took && (ok || calm);
      applied := took;
      ghost var s := system.st;
      system.Act(Working(id), ByWorker(id, Complete(took, ok)));
      CompletePhase(s, id, copy, phase, took, ok, system.st);
      if took {
        CompleteEnds(s, id, ok, system.st);
      }
    }

    /** One acknowledgement or rejection; it reaches the broker at most while the channel is open. */
    method Settle(copy: Id, ack: bool, calm: bool, ghost own: seq<Step>) returns (ghost applied: bool)
      requires Has(copy, if ack then Completed else Doomed, own)
      modifies system
      ensures system.Valid() && Continues(old(system.states), system.states) && !Busy(system.st, id)
      ensures Own(Working(id), system.steps) == own + [ByChannel(id, if ack then Ack(applied) else Nack(applied))]
      ensures calm ==> (applied <==> WorkerOf(system.st, id).attached)
    {
      system.Others(Working(id));
      var arrived: bool := *;
      arrived := (arrived || calm) && WorkerOf(system.st, id).attached;
      applied := arrived;
      system.Act(Working(id), ByChannel(id, if ack then Ack(arrived) else Nack(arrived)));
    }

    /** `failDelivery`. */
    method FailDelivery(copy: Id, calm: bool, ghost before: seq<Step>, ghost handling: seq<Step>, verdict: Verdict,
                        ghost calls: seq<bool>)
      requires Has(copy, Doomed, before + handling) && Handling(id, handling, verdict, calls) && !verdict.Done?
      modifies system
      ensures system.Valid() && Continues(old(system.states), system.states) && !Busy(system.st, id)
      ensures Delivered(id, before, Own(Working(id), system.steps), verdict, calls)
    {
      ghost var applied := Settle(copy, false, calm, before + handling);
      Composed(id, before, handling, Own(Working(id), system.steps), verdict, calls, applied);
    }

    method Acknowledge(copy: Id, calm: bool, ghost before: seq<Step>, ghost handling: seq<Step>, ghost calls: seq<bool>)
      requires Has(copy, Completed, before + handling) && Handling(id, handling, Done, calls)
      modifies system
      ensures system.Valid() && Continues(old(system.states), system.states) && !Busy(system.st, id)
      ensures Delivered(id, before, Own(Working(id), system.steps), Done, calls)
    {
      ghost var applied := Settle(copy, true, calm, before + handling);
      Composed(id, before, handling, Own(Working(id), system.steps), Done, calls, applied);
    }

    /** After the integration failed: DEAD_LETTER, whatever becomes of that update, and a rejection. Without failures
        the update is recorded exactly if the error text can be stored. */
    method Reject(copy: Id, attempt: nat, calls: seq<bool>, error: Bytes, calm: bool, ghost before: seq<Step>,
                  ghost i: Id)
      returns (recorded: bool)
      requires Has(copy, Calling(attempt, |calls|), before + [ByWorker(id, Start(true, true))] + CallSteps(id, calls))
      requires error != [] && Names(copy, i)
      modifies system
      ensures system.Valid() && Continues(old(system.states), system.states) && !Busy(system.st, id)
      ensures Delivered(id, before, Own(Working(id), system.steps), Rejected(error, recorded), calls)
      ensures recorded ==> Storable(SafeMessage(Some(error)))
      ensures recorded ==> EndedSince(system.states, |old(system.states)|, i, DeadLetter, SafeMessage(Some(error)))
      ensures calm ==> (recorded <==> Storable(SafeMessage(Some(error))))
    {
      ghost var called := [ByWorker(id, Start(true, true))] + CallSteps(id, calls);
      assert before + called == before + [ByWorker(id, Start(true, true))] + CallSteps(id, calls);
      GiveUp(copy, attempt, |calls|, error, before + called);
      ghost var applied;
      recorded, applied := CompleteImport(copy, Refused(attempt, error), calm,
                                          before + called + [ByWorker(id, Pipeline.GiveUp(error))], i);
      ghost var reached := system.states;
      assert recorded ==> EndedSince(reached, |old(system.states)|, i, DeadLetter, SafeMessage(Some(error)));
      ghost var handling := called + [ByWorker(id, Pipeline.GiveUp(error)), ByWorker(id, Complete(applied, recorded))];
      assert before + handling
          == before + called + [ByWorker(id, Pipeline.GiveUp(error))] + [ByWorker(id, Complete(applied, recorded))];
      FailDelivery(copy, calm, before, handling, Rejected(error, recorded), calls);
      if recorded {
        StillEnded(reached, system.states, |old(system.states)|, i, DeadLetter, SafeMessage(Some(error)));
      }
    }

    /** After the integration succeeded: SUCCEEDED, and an acknowledgement only if that update is reported. */
    method Finish(copy: Id, attempt: nat, calls: seq<bool>, calm: bool, ghost before: seq<Step>, ghost i: Id)
      returns (verdict: Verdict)
      requires Has(copy, Passed(attempt), before + [ByWorker(id, Start(true, true))] + CallSteps(id, calls))
      requires Names(copy, i)
      modifies system
      ensures system.Valid() && Continues(old(system.states), system.states) && !Busy(system.st, id)
      ensures verdict.Done? || (verdict.NotCompleted? && !calm)
      ensures verdict.Done? ==> EndedSince(system.states, |old(system.states)|, i, Succeeded, [])
      ensures Delivered(id, before, Own(Working(id), system.steps), verdict, calls)
    {
      ghost var called := [ByWorker(id, Start(true, true))] + CallSteps(id, calls);
      assert before + called == before + [ByWorker(id, Start(true, true))] + CallSteps(id, calls);
      ghost var applied;
      var ok;
      ok, applied := CompleteImport(copy, Passed(attempt), calm, before + called, i);
      ghost var reached := system.states;
      assert ok ==> EndedSince(reached, |old(system.states)|, i, Succeeded, []);
      ghost var handling := called + [ByWorker(id, Complete(applied, ok))];
      assert before + handling == before + called + [ByWorker(id, Complete(applied, ok))];
      if ok {
        verdict := Done;
        Acknowledge(copy, calm, before, handling, calls);
        StillEnded(reached, system.states, |old(system.states)|, i, Succeeded, []);
      } else {
        verdict := NotCompleted;
        FailDelivery(copy, calm, before, handling, verdict, calls);
      }
    }

    /** The integration client's outcome for the imports of this worker. */
    ghost function Outcome(history: seq<Breaker.Op>, counter: Simulator.Counter, request: Simulator.Request,
                           env: nat -> Integration.Attempt, now: int): Integration.Outcome
      reads integration.breaker, integration.target
    {
      Integration.Processed(integration.breaker.config, history, integration.target.labMode, counter, request, env, now)
    }

    method ProcessStarted(copy: Id, attempt: nat, request: Simulator.Request, env: nat -> Integration.Attempt, now: int,
                          detail: Bytes, calm: bool, ghost before: seq<Step>, ghost i: Id)
      returns (verdict: Verdict, calls: seq<bool>)
      requires Has(copy, Calling(attempt, 0), before + [ByWorker(id, Start(true, true))]) && integration.breaker.Valid()
      requires Names(copy, i)
      modifies system, integration.breaker, integration.target
      ensures system.Valid() && Continues(old(system.states), system.states) && !Busy(system.st, id)
      ensures Delivered(id, before, Own(Working(id), system.steps), verdict, calls)
      ensures var o := old(Outcome(integration.breaker.history, integration.target.requests, request, env, now));
              && calls == o.calls && (verdict.Rejected? <==> o.error.Some?)
                  && (verdict.Rejected? || (verdict.NotCompleted? && !calm) || verdict.Done?)
                  && (verdict.Rejected? ==> Explained(verdict, o.error.value, detail, calm))
              && integration.breaker.Valid() && integration.target.requests == o.counter
              && integration.breaker.history
                 == Integration.HistoryAfter(integration.breaker.config, old(integration.breaker.history), o, now)
      ensures old(Breaker.Quiescent(integration.breaker.config, integration.breaker.history))
              ==> Breaker.Quiescent(integration.breaker.config, integration.breaker.history)
      ensures Recorded(system.states, |old(system.states)|, i, verdict)
    {
      var o := integration.Process(request, env, now);
      calls := o.calls;
      MakeCalls(copy, attempt, calls, before + [ByWorker(id, Start(true, true))]);
      match o.error
      case Some(error) =>
        var recorded := Reject(copy, attempt, calls, ErrorText(error, detail), calm, before, i);
        verdict := Rejected(ErrorText(error, detail), recorded);
      case None =>
        verdict := Finish(copy, attempt, calls, calm, before, i);
    }

    /** `processDelivery`. */
    method ProcessDelivery(copy: Id, env: nat -> Integration.Attempt, now: int, detail: Bytes, calm: bool,
                           ghost before: seq<Step>)
      returns (verdict: Verdict, calls: seq<bool>, ghost request: Option<Simulator.Request>)
      requires Has(copy, Received, before) && integration.breaker.Valid()
      modifies system, integration.breaker, integration.target
      ensures system.Valid() && Continues(old(system.states), system.states) && !Busy(system.st, id)
      ensures Delivered(id, before, Own(Working(id), system.steps), verdict, calls)
      ensures verdict.NotDecoded? <==> old(BodyOf(system.st.broker, copy)).Malformed?
      ensures verdict.NotDecoded? || verdict.NotStarted? <==> request.None?
      ensures calm ==> !verdict.NotCompleted? && (verdict.NotStarted? ==> !old(OnRow(system.st, copy)))
      // An import that was not started makes no call and is nothing to the breaker.
      ensures request.None? ==> calls == [] && integration.breaker.history == old(integration.breaker.history)
                                && integration.target.requests == old(integration.target.requests)
      ensures request.Some? ==>
                var o := old(Outcome(integration.breaker.history, integration.target.requests, request.value, env,
                    now));
                && Simulator.Acceptable(request.value) && calls == o.calls && (verdict.Rejected? <==> o.error.Some?)
                && (verdict.Rejected? ==> Explained(verdict, o.error.value, detail, calm))
                && integration.target.requests == o.counter
                && integration.breaker.history
                 == Integration.HistoryAfter(integration.breaker.config, old(integration.breaker.history), o, now)
      // The request is about the import that the message names, and about no other.
      ensures request.Some? ==>
                old(BodyOf(system.st.broker, copy)).Decoded?
                && Concerns(system.st, old(BodyOf(system.st.broker, copy)).payload.importId, request.value)
      // What becomes of it, and that its row says so.
      ensures request.Some? ==>
                && ComesTo(integration.target.labMode,
                            old(Breaker.Admits(integration.breaker.config, integration.breaker.history, now)), env,
                            system.st.imports[old(BodyOf(system.st.broker, copy)).payload.importId].source, verdict,
                            calls, detail)
                && Recorded(system.states, |old(system.states)|,
                            old(BodyOf(system.st.broker, copy)).payload.importId, verdict)
      ensures integration.breaker.Valid()
      ensures old(Breaker.Quiescent(integration.breaker.config, integration.breaker.history))
              ==> Breaker.Quiescent(integration.breaker.config, integration.breaker.history)
    {
      calls, request := [], None;
      if BodyOf(system.st.broker, copy).Malformed? {
        verdict := NotDecoded;
        BadBody(copy, before);
        FailDelivery(copy, calm, before, [ByWorker(id, Pipeline.BadBody)], verdict, calls);
        return;
      }
      ghost var attempt, applied;
      var started;
      started, attempt, applied := StartProcessing(copy, calm, before);
      if started.None? {
        verdict := NotStarted;
        FailDelivery(copy, calm, before, [ByWorker(id, Start(applied, false))], verdict, calls);
        return;
      }
      request := started;
      ghost var i := RowOf(system.st, copy);
      ghost var states, steps := system.states, system.steps;
      verdict, calls := ProcessStarted(copy, JobOf(system.st, id).phase.attempt, started.value, env, now, detail, calm,
          before, i);
      StillConcerns(states, steps, system.states, system.steps, i, started.value);
      OutcomeComesTo(integration.breaker.config, old(integration.breaker.history), integration.target.labMode,
          old(integration.target.requests), started.value, env, now, verdict, calls, detail);
    }

    /** The next delivery, if there is one; nothing when the stream is closed. */
    method Receive() returns (copy: Option<Id>)
      requires system.Valid() && !Busy(system.st, id)
      modifies system
      ensures system.Valid() && Continues(old(system.states), system.states)
      ensures copy.None? ==>
                !Busy(system.st, id) && Own(Working(id), system.steps) == Own(Working(id), old(system.steps))
      ensures copy.Some? ==>
                Has(copy.value, Received, Own(Working(id), old(system.steps)) + [ByChannel(id, Take(copy.value))])
    {
      system.Others(Working(id));
      var waiting := set c | c in system.st.broker.unacked && system.st.broker.unacked[c] == Delivery(id, false);
      if WorkerOf(system.st, id).attached && waiting != {} {
        var next :| next in waiting;
        system.Act(Working(id), ByChannel(id, Take(next)));
        copy := Some(next);
      } else {
        copy := None;
      }
    }

    /** Between two deliveries: `taken` of them were served, and no probe of the breaker is in flight. */
    ghost predicate Idle(taken: nat)
      reads system, integration.breaker
    {
      (
        && system.Valid() && !Busy(system.st, id) && Served(id, Own(Working(id), system.steps), taken)
        && integration.breaker.Valid() && Breaker.Quiescent(integration.breaker.config, integration.breaker.history)
      ) == true
    }

    method Round(ghost taken: nat) returns (served: bool)
      requires Idle(taken)
      modifies system, integration.breaker, integration.target
      ensures Continues(old(system.states), system.states)
      ensures Idle(if served then taken + 1 else taken)
    {
      var copy := Receive();
      served := copy.Some?;
      if served {
        var env: nat -> Integration.Attempt, now: int, detail: Bytes, calm: bool := *, *, *, *;
        ghost var before := Own(Working(id), old(system.steps));
        var verdict, calls, request := ProcessDelivery(copy.value, env, now, detail, calm,
                                                       before + [ByChannel(id, Take(copy.value))]);
        OneMoreServed(id, before, taken, copy.value, Own(Working(id), system.steps), verdict, calls);
      }
    }

    /** `Run`, for some rounds of its loop: deliveries are worked on strictly one at a time. */
    method Run(rounds: nat) returns (taken: nat)
      requires Idle(0)
      modifies system, integration.breaker, integration.target
      ensures Continues(old(system.states), system.states) && Idle(taken) && taken <= rounds
    {
      taken := 0;
      var round := 0;
      while round < rounds
        invariant taken <= round <= rounds && Continues(old(system.states), system.states) && Idle(taken)
      {
        var served := Round(taken);
        taken := if served then taken + 1 else taken;
        round := round + 1;
      }
    }
  }
}
