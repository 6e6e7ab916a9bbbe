/** The integration client: up to three calls around one admission of the circuit breaker. */
module Integration {
  import opened Text
  import opened Breaker
  import opened Simulator

  const MAX_ATTEMPTS := 3
  const BACKOFF_MS := 200
  const CLIENT_CONFIG := Config(3, 15_000)

  /** What the network makes of one call: the target answers, the request or the reply is lost,
      or someone else at the same address answers. */
  datatype Network = Delivered | RequestLost | ReplyLost | Foreign(status: int)

  /** The surroundings of one attempt: whether the context ended during the backoff before it,
      how late the timer or the end of the context came, and how the call went. */
  datatype Attempt = Attempt(cancelled: bool, late: nat, network: Network, clientLeft: bool, took: nat)

  datatype ProcessError = CircuitOpen | ContextDone | CallsFailed

  datatype Outcome = Outcome(calls: seq<bool>, error: Option<ProcessError>, counter: Counter, finished: int)

  /** One HTTP call: the counter it leaves behind and whether it counts as a success. */
  function Call(lab: bool, counter: Counter, r: Request, a: Attempt): (Counter, bool) {
    match a.network
    case RequestLost => (counter, false)
    case Foreign(status) => (counter, 200 <= status < 300)
    case ReplyLost => (Answer(lab, counter, r, a.clientLeft).0, false)
    case Delivered => var (next, reply) := Answer(lab, counter, r, a.clientLeft); (next, Success2xx(reply))
  }

  /** When attempt `k` makes its call: retries wait 200 ms, then 400 ms. */
  function Started(k: nat, now: int, a: Attempt): int {
    if k > 1 then now + (k - 1) * BACKOFF_MS + a.late else now
  }

  /** What the attempts from number `k` on come to. */
  function Attempts(lab: bool, counter: Counter, r: Request, env: nat -> Attempt, k: nat, now: int): Outcome
    requires 1 <= k <= MAX_ATTEMPTS + 1
    decreases MAX_ATTEMPTS + 1 - k
  {
    if k == MAX_ATTEMPTS + 1 then Outcome([], Some(CallsFailed), counter, now)
    else if k > 1 && env(k).cancelled then Outcome([], Some(ContextDone), counter, now + env(k).late)
    else
      var started := Started(k, now, env(k));
      var (next, ok) := Call(lab, counter, r, env(k));
      if ok then Outcome([true], None, next, started + env(k).took)
      else
        var rest := Attempts(lab, next, r, env, k + 1, started + env(k).took);
        Prepend([false], rest)
  }

  /** Only the last call can have succeeded, and the outcome is a success exactly if it did. */
  ghost predicate Shaped(o: Outcome, most: nat, now: int) {
    (
      && |o.calls| <= most
      && (forall i :: 0 <= i < |o.calls| - 1 ==> !o.calls[i])
      && (o.error == None <==> o.calls != [] && o.calls[|o.calls| - 1])
      && (o.error == Some(CallsFailed) ==> |o.calls| == most)
      && o.error != Some(CircuitOpen)
      && o.finished >= now
    ) == true
  }

  /** What the waits before the attempts from number `k` to number `last` come to. */
  function Waits(k: nat, last: nat): nat
    requires last <= 3
  {
    (if k <= 2 <= last then 200 else 0) + (if k <= 3 <= last then 400 else 0)
  }

  lemma WaitsFrom(k: nat, last: nat, now: int, a: Attempt)
    requires 1 <= k <= last <= 3
    ensures Started(k, now, a) + a.took + Waits(k + 1, last) >= now + Waits(k, last)
  {
  }

  /** The calls of an import are at least 200 ms, then 400 ms apart. */
  lemma {:induction false} CallsApart(lab: bool, counter: Counter, r: Request, env: nat -> Attempt, k: nat, now: int)
    requires 1 <= k <= 4
    ensures var o := Attempts(lab, counter, r, env, k, now);
            k + |o.calls| <= 4 && o.finished >= now + Waits(k, k + |o.calls| - 1)
    decreases 4 - k
  {
    if k <= 3 && !(k > 1 && env(k).cancelled) {
      var (next, ok) := Call(lab, counter, r, env(k));
      var later := Started(k, now, env(k)) + env(k).took;
      AttemptsStep(lab, counter, r, env, k, now, next, ok, later);
      if !ok {
        CallsApart(lab, next, r, env, k + 1, later);
        WaitsFrom(k, k + |Attempts(lab, next, r, env, k + 1, later).calls|, now, env(k));
      }
    }
  }

  ghost predicate NoDelay(env: nat -> Attempt) { forall a :: env(a).late == 0 && env(a).took == 0 }

  /** They are exactly that where nothing else takes time. */
  lemma {:induction false} CallsNoFurtherApart(lab: bool, counter: Counter, r: Request, env: nat -> Attempt, k: nat,
                                               now: int)
    requires 1 <= k <= 4 && NoDelay(env)
    ensures var o := Attempts(lab, counter, r, env, k, now);
            k + |o.calls| <= 4 && o.finished == now + Waits(k, k + |o.calls| - 1)
    decreases 4 - k
  {
    if k <= 3 && !(k > 1 && env(k).cancelled) {
      var (next, ok) := Call(lab, counter, r, env(k));
      if !ok {
        CallsNoFurtherApart(lab, next, r, env, k + 1, Started(k, now, env(k)) + env(k).took);
      }
    }
  }

  lemma FailedCallFirst(rest: Outcome, most: nat, now: int, earlier: int)
    requires Shaped(rest, most, now) && earlier <= now
    ensures Shaped(Prepend([false], rest), most + 1, earlier)
  {
    var calls := [false] + rest.calls;
    assert forall i :: 1 <= i < |calls| ==> calls[i] == rest.calls[i - 1];
    if rest.calls != [] {
      assert calls[|calls| - 1] == rest.calls[|rest.calls| - 1];
    }
  }

  lemma {:induction false} AttemptsShape(lab: bool, counter: Counter, r: Request, env: nat -> Attempt, k: nat, now: int)
    requires 1 <= k <= MAX_ATTEMPTS + 1
    ensures Shaped(Attempts(lab, counter, r, env, k, now), MAX_ATTEMPTS + 1 - k, now)
    decreases MAX_ATTEMPTS + 1 - k
  {
    if k <= MAX_ATTEMPTS && !(k > 1 && env(k).cancelled) {
      var (next, ok) := Call(lab, counter, r, env(k));
      var later := Started(k, now, env(k)) + env(k).took;
      AttemptsStep(lab, counter, r, env, k, now, next, ok, later);
      if !ok {
        AttemptsShape(lab, next, r, env, k + 1, later);
        FailedCallFirst(Attempts(lab, next, r, env, k + 1, later), MAX_ATTEMPTS - k, later, now);
      }
    }
  }

  lemma FirstCall(lab: bool, counter: Counter, r: Request, env: nat -> Attempt, now: int)
    ensures Attempts(lab, counter, r, env, 1, now).calls != []
  {
  }

  function Prepend(calls: seq<bool>, o: Outcome): Outcome { o.(calls := calls + o.calls) }

  lemma PrependFailed(calls: seq<bool>, rest: Outcome)
    ensures Prepend(calls, Prepend([false], rest)) == Prepend(calls + [false], rest)
  {
    assert calls + ([false] + rest.calls) == (calls + [false]) + rest.calls;
  }

  lemma AttemptsStep(lab: bool, counter: Counter, r: Request, env: nat -> Attempt, k: nat, now: int,
                     next: Counter, ok: bool, after: int)
    requires 1 <= k <= MAX_ATTEMPTS && (k > 1 ==> !env(k).cancelled)
    requires (next, ok) == Call(lab, counter, r, env(k)) && after == Started(k, now, env(k)) + env(k).took
    ensures ok ==> Attempts(lab, counter, r, env, k, now) == Outcome([true], None, next, after)
    ensures !ok ==>
              Attempts(lab, counter, r, env, k, now) == Prepend([false], Attempts(lab, next, r, env, k + 1, after))
  {
  }

  /** The whole call, breaker included. */
  function Processed(c: Config, h: seq<Op>, lab: bool, counter: Counter, r: Request, env: nat -> Attempt,
                     now: int): Outcome {
    if Admits(c, h, now) then Attempts(lab, counter, r, env, 1, now)
    else Outcome([], Some(CircuitOpen), counter, now)
  }

  lemma ProcessedShape(c: Config, h: seq<Op>, lab: bool, counter: Counter, r: Request, env: nat -> Attempt, now: int)
    ensures var o := Processed(c, h, lab, counter, r, env, now);
            && (o.error == Some(CircuitOpen) <==> !Admits(c, h, now))
            && (o.error == Some(CircuitOpen) <==> o.calls == [])
            && |o.calls| <= 3 && (forall i :: 0 <= i < |o.calls| - 1 ==> !o.calls[i])
            && (o.error == None <==> o.calls != [] && o.calls[|o.calls| - 1])
            && o.finished >= now + (if |o.calls| == 2 then 200 else if |o.calls| == 3 then 600 else 0)
  {
    AttemptsShape(lab, counter, r, env, 1, now);
    FirstCall(lab, counter, r, env, now);
    CallsApart(lab, counter, r, env, 1, now);
  }

  function HistoryAfter(c: Config, h: seq<Op>, o: Outcome, now: int): seq<Op> {
    if o.error == Some(CircuitOpen) then h + [Op.Allow(now)]
    else if o.error == None then h + [Op.Allow(now)] + [Op.Success]
    else h + [Op.Allow(now)] + [Op.Failure(o.finished)]
  }

  /** A failure counts as one, from the moment it ended. */
  lemma OneFailure(c: Config, h: seq<Op>, o: Outcome, now: int)
    requires o.error.Some? && o.error != Some(CircuitOpen)
    ensures HistoryAfter(c, h, o, now) == h + [Op.Allow(now)] + [Op.Failure(o.finished)]
    ensures FailuresSinceSuccess(HistoryAfter(c, h, o, now)) == FailuresSinceSuccess(h) + 1
    ensures LastFailureAt(HistoryAfter(c, h, o, now)) == o.finished
  {
    Snoc(h, Op.Allow(now));
    Snoc(h + [Op.Allow(now)], Op.Failure(o.finished));
  }

  /** However an admitted or refused call ends, it leaves a quiescent breaker quiescent. */
  lemma StaysQuiescent(c: Config, h: seq<Op>, now: int)
    ensures Quiescent(c, h + [Op.Allow(now)] + [Op.Success])
    ensures forall t :: Quiescent(c, h + [Op.Allow(now)] + [Op.Failure(t)])
    ensures Quiescent(c, h) && !Admits(c, h, now) ==> Quiescent(c, h + [Op.Allow(now)])
  {
    Snoc(h, Op.Allow(now));
    Snoc(h + [Op.Allow(now)], Op.Success);
    forall t
      ensures Quiescent(c, h + [Op.Allow(now)] + [Op.Failure(t)])
    {
      Snoc(h + [Op.Allow(now)], Op.Failure(t));
    }
  }

  /** Whether the simulator answers a request that reaches it with a status from 200 to 299: the request is valid, and
      no lab case keeps it from succeeding. */
  predicate OkReply(lab: bool, counter: Counter, r: Request, clientLeft: bool) {
    && r.importId != "" && r.records >= 1
    && (lab ==> r.source != "force-error" && (r.source == "slow" ==> !clientLeft)
                && (r.source == "flaky" ==> counter % 2 == 1))
  }

  /** The simulator's counter after a request that reached it. */
  function CountedBy(counter: Counter, r: Request): Counter {
    if r.importId == "" || r.records < 1 then counter
    else if counter == 18446744073709551615 then 0
    else counter + 1
  }

  class IntegrationClient {
    const breaker: CircuitBreaker
    const target: Handler

    constructor (target: Handler)
      ensures this.target == target && fresh(breaker)
      ensures breaker.Valid() && breaker.history == [] && breaker.config == CLIENT_CONFIG
    {
      this.target := target;
      breaker := new CircuitBreaker(CLIENT_CONFIG);
    }

    /** `Process` of one import at time `now`; `env` is what the surroundings do at each attempt. */
    method Process(r: Request, env: nat -> Attempt, now: int) returns (o: Outcome)
      requires breaker.Valid()
      modifies breaker, target
      ensures breaker.Valid()
      // What it comes to is the specification's outcome, for every behaviour of the surroundings.
      ensures o == Processed(breaker.config, old(breaker.history), target.labMode, old(target.requests), r, env, now)
      ensures target.requests == o.counter
      // An admitted call makes one to three calls, stops at the first success and reports exactly once.
      ensures o.error == Some(CircuitOpen) <==> !Admits(breaker.config, old(breaker.history), now)
      ensures o.error == Some(CircuitOpen) <==> o.calls == []
      ensures |o.calls| <= 3 && forall i :: 0 <= i < |o.calls| - 1 ==> !o.calls[i]
      ensures o.error == None <==> o.calls != [] && o.calls[|o.calls| - 1]
      ensures breaker.history == HistoryAfter(breaker.config, old(breaker.history), o, now)
      // No probe stays behind, so the next call is never refused because of one.
      ensures old(Quiescent(breaker.config, breaker.history)) ==> Quiescent(breaker.config, breaker.history)
      ensures o.finished >= now + (if |o.calls| == 2 then 200 else if |o.calls| == 3 then 600 else 0)
    {
      ghost var h := breaker.history;
      StaysQuiescent(breaker.config, h, now);
      var admitted := breaker.Allow(now);
      if !admitted {
        return Outcome([], Some(CircuitOpen), target.requests, now);
      }
      ProcessedShape(breaker.config, h, target.labMode, target.requests, r, env, now);
      o := Retry(r, env, now);
      match o.error
      case None =>
        breaker.Success();
      case Some(_) =>
        breaker.Failure(o.finished);
    }

    /** The retry loop of `Process`, between the admission and the report to the breaker. */
    method Retry(r: Request, env: nat -> Attempt, now: int) returns (o: Outcome)
      modifies target
      ensures o == Attempts(target.labMode, old(target.requests), r, env, 1, now)
      ensures target.requests == o.counter
    {
      ghost var lab := target.labMode;
      ghost var whole := Attempts(lab, target.requests, r, env, 1, now);
      var calls: seq<bool> := [];
      var clock := now;
      var attempt := 1;
      assert calls + whole.calls == whole.calls;
      while attempt <= MAX_ATTEMPTS
        invariant 1 <= attempt <= MAX_ATTEMPTS + 1
        invariant whole == Prepend(calls, Attempts(lab, target.requests, r, env, attempt, clock))
      {
        ghost var before, began := target.requests, clock;
        if attempt > 1 && env(attempt).cancelled {
          assert calls + [] == calls;
          return Outcome(calls, Some(ContextDone), target.requests, clock + env(attempt).late);
        }
        clock := Started(attempt, clock, env(attempt));
        var ok := Send(r, env(attempt));
        clock := clock + env(attempt).took;
        AttemptsStep(lab, before, r, env, attempt, began, target.requests, ok, clock);
        if ok {
          return Outcome(calls + [true], None, target.requests, clock);
        }
        PrependFailed(calls, Attempts(lab, target.requests, r, env, attempt + 1, clock));
        calls := calls + [false];
        attempt := attempt + 1;
      }
      assert calls + [] == calls;
      o := Outcome(calls, Some(CallsFailed), target.requests, clock);
    }

    method Send(r: Request, a: Attempt) returns (ok: bool)
      modifies target
      ensures (target.requests, ok) == Call(target.labMode, old(target.requests), r, a)
      // A success is a status from 200 to 299 that arrives, whoever sent it.
      ensures a.network.RequestLost? ==> !ok && target.requests == old(target.requests)
      ensures a.network.ReplyLost? ==> !ok
      ensures a.network.Foreign? ==> (ok <==> 200 <= a.network.status < 300) && target.requests == old(target.requests)
      ensures a.network.Delivered? ==> (ok <==> OkReply(target.labMode, old(target.requests), r, a.clientLeft))
      ensures a.network.Delivered? || a.network.ReplyLost? ==>
                target.requests == CountedBy(old(target.requests), r)
    {
      match a.network
      case RequestLost =>
        ok := false;
      case Foreign(status) =>
        ok := 200 <= status < 300;
      case ReplyLost =>
        var _ := target.Process(r, a.clientLeft);
        ok := false;
      case Delivered =>
        var reply := target.Process(r, a.clientLeft);
        ok := Success2xx(reply);
    }
  }

  // ---------------------------------------------------------------- against the simulator

  /** No cancellation, nothing lost, nobody else answering. */
  ghost predicate Calm(env: nat -> Attempt) {
    forall k :: !env(k).cancelled && env(k).network == Delivered && !env(k).clientLeft
  }

  /** In lab mode an admitted flaky import succeeds within two calls from any counter value,
      and closes the breaker. */
  lemma FlakySucceeds(c: Config, h: seq<Op>, counter: Counter, r: Request, env: nat -> Attempt, now: int)
    requires Calm(env) && Acceptable(r) && r.source == "flaky" && Admits(c, h, now)
    ensures var o := Processed(c, h, true, counter, r, env, now);
            && o.error == None && (o.calls == [true] || o.calls == [false, true])
            && FailuresSinceSuccess(HistoryAfter(c, h, o, now)) == 0
            && !Tripped(c, HistoryAfter(c, h, o, now))
  {
    FlakyAlternates(counter, r, r, false);
    var (next, ok) := Call(true, counter, r, env(1));
    assert env(1).network == env(2).network == Delivered && !env(2).cancelled;
    var o := Processed(c, h, true, counter, r, env, now);
    if !ok {
      assert Call(true, next, r, env(2)).1;
    }
    Snoc(h + [Op.Allow(now)], Op.Success);
  }

  /** An admitted import that is no lab case of a failure succeeds with its first call. */
  lemma PlainSucceeds(c: Config, h: seq<Op>, lab: bool, counter: Counter, r: Request, env: nat -> Attempt, now: int)
    requires Calm(env) && r.importId != "" && r.records >= 1 && Admits(c, h, now)
    requires lab ==> r.source != "force-error" && r.source != "flaky"
    ensures Processed(c, h, lab, counter, r, env, now).calls == [true]
    ensures Processed(c, h, lab, counter, r, env, now).error == None
  {
    assert env(1).network == Delivered;
    assert Call(lab, counter, r, env(1)).1;
  }

  /** In lab mode an admitted force-error import makes exactly three calls and records one Failure. */
  lemma ForcedFails(c: Config, h: seq<Op>, counter: Counter, r: Request, env: nat -> Attempt, now: int)
    requires Calm(env) && Acceptable(r) && r.source == "force-error" && Admits(c, h, now)
    ensures var o := Processed(c, h, true, counter, r, env, now);
            && o.error == Some(CallsFailed) && o.calls == [false, false, false]
            && FailuresSinceSuccess(HistoryAfter(c, h, o, now)) == FailuresSinceSuccess(h) + 1
            && LastFailureAt(HistoryAfter(c, h, o, now)) == o.finished
  {
    assert env(1).network == env(2).network == env(3).network == Delivered;
    assert !env(2).cancelled && !env(3).cancelled;
    var c1 := Call(true, counter, r, env(1)).0;
    var c2 := Call(true, c1, r, env(2)).0;
    var o := Processed(c, h, true, counter, r, env, now);
    assert !Call(true, counter, r, env(1)).1 && !Call(true, c1, r, env(2)).1 && !Call(true, c2, r, env(3)).1;
    OneFailure(c, h, o, now);
  }

  // ---------------------------------------------------------------- against a target that is not there

  /** No status from 200 to 299 arrives: every request or reply is lost, or something else answers with another
      status. */
  ghost predicate Down(env: nat -> Attempt) {
    forall k :: env(k).network == RequestLost || env(k).network == ReplyLost
                || (env(k).network.Foreign? && !(200 <= env(k).network.status < 300))
  }

  /** A call to a target that is down fails. */
  lemma DownCall(lab: bool, counter: Counter, r: Request, env: nat -> Attempt, k: nat)
    requires Down(env)
    ensures !Call(lab, counter, r, env(k)).1
  {
  }

  ghost predicate AllFailed(o: Outcome) { (o.error.Some? && true !in o.calls) == true }

  lemma StillAllFailed(rest: Outcome)
    requires AllFailed(rest)
    ensures AllFailed(Prepend([false], rest))
  {
  }

  lemma {:induction false} DownAttempts(lab: bool, counter: Counter, r: Request, env: nat -> Attempt, k: nat, now: int)
    requires Down(env) && 1 <= k <= 4
    ensures AllFailed(Attempts(lab, counter, r, env, k, now))
    decreases 4 - k
  {
    if k <= 3 && !(k > 1 && env(k).cancelled) {
      var (next, ok) := Call(lab, counter, r, env(k));
      var later := Started(k, now, env(k)) + env(k).took;
      DownCall(lab, counter, r, env, k);
      AttemptsStep(lab, counter, r, env, k, now, next, ok, later);
      DownAttempts(lab, next, r, env, k + 1, later);
      StillAllFailed(Attempts(lab, next, r, env, k + 1, later));
    }
  }

  ghost predicate NeverCancelled(env: nat -> Attempt) { forall a :: !env(a).cancelled }

  lemma {:induction false} UncancelledAttempts(lab: bool, counter: Counter, r: Request, env: nat -> Attempt, k: nat,
                                               now: int)
    requires NeverCancelled(env) && 1 <= k <= 4
    ensures var o := Attempts(lab, counter, r, env, k, now); o.error.Some? ==> |o.calls| == 4 - k
    decreases 4 - k
  {
    if k <= 3 && !(k > 1 && env(k).cancelled) {
      var (next, ok) := Call(lab, counter, r, env(k));
      var later := Started(k, now, env(k)) + env(k).took;
      AttemptsStep(lab, counter, r, env, k, now, next, ok, later);
      UncancelledAttempts(lab, next, r, env, k + 1, later);
    }
  }

  lemma DownCalls(lab: bool, counter: Counter, r: Request, env: nat -> Attempt, now: int)
    requires Down(env)
    ensures var o := Attempts(lab, counter, r, env, 1, now);
            && o.error.Some? && o.error != Some(CircuitOpen) && o.calls != [] && true !in o.calls
            && (NeverCancelled(env) ==> o.calls == [false, false, false])
  {
    AttemptsShape(lab, counter, r, env, 1, now);
    FirstCall(lab, counter, r, env, now);
    DownAttempts(lab, counter, r, env, 1, now);
    if NeverCancelled(env) {
      UncancelledAttempts(lab, counter, r, env, 1, now);
    }
  }

  /** While the target is down, an admitted import fails, and the breaker learns of it. */
  lemma DownFails(c: Config, h: seq<Op>, lab: bool, counter: Counter, r: Request, env: nat -> Attempt, now: int)
    requires Down(env) && Admits(c, h, now)
    ensures var o := Processed(c, h, lab, counter, r, env, now);
            && o.error.Some? && o.calls != [] && true !in o.calls
            && (NeverCancelled(env) ==> o.calls == [false, false, false])
            && HistoryAfter(c, h, o, now) == h + [Op.Allow(now)] + [Op.Failure(o.finished)]
            && FailuresSinceSuccess(HistoryAfter(c, h, o, now)) == FailuresSinceSuccess(h) + 1
            && LastFailureAt(HistoryAfter(c, h, o, now)) == o.finished
  {
    DownCalls(lab, counter, r, env, now);
    OneFailure(c, h, Processed(c, h, lab, counter, r, env, now), now);
  }

  /** If the context ends before the second call, there is no second call. */
  lemma DownThenCancelled(c: Config, h: seq<Op>, lab: bool, counter: Counter, r: Request, env: nat -> Attempt, now: int)
    requires Down(env) && Admits(c, h, now) && env(2).cancelled
    ensures var o := Processed(c, h, lab, counter, r, env, now); o.calls == [false] && o.error == Some(ContextDone)
  {
    DownCall(lab, counter, r, env, 1);
  }

  /** The client as it is configured: two failures in a row let every import through; from the third on the next one
      waits until 15 s after the last. */
  lemma ConfiguredIff(h: seq<Op>, now: int)
    requires Quiescent(CLIENT_CONFIG, h)
    ensures Admits(CLIENT_CONFIG, h, now) <==> FailuresSinceSuccess(h) <= 2 || now - LastFailureAt(h) >= 15_000
  {
  }

  function Asks(times: seq<int>): seq<Op> {
    seq(|times|, i requires 0 <= i < |times| => Op.Allow(times[i]))
  }

  lemma AsksSnoc(h: seq<Op>, times: seq<int>)
    requires times != []
    ensures var n := |times| - 1; h + Asks(times) == h + Asks(times[..n]) + [Op.Allow(times[n])]
  {
    var n := |times| - 1;
    assert Asks(times) == Asks(times[..n]) + [Op.Allow(times[n])];
  }

  /** What history `g` means for the next ask is what `h` means. */
  ghost predicate Alike(c: Config, h: seq<Op>, g: seq<Op>) {
    (
      && Quiescent(c, g) && FailuresSinceSuccess(g) == FailuresSinceSuccess(h)
      && LastFailureAt(g) == LastFailureAt(h)
    ) == true
  }

  /** None of those who ask at these times after `h` is let through. */
  ghost predicate AllRefused(c: Config, h: seq<Op>, times: seq<int>) {
    forall i :: 0 <= i < |times| ==> !Admits(c, h + Asks(times[..i]), times[i])
  }

  lemma AskRefused(c: Config, h: seq<Op>, g: seq<Op>, now: int)
    requires Tripped(c, h) && Alike(c, h, g) && now - LastFailureAt(h) < c.openFor
    ensures !Admits(c, g, now) && Alike(c, h, g + [Op.Allow(now)])
  {
    Snoc(g, Op.Allow(now));
  }

  lemma OneMoreRefused(c: Config, h: seq<Op>, times: seq<int>, n: nat)
    requires n + 1 == |times| && AllRefused(c, h, times[..n]) && !Admits(c, h + Asks(times[..n]), times[n])
    ensures AllRefused(c, h, times)
  {
    forall i | 0 <= i < |times|
      ensures !Admits(c, h + Asks(times[..i]), times[i])
    {
      if i < n {
        assert times[..n][..i] == times[..i] && times[..n][i] == times[i];
      }
    }
  }

  /** While `openFor` has not passed since the last failure, a tripped breaker refuses everyone,
      however many ask. */
  lemma {:induction false} Blackout(c: Config, h: seq<Op>, times: seq<int>)
    requires Quiescent(c, h) && Tripped(c, h)
    requires forall i :: 0 <= i < |times| ==> times[i] - LastFailureAt(h) < c.openFor
    ensures Alike(c, h, h + Asks(times)) && AllRefused(c, h, times)
    decreases |times|
  {
    if times == [] {
      assert h + Asks(times) == h;
    } else {
      var n := |times| - 1;
      Blackout(c, h, times[..n]);
      AsksSnoc(h, times);
      AskRefused(c, h, h + Asks(times[..n]), times[n]);
      OneMoreRefused(c, h, times, n);
    }
  }

  /** Once a tripped breaker has let its probe through, it refuses everyone until the probe reports, however many
      ask. */
  lemma {:induction false} ProbeAlone(c: Config, h: seq<Op>, probe: int, times: seq<int>, now: int)
    requires Tripped(c, h) && Admits(c, h, probe)
    ensures var g := h + [Op.Allow(probe)] + Asks(times);
            Tripped(c, g) && AdmittedSinceFailure(c, g) && !Admits(c, g, now)
    decreases |times|
  {
    var probing := h + [Op.Allow(probe)];
    Snoc(h, Op.Allow(probe));
    if times == [] {
      assert probing + Asks(times) == probing;
    } else {
      var n := |times| - 1;
      ProbeAlone(c, h, probe, times[..n], now);
      AsksSnoc(probing, times);
      Snoc(probing + Asks(times[..n]), Op.Allow(times[n]));
    }
  }

  /** One import handed to the client: what it asks for, what surrounds it, and when. */
  datatype Job = Job(request: Request, env: nat -> Attempt, at: int)

  /** The configured client and the simulator, and what one import does to both. */
  datatype Lab = Lab(history: seq<Op>, counter: Counter, labMode: bool)

  function InLab(s: Lab, j: Job): Outcome {
    Processed(CLIENT_CONFIG, s.history, s.labMode, s.counter, j.request, j.env, j.at)
  }

  function After(s: Lab, j: Job): Lab {
    Lab(HistoryAfter(CLIENT_CONFIG, s.history, InLab(s, j), j.at), InLab(s, j).counter, s.labMode)
  }

  /** An import that is let through and fails. */
  ghost predicate Fails(s: Lab, j: Job) { Admits(CLIENT_CONFIG, s.history, j.at) && InLab(s, j).error.Some? }

  lemma FailureCounts(s: Lab, j: Job)
    requires Fails(s, j)
    ensures var h := After(s, j).history;
            && Quiescent(CLIENT_CONFIG, h) && FailuresSinceSuccess(h) == FailuresSinceSuccess(s.history) + 1
            && LastFailureAt(h) == InLab(s, j).finished
  {
    AttemptsShape(s.labMode, s.counter, j.request, j.env, 1, j.at);
    StaysQuiescent(CLIENT_CONFIG, s.history, j.at);
    OneFailure(CLIENT_CONFIG, s.history, InLab(s, j), j.at);
  }

  /** A force-error import in lab mode with nothing else in the way, or any import while the target is down. */
  ghost predicate Hopeless(s: Lab, j: Job) {
    || Down(j.env)
    || (s.labMode && Calm(j.env) && Acceptable(j.request) && j.request.source == "force-error")
  }

  lemma HopelessFails(s: Lab, j: Job)
    requires Admits(CLIENT_CONFIG, s.history, j.at) && Hopeless(s, j)
    ensures Fails(s, j)
  {
    if Down(j.env) {
      DownFails(CLIENT_CONFIG, s.history, s.labMode, s.counter, j.request, j.env, j.at);
    } else {
      ForcedFails(CLIENT_CONFIG, s.history, s.counter, j.request, j.env, j.at);
    }
  }

  /** Three imports in a row that are let through and fail: afterwards every import asked for within 15 s of the third
      failure is refused without any call, however many ask in between. */
  lemma ThreeFailuresThenBlackout(s: Lab, a: Job, b: Job, d: Job, between: seq<int>, j: Job)
    requires Fails(s, a) && Fails(After(s, a), b) && Fails(After(After(s, a), b), d)
    requires var failed := InLab(After(After(s, a), b), d).finished;
             j.at - failed < 15_000 && forall i :: 0 <= i < |between| ==> between[i] - failed < 15_000
    ensures var t := After(After(After(s, a), b), d);
            InLab(t.(history := t.history + Asks(between)), j) == Outcome([], Some(CircuitOpen), t.counter, j.at)
  {
    FailureCounts(s, a);
    FailureCounts(After(s, a), b);
    FailureCounts(After(After(s, a), b), d);
    var h := After(After(After(s, a), b), d).history;
    var asked := between + [j.at];
    Blackout(CLIENT_CONFIG, h, asked);
    assert asked[..|between|] == between && asked[|between|] == j.at && AllRefused(CLIENT_CONFIG, h, asked);
  }

  /** An admitted force-error import with nothing else in the way. */
  ghost predicate Forced(s: Lab, j: Job) {
    && s.labMode && Calm(j.env) && Acceptable(j.request) && j.request.source == "force-error"
    && Admits(CLIENT_CONFIG, s.history, j.at)
  }

  /** Three admitted force-error imports in a row, from any moment, are such. */
  lemma ThreeForcedThenBlackout(s: Lab, a: Job, b: Job, d: Job, between: seq<int>, j: Job)
    requires Forced(s, a) && Forced(After(s, a), b) && Forced(After(After(s, a), b), d)
    requires var failed := InLab(After(After(s, a), b), d).finished;
             j.at - failed < 15_000 && forall i :: 0 <= i < |between| ==> between[i] - failed < 15_000
    ensures var t := After(After(After(s, a), b), d);
            InLab(t.(history := t.history + Asks(between)), j) == Outcome([], Some(CircuitOpen), t.counter, j.at)
  {
    HopelessFails(s, a);
    HopelessFails(After(s, a), b);
    HopelessFails(After(After(s, a), b), d);
    ThreeFailuresThenBlackout(s, a, b, d, between, j);
  }

  /** From any moment with no failure since the last success, three hopeless imports in a row, one after the other, are
      let through and fail; so the blackout follows. */
  lemma HopelessThenBlackout(s: Lab, a: Job, b: Job, d: Job, between: seq<int>, j: Job)
    requires FailuresSinceSuccess(s.history) == 0
    requires Hopeless(s, a) && Hopeless(After(s, a), b) && Hopeless(After(After(s, a), b), d)
    requires var failed := InLab(After(After(s, a), b), d).finished;
             j.at - failed < 15_000 && forall i :: 0 <= i < |between| ==> between[i] - failed < 15_000
    ensures |InLab(s, a).calls| > 0 && |InLab(After(s, a), b).calls| > 0 && |InLab(After(After(s, a), b), d).calls| > 0
    ensures var t := After(After(After(s, a), b), d);
            InLab(t.(history := t.history + Asks(between)), j) == Outcome([], Some(CircuitOpen), t.counter, j.at)
  {
    var s1, s2 := After(s, a), After(After(s, a), b);
    HopelessFails(s, a);
    FailureCounts(s, a);
    HopelessFails(s1, b);
    FailureCounts(s1, b);
    HopelessFails(s2, d);
    FirstCall(s.labMode, s.counter, a.request, a.env, a.at);
    FirstCall(s1.labMode, s1.counter, b.request, b.env, b.at);
    FirstCall(s2.labMode, s2.counter, d.request, d.env, d.at);
    ThreeFailuresThenBlackout(s, a, b, d, between, j);
  }

  // ---------------------------------------------------------------- rate over whole runs

  /** The jobs run one after the other on a clock that never runs backwards, within a window, and none succeeds. */
  predicate FailingRun(c: Config, h: seq<Op>, lab: bool, counter: Counter, jobs: seq<Job>, from: int, until: int)
    decreases |jobs|
  {
    jobs == [] ||
    (var o := Processed(c, h, lab, counter, jobs[0].request, jobs[0].env, jobs[0].at);
     && from <= jobs[0].at <= until
     && o.error != None
     && FailingRun(c, HistoryAfter(c, h, o, jobs[0].at), lab, o.counter, jobs[1..], o.finished, until))
  }

  function TotalCalls(c: Config, h: seq<Op>, lab: bool, counter: Counter, jobs: seq<Job>): nat
    decreases |jobs|
  {
    if jobs == [] then 0
    else
      var o := Processed(c, h, lab, counter, jobs[0].request, jobs[0].env, jobs[0].at);
      |o.calls| + TotalCalls(c, HistoryAfter(c, h, o, jobs[0].at), lab, o.counter, jobs[1..])
  }

  function Visits(c: Config, h: seq<Op>, lab: bool, counter: Counter, jobs: seq<Job>): seq<Visit>
    decreases |jobs|
  {
    if jobs == [] then []
    else
      var o := Processed(c, h, lab, counter, jobs[0].request, jobs[0].env, jobs[0].at);
      [Visit(jobs[0].at, o.finished)] + Visits(c, HistoryAfter(c, h, o, jobs[0].at), lab, o.counter, jobs[1..])
  }

  /** The breaker sees a failing run of the client as a run of visits, three calls an admission at most. */
  lemma {:induction false} RunAsVisits(c: Config, h: seq<Op>, lab: bool, counter: Counter, jobs: seq<Job>, from: int,
                                       until: int)
    requires FailingRun(c, h, lab, counter, jobs, from, until)
    ensures var visits := Visits(c, h, lab, counter, jobs);
            Sequential(visits, from, until) && TotalCalls(c, h, lab, counter, jobs) <= 3 * Admissions(c, h, visits)
    decreases |jobs|
  {
    if jobs != [] {
      var j := jobs[0];
      AttemptsShape(lab, counter, j.request, j.env, 1, j.at);
      var o := Processed(c, h, lab, counter, j.request, j.env, j.at);
      var h' := HistoryAfter(c, h, o, j.at);
      RunAsVisits(c, h', lab, o.counter, jobs[1..], o.finished, until);
      assert h' == AfterVisit(c, h, Visit(j.at, o.finished));
    }
  }

  /** With the configured client and no success, any window of T milliseconds sees at most
      9 + 3 * (T / 15 s) HTTP calls, from any quiescent moment and whatever the surroundings do. */
  lemma HttpRateBound(h: seq<Op>, lab: bool, counter: Counter, jobs: seq<Job>, from: int, until: int)
    requires Quiescent(CLIENT_CONFIG, h) && from <= until
    requires FailingRun(CLIENT_CONFIG, h, lab, counter, jobs, from, until)
    ensures TotalCalls(CLIENT_CONFIG, h, lab, counter, jobs) <= 9 + 3 * ((until - from) / 15_000)
  {
    RunAsVisits(CLIENT_CONFIG, h, lab, counter, jobs, from, until);
    RateBound(CLIENT_CONFIG, h, Visits(CLIENT_CONFIG, h, lab, counter, jobs), from, until);
  }
}
