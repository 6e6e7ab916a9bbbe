/** The circuit breaker: a class updated in place, specified by its history of calls alone. */
module Breaker {
  /** One call of the breaker with the time its clock showed. */
  datatype Op = Allow(at: int) | Success | Failure(at: int)

  datatype BreakerState = Closed | HalfOpen | Open

  datatype Config = Config(threshold: int, openFor: int)

  function Gauge(state: BreakerState): int {
    match state
    case Closed => 0
    case HalfOpen => 1
    case Open => 2
  }

  function Trip(c: Config): int { if c.threshold < 1 then 1 else c.threshold }

  function Last(h: seq<Op>): Op
    requires h != []
  {
    h[|h| - 1]
  }

  function Earlier(h: seq<Op>): seq<Op>
    requires h != []
  {
    h[..|h| - 1]
  }

  /** How many Failures the history holds after its last Success. */
  function FailuresSinceSuccess(h: seq<Op>): nat {
    if h == [] || Last(h).Success? then 0
    else (if Last(h).Failure? then 1 else 0) + FailuresSinceSuccess(Earlier(h))
  }

  /** When the last Failure happened; 0 if there was none. */
  function LastFailureAt(h: seq<Op>): int {
    if h == [] then 0
    else if Last(h).Failure? then Last(h).at
    else LastFailureAt(Earlier(h))
  }

  predicate Tripped(c: Config, h: seq<Op>) { FailuresSinceSuccess(h) >= Trip(c) }

  /** Whether an Allow at `now` after `h` lets its caller through. */
  predicate Admits(c: Config, h: seq<Op>, now: int)
    decreases |h|, 1
  {
    !Tripped(c, h) || (now - LastFailureAt(h) >= c.openFor && !AdmittedSinceFailure(c, h))
  }

  /** Whether any Allow after the last Failure let its caller through. */
  predicate AdmittedSinceFailure(c: Config, h: seq<Op>)
    decreases |h|, 0
  {
    if h == [] || Last(h).Failure? then false
    else (Last(h).Allow? && Admits(c, Earlier(h), Last(h).at)) || AdmittedSinceFailure(c, Earlier(h))
  }

  /** No admitted caller still owes its Success or Failure to a tripped breaker. */
  predicate Quiescent(c: Config, h: seq<Op>) { Tripped(c, h) ==> !AdmittedSinceFailure(c, h) }

  lemma Snoc(h: seq<Op>, op: Op)
    ensures h + [op] != [] && Last(h + [op]) == op && Earlier(h + [op]) == h
  {
  }

  class CircuitBreaker {
    var state: BreakerState
    var failures: int
    var openedAt: int
    var probeInFlight: bool
    var gauge: int
    const config: Config
    ghost var history: seq<Op>

    ghost predicate Valid()
      reads this
    {
      && failures == FailuresSinceSuccess(history)
      && (state != Closed <==> failures >= Trip(config))
      && (state != Closed ==> openedAt == LastFailureAt(history))
      && (state == HalfOpen <==> Tripped(config, history) && AdmittedSinceFailure(config, history))
      && (probeInFlight <==> state == HalfOpen)
      && gauge == Gauge(state)
    }

    constructor (config: Config)
      ensures Valid() && history == [] && this.config == config && state == Closed && gauge == 0
    {
      this.config := config;
      state, failures, openedAt, probeInFlight := Closed, 0, 0, false;
      gauge := Gauge(Closed);
      history := [];
    }

    method Allow(now: int) returns (admitted: bool)
      requires Valid()
      modifies this
      ensures Valid()
      ensures history == old(history) + [Op.Allow(now)]
      ensures admitted <==> Admits(config, old(history), now)
      // The gauge shows 0 for a closed breaker, 1 while its probe is under way, and 2 for an open one.
      ensures gauge == if !Tripped(config, history) then 0 else if AdmittedSinceFailure(config, history) then 1 else 2
    {
      if state == Open && now - openedAt >= config.openFor {
        state := HalfOpen;
        probeInFlight := false;
        gauge := Gauge(state);
      }
      if state == Open || (state == HalfOpen && probeInFlight) {
        admitted := false;
      } else {
        if state == HalfOpen {
          probeInFlight := true;
        }
        admitted := true;
      }
      Snoc(history, Op.Allow(now));
      history := history + [Op.Allow(now)];
    }

    method Success()
      requires Valid()
      modifies this
      ensures Valid()
      ensures history == old(history) + [Op.Success]
      ensures state == Closed && failures == 0 && gauge == 0
    {
      state := Closed;
      failures := 0;
      probeInFlight := false;
      gauge := Gauge(state);
      Snoc(history, Op.Success);
      history := history + [Op.Success];
    }

    method Failure(now: int)
      requires Valid()
      modifies this
      ensures Valid()
      ensures history == old(history) + [Op.Failure(now)]
      ensures failures == old(failures) + 1
      ensures if Tripped(config, history) then openedAt == now && gauge == 2 else gauge == 0
    {
      probeInFlight := false;
      failures := failures + 1;
      if state == HalfOpen || failures >= config.threshold {
        state := Open;
        openedAt := now;
      }
      gauge := Gauge(state);
      Snoc(history, Op.Failure(now));
      history := history + [Op.Failure(now)];
    }
  }

  /** One `Process` call that never succeeds, as the breaker sees it: it asks at `asked`
      and, if let through, reports its failure at `failed`. */
  datatype Visit = Visit(asked: int, failed: int)

  /** The visits follow one another on a clock that never runs backwards, from `from` on,
      and none asks after `until`. */
  predicate Sequential(visits: seq<Visit>, from: int, until: int) {
    visits == [] ||
    (from <= visits[0].asked <= until && visits[0].asked <= visits[0].failed
     && Sequential(visits[1..], visits[0].failed, until))
  }

  function AfterVisit(c: Config, h: seq<Op>, v: Visit): seq<Op> {
    if Admits(c, h, v.asked) then h + [Allow(v.asked)] + [Failure(v.failed)] else h + [Allow(v.asked)]
  }

  function Admissions(c: Config, h: seq<Op>, visits: seq<Visit>): nat
    decreases |visits|
  {
    if visits == [] then 0
    else (if Admits(c, h, visits[0].asked) then 1 else 0) + Admissions(c, AfterVisit(c, h, visits[0]), visits[1..])
  }

  /** What one visit changes: a rejected one nothing, an admitted one adds a failure at its end. */
  lemma VisitEffect(c: Config, h: seq<Op>, v: Visit)
    requires Quiescent(c, h)
    ensures var h' := AfterVisit(c, h, v);
            && Quiescent(c, h')
            && (!Admits(c, h, v.asked) ==> FailuresSinceSuccess(h') == FailuresSinceSuccess(h)
                                           && LastFailureAt(h') == LastFailureAt(h))
            && (Admits(c, h, v.asked) ==> FailuresSinceSuccess(h') == FailuresSinceSuccess(h) + 1
                                          && LastFailureAt(h') == v.failed)
  {
    Snoc(h, Allow(v.asked));
    Snoc(h + [Allow(v.asked)], Failure(v.failed));
  }

  lemma {:induction false} ScaledSign(o: int, d: int)
    requires o > 0
    ensures d >= 0 ==> o * d >= 0
    ensures d < 0 ==> o * d <= -o
    decreases if d < 0 then -d else d
  {
    if d > 0 {
      ScaledSign(o, d - 1);
      assert o * d == o * (d - 1) + o;
    } else if d < -1 {
      ScaledSign(o, d + 1);
      assert o * d == o * (d + 1) - o;
    }
  }

  lemma DivMonotone(x: int, y: int, o: int)
    requires o > 0 && x <= y
    ensures x / o <= y / o
  {
    var d := y / o - x / o;
    assert o * d == o * (y / o) - o * (x / o);
    ScaledSign(o, d);
  }

  lemma DivStep(x: int, o: int)
    requires o > 0
    ensures (x + o) / o == 1 + x / o
  {
    var d := (x + o) / o - x / o - 1;
    assert o * d == o * ((x + o) / o) - o * (x / o) - o;
    ScaledSign(o, d);
    ScaledSign(o, -d);
    assert o * -d == -(o * d);
  }

  /** From a tripped breaker, an admission needs `openFor` since the failure before it. */
  lemma {:induction false} TrippedBound(c: Config, h: seq<Op>, visits: seq<Visit>, from: int, until: int)
    requires c.openFor > 0 && Quiescent(c, h) && Tripped(c, h) && Sequential(visits, from, until)
    ensures until >= LastFailureAt(h) ==> Admissions(c, h, visits) <= (until - LastFailureAt(h)) / c.openFor
    ensures until < LastFailureAt(h) ==> Admissions(c, h, visits) == 0
    decreases |visits|
  {
    if visits != [] {
      var v := visits[0];
      VisitEffect(c, h, v);
      var h' := AfterVisit(c, h, v);
      TrippedBound(c, h', visits[1..], v.failed, until);
      if Admits(c, h, v.asked) {
        DivStep(until - LastFailureAt(h) - c.openFor, c.openFor);
        if until >= v.failed {
          DivMonotone(until - v.failed, until - LastFailureAt(h) - c.openFor, c.openFor);
        } else {
          DivMonotone(0, until - LastFailureAt(h) - c.openFor, c.openFor);
        }
      }
    }
  }

  /** After the failure that trips the breaker the rest of the window bounds the admissions. */
  lemma TrippedWithin(c: Config, h: seq<Op>, visits: seq<Visit>, from: int, until: int)
    requires c.openFor > 0 && Quiescent(c, h) && Tripped(c, h) && Sequential(visits, LastFailureAt(h), until)
    requires from <= LastFailureAt(h) && from <= until
    ensures Admissions(c, h, visits) <= (until - from) / c.openFor
  {
    TrippedBound(c, h, visits, LastFailureAt(h), until);
    DivMonotone(0, until - from, c.openFor);
    if until >= LastFailureAt(h) {
      DivMonotone(until - LastFailureAt(h), until - from, c.openFor);
    }
  }

  /** From any quiescent history, failing calls that ask within a window of length `until - from`
      are let through at most (failures still missing to trip, at least one) + window / openFor times. */
  lemma {:induction false} RateBound(c: Config, h: seq<Op>, visits: seq<Visit>, from: int, until: int)
    requires c.openFor > 0 && Quiescent(c, h) && from <= until && Sequential(visits, from, until)
    ensures Admissions(c, h, visits)
            <= (if Tripped(c, h) then 1 else Trip(c) - FailuresSinceSuccess(h)) + (until - from) / c.openFor
    ensures Admissions(c, h, visits) <= Trip(c) + (until - from) / c.openFor
    decreases |visits|
  {
    DivMonotone(0, until - from, c.openFor);
    if visits != [] {
      var v := visits[0];
      VisitEffect(c, h, v);
      var h' := AfterVisit(c, h, v);
      if !Admits(c, h, v.asked) {
        WidenWindow(visits[1..], v.failed, v.asked, until);
        RateBound(c, h', visits[1..], v.asked, until);
        DivMonotone(until - v.asked, until - from, c.openFor);
      } else if Tripped(c, h') {
        TrippedWithin(c, h', visits[1..], from, until);
      } else if until < v.failed {
        NoneLeft(visits[1..], v.failed, until);
      } else {
        RateBound(c, h', visits[1..], v.failed, until);
        DivMonotone(until - v.failed, until - from, c.openFor);
      }
    }
  }

  lemma NoneLeft(visits: seq<Visit>, from: int, until: int)
    requires Sequential(visits, from, until) && until < from
    ensures visits == []
  {
  }

  lemma WidenWindow(visits: seq<Visit>, from: int, earlier: int, until: int)
    requires Sequential(visits, from, until) && earlier <= from
    ensures Sequential(visits, earlier, until)
  {
  }

  /** The bound is met: a closed breaker lets `threshold` calls through at once and then one each `openFor`. */
  lemma {:induction false} RateBoundTight(c: Config, h: seq<Op>, at: int, more: nat) returns (visits: seq<Visit>)
    requires c.openFor > 0 && Quiescent(c, h)
    requires Tripped(c, h) ==> at - LastFailureAt(h) >= c.openFor
    ensures Sequential(visits, at, at + more * c.openFor)
    ensures Admissions(c, h, visits)
            == (if Tripped(c, h) then 1 else Trip(c) - FailuresSinceSuccess(h)) + more
    decreases more, Trip(c) - FailuresSinceSuccess(h)
  {
    var v := Visit(at, at);
    VisitEffect(c, h, v);
    var h' := AfterVisit(c, h, v);
    assert more * c.openFor >= 0;
    if !Tripped(c, h') {
      var rest := RateBoundTight(c, h', at, more);
      visits := [v] + rest;
    } else if more == 0 {
      visits := [v];
    } else {
      var rest := RateBoundTight(c, h', at + c.openFor, more - 1);
      visits := [v] + rest;
      assert at + c.openFor + (more - 1) * c.openFor == at + more * c.openFor;
      WidenWindow(rest, at + c.openFor, at, at + more * c.openFor);
    }
  }
}
