/** The outbox drains: once faults and creations stop and the leases have expired, every batch of a lone publisher
    publishes exactly the 25 next events, or all that are left. */
module Drain {
  import opened Text
  import opened Sets
  import opened Pipeline
  import opened Tables
  import opened FlowKept
  import opened Ledger
  import Platform

  function Unpublished(s: State): set<Id> {
    set e | e in s.outbox && s.outbox[e].publishedAt == None
  }

  ghost predicate AllClaimable(s: State) {
    forall e :: e in Unpublished(s) ==> Claimable(s, e)
  }

  // ---------------------------------------------------------------- leases expire

  ghost predicate LockedUntil(s: State, time: nat) {
    forall e :: e in s.outbox && s.outbox[e].lockedAt.Some? ==> s.outbox[e].lockedAt.value <= time
  }

  lemma PublisherLocks(s: State, p: Id, step: PublisherStep, t: State, time: nat)
    requires PublisherEnabled(s, p, step) && t == PublisherApply(s, p, step) && LockedUntil(s, time)
    requires step.Claim? ==> s.clock <= time
    ensures LockedUntil(t, time)
  {
  }

  lemma StepLocks(s: State, step: Step, t: State, time: nat)
    requires TablesOk(s) && Goes(s, step, t) && LockedUntil(s, time)
    requires step.ByPublisher? && step.publisher.Claim? ==> s.clock <= time
    ensures LockedUntil(t, time) && s.clock <= t.clock
  {
    match step
    case ByCreator(c, cs) => CreatorGrows(s, c, cs);
    case ByPublisher(p, ps) =>
      PublisherFramed(s, p, ps);
      PublisherLocks(s, p, ps, t, time);
    case ByChannel(w, ks) => ChannelFramed(s, w, ks);
    case ByWorker(w, ws) => WorkerFramed(s, w, ws);
    case Tick(_) =>
    case Inject(_) =>
  }

  lemma StepAtLocks(states: seq<State>, steps: seq<Step>, n: nat, time: nat)
    requires Trace(states, steps) && n < |steps| && LockedUntil(states[n], time)
    requires steps[n].ByPublisher? && steps[n].publisher.Claim? ==> states[n].clock <= time
    ensures LockedUntil(states[n + 1], time) && states[n].clock <= states[n + 1].clock
  {
    StepAt(states, steps, n);
    StepLocks(states[n], steps[n], states[n + 1], time);
  }

  /** No lease is from the future. */
  lemma {:induction false} LocksArePast(states: seq<State>, steps: seq<Step>, k: nat)
    requires Trace(states, steps) && k < |states|
    ensures LockedUntil(states[k], states[k].clock)
  {
    if k > 0 {
      LocksArePast(states, steps, k - 1);
      StepAtLocks(states, steps, k - 1, states[k - 1].clock);
    }
  }

  lemma {:induction false} NoNewLocks(states: seq<State>, steps: seq<Step>, k: nat, m: nat)
    requires Trace(states, steps) && k <= m < |states|
    requires forall n :: k <= n < m ==> !(steps[n].ByPublisher? && steps[n].publisher.Claim?)
    ensures LockedUntil(states[m], states[k].clock)
    decreases m - k
  {
    if k == m {
      LocksArePast(states, steps, k);
    } else {
      NoNewLocks(states, steps, k, m - 1);
      StepAtLocks(states, steps, m - 1, states[k].clock);
    }
  }

  /** Events stranded by batches that were given up come back: one minute without a claim makes every unpublished event
      claimable, whoever had leased it. */
  lemma StrandedRecover(states: seq<State>, steps: seq<Step>, k: nat, m: nat)
    requires Trace(states, steps) && k <= m < |states| && states[m].clock > states[k].clock + 60_000
    requires forall n :: k <= n < m ==> !(steps[n].ByPublisher? && steps[n].publisher.Claim?)
    ensures AllClaimable(states[m])
  {
    NoNewLocks(states, steps, k, m);
  }

  // ---------------------------------------------------------------- calm runs

  /** What a publisher does when nothing fails and nobody else holds a row lock. */
  predicate FaultFree(step: PublisherStep) {
    match step
    case Claim(_, skipped, reported) => skipped == {} && reported
    case Send(stored, reported) => stored && reported
    case Confirmation(positive) => positive
    case Mark(applied, reported) => applied && reported
    case _ => false
  }

  predicate Calm(p: Id, step: Step) {
    match step
    case ByPublisher(q, ps) => q == p && FaultFree(ps)
    case ByCreator(_, cs) => !cs.Commit?
    case _ => true
  }

  /** From state `k` to state `m`: no faults of the publisher, no other publisher, no creation; the publisher starts
      between two batches when all leases have expired. Workers, deliveries and time go on. */
  ghost predicate CalmRun(states: seq<State>, steps: seq<Step>, k: nat, m: nat, p: Id) {
    && Trace(states, steps) && k <= m < |states|
    && PublisherOf(states[k], p).Resting? && AllClaimable(states[k])
    && forall n :: k <= n < m ==> Calm(p, steps[n])
  }

  function Batches(steps: seq<Step>, k: nat, m: nat): nat
    requires k <= m <= |steps|
  {
    if k == m then 0
    else Batches(steps, k, m - 1) + if steps[m - 1].ByPublisher? && steps[m - 1].publisher.Claim? then 1 else 0
  }

  function StepsTaken(steps: seq<Step>, k: nat, m: nat): nat
    requires k <= m <= |steps|
  {
    if k == m then 0 else StepsTaken(steps, k, m - 1) + if steps[m - 1].ByPublisher? then 1 else 0
  }

  /** What `batches` batches leave of `n` events. */
  function Left(n: nat, batches: nat): nat { if n > BATCH * batches then n - BATCH * batches else 0 }

  function Progress(head: Head): nat {
    match head
    case Unsent => 0
    case Awaiting(_) => 1
    case _ => 2
  }

  ghost predicate BetweenBatches(s: State, n: nat, batches: nat, taken: nat) {
    (
      && AllClaimable(s) && |Unpublished(s)| == Left(n, batches)
      && taken == batches + 3 * (n - |Unpublished(s)|)
    ) == true
  }

  ghost predicate InBatch(s: State, batch: seq<Id>, head: Head, n: nat, batches: nat, taken: nat) {
    (
      && Distinct(batch) && batch != [] && (forall e :: e in batch ==> e in Unpublished(s))
      && (forall e :: e in Unpublished(s) && e !in batch ==> Claimable(s, e))
      && (head == Unsent || head == Awaiting(true) || head == Confirmed)
      && |Unpublished(s)| == Left(n, batches) + |batch| <= n
      && batches > 0 && Left(n, batches - 1) > 0
      && taken == batches + 3 * (n - |Unpublished(s)|) + Progress(head)
    ) == true
  }

  /** Where a calm run is: `n` events at its start, `batches` claims and `taken` publisher steps since. */
  ghost predicate Drained(s: State, p: Id, n: nat, batches: nat, taken: nat) {
    match PublisherOf(s, p)
    case Resting => BetweenBatches(s, n, batches, taken)
    case Holding(batch, _, head) => InBatch(s, batch, head, n, batches, taken)
  }

  function Elements(ids: seq<Id>): set<Id> { set e | e in ids }

  lemma {:induction false} DistinctSize(batch: seq<Id>)
    requires Distinct(batch)
    ensures |Elements(batch)| == |batch|
  {
    if batch != [] {
      var rest, last := batch[..|batch| - 1], batch[|batch| - 1];
      DistinctSize(rest);
      assert batch == rest + [last] && last !in rest;
      assert Elements(batch) == Elements(rest) + {last} && last !in Elements(rest);
    }
  }

  /** A claim nobody interferes with takes the 25 next events, or all. */
  lemma ClaimSize(s: State, batch: seq<Id>)
    requires AllClaimable(s) && ClaimResult(s, batch, {})
    ensures |batch| == if |Unpublished(s)| < BATCH then |Unpublished(s)| else BATCH
    ensures forall e :: e in batch ==> e in Unpublished(s)
  {
    DistinctSize(batch);
    var taken := Elements(batch);
    SubsetSize(taken, Unpublished(s));
    if |batch| < BATCH {
      forall e | e in Unpublished(s)
        ensures e in taken
      {
        assert Claimable(s, e);
      }
      assert Unpublished(s) == taken;
    }
  }

  lemma ClaimDrains(s: State, p: Id, batch: seq<Id>, t: State, n: nat, batches: nat, taken: nat)
    requires PublisherOf(s, p).Resting? && Drained(s, p, n, batches, taken) && ClaimResult(s, batch, {})
    requires t == DoClaim(s, p, batch, true)
    ensures Drained(t, p, n, batches + 1, taken + 1)
  {
    ClaimSize(s, batch);
    assert Unpublished(t) == Unpublished(s);
  }

  lemma MarkDrains(s: State, p: Id, t: State, n: nat, batches: nat, taken: nat)
    requires AtEvent(s, PublisherOf(s, p)) && PublisherOf(s, p).head.Confirmed? && Drained(s, p, n, batches, taken)
    requires t == DoMark(s, p, PublisherOf(s, p), true, true)
    ensures Drained(t, p, n, batches, taken + 1)
  {
    assert Unpublished(t) == Unpublished(s) - {PublisherOf(s, p).batch[0]};
  }

  lemma HeadDrains(s: State, p: Id, head: Head, t: State, n: nat, batches: nat, taken: nat)
    requires PublisherOf(s, p).Holding? && Drained(s, p, n, batches, taken) && t.outbox == s.outbox
    requires t.clock == s.clock
    requires PublisherOf(t, p) == PublisherOf(s, p).(head := head)
    requires Progress(head) == Progress(PublisherOf(s, p).head) + 1
    requires head == Awaiting(true) || head == Confirmed
    ensures Drained(t, p, n, batches, taken + 1)
  {
    assert Unpublished(t) == Unpublished(s);
  }

  lemma PublisherDrains(s: State, p: Id, step: PublisherStep, t: State, n: nat, batches: nat, taken: nat)
    requires PublisherEnabled(s, p, step) && t == PublisherApply(s, p, step) && FaultFree(step)
    requires Drained(s, p, n, batches, taken)
    ensures Drained(t, p, n, if step.Claim? then batches + 1 else batches, taken + 1)
  {
    match step
    case Claim(batch, _, _) => ClaimDrains(s, p, batch, t, n, batches, taken);
    case Send(_, _) => HeadDrains(s, p, Awaiting(true), t, n, batches, taken);
    case Confirmation(_) => HeadDrains(s, p, Confirmed, t, n, batches, taken);
    case Mark(_, _) => MarkDrains(s, p, t, n, batches, taken);
  }

  lemma QuietDrains(s: State, p: Id, t: State, n: nat, batches: nat, taken: nat)
    requires Drained(s, p, n, batches, taken) && t.outbox == s.outbox && s.clock <= t.clock
    requires PublisherOf(t, p) == PublisherOf(s, p)
    ensures Drained(t, p, n, batches, taken)
  {
    assert Unpublished(t) == Unpublished(s);
  }

  lemma StepDrains(s: State, step: Step, t: State, p: Id, n: nat, batches: nat, taken: nat)
    requires s.work.attempts.Keys == s.imports.Keys && Goes(s, step, t) && Calm(p, step)
    requires Drained(s, p, n, batches, taken)
    ensures Drained(t, p, n, if step.ByPublisher? && step.publisher.Claim? then batches + 1 else batches,
                    if step.ByPublisher? then taken + 1 else taken)
  {
    match step
    case ByCreator(c, cs) =>
      CreatorFramed(s, c, cs);
      NothingShown(s, c, cs);
      QuietDrains(s, p, t, n, batches, taken);
    case ByPublisher(_, ps) => PublisherDrains(s, p, ps, t, n, batches, taken);
    case ByChannel(w, ks) =>
      ChannelFramed(s, w, ks);
      QuietDrains(s, p, t, n, batches, taken);
    case ByWorker(w, ws) =>
      WorkerFramed(s, w, ws);
      QuietDrains(s, p, t, n, batches, taken);
    case Tick(_) => QuietDrains(s, p, t, n, batches, taken);
    case Inject(_) => QuietDrains(s, p, t, n, batches, taken);
  }

  lemma StepAtDrains(states: seq<State>, steps: seq<Step>, m: nat, p: Id, n: nat, batches: nat, taken: nat)
    requires Trace(states, steps) && m < |steps| && Calm(p, steps[m]) && Drained(states[m], p, n, batches, taken)
    ensures Drained(states[m + 1], p, n,
                    if steps[m].ByPublisher? && steps[m].publisher.Claim? then batches + 1 else batches,
                    if steps[m].ByPublisher? then taken + 1 else taken)
  {
    StepAt(states, steps, m);
    StepDrains(states[m], steps[m], states[m + 1], p, n, batches, taken);
  }

  lemma {:induction false} DrainedThroughout(states: seq<State>, steps: seq<Step>, k: nat, m: nat, p: Id)
    requires CalmRun(states, steps, k, m, p)
    ensures Drained(states[m], p, |Unpublished(states[k])|, Batches(steps, k, m), StepsTaken(steps, k, m))
    decreases m - k
  {
    if k < m {
      DrainedThroughout(states, steps, k, m - 1, p);
      StepAtDrains(states, steps, m - 1, p, |Unpublished(states[k])|, Batches(steps, k, m - 1),
          StepsTaken(steps, k, m - 1));
    }
  }

  /** Between two batches of a calm run, exactly 25 events per batch are gone, or all of them. */
  lemma DrainsExactly(states: seq<State>, steps: seq<Step>, k: nat, m: nat, p: Id)
    requires CalmRun(states, steps, k, m, p) && PublisherOf(states[m], p).Resting?
    ensures var n, batches := |Unpublished(states[k])|, Batches(steps, k, m);
            |Unpublished(states[m])| == if n > 25 * batches then n - 25 * batches else 0
  {
    DrainedThroughout(states, steps, k, m, p);
  }

  /** So each single batch publishes exactly min(25, what is left). */
  lemma BatchPublishes(states: seq<State>, steps: seq<Step>, k: nat, m: nat, p: Id)
    requires CalmRun(states, steps, k, m, p) && PublisherOf(states[m], p).Resting? && Batches(steps, k, m) == 1
    ensures var n := |Unpublished(states[k])|;
            |Unpublished(states[m])| == n - if n < 25 then n else 25
  {
    DrainsExactly(states, steps, k, m, p);
  }

  /** And ceil(n / 25) batches empty the outbox. */
  lemma EnoughBatches(states: seq<State>, steps: seq<Step>, k: nat, m: nat, p: Id)
    requires CalmRun(states, steps, k, m, p) && PublisherOf(states[m], p).Resting?
    ensures Batches(steps, k, m) >= (|Unpublished(states[k])| + 24) / 25 <==> Unpublished(states[m]) == {}
  {
    DrainsExactly(states, steps, k, m, p);
  }

  /** They take ceil(n / 25) + 3 n steps of the publisher at most, however the run interleaves with the rest. */
  lemma DrainTerminates(states: seq<State>, steps: seq<Step>, k: nat, m: nat, p: Id)
    requires CalmRun(states, steps, k, m, p)
    requires StepsTaken(steps, k, m) >= (|Unpublished(states[k])| + 24) / 25 + 3 * |Unpublished(states[k])|
    ensures Unpublished(states[m]) == {}
  {
    DrainedThroughout(states, steps, k, m, p);
  }

  // ---------------------------------------------------------------- the oldest first

  /** The other events that could be claimed and are not younger. */
  function NotYounger(s: State, e: Id): set<Id>
    requires e in s.outbox
  {
    set f | f in s.outbox && f != e && Claimable(s, f) && s.outbox[f].createdAt <= s.outbox[e].createdAt
  }

  /** Nobody starves: however many younger events keep coming, a claim takes every event it finds unlocked that has
      fewer than 25 others before it. */
  lemma NoneIsOvertaken(s: State, batch: seq<Id>, skipped: set<Id>, e: Id)
    requires ClaimResult(s, batch, skipped) && Claimable(s, e) && e !in skipped && |NotYounger(s, e)| < 25
    ensures e in batch
  {
    if e !in batch {
      DistinctSize(batch);
      assert forall b :: b in batch ==> Claimable(s, b) && s.outbox[b].createdAt <= s.outbox[e].createdAt;
      SubsetSize(Elements(batch), NotYounger(s, e));
    }
  }

  function BatchHeld(s: State, p: Id): set<Id> {
    match PublisherOf(s, p)
    case Resting => {}
    case Holding(batch, _, _) => Elements(batch)
  }

  /** Of the events in `start`, those that are published, and those in the publisher's batch, are none younger than one
      that is left. */
  ghost predicate Ordered(s: State, p: Id, start: set<Id>) {
    (
      && start <= s.outbox.Keys && Unpublished(s) <= start
      && forall e, f :: e in start && (e !in Unpublished(s) || e in BatchHeld(s, p))
                        && f in Unpublished(s) && f !in BatchHeld(s, p) ==>
           s.outbox[e].createdAt <= s.outbox[f].createdAt
    ) == true
  }

  /** Rows keep their time of creation, and none comes or goes. */
  ghost predicate SameTimes(s: State, t: State) {
    (
      t.outbox.Keys == s.outbox.Keys && forall e :: e in s.outbox ==> t.outbox[e].createdAt == s.outbox[e].createdAt
    ) == true
  }

  lemma SameOrder(s: State, p: Id, t: State, start: set<Id>)
    requires Ordered(s, p, start) && SameTimes(s, t) && Unpublished(t) == Unpublished(s)
    requires BatchHeld(t, p) == BatchHeld(s, p)
    ensures Ordered(t, p, start)
  {
  }

  lemma ClaimOrder(s: State, p: Id, batch: seq<Id>, t: State, start: set<Id>)
    requires PublisherOf(s, p).Resting? && AllClaimable(s) && Ordered(s, p, start) && ClaimResult(s, batch, {})
    requires t == DoClaim(s, p, batch, true)
    ensures Ordered(t, p, start)
  {
    assert Unpublished(t) == Unpublished(s);
    assert BatchHeld(t, p) == Elements(batch);
    forall e, f | e in start && (e !in Unpublished(s) || e in batch) && f in Unpublished(s) && f !in batch
      ensures s.outbox[e].createdAt <= s.outbox[f].createdAt
    {
      assert Claimable(s, f);
    }
  }

  lemma MarkOrder(s: State, p: Id, t: State, start: set<Id>)
    requires AtEvent(s, PublisherOf(s, p)) && PublisherOf(s, p).batch[0] in Unpublished(s) && Ordered(s, p, start)
    requires Distinct(PublisherOf(s, p).batch) && t == DoMark(s, p, PublisherOf(s, p), true, true)
    ensures Ordered(t, p, start)
  {
    var batch := PublisherOf(s, p).batch;
    assert Unpublished(t) == Unpublished(s) - {batch[0]};
    assert BatchHeld(t, p) == Elements(batch[1..]);
    assert Elements(batch) == {batch[0]} + Elements(batch[1..]);
  }

  lemma PublisherOrder(s: State, p: Id, step: PublisherStep, t: State, start: set<Id>)
    requires PublisherEnabled(s, p, step) && t == PublisherApply(s, p, step) && FaultFree(step) && Ordered(s, p, start)
    requires PublisherOf(s, p).Resting? ==> AllClaimable(s)
    requires PublisherOf(s, p).Holding? && PublisherOf(s, p).batch != [] ==>
               Distinct(PublisherOf(s, p).batch) && PublisherOf(s, p).batch[0] in Unpublished(s)
    ensures Ordered(t, p, start)
  {
    match step
    case Claim(batch, _, _) => ClaimOrder(s, p, batch, t, start);
    case Send(_, _) => SameOrder(s, p, t, start);
    case Confirmation(_) => SameOrder(s, p, t, start);
    case Mark(_, _) => MarkOrder(s, p, t, start);
  }

  lemma StepOrder(s: State, step: Step, t: State, p: Id, start: set<Id>, n: nat, batches: nat, taken: nat)
    requires s.work.attempts.Keys == s.imports.Keys && Goes(s, step, t) && Calm(p, step)
    requires Drained(s, p, n, batches, taken) && Ordered(s, p, start)
    ensures Ordered(t, p, start)
  {
    match step
    case ByCreator(c, cs) =>
      CreatorFramed(s, c, cs);
      NothingShown(s, c, cs);
      SameOrder(s, p, t, start);
    case ByPublisher(_, ps) => PublisherOrder(s, p, ps, t, start);
    case ByChannel(w, ks) =>
      ChannelFramed(s, w, ks);
      SameOrder(s, p, t, start);
    case ByWorker(w, ws) =>
      WorkerFramed(s, w, ws);
      SameOrder(s, p, t, start);
    case Tick(_) => SameOrder(s, p, t, start);
    case Inject(_) => SameOrder(s, p, t, start);
  }

  lemma StepAtOrder(states: seq<State>, steps: seq<Step>, m: nat, p: Id, start: set<Id>, n: nat, batches: nat,
                    taken: nat)
    requires Trace(states, steps) && m < |steps| && Calm(p, steps[m]) && Ordered(states[m], p, start)
    requires Drained(states[m], p, n, batches, taken)
    ensures Ordered(states[m + 1], p, start)
  {
    StepAt(states, steps, m);
    StepOrder(states[m], steps[m], states[m + 1], p, start, n, batches, taken);
  }

  lemma {:induction false} OrderedThroughout(states: seq<State>, steps: seq<Step>, k: nat, m: nat, p: Id)
    requires CalmRun(states, steps, k, m, p)
    ensures Ordered(states[m], p, Unpublished(states[k]))
    decreases m - k
  {
    if k < m {
      OrderedThroughout(states, steps, k, m - 1, p);
      DrainedThroughout(states, steps, k, m - 1, p);
      StepAtOrder(states, steps, m - 1, p, Unpublished(states[k]), |Unpublished(states[k])|, Batches(steps, k, m - 1),
          StepsTaken(steps, k, m - 1));
    }
  }

  /** The batches go by age: between two of them no event published since the start of the calm run is younger than one
      still to be published. With `DrainsExactly`, the 25 oldest are gone after one batch, the 50 oldest after two. */
  lemma OldestGoFirst(states: seq<State>, steps: seq<Step>, k: nat, m: nat, p: Id, e: Id, f: Id)
    requires CalmRun(states, steps, k, m, p) && PublisherOf(states[m], p).Resting?
    requires e in Unpublished(states[k]) && e !in Unpublished(states[m]) && f in Unpublished(states[m])
    ensures e in states[m].outbox && states[m].outbox[e].createdAt <= states[m].outbox[f].createdAt
  {
    OrderedThroughout(states, steps, k, m, p);
  }

  // ---------------------------------------------------------------- and never gets stuck

  lemma {:induction false} SomeClaim(s: State, left: set<Id>, start: seq<Id>) returns (batch: seq<Id>)
    requires Distinct(start) && |start| <= BATCH
    requires forall e :: e in start ==> Claimable(s, e) && e !in left
    requires forall e :: e in left ==> Claimable(s, e)
    requires forall e :: e in s.outbox && Claimable(s, e) ==> e in start || e in left
    requires forall b, e :: b in start && e in left && b in s.outbox && e in s.outbox ==>
        s.outbox[b].createdAt <= s.outbox[e].createdAt
    ensures ClaimResult(s, batch, {})
    decreases |left|
  {
    if |start| == BATCH || left == {} {
      batch := start;
    } else {
      var e := Platform.Oldest(s.outbox, left);
      batch := SomeClaim(s, left - {e}, start + [e]);
    }
  }

  /** At any moment of a calm run the publisher has a fault-free step to take. */
  lemma NeverStuck(states: seq<State>, steps: seq<Step>, k: nat, m: nat, p: Id) returns (step: PublisherStep)
    requires CalmRun(states, steps, k, m, p)
    ensures PublisherEnabled(states[m], p, step) && FaultFree(step)
  {
    DrainedThroughout(states, steps, k, m, p);
    assert OneEventEach(states[m]) by { InvThroughout(states, steps, m); }
    var s := states[m];
    match PublisherOf(s, p)
    case Resting =>
      var batch := SomeClaim(s, set e | e in s.outbox && Claimable(s, e), []);
      step := Claim(batch, {}, true);
    case Holding(batch, _, head) =>
      assert batch[0] in Unpublished(s);
      step := if head.Unsent? then Send(true, true)
              else if head.Awaiting? then Confirmation(true)
              else Mark(true, true);
  }
}
