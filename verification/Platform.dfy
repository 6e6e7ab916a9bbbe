/** The running system as one mutable object. A process works on it through the operations below; between two of its
    own steps any other processes may take any number of theirs. The object keeps its whole run, so whatever a
    process does is a run of the step system. */
module Platform {
  import opened Pipeline
  import opened Tables
  import opened Flow
  import opened FlowKept
  import opened Ledger

  datatype Party = Creating(c: Id) | Publishing(p: Id) | Working(w: Id)

  /** The steps nobody else takes for a process. Deliveries to a worker and the loss of its connection come from
      outside. */
  predicate Mine(me: Party, step: Step) {
    match me
    case Creating(c) => step.ByCreator? && step.c == c
    case Publishing(p) => step.ByPublisher? && step.p == p
    case Working(w) => (step.ByWorker? && step.v == w)
                       || (step.ByChannel? && step.w == w && !step.channel.Deliver? && !step.channel.Detach?)
  }

  function Own(me: Party, steps: seq<Step>): seq<Step> {
    if steps == [] then []
    else Own(me, steps[..|steps| - 1]) + (if Mine(me, steps[|steps| - 1]) then [steps[|steps| - 1]] else [])
  }

  /** What a process knows about itself. */
  predicate SameSelf(me: Party, s: State, t: State) {
    match me
    case Creating(c) => CreatorOf(t, c) == CreatorOf(s, c)
    case Publishing(p) => PublisherOf(t, p) == PublisherOf(s, p)
    case Working(w) => WorkerOf(t, w).job == WorkerOf(s, w).job
                       && (Busy(s, w) ==> BodyOf(t.broker, JobOf(s, w).copy) == BodyOf(s.broker, JobOf(s, w).copy)
                                          && (OnRow(s, JobOf(s, w).copy) ==> OnRow(t, JobOf(s, w).copy)))
  }

  lemma StillSameSelf(me: Party, s: State, t: State, u: State)
    requires SameSelf(me, s, t) && SameSelf(me, t, u)
    ensures SameSelf(me, s, u)
  {
  }

  lemma ChannelLeavesMe(me: Party, s: State, w: Id, step: ChannelStep, t: State)
    requires ChannelEnabled(s, w, step) && t == ChannelApply(s, w, step) && !Mine(me, ByChannel(w, step))
    ensures SameSelf(me, s, t)
  {
    ChannelFramed(s, w, step);
    match step
    case Detach =>
    case Deliver(_) =>
    case _ =>
  }

  lemma CreatorKeepsRows(s: State, c: Id, step: CreatorStep, t: State)
    requires TablesOk(s) && CreatorEnabled(s, c, step) && t == CreatorApply(s, c, step)
    ensures forall i :: i in s.imports ==> i in t.imports
  {
    CreatorGrows(s, c, step);
  }

  lemma CreatorLeavesMe(me: Party, s: State, c: Id, step: CreatorStep, t: State)
    requires TablesOk(s) && CreatorEnabled(s, c, step) && t == CreatorApply(s, c, step) && !Mine(me, ByCreator(c, step))
    ensures SameSelf(me, s, t)
  {
    CreatorFramed(s, c, step);
    CreatorKeepsRows(s, c, step, t);
  }

  lemma PublisherLeavesMe(me: Party, s: State, p: Id, step: PublisherStep, t: State)
    requires FreshIds(s) && PublisherEnabled(s, p, step) && t == PublisherApply(s, p, step)
    requires !Mine(me, ByPublisher(p, step))
    requires me.Working? && Busy(s, me.w) ==> JobOf(s, me.w).copy in s.broker.copies
    ensures SameSelf(me, s, t)
  {
    PublisherFramed(s, p, step);
    PublisherKeepsCopies(s, p, step);
  }

  /** Nobody else changes what a process knows about itself. */
  lemma OthersLeaveMe(me: Party, s: State, step: Step, t: State)
    requires TablesOk(s) && HoldsOk(s) && Goes(s, step, t) && !Mine(me, step)
    ensures SameSelf(me, s, t)
  {
    assert me.Working? && Busy(s, me.w) ==> HoldOk(s, me.w, s.workers[me.w]);
    match step
    case ByCreator(c, cs) => CreatorLeavesMe(me, s, c, cs, t);
    case ByPublisher(p, ps) => PublisherLeavesMe(me, s, p, ps, t);
    case ByChannel(w, ks) => ChannelLeavesMe(me, s, w, ks, t);
    case ByWorker(w, ws) => WorkerFramed(s, w, ws);
    case Tick(_) =>
    case Inject(_) =>
  }

  ghost predicate Continues<T>(earlier: seq<T>, later: seq<T>) { earlier <= later }

  // ---------------------------------------------------------------- the claim query

  lemma {:induction false} Oldest(outbox: map<Id, Event>, left: set<Id>) returns (e: Id)
    requires left != {} && left <= outbox.Keys
    ensures e in left && forall f :: f in left ==> outbox[e].createdAt <= outbox[f].createdAt
    decreases |left|
  {
    e :| e in left;
    if left != {e} {
      var d := Oldest(outbox, left - {e});
      if outbox[d].createdAt < outbox[e].createdAt {
        e := d;
      }
    }
  }

  /** The batch is 25 different events, or all there are, out of those that are unpublished, not leased within the last
      minute and not in `skipped`; and none of them is younger than one that is left. */
  ghost predicate OldestFirst(s: State, batch: seq<Id>, skipped: set<Id>) {
    (
      && |batch| <= 25 && (forall i, j :: 0 <= i < j < |batch| ==> batch[i] != batch[j])
      && (forall e :: e in batch ==>
            && e in s.outbox && e !in skipped && s.outbox[e].publishedAt.None?
            && (s.outbox[e].lockedAt.Some? ==> s.outbox[e].lockedAt.value < s.clock - 60_000))
      && (forall e :: e in s.outbox && e !in skipped && e !in batch && s.outbox[e].publishedAt.None?
                      && (s.outbox[e].lockedAt.Some? ==> s.outbox[e].lockedAt.value < s.clock - 60_000) ==>
            |batch| == 25 && forall b :: b in batch ==> s.outbox[b].createdAt <= s.outbox[e].createdAt)
    ) == true
  }

  lemma ClaimsOldestFirst(s: State, batch: seq<Id>, skipped: set<Id>)
    requires ClaimResult(s, batch, skipped)
    ensures OldestFirst(s, batch, skipped)
  {
    forall e | e in s.outbox && e !in skipped && e !in batch && s.outbox[e].publishedAt.None?
               && (s.outbox[e].lockedAt.Some? ==> s.outbox[e].lockedAt.value < s.clock - 60_000)
      ensures Claimable(s, e)
    {
    }
  }

  /** ORDER BY created_at FOR UPDATE SKIP LOCKED LIMIT 25: oldest first, passing over what is locked at this moment. */
  method SelectCandidates(s: State, skipped: set<Id>) returns (batch: seq<Id>)
    ensures ClaimResult(s, batch, skipped) && OldestFirst(s, batch, skipped)
  {
    var left := set e | e in s.outbox && Claimable(s, e) && e !in skipped;
    batch := [];
    while |batch| < BATCH && left != {}
      invariant Distinct(batch) && |batch| <= BATCH
      invariant forall e :: e in batch ==> Claimable(s, e) && e !in skipped && e !in left
      invariant forall e :: e in left ==> Claimable(s, e) && e !in skipped
      invariant forall e :: e in s.outbox && Claimable(s, e) && e !in skipped ==> e in batch || e in left
      invariant forall b, e :: b in batch && e in left ==> s.outbox[b].createdAt <= s.outbox[e].createdAt
      decreases |left|
    {
      ghost var oldest := Oldest(s.outbox, left);
      var e :| e in left && forall f :: f in left ==> s.outbox[e].createdAt <= s.outbox[f].createdAt;
      batch := batch + [e];
      left := left - {e};
    }
    ClaimsOldestFirst(s, batch, skipped);
  }

  class System {
    var st: State
    ghost var states: seq<State>
    ghost var steps: seq<Step>

    ghost predicate Valid()
      reads this
    {
      (Trace(states, steps) && st == states[|steps|]) == true
    }

    constructor ()
      ensures Valid() && st == Empty() && steps == []
    {
      st := Empty();
      states := [Empty()];
      steps := [];
    }

    lemma Sound()
      requires Valid()
      ensures Inv(st) && Reachable(st)
    {
      InvThroughout(states, steps, |steps|);
    }

    method Perform(step: Step)
      requires Valid() && Enabled(st, step)
      modifies this
      ensures Valid() && Goes(old(st), step, st)
      ensures states == old(states) + [st] && steps == old(steps) + [step]
    {
      Extend(states, steps, step, Apply(st, step));
      st := Apply(st, step);
      states := states + [st];
      steps := steps + [step];
    }

    /** One step of somebody else. */
    method OtherStep(me: Party, step: Step)
      requires Valid() && Enabled(st, step) && !Mine(me, step)
      modifies this
      ensures Valid() && Continues(old(states), states) && Continues(old(steps), steps)
      ensures Own(me, steps) == Own(me, old(steps)) && SameSelf(me, old(st), st)
    {
      assert TablesOk(st) && HoldsOk(st) by { Sound(); }
      Perform(step);
      assert steps[..|steps| - 1] == old(steps);
      OthersLeaveMe(me, old(st), step, st);
    }

    /** Everybody else, for as long as it takes. */
    method Others(me: Party)
      requires Valid()
      modifies this
      ensures Valid() && Continues(old(states), states) && Continues(old(steps), steps)
      ensures Own(me, steps) == Own(me, old(steps)) && SameSelf(me, old(st), st)
    {
      var more: nat := *;
      while more > 0
        invariant Valid() && Continues(old(states), states) && Continues(old(steps), steps)
        invariant Own(me, steps) == Own(me, old(steps)) && SameSelf(me, old(st), st)
      {
        var step: Step := *;
        if !Mine(me, step) && Enabled(st, step) {
          ghost var before := st;
          OtherStep(me, step);
          StillSameSelf(me, old(st), before, st);
        }
        more := more - 1;
      }
    }

    /** One step of the process itself. */
    method Act(me: Party, step: Step)
      requires Valid() && Enabled(st, step) && Mine(me, step)
      modifies this
      ensures Valid() && Goes(old(st), step, st)
      ensures states == old(states) + [st] && Continues(old(steps), steps)
      ensures Own(me, steps) == Own(me, old(steps)) + [step]
    {
      Perform(step);
      assert steps[..|steps| - 1] == old(steps);
    }
  }
}
