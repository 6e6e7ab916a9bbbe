/** Leases and duplicates: who may work on an event, and how often its message is queued. */
module Leases {
  import opened Text
  import opened Sets
  import opened Pipeline
  import opened Tables
  import opened Flow
  import opened FlowKept

  // ---------------------------------------------------------------- exclusivity within the lease

  /** Every batch in progress is still within one minute of its claim. */
  ghost predicate Timely(s: State) {
    forall p :: p in s.publishers && s.publishers[p].Holding? ==> s.clock <= s.publishers[p].since + 60_000
  }

  ghost predicate Owns(s: State, p: Id, e: Id) {
    e in s.outbox && s.outbox[e].lockedBy == Some(p)
    && p in s.publishers && s.publishers[p].Holding? && s.outbox[e].lockedAt == Some(s.publishers[p].since)
  }

  /** The lease of every event in a batch is the lease its publisher took. */
  ghost predicate LeasesHeld(s: State) {
    forall p, e :: p in s.publishers && s.publishers[p].Holding? && e in s.publishers[p].batch ==> Owns(s, p, e)
  }

  lemma ClaimLeases(s: State, p: Id, batch: seq<Id>, skipped: set<Id>, reported: bool)
    requires LeasesHeld(s) && Timely(s) && PublisherEnabled(s, p, Claim(batch, skipped, reported))
    ensures LeasesHeld(DoClaim(s, p, batch, reported))
  {
    var t := DoClaim(s, p, batch, reported);
    forall q, e | q in t.publishers && t.publishers[q].Holding? && e in t.publishers[q].batch
      ensures Owns(t, q, e)
    {
      if q != p {
        assert Owns(s, q, e);
        assert !Claimable(s, e);
      } else {
        assert Claimable(s, e);
      }
    }
  }

  /** A publisher that changes the row of its own first event changes nobody else's. */
  lemma OwnEventLeases(s: State, p: Id, row: Event, phase: Publisher, t: State)
    requires LeasesHeld(s) && PublisherOk(s, PublisherOf(s, p)) && PublisherOf(s, p).Holding?
    requires t == SetPublisher(SetEvent(s, PublisherOf(s, p).batch[0], row), p, phase)
    requires phase.Holding? ==> phase == Rest(PublisherOf(s, p).batch[1..], PublisherOf(s, p).since)
    ensures LeasesHeld(t)
  {
    var first := s.publishers[p].batch[0];
    assert Owns(s, p, first);
    forall q, e | q in t.publishers && t.publishers[q].Holding? && e in t.publishers[q].batch
      ensures Owns(t, q, e)
    {
      assert Owns(s, q, e);
      assert e != first;
    }
  }

  lemma PhaseLeases(s: State, p: Id, phase: Publisher, t: State)
    requires LeasesHeld(s) && t.outbox == s.outbox && t.publishers == s.publishers[p := phase]
    requires phase.Holding? ==> PublisherOf(s, p).Holding? && phase.since == PublisherOf(s, p).since
                                && forall e :: e in phase.batch ==> e in PublisherOf(s, p).batch
    ensures LeasesHeld(t)
  {
    forall q, e | q in t.publishers && t.publishers[q].Holding? && e in t.publishers[q].batch
      ensures Owns(t, q, e)
    {
      assert Owns(s, q, e);
    }
  }

  lemma MarkLeases(s: State, p: Id, applied: bool, reported: bool, t: State)
    requires LeasesHeld(s) && PublisherEnabled(s, p, Mark(applied, reported)) && PublisherOk(s, PublisherOf(s, p))
    requires t == DoMark(s, p, PublisherOf(s, p), applied, reported)
    ensures LeasesHeld(t)
  {
    var phase := PublisherOf(s, p);
    if applied {
      OwnEventLeases(s, p, t.outbox[phase.batch[0]], t.publishers[p], t);
    } else {
      PhaseLeases(s, p, Resting, t);
    }
  }

  lemma PublisherLeases(s: State, p: Id, step: PublisherStep, t: State)
    requires PublishersOk(s) && LeasesHeld(s) && Timely(s) && PublisherEnabled(s, p, step)
    requires t == PublisherApply(s, p, step)
    ensures LeasesHeld(t)
  {
    assert PublisherOk(s, PublisherOf(s, p));
    match step
    case Claim(batch, skipped, reported) => ClaimLeases(s, p, batch, skipped, reported);
    case Undecodable => PhaseLeases(s, p, t.publishers[p], t);
    case Send(_, _) => PhaseLeases(s, p, t.publishers[p], t);
    case Confirmation(_) => PhaseLeases(s, p, t.publishers[p], t);
    case Mark(applied, reported) => MarkLeases(s, p, applied, reported, t);
    case Release(applied) =>
      if applied {
        OwnEventLeases(s, p, t.outbox[PublisherOf(s, p).batch[0]], Resting, t);
      } else {
        PhaseLeases(s, p, Resting, t);
      }
    case Halt => PhaseLeases(s, p, Resting, t);
  }

  lemma OtherLeases(s: State, t: State)
    requires LeasesHeld(s) && t.publishers == s.publishers
    requires forall e :: e in s.outbox ==> e in t.outbox && t.outbox[e] == s.outbox[e]
    ensures LeasesHeld(t)
  {
    forall q, e | q in t.publishers && t.publishers[q].Holding? && e in t.publishers[q].batch
      ensures Owns(t, q, e)
    {
      assert Owns(s, q, e);
    }
  }

  lemma OthersLeaveLeases(s: State, step: Step, t: State)
    requires Inv(s) && Goes(s, step, t) && !step.ByPublisher?
    ensures t.publishers == s.publishers && forall e :: e in s.outbox ==> e in t.outbox && t.outbox[e] == s.outbox[e]
  {
    match step
    case ByCreator(c, cs) => CreatorGrows(s, c, cs);
    case ByChannel(w, ks) => ChannelFramed(s, w, ks);
    case ByWorker(w, ws) => WorkerFramed(s, w, ws);
    case Tick(_) =>
    case Inject(_) =>
  }

  lemma StepLeases(s: State, step: Step, t: State)
    requires Inv(s) && LeasesHeld(s) && Timely(s) && Goes(s, step, t)
    ensures LeasesHeld(t)
  {
    if step.ByPublisher? {
      PublisherLeases(s, step.p, step.publisher, t);
    } else {
      OthersLeaveLeases(s, step, t);
      OtherLeases(s, t);
    }
  }

  ghost predicate TimelyUntil(states: seq<State>, k: nat)
    requires k <= |states|
  {
    forall n :: 0 <= n < k ==> Timely(states[n])
  }

  lemma StepAtLeases(states: seq<State>, steps: seq<Step>, n: nat)
    requires Trace(states, steps) && n < |steps| && LeasesHeld(states[n]) && Timely(states[n])
    ensures LeasesHeld(states[n + 1])
  {
    StepAt(states, steps, n);
    StepLeases(states[n], steps[n], states[n + 1]);
  }

  lemma {:induction false} LeasesThroughout(states: seq<State>, steps: seq<Step>, k: nat)
    requires Trace(states, steps) && k < |states| && TimelyUntil(states, k)
    ensures LeasesHeld(states[k])
  {
    if k > 0 {
      LeasesThroughout(states, steps, k - 1);
      StepAtLeases(states, steps, k - 1);
    }
  }

  /** If every claimed batch is settled or given up within one minute, no two publishers ever hold the same event. */
  lemma LeaseExclusive(states: seq<State>, steps: seq<Step>, k: nat, p: Id, q: Id, e: Id)
    requires Trace(states, steps) && k < |states| && TimelyUntil(states, k)
    requires p in states[k].publishers && states[k].publishers[p].Holding? && e in states[k].publishers[p].batch
    requires q in states[k].publishers && states[k].publishers[q].Holding? && e in states[k].publishers[q].batch
    ensures p == q
  {
    LeasesThroughout(states, steps, k);
    assert Owns(states[k], p, e) && Owns(states[k], q, e);
  }

  lemma ClaimableIsFree(s: State, q: Id, e: Id)
    requires LeasesHeld(s) && Timely(s) && Claimable(s, e)
    ensures q in s.publishers && s.publishers[q].Holding? ==> e !in s.publishers[q].batch
  {
  }

  /** And a claim takes at most 25 distinct, unpublished events that nobody holds. */
  lemma ClaimsDisjoint(states: seq<State>, steps: seq<Step>, k: nat, q: Id, e: Id)
    requires Trace(states, steps) && k < |steps| && TimelyUntil(states, k + 1)
    requires steps[k].ByPublisher? && steps[k].publisher.Claim? && e in steps[k].publisher.batch
    ensures |steps[k].publisher.batch| <= 25 && Distinct(steps[k].publisher.batch)
    ensures e in states[k].outbox && states[k].outbox[e].publishedAt == None
    ensures q in states[k].publishers && states[k].publishers[q].Holding? ==> e !in states[k].publishers[q].batch
  {
    assert GoesAt(states, steps, k);
    LeasesThroughout(states, steps, k);
    assert Claimable(states[k], e);
    ClaimableIsFree(states[k], q, e);
  }

  /** Whatever is claimable can be claimed by itself, with all other rows locked at that moment. */
  lemma ClaimableAlone(s: State, e: Id)
    requires Claimable(s, e)
    ensures ClaimResult(s, [e], s.outbox.Keys - {e})
  {
  }

  /** The minute is exact: an unpublished event somebody holds can be claimed by another publisher if and only if
      more than the lease has passed since its claim. */
  lemma OverrunIff(s: State, p: Id, q: Id, e: Id)
    requires LeasesHeld(s) && PublisherOf(s, p).Holding? && e in PublisherOf(s, p).batch && e in s.outbox
    requires s.outbox[e].publishedAt == None && PublisherOf(s, q).Resting?
    ensures (exists batch, skipped :: e in batch && PublisherEnabled(s, q, Claim(batch, skipped, true)))
            <==> s.clock > PublisherOf(s, p).since + 60_000
  {
    assert Owns(s, p, e);
    if s.clock > PublisherOf(s, p).since + 60_000 {
      var skipped := s.outbox.Keys - {e};
      ClaimableAlone(s, e);
      assert e in [e] && PublisherEnabled(s, q, Claim([e], skipped, true));
    }
  }

  // ---------------------------------------------------------------- duplicates are accounted for

  function CopiesOf(b: Broker, e: Id): set<Id> {
    set c | c in b.copies && b.copies[c].origin == Some(e)
  }

  function Unsent(p: Publisher): seq<Id> {
    if p.Resting? || p.batch == [] then [] else if p.head.Unsent? then p.batch else p.batch[1..]
  }

  /** The publishers that have claimed `e` and not sent it yet. */
  function Holders(s: State, e: Id): set<Id> {
    set p | p in s.publishers && e in Unsent(s.publishers[p])
  }

  function ClaimsOf(s: State, e: Id): nat { if e in s.publications.claims then s.publications.claims[e] else 0 }

  /** What one step adds, event by event: to copies and unused claims at most what it adds to claims. */
  ghost predicate Balanced(s: State, t: State, e: Id) {
    |CopiesOf(t.broker, e)| + |Holders(t, e)| - ClaimsOf(t, e)
    <= |CopiesOf(s.broker, e)| + |Holders(s, e)| - ClaimsOf(s, e)
  }

  lemma NothingAdded(s: State, t: State, e: Id)
    requires CopiesOf(t.broker, e) == CopiesOf(s.broker, e) && Holders(t, e) <= Holders(s, e)
    requires ClaimsOf(t, e) == ClaimsOf(s, e)
    ensures Balanced(s, t, e)
    ensures |CopiesOf(t.broker, e)| + |Holders(t, e)| <= |CopiesOf(s.broker, e)| + |Holders(s, e)|
  {
    SubsetSize(Holders(t, e), Holders(s, e));
  }

  /** A claim adds one unused claim for each event of the batch, and nothing for any other. */
  lemma ClaimBalanced(s: State, p: Id, batch: seq<Id>, reported: bool, e: Id)
    requires PublisherOf(s, p).Resting? && s.publications.claims.Keys == s.outbox.Keys
    requires forall b :: b in batch ==> b in s.outbox
    ensures Balanced(s, DoClaim(s, p, batch, reported), e)
    ensures CopiesOf(DoClaim(s, p, batch, reported).broker, e) == CopiesOf(s.broker, e)
    ensures |Holders(DoClaim(s, p, batch, reported), e)| <= |Holders(s, e)| + (if e in batch then 1 else 0)
  {
    var t := DoClaim(s, p, batch, reported);
    assert p !in Holders(s, e);
    if e in batch && reported {
      assert Holders(t, e) == Holders(s, e) + {p};
    } else {
      assert Holders(t, e) == Holders(s, e);
    }
  }

  lemma SendHolders(s: State, p: Id, stored: bool, reported: bool, e: Id)
    requires AtEvent(s, PublisherOf(s, p)) && PublisherOf(s, p).head.Unsent? && Distinct(PublisherOf(s, p).batch)
    ensures var t := DoSend(s, p, PublisherOf(s, p), stored, reported);
            Holders(t, e) == if e == PublisherOf(s, p).batch[0] then Holders(s, e) - {p} else Holders(s, e)
    ensures e == PublisherOf(s, p).batch[0] ==> p in Holders(s, e)
  {
  }

  lemma SendCopies(s: State, p: Id, stored: bool, reported: bool, e: Id)
    requires FreshIds(s) && AtEvent(s, PublisherOf(s, p))
    ensures var t := DoSend(s, p, PublisherOf(s, p), stored, reported);
            && ClaimsOf(t, e) == ClaimsOf(s, e)
            && CopiesOf(t.broker, e)
               == CopiesOf(s.broker, e) + if stored && e == PublisherOf(s, p).batch[0] then {s.nextId} else {}
  {
  }

  /** Sending uses the claim up, whether or not a copy gets stored. */
  lemma SendBalanced(s: State, p: Id, stored: bool, reported: bool, t: State, e: Id)
    requires FreshIds(s) && AtEvent(s, PublisherOf(s, p)) && PublisherOf(s, p).head.Unsent?
    requires Distinct(PublisherOf(s, p).batch) && t == DoSend(s, p, PublisherOf(s, p), stored, reported)
    ensures Balanced(s, t, e) && ClaimsOf(t, e) == ClaimsOf(s, e)
  {
    SendHolders(s, p, stored, reported, e);
    SendCopies(s, p, stored, reported, e);
  }

  lemma PhaseBalanced(s: State, p: Id, t: State, e: Id)
    requires t.broker == s.broker && t.publications.claims == s.publications.claims && p in t.publishers
    requires t.publishers == s.publishers[p := t.publishers[p]]
    requires e in Unsent(t.publishers[p]) ==> e in Unsent(PublisherOf(s, p))
    ensures Balanced(s, t, e) && ClaimsOf(t, e) == ClaimsOf(s, e)
  {
    assert Holders(t, e) <= Holders(s, e);
    NothingAdded(s, t, e);
  }

  lemma ClaimStepBalanced(s: State, p: Id, batch: seq<Id>, skipped: set<Id>, reported: bool, t: State, e: Id)
    requires s.publications.claims.Keys == s.outbox.Keys
    requires PublisherEnabled(s, p, Claim(batch, skipped, reported)) && t == DoClaim(s, p, batch, reported)
    ensures Balanced(s, t, e)
    ensures e !in batch ==> ClaimsOf(t, e) == ClaimsOf(s, e)
  {
    assert forall b :: b in batch ==> Claimable(s, b);
    ClaimBalanced(s, p, batch, reported, e);
  }

  lemma PublisherBalanced(s: State, p: Id, step: PublisherStep, t: State, e: Id)
    requires FreshIds(s) && s.publications.claims.Keys == s.outbox.Keys && PublishersOk(s)
    requires PublisherEnabled(s, p, step) && t == PublisherApply(s, p, step)
    ensures Balanced(s, t, e)
    ensures !(step.Claim? && e in step.batch) ==> ClaimsOf(t, e) == ClaimsOf(s, e)
  {
    assert PublisherOk(s, PublisherOf(s, p));
    match step
    case Claim(batch, skipped, reported) => ClaimStepBalanced(s, p, batch, skipped, reported, t, e);
    case Undecodable => PhaseBalanced(s, p, t, e);
    case Send(stored, reported) => SendBalanced(s, p, stored, reported, t, e);
    case Confirmation(_) => PhaseBalanced(s, p, t, e);
    case Mark(_, _) => PhaseBalanced(s, p, t, e);
    case Release(_) => PhaseBalanced(s, p, t, e);
    case Halt => PhaseBalanced(s, p, t, e);
  }

  lemma OtherBalanced(s: State, t: State, e: Id)
    requires t.publishers == s.publishers && ClaimsOf(t, e) == ClaimsOf(s, e)
    requires CopiesOf(t.broker, e) == CopiesOf(s.broker, e)
    ensures Balanced(s, t, e)
  {
    assert Holders(t, e) == Holders(s, e);
  }

  predicate Claims(step: Step, e: Id) { step.ByPublisher? && step.publisher.Claim? && e in step.publisher.batch }

  lemma CreatorClaims(s: State, c: Id, step: CreatorStep, e: Id)
    requires CreatorsOk(s) && s.publications.claims.Keys == s.outbox.Keys && CreatorEnabled(s, c, step)
    ensures ClaimsOf(CreatorApply(s, c, step), e) == ClaimsOf(s, e)
  {
    assert c in s.creators ==> CreatorOk(s, s.creators[c]);
  }

  lemma CreatorBalanced(s: State, c: Id, step: CreatorStep, t: State, e: Id)
    requires CreatorsOk(s) && s.publications.claims.Keys == s.outbox.Keys
    requires CreatorEnabled(s, c, step) && t == CreatorApply(s, c, step)
    ensures Balanced(s, t, e) && ClaimsOf(t, e) == ClaimsOf(s, e)
  {
    CreatorFramed(s, c, step);
    CreatorClaims(s, c, step, e);
    OtherBalanced(s, t, e);
  }

  lemma ChannelBalanced(s: State, w: Id, step: ChannelStep, t: State, e: Id)
    requires ChannelEnabled(s, w, step) && t == ChannelApply(s, w, step)
    ensures Balanced(s, t, e) && ClaimsOf(t, e) == ClaimsOf(s, e)
  {
    ChannelFramed(s, w, step);
    OtherBalanced(s, t, e);
  }

  lemma WorkerBalanced(s: State, w: Id, step: WorkerStep, t: State, e: Id)
    requires s.work.attempts.Keys == s.imports.Keys && WorkerEnabled(s, w, step) && t == WorkerApply(s, w, step)
    ensures Balanced(s, t, e) && ClaimsOf(t, e) == ClaimsOf(s, e)
  {
    WorkerFramed(s, w, step);
    OtherBalanced(s, t, e);
  }

  lemma InjectBalanced(s: State, body: Body, t: State, e: Id)
    requires FreshIds(s) && t == Enqueue(s, Copy(None, body))
    ensures Balanced(s, t, e) && ClaimsOf(t, e) == ClaimsOf(s, e)
  {
    assert CopiesOf(t.broker, e) == CopiesOf(s.broker, e);
    OtherBalanced(s, t, e);
  }

  lemma TickBalanced(s: State, elapsed: nat, t: State, e: Id)
    requires t == s.(clock := s.clock + elapsed)
    ensures Balanced(s, t, e) && ClaimsOf(t, e) == ClaimsOf(s, e)
  {
    OtherBalanced(s, t, e);
  }

  lemma StepBalanced(s: State, step: Step, t: State, e: Id)
    requires TablesOk(s) && PublishersOk(s) && Goes(s, step, t)
    ensures Balanced(s, t, e)
    ensures !Claims(step, e) ==> ClaimsOf(t, e) == ClaimsOf(s, e)
  {
    match step
    case ByCreator(c, cs) => CreatorBalanced(s, c, cs, t, e);
    case ByPublisher(p, ps) => PublisherBalanced(s, p, ps, t, e);
    case ByChannel(w, ks) => ChannelBalanced(s, w, ks, t, e);
    case ByWorker(w, ws) => WorkerBalanced(s, w, ws, t, e);
    case Tick(elapsed) => TickBalanced(s, elapsed, t, e);
    case Inject(body) => InjectBalanced(s, body, t, e);
  }

  lemma StepAtBalanced(states: seq<State>, steps: seq<Step>, n: nat, e: Id)
    requires Trace(states, steps) && n < |steps|
    ensures Balanced(states[n], states[n + 1], e)
    ensures !Claims(steps[n], e) ==> ClaimsOf(states[n + 1], e) == ClaimsOf(states[n], e)
  {
    StepAt(states, steps, n);
    StepBalanced(states[n], steps[n], states[n + 1], e);
  }

  /** In every run, the copies queued for an event never exceed its claims. */
  lemma {:induction false} CopiesWithinClaims(states: seq<State>, steps: seq<Step>, k: nat, e: Id)
    requires Trace(states, steps) && k < |states|
    ensures |CopiesOf(states[k].broker, e)| + |Holders(states[k], e)| <= ClaimsOf(states[k], e)
  {
    if k > 0 {
      CopiesWithinClaims(states, steps, k - 1, e);
      StepAtBalanced(states, steps, k - 1, e);
    } else {
      assert CopiesOf(states[0].broker, e) == {} && Holders(states[0], e) == {};
    }
  }

  /** A claim of an event that was already queued, so that its mark is still missing, or that another publisher still
      has in its hands. */
  ghost predicate ClaimsAgain(s: State, step: Step, e: Id) {
    Claims(step, e) && (Enqueued(s.broker, e) || Holders(s, e) != {})
  }

  lemma NoCopies(b: Broker, e: Id)
    requires !Enqueued(b, e)
    ensures CopiesOf(b, e) == {}
  {
  }

  lemma ClaimStepOnce(s: State, step: Step, t: State, e: Id)
    requires OneEventEach(s) && Goes(s, step, t) && Claims(step, e) && !ClaimsAgain(s, step, e)
    ensures |CopiesOf(t.broker, e)| + |Holders(t, e)| <= 1
  {
    ClaimBalanced(s, step.p, step.publisher.batch, step.publisher.reported, e);
    assert CopiesOf(s.broker, e) == {} by { NoCopies(s.broker, e); }
  }

  lemma StepAtOnce(states: seq<State>, steps: seq<Step>, n: nat, e: Id)
    requires Trace(states, steps) && n < |steps| && !ClaimsAgain(states[n], steps[n], e)
    requires |CopiesOf(states[n].broker, e)| + |Holders(states[n], e)| <= 1
    ensures |CopiesOf(states[n + 1].broker, e)| + |Holders(states[n + 1], e)| <= 1
  {
    StepAt(states, steps, n);
    if Claims(steps[n], e) {
      ClaimStepOnce(states[n], steps[n], states[n + 1], e);
    } else {
      StepBalanced(states[n], steps[n], states[n + 1], e);
    }
  }

  /** A second copy has a cause: some claim of the event came after a copy was queued without a completed mark, or while
      another publisher still held it. Without such a claim each event is queued at most once. */
  lemma {:induction false} SecondCopyHasCause(states: seq<State>, steps: seq<Step>, k: nat, e: Id)
    requires Trace(states, steps) && k < |states|
    requires forall n :: 0 <= n < k ==> !ClaimsAgain(states[n], steps[n], e)
    ensures |CopiesOf(states[k].broker, e)| + |Holders(states[k], e)| <= 1
  {
    if k > 0 {
      SecondCopyHasCause(states, steps, k - 1, e);
      StepAtOnce(states, steps, k - 1, e);
    } else {
      assert CopiesOf(states[0].broker, e) == {} && Holders(states[0], e) == {};
    }
  }

  /** Within the leases, the only cause left is a copy that was queued without a completed mark. */
  lemma TimelyCause(states: seq<State>, steps: seq<Step>, k: nat, e: Id)
    requires Trace(states, steps) && k < |steps| && TimelyUntil(states, k + 1) && ClaimsAgain(states[k], steps[k], e)
    ensures Enqueued(states[k].broker, e) && e in states[k].outbox && states[k].outbox[e].publishedAt == None
  {
    ClaimsDisjoint(states, steps, k, 0, e);
    if Holders(states[k], e) != {} {
      var p :| p in Holders(states[k], e);
      ClaimsDisjoint(states, steps, k, p, e);
    }
  }
}
