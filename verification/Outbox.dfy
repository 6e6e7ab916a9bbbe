/** The outbox publisher: `publishBatch` claims up to 25 events and publishes and marks them one after the other,
    with an early exit on the first failure. */
module Outbox {
  import opened Text
  import opened Pipeline
  import opened Flow
  import opened Ledger
  import opened Platform

  datatype BatchError = NoError | ClaimFailed | PublishFailed | MarkFailed

  ghost predicate AllPublished(s: State, events: seq<Id>) {
    forall e :: e in events ==> Published(s, e)
  }

  lemma StayPublished(states: seq<State>, steps: seq<Step>, states': seq<State>, steps': seq<Step>, events: seq<Id>)
    requires Trace(states, steps) && Trace(states', steps') && Continues(states, states')
    requires AllPublished(states[|steps|], events)
    ensures AllPublished(states'[|steps'|], events)
  {
    forall e | e in events
      ensures Published(states'[|steps'|], e)
    {
      assert states'[|steps|] == states[|steps|];
      PublishedForever(states', steps', |steps|, |steps'|, e);
    }
  }

  // ---------------------------------------------------------------- which steps a batch consists of

  function ForOneEvent(p: Id): seq<Step> {
    [ByPublisher(p, Send(true, true)), ByPublisher(p, Confirmation(true)), ByPublisher(p, Mark(true, true))]
  }

  function ForEvents(p: Id, n: nat): seq<Step> {
    if n == 0 then [] else ForEvents(p, n - 1) + ForOneEvent(p)
  }

  /** A publish that did not succeed: its send failed or its confirmation did not come. */
  ghost predicate Unsuccessful(p: Id, own: seq<Step>) {
    exists stored :: own == [ByPublisher(p, Pipeline.Send(stored, false))]
                     || own == [ByPublisher(p, Pipeline.Send(stored, true)), ByPublisher(p, Confirmation(false))]
  }

  /** The steps about the event at which a batch was given up. */
  ghost predicate Broken(p: Id, own: seq<Step>, err: BatchError) {
    match err
    case PublishFailed => exists publish, r ::
        own == publish + [ByPublisher(p, Pipeline.Release(r))] && Unsuccessful(p, publish)
    case MarkFailed =>
      exists applied ::
        own == [ByPublisher(p, Pipeline.Send(true, true)), ByPublisher(p, Confirmation(true)),
            ByPublisher(p, Mark(applied, false))]
    case _ => false
  }

  /** How a batch ends after its first `published` events, and with which error. */
  ghost predicate Ending(p: Id, last: seq<Step>, size: nat, published: nat, err: BatchError) {
    match err
    case NoError => last == [] && published == size
    case ClaimFailed => last == [] && published == 0
    case _ => published < size && Broken(p, last, err)
  }

  function BatchOf(p: Id, batch: seq<Id>, skipped: set<Id>, published: nat, last: seq<Step>,
                   err: BatchError): seq<Step> {
    [ByPublisher(p, Claim(batch, skipped, !err.ClaimFailed?))] + ForEvents(p, published) + last
  }

  /** One claim; then, event by event in the order they came back, a confirmed publish and a mark; and at the first
      failure at most one release, of that event alone. */
  ghost predicate BatchSteps(p: Id, own: seq<Step>, batch: seq<Id>, published: nat, err: BatchError) {
    exists skipped, last :: Ending(p, last, |batch|, published, err)
        && own == BatchOf(p, batch, skipped, published, last, err)
  }

  /** The same about everything a publisher did so far and what it had done `before`. */
  ghost predicate Batched(p: Id, before: seq<Step>, own: seq<Step>, batch: seq<Id>, published: nat, err: BatchError) {
    (before <= own && BatchSteps(p, own[|before|..], batch, published, err)) == true
  }

  lemma OneMore(p: Id, n: nat, before: seq<Step>)
    ensures before + ForEvents(p, n) + ForOneEvent(p) == before + ForEvents(p, n + 1)
  {
    assert before + ForEvents(p, n) + ForOneEvent(p) == before + (ForEvents(p, n) + ForOneEvent(p));
  }

  lemma Composed(p: Id, before: seq<Step>, own: seq<Step>, batch: seq<Id>, skipped: set<Id>, published: nat,
                 last: seq<Step>, err: BatchError)
    requires own == before + [ByPublisher(p, Claim(batch, skipped, !err.ClaimFailed?))] + ForEvents(p, published) + last
    requires Ending(p, last, |batch|, published, err)
    ensures Batched(p, before, own, batch, published, err)
  {
    assert own[|before|..] == BatchOf(p, batch, skipped, published, last, err);
  }

  /** The publisher is at event `e`, as far as `head`. */
  predicate At(s: State, p: Id, e: Id, head: Head) {
    PublisherOf(s, p).Holding? && PublisherOf(s, p).batch != [] && PublisherOf(s, p).batch[0] == e
        && PublisherOf(s, p).head == head
  }

  predicate DecodedEvent(s: State, e: Id) { e in s.outbox && s.outbox[e].body.Decoded? }

  function Next(phase: Publisher): Publisher
    requires phase.Holding? && phase.batch != []
  {
    Rest(phase.batch[1..], phase.since)
  }

  lemma AtHead(s: State, p: Id)
    requires Inv(s) && PublisherOf(s, p).Holding?
    ensures AtEvent(s, PublisherOf(s, p))
  {
    assert PublisherOk(s, s.publishers[p]);
  }

  /** The outbox holds no text that does not decode. */
  lemma StillDecoded(s: State, e: Id)
    requires Inv(s) && e in s.outbox
    ensures DecodedEvent(s, e)
  {
  }

  lemma MarkEffect(s: State, p: Id, applied: bool, ok: bool, t: State)
    requires AtEvent(s, PublisherOf(s, p)) && t == DoMark(s, p, PublisherOf(s, p), applied, ok)
    ensures applied ==> Published(t, PublisherOf(s, p).batch[0]) && Unleased(s, PublisherOf(s, p).batch[0], true, t)
    ensures PublisherOf(t, p) == if ok then Next(PublisherOf(s, p)) else Resting
  {
  }

  /** The claim takes the oldest free events, and changes nothing of the outbox but their leases. */
  ghost predicate Leased(s: State, p: Id, batch: seq<Id>, skipped: set<Id>, t: State) {
    (
      && OldestFirst(s, batch, skipped) && t.clock == s.clock && t.outbox.Keys == s.outbox.Keys
      && (forall e :: e in batch ==>
            e in s.outbox && t.outbox[e] == s.outbox[e].(lockedAt := Some(s.clock), lockedBy := Some(p)))
      && (forall e :: e in s.outbox && e !in batch ==> t.outbox[e] == s.outbox[e])
    ) == true
  }

  lemma ClaimLeases(s: State, p: Id, batch: seq<Id>, skipped: set<Id>, reported: bool, t: State)
    requires ClaimResult(s, batch, skipped) && t == DoClaim(s, p, batch, reported)
    ensures Leased(s, p, batch, skipped, t)
  {
    ClaimsOldestFirst(s, batch, skipped);
  }

  /** The event's row alone changes: it is unleased, and published at this moment if `marked`. A release leaves it to be
      claimed again at once, unless it was published before. */
  ghost predicate Unleased(s: State, e: Id, marked: bool, t: State) {
    (
      && e in s.outbox && t.outbox.Keys == s.outbox.Keys
      && (forall f :: f in s.outbox && f != e ==> t.outbox[f] == s.outbox[f])
      && t.outbox[e].lockedAt == None && t.outbox[e].lockedBy == None
      && t.outbox[e].body == s.outbox[e].body && t.outbox[e].createdAt == s.outbox[e].createdAt
      && t.outbox[e].publishedAt == (if marked then Some(t.clock) else s.outbox[e].publishedAt)
      && (t.outbox[e].publishedAt == None ==> Claimable(t, e))
    ) == true
  }

  lemma ReleaseEffect(s: State, p: Id, t: State)
    requires AtEvent(s, PublisherOf(s, p)) && t == DoRelease(s, p, PublisherOf(s, p), true)
    ensures Unleased(s, PublisherOf(s, p).batch[0], false, t)
  {
  }

  /** What a call does depends on what befalls it. Where `calm` is true, no statement, send or confirmation fails. */
  class OutboxPublisher {
    const system: System
    const id: Id

    constructor (system: System, id: Id)
      ensures this.system == system && this.id == id
    {
      this.system := system;
      this.id := id;
    }

    /** `ClaimOutbox`: the rows are leased if the statement took effect; the caller learns of them only from its
        report. */
    method ClaimOutbox(calm: bool) returns (batch: seq<Id>, skipped: set<Id>, ok: bool)
      requires system.Valid() && PublisherOf(system.st, id).Resting?
      modifies system
      ensures system.Valid() && Continues(old(system.states), system.states)
      ensures Own(Publishing(id), system.steps)
              == Own(Publishing(id), old(system.steps)) + [ByPublisher(id, Claim(batch, skipped, ok))]
      ensures PublisherOf(system.st, id) == if ok then Rest(batch, system.st.clock) else Resting
      ensures Distinct(batch) && |batch| <= BATCH && (calm ==> ok)
      // The batch is the oldest there is at its moment, and from then on leased under the publisher's name.
      ensures |system.states| >= 2 && Leased(system.states[|system.states| - 2], id, batch, skipped, system.st)
    {
      system.Others(Publishing(id));
      skipped := *;
      ok := *;
      ok := ok || calm;
      batch := SelectCandidates(system.st, skipped);
      ghost var s := system.st;
      system.Act(Publishing(id), ByPublisher(id, Claim(batch, skipped, ok)));
      ClaimLeases(s, id, batch, skipped, ok, system.st);
    }

    /** The frame is written to the channel; the message may enter the queue whatever the call reports. */
    method Send(e: Id, calm: bool) returns (ok: bool, ghost stored: bool)
      requires system.Valid() && At(system.st, id, e, Unsent)
      modifies system
      ensures system.Valid() && Continues(old(system.states), system.states)
      ensures Own(Publishing(id), system.steps) == Own(Publishing(id), old(system.steps))
          + [ByPublisher(id, Pipeline.Send(stored, ok))]
      ensures PublisherOf(system.st, id)
              == old(PublisherOf(system.st, id)).(head := if ok then Awaiting(stored) else Unpublished)
      ensures calm ==> ok && stored
    {
      system.Others(Publishing(id));
      system.Sound();
      AtHead(system.st, id);
      StillDecoded(system.st, e);
      var queued: bool := *;
      ok := *;
      queued, ok := queued || calm, ok || calm;
      stored := queued;
      system.Act(Publishing(id), ByPublisher(id, Pipeline.Send(queued, ok)));
    }

    /** The confirmation, a closed channel, or the end of the context: only a positive confirmation counts. */
    method AwaitConfirmation(e: Id, calm: bool) returns (ok: bool)
      requires system.Valid() && PublisherOf(system.st, id).Holding? && PublisherOf(system.st, id).head.Awaiting?
      modifies system
      ensures system.Valid() && Continues(old(system.states), system.states)
      ensures Own(Publishing(id), system.steps) == Own(Publishing(id), old(system.steps))
          + [ByPublisher(id, Confirmation(ok))]
      ensures PublisherOf(system.st, id)
              == old(PublisherOf(system.st, id)).(head := if ok then Confirmed else Unpublished)
      ensures ok ==> old(PublisherOf(system.st, id)).head.stored
      ensures calm && old(PublisherOf(system.st, id)).head.stored ==> ok
    {
      system.Others(Publishing(id));
      system.Sound();
      AtHead(system.st, id);
      ok := *;
      ok := (ok || calm) && PublisherOf(system.st, id).head.stored;
      system.Act(Publishing(id), ByPublisher(id, Confirmation(ok)));
    }

    method Publish(e: Id, calm: bool) returns (ok: bool, ghost own: seq<Step>)
      requires system.Valid() && At(system.st, id, e, Unsent)
      modifies system
      ensures system.Valid() && Continues(old(system.states), system.states)
      ensures Own(Publishing(id), system.steps) == Own(Publishing(id), old(system.steps)) + own
      ensures PublisherOf(system.st, id)
              == old(PublisherOf(system.st, id)).(head := if ok then Confirmed else Unpublished)
      ensures ok ==> own == [ByPublisher(id, Pipeline.Send(true, true)), ByPublisher(id, Confirmation(true))]
      ensures !ok ==> !calm && Unsuccessful(id, own)
    {
      ghost var stored;
      ok, stored := Send(e, calm);
      own := [ByPublisher(id, Pipeline.Send(stored, ok))];
      if ok {
        ok := AwaitConfirmation(e, calm);
        own := own + [ByPublisher(id, Confirmation(ok))];
      }
    }

    /** `MarkOutboxPublished`. */
    method MarkPublished(e: Id, calm: bool) returns (ok: bool, ghost applied: bool)
      requires system.Valid() && At(system.st, id, e, Confirmed)
      modifies system
      ensures system.Valid() && Continues(old(system.states), system.states)
      ensures Own(Publishing(id), system.steps) == Own(Publishing(id), old(system.steps))
          + [ByPublisher(id, Mark(applied, ok))]
      ensures (ok ==> applied && AllPublished(system.st, [e])) && (calm ==> ok)
      ensures applied ==>
                |system.states| >= 2 && Unleased(system.states[|system.states| - 2], e, true, system.st)
      ensures PublisherOf(system.st, id) == if ok then old(Next(PublisherOf(system.st, id))) else Resting
    {
      system.Others(Publishing(id));
      assert AtEvent(system.st, PublisherOf(system.st, id)) by {
        system.Sound();
        AtHead(system.st, id);
      }
      var took: bool := *;
      ok := *;
      took, ok := took || calm, (ok && took) || calm;
      applied := took;
      ghost var s := system.st;
      system.Act(Publishing(id), ByPublisher(id, Mark(took, ok)));
      MarkEffect(s, id, took, ok, system.st);
    }

    /** `ReleaseOutbox`; its error is ignored. */
    method Release(e: Id) returns (ghost applied: bool)
      requires system.Valid() && At(system.st, id, e, Unpublished)
      modifies system
      ensures system.Valid() && Continues(old(system.states), system.states)
      ensures Own(Publishing(id), system.steps) == Own(Publishing(id), old(system.steps))
          + [ByPublisher(id, Pipeline.Release(applied))]
      ensures PublisherOf(system.st, id) == Resting
      ensures applied ==>
                |system.states| >= 2 && Unleased(system.states[|system.states| - 2], e, false, system.st)
    {
      system.Others(Publishing(id));
      assert AtEvent(system.st, PublisherOf(system.st, id)) by {
        system.Sound();
        AtHead(system.st, id);
      }
      var took: bool := *;
      applied := took;
      ghost var s := system.st;
      system.Act(Publishing(id), ByPublisher(id, Pipeline.Release(took)));
      if took {
        ReleaseEffect(s, id, system.st);
      }
    }

    /** The loop body of `publishBatch`. */
    method PublishOne(e: Id, calm: bool) returns (err: BatchError, ghost own: seq<Step>)
      requires system.Valid() && At(system.st, id, e, Unsent)
      modifies system
      ensures system.Valid() && Continues(old(system.states), system.states)
      ensures Own(Publishing(id), system.steps) == Own(Publishing(id), old(system.steps)) + own
      ensures err.NoError? ==> own == ForOneEvent(id) && AllPublished(system.st, [e])
                               && PublisherOf(system.st, id) == old(Next(PublisherOf(system.st, id)))
      ensures !err.NoError? ==> !calm && Broken(id, own, err) && PublisherOf(system.st, id).Resting?
    {
      var ok;
      ok, own := Publish(e, calm);
      if ok {
        ghost var applied;
        ok, applied := MarkPublished(e, calm);
        own := own + [ByPublisher(id, Mark(applied, ok))];
        err := if ok then NoError else MarkFailed;
      } else {
        ghost var released := Release(e);
        own := own + [ByPublisher(id, Pipeline.Release(released))];
        err := PublishFailed;
      }
    }

    /** In a batch, with the first `i` events done. */
    ghost predicate MidBatch(before: seq<Step>, batch: seq<Id>, skipped: set<Id>, since: nat, i: nat)
      reads system
    {
      (
        && i <= |batch| && system.Valid() && PublisherOf(system.st, id) == Rest(batch[i..], since)
        && Own(Publishing(id), system.steps) == before + [ByPublisher(id, Claim(batch, skipped, true))]
            + ForEvents(id, i)
        && AllPublished(system.st, batch[..i])
      ) == true
    }

    method NextEvent(batch: seq<Id>, i: nat, calm: bool, ghost before: seq<Step>, ghost skipped: set<Id>,
                     ghost since: nat)
      returns (err: BatchError)
      requires i < |batch| && MidBatch(before, batch, skipped, since, i)
      modifies system
      ensures system.Valid() && Continues(old(system.states), system.states)
      ensures err.NoError? ==> MidBatch(before, batch, skipped, since, i + 1)
      ensures !err.NoError? && !err.ClaimFailed? ==>
                && PublisherOf(system.st, id).Resting?
                    && Batched(id, before, Own(Publishing(id), system.steps), batch, i, err)
                && AllPublished(system.st, batch[..i])
      ensures !err.ClaimFailed? && (calm ==> err.NoError?)
    {
      ghost var states, steps := system.states, system.steps;
      ghost var own;
      err, own := PublishOne(batch[i], calm);
      StayPublished(states, steps, system.states, system.steps, batch[..i]);
      if err.NoError? {
        OneMore(id, i, before + [ByPublisher(id, Claim(batch, skipped, true))]);
        assert batch[..i + 1] == batch[..i] + [batch[i]];
      } else {
        Composed(id, before, Own(Publishing(id), system.steps), batch, skipped, i, own, err);
      }
    }

    method PublishEvents(events: seq<Id>, calm: bool, ghost before: seq<Step>, ghost skipped: set<Id>, ghost since: nat)
      returns (err: BatchError, ghost published: nat)
      requires MidBatch(before, events, skipped, since, 0)
      modifies system
      ensures system.Valid() && Continues(old(system.states), system.states) && PublisherOf(system.st, id).Resting?
      ensures Batched(id, before, Own(Publishing(id), system.steps), events, published, err)
      ensures published <= |events| && AllPublished(system.st, events[..published]) && (calm ==> err.NoError?)
    {
      var i := 0;
      err, published := NoError, 0;
      while i < |events|
        invariant 0 <= i <= |events| && published == i && err.NoError?
        invariant Continues(old(system.states), system.states) && MidBatch(before, events, skipped, since, i)
      {
        err := NextEvent(events, i, calm, before, skipped, since);
        if !err.NoError? {
          return;
        }
        i := i + 1;
        published := i;
      }
      Composed(id, before, Own(Publishing(id), system.steps), events, skipped, i, [], NoError);
    }

    /** `publishBatch`: whatever others do in between, it claims at most 25 different events, takes exactly the steps
        of a batch, leaves the first `published` of them published, and rests. If nothing fails it publishes all it
        claimed. */
    method PublishBatch(calm: bool) returns (err: BatchError, ghost batch: seq<Id>, ghost published: nat)
      requires system.Valid() && PublisherOf(system.st, id).Resting?
      modifies system
      ensures system.Valid() && Continues(old(system.states), system.states) && PublisherOf(system.st, id).Resting?
      ensures Batched(id, Own(Publishing(id), old(system.steps)), Own(Publishing(id), system.steps), batch, published,
          err)
      ensures Distinct(batch) && |batch| <= 25 && published <= |batch|
      ensures AllPublished(system.st, batch[..published])
      ensures calm ==> err.NoError? && AllPublished(system.st, batch)
    {
      ghost var before := Own(Publishing(id), system.steps);
      var events, skipped, ok := ClaimOutbox(calm);
      batch := events;
      if ok {
        err, published := PublishEvents(events, calm, before, skipped, system.st.clock);
      } else {
        err, published := ClaimFailed, 0;
        Composed(id, before, Own(Publishing(id), system.steps), batch, skipped, 0, [], err);
      }
    }
  }
}
