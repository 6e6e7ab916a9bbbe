/** Whose data the tables hold: every row and its event carry, for good, what the request of one create call asked for,
    and that call is the one whose commit added them. */
module Requests {
  import opened Text
  import opened Pipeline
  import opened Tables
  import opened FlowKept
  import opened Ledger

  // ---------------------------------------------------------------- a row and the request it was made for

  /** Import `i` and its event carry the data of `req`; the event dates from the start of the transaction. */
  ghost predicate MadeFor(s: State, i: Id, req: Request, began: nat) {
    (
      && i in s.imports && i in s.creations.eventOf && s.creations.eventOf[i] in s.outbox
      && s.imports[i].tenant == req.tenant && s.imports[i].key == req.key
      && s.imports[i].source == req.source && s.imports[i].records == req.records
      && var event := s.outbox[s.creations.eventOf[i]];
         event.createdAt == began && event.body.Decoded? && event.body.payload.importId == i
         && event.body.payload.tenant == req.tenant && event.body.payload.source == req.source
         && event.body.payload.records == req.records
    ) == true
  }

  /** It is as a create transaction leaves it: QUEUED, never started, without error and end, its event unpublished. */
  ghost predicate Untouched(s: State, i: Id) {
    (
      && i in s.imports && s.imports[i].status == Queued && s.imports[i].attempts == 0 && s.imports[i].lastError == []
      && s.imports[i].processedAt == None
      && i in s.creations.eventOf && s.creations.eventOf[i] in s.outbox
      && s.outbox[s.creations.eventOf[i]].publishedAt == None && s.outbox[s.creations.eventOf[i]].lockedAt == None
    ) == true
  }

  lemma CommitMakes(s: State, c: Id, applied: bool, reported: bool, t: State)
    requires CreatorEnabled(s, c, Commit(applied, reported)) && CreatorOf(s, c).Written? && applied
    requires t == DoCommit(s, c, CreatorOf(s, c), applied, reported)
    ensures MadeFor(t, CreatorOf(s, c).id, CreatorOf(s, c).req, CreatorOf(s, c).began)
    ensures Untouched(t, CreatorOf(s, c).id)
  {
  }

  // ---------------------------------------------------------------- the data stays

  lemma CreatorKeepsPairs(s: State, c: Id, step: CreatorStep, t: State, i: Id)
    requires CreatorsOk(s) && CreatorEnabled(s, c, step) && t == CreatorApply(s, c, step)
    requires i in s.imports && i in s.creations.eventOf
    ensures i in t.creations.eventOf && t.creations.eventOf[i] == s.creations.eventOf[i]
  {
    assert c in s.creators ==> CreatorOk(s, s.creators[c]);
  }

  lemma CreatorKeepsData(s: State, c: Id, step: CreatorStep, t: State, i: Id, req: Request, began: nat)
    requires TablesOk(s) && CreatorEnabled(s, c, step) && t == CreatorApply(s, c, step) && MadeFor(s, i, req, began)
    ensures MadeFor(t, i, req, began)
  {
    CreatorGrows(s, c, step);
    CreatorKeepsPairs(s, c, step, t, i);
  }

  lemma AlikeKeepsData(s: State, t: State, i: Id, req: Request, began: nat)
    requires MadeFor(s, i, req, began) && TablesAlike(s, t)
    ensures MadeFor(t, i, req, began)
  {
    assert RowKey(t.imports[i]) == RowKey(s.imports[i]) && PayloadOf(i, t.imports[i]) == PayloadOf(i, s.imports[i]);
  }

  lemma StepKeepsData(s: State, step: Step, t: State, i: Id, req: Request, began: nat)
    requires TablesOk(s) && Goes(s, step, t) && MadeFor(s, i, req, began)
    ensures MadeFor(t, i, req, began)
  {
    if step.ByCreator? {
      CreatorKeepsData(s, step.c, step.creator, t, i, req, began);
    } else {
      OthersAlike(s, step, t);
      AlikeKeepsData(s, t, i, req, began);
    }
  }

  lemma StepAtKeepsData(states: seq<State>, steps: seq<Step>, n: nat, i: Id, req: Request, began: nat)
    requires Trace(states, steps) && n < |steps| && MadeFor(states[n], i, req, began)
    ensures MadeFor(states[n + 1], i, req, began)
  {
    StepAt(states, steps, n);
    StepKeepsData(states[n], steps[n], states[n + 1], i, req, began);
  }

  lemma {:induction false} DataForever(states: seq<State>, steps: seq<Step>, k: nat, m: nat, i: Id, req: Request,
                                       began: nat)
    requires Trace(states, steps) && k <= m < |states| && MadeFor(states[k], i, req, began)
    ensures MadeFor(states[m], i, req, began)
    decreases m - k
  {
    if k < m {
      DataForever(states, steps, k, m - 1, i, req, began);
      StepAtKeepsData(states, steps, m - 1, i, req, began);
    }
  }

  // ---------------------------------------------------------------- where an open transaction began

  predicate Open(c: Creator) { c.Snapshot? || c.Inserted? || c.Written? }

  /** Call `c` began with step `b` and has taken nothing but its inserts since. */
  ghost predicate OpenSince(states: seq<State>, steps: seq<Step>, c: Id, b: nat, k: nat) {
    (
      && Trace(states, steps) && b < k < |states| && Open(CreatorOf(states[k], c))
      && steps[b] == ByCreator(c, Begin(CreatorOf(states[k], c).req))
      && CreatorOf(states[k], c).began == states[b].clock
      && forall n :: b < n < k && TakenBy(c, steps[n]) ==> steps[n].creator.Insert? || steps[n].creator.WriteEvent?
    ) == true
  }

  lemma OpenBefore(s: State, c: Id, step: CreatorStep, t: State)
    requires CreatorEnabled(s, c, step) && t == CreatorApply(s, c, step) && Open(CreatorOf(t, c))
    ensures step.Begin? || step.Insert? || step.WriteEvent?
    ensures step.Begin? ==> step.req == CreatorOf(t, c).req && CreatorOf(t, c).began == s.clock
    ensures !step.Begin? ==> Open(CreatorOf(s, c)) && CreatorOf(t, c).req == CreatorOf(s, c).req
                             && CreatorOf(t, c).began == CreatorOf(s, c).began
  {
  }

  lemma OpenLonger(states: seq<State>, steps: seq<Step>, c: Id, b: nat, k: nat)
    requires OpenSince(states, steps, c, b, k) && k < |steps| && Open(CreatorOf(states[k + 1], c))
    requires TakenBy(c, steps[k]) ==> !steps[k].creator.Begin?
    ensures OpenSince(states, steps, c, b, k + 1)
  {
    StepAt(states, steps, k);
    if TakenBy(c, steps[k]) {
      OpenBefore(states[k], c, steps[k].creator, states[k + 1]);
    } else {
      StepAtLeavesCreator(states, steps, k, c);
    }
  }

  lemma OpenNow(states: seq<State>, steps: seq<Step>, c: Id, k: nat)
    requires Trace(states, steps) && k < |steps| && TakenBy(c, steps[k]) && steps[k].creator.Begin?
    ensures OpenSince(states, steps, c, k, k + 1)
  {
    StepAt(states, steps, k);
    OpenBefore(states[k], c, steps[k].creator, states[k + 1]);
  }

  lemma OpenStepBefore(states: seq<State>, steps: seq<Step>, c: Id, k: nat)
    requires Trace(states, steps) && k < |steps| && Open(CreatorOf(states[k + 1], c))
    requires TakenBy(c, steps[k]) ==> !steps[k].creator.Begin?
    ensures Open(CreatorOf(states[k], c))
  {
    StepAt(states, steps, k);
    if TakenBy(c, steps[k]) {
      OpenBefore(states[k], c, steps[k].creator, states[k + 1]);
    } else {
      StepAtLeavesCreator(states, steps, k, c);
    }
  }

  lemma {:induction false} BeganAt(states: seq<State>, steps: seq<Step>, c: Id, k: nat) returns (b: nat)
    requires Trace(states, steps) && k < |states| && Open(CreatorOf(states[k], c))
    ensures OpenSince(states, steps, c, b, k)
  {
    if k == 0 {
      assert false;
    } else if TakenBy(c, steps[k - 1]) && steps[k - 1].creator.Begin? {
      b := k - 1;
      OpenNow(states, steps, c, b);
    } else {
      OpenStepBefore(states, steps, c, k - 1);
      b := BeganAt(states, steps, c, k - 1);
      OpenLonger(states, steps, c, b, k - 1);
    }
  }

  // ---------------------------------------------------------------- every row is some request's

  /** Step `m` commits the call that step `b` began, and that adds import `i`. */
  ghost predicate AddedBy(states: seq<State>, steps: seq<Step>, c: Id, b: nat, m: nat, i: Id) {
    (
      && m < |steps| < |states| && OpenSince(states, steps, c, b, m) && CreatorOf(states[m], c).Written?
      && CreatorOf(states[m], c).id == i && i !in states[m].imports
      && TakenBy(c, steps[m]) && steps[m].creator.Commit? && steps[m].creator.applied
    ) == true
  }

  lemma NewRowOfCreator(s: State, c: Id, step: CreatorStep, t: State, i: Id)
    requires CreatorEnabled(s, c, step) && t == CreatorApply(s, c, step) && i !in s.imports && i in t.imports
    ensures step.Commit? && step.applied && CreatorOf(s, c).Written? && CreatorOf(s, c).id == i
  {
  }

  lemma NewRowIsCommitted(s: State, step: Step, t: State, i: Id)
    requires TablesOk(s) && Goes(s, step, t) && i !in s.imports && i in t.imports
    ensures step.ByCreator? && step.creator.Commit? && step.creator.applied
    ensures CreatorOf(s, step.c).Written? && CreatorOf(s, step.c).id == i
  {
    if step.ByCreator? {
      NewRowOfCreator(s, step.c, step.creator, t, i);
    } else {
      OthersAlike(s, step, t);
    }
  }

  /** An applied commit of an insert adds a row and an event with the data of its call's request, as QUEUED and
      unpublished, and they carry that data for good. */
  lemma CommittedForGood(states: seq<State>, steps: seq<Step>, c: Id, m: nat, k: nat) returns (b: nat)
    requires Trace(states, steps) && m < |steps| && m < k < |states| && CreatorOf(states[m], c).Written?
    requires TakenBy(c, steps[m]) && steps[m].creator.Commit? && steps[m].creator.applied
    ensures var i := CreatorOf(states[m], c).id;
            && AddedBy(states, steps, c, b, m, i) && Untouched(states[m + 1], i)
            && MadeFor(states[k], i, steps[b].creator.req, states[b].clock)
  {
    b := BeganAt(states, steps, c, m);
    StepAt(states, steps, m);
    assert CreatorOk(states[m], CreatorOf(states[m], c));
    CommitMakes(states[m], c, true, steps[m].creator.reported, states[m + 1]);
    DataForever(states, steps, m + 1, k, CreatorOf(states[m], c).id, steps[b].creator.req, states[b].clock);
  }

  /** Every row of every state was added by such a commit, and carries with its event what the request of that very
      call asked for. */
  lemma {:induction false} EveryRowHasItsRequest(states: seq<State>, steps: seq<Step>, k: nat, i: Id)
    returns (c: Id, b: nat, m: nat)
    requires Trace(states, steps) && k < |states| && i in states[k].imports
    ensures m < k && AddedBy(states, steps, c, b, m, i) && steps[b].ByCreator? && steps[b].creator.Begin?
    ensures MadeFor(states[k], i, steps[b].creator.req, states[b].clock)
  {
    if k == 0 {
      assert false;
    } else if i in states[k - 1].imports {
      c, b, m := EveryRowHasItsRequest(states, steps, k - 1, i);
      StepAtKeepsData(states, steps, k - 1, i, steps[b].creator.req, states[b].clock);
    } else {
      StepAt(states, steps, k - 1);
      NewRowIsCommitted(states[k - 1], steps[k - 1], states[k], i);
      c, m := steps[k - 1].c, k - 1;
      b := CommittedForGood(states, steps, c, m, k);
    }
  }
}
