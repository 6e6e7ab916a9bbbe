/** `CreateImport`: one READ COMMITTED transaction that inserts the row or finds the one that is there. */
module Creation {
  import opened Pipeline
  import opened Tables
  import opened Platform
  import Requests

  datatype Result = Created(id: Id, replay: bool) | CreateError

  /** Which steps a call takes, by what it returns. */
  ghost predicate CreateSteps(c: Id, own: seq<Step>, req: Request, result: Result) {
    match result
    case Created(_, false) =>
      own == [ByCreator(c, Begin(req)), ByCreator(c, Insert), ByCreator(c, WriteEvent),
          ByCreator(c, Commit(true, true))]
    case Created(_, true) =>
      own == [ByCreator(c, Begin(req)), ByCreator(c, Conflict), ByCreator(c, Commit(true, true))]
    case CreateError =>
      || own == [ByCreator(c, Begin(req)), ByCreator(c, Abort)]
      || own == [ByCreator(c, Begin(req)), ByCreator(c, Conflict)]
      || own == [ByCreator(c, Begin(req)), ByCreator(c, Insert), ByCreator(c, Abort)]
      || (exists applied ::
            own == [ByCreator(c, Begin(req)), ByCreator(c, Conflict), ByCreator(c, Commit(applied, false))])
      || (exists applied ::
            own == [ByCreator(c, Begin(req)), ByCreator(c, Insert), ByCreator(c, WriteEvent),
                ByCreator(c, Commit(applied, false))])
  }

  ghost predicate CreateCall(c: Id, before: seq<Step>, own: seq<Step>, req: Request, result: Result) {
    (before <= own && CreateSteps(c, own[|before|..], req, result)) == true
  }

  lemma Composed(c: Id, before: seq<Step>, steps: seq<Step>, own: seq<Step>, req: Request, result: Result)
    requires own == before + steps && CreateSteps(c, steps, req, result)
    ensures CreateCall(c, before, own, req, result)
  {
    assert own[|before|..] == steps;
  }

  /** The answer a call returned, as the tables know it. */
  ghost predicate Answers(s: State, req: Request, result: Result) {
    result.Created? ==>
      (
        && Reply(KeyOf(req), result.id, result.replay) in s.creations.replies
        && KeyOf(req) in s.index && s.index[KeyOf(req)] == result.id && result.id in s.imports
        && s.imports[result.id].tenant == req.tenant && s.imports[result.id].key == req.key
        && (!result.replay ==>
              Requests.Untouched(s, result.id) && exists began :: Requests.MadeFor(s, result.id, req, began))
      ) == true
  }

  lemma NewRowAnswers(s: State, c: Id, t: State)
    requires CreatorOf(s, c).Written? && t == DoCommit(s, c, CreatorOf(s, c), true, true)
    ensures Answers(t, CreatorOf(s, c).req, Created(CreatorOf(s, c).id, false))
  {
    Requests.CommitMakes(s, c, true, true, t);
  }

  lemma CommitAnswers(s: State, c: Id, t: State)
    requires TablesOk(s) && CreatorEnabled(s, c, Commit(true, true)) && t == DoCommit(s, c, CreatorOf(s, c), true, true)
    ensures Answers(t, CreatorOf(s, c).req, Created(CreatorOf(s, c).id, CreatorOf(s, c).Replaying?))
    ensures CreatorOf(t, c).NoTransaction?
  {
    assert CreatorOk(s, CreatorOf(s, c));
    if CreatorOf(s, c).Written? {
      NewRowAnswers(s, c, t);
    }
  }

  lemma FoundPhase(s: State, c: Id, step: CreatorStep, t: State)
    requires CreatorOf(s, c).Snapshot? && step in [Abort, Conflict, Insert] && Goes(s, ByCreator(c, step), t)
    ensures var next := CreatorOf(t, c);
            && (step.Insert? ==> next.Inserted? && next.req == CreatorOf(s, c).req)
            && (step.Conflict? ==> next.NoTransaction? || (next.Replaying? && next.req == CreatorOf(s, c).req))
            && (step.Abort? ==> next.NoTransaction?)
  {
  }

  /** Why a call can fail although no statement of it does: the row breaks the range check, the statement waits for a
      transaction that holds the key, or it finds a row its snapshot does not see. */
  ghost predicate Excused(s: State, c: Id, req: Request) {
    || !(1 <= req.records <= 10_000)
    || KeyHeld(s, KeyOf(req))
    || (KeyOf(req) in s.index && CreatorOf(s, c).Snapshot? && CreatorOf(s, c).seen.None?)
  }

  /** Where `calm` is true, no statement fails; it can still be refused or have to wait. */
  class Store {
    const system: System
    const id: Id

    constructor (system: System, id: Id)
      ensures this.system == system && this.id == id
    {
      this.system := system;
      this.id := id;
    }

    ghost predicate Has(phase: Creator, own: seq<Step>)
      reads system
    {
      (system.Valid() && CreatorOf(system.st, id) == phase && Own(Creating(id), system.steps) == own) == true
    }

    method BeginTransaction(req: Request, ghost own: seq<Step>)
      requires Has(NoTransaction, own)
      modifies system
      ensures system.Valid() && Continues(old(system.states), system.states)
      ensures CreatorOf(system.st, id).Snapshot? && CreatorOf(system.st, id).req == req
      ensures Own(Creating(id), system.steps) == own + [ByCreator(id, Begin(req))]
    {
      system.Others(Creating(id));
      system.Act(Creating(id), ByCreator(id, Begin(req)));
    }

    /** How the statement ends: it fails, finds the key taken, or inserts once nobody else holds the key. */
    method Ending(calm: bool) returns (step: CreatorStep)
      requires CreatorOf(system.st, id).Snapshot?
      ensures step in [Abort, Conflict, Insert] && CreatorEnabled(system.st, id, step)
      ensures calm && step == Abort ==> Excused(system.st, id, CreatorOf(system.st, id).req)
    {
      var fails: bool := *;
      fails := fails && !calm;
      step := if !fails && CreatorEnabled(system.st, id, Conflict) then Conflict
              else if !fails && CreatorEnabled(system.st, id, Insert) then Insert
              else Abort;
    }

    /** The INSERT ... ON CONFLICT DO NOTHING with its UNION: it waits for an open transaction that holds the key, and
        may fail instead. A conflicting row that the statement's snapshot does not see gives no row at all. */
    method InsertOrFind(req: Request, calm: bool, ghost own: seq<Step>)
      returns (next: Creator, ghost taken: seq<Step>)
      requires Has(NoTransaction, own)
      modifies system
      ensures Continues(old(system.states), system.states) && Has(next, own + taken)
      ensures next.Inserted? ==> next.req == req && taken == [ByCreator(id, Begin(req)), ByCreator(id, Insert)]
      ensures next.Replaying? ==> next.req == req && taken == [ByCreator(id, Begin(req)), ByCreator(id, Conflict)]
      ensures calm && next.NoTransaction? ==>
          |system.states| >= 2 && Excused(system.states[|system.states| - 2], id, req)
      ensures next.Inserted? || next.Replaying? || (next.NoTransaction? && CreateSteps(id, taken, req, CreateError))
    {
      BeginTransaction(req, own);
      system.Others(Creating(id));
      var step := Ending(calm);
      ghost var at := system.st;
      system.Act(Creating(id), ByCreator(id, step));
      FoundPhase(at, id, step, system.st);
      next := CreatorOf(system.st, id);
      taken := [ByCreator(id, Begin(req)), ByCreator(id, step)];
      assert own + [ByCreator(id, Begin(req))] + [ByCreator(id, step)] == own + taken;
    }

    /** The outbox row of the same transaction. */
    method InsertEvent(phase: Creator, calm: bool, ghost own: seq<Step>)
      returns (next: Creator, ghost step: CreatorStep)
      requires Has(phase, own) && phase.Inserted?
      modifies system
      ensures Continues(old(system.states), system.states) && Has(next, own + [ByCreator(id, step)])
      ensures (step == WriteEvent && next.Written? && next.req == phase.req)
              || (step == Abort && next.NoTransaction? && !calm)
    {
      system.Others(Creating(id));
      var fails: bool := *;
      var choice := if fails && !calm then Abort else WriteEvent;
      step := choice;
      system.Act(Creating(id), ByCreator(id, choice));
      next := CreatorOf(system.st, id);
    }

    method CommitTransaction(phase: Creator, calm: bool, ghost own: seq<Step>)
      returns (result: Result, ghost applied: bool)
      requires Has(phase, own) && (phase.Written? || phase.Replaying?)
      modifies system
      ensures Continues(old(system.states), system.states)
      ensures Has(NoTransaction, own + [ByCreator(id, Commit(applied, result.Created?))])
      ensures calm ==> result.Created?
      ensures result.Created? ==> applied && result.replay == phase.Replaying? && Answers(system.st, phase.req, result)
    {
      system.Others(Creating(id));
      var took, reported: bool := *, *;
      took, reported := took || calm, (reported && took) || calm;
      applied := took;
      assert TablesOk(system.st) by { system.Sound(); }
      ghost var s := system.st;
      system.Act(Creating(id), ByCreator(id, Commit(took, reported)));
      if reported {
        CommitAnswers(s, id, system.st);
        result := Created(phase.id, phase.Replaying?);
      } else {
        result := CreateError;
      }
    }

    /** Writes the event and commits, or answers with the row that was there. */
    method Conclude(req: Request, found: Creator, calm: bool, ghost before: seq<Step>,
                    ghost begun: seq<Step>) returns (result: Result)
      requires Has(found, before + begun) && (found.Inserted? || found.Replaying?) && found.req == req
      requires begun == [ByCreator(id, Begin(req)), ByCreator(id, if found.Inserted? then Insert else Conflict)]
      modifies system
      ensures Continues(old(system.states), system.states)
      ensures Has(NoTransaction, Own(Creating(id), system.steps)) && Answers(system.st, req, result)
          && (calm ==> result.Created?)
      ensures CreateCall(id, before, Own(Creating(id), system.steps), req, result)
    {
      ghost var taken, step, applied := begun, Abort, false;
      var phase := found;
      result := CreateError;
      if phase.Inserted? {
        phase, step := InsertEvent(phase, calm, before + taken);
        assert before + taken + [ByCreator(id, step)] == before + (taken + [ByCreator(id, step)]);
        taken := taken + [ByCreator(id, step)];
      }
      if !phase.NoTransaction? {
        result, applied := CommitTransaction(phase, calm, before + taken);
        assert before + taken + [ByCreator(id, Commit(applied, result.Created?))]
            == before + (taken + [ByCreator(id, Commit(applied, result.Created?))]);
        taken := taken + [ByCreator(id, Commit(applied, result.Created?))];
      }
      Composed(id, before, taken, Own(Creating(id), system.steps), req, result);
    }

    method CreateImport(req: Request, calm: bool) returns (result: Result)
      requires system.Valid() && CreatorOf(system.st, id).NoTransaction?
      modifies system
      ensures system.Valid() && Continues(old(system.states), system.states) && CreatorOf(system.st, id).NoTransaction?
      ensures CreateCall(id, Own(Creating(id), old(system.steps)), Own(Creating(id), system.steps), req, result)
      ensures Answers(system.st, req, result)
      // Without failures it ends without an answer only for a reason its last statement met.
      ensures calm && result.CreateError? ==>
          |system.states| >= 2 && Excused(system.states[|system.states| - 2], id, req)
    {
      ghost var before := Own(Creating(id), system.steps);
      var phase;
      ghost var begun;
      phase, begun := InsertOrFind(req, calm, before);
      if phase.NoTransaction? {
        result := CreateError;
        Composed(id, before, begun, Own(Creating(id), system.steps), req, result);
      } else {
        result := Conclude(req, phase, calm, before, begun);
      }
    }
  }
}
