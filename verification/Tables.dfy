/** Invariants of the tables: the unique key, the one-to-one outbox, open create transactions and their answers. */
module Tables {
  import opened Text
  import opened Pipeline

  function RowKey(row: Import): Key { Key(row.tenant, row.key) }

  function PayloadOf(i: Id, row: Import): Payload { Payload(i, row.tenant, row.source, row.records) }

  // ---------------------------------------------------------------- what each family of steps leaves alone

  ghost predicate SameRows(s: State, t: State) {
    (
      && t.imports.Keys == s.imports.Keys
      && t.work.attempts.Keys == s.work.attempts.Keys
      && (forall i :: i in s.imports ==>
            RowKey(t.imports[i]) == RowKey(s.imports[i]) && PayloadOf(i, t.imports[i]) == PayloadOf(i, s.imports[i]))
    ) == true
  }

  ghost predicate SameEvents(s: State, t: State) {
    (
      && t.outbox.Keys == s.outbox.Keys
      && t.publications.claims.Keys == s.publications.claims.Keys
      && (forall e :: e in s.outbox ==>
            t.outbox[e].body == s.outbox[e].body && t.outbox[e].createdAt == s.outbox[e].createdAt)
    ) == true
  }

  /** The work of a worker changes rows in their mutable columns only, and nothing of the outbox, the broker or
      others. */
  ghost predicate WorkerFrame(s: State, w: Id, t: State) {
    (
      && SameRows(s, t)
      && t == s.(imports := t.imports, workers := t.workers, work := t.work)
      && t.work.takes == s.work.takes
      && (forall v :: v != w ==> WorkerOf(t, v) == WorkerOf(s, v))
      && WorkerOf(t, w).attached == WorkerOf(s, w).attached
      && Busy(t, w) && Busy(s, w) && JobOf(t, w).copy == JobOf(s, w).copy
    ) == true
  }

  /** The channel moves copies between the broker's places; no table changes. */
  ghost predicate ChannelFrame(s: State, w: Id, t: State) {
    (
      && t == s.(broker := t.broker, workers := t.workers, work := t.work)
      && t.broker.copies == s.broker.copies
      && t.work == s.work.(takes := t.work.takes)
      && (forall v :: v != w ==> WorkerOf(t, v) == WorkerOf(s, v))
    ) == true
  }

  /** Publishers touch leases, publication marks and the ready queue only. */
  ghost predicate PublisherFrame(s: State, p: Id, t: State) {
    (
      && SameEvents(s, t)
      && t == s.(outbox := t.outbox, broker := t.broker, nextId := t.nextId, publishers := t.publishers,
                 publications := t.publications)
      && t.broker == s.broker.(copies := t.broker.copies, ready := t.broker.ready)
      && t.nextId >= s.nextId
      && (forall q :: q != p ==> PublisherOf(t, q) == PublisherOf(s, q))
    ) == true
  }

  /** Create transactions touch nothing that publishers, workers or the broker keep. */
  ghost predicate CreatorFrame(s: State, c: Id, t: State) {
    (
      && t == s.(nextId := t.nextId, imports := t.imports, index := t.index, outbox := t.outbox, creators := t.creators,
                 creations := t.creations, publications := t.publications, work := t.work)
      && t.publications.confirmed == s.publications.confirmed
      && t.work.passed == s.work.passed && t.work.done == s.work.done
      && t.nextId >= s.nextId
      && (forall d :: d != c ==> CreatorOf(t, d) == CreatorOf(s, d))
    ) == true
  }

  lemma RowUpdateFrame(s: State, w: Id, i: Id, row: Import, work: Work, phase: Phase)
    requires Busy(s, w) && i in s.imports
    requires RowKey(row) == RowKey(s.imports[i]) && PayloadOf(i, row) == PayloadOf(i, s.imports[i])
    requires work.takes == s.work.takes && work.attempts.Keys == s.work.attempts.Keys
    ensures WorkerFrame(s, w, RowUpdate(s, w, i, row, work, phase))
  {
  }

  lemma PhaseFrame(s: State, w: Id, phase: Phase)
    requires Busy(s, w)
    ensures WorkerFrame(s, w, InPhase(s, w, phase))
  {
  }

  lemma StartFrame(s: State, w: Id, applied: bool, reported: bool)
    requires WorkerEnabled(s, w, Start(applied, reported)) && s.work.attempts.Keys == s.imports.Keys
    ensures WorkerFrame(s, w, DoStart(s, w, JobOf(s, w), applied, reported))
  {
    var j := JobOf(s, w);
    if OnRow(s, j.copy) && applied {
      var i := RowOf(s, j.copy);
      RowUpdateFrame(s, w, i, StartedRow(s.imports[i]),
                     s.work.(attempts := s.work.attempts[i := AttemptsOf(s, i) + [Attempt(0, false)]]),
                     if reported then Calling(s.imports[i].attempts + 1, 0) else Doomed);
    } else {
      PhaseFrame(s, w, Doomed);
    }
  }

  lemma CallFrame(s: State, w: Id, ok: bool)
    requires WorkerEnabled(s, w, Call(ok)) && s.work.attempts.Keys == s.imports.Keys
    ensures WorkerFrame(s, w, DoCall(s, w, JobOf(s, w), ok))
  {
    var j := JobOf(s, w);
    if OnRow(s, j.copy) {
      var i := RowOf(s, j.copy);
      RowUpdateFrame(s, w, i, s.imports[i], CalledWork(s, i, j.phase.attempt, ok),
                     if ok then Passed(j.phase.attempt) else Calling(j.phase.attempt, j.phase.made + 1));
    } else {
      PhaseFrame(s, w, Doomed);
    }
  }

  lemma CompleteFrame(s: State, w: Id, applied: bool, reported: bool)
    requires WorkerEnabled(s, w, Complete(applied, reported)) && s.work.attempts.Keys == s.imports.Keys
    ensures WorkerFrame(s, w, DoComplete(s, w, JobOf(s, w), applied, reported))
  {
    var j := JobOf(s, w);
    var next := if j.phase.Passed? && reported then Completed else Doomed;
    if OnRow(s, j.copy) && applied {
      var i := RowOf(s, j.copy);
      RowUpdateFrame(s, w, i, FinalRow(s, i, j.phase), FinalWork(s, i, j), next);
    } else {
      PhaseFrame(s, w, Doomed);
      PhaseFrame(s, w, next);
    }
  }

  lemma WorkerFramed(s: State, w: Id, step: WorkerStep)
    requires WorkerEnabled(s, w, step) && s.work.attempts.Keys == s.imports.Keys
    ensures WorkerFrame(s, w, WorkerApply(s, w, step))
  {
    match step
    case BadBody =>
    case Start(applied, reported) => StartFrame(s, w, applied, reported);
    case Call(ok) => CallFrame(s, w, ok);
    case GiveUp(_) =>
    case Complete(applied, reported) => CompleteFrame(s, w, applied, reported);
  }

  lemma ChannelFramed(s: State, w: Id, step: ChannelStep)
    requires ChannelEnabled(s, w, step)
    ensures ChannelFrame(s, w, ChannelApply(s, w, step))
  {
  }

  lemma PublisherFramed(s: State, p: Id, step: PublisherStep)
    requires PublisherEnabled(s, p, step)
    ensures PublisherFrame(s, p, PublisherApply(s, p, step))
  {
    match step
    case Claim(batch, _, reported) => ClaimFrame(s, p, batch, reported);
    case Undecodable =>
    case Send(stored, reported) => SendFrame(s, p, stored, reported);
    case Confirmation(_) =>
    case Mark(_, _) =>
    case Release(_) =>
    case Halt =>
  }

  lemma ClaimFrame(s: State, p: Id, batch: seq<Id>, reported: bool)
    ensures PublisherFrame(s, p, DoClaim(s, p, batch, reported))
  {
  }

  lemma SendFrame(s: State, p: Id, stored: bool, reported: bool)
    requires AtEvent(s, PublisherOf(s, p))
    ensures PublisherFrame(s, p, DoSend(s, p, PublisherOf(s, p), stored, reported))
  {
  }

  lemma CreatorFramed(s: State, c: Id, step: CreatorStep)
    requires CreatorEnabled(s, c, step)
    ensures CreatorFrame(s, c, CreatorApply(s, c, step))
  {
  }

  // ---------------------------------------------------------------- the invariant

  /** Every key names one row and every row has its own key: the UNIQUE constraint. */
  ghost predicate UniqueKeys(s: State) {
    (
      && (forall i :: i in s.imports ==> RowKey(s.imports[i]) in s.index && s.index[RowKey(s.imports[i])] == i)
      && (forall k :: k in s.index ==> s.index[k] in s.imports && RowKey(s.imports[s.index[k]]) == k)
    ) == true
  }

  /** Imports and outbox events correspond one to one, and an event's payload is its import's data. */
  ghost predicate OneEventEach(s: State) {
    (
      && s.creations.eventOf.Keys == s.imports.Keys
      && s.work.attempts.Keys == s.imports.Keys
      && s.publications.claims.Keys == s.outbox.Keys
      && (forall i :: i in s.imports ==>
            s.creations.eventOf[i] in s.outbox
                && s.outbox[s.creations.eventOf[i]].body == Decoded(PayloadOf(i, s.imports[i])))
      && (forall e :: e in s.outbox ==>
            s.outbox[e].body.Decoded? && s.outbox[e].body.payload.importId in s.imports
            && s.creations.eventOf[s.outbox[e].body.payload.importId] == e)
    ) == true
  }

  predicate Pending(c: Creator) { c.Inserted? || c.Written? }

  ghost predicate CreatorOk(s: State, c: Creator) {
    match c
    case NoTransaction => true
    case Snapshot(req, seen, _) => seen.Some? ==> KeyOf(req) in s.index && s.index[KeyOf(req)] == seen.value
    case Inserted(req, id, _) => id < s.nextId && id !in s.imports && KeyOf(req) !in s.index
        && 1 <= req.records <= 10_000
    case Written(req, id, event, _) => id < s.nextId && id !in s.imports && KeyOf(req) !in s.index
        && 1 <= req.records <= 10_000
                                       && event < s.nextId && event !in s.outbox
    case Replaying(req, id) => KeyOf(req) in s.index && s.index[KeyOf(req)] == id
  }

  ghost predicate Apart(a: Creator, b: Creator) {
    Pending(a) && Pending(b) ==>
      a.id != b.id && KeyOf(a.req) != KeyOf(b.req) && (a.Written? && b.Written? ==> a.event != b.event)
  }

  ghost predicate CreatorsOk(s: State) {
    (
      && (forall c :: c in s.creators ==> CreatorOk(s, s.creators[c]))
      && (forall c, d :: c in s.creators && d in s.creators && c != d ==> Apart(s.creators[c], s.creators[d]))
    ) == true
  }

  ghost predicate FreshIds(s: State) {
    (
      && (forall i :: i in s.imports ==> i < s.nextId)
      && (forall e :: e in s.outbox ==> e < s.nextId)
      && (forall c :: c in s.broker.copies ==> c < s.nextId)
    ) == true
  }

  /** All answers for one key name the same import, and only one of them is not a replay. */
  ghost predicate RepliesOk(s: State) {
    (
      && (forall n :: 0 <= n < |s.creations.replies| ==>
            s.creations.replies[n].key in s.index && s.index[s.creations.replies[n].key] == s.creations.replies[n].id)
      && (forall m, n ::
            0 <= m < n < |s.creations.replies| && s.creations.replies[m].key == s.creations.replies[n].key ==>
            s.creations.replies[m].replay || s.creations.replies[n].replay)
    ) == true
  }

  ghost predicate RecordsInRange(s: State) {
    forall i :: i in s.imports ==> 1 <= s.imports[i].records <= 10_000
  }

  ghost predicate TablesOk(s: State) {
    (
      UniqueKeys(s) && OneEventEach(s) && CreatorsOk(s) && FreshIds(s) && RepliesOk(s) && RecordsInRange(s)
    ) == true
  }

  // ---------------------------------------------------------------- it is kept

  lemma UniqueKeysFrame(s: State, t: State)
    requires UniqueKeys(s) && SameRows(s, t) && t.index == s.index
    ensures UniqueKeys(t)
  {
  }

  lemma OneEventFrame(s: State, t: State)
    requires OneEventEach(s) && SameRows(s, t) && SameEvents(s, t) && t.creations.eventOf == s.creations.eventOf
    ensures OneEventEach(t)
  {
  }

  lemma CreatorsFrame(s: State, t: State)
    requires CreatorsOk(s) && t.imports.Keys == s.imports.Keys && t.outbox.Keys == s.outbox.Keys
    requires t.index == s.index && t.creators == s.creators && t.nextId >= s.nextId
    ensures CreatorsOk(t)
  {
    forall c | c in t.creators
      ensures CreatorOk(t, t.creators[c])
    {
      assert CreatorOk(s, s.creators[c]);
    }
  }

  lemma RepliesFrame(s: State, t: State)
    requires RepliesOk(s) && t.creations.replies == s.creations.replies && t.index == s.index
    ensures RepliesOk(t)
  {
  }

  lemma RecordsFrame(s: State, t: State)
    requires RecordsInRange(s) && SameRows(s, t)
    ensures RecordsInRange(t)
  {
    forall i | i in t.imports
      ensures 1 <= t.imports[i].records <= 10_000
    {
      assert PayloadOf(i, t.imports[i]) == PayloadOf(i, s.imports[i]);
    }
  }

  ghost predicate TablesAlike(s: State, t: State) {
    SameRows(s, t) && SameEvents(s, t) && t.index == s.index && t.creators == s.creators
    && t.nextId >= s.nextId && FreshIds(t) && t.creations == s.creations
  }

  lemma TablesFrame(s: State, t: State)
    requires TablesOk(s) && TablesAlike(s, t)
    ensures TablesOk(t)
  {
    assert UniqueKeys(t) by { UniqueKeysFrame(s, t); }
    assert OneEventEach(t) by { OneEventFrame(s, t); }
    assert CreatorsOk(t) by { CreatorsFrame(s, t); }
    assert RepliesOk(t) by { RepliesFrame(s, t); }
    assert RecordsInRange(t) by { RecordsFrame(s, t); }
  }

  lemma PhaseTables(s: State, c: Id, phase: Creator, t: State)
    requires TablesOk(s) && t == s.(creators := s.creators[c := phase], nextId := t.nextId) && t.nextId >= s.nextId
    ensures UniqueKeys(t) && OneEventEach(t) && FreshIds(t) && RepliesOk(t) && RecordsInRange(t)
  {
  }

  lemma PhaseCreatorsOk(s: State, c: Id, phase: Creator, t: State, d: Id)
    requires CreatorsOk(s) && t == s.(creators := s.creators[c := phase], nextId := t.nextId) && t.nextId >= s.nextId
    requires CreatorOk(t, phase) && d in t.creators
    ensures CreatorOk(t, t.creators[d])
  {
    if d != c {
      assert CreatorOk(s, s.creators[d]);
    }
  }

  lemma PhaseApart(s: State, c: Id, phase: Creator, t: State)
    requires CreatorsOk(s) && t.creators == s.creators[c := phase]
    requires forall d :: d in s.creators && d != c ==> Apart(phase, s.creators[d]) && Apart(s.creators[d], phase)
    ensures forall d, e :: d in t.creators && e in t.creators && d != e ==> Apart(t.creators[d], t.creators[e])
  {
  }

  /** An uncommitted change of one transaction's phase keeps the tables, whoever else is open. */
  lemma PhaseKept(s: State, c: Id, phase: Creator, t: State)
    requires TablesOk(s) && t == s.(creators := s.creators[c := phase], nextId := t.nextId) && t.nextId >= s.nextId
    requires CreatorOk(t, phase)
    requires forall d :: d in s.creators && d != c ==> Apart(phase, s.creators[d]) && Apart(s.creators[d], phase)
    ensures TablesOk(t)
  {
    PhaseTables(s, c, phase, t);
    PhaseApart(s, c, phase, t);
    forall d | d in t.creators
      ensures CreatorOk(t, t.creators[d])
    {
      PhaseCreatorsOk(s, c, phase, t, d);
    }
  }

  lemma QuietPhaseKept(s: State, c: Id, phase: Creator)
    requires TablesOk(s) && CreatorOk(s, phase) && !Pending(phase)
    ensures TablesOk(SetCreator(s, c, phase))
  {
    PhaseKept(s, c, phase, SetCreator(s, c, phase));
  }

  lemma CommitKeepsKeys(s: State, r: Request, id: Id, event: Id, began: nat)
    requires UniqueKeys(s) && id !in s.imports && KeyOf(r) !in s.index
    ensures UniqueKeys(CommitRows(s, r, id, event, began))
  {
  }

  lemma CommitKeepsPairs(s: State, r: Request, id: Id, event: Id, began: nat)
    requires OneEventEach(s) && id !in s.imports && event !in s.outbox
    ensures OneEventEach(CommitRows(s, r, id, event, began))
  {
  }

  lemma CommitKeepsReplies(s: State, r: Request, id: Id, event: Id, began: nat)
    requires RepliesOk(s) && KeyOf(r) !in s.index
    ensures RepliesOk(CommitRows(s, r, id, event, began))
  {
  }

  lemma CommitKeepsCreators(s: State, c: Id, w: Creator)
    requires CreatorsOk(s) && c in s.creators && s.creators[c] == w && w.Written?
    ensures CreatorsOk(SetCreator(CommitRows(s, w.req, w.id, w.event, w.began), c, NoTransaction))
  {
    var t := SetCreator(CommitRows(s, w.req, w.id, w.event, w.began), c, NoTransaction);
    forall d | d in t.creators
      ensures CreatorOk(t, t.creators[d])
    {
      if d != c {
        assert CreatorOk(s, s.creators[d]) && Apart(s.creators[c], s.creators[d]);
      }
    }
  }

  lemma CommitKept(s: State, c: Id, w: Creator, t: State)
    requires TablesOk(s) && c in s.creators && s.creators[c] == w && w.Written?
    requires t == SetCreator(CommitRows(s, w.req, w.id, w.event, w.began), c, NoTransaction)
    ensures TablesOk(t)
  {
    assert CreatorOk(s, w);
    var rows := CommitRows(s, w.req, w.id, w.event, w.began);
    CommitKeepsKeys(s, w.req, w.id, w.event, w.began);
    CommitKeepsPairs(s, w.req, w.id, w.event, w.began);
    CommitKeepsReplies(s, w.req, w.id, w.event, w.began);
    CommitKeepsCreators(s, c, w);
    CommitKeepsRest(s, w.req, w.id, w.event, w.began);
    NoTransactionLeft(rows, c, t);
  }

  lemma CommitKeepsRest(s: State, r: Request, id: Id, event: Id, began: nat)
    requires FreshIds(s) && RecordsInRange(s) && id < s.nextId && event < s.nextId && 1 <= r.records <= 10_000
    ensures FreshIds(CommitRows(s, r, id, event, began)) && RecordsInRange(CommitRows(s, r, id, event, began))
  {
  }

  lemma NoTransactionLeft(s: State, c: Id, t: State)
    requires UniqueKeys(s) && OneEventEach(s) && FreshIds(s) && RepliesOk(s) && RecordsInRange(s)
    requires t == SetCreator(s, c, NoTransaction) && CreatorsOk(t)
    ensures TablesOk(t)
  {
    assert UniqueKeys(t) by { UniqueKeysFrame(s, t); }
    assert OneEventEach(t) by { OneEventFrame(s, t); }
    assert RepliesOk(t) by { RepliesFrame(s, t); }
    assert RecordsInRange(t) by { RecordsFrame(s, t); }
    assert FreshIds(t);
  }

  lemma AnswerKeepsReplies(s: State, reply: Reply)
    requires RepliesOk(s) && reply.key in s.index && s.index[reply.key] == reply.id
    requires !reply.replay ==> forall n :: 0 <= n < |s.creations.replies| ==> s.creations.replies[n].key != reply.key
    ensures RepliesOk(Answered(s, reply))
  {
  }

  lemma AnswerKept(s: State, reply: Reply, t: State)
    requires TablesOk(s) && t == Answered(s, reply)
    requires reply.key in s.index && s.index[reply.key] == reply.id
    requires !reply.replay ==> forall n :: 0 <= n < |s.creations.replies| ==> s.creations.replies[n].key != reply.key
    ensures TablesOk(t)
  {
    assert RepliesOk(t) by { AnswerKeepsReplies(s, reply); }
    assert UniqueKeys(t) by { UniqueKeysFrame(s, t); }
    assert OneEventEach(t) by { OneEventFrame(s, t); }
    assert CreatorsOk(t) by { CreatorsFrame(s, t); }
    assert RecordsInRange(t) by { RecordsFrame(s, t); }
    assert FreshIds(t);
  }

  lemma InsertKept(s: State, c: Id, t: State)
    requires TablesOk(s) && CreatorEnabled(s, c, Insert) && t == CreatorApply(s, c, Insert)
    ensures TablesOk(t)
  {
    forall d | d in s.creators && d != c
      ensures Apart(t.creators[c], s.creators[d]) && Apart(s.creators[d], t.creators[c])
    {
      assert CreatorOk(s, s.creators[d]);
      assert Pending(s.creators[d]) ==> Holds(s.creators[d], KeyOf(s.creators[d].req));
    }
    PhaseKept(s, c, t.creators[c], t);
  }

  lemma WriteEventKept(s: State, c: Id, t: State)
    requires TablesOk(s) && CreatorEnabled(s, c, WriteEvent) && t == CreatorApply(s, c, WriteEvent)
    ensures TablesOk(t)
  {
    assert CreatorOk(s, s.creators[c]);
    forall d | d in s.creators && d != c
      ensures Apart(t.creators[c], s.creators[d]) && Apart(s.creators[d], t.creators[c])
    {
      assert CreatorOk(s, s.creators[d]) && Apart(s.creators[c], s.creators[d]);
    }
    PhaseKept(s, c, t.creators[c], t);
  }

  /** A key that names no row has not been answered. */
  lemma NewKeyUnanswered(s: State, k: Key)
    requires RepliesOk(s) && k !in s.index
    ensures forall n :: 0 <= n < |s.creations.replies| ==> s.creations.replies[n].key != k
  {
  }

  function Committed(s: State, c: Id, phase: Creator): State
    requires phase.Written?
  {
    SetCreator(CommitRows(s, phase.req, phase.id, phase.event, phase.began), c, NoTransaction)
  }

  lemma AppliedCommitKept(s: State, c: Id, reported: bool, t: State)
    requires TablesOk(s) && CreatorOf(s, c).Written? && t == DoCommit(s, c, CreatorOf(s, c), true, reported)
    ensures TablesOk(t)
  {
    var phase := CreatorOf(s, c);
    assert CreatorOk(s, phase);
    CommitKept(s, c, phase, Committed(s, c, phase));
    if reported {
      NewKeyUnanswered(s, KeyOf(phase.req));
      AnswerKept(Committed(s, c, phase), Reply(KeyOf(phase.req), phase.id, false), t);
    }
  }

  lemma OtherCommitKept(s: State, c: Id, applied: bool, reported: bool, t: State)
    requires TablesOk(s) && CreatorEnabled(s, c, Commit(applied, reported)) && !(applied && CreatorOf(s, c).Written?)
    requires t == DoCommit(s, c, CreatorOf(s, c), applied, reported)
    ensures TablesOk(t)
  {
    var phase := CreatorOf(s, c);
    assert CreatorOk(s, phase);
    var plain := SetCreator(s, c, NoTransaction);
    QuietPhaseKept(s, c, NoTransaction);
    if reported {
      AnswerKept(plain, Reply(KeyOf(phase.req), phase.id, true), t);
    }
  }

  lemma FoundOk(s: State, phase: Creator)
    requires CreatorOk(s, phase) && phase.Snapshot?
    ensures CreatorOk(s, if phase.seen.Some? then Replaying(phase.req, phase.seen.value) else NoTransaction)
  {
  }

  lemma ConflictKept(s: State, c: Id, t: State)
    requires TablesOk(s) && CreatorEnabled(s, c, Conflict) && t == CreatorApply(s, c, Conflict)
    ensures TablesOk(t)
  {
    FoundOk(s, CreatorOf(s, c));
    QuietPhaseKept(s, c, CreatorOf(t, c));
  }

  lemma BeginKept(s: State, c: Id, req: Request)
    requires TablesOk(s)
    ensures TablesOk(DoBegin(s, c, req))
  {
    QuietPhaseKept(s, c, Snapshot(req, if KeyOf(req) in s.index then Some(s.index[KeyOf(req)]) else None, s.clock));
  }

  lemma CreatorKeepsTables(s: State, c: Id, step: CreatorStep, t: State)
    requires TablesOk(s) && CreatorEnabled(s, c, step) && t == CreatorApply(s, c, step)
    ensures TablesOk(t)
  {
    match step
    case Begin(req) => BeginKept(s, c, req);
    case Insert => InsertKept(s, c, t);
    case Conflict => ConflictKept(s, c, t);
    case WriteEvent => WriteEventKept(s, c, t);
    case Commit(applied, reported) =>
      if applied && CreatorOf(s, c).Written? {
        AppliedCommitKept(s, c, reported, t);
      } else {
        OtherCommitKept(s, c, applied, reported, t);
      }
    case Abort => QuietPhaseKept(s, c, NoTransaction);
  }

  lemma EnqueueKeepsFresh(s: State, copy: Copy)
    requires FreshIds(s)
    ensures FreshIds(Enqueue(s, copy))
  {
  }

  lemma PublisherKeepsFresh(s: State, p: Id, step: PublisherStep)
    requires FreshIds(s) && PublisherEnabled(s, p, step)
    ensures FreshIds(PublisherApply(s, p, step))
  {
  }

  lemma OthersAlike(s: State, step: Step, t: State)
    requires FreshIds(s) && s.work.attempts.Keys == s.imports.Keys && Goes(s, step, t) && !step.ByCreator?
    ensures TablesAlike(s, t)
  {
    match step
    case ByPublisher(p, ps) =>
      PublisherFramed(s, p, ps);
      PublisherKeepsFresh(s, p, ps);
    case ByChannel(w, ks) => ChannelFramed(s, w, ks);
    case ByWorker(w, ws) => WorkerFramed(s, w, ws);
    case Tick(_) =>
    case Inject(body) => EnqueueKeepsFresh(s, Copy(None, body));
  }

  lemma StepKeepsTables(s: State, step: Step, t: State)
    requires TablesOk(s) && Goes(s, step, t)
    ensures TablesOk(t)
  {
    if step.ByCreator? {
      CreatorKeepsTables(s, step.c, step.creator, t);
    } else {
      OthersAlike(s, step, t);
      TablesFrame(s, t);
    }
  }
}
