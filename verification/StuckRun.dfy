/** The run in which a finally failed import stays PROCESSING: PostgreSQL refuses the text of its error, and the message
    is dead-lettered all the same. */
module StuckRun {
  import opened Text
  import opened Pipeline
  import opened FlowKept
  import opened Loss
  import opened LostRun
  import Integration
  import Processing

  function LongError(): Bytes { Processing.ErrorText(Integration.CallsFailed, LongDetail()) }

  /** Worker 4, connected all the time, starts the import and gives up. */
  lemma Fails() returns (s: State, n: nat)
    ensures Reachable(s) && Rows(s, Processing, true) && Queue(s, {}, map[2 := Delivery(4, true)])
    ensures At(s, 4, Refused(n, LongError()), true) && forall w :: w != 4 ==> WorkerOf(s, w) == Worker(None, true)
  {
    s := Marks(true);
    s := Takes(s, 4);
    assert forall w :: w != 4 ==> WorkerOf(s, w) == Worker(None, true);
    s, n := Starts(s, 4, Queued, true);
    assert forall w :: w != 4 ==> WorkerOf(s, w) == Worker(None, true);
    var u := s;
    s := Next(u, ByWorker(4, GiveUp(LongError())));
    assert forall w :: w != 4 ==> WorkerOf(s, w) == WorkerOf(u, w);
  }

  /** No update of the row takes effect, whatever is reported. */
  lemma NothingRecorded(s: State, w: Id, n: nat, applied: bool, reported: bool)
    requires At(s, w, Refused(n, LongError()), true) && WorkerEnabled(s, w, Complete(applied, reported))
    ensures !applied && !reported
  {
    Processing.ErrorSplitsCharacter();
  }

  lemma Rejects(s: State, n: nat) returns (t: State)
    requires Reachable(s) && Rows(s, Processing, true) && Queue(s, {}, map[2 := Delivery(4, true)])
    requires At(s, 4, Refused(n, LongError()), true)
    ensures Reachable(t) && t.imports == s.imports && t.outbox == s.outbox && 2 in t.broker.dead
    ensures t.broker.ready == {} && t.broker.unacked == map[] && t.workers == s.workers[4 := Worker(None, true)]
  {
    var u := Next(s, ByWorker(4, Complete(false, false)));
    t := Next(u, ByChannel(4, Nack(true)));
    assert s.broker.unacked - {2} == map[];
  }

  /** So the documented end of a failed import, DEAD_LETTER, can be missing without any fault of a statement, a call or
      a connection: no final update can take effect, the message is dead-lettered, nothing is left to do, and the import
      is PROCESSING. */
  lemma AFailedImportCanStayProcessing()
    ensures exists s, t ::
              && Reachable(s) && WorkerEnabled(s, 4, Complete(false, false)) && WorkerOf(s, 4).attached
              && (forall applied, reported :: WorkerEnabled(s, 4, Complete(applied, reported)) ==> !applied)
              && Reachable(t) && Settled(t) && (forall w :: !Busy(t, w)) && 2 in t.broker.dead
              && 0 in t.imports && t.imports[0].status == Processing
  {
    var s, n := Fails();
    var t := Rejects(s, n);
    forall applied, reported | WorkerEnabled(s, 4, Complete(applied, reported))
      ensures !applied
    {
      NothingRecorded(s, 4, n, applied, reported);
    }
    assert forall w :: WorkerOf(t, w) == if w == 4 then Worker(None, true) else WorkerOf(s, w);
    assert forall w :: !Busy(t, w);
    assert Settled(t);
  }
}
