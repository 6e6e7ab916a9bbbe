/** What the publisher's channel does is what the step machine lets a publisher do: a positive `Confirmation` step
    needs its own message queued, and a run of `Publish` calls keeps to that exactly as long as none succeeds after a
    cancelled wait. */
module Handshake {
  import opened Text
  import opened Pipeline
  import Confirms

  function SendStep(exit: Confirms.Exit, stored: bool): PublisherStep { Send(stored, !exit.SendFailed?) }

  function ConfirmationStep(exit: Confirms.Exit): PublisherStep { Confirmation(exit == Confirms.Answered(true)) }

  /** The publisher has just come to an event. */
  predicate AtNext(s: State, p: Id) {
    var phase := PublisherOf(s, p);
    AtEvent(s, phase) && phase.head.Unsent? && s.outbox[phase.batch[0]].body.Decoded?
  }

  /** The machine can take the steps of a `Publish` that ends like this, with its message queued or not. */
  ghost predicate Allowed(s: State, p: Id, exit: Confirms.Exit, stored: bool) {
    PublisherEnabled(s, p, SendStep(exit, stored))
    && (!exit.SendFailed? ==>
          PublisherEnabled(PublisherApply(s, p, SendStep(exit, stored)), p, ConfirmationStep(exit)))
  }

  lemma AllowedIff(s: State, p: Id, exit: Confirms.Exit, stored: bool)
    requires AtNext(s, p)
    ensures Allowed(s, p, exit, stored) <==> (exit == Confirms.Answered(true) ==> stored)
  {
  }

  /** In every state in which a publisher comes to an event, the machine can take the steps of the `k`-th publish. */
  ghost predicate AllowedAt(exits: seq<Confirms.Exit>, queued: set<nat>, k: nat)
    requires k < |exits|
  {
    forall s, p :: AtNext(s, p) ==> Allowed(s, p, exits[k], Confirms.Sent(exits[..k + 1]) in queued)
  }

  ghost predicate AllAllowed(exits: seq<Confirms.Exit>, queued: set<nat>) {
    forall k :: 0 <= k < |exits| ==> AllowedAt(exits, queued, k)
  }

  /** There is such a state. */
  lemma SomeNext() returns (s: State)
    ensures AtNext(s, 0)
  {
    var event := Event(Decoded(Payload(0, "", "", 1)), 0, None, None, None);
    s := Empty().(outbox := map[1 := event], publishers := map[0 := Holding([1], 0, Unsent)]);
  }

  lemma AllAllowedIff(exits: seq<Confirms.Exit>, queued: set<nat>)
    ensures AllAllowed(exits, queued) <==> Confirms.Faithful(exits, queued)
  {
    var next := SomeNext();
    forall k | 0 <= k < |exits|
      ensures AllowedAt(exits, queued, k) <==>
              (Confirms.Succeeds(exits, k) ==> Confirms.Sent(exits[..k + 1]) in queued)
    {
      var stored := Confirms.Sent(exits[..k + 1]) in queued;
      AllowedIff(next, 0, exits[k], stored);
      forall s, p | AtNext(s, p)
        ensures Allowed(s, p, exits[k], stored) <==> (exits[k] == Confirms.Answered(true) ==> stored)
      {
        AllowedIff(s, p, exits[k], stored);
      }
    }
  }

  /** Every run of publishes on one channel is one of the machine's, whatever the broker queues and confirms, if and
      only if no publish succeeds after one whose wait was cancelled. */
  lemma HandshakeIff(exits: seq<Confirms.Exit>)
    requires Confirms.Legal(exits)
    ensures (forall queued :: Confirms.Honest(exits, queued) ==> AllAllowed(exits, queued))
            <==> Confirms.NoSuccessAfterCancel(exits)
  {
    forall queued
      ensures AllAllowed(exits, queued) <==> Confirms.Faithful(exits, queued)
    {
      AllAllowedIff(exits, queued);
    }
    Confirms.FaithfulIff(exits);
  }
}
