/** Publisher confirms: `Publish` waits for one confirmation and never looks at its delivery tag. The confirmation it
    reads is the one of its own message exactly as long as no wait was given up before. */
module Confirms {
  const BATCH := 25

  /** How one `Publish` ends: the send is refused, a confirmation is read, the confirmations are closed, or the
      context ends first. */
  datatype Exit = SendFailed | Answered(ack: bool) | ChannelClosed | Cancelled

  /** The delivery tag of a message and the delivery tag of the confirmation its `Publish` read. */
  datatype Pair = Pair(own: nat, read: nat)

  function Sent(exits: seq<Exit>): nat {
    if exits == [] then 0
    else Sent(exits[..|exits| - 1]) + if exits[|exits| - 1].SendFailed? then 0 else 1
  }

  function Read(exits: seq<Exit>): nat {
    if exits == [] then 0
    else Read(exits[..|exits| - 1]) + if exits[|exits| - 1].Answered? then 1 else 0
  }

  /** The broker numbers messages and confirmations in the order they are sent and read. */
  function Pairs(exits: seq<Exit>): seq<Pair> {
    if exits == [] then []
    else Pairs(exits[..|exits| - 1]) + if exits[|exits| - 1].Answered? then [Pair(Sent(exits), Read(exits))] else []
  }

  ghost predicate Aligned(exits: seq<Exit>) {
    forall i :: 0 <= i < |Pairs(exits)| ==> Pairs(exits)[i].own == Pairs(exits)[i].read
  }

  /** A closed channel accepts no more messages. */
  ghost predicate Legal(exits: seq<Exit>) {
    forall i, j :: 0 <= i < j < |exits| && exits[i].ChannelClosed? ==> exits[j].SendFailed?
  }

  /** No confirmation is read after a wait that was cancelled. */
  ghost predicate NoReadAfterCancel(exits: seq<Exit>) {
    forall i, j :: 0 <= i < j < |exits| && exits[i].Cancelled? ==> !exits[j].Answered?
  }

  ghost predicate NothingGivenUp(exits: seq<Exit>) {
    forall i :: 0 <= i < |exits| ==> !exits[i].Cancelled? && !exits[i].ChannelClosed?
  }

  /** What was sent is ahead of what was read exactly if some wait was given up. */
  lemma {:induction false} LagIff(exits: seq<Exit>)
    ensures Read(exits) <= Sent(exits)
    ensures Read(exits) == Sent(exits) <==> NothingGivenUp(exits)
  {
    if exits != [] {
      var earlier, last := exits[..|exits| - 1], exits[|exits| - 1];
      LagIff(earlier);
      assert exits == earlier + [last];
      assert NothingGivenUp(exits) <==> NothingGivenUp(earlier) && !last.Cancelled? && !last.ChannelClosed?;
    }
  }

  lemma OrderlyEarlier(exits: seq<Exit>)
    requires exits != [] && Legal(exits)
    ensures var earlier, last := exits[..|exits| - 1], exits[|exits| - 1];
            Legal(earlier)
            && (NoReadAfterCancel(exits) <==>
                NoReadAfterCancel(earlier) && (last.Answered? ==> NothingGivenUp(earlier)))
  {
    var earlier, last := exits[..|exits| - 1], exits[|exits| - 1];
    assert forall i :: 0 <= i < |earlier| ==> earlier[i] == exits[i];
    if last.Answered? && NoReadAfterCancel(exits) {
      assert forall i :: 0 <= i < |earlier| ==> !exits[i].ChannelClosed? && !exits[i].Cancelled?;
    }
  }

  /** In every run of `Publish` calls, each reads the confirmation of its own message if and only if none of them
      reads one after a cancelled wait. */
  lemma {:induction false} AlignedIff(exits: seq<Exit>)
    requires Legal(exits)
    ensures Aligned(exits) <==> NoReadAfterCancel(exits)
  {
    if exits != [] {
      var earlier, last := exits[..|exits| - 1], exits[|exits| - 1];
      OrderlyEarlier(exits);
      AlignedIff(earlier);
      LagIff(earlier);
      if last.Answered? {
        assert Pairs(exits) == Pairs(earlier) + [Pair(Sent(exits), Read(exits))];
        assert Pairs(exits)[|Pairs(earlier)|] == Pair(Sent(exits), Read(exits));
        assert forall i :: 0 <= i < |Pairs(earlier)| ==> Pairs(exits)[i] == Pairs(earlier)[i];
      } else {
        assert Pairs(exits) == Pairs(earlier);
      }
    }
  }

  /** The way it would go wrong: a publish after a cancelled one takes the first message's confirmation for its own. */
  lemma MisalignedAfterCancel(ack: bool)
    ensures Legal([Cancelled, Answered(ack)]) && Pairs([Cancelled, Answered(ack)]) == [Pair(2, 1)]
    ensures !Aligned([Cancelled, Answered(ack)])
  {
    var exits := [Cancelled, Answered(ack)];
    assert exits[..1] == [Cancelled] && [Cancelled][..0] == [];
    assert Sent([Cancelled]) == 1 && Read([Cancelled]) == 0 && Pairs([Cancelled]) == [];
    assert Sent(exits) == 2 && Read(exits) == 1;
    assert Pairs(exits)[0] == Pair(2, 1);
  }

  // ---------------------------------------------------------------- what a success says about the queue

  /** The `k`-th publish ended with a positive confirmation. */
  predicate Succeeds(exits: seq<Exit>, k: nat) { k < |exits| && exits[k] == Answered(true) }

  /** The broker confirms only messages it has queued. */
  ghost predicate Honest(exits: seq<Exit>, queued: set<nat>) {
    forall k :: Succeeds(exits, k) ==> Read(exits[..k + 1]) in queued
  }

  /** A publish succeeds only if its own message was queued. */
  ghost predicate Faithful(exits: seq<Exit>, queued: set<nat>) {
    forall k :: Succeeds(exits, k) ==> Sent(exits[..k + 1]) in queued
  }

  ghost predicate NoSuccessAfterCancel(exits: seq<Exit>) {
    forall i, k :: 0 <= i < k && Succeeds(exits, k) ==> !exits[i].Cancelled?
  }

  /** The confirmation read is the own one exactly if no wait was cancelled before, and else an earlier one. */
  lemma TagsAt(exits: seq<Exit>, k: nat)
    requires Legal(exits) && Succeeds(exits, k)
    ensures Read(exits[..k + 1]) <= Sent(exits[..k + 1])
    ensures Read(exits[..k + 1]) == Sent(exits[..k + 1]) <==> forall i :: 0 <= i < k ==> !exits[i].Cancelled?
  {
    assert exits[..k + 1][..k] == exits[..k];
    LagIff(exits[..k]);
    assert forall i :: 0 <= i < k ==> exits[..k][i] == exits[i] && !exits[i].ChannelClosed?;
  }

  lemma {:induction false} ReadGrows(exits: seq<Exit>, i: nat, k: nat)
    requires i <= k <= |exits|
    ensures Read(exits[..i]) <= Read(exits[..k])
    decreases k - i
  {
    if i < k {
      assert exits[..k][..k - 1] == exits[..k - 1];
      ReadGrows(exits, i, k - 1);
    }
  }

  lemma {:induction false} LastSuccess(exits: seq<Exit>, n: nat, first: nat) returns (last: nat)
    requires first < n <= |exits| && Succeeds(exits, first)
    ensures first <= last < n && Succeeds(exits, last) && forall k :: last < k < n ==> !Succeeds(exits, k)
    decreases n
  {
    if Succeeds(exits, n - 1) {
      last := n - 1;
    } else {
      last := LastSuccess(exits, n - 1, first);
    }
  }

  /** Nothing but what was confirmed is queued; then the last success was about a message that is not. */
  lemma OnlyConfirmedQueued(exits: seq<Exit>, i: nat, first: nat) returns (queued: set<nat>)
    requires Legal(exits) && i < first && Succeeds(exits, first) && exits[i].Cancelled?
    ensures Honest(exits, queued) && !Faithful(exits, queued)
  {
    var last := LastSuccess(exits, |exits|, first);
    queued := set k: nat | k < |exits| && Succeeds(exits, k) :: Read(exits[..k + 1]);
    TagsAt(exits, last);
    forall k: nat | k < |exits| && Succeeds(exits, k)
      ensures Read(exits[..k + 1]) <= Read(exits[..last + 1])
    {
      ReadGrows(exits, k + 1, last + 1);
    }
  }

  /** Whatever the broker queues, a success of `Publish` means that its own message is queued: exactly in the runs in
      which none succeeds after a cancelled wait. */
  lemma FaithfulIff(exits: seq<Exit>)
    requires Legal(exits)
    ensures (forall queued :: Honest(exits, queued) ==> Faithful(exits, queued)) <==> NoSuccessAfterCancel(exits)
  {
    if NoSuccessAfterCancel(exits) {
      forall k | Succeeds(exits, k)
        ensures Read(exits[..k + 1]) == Sent(exits[..k + 1])
      {
        TagsAt(exits, k);
      }
    } else {
      var i, k :| 0 <= i < k && Succeeds(exits, k) && exits[i].Cancelled?;
      var queued := OnlyConfirmedQueued(exits, i, k);
    }
  }

  lemma Snoc(exits: seq<Exit>, last: Exit)
    requires Legal(exits) && (forall i :: 0 <= i < |exits| && exits[i].ChannelClosed? ==> last.SendFailed?)
    ensures Legal(exits + [last])
    ensures Sent(exits + [last]) == Sent(exits) + if last.SendFailed? then 0 else 1
    ensures Read(exits + [last]) == Read(exits) + if last.Answered? then 1 else 0
  {
    assert (exits + [last])[..|exits|] == exits;
  }

  lemma HonestSnoc(exits: seq<Exit>, last: Exit, before: set<nat>, queued: set<nat>)
    requires Honest(exits, before) && before <= queued
    requires last == Answered(true) ==> Read(exits + [last]) in queued
    ensures Honest(exits + [last], queued)
  {
    var more := exits + [last];
    forall k: nat | Succeeds(more, k)
      ensures Read(more[..k + 1]) in queued
    {
      if k < |exits| {
        assert more[..k + 1] == exits[..k + 1] && Succeeds(exits, k);
      } else {
        assert more[..k + 1] == more;
      }
    }
  }

  // ---------------------------------------------------------------- the code

  /** A context ends at some moment and stays ended. */
  class Context {
    var done: bool

    constructor ()
      ensures !done
    {
      done := false;
    }

    method Elapse()
      modifies this
      ensures old(done) ==> done
    {
      var ends: bool := *;
      done := done || ends;
    }
  }

  /** The publisher's channel in confirm mode: the broker answers messages in the order of their tags, and positively
      only those it has queued. */
  class Broker {
    var sent: nat
    var answers: seq<bool>
    var read: nat
    var closed: bool
    var queued: set<nat>
    ghost var exits: seq<Exit>

    ghost predicate Counts()
      reads this
    {
      read <= |answers| <= sent && forall n :: 0 <= n < |answers| && answers[n] ==> n + 1 in queued
    }

    ghost predicate Valid()
      reads this
    {
      && Counts() && sent == Sent(exits) && read == Read(exits) && Legal(exits) && Honest(exits, queued)
      && (forall i :: 0 <= i < |exits| && exits[i].ChannelClosed? ==> closed)
    }

    constructor ()
      ensures Valid() && exits == []
    {
      sent, answers, read, closed, queued, exits := 0, [], 0, false, {}, [];
    }

    /** The broker answers some of the open messages, and the channel may close. */
    method Elapse()
      requires Counts()
      modifies this
      ensures Counts() && exits == old(exits) && sent == old(sent) && read == old(read) && queued == old(queued)
      ensures old(closed) ==> closed && answers == old(answers)
      ensures old(answers) <= answers
    {
      var more: seq<bool>, closes: bool := *, *;
      var honest := forall n :: 0 <= n < |more| && more[n] ==> |answers| + n + 1 in queued;
      if !closed && |answers| + |more| <= sent && honest {
        answers := answers + more;
      }
      closed := closed || closes;
    }

    /** The next confirmation, the end of the confirmations, or the end of the context, whichever comes; of several
        that are ready any. */
    method Await(context: Context) returns (exit: Exit)
      requires Counts() && read < sent
      modifies this, context
      ensures Counts() && sent == old(sent) && exits == old(exits) && queued == old(queued)
          && read == old(read) + (if exit.Answered? then 1 else 0)
      ensures exit.ChannelClosed? || old(closed) ==> closed
      ensures exit.Answered? ==> exit.ack == answers[read - 1] && (exit.ack ==> read in queued)
      ensures !exit.SendFailed? && (exit.Cancelled? ==> context.done) && (old(context.done) ==> context.done)
    {
      Elapse();
      context.Elapse();
      var contextFirst: bool := *;
      if context.done && contextFirst {
        exit := Cancelled;
      } else if read < |answers| {
        read := read + 1;
        exit := Answered(answers[read - 1]);
      } else if closed {
        exit := ChannelClosed;
      } else if context.done {
        exit := Cancelled;
      } else {
        // Nothing is ready yet, so the wait goes on until the broker answers.
        var ack: bool := *;
        ack := ack && |answers| + 1 in queued;
        answers := answers + [ack];
        read := read + 1;
        exit := Answered(ack);
      }
    }

    /** The message goes out, unless the send is refused, and is queued or not; then its confirmation is awaited. */
    method Transmit(context: Context) returns (exit: Exit)
      requires Counts()
      modifies this, context
      ensures Counts() && exits == old(exits) && old(queued) <= queued
      ensures sent == old(sent) + (if exit.SendFailed? then 0 else 1)
          && read == old(read) + (if exit.Answered? then 1 else 0)
      ensures exit.ChannelClosed? || old(closed) ==> closed
      ensures old(closed) ==> exit.SendFailed?
      ensures exit.Answered? ==> exit.ack == answers[read - 1] && (exit.ack ==> read in queued)
      ensures (exit.Cancelled? ==> context.done) && (old(context.done) ==> context.done)
    {
      var refused: bool, stored: bool := *, *;
      if closed || refused {
        return SendFailed;
      }
      sent := sent + 1;
      if stored {
        queued := queued + {sent};
      }
      exit := Await(context);
    }

    /** `Publish`. If no wait was given up before, its success means that its own message was confirmed. */
    method Publish(context: Context) returns (ok: bool)
      requires Valid()
      modifies this, context
      ensures Valid() && |exits| == |old(exits)| + 1 && exits[..|old(exits)|] == old(exits)
      ensures ok <==> exits[|old(exits)|] == Answered(true)
      ensures ok && NothingGivenUp(old(exits)) ==>
                |answers| >= sent && sent == old(sent) + 1 && answers[sent - 1] && sent in queued
      ensures old(queued) <= queued
      ensures exits[|old(exits)|].Cancelled? ==> context.done
      ensures old(context.done) ==> context.done
      ensures old(closed) ==> exits[|old(exits)|].SendFailed?
    {
      Elapse();
      LagIff(exits);
      var exit := Transmit(context);
      Snoc(exits, exit);
      HonestSnoc(exits, exit, old(queued), queued);
      exits := exits + [exit];
      ok := exit == Answered(true);
    }
  }

  ghost predicate NoneCancelled(exits: seq<Exit>) {
    forall i :: 0 <= i < |exits| ==> !exits[i].Cancelled?
  }

  lemma OneExitMore(exits: seq<Exit>, more: seq<Exit>)
    requires NoneCancelled(exits) && |more| == |exits| + 1 && more[..|exits|] == exits
    ensures NoReadAfterCancel(more)
    ensures !more[|exits|].Cancelled? ==> NoneCancelled(more)
  {
    assert forall i :: 0 <= i < |exits| ==> more[i] == exits[i];
  }

  /** The single goroutine that publishes on the channel. */
  class Publisher {
    const broker: Broker
    const context: Context

    constructor (broker: Broker, context: Context)
      ensures this.broker == broker && this.context == context
    {
      this.broker := broker;
      this.context := context;
    }

    /** A wait was cancelled only if the context has ended, and nothing was read after it. */
    ghost predicate Orderly()
      reads broker, context
    {
      broker.Valid() && NoReadAfterCancel(broker.exits) && (context.done || NoneCancelled(broker.exits))
    }

    /** The claim query fails on a context that has ended; otherwise it may fail or return up to 25 events. */
    method ClaimOutbox() returns (count: nat, ok: bool)
      modifies context
      ensures old(context.done) ==> context.done && !ok
      ensures count <= BATCH
    {
      count, ok := *, *;
      ok := ok && !context.done;
      if count > BATCH {
        count := BATCH;
      }
      context.Elapse();
    }

    method MarkPublished() returns (ok: bool)
      modifies context
      ensures old(context.done) ==> context.done
    {
      context.Elapse();
      ok := *;
    }

    method PublishBatch() returns (ok: bool)
      requires Orderly()
      modifies broker, context
      ensures Orderly() && (old(context.done) ==> context.done)
      ensures old(context.done) ==> broker.exits == old(broker.exits) && !ok
    {
      var count;
      count, ok := ClaimOutbox();
      var i: nat := 0;
      while ok && i < count
        invariant Orderly() && (old(context.done) ==> context.done && !ok && broker.exits == old(broker.exits))
        invariant i <= count && (ok ==> NoneCancelled(broker.exits))
      {
        ghost var exits := broker.exits;
        ok := broker.Publish(context);
        OneExitMore(exits, broker.exits);
        if ok {
          ok := MarkPublished();
        }
        i := i + 1;
      }
    }

    /** `Run`, for some turns of its loop. When both the context and the ticker are ready either may be taken, so
        another batch can follow the end of the context; but it gets no further than its claim. */
    method Run(turns: nat)
      requires Orderly()
      modifies broker, context
      ensures Orderly() && Aligned(broker.exits) && Faithful(broker.exits, broker.queued)
    {
      var turn := 0;
      while turn < turns
        invariant Orderly()
      {
        var _ := PublishBatch();
        context.Elapse();
        var ticked: bool := *;
        if context.done && !ticked {
          break;
        }
        turn := turn + 1;
      }
      AlignedIff(broker.exits);
      FaithfulIff(broker.exits);
    }
  }
}
