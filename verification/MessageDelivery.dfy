/** What the message server promises over every interleaving of senders, loops and readers. */
module MessageDelivery {
  import opened Wrappers
  import opened Events
  import Names
  import opened MessageQueue
  import opened MessageProtocol

  lemma InvOf(s: Server, name: string)
    requires Reachable(s) && name in s.queues
    ensures QueueInv(s.queues[name], s.done)
  {
    InvReachable(s);
  }

  // ---------------------------------------------------------------- receivers

  /** What a receiver was given since its last read from the beginning is exactly the log up to its
      cursor: no message is skipped and none comes twice. */
  lemma CursorsPartition(s: Server, name: string, r: Uuid)
    requires Reachable(s) && name in s.queues
    ensures var q := s.queues[name];
            && 0 <= q.Last(r) <= |q.messages|
            && Since(q.readers, r) == q.messages[..q.Last(r)]
  {
    InvOf(s, name);
  }

  /** A result channel carries a prefix of its slice, and all of it once it is closed. Without the
      context's end no goroutine of a channel gives up. */
  lemma ChannelCarriesSlice(s: Server, name: string, i: nat)
    requires Reachable(s) && name in s.queues && i < |s.queues[name].readers|
    ensures var rd := s.queues[name].readers[i];
            && rd.received <= rd.slice
            && (rd.closed ==> rd.received == rd.slice)
            && (!s.done && !rd.closed ==> exists a :: (a == SendOne(i) || a == Close(i)) && Ready(s.queues[name], s.done, a))
  {
    InvOf(s, name);
    var q := s.queues[name];
    assert ReaderOk(q.readers[i]);
    if q.readers[i].next < |q.readers[i].slice| {
      assert q.readers[i].Sending() ==> Ready(q, s.done, SendOne(i));
    } else {
      assert q.readers[i].Sending() ==> Ready(q, s.done, Close(i));
    }
  }

  lemma {:induction false} ReceivedIsSince(readers: seq<Reader>, r: Uuid)
    requires forall i :: 0 <= i < |readers| && readers[i].receiver == r ==> readers[i].received == readers[i].slice
    ensures Received(readers, r) == Since(readers, r)
  {
    if readers != [] {
      ReceivedIsSince(readers[..|readers| - 1], r);
    }
  }

  /** A receiver whose channels are all closed has received every message up to its cursor exactly
      once and in order, counting from its last read from the beginning. */
  lemma ReceivedExactlyOnce(s: Server, name: string, r: Uuid)
    requires Reachable(s) && name in s.queues
    requires forall i :: 0 <= i < |s.queues[name].readers| && s.queues[name].readers[i].receiver == r ==> s.queues[name].readers[i].closed
    ensures s.queues[name].Last(r) <= |s.queues[name].messages|
    ensures Received(s.queues[name].readers, r) == s.queues[name].messages[..s.queues[name].Last(r)]
  {
    var q := s.queues[name];
    CursorsPartition(s, name, r);
    forall i | 0 <= i < |q.readers| && q.readers[i].receiver == r ensures q.readers[i].received == q.readers[i].slice {
      ChannelCarriesSlice(s, name, i);
    }
    ReceivedIsSince(q.readers, r);
  }

  // ---------------------------------------------------------------- senders

  /** Each part is a prefix of the messages its batch was accepted with. */
  ghost predicate PrefixesOf(parts: seq<seq<Envelope>>, batches: seq<Batch>) {
    && |parts| == |batches|
    && forall b :: 0 <= b < |parts| ==> parts[b] <= Envelopes(batches[b].sender, batches[b].msgs)
  }

  lemma TakenPrefix(batches: seq<Batch>)
    ensures PrefixesOf(TakenParts(batches), batches)
  {
  }

  lemma FrontOfPart(parts: seq<seq<Envelope>>, batches: seq<Batch>, b: nat)
    requires PrefixesOf(parts, batches) && b < |parts| && parts[b] != []
    ensures PrefixesOf(parts[b := parts[b][..|parts[b]| - 1]], batches)
  {
    var part := parts[b];
    assert part[..|part| - 1] <= part;
  }

  lemma MergeFront<T>(parts: seq<seq<T>>, log: seq<T>, x: T) returns (b: nat)
    requires Merge(parts, log + [x])
    ensures b < |parts| && parts[b] != [] && Merge(parts[b := parts[b][..|parts[b]| - 1]], log)
  {
    assert (log + [x])[..|log + [x]| - 1] == log;
    b :| b < |parts| && MergeLast(parts, log + [x], b);
  }

  lemma InterleavesTaken(q: Queue, done: bool)
    requires QueueInv(q, done)
    ensures q.hand.None? ==> Merge(TakenParts(q.batches), q.messages)
    ensures q.hand.Some? ==> Merge(TakenParts(q.batches), q.messages + [Envelope(q.hand.value.msg, q.hand.value.sender)])
  {
    assert q.hand.None? ==> q.messages + q.InHand() == q.messages;
  }

  /** The log interleaves prefixes of the accepted batches, one prefix per batch; so it keeps the
      order of every batch. */
  lemma LogIsMerge(s: Server, name: string) returns (parts: seq<seq<Envelope>>)
    requires Reachable(s) && name in s.queues
    ensures PrefixesOf(parts, s.queues[name].batches) && Merge(parts, s.queues[name].messages)
    ensures forall b :: 0 <= b < |parts| ==> Subsequence(parts[b], s.queues[name].messages)
  {
    InvOf(s, name);
    var q := s.queues[name];
    parts := TakenParts(q.batches);
    TakenPrefix(q.batches);
    hide *;
    InterleavesTaken(q, s.done);
    if q.hand.Some? {
      var b := MergeFront(parts, q.messages, Envelope(q.hand.value.msg, q.hand.value.sender));
      FrontOfPart(parts, q.batches, b);
      parts := parts[b := parts[b][..|parts[b]| - 1]];
    }
    forall b | 0 <= b < |parts| ensures Subsequence(parts[b], q.messages) {
      MergeKeepsOrder(parts, q.messages, b);
    }
  }

  /** All the messages `putMessages` has accepted. */
  function AcceptedParts(batches: seq<Batch>): seq<seq<Envelope>> {
    seq(|batches|, i requires 0 <= i < |batches| => Envelopes(batches[i].sender, batches[i].msgs))
  }

  /** Once the senders have finished and the loop holds nothing, the log has every accepted message
      as often as it was accepted, and each batch in its order. */
  lemma AllAcceptedStored(s: Server, name: string)
    requires Reachable(s) && name in s.queues && s.queues[name].hand.None?
    requires forall b :: 0 <= b < |s.queues[name].batches| ==> s.queues[name].batches[b].next == |s.queues[name].batches[b].msgs|
    ensures Merge(AcceptedParts(s.queues[name].batches), s.queues[name].messages)
    ensures multiset(s.queues[name].messages) == multiset(Concat(AcceptedParts(s.queues[name].batches)))
  {
    InvOf(s, name);
    var q := s.queues[name];
    assert q.messages + q.InHand() == q.messages;
    forall b | 0 <= b < |q.batches| ensures q.batches[b].Taken() == Envelopes(q.batches[b].sender, q.batches[b].msgs) {
      assert q.batches[b].msgs[..q.batches[b].next] == q.batches[b].msgs;
    }
    assert TakenParts(q.batches) == AcceptedParts(q.batches);
    MergeMultiset(AcceptedParts(q.batches), q.messages);
  }

  /** The loop never leaves by the nil sender: the server has refused such batches. */
  lemma NilExitNeverTaken(s: Server, name: string)
    requires Reachable(s)
    ensures !Enabled(s, Inside(name, ExitOnNil))
  {
    if name in s.queues {
      InvOf(s, name);
    }
  }

  /** Until the context is done the loop runs, so a sender with something left can always go on: the
      loop stores what it holds, or takes the sender's next message. */
  lemma SenderNotStuck(s: Server, name: string, b: nat)
    requires Reachable(s) && name in s.queues && !s.done && b < |s.queues[name].batches|
    requires s.queues[name].batches[b].next < |s.queues[name].batches[b].msgs|
    ensures Enabled(s, Inside(name, Store)) || Enabled(s, Inside(name, Receive(b)))
    ensures s.queues[name].runned
  {
    InvOf(s, name);
  }

  // ---------------------------------------------------------------- over time

  /** What a step may change of a queue. */
  lemma QueueAdvances(q: Queue, done: bool, a: QueueAction)
    requires Ready(q, done, a)
    ensures q.messages <= After(q, done, a).messages
    ensures After(q, done, a).lastReaded == q.lastReaded
  {
  }

  lemma StepAdvances(s: Server, a: ServerAction, name: string, r: Uuid)
    requires Reachable(s) && Enabled(s, a) && name in s.queues && (a.Run? ==> s.runned)
    ensures var s' := Apply(s, a);
            && name in s'.queues && s.queues[name].messages <= s'.queues[name].messages
            && s.queues[name].Last(r) <= s'.queues[name].Last(r)
  {
    CursorsPartition(s, name, r);
    hide Reachable, Names.Trim, NewQueue, Since, Received;
    if a.Inside? {
      QueueAdvances(s.queues[a.queue], s.done, a.step);
    }
  }

  lemma ReachableAlong(states: seq<Server>, acts: seq<ServerAction>, i: nat)
    requires Path(states, acts) && states[0] == Init() && i <= |acts|
    ensures Reachable(states[i])
  {
    var states', acts' := states[..i + 1], acts[..i];
    hide Step;
    assert Path(states', acts') && states'[|acts'|] == states[i];
  }

  /** Within one run of the server a queue only grows at its end and no cursor moves back. */
  lemma {:induction false} CursorsNeverDecrease(states: seq<Server>, acts: seq<ServerAction>, i: nat, j: nat, name: string, r: Uuid)
    requires Path(states, acts) && states[0] == Init() && i <= j <= |acts| && name in states[i].queues
    requires forall k :: i <= k < j && acts[k].Run? ==> states[k].runned
    ensures name in states[j].queues && states[i].queues[name].messages <= states[j].queues[name].messages
    ensures states[i].queues[name].Last(r) <= states[j].queues[name].Last(r)
  {
    if i < j {
      CursorsNeverDecrease(states, acts, i, j - 1, name, r);
      ReachableAlong(states, acts, j - 1);
      assert Step(states[j - 1], acts[j - 1], states[j - 1 + 1]);
      hide Apply, Enabled, Reachable;
      StepAdvances(states[j - 1], acts[j - 1], name, r);
    }
  }
}
