/** From the messages the callers pass to the log: what a run's calls of `PutMessages` put in is what
    the queue stores. */
module MessageAcceptance {
  import opened Wrappers
  import opened Events
  import Names
  import opened MessageQueue
  import opened MessageProtocol
  import opened MessageDelivery

  /** The call gets past all checks: of its name, its sender, its messages, the server and the queue. */
  ghost predicate Accepts(s: Server, name: string, sender: Uuid, queue: string, msgs: seq<Message>) {
    && Names.Trim(queue) == name != "" && sender != Nil && |msgs| > 0 && s.runned
    && (name in s.queues ==> s.queues[name].runned)
  }

  /** The messages of the accepted calls for queue `name` among the first `i` steps of a run, call by
      call; a new start of the server forgets them. */
  ghost function Given(states: seq<Server>, acts: seq<ServerAction>, name: string, i: nat): seq<seq<Envelope>>
    requires |states| == |acts| + 1 && i <= |acts|
  {
    if i == 0 then []
    else
      var before, s, a := Given(states, acts, name, i - 1), states[i - 1], acts[i - 1];
      if a.Run? && !s.runned then []
      else if a.PutMessages? && Accepts(s, name, a.sender, a.queue, a.msgs) then
        before + [seq(|a.msgs|, j requires 0 <= j < |a.msgs| => Envelope(a.msgs[j], a.sender))]
      else before
  }

  ghost function QueueGiven(s: Server, name: string): seq<seq<Envelope>> {
    if name in s.queues then AcceptedParts(s.queues[name].batches) else []
  }

  /** No step of a queue's goroutines changes what its senders were given. */
  lemma InsideGiven(q: Queue, done: bool, a: QueueAction)
    requires Ready(q, done, a)
    ensures AcceptedParts(After(q, done, a).batches) == AcceptedParts(q.batches)
  {
    var q' := After(q, done, a);
    assert |q'.batches| == |q.batches|;
    forall b | 0 <= b < |q.batches| ensures q'.batches[b].sender == q.batches[b].sender && q'.batches[b].msgs == q.batches[b].msgs {
    }
  }

  lemma PutGiven(q: Queue, sender: Uuid, msgs: seq<Message>)
    requires q.runned
    ensures AcceptedParts(ApplyPut(q, sender, msgs).batches) ==
            AcceptedParts(q.batches) + [seq(|msgs|, j requires 0 <= j < |msgs| => Envelope(msgs[j], sender))]
  {
    assert Envelopes(sender, msgs) == seq(|msgs|, j requires 0 <= j < |msgs| => Envelope(msgs[j], sender));
  }

  /** An accepted call adds exactly its messages, in order, with its sender; every other step leaves
      what a queue was given alone, but for a new start. */
  lemma GivenStep(s: Server, a: ServerAction, name: string)
    requires Enabled(s, a)
    ensures QueueGiven(Apply(s, a), name) ==
            if a.Run? && !s.runned then []
            else if a.PutMessages? && Accepts(s, name, a.sender, a.queue, a.msgs) then
              QueueGiven(s, name) + [seq(|a.msgs|, j requires 0 <= j < |a.msgs| => Envelope(a.msgs[j], a.sender))]
            else QueueGiven(s, name)
  {
    hide Names.Trim, AcceptedParts, Ready, After, ApplyPut, ApplyGet;
    NewGiven();
    if a.Inside? {
      InsideGiven(s.queues[a.queue], s.done, a.step);
    } else if a.GetMessages? && a.queue in s.queues {
      GetGiven(s.queues[a.queue], a.receiver, a.fromBegin);
    } else if a.PutMessages? && PutCheck(s, a.sender, a.queue, a.msgs).Ok? {
      var q := QueueOrNew(s, Names.Trim(a.queue));
      if q.runned {
        PutGiven(q, a.sender, a.msgs);
      } else {
        PutStopped(q, a.sender, a.msgs);
      }
    }
  }

  lemma PutStopped(q: Queue, sender: Uuid, msgs: seq<Message>)
    requires !q.runned
    ensures ApplyPut(q, sender, msgs) == q
  {
  }

  lemma NewGiven()
    ensures AcceptedParts(NewQueue().batches) == [] && NewQueue().runned
  {
  }

  lemma GetGiven(q: Queue, receiver: Uuid, fromBegin: bool)
    ensures ApplyGet(q, receiver, fromBegin).batches == q.batches
  {
  }

  lemma {:induction false} GivenAlong(states: seq<Server>, acts: seq<ServerAction>, name: string, i: nat)
    requires Path(states, acts) && states[0] == Init() && i <= |acts|
    ensures QueueGiven(states[i], name) == Given(states, acts, name, i)
  {
    if i > 0 {
      GivenAlong(states, acts, name, i - 1);
      assert Step(states[i - 1], acts[i - 1], states[i - 1 + 1]);
      hide Apply, Enabled, QueueGiven, Accepts;
      GivenStep(states[i - 1], acts[i - 1], name);
    }
  }

  /** Over every run: once a queue's senders have finished and its loop holds nothing, the log has the
      messages of all accepted calls, each as often as it was passed, and the messages of every call in
      the order they were passed. */
  lemma GivenIsStored(states: seq<Server>, acts: seq<ServerAction>, name: string, i: nat)
    requires Path(states, acts) && states[0] == Init() && i <= |acts| && name in states[i].queues
    requires states[i].queues[name].hand.None?
    requires forall b :: 0 <= b < |states[i].queues[name].batches| ==>
                           states[i].queues[name].batches[b].next == |states[i].queues[name].batches[b].msgs|
    ensures multiset(states[i].queues[name].messages) == multiset(Concat(Given(states, acts, name, i)))
    ensures forall b :: 0 <= b < |Given(states, acts, name, i)| ==> Subsequence(Given(states, acts, name, i)[b], states[i].queues[name].messages)
  {
    GivenAlong(states, acts, name, i);
    ReachableAlong(states, acts, i);
    AllAcceptedStored(states[i], name);
    var parts := Given(states, acts, name, i);
    hide Path, Reachable, Given, Subsequence;
    forall b | 0 <= b < |parts| ensures Subsequence(parts[b], states[i].queues[name].messages) {
      MergeKeepsOrder(parts, states[i].queues[name].messages, b);
    }
  }

  /** At any time the log interleaves prefixes of the messages of the accepted calls, in their order. */
  lemma LogFromGiven(states: seq<Server>, acts: seq<ServerAction>, name: string, i: nat) returns (parts: seq<seq<Envelope>>)
    requires Path(states, acts) && states[0] == Init() && i <= |acts| && name in states[i].queues
    ensures |parts| == |Given(states, acts, name, i)|
    ensures forall b :: 0 <= b < |parts| ==> parts[b] <= Given(states, acts, name, i)[b]
    ensures Merge(parts, states[i].queues[name].messages)
  {
    GivenAlong(states, acts, name, i);
    ReachableAlong(states, acts, i);
    hide Path, Reachable, Given;
    parts := LogIsMerge(states[i], name);
  }
}
