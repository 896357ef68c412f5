/** A topic's runs from the calls that make them to their end. */
module TopicRuns {
  import opened Wrappers
  import opened Events
  import opened TopicLog
  import opened TopicLogInvariants
  import opened SubscriptionInvariants
  import opened TopicDelivery
  import opened Continuations
  import opened DeliveryConditions

  // ---------------------------------------------------------------- what was put in

  /** The envelopes of the valid `AddEvent` calls among the first `i` steps. */
  ghost function Put(acts: seq<Action>, i: nat): multiset<EventEnvelope>
    requires i <= |acts|
  {
    if i == 0 then multiset{}
    else
      var a := acts[i - 1];
      if a.AddEvent? && a.evt.Some? && a.sender != Nil then Put(acts, i - 1) + multiset{EventEnvelope(a.evt, a.topic, a.sender, 0)}
      else Put(acts, i - 1)
  }

  lemma AcceptedStep(t: Topic, a: Action)
    requires Enabled(t, a)
    ensures Apply(t, a).log.accepted ==
            t.log.accepted + if a.AddEvent? && a.evt.Some? && a.sender != Nil then multiset{EventEnvelope(a.evt, a.topic, a.sender, 0)} else multiset{}
  {
  }

  lemma RunIs(states: seq<Topic>, acts: seq<Action>)
    requires Run(states, acts)
    ensures Path(states, acts) && |states| == |acts| + 1 && states[0].log.accepted == multiset{} && Reachable(states[0])
  {
    InitReachable();
    PathLength(states, acts);
    hide Path, Reachable;
  }

  lemma {:induction false} PutAlong(states: seq<Topic>, acts: seq<Action>, i: nat)
    requires Run(states, acts) && i <= |acts|
    ensures states[i].log.accepted == Put(acts, i)
  {
    hide Run, Path, Apply, Enabled, Reachable;
    RunIs(states, acts);
    if i > 0 {
      PutAlong(states, acts, i - 1);
      PathStep(states, acts, i - 1);
      AcceptedStep(states[i - 1], acts[i - 1]);
    }
  }

  /** Over every run: the events of all valid `AddEvent` calls, each as often as it was passed, are stored,
      in flight, or dropped because the server's context is done. */
  lemma PutIsStored(states: seq<Topic>, acts: seq<Action>, i: nat)
    requires Run(states, acts) && i <= |acts|
    ensures Put(acts, i) == Raw(states[i].log.events) + states[i].log.inflight + states[i].log.dropped
    ensures !states[i].serverDone ==> states[i].log.dropped == multiset{}
  {
    PutAlong(states, acts, i);
    RunIs(states, acts);
    ReachableAlong(states, acts, i);
    hide Run, Path, Reachable;
    EventsConserved(states[i]);
  }

  // ---------------------------------------------------------------- the end of a topic

  ghost predicate NoHolders(t: Topic, n: nat) {
    n <= |t.records| && forall s :: 0 <= s < n ==> t.records[s].holder.None?
  }

  /** Same log, same deliveries, done. */
  ghost predicate Ending(t: Topic, t': Topic) {
    && t'.topicDone && t'.log == t.log && t'.tasks.sends <= t.tasks.sends && |t'.records| == |t.records|
    && forall s :: 0 <= s < |t.records| ==> t'.records[s].delivered == t.records[s].delivered && t'.records[s].filters == t.records[s].filters
  }

  lemma EndingThen(t: Topic, t1: Topic, t2: Topic)
    requires Ending(t, t1) && Ending(t1, t2)
    ensures Ending(t, t2)
  {
  }

  lemma AbandonEnds(t: Topic, s: nat)
    requires t.topicDone && s < |t.records| && t.records[s].holder.Some?
    ensures Enabled(t, Abandon(s))
    ensures var t' := Apply(t, Abandon(s));
            && Ending(t, t') && t'.tasks == t.tasks && t'.records[s].holder.None?
            && forall k :: 0 <= k < |t.records| && k != s ==> t'.records[k] == t.records[k]
  {
  }

  /** The first `n` holders leave. */
  lemma {:induction false} HoldersLeave(t0: Topic, t: Topic, n: nat) returns (t': Topic)
    requires Continues(t0, t) && t.topicDone && n <= |t.records|
    ensures Continues(t0, t') && Ending(t, t') && NoHolders(t', n) && t'.tasks.sends == t.tasks.sends
  {
    hide Continues, Apply, Enabled;
    t' := t;
    if n > 0 {
      var t1 := HoldersLeave(t0, t, n - 1);
      t' := t1;
      if t1.records[n - 1].holder.Some? {
        AbandonEnds(t1, n - 1);
        Next(t0, t1, Abandon(n - 1));
        t' := Apply(t1, Abandon(n - 1));
        EndingThen(t, t1, t');
      }
    }
  }

  lemma AcquireEnds(t: Topic, snd: Send)
    requires t.topicDone && snd in t.tasks.sends && snd.sub < |t.records| && t.records[snd.sub].filters == [] && NoHolders(t, |t.records|)
    ensures Enabled(t, Acquire(snd))
    ensures var t' := Apply(t, Acquire(snd));
            && Ending(t, t') && t'.tasks.sends == t.tasks.sends - multiset{snd} && t'.records[snd.sub].holder.Some?
            && forall k :: 0 <= k < |t.records| && k != snd.sub ==> t'.records[k] == t.records[k]
  {
  }

  lemma FilteredEnds(t: Topic, snd: Send)
    requires t.topicDone && snd in t.tasks.sends && snd.sub < |t.records| && t.records[snd.sub].filters != [] && NoHolders(t, |t.records|)
    ensures Enabled(t, AbandonFiltered(snd))
    ensures var t' := Apply(t, AbandonFiltered(snd));
            Ending(t, t') && t'.tasks.sends == t.tasks.sends - multiset{snd} && NoHolders(t', |t'.records|)
  {
  }

  /** One sender leaves, through the lock if its subscription has no filters. */
  lemma SenderLeaves(t0: Topic, t: Topic, snd: Send) returns (t': Topic)
    requires Continues(t0, t) && t.topicDone && snd in t.tasks.sends && snd.sub < |t.records| && NoHolders(t, |t.records|)
    ensures Continues(t0, t') && Ending(t, t') && NoHolders(t', |t'.records|) && t'.tasks.sends == t.tasks.sends - multiset{snd}
  {
    hide Continues, Apply, Enabled;
    if t.records[snd.sub].filters != [] {
      FilteredEnds(t, snd);
      Next(t0, t, AbandonFiltered(snd));
      t' := Apply(t, AbandonFiltered(snd));
    } else {
      AcquireEnds(t, snd);
      Next(t0, t, Acquire(snd));
      var t1 := Apply(t, Acquire(snd));
      AbandonEnds(t1, snd.sub);
      Next(t0, t1, Abandon(snd.sub));
      t' := Apply(t1, Abandon(snd.sub));
      EndingThen(t, t1, t');
    }
  }

  lemma {:induction false} SendersLeave(t0: Topic, t: Topic) returns (t': Topic)
    requires Continues(t0, t) && t.topicDone && NoHolders(t, |t.records|) && forall x :: x in t.tasks.sends ==> x.sub < |t.records|
    ensures Continues(t0, t') && Ending(t, t') && NoHolders(t', |t'.records|) && t'.tasks.sends == multiset{}
    decreases |t.tasks.sends|
  {
    hide Continues, NoHolders, Ending;
    if t.tasks.sends == multiset{} {
      t' := t;
      EndingItself(t);
    } else {
      var snd :| snd in t.tasks.sends;
      var t1 := SenderLeaves(t0, t, snd);
      EndingIs(t, t1);
      t' := SendersLeave(t0, t1);
      EndingThen(t, t1, t');
    }
  }

  lemma EndingItself(t: Topic)
    requires t.topicDone
    ensures Ending(t, t)
  {
  }

  lemma EndingIs(t: Topic, t': Topic)
    requires Ending(t, t')
    ensures t'.topicDone && |t'.records| == |t.records|
  {
  }

  lemma SendsKnown(t: Topic)
    requires Reachable(t)
    ensures forall x :: x in t.tasks.sends ==> x.sub < |t.records|
  {
    InvReachable(t);
    forall x | x in t.tasks.sends ensures x.sub < |t.records| {
      assert Accounted(t, x);
      assert x in t.tasks.created;
      assert Carries(t, x);
    }
  }

  /** Once its context is done, all senders of a topic can leave, blocked ones too, without delivering
      anything more. */
  lemma CancelEndsSenders(t: Topic) returns (t': Topic)
    requires Reachable(t) && t.topicDone
    ensures Continues(t, t') && t'.tasks.sends == multiset{} && |t'.records| == |t.records| && t'.log == t.log
    ensures forall s :: 0 <= s < |t.records| ==> t'.records[s].holder.None? && t'.records[s].delivered == t.records[s].delivered
  {
    ContinuesItself(t);
    SendsKnown(t);
    hide Reachable, Continues;
    var t1 := HoldersLeave(t, t, |t.records|);
    t' := SendersLeave(t, t1);
    EndingThen(t, t1, t');
  }

  /** The same for the events in flight when the server's context is done. */
  lemma {:induction false} ServerEndsInflight(t0: Topic, t: Topic) returns (t': Topic)
    requires Continues(t0, t) && t.serverDone
    ensures Continues(t0, t') && t'.log.inflight == multiset{} && t'.log.events == t.log.events
    ensures t'.log.dropped == t.log.dropped + t.log.inflight
    decreases |t.log.inflight|
  {
    hide Continues;
    t' := t;
    if t.log.inflight != multiset{} {
      var ee :| ee in t.log.inflight;
      Next(t0, t, DropEvent(ee));
      t' := t.(log := t.log.(inflight := t.log.inflight - multiset{ee}, dropped := t.log.dropped + multiset{ee}));
      t' := ServerEndsInflight(t0, t');
    }
  }

  lemma CancelStep(t: Topic, a: Action)
    requires Enabled(t, a) && (t.serverDone ==> t.topicDone)
    ensures Apply(t, a).serverDone ==> Apply(t, a).topicDone
    ensures t.topicDone ==> Apply(t, a).topicDone
    ensures Apply(t, a).serverDone <==> t.serverDone || a.CancelServer?
  {
  }

  /** The server's end is the end of all its topics, and neither is taken back. */
  lemma {:induction false} ServerDoneTopicDone(states: seq<Topic>, acts: seq<Action>, i: nat)
    requires Run(states, acts) && i <= |acts|
    ensures states[i].serverDone ==> states[i].topicDone
    ensures states[i].serverDone <==> exists k :: 0 <= k < i && acts[k].CancelServer?
  {
    hide Path, Apply, Enabled, Reachable;
    RunIs(states, acts);
    hide Run;
    if i > 0 {
      ServerDoneTopicDone(states, acts, i - 1);
      PathStep(states, acts, i - 1);
      CancelStep(states[i - 1], acts[i - 1]);
    }
  }
}
