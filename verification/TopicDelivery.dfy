/** What the topic promises over every interleaving of its goroutines. */
module TopicDelivery {
  import opened Wrappers
  import opened Events
  import opened TopicLog
  import opened TopicLogInvariants
  import opened SubscriptionInvariants

  // ---------------------------------------------------------------- the invariant, one fact at a time

  lemma RecordOf(t: Topic, s: nat)
    requires Reachable(t) && s < |t.records|
    ensures RecordInv(t.records[s], s, |t.log.events|, t.topicDone)
  {
    InvReachable(t);
  }

  lemma CreatedOf(t: Topic, snd: Send)
    requires Reachable(t) && snd in t.tasks.created
    ensures Carries(t, snd) && t.tasks.created[snd] == 1
  {
    InvReachable(t);
  }

  lemma AcquiredOf(t: Topic, s: nat, x: Send)
    requires Reachable(t) && s < |t.records| && x in t.records[s].acquired
    ensures Carries(t, x) && x.sub == s && multiset(t.records[s].acquired)[x] == 1
  {
    InvReachable(t);
    AcquiredOnce(t, s, x);
  }

  lemma DeliveredOf(t: Topic, s: nat, x: Send)
    requires Reachable(t) && s < |t.records| && x in t.records[s].delivered
    ensures Carries(t, x) && x.sub == s && multiset(t.records[s].delivered)[x] == 1
  {
    InvReachable(t);
    AcquiredOnce(t, s, x);
  }

  lemma CoverOf(t: Topic, s: nat, p: nat)
    requires Reachable(t) && Member(t, s) && t.records[s].startPos == 0 && p < |t.log.events|
    ensures Covered(t, s, p)
  {
    InvReachable(t);
  }

  // ---------------------------------------------------------------- the log

  /** Accepted events are stored once, in flight or dropped by the server's end; the envelope check
      rejects none of them; stored event `i` carries index `i`. */
  lemma EventsConserved(t: Topic)
    requires Reachable(t)
    ensures t.log.accepted == Raw(t.log.events) + t.log.inflight + t.log.dropped
    ensures !t.serverDone ==> t.log.dropped == multiset{}
    ensures t.log.rejected == multiset{}
    ensures forall i :: 0 <= i < |t.log.events| ==> t.log.events[i].index == i && t.log.events[i].Check()
  {
    InvReachable(t);
  }

  /** The log grows only at its end, and no stored envelope changes. */
  lemma {:induction false} LogAppendOnly(states: seq<Topic>, acts: seq<Action>, i: nat, j: nat)
    requires Path(states, acts) && i <= j <= |acts|
    ensures states[i].log.events <= states[j].log.events
  {
    if i < j {
      LogAppendOnly(states, acts, i, j - 1);
      assert Step(states[j - 1], acts[j - 1], states[j - 1 + 1]);
      hide Apply, Enabled;
      StepAppends(states[j - 1], acts[j - 1]);
    }
  }

  // ---------------------------------------------------------------- what a delivery carries

  /** With a start position of `FromBegin` or `OnlyNewEvents`, the envelope delivered for a
      position is the stored event of that position, whether or not the subscription filters. */
  lemma DeliveredIsStored(t: Topic, s: nat, x: Send)
    requires Reachable(t) && s < |t.records| && t.records[s].startPos <= 0 && x in t.records[s].delivered
    ensures 0 <= x.pos < |t.log.events| && x.ee == t.log.events[x.pos]
  {
    DeliveredOf(t, s, x);
  }

  /** The replay numbers events relative to its start: every replayed envelope is announced at its
      own index exactly when the replay starts at 0 or has nothing to replay. */
  lemma ReplayNumbering(t: Topic, id: nat, from: nat)
    requires Reachable(t) && from <= |t.log.events|
    ensures (forall i :: 0 <= i < |ReplaySends(t, id, from)| ==>
                           ReplaySends(t, id, from)[i].ee.index == ReplaySends(t, id, from)[i].pos)
            <==> from == 0 || from == |t.log.events|
  {
    EventsConserved(t);
    var rs := ReplaySends(t, id, from);
    if from != 0 && from < |t.log.events| {
      assert rs[0].pos == 0 && rs[0].ee == t.log.events[from];
    }
  }

  /** A filtering subscription gets only envelopes that all its filters accept. */
  lemma FilteredDeliveries(t: Topic, s: nat, x: Send)
    requires Reachable(t) && s < |t.records| && t.records[s].filters != [] && x in t.records[s].delivered
    ensures forall f :: f in t.records[s].filters ==> f.Accepts(x.ee)
    ensures multiset(t.records[s].delivered)[x] == 1
  {
    RecordOf(t, s);
    DeliveredOf(t, s, x);
  }

  // ---------------------------------------------------------------- subscriptions from the beginning

  lemma ThreeZeros(t: Topic, s: nat, k: int)
    requires Reachable(t) && s < |t.records| && t.records[s].startPos == 0
    requires ZerosThenCount(t.records[s].delivered, k)
    ensures k <= 2
  {
    var d := t.records[s].delivered;
    if k >= 3 {
      ZeroTask(t, s, d[0]);
      ZeroTask(t, s, d[1]);
      ZeroTask(t, s, d[2]);
      hide ZerosThenCount, Reachable;
      TwiceCounts(d, 0, 1);
      TwiceCounts(d, 0, 2);
      TwiceCounts(d, 1, 2);
    }
  }

  lemma ZeroTask(t: Topic, s: nat, x: Send)
    requires Reachable(t) && s < |t.records| && t.records[s].startPos == 0 && x in t.records[s].delivered && x.pos == 0
    ensures |t.log.events| > 0
    ensures x == Send(s, 0, t.log.events[0], Replay) || x == Send(s, 0, t.log.events[0], Live)
    ensures multiset(t.records[s].delivered)[x] == 1
  {
    DeliveredOf(t, s, x);
  }

  lemma TwiceCounts<T>(s: seq<T>, i: nat, j: nat)
    requires i < j < |s| && multiset(s)[s[i]] == 1
    ensures s[i] != s[j]
  {
    assert s == s[..i] + [s[i]] + s[i + 1..j] + [s[j]] + s[j + 1..];
  }

  /** An unfiltered subscription from the beginning gets position 0 at most twice and then 1, 2, 3
      and so on, without a gap, a duplicate or a reordering, each with the stored event. */
  lemma FromBeginDelivery(t: Topic, s: nat)
    requires Reachable(t) && s < |t.records| && t.records[s].FromBegin()
    ensures exists k :: k <= 2 && ZerosThenCount(t.records[s].delivered, k)
    ensures forall i :: 0 <= i < |t.records[s].delivered| ==>
                          var x := t.records[s].delivered[i]; x.pos < |t.log.events| && x.ee == t.log.events[x.pos]
  {
    var r := t.records[s];
    RecordOf(t, s);
    ThreeZeros(t, s, |r.delivered| - r.lastReaded);
    assert ZerosThenCount(r.delivered, |r.delivered| - r.lastReaded);
    forall i | 0 <= i < |r.delivered| ensures r.delivered[i].pos < |t.log.events| && r.delivered[i].ee == t.log.events[r.delivered[i].pos] {
      DeliveredIsStored(t, s, r.delivered[i]);
    }
  }

  /** The send tasks created for one position of one subscription. */
  ghost function TasksAt(t: Topic, s: nat, p: nat): set<Send> {
    set snd | snd in t.tasks.created && snd.sub == s && snd.pos == p
  }

  /** Every position has at most two send tasks, each carrying the stored event; and once the
      replay, fan-out and batch goroutines have drained it has at least one, whatever the timing
      of subscribing, replaying, storing and fanning out. */
  lemma TasksPerPosition(t: Topic, s: nat, p: nat)
    requires Reachable(t) && s < |t.records| && t.records[s].startPos == 0 && p < |t.log.events|
    ensures forall snd :: snd in TasksAt(t, s, p) ==> snd.ee == t.log.events[p] && t.tasks.created[snd] == 1
    ensures |TasksAt(t, s, p)| <= 2
    ensures Member(t, s) && t.tasks.starts == multiset{} && t.tasks.fanouts == multiset{} && t.tasks.batches == multiset{}
            ==> 1 <= |TasksAt(t, s, p)|
  {
    var both := {Send(s, p, t.log.events[p], Replay), Send(s, p, t.log.events[p], Live)};
    forall snd | snd in TasksAt(t, s, p) ensures snd in both && t.tasks.created[snd] == 1 {
      CreatedOf(t, snd);
    }
    SubsetSize(TasksAt(t, s, p), both);
    if Member(t, s) && t.tasks.starts == multiset{} && t.tasks.fanouts == multiset{} && t.tasks.batches == multiset{} {
      CoverOf(t, s, p);
      assert HasTask(t, s, p);
      var snd :| snd in both && snd in t.tasks.created;
      assert snd in TasksAt(t, s, p);
    }
  }

  lemma {:induction false} SubsetSize<T>(a: set<T>, b: set<T>)
    requires a <= b
    ensures |a| <= |b|
  {
    if x :| x in a {
      SubsetSize(a - {x}, b - {x});
    }
  }

  // ---------------------------------------------------------------- filtering subscriptions

  /** The deliveries of one position to one subscription. */
  ghost function DeliveriesAt(t: Topic, s: nat, p: nat): set<Send>
    requires s < |t.records|
  {
    set x | x in t.records[s].delivered && x.pos == p
  }

  /** A task that no longer waits has taken its turn. */
  lemma TaskAcquired(t: Topic, s: nat, x: Send)
    requires Reachable(t) && s < |t.records| && x in t.tasks.created && x.sub == s && x !in t.tasks.sends
    ensures x in t.records[s].acquired
  {
    InvReachable(t);
    assert Accounted(t, x);
    assert x in multiset(t.records[s].acquired);
  }

  /** What the filters accept in its turn is delivered. */
  lemma TurnTaken(t: Topic, s: nat, x: Send)
    requires Reachable(t) && s < |t.records| && t.records[s].filters != [] && !t.topicDone
    requires x in t.tasks.created && x.sub == s && x !in t.tasks.sends && AllAccept(t.records[s].filters, x.ee)
    ensures x in t.records[s].delivered
  {
    RecordOf(t, s);
    TaskAcquired(t, s, x);
  }

  lemma DeliveredIsTask(t: Topic, s: nat, p: nat)
    requires Reachable(t) && s < |t.records|
    ensures DeliveriesAt(t, s, p) <= TasksAt(t, s, p)
  {
    InvReachable(t);
    forall x | x in DeliveriesAt(t, s, p) ensures x in TasksAt(t, s, p) {
      AcquiredOnce(t, s, x);
    }
  }

  /** Filtering senders need no order: while the topic is not cancelled, once its goroutines have
      drained, a filtering subscription from the beginning that is still on its list has been
      delivered exactly the stored events that all its filters accept, each at least once and at
      most twice. */
  lemma FilteredComplete(t: Topic, s: nat, p: nat)
    requires Reachable(t) && Member(t, s) && t.records[s].startPos == 0 && t.records[s].filters != [] && !t.topicDone
    requires t.tasks.starts == multiset{} && t.tasks.fanouts == multiset{} && t.tasks.batches == multiset{}
    requires p < |t.log.events| && forall snd :: snd in t.tasks.sends ==> snd.sub != s
    ensures AllAccept(t.records[s].filters, t.log.events[p]) <==> DeliveriesAt(t, s, p) != {}
    ensures |DeliveriesAt(t, s, p)| <= 2
    ensures forall x :: x in DeliveriesAt(t, s, p) ==> x.ee == t.log.events[p] && multiset(t.records[s].delivered)[x] == 1
  {
    TasksPerPosition(t, s, p);
    DeliveredIsTask(t, s, p);
    SubsetSize(DeliveriesAt(t, s, p), TasksAt(t, s, p));
    forall x | x in DeliveriesAt(t, s, p)
      ensures x.ee == t.log.events[p] && multiset(t.records[s].delivered)[x] == 1 && AllAccept(t.records[s].filters, x.ee) {
      FilteredDeliveries(t, s, x);
    }
    hide Reachable, AllAccept, Member;
    if AllAccept(t.records[s].filters, t.log.events[p]) {
      assert TasksAt(t, s, p) != {};
      var x :| x in TasksAt(t, s, p);
      TurnTaken(t, s, x);
      assert x in DeliveriesAt(t, s, p);
    }
  }

  // ---------------------------------------------------------------- completeness

  /** The goroutines that create or carry send tasks of `s` are done, and nobody is inside its lock. */
  ghost predicate Drained(t: Topic, s: nat) {
    && s < |t.records| && t.records[s].holder.None?
    && t.tasks.starts == multiset{} && t.tasks.fanouts == multiset{} && t.tasks.batches == multiset{}
    && forall snd :: snd in t.tasks.sends ==> snd.sub != s
  }

  /** Of an unfiltered subscription with nothing pending every created task has been delivered. */
  lemma TaskDelivered(t: Topic, s: nat, x: Send)
    requires Reachable(t) && Drained(t, s) && !t.topicDone && t.records[s].filters == []
    requires x in t.tasks.created && x.sub == s
    ensures x in t.records[s].delivered
  {
    RecordOf(t, s);
    TaskAcquired(t, s, x);
  }

  lemma PositionDelivered(t: Topic, s: nat, p: nat)
    requires Reachable(t) && Drained(t, s) && !t.topicDone && Member(t, s) && t.records[s].FromBegin() && p < |t.log.events|
    ensures exists x :: x in t.records[s].delivered && x.pos == p
  {
    TasksPerPosition(t, s, p);
    assert TasksAt(t, s, p) != {};
    var x :| x in TasksAt(t, s, p);
    hide Reachable;
    TaskDelivered(t, s, x);
  }

  /** Counting deliveries that stay below `n` and contain `0` and `n - 1`. */
  lemma CountTo(d: seq<Send>, k: int, n: nat)
    requires ZerosThenCount(d, k) && n > 0 && forall i :: 0 <= i < |d| ==> d[i].pos < n
    requires (exists x :: x in d && x.pos == 0) && exists x :: x in d && x.pos == n - 1
    ensures k >= 1 && |d| == n + k - 1
  {
    var x :| x in d && x.pos == 0;
    var i :| 0 <= i < |d| && d[i] == x;
    var y :| y in d && y.pos == n - 1;
    var j :| 0 <= j < |d| && d[j] == y;
    assert d[|d| - 1].pos < n;
  }

  /** While the topic is not cancelled, once its goroutines have drained, an unfiltered subscription
      from the beginning that is still on its list has been delivered the whole log: position 0 once
      or twice, then every later position once, up to the last. */
  lemma FromBeginComplete(t: Topic, s: nat)
    requires Reachable(t) && Drained(t, s) && !t.topicDone && Member(t, s) && t.records[s].FromBegin() && t.log.events != []
    ensures exists k :: 1 <= k <= 2 && ZerosThenCount(t.records[s].delivered, k) && |t.records[s].delivered| == |t.log.events| + k - 1
  {
    FromBeginDelivery(t, s);
    PositionDelivered(t, s, 0);
    PositionDelivered(t, s, |t.log.events| - 1);
    hide Reachable, Drained, Member;
    var k :| k <= 2 && ZerosThenCount(t.records[s].delivered, k);
    CountTo(t.records[s].delivered, k, |t.log.events|);
  }

  // ---------------------------------------------------------------- who gets through the wait loop

  /** While the topic is not cancelled, the sender inside the lock of a from-the-beginning
      subscription passes the guard exactly when the senders so far took the lock in an order that
      starts with position 0 repeated and then counts 1, 2, 3 and so on. */
  lemma HolderProceeds(t: Topic, s: nat)
    requires Reachable(t) && s < |t.records| && t.records[s].FromBegin() && !t.topicDone && t.records[s].holder.Some?
    ensures t.records[s].Guard(t.records[s].holder.value.pos) <==> exists k :: ZerosThenCount(t.records[s].acquired, k)
  {
    var r := t.records[s];
    var n := |r.delivered|;
    RecordOf(t, s);
    assert r.acquired == r.delivered + [r.holder.value];
    var k := n - r.lastReaded;
    if r.lastReaded + 1 == r.holder.value.pos {
      assert ZerosThenCount(r.acquired, k);
    } else if r.lastReaded == 0 && r.holder.value.pos == 0 {
      assert ZerosThenCount(r.acquired, k + 1);
    }
    if exists k' :: ZerosThenCount(r.acquired, k') {
      var k' :| ZerosThenCount(r.acquired, k');
      assert r.acquired[n].pos == r.holder.value.pos;
      if n > 0 {
        assert r.acquired[n - 1].pos == r.delivered[n - 1].pos;
      }
    }
  }

  lemma InOrderAcquired(t: Topic, s: nat)
    requires Reachable(t) && s < |t.records| && t.records[s].startPos == 0
    requires forall i :: 0 <= i < |t.records[s].acquired| ==> t.records[s].acquired[i].pos == i
    ensures |t.records[s].acquired| <= |t.log.events|
    ensures forall i :: 0 <= i < |t.records[s].acquired| ==> t.records[s].acquired[i].ee == t.log.events[i]
  {
    var acquired := t.records[s].acquired;
    forall i | 0 <= i < |acquired| ensures i < |t.log.events| && acquired[i].ee == t.log.events[i] {
      AcquiredOf(t, s, acquired[i]);
    }
    if acquired != [] {
      AcquiredOf(t, s, acquired[|acquired| - 1]);
    }
  }

  lemma InOrderPasses(t: Topic, s: nat)
    requires Reachable(t) && s < |t.records| && t.records[s].FromBegin() && !t.topicDone && t.records[s].holder.Some?
    requires forall i :: 0 <= i < |t.records[s].acquired| ==> t.records[s].acquired[i].pos == i
    ensures t.records[s].Guard(t.records[s].holder.value.pos)
  {
    RecordOf(t, s);
    assert ZerosThenCount(t.records[s].acquired, 1);
    HolderProceeds(t, s);
  }

  lemma TurnsTaken(t: Topic, s: nat)
    requires Reachable(t) && s < |t.records| && t.records[s].filters == [] && !t.topicDone
    ensures var r := t.records[s]; r.acquired == r.delivered + r.Held() && |r.Held()| == if r.holder.Some? then 1 else 0
    ensures forall i :: 0 <= i < |t.records[s].delivered| ==> t.records[s].delivered[i] == t.records[s].acquired[i]
  {
    RecordOf(t, s);
  }

  lemma UnfilteredFromBegin(r: Subscription)
    ensures r.FromBegin() <==> r.startPos == 0 && r.filters == []
  {
  }

  lemma InOrderComplete(t: Topic, s: nat)
    requires Reachable(t) && Drained(t, s) && !t.topicDone && Member(t, s) && t.records[s].FromBegin()
    requires |t.records[s].delivered| <= |t.log.events| && forall i :: 0 <= i < |t.records[s].delivered| ==> t.records[s].delivered[i].pos == i
    ensures |t.records[s].delivered| == |t.log.events|
  {
    var d := t.records[s].delivered;
    if t.log.events != [] {
      FromBeginComplete(t, s);
      assert |d| >= 2 ==> d[1].pos == 1;
    }
  }

  /** Senders that take the lock in position order, one per position, never wait in the loop, and
      the subscription receives exactly the stored events in order. */
  lemma InOrderDelivery(t: Topic, s: nat)
    requires Reachable(t) && s < |t.records| && t.records[s].FromBegin() && !t.topicDone
    requires forall i :: 0 <= i < |t.records[s].acquired| ==> t.records[s].acquired[i].pos == i
    ensures var r := t.records[s];
            && (r.holder.Some? ==> r.Guard(r.holder.value.pos))
            && |r.acquired| <= |t.log.events|
            && |r.delivered| == |r.acquired| - |r.Held()|
            && forall i :: 0 <= i < |r.delivered| ==> r.delivered[i].pos == i && r.delivered[i].ee == t.log.events[i]
    ensures Drained(t, s) && Member(t, s) ==> |t.records[s].delivered| == |t.log.events|
  {
    hide *;
    var r := t.records[s];
    UnfilteredFromBegin(r);
    TurnsTaken(t, s);
    InOrderAcquired(t, s);
    if r.holder.Some? {
      InOrderPasses(t, s);
    }
    if Drained(t, s) && Member(t, s) {
      InOrderComplete(t, s);
    }
  }

  /** A sender that fails the guard keeps the lock: until the topic is cancelled nothing about the
      subscription changes any more, in any continuation. */
  lemma {:induction false} BlockedForGood(states: seq<Topic>, acts: seq<Action>, s: nat, i: nat)
    requires Path(states, acts) && i <= |acts| && s < |states[0].records|
    requires states[0].records[s].holder.Some? && states[0].records[s].filters == []
    requires !states[0].records[s].Guard(states[0].records[s].holder.value.pos)
    requires !states[i].topicDone
    ensures s < |states[i].records| && states[i].records[s] == states[0].records[s]
  {
    if i > 0 {
      assert Step(states[i - 1], acts[i - 1], states[i - 1 + 1]);
      hide Apply, Enabled;
      DoneStays(states[i - 1], acts[i - 1]);
      BlockedForGood(states, acts, s, i - 1);
      BlockedStep(states[i - 1], acts[i - 1], s);
    }
  }

  lemma ReachableStep(t: Topic, a: Action)
    requires Reachable(t) && Enabled(t, a)
    ensures Reachable(Apply(t, a))
  {
    var states: seq<Topic>, acts: seq<Action> :| Run(states, acts) && states[|acts|] == t;
    var states', acts' := states + [Apply(t, a)], acts + [a];
    hide Apply, Enabled, Init;
    forall i | 0 <= i < |acts'| ensures Step(states'[i], acts'[i], states'[i + 1]) {
      if i < |acts| {
        assert Step(states[i], acts[i], states[i + 1]);
      } else {
        StepIs(t, a);
      }
    }
    assert Run(states', acts');
    assert states'[|acts'|] == Apply(t, a);
  }

  lemma StepIs(t: Topic, a: Action)
    requires Enabled(t, a)
    ensures Step(t, a, Apply(t, a))
  {
  }

  lemma InitReachable()
    ensures Reachable(Init())
  {
    var acts: seq<Action> := [];
    assert Run([Init()], acts);
    assert [Init()][|acts|] == Init();
  }

  /** Storing one more event from a topic with nothing in flight. */
  lemma StoreOne(t: Topic, evt: Event) returns (t': Topic)
    requires Reachable(t) && t.runned && t.log.inflight == multiset{}
    ensures Reachable(t') && t'.runned && t'.log.inflight == multiset{}
    ensures t'.log.events == t.log.events + [EventEnvelope(Some(evt), "/main", Id(1), |t.log.events|)]
    ensures t'.records == t.records && t'.topicDone == t.topicDone
  {
    var add := AddEvent("/main", Some(evt), Id(1));
    var ee := EventEnvelope(Some(evt), "/main", Id(1), 0);
    ReachableStep(t, add);
    var t1 := Apply(t, add);
    assert t1 == ApplyAddEvent(t, "/main", Some(evt), Id(1));
    ReachableStep(t1, Register(ee));
    t' := Apply(t1, Register(ee));
  }

  /** Delivery is not unconditional: three stored events and a replay whose third sender takes the
      lock first leave the subscription blocked. */
  lemma BlockedIsReachable() returns (t: Topic)
    ensures Reachable(t) && !t.topicDone && |t.records| == 1 && t.records[0].FromBegin()
    ensures t.records[0].holder.Some? && !t.records[0].Guard(t.records[0].holder.value.pos)
  {
    InitReachable();
    var e := Event("E", "");
    t := StoreOne(Init(), e);
    t := StoreOne(t, e);
    t := StoreOne(t, e);
    t := SubscribeAndReplay(t);
    var snd := Send(0, 2, t.log.events[2], Replay);
    ReachableStep(t, Acquire(snd));
    t := Apply(t, Acquire(snd));
  }

  lemma SubscribeAndReplay(t: Topic) returns (t': Topic)
    requires Reachable(t) && t.runned && t.records == [] && !t.topicDone
    ensures Reachable(t') && !t'.topicDone && t'.log == t.log
    ensures t'.records == [Subscription(Id(2), 0, [], 0, None, [], [])]
    ensures forall p :: 0 <= p < |t.log.events| ==> Send(0, p, t.log.events[p], Replay) in t'.tasks.sends
  {
    var sub := Subscribe(Id(2), 0, []);
    ReachableStep(t, sub);
    var t1 := Apply(t, sub);
    assert t1 == ApplySubscribe(t, Id(2), 0, []);
    ReachableStep(t1, StartSub(0));
    t' := Apply(t1, StartSub(0));
    forall p | 0 <= p < |t.log.events| ensures Send(0, p, t.log.events[p], Replay) in t'.tasks.sends {
      ReplaySendsOnce(t1, 0, 0, Send(0, p, t.log.events[p], Replay));
    }
  }

  lemma DoneStays(t: Topic, a: Action)
    requires Enabled(t, a)
    ensures t.topicDone ==> Apply(t, a).topicDone
  {
  }

  lemma BlockedStep(t: Topic, a: Action, s: nat)
    requires Enabled(t, a) && s < |t.records| && !t.topicDone
    requires t.records[s].holder.Some? && t.records[s].filters == [] && !t.records[s].Guard(t.records[s].holder.value.pos)
    ensures s < |Apply(t, a).records| && Apply(t, a).records[s] == t.records[s]
  {
    if TouchesRecord(a) {
      RecordStep(t, a);
      assert Touched(a) != s;
    }
  }

  // ---------------------------------------------------------------- subscriptions to new events only

  /** The cursor of an unfiltered only-new subscription stays inside the log, and its deliveries
      have strictly increasing positions not past the cursor. */
  lemma OnlyNewDelivery(t: Topic, s: nat)
    requires Reachable(t) && s < |t.records| && t.records[s].OnlyNew()
    ensures t.records[s].startPos <= t.records[s].lastReaded < |t.log.events|
    ensures Increasing(t.records[s].delivered)
    ensures forall x :: x in t.records[s].delivered ==>
                          0 <= x.pos <= t.records[s].lastReaded && x.ee == t.log.events[x.pos]
  {
    RecordOf(t, s);
    forall x | x in t.records[s].delivered ensures 0 <= x.pos && x.ee == t.log.events[x.pos] {
      DeliveredIsStored(t, s, x);
    }
  }

  /** No step moves that cursor back, not even the reset that races with the senders. */
  lemma OnlyNewCursorAdvances(t: Topic, a: Action, s: nat)
    requires Reachable(t) && Enabled(t, a) && s < |t.records| && t.records[s].OnlyNew()
    ensures s < |Apply(t, a).records| && t.records[s].lastReaded <= Apply(t, a).records[s].lastReaded
  {
    OnlyNewDelivery(t, s);
    CursorStep(t, a, s);
  }

  lemma CursorStep(t: Topic, a: Action, s: nat)
    requires Enabled(t, a) && s < |t.records| && t.records[s].filters == [] && t.records[s].startPos < 0
    requires t.records[s].lastReaded < |t.log.events|
    ensures s < |Apply(t, a).records| && t.records[s].lastReaded <= Apply(t, a).records[s].lastReaded
  {
    if TouchesRecord(a) {
      RecordStep(t, a);
    }
  }
}
