/** When exactly a subscription gets an event twice, not at all, or from before it was made. */
module DeliveryConditions {
  import opened Wrappers
  import opened Events
  import opened TopicLog
  import opened TopicLogInvariants
  import opened SubscriptionInvariants
  import opened TopicDelivery
  import opened Continuations

  /** Position `p` has been delivered to `s`. */
  ghost predicate Got(t: Topic, s: nat, p: nat) {
    s < |t.records| && exists x :: x in t.records[s].delivered && x.pos == p
  }

  lemma ContinuesReachable(t: Topic, t': Topic)
    requires Reachable(t) && Continues(t, t')
    ensures Reachable(t')
  {
    var states: seq<Topic>, acts: seq<Action> :| Path(states, acts) && states[0] == t && states[|acts|] == t';
    ReachableAlong(states, acts, |acts|);
  }

  lemma SubscribedReachable(t: Topic, t': Topic, u: Uuid, startPos: int, filters: seq<Filter>)
    requires Reachable(t) && t.runned && Continues(ApplySubscribe(t, u, startPos, filters), t')
    ensures Reachable(t') && |t.records| < |t'.records|
    ensures SameRequest(Subscription(u, startPos, filters, startPos, None, [], []), t'.records[|t.records|])
  {
    SubscribeMakes(t, u, startPos, filters);
    ReachableStep(t, Subscribe(u, startPos, filters));
    RecordLasts(ApplySubscribe(t, u, startPos, filters), t', |t.records|);
    ContinuesReachable(ApplySubscribe(t, u, startPos, filters), t');
  }

  // ---------------------------------------------------------------- position 0 twice

  ghost predicate ZeroTwice(d: seq<Send>) {
    |d| >= 2 && d[0].pos == 0 && d[1].pos == 0
  }

  /** Without a live task position 0 is not delivered twice. */
  lemma ZeroOnlyOnce(t: Topic, s: nat)
    requires Reachable(t) && NoLive(t, s, 0) && s < |t.records| && t.records[s].startPos == 0
    ensures !ZeroTwice(t.records[s].delivered)
  {
    var d := t.records[s].delivered;
    OneTask(t, s, 0);
    if ZeroTwice(d) {
      ZeroTask(t, s, d[0]);
      ZeroTask(t, s, d[1]);
      DeliveredIsTask(t, s, 0);
      assert d[0] in DeliveriesAt(t, s, 0) && d[1] in DeliveriesAt(t, s, 0);
      hide Reachable, TasksAt, NoLive;
      TwiceCounts(d, 0, 1);
    }
  }

  /** The replayed and the live sender of position 0 take their turns one after the other. */
  lemma BothZeros(t0: Topic, u: Uuid, s: nat) returns (t': Topic)
    requires Continues(t0, t0) && JustMade(t0, u, s, 0, []) && !FannedOut(t0, 0)
    ensures Continues(t0, t') && s < |t'.records| && |t'.log.events| > 0
    ensures t'.records[s].delivered == [Send(s, 0, t'.log.events[0], Replay), Send(s, 0, t'.log.events[0], Live)]
  {
    hide Continues;
    var t1 := BothTasks(t0, t0, u, s, [], 0);
    var first, second := Send(s, 0, t1.log.events[0], Replay), Send(s, 0, t1.log.events[0], Live);
    var t2 := TakesTurn(t0, t1, first);
    assert second in t2.tasks.sends;
    t' := TakesTurn(t0, t2, second);
    assert t'.records[s].delivered == [first, second];
  }

  /** Some continuation of a new unfiltered subscription from the beginning delivers position 0 twice,
      if and only if event 0 is not stored by then or its fan-out has not run. */
  lemma ZeroTwiceCondition(t: Topic, u: Uuid)
    requires Reachable(t) && t.runned
    ensures (exists t' :: Continues(ApplySubscribe(t, u, 0, []), t') && |t.records| < |t'.records| && ZeroTwice(t'.records[|t.records|].delivered))
            <==> !FannedOut(t, 0)
  {
    var t0, s := ApplySubscribe(t, u, 0, []), |t.records|;
    SubscribeMakes(t, u, 0, []);
    if FannedOut(t, 0) {
      forall t' | Continues(t0, t') ensures s < |t'.records| && !ZeroTwice(t'.records[s].delivered) {
        NoLiveLasts(t, t', u, 0, [], 0);
        SubscribedReachable(t, t', u, 0, []);
        ZeroOnlyOnce(t', s);
      }
    } else {
      assert !FannedOut(t0, 0);
      hide Continues;
      var t' := BothZeros(t0, u, s);
    }
  }

  /** It happens: a run from the start in which a subscription gets the first event twice. */
  lemma ZeroTwiceIsReachable() returns (t: Topic)
    ensures Reachable(t) && |t.records| > 0 && |t.log.events| > 0
    ensures t.records[0].delivered == [Send(0, 0, t.log.events[0], Replay), Send(0, 0, t.log.events[0], Live)]
  {
    var u := Id(1);
    InitReachable();
    SubscribeMakes(Init(), u, 0, []);
    var t0 := ApplySubscribe(Init(), u, 0, []);
    t := BothZeros(t0, u, 0);
    SubscribedReachable(Init(), t, u, 0, []);
  }

  // ---------------------------------------------------------------- position 0 never

  /** In every running topic a new subscription from the beginning may get position 1 first. */
  lemma ZeroMayBeSkipped(t: Topic, u: Uuid) returns (t': Topic)
    requires t.runned
    ensures Continues(ApplySubscribe(t, u, 0, []), t') && |t.records| < |t'.records|
    ensures |t'.log.events| > 1 && t'.records[|t.records|].delivered == [Send(|t.records|, 1, t'.log.events[1], Replay)]
  {
    var t0, s := ApplySubscribe(t, u, 0, []), |t.records|;
    SubscribeMakes(t, u, 0, []);
    hide Continues;
    t' := t0;
    if |t.log.events| <= 1 {
      t' := GrowTo(t0, t0, u, s, 0, [], 1);
    }
    var t2 := ReplayRuns(t0, t', s);
    t' := TakesTurn(t0, t2, Send(s, 1, t2.log.events[1], Replay));
  }

  /** Once position 1 has come first, position 0 is not delivered in any continuation. */
  lemma SkippedForGood(t: Topic, t': Topic, s: nat, x: Send)
    requires Reachable(t) && Continues(t, t') && s < |t.records| && t.records[s].FromBegin()
    requires t.records[s].delivered != [] && t.records[s].delivered[0].pos != 0
    ensures s < |t'.records| && (x in t'.records[s].delivered ==> x.pos > 0)
  {
    ContinuesReachable(t, t');
    RecordLasts(t, t', s);
    FromBeginDelivery(t', s);
    var d := t'.records[s].delivered;
    var k :| k <= 2 && ZerosThenCount(d, k);
    assert d[0] == t.records[s].delivered[0];
  }

  /** While the topic is not cancelled, the order in which senders took the lock decides how often
      position 0 has been delivered: among deliveries it is left out exactly when position 1 came
      first, and it comes twice exactly when the two senders of position 0 came first. */
  lemma ZerosByLockOrder(t: Topic, s: nat)
    requires Reachable(t) && s < |t.records| && t.records[s].FromBegin() && !t.topicDone
    ensures t.records[s].delivered <= t.records[s].acquired
    ensures exists k :: k <= 2 && ZerosThenCount(t.records[s].delivered, k)
                        && (t.records[s].delivered != [] ==> (k == 0 <==> t.records[s].acquired[0].pos == 1))
                        && (k == 2 <==> ZeroTwice(t.records[s].delivered))
                        && (k == 2 <==> |t.records[s].delivered| >= 2 && t.records[s].acquired[0].pos == 0 && t.records[s].acquired[1].pos == 0)
  {
    TurnsTaken(t, s);
    FromBeginDelivery(t, s);
    hide Reachable;
    var d := t.records[s].delivered;
    var k :| k <= 2 && ZerosThenCount(d, k);
    assert d != [] ==> d[0].pos == t.records[s].acquired[0].pos;
    assert |d| >= 2 ==> d[1] == t.records[s].acquired[1];
  }

  // ---------------------------------------------------------------- what the first sender decides

  /** The first sender to take the lock delivers first or never; later ones cannot overtake it. */
  lemma FirstDecides(t: Topic, t': Topic, s: nat)
    requires Reachable(t) && s < |t.records| && t.records[s].FromBegin() && t.records[s].acquired != []
    requires Continues(t, t') && !t'.topicDone
    ensures s < |t'.records|
    ensures t'.records[s].delivered != [] ==> t'.records[s].delivered[0] == t.records[s].acquired[0] && t.records[s].acquired[0].pos <= 1
    ensures Got(t', s, 0) ==> t'.records[s].delivered != [] && t.records[s].acquired[0].pos == 0
  {
    ContinuesReachable(t, t');
    RecordLasts(t, t', s);
    TurnsTaken(t', s);
    FromBeginDelivery(t', s);
    hide Reachable, Continues;
    var d := t'.records[s].delivered;
    var k :| k <= 2 && ZerosThenCount(d, k);
    if d != [] {
      assert t'.records[s].acquired[0] == t.records[s].acquired[0];
    }
    if Got(t', s, 0) {
      var x :| x in d && x.pos == 0;
      var i :| 0 <= i < |d| && d[i] == x;
    }
  }

  /** A first sender of position 0 or 1 has delivered or can do so at once. */
  lemma FirstDelivers(t: Topic, s: nat) returns (t': Topic)
    requires Reachable(t) && s < |t.records| && t.records[s].FromBegin() && !t.topicDone
    requires t.records[s].acquired != [] && t.records[s].acquired[0].pos <= 1
    ensures Continues(t, t') && !t'.topicDone && s < |t'.records|
    ensures t'.records[s].delivered != [] && t'.records[s].delivered[0] == t.records[s].acquired[0]
  {
    var r := t.records[s];
    RecordOf(t, s);
    TurnsTaken(t, s);
    AcquiredOf(t, s, r.acquired[0]);
    ContinuesItself(t);
    t' := t;
    hide Reachable, Continues;
    if r.delivered == [] {
      assert r.holder == Some(r.acquired[0]) && ZerosThenCount(r.delivered, -r.lastReaded);
      Next(t, t, Deliver(s));
      t' := ApplyDeliver(t, s);
    }
  }

  /** Once some sender has taken the lock, position 0 has been or can still be delivered before the
      topic is cancelled if and only if the first sender had position 0. */
  lemma ZeroCondition(t: Topic, s: nat)
    requires Reachable(t) && s < |t.records| && t.records[s].FromBegin() && !t.topicDone && t.records[s].acquired != []
    ensures (exists t' :: Continues(t, t') && !t'.topicDone && Got(t', s, 0)) <==> t.records[s].acquired[0].pos == 0
  {
    hide Reachable, Continues, Got;
    if t.records[s].acquired[0].pos == 0 {
      var t' := FirstDelivers(t, s);
      GotFirst(t', s);
    }
    forall t' | Continues(t, t') && !t'.topicDone && Got(t', s, 0) ensures t.records[s].acquired[0].pos == 0 {
      FirstDecides(t, t', s);
    }
  }

  lemma GotFirst(t: Topic, s: nat)
    requires s < |t.records| && t.records[s].delivered != [] && t.records[s].delivered[0].pos >= 0
    ensures Got(t, s, t.records[s].delivered[0].pos)
  {
    assert t.records[s].delivered[0] in t.records[s].delivered;
  }

  /** Nothing at all is delivered before the topic is cancelled, in any continuation, if and only if the
      first sender had a position after 1. */
  lemma BlockedCondition(t: Topic, s: nat)
    requires Reachable(t) && s < |t.records| && t.records[s].FromBegin() && !t.topicDone && t.records[s].acquired != []
    ensures (forall t' :: Continues(t, t') && !t'.topicDone ==> s < |t'.records| && t'.records[s].delivered == [])
            <==> t.records[s].acquired[0].pos > 1
  {
    hide Reachable, Continues;
    if t.records[s].acquired[0].pos <= 1 {
      var t' := FirstDelivers(t, s);
    } else {
      forall t' | Continues(t, t') && !t'.topicDone ensures s < |t'.records| && t'.records[s].delivered == [] {
        FirstDecides(t, t', s);
      }
    }
  }

  // ---------------------------------------------------------------- the second task of a later position

  lemma SecondFails(t: Topic, s: nat, x: Send, y: Send)
    requires Reachable(t) && s < |t.records| && t.records[s].FromBegin() && t.records[s].holder == Some(y)
    requires x in t.records[s].delivered && x.pos == y.pos > 0
    ensures !t.records[s].Guard(y.pos)
  {
    RecordOf(t, s);
    var d := t.records[s].delivered;
    var i :| 0 <= i < |d| && d[i] == x;
    assert ZerosThenCount(d, |d| - t.records[s].lastReaded);
  }

  /** Of two tasks of one position after the first, one is delivered at most: when the other takes the
      lock after that, the subscription is blocked until the topic is cancelled. */
  lemma SecondTaskBlocks(states: seq<Topic>, acts: seq<Action>, s: nat, x: Send, y: Send, i: nat)
    requires Path(states, acts) && Reachable(states[0]) && i <= |acts| && s < |states[0].records| && states[0].records[s].FromBegin()
    requires states[0].records[s].holder == Some(y) && x in states[0].records[s].delivered && x.pos == y.pos > 0
    requires !states[i].topicDone
    ensures s < |states[i].records| && states[i].records[s] == states[0].records[s]
  {
    SecondFails(states[0], s, x, y);
    BlockedForGood(states, acts, s, i);
  }

  /** It happens: a run from the start in which the second task of position 1 holds the lock. */
  lemma SecondTaskIsReachable() returns (t: Topic, x: Send, y: Send)
    ensures Reachable(t) && !t.topicDone && |t.records| > 0 && t.records[0].FromBegin()
    ensures t.records[0].holder == Some(y) && x in t.records[0].delivered && x != y && x.pos == y.pos == 1
  {
    var u := Id(1);
    InitReachable();
    SubscribeMakes(Init(), u, 0, []);
    hide Reachable, Continues;
    var t0 := ApplySubscribe(Init(), u, 0, []);
    var t1 := BothTasks(t0, t0, u, 0, [], 1);
    x, y := Send(0, 1, t1.log.events[1], Replay), Send(0, 1, t1.log.events[1], Live);
    var t2 := TakesTurn(t0, t1, x);
    assert y in t2.tasks.sends;
    Next(t0, t2, Acquire(y));
    t := Apply(t2, Acquire(y));
    SubscribedReachable(Init(), t, u, 0, []);
  }

  // ---------------------------------------------------------------- new events only

  /** Positions follow each other without a gap, but for one jump at `j`. */
  ghost predicate OneJump(d: seq<Send>, j: nat) {
    j <= |d| && forall i :: 0 < i < |d| && i != j ==> d[i].pos == d[i - 1].pos + 1
  }

  /** Before the cursor is reset the deliveries count up from the start position. */
  ghost predicate Counting(r: Subscription) {
    && r.lastReaded == r.startPos + |r.delivered|
    && forall i :: 0 <= i < |r.delivered| ==> r.delivered[i].pos == r.startPos + 1 + i
  }

  ghost predicate Jumped(r: Subscription, j: nat) {
    OneJump(r.delivered, j) && (j < |r.delivered| ==> r.lastReaded == r.delivered[|r.delivered| - 1].pos)
  }

  ghost predicate JumpOk(r: Subscription, pending: bool) {
    r.OnlyNew() ==> if pending then Counting(r) else exists j :: Jumped(r, j)
  }

  ghost predicate JumpInv(t: Topic) {
    forall s :: 0 <= s < |t.records| ==> JumpOk(t.records[s], s in t.tasks.starts)
  }

  lemma CountingJumps(r: Subscription)
    requires Counting(r)
    ensures Jumped(r, |r.delivered|)
  {
  }

  lemma SomeOutside(r: Subscription)
    ensures r.lastReaded == 0 ==> r.delivered == [] || exists x :: x in r.delivered && !(0 < x.pos <= r.lastReaded)
  {
    if r.delivered != [] {
      assert r.delivered[0] in r.delivered;
    }
  }

  /** A delivery is one step past the cursor, or the very first of all at position 0. */
  lemma JumpDeliver(r: Subscription, snd: Send, pending: bool)
    requires JumpOk(r, pending) && r.Guard(snd.pos) && snd.pos >= 0
    requires r.OnlyNew() && snd.pos == 0 ==> forall x :: x in r.delivered ==> 0 < x.pos
    requires r.OnlyNew() ==> forall x :: x in r.delivered ==> x.pos <= r.lastReaded
    ensures JumpOk(r.(delivered := r.delivered + [snd], lastReaded := snd.pos, holder := None), pending)
  {
    var r' := r.(delivered := r.delivered + [snd], lastReaded := snd.pos, holder := None);
    if r.OnlyNew() {
      if r.lastReaded == 0 && snd.pos == 0 {
        SomeOutside(r);
      }
      if !pending {
        var j :| Jumped(r, j);
        assert Jumped(r', j);
      }
    }
  }

  lemma JumpReset(r: Subscription, n: nat)
    requires JumpOk(r, true)
    ensures JumpOk(r.(lastReaded := n - 1), false)
  {
    if r.OnlyNew() {
      CountingJumps(r);
      assert Jumped(r.(lastReaded := n - 1), |r.delivered|);
    }
  }

  /** What a delivery to an only-new subscription finds. */
  lemma HolderFresh(t: Topic, s: nat)
    requires Reachable(t) && Enabled(t, Deliver(s)) && t.records[s].OnlyNew()
    ensures var r, snd := t.records[s], t.records[s].holder.value;
            && snd.pos >= 0
            && (snd.pos == 0 ==> forall x :: x in r.delivered ==> 0 < x.pos)
            && (forall x :: x in r.delivered ==> x.pos <= r.lastReaded)
  {
    InvReachable(t);
    RecordOf(t, s);
    HeldIsCreated(t, s);
    if t.records[s].holder.value.pos == 0 {
      ZeroOnce(t, s);
    }
  }

  lemma JumpDelivered(t: Topic, id: nat)
    requires Reachable(t) && JumpInv(t) && Enabled(t, Deliver(id))
    ensures JumpInv(ApplyDeliver(t, id))
  {
    var r := t.records[id];
    if r.OnlyNew() {
      HolderFresh(t, id);
      assert JumpOk(r, id in t.tasks.starts);
      hide Reachable, JumpOk;
      JumpDeliver(r, r.holder.value, id in t.tasks.starts);
    }
  }

  lemma JumpStart(t: Topic, id: nat)
    requires TaskInv(t) && JumpInv(t) && Enabled(t, StartSub(id))
    ensures JumpInv(ApplyStartSub(t, id))
  {
    assert id !in t.tasks.starts - multiset{id};
    hide TaskInv;
    if t.records[id].startPos < 0 {
      assert JumpOk(t.records[id], true);
      hide JumpOk;
      JumpReset(t.records[id], |t.log.events|);
    } else {
      hide Jumped, Counting;
    }
  }

  lemma JumpSubscribe(t: Topic, u: Uuid, startPos: int, filters: seq<Filter>)
    requires TaskInv(t) && JumpInv(t)
    ensures JumpInv(ApplySubscribe(t, u, startPos, filters))
  {
    assert |t.records| !in t.tasks.starts;
    hide TaskInv, Jumped;
  }

  /** The steps that neither deliver nor reset. */
  lemma JumpSame(t: Topic, t': Topic)
    requires JumpInv(t) && |t'.records| == |t.records| && t'.tasks.starts == t.tasks.starts
    requires forall s :: 0 <= s < |t.records| ==> SameRequest(t.records[s], t'.records[s])
    requires forall s :: 0 <= s < |t.records| && t.records[s].filters == [] ==>
                           t'.records[s].delivered == t.records[s].delivered && t'.records[s].lastReaded == t.records[s].lastReaded
    ensures JumpInv(t')
  {
    forall s | 0 <= s < |t.records| ensures JumpOk(t'.records[s], s in t'.tasks.starts) {
      JumpOkSame(t.records[s], t'.records[s], s in t.tasks.starts);
    }
  }

  lemma JumpOkSame(r: Subscription, r': Subscription, pending: bool)
    requires JumpOk(r, pending) && SameRequest(r, r')
    requires r.filters == [] ==> r'.delivered == r.delivered && r'.lastReaded == r.lastReaded
    ensures JumpOk(r', pending)
  {
    if r.OnlyNew() && !pending {
      var j :| Jumped(r, j);
      assert Jumped(r', j);
    }
  }

  /** Only a delivery, a start or a new subscription touches an unfiltered subscription's history. */
  lemma HistoryStays(t: Topic, a: Action)
    requires Enabled(t, a) && !a.Deliver? && !a.StartSub? && !a.Subscribe?
    ensures var t' := Apply(t, a);
            && |t'.records| == |t.records| && t'.tasks.starts == t.tasks.starts
            && (forall s :: 0 <= s < |t.records| ==> SameRequest(t.records[s], t'.records[s]))
            && forall s :: 0 <= s < |t.records| && t.records[s].filters == [] ==>
                             t'.records[s].delivered == t.records[s].delivered && t'.records[s].lastReaded == t.records[s].lastReaded
  {
    hide Apply, Enabled;
    if TouchesRecord(a) {
      RecordStep(t, a);
      TouchKeeps(t, a);
    } else if Spawns(a) {
      SpawnKeeps(t, a);
    } else {
      OtherStep(t, a);
    }
  }

  lemma SpawnKeeps(t: Topic, a: Action)
    requires Enabled(t, a) && (a.Register? || a.UpdateSubs? || a.SpawnSends?)
    ensures Apply(t, a).records == t.records && Apply(t, a).tasks.starts == t.tasks.starts
  {
  }

  lemma TouchKeeps(t: Topic, a: Action)
    requires Enabled(t, a) && TouchesRecord(a) && !a.Deliver?
    ensures Touched(a) < |t.records| && Touched(a) < |Apply(t, a).records|
    ensures var r, r' := t.records[Touched(a)], Apply(t, a).records[Touched(a)];
            r.filters == [] ==> r'.delivered == r.delivered && r'.lastReaded == r.lastReaded
  {
  }

  lemma JumpStep(t: Topic, a: Action)
    requires Reachable(t) && JumpInv(t) && Enabled(t, a)
    ensures JumpInv(Apply(t, a))
  {
    InvReachable(t);
    hide Apply, Enabled, Reachable, JumpInv, TaskInv, LogInv, DropInv, RecordsInv, CoverInv;
    if a.Deliver? {
      DeliverIsApply(t, a);
      JumpDelivered(t, a.id);
    } else if a.StartSub? {
      StartIsApply(t, a);
      JumpStart(t, a.id);
    } else if a.Subscribe? {
      SubscribeIsApply(t, a);
      JumpSubscribe(t, a.subscriber, a.startPos, a.filters);
    } else {
      HistoryStays(t, a);
      JumpSame(t, Apply(t, a));
    }
  }

  lemma DeliverIsApply(t: Topic, a: Action)
    requires a.Deliver? && Enabled(t, a)
    ensures a == Deliver(a.id) && Apply(t, a) == ApplyDeliver(t, a.id)
  {
  }

  lemma SubscribeIsApply(t: Topic, a: Action)
    requires a.Subscribe?
    ensures Enabled(t, a) && Apply(t, a) == ApplySubscribe(t, a.subscriber, a.startPos, a.filters)
  {
  }

  lemma {:induction false} JumpPath(states: seq<Topic>, acts: seq<Action>, i: nat)
    requires Path(states, acts) && Reachable(states[0]) && JumpInv(states[0]) && i <= |acts|
    ensures JumpInv(states[i])
  {
    hide Reachable, JumpInv;
    if i > 0 {
      JumpPath(states, acts, i - 1);
      ReachableAlong(states, acts, i - 1);
      assert Step(states[i - 1], acts[i - 1], states[i - 1 + 1]);
      hide Apply, Enabled, Reachable, JumpInv;
      JumpStep(states[i - 1], acts[i - 1]);
    }
  }

  lemma JumpReachable(t: Topic)
    requires Reachable(t)
    ensures JumpInv(t)
  {
    var states: seq<Topic>, acts: seq<Action> :| Run(states, acts) && states[|acts|] == t;
    InitReachable();
    JumpPath(states, acts, |acts|);
  }

  /** The deliveries of an unfiltered only-new subscription: none is missed between the first and the
      last but for one jump, at the reset of the cursor; before the reset they count up from the start
      position. */
  lemma OnlyNewJumpsOnce(t: Topic, s: nat)
    requires Reachable(t) && s < |t.records| && t.records[s].OnlyNew()
    ensures exists j :: OneJump(t.records[s].delivered, j)
    ensures s in t.tasks.starts ==> forall i :: 0 <= i < |t.records[s].delivered| ==> t.records[s].delivered[i].pos == t.records[s].startPos + 1 + i
  {
    JumpReachable(t);
    hide Reachable;
    assert JumpOk(t.records[s], s in t.tasks.starts);
    if s in t.tasks.starts {
      CountingJumps(t.records[s]);
      assert OneJump(t.records[s].delivered, |t.records[s].delivered|);
    } else {
      var j :| Jumped(t.records[s], j);
      assert OneJump(t.records[s].delivered, j);
    }
  }

  // ---------------------------------------------------------------- events from before the subscription

  /** With `n` events stored when the subscription was made: what it gets of them are the first ones,
      in order, and the reset goes past them all. */
  ghost predicate OldOk(r: Subscription, n: nat, pending: bool) {
    && r.startPos == -1 && r.filters == []
    && (forall i :: 0 <= i < |r.delivered| ==> r.delivered[i].pos == i || r.delivered[i].pos >= n)
    && (!pending ==> r.lastReaded >= n - 1)
  }

  ghost predicate OldInv(t: Topic, s: nat, n: nat) {
    s < |t.records| && n <= |t.log.events| && OldOk(t.records[s], n, s in t.tasks.starts)
  }

  lemma OldDeliver(t: Topic, s: nat, n: nat)
    requires Reachable(t) && JumpInv(t) && OldInv(t, s, n) && Enabled(t, Deliver(s))
    ensures OldInv(ApplyDeliver(t, s), s, n)
  {
    var r := t.records[s];
    HolderFresh(t, s);
    assert JumpOk(r, s in t.tasks.starts);
    hide Reachable, JumpInv;
    SomeOutside(r);
  }

  lemma OldOther(t: Topic, id: nat, s: nat, n: nat)
    requires OldInv(t, s, n) && Enabled(t, Deliver(id)) && id != s
    ensures OldInv(ApplyDeliver(t, id), s, n)
  {
  }

  lemma OldStart(t: Topic, id: nat, s: nat, n: nat)
    requires OldInv(t, s, n) && Enabled(t, StartSub(id))
    ensures OldInv(ApplyStartSub(t, id), s, n)
  {
  }

  lemma OldSame(t: Topic, a: Action, s: nat, n: nat)
    requires OldInv(t, s, n) && Enabled(t, a) && !a.Deliver? && !a.StartSub? && !a.Subscribe?
    ensures OldInv(Apply(t, a), s, n)
  {
    hide Enabled, Apply;
    StepAppends(t, a);
    HistoryStays(t, a);
    assert SameRequest(t.records[s], Apply(t, a).records[s]);
  }

  lemma OldStep(t: Topic, a: Action, s: nat, n: nat)
    requires Reachable(t) && JumpInv(t) && OldInv(t, s, n) && Enabled(t, a)
    ensures OldInv(Apply(t, a), s, n)
  {
    hide Apply, Enabled, Reachable, JumpInv, OldOk;
    if a.Deliver? {
      DeliverIsApply(t, a);
      if a.id == s {
        OldDeliver(t, s, n);
      } else {
        OldOther(t, a.id, s, n);
      }
    } else if a.StartSub? {
      StartIsApply(t, a);
      OldStart(t, a.id, s, n);
    } else if a.Subscribe? {
      SubscribeIsApply(t, a);
      OldSubscribe(t, a.subscriber, a.startPos, a.filters, s, n);
    } else {
      OldSame(t, a, s, n);
    }
  }

  lemma OldSubscribe(t: Topic, u: Uuid, startPos: int, filters: seq<Filter>, s: nat, n: nat)
    requires OldInv(t, s, n)
    ensures OldInv(ApplySubscribe(t, u, startPos, filters), s, n)
  {
  }

  lemma {:induction false} OldPath(states: seq<Topic>, acts: seq<Action>, s: nat, n: nat, i: nat)
    requires Path(states, acts) && Reachable(states[0]) && JumpInv(states[0]) && OldInv(states[0], s, n) && i <= |acts|
    ensures OldInv(states[i], s, n)
  {
    hide Reachable, JumpInv, OldInv;
    if i > 0 {
      OldPath(states, acts, s, n, i - 1);
      JumpPath(states, acts, i - 1);
      ReachableAlong(states, acts, i - 1);
      assert Step(states[i - 1], acts[i - 1], states[i - 1 + 1]);
      hide Apply, Enabled;
      OldStep(states[i - 1], acts[i - 1], s, n);
    }
  }

  lemma OldLasts(t: Topic, t': Topic, u: Uuid)
    requires Reachable(t) && t.runned && Continues(ApplySubscribe(t, u, -1, []), t')
    ensures OldInv(t', |t.records|, |t.log.events|)
  {
    var t0, s := ApplySubscribe(t, u, -1, []), |t.records|;
    SubscribeMakes(t, u, -1, []);
    ReachableStep(t, Subscribe(u, -1, []));
    JumpReachable(t0);
    assert OldInv(t0, s, |t.log.events|);
    var states: seq<Topic>, acts: seq<Action> :| Path(states, acts) && states[0] == t0 && states[|acts|] == t';
    hide *;
    OldPath(states, acts, s, |t.log.events|, |acts|);
  }

  /** Whoever got event `p` from before got every earlier event too. */
  lemma OldPrefix(t: Topic, s: nat, n: nat, p: nat, q: nat)
    requires Reachable(t) && OldInv(t, s, n) && Got(t, s, p) && q <= p < n
    ensures Got(t, s, q)
  {
    var d := t.records[s].delivered;
    OnlyNewDelivery(t, s);
    var x :| x in d && x.pos == p;
    var i :| 0 <= i < |d| && d[i] == x;
    assert d[q].pos == q;
  }

  /** A delivery to an only-new subscription came from a live task. */
  lemma GotNotFannedOut(t: Topic, s: nat, q: nat)
    requires Reachable(t) && s < |t.records| && t.records[s].startPos < 0 && Got(t, s, q)
    ensures !NoLive(t, s, q)
  {
    var x :| x in t.records[s].delivered && x.pos == q;
    DeliveredOf(t, s, x);
    DeliveredIsTask(t, s, q);
    assert x in DeliveriesAt(t, s, q);
  }

  ghost predicate InTurn(t: Topic, u: Uuid, s: nat, k: nat, p: nat) {
    && s < |t.records| && t.records[s].filters == [] && t.records[s].holder.None? && t.records[s].lastReaded == k - 1
    && u in t.subs && s in t.subs[u] && k <= p < |t.log.events|
    && forall q :: k <= q <= p ==> FanOut(q, t.log.events[q]) in t.tasks.fanouts
  }

  /** Pending fan-outs run in order before the cursor is reset. */
  lemma {:induction false} DeliverUpTo(t0: Topic, t: Topic, u: Uuid, s: nat, k: nat, p: nat) returns (t': Topic)
    requires Continues(t0, t) && InTurn(t, u, s, k, p)
    ensures Continues(t0, t') && Got(t', s, p)
    decreases p - k
  {
    hide Continues;
    var t1 := FanOutRuns(t0, t, u, s, FanOut(k, t.log.events[k]));
    var snd := Send(s, k, t.log.events[k], Live);
    t' := TakesTurn(t0, t1, snd);
    assert snd in t'.records[s].delivered;
    if k < p {
      assert InTurn(t', u, s, k + 1, p);
      t' := DeliverUpTo(t0, t', u, s, k + 1, p);
    }
  }

  lemma OldNeeds(t: Topic, t': Topic, u: Uuid, p: nat, q: nat)
    requires Reachable(t) && t.runned && q <= p < |t.log.events|
    requires Continues(ApplySubscribe(t, u, -1, []), t') && Got(t', |t.records|, p)
    ensures !FannedOut(t, q)
  {
    hide Continues, Got, NoLive, FannedOut;
    SubscribedReachable(t, t', u, -1, []);
    OldLasts(t, t', u);
    OldPrefix(t', |t.records|, |t.log.events|, p, q);
    GotNotFannedOut(t', |t.records|, q);
    if FannedOut(t, q) {
      NoLiveLasts(t, t', u, -1, [], q);
    }
  }

  /** An event stored before an only-new subscription was made can still be delivered to it if and
      only if the fan-outs of that event and of all earlier ones have not run by then. */
  lemma OldEventCondition(t: Topic, u: Uuid, p: nat)
    requires Reachable(t) && t.runned && p < |t.log.events|
    ensures (exists t' :: Continues(ApplySubscribe(t, u, -1, []), t') && Got(t', |t.records|, p))
            <==> forall q :: 0 <= q <= p ==> FanOut(q, t.log.events[q]) in t.tasks.fanouts
  {
    var t0, s := ApplySubscribe(t, u, -1, []), |t.records|;
    SubscribeMakes(t, u, -1, []);
    hide Continues, Got, Reachable;
    if forall q :: 0 <= q <= p ==> FanOut(q, t.log.events[q]) in t.tasks.fanouts {
      assert InTurn(t0, u, s, 0, p);
      var t' := DeliverUpTo(t0, t0, u, s, 0, p);
    } else {
      var q :| 0 <= q <= p && FanOut(q, t.log.events[q]) !in t.tasks.fanouts;
      assert FannedOut(t, q);
      forall t' | Continues(t0, t') ensures !Got(t', s, p) {
        if Got(t', s, p) {
          OldNeeds(t, t', u, p, q);
        }
      }
    }
  }

  /** It happens: with one stored event and its fan-out pending, a subscription to new events only is
      made and then gets that event. */
  lemma OldEventIsReachable() returns (t: Topic, t': Topic)
    ensures Reachable(t) && t.runned && t.records == [] && |t.log.events| == 1
    ensures Continues(ApplySubscribe(t, Id(1), -1, []), t') && Reachable(t') && Got(t', 0, 0)
  {
    InitReachable();
    ContinuesItself(Init());
    hide Reachable, Continues, Got;
    t := StoreMore(Init(), Init());
    ContinuesReachable(Init(), t);
    assert t.log.events[..0] == Init().log.events;
    OldEventCondition(t, Id(1), 0);
    t' :| Continues(ApplySubscribe(t, Id(1), -1, []), t') && Got(t', 0, 0);
    SubscribedReachable(t, t', Id(1), -1, []);
  }

  // ---------------------------------------------------------------- the jump is the reset

  /** What an only-new subscription has got since it looked like `was`, with its cursor reset. */
  ghost predicate Following(r: Subscription, was: Subscription) {
    && was.delivered <= r.delivered
    && (|r.delivered| == |was.delivered| ==> r.lastReaded == was.lastReaded)
    && (|r.delivered| > |was.delivered| ==>
          && r.lastReaded == r.delivered[|r.delivered| - 1].pos
          && FirstAfter(r.delivered[|was.delivered|].pos, was))
    && forall i :: |was.delivered| < i < |r.delivered| ==> r.delivered[i].pos == r.delivered[i - 1].pos + 1
  }

  /** The position after the cursor; position 0 may be the first of all at cursor 0. */
  ghost predicate FirstAfter(pos: int, was: Subscription) {
    pos == was.lastReaded + 1 || (was.delivered == [] && was.lastReaded == 0 && pos == 0)
  }

  lemma FollowDeliver(r: Subscription, snd: Send, was: Subscription)
    requires Following(r, was) && r.Guard(snd.pos)
    requires snd.pos == 0 ==> forall x :: x in r.delivered ==> 0 < x.pos
    requires forall x :: x in r.delivered ==> x.pos <= r.lastReaded
    ensures Following(r.(delivered := r.delivered + [snd], lastReaded := snd.pos, holder := None), was)
  {
    if r.lastReaded == 0 && snd.pos == 0 {
      SomeOutside(r);
    }
  }

  ghost predicate FollowInv(t: Topic, s: nat, was: Subscription) {
    s < |t.records| && s !in t.tasks.starts && t.records[s].OnlyNew() && Following(t.records[s], was)
  }

  lemma FollowDelivered(t: Topic, id: nat, s: nat, was: Subscription)
    requires Reachable(t) && FollowInv(t, s, was) && Enabled(t, Deliver(id))
    ensures FollowInv(ApplyDeliver(t, id), s, was)
  {
    if id == s {
      HolderFresh(t, s);
      hide Reachable, Following;
      FollowDeliver(t.records[s], t.records[s].holder.value, was);
    }
  }

  lemma FollowStart(t: Topic, id: nat, s: nat, was: Subscription)
    requires FollowInv(t, s, was) && Enabled(t, StartSub(id))
    ensures FollowInv(ApplyStartSub(t, id), s, was)
  {
    hide Following;
  }

  lemma FollowSubscribe(t: Topic, u: Uuid, startPos: int, filters: seq<Filter>, s: nat, was: Subscription)
    requires FollowInv(t, s, was)
    ensures FollowInv(ApplySubscribe(t, u, startPos, filters), s, was)
  {
    hide Following;
  }

  lemma FollowSame(t: Topic, a: Action, s: nat, was: Subscription)
    requires FollowInv(t, s, was) && Enabled(t, a) && !a.Deliver? && !a.StartSub? && !a.Subscribe?
    ensures FollowInv(Apply(t, a), s, was)
  {
    hide Enabled, Apply;
    HistoryStays(t, a);
    assert SameRequest(t.records[s], Apply(t, a).records[s]);
  }

  lemma FollowStep(t: Topic, a: Action, s: nat, was: Subscription)
    requires Reachable(t) && FollowInv(t, s, was) && Enabled(t, a)
    ensures FollowInv(Apply(t, a), s, was)
  {
    hide Apply, Enabled, Reachable, FollowInv;
    if a.Deliver? {
      DeliverIsApply(t, a);
      FollowDelivered(t, a.id, s, was);
    } else if a.StartSub? {
      StartIsApply(t, a);
      FollowStart(t, a.id, s, was);
    } else if a.Subscribe? {
      SubscribeIsApply(t, a);
      FollowSubscribe(t, a.subscriber, a.startPos, a.filters, s, was);
    } else {
      FollowSame(t, a, s, was);
    }
  }

  lemma PathLength(states: seq<Topic>, acts: seq<Action>)
    requires Path(states, acts)
    ensures |states| == |acts| + 1
  {
  }

  lemma PathStep(states: seq<Topic>, acts: seq<Action>, i: nat)
    requires Path(states, acts) && i < |acts|
    ensures |states| == |acts| + 1 && Enabled(states[i], acts[i]) && states[i + 1] == Apply(states[i], acts[i])
  {
    assert Step(states[i], acts[i], states[i + 1]);
    hide Enabled, Apply;
  }

  lemma {:induction false} FollowPath(states: seq<Topic>, acts: seq<Action>, s: nat, was: Subscription, from: nat, i: nat)
    requires Path(states, acts) && Reachable(states[0]) && from <= i <= |acts| && FollowInv(states[from], s, was)
    ensures FollowInv(states[i], s, was)
  {
    hide Reachable, FollowInv, Path, Apply, Enabled;
    PathLength(states, acts);
    if i > from {
      FollowPath(states, acts, s, was, from, i - 1);
      ReachableAlong(states, acts, i - 1);
      PathStep(states, acts, i - 1);
      FollowStep(states[i - 1], acts[i - 1], s, was);
    }
  }

  /** The reset itself. */
  lemma ResetFollows(t: Topic, s: nat)
    requires Reachable(t) && Enabled(t, StartSub(s)) && t.records[s].OnlyNew()
    ensures ApplyStartSub(t, s) == Apply(t, StartSub(s))
    ensures FollowInv(ApplyStartSub(t, s), s, ApplyStartSub(t, s).records[s])
    ensures var r' := ApplyStartSub(t, s).records[s]; r'.delivered == t.records[s].delivered && r'.lastReaded == |t.log.events| - 1
  {
    StartedOnce(t, s);
    hide Reachable;
  }

  lemma StartedOnce(t: Topic, s: nat)
    requires Reachable(t)
    ensures t.tasks.starts[s] <= 1
  {
    InvReachable(t);
  }

  /** The jump is the reset: with `n` events stored when the cursor is reset, what was delivered before
      counts up from the start position, the next delivery is position `n`, and from there on they
      follow each other without a gap. Only position 0 as the very first delivery may come instead of
      position 1, when the log has one event at the reset. */
  lemma JumpIsReset(states: seq<Topic>, acts: seq<Action>, s: nat, i: nat)
    requires Path(states, acts) && Reachable(states[0]) && 0 < i <= |acts|
    requires s < |states[0].records| && states[0].records[s].OnlyNew() && acts[0] == StartSub(s)
    ensures s < |states[i].records|
    ensures var r, d, n := states[0].records[s], states[i].records[s].delivered, |states[0].log.events|;
            && r.delivered <= d
            && (forall m :: 0 <= m < |r.delivered| ==> d[m].pos == r.startPos + 1 + m)
            && (|r.delivered| < |d| ==> d[|r.delivered|].pos == n || (r.delivered == [] && n == 1 && d[0].pos == 0))
            && forall m :: |r.delivered| < m < |d| ==> d[m].pos == d[m - 1].pos + 1
  {
    assert Step(states[0], acts[0], states[0 + 1]);
    OnlyNewJumpsOnce(states[0], s);
    ResetFollows(states[0], s);
    hide Reachable, Apply, ApplyStartSub;
    FollowPath(states, acts, s, states[1].records[s], 1, i);
  }
}
