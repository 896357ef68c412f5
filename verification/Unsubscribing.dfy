/** What unsubscribing ends, and what it cannot end any more. */
module Unsubscribing {
  import opened Wrappers
  import opened Events
  import opened TopicLog
  import opened TopicLogInvariants
  import opened SubscriptionInvariants
  import opened TopicDelivery
  import opened Continuations
  import opened DeliveryConditions
  import opened LiveCompleteness

  /** A goroutine that will create the live task `x` is on its way. */
  ghost predicate OnItsWay(t: Topic, x: Send) {
    exists b :: b in t.tasks.batches && x == Send(x.sub, b.pos, b.ee, Live) && x.sub in b.ss
  }

  /** `s` is on nobody's list, and no task for it was created or is on its way but those in `w`, and
      replay tasks if `replay` says so. */
  ghost predicate Gone(t: Topic, s: nat, w: iset<Send>, replay: bool) {
    && s < |t.records|
    && (forall u :: u in t.subs ==> s !in t.subs[u])
    && (forall b :: b in t.tasks.batches && s in b.ss ==> Send(s, b.pos, b.ee, Live) in w)
    && (forall x :: x in t.tasks.created && x.sub == s ==> x in w || (replay && x.source == Replay))
    && (s in t.tasks.starts && t.records[s].startPos >= 0 ==> replay)
  }

  lemma GoneShrinks(t: Topic, t': Topic, s: nat, w: iset<Send>, replay: bool)
    requires Gone(t, s, w, replay) && Shrinks(t, t')
    ensures Gone(t', s, w, replay)
  {
    assert SameRequest(t.records[s], t'.records[s]);
    assert forall b :: b in t'.tasks.batches ==> b in t.tasks.batches;
    assert s in t'.tasks.starts ==> s in t.tasks.starts;
  }

  lemma GoneUpdate(t: Topic, f: FanOut, s: nat, w: iset<Send>, replay: bool)
    requires Gone(t, s, w, replay) && f in t.tasks.fanouts
    ensures Gone(t.(tasks := t.tasks.(fanouts := t.tasks.fanouts - multiset{f}, batches := t.tasks.batches + multiset(Batches(t, f)))),
                 s, w, replay)
  {
  }

  lemma GoneMore(t: Topic, t': Topic, s: nat, w: iset<Send>, replay: bool, new_: multiset<Send>)
    requires Gone(t, s, w, replay) && t'.subs == t.subs && Extends(t, t')
    requires t'.tasks.batches <= t.tasks.batches && t'.tasks.starts <= t.tasks.starts
    requires t'.tasks.created == t.tasks.created + new_
    requires forall x :: x in new_ && x.sub == s ==> x in w || (replay && x.source == Replay)
    ensures Gone(t', s, w, replay)
  {
    assert SameRequest(t.records[s], t'.records[s]);
    assert forall x :: x in t'.tasks.created ==> x in t.tasks.created || x in new_;
    assert s in t'.tasks.starts ==> s in t.tasks.starts;
    assert forall b :: b in t'.tasks.batches ==> b in t.tasks.batches;
  }

  lemma GoneSpawn(t: Topic, b: Batch, s: nat, w: iset<Send>, replay: bool)
    requires TaskInv(t) && Gone(t, s, w, replay) && b in t.tasks.batches
    ensures Gone(Apply(t, SpawnSends(b)), s, w, replay)
  {
    assert BatchCarries(t, b);
    SpawnIs(t, b);
    hide TaskInv, Apply, Enabled, LiveSends;
    forall x | x in multiset(LiveSends(b)) && x.sub == s ensures x in w {
      LiveSendsOnce(b, x);
      assert x == Send(s, b.pos, b.ee, Live);
    }
    GoneMore(t, Apply(t, SpawnSends(b)), s, w, replay, multiset(LiveSends(b)));
  }

  lemma GoneStart(t: Topic, id: nat, s: nat, w: iset<Send>, replay: bool)
    requires Gone(t, s, w, replay) && Enabled(t, StartSub(id))
    ensures Gone(ApplyStartSub(t, id), s, w, replay)
  {
    StartTasks(t, id);
    var t' := ApplyStartSub(t, id);
    if t.records[id].startPos >= 0 {
      var new_ := multiset(ReplaySends(t, id, t.records[id].startPos));
      forall x | x in new_ && x.sub == s ensures replay && x.source == Replay {
        ReplaySendsOnce(t, id, t.records[id].startPos, x);
      }
      hide ReplaySends;
      GoneMore(t, t', s, w, replay, new_);
    } else {
      GoneMore(t, t', s, w, replay, multiset{});
    }
  }

  lemma GoneSubscribe(t: Topic, u: Uuid, startPos: int, filters: seq<Filter>, s: nat, w: iset<Send>, replay: bool)
    requires Gone(t, s, w, replay)
    ensures Gone(ApplySubscribe(t, u, startPos, filters), s, w, replay)
  {
  }

  lemma GoneRegister(t: Topic, ee: EventEnvelope, s: nat, w: iset<Send>, replay: bool)
    requires Gone(t, s, w, replay)
    ensures Gone(ApplyRegister(t, ee), s, w, replay)
  {
  }

  lemma GoneSpawning(t: Topic, a: Action, s: nat, w: iset<Send>, replay: bool)
    requires TaskInv(t) && Gone(t, s, w, replay) && Enabled(t, a) && Spawns(a)
    ensures Gone(Apply(t, a), s, w, replay)
  {
    hide TaskInv, Gone, ApplyStartSub, ApplyRegister, ApplySubscribe, Batches, LiveSends;
    if a.Register? {
      GoneRegister(t, a.ee, s, w, replay);
    } else if a.UpdateSubs? {
      GoneUpdate(t, a.f, s, w, replay);
    } else if a.SpawnSends? {
      GoneSpawn(t, a.b, s, w, replay);
    } else if a.StartSub? {
      GoneStart(t, a.id, s, w, replay);
    } else {
      GoneSubscribe(t, a.subscriber, a.startPos, a.filters, s, w, replay);
    }
  }

  lemma GoneStep(t: Topic, a: Action, s: nat, w: iset<Send>, replay: bool)
    requires TaskInv(t) && Gone(t, s, w, replay) && Enabled(t, a)
    ensures Gone(Apply(t, a), s, w, replay)
  {
    hide Apply, Enabled, TaskInv, Gone;
    if Spawns(a) {
      GoneSpawning(t, a, s, w, replay);
    } else {
      QuietShrinks(t, a);
      GoneShrinks(t, Apply(t, a), s, w, replay);
    }
  }

  lemma {:induction false} GonePath(states: seq<Topic>, acts: seq<Action>, s: nat, w: iset<Send>, replay: bool, i: nat)
    requires Path(states, acts) && Reachable(states[0]) && Gone(states[0], s, w, replay) && i <= |acts|
    ensures Gone(states[i], s, w, replay)
  {
    hide Reachable, Gone, Path, Apply, Enabled;
    PathLength(states, acts);
    if i > 0 {
      GonePath(states, acts, s, w, replay, i - 1);
      ReachableAlong(states, acts, i - 1);
      TasksOk(states[i - 1]);
      PathStep(states, acts, i - 1);
      hide TaskInv;
      GoneStep(states[i - 1], acts[i - 1], s, w, replay);
    }
  }

  lemma GoneLasts(t: Topic, t': Topic, s: nat, w: iset<Send>, replay: bool)
    requires Reachable(t) && Gone(t, s, w, replay) && Continues(t, t')
    ensures Gone(t', s, w, replay) && Reachable(t')
  {
    ContinuesReachable(t, t');
    var states: seq<Topic>, acts: seq<Action> :| Path(states, acts) && states[0] == t && states[|acts|] == t';
    hide *;
    GonePath(states, acts, s, w, replay, |acts|);
  }

  // ---------------------------------------------------------------- a successful unsubscribe

  /** The tasks of `s` that exist or are on their way. */
  ghost function TasksOf(t: Topic, s: nat): iset<Send> {
    iset x: Send | x.sub == s && (x in t.tasks.created || OnItsWay(t, x))
  }

  /** Only its own subscriber has `s` on a list. */
  lemma OnOneList(t: Topic, s: nat, v: Uuid)
    requires TaskInv(t) && v in t.subs && s < |t.records| && t.records[s].subscriber != v
    ensures s !in t.subs[v]
  {
    assert Owned(t.records, v, t.subs[v]);
    hide OnceInv;
  }

  lemma BatchesOf(t: Topic, s: nat)
    ensures forall b :: b in t.tasks.batches && s in b.ss ==> Send(s, b.pos, b.ee, Live) in TasksOf(t, s)
  {
    forall b | b in t.tasks.batches && s in b.ss ensures OnItsWay(t, Send(s, b.pos, b.ee, Live)) {
    }
    hide OnItsWay;
  }

  lemma UnsubscribeIs(t: Topic, u: Uuid)
    requires t.runned && u in t.subs
    ensures Enabled(t, Unsubscribe(u)) && Apply(t, Unsubscribe(u)) == t.(subs := t.subs - {u})
  {
  }

  lemma GoneAtFirst(t: Topic, u: Uuid, s: nat)
    requires TaskInv(t) && t.runned && u in t.subs && s < |t.records| && t.records[s].subscriber == u
    ensures Enabled(t, Unsubscribe(u))
    ensures Gone(Apply(t, Unsubscribe(u)), s, TasksOf(t, s), s in t.tasks.starts && t.records[s].startPos >= 0)
  {
    hide TaskInv, Apply, Enabled, OnItsWay;
    UnsubscribeIs(t, u);
    forall v | v in t.subs && v != u ensures s !in t.subs[v] {
      OnOneList(t, s, v);
    }
    BatchesOf(t, s);
  }

  lemma UnsubscribeKeeps(t: Topic, u: Uuid)
    requires Reachable(t)
    ensures Enabled(t, Unsubscribe(u)) && Reachable(Apply(t, Unsubscribe(u)))
    ensures Apply(t, Unsubscribe(u)).tasks == t.tasks && Apply(t, Unsubscribe(u)).records == t.records
    ensures Apply(t, Unsubscribe(u)).log == t.log && Apply(t, Unsubscribe(u)).runned == t.runned
  {
    hide Reachable;
    ReachableStep(t, Unsubscribe(u));
  }

  lemma GoneThen(t: Topic, t': Topic, u: Uuid, s: nat)
    requires Reachable(t) && t.runned && u in t.subs && s < |t.records| && t.records[s].subscriber == u
    requires Enabled(t, Unsubscribe(u)) && Continues(Apply(t, Unsubscribe(u)), t')
    ensures Gone(t', s, TasksOf(t, s), s in t.tasks.starts && t.records[s].startPos >= 0) && Reachable(t')
  {
    UnsubscribeKeeps(t, u);
    TasksOk(t);
    GoneAtFirst(t, u, s);
    hide *;
    GoneLasts(Apply(t, Unsubscribe(u)), t', s, TasksOf(t, s), s in t.tasks.starts && t.records[s].startPos >= 0);
  }

  /** After `u` has unsubscribed, a live task of a subscription it made before exists in some
      continuation exactly when it existed, or its goroutine had taken its snapshot of the list. */
  lemma UnsubscribedCondition(t: Topic, u: Uuid, x: Send)
    requires Reachable(t) && t.runned && u in t.subs
    requires x.sub < |t.records| && t.records[x.sub].subscriber == u && x.source == Live
    ensures Enabled(t, Unsubscribe(u))
    ensures (exists t' :: Continues(Apply(t, Unsubscribe(u)), t') && x in t'.tasks.created) <==>
            x in t.tasks.created || OnItsWay(t, x)
  {
    UnsubscribeKeeps(t, u);
    var t0 := Apply(t, Unsubscribe(u));
    hide Reachable, Continues, Apply, Enabled;
    forall t' | Continues(t0, t') && x in t'.tasks.created ensures x in t.tasks.created || OnItsWay(t, x) {
      GoneThen(t, t', u, x.sub);
      GoneLive(t, t', x);
    }
    if x in t.tasks.created {
      ContinuesItself(t0);
    } else if OnItsWay(t, x) {
      var t' := ArrivesAnyway(t0, x);
    }
  }

  lemma GoneLive(t: Topic, t': Topic, x: Send)
    requires x in t'.tasks.created && x.sub < |t.records| && x.source == Live
    requires Gone(t', x.sub, TasksOf(t, x.sub), x.sub in t.tasks.starts && t.records[x.sub].startPos >= 0)
    ensures x in t.tasks.created || OnItsWay(t, x)
  {
    assert x in TasksOf(t, x.sub);
  }

  lemma ArrivesAnyway(t: Topic, x: Send) returns (t': Topic)
    requires OnItsWay(t, x)
    ensures Continues(t, t') && x in t'.tasks.created
  {
    var b :| b in t.tasks.batches && x == Send(x.sub, b.pos, b.ee, Live) && x.sub in b.ss;
    ContinuesItself(t);
    SpawnIs(t, b);
    hide Continues, Enabled, Apply;
    Next(t, t, SpawnSends(b));
    t' := Apply(t, SpawnSends(b));
    var i :| 0 <= i < |b.ss| && b.ss[i] == x.sub;
    assert LiveSends(b)[i] == x;
    assert x in multiset(LiveSends(b));
  }

  // ---------------------------------------------------------------- events stored afterwards

  lemma IndexBelow(t: Topic, s: nat, x: Send)
    requires Reachable(t) && x in TasksOf(t, s)
    ensures x.ee.index < |t.log.events| && x.ee in t.log.events
  {
    InvReachable(t);
    if x in t.tasks.created {
      assert Carries(t, x);
    } else {
      var b :| b in t.tasks.batches && x == Send(x.sub, b.pos, b.ee, Live) && x.sub in b.ss;
      assert BatchCarries(t, b);
    }
  }

  /** The log can grow past any length while a start waits. */
  lemma {:induction false} GrowPast(t0: Topic, t: Topic, s: nat, n: nat) returns (t': Topic)
    requires Continues(t0, t) && t.runned && s in t.tasks.starts
    ensures Continues(t0, t') && s in t'.tasks.starts && t'.records == t.records && n < |t'.log.events|
    decreases n + 1 - |t.log.events|
  {
    hide Continues;
    if n < |t.log.events| {
      t' := t;
    } else {
      t' := StoreMore(t0, t);
      t' := GrowPast(t0, t', s, n);
    }
  }

  lemma StoredIndex(t: Topic, i: nat)
    requires Reachable(t) && i < |t.log.events|
    ensures t.log.events[i].index == i
  {
    InvReachable(t);
  }

  /** A replay that has not started replays what is stored by the time it starts. */
  lemma ReplayAnyway(t: Topic, s: nat, n: nat) returns (t': Topic, x: Send)
    requires Reachable(t) && t.runned && s in t.tasks.starts && s < |t.records| && t.records[s].startPos >= 0
    ensures Continues(t, t') && x in t'.tasks.created && x.sub == s && n <= x.ee.index
  {
    ContinuesItself(t);
    hide Reachable, Continues;
    var from := t.records[s].startPos;
    var t1 := GrowPast(t, t, s, from + n);
    ContinuesReachable(t, t1);
    Next(t, t1, StartSub(s));
    t' := ApplyStartSub(t1, s);
    var last := |t1.log.events| - 1;
    StoredIndex(t1, last);
    x := Send(s, last - from, t1.log.events[last], Replay);
    ReplaySendsOnce(t1, s, from, x);
  }

  /** After `u` has unsubscribed, a subscription it made before can be given an event stored later
      exactly when its replay has not started yet. A subscription to new events only has no replay. */
  lemma StillFedCondition(t: Topic, u: Uuid, s: nat)
    requires Reachable(t) && t.runned && u in t.subs && s < |t.records| && t.records[s].subscriber == u
    ensures Enabled(t, Unsubscribe(u))
    ensures (exists t', x :: Continues(Apply(t, Unsubscribe(u)), t') && x in t'.tasks.created && x.sub == s && |t.log.events| <= x.ee.index) <==>
            s in t.tasks.starts && t.records[s].startPos >= 0
  {
    UnsubscribeKeeps(t, u);
    var t0 := Apply(t, Unsubscribe(u));
    hide Reachable, Continues, Apply, Enabled;
    if s in t.tasks.starts && t.records[s].startPos >= 0 {
      var t', x := ReplayAnyway(t0, s, |t.log.events|);
    } else {
      forall t', x | Continues(t0, t') && x in t'.tasks.created && x.sub == s ensures x.ee.index < |t.log.events| {
        GoneThen(t, t', u, s);
        GoneNew(t, t', s, x);
        IndexBelow(t, s, x);
      }
    }
  }

  lemma GoneNew(t: Topic, t': Topic, s: nat, x: Send)
    requires Gone(t', s, TasksOf(t, s), false) && x in t'.tasks.created && x.sub == s
    ensures x in TasksOf(t, s)
  {
  }

  /** So a subscription to new events only, or one whose replay has started, is delivered no event
      stored after its subscriber has unsubscribed, whatever happens later. */
  lemma NothingStoredLater(t: Topic, t': Topic, u: Uuid, s: nat, x: Send)
    requires Reachable(t) && t.runned && u in t.subs && s < |t.records| && t.records[s].subscriber == u
    requires t.records[s].startPos < 0 || s !in t.tasks.starts
    requires Enabled(t, Unsubscribe(u)) && Continues(Apply(t, Unsubscribe(u)), t')
    requires s < |t'.records| && x in t'.records[s].delivered
    ensures x.ee.index < |t.log.events| && x.ee in t.log.events
  {
    GoneThen(t, t', u, s);
    CreatedBefore(t', s, x);
    hide *;
    GoneNew(t, t', s, x);
    IndexBelow(t, s, x);
  }

  lemma CreatedBefore(t: Topic, s: nat, x: Send)
    requires Reachable(t) && s < |t.records| && x in t.records[s].delivered
    ensures x in t.tasks.created && x.sub == s
  {
    InvReachable(t);
    AcquiredOnce(t, s, x);
  }
}
