/** Continuations of a run, and the schedules that decide what a subscription gets. */
module Continuations {
  import opened Wrappers
  import opened Events
  import opened TopicLog
  import opened TopicLogInvariants
  import opened SubscriptionInvariants
  import opened TopicDelivery

  /** Some sequence of steps leads from `t` to `t'`. */
  ghost predicate Continues(t: Topic, t': Topic) {
    exists states: seq<Topic>, acts: seq<Action> :: Path(states, acts) && states[0] == t && states[|acts|] == t'
  }

  lemma ContinuesItself(t: Topic)
    ensures Continues(t, t)
  {
    var states: seq<Topic>, acts: seq<Action> := [t], [];
    assert Path(states, acts) && states[0] == t && states[|acts|] == t;
  }

  lemma Next(t0: Topic, t: Topic, a: Action)
    requires Continues(t0, t) && Enabled(t, a)
    ensures Continues(t0, Apply(t, a))
  {
    var states: seq<Topic>, acts: seq<Action> :| Path(states, acts) && states[0] == t0 && states[|acts|] == t;
    var states', acts' := states + [Apply(t, a)], acts + [a];
    StepIs(t, a);
    hide Apply, Enabled, Step;
    forall i | 0 <= i < |acts'| ensures Step(states'[i], acts'[i], states'[i + 1]) {
      if i < |acts| {
        assert Step(states[i], acts[i], states[i + 1]);
      }
    }
    assert Path(states', acts') && states'[0] == t0 && states'[|acts'|] == Apply(t, a);
  }

  lemma {:induction false} ReachableAlong(states: seq<Topic>, acts: seq<Action>, i: nat)
    requires Path(states, acts) && Reachable(states[0]) && i <= |acts|
    ensures Reachable(states[i])
  {
    if i > 0 {
      ReachableAlong(states, acts, i - 1);
      assert Step(states[i - 1], acts[i - 1], states[i - 1 + 1]);
      hide Apply, Enabled, Reachable;
      ReachableStep(states[i - 1], acts[i - 1]);
    }
  }

  // ---------------------------------------------------------------- single steps of a schedule

  /** What the steps below leave alone. */
  ghost predicate SameButTasks(t: Topic, t': Topic) {
    t' == t.(tasks := t'.tasks)
  }

  /** One more event enters the log; its fan-out is pending. */
  lemma StoreMore(t0: Topic, t: Topic) returns (t': Topic)
    requires Continues(t0, t) && t.runned
    ensures Continues(t0, t') && t' == t.(log := t'.log, tasks := t'.tasks)
    ensures t.log.events <= t'.log.events && |t'.log.events| == |t.log.events| + 1
    ensures t'.tasks == t.tasks.(fanouts := t.tasks.fanouts + multiset{FanOut(|t.log.events|, t'.log.events[|t.log.events|])})
  {
    hide Continues;
    var add := AddEvent("", Some(Event("", "")), Id(0));
    var ee := EventEnvelope(Some(Event("", "")), "", Id(0), 0);
    Next(t0, t, add);
    var t1 := ApplyAddEvent(t, "", Some(Event("", "")), Id(0));
    Next(t0, t1, Register(ee));
    t' := ApplyRegister(t1, ee);
  }

  /** A pending fan-out runs, and so does the goroutine it starts for one subscriber. */
  lemma FanOutRuns(t0: Topic, t: Topic, u: Uuid, s: nat, f: FanOut) returns (t': Topic)
    requires Continues(t0, t) && f in t.tasks.fanouts && u in t.subs && s in t.subs[u]
    ensures Continues(t0, t') && SameButTasks(t, t')
    ensures t'.tasks.fanouts == t.tasks.fanouts - multiset{f} && t'.tasks.starts == t.tasks.starts
    ensures t.tasks.sends <= t'.tasks.sends && t.tasks.created <= t'.tasks.created
    ensures Send(s, f.pos, f.ee, Live) in t'.tasks.sends && Send(s, f.pos, f.ee, Live) in t'.tasks.created
  {
    hide Continues;
    var b := Batch(u, t.subs[u], f.pos, f.ee);
    Next(t0, t, UpdateSubs(f));
    var t1 := Apply(t, UpdateSubs(f));
    assert b in Batches(t, f) && b in t1.tasks.batches;
    SpawnIs(t1, b);
    Next(t0, t1, SpawnSends(b));
    t' := Apply(t1, SpawnSends(b));
    hide Enabled, Apply;
    var i :| 0 <= i < |b.ss| && b.ss[i] == s;
    assert LiveSends(b)[i] == Send(s, f.pos, f.ee, Live);
    assert Send(s, f.pos, f.ee, Live) in multiset(LiveSends(b));
  }

  /** The replay of a subscription from the beginning starts. */
  lemma ReplayRuns(t0: Topic, t: Topic, s: nat) returns (t': Topic)
    requires Continues(t0, t) && s in t.tasks.starts && s < |t.records| && t.records[s].startPos == 0
    ensures Continues(t0, t') && SameButTasks(t, t')
    ensures t'.tasks.fanouts == t.tasks.fanouts
    ensures t.tasks.sends <= t'.tasks.sends && t.tasks.created <= t'.tasks.created
    ensures forall p :: 0 <= p < |t.log.events| ==>
                          var x := Send(s, p, t.log.events[p], Replay); x in t'.tasks.sends && x in t'.tasks.created
  {
    hide Continues;
    Next(t0, t, StartSub(s));
    t' := ApplyStartSub(t, s);
    forall p | 0 <= p < |t.log.events| ensures Send(s, p, t.log.events[p], Replay) in multiset(ReplaySends(t, s, 0)) {
      ReplaySendsOnce(t, s, 0, Send(s, p, t.log.events[p], Replay));
    }
  }

  /** An unfiltered sender takes the free lock, passes the guard and delivers. */
  lemma TakesTurn(t0: Topic, t: Topic, snd: Send) returns (t': Topic)
    requires Continues(t0, t) && snd in t.tasks.sends && snd.sub < |t.records|
    requires t.records[snd.sub].filters == [] && t.records[snd.sub].holder.None? && t.records[snd.sub].Guard(snd.pos)
    ensures Continues(t0, t')
    ensures var r := t.records[snd.sub];
            t' == t.(tasks := TakeSend(t, snd),
                     records := t.records[snd.sub := Turn(r, snd).(delivered := r.delivered + [snd], lastReaded := snd.pos)])
  {
    hide Continues;
    var r := t.records[snd.sub];
    Next(t0, t, Acquire(snd));
    var held := Turn(r, snd).(holder := Some(snd));
    var t1 := t.(tasks := TakeSend(t, snd), records := t.records[snd.sub := held]);
    assert t1 == Apply(t, Acquire(snd)) && held.Guard(snd.pos);
    Next(t0, t1, Deliver(snd.sub));
    t' := ApplyDeliver(t1, snd.sub);
    assert t1.records[snd.sub := t'.records[snd.sub]] == t.records[snd.sub := t'.records[snd.sub]];
  }

  // ---------------------------------------------------------------- a new subscription

  /** The subscription `s` of `u` has just been made: on the list, untouched, its start pending. */
  ghost predicate JustMade(t: Topic, u: Uuid, s: nat, startPos: int, filters: seq<Filter>) {
    && t.runned && s < |t.records| && t.records[s] == Subscription(u, startPos, filters, startPos, None, [], [])
    && u in t.subs && s in t.subs[u] && s in t.tasks.starts
  }

  lemma SubscribeMakes(t: Topic, u: Uuid, startPos: int, filters: seq<Filter>)
    requires t.runned
    ensures var t0 := ApplySubscribe(t, u, startPos, filters);
            && JustMade(t0, u, |t.records|, startPos, filters) && Continues(t0, t0) && t0.log == t.log
            && t0.tasks == t.tasks.(starts := t0.tasks.starts)
            && Enabled(t, Subscribe(u, startPos, filters)) && t0 == Apply(t, Subscribe(u, startPos, filters))
  {
    ContinuesItself(ApplySubscribe(t, u, startPos, filters));
    hide Continues;
  }

  /** Position `p` is stored and its fan-out has run. */
  ghost predicate FannedOut(t: Topic, p: nat) {
    p < |t.log.events| && FanOut(p, t.log.events[p]) !in t.tasks.fanouts
  }

  /** The log can grow until `p` is stored with its fan-out pending, unless that has run. */
  lemma {:induction false} GrowTo(t0: Topic, t: Topic, u: Uuid, s: nat, startPos: int, filters: seq<Filter>, p: nat) returns (t': Topic)
    requires Continues(t0, t) && JustMade(t, u, s, startPos, filters) && !FannedOut(t, p)
    ensures Continues(t0, t') && JustMade(t', u, s, startPos, filters) && t'.topicDone == t.topicDone
    ensures p < |t'.log.events| && FanOut(p, t'.log.events[p]) in t'.tasks.fanouts
    decreases p + 1 - |t.log.events|
  {
    hide Continues;
    if p < |t.log.events| {
      t' := t;
    } else {
      t' := StoreMore(t0, t);
      if |t.log.events| < p {
        t' := GrowTo(t0, t', u, s, startPos, filters, p);
      }
    }
  }

  /** Replay and live fan-out both create a task for `p`. */
  lemma BothTasks(t0: Topic, t: Topic, u: Uuid, s: nat, filters: seq<Filter>, p: nat) returns (t': Topic)
    requires Continues(t0, t) && JustMade(t, u, s, 0, filters) && !FannedOut(t, p)
    ensures Continues(t0, t') && s < |t'.records| && t'.records[s] == Subscription(u, 0, filters, 0, None, [], [])
    ensures p < |t'.log.events| && t'.topicDone == t.topicDone
    ensures Send(s, p, t'.log.events[p], Replay) in t'.tasks.created && Send(s, p, t'.log.events[p], Replay) in t'.tasks.sends
    ensures Send(s, p, t'.log.events[p], Live) in t'.tasks.created && Send(s, p, t'.log.events[p], Live) in t'.tasks.sends
  {
    hide Continues;
    var t1 := GrowTo(t0, t, u, s, 0, filters, p);
    var t2 := ReplayRuns(t0, t1, s);
    t' := FanOutRuns(t0, t2, u, s, FanOut(p, t1.log.events[p]));
  }

  // ---------------------------------------------------------------- at most one task for a position

  /** No goroutine has created, or will create, a live task of `p` for `s`. */
  ghost predicate NoLive(t: Topic, s: nat, p: nat) {
    && FannedOut(t, p) && !InBatch(t, s, p)
    && forall x :: x in t.tasks.created && x.source == Live && x.pos == p ==> x.sub != s
  }

  lemma NoLiveAtFirst(t: Topic, u: Uuid, startPos: int, filters: seq<Filter>, p: nat)
    requires TaskInv(t) && t.runned && FannedOut(t, p)
    ensures NoLive(ApplySubscribe(t, u, startPos, filters), |t.records|, p)
  {
    var s := |t.records|;
    forall b | b in t.tasks.batches && b.pos == p ensures s !in b.ss {
      assert BatchCarries(t, b);
    }
    forall x | x in t.tasks.created ensures x.sub != s {
      assert Carries(t, x);
    }
  }

  /** Goroutines only disappear. */
  lemma NoLiveQuiet(t: Topic, t': Topic, s: nat, p: nat)
    requires NoLive(t, s, p) && t'.log.events == t.log.events
    requires t'.tasks.fanouts <= t.tasks.fanouts && t'.tasks.batches <= t.tasks.batches && t'.tasks.created == t.tasks.created
    ensures NoLive(t', s, p)
  {
  }

  lemma NoLiveRegister(t: Topic, ee: EventEnvelope, s: nat, p: nat)
    requires NoLive(t, s, p)
    ensures NoLive(ApplyRegister(t, ee), s, p)
  {
  }

  lemma NoLiveUpdate(t: Topic, f: FanOut, s: nat, p: nat)
    requires TaskInv(t) && NoLive(t, s, p) && f in t.tasks.fanouts
    ensures NoLive(Apply(t, UpdateSubs(f)), s, p)
  {
    assert FanOutCarries(t, f);
    assert f.pos != p;
    hide TaskInv;
  }

  lemma NoLiveSpawn(t: Topic, b: Batch, s: nat, p: nat)
    requires TaskInv(t) && NoLive(t, s, p) && b in t.tasks.batches
    ensures NoLive(Apply(t, SpawnSends(b)), s, p)
  {
    assert BatchCarries(t, b);
    SpawnIs(t, b);
    hide TaskInv, Apply, Enabled;
    assert b.pos == p ==> s !in b.ss;
    LiveOfBatch(b);
    NoLiveMore(t, Apply(t, SpawnSends(b)), s, p, multiset(LiveSends(b)));
  }

  lemma LiveOfBatch(b: Batch)
    requires NoDup(b.ss)
    ensures forall x :: x in multiset(LiveSends(b)) ==> x.pos == b.pos && x.sub in b.ss
  {
    forall x | x in multiset(LiveSends(b)) ensures x.pos == b.pos && x.sub in b.ss {
      LiveSendsOnce(b, x);
    }
  }

  lemma NoLiveMore(t: Topic, t': Topic, s: nat, p: nat, new_: multiset<Send>)
    requires NoLive(t, s, p) && t'.log == t.log && t'.tasks.fanouts == t.tasks.fanouts && t'.tasks.batches <= t.tasks.batches
    requires t'.tasks.created == t.tasks.created + new_ && forall x :: x in new_ && x.source == Live && x.pos == p ==> x.sub != s
    ensures NoLive(t', s, p)
  {
    assert forall x :: x in t'.tasks.created ==> x in t.tasks.created || x in new_;
  }

  lemma NoLiveStart(t: Topic, id: nat, s: nat, p: nat)
    requires NoLive(t, s, p) && Enabled(t, StartSub(id))
    ensures NoLive(ApplyStartSub(t, id), s, p)
  {
    if t.records[id].startPos >= 0 {
      var new_ := multiset(ReplaySends(t, id, t.records[id].startPos));
      forall x | x in new_ ensures x.source == Replay {
        ReplaySendsOnce(t, id, t.records[id].startPos, x);
      }
      assert forall x :: x in ApplyStartSub(t, id).tasks.created ==> x in t.tasks.created || x in new_;
    }
  }

  lemma NoLiveSpawning(t: Topic, a: Action, s: nat, p: nat)
    requires TaskInv(t) && NoLive(t, s, p) && Enabled(t, a) && Spawns(a)
    ensures NoLive(Apply(t, a), s, p)
  {
    hide TaskInv, NoLive, ApplyStartSub;
    if a.Register? {
      NoLiveRegister(t, a.ee, s, p);
    } else if a.UpdateSubs? {
      NoLiveUpdate(t, a.f, s, p);
    } else if a.SpawnSends? {
      NoLiveSpawn(t, a.b, s, p);
    } else if a.StartSub? {
      NoLiveStart(t, a.id, s, p);
    } else {
      NoLiveQuiet(t, Apply(t, a), s, p);
    }
  }

  lemma NoLiveStep(t: Topic, a: Action, s: nat, p: nat)
    requires TaskInv(t) && NoLive(t, s, p) && Enabled(t, a)
    ensures NoLive(Apply(t, a), s, p)
  {
    hide Apply, Enabled, TaskInv, NoLive;
    if Spawns(a) {
      NoLiveSpawning(t, a, s, p);
    } else {
      QuietShrinks(t, a);
      NoLiveQuiet(t, Apply(t, a), s, p);
    }
  }

  lemma {:induction false} NoLivePath(states: seq<Topic>, acts: seq<Action>, s: nat, p: nat, i: nat)
    requires Path(states, acts) && Reachable(states[0]) && NoLive(states[0], s, p) && i <= |acts|
    ensures NoLive(states[i], s, p) && Reachable(states[i])
  {
    ReachableAlong(states, acts, i);
    if i > 0 {
      NoLivePath(states, acts, s, p, i - 1);
      InvReachable(states[i - 1]);
      assert Step(states[i - 1], acts[i - 1], states[i - 1 + 1]);
      hide Apply, Enabled, NoLive, TaskInv, Reachable;
      NoLiveStep(states[i - 1], acts[i - 1], s, p);
    }
  }

  lemma NoLiveLasts(t: Topic, t': Topic, u: Uuid, startPos: int, filters: seq<Filter>, p: nat)
    requires Reachable(t) && t.runned && FannedOut(t, p) && Continues(ApplySubscribe(t, u, startPos, filters), t')
    ensures NoLive(t', |t.records|, p) && Reachable(t')
  {
    var t0 := ApplySubscribe(t, u, startPos, filters);
    SubscribeMakes(t, u, startPos, filters);
    ReachableStep(t, Subscribe(u, startPos, filters));
    InvReachable(t);
    NoLiveAtFirst(t, u, startPos, filters, p);
    var states: seq<Topic>, acts: seq<Action> :| Path(states, acts) && states[0] == t0 && states[|acts|] == t';
    hide *;
    NoLivePath(states, acts, |t.records|, p, |acts|);
  }

  lemma OneTask(t: Topic, s: nat, p: nat)
    requires Reachable(t) && NoLive(t, s, p)
    ensures forall x :: x in TasksAt(t, s, p) ==> x.source == Replay
    ensures s < |t.records| && t.records[s].startPos == 0 ==> |TasksAt(t, s, p)| <= 1
  {
    hide Reachable;
    if s < |t.records| && t.records[s].startPos == 0 {
      var only := {Send(s, p, t.log.events[p], Replay)};
      forall x | x in TasksAt(t, s, p) ensures x in only {
        CreatedOf(t, x);
      }
      SubsetSize(TasksAt(t, s, p), only);
    }
  }

  lemma TouchStays(t: Topic, a: Action, s: nat)
    requires Enabled(t, a) && TouchesRecord(a) && s < |t.records|
    ensures s < |Apply(t, a).records| && SameRequest(t.records[s], Apply(t, a).records[s])
    ensures t.records[s].delivered <= Apply(t, a).records[s].delivered
    ensures t.records[s].acquired <= Apply(t, a).records[s].acquired
  {
    RecordStep(t, a);
    hide SameRequest;
    if s == Touched(a) {
      TouchedGrows(t, a);
    }
    hide Apply, Enabled;
  }

  lemma TouchedGrows(t: Topic, a: Action)
    requires Enabled(t, a) && TouchesRecord(a)
    ensures Touched(a) < |t.records| && Touched(a) < |Apply(t, a).records|
    ensures t.records[Touched(a)].delivered <= Apply(t, a).records[Touched(a)].delivered
    ensures t.records[Touched(a)].acquired <= Apply(t, a).records[Touched(a)].acquired
  {
  }

  lemma SpawnStays(t: Topic, a: Action, s: nat)
    requires Enabled(t, a) && Spawns(a) && s < |t.records|
    ensures s < |Apply(t, a).records| && SameRequest(t.records[s], Apply(t, a).records[s])
    ensures t.records[s].delivered == Apply(t, a).records[s].delivered
    ensures t.records[s].acquired == Apply(t, a).records[s].acquired
  {
  }

  lemma RecordStays(t: Topic, a: Action, s: nat)
    requires Enabled(t, a) && s < |t.records|
    ensures s < |Apply(t, a).records| && SameRequest(t.records[s], Apply(t, a).records[s])
    ensures t.records[s].delivered <= Apply(t, a).records[s].delivered
    ensures t.records[s].acquired <= Apply(t, a).records[s].acquired
  {
    if TouchesRecord(a) {
      TouchStays(t, a, s);
    } else if Spawns(a) {
      SpawnStays(t, a, s);
    } else {
      OtherStep(t, a);
    }
    hide Apply, Enabled;
  }

  lemma {:induction false} RecordStaysPath(states: seq<Topic>, acts: seq<Action>, s: nat, i: nat)
    requires Path(states, acts) && i <= |acts| && s < |states[0].records|
    ensures s < |states[i].records| && SameRequest(states[0].records[s], states[i].records[s])
    ensures states[0].records[s].delivered <= states[i].records[s].delivered
    ensures states[0].records[s].acquired <= states[i].records[s].acquired
  {
    if i > 0 {
      RecordStaysPath(states, acts, s, i - 1);
      assert Step(states[i - 1], acts[i - 1], states[i - 1 + 1]);
      hide Apply, Enabled;
      RecordStays(states[i - 1], acts[i - 1], s);
    }
  }

  lemma RecordLasts(t: Topic, t': Topic, s: nat)
    requires Continues(t, t') && s < |t.records|
    ensures s < |t'.records| && SameRequest(t.records[s], t'.records[s])
    ensures t.records[s].delivered <= t'.records[s].delivered && t.records[s].acquired <= t'.records[s].acquired
  {
    var states: seq<Topic>, acts: seq<Action> :| Path(states, acts) && states[0] == t && states[|acts|] == t';
    RecordStaysPath(states, acts, s, |acts|);
  }

  /** When a subscription from the beginning is made, every continuation creates at most one task for
      a position if and only if the position is stored by then and its fan-out has run. */
  lemma AtMostOneTask(t: Topic, u: Uuid, filters: seq<Filter>, p: nat)
    requires Reachable(t) && t.runned
    ensures (forall t' :: Continues(ApplySubscribe(t, u, 0, filters), t') ==> |TasksAt(t', |t.records|, p)| <= 1) <==> FannedOut(t, p)
  {
    var t0, s := ApplySubscribe(t, u, 0, filters), |t.records|;
    SubscribeMakes(t, u, 0, filters);
    if FannedOut(t, p) {
      forall t' | Continues(t0, t') ensures |TasksAt(t', s, p)| <= 1 {
        NoLiveLasts(t, t', u, 0, filters, p);
        RecordLasts(t0, t', s);
        OneTask(t', s, p);
      }
    } else {
      assert !FannedOut(t0, p);
      hide Continues, TasksAt;
      var t' := BothTasks(t0, t0, u, s, filters, p);
      TwoAt(t', s, p);
    }
  }

  lemma TwoAt(t: Topic, s: nat, p: nat)
    requires p < |t.log.events|
    requires Send(s, p, t.log.events[p], Replay) in t.tasks.created && Send(s, p, t.log.events[p], Live) in t.tasks.created
    ensures |TasksAt(t, s, p)| >= 2
  {
    var both := {Send(s, p, t.log.events[p], Replay), Send(s, p, t.log.events[p], Live)};
    SubsetSize(both, TasksAt(t, s, p));
  }
}
