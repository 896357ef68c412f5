/** Every event stored after a subscription was made reaches it. */
module LiveCompleteness {
  import opened Wrappers
  import opened Events
  import opened TopicLog
  import opened TopicLogInvariants
  import opened SubscriptionInvariants
  import opened TopicDelivery
  import opened Continuations
  import opened DeliveryConditions

  /** A live task of `p` for `s` was created, or a goroutine that will create it is pending. */
  ghost predicate LiveCovered(t: Topic, s: nat, p: nat)
    requires p < |t.log.events|
  {
    Send(s, p, t.log.events[p], Live) in t.tasks.created || FanOut(p, t.log.events[p]) in t.tasks.fanouts || InBatch(t, s, p)
  }

  /** While `s` is on its list this holds for every position from `n` on. */
  ghost predicate LiveCover(t: Topic, s: nat, n: nat) {
    && s < |t.records|
    && (Member(t, s) ==> forall p: nat :: n <= p < |t.log.events| ==> LiveCovered(t, s, p))
  }

  lemma LiveAtFirst(t: Topic, u: Uuid, startPos: int, filters: seq<Filter>)
    requires t.runned
    ensures LiveCover(ApplySubscribe(t, u, startPos, filters), |t.records|, |t.log.events|)
  {
  }

  /** Goroutines of other kinds come and go, and lists only shrink. */
  lemma LiveSame(t: Topic, t': Topic, s: nat, n: nat)
    requires LiveCover(t, s, n) && Extends(t, t') && t'.log.events == t.log.events && (Member(t', s) ==> Member(t, s))
    requires t'.tasks.fanouts == t.tasks.fanouts && t'.tasks.batches == t.tasks.batches && t.tasks.created <= t'.tasks.created
    ensures LiveCover(t', s, n)
  {
    hide Member;
    forall p: nat | Member(t', s) && n <= p < |t'.log.events| ensures LiveCovered(t', s, p) {
      assert LiveCovered(t, s, p);
      assert InBatch(t, s, p) ==> InBatch(t', s, p);
    }
  }

  lemma LiveRegister(t: Topic, ee: EventEnvelope, s: nat, n: nat)
    requires LiveCover(t, s, n)
    ensures LiveCover(ApplyRegister(t, ee), s, n)
  {
    var t' := ApplyRegister(t, ee);
    assert Member(t', s) == Member(t, s);
    hide Member;
    forall p: nat | Member(t', s) && n <= p < |t'.log.events| ensures LiveCovered(t', s, p) {
      if p < |t.log.events| {
        assert LiveCovered(t, s, p);
        assert InBatch(t, s, p) ==> InBatch(t', s, p);
      }
    }
  }

  lemma UpdateIs(t: Topic, f: FanOut)
    requires f in t.tasks.fanouts
    ensures Enabled(t, UpdateSubs(f))
    ensures Apply(t, UpdateSubs(f)) ==
            t.(tasks := t.tasks.(fanouts := t.tasks.fanouts - multiset{f}, batches := t.tasks.batches + multiset(Batches(t, f))))
  {
  }

  lemma LiveUpdate(t: Topic, f: FanOut, s: nat, n: nat)
    requires LiveCover(t, s, n) && f in t.tasks.fanouts
    ensures LiveCover(Apply(t, UpdateSubs(f)), s, n)
  {
    UpdateIs(t, f);
    hide Apply, Enabled;
    var t' := Apply(t, UpdateSubs(f));
    forall p: nat | Member(t', s) && n <= p < |t'.log.events| ensures LiveCovered(t', s, p) {
      assert Member(t, s) && LiveCovered(t, s, p);
      assert InBatch(t, s, p) ==> InBatch(t', s, p);
      if f == FanOut(p, t.log.events[p]) {
        var u := t.records[s].subscriber;
        var b := Batch(u, t.subs[u], f.pos, f.ee);
        assert b in Batches(t, f);
        assert b in t'.tasks.batches;
      }
    }
  }

  lemma LiveSpawn(t: Topic, b: Batch, s: nat, n: nat)
    requires TaskInv(t) && LiveCover(t, s, n) && b in t.tasks.batches
    ensures LiveCover(Apply(t, SpawnSends(b)), s, n)
  {
    SpawnIs(t, b);
    assert BatchCarries(t, b);
    hide TaskInv, Apply, Enabled, LiveSends;
    var t' := Apply(t, SpawnSends(b));
    assert Member(t', s) == Member(t, s);
    hide Member;
    forall p: nat | Member(t', s) && n <= p < |t'.log.events| ensures LiveCovered(t', s, p) {
      assert LiveCovered(t, s, p);
      if InBatch(t, s, p) {
        var c :| c in t.tasks.batches && c.pos == p && s in c.ss;
        if c == b {
          LiveSendsOnce(b, Send(s, p, t.log.events[p], Live));
        } else {
          assert c in t'.tasks.batches;
        }
      }
    }
  }

  lemma LiveStart(t: Topic, id: nat, s: nat, n: nat)
    requires LiveCover(t, s, n) && Enabled(t, StartSub(id))
    ensures LiveCover(ApplyStartSub(t, id), s, n)
  {
    var t' := ApplyStartSub(t, id);
    StartTasks(t, id);
    hide ApplyStartSub, Enabled;
    if s < |t.records| {
      assert SameRequest(t.records[s], t'.records[s]);
    }
    LiveSame(t, t', s, n);
  }

  lemma LiveSubscribe(t: Topic, u: Uuid, startPos: int, filters: seq<Filter>, s: nat, n: nat)
    requires LiveCover(t, s, n)
    ensures LiveCover(ApplySubscribe(t, u, startPos, filters), s, n)
  {
    LiveSame(t, ApplySubscribe(t, u, startPos, filters), s, n);
  }

  lemma LiveSpawning(t: Topic, a: Action, s: nat, n: nat)
    requires TaskInv(t) && LiveCover(t, s, n) && Enabled(t, a) && Spawns(a)
    ensures LiveCover(Apply(t, a), s, n)
  {
    hide TaskInv, LiveCover, ApplyStartSub, ApplyRegister, ApplySubscribe;
    if a.Register? {
      LiveRegister(t, a.ee, s, n);
    } else if a.UpdateSubs? {
      LiveUpdate(t, a.f, s, n);
    } else if a.SpawnSends? {
      LiveSpawn(t, a.b, s, n);
    } else if a.StartSub? {
      LiveStart(t, a.id, s, n);
    } else {
      LiveSubscribe(t, a.subscriber, a.startPos, a.filters, s, n);
    }
  }

  lemma LiveQuiet(t: Topic, a: Action, s: nat, n: nat)
    requires LiveCover(t, s, n) && Enabled(t, a) && !Spawns(a)
    ensures LiveCover(Apply(t, a), s, n)
  {
    hide Apply, Enabled;
    QuietShrinks(t, a);
    SameRecordCount(t, a);
    if Member(Apply(t, a), s) {
      CoverMember(t, Apply(t, a), s);
    }
    LiveSame(t, Apply(t, a), s, n);
  }

  lemma LiveStep(t: Topic, a: Action, s: nat, n: nat)
    requires TaskInv(t) && LiveCover(t, s, n) && Enabled(t, a)
    ensures LiveCover(Apply(t, a), s, n)
  {
    hide Apply, Enabled, TaskInv, LiveCover;
    if Spawns(a) {
      LiveSpawning(t, a, s, n);
    } else {
      LiveQuiet(t, a, s, n);
    }
  }

  lemma {:induction false} LivePath(states: seq<Topic>, acts: seq<Action>, s: nat, n: nat, i: nat)
    requires Path(states, acts) && Reachable(states[0]) && LiveCover(states[0], s, n) && i <= |acts|
    ensures LiveCover(states[i], s, n)
  {
    hide Reachable, LiveCover, Path, Apply, Enabled;
    PathLength(states, acts);
    if i > 0 {
      LivePath(states, acts, s, n, i - 1);
      ReachableAlong(states, acts, i - 1);
      TasksOk(states[i - 1]);
      PathStep(states, acts, i - 1);
      hide TaskInv;
      LiveStep(states[i - 1], acts[i - 1], s, n);
    }
  }

  lemma TasksOk(t: Topic)
    requires Reachable(t)
    ensures TaskInv(t)
  {
    InvReachable(t);
  }

  lemma LiveLasts(t: Topic, t': Topic, u: Uuid, startPos: int, filters: seq<Filter>)
    requires Reachable(t) && t.runned && Continues(ApplySubscribe(t, u, startPos, filters), t')
    ensures LiveCover(t', |t.records|, |t.log.events|)
  {
    var t0, s := ApplySubscribe(t, u, startPos, filters), |t.records|;
    SubscribeMakes(t, u, startPos, filters);
    ReachableStep(t, Subscribe(u, startPos, filters));
    LiveAtFirst(t, u, startPos, filters);
    var states: seq<Topic>, acts: seq<Action> :| Path(states, acts) && states[0] == t0 && states[|acts|] == t';
    hide *;
    LivePath(states, acts, s, |t.log.events|, |acts|);
  }

  /** An unfiltered subscription with any start position, in particular to new events only: while the
      topic is not cancelled, once its goroutines have drained and while it is still on its list, it has
      been delivered every event stored after it was made. */
  lemma NewEventsComplete(t: Topic, t': Topic, u: Uuid, startPos: int, p: nat)
    requires Reachable(t) && t.runned && Continues(ApplySubscribe(t, u, startPos, []), t') && !t'.topicDone
    requires Member(t', |t.records|) && Drained(t', |t.records|) && |t.log.events| <= p < |t'.log.events|
    ensures Send(|t.records|, p, t'.log.events[p], Live) in t'.records[|t.records|].delivered && Got(t', |t.records|, p)
  {
    var s := |t.records|;
    var x := Send(s, p, t'.log.events[p], Live);
    SubscribedReachable(t, t', u, startPos, []);
    LiveLasts(t, t', u, startPos, []);
    hide Reachable, Continues, Member;
    assert LiveCovered(t', s, p);
    assert x in t'.tasks.created;
    TaskDelivered(t', s, x);
  }

  // ---------------------------------------------------------------- the same in terms of calls

  lemma MemberSpawn(t: Topic, a: Action, s: nat)
    requires Member(t, s) && Enabled(t, a) && Spawns(a)
    ensures Member(Apply(t, a), s) && Apply(t, a).records[s].subscriber == t.records[s].subscriber
  {
    if a.StartSub? {
      StartTasks(t, a.id);
      hide ApplyStartSub;
      assert SameRequest(t.records[s], ApplyStartSub(t, a.id).records[s]);
    }
    hide ApplyStartSub;
  }

  lemma MemberTouch(t: Topic, a: Action, s: nat)
    requires Member(t, s) && Enabled(t, a) && TouchesRecord(a)
    ensures Member(Apply(t, a), s) && Apply(t, a).records[s].subscriber == t.records[s].subscriber
  {
    RecordStep(t, a);
    hide Apply, Enabled;
    var t', k := Apply(t, a), Touched(a);
    assert k != s ==> t'.records[s] == t.records[s];
  }

  lemma MemberOther(t: Topic, a: Action, s: nat)
    requires Member(t, s) && Enabled(t, a) && !Spawns(a) && !TouchesRecord(a) && a != Unsubscribe(t.records[s].subscriber)
    ensures Member(Apply(t, a), s) && Apply(t, a).records[s].subscriber == t.records[s].subscriber
  {
  }

  lemma MemberStep(t: Topic, a: Action, s: nat)
    requires Member(t, s) && Enabled(t, a) && a != Unsubscribe(t.records[s].subscriber)
    ensures Member(Apply(t, a), s) && Apply(t, a).records[s].subscriber == t.records[s].subscriber
  {
    hide Apply, Enabled;
    if Spawns(a) {
      MemberSpawn(t, a, s);
    } else if TouchesRecord(a) {
      MemberTouch(t, a, s);
    } else {
      MemberOther(t, a, s);
    }
  }

  /** A subscription stays on its list until its subscriber unsubscribes. */
  lemma {:induction false} MemberStays(states: seq<Topic>, acts: seq<Action>, s: nat, i: nat)
    requires Path(states, acts) && Member(states[0], s) && i <= |acts|
    requires forall k :: 0 <= k < i ==> acts[k] != Unsubscribe(states[0].records[s].subscriber)
    ensures Member(states[i], s) && states[i].records[s].subscriber == states[0].records[s].subscriber
  {
    hide Path, Apply, Enabled, Member;
    PathLength(states, acts);
    if i > 0 {
      MemberStays(states, acts, s, i - 1);
      PathStep(states, acts, i - 1);
      MemberStep(states[i - 1], acts[i - 1], s);
    }
  }

  lemma SubscribeLists(t: Topic, u: Uuid, startPos: int, filters: seq<Filter>)
    requires t.runned
    ensures Member(ApplySubscribe(t, u, startPos, filters), |t.records|)
    ensures ApplySubscribe(t, u, startPos, filters).records[|t.records|].subscriber == u
  {
  }

  lemma PathContinues(states: seq<Topic>, acts: seq<Action>)
    requires Path(states, acts)
    ensures |states| == |acts| + 1 && Continues(states[0], states[|acts|])
  {
    PathLength(states, acts);
    hide Path;
  }

  /** On every path that follows a `Subscribe` call, unless `Unsubscribe` is called for its subscriber or
      the topic is cancelled: once its goroutines have drained, the subscription has been delivered every
      event stored since the call. */
  lemma UntilUnsubscribed(t: Topic, states: seq<Topic>, acts: seq<Action>, u: Uuid, startPos: int, p: nat)
    requires Reachable(t) && t.runned && Path(states, acts) && states[0] == ApplySubscribe(t, u, startPos, [])
    requires Unsubscribe(u) !in acts && !states[|acts|].topicDone
    requires |t.records| < |states[|acts|].records| ==> Drained(states[|acts|], |t.records|)
    requires |t.log.events| <= p < |states[|acts|].log.events|
    ensures |t.records| < |states[|acts|].records|
    ensures Send(|t.records|, p, states[|acts|].log.events[p], Live) in states[|acts|].records[|t.records|].delivered
  {
    var s, t' := |t.records|, states[|acts|];
    SubscribeLists(t, u, startPos, []);
    PathContinues(states, acts);
    hide Reachable, Path, Continues, Drained;
    MemberStays(states, acts, s, |acts|);
    NewEventsComplete(t, t', u, startPos, p);
  }
}
