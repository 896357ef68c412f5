/** What every subscription of a running topic keeps: the ledger of its send tasks, its cursor,
    and the coverage of the log by tasks created or still to be created. */
module SubscriptionInvariants {
  import opened Wrappers
  import opened Events
  import opened TopicLog
  import opened TopicLogInvariants

  // ---------------------------------------------------------------- one subscription

  /** Position 0 `k` times, then 1, 2, 3 and so on. */
  ghost predicate ZerosThenCount(sends: seq<Send>, k: int) {
    && 0 <= k <= |sends|
    && forall i :: 0 <= i < |sends| ==> sends[i].pos == if i < k then 0 else i - k + 1
  }

  ghost predicate Increasing(sends: seq<Send>) {
    forall i, j :: 0 <= i < j < |sends| ==> sends[i].pos < sends[j].pos
  }

  ghost predicate Ledger(r: Subscription, id: nat) {
    && (forall x :: x in r.acquired ==> x.sub == id)
    && multiset(r.delivered) + multiset(r.Held()) <= multiset(r.acquired)
    && (r.filters != [] ==> r.holder.None?)
    && (r.filters != [] ==> forall x :: x in r.delivered ==> AllAccept(r.filters, x.ee))
  }

  /** `n` is the length of the log, `done` whether the topic was cancelled. */
  ghost predicate Cursor(r: Subscription, n: nat, done: bool) {
    && (!done && r.filters == [] ==> r.acquired == r.delivered + r.Held())
    && (!done && r.filters != [] ==> forall x :: x in r.acquired && AllAccept(r.filters, x.ee) ==> x in r.delivered)
    && (r.FromBegin() ==> ZerosThenCount(r.delivered, |r.delivered| - r.lastReaded))
    && (r.OnlyNew() ==>
          && r.startPos <= r.lastReaded < n
          && Increasing(r.delivered)
          && forall x :: x in r.delivered ==> x.pos <= r.lastReaded)
  }

  ghost predicate RecordInv(r: Subscription, id: nat, n: nat, done: bool) {
    Ledger(r, id) && Cursor(r, n, done)
  }

  lemma RecordGrows(r: Subscription, id: nat, n: nat, done: bool, n': nat, done': bool)
    requires RecordInv(r, id, n, done) && n <= n' && (done ==> done')
    ensures RecordInv(r, id, n', done')
  {
  }

  lemma RecordAcquire(r: Subscription, id: nat, n: nat, done: bool, snd: Send)
    requires RecordInv(r, id, n, done) && r.filters == [] && r.holder.None? && snd.sub == id
    ensures RecordInv(Turn(r, snd).(holder := Some(snd)), id, n, done)
  {
  }

  lemma RecordDeliver(r: Subscription, id: nat, n: nat, done: bool)
    requires RecordInv(r, id, n, done) && r.holder.Some? && r.Guard(r.holder.value.pos) && 0 <= r.holder.value.pos < n
    requires r.OnlyNew() && r.holder.value.pos == 0 ==> forall x :: x in r.delivered ==> 0 < x.pos
    ensures RecordInv(r.(delivered := r.delivered + [r.holder.value], lastReaded := r.holder.value.pos, holder := None),
                      id, n, done)
  {
    var snd := r.holder.value;
    var r' := r.(delivered := r.delivered + [snd], lastReaded := snd.pos, holder := None);
    assert r'.delivered + r'.Held() == r.delivered + r.Held();
    if r.FromBegin() {
      assert ZerosThenCount(r'.delivered, |r'.delivered| - r'.lastReaded);
    }
    if r.OnlyNew() {
      assert Increasing(r'.delivered) by {
        forall i | 0 <= i < |r.delivered| ensures r'.delivered[i].pos < snd.pos {
          assert r.delivered[i] in r.delivered;
        }
      }
      forall x | x in r'.delivered ensures x.pos <= r'.lastReaded {
        assert x in r.delivered || x == snd;
      }
    }
  }

  lemma RecordAbandon(r: Subscription, id: nat, n: nat)
    requires RecordInv(r, id, n, true)
    ensures RecordInv(r.(holder := None), id, n, true)
  {
  }

  lemma RecordFiltered(r: Subscription, id: nat, n: nat, done: bool, snd: Send)
    requires RecordInv(r, id, n, done) && r.filters != [] && snd.sub == id
    ensures done || !AllAccept(r.filters, snd.ee) ==> RecordInv(Turn(r, snd), id, n, done)
    ensures AllAccept(r.filters, snd.ee) ==> RecordInv(Turn(r, snd).(delivered := r.delivered + [snd]), id, n, done)
  {
  }

  lemma RecordReset(r: Subscription, id: nat, n: nat, done: bool)
    requires RecordInv(r, id, n, done) && r.startPos < 0
    ensures RecordInv(r.(lastReaded := n - 1), id, n, done)
    ensures r.OnlyNew() ==> r.lastReaded <= n - 1
  {
  }

  lemma RecordFresh(u: Uuid, startPos: int, filters: seq<Filter>, id: nat, n: nat, done: bool)
    ensures RecordInv(Subscription(u, startPos, filters, startPos, None, [], []), id, n, done)
  {
  }

  // ---------------------------------------------------------------- where a created task is now

  /** A created task is still waiting or has taken its turn. */
  ghost predicate Accounted(t: Topic, snd: Send) {
    t.tasks.created[snd] == t.tasks.sends[snd] + if snd.sub < |t.records| then multiset(t.records[snd.sub].acquired)[snd] else 0
  }

  ghost predicate RecordsInv(t: Topic) {
    && (forall s :: 0 <= s < |t.records| ==> RecordInv(t.records[s], s, |t.log.events|, t.topicDone))
    && (forall snd :: Accounted(t, snd))
  }

  /** A task took its turn at most once, and only what took its turn was delivered. */
  lemma AcquiredOnce(t: Topic, s: nat, snd: Send)
    requires TaskInv(t) && RecordsInv(t) && s < |t.records|
    ensures snd in t.records[s].acquired ==> snd.sub == s && snd in t.tasks.created && multiset(t.records[s].acquired)[snd] == 1
    ensures snd in t.records[s].delivered ==> snd in t.records[s].acquired && multiset(t.records[s].delivered)[snd] == 1
    ensures t.records[s].holder == Some(snd) ==> snd in t.records[s].acquired && snd !in t.records[s].delivered
  {
    var r := t.records[s];
    assert RecordInv(r, s, |t.log.events|, t.topicDone);
    assert multiset(r.delivered)[snd] + multiset(r.Held())[snd] <= multiset(r.acquired)[snd];
    assert Accounted(t, snd);
    assert snd in multiset(r.acquired) <==> snd in r.acquired;
    assert snd in multiset(r.delivered) <==> snd in r.delivered;
    assert snd in multiset(r.Held()) <==> snd in r.Held();
  }

  lemma HeldIsCreated(t: Topic, s: nat)
    requires TaskInv(t) && RecordsInv(t) && s < |t.records| && t.records[s].holder.Some?
    ensures var snd := t.records[s].holder.value;
            snd.sub == s && snd in t.tasks.created && Carries(t, snd) && snd !in t.records[s].delivered
  {
    AcquiredOnce(t, s, t.records[s].holder.value);
  }

  /** Position 0 is delivered to an only-new subscription at most once. */
  lemma ZeroOnce(t: Topic, s: nat)
    requires TaskInv(t) && RecordsInv(t) && s < |t.records| && t.records[s].holder.Some?
    requires t.records[s].startPos < 0 && t.records[s].holder.value.pos == 0
    ensures forall x :: x in t.records[s].delivered ==> 0 < x.pos
  {
    HeldIsCreated(t, s);
    forall x | x in t.records[s].delivered ensures 0 < x.pos {
      AcquiredOnce(t, s, x);
      assert Carries(t, x);
    }
  }

  /** One subscription and possibly the waiting senders changed. */
  ghost predicate OneRecord(t: Topic, t': Topic, s: nat) {
    && s < |t.records| && t'.log == t.log && t'.topicDone == t.topicDone
    && |t'.records| == |t.records| && t'.records == t.records[s := t'.records[s]]
    && t'.tasks.created == t.tasks.created
  }

  lemma RecordsOne(t: Topic, t': Topic, s: nat)
    requires RecordsInv(t) && OneRecord(t, t', s)
    requires RecordInv(t'.records[s], s, |t.log.events|, t.topicDone)
    requires t'.tasks.sends == t.tasks.sends && t'.records[s].acquired == t.records[s].acquired
    ensures RecordsInv(t')
  {
    forall snd ensures Accounted(t', snd) {
      assert Accounted(t, snd);
    }
  }

  lemma RecordsTurn(t: Topic, t': Topic, snd: Send)
    requires RecordsInv(t) && OneRecord(t, t', snd.sub)
    requires RecordInv(t'.records[snd.sub], snd.sub, |t.log.events|, t.topicDone)
    requires snd in t.tasks.sends && t'.tasks.sends == t.tasks.sends - multiset{snd}
    requires t'.records[snd.sub].acquired == t.records[snd.sub].acquired + [snd]
    ensures RecordsInv(t')
  {
    hide RecordInv;
    forall x ensures Accounted(t', x) {
      assert Accounted(t, x);
      assert multiset(t.records[snd.sub].acquired + [snd])[x] == multiset(t.records[snd.sub].acquired)[x] + multiset{snd}[x];
    }
  }

  lemma RecordsDeliver(t: Topic, id: nat)
    requires TaskInv(t) && RecordsInv(t) && Enabled(t, Deliver(id))
    ensures RecordsInv(ApplyDeliver(t, id))
  {
    HeldIsCreated(t, id);
    var r := t.records[id];
    assert RecordInv(r, id, |t.log.events|, t.topicDone);
    if r.startPos < 0 && r.holder.value.pos == 0 {
      ZeroOnce(t, id);
    }
    assert 0 <= r.holder.value.pos < |t.log.events|;
    hide TaskInv, Accounted;
    RecordDeliver(r, id, |t.log.events|, t.topicDone);
    RecordsOne(t, ApplyDeliver(t, id), id);
  }

  lemma AcquireIs(t: Topic, snd: Send)
    requires Enabled(t, Acquire(snd))
    ensures snd in t.tasks.sends && snd.sub < |t.records| && t.records[snd.sub].filters == [] && t.records[snd.sub].holder.None?
    ensures var t' := Apply(t, Acquire(snd));
            && OneRecord(t, t', snd.sub) && t'.tasks.sends == t.tasks.sends - multiset{snd}
            && t'.records[snd.sub] == Turn(t.records[snd.sub], snd).(holder := Some(snd))
  {
  }

  lemma RecordsAcquire(t: Topic, snd: Send)
    requires RecordsInv(t) && Enabled(t, Acquire(snd))
    ensures RecordsInv(Apply(t, Acquire(snd)))
  {
    hide Apply, Enabled, OneRecord, RecordInv, Accounted;
    AcquireIs(t, snd);
    RecordAcquire(t.records[snd.sub], snd.sub, |t.log.events|, t.topicDone, snd);
    RecordsTurn(t, Apply(t, Acquire(snd)), snd);
  }

  lemma RecordsFiltered(t: Topic, a: Action)
    requires RecordsInv(t) && Enabled(t, a) && (a.SendFiltered? || a.AbandonFiltered?)
    ensures RecordsInv(Apply(t, a))
  {
    RecordFiltered(t.records[a.snd.sub], a.snd.sub, |t.log.events|, t.topicDone, a.snd);
    RecordsTurn(t, Apply(t, a), a.snd);
  }

  lemma RecordsAbandon(t: Topic, id: nat)
    requires RecordsInv(t) && Enabled(t, Abandon(id))
    ensures RecordsInv(Apply(t, Abandon(id)))
  {
    RecordAbandon(t.records[id], id, |t.log.events|);
    RecordsOne(t, Apply(t, Abandon(id)), id);
  }

  /** No subscription changed; the log may have grown and tasks may have been created. */
  lemma RecordsSame(t: Topic, t': Topic, new_: multiset<Send>)
    requires RecordsInv(t) && t'.records == t.records
    requires t.log.events <= t'.log.events && (t.topicDone ==> t'.topicDone)
    requires t'.tasks.sends == t.tasks.sends + new_ && t'.tasks.created == t.tasks.created + new_
    ensures RecordsInv(t')
  {
    forall s | 0 <= s < |t'.records| ensures RecordInv(t'.records[s], s, |t'.log.events|, t'.topicDone) {
      RecordGrows(t.records[s], s, |t.log.events|, t.topicDone, |t'.log.events|, t'.topicDone);
    }
    forall snd ensures Accounted(t', snd) {
      assert Accounted(t, snd);
    }
  }

  lemma RecordsAppend(t: Topic, t': Topic, r: Subscription)
    requires CarryInv(t) && RecordsInv(t) && t'.records == t.records + [r] && r.acquired == []
    requires t'.log == t.log && t'.topicDone == t.topicDone
    requires t'.tasks.sends == t.tasks.sends && t'.tasks.created == t.tasks.created
    requires RecordInv(r, |t.records|, |t.log.events|, t.topicDone)
    ensures RecordsInv(t')
  {
    hide RecordInv;
    forall snd ensures Accounted(t', snd) {
      assert Accounted(t, snd);
      assert snd in t.tasks.created ==> Carries(t, snd);
    }
  }

  lemma RecordsSubscribe(t: Topic, a: Action)
    requires TaskInv(t) && RecordsInv(t) && a.Subscribe? && t.runned
    ensures RecordsInv(Apply(t, a))
  {
    RecordFresh(a.subscriber, a.startPos, a.filters, |t.records|, |t.log.events|, t.topicDone);
    hide RecordInv, RecordsInv, CarryInv, OnceInv;
    RecordsAppend(t, Apply(t, a), Subscription(a.subscriber, a.startPos, a.filters, a.startPos, None, [], []));
  }

  lemma RecordsStart(t: Topic, id: nat)
    requires RecordsInv(t) && Enabled(t, StartSub(id))
    ensures RecordsInv(ApplyStartSub(t, id))
  {
    var t' := ApplyStartSub(t, id);
    if t.records[id].startPos < 0 {
      RecordReset(t.records[id], id, |t.log.events|, t.topicDone);
      RecordsOne(t, t', id);
    } else {
      RecordsSame(t, t', multiset(ReplaySends(t, id, t.records[id].startPos)));
    }
  }

  lemma RecordsFeed(t: Topic, a: Action)
    requires RecordsInv(t) && Enabled(t, a) && (a.Register? || a.UpdateSubs? || a.SpawnSends?)
    ensures RecordsInv(Apply(t, a))
  {
    RecordsSame(t, Apply(t, a), if a.SpawnSends? then multiset(LiveSends(a.b)) else multiset{});
  }

  lemma RecordsTouch(t: Topic, a: Action)
    requires TaskInv(t) && RecordsInv(t) && Enabled(t, a) && TouchesRecord(a)
    ensures RecordsInv(Apply(t, a))
  {
    if a.Acquire? {
      RecordsAcquire(t, a.snd);
    } else if a.Deliver? {
      RecordsDeliver(t, a.id);
    } else if a.Abandon? {
      RecordsAbandon(t, a.id);
    } else {
      RecordsFiltered(t, a);
    }
  }

  lemma RecordsStep(t: Topic, a: Action)
    requires TaskInv(t) && RecordsInv(t) && Enabled(t, a)
    ensures RecordsInv(Apply(t, a))
  {
    hide Apply, Enabled, TaskInv, RecordsInv;
    if TouchesRecord(a) {
      RecordsTouch(t, a);
    } else if a.Register? || a.UpdateSubs? || a.SpawnSends? {
      RecordsFeed(t, a);
    } else if a.Subscribe? {
      if t.runned {
        RecordsSubscribe(t, a);
      } else {
        SubscribeStopped(t, a);
      }
    } else if a.StartSub? {
      StartIsApply(t, a);
      RecordsStart(t, a.id);
    } else {
      OtherStep(t, a);
      RecordsSame(t, Apply(t, a), multiset{});
    }
  }

  lemma SubscribeStopped(t: Topic, a: Action)
    requires a.Subscribe? && !t.runned
    ensures Apply(t, a) == t
  {
  }

  // ---------------------------------------------------------------- every position is taken care of

  /** The subscription is still on its subscriber's list. */
  ghost predicate Member(t: Topic, s: nat) {
    s < |t.records| && t.records[s].subscriber in t.subs && s in t.subs[t.records[s].subscriber]
  }

  ghost predicate InBatch(t: Topic, s: nat, p: nat) {
    exists b :: b in t.tasks.batches && b.pos == p && s in b.ss
  }

  ghost predicate HasTask(t: Topic, s: nat, p: nat)
    requires p < |t.log.events|
  {
    Send(s, p, t.log.events[p], Replay) in t.tasks.created || Send(s, p, t.log.events[p], Live) in t.tasks.created
  }

  /** A send task for the position was created, or a goroutine that will create it is pending. */
  ghost predicate Covered(t: Topic, s: nat, p: nat)
    requires p < |t.log.events|
  {
    s in t.tasks.starts || HasTask(t, s, p) || FanOut(p, t.log.events[p]) in t.tasks.fanouts || InBatch(t, s, p)
  }

  ghost predicate CoverInv(t: Topic) {
    forall s: nat, p: nat :: Member(t, s) && t.records[s].startPos == 0 && p < |t.log.events| ==> Covered(t, s, p)
  }

  lemma CoverMember(t: Topic, t': Topic, s: nat)
    requires Extends(t, t') && s < |t.records| && Member(t', s)
    requires forall u :: u in t'.subs ==> u in t.subs && t'.subs[u] == t.subs[u]
    ensures Member(t, s) && t'.records[s].startPos == t.records[s].startPos
  {
    assert SameRequest(t.records[s], t'.records[s]);
  }

  lemma CoverQuiet(t: Topic, t': Topic)
    requires TaskInv(t') && CoverInv(t) && Shrinks(t, t') && t'.log.events == t.log.events
    requires t'.tasks == t.tasks.(sends := t'.tasks.sends) && |t'.records| == |t.records|
    ensures CoverInv(t')
  {
    forall s: nat, p: nat | Member(t', s) && t'.records[s].startPos == 0 && p < |t'.log.events| ensures Covered(t', s, p) {
      CoverMember(t, t', s);
      assert Covered(t, s, p);
      assert InBatch(t, s, p) ==> InBatch(t', s, p);
    }
  }

  lemma CoverRegister(t: Topic, ee: EventEnvelope)
    requires CoverInv(t) && Enabled(t, Register(ee))
    ensures CoverInv(ApplyRegister(t, ee))
  {
    var t' := ApplyRegister(t, ee);
    forall s: nat, p: nat | Member(t', s) && t'.records[s].startPos == 0 && p < |t'.log.events| ensures Covered(t', s, p) {
      assert Member(t, s);
      if p < |t.log.events| {
        assert Covered(t, s, p);
        assert InBatch(t, s, p) ==> InBatch(t', s, p);
      }
    }
  }

  lemma CoverUpdateSubs(t: Topic, f: FanOut)
    requires CoverInv(t) && f in t.tasks.fanouts
    ensures CoverInv(Apply(t, UpdateSubs(f)))
  {
    var t' := Apply(t, UpdateSubs(f));
    forall s: nat, p: nat | Member(t', s) && t'.records[s].startPos == 0 && p < |t'.log.events| ensures Covered(t', s, p) {
      assert Member(t, s) && Covered(t, s, p);
      assert InBatch(t, s, p) ==> InBatch(t', s, p);
      if f == FanOut(p, t.log.events[p]) {
        var u := t.records[s].subscriber;
        var b := Batch(u, t.subs[u], f.pos, f.ee);
        assert b in Batches(t, f);
        assert b in t'.tasks.batches;
      }
    }
  }

  lemma SpawnIs(t: Topic, b: Batch)
    requires b in t.tasks.batches
    ensures Enabled(t, SpawnSends(b))
    ensures Apply(t, SpawnSends(b)) == t.(tasks := AddSends(t.tasks.(batches := t.tasks.batches - multiset{b}), LiveSends(b)))
  {
  }

  lemma CoverSpawn(t: Topic, b: Batch)
    requires TaskInv(t) && CoverInv(t) && b in t.tasks.batches
    ensures CoverInv(Apply(t, SpawnSends(b)))
  {
    SpawnIs(t, b);
    assert BatchCarries(t, b);
    hide TaskInv, Apply, Enabled, LiveSends;
    var t' := Apply(t, SpawnSends(b));
    forall s: nat, p: nat | Member(t', s) && t'.records[s].startPos == 0 && p < |t'.log.events| ensures Covered(t', s, p) {
      assert Member(t, s) && Covered(t, s, p);
      if InBatch(t, s, p) {
        var c :| c in t.tasks.batches && c.pos == p && s in c.ss;
        if c == b {
          LiveSendsOnce(b, Send(s, p, t.log.events[p], Live));
        } else {
          assert c in t'.tasks.batches;
        }
      }
    }
  }

  lemma CoverSubscribe(t: Topic, a: Action)
    requires CoverInv(t) && a.Subscribe? && t.runned
    ensures CoverInv(Apply(t, a))
  {
    var t' := Apply(t, a);
    forall s: nat, p: nat | Member(t', s) && t'.records[s].startPos == 0 && p < |t'.log.events| ensures Covered(t', s, p) {
      if s < |t.records| {
        assert Member(t, s) && Covered(t, s, p);
        assert InBatch(t, s, p) ==> InBatch(t', s, p);
      }
    }
  }

  lemma StartTasks(t: Topic, id: nat)
    requires Enabled(t, StartSub(id))
    ensures var t' := ApplyStartSub(t, id);
            && t'.log == t.log && t'.subs == t.subs && |t'.records| == |t.records|
            && (forall s :: 0 <= s < |t.records| ==> SameRequest(t.records[s], t'.records[s]))
            && t'.tasks.fanouts == t.tasks.fanouts && t'.tasks.batches == t.tasks.batches
            && t'.tasks.starts == t.tasks.starts - multiset{id} && t.tasks.created <= t'.tasks.created
            && (t.records[id].startPos == 0 ==> t'.tasks.created == t.tasks.created + multiset(ReplaySends(t, id, 0)))
  {
  }

  lemma CoverStart(t: Topic, id: nat)
    requires CoverInv(t) && Enabled(t, StartSub(id))
    ensures CoverInv(ApplyStartSub(t, id))
  {
    var t' := ApplyStartSub(t, id);
    StartTasks(t, id);
    hide ApplyStartSub, Enabled;
    forall s: nat, p: nat | Member(t', s) && t'.records[s].startPos == 0 && p < |t'.log.events| ensures Covered(t', s, p) {
      assert SameRequest(t.records[s], t'.records[s]);
      assert Member(t, s) && Covered(t, s, p);
      assert InBatch(t, s, p) ==> InBatch(t', s, p);
      if s == id {
        ReplaySendsOnce(t, id, 0, Send(s, p, t.log.events[p], Replay));
      }
    }
  }

  lemma CoverSpawnStep(t: Topic, a: Action)
    requires TaskInv(t) && CoverInv(t) && Enabled(t, a) && Spawns(a)
    ensures CoverInv(Apply(t, a))
  {
    if a.Register? {
      CoverRegister(t, a.ee);
    } else if a.UpdateSubs? {
      CoverUpdateSubs(t, a.f);
    } else if a.SpawnSends? {
      CoverSpawn(t, a.b);
    } else if a.StartSub? {
      CoverStart(t, a.id);
    } else if t.runned {
      CoverSubscribe(t, a);
    }
  }

  lemma CoverStep(t: Topic, a: Action)
    requires TaskInv(t) && CoverInv(t) && Enabled(t, a)
    ensures CoverInv(Apply(t, a))
  {
    hide Apply, Enabled, TaskInv, CoverInv;
    if Spawns(a) {
      CoverSpawnStep(t, a);
    } else {
      QuietShrinks(t, a);
      TaskStep(t, a);
      SameRecordCount(t, a);
      CoverQuiet(t, Apply(t, a));
    }
  }

  lemma SameRecordCount(t: Topic, a: Action)
    requires Enabled(t, a) && !Spawns(a)
    ensures |Apply(t, a).records| == |t.records|
  {
  }

  // ---------------------------------------------------------------- the whole invariant

  ghost predicate Inv(t: Topic) {
    LogInv(t.log) && DropInv(t) && TaskInv(t) && RecordsInv(t) && CoverInv(t)
  }

  lemma InvStep(t: Topic, a: Action)
    requires Inv(t) && Enabled(t, a)
    ensures Inv(Apply(t, a))
  {
    hide Apply, Enabled, TaskInv, CoverInv, LogInv, DropInv, RecordsInv;
    LogStep(t, a);
    TaskStep(t, a);
    RecordsStep(t, a);
    CoverStep(t, a);
  }

  lemma InitTasks()
    ensures TaskInv(Init())
  {
  }

  lemma InitRecords()
    ensures RecordsInv(Init()) && CoverInv(Init())
  {
  }

  lemma InvInit()
    ensures Inv(Init())
  {
    hide TaskInv, CoverInv, RecordsInv;
    InitTasks();
    InitRecords();
  }

  lemma StepInv(t: Topic, a: Action, t': Topic)
    requires Inv(t) && Step(t, a, t')
    ensures Inv(t')
  {
    hide Apply, Enabled, Inv;
    InvStep(t, a);
  }

  lemma {:induction false} InvRun(states: seq<Topic>, acts: seq<Action>, i: nat)
    requires Run(states, acts) && i <= |acts|
    ensures Inv(states[i])
  {
    hide Inv, Step, Init;
    if i == 0 {
      InvInit();
    } else {
      InvRun(states, acts, i - 1);
      StepInv(states[i - 1], acts[i - 1], states[i - 1 + 1]);
    }
  }

  lemma InvReachable(t: Topic)
    requires Reachable(t)
    ensures Inv(t)
  {
    var states: seq<Topic>, acts: seq<Action> :| Run(states, acts) && states[|acts|] == t;
    InvRun(states, acts, |acts|);
  }
}
