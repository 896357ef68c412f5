/** The topic as the source writes it: an object whose methods update its fields in place. Each
    method is one or more of the state machine's actions, so it leads from a reachable state to a
    reachable state. */
module TopicObject {
  import opened Wrappers
  import opened Events
  import opened TopicLog
  import TopicDelivery

  /** All stored envelopes after the loop received `arrivals` in this order. */
  ghost function RegisterAll(t: TopicLog.Topic, arrivals: seq<EventEnvelope>): TopicLog.Topic {
    if arrivals == [] then t
    else ApplyRegister(RegisterAll(t, arrivals[..|arrivals| - 1]), arrivals[|arrivals| - 1])
  }

  /** The loop stores what it receives in the order it receives it, stamped with its position. */
  lemma {:induction false} ProcessedInOrder(t: TopicLog.Topic, arrivals: seq<EventEnvelope>, i: nat)
    requires forall ee :: ee in arrivals ==> ee.Check()
    ensures |RegisterAll(t, arrivals).log.events| == |t.log.events| + |arrivals|
    ensures t.log.events <= RegisterAll(t, arrivals).log.events
    ensures i < |arrivals| ==>
              RegisterAll(t, arrivals).log.events[|t.log.events| + i] == arrivals[i].(index := |t.log.events| + i)
  {
    hide *;
    RegisterSnoc(t, arrivals);
    if arrivals != [] {
      ProcessedInOrder(t, arrivals[..|arrivals| - 1], i);
      InOrderSnoc(t.log.events, RegisterAll(t, arrivals[..|arrivals| - 1]).log.events, arrivals, i);
    }
  }

  lemma RegisterSnoc(t: TopicLog.Topic, arrivals: seq<EventEnvelope>)
    requires forall ee :: ee in arrivals ==> ee.Check()
    ensures arrivals == [] ==> RegisterAll(t, arrivals) == t
    ensures arrivals != [] ==>
              var front, last := RegisterAll(t, arrivals[..|arrivals| - 1]), arrivals[|arrivals| - 1];
              RegisterAll(t, arrivals).log.events == front.log.events + [Stored(last, |front.log.events|)]
  {
    if arrivals != [] {
      RegisterStores(RegisterAll(t, arrivals[..|arrivals| - 1]), arrivals[|arrivals| - 1]);
      hide ApplyRegister;
    }
  }

  lemma InOrderSnoc(es: seq<EventEnvelope>, before: seq<EventEnvelope>, arrivals: seq<EventEnvelope>, i: nat)
    requires arrivals != [] && |before| == |es| + |arrivals| - 1 && es <= before
    requires i < |arrivals| - 1 ==> before[|es| + i] == arrivals[i].(index := |es| + i)
    ensures var all := before + [Stored(arrivals[|arrivals| - 1], |before|)];
            && |all| == |es| + |arrivals| && es <= all
            && (i < |arrivals| ==> all[|es| + i] == arrivals[i].(index := |es| + i))
  {
  }

  lemma RegisterStores(t: TopicLog.Topic, ee: EventEnvelope)
    requires ee.Check()
    ensures ApplyRegister(t, ee).log.events == t.log.events + [Stored(ee, |t.log.events|)]
  {
  }

  lemma Keeps(t: TopicLog.Topic, a: Action)
    requires Enabled(t, a)
    ensures Reachable(t) ==> Reachable(Apply(t, a))
  {
    hide Enabled, Apply, Reachable;
    if Reachable(t) {
      TopicDelivery.ReachableStep(t, a);
    }
  }

  /** Registering is possible while the loop runs and the envelopes are in flight. */
  lemma {:induction false} RegisterAllKeeps(t: TopicLog.Topic, arrivals: seq<EventEnvelope>)
    requires t.runned && multiset(arrivals) <= t.log.inflight
    ensures var t' := RegisterAll(t, arrivals);
            && t'.runned && t'.log.inflight == t.log.inflight - multiset(arrivals)
            && (Reachable(t) ==> Reachable(t'))
  {
    hide Reachable, ApplyRegister;
    if arrivals == [] {
      assert multiset(arrivals) == multiset{};
    } else {
      var front, last := arrivals[..|arrivals| - 1], arrivals[|arrivals| - 1];
      assert arrivals == front + [last];
      RegisterAllKeeps(t, front);
      RegisterOne(RegisterAll(t, front), last);
    }
  }

  lemma RegisterOne(t: TopicLog.Topic, ee: EventEnvelope)
    requires t.runned && ee in t.log.inflight
    ensures ApplyRegister(t, ee).runned && ApplyRegister(t, ee).log.inflight == t.log.inflight - multiset{ee}
    ensures Reachable(t) ==> Reachable(ApplyRegister(t, ee))
  {
    Keeps(t, Action.Register(ee));
    hide Reachable;
  }

  lemma RegisterNext(t: TopicLog.Topic, arrivals: seq<EventEnvelope>, k: nat)
    requires t.runned && multiset(arrivals) <= t.log.inflight && k < |arrivals|
    ensures RegisterAll(t, arrivals[..k]).runned && arrivals[k] in RegisterAll(t, arrivals[..k]).log.inflight
    ensures RegisterAll(t, arrivals[..k + 1]) == ApplyRegister(RegisterAll(t, arrivals[..k]), arrivals[k])
  {
    var front := arrivals[..k];
    assert arrivals == front + [arrivals[k]] + arrivals[k + 1..];
    RegisterAllKeeps(t, front);
    assert arrivals[..k + 1][..k] == front;
  }

  /** The loop registers what it receives and then finds its context done. */
  ghost function LoopRuns(t: TopicLog.Topic, arrivals: seq<EventEnvelope>): TopicLog.Topic {
    RegisterAll(t, arrivals).(topicDone := true, runned := false)
  }

  lemma LoopRunsKeeps(t: TopicLog.Topic, arrivals: seq<EventEnvelope>)
    requires t.runned && multiset(arrivals) <= t.log.inflight
    ensures Reachable(t) ==> Reachable(LoopRuns(t, arrivals))
  {
    hide Reachable, RegisterAll;
    RegisterAllKeeps(t, arrivals);
    Keeps(RegisterAll(t, arrivals), CancelTopic);
    Keeps(RegisterAll(t, arrivals).(topicDone := true), LoopExit);
  }

  lemma DeliverKeeps(t: TopicLog.Topic, snd: Send)
    requires Enabled(t, Acquire(snd)) && t.records[snd.sub].Guard(snd.pos)
    ensures Reachable(t) ==> Reachable(ApplyDeliver(Apply(t, Acquire(snd)), snd.sub))
  {
    hide Reachable;
    Keeps(t, Acquire(snd));
    Keeps(Apply(t, Acquire(snd)), Deliver(snd.sub));
  }

  /** The context is found done by the sender inside the lock. */
  function Abandoned(t: TopicLog.Topic, s: nat): TopicLog.Topic
    requires s < |t.records| && t.records[s].holder.Some?
  {
    Apply(t.(topicDone := true), Abandon(s))
  }

  lemma AbandonKeeps(t: TopicLog.Topic, snd: Send)
    requires Enabled(t, Acquire(snd))
    ensures Reachable(t) ==> Reachable(Abandoned(Apply(t, Acquire(snd)), snd.sub))
  {
    hide Reachable;
    Keeps(t, Acquire(snd));
    Keeps(Apply(t, Acquire(snd)), CancelTopic);
    Keeps(Apply(t, Acquire(snd)).(topicDone := true), Abandon(snd.sub));
  }

  /** A filtered sender whose consumer does not take the envelope before the context is done. */
  function GiveUp(t: TopicLog.Topic, snd: Send): TopicLog.Topic
    requires Enabled(t, SendFiltered(snd))
  {
    Apply(t.(topicDone := true), AbandonFiltered(snd))
  }

  lemma GiveUpKeeps(t: TopicLog.Topic, snd: Send)
    requires Enabled(t, SendFiltered(snd))
    ensures Reachable(t) ==> Reachable(GiveUp(t, snd))
  {
    hide Reachable;
    Keeps(t, CancelTopic);
    Keeps(t.(topicDone := true), AbandonFiltered(snd));
  }

  lemma FilteredIs(t: TopicLog.Topic, snd: Send)
    requires Enabled(t, SendFiltered(snd))
    ensures var r := t.records[snd.sub];
            && GiveUp(t, snd) == t.(topicDone := true, tasks := TakeSend(t, snd), records := t.records[snd.sub := Turn(r, snd)])
            && ApplySendFiltered(t, snd) ==
               t.(tasks := TakeSend(t, snd),
                  records := t.records[snd.sub := if AllAccept(r.filters, snd.ee) then Turn(r, snd).(delivered := r.delivered + [snd]) else Turn(r, snd)])
  {
    hide AllAccept;
  }

  /** The order in which the goroutines of one `filter` call take the subscription lock. */
  ghost predicate Schedule(order: seq<nat>, n: nat) {
    multiset(order) == multiset(seq(n, i requires 0 <= i < n => i))
  }

  lemma ScheduleCovers(order: seq<nat>, n: nat, i: nat)
    requires Schedule(order, n)
    ensures i in order <==> i < n
  {
    var all := seq(n, i requires 0 <= i < n => i);
    assert i in multiset(order) <==> i in multiset(all);
    assert i < n ==> all[i] == i;
  }

  /** The parallel filters: each takes the lock, stops if the shared flag is set, and sets the flag
      if it rejects. The envelope comes back exactly when all filters accept it. */
  method FilterEnvelope(filters: seq<Filter>, ee: EventEnvelope, order: seq<nat>) returns (res: Option<EventEnvelope>)
    requires Schedule(order, |filters|)
    ensures res == if forall f :: f in filters ==> f.Accepts(ee) then Some(ee) else None
  {
    forall i: nat ensures i in order <==> i < |filters| {
      ScheduleCovers(order, |filters|, i);
    }
    assert forall j :: 0 <= j < |order| ==> order[j] in order;
    var failed := false;
    for k := 0 to |order|
      invariant failed <==> exists j :: 0 <= j < k && !filters[order[j]].Accepts(ee)
    {
      if !failed {
        if !filters[order[k]].Accepts(ee) {
          failed := true;
        }
      }
    }
    if failed {
      var j :| 0 <= j < |order| && !filters[order[j]].Accepts(ee);
      assert filters[order[j]] in filters;
      return None;
    }
    forall f | f in filters ensures f.Accepts(ee) {
      var i: nat :| i < |filters| && filters[i] == f;
      assert i in order;
      var j :| 0 <= j < |order| && order[j] == i;
      assert filters[order[j]].Accepts(ee);
    }
    return Some(ee);
  }

  /** One goroutine per subscriber, each with a snapshot of its list. */
  method SpawnBatches(subs: map<Uuid, seq<nat>>, f: FanOut) returns (bs: multiset<Batch>)
    ensures bs == multiset(set u | u in subs :: Batch(u, subs[u], f.pos, f.ee))
  {
    bs := multiset{};
    var todo := subs.Keys;
    ghost var spawned: set<Batch> := {};
    while todo != {}
      invariant todo <= subs.Keys
      invariant spawned == set u | u in subs && u !in todo :: Batch(u, subs[u], f.pos, f.ee)
      invariant bs == multiset(spawned)
    {
      var u :| u in todo;
      var b := Batch(u, subs[u], f.pos, f.ee);
      assert b !in spawned;
      bs := bs + multiset{b};
      spawned := spawned + {b};
      todo := todo - {u};
    }
    assert spawned == set u | u in subs :: Batch(u, subs[u], f.pos, f.ee);
  }

  /** One sender per subscription of the snapshot. */
  method SpawnLive(b: Batch) returns (ss: multiset<Send>)
    ensures ss == multiset(LiveSends(b))
  {
    ss := multiset{};
    for i := 0 to |b.ss|
      invariant ss == multiset(LiveSends(b)[..i])
    {
      ss := ss + multiset{Send(b.ss[i], b.pos, b.ee, Live)};
      assert LiveSends(b)[..i + 1] == LiveSends(b)[..i] + [LiveSends(b)[i]];
    }
    assert LiveSends(b)[..|b.ss|] == LiveSends(b);
  }

  /** One sender per event of the tail, numbered from 0. */
  method SpawnReplay(tail: seq<EventEnvelope>, id: nat) returns (ss: multiset<Send>)
    ensures ss == multiset(seq(|tail|, i requires 0 <= i < |tail| => Send(id, i, tail[i], Replay)))
  {
    ghost var all := seq(|tail|, i requires 0 <= i < |tail| => Send(id, i, tail[i], Replay));
    ss := multiset{};
    for pos := 0 to |tail|
      invariant ss == multiset(all[..pos])
    {
      ss := ss + multiset{Send(id, pos, tail[pos], Replay)};
      assert all[..pos + 1] == all[..pos] + [all[pos]];
    }
    assert all[..|tail|] == all;
  }

  lemma RegisterIs(t: TopicLog.Topic, ee: EventEnvelope)
    ensures ee.Check() ==>
              ApplyRegister(t, ee) ==
              t.(log := t.log.(events := t.log.events + [ee.(index := |t.log.events|)], inflight := t.log.inflight - multiset{ee}),
                 tasks := t.tasks.(fanouts := t.tasks.fanouts + multiset{FanOut(|t.log.events|, ee.(index := |t.log.events|))}))
    ensures !ee.Check() ==>
              ApplyRegister(t, ee) ==
              t.(log := t.log.(inflight := t.log.inflight - multiset{ee}, rejected := t.log.rejected + multiset{ee}))
  {
  }

  class Topic {
    var events: seq<EventEnvelope>
    var subs: map<Uuid, seq<nat>>
    var records: seq<Subscription>
    var runned: bool
    var topicDone: bool
    var serverDone: bool
    var inflight: multiset<EventEnvelope>
    var tasks: Tasks
    ghost var accepted: multiset<EventEnvelope>
    ghost var dropped: multiset<EventEnvelope>
    ghost var rejected: multiset<EventEnvelope>

    ghost function State(): TopicLog.Topic
      reads this
    {
      TopicLog.Topic(Log(events, inflight, accepted, dropped, rejected), subs, records, tasks, runned, topicDone, serverDone)
    }

    constructor ()
      ensures State() == Init() && Reachable(State())
    {
      TopicDelivery.InitReachable();
      hide Reachable;
      events, subs, records := [], map[], [];
      runned, topicDone, serverDone := true, false, false;
      inflight := multiset{};
      tasks := Tasks(multiset{}, multiset{}, multiset{}, multiset{}, multiset{});
      accepted, dropped, rejected := multiset{}, multiset{}, multiset{};
    }

    method AddEvent(topic: string, evt: Option<Event>, sender: Uuid) returns (ok: bool)
      modifies this
      ensures ok <==> evt.Some? && sender != Nil
      ensures !ok ==> State() == old(State())
      ensures inflight == old(inflight) + if ok then multiset{EventEnvelope(evt, topic, sender, 0)} else multiset{}
      ensures State() == ApplyAddEvent(old(State()), topic, evt, sender)
      ensures Reachable(old(State())) ==> Reachable(State())
    {
      hide Reachable;
      Keeps(State(), Action.AddEvent(topic, evt, sender));
      if evt.None? {
        return false;
      }
      if sender == Nil {
        return false;
      }
      var ee := EventEnvelope(evt, topic, sender, 0);
      inflight := inflight + multiset{ee};
      accepted := accepted + multiset{ee};
      return true;
    }

    /** One envelope received by the processing loop. */
    method Register(ee: EventEnvelope)
      requires runned && ee in inflight
      modifies this
      ensures State() == ApplyRegister(old(State()), ee)
      ensures inflight == old(inflight) - multiset{ee}
      ensures ee.Check() ==>
                && events == old(events) + [ee.(index := |old(events)|)] && rejected == old(rejected)
                && tasks.fanouts == old(tasks).fanouts + multiset{FanOut(|old(events)|, ee.(index := |old(events)|))}
      ensures !ee.Check() ==> events == old(events) && rejected == old(rejected) + multiset{ee} && tasks == old(tasks)
      ensures Reachable(old(State())) ==> Reachable(State())
    {
      hide Reachable;
      Keeps(State(), Action.Register(ee));
      RegisterIs(State(), ee);
      hide ApplyRegister;
      inflight := inflight - multiset{ee};
      if !ee.Check() {
        rejected := rejected + multiset{ee};
        return;
      }
      var pos := |events|;
      var st := ee.(index := pos);
      events := events + [st];
      tasks := tasks.(fanouts := tasks.fanouts + multiset{FanOut(pos, st)});
    }

    /** The processing loop, for the envelopes in flight that it receives and the order it receives
        them in, until it finds its context done. */
    method ProcessTopic(arrivals: seq<EventEnvelope>)
      requires runned && multiset(arrivals) <= inflight
      modifies this
      ensures State() == LoopRuns(old(State()), arrivals)
      ensures !runned && topicDone
      ensures Reachable(old(State())) ==> Reachable(State())
    {
      hide Reachable, ApplyRegister;
      ghost var t := State();
      LoopRunsKeeps(t, arrivals);
      for k := 0 to |arrivals|
        invariant State() == RegisterAll(t, arrivals[..k])
      {
        RegisterNext(t, arrivals, k);
        Register(arrivals[k]);
      }
      assert arrivals[..|arrivals|] == arrivals;
      topicDone := true;
      runned := false;
    }

    method UpdateSubs(f: FanOut)
      requires Enabled(State(), TopicLog.UpdateSubs(f))
      modifies this
      ensures State() == Apply(old(State()), TopicLog.UpdateSubs(f))
      ensures Reachable(old(State())) ==> Reachable(State())
    {
      hide Reachable;
      Keeps(State(), TopicLog.UpdateSubs(f));
      var bs := SpawnBatches(subs, f);
      tasks := tasks.(fanouts := tasks.fanouts - multiset{f}, batches := tasks.batches + bs);
    }

    method SpawnSends(b: Batch)
      requires Enabled(State(), TopicLog.SpawnSends(b))
      modifies this
      ensures State() == Apply(old(State()), TopicLog.SpawnSends(b))
      ensures Reachable(old(State())) ==> Reachable(State())
    {
      hide Reachable;
      Keeps(State(), TopicLog.SpawnSends(b));
      var ss := SpawnLive(b);
      tasks := tasks.(batches := tasks.batches - multiset{b}, sends := tasks.sends + ss, created := tasks.created + ss);
    }

    method Subscribe(subscriber: Uuid, startPos: int, filters: seq<Filter>) returns (ok: bool)
      modifies this
      ensures ok <==> old(runned)
      ensures State() == ApplySubscribe(old(State()), subscriber, startPos, filters)
      ensures !ok ==> State() == old(State())
      ensures ok ==>
                && records == old(records) + [Subscription(subscriber, startPos, filters, startPos, None, [], [])]
                && subs == old(subs)[subscriber := (if subscriber in old(subs) then old(subs)[subscriber] else []) + [|old(records)|]]
                && tasks.starts == old(tasks).starts + multiset{|old(records)|}
      ensures Reachable(old(State())) ==> Reachable(State())
    {
      hide Reachable;
      Keeps(State(), Action.Subscribe(subscriber, startPos, filters));
      if !runned {
        return false;
      }
      var s := if subscriber in subs then subs[subscriber] else [];
      var ns := |records|;
      records := records + [Subscription(subscriber, startPos, filters, startPos, None, [], [])];
      s := s + [ns];
      subs := subs[subscriber := s];
      tasks := tasks.(starts := tasks.starts + multiset{ns});
      return true;
    }

    method Unsubscribe(subscriber: Uuid) returns (ok: bool)
      modifies this
      ensures ok <==> old(runned) && subscriber in old(subs)
      ensures State() == ApplyUnsubscribe(old(State()), subscriber)
      ensures !ok ==> State() == old(State())
      ensures ok ==> subscriber !in subs
      ensures forall u :: u != subscriber ==> (u in subs <==> u in old(subs)) && (u in subs ==> subs[u] == old(subs)[u])
      ensures Reachable(old(State())) ==> Reachable(State())
    {
      hide Reachable;
      Keeps(State(), Action.Unsubscribe(subscriber));
      if !runned || subscriber !in subs {
        return false;
      }
      subs := subs - {subscriber};
      return true;
    }

    method StartSub(id: nat)
      requires Enabled(State(), TopicLog.StartSub(id))
      modifies this
      ensures State() == ApplyStartSub(old(State()), id)
      ensures tasks.starts == old(tasks).starts - multiset{id} && events == old(events)
      ensures old(records[id].startPos) < 0 ==> records == old(records)[id := old(records[id]).(lastReaded := |events| - 1)]
      ensures Reachable(old(State())) ==> Reachable(State())
    {
      hide Reachable;
      Keeps(State(), TopicLog.StartSub(id));
      tasks := tasks.(starts := tasks.starts - multiset{id});
      var fromID := records[id].startPos;
      if fromID < 0 {
        records := records[id := records[id].(lastReaded := |events| - 1)];
        return;
      }
      var tail := events[fromID..];
      var ss := SpawnReplay(tail, id);
      assert seq(|tail|, i requires 0 <= i < |tail| => Send(id, i, tail[i], Replay)) == ReplaySends(old(State()), id, fromID);
      tasks := tasks.(sends := tasks.sends + ss, created := tasks.created + ss);
    }

    /** An unfiltered sender from taking the lock to releasing it. The context is found done after
        `patience` passes of the wait loop; a sender that passes the guard does so in its first. */
    method SendEvent(snd: Send, patience: nat) returns (sent: bool, passes: nat)
      requires Enabled(State(), Acquire(snd))
      requires topicDone ==> patience == 0
      modifies this
      ensures sent <==> 0 < patience && old(records[snd.sub]).Guard(snd.pos)
      ensures sent ==> passes == 1 && State() == ApplyDeliver(Apply(old(State()), Acquire(snd)), snd.sub)
      ensures !sent ==> passes == patience && State() == Abandoned(Apply(old(State()), Acquire(snd)), snd.sub)
      ensures snd.sub < |records| && records[snd.sub].holder.None?
      ensures records[snd.sub].delivered == old(records[snd.sub].delivered) + if sent then [snd] else []
      ensures records[snd.sub].lastReaded == if sent then snd.pos else old(records[snd.sub].lastReaded)
      ensures Reachable(old(State())) ==> Reachable(State())
    {
      hide Reachable, Apply, ApplyDeliver, Abandoned;
      AbandonKeeps(State(), snd);
      if records[snd.sub].Guard(snd.pos) {
        DeliverKeeps(State(), snd);
      }
      var s := snd.sub;
      Lock(snd);
      ghost var held := State();
      passes := 0;
      while passes < patience
        invariant passes <= patience && State() == held
        invariant 0 < passes ==> !held.records[s].Guard(snd.pos)
      {
        passes := passes + 1;
        if (records[s].lastReaded == 0 && snd.pos == 0) || records[s].lastReaded + 1 == snd.pos {
          Put(s);
          return true, passes;
        }
      }
      LeaveLock(s);
      return false, passes;
    }

    /** The holder finds the context done and leaves. */
    method LeaveLock(s: nat)
      requires s < |records| && records[s].holder.Some?
      modifies this
      ensures State() == Abandoned(old(State()), s)
      ensures records == old(records)[s := old(records)[s].(holder := None)]
    {
      topicDone := true;
      records := records[s := records[s].(holder := None)];
    }

    /** The sender enters the subscription's lock. */
    method Lock(snd: Send)
      requires Enabled(State(), Acquire(snd))
      modifies this
      ensures State() == Apply(old(State()), Acquire(snd))
      ensures snd.sub < |records| && records[snd.sub] == Turn(old(records[snd.sub]), snd).(holder := Some(snd))
      ensures records[snd.sub].Guard(snd.pos) == old(records[snd.sub].Guard(snd.pos))
      ensures records[snd.sub].holder == Some(snd) && records[snd.sub].delivered == old(records[snd.sub].delivered)
      ensures records[snd.sub].lastReaded == old(records[snd.sub].lastReaded)
    {
      tasks := tasks.(sends := tasks.sends - multiset{snd});
      records := records[snd.sub := Turn(records[snd.sub], snd).(holder := Some(snd))];
    }

    /** The holder puts its envelope on the channel, moves the cursor and leaves. */
    method Put(s: nat)
      requires Enabled(State(), Deliver(s))
      modifies this
      ensures State() == ApplyDeliver(old(State()), s)
      ensures |records| == |old(records)| && records[s].holder.None? && records[s].lastReaded == old(records[s].holder.value.pos)
      ensures records[s].delivered == old(records[s].delivered) + [old(records[s].holder.value)]
    {
      var snd := records[s].holder.value;
      records := records[s := records[s].(delivered := records[s].delivered + [snd], lastReaded := snd.pos, holder := None)];
    }

    /** A sender of a filtering subscription; `taken` says whether its consumer takes an accepted
        envelope before the context is done. */
    method SendFilteredEvent(snd: Send, order: seq<nat>, taken: bool)
      requires Enabled(State(), SendFiltered(snd)) && Schedule(order, |records[snd.sub].filters|)
      modifies this
      ensures var accepted := AllAccept(old(records[snd.sub].filters), snd.ee);
              State() == if accepted && !taken then GiveUp(old(State()), snd) else ApplySendFiltered(old(State()), snd)
      ensures snd.sub < |records| && records[snd.sub].delivered == old(records[snd.sub].delivered) +
                if taken && AllAccept(old(records[snd.sub].filters), snd.ee) then [snd] else []
      ensures tasks.sends == old(tasks).sends - multiset{snd}
      ensures Reachable(old(State())) ==> Reachable(State())
    {
      GiveUpKeeps(State(), snd);
      Keeps(State(), SendFiltered(snd));
      hide Reachable;
      var res := FilterEnvelope(records[snd.sub].filters, snd.ee, order);
      FinishFiltered(snd, res.Some?, taken);
    }

    method FinishFiltered(snd: Send, accepted: bool, taken: bool)
      requires Enabled(State(), SendFiltered(snd)) && accepted == AllAccept(records[snd.sub].filters, snd.ee)
      modifies this
      ensures State() == if accepted && !taken then GiveUp(old(State()), snd) else ApplySendFiltered(old(State()), snd)
      ensures snd.sub < |records| && records[snd.sub].delivered == old(records[snd.sub].delivered) + if accepted && taken then [snd] else []
      ensures tasks.sends == old(tasks).sends - multiset{snd}
    {
      FilteredIs(State(), snd);
      hide AllAccept, GiveUp, ApplySendFiltered;
      var r := records[snd.sub];
      tasks := tasks.(sends := tasks.sends - multiset{snd});
      if accepted && !taken {
        topicDone := true;
      }
      records := records[snd.sub := if accepted && taken then Turn(r, snd).(delivered := r.delivered + [snd]) else Turn(r, snd)];
    }
  }
}
