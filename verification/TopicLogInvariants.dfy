/** The inductive invariant of the topic's state machine, piece by piece. */
module TopicLogInvariants {
  import opened Wrappers
  import opened Events
  import opened TopicLog

  // ---------------------------------------------------------------- the log

  /** The stored envelopes as they were accepted, before the topic stamped their index. */
  ghost function Raw(es: seq<EventEnvelope>): multiset<EventEnvelope> {
    if es == [] then multiset{} else Raw(es[..|es| - 1]) + multiset{es[|es| - 1].(index := 0)}
  }

  ghost predicate LogInv(log: Log) {
    && (forall i :: 0 <= i < |log.events| ==> log.events[i].index == i && log.events[i].Check())
    && (forall ee :: ee in log.inflight ==> ee.index == 0 && ee.Check())
    && log.rejected == multiset{}
    && log.accepted == Raw(log.events) + log.inflight + log.dropped
  }

  ghost predicate DropInv(t: Topic) {
    !t.serverDone ==> t.log.dropped == multiset{}
  }

  lemma RawSnoc(es: seq<EventEnvelope>, e: EventEnvelope)
    ensures Raw(es + [e]) == Raw(es) + multiset{e.(index := 0)}
  {
    assert (es + [e])[..|es + [e]| - 1] == es;
  }

  lemma RegisterLog(log: Log, log': Log, ee: EventEnvelope)
    requires LogInv(log) && ee in log.inflight
    requires log' == log.(events := log.events + [Stored(ee, |log.events|)], inflight := log.inflight - multiset{ee})
    ensures LogInv(log')
  {
    RawSnoc(log.events, Stored(ee, |log.events|));
    assert Stored(ee, |log.events|).(index := 0) == ee;
  }

  lemma RegisterStores(t: Topic, a: Action)
    requires LogInv(t.log) && Enabled(t, a) && a.Register?
    ensures Apply(t, a).log == t.log.(events := t.log.events + [Stored(a.ee, |t.log.events|)],
                                      inflight := t.log.inflight - multiset{a.ee})
    ensures Apply(t, a).serverDone == t.serverDone
  {
  }

  lemma FeedLog(t: Topic, a: Action)
    requires LogInv(t.log) && DropInv(t) && Enabled(t, a) && (a.AddEvent? || a.DropEvent?)
    ensures LogInv(Apply(t, a).log) && DropInv(Apply(t, a))
  {
  }

  lemma QuietLog(t: Topic, a: Action)
    requires Enabled(t, a) && !a.Register? && !a.AddEvent? && !a.DropEvent?
    ensures Apply(t, a).log == t.log && (t.serverDone ==> Apply(t, a).serverDone)
  {
  }

  lemma LogStep(t: Topic, a: Action)
    requires LogInv(t.log) && DropInv(t) && Enabled(t, a)
    ensures LogInv(Apply(t, a).log) && DropInv(Apply(t, a))
  {
    if a.Register? {
      assert a.ee in t.log.inflight;
    }
    hide Apply, Enabled, LogInv;
    if a.Register? {
      RegisterStores(t, a);
      RegisterLog(t.log, Apply(t, a).log, a.ee);
    } else if a.AddEvent? || a.DropEvent? {
      FeedLog(t, a);
    } else {
      QuietLog(t, a);
    }
  }

  // ---------------------------------------------------------------- steps that only shrink

  /** The log only grows at its end, and a subscription keeps its owner, start and filters. */
  ghost predicate Extends(t: Topic, t': Topic) {
    && t.log.events <= t'.log.events
    && |t.records| <= |t'.records|
    && forall s :: 0 <= s < |t.records| ==> SameRequest(t.records[s], t'.records[s])
  }

  ghost predicate SameRequest(r: Subscription, r': Subscription) {
    r'.subscriber == r.subscriber && r'.startPos == r.startPos && r'.filters == r.filters
  }

  /** No goroutine was started, no subscriber's list grew. */
  ghost predicate Shrinks(t: Topic, t': Topic) {
    && Extends(t, t')
    && (forall u :: u in t'.subs ==> u in t.subs && t'.subs[u] == t.subs[u])
    && t'.tasks.fanouts <= t.tasks.fanouts
    && t'.tasks.batches <= t.tasks.batches
    && t'.tasks.starts <= t.tasks.starts
    && t'.tasks.created == t.tasks.created
  }

  ghost predicate Spawns(a: Action) {
    a.Register? || a.UpdateSubs? || a.SpawnSends? || a.Subscribe? || a.StartSub?
  }

  ghost predicate TouchesRecord(a: Action) {
    a.Acquire? || a.Deliver? || a.Abandon? || a.SendFiltered? || a.AbandonFiltered?
  }

  function Touched(a: Action): nat
    requires TouchesRecord(a)
  {
    match a
    case Acquire(snd) => snd.sub
    case SendFiltered(snd) => snd.sub
    case AbandonFiltered(snd) => snd.sub
    case Deliver(id) => id
    case Abandon(id) => id
  }

  lemma RecordStep(t: Topic, a: Action)
    requires Enabled(t, a) && TouchesRecord(a)
    ensures Touched(a) < |t.records|
    ensures var t' := Apply(t, a);
            var s := Touched(a);
            && t' == t.(records := t'.records, tasks := t'.tasks)
            && t'.tasks == t.tasks.(sends := t'.tasks.sends)
            && |t'.records| == |t.records| && t'.records == t.records[s := t'.records[s]]
            && SameRequest(t.records[s], t'.records[s])
  {
  }

  lemma OtherStep(t: Topic, a: Action)
    requires Enabled(t, a) && !Spawns(a) && !TouchesRecord(a)
    ensures var t' := Apply(t, a);
            && t'.records == t.records && t'.tasks == t.tasks && t'.log.events == t.log.events
            && (forall u :: u in t'.subs ==> u in t.subs && t'.subs[u] == t.subs[u])
            && (t.topicDone ==> t'.topicDone)
  {
  }

  /** Everything but the five spawning actions leaves all goroutines except senders alone. */
  lemma QuietShrinks(t: Topic, a: Action)
    requires Enabled(t, a) && !Spawns(a)
    ensures Shrinks(t, Apply(t, a)) && Apply(t, a).log.events == t.log.events
    ensures Apply(t, a).tasks == t.tasks.(sends := Apply(t, a).tasks.sends)
  {
    hide Apply, Enabled;
    if TouchesRecord(a) {
      RecordStep(t, a);
    } else {
      OtherStep(t, a);
    }
  }

  lemma SpawnAppends(t: Topic, a: Action)
    requires Enabled(t, a) && Spawns(a)
    ensures t.log.events <= Apply(t, a).log.events
  {
  }

  lemma StepAppends(t: Topic, a: Action)
    requires Enabled(t, a)
    ensures t.log.events <= Apply(t, a).log.events
  {
    hide Apply, Enabled;
    if Spawns(a) {
      SpawnAppends(t, a);
    } else {
      QuietShrinks(t, a);
    }
  }

  // ---------------------------------------------------------------- names of subscriptions

  ghost predicate NoDup(ss: seq<nat>) {
    forall i, j :: 0 <= i < j < |ss| ==> ss[i] != ss[j]
  }

  ghost predicate Owned(records: seq<Subscription>, subscriber: Uuid, ss: seq<nat>) {
    && NoDup(ss)
    && forall s :: s in ss ==> s < |records| && records[s].subscriber == subscriber
  }

  /** A live task carries the event stored at its own position; a replay task the event that is
      `startPos` places further on. */
  ghost predicate Carries(t: Topic, snd: Send) {
    && snd.sub < |t.records|
    && match snd.source
       case Live => 0 <= snd.pos < |t.log.events| && snd.ee == t.log.events[snd.pos]
       case Replay =>
         var from := t.records[snd.sub].startPos;
         0 <= from && 0 <= snd.pos && from + snd.pos < |t.log.events| && snd.ee == t.log.events[from + snd.pos]
  }

  ghost predicate FanOutCarries(t: Topic, f: FanOut) {
    f.pos < |t.log.events| && f.ee == t.log.events[f.pos]
  }

  ghost predicate BatchCarries(t: Topic, b: Batch) {
    b.pos < |t.log.events| && b.ee == t.log.events[b.pos] && Owned(t.records, b.subscriber, b.ss)
  }

  /** Lists name existing subscriptions of their subscriber; every goroutine carries its event. */
  ghost predicate CarryInv(t: Topic) {
    && (forall u :: u in t.subs ==> Owned(t.records, u, t.subs[u]))
    && (forall f :: f in t.tasks.fanouts ==> FanOutCarries(t, f))
    && (forall b :: b in t.tasks.batches ==> BatchCarries(t, b))
    && (forall id :: id in t.tasks.starts ==> id < |t.records|)
    && (forall snd :: snd in t.tasks.created ==> Carries(t, snd))
  }

  lemma OwnedExtends(t: Topic, t': Topic, u: Uuid, ss: seq<nat>)
    requires Extends(t, t') && Owned(t.records, u, ss)
    ensures Owned(t'.records, u, ss)
  {
    forall s | s in ss ensures s < |t'.records| && t'.records[s].subscriber == u {
      assert SameRequest(t.records[s], t'.records[s]);
    }
  }

  lemma CarriesExtends(t: Topic, t': Topic, snd: Send)
    requires Extends(t, t') && Carries(t, snd)
    ensures Carries(t', snd)
  {
    assert SameRequest(t.records[snd.sub], t'.records[snd.sub]);
  }

  /** What one pre-state establishes for the old goroutines of the post-state. */
  lemma CarryExtends(t: Topic, t': Topic)
    requires CarryInv(t) && Extends(t, t')
    ensures forall u :: u in t.subs ==> Owned(t'.records, u, t.subs[u])
    ensures forall f :: f in t.tasks.fanouts ==> FanOutCarries(t', f)
    ensures forall b :: b in t.tasks.batches ==> BatchCarries(t', b)
    ensures forall snd :: snd in t.tasks.created ==> Carries(t', snd)
  {
    forall u | u in t.subs ensures Owned(t'.records, u, t.subs[u]) {
      OwnedExtends(t, t', u, t.subs[u]);
    }
    forall b | b in t.tasks.batches ensures BatchCarries(t', b) {
      assert BatchCarries(t, b);
      OwnedExtends(t, t', b.subscriber, b.ss);
    }
    forall f | f in t.tasks.fanouts ensures FanOutCarries(t', f) {
      assert FanOutCarries(t, f);
    }
    forall snd | snd in t.tasks.created ensures Carries(t', snd) {
      CarriesExtends(t, t', snd);
    }
  }

  // ---------------------------------------------------------------- each source creates a task once

  ghost predicate FanOutFresh(t: Topic, f: FanOut) {
    && (forall b :: b in t.tasks.batches ==> b.pos != f.pos)
    && (forall snd :: snd in t.tasks.created && snd.source == Live ==> snd.pos != f.pos)
  }

  ghost predicate BatchFresh(t: Topic, b: Batch) {
    && (forall snd :: snd in t.tasks.created && snd.source == Live && snd.pos == b.pos ==> snd.sub !in b.ss)
    && (forall c :: c in t.tasks.batches && c.pos == b.pos && c.subscriber == b.subscriber ==> c == b)
  }

  ghost predicate OnceInv(t: Topic) {
    && (forall f :: t.tasks.fanouts[f] <= 1)
    && (forall b :: t.tasks.batches[b] <= 1)
    && (forall id :: t.tasks.starts[id] <= 1)
    && (forall snd :: t.tasks.created[snd] <= 1)
    && (forall f :: f in t.tasks.fanouts ==> FanOutFresh(t, f))
    && (forall b :: b in t.tasks.batches ==> BatchFresh(t, b))
    && (forall snd :: snd in t.tasks.created && snd.source == Replay ==> snd.sub !in t.tasks.starts)
  }

  ghost predicate TaskInv(t: Topic) {
    CarryInv(t) && OnceInv(t)
  }

  lemma TaskShrinks(t: Topic, t': Topic)
    requires TaskInv(t) && Shrinks(t, t')
    ensures TaskInv(t')
  {
    CarryExtends(t, t');
    assert CarryInv(t');
    forall f | f in t'.tasks.fanouts ensures FanOutFresh(t', f) {
      assert FanOutFresh(t, f);
    }
    forall b | b in t'.tasks.batches ensures BatchFresh(t', b) {
      assert BatchFresh(t, b);
    }
  }

  lemma {:induction false} CountOfDistinct<T>(s: seq<T>, x: T)
    requires forall i, j :: 0 <= i < j < |s| ==> s[i] != s[j]
    ensures multiset(s)[x] <= 1
  {
    if s != [] {
      var rest := s[..|s| - 1];
      CountOfDistinct(rest, x);
      assert s == rest + [s[|s| - 1]];
      if x == s[|s| - 1] {
        assert x !in rest;
      }
    }
  }

  lemma LiveSendsOnce(b: Batch, snd: Send)
    requires NoDup(b.ss)
    ensures multiset(LiveSends(b))[snd] <= 1
    ensures snd in multiset(LiveSends(b)) <==>
            snd.source == Live && snd.pos == b.pos && snd.ee == b.ee && snd.sub in b.ss
  {
    CountOfDistinct(LiveSends(b), snd);
    if snd in multiset(LiveSends(b)) {
      assert snd in LiveSends(b);
    }
    if snd.source == Live && snd.pos == b.pos && snd.ee == b.ee && snd.sub in b.ss {
      var i :| 0 <= i < |b.ss| && b.ss[i] == snd.sub;
      assert LiveSends(b)[i] == snd;
    }
  }

  lemma ReplaySendsOnce(t: Topic, id: nat, from: nat, snd: Send)
    requires from <= |t.log.events|
    ensures multiset(ReplaySends(t, id, from))[snd] <= 1
    ensures snd in multiset(ReplaySends(t, id, from)) <==>
            && snd.source == Replay && snd.sub == id && 0 <= snd.pos && from + snd.pos < |t.log.events|
            && snd.ee == t.log.events[from + snd.pos]
  {
    var rs := ReplaySends(t, id, from);
    CountOfDistinct(rs, snd);
    if snd in multiset(rs) {
      assert snd in rs;
    }
    if 0 <= snd.pos && from + snd.pos < |t.log.events| && snd == Send(id, snd.pos, t.log.events[from + snd.pos], Replay) {
      assert rs[snd.pos] == snd;
    }
  }

  /** Freshness depends only on the batches and the created tasks. */
  lemma SameFreshness(t: Topic, t': Topic)
    requires OnceInv(t)
    requires t'.tasks.fanouts == t.tasks.fanouts && t'.tasks.batches == t.tasks.batches && t'.tasks.created == t.tasks.created
    ensures forall f :: f in t.tasks.fanouts ==> FanOutFresh(t', f)
    ensures forall b :: b in t.tasks.batches ==> BatchFresh(t', b)
  {
    forall f | f in t'.tasks.fanouts ensures FanOutFresh(t', f) {
      assert FanOutFresh(t, f);
    }
    forall b | b in t'.tasks.batches ensures BatchFresh(t', b) {
      assert BatchFresh(t, b);
    }
  }

  lemma TaskRegister(t: Topic, t': Topic, f: FanOut)
    requires TaskInv(t)
    requires t'.log.events == t.log.events + [f.ee] && f.pos == |t.log.events|
    requires t'.records == t.records && t'.subs == t.subs
    requires t'.tasks == t.tasks.(fanouts := t.tasks.fanouts + multiset{f})
    ensures TaskInv(t')
  {
    CarryExtends(t, t');
    assert f !in t.tasks.fanouts by {
      assert f in t.tasks.fanouts ==> FanOutCarries(t, f);
    }
    forall g | g in t'.tasks.fanouts ensures FanOutFresh(t', g) && FanOutCarries(t', g) {
      if g in t.tasks.fanouts {
        assert FanOutFresh(t, g);
      } else {
        assert forall b :: b in t.tasks.batches ==> BatchCarries(t, b);
        assert forall snd :: snd in t.tasks.created ==> Carries(t, snd);
      }
    }
    forall b | b in t'.tasks.batches ensures BatchFresh(t', b) {
      assert BatchFresh(t, b);
    }
  }

  lemma CarryUpdateSubs(t: Topic, t': Topic, f: FanOut)
    requires CarryInv(t) && f in t.tasks.fanouts
    requires t'.log == t.log && t'.records == t.records && t'.subs == t.subs
    requires t'.tasks == t.tasks.(fanouts := t.tasks.fanouts - multiset{f}, batches := t.tasks.batches + multiset(Batches(t, f)))
    ensures CarryInv(t')
  {
    CarryExtends(t, t');
    assert FanOutCarries(t, f);
  }

  lemma TaskUpdateSubs(t: Topic, t': Topic, f: FanOut)
    requires TaskInv(t) && f in t.tasks.fanouts
    requires t'.log == t.log && t'.records == t.records && t'.subs == t.subs
    requires t'.tasks == t.tasks.(fanouts := t.tasks.fanouts - multiset{f}, batches := t.tasks.batches + multiset(Batches(t, f)))
    ensures TaskInv(t')
  {
    CarryUpdateSubs(t, t', f);
    assert FanOutFresh(t, f) && FanOutCarries(t, f);
    forall b | b in t'.tasks.batches ensures BatchFresh(t', b) {
      if b in t.tasks.batches {
        assert BatchFresh(t, b);
      }
    }
    forall g | g in t'.tasks.fanouts ensures FanOutFresh(t', g) {
      assert FanOutFresh(t, g) && FanOutCarries(t, g);
      assert g != f;
      assert g.pos == f.pos ==> g == f;
    }
  }

  ghost predicate Creates(t: Topic, t': Topic, new_: multiset<Send>) {
    && t'.log == t.log && t'.records == t.records && t'.subs == t.subs
    && t'.tasks.fanouts == t.tasks.fanouts && t'.tasks.batches <= t.tasks.batches && t'.tasks.starts <= t.tasks.starts
    && t'.tasks.created == t.tasks.created + new_
    && (forall snd :: new_[snd] <= 1)
    && (forall snd :: snd in new_ ==> snd !in t.tasks.created && Carries(t, snd))
  }

  lemma CarryCreates(t: Topic, t': Topic, new_: multiset<Send>)
    requires CarryInv(t) && Creates(t, t', new_)
    ensures CarryInv(t')
  {
    CarryExtends(t, t');
    forall snd | snd in t'.tasks.created ensures Carries(t', snd) {
      assert Carries(t, snd);
    }
  }

  /** Creating send tasks that are new, once each. */
  lemma TaskCreates(t: Topic, t': Topic, new_: multiset<Send>)
    requires TaskInv(t) && Creates(t, t', new_)
    requires forall snd :: snd in new_ && snd.source == Replay ==> snd.sub !in t'.tasks.starts
    requires forall snd, f :: snd in new_ && snd.source == Live && f in t.tasks.fanouts ==> f.pos != snd.pos
    requires forall snd, b :: snd in new_ && snd.source == Live && b in t'.tasks.batches && b.pos == snd.pos ==> snd.sub !in b.ss
    ensures TaskInv(t')
  {
    CarryCreates(t, t', new_);
    hide Carries;
    forall f | f in t'.tasks.fanouts ensures FanOutFresh(t', f) {
      assert FanOutFresh(t, f);
    }
    forall b | b in t'.tasks.batches ensures BatchFresh(t', b) {
      assert BatchFresh(t, b);
    }
  }

  lemma SpawnCreates(t: Topic, t': Topic, b: Batch)
    requires TaskInv(t) && b in t.tasks.batches
    requires t'.log == t.log && t'.records == t.records && t'.subs == t.subs
    requires t'.tasks == AddSends(t.tasks.(batches := t.tasks.batches - multiset{b}), LiveSends(b))
    ensures Creates(t, t', multiset(LiveSends(b)))
    ensures forall snd :: snd in multiset(LiveSends(b)) ==> snd.source == Live && snd.pos == b.pos && snd.sub in b.ss
  {
    assert BatchFresh(t, b) && BatchCarries(t, b);
    forall snd ensures multiset(LiveSends(b))[snd] <= 1
      ensures snd in multiset(LiveSends(b)) ==>
              snd.source == Live && snd.pos == b.pos && snd.ee == b.ee && snd.sub in b.ss && snd !in t.tasks.created && Carries(t, snd) {
      LiveSendsOnce(b, snd);
    }
  }

  lemma TaskSpawnSends(t: Topic, t': Topic, b: Batch)
    requires TaskInv(t) && b in t.tasks.batches
    requires t'.log == t.log && t'.records == t.records && t'.subs == t.subs
    requires t'.tasks == AddSends(t.tasks.(batches := t.tasks.batches - multiset{b}), LiveSends(b))
    ensures TaskInv(t')
  {
    SpawnCreates(t, t', b);
    assert forall f :: f in t.tasks.fanouts ==> FanOutFresh(t, f);
    forall c | c in t'.tasks.batches && c.pos == b.pos ensures forall s :: s in b.ss ==> s !in c.ss {
      assert c != b && BatchFresh(t, c) && BatchCarries(t, c) && BatchCarries(t, b);
    }
    hide BatchFresh, BatchCarries, Carries, FanOutFresh, Creates, LiveSends, NoDup;
    TaskCreates(t, t', multiset(LiveSends(b)));
  }

  lemma ReplayCreates(t: Topic, t': Topic, id: nat, from: nat)
    requires OnceInv(t) && id in t.tasks.starts && id < |t.records| && from == t.records[id].startPos && from <= |t.log.events|
    requires t'.log == t.log && t'.records == t.records && t'.subs == t.subs
    requires t'.tasks == AddSends(t.tasks.(starts := t.tasks.starts - multiset{id}), ReplaySends(t, id, from))
    ensures Creates(t, t', multiset(ReplaySends(t, id, from))) && id !in t'.tasks.starts
    ensures forall snd :: snd in multiset(ReplaySends(t, id, from)) ==> snd.source == Replay && snd.sub == id
  {
    var new_ := multiset(ReplaySends(t, id, from));
    forall snd ensures new_[snd] <= 1
      ensures snd in new_ ==> snd.source == Replay && snd.sub == id && Carries(t, snd) {
      ReplaySendsOnce(t, id, from, snd);
    }
  }

  lemma TaskReplay(t: Topic, t': Topic, id: nat, from: nat)
    requires TaskInv(t) && id in t.tasks.starts && id < |t.records| && from == t.records[id].startPos && from <= |t.log.events|
    requires t'.log == t.log && t'.records == t.records && t'.subs == t.subs
    requires t'.tasks == AddSends(t.tasks.(starts := t.tasks.starts - multiset{id}), ReplaySends(t, id, from))
    ensures TaskInv(t')
  {
    hide CarryInv, OnceInv, Creates, AddSends, ReplaySends;
    ReplayCreates(t, t', id, from);
    hide TaskInv;
    TaskCreates(t, t', multiset(ReplaySends(t, id, from)));
  }

  lemma OwnedSnoc(records: seq<Subscription>, r: Subscription, list: seq<nat>)
    requires Owned(records, r.subscriber, list)
    ensures Owned(records + [r], r.subscriber, list + [|records|])
  {
    forall i, j | 0 <= i < j < |list| + 1 ensures (list + [|records|])[i] != (list + [|records|])[j] {
      assert list[i] in list;
    }
    forall s | s in list + [|records|] ensures s < |records + [r]| && (records + [r])[s].subscriber == r.subscriber {
      assert s in list || s == |records|;
    }
  }

  lemma TaskSubscribe(t: Topic, t': Topic, r: Subscription)
    requires TaskInv(t) && t'.log == t.log
    requires t'.records == t.records + [r]
    requires t'.subs == t.subs[r.subscriber := (if r.subscriber in t.subs then t.subs[r.subscriber] else []) + [|t.records|]]
    requires t'.tasks == t.tasks.(starts := t.tasks.starts + multiset{|t.records|})
    ensures TaskInv(t')
  {
    CarryExtends(t, t');
    var list := if r.subscriber in t.subs then t.subs[r.subscriber] else [];
    OwnedSnoc(t.records, r, list);
    assert |t.records| !in t.tasks.starts;
    forall snd | snd in t.tasks.created && snd.source == Replay ensures snd.sub !in t'.tasks.starts {
      assert Carries(t, snd);
    }
    SameFreshness(t, t');
  }

  lemma TaskSpawnStep(t: Topic, a: Action)
    requires TaskInv(t) && Enabled(t, a) && (a.UpdateSubs? || a.SpawnSends?)
    ensures TaskInv(Apply(t, a))
  {
    if a.UpdateSubs? {
      TaskUpdateSubs(t, Apply(t, a), a.f);
    } else {
      TaskSpawnSends(t, Apply(t, a), a.b);
    }
  }

  lemma TaskRegisterStep(t: Topic, a: Action)
    requires TaskInv(t) && Enabled(t, a) && a.Register?
    ensures TaskInv(Apply(t, a))
  {
    if a.ee.Check() {
      TaskRegister(t, Apply(t, a), FanOut(|t.log.events|, Stored(a.ee, |t.log.events|)));
    } else {
      TaskShrinks(t, Apply(t, a));
    }
  }

  lemma TaskSubscribeStep(t: Topic, a: Action)
    requires TaskInv(t) && Enabled(t, a) && a.Subscribe?
    ensures TaskInv(Apply(t, a))
  {
    if t.runned {
      TaskSubscribe(t, Apply(t, a), Subscription(a.subscriber, a.startPos, a.filters, a.startPos, None, [], []));
    }
  }

  lemma StartResets(t: Topic, id: nat)
    requires Enabled(t, StartSub(id)) && t.records[id].startPos < 0
    ensures ApplyStartSub(t, id) == t.(records := t.records[id := t.records[id].(lastReaded := |t.log.events| - 1)],
                                       tasks := t.tasks.(starts := t.tasks.starts - multiset{id}))
  {
  }

  lemma TaskReset(t: Topic, t': Topic, id: nat)
    requires TaskInv(t) && id < |t.records|
    requires t'.log == t.log && t'.subs == t.subs
    requires t'.records == t.records[id := t.records[id].(lastReaded := |t.log.events| - 1)]
    requires t'.tasks == t.tasks.(starts := t.tasks.starts - multiset{id})
    ensures TaskInv(t')
  {
    hide TaskInv;
    TaskShrinks(t, t');
  }

  lemma TaskStart(t: Topic, id: nat)
    requires TaskInv(t) && Enabled(t, StartSub(id))
    ensures TaskInv(ApplyStartSub(t, id))
  {
    hide TaskInv;
    if t.records[id].startPos >= 0 {
      TaskReplay(t, ApplyStartSub(t, id), id, t.records[id].startPos);
    } else {
      StartResets(t, id);
      hide ApplyStartSub, Enabled;
      TaskReset(t, ApplyStartSub(t, id), id);
    }
  }

  lemma StartIsApply(t: Topic, a: Action)
    requires a.StartSub? && Enabled(t, a)
    ensures a == StartSub(a.id) && Apply(t, a) == ApplyStartSub(t, a.id)
  {
  }

  lemma TaskStep(t: Topic, a: Action)
    requires TaskInv(t) && Enabled(t, a)
    ensures TaskInv(Apply(t, a))
  {
    hide Apply, ApplyStartSub, Enabled, TaskInv;
    if !Spawns(a) {
      QuietShrinks(t, a);
      TaskShrinks(t, Apply(t, a));
    } else if a.Register? {
      TaskRegisterStep(t, a);
    } else if a.UpdateSubs? || a.SpawnSends? {
      TaskSpawnStep(t, a);
    } else if a.Subscribe? {
      TaskSubscribeStep(t, a);
    } else {
      StartIsApply(t, a);
      TaskStart(t, a.id);
    }
  }
}
