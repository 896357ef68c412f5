/** One topic of the event server as a state machine. Every goroutine is a pending task and every
    locked section of the source is one action, so a run is any interleaving of them. */
module TopicLog {
  import opened Wrappers
  import opened Events

  /** Which of the two independent sources created a `sendEvent` goroutine. */
  datatype Source = Replay | Live

  /** A `sendEvent` goroutine: subscription, position and envelope. */
  datatype Send = Send(sub: nat, pos: int, ee: EventEnvelope, source: Source)

  /** An `updateSubs` goroutine. */
  datatype FanOut = FanOut(pos: nat, ee: EventEnvelope)

  /** The goroutine `updateSubs` starts for one subscriber, with its snapshot of the list. */
  datatype Batch = Batch(subscriber: Uuid, ss: seq<nat>, pos: nat, ee: EventEnvelope)

  /** A subscription. `holder` is the task inside its lock; `acquired` and `delivered` are histories
      of the tasks that took their turn and of the envelopes put on the channel. */
  datatype Subscription = Subscription(
    subscriber: Uuid,
    startPos: int,
    filters: seq<Filter>,
    lastReaded: int,
    holder: Option<Send>,
    acquired: seq<Send>,
    delivered: seq<Send>)
  {
    /** The condition under which a sequential sender leaves its wait loop. */
    predicate Guard(pos: int) {
      (lastReaded == 0 && pos == 0) || lastReaded + 1 == pos
    }

    predicate FromBegin() { startPos == 0 && filters == [] }

    predicate OnlyNew() { startPos < 0 && filters == [] }

    function Held(): seq<Send> {
      if holder.Some? then [holder.value] else []
    }
  }

  /** The stored events, the envelopes waiting to enter, and the history of accepted, dropped and
      rejected ones. */
  datatype Log = Log(
    events: seq<EventEnvelope>,
    inflight: multiset<EventEnvelope>,
    accepted: multiset<EventEnvelope>,
    dropped: multiset<EventEnvelope>,
    rejected: multiset<EventEnvelope>)

  /** The pending goroutines, and the history of the `sendEvent` goroutines created. */
  datatype Tasks = Tasks(
    fanouts: multiset<FanOut>,
    batches: multiset<Batch>,
    starts: multiset<nat>,
    sends: multiset<Send>,
    created: multiset<Send>)

  /** The topic: its log, its subscribers' lists, its subscriptions (named by their place in
      `records`), its goroutines, and the state of its loop and of the two contexts. */
  datatype Topic = Topic(
    log: Log,
    subs: map<Uuid, seq<nat>>,
    records: seq<Subscription>,
    tasks: Tasks,
    runned: bool,
    topicDone: bool,
    serverDone: bool)

  function Init(): Topic {
    Topic(Log([], multiset{}, multiset{}, multiset{}, multiset{}), map[], [],
          Tasks(multiset{}, multiset{}, multiset{}, multiset{}, multiset{}), true, false, false)
  }

  datatype Action =
    | AddEvent(topic: string, evt: Option<Event>, sender: Uuid)
    | DropEvent(ee: EventEnvelope)
    | Register(ee: EventEnvelope)
    | UpdateSubs(f: FanOut)
    | SpawnSends(b: Batch)
    | Subscribe(subscriber: Uuid, startPos: int, filters: seq<Filter>)
    | Unsubscribe(subscriber: Uuid)
    | StartSub(id: nat)
    | Acquire(snd: Send)
    | Deliver(id: nat)
    | Abandon(id: nat)
    | SendFiltered(snd: Send)
    | AbandonFiltered(snd: Send)
    | CancelTopic
    | CancelServer
    | LoopExit

  predicate Enabled(t: Topic, a: Action) {
    match a
    case AddEvent(_, _, _) => true
    case DropEvent(ee) => t.serverDone && ee in t.log.inflight
    case Register(ee) => t.runned && ee in t.log.inflight
    case UpdateSubs(f) => f in t.tasks.fanouts
    case SpawnSends(b) => b in t.tasks.batches
    case Subscribe(_, _, _) => true
    case Unsubscribe(_) => true
    case StartSub(id) =>
      && id in t.tasks.starts && id < |t.records|
      && t.records[id].startPos <= |t.log.events|
      && (t.records[id].startPos < 0 ==> t.records[id].holder.None?)
    case Acquire(snd) =>
      && snd in t.tasks.sends && snd.sub < |t.records|
      && t.records[snd.sub].filters == [] && t.records[snd.sub].holder.None?
    case Deliver(id) =>
      && id < |t.records| && t.records[id].holder.Some?
      && t.records[id].Guard(t.records[id].holder.value.pos)
    case Abandon(id) => t.topicDone && id < |t.records| && t.records[id].holder.Some?
    case SendFiltered(snd) => snd in t.tasks.sends && snd.sub < |t.records| && t.records[snd.sub].filters != []
    case AbandonFiltered(snd) =>
      t.topicDone && snd in t.tasks.sends && snd.sub < |t.records| && t.records[snd.sub].filters != []
    case CancelTopic => true
    case CancelServer => true
    case LoopExit => t.topicDone
  }

  /** The envelope as the topic stores it. */
  function Stored(ee: EventEnvelope, pos: nat): EventEnvelope {
    ee.(index := pos)
  }

  function ApplyAddEvent(t: Topic, topic: string, evt: Option<Event>, sender: Uuid): Topic {
    if evt.None? || sender == Nil then t
    else
      var ee := EventEnvelope(evt, topic, sender, 0);
      t.(log := t.log.(inflight := t.log.inflight + multiset{ee}, accepted := t.log.accepted + multiset{ee}))
  }

  function ApplyRegister(t: Topic, ee: EventEnvelope): Topic {
    var log := t.log.(inflight := t.log.inflight - multiset{ee});
    if !ee.Check() then t.(log := log.(rejected := log.rejected + multiset{ee}))
    else
      var pos := |log.events|;
      var st := Stored(ee, pos);
      t.(log := log.(events := log.events + [st]),
         tasks := t.tasks.(fanouts := t.tasks.fanouts + multiset{FanOut(pos, st)}))
  }

  function Batches(t: Topic, f: FanOut): set<Batch> {
    set u | u in t.subs :: Batch(u, t.subs[u], f.pos, f.ee)
  }

  function LiveSends(b: Batch): seq<Send> {
    seq(|b.ss|, i requires 0 <= i < |b.ss| => Send(b.ss[i], b.pos, b.ee, Live))
  }

  /** The replay numbers the events of the tail from 0, whatever position the tail starts at. */
  function ReplaySends(t: Topic, id: nat, from: nat): seq<Send>
    requires from <= |t.log.events|
  {
    seq(|t.log.events| - from, i requires 0 <= i < |t.log.events| - from => Send(id, i, t.log.events[from + i], Replay))
  }

  function AddSends(tasks: Tasks, ss: seq<Send>): Tasks {
    tasks.(sends := tasks.sends + multiset(ss), created := tasks.created + multiset(ss))
  }

  function TakeSend(t: Topic, snd: Send): Tasks {
    t.tasks.(sends := t.tasks.sends - multiset{snd})
  }

  function ApplySubscribe(t: Topic, subscriber: Uuid, startPos: int, filters: seq<Filter>): Topic {
    if !t.runned then t
    else
      var list := if subscriber in t.subs then t.subs[subscriber] else [];
      t.(records := t.records + [Subscription(subscriber, startPos, filters, startPos, None, [], [])],
         subs := t.subs[subscriber := list + [|t.records|]],
         tasks := t.tasks.(starts := t.tasks.starts + multiset{|t.records|}))
  }

  function ApplyUnsubscribe(t: Topic, subscriber: Uuid): Topic {
    if !t.runned || subscriber !in t.subs then t else t.(subs := t.subs - {subscriber})
  }

  function ApplyStartSub(t: Topic, id: nat): Topic
    requires Enabled(t, StartSub(id))
  {
    var r := t.records[id];
    var tasks := t.tasks.(starts := t.tasks.starts - multiset{id});
    if r.startPos < 0 then
      t.(records := t.records[id := r.(lastReaded := |t.log.events| - 1)], tasks := tasks)
    else
      t.(tasks := AddSends(tasks, ReplaySends(t, id, r.startPos)))
  }

  function Turn(r: Subscription, snd: Send): Subscription {
    r.(acquired := r.acquired + [snd])
  }

  function ApplyDeliver(t: Topic, id: nat): Topic
    requires Enabled(t, Deliver(id))
  {
    var r := t.records[id];
    var snd := r.holder.value;
    t.(records := t.records[id := r.(delivered := r.delivered + [snd], lastReaded := snd.pos, holder := None)])
  }

  function ApplySendFiltered(t: Topic, snd: Send): Topic
    requires Enabled(t, SendFiltered(snd))
  {
    var r := Turn(t.records[snd.sub], snd);
    var r' := if AllAccept(r.filters, snd.ee) then r.(delivered := r.delivered + [snd]) else r;
    t.(tasks := TakeSend(t, snd), records := t.records[snd.sub := r'])
  }

  function Apply(t: Topic, a: Action): Topic
    requires Enabled(t, a)
  {
    match a
    case AddEvent(topic, evt, sender) => ApplyAddEvent(t, topic, evt, sender)
    case DropEvent(ee) =>
      t.(log := t.log.(inflight := t.log.inflight - multiset{ee}, dropped := t.log.dropped + multiset{ee}))
    case Register(ee) => ApplyRegister(t, ee)
    case UpdateSubs(f) =>
      t.(tasks := t.tasks.(fanouts := t.tasks.fanouts - multiset{f},
                           batches := t.tasks.batches + multiset(Batches(t, f))))
    case SpawnSends(b) =>
      t.(tasks := AddSends(t.tasks.(batches := t.tasks.batches - multiset{b}), LiveSends(b)))
    case Subscribe(subscriber, startPos, filters) => ApplySubscribe(t, subscriber, startPos, filters)
    case Unsubscribe(subscriber) => ApplyUnsubscribe(t, subscriber)
    case StartSub(id) => ApplyStartSub(t, id)
    case Acquire(snd) =>
      t.(tasks := TakeSend(t, snd),
         records := t.records[snd.sub := Turn(t.records[snd.sub], snd).(holder := Some(snd))])
    case Deliver(id) => ApplyDeliver(t, id)
    case Abandon(id) => t.(records := t.records[id := t.records[id].(holder := None)])
    case SendFiltered(snd) => ApplySendFiltered(t, snd)
    case AbandonFiltered(snd) =>
      t.(tasks := TakeSend(t, snd), records := t.records[snd.sub := Turn(t.records[snd.sub], snd)])
    case CancelTopic => t.(topicDone := true)
    case CancelServer => t.(topicDone := true, serverDone := true)
    case LoopExit => t.(runned := false)
  }

  ghost predicate Step(t: Topic, a: Action, t': Topic) {
    Enabled(t, a) && t' == Apply(t, a)
  }

  /** Any enabled action at each step. */
  ghost predicate Path(states: seq<Topic>, acts: seq<Action>) {
    && |states| == |acts| + 1
    && forall i :: 0 <= i < |acts| ==> Step(states[i], acts[i], states[i + 1])
  }

  /** A path from the freshly started topic. */
  ghost predicate Run(states: seq<Topic>, acts: seq<Action>) {
    Path(states, acts) && states[0] == Init()
  }

  ghost predicate Reachable(t: Topic) {
    exists states: seq<Topic>, acts: seq<Action> :: Run(states, acts) && states[|acts|] == t
  }
}
