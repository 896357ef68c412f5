/** The message server as a state machine over its queues, and the invariant of every run. */
module MessageProtocol {
  import opened Wrappers
  import opened Events
  import opened Names
  import opened MessageQueue

  datatype MsError = EmptyQueueName | NoSender | EmptyMessage | NotRunned | AlreadyRunned | NoReceiver | NoQueue | QueueStopped

  /** `done`: the context of the current run is done. */
  datatype Server = Server(runned: bool, done: bool, queues: map<string, Queue>)

  function Init(): Server {
    Server(false, false, map[])
  }

  /** The checks of `PutMessages`, in their order. */
  function PutCheck(s: Server, sender: Uuid, queue: string, msgs: seq<Message>): Outcome<MsError> {
    if Trim(queue) == "" then Err(EmptyQueueName)
    else if sender == Nil then Err(NoSender)
    else if msgs == [] then Err(EmptyMessage)
    else if !s.runned then Err(NotRunned)
    else Ok
  }

  /** The checks of `GetMessages`; its queue name is not trimmed. */
  function GetCheck(s: Server, receiver: Uuid, queue: string): Outcome<MsError> {
    if receiver == Nil then Err(NoReceiver)
    else if !s.runned then Err(NotRunned)
    else if queue !in s.queues then Err(NoQueue)
    else Ok
  }

  function QueueOrNew(s: Server, name: string): Queue {
    if name in s.queues then s.queues[name] else NewQueue()
  }

  /** `OpenQueue` is the first half of `PutMessages`: a queue made while the context ends may stop
      before the messages are put. */
  datatype ServerAction =
    | Run
    | Cancel
    | StopServer
    | OpenQueue(sender: Uuid, queue: string, msgs: seq<Message>)
    | PutMessages(sender: Uuid, queue: string, msgs: seq<Message>)
    | GetMessages(receiver: Uuid, queue: string, fromBegin: bool)
    | Inside(queue: string, step: QueueAction)

  predicate Enabled(s: Server, a: ServerAction) {
    match a
    case StopServer => s.done
    case Inside(queue, step) => queue in s.queues && Ready(s.queues[queue], s.done, step)
    case Run => true
    case Cancel => true
    case OpenQueue(_, _, _) => true
    case PutMessages(_, _, _) => true
    case GetMessages(_, _, _) => true
  }

  function ApplyOpen(s: Server, sender: Uuid, queue: string, msgs: seq<Message>): Server {
    if PutCheck(s, sender, queue, msgs).Err? then s
    else s.(queues := s.queues[Trim(queue) := QueueOrNew(s, Trim(queue))])
  }

  function ApplyPutMessages(s: Server, sender: Uuid, queue: string, msgs: seq<Message>): Server {
    if PutCheck(s, sender, queue, msgs).Err? then s
    else s.(queues := s.queues[Trim(queue) := ApplyPut(QueueOrNew(s, Trim(queue)), sender, msgs)])
  }

  function ApplyGetMessages(s: Server, receiver: Uuid, queue: string, fromBegin: bool): Server {
    if GetCheck(s, receiver, queue).Err? then s
    else s.(queues := s.queues[queue := ApplyGet(s.queues[queue], receiver, fromBegin)])
  }

  /** A new run forgets the queues of the last one. */
  function ApplyRun(s: Server): Server {
    if s.runned then s else Server(true, false, map[])
  }

  function Apply(s: Server, a: ServerAction): Server
    requires Enabled(s, a)
  {
    match a
    case Run => ApplyRun(s)
    case Cancel => s.(done := true)
    case StopServer => s.(runned := false)
    case OpenQueue(sender, queue, msgs) => ApplyOpen(s, sender, queue, msgs)
    case PutMessages(sender, queue, msgs) => ApplyPutMessages(s, sender, queue, msgs)
    case GetMessages(receiver, queue, fromBegin) => ApplyGetMessages(s, receiver, queue, fromBegin)
    case Inside(queue, step) => s.(queues := s.queues[queue := After(s.queues[queue], s.done, step)])
  }

  ghost predicate Step(s: Server, a: ServerAction, s': Server) {
    Enabled(s, a) && s' == Apply(s, a)
  }

  ghost predicate Path(states: seq<Server>, acts: seq<ServerAction>) {
    && |states| == |acts| + 1
    && forall i :: 0 <= i < |acts| ==> Step(states[i], acts[i], states[i + 1])
  }

  ghost predicate Reachable(s: Server) {
    exists states: seq<Server>, acts: seq<ServerAction> :: Path(states, acts) && states[0] == Init() && states[|acts|] == s
  }

  // ---------------------------------------------------------------- what a receiver has been given

  /** The slices selected for `r` since its last read from the beginning, one after the other. */
  function Since(readers: seq<Reader>, r: Uuid): seq<Envelope> {
    if readers == [] then []
    else
      var front, last := readers[..|readers| - 1], readers[|readers| - 1];
      if last.receiver != r then Since(front, r)
      else if last.fromBegin then last.slice
      else Since(front, r) + last.slice
  }

  /** What the channels of those reads have carried. */
  function Received(readers: seq<Reader>, r: Uuid): seq<Envelope> {
    if readers == [] then []
    else
      var front, last := readers[..|readers| - 1], readers[|readers| - 1];
      if last.receiver != r then Received(front, r)
      else if last.fromBegin then last.received
      else Received(front, r) + last.received
  }

  /** Same calls, same slices. */
  ghost predicate SameSlices(a: seq<Reader>, b: seq<Reader>) {
    && |a| == |b|
    && forall i :: 0 <= i < |a| ==> a[i].receiver == b[i].receiver && a[i].fromBegin == b[i].fromBegin && a[i].slice == b[i].slice
  }

  lemma {:induction false} SinceSame(a: seq<Reader>, b: seq<Reader>, r: Uuid)
    requires SameSlices(a, b)
    ensures Since(a, r) == Since(b, r)
  {
    if a != [] {
      SinceSame(a[..|a| - 1], b[..|b| - 1], r);
    }
  }

  function TakenParts(batches: seq<Batch>): seq<seq<Envelope>> {
    seq(|batches|, i requires 0 <= i < |batches| => batches[i].Taken())
  }

  // ---------------------------------------------------------------- the invariant of a queue

  /** Every cursor is inside the log and what was selected since the last restart is the log up to it. */
  ghost predicate CursorInv(q: Queue) {
    forall r :: q.Last(r) <= |q.messages| && Since(q.readers, r) == q.messages[..q.Last(r)]
  }

  /** The log and the request in hand interleave what the senders have given away. */
  ghost predicate MergeInv(q: Queue) {
    Merge(TakenParts(q.batches), q.messages + q.InHand())
  }

  ghost predicate SenderInv(q: Queue) {
    && (forall b :: 0 <= b < |q.batches| ==> q.batches[b].sender != Nil && q.batches[b].next <= |q.batches[b].msgs|)
    && (q.hand.Some? ==> q.hand.value.sender != Nil)
  }

  ghost predicate ReaderOk(rd: Reader) {
    && rd.next <= |rd.slice| && rd.received == rd.slice[..rd.next]
    && (rd.closed ==> rd.next == |rd.slice| && !rd.stopped)
  }

  ghost predicate ReaderInv(q: Queue) {
    forall i :: 0 <= i < |q.readers| ==> ReaderOk(q.readers[i])
  }

  /** Nothing stops before the context is done. */
  ghost predicate LiveInv(q: Queue, done: bool) {
    !done ==>
      && q.runned && q.looping
      && (forall b :: 0 <= b < |q.batches| ==> !q.batches[b].stopped)
      && (forall i :: 0 <= i < |q.readers| ==> !q.readers[i].stopped)
  }

  ghost predicate QueueInv(q: Queue, done: bool) {
    CursorInv(q) && MergeInv(q) && SenderInv(q) && ReaderInv(q) && LiveInv(q, done)
  }

  lemma NewInv(done: bool)
    ensures QueueInv(NewQueue(), done)
  {
    assert TakenParts([]) == [];
  }

  // ---- the cursors

  lemma CursorGrows(q: Queue, q': Queue)
    requires CursorInv(q) && q.messages <= q'.messages && q'.lastReaded == q.lastReaded && SameSlices(q.readers, q'.readers)
    ensures CursorInv(q')
  {
    forall r ensures q'.Last(r) <= |q'.messages| && Since(q'.readers, r) == q'.messages[..q'.Last(r)] {
      SinceSame(q.readers, q'.readers, r);
      assert q'.Last(r) == q.Last(r) <= |q.messages|;
      assert q'.messages[..q.Last(r)] == q.messages[..q.Last(r)];
    }
  }

  lemma CursorGet(q: Queue, receiver: Uuid, fromBegin: bool)
    requires CursorInv(q)
    ensures CursorInv(ApplyGet(q, receiver, fromBegin))
  {
    var q' := ApplyGet(q, receiver, fromBegin);
    if q.runned {
      var from := if fromBegin then 0 else q.Last(receiver);
      forall r ensures q'.Last(r) <= |q'.messages| && Since(q'.readers, r) == q'.messages[..q'.Last(r)] {
        assert q'.readers[..|q'.readers| - 1] == q.readers;
        assert q.messages[..q.Last(r)] + q.messages[q.Last(r)..] == q.messages;
        assert from <= |q.messages|;
      }
    }
  }

  // ---- the merge

  lemma MergeReceive(q: Queue, b: nat)
    requires MergeInv(q) && SenderInv(q) && q.hand.None? && b < |q.batches| && q.batches[b].next < |q.batches[b].msgs|
    ensures MergeInv(ApplyReceive(q, b)) && SenderInv(ApplyReceive(q, b))
  {
    var q' := ApplyReceive(q, b);
    var batch := q.batches[b];
    var x := Envelope(batch.msgs[batch.next], batch.sender);
    TakenNext(batch);
    assert q.messages + q.InHand() == q.messages;
    MergeSnoc(TakenParts(q.batches), q.messages, b, x);
    assert TakenParts(q'.batches) == TakenParts(q.batches)[b := TakenParts(q.batches)[b] + [x]];
  }

  lemma TakenNext(batch: Batch)
    requires batch.next < |batch.msgs|
    ensures batch.(next := batch.next + 1).Taken() == batch.Taken() + [Envelope(batch.msgs[batch.next], batch.sender)]
  {
  }

  lemma MergePut(q: Queue, sender: Uuid, msgs: seq<Message>)
    requires MergeInv(q) && SenderInv(q) && sender != Nil
    ensures MergeInv(ApplyPut(q, sender, msgs)) && SenderInv(ApplyPut(q, sender, msgs))
  {
    if q.runned {
      var q' := ApplyPut(q, sender, msgs);
      MergeNewPart(TakenParts(q.batches), q.messages + q.InHand());
      assert Batch(sender, msgs, 0, false).Taken() == [];
      assert TakenParts(q'.batches) == TakenParts(q.batches) + [[]];
    }
  }

  ghost predicate SameBatch(a: Batch, b: Batch) {
    a.sender == b.sender && a.msgs == b.msgs && a.next == b.next
  }

  lemma MergeSame(q: Queue, q': Queue)
    requires MergeInv(q) && SenderInv(q) && TakenParts(q'.batches) == TakenParts(q.batches) && q'.messages + q'.InHand() == q.messages + q.InHand()
    requires |q'.batches| == |q.batches| && forall b :: 0 <= b < |q.batches| ==> SameBatch(q.batches[b], q'.batches[b])
    requires q'.hand.Some? ==> q'.hand == q.hand
    ensures MergeInv(q') && SenderInv(q')
  {
  }

  // ---- one step

  lemma BatchStep(q: Queue, done: bool, a: QueueAction)
    requires QueueInv(q, done) && Ready(q, done, a) && (a.Receive? || a.AbandonBatch?)
    ensures QueueInv(After(q, done, a), done)
  {
    var q' := After(q, done, a);
    if a.Receive? {
      MergeReceive(q, a.b);
    } else {
      assert q'.batches[a.b].Taken() == q.batches[a.b].Taken();
      MergeSame(q, q');
    }
    hide Since, Merge;
    CursorGrows(q, q');
  }

  lemma LoopStep(q: Queue, done: bool, a: QueueAction)
    requires QueueInv(q, done) && Ready(q, done, a) && (a.Store? || a.ExitOnNil? || a.Stop?)
    ensures QueueInv(After(q, done, a), done)
  {
    hide Since, Merge;
    var q' := After(q, done, a);
    MergeSame(q, q');
    CursorGrows(q, q');
  }

  lemma ReaderStep(q: Queue, done: bool, a: QueueAction)
    requires QueueInv(q, done) && Ready(q, done, a) && (a.SendOne? || a.Close? || a.AbandonReader?)
    ensures QueueInv(After(q, done, a), done)
  {
    hide Since, Merge;
    var q' := After(q, done, a);
    assert ReaderOk(q'.readers[a.r]);
    MergeSame(q, q');
    CursorGrows(q, q');
  }

  lemma QueueStep(q: Queue, done: bool, a: QueueAction)
    requires QueueInv(q, done) && Ready(q, done, a)
    ensures QueueInv(After(q, done, a), done)
  {
    hide QueueInv, Ready, After;
    if a.Receive? || a.AbandonBatch? {
      BatchStep(q, done, a);
    } else if a.Store? || a.ExitOnNil? || a.Stop? {
      LoopStep(q, done, a);
    } else {
      ReaderStep(q, done, a);
    }
  }

  lemma PutStep(q: Queue, done: bool, sender: Uuid, msgs: seq<Message>)
    requires QueueInv(q, done) && sender != Nil
    ensures QueueInv(ApplyPut(q, sender, msgs), done)
  {
    MergePut(q, sender, msgs);
    hide Since, Merge;
    CursorGrows(q, ApplyPut(q, sender, msgs));
  }

  lemma GetStep(q: Queue, done: bool, receiver: Uuid, fromBegin: bool)
    requires QueueInv(q, done)
    ensures QueueInv(ApplyGet(q, receiver, fromBegin), done)
  {
    CursorGet(q, receiver, fromBegin);
    hide Since, Merge, CursorInv;
    MergeSame(q, ApplyGet(q, receiver, fromBegin));
  }

  // ---- runs

  ghost predicate Inv(s: Server) {
    forall name :: name in s.queues ==> QueueInv(s.queues[name], s.done)
  }

  lemma InvStep(s: Server, a: ServerAction)
    requires Inv(s) && Enabled(s, a)
    ensures Inv(Apply(s, a))
  {
    hide QueueInv, ApplyPut, ApplyGet, NewQueue, Trim;
    NewInv(s.done);
    if a.Inside? {
      QueueStep(s.queues[a.queue], s.done, a.step);
    } else if a.PutMessages? {
      if PutCheck(s, a.sender, a.queue, a.msgs).Ok? {
        PutStep(QueueOrNew(s, Trim(a.queue)), s.done, a.sender, a.msgs);
      }
    } else if a.GetMessages? {
      if GetCheck(s, a.receiver, a.queue).Ok? {
        GetStep(s.queues[a.queue], s.done, a.receiver, a.fromBegin);
      }
    } else if a.Cancel? {
      forall name | name in s.queues ensures QueueInv(s.queues[name], true) {
        DoneAllows(s.queues[name], s.done);
      }
    }
  }

  lemma DoneAllows(q: Queue, done: bool)
    requires QueueInv(q, done)
    ensures QueueInv(q, true)
  {
  }

  lemma {:induction false} InvPath(states: seq<Server>, acts: seq<ServerAction>, i: nat)
    requires Path(states, acts) && Inv(states[0]) && i <= |acts|
    ensures Inv(states[i])
  {
    if i > 0 {
      InvPath(states, acts, i - 1);
      assert Step(states[i - 1], acts[i - 1], states[i - 1 + 1]);
      hide Apply, Enabled, Inv;
      InvStep(states[i - 1], acts[i - 1]);
    }
  }

  lemma InvReachable(s: Server)
    requires Reachable(s)
    ensures Inv(s)
  {
    var states: seq<Server>, acts: seq<ServerAction> :| Path(states, acts) && states[0] == Init() && states[|acts|] == s;
    InvPath(states, acts, |acts|);
  }

  lemma ReachableStep(s: Server, a: ServerAction)
    requires Reachable(s) && Enabled(s, a)
    ensures Reachable(Apply(s, a))
  {
    var states: seq<Server>, acts: seq<ServerAction> :| Path(states, acts) && states[0] == Init() && states[|acts|] == s;
    var states', acts' := states + [Apply(s, a)], acts + [a];
    assert Step(s, a, Apply(s, a));
    hide Apply, Enabled, Init, Step;
    forall i | 0 <= i < |acts'| ensures Step(states'[i], acts'[i], states'[i + 1]) {
      if i < |acts| {
        assert Step(states[i], acts[i], states[i + 1]);
      }
    }
    assert states'[|acts'|] == Apply(s, a);
    assert Path(states', acts') && states'[0] == Init();
  }

  lemma InitReachable()
    ensures Reachable(Init())
  {
    var acts: seq<ServerAction> := [];
    assert Path([Init()], acts) && [Init()][|acts|] == Init();
  }

  /** The server after one of its queues has changed. */
  function WithQueue(s: Server, name: string, q: Queue): Server {
    s.(queues := s.queues[name := q])
  }

  lemma InsideReachable(s: Server, name: string, a: QueueAction)
    requires Reachable(s) && name in s.queues && Ready(s.queues[name], s.done, a)
    ensures Reachable(WithQueue(s, name, After(s.queues[name], s.done, a)))
  {
    hide Reachable, Ready, After;
    ReachableStep(s, Inside(name, a));
  }
}
