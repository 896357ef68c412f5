/** The message server and its queues as objects. Every operation is one or more steps of the state
    machine, so it leads from a reachable state to a reachable state. */
module MessageObject {
  import opened Wrappers
  import opened Events
  import Names
  import opened MessageQueue
  import opened MessageProtocol

  // ---------------------------------------------------------------- what the goroutines' loops do

  /** One round of the loop: it takes the next message of batch `b` and stores it. */
  function Round(q: Queue, b: nat): Queue
    requires b < |q.batches| && q.batches[b].next < |q.batches[b].msgs|
  {
    ApplyStore(ApplyReceive(q, b))
  }

  /** The loop can receive from the batches in this order, up to the first without a sender. */
  ghost predicate Playable(q: Queue, order: seq<nat>)
    decreases |order|
  {
    order == [] || (Ready(q, false, Receive(order[0])) &&
                    (q.batches[order[0]].sender != Nil ==> Playable(Round(q, order[0]), order[1..])))
  }

  /** The loop receives in this order; it ends at a request without a sender, or when it finds the
      context done. Only then does it clear the running flag. */
  ghost function LoopRuns(q: Queue, order: seq<nat>): Queue
    requires Playable(q, order)
    decreases |order|
  {
    if order == [] then q.(runned := false, looping := false)
    else if q.batches[order[0]].sender == Nil then ApplyReceive(q, order[0]).(looping := false, hand := None)
    else LoopRuns(Round(q, order[0]), order[1..])
  }

  lemma WithTwice(s: Server, name: string, q: Queue, q': Queue)
    ensures WithQueue(WithQueue(s, name, q), name, q') == WithQueue(s, name, q')
    ensures name in s.queues ==> WithQueue(s, name, s.queues[name]) == s
  {
  }

  lemma RoundReachable(s: Server, name: string, b: nat)
    requires Reachable(s) && name in s.queues && Ready(s.queues[name], s.done, Receive(b)) && s.queues[name].batches[b].sender != Nil
    ensures Reachable(WithQueue(s, name, Round(s.queues[name], b)))
  {
    var q := s.queues[name];
    hide Reachable;
    InsideReachable(s, name, Receive(b));
    var t := WithQueue(s, name, ApplyReceive(q, b));
    assert t.queues[name] == ApplyReceive(q, b) && t.done == s.done;
    InsideReachable(t, name, Store);
    WithTwice(s, name, ApplyReceive(q, b), Round(q, b));
  }

  lemma NilReachable(s: Server, name: string, b: nat)
    requires Reachable(s) && name in s.queues && Ready(s.queues[name], s.done, Receive(b)) && s.queues[name].batches[b].sender == Nil
    ensures Reachable(WithQueue(s, name, ApplyReceive(s.queues[name], b).(looping := false, hand := None)))
  {
    var q := s.queues[name];
    hide Reachable;
    InsideReachable(s, name, Receive(b));
    var t := WithQueue(s, name, ApplyReceive(q, b));
    assert t.queues[name] == ApplyReceive(q, b) && t.done == s.done;
    InsideReachable(t, name, ExitOnNil);
    WithTwice(s, name, ApplyReceive(q, b), ApplyReceive(q, b).(looping := false, hand := None));
  }

  /** In a reachable server whose context is done, the state a queue's loop leaves is reachable too. */
  lemma {:induction false} LoopReachable(s: Server, name: string, order: seq<nat>)
    requires Reachable(s) && name in s.queues && s.done && s.queues[name].looping && s.queues[name].hand.None?
    requires Playable(s.queues[name], order)
    ensures Reachable(WithQueue(s, name, LoopRuns(s.queues[name], order)))
    decreases |order|
  {
    var q := s.queues[name];
    hide Reachable;
    if order == [] {
      InsideReachable(s, name, Stop);
    } else if q.batches[order[0]].sender == Nil {
      NilReachable(s, name, order[0]);
    } else {
      RoundReachable(s, name, order[0]);
      LoopReachable(WithQueue(s, name, Round(q, order[0])), name, order[1..]);
      WithTwice(s, name, Round(q, order[0]), LoopRuns(q, order));
    }
  }

  /** The goroutine of a result channel sends `n` more messages. */
  function SendSome(q: Queue, ch: nat, n: nat): (q': Queue)
    requires ch < |q.readers| && q.readers[ch].next + n <= |q.readers[ch].slice|
    ensures |q'.readers| == |q.readers|
    decreases n
  {
    if n == 0 then q else SendSome(ApplySendOne(q, ch), ch, n - 1)
  }

  /** It closes the channel when all of the slice is sent, or stops when the context is done. */
  function Sent(q: Queue, ch: nat, takes: nat): Queue
    requires ch < |q.readers| && q.readers[ch].next == 0
  {
    if takes < |q.readers[ch].slice| then
      var q' := SendSome(q, ch, takes);
      q'.(readers := q'.readers[ch := q'.readers[ch].(stopped := true)])
    else
      var q' := SendSome(q, ch, |q.readers[ch].slice|);
      q'.(readers := q'.readers[ch := q'.readers[ch].(closed := true)])
  }

  /** A channel's goroutine after `n` more messages. */
  function SentOf(rd: Reader, n: nat): Reader
    requires rd.next + n <= |rd.slice|
  {
    rd.(received := rd.received + rd.slice[rd.next..rd.next + n], next := rd.next + n)
  }

  lemma {:induction false} SomeSent(q: Queue, ch: nat, n: nat)
    requires ch < |q.readers| && q.readers[ch].next + n <= |q.readers[ch].slice|
    ensures SendSome(q, ch, n) == q.(readers := q.readers[ch := SentOf(q.readers[ch], n)])
    ensures SendSome(q, ch, n).readers[ch] == SentOf(q.readers[ch], n)
    decreases n
  {
    SentOfNext(q.readers[ch], n);
    if n > 0 {
      SomeSent(ApplySendOne(q, ch), ch, n - 1);
    }
    hide SentOf;
  }

  lemma SentOfNext(rd: Reader, n: nat)
    requires rd.next + n <= |rd.slice|
    ensures n == 0 ==> SentOf(rd, n) == rd
    ensures n > 0 ==> SentOf(rd, n) == SentOf(rd.(received := rd.received + [rd.slice[rd.next]], next := rd.next + 1), n - 1)
  {
    if n == 0 {
      assert rd.received + rd.slice[rd.next..rd.next] == rd.received;
    } else {
      var tail := rd.slice[rd.next + 1..rd.next + n];
      assert rd.slice[rd.next..rd.next + n] == [rd.slice[rd.next]] + tail;
      assert rd.received + ([rd.slice[rd.next]] + tail) == rd.received + [rd.slice[rd.next]] + tail;
    }
  }

  lemma SomeNext(q: Queue, ch: nat, n: nat)
    requires ch < |q.readers| && q.readers[ch].next + n <= |q.readers[ch].slice|
    ensures SendSome(q, ch, n) == if n == 0 then q else SendSome(ApplySendOne(q, ch), ch, n - 1)
  {
  }

  lemma SentIs(q: Queue, ch: nat, takes: nat)
    requires ch < |q.readers| && q.readers[ch].next == 0
    ensures var size := |q.readers[ch].slice|;
            var q' := SendSome(q, ch, if takes < size then takes else size);
            var rd := q'.readers[ch];
            Sent(q, ch, takes) == q'.(readers := q'.readers[ch := if takes < size then rd.(stopped := true) else rd.(closed := true)])
  {
  }

  lemma {:induction false} SomeReachable(s: Server, name: string, ch: nat, n: nat)
    requires Reachable(s) && name in s.queues && ch < |s.queues[name].readers|
    requires var rd := s.queues[name].readers[ch]; rd.Sending() && rd.next + n <= |rd.slice|
    ensures Reachable(WithQueue(s, name, SendSome(s.queues[name], ch, n)))
    decreases n
  {
    var q := s.queues[name];
    hide Reachable;
    if n > 0 {
      InsideReachable(s, name, SendOne(ch));
      SomeReachable(WithQueue(s, name, ApplySendOne(q, ch)), name, ch, n - 1);
      WithTwice(s, name, ApplySendOne(q, ch), SendSome(q, ch, n));
    } else {
      WithTwice(s, name, q, q);
    }
  }

  /** The state a result channel's goroutine leaves is reachable; to stop early needs a done context. */
  lemma SentReachable(s: Server, name: string, ch: nat, takes: nat)
    requires Reachable(s) && name in s.queues && ch < |s.queues[name].readers|
    requires var rd := s.queues[name].readers[ch]; rd.Sending() && rd.next == 0 && (takes < |rd.slice| ==> s.done)
    ensures Reachable(WithQueue(s, name, Sent(s.queues[name], ch, takes)))
  {
    var q := s.queues[name];
    var rd := q.readers[ch];
    var n := if takes < |rd.slice| then takes else |rd.slice|;
    hide Reachable;
    SomeReachable(s, name, ch, n);
    SomeSent(q, ch, n);
    var t := WithQueue(s, name, SendSome(q, ch, n));
    hide SendSome;
    InsideReachable(t, name, if takes < |rd.slice| then AbandonReader(ch) else Close(ch));
    WithTwice(s, name, SendSome(q, ch, n), Sent(q, ch, takes));
  }

  // ---------------------------------------------------------------- the objects

  lemma Keeps(s: Server, a: ServerAction)
    requires Enabled(s, a)
    ensures Reachable(s) ==> Reachable(Apply(s, a))
  {
    hide Reachable, Enabled, Apply;
    if Reachable(s) {
      ReachableStep(s, a);
    }
  }

  lemma CursorsInside(s: Server)
    requires Inv(s)
    ensures forall n, r :: n in s.queues ==> s.queues[n].Last(r) <= |s.queues[n].messages|
  {
  }

  lemma OneChanged(a: map<string, Queue>, b: map<string, Queue>, n: string)
    requires a.Keys == b.Keys && n in b && forall m :: m in b && m != n ==> b[m] == a[m]
    ensures b == a[n := b[n]]
  {
  }

  lemma OneAdded(a: map<string, Queue>, b: map<string, Queue>, n: string)
    requires n !in a && b.Keys == a.Keys + {n} && forall m :: m in a ==> b[m] == a[m]
    ensures b == a[n := b[n]]
  {
  }

  lemma PutRefused(s: Server, sender: Uuid, queue: string, msgs: seq<Message>)
    ensures PutCheck(s, sender, queue, msgs).Err? ==> ApplyPutMessages(s, sender, queue, msgs) == s
  {
  }

  lemma GetRefused(q: Queue, receiver: Uuid, fromBegin: bool)
    ensures !q.runned ==> ApplyGet(q, receiver, fromBegin) == q
  {
  }

  lemma GetIs(s: Server, receiver: Uuid, queue: string, fromBegin: bool)
    ensures ApplyGetMessages(s, receiver, queue, fromBegin) ==
            if receiver == Nil || !s.runned || queue !in s.queues then s
            else s.(queues := s.queues[queue := ApplyGet(s.queues[queue], receiver, fromBegin)])
  {
    hide ApplyGet;
  }

  lemma PutWhole(s: Server, sender: Uuid, queue: string, msgs: seq<Message>, s': Server)
    requires PutCheck(s, sender, queue, msgs).Ok? && s'.runned == s.runned && s'.done == s.done
    requires var name := Names.Trim(queue);
             s'.queues == s.queues[name := QueueOrNew(s, name)][name := ApplyPut(QueueOrNew(s, name), sender, msgs)]
    ensures s' == ApplyPutMessages(s, sender, queue, msgs)
  {
    hide Names.Trim;
  }

  class MQueue {
    const name: string
    var messages: seq<Envelope>
    var lastReaded: map<Uuid, nat>
    var runned: bool
    var looping: bool
    var hand: Option<Request>
    var batches: seq<Batch>
    var readers: seq<Reader>

    ghost function State(): Queue
      reads this
    {
      Queue(messages, lastReaded, runned, looping, hand, batches, readers)
    }

    constructor (name: string)
      ensures State() == NewQueue() && this.name == name
    {
      this.name := name;
      messages, lastReaded, runned, looping, hand := [], map[], true, true, None;
      batches, readers := [], [];
    }

    /** The processing loop, for the senders it receives from and the order it does so in. */
    method Loop(order: seq<nat>)
      requires looping && hand.None? && Playable(State(), order)
      modifies this
      ensures State() == LoopRuns(old(State()), order)
      ensures !looping && hand.None? && lastReaded == old(lastReaded) && readers == old(readers)
      ensures !runned || exists b :: 0 <= b < |old(batches)| && old(batches)[b].sender == Nil
    {
      for i := 0 to |order|
        invariant looping && hand.None? && Playable(State(), order[i..])
        invariant |batches| == |old(batches)| && forall b :: 0 <= b < |batches| ==> batches[b].sender == old(batches)[b].sender
        invariant lastReaded == old(lastReaded) && readers == old(readers)
        invariant LoopRuns(State(), order[i..]) == LoopRuns(old(State()), order)
      {
        var b := order[i];
        assert order[i..][0] == b && order[i..][1..] == order[i + 1..];
        if batches[b].sender == Nil {
          batches := batches[b := batches[b].(next := batches[b].next + 1)];
          looping := false;
          return;
        }
        TakeFrom(b);
      }
      runned, looping := false, false;
    }

    /** One round of the loop with a sender whose message it takes and stores. */
    method TakeFrom(b: nat)
      requires Ready(State(), false, Receive(b)) && batches[b].sender != Nil
      modifies this`messages, this`batches
      ensures State() == Round(old(State()), b)
    {
      var batch := batches[b];
      batches := batches[b := batch.(next := batch.next + 1)];
      messages := messages + [Envelope(batch.msgs[batch.next], batch.sender)];
    }

    method PutMessages(sender: Uuid, msgs: seq<Message>) returns (r: Outcome<MsError>)
      modifies this`batches
      ensures State() == ApplyPut(old(State()), sender, msgs)
      ensures r.Ok? ==> batches == old(batches) + [Batch(sender, msgs, 0, false)]
      ensures r.Err? ==> batches == old(batches)
      ensures r == if runned then Ok else Err(QueueStopped)
    {
      if !runned {
        return Err(QueueStopped);
      }
      batches := batches + [Batch(sender, msgs, 0, false)];
      return Ok;
    }

    /** Selects the slice and moves the cursor; `ch` is the new result channel. */
    method GetMessages(receiver: Uuid, fromBegin: bool) returns (r: Outcome<MsError>, ch: nat)
      requires State().Last(receiver) <= |messages|
      modifies this`lastReaded, this`readers
      ensures State() == ApplyGet(old(State()), receiver, fromBegin)
      ensures r == if runned then Ok else Err(QueueStopped)
      ensures r.Ok? ==> lastReaded == old(lastReaded)[receiver := |messages|]
      ensures r.Ok? ==> ch < |readers| && readers[ch].slice == messages[if fromBegin then 0 else old(State()).Last(receiver)..]
    {
      ch := |readers|;
      if !runned {
        return Err(QueueStopped), ch;
      }
      var from := if receiver in lastReaded then lastReaded[receiver] else 0;
      if fromBegin {
        from := 0;
      }
      var res := messages[from..];
      lastReaded := lastReaded[receiver := from + |res|];
      readers := readers + [Reader(receiver, fromBegin, res, [], 0, false, false)];
      return Ok, ch;
    }

    /** The goroutine of a result channel whose consumer takes at most `takes` messages before the
        context is done: the channel is closed exactly when all of the slice has been taken. */
    method SendSlice(ch: nat, takes: nat)
      requires ch < |readers| && readers[ch].received == [] && readers[ch].next == 0 && readers[ch].Sending()
      modifies this`readers
      ensures State() == Sent(old(State()), ch, takes)
      ensures |readers| == |old(readers)|
      ensures var rd := readers[ch];
              && rd.received == rd.slice[..if takes < |rd.slice| then takes else |rd.slice|]
              && (rd.closed <==> |rd.slice| <= takes) && (rd.stopped <==> takes < |rd.slice|)
    {
      hide SendSome, Sent;
      var res := readers[ch].slice;
      ghost var q, n := State(), if takes < |res| then takes else |res|;
      SomeSent(q, ch, n);
      SentIs(q, ch, takes);
      for i := 0 to |res|
        invariant i <= n && |readers| == |q.readers| && readers[ch] == q.readers[ch].(received := readers[ch].received, next := i)
        invariant SendSome(State(), ch, n - i) == SendSome(q, ch, n)
      {
        SomeNext(State(), ch, n - i);
        if i == takes {
          readers := readers[ch := readers[ch].(stopped := true)];
          return;
        }
        SendOneMessage(ch);
      }
      SomeNext(State(), ch, 0);
      readers := readers[ch := readers[ch].(closed := true)];
    }

    method SendOneMessage(ch: nat)
      requires ch < |readers| && readers[ch].next < |readers[ch].slice|
      modifies this`readers
      ensures State() == ApplySendOne(old(State()), ch)
    {
      var rd := readers[ch];
      readers := readers[ch := rd.(received := rd.received + [rd.slice[rd.next]], next := rd.next + 1)];
    }
  }

  class MessageServer {
    var queues: map<string, MQueue>
    var runned: bool
    var done: bool

    /** Every queue is stored under its own name, so no two names share one. */
    ghost predicate Valid()
      reads this
    {
      forall n :: n in queues ==> queues[n].name == n
    }

    ghost function View(): Server
      reads this, queues.Values
    {
      Server(runned, done, map n | n in queues :: queues[n].State())
    }

    constructor ()
      ensures Valid() && View() == Init() && Reachable(View())
    {
      InitReachable();
      hide Reachable;
      queues, runned, done := map[], false, false;
    }

    method Run() returns (r: Outcome<MsError>)
      requires Valid()
      modifies this
      ensures Valid() && View() == ApplyRun(old(View()))
      ensures r == if old(runned) then Err(AlreadyRunned) else Ok
      ensures r.Ok? ==> queues == map[] && runned && !done
      ensures Reachable(old(View())) ==> Reachable(View())
    {
      hide Reachable;
      Keeps(View(), ServerAction.Run);
      if runned {
        return Err(AlreadyRunned);
      }
      queues := map[];
      runned, done := true, false;
      return Ok;
    }

    /** The goroutine that waits for the end of the context. */
    method StopRunning()
      requires Valid() && done
      modifies this`runned
      ensures Valid() && !runned && View() == old(View()).(runned := false)
      ensures Reachable(old(View())) ==> Reachable(View())
    {
      hide Reachable;
      Keeps(View(), ServerAction.StopServer);
      runned := false;
    }

    /** A queue that is missing is created and started. */
    method OpenQueue(name: string)
      requires Valid()
      modifies this`queues
      ensures Valid() && name in queues && fresh(queues.Values - old(queues.Values))
      ensures View() == old(View()).(queues := old(View()).queues[name := QueueOrNew(old(View()), name)])
    {
      hide NewQueue;
      if name !in queues {
        ghost var before := View();
        var nq := new MQueue(name);
        queues := queues[name := nq];
        OneAdded(before.queues, View().queues, name);
      }
    }

    method PutMessages(sender: Uuid, queue: string, msgs: seq<Message>) returns (r: Outcome<MsError>)
      requires Valid()
      modifies this`queues, queues.Values
      ensures Valid() && View() == ApplyPutMessages(old(View()), sender, queue, msgs)
      ensures var name := Names.Trim(queue);
              r == if name == "" then Err(EmptyQueueName)
                   else if sender == Nil then Err(NoSender)
                   else if |msgs| == 0 then Err(EmptyMessage)
                   else if !runned then Err(NotRunned)
                   else if name in old(queues) && !old(queues[name].runned) then Err(QueueStopped)
                   else Ok
      ensures r.Err? ==> View() == old(View())
      ensures var name := Names.Trim(queue);
              r.Ok? ==> name in queues && queues[name].batches ==
                          (if name in old(queues) then old(queues[name].batches) else []) + [Batch(sender, msgs, 0, false)]
      ensures Reachable(old(View())) ==> Reachable(View())
    {
      hide Reachable;
      Keeps(View(), ServerAction.PutMessages(sender, queue, msgs));
      PutRefused(View(), sender, queue, msgs);
      hide Names.Trim, NewQueue, ApplyPut, ApplyPutMessages;
      var name := Names.Trim(queue);
      if name == "" {
        return Err(EmptyQueueName);
      }
      if sender == Nil {
        return Err(NoSender);
      }
      if |msgs| == 0 {
        return Err(EmptyMessage);
      }
      if !runned {
        return Err(NotRunned);
      }
      OpenQueue(name);
      ghost var before := View();
      r := queues[name].PutMessages(sender, msgs);
      forall n | n in queues && n != name ensures queues[n].State() == before.queues[n] {
        assert queues[n] != queues[name];
      }
      OneChanged(before.queues, View().queues, name);
      PutWhole(old(View()), sender, queue, msgs, View());
    }

    method GetMessages(receiver: Uuid, queue: string, fromBegin: bool) returns (r: Outcome<MsError>, ch: nat)
      requires Valid() && Inv(View())
      modifies queues.Values
      ensures Valid() && View() == ApplyGetMessages(old(View()), receiver, queue, fromBegin)
      ensures r == if receiver == Nil then Err(NoReceiver)
                   else if !runned then Err(NotRunned)
                   else if queue !in queues then Err(NoQueue)
                   else if !old(queues[queue].runned) then Err(QueueStopped)
                   else Ok
      ensures r.Err? ==> View() == old(View())
      ensures r.Ok? ==> queues[queue].lastReaded == old(queues[queue].lastReaded)[receiver := |queues[queue].messages|]
      ensures r.Ok? ==> ch < |queues[queue].readers| && queues[queue].readers[ch].slice ==
                          old(queues[queue].messages)[if fromBegin then 0 else old(queues[queue].State()).Last(receiver)..]
      ensures Reachable(old(View())) ==> Reachable(View())
    {
      hide Reachable, QueueInv, Inv, ApplyGet, Queue.Last;
      Keeps(View(), ServerAction.GetMessages(receiver, queue, fromBegin));
      CursorsInside(View());
      GetIs(View(), receiver, queue, fromBegin);
      hide ApplyGetMessages;
      ch := 0;
      if receiver == Nil {
        return Err(NoReceiver), ch;
      }
      if !runned {
        return Err(NotRunned), ch;
      }
      if queue !in queues {
        return Err(NoQueue), ch;
      }
      r, ch := ReadQueue(receiver, queue, fromBegin);
    }

    /** The part of `GetMessages` that concerns the queue. */
    method ReadQueue(receiver: Uuid, queue: string, fromBegin: bool) returns (r: Outcome<MsError>, ch: nat)
      requires Valid() && queue in queues && queues[queue].State().Last(receiver) <= |queues[queue].messages|
      modifies queues[queue]
      ensures Valid() && View() == old(View()).(queues := old(View()).queues[queue := ApplyGet(old(View()).queues[queue], receiver, fromBegin)])
      ensures r == if queues[queue].runned then Ok else Err(QueueStopped)
      ensures queues[queue].messages == old(queues[queue].messages) && queues[queue].runned == old(queues[queue].runned)
      ensures r.Err? ==> View() == old(View())
      ensures r.Ok? ==> queues[queue].lastReaded == old(queues[queue].lastReaded)[receiver := |queues[queue].messages|]
      ensures r.Ok? ==> ch < |queues[queue].readers| && queues[queue].readers[ch].slice ==
                          queues[queue].messages[if fromBegin then 0 else old(queues[queue].State()).Last(receiver)..]
    {
      hide Queue.Last;
      ghost var before := View();
      r, ch := queues[queue].GetMessages(receiver, fromBegin);
      forall n | n in queues && n != queue ensures queues[n].State() == before.queues[n] {
        assert queues[n] != queues[queue];
      }
      GetRefused(before.queues[queue], receiver, fromBegin);
      hide ApplyGet;
      OneChanged(before.queues, View().queues, queue);
      if r.Err? {
        assert before.queues[queue := before.queues[queue]] == before.queues;
      }
    }
  }
}
