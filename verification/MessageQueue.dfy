/** One message queue as a state machine: its log and cursors, the loop that stores messages, one
    sender goroutine per accepted batch and one goroutine per result channel. */
module MessageQueue {
  import opened Wrappers
  import opened Events

  datatype Message = Message(id: Uuid, name: string, data: string)

  datatype Request = Request(sender: Uuid, msg: Message)

  datatype Envelope = Envelope(msg: Message, sender: Uuid)

  function Envelopes(sender: Uuid, msgs: seq<Message>): (es: seq<Envelope>)
    ensures |es| == |msgs|
  {
    seq(|msgs|, i requires 0 <= i < |msgs| => Envelope(msgs[i], sender))
  }

  /** A sender goroutine of `putMessages`. */
  datatype Batch = Batch(sender: Uuid, msgs: seq<Message>, next: nat, stopped: bool) {
    predicate Sending() { !stopped && next < |msgs| }

    /** What the loop has taken from it. */
    function Taken(): seq<Envelope> {
      if next <= |msgs| then Envelopes(sender, msgs[..next]) else []
    }
  }

  /** A call of `getMessages`: the slice it selected, and its goroutine, which has put `received` on
      the result channel. */
  datatype Reader = Reader(receiver: Uuid, fromBegin: bool, slice: seq<Envelope>, received: seq<Envelope>, next: nat, closed: bool, stopped: bool) {
    predicate Sending() { !closed && !stopped }
  }

  /** `hand` is the request the loop has received and not stored yet. */
  datatype Queue = Queue(
    messages: seq<Envelope>,
    lastReaded: map<Uuid, nat>,
    runned: bool,
    looping: bool,
    hand: Option<Request>,
    batches: seq<Batch>,
    readers: seq<Reader>)
  {
    /** A missing key reads as zero. */
    function Last(receiver: Uuid): nat {
      if receiver in lastReaded then lastReaded[receiver] else 0
    }

    function InHand(): seq<Envelope> {
      if hand.Some? then [Envelope(hand.value.msg, hand.value.sender)] else []
    }
  }

  function NewQueue(): Queue {
    Queue([], map[], true, true, None, [], [])
  }

  /** The steps a queue's goroutines take by themselves. */
  datatype QueueAction =
    | Receive(b: nat)
    | Store
    | ExitOnNil
    | Stop
    | AbandonBatch(b: nat)
    | SendOne(r: nat)
    | Close(r: nat)
    | AbandonReader(r: nat)

  /** `done`: the server's context is done. */
  predicate Ready(q: Queue, done: bool, a: QueueAction) {
    match a
    case Receive(b) => q.looping && q.hand.None? && b < |q.batches| && q.batches[b].Sending()
    case Store => q.looping && q.hand.Some? && q.hand.value.sender != Nil
    case ExitOnNil => q.looping && q.hand.Some? && q.hand.value.sender == Nil
    case Stop => done && q.looping && q.hand.None?
    case AbandonBatch(b) => done && b < |q.batches| && q.batches[b].Sending()
    case SendOne(r) => r < |q.readers| && q.readers[r].Sending() && q.readers[r].next < |q.readers[r].slice|
    case Close(r) => r < |q.readers| && q.readers[r].Sending() && q.readers[r].next >= |q.readers[r].slice|
    case AbandonReader(r) => done && r < |q.readers| && q.readers[r].Sending() && q.readers[r].next < |q.readers[r].slice|
  }

  /** The channel is unbuffered: sending and receiving are one step, storing is the next. */
  function ApplyReceive(q: Queue, b: nat): Queue
    requires b < |q.batches| && q.batches[b].next < |q.batches[b].msgs|
  {
    var batch := q.batches[b];
    q.(hand := Some(Request(batch.sender, batch.msgs[batch.next])), batches := q.batches[b := batch.(next := batch.next + 1)])
  }

  function ApplyStore(q: Queue): Queue {
    q.(messages := q.messages + q.InHand(), hand := None)
  }

  function ApplySendOne(q: Queue, r: nat): Queue
    requires r < |q.readers| && q.readers[r].next < |q.readers[r].slice|
  {
    var rd := q.readers[r];
    q.(readers := q.readers[r := rd.(received := rd.received + [rd.slice[rd.next]], next := rd.next + 1)])
  }

  function After(q: Queue, done: bool, a: QueueAction): Queue
    requires Ready(q, done, a)
  {
    match a
    case Receive(b) => ApplyReceive(q, b)
    case Store => ApplyStore(q)
    case ExitOnNil => q.(looping := false, hand := None)
    case Stop => q.(runned := false, looping := false)
    case AbandonBatch(b) => q.(batches := q.batches[b := q.batches[b].(stopped := true)])
    case SendOne(r) => ApplySendOne(q, r)
    case Close(r) => q.(readers := q.readers[r := q.readers[r].(closed := true)])
    case AbandonReader(r) => q.(readers := q.readers[r := q.readers[r].(stopped := true)])
  }

  function ApplyPut(q: Queue, sender: Uuid, msgs: seq<Message>): Queue {
    if !q.runned then q else q.(batches := q.batches + [Batch(sender, msgs, 0, false)])
  }

  /** The locked section of `getMessages`. */
  function ApplyGet(q: Queue, receiver: Uuid, fromBegin: bool): Queue {
    if !q.runned then q
    else
      var from := if fromBegin then 0 else q.Last(receiver);
      var slice := if from <= |q.messages| then q.messages[from..] else [];
      q.(lastReaded := q.lastReaded[receiver := from + |slice|],
         readers := q.readers + [Reader(receiver, fromBegin, slice, [], 0, false, false)])
  }

  // ---------------------------------------------------------------- merges

  /** `log` interleaves `parts`: its last element is the last element of one of them, and what
      comes before interleaves the rest. */
  ghost predicate Merge<T>(parts: seq<seq<T>>, log: seq<T>)
    decreases |log|
  {
    if log == [] then forall b :: 0 <= b < |parts| ==> parts[b] == []
    else exists b :: 0 <= b < |parts| && MergeLast(parts, log, b)
  }

  ghost predicate MergeLast<T>(parts: seq<seq<T>>, log: seq<T>, b: nat)
    requires b < |parts| && log != []
    decreases |log|, 0
  {
    && parts[b] != [] && parts[b][|parts[b]| - 1] == log[|log| - 1]
    && Merge(parts[b := parts[b][..|parts[b]| - 1]], log[..|log| - 1])
  }

  lemma MergeSnoc<T>(parts: seq<seq<T>>, log: seq<T>, b: nat, x: T)
    requires Merge(parts, log) && b < |parts|
    ensures Merge(parts[b := parts[b] + [x]], log + [x])
  {
    var parts', log' := parts[b := parts[b] + [x]], log + [x];
    assert parts'[b := parts'[b][..|parts'[b]| - 1]] == parts;
    assert log'[..|log'| - 1] == log;
    assert MergeLast(parts', log', b);
  }

  lemma {:induction false} MergeNewPart<T>(parts: seq<seq<T>>, log: seq<T>)
    requires Merge(parts, log)
    ensures Merge(parts + [[]], log)
    decreases |log|
  {
    if log != [] {
      var b :| 0 <= b < |parts| && MergeLast(parts, log, b);
      var rest := parts[b := parts[b][..|parts[b]| - 1]];
      MergeNewPart(rest, log[..|log| - 1]);
      assert rest + [[]] == (parts + [[]])[b := (parts + [[]])[b][..|parts[b]| - 1]];
      assert MergeLast(parts + [[]], log, b);
    }
  }

  function Concat<T>(parts: seq<seq<T>>): seq<T> {
    if parts == [] then [] else Concat(parts[..|parts| - 1]) + parts[|parts| - 1]
  }

  lemma {:induction false} ConcatShrinks<T>(parts: seq<seq<T>>, b: nat)
    requires b < |parts| && parts[b] != []
    ensures multiset(Concat(parts)) == multiset(Concat(parts[b := parts[b][..|parts[b]| - 1]])) + multiset{parts[b][|parts[b]| - 1]}
  {
    hide Concat;
    var n, front := |parts| - 1, parts[b][..|parts[b]| - 1];
    ConcatLast(parts);
    ConcatLast(parts[b := front]);
    UpdateFront(parts, b, front);
    if b < n {
      ConcatShrinks(parts[..n], b);
    } else {
      LastOut(parts[b]);
    }
  }

  lemma UpdateFront<T>(parts: seq<T>, b: nat, x: T)
    requires b < |parts|
    ensures var n := |parts| - 1;
            && parts[b := x][n] == (if b < n then parts[n] else x)
            && parts[b := x][..n] == if b < n then parts[..n][b := x] else parts[..n]
  {
  }

  lemma LastOut<T>(part: seq<T>)
    requires part != []
    ensures multiset(part) == multiset(part[..|part| - 1]) + multiset{part[|part| - 1]}
  {
    assert part == part[..|part| - 1] + [part[|part| - 1]];
  }

  lemma ConcatLast<T>(parts: seq<seq<T>>)
    requires parts != []
    ensures multiset(Concat(parts)) == multiset(Concat(parts[..|parts| - 1])) + multiset(parts[|parts| - 1])
  {
  }

  lemma {:induction false} ConcatEmpty<T>(parts: seq<seq<T>>)
    requires forall b :: 0 <= b < |parts| ==> parts[b] == []
    ensures Concat(parts) == []
  {
    if parts != [] {
      ConcatEmpty(parts[..|parts| - 1]);
    }
  }

  /** A merge loses and repeats nothing. */
  lemma {:induction false} MergeMultiset<T>(parts: seq<seq<T>>, log: seq<T>)
    requires Merge(parts, log)
    ensures multiset(log) == multiset(Concat(parts))
    decreases |log|
  {
    if log == [] {
      ConcatEmpty(parts);
    } else {
      var b :| 0 <= b < |parts| && MergeLast(parts, log, b);
      var front, last := log[..|log| - 1], log[|log| - 1];
      assert log == front + [last];
      ConcatShrinks(parts, b);
      MergeMultiset(parts[b := parts[b][..|parts[b]| - 1]], front);
    }
  }

  /** `a` can be read off `b` by skipping elements. */
  ghost predicate Subsequence<T>(a: seq<T>, b: seq<T>)
    decreases |b|
  {
    || a == []
    || (b != [] && ((a[|a| - 1] == b[|b| - 1] && Subsequence(a[..|a| - 1], b[..|b| - 1])) || Subsequence(a, b[..|b| - 1])))
  }

  /** A merge keeps the order of every part. */
  lemma {:induction false} MergeKeepsOrder<T>(parts: seq<seq<T>>, log: seq<T>, i: nat)
    requires Merge(parts, log) && i < |parts|
    ensures Subsequence(parts[i], log)
    decreases |log|
  {
    if log != [] {
      var b :| 0 <= b < |parts| && MergeLast(parts, log, b);
      MergeKeepsOrder(parts[b := parts[b][..|parts[b]| - 1]], log[..|log| - 1], i);
    }
  }
}
