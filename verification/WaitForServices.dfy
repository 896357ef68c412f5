/** One `WaitForService` call for all services, running beside the service server: the snapshot, one
    waiter goroutine per service found running, the accumulator channel and its reader. */
module WaitForServices {
  import opened Wrappers
  import opened Events
  import opened Services

  /** A waiter. `from` is the length of the service's history when the snapshot found it running;
      `seen` is the final state it has read; once it has, it stays ready to answer. */
  datatype Waiter = Waiter(id: Uuid, from: nat, seen: Option<SvcState>, gaveUp: bool)

  /** What the call and then its summing goroutine are doing. */
  datatype Phase = Idle | Scanning(todo: set<Uuid>) | NoneRunning | Counting | Verdict(ok: bool) | Over

  /** `visited` is the state the snapshot read for each service, `answers` what each waiter has put on
      the accumulator channel, `buf` what is inside that channel. */
  datatype Wait = Wait(
    sys: Server,
    ctxDone: bool,
    phase: Phase,
    members: set<Uuid>,
    visited: map<Uuid, SvcState>,
    waiters: seq<Waiter>,
    answers: seq<Option<bool>>,
    cap: nat,
    buf: seq<bool>,
    closed: bool,
    cnt: nat,
    result: Option<bool>)

  function Start(sys: Server): Wait {
    Wait(sys, false, Idle, {}, map[], [], [], 0, [], false, 0, None)
  }

  datatype WaitAction =
    | System(a: Action)
    | CancelWait
    | Begin
    | Visit(id: Uuid)
    | EndScan
    | Look(w: nat)
    | SendTrue(w: nat)
    | GiveUp(w: nat)
    | SendFalse(w: nat)
    | Receive
    | SumCancelled
    | CloseSum
    | Tell
    | TellAtOnce
    | CancelAtOnce

  /** A send goes through: into the buffer, or to the waiting reader of an unbuffered channel. The
      channel being closed does not hold a sender back. */
  predicate Room(m: Wait) {
    if m.cap > 0 then |m.buf| < m.cap else m.phase.Counting? && m.cnt > 0
  }

  predicate Pending(m: Wait, w: nat) {
    w < |m.waiters| && w < |m.answers| && m.answers[w].None?
  }

  predicate Allowed(m: Wait, a: WaitAction) {
    match a
    case System(b) => Enabled(m.sys, b) && (b.UnlockSnapshot? ==> !m.phase.Scanning?)
    case CancelWait => true
    case Begin => m.phase.Idle? && m.sys.lock == Free
    case Visit(id) => m.phase.Scanning? && id in m.phase.todo && id in m.sys.services
    case EndScan => m.phase.Scanning? && m.phase.todo == {}
    case Look(w) => Pending(m, w) && !m.waiters[w].gaveUp && m.waiters[w].id in m.sys.services
    case SendTrue(w) => Pending(m, w) && !m.waiters[w].gaveUp && m.waiters[w].seen.Some? && Room(m)
    case GiveUp(w) => Pending(m, w) && m.ctxDone
    case SendFalse(w) => Pending(m, w) && m.waiters[w].gaveUp && Room(m)
    case Receive => m.phase.Counting? && m.cnt > 0 && m.buf != []
    case SumCancelled => m.phase.Counting? && m.cnt > 0 && m.ctxDone
    case CloseSum => m.phase.Counting? && m.cnt == 0
    case Tell => m.phase.Verdict?
    case TellAtOnce => m.phase.NoneRunning?
    case CancelAtOnce => m.phase.NoneRunning? && m.ctxDone
  }

  function DoBegin(m: Wait): Wait {
    m.(sys := m.sys.(lock := Snapshotting), phase := Scanning(m.sys.services.Keys), members := m.sys.services.Keys,
       cap := |m.sys.services| / 2)
  }

  function DoVisit(m: Wait, id: Uuid): Wait
    requires m.phase.Scanning? && id in m.sys.services
  {
    var v := m.sys.services[id];
    var m1 := m.(phase := Scanning(m.phase.todo - {id}), visited := m.visited[id := v.state]);
    if v.state != Running then m1
    else m1.(waiters := m.waiters + [Waiter(id, |v.history|, None, false)], answers := m.answers + [None], cnt := m.cnt + 1)
  }

  function DoEndScan(m: Wait): Wait {
    m.(sys := m.sys.(lock := Free), phase := if m.cnt == 0 then NoneRunning else Counting)
  }

  function DoLook(m: Wait, w: nat): Wait
    requires w < |m.waiters| && m.waiters[w].id in m.sys.services
  {
    var st := m.sys.services[m.waiters[w].id].state;
    if st == Ended || st == Failed then m.(waiters := m.waiters[w := m.waiters[w].(seen := Some(st))]) else m
  }

  /** The reader has taken `v`. */
  function Take(m: Wait, v: bool): Wait
    requires m.cnt > 0
  {
    if v then m.(cnt := m.cnt - 1) else m.(phase := Verdict(false))
  }

  function DoSend(m: Wait, w: nat, v: bool): Wait
    requires Pending(m, w) && Room(m)
  {
    var m1 := m.(answers := m.answers[w := Some(v)]);
    if m.cap > 0 then m1.(buf := m.buf + [v]) else Take(m1, v)
  }

  function Do(m: Wait, a: WaitAction): Wait
    requires Allowed(m, a)
  {
    match a
    case System(b) => m.(sys := Apply(m.sys, b))
    case CancelWait => m.(ctxDone := true)
    case Begin => DoBegin(m)
    case Visit(id) => DoVisit(m, id)
    case EndScan => DoEndScan(m)
    case Look(w) => DoLook(m, w)
    case SendTrue(w) => DoSend(m, w, true)
    case GiveUp(w) => m.(waiters := m.waiters[w := m.waiters[w].(gaveUp := true)])
    case SendFalse(w) => DoSend(m, w, false)
    case Receive => Take(m.(buf := m.buf[1..]), m.buf[0])
    case SumCancelled => m.(phase := Verdict(false))
    case CloseSum => m.(closed := true, phase := Verdict(true))
    case Tell => m.(result := Some(m.phase.ok), phase := Over)
    case TellAtOnce => m.(result := Some(true), phase := Over)
    case CancelAtOnce => m.(phase := Over)
  }

  ghost predicate WaitStep(m: Wait, a: WaitAction, m': Wait) {
    Allowed(m, a) && m' == Do(m, a)
  }

  ghost predicate WaitPath(states: seq<Wait>, acts: seq<WaitAction>) {
    && |states| == |acts| + 1
    && forall i :: 0 <= i < |acts| ==> WaitStep(states[i], acts[i], states[i + 1])
  }

  /** The call may be made in any reachable state of the server. */
  ghost predicate WaitReachable(m: Wait) {
    exists states: seq<Wait>, acts: seq<WaitAction> ::
      WaitPath(states, acts) && Reachable(states[0].sys) && states[0] == Start(states[0].sys) && states[|acts|] == m
  }
}
