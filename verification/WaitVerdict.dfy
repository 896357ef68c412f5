/** What a wait for all services promises when it answers. */
module WaitVerdict {
  import opened Wrappers
  import opened Events
  import opened Services
  import ServiceLifecycle
  import opened WaitForServices

  // ---------------------------------------------------------------- the waiters

  /** The service was in state `st` after its first `from` states. */
  ghost predicate Reached(h: seq<SvcState>, from: nat, st: SvcState) {
    exists k :: from <= k < |h| && h[k] == st
  }

  /** A waiter watches a registered service that was running when the snapshot looked, and has seen
      only final states the service reached since then. */
  ghost predicate WaiterOk(services: map<Uuid, Service>, w: Waiter, ctxDone: bool) {
    && w.id in services
    && 0 < w.from <= |services[w.id].history| && services[w.id].history[w.from - 1] == Running
    && (w.seen.Some? ==> (w.seen.value == Ended || w.seen.value == Failed) && Reached(services[w.id].history, w.from, w.seen.value))
    && (w.gaveUp ==> ctxDone)
  }

  ghost predicate WaitersOk(m: Wait) {
    && |m.answers| == |m.waiters|
    && forall i :: 0 <= i < |m.waiters| ==>
         && WaiterOk(m.sys.services, m.waiters[i], m.ctxDone)
         && (m.answers[i] == Some(true) ==> m.waiters[i].seen.Some?)
         && (m.answers[i] == Some(false) ==> m.waiters[i].gaveUp)
  }

  /** There is a waiter for every service the snapshot has found running so far. */
  ghost predicate SnapshotOk(m: Wait) {
    && (m.phase.Idle? ==> m.visited == map[])
    && (m.phase.Scanning? ==> m.sys.lock == Snapshotting && m.sys.services.Keys == m.members && m.visited.Keys + m.phase.todo == m.members)
    && (!m.phase.Idle? && !m.phase.Scanning? ==> m.visited.Keys == m.members)
    && forall id :: id in m.visited && m.visited[id] == Running ==> Watched(m.waiters, id)
  }

  ghost predicate Watched(ws: seq<Waiter>, id: Uuid) {
    exists i :: 0 <= i < |ws| && ws[i].id == id
  }

  // ---------------------------------------------------------------- the accumulator channel

  /** Until a verdict, every waiter is counted, or has answered true and the reader has taken it; and
      no false has been taken. */
  ghost predicate Tally(m: Wait) {
    && m.cnt + multiset(m.answers)[Some(true)] == |m.answers| + multiset(m.buf)[true]
    && multiset(m.answers)[Some(false)] == multiset(m.buf)[false]
  }

  ghost predicate AllTrue(m: Wait) {
    forall i :: 0 <= i < |m.answers| ==> m.answers[i] == Some(true)
  }

  ghost predicate ChannelOk(m: Wait) {
    && (m.phase.Idle? ==> m.waiters == [] && m.answers == [] && m.buf == [] && m.cnt == 0 && !m.closed)
    && (m.phase.Scanning? || m.phase.Counting? ==> Tally(m) && !m.closed)
    && (m.phase.Scanning? ==> m.cnt == |m.answers|)
    && (m.phase.NoneRunning? ==> m.answers == [] && !m.closed)
    && (m.phase.Verdict? && m.phase.ok ==> AllTrue(m) && m.closed)
    && (m.phase.Verdict? && !m.phase.ok ==> m.ctxDone && !m.closed)
    && (m.closed ==> AllTrue(m))
    && (m.result.Some? ==> m.phase.Over?)
    && (m.result == Some(true) ==> AllTrue(m))
    && (m.result == Some(false) ==> m.ctxDone && !m.closed)
  }

  ghost predicate WaitInv(m: Wait) {
    ServiceLifecycle.Inv(m.sys) && WaitersOk(m) && SnapshotOk(m) && ChannelOk(m)
  }

  lemma {:induction false} AllCounted<T>(s: seq<T>, x: T)
    requires multiset(s)[x] >= |s|
    ensures forall i :: 0 <= i < |s| ==> s[i] == x
  {
    if s != [] {
      var front, last := s[..|s| - 1], s[|s| - 1];
      assert s == front + [last];
      AtMost(front, x);
      AllCounted(front, x);
    }
  }

  lemma {:induction false} AtMost<T>(s: seq<T>, x: T)
    ensures multiset(s)[x] <= |s|
  {
    if s != [] {
      assert s == s[..|s| - 1] + [s[|s| - 1]];
      AtMost(s[..|s| - 1], x);
    }
  }

  /** With nothing left to count every waiter has answered true and the channel is empty. */
  lemma TallyDone(m: Wait)
    requires Tally(m) && m.cnt == 0
    ensures AllTrue(m) && true !in m.buf
  {
    AtMost(m.answers, Some(true));
    AllCounted(m.answers, Some(true));
    assert multiset(m.buf)[true] == 0;
  }

  // ---------------------------------------------------------------- one step

  lemma ReachedGrows(h: seq<SvcState>, h': seq<SvcState>, from: nat, st: SvcState)
    requires Reached(h, from, st) && h <= h'
    ensures Reached(h', from, st)
  {
    var k :| from <= k < |h| && h[k] == st;
    assert h'[k] == st;
  }

  lemma WaiterStays(s: Server, b: Action, w: Waiter, ctxDone: bool)
    requires Enabled(s, b) && WaiterOk(s.services, w, ctxDone)
    ensures WaiterOk(Apply(s, b).services, w, ctxDone)
  {
    ServiceLifecycle.HistoryStep(s, b, w.id);
    hide Enabled, Apply, Reached;
    if w.seen.Some? {
      ReachedGrows(s.services[w.id].history, Apply(s, b).services[w.id].history, w.from, w.seen.value);
    }
  }

  lemma LockedKeys(s: Server, b: Action)
    requires Enabled(s, b) && s.lock == Snapshotting && !b.UnlockSnapshot?
    ensures Apply(s, b).lock == Snapshotting && Apply(s, b).services.Keys == s.services.Keys
  {
  }

  lemma SystemWaiters(m: Wait, b: Action)
    requires WaitersOk(m) && Enabled(m.sys, b)
    ensures WaitersOk(m.(sys := Apply(m.sys, b)))
  {
    hide Enabled, Apply, WaiterOk;
    forall i | 0 <= i < |m.waiters| ensures WaiterOk(Apply(m.sys, b).services, m.waiters[i], m.ctxDone) {
      WaiterStays(m.sys, b, m.waiters[i], m.ctxDone);
    }
  }

  lemma SystemSnapshot(m: Wait, b: Action)
    requires SnapshotOk(m) && Enabled(m.sys, b) && (b.UnlockSnapshot? ==> !m.phase.Scanning?)
    ensures SnapshotOk(m.(sys := Apply(m.sys, b)))
  {
    hide Enabled, Apply, Watched;
    if m.phase.Scanning? {
      LockedKeys(m.sys, b);
    }
  }

  lemma SystemStep(m: Wait, b: Action)
    requires WaitInv(m) && Enabled(m.sys, b) && (b.UnlockSnapshot? ==> !m.phase.Scanning?)
    ensures WaitInv(m.(sys := Apply(m.sys, b)))
  {
    hide Enabled, Apply, ServiceLifecycle.Inv, WaitersOk, SnapshotOk, ChannelOk;
    ServiceLifecycle.InvStep(m.sys, b);
    SystemWaiters(m, b);
    SystemSnapshot(m, b);
    ChannelSame(m, m.(sys := Apply(m.sys, b)));
  }

  /** The snapshot's lock does not matter to the services. */
  lemma LockOnly(s: Server)
    requires ServiceLifecycle.Inv(s)
    ensures s.lock == Free ==> ServiceLifecycle.Inv(s.(lock := Snapshotting))
    ensures s.lock == Snapshotting ==> ServiceLifecycle.Inv(s.(lock := Free))
  {
    if s.lock == Free {
      ServiceLifecycle.ServerKeeps(s, LockSnapshot);
    } else if s.lock == Snapshotting {
      ServiceLifecycle.ServerKeeps(s, UnlockSnapshot);
    }
  }

  lemma LastState(s: Server, id: Uuid)
    requires ServiceLifecycle.Inv(s) && id in s.services
    ensures s.services[id].history != [] && s.services[id].history[|s.services[id].history| - 1] == s.services[id].state
  {
    assert ServiceLifecycle.ServiceOk(s.services[id], ServiceLifecycle.InLoop(s, id), ServiceLifecycle.Resumed(s, id));
  }

  lemma WatchedStays(ws: seq<Waiter>, ws': seq<Waiter>)
    requires |ws| == |ws'| && forall i :: 0 <= i < |ws| ==> ws[i].id == ws'[i].id
    ensures forall id :: Watched(ws, id) ==> Watched(ws', id)
  {
    forall id | Watched(ws, id) ensures Watched(ws', id) {
      var i :| 0 <= i < |ws| && ws[i].id == id;
      assert ws'[i].id == id;
    }
  }

  // ---- what each part of the invariant depends on

  lemma WaitersSame(m: Wait, m': Wait)
    requires WaitersOk(m) && m'.sys.services == m.sys.services && m'.waiters == m.waiters && m'.answers == m.answers
    requires m.ctxDone ==> m'.ctxDone
    ensures WaitersOk(m')
  {
    hide Reached;
  }

  lemma SnapshotSame(m: Wait, m': Wait)
    requires SnapshotOk(m) && m'.sys == m.sys && m'.members == m.members && m'.visited == m.visited
    requires m'.phase == m.phase || (!m.phase.Idle? && !m.phase.Scanning? && !m'.phase.Idle? && !m'.phase.Scanning?)
    requires |m.waiters| == |m'.waiters| && forall i :: 0 <= i < |m.waiters| ==> m.waiters[i].id == m'.waiters[i].id
    ensures SnapshotOk(m')
  {
    WatchedStays(m.waiters, m'.waiters);
    hide Watched;
  }

  lemma ChannelSame(m: Wait, m': Wait)
    requires ChannelOk(m) && m'.phase == m.phase && m'.answers == m.answers && m'.buf == m.buf && m'.cnt == m.cnt
    requires m'.closed == m.closed && m'.result == m.result && (m.ctxDone ==> m'.ctxDone) && |m'.waiters| == |m.waiters|
    ensures ChannelOk(m')
  {
    assert Tally(m) == Tally(m') && AllTrue(m) == AllTrue(m');
    hide Tally, AllTrue;
  }

  // ---- the snapshot

  lemma BeginKeeps(m: Wait)
    requires WaitInv(m) && m.phase.Idle? && m.sys.lock == Free
    ensures WaitInv(DoBegin(m))
  {
    hide ServiceLifecycle.Inv, WaitersOk, SnapshotOk, ChannelOk;
    LockOnly(m.sys);
    WaitersSame(m, DoBegin(m));
    BeginParts(m);
  }

  lemma BeginParts(m: Wait)
    requires SnapshotOk(m) && ChannelOk(m) && m.phase.Idle? && m.sys.lock == Free
    ensures SnapshotOk(DoBegin(m)) && ChannelOk(DoBegin(m))
  {
    hide Watched;
  }

  lemma EndKeeps(m: Wait)
    requires WaitInv(m) && m.phase.Scanning? && m.phase.todo == {}
    ensures WaitInv(DoEndScan(m))
  {
    hide ServiceLifecycle.Inv, WaitersOk, Watched;
    LockOnly(m.sys);
    WaitersSame(m, DoEndScan(m));
    assert Tally(m) == Tally(DoEndScan(m));
    hide Tally, AllTrue;
  }

  lemma VisitWaiters(m: Wait, id: Uuid)
    requires WaitersOk(m) && m.phase.Scanning? && id in m.sys.services && ServiceLifecycle.Inv(m.sys)
    ensures WaitersOk(DoVisit(m, id))
  {
    LastState(m.sys, id);
    hide ServiceLifecycle.Inv, Reached;
  }

  lemma VisitSnapshot(m: Wait, id: Uuid)
    requires SnapshotOk(m) && m.phase.Scanning? && id in m.sys.services && id in m.phase.todo
    ensures SnapshotOk(DoVisit(m, id))
  {
    var ws' := m.waiters + [Waiter(id, |m.sys.services[id].history|, None, false)];
    WatchedMore(m.waiters, ws');
    assert ws'[|m.waiters|].id == id && Watched(ws', id);
    hide Watched;
    assert m.visited[id := m.sys.services[id].state].Keys == m.visited.Keys + {id};
  }

  lemma WatchedMore(ws: seq<Waiter>, ws': seq<Waiter>)
    requires ws <= ws'
    ensures forall id :: Watched(ws, id) ==> Watched(ws', id)
  {
    forall id | Watched(ws, id) ensures Watched(ws', id) {
      var i :| 0 <= i < |ws| && ws[i].id == id;
      assert ws'[i].id == id;
    }
  }

  lemma VisitChannel(m: Wait, id: Uuid)
    requires ChannelOk(m) && m.phase.Scanning? && id in m.sys.services
    ensures ChannelOk(DoVisit(m, id))
  {
  }

  lemma VisitKeeps(m: Wait, id: Uuid)
    requires WaitInv(m) && m.phase.Scanning? && id in m.sys.services && id in m.phase.todo
    ensures WaitInv(DoVisit(m, id))
  {
    hide ServiceLifecycle.Inv, WaitersOk, SnapshotOk, ChannelOk;
    VisitWaiters(m, id);
    VisitSnapshot(m, id);
    VisitChannel(m, id);
  }

  // ---- the waiters

  /** A waiter that has not answered may change what it has seen. */
  lemma OneWaiter(m: Wait, w: nat, x: Waiter)
    requires WaitInv(m) && Pending(m, w) && x.id == m.waiters[w].id && WaiterOk(m.sys.services, x, m.ctxDone)
    ensures WaitInv(m.(waiters := m.waiters[w := x]))
  {
    hide ServiceLifecycle.Inv, WaiterOk;
    var m' := m.(waiters := m.waiters[w := x]);
    SnapshotSame(m, m');
    ChannelSame(m, m');
    hide SnapshotOk, ChannelOk;
  }

  lemma LookKeeps(m: Wait, w: nat)
    requires WaitInv(m) && Pending(m, w)
    ensures m.waiters[w].id in m.sys.services && WaitInv(DoLook(m, w))
  {
    hide ServiceLifecycle.Inv, SnapshotOk, ChannelOk;
    var x := m.waiters[w];
    assert WaiterOk(m.sys.services, x, m.ctxDone);
    LastState(m.sys, x.id);
    var st := m.sys.services[x.id].state;
    if st == Ended || st == Failed {
      var h := m.sys.services[x.id].history;
      assert h[|h| - 1] == st;
      assert Reached(h, x.from, st);
      assert WaiterOk(m.sys.services, x.(seen := Some(st)), m.ctxDone);
      hide WaiterOk, WaitInv;
      OneWaiter(m, w, x.(seen := Some(st)));
    }
  }

  lemma GiveUpKeeps(m: Wait, w: nat)
    requires WaitInv(m) && Pending(m, w) && m.ctxDone
    ensures WaitInv(m.(waiters := m.waiters[w := m.waiters[w].(gaveUp := true)]))
  {
    hide ServiceLifecycle.Inv, SnapshotOk, ChannelOk, Reached;
    var x := m.waiters[w];
    assert WaiterOk(m.sys.services, x, m.ctxDone);
    OneWaiter(m, w, x.(gaveUp := true));
  }

  // ---- the accumulator channel

  lemma SendTally(m: Wait, w: nat, v: bool)
    requires Pending(m, w) && Tally(m)
    ensures Tally(m.(answers := m.answers[w := Some(v)], buf := m.buf + [v]))
    ensures v && m.cnt > 0 ==> Tally(m.(answers := m.answers[w := Some(v)], cnt := m.cnt - 1))
  {
  }

  lemma SendWaiters(m: Wait, w: nat, v: bool)
    requires WaitersOk(m) && Pending(m, w) && Room(m) && (if v then m.waiters[w].seen.Some? else m.waiters[w].gaveUp)
    ensures WaitersOk(DoSend(m, w, v)) && (!v ==> m.ctxDone) && |m.answers| == |m.waiters|
  {
    assert WaiterOk(m.sys.services, m.waiters[w], m.ctxDone);
    hide Reached;
  }

  lemma SendChannel(m: Wait, w: nat, v: bool)
    requires ChannelOk(m) && Pending(m, w) && Room(m) && |m.answers| == |m.waiters| && (!v ==> m.ctxDone)
    ensures ChannelOk(DoSend(m, w, v))
  {
    assert !AllTrue(m);
    if m.phase.Scanning? || m.phase.Counting? {
      SendTally(m, w, v);
    }
    hide Tally, AllTrue;
  }

  lemma SendKeeps(m: Wait, w: nat, v: bool)
    requires WaitInv(m) && Pending(m, w) && Room(m) && (if v then m.waiters[w].seen.Some? else m.waiters[w].gaveUp)
    ensures WaitInv(DoSend(m, w, v))
  {
    hide ServiceLifecycle.Inv, WaitersOk, SnapshotOk, ChannelOk;
    SendWaiters(m, w, v);
    SendChannel(m, w, v);
    SnapshotSame(m, DoSend(m, w, v));
  }

  lemma TakeTally(m: Wait)
    requires Tally(m) && m.buf != [] && m.cnt > 0
    ensures m.buf[0] ==> Tally(m.(buf := m.buf[1..], cnt := m.cnt - 1))
    ensures !m.buf[0] ==> Some(false) in m.answers
  {
    assert m.buf == [m.buf[0]] + m.buf[1..];
  }

  lemma FalseMeansDone(m: Wait)
    requires WaitersOk(m) && Some(false) in m.answers
    ensures m.ctxDone
  {
    var i :| 0 <= i < |m.answers| && m.answers[i] == Some(false);
    assert WaiterOk(m.sys.services, m.waiters[i], m.ctxDone);
  }

  lemma ReceiveKeeps(m: Wait)
    requires WaitInv(m) && m.phase.Counting? && m.cnt > 0 && m.buf != []
    ensures WaitInv(Take(m.(buf := m.buf[1..]), m.buf[0]))
  {
    var m' := Take(m.(buf := m.buf[1..]), m.buf[0]);
    TakeTally(m);
    if !m.buf[0] {
      FalseMeansDone(m);
    }
    WaitersSame(m, m');
    SnapshotSame(m, m');
    hide ServiceLifecycle.Inv, WaitersOk, SnapshotOk, Tally, AllTrue;
  }

  /** A phase after the snapshot follows another; only the channel has to be looked at. */
  lemma PhaseKeeps(m: Wait, m': Wait)
    requires WaitInv(m) && ChannelOk(m') && m' == m.(phase := m'.phase, closed := m'.closed, result := m'.result)
    requires !m.phase.Idle? && !m.phase.Scanning? && !m'.phase.Idle? && !m'.phase.Scanning?
    ensures WaitInv(m')
  {
    hide ServiceLifecycle.Inv, ChannelOk;
    WaitersSame(m, m');
    SnapshotSame(m, m');
    hide WaitersOk, SnapshotOk;
  }

  lemma CloseKeeps(m: Wait)
    requires WaitInv(m) && m.phase.Counting? && m.cnt == 0
    ensures WaitInv(m.(closed := true, phase := Verdict(true)))
  {
    TallyDone(m);
    PhaseKeeps(m, m.(closed := true, phase := Verdict(true)));
  }

  lemma TellKeeps(m: Wait, m': Wait)
    requires WaitInv(m)
    requires || (m.phase.Counting? && m.ctxDone && m' == m.(phase := Verdict(false)))
             || (m.phase.Verdict? && m' == m.(result := Some(m.phase.ok), phase := Over))
             || (m.phase.NoneRunning? && m' == m.(result := Some(true), phase := Over))
             || (m.phase.NoneRunning? && m' == m.(phase := Over))
    ensures WaitInv(m')
  {
    hide ServiceLifecycle.Inv, WaitersOk, SnapshotOk, Tally;
    assert ChannelOk(m');
    PhaseKeeps(m, m');
  }

  lemma CancelKeeps(m: Wait)
    requires WaitInv(m)
    ensures WaitInv(m.(ctxDone := true))
  {
    var m' := m.(ctxDone := true);
    hide ServiceLifecycle.Inv;
    WaitersSame(m, m');
    SnapshotSame(m, m');
    ChannelSame(m, m');
    hide WaitersOk, SnapshotOk, ChannelOk;
  }

  // ---- all of them

  lemma WaitInvStep(m: Wait, a: WaitAction)
    requires WaitInv(m) && Allowed(m, a)
    ensures WaitInv(Do(m, a))
  {
    hide WaitInv, DoBegin, DoVisit, DoEndScan, DoLook, DoSend, Take, Pending, Room, Enabled, Apply;
    if a.System? {
      SystemStep(m, a.a);
    } else if a.CancelWait? {
      CancelKeeps(m);
    } else if a.Begin? {
      BeginKeeps(m);
    } else if a.Visit? {
      VisitKeeps(m, a.id);
    } else if a.EndScan? {
      EndKeeps(m);
    } else if a.Look? {
      LookKeeps(m, a.w);
    } else if a.GiveUp? {
      GiveUpKeeps(m, a.w);
    } else if a.SendTrue? {
      SendKeeps(m, a.w, true);
    } else if a.SendFalse? {
      SendKeeps(m, a.w, false);
    } else if a.Receive? {
      ReceiveKeeps(m);
    } else if a.CloseSum? {
      CloseKeeps(m);
    } else {
      TellKeeps(m, Do(m, a));
    }
  }

  lemma StartInv(sys: Server)
    requires ServiceLifecycle.Inv(sys)
    ensures WaitInv(WaitForServices.Start(sys))
  {
    hide ServiceLifecycle.Inv;
  }

  lemma {:induction false} WaitInvPath(states: seq<Wait>, acts: seq<WaitAction>, i: nat)
    requires WaitPath(states, acts) && WaitInv(states[0]) && i <= |acts|
    ensures WaitInv(states[i])
  {
    if i > 0 {
      WaitInvPath(states, acts, i - 1);
      assert WaitStep(states[i - 1], acts[i - 1], states[i - 1 + 1]);
      hide Do, Allowed, WaitInv;
      WaitInvStep(states[i - 1], acts[i - 1]);
    }
  }

  lemma WaitInvReachable(m: Wait)
    requires WaitReachable(m)
    ensures WaitInv(m)
  {
    var states: seq<Wait>, acts: seq<WaitAction> :|
      WaitPath(states, acts) && Reachable(states[0].sys) && states[0] == WaitForServices.Start(states[0].sys) && states[|acts|] == m;
    ServiceLifecycle.InvReachable(states[0].sys);
    StartInv(states[0].sys);
    WaitInvPath(states, acts, |acts|);
  }

  // ---------------------------------------------------------------- what the answer means

  /** When the call answers true, every service the snapshot found running has since been Ended or
      Failed, and its own waiter has seen that; the snapshot looked at every service there was. */
  lemma TrueMeansFinished(m: Wait, id: Uuid)
    requires WaitReachable(m) && m.result == Some(true) && id in m.visited && m.visited[id] == Running
    ensures exists w :: 0 <= w < |m.waiters| && m.waiters[w].id == id && m.answers == seq(|m.waiters|, _ => Some(true))
                        && (m.waiters[w].seen == Some(Ended) || m.waiters[w].seen == Some(Failed))
                        && id in m.sys.services && 0 < m.waiters[w].from <= |m.sys.services[id].history|
                        && m.sys.services[id].history[m.waiters[w].from - 1] == Running
                        && exists k :: m.waiters[w].from <= k < |m.sys.services[id].history|
                                       && m.waiters[w].seen == Some(m.sys.services[id].history[k])
    ensures m.visited.Keys == m.members
  {
    WaitInvReachable(m);
    hide WaitReachable, ServiceLifecycle.Inv;
    assert Watched(m.waiters, id);
    var w :| 0 <= w < |m.waiters| && m.waiters[w].id == id;
    assert WaiterOk(m.sys.services, m.waiters[w], m.ctxDone);
    assert m.answers == seq(|m.waiters|, _ => Some(true));
    assert Reached(m.sys.services[id].history, m.waiters[w].from, m.waiters[w].seen.value);
  }

  /** The accumulator channel is closed only after every waiter has made its single send, so no
      waiter that could still send meets a closed channel. */
  lemma NoSendOnClosed(m: Wait, w: nat)
    requires WaitReachable(m) && m.closed
    ensures !Pending(m, w) && !Allowed(m, SendTrue(w)) && !Allowed(m, SendFalse(w))
    ensures w < |m.waiters| ==> w < |m.answers| && m.answers[w] == Some(true)
  {
    WaitInvReachable(m);
    hide WaitReachable, ServiceLifecycle.Inv;
  }

  /** The answer is false only after the caller's context is done. */
  lemma FalseMeansCancelled(m: Wait)
    requires WaitReachable(m) && m.result == Some(false)
    ensures m.ctxDone && !m.closed
  {
    WaitInvReachable(m);
    hide WaitReachable, ServiceLifecycle.Inv;
  }

  // ---------------------------------------------------------------- the wait can be answered

  /** A waiter that has not answered and looks at a service that has ended or failed may send true
      whenever there is room. */
  lemma LookArms(m: Wait, w: nat)
    requires WaitReachable(m) && Pending(m, w) && !m.waiters[w].gaveUp && Room(m)
    ensures m.waiters[w].id in m.sys.services && Allowed(m, Look(w))
    ensures m.sys.services[m.waiters[w].id].state == Ended ==> Allowed(Do(m, Look(w)), SendTrue(w))
    ensures m.sys.services[m.waiters[w].id].state == Failed ==> Allowed(Do(m, Look(w)), SendTrue(w))
  {
    WaitInvReachable(m);
    hide WaitReachable, ServiceLifecycle.Inv, SnapshotOk, ChannelOk;
    assert WaiterOk(m.sys.services, m.waiters[w], m.ctxDone);
  }

  /** Some sequence of steps leads from `m` to `m'`. */
  ghost predicate WaitContinues(m: Wait, m': Wait) {
    exists states: seq<Wait>, acts: seq<WaitAction> :: WaitPath(states, acts) && states[0] == m && states[|acts|] == m'
  }

  lemma WaitContinuesItself(m: Wait)
    ensures WaitContinues(m, m)
  {
    var states: seq<Wait>, acts: seq<WaitAction> := [m], [];
    assert WaitPath(states, acts) && states[0] == m && states[|acts|] == m;
  }

  lemma WaitNext(m0: Wait, m: Wait, a: WaitAction)
    requires WaitContinues(m0, m) && Allowed(m, a)
    ensures WaitContinues(m0, Do(m, a))
  {
    var states: seq<Wait>, acts: seq<WaitAction> :| WaitPath(states, acts) && states[0] == m0 && states[|acts|] == m;
    var states', acts' := states + [Do(m, a)], acts + [a];
    WaitStepIs(m, a);
    hide Do, Allowed, WaitStep;
    forall i | 0 <= i < |acts'| ensures WaitStep(states'[i], acts'[i], states'[i + 1]) {
      if i < |acts| {
        assert WaitStep(states[i], acts[i], states[i + 1]);
      }
    }
    assert WaitPath(states', acts') && states'[0] == m0 && states'[|acts'|] == Do(m, a);
  }

  lemma WaitStepIs(m: Wait, a: WaitAction)
    requires Allowed(m, a)
    ensures WaitStep(m, a, Do(m, a))
  {
  }

  /** The reader waits for answers, nobody has cancelled, and every service somebody waits for is over. */
  ghost predicate Answerable(m: Wait) {
    && m.phase.Counting? && !m.ctxDone
    && forall i :: 0 <= i < |m.waiters| ==>
         m.waiters[i].id in m.sys.services &&
         (m.sys.services[m.waiters[i].id].state == Ended || m.sys.services[m.waiters[i].id].state == Failed)
  }

  /** Without a cancellation no false answer is under way, and there is somebody to count. */
  lemma OnlyTrue(m: Wait)
    requires WaitInv(m) && Answerable(m)
    ensures forall v :: v in m.buf ==> v
    ensures m.buf != [] ==> m.cnt > 0
    ensures forall i :: 0 <= i < |m.answers| ==> m.answers[i] != Some(false)
  {
    hide ServiceLifecycle.Inv, SnapshotOk;
    if Some(false) in m.answers {
      FalseMeansDone(m);
    }
    hide WaitersOk;
    assert multiset(m.answers)[Some(false)] == 0;
    assert multiset(m.buf)[false] == 0;
    AtMost(m.answers, Some(true));
    if m.buf != [] {
      assert m.buf[0] in m.buf;
    }
  }

  lemma NotAllTrue(m: Wait)
    requires Tally(m) && m.buf == [] && m.cnt > 0
    ensures exists w :: 0 <= w < |m.answers| && m.answers[w] != Some(true)
  {
    if forall i :: 0 <= i < |m.answers| ==> m.answers[i] == Some(true) {
      AllSame(m.answers, Some(true));
    }
  }

  lemma NotGivenUp(m: Wait, w: nat)
    requires WaitersOk(m) && w < |m.answers| && !m.ctxDone
    ensures w < |m.waiters| && !m.waiters[w].gaveUp && m.waiters[w].id in m.sys.services
  {
    assert WaiterOk(m.sys.services, m.waiters[w], m.ctxDone);
  }

  /** As long as the count is not down and the channel is empty some waiter has not answered. */
  lemma SomePending(m: Wait) returns (w: nat)
    requires WaitInv(m) && Answerable(m) && m.buf == [] && m.cnt > 0
    ensures Pending(m, w) && !m.waiters[w].gaveUp && Room(m) && m.waiters[w].id in m.sys.services
  {
    OnlyTrue(m);
    assert Tally(m);
    hide ServiceLifecycle.Inv, SnapshotOk, WaitersOk, ChannelOk, Tally;
    NotAllTrue(m);
    w :| w < |m.answers| && m.answers[w] != Some(true);
    ThreeAnswers(m.answers[w]);
    NotGivenUp(m, w);
  }

  lemma ThreeAnswers(a: Option<bool>)
    ensures a == None || a == Some(true) || a == Some(false)
  {
    if a.Some? {
      if a.value {
        assert a == Some(true);
      } else {
        assert a == Some(false);
      }
    }
  }

  lemma {:induction false} AllSame<T>(s: seq<T>, x: T)
    requires forall i :: 0 <= i < |s| ==> s[i] == x
    ensures multiset(s)[x] == |s|
  {
    if s != [] {
      assert s == s[..|s| - 1] + [s[|s| - 1]];
      AllSame(s[..|s| - 1], x);
    }
  }

  lemma ReceiveTrue(m0: Wait, m: Wait) returns (m': Wait)
    requires WaitContinues(m0, m) && WaitInv(m) && Answerable(m) && m.buf != []
    ensures WaitContinues(m0, m') && WaitInv(m') && Answerable(m') && m'.cnt < m.cnt
  {
    OnlyTrue(m);
    hide WaitInv, WaitContinues;
    assert m.buf[0] in m.buf;
    WaitNext(m0, m, Receive);
    WaitInvStep(m, Receive);
    m' := Take(m.(buf := m.buf[1..]), m.buf[0]);
  }

  lemma LookAndSend(m0: Wait, m: Wait) returns (m': Wait)
    requires WaitContinues(m0, m) && WaitInv(m) && Answerable(m) && m.buf == [] && m.cnt > 0
    ensures WaitContinues(m0, m') && WaitInv(m') && Answerable(m')
    ensures m'.cnt < m.cnt || (m'.cnt == m.cnt && m'.buf != [])
  {
    var w := SomePending(m);
    hide WaitInv, WaitContinues;
    WaitNext(m0, m, Look(w));
    WaitInvStep(m, Look(w));
    var m1 := DoLook(m, w);
    LookIs(m, w);
    hide DoLook;
    WaitNext(m0, m1, SendTrue(w));
    WaitInvStep(m1, SendTrue(w));
    m' := DoSend(m1, w, true);
    SendIs(m1, w);
    hide DoSend, Allowed, Do;
  }

  lemma LookIs(m: Wait, w: nat)
    requires Pending(m, w) && Answerable(m) && Room(m) && !m.waiters[w].gaveUp
    ensures Allowed(m, Look(w)) && DoLook(m, w) == Do(m, Look(w)) && Allowed(DoLook(m, w), SendTrue(w)) && Answerable(DoLook(m, w))
    ensures DoLook(m, w).cnt == m.cnt && DoLook(m, w).buf == m.buf && DoLook(m, w).phase == m.phase
  {
  }

  lemma SendIs(m: Wait, w: nat)
    requires Pending(m, w) && Answerable(m) && Room(m) && m.buf == []
    ensures Answerable(DoSend(m, w, true))
    ensures DoSend(m, w, true).cnt < m.cnt || (DoSend(m, w, true).cnt == m.cnt && DoSend(m, w, true).buf != [])
  {
  }

  lemma {:induction false} AnswersTrue(m0: Wait, m: Wait) returns (m': Wait)
    requires WaitContinues(m0, m) && WaitInv(m) && Answerable(m)
    ensures WaitContinues(m0, m') && m'.result == Some(true)
    decreases m.cnt, m.buf == []
  {
    hide WaitInv, WaitContinues, Answerable;
    if m.buf != [] {
      m' := ReceiveTrue(m0, m);
      m' := AnswersTrue(m0, m');
    } else if m.cnt > 0 {
      m' := LookAndSend(m0, m);
      m' := AnswersTrue(m0, m');
    } else {
      m' := CloseAndTell(m0, m);
    }
  }

  lemma CloseAndTell(m0: Wait, m: Wait) returns (m': Wait)
    requires WaitContinues(m0, m) && Answerable(m) && m.cnt == 0
    ensures WaitContinues(m0, m') && m'.result == Some(true)
  {
    hide WaitContinues;
    WaitNext(m0, m, CloseSum);
    var m1 := m.(closed := true, phase := Verdict(true));
    WaitNext(m0, m1, Tell);
    m' := m1.(result := Some(true), phase := Over);
  }

  /** When the snapshot is done, nobody has cancelled and every service found running has ended or
      failed, the wait can still be answered true, whatever has been answered so far. */
  lemma CanAnswerTrue(m: Wait) returns (m': Wait)
    requires WaitReachable(m) && !m.ctxDone
    requires m.phase.NoneRunning? || Answerable(m)
    ensures WaitContinues(m, m') && m'.result == Some(true)
  {
    WaitInvReachable(m);
    WaitContinuesItself(m);
    hide WaitReachable, WaitContinues, WaitInv, Answerable;
    if m.phase.NoneRunning? {
      WaitNext(m, m, TellAtOnce);
      m' := m.(result := Some(true), phase := Over);
    } else {
      m' := AnswersTrue(m, m);
    }
  }
}
