/** What every run keeps about each service. */
module ServiceLifecycle {
  import opened Wrappers
  import opened Events
  import opened Services

  /** The loop is on its way to launching `id`. */
  function InLoop(s: Server, id: Uuid): nat {
    if (s.loop.Got? || s.loop.Found?) && s.loop.id == id then 1 else 0
  }

  ghost predicate Resumed(s: Server, id: Uuid) {
    s.lock.Resuming? && s.lock.id == id
  }

  /** Every start, and every task on its way to a start, is paid for by an exec or a resume. */
  ghost predicate Paid(v: Service, inLoop: nat) {
    && v.starts + v.launching + inLoop + v.sending + v.readying <= v.execs + v.resumes
    && v.running <= v.starts
  }

  ghost predicate RecordOk(v: Service) {
    && (v.failed <==> v.state == Failed)
    && v.history != [] && v.history[|v.history| - 1] == v.state
    && (!v.stoppable ==> multiset(v.history)[Ready] + v.readying == v.execs)
  }

  /** Without a stop channel nothing stops or resumes a service. */
  ghost predicate StopOk(v: Service, resuming: bool) {
    !v.stoppable ==> v.resumes == 0 && v.stopping == 0 && v.stopped == 0 && !resuming
  }

  /** The states a service goes through that is started once and never stopped. */
  ghost predicate Forward(h: seq<SvcState>) {
    || h == [Registered] || h == [Registered, Ready] || h == [Registered, Ready, Running]
    || h == [Registered, Ready, Running, Ended] || h == [Registered, Ready, Running, Failed]
  }

  ghost predicate OneShot(v: Service) {
    !v.stoppable && v.execs <= 1
  }

  /** Where the one token of such a service is tells how far it has got. */
  ghost predicate PhaseOk(v: Service, inLoop: nat) {
    OneShot(v) ==>
      && Forward(v.history)
      && (v.execs == 0 || v.readying > 0 ==> v.history == [Registered])
      && (v.sending + inLoop + v.launching > 0 ==> v.history == [Registered, Ready])
      && (v.running > 0 ==> v.history == [Registered, Ready, Running])
      && (v.starts > 0 <==> |v.history| >= 3)
  }

  ghost predicate ServiceOk(v: Service, inLoop: nat, resuming: bool) {
    Paid(v, inLoop) && RecordOk(v) && StopOk(v, resuming) && PhaseOk(v, inLoop)
  }

  ghost predicate Inv(s: Server) {
    && (forall id :: id in s.services ==> ServiceOk(s.services[id], InLoop(s, id), Resumed(s, id)))
    && (s.lock.Resuming? ==> s.lock.id in s.services)
    && (s.loop.Got? || s.loop.Found? ==> s.loop.id in s.services)
  }

  // ---------------------------------------------------------------- one service

  lemma ReadyStep(v: Service, done: bool, step: SvcStep, inLoop: nat, resuming: bool)
    requires ServiceOk(v, inLoop, resuming) && Possible(v, done, step) && (step.MakeReady? || step.DropSend?)
    ensures ServiceOk(After(v, done, step), inLoop, resuming)
  {
  }

  lemma RunStep(v: Service, done: bool, step: SvcStep, inLoop: nat, resuming: bool)
    requires ServiceOk(v, inLoop, resuming) && Possible(v, done, step) && (step.Start? || step.Finish?)
    ensures ServiceOk(After(v, done, step), inLoop, resuming)
  {
  }

  lemma StopStep(v: Service, done: bool, step: SvcStep, inLoop: nat, resuming: bool)
    requires ServiceOk(v, inLoop, resuming) && Possible(v, done, step) && (step.DropStop? || step.TakeStop? || step.SetStopped?)
    ensures ServiceOk(After(v, done, step), inLoop, resuming)
  {
  }

  lemma CallStep(v: Service, inLoop: nat, resuming: bool)
    requires ServiceOk(v, inLoop, resuming)
    ensures ServiceOk(ApplyExec(v), inLoop, resuming) && ServiceOk(ApplyStop(v), inLoop, resuming)
  {
  }

  lemma LocalStep(v: Service, done: bool, step: SvcStep, inLoop: nat, resuming: bool)
    requires ServiceOk(v, inLoop, resuming) && Possible(v, done, step)
    ensures ServiceOk(After(v, done, step), inLoop, resuming)
  {
    hide ServiceOk;
    if step.Exec? || step.Stop? {
      CallStep(v, inLoop, resuming);
    } else if step.MakeReady? || step.DropSend? {
      hide Possible, After;
      ReadyStep(v, done, step, inLoop, resuming);
    } else if step.Start? || step.Finish? {
      hide Possible, After;
      RunStep(v, done, step, inLoop, resuming);
    } else {
      hide Possible, After;
      StopStep(v, done, step, inLoop, resuming);
    }
  }

  /** A token may move into the loop, out of it, or be lost. */
  lemma LoopStep(v: Service, inLoop: nat, resuming: bool)
    requires ServiceOk(v, inLoop, resuming)
    ensures v.sending > 0 ==> ServiceOk(v.(sending := v.sending - 1), inLoop + 1, resuming)
    ensures inLoop > 0 ==> ServiceOk(v.(launching := v.launching + 1), inLoop - 1, resuming) && ServiceOk(v, inLoop - 1, resuming)
    ensures ServiceOk(v, 0, resuming) && ServiceOk(v, inLoop, false) && ServiceOk(v, 0, false)
  {
  }

  lemma ResumeStep(v: Service, inLoop: nat, resuming: bool)
    requires ServiceOk(v, inLoop, resuming) && v.stoppable
    ensures ServiceOk(v, inLoop, true) && ServiceOk(SetState(v, Ready, false), inLoop, true)
    ensures ServiceOk(v.(resumes := v.resumes + 1), inLoop + 1, false)
  {
  }

  lemma NewOk(stoppable: bool)
    ensures ServiceOk(NewService(stoppable), 0, false)
  {
  }

  // ---------------------------------------------------------------- the server

  /** One record changed, and the loop and the lock turned to that service, became free or stayed. */
  lemma OneRecord(s: Server, s': Server, id: Uuid)
    requires Inv(s) && id in s.services && id in s'.services && s'.services == s.services[id := s'.services[id]]
    requires s'.loop == s.loop || s'.loop == Waiting || s'.loop == Got(id) || s'.loop == Found(id)
    requires s'.lock == s.lock || s'.lock == Free || (s'.lock.Resuming? && s'.lock.id == id)
    requires ServiceOk(s'.services[id], InLoop(s', id), Resumed(s', id))
    ensures Inv(s')
  {
    hide ServiceOk;
    forall j | j in s.services && j != id ensures ServiceOk(s'.services[j], InLoop(s', j), Resumed(s', j)) {
      LoopStep(s.services[j], InLoop(s, j), Resumed(s, j));
    }
  }

  lemma CallsKeep(s: Server, a: Action)
    requires Inv(s) && Enabled(s, a) && (a.ExecService? || a.StopService? || a.Local?)
    ensures Inv(Apply(s, a))
  {
    hide ServiceOk, After, Possible;
    if a.id in s.services {
      CallStep(s.services[a.id], InLoop(s, a.id), Resumed(s, a.id));
      if a.Local? {
        LocalStep(s.services[a.id], s.done, a.step, InLoop(s, a.id), Resumed(s, a.id));
      }
      OneRecord(s, Apply(s, a), a.id);
    }
  }

  lemma LoopKeeps(s: Server, a: Action)
    requires Inv(s) && Enabled(s, a) && (a.SendRun? || a.LookUp? || a.CheckReady?)
    ensures Inv(Apply(s, a))
  {
    hide ServiceOk;
    var id := if a.SendRun? then a.id else s.loop.id;
    LoopStep(s.services[id], InLoop(s, id), Resumed(s, id));
    OneRecord(s, Apply(s, a), id);
  }

  lemma ServerKeeps(s: Server, a: Action)
    requires Inv(s) && Enabled(s, a) && (a.Run? || a.Cancel? || a.LoopLeaves? || a.LoopEnds? || a.LockSnapshot? || a.UnlockSnapshot? || a.AddService?)
    ensures Inv(Apply(s, a))
  {
    hide ServiceOk, NewService;
    if a.AddService? {
      NewOk(a.stoppable);
    }
    forall id | id in s.services ensures ServiceOk(s.services[id], 0, Resumed(s, id)) {
      LoopStep(s.services[id], InLoop(s, id), Resumed(s, id));
    }
  }

  lemma ResumedStoppable(s: Server)
    requires Inv(s)
    ensures s.lock.Resuming? ==> s.services[s.lock.id].stoppable
  {
    if s.lock.Resuming? {
      assert ServiceOk(s.services[s.lock.id], InLoop(s, s.lock.id), true);
    }
  }

  lemma BeginKeeps(s: Server, id: Uuid)
    requires Inv(s) && s.lock == Free
    ensures Inv(ApplyBeginResume(s, id))
  {
    if id in s.services && s.services[id].stoppable && s.services[id].state != Running {
      hide ServiceOk;
      ResumeStep(s.services[id], InLoop(s, id), Resumed(s, id));
      OneRecord(s, ApplyBeginResume(s, id), id);
    }
  }

  lemma ResumingKeeps(s: Server)
    requires Inv(s) && s.lock.Resuming?
    ensures Inv(ApplyResumeReady(s)) && (s.loop == Waiting ==> Inv(ApplyResumeSend(s)))
  {
    ResumedStoppable(s);
    var id := s.lock.id;
    hide ServiceOk, SetState;
    ResumeStep(s.services[id], InLoop(s, id), Resumed(s, id));
    OneRecord(s, ApplyResumeReady(s), id);
    if s.loop == Waiting {
      OneRecord(s, ApplyResumeSend(s), id);
    }
  }

  lemma ResumeKeeps(s: Server, a: Action)
    requires Inv(s) && Enabled(s, a) && (a.BeginResume? || a.ResumeReady? || a.ResumeSend?)
    ensures Inv(Apply(s, a))
  {
    hide Inv, ApplyBeginResume, ApplyResumeReady, ApplyResumeSend;
    if a.BeginResume? {
      BeginKeeps(s, a.id);
    } else {
      ResumingKeeps(s);
    }
  }

  lemma InvStep(s: Server, a: Action)
    requires Inv(s) && Enabled(s, a)
    ensures Inv(Apply(s, a))
  {
    hide Inv, Enabled, Apply;
    if a.ExecService? || a.StopService? || a.Local? {
      CallsKeep(s, a);
    } else if a.SendRun? || a.LookUp? || a.CheckReady? {
      LoopKeeps(s, a);
    } else if a.BeginResume? || a.ResumeReady? || a.ResumeSend? {
      ResumeKeeps(s, a);
    } else {
      ServerKeeps(s, a);
    }
  }

  lemma {:induction false} InvPath(states: seq<Server>, acts: seq<Action>, i: nat)
    requires Path(states, acts) && Inv(states[0]) && i <= |acts|
    ensures Inv(states[i])
  {
    if i > 0 {
      InvPath(states, acts, i - 1);
      assert Step(states[i - 1], acts[i - 1], states[i - 1 + 1]);
      hide Apply, Enabled, Inv;
      InvStep(states[i - 1], acts[i - 1]);
    }
  }

  lemma InvReachable(s: Server)
    requires Reachable(s)
    ensures Inv(s)
  {
    var states: seq<Server>, acts: seq<Action> :| Path(states, acts) && states[0] == Init() && states[|acts|] == s;
    InvPath(states, acts, |acts|);
  }

  lemma InvOf(s: Server, id: Uuid)
    requires Reachable(s) && id in s.services
    ensures ServiceOk(s.services[id], InLoop(s, id), Resumed(s, id))
  {
    InvReachable(s);
  }

  // ---------------------------------------------------------------- what every run promises

  /** A service is started at most as often as `ExecService` succeeded for it and `ResumeService`
      handed it to the loop. */
  lemma StartsBounded(s: Server, id: Uuid)
    requires Reachable(s) && id in s.services
    ensures s.services[id].starts <= s.services[id].execs + s.services[id].resumes
  {
    InvOf(s, id);
  }

  /** An error is stored exactly while the state is Failed. */
  lemma ErrorIffFailed(s: Server, id: Uuid)
    requires Reachable(s) && id in s.services
    ensures s.services[id].failed <==> s.services[id].state == Failed
    ensures s.services[id].history != [] && s.services[id].history[|s.services[id].history| - 1] == s.services[id].state
  {
    InvOf(s, id);
  }

  /** Without a stop channel and with at most one successful `ExecService` the state only moves
      forward, to one of its two ends, and the service is started at most once. */
  lemma OneShotLifecycle(s: Server, id: Uuid)
    requires Reachable(s) && id in s.services && OneShot(s.services[id])
    ensures Forward(s.services[id].history) && s.services[id].starts <= 1
    ensures s.services[id].starts == 1 <==> |s.services[id].history| >= 3
  {
    InvOf(s, id);
  }

  /** A second `ExecService` that passes the state check before the first one's goroutine has set
      Ready takes a running service back to Ready. */
  lemma TwoExecsGoBack() returns (s: Server, id: Uuid)
    ensures Reachable(s) && id in s.services && !s.services[id].stoppable && s.services[id].execs == 2
    ensures s.services[id].history == [Registered, Ready, Running, Ready] && !Forward(s.services[id].history)
  {
    hide *;
    id := Id(1);
    s := TwoExecs(id);
    s := FirstStarts(s, id);
    SecondReady(s.done);
    s := LocalTo(s, id, MakeReady);
  }

  lemma TwoExecs(id: Uuid) returns (s: Server)
    requires id != Nil
    ensures Reachable(s) && id in s.services && s.lock == Free && s.loop == Waiting
    ensures s.services[id] == Service(Registered, false, false, 2, 0, 0, 0, 0, 0, [Registered], 2, 0, 0)
  {
    hide Reachable;
    InitReachable();
    s := Init();
    ReachableStep(s, Run);
    s := Apply(s, Run);
    ReachableStep(s, AddService(id, false));
    s := Apply(s, AddService(id, false));
    ReachableStep(s, ExecService(id, true));
    s := Apply(s, ExecService(id, true));
    ReachableStep(s, ExecService(id, true));
    s := Apply(s, ExecService(id, true));
  }

  lemma FirstStarts(t: Server, id: Uuid) returns (s: Server)
    requires Reachable(t) && id in t.services && t.lock == Free && t.loop == Waiting
    requires t.services[id] == Service(Registered, false, false, 2, 0, 0, 0, 0, 0, [Registered], 2, 0, 0)
    ensures Reachable(s) && id in s.services
    ensures s.services[id] == Service(Running, false, false, 1, 0, 0, 1, 0, 0, [Registered, Ready, Running], 2, 0, 1)
  {
    hide *;
    FirstReady(t.services[id], t.done);
    FirstRuns(t.done);
    s := LocalTo(t, id, MakeReady);
    s := Launched(s, id);
    s := LocalTo(s, id, Start);
  }

  lemma FirstReady(v: Service, done: bool)
    requires v == Service(Registered, false, false, 2, 0, 0, 0, 0, 0, [Registered], 2, 0, 0)
    ensures Possible(v, done, MakeReady)
    ensures After(v, done, MakeReady) == Service(Ready, false, false, 1, 1, 0, 0, 0, 0, [Registered, Ready], 2, 0, 0)
  {
  }

  lemma SecondReady(done: bool)
    ensures var v := Service(Running, false, false, 1, 0, 0, 1, 0, 0, [Registered, Ready, Running], 2, 0, 1);
            && Possible(v, done, MakeReady)
            && After(v, done, MakeReady) == Service(Ready, false, false, 0, 1, 0, 1, 0, 0, [Registered, Ready, Running, Ready], 2, 0, 1)
    ensures !Forward([Registered, Ready, Running, Ready])
  {
  }

  lemma FirstRuns(done: bool)
    ensures var v := Service(Ready, false, false, 1, 0, 1, 0, 0, 0, [Registered, Ready], 2, 0, 0);
            && Possible(v, done, Start)
            && After(v, done, Start) == Service(Running, false, false, 1, 0, 0, 1, 0, 0, [Registered, Ready, Running], 2, 0, 1)
  {
  }

  lemma LocalTo(t: Server, id: Uuid, step: SvcStep) returns (s: Server)
    requires Reachable(t) && id in t.services && Possible(t.services[id], t.done, step) && !step.Exec? && !step.Stop?
    ensures Reachable(s) && s == With(t, id, After(t.services[id], t.done, step))
    ensures id in s.services && s.services[id] == After(t.services[id], t.done, step)
    ensures s.loop == t.loop && s.lock == t.lock && s.done == t.done
  {
    hide Reachable, Possible, After;
    ReachableStep(t, Local(id, step));
    s := Apply(t, Local(id, step));
  }

  /** From the sender through the loop to a launched service. */
  lemma Launched(t: Server, id: Uuid) returns (s: Server)
    requires Reachable(t) && id in t.services && t.lock == Free && t.loop == Waiting
    requires t.services[id].sending > 0 && t.services[id].state == Ready
    ensures Reachable(s) && id in s.services && s.done == t.done
    ensures s.services[id] == t.services[id].(sending := t.services[id].sending - 1, launching := t.services[id].launching + 1)
  {
    hide Reachable;
    ReachableStep(t, SendRun(id));
    s := ApplySendRun(t, id);
    ReachableStep(s, LookUp);
    s := ApplyLookUp(s);
    ReachableStep(s, CheckReady);
    s := ApplyCheckReady(s);
  }

  /** Some sequence of steps leads from `s` to `s'`. */
  ghost predicate Continues(s: Server, s': Server) {
    exists states: seq<Server>, acts: seq<Action> :: Path(states, acts) && states[0] == s && states[|acts|] == s'
  }

  lemma ContinuesItself(s: Server)
    ensures Continues(s, s)
  {
    var states: seq<Server>, acts: seq<Action> := [s], [];
    assert Path(states, acts) && states[0] == s && states[|acts|] == s;
  }

  lemma Next(s0: Server, s: Server, a: Action)
    requires Continues(s0, s) && Enabled(s, a)
    ensures Continues(s0, Apply(s, a))
  {
    var states: seq<Server>, acts: seq<Action> :| Path(states, acts) && states[0] == s0 && states[|acts|] == s;
    var states', acts' := states + [Apply(s, a)], acts + [a];
    StepIs(s, a);
    hide Apply, Enabled, Step;
    forall i | 0 <= i < |acts'| ensures Step(states'[i], acts'[i], states'[i + 1]) {
      if i < |acts| {
        assert Step(states[i], acts[i], states[i + 1]);
      }
    }
    assert Path(states', acts') && states'[0] == s0 && states'[|acts'|] == Apply(s, a);
  }

  lemma ContinuesReachable(s: Server, s': Server)
    requires Reachable(s) && Continues(s, s')
    ensures Reachable(s')
  {
    var states: seq<Server>, acts: seq<Action> :| Path(states, acts) && states[0] == s && states[|acts|] == s';
    ReachableAlong(states, acts, |acts|);
  }

  lemma {:induction false} ReachableAlong(states: seq<Server>, acts: seq<Action>, i: nat)
    requires Path(states, acts) && Reachable(states[0]) && i <= |acts|
    ensures Reachable(states[i])
  {
    if i > 0 {
      ReachableAlong(states, acts, i - 1);
      assert Step(states[i - 1], acts[i - 1], states[i - 1 + 1]);
      hide Apply, Enabled, Reachable;
      ReachableStep(states[i - 1], acts[i - 1]);
    }
  }

  /** The pending exec goroutines all set Ready. */
  lemma {:induction false} AllSetReady(s0: Server, s: Server, id: Uuid) returns (s': Server)
    requires Continues(s0, s) && id in s.services
    ensures Continues(s0, s') && id in s'.services && s'.services[id].readying == 0
    ensures s'.services[id].execs == s.services[id].execs && s'.services[id].stoppable == s.services[id].stoppable
    decreases s.services[id].readying
  {
    hide Continues;
    s' := s;
    if s.services[id].readying > 0 {
      Next(s0, s, Local(id, MakeReady));
      s' := With(s, id, After(s.services[id], s.done, MakeReady));
      s' := AllSetReady(s0, s', id);
    }
  }

  lemma ReadyOnce(h: seq<SvcState>)
    requires Forward(h)
    ensures multiset(h)[Ready] <= 1
  {
  }

  lemma StoppableStays(s: Server, a: Action, id: Uuid)
    requires Enabled(s, a) && id in s.services
    ensures id in Apply(s, a).services && Apply(s, a).services[id].stoppable == s.services[id].stoppable
  {
    hide NewService;
  }

  lemma {:induction false} StoppablePath(states: seq<Server>, acts: seq<Action>, id: Uuid, i: nat)
    requires Path(states, acts) && id in states[0].services && i <= |acts|
    ensures id in states[i].services && states[i].services[id].stoppable == states[0].services[id].stoppable
  {
    if i > 0 {
      StoppablePath(states, acts, id, i - 1);
      assert Step(states[i - 1], acts[i - 1], states[i - 1 + 1]);
      hide Apply, Enabled;
      StoppableStays(states[i - 1], acts[i - 1], id);
    }
  }

  lemma StoppableLasts(s: Server, s': Server, id: Uuid)
    requires Continues(s, s') && id in s.services
    ensures id in s'.services && s'.services[id].stoppable == s.services[id].stoppable
  {
    var states: seq<Server>, acts: seq<Action> :| Path(states, acts) && states[0] == s && states[|acts|] == s';
    StoppablePath(states, acts, id, |acts|);
  }

  /** Without a stop channel the state moves only forward in every continuation without further
      successful `ExecService` calls if and only if at most one has succeeded. */
  lemma ForwardCondition(s: Server, id: Uuid)
    requires Reachable(s) && id in s.services && !s.services[id].stoppable
    ensures (forall s' :: Continues(s, s') && id in s'.services && s'.services[id].execs == s.services[id].execs
                          ==> Forward(s'.services[id].history))
            <==> s.services[id].execs <= 1
  {
    if s.services[id].execs <= 1 {
      forall s' | Continues(s, s') && id in s'.services && s'.services[id].execs == s.services[id].execs
        ensures Forward(s'.services[id].history) {
        ContinuesReachable(s, s');
        StoppableLasts(s, s', id);
        OneShotLifecycle(s', id);
      }
    } else {
      ContinuesItself(s);
      var s' := AllSetReady(s, s, id);
      ContinuesReachable(s, s');
      InvOf(s', id);
      hide Continues, Reachable;
      if Forward(s'.services[id].history) {
        ReadyOnce(s'.services[id].history);
      }
    }
  }

  // ---------------------------------------------------------------- the send inside the lock

  /** While a `ResumeService` call waits to send and the loop is neither waiting nor about to be, the
      lock and the loop stay as they are in every continuation: no call that needs the lock returns. */
  ghost predicate Jammed(s: Server) {
    s.lock.Resuming? && s.lock.sending && (s.loop.Got? || s.loop == Stopped || s.loop == Leaving)
  }

  lemma {:induction false} JammedForGood(states: seq<Server>, acts: seq<Action>, i: nat)
    requires Path(states, acts) && i <= |acts| && Jammed(states[0])
    ensures states[i].lock == states[0].lock && states[i].loop == states[0].loop
  {
    if i > 0 {
      JammedForGood(states, acts, i - 1);
      assert Step(states[i - 1], acts[i - 1], states[i - 1 + 1]);
    }
  }

  /** Otherwise the call can go on: its send is taken at once, or after the loop has checked the id it
      holds. */
  lemma ResumeGoesOn(s: Server)
    requires Reachable(s) && s.lock.Resuming? && s.lock.sending && !Jammed(s)
    ensures Enabled(s, ResumeSend) || (Enabled(s, CheckReady) && Enabled(Apply(s, CheckReady), ResumeSend))
  {
    InvReachable(s);
    hide Reachable;
  }

  /** It happens already when a service is resumed on a server that was never started. */
  lemma JammedIsReachable() returns (s: Server)
    ensures Reachable(s) && Jammed(s)
  {
    hide Reachable;
    InitReachable();
    s := Init();
    ReachableStep(s, AddService(Id(1), true));
    s := Apply(s, AddService(Id(1), true));
    ReachableStep(s, BeginResume(Id(1)));
    s := Apply(s, BeginResume(Id(1)));
    ReachableStep(s, ResumeReady);
    s := Apply(s, ResumeReady);
  }

  // ---------------------------------------------------------------- over time

  lemma HistoryLocal(v: Service, done: bool, step: SvcStep)
    requires Possible(v, done, step)
    ensures v.history <= After(v, done, step).history && v.history <= ApplyExec(v).history && v.history <= ApplyStop(v).history
  {
  }

  lemma HistoryStep(s: Server, a: Action, id: Uuid)
    requires Enabled(s, a) && id in s.services
    ensures id in Apply(s, a).services && s.services[id].history <= Apply(s, a).services[id].history
  {
    HistoryLocal(s.services[id], s.done, SvcStep.Exec);
    if a.Local? {
      HistoryLocal(s.services[id], s.done, if a.id == id then a.step else SvcStep.Exec);
    }
    hide After, Possible, ApplyExec, ApplyStop, NewService;
  }

  /** A registered service stays registered, and its history only grows. */
  lemma {:induction false} HistoryGrows(states: seq<Server>, acts: seq<Action>, i: nat, j: nat, id: Uuid)
    requires Path(states, acts) && i <= j <= |acts| && id in states[i].services
    ensures id in states[j].services && states[i].services[id].history <= states[j].services[id].history
  {
    if i < j {
      HistoryGrows(states, acts, i, j - 1, id);
      assert Step(states[j - 1], acts[j - 1], states[j - 1 + 1]);
      hide Apply, Enabled;
      HistoryStep(states[j - 1], acts[j - 1], id);
    }
  }

  /** The service has finished and none of its goroutines is about to set Ready, start or finish it.
      A request to run it may still be on its way to the loop. */
  ghost predicate Settled(s: Server, id: Uuid) {
    && id in s.services && !Resumed(s, id)
    && SettledRecord(s.services[id])
  }

  ghost predicate SettledRecord(v: Service) {
    (v.state == Ended || v.state == Failed) && v.readying == 0 && v.launching == 0 && v.running == 0
  }

  lemma SettledLocal(v: Service, done: bool, step: SvcStep)
    requires SettledRecord(v) && Possible(v, done, step)
    ensures SettledRecord(After(v, done, step)) && After(v, done, step).starts == v.starts
  {
  }

  lemma SettledStep(s: Server, a: Action, id: Uuid)
    requires Settled(s, id) && Enabled(s, a) && a != BeginResume(id)
    ensures Settled(Apply(s, a), id) && Apply(s, a).services[id].starts == s.services[id].starts
  {
    var v := s.services[id];
    SettledLocal(v, s.done, SvcStep.Exec);
    SettledLocal(v, s.done, SvcStep.Stop);
    if a.Local? && a.id == id {
      SettledLocal(v, s.done, a.step);
    }
    hide After, Possible, NewService;
  }

  /** A finished service is not started again in any continuation without a `ResumeService` call for
      it, even if a second request to run it is still pending: the loop's check of the state drops it. */
  lemma {:induction false} SettledForGood(states: seq<Server>, acts: seq<Action>, id: Uuid, i: nat)
    requires Path(states, acts) && i <= |acts| && Settled(states[0], id)
    requires forall k :: 0 <= k < i ==> acts[k] != BeginResume(id)
    ensures Settled(states[i], id) && states[i].services[id].starts == states[0].services[id].starts
  {
    if i > 0 {
      SettledForGood(states, acts, id, i - 1);
      assert Step(states[i - 1], acts[i - 1], states[i - 1 + 1]);
      hide Apply, Enabled, Settled;
      SettledStep(states[i - 1], acts[i - 1], id);
    }
  }
}
