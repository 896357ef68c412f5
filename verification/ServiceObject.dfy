/** The service server and its records as objects, and the loops that wait for services. Every
    operation is one or more steps of the state machine, so it leads from a reachable state to a
    reachable state. */
module ServiceObject {
  import opened Wrappers
  import opened Events
  import opened Services
  import opened WaitForServices

  datatype S2Error = NoService | NotRunned | AlreadyRunned | Missing | InvalidState | NoStopChannel | IsRunning

  lemma Keeps(s: Server, a: Action)
    requires Enabled(s, a)
    ensures Reachable(s) ==> Reachable(Apply(s, a))
  {
    hide Reachable, Enabled, Apply;
    if Reachable(s) {
      ReachableStep(s, a);
    }
  }

  // ---------------------------------------------------------------- what one call does

  /** The loop looks the received id up and launches the service if it is Ready. */
  function Checked(s: Server): Server
    requires s.loop.Got?
  {
    var found := ApplyLookUp(s);
    if found.loop.Found? then ApplyCheckReady(found) else found
  }

  lemma CheckedIs(s: Server)
    requires s.loop.Got?
    ensures Checked(s) == if s.loop.id in s.services && s.services[s.loop.id].state == Ready
                          then With(s.(loop := Waiting), s.loop.id, s.services[s.loop.id].(launching := s.services[s.loop.id].launching + 1))
                          else s.(loop := Waiting)
  {
  }

  lemma CheckedKeeps(s: Server)
    requires s.loop.Got? && s.lock == Free
    ensures Reachable(s) ==> Reachable(Checked(s))
  {
    hide Reachable;
    Keeps(s, LookUp);
    if ApplyLookUp(s).loop.Found? {
      Keeps(ApplyLookUp(s), CheckReady);
    }
  }

  /** The loop receives from the sender of one service and handles the id. */
  function Handle(s: Server, id: Uuid): Server
    requires id in s.services && s.services[id].sending > 0
  {
    Checked(ApplySendRun(s, id))
  }

  lemma HandleKeeps(s: Server, id: Uuid)
    requires id in s.services && s.services[id].sending > 0 && s.lock == Free && s.loop == Waiting
    ensures Reachable(s) ==> Reachable(Handle(s, id))
    ensures Handle(s, id).loop == Waiting && Handle(s, id).lock == Free
  {
    hide Reachable;
    Keeps(s, SendRun(id));
    CheckedKeeps(ApplySendRun(s, id));
    CheckedIs(ApplySendRun(s, id));
  }

  /** There is a sender for every id of the sequence when its turn comes. */
  ghost predicate Sendable(s: Server, ids: seq<Uuid>)
    decreases |ids|
  {
    ids == [] || (ids[0] in s.services && s.services[ids[0]].sending > 0 && Sendable(Handle(s, ids[0]), ids[1..]))
  }

  ghost function HandleAll(s: Server, ids: seq<Uuid>): Server
    requires Sendable(s, ids)
    decreases |ids|
  {
    if ids == [] then s else HandleAll(Handle(s, ids[0]), ids[1..])
  }

  lemma {:induction false} HandleAllKeeps(s: Server, ids: seq<Uuid>)
    requires Sendable(s, ids) && s.lock == Free && s.loop == Waiting
    ensures Reachable(s) ==> Reachable(HandleAll(s, ids))
    decreases |ids|
  {
    hide Reachable, Handle;
    if ids != [] {
      HandleKeeps(s, ids[0]);
      HandleAllKeeps(Handle(s, ids[0]), ids[1..]);
    }
  }

  /** The loop receives from its senders and then finds its context done. */
  ghost function LoopRuns(s: Server, ids: seq<Uuid>): Server
    requires Sendable(s, ids)
  {
    HandleAll(s, ids).(done := true, runned := false, loop := Stopped)
  }

  lemma LoopRunsIs(s: Server, ids: seq<Uuid>)
    requires Sendable(s, ids)
    ensures LoopRuns(s, ids) == HandleAll(s, ids).(done := true, runned := false, loop := Stopped)
  {
  }

  lemma NothingHandled(s: Server, ids: seq<Uuid>)
    ensures ids[0..] == ids && Sendable(s, ids[|ids|..]) && HandleAll(s, ids[|ids|..]) == s
  {
  }

  lemma NextHandled(s: Server, ids: seq<Uuid>, i: nat)
    requires i < |ids| && Sendable(s, ids[i..])
    ensures ids[i] in s.services && s.services[ids[i]].sending > 0
    ensures Sendable(Handle(s, ids[i]), ids[i + 1..]) && HandleAll(s, ids[i..]) == HandleAll(Handle(s, ids[i]), ids[i + 1..])
  {
    assert ids[i..][0] == ids[i] && ids[i..][1..] == ids[i + 1..];
  }

  lemma {:induction false} HandleAllWaits(s: Server, ids: seq<Uuid>)
    requires Sendable(s, ids) && s.lock == Free && s.loop == Waiting
    ensures HandleAll(s, ids).lock == Free && HandleAll(s, ids).loop == Waiting
    decreases |ids|
  {
    hide Handle;
    if ids != [] {
      HandleKeeps(s, ids[0]);
      HandleAllWaits(Handle(s, ids[0]), ids[1..]);
    }
  }

  lemma LoopRunsKeeps(s: Server, ids: seq<Uuid>)
    requires Sendable(s, ids) && s.lock == Free && s.loop == Waiting
    ensures Reachable(s) ==> Reachable(LoopRuns(s, ids))
  {
    hide Reachable, HandleAll;
    HandleAllKeeps(s, ids);
    HandleAllWaits(s, ids);
    var last := HandleAll(s, ids);
    Keeps(last, Cancel);
    Keeps(last.(done := true), LoopLeaves);
    Keeps(last.(done := true, loop := Leaving), LoopEnds);
  }

  /** The three steps of a resume that does not have to wait for the loop. */
  function Resume(s: Server, id: Uuid): Server
    requires id in s.services && s.services[id].stoppable && s.services[id].state != Running
  {
    ApplyResumeSend(ApplyResumeReady(ApplyBeginResume(s, id)))
  }

  lemma ResumeIs(s: Server, id: Uuid)
    requires id in s.services && s.services[id].stoppable && s.services[id].state != Running && s.lock == Free
    ensures var v := Services.SetState(s.services[id], Ready, false);
            Resume(s, id) == With(s, id, v.(resumes := v.resumes + 1)).(loop := Got(id))
  {
    var t := ApplyResumeReady(ApplyBeginResume(s, id));
    assert s.services[id := Services.SetState(s.services[id], Ready, false)][id := ApplyResumeSend(t).services[id]] ==
           s.services[id := ApplyResumeSend(t).services[id]];
  }

  /** The send waits while the loop does not. */
  function Sending(s: Server, id: Uuid): Server
    requires id in s.services && s.services[id].stoppable && s.services[id].state != Running
  {
    ApplyResumeReady(ApplyBeginResume(s, id))
  }

  lemma ResumingIs(s: Server, id: Uuid)
    requires id in s.services && s.services[id].stoppable && s.services[id].state != Running
    ensures Sending(s, id) == With(s, id, Services.SetState(s.services[id], Ready, false)).(lock := Resuming(id, true))
  {
  }

  lemma ResumeKeeps(s: Server, id: Uuid)
    requires id in s.services && s.services[id].stoppable && s.services[id].state != Running && s.lock == Free
    ensures Reachable(s) ==> Reachable(Sending(s, id))
    ensures Reachable(s) && s.loop == Waiting ==> Reachable(Resume(s, id))
  {
    hide Reachable;
    Keeps(s, BeginResume(id));
    Keeps(ApplyBeginResume(s, id), ResumeReady);
    if s.loop == Waiting {
      Keeps(Sending(s, id), ResumeSend);
    }
  }

  /** A local step of one service, or two. */
  lemma LocalKeeps(s: Server, id: Uuid, step: SvcStep)
    requires id in s.services && Possible(s.services[id], s.done, step) && !step.Exec? && !step.Stop?
    ensures Reachable(s) ==> Reachable(With(s, id, After(s.services[id], s.done, step)))
  {
    hide Reachable, Possible, After;
    Keeps(s, Local(id, step));
  }

  lemma WithTwice(s: Server, id: Uuid, v: Service, v': Service)
    ensures With(With(s, id, v), id, v') == With(s, id, v')
  {
  }

  lemma RunKeeps(s: Server, id: Uuid, err: bool)
    requires id in s.services && s.services[id].launching > 0
    ensures Reachable(s) ==> Reachable(With(s, id, ApplyFinish(ApplyStart(s.services[id]), err)))
  {
    hide Reachable;
    var v := s.services[id];
    LocalKeeps(s, id, SvcStep.Start);
    LocalKeeps(With(s, id, ApplyStart(v)), id, SvcStep.Finish(err));
    WithTwice(s, id, ApplyStart(v), ApplyFinish(ApplyStart(v), err));
  }

  /** What a stopper does whose signal the service takes. */
  function StoppedBy(v: Service): Service
    requires v.stopping > 0
  {
    After(After(v, false, TakeStop), false, SetStopped)
  }

  lemma StopKeeps(s: Server, id: Uuid)
    requires id in s.services && s.services[id].stopping > 0
    ensures Reachable(s) ==> Reachable(With(s, id, StoppedBy(s.services[id])))
  {
    hide Reachable;
    var v := s.services[id];
    LocalKeeps(s, id, TakeStop);
    LocalKeeps(With(s, id, After(v, false, TakeStop)), id, SetStopped);
    WithTwice(s, id, After(v, false, TakeStop), StoppedBy(v));
  }

  // ---------------------------------------------------------------- the objects

  lemma OneChanged(a: map<Uuid, Service>, b: map<Uuid, Service>, id: Uuid)
    requires id in b && (forall j :: j in b <==> j in a || j == id) && forall j :: j in b && j != id ==> b[j] == a[j]
    ensures b == a[id := b[id]]
  {
  }

  class ServiceRecord {
    const id: Uuid
    const stoppable: bool
    var state: SvcState
    var failed: bool
    var readying: nat
    var sending: nat
    var launching: nat
    var running: nat
    var stopping: nat
    var stopped: nat
    ghost var history: seq<SvcState>
    ghost var execs: nat
    ghost var resumes: nat
    ghost var starts: nat

    ghost function Value(): Service
      reads this
    {
      Service(state, failed, stoppable, readying, sending, launching, running, stopping, stopped, history, execs, resumes, starts)
    }

    constructor (id: Uuid, stoppable: bool)
      ensures Value() == NewService(stoppable) && this.id == id
      ensures state == Registered && this.stoppable == stoppable && readying == 0
    {
      this.id, this.stoppable := id, stoppable;
      state, failed := Registered, false;
      readying, sending, launching, running, stopping, stopped := 0, 0, 0, 0, 0, 0;
      history, execs, resumes, starts := [Registered], 0, 0, 0;
    }

    method SetState(ns: SvcState, err: bool)
      modifies this`state, this`failed, this`history
      ensures Value() == Services.SetState(old(Value()), ns, err)
    {
      state := ns;
      failed := err;
      history := history + [ns];
    }

    /** The part of `ExecService` that concerns the record. */
    method Exec() returns (ok: bool)
      modifies this
      ensures ok <==> old(state) == Registered
      ensures Value() == ApplyExec(old(Value()))
      ensures readying == old(readying) + (if ok then 1 else 0) && state == old(state)
    {
      if state != Registered {
        return false;
      }
      readying, execs := readying + 1, execs + 1;
      return true;
    }

    /** The exec goroutine up to its send. */
    method MakeReady()
      requires Possible(Value(), false, SvcStep.MakeReady)
      modifies this
      ensures Value() == After(old(Value()), false, SvcStep.MakeReady)
      ensures state == Ready && !failed && readying == old(readying) - 1 && sending == old(sending) + 1
    {
      SetState(Ready, false);
      readying, sending := readying - 1, sending + 1;
    }

    /** The goroutine of a launched service whose `Run` returns `err`. */
    method RunService(err: bool)
      requires launching > 0
      modifies this
      ensures Value() == ApplyFinish(ApplyStart(old(Value())), err)
      ensures state == (if err then Failed else Ended) && failed == err
    {
      launching, running, starts := launching - 1, running + 1, starts + 1;
      SetState(Running, false);
      if err {
        SetState(Failed, true);
      } else {
        SetState(Ended, false);
      }
      running := running - 1;
    }

    method Stop() returns (ok: bool)
      modifies this
      ensures ok <==> old(state) == Running
      ensures Value() == ApplyStop(old(Value()))
      ensures stopping == old(stopping) + (if ok && stoppable then 1 else 0) && state == old(state)
    {
      if state != Running {
        return false;
      }
      if stoppable {
        stopping := stopping + 1;
      }
      return true;
    }

    /** The stopper goroutine whose service takes the signal. */
    method StopNow()
      requires stopping > 0
      modifies this
      ensures Value() == StoppedBy(old(Value()))
      ensures state == Ended && !failed && stopping == old(stopping) - 1
    {
      stopping := stopping - 1;
      SetState(Ended, false);
    }
  }

  class ServiceServer {
    var runned: bool
    var done: bool
    var lock: Lock
    var loop: Loop
    var services: map<Uuid, ServiceRecord>

    /** Every record is stored under its id, so no two ids share one. */
    ghost predicate Valid()
      reads this`services
    {
      forall id :: id in services ==> services[id].id == id
    }

    ghost function Records(): map<Uuid, Service>
      reads this`services, services.Values
    {
      map id | id in services :: services[id].Value()
    }

    ghost function View(): Server
      reads this, services.Values
    {
      Server(runned, done, lock, loop, Records())
    }

    constructor ()
      ensures Valid() && View() == Init() && Reachable(View())
    {
      InitReachable();
      hide Reachable;
      runned, done, lock, loop, services := false, false, Free, Stopped, map[];
    }

    method Run() returns (r: Outcome<S2Error>)
      requires Valid() && lock == Free
      modifies this`runned, this`done, this`loop
      ensures Valid() && View() == ApplyRun(old(View()))
      ensures r == if old(runned) then Err(AlreadyRunned) else Ok
      ensures r.Ok? ==> runned && !done && loop == Waiting
      ensures Reachable(old(View())) ==> Reachable(View())
    {
      hide Reachable;
      Keeps(View(), Action.Run);
      if runned {
        return Err(AlreadyRunned);
      }
      runned, done, loop := true, false, Waiting;
      return Ok;
    }

    method AddService(id: Uuid, hasService: bool, stoppable: bool, startImmediately: bool) returns (r: Outcome<S2Error>)
      requires Valid() && lock == Free && id != Nil && id !in services
      modifies this`services
      ensures Valid()
      ensures !hasService ==> r == Err(NoService) && View() == old(View())
      ensures hasService && !startImmediately ==> r == Ok && View() == With(old(View()), id, NewService(stoppable))
      ensures hasService && startImmediately ==>
                && View() == ApplyExecService(With(old(View()), id, NewService(stoppable)), id, runned)
                && r == if runned then Ok else Err(NoService)
      ensures hasService ==> id in services && services[id].state == Registered && services[id].stoppable == stoppable
      ensures hasService ==> services[id].readying == if startImmediately && runned then 1 else 0
      ensures Reachable(old(View())) ==> Reachable(View())
    {
      hide Reachable;
      Keeps(View(), Action.AddService(id, stoppable));
      Keeps(With(View(), id, NewService(stoppable)), Action.ExecService(id, runned));
      if !hasService {
        return Err(NoService);
      }
      Register(id, stoppable);
      if startImmediately {
        r := ExecFresh(id);
        return;
      }
      return Ok;
    }

    method Register(id: Uuid, stoppable: bool)
      requires Valid() && id !in services
      modifies this`services
      ensures Valid() && id in services && fresh(services[id]) && services[id].state == Registered
      ensures services[id].stoppable == stoppable && services[id].readying == 0
      ensures View() == With(old(View()), id, NewService(stoppable))
    {
      hide NewService;
      ghost var before := View();
      var sr := new ServiceRecord(id, stoppable);
      services := services[id := sr];
      OneChanged(before.services, View().services, id);
    }

    /** `ExecService` for a service added by the same call. */
    method ExecFresh(id: Uuid) returns (r: Outcome<S2Error>)
      requires Valid() && id in services && services[id].state == Registered
      modifies services[id]
      ensures Valid() && View() == ApplyExecService(old(View()), id, runned)
      ensures r == if runned then Ok else Err(NoService)
      ensures services[id].state == Registered && services[id].readying == old(services[id].readying) + if runned then 1 else 0
    {
      if !runned {
        return Err(NoService);
      }
      var ok := ExecRecord(id);
      return Ok;
    }

    method ExecRecord(id: Uuid) returns (ok: bool)
      requires Valid() && id in services
      modifies services[id]
      ensures Valid() && ok == (old(services[id].state) == Registered)
      ensures services[id].readying == old(services[id].readying) + (if ok then 1 else 0) && services[id].state == old(services[id].state)
      ensures View() == With(old(View()), id, ApplyExec(old(View()).services[id]))
    {
      hide ApplyExec;
      ghost var before := View();
      ok := services[id].Exec();
      Others(before, id);
    }

    /** The records of the other ids are other objects. */
    lemma Others(before: Server, id: Uuid)
      requires Valid() && id in services && forall j :: j in before.services <==> j in services
      requires forall j :: j in services && j != id ==> services[j].Value() == before.services[j]
      ensures View().services == before.services[id := services[id].Value()]
    {
      OneChanged(before.services, View().services, id);
    }

    method ExecService(id: Uuid) returns (r: Outcome<S2Error>)
      requires Valid() && lock == Free
      modifies services.Values
      ensures Valid() && View() == ApplyExecService(old(View()), id, runned)
      ensures r == if !runned then Err(NoService)
                   else if id !in services then Err(Missing)
                   else if old(services[id].state) != Registered then Err(InvalidState)
                   else Ok
      ensures r.Err? ==> View() == old(View())
      ensures id in services ==> services[id].readying == old(services[id].readying) + if r.Ok? then 1 else 0
      ensures Reachable(old(View())) ==> Reachable(View())
    {
      hide Reachable;
      Keeps(View(), Action.ExecService(id, runned));
      if !runned {
        return Err(NoService);
      }
      if id !in services {
        return Err(Missing);
      }
      var ok := ExecRecord(id);
      return if ok then Ok else Err(InvalidState);
    }

    method StopService(id: Uuid) returns (r: Outcome<S2Error>)
      requires Valid()
      modifies services.Values
      ensures Valid() && View() == ApplyStopService(old(View()), id, runned)
      ensures r == if !runned then Err(NotRunned)
                   else if id !in services then Err(Missing)
                   else if old(services[id].state) != Running then Err(InvalidState)
                   else Ok
      ensures r.Err? ==> View() == old(View())
      ensures id in services ==> services[id].stopping == old(services[id].stopping) + if r.Ok? && services[id].stoppable then 1 else 0
      ensures forall j :: j in services ==> services[j].state == old(services[j].state)
      ensures Reachable(old(View())) ==> Reachable(View())
    {
      hide Reachable;
      Keeps(View(), Action.StopService(id, runned));
      hide ApplyStop;
      if !runned {
        return Err(NotRunned);
      }
      if id !in services {
        return Err(Missing);
      }
      ghost var before := View();
      var ok := services[id].Stop();
      Others(before, id);
      return if ok then Ok else Err(InvalidState);
    }

    /** When the loop waits it takes the id; otherwise the call stays in its send, inside the lock. */
    method ResumeService(id: Uuid) returns (r: Outcome<S2Error>, sent: bool)
      requires Valid() && lock == Free
      modifies this`loop, this`lock, services.Values
      ensures Valid()
      ensures r == if id !in services then Err(Missing)
                   else if !services[id].stoppable then Err(NoStopChannel)
                   else if old(services[id].state) == Running then Err(IsRunning)
                   else Ok
      ensures r.Err? ==> View() == old(View())
      ensures r.Ok? ==> sent == (old(loop) == Waiting) && View() == if sent then Resume(old(View()), id) else Sending(old(View()), id)
      ensures r.Ok? ==> services[id].state == Ready && if sent then loop == Got(id) && lock == Free else lock == Resuming(id, true)
      ensures Reachable(old(View())) ==> Reachable(View())
    {
      hide *;
      sent := false;
      RecordAt(id);
      if id !in services {
        return Err(Missing), sent;
      }
      if !services[id].stoppable {
        return Err(NoStopChannel), sent;
      }
      if services[id].state == Running {
        return Err(IsRunning), sent;
      }
      ResumeIs(View(), id);
      ResumingIs(View(), id);
      ResumeKeeps(View(), id);
      if loop == Waiting {
        MakeResumed(id);
        HandOver(id);
        return Ok, true;
      }
      MakeReadyAgain(id);
      KeepLock(id);
      return Ok, sent;
    }

    lemma LockAndLoop()
      ensures View().lock == lock && View().loop == loop
    {
    }

    lemma RecordAt(id: Uuid)
      ensures id in View().services <==> id in services
      ensures id in services ==> View().services[id].stoppable == services[id].stoppable && View().services[id].state == services[id].state
      ensures id in services ==> View().services[id].sending == services[id].sending
      ensures View().lock == lock && View().loop == loop
    {
    }

    /** The send that nobody receives yet. */
    method KeepLock(id: Uuid)
      requires Valid()
      modifies this`lock
      ensures Valid() && View() == old(View()).(lock := Resuming(id, true)) && lock == Resuming(id, true)
    {
      lock := Resuming(id, true);
    }

    method MakeReadyAgain(id: Uuid)
      requires Valid() && id in services
      modifies services[id]
      ensures Valid() && View() == With(old(View()), id, Services.SetState(old(View()).services[id], Ready, false))
      ensures services[id].state == Ready
    {
      ghost var before := View();
      services[id].SetState(Ready, false);
      Others(before, id);
    }

    /** The send that the waiting loop receives. */
    method HandOver(id: Uuid)
      requires Valid()
      modifies this`loop
      ensures Valid() && View() == old(View()).(loop := Got(id)) && loop == Got(id)
    {
      loop := Got(id);
    }

    method MakeResumed(id: Uuid)
      requires Valid() && id in services
      modifies services[id]
      ensures Valid()
      ensures var v := Services.SetState(old(View()).services[id], Ready, false);
              View() == With(old(View()), id, v.(resumes := v.resumes + 1))
      ensures services[id].state == Ready
    {
      ghost var before := View();
      services[id].SetState(Ready, false);
      services[id].resumes := services[id].resumes + 1;
      Others(before, id);
    }

    /** The loop receives from the sender of a service. */
    method TakeSend(id: Uuid)
      requires Valid() && loop == Waiting && id in services && services[id].sending > 0
      modifies this`loop, services[id]
      ensures Valid() && View() == ApplySendRun(old(View()), id)
    {
      DropSend(id);
      HandOver(id);
    }

    method DropSend(id: Uuid)
      requires Valid() && id in services && services[id].sending > 0
      modifies services[id]
      ensures Valid() && View() == With(old(View()), id, old(View()).services[id].(sending := old(View()).services[id].sending - 1))
    {
      ghost var before := View();
      services[id].sending := services[id].sending - 1;
      Others(before, id);
    }

    /** The loop handles the id it has received, from a sender or from a resume. */
    method CheckGot()
      requires Valid() && loop.Got? && lock == Free
      modifies this`loop, services.Values
      ensures Valid() && View() == Checked(old(View())) && loop == Waiting
      ensures var id := old(loop.id);
              id in services ==> services[id].launching == old(services[id].launching) + if services[id].state == Ready then 1 else 0
      ensures Reachable(old(View())) ==> Reachable(View())
    {
      hide *;
      LockAndLoop();
      var id := loop.id;
      CheckedKeeps(View());
      CheckedIs(View());
      RecordAt(id);
      Wait();
      RecordAt(id);
      if id !in services {
        return;
      }
      if services[id].state != Ready {
        return;
      }
      Launch(id);
    }

    /** The loop is back at its select. */
    method Wait()
      requires Valid()
      modifies this`loop
      ensures Valid() && loop == Waiting && View() == old(View()).(loop := Waiting)
    {
      loop := Waiting;
    }

    method HandleOne(id: Uuid)
      requires Valid() && loop == Waiting && lock == Free && id in services && services[id].sending > 0
      modifies this`loop, services.Values
      ensures Valid() && View() == Handle(old(View()), id)
      ensures Reachable(old(View())) ==> Reachable(View())
    {
      HandleKeeps(View(), id);
      hide Reachable, Checked;
      TakeSend(id);
      CheckGot();
    }

    /** The goroutine of a successful `ExecService`, up to its send. */
    method ExecTask(id: Uuid)
      requires Valid() && id in services && services[id].readying > 0
      modifies services[id]
      ensures Valid() && View() == With(old(View()), id, After(old(View()).services[id], false, SvcStep.MakeReady))
      ensures services[id].state == Ready && services[id].sending == old(services[id].sending) + 1
      ensures Reachable(old(View())) ==> Reachable(View())
    {
      LocalKeeps(View(), id, SvcStep.MakeReady);
      hide Reachable;
      ghost var before := View();
      services[id].MakeReady();
      Others(before, id);
    }

    /** The goroutine of a launched service. */
    method ServiceTask(id: Uuid, err: bool)
      requires Valid() && id in services && services[id].launching > 0
      modifies services[id]
      ensures Valid() && View() == With(old(View()), id, ApplyFinish(ApplyStart(old(View()).services[id]), err))
      ensures services[id].state == (if err then Failed else Ended) && services[id].failed == err
      ensures Reachable(old(View())) ==> Reachable(View())
    {
      RunKeeps(View(), id, err);
      hide Reachable, ApplyFinish, ApplyStart;
      ghost var before := View();
      services[id].RunService(err);
      Others(before, id);
    }

    /** The stopper goroutine whose service takes the signal. */
    method StopTask(id: Uuid)
      requires Valid() && id in services && services[id].stopping > 0
      modifies services[id]
      ensures Valid() && View() == With(old(View()), id, StoppedBy(old(View()).services[id]))
      ensures services[id].state == Ended && !services[id].failed && services[id].stopping == old(services[id].stopping) - 1
      ensures Reachable(old(View())) ==> Reachable(View())
    {
      StopKeeps(View(), id);
      hide Reachable, StoppedBy;
      ghost var before := View();
      services[id].StopNow();
      Others(before, id);
    }

    method Launch(id: Uuid)
      requires Valid() && id in services
      modifies services[id]
      ensures Valid() && View() == With(old(View()), id, old(View()).services[id].(launching := old(View()).services[id].launching + 1))
      ensures services[id].launching == old(services[id].launching) + 1 && services[id].state == old(services[id].state)
    {
      ghost var before := View();
      services[id].launching := services[id].launching + 1;
      Others(before, id);
    }

    /** The processing loop, for the senders it receives from and the order it does so in, until it
        finds its context done and clears the running flag. */
    method Loop(ids: seq<Uuid>)
      requires Valid() && loop == Waiting && lock == Free && Sendable(View(), ids)
      modifies this`loop, this`done, this`runned, services.Values
      ensures Valid() && View() == LoopRuns(old(View()), ids)
      ensures !runned && done && loop == Stopped
      ensures Reachable(old(View())) ==> Reachable(View())
    {
      hide *;
      ghost var s := View();
      LockAndLoop();
      LoopRunsKeeps(s, ids);
      NothingHandled(s, ids);
      for i := 0 to |ids|
        invariant Valid() && loop == Waiting && lock == Free && Sendable(View(), ids[i..])
        invariant HandleAll(View(), ids[i..]) == HandleAll(s, ids)
      {
        NextHandled(View(), ids, i);
        RecordAt(ids[i]);
        HandleKeeps(View(), ids[i]);
        HandleOne(ids[i]);
        LockAndLoop();
      }
      NothingHandled(View(), ids);
      LoopRunsIs(s, ids);
      End();
    }

    /** The loop finds its context done. */
    method End()
      requires Valid()
      modifies this`loop, this`done, this`runned
      ensures Valid() && View() == old(View()).(done := true, runned := false, loop := Stopped)
      ensures !runned && done && loop == Stopped
    {
      done := true;
      runned, loop := false, Stopped;
    }

    /** The loop over the records of a wait for all: whom it starts a waiter for, and how large the
        accumulator channel's buffer is. Every running service gets exactly one waiter. */
    method Scan() returns (ids: seq<Uuid>, srCount: nat, cap: nat)
      requires Valid() && lock == Free
      ensures srCount == |ids| && cap == |services| / 2
      ensures forall id :: id in ids <==> id in services && services[id].state == Running
      ensures forall i, j :: 0 <= i < j < |ids| ==> ids[i] != ids[j]
    {
      cap := |services| / 2;
      ids, srCount := [], 0;
      var todo := services.Keys;
      while todo != {}
        invariant todo <= services.Keys && srCount == |ids|
        invariant forall id :: id in ids <==> id in services && id !in todo && services[id].state == Running
        invariant forall i, j :: 0 <= i < j < |ids| ==> ids[i] != ids[j]
      {
        var id :| id in todo;
        todo := todo - {id};
        if services[id].state == Running {
          assert id !in ids;
          ids := ids + [id];
          srCount := srCount + 1;
        }
      }
    }
  }

  // ---------------------------------------------------------------- the loops that wait

  /** The summing goroutine, for the answers that arrive before its context is done. It says true and
      closes the channel exactly when the first `srCount` answers are there and all true. */
  method Sum(arrivals: seq<bool>, srCount: nat) returns (ok: bool, closed: bool, taken: nat)
    ensures closed == ok
    ensures ok <==> srCount <= |arrivals| && forall i :: 0 <= i < srCount ==> arrivals[i]
    ensures taken <= |arrivals| && forall i :: 0 <= i < taken - 1 ==> arrivals[i]
    ensures if ok then taken == srCount else taken == |arrivals| || (0 < taken && !arrivals[taken - 1])
  {
    var cnt := srCount;
    taken := 0;
    while cnt > 0
      invariant 0 <= cnt <= srCount && taken == srCount - cnt && taken <= |arrivals|
      invariant forall i :: 0 <= i < taken ==> arrivals[i]
    {
      if taken == |arrivals| {
        return false, false, taken;
      }
      taken := taken + 1;
      if !arrivals[taken - 1] {
        return false, false, taken;
      }
      cnt := cnt - 1;
    }
    return true, true, taken;
  }

  /** One round of a waiter: the state it reads, whether its context is done and whether somebody takes
      an answer, and which of the two its select picks when both are possible. */
  datatype Round = Round(state: SvcState, done: bool, taker: bool, pickDone: bool)

  ghost predicate Armed(rounds: seq<Round>, i: int) {
    exists k :: 0 <= k <= i && k < |rounds| && (rounds[k].state == Ended || rounds[k].state == Failed)
  }

  /** The loop of one waiter, up to a round in which its context is done. It ends in the first round in
      which the context is done, or somebody takes an answer and it has read Ended or Failed by then,
      even if the service has been resumed since; and it answers true exactly in the second case. */
  method WaitForSvc(rounds: seq<Round>) returns (answer: bool, last: nat)
    requires rounds != [] && rounds[|rounds| - 1].done
    ensures last < |rounds|
    ensures forall i :: 0 <= i < last ==> !rounds[i].done
    ensures forall i, k :: 0 <= k <= i < last && rounds[i].taker ==> rounds[k].state != Ended && rounds[k].state != Failed
    ensures answer <==>
            && rounds[last].taker && !(rounds[last].done && rounds[last].pickDone)
            && exists k :: 0 <= k <= last && (rounds[k].state == Ended || rounds[k].state == Failed)
    ensures !answer ==> rounds[last].done
  {
    var armed := false;
    last := 0;
    while true
      invariant last < |rounds| && forall i :: 0 <= i < last ==> !rounds[i].done
      invariant forall i, k :: 0 <= k <= i < last && rounds[i].taker ==> rounds[k].state != Ended && rounds[k].state != Failed
      invariant armed <==> Armed(rounds, last - 1)
      decreases |rounds| - last
    {
      if rounds[last].state == Ended || rounds[last].state == Failed {
        armed := true;
      }
      assert armed <==> Armed(rounds, last);
      if rounds[last].done && (!armed || !rounds[last].taker || rounds[last].pickDone) {
        return false, last;
      }
      if armed && rounds[last].taker {
        return true, last;
      }
      last := last + 1;
    }
  }
}
