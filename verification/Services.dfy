/** The service server as a state machine. Its goroutines are pending tasks, and every locked
    section, channel hand-over and state check of the source is one action. */
module Services {
  import opened Wrappers
  import opened Events

  datatype SvcState = Registered | Ready | Running | Ended | Failed

  /** A service record with its goroutines. `failed` says whether an error is stored. The goroutines:
      exec tasks before and after they set Ready, launched and running services, stoppers before and
      after the service took the signal. The history of the states and the counts of successful
      `ExecService` calls, completed resumes and starts are for the proofs. */
  datatype Service = Service(
    state: SvcState,
    failed: bool,
    stoppable: bool,
    readying: nat,
    sending: nat,
    launching: nat,
    running: nat,
    stopping: nat,
    stopped: nat,
    history: seq<SvcState>,
    execs: nat,
    resumes: nat,
    starts: nat)

  function NewService(stoppable: bool): Service {
    Service(Registered, false, stoppable, 0, 0, 0, 0, 0, 0, [Registered], 0, 0, 0)
  }

  /** `setState` */
  function SetState(v: Service, ns: SvcState, err: bool): Service {
    v.(state := ns, failed := err, history := v.history + [ns])
  }

  /** The steps that concern one service alone. */
  datatype SvcStep = Exec | MakeReady | DropSend | Start | Finish(err: bool) | Stop | DropStop | TakeStop | SetStopped

  predicate Possible(v: Service, done: bool, step: SvcStep) {
    match step
    case Exec => true
    case MakeReady => v.readying > 0
    case DropSend => done && v.sending > 0
    case Start => v.launching > 0
    case Finish(_) => v.running > 0
    case Stop => true
    case DropStop => done && v.stopping > 0
    case TakeStop => v.stopping > 0
    case SetStopped => v.stopped > 0
  }

  /** `ExecService` checks the state here; its goroutine sets Ready later. */
  function ApplyExec(v: Service): Service {
    if v.state != Registered then v else v.(readying := v.readying + 1, execs := v.execs + 1)
  }

  function ApplyStart(v: Service): Service
    requires v.launching > 0
  {
    SetState(v, Running, false).(launching := v.launching - 1, running := v.running + 1, starts := v.starts + 1)
  }

  function ApplyFinish(v: Service, err: bool): Service
    requires v.running > 0
  {
    SetState(v, if err then Failed else Ended, err).(running := v.running - 1)
  }

  function ApplyStop(v: Service): Service {
    if v.state == Running && v.stoppable then v.(stopping := v.stopping + 1) else v
  }

  function After(v: Service, done: bool, step: SvcStep): Service
    requires Possible(v, done, step)
  {
    match step
    case Exec => ApplyExec(v)
    case MakeReady => SetState(v, Ready, false).(readying := v.readying - 1, sending := v.sending + 1)
    case DropSend => v.(sending := v.sending - 1)
    case Start => ApplyStart(v)
    case Finish(err) => ApplyFinish(v, err)
    case Stop => ApplyStop(v)
    case DropStop => v.(stopping := v.stopping - 1)
    case TakeStop => v.(stopping := v.stopping - 1, stopped := v.stopped + 1)
    case SetStopped => SetState(v, Ended, false).(stopped := v.stopped - 1)
  }

  /** Who is inside the server's lock for longer than one step. */
  datatype Lock = Free | Resuming(id: Uuid, sending: bool) | Snapshotting

  /** Where the processing loop is. */
  datatype Loop = Stopped | Waiting | Got(id: Uuid) | Found(id: Uuid) | Leaving

  /** `done`: the context is done. */
  datatype Server = Server(runned: bool, done: bool, lock: Lock, loop: Loop, services: map<Uuid, Service>)

  function Init(): Server {
    Server(false, false, Free, Stopped, map[])
  }

  /** A call that looks at the running flag first releases the lock after that look, so `seenRunned`
      is what the look gave, whatever the flag is now. */
  datatype Action =
    | Run
    | Cancel
    | LoopLeaves
    | LoopEnds
    | AddService(id: Uuid, stoppable: bool)
    | ExecService(id: Uuid, seenRunned: bool)
    | StopService(id: Uuid, seenRunned: bool)
    | Local(id: Uuid, step: SvcStep)
    | SendRun(id: Uuid)
    | LookUp
    | CheckReady
    | BeginResume(id: Uuid)
    | ResumeReady
    | ResumeSend
    | LockSnapshot
    | UnlockSnapshot

  predicate Enabled(s: Server, a: Action) {
    match a
    case Run => s.lock == Free
    case Cancel => true
    case LoopLeaves => s.done && s.loop == Waiting
    case LoopEnds => s.loop == Leaving && s.lock == Free
    case AddService(id, _) => s.lock == Free && id != Nil && id !in s.services
    case ExecService(_, _) => s.lock == Free
    case StopService(_, _) => true
    case Local(id, step) => id in s.services && !step.Exec? && !step.Stop? && Possible(s.services[id], s.done, step)
    case SendRun(id) => id in s.services && s.services[id].sending > 0 && s.loop == Waiting
    case LookUp => s.loop.Got? && s.lock == Free
    case CheckReady => s.loop.Found? && s.loop.id in s.services
    case BeginResume(_) => s.lock == Free
    case ResumeReady => s.lock.Resuming? && !s.lock.sending && s.lock.id in s.services
    case ResumeSend => s.lock.Resuming? && s.lock.sending && s.lock.id in s.services && s.loop == Waiting
    case LockSnapshot => s.lock == Free
    case UnlockSnapshot => s.lock == Snapshotting
  }

  function With(s: Server, id: Uuid, v: Service): Server {
    s.(services := s.services[id := v])
  }

  function ApplyRun(s: Server): Server {
    if s.runned then s else s.(runned := true, done := false, loop := Waiting)
  }

  function ApplyExecService(s: Server, id: Uuid, seenRunned: bool): Server {
    if !seenRunned || id !in s.services then s else With(s, id, ApplyExec(s.services[id]))
  }

  function ApplyStopService(s: Server, id: Uuid, seenRunned: bool): Server {
    if !seenRunned || id !in s.services then s else With(s, id, ApplyStop(s.services[id]))
  }

  function ApplySendRun(s: Server, id: Uuid): Server
    requires id in s.services && s.services[id].sending > 0
  {
    With(s, id, s.services[id].(sending := s.services[id].sending - 1)).(loop := Got(id))
  }

  function ApplyLookUp(s: Server): Server
    requires s.loop.Got?
  {
    s.(loop := if s.loop.id in s.services then Found(s.loop.id) else Waiting)
  }

  function ApplyCheckReady(s: Server): Server
    requires s.loop.Found? && s.loop.id in s.services
  {
    var v := s.services[s.loop.id];
    if v.state != Ready then s.(loop := Waiting)
    else With(s, s.loop.id, v.(launching := v.launching + 1)).(loop := Waiting)
  }

  function ApplyBeginResume(s: Server, id: Uuid): Server {
    if id !in s.services || !s.services[id].stoppable || s.services[id].state == Running then s
    else s.(lock := Resuming(id, false))
  }

  function ApplyResumeReady(s: Server): Server
    requires s.lock.Resuming? && s.lock.id in s.services
  {
    With(s, s.lock.id, SetState(s.services[s.lock.id], Ready, false)).(lock := s.lock.(sending := true))
  }

  function ApplyResumeSend(s: Server): Server
    requires s.lock.Resuming? && s.lock.id in s.services
  {
    var v := s.services[s.lock.id];
    With(s, s.lock.id, v.(resumes := v.resumes + 1)).(lock := Free, loop := Got(s.lock.id))
  }

  function Apply(s: Server, a: Action): Server
    requires Enabled(s, a)
  {
    match a
    case Run => ApplyRun(s)
    case Cancel => s.(done := true)
    case LoopLeaves => s.(loop := Leaving)
    case LoopEnds => s.(runned := false, loop := Stopped)
    case AddService(id, stoppable) => With(s, id, NewService(stoppable))
    case ExecService(id, seenRunned) => ApplyExecService(s, id, seenRunned)
    case StopService(id, seenRunned) => ApplyStopService(s, id, seenRunned)
    case Local(id, step) => With(s, id, After(s.services[id], s.done, step))
    case SendRun(id) => ApplySendRun(s, id)
    case LookUp => ApplyLookUp(s)
    case CheckReady => ApplyCheckReady(s)
    case BeginResume(id) => ApplyBeginResume(s, id)
    case ResumeReady => ApplyResumeReady(s)
    case ResumeSend => ApplyResumeSend(s)
    case LockSnapshot => s.(lock := Snapshotting)
    case UnlockSnapshot => s.(lock := Free)
  }

  ghost predicate Step(s: Server, a: Action, s': Server) {
    Enabled(s, a) && s' == Apply(s, a)
  }

  ghost predicate Path(states: seq<Server>, acts: seq<Action>) {
    && |states| == |acts| + 1
    && forall i :: 0 <= i < |acts| ==> Step(states[i], acts[i], states[i + 1])
  }

  ghost predicate Reachable(s: Server) {
    exists states: seq<Server>, acts: seq<Action> :: Path(states, acts) && states[0] == Init() && states[|acts|] == s
  }

  lemma InitReachable()
    ensures Reachable(Init())
  {
    var acts: seq<Action> := [];
    assert Path([Init()], acts) && [Init()][|acts|] == Init();
  }

  lemma StepIs(s: Server, a: Action)
    requires Enabled(s, a)
    ensures Step(s, a, Apply(s, a))
  {
  }

  lemma ReachableStep(s: Server, a: Action)
    requires Reachable(s) && Enabled(s, a)
    ensures Reachable(Apply(s, a))
  {
    var states: seq<Server>, acts: seq<Action> :| Path(states, acts) && states[0] == Init() && states[|acts|] == s;
    var states', acts' := states + [Apply(s, a)], acts + [a];
    StepIs(s, a);
    hide Apply, Enabled, Init, Step;
    forall i | 0 <= i < |acts'| ensures Step(states'[i], acts'[i], states'[i + 1]) {
      if i < |acts| {
        assert Step(states[i], acts[i], states[i + 1]);
      }
    }
    assert states'[|acts'|] == Apply(s, a);
    assert Path(states', acts') && states'[0] == Init();
  }
}
