/** What a run's calls add up to: every successful call shows in the states its service goes through. */
module ServiceAccount {
  import opened Wrappers
  import opened Events
  import opened Services
  import opened ServiceLifecycle

  /** Steps of a run that count for a service: successful `ExecService` and `StopService` calls, a stopper
      giving up because the context is done, a resume setting Ready, and a resume handing the id over. */
  datatype Entry = Execd | StopCalled | StopGivenUp | ReadiedAgain | HandedOver

  ghost predicate Is(s: Server, a: Action, id: Uuid, e: Entry) {
    match e
    case Execd => a == ExecService(id, true) && id in s.services && s.services[id].state == Registered
    case StopCalled => a == StopService(id, true) && id in s.services && s.services[id].state == Running && s.services[id].stoppable
    case StopGivenUp => a == Local(id, DropStop)
    case ReadiedAgain => a == ResumeReady && s.lock.Resuming? && s.lock.id == id
    case HandedOver => a == ResumeSend && s.lock.Resuming? && s.lock.id == id
  }

  ghost function Times(states: seq<Server>, acts: seq<Action>, id: Uuid, e: Entry, i: nat): nat
    requires i <= |acts| <= |states|
  {
    if i == 0 then 0 else Times(states, acts, id, e, i - 1) + if Is(states[i - 1], acts[i - 1], id, e) then 1 else 0
  }

  /** How often the service was in a state. */
  function Visits(v: Service, st: SvcState): nat {
    multiset(v.history)[st]
  }

  /** The figures of one service that the entries change. */
  datatype Figures = Figures(execs: int, ends: int, readies: int, resumes: int, starts: int)

  function FiguresOf(v: Service): Figures {
    Figures(v.execs,
            Visits(v, Ended) + Visits(v, Failed) + v.running + v.stopping + v.stopped - v.starts,
            Visits(v, Ready) + v.readying,
            v.resumes,
            Visits(v, Running) - v.starts)
  }

  ghost function One(b: bool): int {
    if b then 1 else 0
  }

  ghost predicate Adds(v: Service, v': Service, execd: bool, stopCalled: bool, givenUp: bool, readied: bool, handed: bool) {
    var f := FiguresOf(v);
    FiguresOf(v') == Figures(f.execs + One(execd), f.ends + One(stopCalled) - One(givenUp),
                             f.readies + One(execd) + One(readied), f.resumes + One(handed), f.starts)
  }

  // ---------------------------------------------------------------- one service

  lemma VisitsNext(v: Service, ns: SvcState, err: bool, st: SvcState)
    ensures Visits(SetState(v, ns, err), st) == Visits(v, st) + One(st == ns)
  {
  }

  lemma AddsSetState(v: Service, ns: SvcState, err: bool)
    ensures forall st :: Visits(SetState(v, ns, err), st) == Visits(v, st) + One(st == ns)
  {
    forall st ensures Visits(SetState(v, ns, err), st) == Visits(v, st) + One(st == ns) {
      VisitsNext(v, ns, err, st);
    }
  }

  lemma AddsReady(v: Service, done: bool, step: SvcStep)
    requires Possible(v, done, step) && (step.MakeReady? || step.DropSend? || step.DropStop? || step.TakeStop?)
    ensures Adds(v, After(v, done, step), false, false, step.DropStop?, false, false)
  {
    AddsSetState(v, Ready, false);
  }

  lemma AddsStart(v: Service, done: bool)
    requires Possible(v, done, SvcStep.Start)
    ensures Adds(v, After(v, done, SvcStep.Start), false, false, false, false, false)
  {
    AddsSetState(v, Running, false);
  }

  lemma AddsEnd(v: Service, done: bool, step: SvcStep)
    requires Possible(v, done, step) && (step.Finish? || step.SetStopped?)
    ensures Adds(v, After(v, done, step), false, false, false, false, false)
  {
    AddsSetState(v, Ended, false);
    AddsSetState(v, Failed, true);
  }

  lemma AddsLocal(v: Service, done: bool, step: SvcStep)
    requires Possible(v, done, step) && !step.Exec? && !step.Stop?
    ensures Adds(v, After(v, done, step), false, false, step.DropStop?, false, false)
  {
    hide Possible, After, Adds;
    if step.Start? {
      AddsStart(v, done);
    } else if step.Finish? || step.SetStopped? {
      AddsEnd(v, done, step);
    } else {
      AddsReady(v, done, step);
    }
  }

  lemma AddsCall(v: Service)
    ensures Adds(v, ApplyExec(v), v.state == Registered, false, false, false, false)
    ensures Adds(v, ApplyStop(v), false, v.state == Running && v.stoppable, false, false, false)
  {
  }

  lemma AddsServer(v: Service)
    ensures Adds(v, SetState(v, Ready, false), false, false, false, true, false)
    ensures Adds(v, v.(resumes := v.resumes + 1), false, false, false, false, true)
    ensures v.sending > 0 ==> Adds(v, v.(sending := v.sending - 1), false, false, false, false, false)
    ensures Adds(v, v.(launching := v.launching + 1), false, false, false, false, false)
    ensures Adds(v, v, false, false, false, false, false)
  {
    AddsSetState(v, Ready, false);
  }

  lemma VisitsFirst(v: Service, st: SvcState)
    requires v.history == [Registered]
    ensures Visits(v, st) == One(st == Registered)
  {
  }

  lemma NoVisits(v: Service)
    requires v.history == [Registered]
    ensures Visits(v, Ready) == 0 && Visits(v, Running) == 0 && Visits(v, Ended) == 0 && Visits(v, Failed) == 0
  {
    VisitsFirst(v, Ready);
    VisitsFirst(v, Running);
    VisitsFirst(v, Ended);
    VisitsFirst(v, Failed);
    hide Visits;
  }

  lemma NoFigures(v: Service)
    requires Visits(v, Ready) == 0 && Visits(v, Running) == 0 && Visits(v, Ended) == 0 && Visits(v, Failed) == 0
    requires v.execs == v.running == v.stopping == v.stopped == v.starts == v.readying == v.resumes == 0
    ensures FiguresOf(v) == Figures(0, 0, 0, 0, 0)
  {
    hide Visits;
  }

  lemma AddsNew(stoppable: bool)
    ensures FiguresOf(NewService(stoppable)) == Figures(0, 0, 0, 0, 0)
  {
    hide FiguresOf, Visits;
    NoVisits(NewService(stoppable));
    NoFigures(NewService(stoppable));
  }

  // ---------------------------------------------------------------- one step

  ghost predicate StepAdding(s: Server, a: Action, id: Uuid)
    requires Enabled(s, a) && id in s.services
  {
    && id in Apply(s, a).services
    && Adds(s.services[id], Apply(s, a).services[id], Is(s, a, id, Execd), Is(s, a, id, StopCalled), Is(s, a, id, StopGivenUp),
            Is(s, a, id, ReadiedAgain), Is(s, a, id, HandedOver))
  }

  ghost predicate Changes(s: Server, a: Action, id: Uuid, v': Service)
    requires Enabled(s, a)
  {
    id in Apply(s, a).services && Apply(s, a).services[id] == v'
  }

  lemma LocalChanges(s: Server, a: Action, id: Uuid)
    requires Enabled(s, a) && id in s.services && a.Local?
    ensures a.id == id ==> Possible(s.services[id], s.done, a.step) && Changes(s, a, id, After(s.services[id], s.done, a.step))
    ensures a.id == id ==> !a.step.Exec? && !a.step.Stop?
    ensures a.id != id ==> Changes(s, a, id, s.services[id])
    ensures forall e :: Is(s, a, id, e) <==> e == StopGivenUp && a.id == id && a.step.DropStop?
  {
    hide After, Possible;
  }

  lemma LocalAdds(s: Server, a: Action, id: Uuid)
    requires Enabled(s, a) && id in s.services && a.Local?
    ensures StepAdding(s, a, id)
  {
    var v := s.services[id];
    hide Apply, Enabled, Is, Adds, After, Possible;
    LocalChanges(s, a, id);
    AddsServer(v);
    if a.id == id {
      AddsLocal(v, s.done, a.step);
    }
  }

  lemma CallChanges(s: Server, a: Action, id: Uuid)
    requires Enabled(s, a) && id in s.services && (a.ExecService? || a.StopService?)
    ensures if !a.seenRunned || a.id != id then Changes(s, a, id, s.services[id])
            else Changes(s, a, id, if a.ExecService? then ApplyExec(s.services[id]) else ApplyStop(s.services[id]))
    ensures Is(s, a, id, Execd) == (a.ExecService? && a.seenRunned && a.id == id && s.services[id].state == Registered)
    ensures Is(s, a, id, StopCalled) ==
            (a.StopService? && a.seenRunned && a.id == id && s.services[id].state == Running && s.services[id].stoppable)
    ensures !Is(s, a, id, StopGivenUp) && !Is(s, a, id, ReadiedAgain) && !Is(s, a, id, HandedOver)
  {
    hide ApplyExec, ApplyStop;
  }

  lemma CallAdds(s: Server, a: Action, id: Uuid)
    requires Enabled(s, a) && id in s.services && (a.ExecService? || a.StopService?)
    ensures StepAdding(s, a, id)
  {
    hide Apply, Enabled, Is, Adds, ApplyExec, ApplyStop;
    CallChanges(s, a, id);
    AddsCall(s.services[id]);
    AddsServer(s.services[id]);
  }

  lemma LoopChanges(s: Server, a: Action, id: Uuid)
    requires Enabled(s, a) && id in s.services && (a.SendRun? || a.CheckReady?)
    ensures || Changes(s, a, id, s.services[id])
            || (s.services[id].sending > 0 && Changes(s, a, id, s.services[id].(sending := s.services[id].sending - 1)))
            || Changes(s, a, id, s.services[id].(launching := s.services[id].launching + 1))
    ensures forall e :: !Is(s, a, id, e)
  {
  }

  lemma LoopAdds(s: Server, a: Action, id: Uuid)
    requires Enabled(s, a) && id in s.services && (a.SendRun? || a.CheckReady?)
    ensures StepAdding(s, a, id)
  {
    hide Apply, Enabled, Is, Adds;
    LoopChanges(s, a, id);
    AddsServer(s.services[id]);
  }

  lemma ResumeChanges(s: Server, a: Action, id: Uuid)
    requires Enabled(s, a) && id in s.services && (a.ResumeReady? || a.ResumeSend?)
    ensures s.lock.Resuming?
    ensures if s.lock.id != id then Changes(s, a, id, s.services[id])
            else Changes(s, a, id, if a.ResumeReady? then SetState(s.services[id], Ready, false)
                                   else s.services[id].(resumes := s.services[id].resumes + 1))
    ensures forall e :: Is(s, a, id, e) <==> s.lock.id == id && e == if a.ResumeReady? then ReadiedAgain else HandedOver
  {
    hide SetState;
  }

  lemma ResumeAdds(s: Server, a: Action, id: Uuid)
    requires Enabled(s, a) && id in s.services && (a.ResumeReady? || a.ResumeSend?)
    ensures StepAdding(s, a, id)
  {
    hide Apply, Enabled, Is, Adds, SetState;
    ResumeChanges(s, a, id);
    AddsServer(s.services[id]);
  }

  lemma OtherChanges(s: Server, a: Action, id: Uuid)
    requires Enabled(s, a) && id in s.services && !a.Local? && !a.ExecService? && !a.StopService?
    requires !a.SendRun? && !a.CheckReady? && !a.ResumeReady? && !a.ResumeSend?
    ensures Changes(s, a, id, s.services[id])
    ensures forall e :: !Is(s, a, id, e)
  {
    hide NewService;
  }

  lemma OtherAdds(s: Server, a: Action, id: Uuid)
    requires Enabled(s, a) && id in s.services && !a.Local? && !a.ExecService? && !a.StopService?
    requires !a.SendRun? && !a.CheckReady? && !a.ResumeReady? && !a.ResumeSend?
    ensures StepAdding(s, a, id)
  {
    hide Apply, Enabled, Is, Adds;
    OtherChanges(s, a, id);
    AddsServer(s.services[id]);
  }

  lemma StepAdds(s: Server, a: Action, id: Uuid)
    requires Enabled(s, a) && id in s.services
    ensures StepAdding(s, a, id)
  {
    hide Apply, Enabled, StepAdding;
    if a.Local? {
      LocalAdds(s, a, id);
    } else if a.ExecService? || a.StopService? {
      CallAdds(s, a, id);
    } else if a.SendRun? || a.CheckReady? {
      LoopAdds(s, a, id);
    } else if a.ResumeReady? || a.ResumeSend? {
      ResumeAdds(s, a, id);
    } else {
      OtherAdds(s, a, id);
    }
  }

  lemma StepMisses(s: Server, a: Action, id: Uuid, e: Entry)
    requires Enabled(s, a) && id !in s.services && (s.lock.Resuming? ==> s.lock.id in s.services)
    ensures !Is(s, a, id, e)
  {
  }

  lemma Enters(s: Server, a: Action, id: Uuid)
    requires Enabled(s, a) && id !in s.services && id in Apply(s, a).services && (s.lock.Resuming? ==> s.lock.id in s.services)
    ensures FiguresOf(Apply(s, a).services[id]) == Figures(0, 0, 0, 0, 0)
  {
    AddsNew(true);
    AddsNew(false);
    hide FiguresOf, NewService, ApplyExec, ApplyStop, After, Possible;
  }

  // ---------------------------------------------------------------- every run

  ghost predicate Tallied(f: Figures, execd: nat, stopCalled: nat, givenUp: nat, readied: nat, handed: nat) {
    f == Figures(execd, stopCalled - givenUp, execd + readied, handed, 0)
  }

  ghost predicate Booked(states: seq<Server>, acts: seq<Action>, id: Uuid, i: nat)
    requires i <= |acts| < |states|
  {
    if id in states[i].services then
      Tallied(FiguresOf(states[i].services[id]), Times(states, acts, id, Execd, i), Times(states, acts, id, StopCalled, i),
              Times(states, acts, id, StopGivenUp, i), Times(states, acts, id, ReadiedAgain, i), Times(states, acts, id, HandedOver, i))
    else forall e :: Times(states, acts, id, e, i) == 0
  }

  lemma PathStep(states: seq<Server>, acts: seq<Action>, i: nat)
    requires Path(states, acts) && i < |acts|
    ensures |states| == |acts| + 1 && Enabled(states[i], acts[i]) && states[i + 1] == Apply(states[i], acts[i])
  {
    assert Step(states[i], acts[i], states[i + 1]);
    hide Enabled, Apply;
  }

  lemma ResumedExists(s: Server)
    requires Reachable(s)
    ensures s.lock.Resuming? ==> s.lock.id in s.services
  {
    InvReachable(s);
  }

  lemma NoneYet(states: seq<Server>, acts: seq<Action>, id: Uuid, j: nat)
    requires 0 < j <= |acts| < |states| && Enabled(states[j - 1], acts[j - 1]) && id !in states[j - 1].services
    requires Booked(states, acts, id, j - 1)
    requires states[j - 1].lock.Resuming? ==> states[j - 1].lock.id in states[j - 1].services
    ensures forall e :: Times(states, acts, id, e, j) == 0
  {
    hide Enabled, Is;
    forall e ensures Times(states, acts, id, e, j) == 0 {
      StepMisses(states[j - 1], acts[j - 1], id, e);
    }
  }

  lemma TimesNext(states: seq<Server>, acts: seq<Action>, id: Uuid, i: nat)
    requires i < |acts| < |states|
    ensures forall e :: Times(states, acts, id, e, i + 1) == Times(states, acts, id, e, i) + One(Is(states[i], acts[i], id, e))
  {
    hide Is;
  }

  lemma BookedStays(states: seq<Server>, acts: seq<Action>, id: Uuid, i: nat)
    requires i < |acts| < |states| && Booked(states, acts, id, i) && Enabled(states[i], acts[i]) && states[i + 1] == Apply(states[i], acts[i])
    requires id in states[i].services
    ensures Booked(states, acts, id, i + 1)
  {
    hide Apply, Enabled, FiguresOf, Is, Times;
    StepAdds(states[i], acts[i], id);
    TimesNext(states, acts, id, i);
  }

  lemma BookedEnters(states: seq<Server>, acts: seq<Action>, id: Uuid, i: nat)
    requires i < |acts| < |states| && Booked(states, acts, id, i) && Enabled(states[i], acts[i]) && states[i + 1] == Apply(states[i], acts[i])
    requires id !in states[i].services && (states[i].lock.Resuming? ==> states[i].lock.id in states[i].services)
    ensures Booked(states, acts, id, i + 1)
  {
    hide Apply, Enabled, FiguresOf, Is, Times;
    var j := i + 1;
    NoneYet(states, acts, id, j);
    if id in states[j].services {
      Enters(states[i], acts[i], id);
      assert forall e :: Times(states, acts, id, e, j) == 0;
    }
  }

  lemma {:induction false} BookedAlong(states: seq<Server>, acts: seq<Action>, id: Uuid, i: nat)
    requires Path(states, acts) && states[0] == Init() && i <= |acts|
    ensures |acts| < |states| && Booked(states, acts, id, i)
  {
    if i > 0 {
      BookedAlong(states, acts, id, i - 1);
      InitReachable();
      ReachableAlong(states, acts, i - 1);
      hide Reachable, Booked, Init;
      ResumedExists(states[i - 1]);
      PathStep(states, acts, i - 1);
      hide Path, Apply, Enabled;
      if id in states[i - 1].services {
        BookedStays(states, acts, id, i - 1);
      } else {
        BookedEnters(states, acts, id, i - 1);
      }
    }
  }

  /** Over every run: a service has been Ready once for every successful `ExecService` whose goroutine is
      not still on its way, and once for every resume; it has been Running once per start; and every start
      and every successful `StopService` of a service with a stop channel is still running, still on its
      way, given up, or has left the state Ended or Failed once. */
  lemma CallsAddUp(states: seq<Server>, acts: seq<Action>, id: Uuid, i: nat)
    requires Path(states, acts) && states[0] == Init() && i <= |acts| && id in states[i].services
    ensures var v := states[i].services[id];
            && Visits(v, Running) == v.starts
            && v.execs == Times(states, acts, id, Execd, i) && v.resumes == Times(states, acts, id, HandedOver, i)
            && Visits(v, Ready) + v.readying == Times(states, acts, id, Execd, i) + Times(states, acts, id, ReadiedAgain, i)
            && v.starts + Times(states, acts, id, StopCalled, i) ==
               v.running + v.stopping + v.stopped + Times(states, acts, id, StopGivenUp, i) + Visits(v, Ended) + Visits(v, Failed)
  {
    BookedAlong(states, acts, id, i);
    hide Path, Visits, Times;
  }

  // ---------------------------------------------------------------- what calls can lead to

  lemma CallStop(s: Server, id: Uuid)
    requires id in s.services && s.services[id].state == Running && s.services[id].stoppable
    ensures Enabled(s, StopService(id, true))
    ensures var t := Apply(s, StopService(id, true));
            id in t.services && t.services[id] == s.services[id].(stopping := s.services[id].stopping + 1)
  {
  }

  /** A goroutine of one service takes a step. */
  lemma NextLocal(s0: Server, s: Server, id: Uuid, step: SvcStep) returns (s': Server)
    requires Continues(s0, s) && id in s.services && Possible(s.services[id], s.done, step) && !step.Exec? && !step.Stop?
    ensures Continues(s0, s') && s' == With(s, id, After(s.services[id], s.done, step))
    ensures id in s'.services && s'.services[id] == After(s.services[id], s.done, step)
  {
    hide Continues, Possible, After;
    Next(s0, s, Local(id, step));
    s' := With(s, id, After(s.services[id], s.done, step));
  }

  /** A `StopService` call for a running service with a stop channel can end it, without a new start and
      without `Run` having returned. */
  lemma StopEnds(s: Server, id: Uuid) returns (s': Server)
    requires id in s.services && s.services[id].state == Running && s.services[id].stoppable
    ensures Enabled(s, StopService(id, true)) && Continues(Apply(s, StopService(id, true)), s') && id in s'.services
    ensures var v, v' := s.services[id], s'.services[id];
            v'.state == Ended && !v'.failed && v'.history == v.history + [Ended] && v'.starts == v.starts && v'.running == v.running
  {
    CallStop(s, id);
    var t := Apply(s, StopService(id, true));
    ContinuesItself(t);
    hide Continues, Apply, Enabled;
    s' := NextLocal(t, t, id, TakeStop);
    s' := NextLocal(t, s', id, SetStopped);
  }

  ghost predicate NoStopper(s: Server, id: Uuid) {
    id in s.services && s.services[id].stopping == 0 && s.services[id].stopped == 0
  }

  lemma NoStopperLocal(v: Service, done: bool, step: SvcStep)
    requires Possible(v, done, step) && !step.Stop? && v.stopping == 0 && v.stopped == 0
    ensures After(v, done, step).stopping == 0 && After(v, done, step).stopped == 0
  {
  }

  lemma NoStopperStep(s: Server, a: Action, id: Uuid)
    requires NoStopper(s, id) && Enabled(s, a) && !(a.StopService? && a.id == id)
    ensures NoStopper(Apply(s, a), id)
  {
    var v := s.services[id];
    NoStopperLocal(v, s.done, SvcStep.Exec);
    if a.Local? && a.id == id {
      NoStopperLocal(v, s.done, a.step);
    }
    hide After, Possible, NewService, ApplyStop;
  }

  /** A stopper needs the call: without one, and with none pending, none ever comes up. */
  lemma {:induction false} NotStoppedUncalled(states: seq<Server>, acts: seq<Action>, id: Uuid, i: nat)
    requires Path(states, acts) && i <= |acts| && NoStopper(states[0], id)
    requires forall k :: 0 <= k < i ==> !(acts[k].StopService? && acts[k].id == id)
    ensures NoStopper(states[i], id)
  {
    if i > 0 {
      NotStoppedUncalled(states, acts, id, i - 1);
      PathStep(states, acts, i - 1);
      hide Apply, Enabled, NoStopper;
      NoStopperStep(states[i - 1], acts[i - 1], id);
    }
  }

  /** What a launched service can do. */
  lemma LaunchedRuns(s0: Server, s: Server, id: Uuid) returns (s': Server)
    requires Continues(s0, s) && id in s.services && s.services[id].launching > 0
    ensures Continues(s0, s') && id in s'.services
    ensures var v, v' := s.services[id], s'.services[id];
            && v'.state == Running && !v'.failed && v'.history == v.history + [Running]
            && v'.starts == v.starts + 1 && v'.running == v.running + 1
  {
    hide Continues;
    s' := NextLocal(s0, s, id, Start);
  }

  /** The loop looks up an id it received and launches its Ready service. */
  lemma LoopLaunches(s0: Server, s: Server, id: Uuid) returns (s': Server)
    requires Continues(s0, s) && id in s.services && s.services[id].state == Ready && s.lock == Free && s.loop == Got(id)
    ensures Continues(s0, s') && id in s'.services && s'.services[id] == s.services[id].(launching := s.services[id].launching + 1)
  {
    hide Continues;
    Next(s0, s, LookUp);
    s' := ApplyLookUp(s);
    Next(s0, s', CheckReady);
    s' := ApplyCheckReady(s');
  }

  lemma CallExec(s: Server, id: Uuid)
    requires s.lock == Free && id in s.services && s.services[id].state == Registered
    ensures Enabled(s, ExecService(id, true))
    ensures var t := Apply(s, ExecService(id, true));
            && id in t.services && t.lock == Free && t.loop == s.loop
            && t.services[id] == s.services[id].(readying := s.services[id].readying + 1, execs := s.services[id].execs + 1)
  {
  }

  /** An `ExecService` call for a registered service can start it. */
  lemma ExecStarts(s: Server, id: Uuid) returns (s': Server)
    requires s.lock == Free && s.loop == Waiting && id in s.services && s.services[id].state == Registered
    ensures Enabled(s, ExecService(id, true)) && Continues(Apply(s, ExecService(id, true)), s') && id in s'.services
    ensures var v, v' := s.services[id], s'.services[id];
            v'.state == Running && v'.history == v.history + [Ready, Running] && v'.starts == v.starts + 1 && v'.running == v.running + 1
  {
    CallExec(s, id);
    var t := Apply(s, ExecService(id, true));
    ContinuesItself(t);
    hide Continues, Apply, Enabled;
    var t1 := NextLocal(t, t, id, MakeReady);
    var t2 := LoopReceives(t, t1, id);
    var t3 := LoopLaunches(t, t2, id);
    s' := LaunchedRuns(t, t3, id);
    assert s.services[id].history + [Ready] + [Running] == s.services[id].history + [Ready, Running];
  }

  lemma LoopReceives(s0: Server, s: Server, id: Uuid) returns (s': Server)
    requires Continues(s0, s) && id in s.services && s.services[id].sending > 0 && s.loop == Waiting
    ensures Continues(s0, s') && s'.lock == s.lock && s'.loop == Got(id)
    ensures id in s'.services && s'.services[id] == s.services[id].(sending := s.services[id].sending - 1)
  {
    hide Continues;
    Next(s0, s, SendRun(id));
    s' := ApplySendRun(s, id);
  }

  lemma CallResume(s: Server, id: Uuid)
    requires s.lock == Free && id in s.services && s.services[id].state != Running && s.services[id].stoppable
    ensures Enabled(s, BeginResume(id)) && Apply(s, BeginResume(id)) == s.(lock := Resuming(id, false))
  {
  }

  /** A `ResumeService` call for a service with a stop channel that is not running can start it. */
  lemma ResumeStarts(s: Server, id: Uuid) returns (s': Server)
    requires s.lock == Free && s.loop == Waiting && id in s.services && s.services[id].state != Running && s.services[id].stoppable
    ensures Enabled(s, BeginResume(id)) && Continues(Apply(s, BeginResume(id)), s') && id in s'.services
    ensures var v, v' := s.services[id], s'.services[id];
            v'.state == Running && v'.history == v.history + [Ready, Running] && v'.starts == v.starts + 1 && v'.running == v.running + 1
  {
    CallResume(s, id);
    var t := Apply(s, BeginResume(id));
    ContinuesItself(t);
    hide Apply, Enabled;
    var t1 := ResumeHandsOver(t, t, id);
    hide Continues;
    var t2 := LoopLaunches(t, t1, id);
    s' := LaunchedRuns(t, t2, id);
    assert s.services[id].history + [Ready] + [Running] == s.services[id].history + [Ready, Running];
  }

  lemma ResumeHandsOver(s0: Server, s: Server, id: Uuid) returns (s': Server)
    requires Continues(s0, s) && s.lock == Resuming(id, false) && s.loop == Waiting && id in s.services
    ensures Continues(s0, s') && s'.lock == Free && s'.loop == Got(id)
    ensures id in s'.services && s'.services[id] == SetState(s.services[id], Ready, false).(resumes := s.services[id].resumes + 1)
  {
    hide Continues;
    Next(s0, s, ResumeReady);
    s' := ApplyResumeReady(s);
    Next(s0, s', ResumeSend);
    s' := ApplyResumeSend(s');
  }

  /** A running service whose `Run` returns ends, with its error if there is one. */
  lemma ReturnEnds(s: Server, id: Uuid, err: bool) returns (s': Server)
    requires id in s.services && s.services[id].running > 0
    ensures Continues(s, s') && id in s'.services && s'.services[id].failed == err
    ensures var v, v' := s.services[id], s'.services[id];
            && v'.state == (if err then Failed else Ended) && v'.history == v.history + [if err then Failed else Ended]
            && v'.running == v.running - 1 && v'.starts == v.starts
  {
    ContinuesItself(s);
    hide Continues;
    s' := NextLocal(s, s, id, Finish(err));
  }
}
