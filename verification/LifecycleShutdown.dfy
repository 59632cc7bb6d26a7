// Shutdown: what holds when closeDevices closes the devices, whatever else is under way.
module LifecycleShutdown {
  import opened Basics
  import opened Lifecycle
  import opened LifecycleBase
  import opened LifecycleStreams

  // The call the shutdown thread is waiting for may still have to claim or tear down t.
  ghost predicate StillComing(s: State, t: TaskId)
  {
    && InRound(s.closer) && s.closer.current.Some?
    && s.closer.current.value in s.calls && s.calls[s.closer.current.value].task == t
  }

  ghost predicate ToBeCancelled(s: State, t: TaskId)
  {
    s.closer.Cancelling?
    && (t in s.closer.todo || (StillComing(s, t) && s.calls[s.closer.current.value].pc == Claim))
  }

  ghost predicate ToBeSwept(s: State, t: TaskId)
  {
    s.closer.Sweeping?
    && (t in s.closer.todo
        || (StillComing(s, t) && s.calls[s.closer.current.value].pc in {Claim, OrphanTest, WantTeardown(false)}))
  }

  // Shutdown has seen the number of activations in flight at zero.
  ghost predicate LastRound(c: Closer)
  {
    (c.Snapping? && c.final) || (c.Sweeping? && c.final) || c.Closed?
  }

  ghost predicate CancelsAll(s: State)
  {
    !s.closer.Up? ==>
      forall t :: t in s.ledger.registry ==> Ended(s.ledger, t) || ToBeCancelled(s, t)
  }

  ghost predicate NoneInFlight(s: State)
  {
    LastRound(s.closer) ==> forall t :: t in s.acts ==> s.acts[t] == Exited
  }

  ghost predicate SweepsAll(s: State)
  {
    (s.closer.Sweeping? && s.closer.final) || s.closer.Closed? ==>
      forall t :: t in s.radio.runtimes ==> ToBeSwept(s, t)
  }

  ghost predicate ShutsDown(s: State)
  {
    CancelsAll(s) && NoneInFlight(s) && SweepsAll(s)
  }

  lemma CloserKeepsShutdown(s: State, step: CloseStep)
    requires Base(s) && ShutsDown(s) && CanClose(s, step)
    ensures ShutsDown(Close(s, step))
  {
    var s' := Close(s, step);
    match step
    case BeginClose =>
    case CloseTask(task, call) =>
    case AwaitClose =>
    case EndRound =>
    case TestInFlight =>
      assert InFlight(s) == {} ==> forall t :: t in s.acts ==> t !in InFlight(s);
    case SnapRuntimes =>
  }

  lemma ActKeepsCancelling(s: State, t: TaskId, step: ActStep)
    requires CancelsAll(s) && CanAct(s, t, step)
    ensures CancelsAll(Act(s, t, step))
  {
  }

  lemma ActKeepsShutdown(s: State, t: TaskId, step: ActStep)
    requires Base(s) && ShutsDown(s) && CanAct(s, t, step)
    ensures ShutsDown(Act(s, t, step))
  {
    ActKeepsCancelling(s, t, step);
  }

  lemma CallKeepsCancelling(s: State, d: CallId, step: CallStep)
    requires CancelsAll(s) && CanCall(s, d, step)
    ensures CancelsAll(Deactivate(s, d, step))
  {
    assert Deactivate(s, d, step).calls == s.calls[d := s.calls[d].(pc := CallPcAfter(s, s.calls[d], step))];
  }

  lemma CallKeepsSweeping(s: State, d: CallId, step: CallStep)
    requires Base(s) && ShutsDown(s) && CanCall(s, d, step)
    ensures SweepsAll(Deactivate(s, d, step))
  {
    var s' := Deactivate(s, d, step);
    assert s'.calls == s.calls[d := s.calls[d].(pc := CallPcAfter(s, s.calls[d], step))];
    assert s'.radio.runtimes.Keys <= s.radio.runtimes.Keys;
  }

  lemma CallKeepsShutdown(s: State, d: CallId, step: CallStep)
    requires Base(s) && ShutsDown(s) && CanCall(s, d, step)
    ensures ShutsDown(Deactivate(s, d, step))
  {
    CallKeepsCancelling(s, d, step);
    CallKeepsSweeping(s, d, step);
  }

  lemma ShutdownKept(s: State, step: Step)
    requires Base(s) && ShutsDown(s) && Can(s, step)
    ensures ShutsDown(Do(s, step))
  {
    match step
    case OfAct(t, a) => ActKeepsShutdown(s, t, a);
    case OfCall(d, c) => CallKeepsShutdown(s, d, c);
    case OfCloser(c) => CloserKeepsShutdown(s, c);
    case _ =>
  }

  lemma {:induction false} RunKeepsShutdown(s: State, steps: seq<Step>, s': State)
    requires Base(s) && ShutsDown(s) && Leads(s, steps, s')
    ensures Base(s') && ShutsDown(s')
    decreases steps
  {
    if steps == [] {
    } else {
      BaseKept(s, steps[0]);
      ShutdownKept(s, steps[0]);
      RunKeepsShutdown(Do(s, steps[0]), steps[1..], s');
    }
  }

  // When the devices are closed, in any run: no activation is in flight, every task is
  // terminal, and no runtime is left, also of activations that published one after their
  // task was cancelled.
  lemma ClosedIsClean(ports: set<int>, cap: int, steps: seq<Step>, s: State)
    requires Leads(Init(ports, cap), steps, s) && s.closer.Closed?
    ensures InFlight(s) == {}
    ensures forall t :: t in s.ledger.registry ==> s.ledger.registry[t].phase.Terminal?
    ensures s.radio.runtimes == map[]
  {
    BaseInit(ports, cap);
    RunKeepsShutdown(Init(ports, cap), steps, s);
    assert forall t :: t !in s.radio.runtimes;
  }

  // If moreover the sockets worked and no conversion was disturbed, every hardware stream
  // that was ever opened has been closed, and exactly once.
  lemma ClosedReleasesStreams(ports: set<int>, cap: int, steps: seq<Step>, s: State, k: Stream)
    requires LeadsCalmly(Init(ports, cap), steps, s) && s.closer.Closed?
    requires forall step :: step in steps ==> SocketsWork(step)
    ensures s.radio.closes[k] == if k < s.radio.streams then 1 else 0
  {
    CalmRunIsRun(Init(ports, cap), steps, s);
    ClosedIsClean(ports, cap, steps, s);
    BaseInit(ports, cap);
    StreamsInit(ports, cap);
    RunKeepsStreams(Init(ports, cap), steps, s);
    RunKeepsShutdown(Init(ports, cap), steps, s);
    assert StreamOk(s, k);
    forall t
      ensures Held(s.acts, s.radio, t) == None
    {
      assert t in s.acts ==> t !in InFlight(s);
    }
  }

  // ---- No thread waits for ever ----

  // Whoever waits for a call waits for one that was made.
  ghost predicate AwaitsMadeCalls(s: State)
  {
    && (forall t :: t in s.acts && s.acts[t].Awaiting? ==> s.acts[t].call in s.calls)
    && (InRound(s.closer) && s.closer.current.Some? ==> s.closer.current.value in s.calls)
  }

  lemma AwaitsKept(s: State, step: Step)
    requires AwaitsMadeCalls(s) && Can(s, step)
    ensures AwaitsMadeCalls(Do(s, step))
  {
    match step
    case OfAct(t, a) =>
      assert Do(s, step).acts == s.acts[t := PcAfter(s, t, a)];
    case _ =>
  }

  lemma {:induction false} RunKeepsAwaits(s: State, steps: seq<Step>, s': State)
    requires AwaitsMadeCalls(s) && Leads(s, steps, s')
    ensures AwaitsMadeCalls(s')
    decreases steps
  {
    if steps == [] {
    } else {
      AwaitsKept(s, steps[0]);
      RunKeepsAwaits(Do(s, steps[0]), steps[1..], s');
    }
  }

  // A step of an activation or of a deactivation call.
  ghost predicate Working(s: State, step: Step)
  {
    (step.OfAct? || step.OfCall?) && Can(s, step)
  }

  // The thread in the hardware section is never blocked.
  lemma HwHolderMoves(s: State) returns (step: Step)
    requires Base(s) && s.hw.Some?
    ensures Working(s, step)
  {
    var t := s.hw.value;
    step := OfAct(t, match s.acts[t]
                     case Recheck => CheckAgain
                     case LookUp => FindChannel
                     case Join(_) => Subscribe(false, true)
                     case Open => OpenStream(NotOpened, false, true)
                     case Opened(_) => RecordChannel
                     case _ => DropHw);
  }

  // An unfinished call can move, or the hardware section it waits for can.
  lemma CallMoves(s: State, d: CallId) returns (step: Step)
    requires Base(s) && d in s.calls && s.calls[d].pc != Done
    ensures Working(s, step)
  {
    if s.calls[d].pc.WantTeardown? && s.hw.Some? {
      step := HwHolderMoves(s);
    } else {
      step := OfCall(d, match s.calls[d].pc
                        case Claim => ClaimEnd
                        case OrphanTest => TestOrphan
                        case Release => ReleaseAll
                        case _ => TearDown);
    }
  }

  lemma ActivationMoves(s: State, t: TaskId) returns (step: Step)
    requires Base(s) && AwaitsMadeCalls(s) && t in s.acts && s.acts[t] != Exited
    ensures Working(s, step)
  {
    if s.hw.Some? {
      step := HwHolderMoves(s);
    } else if s.acts[t].Awaiting? && s.calls[s.acts[t].call].pc != Done {
      step := CallMoves(s, s.acts[t].call);
    } else {
      var d := FreshCall(s);
      step := OfAct(t, match s.acts[t]
                       case Start => Mark
                       case WantHw => TakeHw
                       case Publish(_) => PublishRuntime
                       case Finish => SetRunning
                       case Returning => Leave
                       case Failing => CallDeactivate(d, "")
                       case _ => AwaitCall);
    }
  }

  lemma FreshCall(s: State) returns (d: CallId)
    ensures d !in s.calls
  {
    d := Bound(s.calls.Keys);
  }

  lemma {:induction false} Bound(ids: set<nat>) returns (d: nat)
    ensures forall e :: e in ids ==> e < d
    decreases |ids|
  {
    if ids == {} {
      d := 0;
    } else {
      var x := PickElement(ids);
      SubsetSize(ids - {x}, ids);
      var below := Bound(ids - {x});
      d := if x < below then below else x + 1;
      assert ids == (ids - {x}) + {x};
    }
  }

  lemma SomeoneWorks(s: State)
    requires Base(s) && AwaitsMadeCalls(s)
    requires InFlight(s) != {} || exists d: CallId :: d in s.calls && s.calls[d].pc != Done
    ensures exists step :: Working(s, step)
  {
    if d: CallId :| d in s.calls && s.calls[d].pc != Done {
      var step := CallMoves(s, d);
    } else {
      var t := PickElement(InFlight(s));
      var step := ActivationMoves(s, t);
    }
  }

  // However a run came about, an activation in flight or an unfinished deactivation is
  // never stuck: some activation or deactivation call can take its next step. So neither
  // the wait of closeDevices nor its wait for a call can deadlock.
  lemma NoDeadlock(ports: set<int>, cap: int, steps: seq<Step>, s: State)
    requires Leads(Init(ports, cap), steps, s)
    requires InFlight(s) != {} || exists d: CallId :: d in s.calls && s.calls[d].pc != Done
    ensures exists step :: Working(s, step)
  {
    var s0 := Init(ports, cap);
    BaseInit(ports, cap);
    RunMovesForward(s0, steps, s);
    RunKeepsAwaits(s0, steps, s);
    SomeoneWorks(s);
  }
}
