// What becomes of an activation: that of a task which has ended opens and joins nothing, one
// that is finished leaves its task running or ended, and a running task streams.
module LifecycleEnded {
  import opened Basics
  import opened Lifecycle
  import opened LifecycleBase
  import opened LifecycleStreams

  // ---- Before the hardware is touched ----

  // The thread has neither joined nor opened a stream yet.
  predicate Early(pc: ActPc)
  {
    pc == Start || pc == WantHw || pc == Recheck || pc == LookUp || pc.Join? || pc == Open
  }

  ghost predicate NotInPlan(a: Acceptor, t: TaskId)
  {
    && (a.Gathered? ==> t !in a.cands)
    && (a.Converting? ==> t !in a.plan && a.out != Some(t))
  }

  // The task consumes no stream, has published no runtime, and is not under conversion.
  ghost predicate Silent(s: State, t: TaskId)
  {
    && t !in s.radio.runtimes
    && (forall k :: t !in Everyone(ConsumersOf(s.radio, k)))
    && NotInPlan(s.acceptor, t)
  }

  // A step with which the thread of a task takes part in a stream.
  predicate Streams(step: Step, t: TaskId)
  {
    step.OfAct? && step.t == t && (step.act.Subscribe? || step.act.OpenStream? || step.act.PublishRuntime?)
  }

  lemma AcceptorKeepsSilent(s: State, step: AcceptStep, t: TaskId)
    requires Silent(s, t) && CanAccept(s, step)
    ensures Silent(Accept(s, step), t)
  {
    forall k
      ensures t !in Everyone(ConsumersOf(Accept(s, step).radio, k))
    {
      assert t !in Everyone(ConsumersOf(s.radio, k));
    }
  }

  lemma OtherActKeepsSilent(s: State, u: TaskId, step: ActStep, t: TaskId)
    requires Silent(s, t) && CanAct(s, u, step) && !Streams(OfAct(u, step), t)
    ensures Silent(Act(s, u, step), t)
  {
    forall k
      ensures t !in Everyone(ConsumersOf(Act(s, u, step).radio, k))
    {
      assert t !in Everyone(ConsumersOf(s.radio, k));
    }
  }

  lemma CallKeepsSilent(s: State, d: CallId, step: CallStep, t: TaskId)
    requires Silent(s, t) && CanCall(s, d, step)
    ensures Silent(Deactivate(s, d, step), t)
  {
    forall k
      ensures t !in Everyone(ConsumersOf(Deactivate(s, d, step).radio, k))
    {
      assert t !in Everyone(ConsumersOf(s.radio, k));
    }
  }

  lemma SilentKept(s: State, step: Step, t: TaskId)
    requires Silent(s, t) && Can(s, step) && !Streams(step, t)
    ensures Silent(Do(s, step), t)
  {
    match step
    case OfAcceptor(a) => AcceptorKeepsSilent(s, a, t);
    case OfAct(u, a) => OtherActKeepsSilent(s, u, a, t);
    case OfCall(d, c) => CallKeepsSilent(s, d, c, t);
    case _ =>
  }

  ghost predicate EarlyAreSilent(s: State)
  {
    forall t :: (t in s.acts ==> Early(s.acts[t])) ==> Silent(s, t)
  }

  lemma EarlyStays(s: State, step: Step, t: TaskId)
    requires Base(s) && Can(s, step) && (t in Do(s, step).acts ==> Early(Do(s, step).acts[t]))
    ensures (t in s.acts ==> Early(s.acts[t])) && !Streams(step, t)
  {
    if step.OfAct? {
      assert Do(s, step).acts == s.acts[step.t := PcAfter(s, step.t, step.act)];
    }
  }

  lemma EarlyAreSilentKept(s: State, step: Step)
    requires Base(s) && EarlyAreSilent(s) && Can(s, step)
    ensures EarlyAreSilent(Do(s, step))
  {
    forall t | t in Do(s, step).acts ==> Early(Do(s, step).acts[t])
      ensures Silent(Do(s, step), t)
    {
      EarlyStays(s, step, t);
      SilentKept(s, step, t);
    }
  }

  lemma {:induction false} RunKeepsEarlySilent(s: State, steps: seq<Step>, s': State)
    requires Base(s) && EarlyAreSilent(s) && Leads(s, steps, s')
    ensures Base(s') && EarlyAreSilent(s')
    decreases steps
  {
    if steps == [] {
    } else {
      BaseKept(s, steps[0]);
      EarlyAreSilentKept(s, steps[0]);
      RunKeepsEarlySilent(Do(s, steps[0]), steps[1..], s');
    }
  }

  // ---- A task that has ended by then ----

  // Where the thread of such a task can still be: it has not rechecked, or it has left. If it
  // had not even marked the task, it never asks for the hardware lock.
  predicate Barring(pc: ActPc, marked: bool)
  {
    pc == Start || pc == Exited || (marked && (pc == WantHw || pc == Recheck))
  }

  ghost predicate Barred(s: State, t: TaskId, marked: bool)
  {
    Ended(s.ledger, t) && (t in s.acts ==> Barring(s.acts[t], marked)) && Silent(s, t)
  }

  // What its thread may still do.
  predicate Harmless(step: Step, t: TaskId, marked: bool)
  {
    step.OfAct? && step.t == t ==> step.act.Mark? || (marked && (step.act.TakeHw? || step.act.CheckAgain?))
  }

  lemma BarredKept(s: State, step: Step, t: TaskId, marked: bool)
    requires Base(s) && Barred(s, t, marked) && Can(s, step)
    ensures Barred(Do(s, step), t, marked) && Harmless(step, t, marked)
  {
    SilentKept(s, step, t);
    StepMovesForward(s, step);
    if step.OfAct? {
      assert Do(s, step).acts == s.acts[step.t := PcAfter(s, step.t, step.act)];
    }
  }

  lemma {:induction false} RunStaysBarred(s: State, steps: seq<Step>, s': State, t: TaskId, marked: bool)
    requires Base(s) && Barred(s, t, marked) && Leads(s, steps, s')
    ensures Barred(s', t, marked) && forall step :: step in steps ==> Harmless(step, t, marked)
    decreases steps
  {
    if steps == [] {
    } else {
      BaseKept(s, steps[0]);
      BarredKept(s, steps[0], t, marked);
      RunStaysBarred(Do(s, steps[0]), steps[1..], s', t, marked);
      assert steps == [steps[0]] + steps[1..];
    }
  }

  // In every run: a task that has ended while its thread was not started, had not marked it,
  // or had not rechecked it under the hardware lock, never again has a stream. In every
  // later state it consumes none, and has no runtime, published or in construction; and its
  // thread opens, joins and publishes nothing.
  lemma EndedOpensNothing(ports: set<int>, cap: int, before: seq<Step>, s: State, t: TaskId,
                          after: seq<Step>, s': State)
    requires Leads(Init(ports, cap), before, s) && Leads(s, after, s') && Ended(s.ledger, t)
    requires t in s.acts ==> s.acts[t] in {Start, WantHw, Recheck}
    ensures t !in s'.radio.runtimes && Held(s'.acts, s'.radio, t) == None
    ensures forall k :: t !in ConsumersOf(s'.radio, k).dests && t !in ConsumersOf(s'.radio, k).subbands
    ensures forall step :: step in after && step.OfAct? && step.t == t ==>
              !step.act.OpenStream? && !step.act.Subscribe? && !step.act.PublishRuntime?
    ensures (t in s.acts ==> s.acts[t] == Start) ==>
              forall step :: step in after && step.OfAct? && step.t == t ==> !step.act.TakeHw?
  {
    BaseInit(ports, cap);
    RunKeepsEarlySilent(Init(ports, cap), before, s);
    RunStaysBarred(s, after, s', t, true);
    forall k
      ensures t !in ConsumersOf(s'.radio, k).dests && t !in ConsumersOf(s'.radio, k).subbands
    {
      assert t !in Everyone(ConsumersOf(s'.radio, k));
    }
    assert forall step :: step in after ==> Harmless(step, t, true);
    if t in s.acts ==> s.acts[t] == Start {
      RunStaysBarred(s, after, s', t, false);
      assert forall step :: step in after ==> Harmless(step, t, false);
    }
  }

  // ---- A finished activation ----

  // A thread that has set the state, or has left, has a task that is running or has ended,
  // unless the task has no device; the deactivation it waits for fails its task.
  ghost predicate ThreadSettled(s: State, t: TaskId)
  {
    t in s.acts && t in s.ledger.registry ==>
      && (s.acts[t] == Returning ==> Stage(s.ledger.registry[t].phase) >= 2)
      && (s.acts[t] == Exited ==> s.ledger.registry[t].devices == {} || Stage(s.ledger.registry[t].phase) >= 2)
      && (s.acts[t].Awaiting? ==>
            s.acts[t].call in s.calls && s.calls[s.acts[t].call].task == t
            && s.calls[s.acts[t].call].end == Failed
            && (s.calls[s.acts[t].call].pc == Claim || Ended(s.ledger, t)))
      && (s.acts[t] != Start ==> Stage(s.ledger.registry[t].phase) >= 1)
      && (s.acts[t] != Start && s.acts[t] != Exited ==> s.ledger.registry[t].devices != {})
      && (s.ledger.registry[t].phase == Running ==> s.ledger.registry[t].devices != {})
  }

  // A running task has its runtime, and so has one about to run.
  ghost predicate RuntimeStays(s: State, t: TaskId)
  {
    && (t in s.ledger.registry && s.ledger.registry[t].phase == Running ==> t in s.radio.runtimes)
    && (t in s.acts && s.acts[t] == Finish && t in s.ledger.registry && !Ended(s.ledger, t) ==> t in s.radio.runtimes)
  }

  // Why a task ended is what the call that claimed it said.
  ghost predicate EndedAsClaimed(s: State, t: TaskId)
  {
    Ended(s.ledger, t) ==>
      && t in s.ledger.claimant && s.ledger.claimant[t] in s.calls
      && var c := s.calls[s.ledger.claimant[t]];
         c.task == t && s.ledger.registry[t].phase == Terminal(c.end, c.reason)
  }

  // A task that is to start at once has its thread, or is about to get it.
  ghost predicate PendingHasThread(s: State, t: TaskId)
  {
    t in s.ledger.registry && s.ledger.registry[t].phase == Pending && t !in s.acts ==> s.acceptor == Spawning(t)
  }

  ghost predicate OutcomeOk(s: State, t: TaskId)
  {
    ThreadSettled(s, t) && RuntimeStays(s, t) && EndedAsClaimed(s, t) && PendingHasThread(s, t)
  }

  // Shutdown cancels.
  ghost predicate CloserCancels(s: State)
  {
    InRound(s.closer) && s.closer.current.Some? ==>
      s.closer.current.value in s.calls && s.calls[s.closer.current.value].end == Cancelled
  }

  ghost predicate Outcomes(s: State)
  {
    CloserCancels(s) && forall t :: OutcomeOk(s, t)
  }

  lemma ActSettles(s: State, u: TaskId, step: ActStep, t: TaskId)
    requires Base(s) && CanAct(s, u, step) && ThreadSettled(s, t)
    ensures ThreadSettled(Act(s, u, step), t)
  {
    assert Act(s, u, step).acts == s.acts[u := PcAfter(s, u, step)];
  }

  lemma OutcomesKeptByAct(s: State, u: TaskId, step: ActStep, t: TaskId)
    requires Base(s) && CanAct(s, u, step) && OutcomeOk(s, t)
    ensures OutcomeOk(Act(s, u, step), t)
  {
    ActSettles(s, u, step, t);
    assert Act(s, u, step).acts == s.acts[u := PcAfter(s, u, step)];
  }

  lemma CallSettles(s: State, d: CallId, step: CallStep, t: TaskId)
    requires Base(s) && CanCall(s, d, step) && ThreadSettled(s, t)
    ensures ThreadSettled(Deactivate(s, d, step), t)
  {
    assert Deactivate(s, d, step).calls == s.calls[d := s.calls[d].(pc := CallPcAfter(s, s.calls[d], step))];
  }

  lemma OutcomesKeptByCall(s: State, d: CallId, step: CallStep, t: TaskId)
    requires Base(s) && CanCall(s, d, step) && OutcomeOk(s, t)
    ensures OutcomeOk(Deactivate(s, d, step), t)
  {
    CallSettles(s, d, step, t);
    assert Deactivate(s, d, step).calls == s.calls[d := s.calls[d].(pc := CallPcAfter(s, s.calls[d], step))];
  }

  lemma OutcomesKeptByAcceptor(s: State, step: AcceptStep, t: TaskId)
    requires Base(s) && CanAccept(s, step) && OutcomeOk(s, t)
    ensures OutcomeOk(Accept(s, step), t)
  {
  }

  lemma OutcomesKept(s: State, step: Step)
    requires Base(s) && Outcomes(s) && Can(s, step)
    ensures Outcomes(Do(s, step))
  {
    if step.OfCall? {
      var c := s.calls[step.d].(pc := CallPcAfter(s, s.calls[step.d], step.call));
      assert Do(s, step).calls == s.calls[step.d := c];
    }
    forall t
      ensures OutcomeOk(Do(s, step), t)
    {
      assert OutcomeOk(s, t);
      match step
      case OfAcceptor(a) => OutcomesKeptByAcceptor(s, a, t);
      case OfAct(u, a) => OutcomesKeptByAct(s, u, a, t);
      case OfCall(d, c) => OutcomesKeptByCall(s, d, c, t);
      case _ =>
    }
  }

  lemma {:induction false} RunKeepsOutcomes(s: State, steps: seq<Step>, s': State)
    requires Base(s) && Outcomes(s) && Leads(s, steps, s')
    ensures Base(s') && Outcomes(s')
    decreases steps
  {
    if steps == [] {
    } else {
      BaseKept(s, steps[0]);
      OutcomesKept(s, steps[0]);
      RunKeepsOutcomes(Do(s, steps[0]), steps[1..], s');
    }
  }

  // In every run: a task whose thread has taken its first step is SCHEDULED no more; one whose
  // activation has finished is RUNNING or has ended, if it has a device, and one without
  // never runs. One that could not set up the hardware asks for its task to be FAILED. A
  // PENDING task has its thread, or is just getting it, and a RUNNING one has a published
  // runtime. A terminal state and its reason are those of the call that claimed the task.
  lemma ActivationSettles(ports: set<int>, cap: int, steps: seq<Step>, s: State, t: TaskId)
    requires Leads(Init(ports, cap), steps, s) && t in s.ledger.registry
    ensures var task := s.ledger.registry[t];
            && (t in s.acts && s.acts[t] != Start ==> task.phase != Scheduled)
            && (t in s.acts && s.acts[t] == Exited && task.devices != {} ==>
                  task.phase == Running || task.phase.Terminal?)
            && (task.devices == {} ==> task.phase != Running)
            && (t in s.acts && s.acts[t].Awaiting? ==>
                  s.acts[t].call in s.calls && s.calls[s.acts[t].call].task == t
                  && s.calls[s.acts[t].call].end == Failed)
            && (task.phase == Pending ==> t in s.acts || s.acceptor == Spawning(t))
            && (task.phase == Running ==> t in s.radio.runtimes)
            && (task.phase.Terminal? ==>
                  && t in s.ledger.claimant && s.ledger.claimant[t] in s.calls
                  && var c := s.calls[s.ledger.claimant[t]];
                     c.task == t && task.phase == Terminal(c.end, c.reason))
  {
    BaseInit(ports, cap);
    RunKeepsOutcomes(Init(ports, cap), steps, s);
    assert OutcomeOk(s, t);
  }

  // With working sockets and undisturbed conversions a RUNNING task is sent samples: its
  // stream is open, and it is among its consumers unless it is just being moved between the
  // two lists.
  lemma RunningIsStreaming(ports: set<int>, cap: int, steps: seq<Step>, s: State, t: TaskId)
    requires LeadsCalmly(Init(ports, cap), steps, s) && forall step :: step in steps ==> SocketsWork(step)
    requires t in s.ledger.registry && s.ledger.registry[t].phase == Running
    ensures t in s.radio.runtimes
    ensures var k := s.radio.runtimes[t].stream;
            && k < s.radio.streams && s.radio.closes[k] == 0
            && (t in ConsumersOf(s.radio, k).dests || t in ConsumersOf(s.radio, k).subbands
                || (s.acceptor.Converting? && s.acceptor.out == Some(t)))
  {
    CalmRunIsRun(Init(ports, cap), steps, s);
    ActivationSettles(ports, cap, steps, s, t);
    BaseInit(ports, cap);
    StreamsInit(ports, cap);
    RunKeepsStreams(Init(ports, cap), steps, s);
    assert TaskOk(s, t);
  }

  // There too, tasks on one channel of a device whose channels share an oscillator share one
  // stream, and a task on any other device shares its stream with nobody.
  lemma OneStreamPerChannel(ports: set<int>, cap: int, steps: seq<Step>, s: State, t: TaskId, u: TaskId)
    requires LeadsCalmly(Init(ports, cap), steps, s) && forall step :: step in steps ==> SocketsWork(step)
    requires s.acceptor.Idle? && t != u && t in s.radio.runtimes && u in s.radio.runtimes
    ensures t in s.ledger.registry && u in s.ledger.registry
    ensures s.radio.runtimes[t].stream == s.radio.runtimes[u].stream <==>
              && s.ledger.registry[t].sharedLo && s.ledger.registry[u].sharedLo
              && s.ledger.registry[t].channel == s.ledger.registry[u].channel
  {
    CalmRunIsRun(Init(ports, cap), steps, s);
    BaseInit(ports, cap);
    StreamsInit(ports, cap);
    RunKeepsStreams(Init(ports, cap), steps, s);
    assert Base(s) by { RunMovesForward(Init(ports, cap), steps, s); }
    assert TaskOk(s, t) && TaskOk(s, u);
    var j, k := s.radio.runtimes[t].stream, s.radio.runtimes[u].stream;
    assert t in Everyone(ConsumersOf(s.radio, j)) && u in Everyone(ConsumersOf(s.radio, k));
  }

  // ---- What was asked for is done ----

  // In every run a task that a tick has collected keeps its place until its thread is started.
  lemma {:induction false} CollectedGetsThread(s: State, steps: seq<Step>, s': State, t: TaskId)
    requires Base(s) && Leads(s, steps, s') && (t in s.ticker || t in s.acts)
    ensures t in s'.ticker || t in s'.acts
    decreases steps
  {
    if steps == [] {
    } else {
      BaseKept(s, steps[0]);
      KeepsItsPlace(s, steps[0], t);
      CollectedGetsThread(Do(s, steps[0]), steps[1..], s', t);
    }
  }

  lemma KeepsItsPlace(s: State, step: Step, t: TaskId)
    requires Base(s) && Can(s, step) && (t in s.ticker || t in s.acts)
    ensures t in Do(s, step).ticker || t in Do(s, step).acts
  {
    if step.OfAct? {
      assert Do(s, step).acts == s.acts[step.t := PcAfter(s, step.t, step.act)];
    }
  }

  // The call is still to claim its task, or the task has ended.
  ghost predicate ClaimsOrEnded(s: State, d: CallId, t: TaskId)
  {
    && d in s.calls && s.calls[d].task == t && t in s.ledger.registry
    && (s.calls[d].pc == Claim || Ended(s.ledger, t))
  }

  lemma ClaimsOrEndedKept(s: State, step: Step, d: CallId, t: TaskId)
    requires Base(s) && Can(s, step) && ClaimsOrEnded(s, d, t)
    ensures ClaimsOrEnded(Do(s, step), d, t)
  {
    StepMovesForward(s, step);
    if step.OfCall? {
      var c := s.calls[step.d].(pc := CallPcAfter(s, s.calls[step.d], step.call));
      assert Do(s, step).calls == s.calls[step.d := c];
    }
  }

  // In every run: once a call of deactivateTask for a known task has got anywhere, the task
  // has ended, by this call or another one.
  lemma {:induction false} DeactivatedHasEnded(s: State, steps: seq<Step>, s': State, d: CallId, t: TaskId)
    requires Base(s) && Leads(s, steps, s') && ClaimsOrEnded(s, d, t)
    ensures d in s'.calls && (s'.calls[d].pc != Claim ==> Ended(s'.ledger, t))
    decreases steps
  {
    if steps == [] {
    } else {
      BaseKept(s, steps[0]);
      ClaimsOrEndedKept(s, steps[0], d, t);
      DeactivatedHasEnded(Do(s, steps[0]), steps[1..], s', d, t);
    }
  }

  // ---- Counting ----

  lemma PhasesPartition(r: map<TaskId, Task>)
    ensures CountByPhase(r, Scheduled) + CountByPhase(r, Pending) + CountByPhase(r, Running)
         == |set t | t in r && !r[t].phase.Terminal?|
  {
    var a, b, c := InPhase(r, Scheduled), InPhase(r, Pending), InPhase(r, Running);
    assert (set t | t in r && !r[t].phase.Terminal?) == (a + b) + c;
    assert a !! b && (a + b) !! c;
    assert |(a + b) + c| == |a + b| + |c|;
  }

  // With nothing in between, the three counts are of different tasks and together of all that
  // are live: the accepting thread goes on exactly if there are fewer than the cap allows.
  lemma CountsExactly(s: State, s': State)
    requires s.closer.Up? && s.acceptor.Idle?
    requires Leads(s, [OfAcceptor(CountScheduled), OfAcceptor(CountPending), OfAcceptor(CountRunning)], s')
    ensures s'.ledger == s.ledger
    ensures s'.acceptor == Cleared <==>
            |set t | t in s.ledger.registry && !s.ledger.registry[t].phase.Terminal?| < s.cap
  {
    var steps := [OfAcceptor(CountScheduled), OfAcceptor(CountPending), OfAcceptor(CountRunning)];
    var s1 := Accept(s, CountScheduled);
    var s2 := Accept(s1, CountPending);
    assert steps[1..] == [OfAcceptor(CountPending), OfAcceptor(CountRunning)];
    assert steps[1..][1..] == [OfAcceptor(CountRunning)] && [OfAcceptor(CountRunning)][1..] == [];
    assert Leads(s1, steps[1..], s') && Leads(s2, steps[1..][1..], s') && Leads(Accept(s2, CountRunning), [], s');
    PhasesPartition(s.ledger.registry);
  }
}
