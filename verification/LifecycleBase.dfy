// What every step of the lifecycle protocol keeps: who may be where, the order of the
// phases, and that a terminal state is final.
module LifecycleBase {
  import opened Basics
  import opened Lifecycle

  predicate HoldsHw(pc: ActPc)
  {
    pc == Recheck || pc == LookUp || pc.Join? || pc == Open || pc.Opened? || pc.SetUp?
  }

  predicate PastPublish(pc: ActPc)
  {
    pc == Finish || pc == Returning || pc == Exited
  }

  ghost predicate ThreadsKnown(s: State)
  {
    && (forall t :: t in s.acts ==> t in s.ledger.registry)
    && (forall t :: t in s.ticker ==> t in s.ledger.registry && t !in s.acts)
    && (s.acceptor.Spawning? ==>
          s.acceptor.task in s.ledger.registry && s.acceptor.task !in s.acts && s.acceptor.task !in s.ticker
          && s.ledger.registry[s.acceptor.task].phase != Scheduled)
    && (s.acceptor.Placing? ==>
          s.acceptor.task !in s.ledger.registry && s.acceptor.left <= s.acceptor.record.devices
          && (s.acceptor.record.phase == Scheduled || s.acceptor.record.phase == Pending))
    && (!s.closer.Up? ==> s.acceptor.Idle? && s.ticker == {})
  }

  // Only an activation that has published its runtime leaves a task RUNNING.
  ghost predicate RunningIsPublished(s: State)
  {
    forall t :: t in s.ledger.registry && s.ledger.registry[t].phase == Running ==>
      t in s.acts && (s.acts[t] == Returning || s.acts[t] == Exited)
  }

  ghost predicate HwLockConsistent(s: State)
  {
    && (s.hw.Some? ==> s.hw.value in s.acts && HoldsHw(s.acts[s.hw.value]))
    && (forall t :: t in s.acts && HoldsHw(s.acts[t]) ==> s.hw == Some(t))
  }

  ghost predicate RuntimesArePublished(s: State)
  {
    forall t :: t in s.radio.runtimes ==> t in s.acts && PastPublish(s.acts[t])
  }

  // A call that got past its claim is about a task that has ended.
  ghost predicate CallsConcernEnded(s: State)
  {
    forall d :: d in s.calls && s.calls[d].pc != Claim && s.calls[d].pc != Done ==> Ended(s.ledger, s.calls[d].task)
  }

  ghost predicate Base(s: State)
  {
    && ThreadsKnown(s) && RunningIsPublished(s) && HwLockConsistent(s) && RuntimesArePublished(s)
    && CallsConcernEnded(s)
  }

  lemma BaseInit(ports: set<int>, cap: int)
    ensures Base(Init(ports, cap))
  {
  }

  lemma BaseKeptByAcceptor(s: State, step: AcceptStep)
    requires Base(s) && CanAccept(s, step)
    ensures Base(Accept(s, step))
  {
  }

  lemma BaseKeptByTick(s: State, step: TickStep)
    requires Base(s) && CanTick(s, step)
    ensures Base(Tick(s, step))
  {
  }

  lemma HwLockKeptByAct(s: State, t: TaskId, step: ActStep)
    requires HwLockConsistent(s) && CanAct(s, t, step)
    ensures HwLockConsistent(Act(s, t, step))
  {
    var s' := Act(s, t, step);
    var pc := PcAfter(s, t, step);
    assert s'.acts == s.acts[t := pc];
    assert HoldsHw(s.acts[t]) || HoldsHw(pc) ==> s.hw == None || s.hw == Some(t);
    assert s'.hw == if HoldsHw(pc) then Some(t) else if HoldsHw(s.acts[t]) then None else s.hw;
  }

  lemma RunningKeptByAct(s: State, t: TaskId, step: ActStep)
    requires RunningIsPublished(s) && CanAct(s, t, step)
    ensures RunningIsPublished(Act(s, t, step))
  {
    assert Act(s, t, step).acts == s.acts[t := PcAfter(s, t, step)];
  }

  lemma ThreadsKeptByAct(s: State, t: TaskId, step: ActStep)
    requires ThreadsKnown(s) && CanAct(s, t, step)
    ensures ThreadsKnown(Act(s, t, step))
  {
    assert Act(s, t, step).acts == s.acts[t := PcAfter(s, t, step)];
  }

  lemma RuntimesKeptByAct(s: State, t: TaskId, step: ActStep)
    requires RuntimesArePublished(s) && CanAct(s, t, step)
    ensures RuntimesArePublished(Act(s, t, step))
  {
    assert Act(s, t, step).acts == s.acts[t := PcAfter(s, t, step)];
  }

  lemma BaseKeptByAct(s: State, t: TaskId, step: ActStep)
    requires Base(s) && CanAct(s, t, step)
    ensures Base(Act(s, t, step))
  {
    HwLockKeptByAct(s, t, step);
    RunningKeptByAct(s, t, step);
    ThreadsKeptByAct(s, t, step);
    RuntimesKeptByAct(s, t, step);
  }

  lemma BaseKeptByCall(s: State, d: CallId, step: CallStep)
    requires Base(s) && CanCall(s, d, step)
    ensures Base(Deactivate(s, d, step))
  {
  }

  lemma BaseKept(s: State, step: Step)
    requires Base(s) && Can(s, step)
    ensures Base(Do(s, step))
  {
    match step
    case OfAcceptor(a) => BaseKeptByAcceptor(s, a);
    case OfTick(k) => BaseKeptByTick(s, k);
    case OfAct(t, a) => BaseKeptByAct(s, t, a);
    case Begin(_, _, _, _) =>
    case OfCall(d, c) => BaseKeptByCall(s, d, c);
    case OfCloser(c) =>
  }

  // ---- Phases only move forward ----

  // From s to s' no task is lost or moves back, and a terminal state and its reason stay.
  ghost predicate Forward(s: State, s': State)
  {
    forall t :: t in s.ledger.registry ==>
      && t in s'.ledger.registry
      && Stage(s.ledger.registry[t].phase) <= Stage(s'.ledger.registry[t].phase)
      && (s.ledger.registry[t].phase.Terminal? ==> s'.ledger.registry[t].phase == s.ledger.registry[t].phase)
      && s'.ledger.registry[t].(phase := s.ledger.registry[t].phase) == s.ledger.registry[t]
  }

  lemma ActMovesForward(s: State, t: TaskId, step: ActStep)
    requires Base(s) && CanAct(s, t, step)
    ensures Forward(s, Act(s, t, step))
  {
  }

  lemma CallMovesForward(s: State, d: CallId, step: CallStep)
    requires CanCall(s, d, step)
    ensures Forward(s, Deactivate(s, d, step))
  {
  }

  lemma StepMovesForward(s: State, step: Step)
    requires Base(s) && Can(s, step)
    ensures Forward(s, Do(s, step))
  {
    match step
    case OfAct(t, a) => ActMovesForward(s, t, a);
    case OfCall(d, c) => CallMovesForward(s, d, c);
    case _ =>
  }

  // Over any interleaving: phases never move back, and a terminal state never changes.
  lemma {:induction false} RunMovesForward(s: State, steps: seq<Step>, s': State)
    requires Base(s) && Leads(s, steps, s')
    ensures Base(s') && Forward(s, s')
    decreases steps
  {
    if steps == [] {
    } else {
      BaseKept(s, steps[0]);
      StepMovesForward(s, steps[0]);
      RunMovesForward(Do(s, steps[0]), steps[1..], s');
    }
  }
}
