// The waits of shutdown end: activations and deactivations can only take so many steps
// before all of them are done, and a round of shutdown can take only so many.
module LifecycleProgress {
  import opened Basics
  import opened Lifecycle
  import opened LifecycleBase
  import opened LifecycleShutdown

  // How many steps are left to a thread at most, a call it still has to make included.
  function StepsLeft(pc: ActPc): nat
  {
    match pc
    case Start => 11
    case WantHw => 10
    case Recheck => 9
    case LookUp => 8
    case Open => 7
    case Failing => 6
    case Join(_) => 5
    case Opened(_) => 5
    case SetUp(_) => 4
    case Publish(_) => 3
    case Finish => 2
    case Returning => 1
    case Awaiting(_) => 1
    case Exited => 0
  }

  function CallStepsLeft(pc: CallPc): nat
  {
    match pc
    case Claim => 4
    case OrphanTest => 3
    case WantTeardown(_) => 2
    case Release => 1
    case Done => 0
  }

  // ---- Adding them up ----

  // One token for each step that is left to anyone.
  function Tokens(left: map<nat, nat>): (r: set<(nat, nat)>)
    ensures forall p :: p in r <==> p.0 in left && p.1 < left[p.0]
  {
    set k, i | k in left && 0 <= i < left[k] :: (k, i)
  }

  // The tokens of one.
  function Own(k: nat, n: nat): (r: set<(nat, nat)>)
    ensures forall p :: p in r <==> p.0 == k && p.1 < n
    ensures |r| == n
  {
    if n == 0 then {} else Own(k, n - 1) + {(k, n - 1)}
  }

  lemma TokensWithout(left: map<nat, nat>, k: nat)
    ensures |Tokens(left)| == |Tokens(left - {k})| + if k in left then left[k] else 0
  {
    if k in left {
      var own, rest := Own(k, left[k]), Tokens(left - {k});
      forall p
        ensures p in Tokens(left) <==> p in own || p in rest
      {
      }
      assert Tokens(left) == own + rest;
      assert own !! rest;
    } else {
      assert left - {k} == left;
    }
  }

  lemma TokensUpdated(left: map<nat, nat>, k: nat, n: nat)
    ensures |Tokens(left[k := n])| + (if k in left then left[k] else 0) == |Tokens(left)| + n
  {
    TokensWithout(left, k);
    TokensWithout(left[k := n], k);
    assert left[k := n] - {k} == left - {k};
  }

  function ActsLeft(acts: map<TaskId, ActPc>): map<nat, nat>
  {
    map t | t in acts :: StepsLeft(acts[t])
  }

  function CallsLeft(calls: map<CallId, Call>): map<nat, nat>
  {
    map d | d in calls :: CallStepsLeft(calls[d].pc)
  }

  function Work(s: State): nat
  {
    |Tokens(ActsLeft(s.acts))| + |Tokens(CallsLeft(s.calls))|
  }

  lemma ActUpdated(acts: map<TaskId, ActPc>, t: TaskId, pc: ActPc)
    requires t in acts
    ensures |Tokens(ActsLeft(acts[t := pc]))| + StepsLeft(acts[t]) == |Tokens(ActsLeft(acts))| + StepsLeft(pc)
  {
    TokensUpdated(ActsLeft(acts), t, StepsLeft(pc));
    assert ActsLeft(acts[t := pc]) == ActsLeft(acts)[t := StepsLeft(pc)];
  }

  lemma CallUpdated(calls: map<CallId, Call>, d: CallId, c: Call)
    ensures |Tokens(CallsLeft(calls[d := c]))| + (if d in calls then CallStepsLeft(calls[d].pc) else 0)
         == |Tokens(CallsLeft(calls))| + CallStepsLeft(c.pc)
  {
    TokensUpdated(CallsLeft(calls), d, CallStepsLeft(c.pc));
    assert CallsLeft(calls[d := c]) == CallsLeft(calls)[d := CallStepsLeft(c.pc)];
  }

  // ---- Every step of an activation or a call uses some up ----

  // A call of deactivateTask that a failed activation makes was counted in.
  lemma NextIsNearer(s: State, t: TaskId, step: ActStep)
    requires CanAct(s, t, step)
    ensures StepsLeft(PcAfter(s, t, step)) + (if step.CallDeactivate? then CallStepsLeft(Claim) else 0)
          < StepsLeft(s.acts[t])
  {
  }

  lemma ActUsesWork(s: State, t: TaskId, step: ActStep)
    requires CanAct(s, t, step)
    ensures Work(Act(s, t, step)) < Work(s)
  {
    var pc, s' := PcAfter(s, t, step), Act(s, t, step);
    NextIsNearer(s, t, step);
    assert s'.acts == s.acts[t := pc];
    ActUpdated(s.acts, t, pc);
    if step.CallDeactivate? {
      var c := Call(t, Failed, step.reason, Claim);
      CallUpdated(s.calls, step.call, c);
      assert s'.calls == s.calls[step.call := c];
    } else {
      assert s'.calls == s.calls;
    }
  }

  lemma CallUsesWork(s: State, d: CallId, step: CallStep)
    requires CanCall(s, d, step)
    ensures Work(Deactivate(s, d, step)) < Work(s)
  {
    var c := s.calls[d].(pc := CallPcAfter(s, s.calls[d], step));
    CallUpdated(s.calls, d, c);
    assert Deactivate(s, d, step).calls == s.calls[d := c];
  }

  ghost predicate Works(steps: seq<Step>)
  {
    forall step :: step in steps ==> step.OfAct? || step.OfCall?
  }

  lemma {:induction false} WorkRunsOut(s: State, steps: seq<Step>, s': State)
    requires Leads(s, steps, s') && Works(steps)
    ensures |steps| + Work(s') <= Work(s)
    decreases steps
  {
    if steps == [] {
    } else {
      assert steps[0] in steps;
      match steps[0] {
        case OfAct(t, a) => ActUsesWork(s, t, a);
        case OfCall(d, c) => CallUsesWork(s, d, c);
      }
      WorkRunsOut(Do(s, steps[0]), steps[1..], s');
    }
  }

  // From any state of any run: activations and deactivation calls together take at most
  // Work(s) steps, however they interleave; and when none of them can take another, no
  // activation is in flight and every call is done.
  lemma WaitEnds(ports: set<int>, cap: int, before: seq<Step>, s: State, steps: seq<Step>, s': State)
    requires Leads(Init(ports, cap), before, s) && Leads(s, steps, s') && Works(steps)
    ensures |steps| <= Work(s)
    ensures (forall step :: !Working(s', step)) ==>
              InFlight(s') == {} && forall d: CallId :: d in s'.calls ==> s'.calls[d].pc == Done
  {
    WorkRunsOut(s, steps, s');
    KnownInRuns(ports, cap, before, s);
    RunMovesForward(s, steps, s');
    RunKeepsAwaits(s, steps, s');
    if InFlight(s') != {} || exists d: CallId :: d in s'.calls && s'.calls[d].pc != Done {
      SomeoneWorks(s');
    }
  }

  lemma KnownInRuns(ports: set<int>, cap: int, steps: seq<Step>, s: State)
    requires Leads(Init(ports, cap), steps, s)
    ensures Base(s) && AwaitsMadeCalls(s)
  {
    BaseInit(ports, cap);
    RunMovesForward(Init(ports, cap), steps, s);
    RunKeepsAwaits(Init(ports, cap), steps, s);
  }

  // ---- Whatever calls are made meanwhile ----

  function CountOf(steps: seq<Step>, which: Step -> bool): nat
    decreases steps
  {
    if steps == [] then 0 else (if which(steps[0]) then 1 else 0) + CountOf(steps[1..], which)
  }

  // A thread is started for a task.
  predicate StartsThread(step: Step)
  {
    (step.OfAcceptor? && step.a.Spawn?) || (step.OfTick? && step.k.Launch?)
  }

  predicate IsAct(step: Step) { step.OfAct? }

  predicate IsBegin(step: Step) { step.Begin? }

  function ActWork(s: State): nat
  {
    |Tokens(ActsLeft(s.acts))|
  }

  lemma StartedCosts(acts: map<TaskId, ActPc>, t: TaskId)
    ensures |Tokens(ActsLeft(acts[t := Start]))| <= |Tokens(ActsLeft(acts))| + 11
  {
    TokensUpdated(ActsLeft(acts), t, StepsLeft(Start));
    assert ActsLeft(acts[t := Start]) == ActsLeft(acts)[t := StepsLeft(Start)];
  }

  lemma StepOfActs(s: State, step: Step)
    requires Can(s, step)
    ensures (if IsAct(step) then 1 else 0) + ActWork(Do(s, step)) <= ActWork(s) + if StartsThread(step) then 11 else 0
  {
    match step
    case OfAct(t, a) =>
      NextIsNearer(s, t, a);
      assert Act(s, t, a).acts == s.acts[t := PcAfter(s, t, a)];
      ActUpdated(s.acts, t, PcAfter(s, t, a));
    case OfAcceptor(a) =>
      if a.Spawn? { StartedCosts(s.acts, s.acceptor.task); }
    case OfTick(k) =>
      if k.Launch? { StartedCosts(s.acts, k.task); }
    case _ =>
  }

  // In every run, whatever calls, scheduler and shutdown do, each thread that is started
  // takes at most eleven steps of its own.
  lemma {:induction false} ActStepsRunOut(s: State, steps: seq<Step>, s': State)
    requires Leads(s, steps, s')
    ensures CountOf(steps, IsAct) + ActWork(s') <= ActWork(s) + 11 * CountOf(steps, StartsThread)
    decreases steps
  {
    if steps == [] {
    } else {
      StepOfActs(s, steps[0]);
      ActStepsRunOut(Do(s, steps[0]), steps[1..], s');
    }
  }

  // Once shutdown has begun none is started any more, and so the activations in flight end
  // after so many steps of theirs, however many calls shutdown makes in the meantime; and
  // when none is in flight it stays so.
  lemma {:induction false} ActivationsEnd(s: State, steps: seq<Step>, s': State)
    requires Leads(s, steps, s') && !s.closer.Up?
    ensures CountOf(steps, IsAct) + ActWork(s') <= ActWork(s)
    ensures InFlight(s) == {} ==> InFlight(s') == {}
    decreases steps
  {
    if steps == [] {
    } else {
      StepOfActs(s, steps[0]);
      NoneLandsTwice(s, steps[0]);
      ActivationsEnd(Do(s, steps[0]), steps[1..], s');
    }
  }

  lemma NoneLandsTwice(s: State, step: Step)
    requires Can(s, step) && !s.closer.Up?
    ensures InFlight(s) == {} ==> InFlight(Do(s, step)) == {}
  {
    if InFlight(s) == {} {
      assert forall t :: t in s.acts ==> t !in InFlight(s);
      assert !step.OfAct?;
      assert Do(s, step).acts == s.acts;
    }
  }

  // ---- Each round of shutdown ends ----

  // A task to be deactivated costs the making of the call, its four steps and the wait.
  function RoundWork(s: State): nat
  {
    Work(s) + if InRound(s.closer) then 6 * |s.closer.todo| + (if s.closer.current.Some? then 1 else 0) else 0
  }

  lemma CallMadeCosts(s: State, d: CallId, c: Call)
    requires d !in s.calls && c.pc == Claim
    ensures |Tokens(CallsLeft(s.calls[d := c]))| == |Tokens(CallsLeft(s.calls))| + 4
  {
    CallUpdated(s.calls, d, c);
  }

  lemma StepOfRound(s: State, step: Step)
    requires Can(s, step) && InRound(s.closer) && step != OfCloser(EndRound)
    ensures InRound(Do(s, step).closer)
    ensures 1 + RoundWork(Do(s, step)) <= RoundWork(s) + if IsBegin(step) then 5 else 0
  {
    match step
    case OfAct(t, a) => ActUsesWork(s, t, a);
    case OfCall(d, c) => CallUsesWork(s, d, c);
    case Begin(d, t, end, reason) => CallMadeCosts(s, d, Call(t, end, reason, Claim));
    case OfCloser(c) =>
      if c.CloseTask? {
        CallMadeCosts(s, c.call, Call(c.task, Cancelled, "controller shutdown", Claim));
        RestIsSmaller(s.closer.todo, c.task);
      }
    case _ =>
  }

  lemma RestIsSmaller(todo: set<TaskId>, t: TaskId)
    requires t in todo
    ensures |todo - {t}| + 1 == |todo|
  {
    assert todo == (todo - {t}) + {t};
  }

  lemma {:induction false} RoundRunsOut(s: State, steps: seq<Step>, s': State)
    requires Leads(s, steps, s') && InRound(s.closer) && OfCloser(EndRound) !in steps
    ensures InRound(s'.closer) && |steps| + RoundWork(s') <= RoundWork(s) + 5 * CountOf(steps, IsBegin)
    decreases steps
  {
    if steps == [] {
    } else {
      assert steps[0] in steps;
      StepOfRound(s, steps[0]);
      assert OfCloser(EndRound) !in steps[1..];
      RoundRunsOut(Do(s, steps[0]), steps[1..], s');
    }
  }

  // A step of an activation, of a call, or of shutdown within its round.
  ghost predicate WorksInRound(s: State, step: Step)
  {
    Working(s, step) || (step.OfCloser? && step.c != EndRound && Can(s, step))
  }

  // In every run a round of cancelling or sweeping is over after so many steps of all
  // threads together, and five more for each call that others make; when no activation,
  // no call and no other step of the round can go on, the round can be ended.
  lemma RoundEnds(ports: set<int>, cap: int, before: seq<Step>, s: State, steps: seq<Step>, s': State)
    requires Leads(Init(ports, cap), before, s) && Leads(s, steps, s')
    requires InRound(s.closer) && OfCloser(EndRound) !in steps
    ensures |steps| <= RoundWork(s) + 5 * CountOf(steps, IsBegin)
    ensures (forall step :: !WorksInRound(s', step)) ==> Can(s', OfCloser(EndRound))
  {
    RoundRunsOut(s, steps, s');
    KnownInRuns(ports, cap, before, s);
    RunMovesForward(s, steps, s');
    RunKeepsAwaits(s, steps, s');
    if !Can(s', OfCloser(EndRound)) {
      var step := RoundGoesOn(s');
    }
  }

  lemma RoundGoesOn(s: State) returns (step: Step)
    requires Base(s) && AwaitsMadeCalls(s) && InRound(s.closer) && !Can(s, OfCloser(EndRound))
    ensures WorksInRound(s, step)
  {
    if s.closer.current.None? {
      var t := PickElement(s.closer.todo);
      var d := FreshCall(s);
      step := OfCloser(CloseTask(t, d));
    } else if s.calls[s.closer.current.value].pc == Done {
      step := OfCloser(AwaitClose);
    } else {
      step := CallMoves(s, s.closer.current.value);
    }
  }
}
