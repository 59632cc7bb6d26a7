// The cap on concurrent tasks. The accepting thread adds three counts, each read under
// its own lock while other threads move tasks (src/ResourceManager.cpp:279-284).
module LifecycleCap {
  import opened Basics
  import opened Lifecycle
  import opened LifecycleBase

  // What the accepting thread knows at each point: what it has counted so far is an upper
  // bound on the tasks that are still that far back.
  ghost predicate CountsCover(s: State)
  {
    match s.acceptor
    case CountedScheduled(n) => |UpTo(s.ledger.registry, 0)| <= n
    case CountedPending(n) => |UpTo(s.ledger.registry, 1)| <= n
    case Cleared => |UpTo(s.ledger.registry, 2)| < s.cap
    case Gathered(_) => |UpTo(s.ledger.registry, 2)| < s.cap
    case Converting(_, _, _) => |UpTo(s.ledger.registry, 2)| < s.cap
    case Placing(_, _, _) => |UpTo(s.ledger.registry, 2)| < s.cap
    case _ => true
  }

  ghost predicate WithinCap(s: State)
  {
    |UpTo(s.ledger.registry, 2)| <= Max(s.cap, 0) && CountsCover(s)
  }

  // Adding the tasks of the next phase to a cover of the earlier ones covers both.
  lemma NextCount(registry: map<TaskId, Task>, rank: nat, p: Phase)
    requires (rank == 0 && p == Pending) || (rank == 1 && p == Running)
    ensures |UpTo(registry, rank + 1)| <= |UpTo(registry, rank)| + CountByPhase(registry, p)
  {
    var a, b := UpTo(registry, rank), InPhase(registry, p);
    assert UpTo(registry, rank + 1) == a + b;
    assert a + b == a + (b - a);
    SubsetSize(b - a, b);
  }

  // While nothing is registered, the tasks that are at most so far can only get fewer.
  lemma FewerLeftBehind(s: State, s': State, rank: nat)
    requires Forward(s, s') && s'.ledger.registry.Keys == s.ledger.registry.Keys
    ensures |UpTo(s'.ledger.registry, rank)| <= |UpTo(s.ledger.registry, rank)|
  {
    SubsetSize(UpTo(s'.ledger.registry, rank), UpTo(s.ledger.registry, rank));
  }

  lemma RegisterAddsOne(s: State)
    requires CanAccept(s, Register) && Base(s)
    ensures |UpTo(Accept(s, Register).ledger.registry, 2)| <= |UpTo(s.ledger.registry, 2)| + 1
  {
    var before, after := UpTo(s.ledger.registry, 2), UpTo(Accept(s, Register).ledger.registry, 2);
    assert after <= before + {s.acceptor.task};
    SubsetSize(after, before + {s.acceptor.task});
  }

  lemma AcceptStaysWithinCap(s: State, step: AcceptStep)
    requires Base(s) && WithinCap(s) && CanAccept(s, step)
    ensures WithinCap(Accept(s, step))
  {
    match step
    case CountScheduled =>
      assert UpTo(s.ledger.registry, 0) == InPhase(s.ledger.registry, Scheduled);
    case CountPending => NextCount(s.ledger.registry, 0, Pending);
    case CountRunning => NextCount(s.ledger.registry, 1, Running);
    case Register => RegisterAddsOne(s);
    case _ =>
  }

  lemma OtherStepsKeepKeys(s: State, step: Step)
    requires Base(s) && Can(s, step) && !step.OfAcceptor?
    ensures Do(s, step).ledger.registry.Keys == s.ledger.registry.Keys
    ensures Do(s, step).acceptor == s.acceptor && Do(s, step).cap == s.cap
  {
  }

  lemma StaysWithinCap(s: State, step: Step)
    requires Base(s) && WithinCap(s) && Can(s, step)
    ensures WithinCap(Do(s, step)) && Do(s, step).cap == s.cap
  {
    if step.OfAcceptor? {
      AcceptStaysWithinCap(s, step.a);
    } else {
      StepMovesForward(s, step);
      OtherStepsKeepKeys(s, step);
      FewerLeftBehind(s, Do(s, step), 0);
      FewerLeftBehind(s, Do(s, step), 1);
      FewerLeftBehind(s, Do(s, step), 2);
    }
  }

  lemma {:induction false} RunStaysWithinCap(s: State, steps: seq<Step>, s': State)
    requires Base(s) && WithinCap(s) && Leads(s, steps, s')
    ensures WithinCap(s') && s'.cap == s.cap
    decreases steps
  {
    if steps == [] {
    } else {
      BaseKept(s, steps[0]);
      StaysWithinCap(s, steps[0]);
      RunStaysWithinCap(Do(s, steps[0]), steps[1..], s');
    }
  }

  // In no interleaving do more tasks live than the cap allows.
  lemma CapHolds(ports: set<int>, cap: int, steps: seq<Step>, s: State)
    requires Leads(Init(ports, cap), steps, s)
    ensures |UpTo(s.ledger.registry, 2)| <= Max(cap, 0)
    ensures forall t :: t in UpTo(s.ledger.registry, 2) <==> t in s.ledger.registry && !Ended(s.ledger, t)
  {
    BaseInit(ports, cap);
    assert UpTo(Init(ports, cap).ledger.registry, 2) == {};
    RunStaysWithinCap(Init(ports, cap), steps, s);
  }
}
