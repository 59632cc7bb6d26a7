// Ports and timeline slots over every interleaving: each is charged to one task, and is
// given back exactly once, by the one call that claimed the task's terminal state.
module LifecycleAccounts {
  import opened Basics
  import opened Lifecycle
  import opened LifecycleBase
  import UdpPortPool

  // ---- Exactly one call claims a task ----

  predicate HoldsClaim(pc: CallPc)
  {
    pc == WantTeardown(true) || pc == Release
  }

  // A terminal task has one claimant; its ports are released once that call is done,
  // and not before.
  ghost predicate TaskClaimed(l: Ledger, calls: map<CallId, Call>, t: TaskId)
  {
    && (t in l.claimant <==> Ended(l, t))
    && (t !in l.claimant ==> l.released[t] == 0)
    && (t in l.claimant ==>
          var d := l.claimant[t];
          && d in calls && calls[d].task == t
          && (HoldsClaim(calls[d].pc) || calls[d].pc == Done)
          && l.released[t] == if calls[d].pc == Done then 1 else 0)
  }

  ghost predicate ClaimIsOwn(l: Ledger, calls: map<CallId, Call>, d: CallId)
    requires d in calls
  {
    HoldsClaim(calls[d].pc) ==> calls[d].task in l.claimant && l.claimant[calls[d].task] == d
  }

  ghost predicate ClaimedOnce(s: State)
  {
    && (forall t :: TaskClaimed(s.ledger, s.calls, t))
    && (forall d :: d in s.calls ==> ClaimIsOwn(s.ledger, s.calls, d))
  }

  // No task ended and no call moved; at most one call was added.
  ghost predicate ClaimsUntouched(s: State, s': State)
  {
    && s'.ledger.claimant == s.ledger.claimant
    && s'.ledger.released == s.ledger.released
    && (forall t :: Ended(s'.ledger, t) <==> Ended(s.ledger, t))
    && (forall d :: d in s.calls ==> d in s'.calls && s'.calls[d] == s.calls[d])
    && (forall d :: d in s'.calls && d !in s.calls ==> s'.calls[d].pc == Claim)
  }

  lemma UntouchedClaimsKept(s: State, s': State)
    requires ClaimedOnce(s) && ClaimsUntouched(s, s')
    ensures ClaimedOnce(s')
  {
    forall t
      ensures TaskClaimed(s'.ledger, s'.calls, t)
    {
      assert TaskClaimed(s.ledger, s.calls, t);
    }
    forall d | d in s'.calls
      ensures ClaimIsOwn(s'.ledger, s'.calls, d)
    {
      if d in s.calls {
        assert ClaimIsOwn(s.ledger, s.calls, d);
      }
    }
  }

  // Only a step of a deactivation call can touch a claim.
  lemma OtherStepsLeaveClaims(s: State, step: Step)
    requires Base(s) && Can(s, step) && !step.OfCall?
    ensures ClaimsUntouched(s, Do(s, step))
  {
    match step
    case OfAcceptor(a) =>
    case OfTick(k) =>
    case OfAct(t, a) => ActLeavesClaims(s, t, a);
    case Begin(_, _, _, _) =>
    case OfCloser(c) =>
  }

  lemma ActLeavesClaims(s: State, t: TaskId, step: ActStep)
    requires CanAct(s, t, step)
    ensures ClaimsUntouched(s, Act(s, t, step))
  {
  }

  lemma CallKeepsTaskClaim(s: State, d: CallId, step: CallStep, t: TaskId)
    requires ClaimedOnce(s) && CanCall(s, d, step)
    ensures TaskClaimed(Deactivate(s, d, step).ledger, Deactivate(s, d, step).calls, t)
  {
    var s' := Deactivate(s, d, step);
    assert TaskClaimed(s.ledger, s.calls, t) && TaskClaimed(s.ledger, s.calls, s.calls[d].task);
    assert ClaimIsOwn(s.ledger, s.calls, d);
    assert s'.calls == s.calls[d := s.calls[d].(pc := CallPcAfter(s, s.calls[d], step))];
    if t == s.calls[d].task {
      match step
      case ClaimEnd =>
      case TestOrphan =>
      case TearDown =>
      case ReleaseAll =>
    }
  }

  lemma CallKeepsOwnership(s: State, d: CallId, step: CallStep, e: CallId)
    requires ClaimedOnce(s) && CanCall(s, d, step) && e in Deactivate(s, d, step).calls
    ensures ClaimIsOwn(Deactivate(s, d, step).ledger, Deactivate(s, d, step).calls, e)
  {
    var s' := Deactivate(s, d, step);
    assert ClaimIsOwn(s.ledger, s.calls, e) && ClaimIsOwn(s.ledger, s.calls, d);
    assert TaskClaimed(s.ledger, s.calls, s.calls[d].task);
    assert s'.calls == s.calls[d := s.calls[d].(pc := CallPcAfter(s, s.calls[d], step))];
  }

  lemma ClaimedOnceKept(s: State, step: Step)
    requires Base(s) && ClaimedOnce(s) && Can(s, step)
    ensures ClaimedOnce(Do(s, step))
  {
    if step.OfCall? {
      forall t
        ensures TaskClaimed(Do(s, step).ledger, Do(s, step).calls, t)
      {
        CallKeepsTaskClaim(s, step.d, step.call, t);
      }
      forall e | e in Do(s, step).calls
        ensures ClaimIsOwn(Do(s, step).ledger, Do(s, step).calls, e)
      {
        CallKeepsOwnership(s, step.d, step.call, e);
      }
    } else {
      OtherStepsLeaveClaims(s, step);
      UntouchedClaimsKept(s, Do(s, step));
    }
  }

  // ---- Ports ----

  // The pool ports each task is charged with: recorded tasks that were not released, and
  // the one being placed.
  function Charges(l: Ledger, a: Acceptor): map<TaskId, set<int>>
  {
    (map t | t in l.registry && l.released[t] == 0 :: l.registry[t].poolPorts)
    + (if a.Placing? then map[a.task := a.record.poolPorts] else map[])
  }

  function AllPorts(ch: map<TaskId, set<int>>): set<int>
  {
    set t, p | t in ch && p in ch[t] :: p
  }

  ghost predicate DisjointCharges(ch: map<TaskId, set<int>>)
  {
    forall t, u :: t in ch && u in ch && t != u ==> ch[t] !! ch[u]
  }

  // The used ports are exactly the disjoint union of what the tasks are charged with.
  ghost predicate Settles(pool: UdpPortPool.Ports, ch: map<TaskId, set<int>>)
  {
    pool.free !! pool.used && pool.used == AllPorts(ch) && DisjointCharges(ch)
  }

  ghost predicate Balanced(l: Ledger, a: Acceptor)
  {
    Settles(l.pool, Charges(l, a))
  }

  ghost predicate ClientsOutside(l: Ledger, a: Acceptor, range: set<int>)
  {
    && l.pool.free + l.pool.used == range
    && (forall t :: t in l.registry ==> l.registry[t].clientPorts !! range)
    && (a.Placing? ==> a.record.clientPorts !! range)
  }

  // The client of the request drawn for names no port of the pool's range.
  ghost predicate NamesNoPoolPort(step: Step, range: set<int>)
  {
    step.OfAcceptor? && step.a.Draw? ==> step.a.record.clientPorts !! range
  }

  lemma AddCharge(ch: map<TaskId, set<int>>, t: TaskId, ports: set<int>)
    requires t !in ch && DisjointCharges(ch) && ports !! AllPorts(ch)
    ensures DisjointCharges(ch[t := ports]) && AllPorts(ch[t := ports]) == AllPorts(ch) + ports
  {
    var ch' := ch[t := ports];
    forall u | u in ch
      ensures ch[u] !! ports
    {
      assert forall p :: p in ch[u] ==> p in AllPorts(ch);
    }
    forall p
      ensures p in AllPorts(ch') <==> p in AllPorts(ch) || p in ports
    {
      if p in AllPorts(ch) {
        var u :| u in ch && p in ch[u];
        assert u in ch' && p in ch'[u];
      }
      if p in ports {
        assert t in ch' && p in ch'[t];
      }
    }
  }

  lemma DropCharge(ch: map<TaskId, set<int>>, t: TaskId)
    requires t in ch && DisjointCharges(ch)
    ensures DisjointCharges(ch - {t}) && AllPorts(ch - {t}) == AllPorts(ch) - ch[t]
  {
    var ch' := ch - {t};
    forall p
      ensures p in AllPorts(ch') <==> p in AllPorts(ch) && p !in ch[t]
    {
      if p in AllPorts(ch) && p !in ch[t] {
        var u :| u in ch && p in ch[u];
        assert u in ch' && p in ch'[u];
      }
      if p in AllPorts(ch') {
        var u :| u in ch' && p in ch'[u];
        assert u in ch && p in ch[u];
      }
    }
  }

  lemma DrawKeepsBooks(pool: UdpPortPool.Ports, ch: map<TaskId, set<int>>, t: TaskId, n: nat)
    requires Settles(pool, ch) && t !in ch && n <= |pool.free|
    ensures var (pool', out) := UdpPortPool.Draw(pool, n);
            Settles(pool', ch[t := Elements(out)]) && pool'.free + pool'.used == pool.free + pool.used
  {
    UdpPortPool.DrawMovesPorts(pool, n);
    AddCharge(ch, t, Elements(UdpPortPool.Draw(pool, n).1));
  }

  lemma PlacingCharges(l: Ledger, a: Acceptor, pool: UdpPortPool.Ports, task: TaskId, record: Task)
    requires !a.Placing? && task !in l.registry
    ensures task !in Charges(l, a)
    ensures Charges(l.(pool := pool), Placing(task, record, record.devices)) == Charges(l, a)[task := record.poolPorts]
  {
  }

  // What was charged to the task being placed is charged to its record.
  lemma RegisterKeepsCharges(l: Ledger, a: Acceptor, a': Acceptor)
    requires a.Placing? && !a'.Placing? && a.task !in l.registry && l.released[a.task] == 0
    ensures Charges(l.(registry := l.registry[a.task := a.record]), a') == Charges(l, a)
  {
  }

  lemma AcceptKeepsCharges(s: State, step: AcceptStep)
    requires Base(s) && ClaimedOnce(s) && CanAccept(s, step) && (step.Draw? ==> step.n > |s.ledger.pool.free|)
    ensures LedgerAfterAccept(s.ledger, s.acceptor, step).pool == s.ledger.pool
    ensures Charges(LedgerAfterAccept(s.ledger, s.acceptor, step), AcceptorAfter(s, step))
         == Charges(s.ledger, s.acceptor)
  {
    if step == Register {
      assert TaskClaimed(s.ledger, s.calls, s.acceptor.task);
      RegisterKeepsCharges(s.ledger, s.acceptor, AcceptorAfter(s, step));
    }
  }

  lemma AcceptKeepsBalance(s: State, step: AcceptStep)
    requires Base(s) && ClaimedOnce(s) && CanAccept(s, step) && Balanced(s.ledger, s.acceptor)
    ensures Balanced(Accept(s, step).ledger, Accept(s, step).acceptor)
    ensures Accept(s, step).ledger.pool.free + Accept(s, step).ledger.pool.used
         == s.ledger.pool.free + s.ledger.pool.used
  {
    if step.Draw? && step.n <= |s.ledger.pool.free| {
      PlacingCharges(s.ledger, s.acceptor, Accept(s, step).ledger.pool, step.task, step.record);
      DrawKeepsBooks(s.ledger.pool, Charges(s.ledger, s.acceptor), step.task, step.n);
    } else {
      AcceptKeepsCharges(s, step);
    }
  }

  lemma ActKeepsCharges(s: State, t: TaskId, step: ActStep)
    requires CanAct(s, t, step)
    ensures Charges(Act(s, t, step).ledger, s.acceptor) == Charges(s.ledger, s.acceptor)
    ensures Act(s, t, step).ledger.pool == s.ledger.pool
  {
  }

  // A release keeps the books exactly when the client ports it also hands back are not
  // ports another task is charged with.
  lemma ReleaseBalanceCondition(l: Ledger, a: Acceptor, d: CallId, c: Call)
    requires Balanced(l, a) && c.task in Charges(l, a) && c.task in l.registry
    requires a.Placing? ==> a.task !in l.registry
    ensures Balanced(LedgerAfterCall(l, d, c, ReleaseAll), a) <==>
              l.registry[c.task].clientPorts * (l.pool.used - l.registry[c.task].poolPorts) == {}
  {
    var t := c.task;
    var task := l.registry[t];
    var l' := LedgerAfterCall(l, d, c, ReleaseAll);
    assert Charges(l', a) == Charges(l, a) - {t};
    DropCharge(Charges(l, a), t);
    UdpPortPool.GiveBackIsIdempotent(l.pool, task.poolPorts + task.clientPorts);
    var extra := task.clientPorts * (l.pool.used - task.poolPorts);
    assert l'.pool.used == AllPorts(Charges(l', a)) - extra;
    assert extra <= AllPorts(Charges(l', a));
  }

  lemma CallKeepsCharges(s: State, d: CallId, step: CallStep)
    requires CanCall(s, d, step) && step != ReleaseAll
    ensures Deactivate(s, d, step).ledger.pool == s.ledger.pool
    ensures Charges(Deactivate(s, d, step).ledger, s.acceptor) == Charges(s.ledger, s.acceptor)
  {
  }

  lemma ReleaseKeepsBalance(s: State, d: CallId, range: set<int>)
    requires Base(s) && ClaimedOnce(s) && CanCall(s, d, ReleaseAll) && Balanced(s.ledger, s.acceptor)
    requires ClientsOutside(s.ledger, s.acceptor, range)
    ensures var l' := LedgerAfterCall(s.ledger, d, s.calls[d], ReleaseAll);
            Balanced(l', s.acceptor) && l'.pool.free + l'.pool.used == range
  {
    var t := s.calls[d].task;
    assert ClaimIsOwn(s.ledger, s.calls, d) && TaskClaimed(s.ledger, s.calls, t);
    ReleaseBalanceCondition(s.ledger, s.acceptor, d, s.calls[d]);
    UdpPortPool.GiveBackIsIdempotent(s.ledger.pool, s.ledger.registry[t].poolPorts + s.ledger.registry[t].clientPorts);
  }

  lemma CallKeepsBalance(s: State, d: CallId, step: CallStep, range: set<int>)
    requires Base(s) && ClaimedOnce(s) && CanCall(s, d, step) && Balanced(s.ledger, s.acceptor)
    requires ClientsOutside(s.ledger, s.acceptor, range)
    ensures Balanced(Deactivate(s, d, step).ledger, s.acceptor)
    ensures Deactivate(s, d, step).ledger.pool.free + Deactivate(s, d, step).ledger.pool.used == range
  {
    if step == ReleaseAll {
      ReleaseKeepsBalance(s, d, range);
    } else {
      CallKeepsCharges(s, d, step);
    }
  }

  lemma BalanceKept(s: State, step: Step, range: set<int>)
    requires Base(s) && ClaimedOnce(s) && Can(s, step)
    requires Balanced(s.ledger, s.acceptor) && ClientsOutside(s.ledger, s.acceptor, range)
    requires NamesNoPoolPort(step, range)
    ensures Balanced(Do(s, step).ledger, Do(s, step).acceptor)
    ensures ClientsOutside(Do(s, step).ledger, Do(s, step).acceptor, range)
  {
    StepMovesForward(s, step);
    match step
    case OfAcceptor(a) => AcceptKeepsBalance(s, a);
    case OfAct(t, a) => ActKeepsCharges(s, t, a);
    case OfCall(d, c) => CallKeepsBalance(s, d, c, range);
    case _ =>
  }

  // ---- Timeline slots ----

  // A slot stands on a timeline exactly for the tasks that are recorded and not released,
  // on each of their devices, and for those already inserted of the task being placed.
  ghost predicate SlotRight(l: Ledger, a: Acceptor, d: Device, t: TaskId)
  {
    (d, t) in l.slots <==>
      || (t in l.registry && l.released[t] == 0 && d in l.registry[t].devices)
      || (a.Placing? && a.task == t && d in a.record.devices && d !in a.left)
  }

  ghost predicate SlotsRight(s: State)
  {
    forall d, t :: SlotRight(s.ledger, s.acceptor, d, t)
  }

  lemma AcceptKeepsSlot(s: State, step: AcceptStep, d: Device, t: TaskId)
    requires Base(s) && ClaimedOnce(s) && CanAccept(s, step) && SlotsRight(s)
    ensures SlotRight(Accept(s, step).ledger, Accept(s, step).acceptor, d, t)
  {
    assert SlotRight(s.ledger, s.acceptor, d, t);
    if step == Register {
      assert TaskClaimed(s.ledger, s.calls, s.acceptor.task);
    }
    if step.Draw? {
      assert SlotRight(s.ledger, s.acceptor, d, step.task);
    }
  }

  lemma ActKeepsSlot(s: State, t: TaskId, step: ActStep, d: Device, u: TaskId)
    requires CanAct(s, t, step) && SlotsRight(s)
    ensures SlotRight(Act(s, t, step).ledger, s.acceptor, d, u)
  {
    assert SlotRight(s.ledger, s.acceptor, d, u);
  }

  lemma CallKeepsSlot(s: State, c: CallId, step: CallStep, d: Device, t: TaskId)
    requires Base(s) && ClaimedOnce(s) && CanCall(s, c, step) && SlotsRight(s)
    ensures SlotRight(Deactivate(s, c, step).ledger, s.acceptor, d, t)
  {
    assert SlotRight(s.ledger, s.acceptor, d, t);
    if step == ReleaseAll {
      assert ClaimIsOwn(s.ledger, s.calls, c) && TaskClaimed(s.ledger, s.calls, s.calls[c].task);
    }
  }

  lemma SlotsKept(s: State, step: Step)
    requires Base(s) && ClaimedOnce(s) && Can(s, step) && SlotsRight(s)
    ensures SlotsRight(Do(s, step))
  {
    forall d, t
      ensures SlotRight(Do(s, step).ledger, Do(s, step).acceptor, d, t)
    {
      assert SlotRight(s.ledger, s.acceptor, d, t);
      match step
      case OfAcceptor(a) => AcceptKeepsSlot(s, a, d, t);
      case OfAct(u, a) => ActKeepsSlot(s, u, a, d, t);
      case OfCall(c, k) => CallKeepsSlot(s, c, k, d, t);
      case _ =>
    }
  }

  // ---- Over runs ----

  ghost predicate Accounts(s: State, range: set<int>)
  {
    && ClaimedOnce(s)
    && Balanced(s.ledger, s.acceptor) && ClientsOutside(s.ledger, s.acceptor, range)
    && SlotsRight(s)
  }

  lemma AccountsInit(range: set<int>, cap: int)
    ensures Accounts(Init(range, cap), range)
  {
    var s := Init(range, cap);
    assert Charges(s.ledger, s.acceptor) == map[];
    assert AllPorts(map[]) == {};
    assert forall t :: TaskClaimed(s.ledger, s.calls, t);
  }

  // In every interleaving the used ports are the disjoint union of what the unreleased
  // tasks are charged with, no task is released twice or while it is live, and slots
  // stand for the unreleased tasks only.
  lemma {:induction false} RunKeepsAccounts(s: State, steps: seq<Step>, s': State, range: set<int>)
    requires Base(s) && Accounts(s, range) && Leads(s, steps, s')
    requires forall step :: step in steps ==> NamesNoPoolPort(step, range)
    ensures Base(s') && Accounts(s', range)
    decreases steps
  {
    if steps == [] {
    } else {
      assert steps[0] in steps;
      BaseKept(s, steps[0]);
      ClaimedOnceKept(s, steps[0]);
      BalanceKept(s, steps[0], range);
      SlotsKept(s, steps[0]);
      RunKeepsAccounts(Do(s, steps[0]), steps[1..], s', range);
    }
  }

  // No thread is inside accept or deactivateTask.
  ghost predicate Quiescent(s: State)
  {
    s.acceptor.Idle? && forall d :: d in s.calls ==> s.calls[d].pc == Done
  }

  function LivePorts(registry: map<TaskId, Task>): map<TaskId, set<int>>
  {
    map t | t in registry && !registry[t].phase.Terminal? :: registry[t].poolPorts
  }

  // When no thread is mid-call, ports and slots belong to the live tasks exactly, and every
  // terminal task has been released exactly once.
  lemma AtRest(range: set<int>, cap: int, steps: seq<Step>, s: State)
    requires Leads(Init(range, cap), steps, s) && Quiescent(s)
    requires forall step :: step in steps ==> NamesNoPoolPort(step, range)
    ensures s.ledger.pool.used == AllPorts(LivePorts(s.ledger.registry))
    ensures DisjointCharges(LivePorts(s.ledger.registry))
    ensures s.ledger.pool.free == range - s.ledger.pool.used
    ensures forall d: Device, t: TaskId :: (d, t) in s.ledger.slots <==>
              t in s.ledger.registry && !s.ledger.registry[t].phase.Terminal? && d in s.ledger.registry[t].devices
    ensures forall t :: s.ledger.released[t] == if Ended(s.ledger, t) then 1 else 0
  {
    BaseInit(range, cap);
    AccountsInit(range, cap);
    RunKeepsAccounts(Init(range, cap), steps, s, range);
    forall t
      ensures s.ledger.released[t] == if Ended(s.ledger, t) then 1 else 0
    {
      assert TaskClaimed(s.ledger, s.calls, t);
    }
    assert Charges(s.ledger, s.acceptor) == LivePorts(s.ledger.registry);
    forall d: Device, t: TaskId
      ensures (d, t) in s.ledger.slots <==>
              t in s.ledger.registry && !s.ledger.registry[t].phase.Terminal? && d in s.ledger.registry[t].devices
    {
      assert SlotRight(s.ledger, s.acceptor, d, t);
    }
  }
}
