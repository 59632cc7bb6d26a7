// What every run of accepts and cancels keeps in the books: timelines, registry and pool
// agree with each other.
module AdmissionRuns {
  import opened Basics
  import opened Slots
  import opened DeviceSelection
  import opened Admission
  import opened Widening
  import opened Grants
  import opened Acceptance
  import opened Coherent
  import opened Outcomes
  import opened UdpPortPool

  // ---- The agreement ----

  predicate OnDevice(registry: map<TaskId, Record>, t: TaskId, d: nat)
  {
    LiveTask(registry, t) && AllocatedOn(registry[t].allocations, d)
  }

  // A device timeline has a slot for a task exactly when the task is live and allocated there.
  ghost predicate SlotsMatch(b: Books)
  {
    forall d: nat, t :: d < |b.timelines| ==> (HasSlot(b.timelines[d], t) <==> OnDevice(b.registry, t, d))
  }

  predicate HoldsPort(registry: map<TaskId, Record>, t: TaskId, p: int)
  {
    LiveTask(registry, t) && p in PortsOf(registry[t].allocations)
  }

  // The pool ports that live tasks hold are in use, and no two tasks hold the same one.
  ghost predicate PortsMatch(b: Books, all: set<int>)
  {
    && b.pool.free !! b.pool.used && b.pool.free + b.pool.used == all
    && (forall t, p :: HoldsPort(b.registry, t, p) && p in all ==> p in b.pool.used)
    && (forall t, u, p :: HoldsPort(b.registry, t, p) && HoldsPort(b.registry, u, p) && p in all ==> t == u)
  }

  // Every port in use is held by a live task.
  ghost predicate NoLeak(b: Books)
  {
    forall p :: p in b.pool.used ==> exists t :: HoldsPort(b.registry, t, p)
  }

  ghost predicate Agree(b: Books, all: set<int>)
  {
    SlotsMatch(b) && PortsMatch(b, all)
  }

  // ---- Cancelling keeps it ----

  lemma CancelKeepsSlots(b: Books, t: TaskId)
    requires SlotsMatch(b)
    ensures SlotsMatch(Cancelled(b, t))
  {
    var after := Cancelled(b, t);
    if LiveTask(b.registry, t) {
      var ended := b.registry[t].(live := false);
      forall d: nat, u | d < |b.timelines|
        ensures HasSlot(after.timelines[d], u) <==> OnDevice(after.registry, u, d)
      {
        ReleaseFilters(b.(registry := b.registry[t := ended]), ended.allocations, t, d);
        assert HasSlot(b.timelines[d], t) <==> OnDevice(b.registry, t, d);
        assert HasSlot(b.timelines[d], u) <==> OnDevice(b.registry, u, d);
        SlotsLeft(b.timelines[d], t, u);
      }
    }
  }

  lemma SlotsLeft(slots: seq<Slot>, t: TaskId, u: TaskId)
    ensures HasSlot(Without(slots, t), u) <==> HasSlot(slots, u) && u != t
  {
  }

  lemma CancelKeepsPorts(b: Books, t: TaskId, all: set<int>)
    requires PortsMatch(b, all)
    ensures PortsMatch(Cancelled(b, t), all)
    ensures NoLeak(b) ==> NoLeak(Cancelled(b, t))
  {
    var after := Cancelled(b, t);
    if LiveTask(b.registry, t) {
      var ended := b.registry[t].(live := false);
      ReleaseGivesBack(b.(registry := b.registry[t := ended]), ended.allocations, t);
      assert forall u, p :: HoldsPort(after.registry, u, p) <==> u != t && HoldsPort(b.registry, u, p);
      assert forall p :: HoldsPort(b.registry, t, p) <==> p in PortsOf(ended.allocations);
      if NoLeak(b) {
        forall p | p in after.pool.used
          ensures exists u :: HoldsPort(after.registry, u, p)
        {
          var u :| HoldsPort(b.registry, u, p);
          assert HoldsPort(after.registry, u, p);
        }
      }
    }
  }

  lemma {:induction false} CancelAllKeeps(b: Books, tasks: seq<TaskId>, all: set<int>)
    requires Agree(b, all)
    ensures Agree(CancelledAll(b, tasks), all)
    ensures NoLeak(b) ==> NoLeak(CancelledAll(b, tasks))
    decreases tasks
  {
    if tasks == [] {
    } else {
      CancelKeepsSlots(b, tasks[0]);
      CancelKeepsPorts(b, tasks[0], all);
      CancelAllKeeps(Cancelled(b, tasks[0]), tasks[1..], all);
    }
  }

  // ---- Accepting keeps it ----

  lemma EnterKeepsSlots(b: Books, t: TaskId, q: Request, rank: int, grants: seq<Grant>)
    requires SlotsMatch(b) && t !in b.registry && Placed(grants, |b.timelines|)
    ensures SlotsMatch(Entered(b, t, q, rank, grants))
  {
    var after := Entered(b, t, q, rank, grants);
    forall d: nat, u | d < |b.timelines|
      ensures HasSlot(after.timelines[d], u) <==> OnDevice(after.registry, u, d)
    {
      InsertedWhereGranted(b.timelines, grants, t, q, d, u);
      AllocatedWhereGranted(grants, d);
      assert HasSlot(b.timelines[d], u) <==> OnDevice(b.registry, u, d);
    }
  }

  // A new task takes some ports out of the free ones and records them among its own.
  lemma EnterKeepsPorts(b: Books, t: TaskId, q: Request, rank: int, grants: seq<Grant>, drawn: set<int>, all: set<int>)
    requires PortsMatch(b, all) && t !in b.registry && Placed(grants, |b.timelines|)
    requires drawn <= b.pool.free
    requires PortsOf(AllocationsOf(grants)) * all <= drawn
    ensures var after := Entered(b.(pool := Ports(b.pool.free - drawn, b.pool.used + drawn)), t, q, rank, grants);
            && PortsMatch(after, all)
            && (NoLeak(b) ==> (NoLeak(after) <==> drawn <= PortsOf(AllocationsOf(grants))))
  {
    var after := Entered(b.(pool := Ports(b.pool.free - drawn, b.pool.used + drawn)), t, q, rank, grants);
    assert forall u, p :: HoldsPort(after.registry, u, p) <==>
                            HoldsPort(b.registry, u, p) || (u == t && p in PortsOf(AllocationsOf(grants)));
    if NoLeak(b) && drawn <= PortsOf(AllocationsOf(grants)) {
      forall p | p in after.pool.used
        ensures exists u :: HoldsPort(after.registry, u, p)
      {
        if p in drawn {
          assert HoldsPort(after.registry, t, p);
        } else {
          var u :| HoldsPort(b.registry, u, p);
          assert HoldsPort(after.registry, u, p);
        }
      }
    }
    if NoLeak(after) {
      forall p | p in drawn
        ensures p in PortsOf(AllocationsOf(grants))
      {
        assert p in after.pool.used;
        var u :| HoldsPort(after.registry, u, p);
      }
    }
  }

  lemma JoinKeeps(setup: Setup, b: Books, ask: Ask, env: Env, all: set<int>)
    requires |b.timelines| == |setup.devices| && Agree(b, all)
    ensures var after := Joined(setup.devices, b, ask.q, ask.rank, setup.guardBand, ask.channel, env.tunes, 0).0;
            Agree(after, all) && (NoLeak(b) ==> NoLeak(after))
  {
    var after := Joined(setup.devices, b, ask.q, ask.rank, setup.guardBand, ask.channel, env.tunes, 0).0;
    forall d: nat, t | d < |b.timelines|
      ensures HasSlot(after.timelines[d], t) <==> OnDevice(after.registry, t, d)
    {
      JoiningMovesNothing(setup.devices, b, ask.q, ask.rank, setup.guardBand, ask.channel, env.tunes, 0, d);
      SameTasks(after.timelines[d], b.timelines[d], t);
      assert HasSlot(b.timelines[d], t) <==> OnDevice(b.registry, t, d);
    }
  }

  lemma SameTasks(after: seq<Slot>, before: seq<Slot>, t: TaskId)
    requires OnlyTuningChanged(after, before)
    ensures HasSlot(after, t) <==> HasSlot(before, t)
  {
    if HasSlot(after, t) {
      var s :| s in after && s.task == t;
      var i :| 0 <= i < |after| && after[i] == s;
      assert SameButTuning(after[i], before[i]) && before[i] in before;
    }
    if HasSlot(before, t) {
      var s :| s in before && s.task == t;
      var i :| 0 <= i < |before| && before[i] == s;
      assert SameButTuning(after[i], before[i]) && after[i] in after;
    }
  }

  lemma ChoosingKeeps(setup: Setup, b: Books, ask: Ask, env: Env, all: set<int>)
    requires |b.timelines| == |setup.devices| && Agree(b, all)
    ensures var after := Chosen(setup, b, ask, env).0;
            && Agree(after, all) && (NoLeak(b) ==> NoLeak(after))
            && after.registry.Keys == b.registry.Keys
  {
    var v := Victim(setup.devices, b, ask.q, ask.rank, 0);
    if v.Some? {
      CancelAllKeeps(b, LiveOwners(Overlapping(b.timelines[v.value], ask.q.start, ask.q.stop), b.registry), all);
    }
    JoinKeeps(setup, Searched(setup, b, ask, env).0, ask, env, all);
  }

  lemma OneAllocation(grant: Grant)
    requires grant.fit.Fit?
    ensures PortsOf(AllocationsOf([grant])) == Elements(grant.ports)
  {
    PortsOfFirst(AllocationsOf([grant]));
    assert PortsOf(AllocationsOf([grant])[1..]) == {};
  }

  // A single accept keeps the agreement. It leaves a port behind exactly when it joins a
  // device that offers fewer channels than asked for, and the ports come from the pool.
  lemma AcceptOneKeeps(setup: Setup, b: Books, ask: Ask, env: Env, t: TaskId, all: set<int>)
    requires |b.timelines| == |setup.devices| && Agree(b, all) && t !in b.registry
    requires Elements(ask.clientPorts) !! all
    ensures var after := AcceptedOne(setup, b, ask, env, t).0;
            && Agree(after, all)
            && (NoLeak(b) ==> (NoLeak(after) <==> !LeavesPorts(setup, b, ask, env)))
  {
    ChoosingKeeps(setup, b, ask, env, all);
    LeavesPortsExactlyWhen(setup, b, ask, env, t);
    var (ready, choice) := Chosen(setup, b, ask, env);
    var grant := AcceptedOne(setup, b, ask, env, t).1;
    if grant.Some? {
      EnterOneKeeps(ready, ask, t, choice.value, all);
    }
  }

  lemma DrawnOnly(b: Books, ask: Ask, choice: (nat, FitResult), all: set<int>)
    requires PortsMatch(b, all) && choice.1.Fit? && Elements(ask.clientPorts) !! all
    requires PortsFor(b.pool, ask.q, ask.clientPorts).1.Some?
    ensures var (pool, ports) := PortsFor(b.pool, ask.q, ask.clientPorts);
            var recorded := Elements(GrantFor(choice, ports.value).ports);
            var drawn := Drawn(b, ask);
            && drawn <= b.pool.free && pool == Ports(b.pool.free - drawn, b.pool.used + drawn)
            && recorded * all <= drawn
            && (drawn <= recorded <==> PortsRecorded(ask, choice.1))
  {
    DrawnPortsAreRecorded(b, ask, choice);
    DrawMovesPorts(b.pool, PortsNeeded(ask.q, ask.clientPorts));
  }

  lemma EnterOneKeeps(b: Books, ask: Ask, t: TaskId, choice: (nat, FitResult), all: set<int>)
    requires Agree(b, all) && t !in b.registry && choice.0 < |b.timelines| && choice.1.Fit?
    requires Elements(ask.clientPorts) !! all
    requires PortsFor(b.pool, ask.q, ask.clientPorts).1.Some?
    ensures var (pool, ports) := PortsFor(b.pool, ask.q, ask.clientPorts);
            var after := Entered(b.(pool := pool), t, ask.q, ask.rank, [GrantFor(choice, ports.value)]);
            Agree(after, all) && (NoLeak(b) ==> (NoLeak(after) <==> PortsRecorded(ask, choice.1)))
  {
    var (pool, ports) := PortsFor(b.pool, ask.q, ask.clientPorts);
    var grant := GrantFor(choice, ports.value);
    OneAllocation(grant);
    DrawnOnly(b, ask, choice, all);
    EnterKeepsSlots(b.(pool := pool), t, ask.q, ask.rank, [grant]);
    EnterKeepsPorts(b, t, ask.q, ask.rank, [grant], Drawn(b, ask), all);
  }

  lemma {:induction false} DealtPortsOf(grants: seq<Grant>)
    requires forall g :: g in grants ==> g.fit.Fit?
    ensures PortsOf(AllocationsOf(grants)) == Elements(DealtPorts(grants))
    decreases grants
  {
    if grants == [] {
      assert PortsOf(AllocationsOf(grants)) == {};
    } else {
      DealtPortsOf(grants[1..]);
      PortsOfFirst(AllocationsOf(grants));
      assert AllocationsOf(grants)[1..] == AllocationsOf(grants[1..]);
      ElementsConcat(grants[0].ports, DealtPorts(grants[1..]));
    }
  }

  lemma AcceptCoherentKeeps(setup: Setup, b: Books, q: Request, rank: int, group: nat, t: TaskId, all: set<int>)
    requires |b.timelines| == |setup.devices| && Agree(b, all) && t !in b.registry
    ensures var after := AcceptedCoherent(setup.devices, setup.guardBand, b, q, rank, group, t).0;
            Agree(after, all) && (NoLeak(b) ==> NoLeak(after))
  {
    var (after, r) := AcceptedCoherent(setup.devices, setup.guardBand, b, q, rank, group, t);
    AcceptedExactlyWhen(setup.devices, setup.guardBand, b, q, rank, group, t);
    if r.Some? {
      GrantsFollowPlan(setup.devices, setup.guardBand, b, q, rank, group, t);
      DealtPortsOf(r.value);
      DrawMovesPorts(b.pool, q.rxCount);
      var (pool, ports) := Draw(b.pool, q.rxCount);
      EnterKeepsSlots(b.(pool := pool), t, q, rank, r.value);
      EnterKeepsPorts(b, t, q, rank, r.value, Elements(ports), all);
    }
  }

  // ---- Runs ----

  datatype Op =
    | AcceptOne(ask: Ask, env: Env, t: TaskId)
    | AcceptGroup(q: Request, rank: int, group: nat, t: TaskId)
    | CancelTask(t: TaskId)

  // Task ids are never used twice.
  ghost function Apply(setup: Setup, b: Books, op: Op): (r: Books)
    requires |b.timelines| == |setup.devices|
    ensures |r.timelines| == |b.timelines|
  {
    match op
    case AcceptOne(ask, env, t) => if t in b.registry then b else AcceptedOne(setup, b, ask, env, t).0
    case AcceptGroup(q, rank, group, t) =>
      if t in b.registry then b
      else AcceptedCoherent(setup.devices, setup.guardBand, b, q, rank, group, t).0
    case CancelTask(t) => Cancelled(b, t)
  }

  ghost function Run(setup: Setup, all: set<int>, ops: seq<Op>): (b: Books)
    ensures |b.timelines| == |setup.devices|
  {
    if ops == [] then Books(seq(|setup.devices|, _ => []), map[], Ports(all, {}))
    else Apply(setup, Run(setup, all, ops[..|ops| - 1]), ops[|ops| - 1])
  }

  // Ports a client brings are not the pool's.
  predicate OwnPorts(op: Op, all: set<int>)
  {
    op.AcceptOne? ==> Elements(op.ask.clientPorts) !! all
  }

  // The request leaves no ports behind, as told from the books before it.
  ghost predicate LeavesNothing(setup: Setup, b: Books, op: Op)
    requires |b.timelines| == |setup.devices|
  {
    op.AcceptOne? ==> !LeavesPorts(setup, b, op.ask, op.env)
  }

  // No request in the run does.
  ghost predicate AllLeaveNothing(setup: Setup, all: set<int>, ops: seq<Op>)
  {
    ops == []
    || (AllLeaveNothing(setup, all, ops[..|ops| - 1])
        && LeavesNothing(setup, Run(setup, all, ops[..|ops| - 1]), ops[|ops| - 1]))
  }

  lemma ApplyKeeps(setup: Setup, b: Books, op: Op, all: set<int>)
    requires |b.timelines| == |setup.devices| && Agree(b, all) && OwnPorts(op, all)
    ensures Agree(Apply(setup, b, op), all)
    ensures NoLeak(b) && LeavesNothing(setup, b, op) ==> NoLeak(Apply(setup, b, op))
  {
    match op
    case AcceptOne(ask, env, t) =>
      if t !in b.registry { AcceptOneKeeps(setup, b, ask, env, t, all); }
    case AcceptGroup(q, rank, group, t) =>
      if t !in b.registry { AcceptCoherentKeeps(setup, b, q, rank, group, t, all); }
    case CancelTask(t) =>
      CancelKeepsSlots(b, t);
      CancelKeepsPorts(b, t, all);
  }

  // In every run of accepts (searching, preempting, sharing or coherent) and cancels the
  // timelines hold slots for exactly the live tasks, and no pool port is held twice or
  // handed out while held. If no request left ports behind, the used ports are exactly
  // those that live tasks hold.
  lemma {:induction false} RunAgrees(setup: Setup, all: set<int>, ops: seq<Op>)
    requires forall op :: op in ops ==> OwnPorts(op, all)
    ensures Agree(Run(setup, all, ops), all)
    ensures AllLeaveNothing(setup, all, ops) ==> NoLeak(Run(setup, all, ops))
  {
    if ops == [] {
      var b := Run(setup, all, ops);
      assert forall d: nat, t :: d < |b.timelines| ==> b.timelines[d] == [] && !HasSlot(b.timelines[d], t);
    } else {
      var n := |ops| - 1;
      RunAgrees(setup, all, ops[..n]);
      assert ops[n] in ops;
      ApplyKeeps(setup, Run(setup, all, ops[..n]), ops[n], all);
    }
  }

  lemma AgreeingSlots(b: Books, q: Request, all: set<int>)
    requires Agree(b, all)
    ensures SlotsOfLiveTasks(b, q)
  {
    forall d: nat, s | d < |b.timelines| && s in Overlapping(b.timelines[d], q.start, q.stop)
      ensures LiveTask(b.registry, s.task) && AllocatedOn(b.registry[s.task].allocations, d)
    {
      assert HasSlot(b.timelines[d], s.task);
      assert OnDevice(b.registry, s.task, d);
    }
  }

  // So a preemption that reports success is always enough, in every run.
  lemma RetrySucceedsInEveryRun(setup: Setup, all: set<int>, ops: seq<Op>, ask: Ask, env: Env)
    requires forall op :: op in ops ==> OwnPorts(op, all)
    requires ask.rank > 0 && !ask.required && ask.q.bw <= ask.q.rate
    requires forall d :: 0 <= d < |setup.devices| ==>
               ask.q.rate >= setup.devices[d].caps.rateMin
               && (Fitting.Pinned(ask.q, ask.channel) ==> ask.channel < setup.devices[d].caps.maxRx)
    requires Preempted(setup.devices, Run(setup, all, ops), ask.q, ask.rank).1
    ensures Searched(setup, Run(setup, all, ops), ask, env).1.Some?
  {
    var b := Run(setup, all, ops);
    RunAgrees(setup, all, ops);
    AgreeingSlots(b, ask.q, all);
    var cleared := Preempted(setup.devices, b, ask.q, ask.rank).0;
    var s := SearchFor(setup, cleared, ask, env.later);
    RetryAfterPreemptionSucceeds(s, b, ask.rank, BestOf(s));
  }

  ghost predicate AllEnded(b: Books)
  {
    forall t :: t in b.registry ==> !b.registry[t].live
  }

  lemma NothingHeld(b: Books, all: set<int>)
    requires Agree(b, all) && AllEnded(b)
    ensures forall d :: 0 <= d < |b.timelines| ==> b.timelines[d] == []
    ensures NoLeak(b) ==> b.pool == Ports(all, {})
  {
    forall d: nat | d < |b.timelines|
      ensures b.timelines[d] == []
    {
      if b.timelines[d] != [] {
        var t := b.timelines[d][0].task;
        assert HasSlot(b.timelines[d], t) <==> OnDevice(b.registry, t, d);
        assert b.timelines[d][0] in b.timelines[d];
        assert HasSlot(b.timelines[d], t);
        assert false;
      }
    }
    if NoLeak(b) && b.pool.used != {} {
      var p := PickElement(b.pool.used);
      assert false;
    }
  }

  // When the last task has ended nothing is held any more.
  lemma NothingHeldAtTheEnd(setup: Setup, all: set<int>, ops: seq<Op>)
    requires forall op :: op in ops ==> OwnPorts(op, all)
    requires AllEnded(Run(setup, all, ops))
    ensures var b := Run(setup, all, ops);
            && (forall d :: 0 <= d < |b.timelines| ==> b.timelines[d] == [])
            && (AllLeaveNothing(setup, all, ops) ==> b.pool == Ports(all, {}))
  {
    RunAgrees(setup, all, ops);
    NothingHeld(Run(setup, all, ops), all);
  }
}
