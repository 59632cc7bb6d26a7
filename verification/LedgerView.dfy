// The two accounts of ports and slots, that of the lifecycle protocol and that of admission,
// agree: entering and cancelling a task do the same to both.
module LedgerView {
  import opened Basics
  import opened Admission
  import opened Grants
  import Lifecycle
  import Slots
  import UdpPortPool

  // The ledger shows what the books say.
  ghost predicate Shows(l: Lifecycle.Ledger, b: Books)
  {
    && l.pool == b.pool
    && (forall d: nat, t: nat :: (d, t) in l.slots <==> d < |b.timelines| && HasSlot(b.timelines[d], t))
    && l.registry.Keys == b.registry.Keys
    && (forall t :: t in l.registry ==> ShowsTask(l.registry[t], b.registry[t]))
  }

  ghost predicate ShowsTask(task: Lifecycle.Task, record: Record)
  {
    && (forall d: nat :: d in task.devices <==> AllocatedOn(record.allocations, d))
    && task.poolPorts + task.clientPorts == PortsOf(record.allocations)
    && (task.phase.Terminal? <==> !record.live)
  }

  // A call that claims a live task and then releases it does to the ledger what cancelling
  // it does to the books.
  lemma CancelAgrees(l: Lifecycle.Ledger, b: Books, d: Lifecycle.CallId, c: Lifecycle.Call)
    requires Shows(l, b) && LiveTask(b.registry, c.task)
    ensures var claimed := Lifecycle.LedgerAfterCall(l, d, c, Lifecycle.ClaimEnd);
            Shows(Lifecycle.LedgerAfterCall(claimed, d, c, Lifecycle.ReleaseAll), Cancelled(b, c.task))
  {
    var t := c.task;
    var claimed := Lifecycle.LedgerAfterCall(l, d, c, Lifecycle.ClaimEnd);
    var l' := Lifecycle.LedgerAfterCall(claimed, d, c, Lifecycle.ReleaseAll);
    var b' := Cancelled(b, t);
    var ended := b.registry[t].(live := false);
    var marked := b.(registry := b.registry[t := ended]);
    ReleaseGivesBack(marked, ended.allocations, t);
    forall e: nat, u: nat
      ensures (e, u) in l'.slots <==> e < |b'.timelines| && HasSlot(b'.timelines[e], u)
    {
      assert (e, u) in l.slots <==> e < |b.timelines| && HasSlot(b.timelines[e], u);
      if e < |b.timelines| {
        ReleaseFilters(marked, ended.allocations, t, e);
      }
    }
    assert forall u :: u in l'.registry ==> ShowsTask(l.registry[u], b.registry[u]);
  }

  // Placing a task's slots, drawing its ports and registering it does the same to both.
  lemma EnterAgrees(l: Lifecycle.Ledger, b: Books, t: nat, q: Slots.Request, rank: int, grants: seq<Grant>,
                    pool: UdpPortPool.Ports, task: Lifecycle.Task)
    requires Shows(l, b) && Placed(grants, |b.timelines|) && t !in b.registry
    requires ShowsTask(task, Record(rank, true, AllocationsOf(grants)))
    ensures Shows(l.(pool := pool, slots := l.slots + set e | e in task.devices :: (e, t),
                     registry := l.registry[t := task]),
                  Entered(b.(pool := pool), t, q, rank, grants))
  {
    var l' := l.(pool := pool, slots := l.slots + set e | e in task.devices :: (e, t),
                 registry := l.registry[t := task]);
    var b' := Entered(b.(pool := pool), t, q, rank, grants);
    forall e: nat, u: nat
      ensures (e, u) in l'.slots <==> e < |b'.timelines| && HasSlot(b'.timelines[e], u)
    {
      assert (e, u) in l.slots <==> e < |b.timelines| && HasSlot(b.timelines[e], u);
      AllocatedWhereGranted(grants, e);
      if e < |b.timelines| {
        InsertedWhereGranted(b.timelines, grants, t, q, e, u);
      }
    }
  }
}
