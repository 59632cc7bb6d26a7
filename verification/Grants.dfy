// What an accepted task is given, and how it is written into the books
// (src/ResourceManager.cpp:378-412, 494-562).
module Grants {
  import opened Basics
  import opened Slots
  import opened TimelineRuns
  import opened Admission
  import UdpPortPool

  // A place on one device, with the ports its streams go to.
  datatype Grant = Grant(device: nat, fit: FitResult, ports: seq<int>)

  ghost predicate Placed(grants: seq<Grant>, n: nat)
  {
    forall g :: g in grants ==> g.device < n && g.fit.Fit?
  }

  function AllocationsOf(grants: seq<Grant>): (r: seq<Allocation>)
    requires forall g :: g in grants ==> g.fit.Fit?
    ensures |r| == |grants|
    ensures forall i :: 0 <= i < |grants| ==> r[i] == Allocation(grants[i].device, grants[i].fit.rx, grants[i].ports)
  {
    seq(|grants|, i requires 0 <= i < |grants| =>
          assert grants[i] in grants; Allocation(grants[i].device, grants[i].fit.rx, grants[i].ports))
  }

  ghost function Inserted(timelines: seq<seq<Slot>>, grants: seq<Grant>, t: TaskId, q: Request): (r: seq<seq<Slot>>)
    requires Placed(grants, |timelines|)
    ensures |r| == |timelines|
    decreases grants
  {
    if grants == [] then timelines
    else
      var g := grants[0];
      Inserted(timelines[g.device := timelines[g.device] + [SlotOf(t, q, g.fit)]], grants[1..], t, q)
  }

  ghost function Entered(b: Books, t: TaskId, q: Request, rank: int, grants: seq<Grant>): Books
    requires Placed(grants, |b.timelines|)
  {
    Books(Inserted(b.timelines, grants, t, q), b.registry[t := Record(rank, true, AllocationsOf(grants))], b.pool)
  }

  predicate GrantedOn(grants: seq<Grant>, d: nat)
  {
    exists g :: g in grants && g.device == d
  }

  lemma AllocatedWhereGranted(grants: seq<Grant>, d: nat)
    requires forall g :: g in grants ==> g.fit.Fit?
    ensures AllocatedOn(AllocationsOf(grants), d) <==> GrantedOn(grants, d)
  {
    var allocations := AllocationsOf(grants);
    if AllocatedOn(allocations, d) {
      var a :| a in allocations && a.device == d;
      var i :| 0 <= i < |allocations| && allocations[i] == a;
      assert grants[i] in grants;
    }
    if GrantedOn(grants, d) {
      var g :| g in grants && g.device == d;
      var i :| 0 <= i < |grants| && grants[i] == g;
      assert allocations[i] in allocations;
    }
  }

  predicate HasSlot(slots: seq<Slot>, t: TaskId)
  {
    exists s :: s in slots && s.task == t
  }

  // The task has slots exactly where it was granted a place; nobody else's slots move.
  lemma {:induction false} InsertedWhereGranted(timelines: seq<seq<Slot>>, grants: seq<Grant>, t: TaskId, q: Request,
                                                d: nat, u: TaskId)
    requires Placed(grants, |timelines|) && d < |timelines|
    ensures HasSlot(Inserted(timelines, grants, t, q)[d], u) <==>
            HasSlot(timelines[d], u) || (u == t && GrantedOn(grants, d))
    decreases grants
  {
    if grants == [] {
    } else {
      var g := grants[0];
      var before := timelines[g.device];
      var s := SlotOf(t, q, g.fit);
      InsertedWhereGranted(timelines[g.device := before + [s]], grants[1..], t, q, d, u);
      assert forall r :: r in before + [s] <==> r in before || r == s;
      assert s in before + [s];
      assert GrantedOn(grants, d) <==> g.device == d || GrantedOn(grants[1..], d);
    }
  }

  // A device granted to at most once gets exactly the one slot, at the end.
  lemma {:induction false} InsertedOnce(timelines: seq<seq<Slot>>, grants: seq<Grant>, t: TaskId, q: Request, d: nat)
    requires Placed(grants, |timelines|) && d < |timelines|
    requires forall i, j :: 0 <= i < j < |grants| ==> grants[i].device != grants[j].device
    ensures !GrantedOn(grants, d) ==> Inserted(timelines, grants, t, q)[d] == timelines[d]
    ensures forall g :: g in grants && g.device == d ==>
              Inserted(timelines, grants, t, q)[d] == timelines[d] + [SlotOf(t, q, g.fit)]
    decreases grants
  {
    if grants == [] {
    } else {
      var g := grants[0];
      InsertedOnce(timelines[g.device := timelines[g.device] + [SlotOf(t, q, g.fit)]], grants[1..], t, q, d);
      assert grants == [g] + grants[1..];
    }
  }

  lemma {:induction false} WithoutInserted(timelines: seq<seq<Slot>>, grants: seq<Grant>, t: TaskId, q: Request, d: nat)
    requires Placed(grants, |timelines|) && d < |timelines|
    ensures Without(Inserted(timelines, grants, t, q)[d], t) == Without(timelines[d], t)
    ensures !GrantedOn(grants, d) ==> Inserted(timelines, grants, t, q)[d] == timelines[d]
    decreases grants
  {
    if grants == [] {
    } else {
      var g := grants[0];
      var before := timelines[g.device];
      var s := SlotOf(t, q, g.fit);
      WithoutInserted(timelines[g.device := before + [s]], grants[1..], t, q, d);
      assert (before + [s])[..|before|] == before;
    }
  }

  lemma {:induction false} WithoutStranger(slots: seq<Slot>, t: TaskId)
    requires !HasSlot(slots, t)
    ensures Without(slots, t) == slots
  {
    if slots == [] {
    } else {
      var n := |slots| - 1;
      assert slots[n] in slots && forall s :: s in slots[..n] ==> s in slots;
      WithoutStranger(slots[..n], t);
      assert slots == slots[..n] + [slots[n]];
    }
  }

  lemma {:induction false} WithoutTwice(slots: seq<Slot>, t: TaskId)
    ensures Without(Without(slots, t), t) == Without(slots, t)
  {
    WithoutStranger(Without(slots, t), t);
  }

  // ---- What a cancel releases ----

  function PortsOf(allocations: seq<Allocation>): (ports: set<int>)
  {
    set a, p | a in allocations && p in a.ports :: p
  }

  lemma {:induction false} ReleaseGivesBack(b: Books, allocations: seq<Allocation>, t: TaskId)
    ensures Release(b, allocations, t).pool == GiveBackAll(b, allocations)
    decreases allocations
  {
    if allocations == [] {
      assert PortsOf(allocations) == {};
    } else {
      var a := allocations[0];
      var rest := allocations[1..];
      ReleaseGivesBack(ReleaseOne(b, a, t), rest, t);
      PortsOfFirst(allocations);
    }
  }

  lemma PortsOfFirst(allocations: seq<Allocation>)
    requires allocations != []
    ensures PortsOf(allocations) == Elements(allocations[0].ports) + PortsOf(allocations[1..])
  {
    var a := allocations[0];
    var rest := allocations[1..];
    assert forall x :: x in allocations <==> x == a || x in rest;
    forall p
      ensures p in PortsOf(allocations) <==> p in Elements(a.ports) || p in PortsOf(rest)
    {
    }
  }

  ghost function GiveBackAll(b: Books, allocations: seq<Allocation>): UdpPortPool.Ports
  {
    UdpPortPool.GiveBack(b.pool, PortsOf(allocations))
  }

  lemma {:induction false} ReleaseFilters(b: Books, allocations: seq<Allocation>, t: TaskId, d: nat)
    requires d < |b.timelines|
    ensures Release(b, allocations, t).timelines[d] ==
            if AllocatedOn(allocations, d) then Without(b.timelines[d], t) else b.timelines[d]
    decreases allocations
  {
    if allocations == [] {
    } else {
      ReleaseFilters(ReleaseOne(b, allocations[0], t), allocations[1..], t, d);
      WithoutTwice(b.timelines[d], t);
      assert AllocatedOn(allocations, d) <==> allocations[0].device == d || AllocatedOn(allocations[1..], d);
    }
  }

  // Cancelling a task right after it was accepted undoes the acceptance: all timelines
  // and the pool are as they were before its ports were drawn.
  lemma CancelUndoesAccept(b: Books, n: nat, t: TaskId, q: Request, rank: int, grants: seq<Grant>)
    requires Placed(grants, |b.timelines|) && b.pool.free !! b.pool.used
    requires forall d :: 0 <= d < |b.timelines| ==> !HasSlot(b.timelines[d], t)
    requires PortsOf(AllocationsOf(grants)) == Elements(UdpPortPool.Draw(b.pool, n).1)
    ensures var taken := b.(pool := UdpPortPool.Draw(b.pool, n).0);
            var after := Cancelled(Entered(taken, t, q, rank, grants), t);
            after.timelines == b.timelines && after.pool == b.pool
  {
    var taken := b.(pool := UdpPortPool.Draw(b.pool, n).0);
    var entered := Entered(taken, t, q, rank, grants);
    var allocations := AllocationsOf(grants);
    var ended := entered.(registry := entered.registry[t := Record(rank, false, allocations)]);
    var after := Cancelled(entered, t);
    assert after == Release(ended, allocations, t);
    ReleaseGivesBack(ended, allocations, t);
    UdpPortPool.DrawThenGiveBack(b.pool, n);
    forall d | 0 <= d < |b.timelines|
      ensures after.timelines[d] == b.timelines[d]
    {
      ReleaseFilters(ended, allocations, t, d);
      AllocatedWhereGranted(grants, d);
      WithoutInserted(b.timelines, grants, t, q, d);
      WithoutStranger(b.timelines[d], t);
    }
  }
}
