// The consumer lists of a streamer (src/IQStreamer.cpp:43-176): plain destinations and
// decimated sub-bands, each named by its task.
module IQStreamer {
  import opened Basics
  import Lifecycle

  type TaskId = Lifecycle.TaskId

  // A sub-band keeps its centre offset from the stream and its decimation ratio.
  datatype SubBand = SubBand(task: TaskId, offset: real, decim: int)

  // The decimation ratio that takes the wide rate to the output rate.
  function Decimation(wide: real, output: real): int
  {
    if output > 0.0 then Max(Round(wide / output), 1) else 1
  }

  // Of the whole ratios from one up it is the one nearest to that of the rates.
  lemma DecimationIsNearest(wide: real, output: real, n: int)
    requires output > 0.0 && n >= 1
    ensures Decimation(wide, output) >= 1
    ensures Abs(wide / output - Decimation(wide, output) as real) <= Abs(wide / output - n as real)
  {
    RoundIsNearest(wide / output, n);
  }

  function Names(subbands: seq<SubBand>): (names: seq<TaskId>)
    ensures |names| == |subbands| && forall i :: 0 <= i < |subbands| ==> names[i] == subbands[i].task
  {
    seq(|subbands|, i requires 0 <= i < |subbands| => subbands[i].task)
  }

  // What std::find_if and erase leave: all but the first entry of the task.
  function RemoveFirst(names: seq<TaskId>, t: TaskId): seq<TaskId>
  {
    if names == [] then []
    else if names[0] == t then names[1..]
    else [names[0]] + RemoveFirst(names[1..], t)
  }

  lemma {:induction false} RemoveFirstDropsOne(names: seq<TaskId>, t: TaskId)
    ensures multiset(RemoveFirst(names, t)) == multiset(names) - multiset{t}
    ensures |RemoveFirst(names, t)| == |names| - if t in names then 1 else 0
  {
    if names == [] {
    } else {
      var rest := names[1..];
      assert names == [names[0]] + rest;
      RemoveFirstDropsOne(rest, t);
      if names[0] != t {
        assert multiset(RemoveFirst(names, t)) == multiset{names[0]} + multiset(RemoveFirst(rest, t));
      }
    }
  }

  ghost predicate NamedOnce(names: seq<TaskId>)
  {
    forall t :: multiset(names)[t] <= 1
  }

  function Contents(names: seq<TaskId>, subbands: seq<TaskId>): Lifecycle.Consumers
  {
    Lifecycle.Consumers((set t | t in names), (set t | t in subbands))
  }

  // Removing a task from a list agrees with removing it from the set of consumers exactly
  // when the list does not name it twice.
  lemma RemoveAgreesWithDrop(names: seq<TaskId>, t: TaskId)
    ensures (set u | u in RemoveFirst(names, t)) == (set u | u in names) - {t} <==> multiset(names)[t] <= 1
  {
    RemoveFirstDropsOne(names, t);
    forall u
      ensures u in RemoveFirst(names, t) <==> multiset(names)[u] > (if u == t then 1 else 0)
    {
      assert u in RemoveFirst(names, t) <==> u in multiset(RemoveFirst(names, t));
      assert u in names <==> u in multiset(names);
    }
    if multiset(names)[t] > 1 {
      assert t in (set u | u in RemoveFirst(names, t));
    }
  }

  lemma RemoveKeepsNamedOnce(names: seq<TaskId>, t: TaskId)
    requires NamedOnce(names)
    ensures NamedOnce(RemoveFirst(names, t))
    ensures (set u | u in RemoveFirst(names, t)) == (set u | u in names) - {t}
  {
    RemoveFirstDropsOne(names, t);
    RemoveAgreesWithDrop(names, t);
  }

  // The position of the first entry of a task, or the length if there is none.
  method FindFirst(names: seq<TaskId>, t: TaskId) returns (i: nat)
    ensures i <= |names|
    ensures i < |names| ==> names[i] == t && RemoveFirst(names, t) == names[..i] + names[i + 1..]
    ensures i == |names| ==> RemoveFirst(names, t) == names
  {
    i := 0;
    while i < |names| && names[i] != t
      invariant 0 <= i <= |names|
      invariant RemoveFirst(names, t) == names[..i] + RemoveFirst(names[i..], t)
    {
      assert names[i..] == [names[i]] + names[i + 1..];
      assert names[..i + 1] + RemoveFirst(names[i + 1..], t)
          == names[..i] + ([names[i]] + RemoveFirst(names[i + 1..], t));
      i := i + 1;
    }
    if i < |names| {
      assert names[i..][1..] == names[i + 1..];
    } else {
      assert names[..i] + [] == names;
    }
  }

  method EraseFirst(subbands: seq<SubBand>, t: TaskId) returns (rest: seq<SubBand>)
    ensures Names(rest) == RemoveFirst(Names(subbands), t)
    ensures forall sb :: sb in rest ==> sb in subbands
  {
    var names := Names(subbands);
    var i := FindFirst(names, t);
    if i == |subbands| {
      return subbands;
    }
    rest := subbands[..i] + subbands[i + 1..];
    assert Names(rest) == names[..i] + names[i + 1..];
  }

  class IQStreamer {
    var running: bool
    var cf: real
    var dests: seq<TaskId>
    var subbands: seq<SubBand>

    // No list names a task twice.
    ghost predicate Valid()
      reads this
    {
      NamedOnce(dests) && NamedOnce(Names(subbands))
    }

    // The consumers as the lifecycle protocol sees them.
    ghost function Consumers(): Lifecycle.Consumers
      reads this
    {
      Contents(dests, Names(subbands))
    }

    constructor ()
      ensures Valid() && !running && Consumers() == Lifecycle.Consumers({}, {}) && cf == 0.0
    {
      running, cf, dests, subbands := false, 0.0, [], [];
    }

    // `ok` says whether the socket could be opened and connected; if not, nothing is added.
    method AddDest(t: TaskId, ok: bool)
      modifies this`dests
      ensures dests == if ok then old(dests) + [t] else old(dests)
      ensures ok ==> Consumers() == old(Consumers()).(dests := old(Consumers()).dests + {t})
      ensures old(Valid()) && t !in old(dests) ==> Valid()
    {
      if !ok {
        return;
      }
      dests := dests + [t];
    }

    // Returns the number of destinations left.
    method RemoveDest(t: TaskId) returns (left: nat)
      requires Valid()
      modifies this`dests
      ensures dests == RemoveFirst(old(dests), t) && left == |dests|
      ensures Valid() && Consumers() == Lifecycle.DropConsumer(old(Consumers()), t, false)
    {
      RemoveKeepsNamedOnce(dests, t);
      var i := FindFirst(dests, t);
      if i < |dests| {
        dests := dests[..i] + dests[i + 1..];
      }
      return |dests|;
    }

    method AddSubBand(t: TaskId, taskCf: real, output: real, wide: real, ok: bool)
      modifies this`subbands
      ensures subbands == if ok then old(subbands) + [SubBand(t, taskCf - cf, Decimation(wide, output))]
                          else old(subbands)
      ensures ok ==> Consumers() == old(Consumers()).(subbands := old(Consumers()).subbands + {t})
      ensures old(Valid()) && t !in old(Consumers()).subbands ==> Valid()
    {
      if !ok {
        return;
      }
      var decim := if output > 0.0 then Round(wide / output) else 1;
      if decim < 1 {
        decim := 1;
      }
      ghost var names := Names(subbands);
      subbands := subbands + [SubBand(t, taskCf - cf, decim)];
      assert Names(subbands) == names + [t];
    }

    // Returns the number of all consumers left.
    method RemoveSubBand(t: TaskId) returns (left: nat)
      requires Valid()
      modifies this`subbands
      ensures Names(subbands) == RemoveFirst(old(Names(subbands)), t) && left == |dests| + |subbands|
      ensures Valid() && Consumers() == Lifecycle.DropConsumer(old(Consumers()), t, true)
      ensures forall sb :: sb in subbands ==> sb in old(subbands)
    {
      RemoveKeepsNamedOnce(Names(subbands), t);
      subbands := EraseFirst(subbands, t);
      return |dests| + |subbands|;
    }

    // The count deactivateTask tests: zero exactly when the protocol sees no consumer.
    method TotalConsumers() returns (n: nat)
      ensures n == |dests| + |subbands|
      ensures n == 0 <==> Consumers() == Lifecycle.Consumers({}, {})
    {
      n := |dests| + |subbands|;
      if n > 0 {
        if dests != [] {
          assert dests[0] in Consumers().dests;
        } else {
          assert Names(subbands)[0] in Consumers().subbands;
        }
      }
    }

    // The primary destination of the configuration registers itself once.
    method Start(t: TaskId, configured: bool, ok: bool)
      modifies this`running, this`dests
      ensures running
      ensures dests == if !old(running) && configured && ok then old(dests) + [t] else old(dests)
    {
      if running {
        return;
      }
      running := true;
      if configured {
        AddDest(t, ok);
      }
    }

    // Idempotent; only a running streamer drops its consumers.
    method Stop()
      modifies this`running, this`dests, this`subbands
      ensures !running
      ensures old(running) ==> Consumers() == Lifecycle.Consumers({}, {})
      ensures !old(running) ==> dests == old(dests) && subbands == old(subbands)
    {
      if !running {
        return;
      }
      running, dests, subbands := false, [], [];
    }
  }
}
