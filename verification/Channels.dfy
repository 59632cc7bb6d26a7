// Channel accounting shared by canFit and canCombine: how many channels the
// overlapping slots list, which ones they are, and the lowest free ones
// (src/SpectrumTimeline.cpp:41-49, 73-75, 167-204).
module Channels {
  import opened Basics

  // How many channels the lists name, counted with repetition.
  function Total(lists: seq<seq<nat>>): nat
  {
    if lists == [] then 0 else Total(lists[..|lists| - 1]) + |lists[|lists| - 1]|
  }

  function Taken(lists: seq<seq<nat>>): (taken: set<int>)
  {
    set list, c: int | list in lists && c in list :: c
  }

  // The first `count` channels at or above `from` and below `max` that are not taken.
  function LowestFree(from: nat, max: nat, taken: set<int>, count: nat): seq<nat>
    decreases max - from
  {
    if from >= max || count == 0 then []
    else if from in taken then LowestFree(from + 1, max, taken, count)
    else [from] + LowestFree(from + 1, max, taken, count - 1)
  }

  function Free(from: nat, max: nat, taken: set<int>): set<int>
  {
    Range(from, max) - taken
  }

  lemma AscendingAfter(first: nat, rest: seq<nat>)
    requires Ascending(rest) && forall c :: c in rest ==> first < c
    ensures Ascending([first] + rest)
  {
    assert forall j :: 0 <= j < |rest| ==> rest[j] in rest;
  }

  lemma FreeStep(from: nat, max: nat, taken: set<int>)
    requires from < max
    ensures |Free(from, max, taken)| == |Free(from + 1, max, taken)| + if from in taken then 0 else 1
  {
    var rest := Free(from + 1, max, taken);
    if from in taken {
      assert Free(from, max, taken) == rest;
    } else {
      assert Free(from, max, taken) == {from} + rest;
    }
  }

  // They are in order, in range and not taken, and there are `count` of them unless that
  // many are not free.
  lemma {:induction false} LowestFreeChannels(from: nat, max: nat, taken: set<int>, count: nat)
    ensures var free := LowestFree(from, max, taken, count);
            && Ascending(free)
            && (forall c :: c in free ==> from <= c < max && c !in taken)
            && |free| == Min(count, |Free(from, max, taken)|)
    decreases max - from
  {
    if from >= max {
      assert Free(from, max, taken) == {};
    } else if count > 0 {
      FreeStep(from, max, taken);
      if from in taken {
        LowestFreeChannels(from + 1, max, taken, count);
      } else {
        LowestFreeChannels(from + 1, max, taken, count - 1);
        AscendingAfter(from, LowestFree(from + 1, max, taken, count - 1));
      }
    }
  }

  // No free channel is skipped: one that was not picked lies above all that were.
  lemma {:induction false} NothingSkipped(from: nat, max: nat, taken: set<int>, count: nat, c: nat, p: nat)
    requires from <= c < max && c !in taken
    requires p in LowestFree(from, max, taken, count) && c !in LowestFree(from, max, taken, count)
    ensures p < c
    decreases max - from
  {
    if from in taken {
      NothingSkipped(from + 1, max, taken, count, c, p);
    } else {
      var rest := LowestFree(from + 1, max, taken, count - 1);
      assert LowestFree(from, max, taken, count) == [from] + rest;
      assert from in LowestFree(from, max, taken, count);
      if p != from {
        NothingSkipped(from + 1, max, taken, count - 1, c, p);
      }
    }
  }

  function Channels(list: seq<nat>): set<int>
  {
    set c: int | c in list
  }

  lemma {:induction false} ChannelsSize(list: seq<nat>)
    ensures |Channels(list)| <= |list|
    ensures NoDuplicates(list) ==> |Channels(list)| == |list|
  {
    if list == [] {
    } else {
      var n := |list| - 1;
      ChannelsSize(list[..n]);
      assert Channels(list) == Channels(list[..n]) + {list[n] as int};
    }
  }

  lemma TakenStep(lists: seq<seq<nat>>)
    requires lists != []
    ensures Taken(lists) == Taken(lists[..|lists| - 1]) + Channels(lists[|lists| - 1])
  {
    var n := |lists| - 1;
    assert forall list :: list in lists <==> list in lists[..n] || list == lists[n];
  }

  lemma {:induction false} TakenSize(lists: seq<seq<nat>>)
    ensures |Taken(lists)| <= Total(lists)
  {
    if lists == [] {
    } else {
      var n := |lists| - 1;
      TakenSize(lists[..n]);
      TakenStep(lists);
      ChannelsSize(lists[n]);
      UnionSize(Taken(lists[..n]), Channels(lists[n]));
    }
  }

  lemma UnionSize<T>(a: set<T>, b: set<T>)
    ensures |a + b| <= |a| + |b|
    ensures a !! b ==> |a + b| == |a| + |b|
  {
    assert a + b == a + (b - a);
    SubsetSize(b - a, b);
    if a !! b {
      assert b - a == b;
    }
  }

  // Pigeonhole: whatever the lists contain, when the count guard passes there are
  // enough free channels, so exactly `count` are picked.
  lemma GuardLeavesEnough(lists: seq<seq<nat>>, max: nat, count: nat)
    requires Total(lists) + count <= max
    ensures var free := LowestFree(0, max, Taken(lists), count);
            && |free| == count && NoDuplicates(free)
            && forall c :: c in free ==> c < max && c !in Taken(lists)
  {
    var taken := Taken(lists);
    LowestFreeChannels(0, max, taken, count);
    TakenSize(lists);
    RangeSize(0, max);
    var hit := Range(0, max) * taken;
    var all := Range(0, max);
    assert all == Free(0, max, taken) + hit;
    SubsetSize(hit, taken);
    UnionSize(Free(0, max, taken), hit);
  }

  ghost predicate Disjoint(a: seq<nat>, b: seq<nat>)
  {
    forall c :: c in a ==> c !in b
  }

  // Lists that are in range and without duplicates, within a list and between lists.
  ghost predicate Exclusive(lists: seq<seq<nat>>, max: nat)
  {
    && (forall i :: 0 <= i < |lists| ==> NoDuplicates(lists[i]) && forall c :: c in lists[i] ==> c < max)
    && (forall i, j :: 0 <= i < j < |lists| ==> Disjoint(lists[i], lists[j]))
  }

  lemma LastIsFresh(lists: seq<seq<nat>>, max: nat)
    requires Exclusive(lists, max) && lists != []
    ensures Exclusive(lists[..|lists| - 1], max)
    ensures Taken(lists[..|lists| - 1]) !! Channels(lists[|lists| - 1])
  {
    var n := |lists| - 1;
    var before := lists[..n];
    assert forall i :: 0 <= i < n ==> before[i] == lists[i];
    forall c | c in Taken(before)
      ensures c !in lists[n]
    {
      var list :| list in before && c in list;
      var i :| 0 <= i < n && before[i] == list;
      assert Disjoint(lists[i], lists[n]);
    }
  }

  lemma TakenInRange(lists: seq<seq<nat>>, max: nat)
    requires Exclusive(lists, max)
    ensures |Taken(lists)| <= max
  {
    RangeSize(0, max);
    forall c | c in Taken(lists)
      ensures c in Range(0, max)
    {
      var list :| list in lists && c in list;
      var i :| 0 <= i < |lists| && lists[i] == list;
      assert Between(0, c, max);
    }
    SubsetSize(Taken(lists), Range(0, max));
  }

  // Exclusive lists cannot name more channels than there are, and the count of
  // listed channels is the count of taken ones.
  lemma {:induction false} ExclusiveTotal(lists: seq<seq<nat>>, max: nat)
    requires Exclusive(lists, max)
    ensures Total(lists) == |Taken(lists)| <= max
  {
    TakenInRange(lists, max);
    if lists == [] {
    } else {
      var n := |lists| - 1;
      LastIsFresh(lists, max);
      ExclusiveTotal(lists[..n], max);
      TakenStep(lists);
      ChannelsSize(lists[n]);
      UnionSize(Taken(lists[..n]), Channels(lists[n]));
    }
  }

  // The loops of canFit: flag the listed channels that are in range and count
  // all listed ones.
  method MarkUsed(lists: seq<seq<nat>>, max: nat) returns (used: seq<bool>, count: nat)
    ensures |used| == max && count == Total(lists)
    ensures forall c :: 0 <= c < max ==> (used[c] <==> c in Taken(lists))
  {
    used := seq(max, _ => false);
    count := 0;
    for i := 0 to |lists|
      invariant |used| == max && count == Total(lists[..i])
      invariant forall c :: 0 <= c < max ==> (used[c] <==> c in Taken(lists[..i]))
    {
      assert lists[..i + 1][..i] == lists[..i];
      TakenStep(lists[..i + 1]);
      count := count + |lists[i]|;
      for k := 0 to |lists[i]|
        invariant |used| == max
        invariant forall c :: 0 <= c < max ==> (used[c] <==> c in Taken(lists[..i]) || c in lists[i][..k])
      {
        if lists[i][k] < max {
          used := used[lists[i][k] := true];
        }
      }
      assert lists[i][..|lists[i]|] == lists[i];
    }
    assert lists[..|lists|] == lists;
  }

  method PickFree(used: seq<bool>, ghost taken: set<int>, count: nat) returns (picked: seq<nat>)
    requires forall c :: 0 <= c < |used| ==> (used[c] <==> c in taken)
    ensures picked == LowestFree(0, |used|, taken, count)
  {
    picked := [];
    var i := 0;
    while i < |used| && |picked| < count
      invariant 0 <= i <= |used| && |picked| <= count
      invariant picked + LowestFree(i, |used|, taken, count - |picked|) == LowestFree(0, |used|, taken, count)
    {
      if !used[i] {
        assert picked + LowestFree(i, |used|, taken, count - |picked|)
            == (picked + [i]) + LowestFree(i + 1, |used|, taken, count - |picked| - 1);
        picked := picked + [i];
      }
      i := i + 1;
    }
  }
}
