// The UDP port pool (include/UdpPortPool.hpp): a set of free ports and a set of
// used ports. Ports are handed out lowest first, and only a used port can be
// given back.
module UdpPortPool {
  import opened Basics

  // What the pool holds, as a value. The task protocol uses it as well.
  datatype Ports = Ports(free: set<int>, used: set<int>)

  ghost predicate Least(p: int, s: set<int>)
  {
    p in s && forall q :: q in s ==> p <= q
  }

  lemma {:induction false} LeastExists(s: set<int>) returns (p: int)
    requires s != {}
    ensures Least(p, s)
    decreases |s|
  {
    var x := PickElement(s);
    p := x;
    if s != {x} {
      SubsetSize(s - {x}, s);
      var q := LeastExists(s - {x});
      if q < x { p := q; }
      assert s == (s - {x}) + {x};
    }
  }

  ghost function LeastOf(s: set<int>): (p: int)
    requires s != {}
    ensures Least(p, s)
  {
    assert exists p :: Least(p, s) by {
      var p := LeastExists(s);
    }
    var p :| Least(p, s);
    p
  }

  // The n lowest ports of s in ascending order.
  ghost function Lowest(s: set<int>, n: nat): seq<int>
    requires n <= |s|
  {
    if n == 0 then [] else [LeastOf(s)] + Lowest(s - {LeastOf(s)}, n - 1)
  }

  // All or nothing: n ports, or no change at all when fewer are free.
  ghost function Draw(p: Ports, n: nat): (Ports, seq<int>)
  {
    if |p.free| < n then (p, [])
    else
      var out := Lowest(p.free, n);
      (Ports(p.free - Elements(out), p.used + Elements(out)), out)
  }

  ghost function GiveBack(p: Ports, ports: set<int>): Ports
  {
    Ports(p.free + p.used * ports, p.used - ports)
  }

  // A draw is exactly n free ports in ascending order.
  lemma {:induction false} LowestPorts(s: set<int>, n: nat)
    requires n <= |s|
    ensures |Lowest(s, n)| == n && Ascending(Lowest(s, n)) && Elements(Lowest(s, n)) <= s
  {
    if n == 0 {
    } else {
      var least := LeastOf(s);
      var rest := Lowest(s - {least}, n - 1);
      LowestPorts(s - {least}, n - 1);
      forall i | 0 <= i < |rest|
        ensures rest[i] in s && least < rest[i]
      {
        assert rest[i] in Elements(rest);
      }
    }
  }

  // Every port a draw leaves behind lies above all the ports it took.
  lemma {:induction false} LowestAreBelowTheRest(s: set<int>, n: nat, p: int, q: int)
    requires n <= |s|
    requires p in Lowest(s, n) && q in s && q !in Lowest(s, n)
    ensures p < q
  {
    if n == 0 {
    } else {
      var least := LeastOf(s);
      var rest := Lowest(s - {least}, n - 1);
      assert Lowest(s, n) == [least] + rest;
      assert least in Lowest(s, n);
      if p != least {
        LowestAreBelowTheRest(s - {least}, n - 1, p, q);
      }
    }
  }

  lemma DrawNothing(p: Ports)
    ensures Draw(p, 0) == (p, [])
  {
    assert Lowest(p.free, 0) == [] && Elements<int>([]) == {};
    assert p.free - {} == p.free && p.used + {} == p.used;
  }

  // Drawing n ports moves exactly n ports from free to used.
  lemma DrawMovesPorts(p: Ports, n: nat)
    requires p.free !! p.used && n <= |p.free|
    ensures var (after, out) := Draw(p, n);
            && |out| == n && NoDuplicates(out)
            && Elements(out) <= p.free
            && after.free !! after.used
            && after.free + after.used == p.free + p.used
            && |after.used| == |p.used| + n
  {
    LowestPorts(p.free, n);
    var out := Lowest(p.free, n);
    ElementsSize(out);
    assert p.used !! Elements(out);
  }

  // Giving back what was just drawn restores the pool, also when nothing could
  // be drawn.
  lemma DrawThenGiveBack(p: Ports, n: nat)
    requires p.free !! p.used
    ensures var (after, out) := Draw(p, n); GiveBack(after, Elements(out)) == p
  {
    if n <= |p.free| {
      LowestPorts(p.free, n);
    }
  }

  // Giving ports back keeps the range, is idempotent, and never frees a port
  // that was not used.
  lemma GiveBackIsIdempotent(p: Ports, ports: set<int>)
    requires p.free !! p.used
    ensures var after := GiveBack(p, ports);
            && after.free !! after.used
            && after.free + after.used == p.free + p.used
            && GiveBack(after, ports) == after
            && after.free - p.free == ports * p.used
  {
    var after := GiveBack(p, ports);
    assert after.used * ports == {};
  }

  // The lowest element, as the first step of iterating over an ordered set.
  method TakeLeast(s: set<int>) returns (p: int)
    requires s != {}
    ensures p == LeastOf(s)
  {
    ghost var least := LeastOf(s);
    p :| p in s && forall q :: q in s ==> p <= q;
  }

  method CollectLowest(s: set<int>, n: nat) returns (out: seq<int>)
    requires n <= |s|
    ensures out == Lowest(s, n)
  {
    out := [];
    var ahead := s;
    for i := 0 to n
      invariant |out| == i && n - i <= |ahead|
      invariant out + Lowest(ahead, n - i) == Lowest(s, n)
    {
      var p := TakeLeast(ahead);
      assert out + Lowest(ahead, n - i) == (out + [p]) + Lowest(ahead - {p}, n - i - 1);
      out := out + [p];
      ahead := ahead - {p};
    }
  }

  // Takes the ports of out from one set and adds them to the other.
  method Move(from: set<int>, to: set<int>, out: seq<int>) returns (from': set<int>, to': set<int>)
    ensures from' == from - Elements(out) && to' == to + Elements(out)
  {
    from', to' := from, to;
    for i := 0 to |out|
      invariant from' == from - Elements(out[..i])
      invariant to' == to + Elements(out[..i])
    {
      assert out[..i + 1] == out[..i] + [out[i]];
      ElementsConcat(out[..i], [out[i]]);
      from' := from' - {out[i]};
      to' := to' + {out[i]};
    }
    assert out[..|out|] == out;
  }

  class UdpPortPool {
    var free: set<int>
    var used: set<int>
    ghost const all: set<int>

    ghost predicate Valid()
      reads this
    {
      free !! used && free + used == all
    }

    ghost function Contents(): Ports
      reads this
    {
      Ports(free, used)
    }

    constructor (ports: set<int>)
      ensures Valid() && free == ports && used == {} && all == ports
    {
      free, used, all := ports, {}, ports;
    }

    // The constructor of the source throws when first >= last; here that is null.
    static method Make(first: int, last: int) returns (pool: UdpPortPool?)
      ensures pool == null <==> first >= last
      ensures pool != null ==>
        fresh(pool) && pool.Valid() && pool.used == {}
        && pool.all == Range(first, last + 1)
    {
      if first >= last {
        return null;
      }
      var ports: set<int> := {};
      for p := first to last + 1
        invariant ports == Range(first, p)
      {
        ports := ports + {p};
      }
      pool := new UdpPortPool(ports);
    }

    // The lowest free port, or -1 when there is none.
    method Allocate() returns (p: int)
      requires Valid()
      modifies this
      ensures Valid()
      ensures old(free) == {} ==> p == -1 && Contents() == old(Contents())
      ensures old(free) != {} ==>
        Least(p, old(free)) && (Contents(), [p]) == Draw(old(Contents()), 1)
    {
      if free == {} {
        return -1;
      }
      ghost var before := Contents();
      p := TakeLeast(free);
      free := free - {p};
      used := used + {p};
      SubsetSize({p}, before.free);
      assert Lowest(before.free, 1) == [p] + Lowest(before.free - {p}, 0) == [p];
      assert Elements([p]) == {p};
      assert |before.free| >= 1;
    }

    method AllocateN(n: nat) returns (out: seq<int>)
      requires Valid()
      modifies this
      ensures Valid()
      ensures (Contents(), out) == Draw(old(Contents()), n)
      ensures |out| == if n <= old(|free|) then n else 0
    {
      if |free| < n {
        return [];
      }
      out := CollectLowest(free, n);
      DrawMovesPorts(Contents(), n);
      free, used := Move(free, used, out);
    }

    method Release(p: int)
      requires Valid()
      modifies this
      ensures Valid() && Contents() == GiveBack(old(Contents()), {p})
    {
      if p in used {
        used := used - {p};
        free := free + {p};
      }
    }

    method ReleaseAll(ports: seq<int>)
      requires Valid()
      modifies this
      ensures Valid() && Contents() == GiveBack(old(Contents()), Elements(ports))
    {
      ghost var before := Contents();
      for i := 0 to |ports|
        invariant Valid()
        invariant Contents() == GiveBack(before, Elements(ports[..i]))
      {
        assert Elements(ports[..i + 1]) == Elements(ports[..i]) + {ports[i]};
        if ports[i] in used {
          used := used - {ports[i]};
          free := free + {ports[i]};
        }
      }
      assert ports[..|ports|] == ports;
    }
  }
}
