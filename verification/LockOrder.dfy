// Deadlock freedom of mutexes and thread joins: a discipline under which any threads, each
// given as the sequence of locks it takes and threads it joins, can never all be blocked.
// LockSystem shows that the threads of the source keep it.
module LockOrder {
  import opened Basics

  type ThreadId = nat

  // snapshot_mu_; hw_activation_mu_; reg_mu_ and rt_mu_; the locks inside SpectrumTimeline,
  // UdpPortPool, IQStreamer (dests_mu_, mu_), RadioDevice, FftEngine and the status queue
  // behind the state-change callback; and the process-wide claim lock that RadioDevice
  // takes inside its own.
  datatype Lock =
    | Snapshots
    | Hw
    | Reg | Rt
    | Timeline | Pool | Dests | Metrics | Radio | Fft | Queue
    | ClaimSet

  function Height(l: Lock): nat
  {
    match l
    case Snapshots => 0
    case Hw => 1
    case Reg => 2
    case Rt => 2
    case ClaimSet => 4
    case _ => 3
  }

  const TOP := 5

  datatype Op = Acquire(l: Lock) | Release(l: Lock) | Join(t: ThreadId)

  // Where a thread stands: it joins only threads of a lower level, and takes no lock below
  // its floor.
  datatype Post = Post(level: nat, floor: nat)

  predicate AllBelow(held: set<Lock>, height: nat)
  {
    forall h :: h in held ==> Height(h) < height
  }

  // A thread may be joined only while all locks held are below any lock it may need.
  predicate MayJoin(posts: seq<Post>, me: Post, held: set<Lock>, t: ThreadId)
  {
    && t < |posts| && posts[t].level < me.level
    && me.floor <= posts[t].floor <= TOP && AllBelow(held, posts[t].floor)
  }

  predicate MayTake(me: Post, held: set<Lock>, l: Lock)
  {
    me.floor <= Height(l) && AllBelow(held, Height(l))
  }

  predicate Allowed(posts: seq<Post>, me: Post, held: set<Lock>, op: Op)
  {
    match op
    case Acquire(l) => MayTake(me, held, l)
    case Release(l) => l in held
    case Join(t) => MayJoin(posts, me, held, t)
  }

  function HeldAfter(held: set<Lock>, op: Op): set<Lock>
  {
    match op
    case Acquire(l) => held + {l}
    case Release(l) => held - {l}
    case Join(_) => held
  }

  // From `held`, the operations keep the discipline and end holding `after`.
  ghost predicate Keeps(posts: seq<Post>, me: Post, held: set<Lock>, ops: seq<Op>, after: set<Lock>)
    decreases ops
  {
    if ops == [] then held == after
    else Allowed(posts, me, held, ops[0]) && Keeps(posts, me, HeldAfter(held, ops[0]), ops[1..], after)
  }

  // ---- The theorem about threads ----

  // What a thread holds and still has to do.
  datatype Thread = Thread(started: bool, held: set<Lock>, rest: seq<Op>)

  ghost predicate Disciplined(posts: seq<Post>, ts: seq<Thread>)
  {
    && |ts| == |posts|
    && (forall i :: 0 <= i < |ts| ==> Keeps(posts, posts[i], ts[i].held, ts[i].rest, {}))
    && (forall i :: 0 <= i < |ts| && !ts[i].started ==> ts[i].held == {})
    && (forall i, j, l :: 0 <= i < |ts| && 0 <= j < |ts| && l in ts[i].held && l in ts[j].held ==> i == j)
  }

  ghost predicate Free(ts: seq<Thread>, l: Lock)
  {
    forall j :: 0 <= j < |ts| ==> l !in ts[j].held
  }

  // A thread that was never started is not joinable, and nobody waits for it.
  ghost predicate Ready(ts: seq<Thread>, i: nat)
  {
    && i < |ts| && ts[i].started && ts[i].rest != []
    && match ts[i].rest[0]
       case Acquire(l) => Free(ts, l)
       case Release(_) => true
       case Join(t) => t < |ts| && (!ts[t].started || ts[t].rest == [])
  }

  // Threads start at any time, and ready ones move.
  datatype Pick = Starts(i: nat) | Moves(i: nat)

  ghost predicate Possible(ts: seq<Thread>, pick: Pick)
  {
    match pick
    case Starts(i) => i < |ts| && !ts[i].started
    case Moves(i) => Ready(ts, i)
  }

  ghost function Next(ts: seq<Thread>, pick: Pick): seq<Thread>
    requires Possible(ts, pick)
  {
    var i := pick.i;
    match pick
    case Starts(_) => ts[i := ts[i].(started := true)]
    case Moves(_) =>
      ts[i := ts[i].(held := HeldAfter(ts[i].held, ts[i].rest[0]), rest := ts[i].rest[1..])]
  }

  lemma StepKeepsDiscipline(posts: seq<Post>, ts: seq<Thread>, pick: Pick)
    requires Disciplined(posts, ts) && Possible(ts, pick)
    ensures Disciplined(posts, Next(ts, pick))
  {
  }

  // What a blocked thread waits for is at least this high.
  function Waits(posts: seq<Post>, t: Thread): nat
    requires t.rest != []
  {
    match t.rest[0]
    case Acquire(l) => Height(l)
    case Release(l) => TOP
    case Join(j) => if j < |posts| then posts[j].floor else TOP
  }

  // Following who waits for whom, from any unfinished thread, reaches one that can move:
  // each lock edge leads to a higher wait, each join edge to a lower level.
  lemma {:induction false} FollowWaits(posts: seq<Post>, ts: seq<Thread>, i: nat) returns (k: nat)
    requires Disciplined(posts, ts) && i < |ts| && ts[i].started && ts[i].rest != []
    ensures Ready(ts, k)
    decreases TOP - Waits(posts, ts[i]), posts[i].level
  {
    assert Allowed(posts, posts[i], ts[i].held, ts[i].rest[0]);
    if Ready(ts, i) {
      return i;
    }
    match ts[i].rest[0]
    case Acquire(l) =>
      var j :| 0 <= j < |ts| && l in ts[j].held;
      assert Keeps(posts, posts[j], ts[j].held, ts[j].rest, {});
      assert Allowed(posts, posts[j], ts[j].held, ts[j].rest[0]);
      k := FollowWaits(posts, ts, j);
    case Join(j) =>
      assert Keeps(posts, posts[j], ts[j].held, ts[j].rest, {});
      assert Allowed(posts, posts[j], ts[j].held, ts[j].rest[0]);
      k := FollowWaits(posts, ts, j);
  }

  ghost predicate Reaches(ts: seq<Thread>, picks: seq<Pick>, ts': seq<Thread>)
    decreases picks
  {
    if picks == [] then ts == ts'
    else Possible(ts, picks[0]) && Reaches(Next(ts, picks[0]), picks[1..], ts')
  }

  ghost predicate Stuck(ts: seq<Thread>)
  {
    && (forall k: nat :: !Ready(ts, k))
    && exists i :: 0 <= i < |ts| && ts[i].started && ts[i].rest != []
  }

  // In no state that disciplined threads can reach are all started threads that have not
  // finished blocked.
  lemma {:induction false} SomeThreadProceeds(posts: seq<Post>, ts: seq<Thread>, picks: seq<Pick>, ts': seq<Thread>)
    requires Disciplined(posts, ts) && Reaches(ts, picks, ts')
    ensures !Stuck(ts')
    decreases picks
  {
    if picks == [] {
      if i :| 0 <= i < |ts'| && ts'[i].started && ts'[i].rest != [] {
        var k := FollowWaits(posts, ts', i);
      }
    } else {
      StepKeepsDiscipline(posts, ts, picks[0]);
      SomeThreadProceeds(posts, Next(ts, picks[0]), picks[1..], ts');
    }
  }

  // ---- Nested blocks ----

  // The shape of the source: locks around blocks, and joins.
  datatype Block = Locked(l: Lock, body: seq<Block>) | Joins(t: ThreadId)

  function Flat(bs: seq<Block>): seq<Op>
  {
    if bs == [] then []
    else
      (match bs[0]
       case Locked(l, body) => [Acquire(l)] + Flat(body) + [Release(l)]
       case Joins(t) => [Join(t)])
      + Flat(bs[1..])
  }

  predicate Sound(posts: seq<Post>, me: Post, held: set<Lock>, bs: seq<Block>)
    decreases bs
  {
    if bs == [] then true
    else
      && (match bs[0]
          case Locked(l, body) => MayTake(me, held, l) && Sound(posts, me, held + {l}, body)
          case Joins(t) => MayJoin(posts, me, held, t))
      && Sound(posts, me, held, bs[1..])
  }

  lemma {:induction false} SoundConcat(posts: seq<Post>, me: Post, held: set<Lock>, a: seq<Block>, b: seq<Block>)
    requires Sound(posts, me, held, a) && Sound(posts, me, held, b)
    ensures Sound(posts, me, held, a + b)
    decreases a
  {
    if a == [] {
      assert a + b == b;
    } else {
      SoundConcat(posts, me, held, a[1..], b);
      assert (a + b)[0] == a[0] && (a + b)[1..] == a[1..] + b;
    }
  }

  lemma {:induction false} KeepsConcat(posts: seq<Post>, me: Post,
                                       a: set<Lock>, p: seq<Op>, b: set<Lock>, q: seq<Op>, c: set<Lock>)
    requires Keeps(posts, me, a, p, b) && Keeps(posts, me, b, q, c)
    ensures Keeps(posts, me, a, p + q, c)
    decreases p
  {
    if p == [] {
      assert p + q == q;
    } else {
      KeepsConcat(posts, me, HeldAfter(a, p[0]), p[1..], b, q, c);
      assert (p + q)[1..] == p[1..] + q;
    }
  }

  lemma NestedKeeps(posts: seq<Post>, me: Post, held: set<Lock>, l: Lock, body: seq<Op>)
    requires MayTake(me, held, l) && Keeps(posts, me, held + {l}, body, held + {l})
    ensures Keeps(posts, me, held, [Acquire(l)] + body + [Release(l)], held)
  {
    assert l !in held;
    assert (held + {l}) - {l} == held;
    assert Keeps(posts, me, held + {l}, [Release(l)], held) by {
      assert [Release(l)][1..] == [];
    }
    KeepsConcat(posts, me, held + {l}, body, held + {l}, [Release(l)], held);
    var ops := [Acquire(l)] + body + [Release(l)];
    assert ops[1..] == body + [Release(l)];
  }

  // Nested blocks that are sound keep the discipline.
  lemma {:induction false} SoundKeeps(posts: seq<Post>, me: Post, held: set<Lock>, bs: seq<Block>)
    requires Sound(posts, me, held, bs)
    ensures Keeps(posts, me, held, Flat(bs), held)
    decreases bs
  {
    if bs == [] {
    } else {
      match bs[0] {
        case Locked(l, body) =>
          SoundKeeps(posts, me, held + {l}, body);
          NestedKeeps(posts, me, held, l, Flat(body));
          SoundKeeps(posts, me, held, bs[1..]);
          KeepsConcat(posts, me, held, [Acquire(l)] + Flat(body) + [Release(l)], held, Flat(bs[1..]), held);
        case Joins(t) =>
          assert Keeps(posts, me, held, [Join(t)], held) by { assert [Join(t)][1..] == []; }
          SoundKeeps(posts, me, held, bs[1..]);
          KeepsConcat(posts, me, held, [Join(t)], held, Flat(bs[1..]), held);
      }
    }
  }

  // What the source avoids by stopping executors after the locks are dropped: a teardown
  // that joins, under rt_mu_, an executor that still has to take it.
  function TeardownJoiningInside(): seq<Thread>
  {
    [Thread(true, {}, Flat([Locked(Rt, [Joins(1)])])), Thread(true, {}, Flat([Locked(Rt, [])]))]
  }

  lemma JoiningInsideCanDeadlock()
    ensures exists picks, ts :: Reaches(TeardownJoiningInside(), picks, ts) && Stuck(ts)
  {
    var inner := [Joins(1)];
    assert Flat(inner) == [Join(1)] by { assert inner[1..] == []; }
    var outer := [Locked(Rt, inner)];
    assert Flat(outer) == [Acquire(Rt), Join(1), Release(Rt)] by { assert outer[1..] == []; }
    var plain: seq<Block> := [Locked(Rt, [])];
    assert Flat(plain) == [Acquire(Rt), Release(Rt)] by { assert plain[1..] == []; }
    var ts := TeardownJoiningInside();
    assert ts[0].rest == Flat(outer) && ts[1].rest == Flat(plain);
    assert Ready(ts, 0);
    var ts' := Next(ts, Moves(0));
    assert Reaches(ts, [Moves(0)], ts') by { assert [Moves(0)][1..] == []; }
    assert ts'[0] == Thread(true, {Rt}, [Join(1), Release(Rt)]);
    assert ts'[1].rest[0] == Acquire(Rt) && !Free(ts', Rt);
    assert Stuck(ts');
  }

  // And what it avoids by detaching: a thread that joins itself.
  lemma JoiningOneselfDeadlocks()
    ensures Stuck([Thread(true, {}, Flat([Joins(0)]))])
  {
    var own := [Joins(0)];
    assert Flat(own) == [Join(0)] by { assert own[1..] == []; }
    var ts := [Thread(true, {}, Flat(own))];
    assert ts[0].started && ts[0].rest != [];
  }
}
