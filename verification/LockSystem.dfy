// The threads of the source, each as the locks it takes and the threads it joins, and the
// proof that any number of them together keep the discipline of LockOrder.
module LockSystem {
  import opened Basics
  import opened LockOrder

  // Every lock but the one the controller holds while it joins snapshot threads.
  type Inner = l: Lock | l != Snapshots witness Hw

  // What accepting and snapshots take and drop on their own: the hardware, and the lock
  // around it, only in the sections that stand for them.
  type Quick = l: Lock | l != Snapshots && l != Hw && l != Radio witness Reg

  // One call of deactivateTask (src/ResourceManager.cpp:1593-1700). It ends early when the
  // task is unknown, or terminal with no runtime left. Otherwise it tears down the
  // runtime, if there is one, stopping the streamers that lose their last consumer
  // (workers), stops the executors it took out of the runtime, and releases ports and
  // slots if it claimed the task.
  datatype Call =
    | Brief(tested: bool)
    | Whole(claimed: bool, streams: seq<Option<ThreadId>>, runtime: nat, steals: bool, releases: nat)

  // What hardware set-up does between taking and dropping hw_activation_mu_. An open that
  // fails for the second time closes and opens the device (src/RadioDevice.cpp:187-224).
  datatype SetUp = LookUp | Tune | Subscribe | Reopen

  datatype Activation =
    | Refused
    | Cancelled(setUp: seq<SetUp>)
    | Fails(setUp: seq<SetUp>, call: Call)
    | Runs(setUp: seq<SetUp>)

  // A piece of tryAccept: a lock taken and dropped, a task of lower rank cancelled, a device
  // retuned under hw_activation_mu_, or a change of state announced.
  datatype Part = Section(l: Quick) | Cancel(call: Call) | Retune(tuned: bool) | Announce

  datatype Role =
    // workerLoop of a streamer: packets sent and signal levels noted
    | Worker(packets: seq<bool>)
    // a scan or trigger thread: retunes and captures, then its done-callback
    | Executor(runtime: nat, captures: seq<Option<ThreadId>>, call: Call)
    // a background thread of activateTask
    | Activating(a: Activation)
    // tryAccept for anything but a snapshot, in any order of its parts
    | Accepting(parts: seq<Part>)
    // doAcceptSnapshot
    | Snapshot(before: seq<Quick>, setUp: seq<SetUp>)
    // schedulerTick, watchdogTick, and the heartbeat and status queries
    | Scheduling
    | Watching(expired: seq<Call>, retried: nat)
    | Querying(ls: seq<Inner>)
    // stop, cancel, and the error callback of a streamer
    | Stopping(call: Call)
    | StartingSnapshot
    | OpeningDevices(devices: nat)
    // Controller::stop with closeDevices
    | Closing(loops: seq<ThreadId>, snapshots: seq<ThreadId>, cancels: seq<Call>, rounds: seq<seq<Call>>,
              activations: seq<ThreadId>, last: seq<Call>, devices: nat)

  // ---- Their operations ----

  function Sections(ls: seq<Lock>): seq<Block>
  {
    if ls == [] then [] else [Locked(ls[0], [])] + Sections(ls[1..])
  }

  function JoinsOf(ts: seq<ThreadId>): seq<Block>
  {
    if ts == [] then [] else [Joins(ts[0])] + JoinsOf(ts[1..])
  }

  // RadioDevice::open and close take the claim lock inside their own.
  function Opens(devices: nat): seq<Block>
  {
    if devices == 0 then [] else [Locked(Radio, [Locked(ClaimSet, [])])] + Opens(devices - 1)
  }

  function Notify(): seq<Block>
  {
    [Locked(Reg, [Locked(Queue, [])])]
  }

  // One stream of a runtime: the consumer leaves; if it was the last, the worker is joined,
  // the lists are cleared, and the stream is closed.
  function CloseStreams(streams: seq<Option<ThreadId>>): seq<Block>
  {
    if streams == [] then []
    else
      Sections([Dests, Dests])
      + (match streams[0]
         case None => []
         case Some(w) => [Joins(w)] + Sections([Dests, Radio, Radio]))
      + CloseStreams(streams[1..])
  }

  function Releases(n: nat): seq<Block>
  {
    if n == 0 then [] else Sections([Timeline, Pool]) + Releases(n - 1)
  }

  // The executors of a runtime among the first n threads. Stopping oneself detaches.
  function Executors(roles: seq<Role>, runtime: nat, self: ThreadId, n: nat): seq<ThreadId>
    requires n <= |roles|
  {
    if n == 0 then []
    else
      Executors(roles, runtime, self, n - 1)
      + if roles[n - 1].Executor? && roles[n - 1].runtime == runtime && n - 1 != self then [n - 1] else []
  }

  function Stolen(roles: seq<Role>, self: ThreadId, call: Call): seq<ThreadId>
  {
    if call.Whole? && call.steals then Executors(roles, call.runtime, self, |roles|) else []
  }

  function Deactivate(roles: seq<Role>, self: ThreadId, call: Call): seq<Block>
  {
    match call
    case Brief(tested) => if tested then Sections([Reg, Rt]) else Sections([Reg])
    case Whole(claimed, streams, _, _, releases) =>
      Sections(if claimed then [Reg] else [Reg, Rt])
      + [Locked(Hw, [Locked(Rt, CloseStreams(streams))])]
      + JoinsOf(Stolen(roles, self, call))
      + (if claimed then [Locked(Reg, Releases(releases))] else [])
      + Notify()
  }

  function DeactivateAll(roles: seq<Role>, self: ThreadId, calls: seq<Call>): seq<Block>
  {
    if calls == [] then [] else Deactivate(roles, self, calls[0]) + DeactivateAll(roles, self, calls[1..])
  }

  // A pass over the runtimes: their ids under rt_mu_, then one call each.
  function Sweeps(roles: seq<Role>, self: ThreadId, rounds: seq<seq<Call>>): seq<Block>
  {
    if rounds == [] then []
    else Sections([Rt]) + DeactivateAll(roles, self, rounds[0]) + Sweeps(roles, self, rounds[1..])
  }

  function SetsUp(steps: seq<SetUp>): seq<Block>
  {
    if steps == [] then []
    else
      (match steps[0]
       case LookUp => Sections([Rt])
       case Tune => Sections([Radio])
       case Subscribe => Sections([Dests])
       case Reopen => Sections([Radio]) + Opens(2))
      + SetsUp(steps[1..])
  }

  function PartOf(roles: seq<Role>, self: ThreadId, part: Part): seq<Block>
  {
    match part
    case Section(l) => Sections([l])
    case Cancel(call) => Deactivate(roles, self, call)
    case Retune(tuned) => [Locked(Hw, Sections(if tuned then [Radio, Timeline] else [Radio]))]
    case Announce => Notify()
  }

  function PartsOf(roles: seq<Role>, self: ThreadId, parts: seq<Part>): seq<Block>
  {
    if parts == [] then [] else PartOf(roles, self, parts[0]) + PartsOf(roles, self, parts[1..])
  }

  function Packets(packets: seq<bool>): seq<Block>
  {
    if packets == [] then []
    else Sections(if packets[0] then [Dests, Metrics] else [Metrics]) + Packets(packets[1..])
  }

  // A retune step, or a capture: the streamer is started, and later stopped.
  function Captures(captures: seq<Option<ThreadId>>): seq<Block>
  {
    if captures == [] then []
    else
      (match captures[0]
       case None => Sections([Radio])
       case Some(w) => Sections([Dests]) + [Joins(w)] + Sections([Dests]))
      + Captures(captures[1..])
  }

  function Activate(roles: seq<Role>, self: ThreadId, a: Activation): seq<Block>
  {
    match a
    case Refused => Sections([Reg])
    case Cancelled(setUp) => Sections([Reg]) + [Locked(Hw, Sections([Reg]) + SetsUp(setUp))]
    case Fails(setUp, call) =>
      Sections([Reg]) + [Locked(Hw, Sections([Reg]) + SetsUp(setUp))] + Deactivate(roles, self, call)
    case Runs(setUp) =>
      Sections([Reg]) + [Locked(Hw, Sections([Reg]) + SetsUp(setUp))] + Sections([Rt, Reg]) + Notify()
  }

  function Blocks(roles: seq<Role>, self: ThreadId, r: Role): seq<Block>
  {
    match r
    case Worker(packets) => Packets(packets)
    case Executor(_, captures, call) => Captures(captures) + Deactivate(roles, self, call)
    case Activating(a) => Activate(roles, self, a)
    case Accepting(parts) => PartsOf(roles, self, parts)
    case Snapshot(before, setUp) =>
      Sections(before) + [Locked(Hw, SetsUp(setUp)), Locked(Hw, Sections([Radio, Radio]))] + Sections([Fft])
    case Scheduling => Sections([Reg])
    case Watching(expired, retried) => Sections([Reg]) + DeactivateAll(roles, self, expired) + Opens(retried)
    case Querying(ls) => Sections(ls)
    case Stopping(call) => Sections([Reg]) + Deactivate(roles, self, call)
    case StartingSnapshot => Sections([Snapshots])
    case OpeningDevices(devices) => Opens(devices)
    case Closing(loops, snapshots, cancels, rounds, activations, last, devices) =>
      JoinsOf(loops) + [Locked(Snapshots, JoinsOf(snapshots))]
      + Sections([Reg]) + DeactivateAll(roles, self, cancels)
      + Sweeps(roles, self, rounds) + JoinsOf(activations) + Sweeps(roles, self, [last])
      + Opens(devices)
  }

  // ---- Where they stand ----

  function LevelOf(r: Role): nat
  {
    match r
    case Worker(_) => 0
    case Executor(_, _, call) => if call.Whole? && call.steals then 2 else 1
    case Closing(_, _, _, _, _, _, _) => 4
    case _ => 3
  }

  function FloorOf(r: Role): nat
  {
    match r
    case Worker(_) => 3
    case StartingSnapshot => 0
    case Closing(_, _, _, _, _, _, _) => 0
    case _ => 1
  }

  function PostOf(r: Role): Post { Post(LevelOf(r), FloorOf(r)) }

  function Posts(roles: seq<Role>): (posts: seq<Post>)
    ensures |posts| == |roles| && forall i :: 0 <= i < |roles| ==> posts[i] == PostOf(roles[i])
  {
    seq(|roles|, i requires 0 <= i < |roles| => PostOf(roles[i]))
  }

  // No thread has started, and nothing is held.
  function Threads(roles: seq<Role>): (ts: seq<Thread>)
    ensures |ts| == |roles|
    ensures forall i :: 0 <= i < |roles| ==> ts[i] == Thread(false, {}, Flat(Blocks(roles, i, roles[i])))
  {
    seq(|roles|, i requires 0 <= i < |roles| => Thread(false, {}, Flat(Blocks(roles, i, roles[i]))))
  }

  function CallsIn(parts: seq<Part>): seq<Call>
  {
    if parts == [] then []
    else (if parts[0].Cancel? then [parts[0].call] else []) + CallsIn(parts[1..])
  }

  function CallsOf(r: Role): seq<Call>
  {
    match r
    case Executor(_, _, call) => [call]
    case Activating(a) => if a.Fails? then [a.call] else []
    case Accepting(parts) => CallsIn(parts)
    case Watching(expired, _) => expired
    case Stopping(call) => [call]
    case Closing(_, _, cancels, rounds, _, last, _) => cancels + Concat(rounds) + last
    case _ => []
  }

  function Concat(rounds: seq<seq<Call>>): seq<Call>
  {
    if rounds == [] then [] else rounds[0] + Concat(rounds[1..])
  }

  ghost predicate IsWorker(roles: seq<Role>, w: Option<ThreadId>)
  {
    w.Some? ==> w.value < |roles| && roles[w.value].Worker?
  }

  ghost predicate StreamsHaveWorkers(roles: seq<Role>, call: Call)
  {
    call.Whole? ==> forall w :: w in call.streams ==> IsWorker(roles, w)
  }

  predicate Steals(call: Call)
  {
    call.Whole? && call.steals
  }

  // A runtime is erased in the section that takes its executors out, so only one thread
  // ever has them; a done-callback concerns the executor's own task.
  ghost predicate StolenOnce(roles: seq<Role>)
  {
    && (forall i, j, a, b ::
          (0 <= i < |roles| && 0 <= j < |roles| && a in CallsOf(roles[i]) && b in CallsOf(roles[j])
           && Steals(a) && Steals(b) && a.runtime == b.runtime) ==> i == j)
    && (forall i :: 0 <= i < |roles| && roles[i].Executor? && Steals(roles[i].call) ==>
          roles[i].call.runtime == roles[i].runtime)
  }

  predicate RunsOnce(roles: seq<Role>, t: ThreadId)
  {
    t < |roles| && (roles[t].Scheduling? || roles[t].Watching? || roles[t].Querying?)
  }

  // Who is named as what: streams are read by workers, and shutdown waits for the loops,
  // the snapshot threads and the activations.
  ghost predicate WellNamed(roles: seq<Role>)
  {
    && (forall i, call :: 0 <= i < |roles| && call in CallsOf(roles[i]) ==> StreamsHaveWorkers(roles, call))
    && (forall i :: 0 <= i < |roles| && roles[i].Executor? ==>
          forall w :: w in roles[i].captures ==> IsWorker(roles, w))
    && (forall i :: 0 <= i < |roles| && roles[i].Closing? ==>
          && (forall t :: t in roles[i].loops ==> RunsOnce(roles, t))
          && (forall t :: t in roles[i].snapshots ==> t < |roles| && roles[t].Snapshot?)
          && (forall t :: t in roles[i].activations ==> t < |roles| && roles[t].Activating?))
    && StolenOnce(roles)
  }

  // ---- Each of them is sound ----

  lemma {:induction false} SectionsSound(posts: seq<Post>, me: Post, held: set<Lock>, ls: seq<Lock>)
    requires forall l :: l in ls ==> MayTake(me, held, l)
    ensures Sound(posts, me, held, Sections(ls))
  {
    if ls == [] {
    } else {
      assert ls[0] in ls;
      SectionsSound(posts, me, held, ls[1..]);
      assert Sections(ls)[1..] == Sections(ls[1..]);
    }
  }

  lemma {:induction false} JoinsSound(posts: seq<Post>, me: Post, held: set<Lock>, ts: seq<ThreadId>)
    requires forall t :: t in ts ==> MayJoin(posts, me, held, t)
    ensures Sound(posts, me, held, JoinsOf(ts))
  {
    if ts == [] {
    } else {
      assert ts[0] in ts;
      JoinsSound(posts, me, held, ts[1..]);
      assert JoinsOf(ts)[1..] == JoinsOf(ts[1..]);
    }
  }

  // One lock around sound blocks.
  lemma LockedSound(posts: seq<Post>, me: Post, held: set<Lock>, l: Lock, body: seq<Block>)
    requires MayTake(me, held, l) && Sound(posts, me, held + {l}, body)
    ensures Sound(posts, me, held, [Locked(l, body)])
  {
    assert [Locked(l, body)][1..] == [];
  }

  lemma {:induction false} OpensSound(posts: seq<Post>, me: Post, held: set<Lock>, devices: nat)
    requires me.floor <= 3 && AllBelow(held, 3)
    ensures Sound(posts, me, held, Opens(devices))
  {
    if devices == 0 {
    } else {
      LockedSound(posts, me, held + {Radio}, ClaimSet, []);
      LockedSound(posts, me, held, Radio, [Locked(ClaimSet, [])]);
      OpensSound(posts, me, held, devices - 1);
      SoundConcat(posts, me, held, [Locked(Radio, [Locked(ClaimSet, [])])], Opens(devices - 1));
    }
  }

  lemma NotifySound(posts: seq<Post>, me: Post)
    requires me.floor <= 2
    ensures Sound(posts, me, {}, Notify())
  {
    LockedSound(posts, me, {} + {Reg}, Queue, []);
    LockedSound(posts, me, {}, Reg, [Locked(Queue, [])]);
  }

  lemma {:induction false} CloseStreamsSound(roles: seq<Role>, me: Post, streams: seq<Option<ThreadId>>)
    requires me.floor <= 1 && me.level >= 1 && forall w :: w in streams ==> IsWorker(roles, w)
    ensures Sound(Posts(roles), me, {Hw, Rt}, CloseStreams(streams))
  {
    if streams == [] {
    } else {
      var posts := Posts(roles);
      assert streams[0] in streams;
      SectionsSound(posts, me, {Hw, Rt}, [Dests, Dests]);
      var close := match streams[0] case None => [] case Some(w) => [Joins(w)] + Sections([Dests, Radio, Radio]);
      if streams[0].Some? {
        SectionsSound(posts, me, {Hw, Rt}, [Dests, Radio, Radio]);
        assert MayJoin(posts, me, {Hw, Rt}, streams[0].value);
        assert close[1..] == Sections([Dests, Radio, Radio]);
      }
      SoundConcat(posts, me, {Hw, Rt}, Sections([Dests, Dests]), close);
      CloseStreamsSound(roles, me, streams[1..]);
      SoundConcat(posts, me, {Hw, Rt}, Sections([Dests, Dests]) + close, CloseStreams(streams[1..]));
    }
  }

  lemma {:induction false} ReleasesSound(posts: seq<Post>, me: Post, n: nat)
    requires me.floor <= 2
    ensures Sound(posts, me, {Reg}, Releases(n))
  {
    if n == 0 {
    } else {
      SectionsSound(posts, me, {Reg}, [Timeline, Pool]);
      ReleasesSound(posts, me, n - 1);
      SoundConcat(posts, me, {Reg}, Sections([Timeline, Pool]), Releases(n - 1));
    }
  }

  lemma {:induction false} ExecutorsAre(roles: seq<Role>, runtime: nat, self: ThreadId, n: nat)
    requires n <= |roles|
    ensures forall t :: t in Executors(roles, runtime, self, n) ==>
              t < |roles| && roles[t].Executor? && roles[t].runtime == runtime && t != self
  {
    if n == 0 {
    } else {
      ExecutorsAre(roles, runtime, self, n - 1);
    }
  }

  // The executors a call stops stand below the thread that makes the call: if that is an
  // executor itself, it is of the same task, and the other one finds no runtime any more.
  lemma StolenStandBelow(roles: seq<Role>, self: ThreadId, call: Call)
    requires WellNamed(roles) && self < |roles| && call in CallsOf(roles[self])
    ensures forall t :: t in Stolen(roles, self, call) ==> MayJoin(Posts(roles), PostOf(roles[self]), {}, t)
  {
    ExecutorsAre(roles, if call.Whole? then call.runtime else 0, self, |roles|);
    forall t | t in Stolen(roles, self, call)
      ensures MayJoin(Posts(roles), PostOf(roles[self]), {}, t)
    {
      assert Steals(call) && roles[t].Executor? && roles[t].runtime == call.runtime && t != self;
      if roles[self].Executor? {
        assert call == roles[self].call;
        assert roles[t].call in CallsOf(roles[t]);
        assert !Steals(roles[t].call);
      }
    }
  }

  lemma TeardownSound(roles: seq<Role>, me: Post, streams: seq<Option<ThreadId>>)
    requires me.floor <= 1 && me.level >= 1 && forall w :: w in streams ==> IsWorker(roles, w)
    ensures Sound(Posts(roles), me, {}, [Locked(Hw, [Locked(Rt, CloseStreams(streams))])])
  {
    CloseStreamsSound(roles, me, streams);
    assert {} + {Hw} == {Hw} && {Hw} + {Rt} == {Hw, Rt};
    LockedSound(Posts(roles), me, {Hw}, Rt, CloseStreams(streams));
    LockedSound(Posts(roles), me, {}, Hw, [Locked(Rt, CloseStreams(streams))]);
  }

  // deactivateTask joins a streamer's worker under the hardware and runtime locks, which
  // the worker never takes, and executors, which call deactivateTask themselves, under none.
  lemma DeactivateSound(roles: seq<Role>, self: ThreadId, call: Call)
    requires WellNamed(roles) && self < |roles| && call in CallsOf(roles[self])
    ensures Sound(Posts(roles), PostOf(roles[self]), {}, Deactivate(roles, self, call))
  {
    var posts, me := Posts(roles), PostOf(roles[self]);
    match call
    case Brief(tested) => SectionsSound(posts, me, {}, if tested then [Reg, Rt] else [Reg]);
    case Whole(claimed, streams, _, _, releases) =>
      var claim := Sections(if claimed then [Reg] else [Reg, Rt]);
      SectionsSound(posts, me, {}, if claimed then [Reg] else [Reg, Rt]);
      assert StreamsHaveWorkers(roles, call);
      TeardownSound(roles, me, streams);
      var teardown := [Locked(Hw, [Locked(Rt, CloseStreams(streams))])];
      SoundConcat(posts, me, {}, claim, teardown);
      StolenStandBelow(roles, self, call);
      JoinsSound(posts, me, {}, Stolen(roles, self, call));
      SoundConcat(posts, me, {}, claim + teardown, JoinsOf(Stolen(roles, self, call)));
      EndSound(posts, me, claimed, releases);
      var free := if claimed then [Locked(Reg, Releases(releases))] else [];
      SoundConcat(posts, me, {}, claim + teardown + JoinsOf(Stolen(roles, self, call)), free);
      SoundConcat(posts, me, {}, claim + teardown + JoinsOf(Stolen(roles, self, call)) + free, Notify());
  }

  lemma EndSound(posts: seq<Post>, me: Post, claimed: bool, releases: nat)
    requires me.floor <= 2
    ensures Sound(posts, me, {}, if claimed then [Locked(Reg, Releases(releases))] else [])
    ensures Sound(posts, me, {}, Notify())
  {
    assert {} + {Reg} == {Reg};
    ReleasesSound(posts, me, releases);
    LockedSound(posts, me, {}, Reg, Releases(releases));
    NotifySound(posts, me);
  }

  lemma {:induction false} DeactivateAllSound(roles: seq<Role>, self: ThreadId, calls: seq<Call>)
    requires WellNamed(roles) && self < |roles| && forall call :: call in calls ==> call in CallsOf(roles[self])
    ensures Sound(Posts(roles), PostOf(roles[self]), {}, DeactivateAll(roles, self, calls))
    decreases calls
  {
    if calls == [] {
    } else {
      assert calls[0] in calls;
      DeactivateSound(roles, self, calls[0]);
      DeactivateAllSound(roles, self, calls[1..]);
      SoundConcat(Posts(roles), PostOf(roles[self]), {},
                  Deactivate(roles, self, calls[0]), DeactivateAll(roles, self, calls[1..]));
    }
  }

  lemma {:induction false} SweepsSound(roles: seq<Role>, self: ThreadId, rounds: seq<seq<Call>>)
    requires WellNamed(roles) && self < |roles| && FloorOf(roles[self]) <= 2
    requires forall call :: call in Concat(rounds) ==> call in CallsOf(roles[self])
    ensures Sound(Posts(roles), PostOf(roles[self]), {}, Sweeps(roles, self, rounds))
    decreases rounds
  {
    if rounds == [] {
    } else {
      var posts, me := Posts(roles), PostOf(roles[self]);
      assert Concat(rounds) == rounds[0] + Concat(rounds[1..]);
      SectionsSound(posts, me, {}, [Rt]);
      DeactivateAllSound(roles, self, rounds[0]);
      SoundConcat(posts, me, {}, Sections([Rt]), DeactivateAll(roles, self, rounds[0]));
      SweepsSound(roles, self, rounds[1..]);
      SoundConcat(posts, me, {}, Sections([Rt]) + DeactivateAll(roles, self, rounds[0]),
                  Sweeps(roles, self, rounds[1..]));
    }
  }

  lemma {:induction false} SetsUpSound(posts: seq<Post>, me: Post, steps: seq<SetUp>)
    requires me.floor <= 1
    ensures Sound(posts, me, {Hw}, SetsUp(steps))
  {
    if steps == [] {
    } else {
      var first := match steps[0]
                   case LookUp => Sections([Rt])
                   case Tune => Sections([Radio])
                   case Subscribe => Sections([Dests])
                   case Reopen => Sections([Radio]) + Opens(2);
      SectionsSound(posts, me, {Hw}, [Rt]);
      SectionsSound(posts, me, {Hw}, [Radio]);
      SectionsSound(posts, me, {Hw}, [Dests]);
      OpensSound(posts, me, {Hw}, 2);
      SoundConcat(posts, me, {Hw}, Sections([Radio]), Opens(2));
      SetsUpSound(posts, me, steps[1..]);
      SoundConcat(posts, me, {Hw}, first, SetsUp(steps[1..]));
    }
  }

  // A worker takes no lock that is held where it is joined.
  lemma {:induction false} PacketsSound(posts: seq<Post>, me: Post, packets: seq<bool>)
    requires me.floor <= 3
    ensures Sound(posts, me, {}, Packets(packets))
  {
    if packets == [] {
    } else {
      var locks := if packets[0] then [Dests, Metrics] else [Metrics];
      SectionsSound(posts, me, {}, locks);
      PacketsSound(posts, me, packets[1..]);
      SoundConcat(posts, me, {}, Sections(locks), Packets(packets[1..]));
    }
  }

  lemma {:induction false} CapturesSound(roles: seq<Role>, me: Post, captures: seq<Option<ThreadId>>)
    requires me.floor <= 3 && me.level >= 1 && forall w :: w in captures ==> IsWorker(roles, w)
    ensures Sound(Posts(roles), me, {}, Captures(captures))
  {
    if captures == [] {
    } else {
      var posts := Posts(roles);
      assert captures[0] in captures;
      SectionsSound(posts, me, {}, [Radio]);
      SectionsSound(posts, me, {}, [Dests]);
      var first := match captures[0]
                   case None => Sections([Radio])
                   case Some(w) => Sections([Dests]) + [Joins(w)] + Sections([Dests]);
      if captures[0].Some? {
        var w := captures[0].value;
        assert MayJoin(posts, me, {}, w);
        assert [Joins(w)][1..] == [];
        SoundConcat(posts, me, {}, Sections([Dests]), [Joins(w)]);
        SoundConcat(posts, me, {}, Sections([Dests]) + [Joins(w)], Sections([Dests]));
      }
      CapturesSound(roles, me, captures[1..]);
      SoundConcat(posts, me, {}, first, Captures(captures[1..]));
    }
  }

  // A scan or trigger thread: it joins workers, and in its done-callback at most the other
  // executor of its own task.
  lemma ExecutorSound(roles: seq<Role>, i: ThreadId)
    requires WellNamed(roles) && i < |roles| && roles[i].Executor?
    ensures Sound(Posts(roles), PostOf(roles[i]), {}, Blocks(roles, i, roles[i]))
  {
    CapturesSound(roles, PostOf(roles[i]), roles[i].captures);
    DeactivateSound(roles, i, roles[i].call);
    SoundConcat(Posts(roles), PostOf(roles[i]), {}, Captures(roles[i].captures), Deactivate(roles, i, roles[i].call));
  }

  lemma HardwareSound(posts: seq<Post>, me: Post, setUp: seq<SetUp>)
    requires me.floor <= 1
    ensures Sound(posts, me, {}, Sections([Reg]) + [Locked(Hw, Sections([Reg]) + SetsUp(setUp))])
  {
    assert {} + {Hw} == {Hw};
    SectionsSound(posts, me, {}, [Reg]);
    SectionsSound(posts, me, {Hw}, [Reg]);
    SetsUpSound(posts, me, setUp);
    SoundConcat(posts, me, {Hw}, Sections([Reg]), SetsUp(setUp));
    LockedSound(posts, me, {}, Hw, Sections([Reg]) + SetsUp(setUp));
    SoundConcat(posts, me, {}, Sections([Reg]), [Locked(Hw, Sections([Reg]) + SetsUp(setUp))]);
  }

  // activateTask, whatever it sets up, reopening devices included, and however it ends.
  lemma ActivateSound(roles: seq<Role>, i: ThreadId)
    requires WellNamed(roles) && i < |roles| && roles[i].Activating?
    ensures Sound(Posts(roles), PostOf(roles[i]), {}, Blocks(roles, i, roles[i]))
  {
    var posts, me := Posts(roles), PostOf(roles[i]);
    SectionsSound(posts, me, {}, [Reg]);
    match roles[i].a
    case Refused =>
    case Cancelled(setUp) => HardwareSound(posts, me, setUp);
    case Fails(setUp, call) =>
      HardwareSound(posts, me, setUp);
      DeactivateSound(roles, i, call);
      SoundConcat(posts, me, {}, Sections([Reg]) + [Locked(Hw, Sections([Reg]) + SetsUp(setUp))],
                  Deactivate(roles, i, call));
    case Runs(setUp) =>
      HardwareSound(posts, me, setUp);
      SectionsSound(posts, me, {}, [Rt, Reg]);
      NotifySound(posts, me);
      var first := Sections([Reg]) + [Locked(Hw, Sections([Reg]) + SetsUp(setUp))];
      SoundConcat(posts, me, {}, first, Sections([Rt, Reg]));
      SoundConcat(posts, me, {}, first + Sections([Rt, Reg]), Notify());
  }

  lemma PartSound(roles: seq<Role>, i: ThreadId, part: Part)
    requires WellNamed(roles) && i < |roles| && roles[i].Accepting?
    requires part.Cancel? ==> part.call in CallsOf(roles[i])
    ensures Sound(Posts(roles), PostOf(roles[i]), {}, PartOf(roles, i, part))
  {
    var posts, me := Posts(roles), PostOf(roles[i]);
    match part
    case Section(l) => SectionsSound(posts, me, {}, [l]);
    case Cancel(call) => DeactivateSound(roles, i, call);
    case Retune(tuned) =>
      var locks := if tuned then [Radio, Timeline] else [Radio];
      SectionsSound(posts, me, {} + {Hw}, locks);
      LockedSound(posts, me, {}, Hw, Sections(locks));
    case Announce => NotifySound(posts, me);
  }

  lemma {:induction false} PartsSound(roles: seq<Role>, i: ThreadId, parts: seq<Part>)
    requires WellNamed(roles) && i < |roles| && roles[i].Accepting?
    requires forall call :: call in CallsIn(parts) ==> call in CallsOf(roles[i])
    ensures Sound(Posts(roles), PostOf(roles[i]), {}, PartsOf(roles, i, parts))
    decreases parts
  {
    if parts == [] {
    } else {
      assert parts[0].Cancel? ==> parts[0].call in CallsIn(parts);
      PartSound(roles, i, parts[0]);
      PartsSound(roles, i, parts[1..]);
      SoundConcat(Posts(roles), PostOf(roles[i]), {}, PartOf(roles, i, parts[0]), PartsOf(roles, i, parts[1..]));
    }
  }

  // tryAccept, whatever it does and in whatever order.
  lemma AcceptSound(roles: seq<Role>, i: ThreadId)
    requires WellNamed(roles) && i < |roles| && roles[i].Accepting?
    ensures Sound(Posts(roles), PostOf(roles[i]), {}, Blocks(roles, i, roles[i]))
  {
    PartsSound(roles, i, roles[i].parts);
  }

  lemma SnapshotSound(posts: seq<Post>, me: Post, before: seq<Quick>, setUp: seq<SetUp>)
    requires me.floor <= 1
    ensures Sound(posts, me, {}, Sections(before)
                                 + [Locked(Hw, SetsUp(setUp)), Locked(Hw, Sections([Radio, Radio]))] + Sections([Fft]))
  {
    assert {} + {Hw} == {Hw};
    SectionsSound(posts, me, {}, before);
    SetsUpSound(posts, me, setUp);
    SectionsSound(posts, me, {Hw}, [Radio, Radio]);
    LockedSound(posts, me, {}, Hw, Sections([Radio, Radio]));
    var hw := [Locked(Hw, SetsUp(setUp)), Locked(Hw, Sections([Radio, Radio]))];
    assert hw[1..] == [Locked(Hw, Sections([Radio, Radio]))];
    SectionsSound(posts, me, {}, [Fft]);
    SoundConcat(posts, me, {}, Sections(before), hw);
    SoundConcat(posts, me, {}, Sections(before) + hw, Sections([Fft]));
  }

  lemma WatchSound(roles: seq<Role>, i: ThreadId)
    requires WellNamed(roles) && i < |roles| && roles[i].Watching?
    ensures Sound(Posts(roles), PostOf(roles[i]), {}, Blocks(roles, i, roles[i]))
  {
    var posts, me, r := Posts(roles), PostOf(roles[i]), roles[i];
    SectionsSound(posts, me, {}, [Reg]);
    DeactivateAllSound(roles, i, r.expired);
    OpensSound(posts, me, {}, r.retried);
    SoundConcat(posts, me, {}, Sections([Reg]), DeactivateAll(roles, i, r.expired));
    SoundConcat(posts, me, {}, Sections([Reg]) + DeactivateAll(roles, i, r.expired), Opens(r.retried));
  }

  lemma StopSound(roles: seq<Role>, i: ThreadId)
    requires WellNamed(roles) && i < |roles| && roles[i].Stopping?
    ensures Sound(Posts(roles), PostOf(roles[i]), {}, Blocks(roles, i, roles[i]))
  {
    SectionsSound(Posts(roles), PostOf(roles[i]), {}, [Reg]);
    DeactivateSound(roles, i, roles[i].call);
    SoundConcat(Posts(roles), PostOf(roles[i]), {}, Sections([Reg]), Deactivate(roles, i, roles[i].call));
  }

  // Shutdown first joins the loops, and the snapshot threads under snapshot_mu_.
  lemma JoinedSound(roles: seq<Role>, i: ThreadId)
    requires WellNamed(roles) && i < |roles| && roles[i].Closing?
    ensures Sound(Posts(roles), PostOf(roles[i]), {},
                  JoinsOf(roles[i].loops) + [Locked(Snapshots, JoinsOf(roles[i].snapshots))])
    ensures Sound(Posts(roles), PostOf(roles[i]), {}, JoinsOf(roles[i].activations))
  {
    var posts, me, r := Posts(roles), PostOf(roles[i]), roles[i];
    assert {} + {Snapshots} == {Snapshots};
    forall t | t in r.loops ensures MayJoin(posts, me, {}, t) {
      assert RunsOnce(roles, t);
    }
    JoinsSound(posts, me, {}, r.loops);
    forall t | t in r.snapshots ensures MayJoin(posts, me, {Snapshots}, t) {
      assert roles[t].Snapshot?;
    }
    JoinsSound(posts, me, {Snapshots}, r.snapshots);
    LockedSound(posts, me, {}, Snapshots, JoinsOf(r.snapshots));
    SoundConcat(posts, me, {}, JoinsOf(r.loops), [Locked(Snapshots, JoinsOf(r.snapshots))]);
    forall t | t in r.activations ensures MayJoin(posts, me, {}, t) {
      assert roles[t].Activating?;
    }
    JoinsSound(posts, me, {}, r.activations);
  }

  // It cancels and sweeps, waits for the activations with no lock held, sweeps once more,
  // and closes every device.
  lemma CloseSound(roles: seq<Role>, i: ThreadId)
    requires WellNamed(roles) && i < |roles| && roles[i].Closing?
    ensures Sound(Posts(roles), PostOf(roles[i]), {}, Blocks(roles, i, roles[i]))
  {
    var posts, me, r := Posts(roles), PostOf(roles[i]), roles[i];
    var calls := CallsOf(r);
    assert calls == r.cancels + Concat(r.rounds) + r.last;
    assert Concat([r.last]) == r.last by { assert [r.last][1..] == []; }
    JoinedSound(roles, i);
    var a := JoinsOf(r.loops) + [Locked(Snapshots, JoinsOf(r.snapshots))];
    SectionsSound(posts, me, {}, [Reg]);
    DeactivateAllSound(roles, i, r.cancels);
    SweepsSound(roles, i, r.rounds);
    SweepsSound(roles, i, [r.last]);
    OpensSound(posts, me, {}, r.devices);
    SoundConcat(posts, me, {}, a, Sections([Reg]));
    var b := a + Sections([Reg]);
    SoundConcat(posts, me, {}, b, DeactivateAll(roles, i, r.cancels));
    var c := b + DeactivateAll(roles, i, r.cancels);
    SoundConcat(posts, me, {}, c, Sweeps(roles, i, r.rounds));
    var d := c + Sweeps(roles, i, r.rounds);
    SoundConcat(posts, me, {}, d, JoinsOf(r.activations));
    var e := d + JoinsOf(r.activations);
    SoundConcat(posts, me, {}, e, Sweeps(roles, i, [r.last]));
    SoundConcat(posts, me, {}, e + Sweeps(roles, i, [r.last]), Opens(r.devices));
  }

  lemma EachIsSound(roles: seq<Role>, i: ThreadId)
    requires WellNamed(roles) && i < |roles|
    ensures Sound(Posts(roles), PostOf(roles[i]), {}, Blocks(roles, i, roles[i]))
  {
    var posts, me := Posts(roles), PostOf(roles[i]);
    match roles[i]
    case Worker(packets) => PacketsSound(posts, me, packets);
    case Executor(_, _, _) => ExecutorSound(roles, i);
    case Activating(_) => ActivateSound(roles, i);
    case Accepting(_) => AcceptSound(roles, i);
    case Snapshot(before, setUp) => SnapshotSound(posts, me, before, setUp);
    case Scheduling => SectionsSound(posts, me, {}, [Reg]);
    case Watching(_, _) => WatchSound(roles, i);
    case Querying(ls) => SectionsSound(posts, me, {}, ls);
    case Stopping(_) => StopSound(roles, i);
    case StartingSnapshot => SectionsSound(posts, me, {}, [Snapshots]);
    case OpeningDevices(devices) => OpensSound(posts, me, {}, devices);
    case Closing(_, _, _, _, _, _, _) => CloseSound(roles, i);
  }

  // ---- All of them together ----

  lemma SystemIsDisciplined(roles: seq<Role>)
    requires WellNamed(roles)
    ensures Disciplined(Posts(roles), Threads(roles))
  {
    var posts, ts := Posts(roles), Threads(roles);
    forall i | 0 <= i < |ts|
      ensures Keeps(posts, posts[i], ts[i].held, ts[i].rest, {})
    {
      EachIsSound(roles, i);
      SoundKeeps(posts, PostOf(roles[i]), {}, Blocks(roles, i, roles[i]));
    }
  }

  // Any number of threads of these kinds, in any state they can reach: never are all those
  // that have started and not finished blocked.
  lemma NeverDeadlocked(roles: seq<Role>, picks: seq<Pick>, ts: seq<Thread>)
    requires WellNamed(roles) && Reaches(Threads(roles), picks, ts)
    ensures !Stuck(ts)
  {
    SystemIsDisciplined(roles);
    SomeThreadProceeds(Posts(roles), Threads(roles), picks, ts);
  }
}
