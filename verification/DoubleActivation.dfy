// One task and several activation threads. schedulerTick collects a task while it is
// SCHEDULED, and the thread it starts marks the task PENDING only later, so the next
// tick can start a second one (src/ResourceManager.cpp:1704-1721, 1254-1263).
module DoubleActivation {
  import opened Basics
  import opened Lifecycle
  import LifecycleShutdown

  type ThreadId = nat

  datatype Progress = NotMarked | Marked | Finished

  datatype Race = Race(phase: Phase, collected: bool, threads: map<ThreadId, Progress>)

  datatype Move =
    | TickCollects
    | TickLaunches(a: ThreadId)
    | Marks(a: ThreadId)
    | Runs(a: ThreadId)
    | Claims(end: End, reason: string)

  predicate Possible(r: Race, m: Move)
  {
    match m
    case TickCollects => !r.collected && r.phase == Scheduled
    case TickLaunches(a) => r.collected && a !in r.threads
    case Marks(a) => a in r.threads && r.threads[a] == NotMarked
    case Runs(a) => a in r.threads && r.threads[a] == Marked
    case Claims(_, _) => !r.phase.Terminal?
  }

  function After(r: Race, m: Move): Race
  {
    match m
    case TickCollects => r.(collected := true)
    case TickLaunches(a) => r.(collected := false, threads := r.threads[a := NotMarked])
    case Marks(a) =>
      if r.phase.Terminal? then r.(threads := r.threads[a := Finished])
      else r.(phase := Pending, threads := r.threads[a := Marked])
    case Runs(a) =>
      Race(if r.phase.Terminal? then r.phase else Running, r.collected, r.threads[a := Finished])
    case Claims(end, reason) => r.(phase := Terminal(end, reason))
  }

  ghost predicate Plays(r: Race, moves: seq<Move>, r': Race)
    decreases moves
  {
    if moves == [] then r == r'
    else Possible(r, moves[0]) && Plays(After(r, moves[0]), moves[1..], r')
  }

  const ACCEPTED := Race(Scheduled, false, map[])

  // A task's phase goes back in a step exactly when a second thread marks a RUNNING task.
  lemma RegressesOnlyAtMark(r: Race, m: Move)
    requires Possible(r, m)
    ensures Stage(After(r, m).phase) < Stage(r.phase) <==> m.Marks? && r.phase == Running
  {
  }

  // That happens: two ticks before the first thread has marked the task.
  const TWO_TICKS := [TickCollects, TickLaunches(0), TickCollects, TickLaunches(1), Marks(0), Runs(0)]

  lemma TwoTicksRegress()
    ensures exists r, a :: Plays(ACCEPTED, TWO_TICKS, r)
                           && Possible(r, Marks(a)) && r.phase == Running && After(r, Marks(a)).phase == Pending
  {
    var r1 := After(ACCEPTED, TickCollects);
    var r2 := After(r1, TickLaunches(0));
    var r3 := After(r2, TickCollects);
    var r4 := After(r3, TickLaunches(1));
    var r5 := After(r4, Marks(0));
    var r6 := After(r5, Runs(0));
    assert Plays(r6, [], r6);
    assert Plays(r5, [Runs(0)], r6);
    assert Plays(r4, [Marks(0), Runs(0)], r6);
    assert Plays(r3, [TickLaunches(1), Marks(0), Runs(0)], r6);
    assert Plays(r2, [TickCollects, TickLaunches(1), Marks(0), Runs(0)], r6);
    assert Plays(r1, [TickLaunches(0), TickCollects, TickLaunches(1), Marks(0), Runs(0)], r6);
    assert Plays(ACCEPTED, TWO_TICKS, r6);
    assert Possible(r6, Marks(1));
  }

  // ---- When a phase can still go back ----

  function Unmarked(r: Race): set<ThreadId>
  {
    set a | a in r.threads && r.threads[a] == NotMarked
  }

  // Threads that have yet to mark the task, one about to be started included.
  function Spare(r: Race): nat
  {
    |Unmarked(r)| + if r.collected then 1 else 0
  }

  predicate AnyMarked(r: Race)
  {
    exists a :: a in r.threads && r.threads[a] == Marked
  }

  // What can be told from a state: a live task that is still SCHEDULED, or a thread to spare
  // besides the one that makes it RUNNING.
  predicate MayGoBack(r: Race)
  {
    match r.phase
    case Scheduled => true
    case Pending => Spare(r) >= 2 || (Spare(r) >= 1 && AnyMarked(r))
    case Running => Spare(r) >= 1
    case Terminal(_, _) => false
  }

  // Some run from here takes a RUNNING task back to PENDING.
  ghost predicate GoesBack(r: Race)
  {
    exists moves, r', a :: Plays(r, moves, r') && Possible(r', Marks(a)) && r'.phase == Running
  }

  lemma BackLater(r: Race, m: Move)
    requires Possible(r, m) && GoesBack(After(r, m))
    ensures GoesBack(r)
  {
    var moves, r', a :| Plays(After(r, m), moves, r') && Possible(r', Marks(a)) && r'.phase == Running;
    assert ([m] + moves)[1..] == moves;
    assert Plays(r, [m] + moves, r');
  }

  lemma FreshThread(r: Race) returns (a: ThreadId)
    ensures a !in r.threads
  {
    a := LifecycleShutdown.Bound(r.threads.Keys);
  }

  lemma RunningGoesBack(r: Race)
    requires r.phase == Running && Spare(r) >= 1
    ensures GoesBack(r)
  {
    if Unmarked(r) != {} {
      var a := PickElement(Unmarked(r));
      assert Plays(r, [], r) && Possible(r, Marks(a));
    } else {
      var a := FreshThread(r);
      var r' := After(r, TickLaunches(a));
      assert Plays(r', [], r') && Possible(r', Marks(a));
      BackLater(r, TickLaunches(a));
    }
  }

  lemma PendingGoesBack(r: Race)
    requires r.phase == Pending && Spare(r) >= 1 && AnyMarked(r)
    ensures GoesBack(r)
  {
    var b :| b in r.threads && r.threads[b] == Marked;
    assert Unmarked(After(r, Runs(b))) == Unmarked(r);
    RunningGoesBack(After(r, Runs(b)));
    BackLater(r, Runs(b));
  }

  // One of the threads to spare marks the task.
  lemma MarkGoesBack(r: Race)
    requires (r.phase == Pending || r.phase == Scheduled) && Unmarked(r) != {} && Spare(r) >= 2
    ensures GoesBack(r)
  {
    var a := PickElement(Unmarked(r));
    var r' := After(r, Marks(a));
    assert Unmarked(r') == Unmarked(r) - {a};
    assert r'.threads[a] == Marked;
    PendingGoesBack(r');
    BackLater(r, Marks(a));
  }

  lemma CollectedGoesBack(r: Race)
    requires r.phase == Scheduled && r.collected
    ensures GoesBack(r)
  {
    var a := FreshThread(r);
    var r1 := After(r, TickLaunches(a));
    var r2 := After(r1, TickCollects);
    assert a in Unmarked(r2);
    MarkGoesBack(r2);
    BackLater(r1, TickCollects);
    BackLater(r, TickLaunches(a));
  }

  // Two ticks before the first thread has marked the task.
  lemma ScheduledGoesBack(r: Race)
    requires r.phase == Scheduled
    ensures GoesBack(r)
  {
    if r.collected {
      CollectedGoesBack(r);
    } else {
      CollectedGoesBack(After(r, TickCollects));
      BackLater(r, TickCollects);
    }
  }

  // How a move changes the number of threads to spare.
  lemma SpareAfter(r: Race, m: Move)
    requires Possible(r, m)
    ensures m.TickLaunches? ==> Spare(After(r, m)) == Spare(r)
    ensures m.Marks? ==> Spare(r) >= 1 && Spare(After(r, m)) == Spare(r) - 1
    ensures m.Runs? || m.Claims? ==> Spare(After(r, m)) == Spare(r)
  {
    UnmarkedAfter(r, m);
  }

  lemma UnmarkedAfter(r: Race, m: Move)
    requires Possible(r, m)
    ensures m.TickLaunches? ==> Unmarked(After(r, m)) == Unmarked(r) + {m.a} && m.a !in Unmarked(r)
    ensures m.Marks? ==> Unmarked(After(r, m)) == Unmarked(r) - {m.a} && m.a in Unmarked(r)
    ensures m.Runs? || m.Claims? ==> Unmarked(After(r, m)) == Unmarked(r)
  {
  }

  lemma StaysAhead(r: Race, m: Move)
    requires !MayGoBack(r) && Possible(r, m)
    ensures !MayGoBack(After(r, m)) && !(m.Marks? && r.phase == Running)
  {
    SpareAfter(r, m);
    if m.TickLaunches? && AnyMarked(After(r, m)) {
      var b :| b in After(r, m).threads && After(r, m).threads[b] == Marked;
      assert b in r.threads && r.threads[b] == Marked;
    }
  }

  lemma {:induction false} RunStaysAhead(r: Race, moves: seq<Move>, r': Race)
    requires !MayGoBack(r) && Plays(r, moves, r')
    ensures !MayGoBack(r')
    decreases moves
  {
    if moves == [] {
    } else {
      StaysAhead(r, moves[0]);
      RunStaysAhead(After(r, moves[0]), moves[1..], r');
    }
  }

  // From any state: some run takes the phase back exactly if the task may go back. So it
  // can from the moment a task is accepted for later, and no more once it is RUNNING with
  // no thread to spare, or has ended.
  lemma GoesBackExactlyWhen(r: Race)
    ensures GoesBack(r) <==> MayGoBack(r)
  {
    if MayGoBack(r) {
      match r.phase
      case Scheduled => ScheduledGoesBack(r);
      case Running => RunningGoesBack(r);
      case Pending =>
        if AnyMarked(r) {
          PendingGoesBack(r);
        } else {
          MarkGoesBack(r);
        }
    } else if GoesBack(r) {
      var moves, r', a :| Plays(r, moves, r') && Possible(r', Marks(a)) && r'.phase == Running;
      RunStaysAhead(r, moves, r');
      StaysAhead(r', Marks(a));
    }
  }

  // A RUNNING task has a thread that is done with it.
  ghost predicate OneThread(r: Race)
  {
    && (forall a, b :: a in r.threads && b in r.threads ==> a == b)
    && (r.phase == Running ==> exists a :: a in r.threads && r.threads[a] == Finished)
  }

  // With one activation thread the phase never goes back, over any run.
  lemma {:induction false} OneThreadNeverRegresses(r: Race, moves: seq<Move>, r': Race)
    requires OneThread(r) && Plays(r, moves, r')
    requires forall a, b :: a in r'.threads && b in r'.threads ==> a == b
    ensures Stage(r.phase) <= Stage(r'.phase)
    decreases moves
  {
    if moves == [] {
    } else {
      ThreadsStay(After(r, moves[0]), moves[1..], r');
      assert OneThread(After(r, moves[0])) by {
        if moves[0].Runs? {
          assert After(r, moves[0]).threads[moves[0].a] == Finished;
        } else if r.phase == Running && After(r, moves[0]).phase == Running {
          var a :| a in r.threads && r.threads[a] == Finished;
          assert a in After(r, moves[0]).threads && After(r, moves[0]).threads[a] == Finished;
        }
      }
      OneThreadNeverRegresses(After(r, moves[0]), moves[1..], r');
    }
  }

  lemma {:induction false} ThreadsStay(r: Race, moves: seq<Move>, r': Race)
    requires Plays(r, moves, r')
    ensures r.threads.Keys <= r'.threads.Keys
    decreases moves
  {
    if moves == [] {
    } else {
      ThreadsStay(After(r, moves[0]), moves[1..], r');
    }
  }
}
