// Where the promises of the lifecycle protocol stop: concrete runs in which a hypothesis
// of the general theorems is missing.
module LifecycleLimits {
  import opened Basics
  import opened Lifecycle
  import opened LifecycleStreams
  import UdpPortPool

  // s' can be reached from s by some steps.
  ghost predicate Reach(s: State, s': State)
  {
    exists steps :: Leads(s, steps, s')
  }

  lemma {:induction false} LeadsOn(s: State, steps: seq<Step>, mid: State, step: Step)
    requires Leads(s, steps, mid) && Can(mid, step)
    ensures Leads(s, steps + [step], Do(mid, step))
    decreases steps
  {
    if steps == [] {
      assert [step][1..] == [];
      assert Leads(Do(mid, step), [], Do(mid, step));
    } else {
      LeadsOn(Do(s, steps[0]), steps[1..], mid, step);
      assert (steps + [step])[1..] == steps[1..] + [step];
    }
  }

  lemma Take(s: State, mid: State, step: Step)
    requires Reach(s, mid) && Can(mid, step)
    ensures Reach(s, Do(mid, step))
  {
    var steps :| Leads(s, steps, mid);
    LeadsOn(s, steps, mid, step);
  }

  ghost predicate Admissible(s: State, t: TaskId, record: Task, n: nat)
  {
    && s.closer.Up? && s.acceptor.Idle? && t !in s.ledger.registry
    && record.phase == Pending && record.devices == {0}
    && n <= |s.ledger.pool.free| && record.poolPorts == Elements(UdpPortPool.Draw(s.ledger.pool, n).1)
    && RoomForOne(s)
  }

  // One request accepted, with nothing in between.
  ghost function Admitted(s: State, t: TaskId, record: Task, n: nat): State
    requires Admissible(s, t, record, n)
  {
    s.(ledger := s.ledger.(registry := s.ledger.registry[t := record],
                           pool := UdpPortPool.Draw(s.ledger.pool, n).0,
                           slots := s.ledger.slots + {(0, t)}),
       acts := s.acts[t := Start])
  }

  ghost predicate RoomForOne(s: State)
  {
    CountByPhase(s.ledger.registry, Scheduled) + CountByPhase(s.ledger.registry, Pending)
    + CountByPhase(s.ledger.registry, Running) < s.cap
  }

  // The three counts, with nothing in between.
  lemma Count(s0: State, s: State)
    requires Reach(s0, s) && s.closer.Up? && s.acceptor.Idle? && RoomForOne(s)
    ensures Reach(s0, s.(acceptor := Cleared))
  {
    var s1 := Do(s, OfAcceptor(CountScheduled));
    Take(s0, s, OfAcceptor(CountScheduled));
    var s2 := Do(s1, OfAcceptor(CountPending));
    Take(s0, s1, OfAcceptor(CountPending));
    Take(s0, s2, OfAcceptor(CountRunning));
    assert Do(s2, OfAcceptor(CountRunning)) == s.(acceptor := Cleared);
  }

  lemma Admit(s0: State, s: State, t: TaskId, record: Task, n: nat)
    requires Reach(s0, s) && Admissible(s, t, record, n)
    ensures Reach(s0, Admitted(s, t, record, n))
  {
    Count(s0, s);
    AdmitCleared(s0, s, s.(acceptor := Cleared), t, record, n);
  }

  lemma AdmitCleared(s0: State, s: State, s3: State, t: TaskId, record: Task, n: nat)
    requires Admissible(s, t, record, n) && Reach(s0, s3) && s3 == s.(acceptor := Cleared)
    ensures Reach(s0, Admitted(s, t, record, n))
  {
    var s4 := Do(s3, OfAcceptor(Draw(t, record, n)));
    Take(s0, s3, OfAcceptor(Draw(t, record, n)));
    var s5 := Do(s4, OfAcceptor(Insert(0)));
    Take(s0, s4, OfAcceptor(Insert(0)));
    var s6 := Do(s5, OfAcceptor(Register));
    Take(s0, s5, OfAcceptor(Register));
    var s7 := Do(s6, OfAcceptor(Spawn));
    Take(s0, s6, OfAcceptor(Spawn));
    assert s7 == Admitted(s, t, record, n);
  }

  // A whole call of deactivateTask for a live task, with nothing in between.
  lemma Cancel(s0: State, s: State, t: TaskId, d: CallId) returns (s': State)
    requires Reach(s0, s) && s.hw == None && d !in s.calls
    requires t in s.ledger.registry && !Ended(s.ledger, t)
    ensures Reach(s0, s') && s'.radio == (if t in s.radio.runtimes then DropRuntime(s.radio, t) else s.radio)
    ensures s'.ledger.pool == UdpPortPool.GiveBack(
                                s.ledger.pool, s.ledger.registry[t].poolPorts + s.ledger.registry[t].clientPorts)
    ensures s'.ledger.registry == s.ledger.registry[t := s.ledger.registry[t].(phase := Terminal(Cancelled, ""))]
    ensures s'.hw == None && s'.calls.Keys == s.calls.Keys + {d}
    ensures s'.acceptor == s.acceptor && s'.acts == s.acts && s'.closer == s.closer
  {
    var s1 := Do(s, Begin(d, t, Cancelled, ""));
    Take(s0, s, Begin(d, t, Cancelled, ""));
    var s2 := Do(s1, OfCall(d, ClaimEnd));
    Take(s0, s1, OfCall(d, ClaimEnd));
    s' := TearDownAndRelease(s0, s2, t, d);
  }

  lemma TearDownAndRelease(s0: State, s: State, t: TaskId, d: CallId) returns (s': State)
    requires Reach(s0, s) && s.hw == None && d in s.calls && t in s.ledger.registry
    requires s.calls[d].task == t && s.calls[d].pc == WantTeardown(true)
    ensures Reach(s0, s') && s'.radio == (if t in s.radio.runtimes then DropRuntime(s.radio, t) else s.radio)
    ensures s'.ledger.pool == UdpPortPool.GiveBack(
                                s.ledger.pool, s.ledger.registry[t].poolPorts + s.ledger.registry[t].clientPorts)
    ensures s'.ledger.registry == s.ledger.registry && s'.hw == None && s'.calls.Keys == s.calls.Keys
    ensures s'.acceptor == s.acceptor && s'.acts == s.acts && s'.closer == s.closer
  {
    var s1 := Do(s, OfCall(d, TearDown));
    Take(s0, s, OfCall(d, TearDown));
    s' := Do(s1, OfCall(d, ReleaseAll));
    Take(s0, s1, OfCall(d, ReleaseAll));
  }

  // ---- A client port inside the pool's range ----

  lemma ReachInit(ports: set<int>, cap: int)
    ensures Reach(Init(ports, cap), Init(ports, cap))
  {
    assert Leads(Init(ports, cap), [], Init(ports, cap));
  }

  // A client that names a port of the pool as its own frees it for others when its task
  // ends, although another live task is streaming to it.
  lemma ClientPortFreesAnothersPort()
    ensures exists s :: Reach(Init({0}, 2), s) && 0 in s.ledger.registry && !Ended(s.ledger, 0)
                        && s.ledger.registry[0].poolPorts == {0} && 0 in s.ledger.pool.free
  {
    var s0 := Init({0}, 2);
    ReachInit({0}, 2);
    var a := Task(Pending, {0}, 0, true, {0}, {});
    var b := Task(Pending, {0}, 0, true, {}, {0});
    UdpPortPool.LowestPorts({0}, 1);
    assert UdpPortPool.Draw(s0.ledger.pool, 1).1 == [0] by {
      var out := UdpPortPool.Lowest({0}, 1);
      assert out[0] in Elements(out);
    }
    assert InPhase(map[], Scheduled) == InPhase(map[], Pending) == InPhase(map[], Running) == {};
    Admit(s0, s0, 0, a, 1);
    var s1 := Admitted(s0, 0, a, 1);
    assert InPhase(s1.ledger.registry, Pending) == {0};
    assert InPhase(s1.ledger.registry, Scheduled) == InPhase(s1.ledger.registry, Running) == {};
    assert UdpPortPool.Draw(s1.ledger.pool, 0).1 == [];
    Admit(s0, s1, 1, b, 0);
    var s2 := Admitted(s1, 1, b, 0);
    var s3 := Cancel(s0, s2, 1, 0);
    assert s3.ledger.registry[0] == a;
  }

  // ---- A socket that cannot be set up ----

  ghost predicate Fresh(s: State, t: TaskId)
  {
    && t in s.acts && s.acts[t] == Start && t in s.ledger.registry
    && s.ledger.registry[t].phase == Pending && s.ledger.registry[t].sharedLo && s.ledger.registry[t].devices == {0}
    && s.hw == None
  }

  function Entered(s: State, t: TaskId): State
    requires t in s.ledger.registry
  {
    var ch := s.ledger.registry[t].channel;
    s.(hw := Some(t), acts := s.acts[t := if ch in s.radio.channels then Join(s.radio.channels[ch]) else Open])
  }

  // The first part of an activation: up to the hardware section and the channel lookup.
  lemma EnterHardware(s0: State, s: State, t: TaskId)
    requires Reach(s0, s) && Fresh(s, t)
    ensures Reach(s0, Entered(s, t))
  {
    var s1 := Do(s, OfAct(t, Mark));
    Take(s0, s, OfAct(t, Mark));
    assert s1 == s.(acts := s.acts[t := WantHw]) by {
      assert s1.ledger.registry == s.ledger.registry;
    }
    LookUpChannel(s0, s1, t);
    assert Entered(s1, t).acts == Entered(s, t).acts;
  }

  lemma LookUpChannel(s0: State, s: State, t: TaskId)
    requires Reach(s0, s) && t in s.acts && s.acts[t] == WantHw && s.hw == None
    requires t in s.ledger.registry && s.ledger.registry[t].phase == Pending && s.ledger.registry[t].sharedLo
    ensures Reach(s0, Entered(s, t))
  {
    var s1 := s.(hw := Some(t), acts := s.acts[t := Recheck]);
    assert s1 == Do(s, OfAct(t, TakeHw));
    Take(s0, s, OfAct(t, TakeHw));
    var s2 := Do(s1, OfAct(t, CheckAgain));
    Take(s0, s1, OfAct(t, CheckAgain));
    assert s2.acts == s.acts[t := LookUp];
    UseChannel(s0, s2, t);
    assert Entered(s2, t).acts == Entered(s, t).acts;
  }

  lemma UseChannel(s0: State, s: State, t: TaskId)
    requires Reach(s0, s) && t in s.acts && s.acts[t] == LookUp && s.hw == Some(t)
    requires t in s.ledger.registry && s.ledger.registry[t].sharedLo
    ensures Reach(s0, Entered(s, t))
  {
    assert Entered(s, t) == Do(s, OfAct(t, FindChannel));
    Take(s0, s, OfAct(t, FindChannel));
  }

  function Runs(s: State, t: TaskId, r: Radio): State
    requires t in s.ledger.registry
  {
    s.(hw := None, radio := r, ledger := SetPhase(s.ledger, t, Running), acts := s.acts[t := Returning])
  }

  // The last part: leave the hardware section, publish, and run.
  lemma LeaveHardware(s0: State, s: State, t: TaskId)
    requires Reach(s0, s) && t in s.acts && s.acts[t].SetUp? && t in s.ledger.registry && !Ended(s.ledger, t)
    ensures Reach(s0, Runs(s, t, s.radio.(runtimes := s.radio.runtimes[t := s.acts[t].rt])))
  {
    var rt := s.acts[t].rt;
    var s1 := s.(hw := None, acts := s.acts[t := Publish(rt)]);
    assert s1 == Do(s, OfAct(t, DropHw));
    Take(s0, s, OfAct(t, DropHw));
    var s2 := s.(hw := None, acts := s.acts[t := Finish], radio := s.radio.(runtimes := s.radio.runtimes[t := rt]));
    assert s2 == Do(s1, OfAct(t, PublishRuntime)) by {
      assert s2.acts == s1.acts[t := Finish];
    }
    Take(s0, s1, OfAct(t, PublishRuntime));
    assert Runs(s, t, s2.radio) == Do(s2, OfAct(t, SetRunning)) by {
      assert s.acts[t := Returning] == s2.acts[t := Returning];
    }
    Take(s0, s2, OfAct(t, SetRunning));
  }

  // The first task opens the stream of its channel; its own socket works or fails.
  function FirstStream(ch: Channel, t: TaskId, ok: bool): Radio
  {
    Radio(map[t := Runtime(0, false)], map[ch := 0], map[0 := Consumers(if ok then {t} else {}, {})], 1, multiset{})
  }

  lemma FirstStreamOpened(ch: Channel, t: TaskId, ok: bool)
    ensures var r := OpenNew(Radio(map[], map[], map[], 0, multiset{}), true);
            (if ok then AddConsumer(r, 0, t, false) else r).(channels := map[ch := 0])
            == FirstStream(ch, t, ok).(runtimes := map[])
  {
    var r := OpenNew(Radio(map[], map[], map[], 0, multiset{}), true);
    assert r.consumers == map[0 := Consumers({}, {})] && ConsumersOf(r, 0) == Consumers({}, {});
    assert AddConsumer(r, 0, t, false).consumers[0].dests == {t};
    assert AddConsumer(r, 0, t, false).consumers == map[0 := Consumers({t}, {})];
  }

  lemma OpenFirst(s0: State, s: State, t: TaskId, ok: bool)
    requires Reach(s0, s) && Fresh(s, t) && s.radio == Radio(map[], map[], map[], 0, multiset{})
    ensures Reach(s0, Runs(s, t, FirstStream(s.ledger.registry[t].channel, t, ok)))
  {
    EnterHardware(s0, s, t);
    var s1 := Entered(s, t);
    var s2 := Do(s1, OfAct(t, OpenStream(Streaming, false, ok)));
    Take(s0, s1, OfAct(t, OpenStream(Streaming, false, ok)));
    var s3 := Do(s2, OfAct(t, RecordChannel));
    Take(s0, s2, OfAct(t, RecordChannel));
    assert s3.ledger == s.ledger && s3.acts == s.acts[t := SetUp(Runtime(0, false))];
    FirstStreamOpened(s.ledger.registry[t].channel, t, ok);
    LeaveHardware(s0, s3, t);
    assert s3.acts[t := Returning] == s.acts[t := Returning];
  }

  // The second task subscribes to it with a working socket.
  lemma JoinHeard(s0: State, s: State, t: TaskId)
    requires Reach(s0, s) && Fresh(s, t)
    requires s.ledger.registry[t].channel in s.radio.channels && s.radio.channels[s.ledger.registry[t].channel] == 0
    ensures Reach(s0, Runs(s, t, AddConsumer(s.radio, 0, t, false).(
                                   runtimes := s.radio.runtimes[t := Runtime(0, false)])))
  {
    EnterHardware(s0, s, t);
    var s1 := Entered(s, t);
    var s2 := Do(s1, OfAct(t, Subscribe(false, true)));
    Take(s0, s1, OfAct(t, Subscribe(false, true)));
    assert s2.ledger == s.ledger && s2.acts[t] == SetUp(Runtime(0, false));
    LeaveHardware(s0, s2, t);
    assert s2.acts[t := Returning] == s.acts[t := Returning];
  }

  // The first task runs, heard or not.
  lemma FirstRuns(record: Task, ok: bool) returns (s: State)
    requires record == Task(Pending, {0}, 0, true, {}, {})
    ensures Reach(Init({}, 2), s) && s.hw == None && s.calls == map[]
    ensures s.acceptor == Idle && s.closer == Up && s.cap == 2
    ensures 0 in s.acts && s.acts[0] == Returning
    ensures s.radio == FirstStream(0, 0, ok) && s.ledger.registry == map[0 := record.(phase := Running)]
  {
    var s0 := Init({}, 2);
    ReachInit({}, 2);
    assert UdpPortPool.Draw(s0.ledger.pool, 0).1 == [];
    assert InPhase(map[], Scheduled) == InPhase(map[], Pending) == InPhase(map[], Running) == {};
    Admit(s0, s0, 0, record, 0);
    var s1 := Admitted(s0, 0, record, 0);
    OpenFirst(s0, s1, 0, ok);
    s := Runs(s1, 0, FirstStream(0, 0, ok));
  }

  // Both tasks run on one stream, which only the second consumes.
  lemma BothRun() returns (s: State)
    ensures Reach(Init({}, 2), s) && s.hw == None && s.calls == map[]
    ensures s.radio == Radio(map[0 := Runtime(0, false), 1 := Runtime(0, false)], map[0 := 0],
                             map[0 := Consumers({1}, {})], 1, multiset{})
    ensures 0 in s.ledger.registry && s.ledger.registry[0].phase == Running
    ensures 1 in s.ledger.registry && s.ledger.registry[1].phase == Running
  {
    var s0 := Init({}, 2);
    var record := Task(Pending, {0}, 0, true, {}, {});
    var s1 := FirstRuns(record, false);
    assert InPhase(s1.ledger.registry, Running) == {0};
    assert InPhase(s1.ledger.registry, Scheduled) == InPhase(s1.ledger.registry, Pending) == {};
    assert UdpPortPool.Draw(s1.ledger.pool, 0).1 == [];
    Admit(s0, s1, 1, record, 0);
    s := SecondRuns(s0, Admitted(s1, 1, record, 0), record);
  }

  lemma SecondRuns(s0: State, s: State, record: Task) returns (s': State)
    requires record == Task(Pending, {0}, 0, true, {}, {})
    requires Reach(s0, s) && s.radio == FirstStream(0, 0, false) && s.hw == None && s.calls == map[]
    requires 1 in s.acts && s.acts[1] == Start
    requires s.ledger.registry == map[0 := record.(phase := Running), 1 := record]
    ensures Reach(s0, s') && s'.hw == None && s'.calls == map[]
    ensures s'.radio == Radio(map[0 := Runtime(0, false), 1 := Runtime(0, false)], map[0 := 0],
                              map[0 := Consumers({1}, {})], 1, multiset{})
    ensures s'.ledger.registry == map[0 := record.(phase := Running), 1 := record.(phase := Running)]
  {
    JoinHeard(s0, s, 1);
    s' := Runs(s, 1, AddConsumer(s.radio, 0, 1, false).(runtimes := s.radio.runtimes[1 := Runtime(0, false)]));
    assert s'.radio.consumers[0].dests == {1};
    assert s'.radio.consumers == map[0 := Consumers({1}, {})];
    assert s'.radio.runtimes == map[0 := Runtime(0, false), 1 := Runtime(0, false)];
  }

  // When a consumer's socket cannot be set up the task still runs and counts on its
  // stream; the stream is then closed under it, and closed again when it ends.
  lemma LostSocketClosesTwice()
    ensures exists s, s' :: Reach(Init({}, 2), s) && Reach(Init({}, 2), s')
                            && Holds(s, 0, 0) && s.radio.closes[0] == 1 && s'.radio.closes[0] == 2
  {
    var s0 := Init({}, 2);
    var s := BothRun();
    DroppedInTurn(s.radio);
    var s1 := Cancel(s0, s, 1, 0);
    assert Holds(s1, 0, 0);
    var s2 := Cancel(s0, s1, 0, 1);
  }

  lemma DroppedInTurn(r: Radio)
    requires r == Radio(map[0 := Runtime(0, false), 1 := Runtime(0, false)], map[0 := 0],
                        map[0 := Consumers({1}, {})], 1, multiset{})
    ensures var r' := DropRuntime(r, 1);
            r'.closes == multiset{0} && r'.runtimes == map[0 := Runtime(0, false)]
            && DropRuntime(r', 0).closes == multiset{0, 0}
  {
    assert 0 in ChannelsOn(r, 0) && ChannelsOn(r, 0) == {0};
    var r' := DropRuntime(r, 1);
    assert r' == Radio(map[0 := Runtime(0, false)], map[], map[0 := Consumers({}, {})], 1, multiset{0});
    assert DropRuntime(r', 0).closes == multiset{0, 0};
  }

  // ---- A conversion that is cut short ----

  // Task 0 was moved to the sub-bands of its stream, but its runtime does not say so yet.
  lemma MovedNotFlagged() returns (s: State)
    ensures Reach(Init({}, 2), s) && s.hw == None && s.calls == map[] && s.closer == Up
    ensures s.acceptor == Converting(map[0 := 0], None, {0})
    ensures 0 in s.ledger.registry && s.ledger.registry[0].phase == Running && 0 in s.acts && s.acts[0] == Returning
    ensures s.radio == Radio(map[0 := Runtime(0, false)], map[0 := 0], map[0 := Consumers({}, {0})], 1, multiset{})
  {
    var s0 := Init({}, 2);
    var record := Task(Pending, {0}, 0, true, {}, {});
    var s1 := FirstRuns(record, true);
    assert InPhase(s1.ledger.registry, Running) == {0};
    assert InPhase(s1.ledger.registry, Scheduled) == InPhase(s1.ledger.registry, Pending) == {};
    Count(s0, s1);
    s := Moved(s0, s1.(acceptor := Cleared));
  }

  lemma Planned(s0: State, s: State) returns (s': State)
    requires Reach(s0, s) && s.closer == Up && s.acceptor == Cleared
    requires s.radio == FirstStream(0, 0, true) && 0 in s.ledger.registry
    requires s.ledger.registry[0].phase == Running && s.ledger.registry[0].sharedLo
    ensures Reach(s0, s') && s' == s.(acceptor := Converting(map[0 := 0], None, {}))
  {
    var s1 := s.(acceptor := Gathered(map[0 := 0]));
    assert AcceptorAfter(s, Gather({0})).cands == map[0 := 0];
    assert s1 == Do(s, OfAcceptor(Gather({0})));
    Take(s0, s, OfAcceptor(Gather({0})));
    s' := s.(acceptor := Converting(map[0 := 0], None, {}));
    assert AcceptorAfter(s1, Check({0})).plan == map[0 := 0];
    assert s' == Do(s1, OfAcceptor(Check({0})));
    Take(s0, s1, OfAcceptor(Check({0})));
  }

  lemma Moved(s0: State, s: State) returns (s': State)
    requires Reach(s0, s) && s.closer == Up && s.acceptor == Cleared
    requires s.radio == FirstStream(0, 0, true) && 0 in s.ledger.registry
    requires s.ledger.registry[0].phase == Running && s.ledger.registry[0].sharedLo
    ensures Reach(s0, s')
    ensures s' == s.(acceptor := Converting(map[0 := 0], None, {0}),
                     radio := s.radio.(consumers := map[0 := Consumers({}, {0})]))
  {
    var s1 := Planned(s0, s);
    var s2 := TakenOut(s0, s1);
    s' := s.(acceptor := Converting(map[0 := 0], None, {0}),
             radio := s.radio.(consumers := map[0 := Consumers({}, {0})]));
    var none: set<TaskId> := {};
    assert none + {0} == {0};
    assert s' == Do(s2, OfAcceptor(MoveIn(true)));
    Take(s0, s2, OfAcceptor(MoveIn(true)));
  }

  lemma TakenOut(s0: State, s: State) returns (s': State)
    requires Reach(s0, s) && s.closer == Up && s.acceptor == Converting(map[0 := 0], None, {})
    requires s.radio == FirstStream(0, 0, true)
    ensures Reach(s0, s')
    ensures s' == s.(acceptor := Converting(map[0 := 0], Some(0), {}),
                     radio := s.radio.(consumers := map[0 := Consumers({}, {})]))
  {
    s' := s.(acceptor := Converting(map[0 := 0], Some(0), {}),
             radio := s.radio.(consumers := map[0 := Consumers({}, {})]));
    var c: set<TaskId> := {0};
    assert c - {0} == {};
    assert s' == Do(s, OfAcceptor(MoveOut(0)));
    Take(s0, s, OfAcceptor(MoveOut(0)));
  }

  // Its teardown before the flag is set looks for it among the plain consumers only. The
  // task is gone, yet still listed, and the stream it was the only one to hold stays open.
  lemma CutShortLeaksStream()
    ensures exists s :: Reach(Init({}, 2), s) && s.acceptor == Cleared
                        && Ended(s.ledger, 0) && s.radio.runtimes == map[]
                        && 0 in ConsumersOf(s.radio, 0).subbands && s.radio.streams == 1 && s.radio.closes[0] == 0
                        && !StreamsOk(s)
  {
    var s0 := Init({}, 2);
    var s1 := MovedNotFlagged();
    LeftBehind(s1.radio);
    var s2 := Cancel(s0, s1, 0, 0);
    assert s2.radio.runtimes == map[];
    var s3 := Do(s2, OfAcceptor(Flag));
    Take(s0, s2, OfAcceptor(Flag));
    assert s3.radio.runtimes == map[];
    assert s3.acts[0] == Returning && Held(s3.acts, s3.radio, 0) == None;
    assert 0 in Everyone(ConsumersOf(s3.radio, 0));
    assert !StreamOk(s3, 0);
  }

  lemma LeftBehind(r: Radio)
    requires r == Radio(map[0 := Runtime(0, false)], map[0 := 0], map[0 := Consumers({}, {0})], 1, multiset{})
    ensures DropRuntime(r, 0) == Radio(map[], map[0 := 0], map[0 := Consumers({}, {0})], 1, multiset{})
  {
    assert 0 in ChannelsOn(r, 0);
    assert DropConsumer(Consumers({}, {0}), 0, false) == Consumers({}, {0});
  }
}
