// Streams when the sockets of consumers may fail: who is still registered, and exactly when
// a stream is closed under a task that holds it, or closed again.
module LifecycleLost {
  import opened Basics
  import opened Lifecycle
  import opened LifecycleBase
  import opened LifecycleStreams
  import opened LifecycleSane

  // A registered consumer holds the stream, and is in the list its runtime says, or will.
  ghost predicate ConsumerHolds(s: State, k: Stream, t: TaskId)
  {
    var held := Held(s.acts, s.radio, t);
    var status := StatusOf(s.acceptor, t);
    && (t in ConsumersOf(s.radio, k).dests ==>
          held.Some? && held.value.stream == k && !held.value.subband && status == Settled)
    && (t in ConsumersOf(s.radio, k).subbands ==>
          held.Some? && held.value.stream == k && (if status == Settled then held.value.subband else status == Moved))
  }

  ghost predicate ConsumersHold(s: State)
  {
    (forall k, t :: ConsumerHolds(s, k, t)) && PlanOk(s)
  }

  // A teardown of a task that is being converted.
  ghost predicate TearsPlanned(s: State, step: Step)
    requires Can(s, step)
  {
    && step.OfCall? && step.call == TearDown && s.acceptor.Converting?
    && s.calls[step.d].task in s.radio.runtimes && s.calls[step.d].task in s.acceptor.plan
  }

  ghost predicate LeadsIntact(s: State, steps: seq<Step>, s': State)
    decreases steps
  {
    if steps == [] then s == s'
    else Can(s, steps[0]) && !TearsPlanned(s, steps[0]) && LeadsIntact(Do(s, steps[0]), steps[1..], s')
  }

  // ---- Every step keeps it, whether or not sockets work ----

  lemma UntouchedHold(s: State, s': State)
    requires ConsumersHold(s) && RadioUntouched(s, s') && PlanOk(s')
    ensures ConsumersHold(s')
  {
    forall k, t
      ensures ConsumerHolds(s', k, t)
    {
      assert ConsumerHolds(s, k, t);
    }
  }

  lemma FindChannelHolds(s: State, t: TaskId)
    requires Base(s) && ConsumersHold(s) && CanAct(s, t, FindChannel)
    ensures ConsumersHold(Act(s, t, FindChannel))
  {
    var s' := Act(s, t, FindChannel);
    assert s'.acts == s.acts[t := PcAfter(s, t, FindChannel)] && s'.radio == s.radio && t !in s.radio.runtimes;
    HeldByOthers(s, s', t, PcAfter(s, t, FindChannel));
    forall k, u
      ensures ConsumerHolds(s', k, u)
    {
      assert ConsumerHolds(s, k, u);
    }
  }

  lemma SubscribeHolds(s: State, s': State, t: TaskId, k: Stream, subband: bool, ok: bool)
    requires Base(s) && ConsumersHold(s) && t in s.acts && s.acts[t] == Join(k)
    requires OnlyMoved(s, s', t, SetUp(Runtime(k, subband)),
                       if ok then AddConsumer(s.radio, k, t, subband) else s.radio)
    ensures ConsumersHold(s')
  {
    assert t !in s.radio.runtimes;
    HeldByOthers(s, s', t, SetUp(Runtime(k, subband)));
    forall j, u
      ensures ConsumerHolds(s', j, u)
    {
      assert ConsumerHolds(s, j, u) && ConsumerHolds(s, j, t);
    }
  }

  // The consumers of a stream just opened.
  ghost predicate OpenedWith(r: Radio, r': Radio, t: TaskId, heard: Option<bool>)
  {
    && r'.runtimes == r.runtimes
    && ConsumersOf(r', r.streams) == (match heard
                                      case None => Consumers({}, {})
                                      case Some(subband) =>
                                        if subband then Consumers({}, {t}) else Consumers({t}, {}))
    && forall j: Stream :: j != r.streams ==> ConsumersOf(r', j) == ConsumersOf(r, j)
  }

  lemma OpenedHolds(s: State, s': State, t: TaskId, pc: ActPc, heard: Option<bool>)
    requires Base(s) && ConsumersHold(s) && t in s.acts && s.acts[t] == Open
    requires s'.acts == s.acts[t := pc] && s'.ledger == s.ledger && s'.acceptor == s.acceptor
    requires OpenedWith(s.radio, s'.radio, t, heard)
    requires heard.Some? ==> Constructing(pc) == Some(Runtime(s.radio.streams, heard.value))
    ensures ConsumersHold(s')
  {
    assert t !in s.radio.runtimes;
    HeldByOthers(s, s', t, pc);
    forall j, u
      ensures ConsumerHolds(s', j, u)
    {
      assert ConsumerHolds(s, j, u) && ConsumerHolds(s, j, t);
    }
  }

  lemma OpenHolds(s: State, t: TaskId, outcome: Outcome, subband: bool, ok: bool)
    requires Base(s) && ConsumersHold(s) && CanAct(s, t, OpenStream(outcome, subband, ok))
    ensures ConsumersHold(Act(s, t, OpenStream(outcome, subband, ok)))
  {
    var step := OpenStream(outcome, subband, ok);
    var s' := Act(s, t, step);
    var pc := PcAfter(s, t, step);
    if outcome == NotOpened {
      assert s'.acts == s.acts[t := Failing] && s'.radio == s.radio;
      UntouchedHold(s, s');
    } else {
      var heard := if outcome == Streaming && ok then Some(subband && !s.ledger.registry[t].sharedLo) else None;
      assert OpenedWith(s.radio, s'.radio, t, heard);
      OpenedHolds(s, s', t, pc, heard);
    }
  }

  // Steps that change neither lists nor who holds what.
  lemma RelabelledHolds(s: State, s': State, t: TaskId, pc: ActPc)
    requires Base(s) && ConsumersHold(s) && t in s.acts
    requires s'.acts == s.acts[t := pc] && s'.ledger == s.ledger && s'.acceptor == s.acceptor
    requires s'.radio.consumers == s.radio.consumers && PlanOk(s')
    requires forall u :: Held(s'.acts, s'.radio, u) == Held(s.acts, s.radio, u)
    ensures ConsumersHold(s')
  {
    forall j, u
      ensures ConsumerHolds(s', j, u)
    {
      assert ConsumerHolds(s, j, u);
    }
  }

  lemma RecordHolds(s: State, t: TaskId)
    requires Base(s) && ConsumersHold(s) && CanAct(s, t, RecordChannel)
    ensures ConsumersHold(Act(s, t, RecordChannel))
  {
    var s' := Act(s, t, RecordChannel);
    assert s'.acts == s.acts[t := SetUp(Runtime(s.acts[t].own, false))];
    RelabelledHolds(s, s', t, SetUp(Runtime(s.acts[t].own, false)));
  }

  lemma PublishHolds(s: State, t: TaskId)
    requires Base(s) && ConsumersHold(s) && CanAct(s, t, PublishRuntime)
    ensures ConsumersHold(Act(s, t, PublishRuntime))
  {
    var s' := Act(s, t, PublishRuntime);
    assert s'.acts == s.acts[t := Finish] && t !in s.radio.runtimes;
    PublishKeepsPlan(s, t);
    RelabelledHolds(s, s', t, Finish);
  }

  // ---- Conversions ----

  lemma MoveOutHolds(s: State, t: TaskId)
    requires ConsumersHold(s) && CanAccept(s, MoveOut(t))
    ensures ConsumersHold(Accept(s, MoveOut(t)))
  {
    var s' := Accept(s, MoveOut(t));
    forall j, u
      ensures ConsumerHolds(s', j, u)
    {
      assert ConsumerHolds(s, j, u);
    }
  }

  lemma MoveInHolds(s: State, ok: bool)
    requires ConsumersHold(s) && CanAccept(s, MoveIn(ok))
    ensures ConsumersHold(Accept(s, MoveIn(ok)))
  {
    var s' := Accept(s, MoveIn(ok));
    forall j, u
      ensures ConsumerHolds(s', j, u)
    {
      assert ConsumerHolds(s, j, u);
    }
  }

  lemma FlagHolds(s: State)
    requires ConsumersHold(s) && CanAccept(s, Flag)
    ensures ConsumersHold(Accept(s, Flag))
  {
    var s' := Accept(s, Flag);
    forall j, u
      ensures ConsumerHolds(s', j, u)
    {
      assert ConsumerHolds(s, j, u);
    }
  }

  // ---- Teardown ----

  lemma DropHolds(s: State, s': State, t: TaskId)
    requires ConsumersHold(s) && t in s.radio.runtimes && StatusOf(s.acceptor, t) == Settled
    requires Dropped(s, s', t) && PlanOk(s')
    ensures ConsumersHold(s')
  {
    assert forall u :: u != t ==> Held(s'.acts, s'.radio, u) == Held(s.acts, s.radio, u);
    forall j, u
      ensures ConsumerHolds(s', j, u)
    {
      assert ConsumerHolds(s, j, u);
    }
  }

  lemma PlanKeptByTeardown(s: State, d: CallId)
    requires Base(s) && PlanOk(s) && CanCall(s, d, TearDown) && !TearsPlanned(s, OfCall(d, TearDown))
    ensures PlanOk(Deactivate(s, d, TearDown))
  {
    assert Ended(s.ledger, s.calls[d].task);
  }

  lemma TearDownHolds(s: State, d: CallId)
    requires Base(s) && ConsumersHold(s) && CanCall(s, d, TearDown) && !TearsPlanned(s, OfCall(d, TearDown))
    ensures ConsumersHold(Deactivate(s, d, TearDown))
  {
    var s' := Deactivate(s, d, TearDown);
    PlanKeptByTeardown(s, d);
    if s.calls[d].task in s.radio.runtimes {
      DropHolds(s, s', s.calls[d].task);
    } else {
      UntouchedHold(s, s');
    }
  }

  lemma ConsumersHoldKept(s: State, step: Step)
    requires Base(s) && ConsumersHold(s) && Can(s, step) && !TearsPlanned(s, step)
    ensures ConsumersHold(Do(s, step))
  {
    if !TouchesRadio(step) {
      OtherStepsLeaveRadio(s, step);
      OtherStepsKeepPlan(s, step);
      UntouchedHold(s, Do(s, step));
    } else {
      match step
      case OfCall(d, _) => TearDownHolds(s, d);
      case OfAcceptor(a) =>
        match a {
          case MoveOut(t) => MoveOutHolds(s, t);
          case MoveIn(ok) => MoveInHolds(s, ok);
          case Flag => FlagHolds(s);
        }
      case OfAct(t, a) =>
        match a {
          case FindChannel => FindChannelHolds(s, t);
          case Subscribe(subband, ok) => SubscribeHolds(s, Do(s, step), t, s.acts[t].joined, subband, ok);
          case OpenStream(outcome, subband, ok) => OpenHolds(s, t, outcome, subband, ok);
          case RecordChannel => RecordHolds(s, t);
          case PublishRuntime => PublishHolds(s, t);
        }
    }
  }

  // Over every run in which no task is torn down amid its conversion, sockets or not, the
  // consumers of a stream are among the tasks that hold it.
  lemma {:induction false} RunConsumersHold(s: State, steps: seq<Step>, s': State)
    requires Base(s) && StreamsSane(s) && ConsumersHold(s) && LeadsIntact(s, steps, s')
    ensures Base(s') && StreamsSane(s') && ConsumersHold(s')
    decreases steps
  {
    if steps == [] {
    } else {
      BaseKept(s, steps[0]);
      SaneKept(s, steps[0]);
      ConsumersHoldKept(s, steps[0]);
      RunConsumersHold(Do(s, steps[0]), steps[1..], s');
    }
  }

  // ---- When a stream is closed ----

  // Is some other task registered on the stream of t?
  predicate OthersRegistered(r: Radio, t: TaskId)
    requires t in r.runtimes
  {
    Everyone(ConsumersOf(r, r.runtimes[t].stream)) - {t} != {}
  }

  // The teardown of a task closes its stream exactly when the stream was closed before, or
  // no other task is registered on it.
  lemma ClosesUnlessRegistered(s: State, t: TaskId)
    requires StreamsSane(s) && ConsumersHold(s) && t in s.radio.runtimes && StatusOf(s.acceptor, t) == Settled
    ensures ClosesStream(s.radio, t) <==>
              s.radio.closes[s.radio.runtimes[t].stream] > 0 || !OthersRegistered(s.radio, t)
  {
    var rt := s.radio.runtimes[t];
    var c := ConsumersOf(s.radio, rt.stream);
    var left := DropConsumer(c, t, rt.subband);
    assert ConsumerHolds(s, rt.stream, t);
    assert Everyone(left) == Everyone(c) - {t};
    assert left == Consumers({}, {}) <==> Everyone(left) == {};
    if OffChannels(s.radio, rt.stream) {
      assert ChannelsOn(s.radio, rt.stream) == {};
      assert forall u :: u in Everyone(c) ==> ConsumerHolds(s, rt.stream, u) && OneHolder(s, t, u);
    } else {
      var ch :| ch in s.radio.channels && s.radio.channels[ch] == rt.stream;
      assert ch in ChannelsOn(s.radio, rt.stream);
    }
  }

  // A stream is closed under a task that still holds it exactly when some task still holds
  // it and it was closed before or none of those that do is registered on it; it is closed
  // again exactly when it was closed before.
  lemma LostExactlyWhen(ports: set<int>, cap: int, steps: seq<Step>, s: State, d: CallId)
    requires LeadsIntact(Init(ports, cap), steps, s) && CanCall(s, d, TearDown)
    requires s.calls[d].task in s.radio.runtimes && !TearsPlanned(s, OfCall(d, TearDown))
    ensures var t := s.calls[d].task;
            var k := s.radio.runtimes[t].stream;
            var after := Do(s, OfCall(d, TearDown));
            && (forall u: TaskId :: u in Everyone(ConsumersOf(s.radio, k)) ==> Holds(s, u, k))
            && (after.radio.closes[k] > s.radio.closes[k] && (exists u: TaskId :: Holds(after, u, k)) <==>
                  && (exists u: TaskId :: u != t && Holds(s, u, k))
                  && (s.radio.closes[k] > 0
                      || forall u: TaskId :: u != t && Holds(s, u, k) ==> u !in Everyone(ConsumersOf(s.radio, k))))
            && (after.radio.closes[k] > 1 && after.radio.closes[k] > s.radio.closes[k] <==> s.radio.closes[k] > 0)
            && (forall j: Stream :: j != k ==> after.radio.closes[j] == s.radio.closes[j])
  {
    BaseInit(ports, cap);
    SaneInit(ports, cap);
    RunConsumersHold(Init(ports, cap), steps, s);
    TeardownCloses(s, d);
  }

  lemma TeardownCloses(s: State, d: CallId)
    requires Base(s) && StreamsSane(s) && ConsumersHold(s) && CanCall(s, d, TearDown)
    requires s.calls[d].task in s.radio.runtimes && !TearsPlanned(s, OfCall(d, TearDown))
    ensures var t := s.calls[d].task;
            var k := s.radio.runtimes[t].stream;
            var after := Do(s, OfCall(d, TearDown));
            && (forall u: TaskId :: u in Everyone(ConsumersOf(s.radio, k)) ==> Holds(s, u, k))
            && (forall u: TaskId :: Holds(after, u, k) <==> u != t && Holds(s, u, k))
            && (forall j: Stream ::
                  after.radio.closes[j] ==
                  s.radio.closes[j]
                  + if j == k && (s.radio.closes[k] > 0 || !OthersRegistered(s.radio, t)) then 1 else 0)
  {
    var t := s.calls[d].task;
    var k := s.radio.runtimes[t].stream;
    ClosesUnlessRegistered(s, t);
    DroppedOff(s.radio, t);
    assert t in s.acts && PastPublish(s.acts[t]);
    forall u: TaskId | u in Everyone(ConsumersOf(s.radio, k))
      ensures Holds(s, u, k)
    {
      assert ConsumerHolds(s, k, u);
    }
  }
}
