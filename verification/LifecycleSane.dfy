// What holds of streams and channels in every interleaving, whatever the sockets did and
// whenever a conversion was cut short.
module LifecycleSane {
  import opened Basics
  import opened Lifecycle
  import opened LifecycleBase
  import opened LifecycleStreams

  // A held stream was opened. One that is not recorded yet is still open.
  ghost predicate HolderSane(s: State, t: TaskId)
  {
    Held(s.acts, s.radio, t).Some? ==>
      && t in s.acts && t in s.ledger.registry
      && Held(s.acts, s.radio, t).value.stream < s.radio.streams
      && (s.acts[t].Opened? ==>
            OffChannels(s.radio, s.acts[t].own) && s.radio.closes[s.acts[t].own] == 0)
  }

  // An open stream that no channel leads to has one holder.
  ghost predicate OneHolder(s: State, t: TaskId, u: TaskId)
  {
    Held(s.acts, s.radio, t).Some? && Held(s.acts, s.radio, u).Some?
    && Held(s.acts, s.radio, t).value.stream == Held(s.acts, s.radio, u).value.stream
    && OffChannels(s.radio, Held(s.acts, s.radio, t).value.stream)
    && s.radio.closes[Held(s.acts, s.radio, t).value.stream] == 0
    ==> t == u
  }

  ghost predicate Knows(s: State, t: TaskId)
  {
    t in s.acts && t in s.ledger.registry ==> ChannelKnown(s.ledger.registry[t], s.acts[t], s.radio)
  }

  ghost predicate StreamsSane(s: State)
  {
    && (forall t :: HolderSane(s, t) && Knows(s, t))
    && (forall t, u :: OneHolder(s, t, u))
    && ChannelsOk(s.radio)
    && (forall k :: k >= s.radio.streams ==> s.radio.closes[k] == 0)
  }

  // Steps that leave channels, streams and holds as they were.
  ghost predicate HoldsUntouched(s: State, s': State)
  {
    && s'.radio.channels == s.radio.channels && s'.radio.streams == s.radio.streams && s'.radio.closes == s.radio.closes
    && (forall t ::
          && (Held(s'.acts, s'.radio, t).Some? <==> Held(s.acts, s.radio, t).Some?)
          && (Held(s.acts, s.radio, t).Some? ==>
                Held(s'.acts, s'.radio, t).value.stream == Held(s.acts, s.radio, t).value.stream))
    && (forall t :: t in s.acts ==> t in s'.acts)
    && (forall t :: t in s.ledger.registry ==>
          && t in s'.ledger.registry
          && s'.ledger.registry[t].sharedLo == s.ledger.registry[t].sharedLo
          && s'.ledger.registry[t].channel == s.ledger.registry[t].channel)
    && (forall t :: t in s'.acts && (t !in s.acts || s'.acts[t] != s.acts[t]) ==>
          !s'.acts[t].Join? && s'.acts[t] != Open && !s'.acts[t].Opened?)
  }

  lemma UntouchedIsSane(s: State, s': State)
    requires Base(s) && StreamsSane(s) && HoldsUntouched(s, s')
    ensures StreamsSane(s')
  {
    forall t
      ensures HolderSane(s', t) && Knows(s', t)
    {
      assert HolderSane(s, t) && Knows(s, t);
    }
    forall t, u
      ensures OneHolder(s', t, u)
    {
      assert OneHolder(s, t, u);
    }
  }

  predicate TouchesHolds(step: Step)
  {
    || (step.OfCall? && step.call == TearDown)
    || (step.OfAct? && (step.act.FindChannel? || step.act.Subscribe? || step.act.OpenStream? || step.act.RecordChannel?
                        || step.act.PublishRuntime?))
  }

  lemma AcceptorLeavesHolds(s: State, a: AcceptStep)
    requires Base(s) && CanAccept(s, a)
    ensures HoldsUntouched(s, Accept(s, a))
  {
  }

  lemma OtherStepsLeaveHolds(s: State, step: Step)
    requires Base(s) && Can(s, step) && !TouchesHolds(step) && !step.OfAcceptor?
    ensures HoldsUntouched(s, Do(s, step))
  {
    OtherStepsLeaveRadio(s, step);
  }

  lemma FindChannelIsSane(s: State, t: TaskId)
    requires Base(s) && StreamsSane(s) && CanAct(s, t, FindChannel)
    ensures StreamsSane(Act(s, t, FindChannel))
  {
    var s' := Act(s, t, FindChannel);
    assert s'.acts == s.acts[t := PcAfter(s, t, FindChannel)] && s'.radio == s.radio;
    forall u
      ensures HolderSane(s', u) && Knows(s', u) && Held(s'.acts, s'.radio, u) == Held(s.acts, s.radio, u)
    {
      assert HolderSane(s, u) && Knows(s, u);
    }
    forall u, v
      ensures OneHolder(s', u, v)
    {
      assert OneHolder(s, u, v);
    }
  }

  // Joining a channel's stream; the consumer lists may or may not change.
  ghost predicate SameStreams(r: Radio, r': Radio)
  {
    && r'.runtimes == r.runtimes && r'.channels == r.channels && r'.streams == r.streams && r'.closes == r.closes
  }

  lemma SubscribeIsSane(s: State, t: TaskId, subband: bool, ok: bool)
    requires Base(s) && StreamsSane(s) && CanAct(s, t, Subscribe(subband, ok))
    ensures StreamsSane(Act(s, t, Subscribe(subband, ok)))
  {
    var s' := Act(s, t, Subscribe(subband, ok));
    var k := s.acts[t].joined;
    assert s'.acts == s.acts[t := SetUp(Runtime(k, subband))] && SameStreams(s.radio, s'.radio);
    assert Knows(s, t) && t !in s.radio.runtimes;
    HeldByOthers(s, s', t, SetUp(Runtime(k, subband)));
    forall u
      ensures HolderSane(s', u) && Knows(s', u)
    {
      assert HolderSane(s, u) && Knows(s, u);
    }
    forall u, v
      ensures OneHolder(s', u, v)
    {
      assert OneHolder(s, u, v);
    }
  }

  lemma OpenedIsSane(s: State, s': State, t: TaskId, pc: ActPc, started: bool)
    requires Base(s) && StreamsSane(s) && t in s.acts && s.acts[t] == Open && t in s.ledger.registry
    requires s'.acts == s.acts[t := pc] && s'.ledger == s.ledger
    requires s'.radio.runtimes == s.radio.runtimes && s'.radio.channels == s.radio.channels
    requires s'.radio.streams == s.radio.streams + 1
    requires s'.radio.closes == if started then s.radio.closes else s.radio.closes + multiset{s.radio.streams}
    requires if !started then pc == Failing
             else if s.ledger.registry[t].sharedLo then pc == Opened(s.radio.streams)
             else pc.SetUp? && pc.rt.stream == s.radio.streams
    ensures StreamsSane(s')
  {
    assert Knows(s, t) && t !in s.radio.runtimes;
    HeldByOthers(s, s', t, pc);
    forall u
      ensures HolderSane(s', u) && Knows(s', u)
    {
      assert HolderSane(s, u) && Knows(s, u);
    }
    forall u, v
      ensures OneHolder(s', u, v)
    {
      assert OneHolder(s, u, v) && HolderSane(s, u) && HolderSane(s, v);
      assert forall j: Stream :: OffChannels(s'.radio, j) ==> OffChannels(s.radio, j);
      assert forall j: Stream :: s'.radio.closes[j] == 0 ==> s.radio.closes[j] == 0;
    }
  }

  lemma HeldByOthers(s: State, s': State, t: TaskId, pc: ActPc)
    requires s'.acts == s.acts[t := pc] && s'.radio.runtimes == s.radio.runtimes && t !in s.radio.runtimes
    ensures forall u :: u != t ==> Held(s'.acts, s'.radio, u) == Held(s.acts, s.radio, u)
    ensures Held(s'.acts, s'.radio, t) == Constructing(pc)
  {
  }

  lemma OpenIsSane(s: State, t: TaskId, outcome: Outcome, subband: bool, ok: bool)
    requires Base(s) && StreamsSane(s) && CanAct(s, t, OpenStream(outcome, subband, ok))
    ensures StreamsSane(Act(s, t, OpenStream(outcome, subband, ok)))
  {
    var step := OpenStream(outcome, subband, ok);
    var s' := Act(s, t, step);
    if outcome == NotOpened {
      assert s'.acts == s.acts[t := Failing] && s'.radio == s.radio;
      UntouchedIsSane(s, s');
    } else {
      OpenedIsSane(s, s', t, PcAfter(s, t, step), outcome == Streaming);
    }
  }

  lemma RecordIsSane(s: State, s': State, t: TaskId, k: Stream, ch: Channel)
    requires Base(s) && StreamsSane(s) && t in s.acts && s.acts[t] == Opened(k)
    requires t in s.ledger.registry && s.ledger.registry[t].channel == ch
    requires OnlyMoved(s, s', t, SetUp(Runtime(k, false)), s.radio.(channels := s.radio.channels[ch := k]))
    ensures StreamsSane(s')
  {
    assert HolderSane(s, t) && Knows(s, t) && t !in s.radio.runtimes;
    HeldByOthers(s, s', t, SetUp(Runtime(k, false)));
    RecordedOff(s.radio, ch, k);
    forall u
      ensures HolderSane(s', u) && Knows(s', u)
    {
      assert HolderSane(s, u) && Knows(s, u) && OneHolder(s, u, t);
    }
    forall u, v
      ensures OneHolder(s', u, v)
    {
      assert OneHolder(s, u, v);
    }
  }

  lemma RecordedOff(r: Radio, ch: Channel, k: Stream)
    requires ch !in r.channels
    ensures forall j: Stream ::
              OffChannels(r.(channels := r.channels[ch := k]), j) <==> OffChannels(r, j) && j != k
  {
    var r' := r.(channels := r.channels[ch := k]);
    forall j: Stream
      ensures OffChannels(r', j) <==> OffChannels(r, j) && j != k
    {
      assert ch in r'.channels && r'.channels[ch] == k;
      assert forall c :: c in r.channels ==> c in r'.channels && r'.channels[c] == r.channels[c];
    }
  }

  lemma PublishIsSane(s: State, s': State, t: TaskId, rt: Runtime)
    requires Base(s) && StreamsSane(s) && t in s.acts && s.acts[t] == Publish(rt)
    requires OnlyMoved(s, s', t, Finish, s.radio.(runtimes := s.radio.runtimes[t := rt]))
    ensures StreamsSane(s')
  {
    assert t !in s.radio.runtimes;
    assert forall u :: Held(s'.acts, s'.radio, u) == Held(s.acts, s.radio, u);
    UntouchedIsSane(s, s');
  }

  // A stream that still counts as open after a teardown has lost no channel to it.
  lemma DroppedOff(r: Radio, t: TaskId)
    requires t in r.runtimes
    ensures var r' := DropRuntime(r, t);
            && (forall j: Stream :: r'.closes[j] == 0 ==>
                  r.closes[j] == 0 && (OffChannels(r', j) <==> OffChannels(r, j)))
            && (forall c :: c in r'.channels ==> c in r.channels && r'.channels[c] == r.channels[c])
            && (forall j: Stream ::
                  r'.closes[j] == r.closes[j] + if ClosesStream(r, t) && j == r.runtimes[t].stream then 1 else 0)
  {
    var r' := DropRuntime(r, t);
    var k := r.runtimes[t].stream;
    forall j: Stream | r'.closes[j] == 0
      ensures OffChannels(r', j) <==> OffChannels(r, j)
    {
      assert ClosesStream(r, t) ==> j != k;
      assert forall c :: c in r.channels && r.channels[c] == j ==> c in r'.channels;
    }
  }

  lemma DropIsSane(s: State, s': State, t: TaskId)
    requires Base(s) && StreamsSane(s) && t in s.radio.runtimes && s.hw == None
    requires s'.radio == DropRuntime(s.radio, t) && s'.acts == s.acts && s'.ledger == s.ledger
    ensures StreamsSane(s')
  {
    var k := s.radio.runtimes[t].stream;
    assert HolderSane(s, t);
    assert forall u :: u != t ==> Held(s'.acts, s'.radio, u) == Held(s.acts, s.radio, u);
    assert Held(s'.acts, s'.radio, t) == None;
    DroppedOff(s.radio, t);
    forall u
      ensures HolderSane(s', u) && Knows(s', u)
    {
      assert HolderSane(s, u) && Knows(s, u) && OneHolder(s, u, t);
    }
    forall u, v
      ensures OneHolder(s', u, v)
    {
      assert OneHolder(s, u, v);
    }
  }

  lemma TouchingStepsAreSane(s: State, step: Step)
    requires Base(s) && StreamsSane(s) && Can(s, step) && TouchesHolds(step)
    ensures StreamsSane(Do(s, step))
  {
    match step
    case OfCall(d, _) =>
      var t := s.calls[d].task;
      if t in s.radio.runtimes {
        DropIsSane(s, Do(s, step), t);
      } else {
        UntouchedIsSane(s, Do(s, step));
      }
    case OfAct(t, a) =>
      match a {
        case FindChannel => FindChannelIsSane(s, t);
        case Subscribe(subband, ok) => SubscribeIsSane(s, t, subband, ok);
        case OpenStream(outcome, subband, ok) => OpenIsSane(s, t, outcome, subband, ok);
        case RecordChannel => RecordIsSane(s, Do(s, step), t, s.acts[t].own, s.ledger.registry[t].channel);
        case PublishRuntime => PublishIsSane(s, Do(s, step), t, s.acts[t].rt);
      }
  }

  lemma SaneKept(s: State, step: Step)
    requires Base(s) && StreamsSane(s) && Can(s, step)
    ensures StreamsSane(Do(s, step))
  {
    if TouchesHolds(step) {
      TouchingStepsAreSane(s, step);
    } else {
      if step.OfAcceptor? {
        AcceptorLeavesHolds(s, step.a);
      } else {
        OtherStepsLeaveHolds(s, step);
      }
      UntouchedIsSane(s, Do(s, step));
    }
  }

  lemma SaneInit(ports: set<int>, cap: int)
    ensures StreamsSane(Init(ports, cap))
  {
  }

  // In every run: a channel leads to an open stream and no two channels to the same, a
  // stream without a channel has at most one holder while it is open, and what a thread
  // in the hardware section knows of its channel stays true.
  lemma {:induction false} RunIsSane(s: State, steps: seq<Step>, s': State)
    requires Base(s) && StreamsSane(s) && Leads(s, steps, s')
    ensures Base(s') && StreamsSane(s')
    decreases steps
  {
    if steps == [] {
    } else {
      BaseKept(s, steps[0]);
      SaneKept(s, steps[0]);
      RunIsSane(Do(s, steps[0]), steps[1..], s');
    }
  }
}
