// Conversions of plain consumers to sub-bands, done in several locked sections while other
// threads move: exactly which teardowns in between spoil the streams.
module LifecycleConversion {
  import opened Basics
  import opened Lifecycle
  import opened LifecycleBase
  import opened LifecycleStreams
  import opened LifecycleSane

  // A task that is gone for good.
  predicate Gone(s: State, t: TaskId)
  {
    t in s.acts && PastPublish(s.acts[t]) && t !in s.radio.runtimes
  }

  // A task that is gone has been left among the consumers of a stream, or is about to be
  // put there, and the stream is recorded for a channel or was closed already.
  ghost predicate Stray(s: State, t: TaskId, k: Stream)
  {
    && Gone(s, t) && (s.radio.closes[k] > 0 || !OffChannels(s.radio, k))
    && (t in ConsumersOf(s.radio, k).subbands
        || (s.acceptor.Converting? && t in s.acceptor.plan && s.acceptor.plan[t] == k && t !in s.acceptor.moved))
  }

  // A task still holds a stream that was closed.
  ghost predicate ClosedUnder(s: State, t: TaskId, k: Stream)
  {
    t in s.radio.runtimes && s.radio.runtimes[t].stream == k && s.radio.closes[k] > 0
  }

  ghost predicate Spoilt(s: State)
  {
    || (exists k: Stream :: s.radio.closes[k] > 1)
    || (exists t, k :: Stray(s, t, k))
    || (exists t, k :: ClosedUnder(s, t, k))
  }

  // ---- A disturbance spoils the streams at once ----

  lemma DisturbanceSpoils(s: State, step: Step)
    requires Base(s) && StreamsOk(s) && Can(s, step) && Disturbs(s, step)
    ensures Spoilt(Do(s, step))
  {
    var t := s.calls[step.d].task;
    var k := s.radio.runtimes[t].stream;
    var s' := Do(s, step);
    assert TaskOk(s, t);
    DroppedOff(s.radio, t);
    if t in s.acceptor.plan {
      PlannedTornDown(s, s', t, k);
    } else {
      var v := s.acceptor.out.value;
      assert v in s'.radio.runtimes;
      assert ClosedUnder(s', v, k);
    }
  }

  lemma PlannedTornDown(s: State, s': State, t: TaskId, k: Stream)
    requires Base(s) && StreamsOk(s) && t in s.radio.runtimes && s.radio.runtimes[t].stream == k
    requires s.acceptor.Converting? && t in s.acceptor.plan && Dropped(s, s', t)
    ensures Stray(s', t, k)
  {
    assert TaskOk(s, t);
    var ch := s.ledger.registry[t].channel;
    assert ch in s.radio.channels && s.radio.channels[ch] == k;
    if ClosesStream(s.radio, t) {
      assert s'.radio.closes[k] == 1;
      assert ch in ChannelsOn(s.radio, k);
    } else {
      assert ch in s'.radio.channels && s'.radio.channels[ch] == k;
    }
  }

  // ---- And they never recover ----

  lemma GoneStays(s: State, step: Step, t: TaskId)
    requires Base(s) && Can(s, step) && Gone(s, t)
    ensures Gone(Do(s, step), t)
  {
  }

  lemma ChannelsOutliveSteps(s: State, step: Step, k: Stream)
    requires Base(s) && StreamsSane(s) && Can(s, step)
    requires s.radio.closes[k] > 0 || !OffChannels(s.radio, k)
    ensures Do(s, step).radio.closes[k] > 0 || !OffChannels(Do(s, step).radio, k)
  {
    ClosesGrow(s, step, k);
    if s.radio.closes[k] == 0 && Do(s, step).radio.closes[k] == 0 {
      var c :| c in s.radio.channels && s.radio.channels[c] == k;
      ChannelStays(s, step, c);
    }
  }

  lemma ChannelStays(s: State, step: Step, c: Channel)
    requires Base(s) && StreamsSane(s) && Can(s, step) && c in s.radio.channels
    requires Do(s, step).radio.closes[s.radio.channels[c]] == 0
    ensures c in Do(s, step).radio.channels && Do(s, step).radio.channels[c] == s.radio.channels[c]
  {
    match step
    case OfAct(t, a) => ChannelStaysInAct(s, t, a, c);
    case OfCall(d, a) =>
      if a == TearDown && s.calls[d].task in s.radio.runtimes {
        DroppedOff(s.radio, s.calls[d].task);
      }
    case _ =>
  }

  lemma ChannelStaysInAct(s: State, t: TaskId, a: ActStep, c: Channel)
    requires StreamsSane(s) && CanAct(s, t, a) && c in s.radio.channels
    ensures c in Act(s, t, a).radio.channels && Act(s, t, a).radio.channels[c] == s.radio.channels[c]
  {
    assert Knows(s, t);
  }

  // A stray consumer stays one until its stream is closed a second time.
  lemma StrayListed(s: State, step: Step, t: TaskId, k: Stream)
    requires Base(s) && StreamsSane(s) && Can(s, step) && SocketsWork(step) && Gone(s, t)
    requires s.radio.closes[k] > 0 || !OffChannels(s.radio, k)
    requires t in ConsumersOf(s.radio, k).subbands
    ensures t in ConsumersOf(Do(s, step).radio, k).subbands || Do(s, step).radio.closes[k] > 1
  {
    match step
    case OfCall(d, a) =>
      if a == TearDown && s.calls[d].task in s.radio.runtimes {
        ListedThroughTeardown(s.radio, s.calls[d].task, t, k);
      }
    case OfAct(u, a) => ListedThroughAct(s, u, a, t, k);
    case _ =>
  }

  lemma ListedThroughTeardown(r: Radio, u: TaskId, t: TaskId, k: Stream)
    requires u in r.runtimes && t !in r.runtimes && t in ConsumersOf(r, k).subbands
    requires r.closes[k] > 0 || !OffChannels(r, k)
    ensures t in ConsumersOf(DropRuntime(r, u), k).subbands || DropRuntime(r, u).closes[k] > 1
  {
    DroppedOff(r, u);
    if r.runtimes[u].stream == k && ClosesStream(r, u) {
      assert t in DropConsumer(ConsumersOf(r, k), u, r.runtimes[u].subband).subbands;
      if c :| c in r.channels && r.channels[c] == k {
        assert c in ChannelsOn(r, k);
      }
    }
  }

  lemma ListedThroughAct(s: State, u: TaskId, a: ActStep, t: TaskId, k: Stream)
    requires Base(s) && StreamsSane(s) && CanAct(s, u, a) && t in ConsumersOf(s.radio, k).subbands
    requires s.radio.closes[k] > 0 || !OffChannels(s.radio, k)
    ensures t in ConsumersOf(Act(s, u, a).radio, k).subbands
  {
    assert k != s.radio.streams;
  }

  lemma StrayStays(s: State, step: Step, t: TaskId, k: Stream)
    requires Base(s) && StreamsSane(s) && Can(s, step) && SocketsWork(step) && Stray(s, t, k)
    ensures Stray(Do(s, step), t, k) || Do(s, step).radio.closes[k] > 1
  {
    GoneStays(s, step, t);
    ChannelsOutliveSteps(s, step, k);
    if t in ConsumersOf(s.radio, k).subbands {
      StrayListed(s, step, t, k);
    } else {
      PlannedStays(s, step, t, k);
    }
  }

  lemma PlannedStays(s: State, step: Step, t: TaskId, k: Stream)
    requires Can(s, step) && SocketsWork(step)
    requires s.acceptor.Converting? && t in s.acceptor.plan && s.acceptor.plan[t] == k && t !in s.acceptor.moved
    ensures var s' := Do(s, step);
            t in ConsumersOf(s'.radio, k).subbands
            || (s'.acceptor.Converting? && t in s'.acceptor.plan && s'.acceptor.plan[t] == k && t !in s'.acceptor.moved)
  {
  }

  lemma ClosedUnderStays(s: State, step: Step, t: TaskId, k: Stream)
    requires Base(s) && StreamsSane(s) && Can(s, step) && ClosedUnder(s, t, k)
    ensures ClosedUnder(Do(s, step), t, k) || Do(s, step).radio.closes[k] > 1
  {
    ClosesGrow(s, step, k);
    if step.OfCall? && step.call == TearDown && s.calls[step.d].task == t {
      DroppedOff(s.radio, t);
      assert OffChannels(s.radio, k);
      assert ChannelsOn(s.radio, k) == {};
    }
  }

  lemma SpoiltStays(s: State, step: Step)
    requires Base(s) && StreamsSane(s) && Can(s, step) && SocketsWork(step) && Spoilt(s)
    ensures Spoilt(Do(s, step))
  {
    if k: Stream :| s.radio.closes[k] > 1 {
      ClosesGrow(s, step, k);
    } else if t, k :| Stray(s, t, k) {
      StrayStays(s, step, t, k);
    } else if t, k :| ClosedUnder(s, t, k) {
      ClosedUnderStays(s, step, t, k);
    }
  }

  // Once the conversion is over, spoilt streams are not as they should be.
  lemma SpoiltIsNotOk(s: State)
    requires Base(s) && Spoilt(s) && !s.acceptor.Converting?
    ensures !StreamsOk(s)
  {
    if k: Stream :| s.radio.closes[k] > 1 {
      assert !StreamOk(s, k);
    } else if t, k :| Stray(s, t, k) {
      assert t in Everyone(ConsumersOf(s.radio, k)) && Held(s.acts, s.radio, t) == None;
      assert !StreamOk(s, k);
    } else if t, k :| ClosedUnder(s, t, k) {
      assert !TaskOk(s, t);
    }
  }

  // ---- Over runs ----

  lemma {:induction false} SpoiltForGood(s: State, steps: seq<Step>, s': State)
    requires Base(s) && StreamsSane(s) && Spoilt(s) && Leads(s, steps, s')
    requires forall step :: step in steps ==> SocketsWork(step)
    ensures Base(s') && Spoilt(s')
    decreases steps
  {
    if steps == [] {
    } else {
      assert steps[0] in steps;
      BaseKept(s, steps[0]);
      SaneKept(s, steps[0]);
      SpoiltStays(s, steps[0]);
      SpoiltForGood(Do(s, steps[0]), steps[1..], s');
    }
  }

  lemma {:induction false} OkExactlyWhenCalm(s: State, steps: seq<Step>, s': State)
    requires Base(s) && StreamsSane(s) && StreamsOk(s) && Leads(s, steps, s') && !s'.acceptor.Converting?
    requires forall step :: step in steps ==> SocketsWork(step)
    ensures StreamsOk(s') <==> LeadsCalmly(s, steps, s')
    decreases steps
  {
    if steps == [] {
    } else {
      assert steps[0] in steps;
      BaseKept(s, steps[0]);
      SaneKept(s, steps[0]);
      if Disturbs(s, steps[0]) {
        DisturbanceSpoils(s, steps[0]);
        SpoiltForGood(Do(s, steps[0]), steps[1..], s');
        SpoiltIsNotOk(s');
      } else {
        StreamsKept(s, steps[0]);
        OkExactlyWhenCalm(Do(s, steps[0]), steps[1..], s');
      }
    }
  }

  // In every run with working sockets, seen while no conversion is under way: consumers,
  // holders, channels and closings agree exactly if no teardown in the run disturbed a
  // conversion, that is, took down a task between the check that it is live and the
  // setting of its flag, or closed its stream while it was in neither list. A disturbed
  // run never recovers.
  lemma ConversionsKeepStreamsExactlyWhen(ports: set<int>, cap: int, steps: seq<Step>, s: State)
    requires Leads(Init(ports, cap), steps, s) && !s.acceptor.Converting?
    requires forall step :: step in steps ==> SocketsWork(step)
    ensures StreamsOk(s) <==> LeadsCalmly(Init(ports, cap), steps, s)
  {
    BaseInit(ports, cap);
    SaneInit(ports, cap);
    StreamsInit(ports, cap);
    OkExactlyWhenCalm(Init(ports, cap), steps, s);
  }
}
