// Hardware streams over every interleaving, for tasks with one receive channel: who
// consumes a stream, and when it is closed.
module LifecycleStreams {
  import opened Basics
  import opened Lifecycle
  import opened LifecycleBase

  // The runtime a task has published, or is constructing.
  function Held(acts: map<TaskId, ActPc>, r: Radio, t: TaskId): Option<Runtime>
  {
    if t in r.runtimes then Some(r.runtimes[t])
    else if t in acts then Constructing(acts[t])
    else None
  }

  function Constructing(pc: ActPc): Option<Runtime>
  {
    match pc
    case Opened(k) => Some(Runtime(k, false))
    case SetUp(rt) => Some(rt)
    case Publish(rt) => Some(rt)
    case _ => None
  }

  function Everyone(c: Consumers): set<TaskId> { c.dests + c.subbands }

  ghost predicate OffChannels(r: Radio, k: Stream)
  {
    forall c :: c in r.channels ==> r.channels[c] != k
  }

  // While the accepting thread turns plain consumers into sub-bands, a task can be out of
  // both lists, or in the sub-bands before its runtime says so.
  datatype Status = Settled | Out | Moved

  function StatusOf(a: Acceptor, t: TaskId): Status
  {
    if !a.Converting? then Settled
    else if a.out == Some(t) then Out
    else if t in a.moved then Moved
    else Settled
  }

  predicate OutOn(a: Acceptor, k: Stream)
  {
    a.Converting? && a.out.Some? && a.out.value in a.plan && a.plan[a.out.value] == k
  }

  ghost predicate Registered(c: Consumers, t: TaskId, subband: bool, status: Status)
  {
    match status
    case Settled => if subband then t in c.subbands && t !in c.dests else t in c.dests && t !in c.subbands
    case Out => t !in c.dests && t !in c.subbands
    case Moved => t in c.subbands && t !in c.dests
  }

  // A task that holds a stream is a registered consumer of it, in the list its runtime
  // says, and the stream is open. A shared-LO stream is the one of the task's channel.
  // Another one, or one not yet recorded for its channel, has no other consumer.
  ghost predicate HolderOk(record: Task, pc: ActPc, r: Radio, t: TaskId, rt: Runtime, status: Status)
  {
    var k := rt.stream;
    var c := ConsumersOf(r, k);
    && k < r.streams && r.closes[k] == 0
    && Registered(c, t, rt.subband, status)
    && (if record.sharedLo && !pc.Opened?
        then record.channel in r.channels && r.channels[record.channel] == k
        else OffChannels(r, k) && Everyone(c) == {t})
  }

  // What a thread inside the hardware section knows of its channel.
  ghost predicate ChannelKnown(record: Task, pc: ActPc, r: Radio)
  {
    && (pc.Join? ==> record.sharedLo && record.channel in r.channels && r.channels[record.channel] == pc.joined)
    && (pc == Open && record.sharedLo ==> record.channel !in r.channels)
    && (pc.Opened? ==> record.sharedLo && record.channel !in r.channels)
  }

  ghost predicate TaskOk(s: State, t: TaskId)
  {
    && (Held(s.acts, s.radio, t).Some? ==>
          t in s.acts && t in s.ledger.registry
          && HolderOk(s.ledger.registry[t], s.acts[t], s.radio, t, Held(s.acts, s.radio, t).value,
                      StatusOf(s.acceptor, t)))
    && (t in s.acts && t in s.ledger.registry ==> ChannelKnown(s.ledger.registry[t], s.acts[t], s.radio))
  }

  // What is being converted: tasks that hold their stream as plain consumers, as far as
  // their runtimes say. Those merely collected may have ended since.
  ghost predicate PlanOk(s: State)
  {
    match s.acceptor
    case Gathered(cands) =>
      forall t :: t in cands ==>
        Ended(s.ledger, t) || (t in s.radio.runtimes && s.radio.runtimes[t] == Runtime(cands[t], false))
    case Converting(plan, out, moved) =>
      && moved <= plan.Keys && (out.Some? ==> out.value in plan && out.value !in moved)
      && forall t :: t in plan ==>
           && t in s.radio.runtimes && s.radio.runtimes[t] == Runtime(plan[t], false)
           && t in s.ledger.registry && s.ledger.registry[t].sharedLo
    case _ => true
  }

  // A stream that was opened either is open and has consumers, or was closed once and has
  // none; and every consumer of a stream holds it.
  ghost predicate StreamOk(s: State, k: Stream)
  {
    var all := Everyone(ConsumersOf(s.radio, k));
    && (forall t :: t in all ==> Held(s.acts, s.radio, t).Some? && Held(s.acts, s.radio, t).value.stream == k)
    && (if k < s.radio.streams
        then (s.radio.closes[k] == 0 && (all != {} || OutOn(s.acceptor, k))) || (s.radio.closes[k] == 1 && all == {})
        else s.radio.closes[k] == 0 && all == {})
  }

  ghost predicate ChannelsOk(r: Radio)
  {
    && (forall c :: c in r.channels ==> r.channels[c] < r.streams && r.closes[r.channels[c]] == 0)
    && (forall c, c' :: c in r.channels && c' in r.channels && r.channels[c] == r.channels[c'] ==> c == c')
  }

  ghost predicate StreamsOk(s: State)
  {
    && (forall t :: TaskOk(s, t))
    && (forall k :: StreamOk(s, k))
    && ChannelsOk(s.radio)
    && PlanOk(s)
  }

  // Every consumer's socket could be set up.
  predicate SocketsWork(step: Step)
  {
    && (step.OfAct? && step.act.Subscribe? ==> step.act.ok)
    && (step.OfAct? && step.act.OpenStream? ==> step.act.ok)
    && (step.OfAcceptor? && step.a.MoveIn? ==> step.a.ok)
  }

  // A teardown disturbs a conversion if it takes down a task that is being converted, or
  // closes the stream of the one that is out of both lists just then.
  ghost predicate Disturbs(s: State, step: Step)
    requires Can(s, step)
  {
    && step.OfCall? && step.call == TearDown && s.acceptor.Converting?
    && var t := s.calls[step.d].task;
       t in s.radio.runtimes
       && (t in s.acceptor.plan || (OutOn(s.acceptor, s.radio.runtimes[t].stream) && ClosesStream(s.radio, t)))
  }

  // A run of which no step disturbs a conversion.
  ghost predicate LeadsCalmly(s: State, steps: seq<Step>, s': State)
    decreases steps
  {
    if steps == [] then s == s'
    else Can(s, steps[0]) && !Disturbs(s, steps[0]) && LeadsCalmly(Do(s, steps[0]), steps[1..], s')
  }

  // ---- Steps that leave the radio alone ----

  // The radio is as before, no task's hold changed, and no thread came to know a channel.
  ghost predicate RadioUntouched(s: State, s': State)
  {
    && s'.radio == s.radio
    && (forall t :: StatusOf(s'.acceptor, t) == StatusOf(s.acceptor, t))
    && (forall k :: OutOn(s'.acceptor, k) == OutOn(s.acceptor, k))
    && (forall t :: Held(s'.acts, s'.radio, t) == Held(s.acts, s.radio, t))
    && (forall t :: t in s.acts && t in s.ledger.registry ==>
          && t in s'.acts && t in s'.ledger.registry
          && s'.ledger.registry[t].sharedLo == s.ledger.registry[t].sharedLo
          && s'.ledger.registry[t].channel == s.ledger.registry[t].channel
          && (s'.acts[t] == s.acts[t]
              || (!s'.acts[t].Join? && s'.acts[t] != Open && !s'.acts[t].Opened? && !s.acts[t].Opened?)))
    && (forall t :: t in s'.acts && t !in s.acts ==> s'.acts[t] == Start)
  }

  lemma UntouchedRadioKept(s: State, s': State)
    requires Base(s) && StreamsOk(s) && RadioUntouched(s, s') && PlanOk(s')
    ensures StreamsOk(s')
  {
    forall t
      ensures TaskOk(s', t)
    {
      assert TaskOk(s, t);
    }
    forall k
      ensures StreamOk(s', k)
    {
      assert StreamOk(s, k);
    }
  }

  predicate TouchesRadio(step: Step)
  {
    || (step.OfCall? && step.call == TearDown)
    || (step.OfAcceptor? && (step.a.MoveOut? || step.a.MoveIn? || step.a.Flag?))
    || (step.OfAct? && (step.act.FindChannel? || step.act.Subscribe? || step.act.OpenStream? || step.act.RecordChannel?
                        || step.act.PublishRuntime?))
  }

  lemma RegistryKeepsChannels(l: Ledger, t: TaskId, step: ActStep)
    requires t in l.registry
    ensures var l' := LedgerAfterAct(l, t, step);
            forall u :: u in l.registry ==>
              u in l'.registry && l'.registry[u].sharedLo == l.registry[u].sharedLo
              && l'.registry[u].channel == l.registry[u].channel
  {
  }

  lemma ActLeavesRadio(s: State, t: TaskId, step: ActStep)
    requires Base(s) && CanAct(s, t, step) && !TouchesRadio(OfAct(t, step))
    ensures RadioUntouched(s, Act(s, t, step))
  {
    var s' := Act(s, t, step);
    assert s'.acts == s.acts[t := PcAfter(s, t, step)] && s'.radio == s.radio;
    assert Constructing(s.acts[t]) == Constructing(s'.acts[t]);
    assert forall u :: u != t ==> Held(s'.acts, s'.radio, u) == Held(s.acts, s.radio, u);
    RegistryKeepsChannels(s.ledger, t, step);
  }

  lemma OtherStepsLeaveRadio(s: State, step: Step)
    requires Base(s) && Can(s, step) && !TouchesRadio(step)
    ensures RadioUntouched(s, Do(s, step))
  {
    match step
    case OfAct(t, a) => ActLeavesRadio(s, t, a);
    case _ =>
  }

  // ---- Activation steps ----

  lemma FindChannelKeeps(s: State, t: TaskId)
    requires Base(s) && StreamsOk(s) && CanAct(s, t, FindChannel)
    ensures StreamsOk(Act(s, t, FindChannel))
  {
    var s' := Act(s, t, FindChannel);
    assert s'.acts == s.acts[t := PcAfter(s, t, FindChannel)] && s'.radio == s.radio;
    forall u
      ensures TaskOk(s', u) && Held(s'.acts, s'.radio, u) == Held(s.acts, s.radio, u)
    {
      assert TaskOk(s, u);
    }
    forall k
      ensures StreamOk(s', k)
    {
      assert StreamOk(s, k);
    }
  }

  // What a step of t leaves as it was, apart from the radio and where t stands.
  ghost predicate OnlyMoved(s: State, s': State, t: TaskId, pc: ActPc, r: Radio)
  {
    s'.acts == s.acts[t := pc] && s'.radio == r && s'.ledger == s.ledger && s'.acceptor == s.acceptor
  }

  // A task subscribes to a stream that was live when it looked its channel up.
  lemma SubscribeKeepsTask(s: State, s': State, t: TaskId, k: Stream, subband: bool, u: TaskId)
    requires Base(s) && StreamsOk(s) && t in s.acts && s.acts[t] == Join(k)
    requires OnlyMoved(s, s', t, SetUp(Runtime(k, subband)), AddConsumer(s.radio, k, t, subband))
    ensures TaskOk(s', u)
  {
    assert TaskOk(s, t) && TaskOk(s, u) && StreamOk(s, k);
  }

  lemma SubscribeKeepsStream(s: State, s': State, t: TaskId, k: Stream, subband: bool, j: Stream)
    requires Base(s) && StreamsOk(s) && t in s.acts && s.acts[t] == Join(k)
    requires OnlyMoved(s, s', t, SetUp(Runtime(k, subband)), AddConsumer(s.radio, k, t, subband))
    ensures StreamOk(s', j)
  {
    assert TaskOk(s, t) && StreamOk(s, j) && StreamOk(s, k);
    assert Everyone(ConsumersOf(s'.radio, j)) == Everyone(ConsumersOf(s.radio, j)) + if j == k then {t} else {};
    assert forall u :: u != t ==> Held(s'.acts, s'.radio, u) == Held(s.acts, s.radio, u);
  }

  lemma SubscribeKeeps(s: State, t: TaskId, subband: bool)
    requires Base(s) && StreamsOk(s) && CanAct(s, t, Subscribe(subband, true))
    ensures StreamsOk(Act(s, t, Subscribe(subband, true)))
  {
    var s' := Act(s, t, Subscribe(subband, true));
    var k := s.acts[t].joined;
    forall u
      ensures TaskOk(s', u)
    {
      SubscribeKeepsTask(s, s', t, k, subband, u);
    }
    forall j
      ensures StreamOk(s', j)
    {
      SubscribeKeepsStream(s, s', t, k, subband, j);
    }
  }

  // The first consumer of a new stream is the task that opened it.
  lemma OpenKeepsOwnTask(s: State, t: TaskId, outcome: Outcome, subband: bool)
    requires Base(s) && StreamsOk(s) && CanAct(s, t, OpenStream(outcome, subband, true))
    requires outcome != NotOpened
    ensures TaskOk(Act(s, t, OpenStream(outcome, subband, true)), t)
  {
    var step := OpenStream(outcome, subband, true);
    var s' := Act(s, t, step);
    assert s'.acts == s.acts[t := PcAfter(s, t, step)];
    assert s'.radio.channels == s.radio.channels && s'.radio.runtimes == s.radio.runtimes;
    assert TaskOk(s, t) && StreamOk(s, s.radio.streams);
  }

  lemma OpenKeepsOtherTask(s: State, t: TaskId, outcome: Outcome, subband: bool, u: TaskId)
    requires Base(s) && StreamsOk(s) && CanAct(s, t, OpenStream(outcome, subband, true))
    requires outcome != NotOpened && u != t
    ensures TaskOk(Act(s, t, OpenStream(outcome, subband, true)), u)
  {
    var step := OpenStream(outcome, subband, true);
    var s' := Act(s, t, step);
    assert s'.acts == s.acts[t := PcAfter(s, t, step)];
    assert s'.radio.channels == s.radio.channels && s'.radio.runtimes == s.radio.runtimes;
    assert TaskOk(s, u);
    assert Held(s'.acts, s'.radio, u) == Held(s.acts, s.radio, u);
    if Held(s.acts, s.radio, u).Some? {
      var j := Held(s.acts, s.radio, u).value.stream;
      assert ConsumersOf(s'.radio, j) == ConsumersOf(s.radio, j) && s'.radio.closes[j] == 0;
    }
  }

  lemma OpenKeepsStream(s: State, t: TaskId, outcome: Outcome, subband: bool, j: Stream)
    requires Base(s) && StreamsOk(s) && CanAct(s, t, OpenStream(outcome, subband, true))
    requires outcome != NotOpened
    ensures StreamOk(Act(s, t, OpenStream(outcome, subband, true)), j)
  {
    var step := OpenStream(outcome, subband, true);
    var s' := Act(s, t, step);
    var k := s.radio.streams;
    assert s'.acts == s.acts[t := PcAfter(s, t, step)] && s'.radio.runtimes == s.radio.runtimes;
    assert TaskOk(s, t) && StreamOk(s, j) && StreamOk(s, k);
    if outcome == Streaming && j == k {
      assert Everyone(ConsumersOf(s'.radio, j)) == {t};
    }
  }

  lemma OpenFailedKeeps(s: State, t: TaskId, subband: bool)
    requires Base(s) && StreamsOk(s) && CanAct(s, t, OpenStream(NotOpened, subband, true))
    ensures StreamsOk(Act(s, t, OpenStream(NotOpened, subband, true)))
  {
    var s' := Act(s, t, OpenStream(NotOpened, subband, true));
    assert s'.acts == s.acts[t := Failing];
    UntouchedRadioKept(s, s');
  }

  lemma OpenKeepsChannels(s: State, t: TaskId, outcome: Outcome, subband: bool)
    requires ChannelsOk(s.radio) && CanAct(s, t, OpenStream(outcome, subband, true)) && outcome != NotOpened
    ensures ChannelsOk(Act(s, t, OpenStream(outcome, subband, true)).radio)
  {
    var s' := Act(s, t, OpenStream(outcome, subband, true));
    assert s'.radio.channels == s.radio.channels;
    assert forall c :: c in s.radio.channels ==> s'.radio.closes[s.radio.channels[c]] == 0;
  }

  lemma OpenKeeps(s: State, t: TaskId, outcome: Outcome, subband: bool)
    requires Base(s) && StreamsOk(s) && CanAct(s, t, OpenStream(outcome, subband, true))
    ensures StreamsOk(Act(s, t, OpenStream(outcome, subband, true)))
  {
    if outcome == NotOpened {
      OpenFailedKeeps(s, t, subband);
    } else {
      var s' := Act(s, t, OpenStream(outcome, subband, true));
      forall u
        ensures TaskOk(s', u)
      {
        if u == t {
          OpenKeepsOwnTask(s, t, outcome, subband);
        } else {
          OpenKeepsOtherTask(s, t, outcome, subband, u);
        }
      }
      forall j
        ensures StreamOk(s', j)
      {
        OpenKeepsStream(s, t, outcome, subband, j);
      }
      OpenKeepsChannels(s, t, outcome, subband);
    }
  }

  // The channel gets its entry; nobody else holds the stream.
  lemma RecordKeepsTask(s: State, s': State, t: TaskId, k: Stream, ch: Channel, u: TaskId)
    requires Base(s) && StreamsOk(s) && t in s.acts && s.acts[t] == Opened(k)
    requires t in s.ledger.registry && s.ledger.registry[t].channel == ch
    requires OnlyMoved(s, s', t, SetUp(Runtime(k, false)), s.radio.(channels := s.radio.channels[ch := k]))
    ensures TaskOk(s', u)
  {
    assert TaskOk(s, t) && TaskOk(s, u);
  }

  lemma RecordKeepsStream(s: State, s': State, t: TaskId, k: Stream, ch: Channel, j: Stream)
    requires Base(s) && StreamsOk(s) && t in s.acts && s.acts[t] == Opened(k)
    requires OnlyMoved(s, s', t, SetUp(Runtime(k, false)), s.radio.(channels := s.radio.channels[ch := k]))
    ensures StreamOk(s', j)
  {
    assert TaskOk(s, t) && StreamOk(s, j);
    assert forall u :: Held(s'.acts, s'.radio, u) == Held(s.acts, s.radio, u);
  }

  lemma RecordKeeps(s: State, t: TaskId)
    requires Base(s) && StreamsOk(s) && CanAct(s, t, RecordChannel)
    ensures StreamsOk(Act(s, t, RecordChannel))
  {
    var s' := Act(s, t, RecordChannel);
    var k, ch := s.acts[t].own, s.ledger.registry[t].channel;
    assert TaskOk(s, t);
    forall u
      ensures TaskOk(s', u)
    {
      RecordKeepsTask(s, s', t, k, ch, u);
    }
    forall j
      ensures StreamOk(s', j)
    {
      RecordKeepsStream(s, s', t, k, ch, j);
    }
  }

  // Publishing changes where a runtime is kept, not who holds what.
  lemma PublishKeepsHolds(s: State, t: TaskId, u: TaskId)
    requires Base(s) && StreamsOk(s) && CanAct(s, t, PublishRuntime)
    ensures Held(Act(s, t, PublishRuntime).acts, Act(s, t, PublishRuntime).radio, u) == Held(s.acts, s.radio, u)
    ensures TaskOk(Act(s, t, PublishRuntime), u)
  {
    var s' := Act(s, t, PublishRuntime);
    assert s'.acts == s.acts[t := Finish];
    assert TaskOk(s, t) && TaskOk(s, u);
  }

  lemma PublishKeepsPlan(s: State, t: TaskId)
    requires Base(s) && PlanOk(s) && CanAct(s, t, PublishRuntime)
    ensures PlanOk(Act(s, t, PublishRuntime))
  {
    assert t !in s.radio.runtimes;
  }

  lemma PublishKeeps(s: State, t: TaskId)
    requires Base(s) && StreamsOk(s) && CanAct(s, t, PublishRuntime)
    ensures StreamsOk(Act(s, t, PublishRuntime))
  {
    var s' := Act(s, t, PublishRuntime);
    PublishKeepsPlan(s, t);
    forall u
      ensures TaskOk(s', u) && Held(s'.acts, s'.radio, u) == Held(s.acts, s.radio, u)
    {
      PublishKeepsHolds(s, t, u);
    }
    forall j
      ensures StreamOk(s', j)
    {
      assert StreamOk(s, j);
    }
  }

  // ---- Conversion to sub-bands ----

  // Only the radio and the acceptor change.
  ghost predicate OnlyConverted(s: State, s': State, a: Acceptor, r: Radio)
  {
    s'.acceptor == a && s'.radio == r && s'.acts == s.acts && s'.ledger == s.ledger
  }

  // The task leaves the plain consumers.
  lemma MoveOutKeepsTask(s: State, s': State, t: TaskId, u: TaskId)
    requires Base(s) && StreamsOk(s) && CanAccept(s, MoveOut(t))
    requires OnlyConverted(s, s', s.acceptor.(out := Some(t)), RadioAfterAccept(s.radio, s.acceptor, MoveOut(t)))
    ensures TaskOk(s', u)
  {
    assert TaskOk(s, t) && TaskOk(s, u);
  }

  lemma MoveOutKeepsStream(s: State, s': State, t: TaskId, j: Stream)
    requires Base(s) && StreamsOk(s) && CanAccept(s, MoveOut(t))
    requires OnlyConverted(s, s', s.acceptor.(out := Some(t)), RadioAfterAccept(s.radio, s.acceptor, MoveOut(t)))
    ensures StreamOk(s', j)
  {
    assert TaskOk(s, t) && StreamOk(s, j);
  }

  lemma MoveOutKeeps(s: State, t: TaskId)
    requires Base(s) && StreamsOk(s) && CanAccept(s, MoveOut(t))
    ensures StreamsOk(Accept(s, MoveOut(t)))
  {
    var s' := Accept(s, MoveOut(t));
    forall u
      ensures TaskOk(s', u)
    {
      MoveOutKeepsTask(s, s', t, u);
    }
    forall j
      ensures StreamOk(s', j)
    {
      MoveOutKeepsStream(s, s', t, j);
    }
  }

  // It joins the sub-bands.
  lemma MoveInKeepsTask(s: State, u: TaskId)
    requires Base(s) && StreamsOk(s) && CanAccept(s, MoveIn(true))
    ensures TaskOk(Accept(s, MoveIn(true)), u)
  {
    assert TaskOk(s, s.acceptor.out.value) && TaskOk(s, u);
  }

  lemma MoveInKeepsStream(s: State, j: Stream)
    requires Base(s) && StreamsOk(s) && CanAccept(s, MoveIn(true))
    ensures StreamOk(Accept(s, MoveIn(true)), j)
  {
    var s' := Accept(s, MoveIn(true));
    var t := s.acceptor.out.value;
    assert TaskOk(s, t) && StreamOk(s, j);
    assert Everyone(ConsumersOf(s'.radio, j))
        == Everyone(ConsumersOf(s.radio, j)) + if j == s.acceptor.plan[t] then {t} else {};
  }

  lemma MoveInKeeps(s: State)
    requires Base(s) && StreamsOk(s) && CanAccept(s, MoveIn(true))
    ensures StreamsOk(Accept(s, MoveIn(true)))
  {
    forall u
      ensures TaskOk(Accept(s, MoveIn(true)), u)
    {
      MoveInKeepsTask(s, u);
    }
    forall j
      ensures StreamOk(Accept(s, MoveIn(true)), j)
    {
      MoveInKeepsStream(s, j);
    }
  }

  // Its runtime says so.
  lemma FlagKeeps(s: State)
    requires Base(s) && StreamsOk(s) && CanAccept(s, Flag)
    ensures StreamsOk(Accept(s, Flag))
  {
    var s' := Accept(s, Flag);
    forall u
      ensures TaskOk(s', u)
    {
      assert TaskOk(s, u);
    }
    forall j
      ensures StreamOk(s', j)
    {
      assert StreamOk(s, j);
    }
  }

  // ---- Teardown ----

  // For a task that holds its stream, the test of the source decides as intended: the
  // stream is closed exactly when no other task holds it.
  lemma ClosesWhenLast(s: State, t: TaskId)
    requires Base(s) && StreamsOk(s) && t in s.radio.runtimes && StatusOf(s.acceptor, t) == Settled
    ensures ClosesStream(s.radio, t) <==>
            Everyone(ConsumersOf(s.radio, s.radio.runtimes[t].stream)) == {t}
    ensures Everyone(DropConsumer(ConsumersOf(s.radio, s.radio.runtimes[t].stream), t, s.radio.runtimes[t].subband))
         == Everyone(ConsumersOf(s.radio, s.radio.runtimes[t].stream)) - {t}
  {
    assert TaskOk(s, t);
    var rt := s.radio.runtimes[t];
    var c := ConsumersOf(s.radio, rt.stream);
    var left := DropConsumer(c, t, rt.subband);
    assert Everyone(left) == Everyone(c) - {t};
    assert left == Consumers({}, {}) <==> Everyone(left) == {};
    assert t in Everyone(c);
    if s.ledger.registry[t].sharedLo {
      assert s.ledger.registry[t].channel in ChannelsOn(s.radio, rt.stream);
    }
  }

  // A teardown that does not disturb a conversion.
  ghost predicate DropsCalmly(s: State, t: TaskId)
  {
    && t in s.radio.runtimes
    && (s.acceptor.Converting? ==>
          t !in s.acceptor.plan && !(OutOn(s.acceptor, s.radio.runtimes[t].stream) && ClosesStream(s.radio, t)))
  }

  ghost predicate Dropped(s: State, s': State, t: TaskId)
    requires t in s.radio.runtimes
  {
    && s'.radio == DropRuntime(s.radio, t) && s'.acts == s.acts && s'.ledger == s.ledger
    && s'.acceptor == s.acceptor
  }

  lemma CalmIsSettled(s: State, t: TaskId)
    requires PlanOk(s) && DropsCalmly(s, t)
    ensures StatusOf(s.acceptor, t) == Settled
  {
  }

  lemma DropKeepsTask(s: State, s': State, t: TaskId, u: TaskId)
    requires Base(s) && StreamsOk(s) && DropsCalmly(s, t) && s.hw == None
    requires Dropped(s, s', t)
    ensures TaskOk(s', u)
  {
    var k := s.radio.runtimes[t].stream;
    assert TaskOk(s, t) && TaskOk(s, u) && StreamOk(s, k);
    CalmIsSettled(s, t);
    ClosesWhenLast(s, t);
    if u == t {
      assert Held(s'.acts, s'.radio, t) == None;
    } else if Held(s.acts, s.radio, u).Some? && Held(s.acts, s.radio, u).value.stream == k {
      assert u in Everyone(ConsumersOf(s.radio, k)) || OutOn(s.acceptor, k);
    }
  }

  lemma DropKeepsStream(s: State, s': State, t: TaskId, j: Stream)
    requires Base(s) && StreamsOk(s) && DropsCalmly(s, t)
    requires Dropped(s, s', t)
    ensures StreamOk(s', j)
  {
    CalmIsSettled(s, t);
    assert TaskOk(s, t) && StreamOk(s, j) && StreamOk(s, s.radio.runtimes[t].stream);
    ClosesWhenLast(s, t);
  }

  lemma DropKeepsChannels(s: State, t: TaskId)
    requires Base(s) && StreamsOk(s) && DropsCalmly(s, t)
    ensures ChannelsOk(DropRuntime(s.radio, t))
  {
    assert TaskOk(s, t);
    CalmIsSettled(s, t);
    ClosesWhenLast(s, t);
  }

  // Only what has ended is torn down, so a candidate that has not is still there.
  lemma TearDownKeepsPlan(s: State, d: CallId)
    requires Base(s) && PlanOk(s) && CanCall(s, d, TearDown) && !Disturbs(s, OfCall(d, TearDown))
    ensures PlanOk(Deactivate(s, d, TearDown))
  {
    assert Ended(s.ledger, s.calls[d].task);
  }

  lemma TearDownKeeps(s: State, d: CallId)
    requires Base(s) && StreamsOk(s) && CanCall(s, d, TearDown) && !Disturbs(s, OfCall(d, TearDown))
    ensures StreamsOk(Deactivate(s, d, TearDown))
  {
    var s' := Deactivate(s, d, TearDown);
    var t := s.calls[d].task;
    TearDownKeepsPlan(s, d);
    if t in s.radio.runtimes {
      DropKeepsChannels(s, t);
      forall u
        ensures TaskOk(s', u)
      {
        DropKeepsTask(s, s', t, u);
      }
      forall j
        ensures StreamOk(s', j)
      {
        DropKeepsStream(s, s', t, j);
      }
    } else {
      UntouchedRadioKept(s, s');
    }
  }

  // ---- Over runs ----

  lemma OtherStepsKeepPlan(s: State, step: Step)
    requires Base(s) && PlanOk(s) && Can(s, step) && !TouchesRadio(step)
    ensures PlanOk(Do(s, step))
  {
    StepMovesForward(s, step);
  }

  lemma AcceptorStepKeeps(s: State, a: AcceptStep)
    requires Base(s) && StreamsOk(s) && CanAccept(s, a) && TouchesRadio(OfAcceptor(a)) && SocketsWork(OfAcceptor(a))
    ensures StreamsOk(Accept(s, a))
  {
    match a
    case MoveOut(t) => MoveOutKeeps(s, t);
    case MoveIn(_) => MoveInKeeps(s);
    case Flag => FlagKeeps(s);
  }

  lemma ActKeeps(s: State, t: TaskId, a: ActStep)
    requires Base(s) && StreamsOk(s) && CanAct(s, t, a) && TouchesRadio(OfAct(t, a)) && SocketsWork(OfAct(t, a))
    ensures StreamsOk(Act(s, t, a))
  {
    match a
    case FindChannel => FindChannelKeeps(s, t);
    case Subscribe(subband, _) => SubscribeKeeps(s, t, subband);
    case OpenStream(outcome, subband, _) => OpenKeeps(s, t, outcome, subband);
    case RecordChannel => RecordKeeps(s, t);
    case PublishRuntime => PublishKeeps(s, t);
  }

  lemma StreamsKept(s: State, step: Step)
    requires Base(s) && StreamsOk(s) && Can(s, step) && SocketsWork(step) && !Disturbs(s, step)
    ensures StreamsOk(Do(s, step))
  {
    if !TouchesRadio(step) {
      OtherStepsLeaveRadio(s, step);
      OtherStepsKeepPlan(s, step);
      UntouchedRadioKept(s, Do(s, step));
    } else {
      match step
      case OfCall(d, _) => TearDownKeeps(s, d);
      case OfAcceptor(a) => AcceptorStepKeeps(s, a);
      case OfAct(t, a) => ActKeeps(s, t, a);
    }
  }

  lemma StreamsInit(ports: set<int>, cap: int)
    ensures StreamsOk(Init(ports, cap))
  {
  }

  lemma {:induction false} RunKeepsStreams(s: State, steps: seq<Step>, s': State)
    requires Base(s) && StreamsOk(s) && LeadsCalmly(s, steps, s')
    requires forall step :: step in steps ==> SocketsWork(step)
    ensures Base(s') && StreamsOk(s')
    decreases steps
  {
    if steps == [] {
    } else {
      assert steps[0] in steps;
      BaseKept(s, steps[0]);
      StreamsKept(s, steps[0]);
      RunKeepsStreams(Do(s, steps[0]), steps[1..], s');
    }
  }

  lemma {:induction false} CalmRunIsRun(s: State, steps: seq<Step>, s': State)
    requires LeadsCalmly(s, steps, s')
    ensures Leads(s, steps, s')
    decreases steps
  {
    if steps == [] {
    } else {
      CalmRunIsRun(Do(s, steps[0]), steps[1..], s');
    }
  }

  // Does task t hold stream k, published or in construction?
  predicate Holds(s: State, t: TaskId, k: Stream)
  {
    Held(s.acts, s.radio, t).Some? && Held(s.acts, s.radio, t).value.stream == k
  }

  // In every run in which the sockets work and no conversion is disturbed: the consumers of
  // a stream are exactly the tasks that hold it, less the one being moved just then; a
  // stream is open exactly while some task holds it; it is closed once and never again;
  // and no stream that was opened is forgotten.
  lemma ConsumersAreHolders(ports: set<int>, cap: int, steps: seq<Step>, s: State, k: Stream)
    requires LeadsCalmly(Init(ports, cap), steps, s) && forall step :: step in steps ==> SocketsWork(step)
    ensures forall t: TaskId :: t in Everyone(ConsumersOf(s.radio, k)) <==>
              Holds(s, t, k) && StatusOf(s.acceptor, t) != Out
    ensures s.radio.closes[k] <= 1
    ensures k < s.radio.streams && s.radio.closes[k] == 0 <==> exists t: TaskId :: Holds(s, t, k)
  {
    BaseInit(ports, cap);
    StreamsInit(ports, cap);
    RunKeepsStreams(Init(ports, cap), steps, s);
    assert StreamOk(s, k);
    var all := Everyone(ConsumersOf(s.radio, k));
    forall t: TaskId
      ensures t in all <==> Holds(s, t, k) && StatusOf(s.acceptor, t) != Out
    {
      assert TaskOk(s, t);
    }
    OpenWhileHeld(s, k);
  }

  lemma OpenWhileHeld(s: State, k: Stream)
    requires StreamsOk(s)
    ensures k < s.radio.streams && s.radio.closes[k] == 0 <==> exists t: TaskId :: Holds(s, t, k)
  {
    assert StreamOk(s, k);
    if k < s.radio.streams && s.radio.closes[k] == 0 {
      if OutOn(s.acceptor, k) {
        assert Holds(s, s.acceptor.out.value, k);
      } else {
        var t := PickElement(Everyone(ConsumersOf(s.radio, k)));
        assert Holds(s, t, k);
      }
    } else if t: TaskId :| Holds(s, t, k) {
      assert TaskOk(s, t);
    }
  }

  // The step that closes a stream leaves no task holding it.
  lemma NeverClosedUnderSubscriber(ports: set<int>, cap: int, steps: seq<Step>, s: State,
                                   step: Step, k: Stream, t: TaskId)
    requires LeadsCalmly(Init(ports, cap), steps, s) && Can(s, step) && !Disturbs(s, step)
    requires SocketsWork(step) && forall st :: st in steps ==> SocketsWork(st)
    requires Do(s, step).radio.closes[k] != s.radio.closes[k]
    ensures s.radio.closes[k] == 0 && Do(s, step).radio.closes[k] == 1
    ensures !Holds(Do(s, step), t, k)
  {
    BaseInit(ports, cap);
    StreamsInit(ports, cap);
    RunKeepsStreams(Init(ports, cap), steps, s);
    StreamsKept(s, step);
    BaseKept(s, step);
    assert StreamOk(s, k) && StreamOk(Do(s, step), k) && TaskOk(Do(s, step), t);
    ClosesGrow(s, step, k);
  }

  lemma ClosesGrow(s: State, step: Step, k: Stream)
    requires Can(s, step)
    ensures s.radio.closes[k] <= Do(s, step).radio.closes[k]
  {
  }
}
