// What a second activation does to the streams of its task: it joins them or opens them
// again, and its runtime takes the place of the first one's
// (src/ResourceManager.cpp:1308-1493, 1548-1551; torn down at 1633-1688).
module SecondActivation {
  import opened Basics
  import opened Lifecycle
  import opened LifecycleBase
  import opened LifecycleStreams
  import opened LifecycleSane
  import IQStreamer

  // ---- On a shared stream ----

  // How one activation subscribes its task: to which list, and whether the socket could be
  // set up.
  datatype Entry = Entry(subband: bool, ok: bool)

  // The consumer lists of a stream.
  datatype Lists = Lists(dests: seq<TaskId>, subbands: seq<TaskId>)

  function Subscribed(l: Lists, t: TaskId, e: Entry): Lists
  {
    if !e.ok then l
    else if e.subband then l.(subbands := l.subbands + [t])
    else l.(dests := l.dests + [t])
  }

  function SubscribedAll(l: Lists, t: TaskId, entries: seq<Entry>): Lists
  {
    if entries == [] then l
    else Subscribed(SubscribedAll(l, t, entries[..|entries| - 1]), t, entries[|entries| - 1])
  }

  // Teardown removes one entry, from the list that the runtime published last goes by.
  function TornDown(l: Lists, t: TaskId, subband: bool): Lists
  {
    if subband then l.(subbands := IQStreamer.RemoveFirst(l.subbands, t))
    else l.(dests := IQStreamer.RemoveFirst(l.dests, t))
  }

  // The activations that got into one of the lists.
  function Listed(entries: seq<Entry>, subband: bool): nat
  {
    if entries == [] then 0
    else
      var last := entries[|entries| - 1];
      Listed(entries[..|entries| - 1], subband) + if last == Entry(subband, true) then 1 else 0
  }

  // How often a task is in the two lists.
  function Times(l: Lists, t: TaskId, subband: bool): nat
  {
    if subband then multiset(l.subbands)[t] else multiset(l.dests)[t]
  }

  lemma {:induction false} SubscribedTimes(l: Lists, t: TaskId, entries: seq<Entry>, u: TaskId, subband: bool)
    ensures Times(SubscribedAll(l, t, entries), u, subband)
         == Times(l, u, subband) + if u == t then Listed(entries, subband) else 0
  {
    if entries == [] {
    } else {
      SubscribedTimes(l, t, entries[..|entries| - 1], u, subband);
    }
  }

  lemma TornDownTimes(l: Lists, t: TaskId, subband: bool, u: TaskId, list: bool)
    ensures Times(TornDown(l, t, subband), u, list)
         == if u == t && list == subband && Times(l, t, list) > 0 then Times(l, u, list) - 1 else Times(l, u, list)
  {
    IQStreamer.RemoveFirstDropsOne(l.dests, t);
    IQStreamer.RemoveFirstDropsOne(l.subbands, t);
  }

  // Any number of activations of a task, and then its one teardown: what is left of it in
  // the lists is every entry but one of those in the last activation's list, and nobody
  // else's entries change.
  lemma TeardownLeaves(l: Lists, t: TaskId, entries: seq<Entry>, u: TaskId, list: bool)
    requires entries != [] && t !in l.dests && t !in l.subbands
    ensures var last := entries[|entries| - 1].subband;
            var after := TornDown(SubscribedAll(l, t, entries), t, last);
            Times(after, u, list) == if u != t then Times(l, u, list)
                                     else if list == last then Max(Listed(entries, list) - 1, 0)
                                     else Listed(entries, list)
  {
    var last := entries[|entries| - 1].subband;
    SubscribedTimes(l, t, entries, u, list);
    SubscribedTimes(l, t, entries, t, list);
    TornDownTimes(SubscribedAll(l, t, entries), t, last, u, list);
  }

  // So the ended task is still listed exactly when two of its activations got into the list
  // of the last one, or one into the other; and the stream, which is closed when both lists
  // are empty, is closed exactly if neither the task nor anyone else is listed.
  lemma StillListedExactlyWhen(l: Lists, t: TaskId, entries: seq<Entry>)
    requires entries != [] && t !in l.dests && t !in l.subbands
    ensures var last := entries[|entries| - 1].subband;
            var after := TornDown(SubscribedAll(l, t, entries), t, last);
            var still := Listed(entries, last) >= 2 || Listed(entries, !last) >= 1;
            && (t in after.dests || t in after.subbands <==> still)
            && (after == Lists([], []) <==> l == Lists([], []) && !still)
  {
    var last := entries[|entries| - 1].subband;
    var after := TornDown(SubscribedAll(l, t, entries), t, last);
    forall u, list
      ensures Times(after, u, list) == if u != t then Times(l, u, list)
                                       else if list == last then Max(Listed(entries, list) - 1, 0)
                                       else Listed(entries, list)
    {
      TeardownLeaves(l, t, entries, u, list);
    }
    assert t in after.dests <==> Times(after, t, false) > 0;
    assert t in after.subbands <==> Times(after, t, true) > 0;
    EmptyExactlyWhen(l);
    EmptyExactlyWhen(after);
  }

  lemma EmptyExactlyWhen(l: Lists)
    ensures l == Lists([], []) <==> forall u, list :: Times(l, u, list) == 0
  {
    if l.dests != [] {
      assert Times(l, l.dests[0], false) > 0;
    }
    if l.subbands != [] {
      assert Times(l, l.subbands[0], true) > 0;
    }
  }

  lemma {:induction false} AllListed(entries: seq<Entry>)
    requires forall e :: e in entries ==> e.ok
    ensures Listed(entries, false) + Listed(entries, true) == |entries|
  {
    if entries == [] {
    } else {
      var n := |entries| - 1;
      assert entries[n] in entries;
      AllListed(entries[..n]);
    }
  }

  // Where all sockets work, a task that was activated more than once stays listed when it
  // has ended, and keeps its stream open; one that was activated once does not.
  lemma TwiceStaysListed(l: Lists, t: TaskId, entries: seq<Entry>)
    requires entries != [] && t !in l.dests && t !in l.subbands
    requires forall e :: e in entries ==> e.ok
    ensures var after := TornDown(SubscribedAll(l, t, entries), t, entries[|entries| - 1].subband);
            && (t in after.dests || t in after.subbands <==> |entries| >= 2)
            && (|entries| >= 2 ==> after != Lists([], []))
  {
    StillListedExactlyWhen(l, t, entries);
    AllListed(entries);
    assert entries[|entries| - 1] in entries;
    assert Listed(entries, entries[|entries| - 1].subband) >= 1;
  }

  // ---- On a stream of its own ----

  // The second activation of a task opens another stream and publishes it, if the hardware
  // lets it; in one step here.
  function ActivatedAgain(s: State, t: TaskId, subband: bool, ok: bool): State
  {
    var more := OpenNew(s.radio, true);
    var r := if ok then AddConsumer(more, s.radio.streams, t, subband) else more;
    s.(radio := r.(runtimes := r.runtimes[t := Runtime(s.radio.streams, subband)]))
  }

  // A stream that was opened and that no runtime, no channel and no thread leads to.
  ghost predicate Forgotten(s: State, k: Stream)
  {
    && k < s.radio.streams && OffChannels(s.radio, k)
    && (forall t :: Held(s.acts, s.radio, t).Some? ==> Held(s.acts, s.radio, t).value.stream != k)
    && (forall t :: t in s.acts && s.acts[t].Join? ==> s.acts[t].joined != k)
  }

  lemma OthersHoldOn(s: State, t: TaskId, step: ActStep, u: TaskId)
    requires CanAct(s, t, step) && u != t
    ensures Held(Act(s, t, step).acts, Act(s, t, step).radio, u) == Held(s.acts, s.radio, u)
  {
    assert Act(s, t, step).acts == s.acts[t := PcAfter(s, t, step)];
  }

  // What the acting thread has in hand afterwards.
  lemma HeldAfterAct(s: State, t: TaskId, step: ActStep)
    requires CanAct(s, t, step) && (t in s.radio.runtimes ==> PastPublish(s.acts[t]))
    ensures var held := Held(Act(s, t, step).acts, Act(s, t, step).radio, t);
            held == Held(s.acts, s.radio, t)
            || (held.Some? && held.value.stream == if step.Subscribe? then s.acts[t].joined else s.radio.streams)
  {
    assert Act(s, t, step).acts[t] == PcAfter(s, t, step);
  }

  lemma ActStaysForgotten(s: State, t: TaskId, step: ActStep, k: Stream)
    requires Base(s) && Forgotten(s, k) && CanAct(s, t, step)
    ensures Forgotten(Act(s, t, step), k) && Act(s, t, step).radio.closes[k] == s.radio.closes[k]
  {
    var s' := Act(s, t, step);
    HeldAfterAct(s, t, step);
    assert s'.acts == s.acts[t := PcAfter(s, t, step)];
    forall u | Held(s'.acts, s'.radio, u).Some?
      ensures Held(s'.acts, s'.radio, u).value.stream != k
    {
      if u != t { OthersHoldOn(s, t, step, u); }
      assert Held(s.acts, s.radio, u).Some? ==> Held(s.acts, s.radio, u).value.stream != k;
    }
    assert step.RecordChannel? ==> Held(s.acts, s.radio, t) == Some(Runtime(s.acts[t].own, false)) by {
      assert t in s.radio.runtimes ==> PastPublish(s.acts[t]);
    }
  }

  lemma DropStaysForgotten(s: State, s': State, t: TaskId, k: Stream)
    requires Forgotten(s, k) && t in s.radio.runtimes
    requires s'.radio == DropRuntime(s.radio, t) && s'.acts == s.acts && Base(s)
    ensures Forgotten(s', k) && s'.radio.closes[k] == s.radio.closes[k]
  {
    assert Held(s.acts, s.radio, t) == Some(s.radio.runtimes[t]);
    DroppedOff(s.radio, t);
    forall u | Held(s'.acts, s'.radio, u).Some?
      ensures Held(s'.acts, s'.radio, u).value.stream != k
    {
      assert u != t && Held(s.acts, s.radio, u) == Held(s'.acts, s'.radio, u);
    }
  }

  lemma StepStaysForgotten(s: State, step: Step, k: Stream)
    requires Base(s) && Forgotten(s, k) && Can(s, step)
    ensures Forgotten(Do(s, step), k) && Do(s, step).radio.closes[k] == s.radio.closes[k]
  {
    if step.OfAct? {
      ActStaysForgotten(s, step.t, step.act, k);
    } else if step.OfAcceptor? {
      AcceptorLeavesHolds(s, step.a);
    } else if !TouchesHolds(step) {
      OtherStepsLeaveHolds(s, step);
    } else if s.calls[step.d].task in s.radio.runtimes {
      DropStaysForgotten(s, Do(s, step), s.calls[step.d].task, k);
    }
  }

  lemma {:induction false} RunStaysForgotten(s: State, steps: seq<Step>, s': State, k: Stream)
    requires Base(s) && Forgotten(s, k) && Leads(s, steps, s')
    ensures Forgotten(s', k) && s'.radio.closes[k] == s.radio.closes[k]
    decreases steps
  {
    if steps == [] {
    } else {
      BaseKept(s, steps[0]);
      StepStaysForgotten(s, steps[0], k);
      RunStaysForgotten(Do(s, steps[0]), steps[1..], s', k);
    }
  }

  // When a task that has published a stream of its own is activated once more, no runtime
  // leads to that stream any longer, and nothing ever closes it: not the teardown of the
  // task, not shutdown.
  lemma FirstStreamNeverClosed(ports: set<int>, cap: int, before: seq<Step>, s: State,
                               t: TaskId, subband: bool, ok: bool, after: seq<Step>, s': State)
    requires Leads(Init(ports, cap), before, s) && t in s.radio.runtimes
    requires OffChannels(s.radio, s.radio.runtimes[t].stream) && s.radio.closes[s.radio.runtimes[t].stream] == 0
    requires Leads(ActivatedAgain(s, t, subband, ok), after, s')
    ensures var k := s.radio.runtimes[t].stream;
            k < s'.radio.streams && s'.radio.closes[k] == 0
            && forall u :: u in s'.radio.runtimes ==> s'.radio.runtimes[u].stream != k
  {
    var k := s.radio.runtimes[t].stream;
    BaseInit(ports, cap);
    SaneInit(ports, cap);
    RunIsSane(Init(ports, cap), before, s);
    AgainForgotten(s, t, subband, ok);
    RunStaysForgotten(ActivatedAgain(s, t, subband, ok), after, s', k);
    forall u | u in s'.radio.runtimes
      ensures s'.radio.runtimes[u].stream != k
    {
      assert Held(s'.acts, s'.radio, u) == Some(s'.radio.runtimes[u]);
    }
  }

  lemma AgainForgotten(s: State, t: TaskId, subband: bool, ok: bool)
    requires Base(s) && StreamsSane(s) && t in s.radio.runtimes
    requires OffChannels(s.radio, s.radio.runtimes[t].stream) && s.radio.closes[s.radio.runtimes[t].stream] == 0
    ensures Base(ActivatedAgain(s, t, subband, ok))
    ensures Forgotten(ActivatedAgain(s, t, subband, ok), s.radio.runtimes[t].stream)
  {
    var k, s' := s.radio.runtimes[t].stream, ActivatedAgain(s, t, subband, ok);
    assert HolderSane(s, t) && Held(s.acts, s.radio, t) == Some(s.radio.runtimes[t]);
    forall u | Held(s'.acts, s'.radio, u).Some?
      ensures Held(s'.acts, s'.radio, u).value.stream != k
    {
      assert OneHolder(s, t, u);
    }
    forall u | u in s'.acts && s'.acts[u].Join?
      ensures s'.acts[u].joined != k
    {
      assert Knows(s, u) && u in s.ledger.registry;
    }
  }
}
