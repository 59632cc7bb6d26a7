// The task lifecycle protocol of ResourceManager as a step system: the thread that
// accepts requests, the scheduler tick, one activation thread per task, any number of
// deactivation calls, and the shutdown thread. Every section the source runs under one
// lock is one step, so a step of any other thread can fall between two of them.
module Lifecycle {
  import opened Basics
  import UdpPortPool

  type TaskId = nat
  type Device = nat
  type Channel = nat  // a channel key, "device:channel"
  type Stream = nat   // one hardware stream, with the one IQStreamer that reads it
  type CallId = nat   // one call of deactivateTask

  datatype End = Completed | Cancelled | Failed

  datatype Phase =
    | Scheduled
    | Pending
    | Running
    | Terminal(end: End, reason: string)

  // The record kept in the registry. poolPorts and clientPorts together are the recorded
  // udp_ports; the first were drawn from the pool, the second named by the client.
  datatype Task = Task(
    phase: Phase,
    devices: set<Device>,
    channel: Channel, sharedLo: bool,
    poolPorts: set<int>, clientPorts: set<int>)

  datatype Runtime = Runtime(stream: Stream, subband: bool)

  datatype Consumers = Consumers(dests: set<TaskId>, subbands: set<TaskId>)

  // Where an activation thread stands (activateTask).
  datatype ActPc =
    | Start
    | WantHw
    | Recheck
    | LookUp
    | Join(joined: Stream)
    | Open
    | Opened(own: Stream)
    | SetUp(rt: Runtime)
    | Publish(rt: Runtime)
    | Finish
    | Returning
    | Failing
    | Awaiting(call: CallId)
    | Exited

  // Where a call of deactivateTask stands. `claimed` is !already_terminal.
  datatype CallPc =
    | Claim
    | OrphanTest
    | WantTeardown(claimed: bool)
    | Release
    | Done

  datatype Call = Call(task: TaskId, end: End, reason: string, pc: CallPc)

  // Where the accepting thread stands (tryAccept).
  datatype Acceptor =
    | Idle
    | CountedScheduled(n: nat)
    | CountedPending(n: nat)
    | Cleared
    | Gathered(cands: map<TaskId, Stream>)
    | Converting(plan: map<TaskId, Stream>, out: Option<TaskId>, moved: set<TaskId>)
    | Placing(task: TaskId, record: Task, left: set<Device>)
    | Spawning(task: TaskId)

  // Where the shutdown thread stands (closeDevices).
  datatype Closer =
    | Up
    | Cancelling(todo: set<TaskId>, current: Option<CallId>)
    | Testing
    | Snapping(final: bool)
    | Sweeping(todo: set<TaskId>, current: Option<CallId>, final: bool)
    | Closed

  // What is kept under reg_mu_ and the locks taken inside it. claimant and released are
  // history: which call claimed a task's terminal state, and how often its ports and
  // slots were released.
  datatype Ledger = Ledger(
    registry: map<TaskId, Task>,
    pool: UdpPortPool.Ports,
    slots: set<(Device, TaskId)>,
    claimant: map<TaskId, CallId>,
    released: multiset<TaskId>)

  // What is kept under rt_mu_ and by the streamers. `streams` is the number of hardware
  // streams opened so far; closes counts how often each was closed.
  datatype Radio = Radio(
    runtimes: map<TaskId, Runtime>,
    channels: map<Channel, Stream>,
    consumers: map<Stream, Consumers>,
    streams: nat,
    closes: multiset<Stream>)

  datatype State = State(
    cap: int,
    ledger: Ledger,
    radio: Radio,
    hw: Option<TaskId>,
    acts: map<TaskId, ActPc>,
    calls: map<CallId, Call>,
    acceptor: Acceptor,
    ticker: set<TaskId>,
    closer: Closer)

  function Init(ports: set<int>, cap: int): State
  {
    State(cap,
          Ledger(map[], UdpPortPool.Ports(ports, {}), {}, map[], multiset{}),
          Radio(map[], map[], map[], 0, multiset{}),
          None, map[], map[], Idle, {}, Up)
  }

  // Scheduled tasks only (rank 0), those and pending ones (1), all live ones (2).
  function Stage(p: Phase): nat
  {
    match p
    case Scheduled => 0
    case Pending => 1
    case Running => 2
    case Terminal(_, _) => 3
  }

  function UpTo(registry: map<TaskId, Task>, rank: nat): set<TaskId>
  {
    set t | t in registry && Stage(registry[t].phase) <= rank
  }

  function InPhase(registry: map<TaskId, Task>, p: Phase): set<TaskId>
  {
    set t | t in registry && registry[t].phase == p
  }

  // countByState, under its own lock.
  function CountByPhase(registry: map<TaskId, Task>, p: Phase): nat
  {
    |InPhase(registry, p)|
  }

  function SetPhase(l: Ledger, t: TaskId, p: Phase): Ledger
    requires t in l.registry
  {
    l.(registry := l.registry[t := l.registry[t].(phase := p)])
  }

  predicate Ended(l: Ledger, t: TaskId)
  {
    t in l.registry && l.registry[t].phase.Terminal?
  }

  // ---- tryAccept ----

  datatype AcceptStep =
    | CountScheduled
    | CountPending
    | CountRunning
    | Decline                                   // any other reason to reject
    | Draw(task: TaskId, record: Task, n: nat)  // ports from the pool, then a fresh id
    | Insert(device: Device)                    // one timeline slot
    | Register
    | Spawn
    // tryRetuneCombined turns plain consumers into sub-bands in sections of their own:
    | Gather(tasks: set<TaskId>)                // plain consumers on the device, under rt_mu_
    | Check(keep: set<TaskId>)                  // those still live, under reg_mu_
    | MoveOut(task: TaskId)                     // removeDest
    | MoveIn(ok: bool)                          // addSubBand; `ok` if its socket could be set up
    | Flag                                      // is_subband_consumer, under rt_mu_

  ghost predicate CanAccept(s: State, step: AcceptStep)
  {
    && s.closer.Up?
    && match step
       case CountScheduled => s.acceptor.Idle?
       case CountPending => s.acceptor.CountedScheduled?
       case CountRunning => s.acceptor.CountedPending?
       case Decline => s.acceptor.Cleared?
       case Draw(task, record, n) =>
         && s.acceptor.Cleared?
         && task !in s.ledger.registry
         && (record.phase == Scheduled || record.phase == Pending)
         && record.poolPorts == Elements(UdpPortPool.Draw(s.ledger.pool, n).1)
       case Insert(device) => s.acceptor.Placing? && device in s.acceptor.left
       case Register => s.acceptor.Placing? && s.acceptor.left == {}
       case Spawn => s.acceptor.Spawning?
       case Gather(tasks) =>
         s.acceptor.Cleared? && forall t :: t in tasks ==> t in s.radio.runtimes && !s.radio.runtimes[t].subband
       case Check(keep) =>
         && s.acceptor.Gathered? && keep <= s.acceptor.cands.Keys
         && forall t :: t in keep ==>
              t in s.ledger.registry && s.ledger.registry[t].sharedLo && !Ended(s.ledger, t)
       case MoveOut(t) =>
         s.acceptor.Converting? && s.acceptor.out == None && t in s.acceptor.plan && t !in s.acceptor.moved
       case MoveIn(_) => s.acceptor.Converting? && s.acceptor.out.Some?
       case Flag => s.acceptor.Converting? && s.acceptor.out == None && s.acceptor.moved == s.acceptor.plan.Keys
  }

  function AcceptorAfter(s: State, step: AcceptStep): Acceptor
  {
    var a := s.acceptor;
    var registry := s.ledger.registry;
    match step
    case CountScheduled => CountedScheduled(CountByPhase(registry, Scheduled))
    case CountPending =>
      if a.CountedScheduled? then CountedPending(a.n + CountByPhase(registry, Pending)) else a
    case CountRunning =>
      if a.CountedPending? && a.n + CountByPhase(registry, Running) < s.cap then Cleared else Idle
    case Decline => Idle
    case Draw(task, record, n) =>
      if |s.ledger.pool.free| < n then Idle  // pool exhausted
      else Placing(task, record, record.devices)
    case Insert(device) => if a.Placing? then a.(left := a.left - {device}) else a
    case Register => if a.Placing? && a.record.phase == Pending then Spawning(a.task) else Idle
    case Spawn => Idle
    case Gather(tasks) => Gathered(map t | t in tasks && t in s.radio.runtimes :: s.radio.runtimes[t].stream)
    case Check(keep) =>
      if a.Gathered? then Converting(map t | t in keep && t in a.cands :: a.cands[t], None, {}) else a
    case MoveOut(t) => if a.Converting? then a.(out := Some(t)) else a
    case MoveIn(_) =>
      if a.Converting? && a.out.Some? then a.(out := None, moved := a.moved + {a.out.value}) else a
    case Flag => Cleared
  }

  ghost function LedgerAfterAccept(l: Ledger, a: Acceptor, step: AcceptStep): Ledger
  {
    if step.Draw? then l.(pool := UdpPortPool.Draw(l.pool, step.n).0)
    else if step.Insert? && a.Placing? then l.(slots := l.slots + {(step.device, a.task)})
    else if step.Register? && a.Placing? then l.(registry := l.registry[a.task := a.record])
    else l
  }

  function FlagMoved(runtimes: map<TaskId, Runtime>, moved: set<TaskId>): map<TaskId, Runtime>
  {
    map t | t in runtimes :: if t in moved then Runtime(runtimes[t].stream, true) else runtimes[t]
  }

  function RadioAfterAccept(r: Radio, a: Acceptor, step: AcceptStep): Radio
  {
    if step.MoveOut? && a.Converting? && step.task in a.plan then
      var c := ConsumersOf(r, a.plan[step.task]);
      r.(consumers := r.consumers[a.plan[step.task] := Consumers(c.dests - {step.task}, c.subbands)])
    else if step.MoveIn? && a.Converting? && a.out.Some? && a.out.value in a.plan then
      if step.ok then AddConsumer(r, a.plan[a.out.value], a.out.value, true) else r
    else if step.Flag? && a.Converting? then
      r.(runtimes := FlagMoved(r.runtimes, a.moved))
    else r
  }

  ghost function Accept(s: State, step: AcceptStep): State
  {
    s.(acceptor := AcceptorAfter(s, step),
       ledger := LedgerAfterAccept(s.ledger, s.acceptor, step),
       radio := RadioAfterAccept(s.radio, s.acceptor, step),
       acts := if step.Spawn? && s.acceptor.Spawning? then s.acts[s.acceptor.task := Start] else s.acts)
  }

  // ---- schedulerTick ----

  // A tick first collects due tasks that are still SCHEDULED, then starts a thread for
  // each. Here a task that already has an activation thread is not collected again.
  datatype TickStep = Collect(due: set<TaskId>) | Launch(task: TaskId)

  ghost predicate CanTick(s: State, step: TickStep)
  {
    && s.closer.Up?
    && match step
       case Collect(due) =>
         && s.ticker == {}
         && forall t :: t in due ==>
              t in s.ledger.registry && s.ledger.registry[t].phase == Scheduled && t !in s.acts
       case Launch(task) => task in s.ticker
  }

  function Tick(s: State, step: TickStep): State
  {
    match step
    case Collect(due) => s.(ticker := due)
    case Launch(task) => s.(ticker := s.ticker - {task}, acts := s.acts[task := Start])
  }

  // ---- activateTask ----

  // What opening a stream came to: nothing was opened, it was opened and closed again
  // because it did not start, or it streams.
  datatype Outcome = NotOpened | NotStarted | Streaming

  // `ok` says whether the socket of a new consumer could be set up.
  datatype ActStep =
    | Mark
    | TakeHw
    | CheckAgain
    | FindChannel
    | Subscribe(subband: bool, ok: bool)
    | OpenStream(outcome: Outcome, subband: bool, ok: bool)
    | RecordChannel
    | DropHw
    | PublishRuntime
    | SetRunning
    | CallDeactivate(call: CallId, reason: string)
    | AwaitCall
    | Leave

  predicate CanAct(s: State, t: TaskId, step: ActStep)
  {
    && t in s.acts && t in s.ledger.registry
    && match step
       case Mark => s.acts[t] == Start
       case TakeHw => s.acts[t] == WantHw && s.hw == None
       case CheckAgain => s.acts[t] == Recheck
       case FindChannel => s.acts[t] == LookUp
       case Subscribe(_, _) => s.acts[t].Join?
       case OpenStream(_, _, _) => s.acts[t] == Open
       case RecordChannel => s.acts[t].Opened?
       case DropHw => s.acts[t].SetUp?
       case PublishRuntime => s.acts[t].Publish?
       case SetRunning => s.acts[t] == Finish
       case CallDeactivate(call, _) => s.acts[t] == Failing && call !in s.calls
       case AwaitCall => s.acts[t].Awaiting? && s.acts[t].call in s.calls && s.calls[s.acts[t].call].pc == Done
       case Leave => s.acts[t] == Returning
  }

  // Where the thread goes next.
  function PcAfter(s: State, t: TaskId, step: ActStep): ActPc
    requires CanAct(s, t, step)
  {
    var record := s.ledger.registry[t];
    match step
    // The record becomes PENDING before the thread looks at its allocations.
    case Mark => if record.phase.Terminal? || record.devices == {} then Exited else WantHw
    case TakeHw => Recheck
    case CheckAgain => if record.phase.Terminal? then Exited else LookUp
    case FindChannel =>
      if record.sharedLo && record.channel in s.radio.channels then Join(s.radio.channels[record.channel])
      else Open
    case Subscribe(subband, _) => SetUp(Runtime(s.acts[t].joined, subband))
    case OpenStream(outcome, subband, _) =>
      if outcome != Streaming then Failing
      else if record.sharedLo then Opened(s.radio.streams)
      else SetUp(Runtime(s.radio.streams, subband))
    // The stream of a shared-LO device starts as plain fan-out.
    case RecordChannel => SetUp(Runtime(s.acts[t].own, false))
    case DropHw => Publish(s.acts[t].rt)
    case PublishRuntime => Finish
    case SetRunning => Returning
    case CallDeactivate(call, _) => Awaiting(call)
    case AwaitCall => Exited
    case Leave => Exited
  }

  function LedgerAfterAct(l: Ledger, t: TaskId, step: ActStep): Ledger
    requires t in l.registry
  {
    if Ended(l, t) then l
    else if step == Mark then SetPhase(l, t, Pending)
    else if step == SetRunning then SetPhase(l, t, Running)
    else l
  }

  function HwAfterAct(hw: Option<TaskId>, t: TaskId, step: ActStep, pc: ActPc): Option<TaskId>
  {
    if step == TakeHw then Some(t)
    else if step == DropHw || (step == CheckAgain && pc == Exited) || (step.OpenStream? && pc == Failing) then None
    else hw
  }

  function AddConsumer(r: Radio, k: Stream, t: TaskId, subband: bool): Radio
  {
    var c := ConsumersOf(r, k);
    r.(consumers := r.consumers[k := if subband then Consumers(c.dests, c.subbands + {t})
                                     else Consumers(c.dests + {t}, c.subbands)])
  }

  function ConsumersOf(r: Radio, k: Stream): Consumers
  {
    if k in r.consumers then r.consumers[k] else Consumers({}, {})
  }

  // A new stream; it is closed again at once when it did not start.
  function OpenNew(r: Radio, started: bool): Radio
  {
    r.(streams := r.streams + 1,
       consumers := r.consumers[r.streams := Consumers({}, {})],
       closes := if started then r.closes else r.closes + multiset{r.streams})
  }

  function RadioAfterAct(s: State, t: TaskId, step: ActStep): Radio
    requires CanAct(s, t, step)
  {
    var r := s.radio;
    var record := s.ledger.registry[t];
    match step
    case Subscribe(subband, ok) => if ok then AddConsumer(r, s.acts[t].joined, t, subband) else r
    case OpenStream(outcome, subband, ok) =>
      if outcome == NotOpened then r
      else
        var r' := OpenNew(r, outcome == Streaming);
        if outcome == Streaming && ok then AddConsumer(r', r.streams, t, subband && !record.sharedLo) else r'
    case RecordChannel => r.(channels := r.channels[record.channel := s.acts[t].own])
    case PublishRuntime => r.(runtimes := r.runtimes[t := s.acts[t].rt])
    case _ => r
  }

  function Act(s: State, t: TaskId, step: ActStep): State
    requires CanAct(s, t, step)
  {
    var pc := PcAfter(s, t, step);
    s.(acts := s.acts[t := pc],
       hw := HwAfterAct(s.hw, t, step, pc),
       ledger := LedgerAfterAct(s.ledger, t, step),
       radio := RadioAfterAct(s, t, step),
       calls := if step.CallDeactivate? then s.calls[step.call := Call(t, Failed, step.reason, Claim)] else s.calls)
  }

  // ---- deactivateTask ----

  datatype CallStep =
    | ClaimEnd
    | TestOrphan
    | TearDown
    | ReleaseAll

  predicate CanCall(s: State, d: CallId, step: CallStep)
  {
    && d in s.calls
    && match step
       case ClaimEnd => s.calls[d].pc == Claim
       case TestOrphan => s.calls[d].pc == OrphanTest
       case TearDown => s.calls[d].pc.WantTeardown? && s.hw == None
       case ReleaseAll => s.calls[d].pc == Release
  }

  function CallPcAfter(s: State, c: Call, step: CallStep): CallPc
  {
    match step
    case ClaimEnd =>
      if c.task !in s.ledger.registry then Done
      else if Ended(s.ledger, c.task) then OrphanTest
      else WantTeardown(true)
    case TestOrphan => if c.task in s.radio.runtimes then WantTeardown(false) else Done
    case TearDown => if c.pc == WantTeardown(true) then Release else Done
    case ReleaseAll => Done
  }

  // The slots a task has on the timelines of its own devices.
  function SlotsOf(l: Ledger, t: TaskId): set<(Device, TaskId)>
    requires t in l.registry
  {
    set e | e in l.slots && e.1 == t && e.0 in l.registry[t].devices
  }

  ghost function LedgerAfterCall(l: Ledger, d: CallId, c: Call, step: CallStep): Ledger
  {
    if c.task !in l.registry then l
    else if step == ClaimEnd && !Ended(l, c.task) then
      SetPhase(l, c.task, Terminal(c.end, c.reason)).(claimant := l.claimant[c.task := d])
    else if step == ReleaseAll then
      l.(slots := l.slots - SlotsOf(l, c.task),
         pool := UdpPortPool.GiveBack(l.pool, l.registry[c.task].poolPorts + l.registry[c.task].clientPorts),
         released := l.released + multiset{c.task})
    else l
  }

  function DropConsumer(c: Consumers, t: TaskId, subband: bool): Consumers
  {
    if subband then Consumers(c.dests, c.subbands - {t}) else Consumers(c.dests - {t}, c.subbands)
  }

  function ChannelsOn(r: Radio, k: Stream): set<Channel>
  {
    set ch | ch in r.channels && r.channels[ch] == k
  }

  // Does dropping the runtime of t close its stream? A stream found in channel_states_
  // is closed when its last consumer left; one not found there is closed unconditionally.
  predicate ClosesStream(r: Radio, t: TaskId)
    requires t in r.runtimes
  {
    var rt := r.runtimes[t];
    ChannelsOn(r, rt.stream) == {}
    || DropConsumer(ConsumersOf(r, rt.stream), t, rt.subband) == Consumers({}, {})
  }

  // The section under hw_activation_mu_ and rt_mu_.
  function DropRuntime(r: Radio, t: TaskId): Radio
    requires t in r.runtimes
  {
    var rt := r.runtimes[t];
    var k := rt.stream;
    if ClosesStream(r, t) then
      Radio(r.runtimes - {t}, r.channels - ChannelsOn(r, k), r.consumers[k := Consumers({}, {})],
            r.streams, r.closes + multiset{k})
    else
      r.(runtimes := r.runtimes - {t},
         consumers := r.consumers[k := DropConsumer(ConsumersOf(r, k), t, rt.subband)])
  }

  ghost function Deactivate(s: State, d: CallId, step: CallStep): State
    requires CanCall(s, d, step)
  {
    var c := s.calls[d];
    s.(calls := s.calls[d := c.(pc := CallPcAfter(s, c, step))],
       ledger := LedgerAfterCall(s.ledger, d, c, step),
       radio := if step == TearDown && c.task in s.radio.runtimes then DropRuntime(s.radio, c.task) else s.radio)
  }

  // ---- closeDevices ----

  datatype CloseStep =
    | BeginClose
    | CloseTask(task: TaskId, call: CallId)
    | AwaitClose
    | EndRound
    | TestInFlight
    | SnapRuntimes

  function InFlight(s: State): set<TaskId>
  {
    set t | t in s.acts && s.acts[t] != Exited
  }

  predicate InRound(c: Closer)
  {
    c.Cancelling? || c.Sweeping?
  }

  // Controller::stop has joined the scheduler and stopped the message thread by then.
  predicate CanClose(s: State, step: CloseStep)
  {
    match step
    case BeginClose => s.closer.Up? && s.acceptor.Idle? && s.ticker == {}
    case CloseTask(task, call) =>
      InRound(s.closer) && s.closer.current == None && task in s.closer.todo && call !in s.calls
    case AwaitClose =>
      InRound(s.closer) && s.closer.current.Some?
      && s.closer.current.value in s.calls && s.calls[s.closer.current.value].pc == Done
    case EndRound => InRound(s.closer) && s.closer.current == None && s.closer.todo == {}
    case TestInFlight => s.closer.Testing?
    case SnapRuntimes => s.closer.Snapping?
  }

  function CloserAfter(s: State, step: CloseStep): Closer
    requires CanClose(s, step)
  {
    match step
    case BeginClose => Cancelling(UpTo(s.ledger.registry, 2), None)
    case CloseTask(task, call) => s.closer.(todo := s.closer.todo - {task}, current := Some(call))
    case AwaitClose => s.closer.(current := None)
    case EndRound => if s.closer.Sweeping? && s.closer.final then Closed else Testing
    case TestInFlight => Snapping(InFlight(s) == {})
    case SnapRuntimes => Sweeping(s.radio.runtimes.Keys, None, s.closer.final)
  }

  function Close(s: State, step: CloseStep): State
    requires CanClose(s, step)
  {
    s.(closer := CloserAfter(s, step),
       calls := if step.CloseTask? then s.calls[step.call := Call(step.task, Cancelled, "controller shutdown", Claim)]
                else s.calls)
  }

  // ---- Runs ----

  // Begin is any call of deactivateTask: stop, cancel, watchdog, stream error, preemption.
  datatype Step =
    | OfAcceptor(a: AcceptStep)
    | OfTick(k: TickStep)
    | OfAct(t: TaskId, act: ActStep)
    | Begin(d: CallId, target: TaskId, end: End, reason: string)
    | OfCall(d: CallId, call: CallStep)
    | OfCloser(c: CloseStep)

  ghost predicate Can(s: State, step: Step)
  {
    match step
    case OfAcceptor(a) => CanAccept(s, a)
    case OfTick(k) => CanTick(s, k)
    case OfAct(t, a) => CanAct(s, t, a)
    case Begin(d, _, _, _) => d !in s.calls
    case OfCall(d, c) => CanCall(s, d, c)
    case OfCloser(c) => CanClose(s, c)
  }

  ghost function Do(s: State, step: Step): State
    requires Can(s, step)
  {
    match step
    case OfAcceptor(a) => Accept(s, a)
    case OfTick(k) => Tick(s, k)
    case OfAct(t, a) => Act(s, t, a)
    case Begin(d, t, end, reason) => s.(calls := s.calls[d := Call(t, end, reason, Claim)])
    case OfCall(d, c) => Deactivate(s, d, c)
    case OfCloser(c) => Close(s, c)
  }

  // steps can be taken from s one after the other, ending in s'.
  ghost predicate Leads(s: State, steps: seq<Step>, s': State)
    decreases steps
  {
    if steps == [] then s == s'
    else Can(s, steps[0]) && Leads(Do(s, steps[0]), steps[1..], s')
  }
}
