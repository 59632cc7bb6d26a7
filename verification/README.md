# Verified model of the SDR resource task manager

The controller lets clients reserve software radios: a request names a centre frequency, a
bandwidth, a sample rate, a number of channels and a time window. The resource manager
finds a device, reserves a slice of its time/frequency plane and UDP ports, and later
opens the hardware stream, shares it between tasks, decimates it, and takes everything
down again. This project models five parts of it and proves what they keep.

**The task lifecycle protocol** (`Lifecycle*.dfy`, `DoubleActivation.dfy`,
`SecondActivation.dfy`).
Accepting, activating, deactivating and shutting down run on different threads. Every
section that the source runs under one lock is one step of a state machine, so any step of
another thread can fall in between. Proved for every interleaving: ports and slots are
charged to one task each and released exactly once, phases only move forward, the task cap
holds although its three counts are read at different times, shutdown leaves nothing
behind and its waits end. A stream is closed exactly once and only by its last consumer,
unless a consumer's socket failed or a teardown disturbed a conversion to a sub-band; what
happens then is proved exactly as well.

**Locks and joins** (`LockOrder.dfy`, `LockSystem.dfy`, `LockGuards.dfy`). Every kind of thread as the mutexes
it takes, nested as in the source, and the threads it joins. Any number of them together,
in any state they can reach, are never all blocked, and what the locks are for holds
(`LockGuards`).

**The reservation engine** (`Slots`, `FirstFit`, `Channels`, `Fitting`, `Placing`, `Combining`,
`SpectrumTimeline`, `TimelineRuns`). The timeline object and its loops are methods over
mutable state, each proved to compute a function of the slots. `Placing` gives every answer
of that function in terms of the slots and the request alone, which leaves one answer to
every question; about the functions it is proved that the packing finds the least feasible position and gives up only if there is
none, that passing the channel guard guarantees enough distinct free channels, that a
combined window is the narrowest one, and what every run of bookings keeps.

**Admission** (`DeviceSelection`, `Admission`, `Widening`, `Sharing`, `Grants`, `Coherent`,
`Acceptance`, `Outcomes`, `AdmissionRuns`, `AdmissionLimits`, `ResourceManager`,
`UdpPortPool`, `LedgerView`). Device choice, rank preemption, sharing by combined windows,
and coherent tasks over several boards. What a request comes to (accepted or not, with
which channels, what becomes of its ports) is told exactly from the books before it. The class
`ResourceManager` changes timelines, pool and registry in place; its methods refine
functions on a value called `Books`, and every run of them keeps timelines, registry and
pool in agreement. Each accept or cancel is one step here; the interleavings are the
business of the lifecycle model, and `LedgerView` proves that the two keep the same account
of ports and slots.

**The streaming down-converter** (`Convolution`, `LowPass`, `Ddc`, and the consumer lists in
`IQStreamer`). The ring buffer, the phase accumulator and the decimation counter compute
the direct convolution over the whole history, however the input is cut into blocks; the
response to single samples and to sums fixes every output.

## What did not hold as intended

- *Two activations.* `schedulerTick` starts a thread for a SCHEDULED task but the thread marks
  it PENDING only later, so the next tick can start a second one, which can take a RUNNING
  task back to PENDING. `DoubleActivation` gives the run, the step at which a phase moves
  back, and exactly from which states it still can. The second activation also joins or
  opens the task's streams again. Teardown removes one entry only, so on a shared stream the
  ended task stays listed and keeps the stream open
  (`SecondActivation.StillListedExactlyWhen`), and a stream of its own that the first
  activation opened is never closed (`SecondActivation.FirstStreamNeverClosed`). The
  lifecycle model takes each task to be activated at most once.
- *Lost sockets.* If a consumer's socket cannot be set up the task still becomes RUNNING and
  counts on its stream; the stream can be closed under it and is then closed again
  (`LifecycleLimits.LostSocketClosesTwice`, exact condition in
  `LifecycleLost.LostExactlyWhen`).
- *Disturbed conversions.* Widening a window converts plain consumers to sub-bands in several
  locked sections. A teardown in between can leave a task that is gone among the consumers,
  so that its stream is never closed (`LifecycleLimits.CutShortLeaksStream`), or close the
  stream of the one being moved. `LifecycleConversion.ConversionsKeepStreamsExactlyWhen` says
  exactly which teardowns do harm, and that the harm is never undone.
- *Client ports.* A client may name a port inside the pool's range. It is given back to the
  pool when that client's task ends, even while another task streams to it
  (`LifecycleLimits.ClientPortFreesAnothersPort`). The exact condition for a release to keep
  the books is `LifecycleAccounts.ReleaseBalanceCondition`.
- *Required device.* `required_device` is called a hard constraint, but sharing by a combined
  window ignores it (`AdmissionLimits.RequiredDeviceMissed`, exact condition in
  `Acceptance.RequiredDeviceHonoured`).
- *Preempted for nothing.* Preemption takes the first device it can, whether or not the request may
  use it. A task is ended and the request still turned down in
  `AdmissionLimits.EndedForNothing`; `Outcomes.InVainExactlyWhen` says exactly when no
  search gains from it, and `Outcomes.InVainOnlyElsewhere` that, within the devices' limits,
  it takes a required device other than the one cleared.
- *Unrecorded ports.* A shared device can offer fewer channels than asked for. The ports drawn for
  the others are recorded nowhere (`AdmissionLimits.UnrecordedPort`). Exact condition on the
  books before the request: `Outcomes.LeavesPortsExactlyWhen`, and that it is what leaves a
  port behind: `AdmissionRuns.AcceptOneKeeps`.
- *Channels not asked for.* Sharing looks at the RX count only. A transmit-only request that shares
  a device is given the RX channels in use and no TX channel, and can have fewer ports than
  channels, whose list is then read past its end (`AdmissionLimits.TransmitGetsReceivers`).
  Exact conditions: `Outcomes.AsAskedExactlyWhen` and `Outcomes.OverrunExactlyWhen`.
- *Named channels.* A request that names a channel in use can be refused by a shared device that
  has it: only as many channels are on offer as are asked for, in timeline order
  (`AdmissionLimits.NamedChannelPassedOver`, exact condition in `Sharing.SeatExactlyWhen`).
- *Later slots.* A retune rewrites every slot of the device, but the window is computed from the
  overlapping ones only, so a later slot can end up outside its stored window
  (`AdmissionLimits.LaterSlotStranded`, exact conditions in `Combining.RetuneCoversExactly`
  and `Combining.RetuneStrandsExactly`).
- *Transmit demand.* The coherent path ignores it: a transmit-only request to a group is
  accepted with no device at all (`Coherent.TransmitDemandIsIgnored`), and then never runs
  (`LifecycleEnded.ActivationSettles`).
- *Ranges of members.* Nor does it look at the ranges of frequency, bandwidth and rate of the
  members it books (`Coherent.RangesAreIgnored`); the request was only compared with all
  devices together (src/ResourceManager.cpp:239-250).
- *Below the floor of a shared device.* A request below a device's lowest rate is acquired at a
  multiple and, as src/ResourceManager.cpp:192-195 has it, brought down to exactly the rate
  asked for. The first task on a device with one oscillator is sent the multiple
  (`DeviceSelection.FirstBelowFloor`), and so is a later one with several channels. Exact
  conditions: `DeviceSelection.DeliveredAboveOneHertz` and
  `DeviceSelection.BorrowedAsRequested`.
- *Very low rates.* A request so slow that the acquired multiple differs from it by at most
  1 Hz is passed on undecimated everywhere (`DeviceSelection.DeliveredAsRequested`).
- *Too large a step.* The phase correction subtracts one turn per sample, so the phase stays in
  range exactly when a step is at most a whole turn (`Convolution.PhaseStaysInTurn`).
- A comment in `closeDevices` (src/ResourceManager.cpp:100-108) says that an orphaned runtime
  holds the hardware lock. In the code the lock is released before a runtime is published;
  the model follows the code.

## Assumptions

- One thread accepts requests, as docs/ARCHITECTURE.md:44-47 says; before shutdown it and the
  scheduler have stopped (src/Controller.cpp:63-78). For the accepting thread that holds only
  if it is quick: `AmqpClient::stop` (src/AmqpClient.cpp:136-163) waits for it for a bounded
  time and then detaches it, so a `tryAccept` that takes longer runs on beside shutdown. The
  results about shutdown do not cover such a run.
- The states and which of them are terminal are those of docs/ICD.md:931-945. EVALUATING and
  COMPLETING do not occur in the code that is modelled.
- Hardware calls succeed or fail in any way; a stream that is opened is a new one. Task ids are
  never used twice. The clock, the outcome of a tune and the outcome of setting up a socket
  are parameters.
- Frequencies, rates and samples are real numbers. Sine and cosine are given functions of
  which only periodicity, parity and the sum of squares are used, and only where stated.
- A runtime is erased in the section that takes its executors out (src/ResourceManager.cpp:1629-1678),
  so in `LockSystem` only one thread ever stops them; an executor's own callback is about
  its own task.
- Devices are numbered in iteration order, taken to be the same for the device map and the
  timeline map. Device ids, group names and task ids are numbers; group 0 is the empty name.

## Model

| member | source | states |
|---|---|---|
| LifecycleBase.RunMovesForward | src/ResourceManager.cpp:1254-1604 | over any interleaving of all threads no task disappears, no phase moves back, and a terminal state and its reason never change |
| LifecycleBase.StepMovesForward | src/ResourceManager.cpp:1554-1604 | the same for each single step, from any state with consistent threads and locks |
| LifecycleBase.BaseKept | src/ResourceManager.cpp:1274-1313 | every step keeps: the hardware lock has the holder its threads say, a RUNNING task has published its runtime, runtimes belong to threads past publishing, accepts and ticks name tasks without threads |
| LifecycleEnded.EndedOpensNothing | src/ResourceManager.cpp:1254-1281 | over every run: a task that ended before its thread rechecked it under the hardware lock is never again consumer of a stream nor has a runtime, and its thread opens, joins and publishes nothing; if it ended before it was marked its thread never asks for that lock |
| LifecycleEnded.ActivationSettles | src/ResourceManager.cpp:1254-1582 | in every run: a thread's first step takes its task out of SCHEDULED, a finished activation leaves a task with a device RUNNING or ended, one without never runs, a failed set-up asks for FAILED, a PENDING task has its thread, a RUNNING task has a runtime, and a terminal state and reason are those of the call that claimed it |
| LifecycleEnded.RunningIsStreaming | src/ResourceManager.cpp:1548-1575 | with working sockets and undisturbed conversions a RUNNING task is a consumer of an open stream, unless it is just being moved between the lists |
| LifecycleEnded.OneStreamPerChannel | src/ResourceManager.cpp:1308-1429 | there too, between requests, two tasks have the same stream iff both are on shared-LO devices and on the same channel |
| LifecycleEnded.DeactivatedHasEnded | src/ResourceManager.cpp:1593-1611 | in every run: once a call of deactivateTask for a known task has claimed or passed it on, the task has ended |
| LifecycleEnded.CollectedGetsThread | src/ResourceManager.cpp:1704-1721 | in every run a task collected by a tick keeps its place until its thread is started |
| LifecycleAccounts.RunKeepsAccounts | src/ResourceManager.cpp:1588-1699 | in every interleaving used ports are the disjoint union of what unreleased tasks and the one being placed are charged with; claims are unique; slots match unreleased tasks |
| LifecycleAccounts.AtRest | src/ResourceManager.cpp:1588-1699 | with no thread mid-call, used ports are the disjoint union of live tasks' recorded pool ports, a slot stands for a task on a device iff it is live and allocated there, and every terminal task was released exactly once |
| LifecycleAccounts.ClaimedOnceKept | src/ResourceManager.cpp:1593-1611 | any step keeps: a terminal task has exactly one claiming call, only that call may release it, and it has been released once if that call is done and not before |
| LifecycleAccounts.ReleaseBalanceCondition | src/ResourceManager.cpp:1689-1697 | a release keeps pool and recorded charges in balance iff none of the client ports handed back with it is charged to another task |
| LifecycleAccounts.BalanceKept | include/UdpPortPool.hpp:43-63 | every step keeps used ports equal to the disjoint union of the charges, client ports being outside the pool's range |
| LifecycleAccounts.SlotsKept | src/ResourceManager.cpp:1685-1699 | every step keeps: a slot is on a timeline exactly for recorded unreleased tasks on their devices and for the inserted part of the task being placed |
| LifecycleCap.CapHolds | src/ResourceManager.cpp:279-284 | in no interleaving are there more non-terminal tasks than max_concurrent_tasks |
| LifecycleEnded.CountsExactly | src/ResourceManager.cpp:279-284 | with no step in between, the three counts let a request pass iff the live tasks are fewer than the cap |
| LifecycleCap.StaysWithinCap | src/ResourceManager.cpp:1765-1770 | every step keeps the cap and what the accepting thread knows: its partial sum covers all tasks still that far back |
| LifecycleCap.FewerLeftBehind | src/ResourceManager.cpp:279-284 | between two counts of the accepting thread the tasks at most at a given phase can only become fewer |
| LifecycleStreams.ConsumersAreHolders | src/ResourceManager.cpp:1306-1429 | in every run with working sockets and undisturbed conversions the consumers of a stream are exactly the tasks with a published or in-construction runtime on it, less one being moved between the lists; a stream is open iff there is one; it is closed at most once |
| LifecycleStreams.NeverClosedUnderSubscriber | src/ResourceManager.cpp:1633-1679 | the step that closes a stream closes it for the first time and leaves no task holding it |
| LifecycleStreams.ClosesWhenLast | src/ResourceManager.cpp:1639-1671 | teardown closes the stream of a runtime iff the task is its only consumer, and takes just that consumer away |
| LifecycleStreams.StreamsKept | src/ResourceManager.cpp:1311-1429 | every step with working sockets that disturbs no conversion keeps the whole correspondence of holders, consumer lists, channel entries and stream closures |
| LifecycleStreams.MoveOutKeeps | src/ResourceManager.cpp:1147 | so does taking a task under conversion out of the plain consumers |
| LifecycleStreams.MoveInKeeps | src/ResourceManager.cpp:1148-1151 | so does putting it among the sub-bands |
| LifecycleStreams.FlagKeeps | src/ResourceManager.cpp:1161-1169 | so does setting the flags of all that were moved |
| LifecycleStreams.TearDownKeeps | src/ResourceManager.cpp:1622-1679 | so does the teardown section, which removes one runtime |
| LifecycleSane.RunIsSane | src/ResourceManager.cpp:1311-1429 | in every run at all, whatever sockets and conversions did: channels lead to open streams and no two to the same, an open stream without a channel has at most one holder, and what a thread in the hardware section knows of its channel stays true |
| LifecycleLost.RunConsumersHold | src/IQStreamer.cpp:45-140 | in every run that tears down no task amid its conversion, sockets or not, the consumers of a stream are among its holders and in the list their runtimes say |
| LifecycleLost.LostExactlyWhen | src/ResourceManager.cpp:1639-1671 | there, a teardown closes the stream under a task that still holds it iff some task still does and the stream was closed before or none of those is registered; it closes the stream again iff it was closed before; no other stream is touched |
| LifecycleLost.ClosesUnlessRegistered | src/ResourceManager.cpp:1639-1671 | a teardown closes its stream iff it was closed before or no other task is registered on it |
| LifecycleConversion.ConversionsKeepStreamsExactlyWhen | src/ResourceManager.cpp:1082-1169 | in every run with working sockets, between conversions: consumers, holders, channels and closings agree iff no teardown took down a task between the check that it is live and the setting of its flag, or closed its stream while it was in neither list |
| LifecycleConversion.DisturbanceSpoils | src/ResourceManager.cpp:1622-1679 | such a teardown leaves a task that is gone among the consumers, now or once it is moved, or a stream closed under its holder |
| LifecycleConversion.SpoiltStays | src/ResourceManager.cpp:1622-1679 | no step of any thread undoes that |
| LifecycleShutdown.ClosedIsClean | src/ResourceManager.cpp:82-134 | when the devices are closed no activation is in flight, every task is terminal and no runtime is left, orphaned ones included |
| LifecycleShutdown.ClosedReleasesStreams | src/ResourceManager.cpp:82-134 | by then every stream ever opened has been closed exactly once, if the sockets worked and no conversion was disturbed |
| LifecycleShutdown.ShutdownKept | src/ResourceManager.cpp:114-131 | every step keeps what each round of the shutdown has achieved, against activations that publish late |
| LifecycleShutdown.NoDeadlock | src/ResourceManager.cpp:124-127 | in every reachable state with an activation in flight or an unfinished deactivation, one of these threads can take its next step |
| LifecycleProgress.ActivationsEnd | src/ResourceManager.cpp:124-127 | once shutdown has begun, the activations in flight take a bounded number of steps in all, however many calls shutdown and others make, and when none is in flight it stays so |
| LifecycleProgress.ActStepsRunOut | src/ResourceManager.cpp:1254-1582 | in every run, whatever else goes on, each thread started takes at most eleven steps |
| LifecycleProgress.RoundEnds | src/ResourceManager.cpp:114-131 | in every run a round of cancelling or sweeping takes a bounded number of steps of all threads together, five more for each call others make, and when nothing in it can go on it can be ended |
| LifecycleProgress.WaitEnds | src/ResourceManager.cpp:124-131 | from any reachable state activations and deactivation calls together take a bounded number of steps however they interleave, and when none can take another, nothing is in flight and every call is done |
| LifecycleProgress.WorkRunsOut | src/ResourceManager.cpp:1254-1700 | each such step uses up at least one of the steps that are left, the call a failed activation makes included |
| LifecycleLimits.ClientPortFreesAnothersPort | src/ResourceManager.cpp:470-488 | a reachable state in which a live task's recorded pool port is free |
| LifecycleLimits.LostSocketClosesTwice | src/IQStreamer.cpp:51-66 | reachable states in which a stream is closed under a task that holds it, and later closed again |
| LifecycleLimits.CutShortLeaksStream | src/ResourceManager.cpp:1146-1169 | a reachable state: the only task of a stream was torn down between its move and its flag; it has ended, is still listed, and the stream stays open with no runtime left |
| DoubleActivation.RegressesOnlyAtMark | src/ResourceManager.cpp:1256-1263 | with any number of activation threads a step moves the phase back iff it marks a RUNNING task |
| DoubleActivation.TwoTicksRegress | src/ResourceManager.cpp:1704-1721 | two ticks before the first mark lead to such a step |
| DoubleActivation.GoesBackExactlyWhen | src/ResourceManager.cpp:1704-1721 | from any state some run takes the phase back iff the task is still SCHEDULED, or PENDING or RUNNING with a thread to spare besides the one that makes it RUNNING |
| DoubleActivation.OneThreadNeverRegresses | src/ResourceManager.cpp:1254-1281 | with one activation thread no run moves the phase back |
| SecondActivation.TeardownLeaves | src/ResourceManager.cpp:1635-1642 | after any number of activations of a task on a shared stream its one teardown leaves every entry of the task but one in the last activation's list, and all entries of others |
| SecondActivation.StillListedExactlyWhen | src/ResourceManager.cpp:1639-1671 | the ended task is then still listed iff two of its activations got into the last one's list or one into the other list; the stream is closed iff neither it nor another task is listed |
| SecondActivation.TwiceStaysListed | src/ResourceManager.cpp:1328-1371 | with working sockets: still listed, and the stream left open, iff it was activated more than once |
| SecondActivation.FirstStreamNeverClosed | src/ResourceManager.cpp:1548-1551 | if a task in any run is activated again while its published stream is its own, no runtime ever leads to that stream again and no step of any thread ever closes it |
| LockSystem.NeverDeadlocked | src/ResourceManager.cpp:1274-1313 | any number of workers, executors, activations, accepts, snapshots, ticks, queries, stops and the shutdown thread, each with its own locks and joins: in no reachable state are all started unfinished ones blocked |
| LockSystem.SystemIsDisciplined | src/ResourceManager.cpp:1043-1062 | all of them together keep the discipline of LockOrder: locks in rising order, joins only of lower threads and under lower locks |
| LockGuards.OneAtHardware | src/ResourceManager.cpp:1274-1313 | in every state any number of threads can reach, an activation, accept, snapshot, stop or cancel that is at a radio holds the hardware lock, and no other thread does |
| LockGuards.DeactivateGuarded | src/ResourceManager.cpp:1616-1699 | whoever calls deactivateTask, it closes streams under the hardware lock, takes consumers off under the runtime lock and releases ports and slots under the registry lock |
| LockSystem.StolenStandBelow | src/ScanExecutor.cpp:35-43 | the executors a call stops stand below its thread: it is never one of them, and the other executor of a task finds no runtime any more |
| LockSystem.DeactivateSound | src/ResourceManager.cpp:1593-1700 | deactivateTask keeps the discipline whoever calls it, for any streams, workers and executors, and however early it returns |
| LockSystem.ActivateSound | src/ResourceManager.cpp:1254-1582 | so does activateTask, whatever it sets up, reopening a device under the hardware lock included (src/RadioDevice.cpp:187-224), and however it ends |
| LockSystem.AcceptSound | src/ResourceManager.cpp:1043-1074 | so does tryAccept with locks taken, tasks cancelled, devices retuned and changes announced, in any order |
| LockSystem.SnapshotSound | src/ResourceManager.cpp:655-716 | so does a snapshot, which takes the hardware lock twice |
| LockSystem.ExecutorSound | src/TriggerMonitor.cpp:38-48 | so do scan and trigger threads, which join workers and end in deactivateTask for their own task |
| LockSystem.WatchSound | src/ResourceManager.cpp:1723-1754 | so does the watchdog, which cancels and opens devices |
| LockSystem.CloseSound | src/ResourceManager.cpp:82-134 | so does shutdown: it joins the loops and snapshot threads, sweeps while it waits, waits for activations with no lock held, sweeps again and closes every device |
| LockSystem.PacketsSound | src/IQStreamer.cpp:212-235 | a streamer's worker takes no lock that is held where it is joined |
| LockOrder.SomeThreadProceeds | src/ResourceManager.cpp:1274-1313 | threads that keep the discipline reach no state in which all started unfinished ones are blocked |
| LockOrder.FollowWaits | src/ResourceManager.cpp:1043-1062 | following who waits for whom from any unfinished thread ends at one that is ready |
| LockOrder.StepKeepsDiscipline | src/ResourceManager.cpp:1274-1313 | starting a thread or moving a ready one keeps the discipline |
| LockOrder.SoundKeeps | src/ResourceManager.cpp:1616-1683 | locks nested and joins placed as the discipline asks make operations that keep it |
| LockOrder.JoiningInsideCanDeadlock | src/ResourceManager.cpp:1616-1621 | a teardown that joined an executor under the runtime lock, which the source avoids, reaches a state where both are blocked |
| LockOrder.JoiningOneselfDeadlocks | src/ScanExecutor.cpp:38-40 | so does an executor that joined itself instead of detaching |
| UdpPortPool.LowestPorts | include/UdpPortPool.hpp:43-53 | a draw of n gives exactly n free ports in ascending order |
| UdpPortPool.LowestAreBelowTheRest | include/UdpPortPool.hpp:45-50 | every port left free lies above every port drawn |
| UdpPortPool.DrawMovesPorts | include/UdpPortPool.hpp:43-53 | a draw moves exactly n distinct ports from free to used and keeps the range |
| UdpPortPool.DrawThenGiveBack | include/UdpPortPool.hpp:43-63 | giving back what was drawn restores the pool, also when nothing could be drawn |
| UdpPortPool.GiveBackIsIdempotent | include/UdpPortPool.hpp:55-63 | a second release changes nothing, and only used ports become free |
| UdpPortPool.UdpPortPool.Make | include/UdpPortPool.hpp:30-33 | refused iff first >= last; otherwise all ports first to last are free |
| UdpPortPool.UdpPortPool.Allocate | include/UdpPortPool.hpp:35-41 | the least free port moves to used; -1 and no change when none is free |
| UdpPortPool.UdpPortPool.AllocateN | include/UdpPortPool.hpp:43-53 | n lowest ports, or none and no change |
| UdpPortPool.UdpPortPool.Release | include/UdpPortPool.hpp:55-58 | a used port becomes free; any other changes nothing |
| UdpPortPool.UdpPortPool.ReleaseAll | include/UdpPortPool.hpp:60-63 | the same for a list of ports |
| FirstFit.FindsLeastFeasible | src/SpectrumTimeline.cpp:138-157 | the push-right search returns the least position clear of all intervals in the window, and none iff there is none |
| FirstFit.PushShrinks | src/SpectrumTimeline.cpp:142-157 | every push moves right and leaves fewer intervals ahead, for any set of intervals |
| FirstFit.OrderDoesNotMatter | src/SpectrumTimeline.cpp:131 | the outcome depends only on which intervals are occupied, not on their order |
| FirstFit.SortedIsInOrder | src/SpectrumTimeline.cpp:131 | the sort puts them in order |
| FirstFit.Pack | src/SpectrumTimeline.cpp:138-157 | the loop computes that search |
| FirstFit.SortAndPack | src/SpectrumTimeline.cpp:127-157 | sorting first does not change it |
| Channels.GuardLeavesEnough | src/SpectrumTimeline.cpp:50-75 | passing the count guard implies that exactly the requested number of distinct, in-range, unlisted channels is found, whatever the slots list |
| Channels.LowestFreeChannels | src/SpectrumTimeline.cpp:73 | picked channels ascend, are in range and unlisted, and there are as many as asked for or as there are |
| Channels.NothingSkipped | src/SpectrumTimeline.cpp:73 | a free channel that was not picked lies above all that were |
| Channels.MarkUsed | src/SpectrumTimeline.cpp:41-49 | the flags mark exactly the listed in-range channels and the count is the number of listed ones |
| Channels.PickFree | src/SpectrumTimeline.cpp:73-75 | the loop picks the lowest free channels |
| Fitting.FitChannels | src/SpectrumTimeline.cpp:62-83 | an accepted fit names exactly the requested numbers of distinct channels of the device, none of them listed by an overlapping slot unless one shared-LO channel was asked for by number, which is then the one given |
| Fitting.FitSlice | src/SpectrumTimeline.cpp:76-82 | the slice has the width and tuning asked for; it is centred on it with an own LO and inside the window with a shared one |
| Placing.FitExactly | src/SpectrumTimeline.cpp:19-214 | every answer of canFit from the slots and the request alone: it refuses for tuning iff the first slot in the way has another one, for spectrum iff the band is wider than the rate or there is no place a guard inside the window and two guards from every slice in the way (no guard if none is), for channels iff too many are listed or the named one cannot be had; otherwise the slice is at the lowest such place, or centred with an own LO, on the lowest channels not in use or the named one |
| Placing.FitsExactlyWhen | src/SpectrumTimeline.cpp:19-214 | so it fits exactly when none of these stands against it |
| Placing.OverlapIsSharedTime | src/SpectrumTimeline.cpp:31-35 | slots are in each other's way iff they share an instant at which they are active |
| Fitting.SharedPlacementIsLeast | src/SpectrumTimeline.cpp:110-164 | on an agreeing tuning the slice has the requested width and lies as low as it can; spectrum is refused iff it is wider than the window or can lie nowhere |
| Fitting.FitOnIdleDevice | src/SpectrumTimeline.cpp:110-213 | with nothing overlapping, a fit exists iff counts, a pinned channel and, on shared LO, the bandwidth are within limits |
| SpectrumTimeline.SpectrumTimeline.CanFit | src/SpectrumTimeline.cpp:19-214 | the loops compute the fit in both LO modes |
| SpectrumTimeline.SpectrumTimeline.CanCombine | src/SpectrumTimeline.cpp:217-301 | the loops compute the combine decision |
| SpectrumTimeline.SpectrumTimeline.Insert | src/SpectrumTimeline.cpp:313-318 | one slot is appended |
| SpectrumTimeline.SpectrumTimeline.Remove | src/SpectrumTimeline.cpp:320-325 | exactly the slots of the task go, the others keep their order |
| SpectrumTimeline.SpectrumTimeline.UpdateDeviceTune | src/SpectrumTimeline.cpp:303-311 | every slot takes the new tuning and nothing else changes |
| SpectrumTimeline.SpectrumTimeline.SlotsOverlapping | src/SpectrumTimeline.cpp:327-334 | the overlapping slots, in order |
| Slots.WithoutSplits | src/SpectrumTimeline.cpp:320-325 | dropping a task's slots from two parts of a timeline leaves the rest of both in order |
| Slots.OverlappingSplits | src/SpectrumTimeline.cpp:327-334 | the same of the slots in a time window |
| Slots.BandwidthAdds | src/SpectrumTimeline.cpp:336-343 | one slot counts with its width, more with their sum |
| SpectrumTimeline.SpectrumTimeline.AllocatedBw | src/SpectrumTimeline.cpp:336-343 | the summed width of the slices active at an instant |
| SpectrumTimeline.SpectrumTimeline.UsedRx | src/SpectrumTimeline.cpp:345-352 | the number of channels listed by slots active at an instant |
| TimelineRuns.SharedRunStaysPacked | src/SpectrumTimeline.cpp:126-164 | in every run on a shared-LO timeline any two time-overlapping slices are two guard bands apart and each is inside its stored window |
| TimelineRuns.BookingAdds | src/SpectrumTimeline.cpp:313-318 | in every run asking and inserting adds one slot at the end with what fits, or nothing if nothing does |
| TimelineRuns.AllocatedBandwidthFits | src/SpectrumTimeline.cpp:336-343 | at any instant whose active slots agree on the tuning, allocated bandwidth + 2 * guard band * (number of slots - 1) <= sample rate |
| TimelineRuns.GapsFit | src/SpectrumTimeline.cpp:128-137 | slices pairwise a gap apart in a window leave room for all the gaps between them |
| TimelineRuns.IndependentRunStaysUnshared | src/SpectrumTimeline.cpp:40-84 | in every run on an independent-LO timeline time-overlapping slots hold disjoint in-range channels, pinned ones included |
| TimelineRuns.UsedRxWithinLimit | src/SpectrumTimeline.cpp:345-352 | in any run, at any instant, usedRx is the number of different channels in use, and never exceeds the number there are |
| Combining.CombinedWindowIsNarrowest | src/SpectrumTimeline.cpp:236-245 | the combined window covers the new and all overlapping slices with guard margin, and any other covering window is at least as wide and equal if as narrow |
| Combining.RefusedOnlyWhenNoWindowFits | src/SpectrumTimeline.cpp:247-251 | a combine passes the rate test iff some window within the device's rate covers everything |
| Combining.SharedChannelsOffered | src/SpectrumTimeline.cpp:253-264 | offered channels are distinct, from overlapping slots, not more than asked for, and all there are if fewer |
| Combining.CombineKeepsOverlappingSlots | src/SpectrumTimeline.cpp:244-308 | after an accepted combine and retune every overlapping slot and the new one keep their guards inside the stored window; nothing but tunings changed |
| Combining.RetuneCoversExactly | src/SpectrumTimeline.cpp:303-308 | after the retune any slot, overlapping or not, has its guards inside its stored window iff it lies between the lowest and highest edge of the new and the overlapping slices |
| Combining.RetuneStrandsExactly | src/SpectrumTimeline.cpp:303-308 | and it sticks out of its window iff it passes those edges by more than a guard band |
| AdmissionLimits.LaterSlotStranded | src/ResourceManager.cpp:1043-1056 | three accepted requests after which a live task's slot lies below its stored window |
| DeviceSelection.AcquiredAtLeastMultiple | src/ResourceManager.cpp:192-204 | the acquired rate is the least integer multiple of the request that reaches the device's floor, never above its maximum; none is found iff that multiple is too high or its ratio too large |
| DeviceSelection.DecimationOfMultiple | src/IQStreamer.cpp:118-119 | rounding recovers the multiple, and dividing by it the requested rate |
| DeviceSelection.DeliveredAsRequested | src/ResourceManager.cpp:1308-1492 | acquired at k times its rate, and borrowing at no other, a task is sent the rate asked for iff k is one, or the multiple is more than 1 Hz above it and the device has an own LO per channel or the one channel is borrowed |
| DeviceSelection.DeliveredAboveOneHertz | src/ResourceManager.cpp:192-204 | above 1 Hz, iff the rate is at or above the device's floor, or own LO, or one borrowed channel |
| DeviceSelection.BorrowedAsRequested | src/ResourceManager.cpp:1326-1371 | borrowing a stream of any rate, iff it runs at the rate asked for, or for one channel at a multiple of two or more that is over 1 Hz above it |
| DeviceSelection.BorrowedIsSent | src/ResourceManager.cpp:1326-1371 | whatever the rates: a borrowed stream is divided by the nearest whole ratio iff it is for one channel, that ratio is two or more and within a thousandth, and the rates differ by more than 1 Hz; else it is sent as it is |
| IQStreamer.DecimationIsNearest | src/IQStreamer.cpp:118-119 | the ratio is at least one and no whole ratio is nearer to that of the rates |
| DeviceSelection.FirstBelowFloor | src/ResourceManager.cpp:1372-1429 | 25 kS/s asked of a device that starts at 225 001: 250 kS/s are sent with a shared LO, 25 with an own one |
| DeviceSelection.OfferWithinCapabilities | src/ResourceManager.cpp:180-214 | whatever a device offers is within its range: tuning, slice, acquired rate between floor and maximum, and the channels, as many as asked for |
| DeviceSelection.OfferExactlyWhen | src/ResourceManager.cpp:180-214 | a device has an offer iff it is online, frequency, bandwidth, rate and channel counts are within its limits, some rate is the least multiple in reach, and the request fits at that rate |
| DeviceSelection.OfferGives | src/ResourceManager.cpp:204-214 | and offers what fits at that rate |
| DeviceSelection.SortByFree | src/ResourceManager.cpp:172-178 | every device, the preferred one first, the others by allocated bandwidth and stably |
| Admission.BestDevice | src/ResourceManager.cpp:147-216 | the answer is unique; nothing iff no eligible device fits; the preferred device if it fits; otherwise, of those with the least bandwidth allocated, the first |
| ResourceManager.ResourceManager.FindBestDevice | src/ResourceManager.cpp:147-216 | the sort and the search compute it, within the objects' timelines |
| ResourceManager.ResourceManager.TryDevice | src/ResourceManager.cpp:180-214 | what one device offers: nothing unless it is online, capable, can be acquired at a rate, and fits |
| ResourceManager.RateFor | src/ResourceManager.cpp:197-204 | the rate returned is the least multiple of the request that reaches the floor, within the maximum, and none only if that multiple is out of reach |
| DeviceSelection.LeastInReachIsUnique | src/ResourceManager.cpp:192-204 | which leaves one answer |
| Admission.PreemptionSparesRank | src/ResourceManager.cpp:857-902 | no task of the request's rank or above is cancelled; nothing changes unless one device is cleared of all live tasks in the way |
| Admission.PreemptsFirst | src/ResourceManager.cpp:857-902 | preemption takes the first online device within whose limits the request is, where some live task is in the way and all that are rank lower; it ends exactly those, and succeeds iff there is such a device |
| Admission.CancelledAllEffect | src/ResourceManager.cpp:892-897 | cancelling tasks ends exactly the live ones among them and removes exactly their slots on their devices |
| Admission.PreemptionSuffices | src/ResourceManager.cpp:857-902 | when slots stand for live tasks, a successful preemption leaves a device that fits the request iff it would when idle |
| Admission.RetryAfterPreemptionSucceeds | src/ResourceManager.cpp:450-455 | then the retried search finds a device, for a band within the rate, a rate above the floors, a channel in range and no required device |
| ResourceManager.ResourceManager.TryPreempt | src/ResourceManager.cpp:857-902 | the loops preempt the first device in order that can be taken, and report it |
| ResourceManager.ResourceManager.Deactivate | src/ResourceManager.cpp:1593-1699 | the first call for a live task ends it, removes its slots and gives its ports back; any other call changes nothing |
| Sharing.CombinesExactlyWhen | src/SpectrumTimeline.cpp:217-301 | canCombine combines iff something is in the way, some window within the rate holds every slice in the way and the new one with guards, and channels are on offer (shared) or enough are not in use |
| Sharing.CombineGives | src/SpectrumTimeline.cpp:236-251 | it answers with the one narrowest such window, and the slice around the centre |
| Sharing.CombineGivesChannels | src/SpectrumTimeline.cpp:253-298 | and with the first distinct channels listed, as many as asked for, or the lowest not in use |
| Sharing.SeatExactlyWhen | src/ResourceManager.cpp:919-1030 | a device has a seat iff it is online, shared and within limits, nobody in the way ranks higher, and: at the frequency in use, a channel is named and in use and the slice is in the window; at another, canCombine combines and the named channel, if any, is on offer |
| Sharing.SeatGives | src/ResourceManager.cpp:950-1041 | a seat has the first tuning at the frequency in use, else the narrowest window, to be tuned iff that is more than 1 Hz off the first tuning in centre or rate, either way; and the channels on offer or the named one |
| Sharing.JoinTunes | src/ResourceManager.cpp:1039-1056 | joining writes the granted tuning to all slots of that device iff it is more than 1 Hz off the first one in the way, and changes nothing else anywhere |
| Sharing.JoinedAgree | src/ResourceManager.cpp:1039-1056 | where the slots in the way agreed on their tuning, each is within 1 Hz of the granted one afterwards |
| Sharing.CanJoinExactlyWhen | src/ResourceManager.cpp:919-1053 | a device can be joined iff it has a seat and, if the narrowest window is off, can be tuned |
| Widening.SeatIsSafe | src/ResourceManager.cpp:917-1030 | a seat is offered only on an online shared device in use by tasks of no higher rank, on channels already in use, with the slice inside the window |
| Widening.JoinsFirst | src/ResourceManager.cpp:919-1053 | the device joined is the first that can be |
| Widening.JoiningMovesNothing | src/ResourceManager.cpp:1039-1056 | no slot moves on any device; only the joined device's tunings change, and overlapping slots keep their guards |
| ResourceManager.ResourceManager.TryJoin | src/ResourceManager.cpp:910-1194 | the loop joins that device and retunes its timeline in place |
| Acceptance.DrawnPortsAreRecorded | src/ResourceManager.cpp:470-492 | recorded ports are the client's and drawn ones, and all drawn ones are recorded iff the device gives as many channels, of any kind, as were asked for, or the client brought as many ports |
| Outcomes.OneAcceptedExactlyWhen | src/ResourceManager.cpp:440-493 | accepted iff, in the books before the request, a device has a place, or has one once room is made by rank, or one can be joined, and the pool has the ports the client did not bring |
| Outcomes.GivenExactly | src/ResourceManager.cpp:445-560 | the accepted request has the channels asked for if a search had a place, else the RX channels that the first joinable device offers and no TX channel; and a port for each, of those there are |
| Outcomes.GivenBySearch | src/ResourceManager.cpp:445-455 | a request that a search has a place for is on the best device, with what fits there at the rate it can be acquired at |
| Outcomes.GivenASeat | src/ResourceManager.cpp:457-461 | one that has to share is on the first device that can be joined, with what its seat comes with, and the timelines are retuned as Sharing says |
| Outcomes.AcceptedOneInFull | src/ResourceManager.cpp:468-562 | it leaves one slot with exactly the time, slice, tuning and channels given, a live record with its rank and that allocation, and the missing ports drawn; channel by channel it has the client's ports in order, then the drawn ones in order |
| Outcomes.AsAskedExactlyWhen | src/ResourceManager.cpp:917-930 | the channels are as asked iff a search has a place, before or after room is made, or no TX channel is asked for and the first joinable device offers as many RX channels as asked for |
| Outcomes.OverrunExactlyWhen | src/ResourceManager.cpp:528-547 | there are fewer ports than channels iff the request asks for TX channels only, names no channel, and joins a device whose overlapping slots list more channels than it asks for or brings ports |
| Outcomes.LeavesPortsExactlyWhen | src/ResourceManager.cpp:470-492 | drawn ports go unrecorded iff the request is accepted by joining a device that offers fewer channels than it asks for, and the client brought fewer ports than that |
| Outcomes.InVainExactlyWhen | src/ResourceManager.cpp:450-455 | a task is ended and the retried search still finds nothing iff no device had a place, one could be taken by rank, and after that still none that may be used has a place |
| Outcomes.InVainOnlyElsewhere | src/ResourceManager.cpp:857-902 | with slots for live tasks and within the devices' limits that takes a required device which is not the one cleared |
| Widening.SeatOffers | src/SpectrumTimeline.cpp:253-264 | a seat comes with exactly one RX channel if one is named, all that are listed if none is asked for, and otherwise the lesser of those asked for and listed; and with no TX channel |
| Acceptance.RequiredDeviceHonoured | src/ResourceManager.cpp:442-461 | an accepted request is on its required device iff, in the books before the request, the device has a place, or has one once room is made by rank, or is then the first that can be joined |
| AdmissionLimits.RequiredDeviceMissed | src/ResourceManager.cpp:457-461 | after one accepted request, a second that requires an offline device is accepted on the other one |
| AdmissionLimits.TransmitGetsReceivers | src/ResourceManager.cpp:917-930 | after one accepted request, one for a single TX channel is given two RX channels, no TX channel and one port, on a device that cannot transmit |
| AdmissionLimits.NamedChannelPassedOver | src/ResourceManager.cpp:1006-1016 | after one accepted request that uses two channels, one naming the first of them is accepted and one naming the second refused |
| AdmissionLimits.EndedForNothing | src/ResourceManager.cpp:857-902 | after one accepted request, one of higher rank that requires the offline device ends its task and is turned down |
| AdmissionLimits.UnrecordedPort | src/ResourceManager.cpp:470-492 | two accepted requests after which a used port is held by nobody |
| ResourceManager.ResourceManager.ChooseDevice | src/ResourceManager.cpp:445-461 | search, then preemption and search, then sharing |
| ResourceManager.ResourceManager.TakePorts | src/ResourceManager.cpp:470-492 | the client's ports topped up from the pool, or nothing and no change |
| ResourceManager.ResourceManager.AcceptOne | src/ResourceManager.cpp:440-571 | the whole single-device accept changes timelines, pool and registry as specified, or rejects |
| Coherent.PlanCovers | src/ResourceManager.cpp:325-340 | the greedy plan covers the request iff the group's channels sum to at least rx_count; it loads devices in order, none beyond its cap and all but the last fully |
| Coherent.AcceptedExactlyWhen | src/ResourceManager.cpp:312-368 | accepted iff the group has an online member and enough channels, on every planned member nothing stands against its share (shared LO: the first slot in the way has the same tuning and there is room with guards; enough channels unlisted), and the pool has a port per channel; otherwise nothing changes |
| Coherent.AcceptedInFull | src/ResourceManager.cpp:370-426 | one slot per planned member at the tuning and with the width asked for, centred or, with a shared LO, at the lowest place clear of the others, on the lowest channels not in use; exactly rx_count ports dealt in order; all other timelines unchanged; the task is registered with these allocations |
| Coherent.TransmitDemandIsIgnored | src/ResourceManager.cpp:325-334 | with no RX channel asked for, any group with an online member accepts and gives no device |
| Coherent.RangesAreIgnored | src/ResourceManager.cpp:310-368 | whether and how a coherent request is accepted does not depend on the ranges of frequency, bandwidth and rate of any device |
| ResourceManager.ResourceManager.MakePlan | src/ResourceManager.cpp:325-334 | the loop computes the greedy plan |
| ResourceManager.ResourceManager.AcceptGroup | src/ResourceManager.cpp:310-426 | the whole coherent accept changes timelines, pool and registry as specified, or rejects and changes nothing |
| ResourceManager.DealPorts | src/ResourceManager.cpp:376-392 | each share gets the next ports, one per channel |
| Grants.InsertedWhereGranted | src/ResourceManager.cpp:405-414 | a task has slots exactly where it was granted a place and no other task's slots move |
| Grants.CancelUndoesAccept | src/ResourceManager.cpp:1689-1698 | cancelling a task restores all timelines and the pool to what they were before it was accepted |
| AdmissionRuns.RunAgrees | src/ResourceManager.cpp:310-571 | in every run of accepts and cancels slots stand for exactly the live tasks on their devices, no pool port is held twice, and if no request left ports behind used ports are exactly the held ones |
| AdmissionRuns.AcceptOneKeeps | src/ResourceManager.cpp:440-571 | a single accept keeps this agreement, and leaves a port behind iff, in the books before it, it is to join a device that offers fewer channels than asked for while the pool has the ports that the client did not bring |
| AdmissionRuns.AcceptCoherentKeeps | src/ResourceManager.cpp:310-426 | so does a coherent accept, which leaves no port behind |
| AdmissionRuns.RetrySucceedsInEveryRun | src/ResourceManager.cpp:450-455 | in every run a successful preemption makes the retried search succeed |
| AdmissionRuns.NothingHeldAtTheEnd | src/ResourceManager.cpp:1685-1699 | when the last task has ended all timelines are empty, and the pool is full if no request left ports behind |
| LedgerView.CancelAgrees | src/ResourceManager.cpp:1593-1699 | claiming and releasing a live task in the lifecycle protocol does to ports, slots and phases what cancelling it does in the books |
| LedgerView.EnterAgrees | src/ResourceManager.cpp:494-571 | and placing and registering a task what entering it does |
| IQStreamer.RemoveAgreesWithDrop | src/IQStreamer.cpp:72-82 | removing the first entry of a task removes the task from the consumers iff it is listed at most once |
| IQStreamer.IQStreamer.AddDest | src/IQStreamer.cpp:45-70 | the task is appended, or nothing changes when its socket failed |
| IQStreamer.IQStreamer.RemoveDest | src/IQStreamer.cpp:72-82 | the task leaves the plain consumers; returns how many are left |
| IQStreamer.IQStreamer.AddSubBand | src/IQStreamer.cpp:91-128 | a sub-band with the offset and rounded decimation is appended, or nothing when its socket failed |
| IQStreamer.IQStreamer.RemoveSubBand | src/IQStreamer.cpp:130-140 | the task leaves the decimated consumers; returns how many of all kinds are left |
| IQStreamer.IQStreamer.TotalConsumers | src/IQStreamer.cpp:147-150 | zero iff the protocol sees no consumer |
| IQStreamer.IQStreamer.Start | src/IQStreamer.cpp:154-162 | only the first start registers the configured destination |
| IQStreamer.IQStreamer.Stop | src/IQStreamer.cpp:164-176 | a running streamer loses all consumers; a stopped one is left alone |
| Ddc.Ddc.constructor | src/Ddc.cpp:38-51 | starts at phase zero with an empty history; the step is a turn times offset over rate, zero for no rate |
| Ddc.Ddc.Make | src/Ddc.cpp:38-51 | the whole constructor, taps designed for the ratio included; they sum to one; null iff they are not numbers or there are none |
| Ddc.Ddc.Process | src/Ddc.cpp:53-94 | for any block after any history the outputs written are exactly those the direct convolution adds, with all indices in range; the state represents the longer history |
| Ddc.Ddc.Push | src/Ddc.cpp:58-75 | the ring then holds the last mixed samples including the new one |
| Ddc.Ddc.FilterRing | src/Ddc.cpp:80-87 | the traversal of the ring is the convolution at the last sample |
| Convolution.ImpulseResponse | src/Ddc.cpp:78-91 | with a single non-zero mixed sample each output is that sample times the tap as far back as the sample lies, or zero if there is none |
| Convolution.OutputsAdd | src/Ddc.cpp:53-94 | the outputs of a sum of inputs are the sums of the outputs; with the above this fixes every output |
| Convolution.MixerShifts | src/Ddc.cpp:62-65 | a sample of any amplitude and angle is turned back by as many steps as came before it |
| Ddc.CounterDivides | src/Ddc.cpp:78-91 | the counter is the remainder and the number of outputs the quotient of the samples by the ratio |
| Ddc.RingBack | src/Ddc.cpp:84 | the index computed for step k is in range and is the place of the k-th sample before the last |
| Ddc.RingDistinct | src/Ddc.cpp:75 | samples less than a ring apart never share a place |
| Ddc.SameHistorySameState | src/Ddc.cpp:53-94 | equal settings and equal history imply equal phase, ring, index and counter, however the input was cut |
| Convolution.CuttingDoesNotMatter | src/Ddc.cpp:53-94 | the outputs of any cutting into blocks, joined, are those of the input in one piece |
| Convolution.OutputsGrow | src/Ddc.cpp:78-91 | later input never changes what has come out |
| Convolution.DocumentedCapacitySuffices | include/Ddc.hpp:37-39 | the documented buffer size is enough for any block at any time |
| Convolution.PhaseStaysInTurn | src/Ddc.cpp:67-70 | the phase stays within half a turn of zero for ever iff the step is at most a whole turn |
| Convolution.PhaseCongruent | src/Ddc.cpp:67-70 | after n samples the phase is n steps less a whole number of turns, for any step |
| Convolution.OscillatorIsExact | src/Ddc.cpp:62-63 | cosine and sine at the accumulated phase are those at n steps |
| Convolution.ConstantPassesThrough | src/Ddc.cpp:33-43 | with taps that sum to one and no offset a constant comes out unchanged once the taps are full |
| Convolution.ToneBecomesConstant | src/Ddc.cpp:41-43 | a tone at the offset comes out as a constant of its amplitude |
| LowPass.DesignLpf | src/Ddc.cpp:21-36 | the taps are the raw ones over their sum, sum to one and are symmetric; none iff there is one tap only or the sum is zero, where the source divides by zero |
| LowPass.RawTapsAreSymmetric | src/Ddc.cpp:25-30 | the windowed sinc is symmetric, given the parity and period of sine and cosine |
| LowPass.TapsAreWindowedSinc | src/Ddc.cpp:21-36 | tap i, times one common factor, is sin(2 pi cutoff x) / (pi x), or twice the cutoff at x = 0, times 0.54 - 0.46 cos(2 pi i / M), with x its distance from the middle |
| LowPass.MiddleAndEnds | src/Ddc.cpp:25-29 | the window is 0.08 at both ends and 1 in the middle, where the tap is twice the cutoff |

## Left out

- Messaging, JSON and XML codecs, the hardware library, UDP packets and metrics: input and output, or easy members.
- The streamer's worker loop (src/IQStreamer.cpp:287-413): reading, packet numbering and the pause after a retune depend on timing and I/O.
- Scan, trigger, snapshot and calibration tasks: scan and trigger threads appear only in the lock order; calibration bypasses the cap and the fitted channels, snapshots reserve nothing.
- Request validation and the choice of the time window in doAcceptStandard (src/ResourceManager.cpp:232-277): plain range tests on one request.
- LifecycleStreams.ConsumersAreHolders: covers untriggered tasks with one receive channel on one device, because partial failure of a multi-device activation leaves streams open.
- LifecycleStreams.NeverClosedUnderSubscriber: the same.
- LifecycleLost.RunConsumersHold: leaves out runs that tear a task down amid its conversion, as the next one does.
- LifecycleLost.LostExactlyWhen: leaves out runs in which a task is torn down amid its conversion; LifecycleConversion says what becomes of those with working sockets.
- LifecycleConversion.ConversionsKeepStreamsExactlyWhen: does not say whether the bands stay right after a second widening.
- LifecycleBase.RunMovesForward: takes each task to be activated at most once; DoubleActivation says what happens otherwise.
- LifecycleAccounts.AtRest: takes client ports to lie outside the pool's range and each task's recorded pool ports to be the ones drawn for it; AdmissionRuns has the exact condition for the latter.
- Widening.JoiningMovesNothing: models timelines and registry membership; the pause of running streamers and the registry's own copy of the tuning are not modelled, nor which of the running tasks are converted to sub-bands (the lifecycle model converts any live ones), nor is guard separation between the joined slice and its neighbours, which the source does not check.
- ResourceManager.ResourceManager.Deactivate: the books only; the runtime's teardown is in the lifecycle model.
- ResourceManager.ResourceManager.TryJoin: timelines only, as for Widening.JoiningMovesNothing.
- ResourceManager.ResourceManager.AcceptOne: the stream descriptors of the reply and the output rate kept in the record are left out; where there are fewer ports than channels (Outcomes.OverrunExactlyWhen) the source reads past the list of ports; the model stops at its end.
- ResourceManager.ResourceManager.FindBestDevice: one clock reading per search and one snapshot of all devices; the lists are built in iteration order, which gives the same order after the stable sort.
- UdpPortPool.UdpPortPool.AllocateN: takes a number that is not negative; no caller passes another.
- LowPass.DesignLpf: rounding to single precision is not modelled.
- Ddc.Ddc.Process: samples are real numbers and the input is a value, so rounding, overflow and an output buffer that overlaps the input are not modelled.
- The deadline reset of immediate tasks at activation (src/ResourceManager.cpp:1563-1569): it changes times in the registry only.
- The watchdog's expiry and every other reason to deactivate a task: one arbitrary call of deactivateTask in the lifecycle model.
