# A verified model of the test_reactor servers

The repository holds two echo servers over epoll. `epoll_server` is a partial port of a POCO-style
reactor: a sliding FIFO buffer with edge signals, a reactor that keeps observers for sockets, and a
handler that wires the two together into a back-pressure protocol. `simple_epoll` is one loop over a
table of slots. This project models both in Dafny and proves what they promise over whole runs, and
states exactly where they do not keep it.

Run `dafny verify dfyconfig.toml` to check everything.

## How it is built

Each part has three layers. A module of pure functions says what every operation does to a value
(`Queues`, `Registry`, `Dispatching`, `Echo`, `Slots`, `CEvents`). A module of lemmas proves what holds
over all runs of these functions (`QueueRuns`, `RegistryAgreement`, `RegistryKeys`, `RegistryHistory`,
`DispatchSafety`, `RoundSafety`, `RoundDelivery`, `EchoRegistrations`, `EchoStream`, `EchoRounds`,
`EchoReports`, `EchoShutdown`, `SlotSafety`, `SlotConnections`, `SlotLeaks`). A module of classes in the
form of the source, with the same fields updated in place and the same loops, is proved method by method
to do what the functions say (`Buffers`, `Fifos`, `Reactors`, `EchoService`, `SlotServers`, and the class
in `CEvents`). Where it is short, a method also states its new fields outright.

| files | part |
|---|---|
| `Buffer.dfy`, `BufferRuns.dfy`, `Queue.dfy`, `QueueRuns.dfy`, `Fifo.dfy`, `FifoRuns.dfy` | the FIFO buffer: array, queue, signals |
| `Registry.dfy`, `RegistryAgreement.dfy`, `RegistryKeys.dfy`, `RegistryHistory.dfy` | registrations: observer lists, event counts, handler map, poll set, kernel masks, and what failing removals leave behind |
| `Dispatching.dfy`, `DispatchSafety.dfy`, `RoundSafety.dfy`, `RoundDelivery.dfy`, `Reactor.dfy` | dispatch while callbacks change the registrations: who may be called, and who must be; the reactor's objects |
| `Echo.dfy`, `EchoRegistrations.dfy`, `EchoStream.dfy`, `EchoRounds.dfy`, `EchoReports.dfy`, `EchoShutdown.dfy`, `EchoService.dfy` | the echo service: back-pressure, bytes, teardown, and the service under the reactor's loop and its shutdown |
| `Slots.dfy`, `SlotSafety.dfy`, `SlotConnections.dfy`, `SlotLeaks.dfy`, `SlotServer.dfy` | `simple_epoll` |
| `CEvent.dfy` | the event object |
| `Wrappers.dfy`, `Sequences.dfy`, `Epoll.dfy` | shared types and facts |

## What is assumed

- One public call is one atomic step, and a mutex may be taken again by its holder. As written the
  source would deadlock: `read` calls `peek` under the same `std::mutex` (epoll_server/fifo_buffer.h:76-79)
  and an observer may be disabled inside its own callback (epoll_server/observer.h:133, 164). Only
  `CEvent` is modelled as interleaved steps of many threads.
- The six notification objects are distinct and exist; the constructor of the reactor never makes them
  (epoll_server/socket_reactor.cpp:4-7). The notification's socket is a parameter of each delivery.
- A socket is its descriptor; that is how sockets are compared (epoll_server/server_socket.h:144-157).
  The poll set is keyed by it, where the source mixes a pointer key and a socket key
  (epoll_server/poll_set.h:52, epoll_server/poll_set.cpp:45).
- The kernel is a map from descriptors to masks. ADD fails on a known descriptor, MOD and DEL on an
  unknown one; `close` takes a descriptor out. `accept` returns a descriptor that is not open, `recv`
  and `send` never exceed what they were offered, and their results are otherwise arbitrary.
- The slots connected to a FIFO's signals run right after the operation that emits them. Only `setError`
  and `setEOF` do anything after their signals but return (epoll_server/fifo_buffer.h:276-277, 297-298),
  and the echo service calls neither.
- A notification is shared by all deliveries. The source hands it to a new `unique_ptr` in each dispatch
  (epoll_server/socket_notifier.cpp:55), which would free it; that ownership is not part of this model.
- A callback that runs during a dispatch is any finite list of registrations and removals on any
  sockets, followed or not by an exception.

## What the code does not keep, and exactly when

Each of these has a lemma that says for all inputs when the property holds, and one at a concrete input.

- A readable callback that finds `_fifoOut` full loses everything in `_fifoIn` and everything just
  received, because the write accepts nothing and `drain(0)` means "drain all"
  (`EchoStream.RunConservesIff`; `EchoStream.SecondReadIsLost`).
- The FIFO signals stop agreeing with the FIFO after `setEOF`, `setError(false)` and `resize` unless
  the guard in `QueueRuns.Announced` holds (`QueueRuns.StepAgreesIff`; `QueueRuns.EofDisagrees`,
  `QueueRuns.ClearedErrorRepeats`, `QueueRuns.GrowthDisagrees`, `QueueRuns.FullGrows`).
- `resize` does not move the content, so the window stays inside the block exactly if `_begin` plus
  what is kept fits the new size (`Fifos.Fifo.Resize`, `FifoRuns.Replay`; `FifoRuns.WindowLeaves`).
- Removing the last observer of a socket that is not polled throws and leaves the observer enabled, so
  an idle or timeout broadcast can still call it (`RegistryHistory.RunOrphansIff`,
  `RoundSafety.RoundIsSafe`; `RoundSafety.RemovalOrphans`, `RoundSafety.OrphanIsCalled`).
- Descriptor 0 keeps a stale kernel mask after a removal that takes a kind away
  (`RegistryAgreement.ZeroStaysSyncedIff`, and over runs `RegistryKeys.ZeroMaskIff`;
  `RegistryAgreement.ZeroGoesStale`).
- Registering and removing an observer leaves a trace, or fails, unless `RegistryKeys.Restorable` holds
  before: an unknown socket has a proper descriptor and the observer wants I/O; a known one above
  descriptor 0 is polled; and at descriptor 0 or below the registration changes no mask
  (`RegistryKeys.AddRemoveRoundTrip`; `RegistryKeys.ZeroIsNotRestored`, and the removal in
  `RoundSafety.RemovalOrphans` is one that fails).
- A peer that closes while the FIFOs hold bytes does not get them
  (`EchoStream.EndedAnsweredIff`; `EchoStream.EarlyCloseDrops`).
- `simple_epoll` never closes a connection for which it has no slot, or whose `set_non_block` fails
  (`SlotLeaks.CallbackLoses`, `SlotLeaks.OpenIffDropped`; `SlotLeaks.NoSlotLoses`).

## Model

| member | source | states |
|---|---|---|
| `Buffers.Buffer.constructor` | epoll_server/buffer.h:15-22 | an owned block that counts as full |
| `Buffers.Buffer.Copy` | epoll_server/buffer.h:29-37 | an owned copy of the data |
| `Buffers.Buffer.View` | epoll_server/buffer.h:24-27 | somebody else's memory, seen as content |
| `Buffers.Buffer.Resize` | epoll_server/buffer.h:98-118 | the new size, reallocation only on growth, the common prefix kept on request, refusal when the memory is not owned |
| `Buffers.Buffer.SetCapacity` | epoll_server/buffer.h:120-142 | exact reallocation that keeps the prefix that fits |
| `Buffers.Buffer.Assign` | epoll_server/buffer.h:144-150 | the content becomes the data across a reallocation; fails exactly if the data do not fit memory that is not owned |
| `Buffers.Buffer.Append` | epoll_server/buffer.h:152-157 | the content is the old content followed by the data |
| `BufferRuns.Replay` | epoll_server/buffer.h:98-168 | over every run of assign, append, resize and setCapacity on a block that owns its memory, the content is what the same operations make of a plain sequence, across all reallocations and wherever it is known at all, and never exceeds the capacity |
| `QueueRuns.RunConserves` | epoll_server/fifo_buffer.h:54-237 | in every run, initial content and accepted data are the data handed out or discarded and then the final content, in order |
| `QueueRuns.HearEdges` | epoll_server/fifo_buffer.h:347-368 | what listeners know after one `notify`, and when it repeats itself |
| `QueueRuns.StepAgreesIff` | epoll_server/fifo_buffer.h:268-299 | one operation keeps last signals equal to `isReadable()` and `isWritable()`, with strict alternation, if and only if a guard on the state before it holds |
| `QueueRuns.RunAgreesIff` | epoll_server/fifo_buffer.h:321-368 | the same over whole runs, at every point of the run |
| `QueueRuns.PlainRunAgrees` | epoll_server/fifo_buffer.h:321-368 | fixed size, no end-of-file, errors cleared only when set: the signals always agree |
| `QueueRuns.EofDisagrees` | epoll_server/fifo_buffer.h:293-299 | a concrete run after which `writable` says true and the FIFO refuses |
| `QueueRuns.GrowthDisagrees` | epoll_server/fifo_buffer.h:41-52 | growing a full FIFO makes it writable silently |
| `QueueRuns.FullGrows` | epoll_server/fifo_buffer.h:41-52 | a concrete run in which this happens to a FIFO of size 1 |
| `QueueRuns.ClearedErrorRepeats` | epoll_server/fifo_buffer.h:279-285 | `setError(false)` on a new FIFO repeats a signal |
| `Fifos.Fifo.constructor` | epoll_server/fifo_buffer.h:24-27 | an empty queue of the given size |
| `Fifos.Fifo.FullOf` | epoll_server/fifo_buffer.h:34-37 | a full queue holding a copy of the data |
| `Fifos.Fifo.Notify` | epoll_server/fifo_buffer.h:347-368 | emits the edges between the two counts |
| `Fifos.Fifo.Begin` | epoll_server/fifo_buffer.h:222-231 | the content moves to the front and nothing else changes |
| `Fifos.Fifo.Next` | epoll_server/fifo_buffer.h:233-237 | the first free cell, with all the free room behind it |
| `Fifos.Fifo.Peek` | epoll_server/fifo_buffer.h:54-62 | the smaller of the length asked for and the content, from its start; nothing in an error |
| `Fifos.Fifo.PeekInto` | epoll_server/fifo_buffer.h:64-71 | the target holds that prefix, or is untouched |
| `Fifos.Fifo.Read` | epoll_server/fifo_buffer.h:73-88 | returns that prefix and the queue loses exactly it; whenever data remain, the length asked for is the length read |
| `Fifos.Fifo.ReadInto` | epoll_server/fifo_buffer.h:90-104 | the same into a buffer, length 0 meaning everything |
| `Fifos.Fifo.Write` | epoll_server/fifo_buffer.h:106-129 | on a writable FIFO exactly the smaller of the offer and the free room is accepted, wherever the room lies, and that prefix is appended; otherwise nothing |
| `Fifos.Fifo.WriteBuffer` | epoll_server/fifo_buffer.h:131-137 | the same from a block, length 0 meaning all of it |
| `Fifos.Fifo.Drain` | epoll_server/fifo_buffer.h:154-172 | drops a prefix; length 0 drops everything |
| `Fifos.Fifo.Copy` | epoll_server/fifo_buffer.h:174-195 | all or nothing, with the two exceptions in their order |
| `Fifos.Fifo.Advance` | epoll_server/fifo_buffer.h:197-220 | the cells behind the content become content, also when the content is moved first |
| `Fifos.Fifo.SetError` | epoll_server/fifo_buffer.h:268-286 | content dropped, falling signals for what was possible before |
| `Fifos.Fifo.SetEof` | epoll_server/fifo_buffer.h:293-299 | the flag and its unconditional signal |
| `Fifos.Fifo.Resize` | epoll_server/fifo_buffer.h:41-52 | the window stays in the block if and only if `_begin` plus what is kept fits |
| `FifoRuns.Replay` | epoll_server/fifo_buffer.h:41-299 | over every run, `resize` included: the window stays in the block if and only if `_begin` plus what is kept fits at each `resize`, and then the array ends where the plain queue does, signals included |
| `FifoRuns.WindowLeaves` | epoll_server/fifo_buffer.h:41-52 | a concrete run after which the window lies outside the block |
| `RegistryAgreement.AddKeepsWF` | epoll_server/socket_reactor.cpp:93-104 | adding keeps lists, counts, handlers, poll set and kernel in agreement; when it throws |
| `RegistryAgreement.RemoveKeepsWF` | epoll_server/socket_reactor.cpp:132-156 | removing keeps them in agreement even when it throws; exactly when it throws |
| `RegistryAgreement.ZeroStaysSyncedIff` | epoll_server/socket_reactor.cpp:147-154 | on descriptor 0 a removal leaves the mask right if and only if every kind of I/O the observer was counted under is counted more than once before the call |
| `RegistryAgreement.ZeroGoesStale` | epoll_server/socket_reactor.cpp:147-154 | a concrete run after which the kernel watches descriptor 0 for output that no observer wants |
| `RegistryAgreement.RunKeepsWF` | epoll_server/socket_reactor.cpp:93-156 | every run on any sockets keeps the agreement, whether or not calls fail |
| `RegistryAgreement.RunAgreement` | epoll_server/socket_reactor.cpp:93-156 | after every run, for every socket, by the template arguments of its observers alone: in the poll set only if handled, there whenever an observer wants I/O of a proper descriptor; the kernel watches (0 excepted) for input exactly if there is an observer of readable or of any notifications, for output exactly if there is one of writable, for errors exactly if there is one of error notifications; and the events count the observers of each kind |
| `RegistryAgreement.KindsCount` | epoll_server/socket_notifier.cpp:11-24 | how often each kind is counted for a list of observers: under readable those of readable or of any notifications, under writable, error and timeout those of that kind alone, and nobody under idle and shutdown |
| `RegistryKeys.MaskAgrees` | epoll_server/poll_set.cpp:17-89 | the kernel mask of a polled socket with a descriptor above 0 is the mask of its set of keys, bit by bit by their template arguments |
| `RegistryKeys.ExecuteFrame` | epoll_server/socket_reactor.cpp:93-156 | a registration or removal changes nothing about any other socket |
| `RegistryKeys.RunKeys` | epoll_server/socket_notifier.cpp:11-42 | a run leaves each socket with the keys its own calls add up to, failing calls included |
| `RegistryKeys.AddRemoveRoundTrip` | epoll_server/socket_reactor.cpp:93-156 | for every socket and every new observer: adding and removing it succeeds twice and restores handlers, lists, poll set and kernel if and only if a condition on the registry before holds |
| `RegistryKeys.ZeroIsNotRestored` | epoll_server/socket_reactor.cpp:147-154 | a concrete round trip on descriptor 0 that leaves a bit in the kernel though the descriptor was polled |
| `RegistryKeys.ZeroMaskIff` | epoll_server/socket_reactor.cpp:93-156 | after every run the mask of descriptor 0 is the one left by the last registration there that wanted anything; it is right if and only if that equals the mask of the keys left |
| `RegistryHistory.ListedFate` | epoll_server/socket_reactor.cpp:93-156 | one call leaves a registered observer registered, or disables it, or orphans it: the removal of the last observer of a socket that is not polled is the only way to an enabled observer that no socket leads to |
| `RegistryHistory.EnabledIsListedIff` | epoll_server/socket_reactor.cpp:93-156 | over every run, an observer that is still enabled is registered if and only if no removal of the run has orphaned it |
| `RegistryHistory.RunOrphansIff` | epoll_server/socket_reactor.cpp:132-156 | a run leaves an orphan if and only if one of its removals hits the last observer of a socket that is not polled at that moment |
| `RegistryHistory.WatchedIsSpared` | epoll_server/socket_reactor.cpp:132-146 | an observer that takes readable, writable or error notifications of a proper descriptor is never orphaned, in any run |
| `RegistryHistory.RemoveDisables` | epoll_server/notification_center.cpp:13-25 | every other removal disables exactly the observer it finds, even if the poll set then throws |
| `DispatchSafety.PostCallsInOrder` | epoll_server/notification_center.cpp:38-48 | under any callbacks, each snapshot observer is called exactly once, in order, if and only if it is reached while enabled and accepts; nobody else is |
| `DispatchSafety.RemovedIsNotCalled` | epoll_server/observer.h:131-166 | an observer disabled at some point of a dispatch is not called from there on |
| `DispatchSafety.TakenOutIsNotCalled` | epoll_server/notification_center.cpp:13-48 | if the callback at one position removes the observer at a later one, that observer is not called by this dispatch |
| `DispatchSafety.AddedIsNotCalled` | epoll_server/notification_center.cpp:38-48 | whoever a dispatch calls was in the list before it began, so observers added by its callbacks are not called |
| `DispatchSafety.HasSocketHandlersIff` | epoll_server/socket_reactor.cpp:56-71 | true if and only if some socket has an observer that wants I/O, where a negative descriptor counts only while another socket is polled |
| `DispatchSafety.PollResultMeaning` | epoll_server/poll_set.cpp:137-153 | the result has exactly the polled sockets with something to report, each with the union of its reports |
| `RoundSafety.RoundIsSafe` | epoll_server/socket_reactor.cpp:11-54 | in one iteration of `run`, from any registry in agreement and for any callbacks: the registry agrees at every delivery and afterwards; every readable, writable and error notification goes to an observer registered for that socket and kind at that moment; an idle or timeout notification does if and only if no earlier callback of the iteration orphaned its observer |
| `RoundSafety.RoundOrphansIff` | epoll_server/socket_reactor.cpp:11-54 | the iteration leaves the registry its callbacks add up to, without orphans if and only if no callback removed the last observer of a socket that was not polled; then all deliveries went to registered observers |
| `RoundSafety.UnregisteredIsSilent` | epoll_server/socket_reactor.cpp:182-216 | a socket that earlier callbacks have unregistered and nobody registers again gets none of the later I/O deliveries of the iteration, and no other either unless the observer was orphaned |
| `RoundDelivery.DueIsDelivered` | epoll_server/socket_reactor.cpp:11-54 | one iteration of `run`, for any registry in agreement, reports and callbacks: every observer registered when it begins is called for every notification due to its socket that it accepts - reported bits of a polled socket, a timeout if nothing polled is readable, idling if nobody wants I/O - unless an earlier callback has taken its registration away or an earlier observer of the socket has thrown on the same notification |
| `RoundDelivery.RoundInOrder` | epoll_server/socket_reactor.cpp:11-54 | nothing else is delivered, and in order: I/O before broadcasts, socket by socket, readable before writable before error, observers as registered; so nobody gets the same notification twice |
| `RoundDelivery.PostThrowsLast` | epoll_server/notification_center.cpp:38-48 | no callback of a dispatch but the last throws |
| `RoundDelivery.PostReaches` | epoll_server/notification_center.cpp:38-48 | everyone in the list who accepts the notification is called, or somebody registered before throws, or he is disabled in the end |
| `RoundSafety.RemovalOrphans` | epoll_server/socket_reactor.cpp:132-146 | a concrete removal that throws and leaves its observer enabled and unreachable |
| `RoundSafety.OrphanIsCalled` | epoll_server/socket_reactor.cpp:189-202 | a concrete idle iteration in which that observer is called after its socket was unregistered |
| `Reactors.Observer.Notify` | epoll_server/observer.h:131-144 | calls back if and only if enabled and its template argument is that kind or their base; then the log grows by this call and the exception is the callback's |
| `Reactors.NotificationCenter.AddObserver` | epoll_server/notification_center.cpp:7-11 | a fresh enabled clone at the end of the list |
| `Reactors.NotificationCenter.RemoveObserver` | epoll_server/notification_center.cpp:13-25 | the first equal observer is disabled and leaves, all others are untouched |
| `Reactors.NotificationCenter.HasObserver` | epoll_server/notification_center.cpp:27-36 | whether some listed observer equals the key |
| `Reactors.NotificationCenter.PostNotification` | epoll_server/notification_center.cpp:38-48 | the loop over the copied list, for any callbacks |
| `Reactors.SocketNotifier.AddObserver` | epoll_server/socket_notifier.cpp:11-24 | list and event count grow together: by the kind of the observer, by readable if it takes any, by nothing if it waits for idling or shutdown |
| `Reactors.SocketNotifier.RemoveObserver` | epoll_server/socket_notifier.cpp:26-42 | list and event count shrink together, in the same way |
| `Reactors.PollSet.Add` | epoll_server/poll_set.cpp:17-49 | inserts or updates, fails on a bad descriptor |
| `Reactors.PollSet.Remove` | epoll_server/poll_set.cpp:51-61 | removes from kernel and set together, or neither |
| `Reactors.PollSet.Update` | epoll_server/poll_set.cpp:63-89 | replaces the mask of a known descriptor |
| `Reactors.PollSet.Poll` | epoll_server/poll_set.cpp:117-154 | the loop builds the union map |
| `Reactors.SocketReactor.constructor` | epoll_server/socket_reactor.cpp:4-7 | an empty registry |
| `Reactors.SocketReactor.MakeNotifier` | epoll_server/socket_reactor.cpp:114-130 | the notifier of the socket, made if there is none |
| `Reactors.SocketReactor.AddEventHandler` | epoll_server/socket_reactor.cpp:93-104 | the objects follow the registry for every key and socket |
| `Reactors.SocketReactor.RemoveEventHandler` | epoll_server/socket_reactor.cpp:132-156 | the same, through both branches and both failures |
| `Reactors.SocketReactor.DispatchSocket` | epoll_server/socket_reactor.cpp:182-187 | delivery to one socket, nothing if it is not handled |
| `Reactors.SocketReactor.DispatchTo` | epoll_server/socket_reactor.cpp:204-216 | delivery through a notifier that may have left the handler map; exceptions end here |
| `Reactors.SocketReactor.Broadcast` | epoll_server/socket_reactor.cpp:189-202 | delivery to the notifiers there were at the start, in handler order |
| `Reactors.SocketReactor.HasSocketHandlers` | epoll_server/socket_reactor.cpp:56-71 | the loop finds such a handler if there is one |
| `Reactors.SocketReactor.RunOnce` | epoll_server/socket_reactor.cpp:14-51 | one iteration: idle, or ready sockets in order and then a timeout if nothing was readable |
| `EchoRegistrations.StepKeepsConn` | epoll_server/echo_server.h:71-101 | signals and FIFOs agree after every callback and `_fifoIn` is never left full |
| `EchoRegistrations.StageHeard` | epoll_server/echo_server.h:51-69 | the slots turn new signals into registrations without a failing call |
| `EchoRegistrations.ConstructHeard` | epoll_server/echo_server.h:23-35 | a new handler is registered for reading and shutdown, and polled |
| `EchoRegistrations.DestroyForgets` | epoll_server/echo_server.h:37-48 | the destructor removes whatever is registered, never fails, and the socket is gone |
| `EchoRegistrations.EventKeepsServer` | epoll_server/echo_server.h:20-106 | any event of any connection keeps every connection in order and every other socket unchanged |
| `EchoRegistrations.RunKeepsServer` | epoll_server/echo_server.h:20-106 | the same over whole runs, with no failing call anywhere |
| `EchoRegistrations.BackPressure` | epoll_server/echo_server.h:23-106 | after every run, for each connection: readable observer if and only if `_fifoIn` has room, writable observer if and only if `_fifoOut` is not empty, the kernel mask exactly these, no call failed |
| `EchoRegistrations.LiveExactly` | epoll_server/echo_server.h:20-106 | over every run a socket has a connection, and (unless it was handled before the start) reactor, poll set and kernel know it, exactly if its last accept was followed by no close, no failing receive or send and no shutdown |
| `EchoRegistrations.TeardownRestores` | epoll_server/echo_server.h:23-48 | when all connections have ended, handlers, poll set and kernel are as before the first |
| `EchoRegistrations.NoCallAfterDelete` | epoll_server/echo_server.h:37-48 | after every run, whoever can still be called on the socket of a connection belongs to the handler that now lives there, also when the descriptor was used before; every other enabled observer is registered for a socket handled before the start |
| `EchoRegistrations.EnabledIsLive` | epoll_server/echo_server.h:23-69 | and it is one of that handler's own three observers |
| `EchoStream.StepMissing` | epoll_server/echo_server.h:76-79 | the exact number of bytes one step loses |
| `EchoStream.StepConservesIff` | epoll_server/echo_server.h:71-101 | one callback keeps the stream complete and in order if and only if it is not a read that finds `_fifoOut` full |
| `EchoStream.RunConservesIff` | epoll_server/echo_server.h:71-101 | received = sent, then `_fifoOut`, then `_fifoIn`, after a run if and only if no read found `_fifoOut` full |
| `EchoStream.RunRecords` | epoll_server/echo_server.h:71-101 | what counts as received is what `recv` brought, what counts as sent is as many bytes as `send` took |
| `EchoStream.OutputIsInput` | epoll_server/echo_server.h:71-101 | a new connection without overruns has sent back exactly the first bytes its peer has sent, as many as `send` took |
| `EchoStream.SecondReadIsLost` | epoll_server/echo_server.h:76-79 | a concrete run that loses its second read entirely |
| `EchoStream.ReadableNeverStalls` | epoll_server/echo_server.h:71-89 | after every run of callbacks there is room to receive, so a result of zero means the peer has closed; what a further read leaves in `_fifoIn` stays because `_fifoOut` is full |
| `EchoStream.FlushTerminates` | epoll_server/echo_server.h:91-101 | every send lowers the level of `_fifoOut`, so it empties within as many sends as it holds bytes, in order; the calls to the reactor in between succeed, and after them the writable observer and its kernel bit are there if and only if something is left |
| `EchoStream.ServerConservesIff` | epoll_server/echo_server.h:71-101 | for any interleaving of connections, each depends on its own events only and keeps its bytes if and only if it had no such read |
| `EchoStream.EndedAnsweredIff` | epoll_server/echo_server.h:71-106 | a connection that has ended, however and in whatever run, has given back everything it received if and only if none of its reads found `_fifoOut` full and both FIFOs were empty at the end |
| `EchoStream.EarlyCloseDrops` | epoll_server/echo_server.h:80-83 | a concrete connection whose peer closes before anything was sent back |
| `EchoRounds.RoundIsEvents` | epoll_server/socket_reactor.cpp:11-54 | when the callbacks are those of echo handlers, one iteration of `run` amounts to a run of enabled events of the server, ends in its registry, and makes every delivery to a handler alive and registered for it |
| `EchoReports.ReportsBecomeEvents` | epoll_server/socket_reactor.cpp:25-43 | in one iteration with echo handlers every connection reported readable gets its read, every one reported writable with something to send gets its write unless the read before found the peer gone, and no connection has an event that was not reported |
| `EchoRounds.LoopIsEvents` | epoll_server/socket_reactor.cpp:11-54 | the same over any number of iterations, deliveries included |
| `EchoRounds.LoopBackPressure` | epoll_server/echo_server.h:23-106 | after any number of iterations, observers and kernel mask of every connection say exactly what its FIFOs can do |
| `EchoRounds.LoopConservesIff` | epoll_server/echo_server.h:71-101 | and each connection has kept its bytes in order if and only if none of its reads found `_fifoOut` full |
| `EchoShutdown.ShutdownEndsAll` | epoll_server/socket_reactor.cpp:173-202 | the shutdown broadcast over a server in order, whose own observers do not want it, reaches every handler; each deletes itself, no connection is left, and handlers, poll set and kernel are as without the server |
| `EchoShutdown.RunEndsClean` | epoll_server/socket_reactor.cpp:11-54 | any number of iterations of the loop followed by the shutdown restore the registrations there were at the start |
| `EchoService.ReceiveBytes` | epoll_server/server_socket.cpp:147-154 | the received bytes are appended and the content starts at the front of the block |
| `EchoService.SendBytes` | epoll_server/server_socket.cpp:183-190 | what is taken is a prefix of the content, and exactly that is drained |
| `EchoService.EchoServiceHandler.constructor` | epoll_server/echo_server.h:23-35 | two FIFOs of 1024 bytes and the registrations of a new handler, none failing |
| `EchoService.EchoServiceHandler.OnSocketReadable` | epoll_server/echo_server.h:71-89 | FIFOs and registrations after the callback, through all three outcomes; deleted exactly if nothing was received |
| `EchoService.EchoServiceHandler.OnSocketWritable` | epoll_server/echo_server.h:91-101 | the same for sending; deleted exactly if `send` throws |
| `EchoService.EchoServiceHandler.OnSocketShutdown` | epoll_server/echo_server.h:103-106 | the handler withdraws and is gone |
| `EchoService.EchoServiceHandler.Destroy` | epoll_server/echo_server.h:37-48 | the three removals, none failing, and the socket unknown to reactor and poll set |
| `EchoService.OnFIFOInWritable` | epoll_server/echo_server.h:61-69 | the readable observer comes and goes with the signal |
| `EchoService.OnFIFOOutReadable` | epoll_server/echo_server.h:51-59 | the writable observer comes and goes with the signal |
| `SlotSafety.CallbackKeepsInv` | simple_epoll/server.cpp:20-113 | every handler keeps table and kernel in agreement and makes no failing system call |
| `SlotConnections.AcceptTakes` | simple_epoll/server.cpp:20-57 | a non-blocking connection gets the first free slot, which waits for its input; nothing else changes |
| `SlotConnections.AcceptDrops` | simple_epoll/server.cpp:20-53 | otherwise the table stays as it is, and the connection is open and nothing else |
| `SlotConnections.RecvOutcome` | simple_epoll/server.cpp:66-92 | with data an active slot turns to sending exactly these bytes; after the end of the stream or an error, and only then, the slot is free and its descriptor neither open nor known to the kernel |
| `SlotConnections.SendOutcome` | simple_epoll/server.cpp:94-113 | the slot turns back to receiving with a prefix of its bytes sent; if and only if the answer is zero or less, the slot is free and its descriptor neither open nor known to the kernel |
| `SlotConnections.ReportCalls` | simple_epoll/event.cpp:83-91 | the callbacks of a report with any bits on an active slot: only the bit that the slot waits for calls its handler, and with both bits a slot that has just received sends at once |
| `SlotSafety.ProcessOnce` | simple_epoll/event.cpp:81-92 | a report causes exactly one callback; the second test never fires on what the first left |
| `SlotSafety.ReportStays` | simple_epoll/server.cpp:36-57 | a pending report is still good after another one was processed |
| `SlotSafety.PendingUntouched` | simple_epoll/event.cpp:81-92 | at every point of the loop the slots of pending events are as polled |
| `SlotSafety.DispatchNeverStale` | simple_epoll/event.cpp:68-95 | the callbacks of a batch are exactly those due when it was polled, in order, with the descriptors and handlers of that moment |
| `SlotSafety.TableAgreesWithKernel` | simple_epoll/server.cpp:20-185 | in every reachable state: active if and only if in the interest set with this slot and mask, distinct open descriptors, the listener in its slot, no failed call |
| `SlotSafety.ActiveSlotsDiffer` | simple_epoll/event.cpp:39-65 | no two active slots share a descriptor |
| `SlotSafety.EchoExact` | simple_epoll/server.cpp:66-113 | output equals the answered input if and only if every send was complete |
| `SlotSafety.ConnectionsEcho` | simple_epoll/server.cpp:66-113 | in every run a sending slot offers exactly the last bytes of its own connection, and each connection's output is prefixes of its rounds |
| `SlotConnections.ConnectionExactly` | simple_epoll/server.cpp:20-113 | over every run, descriptors and slots reused, each connection has received, has sent and is about to send what its own answers say, and is there, open and known to the kernel, exactly if it was accepted into a slot and none of its answers has ended it |
| `SlotLeaks.CallbackLoses` | simple_epoll/server.cpp:20-64 | one callback adds to the open descriptors that no slot knows exactly the connection it accepts without a free slot or that does not become non-blocking |
| `SlotLeaks.OpenIffDropped` | simple_epoll/server.cpp:20-64 | after every run the open descriptors are those of the active slots and, besides, exactly the connections dropped in this way |
| `SlotLeaks.NoSlotLoses` | simple_epoll/server.cpp:36-50 | a concrete connection that is lost |
| `SlotServers.SlotServer.constructor` | simple_epoll/server.cpp:162-185 | a table without connections and the listener registered for input in the last slot |
| `SlotServers.SlotServer.Add` | simple_epoll/event.cpp:39-54 | the slot is active with the new mask; ADD or MOD by its status, and what the kernel then knows or that the call fails |
| `SlotServers.SlotServer.Del` | simple_epoll/event.cpp:56-65 | DEL for an active slot only |
| `SlotServers.SlotServer.CloseConnection` | simple_epoll/server.cpp:82-91 | the descriptor is closed and leaves the interest set |
| `SlotServers.SlotServer.Handle` | simple_epoll/event.cpp:83-91 | the two tests of one report, the second on what the first has left |
| `SlotServers.SlotServer.Accept` | simple_epoll/server.cpp:20-64 | the search finds the first free slot; without one the descriptor is only open |
| `SlotServers.SlotServer.Recv` | simple_epoll/server.cpp:66-92 | to sending with the bytes in the buffer, or closed |
| `SlotServers.SlotServer.Send` | simple_epoll/server.cpp:94-113 | back to receiving, or closed |
| `SlotServers.SlotServer.DispatchEvents` | simple_epoll/event.cpp:68-95 | on a table in order the loop makes exactly the callbacks that were due when the batch was polled, in order, and leaves the table in order with no failed call |
| `SlotServers.SlotServer.Serve` | simple_epoll/server.cpp:149-160 | the loop over any number of batches keeps the table in agreement with the kernel |
| `CEvents.ReadyFalls` | epoll_server/event.cpp:15-52 | the event is cleared only by a reset or by a returning auto-reset wait; a timed-out wait takes nothing |
| `CEvents.WaitOutcome` | epoll_server/event.cpp:15-20 | each look of an untimed wait: it returns exactly if the event is ready, taking an auto-reset signal and leaving a manual one, and waits on otherwise |
| `CEvents.TryWaitOutcome` | epoll_server/event.cpp:30-46 | each look of a timed wait: the same, and a time-out ends it and takes nothing |
| `CEvents.AutoAccounting` | epoll_server/event.cpp:8-52 | over every interleaving: sets that raise it = returned waits + effective resets + 1 if ready |
| `CEvents.ManualAccounting` | epoll_server/event.cpp:8-52 | a manual-reset event: sets that raise it = effective resets + 1 if ready |
| `CEvents.NoSignalTwice` | epoll_server/event.cpp:8-46 | no more waits return than signals were given |
| `CEvents.EveryChanceIsTaken` | epoll_server/event.cpp:8-52 | over every interleaving and for both kinds of event, as many waits return for a signal as look while the event is ready |
| `CEvents.TryLoopExactly` | epoll_server/event.cpp:30-46 | what a wait answers for any wake-ups: at once if the event is ready, else what the first wake-up says that brings a time-out or finds it ready, and nothing if there is none |
| `CEvents.LoopIsSteps` | epoll_server/event.cpp:15-46 | the loops of `tryWait` and `wait` and the interleaved steps give the same answers |
| `CEvents.CEvent.TryWait` | epoll_server/event.cpp:30-46 | the loop with its `rc`, for any wake-ups |
| `CEvents.CEvent.Wait` | epoll_server/event.cpp:15-20 | the untimed loop, for any spurious wake-ups |

## Left out

- The socket calls of `server_socket.cpp` beyond the two FIFO overloads: system calls, whose results are parameters here.
- `socket_acceptor.h`, `socket_connector.h`, `server_application.*` and the `main` files: set-up and thin registration wrappers.
- `simple_libevent`, `libevent_server`, `raw_echo_client`: wrappers, stubs and a client loop.
- `Buffer::operator!=`, which calls itself (epoll_server/buffer.h:225-228), move semantics, raw pointers, `memset` and appending a buffer to itself.
- The socket that `SocketNotifier::dispatch` stores in the shared notification and clears again; it is a parameter of the delivery.
- Failures of `epoll_wait`, which end an iteration of either loop before any delivery.
- Copies of `ServerSocket` closing their descriptor; descriptors of live connections stay open.
- Dispatches started inside a callback: callbacks register and remove, they do not dispatch.
- EchoRounds.RoundIsEvents: observers of the reactor's own, such as the acceptor's, do nothing to the reactor but accept connections.
- EchoService.EchoServiceHandler.constructor: asks for a positive descriptor that the reactor does not handle yet, as an accepted connection has.
- Slots.Possible: a `recv` that fills all BUFF_LEN bytes is excluded, because the terminator would be written behind the buffer (simple_epoll/server.cpp:76).
- Timeouts, `last_active`, sleeping, logging and all other wall-clock behaviour.
