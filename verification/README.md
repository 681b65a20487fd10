# A verified model of dOpenCL's coordination logic

dOpenCL runs OpenCL applications on several machines: a host process (the client driver, `icdpp`) and one
daemon per compute node (`daemon`), connected by message queues and data streams (`dclasio`). This project
models the parts in which these processes have to agree with each other, and proves what they guarantee. One
module, or one group of modules, stands for one mechanism:

| module | mechanism |
|---|---|
| `Links` | a data stream: bytes without names, sends and receives |
| `SyncProtocol` | synchronization of memory objects between nodes, mediated by the host, among the other transfers on the same streams |
| `SyncLists`, `SyncInvariant`, `SyncDrained`, `SyncRuns`, `SyncSteps`, `SyncContents`, `SyncRounds` | its invariants: lists of things to do, bytes and contents under way |
| `SyncDelivery`, `SyncMemory`, `SyncForeign`, `SyncProgress`, `SyncBounds` | what it guarantees to applications that keep rounds and other transfers apart |
| `SyncCrossing`, `SyncExact`, `SyncApart`, `SyncPhases`, `SyncLandings`, `SyncFailures` | which applications are safe, and runs of those that are not |
| `SyncNodes`, `SyncCopies` | several waiting nodes around one host |
| `SyncParts` | parts of buffers: where mapped and written bytes arrive; transfers begun on either side |
| `SyncHost` | the host's part as its objects carry it out |
| `NativeEvents`, `WaitLists` | the native event graph of a node; event wait lists with local and remote events; acquire and release chains |
| `CommandChains`, `HostCommands` | read, write, map, unmap, acquire and release as chains of native events; notices to the host; the host's command |
| `EventLifecycle`, `Replication`, `ReplicationRuns`, `UserEventCalls` | reference count, status, callbacks and destruction of an event; its substitutes on the nodes; several threads that set one user event |
| `RefCounts` | who retains whom on the host, and release cascades |
| `Serialization`, `Buffers` | the serialized form of message contents; the buffer with its two cursors |
| `KernelObjects` | the list of memory objects that a kernel writes, on both sides |
| `LocalCommands` | the host's list of unfinished commands |
| `DataStreams` | the queue of transfers of a data stream |
| `Connections`, `ProcessId` | tables of processes and sessions; the process identifier |

Where the code changes objects step by step, the model is a class whose methods are proved against functions
on values; the interleavings of processes and threads are state machines over the same functions, and the
theorems speak about all their runs. `Seqs` holds a few facts about sequences.

## Main results

- Which applications are safe: `SafetyIsExact`, an if-and-only-if over all runs of every application;
  `OneOrderIsExact` for applications that keep transfers apart; `CopiesAreExact` for what the host forwards to any
  number of waiting nodes; `OwnerStreamIsExact` and `WaiterStreamIsExact` for single runs.
- What safe applications get: `EndToEnd`, `Delivery`, `AcquireSeesOwner`, `KeptStep`, `NoDeadlock`,
  `RunsAreBounded`, `CanFinish`.
- Order between commands: `NativeEvents.OrderIsExact`, `WaitOrderIsExact`.
- Commands: `CopiedOnce`, `OneNotice`, `ReceiptDecides`, `NoticeDecides`.
- Events: `History`, `Lifetime`, `Leak`, `UseAfterDeletion`, `Agreement`, `StatusBeforeDelete`, `EventsAreExact`,
  `AgreementIsReached`, `SetTwiceIsExact`, `EffectsAreExact`.
- Reference counts: `Conservation`, `RefCounts.ReferencesCounted`, `NoGarbage`.
- Messages: `Serialization.RoundTrip`, `Layout`, `Truncated`, `GuardExact`, and the methods of the buffer against them.
- Queues and tables: `FirstInFirstOut`, `AllPerformed`, `FinishIsExact`, `RegisteredIsExact`, `HostsArePresent`.

## How to read the models

- *Synchronization.* An action is one atomic step of an owner of events, of the host or of the waiting node;
  `Exec` runs any interleaving. There are any number of owners, any number of in-order queues on the waiting
  node, and one waiting node; in `SyncNodes` there are any number of them, each with a view of the whole in which
  its steps are those of `SyncProtocol`. A `Round` is the synchronization of one event; its three lists hold the same
  objects, in any orders, of any sizes above zero. Streams and message queues are first in, first out
  (`DataStreams` proves this for the queue of a stream), native queues are in-order (`WaitLists` proves that
  the chains of one request then transfer in list order). Commands write the memories of owners and of the
  waiting node at any time (`OwnerWrites`, `WaiterWrites`).
- *Shared streams.* A process has one data stream to each other process
  (`dclasio/src/dclasio/ProcessImpl.cpp:157-166`). Reads and maps for reading use the stream from a node
  (`daemon/src/command/CopyDataCommand.h:75-91`, `icdpp/src/dclicd/command/ReadWriteCommand.cpp:72-81`,
  `icdpp/src/dclicd/command/MappingCommand.cpp:92-107`); writes, unmaps after writing and new buffers with
  contents use the stream to the waiting node (`icdpp/src/dclicd/Buffer.cpp:124-128`). A message goes ahead of such
  a transfer, so that either side can post its half first; the actions `ReadSend` to `WriteSendAfter` are the
  two halves in both orders. They are begun at any time, as often as the application likes, each for any part of a
  buffer. A write that arrives changes the memory of the waiting node.
- *The host's copy.* A mapped region is a part of the memory that the host synchronizes through
  (`icdpp/src/dclicd/Buffer.cpp:159-176`, `icdpp/src/Memory.cpp:366-416`). The receive of a map from any node
  overwrites its part of it, and the bytes of an unmap are those that it holds when the stream writes them. The
  application itself writes there while a region is mapped for writing, and, with `CL_MEM_USE_HOST_PTR`, at any time
  (`icdpp/src/Memory.cpp:168`), also by reading another buffer into it: `HostStores`. `Allocates` is the allocation
  of that memory.
- *Keeping apart.* `Config` lists which buffers the application reads and maps from which node, writes and unmaps to
  the waiting node, and stores to. `Config.apart` says that it begins a round, a transfer or a store only when
  `MayStart`, `MayRead`, `MayWrite` or `Unused` allows it: the rounds that are not finished have other objects, the
  same owner and the same queue, no transfer of another kind is under way on their streams, and none of their
  objects is being mapped, from any node, or stored to. An application can see to that by waiting for its own
  commands. Results about delivery and progress suppose it; `SafetyIsExact`, `CopiesAreExact`, the results on
  crossing, `RunsAreBounded` and the failing runs of `SyncFailures` and `SyncNodes` do not.
- *Callbacks of transfers.* One thread runs all callbacks of a process's transfers
  (`dclasio/src/dclasio/comm/DataDispatcher.cpp:138-140`), so that at most one receive of the host is complete
  without its callback having run, besides the one whose callback is just being registered. One thread takes the
  messages of a process (`dclasio/src/dclasio/comm/MessageDispatcher.cpp:145`), so that the requests of several
  nodes are served one after the other.
- *Build.* Assertions are on: a buffer that would have to grow stops with "resize not implemented". Integers
  are 32-bit where the code's are: buffer sizes and the process identifier. `size_t` has 64 bits, bytes are
  little-endian.
- *Statuses.* Zero is success, a negative number an error code, a positive number a pending state.

## Where the code does less than it promises

Each of these is a theorem with the exact condition under which the promise is kept.

- Transfers carry no object identifier, and the host has one copy of each object. A synchronization is safe exactly if
  the conditions of `SafetyIsExact` hold; for each of them there is a run that goes wrong without it (`OrderMatters`,
  `ReadGoesWrong`, `WriteGoesWrong`, `MapGoesWrong`, `StoreGoesWrong`, `OwnersGoWrong`, `QueuesGoWrong`,
  `OverlapGoesWrong`). With several waiting nodes, if two of them wait for one object, one of them can get what was
  not released for it (`CommonObjectGoesWrong`), and the host forwards what it received for each of them exactly if
  `CopiesAreExact` says so. An application that keeps transfers apart needs only equal list orders of owner and
  waiting node (`OneOrderIsExact`, and `TwoOutputsGoWrong` for an instance). Kernel events list objects by address in
  each process; these orders agree for all addresses exactly if there is at most one object (`OrdersAgree`).
- A remote event without memory objects contributes nothing to a native wait list, so that a command does not
  wait for it, exactly if no other entry forces it (`WaitOrderIsExact`, `EmptyEntryBreaksOrder`).
- A read or a map for reading never ends on the host if the node's map, its message or the start of its
  transfer fails (`ReceiptDecides`, `FailedMapNeverEnds`, `FailedStartNeverEnds`).
- Setting the status of a user event ignores that the event was destroyed; it leaks exactly if its callbacks
  release the last reference meanwhile (`Leak`, `LeakStep`, and `LeakingRun` in both modules).
- Setting the status of a user event checks and stores it in two critical sections. If two calls overlap, and
  only then, the nodes are sent a second status, callbacks run twice and an unreferenced event is destroyed
  twice (`SetTwiceIsExact`, `EffectsAreExact`, `OverlappingCalls`).
- Callbacks registered for an event that has already failed are told success (`TrueStatus`, `ToldSuccess`).
- A callback that is registered for a finished event and releases its last reference deletes the event while the
  call that registers it still appends to its list; exactly then (`UseAfterDeletion`, `ClEvent.SetCallback`).
- The callback of a marker's event is registered by a base class constructor; if it runs before the object is
  complete, the host is told twice (`OneNotice`, `EarlyCallbackTellsTwice`).
- Finishing a queue does not wait for the commands that another thread has taken and is still waiting for
  (`FinishIsExact`, `SecondFinisherDoesNotWait`).
- The buffer's space check misses a lack of room in exactly the cases of `GuardExact`. The buffers of messages
  are created with the default size and limit, so that only a write of almost 4 gigabytes gets there
  (`MessageGuard`, `UndetectedWrites`).
- Only the last seven characters of a host name count for a process identifier, of the seventh only four bits.
  Two processes with equal names but for the last character have one identifier if that of the one is higher by
  one and its port lower by 16
  (`LastSevenCharacters`, `SeventhCharacter`, `Collision`).
- The comment of `ByteBuffer` promises network byte order; the code copies values in the host's own order, and
  the model follows the code.

## Model

| member | source | states |
|---|---|---|
| SyncFailures.SafetyIsExact | dclasio/src/dclasio/ProcessImpl.cpp:157-166 | For an application that starts rounds, reads, writes, maps, unmaps and stores at any time, objects of any sizes and lists in any orders: every run gives every acquired object its own contents if and only if owner and waiting node list the objects of every round alike, all rounds have one owner, one queue and different objects, nothing is read or mapped from that owner or written or unmapped to the waiting node, and no object of a round is mapped from any node or stored to on the host. |
| SyncExact.OneOrderIsExact | icdpp/src/dclicd/Event.cpp:295-323 | For an application that keeps rounds, other transfers, maps and stores apart, whatever the sizes and the host's order: every run gives every acquired object its own contents if and only if owner and waiting node list the objects of every round alike. |
| SyncCopies.CopiesAreExact | icdpp/src/Memory.cpp:366-416 | For any number of waiting nodes and owners, started at any time: in every run everything that the host forwards is what it received for that send, if and only if no two rounds, of one node or of two, share an object, and no object of a round is mapped from any node or stored to. |
| SyncDelivery.OrderIsExact | daemon/src/Memory.cpp:212-292 | With transfers kept apart, in any reachable state, if the contents released for a round can be told apart: every acquired object of the round holds its own contents if and only if owner and waiting node list the objects acquired so far in one order. |
| SyncCrossing.OwnerStreamIsExact | dclasio/src/dclasio/comm/DataStream.cpp:118-193 | Over every run, whatever it starts at the same time: once the receives posted for an owner are complete, for contents that can be told apart, each got the bytes of its own transfer if and only if no step of the run posted a send or a receive across a transfer of another label that was in flight. |
| SyncCrossing.WaiterStreamIsExact | dclasio/src/dclasio/comm/DataStream.cpp:118-193 | The same for the stream to the waiting node. |
| Links.RightIsExact | dclasio/src/dclasio/comm/DataStream.cpp:118-193 | On a stream of unnamed bytes, whatever the sizes of the transfers are: for contents that can be told apart, every receive got what was sent under its label if and only if receives were completed in the order of the sends. |
| SyncContents.RunInv | daemon/src/Memory.cpp:212-292 | With transfers, maps and stores kept apart, over every interleaving of the host, any number of owners and the waiting node with any number of queues: what each has still to do is the rest of its own lists, every stream conserves its bytes, released, landed, cached, forwarded and installed contents are those of the steps before, and no map under way can reach a copy that a round needs. |
| SyncDelivery.EndToEnd | icdpp/src/Memory.cpp:366-416 | With transfers kept apart, in every reachable state, for any orders and sizes: the bytes acquired for a round are a beginning of the bytes released for it, and owner and waiting node deal with its objects in the order of their own lists. |
| SyncDelivery.CompleteRound | daemon/src/Event.cpp:151-182 | With transfers kept apart, when the acquires of a round are complete, every listed object was released and acquired exactly once, and the bytes acquired are the bytes released, in order. |
| SyncDelivery.TransfersMatch | icdpp/src/dclicd/Event.cpp:295-323 | With transfers kept apart, for a round that all processes list alike, what was acquired, received, forwarded, received by the host, sent and released are beginnings of each other, object by object, in every reachable state. |
| SyncDelivery.Delivery | daemon/src/Memory.cpp:78-136 | With transfers kept apart and one list order on owner and waiting node, what an acquire installed is what the release of the same object read after the event had completed; and memory holds it until the object is acquired again or something else writes it on the waiting node. |
| SyncMemory.QuietOwner | daemon/src/Memory.cpp:253-292 | While nothing writes an object on its owner, every later release of it reads its present contents. |
| SyncMemory.AcquireSeesOwner | daemon/src/Event.cpp:151-182 | End to end, among other owners, queues, reads, writes and maps that keep apart: after the acquire of an object that was released since, the waiting node holds exactly the owner's contents, if nothing wrote the object on its owner meanwhile and nothing has written it on the waiting node since. |
| SyncMemory.WrittenIsAcquired | daemon/src/Event.cpp:151-182 | So what a command writes on the owner is what an acquire released after it brings to the waiting node, if no other command of the owner writes the object meanwhile. |
| SyncMemory.KeptStep | daemon/src/Memory.cpp:212-251 | What "since" means, for every step: an object holds what was acquired if and only if the step is that acquire, or it did so before and the step is neither a command that writes the object on the waiting node nor the arrival of a write or unmap of it. |
| SyncMemory.StaysKept | daemon/src/Memory.cpp:212-251 | Over any run without such steps it stays so. |
| SyncMemory.WrittenStays | daemon/src/Memory.cpp:212-251 | A command can write any object on the waiting node at any time, and over every run its bytes are there until something else is written or acquired there. |
| SyncProgress.NoDeadlock | icdpp/src/dclicd/Event.cpp:295-323 | With transfers kept apart, until every acquire is complete, some process can carry on what was begun. |
| SyncBounds.RunsAreBounded | daemon/src/Event.cpp:151-182 | A run has at most five protocol steps for each round, fifteen for each of its objects and four for each other command that it begins. |
| SyncBounds.CanFinish | daemon/src/Event.cpp:151-182 | With transfers kept apart, every reachable state has a continuation that begins nothing new and ends with all acquires complete. |
| SyncFailures.ReadGoesWrong | daemon/src/command/CopyDataCommand.h:75-82 | If the application reads or maps any buffer from the owner of a round, some run installs an object for which nothing was released. |
| SyncFailures.WriteGoesWrong | icdpp/src/dclicd/command/ReadWriteCommand.cpp:90-97 | If it writes, creates or unmaps any buffer on the waiting node, some run installs an object for which nothing was released. |
| SyncFailures.MapGoesWrong | icdpp/src/dclicd/command/MappingCommand.cpp:92-107 | If it maps an object of a round for reading from any node, the waiting node's or another, some run installs for it what was not released for it. |
| SyncFailures.StoreGoesWrong | icdpp/src/dclicd/Buffer.cpp:159-176 | If it stores to an object of a round, through a region mapped for writing or its own host memory, some run installs for it what was not released for it. |
| SyncFailures.OwnersGoWrong | icdpp/src/dclicd/Event.cpp:303-322 | With two owners, some run installs an object for which nothing was released. |
| SyncFailures.QueuesGoWrong | daemon/src/Event.cpp:151-182 | The same with two queues. |
| SyncFailures.OverlapGoesWrong | icdpp/src/Memory.cpp:392-404 | If two rounds share an object of the host, some run installs for the first round what was not released for it. |
| SyncNodes.CommonObjectGoesWrong | icdpp/src/Memory.cpp:392-404 | If two rounds share an object of the host, of one waiting node or of two, some run of all nodes installs on the first one's node what was not released for it. |
| SyncNodes.Lifts | icdpp/src/dclicd/Event.cpp:295-323 | Every run of one waiting node that requests its own rounds, while the host is busy with no other node's, is a run of all nodes with the same effect, and leaves the other nodes alone. |
| SyncNodes.RunAddressed | icdpp/src/dclicd/Event.cpp:303-322 | Over every run of any number of nodes, every copy forwarded to a node is for a round that this node waits for, and nodes request only such rounds. |
| SyncExact.OrderMatters | daemon/src/Kernel.cpp:174-186 | A round that owner and waiting node list in different orders has a complete run in which an acquired object does not hold its own contents, also if rounds and other transfers keep apart. |
| SyncExact.TwoOutputsGoWrong | daemon/src/Kernel.cpp:174-186 | A complete run for a kernel with a 4-byte and an 8-byte output that the waiting node lists the other way round, over contents that can be told apart. |
| SyncParts.MapArrivesInPlace | icdpp/src/dclicd/Buffer.cpp:159-176 | In every reachable state, when the receive of a map completes, the host's copy has its bytes from the offset on and is otherwise unchanged, as are all other copies. |
| SyncParts.WriteArrivesInPlace | daemon/src/command/CopyDataCommand.h:75-91 | The same on the waiting node for a write or an unmap, in a buffer that is there. |
| SyncParts.UnmapSendsPart | icdpp/src/dclicd/command/MappingCommand.cpp:127-141 | In every reachable state the bytes that are written for an unmap are those of its part of the host's copy at that time. |
| SyncParts.ReadFromEitherSide | icdpp/src/dclicd/command/ReadWriteCommand.cpp:72-81 | A read or a map can begin on the host or on the node; both orders of the two halves are possible and have the same effect. |
| SyncParts.WriteFromEitherSide | icdpp/src/dclicd/command/ReadWriteCommand.cpp:90-97 | The same for a write or an unmap to the waiting node. |
| SyncHost.RequestRun | icdpp/src/dclicd/Event.cpp:303-322 | Serving a request without interruption is a run of the protocol with that effect. |
| NativeEvents.RunInv | daemon/src/Memory.cpp:212-292 | In every run of the native runtime a finished event's causes are finished, successfully if the event is, and a user event set by a callback has the error code of its cause if that failed. |
| NativeEvents.ForcedIsDone | daemon/src/CommandQueue.cpp:194-238 | When a command may start, every event upstream of its wait list is done. |
| NativeEvents.OrderIsExact | daemon/src/CommandQueue.cpp:194-238 | A command starts after an event in all runs if and only if its wait list depends on the event, directly or through other events. |
| WaitLists.ForcesByEntry | daemon/src/CommandQueue.cpp:207-231 | The native list forces exactly the events that its entries force. |
| WaitLists.WaitOrder | daemon/src/CommandQueue.cpp:194-238 | A command with that list starts, in every run, only after every entry that is local or has memory objects is terminal, and after every object of every remote entry has been received and acquired; it succeeds only if all these do. |
| WaitLists.WaitOrderIsExact | daemon/src/Event.cpp:160-181 | The order holds for an entry if and only if it is local or has memory objects, or another entry forces its event. |
| WaitLists.EmptyEntryBreaksOrder | daemon/src/Event.cpp:160-181 | A command that waits only for a remote event without memory objects can start while the event is pending. |
| CommandChains.CopiedOnce | daemon/src/CommandQueue.cpp:441-606 | Over every run of a chain the copy event is set at most once, exactly once when it is over, only after the map; the unmap runs only after it; success needs map and transfer. Told from the steps: it ends with an error exactly if that is the map's, an I/O error after a failed message or start, or what the transfer reported, and successfully exactly if map, message, start and transfer were. |
| CommandChains.OneNotice | daemon/src/CommandQueue.cpp:351-847 | Without I/O errors the host gets the final status exactly once for every command with an event, never for those that it finishes itself, never from both sources, and a second time exactly if a marker's callback ran during construction. |
| CommandChains.EarlyCallbackTellsTwice | daemon/src/Event.cpp:277-349 | The second notice is possible. |
| CommandChains.ComesToAnEnd | daemon/src/CommandQueue.cpp:441-606 | A chain takes at most seven steps and is never stuck before it is over. |
| HostCommands.ReceiptDecides | icdpp/src/dclicd/command/ReadWriteCommand.cpp:72-81 | Over every run of node and host: a read or a map for reading ends on the host only with its receipt, and succeeds only if the node sent the data; once nothing is left to do it has ended if and only if the map succeeded, the node's message went out, and the data was sent or the connection lost; otherwise it stays queued or running. |
| HostCommands.NoticeDecides | icdpp/src/dclicd/command/Command.cpp:129-184 | Any other command of the host has ended, once nothing is left to do, if and only if a notice of the node went out, and then with the status of the node's last event; without failing notices it always ends. |
| HostCommands.FailedMapNeverEnds | daemon/src/command/CopyDataCommand.h:137-140 | A run after which nothing can happen any more while the host's command is still queued. |
| HostCommands.FailedStartNeverEnds | daemon/src/command/CopyDataCommand.h:126-136 | A run after which the host's command is running and only the loss of the connection can end it. |
| HostCommands.ComesToAnEnd | icdpp/src/dclicd/command/Command.cpp:129-184 | Node and host take at most 28 steps for one command, and are not stuck before nothing is left to do. |
| HostCommands.UninterruptedMessages | icdpp/src/dclicd/command/Command.cpp:129-184 | Any number of messages that the command object is told one after the other are a run of the host with the effect of its method, at any point of any run. |
| EventLifecycle.History | icdpp/src/Event.cpp:88-118 | The complete history of an event over any run, told from what its callers did. |
| EventLifecycle.ReferencesCounted | icdpp/src/Event.cpp:88-118 | Over any run the count is one, plus the retains less the releases of the callers, plus what the callbacks called so far have retained and released. |
| EventLifecycle.StatusIsSetLast | icdpp/src/Event.cpp:269-289 | Over any run the status, pending or final, is the one set last, or the initial one. |
| EventLifecycle.Lifetime | icdpp/src/Event.cpp:93-132 | Destroyed at most once, exactly when the count is zero and the status final, after everything else; exactly one call reports it; no legal call follows. |
| EventLifecycle.CallbacksOnce | icdpp/src/Event.cpp:188-221 | No call while the event is pending; then the k-th registered callback makes the k-th call, once, whether it was registered early or late. |
| EventLifecycle.TrueStatus | icdpp/src/Event.cpp:213-215 | All callbacks are told the event's status if and only if none was late or the event succeeded. |
| EventLifecycle.ToldSuccess | icdpp/src/Event.cpp:213-215 | A run in which a callback for an event that failed with -5 is told success. |
| EventLifecycle.Leak | icdpp/src/dclicd/Event.cpp:398 | A user event is destroyed without being deleted if and only if its callbacks release the last reference while its status is set. |
| EventLifecycle.LeakingRun | icdpp/src/dclicd/Event.cpp:398 | A run in which a user event is destroyed, reported once and never deleted. |
| EventLifecycle.CommandEventsAreDeleted | icdpp/src/dclicd/command/Command.cpp:161-179 | A command event is deleted exactly once, exactly when it is destroyed. |
| EventLifecycle.UseAfterDeletion | icdpp/src/Event.cpp:188-221 | Over every run, a call goes on with an event that has been deleted if and only if it is the last call and registers, for a final event, a callback that releases the last reference. |
| Replication.RunInv | icdpp/src/dclicd/Event.cpp:177-213 | In every reachable state what a node has received and what is on its channel for an event is exactly what the host has sent. |
| Replication.Agreement | daemon/src/Event.cpp:192-195 | A substitute is pending, or holds the one final status, or is gone because the original was destroyed; no status is set twice, none reaches a substitute that is gone. |
| Replication.AllAgree | icdpp/src/dclicd/Event.cpp:365-399 | Once everything is delivered, all substitutes agree with the original. |
| Replication.StatusBeforeDelete | icdpp/src/Event.cpp:108-132 | On a channel the deletion of an event has the final status before it, unless that has been received, and nothing about the event after it. |
| Replication.OutcomeStep | icdpp/src/dclicd/Event.cpp:177-213 | Only the owner's report or the application sets the final status, and nothing changes it. |
| Replication.OutcomeForever | icdpp/src/Event.cpp:269-289 | The final status of an event is the same in every continuation of a run. |
| ReplicationRuns.EventsAreExact | icdpp/src/dclicd/Event.cpp:177-213 | Over every run: an event is there exactly once it was created, with that owner; its outcome is the one that the owner reported or the application set last, and is stored exactly after the storage step; its state is that of a run of its own lifecycle, made of its progress, the calls of the application and its storage; and exactly the forwardings and deletions done so far are noted as sent. |
| ReplicationRuns.MessagesAreExact | icdpp/src/Event.cpp:108-132 | Over every run, what a node has received and has on its way for an event is its final status exactly if that was forwarded to it, and then its deletion exactly if that was sent. |
| ReplicationRuns.AgreementIsReached | icdpp/src/dclicd/Event.cpp:177-213 | From every reachable state in which an event has an outcome that can be stored, host and network alone can reach a state in which nothing is under way, the outcome is stored with the effect of the callbacks, and every substitute holds it, or is gone if the original was destroyed. |
| ReplicationRuns.EveryEventCanEnd | icdpp/src/dclicd/Event.cpp:365-399 | Every event without an outcome, in every reachable state, can be given any final status, by its owner or by the application, with the same end. |
| UserEventCalls.SetTwiceIsExact | icdpp/src/dclicd/Event.cpp:365-399 | Over every run of any number of calls, when all are over, a second status was sent to the nodes if and only if one call passed its check while another was between check and storage. |
| UserEventCalls.EffectsAreExact | icdpp/src/Event.cpp:269-307 | When all calls are over: a callback registered in time was called exactly once, and an event that had lost its last reference was destroyed exactly once, each if and only if no calls overlapped; without an overlap every callback is called once. |
| UserEventCalls.ReferencesCounted | icdpp/src/Event.cpp:88-106 | Over every run the count is that of the references which the application has got and not released, whatever the calls under way do, and only final statuses are sent or stored. |
| UserEventCalls.SecondStatusBreaks | daemon/src/Event.cpp:192-195 | A substitute that gets two statuses is set twice, and only then. |
| UserEventCalls.OverlappingCalls | icdpp/src/dclicd/Event.cpp:372-398 | Two calls with different statuses can both succeed; the callback then runs twice and the event is destroyed twice. |
| RefCounts.NoGarbage | icdpp/src/dclicd/Event.cpp:151-156 | The same over every run; nothing is deleted twice, and nothing deleted exists. |
| RefCounts.Conservation | icdpp/src/Memory.cpp:191-205 | In every reachable state each count is the application's references plus the existing objects that retain it, and the leaked objects are exactly the user events completed without references. |
| RefCounts.ReferencesCounted | icdpp/src/Retainable.cpp:59-75 | In every reachable state the application holds of every object exactly the references that it got by creating and retaining it, less those that it released, counted from the list of actions. |
| RefCounts.CountsAreActions | icdpp/src/Retainable.cpp:59-75 | So the count of an existing object is these plus one for each object that retains it. |
| RefCounts.CreatedOrDeleted | icdpp/src/dclicd/utility.h:126-131 | Over every run, exactly the objects created exist or have been deleted, and an object is deleted after everything that retained it. |
| RefCounts.PendingEventRun | icdpp/src/dclicd/Event.cpp:151-156 | A run in which a pending event without references keeps its queue and the context, until its command ends and all three are deleted. |
| RefCounts.ExactlyNeeded | icdpp/src/Program.cpp:210-212 | An object exists if and only if the application holds it, it is a pending event, it has leaked, or such an object keeps it alive. |
| RefCounts.LeakStep | icdpp/src/dclicd/Event.cpp:398 | A step leaks an object exactly if it sets the status of a user event without references. |
| RefCounts.LeakingRun | icdpp/src/dclicd/Event.cpp:398 | A run after which a user event and the context that it retains exist for good. |
| RefCounts.DroppedInv | icdpp/src/dclicd/utility.h:126-131 | A release never takes a count below zero, terminates, deletes nothing that is still retained and keeps all counts balanced. |
| Serialization.RoundTrip | dclasio/include/dcl/ByteBuffer.h:188-293 | For every well-typed value, with vectors and maps nested to any depth, reading its type back yields the value and consumes exactly what was written. |
| Serialization.MessageRoundTrip | dclasio/src/dclasio/message/DeviceIDsResponse.h:85-93 | The same for any sequence of values of any types. |
| Serialization.Layout | dclasio/include/dcl/ByteBuffer.h:188-240 | What every byte of an encoded value is, at any nesting: numbers by their bytes, the lowest first; strings, vectors and maps after their 64-bit length; elements in order and without gaps, of a map entry the key first. |
| Serialization.Truncated | dclasio/include/dcl/ByteBuffer.h:152-155 | Of any value that was cut off, reading fails with an underflow and never passes the end. |
| Serialization.DecodedIsTyped | dclasio/include/dcl/ByteBuffer.h:242-293 | Whatever bytes a value is read from, it has the type that was asked for, and at least one byte was consumed. |
| Serialization.ScalarRoundTrip | dclasio/include/dcl/ByteBuffer.h:188-198 | Bytes in little-endian order give the value back. |
| Buffers.GuardExact | dclasio/include/dcl/ByteBuffer.h:122-145 | The space check lets a write through if and only if it fits, or its 32-bit sum wraps, or the limit is not above the size and the write is within it. |
| Buffers.MessageGuard | dclasio/src/dcl/ByteBuffer.cpp:58-59 | For the default size and limit, which every message buffer of this repository has: exactly which writes are let through, refused by the exception, stopped by the assertion, and let through without room, the last taking a write of almost 4 gigabytes. |
| Buffers.UndetectedWrites | dclasio/include/dcl/ByteBuffer.h:122-145 | Writes that pass the check without room: two whose length wraps in a default buffer, one in a buffer as large as its limit. |
| Buffers.ByteBuffer.PackUnpack | dclasio/src/dclasio/message/DeviceIDsResponse.h:85-93 | If there is room, unpacking yields the packed values and leaves nothing to read. |
| KernelObjects.ListIsUnique | daemon/src/Kernel.cpp:174-186 | That determines the list. |
| KernelObjects.OrdersMatch | daemon/src/Kernel.cpp:174-186 | Two processes list the same objects alike if and only if their addresses order them alike. |
| KernelObjects.OrdersAgree | icdpp/src/Kernel.cpp:212-223 | They do so for all addresses if and only if there is at most one object. |
| LocalCommands.NoLostCommand | icdpp/src/CommandQueue.cpp:268-297 | Over any interleaving the list holds every incomplete command enqueued since it was last taken, in order, and no older one. |
| LocalCommands.FinishWaitsForAll | icdpp/src/CommandQueue.cpp:280-297 | If no other thread is finishing, every command enqueued before is complete on return. |
| LocalCommands.FinishIsExact | icdpp/src/CommandQueue.cpp:280-297 | That holds however the run goes on if and only if, when the list is taken, no incomplete command is in the hands of another finisher. |
| LocalCommands.SecondFinisherDoesNotWait | icdpp/src/CommandQueue.cpp:280-297 | A second finisher may return while a command enqueued before is incomplete. |
| DataStreams.FirstInFirstOut | dclasio/src/dclasio/comm/DataStream.cpp:118-193 | Over any interleaving transfers are performed in the order in which they were posted, none is lost, and the loop runs as long as one is left. |
| DataStreams.AllPerformed | dclasio/src/dclasio/comm/DataStream.cpp:154-193 | From every state that a run reaches the loop can go on until it has performed everything posted, and then it ends. |
| Connections.NeverBoth | dclasio/src/dclasio/ComputeNodeCommunicationManagerImpl.cpp:272-304 | No identifier is ever in both tables, whatever other listeners answer. |
| Connections.RegisteredIsExact | dclasio/src/dclasio/ComputeNodeCommunicationManagerImpl.cpp:184-338 | Whatever the listeners answer: a process is registered as a host, or as a compute node, exactly if the first acceptable connection since it last disconnected is of that kind. |
| Connections.HostsArePresent | daemon/src/dOpenCLd.cpp:282-338 | With the daemon as the only listener, the registered hosts are exactly those that have connected and not disconnected since, and no compute node is registered. |
| Connections.Manager.Run | dclasio/src/dclasio/ComputeNodeCommunicationManagerImpl.cpp:184-338 | After any run no process is host and compute node, every entry is under its own identifier, and the daemon holds a session for exactly the registered hosts. |
| ProcessId.LastSevenCharacters | dclasio/src/dclasio/CommunicationManagerImpl.cpp:111-114 | Only the last seven characters and the port count, for every host name. |
| ProcessId.SeventhCharacter | dclasio/src/dclasio/CommunicationManagerImpl.cpp:111-114 | Of the seventh character from the end exactly the low four bits count. |
| ProcessId.Collision | dclasio/src/dclasio/CommunicationManagerImpl.cpp:108-115 | Names that differ in the last character and ports that make up for it by 16 for each step have one identifier. |
| SyncHost.HostProcess.OnSynchronize | icdpp/src/dclicd/Event.cpp:295-323 | Nothing for an event without objects; otherwise one message to the owner and then one posted receive for each object, in list order. |
| SyncHost.HostProcess.OnAcquire | icdpp/src/Memory.cpp:385-416 | Posts one receive; the forwarding send follows only once it is finished. |
| SyncHost.HostProcess.OnReceived | icdpp/src/Memory.cpp:412-416 | The bytes of the receive at the head of the list replace the cached data of that object; those of a map replace its bytes from the offset on, one by one, and nothing else. |
| WaitLists.NativeQueue.Enqueue | daemon/src/Memory.cpp:224-251 | The new command waits for its list and, on an in-order queue, for its predecessor. |
| WaitLists.Acquire | daemon/src/Memory.cpp:212-251 | A user event of its own, set by the callback of a map that waits for the remote event, is the receipt; the acquire event waits for it, and on an in-order queue for everything enqueued before. |
| WaitLists.Release | daemon/src/Memory.cpp:253-292 | The sending is a user event of its own, set by the callback of a map that waits for the event; the unmap waits for it, and so does whatever an in-order queue runs next. |
| WaitLists.LocalEvent.OnSynchronize | daemon/src/Event.cpp:234-253 | One sending of its own for each object, begun by a map that waits for the event; on the in-order queue they happen in list order. |
| WaitLists.RemoteEvent.Synchronize | daemon/src/Event.cpp:151-182 | The first call for an event with objects sends one request and enqueues one acquire for each object, in order, each after a receipt of its own; a later call changes nothing; the result is the same list. |
| WaitLists.Calls | daemon/src/Event.cpp:160-181 | Over any number of calls from any queues: one request, one acquire for each object, one list for all callers. |
| WaitLists.CommandQueue.Synchronize | daemon/src/CommandQueue.cpp:194-238 | Fails exactly if an entry is no event of this daemon; otherwise the native list has, in order, exactly the local events and all acquires of all remote ones, which have been synchronized. |
| CommandChains.CopyDataCommand.Execute | daemon/src/command/CopyDataCommand.h:107-141 | For every outcome of map, message and transfer start: the copy event is set at once with the right code, or a transfer is started and the host told. |
| CommandChains.ExecData.Execute | daemon/src/Memory.cpp:78-136 | The same for the chains that acquire and release, which tell the host nothing. |
| HostCommands.Command.OnExecutionStatusChanged | icdpp/src/dclicd/command/Command.cpp:129-184 | Stores the lower of the old and the reported status, and starts the transfer when told that the command is submitted. |
| EventLifecycle.ClEvent.Release | icdpp/src/Event.cpp:93-106 | True exactly if the last reference of a terminal event goes, which destroys the event. |
| EventLifecycle.ClEvent.SetCallback | icdpp/src/Event.cpp:188-221 | Refuses other types and a missing function; otherwise appends, and calls at once if the event is terminal, with what the callback retains and releases; tells exactly when that has destroyed the event, to whose list the callback is then appended. |
| EventLifecycle.ClEvent.SetCommandExecutionStatus | icdpp/src/Event.cpp:269-289 | Callbacks run before the status is stored; destroyed exactly if no reference is left after them. |
| EventLifecycle.ClEvent.TriggerCallbacks | icdpp/src/Event.cpp:291-307 | All callbacks, in order, exactly for a final status; what they retain and release re-entrantly takes effect. |
| EventLifecycle.ClEvent.SetUserStatus | icdpp/src/dclicd/Event.cpp:365-399 | Positive values and a second status are refused without effect. |
| RefCounts.Icd.Create | icdpp/src/CommandQueue.cpp:116-142 | The new object holds one reference of the application and retains the object it belongs to. |
| RefCounts.Icd.Retain | icdpp/src/Retainable.cpp:59-62 | The object's count and the application's references to it go up by one; nothing else changes. |
| RefCounts.Icd.Release | icdpp/src/dclicd/utility.h:126-131 | The application's release, with the whole cascade of destructors, does what the function on values says and keeps all counts. |
| RefCounts.Icd.Delete | icdpp/src/Kernel.cpp:131-133 | A destructor releases what was retained. |
| RefCounts.Icd.Complete | icdpp/src/dclicd/command/Command.cpp:150-183 | Completion deletes a command event without references, but not a user event. |
| Buffers.ByteBuffer.FromBytes | dclasio/src/dcl/ByteBuffer.cpp:62-63 | A buffer over received bytes has all of them to read. |
| Buffers.ByteBuffer.Resize | dclasio/src/dcl/ByteBuffer.cpp:145-149 | Within limit and size both cursors are set; otherwise nothing changes. |
| Buffers.ByteBuffer.Put | dclasio/include/dcl/ByteBuffer.h:188-198 | All bytes are appended if they fit; otherwise nothing changes. |
| Buffers.ByteBuffer.WriteText | dclasio/src/dcl/ByteBuffer.cpp:91-108 | Length and bytes, or a part of them if the room ends. |
| Buffers.ByteBuffer.WriteItems | dclasio/include/dcl/ByteBuffer.h:216-224 | The elements in order after their number; if it fails midway, what was written before is unchanged. |
| Buffers.ByteBuffer.WriteEntries | dclasio/include/dcl/ByteBuffer.h:231-240 | The same for maps. |
| Buffers.ByteBuffer.Write | dclasio/include/dcl/ByteBuffer.h:188-240 | The serialized form is appended entirely if and only if there is room for all of it; otherwise a part of it; nothing written before changes. |
| Buffers.ByteBuffer.Take | dclasio/include/dcl/ByteBuffer.h:242-251 | Reads exactly if enough is left, and then those bytes; otherwise nothing is consumed; reading changes no content. |
| Buffers.ByteBuffer.ReadItems | dclasio/include/dcl/ByteBuffer.h:264-274 | The loop yields the decoded elements and consumes exactly their bytes, also when it fails. |
| Buffers.ByteBuffer.ReadEntries | dclasio/include/dcl/ByteBuffer.h:276-293 | The same for maps; an entry whose key is there already is ignored. |
| Buffers.ByteBuffer.Read | dclasio/include/dcl/ByteBuffer.h:242-293 | Result, bytes consumed and what is left are those of decoding the unread bytes. |
| Buffers.ByteBuffer.Pack | dclasio/src/dclasio/message/DeviceIDsResponse.h:85-88 | Fields one after the other, with the same guarantee as one write. |
| Buffers.ByteBuffer.Unpack | dclasio/src/dclasio/message/DeviceIDsResponse.h:90-93 | Fields one after the other, up to the first failure. |
| KernelObjects.Kernel.SetArgument | icdpp/src/Kernel.cpp:152-191 | Only an output object changes the slots, which grow as needed; an earlier entry stays otherwise. |
| KernelObjects.Kernel.WriteMemoryObjects | icdpp/src/Kernel.cpp:212-223 | Exactly the objects in the slots, each once, by increasing address. |
| LocalCommands.CommandQueue.EnqueueCommand | icdpp/src/CommandQueue.cpp:268-278 | The incomplete commands are kept, in their old order and each as often, before the new one, and no others. |
| DataStreams.DataStream.StartRead | dclasio/src/dclasio/comm/DataStream.cpp:154-177 | Takes the whole shared queue when the loop's own is empty, and ends the loop if both are. |
| Connections.AskOthers | dclasio/src/dclasio/ComputeNodeCommunicationManagerImpl.cpp:214-218 | All listeners are asked, also after one has accepted. |
| Connections.Manager.HostConnected | dclasio/src/dclasio/ComputeNodeCommunicationManagerImpl.cpp:204-234 | One entry and one session more. |
| Connections.Manager.NodeConnected | dclasio/src/dclasio/ComputeNodeCommunicationManagerImpl.cpp:236-266 | Registered exactly if a listener other than the daemon accepts. |
| Connections.Manager.Disconnected | dclasio/src/dclasio/ComputeNodeCommunicationManagerImpl.cpp:306-338 | Exactly that process leaves the tables, a host with its session. |
| Connections.Manager.Handle | dclasio/src/dclasio/ComputeNodeCommunicationManagerImpl.cpp:272-304 | An identifier in use is not approved; tables and sessions stay consistent. |
| ProcessId.CreateProcessId | dclasio/src/dclasio/CommunicationManagerImpl.cpp:105-118 | The loop computes the weighted sum of the characters plus the port, modulo 2^32. |

## Left out

- SyncFailures.SafetyIsExact: several waiting nodes, for which `SyncCopies` states exactly what the host forwards, but not when everything acquired is right; and waiting queues that are not in-order.
- SyncCopies.CopiesAreExact: a separate configuration of reads and writes for each waiting node.
- SyncDelivery.Delivery: rounds in which a map, a message or a transfer fails, so that a receive stays posted.
- SyncHost.HostProcess.OnSynchronize: the loop runs without interruption here; interruptions between its turns are in the protocol's own runs.
- WaitLists.Acquire: the user event of the receipt is numbered after the map that its callback belongs to, although the code creates it before.
- EventLifecycle.ClEvent.SetCallback: callbacks register no callbacks.
- EventLifecycle.ClEvent.SetUserStatus: one call at a time; overlapping calls are the subject of `UserEventCalls`.
- Replication.RunInv: a user event is set by one call at a time here as well.
- UserEventCalls.EffectsAreExact: what the callbacks themselves retain and release, which `EventLifecycle` has for a single call.
- Replication.Agreement: daemons that know each other and send statuses directly; the host gives them an empty list of nodes.
- Replication: exceptions halfway through a request to several nodes, and responses to requests.
- RefCounts: objects retained by pending map and unmap commands, and the registries that destructors leave.
- CommandChains.OneNotice: messages that fail; a failed notice is not sent again.
- HostCommands.NoticeDecides: the assertion that a status only falls, which stops a host built with assertions at a second notice.
- HostCommands.ReceiptDecides: a receipt that takes the bytes of another transfer; that is the subject of `SyncProtocol`.
- Buffers.ByteBuffer.Write: C strings (a compile-time option), the move constructor, and memory that runs out while a vector is resized for reading.
- LocalCommands.CommandQueue.EnqueueCommand: finishing is a step that takes the list and one wait for each command, in the interleavings only.
- Connections: connections that this process initiates, reconnecting, and the dispatcher threads themselves; `connectComputeNodes` is disabled by an assertion.
- Sockets, message classes, response buffers, logging, clocks, profiling and the native OpenCL runtime, which is modelled as events with dependencies, queues and callbacks.
- Collective operations, images, sub-buffers and programs from binaries, which the code does not implement.
- The OpenCL entry points, information queries and their caches, node files, page locking and compute node references, which would only add easy members.
