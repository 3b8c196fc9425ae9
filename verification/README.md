# Models and proofs for the alpl library

This project models three parts of the library and proves what they are for.

**The completion-port engine** (`net/impl/IocpHandler.hpp`, started and stopped by `net/impl/TcpServer.hpp`).
`IocpModel` is a transition system: any number of worker threads, the main thread through `Start` and `Stop`, and
the operating system, which accepts connections, completes receives with the next bytes of the peer's stream, and
reuses handle values and addresses as soon as they are free. Each statement of a handler that touches shared state
is a step of its own, so every interleaving of the workers is an execution. `IocpInvariant` says what the holder of a
context may rely on; a context is held by exactly one of the kernel, the queue, a worker, the main thread, or the
history of dropped contexts. `IocpWorkerSteps`, `IocpTableSteps` and `IocpSystemSteps` prove that every step keeps
the invariant; `IocpTheorems`, `IocpSockets`, `IocpArrival`, `IocpAccept`, `IocpShutdown` and `IocpDrain` draw the
consequences for all executions and all reachable states. `IocpHandler` is the class itself: the methods of the
source, assigning to its fields, with the other threads running between any two statements; the object is proved to
stay in reachable states of the transition system. The contract of a method that is one statement says which step
it is and what it changes, that of a method that calls others which steps its own thread has taken and, where it
may stop before the end, what holds it up.

**The blocking queue** (`containers/impl/BlockingQueue.hpp` over `threading/threading.h`). Every call is a thread
that moves through its body one statement at a time. `CondVarQueue` is the condition-variable branch,
`EventQueue` the event branch, `QueueModel` what they share: the steps on the deque and the lock, and the atomic
bounded FIFO they are compared with. `BlockingQueue` is the class, with the loops of both branches, proved to be
runs of the two systems.

**Arithmetic and printing.** `SendBuffer` is the resumption of partial sends, `ByteCodec` is `ntob` and `bton`
for any width, `Stopwatch` is the mixed-radix split of a time and its two printed forms.

What the proofs found in the code:

- A failed `CreateIoCompletionPort` leaves null in `iocp_handle_`, and `exiting` then posts no packet. The workers
  are certain to return, whoever else moves, if and only if the queue holds a packet, of any kind, for every worker
  that still has to dequeue one (`IocpDrain.MustReturnExactly`); with the port there after the posting loop it
  always does (`IocpDrain.PortMeansEnough`). Without the port they may still return if and only if the receives that
  are pending or about to be posted can make up for the missing packets (`IocpDrain.CanReturnExactly`): a client that
  closes its connection then wakes a worker. Two workers are left with one waiting for ever if the first connection
  meets the failure (`IocpShutdown.StopWithoutPort`); a single worker always returns (`IocpDrain.OneWorkerReturns`).
- The first failure of a call that accepts the next connection ends accepting for good, and it is the only thing
  that does (`IocpAccept.AcceptRearmed`; a run in which it happens is `IocpShutdown.AcceptLost`). The result of
  `AcceptEx` is compared with `SOCKET_ERROR`, which it never returns, so its own failure is not noticed.
- In the event branch a timed-out call runs the destructor of `sync_t` without owning the critical section, and a
  failed wait goes back to the loop without it: the lock discipline holds exactly for runs without either
  (`EventQueue.DisciplineExactly`; one timed push on a new queue breaks it, `EventQueue.TimeoutBreaksDiscipline`).
  Two calls that wait on the same event can be left with one of them asleep beside an item, and a limit of one is
  exactly what excludes it (`EventQueue.StrandingLimit`).
- With capacity zero and both kinds of calls everybody sleeps; otherwise the outcome of a run without timeouts does
  not depend on the schedule (`CondVarQueue.MaximalRunOutcome`).
- The constructor of the queue fills the deque with `max_size` default items: a new queue is full.
- `bton(ntob(n))` returns `n` exactly when no byte of `n` but the top one is 128 or more.
- `readable2` never carries 1000 microseconds into the milliseconds, so its text is exact only below that: 0.9996 ms
  is printed as 100 microseconds (`Stopwatch.Readable2Carries`).

Assumptions on the system: a wake releases one call that still sleeps, if there is one; an event stays set until a
waiter consumes it; `LeaveCriticalSection` by a thread that does not own the section has no defined effect, hence
no step; a completion carries no more bytes than were asked for, and a receive that completes with success and
without bytes means the peer closed; `setsockopt(SO_UPDATE_ACCEPT_CONTEXT)` fails on a socket that is not
connected; a new handle is not open and a new address is not in use; user callbacks return and do not call back
into the handler. `handle_new_connection` names `new_socket_context`, a local variable of its callers; it is a
parameter here.

## Model

| member | source | states |
|---|---|---|
| `IocpSystemSteps.ExecutionKeepsInv` | net/impl/IocpHandler.hpp:603-694 | in every state of every execution with any number of workers the whole invariant holds: ownership, what each holder relies on, agreement of the tables |
| `IocpTheorems.SingleOwnership` | net/impl/IocpHandler.hpp:603-694 | every live context is in exactly one place (a pending operation, a queued packet, a worker, the main thread, dropped), and every place names a live context; what can be dropped before shutdown is the subject of the next row |
| `IocpAccept.AcceptedInOnePlace` | net/impl/IocpHandler.hpp:603-694 | before shutdown every accepted context is in exactly one pending operation, one queued packet or one worker: none is ever lost |
| `IocpAccept.OnlyListenerDropped` | net/impl/IocpHandler.hpp:660-668 | before shutdown nothing but the listening context is ever dropped |
| `IocpTheorems.NoBadDereference` | net/impl/IocpHandler.hpp:641-690 | no worker dereferences a null overlapped pointer or a freed context or takes the IOConnect or IOSend case; a dispatched packet has key and overlapped of one live context, tagged IOAccept on the listening context and IOReceive on every other |
| `IocpTheorems.ListenerNeverDisconnected` | net/impl/IocpHandler.hpp:89-94 | disconnect never works on the listening context, so the test for the listening socket never succeeds |
| `IocpTheorems.InOrderDelivery` | net/impl/IocpHandler.hpp:485-516 | what the callbacks of a connection were given is a prefix of what its own peer sent, in order, each byte once; different connections have different peers |
| `IocpTheorems.ArmedMeansDrained` | net/impl/IocpHandler.hpp:521-562 | whenever a receive is pending, its connection has been given exactly the bytes the system has copied so far, those of the accept completion first |
| `IocpTheorems.ClosedMeansDrained` | net/impl/IocpHandler.hpp:114-115 | once onDisconnected has been called, the connection had been given every byte that was ever copied for its peer: nothing is skipped at the end |
| `IocpTheorems.CallbackHistory` | net/impl/IocpHandler.hpp:541-556 | along every execution delivered bytes only grow at the end, onDisconnected comes at most once, and nothing is delivered after it |
| `IocpTheorems.TablesAgree` | net/impl/IocpHandler.hpp:110-122 | connection map, context list and open sockets agree on every accepted context outside the window in which a worker creates or removes just that context, although handles are reused; map and list hold nothing else, and an open handle is the socket of a live context or the accept socket in the listening context |
| `IocpSockets.ExecutionAccounted` | net/impl/IocpHandler.hpp:290-299 | no accept socket is replaced before it has become the socket of a context or is closed, in any execution: no handle leaks |
| `IocpTheorems.SocketAlwaysExists` | net/impl/IocpHandler.hpp:550-558 | handle_receive always finds the socket in the map and a connection object there |
| `IocpTheorems.NoSendBegun` | net/impl/IocpHandler.hpp:208-209 | in every reachable state no context has SentBytes or TotalBytes other than 0 |
| `IocpArrival.ReceiveCompletes` | net/impl/IocpHandler.hpp:521-539 | a pending receive completes with any number of unread bytes up to the 4096 asked for, and exactly the next ones are in its buffer; or without bytes |
| `IocpArrival.AcceptCompletes` | net/impl/IocpHandler.hpp:318-328 | a pending AcceptEx completes with any client and its first bytes, at most 3808, in the buffer; or it fails |
| `IocpArrival.SentIsReceived` | net/impl/IocpHandler.hpp:521-539 | what a peer sends when all before is received is what the pending receive puts into its buffer |
| `IocpArrival.BytesDelivered` | net/impl/IocpHandler.hpp:541-556 | with the server running, a worker idle and the queue empty, seven steps bring the next bytes of a peer to the callback of its connection |
| `IocpSockets.StillListening` | net/impl/TcpServer.hpp:148-175 | from its creation until Stop closes it the listening context has its socket |
| `IocpAccept.AcceptRearmed` | net/impl/IocpHandler.hpp:290-337 | before shutdown exactly one accept is under way if and only if no call that accepts the next connection has failed, none otherwise, and only on the listening context |
| `IocpShutdown.AcceptLost` | net/impl/IocpHandler.hpp:228-236 | a run in which CreateIoCompletionPort fails for the first connection, and no accept is under way any more |
| `IocpAccept.DropsOnFailure` | net/impl/IocpHandler.hpp:660-668 | before shutdown a step loses a context exactly when it is a failed accept, and then it is the listening one |
| `IocpProgress.WorkerAdvances` | net/impl/IocpHandler.hpp:603-694 | every step of a worker moves no other thread and lowers what remains of its work, except the dispatch of a packet before shutdown |
| `IocpShutdown.ExitPacketsSuffice` | net/impl/IocpHandler.hpp:130-140 | once the posting loop has ended with the port there, the exit packets in the queue never number fewer than the workers still to dequeue |
| `IocpShutdown.ShutdownDrains` | net/impl/IocpHandler.hpp:621-641 | from then on workers are stuck if and only if all have returned, each dequeues at most once more, and all take at most 19 steps each |
| `IocpShutdown.WorkersReturn` | net/impl/IocpHandler.hpp:621-641 | from then on the workers alone can bring every execution to the state in which all have returned |
| `IocpShutdown.DequeuesOnce` | net/impl/IocpHandler.hpp:623-636 | while exiting every worker dequeues at most one more packet |
| `IocpShutdown.WorkEnds` | net/impl/IocpHandler.hpp:635-641 | while exiting n workers take at most 19n more steps |
| `IocpShutdown.SomeoneMoves` | net/impl/IocpHandler.hpp:72-128 | a worker that has not returned and has a packet, or the owner of the critical section it waits for, can move |
| `IocpShutdown.DeafForever` | net/impl/IocpHandler.hpp:134-140 | exiting without a port, with nothing queued or pending, the idle workers stay where they are in every continuation |
| `IocpShutdown.StopWithoutPort` | net/impl/IocpHandler.hpp:228-236 | a run after which one worker waits for ever: CreateIoCompletionPort fails, Stop is called, and no continuation moves the worker |
| `IocpDrain.MustReturnExactly` | net/impl/IocpHandler.hpp:130-157 | without the port at any moment of shutdown, and with or without it after the posting loop: whoever moves, the workers get stuck only with all of them returned, if and only if the queue holds a packet for each that still has to dequeue one |
| `IocpDrain.CanReturnExactly` | net/impl/IocpHandler.hpp:130-140 | at any moment of shutdown some continuation, by workers, main thread and system, returns all workers if and only if the port is there or queued packets, pending receives and workers about to post one are at least as many as the workers still to dequeue |
| `IocpDrain.SupplyNeverRises` | net/impl/IocpHandler.hpp:521-537 | without the port that number never rises in any execution |
| `IocpDrain.EnoughStays` | net/impl/IocpHandler.hpp:621-636 | without the port the packets to spare never become fewer in any execution |
| `IocpDrain.AloneExactly` | net/impl/IocpHandler.hpp:621-636 | if only the workers move, all can return, and in whatever order they move all have returned once none can move, if and only if there are enough packets |
| `IocpDrain.LeftWaiting` | net/impl/IocpHandler.hpp:621-636 | without enough packets the workers by themselves end up stuck with one of them waiting at the empty queue |
| `IocpDrain.OneWorkerReturns` | net/impl/IocpHandler.hpp:228-236 | a server of one worker always drains: whoever loses the port returns |
| `IocpHandler.IocpHandler.constructor` | net/impl/IocpHandler.hpp:11-20 | the object starts in the initial state of the transition system |
| `IocpHandler.IocpHandler.Others` | net/impl/IocpHandler.hpp:603-694 | what other threads and the system do between two statements is exactly the given labels, as far as they are possible and not of this thread, and this thread stays where it is |
| `IocpHandler.InterferenceFollows` | net/impl/IocpHandler.hpp:603-694 | every run of the other threads and the system can happen there, so the methods are correct under every interleaving |
| `IocpHandler.IocpHandler.Disconnect` | net/impl/IocpHandler.hpp:72-128 | with other threads running between its statements disconnect is held up only while another thread owns the critical section, and then nothing of it has happened; otherwise it takes exactly its eight steps, at the statements in order, and ends after having left the section |
| `IocpHandler.IocpHandler.DropContext` | net/impl/IocpHandler.hpp:116-128 | the five steps after onDisconnected, at the statements in order, and no others of this worker |
| `IocpHandler.IocpHandler.DeleteContext` | net/impl/IocpHandler.hpp:121-125 | the last three of them: off the list, freed, the critical section left |
| `IocpHandler.IocpHandler.EnterLocker` | net/impl/IocpHandler.hpp:74-81 | enters exactly when nobody owns the critical section, as one step of this worker, and changes nothing otherwise |
| `IocpHandler.IocpHandler.TestSockets` | net/impl/IocpHandler.hpp:89-112 | computes the comparison with the listening socket and the test for an accept socket; both are false, and nothing else changes |
| `IocpHandler.IocpHandler.NotifyDisconnected` | net/impl/IocpHandler.hpp:114 | the callback is made on the object that the map holds for the socket, whose count of onDisconnected calls rises by one; the map is unchanged |
| `IocpHandler.IocpHandler.EraseConnection` | net/impl/IocpHandler.hpp:116 | the map is the old one without the entry of the socket |
| `IocpHandler.IocpHandler.CloseItsSocket` | net/impl/IocpHandler.hpp:118-119 | the handle is no longer open or associated, and the socket field of the context is null |
| `IocpHandler.IocpHandler.RemoveFromList` | net/impl/IocpHandler.hpp:121 | the list is the old one without the context, which is in it no more |
| `IocpHandler.IocpHandler.FreeContext` | net/impl/IocpHandler.hpp:122 | the context was live, and the live contexts are the others |
| `IocpHandler.IocpHandler.CreateContext` | net/impl/IocpHandler.hpp:169-237 | held up exactly while the critical section is owned; otherwise a new context, which was not live, has the accepted socket, the tag IOConnect, no accept socket, nothing sent or to send and 4096 zero bytes, and is the completion key of the socket; or the port is null and the worker ends |
| `IocpHandler.IocpHandler.UpdateCompletionPort` | net/impl/IocpHandler.hpp:221-251 | held up by an owned critical section, or the failure ends the worker, or the new context is at the front of the list |
| `IocpHandler.IocpHandler.UpdateAcceptContext` | net/impl/IocpHandler.hpp:402-409 | succeeds exactly on a connected accept socket when the system lets it |
| `IocpHandler.IocpHandler.MapConnection` | net/impl/IocpHandler.hpp:458-481 | a new connection object for the peer of the socket with nothing delivered, and the map leads from the socket to it |
| `IocpHandler.IocpHandler.DeliverAccepted` | net/impl/IocpHandler.hpp:488-495 | the first bytes of the accept buffer, as many as the packet says, are appended to what the mapped connection was given |
| `IocpHandler.IocpHandler.ReceiveFirst` | net/impl/IocpHandler.hpp:499-516 | the tag is IOReceive and a receive into its buffer is pending, or nothing is posted and disconnect follows |
| `IocpHandler.IocpHandler.HandleNewConnection` | net/impl/IocpHandler.hpp:454-519 | a path of the transition system that ends before start_accept, or waits in disconnect for a critical section that is owned |
| `IocpHandler.IocpHandler.HandleAccept` | net/impl/IocpHandler.hpp:400-425 | success ends before start_accept, failure ends the worker, otherwise it waits for a critical section that is owned |
| `IocpHandler.IocpHandler.CreateAcceptSocket` | net/impl/IocpHandler.hpp:292-297 | a fresh open handle is the accept socket of the listening context, or that is null and the worker ends |
| `IocpHandler.IocpHandler.PostAcceptEx` | net/impl/IocpHandler.hpp:318-336 | AcceptEx with the accept socket is pending, or it failed unnoticed and the worker goes on all the same |
| `IocpHandler.IocpHandler.StartAccept` | net/impl/IocpHandler.hpp:290-337 | ends at the queue, or ends the worker |
| `IocpHandler.IocpHandler.HandleReceive` | net/impl/IocpHandler.hpp:541-562 | this worker takes exactly the three steps of the callback, the step that re-arms the receive and, if that fails, the eight of disconnect, unless the critical section is owned |
| `IocpHandler.IocpHandler.ReceiveData` | net/impl/IocpHandler.hpp:550-558 | the connection is found, the object the map holds for the socket is fetched, and the received bytes are appended to what it was given; the three steps of this worker |
| `IocpHandler.IocpHandler.StartReceive` | net/impl/IocpHandler.hpp:521-539 | the receive is re-armed into the buffer of the context and the worker is at the queue, or it disconnects, or waits for an owned critical section; its own steps are listed |
| `IocpHandler.IocpHandler.PostReceive` | net/impl/IocpHandler.hpp:523-537 | the tag is IOReceive and a receive into its buffer is pending, or nothing is posted and disconnect follows |
| `IocpHandler.IocpHandler.Dequeue` | net/impl/IocpHandler.hpp:623-630 | takes the first packet off the queue, and waits exactly while the queue is empty |
| `IocpHandler.IocpHandler.TestFlags` | net/impl/IocpHandler.hpp:635-639 | goes on exactly when the handler runs and is not exiting |
| `IocpHandler.IocpHandler.Dispatch` | net/impl/IocpHandler.hpp:641-690 | a client that went away is disconnected, otherwise the tag decides; the overlapped pointer is the context of the key |
| `IocpHandler.IocpHandler.Handle` | net/impl/IocpHandler.hpp:641-690 | one packet is dispatched and what it leads to is carried through, unless the critical section is owned |
| `IocpHandler.IocpHandler.NextPacket` | net/impl/IocpHandler.hpp:621-639 | a packet to handle, or the end of the thread, or an empty queue |
| `IocpHandler.IocpHandler.WorkerThread` | net/impl/IocpHandler.hpp:603-694 | the loop: it returns, or it is held up at an empty queue or at a critical section that is owned, or it has dispatched as many packets as it was given rounds; it never crashes |
| `IocpHandler.IocpHandler.Start` | net/impl/TcpServer.hpp:26-43 | from the constructed server to the first AcceptEx, with other threads in between; it fails to serve only if the system hands out an open handle for the accept socket |
| `IocpHandler.IocpHandler.CreateListener` | net/impl/TcpServer.hpp:97-156 | start-up always gets its listening socket; its context has the tag IOAccept, nothing sent or to send and 4096 zero bytes |
| `IocpHandler.IocpHandler.FirstAcceptEx` | net/impl/TcpServer.hpp:148-175 | AcceptEx with the accept socket is pending on the listening context, which always still has its socket |
| `IocpHandler.IocpHandler.PostExit` | net/impl/IocpHandler.hpp:136-140 | one exit packet is appended to the queue, and nothing if the port is null |
| `IocpHandler.IocpHandler.CloseListener` | net/impl/IocpHandler.hpp:154-157 | the listening context has no socket afterwards |
| `IocpHandler.IocpHandler.Stop` | net/impl/TcpServer.hpp:45-53 | sets the flag, posts, and ends with the listening context there and without a socket; if the port is still there, exit packets and workers that need none number at least the threads |
| `SendBuffer.Sender.HandleSend` | net/impl/IocpHandler.hpp:564-601 | posts exactly the rest of the buffer, or resets SentBytes when all of it is gone |
| `SendBuffer.Sender.Complete` | net/impl/IocpHandler.hpp:564-601 | one completion transmits exactly the next bytes; an empty one disconnects |
| `SendBuffer.Sender.SendAll` | net/impl/IocpHandler.hpp:564-601 | any completions that are not empty and fit add up to exactly the first TotalBytes of the buffer, in at most TotalBytes of them |
| `BlockingQueue.BlockingQueue.constructor` | containers/impl/BlockingQueue.hpp:7-20 | a new queue is full of default items |
| `BlockingQueue.MeanwhileFollows` | containers/impl/BlockingQueue.hpp:51-128 | every run of the other calls can happen while a call is held up, so the methods are correct under every interleaving |
| `BlockingQueue.BlockingQueue.TryPushBack` | containers/impl/BlockingQueue.hpp:51-87 | the loop, with other threads at every wait, is a run of the monitor; true means the item went to the end as the last effect; no result means held up: at the beginning by an owned section, or asleep after all that the others do in that turn, or released but without the section; with the section free and room after the first turn it returns true |
| `BlockingQueue.BlockingQueue.TryPopFront` | containers/impl/BlockingQueue.hpp:90-128 | the same for pop: an item comes out exactly with true, and was the front; with the section free and an item after the first turn it returns that item |
| `BlockingQueue.BlockingQueue.TrySigWait` | containers/impl/BlockingQueue.hpp:56-64 | a call that sleeps owns the section no more; whether it goes on owning it again, gives up and releases it, or is held up is decided by where the others have brought the monitor |
| `BlockingQueue.BlockingQueue.WakeOne` | threading/threading.h:101 | one sleeper on the other condition is released if there is one, and nobody else changes |
| `BlockingQueue.BlockingQueue.EnterSection` | threading/threading.h:71-74 | enters exactly when nobody owns the section |
| `BlockingQueue.BlockingQueue.LeaveSection` | threading/threading.h:76-78 | the destructor releases a section it owns |
| `BlockingQueue.BlockingQueue.PushBack` | containers/impl/BlockingQueue.hpp:131-134 | returns only with the item pushed, and fails to return only while held up |
| `BlockingQueue.BlockingQueue.PopFront` | containers/impl/BlockingQueue.hpp:137-140 | returns only with an item, and fails to return only while held up |
| `BlockingQueue.BlockingQueue.TryPushBackXp` | containers/impl/BlockingQueue.hpp:66-86 | the event branch is a run of its monitor; true means the item was pushed as the last effect, and the section was left in order exactly if no wait had failed; false means a timeout, at the destructor without the section; no result means held up: by the section, by an event that is not set after all that the others do in that turn, or at a LeaveCriticalSection after a failed wait |
| `BlockingQueue.BlockingQueue.TryPopFrontXp` | containers/impl/BlockingQueue.hpp:105-127 | the same for pop; an item comes out exactly with true |
| `BlockingQueue.BlockingQueue.WaitXp` | containers/impl/BlockingQueue.hpp:66-79 | the call goes back to the loop test, owning the section exactly if no wait failed, or returns false after a timeout without owning it, or is held up |
| `BlockingQueue.BlockingQueue.LeaveSectionXp` | containers/impl/BlockingQueue.hpp:66 | has an effect exactly for the owner |
| `QueueModel.ReplayConserves` | containers/impl/BlockingQueue.hpp:82-84 | what the atomic bounded FIFO means: initial contents and pushes equal pops and present contents, within the capacity |
| `QueueModel.LinearizedMove` | containers/impl/BlockingQueue.hpp:123-125 | the one statement with an effect is one atomic operation |
| `CondVarQueue.RunSafe` | containers/impl/BlockingQueue.hpp:51-128 | in every run: lock discipline, capacity, and the contents are the atomic replay of the log, each call taking effect exactly once if it is past its transfer |
| `CondVarQueue.FifoConservation` | containers/impl/BlockingQueue.hpp:82-124 | initial contents and pushed items are popped items and present contents; the size stays within the capacity |
| `CondVarQueue.FalseMeansBlocked` | containers/impl/BlockingQueue.hpp:57-63 | a call that returned false had no effect and saw the blocking condition while it owned the lock |
| `CondVarQueue.InfiniteNeverGivesUp` | containers/impl/BlockingQueue.hpp:131-140 | a call with INFINITE never times out |
| `CondVarQueue.SleeperGivesUp` | containers/impl/BlockingQueue.hpp:57-63 | every sleeping call with a time limit can give up: with the section free it returns false, and nothing else has changed; a call with INFINITE cannot |
| `CondVarQueue.PushGivesUp` | containers/impl/BlockingQueue.hpp:51-63 | a run in which a push with a time limit on the full queue of capacity one returns false |
| `CondVarQueue.RunNoLostWakeup` | containers/impl/BlockingQueue.hpp:54-84 | in every run: whenever a call sleeps, what is available is covered by calls that are awake and will see it |
| `CondVarQueue.SleeperIsCovered` | containers/impl/BlockingQueue.hpp:54-84 | with the lock free, a sleeping consumer means at most as many items as woken consumers, a sleeping producer at most as much room as woken producers |
| `CondVarQueue.NeverAllAsleep` | containers/impl/BlockingQueue.hpp:54-125 | with capacity at least one, calls of both kinds are never all asleep |
| `CondVarQueue.RunsTerminate` | containers/impl/BlockingQueue.hpp:51-140 | with or without timeouts, but without spurious returns, n calls take at most 7n steps |
| `CondVarQueue.EveryRunCompletes` | containers/impl/BlockingQueue.hpp:51-140 | every run without timeouts and spurious returns can be continued until no call can move |
| `CondVarQueue.MaximalRunOutcome` | containers/impl/BlockingQueue.hpp:51-140 | then pushes and pops made are min(P, C+M-q0) and min(C, q0+P) if and only if M is at least one or only one kind is present |
| `EventQueue.DisciplineExactly` | containers/impl/BlockingQueue.hpp:66-79 | every state of a run keeps the lock discipline if and only if no wait of the run timed out or failed |
| `EventQueue.TimeoutBreaksDiscipline` | containers/impl/BlockingQueue.hpp:66-70 | a run in which it is broken: one push with a time limit on the full queue of capacity one |
| `EventQueue.FailedWaitBreaksDiscipline` | containers/impl/BlockingQueue.hpp:66-79 | a run in which a failed wait breaks it |
| `EventQueue.TimeoutReleasesUnowned` | containers/impl/BlockingQueue.hpp:69-70 | a call whose wait timed out stands at the destructor without owning the section and never finishes |
| `EventQueue.RunSafe` | containers/impl/BlockingQueue.hpp:66-127 | without timeouts and failed waits the event branch implements the atomic bounded FIFO too |
| `EventQueue.RunAnnounced` | containers/impl/BlockingQueue.hpp:66-84 | with at most one call on an event at a time, whoever waits although it could proceed has its event set or about to be set |
| `EventQueue.CoalescingStrands` | threading/threading.h:110-111 | two SetEvent calls merge and leave one of two waiting calls asleep beside an item, or beside a free place |
| `EventQueue.StrandingLimit` | containers/impl/BlockingQueue.hpp:105-125 | no call is ever left so if and only if at most one call waits on the event at a time |
| `EventQueue.RunsTerminate` | containers/impl/BlockingQueue.hpp:66-127 | in the event branch n calls take at most 9n steps, with or without timeouts, as long as no wait fails |
| `EventQueue.EveryRunCompletes` | containers/impl/BlockingQueue.hpp:66-127 | with at most one push and one pop in progress at a time, every run can be continued so until nobody can move whose turn it is |
| `EventQueue.TurnsOutcome` | containers/impl/BlockingQueue.hpp:66-127 | then pushes and pops made are min(P, C+M-q0) and min(C, q0+P), as in the other branch, if and only if M is at least one or only one kind is present |
| `ByteCodec.Ntob` | util/errno.h:115-123 | the loop writes the bytes of the number, lowest first, as signed chars, and nothing else; -1 for a null buffer |
| `ByteCodec.Bton` | util/errno.h:125-135 | the loop computes the wrapped value of the chars, one more than were written |
| `ByteCodec.LowestFirst` | util/errno.h:121-133 | 0x01020380 is written as -128, 3, 2, 1, and comes back 256 too small |
| `ByteCodec.ExtraCharIgnored` | util/errno.h:132-133 | the extra char never affects the result |
| `ByteCodec.RoundTrip` | util/errno.h:115-135 | bton(ntob(n)) is n minus 256^(i+1) for every byte i below the top one that is 128 or more, modulo 256^k |
| `ByteCodec.RoundTripExactly` | util/errno.h:115-135 | it is n if and only if no byte but the top one is 128 or more |
| `ByteCodec.UnsignedRoundTrip` | util/errno.h:115-135 | with unsigned digits it would be a true inverse |
| `ByteCodec.RoundTripLoses` | util/errno.h:115-135 | with four bytes 128 comes back as -128 |
| `Stopwatch.MixedRadixUnique` | util/stopwatch.h:29-40 | fields in range that stand for the same count are the same fields |
| `Stopwatch.Stopwatch.Convert` | util/stopwatch.h:35-40 | whole units and the rest below one unit |
| `Stopwatch.Stopwatch.SplitFields` | util/impl/stopwatch.hpp:48-55 | the chained conversions give the one mixed-radix form of the count, every lower field in range |
| `Stopwatch.YearImpliesTwelveMonths` | util/impl/stopwatch.hpp:48-50 | the year is redundant, and a printed year means at least twelve months |
| `Stopwatch.SplitFormat` | util/impl/stopwatch.hpp:59-72 | each of the seven shapes is recognised by its separators, with the numbers that were printed |
| `Stopwatch.TextLooks` | util/impl/stopwatch.hpp:59-72 | the units are those from the highest that a count reaches; the first number and a month or day after a larger unit have no leading zero, all other numbers have two digits, and each is below its radix |
| `Stopwatch.ReadableLossless` | util/impl/stopwatch.hpp:44-75 | a decoder that looks at the separators and ignores the year recovers the count from the text |
| `Stopwatch.ReadableInjective` | util/impl/stopwatch.hpp:59-72 | different counts print differently across all shapes |
| `Stopwatch.ReadableMinute` | util/impl/stopwatch.hpp:67-68 | 61005 ms are printed as 1:01.005 |
| `Stopwatch.Stopwatch.Readable` | util/impl/stopwatch.hpp:44-75 | the text reads back as the rounded elapsed time, has the units and digits of TextLooks, and three digits after the point |
| `Stopwatch.MicroSplitRounds` | util/impl/stopwatch.hpp:80-82 | 1000*ms + micro is the elapsed time rounded half up, micro is at most 1000, and 1000 exactly from a fraction of 0.9995 on |
| `Stopwatch.DenotedMicrosOf` | util/impl/stopwatch.hpp:95-108 | what the text of readable2 denotes; a carry of 1000 is read as 100 |
| `Stopwatch.Readable2Exactly` | util/impl/stopwatch.hpp:78-111 | the text denotes the rounded elapsed time if and only if the fraction of a millisecond is below 0.9995 |
| `Stopwatch.Readable2Carries` | util/impl/stopwatch.hpp:80-108 | 0.9996 ms is printed as 0.0001000, which denotes 100 microseconds instead of 1000 |
| `Stopwatch.Stopwatch.Readable2` | util/impl/stopwatch.hpp:78-111 | the text denotes the rounded elapsed time exactly below a fraction of 0.9995, has the units and digits of TextLooks, and six digits after the point, or seven with the lost carry |

## Left out

- Winsock and Win32 calls (address lookup, creation of ports, threads and events): environment steps, with the assumptions above.
- Failures of the calls in `TcpServer::Start` before `AcceptEx`: start-up is modelled when it succeeds.
- The `ConnectEx` path (`start_connect`, `handle_connect`, the IOConnect case): its only client is commented out; the IOConnect and IOSend cases of the worker are proved unreachable in server runs.
- IocpHandler.IocpHandler.CreateListener: the creation of the listening socket and of its context is one step, because nothing else runs on them before it ends.
- IocpHandler.IocpHandler.CloseItsSocket: closing a handle and resetting the field that holds it is one step, so a reuse of the handle between the two statements is not a separate state; the context is the worker's own.
- IocpHandler.IocpHandler.CreateContext: the failure of `new` is not distinguished from that of CreateIoCompletionPort, and the context that is freed again in that case is never allocated.
- IocpHandler.IocpHandler.AfterWait: the wait for the workers ends at any time, as if its 1000 ms were over, so closing the thread handles is left out.
- IocpDrain.MustReturnExactly: fairness is not modelled; that the workers return means that they take at most 19 steps each and can get stuck only when all of them have returned.
- EventQueue.StrandingLimit: its witness for consumers starts from an empty deque, as earlier calls leave it, although the constructor makes a full one; those earlier calls are not part of the run.
- Heap objects of the handler (contexts, connection objects) are values in maps from addresses, because the class `IocpHandler` shares them with the transition system; aliasing shows as equal addresses.
- Several threads inside `std::map` and `std::list` at once, and memory-model effects on the flags: every access is one atomic step.
- `TcpClient`, `TcpConnection`, `SocketFactory`, `TcpConnector`, `main.cpp`: formatting of addresses, callback binding, thin wrappers, dead code.
- The named constructor of the queue, `empty`, `size`, `name`, the destructor: easy members.
- BlockingQueue.BlockingQueue.TryPushBackXp: a wait that returns neither a timeout, nor a signal, nor a failure is not modelled; the events are never abandoned.
- CondVarQueue.InfiniteNeverGivesUp: fairness is not modelled, so nothing is said about a call that others overtake for ever; in runs without spurious returns the termination theorem bounds that.
- SendBuffer.Sender.Complete: one sender alone; the connection between a send and the receive on the same context is not modelled.
- ByteCodec.Bton: the read of one char beyond the buffer of `ntob` is a longer buffer here, not undefined behaviour.
- Stopwatch.Stopwatch.Readable: integers are unbounded, and the elapsed time is a real number that is not negative; the overflow of the month constant, of `long` and of the 32-character buffer is left out, as is reading the clock.
- Logging, `getErrorString`, allocation failures.
