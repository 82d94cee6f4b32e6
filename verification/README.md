# A verified model of the multi-reactor TCP library

The library runs one event loop per thread. A base loop accepts connections, a round-robin pool of sub-loops
serves them, and the ownership of a connection travels between loops inside queued functors. This project
models that machinery in Dafny and proves what it has to guarantee: no poller ever points at a dead connection,
no wakeup is lost, no byte of output is lost or reordered, and the buffer is a byte queue.

Each layer has two faces. A value (`Vec`, `Poller`, `Loop`, `World`, `Server`) with the operations as functions
carries the theorems about all runs. A class with the fields of the C++ class (`Buffer`, `Channel`, `EpollPoller`,
`EventLoop`, `TcpConnection`, `EventLoopThreadPool`, `TcpServer`) changes in place, and every method is proved to
take the object's value through exactly that function.

| file | what it holds |
|---|---|
| `Common.dfy` | bytes, kernel answers, the two readings of the source, sequence facts |
| `Buffer.dfy` | the two-cursor vector, compaction, growth, scatter read |
| `Poller.dfy` | interest mask, `index_`, `channels_` and the kernel set |
| `EventLoop.dfy` | functor queue and wakeup protocol as a machine of atomic steps, then the class |
| `Connection.dfy` | one connection over all runs: output, half-close, closing, draining, high water |
| `ConnectionEffects.dfy` | what calls and reports bring about on a connection: payloads taken, functors queued, callbacks run, closes |
| `TcpConnection.dfy` | the connection as an object over `Channel`, `EpollPoller` and `Buffer` |
| `ThreadPool.dfy`, `Names.dfy` | round robin, connection names |
| `Server.dfy` | the whole server: any number of loops, all threads interleaved |
| `ServerInvariant.dfy`, `ServerSafety.dfy` | the invariant, its preservation by every step, and when a late step breaks it |
| `ServerTheorems.dfy`, `ServerSends.dfy`, `ServerOrder.dfy`, `ServerHalfClose.dfy` | what follows for every reachable state |
| `ServerCalls.dfy`, `ServerReports.dfy` | what calls and reported events bring about in the running server |
| `ServerRaces.dfy` | two runs, from the start, in which a late step does its damage |
| `TcpServer.dfy` | the server object: map, identifier counter, hand-over between loops |

## Where the code disagrees with itself

In some places a statement does something its neighbours and comments do not expect. The parameter
`Form` selects the reading: `AsWritten` is the statement as it stands, `AsIntended` is what the surrounding code
assumes. For the statement as it stands the project gives the exact condition under which it is right and an
input on which it is not; the full guarantee is then proved for the intended reading.

- `Buffer.h:77` compares the write cursor with the length. `Buffers.AppendRefines` says exactly when the copy
  that follows stays inside the vector, `Buffers.AppendOverrunsAsWritten` is an overrun: a first kilobyte, then
  ten bytes.
- `Buffer.cpp:16` gives the first block of the scatter read the write cursor as its length.
  `Buffers.ReadFdFaithfulIff` says exactly which delivery lengths are appended faithfully;
  `Buffers.FreshReadAsWritten` shows that a new buffer can take eight bytes and no more.
- `TcpConnection.cpp:222-226` buffers the unsent rest only inside the high-water branch, although the comment at
  lines 206-208 speaks of all remaining data. `Connections.StrandedIff` says exactly when bytes are lost;
  `Connections.RestIsCutAsWritten` is a message cut short.
- `TcpConnection.cpp:101` binds the callback member, not the callback, so nothing is called when it runs.
  `Connections.DrainNotifies` states it for both readings.

Four more behaviours are modelled as they are, without a second reading.

- `Channel.cpp:68-88`: a hang-up with priority data, without normal data, that reads an end of file closes the
  connection twice and puts its descriptor back into the kernel set. `Connections.SingleCloseIff` shows that this
  is the only such report; run theorems take reports without it (`SingleClose`).
- `Eventloop.cpp:87` forgets a `quit` made before the loop was entered: `EventLoops.QuitCountsIff`.
- `send` and `shutdown` called from another thread test the state first and push a functor or store the new state
  later (`TcpConnection.cpp:150-161`, `TcpConnection.cpp:258-263`), and the functors are bound to a raw `this`. In
  the server model these are separate steps of the calling thread, and any step of any other thread may come
  between them. `ServerSafety.InTimeIff` gives the exact condition under which the later step is safe: a push while
  the connection is still in the server's map, a store while it is not yet disconnected. `ServerRaces` has a run for
  each failure: `LatePushMeetsDead` ends with a functor whose object is gone, `LateStoreDangles` with a poller that
  holds a dead connection. The results about reachable states of the server are about runs in which begun calls go
  on in time (`Servers.InTime`); by `ServerRaces.SoundIffInTime` these are exactly the runs that keep the invariant.
- A half-close can overtake a payload another thread has queued: the payload is then refused by the kernel and
  dropped without any fault of the peer. `ServerHalfClose.PayloadOvertaken` is such a run of the server,
  `ServerHalfClose.PayloadDroppedIff` says exactly when a queued payload is dropped.

## The outside world

System calls are replaced by their answers. `write` takes any prefix or fails in one of three ways (`Answer`);
`readv` delivers any number of bytes that fits its blocks; `epoll_wait` may report any registered descriptors
with any event set; `accept` returns any descriptor no living connection uses; `epoll_ctl` fails when it adds a
present or touches an absent descriptor. What the application does inside a callback is any list of `send` and
`shutdown` calls, each with its kernel answer. The server steps cover every interleaving of the loops' threads with
other threads that call `send`, `shutdown` and `quit`, and with an application that keeps or drops its shared pointers;
a thread holds a pointer to the connection while it is inside a call on it. One fact about the kernel is a hypothesis
of the half-close theorems and of `PayloadDroppedIff`, and of nothing else: `write` on a socket already shut down for writing fails with EPIPE
(`Refusing`). `Connections.HalfCloseCleanIff` and `ServerHalfClose.ServerCleanIff` do without it and say exactly what
is needed of the answers.

## Model

| member | source | states |
|---|---|---|
| Buffers.MakeSpaceFacts | Buffer.h:117-137 | Growth and the overlapping left move both keep the unread bytes and the cursor order, leave at least the room asked for, and never shrink the vector |
| Buffers.MakeSpaceSize | Buffer.h:117-137 | The vector grows exactly when prefix, unread bytes and new bytes do not fit together, and then to no more than unread + 2 len + 7 |
| Buffers.AppendRefines | Buffer.h:75-89 | An append stays in the vector if and only if the guard is the intended one, or the length exceeds the write cursor, or there was room; it is then concatenation |
| Buffers.AppendOverrunsAsWritten | Buffer.h:75-89 | A kilobyte followed by ten bytes overruns the vector under the written guard, not under the intended one |
| Buffers.RetrieveDropsPrefix | Buffer.h:46-62 | `retrieve` removes a prefix, everything when asked for at least what is there |
| Buffers.ReadFdAppends | Buffer.cpp:9-39 | In either reading a delivery of a sound length, from any cursor position, is appended exactly and in order; it is never longer than first block plus 65536 bytes, nor than the first block when one block is used. Every length is sound as intended |
| Buffers.ReadFdFaithfulIff | Buffer.cpp:13-37 | A delivery length is appended faithfully for all contents if and only if it is sound: always with the intended block length; with the written one when it fits both cursor and room, or when the append behind it compensates |
| Buffers.FreshReadAsWritten | Buffer.cpp:13-37 | On a new buffer the written block length is right for eight bytes and no more |
| Buffers.StepConserves | Buffer.h:46-89 | In either reading, for each append, read and retrieval that meets the condition of AppendRefines or ReadFdFaithfulIff: what is taken followed by what remains is what was there followed by what was added |
| Buffers.RunConserves | Buffer.h:25-89 | The same over any run of such operations: the buffer is a byte queue |
| Buffers.IntendedSound | Buffer.h:75-89 | As intended, every operation of every run meets the condition, whatever is appended, read or retrieved |
| Buffers.DeliveredLength | Buffer.cpp:13-23 | As intended, a read takes all that waits in the socket up to the vector's room plus 65536 bytes, or up to the room alone when that is at least 65536 |
| Buffers.MemoryBound | Buffer.h:117-137 | In either reading, over any such run whose unread length peaks at P the vector never exceeds the larger of its first size and 2P + 7 |
| Buffers.Buffer.constructor | Buffer.h:19-23 | A new buffer is empty with both cursors at 8 |
| Buffers.Buffer.MoveLeft | Buffer.h:132-133 | The cell-by-cell move to the left copies the source bytes unharmed although both ranges overlap |
| Buffers.Buffer.MakeSpaceFor | Buffer.h:117-137 | The object grows or compacts to the value of which MakeSpaceFacts and MakeSpaceSize speak |
| Buffers.Buffer.EnsureWriteableBytes | Buffer.h:75-81 | Makes space exactly when the guard of the chosen reading asks for it, otherwise leaves the object as it is |
| Buffers.Buffer.AppendBytes | Buffer.h:83-89 | Succeeds exactly under the condition of AppendRefines and then appends exactly the bytes |
| Buffers.Buffer.RetrieveBytes | Buffer.h:46-57 | Leaves the unread bytes without their first len |
| Buffers.Buffer.RetrieveAsString | Buffer.h:64-73 | Returns the oldest unread bytes and removes them; asked for more than is readable it returns stale bytes or leaves the vector |
| Buffers.Buffer.ReadFromFd | Buffer.cpp:9-39 | The delivered bytes end up where the scatter read of the chosen reading puts them, or the read leaves the vector; an error changes nothing |
| Buffers.Buffer.WriteToFd | Buffer.cpp:41-49 | Hands the kernel a prefix of the unread bytes and leaves the buffer alone |
| Buffers.Replay | Buffer.h:25-89 | The object itself, in either reading, run on any list of such operations, conserves bytes |
| Pollers.UpdateKeeps | EpollPoller.cpp:74-102 | A change of interest keeps the three records of a channel in agreement, touches no other descriptor, fails no `epoll_ctl`, and leaves the channel added exactly when it was not added before or still wants something |
| Pollers.RemoveKeeps | EpollPoller.cpp:105-117 | Removal leaves no trace of the descriptor in map and kernel and touches no other |
| Pollers.RegisteredFrame | EpollPoller.cpp:74-117 | A change made through one channel does not disturb another with a different descriptor |
| Pollers.RegistrationsAgree | EpollPoller.cpp:74-157 | After any sequence of enable, disable and remove calls on channels with distinct descriptors: kernel entry iff added and with that mask, map entry iff added or deleted, deleted implies empty mask, no `epoll_ctl` failed |
| Pollers.Channel.EnableReading | Channel.h:67-71 | Adds EPOLLIN and EPOLLPRI to the interest; a channel whose records agree is then in the kernel set under its own descriptor with both in its mask, and its records agree again |
| Pollers.Channel.DisableReading | Channel.h:72-76 | Takes EPOLLIN and EPOLLPRI out of the interest and out of any kernel entry of the descriptor; the entry stays exactly when other interest is left or there was none yet |
| Pollers.Channel.EnableWriting | Channel.h:77-81 | The same for EPOLLOUT, added |
| Pollers.Channel.DisableWriting | Channel.h:82-86 | The same for EPOLLOUT, taken out |
| Pollers.Channel.DisableAll | Channel.h:87-91 | Empties the interest; a channel in the kernel set whose records agree leaves it and stays in the poller's map as deleted |
| Pollers.Channel.Remove | Channel.cpp:40-44 | Takes channel and poller through removal |
| Pollers.EpollPoller.UpdateChannel | EpollPoller.cpp:74-102 | Add, modify or delete by index and mask, exactly as the value model |
| Pollers.EpollPoller.RemoveChannel | EpollPoller.cpp:105-117 | Erases, deletes from the kernel only when added, and marks the channel new |
| Pollers.EpollPoller.Control | EpollPoller.cpp:135-157 | Changes the kernel set, or fails and changes nothing |
| Pollers.EpollPoller.Poll | EpollPoller.cpp:36-67 | The active list is the reported channels in order, each with its own events, all of them in the kernel set; empty after a timeout or an error; a full event array doubles |
| EventLoops.NextKeepsSound | Eventloop.cpp:84-202 | Every atomic step of the loop's thread or of another thread keeps the invariant of queue, batch and eventfd |
| EventLoops.NoLostWakeup | Eventloop.cpp:90-171 | In every interleaving, outside dispatching a waiting functor means the eventfd is readable or about to be written; a loop blocked in poll with nobody writing has no functor waiting and was not told to quit |
| EventLoops.FunctorsConserved | Eventloop.cpp:147-202 | Executed functors, rest of the batch and queue are together all functors ever queued, in order |
| EventLoops.QuitCountsIff | Eventloop.cpp:84-122 | `quit` has effect if and only if no entry into `loop()` follows it |
| EventLoops.CounterCountsWrites | Eventloop.cpp:73-81 | In every interleaving the eventfd's counter is exactly the number of writes since it was last read; read and not written since, it does not wake the loop again |
| EventLoops.EarlyQuitIsLost | Eventloop.cpp:86-90 | A `quit` before `loop()` leaves the loop polling |
| EventLoops.BatchIsFixed | Eventloop.cpp:188-202 | Whatever is queued meanwhile by anyone, a batch executes only the functors it started with, in order |
| EventLoops.BatchLength | Eventloop.cpp:188-202 | A batch executes exactly as many functors as waited at the swap, so requeueing cannot delay the next poll |
| EventLoops.TurnsConserve | Eventloop.cpp:90-107 | Over any number of turns all that came in is executed in order, except what arrived during the last batch |
| EventLoops.QueueByKeeps | Eventloop.cpp:147-161 | A push with its wakeup appends one functor and keeps the wakeup invariant |
| EventLoops.EventLoop.QueueInLoop | Eventloop.cpp:147-161 | Appends the functor; writes the eventfd exactly when called from another thread or during a batch |
| EventLoops.EventLoop.RunInLoop | Eventloop.cpp:134-144 | On the own thread the caller runs it at once, otherwise it is queued with a wakeup |
| EventLoops.EventLoop.Quit | Eventloop.cpp:114-122 | Sets the flag and wakes the loop when called from another thread |
| EventLoops.EventLoop.HandleRead | Eventloop.cpp:73-81 | Reads the eventfd empty, leaves the queue alone and keeps the invariant |
| EventLoops.EventLoop.DoPendingFunctors | Eventloop.cpp:188-202 | Executes exactly the functors pending at the swap; what arrives meanwhile waits, in order, with the eventfd readable |
| EventLoops.EventLoop.Loop | Eventloop.cpp:84-111 | Runs turns up to and including the first in which `quit` is called, by a handler or by another thread, forgetting earlier calls; each turn executes all that arrived up to its swap; after a turn in which nothing was queued behind the read, the eventfd is silent |
| Connections.SendInLoopKeeps | TcpConnection.cpp:166-229 | A send, with any answer of `write`, keeps output books, level history, write interest and registration, and queues only callbacks of its own connection |
| Connections.HandleWriteKeeps | TcpConnection.cpp:81-119 | The same for a write event, which never changes the state or the list of payloads |
| Connections.HandleCloseKeeps | TcpConnection.cpp:121-130 | Closing a live connection takes it out of the kernel set, queues nothing, and whatever the callback calls has no effect |
| Connections.SecondCloseReArms | TcpConnection.cpp:121-130 | A second close of the same connection puts its descriptor back into the kernel set |
| Connections.SingleCloseIff | Channel.cpp:65-96 | Exactly the reports with hang-up, priority data, no normal data and an end of file close twice and leave a closed connection in the kernel set |
| Connections.HandleEventKeeps | Channel.cpp:65-96 | Any other report, dispatched to close, read and write in that order, keeps the connection's invariant |
| Connections.EstablishKeeps | TcpConnection.cpp:232-241 | From a fresh connection: in the kernel set with EPOLLIN and EPOLLPRI, up, and still so after whatever the connection callback calls |
| Connections.DestroyUnregisters | TcpConnection.cpp:244-253 | In whatever state it is called, the descriptor leaves map and kernel, and the down callback runs only if the connection was still connected |
| Connections.RunKeeps | TcpConnection.cpp:81-274 | The invariant of a connection holds after every run of calls, functors and reports |
| Connections.OutputConserved | TcpConnection.cpp:81-119 | After every run bytes written followed by bytes buffered are all accepted payloads in `sendInLoop` order, always in the intended reading, otherwise if and only if none was stranded |
| Connections.StrandedIff | TcpConnection.cpp:206-228 | The written code loses bytes exactly when a rest remains, no fault occurred and the high-water test fails; it loses the whole rest, and exactly then conservation breaks |
| Connections.RestIsCutAsWritten | TcpConnection.cpp:214-226 | Without a high-water callback a five-byte message of which two are taken is cut |
| Connections.WriteInterestExact | TcpConnection.cpp:84-98 | After every run, while up: bytes wait iff the channel asks for writability iff the kernel entry of the descriptor has EPOLLOUT; besides, that entry has EPOLLIN and EPOLLPRI and nothing else |
| Connections.HalfCloseGraceful | TcpConnection.cpp:256-274 | For every run, with sends from any thread, on a kernel that refuses to write behind a half-close: no byte is written after one, and a half-close of a connection still up found the buffer empty and every accepted byte written |
| Connections.HalfCloseCleanIff | TcpConnection.cpp:166-228 | Whatever the kernel answers, half-closes stay clean if and only if no send functor that finds the connection half-closed gets a byte written or buffered |
| Connections.PayloadDroppedIff | TcpConnection.cpp:173-204 | After every run, a send functor drops its payload if and only if the connection is closed or half-closed or a direct write finds the peer gone; otherwise the payload is the next one logged |
| Connections.HalfCloseOvertakesRemoteSend | TcpConnection.cpp:88-107 | From any open connection with bytes waiting: `shutdown`, the write event that drains and half-closes, then a send functor that is refused; its payload is dropped although nothing failed |
| Connections.ClosingIsFinal | TcpConnection.cpp:121-130 | Over every run: disconnected is absorbing, channel, poller, queue and stream then stay as they are, down and close callbacks have run once when closed and not at all before, disconnecting never returns to connected |
| Connections.LateStoreIff | TcpConnection.cpp:256-265 | The delayed store of a remote `shutdown` keeps the invariant if and only if the connection was not closed in between |
| Connections.LateStoreReArms | TcpConnection.cpp:256-265 | Otherwise a send functor that runs puts the closed descriptor back into the kernel set |
| Connections.HandleWriteProgress | TcpConnection.cpp:81-109 | Each successful write event makes the buffer strictly shorter without losing a byte |
| Connections.DrainCompletes | TcpConnection.cpp:81-109 | After as many successful write events as there were unsent bytes everything is on the wire, EPOLLOUT is gone from channel and kernel, and a disconnecting connection is half-closed behind its last byte |
| Connections.DrainNotifies | TcpConnection.cpp:97-103 | Emptying the buffer queues one owning functor; it reaches the callback in the intended reading only |
| Connections.HighWaterNotifications | TcpConnection.cpp:209-221 | Notifications queued over a run are as many as the upward crossings of the mark by the buffered length, with a level below the mark between any two |
| Connections.CrossingsCount | TcpConnection.cpp:214-216 | The running count of crossings is the number of positions where the history crosses the mark upward |
| Connections.HandleEventLogs | Channel.cpp:65-96 | Dispatching adds no payload on behalf of another thread |
| ConnectionEffects.SendAccepted | TcpConnection.cpp:148-155 | A `send` on the own loop of a connected connection appends exactly its payload to what the connection has taken, unless a direct write finds the peer gone; then it changes nothing |
| ConnectionEffects.OwnSendsLogged | TcpConnection.cpp:148-155 | Over every run the payloads taken on behalf of the own loop are exactly those of the application's calls made while connected, in the order of the calls, less the faulted ones |
| ConnectionEffects.ShutdownQueues | TcpConnection.cpp:256-265 | `shutdown` on a connected connection leaves exactly one new functor, the half-close of this connection; on any other it does nothing |
| ConnectionEffects.AppCallsShutdown | TcpConnection.cpp:256-265 | A callback's calls leave a connected connection disconnecting if and only if `shutdown` is among them, and then with exactly one half-close queued however often it was called |
| ConnectionEffects.SendQueues | TcpConnection.cpp:182-221 | A payload written whole at once queues the write-complete functor if that callback is set; a rest that lifts the buffered length over the mark queues the high-water functor carrying the length the call leaves in the buffer; nothing else is queued |
| ConnectionEffects.ClosesIff | Channel.cpp:65-96 | A report closes a connection that is up if and only if it is a hang-up without input, or input that turns out to be the end of file; the close callback has then run once and the descriptor is out of the kernel set |
| ConnectionEffects.ReportRuns | Channel.cpp:82-95 | Any other report runs the message callback exactly when it brings bytes, and then the write handler exactly when the socket is writable |
| ConnectionEffects.ReportTakesEffect | Channel.cpp:65-96 | Whatever a report brings, the payloads and the `shutdown` of its message callback take effect, and a connection it closes takes none |
| ConnectionEffects.EstablishTakesEffect | TcpConnection.cpp:232-241 | The calls of the connection callback take effect: its payloads are taken and the connection is disconnecting exactly when it called `shutdown` |
| ConnectionEffects.ApplyPromises | TcpConnection.cpp:256-274 | No act of a connection leaves a half-close due without having queued the functor that issues it |
| ConnectionEffects.ShutdownFunctor | TcpConnection.cpp:267-274 | That functor half-closes right behind the last byte when nothing waits, and otherwise leaves it to the write event that drains the buffer |
| TcpConnections.TcpConnection.constructor | TcpConnection.cpp:22-49 | A new connection is connecting, unregistered, with empty output |
| TcpConnections.TcpConnection.SendInLoop | TcpConnection.cpp:166-229 | The object, with its channel, poller and buffer, ends in exactly the state of the step whose conservation and interest theorems are above, for every answer of `write` |
| TcpConnections.TcpConnection.HandleWrite | TcpConnection.cpp:81-119 | A write event drains the object's buffer into its stream, drops write interest when empty, queues the functor and half-closes when disconnecting, exactly as the step whose run theorems are above |
| TcpConnections.TcpConnection.HandleRead | TcpConnection.cpp:58-79 | What `readFd` delivers is appended to the input buffer and the message callback runs; an empty delivery closes, an error changes nothing; output and interest as in the step of the same name |
| TcpConnections.TcpConnection.HandleClose | TcpConnection.cpp:121-130 | The object is disconnected and disarmed before the callback runs, so nothing the callback calls changes it; the close callback comes last |
| TcpConnections.TcpConnection.HandleEvent | Channel.cpp:65-96 | Runs close, read and write in the order of the file, each seeing what the one before left behind |
| TcpConnections.TcpConnection.Send | TcpConnection.cpp:148-164 | While connected, sends at once on the own loop and queues exactly the payload from another thread; does nothing in any other state |
| TcpConnections.TcpConnection.Shutdown | TcpConnection.cpp:256-265 | While connected moves to disconnecting and queues exactly one half-close functor, otherwise does nothing |
| TcpConnections.TcpConnection.ShutdownInLoop | TcpConnection.cpp:267-274 | Half-closes at the current end of the stream unless bytes are still waiting |
| TcpConnections.TcpConnection.ConnectEstablished | TcpConnection.cpp:232-241 | Registers the object's channel for reading, then runs the callback, exactly as the step proved to bring a fresh connection up |
| TcpConnections.TcpConnection.ConnectDestroyed | TcpConnection.cpp:244-253 | Closes the object first if it is still connected, and always takes its channel out of its poller |
| ThreadPools.AdvancesIsMod | EventLoopThreadPool.cpp:41-50 | The counter that is incremented and wrapped is the number of calls modulo the number of loops |
| ThreadPools.ChosenIsLoopOf | EventLoopThreadPool.cpp:41-50 | The loop the counter picks is loop k mod n of the pool, the base loop when the pool is empty |
| ThreadPools.LoadFormula | EventLoopThreadPool.cpp:41-50 | After k connections a loop has served k div n, one more for the first k mod n loops |
| ThreadPools.LoadsBalanced | EventLoopThreadPool.cpp:41-50 | Loads differ by at most one after any number of connections |
| ThreadPools.EventLoopThreadPool.GetNextLoop | EventLoopThreadPool.cpp:41-50 | The k-th call returns loop k mod n of the pool, or the base loop of an empty pool |
| Names.DecimalInjective | TcpServer.cpp:83-86 | Printing of identifiers is injective |
| Names.DecimalIsNumeral | TcpServer.cpp:84 | What is printed is the decimal numeral of the identifier, in digits only, without leading zeros |
| Names.NameReads | TcpServer.cpp:83-86 | For an address of at most 51 characters a name reads as the server's name, a hyphen, the address, a hash and the numeral of the identifier |
| Names.NotTruncated | TcpServer.cpp:83-84 | The 64-byte buffer holds the whole suffix for an address of at most 51 characters and any `int` identifier |
| Names.NamesDistinctIff | TcpServer.cpp:83-86 | All connection names are distinct if and only if the printed address has at most 51 characters |
| ServerSafety.StepKeeps | TcpServer.cpp:79-134 | Every step of any thread that is in time runs on the right loop, keeps the invariant of the whole server and gives no connection an owner back |
| ServerSafety.PushIff | TcpConnection.cpp:157-161 | A functor pushed by another thread for a call begun earlier keeps the invariant if and only if the connection is still in the map |
| ServerSafety.LatePush | TcpConnection.cpp:157-161 | Otherwise it stands behind the functor that destroys the connection, or concerns one already destroyed |
| ServerSafety.StoreIff | TcpConnection.cpp:258-260 | The store of a `shutdown` begun earlier keeps the invariant if and only if the connection is not yet disconnected |
| ServerSafety.InTimeIff | TcpConnection.cpp:148-164 | The next step of any call begun by another thread keeps the invariant if and only if it is in time |
| ServerRaces.SoundIffInTime | TcpConnection.cpp:256-265 | The invariant holds in every state of a run if and only if every begun call of the run goes on in time |
| ServerRaces.LatePushMeetsDead | TcpConnection.cpp:148-164 | A run from the start, in time but for its last push, that ends with a batch whose next functor concerns a connection without owner |
| ServerRaces.LateStoreDangles | TcpConnection.cpp:256-265 | A run from the start, in time but for the late store and pushes, that ends with a connection without owner in the poller's map and in the kernel set |
| ServerTheorems.StepSafe | TcpServer.cpp:79-134 | Every step in time keeps the invariant together with that of the calls under way: their callers hold the connection, and it has been up |
| ServerInvariants.NewConnectionKeeps | TcpServer.cpp:79-117 | Accepting a connection keeps the invariant, on the base loop and with the functor sent to another loop |
| ServerInvariants.CloseKeeps | TcpServer.cpp:119-134 | A handler that closes its connection, with the hand-over that follows, keeps the invariant on either kind of loop |
| ServerInvariants.RunRemove | TcpServer.cpp:125-134 | Executing a queued removal hands the connection over to exactly one queued destruction and keeps the invariant |
| ServerInvariants.RunDestroy | TcpConnection.cpp:244-253 | Executing a queued destruction takes the channel out of its poller before the last owner can go |
| ServerTheorems.PollersHoldLiveConnections | TcpServer.cpp:102-134 | In every state reached in time, whatever a poller or its kernel set points to is a live connection of that loop under its own descriptor, owned by the map, a removal on the base loop or a destruction on its loop; no `epoll_ctl` has failed |
| ServerTheorems.ActiveChannelsLive | Eventloop.cpp:92-99 | While a loop dispatches, every channel still in its active list is live, up, and registered in poller and kernel |
| ServerTheorems.DispatchingRemovesNothing | Eventloop.cpp:92-106 | While a loop dispatches, no step in time of any thread removes a channel from its poller or the last owner of a registered connection, on the base loop too |
| ServerTheorems.FunctorsFindTheirObject | Eventloop.cpp:188-202 | No functor of a connection is queued behind its destruction; the functor about to run finds its object alive, and registered if bound to a raw pointer |
| ServerTheorems.DeadIsForgotten | TcpServer.cpp:119-134 | A connection without owner is disconnected, unregistered, and concerned by no functor, event or poller |
| ServerTheorems.DeadStaysDead | TcpServer.cpp:119-134 | Over every run it never gets an owner again |
| ServerTheorems.LiveDescriptorsDiffer | TcpServer.cpp:102-104 | Live connections never share a descriptor although descriptors are reused |
| ServerTheorems.ConnectionBooks | TcpConnection.cpp:81-229 | In every state of the whole server reached in time: output conserved, interest exact up to the kernel set of the connection's own loop (EPOLLIN and EPOLLPRI always, EPOLLOUT iff bytes wait, nothing else), half-closes clean exactly unless a send functor spoilt one |
| ServerTheorems.RecordStep | TcpServer.cpp:79-134 | One step in time of any thread moves a connection only forward, and only its own destruction functor takes its channel out of the poller |
| ServerTheorems.ConnectionEvolves | TcpConnection.cpp:121-130 | Over every run in time: disconnected is absorbing and never re-armed, down and close callbacks run exactly once by then and not before |
| ServerTheorems.ServerDrains | TcpConnection.cpp:81-109 | In every state reached in time, as many successful write events as a connection has unsent bytes empty its buffer, disarm EPOLLOUT in channel and kernel and half-close it if disconnecting |
| ServerTheorems.WriteEvent | Channel.cpp:89-95 | A reported write event of the server is one step of that drain and closes nothing |
| ServerTheorems.ServerHighWater | TcpConnection.cpp:209-221 | In every state reached in time the notifications given are as many as the upward crossings of the mark in the connection's history |
| ServerTheorems.MapSound | TcpServer.cpp:79-104 | The map holds exactly the connections whose removal has not been executed, each under its own name; the next name is not in it |
| ServerTheorems.RemovalErasesOwn | TcpServer.cpp:125-129 | Erasing one connection's name erases no other connection |
| ServerTheorems.FairAssignment | TcpServer.cpp:81-82 | The k-th connection, assigned by the advancing counter, lives on loop k mod n of the pool for good |
| ServerTheorems.LoopsAreWoken | Eventloop.cpp:90-202 | In every reachable state a loop blocked on a silent eventfd has nothing queued and was not told to quit, and every queue is conserved |
| ServerSends.StepQuiet | TcpConnection.cpp:148-164 | No step but a push of another thread queues a send functor, and none but the execution of a batch's head executes one |
| ServerSends.StepPushes | TcpConnection.cpp:157-161 | That push appends exactly the begun payload to the queue of the connection's loop |
| ServerOrder.ExecutedStep | Eventloop.cpp:188-202 | A step of the server executes the head of one batch or nothing |
| ServerOrder.LogStep | TcpConnection.cpp:148-164 | The payloads a connection has taken from another thread grow only by the payload of the send functor just executed |
| ServerOrder.SentRun | TcpConnection.cpp:148-164 | Over every run in time queued and begun payloads of a thread grow by exactly the payloads of its accepted calls |
| ServerOrder.SenderOrder | TcpConnection.cpp:148-164 | What a thread has queued for a connection followed by what it has begun to send is exactly the payloads of its calls that found the connection connected, in the order of the calls; the payloads the connection has taken are, in order, among them; wire followed by buffer is exactly the payloads taken |
| ServerHalfClose.ServerHalfCloseGraceful | TcpConnection.cpp:256-274 | In every state of the server reached in time, with sends from any threads, on a kernel that refuses to write behind a half-close: every half-close followed the last byte, and one of a connection still up found everything written |
| ServerHalfClose.ServerCleanIff | TcpConnection.cpp:166-228 | Whatever the kernel answers, a connection's half-closes are clean if and only if no executed send functor got a byte written or buffered behind one |
| ServerHalfClose.PayloadDroppedIff | TcpConnection.cpp:173-204 | The functor of a payload queued by another thread drops it if and only if the connection is closed or half-closed by then or a direct write finds the peer gone |
| ServerHalfClose.PayloadOvertaken | TcpConnection.cpp:88-107 | A run in which a payload accepted and queued before `shutdown` is dropped because the write event half-closes ahead of its functor |
| ServerCalls.StepPerforms | TcpConnection.cpp:58-274 | A connection in the running server goes through exactly the acts of a connection alone: calls, functors and reports have on it, on its poller and on its loop's queue the effect proved above |
| ServerCalls.StepIdle | TcpServer.cpp:79-134 | Nothing else but its establishment, its destruction and a remote store touches its record |
| ServerCalls.OwnSendsReachLog | TcpConnection.cpp:148-155 | In every state reached in time, the payloads a connection has taken on behalf of its own loop are exactly those the application sent there while it was connected, in order, less the faulted ones |
| ServerCalls.TodoStays | Eventloop.cpp:147-202 | A functor stays on its loop's queue until it is executed, whatever any thread does |
| ServerCalls.ShutdownIsOnItsWay | TcpConnection.cpp:256-274 | In every state reached in time, a disconnecting connection with an empty buffer has been half-closed, or its half-close waits on its own loop, or a thread is about to push it |
| ServerCalls.ShutdownRuns | TcpConnection.cpp:267-274 | Executed with an empty buffer, that functor half-closes right behind the last byte written |
| ServerCalls.RemoteShutdownSteps | TcpConnection.cpp:256-265 | A `shutdown` from another thread that finds the connection connected is begun; its store makes the connection disconnecting; its push puts the half-close at the end of the loop's queue |
| ServerReports.EventsConserved | Eventloop.cpp:92-99 | Over every run each event reported to a loop is dispatched exactly once, in the order of the reports |
| ServerReports.CloseStartsRemoval | TcpServer.cpp:119-134 | A dispatched report closes its connection iff it is a hang-up without input or an end of file; its removal is then under way, on the base loop at once, from any other loop queued there |
| ServerReports.AcceptEnters | TcpServer.cpp:79-117 | An accepted descriptor becomes a connection in the map on the loop whose turn it is, with the callbacks and mark set for it; up and registered for input on the base loop, its establishment queued on any other |
| ServerReports.EstablishRuns | TcpConnection.cpp:232-241 | When that functor runs the connection comes up, registered for EPOLLIN and EPOLLPRI |
| ServerReports.WakeDrains | Eventloop.cpp:73-81 | The wakeup event reads its loop's eventfd empty and changes nothing else |
| ServerReports.QuitStops | Eventloop.cpp:84-122 | Once `quit` has been called on a loop, over every run it is not forgotten, the loop is not left blocked on a silent eventfd, and it stops when it next checks |
| TcpServers.TcpServer.NewConnection | TcpServer.cpp:79-117 | A new connection object enters the map under a name that was not in it, on the round-robin loop; on the base loop it is established at once with what it queues on the loop, otherwise the functor is queued there with a wakeup |
| TcpServers.TcpServer.EstablishHere | TcpServer.cpp:115 | On the base loop the object is established and the functors it queues reach the loop's queue in order |
| TcpServers.TcpServer.RemoveConnection | TcpServer.cpp:119-124 | On the base loop erases at once, elsewhere only queues the removal on the base loop |
| TcpServers.TcpServer.RemoveConnectionInLoop | TcpServer.cpp:125-134 | Erases the connection's own entry and no other and queues its destruction on its loop, never running it directly |

## Left out

- System calls and the classes around them (`Socket`, `Acceptor`, `InetAddress`): their answers are inputs.
- `Logger`, `Timestamp`, `CurrentThread`, the example programs: nothing to prove.
- `Thread` and `EventLoopThread`: starting threads; the loops are taken to exist.
- `TcpServer::~TcpServer` and `EventLoop::~EventLoop`: teardown runs destruction directly; the server results are about a live server.
- `EventLoopThreadPool::start` and `getAllLoops`, `TcpServer::start` and the setters: they only add easy members.
- Calls of `queueInLoop` on the own thread before `loop()` runs: they wait for the poll timeout, not for a wakeup.
- `handleError` and the undefined `send(const void*, int)`: they change nothing that is modelled.
- `tie_`: with the theorem that a dispatched channel's connection is alive, the liveness test in `handleEvent` always succeeds.
- The raw `c_str()` at `TcpConnection.cpp:157-161`: a send from another thread carries its bytes by value, as the callers need.
- `inputBuffer_`: the object appends what arrives; what the message callback takes out of it is not modelled.
- Unset callbacks: the connection, message and close callbacks are taken to be set; write-complete and high-water callbacks may be missing.
- The listening channel and the wakeup channel are not entries of the pollers' maps; their events appear as `Accept` and `Wake`.
- Memory order and preemption inside a handler: in the server model a handler or functor is one step; the finer steps of a push, of its wakeup and of the swap are in the machine of `EventLoop.dfy`.
- Event masks are finite sets of the five events the code tests, not bit patterns.
- Servers.Next: the connection counter stays within `int`, and reports that close twice are excluded, both as conditions of the steps.
- ServerTheorems.PollersHoldLiveConnections: for runs in which begun calls of other threads go on in time, because `ServerRaces.LateStoreDangles` shows it false otherwise.
- ServerTheorems.ActiveChannelsLive: for runs in which begun calls of other threads go on in time, on which its invariant rests.
- ServerTheorems.DispatchingRemovesNothing: for runs in which begun calls of other threads go on in time, on which its invariant rests.
- ServerTheorems.FunctorsFindTheirObject: for runs in which begun calls of other threads go on in time, because `ServerRaces.LatePushMeetsDead` shows it false otherwise.
- ServerTheorems.DeadIsForgotten: for runs in which begun calls of other threads go on in time, because a late push concerns a dead connection.
- ServerTheorems.ConnectionBooks: for runs in which begun calls of other threads go on in time, because a late store revives a closed connection whose channel is not registered.
- ServerTheorems.ConnectionEvolves: for runs in which begun calls of other threads go on in time, because a late store revives a closed connection.
- ServerHalfClose.ServerHalfCloseGraceful: on a kernel that answers EPIPE behind a half-close; `ServerCleanIff` is without that.
- TcpConnections.TcpConnection.Shutdown: runs without interruption; the interleaving of its test and store with other threads is in `Servers`.
- EventLoops.EventLoop.RunInLoop: on the own thread the functor is handed back to the caller, who executes it.
- TcpConnections.TcpConnection.SendInLoop: its output buffer has the intended guard of `Buffer.h:77`; the written guard is treated in `Buffers` alone.
- EventLoops.EventLoop.Loop: within a turn the eventfd is read before the other handlers run, `quit` comes after them, and events and callers are given as a list of turns.
- Pollers.EpollPoller.Control: `LOG_FATAL` ends the program after a failed add or modify; the model counts the failure and goes on, and the theorems show that it does not occur.
