# A verified model of the windz reactor library

windz is a C++ network library built around one event loop per thread. This project models the state
machines behind its system calls and proves what they promise. The kernel, the clock, the peers, user
callbacks and the other threads are arbitrary: they appear as nondeterministic choices, as parameters, or as
steps that may be taken at any moment.

| file | module | what it models |
|---|---|---|
| `EventLoop.dfy` | `EventLoops` | cross-thread functor hand-off: push, eventfd write, poll, dispatch, timers, snapshot, calls |
| `BlockingQueue.dfy` | `BlockingQueues` | the bounded queue as a monitor with two condition variables and the WakeUp/Restore mode |
| `ThreadPool.dfy` | `ThreadPools` | worker loops, `AddTask` from anywhere, `Start` and `Stop`, on the blocking queue |
| `Channel.dfy` | `Channels` | interest mask, handlers and the order of one dispatch |
| `Buffer.dfy` | `Buffers` | the byte buffer with headroom, overlapping moves and the two-segment read |
| `TcpConnection.dfy` | `TcpConnections` | output path and close protocol of one connection |
| `TcpServer.dfy` | `TcpServers` | accept loop and I/O loops: establishing, listing, removing and destroying connections |
| `Timers.dfy` | `Timers` | the timer heap, the expiry pass with callbacks that add and cancel timers, the poll timeout |
| `LogStream.dfy` | `LogStreams` | integer formatting in place, and the fixed buffer |
| `AsyncLogging.dfy` | `AsyncLoggings` | double buffering, ownership of the recycled buffers, bulk drop |
| `Connector.dfy` | `Connectors` | connection attempts, retries, backoff, socket ownership |
| `Config.dfy` | `Configs` | the line parser, the configuration file grammar, the getters |
| `Option.dfy` | `Options` | a value that may be absent, shared by the others |

The shape is the same throughout. A component's state is a datatype, and each stretch of code that runs
without interruption is a function on it. A run is any sequence of enabled steps, and the main results hold for
all runs. Beside that stands a class with the source's fields, whose methods have the source's branches and
loops; each method is proved to do to the object what the function does to its abstract state (`View`), or to
take only steps of the machine.

Where the code does not keep an obvious promise, the project says exactly when it does:

* A functor that the loop's own thread queues before `Loop()` gets no wake-up. `NoFunctorStranded` is therefore
  an equivalence, and `PushBeforeLoopStrands` is the case it shuts out.
* `ForceClose` sets the state its own functor tests, so the functor does nothing (`ForceCloseOnlyDrains`);
  `ForceCloseAfter` does close (`ForceCloseTimerCloses`).
* A `Send` from another thread can be overtaken by SHUT_WR. `ShutdownCanBeOvertaken` says for which calls of
  `Shutdown` that can happen, `ShutdownOvertakesQueuedSend` when it still can once SHUT_WR is issued, and
  `OvertakingRun` is a run.
* A callback that adds a timer due strictly before the running one makes the pass pop, or lower, the wrong timer
  (`RunThenPop` and `RunThenRearm`, equivalences). When the running timer repeats this can break the order of the
  heap: `RunThenRearm` says exactly when, and `RearmBreaksOrder` is a run.
* The connector's asserts fail when an attempt begins in the wrong state or before the queued reset has run.
  `FaultsExactly` says which steps fail one, `TimelyIsExact` which discipline avoids it, and `StopThenStartFaults`
  and `LateResetFaults` are two runs that break it.
* `Stop` of the logger can leave lines in memory: `LeftBehindByStop` says, at the call, when and which.
  `StopLosesALine` is a run that loses a line, `StopLosesNothingBeforeTheLock` one in which the thread has already
  passed its test of `running_` and loses none.
* A pool with a bounded queue can come to a standstill with tasks queued, because running tasks may add tasks:
  exactly when every worker is asleep in an `AddTask` (`ServingProgress`; `BoundedPoolStalls` shows it happen).
* In a configuration file the `name: value` notation works exactly for values without an equals sign under names
  without a colon (`ColonIsRead`), and an indented value reads as a repetition of the name exactly when it is not empty, has no
  `#` and does not begin with `[` (`ContinuationIsRepetition`).
* Different sections can share keys: exactly those where one title, followed by a dot, begins the other, up to
  case (`SectionsCollide`; `KeysCollide` says which names meet). Titles without a dot never do (`KeysSeparate`).

## Model

| member | source | states |
|---|---|---|
| `EventLoops.NoFunctorStranded` | windz/net/EventLoop.cpp:51-90 | in every interleaving with foreign pushers, the loop never commits to `epoll_wait` with a functor queued and nobody to wake it, if and only if nothing was queued unannounced before `Loop()` |
| `EventLoops.PushBeforeLoopStrands` | windz/net/EventLoop.cpp:85-90 | the excluded case: a functor queued by the loop's own thread before `Loop()` can be stranded |
| `EventLoops.GuardIsWeakest` | windz/net/EventLoop.cpp:85-90 | among all tests on "in loop thread" and "calling functors", the safe ones are exactly those that write the eventfd whenever `QueueInLoop` does; its test is the weakest safe one |
| `EventLoops.StrandingPass` | windz/net/EventLoop.cpp:85-90 | without the write while functors are being called, a whole pass of the loop strands the functor |
| `EventLoops.RunKeepsInv` | windz/net/EventLoop.cpp:57-66 | the inductive form through all phases: whatever is queued beyond the measured size has a wake-up coming |
| `EventLoops.PostedIsServed` | windz/net/EventLoop.cpp:57-66 | everything posted before the size is read has run, once each and in the order posted, when the loop next tests `quit_` |
| `EventLoops.FunctorsAreConserved` | windz/net/EventLoop.cpp:85-90 | over every schedule: the functors run followed by those queued are exactly those queued by any thread, in order |
| `EventLoops.TurnsAreWhole` | windz/net/EventLoop.cpp:57-66 | over every schedule: each poll is followed by the handlers, then the timers, then the functors, then the test, and each wake-up reported is read |
| `EventLoops.QuitIsRequested` | windz/net/EventLoop.cpp:70-75 | over every schedule: `quit_` is set exactly if somebody, on any thread, has asked the loop to quit |
| `EventLoops.LoopEndsExactlyOnRequest` | windz/net/EventLoop.cpp:57 | over every schedule from the loop's entry: the loop has ended only if it was asked to, and its next test ends it if and only if it was |
| `EventLoops.PassRunsTheSnapshot` | windz/net/EventLoop.cpp:153-163 | exactly as many pops as were measured, of exactly the functors then queued, and `Pop` never finds the queue empty, however many are queued meanwhile |
| `EventLoops.CallsCountDown` | windz/net/EventLoop.cpp:156-160 | pops made and pops to come always add up to the measured size |
| `EventLoops.EventLoop.QueueInLoop` | windz/net/EventLoop.cpp:85-90 | on the loop thread: the functor is queued, and the machine's guard decides the write, with other threads running between push and write |
| `EventLoops.EventLoop.CallMeasured` | windz/net/EventLoop.cpp:157-160 | the loop runs precisely the functors that were queued when it was measured, in order |
| `EventLoops.EventLoop.CallPendingFunctors` | windz/net/EventLoop.cpp:153-163 | runs all that was queued on entry, whatever callbacks and other threads queue |
| `EventLoops.EventLoop.TestQuit` | windz/net/EventLoop.cpp:57 | the test of the loop: it goes on to poll exactly if `quit_` is not set |
| `EventLoops.EventLoop.Iterate` | windz/net/EventLoop.cpp:57-66 | one turn of `Loop` is a run of the machine, and all that was posted when it went to poll has run at its end |
| `BlockingQueues.NoLostWakeup` | windz/base/BlockingQueue.h:22-92 | in every interleaving, with barging, spurious wake-ups and WakeUp/Restore: threads asleep on a true predicate always have enough released threads of their kind ahead of them, so nobody sleeps on a true predicate with nobody runnable |
| `BlockingQueues.ItemsAreConserved` | windz/base/BlockingQueue.h:22-74 | accepted items are the popped ones followed by the queue, in order, and a non-zero bound is never exceeded |
| `BlockingQueues.WokenThreadsLeave` | windz/base/BlockingQueue.h:80-92 | after `WakeUp` the released threads' own steps, in any order, empty both wait sets and leave the queue alone |
| `BlockingQueues.StepKeepsInv` | windz/base/Condition.h:19-23 | every critical section, entered afresh or out of a wait, keeps the counting invariant |
| `BlockingQueues.PushIsExact` | windz/base/BlockingQueue.h:22-57 | outside the wake-up mode a push, fresh or resumed, puts its item last exactly when there is room (always, without a bound) and otherwise waits with it; in that mode it leaves the queue alone |
| `BlockingQueues.PopIsExact` | windz/base/BlockingQueue.h:58-74 | the same for a pop: it takes the oldest item exactly when there is one |
| `BlockingQueues.CallsAreAccounted` | windz/base/BlockingQueue.h:22-74 | over every run without `WakeUp`: the pushes called are those accepted and those still waiting, the pops called those answered and those still waiting |
| `BlockingQueues.BlockingQueue.Push` | windz/base/BlockingQueue.h:22-57 | is a step of the monitor: enqueues its item last if there is room, parks on a full queue, gives up only in wake-up mode |
| `BlockingQueues.BlockingQueue.Pop` | windz/base/BlockingQueue.h:58-74 | is a step of the monitor: returns and removes the oldest item, or parks on an empty queue, or returns empty-handed in wake-up mode |
| `BlockingQueues.BlockingQueue.PushAgain` | windz/base/Condition.h:19-23 | `Push` re-testing its predicate after a wait is a step of the monitor, with the same three outcomes, and keeps the invariant |
| `BlockingQueues.BlockingQueue.PopAgain` | windz/base/Condition.h:19-23 | the same for `Pop` |
| `BlockingQueues.BlockingQueue.WakeUp` | windz/base/BlockingQueue.h:83-88 | releases every sleeper and keeps the invariant |
| `ThreadPools.TasksRunOnce` | windz/base/ThreadPool.cpp:16-45 | in every run no task is called twice; once the pool is idle no worker is left, and the accepted tasks are those called once each followed by those still queued |
| `ThreadPools.StepKeepsTasks` | windz/base/ThreadPool.cpp:22-27 | every task handed out stays in exactly one worker's hands until its call returns, and then is finished once |
| `ThreadPools.AddAndTakeAreExact` | windz/base/ThreadPool.cpp:22-45 | until `Stop` wakes the queue, `AddTask` queues that very task last exactly when there is room, and a worker's `Pop` hands it the oldest one |
| `ThreadPools.PoolRunsItsQueue` | windz/base/ThreadPool.cpp:16-45 | every run of the pool is a run of its queue, so all that holds of every run of the queue holds of it |
| `ThreadPools.AddsAreAccounted` | windz/base/ThreadPool.cpp:43-45 | over every run until `Stop` wakes the queue: each call of `AddTask` has had its task accepted or is waiting for room |
| `ThreadPools.WorkersStay` | windz/base/ThreadPool.cpp:22-27 | over every run: no worker leaves before `Stop` is called |
| `ThreadPools.JoiningWorkersFinish` | windz/base/ThreadPool.cpp:33-41 | while `Stop` joins, no worker takes more than two further steps of its loop, whatever is pushed meanwhile |
| `ThreadPools.JoiningNeverBlocks` | windz/base/ThreadPool.cpp:33-41 | while `Stop` joins, every worker left can move at once, and `Stop` can return exactly when none is left |
| `ThreadPools.ServingProgress` | windz/base/ThreadPool.cpp:22-27 | with tasks queued and no worker gone, some worker can move if and only if not every worker is asleep in an `AddTask` of its task |
| `ThreadPools.UnboundedPoolProgresses` | windz/base/ThreadPool.h:22 | with no bound on the queue and tasks queued, some worker can always move |
| `ThreadPools.BoundedPoolStalls` | windz/base/BlockingQueue.h:22-39 | a run to a standstill: one worker, a bound of one, a task that adds two |
| `ThreadPools.ThreadPool.Start` | windz/base/ThreadPool.cpp:16-31 | creates the workers asked for one by one, while those created earlier and all other threads run |
| `ThreadPools.ThreadPool.WorkerTurn` | windz/base/ThreadPool.cpp:22-27 | one turn of a worker among arbitrary steps of all other threads: the task that `Pop` handed out is called to its end and recorded once |
| `ThreadPools.ThreadPool.AddTask` | windz/base/ThreadPool.cpp:43-45 | is a step of the pool, also when a running task makes it |
| `ThreadPools.ThreadPool.Join` | windz/base/ThreadPool.cpp:36-38 | ends, with the worker out of its loop, provided the calls of tasks return |
| `ThreadPools.ThreadPool.Stop` | windz/base/ThreadPool.cpp:33-41 | returns with every worker gone, every task handed out called, and the queue usable again |
| `Channels.Channel.HandleEvents` | windz/net/Channel.cpp:21-47 | calls the handlers that are reported and set, in the order error, read, write; if a callback closes the channel it is the last one called; none is called if the tied owner is gone |
| `Channels.Due` | windz/net/Channel.cpp:31-45 | a handler is due exactly when its events are reported and it is set |
| `Channels.DueInOrder` | windz/net/Channel.cpp:31-45 | the handlers due come in the order error, read, write, each once |
| `Channels.EachEvent` | windz/net/Channel.cpp:31-45 | each single event and the handler it concerns; a hang-up alone concerns none |
| `Channels.EventsTogether` | windz/net/Channel.cpp:31-45 | events reported together concern exactly the handlers that one of them concerns |
| `Channels.Channel.DisableRead` | windz/net/Channel.h:39-42 | withdraws the interest in reading and no other bit of the mask |
| `Channels.Channel.EnableWrite` | windz/net/Channel.h:43-46 | adds the interest in writing and no other bit |
| `Channels.Channel.DisableReadWrite` | windz/net/Channel.h:55-58 | withdraws both interests and keeps every other bit |
| `Buffers.RefinesByteString` | windz/net/Buffer.cpp:13-115 | every sequence of operations acts on the readable bytes as on a plain byte string, and the store never exceeds its initial size or what that string needs at its peak |
| `Buffers.QueueConservation` | windz/net/Buffer.cpp:13-46 | used as a queue, bytes out followed by bytes held are bytes in, in order |
| `Buffers.HeadroomIsKept` | windz/net/Buffer.h:14-29 | until something is prepended the headroom is never below its eight bytes, and an emptied buffer has all the rest of its store as tail |
| `Buffers.Perform` | windz/net/Buffer.cpp:13-115 | the object follows every such sequence |
| `Buffers.Buffer.AlignPrepend` | windz/net/Buffer.cpp:93-108 | moves the readable bytes to the fixed headroom, across overlapping moves in either direction, growing only if they do not fit |
| `Buffers.Buffer.ExtendSpace` | windz/net/Buffer.cpp:110-115 | the new size is exactly max(old size, 8 + readable + len) |
| `Buffers.Buffer.Write` | windz/net/Buffer.cpp:39-46 | appends; uses the tail if it suffices and otherwise realigns |
| `Buffers.Buffer.ReadFd` | windz/net/Buffer.cpp:70-89 | tail and stack segment together append exactly what was received; a failed read changes nothing |
| `Buffers.Buffer.Read` | windz/net/Buffer.cpp:32-37 | returns and drops the front |
| `Buffers.Buffer.Release` | windz/net/Buffer.cpp:13-21 | drops the front; dropping everything restores the headroom |
| `Buffers.Buffer.UnWrite` | windz/net/Buffer.cpp:50-53 | drops the back |
| `Buffers.Buffer.Prepend` | windz/net/Buffer.cpp:55-60 | puts bytes in front, out of the headroom |
| `Buffers.Buffer.Shrink` | windz/net/Buffer.cpp:64-68 | keeps the bytes, with exactly the reserve asked for behind them |
| `Buffers.CopyDown` | windz/net/Buffer.cpp:104 | an overlapping copy towards the front delivers the original bytes |
| `Buffers.CopyUp` | windz/net/Buffer.cpp:101-102 | an overlapping copy towards the back delivers the original bytes |
| `TcpConnections.StreamIntegrity` | windz/net/TcpConnection.cpp:78-196 | over every run: what the kernel took, followed by the output buffer, is every message that reached `SendInLoop` before a disconnect, less those lost to a reset by the peer, in order; writability is requested exactly while the buffer is non-empty, until destruction |
| `TcpConnections.SendInLoopAccounts` | windz/net/TcpConnection.cpp:78-121 | a send that nothing precedes is written as far as the kernel takes it and the rest is kept; any other goes whole behind the pending output; only a reset met by its own write loses it |
| `TcpConnections.BytesAccount` | windz/net/TcpConnection.cpp:78-196 | the same for every event: what is written and what is kept afterwards |
| `TcpConnections.FunctorsAreConserved` | windz/net/TcpConnection.cpp:61-144 | over every run: the functors run, followed by those queued, are those that foreign sends, foreign shutdowns and `ForceClose` posted, in order |
| `TcpConnections.EndsExactly` | windz/net/TcpConnection.cpp:123-208 | at every event on a connection not destroyed: SHUT_WR is issued, and `close_cb_` called, at once if asked for with nothing pending and by the drain otherwise, and never else |
| `TcpConnections.ShutdownIsIssued` | windz/net/TcpConnection.cpp:123-136 | over every run: a connection shut down by its user has issued SHUT_WR once the request has run and nothing is pending, and SHUT_WR is issued only if asked for |
| `TcpConnections.StateFollowsTheCalls` | windz/net/TcpConnection.cpp:36-208 | over every run the state is what the calls and the peer alone make it: writes, drains and queued functors never change it |
| `TcpConnections.GracefulClose` | windz/net/TcpConnection.cpp:123-208 | over every run: no assert fails, `close_cb_` is called at most once, and neither it nor SHUT_WR is issued with output pending on a connection not destroyed |
| `TcpConnections.CloseWaitsForDrain` | windz/net/TcpConnection.cpp:185-208 | a close that finds output pending is deferred: `close_cb_` has been called exactly when the drain is complete, and the drain delivers every accepted byte |
| `TcpConnections.DrainedStaysClosed` | windz/net/TcpConnection.cpp:198-208 | after the drain nothing more is accepted or written |
| `TcpConnections.ReadsBeforeWriting` | windz/net/Channel.cpp:31-45 | the channel's order of dispatch makes a connection read before it writes |
| `TcpConnections.OneDispatch` | windz/net/Channel.cpp:31-45 | whatever one dispatch reports is a run of the connection's handlers in the channel's order; a peer's close found in it is passed on within it exactly when nothing is left to write |
| `TcpConnections.ForceCloseOnlyDrains` | windz/net/TcpConnection.cpp:138-156 | after `ForceClose`, until the peer closes, `close_cb_` is called exactly when output was pending at the call and has since drained |
| `TcpConnections.ForceCloseTimerCloses` | windz/net/TcpConnection.cpp:146-156 | the functor of `ForceCloseAfter` closes, at once exactly when nothing is pending |
| `TcpConnections.ForceCloseLeavesIdleConnectionOpen` | windz/net/TcpConnection.cpp:138-156 | a run in which an idle connection survives `ForceClose` |
| `TcpConnections.ShutdownCanBeOvertaken` | windz/net/TcpConnection.cpp:123-136 | at a call of `Shutdown`: some run issues SHUT_WR and comes to write bytes after it, if and only if another thread's bytes are queued and the call is the loop's own, or output is pending, or bytes are queued in front of other bytes |
| `TcpConnections.ShutdownOvertakesQueuedSend` | windz/net/TcpConnection.cpp:61-71 | after SHUT_WR bytes can still come to be written exactly if another thread's send of some is still queued and nobody has disconnected |
| `TcpConnections.OvertakingRun` | windz/net/TcpConnection.cpp:185-187 | a run in which SHUT_WR is issued with such a send queued |
| `TcpConnections.NoLateBytes` | windz/net/TcpConnection.cpp:61-71 | once SHUT_WR has been issued with no foreign bytes still queued, no byte is ever accepted: sends of the loop's own thread are not overtaken |
| `TcpConnections.StepKeepsInv` | windz/net/TcpConnection.cpp:36-208 | every handler and API call keeps the invariant of the protocol |
| `TcpConnections.TcpConnection.SendInLoop` | windz/net/TcpConnection.cpp:78-121 | direct write, remainder into the buffer, nothing after a peer reset or a disconnect |
| `TcpConnections.TcpConnection.HandleWrite` | windz/net/TcpConnection.cpp:173-196 | releases what was written; on an empty buffer stops writing and completes a pending shutdown or close |
| `TcpConnections.TcpConnection.HandleClose` | windz/net/TcpConnection.cpp:198-208 | stops reading; calls `close_cb_` unless output is pending |
| `TcpConnections.TcpConnection.Handle` | windz/net/TcpConnection.cpp:36-208 | the object, with its real buffer, follows the machine under every event and keeps the invariant |
| `TcpServers.TwoLoopLifecycle` | windz/net/TcpServer.cpp:46-73 | in every interleaving each connection is established before it is destroyed, each at most once, is destroyed only after its close and its removal from the list, and always meets the `kConnecting` assert |
| `TcpServers.ListIsExact` | windz/net/TcpServer.cpp:54-69 | `connections_` holds exactly the connections accepted and not yet removed, under their own names; with no functor queued, exactly those not closed |
| `TcpServers.NothingIsCutOff` | windz/net/TcpServer.cpp:66-73 | under the server's protocol SHUT_WR and `close_cb_` never find output pending, and a destroyed connection has handed every accepted byte to the kernel (`TcpConnections.StreamIntegrity` says which are accepted) |
| `TcpServers.NamesAreDistinct` | windz/net/TcpServer.cpp:54-55 | under any server name, connection names determine the connection number |
| `TcpServers.StepKeepsServerInv` | windz/net/TcpServer.cpp:46-73 | each queue always holds exactly the functors the protocol's progress calls for |
| `TcpServers.OwnLoopRunsAtOnce` | windz/net/TcpServer.cpp:46-73 | a connection of the accept loop is established as it is accepted and taken off the list as it closes; for any other exactly one functor is posted, to the right loop |
| `TcpServers.DestroyedByItsLoop` | windz/net/TcpServer.cpp:66-73 | a connection is destroyed only by the functor posted to its own loop, never inside its own handler |
| `TcpServers.TcpServer.NewTcpConnection` | windz/net/TcpServer.cpp:46-64 | lists the connection under a name not in use and posts, or on the same loop runs, its establishment |
| `TcpServers.TcpServer.RemoveTcpConnection` | windz/net/TcpServer.cpp:66-73 | erases on the accept loop and posts the destruction to the connection's loop |
| `TcpServers.TcpServer.RunNext` | windz/net/TcpServer.cpp:63-72 | whichever functor a loop runs next, the invariant is kept |
| `Timers.TimerManager.HandleExpired` | windz/net/Timer.cpp:38-56 | for callbacks that cancel live timers and add timers due no earlier than the one running: the pass ends, serves every timer found due unless a callback canceled it, serves in an orderly way, removes exactly what it dropped, and leaves only timers due after `now` |
| `Timers.OrderlyMeans` | windz/net/Timer.cpp:40-55 | an orderly pass fires in non-decreasing due order, no timer twice, none that was canceled before |
| `Timers.TimerManager.ServeRoot` | windz/net/Timer.cpp:44-51 | the timer that ran, and no other, is popped or re-armed for after `now`, although its callback may have pushed and canceled |
| `Timers.TimerManager.RunThenPop` | windz/net/Timer.cpp:44-49 | after a one-shot timer the pass pops the timer that ran if and only if its callback added nothing due strictly before it |
| `Timers.TimerManager.RunThenRearm` | windz/net/Timer.cpp:44-47 | after a repeating timer the pass lowers the timer that ran if and only if its callback added nothing due strictly before it; otherwise nothing moves, and the heap stays in order if and only if no child of that timer's place is due before its new time |
| `Timers.RearmBreaksOrder` | windz/net/Timer.cpp:44-47 | a run that leaves the heap out of order |
| `Timers.ServedIsNoLongerDue` | windz/net/Timer.cpp:40-55 | the termination measure: a turn that adds nothing due leaves one due timer fewer |
| `Timers.PassIsComplete` | windz/net/Timer.cpp:40-55 | when nothing due is left, each timer found due was served or canceled |
| `Timers.TimerManager.RearmRoot` | windz/net/Timer.cpp:45-47 | restarting the root and lowering it restores the heap with the same timers |
| `Timers.TimerManager.PushInHeap` | windz/net/Timer.cpp:69-73 | restores the heap order, adds exactly that timer, and says which timer is then the root |
| `Timers.TimerManager.PopInHeap` | windz/net/Timer.cpp:75-79 | restores the heap order and removes exactly the root |
| `Timers.TimerManager.UpInHeap` | windz/net/Timer.cpp:81-88 | turns a heap with one timer too low into a heap of the same timers, moving it past exactly the ancestors due after it |
| `Timers.TimerManager.DownInHeap` | windz/net/Timer.cpp:90-105 | turns a heap with one timer too high into a heap of the same timers |
| `Timers.RaiseStep` | windz/net/Timer.cpp:83-87 | one exchange with the parent moves the only possible violation up |
| `Timers.RootIsEarliest` | windz/net/Timer.cpp:58-67 | no timer is due before the root |
| `Timers.Timer.Restart` | windz/net/Timer.h:44-50 | a repeating timer is due one interval after the given time |
| `Timers.Timer.Cancel` | windz/net/Timer.h:51-54 | sets the mark, which may be done once |
| `Timers.TimerManager.PollTimeout` | windz/net/EventLoop.cpp:59 | the wait is the longest whole number of milliseconds, up to ten seconds, that passes no timer's due time, and 0 if one is due |
| `Timers.TimerManager.NextTimeout` | windz/net/Timer.cpp:58-67 | the truncated distance to the root, never negative |
| `LogStreams.DecimalReadsBack` | windz/log/LogStream.cpp:22-40 | reading the decimal text of a value gives the value back, for every value |
| `LogStreams.NumeralReadsBack` | windz/log/LogStream.cpp:22-56 | the same for the digits in any base up to 16 |
| `LogStreams.NumeralIsCanonical` | windz/log/LogStream.cpp:22-56 | digits only, and no leading zero but for zero itself |
| `LogStreams.DecimalFits` | windz/log/LogStream.cpp:60-66 | at most 20 characters over all signed and unsigned 64-bit values |
| `LogStreams.HexFits` | windz/log/LogStream.cpp:42-56 | at most 16 hexadecimal digits |
| `LogStreams.WriteDigits` | windz/log/LogStream.cpp:27-31 | the loop writes the digits backwards for either sign; with truncating division no intermediate value leaves the range between the value and zero |
| `LogStreams.Convert` | windz/log/LogStream.cpp:22-40 | the buffer holds exactly the decimal text and a terminator, and what stood before it is untouched |
| `LogStreams.ConvertHex` | windz/log/LogStream.cpp:42-56 | the same for the hexadecimal text |
| `LogStreams.Reverse` | windz/log/LogStream.cpp:37 | reverses one stretch in place and nothing else |
| `LogStreams.FixBuffer.Append` | windz/log/LogStream.h:21-26 | appends all or nothing; a character always stays free |
| `LogStreams.FixBuffer.FormatInteger` | windz/log/LogStream.cpp:60-66 | all of the text or nothing, and never past the end |
| `LogStreams.FixBuffer.FormatPointer` | windz/log/LogStream.cpp:158-168 | `0x` and all hexadecimal digits, or nothing |
| `AsyncLoggings.LinesAreConserved` | windz/log/AsyncLogging.cpp:32-97 | in every interleaving file, batch, `buffers_` and current buffer hold every line taken, in lock order; what a drop removes is one contiguous run of whole buffers, counted by the notice before it |
| `AsyncLoggings.BuffersAreRecycledSafely` | windz/log/AsyncLogging.cpp:70-113 | no assert of the logging thread fails, the current buffer is never null, no buffer is owned in two places |
| `AsyncLoggings.LeftBehindByStop` | windz/log/AsyncLogging.cpp:54-85 | for every `Stop` and every run after it that ends the thread: the lines appended before reach the file or are reported dropped if and only if the thread had passed its test of `running_` and not yet taken its batch, or no line was queued; otherwise exactly the queued ones are left in memory |
| `AsyncLoggings.StopLosesALine` | windz/log/AsyncLogging.cpp:70-116 | a run that loses a line appended before `Stop` |
| `AsyncLoggings.StopLosesNothingBeforeTheLock` | windz/log/AsyncLogging.cpp:70-76 | a run to a `Stop` between the test and the lock, with a line queued that will still be collected |
| `AsyncLoggings.TakenIsEverything` | windz/log/AsyncLogging.cpp:74-85 | a batch is everything appended and not yet written |
| `AsyncLoggings.OversizedLinesAreLost` | windz/log/AsyncLogging.cpp:32-46 | a line is kept if and only if it is shorter than the large buffer |
| `AsyncLoggings.DiskIsExact` | windz/log/AsyncLogging.cpp:95-97 | without drops the file holds exactly the lines accounted for |
| `AsyncLoggings.WriteAccounts` | windz/log/AsyncLogging.cpp:87-97 | written or reported dropped, a batch is accounted for line by line and in order |
| `AsyncLoggings.DropIsExact` | windz/log/AsyncLogging.cpp:87-97 | a batch of up to 25 buffers is written whole; of a larger one the first two, behind a notice that counts the others |
| `AsyncLoggings.OnlyRotationCreates` | windz/log/AsyncLogging.cpp:32-85 | a buffer is queued early only when full and created only when none is at hand; the logging thread creates none and waits only if nothing is queued |
| `AsyncLoggings.AsyncLogging.Append` | windz/log/AsyncLogging.cpp:32-46 | the critical section follows the machine and keeps its invariant |
| `AsyncLoggings.AsyncLogging.TestRunning` | windz/log/AsyncLogging.cpp:70-73 | past the test the asserts of the loop head hold; otherwise the thread has ended |
| `AsyncLoggings.AsyncLogging.EnterSection` | windz/log/AsyncLogging.cpp:74-85 | under the lock, with buffers queued the batch is taken at once, otherwise the lock is given up |
| `AsyncLoggings.AsyncLogging.WriteBatch` | windz/log/AsyncLogging.cpp:87-100 | a batch of more than 25 is cut to two behind a notice |
| `AsyncLoggings.AsyncLogging.Recycle` | windz/log/AsyncLogging.cpp:101-113 | both refills find a buffer, and the asserts at the loop head hold again |
| `AsyncLoggings.AsyncLogging.Round` | windz/log/AsyncLogging.cpp:70-115 | with appends and a `Stop` arriving whenever the lock is free: unless its test ends the thread, every line appended before the turn is in the file or reported dropped when it ends |
| `Connectors.SocketsAreConserved` | windz/net/Connector.cpp:26-165 | in every timely run no assert fails; created = closed + handed over + (1 while connecting), no socket meets two fates; at most one of an attempt, a pending retry and a connection exists |
| `Connectors.RunIsTallied` | windz/net/Connector.cpp:108-144 | over every timely run: the sockets handed over are exactly those whose connection was established while the connector was started, in order; as many sockets were created as attempts were due; every failure while started arms one retry |
| `Connectors.StoppedHandsNothing` | windz/net/Connector.cpp:38-49 | until started again a stopped connector hands nothing over and makes no attempt, and none is left once its functor has run |
| `Connectors.StepEffects` | windz/net/Connector.cpp:61-144 | one timely step: the socket it hands over, the socket it creates and the retry it arms |
| `Connectors.StepMoves` | windz/net/Connector.cpp:26-165 | every timely step: the state, the flag, the channel and the queue of functors after it, as the attempt made or the outcome met decides them |
| `Connectors.FaultsExactly` | windz/net/Connector.cpp:26-165 | for every step in every state the invariant allows, an assert fails if and only if the functor of `Start` runs outside the disconnected state, or an attempt gets under way during another one or with a reset still queued |
| `Connectors.TimelyIsExact` | windz/net/Connector.cpp:98-125 | when the attempt a step makes gets under way, the asserts hold, the pending retry timer's included, if and only if the step is timely |
| `Connectors.RetryDelays` | windz/net/Connector.cpp:108-125 | in every timely run the k-th retry since construction or `Restart` waits min(100 ms * 2^k, 30 s), and the pending one is the last of them |
| `Connectors.BackoffIsCappedDoubling` | windz/net/Connector.cpp:120-123 | doubling with a cap at each step is the capped power |
| `Connectors.StopThenStartFaults` | windz/net/Connector.cpp:156-165 | `Stop` and `Start` in one turn of the loop fail the assert, and the late reset takes the new channel |
| `Connectors.LateResetFaults` | windz/net/Connector.cpp:156-165 | so does a retry timer that fires before the queued reset |
| `Connectors.StepKeepsInv` | windz/net/Connector.cpp:26-165 | every timely step keeps the invariant |
| `Connectors.Connector.Retry` | windz/net/Connector.cpp:108-125 | closes the socket and, unless stopped, arms one timer and doubles the delay |
| `Connectors.Connector.Connect` | windz/net/Connector.cpp:61-96 | the new socket is being connected, or closed with a retry, or closed |
| `Connectors.Connector.HandleWrite` | windz/net/Connector.cpp:127-144 | an established socket is handed over by a started connector and closed by a stopped one; any other is closed and retried |
| `Connectors.Connector.HandleError` | windz/net/Connector.cpp:146-154 | an error during an attempt closes and retries; otherwise nothing happens |
| `Connectors.Connector.Handle` | windz/net/Connector.cpp:26-165 | the object follows the machine under every timely event; its asserts hold |
| `Configs.RoundTrip` | windz/util/Config.cpp:96-146 | a file written in the accepted grammar, in any layout and with or without a last newline, parses without error into exactly the map that has the keys the file binds and lists under each its values in order |
| `Configs.ListsGrow` | windz/util/Config.cpp:124-141 | each list grows by exactly the values bound to its key, in order |
| `Configs.LinesAreSplit` | windz/util/Config.cpp:104-111 | lines that end in one newline and fit the line buffer are read back as they are, whatever follows them |
| `Configs.NewlineIsIdle` | windz/util/Config.cpp:111-143 | a newline at the end of any line changes nothing in what the line does |
| `Configs.ContinuationIsRepetition` | windz/util/Config.cpp:121-128 | an indented value equals a repeated name line if and only if it is non-empty, has no `#` and does not open with `[` |
| `Configs.ColonIsRead` | windz/util/Config.cpp:129-142 | for every name and value: colon and equals notation agree if and only if the value has no equals sign and the name no colon |
| `Configs.NameIsRead` | windz/util/Config.cpp:129-142 | a name line binds exactly that value to exactly that name |
| `Configs.HeaderIsRead` | windz/util/Config.cpp:117-120 | a header opens its section and ends the last name |
| `Configs.RejectedLines` | windz/util/Config.cpp:111-143 | a line that is neither blank nor a comment is rejected exactly when it is a header without its bracket, an indented line under no name, or has neither separator |
| `Configs.FirstErrorIsReported` | windz/util/Config.cpp:111-145 | the number returned is that of the first rejected line, and the map is what the lines before it bound |
| `Configs.LowerMeets` | windz/util/Config.cpp:18 | lower-casing makes two texts equal if and only if they are spelled alike, letter by letter, but for `A`-`Z` against `a`-`z` |
| `Configs.KeysAreLower` | windz/util/Config.cpp:16-20 | the key is the one text without capitals that is spelled like section, dot and name |
| `Configs.KeysCollide` | windz/util/Config.cpp:16-20 | two bindings share a key if and only if they agree up to case, or the longer title and its name are the other's with the separating dot in another place |
| `Configs.SectionsCollide` | windz/util/Config.cpp:16-20 | two sections that differ can share a key if and only if one title, followed by a dot, begins the other up to case |
| `Configs.ShadowedNames` | windz/util/Config.cpp:16-20 | and then every name of the longer section has a counterpart in the shorter one |
| `Configs.KeysSeparate` | windz/util/Config.cpp:16-20 | for titles without a dot, keys are equal exactly when section and name are equal up to case |
| `Configs.DottedTitlesCollide` | windz/util/Config.cpp:16-20 | dotted titles that share a key with another section, and two dotted titles that share none |
| `Configs.AnySpellingFinds` | windz/util/Config.cpp:148-194 | asked for in any spelling, a name of a file read back has exactly the values that the file binds to that name in that section or to one that meets it |
| `Configs.LineParser.SkipSpace` | windz/util/Config.cpp:28-33 | the cursor lands behind the white space |
| `Configs.LineParser.Strip` | windz/util/Config.cpp:34-43 | the two loops strip both ends |
| `Configs.LineParser.Till` | windz/util/Config.cpp:56-68 | the token up to the character, or nothing and an unmoved cursor if it does not occur |
| `Configs.LineParser.TillEnd` | windz/util/Config.cpp:69-78 | the token up to white space or `#` |
| `Configs.LineParser.TillSpace` | windz/util/Config.cpp:79-88 | the token up to white space |
| `Configs.Config.ReadLine` | windz/util/Config.cpp:111-142 | one line, with the cursor backed up between the two separators, does what the grammar's function says; no list is ever empty |
| `Configs.Config.Parse` | windz/util/Config.cpp:96-146 | -1 without a file; otherwise the map and the number of the first erroneous line, or 0, as the specification of whole files has them |
| `Configs.Config.GetString` | windz/util/Config.cpp:148-156 | the first value under the key, which exists if the key does; else the default |
| `Configs.Config.GetList` | windz/util/Config.cpp:186-194 | all values under the key, none if it is absent |

## Left out

- System calls, `Epoller`, `Socket`, `Acceptor` and `Util` appear only as answers of the kernel: any number of bytes up to the length asked for, would-block, an error class, an eventfd that adds and reads to zero.
- Thread creation, thread-local storage, daemon and process control.
- Log file rolling and stdio: the log file is an append-only sequence, and `file` records dropped buffers for the proofs only.
- Floating-point formatting, the `strtol`/`strtod`/bool getters, address printing and the header text of log lines: library behaviour.
- Data races on plain booleans and on `state_` across threads: each guarded read-and-set is one step.
- Destructors of servers and clients, `Quit` racing with the flag reset at the start of `Loop`, and `set_maxsize` during use: the code gives no guarantee there.
- Round-robin choice of an I/O loop: `NewTcpConnection` takes the loop as an argument, any loop.
- The input buffer of a connection and `message_cb_`: what a read delivers is not followed beyond the buffer itself. The watermark and connection callbacks are assumed not to call back into the connection.
- Machine widths of sizes and counters, among them the connection number: unbounded, except for 64-bit values in integer formatting and the eventfd counter.
- EventLoops.EventLoop.Iterate: one turn of the loop, to which `TestQuit` adds the test between turns; how often `Loop` turns is the machine's (`LoopEndsExactlyOnRequest`). Channels other than the eventfd's are user code that may run while events are dispatched.
- ThreadPools.ThreadPool.Join: assumes that a call of a task ends once its own `AddTask` calls have returned; a task that never returns blocks `Stop` in the code too. An empty `std::function` pushed as a task counts as called.
- ThreadPools.ThreadPool.WorkerTurn: a turn ends early, as `Blocked`, when the worker has to wait in `Pop` or in an `AddTask` of its task; the machine behind `TasksRunOnce` goes on from there.
- BlockingQueues.BlockingQueue.Push: a call that has to wait returns `Parked` and is continued by `PushAgain`, since a method cannot block; likewise `Pop`.
- TcpConnections.StreamIntegrity: speaks of messages that reach `SendInLoop`, since a disconnect can overtake a queued send (`FunctorsAreConserved` accounts for those).
- TcpConnections.ShutdownCanBeOvertaken: the test of the state in another thread's `Send` and its queueing are one step; a send preempted between the two counts as not yet made.
- TcpConnections.GracefulClose: read events are delivered only while reading is enabled.
- TcpServers.TwoLoopLifecycle: functor queues are first-in first-out and the server outlives its connections; connections are followed by their specification functions, not as heap objects.
- Timers.TimerManager.HandleExpired: timers added by a callback are due no earlier than the timer running (`RunThenPop` and `RunThenRearm` say what happens otherwise), finitely many of them by the captured `now` (`allowance`), with non-negative intervals on a non-decreasing clock; a callback cancels only live timers, since canceling twice fails an assert.
- Timers.TimerManager.RunThenPop: the callback is given by the due times of the one-shot timers it adds; cancellations move nothing in the heap. The same holds for `RunThenRearm`.
- AsyncLoggings.LinesAreConserved: `Stop` only clears the flag; that it joins the thread is the phase `Finished`. `Append` before `Start` is an append before the first `Enter`.
- Connectors.SocketsAreConserved: for runs in which `Start` is not called during an attempt or a pending retry and queued resets run before the next attempt; `FaultsExactly` and `TimelyIsExact` show that the code needs this.
- Configs.RoundTrip: a name or title may contain white space only inside; `isspace` and `tolower` are those of the C locale on ASCII characters.
- Latches, durations and timestamps have no model of their own: durations and times are integers in nanoseconds.
