# A model of cannet's stateful cores

cannet is a reactor network library in C++. Between its system calls sit seven stateful cores whose
guarantees hold over whole runs rather than over single calls. This project models them in Dafny,
with the source's branches, constants and order of steps, and proves those guarantees.

| core | modules | form |
|---|---|---|
| asynchronous multi-buffer logger | `LogHistory`, `LogBooks`, `AsyncLoggers` | class, atomic steps split at the mutex; the bookkeeping of buffers as values |
| task queue and wakeup of the event loop | `EventLoops` | class, program counters of the loop thread and of any number of other threads |
| connection buffer | `Wire`, `NetBuffers` | class over an array |
| connections, channels, epoll set, recycling | `ByteStreams`, `Faces`, `Stories`, `Lives`, `Loops`, `Reactor` | classes with the kernel's descriptor and interest tables beside them; what one connection shows, the story that explains it, its lives, and the whole loop, as values |
| timers | `TimerHeaps`, `TimerPasses`, `TimerManagers` | array heap of shared, mutable timers; what a pass should do, as values |
| two-lock queue | `ThreadSafeQueues` | heap-linked list, atomic steps split at the two locks |
| integer formatting | `Numerals`, `LogStreams` | digit loop and in-place reversal over an array |

The classes are proved method by method against specification functions and invariants; methods
called `Run` then take an arbitrary schedule, so their postconditions speak of every interleaving,
every answer of the kernel and every behaviour of user callbacks. Where a step's effect is fully
determined, the specification is a machine on values (`World` for a loop with its connections, `Book`
and `Sched` for timers, `Loop` for the task queue, `Play` for the two-lock queue), every method is
proved to take the heap exactly from one of its states to the next, and the theorems about whole passes
and runs are proved on the machine. What such a machine comes to is in turn stated without it: what a
connection shows is explained by the story of what its user did, its peer sent and its socket answered;
the byte order of integers by digits and by comparison; a round of the loop, a pop, a pass and the way
of a log line to the file by what they deliver.

## Premises

- `sendInLoop` is the way to send, with `len` the length of the data (net/TcpConnection.cpp:83), and
  no file is attached (`sendFile_` is null).
- A socket that failed for good, or whose sending side is shut, takes no more bytes; a read on a
  closed descriptor fails with EBADF. The kernel never hands out a descriptor that is still open, and
  reports only registered descriptors, each once per wait.
- Timers enter at `addTimerInLoop`; the assert at net/TimerManager.cpp:70, which contradicts the line
  after it, is ignored.
- The loop thread itself calls `queueInLoop` and `quit` only from a handler or a functor.
- Timers get distinct sequence numbers, although the static counter behind them (net/Timer.h:22) is
  incremented without a lock by whichever thread makes a timer.
- Integers that count bytes, times and tasks do not overflow, except where a contract says otherwise.

## What the code does against its own intent

- `resetTimerFd` reaches its purpose only for a later expiration: one equal to the clock disarms the
  alarm, an earlier one is refused by the kernel and leaves the alarm as it was (`ArmedExactly`). A
  pass whose callbacks take longer than the gap to the next timer therefore leaves that timer waiting
  with no alarm: `Overrun` builds the case, `HandleRead` states for every pass exactly when alarm and
  queue agree afterwards, and `Run` that they always do when the schedule is in time (`InTime`).
- A backlog of more than 25 buffers loses lines. `AsyncLogger.Run` gives a condition on the producers
  under which that never happens: fewer than 50,000,000 bytes within one cycle of the writer.
  `Backlog` builds a loss: 26 lines that each fill a buffer, before the writer's first swap.
- `Buffer::shrink` keeps the indices inside the storage exactly when `ShrinkSafe` holds;
  `Buffer::unwrite` exactly when the length is within the readable bytes, which its own assert does
  not say (it looks at the free space). `ShrinkBreaks` and `UnwriteBreaks` are the failing cases.
- `FixedBuffer::resetData` clears the bytes and leaves the cursor, so `LogStream::resetBuffer` frees
  no room.
- A log line too long for an empty 4,000,000-byte buffer is dropped whole and silently, although the
  current buffer is still handed over.
- `disableAll` on a channel that is not being watched adds it to epoll again, with an empty mask.
  `removeChannel` then closes the descriptor before asking for the delete, which is therefore refused:
  exactly when the connection was not watched at the moment it closed (`HandleClose`).
- A queued `forceCloseInLoop` belongs to the connection object and not to its life. Requests stay true
  to the life that made them exactly as long as no connection is taken from the pool while a request
  for it is waiting (`BeginsKeeps`, `Run`); when one is, requests already queued end the wrong life
  (`Misfire`), and two `forceClose` calls are enough to get there (`StaleForceClose`).

## Model

| member | source | states |
|---|---|---|
| Numerals.NumeralRoundTrip | base/LogStream.cpp:13-47 | the digits of any number, base 10 or 16, parse back to that number |
| Numerals.NumeralLead | base/LogStream.cpp:18-22 | no leading zero and no sign; the text starts with 0 only for zero itself |
| Numerals.NumeralUnique | base/LogStream.cpp:13-47 | a digit string without leading zero is the output for the value it parses to: nothing else is ever written for that value |
| Numerals.NumeralLength | base/LogStream.cpp:18-22 | at most k digits if and only if the number is below base^k |
| Numerals.DecimalRoundTrip | base/LogStream.cpp:13-31 | signed text parses back to the value, for every integer, and is canonical |
| Numerals.DecimalUnique | base/LogStream.cpp:13-31 | among canonical texts only the one written reads back as the value |
| Numerals.TruncStep | base/LogStream.cpp:19-21 | truncated remainder and quotient of a negative value have the magnitudes of its last digit and of the rest, so no negation is needed, even at a type's minimum |
| LogStreams.DigitTable | base/LogStream.cpp:5-7 | the symmetric digit table indexed from its middle gives the digit of the magnitude, for remainders -9 to 9 |
| LogStreams.FixedBuffer.Append | base/LogStream.h:34-39 | text extended by the whole line if it is strictly shorter than the room left, unchanged otherwise |
| LogStreams.FixedBuffer.Reset | base/LogStream.h:57-59 | text empty, full room again |
| LogStreams.FixedBuffer.ResetData | base/LogStream.h:61-63 | bytes zeroed, cursor and room unchanged |
| LogStreams.FixedBuffer.Add | base/LogStream.h:53-55 | the bytes already placed after the cursor join the text |
| LogStreams.ReverseRange | base/LogStream.cpp:28 | the range in place equals its reversal, all else unchanged |
| LogStreams.DigitRound | base/LogStream.cpp:18-22 | one loop round moves one digit from the number to the text, their joint meaning unchanged |
| LogStreams.PutDigits | base/LogStream.cpp:15-22 | the loop writes exactly the digits of the magnitude, reversed, and nothing outside them |
| LogStreams.PutSigned | base/LogStream.cpp:24-26 | with the sign last, the reversed text is the canonical decimal |
| LogStreams.Convert | base/LogStream.cpp:13-31 | the buffer holds the canonical decimal of the value and a terminator at the start position, length returned, nothing else touched; minima included |
| LogStreams.ConvertHex | base/LogStream.cpp:33-47 | the same for upper-case hexadecimal |
| LogStreams.DecimalWidth | base/LogStream.h:123 | every 64-bit value, signed or unsigned, takes at most 20 characters |
| LogStreams.HexWidth | base/LogStream.h:123 | every 64-bit word takes at most 16 hexadecimal characters |
| LogStreams.LogStream.FormatInteger | base/LogStream.cpp:56-62 | the canonical decimal is appended whole if 48 bytes are left, otherwise nothing is; never an overrun |
| LogStreams.LogStream.FormatPointer | base/LogStream.cpp:110-120 | the same for 0x and hexadecimal digits |
| Wire.BigEndianRoundTrip | net/Buffer.h:124-145 | network order read back gives the number, for every width; which byte comes first is in `ByteOrder` |
| Wire.FromBigEndianBound | net/Buffer.h:222-251 | any bytes denote a number of that width, and are its only encoding |
| Wire.DecodeEncode | net/Buffer.h:124-173 | every signed value of the width survives the wire, minimum included |
| Wire.EncodeDecode | net/Buffer.h:222-251 | every byte string is the encoding of what it decodes to |
| Wire.ByteOrder | net/Buffer.h:124-145 | each byte is the digit of its weight, the heaviest first, in the value, or in the value plus the span of the width if it is negative |
| Wire.EncodeOrder | net/Buffer.h:124-145 | within one sign the larger value has the larger bytes, compared from the front, and the top bit of the first byte is the sign: with the round trips, no other encoding is left |
| NetBuffers.Buffer.constructor | net/Buffer.h:17-22 | empty, eight bytes prependable, size as asked |
| NetBuffers.Buffer.Swap | net/Buffer.h:24-29 | contents and storage exchanged, both sides valid |
| NetBuffers.Buffer.Retrieve | net/Buffer.h:65-72 | contents lose exactly their first len bytes |
| NetBuffers.Buffer.RetrieveAll | net/Buffer.h:85-89 | empty, with the reserved front restored |
| NetBuffers.Buffer.RetrieveAsString | net/Buffer.h:92-98 | the returned bytes and the contents left are the two parts of the contents before |
| NetBuffers.Buffer.Append | net/Buffer.h:103-108 | contents extended by the data; storage stays within max(8 + initial size, twice the peak of readable bytes + 7) |
| NetBuffers.Buffer.HasWritten | net/Buffer.h:112-116 | placed bytes join the contents behind those already there |
| NetBuffers.Buffer.EnsureWritableBytes | net/Buffer.h:253-257 | room for len more, contents unchanged, size bounded by the demand about to arise |
| NetBuffers.Buffer.MakeSpace | net/Buffer.h:259-276 | the choice between compaction and growth keeps contents and the space bound; the assert on the reader index always holds |
| NetBuffers.Buffer.CopyDown | net/Buffer.h:269-271 | the overlapping forward copy delivers the bytes as they were before it |
| NetBuffers.Buffer.Resize | net/Buffer.h:263 | new storage with the common prefix kept and zeros after it |
| NetBuffers.Buffer.Prepend | net/Buffer.h:198-204 | contents preceded by the data, storage and the rest unchanged |
| NetBuffers.Buffer.ReadFd | net/Buffer.cpp:16-44 | contents extended by exactly the bytes received, whether or not they overflow the free tail; unchanged with the errno saved on failure |
| NetBuffers.Buffer.Overflow | net/Buffer.cpp:38-42 | the tail and the stack block join in order |
| NetBuffers.Buffer.AppendInt | net/Buffer.h:124-145 | contents extended by the network-order encoding: the digits of the two's complement, the heaviest byte first |
| NetBuffers.Buffer.PrependInt | net/Buffer.h:175-196 | contents preceded by the same |
| NetBuffers.Buffer.ReadInt | net/Buffer.h:147-173 | the value read is the one whose digits, the heaviest first, headed the contents: undoes any append or prepend of that width |
| NetBuffers.Buffer.Shrink | net/Buffer.h:206-211 | valid afterwards, contents kept, if and only if the cut falls beyond the write index |
| NetBuffers.Buffer.Unwrite | net/Buffer.h:118-122 | valid afterwards if and only if len is within the readable bytes, for the unsigned index as the machine wraps it |
| NetBuffers.Buffer.ShrinkBreaks | net/Buffer.h:206-211 | a buffer made for 4096 bytes, 3000 appended, 2000 retrieved, shrunk to no reserve: the write index lies outside the storage |
| NetBuffers.Buffer.UnwriteBreaks | net/Buffer.h:118-122 | ten bytes appended and eleven taken back: the write index falls before the read index, and the assert lets it through |
| ThreadSafeQueues.ThreadSafeQueue.PushLock | base/ThreadSafeQueue.h:19-22 | the node is fresh and outside the chain; the queue's meaning is unchanged |
| ThreadSafeQueues.ThreadSafeQueue.PushSetVal | base/ThreadSafeQueue.h:23 | a value in the dummy is not yet in the queue |
| ThreadSafeQueues.ThreadSafeQueue.PushLink | base/ThreadSafeQueue.h:24-25 | nor is it once linked |
| ThreadSafeQueues.ThreadSafeQueue.PushSetTail | base/ThreadSafeQueue.h:26-27 | the value enters, last, when the tail moves; the chain stays acyclic and ends at the new dummy |
| ThreadSafeQueues.ThreadSafeQueue.PushStep | base/ThreadSafeQueue.h:17-28 | a push goes on by one step, or a new one begins; its value joins the queue with its last step and not before |
| ThreadSafeQueues.ThreadSafeQueue.PopTest | base/ThreadSafeQueue.h:93-120 | data is seen if and only if something is waiting |
| ThreadSafeQueues.ThreadSafeQueue.PopMoveHead | base/ThreadSafeQueue.h:86-128 | the value taken is the oldest waiting, whatever was pushed since the test |
| ThreadSafeQueues.ThreadSafeQueue.PopAdvance | base/ThreadSafeQueue.h:88-90 | exactly the oldest value leaves the chain |
| ThreadSafeQueues.ThreadSafeQueue.PopStep | base/ThreadSafeQueue.h:86-128 | a pop goes on by one step, or a new one begins; it gives up exactly when it finds nothing waiting, is held up exactly by a push half done, and with its last step delivers the oldest value |
| ThreadSafeQueues.ThreadSafeQueue.Fifo | base/ThreadSafeQueue.h:17-129 | in every reachable state: popped values are a prefix of the pushed ones and the rest is on the chain, in order; a pop past its test never touches the node a push writes; no node occurs twice |
| ThreadSafeQueues.ThreadSafeQueue.Run | base/ThreadSafeQueue.h:17-129 | for every interleaving of push and pop steps: the values pushed are exactly those of the schedule's pushes that got through all four steps, and the values delivered exactly those of its pops that did, each in order; what was waiting plus what was pushed equals what was delivered plus what is waiting |
| ThreadSafeQueues.PopsDeliver | base/ThreadSafeQueue.h:86-128 | with no push half done, four steps of a pop per value deliver what waits, oldest first |
| ThreadSafeQueues.PushArrives | base/ThreadSafeQueue.h:17-28 | four steps of a push make its value wait, last |
| ThreadSafeQueues.PopsNothing | base/ThreadSafeQueue.h:93-120 | with nothing waiting a pop gives up and delivers nothing |
| EventLoops.EventLoop.PollReturn | net/EventLoop.cpp:72 | poll may return at any time for other channels, and reports the wakeup channel only with a positive counter; either way nothing queued goes unnoticed |
| EventLoops.EventLoop.HandleRead | net/EventLoop.cpp:140-146 | the whole counter is consumed, and nothing queued is left unnoticed by that |
| EventLoops.EventLoop.SwapFunctors | net/EventLoop.cpp:153-156 | the batch is everything queued, the queue is empty, in one locked step |
| EventLoops.EventLoop.StartTask | net/EventLoop.cpp:158-159 | the next task of the batch runs, once |
| EventLoops.EventLoop.LeaveRunFunctors | net/EventLoop.cpp:161 | the flag is cleared with every task of the batch run |
| EventLoops.EventLoop.QueueOnLoop | net/EventLoop.cpp:100-105 | the pushed task is last in the queue; the loop owes itself a decision on the wakeup |
| EventLoops.EventLoop.AfterQueueOnLoop | net/EventLoop.cpp:107-108 | the loop wakes itself exactly while it is running functors |
| EventLoops.EventLoop.QuitOnLoop | net/EventLoop.cpp:85-90 | quit from the loop thread needs no wakeup |
| EventLoops.EventLoop.QueueFrom | net/EventLoop.cpp:100-109 | another thread's push obliges it to a wakeup |
| EventLoops.EventLoop.QuitFrom | net/EventLoop.cpp:85-90 | another thread's quit obliges it to a wakeup |
| EventLoops.EventLoop.WakeFrom | net/EventLoop.cpp:132-138 | the counter is positive afterwards and the obligation is met |
| EventLoops.EventLoop.NoLostWakeup | net/EventLoop.cpp:62-162 | in every reachable state at poll with a task queued or quit set: the counter is positive, or some thread is between its store and its wakeup |
| EventLoops.EventLoop.ExecutionOrder | net/EventLoop.cpp:100-162 | tasks run in push order, each at most once; at poll everything present at the last swap has run |
| EventLoops.EventLoop.Run | net/EventLoop.cpp:62-162 | for every schedule of the loop and any number of threads: the loop goes exactly through the states of its specification; no lost wakeup; the tasks pushed are those of the schedule's pushes that took place, and other threads' pushes take place exactly when their thread is idle; executed tasks are a prefix of pushed ones and at poll the rest is in the queue |
| EventLoops.EventLoop.Step | net/EventLoop.cpp:62-162 | any one event: exactly the task of a push that can take place is pushed, the other threads move on as specified, and so does everything else |
| EventLoops.RoundRuns | net/EventLoop.cpp:69-162 | a woken loop left to itself goes round in 7 + 2n steps, runs the n tasks that wait, in order, each once, and polls again or stops |
| EventLoops.AllHeard | net/EventLoop.cpp:85-138 | a quit by the loop or an idle thread is set, a wakeup leaves the counter positive, a loop with quit set stops at its next test |
| EventLoops.EventLoop.Turn | net/EventLoop.cpp:69-162 | progress: from any reachable state at poll with work waiting, whatever tasks, handlers and other threads push or request at any point of the turn, the loop is woken and goes round; exactly the tasks present at the swap run, in order, and what was pushed later is exactly the new queue, announced when the loop polls again |
| EventLoops.EventLoop.RunBatch | net/EventLoop.cpp:153-161 | the batch runs to its end in order while the queue collects what is pushed meanwhile |
| LogHistory.KeptConcat | base/AsyncLogger.cpp:58-63 | the kept lines of two adjacent stretches follow one another |
| LogHistory.KeptAll | base/AsyncLogger.cpp:14-28 | with nothing lost the kept lines are all lines |
| LogHistory.Flow.Conservation | base/AsyncLogger.cpp:14-84 | file, then chained buffers: exactly the kept lines, without gap, tear or reordering |
| LogHistory.Flow.PutKeeps | base/AsyncLogger.cpp:16-25 | an append keeps that, whether or not the line fits |
| LogHistory.Flow.OpenKeeps | base/AsyncLogger.cpp:19-51 | so does opening a clean buffer |
| LogHistory.Flow.WriteKeeps | base/AsyncLogger.cpp:61-63 | so does moving the oldest buffer to the file |
| LogHistory.Flow.DropKeeps | base/AsyncLogger.cpp:58-60 | so does throwing away buffers in the middle, whose lines become lost whole |
| LogBooks.Book.AdvanceKeeps | base/AsyncLogger.cpp:19-22 | the hand-over of the current buffer keeps ownership, supply and conservation, and disturbs no buffer in use |
| LogBooks.Book.SupplyKeeps | base/AsyncLogger.cpp:23-24 | a new buffer aliases none in use |
| LogBooks.Book.SwapKeeps | base/AsyncLogger.cpp:49-55 | the writer's critical section keeps them, and leaves a batch large enough for the recycling to come |
| LogBooks.Book.SwapHands | base/AsyncLogger.cpp:49-55 | the swap hands every line there is to the writer, who owed nothing before |
| LogBooks.Book.TrimKeeps | base/AsyncLogger.cpp:57-60 | the batch is non-empty; cutting it to two keeps the invariant |
| LogBooks.Book.WriteKeeps | base/AsyncLogger.cpp:61-63 | the file grows by exactly what the next buffer holds |
| LogBooks.Book.RecycleKeeps | base/AsyncLogger.cpp:64-80 | both spares are present again and nothing aliases |
| LogBooks.Book.RecycleAgrees | base/AsyncLogger.cpp:64-80 | recycling disturbs no buffer the producers hold |
| LogBooks.Book.StartKeeps | base/AsyncLogger.cpp:34-39 | two new spares make a state from which the loop's asserts hold |
| AsyncLoggers.AsyncLogger.constructor | base/AsyncLogger.cpp:4-12 | the empty logger satisfies the invariant |
| AsyncLoggers.AsyncLogger.Append | base/AsyncLogger.cpp:14-28 | the line joins the history; it is lost if and only if it does not fit an empty buffer; it goes to the current buffer if it fits there, and to the next one otherwise |
| AsyncLoggers.AsyncLogger.ThreadStart | base/AsyncLogger.cpp:30-39 | two clean spares of the writer's own |
| AsyncLoggers.AsyncLogger.LoopTop | base/AsyncLogger.cpp:40-43 | the three asserts at the top of the loop hold in every reachable state |
| AsyncLoggers.AsyncLogger.SwapBuffers | base/AsyncLogger.cpp:49-57 | the queue with the current buffer last becomes the batch, non-empty, and nothing is lost |
| AsyncLoggers.AsyncLogger.TrimBatch | base/AsyncLogger.cpp:57-60 | lines are lost only when more than 25 buffers were taken at once |
| AsyncLoggers.AsyncLogger.Backlog | base/AsyncLogger.cpp:57-60 | a run from the empty logger in which a line that fits a buffer is lost: 26 lines of one byte less than a buffer, then the writer's first swap |
| AsyncLoggers.AsyncLogger.WriteNext | base/AsyncLogger.cpp:61-63 | the file grows by the next buffer's text |
| AsyncLoggers.AsyncLogger.RecycleBuffers | base/AsyncLogger.cpp:64-80 | the asserts on the batch hold, both spares are clean and the batch is empty |
| AsyncLoggers.AsyncLogger.NoAliasing | base/AsyncLogger.cpp:14-84 | in every reachable state two different pointers of the logger lead to different buffers with different storage |
| AsyncLoggers.AsyncLogger.Conservation | base/AsyncLogger.cpp:14-84 | the file holds whole lines only, the kept ones of a prefix of the history; file ++ unwritten batch ++ queue ++ current buffer spells the appended lines, whole and in order, without the lost ones; all of them when none is lost |
| AsyncLoggers.PaceKept | base/AsyncLogger.cpp:40-82 | while fewer than 50,000,000 bytes come within one cycle of the writer, no batch exceeds 25 buffers and the next swap is not late |
| AsyncLoggers.Arrived | base/AsyncLogger.cpp:40-84 | what came two cycles of the writer ago is in the file |
| AsyncLoggers.AsyncLogger.WriterStep | base/AsyncLogger.cpp:30-84 | only the step that finds an oversized batch loses lines; only the swap takes buffers, and it comes round within 30 steps |
| AsyncLoggers.AsyncLogger.Run | base/AsyncLogger.cpp:14-84 | for every interleaving of producers, writer and stop: the invariant holds and the file only grows; with the producers unhurried, exactly the lines too long for any buffer are lost, however long the run; and unless the writer was stopped, every line not lost that came two cycles of the writer before the end is in the file |
| TimerHeaps.TopIsFirst | net/TimerManager.h:15-28 | the top of a heap comes out no later than any element |
| TimerHeaps.PushHeap | net/TimerManager.cpp:114 | heap order kept, one element more |
| TimerHeaps.PopHeap | net/TimerManager.cpp:131 | heap order kept, exactly the top gone |
| TimerHeaps.RiseKeeps | net/TimerManager.cpp:114 | one swap towards the root leaves one possible violation, higher up |
| TimerHeaps.SinkKeeps | net/TimerManager.cpp:131 | one swap with the earlier child leaves one possible violation, lower down |
| TimerPasses.ArmedExactly | net/TimerManager.cpp:31-45 | the alarm is set for the expiration if and only if that is later than the clock, or is past and the alarm already stood there |
| TimerManagers.TimerManager.ResetTimerFd | net/TimerManager.cpp:31-45 | the second/nanosecond split with truncating division sets exactly that alarm |
| TimerManagers.TimerManager.Insert | net/TimerManager.cpp:104-122 | one timer more, heap kept; the result tells exactly whether the earliest expiration changed |
| TimerManagers.TimerManager.AddTimerInLoop | net/TimerManager.cpp:94-102 | a timer that does not come first, or is overdue, leaves the alarm as it was; one that comes first in time is what the alarm is set for; agreement of alarm and queue is kept then |
| TimerManagers.TimerManager.CancelInLoop | net/TimerManager.cpp:161-168 | that timer is marked and no other; a vanished one is left alone |
| TimerManagers.TimerManager.GetExpired | net/TimerManager.cpp:124-134 | the batch is exactly the live timers due by now, in (expiration, sequence) order; exactly the later ones stay |
| TimerPasses.MarksExplained | net/TimerManager.cpp:86-91 | in the specification of a pass, a timer, old or made by a callback of the pass, is cancelled exactly when it was before or some callback that ran cancelled it at a moment when it had been made |
| TimerPasses.AddsExplained | net/TimerManager.cpp:86-102 | timers are made one for one, in order, for exactly the adds of the callbacks that run |
| TimerPasses.RunsExplained | net/TimerManager.cpp:86-90 | the runs of a pass are its batch in order, without those cancelled by their turn |
| TimerPasses.BatchTimes | net/TimerManager.cpp:86-90 | a member of the batch runs once, at the pass's time, exactly if it is not cancelled by its turn; nobody else runs |
| TimerPasses.LateAdds | net/TimerManager.cpp:31-45 | callbacks that set only overdue timers leave the alarm as it was |
| TimerPasses.OneBatch | net/TimerManager.cpp:124-134 | there is only one sequence of the due timers in that order |
| TimerPasses.BatchSince | net/TimerManager.cpp:86-91 | cancellations of a pass are never undone, and nobody cancelled before it runs in it |
| TimerPasses.FirstLaterIs | net/TimerManager.cpp:127 | what the specification takes for the earliest later expiration is that |
| TimerManagers.TimerManager.Perform | net/TimerManager.cpp:94-168 | one add or cancellation from a callback: a new, unmarked timer of the expiration and interval asked for is queued, and the alarm moved exactly if it comes first; or exactly the named timer is marked, if there is one; nothing else is made or marked |
| TimerManagers.TimerManager.RunOne | net/TimerManager.cpp:86-90 | a live timer of the batch runs once, at the pass's time; timers made, timers marked and the alarm are exactly what its callback's adds and cancellations come to, in order |
| TimerManagers.TimerManager.RunNext | net/TimerManager.cpp:88-89 | a marked timer is passed over without any effect, any other runs |
| TimerManagers.TimerManager.RunDue | net/TimerManager.cpp:86-90 | the log grows by exactly the runs of those the batch's earlier callbacks did not cancel, in order; exactly the timers those callbacks ask for are made and queued, and exactly those they name are marked |
| TimerManagers.TimerManager.RunPass | net/TimerManager.cpp:80-90 | the batch is exactly the live due timers in queue order and runs as specified; exactly the later timers and the new ones are queued |
| TimerManagers.TimerManager.Reset | net/TimerManager.cpp:136-159 | exactly the live repeating ones return, re-keyed one interval after now; no live timer is lost; the top is live and the alarm is set for it |
| TimerManagers.TimerManager.ArmForFirstLive | net/TimerManager.cpp:147-158 | only cancelled timers leave the queue |
| TimerManagers.TimerManager.PutBackOne | net/TimerManager.cpp:141-145 | the key changes while the timer is outside the heap |
| TimerManagers.TimerManager.HandleRead | net/TimerManager.cpp:80-92 | one whole pass with callbacks that add and cancel: who is due and in which order; each of them not cancelled ran once, at this time, and nobody else; which timers are made, who is cancelled, who waits afterwards and until when, and where the alarm ends, each exactly; alarm and queue agree if and only if the re-arming was in time or found the alarm already there |
| TimerManagers.TimerManager.Overrun | net/TimerManager.cpp:80-159 | a live timer can be left waiting with no alarm: timers at 10 and 12, a pass at 10, re-arming at 13 |
| TimerManagers.TimerManager.Pass | net/TimerManager.cpp:80-92 | a pass in time leaves alarm and queue in agreement; whoever was cancelled before stays so and does not run |
| TimerManagers.TimerManager.TopBefore | net/TimerManager.cpp:127 | the top precedes every other timer in queue order |
| TimerManagers.TimerManager.AlarmCovers | net/TimerManager.cpp:94-159 | under agreement the alarm is set no later than any queued timer's expiration |
| TimerManagers.TimerManager.Discipline | net/Timer.h:16-31 | in every reachable state: ticks of a timer are at least its interval apart, a one-shot ran at most once, a cancelled timer has not run since |
| TimerManagers.TimerManager.Spacing | net/Timer.h:30 | over any stretch of runs, k ticks take at least k - 1 intervals |
| TimerManagers.TimerManager.Run | net/TimerManager.cpp:80-168 | for every sequence of timers made, added and cancelled and of passes: the scheduler goes exactly through the states of its specification, in which each pass runs its due timers in order, re-queues the repeating ones one interval later and keeps the later ones; whoever is cancelled, before or by the schedule, stays so; who was cancelled before never runs again; if the schedule is in time, alarm and queue agree throughout |
| Reactor.Channel.Update | net/Channel.cpp:31-35 | from any registered status channel and kernel agree afterwards; no other descriptor's registration changes |
| Reactor.Channel.EnableEvents | net/Channel.h:57-61 | the mask gains the events, in the kernel too |
| Reactor.Channel.DisableEvents | net/Channel.h:63-67 | the mask loses the events, in the kernel too |
| Reactor.Channel.DisableAll | net/Channel.h:69-73 | the mask is empty; watched becomes unwatched and unwatched becomes watched with an empty mask |
| Reactor.Channel.Remove | net/Channel.cpp:37-42 | descriptor closed, registration gone, connection moved to the pool |
| Reactor.Epoll.Ctl | net/Epoll.cpp:106-122 | which operations the kernel refuses, and the interest set after the others |
| Reactor.Epoll.UpdateChannel | net/Epoll.cpp:67-91 | every ADD, MOD and DEL issued is legal; status and mask agree with the kernel afterwards |
| Reactor.Epoll.RemoveChannel | net/Epoll.cpp:93-104 | the delete is refused exactly when the channel was watched, since the descriptor is closed first |
| ByteStreams.SendKeeps | net/TcpConnection.cpp:83-141 | a send keeps the stream invariant: kernel bytes ++ waiting bytes = everything sent until data is dropped after a fatal error, kernel bytes always a prefix, write interest exactly while bytes wait; a write-complete callback is queued only with everything handed over |
| ByteStreams.WriteKeeps | net/TcpConnection.cpp:306-337 | answering write interest keeps it, moves bytes without loss, half-closes and queues a write-complete callback only with nothing left to hand over |
| ByteStreams.CloseKeeps | net/TcpConnection.cpp:368-376 | closing keeps the stream invariant, whatever still waits |
| ByteStreams.SendFigures | net/TcpConnection.cpp:83-141 | a healthy socket with nothing waiting is offered the data of a send and takes as much as it answers; otherwise the data waits whole; the completion is counted exactly if all is taken |
| ByteStreams.WriteFigures | net/TcpConnection.cpp:306-337 | a healthy socket that reports it can take more is offered all that waits and takes as much as it answers; the completion, and on a closing connection the half-close, are counted exactly if that is all |
| Faces.DeedGoesOn | net/TcpConnection.cpp:83-260 | whatever an operation of user code does: history only grows, descriptor and openness stay, and an open connection's sends grow by exactly the data of a send |
| Faces.WritableGoesOn | net/TcpConnection.cpp:306-337 | the same for the answer to write interest, which sends nothing new |
| Faces.WritableAnswers | net/TcpConnection.cpp:306-337 | the same in terms of everything the connection shows: write interest ends exactly then |
| Stories.DidExplained | net/TcpConnection.cpp:83-260 | whatever an operation of user code does to an open connection, its story goes on explaining it: sends, waiting bytes by a pointer into them, input as what was received less what was taken, who asked it first to leave and how, completions and half-closes |
| Stories.WrittenExplained | net/TcpConnection.cpp:306-337 | so does it after an answer to write interest |
| Stories.FedExplained | net/TcpConnection.cpp:284-290 | and after a read |
| Reactor.TcpConnection.SendInLoop | net/TcpConnection.cpp:83-141 | everything the connection shows after any answer of the kernel; a send joins what was sent; with bytes waiting it waits behind them; with nothing waiting a healthy socket takes as much of it as it answers, the rest waits with write interest on, and the completion is queued exactly if there is no rest; nothing happens on a closed connection |
| Reactor.TcpConnection.Attempt | net/TcpConnection.cpp:94-132 | the socket is tried only with nothing waiting; what it took is a prefix |
| Reactor.TcpConnection.Await | net/TcpConnection.cpp:134-141 | the rest waits behind what waited before, with write interest on |
| Reactor.TcpConnection.HandleWrite | net/TcpConnection.cpp:306-337 | no effect on a pooled connection or without waiting bytes; a healthy socket takes as much of what waits as it answers; if that is all, interest ends, the write-complete callback is queued and a closing connection is half-closed; nothing else it shows changes |
| Reactor.TcpConnection.Shutdown | net/TcpConnection.cpp:184-204 | a connected connection is disconnecting and asked to shut down afterwards, half-closed at once if nothing waits and left to the draining write otherwise; no effect unless connected |
| Reactor.TcpConnection.ForceClose | net/TcpConnection.cpp:206-214 | exactly the two open states become disconnecting and have the close queued |
| Reactor.TcpConnection.StartReadInLoop | net/TcpConnection.cpp:236-244 | reading and read interest are on afterwards |
| Reactor.TcpConnection.StopReadInLoop | net/TcpConnection.cpp:252-260 | both are off afterwards |
| Reactor.TcpConnection.Take | net/Buffer.h:65-98 | a user takes bytes from the front of the input, all of them if he asks for more |
| Reactor.TcpConnection.Undergo | net/TcpConnection.cpp:83-260 | any operation of user code on an open connection comes to exactly what the specification says of everything the connection shows |
| Reactor.TcpConnection.ConnectEstablished | net/TcpConnection.cpp:262-270 | connected and watched for reading, nothing else visible changed |
| Reactor.TcpConnection.ConnectReset | net/TcpConnection.cpp:388-399 | a recycled connection shows exactly what a new one shows |
| Reactor.TcpConnection.constructor | net/TcpConnection.cpp:22-45 | what a new connection shows |
| Reactor.TcpConnection.HandleClose | net/TcpConnection.cpp:368-376 | the state assert holds; the connection ends pooled, unregistered and with its descriptor closed; whether the kernel refused the delete |
| Reactor.TcpConnection.ConnectDestroyed | net/TcpConnection.cpp:272-282 | descriptor closed, registration gone, the object moved from its slot to the pool; the connection callback is called exactly if it was still connected |
| Reactor.TcpConnection.HandleRead | net/TcpConnection.cpp:284-304 | the connection closes exactly on an empty read and a failed read changes nothing; otherwise exactly what the kernel delivered is stored, and then exactly the operations of the callback run, on whatever open connections they name |
| Reactor.TcpConnection.ReadSome | net/TcpConnection.cpp:284-290 | the input is what it was followed by exactly what the kernel delivered; a closed descriptor delivers nothing |
| Reactor.TcpConnection.HandleEvent | net/Channel.cpp:44-70 | for every event mask, read result, write result and callback: the loop goes to exactly the state the specification gives; the connection closes exactly on a hang-up without input or an empty read, once |
| Reactor.TcpConnection.ForceCloseInLoop | net/TcpConnection.cpp:216-223 | safe at any time: closes an open connection, leaves a pooled one alone |
| Reactor.TcpConnection.StaysPut | net/Epoll.cpp:67-91 | work on one connection under its descriptor keeps the invariant of the whole loop |
| Reactor.TcpConnection.StaysClosed | net/Epoll.cpp:93-104 | so does its closing |
| Reactor.TcpConnection.StaysOpened | net/Epoll.cpp:124-149 | so does the beginning of a life, new or recycled |
| Lives.BeginsKeeps | net/Epoll.cpp:127-134 | after a connection begins a life, every waiting request to close is by a present life if and only if that was so before and none was waiting for this connection |
| Lives.ServesKeeps | net/TcpConnection.cpp:206-223 | a request carried out while all are by present lives ends, if anything, the life that made it |
| Lives.ServesRequests | net/EventLoop.cpp:148-162 | carrying a request out takes none away from, and reorders none of, the requests made so far |
| Lives.CarriesKeeps | net/TcpConnection.cpp:206-214 | handlers and user code begin no life and only add requests by present lives; within a life the history of sends and accepted bytes only grows |
| Loops.World.ScriptGoesOn | net/TcpConnection.cpp:83-260 | user code of any length begins and ends no life, and each connection's story goes on by exactly the operations addressed to its descriptor while it was open, in order |
| Loops.World.HandledFollows | net/Channel.cpp:44-70 | an event ends the connection if and only if its mask or its read says so, and no other; otherwise the story goes on by the bytes read, the operations of the callback and, if the mask says so, the answer to a write |
| Loops.World.WriteAnswered | net/Channel.cpp:64-68 | a write event at an open connection with bytes waiting and a healthy socket hands over as many of them as the socket takes; if that is all, interest ends, the completion is counted and a closing connection is half-closed with everything sent |
| Loops.EventBits | net/Channel.cpp:44-70 | the bits of the event mask that end a connection, bring it data, or let it write |
| Loops.World.DispatchFollows | net/EventLoop.cpp:74-78 | in a dispatch exactly the connections whose own events end them close, in that order, each still in its slot when its turn comes; every story goes on by exactly what the events and their callbacks do to whoever is still there |
| Loops.World.BegunFollows | net/Epoll.cpp:124-149 | a new life, recycled or first, begins in an empty slot with a fresh face, displaces nobody and leaves every other connection as it was |
| Loops.World.ServedFollows | net/TcpConnection.cpp:206-223 | a request carried out ends at most the present life of its connection and sends nothing |
| Loops.World.StepFollows | net/EventLoop.cpp:62-162 | every step keeps slots, pool and ledger in order; the story of whoever stays in his life goes on by exactly what the step does to him, and whoever begins one has no other story |
| Loops.World.OneAct | net/TcpConnection.cpp:83-260 | an operation from outside any event reaches the open connection it names |
| Loops.World.OneEvent | net/Channel.cpp:44-70 | an event with a quiet callback delivers what was read and answers what was asked |
| Loops.World.OneBirth | net/Epoll.cpp:124-149 | a new connection's callback reaches it |
| Loops.World.StepImproves | net/EventLoop.cpp:62-162 | within a life histories only grow; no request to close is lost, repeated or reordered; a step that takes nobody from the pool with a request waiting leaves every request to the life that made it |
| Loops.RunOrderly | net/EventLoop.cpp:62-162 | the same over runs of any length |
| Loops.LifeLong | net/TcpConnection.cpp:83-141 | over any stretch of a run within one life, the story goes on by exactly what the schedule has happen to that connection, in order |
| Loops.WholeLife | net/TcpConnection.cpp:83-141 | from its first moment, the story of a life is exactly that |
| Reactor.Epoll.constructor | net/Epoll.cpp:9-18 | the empty loop satisfies the invariant |
| Reactor.Epoll.WorldOrderly | net/Epoll.cpp:56-149 | in every reachable state, slots hold exactly the open connections under their own descriptors, and the pool holds closed ones, each once |
| Reactor.Epoll.ReportableSame | net/Epoll.cpp:56-65 | what the kernel may report is exactly the descriptors whose connections are marked as added |
| Reactor.Epoll.CreateConnection | net/Epoll.cpp:124-149 | recycled or new, the connection looks the same: connected, empty, and watched for reading and not for writing; taken from the pool's end when there is one; no open connection is displaced and no other changes; its life number goes up |
| Reactor.Epoll.NothingAt | net/Epoll.cpp:130-145 | a descriptor that was closed has neither a connection nor a registration left |
| Reactor.Epoll.Dispatch | net/EventLoop.cpp:74-78 | the loop goes to exactly the state the specification gives for the events as the kernel answered them; exactly the connections whose own event or read ends them close, in the order of their events, whatever callbacks did to them before their turn; they join the pool in that order, from which nothing is taken |
| Reactor.Epoll.FillActiveChannels | net/Epoll.cpp:56-65 | each reported channel belongs to the open connection of its descriptor; nothing changes but the reported masks |
| Reactor.Epoll.OneHome | net/Epoll.cpp:93-149 | every connection ever made is in exactly one of the pool and its own slot, and a pooled one has no registration |
| Reactor.Epoll.Agreement | net/Epoll.cpp:67-122 | every channel is marked added exactly when the kernel watches it, under its own descriptor and with its own mask |
| Reactor.Epoll.Watched | net/Epoll.cpp:56-65 | whatever the kernel watches is the channel of an open connection, with its mask |
| Reactor.Epoll.OwnDescriptor | net/Epoll.cpp:124-149 | no two open connections share a descriptor |
| Reactor.Epoll.ClosedOnce | net/TcpConnection.cpp:206-376 | in every reachable state the close handler ran once in this life if it is over, and not at all if not |
| Reactor.Epoll.Integrity | net/TcpConnection.cpp:83-337 | in every reachable state, for every connection: bytes taken by the kernel ++ bytes waiting = everything sent unless data was dropped after a fatal error, bytes taken always a prefix; write interest exactly while bytes wait; half-closed at most once, with everything sent by then handed over, and surely once a shut-down connection has drained |
| Reactor.Epoll.Explains | net/TcpConnection.cpp:83-376 | in every reachable state, what every connection shows is explained by its story |
| Reactor.Epoll.Graceful | net/TcpConnection.cpp:184-204 | once a connection's user has shut it down before anything else made it leave, it is never connected again, and whenever it is open with nothing waiting its sending side has been shut, once |
| Reactor.Epoll.Do | net/TcpConnection.cpp:184-260 | an operation of user code, whoever calls it: the open connection of the descriptor shows exactly what the specification says, a forced close is queued by the life it is meant for, and no other connection changes at all |
| Reactor.Epoll.Perform | net/TcpConnection.cpp:83-260 | the same for any number of operations in a row |
| Reactor.Epoll.NextPending | net/TcpConnection.cpp:206-223 | the oldest request is carried out and logged: it ends the connection's present life, whichever that is, unless it is closed; every other connection stays as it was |
| Reactor.Epoll.Misfire | net/Epoll.cpp:127-134 | if a connection is taken from the pool with a request waiting for it, the requests already queued end its new life at the bidding of an earlier one |
| Reactor.Epoll.StaleForceClose | net/TcpConnection.cpp:206-223 | from an empty loop: connect, two forced closes, recycle, and the second one ends the second life |
| Reactor.Epoll.EndToEnd | net/TcpConnection.cpp:83-337 | from the beginning of a life to any later state of it, over any run: its story is exactly what the schedule has had happen to it; so what the socket has taken is a prefix of what the scripts have sent to it, and with what waits it is all of it unless data was given up after a fatal error; the input is what the reads have delivered less what the user has taken; and once it was shut down and nothing waits, its sending side has been shut |
| Reactor.Epoll.Run | net/EventLoop.cpp:69-80 | for every mixture of dispatches, new connections, forced closes and other callbacks: the loop goes exactly through the states of the specification; the invariant holds from which `Integrity`, `Agreement`, `OneHome`, `OwnDescriptor` and `ClosedOnce` follow for every connection at once; within a life histories only grow; requests to close are carried out in the order made, each once, and none is lost; and if no connection is taken from the pool while a request for it waits, every request ends, if anything, the life that made it |

## Left out

- System calls, socket options, address handling, TcpServer and its acceptor: their results are
  parameters.
- The `sendFile_` branches (net/TcpConnection.cpp:142-181, 338-364): they do not keep the stream
  property.
- The public `send` overloads (net/TcpConnection.cpp:52-81), whose meaning the C++ leaves unclear.
- Callbacks as stored functions: a callback is an arbitrary list of operations on open connections.
  Message and connection callbacks run inside the step that calls them; those of timers, functors and
  write completions are steps of their own (`Acting`), which a schedule may put anywhere, and
  write-complete callbacks are counted when they are queued.
- `shutdown` called from another thread, which the source's comment forbids and which could half-close
  twice.
- Reactor.Epoll.Run: does not repeat the batch structure of the functor queue, which `EventLoops`
  proves; a phase of functors is a stretch of forced closes and other callbacks in the order queued, and
  such steps and new connections may come in any order between dispatches.
- `startRead` and `stopRead` through a pointer kept after the connection closed; user operations reach
  open connections only.
- The wakeup and timer channels in the epoll table: registered once, never recycled. Their removal
  in the destructors, which would push an empty entry into the connection pool, is not part of this
  model.
- EventLoops.EventLoop.Turn: the loop thread's own push and the test after it are one step there; `Run`
  separates them.
- A closed descriptor number taken up by another thread before the same event's read callback.
- `ThreadSafeQueue::notify_all`, `empty` and the liveness of a blocked pop: only safety is claimed.
- Draining the logger at `stop`, and partial writes of the log file.
- AsyncLoggers.AsyncLogger.Wake: the timed wait may end at any moment; time itself is not modelled.
- `EventLoop::quit` before `loop`, which `loop` resets.
- Lifetime of timers behind weak pointers: a handle to a vanished timer is a null handle.
- Searching the buffer for line ends, thread and latch classes, thread pools, the round-robin
  selector, floating-point and wall-clock formatting: library-bound or easy.
