# tcode, modelled and proved

tcode is a C++ network library. This project models its hardest parts and proves what they promise:

- **The proactor** (`Proactor*.dfy`): `epoll.cpp` with the engine count of `engine.cpp`, as a step system in which
  any number of submitting threads interleave with one loop thread and the kernel. A submission is
  a reference, a push under a lock, a count bump and a wake byte, each a step of its own. The theorems hold
  in every state of every run. `ProactorErrors.dfy` says with which error each operation finishes;
  `ProactorWitness.dfy` holds the runs that show where the guarantees end. `ProactorLoop.dfy` is
  the loop thread's own code, as a class whose methods take only steps of the protocol, and `Engine.dfy` puts it
  together with the timers into `engine::run`.
- **The timer scheduler** (`Timers.dfy`): the ordered list of `engine.cpp`, cancel by closure, catch-up of repeating
  timers, shared reference counts, and the wait computed from the list.
- **The intrusive queue** (`SList.dfy`): `slist.hpp` on real nodes and pointers.
- **The dense index of `poll.cpp`** (`PollIndex.dfy`): swap-removed parallel vectors and the interest bits.
- **Blocks, buffers and records** (`Blocks.dfy`, `Records.dfy`): pooled reference-counted blocks, the byte buffer over
  them and the log record codec over the buffer.
- **Codecs and the calendar** (`Base64.dfy`, `Crc32.dfy`, `Calendar.dfy`): bit-accumulator Base64 against section 4 of
  RFC 4648, table-driven CRC-32 against section 8 of RFC 1952, and date conversion against section 4.16 of the
  IEEE Std 1003.1-2017 Base Definitions.

`dafny verify dfyconfig.toml` checks the whole project.

Seven promises turned out to hold only under a condition. Each has a concrete failing case and the exact condition:

- `engine::run` may return while an entry is queued: exactly when a submitter is between push and count bump. Every
  operation has then finished exactly once if and only if, besides, no thread has one in its hands
  (`ReturnsWhenDone`; a failing run: `ReturnsEarly`).
- A transfer that answers "not yet" after moving some bytes loses readiness under edge triggering: a run keeps every
  ready waiting direction attended if and only if none of its steps is such an answer with no other dispatch to come
  (`PartialLoses`, `ReadinessAlways`; a failing run: `PartialStrands`).
- In `poll.cpp` a submission that runs after the unbind closure rewrites the slot its descriptor once had. It may clear
  the interest of the slot's new owner (exactly when: `InterestStep`, `InterestAlways`; a failing run:
  `LateReadDeafens`) or write past the vector (exactly when: `BoundsAlways`; a failing run: `LateReadOutOfBounds`).
- The wait passed to `epoll_wait` is cut to 32 bits; a timer due in 2^31 ms or more can make the loop
  block for ever (`WaitForever`; exactly when: `WaitInTime`).
- The byte buffer's cursor moves cast to `int`. From every position they keep the cursors in order exactly for
  capacities below 2^31 (`CursorMoves`); from a fresh buffer, exactly when the cast of the capacity is not negative
  (`FreshMoves`; the first failing buffer: `FirstFailure`).
- `push_front` on an empty queue leaves a well-formed queue exactly when the node's link is null (`PushFront`; why no
  sequence fits otherwise: `LoneNode`).
- Date conversion cuts the day count to 32 bits; the result satisfies the POSIX formula exactly when the count fits
  (`ConvertTo`; the first failing time: `FirstWrong`).

## Model

| member | source | states |
|---|---|---|
| ProactorTheorems.RunGood | src/io/epoll.cpp:44-123 | the whole invariant (counts, places, order, wake-ups, aborts) holds in every state of every run |
| ProactorTheorems.ExactlyOnePlace | src/io/epoll.cpp:125-211 | in every reachable state each submitted operation is in exactly one place: submitter, queued closure, live descriptor queue, run queue or finished |
| ProactorTheorems.FinishedStays | src/io/epoll.cpp:482-500 | what has finished stays finished, in the same order |
| ProactorTheorems.FinishesAtMostOnce | src/io/epoll.cpp:482-500 | no operation finishes twice |
| ProactorTheorems.RefcountExact | src/io/epoll.cpp:427-443 | a live descriptor's count is its handle plus in-flight submitters plus queued and running closures; a freed one has no reference |
| ProactorTheorems.NoUseAfterFree | src/io/epoll.cpp:439-480 | no step of any run reads or writes a freed descriptor |
| ProactorTheorems.BatchAlive | src/io/epoll.cpp:52-66 | no entry of the current event batch names a freed or deregistered descriptor |
| ProactorTheorems.FreedForever | src/io/epoll.cpp:439-468 | a descriptor is freed at most once |
| ProactorTheorems.NothingLeftBehind | src/io/epoll.cpp:439-468 | the step that frees a descriptor drops its only reference; every operation still waiting is posted again, in order, with the error it already carried, and with "aborted" exactly when it carried none |
| ProactorTheorems.EngineCount | src/io/engine.cpp:92-98 | the count plus a submitter between push and bump equals live descriptors plus queued and unstarted entries; it is never negative |
| ProactorTheorems.ReturnsWhenDone | src/io/engine.cpp:17-23 | whenever run returns, no descriptor and no swapped-out entry is left; the queue is empty if and only if no thread is between push and bump; every operation has finished exactly once if and only if the queue is empty and no thread has an operation in its hands |
| ProactorWitness.ReturnsEarly | src/io/epoll.cpp:295-298 | a reachable state in which run may return with an entry queued, since its count is not yet bumped |
| ProactorTheorems.WakeUpNeverLost | src/io/epoll.cpp:60-86 | a non-empty run queue always has a byte in the pipe, a submitter about to write one, or a loop about to swap |
| ProactorTheorems.ReadinessNeverLost | src/io/epoll.cpp:470-500 | if post_proc answers false only when the call would block, a waiting operation on a ready open direction has an undelivered edge or a dispatch to come |
| ProactorTheorems.PartialLoses | src/io/epoll.cpp:482-500 | after a partial answer readiness is kept if and only if the direction has another dispatch to come |
| ProactorTheorems.ReadinessAlways | src/io/epoll.cpp:470-500 | a run keeps every ready waiting direction attended in all its states if and only if none of its steps is a partial answer with no other dispatch to come |
| ProactorWitness.PartialStrands | src/io/ip/tcp/operation_write.cpp:60-64 | a reachable state in which a partial answer leaves a ready descriptor with a waiting operation and nothing to come |
| ProactorTheorems.ClosuresRunInOrder | src/io/epoll.cpp:67-79 | closures run in push order over whole runs |
| ProactorTheorems.OperationsFinishInOrder | src/io/epoll.cpp:439-500 | operations of one descriptor and direction finish in the order they joined its queue, across completion, close, late submission and abort |
| ProactorLifetime.KeepCore | src/io/epoll.cpp:44-123 | every step keeps counts, lock, wake-up and batch invariants |
| ProactorPlaces.KeepPlaces | src/io/epoll.cpp:439-500 | every step moves each operation from one place to one place, or leaves it |
| ProactorOrder.KeepFiled | src/io/epoll.cpp:470-480 | every step keeps each waiting operation in the queue of its own descriptor and direction |
| ProactorOrder.KeepLine | src/io/epoll.cpp:439-500 | every step keeps joined operations in line: finished, then being aborted, then waiting |
| ProactorOrder.KeepPushOrder | src/io/epoll.cpp:67-79 | every step keeps pushed entries equal to started, swapped out, then queued |
| ProactorReadiness.KeepReadiness | src/io/epoll.cpp:482-500 | every step but a partial answer keeps a dispatch or edge for each ready waiting direction |
| ProactorReadiness.KeepAborts | src/io/epoll.cpp:446-455 | every step keeps an error on each operation requeued by a dead descriptor |
| ProactorErrors.CompletionError | src/io/epoll.cpp:488-493 | an attempt that completes finishes the operation at the front with the error it answered, which never changes again |
| ProactorErrors.ErrorSettled | src/io/epoll.cpp:300-303 | an operation that waits to be called finishes with the error it was posted with, and keeps it |
| ProactorErrors.ExecuteError | src/io/epoll.cpp:117-123 | an executed operation finishes with the error it was executed with |
| ProactorErrors.BlockedError | src/io/epoll.cpp:338-343 | an attempt that would block finishes nothing and leaves its operation without an error |
| ProactorErrors.ErrorsStay | src/io/epoll.cpp:446-455 | no step writes an error but a submission, an attempt, a failed bind and the end of a descriptor, each to its own operations |
| ProactorErrors.ClosedForever | src/io/epoll.cpp:103-111 | once its closing closure has started, a descriptor is closed and deregistered for good |
| ProactorErrors.LateCompletes | src/io/epoll.cpp:305-347 | every attempt on it from then on completes |
| ProactorErrors.DirectionOrder | src/io/epoll.cpp:446-487 | directions are dispatched and drained in the order read, write, priority |
| ProactorErrors.PipeRead | src/io/epoll.cpp:60-66 | one read of the pipe takes at most 256 bytes |
| ProactorErrors.SubmitPosts | src/io/epoll.cpp:156-174 | a submission takes one reference and is posted for its own descriptor and direction |
| ProactorErrors.CarriedPosts | src/io/epoll.cpp:252-278 | a datagram write that opened its descriptor is posted as a write on it |
| ProactorErrors.ConnectWaits | src/io/epoll.cpp:125-154 | connect queues its operation for writing before it binds |
| ProactorErrors.JoinStarts | src/io/epoll.cpp:470-480 | a started submission goes to the end of the queue of its direction, and that direction is dispatched |
| ProactorLoop.LoopThread.Take | src/io/epoll.cpp:44-81 | the thread's history stays a run of the protocol |
| ProactorLoop.LoopThread.TryFront | src/io/epoll.cpp:488-497 | one attempt either pops and calls the front operation, with the error answered, or leaves the direction and finishes nothing |
| ProactorLoop.LoopThread.DispatchAll | src/io/epoll.cpp:482-500 | dispatch ends for every sequence of answers, touching neither run queue nor pipe; on a closed descriptor, or when no answer is "not yet", every dispatched direction ends up empty |
| ProactorLoop.LoopThread.PostAll | src/io/epoll.cpp:458-466 | drained operations are appended to the run queue in order, followed by one wake byte |
| ProactorLoop.LoopThread.ReleaseCur | src/io/epoll.cpp:439-468 | only the last release posts, and it posts exactly the waiting operations in order, with a wake byte |
| ProactorLoop.LoopThread.StartItem | src/io/epoll.cpp:300-303 | an entry is called at once, joins its queue, or closes its descriptor |
| ProactorLoop.LoopThread.RunItem | src/io/epoll.cpp:72-78 | a closure runs to the end of its release; whatever it queues has a wake byte |
| ProactorLoop.LoopThread.RunOps | src/io/epoll.cpp:67-79 | the drain loop ends and has started every swapped-out closure, in order |
| ProactorLoop.LoopThread.RunBatch | src/io/epoll.cpp:52-66 | the event loop ends, starting no closure, and remembers the wake byte |
| ProactorLoop.LoopThread.Turn | src/io/epoll.cpp:44-81 | a turn polls once; one that the wake byte reaches starts every closure that was queued; what it queues again has a wake byte |
| Engine.Runner.Turn | src/io/engine.cpp:19-22 | a turn polls exactly once; if the wake byte is among the events delivered it starts every queued closure in order, and otherwise none; every timer closure that waited has been run, and nothing listed is due |
| Engine.Runner.Stop | src/io/engine.cpp:17-23 | run returns with no timer listed, no descriptor left, and the queue and operations as ReturnsWhenDone says |
| Engine.Runner.Run | src/io/engine.cpp:17-23 | one poll for each turn, and run stops exactly when neither the count nor the timer list keeps it going |
| Timers.InsertOrdered | src/io/engine.cpp:32-37 | inserting at the upper bound keeps due order with ties in scheduling order |
| Timers.TimerEngine.NewTimer | src/io/timer.cpp:8-12 | a new id is referenced by its owner alone |
| Timers.TimerEngine.DropTimer | src/io/timer.cpp:14-16 | the owner's reference goes; a listed or awaited id lives on |
| Timers.TimerEngine.SetDue | src/io/timer.cpp:22-25 | the due time of an unlisted timer changes and nothing else |
| Timers.TimerEngine.ScheduleInLoop | src/io/engine.cpp:29-37 | the id goes after every entry not due later, with a reference of its own |
| Timers.TimerEngine.ScheduleFromOutside | src/io/engine.cpp:38-43 | the id waits in a closure that keeps it alive |
| Timers.TimerEngine.CancelTimer | src/io/timer.cpp:41-44 | nothing when only the owner refers to the id, else a closure that keeps it alive |
| Timers.TimerEngine.RunClosure | src/io/engine.cpp:39-56 | a schedule closure lists its id and nothing else; a cancel closure calls back "aborted" once if and only if the id is listed, then only insertions follow, and whatever the callback does, other entries stay with their times and new ones are those it fired |
| Timers.TimerEngine.RunPending | src/io/engine.cpp:38-56 | exactly the timer closures waiting at the start are run, in order |
| Timers.TimerEngine.ReleaseHeld | src/io/timer_id.cpp:19-23 | the id is deleted exactly with its last reference |
| Timers.TimerEngine.Take | src/io/engine.cpp:64-66 | an entry leaves the list by exactly one callback |
| Timers.TimerEngine.Perform | src/io/timer.cpp:22-44 | an action of a callback takes effect: a lawful fire lists the timer at the time asked for, cancel queues its closure, destroying and creating a timer change its ownership |
| Timers.TimerEngine.Callback | src/io/engine.cpp:66-66 | all actions of the callback are taken in order, and whatever they are, listed timers stay listed with their times, and what is newly listed is due later |
| Timers.TimerEngine.FireFront | src/io/engine.cpp:63-71 | one expiry shrinks the measure; a repeating timer is back at its next grid point |
| Timers.TimerEngine.Drain | src/io/engine.cpp:59-76 | the drain ends with nothing due and expiries in due order; a timer with a period of at least 1000 µs that is due expires (ts - due) / repeat + 1 times and is listed at its first grid point past ts; one with a shorter period expires once and is listed again only if a callback fired it; each expiry plays its callback |
| Timers.ExpiriesExact | src/io/engine.cpp:67-70 | the closed count (ts - due) / repeat + 1 is the number of grid points up to ts |
| Timers.TrackedStep | src/io/engine.cpp:63-71 | an expiry moves its timer one grid point and no other timer |
| Timers.TimerEngine.NextWakeUp | src/io/engine.cpp:78-86 | the sleep is one second on an empty list, else exactly the time to the first due timer, so it passes no due time |
| Timers.WaitClose | src/io/epoll.cpp:44-50 | while the millisecond count fits, the wait falls short of the sleep by less than a millisecond |
| Timers.WaitInTime | src/io/epoll.cpp:44-50 | the wait ends by the due time if and only if bit 31 of the millisecond count is clear |
| Timers.WaitForever | src/io/epoll.cpp:44-50 | a timer due in 2^31 ms makes the wait endless; every shorter one ends in time |
| SList.LinkedUnique | include/tcode/slist.hpp:115-123 | a head pointer stands for at most one sequence |
| SList.LinkedAcyclic | include/tcode/slist.hpp:115-123 | a walk that ends in null visits no node twice |
| SList.LinkedMeet | include/tcode/slist.hpp:125-136 | two walks that share a node share their end |
| SList.LoneNode | include/tcode/slist.hpp:81-88 | a node with a link is never both first and last |
| SList.Queue.constructor | include/tcode/slist.hpp:39-45 | the tail search ends, and the queue is the chain |
| SList.Queue.PushBack | include/tcode/slist.hpp:71-79 | append, whatever the node's link was |
| SList.Queue.PushFront | include/tcode/slist.hpp:81-88 | prepend; the queue is well formed if and only if it was not empty or the node's link was null |
| SList.Queue.PopFront | include/tcode/slist.hpp:99-109 | the first node leaves with a null link; nothing on an empty queue |
| SList.Queue.Front | include/tcode/slist.hpp:90-92 | the first node or null |
| SList.Queue.Empty | include/tcode/slist.hpp:111-113 | true exactly for the empty sequence |
| SList.Queue.Size | include/tcode/slist.hpp:115-123 | the walk ends, with the length of the sequence |
| SList.Queue.Splice | include/tcode/slist.hpp:125-136 | concatenation that empties its argument; spliced onto itself a queue is emptied and its nodes form a ring |
| SList.Queue.MoveFrom | include/tcode/slist.hpp:63-69 | the sequence moves and the source is empty; moved onto itself a queue is emptied |
| SList.Queue.DisjointEnds | include/tcode/slist.hpp:125-136 | queues with different last nodes share none |
| SList.DrainAll | src/io/epoll.cpp:72-78 | popping until empty yields every node once, in order, unlinked |
| PollIndex.SubmitEffect | src/io/poll.cpp:236-258 | a submission goes to the end of its own queue, from whose front operations then complete; nothing else changes |
| PollIndex.RetriedSuffix | src/io/poll.cpp:80-88 | completed operations leave from the front of the queue |
| PollIndex.StepIndex | src/io/poll.cpp:150-195 | every step keeps the vectors parallel and every pollidx equal to its slot |
| PollIndex.UnboundIndex | src/io/poll.cpp:169-191 | swap-remove keeps the index and removes the descriptor |
| PollIndex.IndexAlways | src/io/poll.cpp:150-195 | so in every run, for every order of bind and unbind closures |
| PollIndex.InterestStep | src/io/poll.cpp:74-94 | a step keeps every needed interest bit if and only if it is not a late submission that robs the slot's new owner |
| PollIndex.InterestAlways | src/io/poll.cpp:74-94 | a run keeps the bits in all its states if and only if none of its steps is such a submission |
| PollIndex.BoundsAlways | src/io/poll.cpp:92-93 | all writes of a run are in bounds if and only if no submission finds its descriptor unlisted with a slot past the vector |
| PollIndex.TimelySubmissions | src/io/poll.cpp:236-258 | if submissions run before their unbind closure, bits stay set and every write is in bounds |
| PollIndex.LateReadDeafens | src/io/poll.cpp:92-93 | from a reachable state, a late read clears the interest of another descriptor that is waiting |
| PollIndex.LateReadOutOfBounds | src/io/poll.cpp:92-93 | from a reachable state, a late read writes past the vector |
| PollIndex.Poll.BindClosure | src/io/poll.cpp:150-160 | the closure appends a slot the descriptor knows |
| PollIndex.Poll.UnbindClosure | src/io/poll.cpp:169-191 | search, swap and pop are the swap-remove of the model |
| PollIndex.Poll.CompleteEvents | src/io/poll.cpp:74-94 | ready queues are retried and the slot's bits are those of the queues left |
| PollIndex.Poll.Dispatch | src/io/poll.cpp:117-128 | dispatch moves no slot, retries each queue exactly when its event came, and keeps index and bits |
| PollIndex.RetryQueue | src/io/poll.cpp:80-88 | operations pop until one would block; on a closed descriptor all of them |
| Blocks.Granted | src/block.cpp:32-47 | the capacity is the smallest class that fits, or the size itself above 16384 |
| Blocks.SizeTable | src/block.cpp:9-12 | the classes are the entries of the size table |
| Blocks.GrantedClass | src/block.cpp:64-77 | the capacity alone tells the class a block came from |
| Blocks.CursorMoves | src/byte_buffer.cpp:105-133 | both cursor moves keep 0 <= read <= write <= capacity from every state if and only if the capacity is below 2^31 |
| Blocks.FreshMoves | src/byte_buffer.cpp:105-133 | from a fresh buffer every sequence of cursor moves is safe if and only if the capacity, cast to int, is not negative |
| Blocks.FirstFailure | src/byte_buffer.cpp:39-42 | a buffer created with 2^31 bytes breaks at the first move of its write cursor, by nothing |
| Blocks.Memory.Alloc | src/block.cpp:32-47 | a block nobody referenced comes into use once, the last one of its pool if that has any and a new one otherwise; every other block is untouched |
| Blocks.Memory.AllocPooled | include/tcode/fixed_size_allocator.hpp:39-50 | a pooled block leaves its pool |
| Blocks.Memory.Free | src/block.cpp:64-77 | one reference goes; with the last one the block is returned exactly once, to the end of the pool of its size unless that is over the threshold, and else to malloc |
| Blocks.Memory.FreeToPool | include/tcode/fixed_size_allocator.hpp:52-72 | the block goes to the pool of its size unless that holds more than 4096; the trimming loop never runs |
| Blocks.Memory.Duplicate | src/block.cpp:93-99 | one more reference, same bytes |
| Blocks.Memory.Create | src/byte_buffer.cpp:34-37 | an empty buffer without a block |
| Blocks.Memory.CreateSized | src/byte_buffer.cpp:39-42 | an empty unshared buffer of the granted capacity |
| Blocks.Memory.CreateFrom | src/byte_buffer.cpp:44-48 | a buffer holding exactly the bytes |
| Blocks.Memory.Copy | src/byte_buffer.cpp:50-55 | the copy shares block and cursors |
| Blocks.Memory.Move | src/byte_buffer.cpp:57-63 | the block changes hands and the source is empty |
| Blocks.Memory.Assign | src/byte_buffer.cpp:65-71 | the target becomes the source, self-assignment included; other buffers read the same |
| Blocks.Memory.MoveAssign | src/byte_buffer.cpp:73-83 | the target becomes the source and the source is empty, so moving a buffer onto itself loses its content |
| Blocks.Memory.Destroy | src/byte_buffer.cpp:85-87 | the buffer goes and its reference with it |
| Blocks.Memory.Swap | src/byte_buffer.cpp:89-92 | blocks and cursors change places |
| Blocks.Memory.MoveWriteCursor | src/byte_buffer.cpp:105-115 | the write cursor moves as far as room or content allow |
| Blocks.Memory.MoveReadCursor | src/byte_buffer.cpp:123-133 | the read cursor moves as far as content or the block's start allow |
| Blocks.Memory.Fit | src/byte_buffer.cpp:135-140 | the content moves to the front unchanged, read cursor at 0; only sharers of the block can notice |
| Blocks.Memory.ShrinkToFit | src/byte_buffer.cpp:142-151 | the same content in the smallest block, unshared; no other buffer notices; the answer is the old read cursor |
| Blocks.Memory.Clear | src/byte_buffer.cpp:163-165 | both cursors at the start |
| Blocks.Memory.Reserve | src/byte_buffer.cpp:167-177 | a block held alone with more than sz bytes stays as it is; otherwise a fresh block of the granted capacity takes the first bytes of the content; in either case unshared, with room for sz bytes, and no other buffer notices |
| Blocks.Memory.Read | src/byte_buffer.cpp:179-183 | removes exactly the prefix it returns |
| Blocks.Memory.Peek | src/byte_buffer.cpp:185-189 | the prefix, without removing it |
| Blocks.Memory.Write | src/byte_buffer.cpp:191-195 | appends the prefix that fits; a sharer that has not written past the cursor sees no change |
| Blocks.Memory.WriteAll | src/byte_buffer.cpp:191-195 | no number of writes to an unshared buffer alters any other |
| Blocks.Memory.DeepCopy | src/byte_buffer.cpp:237-239 | the same content in a block of its own |
| Blocks.Memory.CountIsOwners | src/block.cpp:86-99 | a block's count is the number of buffers holding it, and a pooled block has no holder |
| Blocks.Memory.Run | src/block.cpp:32-110 | over any program of buffer operations: counts equal holders, pooled and live are disjoint, pools hold blocks of their own size and at most 4097 of them, and every block taken came back once or is in use |
| Records.Layout | src/log/record.cpp:40-50 | offset and width of every field: tick, type, line and thread in bytes 0 to 23, lowest bytes first, then four strings with two bytes of length each |
| Records.FieldRoundTrip | src/log/record.cpp:45-63 | a length-prefixed string comes back, with the bytes after it left |
| Records.HeaderRoundTrip | src/log/record.cpp:40-58 | the fixed fields come back |
| Records.RoundTrip | src/log/record.cpp:40-65 | decoding an encoded record gives an equal record, whatever the target held, and leaves the following bytes |
| Records.EncodeInjective | src/log/record.cpp:40-50 | no encoding is a prefix of another record's data |
| Records.Encode | src/log/record.cpp:40-50 | at most 2620 bytes |
| Records.WriteRecord | src/log/record.cpp:40-50 | the buffer receives the encoding, or the prefix of it that fits |
| Records.ReadRecord | src/log/record.cpp:52-65 | reading is parsing the content, wherever it stays inside data and arrays |
| Records.Format | src/log/serialize_formatter.cpp:13-16 | the buffer has room for 8192 bytes, and a cleared one holds the whole encoding |
| Records.Transmit | src/log/serialize_formatter.cpp:13-16 | format and read back gives the same record and an empty buffer |
| Base64.AlphabetTable | src/base64.cpp:6-6 | the ranges of the alphabet are the table, entry by entry |
| Base64.ReverseTable | src/base64.cpp:7-16 | the same for the reverse table |
| Base64.TablesInverse | src/base64.cpp:6-16 | the reverse table undoes the table |
| Base64.SkippedExactly | src/base64.cpp:61-63 | the decoder passes over the six white-space characters and padding, and nothing else |
| Base64.Rfc4648Groups | src/base64.cpp:32-48 | four characters for every three bytes begun, spelled out group by group with the padding of the last one |
| Base64.JoinOutside | src/base64.cpp:64-67 | a character outside the alphabet sets bit 6 of the accumulator and leaves every other bit |
| Base64.Encode | src/base64.cpp:24-50 | the 32-bit accumulator encoder is the 24-bit group definition, up to 1024968 bytes, and empty above |
| Base64.EmitDigit | src/base64.cpp:37-43 | each digit written is the next six bits of the input |
| Base64.Decode | src/base64.cpp:52-75 | the bytes are those of the 24-bit groups of the values; nothing else in the buffer changes; the length is three quarters of the values |
| Base64.RoundTrip | src/base64.cpp:24-75 | decoding an encoding with white space inserted anywhere gives back bytes and length |
| Base64.Receive | src/base64.cpp:52-75 | decoding into an array an encoding with white space inserted anywhere gives back the bytes |
| Base64.Transmit | src/base64.cpp:24-75 | encoding and then decoding into an array is the identity up to 1024968 bytes |
| Base64.EncodingInjective | src/base64.cpp:24-50 | no two strings share an encoding |
| Crc32.Bits8Split | src/crc32.cpp:85-89 | eight bit steps of the division are a shift plus the division of the low byte |
| Crc32.TableRight | src/crc32.cpp:6-75 | every table entry is eight bit steps on its index |
| Crc32.TableStep | src/crc32.cpp:85-89 | the table step is the bit-by-bit step |
| Crc32.Sum.Update | src/crc32.cpp:85-89 | the state is the bit-by-bit division of the bytes; a size below one does nothing |
| Crc32.Sum.Value | src/crc32.cpp:91-93 | the complement of the state |
| Crc32.Sum.Reset | src/crc32.cpp:95-97 | the starting state |
| Crc32.FoldConcat | src/crc32.cpp:85-89 | feeding pieces is feeding their concatenation |
| Crc32.Chunked | src/crc32.cpp:78-97 | however a string is cut into updates, the value is the CRC of the whole |
| Crc32.OneByteDetected | src/crc32.cpp:85-93 | two strings that differ in exactly one byte never share a value |
| Crc32.FoldWord | src/crc32.cpp:85-89 | four byte steps are thirty-two bit steps on the state mixed with the word |
| Crc32.CheckValue | src/crc32.cpp:78-97 | the value of the nine digits is 0xCBF43926 and that of the empty string 0 |
| Crc32.BurstDetected | src/crc32.cpp:85-93 | two strings whose differences lie within four consecutive bytes never share a value |
| Calendar.IsLeapYear | src/time/util.cpp:11-22 | the Gregorian rule |
| Calendar.DaysBetweenYears | src/time/util.cpp:24-34 | the sum of the year lengths, zero when the range is empty |
| Calendar.DaysBetweenMonths | src/time/util.cpp:36-47 | the difference of the table's days before the months, zero when the range is empty |
| Calendar.MonthLengthTable | src/time/util.cpp:6-9 | the month lengths are the entries of the table |
| Calendar.MonthsBeforeTable | src/time/util.cpp:6-9 | the days before each month are 0, 31, 59 and so on, one more from March in a leap year |
| Calendar.MonthsMakeYear | src/time/util.cpp:6-9 | the month table adds up to the year |
| Calendar.YearsClosed | src/time/util.cpp:62-68 | days before a year are the standard's closed form |
| Calendar.SplitYears | src/time/util.cpp:62-68 | the year loop ends with the day inside the year |
| Calendar.SplitMonths | src/time/util.cpp:72-82 | the month loop ends inside the table with the day inside the month |
| Calendar.ConvertTo | src/time/util.cpp:53-84 | the fields are the date of t by the month table, and satisfy the POSIX formula if and only if the day count fits 32 bits; month index at most 11 always |
| Calendar.DaysAddUp | src/time/util.cpp:24-84 | the two day-count functions add up to the day of a converted time |
| Calendar.OrderPreserved | src/time/util.cpp:53-84 | a later time has a later date |
| Calendar.OneDate | src/time/util.cpp:53-84 | a time has one date and a date one time |
| Calendar.FirstWrong | src/time/util.cpp:59-59 | the first day count that does not fit comes out as a date before the epoch |
| Int32.CastMinus | src/byte_buffer.cpp:105-115 | below a count whose cast is not negative, the cast commutes with subtraction |
| Int32.CastExact | src/io/epoll.cpp:44-50 | the cast is the only 32-bit value congruent to its argument |

## Left out

- Proactor state as values: `epoll.cpp` changes its queues, counts and descriptors in place from several threads; the step system holds them in one value so that runs can be quantified over. `ProactorLoop.LoopThread` gives the loop thread's loops in imperative form, for stretches in which no other thread holds the lock.
- Steps merged: `descriptor_create` with its engine count, and the last release's count drop, engine release and drain, are single steps; the memory of a descriptor counts as freed from there, although the same thread deletes it a little later.
- Callbacks in the proactor: what a callback submits from the loop thread is modelled as a submission by some other thread.
- Engine.Runner.Run: a turn of the loop thread and the timer drain follow each other while no other thread holds the queue lock; the timers' closures are a queue of their own here, run in one stretch within the turn.
- Submitter discipline: a handle must be open when a reference is taken, and `unbind` on a null handle is no step; the source demands this of its callers.
- System calls, socket options, addresses and `errno`: `post_proc` is an oracle that answers done, would block or partial, and done once the descriptor is closed.
- Syntax of src/io/epoll.cpp line 490: it lacks a parenthesis and is read as the same code in src/io/kqueue.cpp line 512.
- Pipe capacity and blocking writes to the pipe: the pipe is a counter.
- `accept` with a null descriptor: marked as to do in the source.
- Reference counts and abort order in `poll.cpp`: the same protocol as `epoll.cpp`, which is modelled in full; only the index and interest bits are modelled here, for the read and write directions, since no operation is ever queued on the third.
- Timers in 64-bit ticks: due times are unbounded integers; overflow of the tick count is not modelled.
- Timers.TimerEngine.Drain: `repeat` is set when a timer is created, and a due time only while the timer is not listed; changing them on a listed timer breaks the order and is excluded by the source's use. Callback scripts that break the rules (firing an id already waiting, at a time already due while the drain runs, or a repeating timer from its own expiry) are passed over.
- Copy construction and assignment of the intrusive queue: they alias the source's nodes.
- Blocks as numbered memory: blocks and buffers are addressed by number instead of pointers, and the atomic counts and the pool's double-checked test are modelled for one thread at a time.
- `block::realloc`, `seek`, `sub_buffer`, `write_fmt` and `write_msg`: unused by the buffer, unchecked positions, or formatted printing.
- Blocks.Memory.Write: requires less than 2^31 bytes of space, since beyond that the count of written bytes is cut by its cast.
- Blocks.Memory.Read: requires less than 2^31 bytes of content, for the same reason.
- Blocks.Memory.MoveWriteCursor: requires the write cursor to be within the cast of the capacity; `FreshMoves` shows that this covers every buffer whose moves are safe.
- Blocks.Memory.MoveReadCursor: requires the distance it may move over to be below 2^31.
- Blocks.Memory.CreateFrom: requires less than 2^31 bytes, since the constructor writes through the cursor.
- Blocks.Memory.Reserve: a negative size, which the source converts to a huge one, is excluded.
- Null-block assertions: with assertions enabled the source stops on reading or writing a buffer without a block; the model takes the build without them, where nothing is transferred.
- Records.ReadRecord: content too short, or with a length that overruns its array, makes the source read indeterminate values; such content is excluded by the parser's failure case.
- Base64.Decode: characters outside 0..127 index past the table in the source and are excluded; for characters in that range but outside the alphabet, `JoinOutside` states the join and `Decode` only the number of bytes.
- Calendar.DaysBetweenYears: the sum is unbounded here, where the source's wraps at 32 bits after some five million years.
- Calendar.ConvertTo: takes times from the epoch on; negative timestamps and file times depend on the platform.
- String functions, log writers, SSL, the other multiplexers and everything under `old/`: easy members, input and output, third party, or superseded.
