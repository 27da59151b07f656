# Verification of yasio's queues, locks, data path and codecs

A Dafny model of the parts of yasio whose correctness depends on whole runs, with proofs:

- **Queue and semaphore** (`Bits`, `Spsc`, `SpscInvariant`, `SpscRefinement`, `SpscTheorems`, `Semaphore`,
  `BlockingQueue`). The lock-free single-producer/single-consumer queue is a transition system in which each
  load or store of a variable the other thread may access is one step; program counters and captured locals of
  both threads are part of the state. Steps are interleaved in sequentially consistent order, which is what the
  fences of the original are for. The lightweight semaphore is a second transition system, and the blocking queue
  is the two put together.
- **Reader/writer lock** (`SharedMutex`). Any number of threads; each stretch of code that runs with the internal
  mutex held is one step; threads on a gate may wake spuriously.
- **Data path** (`Framing`, `Sending`, `Delivery`, `Transport`). Receiver and sender of a transport, first as
  functions on values, then as the class `IoTransport` that works in place on its buffer and queue and is proved
  equal to them. The kernel takes and delivers any number of bytes, in order. `Delivery` puts a sender, a channel
  and a receiver together.
- **Event loop and timers** (`EventLoop`, `LoopRuns`, `LifeCycles`, `Traffic`, `Closing`, `Requests`, `ServerClosing`,
  `Sleeping`, `Polling`, `Ownership`, `Reopening`, `Stopping`, `Timers`, and `ServiceLoop` in `IoService.dfy`). What
  the loop does to transports, channels and the socket objects they share, as functions on values; its runs, with requests from other threads between the phases of a turn, a
  sticky wake-up, the clock and the timer queue; and what holds on them. The class `IoService` executes the loop in
  place on `IoTransport` objects and a `TimerQueue`, and carries the run that has led it where it is, so that every
  theorem about runs is one about the object.
- **WebSocket** (`WebSocket`, `WebSocketFrames`). The resumable parser and the frame printer of sections 5.2 and
  5.3 of RFC 6455, against the wire format read byte by byte.
- **Binary streams** (`Bytes`, `Endian`, `Stream`, `BinaryStream`). Writer and reader, and the messages they make
  for the data path.

`dafny verify dfyconfig.toml` checks everything.

## How the model is built

- Bits and bytes are natural numbers; masks, shifts and unions of disjoint bits are arithmetic. Where that is not
  obvious there is a lemma (`Bits.MaskIsWrap`, `Bits.CeilToPow2Word`, `WebSocket.FlagParts`, `Endian.SizedToNetwork`).
  Machines are little-endian, `int` has 32 and `size_t` 64 bits.
- Methods that update a queue, parser, stream, timer queue, transport or service in place are proved against a
  function of the old state; what the program promises is then proved about that function over all inputs or runs.
- Answers of the kernel, of the resolver, of timers' callbacks and of the clock are parameters, so that the theorems
  hold for all of them.

## Where the code does not do what one would expect

Each has a concrete run as a lemma, or a contract that says it, and the exact condition under which the code is right.

- `signal(0)` on the semaphore grants a permit to a sleeping waiter that was never signalled; the assertion
  `count >= 0` admits it (`Semaphore.ZeroSignalGrants`, condition in `Semaphore.StepKeepsBooks`).
- The reader/writer lock loses a wake-up when a reader leaves the maximum of 2^31 - 1 with two or more threads
  asleep on gate1, for only one is notified (`SharedMutex.WakeUpCanBeLost`, condition in `SharedMutex.StepWakes`).
- A complete header that decodes to 0 is taken for an incomplete one; it stalls the receiver, and a full buffer then
  makes a receive of 0 bytes look like a closed peer (`Framing.ZeroHeaderFillsBuffer`, condition in
  `Framing.ReadLeavesRoom`).
- A client's transport has the socket object of its channel. When a channel is opened again while its transport is
  alive, that socket is closed and opened anew under the transport; its write interest is gone but its flag says
  that it is registered, so that the loop can sleep on data it has to send (`Reopening.InterestLost`; condition in
  `Ownership.OperateOwned`, over runs in `Ownership.OwnedExactly`: no open request is served for a client channel
  whose socket is open).
- A server that is asked to close between the pass over the transports and the one over the channels closes in the
  latter, which clears the request before the transports see it: the connections it accepted stay, while a request at
  any other time closes them all (`ServerClosing.TransportOutlivesServer`, condition in
  `Requests.ServerCloseExactly`). A channel that is still resolving, or whose socket is not open, cannot be closed.
- The queue's constructor makes a block without slots for a size whose power of two does not fit the word
  (`SpscTheorems.Create`, which says from which size on).
- A timer fires up to a microsecond early, because the remaining time is cut to whole microseconds
  (`Timers.FiresEarly`, condition in `Timers.ExpiredIff`).
- Sized integers and blobs do not survive the stream when they do not fit their field
  (`Stream.NegativeIsLost`, condition in `Stream.FieldRoundTrip`), and the 7-bit reader accepts encodings the writer
  never makes (`Stream.TwoBytesForZero`, condition in `Stream.CanonicalForm`).

## Model

| member | source | states |
|---|---|---|
| `SpscTheorems.RefinesFifo` | 3rdparty/moodycamel/readerwriterqueue.h:286-645 | For every interleaving of one producer and one consumer from a fresh queue, the answers of all calls are those of one FIFO sequence: an enqueue appends, a dequeue or pop removes the head, a peek shows it, no step faults, and whenever a call answers "empty" the sequence was empty at an instant inside that call |
| `SpscRefinement.StepGood` | 3rdparty/moodycamel/readerwriterqueue.h:286-645 | Each atomic step of either thread keeps the ring invariant, cannot fault, and changes the elements between front and tail exactly as its event says |
| `SpscTheorems.RingShape` | 3rdparty/moodycamel/readerwriterqueue.h:78-96 | In every reachable state the blocks form one cycle from front over tail, blocks strictly between them are full and those behind the tail are empty, both stale shadows lie in the live range of their block, and no next step can fail an assertion or touch a slot it must not |
| `SpscTheorems.FifoConserves` | 3rdparty/moodycamel/readerwriterqueue.h:78-96 | On every FIFO run what was put in is what was taken out followed by what is left, in order |
| `SpscTheorems.PeekIsNext` | 3rdparty/moodycamel/readerwriterqueue.h:385-425 | The element a peek shows is the one the next removal takes |
| `SpscTheorems.ProducerCall` | 3rdparty/moodycamel/readerwriterqueue.h:536-645 | A producer call ends with exactly one event, and an accepted element is the one the call was given |
| `SpscTheorems.ConsumerCall` | 3rdparty/moodycamel/readerwriterqueue.h:286-490 | A consumer call ends with exactly one event, of the kind of the call or "empty" |
| `SpscTheorems.EmptyAnswer` | 3rdparty/moodycamel/readerwriterqueue.h:290-307 | When dequeue, pop or peek answers "empty" from any state with the ring invariant, the queue was empty at an instant inside that call, in spite of the stale first look and the second look at the tail block |
| `SpscTheorems.AheadIsNotEmpty` | 3rdparty/moodycamel/readerwriterqueue.h:299-352 | Once a block is ahead of the front block, the running call cannot answer "empty" |
| `SpscTheorems.Create` | 3rdparty/moodycamel/readerwriterqueue.h:105-156 | The constructor builds the ring of empty blocks, in both branches, block by block; from a size of 2^63 on it makes a single block without slots, on which no call can be served |
| `SpscTheorems.InitialReserved` | 3rdparty/moodycamel/readerwriterqueue.h:117-126 | In both constructor branches the blocks but one have room for `size` elements |
| `SpscTheorems.ReservationKept` | 3rdparty/moodycamel/readerwriterqueue.h:573-637 | From every reachable state: an enqueue that comes to where it has to allocate or to fail saw at least `size` elements in the queue at an instant of the call |
| `SpscTheorems.RefusedOnlyWhenFull` | 3rdparty/moodycamel/readerwriterqueue.h:536-645 | On every run from the constructor each refused enqueue has an instant inside its own call at which the FIFO sequence of the events so far holds at least `size` elements; and one that may allocate is refused only in a step whose allocation is |
| `SpscTheorems.AllocatesOnlyWhenFull` | 3rdparty/moodycamel/readerwriterqueue.h:601-615 | On every run a block is allocated only in a call that may, and only with such an instant inside that call |
| `SpscTheorems.AllocationsDouble` | 3rdparty/moodycamel/readerwriterqueue.h:601-615 | On every run each block allocated has twice the size of the block made before it, or the same once that has reached the largest block size |
| `SpscTheorems.WaitFree` | 3rdparty/moodycamel/readerwriterqueue.h:286-645 | On every run an enqueue answers within 7 steps of its thread, and a dequeue, pop or peek within 8, however the other thread is scheduled |
| `SpscTheorems.SizesArePowers` | 3rdparty/moodycamel/readerwriterqueue.h:601-615 | All blocks have power-of-two sizes on every run, so advancing an index with the size mask is the wrap of the model |
| `SpscTheorems.InitialPowers` | 3rdparty/moodycamel/readerwriterqueue.h:111-117 | With a power of two as the largest block size, all blocks of a fresh queue have power-of-two sizes |
| `Bits.MaskIsWrap` | 3rdparty/moodycamel/readerwriterqueue.h:322 | `(i + 1) & sizeMask` is the next slot, wrapping to 0 |
| `Bits.CeilToPow2` | 3rdparty/moodycamel/readerwriterqueue.h:655-667 | The result is a power of two, not below the argument, and the least such |
| `Bits.CeilToPow2Word` | 3rdparty/moodycamel/readerwriterqueue.h:655-667 | The bit-smearing loop on a 64-bit word gives that least power of two, or 0 where there is none in a word |
| `Semaphore.StepKeepsBooks` | 3rdparty/moodycamel/atomicops.h:585-663 | Each atomic step keeps count, permits and kernel tokens balanced, exactly if it is not a signal of no permits to a sleeping waiter |
| `Semaphore.Conservation` | 3rdparty/moodycamel/atomicops.h:585-663 | On every run with signals of at least one permit, time-outs and failures of the kernel's wait included, no more is granted than was signalled; an idle consumer leaves no kernel token posted or owed and a count equal to the difference; a sleeping one for which there is a permit has a token or one about to be posted; the assertion in `signal` holds |
| `Semaphore.RefusalRestores` | 3rdparty/moodycamel/atomicops.h:611-625 | A wait that is refused, by time-out or not, leaves the count as if it had not been made |
| `Semaphore.RefusedOnlyWithout` | 3rdparty/moodycamel/atomicops.h:585-641 | On every run a `tryWait` or `wait` answers false only at an instant at which every permit signalled so far has been granted |
| `Semaphore.CallAlone` | 3rdparty/moodycamel/atomicops.h:585-641 | On every run a call from an idle consumer that is left alone takes a permit in three steps exactly if more were signalled than granted, and a `tryWait` is refused in two otherwise |
| `Semaphore.TimedOutAlone` | 3rdparty/moodycamel/atomicops.h:611-625 | On every run a wait that has timed out, left alone, takes the permit that came too late for the kernel to tell, and is refused in its next step without one |
| `Semaphore.ZeroNeverSleeps` | 3rdparty/moodycamel/atomicops.h:604-610 | A thread that waits with a timeout of 0 or only tries never sleeps |
| `Semaphore.ZeroSignalGrants` | 3rdparty/moodycamel/atomicops.h:654-663 | A run on which `signal(0)`, which the assertion admits, grants a permit that was never signalled |
| `BlockingQueue.RemovalSucceeds` | 3rdparty/moodycamel/readerwriterqueue.h:785-944 | On every run of the queue behind the semaphore, a granted wait is followed by a successful inner dequeue or pop, no assertion of the queue or of the semaphore fails, and what happens to the inner queue is one of its FIFO runs |
| `BlockingQueue.RefusedOnlyWithout` | 3rdparty/moodycamel/readerwriterqueue.h:785-944 | On every run a removal is refused, with or without waiting, only at an instant at which every enqueue that has signalled has been matched by a removal, so that at most the element enqueued last is there |
| `SharedMutex.StepExclusive` | yasio/shared_mutex.hpp:72-139 | For any number of threads each step keeps: the word is the writer bit plus the exact reader count, at most one thread past gate1 as writer, no readers while a writer owns the lock; and the assertions in `unlock` and `unlock_shared` hold |
| `SharedMutex.LockIsSafe` | yasio/shared_mutex.hpp:66-139 | The same on every run from the unlocked lock, and no lost wake-up on every run that stays below the maximum of readers |
| `SharedMutex.StepWakes` | yasio/shared_mutex.hpp:122-139 | A step keeps "sleepers have a reason to sleep" exactly if it is not a reader leaving the maximum with two or more asleep on gate1 |
| `SharedMutex.WakeUpCanBeLost` | yasio/shared_mutex.hpp:129-133 | A run through the maximum of readers on which a reader stays asleep although the lock has room for it |
| `SharedMutex.WriterPreference` | yasio/shared_mutex.hpp:72-78 | Once the writer bit is set the reader count does not rise until that writer unlocks |
| `SharedMutex.AcquiresExactly` | yasio/shared_mutex.hpp:72-122 | In terms of the threads that have the lock: `try_lock` succeeds exactly if no thread has it and no writer waits for readers to leave, `try_lock_shared` exactly if no writer is past gate1 and there is room, otherwise nothing changes; the waiting forms get it under the same conditions, and no other thread gains or loses it |
| `Framing.UnpackRefinesParse` | yasio/io_service.cpp:1786-1853 | For every byte stream and every cutting into reads, the packets delivered are a prefix of those of the recursive whole-stream parser, equal to them once drained, with the same rejection point and the same bytes left over |
| `Framing.ReadTracks` | yasio/io_service.cpp:1774-1853 | After every read, delivered frames, bytes of the packet under construction with its stripped head, and leftover buffer are the bytes received |
| `Framing.ParseConserves` | yasio/io_service.cpp:341-361 | Frames and rest of the whole-stream parser are the stream |
| `Framing.EmptyReadsDrain` | yasio/io_service.cpp:1838-1848 | As many reads without new bytes as frames are buffered, and one more, drain the receiver |
| `Framing.ReadLeavesRoom` | yasio/io_service.cpp:379-382 | A read fills the receive buffer to the last byte exactly if all of it stands under a complete header that decodes to 0 |
| `Framing.RoomUnlessStalled` | yasio/io_service.cpp:428-448 | On every run a receive with no room left means a header that decodes to 0, so otherwise a receive of 0 bytes on TCP means the peer closed |
| `Framing.ZeroHeaderFillsBuffer` | yasio/io_service.cpp:1805-1806 | Parameters and a stream whose header decodes to 0 and stalls the receiver with a full buffer |
| `Framing.DirectDelivers` | yasio/io_service.cpp:341-361 | With a negative length field offset every receive that is not empty is a packet without its stripped head, up to the first that is too short to be stripped, where the transport fails |
| `Framing.WholeIsAll` | yasio/io_service.cpp:341-361 | Without stripping those packets joined are the bytes received |
| `Sending.NoWorkIsSleptOn` | yasio/io_service.cpp:383-422 | After a write turn that goes on, a queue that is not empty has its flag for write interest set or forbids waiting, an empty one has neither, and waiting is forbidden exactly if the kernel has room; the flag mirrors the watcher exactly if it did before or the turn told the watcher |
| `Sending.SendConserves` | yasio/io_service.cpp:449-471 | Bytes taken by the kernel and bytes still queued are the bytes written, in order |
| `Sending.CompletionsInOrder` | yasio/io_service.cpp:449-478 | Completion handlers and queue together stay the writes in order: each handler at most once |
| `Sending.CompletesInFull` | yasio/io_service.cpp:453-458 | On TCP a handler is called without error, with the full size, when the last byte was taken |
| `Sending.HandlerCalledExactly` | yasio/io_service.cpp:449-478 | A handler is called exactly when its buffer was taken to the last byte, or, on UDP, its send failed |
| `Sending.FailureTold` | yasio/io_service.cpp:456-471 | A send that fails ends a stream transport with nothing changed; on UDP the buffer is dropped, its handler gets the error of the kernel and what was sent before, and the transport goes on |
| `Delivery.DeliveredIsPrefix` | yasio/io_service.cpp:1774-1853 | For every pattern of writes, partial sends and partial receives, the packets delivered are at every moment a prefix of the stripped messages written: none lost, doubled, merged or reordered |
| `Delivery.DrainedIsAll` | yasio/io_service.cpp:1774-1853 | With nothing queued, in flight or undrained, every message has been delivered |
| `Delivery.HandlersInOrder` | yasio/io_service.cpp:383-478 | On every run completion handlers come in the order of the writes, each at most once, with the full size |
| `Transport.IoTransport.Unpack` | yasio/io_service.cpp:1830-1853 | In place on the 64 KiB buffer: appends to the packet, moves the remainder to the head, delivers; the new state is that of the specification the theorems are about |
| `Transport.IoTransport.DoRead` | yasio/io_service.cpp:1774-1829 | In place: goes on exactly if the receive did not fail, TCP was not closed and the length is acceptable, with the new state of the specification and the error of the code otherwise; it asks to come again at once exactly if it leaves bytes behind a packet, and else no complete frame is left in the buffer |
| `Transport.IoTransport.DoWrite` | yasio/io_service.cpp:383-427 | In place: the write turn, its flag, its error and what it asks of the watcher, as the specification says; what is left to send then has write interest or forbids waiting, if the flag was right about the watcher |
| `Transport.IoTransport.Write` | yasio/io_service.cpp:372-378 | A write is queued behind all others and its handler is the last to come |
| `Transport.IoTransport.CallWrite` | yasio/io_service.cpp:449-471 | In place: one send on the head of the queue, dropping it on a UDP error |
| `LifeCycles.LifeCycle` | yasio/io_service.cpp:1161-1194 | On every run of the loop with requests at any point, the events of a transport are one open, then its packets in the order unpacked, then at most one close and nothing after it; memory slots are live or free, each exactly once |
| `Traffic.LiveCarries` | yasio/io_service.cpp:364-478 | On every run, for every live transport: on TCP the bytes the kernel took and those queued are the bytes of all its accepted writes in order; on any kind the handlers called and the buffers queued are those writes; its receiver is where the chunks of its turns lead it from a fresh one; and the packets told are those the whole-stream parser finds in the bytes heard, as far as it has unpacked |
| `Closing.ServeDecides` | yasio/io_service.cpp:1045-1060 | One turn: a transport stays, having read and written, exactly if its socket is open, its receive does not fail or end, its bytes are not refused, its send does not fail on TCP, and none of its own close, its channel's open or close request, or the stop is set; otherwise it is erased and its close told with the error of the first of these that failed, and with `shutdown_by_localhost` if it had none; the other transports stay as they are |
| `Closing.ClosedExactly` | yasio/io_service.cpp:1040-1062 | The same for every transport in a pass over the list that shrinks under it, from every state that a run reaches: it is live afterwards exactly if those conditions hold at its turn, and otherwise its close with its error is among the events of the pass |
| `Closing.TurnReleases` | yasio/io_service.cpp:1161-1194 | A turn that ends with a close gives back the slot and the socket, and closes a client's channel and clears its close request; one that does not changes no channel, and of the sockets only the write interest in its own |
| `Closing.CloseIsObserved` | yasio/io_service.cpp:1131-1138 | On every run a transport asked to close is dead, its close told, once the loop has served the transports again, whatever comes before and in between |
| `Requests.ChannelCloseIsObserved` | yasio/io_service.cpp:1114-1130 | On every run a channel with an open socket that is asked to close has no transport left after the next pass over the transports, unless it is resolving, is opened anew, or is a server whose own turn comes before that pass |
| `Requests.ServerCloseTakenBack` | yasio/io_service.cpp:1092-1099 | On every run a server that is asked to close between the two passes of a turn is closed in the second with nothing asked of it any more, and every transport is still live |
| `Requests.ServerCloseExactly` | yasio/io_service.cpp:1040-1130 | On every run, at the first pass over the transports after a server with an open socket was asked to close and not opened anew, a transport of the server stays if and only if the request came between the two passes of a turn and nothing else would have closed it: its socket is open, its read and write go on, and neither it nor the service is asked to end |
| `ServerClosing.TransportOutlivesServer` | yasio/io_service.cpp:1092-1099 | A run on which a transport is still live a whole turn after its server was asked to close |
| `Closing.OpensExactly` | yasio/io_service.cpp:1063-1113 | A channel's turn brings exactly one transport, new and idle on an open socket (the client's own, or a new one), with its open event, exactly if a client that is to open, resolving, or connecting on an open socket is connected, or a TCP server that listens, or does so now, accepts; otherwise none and no event; the operation goes on exactly while a client resolves or connects or a server listens |
| `Closing.FailsExactly` | yasio/io_service.cpp:1063-1113 | An attempt that fails, a server that cannot listen and one that is to close leave the channel closed with nothing asked and its socket closed; one that takes time leaves it connecting on an open, watched socket |
| `Requests.TimeoutIsObserved` | yasio/io_service.cpp:1288-1292 | On every run a connect timer that fires before the connection is there closes the socket, and until the channel is asked to open again it gets no transport |
| `Requests.RequestsNotSleptOn` | yasio/io_service.cpp:976-1025 | On every run, while the loop waits with no wake-up pending, no transport is asked to close, no channel to open and no server to close; and a channel that is to open, or a server that listens, has an operation that each turn serves |
| `Polling.SleepsExactly` | yasio/io_service.cpp:976-1000 | On every run the poll after a pass over the transports does not wait if a turn of the pass left bytes behind a packet, or a buffer to send with room in the kernel; otherwise it waits as long as it ever does, or for a timer as long as that leaves it time, to the microsecond |
| `Sleeping.RunRests` | yasio/io_service.cpp:976-1025 | On every run, from the transports' turn to the end of the wait, a live transport has a complete frame in its buffer only if the poll does not wait, and unsent data only with its write flag set, with a poll that does not wait or a wake-up pending; and a poll that waits outlasts no timer's wait unless a wake-up is pending |
| `Ownership.OperateOwned` | yasio/io_service.cpp:1063-1113 | A channel's turn keeps every transport the owner of its open socket, with a flag that mirrors the watcher's interest in it, exactly if it does not serve an open request for a client channel whose socket is open |
| `Ownership.OwnedExactly` | yasio/io_service.cpp:1238-1240 | The same for runs: sockets are owned in every state exactly if no open request is ever served for a client channel whose socket is open |
| `Ownership.NothingSleptOn` | yasio/io_service.cpp:976-1025 | On every run without such a request, while the loop waits without a wake-up pending, every live transport has an open socket and no complete frame in its buffer, the watcher has write interest in its socket if it has anything to send, the flag mirrors that interest, the watcher watches every connecting client's open socket, and, in nanoseconds, the poll is over before any timer is due |
| `Reopening.InterestLost` | yasio/io_service.cpp:1238-1240 | A run with such a request: the socket shared by channel and transport is closed and opened anew, and the loop waits with unsent data, the flag set, and no write interest |
| `LoopRuns.FiredWithinTurns` | yasio/io_service.cpp:976-1025 | An expired timer with k others due no later is fired within k + 1 turns of the loop, whatever transports, channels, callbacks and other threads do, unless somebody schedules it anew |
| `Stopping.StopEnds` | yasio/io_service.cpp:1025-1113 | Once stop is set and no open arrives, the loop makes at most two turns more than clients are resolving or connecting |
| `Stopping.StopIsObserved` | yasio/io_service.cpp:804-821 | On every run, whatever came before, a first stop that no open request follows ends the loop within that bound |
| `Stopping.StopQuiets` | yasio/io_service.cpp:804-821 | A first stop leaves each server closed or marked for closing and no open request pending, if no channel holds both requests and an open server has an open socket |
| `Stopping.ServeFromQuiet` | yasio/io_service.cpp:1040-1062 | With stop set, one pass over the transports closes every one of them |
| `ServiceLoop.IoService.Turn` | yasio/io_service.cpp:976-1025 | One turn on the service object, its list of transport objects and its timer queue, in the order of the code: wait, transports, channels, timers; the state after it is that of the composed steps of the runs |
| `ServiceLoop.IoService.RunToEnd` | yasio/io_service.cpp:959-1029 | From a stop on the loop ends by itself, with no transport left, after at most one turn more than clients are resolving or connecting |
| `ServiceLoop.IoService.NothingLeftToDo` | yasio/io_service.cpp:976-1000 | The service object, wherever its run has led it: while its poll waits with no wake-up pending, nothing is left to do for a transport, nothing is asked that the loop would do, and no timer is due before the poll is over, under the condition on re-opened channels |
| `ServiceLoop.IoService.ServeTransport` | yasio/io_service.cpp:1045-1060 | One transport in place: read, write, and the decision to keep or close it, as one serving step of the specification |
| `ServiceLoop.IoService.ProcessTransports` | yasio/io_service.cpp:1040-1062 | The loop over a list of transport objects that shrinks under its iterator serves each once, as the specification says, and none shares memory with another |
| `ServiceLoop.IoService.ProcessChannels` | yasio/io_service.cpp:1063-1113 | The same for the channels with an operation in progress; new transports are fresh objects at the end of the list |
| `ServiceLoop.IoService.HandleClose` | yasio/io_service.cpp:1161-1194 | Tells the close, closes the socket, frees the slot, resets a client channel and its socket, and erases the transport |
| `ServiceLoop.IoService.HandleConnectSucceed` | yasio/io_service.cpp:1696-1731 | A connection becomes one new transport object, on the channel's own socket for a client and on a new one for a server |
| `ServiceLoop.IoService.AllocateTransport` | yasio/io_service.cpp:1721-1731 | Takes the last free slot, or a new one when there is none |
| `ServiceLoop.IoService.OpenInternal` | yasio/io_service.cpp:1897-1917 | Refused exactly while resolving or connecting; the service then stands where the request step of the runs leads |
| `ServiceLoop.IoService.DoStop` | yasio/io_service.cpp:804-817 | The stop flag is set and the close of every channel requested; a first stop, wherever the run has led the service, leaves it in the state from which the loop ends |
| `ServiceLoop.IoService.Write` | yasio/io_service.cpp:1195-1204 | Queues the data on an open transport and answers its size, and refuses on a closed one |
| `ServiceLoop.IoService.GetTimeout` | yasio/io_service.cpp:1963-1979 | The wait asked for in the last turn is taken and reset; the poll gets it, or the earliest timer's wait in the queue if that is shorter; in nanoseconds it outlasts no timer, and is cut short only for one due within a microsecond of its end |
| `Timers.ExpiredIff` | yasio/io_service.cpp:209-212 | A timer counts as expired from less than a microsecond before its time on |
| `Timers.FiresEarly` | yasio/io_service.hpp:463 | A timer that counts as expired before its time |
| `Timers.WaitInTime` | yasio/io_service.cpp:209-212 | The wait in whole microseconds: 1000 times it is not more than the nanoseconds left, and less than 1000 below them; behind time it is cut the other way |
| `Timers.TimerQueue.ScheduleTimer` | yasio/io_service.cpp:1866-1882 | The timer is queued once with its new callback and the expiry it has, the others stay, the queue is sorted with the earliest last, and the loop is woken if it is earlier than all others and only if none is earlier |
| `Timers.TimerQueue.RemoveTimer` | yasio/io_service.cpp:1883-1896 | Exactly that timer is removed; the loop is woken if it was there and others are left |
| `Timers.TimerQueue.CancelTimer` | yasio/io_service.cpp:203-207 | Removes a queued timer that does not count as expired; nothing happens to one that does, or to one that is not queued |
| `Timers.TimerQueue.GetTimeout` | yasio/io_service.cpp:1963-1979 | No longer than asked for and no longer than any timer has to wait, and one of these; in nanoseconds, it outlasts no timer and is cut short only for one due within a microsecond of its end |
| `Timers.TimerQueue.ProcessTimers` | yasio/io_service.cpp:1928-1957 | Callbacks schedule and cancel timers under the loop, which looks at the back of the queue anew after each: each timer fired was expired and the earliest of the queue its predecessors left, up to and including the first that wants to wait again, which is queued anew, or until none is expired; the queue stays sorted and duplicate-free |
| `Timers.FiredInOrder` | yasio/io_service.cpp:1928-1957 | Although callbacks change the queue under it, a pass fires in order of expiry only timers that were queued and expired, and leaves none that expires before anything fired |
| `Timers.PassAdvances` | yasio/io_service.cpp:1928-1957 | A pass that does not fire an expired timer fires another due no later, keeps it, and brings none due that early |
| `Timers.PassLeaves` | yasio/io_service.cpp:1928-1957 | Only the last timer fired may wait again, and then it is queued one duration after the time its callback saw; otherwise no timer is due within a microsecond; what was neither fired nor touched by a callback stays, and nothing else is there but what callbacks scheduled |
| `Timers.BoundedWaiting` | yasio/io_service.cpp:1928-1957 | An expired timer with k others due no later is fired within k + 1 passes, whatever callbacks and other threads schedule or cancel meanwhile |
| `WebSocket.Parser.Execute` | 3rdparty/websocket-parser/websocket_parser.c:53-171 | For every input from every state: the whole input is consumed, and state and callbacks are those of the wire format taken byte by byte, each payload byte reported once at its place in the frame |
| `WebSocket.Parser.ExecuteAll` | 3rdparty/websocket-parser/websocket_parser.c:53-171 | Any number of calls gives what one call on the joined input gives: where the input is cut makes no difference |
| `WebSocket.Parser.TakeBody` | 3rdparty/websocket-parser/websocket_parser.c:143-163 | A body callback gets the rest of the payload or all bytes there are, with `offset` the payload bytes of the frame already delivered |
| `WebSocket.RunAppend` | 3rdparty/websocket-parser/websocket_parser.c:53-171 | The wire format over joined inputs is the wire format over the parts |
| `WebSocket.Decode` | 3rdparty/websocket-parser/websocket_parser.c:182-189 | In place: each bit of each byte is the exclusive or with that of the key byte at its place, nothing else is touched, and the result is the next key offset |
| `WebSocket.Parser.DecodePiece` | 3rdparty/websocket-parser/websocket_parser.c:173-180 | In place: a piece unmasked from the running key offset of the parser, bit by bit by exclusive or, and the offset moves on by its length |
| `WebSocket.XorExactly` | 3rdparty/websocket-parser/websocket_parser.c:182-189 | The byte that masking makes is the one whose bits are the exclusive or of the bits, and the only one |
| `WebSocket.MaskTwice` | 3rdparty/websocket-parser/websocket_parser.c:182-189 | Masking twice with the same key gives the data back |
| `WebSocket.MaskPieces` | 3rdparty/websocket-parser/websocket_parser.c:173-189 | Unmasking piece by piece with the running key offset is unmasking the whole |
| `WebSocketFrames.BuildFrame` | 3rdparty/websocket-parser/websocket_parser.c:207-249 | In place: writes exactly the frame of section 5.2 of RFC 6455, as many bytes as `websocket_calc_frame_size` says and none behind them; without a mask argument the key is what the frame holds at its place |
| `WebSocketFrames.FrameLayout` | 3rdparty/websocket-parser/websocket_parser.c:207-249 | Byte for byte, section 5.2 of RFC 6455: FIN and opcode, mask bit and 7-bit length or code, extended length most significant byte first, key, and the payload with each bit the exclusive or with that of the key byte at its place |
| `WebSocketFrames.FrameParsed` | 3rdparty/websocket-parser/websocket_parser.c:53-249 | Round trip: a built frame is parsed to its opcode, FIN, mask flag, length and key, its payload bytes in place, and its end |
| `WebSocketFrames.FramesParsed` | 3rdparty/websocket-parser/websocket_parser.c:53-249 | The same for any sequence of frames |
| `WebSocketFrames.UnmaskedRoundTrip` | 3rdparty/websocket-parser/websocket_parser.c:53-249 | Whatever callbacks report those frames, an application that unmasks each body piece with the running offset gets opcode, FIN, mask flag and original data of each frame, in order |
| `WebSocketFrames.ParseFrames` | 3rdparty/websocket-parser/websocket_parser.c:53-171 | A fresh parser fed built frames in any pieces ends with such callbacks |
| `Stream.GroupsRoundTrip` | yasio/ibstream.hpp:38-117 | A 7-bit integer is read back unchanged, whatever follows it, from at most 5 (32 bits) or 10 (64 bits) bytes |
| `Stream.PrefixFree` | yasio/obstream.hpp:49-60 | No 7-bit encoding is the beginning of another |
| `Stream.EncodeLayout` | yasio/obstream.hpp:49-60 | The encoding is the 7-bit groups of the number, lowest first, with the high bit set on all but the last, and no last group of zero but for zero itself |
| `Stream.GroupsExactly` | yasio/ibstream.hpp:38-117 | For every input the reader takes the bytes up to the first without the high bit and gives their number, runs out of range exactly if all there are go on within the limit, and refuses the format exactly for a last byte that would overflow |
| `Stream.CanonicalForm` | yasio/ibstream.hpp:38-117 | Accepted bytes are the writer's own exactly if they do not end in a superfluous zero group |
| `Stream.TwoBytesForZero` | yasio/ibstream.hpp:56-64 | Two bytes accepted for a number the writer stores in one |
| `Stream.GroupsBound` | yasio/ibstream.hpp:69-76 | What is accepted fits the word and takes no more bytes than allowed |
| `Stream.FieldRoundTrip` | yasio/ibstream.hpp:160-258 | Integers, sized integers and blobs: each is read back, whatever follows, exactly if it is stored in full (sized integer of 4 bytes or non-negative and within its bytes; blob length within its field and an `int`) |
| `Stream.RefusedExactly` | yasio/ibstream.hpp:160-280 | A number, sized integer or blob of fixed-width length is refused, as out of range, exactly if it reaches beyond the data |
| `Stream.BlobRefusedExactly` | yasio/ibstream.hpp:176-280 | So is a blob behind a 7-bit length, or one whose length is not accepted |
| `Stream.NegativeIsLost` | yasio/ibstream.hpp:166-173 | A sized integer that is not read back |
| `Stream.StreamRoundTrip` | yasio/obstream.hpp:309-410 | Any sequence of such fields is read back unchanged, up to the last byte and no further |
| `BinaryStream.Writer.WriteIx` | yasio/obstream.hpp:49-60 | The loop over 7-bit groups appends the encoding |
| `BinaryStream.Writer.WriteVarint` | yasio/obstream.hpp:374-380 | The bytes of the swapped and shifted integer are its low bytes, most significant first |
| `BinaryStream.Writer.WriteV` | yasio/obstream.hpp:322-327 | Appends the 7-bit length and the blob, both as truncated to an `int` |
| `BinaryStream.Writer.WriteVFx` | yasio/obstream.hpp:403-410 | Appends the fixed-width length, truncated to its width, and the blob |
| `BinaryStream.Writer.Pop` | yasio/obstream.hpp:309-313 | Patches in place how many bytes followed the push, and changes nothing else |
| `BinaryStream.Writer.WriteBytesAt` | yasio/obstream.hpp:162-169 | Overwrites exactly those bytes, or throws and changes nothing |
| `BinaryStream.Reader.Consume` | yasio/ibstream.hpp:271-280 | The next bytes, or out of range with the cursor in place |
| `BinaryStream.Reader.ReadGroups` | yasio/ibstream.hpp:38-117 | The loop over groups with its limits on the last byte; on failure it stands behind the bytes it read |
| `BinaryStream.Reader.ReadVarint` | yasio/ibstream.hpp:166-173 | Copying into a zeroed int, swapping and shifting reads the number stored most significant byte first |
| `BinaryStream.Reader.ReadV` | yasio/ibstream.hpp:176-180 | The 7-bit length as an `int`, then the blob, empty for a length of 0 or less |
| `BinaryStream.Reader.ReadVFx` | yasio/ibstream.hpp:252-258 | The same behind a fixed-width length |
| `Endian.SizedToNetwork` | yasio/endian_portable.hpp:189-195 | Swapping and dropping low bytes leaves the value's low bytes in memory, most significant first |
| `Endian.SizedFromNetwork` | yasio/endian_portable.hpp:196-202 | The inverse on bytes copied into a zeroed int |
| `Endian.SwapTwice` | yasio/endian_portable.hpp:126-143 | The byte swap of an integer is its own inverse |
| `BinaryStream.DecoderInverts` | yasio/io_service.cpp:341-361 | The frame length decoder reads what `write_varint` wrote at the field's place |
| `BinaryStream.FieldIsSwapped` | yasio/io_service.cpp:350-352 | The decoder's field value is the copy, swap and shift the code makes |
| `BinaryStream.FramedIsWellFormed` | yasio/obstream.hpp:302-313 | A message framed by push and pop behind a header carries its own length exactly if that length fits field, `int` and frame limit |
| `BinaryStream.BodiesArrive` | yasio/obstream.hpp:302-313 | From writer to packets: bodies framed by push and pop behind headers of the length field's offset, sent and received in any pieces, arrive as themselves, in order, and all of them once everything was sent, received and drained |

## Left out

- SpscTheorems.Create: a largest block size of 2^63, whose double does not fit the word, and an allocation that fails, which aborts.
- SpscTheorems.RefinesFifo: the weak memory model and its fences; steps are sequentially consistent, and reads of variables that only the running thread writes are folded into the neighbouring step.
- Framing.UnpackRefinesParse: overflow of the length adjustment, which is undefined in the original, and the option to forward packets without unpacking.
- Delivery.DeliveredIsPrefix: transports that drop a buffer on an error (UDP); byte streams only.
- WebSocket.Parser.Execute: callbacks return 0; the early returns when one aborts are not modelled, nor is a payload so long that the end of a body overflows a pointer.
- LifeCycles.LifeCycle: SSL and KCP transports and the UDP server's map from peers to transports; servers accept TCP connections only.
- Stopping.StopEnds: requests come between the phases of a turn, not inside one; a poll that fails, which repeats or ends the loop, and the deferred dispatch of events at the end of a turn are not modelled.
- ServiceLoop.IoService.Turn: the connect timers that fire are given from outside and not taken from the timer queue, so that in the model they may fire in any turn.
- Timers.TimerQueue.ProcessTimers: callbacks that schedule their own timer, or any timer to be due within a microsecond, while the pass runs, with which a pass need not end; `std::sort` is used by its contract only.
- LoopRuns.FiredWithinTurns: other threads schedule timers at least a microsecond ahead; a queued timer whose expiry is changed without being scheduled again does not occur.
- BinaryStream.Writer.Push: the built-in offset stack and writing into fixed buffers.
- BinaryStream.Reader.Consume: a size so large that the cursor overflows.
- `size_approx`, `max_capacity`, moving and destroying a queue: easy, and they would add only arithmetic.
- Sockets, pollers, name resolution, endpoints, logging, strings and vectors of the library, half-precision floats, the HTTP extension and language bindings.
