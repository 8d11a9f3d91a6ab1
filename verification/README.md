# A verified model of the worker pool, queue, endpoint and header code

This project models the parts of the repository in which threads, reused descriptors and
index arithmetic make the code hard to trust by reading, and proves what that code keeps.

**Worker pool.** `Pool.dfy` is a step machine for `src/unix/workers.c` and
`src/Nettverksprog/Threadpool.cpp`. Any number of workers and posters and one joiner interleave
one access at a time; `pthread_cond_signal` wakes one waiter or is lost, and waiters may wake
without a signal. One machine serves both pools, with the number of queue entries per job and the
place of the signal in `post` as parameters. `PoolSafety.dfy` proves mutual exclusion, pairing and
order for every run. `PoolRefinement.dfy` proves that both pools refine a FIFO dispatcher
(`Dispatcher.dfy`), so jobs are neither lost, duplicated nor reordered. `PoolWakeups.dfy` proves
that no job is left sleeping, and `PoolProgress.dfy` that every job is run without a join: while
no new call is made the pool comes to rest in boundedly many steps, with all calls returned and all
posted jobs finished. `PoolIndependence.dfy` proves that threads hinder each other only at the
lock. `PoolShutdown.dfy` and `PoolStop.dfy` treat shutdown by a single signal: `StopSafe` is a
condition on the state in which `w_join` writes `_stop`, and the join is certain to complete with
every job run if and only if it holds. `PoolCalls.dfy` ties what is posted to the calls of post, and
`PoolQueue.dfy` runs the two critical sections on the real ring buffer.

Shutdown is the one place where the code does less than it seems to promise. `w_join` writes
`_stop` without the lock, so the write can fall between a worker's test and its wait, and the one
signal is then lost; or between the two reads of the loop guard, after a job was posted, and the
worker leaves the job behind. Both are reachable, in both pools (`TestBeforeStopIsUnsafe`,
`PostBetweenGuardReadsIsUnsafe`). A write made while the lock is free and the queue empty is safe
(`WriteWithLockFreeIsSafe`). `StopSafe` covers a pool of no workers as well: it holds there exactly
when nothing is queued.

**Ring buffer.** `Queue.dfy` is the class of `src/unix/queue.c`, over an array with a mask for its
modulus; `QueueCost.dfy` bounds the copying of a whole run. `Bits.dfy` defines the C bit operators
on the numbers that words stand for, and proves each of them bit by bit.

**Bit set and stack.** `BoolSet.dfy` refines `set<nat>`; `Stack.dfy` is the linked stack.

**Endpoint.** `Endpoint.dfy` is `src/unix/endpoint.c` one call at a time, with the kernel's open
sockets and selector as ghost state; `EndpointRuns.dfy` is about runs of such calls.
`EndpointThreads.dfy` breaks the same calls into single steps of concurrent threads, over a kernel
that may hand out any closed descriptor again. `EndpointIndependence.dfy` proves that threads hinder
each other only at the locks and in the kernel, `EndpointLocks.dfy` freedom from deadlock,
`EndpointProgress.dfy` that every call returns, `EndpointReuse.dfy` that the client record agrees
with the kernel, `EndpointConservation.dfy` that no hang-up is lost, and `EndpointHangups.dfy` when
every queued descriptor is a client. `EndpointSolo.dfy` ties the two descriptions together: a call
whose steps nobody interrupts does what the call is said to do, and every orderly list of calls is
a run of the threads.

**Header text.** `HeaderText.dfy` says what a field line means (the form of section 5 of RFC 9112,
with spaces as the only optional whitespace). `Headers.dfy` and `HeaderList.dfy` prove the
index-scanning loops of `src/unix/http.c` against it. `HeaderRoundTrip.dfy` proves that a printed
list of headers is read back unchanged and that the printer followed by the parser gives the same
header, and `HeaderNullClosed.dfy` what comes back when a null stands where the closing carriage
return should.

**Events.** `EventPacking.dfy` and `EventDelivery.dfy` follow an epoll event of
`apps/Run_unix_srv.c` through one 64-bit job argument and the pool to its handler.

## Assumptions

- Shutdown: one thread joins; every call of post has returned before it writes `_stop` and nothing
  is posted afterwards, as in `apps/Run_unix_srv.c`; jobs return and do not post; each guard read of
  the queue size gives its current value. Progress without a join assumes the last two. Order,
  pairing, conservation and wakeups assume none of this: there the guard's read of the queue may
  give any answer.
- Client record against the kernel: no connection is disconnected twice. A disconnect, direct or
  from the queue or by disconnect-all, starts only for a registered client that nobody is
  disconnecting. Hang-ups may be reported and queued any number of times, and disconnect-all may
  close clients that are queued or half accepted. Without the assumption the record does break, as
  `TwoDisconnectsBreakTheRecord` shows.
- Queue: at most 2^30 elements, since `1 << msb` shifts a 32-bit `int`.
- Header lines: every scan over spaces ends inside the text, and no length given to `memcpy` is
  negative. `Headers.Lengths` says exactly when a length is negative; by `CopyableIffWellFormed`, in
  a line with a key and no space after it the value's length is negative exactly when the colon is
  missing or the value is one or more spaces and nothing else.

## Where code and documentation differ

- `src/unix/http.c:49` is meant to reject a line without a colon, but the scan stops at the length,
  so the test never succeeds. Such a line is refused exactly when its text is longer than a key may
  be; otherwise the second copy is given a negative length (`Headers.ColonlessLine`, with an
  instance in `ColonlessExample`).
- `include/unix/http.h` promises a character count from `http_header_to_str`, and
  `include/unix/endpoint.h` a client count from `endpoint_disconnect_all_clients`. Neither function
  returns a value on success. Only their effects are modelled.
- `endpoint_close_hungups` is documented to count closed sockets. It counts queue entries, and that
  is the number of clients closed if and only if the entries are distinct clients.
- The scan for the end of every header line but the first may run one character past the block.
  `HeaderList.ScanIsSplitIff` says when the lines the loop sees are not the lines of the block.

## Model

| member | source | states |
|---|---|---|
| PoolSafety.OrderStep | src/unix/workers.c:14-68 | Every step of any thread keeps mutual exclusion and keeps taken pairs followed by queued pairs equal to the post order. |
| PoolSafety.PopFindsAWord | src/unix/workers.c:25-33 | One emptiness test is enough for both reads of a job: the queue is never empty when a word is popped. |
| PoolSafety.UnlockToRunOrdered | src/unix/workers.c:32-36 | The words a worker has popped when it unlocks are exactly the oldest pending job. |
| PoolSafety.WholeJobsWhenFree | src/unix/workers.c:63-64 | Whenever the lock is free the queue is the flattening of whole posted jobs. |
| Dispatcher.TraceConserves | src/unix/workers.c:14-83 | The FIFO dispatcher that the pools refine never loses or duplicates a job, over any trace. |
| PoolRefinement.StepRefines | src/Nettverksprog/Threadpool.cpp:18-54 | Each step of either pool is a post, dispatch, completion or silent step of the FIFO dispatcher. |
| PoolRefinement.RunRefines | src/unix/workers.c:14-68 | Every run of either pool is a trace of the dispatcher. |
| PoolRefinement.PoolConserves | src/unix/workers.c:14-83 | In every reachable state posted equals pending plus in-flight plus finished, and taken followed by pending is the post order. |
| PoolRefinement.WorkersRunPostedJobs | src/unix/workers.c:32-40 | Two reads of the queue never straddle two jobs: what a worker is about to run is the oldest posted job not yet taken. |
| PoolWakeups.SleepStep | src/unix/workers.c:18-37 | Every step keeps the bound on pending jobs by checking workers and owed signals. |
| PoolWakeups.NoJobEverSleeps | src/unix/workers.c:61-68 | In every reachable state with a waiting worker, pending jobs are at most the workers that will test the queue plus the signals owed. |
| PoolProgress.StepEases | src/unix/workers.c:14-68 | Before `_stop` is written, every step but a new call and a spurious wakeup lowers a measure over workers, posters and queue. |
| PoolProgress.JobsRunWithoutJoin | src/unix/workers.c:14-68 | After any run with a worker and before `_stop`: the calls of post under way and the jobs posted take a bounded number of further steps, and when only a new call, the write of `_stop` or a spurious wakeup could follow, every call has returned, every worker waits, the queue is empty and finished equals posted. |
| PoolProgress.AnyJobsCanBeRun | src/unix/workers.c:14-68 | With at least one worker and one poster, any list of jobs can be posted and is run to the end with no join and no spurious wakeup. |
| PoolIndependence.StepsAreIndependent | src/unix/workers.c:14-80 | In any state, a step a thread can take stays possible whatever step another thread takes first, unless both take the lock or a signal ends the wait first; only whom a signal wakes may change. |
| PoolShutdown.ShuttingStep | src/unix/workers.c:17-41 | After a safe write of `_stop`, every step keeps a wakeup on its way to whoever waits and a worker for whatever is queued. |
| PoolShutdown.StepFalls | src/unix/workers.c:17-41 | After `_stop` every step, spurious wakeups included, lowers a measure over workers, queue and joiner. |
| PoolShutdown.NeverStuck | src/unix/workers.c:72-80 | Until `w_join` has returned some thread can step, without help from a spurious wakeup. |
| PoolShutdown.JoinedMeansComplete | src/unix/workers.c:79-82 | When `w_join` has returned all workers have exited and finished equals posted. |
| PoolShutdown.CompletionExists | src/unix/workers.c:72-80 | From every state on the way to shutdown there is a run that returns from `w_join`. |
| PoolStop.ShutdownIffStopSafe | src/unix/workers.c:17-80 | For any number of workers and posters, after any run: the join can always still complete with every job run if and only if `_stop` is written in a `StopSafe` state. |
| PoolStop.ShutdownTerminates | src/unix/workers.c:72-80 | After a safe write every run is bounded by the measure, and a run that only a spurious wakeup could continue has run every job and returned from the join. |
| PoolStop.UnsafeStop | src/unix/workers.c:21-22 | From any state that is not `StopSafe` there is a run to a lost wakeup or to abandoned jobs. |
| PoolStop.StrandedForever | src/unix/workers.c:21-22 | A lost wakeup stays lost whatever the threads do. |
| PoolStop.SpuriousWakeupRescues | src/unix/workers.c:21-22 | One spurious wakeup is enough to lead from a lost wakeup to a complete shutdown, and nothing else does. |
| PoolStop.AbandonedForever | src/unix/workers.c:17 | Jobs left behind by the loop guard are never run. |
| PoolStop.TestBeforeStopIsUnsafe | src/unix/workers.c:75 | One worker between its test and its wait is a reachable state in which writing `_stop` is unsafe. |
| PoolStop.PostBetweenGuardReadsIsUnsafe | src/unix/workers.c:17 | In either pool a post between the two reads of the guard leads to a reachable state in which writing `_stop` is unsafe. |
| PoolStop.PostBetweenGuardReadsInThreadpool | src/Nettverksprog/Threadpool.cpp:27 | The same run in the C++ pool, whose jobs take one entry and whose post signals inside the lock. |
| PoolStop.WriteWithLockFreeIsSafe | src/unix/workers.c:75 | In every reachable state with the lock free and the queue empty, writing `_stop` is safe. |
| PoolCalls.CallsArePosted | src/unix/workers.c:61-68 | For any number of posters, when no call is under way the jobs posted are exactly those the calls were made with. |
| PoolCalls.CallsArePostedInOrder | src/unix/workers.c:61-68 | A single poster's jobs are posted in the order of its calls. |
| PoolCalls.NothingPostedAfterStop | src/unix/workers.c:72-80 | After `_stop` is written the list of posted jobs no longer changes. |
| PoolQueue.QueueJob | src/unix/workers.c:61-65 | The critical section of post, on the ring buffer: two pushes append one whole job. |
| PoolQueue.TakeJob | src/unix/workers.c:25-33 | The critical section of a worker, on the ring buffer: one emptiness test and two reads take the oldest job, whole. |
| RingQueue.MSB | src/unix/queue.c:10-20 | The loop returns m with 2^m <= n < 2^(m+1) for every positive 64-bit n, and 0 for 0. |
| RingQueue.RoundUp | src/unix/queue.c:38-43 | Rounding gives the exponent of the least power of two not below the request. |
| RingQueue.CeilIsLeast | src/unix/queue.c:40-43 | That exponent is at most any other whose power is not below the request. |
| RingQueue.MaskWraps | src/unix/queue.c:83 | And with capacity minus one is the remainder modulo the capacity. |
| RingQueue.WindowPush | src/unix/queue.c:79-83 | Storing at the back index extends the circular sequence by one element, across wraparound too. |
| RingQueue.WindowNext | src/unix/queue.c:94-98 | Advancing the front index drops the oldest element, across wraparound too. |
| RingQueue.Queue.constructor | src/unix/queue.c:24-35 | A new queue is empty with capacity 8. |
| RingQueue.Queue.IsEmpty | src/unix/queue.c:86-88 | Tells whether the contents are empty. |
| RingQueue.Queue.Next | src/unix/queue.c:90-101 | Returns and removes the oldest element; on an empty queue returns null and changes nothing. |
| RingQueue.Queue.Drain | src/unix/queue.c:58-59 | Draining a queue through its own q_next copies the oldest elements out in order. |
| RingQueue.Queue.Resize | src/unix/queue.c:37-73 | A resize gives the least power of two not below the request and keeps the oldest elements that fit, in order. |
| RingQueue.Queue.Push | src/unix/queue.c:75-84 | Appends, doubling the capacity exactly when the queue is full; the copies made equal the old capacity. |
| QueueCost.RunAccounts | src/unix/queue.c:54-77 | Over any pushes and nexts the elements moved so far equal the capacity minus 8. |
| QueueCost.AmortisedGrowth | src/unix/queue.c:24-84 | All resizes of a run move fewer elements than twice the pushes, and the capacity is 8 or less than twice what the queue held at some moment of the run. |
| QueueCost.PushKeepsBooks | src/unix/queue.c:75-84 | A push changes the real queue exactly as the ledger says. |
| QueueCost.NextKeepsBooks | src/unix/queue.c:90-101 | A next changes the real queue exactly as the ledger says. |
| Bits.AndIsBitwise | src/unix/queue.c:14 | Bit i of `a & b` is the product of the bits. |
| Bits.OrIsBitwise | src/unix/boolset.c:59 | Bit i of a bitwise or is set when it is set in either word. |
| BitWords.PutBit | src/unix/boolset.c:52-59 | Clearing with the complement of the mask and or-ing a value sets that bit and no other. |
| BitWords.MembersPut | src/unix/boolset.c:40-59 | Changing one bit of one word adds or removes exactly that index, in all words. |
| BitWords.MembersExtend | src/unix/boolset.c:21-35 | Added zero words change nothing in the set. |
| BitSet.BoolSet.constructor | src/unix/boolset.c:8-17 | A new set is empty and one word long. |
| BitSet.BoolSet.Expand | src/unix/boolset.c:21-35 | Growth keeps every word and adds only zeros. |
| BitSet.BoolSet.Set | src/unix/boolset.c:39-60 | The set gains or loses exactly the index, and is reallocated only when the index is past its end. |
| BitSet.BoolSet.Get | src/unix/boolset.c:64-71 | Tells membership of any index below 64 times the size. |
| BitSet.BoolSet.Foreach | src/unix/boolset.c:80-94 | With a callback that clears any choice of the bits it is called for, visits each original member once in ascending order, reallocates nothing and leaves exactly the members not cleared. |
| LinkedStack.Stack.constructor | src/unix/stack.c:6-10 | A new stack is empty. |
| LinkedStack.Stack.Push | src/unix/stack.c:12-18 | Puts a value on top. |
| LinkedStack.Stack.Pop | src/unix/stack.c:20-28 | Takes the value on top of a stack that is not empty. |
| LinkedStack.Stack.IsEmpty | src/unix/stack.c:30-32 | Tells whether the stack is empty. |
| LinkedStack.Stack.Empty | src/unix/stack.c:34-40 | Terminates with the stack empty. |
| EndpointCalls.Endpoint.RegisterClient | src/unix/endpoint.c:22-27 | Adds exactly the descriptor to the client set. |
| EndpointCalls.Endpoint.DeregisterClient | src/unix/endpoint.c:29-34 | Removes exactly the descriptor from the client set. |
| EndpointCalls.Endpoint.Accept | src/unix/endpoint.c:142-162 | Stops at the first failed accept or a full buffer; the descriptors accepted are reported in order, and the record gains exactly those, the kernel and the selector alike; queued clients stay registered. |
| EndpointCalls.Endpoint.WaitEvent | src/unix/endpoint.c:179-191 | Copies out every event and puts on the queue one entry for each event whose flags have bit 13 set and for no other, the latest event first; -1 changes nothing; events for registered clients leave the queue within the record. |
| EndpointCalls.HangUpsByIndex | src/unix/endpoint.c:181-189 | The hang-ups of a reply are the clients of exactly the events whose flags have bit 13 set, with multiplicity, by descending position. |
| EndpointCalls.Endpoint.CloseHungups | src/unix/endpoint.c:194-204 | Terminates with the queue empty and exactly the queued clients gone from record, kernel and selector, duplicates included; the count returned is the number of clients closed if and only if the entries were distinct clients. |
| EndpointCalls.CountsClients | src/unix/endpoint.c:196-203 | Entries number at least the clients they name, and exactly as many if and only if they are distinct clients. |
| EndpointCalls.DuplicateIsOvercounted | src/unix/endpoint.c:199-203 | A client queued twice is counted twice and closed once. |
| EndpointCalls.Endpoint.DisconnectClient | src/unix/endpoint.c:206-222 | Takes one client from record, selector and kernel, and keeps the queue within the record exactly when the client is not queued. |
| EndpointCalls.Endpoint.DisconnectAllForeach | src/unix/endpoint.c:224-238 | The callback clears and closes one client and never reallocates the words being walked. |
| EndpointCalls.Endpoint.DisconnectAllClients | src/unix/endpoint.c:240-248 | Clearing the set while walking it closes each client once in ascending order and ends with set, kernel, selector and queue empty. |
| EndpointCalls.HangUpsAreEvents | src/unix/endpoint.c:181-189 | Only clients named by an event are queued. |
| EndpointRuns.QueueStaysRegistered | src/unix/endpoint.c:165-204 | Over any run of calls whose direct disconnects spare queued clients, every queued client is registered. |
| EndpointRuns.CallAccept | src/unix/endpoint.c:130-163 | endpoint_accept adds the accepted clients to the record of a run and leaves its queue. |
| EndpointRuns.CallWaitEvent | src/unix/endpoint.c:165-192 | endpoint_wait_event puts the hang-ups on the queue of a run and leaves its record. |
| EndpointRuns.CallCloseHungups | src/unix/endpoint.c:194-204 | endpoint_close_hungups takes the queued clients from the record of a run and empties its queue. |
| EndpointRuns.CallDisconnectClient | src/unix/endpoint.c:206-222 | endpoint_disconnect_client takes one client from the record of a run and leaves its queue. |
| EndpointRuns.CallDisconnectAllClients | src/unix/endpoint.c:240-248 | endpoint_disconnect_all_clients empties record and queue of a run. |
| EndpointLocks.LockStep | src/unix/endpoint.c:15-41 | Every step of any thread keeps each lock with the one thread that is inside its section. |
| EndpointLocks.NoRelock | src/unix/endpoint.c:198-201 | No thread waits for a lock it holds, and none waits for the queue lock while it holds the client lock. |
| EndpointLocks.NoDeadlock | src/unix/endpoint.c:194-248 | For any number of threads and any mix of calls, while some thread is inside a call one such thread can step. |
| EndpointProgress.StepFalls | src/unix/endpoint.c:130-248 | While no call begins, every step of any thread lowers a measure over the threads, the queue and the record. |
| EndpointProgress.CallsReturn | src/unix/endpoint.c:130-248 | For any threads, after any run: the calls begun take a bounded number of further steps however they interleave, and when none can step all have returned. |
| EndpointIndependence.StepsAreIndependent | src/unix/endpoint.c:130-248 | With the locks held as they are in every run, a step a thread can take stays possible whatever step another thread takes first, unless both take the same lock, accept the same descriptor, or the client leaves the selector before its hang-up is reported. |
| EndpointReuse.StepKeepsInv | src/unix/endpoint.c:147-222 | Every step of any thread, when no connection is disconnected twice, keeps what is known of a descriptor at each point of its life. |
| EndpointReuse.RecordAgreesWithKernel | src/unix/endpoint.c:147-248 | Under descriptor reuse, if no connection is disconnected twice: every registered descriptor is open, a descriptor nobody works on, queued or not, is registered exactly when it is an open client in the selector, record, kernel and selector are equal when no call is under way, and the walk of disconnect-all ends with the record empty. |
| EndpointReuse.TwoDisconnectsBreakTheRecord | src/unix/endpoint.c:206-222 | Two disconnects of one client at once can close a later connection and leave it on record. |
| EndpointConservation.HangupsAreConserved | src/unix/endpoint.c:165-204 | Over any run of any threads: the hang-ups reported are those about to be queued, those queued, those taken from the queue to be disconnected and those cleared by disconnect-all, as multisets. |
| EndpointConservation.ClearedIsEmpty | src/unix/endpoint.c:240-248 | Once disconnect-all has cleared the queue, it stays empty until a hang-up is queued. |
| EndpointSolo.CallAlone | src/unix/endpoint.c:130-248 | From any state: a call whose thread finishes while no other moves changes the record and the queue as the call is said to, and keeps record, kernel and selector in agreement. |
| EndpointSolo.CallsAreRealised | src/unix/endpoint.c:130-248 | Every orderly list of calls is a run of the single steps that disconnects no connection twice, is strict when the callers are, and ends with the record and queue that the calls say, the kernel and selector equal to the record. |
| EndpointHangups.StrictIsDisciplined | src/unix/endpoint.c:198-201 | When a queued client is left to the queue and queued once, draining the queue never disconnects a connection twice. |
| EndpointHangups.QueuedAreClients | src/unix/endpoint.c:181-201 | Then, over any run, every queued descriptor is an open, registered client in the selector. |
| HeaderText.TrimIs | src/unix/http.c:55-68 | The text between the first and the last non-space characters is the trimmed text. |
| HeaderText.TrimIsTrimmed | src/unix/http.c:55-68 | Trimmed text has no space at either end and is no longer than the text. |
| HeaderText.RoundTrip | src/unix/http.c:88-102 | A printed field parses back to itself exactly when the key has no colon and both texts are trimmed. |
| HeaderText.LinesOfJoin | src/unix/http.c:115-127 | Splitting lines that were joined with CRLF gives the lines back, empty ones too, when the last is not empty. |
| Headers.StoredIsRead | src/unix/http.c:79-83 | What is copied into a header's buffers is what a C string read of them gives. |
| Headers.ScanColon | src/unix/http.c:45-50 | The scan finds the first colon, or the length; it never goes past the length. |
| Headers.PartBounds | src/unix/http.c:52-68 | The two scans give a part a length if and only if it holds more than spaces, or is empty with no space on either side, and then they enclose exactly its trimmed text. |
| Headers.Lengths | src/unix/http.c:45-73 | Of any line whose scans end inside the text, the key's length is negative exactly when the key is not such a part, and so for the value; otherwise the lengths are those of the trimmed texts. |
| Headers.CopyableIffWellFormed | src/unix/http.c:62-73 | Of a line with a key and no space after it, the value's length is nonnegative if and only if the line has a colon and a value that is empty or not all spaces. |
| Headers.WellFormedIsParsable | src/unix/http.c:44-86 | Every well-formed line with no space after it meets all that parsing asks of it. |
| Headers.ColonlessLine | src/unix/http.c:45-76 | A line without a colon is refused if and only if its trimmed text is too long for a key; otherwise a copy is given a negative length. |
| Headers.ColonlessExample | src/unix/http.c:49 | A line of three letters is one that is not refused. |
| Headers.StrToHeader | src/unix/http.c:44-86 | Any line whose scans end inside the text, and none of whose copies has a negative length, parses to the trimmed text either side of its first colon, and returns 0, if both texts have at most 63 characters; a longer field is refused with -1 and changes nothing. |
| Headers.HeaderToStr | src/unix/http.c:88-102 | Leaves key, colon, space and value and then a null at the front of the buffer, and the rest as it was; or refuses and changes nothing when these do not fit. |
| HeaderList.LineEndIsIndex | src/unix/http.c:115-116 | The scan for the end of a line finds the first carriage return of the block, or its end. |
| HeaderList.BlockSpansAreLines | src/unix/http.c:119-128 | The index walk delimits the same texts as splitting the block. |
| HeaderList.ScanIsSplitIff | src/unix/http.c:126-127 | The loop sees the lines of the block if and only if no line but the first is left open at its end. |
| HeaderList.ReturnSplits | src/unix/http.c:126-127 | A carriage return after the block makes the loop see its lines. |
| HeaderList.SpansNext | src/unix/http.c:124-127 | Two characters past the end of a line is where the next one begins, or the loop ends. |
| HeaderList.ScanLine | src/unix/http.c:126-127 | The scan that looks before it tests the limit finds the line's end. |
| HeaderList.ParseLine | src/unix/http.c:120-122 | One turn fills the next header exactly when the field fits, and leaves all others. |
| HeaderList.StrToHeaders | src/unix/http.c:110-131 | The loop terminates and leaves the first dst_size of the fields that fit, in order, in the first headers, and the others untouched. |
| HeaderList.BlockToHeaders | src/unix/http.c:110-131 | On a block that a carriage return follows, the loop equals splitting the block into lines, parsing each, dropping those too long and taking the first dst_size. |
| HeaderList.OpenBlockStretches | src/unix/http.c:126-127 | When the block ends inside its second or a later line and no carriage return follows, the loop sees that line with one more character and all others as they are. |
| HeaderRoundTrip.ListRoundTrip | src/unix/http.c:110-131 | A printed list followed by a carriage return can be read, and gives its first dst_size headers unchanged and in order. |
| HeaderRoundTrip.ReadPrinted | src/unix/http.c:110-131 | Run on a printed list, the loop leaves headers whose C strings are the list's first dst_size headers. |
| HeaderRoundTrip.PrintedHeaderReadsBack | src/unix/http.c:97-101 | What the printer leaves in a buffer, null included, is a line the parser accepts and reads as the same header. |
| HeaderRoundTrip.PrintThenParse | src/unix/http.c:44-102 | The printer run on a sendable header with room for it, followed by the parser on its buffer, returns 0 and stores a header with the same C strings. |
| HeaderNullClosed.LineWithNull | src/unix/http.c:62-76 | The last line taken with the null parses to the same field with the null at the end of its value, if that fits. |
| HeaderNullClosed.ReadNullClosed | src/unix/http.c:110-131 | Run on a printed list that a null follows, the loop leaves the list's headers as C strings, and all that were asked for unless the last of several is among them and its value fills the buffer. |
| EventPacking.OrSplits | apps/Run_unix_srv.c:164 | The or of two words is the or of their high halves beside the or of their low halves. |
| EventPacking.PackIs | apps/Run_unix_srv.c:164 | Modulo 2^32 the packed word is the client, and divided by 2^32 it is the flags, except that the sign of a negative client fills the high half. |
| EventPacking.UnpackOfPack | apps/Run_unix_srv.c:130-132 | Unpacking gives back the client always, and the flags if and only if the client is not negative or the flags are all ones. |
| EventDelivery.ClientEventProcessor | apps/Run_unix_srv.c:153-173 | The loop ends at the first wait that returns -1 or less or finds `stop` set; it calls w_post once for each earlier wait that returned an event, in order, with the handler and the packed event, and so leaves those jobs on the ring buffer. |
| EventDelivery.ReceivedSplits | apps/Run_unix_srv.c:163-169 | What is received over waits that do not end the loop, timeouts among them, and what follows, is both in turn. |
| EventDelivery.NothingReceivedAfterEnd | apps/Run_unix_srv.c:163 | From the first wait that returns -1 or less or finds `stop` set, nothing is received. |
| EventDelivery.ReceivedByIndex | apps/Run_unix_srv.c:163-169 | Over waits that do not end the loop, the events received are those of exactly the waits that returned a positive count, in order. |
| EventDelivery.SeenInAnyOrder | apps/Run_unix_srv.c:130-132 | The multiset of events seen does not depend on the order in which jobs run. |
| EventDelivery.EventsDelivered | apps/Run_unix_srv.c:130-167 | After a complete shutdown every job run has the handler for its first word, and the events seen equal the events posted, as multisets, if and only if every event survives packing. |
| EventDelivery.EventsDeliveredAfterJoin | apps/Run_unix_srv.c:153-221 | For any workers and posters, once a join begun in a safe state has run out, the handler, and nothing else, has been run, and on exactly the events that w_post was called with. |
| EventDelivery.LoopEventsDelivered | apps/Run_unix_srv.c:153-221 | With one poster whose calls are those of the event loop, the handler has seen exactly the events that endpoint_wait_event returned to the loop. |

## Left out

- HeaderToStr: does not model the value returned on success, because the source returns none.
- Endpoint.Accept: does not model the -1 return, which depends on an event struct that is left unset when `epoll_wait` times out.
- Endpoint.WaitEvent: does not model the cap on the number of events per call; any reply that fits the caller's buffers is covered.
- Endpoint.DisconnectAllClients: the loops of `boolset_foreach` stand inside its methods, since the callback changes the kernel as well as the set that is walked.
- BitSet.BoolSet.Foreach: a callback that sets bits, or clears bits other than the one it is called for, is not covered; the repository has none.
- ReadPrinted: values that are empty are excluded, because the printed line then ends in a space and the value's length comes out negative.
- ClientEventProcessor: its ring buffer is touched by no worker meanwhile; `LoopEventsDelivered` takes the loop's calls, not its buffer, into the pool machine.
- The pool machine keeps its queue as a sequence of words; the ring buffer's limit of 2^30 elements is not in it.
- Words are numbers with the C operators defined on them bit by bit, not machine bit-vectors; overflow of the queue's `long` fields cannot occur below the capacity limit.
- Header buffers are values replaced in an array, so writing half a header is not a separate state.
- Freed memory: `free` and `malloc` failure are not modelled.
- Sockets, epoll and timeouts are the operating system's and appear only as ghost sets, arbitrary replies and arbitrary arrivals.
- `endpoint_create`, `endpoint_close`, `boolset_destroy`, `q_destroy`: allocation and release only.
- `src/unix/endpoint2.c`: not part of the build.
- `http_header_set`: a plain copy. `http_count_headers` and the request and response functions are empty or only declared.
- `html_answer`, the calculator programs, `Server_example`, `Epoll_test` and `Run.c`: input and output only.
- The memory model of C beyond the assumptions above: every access to shared state is one step.
