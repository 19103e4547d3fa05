# Concurrent task stack: a verified model

The repository is a header-only C++17 stack: a bounded multi-producer multi-consumer ring queue, three
thread pools (one on a mutex and condition variables, two on the ring queue), a length-prefixed wire
protocol with a client and a server, and metrics. This project models its concurrent and its protocol
code in Dafny and proves what that code guarantees.

Concurrent code is a step machine: a state, and a total function `Step` that performs one atomic access,
or one critical section, of one thread. Any number of threads run under any schedule. A move that a thread
cannot make leaves the state as it is, so every statement about `Run` is a statement about all
interleavings. Fields that record history (`pushed`, `taken`, `begun`, `ended`, `log`, ...) are named as
such where the state is declared; no step reads them. Where the code is a retry loop over shared memory or
a loop over a buffer, there is also a class or a method with that loop, proved against the machine or
against a specification function.

| files | what they hold |
|---|---|
| `RingArithmetic`, `QueueMachine`, `QueueInvariant`, `QueueTheorems`, `QueueEffects` | the ring queue as a step machine, its invariant, its guarantees, and a step as the pools see it |
| `QueueRuns` | whole operations of one thread, and runs that show what the ring queue does not guarantee |
| `LockFreeQueue` | the ring queue as a class with arrays, compare-exchanges and retry loops, other threads acting before every access |
| `ThreadPoolV2`, `PoolV2Invariant`, `PoolV2Submissions`, `PoolV2Calls`, `PoolV2Theorems` | the lock-free pool on top of the queue's machine, and what a run says about the calls of one thread |
| `PoolV2Runs`, `PoolV2Progress`, `PoolV2Counterexamples` | pieces of the pool's code run by one thread, how a worker comes back to the queue, and runs that show what the pool does not guarantee |
| `ThreadPoolV3`, `PoolV3Invariant`, `PoolV3Steps`, `PoolV3Calls`, `PoolV3Theorems` | the instrumented pool on top of the lock-free one, and what a run says about its bodies and calls |
| `PoolV3Runs`, `PoolV3Counterexamples` | the same for the instrumented pool |
| `ThreadPoolV1`, `PoolV1Invariant`, `PoolV1Theorems` | the mutex pool as a monitor with an explicit lock, sleepers and spurious wake-ups |
| `Protocol`, `FramedSocket` | frames, their parser, and the send and receive loops over a chunked stream |
| `TaskServer`, `TaskClient`, `Session` | the server's connection loop, the client's calls, and both together as one machine |
| `Histogram` | the histogram under concurrent observers, and as a class |
| `Tally`, `Counting` | sums, and how many elements of a sequence have a property |

The code promises less than its comments in several places. The model follows the code:

- `include/lockfree_queue.h:12` says wait-free. There is no bound on the passes of one call
  (`QueueRuns.UnboundedRetries`); `QueueTheorems.PassesBounded` is the bound that does hold.
- A failed `try_enqueue` or `try_dequeue` does not mean full or empty while another thread is inside its
  critical window (`QueueRuns.FullWithACellFree`, `QueueRuns.EmptyWithAnItemAccepted`).
  `QueueTheorems.EnqueueFails` and `DequeueFails` say exactly what it means.
- `include/threadpool_v2.h:56-66` describes counting a task before it is taken. `worker_loop` takes it first.
  `PoolV2Counterexamples.WaitAllReturnsEarly` is a run in which `wait_all` returns with an accepted task not
  begun, and `PoolV2Theorems.WaitAllIsExact` says exactly when it is right.
- `include/threadpool_v2.h:110` moves the task into every attempt. A second attempt offers the empty function
  that the first one left. `PoolV2Counterexamples.RetryCrashes` is a run in which that ends the process, and
  `PoolV2Theorems.CrashedExactly` says for every run exactly when it does.
- The destructors of V1 and V2 promise to drain the queue. A client that is past the stop check and can still
  put its task into the queue when `stop_` is set can have it accepted and never run. The tasks lost are at
  most as many as those clients (`UnrunAreLate`), none if there is none (`DrainsExactlyOnce`), and as many for
  any number of workers (`OverlapLosesTasks`).
- `include/threadpool_v3.h:72` counts a submission that `include/threadpool_v3.h:106` then rejects; a `wait_all`
  that counts it cannot return (`PoolV3Theorems.RejectionBlocksWaitAll`, and a run that gets there in
  `PoolV3Counterexamples.RejectedWaitNeverReturns`).
- `wait_all` of the instrumented pool compares sums, so a task submitted meanwhile can stand in for a counted one
  that has not begun (`PoolV3Counterexamples.OverlapEndsWaitEarly`); `PoolV3Theorems.WaitAllExact` is what holds.
- `include/threadpool.h:75-78` announces the end of a task outside the mutex, and `wait_all` can miss the last
  announcement and sleep for ever (`PoolV1Theorems.WaitAllSleepsForEver`). `PoolV1Theorems.WaitersAreWoken` says
  for every run exactly when: it goes to sleep when what it waits for is so and nobody is left to announce it.
- `include/task_client.h:27-30` says that ids match replies to requests. `submit` never compares them, and a
  client that is used again after a failed call can return an older reply (`Session.StaleReply`).
- `encode` reduces the size of the payload to 32 bits, so it is injective only below 2^32 bytes, and
  `recv_message` returns what was sent only up to 64 MiB (`Protocol.RoundTrip` is the exact condition).

## Model

| member | source | states |
|---|---|---|
| RingArithmetic.MaskIsModulo | include/lockfree_queue.h:200 | for a power of two the mask is the modulo, on all natural numbers |
| RingArithmetic.MaskIsSlot | include/lockfree_queue.h:68-69 | every capacity that passes the two compile-time checks makes the masked index the slot of the ticket |
| RingArithmetic.SlotInjective | include/lockfree_queue.h:99 | tickets less than one lap apart never share a slot |
| RingArithmetic.WordsAgree | include/lockfree_queue.h:99-104 | below 2^63, wrapping increment, masked index and signed difference equal the mathematical ones |
| QueueInvariant.StepKeepsInv | include/lockfree_queue.h:95-173 | every access of every thread keeps the ticket invariant: counters, window of live cells, program counters, exclusive tickets, deliveries |
| QueueTheorems.InitInv | include/lockfree_queue.h:72-80 | the constructor's state satisfies the invariant for every capacity of at least 2 |
| QueueTheorems.StepRefinesFifo | include/lockfree_queue.h:95-173 | each step is a step of a bounded FIFO: a put that fits, a get of the oldest item, or nothing |
| QueueTheorems.Linearizes | include/lockfree_queue.h:95-173 | in every run of any number of threads the winning compare-exchanges, in order, are a run of a FIFO bounded by the capacity that ends with the ring's contents; the k-th put is the item of ticket k and the k-th get what the dequeuer of ticket k returns |
| QueueTheorems.ResultsAreFifo | include/lockfree_queue.h:140-161 | in every reachable state the dequeuer of ticket k returns exactly what the enqueuer of ticket k put in |
| QueueTheorems.DeliveredOnce | include/lockfree_queue.h:155-161 | over any run a ticket's item is handed over at most once, and then stays as it was |
| QueueTheorems.NothingLost | include/lockfree_queue.h:95-173 | with no operation in its window, what was handed out is exactly what lies below head, and the cells hold exactly the rest |
| QueueTheorems.OwnershipIsExclusive | include/lockfree_queue.h:68-162 | from winning a ticket to its sequence store no other thread holds, reads or writes that cell, on any lap |
| QueueTheorems.EnqueueFails | include/lockfree_queue.h:103-127 | try_enqueue gives up if and only if its index is the current tail and the ticket a lap before is not released |
| QueueTheorems.DequeueFails | include/lockfree_queue.h:145-167 | try_dequeue gives up if and only if its index is the current head and the queue is empty or that item is claimed and unpublished |
| QueueTheorems.FailureAlone | include/lockfree_queue.h:95-173 | with no other thread in its window, giving up means exactly full, and exactly empty |
| QueueTheorems.PassesBounded | include/lockfree_queue.h:98-172 | passes of a retry loop are at most one, plus the advance of the shared counter, plus spurious failures |
| QueueTheorems.RetryAdvances | include/lockfree_queue.h:107-130 | a retry has a strictly larger index or was a spurious failure |
| QueueRuns.FullWithACellFree | include/lockfree_queue.h:103-127 | a run in which a call of try_enqueue comes out full although tail - head is below the capacity during the whole call |
| QueueRuns.EmptyWithAnItemAccepted | include/lockfree_queue.h:145-167 | a run in which a call of try_dequeue comes out empty although an item accepted before is in the queue during the whole call |
| QueueRuns.UnboundedRetries | include/lockfree_queue.h:98-130 | for every n a run in which one call of try_enqueue makes more than n passes without a spurious failure |
| QueueTheorems.SizeBounds | include/lockfree_queue.h:180-186 | size() is the tail of its second load minus the head of its first, so at every instant between them it exceeds the number of items by exactly the tickets claimed after and the items handed out before; zero means empty throughout with no ticket claimed |
| QueueTheorems.RunOnWords | include/lockfree_queue.h:99-154 | while tail + Capacity <= 2^63, the run with 64-bit arithmetic is the run with unbounded counters, state for state |
| LockFreeQueues.LockFreeQueue.constructor | include/lockfree_queue.h:72-80 | sequence numbers start as the slots' own indices, both counters at 0 |
| LockFreeQueues.LockFreeQueue.EnqueuePass | include/lockfree_queue.h:98-130 | one pass of the loop under interference: wins its index, gives up truthfully, or retries with progress |
| LockFreeQueues.LockFreeQueue.TryEnqueue | include/lockfree_queue.h:95-132 | terminates when the other threads get finitely many turns; a success wins a ticket that now holds the item; a failure was true at its sequence load; passes are bounded; undisturbed it is a bounded FIFO's put |
| LockFreeQueues.LockFreeQueue.DequeuePass | include/lockfree_queue.h:143-171 | one pass of the loop under interference: wins its index, gives up truthfully, or retries with progress |
| LockFreeQueues.LockFreeQueue.TryDequeue | include/lockfree_queue.h:140-173 | terminates when the other threads get finitely many turns; a result is the item of the ticket it won; nothing was true at its sequence load; passes are bounded; undisturbed it is a FIFO's get |
| LockFreeQueues.LockFreeQueue.Size | include/lockfree_queue.h:180-184 | the difference of its two loads, and at least the number of items at every instant of its window, whatever other threads do in it |
| LockFreeQueues.LockFreeQueue.SizeWindow | include/lockfree_queue.h:180-186 | the bound for size() at every step of a run between its two loads |
| LockFreeQueues.LockFreeQueue.Empty | include/lockfree_queue.h:186 | true if and only if the tail of its second load is the head of its first, and then head equalled tail throughout its window, without a ticket claimed in it |
| PoolV2Invariant.StepKeepsInv | include/threadpool_v2.h:91-227 | every step of enqueue, wait_all, worker_loop and the destructor keeps exact counters, one place per ticket, and a worker for every queued task |
| PoolV2Theorems.Accounting | include/threadpool_v2.h:107-206 | in every run tail and head equal the pool's counters plus the threads between the two updates |
| PoolV2Theorems.AtMostOnce | include/threadpool_v2.h:194-206 | a task body runs at most once, and only for a ticket that was taken |
| PoolV2Theorems.DestructorJoins | include/threadpool_v2.h:158-164 | in every run, when the destructor has returned in some thread every worker has left its loop |
| PoolV2Theorems.DestructorEnds | include/threadpool_v2.h:158-164 | in every run the destructor comes to its end at exactly the steps of its thread after the last worker left its loop |
| PoolV2Theorems.UnrunAreLate | include/threadpool_v2.h:158-215 | in every run, once the destructor has returned in some thread: every taken task ran exactly once, and the accepted tasks that never run are at most the clients that could still put one into the queue when stop_ was set |
| PoolV2Theorems.DrainsExactlyOnce | include/threadpool_v2.h:158-215 | in every run, once the destructor has returned and if there was no such client, every accepted task ran exactly once, those submitted by tasks included |
| PoolV2Counterexamples.OverlapLosesTasks | include/threadpool_v2.h:91-215 | for any capacity, any number of workers and up to capacity such clients, a run in which the destructor returns with all their tasks accepted and none run |
| PoolV2Theorems.WaitAllReturns | include/threadpool_v2.h:130-149 | in every run wait_all comes to its end at exactly the loads, after an empty queue, that find no task active |
| PoolV2Theorems.WaitAllBound | include/threadpool_v2.h:130-149 | in every run, at the step in which a wait_all returns: what was accepted before its call is taken, no task is running, the unfinished ones are with workers before their count, none begun, at most one each; with no ticket claimed since the call the queue is empty |
| PoolV2Theorems.WaitAllIsExact | include/threadpool_v2.h:130-200 | when it returns with no ticket claimed since its call, all accepted tasks have ended if and only if no worker is between taking and counting a task |
| PoolV2Theorems.EnqueueThrows | include/threadpool_v2.h:96-117 | in every run enqueue throws if and only if it finds stop_ set, before its first attempt or after a refused one, or has had 1001 attempts refused since its call; otherwise it makes the next attempt |
| PoolV2Theorems.AcceptedJob | include/threadpool_v2.h:105-117 | what is put into the queue is the task on the first attempt and its empty remainder on any later one |
| PoolV2Theorems.RemaindersAreRetries | include/threadpool_v2.h:105-117 | in every run the queue's history holds a remainder at exactly the tickets claimed on an attempt after the first |
| PoolV2Theorems.CrashedExactly | include/threadpool_v2.h:105-200 | in every run the process has ended if and only if a worker has begun a task that was accepted on an attempt after the first, and has gone on with it |
| PoolV2Theorems.BegunRetryIsFatal | include/threadpool_v2.h:194-200 | such a task never ends once it has begun, and whatever its worker does next ends the process |
| PoolV2Counterexamples.RetryCrashes | include/threadpool_v2.h:105-200 | for any capacity a run in which a submission meets a full queue, is accepted on its second attempt, returns normally, and ends the process |
| PoolV2Theorems.FirstAttemptsNeverCrash | include/threadpool_v2.h:105-199 | a run whose accepted submissions were all accepted on their first attempt never ends the process |
| PoolV2Counterexamples.WaitAllReturnsEarly | include/threadpool_v2.h:130-198 | a run in which wait_all returns while an accepted task has not begun |
| PoolV2Submissions.StepMovesPending | include/threadpool_v2.h:96-121 | a submission goes from enqueue into the queue or out by an exception, and nowhere else |
| PoolV2Progress.WorkerComesBack | include/threadpool_v2.h:188-227 | in every run, while something is queued and no operation is in its window, a worker between two dequeues that has not found the queue empty after the stop takes the oldest task within 12 of its own steps, if the others pause |
| PoolV3Steps.StepKeepsInv | include/threadpool_v3.h:66-137 | every step of the wrapper, of wait_all and of the inner pool keeps one place per submission, per task and per promise |
| PoolV3Theorems.Conservation | include/threadpool_v3.h:66-109 | in every run submitted = completed + failed + rejected + inside enqueue + queued + taken and uncounted; and each submission is in exactly one place |
| PoolV3Theorems.SettledOnce | include/threadpool_v3.h:78-105 | a body runs and its promise is settled at most once, with a value before it counts as completed and an exception before it counts as failed |
| PoolV3Theorems.OutcomesMatch | include/threadpool_v3.h:85-103 | in every run: a promise has a value, and its task counts as completed, only if its body returned; an exception, and failed, only if it threw; if and only if once settled, and once counted |
| PoolV3Runs.BodyIsCounted | include/threadpool_v3.h:85-107 | four steps after its body ended, by returning or throwing, a worker is out of the wrapper, with the promise settled and the task counted accordingly |
| PoolV3Theorems.WaitAllExact | include/threadpool_v3.h:126-137 | in every run, at the step in which a wait_all returns: what was accepted before its call is taken, and if nothing was submitted since its call: none rejected, all accepted on the first attempt, all bodies ended, all promises settled, each task in exactly one counter |
| PoolV3Theorems.PollDecides | include/threadpool_v3.h:130-133 | whatever other threads do between its two loads, a poll ends wait_all if and only if the tasks completed at the first load and those failed at the second are as many as it waits for |
| PoolV3Theorems.DonePollEnds | include/threadpool_v3.h:130-133 | a poll that begins with all those tasks done ends wait_all, however many of them failed |
| PoolV3Theorems.RejectionBlocksWaitAll | include/threadpool_v3.h:72-133 | once a submission was rejected, a wait_all that counts it never leaves its loop unless somebody submits more |
| PoolV3Counterexamples.RejectedWaitNeverReturns | include/threadpool_v3.h:66-133 | for any capacity a run to a rejected submission and a wait_all that counts it, which no continuation without a further submission brings back |
| PoolV3Counterexamples.OverlapEndsWaitEarly | include/threadpool_v3.h:126-133 | a run in which wait_all returns although a task it counted has not begun, because a later one was counted in its place |
| PoolV1Invariant.StepKeepsInv | include/threadpool.h:48-168 | every step keeps the lock discipline, the FIFO, one place per task, the wake-up balance and the drain condition |
| PoolV1Theorems.NoWorkIsSleptThrough | include/threadpool.h:57-120 | in every run with a sleeping worker, queued tasks are at most enqueuers about to notify plus awake workers about to test; after the destructor's notify_all nobody sleeps |
| PoolV1Theorems.SomeoneWillTest | include/threadpool.h:57-120 | a queued task is never left to sleeping workers alone |
| PoolV1Theorems.Accounting | include/threadpool.h:60-120 | in every run enqueued = queued + active + finished, the queue is the untaken rest in order, and no task ends twice |
| PoolV1Theorems.WaitAllIsExact | include/threadpool.h:127-132 | wait_all comes to its end at exactly the tests at which every task enqueued so far has ended and no worker is about to decrement |
| PoolV1Theorems.NothingRefusedBeforeStop | include/threadpool.h:97-120 | in every run the submissions are the tasks put into the queue plus those that found stop_ set on entering enqueue plus those on their way; none is refused before the stop |
| PoolV1Theorems.DestructorJoins | include/threadpool.h:158-168 | in every run, when the destructor has returned in some thread every worker has left its loop |
| PoolV1Theorems.DestructorEnds | include/threadpool.h:158-168 | the destructor comes to its end at exactly the steps of its thread after the last worker left its loop |
| PoolV1Theorems.UnrunAreLate | include/threadpool.h:158-168 | in every run, once the destructor has returned in some thread: every taken task ended exactly once, and the queue holds at most as many tasks as clients were past the stop check when stop_ was set |
| PoolV1Theorems.DrainsExactlyOnce | include/threadpool.h:158-168 | in every run, once the destructor has returned and if there was no such client, every task ended exactly once |
| PoolV1Theorems.WaitAllSleepsForEver | include/threadpool.h:75-132 | a run in which wait_all misses the last announcement, after which nothing but a spurious wake-up changes the state |
| PoolV1Theorems.StuckExactly | include/threadpool.h:75-132 | the only step that leaves a wait_all asleep with its predicate true and no announcement to come is its own going to sleep in just that situation |
| PoolV1Theorems.StuckEnds | include/threadpool.h:75-132 | such a wait_all is freed by a new task or by a spurious wake-up of its own, and by nothing else |
| PoolV1Theorems.WaitersAreWoken | include/threadpool.h:48-132 | in every run a wait_all asleep with its predicate true has a worker about to announce, or went to sleep too late and is stuck since; stuck if and only if so |
| PoolV1Theorems.OverlapLosesTasks | include/threadpool.h:97-168 | for any number of workers and of clients past the stop check, a run in which the destructor returns with all their tasks in the queue and none run |
| Protocol.BigEndianInverse | include/protocol.h:126-131 | reading a 32-bit number in network byte order (RFC 1700, Introduction, Data Notations) inverts writing it |
| Protocol.BigEndianOnto | include/protocol.h:182-190 | writing inverts reading, for every four bytes |
| Protocol.FrameLayout | include/protocol.h:117-139 | the frame byte by byte: type, id and length with the most significant byte first, and the payload up to its size modulo 2^32 |
| Protocol.ParseFrame | include/protocol.h:117-203 | what is received of any message followed by anything: its frame's part, or a refusal over 64 MiB |
| Protocol.RoundTrip | include/protocol.h:117-203 | decoding returns the encoded message and the rest if and only if its payload is within 64 MiB |
| Protocol.ParsedIsFrame | include/protocol.h:175-203 | whatever is received re-encodes to exactly the bytes it was read from |
| Protocol.ParserIsExact | include/protocol.h:175-203 | receiving succeeds if and only if the stream begins with the frame of a message within the limit |
| Protocol.PrefixFree | include/protocol.h:117-139 | a stream has at most one reading as a frame and a rest |
| Protocol.CutFrameFails | include/protocol.h:175-203 | a proper prefix of a frame is never received |
| Protocol.StreamRoundTrip | include/protocol.h:117-203 | any list of messages within the limit, sent one after the other, parses back to that list |
| FramedSocket.Encode | include/protocol.h:117-139 | the buffer that is filled in place is the frame |
| FramedSocket.SendAll | include/protocol.h:147-155 | everything is sent if no call fails, and a proper prefix otherwise, for every choice of partial sends |
| FramedSocket.RecvAll | include/protocol.h:157-165 | the buffer is filled from the stream, or as far as it goes, for every choice of partial receives |
| FramedSocket.SendMessage | include/protocol.h:168-171 | a success sends exactly the frame |
| FramedSocket.RecvMessage | include/protocol.h:175-203 | succeeds exactly on a frame within the limit and takes exactly its bytes; what each kind of failure leaves in the message and in the stream |
| FramedSocket.Exchange | include/protocol.h:147-203 | sending a list and receiving until the end gives back that list, however either side is cut |
| TaskServers.TaskServer.HandleConnection | include/task_server.h:155-191 | sends the replies to what the stream holds, all of them in full if no call of the kernel fails; replies are missing only after a failed receive or a reply other than a PONG cut short; the counters grow by the requests handled and the handlers that threw |
| TaskServers.TaskServer.CallHandler | include/task_server.h:166-185 | the reply to a request byte for byte: type 2 with the text, type 3 with "ERROR: " and what was thrown, or with "ERROR: unknown exception"; the two counters |
| TaskServers.ReplyIs | include/task_server.h:160-185 | type 5 answers type 4; every other reply has the type and the bytes that its handler call decides |
| TaskServers.EveryRequestIsAnswered | include/task_server.h:155-191 | while running, every ping and request gets one reply in order with its own id, the handler is called once a request with its payload, and what follows in the stream is answered after that |
| TaskServers.OtherMessageEndsIt | include/task_server.h:158-166 | a message of any other type, or what is no message within the limit, ends the connection, and nothing else in the stream does |
| TaskServers.StoppedServerAnswersPrefix | include/task_server.h:155-191 | a server stopped part-way has answered exactly the messages before, as if nothing had followed |
| TaskClients.IdsCount | include/task_client.h:105-106 | the k-th id after an id is that id plus k, modulo 2^32 |
| TaskClients.IdsAreFresh | include/task_client.h:105-106 | two calls have different ids if fewer than 2^32 lie between them, and the same if exactly 2^32 do |
| TaskClients.TaskClient.Submit | include/task_client.h:101-125 | one request of type 1 with the next id goes out, the next frame is the answer, and it is an exception exactly if its type is 3; a failed send or receive and what it leaves of both streams |
| TaskClients.TaskClient.Ping | include/task_client.h:131-139 | true exactly if the next frame has type 5; how much of the ping was sent and of the stream was consumed otherwise |
| Session.StepKeepsInv | include/task_server.h:155-191 | every partial send or receive, handler call, failure or stop on either side keeps the session invariant while no client call failed |
| Session.SubmitsReturnOutcomes | include/task_client.h:101-139 | in every such run each submit that returned had its own handler call, in order, with its payload, and returns that call's outcome; pings are alive; reply ids match |
| Session.ReturnedOutcome | include/task_client.h:101-139 | in every such run the k-th call that returned had a reply with its id, a ping was alive, and a submit returned, byte for byte, the outcome of the handler call with as many calls before it as submits before that one |
| Session.IdsAreDistinct | include/task_client.h:105-133 | in every run of up to 2^32 calls, failed ones included, the calls that returned have pairwise different ids; without a failed call the k-th has id 1 + k modulo 2^32 |
| Session.OneFrameInFlight | include/task_server.h:155-191 | at most one frame is under way over both directions, and which bytes of which frame they are |
| Session.SubmitCompletes | include/task_server.h:155-191 | from every state with nothing under way a submit within the limit has a run to its end, and returns the outcome of its own handler call, whatever that is |
| Session.PingCompletes | include/task_server.h:160-164 | from every such state a ping has a run to its end and finds the server alive |
| Session.PongFailureGoesOn | include/task_server.h:160-164 | a run in which a PONG cannot be sent and a later submit of the same client is answered |
| Session.StoppedServerIsSilent | include/task_server.h:156 | once stopped and at the test of its loop the server handles no further request and sends nothing more, in any continuation |
| Session.StaleReply | include/task_client.h:101-125 | after a failed call a submit can return the reply to the call before it |
| Histograms.RunKeepsInv | include/metrics.h:92-114 | in every run with any number of observers each bucket counts exactly the observations within its bound that are past it, and the count exactly those that ended |
| Histograms.BucketsAreCumulative | include/metrics.h:107-114 | a bucket exceeds a later one by at most the observations between the two |
| Histograms.CountLagsBehind | include/metrics.h:111-113 | count <= +Inf bucket <= count + observations under way |
| Histograms.QuiescentBuckets | include/metrics.h:92-114 | with none under way the buckets are exact and nondecreasing and +Inf equals the count, as the Prometheus text format 0.0.4 requires under Histograms and summaries |
| Histograms.Histogram.constructor | include/metrics.h:92-105 | the bounds are the given ones in order, and every bucket starts at 0 |
| Histograms.Histogram.Observe | include/metrics.h:107-114 | adds one to exactly the buckets whose bound is not below the value, the value to the sum and one to the count, keeps every bucket the count of the observed values within its bound |

## Left out

- Memory orderings, fences and cache-line alignment: every access is sequentially consistent.
- Template parameters, `std::bind`, futures and `packaged_task`: a task is a number, its run ends at any later step, normally or by an exception, and may call the pool itself.
- The moved-from function object: it is empty, as common standard libraries leave it; the standard only calls it valid and unspecified.
- Liveness under a fair scheduler: only progress measures and safety are proved; `yield`, spin counts and the early exit of the spin loop change no state.
- Wrap-around of the queue's counters at 2^63: `QueueTheorems.RunOnWords` covers all runs below that, the pools use the unbounded machine.
- The three pools as classes: their methods run in all threads at once, so they are step machines on values, and aliasing of the queue with its owner is not captured.
- The gauges `queue_depth_` and `active_workers_` of the instrumented pool: `wait_all` resets them while workers still update them.
- Destruction order and lifetime of the instrumented pool's registry: referenced objects outlive their threads.
- The order in which `wait_all` of the instrumented pool reads its two counters: completed first, which the code leaves to the compiler.
- Socket creation, `bind`, `listen`, `accept`, the accept loop and the metrics server: a connection is two byte streams.
- The size of integers in the metrics counters: no count reaches 2^64.
- Floating point: observations and bounds are real numbers without NaN and rounding; the sum is modelled only without concurrent observers.
- Text serialization, the registry, and plain counters and gauges: easy members.
