# A model of piotbench and its proofs

The program is a load generator and a server that pass requests through a
pipeline: the accept thread deals connections to IO threads; an IO thread reads
requests from sockets and hands them to compute threads; these digest them and
hand them to submitter threads; a submitter queues the response on its
connection and asks epoll for EPOLLOUT; the IO thread sends it. Buffers and
connections are preallocated and travel through lock-protected queues. This
project models that pipeline, thread by thread and step by step, and proves
what keeps it together.

## How it is laid out

- `Rpc`: the wire sizes, 64-bit counters, and messages laid end to end.
- `Epoll`: the interest mask, the kernel's registration, and the choice between
  ADD, MOD and DEL.
- `QueueMachine`, `QueueTheorems`, `QueueProgress`, `QueueSpurious`: the two-lock
  queue as a machine of single reads and writes by any number of threads; what
  its calls return, and that they come to an end.
- `QueueList`: the same queue as linked nodes on the heap, one caller at a
  time, with the loops that fill and drain it.
- `Session`, `SessionInvariant`, `SessionHistory`, `SessionTheorems`: one
  connection with every buffer that points at it and every thread that works
  for it; a step is one access to shared state.
- `Liveness`: what a session can always come to: no response is stuck, and what
  is finished can be released.
- `Server`, `ServerView`, `ServerInvariant`, `ServerSimulation`,
  `ServerTheorems`: the whole server, with any number of connections, buffers
  and threads. Each of its steps is a step of exactly one session and leaves
  the views of all others alone, so what is proved of a session holds of every
  connection of every run.
- `Enabled`, `ServerLiveness`, `Fifo`: which moves the server can make, exactly;
  that a connection can be answered among any others; and the order of its free
  list and its pool.
- `IoWorker`, `StageWorkers`, `Accept`: the handlers as the program writes
  them, loops over mutable fields; each is proved to take its connection along
  a path of the session's steps, besides what its contract says directly. Each
  file has the fields of a connection that its handlers touch; all of them read
  as the one `Conn` of the session.
- `Hypotheses`: what the session's invariant needs, and what a finish leaves
  behind for the next accept.
- `OneConnection`, `Witnesses`: runs of a server with one connection that come
  to an answer out of order, a connection lost, a stale `sendbuf`, and an event
  that goes on after its connection is finished. Every buffer asked for is had.
- `Astray`, `Exactness`: what the first two hypotheses are worth in buffers;
  both directions, over every continuation and over runs without them.
- `Client`, `ClientWorker`: the load generator's connection, as a machine and
  as loops.
- `EndToEnd`: a client connection joined to the server connection that serves
  it by two byte streams.
- `Completion`: when a client can come to its end.
- `Fleet`: many clients and the whole server, each client joined to the
  connection that accept gave it.

## Hypotheses

They are part of the definitions (`Good`, `GoodMove`, `ValidConfig`,
`Answerable`) and of nothing else.

1. A connection enters service with `sendbuf` NULL. `handle_accept` clears
   `recvbuf` but not `sendbuf` (src/server/io/accept.c:23-34), nothing else
   does, and the allocator does not zero it. `Exactness.AcceptExact`: from any
   state of the invariant, buffers stay conserved on every continuation of an
   accept that deals to an IO thread at its wait if and only if `sendbuf` is
   NULL; if it is, to any thread. If it is set, an error event on the new socket
   puts a buffer in the pool that is there, or with some other connection,
   already. `Exactness.StaleRun` reaches that, from a start with `sendbuf` NULL
   everywhere and with one thread of each kind, whenever `readahead` is one or
   more.
   `Hypotheses.NextAcceptIsGood`: the next accept of a released connection
   meets the hypothesis if and only if its finish found `sendbuf` NULL.
2. The event in which `handle_response` finishes a connection does not go on to
   `handle_request`. The dispatch allows it to (src/server/io/io.c:198-211).
   `Exactness.FallThroughExact`: where it does, and there are `readahead + 1`
   buffers per session, buffers stay conserved on every continuation if and only
   if `recvbuf` is NULL and there is no head room; otherwise a `recv` that fails
   puts the buffer behind `sendbuf` in the pool a second time. With fewer
   buffers, `Exactness.FallThroughDecided`: if and only if `handle_request`
   finds no buffer and returns. `Witnesses.StraysIntoRequest` reaches the event
   in any configuration.

   Of the two together, `Exactness.ReadaheadExact`: over all runs from a start
   with `sendbuf` NULL everywhere, with neither hypothesis on the moves, buffers
   are conserved if and only if `readahead` is zero. And a step keeps the
   invariant of a session if and only if it meets them (`Hypotheses.GoodIsExact`).
3. `max_io_size` is positive, and `readahead` and `max_io_size` are 32 bits
   wide. A digest has 20 bytes; SHA1 is otherwise any function.
4. `epoll_ctl` and the clock do not fail; the clock may repeat a reading, but
   does not go back or stop for ever. A `recv` that does not fail moves at
   least one byte (zero is the end of the stream, which the server treats as a
   failure); the client's `send` too.
5. A compute inbox and a submitter inbox have one consumer each, the free list
   one, and each connection's events come from one IO thread.
6. Memory is sequentially consistent.
7. Of the client alone: the server sends no more than one response for each
   whole request (`Answerable`). `EndToEnd.StepInv` proves it of the server.
   And `nr_requests` is positive; with zero the client's loop does not start.
8. Where client and server are joined, a system call and the update of the
   counter that goes with it are one step.

## What turned out false, and exactly when it holds

- *A finished connection is released exactly once.* Never twice. It is lost for
  ever when at the finish `sendbuf` is set and `processed == received`, because
  the response being sent is not counted in `sent`
  (`SessionTheorems.ReleasedIff` and `SessionLiveness.ReleaseExact`, both
  directions; `Witnesses.ConnectionLost` reaches the loss in any configuration).
- *Responses go out in the order of the requests.* While no submitter trylock
  fails for the connection; over all runs, if and only if `readahead` is zero
  (`Witnesses.OrderIffNoReadahead`).
- *Every request delivered can still be answered*, with the events of the mask
  and no failing call. While a connection is served, unless a handler has just
  come to its finish, the lock is free and no submitter is on its way to take it
  (`SessionLiveness.NoResponseStuck`, both directions). Among other connections
  (`ServerLiveness.NoneStuck`, both directions), the IO thread must besides not be
  bound to finish another one in an event that goes on, which the second
  hypothesis excludes.
- *A client closes its descriptor when all its requests are answered.* The close
  is in the branch of EPOLLIN (src/client/worker.c:153-168). When the stop flag
  cuts `total` to what is answered already, in an event without EPOLLIN, no input
  comes any more and the descriptor stays open: `Completion.FlagLeavesOpen`
  reaches that before the first request, and `Completion.ClientCanEnd` says
  exactly when a client can come to its end.
- *No buffer is in two places.* On every run if and only if `readahead` is zero
  (`Exactness.ReadaheadExact`); on the runs that meet the first two hypotheses
  always (`ServerTheorems.BufferConservation`).
- *NULL from queue_get means empty.* If and only if no thread has the divider in
  its hand (`QueueTheorems.EmptyResult`), so always with a single consumer; with
  two, a lone element can be missed (`QueueSpurious.NullWithAnElement`). Only the
  buffer pool has several consumers, and there NULL is treated as "try later".

## Model

| member | source | states |
|---|---|---|
| Rpc.CutUnique | src/server/io/io.c:75-95 | A byte stream has one reading as fixed-size messages and a shorter rest: if the bytes of one reading are a prefix of another's, its messages are the other's first messages. |
| Rpc.WrapFaithful | src/server/io/io.c:66 | Stored eight-byte counters compare and subtract as the true counts do, past any number of wraps, while the counts are within one wrap of each other. |
| Epoll.EpollState.SetConnState | src/server/io/io.h:20-45 | With a mirrored mask the call never fails and the mirror is kept; otherwise it fails exactly when the chosen operation does not fit what the kernel holds. |
| QueueMachine.StepLocks | include/lock.h:9-26 | lock (test, then compare-and-swap) and unlock give mutual exclusion: at every step at most one thread is between the two, and the word is set exactly then. |
| QueueMachine.StepInv | include/queue.h:58-92 | Every single read or write by any thread keeps the queue's structural invariant. |
| QueueTheorems.Linearizable | include/queue.h:58-92 | In every interleaving the nodes linked so far are the nodes removed so far followed by the chain without the divider, in order. |
| QueueTheorems.Atomic | include/queue.h:58-92 | The queue refines the atomic one: in every interleaving the operations, each at the one write that is its effect, are a history of the atomic queue, which ends with what the chain holds. |
| QueueTheorems.ReturnsItsOwn | include/queue.h:69-92 | The nodes a thread's calls returned are, in order, the nodes its own writes of the head took, but for the one still in its hand. |
| QueueTheorems.LinksItsOwn | include/queue.h:58-67 | The nodes a thread has linked are, in order, those of its finished calls of queue_put and the one it has still to unlock for; the nodes its calls were given are those it has linked and the one it has still to link. |
| QueueTheorems.Structure | include/queue.h:60-90 | In every reachable state the chain is without repetition, ends in NULL and has no poisoned link; the divider is on it or in exactly one hand; the tail is last, but between the two writes of a put, when it is the node before or already gone. |
| QueueTheorems.EmptyResult | include/queue.h:73-87 | When queue_get reads NULL one node is on the chain: the divider, or a lone node while another thread has the divider. The queue is empty if and only if no thread has the divider in its hand. |
| QueueTheorems.SingleConsumer | include/queue.h:73-92 | With one consumer NULL means that all that was put had been taken, also in the history of the atomic queue, and the loop goes round at most twice. |
| QueueProgress.NullsAreSeen | include/queue.h:73-78 | For every thread: the NULLs it has read are the NULLs its calls have returned, and one more where it stands between the two. So no call returns NULL but for a read of NULL of its own. |
| QueueProgress.NullMeansEmpty | include/queue.h:73-78 | With one consumer, a call that returned NULL had read it when the queue was empty, and took no step between but the unlock. |
| QueueProgress.GetEnds | include/queue.h:69-92 | From every reachable state, with no other thread inside a lock or holding the divider: a thread in queue_get that runs alone ends its call; it returns the node it has taken, or NULL if it has read it, else the first element, or NULL if there is none, and the queue holds the rest. |
| QueueProgress.PutEnds | include/queue.h:58-67 | From every reachable state, with no other thread inside a lock: a thread in queue_put that runs alone ends its call, with its node at the end of the queue, linked once. |
| QueueSpurious.NullWithAnElement | include/queue.h:73-87 | A reachable state with one element in the queue in which the next step of a second consumer reads NULL. |
| QueueList.QueueRoot.Put | include/queue.h:58-67 | Without interference the node is appended, in place, and the pointers still spell the chain. |
| QueueList.QueueRoot.Get | include/queue.h:69-92 | Without interference the first element is removed and poisoned, or NULL is returned exactly when there is none; the divider goes round at most once. |
| QueueList.QueueRoot.DrainAll | src/server/main.c:173-182 | The draining loop ends with the queue empty and has taken every element, once, in order. |
| QueueList.DrainSendQueue | src/server/io/io.c:34-42 | The drain appends the whole send queue to the pool in order, leaves it empty, and raises `sent` by its length. |
| QueueList.Prealloc | src/server/main.c:154-171 | Fills a pool with as many distinct new nodes as asked for, or as there is memory for, and says which. |
| QueueList.SetupAndFree | src/server/main.c:154-182 | Set up and freed, a pool frees every node it was given, each once. |
| SessionInvariant.StepInv | src/server/io/io.c:17-152 | Every step of every thread that meets the first two hypotheses keeps the connection's invariant: shape, lock ownership, counters, wakeups, teardown. |
| SessionHistory.StepFaithful | src/server/io/io.c:79-139 | Every such step keeps: messages whole, responses matched to requests, the stages in line, the streams framed. |
| SessionTheorems.CounterAccounting | src/server/io/io.c:88-95 | While a connection is served sent <= processed <= received; the differences are the numbers of its buffers in the compute and submit stages, and on their way out. |
| SessionTheorems.ReadaheadBound | src/server/io/io.c:65-77 | received - sent + (1 if recvbuf is set) <= readahead + 1 whenever in service, and the unsigned head-room test decides as the true difference does. |
| SessionTheorems.NoLostWakeup | src/server/io/submit.c:28-53 | With the lock free, a pending response implies EPOLLOUT; outside the window between the count and its recheck, EPOLLOUT is set exactly when a response is pending. |
| SessionLiveness.NoResponseStuck | src/server/io/submit.c:28-53 | From every reachable state in which a connection is served, its threads can go on to a state in which it is served and every request delivered is answered, with no byte received, no call failing and only events that the kernel's mask asks for, if and only if it is not at a finish with the lock free, nothing left upstream and a response pending. |
| SessionLiveness.ReleaseExact | src/server/io/io.c:26-54 | From the moment finish_connection has the lock, in an event that ends with it: the threads can go on until the connection is on the free list if and only if sendbuf was NULL or processed < received. |
| SessionTheorems.EpollMirror | src/server/io/io.h:20-45 | While the descriptor is open the kernel holds the cached mask, with EPOLLIN, even while the lock is held. |
| SessionTheorems.EpollCallsFit | src/server/io/io.c:141-145 | The epoll_ctl call of the submitter or of the recheck, if any, is a MOD of a registered descriptor, and succeeds. |
| SessionTheorems.SafeTeardown | src/server/io/io.c:43-55 | On the free list or in accept's hand, a connection is referred to by no stage and no thread, and is there once. |
| SessionTheorems.ReleaseOnlyOnce | src/server/io/submit.c:34-45 | A connection is released only when closed and not yet free, by a step that leaves nothing behind. |
| SessionTheorems.ReleasedIff | src/server/io/io.c:26-54 | Once nothing of it is left in the pipeline, a finished connection has been released if and only if the finish found sendbuf NULL or processed < received. |
| SessionTheorems.StrandedForever | src/server/io/io.c:43-55 | A closed connection with nothing in flight that was not released can take no step again. |
| SessionTheorems.PerConnectionOrder | src/server/io/submit.c:23-48 | Requests delivered are, as a multiset, those answered and those in the stages; in order too if no trylock failed. Every answer is the response to its own request. |
| SessionTheorems.MarkedIff | src/server/io/submit.c:28-32 | The mark that stands for a lost order is set if and only if a submitter has found the lock held since the connection was accepted. |
| SessionTheorems.FramingByCut | src/server/io/io.c:75-95 | However the received stream is read as whole messages of 1024 bytes and a rest, the messages are the delivered requests (with the one that waits for the lock) and the rest is the partial buffer. |
| SessionTheorems.SentStream | src/server/io/io.c:114-139 | The sent stream is the responses counted in `sent`, of 24 bytes each, and a proper part of the next; an attached buffer has bytes left. |
| SessionTheorems.CallSizes | src/server/io/io.c:79-120 | While served: a recv may give any number of bytes up to max_io_size and the end of the 1024-byte request, and no more; a send may take any number up to max_io_size and the end of the 24-byte response. |
| ServerTheorems.StepInv | src/server/io/io.c:161-216 | Every step of every thread of the server that meets the first two hypotheses keeps its invariant and is a step of one connection's session. |
| ServerTheorems.ProjectRun | src/server/io/io.c:161-216 | What a connection goes through in any run of the server is a run of its own session. |
| ServerTheorems.EveryConnection | src/server/io/io.c:161-216 | In every reachable state of the server every connection's view is a reachable session, so the session theorems hold of it. |
| ServerEnabled.EnabledExactly | src/server/compute.c:28-40 | With any number of connections and threads: the server can make a move if and only if the connection's session can take the act, the thread is the one assigned (and at its wait, for an event or a take), and the buffer asked for is the first in its shared queue. |
| ServerLiveness.NoneStuck | src/server/io/submit.c:22-56 | From every reachable state of the server: its threads can go on, with events of the masks and no call failing, until all requests delivered on a given served connection are answered, if and only if nothing is pending, or neither its own finish nor that of another connection in its IO thread stands in the way for good. |
| ServerQueues.AcceptedInOrder | src/server/io/accept.c:11-14 | In every run, the connections first on the free list and those released since, in this order, are those accepted and those still on it. |
| ServerQueues.TakenInOrder | src/server/io/io.c:65-77 | In every run, the buffers first in the pool and those given back since, in this order, are those taken and those still in it. |
| ServerTheorems.BufferConservation | src/server/main.c:162-169 | In every reachable state each preallocated buffer is in exactly one place at one position. |
| ServerTheorems.LiveSlots | src/server/io/io.c:63-77 | While a connection is served its two buffer fields point at the buffers it owns, and it owns no others there. |
| ServerTheorems.SafeTeardown | src/server/io/accept.c:30-34 | No buffer outside the pool and no busy thread refers to a connection that is free or being accepted, and it is free once. |
| ServerTheorems.PoolNeverEmpty | src/server/io/io.c:65-77 | With readahead + 1 buffers per session, the pool is not empty when handle_request asks it for a buffer. |
| IoWorker.Connection.Finish | src/server/io/io.c:17-56 | Nothing if the lock is held; else both buffers and the send queue are in the pool, the connection is closed and is released, with the lock kept, exactly when sent equals received. A path of the protocol. |
| IoWorker.Connection.Drain | src/server/io/io.c:34-42 | The loop empties the send queue into the pool in order and counts each element in `sent`. |
| IoWorker.Connection.HandleRequest | src/server/io/io.c:58-97 | For any cut of the stream: a path of the protocol from its entry to its return whose socket results are those the calls gave, in order, and whose buffers are those the pool gave. It returns with the connection finished exactly when the last recv failed; otherwise with recvbuf NULL for want of head room or of a buffer, or when recv said EAGAIN. Bytes received and bytes pending are together what they were. The compute inbox, recvbuf and the pool hold, in this order, what they held; after a finish the buffers behind sendbuf and recvbuf and those of the send queue follow, once each. It terminates. |
| IoWorker.Connection.HandleResponse | src/server/io/io.c:99-152 | For any cut of the sends: a path of the protocol with the results that the calls gave. It returns with the connection finished exactly when the last send failed; otherwise with nothing attached or queued, or after a send that was short or said EAGAIN. The bytes owed go down by exactly the bytes that the socket took. The pool, sendbuf and the send queue hold, in this order, what they held; after a finish all of it is in the pool, with the buffer behind recvbuf put in. It terminates. |
| IoWorker.Connection.Dispatch | src/server/io/io.c:192-213 | One event. The path takes that event and no other, and all its other steps are the IO thread's in its handlers: finish on an error, which ends with the connection closed, else output before input, with the results that the calls gave and the reasons of the handlers for their return. While the connection is open, the buffers on their way in, the pool, and those on their way out are in this order what they were; once it is closed each of them is in the pool or the compute inbox, once. A state of the session's invariants goes to such a state, unless the event strays into the case that the second hypothesis excludes. |
| IoWorker.Connection.FinishThenRequest | src/server/io/io.c:198-211 | In that case a second finish happens exactly when buffers are in flight and recvbuf is set or there is head room; the pool then holds the buffers behind sendbuf and recvbuf once more than they were given. |
| IoWorker.AfterKeeps | src/server/io/io.c:17-152 | A path of the protocol keeps the session's invariants, so the handlers do. |
| StageWorkers.ComputeRequest | src/server/compute.c:8-25 | The result is the request's id and the digest of its data; the loop stops at the first reading of the clock that is nsec after the start, and there is one. |
| StageWorkers.Stages.ComputeOne | src/server/compute.c:30-39 | The first buffer of the inbox goes, answered, to the end of the submitter's inbox. A path of the protocol. |
| StageWorkers.Stages.SubmitOne | src/server/io/submit.c:22-56 | One turn: recycled if the lock is held, else counted and queued with EPOLLOUT, or given back with the connection released after the last one. A path of the protocol. |
| AcceptWorker.Connection.Reset | src/server/io/accept.c:23-36 | The fields are as the protocol's accept has them: sendbuf is what it was. |
| AcceptWorker.Acceptor.HandleAccept | src/server/io/accept.c:11-37 | The first free connection is reset and dealt; with none, nothing changes; when accept fails, the connection that was taken is in no queue any more. No other connection is touched. |
| AcceptWorker.Balanced | src/server/io/accept.c:26-28 | Any n consecutive counts dealt to nr threads, wherever they start, give each floor(n/nr) or ceil(n/nr). |
| AcceptWorker.DealtFairly | src/server/io/accept.c:26-28 | Connections dealt in turn, however many, give each IO, submit and compute thread its share, rounded down or up. |
| AcceptWorker.AcceptMany | src/server/io/accept.c:11-28 | Over any sequence of accept events, with connections released in between and with accepts that fail: the k-th one served goes where the count says, exactly those events serve that find a connection and get a descriptor, and after each of them every IO, submit and compute thread has its share, rounded down or up. |
| Hypotheses.NextAcceptIsGood | src/server/io/accept.c:23-34 | A released connection meets the first hypothesis at its next accept if and only if its finish found sendbuf NULL. |
| Hypotheses.NoReadaheadNoStale | src/server/io/io.c:26-54 | With readahead zero a connection that is released has sendbuf NULL. |
| Exactness.AcceptExact | src/server/io/accept.c:22-36 | From every state of the invariant with a connection in accept's hand and every IO thread at its wait: buffers stay conserved on all continuations of the accept that deals to it if and only if sendbuf is NULL. With sendbuf NULL they do on every thread. |
| Exactness.StaleAccept | src/server/io/accept.c:23-34 | Wherever the buffer behind a stale sendbuf is by then, an error event on the new socket ends with it in two places. |
| Exactness.StaleRun | src/server/io/io.c:26-54 | With readahead of one or more and one thread of each kind, a run that meets the hypotheses, from a start with sendbuf NULL everywhere, reaches such an accept, and the error event after it breaks conservation. |
| Exactness.FallThrough | src/server/io/io.c:198-211 | When the event goes on to handle_request after the finish, and handle_request has a buffer or gets one, a failing recv ends with the buffer behind sendbuf in two places, wherever it was. |
| Exactness.FallThroughExact | src/server/io/io.c:198-211 | With readahead + 1 buffers per session, in every reachable state in which it goes on: buffers stay conserved on all continuations if and only if recvbuf is NULL and there is no head room. |
| Exactness.FallThroughDecided | src/server/io/io.c:64-70 | With any number of buffers, once handle_request has looked for one on the finished connection: buffers stay conserved on all continuations if and only if it found none and returned. |
| Exactness.ReadaheadExact | src/server/io/io.c:65-66 | Over all runs from a start with sendbuf NULL everywhere, with no hypothesis on the moves: buffers are always conserved if and only if readahead is zero. |
| Exactness.SettledStep | src/server/io/io.c:198-211 | Let a thread that went on to handle_request with recvbuf NULL and no head room count as back at its wait. Then every step that meets the hypotheses, and every such going on, keeps the server's invariant. |
| Witnesses.StaleReuse | src/server/io/accept.c:23-34 | With readahead of one or more, a run of the server that meets the hypotheses comes to an accept of a connection with sendbuf set. |
| Witnesses.StraysIntoRequest | src/server/io/io.c:198-211 | In every configuration a run of the server comes to a finish within handle_response whose event goes on to handle_request, with sendbuf set; recvbuf is set exactly if readahead is one or more. |
| Witnesses.ConnectionLost | src/server/io/io.c:26-54 | In every configuration a run of the server, in which no buffer asked for is missing, comes to a closed connection with nothing in flight that was not released and can take no step. |
| Witnesses.OrderLost | src/server/io/submit.c:28-32 | With readahead of one or more, a run of the server in which the second of two requests is answered first, while the connection is served. |
| Witnesses.OrderIffNoReadahead | src/server/io/submit.c:28-32 | Over all runs of the server and all its connections the answers are in the order of the requests if and only if readahead is zero. |
| ClientProtocol.RequestId | src/client/worker.c:94-95 | The n-th request is the four bytes of its id and the unchanged data; the id is n below 256 * 256 * 256 * 256, and n modulo that beyond. |
| ClientProtocol.RequestsApart | src/client/worker.c:94-95 | Two requests less than 256 * 256 * 256 * 256 apart differ. |
| ClientProtocol.StepInv | src/client/worker.c:49-170 | Every test and system call keeps the client's invariant. |
| ClientProtocol.Accounting | src/client/worker.c:86-121 | At every moment of every run received <= sent <= total, and the bytes sent are the first requests in order with a proper part of the next. |
| ClientProtocol.InterestRule | src/client/worker.c:130-168 | Whenever the thread waits, EPOLLOUT is asked for exactly while sent < total; the descriptor is closed only with received, sent and total equal and no message in part. |
| ClientProtocol.TotalDrops | src/client/worker.c:88-92 | `total` changes only by dropping to `sent` between two messages when the stop flag is seen. |
| ClientProtocol.FinitelyManyMoves | src/client/worker.c:86-121 | A run moves bytes at most (1024 + 24) times the initial total. |
| ClientWorker.Connection.SetWatch | src/client/worker.c:11-20 | After DEL and ADD the kernel holds the new mask, or nothing, whatever it held. |
| ClientWorker.Connection.HandleOutput | src/client/worker.c:82-122 | For any cut of the sends and any moment of stopping: a path of the protocol with the results that the calls gave, which ends when all is sent, when send said EAGAIN or failed, or when the stop flag was seen between two requests, and only then with `total` cut. The server gets the next bytes of the requests. |
| ClientWorker.Connection.HandleInput | src/client/worker.c:49-80 | For any cut of the stream: a path of the protocol with the results that the calls gave, which ends when all is answered or when recv said EAGAIN or failed. |
| ClientWorker.Connection.HandleEvent | src/client/worker.c:124-170 | One event keeps the invariant. The path takes that event and no other, output before input, with the results that its calls gave and the reasons of the handlers for their return; afterwards the interest and the descriptor are as the counters say, and `total` has not grown, and is cut only by the stop flag. |
| ClientWorker.Thread.HasActive | src/client/worker.c:172-179 | The number of connections that have received less than their total; zero exactly when there is none. |
| ClientWorker.Thread.WorkerMayStop | src/client/worker.c:197-223 | The worker's loop condition is false exactly when on every connection received, sent and total are equal. |
| EndToEnd.StepInv | src/client/worker.c:49-122 | Every step of either end keeps the joint invariant; in particular the server never sends more than it was asked for, which the client relies on. |
| EndToEnd.Joined | src/server/io/accept.c:11-37 | Any freshly connected client, joined to a freshly accepted server connection, is a reachable state in which the connection is served. |
| EndToEnd.RequestsArrive | src/server/io/io.c:86-95 | The n-th request delivered by the server is the client's n-th: 1024 bytes, with id n modulo 2^32. |
| EndToEnd.CounterChain | src/client/worker.c:55-119 | While the connection is served client received <= server sent <= processed <= received <= client sent <= client total. |
| EndToEnd.ResponsesMatch | src/client/worker.c:64-77 | Every response received answers a request of the client, no two the same one; without a failed trylock the n-th has 24 bytes, the id n modulo 2^32 and the digest of the data. |
| EndToEnd.ClientDone | src/client/worker.c:148-167 | When the client has closed, the server has delivered exactly `total` requests, and without a failed trylock the client has received exactly the answers in order. |
| Completion.ClientCanEnd | src/client/worker.c:124-170 | From every reachable state of a client and the connection that serves it, with the stop flag down from now on, no call failing, and events only where there is cause: the client can come to its close, with everything answered, if and only if it has closed; or it does not wait for input with all answers in, and the server is not bound to finish or has sent all the answers. |
| Completion.FlagLeavesOpen | src/client/worker.c:88-92 | The stop flag, seen before the first request, leaves a client that waits for input with nothing to come. |
| Fleet.EveryClient | src/server/io/accept.c:11-37 | In every run of the server with any number of clients, every client and its connection, until that is given to another, are in a state that the two reach alone: so the results of EndToEnd hold of each. |
| Fleet.ChainForEach | src/server/io/io.c:86-95 | Of every client, whatever the others do: the requests delivered on its connection are its own first ones in order, each with its number, and while it is served the six counters are in order. |
| Fleet.ClientEnabled | src/client/worker.c:124-170 | In the fleet a client can do exactly what it can do in its pair. |
| Fleet.ServerEnabledFor | src/server/io/io.c:161-216 | For each client the server can do exactly what it can do in the pair, when the thread is there for the connection and its buffer is first. |

## Left out

- The raw system calls and kernel calls (src/server/io/sysinface.c, kerncall.c): recv, send, epoll and close are nondeterministic steps with the assumptions above.
- Threads, barriers, signals, the stop flag of the server and the iteration limits of its workers (src/thread.c, `run_server`, `run_client`): a worker may pause at any step, which covers its leaving and re-entering a loop.
- Parameter parsing and tables (src/command.c).
- Statistics and progress reports of the client (src/client/main.c): floating point and printing.
- SHA1 itself: a function with 20-byte results.
- Weak-memory effects.
- Failure of epoll_ctl or of the clock.
- The end of the accept thread when accept fails: `AcceptWorker.Acceptor.HandleAccept` has the failure; in `Server` the connection then stays in accept's hand for ever.
- A finish that happens while a handler of another event holds the same connection: events of a connection come from one thread.
- Descriptor numbers: whether the kernel has the descriptor registered is modelled, its number and its reuse after close are not.
- In `Session` and `Server` a queue operation is one step. `QueueTheorems.Atomic` shows that each takes effect at one write; a NULL result for a nonempty queue is allowed in the model only from the buffer pool, the one queue with several consumers.
- In `Session` and `Server` the write of `epoll_state` and the epoll_ctl call are one step, as are the fields that only the IO thread uses and the shared access next to them.
- In `Session` and `Server` taking a lock is one step: the compare-and-swap that succeeds, or for trylock the access that finds it taken. `QueueMachine` has the two accesses of lock apart.
- The wake descriptor of a client thread, and the errors of its epoll calls.
- Starvation: a spin lock or a trylock may fail for ever; nothing is said of progress but the ends of the handlers' own loops.
- The bytes that an earlier message left in a buffer: a buffer just attached counts as empty, and the response area is written whole by the compute stage.
- SessionInvariant.StepInv: the steps that the first two hypotheses exclude; `Exactness` says what they do.
- SessionHistory.StepFaithful: the same.
- ServerTheorems.StepInv: the same.
- QueueMachine.StepLocks: trylock, which no queue uses; `Session` has the submitter's and the finish's.
- IoWorker.Connection.HandleRequest: other threads stand still while it runs, and its lock is free when it starts; `SessionTheorems` has every interleaving.
- IoWorker.Connection.HandleResponse: the same.
- IoWorker.Connection.Dispatch: the same.
- StageWorkers.Stages.SubmitOne: the same, and the inbox shows one connection's buffers; `Server` has the shared inbox.
- StageWorkers.Stages.ComputeOne: the same.
- ClientWorker.Connection.HandleInput: the server may have at most the answers due in the socket; `EndToEnd.StepInv` proves that it does.
- AcceptWorker.AcceptMany: `next` does not overflow an int.
- ServerTheorems.PoolNeverEmpty: it speaks of the buffers in the pool; `queue_get` may still say NULL while two IO threads meet there.
