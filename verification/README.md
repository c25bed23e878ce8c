# Verified model of the mini LLM serving runtime

This Dafny project models three parts of the repository and proves what they are for.

1. **The request scheduler with its paged KV tables.** `worker_loop` moves requests among seven deques while
   the KV allocator may refuse any call, the backend answers batches of at most 16 and producers push
   concurrently.
2. **The server around it.** Newline framing of chunked reads, submission, the coalescing wake-up signal,
   dispatch of responses by id, and write queues with one write in flight.
3. **The tiled GEMM, transpose and scatter kernels.** Each equals a one-line specification, in exact
   arithmetic, whatever the order in which blocks and the threads of a phase run.

## How it is laid out

The scheduler exists twice. `SchedulerClass.dfy`, `Objects.dfy` and `ServerClass.dfy` are the classes of the
source: fields, deques of request objects, loops and updates in place. `SchedulerModel.dfy`, `Allocation.dfy`,
`Backends.dfy` and `ServerModel.dfy` say what each phase does to values, and every class method is proved to do
exactly that (`Is(st)` before, `Is(phase(st))` after). `Worker.dfy` and `ServerModel.dfy` are step relations in
which the scheduler thread, the event-loop thread, producers and libuv callbacks interleave; `Refinement.dfy`
shows that the methods, run without interruption, are runs of these. The theorems are about all runs:
`Theorems.dfy` and `Tables.dfy` (any allocator), `Fairness.dfy` and `Lineup.dfy` (order), `Progress.dfy` (an
allocator that never refuses),
`Recovery.dfy`, `Promptness.dfy`, `Delivery.dfy` and `Pressure.dfy` (an allocator that has refused and refuses no
more), `ServerProofs.dfy` and `Bytes.dfy` (bytes in to bytes out).

What the single operations do is also said without the functions that compute it: `Order.dfy` and `Eviction.dfy`
in request ids, numbers of calls and refusals, `Completion.dfy` request by request, `Allocation.dfy` block by block,
`Grammar.dfy` character by character.

An allocator is a `Policy`. `Bump(refuses)` hands out fresh block numbers as the mock allocator does but
refuses the calls that `refuses` picks, any calls at all; the mock allocator is the one that refuses none.
`Script(answer)` is every other allocator: its answers and the tables it leaves are unconstrained. A backend is
any pair of batch functions. Where a theorem needs it to treat the requests of a batch separately it says
`Pointwise(be, m)`; the mock backend is the instance `MOCK_BACKEND`.

A kernel block is a sequence of phases between barriers. In each phase the threads run in an arbitrary order
(`Schedule`), as do the blocks of a grid (`GridSchedule`). `Written(call, c0, c, w)` says that exactly the
elements in `w` have their result, and rounds of writes compose only when they meet no element twice.

## What turned out not to hold

- First come, first served fails. `retry_deferred_prefill` pushes each deferred request it lets in to the front,
  and a waiting request may be let in past a deferred one that is refused again. With two requests and an
  allocator that refuses its first three calls, the second is answered first (`Fairness.SecondAnsweredFirst`).
  `Fairness.FirstComeFirstServed` gives the exact condition, for every run with any allocator: first tokens come
  in the order of arrival if and only if at every prefill of the run (`Fairness.FairTurn`) the allocator refuses
  the retry of every deferred request but the first, and, if a request is waiting, it refuses that one too unless
  none was deferred or the only deferred one has just been let in.
- Both tensor-core launches return at once when K is 0 and leave C alone, where the specification gives
  beta * C. For sizes the launchers accept, the result meets the specification if and only if K > 0, or beta is 1,
  or C is zero (the last `ensures` of both launches); `WarpTiles.EmptyProductNotCleared` gives an input for which
  it does not.
- The buffered swap-in equals the direct one for every launch order exactly when blocks with the same
  destination agree (`SwapInBlocks.OrderIsUnobservable`); distinct destinations are enough.

- `try_swap_out_victim` searches the decode queue when it finds nobody among the deferred decodes. In no run is there
  anybody to find: in an iteration that has moved nothing nobody is ready (`Eviction.ReadyAreNeverEvicted`).

## Model

| member | source | states |
|---|---|---|
| Theorems.ExactlyOnePlace | src/runtime/scheduler.cpp:322-356 | In every run each pushed request is in exactly one place, the inbox or one of the seven queues, as the submission it was |
| Theorems.EverythingArrived | src/runtime/scheduler.cpp:322-356 | In every sound state, so in every reachable one, the multiset of submissions held is the multiset pushed: none lost, none invented |
| Theorems.ReachableSound | src/runtime/scheduler.cpp:38-122 | In every run the queue of a request determines its state, its residency, its token counts and (Bump allocators) the size of every layer's table |
| Theorems.CleanShutdown | src/runtime/scheduler.cpp:278-285 | The worker clears `running_` itself if and only if it waits and the inbox is empty; then the inbox is closed and every request pushed so far is finished |
| Theorems.SwappedMeansPaused | src/runtime/scheduler.cpp:287-320 | In every run a swapped-out request implies paused admission |
| Theorems.PausedOnlyDrains | src/runtime/scheduler.cpp:326-352 | One step of the paused worker takes nothing in, leaves what is finished finished and makes the unfinished submissions no more |
| Theorems.PausedTurn | src/runtime/scheduler.cpp:326-352 | A paused worker ends the pause at the end of an iteration that leaves its queues empty, there and nowhere else |
| Theorems.PauseDrains | src/runtime/scheduler.cpp:287-352 | Along any stretch of a run in which admission stays paused, whatever other threads do: all arrivals stay outside, the unfinished submissions inside only get fewer, and the pause ends only when none is left |
| Theorems.SentPlusRestIsSequential | src/runtime/scheduler.cpp:124-266 | In every run the responses produced for a request, followed by what it still has coming, are its sequential output; batching, deferral, swapping and other requests make no difference |
| Theorems.PushedIsPrefix | src/runtime/scheduler.cpp:124-266 | In every run the responses pushed for a request are a prefix of its sequential output |
| Theorems.MockPushedIsPrefix | include/runtime/mock_backend.h:10-48 | The same for the mock backend: 1000, 1001, ..., then EOS, max(1, max_new_tokens) of them, the flag on the last only |
| Theorems.FinishedMeansComplete | src/runtime/scheduler.cpp:180-190 | A request is in state Finished if and only if its whole sequential output has been produced |
| Theorems.GeneratedMeansSent | src/runtime/scheduler.cpp:168-190 | In every run the tokens a request has generated are exactly the tokens of the responses produced for it |
| Theorems.ReachableAddressDefined | include/runtime/pagekvcache.h:23-27 | In every run every cached position of every layer has a block in the layer's table |
| Theorems.ReachableAddressesDoNotAlias | include/runtime/mock_kv_allocator.h:13-49 | In every run no two cached tokens of any requests and layers share a slot, whichever calls were refused |
| Tables.AddressNeverChanges | include/runtime/pagekvcache.h:23-31 | In every run, from the moment a position of a layer is cached until its request is finished, it stays cached and its entry in the block table stays the same |
| Allocation.WhatACallDoes | include/runtime/mock_kv_allocator.h:13-69 | A granted call puts n fresh numbers behind each layer's table, layer l the numbers from next + l * n on, n being what the prompt, a full last block or a swap needs; a refused one leaves the request alone |
| Theorems.DecodeBatchesAreReady | src/runtime/scheduler.cpp:130-150 | With Bump allocators every decode batch of every run has 1 to 16 unfinished GPU-resident requests, each layer caching all tokens but the last, with a block for the next position, within the capacity of the constructor |
| Theorems.BatchesFit | src/runtime/scheduler.cpp:133-152 | Every batch a queue is cut into is non-empty, at most the width, and of admitted requests |
| Completion.BatchesOfSixteen | src/runtime/scheduler.cpp:130-148 | Every batch has 1 to 16 requests, and all but the last have 16 |
| Completion.BatchesKeepOrder | src/runtime/scheduler.cpp:133-148 | The batches, one behind the other, are those who get their block, in queue order |
| Completion.ServedOne | src/runtime/scheduler.cpp:160-190 | With any backend each request of a batch gets one response, the backend's or -1 and final if it gave too few, final also when the request has all its tokens; its tokens, state, residency, tables and counts afterwards are spelled out |
| Completion.BatchesAreTheCalls | src/runtime/scheduler.cpp:150-158 | These batches are all that is asked of the backend: two backends that reply alike to them serve the queue alike |
| Batching.BatchSizeIsUnobservable | src/runtime/scheduler.cpp:124-197 | With a pointwise backend every batch width gives the same queues, contents, block numbers and responses in the same order |
| Batching.RunBatchesIsRunEach | src/runtime/scheduler.cpp:130-190 | Serving a queue in batches is serving it one request at a time |
| Batching.RunKeepsOrder | src/runtime/scheduler.cpp:192-197 | Survivors, the finished, the deferred and the responses each keep the queue's order |
| Order.SwapInOrder | src/runtime/scheduler.cpp:103-122 | Those whose swap-in is granted go behind the decode queue in their old order, the others keep theirs; one call each |
| Order.RetryDecodeOrder | src/runtime/scheduler.cpp:89-101 | All deferred decodes go behind the decode queue in their old order without a call |
| Order.RetryPrefillOrder | src/runtime/scheduler.cpp:69-87 | The deferred prefills let in stand in front of the prefill queue, the last one first |
| Order.AdmitChoice | src/runtime/scheduler.cpp:47-67 | Admission lets in those before the first refusal, defers the refused one and asks for nobody behind it |
| Order.RunChoice | src/runtime/scheduler.cpp:124-204 | With any backend a batch function answers everybody who may enter in queue order; survivors, finished and deferred requests each keep that order |
| Order.RunPrefillOrder | src/runtime/scheduler.cpp:227-258 | Survivors of a prefill go behind the decode queue in the order of the prefill queue |
| Order.DecodeHalfOrder | src/runtime/scheduler.cpp:332-337 | Where every request stands after the decode half and how many calls it takes, in ids and refusals alone |
| Order.PrefillHalfOrder | src/runtime/scheduler.cpp:339-343 | The same for the prefill half |
| Order.SettleKeepsEverybody | src/runtime/scheduler.cpp:345-353 | If the iteration has moved anything, or a swap-in call at its end is granted, or nobody is held, exactly the swap-in calls are made and nobody is evicted; the pause ends exactly when nobody is held |
| Order.SettleEvicts | src/runtime/scheduler.cpp:287-320 | Otherwise the first deferred decode on the GPU is asked to leave, and if there is none or it may not, the first ready one; who may leaves and pauses admission, who may not goes to the back of its queue |
| Eviction.VictimOnlyWhenStuck | src/runtime/scheduler.cpp:345-349 | Somebody is evicted only if nothing moved, every swap-in call was refused and a GPU-resident deferred or ready request exists; it is such a request |
| Eviction.EvictionIff | src/runtime/scheduler.cpp:322-353 | An iteration evicts somebody if and only if nobody is about to be prefilled, somebody is ready or deferred for decoding, every call of the iteration before is refused and the next one is granted; the victim is the first of the ready and then the deferred |
| Eviction.ReadyAreNeverEvicted | src/runtime/scheduler.cpp:316-320 | In every run the end of an iteration takes nobody from the decode queue, and a victim is the first deferred decode |
| Lineup.DecodeOrderIsKept | src/runtime/scheduler.cpp:89-204 | Once the allocator refuses no more, two answered requests keep their order of decoding in every run, whoever joins them: ready, then swapped out, then deferred ones |
| Progress.IterationServesEveryone | src/runtime/scheduler.cpp:322-356 | With an allocator that never refuses, one iteration answers every held request exactly once, decode queue first and waiting queue after it, each in order; every request that is left was held before and has one response less to come |
| Progress.EachFinishesInTurn | src/runtime/scheduler.cpp:322-356 | Then whoever is left after n iterations has had n responses and has more to come, so each request is gone after as many iterations as it had responses to come |
| Progress.AllFinishWithin | src/runtime/scheduler.cpp:322-356 | So nobody is left after as many iterations as the longest output has tokens |
| Recovery.DecodeHalfCounts | src/runtime/scheduler.cpp:332-337 | With any allocator, the responses of the decode half are exactly what all requests together have less to come after it |
| Recovery.PrefillHalfCounts | src/runtime/scheduler.cpp:339-343 | So are those of the prefill half |
| Recovery.SettleHalfCounts | src/runtime/scheduler.cpp:345-353 | Eviction and the last swap-in leave what is to come as it is |
| Recovery.DecodeHalfGranted | src/runtime/scheduler.cpp:89-122 | Once the allocator refuses no more, the decode half brings back all that is swapped out or deferred, and moves nothing only if there was nothing |
| Recovery.PrefillHalfGranted | src/runtime/scheduler.cpp:47-87 | Then the prefill half lets in and answers all that is waiting or deferred |
| Promptness.FinishedOnceGranted | src/runtime/scheduler.cpp:322-356 | From any reachable state in which the allocator refuses no more: a request in any of the six queues, deferred and swapped-out ones included, is finished once the worker has completed as many iterations as it has responses to come, and one more if the iteration in progress is past it, whatever is pushed, closed or popped in between |
| Promptness.FinishedWithinOwnRounds | src/runtime/scheduler.cpp:322-356 | If it never refuses, then in every run a request the worker has taken in is finished within as many iterations as it has responses to come, with no one to make up for |
| Promptness.MockFinishedWithinRounds | include/runtime/mock_backend.h:26-47 | With the mock backend that is max(1, max_new_tokens) iterations, the request's own |
| Fairness.WillingAnswersInOrder | src/runtime/scheduler.cpp:38-67 | Then in every reachable state the requests answered so far, in the order of their first tokens, the waiting ones and the ones not taken in are the arrivals in their order |
| Progress.WillingNeverDefers | src/runtime/scheduler.cpp:47-122 | Then in every run nothing is ever deferred or swapped out and admission is never paused |
| Progress.MockLeft | include/runtime/mock_backend.h:26-47 | A fresh request of the mock backend has max(1, max_new_tokens) responses coming |
| Fairness.DeferredAnsweredInReverse | src/runtime/scheduler.cpp:69-87 | Once the allocator grants everything, deferred requests are answered from last to first and before the waiting ones |
| Fairness.SecondAnsweredFirst | src/runtime/scheduler.cpp:47-87 | A run in which requests 1 and 2 arrive in this order, three allocator calls are refused, and the responses are to 2 and 1 in this order |
| Fairness.FirstComeFirstServed | src/runtime/scheduler.cpp:47-87 | For every run with any allocator: first tokens come in the order of arrival if and only if at every prefill half each deferred request but the first is refused, and the first waiting one is refused unless nothing was deferred or the only deferred one was let in; then whoever is still to be answered stands in that order too |
| Ledger.MockFull | include/runtime/mock_backend.h:10-48 | Sequential generation with the mock backend is 1000, 1001, ..., EOS |
| Ledger.RestFlags | src/runtime/scheduler.cpp:176-190 | The finished flag is on the last response of a generation and on no other |
| Ledger.RunBalanced | src/runtime/scheduler.cpp:124-204 | One batch function keeps every request's account: produced so far plus still to come is its sequential output |
| Placement.DecodeHalfPlaced | src/runtime/scheduler.cpp:332-337 | The decode half keeps every queue's requests in the state, residency and table size of that queue |
| Placement.PrefillHalfPlaced | src/runtime/scheduler.cpp:339-343 | The prefill half does |
| Placement.SettleHalfPlaced | src/runtime/scheduler.cpp:345-353 | The end of the iteration does |
| Phases.DecodeHalfSubmitted | src/runtime/scheduler.cpp:332-337 | The decode half keeps the multiset of submissions |
| Phases.PrefillHalfSubmitted | src/runtime/scheduler.cpp:339-343 | The prefill half keeps it |
| Phases.SettleHalfHeld | src/runtime/scheduler.cpp:345-353 | The end of the iteration keeps the multiset of requests with their tokens |
| Paging.AddressesDoNotAlias | include/runtime/pagekvcache.h:23-31 | Tables that share no block map (request, layer, position) injectively to (block, slot) |
| Paging.DecodeHalfNoSharing | src/runtime/scheduler.cpp:332-337 | The decode half hands out no block twice |
| Paging.PrefillHalfNoSharing | src/runtime/scheduler.cpp:339-343 | The prefill half hands out no block twice |
| Paging.SettleHalfNoSharing | src/runtime/scheduler.cpp:345-353 | Eviction and the last swap-in hand out no block twice |
| Bags.EvictBags | src/runtime/scheduler.cpp:287-314 | Eviction, granted or refused, keeps the multiset of requests |
| Backends.MockPrefill | include/runtime/mock_backend.h:10-21 | The loop gives each request the token 1000, unfinished |
| Backends.MockDecode | include/runtime/mock_backend.h:23-47 | The loop applies the token rule to each request by itself |
| Objects.Request.constructor | include/runtime/request.h:54-70 | A new request waits for prefill, has no KV on any device and twelve empty layers |
| Objects.Request.IncrementTokens | include/runtime/pagekvcache.h:37-39 | Every layer caches one token more and nothing else changes |
| Objects.Request.SetNumTokens | include/runtime/pagekvcache.h:33-35 | Every layer caches n tokens and no table changes |
| Objects.MutexQueue.TryPop | include/runtime/mutex_queue.h:29-39 | Takes the oldest item if there is one |
| Objects.MutexQueue.WaitPop | include/runtime/mutex_queue.h:41-55 | Gives nothing exactly when the queue is closed and empty, and otherwise the oldest item |
| Objects.KvAllocator.AllocatePrefill | include/runtime/mock_kv_allocator.h:13-29 | Grants ceil(prompt / 16) fresh blocks to each layer in turn, behind the old ones, or refuses and leaves the request alone |
| Objects.KvAllocator.AllocateDecode | include/runtime/mock_kv_allocator.h:31-49 | Grants one fresh block per layer, behind the old ones, at a block boundary and none otherwise, or refuses |
| Objects.KvAllocator.FreeRequest | include/runtime/mock_kv_allocator.h:51-57 | Empties every layer's table and count |
| Objects.KvAllocator.SwapOut | include/runtime/mock_kv_allocator.h:59-63 | Moves the request to the host without touching its tables, or refuses |
| Objects.KvAllocator.SwapIn | include/runtime/mock_kv_allocator.h:65-69 | Moves it back, or refuses |
| SchedulerClass.Scheduler.DrainNewRequests | src/runtime/scheduler.cpp:38-45 | Moves the first min(16, n) of n queued requests to the waiting queue in order and leaves the rest |
| SchedulerClass.Scheduler.AdmitWaitingPrefill | src/runtime/scheduler.cpp:47-67 | The deques end as the phase function says: admission stops at the first refusal, which is deferred |
| SchedulerClass.Scheduler.RetryDeferredPrefill | src/runtime/scheduler.cpp:69-87 | The deques end as the phase function says: those let in are in front of the prefill queue, in reverse |
| SchedulerClass.Scheduler.RetryDeferredDecode | src/runtime/scheduler.cpp:89-101 | All deferred decodes are ready behind the decode queue |
| SchedulerClass.Scheduler.RetrySwapInRequests | src/runtime/scheduler.cpp:103-122 | The swapped-in are behind the decode queue and the refused still swapped out, each in order |
| SchedulerClass.Scheduler.FillDecodeBatch | src/runtime/scheduler.cpp:136-148 | Fills one batch in queue order; those without a block are deferred |
| SchedulerClass.Scheduler.Update | src/runtime/scheduler.cpp:168-190 | One request gets its token; a finished one gives its blocks back |
| SchedulerClass.Scheduler.RunDecodeBatch | src/runtime/scheduler.cpp:124-204 | Deques, request contents, responses pushed and signal are those of the phase function with width 16 |
| SchedulerClass.Scheduler.RunPrefillBatch | src/runtime/scheduler.cpp:206-266 | The same for prefill |
| SchedulerClass.Scheduler.NoInternalWorkIsIdle | src/runtime/scheduler.cpp:268-276 | The test of the six queues is the idleness of the state |
| SchedulerClass.Scheduler.WaitAndEnqueueOneRequest | src/runtime/scheduler.cpp:278-285 | Takes the oldest request, or clears `running_` when there is none and the queue is closed |
| SchedulerClass.Scheduler.TrySwapOutVictim | src/runtime/scheduler.cpp:287-320 | Evicts the first GPU-resident request of the deferred decodes, else of the decode queue; a refused one goes to the back of its queue |
| SchedulerClass.Scheduler.WorkerTurn | src/runtime/scheduler.cpp:322-356 | One turn of the worker loop is `Iteration` after the drain, with its responses pushed in order and the loop signalled if there are any |
| Refinement.WorkerTurnIsARun | src/runtime/scheduler.cpp:322-356 | That turn is a run of the interleaved scheduler in which no other thread moves |
| Refinement.ReadAllIsARun | src/runtime/server.cpp:276-309 | The read callback is a run in which only the loop thread moves |
| Refinement.DispatchAllIsARun | src/runtime/server.cpp:325-358 | So is the wake-up callback |
| ServerClass.ClientConnection.StartWrite | src/runtime/server.cpp:376-411 | Sent, in-flight and queued text together stay what they were; afterwards a write is in flight unless nothing was queued; a write already in flight is left alone |
| ServerClass.ClientConnection.EnqueueWrite | src/runtime/server.cpp:361-374 | Sent, in-flight and queued text grow by exactly the data, at the end; a write is in flight afterwards, the same one if there was one |
| ServerClass.ClientConnection.OnWrite | src/runtime/server.cpp:194-216 | The text in flight counts as sent, nothing is lost, duplicated or reordered, and a write is in flight afterwards exactly if something was queued |
| ServerClass.ServerContext.OnRead | src/runtime/server.cpp:271-309 | The connection gains exactly the lines of its leftover and the data and keeps what is behind the last newline; tables, ids, submitted requests and write queues end as the line-by-line function says |
| ServerClass.ServerContext.OnResponseAsync | src/runtime/server.cpp:325-358 | Every queued response is dispatched, in order, to the connection its id came from |
| ServerProofs.NoLostWakeUp | src/runtime/server.cpp:325-358 | Under any interleaving, with any backend and allocator, a non-empty response queue has a pending signal, a running drain loop, or a scheduler that will still signal |
| ServerProofs.NoResponseDropped | src/runtime/server.cpp:298-305 | Under any interleaving every response not yet popped and every unfinished request, wherever it is, has its id in the table, leading to the open connection that submitted it |
| ServerProofs.TableIsExact | src/runtime/server.cpp:298-356 | An id is in the table if and only if its request has been submitted and its last response not been dispatched; it leads to the client that was given it |
| ServerProofs.ClientStream | src/runtime/server.cpp:276-309 | At every moment what is sent, in flight and queued is the rendering of what was enqueued; lines without newlines and the buffer make up all that was received; rejected lines have their complaint and accepted ones their request |
| ServerProofs.ReceivedDecides | src/runtime/server.cpp:276-309 | Between reads the bytes received decide the lines taken, the leftover, the token lists of the requests submitted and the number of complaints, whatever was interleaved |
| ServerProofs.SameBytesSameRequests | src/runtime/server.cpp:276-306 | Two clients, of two servers even, that have sent the same bytes in whatever pieces have the same lines, leftover, accepted requests and rejections |
| ServerProofs.AnswersArePrefix | src/runtime/server.cpp:328-356 | At every moment the answers enqueued for a request are a prefix of its sequential output |
| ServerProofs.EverythingDelivered | src/runtime/server.cpp:325-411 | At rest every client has received the rendering of its answers, and these hold the complete output of each of its requests |
| ServerProofs.MockDelivery | src/runtime/server.cpp:299-303 | With the mock backend these are the eight tokens 1000 to 1006 and EOS |
| Bytes.MockBytes | src/runtime/server.cpp:325-358 | A client with one request gets exactly the bytes of the lines 1000 to 1006 and "50256 [DONE]" |
| Bytes.ComplaintBytes | src/runtime/server.cpp:293-296 | A client with one line and no request gets exactly the line "invalid request" |
| Bytes.OnlyOwnAnswers | src/runtime/server.cpp:328-356 | A client is only sent answers to requests of its own |
| Delivery.EveryStepIsCloser | src/runtime/server.cpp:325-411 | Once the allocator refuses no more, every step the server takes by itself makes a well-founded measure smaller, from every state, whatever is deferred, swapped out or held outside |
| Delivery.EverybodyIsServed | tests/cpp/test_scheduler.cpp:358-455 | So from every such state of a server that is not told to stop, steps of its own lead to rest, and there every client has been sent the complete output of each of its requests |
| Pressure.SwappedOutAndPaused | tests/cpp/test_scheduler.cpp:290-356 | There are such states: a run with one refusal in which a request is swapped out and admission paused |
| ServerModel.ChunkingIsUnobservable | src/runtime/server.cpp:276-306 | Reads in pieces leave the very same server as one read of the whole: lines, leftover, requests with their ids, complaints, tables |
| ServerModel.ReadAllFrames | src/runtime/server.cpp:276-290 | The loop of a read takes exactly the lines of the buffer and leaves what is behind the last newline |
| Framing.FrameLosesNothing | src/runtime/server.cpp:283-290 | Lines and leftover make up the stream, and no line holds a newline |
| Framing.OnlyTheseLines | src/runtime/server.cpp:283-290 | No other list of lines without newlines makes up the stream |
| Text.PrintThenParse | include/runtime/util.h:9-36 | Both parsers give back every printed list of 32-bit integers |
| Grammar.NumberAhead | src/runtime/server.cpp:13-23 | An optional sign and digits, whatever follows the last digit, are read as the number they stand for if it fits 32 bits, and not at all otherwise |
| Grammar.NoNumberAhead | src/runtime/server.cpp:17-20 | Text that begins with neither a digit nor a sign and a digit is not read as a number |
| Grammar.Decomposes | src/runtime/server.cpp:17-20 | Every string that begins with a number is a sign, digits and a rest that no digit begins, so these two cases are all |
| Grammar.LineTakes | src/runtime/server.cpp:13-23 | A number behind white space is the next token of a line, and reading goes on behind its last digit |
| Grammar.LineEnds | src/runtime/server.cpp:17-20 | Anything else, or a number that does not fit, ends the line |
| Grammar.WordsGoOn | include/runtime/util.h:9-23 | Of each word the number at its start is taken and the rest skipped; a word without one, or with one that does not fit, is skipped |
| Grammar.BlankWords | include/runtime/util.h:13-16 | White space holds no word |
| Grammar.PrintThenTail | src/runtime/server.cpp:13-23 | The line parser reads a printed list back even when something that is not a number follows |
| Grammar.Printed | src/runtime/server.cpp:25-27 | The text of a number is a minus if it is negative and the one digit string without a leading zero that stands for the rest |
| Grammar.OnlyOneText | include/runtime/util.h:25-36 | Only one digit string without a leading zero stands for a number |
| Grammar.PrintedList | include/runtime/util.h:25-36 | A list is printed with one space between two tokens and nothing around them |
| Text.PrintTokens | include/runtime/util.h:25-36 | The loop prints the tokens in decimal with single spaces |
| Text.ParseRequestLine | src/runtime/server.cpp:13-23 | The stream-extraction loop is the line parser: it stops at the first thing that is not a number |
| Text.ParseRequestWords | include/runtime/util.h:9-23 | The word-by-word loop is the word parser: it skips words that are not numbers |
| Matrices.NaiveGemm | benchmarks/gemm/native_gemm.cuh:10-33 | Any launch that covers C gives alpha * A * B + beta * C, each element written once; threads outside do nothing |
| Matrices.GemmUnique | benchmarks/gemm/native_gemm.cuh:22-30 | Kernels that meet the specification give the same array as the naive one |
| Tiling.Owner | benchmarks/gemm/vectorized_bank_gemm.cuh:29-30 | Each element of a block belongs to exactly one thread's register tile |
| Tiling.LoadPhaseB | benchmarks/gemm/vectorized_bank_gemm.cuh:66-81 | The vector loads fill the whole shared tile of B, in any thread order |
| Tiling.MultiplyPhase | benchmarks/gemm/vectorized_bank_gemm.cuh:88-136 | Every thread's registers go from the first k0 to the first k0 + 8 terms of its 64 products |
| Tiling.StoreStrip | benchmarks/gemm/vectorized_bank_gemm.cuh:149-170 | Both epilogues store alpha * acc + beta * C in eight neighbours and nothing else |
| Tiling.StoreBlock | benchmarks/gemm/vectorized_bank_gemm.cuh:141-172 | The threads of a block write each of its elements once, with the result |
| BankGemm.LoadPhaseA | benchmarks/gemm/vectorized_bank_gemm.cuh:48-64 | The vector loads fill the padded, transposed shared tile of A, in any thread order |
| BankGemm.LoadA | benchmarks/gemm/vectorized_bank_gemm.cuh:48-64 | A thread fills exactly the cells it owns, so each used cell is filled once a step |
| BankGemm.BankBlock | benchmarks/gemm/vectorized_bank_gemm.cuh:17-173 | A block writes its 64x64 elements of C and no other |
| BankGemm.VectorizedBankGemm | benchmarks/gemm/vectorized_bank_gemm.cuh:175-218 | Launches exactly for M, N multiples of 64 and K of 8, and then computes the specification; otherwise C is untouched |
| ColumnMajorGemm.TransposeA | benchmarks/gemm/vectorized_column_major_gemm.cuh:17-66 | For every M and K the tiled transpose gives AT[k, m] = A[m, k], reading only shared cells filled before |
| ColumnMajorGemm.StoreCell | benchmarks/gemm/vectorized_column_major_gemm.cuh:41-48 | The cell stored is the right element of A, so the shared cell it is read from was filled in the first phase |
| ColumnMajorGemm.LoadPhaseA | benchmarks/gemm/vectorized_column_major_gemm.cuh:97-118 | Loading transposed A as it lies fills the same shared tile |
| ColumnMajorGemm.VectorizedColumnMajorGemm | benchmarks/gemm/vectorized_column_major_gemm.cuh:232-278 | Given a transposed A it launches for the same sizes and computes the specification for A |
| ColumnMajorGemm.TransposeThenGemm | benchmarks/gemm/vectorized_column_major_gemm.cuh:26-233 | Transpose and kernel together are a GEMM with A itself |
| WarpTiles.InsideOrOutside | benchmarks/gemm/shared_tensor_core.cuh:160-166 | For multiples of 16 a warp tile is wholly inside C or disjoint from it |
| WarpTiles.Owner | benchmarks/gemm/shared_tensor_core.cuh:31-41 | Each element of a block belongs to exactly one warp |
| WarpTiles.MmaSync | benchmarks/gemm/shared_tensor_core.cuh:150-155 | A fragment multiply adds the next sixteen terms to each product of the warp |
| WarpTiles.ScaleOne | benchmarks/gemm/shared_tensor_core.cuh:171-211 | The fast path, the general path and the path without old values give the same formula |
| WarpTiles.StoreBlock | benchmarks/gemm/shared_tensor_core.cuh:160-219 | The warps of a block write each element of C in it once; warps outside C write nothing |
| WarpTiles.EmptyProduct | benchmarks/gemm/shared_tensor_core.cuh:231-233 | The early return for an empty dimension meets the specification if and only if K > 0, beta is 1 or C is zero |
| WarpTiles.EmptyProductNotCleared | benchmarks/gemm/tensor_core_v2_gemm.cuh:282-284 | It does not for beta = 0 and C all ones, of whatever size |
| SharedTensorGemm.LoadPhase | benchmarks/gemm/shared_tensor_core.cuh:66-118 | Strided loads fill the whole tile, with zeros outside the matrix, in any thread order |
| SharedTensorGemm.SharedTensorCoreGemm | benchmarks/gemm/shared_tensor_core.cuh:221-265 | Launches exactly for positive multiples of 16, and then computes the specification even where blocks hang over the edge; for multiples of 16, 0 included, the result is the specification if and only if K > 0, beta is 1 or C is zero |
| TensorGemmV2.LoadPhase | benchmarks/gemm/tensor_core_v2_gemm.cuh:107-166 | Eight-wide loads fill the row-major tile of A and the column-major tile of B |
| TensorGemmV2.TensorCoreV2Gemm | benchmarks/gemm/tensor_core_v2_gemm.cuh:272-315 | Launches exactly for positive M, N multiples of 64 and K of 16, and then computes the specification; for such multiples, 0 included, the result is the specification if and only if K > 0, beta is 1 or C is zero |
| SwapInBlocks.CopyBlocksDirect | benchmarks/runtime/bench_direct_swap_in_by_blocks.cu:90-112 | Copies the blocks one after the other |
| SwapInBlocks.ScatterBlock | benchmarks/runtime/bench_buffered_swap_in_by_blocks.cu:112-139 | Vectors of four and tail, for any block size, thread count and thread order, are the copy of one block |
| SwapInBlocks.Scatter | benchmarks/runtime/bench_buffered_swap_in_by_blocks.cu:105-139 | The kernel is the sequence of block copies in launch order |
| SwapInBlocks.RunBufferedOnce | benchmarks/runtime/bench_buffered_swap_in_by_blocks.cu:191-230 | One buffered swap-in leaves the pool as the direct form does |
| SwapInBlocks.BufferedIsDirect | benchmarks/runtime/bench_buffered_swap_in_by_blocks.cu:105-139 | For distinct destinations every launch order gives what the direct form gives |
| SwapInBlocks.BlocksInPlace | benchmarks/runtime/bench_buffered_swap_in_by_blocks.cu:117-138 | Then every destination holds its source block and every other cell is as it was |
| SwapInBlocks.OrderIsUnobservable | benchmarks/runtime/bench_buffered_swap_in_by_blocks.cu:105-139 | Launch order is unobservable if and only if blocks with the same destination agree |
| SwapInBlocks.ShuffledDestinations | benchmarks/runtime/bench_buffered_swap_in_by_blocks.cu:88-95 | A shuffle of 0, ..., n - 1 has distinct destinations inside the pool |

## Left out

- `RealKvAllocator`, `BlockManager`, the GPT-2 model and the attention kernels. The scheduler theorems cover the
  real allocator only through `Script`, that is, where they need nothing of the tables.
- An interface type for allocators and backends: `Policy` and `Backend` stand for it as values.
- `is_swapped` is taken to be residency on the host, as the mock allocator defines it.
- Sockets, libuv set-up, threads and their start and join: they are the atomic events of the step relations.
  `uv_write` is taken to be accepted. Waiting on the condition variable is the enabledness of a step.
- Client disconnect, write errors and handle deletion: connections stay open.
- Ids narrowed to `int`, counters that wrap, and product overflow in kernel offsets: numbers are unbounded and ids
  are unique. Token printing and parsing do have 32-bit bounds.
- `cancel_queue_`, `RequestState::Aborted` and `KvCacheResidency::Mixed`, which nothing sets. The request's block
  table pointer and offset, which only device code reads.
- What the scheduler thread computes between two touches of shared state is one step of `Worker`: its batch function
  fills an outbox whose responses are then pushed one by one and signalled last. Pushes, pops, closes, stops and
  signals of other threads come between any of these.
- ServerClass.ServerContext.OnRead: only reads with data; end of stream and read errors, which close the connection,
  are not part of this model.
- Objects.MutexQueue.WaitPop: does not model the waiting itself; it is called when the wait is over.
- SchedulerClass.Scheduler.WorkerTurn: one turn of the loop; the loop itself, which need not end, is the step
  relation of `Worker`.
- Threads of a kernel phase interleave as wholes, in any order, not instruction by instruction; a warp's fragment
  operations are one step. Shared memory and registers hold exact reals: no rounding, half precision, alignment or
  bank conflicts. Vector loads are four or eight element reads.
- The launch of `vectorized_column_major_gemm` sees A only as a matrix of which AT is the transpose.
- `blocktiling_2d`, the coalescing, caching, 1D and plain vectorised kernels: the bank kernel has all they have and
  its theorem is the same.
- Log output, benchmark timing, percentiles, CSV files, Python, CMake.
