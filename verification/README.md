# A verified model of the kernel

The repository is a small RISC-V kernel: threads with a round-robin scheduler, a timer that ends time
slices and wakes sleepers, counting semaphores with timeouts, joins, one-place mailboxes, two character
rings for the console, a block allocator, and integer printing.  This project models those parts in
Dafny and proves what they promise.

The kernel is modelled twice.

- **A state machine.** `KernelSpec` gives every kernel operation as a function on `State`, and
  `KernelSpec.Next` is one step: a system call of the running thread, a timer tick, or the
  continuation of a call whose thread has just been dispatched.  A call that blocks is cut at
  `TCB::yield` and the rest of it is kept in the thread (`Thread.cont`), so any interleaving the
  scheduler can produce is a sequence of steps.  A `Trace` is any such sequence; `FromBoot` is one that
  starts in the state `main` sets up.
- **Objects.** `KernelObjects` has the classes with the fields and link pointers of the source (`TCB`,
  `ReadyQueue`, `Semaphore`, `SleepList`, `CharRing`), `KernelCode`, `ThreadCode` and `KernelCalls` the
  methods, with the source's loops and branches.  `os.Is(w, k)` says that the objects of `w` stand for
  state `k`; every method is proved to take the objects from `k` to what the state machine says.
  `KernelDriver.Drive` boots the objects and takes any script of steps; afterwards they stand for
  the last state of a run from boot, so what is proved of runs holds of the objects.

The allocator has the same two layers: `HeapSpec` and `HeapTheorems` on lists of segments,
`MemoryManager` on headers linked through arrays; `HeapView` states what its callers see, in addresses.
`PrintSpec` defines digits and text, `MPrint` has the loops of the source.

All 64-bit arithmetic that can wrap is written with `Wrap`; thread and semaphore numbers are those
the source's counters assign.

## Where to start reading

| file | content |
|---|---|
| `KernelTheorems.dfy` | the theorems about every run from boot |
| `SleepTiming.dfy`, `SleepSpec.dfy` | when sleepers wake, and the delta list behind it |
| `Starvation.dfy` | the bound on waiting for the processor |
| `TimeSlice.dfy` | who keeps the processor and for how long |
| `WaitOrder.dfy`, `TokenLedger.dfy`, `SemAnswers.dfy` | order, outcome and conservation at semaphores |
| `StepMeaning.dfy`, `RingMeaning.dfy`, `ThreadMeaning.dfy`, `Releases.dfy` | what each step does, as relations between the fields of two states, without the functions of the state machine |
| `KernelSpec.dfy`, `KernelTypes.dfy` | the state machine |
| `PlaceInvariant.dfy`, `LinkInvariant.dfy`, `JoinInvariant.dfy`, `Mailbox.dfy`, `CharBuffer.dfy` | the invariants |
| `KernelObjects.dfy`, `KernelCode.dfy`, `ThreadCode.dfy`, `KernelCalls.dfy`, `KernelBoot.dfy`, `KernelDriver.dfy` | the objects |
| `HeapTheorems.dfy`, `HeapView.dfy`, `MemoryManager.dfy` | the allocator |
| `PrintSpec.dfy`, `MPrint.dfy` | integer printing |

## Model

| member | source | states |
|---|---|---|
| KernelTheorems.ExactlyOnePlace | src/tcb.cpp:115-162 | In every reachable state an unfinished thread other than idle is in exactly one place: running, once in the ready queue, or suspended; `sleeps` and `blockedAtSem` say exactly in which lists it stands, and it stands at no two semaphores. |
| KernelTheorems.FinishedForever | src/tcb.cpp:140-162 | Once finished, a thread stays finished, is in no list, and never runs again. |
| KernelTheorems.Reachable | src/main.cpp:50-66 | Every state of every run from boot satisfies the place, link, join and time-slice invariants that the other theorems assume of a single state. |
| KernelSteps.NextGood | src/kernel.cpp:56-120 | No system call, resumption or timer tick breaks the place and link invariants. |
| KernelSteps.InitGood | src/main.cpp:50-66 | They hold after boot. |
| KernelTheorems.NoStarvation | src/scheduler.cpp:14-42 | A ready thread with `pos` others ahead of it runs before 64 * (pos + 1) ticks have passed, whatever the threads do meanwhile. |
| Starvation.DispatchedInTime | src/kernel.cpp:79-87 | The same from any state that satisfies the invariants. |
| Starvation.StepBudget | src/tcb.cpp:115-126 | The measure behind it: in each step a ready thread is dispatched or keeps a place whose budget of ticks is no larger, and smaller by one if the step is a tick. |
| TimeSlice.KeepsProcessor | src/tcb.cpp:115-126 | A step that is no tick, no dispatch call and no exit, and does not suspend its caller, leaves the caller running with its slice counter untouched, and the ready queue as it was but for threads added at its end. |
| TimeSlice.RunsItsSlice | src/kernel.cpp:79-87 | Over every run: a thread that has just got the processor and does not give it up keeps it while fewer ticks than its slice have passed, and the counter is the number of ticks passed. |
| TimeSlice.PreemptedAtSlice | src/kernel.cpp:79-87 | On the tick that uses up its slice the next in line runs with a fresh slice, and the thread itself stands last in line, behind those that the tick has woken. |
| StepMeaning.DispatchMeans | src/kernel.cpp:150-155 | thread_dispatch: the caller goes to the end of the line, the old head of the line runs, or the caller again if it is alone; the slice counter is 0 and nothing else changes. |
| StepMeaning.IdleMeans | src/scheduler.cpp:14-42 | When idle yields, the head of the line runs and idle is not put in line. |
| ThreadMeaning.TickMeans | src/kernel.cpp:79-87 | A tick, in fields: exactly the due sleepers become ready, in list order and out of their queues, with a timeout if they waited; everybody else sleeps one tick less; the caller runs on if its slice has ticks left, and otherwise is last in line. |
| ThreadMeaning.BootMeans | src/main.cpp:50-66 | The state after boot: master runs, idle is outside the line, and every thread, semaphore and ring is spelled out. |
| ThreadMeaning.CreateMeans | src/tcb.cpp:82-102 | thread_create: one new thread, last in line, with slice clamped to 1..64 and four semaphores of its own with values 0, 0, 1, 0; its creator has a child more; nothing else changes. |
| ThreadMeaning.ExitMeans | src/tcb.cpp:140-162 | thread_exit as five relations between fields: the mailbox closed, the joiners released with the regular outcome, the parent told, semJoinAll closed, and the next in line dispatched. |
| KernelTheorems.ChildrenCounted | src/tcb.cpp:148-153 | `numOfActiveChildren` is the number of unfinished children, semJoinAll never holds a token, and a thread waiting in joinAll needs exactly as many tokens as it has unfinished children, at least one. |
| KernelTheorems.JoinAllDone | src/kernel.cpp:175-180 | joinAll returns, at once or later, only when no child is unfinished. |
| KernelTheorems.TimedJoinAllCounts | src/kernel.cpp:182-187 | timedJoinAll returns the number of children that are unfinished when it returns. |
| KernelTheorems.JoinDone | src/kernel.cpp:157-173 | join and timedJoin return 0 only if the target has finished, at once if it had finished before; the self-join error exactly for oneself; join never times out. |
| KernelTheorems.FinishReleases | src/tcb.cpp:140-162 | After finish nobody waits at the four semaphores of the finished thread, and each of its joiners, timed or not, is awake and will be told 0. |
| StepMeaning.JoinMeans | src/kernel.cpp:157-164 | join, in fields: the self-join error or 0 without any change, or a wait for one token at the target's semJoin. |
| StepMeaning.TimedJoinMeans | src/kernel.cpp:166-173 | The same with a time limit. |
| StepMeaning.JoinAllMeans | src/kernel.cpp:175-180 | joinAll, in fields: a wait at the caller's semJoinAll for its number of children, answered 0. |
| StepMeaning.TimedJoinAllMeans | src/kernel.cpp:182-187 | The same with a time limit, answered with that number. |
| KernelTheorems.WaitOutcome | h/kSemaphore.hpp:43-56 | If a step takes a waiter off a semaphore's queue, the waiter's next step returns TIMEOUT if that step was a tick, the close error if it closed the semaphore, and 0 otherwise. |
| KernelTheorems.MailOverRun | src/kernel.cpp:254-272 | The mailbox invariant holds for every unfinished thread in every state of every run from boot, against the log of all sends to and receives of that thread. |
| KernelTheorems.OneMailToken | src/tcb.cpp:46 | Each unfinished thread's mailbox has one token, at semSend, at semReceive, or granted to a waiter of one of them; it is at semReceive exactly when a sent text has not been received. |
| KernelTheorems.EachReceiveSeesItsSend | src/kernel.cpp:254-272 | The log holds the full text of each send call. Sends and receives alternate, and each receive returns the first 256 characters of the text of the send before it: its length is the smaller of 256 and that of the text, and it agrees with the text in every character. |
| KernelTheorems.NoMailYet | src/kernel.cpp:254-272 | No step sends to, or receives as, a thread that does not exist. |
| StepMeaning.SendMeans | src/kernel.cpp:254-263 | send, in fields: nothing to oneself; otherwise a wait at the receiver's semSend, then the first 256 characters of the text in its box and a token at its semReceive. |
| StepMeaning.ReceiveMeans | src/kernel.cpp:265-272 | receive, in fields: a wait at semReceive, then a token at semSend and the text in the box as answer. |
| KernelTheorems.FirstInFirstOut | h/io.hpp:22-39 | Over every run the characters got from a ring are a prefix of those put into it; at most 256 are stored; the levels of semGet and semPut are the stored characters and the free slots; nobody ever waits for the mutex. |
| KernelTheorems.NoLostWakeup | h/io.hpp:22-39 | In every reachable state a consumer waits at semGet only while every stored character has been granted to a consumer that has not run since, and a producer at semPut only while every free slot has. |
| CharBuffer.NextRing | h/io.hpp:22-39 | Every step keeps the ring's contents equal to the characters put and not yet got, whoever interleaves. |
| RingMeaning.PutMeans | h/io.hpp:22-29 | putc, in fields: a wait at semPut, a wait at the mutex, the character at the write position, a token at the mutex and one at semGet. |
| RingMeaning.GetMeans | h/io.hpp:31-39 | getc, in fields: a wait at semGet, a wait at the mutex, the character at the read position as answer, a token at the mutex and one at semPut. |
| RingMeaning.ResumeMeans | src/tcb.cpp:115-126 | What a dispatched thread does with the rest of its call, in fields, for each place at which a call can be suspended. |
| SleepSpec.InsertRefines | src/sleep.cpp:6-42 | Read as deadlines, put adds the newcomer's and changes nobody else's. |
| SleepSpec.RemoveRefines | src/sleep.cpp:44-89 | get removes one deadline and changes nobody else's; its 64-bit addition to the successor does not wrap. |
| SleepSpec.TickRefines | src/sleep.cpp:110-124 | Decrementing the head alone brings every deadline one tick closer. |
| SleepSpec.InsertBehindEqual | src/sleep.cpp:6-42 | put places the newcomer behind exactly those that are due no later. |
| SleepSpec.Ordered | src/sleep.cpp:6-42 | The list is sorted by deadline. |
| SleepTiming.SleepsExactly | src/sleep.cpp:91-124 | time_sleep(t), t > 0: the caller sleeps through t - 1 ticks and is ready or running after exactly the t-th, whatever happens meanwhile. |
| SleepTiming.WakesExactly | src/sleep.cpp:110-124 | A timed waiter with t ticks to go that no signal or close releases is ready or running after exactly the t-th tick. |
| SleepTiming.SleepCountdown | src/sleep.cpp:110-124 | Until then it sleeps, and what it has left is its timeout less the ticks passed, whatever others insert and remove. |
| SleepTiming.FallsAsleep | src/kSemaphore.cpp:202-220 | Each call with a timeout that suspends its caller puts it to sleep for exactly that timeout, behind everybody due by then. |
| SleepTiming.DueInCallOrder | src/sleep.cpp:6-42 | Two sleepers due on the same tick become ready on it, the one that called first ahead of the other. |
| SleepTiming.TickDeadlines | src/sleep.cpp:110-124 | onTick wakes exactly those whose deadline has come and makes them ready in list order. |
| StepMeaning.SleepMeans | src/sleep.cpp:91-108 | time_sleep, in fields: the error and no change for 0, or the caller sleeps for the timeout, behind those due by then and in front of those due later, and the next in line runs. |
| WaitOrder.Fifo | src/kSemaphore.cpp:60-119 | Along any run, while one waiter keeps waiting nobody behind it in the same queue is granted or closed; it is still behind it or its own time ran out. |
| WaitOrder.NoBarging | src/kSemaphore.cpp:121-220 | While somebody waits the value is 0, and wait, tryWait and timedWait for at least one token do not succeed at once. |
| WaitOrder.CauseStep | src/kSemaphore.cpp:52-184 | A step that takes a waiter off its queue records why: timeout for a tick, close for a closing step, signal otherwise; no step touches the record of a thread that waits on or awaits its dispatch. |
| WaitOrder.ResultNamesCause | h/kSemaphore.hpp:43-56 | A resumed waiter returns what its record says. |
| StepMeaning.SemWaitMeans | src/kernel.cpp:203-207 | sem_wait, in fields: the error for a dead semaphore; 0 and the tokens taken if there are enough; otherwise the value absorbed, the caller last in the queue for the rest, and the next in line running. |
| StepMeaning.SemTimedWaitMeans | src/kernel.cpp:215-219 | The same with a place in the sleep list, and a zero timeout answered at once. |
| StepMeaning.SemTryWaitMeans | src/kernel.cpp:221-225 | sem_trywait answers 0 exactly when the semaphore is active and holds the tokens, and takes them; 1 exactly when it is active and holds fewer, and no semaphore changes; the error exactly when it is dead. |
| StepMeaning.SemSignalMeans | src/kernel.cpp:209-213 | sem_signal, in fields: the first waiters whose needs the tokens cover are ready, in order and with the regular outcome, the next one gets the rest, and without a next one the value does. |
| StepMeaning.SemCloseMeans | src/kernel.cpp:197-201 | sem_close leaves an active semaphore dead, empty and with value 0, whether or not somebody waited, releases all its waiters in order with the close outcome, and answers 0; for a dead one it answers the error and changes nothing. |
| StepMeaning.SemOpenMeans | src/kernel.cpp:189-195 | sem_open adds one active semaphore with the given value and no waiters, answers its handle, and changes nothing else. |
| Releases.SignalHandsOut | src/kSemaphore.cpp:141-166 | The loop of signal as a relation between fields: who is released, in what order, and what is left for the next waiter or the value. |
| Releases.AllReleased | src/kSemaphore.cpp:168-184 | The loop of signalAll in the same way: everybody, in order. |
| TokenLedger.TokensConserved | src/kSemaphore.cpp:121-220 | Conservation at a semaphore over any run that does not close it, with any token counts: initial + signalled = value + taken by completed waits + held by waiters + kept from waits that gave up + 2^64 for each wrap of the value. |
| TokenLedger.SingleTokensConserved | src/kSemaphore.cpp:121-166 | With one-token waits no waiter, present or past, holds any: what went in is there or was taken by a completed wait. |
| TokenLedger.StepTracks | src/kSemaphore.cpp:121-220 | Each step changes the value and the queue exactly as the ledger's events say. |
| SemAnswers.CompletedAreAnswered | src/kSemaphore.cpp:121-220 | Over every run the ledger's completed waits are those that were answered 0 and those granted to a thread that has not run since; its signalled tokens are those of the signal calls. |
| SemAnswers.TokensFromOpening | h/kSemaphore.hpp:34-36 | Over every run from boot, from sem_open(init) on and while the semaphore stays open: init + signalled = value + answered 0 or about to be + held or kept by waiters + 2^64 for each wrap; with one-token waits nobody holds or keeps any. |
| KernelDriver.Step | src/kernel.cpp:56-120 | On the objects, each step of the state machine: new state, answer, rings, and new objects only for created threads and semaphores. |
| KernelDriver.Drive | src/main.cpp:50-66 | From boot the objects play any script of steps (what the kernel does not admit is skipped) and then stand for the state the script plays. |
| KernelDriver.PlayIsRun | src/kernel.cpp:56-120 | That state is the last of a run from boot. |
| RunScripts.RunIsPlayed | src/kernel.cpp:56-120 | Conversely the script of a run from boot plays that run state by state, so nothing that a program can ask is skipped (as long as nobody waits for 2^64 children). |
| KernelBoot.Boot | src/main.cpp:50-66 | main's initialisation: the master and idle threads, their semaphores, both rings and empty queues stand for the first state. |
| KernelCode.Kernel.SchedPut | src/scheduler.cpp:14-24 | The thread goes to the end of the ready queue, unless it is idle. |
| KernelCode.Kernel.SchedGet | src/scheduler.cpp:26-42 | The head of the ready queue is taken off, idle if there is none. |
| KernelCode.Kernel.Yield | src/tcb.cpp:115-126 | An unfinished, unblocked, waking thread goes to the end of the line, the next one runs, the slice counter is reset. |
| KernelCode.Kernel.Signal | src/kSemaphore.cpp:141-166 | The loop over waiters: each in turn gets all it needs, the last gets the rest, and only what nobody needs is added to the value. |
| KernelCode.Kernel.SignalAll | src/kSemaphore.cpp:168-184 | All waiters are released in order and the value is set. |
| KernelCode.Kernel.Close | src/kSemaphore.cpp:52-58 | An active semaphore releases its waiters with the close outcome and dies; a dead one gives the error. |
| KernelCode.Kernel.Wait | src/kSemaphore.cpp:121-139 | Takes the tokens at once, or absorbs the value and suspends the caller for the rest. |
| KernelCode.Kernel.TryWait | src/kSemaphore.cpp:186-200 | The answer, in the semaphore's fields: 0 when it is active and its value is at least the tokens, 1 when it is active and its value is less, the error when it is dead; and the objects stand for the state that SemTryWaitMeans describes. |
| KernelCode.Kernel.TimedWait | src/kSemaphore.cpp:202-220 | As wait, with a place in the sleep list; a zero timeout gives up at once. |
| KernelCode.Kernel.Sleep | src/sleep.cpp:91-108 | Puts the caller to sleep and suspends it; for a zero timeout it leaves the queue it waits in, its wait timed out, and gets the error. |
| KernelCode.Kernel.OnTick | src/sleep.cpp:110-124 | The loop over due sleepers: each leaves the list and its semaphore's queue and becomes ready. |
| KernelCode.Kernel.TimerTick | src/kernel.cpp:79-87 | The timer interrupt: count, wake, and switch when the slice is used up. In fields: while `timeSliceCounter + 1` is below the running thread's slice it runs on and the counter grows by one; otherwise the counter is 0.  `TickMeans` says who runs then. |
| ThreadCode.ThreadCreate | src/tcb.cpp:82-102 | A new thread with four new semaphores, ready, counted as its creator's child. |
| ThreadCode.NotifyParent | src/tcb.cpp:148-153 | The parent's count falls by one and its joinAll gets one token, if it waits there and has not finished. |
| ThreadCode.Finish | src/tcb.cpp:140-162 | The whole of finish, in the source's order, up to the switch to the next thread. |
| KernelCalls.Join | src/kernel.cpp:157-164 | Self-join error, 0 for a finished target, or a wait at its semJoin. |
| KernelCalls.TimedJoin | src/kernel.cpp:166-173 | The same with a timeout. |
| KernelCalls.JoinAll | src/kernel.cpp:175-180 | A wait at semJoinAll for as many tokens as there are unfinished children. |
| KernelCalls.TimedJoinAll | src/kernel.cpp:182-187 | The same with a timeout; what is answered is the count. |
| KernelCalls.Send | src/kernel.cpp:254-263 | Nothing to oneself; otherwise wait for the box, copy the text, signal the receiver. |
| KernelCalls.Receive | src/kernel.cpp:265-272 | Wait for a text, free the box, answer with the text. |
| KernelCalls.PutIn | h/io.hpp:22-29 | kPut on one ring: the two waits, the write, the two signals; the other ring is untouched. |
| KernelCalls.GetIn | h/io.hpp:31-39 | kGet on one ring. |
| KernelCalls.Resume | src/tcb.cpp:115-126 | A dispatched thread's wait returns, or its handler goes on behind the wait, until it blocks again or answers. |
| KernelObjects.TCB.constructor | src/tcb.cpp:20-66 | A new thread's fields: slice clamped to 1..64, and only the last character of the message buffer set. |
| KernelObjects.TCB.SetMsg | h/tcb.hpp:118-124 | The buffer holds the text up to its NUL, character by character, or its first 256 characters if it is longer, and a NUL behind them. |
| KernelObjects.ReadyQueue.Put | src/scheduler.cpp:14-24 | The linked queue grows by the thread at its end. |
| KernelObjects.ReadyQueue.Get | src/scheduler.cpp:26-42 | The first thread leaves the linked queue; null if there is none. |
| KernelObjects.Semaphore.Put | src/kSemaphore.cpp:60-72 | The waiter is last in the linked queue, with its need recorded. |
| KernelObjects.Semaphore.GetHead | src/kSemaphore.cpp:74-119 | The first waiter leaves the linked queue and is marked unblocked; null for an empty queue. |
| KernelObjects.Semaphore.Get | src/kSemaphore.cpp:74-119 | The given thread leaves, wherever it stands, and the others keep their order and needs; null and no change if it does not wait here. |
| KernelObjects.SleepList.Put | src/sleep.cpp:6-42 | The walk over linked sleepers computes the insertion into the delta list. |
| KernelObjects.SleepList.Get | src/sleep.cpp:44-89 | The given sleeper leaves and its delta goes to its successor; null and no change for a thread that does not sleep here. |
| KernelObjects.SleepList.GetHead | src/sleep.cpp:44-89 | The same for the first sleeper; null for an empty list. |
| KernelObjects.CharRing.Put | h/io.hpp:91-95 | The slot at the write position is set and the position moves on, modulo 256. |
| KernelObjects.CharRing.Get | h/io.hpp:97-102 | The slot at the read position is returned and the position moves on. |
| HeapTheorems.RunKeeps | src/memoryManager.cpp:110-163 | Over every sequence of allocations and frees of both owners the three lists stay sorted and disjoint and cover the heap exactly, and no two free segments touch. |
| HeapTheorems.AllocComplete | src/memoryManager.cpp:110-133 | An allocation fails exactly when there are no nBlocks + 1 contiguous free blocks anywhere; otherwise it takes the lowest such place. |
| HeapTheorems.AllocMoves | src/memoryManager.cpp:118-132 | The blocks taken go from the free list to the owner's as one segment; all other blocks and the other owner's list stay. |
| HeapTheorems.SameFreeBlocks | src/memoryManager.cpp:157-160 | Merging makes the free list depend on the free blocks alone, not on the history. |
| HeapTheorems.ReleaseUndoesAlloc | src/memoryManager.cpp:135-163 | Freeing what was just allocated restores all three lists exactly. |
| HeapTheorems.RunThatFreesEverything | src/memoryManager.cpp:135-163 | Whatever the order of requests, when both owners' lists are empty the heap is the one initial segment. |
| HeapTheorems.ReleaseExact | src/memoryManager.cpp:135-163 | A free succeeds exactly for the start of a segment of the owner's list; it returns that segment's blocks and nothing else; otherwise nothing changes. |
| HeapTheorems.DoubleFree | src/memoryManager.cpp:141-142 | A second free of the same segment is refused. |
| HeapTheorems.ForeignFree | h/memoryManager.hpp:52-70 | Neither owner can free the other's segments. |
| HeapView.LoanInHeap | src/memoryManager.cpp:110-163 | Over every run of allocations and frees, in addresses: each byte range handed out and not yet freed consists of whole, aligned blocks inside the heap. |
| HeapView.LoansDisjoint | src/memoryManager.cpp:110-163 | No two of these ranges, of whichever owners, share a byte; a header lies between them. |
| HeapView.LoansHoldNoHeader | src/memoryManager.cpp:110-163 | None of them holds a header of a segment of any of the three lists. |
| HeapView.FreesExactlyLoans | src/memoryManager.cpp:135-163 | A free succeeds exactly for the first byte of one of these ranges of the same owner. |
| HeapView.AsksExact | src/memoryManager.cpp:110-133 | After every run an allocation is answered with 0 exactly when no nBlocks + 1 contiguous blocks are free, and otherwise with the first byte behind the header of the lowest such place. |
| HeapView.FreeAnswers | src/memoryManager.cpp:135-163 | A free is answered with 0 or ERR_MEM_FREE, and the error changes nothing. |
| HeapView.PerformAll | src/memoryManager.cpp:110-163 | On headers, a run from a fresh heap gives the answers and ends in the heap that those theorems are about. |
| HeapSpec.FirstFit | src/memoryManager.cpp:88-94 | The first segment that is large enough, and all before it are too small. |
| HeapSpec.Upto | src/memoryManager.cpp:76-86 | How many leading segments lie at or below an address. |
| MemoryManager.Headers.FindBySize | src/memoryManager.cpp:88-94 | The walk over headers ends at the first fit, or at the end of the list. |
| MemoryManager.Headers.FindByPointer | src/memoryManager.cpp:76-86 | It ends at the last header at or below an address. |
| MemoryManager.Headers.InsertAfter | src/memoryManager.cpp:39-48 | The links of the list with the segment in its place; no header outside the list is written. |
| MemoryManager.Headers.InsertAsHead | src/memoryManager.cpp:50-59 | The same for a segment before all others. |
| MemoryManager.Headers.Remove | src/memoryManager.cpp:61-74 | The links of the list without the segment. |
| MemoryManager.Headers.Reduce | src/memoryManager.cpp:19-37 | The rest of the segment takes its place in the list; refused when nothing would be left; by 0 blocks, exactly the header is erased. |
| MemoryManager.Headers.MoveHeader | src/memoryManager.cpp:23-34 | Where each size and link of reduce ends up; with 0 blocks the header loses its size and links. |
| MemoryManager.Headers.Merge | src/memoryManager.cpp:4-17 | The segment swallows its successors as long as they touch; the result is their number. |
| MemoryManager.MemoryManager.constructor | src/memoryManager.cpp:102-108 | init: one free segment from the aligned start of the heap. |
| MemoryManager.MemoryManager.Alloc | src/memoryManager.cpp:110-133 | On headers, exactly the allocation of the heap model and its address; for 2^64 - 1 blocks the lists break if and only if a free segment is there. |
| MemoryManager.MemoryManager.Free | src/memoryManager.cpp:135-163 | On headers, exactly the release of the heap model: 0 for null, the error for every address that does not start an own segment; None exactly for address 64. |
| MemoryManager.MemoryManager.MemAlloc | h/memoryManager.hpp:47-50 | Allocates for the user; the system list is unchanged. |
| MemoryManager.MemoryManager.KMemAlloc | h/memoryManager.hpp:62-65 | Allocates for the system; the user list is unchanged. |
| MemoryManager.MemoryManager.MemAllocByte | h/memoryManager.hpp:57-60 | Allocates the blocks ROUNDUP gives; the lists never break. |
| MemoryManager.MemoryManager.KMemAllocByte | h/memoryManager.hpp:72-75 | The same for the system. |
| MemoryManager.MemoryManager.MemFree | h/memoryManager.hpp:52-55 | Frees from the user list; the system list is unchanged. |
| MemoryManager.MemoryManager.KMemFree | h/memoryManager.hpp:67-70 | Frees from the system list; the user list is unchanged. |
| MemoryManager.RoundUpExact | h/memoryManager.hpp:9 | ROUNDUP is the least number of blocks that hold the bytes if and only if there are at most 2^64 - 64 of them. |
| MemoryManager.RoundUpWraps | h/memoryManager.hpp:9 | 2^64 - 1 bytes are rounded up to 0 blocks. |
| MemoryManager.AlignUpExact | h/memoryManager.hpp:8 | ALIGN gives the first multiple of the block size at or above the address. |
| PrintSpec.DigitsValue | test/printing.cpp:69-72 | The digits of the plain division loop have the number as their value. |
| PrintSpec.NoLeadingZero | test/printing.cpp:69-72 | The last digit is not 0, unless it is the only one. |
| PrintSpec.OnlyDigits | test/printing.cpp:69-72 | Those two facts leave only one sequence of digits. |
| PrintSpec.LengthExact | test/printing.cpp:69-72 | k digits are enough exactly for the numbers below base^k. |
| PrintSpec.EstimateClose | util/mPrint.cpp:68 | The reciprocal multiplication fits in 64 bits and gives the quotient by 10 or one more. |
| PrintSpec.ParseUndoesText | util/mPrint.cpp:35-43 | Reading the printed decimal digits of a non-negative int gives it back. |
| PrintSpec.TextMeans | util/mPrint.cpp:45-111 | What is printed, highest digit first: '-' exactly for a negative number printed signed, then the digits, 0 to 9 and A to F, without leading zero, of the magnitude; a negative number printed unsigned shows its value modulo 2^32. |
| PrintSpec.ParseMeans | util/mPrint.cpp:35-43 | Reading any digits gives their decimal value as a 32-bit int. |
| PrintSpec.Int32Means | util/mPrint.cpp:35-43 | A 32-bit int agrees with the number that it stands for modulo 2^32. |
| MPrint.DivideByTen | util/mPrint.cpp:68-72 | Quotient and remainder by 10, with at most one correction. |
| MPrint.ConvertTen | util/mPrint.cpp:64-75 | The digits of base 10, at the front of the buffer. |
| MPrint.ConvertShift | util/mPrint.cpp:77-99 | Masking and shifting produce the digits of bases 16, 8, 4 and 2. |
| MPrint.ConvertPlain | util/mPrint.cpp:101-105 | The digits of any other base. |
| MPrint.ConvertInt | util/mPrint.cpp:45-111 | The digits and the sign, nothing behind them written; 0 and no write for a base outside 2..16. |
| MPrint.PrintInt | util/mPrint.cpp:113-122 | The buffer is overrun exactly when the text is longer than 16 characters; otherwise what is printed is the text, highest digit first. |
| MPrint.AtMostThirtyThree | util/mPrint.cpp:45-111 | No 32-bit number needs more than 33 characters in any base. |
| MPrint.FitsBuffer | util/mPrint.cpp:115-116 | It fits if and only if the magnitude is below base^16, or base^15 with a sign. |
| MPrint.SeventeenCharacters | util/mPrint.cpp:115-116 | Two numbers that do not fit: 65536 and -32768 in base 2. |
| MPrint.StringToInt | util/mPrint.cpp:35-43 | The 32-bit value of the leading digits, wrapping once or after every operation alike. |

## Findings

Where the code does not do what it is for.  Each row gives an input and, for all inputs, the exact
condition.

| source | as written | input | intended | shown by |
|---|---|---|---|---|
| util/mPrint.cpp:115-116 | mPrintInt_nonatom writes 17 or more characters into a buffer of 16. | 65536 in base 2. Exactly when the magnitude is at least base^16, or base^15 with a minus sign: in bases 2 and 3, and for negative numbers in base 4. | A buffer for all 32 digits and the sign. | `MPrint.FitsBuffer`, `MPrint.SeventeenCharacters` |
| h/memoryManager.hpp:9 | ROUNDUP wraps, and memAlloc_byte hands out a segment that is too small instead of failing. | 2^64 - 1 bytes, which become 0 blocks. Exactly when more than 2^64 - 64 bytes are asked for. | The null address. | `MemoryManager.RoundUpExact`, `MemoryManager.RoundUpWraps` |
| src/memoryManager.cpp:113-122 | `nBlocks + 1` wraps to 0, the first free segment is reduced to nothing and its header erased; afterwards the headers stand for no heap. | 2^64 - 1 blocks, exactly when a free segment is there; no other number of blocks does it. | The null address and unchanged lists. | `MemoryManager.MemoryManager.Alloc` |
| src/memoryManager.cpp:141-146 | The header's address is 0, which is also what findByPointer returns for no segment, so a header at address 0 is unlinked. | Freeing address 64, and no other address. | ERR_MEM_FREE and unchanged lists. | `MemoryManager.MemoryManager.Free` |

Three more peculiarities that the theorems account for:

- The value of a semaphore wraps at 2^64 (src/kSemaphore.cpp:163); `TokenLedger.TokensConserved` counts the
  wraps.
- A waiter for several tokens that gives up keeps what it has absorbed (src/kSemaphore.cpp:202-220).  With
  one-token waits, the only ones the sem system calls make, nothing is absorbed
  (`TokenLedger.SingleTokensConserved`).
- The TCB constructor clears one character of the message buffer 257 times (src/tcb.cpp:63-64), so the
  buffer starts with what memory held.  No receive shows it: every receive has a send before it
  (`KernelTheorems.EachReceiveSeesItsSend`).

## Left out

- Idle's repeated exit: the idle thread's body returns and thread_exit runs on a thread that the scheduler hands out again; the model's idle thread only yields, which is what its later exits amount to. The first one, which also closes idle's semaphores and counts it off as a child of master, is not modelled.
- Master's counter: because of that first exit `numOfActiveChildren` of master is not stated to count its children (`JoinInvariant.Counted` excludes master); master makes no joinAll call.
- Assembly, control registers, privilege modes, stacks and the context switch (src/kernel_asm.S, src/kernel.cpp:12-55): a switch is the change of `running`.
- Console devices, interrupts other than the timer, the two I/O threads and MLOCK: threads of the model may make the ring calls those threads make.
- Shutdown (src/main.cpp:91-104), the exception path that finishes a faulting thread with a negative status, and thread bodies.
- Memory exhaustion during thread and semaphore creation (src/tcb.cpp:48-60): creation in the state machine succeeds. The allocator and the scheduler are modelled side by side and not joined.
- Thread, semaphore and child counters are unbounded in the state machine; where a child count becomes a 64-bit token count the methods require that it fits.
- The text of a send that blocks is fixed at the call; the source reads the caller's memory when the send goes on.
- The handles that calls pass are those of existing threads other than idle and of semaphores given out by sem_open, and message texts end in a NUL; the source trusts its callers with this.
- Calls take any token count, though the system calls pass 1 and the joins the child count.
- The list of all threads (nextTCB) and the list of all semaphores (nextSem) appear as the sequences of `World`.
- uPut and uGet, which are kPut and kGet with interrupts masked, the C and C++ wrappers, and mPrintString, mGetString and the mutual exclusion around them.
- The heap has room for at least one block and ends inside the address space.
- PrintInt: when the text overruns the buffer it says so, not what is then printed.
- Free: for address 64 it states that the code goes on with a null header, not what is then at address 0.
