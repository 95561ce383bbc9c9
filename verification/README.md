# Proofs about a thread package, the SM213 machine and its programs

The repository holds a user-level thread package in C, the student part of a simulator of the
SM213 teaching machine in Java, programs for that machine with their C counterparts, and a
queue of completions that an alarm signal drains. This project models the parts with the most
state and proves what they are for.

- **The thread package on any number of processors** (`Kernel*.dfy`, `ReaderWriter*.dfy`). An
  interleaved step machine over `a9/uthread.c`: one step is one access that other processors
  can observe, such as the exchange of a spinlock, a queue operation inside its spinlock, the
  read of a state, the save of a stack pointer and the store of the state that follows it.
  Threads create, yield, make, enter and exit monitors in any well-bracketed order; each
  processor comes with an idle thread that yields forever. Assertions of the source, and the
  use of a context that has not been saved, are states that the machine can enter, and it is
  proved that it never does. Memory is sequentially consistent. On top of it run the reader and
  writer threads of `a9/reader_writer_test.c`, with every access to `c0` and `c1` a step.
- **The thread package on one processor** (`UthreadSpec`, `UthreadInvariant`, `UthreadCalls`,
  `UthreadRuns`, `UthreadJoins`, `UthreadEffects`, `UthreadLaws`, `Uthread`, `ThreadQueue`). The
  whole life of a thread, with join, detach, reaping and freeing. `Uthread` has the control
  blocks and monitors as objects that are updated in place, and every method is proved to do to
  their snapshot what a function of `UthreadSpec` says; the other modules prove, for every
  sequence of legal calls, what those functions keep and what each call achieves.
  `ThreadQueue` has the intrusive queues with their links.
- **The SM213 machine** (`Sm213*.dfy`). Fetch and execute over a byte memory and eight
  registers of 32 bits, as a function and as objects; then the programs
  `a5/A5-a.s` (`MaxLoop`), `a5/A5-b.s` (`CallConvention`), `a6/A5-c.s` (`SwitchCall`),
  `a4/S5-loop.s` with `a4/S5a-loop-unrolled.s` (`SumLoop`), `a6/SB-switch.s` (`SwitchForms`) and
  `a6/SA-dynamic-call.s` (`DynamicCall`), with their instructions as bytes at their addresses,
  for all inputs. `Sm213Laws` says when an instruction throws and what the bits of a shift are.
- **The completion ring** (`CompletionRing`, `AsyncQueue`, `AsyncMain`). The wrap-around queue
  of `a7/async.c`, and its main program with an interrupt possible between any two steps.

Assumptions about library classes that are not part of the repository: the unaligned word
reader and writers of the simulator are built from `get`, `bytesToInteger`, `integerToBytes`
and `set`; the aligned ones also ask for an address divisible by four; `readUnaliged` is `get`;
`UnsignedByte` keeps the low eight bits; the immediate operand of an instruction is a signed byte. The assembler's
encoding is that of the SM213 instruction set; bits that an instruction does not use are zero,
except the second byte of a six-byte instruction, which may be anything.

Two properties do not hold in full, and the project says exactly when they do. The maximum
loop compares by the sign of a difference: it stores the maximum whenever no element differs
from the maximum before it by more than a word can hold (`MaxLoop.StoresMaximum`), does so for
every length of the array if and only if that is so (`MaxLoop.ExactlyWhenComparable`), and misses
the largest word (`MaxLoop.LargestIsMissed`). The ring hands every entry to its handler once and
in order if and only if no entry is submitted while 999 are outstanding
(`CompletionRing.FifoExactlyWithoutOverflow`); with the next one it looks empty, so that 1000
submissions to an empty ring are all lost (`CompletionRing.BurstIsLost`).

Where code and documentation disagree the code is followed. Line 84 of `a5/README.txt` says
that A5-a finds the largest element; it starts from -1, so an array of smaller numbers gives
-1, and `MaxLoop.StoresMaximum` says so. Line 92 says that foo (1, 2) sets arr[2] to arr[1] + 2;
the code adds 1 to arr[2]. The comment at lines 448-449 of `a9/uthread.c` fears a thread on the
ready queue in the blocked state: that happens when its waker runs before it has stored its
state, and `KernelSafety.SingleExecution` and `KernelSafety.NoLostWakeup` show that it does no
harm.

## Model

| member | source | states |
|---|---|---|
| KernelSafety.NoAssertionFails | a9/uthread.c:437-441 | In every reachable state of every interleaving, for any number of processors, `assert (to_thread)` and the assertion in exit hold, and no processor loads a context that is not there |
| KernelIdle.ReadyNotEmpty | a9/uthread.c:199-213 | A processor that has given up its own thread finds the ready queue non-empty: the other processors own at most one of the idle threads each |
| KernelSafety.SingleExecution | a9/uthread.c:340-431 | No thread is executed by two processors at once, whether it was woken or requeued while still running or dequeued itself |
| KernelSafety.ResumesSavedContext | a9/uthread.c:346-347 | A processor past the spin on its target's state finds a saved context, and nobody still executes the target |
| KernelSafety.WokenNotExecuted | a9/uthread.c:447-453 | The store of the runable state by a waker never hits a thread that a processor executes |
| KernelSafety.StartsOnce | a9/uthread.c:424-431 | The start procedure of a thread is called once, when it is first resumed, and never again |
| KernelSafety.OneOwner | a9/uthread.c:84-94 | Every thread has exactly one owner: a processor, a waker, the ready queue or one waiter queue, and is on a queue once; so its one link is never shared |
| KernelOwnership.StepOwnership | a9/uthread.c:119-171 | Every step that does not fail hands ownership on from one owner to the next |
| KernelSafety.SpinlockExclusion | a9/uthread.c:58-78 | Down to the exchange, one processor at most is between taking and freeing a spinlock |
| KernelSafety.MonitorExclusion | a9/uthread.c:588-607 | A thread is between the end of enter and the start of exit if and only if `holder` names it |
| KernelSafety.NoLostWakeup | a9/uthread.c:623-635 | While its spinlock is free, a monitor with waiters but no holder has a dequeued waiter that is on its way to test it again and stands on no waiter queue |
| KernelWakeup.StepWakeups | a9/uthread.c:588-607 | Barging threads and waiters that have not blocked yet keep that invariant in every step |
| KernelQueues.ReadyFifo | a9/uthread.c:119-163 | Over every run of any number of processors, what was on the ready queue and what each enqueue puts there is what the dequeues take, in that order, and what is left |
| KernelQueues.ReadyInTurn | a9/uthread.c:119-163 | The thread at index k of the ready queue is what the (k+1)-th later dequeue takes, on whatever processor |
| KernelQueues.DequeueTakes | a9/uthread.c:437-441 | Every dequeue takes the first thread; none finds the queue empty |
| KernelQueues.WaitersFifo | a9/uthread.c:588-635 | The waiters of a monitor are woken in the order in which they came, over every run |
| KernelCalls.YieldIsFair | a9/uthread.c:503-506 | A thread that yields is back in its client code only after every thread that was ready has been taken in turn, and then the thread itself |
| KernelCalls.CreateQueues | a9/uthread.c:474-478 | A create makes one nascent thread, which has been put on the ready queue when the create has returned |
| KernelCalls.MakeMonitorMakesFree | a9/uthread.c:561-573 | A new monitor is free and has no waiters |
| KernelCalls.EnterReturnsInside | a9/uthread.c:588-607 | Whoever barges in between, a thread comes back from enter with the monitor, which names it as holder |
| KernelCalls.ExitReleases | a9/uthread.c:623-635 | Before a thread comes back from exit the monitor has been free, and the thread is no longer inside |
| KernelCalls.ExitQueuesWaiter | a9/uthread.c:623-635 | The first waiter leaves the queue, and has been put on the ready queue when the exit has returned |
| KernelCalls.BootStartsAll | a9/uthread.c:219-254 | All processors that are asked for are started, and no more |
| KernelStates.StatesSayWhatThreadsDo | a9/uthread.c:340-431 | A thread that no processor executes is nascent if it has never run, runable if it has yielded, and blocked if it is on a waiter queue |
| ReaderWriterProof.ReadAlone | a9/reader_writer_test.c:18-22 | With no other thread in between, read reports an error exactly if the counters differ and changes neither |
| ReaderWriterProof.WriteAlone | a9/reader_writer_test.c:24-30 | With no other thread in between, write adds 1 to both counters and reports an error exactly if they differ |
| ReaderWriterProof.NoErrorReported | a9/reader_writer_test.c:18-30 | For any numbers of readers, writers, iterations and processors no read or write inside the monitor reports an error |
| ReaderWriterProof.ComparesEqual | a9/reader_writer_test.c:40-50 | While a thread compares `c0` with `c1` inside the monitor the two are equal |
| ReaderWriterProof.EndResult | a9/reader_writer_test.c:77-93 | Once every loop has run out, both counters are the number of writers times the count |
| ReaderWriterProof.NeverRefused | a9/reader_writer_test.c:66-75 | The test's threads keep to the brackets of enter and exit, so the package accepts each of their calls |
| ThreadQueue.Queue.Enqueue | a9/uthread.c:119-126 | The intrusive queue gets the thread at its end and only the old tail is relinked |
| ThreadQueue.Queue.Dequeue | a9/uthread.c:132-142 | The first thread comes off, or null from an empty queue; the link of the thread that left is stale |
| ThreadQueue.PutOn | a9/uthread.c:119-126 | Among any number of queues linked through the same field, an enqueue acts on its own as on a sequence and leaves the others as they were |
| ThreadQueue.TakeFrom | a9/uthread.c:132-142 | So does a dequeue, in spite of the stale link |
| ThreadQueue.Fifo | a9/uthread.c:84-94 | For every sequence of legal calls on several queues, what was on a queue and is put on it comes off in that order or is still there |
| ThreadQueue.StayDistinct | a9/uthread.c:110-142 | Queues that share no thread never come to share one |
| UthreadInvariant.StopOk | a9/uthread.c:437-441 | A stopping thread finds a ready one that can be switched to, in every one of the states it can stop with, and what follows keeps the invariant |
| UthreadInvariant.ReapOk | a9/uthread.c:411-422 | A dead thread is freed if it is detached, and otherwise left dead with its joiner ready |
| UthreadCalls.ContinueOk | a9/uthread.c:596-606 | Whichever thread is resumed goes on to client code with the invariant intact, through joins and the loop of enter |
| UthreadCalls.PerformOk | a9/uthread.c:474-539 | Every legal call keeps the invariant |
| UthreadRuns.RunValid | a9/uthread.c:219-254 | The invariant holds after every sequence of legal calls |
| UthreadRuns.NoFault | a9/uthread.c:340-347 | No assertion fails, the hand-off spin ends at its first test, no lock is waited for in vain, no freed control block is accessed, and no thread is enqueued while it is on a queue |
| UthreadRuns.StatesMatchQueues | a9/uthread.c:503-506 | Between calls the current thread and no other is running, the ready queue holds exactly the nascent and runable threads, each once, and a dying thread has been freed |
| UthreadRuns.BlockedOnOne | a9/uthread.c:508-524 | A thread is blocked if and only if it is in a waiter queue or the joiner of a thread that has not died, and then in one such place |
| UthreadRuns.QueuesApart | a9/uthread.c:84-94 | A thread is on one queue at most and there once |
| UthreadRuns.Lifecycle | a9/uthread.c:411-431 | The start procedure is called exactly once, a thread is freed at most once, after its result is known and its handle was joined or detached, and when both have happened it is freed or waits for its joiner to run |
| UthreadRuns.FirstClaimIsLegal | a9/uthread.c:508-539 | A handle that was neither joined nor detached still can be, whether its thread is alive or dead |
| UthreadRuns.FreedIsForgotten | a9/uthread.c:459-463 | A freed thread is not current, on no queue, holds no monitor and is nobody's joiner |
| UthreadRuns.JoinsReturnResults | a9/uthread.c:508-524 | Every join that has returned gave the result of its target's start procedure, freed the target, and no target is joined twice |
| UthreadRuns.SecondJoinReturnsZero | a9/uthread.c:508-524 | A join of a handle that was joined or detached returns 0 and changes nothing else |
| UthreadRuns.JoinerIsWoken | a9/uthread.c:416-418 | The joiner of a thread that has died is on the ready queue to take its result |
| UthreadRuns.DeadStaysDead | a9/uthread.c:411-422 | A thread whose start procedure has returned never runs or queues again and its result never changes |
| UthreadRuns.BoundedWaiting | a9/uthread.c:474-478 | The thread at index k of the ready queue is what the (k+1)-th later stop selects, whatever is created, woken or blocked in between |
| UthreadJoins.JoinCompletes | a9/uthread.c:508-524 | Once the target of a join has died and the joiner's place in the ready queue has come up, the join has returned the target's result and the target has been freed |
| UthreadLaws.JoinGivesResult | a9/uthread.c:508-524 | The first join of a thread gives its caller, when it runs again and until its next join, the value that the joined thread's start procedure has returned, and that thread has been freed |
| UthreadLaws.RecordedJoinHandsOver | a9/uthread.c:508-524 | From the call that completes a join until its next join the joiner has the recorded value |
| UthreadLaws.CompletedJoinHandsOver | a9/uthread.c:508-524 | When the joiner of a dead thread has been picked, it has that thread's result |
| UthreadLaws.ResultExactly | a9/uthread.c:424-431 | A thread's result is v if and only if its start procedure has returned v |
| UthreadLaws.ClaimedExactly | a9/uthread.c:508-539 | A handle is claimed if and only if it has been joined or detached |
| UthreadLaws.FreedExactly | a9/uthread.c:411-422 | A thread has been freed if and only if its start procedure has returned, its handle has been joined or detached, and no joiner has yet to fetch the result |
| UthreadLaws.DetachFrees | a9/uthread.c:529-539 | A handle that is detached, alive or dead, is claimed, and its thread has been freed whenever its start procedure has returned |
| UthreadLaws.SecondDetachDoesNothing | a9/uthread.c:529-539 | The detach of a handle that was joined or detached changes nothing |
| UthreadLaws.CreateMakesReady | a9/uthread.c:474-478 | The new thread is nascent, unclaimed and last on the ready queue; nothing else has changed |
| UthreadLaws.MakeMonitorMakesFree | a9/uthread.c:561-573 | The new monitor is free and has no waiters; nothing else has changed |
| UthreadLaws.EnterTakesFree | a9/uthread.c:588-607 | An enter of a free monitor returns at once, with the caller as holder and nothing else changed |
| UthreadLaws.EnterWaits | a9/uthread.c:588-607 | An enter of a monitor that is held puts the caller last on its waiter queue, and another thread is picked |
| UthreadLaws.InsideExactly | a9/uthread.c:588-635 | A thread is inside a monitor, or in enter, if and only if it has called enter on it and not exit since |
| UthreadLaws.EnterReturnsInside | a9/uthread.c:588-607 | The current thread is the holder of exactly the monitors that it has entered and not exited |
| UthreadLaws.ExitReleases | a9/uthread.c:623-635 | An exit makes the monitor free, and moves its first waiter to the end of the ready queue, runable; other monitors and queues stay |
| UthreadLaws.OnlyExitReleases | a9/uthread.c:588-635 | No other call takes a monitor from its holder or a waiter from a queue, and waiters are added at the end |
| UthreadLaws.WaitersFifo | a9/uthread.c:623-635 | The exits of a monitor wake its waiters first in, first out |
| UthreadLaws.PickedRuns | a9/uthread.c:437-441 | The current thread is the one that was picked last |
| UthreadLaws.StopsExactly | a9/uthread.c:437-441 | A call gives the processor up if and only if it is a yield, a return, the first join of a thread that has not died, or an enter of a monitor that is held |
| UthreadLaws.YieldIsFair | a9/uthread.c:503-506 | A thread that yields runs again only after all that were ready have been picked in order |
| Uthread.Uthreads.Initialize | a9/uthread.c:219-254 | `uthread_init (1)` builds the base thread, running, and the idle thread, ready |
| Uthread.Uthreads.Start | a9/uthread.c:447-453 | On the objects: the thread is marked runable unless it is running, and queued |
| Uthread.Uthreads.Reap | a9/uthread.c:411-422 | The objects after a death are those of the specification |
| Uthread.Uthreads.Switch | a9/uthread.c:340-431 | The objects after a switch are those of the specification, and the spin has nothing to wait for |
| Uthread.Uthreads.Stop | a9/uthread.c:437-441 | The first ready thread is switched to |
| Uthread.Uthreads.Continue | a9/uthread.c:596-606 | The loop of enter, run by whichever threads get the processor, ends in client code as specified |
| Uthread.Uthreads.Create | a9/uthread.c:474-478 | A new thread, different from all others, is made nascent and ready |
| Uthread.Uthreads.Yield | a9/uthread.c:503-506 | The objects after a yield, and the invariant |
| Uthread.Uthreads.Join | a9/uthread.c:508-524 | All three branches of a join on the objects, and the invariant |
| Uthread.Uthreads.Detach | a9/uthread.c:529-539 | All three branches of a detach on the objects, and the invariant |
| Uthread.Uthreads.Enter | a9/uthread.c:588-607 | The objects after enter, and the invariant |
| Uthread.Uthreads.Exit | a9/uthread.c:623-635 | The holder is cleared, the first waiter is started, and the invariant holds |
| Uthread.Uthreads.Return | a9/uthread.c:424-431 | The result is stored, the thread dies, and the next one runs with the invariant intact |
| Sm213.WrapIsCongruent | CPU.java:165-204 | The arithmetic of the machine: the one word that is congruent modulo 2^32 |
| Sm213.BitAndBits | CPU.java:168-173 | The and instruction works bit by bit |
| Sm213.BytesRoundTrip | MainMemory.java:47-66 | A word turned into bytes and back is the same word |
| Sm213.BytesRoundTripBack | MainMemory.java:73-86 | Four bytes turned into a word and back are the same bytes |
| Sm213.ReadBack | MainMemory.java:116-126 | A word that was written is read back |
| Sm213.ReadApart | MainMemory.java:95-107 | A word apart from one that was written keeps its value |
| Sm213Cpu.MainMemory.Get | MainMemory.java:95-107 | Exactly the addresses in memory are readable, and their bytes come back in order; otherwise the address is invalid, or, where address + length overflows, the access ends in an array-index error |
| Sm213Cpu.MainMemory.Set | MainMemory.java:116-126 | Exactly the addresses in memory are writable; the bytes go there and no other changes. An invalid address changes nothing; where address + length overflows, what is before the end of memory is written before the array-index error |
| Sm213Cpu.Cpu.Fetch | CPU.java:49-82 | The fetch on the fields of the processor is the fetch of the machine, and fails with the error of the first read that does |
| Sm213Cpu.Cpu.Execute | CPU.java:98-310 | Every instruction on the fields, registers and memory does what the machine's step says, and an exception changes nothing |
| Sm213Cpu.Cpu.Cycle | CPU.java:49-310 | One fetch and execute is one step of the machine, whatever the last instruction left in the extension register |
| Sm213Run.HaltsOnce | CPU.java:98-310 | A program that halts has one result |
| Sm213Run.Subtract | CPU.java:165-211 | Complement, increment and add, fetched from their bytes, subtract modulo 2^32 |
| Sm213Run.And | CPU.java:168-173 | `and`, fetched from its bytes, leaves the register with the bits that are set in both |
| Sm213Run.Decrement | CPU.java:191-196 | `dec` subtracts 1 modulo 2^32 |
| Sm213Run.DecrementAddress | CPU.java:199-204 | `deca` subtracts 4 modulo 2^32 |
| Sm213Run.JumpOffset | CPU.java:270-274 | `j o(r)` goes to the signed offset from the register |
| Sm213Run.JumpIndirect | CPU.java:277-282 | `j *o(r)` goes to the address in the word at the signed offset from the register |
| Sm213Run.Nop | CPU.java:292-302 | `nop` changes nothing but the program counter |
| Sm213Laws.ShiftLeft | CPU.java:225-237 | The bits of the register are those of its own number, moved up by the distance modulo 32 |
| Sm213Laws.ShiftRight | CPU.java:225-237 | The bits of the register are those of its own number, moved down by the negative distance modulo 32 |
| Sm213Laws.FailsExactly | CPU.java:97-310 | Exactly which instructions throw, and what: an opcode that is none, a register that is none, a misaligned or missing word, in that order; and exactly which one halts |
| Sm213Laws.BigEndian | MainMemory.java:47-66 | Unsigned words are ordered as their bytes in memory are |
| DynamicCall.FooDispatches | a6/SA-dynamic-call.s:27-36 | For any object foo runs the method in its first word and then the one in its second, and returns with the stack pointer restored |
| DynamicCall.BarDispatches | a6/SA-dynamic-call.s:7-25 | For any two objects bar runs the two methods of each in order and returns, with nothing changed but three stack words |
| DynamicCall.ProgramDispatches | a6/SA-dynamic-call.s:1-66 | The program runs A_ping, A_pong, B_ping and A_pong and halts with the stack pointer restored |
| MaxLoop.StoresBest | a5/A5-a.s:3-25 | For every length, address and content of the array the program halts, with the fold of its comparison stored and nothing else changed |
| MaxLoop.StoresMaximum | a5/A5-a.s:3-25 | Unless an element differs from the maximum before it by more than a word can hold, wherever the program halts, the maximum of -1 and the elements is at 0x1008 and no other byte has changed |
| MaxLoop.StoresModerateMaximum | a5/A5-a.s:3-25 | In particular for words within 2^30 of zero |
| MaxLoop.ExactlyWhenComparable | a5/A5-a.s:3-25 | For every length up to that of the array the program halts with the maximum of that many elements, if and only if no element differs from the maximum before it by more than a word can hold |
| MaxLoop.LargestIsMissed | a5/A5-a.s:14-19 | With the largest word as the only element the program halts with -1, from which it is 2^31 away |
| CallConvention.FooAdds | a5/A5-b.s:10-17 | foo adds its first argument to the element that the second one says and returns with the stack and return registers unchanged |
| CallConvention.BarReturns | a5/A5-b.s:19-49 | From any stack pointer and any array, bar returns to its caller with the stack pointer restored, element 4 increased by 3 and element 2 by 1, and no other byte changed but its five stack words |
| SwitchCall.RangeTest | a6/A5-c.s:29-38 | The two comparisons let exactly 10 to 18 pass, wherever arg0-10 or arg0-18 wraps around |
| SwitchCall.AssemblyEqualsC | a6/A5-c.s:25-84 | For all words as arguments foo returns to the address in r6 with the result of the C function, and with r5, r6 and memory unchanged |
| SumLoop.SumIsWrapped | a4/S5-loop.s:2-16 | What is summed word by word is the exact sum modulo 2^32 |
| SumLoop.Body | a4/S5a-loop-unrolled.s:5-7 | An iteration and an unrolled block make the same progress from the same state |
| SumLoop.LoopAndUnrolledAgree | a4/S5a-loop-unrolled.s:2-37 | With the same ten elements the looped and the unrolled program both halt, with the same sum at s, which is the exact sum modulo 2^32 |
| SwitchForms.Globals.Foo | a6/SB-switch.c:4-12 | The switch stores the selected value |
| SwitchForms.Globals.Bar | a6/SB-switch.c:14-25 | The chain of ifs stores the same |
| SwitchForms.Globals.Zot | a6/SB-switch.c:27-48 | The computed goto stores the same, its index is always inside the table, and the labels there are in order |
| SwitchForms.RangeTest | a6/SB-switch.s:4-10 | The two comparisons let exactly 20 to 23 pass, wherever i-19 or i-23 wraps around |
| SwitchForms.AssemblyEqualsC | a6/SB-switch.s:2-34 | For every i the program halts having stored in j what the C functions store, and nothing else |
| CompletionRing.SubmitAppends | a7/async.c:63-69 | An entry goes to the end of the queue wherever the ring wraps, unless 999 are outstanding: then the ring looks empty |
| CompletionRing.InterruptTakesFirst | a7/async.c:77-86 | An interrupt takes the oldest entry, or nothing from an empty ring |
| CompletionRing.FifoExactlyWithoutOverflow | a7/async.c:53-86 | Over every sequence of submissions and interrupts, each entry is handled once and in order if and only if none is submitted while 999 are outstanding |
| CompletionRing.BurstIsLost | a7/async.c:63-69 | Submissions that bring the number outstanding to 1000, such as 1000 to an empty ring, leave nothing outstanding and nothing handled |
| AsyncQueue.Completions.DoAsync | a7/async.c:63-69 | The head moves on and the slot there gets the entry; no other slot changes |
| AsyncQueue.Completions.InterruptServiceRoutine | a7/async.c:77-86 | The oldest entry's handler stores its result, unlocks its triple and changes nothing else |
| AsyncMain.InterruptInv | a7/async.c:77-86 | An interrupt at any point of main keeps what main relies on |
| AsyncMain.FinishesRight | a7/async.c:110-154 | Whenever the interrupts come, main can only finish with ((a+b)-(c+d))+e modulo 2^32, for arbitrary operands |
| AsyncMain.NeverStuck | a7/async.c:135-152 | What main spins on is outstanding, so main or the interrupt can always go on |
| AsyncMain.EveryChangeIsProgress | a7/async.c:110-154 | Every act that changes anything brings the end nearer by a natural-number measure |

## Left out

- Death, join and detach on several processors: a test thread that has finished yields forever there. The read of `from_thread->state` at line 411 of `a9/uthread.c` then always finds a thread that is not dying and is no step.
- The kernel machine is a state machine on values, since its steps interleave; the objects are those of the one-processor model.
- Uthread.Uthreads.Stop: the queues of the class are sequences; the links are in ThreadQueue. What `PutOn` asks for is tested at every enqueue of UthreadSpec, and `NoFault` proves that the test never fails.
- Termination of the spin in `uthread_switch` on several processors: two yielding threads can dequeue each other, so only safety holds.
- The inline assembly, `uthread_self` and its stack addresses, pthreads and malloc: a context is a token, the current thread is a field, allocation is always new.
- UthreadRuns.JoinsReturnResults: a second join of a thread that is still there returns 0, as in the source; it is not listed among the joins that have returned and is the subject of `SecondJoinReturnsZero`. What the client code gets is the subject of `JoinGivesResult`.
- `uthread_monitor_enter_read_only`, condition variables, semaphores and `read_rw_mon`, which are empty or only declared, and `uthread_monitor_free`.
- ReaderWriterProof.EndResult: the counters are unbounded integers; their overflow is undefined in C. The joins of do_test are replaced by the state in which every loop has run out.
- `read_ns` and `write_ns`, which race, and `do_some_work`, which computes nothing.
- Memories of more than 2^31 - 16 bytes, where the address after an instruction in memory can overflow; `MainMemory.main`; the display-only instruction register, of which only the reads are modelled.
- Sm213Laws.ShiftLeft: the shift is that of the code, which shifts the number of the register and not what it holds.
- The callers of foo and bar in `a6/A5-c.s` and `a5/A5-b.s` (lines 2-20 and 2-6), which only set up a stack.
- MaxLoop.ExactlyWhenComparable: is about all lengths up to that of the array and an array apart from the word with its length; at one length alone a wrong maximum can have been made good by a later element.
- Interrupts inside `doAsync`, whose head moves before its slot is filled; signals are an interrupt step, and `printString`, which only prints, is not a handler here.
- `a9/bounded_buffer.c` and `a9/uthread.c~`; the small call demos, the buffer copies and the Java threads.
