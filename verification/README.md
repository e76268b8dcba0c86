# Concurrent structures, verified

A Dafny model of the concurrent structures of this repository, and proofs about all their runs.

Each structure is an interleaving of steps of any number of threads: one step for each atomic
load, store, read-modify-write, lock operation, wait, notification or access to shared plain
memory. The state machine is a datatype with a step function; one inductive invariant a structure
is kept by every step and lifted to all runs. Beside each machine stands the source's own form: a
class with the shared fields and arrays and one method for each access. A method requires that it
is the thread's turn and says that it made exactly the machine's step. `Valid()` says that the
object is in the last state of a run, and every method keeps it, so any interleaving of calls is a
run and what is proved of all runs holds of the objects.

Safety is stated over all runs. What an operation is for is pinned from three sides: its first step
begins the call that was made, with its argument; it refines the atomic object; and it comes to its
end, with ranks for a call that runs alone or waits for nobody, the exact outcome of a pop that runs
alone, and, among other threads, the reason for every retry, refusal and node not freed.

| Files | What they model |
|---|---|
| Runs, Memory, LinkedStack, StackSpec, QueueSpec, Bits | runs of a state machine, addresses and nodes, the linked stack, the atomic LIFO stack and bounded FIFO queue, power-of-two masks |
| HazardStack, HazardSafety, HazardTheorems, HazardProgress, HazardReclaim, HazardSlots, HazardAlone, HazardObject, HazardExit | `hazard_ptr::stack`: push, pop, the slots, the scan, the reclaim list, thread exit |
| CounterStack, CounterSafety, CounterTheorems, CounterProgress, CounterReclaim, CounterObject | `low_contention::stack`: push, pop, try_reclaim, chaining, delete_nodes |
| TicketQueue, TicketSafety, TicketTheorems, TicketRuns, TicketProgress, TicketFalse, BoundedQueue | `mpmc_bounded_queue` |
| SpscRing, SpscSafety, SpscTheorems, SpscObject | `SPSC` under release and acquire, with message histories and vector clocks |
| LockedRing, LockedRingTheorems, LockedRingProgress, LockedRingObject | `MPMC`, the ring under a mutex and two condition variables |
| TicketLock, FlagMutex, Peterson, LockObjects | `fairlock::mutex`, `prat::mutex`, Peterson's algorithm and its tweaked variant |
| ThreadPool, ThreadPoolTheorems, ThreadPoolCalls, ThreadPoolObject | `threadpool` |

The heap of the two lock-free stacks is a map from addresses to nodes; `delete` removes an address
and `new` returns any address not in use, so reuse, and with it ABA, is part of the model. A weak
exchange may fail spuriously, a wait may end spuriously, and a notification wakes any one waiter.

Where the code and its comments, or the obvious claim, disagree, the model follows the code:

- The exit destructor of a hazard slot releases the id before it clears the pointer
  (concurrent_structures/stack_lockfree.cpp:192-195), so a new owner can publish in the slot in
  between and have its pointer wiped out. A run loses no published pointer exactly when no clear of a
  slot comes after its new owner has published in it, and is then safe
  (`HazardTheorems.RunKeepsPublishedIff`); from such a clear the code can come to read freed memory
  (`HazardExit.DisorderIsUnsafe`, `HazardExit.ExitOrderIsUnsafe`).
- A false `dequeue` is commented as an empty queue and a false `enqueue` as a full one
  (concurrent_structures/mpmc_lockfree.cpp:77 and 111). It means that the oldest ticket is not
  published, or that the ticket one turn earlier is not released (`TicketTheorems.DequeueFalse`,
  `TicketTheorems.EnqueueFalse`), and the queue need not be empty, or full (`TicketFalse.FalseIsNotEmpty`,
  `TicketFalse.FalseIsNotFull`).
- `try_consume` frees a slot and notifies nobody (concurrent_structures/mpmc_lock.cpp:86-94), so a
  producer can sleep on beside a free slot (`LockedRingTheorems.TryConsumeLosesAWakeup`); a run loses no
  such wakeup exactly when no read of it is harmful (`LockedRingTheorems.RunKeepsPuttersIff`).
- The comment on the tweaked Peterson algorithm says that correctness is preserved
  (peterson.cpp:17-20). It is not (`TweakedPeterson.BothEnter`, `TweakedPeterson.ExclusiveIff`).
- A pool constructed with no workers accepts jobs and never runs them (`ThreadPoolTheorems.NoWorkersNoDrain`).

## Model

| member | source | states |
|---|---|---|
| `HazardTheorems.KeepStep` | concurrent_structures/stack_lockfree.cpp:163-314 | Every step of push, pop, the slot scan, the reclaim loop and thread exit keeps the invariant: the linked nodes are the chain from `head`, the reclaim list is the chain from `nodes_to_reclaim`, every node has one holder, and a scan in progress has not yet passed the slot of any thread that has validated the scanned node. The one step shut out clears a slot in which its new owner has already published. |
| `HazardTheorems.RunSafe` | concurrent_structures/stack_lockfree.cpp:271-314 | In every run, with any number of threads and slots and with addresses reused after `delete`, no thread is about to read, write or delete a freed node or list entry, and no step frees a node that a thread has validated. |
| `HazardTheorems.NeverStuck` | concurrent_structures/stack_lockfree.cpp:163-314 | Whatever its place in the code, a thread can take its next step: no access faults. |
| `HazardTheorems.ValidatedNeverFreed` | concurrent_structures/stack_lockfree.cpp:200-207 | A step that frees a node frees none that some thread has published, seen again at the head and not moved on from, although the scan visits the slots one at a time. |
| `HazardTheorems.FreedAfterScan` | concurrent_structures/stack_lockfree.cpp:247-309 | Only the end of a complete scan frees a node, and it is the node that was scanned for. |
| `HazardSafety.ScannedNotValid` | concurrent_structures/stack_lockfree.cpp:200-207 | A scan that has passed every slot leaves no thread that has validated its node. |
| `HazardTheorems.StepRefines` | concurrent_structures/stack_lockfree.cpp:271-314 | Every step is one step of the atomic LIFO stack or none: the first step of an operation begins the very call that was made, a winning exchange is the push or the pop, an empty pop takes effect at a load that saw null. |
| `HazardTheorems.RunLinearizable` | concurrent_structures/stack_lockfree.cpp:271-314 | Every run is a history of the atomic stack, in which each operation takes effect once between its call and its return, and the stack is at all times what is linked from `head`. |
| `HazardProgress.LostExchange` | concurrent_structures/stack_lockfree.cpp:274-289 | Lock-freedom of push and pop: in every run, an exchange on `head` that does not take effect was overtaken by another thread's push or pop, which took effect after this thread loaded what it expects. |
| `HazardProgress.LostListExchange` | concurrent_structures/stack_lockfree.cpp:233-236 | The same for `nodes_to_reclaim`: unless the weak exchange failed spuriously, another thread put an entry on the list or took it since this thread loaded it. |
| `HazardReclaim.KeptForAHazard` | concurrent_structures/stack_lockfree.cpp:200-207 | In every run, a popped node gets an entry, and an entry goes back on the list, only because its thread, in this scan, looked at a slot that held the node at that moment. |
| `HazardTheorems.ScanDecides` | concurrent_structures/stack_lockfree.cpp:200-207 | A slot that holds the node ends the scan and keeps the node; any other slot is passed. |
| `HazardAlone.ScanFrees` | concurrent_structures/stack_lockfree.cpp:252-257 | If no slot from position k on holds the node, the next steps of the scanning thread pass them all and delete the node, and its entry if it has one. |
| `HazardAlone.PopAlone` | concurrent_structures/stack_lockfree.cpp:278-314 | A pop that runs alone returns the top value, leaves its slot clear, and frees its node and the nodes on the reclaim list, except exactly those that another thread's slot holds. |
| `HazardAlone.QuietPopFreesAll` | concurrent_structures/stack_lockfree.cpp:278-314 | When nobody else is looking for a node to pop, a pop that runs alone frees its node and every node on the reclaim list. |
| `HazardAlone.PopForetold` | concurrent_structures/stack_lockfree.cpp:278-314 | From wherever it is, a pop left to itself ends with the nodes, pointers, values and result foretold from the state in which the others stopped. |
| `HazardReclaim.AloneReturns` | concurrent_structures/stack_lockfree.cpp:271-314 | Wherever the others have stopped, an operation or exit that runs alone, without spurious failures, is over within as many steps as its rank. |
| `HazardSlots.RunKeepsSlots` | concurrent_structures/stack_lockfree.cpp:279-291 | In every run, a slot holds a pointer only while its owner is between the store of its hazard pointer and the store that clears it. |
| `HazardSlots.RefusedFoundAllTaken` | concurrent_structures/stack_lockfree.cpp:177-190 | In every run, a pop that fails for want of a slot has found every slot taken, each at some moment of its search. |
| `HazardTheorems.AbstractIsLinked` | concurrent_structures/stack_lockfree.cpp:263-268 | The abstract stack is the data of the nodes linked from `head`. |
| `HazardTheorems.UnlinkRefines` | concurrent_structures/stack_lockfree.cpp:288-289 | The exchange of a pop that wins removes and returns the top value. |
| `HazardTheorems.CheckRefines` | concurrent_structures/stack_lockfree.cpp:285-287 | A pop that sees a null head twice takes effect there, on an empty stack. |
| `HazardTheorems.NoAba` | concurrent_structures/stack_lockfree.cpp:288-289 | When the exchange of a pop finds the head it read, the successor it read is still the head's and is the top of the rest: no ABA. |
| `HazardTheorems.Conservation` | concurrent_structures/stack_lockfree.cpp:233-260 | An allocated node is in exactly one place (its pusher's hand, the stack, its popper's hand, the shared list, one claimer's list, one claimer's current entry); a freed node is in none. |
| `HazardTheorems.ReclaimTerminates` | concurrent_structures/stack_lockfree.cpp:247-260 | Each step of the reclaim loop lowers its rank or leaves the loop, except a failed attempt to put a survivor back. |
| `HazardTheorems.OrderlyIffPublished` | concurrent_structures/stack_lockfree.cpp:192-195 | A step takes a published pointer out of a slot behind its owner's back exactly when it clears a slot in which the new owner has published; every other step keeps the invariant. |
| `HazardTheorems.RunKeepsPublishedIff` | concurrent_structures/stack_lockfree.cpp:192-195 | A run of the code, with any order of exits and hand-outs, keeps every published pointer in its slot exactly when no step of it clears a slot in which its new owner has published; and then it is safe throughout. |
| `HazardExit.DisorderIsUnsafe` | concurrent_structures/stack_lockfree.cpp:192-195 | From every state of the invariant in which a thread is about to clear a slot in which the new owner has published, and some third thread with a slot is idle, the code can go on to a state in which a thread is about to read a freed node. |
| `HazardExit.ExitOrderIsUnsafe` | concurrent_structures/stack_lockfree.cpp:192-195 | The code can go from the initial state to one in which a thread is about to read a freed node, by the order of the two stores at thread exit. |
| `HazardObject.Stack.InOrder` | concurrent_structures/stack_lockfree.cpp:163-314 | In whatever state calls have left the object, no freed memory is about to be touched, and the values are linked from `head`. |
| `HazardObject.Stack.Enter` | concurrent_structures/stack_lockfree.cpp:271-278 | The operation that begins is the one called, with its argument. |
| `HazardObject.Stack.CasSlotId` | concurrent_structures/stack_lockfree.cpp:177-190 | Takes slot k exactly when its id is free, whether or not its former owner has cleared the pointer, and otherwise goes on to the next. |
| `HazardObject.Stack.NewNode` | concurrent_structures/stack_lockfree.cpp:272-272 | Allocation at any address that is not in use. |
| `HazardObject.Stack.LinkNode` | concurrent_structures/stack_lockfree.cpp:273-273 | The load of the head into the new node's `next`. |
| `HazardObject.Stack.CasHeadPush` | concurrent_structures/stack_lockfree.cpp:274-275 | A win is the atomic push; a loss reloads the head and changes nothing else. |
| `HazardObject.Stack.LoadHead` | concurrent_structures/stack_lockfree.cpp:279-279 | The first load of the head. |
| `HazardObject.Stack.StoreHazard` | concurrent_structures/stack_lockfree.cpp:284-284 | The slot of the thread holds the head it loaded. |
| `HazardObject.Stack.ReloadHead` | concurrent_structures/stack_lockfree.cpp:285-287 | The head seen twice, and not null, is what makes the node validated. |
| `HazardObject.Stack.ReadNext` | concurrent_structures/stack_lockfree.cpp:288-289 | The successor is read from a node that is not freed. |
| `HazardObject.Stack.CasHeadPop` | concurrent_structures/stack_lockfree.cpp:288-289 | A win is the atomic pop, and the successor stored is the head's own. |
| `HazardObject.Stack.ClearHazard` | concurrent_structures/stack_lockfree.cpp:291-291 | The slot is cleared before the node is looked at as retired. |
| `HazardObject.Stack.SwapData` | concurrent_structures/stack_lockfree.cpp:297-299 | The result is the value that the pop took when it took effect. |
| `HazardObject.Stack.LoadHazard` | concurrent_structures/stack_lockfree.cpp:200-207 | One turn of the scan: a slot that holds the node ends it and keeps the node, any other is passed. |
| `HazardObject.Stack.DeleteHand` | concurrent_structures/stack_lockfree.cpp:304-309 | The popped node is deleted when no thread has it validated. |
| `HazardObject.Stack.NewBox` | concurrent_structures/stack_lockfree.cpp:239-245 | A retired node gets an entry of the reclaim list. |
| `HazardObject.Stack.LinkBox` | concurrent_structures/stack_lockfree.cpp:233-234 | The load of the list head into the entry's `next`. |
| `HazardObject.Stack.CasReclaim` | concurrent_structures/stack_lockfree.cpp:235-236 | A win publishes the entry; the weak exchange may fail spuriously. |
| `HazardObject.Stack.ExchangeReclaim` | concurrent_structures/stack_lockfree.cpp:248-249 | The whole shared list becomes the thread's own. |
| `HazardObject.Stack.ReadBox` | concurrent_structures/stack_lockfree.cpp:250-252 | The next entry and the node to scan for are read from a live entry. |
| `HazardObject.Stack.DeleteBox` | concurrent_structures/stack_lockfree.cpp:252-254 | An entry and its node are deleted when no thread has the node validated. |
| `HazardObject.Stack.DropId` | concurrent_structures/stack_lockfree.cpp:193-193 | The id of the slot is released. |
| `HazardObject.Stack.DropPointer` | concurrent_structures/stack_lockfree.cpp:194-194 | The pointer of the slot is cleared, after the id; the new owner, if there is one, has not published in it. |
| `CounterTheorems.KeepStep` | concurrent_structures/stack_lockfree.cpp:93-157 | Every step of push, pop, try_reclaim and the list walks keeps the invariant, which includes that the counter counts the threads inside and that nobody reads what a thread that found itself alone is about to delete. |
| `CounterTheorems.RunSafe` | concurrent_structures/stack_lockfree.cpp:93-157 | In every run, no thread is about to read, write or delete a freed node, and no step frees a node that a thread inside `pop` may still read. |
| `CounterTheorems.NeverStuck` | concurrent_structures/stack_lockfree.cpp:93-157 | A thread can always take its next step; in particular the counter is not zero when a thread leaves. |
| `CounterTheorems.HeldNeverFreed` | concurrent_structures/stack_lockfree.cpp:116-135 | A step that frees a node, from the claimed list or as `old_head`, frees none that a thread inside `pop` may still read, whoever enters and leaves between the test, the exchange and the decrement. |
| `CounterSafety.Alone` | concurrent_structures/stack_lockfree.cpp:121-121 | A thread that reads a count of one is the only one that may be reading a node. |
| `CounterTheorems.StepRefines` | concurrent_structures/stack_lockfree.cpp:138-157 | Every step is one step of the atomic LIFO stack or none, although chaining rewrites `next` of retired nodes; the first step of an operation begins the very call that was made. |
| `CounterTheorems.CallRefines` | concurrent_structures/stack_lockfree.cpp:138-146 | A push begins as a push of the value it was called with, and a pop as a pop. |
| `CounterTheorems.RunLinearizable` | concurrent_structures/stack_lockfree.cpp:138-157 | Every run is a history of the atomic stack, which is at all times what is linked from `head`. |
| `CounterProgress.LostExchange` | concurrent_structures/stack_lockfree.cpp:141-149 | Lock-freedom of push and pop: in every run, an exchange on `head` that does not take effect, other than by a spurious failure, was overtaken by another thread's push or pop since this thread loaded what it expects. |
| `CounterProgress.LostListExchange` | concurrent_structures/stack_lockfree.cpp:102-104 | The same for `to_be_deleted`: another thread put its list in front or claimed it since this thread loaded it into the last node. |
| `CounterReclaim.FoundAloneFrees` | concurrent_structures/stack_lockfree.cpp:121-130 | In every run, a pop that found itself alone frees its node before it goes on to anything else, whoever comes in the meantime. |
| `CounterReclaim.FoundOthersPends` | concurrent_structures/stack_lockfree.cpp:116-118 | In every run, a pop that did not find itself alone puts its node on the pending list before it goes on to anything else. |
| `CounterReclaim.TestDecides` | concurrent_structures/stack_lockfree.cpp:116-121 | The count read decides which of the two it is. |
| `CounterReclaim.PopAlone` | concurrent_structures/stack_lockfree.cpp:145-157 | A pop that runs alone returns the top value; with nobody else inside it frees its node and every pending node, and with others inside it frees nothing and leaves its node in front of the pending list. |
| `CounterReclaim.PopForetold` | concurrent_structures/stack_lockfree.cpp:116-157 | From wherever it is, a pop left to itself ends with the nodes, the pending list, the values and the result foretold from the state in which the others stopped. |
| `CounterReclaim.AloneReturns` | concurrent_structures/stack_lockfree.cpp:138-157 | Wherever the others have stopped, an operation that runs alone, without spurious failures, is over within as many steps as its rank. |
| `CounterReclaim.RunNeverRefuses` | concurrent_structures/stack_lockfree.cpp:145-157 | In every run, a pop ends with a value or with an empty stack, never otherwise. |
| `CounterTheorems.AbstractIsLinked` | concurrent_structures/stack_lockfree.cpp:83-89 | The abstract stack is the data of the nodes linked from `head`. |
| `CounterTheorems.UnlinkRefines` | concurrent_structures/stack_lockfree.cpp:148-149 | The exchange of a pop that wins removes and returns the top value. |
| `CounterTheorems.LookRefines` | concurrent_structures/stack_lockfree.cpp:147-149 | A popper that sees a null head takes effect there, on an empty stack. |
| `CounterTheorems.NoAba` | concurrent_structures/stack_lockfree.cpp:147-150 | A pop's exchange that finds the head it read replaces it by its true successor. |
| `CounterTheorems.RewrittenNextFails` | concurrent_structures/stack_lockfree.cpp:101-105 | A popper that read a successor since rewritten looks at a node that is not on the stack, and its exchange fails. |
| `CounterTheorems.Conservation` | concurrent_structures/stack_lockfree.cpp:93-135 | An allocated node is in exactly one place (its pusher's hand, the stack, its popper's hand, the pending list, one claimer's list); a freed node is in none. |
| `CounterTheorems.WalksTerminate` | concurrent_structures/stack_lockfree.cpp:93-113 | Each step of the walk to the tail and of delete_nodes lowers its rank. |
| `CounterTheorems.OthersKeepRank` | concurrent_structures/stack_lockfree.cpp:93-113 | No other thread's step raises that rank. |
| `CounterObject.Stack.InOrder` | concurrent_structures/stack_lockfree.cpp:93-157 | In whatever state calls have left the object, no freed node is about to be touched, and the values are linked from `head`. |
| `CounterObject.Stack.Enter` | concurrent_structures/stack_lockfree.cpp:138-146 | The operation that begins is the one called, with its argument. |
| `CounterObject.Stack.NewNode` | concurrent_structures/stack_lockfree.cpp:139-139 | Allocation at any address that is not in use. |
| `CounterObject.Stack.LinkNode` | concurrent_structures/stack_lockfree.cpp:140-140 | The load of the head into the new node's `next`. |
| `CounterObject.Stack.CasHeadPush` | concurrent_structures/stack_lockfree.cpp:141-142 | A win is the atomic push; the weak exchange may fail spuriously and changes nothing else. |
| `CounterObject.Stack.CountIn` | concurrent_structures/stack_lockfree.cpp:146-146 | The thread is counted from here. |
| `CounterObject.Stack.LoadHead` | concurrent_structures/stack_lockfree.cpp:147-147 | The first load of the head. |
| `CounterObject.Stack.ReadNext` | concurrent_structures/stack_lockfree.cpp:148-149 | The successor is read from a node that is not freed but may be retired. |
| `CounterObject.Stack.CasHeadPop` | concurrent_structures/stack_lockfree.cpp:148-149 | A win is the atomic pop, and the successor stored is the head's own. |
| `CounterObject.Stack.SwapData` | concurrent_structures/stack_lockfree.cpp:152-154 | The result is the value that the pop took when it took effect. |
| `CounterObject.Stack.TestAlone` | concurrent_structures/stack_lockfree.cpp:121-121 | A count of one means that no other thread may be reading a node, and decides that the node will be freed; any other keeps it for later. |
| `CounterObject.Stack.ExchangePending` | concurrent_structures/stack_lockfree.cpp:122-122 | The whole pending list becomes the thread's own. |
| `CounterObject.Stack.CountOut` | concurrent_structures/stack_lockfree.cpp:123-126 | The decrement says whether the thread was the last, and so whether the list is deleted or goes back. |
| `CounterObject.Stack.CountOutLast` | concurrent_structures/stack_lockfree.cpp:118-118 | A thread with nothing to delete is counted out. |
| `CounterObject.Stack.ReadFree` | concurrent_structures/stack_lockfree.cpp:95-95 | The next node is read before the node is deleted. |
| `CounterObject.Stack.DeleteNode` | concurrent_structures/stack_lockfree.cpp:96-96 | A node of the claimed list is deleted when nobody reads it. |
| `CounterObject.Stack.DeleteHand` | concurrent_structures/stack_lockfree.cpp:130-130 | The popped node is deleted when nobody reads it. |
| `CounterObject.Stack.ReadLast` | concurrent_structures/stack_lockfree.cpp:109-111 | One turn of the walk to the tail. |
| `CounterObject.Stack.LoadPending` | concurrent_structures/stack_lockfree.cpp:102-102 | The load of the pending list. |
| `CounterObject.Stack.LinkLast` | concurrent_structures/stack_lockfree.cpp:102-103 | The `next` of the last retired node is overwritten. |
| `CounterObject.Stack.CasPending` | concurrent_structures/stack_lockfree.cpp:103-104 | A win puts the whole list in front of the pending one. |
| `TicketTheorems.KeepStep` | concurrent_structures/mpmc_lockfree.cpp:55-125 | Every step of enqueue and dequeue keeps the invariant: each cell serves one ticket, its sequence number says which half of the service it is in, and a ticket in hand is the one its cell serves. |
| `TicketSafety.EnqSeenIsCurrent` | concurrent_structures/mpmc_lockfree.cpp:68-75 | The sequence number seen equal to `pos` is still the cell's when the exchange wins: the cell is empty and in nobody's hands. Needs two cells. |
| `TicketSafety.DeqSeenIsCurrent` | concurrent_structures/mpmc_lockfree.cpp:105-109 | The same for a consumer: the cell is full with the value of the ticket. |
| `TicketFalse.OneCellOverwrites` | concurrent_structures/mpmc_lockfree.cpp:44-44 | Why the constructor asks for two cells: from a start with one cell, two enqueues in a row both return true, and the first value is overwritten. |
| `TicketTheorems.StepRefines` | concurrent_structures/mpmc_lockfree.cpp:55-125 | Every step is one step of the atomic bounded FIFO or none; the first step of an operation begins the very call that was made, and the winning exchanges are the put and the take. |
| `TicketRuns.RunLinearizable` | concurrent_structures/mpmc_lockfree.cpp:55-125 | Every run is a history of the atomic queue of the given capacity; a declined call finds it full or empty, or finds a call of the other kind that has taken effect and not returned; the published values are at all times in their cells. |
| `TicketTheorems.ClaimEnqRefines` | concurrent_structures/mpmc_lockfree.cpp:71-73 | The winning exchange of an enqueue appends its value to a queue that has room. |
| `TicketTheorems.ClaimDeqRefines` | concurrent_structures/mpmc_lockfree.cpp:107-109 | The winning exchange of a dequeue removes and returns the oldest value. |
| `TicketTheorems.QueueIsInCells` | concurrent_structures/mpmc_lockfree.cpp:83-87 | The cell of every ticket in the queue serves it, and holds its value once it is published. |
| `TicketTheorems.EnqueueFalse` | concurrent_structures/mpmc_lockfree.cpp:66-77 | `enqueue` returns false exactly when, at its load of the sequence number, `enqueue_pos_` is its position and the ticket one turn earlier has not been fully dequeued. |
| `TicketFalse.FalseIsNotFull` | concurrent_structures/mpmc_lockfree.cpp:76-77 | A run from the constructor in which `enqueue` returns false on a queue of one value in two cells: the older ticket is taken and its cell not yet released. |
| `TicketTheorems.DequeueFalse` | concurrent_structures/mpmc_lockfree.cpp:103-111 | `dequeue` returns false exactly when, at its load of the sequence number, `dequeue_pos_` is its position and that ticket is not published. |
| `TicketFalse.FalseIsNotEmpty` | concurrent_structures/mpmc_lockfree.cpp:110-111 | A run from the constructor in which `dequeue` returns false on a queue of two values, the second of them published by an enqueue that has returned. |
| `TicketRuns.RunOccupancy` | concurrent_structures/mpmc_lockfree.cpp:47-50 | In every run dequeue_pos_ <= enqueue_pos_ <= dequeue_pos_ + capacity. |
| `TicketRuns.OneOwner` | concurrent_structures/mpmc_lockfree.cpp:83-87 | No two threads are between their winning exchange and their sequence store on one cell. |
| `TicketRuns.CellCycle` | concurrent_structures/mpmc_lockfree.cpp:87-121 | The sequence number of a cell that serves ticket p goes from p to p + 1 to p + capacity, by the producer and the consumer of p, and never otherwise. |
| `TicketRuns.RunGrows` | concurrent_structures/mpmc_lockfree.cpp:55-125 | Counters, ticket values and sequence numbers only grow. |
| `TicketRuns.OneProducer` | concurrent_structures/mpmc_lockfree.cpp:71-73 | A ticket is won by one producer, once. |
| `TicketRuns.ProducerExists` | concurrent_structures/mpmc_lockfree.cpp:71-73 | Every ticket claimed was won by a producer, for the value on record. |
| `TicketRuns.OneConsumer` | concurrent_structures/mpmc_lockfree.cpp:107-109 | A ticket is won by at most one consumer, once. |
| `TicketRuns.GotIsWhatWasPut` | concurrent_structures/mpmc_lockfree.cpp:117-124 | A dequeue of ticket p returns the value that the producer of p put, and the caller itself won p afterwards. |
| `TicketRuns.PutsInRealTime` | concurrent_structures/mpmc_lockfree.cpp:55-90 | An enqueue complete before another began has the smaller ticket. |
| `TicketRuns.TakesInRealTime` | concurrent_structures/mpmc_lockfree.cpp:92-125 | A dequeue complete before another began has the smaller ticket. |
| `TicketRuns.RetryRaises` | concurrent_structures/mpmc_lockfree.cpp:71-80 | A retry is counted and raises the position unless the exchange failed spuriously, and the position never falls. |
| `TicketRuns.PutRetriesArePaid` | concurrent_structures/mpmc_lockfree.cpp:57-81 | The counted retries of an enqueue are at most the tickets other threads won since it began. |
| `TicketRuns.TakeRetriesArePaid` | concurrent_structures/mpmc_lockfree.cpp:94-114 | The counted retries of a dequeue are at most the tickets other threads took since it began. |
| `TicketProgress.AloneReturns` | concurrent_structures/mpmc_lockfree.cpp:55-125 | Whatever the others have left undone, a call that runs alone, without spurious failures, is over within eight steps. |
| `TicketProgress.FalseWhenQuiet` | concurrent_structures/mpmc_lockfree.cpp:66-111 | While no value is on its way out a false enqueue means exactly a full queue, and while none is on its way in a false dequeue means exactly an empty one. |
| `Bits.CheckIsPowerOfTwo` | concurrent_structures/mpmc_lockfree.cpp:44-44 | The constructor's check accepts exactly the powers of two. |
| `Bits.MaskIsModulo` | concurrent_structures/mpmc_lockfree.cpp:59-59 | The mask takes the position modulo the capacity. |
| `BoundedQueue.Queue.constructor` | concurrent_structures/mpmc_lockfree.cpp:41-51 | The cells are numbered by a loop, and the invariant holds. |
| `BoundedQueue.Queue.LoadEnqueuePos` | concurrent_structures/mpmc_lockfree.cpp:57-57 | A load, or reload, of `enqueue_pos_`; a reload has moved on. |
| `BoundedQueue.Queue.LoadDequeuePos` | concurrent_structures/mpmc_lockfree.cpp:94-94 | A load, or reload, of `dequeue_pos_`; a reload has moved on. |
| `BoundedQueue.Queue.LoadSequenceToPut` | concurrent_structures/mpmc_lockfree.cpp:59-80 | The three outcomes of `dif`, and the exact meaning of the negative one. |
| `BoundedQueue.Queue.LoadSequenceToTake` | concurrent_structures/mpmc_lockfree.cpp:96-113 | The three outcomes of `dif`, and the exact meaning of the negative one. |
| `BoundedQueue.Queue.CasEnqueuePos` | concurrent_structures/mpmc_lockfree.cpp:71-73 | A win is the atomic put into a cell still empty; a loss gives a position not smaller. |
| `BoundedQueue.Queue.CasDequeuePos` | concurrent_structures/mpmc_lockfree.cpp:107-109 | A win is the atomic take from a cell still full; a loss gives a position not smaller. |
| `BoundedQueue.Queue.WriteData` | concurrent_structures/mpmc_lockfree.cpp:84-84 | The value is written into the cell in hand. |
| `BoundedQueue.Queue.StoreFull` | concurrent_structures/mpmc_lockfree.cpp:87-87 | The cell is published as full. |
| `BoundedQueue.Queue.ReadData` | concurrent_structures/mpmc_lockfree.cpp:117-117 | The value read is the one on record for the ticket. |
| `BoundedQueue.Queue.StoreEmpty` | concurrent_structures/mpmc_lockfree.cpp:121-122 | The cell is handed to the producer one turn later. |
| `SpscTheorems.KeepPush` | concurrent_structures/spsc_lockfree.cpp:52-67 | Every step of the producer keeps the invariant, whatever coherent message its acquire load returns. |
| `SpscTheorems.KeepPop` | concurrent_structures/spsc_lockfree.cpp:69-85 | Every step of the consumer keeps the invariant, whatever coherent message its acquire load returns. |
| `SpscTheorems.RunIsSafe` | concurrent_structures/spsc_lockfree.cpp:52-85 | In every run, `push` builds only in raw memory and `pop` moves from and destroys only a live element, and the other side's last access to the slot happens before. |
| `SpscTheorems.PushRefines` | concurrent_structures/spsc_lockfree.cpp:60-64 | A push takes effect at its release store: it appends to a queue that has room, and only then returns true. |
| `SpscTheorems.PopRefines` | concurrent_structures/spsc_lockfree.cpp:74-82 | A pop takes effect at its release store: it removes and returns the oldest element. |
| `SpscTheorems.QueueIsInRing` | concurrent_structures/spsc_lockfree.cpp:61-62 | The elements of the queue are live in their slots, but for the one being popped. |
| `SpscTheorems.PushFalse` | concurrent_structures/spsc_lockfree.cpp:59-66 | `push` returns false exactly when the pops it sees leave a full queue; with the newest message, exactly when the queue is full. |
| `SpscTheorems.PopFalse` | concurrent_structures/spsc_lockfree.cpp:73-84 | `pop` returns false exactly when it sees no push beyond what it popped; with the newest message, exactly when the queue is empty. |
| `SpscTheorems.RunRefines` | concurrent_structures/spsc_lockfree.cpp:52-85 | Every run, whatever the loads return, is a run of the bounded FIFO: each step appends to a queue with room, removes the oldest element, or does nothing. |
| `SpscTheorems.RunIsFifo` | concurrent_structures/spsc_lockfree.cpp:52-85 | In every run with its events, the values that the calls of pop have returned, followed by the queue, are the arguments of the calls of push that have come to return true, in order; the queue never holds more than `capacity_`. |
| `SpscTheorems.RunIsLogged` | concurrent_structures/spsc_lockfree.cpp:52-85 | Every run has such events. |
| `SpscTheorems.CarriesArgument` | concurrent_structures/spsc_lockfree.cpp:52-64 | In every run, the value in the code of a push is the argument of the call. |
| `SpscTheorems.PushIsWaitFree` | concurrent_structures/spsc_lockfree.cpp:52-66 | A push can always take its next step, each brings it nearer to its end, at most five away, and the consumer is not touched. |
| `SpscTheorems.PopIsWaitFree` | concurrent_structures/spsc_lockfree.cpp:69-85 | A pop can always take its next step, each brings it nearer to its end, at most six away, and the producer is not touched. |
| `SpscTheorems.RunLifetimes` | concurrent_structures/spsc_lockfree.cpp:87-95 | In a run that ends in the destructor, what was built is what push accepted, pop destroyed what it returned, and the destructor destroys the rest, once each and in order, and leaves raw memory. |
| `SpscObject.Spsc.CallPush` | concurrent_structures/spsc_lockfree.cpp:52-56 | The push that begins is one of the value it is called with. |
| `SpscObject.Spsc.constructor` | concurrent_structures/spsc_lockfree.cpp:47-50 | An empty ring of 1024 raw slots. |
| `SpscObject.Spsc.LoadOwnTail` | concurrent_structures/spsc_lockfree.cpp:56-58 | A relaxed load of the side's own counter sees its last store. |
| `SpscObject.Spsc.LoadHeadAcquire` | concurrent_structures/spsc_lockfree.cpp:59-60 | An acquire load of any coherent message, and the test it decides. |
| `SpscObject.Spsc.ConstructAt` | concurrent_structures/spsc_lockfree.cpp:61-62 | Placement new in raw memory, after the consumer's last access to it. |
| `SpscObject.Spsc.StoreTailRelease` | concurrent_structures/spsc_lockfree.cpp:63-63 | The element is in the queue. |
| `SpscObject.Spsc.LoadOwnHead` | concurrent_structures/spsc_lockfree.cpp:72-72 | A relaxed load of the side's own counter sees its last store. |
| `SpscObject.Spsc.LoadTailAcquire` | concurrent_structures/spsc_lockfree.cpp:73-74 | An acquire load of any coherent message, and the test it decides. |
| `SpscObject.Spsc.MoveElement` | concurrent_structures/spsc_lockfree.cpp:75-78 | The oldest element is moved out, after the producer's construction of it. |
| `SpscObject.Spsc.DestroyElement` | concurrent_structures/spsc_lockfree.cpp:79-80 | What was moved from is destroyed. |
| `SpscObject.Spsc.StoreHeadRelease` | concurrent_structures/spsc_lockfree.cpp:81-81 | The element is out of the queue. |
| `SpscObject.Spsc.Teardown` | concurrent_structures/spsc_lockfree.cpp:87-95 | The loop of the destructor destroys everything left, oldest first. |
| `LockedRingTheorems.KeepStep` | concurrent_structures/mpmc_lock.cpp:54-94 | Every lock operation, wait, notification and protected access keeps the invariant, which says that a consumer sleeps only while every item has a consumer on its way. |
| `LockedRingTheorems.SizeIsExact` | concurrent_structures/mpmc_lock.cpp:96-104 | `size`, `full` and `empty` are exact although the 64-bit counters wrap around. |
| `LockedRingTheorems.StepRefines` | concurrent_structures/mpmc_lock.cpp:54-94 | Every step is one step of the atomic queue of 1024 items or none; the first step of an operation begins the very call that was made, and only a call that does not wait is ever declined. |
| `LockedRingProgress.RunNeverDeclined` | concurrent_structures/mpmc_lock.cpp:62-84 | In every run, a produce ends with its value accepted and a consume with a value, however often the waits end spuriously; neither is ever declined. |
| `LockedRingProgress.ConsumeNotifies` | concurrent_structures/mpmc_lock.cpp:71-84 | In every run, a consume does not return before it has notified the producers, waking one if any sleeps. |
| `LockedRingProgress.ProduceNotifies` | concurrent_structures/mpmc_lock.cpp:54-69 | In every run, a produce or try_produce that is not declined does not return before it has notified the consumers, waking one if any sleeps. |
| `LockedRingProgress.OwnSteps` | concurrent_structures/mpmc_lock.cpp:54-94 | A step of a call goes to sleep, giving the mutex up, exactly when the call waits and finds the queue full, or empty; every other step brings it nearer to its end. |
| `LockedRingProgress.OthersSteps` | concurrent_structures/mpmc_lock.cpp:54-94 | Nobody else's step touches a call, but for the one thread that a notification wakes. |
| `LockedRingProgress.NotStuck` | concurrent_structures/mpmc_lock.cpp:54-94 | Unless everybody is outside or asleep, some thread in a call can take its next step. |
| `LockedRingTheorems.TestRefines` | concurrent_structures/mpmc_lock.cpp:56-57 | A try fails exactly when the queue is full, or empty; otherwise the test changes nothing. |
| `LockedRingTheorems.StoreRefines` | concurrent_structures/mpmc_lock.cpp:66-66 | The store of an item is the atomic put. |
| `LockedRingTheorems.ReadRefines` | concurrent_structures/mpmc_lock.cpp:78-79 | The read of an item is the atomic take of the oldest. |
| `LockedRingTheorems.RunLinearizable` | concurrent_structures/mpmc_lock.cpp:54-104 | Every run is a history of the atomic bounded queue, and the queue is at all times what the buffer holds, however often the counters wrap. |
| `LockedRingTheorems.QueueIsInBuffer` | concurrent_structures/mpmc_lock.cpp:96-103 | The queue is what the buffer holds from the masked `in_` on. |
| `LockedRingTheorems.NoLostWakeup` | concurrent_structures/mpmc_lock.cpp:71-80 | With the mutex free and a consumer asleep, there are no more items than woken consumers. |
| `LockedRingTheorems.RunLosesNoWakeup` | concurrent_structures/mpmc_lock.cpp:71-80 | The same in every state of every run. |
| `LockedRingTheorems.NoLostWakeupOfPutters` | concurrent_structures/mpmc_lock.cpp:62-68 | With the mutex free and a producer asleep, there are no more free slots than woken producers, as long as no wakeup has been lost. |
| `LockedRingTheorems.PuttersKept` | concurrent_structures/mpmc_lock.cpp:54-84 | Every step but the read of try_consume keeps that no producer sleeps beside a slot that nobody is on the way to fill. |
| `LockedRingTheorems.TryConsumeKeepsIff` | concurrent_structures/mpmc_lock.cpp:86-94 | The read of try_consume keeps that exactly when it is not harmful: no producer sleeps, or more producers are woken and waiting for the mutex than there are free slots. |
| `LockedRingTheorems.RunKeepsPuttersIff` | concurrent_structures/mpmc_lock.cpp:62-94 | A run keeps that no producer sleeps beside a slot nobody is on the way to fill, in all its states, exactly when no step of it is a harmful read of try_consume. |
| `LockedRingTheorems.TryConsumeLosesAWakeup` | concurrent_structures/mpmc_lock.cpp:86-94 | A run in which try_consume leaves a producer asleep beside a free slot, with nobody on the way to wake it. |
| `LockedRingTheorems.RunWakesConsumers` | concurrent_structures/mpmc_lock.cpp:71-80 | In every run, when every thread is outside or asleep, a sleeping consumer means an empty queue. |
| `LockedRingTheorems.RunWakesProducers` | concurrent_structures/mpmc_lock.cpp:62-68 | In every run without a harmful read of try_consume, when every thread is outside or asleep, a sleeping producer means a full queue. |
| `LockedRingObject.Mpmc.constructor` | concurrent_structures/mpmc_lock.cpp:115-115 | An empty buffer of 1024 items. |
| `LockedRingObject.Mpmc.Lock` | concurrent_structures/mpmc_lock.cpp:55-55 | The mutex is taken when it is free, at the start of a call or on the way out of a wait, and the test that follows is that of the call made. |
| `LockedRingObject.Mpmc.Release` | concurrent_structures/mpmc_lock.cpp:60-61 | The mutex is released by its owner. |
| `LockedRingObject.Mpmc.TestFull` | concurrent_structures/mpmc_lock.cpp:64-65 | The test is exact; a wait releases the mutex and sleeps, a try gives up. |
| `LockedRingObject.Mpmc.TestEmpty` | concurrent_structures/mpmc_lock.cpp:75-77 | The test is exact; a wait releases the mutex and sleeps, a try gives up. |
| `LockedRingObject.Mpmc.StoreItem` | concurrent_structures/mpmc_lock.cpp:66-66 | The item is appended to a queue that is not full. |
| `LockedRingObject.Mpmc.ReadItem` | concurrent_structures/mpmc_lock.cpp:78-79 | The item read is the oldest. |
| `LockedRingObject.Mpmc.Notify` | concurrent_structures/mpmc_lock.cpp:67-67 | A notification wakes one thread of the wait set, if there is one. |
| `LockedRingObject.Mpmc.WakeSpuriously` | concurrent_structures/mpmc_lock.cpp:64-65 | A wait may end without a notification. |
| `TicketLock.RunIsFair` | concurrent_structures/mutex.cpp:77-84 | In every run of up to 2^32 threads, of any length, threads enter one at a time and in the order of their fetch_add, and the oldest ticket's thread is inside or about to be let in. |
| `TicketLock.MutualExclusion` | concurrent_structures/mutex.cpp:77-80 | At most one thread is inside. |
| `TicketLock.AdmitsOldestIff` | concurrent_structures/mutex.cpp:77-80 | The lock admits only the oldest ticket exactly when no more than 2^32 tickets are out. |
| `TicketLock.OutIsBounded` | concurrent_structures/mutex.cpp:77-80 | A thread has at most one ticket out, so there are no more of them than threads. |
| `TicketLock.OldestEnters` | concurrent_structures/mutex.cpp:79-79 | The next load of `turn` by the oldest ticket's thread lets it in. |
| `TicketLock.OwnSteps` | concurrent_structures/mutex.cpp:77-84 | Only the load of a turn that is not its own holds a thread up, and it enters with its first load of its own. |
| `TicketLock.EveryUnlockCounts` | concurrent_structures/mutex.cpp:82-84 | Each unlock brings every waiter one ticket nearer to its turn, and nothing takes it back. |
| `TicketLockObject.Mutex.FetchTicket` | concurrent_structures/mutex.cpp:78-78 | Draws the next ticket, modulo 2^32. |
| `TicketLockObject.Mutex.LoadTurn` | concurrent_structures/mutex.cpp:79-79 | The comparison of two wrapped words succeeds exactly when every earlier ticket has been served. |
| `TicketLockObject.Mutex.ServeNext` | concurrent_structures/mutex.cpp:82-84 | The holder serves the next ticket, modulo 2^32. |
| `FlagMutex.KeepStep` | concurrent_structures/mutex.cpp:43-55 | Every step keeps that the flag is set exactly while one thread is inside, and that a thread asleep beside a clear flag has a notifier or a contender. |
| `FlagMutex.RunIsLive` | concurrent_structures/mutex.cpp:43-55 | In every run, at most one thread is inside, and threads all idle or asleep are all idle. |
| `FlagMutex.OwnSteps` | concurrent_structures/mutex.cpp:43-55 | A contender is held up exactly by a flag that is set: it enters with its test of a clear flag, and sleeps only when it looks at a set one. |
| `FlagMutex.ContenderEnters` | concurrent_structures/mutex.cpp:43-49 | Left to itself beside a clear flag, a contender comes nearer to the lock with every step. |
| `FlagMutexObject.Mutex.TestAndSet` | concurrent_structures/mutex.cpp:45-45 | The thread that finds the flag clear is inside, alone. |
| `FlagMutexObject.Mutex.WaitWhileSet` | concurrent_structures/mutex.cpp:47-47 | The wait sleeps exactly when the flag is still set. |
| `FlagMutexObject.Mutex.Clear` | concurrent_structures/mutex.cpp:53-53 | The flag is cleared and nobody is inside, before the notification. |
| `ThreadPoolTheorems.KeepStep` | c++_features_experiment/threadpools.cpp:20-63 | Every step of the workers, the submitters and the destructor keeps the invariant. |
| `ThreadPoolCalls.RunAcceptsWhatWasSubmitted` | c++_features_experiment/threadpools.cpp:20-29 | In every run with its events, the jobs accepted are those submitted in the calls not refused, in the order in which they entered the queue. |
| `ThreadPoolCalls.RunIsLogged` | c++_features_experiment/threadpools.cpp:20-63 | Every run has such events. |
| `ThreadPoolCalls.SubmitDescends` | c++_features_experiment/threadpools.cpp:20-29 | Every step of a submission brings it nearer to its end; it is refused exactly when its test finds stop set. |
| `ThreadPoolCalls.WorkerDescends` | c++_features_experiment/threadpools.cpp:51-62 | A worker sleeps exactly when it finds no job and stop not set, leaves exactly when it finds no job and stop set, begins its next turn only when the job in its hands is done, and otherwise comes nearer to the end of its turn. |
| `ThreadPoolCalls.OwnerDescends` | c++_features_experiment/threadpools.cpp:31-40 | The destructor waits only for the mutex or for the next worker, every step brings it nearer to its end, and it ends only when every worker has left. |
| `ThreadPoolCalls.OthersDescend` | c++_features_experiment/threadpools.cpp:28-36 | Nobody else's step touches a worker, but that a notification wakes the one it names and the destructor's wakes all. |
| `ThreadPoolCalls.NotStuck` | c++_features_experiment/threadpools.cpp:20-63 | Unless the workers sleep or are gone and nobody is in a call, somebody can move. |
| `ThreadPoolTheorems.RunDrains` | c++_features_experiment/threadpools.cpp:31-40 | In every run of a pool with a worker, when the joins have returned every accepted job has been taken and completed. |
| `ThreadPoolTheorems.DrainedIff` | c++_features_experiment/threadpools.cpp:31-40 | When the joins have returned, every accepted job is completed exactly when there was a worker or nothing was accepted. |
| `ThreadPoolTheorems.NoWorkersNoDrain` | c++_features_experiment/threadpools.cpp:12-18 | A run of a pool of no workers that accepts a job and is destroyed with the job still queued. |
| `ThreadPoolTheorems.TakenInOrder` | c++_features_experiment/threadpools.cpp:58-59 | A worker takes the oldest job that nobody took. |
| `ThreadPoolTheorems.RunsOnce` | c++_features_experiment/threadpools.cpp:58-61 | A job in hand is not done, and is in the hands of its one taker. |
| `ThreadPoolTheorems.RunWakesWorkers` | c++_features_experiment/threadpools.cpp:54-57 | No run reaches a state in which all workers sleep with a job queued, or with stop set, and no notification pending. |
| `ThreadPoolTheorems.SomeoneComes` | c++_features_experiment/threadpools.cpp:20-29 | While a worker sleeps and a job is queued, a worker or a notification is on its way; once stop is set, notify_all is. |
| `ThreadPoolTheorems.ShutdownDescends` | c++_features_experiment/threadpools.cpp:36-39 | After notify_all every worker step lowers a rank, and no other step changes it. |
| `ThreadPoolTheorems.ShutdownNotStuck` | c++_features_experiment/threadpools.cpp:36-39 | Until the joins have returned, the destructor, a worker or a submitter in mid-call can move. |
| `ThreadPoolObject.Pool.constructor` | c++_features_experiment/threadpools.cpp:12-18 | No job, not stopped, workers at the start of their loop. |
| `ThreadPoolObject.Pool.Lock` | c++_features_experiment/threadpools.cpp:54-54 | The mutex is taken when it is free. |
| `ThreadPoolObject.Pool.Unlock` | c++_features_experiment/threadpools.cpp:60-60 | The mutex is released by its owner. |
| `ThreadPoolObject.Pool.WaitForJob` | c++_features_experiment/threadpools.cpp:55-57 | To take, to quit or to sleep, as the queue and stop say. |
| `ThreadPoolObject.Pool.PopJob` | c++_features_experiment/threadpools.cpp:58-59 | The job is the oldest that nobody took. |
| `ThreadPoolObject.Pool.TestStop` | c++_features_experiment/threadpools.cpp:23-25 | A submission is refused exactly when stop is set. |
| `ThreadPoolObject.Pool.PushJob` | c++_features_experiment/threadpools.cpp:26-26 | The job is accepted at the end of the queue, before stop. |
| `ThreadPoolObject.Pool.SetStop` | c++_features_experiment/threadpools.cpp:32-35 | Stop is set under the mutex. |
| `Peterson.KeepStep` | peterson.cpp:41-50 | Every read and write of a shared variable keeps the invariant. |
| `Peterson.RunIsFair` | peterson.cpp:41-50 | In every run, never both inside, never both blocked, and a process that has written `turn` is overtaken at most once before it enters. |
| `Peterson.NotBothStuck` | peterson.cpp:45-45 | When both wait, exactly the process named by `turn` can pass, and it does within two of its own steps. |
| `Peterson.EntersIff` | peterson.cpp:45-45 | A waiting process, left to itself, is inside within two steps exactly when it is not blocked; beside a process that is out it never is blocked. |
| `Peterson.TurnEnters` | peterson.cpp:45-45 | A waiting process whose turn it is enters with its second step at the latest, whatever the other does in between. |
| `Peterson.OwnSteps` | peterson.cpp:41-50 | Outside its loop a process is never held up. |
| `Peterson.TurnIsKept` | peterson.cpp:44-45 | A waiting process whose turn it is keeps the turn until it enters. |
| `TweakedPeterson.BothEnter` | peterson.cpp:27-32 | A run of the tweaked algorithm that ends with both processes inside. |
| `TweakedPeterson.SlipsIff` | peterson.cpp:30-31 | A step lets both past their loops exactly when a process finds its own number in `turn` while the other is past its loop and has not yet written `turn`. |
| `TweakedPeterson.ExclusiveIff` | peterson.cpp:27-38 | In a run the two are never past their loops together exactly when no step of it is such a slip. |
| `TweakedPeterson.SlipEnters` | peterson.cpp:30-34 | From every slip the code goes on, in three steps, to both inside. |
| `TweakedPeterson.NobodySlipsExcludes` | peterson.cpp:27-38 | In a run without a slip the two are never both inside. |
| `PetersonObject.Gate.RaiseFlag` | peterson.cpp:42-42 | The flag of the process is up. |
| `PetersonObject.Gate.GiveTurn` | peterson.cpp:44-44 | The turn is the other's. |
| `PetersonObject.Gate.LoadInterested` | peterson.cpp:45-45 | A process that finds the other's flag down is inside, and the other is not. |
| `PetersonObject.Gate.LoadTurn` | peterson.cpp:45-45 | A process that finds the turn not the other's is inside, and the other is not. |
| `PetersonObject.Gate.LowerFlag` | peterson.cpp:48-50 | The flag is down and the process is out. |

## Left out

- HazardTheorems.RunSafe: is for runs in which no slot is cleared after its new owner has published in it, because the code is unsafe otherwise; the same holds for HazardTheorems.KeepStep, HazardTheorems.RunLinearizable and the lemmas of HazardProgress.
- HazardExit.DisorderIsUnsafe: asks for a third thread that is idle and has a slot, which is the one that frees the node.
- TicketRuns.RunLinearizable: does not model the wrap-around of positions, because `dif` is not safe across it; it holds while positions stay below 2^63.
- SpscTheorems.RunIsSafe: does not model the wrap-around of the counters, because `head < tail` is not safe across it; it holds while no counter wraps.
- SpscTheorems.PushFalse: a false push is exact only for the message read, because an acquire load may return an older pop count; the same holds for SpscTheorems.PopFalse.
- TicketLock.RunIsFair: is for up to 2^32 threads, because with more tickets out two of them carry the same word.
- LockedRingTheorems.RunWakesProducers: is for runs without a harmful read of try_consume, because that read loses a wakeup.
- ThreadPoolTheorems.RunDrains: is for pools with a worker and jobs that do not throw; a job is one step and does not itself submit jobs.
- Weak memory beyond the single-producer ring: everything else is modelled with sequentially consistent interleavings. In the counting stack a plain `next` field is read while it is rewritten, which ISO C++ leaves undefined; the property is about interleavings.
- Stack nodes and reclaim-list entries of the hazard stack have separate types: an address is in use as one of them at a time.
- Fairness: progress is stated as ranks that fall, bounds for a call that runs alone, steps that are enabled and exchanges that are lost only to others, not as termination under a scheduler.
- Destruction of the pool object after its joins, and of the two stacks, which have no destructor and leave their remaining nodes.
- The wait of a condition variable is a mutex release and a sleep in one step; timed waits do not occur.
- Shared-pointer internals, type-erased deleters, cache-line alignment, exceptions of element types, allocation failure.
- `exception::stack` and `mem_leak::stack`: they free no node, so they are easier versions of the stacks modelled.
- `optimised_spinlock`, which has no unlock, and `futex_lock`, which wraps a system call.
- memory_management_unit.cpp: its fault handlers are empty.
- concurrent_structures/reader_writer.cpp and c++_features_experiment/threadsafe_queue.cpp: thin wrappers over standard locks and queues.
- dsa_from_scratch: sequential containers and algorithms.
