# Verified model of the c_utils concurrency core

A Dafny model of the parts of the library whose correctness is not visible from any one function: the
lock-free queue with hazard pointers, the blocking and priority queue and what the thread pool schedules
with it, the linked list with reference-counted nodes and surviving iterators, the event and task-result
handshake, and the polling event loop.

| files | what they hold |
|---|---|
| `QueueModel` | the lock-free queue and its hazard pointers: one shared access per step, any number of threads, addresses handed out again |
| `QueueInvariant`, `QueueStability`, `QueueSteps`, `QueueUpdates`, `QueueScan`, `QueueSafety` | the invariant of all runs, and that each of the 31 places a thread can be at keeps it |
| `QueueTheorems`, `QueueLinearizable` | what the invariant means: reclamation safety, retire and free once, bounded backlog, linearizability |
| `QueueProgress`, `QueueLockFree` | calls return: a call left alone within a bound and with the right answer, and every retry paid for by a swap that succeeded |
| `BlockingQueue`, `BlockingQueueProofs`, `BlockingQueueTheorems`, `BlockingQueueLimits`, `BlockingQueueCalls` | the blocking queue as a monitor with POSIX.1 condition variables, no lost wakeups and where that stops to hold, and what each call does for its caller |
| `HeapCapacity`, `Heap`, `TaskOrder` | growth arithmetic, the 1-based array heap and the functions on sequences it refines, the aging comparator and bounded overtaking |
| `ThreadPool`, `ThreadPoolProgress` | the pool's workers as consumers of the blocking queue: which tasks are run, how often, in what order, and that a live pool runs them |
| `LinkedList` | the list as objects with pointers, proved against a sequence |
| `ListIterators`, `ListMoves`, `ListTraversal` | who owns a node, moves that interleave one reference count at a time, and what one pass of an iterator sees while elements are removed |
| `Events`, `EventProofs`, `EventTheorems`, `EventCalls` | events, results of pool tasks, what a reset does to sleepers, and what each call does for its caller |
| `EventLoop` | the event loop's sources, their timers and life cycle |
| `Counting` | counting the elements of a sequence that have a property |

`dafny verify dfyconfig.toml` checks everything.

Concurrent code is modelled as a state machine whose schedule, allocator, clock, callbacks and condition-variable
choices are all arbitrary; a theorem about "every run" quantifies over every list of such moves. Code that
updates objects in place (heap, list, event sources) is a class with methods.

Where the code and its documentation or evident intention part, the model follows the code:

- `c_utils_hazard_acquire` refuses a null pointer before it touches the slot (memory/hazard.c:181), so a dequeue that reads a null next leaves slot 1 as it was.
- `in_use` is set on creation and never cleared by an owner, so records are never adopted; the model faults if one were, and it is proved that none is.
- The iterator's `next` has no fallback through `prev`, although data_structures/list.h:80-84 describes one; `ListTraversal.MoveReturnsFirstPending` gives the exact condition under which a pass ends early.
- The priority bonus is documented in milliseconds (threading/thread_pool.h:34-38) but is subtracted in nanoseconds from a millisecond stamp, without carry; see `TaskOrder.OvertakesIff` for what the code does and `TaskOrder.AsDocumentedIff` for exactly when that is what is documented.
- A bounded heap may write past its array unless it starts with at least four thirds of its maximum, an unbounded one unless it starts with at least five slots (`HeapCapacity.InBoundsIffRoomy`).
- `c_utils_event_reset` sets the flag that its header says it clears (`EventTheorems.ResetSafeIff`, `EventTheorems.SleeperDeserted`).
- A timed dequeue or enqueue that uses up a signal and then reports a timeout leaves another sleeper beside an item or a free slot, clearing a bounded queue wakes no producer, and the producer of a null item sleeps beside any amount of room (`BlockingQueueLimits.ConsumersSafeIff`, `BlockingQueueLimits.ProducersSafeIff`).
- A dequeue that is shut down before it took anything returns an uninitialised pointer; `ThreadPool.RunsOnlyTasks` shows that no worker ever runs one.
- A source's timeout is cut down to an unsigned int when it is created, so a multiple of 2^32 ms means "no timeout" (`EventLoop.RequestKeptIff`).

## Model

| member | source | states |
|---|---|---|
| `QueueTheorems.NeverFaults` | data_structures/queue.c:52-135 | in every interleaving, with address reuse: nothing is dereferenced after being freed since its validation, every successful CAS on head, tail or next acts on the incarnation that was read, scan frees only the node retired, no record is taken over |
| `QueueTheorems.HeldIsLive` | memory/hazard.c:180-200 | a validated local is published in its own slot, allocated, at or behind the current tail, and at or behind the current head if it was read from there |
| `QueueTheorems.ChainOnlyGrows` | data_structures/queue.c:69-83 | from any reachable state and over any further run: the chain is extended at its end only, head and tail only move forward, head is never past tail, tail is the last node or the one before it |
| `QueueTheorems.RetiredExactlyOnce` | data_structures/queue.c:128-135 | a dequeued node not freed yet is in exactly one place of one thread: its locals, its retired list or its scan; nothing is retired twice, nothing leaks |
| `QueueTheorems.OwnedIsDequeued` | memory/hazard.c:242-256 | whatever a thread is to dispose of has been dequeued and not been freed |
| `QueueTheorems.GoneForGood` | memory/hazard.c:97-105 | once freed, a position of the chain is never live again in any continuation, so each node is freed at most once even if its address is reused |
| `QueueTheorems.BacklogBounded` | memory/hazard.c:242-256 | a thread's retired nodes never exceed slots per thread times records in the table, plus the one node whose retirement starts a scan |
| `QueueTheorems.RecordsAreOwned` | memory/hazard.c:149-178 | every record is in use for ever and has exactly one owner |
| `QueueLinearizable.Linearizable` | data_structures/queue.c:42-138 | for any number of threads, calls, interleaving and allocator, the history of calls and returns is one of the atomic FIFO queue |
| `QueueProgress.ReturnsAlone` | data_structures/queue.c:42-138 | from every reachable state a call left alone returns within 14 moves per hazard record plus 60: true from an enqueue; from a dequeue what it has taken, else the front of the queue, or null if the queue is empty or was when it read a null next |
| `QueueProgress.DequeueAlone` | data_structures/queue.c:89-138 | a dequeue called in any reachable state and left alone returns exactly the first item of the queue, and null if it is empty |
| `QueueProgress.Progresses` | data_structures/queue.c:52-137 | every single move of a thread in a call brings it closer to returning the same answer if nobody else moves, helping steps, scans and registration included, or is its return with that answer |
| `QueueLockFree.RetriesArePaid` | data_structures/queue.c:52-132 | in every run no thread begins its loop again more often than swaps of tail->next, tail and head have succeeded, which are at most three per node linked: if one call does not get through, others do |
| `QueueLinearizable.Simulate` | data_structures/queue.c:42-138 | the atomic run behind a concrete run ends in the atomic state the concrete state stands for, whichever pending null reads are taken as "found empty" |
| `QueueLinearizable.MatchMove` | data_structures/queue.c:42-138 | every single move is matched by nothing or by one act of the atomic queue that shows the client the same |
| `QueueLinearizable.LinkMatches` | data_structures/queue.c:77-78 | an enqueue takes effect at its successful CAS on tail->next |
| `QueueLinearizable.SwingMatches` | data_structures/queue.c:126-129 | a dequeue takes effect at its successful CAS on head, and the item it read before that CAS is the front at that moment |
| `QueueLinearizable.NullNextMeansEmpty` | data_structures/queue.c:104-116 | at the moment a validated head's next is read as null the queue is empty |
| `QueueLinearizable.NullNextMatches` | data_structures/queue.c:104-116 | so a dequeue that will return empty may take effect at that read, inside its own call |
| `QueueLinearizable.MemorySpellsContents` | data_structures/queue.c:126-127 | following next from the dummy in memory spells exactly the abstract contents, in every reachable state |
| `QueueSafety.MoveKeeps` | data_structures/queue.c:42-138 | every move of every thread keeps the invariant and only advances the chain |
| `QueueSafety.RunOk` | data_structures/queue.c:22-34 | every run from a new queue satisfies the invariant |
| `QueueUpdates.LinkMemory` | data_structures/queue.c:76-78 | a held node with a null next is the last of the chain and is queue->tail, and linking behind it keeps memory well formed |
| `QueueUpdates.SwingMemory` | data_structures/queue.c:126-129 | moving head one node on keeps memory well formed and hands the old dummy to the dequeuer alone |
| `QueueSteps.SwingTail` | data_structures/queue.c:69-74 | helping a lagging tail, from an enqueue or a dequeue, moves it to the next node of the chain and keeps the invariant |
| `QueueSteps.SuccessorLive` | data_structures/queue.c:105-127 | if head is still the head after slot 1 was published, the node behind it is in the queue, so reading its item is safe |
| `QueueScan.ScanPasses` | memory/hazard.c:83-86 | a scan that reads slots one at a time while they change never passes a slot that protects one of its candidates without recording it |
| `QueueScan.Unheld` | memory/hazard.c:98-105 | a retired node on no slot the scan saw is held by no thread at the moment it is freed |
| `QueueScan.BacklogFits` | memory/hazard.c:97-105 | what survives a scan is at most as many nodes as the scan saw hazard pointers, which is at most the slots of the table |
| `BlockingQueueTheorems.ConsumersNotStranded` | data_structures/blocking_queue.c:231-259 | with the lock free, if a consumer sleeps un-notified then there are at most as many items as notified consumers that have not run; for any condition variable in runs without timed dequeues, and in all runs if a signalled waiter never reports a timeout |
| `BlockingQueueTheorems.ProducersNotStranded` | data_structures/blocking_queue.c:185-212 | the same for producers and the free slots of a bounded queue, in runs without null items, clearing and (unless signalled waiters never time out) timed enqueues; a producer of an unbounded queue never sleeps |
| `BlockingQueueTheorems.ClearingKeepsProducersIff` | data_structures/blocking_queue.c:264-276 | clearing, which signals nobody, keeps the producers' guarantee exactly if no producer sleeps or enough of them are already on their way |
| `BlockingQueueTheorems.ShutdownWakesAll` | data_structures/blocking_queue.c:309-320 | with the lock free and shutdown set nobody sleeps un-notified on either condition |
| `BlockingQueueTheorems.DestroyedWhenEmpty` | data_structures/blocking_queue.c:45-52 | `blocked` is the number of threads inside enqueue or dequeue, and the destroyer leaves its loop if and only if there is none |
| `BlockingQueueTheorems.ItemsConserved` | data_structures/blocking_queue.c:31-43 | items added are those taken, cleared and contained; a nonzero maximum is respected; a list gives items back in the order they were added |
| `BlockingQueueCalls.AddedWasOffered` | data_structures/blocking_queue.c:172-189 | in every run no item is added, and so none comes out, more often than callers passed it to enqueue, told by the moves alone |
| `BlockingQueueCalls.EnqueueAlone` | data_structures/blocking_queue.c:172-215 | an undisturbed enqueue adds exactly its item if the queue is open, the item not null and there is room; otherwise it adds nothing and returns at once if shut down or with a zero timeout, and sleeps if not |
| `BlockingQueueCalls.DequeueAlone` | data_structures/blocking_queue.c:218-262 | an undisturbed dequeue takes exactly the first item if the queue is open and not empty; otherwise it takes nothing and returns at once if shut down or with a zero timeout, and sleeps if not |
| `BlockingQueueCalls.ZeroNeverSleeps` | data_structures/blocking_queue.c:189-193 | in every run a call with a zero timeout never sleeps |
| `BlockingQueueCalls.RemoveAllAlone` | data_structures/blocking_queue.c:264-276 | clearing empties the queue and gives up exactly what was in it |
| `BlockingQueueCalls.ActivateOpens` | data_structures/blocking_queue.c:302-307 | activating opens the queue and changes nothing else |
| `BlockingQueueCalls.ShutdownAlone` | data_structures/blocking_queue.c:309-320 | shutting down closes the queue and leaves nobody asleep |
| `BlockingQueueCalls.ShutdownLasts` | data_structures/blocking_queue.c:309-320 | from the moment a shutdown acts until somebody activates the queue it stays shut down and nothing is added or taken, whatever anybody does |
| `BlockingQueueCalls.ShutdownReleases` | data_structures/blocking_queue.c:185-214 | in every reachable state that is shut down with the lock free, whoever is inside a call is out after at most five moves of its own, having added and taken nothing |
| `BlockingQueueCalls.DestroyAlone` | data_structures/blocking_queue.c:45-52 | a destroyer that finds nobody inside frees the queue |
| `BlockingQueueTheorems.TakenIsFirst` | data_structures/blocking_queue.c:38-43 | in every reachable state a move takes out at most one item, which is a maximum of the contents if the container is a heap with a legal order (because the array is heap-ordered in all runs) and the oldest item added and not departed if it is a list |
| `BlockingQueueTheorems.TakenAtMostOnce` | data_structures/blocking_queue.c:31-43 | an item added once is in exactly one place: taken, cleared or still queued |
| `BlockingQueueLimits.ClearingStrandsProducer` | data_structures/blocking_queue.c:264-276 | for every bounded queue, a run in which clearing leaves a producer asleep beside a free slot |
| `BlockingQueueLimits.NullItemStrandsProducer` | data_structures/blocking_queue.c:189-195 | for every queue, bounded or not, a run in which the producer of a null item sleeps beside room for it |
| `BlockingQueueLimits.ExpiredSignalStrandsConsumer` | data_structures/blocking_queue.c:244-253 | a run in which a timed consumer uses up a signal and times out, and another consumer sleeps beside an item |
| `BlockingQueueLimits.ExpiredSignalStrandsProducer` | data_structures/blocking_queue.c:197-206 | for every bounded queue, a run in which a timed producer uses up a signal and times out, and another producer sleeps beside a free slot |
| `BlockingQueueLimits.ConsumersSafeIff` | data_structures/blocking_queue.c:236-255 | consumers are never stranded in any run whose calls obey a rule if and only if the rule has no timed dequeue or a signalled waiter never reports a timeout |
| `BlockingQueueLimits.ProducersSafeIff` | data_structures/blocking_queue.c:189-208 | producers are never stranded in any run whose calls obey a rule if and only if the rule has no null items and, for a bounded queue, no clearing and no timed enqueue unless a signalled waiter never reports a timeout |
| `HeapCapacity.InBoundsIffRoomy` | data_structures/heap.c:153-168 | every insert of every run writes inside the array and leaves one that holds all items, if and only if an unbounded heap starts with at least five slots and a bounded one with at least 4/3 of its maximum |
| `HeapCapacity.DefaultHeapHasRoom` | data_structures/heap.c:389-397 | with the default configuration 4 * used <= 3 * size and used < size after every operation |
| `HeapCapacity.TriggerIsThreeQuarters` | data_structures/heap.c:167-168 | the growth test is exactly 4 * used > 3 * size |
| `HeapCapacity.RoomyRun` | data_structures/heap.c:356-372 | in a roomy heap every run stays at most three quarters full and never shrinks its array |
| `Heap.Heap.constructor` | data_structures/heap.c:389-397 | a new heap of any configuration is empty and valid, and has the size of the capacity model |
| `Heap.Heap.Insert` | data_structures/heap.c:143-172 | refuses null and a full bounded heap and nothing else; otherwise the items become what the pure insertion makes of them, the heap order is kept, and the array grows as the capacity model says |
| `Heap.Heap.Get` | data_structures/heap.c:181-197 | returns a maximum of the contents, or nothing if and only if it is empty |
| `Heap.Heap.ExtractMax` | data_structures/heap.c:304-311 | returns the first item and leaves what the pure extraction makes of the others |
| `Heap.Heap.Remove` | data_structures/heap.c:199-211 | returns a maximum of the contents and removes exactly it, or nothing if and only if it is empty; keeps the heap order |
| `Heap.Heap.HeapifyUp` | data_structures/heap.c:313-320 | the loop on the array computes the recursive sift-up, and terminates |
| `Heap.SiftUpOrdered` | data_structures/heap.c:313-320 | sifting up restores the heap order from a misplaced last item (that it only rearranges is in SiftUp's own contract) |
| `Heap.AddedOrdered` | data_structures/heap.c:156-165 | inserting keeps the heap order |
| `Heap.Heap.HeapifyDown` | data_structures/heap.c:322-340 | the loop on the array computes the recursive sift-down, and terminates |
| `Heap.SiftDownOrdered` | data_structures/heap.c:322-340 | sifting down restores the heap order from a misplaced first item |
| `Heap.ExtractedOrdered` | data_structures/heap.c:304-311 | extracting keeps the heap order |
| `Heap.Heap.Resize` | data_structures/heap.c:356-372 | a new array of another size keeps all items in their places |
| `Heap.Heap.Drain` | data_structures/heap.c:304-340 | removing until empty yields a non-increasing permutation of the contents |
| `Heap.RootIsMax` | data_structures/heap.c:181-189 | in a heap-ordered array nothing compares above item 1 |
| `Heap.SiftUpStep` | data_structures/heap.c:313-320 | one exchange upward moves the one possible violation to the parent |
| `Heap.SiftDownStep` | data_structures/heap.c:322-340 | one exchange with the larger child moves the one possible violation to that child |
| `Heap.LargestOfThree` | data_structures/heap.c:325-335 | no child compares above the item picked, and if that is not the parent it is a child that compares above the parent |
| `TaskOrder.CompareIsStrictWeak` | threading/thread_pool.c:441-468 | "compare > 0" is a strict weak order on all tasks, with C's truncating division and -1 both ways on a tie |
| `TaskOrder.TieIff` | threading/thread_pool.c:463-467 | two tasks tie exactly if both or neither are immediate and their aged stamps agree |
| `TaskOrder.ImmediateFirst` | threading/thread_pool.c:449-453 | an immediate task goes before every other, whatever their stamps |
| `TaskOrder.ImmediatesByStamp` | threading/thread_pool.c:460-467 | of two immediate tasks the one added first goes first |
| `TaskOrder.ImmediatesServedFirst` | threading/thread_pool.c:449-453 | in every run of inserts and removes, while an immediate task is queued only immediate ones added no later are served |
| `TaskOrder.AheadWhateverMsecIff` | threading/thread_pool.c:460-467 | an ordinary task is ahead whatever the sub-second stamps if and only if its whole seconds, less one at the highest priority, are smaller |
| `TaskOrder.TwoSecondsAhead` | threading/thread_pool.c:460-467 | an ordinary task is ahead of any ordinary one at least two seconds younger |
| `TaskOrder.OneSecondAhead` | threading/thread_pool.h:37-39 | with real stamps it is ahead of any ordinary one more than 1000 ms younger |
| `TaskOrder.HighestJumpsLowestIff` | threading/thread_pool.h:34-38 | a task of highest priority jumps one of lowest priority if and only if it was added less than 1000 ms after it |
| `TaskOrder.BonusLostAcrossSeconds` | threading/thread_pool.h:34-38 | an input on which a documented jump does not happen |
| `TaskOrder.BonusInflatedWithinSecond` | threading/thread_pool.h:34-38 | inputs on which one step of priority jumps 999 ms |
| `TaskOrder.HighestLosesToo` | threading/thread_pool.h:34-38 | an input on which the highest priority misses a documented jump |
| `TaskOrder.OvertakesIff` | threading/thread_pool.c:460-467 | for all ordinary tasks the order is exactly: whole second (less one at the highest priority), then bonus within the second, then sub-second stamp |
| `TaskOrder.AsDocumentedIff` | threading/thread_pool.h:34-38 | the code orders two ordinary tasks as documented if and only if the bonus cannot show, a condition on their whole seconds, stamps and bonuses |
| `TaskOrder.NeverPassed` | threading/thread_pool.c:441-468 | in every run of inserts and removes a queued ordinary task is never passed by one at least two seconds younger, nor with real stamps by one more than 1000 ms younger |
| `TaskOrder.ServeTasks` | data_structures/heap.c:143-172 | the array heap, driven by any commands, answers each in turn: an add adds that task, a remove serves a maximum, or idles exactly if nothing is queued; so it produces such runs |
| `ThreadPool.TasksAccounted` | threading/thread_pool.c:484-509 | in every run of workers and callers, each time a task was added it was run, given up by a stopping worker, cleared, is queued or is in a worker's hands; so a task added once is run at most once |
| `ThreadPool.RunsOnlyTasks` | threading/thread_pool.c:484-506 | no worker runs a pointer more often than callers passed it to the pool, although a dequeue that is shut down returns an uninitialised one |
| `ThreadPool.ResultOfTask` | threading/thread_pool.c:323-328 | for a task passed to the pool once, the callback runs at most once and until the result is being destroyed every successful wait returned exactly what it returned |
| `ThreadPool.NeverPassed` | threading/thread_pool.c:441-509 | in every run of workers and callers on a queue ordered by task priority, a step that takes an ordinary task out passes no ordinary task still queued that is at least two seconds older, nor with real stamps one more than 1000 ms older |
| `ThreadPool.ImmediatesTakenFirst` | threading/thread_pool.c:449-509 | in every run of workers and callers, a step that takes a task while an immediate one is queued takes an immediate one that was added no later |
| `ThreadPoolProgress.NothingDropped` | threading/thread_pool.c:484-505 | in every run, as long as KEEP_ALIVE is up no worker has stopped and no task has been given up |
| `ThreadPoolProgress.FetchedIsRun` | threading/thread_pool.c:488-508 | a fetched task is run by its worker's second move at the latest, whatever the others do, as long as the pool is not stopped |
| `ThreadPoolProgress.WorkerRunsTask` | threading/thread_pool.c:484-514 | in every reachable live pool a worker at the top of its loop that finds the lock free and a task queued, and is not disturbed, runs the first one and is back at the top after nine moves |
| `ThreadPoolProgress.CallerDrives` | threading/thread_pool.c:223-233 | what callers do to the pool is what the same calls do to its queue, and touches nothing else |
| `ThreadPoolProgress.SubmittedIsRun` | threading/thread_pool.c:222-236 | from the caller to the callback: in every reachable live pool with an empty queue, a task that an undisturbed caller passes in is exactly what an undisturbed worker then runs |
| `LinkedList.List.Add` | data_structures/list.c:219-249 | accepts exactly non-null items while there is room; inserts at the end of a plain list and in order in a sorted one |
| `LinkedList.List.AddSorted` | data_structures/list.c:445-465 | links the node between neighbours it compares correctly with, in every one of its cases |
| `LinkedList.List.FindPlace` | data_structures/list.c:456-461 | the walk stops strictly inside the list at the first node not below the item, so its branch for the last node is never taken |
| `LinkedList.List.AddAsHead` | data_structures/list.c:396-404 | the pointer structure spells the old sequence with the node in front |
| `LinkedList.List.AddAsTail` | data_structures/list.c:406-414 | the pointer structure spells the old sequence with the node behind |
| `LinkedList.List.AddAsOnly` | data_structures/list.c:427-433 | the pointer structure spells the one node |
| `LinkedList.List.AddBefore` | data_structures/list.c:435-443 | the pointer structure spells the old sequence with the node inserted at that place |
| `LinkedList.List.AddUnsorted` | data_structures/list.c:467-475 | the pointer structure spells the old sequence with the node behind |
| `LinkedList.List.IndexToNode` | data_structures/list.c:622-648 | the walk from the nearer end returns exactly the indexed node, and null exactly beyond the end |
| `LinkedList.List.ItemToNode` | data_structures/list.c:603-616 | returns null exactly if no node holds the item; otherwise the head, the tail or the first node that does |
| `LinkedList.List.RemoveNode` | data_structures/list.c:539-548 | in each of its four cases the pointer structure spells the sequence without that node, which is invalidated and loses one reference; the other items keep their order, so a sorted list stays sorted |
| `LinkedList.List.RemoveAt` | data_structures/list.c:550-566 | returns and removes exactly the indexed item, whose node is invalidated and loses one reference, or null beyond the end; a sorted list stays sorted and no other count changes |
| `LinkedList.List.RemoveAll` | data_structures/list.c:596-601 | empties the list, ready for ordered insertion again; every node is invalidated and loses exactly one reference |
| `LinkedList.InsertedSorted` | data_structures/list.c:445-465 | an item that agrees with both neighbours keeps the whole list sorted |
| `LinkedList.InsertedMultiset` | data_structures/list.c:467-475 | an insertion adds exactly that item to the multiset |
| `LinkedList.WithoutSorted` | data_structures/list.c:539-548 | taking an item out of a sorted list leaves it sorted |
| `ListMoves.OwnershipExact` | data_structures/list.c:670-703 | in every interleaving of iterator moves one reference count at a time, with adds and removals under the write lock: a node's refs + 1 is one for the list if it is linked plus one per reference an iterator holds at that moment; nothing linked or held is destroyed, no destroyed node or stale link is touched |
| `ListMoves.MovesAreAtomic` | data_structures/list.c:733-793 | every such interleaving stands for the run in which exactly its operations that take place are done, in the order they begin, each in one step: the same list, and every iterator at rest in the same position |
| `ListMoves.MovesReturnSame` | data_structures/list.c:733-793 | and each move returns the same node as in that run, so what is proved of the nodes atomic moves visit holds of interleaved ones |
| `ListMoves.DestroyedExactlyOnce` | memory/ref_count.c:76-98 | in every interleaving each node created is either alive or has been destroyed exactly once |
| `ListMoves.CountOk` | data_structures/list.c:670-703 | each single reference change of a move keeps every count exact, although old nodes are released before new ones are taken |
| `ListIterators.UpdatePosOk` | data_structures/list.c:670-703 | so does a whole move, which leaves the iterator on the node with its neighbours |
| `ListIterators.TargetsOk` | data_structures/list.c:733-793 | whatever an iterator reads to decide where to go is alive, and where it goes is linked |
| `ListIterators.RemoveOk` | data_structures/list.c:591-594 | removing a node keeps the counts exact and moves no iterator |
| `ListTraversal.VisitsInOriginalOrder` | data_structures/list.c:733-793 | under arbitrary removals and other iterators' moves a pass by next visits nodes in strictly increasing original order, and a pass by prev in strictly decreasing order; until it ends a survivor has been visited exactly if it is not ahead of the last one visited |
| `ListTraversal.MoveReturnsFirstPending` | data_structures/list.c:733-793 | at any point next returns the first survivor not visited yet and prev the last one, and the pass ends if and only if there is none or both the current node and the neighbour ahead it recorded have been removed |
| `ListTraversal.RemovingCurrentVisitsAll` | data_structures/list.c:928-962 | if only current nodes are removed, a pass visits the original list from its start, or back from its end, without a gap and ends only after all of it |
| `ListTraversal.EndsOfList` | data_structures/list.c:705-731 | head and tail put an iterator on the first and the last node, or nowhere in an empty list, and finalize nowhere |
| `ListTraversal.MovesUndo` | data_structures/list.c:733-793 | on an unchanged list prev after next, and next after prev, is back on the same node |
| `ListTraversal.RemoveCurrentRemoves` | data_structures/list.c:946-962 | removing through an iterator takes out exactly the node it stands on and moves no iterator |
| `ListTraversal.AddIsUndone` | data_structures/list.c:219-249 | an added node is new and at its place, and taking it out again gives back the list |
| `ListTraversal.SurvivorMissed` | data_structures/list.c:751-756 | a run in which the pass ends although a survivor is left |
| `EventTheorems.SignaledWakesAll` | threading/events.c:105-167 | in every run whose resets are harmless when they happen (in particular without any), for every combination of flags: with the lock free nobody sleeps un-notified on a signaled event |
| `EventTheorems.DestroyedWhenNobodyWaits` | threading/events.c:192-207 | `waiting_threads` is the number of threads inside a wait, and the destroyer leaves its loop if and only if there is none |
| `EventTheorems.ResultIsCallbacks` | threading/thread_pool.c:528-539 | if process_task is called at most once on a task, its callback runs at most once and until the result is being destroyed every successful wait returned exactly what it returned |
| `EventTheorems.FinishedTaskWakesAll` | threading/thread_pool.c:528-539 | once the task has been taken and nobody runs it any more, nobody sleeps un-notified on its result |
| `EventCalls.SuccessIsAnswered` | threading/thread_pool.c:323-328 | in every run each result wait that leaves its event with success adds exactly one answer, now or with its next move |
| `EventCalls.WaitSucceeds` | threading/events.c:105-115 | an undisturbed wait on a signaled event succeeds at once and lowers the flag exactly as the auto-reset flags say |
| `EventCalls.WaitSleeps` | threading/events.c:117-127 | an undisturbed wait on an event that is not signaled sleeps |
| `EventCalls.NotifiedSucceeds` | threading/events.c:120-150 | a sleeper that is told and finds the flag up leaves with success and lowers the flag as the auto-reset flags say |
| `EventCalls.TimeoutFails` | threading/events.c:128-143 | a timed wait whose time is up fails and changes nothing |
| `EventCalls.TimeoutSignals` | threading/events.c:128-143 | with SIGNAL_ON_TIMEOUT it succeeds, raises the flag and leaves nobody asleep |
| `EventCalls.SignalAlone` | threading/events.c:153-167 | a signal raises the flag, and leaves nobody asleep if it was down |
| `EventCalls.ProcessAlone` | threading/thread_pool.c:528-539 | a task stores exactly what its callback returned and then signals |
| `EventCalls.GetAlone` | threading/thread_pool.c:323-328 | a result wait on a signaled event returns what was stored |
| `EventCalls.DestroyAlone` | threading/events.c:192-207 | a destroyer that finds nobody waiting frees the event |
| `EventTheorems.ResetSafeIff` | threading/events.c:87-93 | after such a run one more reset keeps the guarantee in all continuations without resets if and only if the flag is up already, or nobody is about to fall asleep and any sleeper is about to be told, or the flag lowered, by the thread that holds the lock |
| `EventTheorems.ResetStrandsForever` | threading/events.c:153-167 | after a reset beside a sleeper whom nobody is about to tell, no later signal or destruction wakes it, and the destroyer never leaves its loop |
| `EventTheorems.SleeperDeserted` | threading/events.c:87-93 | a run from a new event that reaches this, whatever the other threads do afterwards |
| `EventLoop.Source.Visit` | threading/event_loop.c:135-167 | one visit of a source changes its status as the step function says |
| `EventLoop.RunLoop` | threading/event_loop.c:121-171 | after any number of passes every source, even one added twice, has seen exactly its own visits: sources do not disturb each other |
| `EventLoop.VisitOutcome` | threading/event_loop.c:135-170 | at any point of any run, one more visit of a source that is not finished dispatches it once if and only if its timer is due by the readings alone and its check says yes; finishes it if and only if it was dispatched for the last time; finalizes it once if and only if it finished and can be; and works on what the first visit prepared |
| `EventLoop.PlusIsExact` | threading/event_loop.c:153-157 | the sum of a normalised reading and the timeout is normalised and exact to the microsecond |
| `EventLoop.DueIff` | threading/event_loop.c:145-159 | a timed source lets its event through if and only if it was armed and more than its timeout has passed since the last reading that restarted the timer |
| `EventLoop.DispatchesSpaced` | threading/event_loop.c:145-166 | for any clock readings two dispatches of a timed source are more than its timeout apart |
| `EventLoop.RequestKeptIff` | threading/event_loop.c:70-73 | the timeout asked for at creation separates all dispatches of all runs if and only if it is less than 2^32, because it is cut down to an unsigned int |
| `EventLoop.LivesOnce` | threading/event_loop.c:135-166 | prepare runs at most once and first, finalize at most once and last, every callback gets the data prepared, nothing happens after finish |

## Left out

- Hardware memory ordering: all models assume sequential consistency.
- Allocation failure, logging, argument checks against null objects, and the scoped-lock macros.
- Hazard pointers: more than the default four slots per thread, several structures sharing one table, and a custom destructor; the retired and private lists are sequences.
- `c_utils_queue_destroy` and the teardown of the hazard table.
- The lock-free queue, the blocking queue, the pool's workers, events and iterators are state machines on values and not classes with methods: what they are about is the interleaving of single accesses.
- data_structures/stack.c: its pop compares with a re-read of head->next, so the argument for the queue does not carry over.
- data_structures/map.c: probing stops at the first other hash and resizing does not advance, so it does not agree with a finite map.
- Heap.Heap.Insert: is not defined where the code would write beyond its array, which it does not check; HeapCapacity.InBoundsIffRoomy says exactly for which configurations that never happens. Growth rate and trigger are the defaults, and the quotient of doubles is an exact rational.
- The heap's `create_from`, `shift_down`, `delete` and `delete_all`, and reference counts of items.
- List: `c_utils_list_remove` of an item that is not there, `add_after`, and the iterator's `append` and `prepend`, of which the first returns before it links anything; a node that cannot be added because the list is full is not freed by the code and is not modelled.
- Blocking queue: return values (an enqueue also reports success after a shutdown or a zero timeout), the item returned by a dequeue that is shut down before it read one, deadline arithmetic, and condition-variable errors other than a timeout.
- TaskOrder.NeverPassed: is about arbitrary stamps, because the pool never fills them in; the overflow of 64-bit stamps is not modelled.
- ThreadPool.RunsOnlyTasks: takes KEEP_ALIVE as staying down once it is down; the code changes `flags` by plain read-modify-writes without a common lock (threading/thread_pool.c:381, 394, 404, 414), so a pause, resume or shutdown that overlaps the destruction can bring it back. The same holds for the other theorems about the pool's workers.
- ThreadPool.ResultOfTask: an item is one incarnation of a task; that the allocator may hand out the address of a freed task again is not modelled for tasks.
- EventTheorems.DestroyedWhenNobodyWaits: is about waiting threads; a thread still inside a signal is not counted by the code either.
- Thread pool: pausing is an arbitrary delay; the "finished" event, the start-up of workers and the rest of pool destruction, which depend on the reset described above, are not modelled.
- Event loop: sources added while the loop runs, the 10 ms sleep, and stopping other than after a pass.
- networking, io, string and misc.
