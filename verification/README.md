# ghOSt userspace: verified models

Dafny models of five components of the ghOSt userspace, with proofs of what they keep over every
call and every run. `dafny verify dfyconfig.toml` checks everything.

- **Bounded AVL tree** (`Avl*.dfy`, from `userspace/lib/avl.bpf.h`). Nodes live in an array and link
  by id; every loop is cut off at H = MAX_AVL_HEIGHT; a node that would lie too deep goes to an
  orphan list. The tree is proved against a ghost tree and the in-order sequence of its nodes. The
  proofs about retracing use a tree with a hole (a zipper): a path with the subtree below it whose
  height is one off what the stored balances say. The record of a node is split into two parallel
  arrays, its links with its balance and the rest; ids start at 1 and slot 0 is unused.
- **Array-indexed TAILQ** (`ArrList.dfy`, from `userspace/lib/queue.bpf.h`), proved to be a plain
  sequence.
- **PrioTable protocol** (`Prio*.dfy`, from `userspace/shared/prio_table.*`, the reader in
  `userspace/schedulers/edf/orchestrator.*` and the writer in
  `userspace/experiments/shared/prio_table_helper.cc`). `PrioProtocol` is a state machine in which
  any number of writers and one reader interleave single accesses to shared memory;
  `PrioInvariant` and `PrioStream` prove safety over all runs, `PrioContents` that the items hold what
  was written, and `PrioDrain` that a refresh ends and drains the stream. `PrioRuns` builds runs, to show
  that the conditions are exact. `PrioTable` has the same operations as methods of a class, run one at a time.
- **EDF global scheduler** (`Edf*.dfy`, from `userspace/schedulers/edf/edf_scheduler.*`): the indexed
  heap, the five task states under messages, parameter updates and discovery, and the scheduling round
  in which any commit may fail. `EdfParams` is the cached copy of one item
  (`userspace/schedulers/edf/orchestrator.h`). `EdfRuns` has whole runs with their histories, and
  `EdfExamples` one of them.
- **Per-CPU CFS** (`Cfs*.dfy`, from `userspace/schedulers/cfs/cfs_scheduler.*`): run queues, migration
  queues, the two-part task state, load balancing and weighted vruntime. `CfsRuns` has whole runs with
  their histories, and `CfsExamples` two of them.

`Common.dfy` holds what several of these use.

What the kernel decides is a parameter: whether a commit or an association succeeds, which tasks are
still on a CPU, how long a task ran. Preconditions of message handlers are the conditions that the
source checks with CHECK.

## What does not hold

- `MarkRunnability` marks the index stored in the item, not the one it was called with. On an item
  that was never set that index is 0, and the reader may not learn of the change.
  `PrioRuns.MarkRunnabilityExact` has the exact condition over all interleavings, and
  `PrioRuns.NeverSetItem` a run for every item but the first. Clearing a bit that is clear already can
  go wrong as well: the reader's failed-copy path may set the cached bit in between
  (`PrioRuns.LostFallBack`). `PrioTable.Table.MarkRunnabilityThenRefresh` has the condition for calls
  that run one at a time.
- A reader whose plain scan is past the cell of a mark reports no entries, and receives the mark with the
  next scan only (`PrioStream.MarkAwaited` has the exact condition, `PrioRuns.ScanPassedBy` a run).
- In the EDF table of work edges, the check that a repeating task is not told of work while it waits
  with work can fail, and so can the one that an item does not change hands
  (`EdfScheduler.Scheduler.SchedParamsCallback` has the exact condition,
  `EdfScheduler.RepeatingItemWrittenAgain` a run).
- A round does not always leave the highest QoS running: a boosted task at the front of the queue hides
  the ones behind it. `EdfRound.GlobalSchedule` has the condition on the queue under which it does, and
  `EdfExamples.BoostHoldsBack` a run in which it does not.
- `SeqCopyParams` stores the QoS even when it returns false, so the key of a queued task can change
  without an update. `EdfParams.SilentExactly` says exactly when, `EdfParams.UntoldCopy` that exactly then
  some run queue is no longer a heap, and `EdfParams.SilentRaise` gives an input.
- `arr_list_concat` forgets the last element of the first list when the second is empty
  (`ArrList.Head.Concat`).
- CFS `min_vruntime_` is not monotone: putting a task back lowers it exactly when the task is behind it
  (`CfsScheduler.Cfs.PutPrevTask`, and `CfsExamples.BoundFalls` a run), and nothing else does
  (`CfsRuns.BoundFellBy`).
- Balancing lowers the sum of the squared queue lengths if no other agent comes in between
  (`CfsRounds.LoadBalance`). If one does, `CfsRounds.InterleavedMove` has the exact condition, and
  `CfsExamples.BalancingRaises` a run in which it raises the sum.
- The CFS transition tables admit a wakeup of a task that is runnable already. The task is then in two
  places (`CfsScheduler.Cfs.TaskRunnable`).
- The comment on `CpuState` (`userspace/schedulers/cfs/cfs_scheduler.h:417-421`) allows blocked tasks in a
  migration queue. In the code a task there is always runnable, and the model proves that.

## Model

| member | source | states |
|---|---|---|
| `AvlRotate.RotateLeft` | userspace/lib/avl.bpf.h:551-582 | writes exactly the links and balances of a left rotation (LeftRotated) and nothing else |
| `AvlRotate.RotateRight` | userspace/lib/avl.bpf.h:599-630 | the mirror image |
| `AvlRotate.RotateRightLeft` | userspace/lib/avl.bpf.h:654-710 | writes exactly the links and the three balances of a double rotation, for each balance of the middle node |
| `AvlRotate.RotateLeftRight` | userspace/lib/avl.bpf.h:734-790 | the mirror image |
| `AvlRotate.LeftRotatedRep` | userspace/lib/avl.bpf.h:551-582 | after those writes the array holds the rotated tree: ids mutual, every stored balance right height minus left height and within [-1, 1] |
| `AvlRotate.RightRotatedRep` | userspace/lib/avl.bpf.h:599-630 | the same for a right rotation |
| `AvlRotate.RightLeftRotatedRep` | userspace/lib/avl.bpf.h:654-710 | the same for a right-left rotation |
| `AvlRotate.LeftRightRotatedRep` | userspace/lib/avl.bpf.h:734-790 | the same for a left-right rotation |
| `AvlRebalance.RebalanceLeft` | userspace/lib/avl.bpf.h:933-951 | the choice between single and double rotation at a left-heavy node gives a balanced subtree with the same in-order sequence, one level lower unless the child was even |
| `AvlRebalance.RebalanceRight` | userspace/lib/avl.bpf.h:933-951 | the mirror image |
| `AvlRetrace.GrowthRotated` | userspace/lib/avl.bpf.h:902-966 | a rotation during an insert absorbs the growth: the whole tree is balanced again and its order kept |
| `AvlRetrace.LossRotated` | userspace/lib/avl.bpf.h:1264-1358 | a rotation during a delete absorbs the loss exactly when the taller child was even, else passes a loss of one level up |
| `AvlRetrace.SuccessorOrder` | userspace/lib/avl.bpf.h:1159-1214 | putting the in-order successor in place of the deleted node takes exactly that node out of the order |
| `AvlTree.Avl.constructor` | userspace/lib/avl.bpf.h:160-191 | an empty tree is valid and holds nothing |
| `AvlTree.Avl.MinNode` | userspace/lib/avl.bpf.h:404-434 | the bounded walk to the left finds the first node in order, 0 for an empty tree |
| `AvlTree.Avl.MaxNode` | userspace/lib/avl.bpf.h:436-466 | the bounded walk to the right finds the last node in order |
| `AvlTree.Avl.NextNode` | userspace/lib/avl.bpf.h:468-490 | the node right after the given one in order, or 0 |
| `AvlTree.Avl.PrevNode` | userspace/lib/avl.bpf.h:492-514 | the node right before the given one in order, or 0 |
| `AvlTree.Avl.Lookup` | userspace/lib/avl.bpf.h:383-402 | returns a node with the key, and 0 exactly when no node of the tree has it |
| `AvlTree.Avl.PushOrphan` | userspace/lib/avl.bpf.h:312-330 | the node becomes the first of the doubly linked orphan list |
| `AvlTree.Avl.RemoveOrphan` | userspace/lib/avl.bpf.h:332-357 | one orphan leaves the list from any place, the others keep their order |
| `AvlTree.Avl.PopFirstOrphan` | userspace/lib/avl.bpf.h:359-381 | the first orphan leaves the list; 0 exactly when there is none |
| `AvlTree.Avl.FindSlot` | userspace/lib/avl.bpf.h:816-861 | the bounded descent ends at the only place that keeps equal keys first-in-first-out, and finds a free slot exactly when plain binary search tree insertion stays within H levels |
| `AvlTree.Avl.RetraceInsert` | userspace/lib/avl.bpf.h:902-966 | the walk up after an insert always ends by its own exit within H rounds, with a balanced tree of the same order and height at most H |
| `AvlTree.Avl.UpdateCache` | userspace/lib/avl.bpf.h:968-993 | the cached ends follow an insert, ties included |
| `AvlTree.Avl.Insert` | userspace/lib/avl.bpf.h:793-994 | the node is orphaned exactly when plain insertion would put it below level H; else it lands right after the last node with key at most its own; everything stays valid and nothing but held nodes is written |
| `AvlTree.Avl.Hang` | userspace/lib/avl.bpf.h:1007-1034 | a subtree is reconnected below the parent or the root, whichever it was |
| `AvlTree.Avl.ReplaceBySuccessor` | userspace/lib/avl.bpf.h:1159-1214 | both successor cases (deep next and immediate child next) leave the tree with the successor in the node's place and one short subtree below the returned node |
| `AvlTree.Avl.Detach` | userspace/lib/avl.bpf.h:1149-1214 | all four shapes of delete take the node out and name the node that lost a level and the side |
| `AvlTree.Avl.RetraceDelete` | userspace/lib/avl.bpf.h:1264-1358 | the walk up after a delete always ends by its own exit within H rounds, with a balanced tree of the same order |
| `AvlTree.Avl.MoveCache` | userspace/lib/avl.bpf.h:1125-1147 | when an end of the order is deleted, its neighbour becomes the cached end |
| `AvlTree.Avl.Refill` | userspace/lib/avl.bpf.h:1373-1375 | after a delete from the tree the first orphan is inserted if it fits now, else it stays first |
| `AvlTree.Avl.Delete` | userspace/lib/avl.bpf.h:1110-1376 | exactly the node goes, all others keep their relative order, then one orphan is retried; the held nodes are the old ones but this one |
| `AvlTree.Avl.PopMin` | userspace/lib/avl.bpf.h:1378-1387 | returns the first node in order, and 0 only when neither tree nor orphan list holds a node; takes exactly that node away |
| `AvlTree.Avl.PopMax` | userspace/lib/avl.bpf.h:1389-1398 | the same at the other end |
| `AvlTree.Avl.SetKey` | userspace/lib/avl.bpf.h:792-796 | the caller may give any node that is not held a key, and the tree stays valid |
| `AvlOrder.PlacedBehindEquals` | userspace/lib/avl.bpf.h:837-843 | in a sorted order the new node comes after every node with the same key |
| `AvlOrder.PlacedUnique` | userspace/lib/avl.bpf.h:837-843 | there is only one place in a sorted order where an insert may put a key |
| `AvlOrder.CachedDropped` | userspace/lib/avl.bpf.h:1125-1147 | the cached ends after a delete are the ends of what is left |
| `AvlSize.SizeAtLeast` | userspace/lib/avl.bpf.h:117-122 | an AVL tree of height h has at least MinNodes(h) nodes (the Fibonacci bound) |
| `AvlSize.RoomFor` | userspace/lib/avl.bpf.h:117-122 | with fewer than MinNodes(H) nodes in the tree no insert makes an orphan |
| `AvlSize.DefaultHeight` | userspace/lib/avl.bpf.h:138-140 | for MAX_AVL_HEIGHT 23 the bound is 75,024, more than the 64k threads of ghOSt |
| `AvlSize.Storable` | userspace/lib/avl.bpf.h:117-122 | every balanced tree over distinct ids can be stored in the array of links with the right balances |
| `AvlSize.RoomIsSharp` | userspace/lib/avl.bpf.h:117-122 | the bound cannot be raised: for every h some stored, balanced tree has exactly MinNodes(h) nodes and height h, and refuses a key |
| `AvlRuns.Step` | userspace/lib/avl.bpf.h:793-1398 | one operation: exactly the nodes that the operation brings in and takes out, and the exact change to the tree and the orphans (Did); no other node of the tree changes key |
| `AvlRuns.Run` | userspace/lib/avl.bpf.h:793-1398 | any sequence of inserts, each under any key, deletes and pops from an empty tree keeps every invariant; the history runs from the first content to the last, and every operation in it has its exact effect; the nodes that came are those that went and those held; of the nodes with equal keys each pop_min takes the one that entered the tree first |
| `AvlRuns.Conservation` | userspace/lib/avl.bpf.h:793-1398 | at every point of every such history the nodes that came in are those that went out and those in the tree or among the orphans |
| `AvlRuns.FifoFirst` | userspace/lib/avl.bpf.h:1378-1387 | in every state of a run the first node in order has the least key, and entered the tree before all others with that key |
| `AvlRuns.InsertKey` | userspace/lib/avl.bpf.h:792-994 | a node that is not held is given a key and inserted; it joins the held nodes and the other keys stay |
| `AvlRuns.Drain` | userspace/lib/avl.bpf.h:1378-1387 | n held nodes are drained by exactly n pops, in order when there were no orphans |
| `ArrList.Head.constructor` | userspace/lib/queue.bpf.h:45-48 | an initialized head is an empty list over any array |
| `ArrList.Head.InsertHead` | userspace/lib/queue.bpf.h:67-79 | the element is put in front; only slots of the list are written |
| `ArrList.Head.InsertTail` | userspace/lib/queue.bpf.h:81-93 | the element is put at the end; only slots of the list are written |
| `ArrList.Head.InsertBefore` | userspace/lib/queue.bpf.h:95-106 | the element is put right before the given one |
| `ArrList.Head.InsertAfter` | userspace/lib/queue.bpf.h:108-119 | the element is put right after the given one |
| `ArrList.Head.Remove` | userspace/lib/queue.bpf.h:121-135 | exactly the given element goes and its links are cleared |
| `ArrList.Head.PopFirst` | userspace/lib/queue.bpf.h:137-150 | the first element goes; 0 exactly for an empty list; its links are cleared |
| `ArrList.Head.Concat` | userspace/lib/queue.bpf.h:185-196 | the result is the joined list if and only if the second list has elements or the first has none; the second list ends empty |
| `ArrList.Head.Foreach` | userspace/lib/queue.bpf.h:157-160 | the bounded loop visits the elements in order, and stops short exactly when there are more than the bound |
| `ArrList.Head.ForeachReverse` | userspace/lib/queue.bpf.h:173-176 | the bounded loop from the end visits them in reverse order |
| `ArrList.LinkedStored` | userspace/lib/queue.bpf.h:67-119 | linking an element between two neighbours stores the list with that element at that place |
| `ArrList.UnlinkedStored` | userspace/lib/queue.bpf.h:121-150 | unlinking an element stores the list without it |
| `ArrList.OtherList` | userspace/lib/queue.bpf.h:10-16 | a list in the same array with no element in common is untouched by any of these operations |
| `PrioInvariant.StepKeeps` | userspace/shared/prio_table.cc:85-140 | every atomic step of any writer or of the reader keeps the types, the locks, the cached copies and the reader's own state in order, whatever the writers do |
| `PrioInvariant.RunKeeps` | userspace/shared/prio_table.cc:85-140 | so does every interleaving |
| `PrioInvariant.StepTracked` | userspace/shared/prio_table.cc:85-140 | a step that does not mark item i runnable before i was ever set keeps item i accounted for: in sync, mid-write, unmarked, in a cell, under scrape_all, or about to be refreshed |
| `PrioInvariant.RunTracked` | userspace/shared/prio_table.cc:85-140 | so does every interleaving, whatever happens to the other items |
| `PrioInvariant.FreshInv` | userspace/schedulers/edf/orchestrator.cc:136-150 | zeroed shared memory and a zeroed cache satisfy the invariant |
| `PrioInvariant.AtRestInSync` | userspace/schedulers/edf/orchestrator.cc:13-69 | over every interleaving, once the writers are done and the stream is drained, every cached field and the sequence number of each item that was not marked runnable before it was set equal the table's, whatever happened to the other items (what the table then holds is in PrioContents.AtRestAsWritten) |
| `PrioInvariant.AcceptedCopyIsWhole` | userspace/schedulers/edf/orchestrator.h:37-84 | a copy that read_end accepts equals the item, and no writer is inside its write section |
| `PrioInvariant.AcquireLock` | userspace/shared/prio_table.h:133-173 | taking the sequence counter keeps at most one writer inside each write section |
| `PrioInvariant.WriterCovered` | userspace/experiments/shared/prio_table_helper.cc:41-72 | a writer's step leaves no item out of sync and unaccounted for |
| `PrioInvariant.ReaderCovered` | userspace/schedulers/edf/orchestrator.h:37-84 | neither does a reader's step, the failed-copy path that stores `begin` included |
| `PrioProtocol.BitMeaning` | userspace/experiments/shared/prio_table_helper.cc:60-72 | setting or clearing the runnable bit leaves every other flag as it is |
| `PrioContents.StepLogged` | userspace/experiments/shared/prio_table_helper.cc:41-72 | every atomic step keeps each item at what the writes completed so far made of it, or, inside a write section, at that with the one write under way; a write is logged once, when its section ends, with the record that was asked for |
| `PrioContents.RunLogged` | userspace/experiments/shared/prio_table_helper.cc:41-72 | so does every interleaving |
| `PrioContents.AtRestAsWritten` | userspace/experiments/shared/prio_table_helper.cc:41-72 | over every interleaving from zeroed memory, at rest every write that was asked for has been completed, each item holds what the writes to it, in the order of their completion, made of the zeroed record, and so does the cached copy of each item that was not marked runnable before it was set |
| `PrioStream.MarkAnnounces` | userspace/shared/prio_table.cc:85-107 | a writer that finishes marking leaves the index in a cell or an overflow pending, however many compare-exchanges fail spuriously |
| `PrioStream.MarkAwaited` | userspace/shared/prio_table.cc:85-140 | the reader is still to receive a finished mark if and only if it is not in a plain scan that is past the cell |
| `PrioStream.AwaitsStays` | userspace/shared/prio_table.cc:85-140 | an index that the reader is still to receive stays so, in the middle of an overflow scan too, until the reader takes it or an overflow |
| `PrioStream.NothingIsLost` | userspace/shared/prio_table.cc:113-140 | in every run from a state with the index still to be received to one where the reader's scan found nothing, the reader has received the index or an overflow |
| `PrioDrain.MarkStarts` | userspace/shared/prio_table.cc:85-94 | a mark looks for a cell if and only if no overflow is pending when it starts; else it bumps scrape_all and takes no cell |
| `PrioDrain.MarkAlone` | userspace/shared/prio_table.cc:96-107 | a mark that no other step interrupts ends in the first free cell on its way whose compare-exchange succeeds, the same one as in PrioTable.Table.MarkUpdatedIndex, and bumps scrape_all if there is none |
| `PrioDrain.Finishes` | userspace/schedulers/edf/orchestrator.cc:42-69 | a refresh that no writer interrupts ends, from every point of it |
| `PrioDrain.RefreshDrains` | userspace/schedulers/edf/orchestrator.cc:42-69 | a refresh that no writer interrupts leaves every cell free and no overflow pending, and writes no item |
| `PrioDrain.RefreshLearnsAll` | userspace/schedulers/edf/orchestrator.cc:42-69 | after every interleaving at whose end no write is under way there is such a refresh, and it leaves every cached copy, of items not marked runnable before they were set, equal to the item |
| `PrioRuns.MarkRunnabilityExact` | userspace/experiments/shared/prio_table_helper.cc:60-72 | from a table in sync, every run that starts with MarkRunnability of item i, writes i no more and comes to rest leaves the cached copy right if and only if the item carries its own index, or is to be runnable and already is |
| `PrioRuns.NeverSetItem` | userspace/experiments/shared/prio_table_helper.cc:60-72 | from zeroed memory, for every item but the first, an explicit run at whose end the item is runnable in the table, everything is at rest, and the cache does not know |
| `PrioRuns.LostChange` | userspace/experiments/shared/prio_table_helper.cc:60-72 | from every table in sync, for every item without its own index, an explicit run that loses a change of the runnable bit |
| `PrioRuns.LostFallBack` | userspace/schedulers/edf/orchestrator.h:37-84 | and one that leaves an item cached as runnable, by the failed-copy path, although the bit is and stays clear |
| `PrioRuns.MarkBehindScan` | userspace/shared/prio_table.cc:113-140 | from every state with a plain scan past the free cell of a mark, an explicit run in which the mark finishes and the scan then reports no entries without having received it |
| `PrioRuns.ScanPassedBy` | userspace/shared/prio_table.cc:113-140 | such a state and run, from zeroed memory |
| `PrioTable.Table.constructor` | userspace/schedulers/edf/orchestrator.cc:136-150 | a zeroed table is in sync with a zeroed cache |
| `PrioTable.Table.MarkUpdatedIndex` | userspace/shared/prio_table.cc:85-107 | the index is in the first cell on its way that was free and whose compare-exchange succeeds, and scrape_all is bumped if and only if there is none; nothing announced before is lost and nothing else is announced |
| `PrioTable.Table.NextUpdatedIndex` | userspace/shared/prio_table.cc:113-140 | returns and frees the first used cell, or reports no entries; after an overflow it empties the whole stream |
| `PrioTable.Table.RefreshSchedParam` | userspace/schedulers/edf/orchestrator.cc:13-31 | the cached copy of the item is in sync; a change is reported exactly when the sequence number differs |
| `PrioTable.Table.RefreshAllSchedParams` | userspace/schedulers/edf/orchestrator.cc:35-40 | every cached copy is in sync |
| `PrioTable.Table.RefreshSchedParams` | userspace/schedulers/edf/orchestrator.cc:42-69 | one call drains the stream, syncs every announced item and touches no other |
| `PrioTable.Table.Write` | userspace/experiments/shared/prio_table_helper.cc:41-72 | the item holds the new record, its sequence number is up by two, and the index stored in the item is announced; the record is the one given, or the old one with only the runnable bit changed |
| `PrioTable.Table.SetSchedItem` | userspace/experiments/shared/prio_table_helper.cc:41-51 | the item holds the record and its own index is announced |
| `PrioTable.Table.MarkRunnabilityThenRefresh` | userspace/experiments/shared/prio_table_helper.cc:60-72 | run alone, the reader learns the new runnable bit if and only if the item carries its own index, the bit does not change, or every compare-exchange fails |
| `PrioTable.NeverSetItem` | userspace/experiments/shared/prio_table_helper.cc:60-72 | on a fresh table an item marked runnable before it was ever set is runnable in the table and not in the cache |
| `EdfTasks.AfterIsOrder` | userspace/schedulers/edf/edf_scheduler.h:95-111 | the boost, QoS and deadline comparator is a strict weak order |
| `EdfTasks.AfterIsUrgency` | userspace/schedulers/edf/edf_scheduler.h:95-111 | a is ordered after b if and only if b is more urgent: boosted when a is not, else of higher QoS, else of earlier deadline |
| `EdfTasks.FirstIsFirst` | userspace/schedulers/edf/edf_scheduler.h:95-111 | no task in a heap is ordered before its first one |
| `EdfTasks.FirstMostUrgent` | userspace/schedulers/edf/edf_scheduler.h:95-111 | no task in a heap is more urgent than its first one, in the plain terms of boost, QoS and deadline |
| `EdfTasks.UpStep` | userspace/schedulers/edf/edf_scheduler.cc:486-505 | one swap while sifting up leaves a heap but for the task one level higher |
| `EdfTasks.DownStep` | userspace/schedulers/edf/edf_scheduler.cc:507-521 | one swap with the first child while sifting down leaves a heap but for the task one level lower |
| `EdfTasks.KeyChanged` | userspace/schedulers/edf/edf_scheduler.cc:550-555 | any change to one queued task leaves a heap but for that task, the state that an update or a removal starts from |
| `EdfTasks.KeyChangeUnnoticed` | userspace/schedulers/edf/orchestrator.h:55-74 | after a key change that no update follows, the queue is a heap if and only if the new key fits the task's parent and children |
| `EdfTasks.UnnoticedRaise` | userspace/schedulers/edf/orchestrator.h:55-74 | after a raise of the QoS of any queued task that no update follows the queue is a heap if and only if the task is first or its parent is not ordered after the new key |
| `EdfParams.SchedParams.SeqCopyParams` | userspace/schedulers/edf/orchestrator.h:37-84 | the copied record, QoS, flag and sequence number, and what is returned, field by field on each of the three paths: nothing new, a whole copy, and a failed copy of an item that was or was not runnable |
| `EdfParams.SilentExactly` | userspace/schedulers/edf/orchestrator.h:37-84 | it returns false with a changed QoS if and only if the sequence number differs, read_end fails, the cached flag is runnable and the work class has another QoS; when it returns false nothing but the QoS has changed |
| `EdfParams.UntoldCopy` | userspace/schedulers/edf/orchestrator.h:37-84 | a copy that returns false leaves every run queue that holds the task a heap if and only if it is not such a one |
| `EdfParams.SilentRaise` | userspace/schedulers/edf/orchestrator.h:37-84 | such a copy, from QoS 1 to 2, reached from a zeroed cache |
| `EdfQueue.RunQueue.Swap` | userspace/schedulers/edf/edf_scheduler.cc:438-441 | the two tasks change places and their stored positions follow |
| `EdfQueue.RunQueue.UpdateRunqueuePosition` | userspace/schedulers/edf/edf_scheduler.cc:486-522 | from any key at that place the queue becomes a heap of the same tasks, every stored position exact |
| `EdfQueue.RunQueue.Enqueue` | userspace/schedulers/edf/edf_scheduler.cc:422-436 | a task with work is queued and the heap kept; one without work is paused and the queue unchanged |
| `EdfQueue.RunQueue.Dequeue` | userspace/schedulers/edf/edf_scheduler.cc:443-457 | takes out a most urgent queued task: boosted if any is, of the highest QoS among those, of the earliest deadline among those; nothing exactly for an empty queue |
| `EdfQueue.RunQueue.Peek` | userspace/schedulers/edf/edf_scheduler.cc:459-469 | the task that Dequeue would take, a most urgent one |
| `EdfQueue.RunQueue.RemoveFromRunqueue` | userspace/schedulers/edf/edf_scheduler.cc:524-548 | takes exactly that task out of any place, even when its key has just changed, and leaves a heap |
| `EdfQueue.RunQueue.UpdateRunqueue` | userspace/schedulers/edf/edf_scheduler.cc:550-555 | restores the heap after the key of a queued task changed |
| `EdfScheduler.Scheduler.constructor` | userspace/schedulers/edf/edf_scheduler.cc:60-108 | a scheduler without tasks is valid |
| `EdfScheduler.Scheduler.TaskNew` | userspace/schedulers/edf/edf_scheduler.cc:204-231 | the task starts blocked, paused or queued, by whether it is runnable and, outside discovery, by its parameters, whose QoS, deadline and work it takes over; every other task stays where it is |
| `EdfScheduler.Scheduler.TaskRunnable` | userspace/schedulers/edf/edf_scheduler.cc:233-245 | a blocked task is queued exactly if it has work, with the boost of a wakeup that is not deferrable |
| `EdfScheduler.Scheduler.TaskDeparted` | userspace/schedulers/edf/edf_scheduler.cc:247-264 | the task is taken from whichever place it is in |
| `EdfScheduler.Scheduler.TaskDead` | userspace/schedulers/edf/edf_scheduler.cc:266-271 | a blocked task goes |
| `EdfScheduler.Scheduler.TaskBlocked` | userspace/schedulers/edf/edf_scheduler.cc:273-295 | a running, queued or paused task is blocked and off its CPU and queue |
| `EdfScheduler.Scheduler.TaskPreempted` | userspace/schedulers/edf/edf_scheduler.cc:297-324 | the task is boosted; a running one is queued, a queued one moves up, a paused one stays paused |
| `EdfScheduler.Scheduler.TaskYield` | userspace/schedulers/edf/edf_scheduler.cc:326-346 | only a running task yields |
| `EdfScheduler.Scheduler.PreemptTask` | userspace/schedulers/edf/edf_scheduler.cc:357-401 | the CPU switches to the next task or to none; nothing changes exactly when the kernel refuses the switch |
| `EdfScheduler.Scheduler.Yield` | userspace/schedulers/edf/edf_scheduler.cc:403-410 | the task joins the yielding list |
| `EdfScheduler.Scheduler.Unyield` | userspace/schedulers/edf/edf_scheduler.cc:412-420 | the task leaves the yielding list and is queued |
| `EdfScheduler.Scheduler.SchedParamsCallback` | userspace/schedulers/edf/edf_scheduler.cc:557-677 | the table of work edges, state by state in fields: QoS and deadline become those of the parameters, and the task is blocked, paused, queued or on its CPU by its old state and its old and new work; no other task changes; the checks hold if and only if the item does not change hands from one thread to another and is not that of a repeating task that waits with work and is told of work |
| `EdfScheduler.Scheduler.DiscoveryStart` | userspace/schedulers/edf/edf_scheduler.cc:348-348 | from now on new tasks get no parameters |
| `EdfScheduler.Scheduler.DiscoveryComplete` | userspace/schedulers/edf/edf_scheduler.cc:350-355 | the updates are made one after the other up to the first that fails a check; QoS and deadline of each task are then those of the last update made for it, and a task without one is as it was; discovery ends if and only if none fails |
| `EdfScheduler.AppliedByTable` | userspace/schedulers/edf/edf_scheduler.cc:557-677 | what an update makes of a task is the table of work edges, written out in fields |
| `EdfScheduler.UpdateAllKeys` | userspace/schedulers/edf/edf_scheduler.cc:350-355 | after any list of updates QoS and deadline of each task are those of its last one |
| `EdfScheduler.RepeatingItemWrittenAgain` | userspace/schedulers/edf/edf_scheduler.cc:649-655 | that check fails for a repeating item with work that is written twice |
| `EdfPlaces.OnePlace` | userspace/schedulers/edf/edf_scheduler.cc:204-346 | in a valid state a task is in exactly one of run queue, one CPU, yielding list, blocked or paused |
| `EdfPlaces.MovedOne` | userspace/schedulers/edf/edf_scheduler.cc:403-436 | moving one task keeps every task in one place |
| `EdfRound.ChooseFor` | userspace/schedulers/edf/edf_scheduler.cc:692-719 | a CPU keeps its task if and only if the first queued one that can run has no higher QoS; tasks still on a CPU sit the round out |
| `EdfRound.CommitOne` | userspace/schedulers/edf/edf_scheduler.cc:721-763 | a chosen task runs exactly if all requests up to its own were committed; otherwise it is queued again |
| `EdfRound.RestoreYielding` | userspace/schedulers/edf/edf_scheduler.cc:768-776 | every yielding task is queued again, and no other task changes state |
| `EdfRound.RoundConserves` | userspace/schedulers/edf/edf_scheduler.cc:685-777 | between two states with every task in one place and none held or yielding, no task is lost |
| `EdfRound.FirstAbove` | userspace/schedulers/edf/edf_scheduler.h:95-111 | if boosted queued tasks have at least the QoS of the others, the first task of the heap has the highest QoS |
| `EdfRound.BecomesPrioritized` | userspace/schedulers/edf/edf_scheduler.cc:685-763 | from what was chosen or kept for each CPU to the order of QoS at the end of the round |
| `EdfRound.TakesInTurn` | userspace/schedulers/edf/edf_scheduler.cc:692-763 | whichever commits fail, the tasks that come to run are the most urgent of the eligible ones |
| `EdfRound.GlobalSchedule` | userspace/schedulers/edf/edf_scheduler.cc:685-777 | a round ends; every task that was queued, running or yielding is queued or running, and blocked and paused ones are unchanged; none is left chosen or yielding; no CPU loses its task but to one of strictly higher QoS; exactly the tasks that come to a CPU lose boost and preempted mark; whichever commits fail, no eligible task that is left waiting is more urgent than one that came to run; if no commit fails, a usable CPU is left idle only once every eligible task runs, and, if boosts agree with the QoS, no eligible task that does not run has higher QoS than a task on a usable CPU; nothing is switched if no CPU would give up its task for the first queued one |
| `EdfRuns.Handle` | userspace/schedulers/edf/edf_scheduler.cc:204-777 | every event that the checks allow keeps the scheduler valid and has its exact effect on its task, or, for updates, discoveries and rounds, on all tasks |
| `EdfRuns.Run` | userspace/schedulers/edf/edf_scheduler.cc:204-777 | every sequence of messages, parameter updates, discoveries and rounds is a history in which each event has its effect, and each state has every task in one place, its work in order and the run queue a heap |
| `EdfRuns.ReadyExactly` | userspace/schedulers/edf/edf_scheduler.cc:204-777 | at every point of every run a task is queued, running or yielding if and only if it was announced, is awake and has work, as its messages, updates and discoveries alone decide; otherwise it is blocked or paused, each exactly when they say so |
| `EdfRuns.StaysReady` | userspace/schedulers/edf/edf_scheduler.cc:204-777 | between any two points of any run a task that is queued, running or yielding stays so unless it blocks, goes or is given parameters without work |
| `EdfRuns.KeyIs` | userspace/schedulers/edf/edf_scheduler.cc:204-777 | at every point of every run QoS and deadline of a task are those of the last update, discovery or announcement that gave it parameters, but for the new deadline that a task gets when it blocks, is preempted or yields on a CPU |
| `EdfRuns.UpdateReady` | userspace/schedulers/edf/edf_scheduler.cc:557-677 | in every run, after an update of a task that is not blocked, the task is queued, running or yielding if and only if it is told of work, or its work repeats and it was ready before or discovery is on |
| `EdfRuns.DiscoveredReady` | userspace/schedulers/edf/edf_scheduler.cc:557-585 | in every run, a task that is awake and whose last update in a discovery is of a repeating work class is ready when the discovery ends, told of work or not |
| `EdfExamples.BoostHoldsBack` | userspace/schedulers/edf/edf_scheduler.cc:697-706 | from a scheduler without tasks, a run whose last round, though every commit succeeds, leaves a task of QoS 9 queued behind a boosted one of QoS 1 while the CPU runs one of QoS 5 |
| `CfsTasks.OnePlace` | userspace/schedulers/cfs/cfs_scheduler.h:417-422 | in a sound state a task is in exactly one of: run queue of its own CPU (iff kQueued), migration queue (iff kMigrating, never running), batch in flight, current of one CPU, or blocked |
| `CfsTasks.MovedAt` | userspace/schedulers/cfs/cfs_scheduler.cc:404-633 | moving one task at one CPU keeps all tasks placed, all bounds below their queues and all sizes exact |
| `CfsTasks.MovedTo` | userspace/schedulers/cfs/cfs_scheduler.cc:277-357 | so does moving one task between two CPUs |
| `CfsScheduler.Cfs.constructor` | userspace/schedulers/cfs/cfs_scheduler.cc:58-86 | a scheduler without tasks is sound |
| `CfsScheduler.Cfs.SetState` | userspace/schedulers/cfs/cfs_scheduler.h:181-194 | only legal transitions of the run state are made |
| `CfsScheduler.Cfs.SetOnRq` | userspace/schedulers/cfs/cfs_scheduler.h:196-203 | only legal transitions of the queue state are made |
| `CfsScheduler.Leftmost` | userspace/schedulers/cfs/cfs_scheduler.h:221-226 | the first task by vruntime, ties by address |
| `CfsScheduler.Cfs.InsertTaskIntoRq` | userspace/schedulers/cfs/cfs_scheduler.cc:1208-1215 | the task joins the queue, the size copy is exact, and the bound is the smallest queued vruntime |
| `CfsScheduler.Cfs.EnqueueTask` | userspace/schedulers/cfs/cfs_scheduler.cc:1048-1062 | the task's vruntime is lifted to the bound and never lowered; the bound does not fall |
| `CfsScheduler.Cfs.PutPrevTask` | userspace/schedulers/cfs/cfs_scheduler.cc:1064-1071 | the bound falls if and only if the task is behind it |
| `CfsScheduler.Cfs.DequeueTask` | userspace/schedulers/cfs/cfs_scheduler.cc:1131-1148 | the task leaves the queue if it is in it; else nothing changes |
| `CfsScheduler.Cfs.UpdateMinVruntime` | userspace/schedulers/cfs/cfs_scheduler.cc:1150-1182 | the bound never falls, stays below every queued task, and is exactly the larger of itself and the smaller of the first vruntime and that of a current task, which counts exactly if it is running or runnable |
| `CfsScheduler.Cfs.PickNextTask` | userspace/schedulers/cfs/cfs_scheduler.cc:1073-1129 | keeps a running task that is not flagged for preemption, and changes nothing then; else clears the flag and runs a task of least vruntime among all queued ones and the one put back, and none exactly when there is none; no vruntime changes, and the bound falls only for a task put back from behind it |
| `CfsScheduler.PickedFair` | userspace/schedulers/cfs/cfs_scheduler.cc:1073-1129 | in plain fields: the task that is picked has the least vruntime of all that could run, and the flag is clear, unless a running task is not flagged |
| `CfsScheduler.Cfs.StartMigrateTask` | userspace/schedulers/cfs/cfs_scheduler.cc:255-262 | a queued task moves to the migration queue |
| `CfsScheduler.Cfs.TaskNew` | userspace/schedulers/cfs/cfs_scheduler.cc:359-402 | a new task is blocked or waits in the migration queue |
| `CfsScheduler.Cfs.TaskRunnable` | userspace/schedulers/cfs/cfs_scheduler.cc:404-421 | the task waits in the migration queue; the state stays sound if and only if the task was not runnable already, which the transition tables admit |
| `CfsScheduler.Cfs.HandleTaskDone` | userspace/schedulers/cfs/cfs_scheduler.cc:426-459 | the task goes from wherever it is, or, if current, is marked done; no bound falls |
| `CfsScheduler.Cfs.TaskYieldOrPreempted` | userspace/schedulers/cfs/cfs_scheduler.cc:484-576 | the task is queued on its CPU, or migrates if its affinity forbids that CPU; the bound falls if and only if it is queued and was behind the bound |
| `CfsScheduler.Cfs.PutPrev` | userspace/schedulers/cfs/cfs_scheduler.cc:611-633 | the same for the helper behind both messages |
| `CfsScheduler.Cfs.TaskBlocked` | userspace/schedulers/cfs/cfs_scheduler.cc:514-592 | the task is off the CPU and in no queue |
| `CfsScheduler.Cfs.CheckPreemptTick` | userspace/schedulers/cfs/cfs_scheduler.cc:594-609 | the preemption flag is set exactly for a current task over its granularity |
| `CfsScheduler.Cfs.TaskAffinityChanged` | userspace/schedulers/cfs/cfs_scheduler.cc:916-950 | a queued task migrates exactly when its CPU is no longer allowed |
| `CfsScheduler.Cfs.TaskPriorityChanged` | userspace/schedulers/cfs/cfs_scheduler.cc:952-969 | only the nice value changes |
| `CfsScheduler.Cfs.ChargeTask` | userspace/schedulers/cfs/cfs_scheduler.cc:857-873 | the vruntime grows by exactly the weighted runtime |
| `CfsBalance.Migrate` | userspace/schedulers/cfs/cfs_scheduler.cc:277-334 | the task is queued on the new CPU with its vruntime at the larger of itself and that bound, unless the kernel refuses; then nothing changes; no bound falls |
| `CfsBalance.MigrateTasks` | userspace/schedulers/cfs/cfs_scheduler.cc:336-357 | every task of the migration queue is migrated or left, by its own outcome, and raised to a bound between the first and the last one of its new CPU; no bound falls |
| `CfsBalance.DetachTasks` | userspace/schedulers/cfs/cfs_scheduler.cc:1224-1249 | up to n tasks that may run on the other CPU are detached in queue order, at least one stays, and none that could go is passed over before a later one |
| `CfsBalance.AttachTasks` | userspace/schedulers/cfs/cfs_scheduler.cc:1217-1222 | the whole batch joins the run queue, each task raised to a bound between the first and the last one; the bound does not fall, and current task, preemption flag and migration queue stay |
| `CfsBalance.FindBusiestQueue` | userspace/schedulers/cfs/cfs_scheduler.cc:685-702 | the first of the longest run queues |
| `CfsBalance.Imbalance` | userspace/schedulers/cfs/cfs_scheduler.cc:669-683 | exactly half the excess, rounded down, or 32 if that is more; none exactly for an excess below two |
| `CfsRounds.MoveLowers` | userspace/schedulers/cfs/cfs_scheduler.cc:669-683 | moving m tasks lowers the sum of squared lengths if and only if m is less than the excess |
| `CfsRounds.ShiftLowers` | userspace/schedulers/cfs/cfs_scheduler.cc:669-683 | a move of at most half the excess lowers it, over all queues |
| `CfsRounds.InterleavedMove` | userspace/schedulers/cfs/cfs_scheduler.cc:1217-1249 | with other steps in between, one agent's detaching and attaching together lower the sum if and only if the tasks moved are fewer than the source's length when they were detached minus the destination's length when they were attached |
| `CfsRounds.CountMoved` | userspace/schedulers/cfs/cfs_scheduler.cc:1224-1249 | asked for fewer tasks than are queued, detaching takes exactly the smaller of that number and the number of tasks that may move |
| `CfsRounds.LoadBalance` | userspace/schedulers/cfs/cfs_scheduler.cc:704-750 | keeps the union of all tasks, moves exactly the least of 32, half the excess and the tasks that may move, leaves one, respects affinity, lowers no bound, and strictly lowers the sum of squared lengths when it moves anything; if all tasks of the busiest queue may move, it moves 32 or leaves the two lengths within one; it moves nothing if and only if the CPU is not idle, is the busiest, the busiest queue has fewer than two tasks or none of them may move |
| `CfsRounds.BalanceRepeatedly` | userspace/schedulers/cfs/cfs_scheduler.cc:724-750 | repeated balancing ends, after at most as many moving rounds as the first sum of squares, and exactly when nothing can be moved for the CPU that asks next |
| `CfsRounds.NewIdleBalance` | userspace/schedulers/cfs/cfs_scheduler.cc:752-760 | if any task came, one of those that came runs, and otherwise nothing has changed; no task goes, and no vruntime or bound falls |
| `CfsRounds.YieldCpu` | userspace/schedulers/cfs/cfs_scheduler.cc:775-816 | a boosted agent leaves the CPU without a task, which waits in the queue if it can run |
| `CfsRounds.CfsSchedule` | userspace/schedulers/cfs/cfs_scheduler.cc:766-885 | only a current task that is done goes, balancing included; a CPU left without a next task has none queued; the next task is charged exactly when the kernel commits; no vruntime falls, and a bound only for a task put back from behind it |
| `CfsRuns.Dispatch` | userspace/schedulers/cfs/cfs_scheduler.cc:359-633 | a message changes exactly its own task as After says, keeps the state sound, takes vruntime from none, and lowers a bound exactly when it puts a task back from behind it |
| `CfsRuns.Act` | userspace/schedulers/cfs/cfs_scheduler.cc:654-885 | every step of an agent keeps the state sound and exactly the tasks that are not done; it takes vruntime from none, and lowers a bound only when it puts a task back from behind it |
| `CfsRuns.Run` | userspace/schedulers/cfs/cfs_scheduler.cc:887-904 | every interleaving of messages and steps is a history in which each step has its exact effect and keeps all of this, and each state is sound |
| `CfsRuns.AliveExactly` | userspace/schedulers/cfs/cfs_scheduler.cc:359-459 | at every point of every run the tasks that are there and not done are exactly those announced and not said to be gone since |
| `CfsRuns.NeverBack` | userspace/schedulers/cfs/cfs_scheduler.cc:1048-1062 | between any two points of any run a task that is not announced anew does not lose vruntime |
| `CfsRuns.BoundFellBy` | userspace/schedulers/cfs/cfs_scheduler.cc:1048-1182 | between any two points of any run the bound of a CPU has fallen only if a task behind the bound was put back there in between: by a yield or preemption of that very task, or as the current task of a scheduling decision of that CPU |
| `CfsRuns.FlagStays` | userspace/schedulers/cfs/cfs_scheduler.cc:594-609 | over every run, a preemption flag stays set until the next scheduling decision of its CPU |
| `CfsRuns.TickPreempts` | userspace/schedulers/cfs/cfs_scheduler.cc:594-609 | over every run, after a tick finds the current task over its granularity, the next decision of that CPU clears the flag and leaves a task of least vruntime as the current one, or none and an empty queue, whatever other messages and agents do in between |
| `CfsExamples.BoundFalls` | userspace/schedulers/cfs/cfs_scheduler.cc:1064-1071 | from a scheduler without tasks, a run after whose last event, a preemption, the bound is lower than before |
| `CfsExamples.BalancingRaises` | userspace/schedulers/cfs/cfs_scheduler.cc:704-750 | from a scheduler without tasks, a run in which another agent migrates tasks to the CPU between one agent's detaching and attaching, which together raise the sum of squares by 2 |
| `CfsWeights.Inverse` | userspace/schedulers/cfs/cfs_scheduler.h:440-465 | every inverse weight is 2^32 over the weight, to within one |
| `CfsWeights.WeightSteps` | userspace/schedulers/cfs/cfs_scheduler.h:440-465 | each nice level weighs strictly less than the one before, between 18/23 and 5/6 of it, with 1024 at nice 0; inverse weights rise strictly |
| `CfsWeights.NicerPaysMore` | userspace/schedulers/cfs/cfs_scheduler.cc:857-873 | for the same runtime a higher nice value is never charged less |
| `CfsWeights.Rounding` | userspace/schedulers/cfs/cfs_scheduler.cc:857-873 | each run loses less than a nanosecond to rounding, and never gains |
| `CfsWeights.AccountingBound` | userspace/schedulers/cfs/cfs_scheduler.cc:857-873 | over k runs of R ns the vruntime differs from 1024 R / weight by less than k + R / 2^22 |
| `CfsWeights.NiceZero` | userspace/schedulers/cfs/cfs_scheduler.cc:857-873 | at nice 0 the vruntime is exactly the runtime |
| `CfsWeights.FitsWord` | userspace/schedulers/cfs/cfs_scheduler.cc:857-873 | the charge of one run below 2^57 ns fits 64 bits |
| `CfsWeights.NeedNotFit` | userspace/schedulers/cfs/cfs_scheduler.cc:857-873 | at nice 19 the charge of a run of 2^58 ns does not |

## Left out

- PrioInvariant.AtRestInSync: steps are sequentially consistent and sequence numbers unbounded, so C++ memory orders and 32-bit wrap-around are not covered; a compare-exchange loop that fails is a step that changes nothing. Items that a writer marks runnable before they are set are excluded, one by one; `PrioRuns.MarkRunnabilityExact` says what holds of those.
- EdfScheduler.Scheduler.TaskNew: the fallback for a vanished PrioTable in HandleNewGtid, which hands out dummy parameters, is not modelled.
- EdfScheduler.Scheduler.SchedParamsCallback: the task that held the item before is a parameter; runtimes, estimates and work-class statistics are left out; the scheduling deadline that they lead to is a parameter.
- EdfRound.GlobalSchedule: the branch that unschedules a CPU without choosing a task is left out, because a CPU on the list always has a chosen task. The claim on QoS is about the tasks that were queued when the round began, not about those displaced in it; CPUs are looked at in the order of the list, not by the QoS of what they run. It is an implication, because a boosted task of low QoS does no harm when enough CPUs are free.
- EdfQueue.RunQueue.Dequeue: tasks are records in a map and not objects, so aliasing of task pointers is not captured.
- CfsScheduler.Cfs.PickNextTask: the source reads a freed task in one branch, through the stale current pointer; the model reads the done state there and claims nothing about freed memory. The cases of a blocked or runnable current task are left out, because a current task is always running or done. The current pointer is cleared when the old task is dealt with and passed on as a value.
- CfsBalance.Migrate: a task leaves the migration queue in the same step in which it joins the run queue; the choice of the CPU (SelectTaskRq) is a parameter.
- CfsRounds.LoadBalance: reads the queue sizes and moves tasks without other agents in between; what holds with others in between is stated by `CfsRounds.InterleavedMove`. Only newly idle balancing, the one that is used, is modelled.
- CfsRounds.BalanceRepeatedly: ends because no other agent moves tasks in between; with other agents the sum can rise, as `CfsExamples.BalancingRaises` shows.
- CfsScheduler.Cfs.TaskYieldOrPreempted: pings to other agents are left out.
- AvlTree.Avl.Insert: pointer arithmetic and the offset of the node within its record are left out; ids are used directly.
- EdfScheduler.Scheduler.DiscoveryComplete: the items that the tables hold when discovery ends are a parameter, and so is their order.
- Work classes that repeat and MakeEngineRunnable in the PrioTable cache proof: those flags are written outside the sequence counter.
- Kernel, ioctl, mmap, epoll, fork and signal code, agents, channels and the enclave: the other side is not part of the repository.
- The Shinjuku, SOL, FIFO, and BPF-only schedulers, CpuList, notification queues and the experiments: smaller protocols, or repeats of the ones above.
- Time slices and granularity in CFS (MinPreemptionGranularity): one formula, only its outcome matters here.
