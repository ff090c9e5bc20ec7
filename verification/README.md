# Distributed shared memory: a verified model

The repository runs one program on several machines over a shared memory that is kept coherent page by
page, with a user-level thread library on top. This project models the parts that make it correct and
proves what they guarantee. `dafny verify dfyconfig.toml` checks everything.

**Coherence.** `PageNode` is one node: its page states, its child's page table and its memory, as the object
the source has and as functions on values. `PageProtocol` follows one page through rounds of requests;
`Cluster` runs that machine for every page and any number of nodes, each step one atomic action of a child,
a tracer or an answering thread, in any interleaving. Both carry their invariant through every step;
`Coherence` draws the consequences; `Faults` says what an access and each step of serving its fault come to.
`ReleaseConsistency` adds the spin lock, `LockProgress` and `LockTrace` show that it is had and handed on. `Rounds`
asks why rounds fail, when they end and how tracers can block each other, `Deadlock` is a run in which they do,
`Mailbox` is the one-slot request box between the answering threads and the tracer, `Membership` the joining of
nodes, and `Limits` shows where the guarantees stop.

**Threads.** `Threads` is the scheduler, mutex, condition variable, join and thread end as a machine whose
steps are the guarded sections, with the switch as a point of its own, on any number of CPUs, together with the
invariant of the guard and of where each thread is. `ThreadMutexes`, `ThreadLife` and `ThreadJoins` add the
other layers of the invariant; `ThreadRuns`, `ThreadOrder`, `Conditions` and `Handles` state the results, and
`ThreadCalls` what each call comes to. `SectionCode` gives
every context the instructions the source gives it, calls of the thread handler and releases of the guard among
them, and proves that such code runs as `Threads` says. `Scheduler` has the objects of the library, whose methods
carry out the sections on their fields.

**Data structures.** `Allocator` and `Heap` (the first-fit allocator as a list of chunks and on the headers in
memory), `ProbeTable` (the linear-probing table), `LinkedQueue`, `StackPool`.

History that steers nothing is part of some states: the log of writes and the version of each copy, the length
of the log at a node's last sync, what was posted to and served by the mailbox, who asked for and got each
mutex, what was taken from each queue, how often a CPU took and freed the guard, switched, and ran the handler.

## Assumptions, and where the code does not meet them

- The owner's re-enable (`update_prot`) checks and sets without the node's mutex. The main model makes it one
  step; `Limits.LateReenable` gives the exact condition for the two halves, and `Limits.ReenableRace` breaks it.
- Posting to the mailbox marks the request incomplete before its last two fields are written. `Mailbox` models
  posting and taking field by field: `Mailbox.ServedOnceBeforeReturn` says exactly which requests are served
  rightly, and `Mailbox.EarlyTakeServesWrong` is a run in which one is not. In `Cluster` posting is one step.
- `grant_read` blocks on the node's mutex while a read answer may hold it and wait for this very tracer.
  The model keeps this: `Rounds.ReadRoundEnds` says exactly when a read round ends, `Rounds.RoundsProgress`
  excludes only that case, `Deadlock.DeadlockReachable` shows that it occurs, and write rounds never need the
  exclusion.
- Release consistency is claimed for pages below the total that `sync` covers. `Limits.AccessAfterSync` and
  `Limits.StaleAfterSync` show what happens above it.
- The program keeps the lock's discipline: only the lock writes the lock word, only a holder unlocks, and the
  words a lock protects are written by its holder only.
- Joins of nodes succeed, do not overlap, and bring distinct addresses; all nodes use regions of one size. A join
  is one step and a round's peers are those of its start: no handshake comes during a round, although the source
  reads the length of the list again at each turn (src/lib/dsm_node.cpp:354 and 386).
- A split in `alloc` leaves the old successor's back link as it was. `Allocator.PerformWellFormed` says exactly
  when that does no harm, `Allocator.ReleaseKeepsBlocks` when a `dealloc` then takes a live block with it, and
  `Allocator.StaleLinkLosesBlock` is a run in which it does. The results over runs hold for splits of the last
  chunk, or with the link set.
- `remove` leaves no tombstone although the subscript stops at vacant slots; `ProbeTable.SubscriptExact` is the
  exact condition. The thread machine takes thread ids from a table that behaves as a map.
- A mutex starts without an owner; the source leaves the owner field unset until the first lock.
- A thread's end gives up the guard between waking its joiners and marking itself dead.
  `Conditions.JoinTooLate` is the exact condition for losing a join, `Conditions.JoinCanBeLost` a run on two CPUs;
  `ThreadRuns.JoinExact` holds with one. Taking a stack from the pool, marking a thread dead and destroying a
  handle are single steps, which with one CPU they are; handles are not used after their destruction.

## Model

| member | source | states |
|---|---|---|
| Protection.MaskTests | src/lib/dsm_node.cpp:39-47 | the bit tests readable, writable and owned decide exactly the questions the state names ask; the handler's `prot & READ` is the readable test |
| Protection.BitsInjective | src/lib/dsm_node.cpp:39-42 | the four state bytes are different |
| PageNode.LastPageNone | src/lib/dsm_node.cpp:371-374 | the data slot of a round is empty at the end exactly when no reply carried a page |
| PageNode.LastPageUnique | src/lib/dsm_node.cpp:371-374 | if one reply carries a page the slot ends up with it, whatever the order of arrival |
| PageNode.LastPageWins | src/lib/dsm_node.cpp:371-374 | of several replies with a page the last one stays in the slot |
| PageNode.DsmNode.constructor | src/lib/dsm_node.cpp:463-472 | the master starts as writer of every page, another node with every page invalid |
| PageNode.DsmNode.HandleFault | src/lib/dsm_node.cpp:55-83 | the page state alone decides between re-enabling, a write round and a read round; only re-enabling changes the node, and then one page |
| PageNode.DsmNode.UpdateProt | src/lib/dsm_node.cpp:422-431 | an owner gets full access back and the write state; a non-owner is refused and nothing changes |
| PageNode.DsmNode.GiveUpOwnership | src/lib/dsm_node.cpp:238-243 | the locked half of answering a write request: ownership goes, the child keeps its access; a page number out of range or not owned changes nothing |
| PageNode.DsmNode.SnapshotForWrite | src/lib/dsm_node.cpp:246-246 | the second half: the child can no longer write, and the copy is the page as it was |
| PageNode.DsmNode.ResponseWrite | src/lib/dsm_node.cpp:234-254 | a page comes back exactly when the node owned it, and then the node has lost ownership and write access |
| PageNode.DsmNode.ResponseRead | src/lib/dsm_node.cpp:262-290 | an owner answers with the page and keeps ownership and full access; any other node answers empty and changes nothing |
| PageNode.DsmNode.CollectReplies | src/lib/dsm_node.cpp:369-392 | the loop over the replies leaves the last page that arrived, and nothing exactly when none did |
| PageNode.DsmNode.GrantProt | src/lib/dsm_node.cpp:338-420 | succeeds exactly when some reply carried a page, which is then in memory with write access; otherwise nothing changes |
| PageNode.DsmNode.GrantWrite | src/lib/dsm_node.cpp:433-444 | as before, and on success the page state becomes write |
| PageNode.DsmNode.GrantRead | src/lib/dsm_node.cpp:446-457 | as before, and on success the page state becomes read and the child may only read |
| PageNode.Sync | src/lib/dsm_lock.cpp:17-20 | all access to the first `total` pages is taken away; page states and contents stay |
| PageNode.TestAndSet | src/lib/dsm_lock.cpp:22-30 | one turn of the spin loop: the lock word becomes 1, and the lock is taken exactly when it was 0 |
| PageNode.MutexUnlock | src/lib/dsm_lock.cpp:32-34 | the lock word becomes 0 and nothing else changes |
| Membership.HandshakesReach | src/lib/dsm_node.cpp:303-318 | the handshakes of a newcomer add it once to the list of every node asked and to no other |
| Membership.JoinedList | src/lib/dsm_node.cpp:292-294 | the newcomer ends with its contact's list and the contact; every old member with its list and the newcomer |
| Membership.JoinKeepsFullMesh | src/lib/dsm_node.cpp:292-321 | joining through any member keeps the mesh full: everyone lists everyone else once and not itself |
| Membership.JoinsBuildFullMesh | src/lib/dsm_node.cpp:206-225 | any sequence of joins, each through any member, builds a full mesh from the master alone |
| Membership.Member.Connect | src/lib/dsm_node.cpp:292-321 | the join, list copy and handshake loop together change the lists of all nodes as `Joined` says |
| Membership.Member.ShakeHands | src/lib/dsm_node.cpp:199-210 | the loop over the list applies one handshake to each entry in turn |
| PageProtocol.OwnershipMoves | src/lib/dsm_node.cpp:234-444 | each protocol step moves the ownership of a page from the one place where it is to the one place where it is next, and the copy there stays the latest |
| PageProtocol.StepInv | src/lib/dsm_node.cpp:234-457 | every step, for one page, keeps the protocol invariant: ownership in one place, faithful copies, sound rounds, a chain of writes |
| PageProtocol.StoreIsLatest | src/lib/dsm_node.cpp:422-431 | a node that can write holds the result of all writes |
| Cluster.StepInv | src/lib/dsm_node.cpp:55-472 | every step of the whole cluster keeps the invariant of all pages, the full mesh and the mutex holders |
| Cluster.InitInv | src/lib/dsm_node.cpp:463-472 | the master's start satisfies the invariant |
| Cluster.RunInv | src/lib/dsm_node.cpp:55-472 | so does every state of every run of any number of nodes |
| Coherence.RunReachable | src/lib/dsm_node.cpp:55-472 | runs stay among the reachable states, of which all that follows holds |
| Coherence.OwnershipConserved | src/lib/dsm_node.cpp:238-253 | in every reachable state the ownership of a page is in exactly one place: a node, a responder between flip and copy, a reply, or a requester that has yet to record it |
| Coherence.NoWriteLost | src/lib/dsm_node.cpp:400-414 | wherever it is, the copy that goes with it is the result of every write made to the page |
| Coherence.WritersExclusive | src/lib/dsm_node.cpp:422-444 | no two children can write one page at the same time |
| Coherence.WriterReadsNewest | src/lib/dsm_node.cpp:422-444 | a child that can write reads the newest contents |
| Coherence.LoadFresh | src/lib/dsm_lock.cpp:17-20 | every load returns what the page held after some number of its writes, at least as many as at the node's last sync |
| Coherence.OwnershipIsWrite | src/lib/dsm_node.cpp:45-47 | with release consistency compiled in, owned and writable are the same and the owned-only state never occurs |
| Coherence.InstallIsNewer | src/lib/dsm_node.cpp:399-414 | the page a round installs is never older than the copy it replaces |
| Coherence.StepForward | src/lib/dsm_node.cpp:234-457 | no step takes a node's copy back to an older version or its page state back to invalid |
| Coherence.RunForward | src/lib/dsm_node.cpp:446-457 | and over any run the same: what a node has of a page is never lost or replaced by something older |
| Coherence.SyncedRecord | src/lib/dsm_lock.cpp:17-20 | the record of the last sync changes at a node's own sync only, and then names all writes made so far |
| Faults.ChildGoesOn | src/lib/dsm_node.cpp:55-83 | a child that is not in a fault can go on with every access: it goes through, or exactly one of the two ways to serve the fault is open, by page state |
| Faults.AnyoneJoins | src/lib/dsm_node.cpp:206-225 | any new node can join through any member; it has nothing of any page, and nobody's pages change |
| Faults.StoreThenLoad | src/lib/dsm_lock.cpp:22-34 | a store changes one word of one copy, which a load then returns, and is the newest write of the page |
| Faults.ReenableGives | src/lib/dsm_node.cpp:422-431 | an owner's fault gives it write state and full access to the contents it had |
| Faults.RoundStarts | src/lib/dsm_node.cpp:55-83 | a read state asks for the page as owner, an invalid one to read it; every other node is asked once |
| Faults.GivesUp | src/lib/dsm_node.cpp:238-243 | an owner that is asked for the page goes to read state at once, and nothing else changes |
| Faults.SendsPage | src/lib/dsm_node.cpp:246-253 | then its child loses write access, and the contents of that moment are the answer |
| Faults.SharesPage | src/lib/dsm_node.cpp:262-290 | an owner that is asked to share the page sends the contents and keeps write state and full access |
| Faults.ReplyReceived | src/lib/dsm_node.cpp:369-381 | a reply with a page puts that page in the slot whatever was there; an empty one leaves the slot |
| Faults.SlotIsLastReceived | src/lib/dsm_node.cpp:352-392 | over any run the slot of a round holds the page it received last, and nothing if it received none |
| Faults.InstallGives | src/lib/dsm_node.cpp:399-414 | the page in the slot becomes the node's copy |
| Faults.WriteRoundGives | src/lib/dsm_node.cpp:433-444 | a write round ends with the child running, write state and full access to the page that was in the slot |
| Faults.ReadRoundGives | src/lib/dsm_node.cpp:446-457 | a read round ends with the child running, read state and read access to the page that was in the slot |
| Faults.FailedRoundGives | src/lib/dsm_node.cpp:399-420 | a failed round leaves all pages as they were |
| ReleaseConsistency.LockStepInv | src/lib/dsm_lock.cpp:17-34 | every step of protocol, lock and unlock keeps the lock's invariant |
| ReleaseConsistency.LockRunInv | src/lib/dsm_lock.cpp:17-34 | and so does every run |
| ReleaseConsistency.LockRunReachable | src/lib/dsm_lock.cpp:17-34 | runs stay among the reachable states, of which all that follows holds |
| ReleaseConsistency.MutualExclusion | src/lib/dsm_lock.cpp:22-30 | at most one node is between a successful test-and-set and its unlock |
| LockProgress.FreeLockIsTaken | src/lib/dsm_lock.cpp:22-30 | when nobody holds the lock, a node that can write the lock word takes it, and after the sync is in its critical section, alone |
| LockProgress.HeldLockIsRefused | src/lib/dsm_lock.cpp:22-26 | while somebody holds it, the exchange makes nobody a holder and leaves the word at 1 |
| LockProgress.HolderUnlocks | src/lib/dsm_lock.cpp:32-34 | a holder that can write the word unlocks, and then nobody holds the lock and the word is 0 |
| LockTrace.LockChangesHands | src/lib/dsm_lock.cpp:17-34 | a run in which two nodes hold the lock in turn, and the second loads what the first wrote under it |
| ReleaseConsistency.SeesReleasedWrites | src/lib/dsm_lock.cpp:27-30 | a node that has returned from lock loads, on every page below the total, contents with all writes made before the last unlock |
| ReleaseConsistency.EarlierUnlockVisible | src/lib/dsm_lock.cpp:27-34 | every write that precedes any unlock is in every later holder's loads, whatever lies between |
| ReleaseConsistency.ProtectedLoadsAreExact | src/lib/dsm_lock.cpp:27-34 | a holder's load of a word the lock protects returns the last value written to it in the whole cluster |
| ReleaseConsistency.OwnWritesSeen | src/lib/dsm_node.cpp:422-457 | a node's copy has all the writes the node made itself |
| ReleaseConsistency.WordUnchanged | src/lib/dsm_lock.cpp:27-34 | contents between which nobody wrote a word agree on the word |
| Rounds.SlotHoldsOnePage | src/lib/dsm_node.cpp:369-381 | a write round never gets a second page: when one arrives the slot is empty and no other reply carries one |
| Rounds.OwnerAnswers | src/lib/dsm_node.cpp:238-253 | a request to a node that owns the page throughout is not answered empty |
| Rounds.FailedRoundMissedOwner | src/lib/dsm_node.cpp:352-419 | a round fails only if no node owned the page from its start to its end |
| Rounds.RoundAdvances | src/lib/dsm_node.cpp:352-420 | every step of a round makes its outstanding work smaller or ends it |
| Rounds.RoundUntouched | src/lib/dsm_node.cpp:352-420 | no other step touches the round |
| Rounds.RoundTerminates | src/lib/dsm_node.cpp:386-398 | a round takes at most three steps a peer and two more |
| Rounds.RoundsProgress | src/lib/dsm_node.cpp:386-393 | while a round is under way some round can advance, unless a tracer is blocked for good |
| Rounds.WriteRoundsProgress | src/lib/dsm_node.cpp:433-444 | in particular when only write rounds reach their end: trylock and polling never block |
| Rounds.DeadlockStays | src/lib/dsm_node.cpp:446-457 | a tracer that waits for its mutex while the holder waits for it does so in every continuation |
| Rounds.ReadRoundEnds | src/lib/dsm_node.cpp:450-454 | a read round with its page can end exactly when the mutex is free, and otherwise never ends |
| Rounds.ReadInstalledOnce | src/lib/dsm_node.cpp:446-457 | over any run a node installs a page through the read path at most once, and not at all once it has had the page |
| Rounds.DeadlockArises | src/lib/dsm_node.cpp:262-290 | how it comes about: a read answer takes the mutex between the requester's install and its lock |
| Deadlock.DeadlockReachable | src/lib/dsm_node.cpp:446-457 | and it does come about: a reachable state of three nodes and two pages in which a tracer is blocked for good |
| Limits.LateReenable | src/lib/dsm_node.cpp:422-431 | the second half of re-enabling, when it comes late, keeps ownership unique exactly when the node still owns the page |
| Limits.ReenableRace | src/lib/dsm_node.cpp:422-431 | a reachable state of two nodes from which the request of the other node, coming between the halves, leaves two owners |
| Limits.AccessAfterSync | src/lib/dsm_lock.cpp:17-20 | after a sync a page is readable without a fault exactly when it is at or above the total and was readable |
| Limits.StaleAfterSync | src/lib/dsm_lock.cpp:17-20 | a run of eight steps after which such a page is read stale after a sync |
| Limits.StaleReachable | src/lib/dsm_lock.cpp:17-20 | the states of that run are reachable ones |
| Mailbox.StepInv | src/lib/user_mprotect.cpp:64-94 | posting field by field, reading, applying, completing and returning keep the record of what was posted, seen and served |
| Mailbox.ServedOnceBeforeReturn | src/lib/user_mprotect.cpp:106-130 | when a poster returns, every request posted has been served once, in order, and rightly exactly when the tracer read its last two fields after they were written or they were left over with the same values |
| Mailbox.PoliteServesAll | src/lib/user_mprotect.cpp:71-94 | a tracer that looks at full slots only serves exactly what was posted |
| Mailbox.EarlyTakeServesWrong | src/lib/user_mprotect.cpp:71-74 | a run from the start in which a tracer that looks at once makes no copy for a poster that asked for one, and lets it return |
| Mailbox.PosterIsServed | src/lib/user_mprotect.cpp:85-95 | from wherever a run has got, at most six useful steps remain until the waiting poster can return, one of them can always happen, and every one counts |
| Mailbox.MprotectRequest.Produce | src/lib/user_mprotect.cpp:64-74 | posting into an empty slot leaves exactly the request, marked incomplete |
| Mailbox.MprotectRequest.Respond | src/lib/user_mprotect.cpp:116-130 | an empty mailbox is left alone; otherwise its request is applied once and marked complete |
| Threads.StepPlaces | src/include/threadlib/schedulerState.h:57-167 | every step keeps every thread in the place its location names, without duplicates |
| Threads.StepGuard | src/include/threadlib/schedulerState.h:71-145 | the guard changes hands only where a section is entered or left |
| Threads.WakeAllMoves | src/include/threadlib/schedulerState.h:163-167 | waking all moves the whole wait queue, in order, behind the ready queue, and leaves every other queue alone |
| ThreadMutexes.StepMutexes | src/lib/threadlib/mutex.cpp:28-57 | every step keeps each mutex's account: arrivals are those who got it, the one on the way, and the queue, in order |
| ThreadLife.StepLives | src/lib/threadlib/thread.cpp:27-126 | every step keeps stack count, thread count and garbage in agreement |
| ThreadJoins.StepJoins | src/lib/threadlib/thread.cpp:118-126 | every step keeps joiners parked or their threads ended |
| ThreadRuns.RunInv | src/include/threadlib/schedulerState.h:71-167 | every state of every run, on any number of CPUs, satisfies all of these |
| ThreadRuns.GuardReleased | src/include/threadlib/schedulerState.h:71-98 | a CPU that holds the guard can always go on and gives it back within four steps |
| ThreadRuns.SecondHandlerIdle | src/lib/threadlib/cpu.cpp:86-94 | the scheduling loop's own call of the thread handler, outside the guard, has nothing to do |
| ThreadRuns.HandOff | src/lib/threadlib/mutex.cpp:28-57 | at most one holder, named by the fields; in use without an owner exactly while one woken waiter is on the way; waiters imply in use |
| ThreadRuns.NoBarging | src/lib/threadlib/mutex.cpp:28-41 | threads get the mutex in the order in which they came for it |
| ThreadRuns.UnlockRefused | src/lib/threadlib/mutex.cpp:47-50 | unlocking changes nothing exactly when the caller does not hold the mutex |
| ThreadRuns.UnlockHandsOver | src/lib/threadlib/mutex.cpp:51-56 | unlocking frees the mutex, or makes the oldest waiter its next holder and the last in the ready queue |
| ThreadRuns.ExactlyOnePlace | src/include/threadlib/schedulerState.h:57-167 | a thread that is not over is on one CPU, or once in the ready queue, or once in one wait queue; one that is over is nowhere |
| ThreadRuns.StacksConserved | src/include/threadlib/thread.h:43-53 | stacks handed out are those of unreclaimed threads and of constructors under way; a stack that comes back always finds room |
| ThreadRuns.ReclaimedOnce | src/lib/threadlib/cpu.cpp:32-41 | a thread is reclaimed by one step only: the landing that follows its end, on the CPU it has left |
| ThreadRuns.DeadReclaimed | src/lib/threadlib/cpu.cpp:121-126 | a thread that is over is reclaimed as soon as its CPU has landed on the next context |
| ThreadRuns.SharedFreedOnce | src/lib/threadlib/thread.cpp:44-46 | in every reachable state it has been freed once if both have let go of it, and else not; it says dead from the marking on |
| Handles.HandleGone | src/lib/threadlib/thread.cpp:107-112 | a handle has let go of the shared object exactly when the run has destroyed it |
| Handles.FreedByBoth | src/lib/threadlib/thread.cpp:107-112 | over any run the shared object has been freed once if the thread was marked dead and its handle destroyed, in either order, and otherwise not at all |
| ThreadRuns.JoinerAfterExit | src/lib/threadlib/thread.cpp:118-126 | a joiner goes on only after the joined thread's function is over |
| ThreadRuns.JoinExact | src/lib/threadlib/thread.cpp:118-126 | with one CPU a joiner is parked exactly as long as the thread has not ended |
| ThreadOrder.DispatchOrder | src/include/threadlib/schedulerState.h:57-63 | the context at depth k of the ready queue is dispatched after exactly k others, whatever is added meanwhile |
| ThreadOrder.WakeOrder | src/include/threadlib/waitable.h:20-41 | the same for every wait queue |
| Conditions.WaitIsAtomic | src/lib/threadlib/cv.cpp:13-29 | waiting gives up the mutex and joins the queue in one step, and fails without effect for anyone but the holder |
| Conditions.SignalWakesOldest | src/lib/threadlib/cv.cpp:38-46 | signal readies the oldest waiter and no other |
| Conditions.BroadcastWakesAll | src/lib/threadlib/cv.cpp:51-59 | broadcast readies all waiters, oldest first |
| Conditions.NoLostWakeup | src/lib/threadlib/cv.cpp:38-59 | a waiter with k others before it has been woken after more than k signals, or one broadcast |
| Conditions.WaitReturnsHolding | src/lib/threadlib/cv.cpp:28-33 | a thread comes back from wait to its own code only as the sole holder of the mutex |
| Conditions.JoinTooLate | src/lib/threadlib/thread.cpp:40-44 | a join parks behind a thread that never wakes it exactly when it comes between the waking of the joiners and the marking |
| Conditions.LostForever | src/lib/threadlib/thread.cpp:118-126 | and then it never returns |
| Conditions.JoinCanBeLost | src/lib/threadlib/thread.cpp:40-44 | a run on two CPUs in which that happens |
| ThreadCalls.MayEnter | src/include/threadlib/schedulerState.h:71-145 | with the guard free, any CPU can enter the section its context asks for, and an idle one the dispatch |
| ThreadCalls.QuitGoesTo | src/include/threadlib/schedulerState.h:89-98 | the end of a thread gives its CPU to the front of the ready queue, or to the main context when nobody is ready |
| ThreadCalls.LockTakesOrWaits | src/lib/threadlib/mutex.cpp:28-41 | a lock in use puts the caller last in the mutex's queue and the front of the ready queue on the CPU; a free one makes the caller the holder |
| ThreadCalls.UnlockReadies | src/lib/threadlib/mutex.cpp:47-57 | unlocking by the holder readies the oldest waiter or frees the mutex, and the caller goes on; by anybody else it changes nothing |
| ThreadCalls.WaitGoesTo | src/lib/threadlib/cv.cpp:13-29 | waiting gives the mutex up, puts the caller last in the queue, and whoever is then first ready on the CPU |
| ThreadCalls.JoinGoesTo | src/lib/threadlib/thread.cpp:118-126 | joining a living thread queues the caller and switches; joining a dead one does nothing |
| ThreadCalls.YieldGoesTo | src/include/threadlib/schedulerState.h:118-126 | yielding puts the caller last and the front of the ready queue on the CPU, and does nothing when nobody is ready |
| ThreadCalls.DispatchGoesTo | src/include/threadlib/schedulerState.h:71-84 | the scheduling loop puts the front of the ready queue on the CPU |
| ThreadCalls.CreateReadies | src/lib/threadlib/thread.cpp:88-101 | a new thread comes last in the ready queue, about to start, with its handle |
| ThreadCalls.FinishReadies | src/lib/threadlib/thread.cpp:39-42 | the end of a thread's function readies everybody who joined it, oldest first |
| ThreadCalls.LandingRun | src/include/threadlib/schedulerState.h:38-45 | after a switch, three steps lead out of the section: the resumed context holds the mutex it was parked for, relocks after a wait, or is in its own code; what ended there is reclaimed |
| ThreadCalls.LockingRun | src/lib/threadlib/mutex.cpp:62-69 | locking a free mutex is a call of three steps that ends with the caller as the only holder |
| ThreadCalls.FinishingRun | src/lib/threadlib/thread.cpp:39-42 | a thread whose function is over gets through waking its joiners |
| ThreadCalls.LeavingRun | src/lib/threadlib/thread.cpp:43-47 | and then marks itself dead and leaves its CPU for good |
| ThreadCalls.CreatingRun | src/lib/threadlib/thread.cpp:53-102 | while fewer than 40 stacks are out, a thread can be made |
| ThreadCalls.Dropping | src/lib/threadlib/thread.cpp:107-112 | a handle can be destroyed at any time, which frees the shared object exactly if the thread has ended |
| SectionCode.StepInv | src/include/threadlib/schedulerState.h:27-145 | every instruction of the code, whichever context runs it, does to the data what at most two steps of `Threads` do, and leaves each context where its code says |
| SectionCode.Refines | src/include/threadlib/schedulerState.h:27-145 | along every run of the code the data are the states of a run of `Threads` |
| SectionCode.CallEnters | src/include/threadlib/schedulerState.h:71-145 | any thread in its own code can make any call, and an idle CPU a dispatch; with the guard free it gets into the section |
| SectionCode.CallTakesStack | src/lib/threadlib/thread.cpp:59-60 | a call that makes a thread takes its stack first |
| SectionCode.GuardDiscipline | src/include/threadlib/schedulerState.h:71-145 | nobody ever frees the guard or switches without holding it, and the code ahead of each CPU takes and frees it in turn |
| SectionCode.ResumePoints | src/include/threadlib/schedulerState.h:38-45 | every parked context, wherever it was parked, resumes in the thread handler and has one release to make for the switch that resumes it |
| SectionCode.GuardBalance | src/include/threadlib/schedulerState.h:38-45 | over any run takes and releases balance on each CPU, and each switch is followed by exactly one run of the thread handler under the guard |
| SectionCode.GuardFreed | src/include/threadlib/schedulerState.h:71-145 | a CPU that holds the guard never waits and frees it in at most four instructions; other code waits for the guard or a stack only |
| Scheduler.SchedulerState.GetNext | src/include/threadlib/schedulerState.h:57-63 | takes the front of the ready queue |
| Scheduler.SchedulerState.WakeOne | src/include/threadlib/schedulerState.h:152-156 | moves the front of the wait queue, if any, behind the ready queue |
| Scheduler.SchedulerState.WakeAll | src/include/threadlib/schedulerState.h:163-167 | the draining loop moves all waiters in order |
| Scheduler.SchedulerState.WaitSelfOn | src/include/threadlib/schedulerState.h:134-145 | takes the next context, or the main one, and queues the current one: the state of the abstract step |
| Scheduler.SchedulerState.PutSelfInReady | src/include/threadlib/schedulerState.h:118-126 | the same for a yield, which does nothing when nobody is ready |
| Scheduler.SchedulerState.RunNextFromKernel | src/include/threadlib/schedulerState.h:71-84 | dispatches the front of the ready queue if there is one |
| Scheduler.SchedulerState.RunNextFromUser | src/include/threadlib/schedulerState.h:89-98 | leaves the current context for the next, or the main one |
| Scheduler.SchedulerState.Publish | src/lib/threadlib/thread.cpp:88-101 | a new thread gets the next id, and joins the end of the ready queue, as the abstract step |
| Scheduler.CpuState.TakeStack | src/lib/threadlib/thread.cpp:59-60 | a stack is popped from the pool unless all are out |
| Scheduler.Mutex.PrivilegedLock | src/lib/threadlib/mutex.cpp:28-41 | blocks exactly when the mutex is in use, and shows the state of the abstract lock step |
| Scheduler.Mutex.LockAcquired | src/lib/threadlib/mutex.cpp:34-39 | what follows, at once or after the switch back: in use, and owned by the current thread |
| Scheduler.Mutex.PrivilegedUnlock | src/lib/threadlib/mutex.cpp:47-57 | refused exactly for a non-owner; otherwise the state of the abstract release |
| Scheduler.ConditionVariable.Wait | src/lib/threadlib/cv.cpp:13-28 | unlock and queueing up to the switch, as the abstract step |
| Scheduler.ConditionVariable.Signal | src/lib/threadlib/cv.cpp:38-46 | carries out the abstract signal |
| Scheduler.ConditionVariable.Broadcast | src/lib/threadlib/cv.cpp:51-59 | carries out the abstract broadcast |
| Scheduler.CpuState.ThreadHandler | src/lib/threadlib/cpu.cpp:32-41 | takes the context that was left behind out of the thread ids and gives its stack back, and otherwise changes nothing |
| Scheduler.ThreadHandle.MarkDead | src/lib/threadlib/thread.cpp:43-46 | the end of a thread: garbage of its CPU, dead for its joiners, shared object freed if the handle is gone |
| Scheduler.ThreadHandle.Drop | src/lib/threadlib/thread.cpp:107-112 | the destructor: shared object freed if the thread is gone |
| Scheduler.ThreadHandle.Join | src/lib/threadlib/thread.cpp:118-126 | parks exactly when the thread is not dead |
| Allocator.InitWellFormed | src/lib/util/lin_allocator.cpp:33-40 | the region of 40960000 bytes as one free chunk is well formed |
| Allocator.LiveBlocksApart | src/lib/util/lin_allocator.cpp:30-57 | live blocks are aligned, inside the region, and do not overlap |
| Allocator.FirstFit | src/lib/util/lin_allocator.cpp:41-43 | the search gives the lowest free chunk that is large enough, and nothing exactly when there is none |
| Allocator.AllocBackLinks | src/lib/util/lin_allocator.cpp:44-51 | alloc as written keeps the back links exactly when it does not split a chunk that has a successor |
| Allocator.TakeWellFormed | src/lib/util/lin_allocator.cpp:44-54 | with the successor's back link set too, a split keeps the list well formed |
| Allocator.TakeAddsOneBlock | src/lib/util/lin_allocator.cpp:44-54 | alloc makes one more live block, as large as asked and at most 128 bytes larger, and leaves the others where they are |
| Allocator.AllocHandsOut | src/lib/util/lin_allocator.cpp:41-54 | byte for byte: the lowest free chunk with room is handed out; more than 128 bytes over become a free chunk behind it, fewer move no boundary |
| Allocator.FreeWellFormed | src/lib/util/lin_allocator.cpp:71-93 | dealloc from a well-formed list gives a well-formed list: merged with both neighbours, no two free chunks adjacent |
| Allocator.FreeGivesBack | src/lib/util/lin_allocator.cpp:71-93 | byte for byte: the chunk and its free neighbours become one free chunk, and nothing else changes but the link to it |
| Allocator.FreeUndoesAlloc | src/lib/util/lin_allocator.cpp:30-93 | dealloc right after alloc, both as written, restores the list: boundaries, flags and links |
| Allocator.FreeUndoesLinkedAlloc | src/lib/util/lin_allocator.cpp:30-93 | so it does when the split sets the successor's link |
| Allocator.FreeKeepsBlock | src/lib/util/lin_allocator.cpp:71-93 | dealloc leaves every other live block alone |
| Allocator.ReleaseIsFree | src/lib/util/lin_allocator.cpp:77-84 | on a well-formed list the back link leads to the chunk before |
| Allocator.ReleaseKeepsBlocks | src/lib/util/lin_allocator.cpp:77-84 | through whatever link a chunk has, dealloc takes live blocks of others with it exactly when the link leads to a free chunk with one in use between |
| Allocator.StaleLinkLosesBlock | src/lib/util/lin_allocator.cpp:44-51 | a run of alloc and dealloc as written that loses a live block |
| Allocator.PerformWellFormed | src/lib/util/lin_allocator.cpp:30-93 | one operation keeps the list well formed: as written exactly when it splits at the end only |
| Allocator.RunWellFormed | src/lib/util/lin_allocator.cpp:30-93 | and so does every such run, and every run with the link set |
| Allocator.RunKeepsBlock | src/lib/util/lin_allocator.cpp:30-93 | over such runs a live block stays where it is until it is freed |
| Heap.LinAllocator.Alloc | src/lib/util/lin_allocator.cpp:30-57 | on the headers: 0 exactly when no free chunk is large enough, otherwise the first one, split if more than 128 bytes are over |
| Heap.LinAllocator.Dealloc | src/lib/util/lin_allocator.cpp:71-93 | on the headers: the merges the list says, through whatever header the back link names, in the list or merged away |
| Heap.LinAllocator.Capacity | src/lib/util/lin_allocator.cpp:59-63 | the room behind a live block, 0 for a free one |
| ProbeTable.HomeOfCast | src/include/util/fixed_hashmap.hpp:26-28 | the cast of a negative key to unsigned does not change its home slot |
| ProbeTable.ProbeFindsAny | src/include/util/fixed_hashmap.hpp:45-53 | the wrap-around walk misses no slot |
| ProbeTable.InsertRefines | src/include/util/fixed_hashmap.hpp:41-56 | inserting an absent key extends the map, and fails exactly when the map is as large as the table |
| ProbeTable.GetRefines | src/include/util/fixed_hashmap.hpp:59-72 | get looks the map up, after any removals |
| ProbeTable.RemoveRefines | src/include/util/fixed_hashmap.hpp:75-90 | remove takes the key out of the map |
| ProbeTable.SubscriptExact | src/include/util/fixed_hashmap.hpp:93-113 | the subscript acts on the map exactly when no vacant slot lies between the key's home and its slot |
| ProbeTable.FillKeepsUnbroken | src/include/util/fixed_hashmap.hpp:41-56 | without removals no walk is ever broken |
| ProbeTable.OwnHomes | src/include/util/fixed_hashmap.hpp:75-113 | nor is it, removals included, for keys with home slots of their own |
| ProbeTable.InsertedAtHome | src/include/util/fixed_hashmap.hpp:41-56 | such keys are inserted at home |
| ProbeTable.RunRefines | src/include/util/fixed_hashmap.hpp:41-113 | over any run of insertions, removals, subscripts and assignments the table does what the map does, as long as no subscript meets a broken walk |
| ProbeTable.NoRemovalsWhole | src/include/util/fixed_hashmap.hpp:41-113 | runs without removals meet none |
| ProbeTable.OwnHomesWhole | src/include/util/fixed_hashmap.hpp:41-113 | nor do runs over keys with home slots of their own, removals included |
| ProbeTable.SubscriptLosesValue | src/include/util/fixed_hashmap.hpp:93-113 | two colliding insertions into the empty table and a removal, after which the subscript loses a value |
| ProbeTable.FixedHashTable.Walk | src/include/util/fixed_hashmap.hpp:45-53 | the do-while loop ends, and stops at the first slot the walk is for |
| ProbeTable.FixedHashTable.Insert | src/include/util/fixed_hashmap.hpp:41-56 | the table after an insertion |
| ProbeTable.FixedHashTable.Get | src/include/util/fixed_hashmap.hpp:59-72 | the value a lookup finds |
| ProbeTable.FixedHashTable.Remove | src/include/util/fixed_hashmap.hpp:75-90 | the table after a removal |
| ProbeTable.FixedHashTable.Subscript | src/include/util/fixed_hashmap.hpp:93-113 | the slot returned holds the key, unless the table is full of others |
| LinkedQueue.Queue.Enqueue | src/include/queue.hpp:35-44 | adds at the end |
| LinkedQueue.Queue.Dequeue | src/include/queue.hpp:47-58 | takes from the front, and is refused on an empty queue |
| LinkedQueue.Queue.Front | src/include/queue.hpp:61-66 | the first element, if any |
| LinkedQueue.Queue.Drain | src/include/queue.hpp:28-32 | the destructor's loop empties the queue |
| LinkedQueue.FirstInFirstOut | src/include/queue.hpp:35-58 | over any run, what came out and then what is left is what was there and then what was put in |
| LinkedQueue.DepthIsTurn | src/include/queue.hpp:47-58 | the element at depth k is the (k+1)-th to come out |
| StackPool.StacksDisjoint | src/include/threadlib/thread.h:35-42 | the stacks of the pool do not overlap |
| StackPool.Pool.Init | src/include/threadlib/thread.h:35-42 | the initialising loop puts 40 stacks of 250 pages in the pool, each once |
| StackPool.Pool.Push | src/include/threadlib/thread.h:43-46 | a stack comes back on top, unless the pool is full |
| StackPool.Pool.Pop | src/include/threadlib/thread.h:47-50 | the stack that came back last goes out first, and none from an empty pool |
| StackPool.Pool.Size | src/include/threadlib/thread.h:51-53 | the number of stacks that are out |

## Left out

- Stopping the child, injecting system calls, signals, `process_vm_*`: protecting and copying a page is one action
  of the tracer, carried out while the child is stopped.
- Remote calls, serialisation, threads of the operating system: a request is answered once, after any delay, and
  reliably.
- The spin loops of `dsm_mutex_lock` and `wait_to_compelete`, the endless loop of `cpu::run` and the polling loop of
  a round: they need not end, so each turn is a step of a machine.
- `DsmNode.ResponseRead` and the other methods of that class are one thread's view; their interleaving is in `Cluster`.
- The read of one byte of the first page at the end of `sync`; it is a load, after which the page may fault in.
- The eventual success of a fault: a page can be lost to other nodes again and again. A round always ends.
- `wr_mu`, the non-release-consistency branches, the unused `DSMNode::sync` and process states.
- The limit of four answering threads of the server; any number of answers may be in progress.
- Address arithmetic between addresses and page numbers, and the range check of the handler.
- `alloc_size`, which keeps the size in a `short`, and sizes that overflow when rounded.
- User data written over a header that was merged away: a back link to such a header finds it as it was left.
- The lock around the allocator's operations.
- Exhaustion of memory in constructors, and of the stack pool, on which the source ends the program.
- Interrupts, inter-processor interrupts and the list of CPUs, which have empty bodies.
- Mutexes and condition variables that are destroyed while threads wait on them.
- Scheduler.Mutex.PrivilegedLock: the class methods stop at a switch, because a change of stacks has no counterpart;
  what follows it is `LockAcquired`, and the machine of `Threads` joins the two.
- The return of contexts, wait queues and shared objects to the allocator, which is recorded and not carried out.
- The order of the statements within one guarded section: in `SectionCode` a section, up to its switch or its end, is
  one instruction; `Scheduler` has its statements.
