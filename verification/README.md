# Verification of the coseq scheduler

coseq runs sequences (fibers) on one thread per module. A module keeps an inbox that other threads post to
under a mutex; everything else it has is private: the live fibers, the table of requests that wait for a
reply, each fiber's queue of early replies, the owner of the lock, the events put off for that owner, the
notify registrations. A pass of the scheduler loop splices back the events put off, sleeps to the nearest
deadline, takes the whole inbox, fires due timers, handles each event and reaps finished fibers. This project
models that loop, the calls a sequence can make, and several modules posting to each other, and proves what
holds in every run.

`dafny verify dfyconfig.toml` checks it all.

## How it is built

**Values.** `Time`, `Pending`, `EventQueues` and `Registry` are the small algebras: deadlines, the table of
pending requests searched by 32-bit id, the three event lists, the notify list.

**The machine.** `Machine` is one module as a step machine. Its state is the fields of `module_t` and
`fiber_t`, a program counter for the scheduler loop, and histories that no step looks at. A step is what the
thread does between two points where control or the mutex changes hands; a fiber that has control may take
any API action, so that fiber bodies are arbitrary programs. Other threads post whenever they like.
`Invariant` and `Outcomes` hold the inductive invariants, `Frames` and `Steps` what each step leaves alone,
`Turns` what each of the scheduler's steps does, and `Runs`, `Calls`, `Sources`, `Timing`, `Scheduling`,
`Ordering`, `Locking`, `Collecting`, `Gathering` and `Returning` are the theorems about whole runs. `Scenarios` and
`OutOfOrder` have concrete runs for what does not hold.

**The instance.** `Worlds` puts any number of machines, the mailbox of `request_sync` and the counter for
client ids together, in any interleaving, and traces every delivered reply back to the fiber that made it.
`Delivery` is what is posted to whom. `Projection` shows that each module of an instance makes a run of its
machine, in which exactly what is posted to it comes in, so that the theorems about runs apply there.
`ClientIds` is about registrations in all modules.

**The code as it is written.** `Scheduler` has a class for the fiber and one for the module, changed field by
field as the C code does; each method is proved equal to the machine's step on what the objects hold.
`Pass` is the body of the scheduler loop over such an object, with its two inner loops, and proves that a
whole pass is a run of the machine and posts what that run posts, and that no run of the two loops is left
out. `Mailboxes` is the mailbox object of the threads outside, and what every call does to it. `Cells`, `EventLists`
and `LinkedLists` are the linked lists with their head and tail pointers and the removal through a pointer to a
pointer; `Payload` is the reused source buffer and the C++ loop that copies out of it.

## What is assumed

- Ids are named by serial numbers that are never reused; the code holds and compares the low 32 bits, and so
  do the model's searches (`Wire`). No id is allocated while one 2^32 allocations older is still pending or
  in flight: `Machine.MayAct` and `Worlds.WorldEnabled` say so. `Runs.StaleConfusedIff` says exactly when a
  comparison would go wrong without this.
- A sequence may return at any time. But `reap_done` (coseq/coseq.c:479-496) does not take a fiber's entries out of
  the table, so that one that returns with a request open may leave an entry that refers to a freed fiber. What the
  code does after that is not defined, and a run does not go on past such a reaper. If sequences return only with
  none of their requests in the table, which those do that have collected every reply they asked for, it never comes
  to that (`Returning.NothingLeftBehind`, `Returning.NothingLeftIfCollected`), and `Returning.ReturnSafeIff` shows that
  a caller with a request there cannot be sure. `Returning.ReaperIff` says for any run exactly when its reaper
  can go on, and `Scenarios.EntryLeftBehind` is a run whose reaper cannot.
- Where a theorem needs that notify handlers do not lock, or that locks are taken with nothing open (none of the
  caller's requests in the table), it says so in its `requires`. What happens otherwise:
  `Locking.OwnerLosesIff` and `Scenarios.HandlerBreaksExclusion` for handlers; `Locking.LockStrandsIff`,
  `Locking.LockFate` and `Scenarios.OwnerCanBeStranded` for locks.
- A request to an index that is no module is dropped (coseq/coseq.c:237-241) and its caller waits on, here too.
- Allocation succeeds, and one outside thread at a time is inside `request_sync`. The ids of calls from
  outside stay below the sentinel.

## Where code and documentation differ

- The header promises the sender's module in `thread_idx` (coseq/coseq_if.h:57). A reply that was queued
  before it was collected shows 0 there (coseq/coseq.c:691); the model does what the code does.
  `Collecting.ResponderShown` says for every run exactly which returns of `coseq_wait_reply` meet the promise, and
  `Scenarios.QueuedShownAsZero` is a run with one that does not. A blocking request meets it unless it times out
  (`Collecting.AnswererShown`).
- `nr_que_max` is stored (coseq/coseq.c:938) and never read: the inbox is unbounded, here too
  (`Scenarios.InboxUnbounded`).
- Replies are promised in the order of arrival (coseq/coseq_if.h:81-83, and README.md:222-223 of the repository).
  Under another fiber's lock that is not kept: events put off by a lock are spliced back only at the top of the
  loop, so that an unlock in the middle of a batch lets the rest of the batch pass them
  (`Scenarios.LaterEventPasses`), and a later reply can be collected before an earlier one
  (`OutOfOrder.LaterCollectedFirst`). `Ordering.PostOrderIff`, `Ordering.PassesIff` and
  `Ordering.ArrivalOrderIff` say exactly when order is kept: in the module, between two events, and for one fiber.

## Model

| member | source | states |
|---|---|---|
| Time.AddMsExact | coseq/coseq.c:217-225 | A normalised time stays normalised and gains exactly ms million nanoseconds, with one carry |
| Time.BeforeIsTotalOrder | coseq/coseq.c:226-229 | On normalised times the comparison is the order of total nanoseconds |
| Pending.FirstMatch | coseq/coseq.c:303-324 | Peeking and taking stop at the first entry with the wire id and take exactly that one out |
| Pending.TakeExact | coseq/coseq.c:303-324 | In a table without wire collisions an id is found exactly if it is there, and taking removes it and nothing else |
| Pending.TakeCount | coseq/coseq.c:311-324 | Taking lowers the count of the fiber that peeking names by one and of no other |
| EventQueues.PostKeeps | coseq/coseq.c:232-254 | An accepted event goes behind everything live; order, conservation and the rule on overtaking are kept |
| EventQueues.SpliceKeeps | coseq/coseq.c:507-514 | The splice leaves nothing put off, touches nothing but inbox and deferred, and moves no live event past another |
| EventQueues.DeferKeeps | coseq/coseq.c:281-289 | Putting an event off keeps the order of deferred, rest of batch, inbox |
| EventQueues.ConsumeKeeps | coseq/coseq.c:568-616 | Handling an event takes it out of the live ones and into the handled ones, once; who overtakes whom stays explained by locks |
| Invariant.StepInv | coseq/coseq.c:499-623 | Every step of scheduler, fibers and environment keeps the state invariant: accounting, wait flags, table, list, queues |
| Outcomes.StepHistory | coseq/coseq.c:435-477 | Every step keeps the history invariant: each id's stage, first handled reply, timeout and return fit together |
| Runs.RunSafe | coseq/coseq.c:499-623 | In every run every state satisfies both invariants and follows only live references |
| Turns.EnterIs | coseq/coseq.c:504-545 | The top of the loop: asked to stop it stops, and every event stays; with nothing to handle it sleeps; or else it takes, in order, what was put off (if nobody locks) and the whole inbox, and starts on the whole list of fibers |
| Turns.WakeIs | coseq/coseq.c:531-545 | The same from where the wait ends |
| Turns.TimerTurnIs | coseq/coseq.c:548-565 | A turn of the timer loop: the fiber whose time has come and whom no lock shuts out is resumed, with its flags cleared and, if it waits for a reply, the timeout under its own id shown and the entry gone; nothing else changes |
| Turns.EventTurnIs | coseq/coseq.c:568-616 | A turn of the event loop for each kind of event: under a lock a START, and a reply that is not the owner's, go to the end of what is put off and nothing else changes; or else a START of a known sequence or a notice begins a fiber that is shown every field of it; a reply completes, wakes or queues as its fiber waits, and is shown in every field |
| Turns.ReapIs | coseq/coseq.c:479-496 | The reaper: finished fibers go, the others stay as they are and in order, and a lock that one of them holds is cleared |
| Turns.StopIffAsked | coseq/coseq.c:864-880 | A module is marked to stop exactly by being asked, and that is not forgotten |
| Turns.StopsNext | coseq/coseq.c:531-541 | Once asked it stops the next time it comes to the top of its loop or out of its wait, with every unhandled event still there |
| Turns.StaysStopped | coseq/coseq.c:538-541 | It stops only if asked, and then does nothing any more |
| Turns.StartServed | coseq/coseq.c:568-594 | In every run a START that was handled was handled with nobody locking, and then began a fiber exactly if its sequence exists |
| Turns.HasItsTurn | coseq/coseq.c:567-616 | By the end of the event loop each event of the batch has had its turn, whatever the fibers do in between |
| Sources.SourceShown | coseq/coseq.c:751-754 | In every run what `coseq_source` shows is what the fiber's last waiting call returned and, before the first has returned, the event that started it, in all fields |
| Sources.ReturnShown | coseq/coseq.c:443-450 | In every run each return of a waiting call, blocking, direct, queued or timed out, shows the caller's own sequence and client 0 |
| Sources.RequestRead | coseq/coseq.c:582-594 | In every run of an instance a started sequence is shown requester, id and exactly the message that its requester issued to this module and sequence under that id |
| Runs.WakeSource | coseq/coseq.c:422-477 | Whenever the scheduler has control each unfinished fiber is in exactly one kind of wait and what can end it exists |
| Runs.NoDangling | coseq/coseq.c:422-496 | In every state of every run no lock owner or current fiber is gone and no entry refers to a fiber that is; a finished fiber is resumed by nobody, keeps its account, and is there only until the reaper |
| Returning.NothingLeftBehind | coseq/coseq.c:479-496 | If sequences return only with none of their requests in the table: every entry is that of an unfinished fiber, and the reaper always goes on, keeps the invariants and leaves no entry whose fiber is gone |
| Returning.NothingLeftIfCollected | coseq/coseq.c:479-496 | The same if sequences return when they have collected every reply they asked for |
| Returning.ReturnSafeIff | coseq/coseq.c:479-496 | A return leaves nothing behind, whatever is handled after it, exactly if none of the caller's requests is in the table |
| Returning.DanglesIff | coseq/coseq.c:479-496 | Reaping a finished fiber leaves an entry of it in the table exactly if more replies are outstanding than queued |
| Returning.DanglesFromReturn | coseq/coseq.c:435-496 | A sequence that returns at any time: an entry of it stays in the table when it is freed exactly if fewer replies to it are handled up to the reaper than it had entries when it returned |
| Returning.ReapIff | coseq/coseq.c:479-496 | The reaper leaves no reference to a freed fiber exactly if no finished fiber has more replies outstanding than queued |
| Returning.ReaperIff | coseq/coseq.c:479-496 | Any run can go past its reaper exactly if each sequence that returned since the last reaping has had as many replies handled since as it left requests in the table |
| Returning.FinishedReturned | coseq/coseq.c:376-381 | Every finished fiber has made a return since the last reaping |
| Scenarios.EntryLeftBehind | coseq/coseq.c:479-496 | A run that comes to the reaper with a request of a finished fiber in the table: the entry stays and its fiber is gone |
| Runs.AccountingInRuns | coseq/coseq.c:663-704 | The counter of outstanding replies is the number of distinct ids in table, queue and hand, which are disjoint |
| Runs.ExactlyOnce | coseq/coseq.c:627-650 | No id is returned twice; each return carries the first handled reply to its own id or its own timeout; ids of plain sends are never returned |
| Runs.BlockingReturn | coseq/coseq.c:647-650 | Coming back from a blocking call completes the id the fiber is parked on, which had no return before |
| Calls.BlockingCall | coseq/coseq.c:627-660 | A request and the return that answers it: the return is under the id that this request allocated, its only one, with the outcome of that id; without a time limit it is the first reply handled for it and never a timeout |
| Runs.StaleReplyDropped | coseq/coseq.c:435-442 | A late or duplicate reply completes, wakes and queues onto nothing, by 32-bit comparison |
| Runs.StaleConfusedIff | coseq/coseq.c:303-310 | Outside the window a stale id is taken for another exactly if an open id is a multiple of 2^32 away |
| Runs.CompletionsGrow | coseq/coseq.c:627-704 | Returns are never taken back |
| Collecting.ResponderShown | coseq/coseq.c:435-477 | In every run and for every reply a collector is given: it is shown the module that made it exactly if the reply never lay in a queue or came from module 0 |
| Collecting.AnswererShown | coseq/coseq.c:435-450 | In every run a blocking request is shown the module that made the first handled reply, and 0 if it times out |
| Collecting.CollectedAreReturns | coseq/coseq.c:678-704 | What a fiber is recorded to have collected is what `coseq_wait_reply` returned to it, each once, in this order |
| Scenarios.QueuedShownAsZero | coseq/coseq.c:678-704 | A run in which a reply made by module 1 is collected from the queue and shown as coming from module 0 |
| Scheduling.NearestIsLeast | coseq/coseq.c:516-529 | The scan finds the least deadline of the timers that may fire, and none only if there is none |
| Scheduling.SleepsOnlyIdle | coseq/coseq.c:507-541 | It goes to sleep exactly if there is no event it may handle and no stop request, and then nothing can be done: no event but those put off for a live owner, nobody to reap, and the wake time is the least eligible deadline |
| Scheduling.TimerFiresIff | coseq/coseq.c:548-565 | A turn resumes its fiber exactly if it is due and not shut out by the lock; a reply wait then ends as timed out and leaves the table |
| Timing.NeverEarly | coseq/coseq.c:548-565 | From a call of `coseq_wait_timeout` or `coseq_request_timeout` to its return: a delay is over, and a timeout returned, only in a timer pass whose clock is at least that of the call plus the milliseconds asked for |
| Scheduling.TimerPassVisitsAll | coseq/coseq.c:548-565 | A timer pass visits each fiber of an unchanging list once, in order |
| Scheduling.DueFires | coseq/coseq.c:548-565 | From start to end of a timer pass every fiber has its turn, by the clock the pass began with, and is resumed at it exactly if it is then due and not shut out by the lock |
| Scheduling.CollectionOrder | coseq/coseq.c:678-704 | A fiber gets its asynchronous replies in the order the scheduler handled them, queued or not |
| Scheduling.EventsConserved | coseq/coseq.c:507-545 | Every accepted event is in exactly one place; order survives deferral; at stop inbox and deferred are what is left |
| Ordering.PostOrderIff | coseq/coseq.c:568-616 | In every run a module keeps the order of posting exactly if it never handles an event while another is put off |
| Ordering.PlacesIff | coseq/coseq.c:568-616 | Keeping that order means: the k-th event handled is the k-th accepted and the rest wait in order behind |
| Ordering.PostOrderWithoutLocks | coseq/coseq.c:568-616 | A module that never locks handles events in exactly the order of posting |
| Ordering.PassesIff | coseq/coseq.c:568-616 | Of two handled events the later handled had come first exactly if it was among those put off when the other was handled |
| Ordering.ArrivalOrderIff | coseq/coseq.c:678-704 | A fiber gets its asynchronous replies in the order of arrival exactly if none of them is handled while another of them is put off |
| Ordering.CollectionIsArrivalOrder | coseq/coseq.c:678-704 | So it does in every run in which nothing is handled while something is put off |
| Scenarios.LaterEventPasses | coseq/coseq.c:842-853 | A run in which an unlock in the middle of a batch lets a later event be handled, with nobody locking, while an earlier one is still put off |
| OutOfOrder.LaterCollectedFirst | coseq/coseq.c:678-704 | A run in which a fiber is given a later reply before an earlier one, which was put off for another fiber's lock |
| Scenarios.InboxUnbounded | coseq/coseq.c:232-254 | For every n a run has n events in its inbox |
| Locking.ResumeUnderLock | coseq/coseq.c:568-616 | While another fiber holds the lock a resume can only start a notify handler |
| Locking.OwnerStays | coseq/coseq.c:842-853 | The lock leaves its owner only by its unlock or its reaping, if handlers do not lock |
| Locking.OwnerLosesIff | coseq/coseq.c:842-853 | Without that assumption: it does so exactly by those two or by another sequence's lock call |
| Locking.LockExclusion | coseq/coseq.c:548-616 | From lock to release, over any passes, only the owner or a handler in its first run is ever running |
| Scenarios.HandlerBreaksExclusion | coseq/coseq.c:605-616 | A run in which a handler locks beside an owner that never lets go, and a sequence that is no handler then runs beside that owner |
| Locking.LockStrandsIff | coseq/coseq.c:842-846 | A caller can lock without stranding itself, whatever has been put off, exactly if none of its requests is in the table |
| Locking.AllCollected | coseq/coseq.c:842-846 | None is there if the caller has collected every reply it asked for, which it can tell |
| Locking.LockFate | coseq/coseq.c:568-616 | From the call of lock to any later state before the release: what was put off then is still put off and unhandled, and no later reply to an open id of the owner is ever put off |
| Locking.OwnerNeverStarved | coseq/coseq.c:572-579 | If locks are taken with nothing open, no reply to an owner is ever among the events put off |
| Locking.OwnerReplyHandled | coseq/coseq.c:572-575 | A reply the owner waits for is handled in its turn and wakes the owner or queues for it |
| Locking.OwnerServedInBatch | coseq/coseq.c:568-579 | A reply the owner waits for is handled in the batch that contains it: if the lock is held to the end of the event loop it is handled there and not put off |
| Scenarios.OwnerCanBeStranded | coseq/coseq.c:568-616 | A run that ends with the owner parked in `coseq_wait_reply`, its only open reply arrived and put off for its own lock |
| Gathering.GatherKeepsLedger | coseq/coseq.c:718-728 | While a fiber gathers, what it has been given and what is outstanding always make up what was outstanding |
| Gathering.GatherExact | coseq/coseq.c:718-728 | When gathering ends each outstanding id was collected exactly once with its first handled reply, and nothing is outstanding |
| Gathering.GatherReturns | coseq/coseq.c:718-728 | The loop of `coseq_gather` counts as many returns as were outstanding, and is handed each of those ids exactly once with its first handled reply |
| Gathering.GatherInOrder | coseq/coseq.c:678-728 | What gathering gives is handled replies at increasing places of the handling order |
| Worlds.BoxFillsIff | coseq/coseq.c:353-374 | A reply gets into the mailbox exactly if it answers the call in progress |
| Delivery.BoxStep | coseq/coseq.c:353-374 | What every step does to the mailbox: a call opens it for its id, an answer to the call in progress fills it, its return hands out what is in it and closes it, and nothing else touches it |
| Mailboxes.MailboxObj.Deliver | coseq/coseq.c:353-374 | The box is filled as the instance says |
| Mailboxes.MailboxObj.Open | coseq/coseq.c:985-997 | A call from outside gets the next id, posts its START under it and makes the box wait for it |
| Mailboxes.MailboxObj.Close | coseq/coseq.c:998-1027 | What the call returns is its own id and target with the result and message in the box, which then waits for nobody |
| Mailboxes.PerformAll | coseq/coseq.c:627-853 | Any API call with all its effects on the objects: module, postings and mailbox are as after the step of machine and instance |
| Mailboxes.BoxOfPosts | coseq/coseq.c:730-740 | A step does to the mailbox what handing over its replies to outside threads does |
| Worlds.WorldStepOk | coseq/coseq.c:232-254 | Every step of an instance keeps the provenance of everything queued, started, answered and handled |
| Delivery.Delivered | coseq/coseq.c:232-254 | After any step of an instance each module is as after its own part of it, with all that the step posts to that module, and nothing else, at the end of its inbox in the order of posting |
| Delivery.RequestReaches | coseq/coseq.c:627-715 | A request of any kind puts into the inbox of the module it names, and of no other, one START under its new id with the caller's module, the sequence and the message |
| Delivery.ReplyReaches | coseq/coseq.c:730-740 | A reply puts into the inbox of the module whose request it answers, and of no other, one REPLY under that request's id |
| Delivery.NoticesReach | coseq/coseq.c:819-839 | Publishing puts into each inbox one notice per registration of that module for the category, in the order of the list |
| Delivery.CallReaches | coseq/coseq.c:985-1036 | A call from outside puts one START under a fresh id into the inbox of the module it names, and of no other |
| Delivery.NothingElsePosted | coseq/coseq.c:627-853 | No other step puts anything into an inbox |
| Worlds.ReplyProvenance | coseq/coseq.c:730-740 | Every reply returned in a module was made by the fiber that the START of that very request started |
| Worlds.SyncProvenance | coseq/coseq.c:985-1027 | `request_sync` returns only a reply made by the fiber its own call started; between calls the mailbox is empty |
| Delivery.SyncReturns | coseq/coseq.c:985-1027 | In every run `request_sync` returns under the id its own call was given, once, with the last answer made to that id before it returns |
| Projection.ModuleRuns | coseq/coseq.c:232-254 | Each module of an instance runs as the single machine, and the steps of that run are exactly its own, in their order, and after each step of the instance the arrival of every event posted to it, in the order of posting |
| Registry.RemovedFirst | coseq/coseq.c:803-817 | Unregistering removes the first match in place |
| Registry.RemovesOne | coseq/coseq.c:803-817 | It removes exactly one registration, or none if none matches |
| Registry.OneNoticeEach | coseq/coseq.c:819-839 | Publishing posts exactly one event per registration of the category, with its listener and client id |
| Registry.NoticesInOrder | coseq/coseq.c:819-839 | They are posted in the order of the list of registrations |
| ClientIds.RegistryStep | coseq/coseq.c:770-817 | Of all steps only registering and unregistering change a module's registry, each as specified; a fiber started from outside registers nothing |
| ClientIds.NthGiven | coseq/coseq.c:781-784 | The n-th registration in an instance gets the id n modulo 255 |
| ClientIds.IdsDistinct | coseq/coseq.c:775-784 | Any 255 ids given in a row differ and none is 0xff; the next is the first again |
| ClientIds.SenderByClientId | coseq/coseq.c:775-784 | Up to 255 registrations, those standing in all modules have different ids |
| Scheduler.FiberObj.Accept | coseq/coseq.c:435-477 | A reply completes the blocked request, wakes the collector or is queued, and the fiber then holds what the machine says |
| Scheduler.ModuleObj.PendingPeek | coseq/coseq.c:303-310 | The search loop finds what the table function finds |
| Scheduler.ModuleObj.PendingTake | coseq/coseq.c:311-324 | The removal loop takes out what the table function takes out |
| Scheduler.ModuleObj.HandleReply | coseq/coseq.c:435-477 | The whole module changes as the machine's reply handling says |
| Scheduler.ModuleObj.SpawnFiber | coseq/coseq.c:383-420 | A new fiber is linked in front and gets control |
| Scheduler.ModuleObj.NearestDeadline | coseq/coseq.c:516-529 | The scanning loop computes the specified nearest deadline |
| Scheduler.ModuleObj.EnterPass | coseq/coseq.c:504-545 | Splice, wait decision and taking the inbox are one machine step |
| Scheduler.ModuleObj.TimerTurn | coseq/coseq.c:548-565 | The body of the timer loop is one machine step |
| Scheduler.ModuleObj.EventTurn | coseq/coseq.c:568-616 | The body of the event loop is one machine step |
| Scheduler.ModuleObj.ReapDone | coseq/coseq.c:479-496 | Reaping keeps the unfinished fibers in order and clears a dead owner's lock |
| Scheduler.ModuleObj.RequestCommon | coseq/coseq.c:627-645 | Id, table entry, wait flags and the posted START are as the machine says, up to the yield |
| Scheduler.ModuleObj.RequestAsync | coseq/coseq.c:663-674 | Likewise for an asynchronous request, which posts under the id it returns |
| Scheduler.ModuleObj.Send | coseq/coseq.c:707-715 | A plain send allocates and posts an id and enters nothing in the table |
| Scheduler.ModuleObj.WaitReply | coseq/coseq.c:678-704 | It returns nothing, the oldest queued reply, or yields, as the machine says |
| Scheduler.ModuleObj.Reply | coseq/coseq.c:730-740 | One reply under the id that started the fiber: posted to the module that asked, or handed to the mailbox for a thread outside |
| Scheduler.ModuleObj.WaitTimeout | coseq/coseq.c:742-750 | It sets the deadline and yields |
| Scheduler.ModuleObj.UnregNotify | coseq/coseq.c:803-817 | The loop removes the first match and reports whether there was one |
| Scheduler.ModuleObj.Notify | coseq/coseq.c:819-839 | The loop posts exactly the specified notices |
| Pass.Perform | coseq/coseq.c:627-853 | Any API call changes the object as the machine's action does and posts what that posts, a reply to an outside thread included |
| Pass.TimerLoop | coseq/coseq.c:548-565 | The timer loop with arbitrary programs in between does the planned turns of the machine |
| Pass.EventLoop | coseq/coseq.c:568-616 | Likewise the event loop, to the end of the batch |
| Pass.RunPass | coseq/coseq.c:547-619 | Both loops and the reaper end in the state, and post the events, that the machine's turns give |
| Pass.SchedLoopBody | coseq/coseq.c:504-619 | One round of the loop from its top does so too, or waits or stops as the machine does |
| Pass.AfterWaitBody | coseq/coseq.c:531-619 | The same from where the wait ends |
| Pass.RoundIsRun | coseq/coseq.c:504-619 | Such a round is up to its reaper a run of the machine that keeps the invariants, whatever the sequences do, and to its end if the reaper leaves no entry of a freed fiber |
| Pass.CleanRoundIsRun | coseq/coseq.c:504-619 | A round in which sequences return with nothing open is a run to its end |
| Pass.RunHasPlan | coseq/coseq.c:547-616 | Conversely every run of the two loops, whatever the fibers do, is one the methods can make |
| EventLists.EvList.Append | coseq/coseq.c:246-251 | Appending through the tail pointer adds the node at the end and keeps the list well formed |
| EventLists.EvList.Prepend | coseq/coseq.c:507-514 | The splice by one link and two pointers is concatenation in front |
| EventLists.Lists.Post | coseq/coseq.c:232-254 | Posting on linked lists is posting on sequences; the lists stay disjoint |
| EventLists.Lists.Splice | coseq/coseq.c:507-514 | Likewise the splice |
| EventLists.Lists.TakeBatch | coseq/coseq.c:543-545 | Likewise taking the inbox |
| EventLists.Lists.Defer | coseq/coseq.c:281-289 | Likewise relinking a node of the batch while the rest of the batch waits |
| EventLists.Lists.Consume | coseq/coseq.c:610-614 | Leaving a handled node behind is the sequence operation |
| EventLists.Lists.Drain | coseq/coseq.c:568-616 | The walk over the linked batch, whichever of its events are put off, is the walk over the sequence, though nodes are relinked under way |
| EventLists.DrainedKeeps | coseq/coseq.c:568-616 | Such a walk loses nothing, puts what is put off behind what was put off before, handles the rest, and keeps order and the rule on overtaking |
| LinkedLists.List.Push | coseq/coseq.c:292-302 | The new node goes in front and the others stay as they are |
| LinkedLists.List.RemoveFirst | coseq/coseq.c:311-324 | Removal through the pointer to the pointer takes out the first match and nothing else |
| LinkedLists.List.RemoveAll | coseq/coseq.c:479-496 | Removal of every match keeps the others in order and tells whether the marked one was among them |
| LinkedLists.PendingAdd | coseq/coseq.c:292-302 | On the linked table: the new id is found from now on as its fiber, every other id as before |
| LinkedLists.PendingTake | coseq/coseq.c:311-324 | On the linked table it is the table function, and returns what peeking returns |
| LinkedLists.RegNotify | coseq/coseq.c:770-801 | On the linked registry: an outside caller registers nothing and takes no id; any other gets the next id, never 0xff, in front |
| LinkedLists.UnregNotify | coseq/coseq.c:803-817 | On the linked registry it is the specified removal |
| LinkedLists.ReapList | coseq/coseq.c:479-496 | On the linked fibers it leaves the unfinished ones in order and clears the lock of a finished owner |
| LinkedLists.FilterIsAlive | coseq/coseq.c:479-496 | Dropping the finished fibers one by one is the filter the machine's reaping uses |
| Payload.SourceBuf.Set | coseq/coseq.c:327-350 | The source shows all that was set, exact bytes included; capacity never shrinks, and the buffer is kept if the message fits |
| Payload.GatherAll | coseqpp/coseqpp_if.h:119-135 | Each copy keeps its own reply's id, result and bytes, in order, though every wait overwrites the source |
| Payload.GatherAllInRun | coseqpp/coseqpp_if.h:119-135 | In any run of the machine: one copy for each request outstanding at the call, under its id, with the first reply handled for it, in handling order |

## Left out

- Runs.NoDangling: of what comes after a reaper that leaves a reference to a freed fiber it says nothing, since the code's behaviour is undefined there; `Returning` says exactly when that is.
- Payload.GatherAll: the replies that the waits show are a parameter; `Payload.GatherAllInRun` is about the replies of a run.
- Context switching: a resume hands control to an abstract fiber program and a yield is its return; `getcontext`, stacks, `g_start` and `fiber_entry` are not part of this model.
- Threads and time: a mutex section is one step, a condition wait may end at any time, the clock is an input.
- Allocation failure: the branches that log and drop or truncate.
- Teardown, setup and `pthread_create` rollback: only the initial state and the stop flag are there; what teardown frees is stated as what is live at stop.
- Signed overflow of `async_outstanding`: the counter is unbounded.
- Concurrent allocation of client ids: the counter is shared without a lock (coseq/coseq.c:781-784); a registration is one step here.
- Several outside threads in `request_sync` at once: they share one mailbox; one call at a time is modelled.
- Fibers as pointers: `ModuleObj` refers to fibers by keys that are never reused, so a freed address that is allocated again is not modelled.
- Delivery to the mailbox inside `Pass`: its methods collect what is posted, replies to outside threads included, and `Mailboxes.DeliverAll` hands those over afterwards.
- Posting inside a step: what a call posts is delivered together with the call, so `coseq_notify` posts all its notices at once.
- Arrivals inside `Pass`: its methods are one thread's code between two waits; what other threads post meanwhile goes to the inbox, which the loops do not read, and is covered by the machine's runs.
- Linked lists inside `ModuleObj`: it holds sequences; the linked forms are proved equal to the same functions on their own.
- The reply queue's nodes and the source buffer inside `FiberObj`: the payload is a sequence of bytes there; `Payload` has the buffer.
- Logging, names, user data, and the C++ wrapper other than `gather_all`.
