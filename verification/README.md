# Restaurant: proofs about the semaphore protocol

A restaurant is simulated by `n` group processes, a receptionist, a waiter and a chef. They share
memory and synchronise with counting semaphores only. This project models the program for any number
of groups `n`, any number of tables `T >= 1` and any `MAXGROUPS >= 3` with `n <= MAXGROUPS`
(the program ships with 2 tables and `MAXGROUPS` 16), and proves what every interleaving does.

## How it is built

* `Restaurant` is the program as a transition system. Every process has a location; each semaphore
  operation and each access to shared memory is one step; a `Down` is possible only on a positive
  semaphore. A run is the list of processes in the order in which the scheduler lets them step
  (`History.After`), and nothing is assumed about the scheduler.
* `History` folds a log over a run: what was sent and read, who was seated, who paid and where, which
  orders were told, cooked and delivered. The log never influences the steps.
* `Invariants` says what every reachable state satisfies, one predicate per concern (mutex, the two
  mailboxes, the receptionist's books, tables, payments, the order in flight, the waiter's queue,
  meals). `KeptByGroup`, `KeptByReceptionist`, `KeptByWaiter` and `KeptByChef` show that each process
  keeps all of it, `Reachable` puts the run together. `Seating` and `Kitchen` hold consequences that
  several proofs need.
* `Progress` and `Liveness`: no deadlock, and what a finished run has done. `Termination`: a weight that drops
  at each step, so every run has at most `151 n + 52` steps.
* `Safety`: what holds at every moment. `RoundRobin`: in which order tables are given out. `Requests`: the log's lists are
  the requests read, and published states match the requests sent. `Published`: what each process publishes where, and what may be
  concluded from it.
* `OwnReceipt`: a promise of the program's comments that does not hold in general (below).
* `Tables` and `Rings` hold the table bookkeeping and the circular buffers as functions. The transition system uses
  these functions for its steps; `ReceptionDesk` (bit mask, counter, cursor, circular waiting list) is the receptionist's
  imperative bookkeeping as a class whose methods are proved equal to the same functions. `WaiterDesk` is the
  waiter's circular queue and its loop, proved equal to a choice over the line of orders and the messages that arrive. `Safety.BookkeepingReady` shows that the protocol meets the receptionist's
  methods' preconditions whenever it gets to them, `Safety.QueueNeverOverflows` the waiter's.
* `EventLog` is the event ring behind deadlock reports, `SemaphoreLayout` the numbering of semaphores.

## Where comment and code disagree

The comment on `checkOutAtReception` (src/semSharedMemGroup.c:271-273) promises that a group leaves
after *its* payment has been acknowledged. The semaphore `tableDone[t]` is per table, not per
group, and the receptionist may seat the next group at `t` right after raising it. If the first payer is slow to
take its token, the next payer at `t` can take that token and leave before its own payment is
processed. `OwnReceipt.OwnReceiptIff` gives the exact condition: in every run groups publish LEAVING only after their own payment was processed, if and
only if `n <= T`. With more groups than tables `OwnReceipt.TooFewTables` produces a run that breaks the promise. What does
hold for all `n` and `T` is the count per table (`Safety.ReceiptsConserved`), and that is enough for deadlock freedom.

## Model

| member | source | states |
|---|---|---|
| Liveness.DeadlockFree | src/semSharedMemGroup.c:194-299 | after any run, for all n and T, some process can step unless all have finished |
| Liveness.RunsAreShort | src/semSharedMemWaiter.c:157-187 | every run, under any scheduler, ends within 151 n + 52 steps, including the waiter's unbounded-looking inner loop |
| Liveness.CanFinish | src/semSharedMemGroup.c:114-119 | every run can be extended to one in which all processes are past their loops |
| Liveness.MaximalRunServesAll | src/semSharedMemReceptionist.c:147-160 | a run that cannot go on has every group LEAVING, each seated, cooked for, served and charged exactly once; loop counts 2n, 2n and n are met, tables free, lists empty, all semaphores back at their initial values |
| Progress.StuckOnlyWhenDone | src/semSharedMemChef.c:108-114 | a state with the invariants in which nobody can step is one in which everybody is done |
| Termination.StepDrops | src/semSharedMemWaiter.c:113-124 | each step of each process lowers the weight of the remaining work |
| Reachable.RunKeeps | src/probSemSharedMemRestaurant.c:153-164 | every reachable state, from the initial semaphore values 1, 1, 1 and 0 elsewhere, satisfies all invariants |
| Reachable.InitialInv | src/probSemSharedMemRestaurant.c:101-108 | the state that main sets up satisfies them; the staff publish that they wait, groups GOTOREST, and nobody has a table |
| KeptByGroup.Kept | src/semSharedMemGroup.c:194-299 | a group's step keeps them |
| KeptByReceptionist.Kept | src/semSharedMemReceptionist.c:227-305 | a step of the receptionist keeps them |
| KeptByWaiter.Kept | src/semSharedMemWaiter.c:144-239 | a step of the waiter keeps them |
| KeptByChef.Kept | src/semSharedMemChef.c:133-178 | a step of the chef keeps them |
| Safety.MutualExclusion | src/semSharedMemGroup.c:196-199 | at most one process is between its down and its up of mutex, which is then 0 |
| Safety.MailboxesExact | src/semSharedMemReceptionist.c:237-239 | for both mailboxes, request + possible + writers and reader in between is 1, and what was read is what was written, in order, but for one pending request |
| Safety.TablesExclusive | src/semSharedMemReceptionist.c:65-76 | no table has two groups, a table is marked exactly when a group holds it, and the counter counts the marks |
| Safety.AtMostTablesDine | src/semSharedMemReceptionist.c:263-264 | at most T groups publish FOOD_REQUEST, WAIT_FOR_FOOD or EAT |
| Safety.SeatingIsFifo | src/semSharedMemReceptionist.c:205-216 | the groups seated are a prefix of the table requests read, without repetition |
| Safety.SeatingIsExact | src/semSharedMemReceptionist.c:260-270 | between requests the first min(requests, payments + T) groups are seated and the others wait, in order |
| Safety.ExactWait | src/semSharedMemReceptionist.c:298-304 | a group enqueued with k ahead of it is seated by exactly the (k+1)-th later payment |
| Safety.VacatedTableHandedOver | src/semSharedMemReceptionist.c:302-304 | the group taken off the waiting list gets the very table just paid for |
| Safety.WaitingListBounded | src/semSharedMemReceptionist.c:54-64 | at most max(0, n - T) groups are ever enqueued, the cursors never wrap, the list is the slots between them, and it stays within the overlaid array's bytes |
| Safety.ReceiptsConserved | src/semSharedMemReceptionist.c:291-300 | per table, tokens left + groups past their down + a token about to be raised = payments made there |
| Safety.QueueNeverOverflows | src/semSharedMemWaiter.c:147-179 | the waiter's T slots hold distinct seated groups waiting for an acknowledgement; there is a free slot at each push, and one to spare while an order is out |
| Safety.CookedInOrder | src/semSharedMemChef.c:143-145 | orders cooked, acknowledged and delivered are prefixes of the food requests read |
| Safety.OneOrderInFlight | src/semSharedMemWaiter.c:203-212 | foodGroup is not overwritten before the chef reads it, foodOrder is true from informChef to delivery, FOODREADY names the outstanding group |
| Safety.EatsOwnMeal | src/semSharedMemGroup.c:256-263 | a group publishes EAT only after its own order was cooked and delivered, and WAIT_FOR_FOOD only after it was acknowledged |
| Safety.TokensBelongToOccupant | src/semSharedMemGroup.c:231-236 | a requestReceived or foodArrived token at t is the single one meant for the group sitting there; both are 0 when t is given to a group |
| Safety.BookkeepingReady | src/semSharedMemReceptionist.c:283-305 | whenever the protocol gets to the bookkeeping its preconditions hold: payer seated at a marked table, tables full if anybody waits, a free list slot |
| Safety.NoBugBranch | src/semSharedMemReceptionist.c:293-296 | no BUG branch is reachable and every table looked up is a valid index |
| Published.PublishedStates | src/semSharedMemChef.c:161-171 | at every location of every process, what it publishes is determined: by its location for groups and chef, for the receptionist and the waiter also by the last thing done |
| Published.StaffStartsWaiting | src/probSemSharedMemRestaurant.c:101-103 | from the start the receptionist publishes WAITING until a request is dealt with, the waiter WAIT_FOR_REQUEST until an order is told, the chef WAIT_FOR_ORDER until one is cooked |
| Published.CooksForWaitingGroup | src/semSharedMemChef.c:156-178 | while the chef publishes COOK, foodOrder is true and the group in foodGroup is seated and publishes that it waits for food |
| Published.PayerChecksOut | src/semSharedMemReceptionist.c:285-291 | a payment is taken only from a group that holds a table and publishes CHECKOUT or LEAVING |
| OwnReceipt.OwnReceiptIff | src/semSharedMemGroup.c:271-293 | in every run groups publish LEAVING only after their own payment was processed, if and only if n <= T |
| OwnReceipt.EnoughTables | src/semSharedMemReceptionist.c:298-300 | with a table for every group, no group passes its down on tableDone before its own payment was processed |
| OwnReceipt.TooFewTables | src/semSharedMemReceptionist.c:300-304 | with fewer tables than groups a run exists in which a group publishes LEAVING before its own payment is processed |
| Tables.DecideIsFirstFree | src/semSharedMemReceptionist.c:178-195 | -1 iff all tables are occupied iff the counter is full, otherwise a free table such that all from the cursor up to it, going round past the last table, are occupied |
| Tables.OccupyConsistent | src/semSharedMemReceptionist.c:68-71 | marking a free table keeps counter and marks in agreement |
| Tables.VacateConsistent | src/semSharedMemReceptionist.c:72-75 | so does clearing an occupied one |
| RoundRobin.CursorFollowsSeating | src/semSharedMemReceptionist.c:71 | in every run the cursor is 0 before the first seating and then (last table given + 1) % T; payments leave it alone |
| RoundRobin.SeatingIsRoundRobin | src/semSharedMemReceptionist.c:260-265 | in every run a group decided on while a table is free gets the first free one from (last table given + 1) % T upwards, going round |
| RoundRobin.PaysWhereSeated | src/semSharedMemReceptionist.c:290-298 | a group has the table it was given until its payment, and that is the table paid for |
| Requests.LogsMatchReads | src/semSharedMemReceptionist.c:149-158 | the table, bill and food requests of the other laws are exactly those read from the mailboxes, in order; dishes come back in the order the chef was told |
| Requests.StatesMatchRequests | src/semSharedMemGroup.c:196-205 | a group publishing GOTOREST has asked for nothing, FOOD_REQUEST or later has a table, WAIT_FOR_FOOD or later has ordered, has sent a bill only in CHECKOUT or LEAVING, and LEAVING only after it |
| Rings.PushKeepsOrder | src/semSharedMemWaiter.c:177-179 | pushing into a ring with a free slot appends to the sequence it stores |
| Rings.PopKeepsOrder | src/semSharedMemWaiter.c:159-161 | popping removes the oldest |
| ReceptionDesk.MaskShift | src/semSharedMemReceptionist.c:65 | the bit of table t is 1 << t |
| ReceptionDesk.MarksChanged | src/semSharedMemReceptionist.c:69-73 | or-ing or clearing bit t of the status word changes the mark of table t and no other |
| ReceptionDesk.Receptionist.constructor | src/semSharedMemReceptionist.c:140-144 | all tables free, counter and cursor 0, waiting list empty |
| ReceptionDesk.Receptionist.IsTableOccupied | src/semSharedMemReceptionist.c:65 | the bit test reads the table's mark |
| ReceptionDesk.Receptionist.SetTableOccupied | src/semSharedMemReceptionist.c:66-76 | one mark changes, the counter by one; occupying table t sets the cursor to (t + 1) % tables, freeing leaves it |
| ReceptionDesk.Receptionist.DecideTableOrWait | src/semSharedMemReceptionist.c:178-195 | -1 iff every table is marked, otherwise the first free table upwards from the cursor, going round |
| ReceptionDesk.Receptionist.DecideNextGroup | src/semSharedMemReceptionist.c:205-216 | the circular list gives up its oldest group, or -1 and no change when empty |
| ReceptionDesk.Receptionist.ProvideTableOrWaitingRoom | src/semSharedMemReceptionist.c:260-270 | seated iff a table is free, at the first free one from the cursor, which moves behind it; otherwise appended to the line |
| ReceptionDesk.Receptionist.ReceivePayment | src/semSharedMemReceptionist.c:283-305 | the payer's table goes in the same call to the head of the line and the cursor behind it, else it becomes free and the cursor stays; an unseated payer changes nothing |
| WaiterDesk.ChooseAccounts | src/semSharedMemWaiter.c:157-187 | for every line, busy flag and batch of messages the outcome is the only one in which each order read is in the line or being served, once and in order, and the call ends for the right reason: order, dish, out of messages or wrong request |
| WaiterDesk.BusyWaitKeepsAll | src/semSharedMemWaiter.c:170-179 | a busy waiter that runs out of messages still has every order, in order |
| WaiterDesk.BusyServesDish | src/semSharedMemWaiter.c:171-181 | while the chef is busy all orders join the line and the first ready dish is served before them |
| WaiterDesk.IdleServesOldest | src/semSharedMemWaiter.c:158-161 | while the chef is idle the oldest order goes first and nothing is lost or overtaken |
| WaiterDesk.OrderQueue.WaitForClientOrChef | src/semSharedMemWaiter.c:144-190 | the loop over the circular queue does what the choice over the line and the messages says, including running dry and the wrong-request branch |
| EventLog.Clip | src/semDebug_sharedDataSync.h:44 | a reason is kept whole if shorter than 100 characters, else its first 99 are |
| EventLog.StoredAt | src/semDebug_sharedDataSync.h:36-47 | the slot k + 1 before next_slot holds the (k+1)-th last event, or is still unused |
| EventLog.FindNext | src/semDebug_sharedDataSync.h:57-66 | each slot visited adds the next of the last N events, or nothing |
| EventLog.WriteEvent | src/semDebug_sharedDataSync.h:36-47 | the history grows by the event, its reason cut to 99 characters |
| EventLog.GetAllEventsSorted | src/semDebug_sharedDataSync.h:49-70 | copies out exactly the last min(k, N) events, oldest first |
| EventLog.SemDownOrExit | src/semDebug.h:53-65 | the down is logged whether or not it then blocks |
| EventLog.SemUpOrExit | src/semDebug.h:67-79 | the up is logged and raises the semaphore |
| EventLog.ReportOfBlocked | src/semDebug.h:53-65 | after a down the last event reported is that down, so for a blocked process it is the one it is blocked on |
| SemaphoreLayout.LayoutIsBijection | src/sharedDataSync.h:64-76 | the layout is a bijection between roles and 1..SEM_NU, and the report's range tests invert it |
| SemaphoreLayout.RolesInOrder | src/semDebug_sharedDataSync.h:96-131 | indices 1 to 7 are the single semaphores in the documented order, then come n groups, and the tables' foodArrived, requestReceived and tableDone; 0 is the null bug and SEM_NU + 1 unknown |
| SemaphoreLayout.FillIds | src/probSemSharedMemRestaurant.c:136-143 | the loops store 8 + g, 8 + n + t, 8 + n + T + t and 8 + n + 2T + t |
| SemaphoreLayout.AssignIds | src/probSemSharedMemRestaurant.c:136-143 | every id that main stores decodes to its own role and offset |

## Left out

- Operating-system plumbing: fork, exec, wait, the timer process, kill, /proc checks and the reading of config.txt. It is assumed that n <= MAXGROUPS and that no process starts before the initial state is complete.
- The bodies of src/semaphore.c and src/sharedMemory.c: a down waits for a positive value and decrements, an up increments; failing system calls are not modelled.
- saveState, createLog and the log file: the receptionist's fields may change while another process writes a log line, so nothing is claimed about those lines.
- usleep, random times, cooking and eating times: any interleaving is allowed, which covers every timing.
- sleep(-1) after a BUG message is a location with no successor; it is proved unreachable.
- The four processes' main loops appear as locations of the transition system, not as imperative loops, because other processes step between any two of their instructions. A group's local `table`, declared anew in three functions, is one field.
- Integer widths: the protocol works on unbounded integers. The receptionist's class has the 32-bit mask and is stated for at most 31 tables and 128 groups, where `1 << t` and the one-byte fields are exact.
- groupRecord's own meaning (TOARRIVE, WAIT, ATTABLE, DONE): the program only zeroes it and uses the memory for the record laid over it.
- The report's text: labels, emoji, truncation of lines and get_semaphore_name's wording; only its classification of indices is modelled.
- EventLog.WriteEvent: a missing reason is the empty string before this point, as semdebug_logEvent makes it; the strings are characters, not bytes.
- Fairness: not needed, since every run is finite whatever the scheduler does.
