# Verification of the hosting control plane

A Dafny model of the parts of the repository where state, time or concurrency make mistakes easy:
the capacity ledger and everything that moves it (reservation, purchase, deletion, migration, drain,
drift repair), the billing lifecycle, the `server.properties` editor, and three smaller stateful
pieces (alerts, backup schedules, the console stream).  `dafny verify dfyconfig.toml` checks all of it.

## Layout

| files | what they hold |
|---|---|
| Wrappers, Division, Resources, Scheduler, Ledger | optional values; integer division; resource vectors and sums over holders; node rows, candidates and the choice rule; the tables and every database transaction as a function on them |
| Panel, Rest, Placement, Witnesses | the operations as methods that update the tables in place, run from start to end with the answers of the agents given; what holds of the tables at rest; which node the score prefers, said of how full the nodes would be; concrete tables on which a law fails |
| RowLocks, LockTheorems, LockLedger, Deadlock, Grants, LockRace | the same transactions at the level of single row locks and their modes: no oversell, commits that do what the ledger says and an account of whole runs, when there can be a deadlock, exact grant counts, and a run that goes wrong without the locks |
| Fleet, FleetSafety, FleetTheorems, FleetOrders, FleetJobs, FleetWorlds, FleetDrain | any number of purchases, deletions and migrations interleaved transaction by transaction and agent call by agent call, each of which may fail; the order rows of purchases, the job rows of migrations, the copies of worlds that are left; a drain beside all of it |
| Calendar, CalendarLaws, Billing, BillingSafety | UTC dates as ECMAScript computes them, and the calendar in closed form; invoices, payments and the worker's pass as methods; what each pass and payment keeps |
| BillingRuns, BillingNotice, BillingTheorems, BillingLimits | whole runs and what holds on all of them; notice before deletion; debts on runs with passes in time; the exact limits of the guarantees |
| Properties, PropertyLaws, GameSettings | reader and editor of the text; the laws between them; fields, values and the write |
| Alerts, Schedules, Console | alert passes and notifications; when a schedule fires; lines out of chunks |

## How the model reads the source

- Ids are row numbers and the order by id is the order of rows; a deleted row leaves a gap.  Memory and
  disk are integers, CPU and scores are reals.
- An agent call, a port claim, a reservation or the switch of a migration may fail at any point, and an agent
  call that fails may have had its effect.  In `Panel` and `Billing` scripts say which do.  Plain database
  writes succeed.  In particular nothing between the switch of a migration and its completion fails, which is
  where the source would enter the unwind with the switch already committed
  (`apps/panel/src/lib/migration.ts:140-156`).
- Operations on the same server do not overlap (`LockLedger.Apart` says it of transactions); operations on different
  ones interleave freely.  Purchases of one order may overlap in `Fleet`;
  `FleetOrders` says what holds when they do not, and what happens when they do.
- Amounts asked for are positive in every dimension, as the plan form requires
  (`apps/panel/src/app/api/admin/plans/route.ts:22-25`); node totals do not change during a run.
- In the interleaving model migrations have no explicit target, as when a node is drained.  Migration with
  an explicit target is modelled in `Panel` and `Rest`, where its failure is stated exactly.
- Row locks have the modes PostgreSQL gives them, the key share that a foreign key takes included
  (`Server.nodeId`, `prisma/schema.prisma:215`).
- Invoices are issued, paid and passed over atomically on a clock that never goes back.  A server's first
  invoice is issued before a pass has billed it; `BillingLimits.FirstInvoiceRace` shows what happens otherwise.
  Beyond that a theorem names the runs it is about: whether passes come at most a given time apart, whether no
  invoice is paid a second time under a new reference, and whether the stop calls of a pass may end with an error
  that is not the agent's.  For one unpaid invoice, for notice before deletion and for nothing running free
  `BillingLimits` has the exact condition on the settings, the time between passes and the stop calls, with the
  run that breaks each, and for a second payment the run it goes wrong on.

## Where the code does less than it means to

Each is stated and proved as the code behaves.

- A switch to a node with a higher id can deadlock with a purchase: `apps/panel/src/lib/migration.ts:120-134`
  writes the server row, which shares the target's key, before it locks the source, and the candidate SELECT
  locks the two the other way round.  No run has a deadlock if and only if every switch goes to a lower id
  (`Deadlock.DeadlockFreeExactly`).
- A migration to an explicit target that was not reserved is unwound as if it had been: the catch block
  releases the amount on a node that never held it.  The tables are wrong afterwards exactly when the target is
  another node than the server's, has a server on it, and is not the one the scheduler would choose or the
  reservation fails (`Panel.Panel.MigrateServer`, `Witnesses.PhantomWitness`); a caller is safe from that whatever
  happens exactly with no explicit target, with the server's own node, or with one nobody is on
  (`Rest.SafeTargets`).
- An explicit target is accepted only if the scheduler would have chosen it anyway
  (`Panel.Panel.ReserveTarget`).
- A best node without a free port is chosen again on all three attempts of a purchase: nothing is built and the
  order fails exactly when in each of the three rounds the reservation fails or the best node has no port,
  whatever other candidates have (`Panel.Panel.ProvisionServer`, `Witnesses.NoPortWitness`).
- A rollback makes no delete call, so a build whose call fails after it had its effect leaves a container behind
  (`FleetWorlds.BuildLeavesCopy`); nothing else does while delete calls work (`FleetWorlds.WorldsFollowRows`).
- Two purchases of one order at once deliver two servers, and the order names the second
  (`FleetOrders.TwoForOne`).
- Recalculation makes a node's counters right exactly when nothing is being deleted from it and nothing is
  migrating to it (`Ledger.RecalculateExact`).
- At most one unpaid invoice per server holds on every run with some time between passes exactly when the grace
  and the retention are less than 28 days together, or no stop call breaks and the grace and that time are; with
  daily passes and no such break that is a grace of at most 26 days, or of 27 without retention
  (`BillingLimits.OneUnpaidExactly`, `BillingLimits.DailyPasses`).
- No deletion without an earlier suspension holds exactly when passes are no further apart than the retention and
  no stop call breaks (`BillingLimits.NoticeExactly`).  A server whose stop call breaks stays active with an
  overdue invoice: job 2 never looks at that invoice again, and job 3 deletes the server for it
  (`Billing.Office.SuspendOverdue`, `BillingLimits.DeletedUnseen`).
- With more than 28 days between passes a server that has paid all it owed can be deleted by the next pass
  (`BillingLimits.DeletedThoughPaid`).
- A pass leaves no active server without an invoice for the moment exactly when the grace is under 28 days,
  and the grace and the retention together if stop calls may break (`BillingLimits.NothingRunsFreeExactly`).
- Paying a paid invoice under a new reference reactivates a server that still owes
  (`BillingLimits.PaidTwice`, `BillingLimits.PaidTwiceHappens`).
- An edit of a key that the file has twice is not seen by the reader (`PropertyLaws.EditLaw`,
  `PropertyLaws.EditNotSeen`).
- The removal of colour codes can leave one: a code inside another goes, and what is around it closes up to a code
  (`Console.CodeInCode`).  An escape character is left exactly if it started no code (`Console.EscapesLeftExactly`).
- The alerts of a deleted node stay open until acknowledged (`Alerts.DeletedNodeLingers`).
- A schedule moved to a minute just after a run misses that day (`Schedules.MovedTooSoon`).

## Model

| member | source | states |
|---|---|---|
| Scheduler.CandidateHasTotals | apps/panel/src/lib/scheduler.ts:61-66 | the score never divides by zero: a candidate has a positive total in every dimension |
| Scheduler.BestIsUnique | apps/panel/src/lib/scheduler.ts:123-130 | location preference, score and row order determine one node |
| Placement.ScoreIsBurden | apps/panel/src/lib/scheduler.ts:61-73 | the score is twice the burden: the larger of the fullest used fraction after placing and of twice the mean less the emptiest |
| Placement.BestIsLeastBurdened | apps/panel/src/lib/scheduler.ts:123-130 | the choice is the least burdened node of the pool, whose used fractions are overhead, reserved and asked for over total; the lowest row of several |
| Placement.LighterIsPreferred | apps/panel/src/lib/scheduler.ts:57-73 | a node that would be fuller than another of the pool by as much in every dimension is never chosen |
| Placement.EvenIsPreferred | apps/panel/src/lib/scheduler.ts:57-73 | nor is one that would be unevenly full where another would be as full on the whole, and evenly |
| Panel.SelectCandidates | apps/panel/src/lib/scheduler.ts:95-119 | the SELECT returns exactly the candidates, in ascending id order |
| Panel.SelectPool | apps/panel/src/lib/scheduler.ts:123-127 | the pool is the candidates in the preferred location, or all of them if there is none there |
| Panel.Choose | apps/panel/src/lib/scheduler.ts:128-130 | the reduce finds the least burdened node of the pool, the earliest row among equals: burden is the fullest of the three used fractions after placing, or twice their mean less the emptiest if that is more |
| Panel.Panel.ReserveCapacity | apps/panel/src/lib/scheduler.ts:81-164 | the chosen node is the least burdened one of the pool and only its counters grow, by the amount; refused exactly when no node is a candidate; when the transaction ends with another error nothing has changed |
| Panel.Panel.ReleaseCapacity | apps/panel/src/lib/scheduler.ts:170-183 | every counter that has room for it falls by the amount, one that has not falls to zero; no other field and no other node changes |
| Ledger.ReleaseUndoesReserve | apps/panel/src/lib/scheduler.ts:166-183 | a release gives back exactly what a reservation took |
| Panel.Panel.ClaimAllocation | apps/panel/src/lib/scheduler.ts:189-210 | the free port with the lowest number on the node becomes owned and primary; none is claimed exactly when none is free |
| Panel.Panel.PlaceServer | apps/panel/src/lib/provisioning.ts:58-92 | the purchase transaction: reservation, server row, port and order together, or nothing, for want of a candidate, of a port or of the order, or with an error of its own |
| Panel.Panel.UnplaceServer | apps/panel/src/lib/provisioning.ts:152-167 | the rollback transaction |
| Ledger.PlaceKeepsBooks | apps/panel/src/lib/scheduler.ts:132-156 | writing the row and charging the node together keeps every counter equal to its holders and within capacity |
| Ledger.EraseKeepsBooks | apps/panel/src/lib/provisioning.ts:210-218 | deleting a row and releasing its amount keeps every counter equal to its holders |
| Ledger.TakeTargetKeepsBooks | apps/panel/src/lib/migration.ts:39-55 | reserving a target and naming it in the job row keeps the books, the migration becoming a holder |
| Ledger.DischargeKeepsBooks | apps/panel/src/lib/migration.ts:156-165 | releasing the target when the migration gives it up keeps the books |
| Ledger.SwitchKeepsBooks | apps/panel/src/lib/migration.ts:120-134 | at the switch the target passes from the migration to the row and the source is released; the books are kept on both |
| Ledger.ServerIsCovered | apps/panel/src/lib/scheduler.ts:175-182 | a server's amount never exceeds the counters of its node, so its release is not clamped |
| Ledger.InFlightIsCovered | apps/panel/src/lib/scheduler.ts:175-182 | the same for the reservation a migration holds on its target |
| Ledger.ZeroIffEmpty | apps/panel/src/lib/migration.ts:178-181 | with nothing in flight the counters are zero exactly when no server is on the node |
| Ledger.UnplaceUndoesPlace | apps/panel/src/lib/provisioning.ts:149-167 | a rollback undoes a placement exactly on nodes, ports and servers, and puts the order back to pending |
| Ledger.RecalculateExact | apps/panel/src/lib/scheduler.ts:212-230 | recalculation restores the right counters from any drift if and only if nothing is being deleted from the node and nothing migrates to it; no other node changes |
| Ledger.RecalculateSettles | apps/worker/src/reconciler.ts:76-98 | on a node whose counters are right the compare-and-recalculate is a no-op in exactly the same cases |
| Panel.Panel.Aggregate | apps/worker/src/reconciler.ts:71-75 | the sum over the rows of the node that are not being deleted |
| Panel.Panel.ReconcileNode | apps/worker/src/reconciler.ts:76-98 | the counters become the recalculated ones, and drift is reported exactly when they differed |
| Panel.Panel.ReconcileFleet | apps/worker/src/reconciler.ts:71-98 | after one pass every reporting node is recalculated and no other has changed; the count is that of the nodes that had drifted |
| Panel.Panel.TryPlacement | apps/panel/src/lib/provisioning.ts:58-98 | one attempt: a placement on the best node not yet tried, no capacity exactly when there is no candidate, or an aborted transaction, always so when the reservation fails |
| Panel.Panel.Settle | apps/panel/src/lib/provisioning.ts:122-167 | a successful build completes the row, a failed one leaves nothing but a deleted row |
| Panel.Panel.Rounds | apps/panel/src/lib/provisioning.ts:47-169 | at most three rounds on pairwise different nodes; none places anything exactly when in each the reservation fails or the best node has no free port |
| Panel.Panel.Attempts | apps/panel/src/lib/provisioning.ts:47-182 | the loop, the tables and the order it leaves, for every pattern of reservation and agent failures: at most three nodes, pairwise different, each in the preferred location if any node there could host it; delivered, the order is provisioned with the server; out of attempts, it is failed without one, and nothing was ever placed if and only if in each round the reservation failed or the best node had no free port; no other order changes |
| Panel.Panel.ProvisionServer | apps/panel/src/lib/provisioning.ts:33-183 | for every pattern of reservation and agent failures: one server with one port and one reservation on a node that can host it, and an order provisioned with its id; or the tables as before but for deleted rows, and an order failed without a server, or as it was, or pending without one after a rollback; no other order changes; all attempts are used up without a placement if and only if in each the reservation fails or the best node has no free port |
| Panel.Panel.DeleteServer | apps/panel/src/lib/provisioning.ts:185-218 | row, ports and reservation go together whatever the agent answers, and no other row changes; an unknown server changes nothing |
| Rest.BuiltKeepsRest | apps/panel/src/lib/provisioning.ts:93-148 | a delivered purchase leaves the tables at rest: conserved, bounded, every server with exactly one port |
| Rest.UnbuiltKeepsRest | apps/panel/src/lib/provisioning.ts:149-167 | so does any number of rolled-back attempts |
| Rest.RollBackLeaves | apps/panel/src/lib/provisioning.ts:149-167 | after k+1 rollbacks the tables are the first ones with k+1 deleted rows |
| Witnesses.NoPortWitness | apps/panel/src/lib/provisioning.ts:58-92 | a fleet whose best node has no free port while another candidate has one |
| Rest.EraseKeepsRest | apps/panel/src/lib/provisioning.ts:210-218 | a deletion leaves the tables at rest |
| Panel.Panel.ReserveTarget | apps/panel/src/lib/migration.ts:37-55 | the target is the best node and the job names it; an explicit target is taken exactly when it is the best node and the transaction does not fail |
| Placement.MoveSuits | apps/panel/src/lib/migration.ts:39-47 | a migration reserves on another node than the server's that can host it, in the server's location if any such node is there and no target was named |
| Placement.TargetIsBestExactly | apps/panel/src/lib/migration.ts:39-51 | a named target is the one reserved if and only if it can host the server and is the least burdened of all nodes that can, whatever their location |
| Panel.Panel.Transfer | apps/panel/src/lib/migration.ts:57-116 | stop, archive, claim, create, restore, and the switch: gets through exactly when nothing fails and the target has a free port |
| Panel.Panel.UnwindMove | apps/panel/src/lib/migration.ts:153-173 | the catch block gives back what the job row names as target, and nothing when it names none |
| Panel.Panel.SwitchServer | apps/panel/src/lib/migration.ts:118-134 | the switch transaction |
| Panel.Panel.CarryOver | apps/panel/src/lib/migration.ts:57-175 | from the reservation on: moved with everything, or the tables as before but for the job row |
| Panel.Panel.MoveServer | apps/panel/src/lib/migration.ts:24-175 | the body of a migration with every outcome and the exact tables it leaves; a reservation is on the best node, and on the explicit target if there is one; none is kept only if the scheduler chose otherwise or the reservation failed |
| Panel.Panel.MigrateServer | apps/panel/src/lib/migration.ts:14-176 | all-target or all-source, the row, its ports and one job row with how it ended, and nothing else but the counters; the target is another node that can host the server and, unless it was named, is in its location whenever such a node there exists; the tables are at rest afterwards if and only if the call is not for an explicit target on another node in use that is not the best one or whose reservation fails |
| Rest.MovedKeepsRest | apps/panel/src/lib/migration.ts:118-142 | a completed migration leaves the tables at rest |
| Rest.MoveUndoneKeepsRest | apps/panel/src/lib/migration.ts:153-175 | a failed migration does, if and only if it does not release what was never reserved on a node in use |
| Rest.SafeTargets | apps/panel/src/lib/migration.ts:24-31 | at rest under every outcome if and only if there is no explicit target, it is the server's own node, or nobody is on it |
| Witnesses.PhantomWitness | apps/panel/src/lib/migration.ts:153-173 | tables at rest and a migration after which they are not: to a node that is not the best one, and to the best one when the reservation fails |
| Rest.RowsDetermineCounters | apps/panel/src/lib/scheduler.ts:212-215 | at rest the server rows determine every counter |
| Panel.Panel.ServersOn | apps/panel/src/lib/migration.ts:181 | the ids of the servers on the node, each once |
| Panel.Panel.MoveAll | apps/panel/src/lib/migration.ts:183-190 | the drain loop: each server left the node exactly when its result is no error |
| Panel.Panel.DrainNode | apps/panel/src/lib/migration.ts:179-200 | the servers left are exactly those reported with an error, the counters are their sum, and zero exactly when there is no error |
| RowLocks.StepKeepsInv | apps/panel/src/lib/scheduler.ts:91-164 | the invariant of the lock-level machine is inductive: locks exclude each other by mode, every transaction asks for the locks its code asks for, room is behind every pending update (what commits do is `LockLedger.CommitIsLedgers`) |
| LockTheorems.NoOversell | apps/panel/src/lib/scheduler.ts:132-144 | no interleaving oversells a node, with or without the candidate locks |
| LockTheorems.GuardNeverFails | apps/panel/src/lib/scheduler.ts:132-144 | with the candidate locks the guarded UPDATE always finds room: the second NoCapacityError is unreachable |
| LockTheorems.GrantIsAtomic | apps/panel/src/lib/scheduler.ts:154-157 | a committed reservation is one step that was possible at its commit: a candidate node and a free port |
| LockTheorems.PortsAreNotShared | apps/panel/src/lib/scheduler.ts:185-200 | a claimed port is free until commit and is claimed by one transaction only |
| LockLedger.CommitIsLedgers | apps/panel/src/lib/scheduler.ts:132-183 | on every run, at lock level, with one transaction per server at a time: a commit does to counters and ports exactly what the transaction of the ledger does; a release gives back the amount on its node and the ports of its server, of a switch only those on the source |
| LockLedger.Account | apps/panel/src/lib/scheduler.ts:132-183 | on every run that starts with counters covering what is to be released: what a node had reserved, with all that was granted on it, is what it has reserved with all that was released |
| Deadlock.ReleaseAscends | apps/panel/src/lib/migration.ts:120-134 | of the three releasing transactions, rollback and deletion lock in ascending order, and a switch if and only if it goes to a lower id |
| Deadlock.ChainAscends | apps/panel/src/lib/scheduler.ts:117-118 | while every switch goes to a lower id, the rows waited for strictly ascend along a chain of waits |
| Deadlock.NoWaitCycle | apps/panel/src/lib/scheduler.ts:95-119 | on such runs no state has a cycle of waits |
| Deadlock.SomeoneRuns | apps/panel/src/lib/scheduler.ts:95-119 | following the waits from any unfinished transaction leads to one that does not wait |
| Deadlock.Progress | apps/panel/src/lib/scheduler.ts:91-164 | on such runs, while a transaction is unfinished, some transaction can go on without giving up |
| Deadlock.SwitchUpDeadlocks | apps/panel/src/lib/migration.ts:120-134 | a run in which a switch to a higher id and a purchase with both nodes as candidates wait for each other for ever |
| Deadlock.DeadlockFreeExactly | apps/panel/src/lib/migration.ts:120-134 | no run has a deadlock, and none gets stuck, if and only if every switch that may happen goes to a lower id |
| LockTheorems.ActUsesUp | apps/panel/src/lib/scheduler.ts:91-164 | every act strictly lowers what its transaction has left |
| LockTheorems.RunsEnd | apps/panel/src/lib/scheduler.ts:91-164 | every run is at most as long as a bound fixed at its start |
| Grants.SlotsAreQuotients | apps/panel/src/lib/scheduler.ts:114-116 | the number of reservations that fit a node is the least of the quotients of free and requested |
| Grants.GrantCounting | apps/panel/src/lib/scheduler.ts:132-157 | a commit turns one free slot into one grant, whichever node was chosen |
| Grants.ExactGrants | apps/panel/src/lib/scheduler.ts:81-164 | n identical concurrent reservations: exactly the smaller of n and the number of slots are granted, the rest refused, on every interleaving |
| Grants.TenIntoEight | tests/scheduler.test.ts:66-87 | ten purchases into room for eight grant eight |
| LockRace.LocksAreNeeded | apps/panel/src/lib/scheduler.ts:93-118 | a run without the candidate locks in which a buyer is refused although a node has room |
| FleetSafety.StepKeepsInv | apps/panel/src/lib/provisioning.ts:33-183 | every transaction and agent call of every purchase, deletion and migration, failed or not, keeps the fleet invariant |
| FleetTheorems.Conservation | apps/panel/src/lib/scheduler.ts:132-183 | in every reachable state each counter is the sum of the rows on the node and the migrations holding it as target, and fits |
| FleetTheorems.ReturnedIsHeld | apps/panel/src/lib/scheduler.ts:166-183 | whatever a step releases is the charge of a live row or of a migration |
| FleetTheorems.ClampNeverFires | apps/panel/src/lib/scheduler.ts:175-182 | no release in any run is clamped |
| FleetTheorems.PortOwnership | apps/panel/src/lib/scheduler.ts:185-210 | every live server owns exactly one port on its node and at most one on the node it moves to; primary if and only if owned |
| FleetTheorems.PortsAreHandedOverFree | apps/panel/src/lib/scheduler.ts:194-208 | no step passes a port from one server to another |
| FleetTheorems.ServerStaysWhole | apps/panel/src/lib/migration.ts:36-142 | throughout a migration the node named by the row holds the reservation and a complete copy of the world |
| FleetTheorems.JobNamesTheReservation | apps/panel/src/lib/migration.ts:52-56 | the job row names another node exactly while a reservation is held there |
| FleetWorlds.WorldsFollowRows | apps/panel/src/lib/provisioning.ts:149-218 | on every run on which each delete call to an agent works and no failed build has had its effect: the world of a server that nothing is working on is on the node of its row and nowhere else, and a row that is gone has left none |
| FleetWorlds.BuildLeavesCopy | apps/panel/src/lib/provisioning.ts:149-167 | a build that fails after it had its effect leaves a copy on its node that no row stands for |
| FleetTheorems.MigrationEnds | apps/panel/src/lib/migration.ts:136-174 | a migration ends all-target with a job that is completed, or all-source with one that is rolled back: row, port, world and reservation |
| FleetJobs.JobShowsPhase | apps/panel/src/lib/migration.ts:24-142 | in every reachable state the job row names the server, its source, and the status of the step the migration is at; completed or rolled back only at its end |
| FleetJobs.JobEnds | apps/panel/src/lib/migration.ts:136-174 | the last step writes completed or rolled back into its own job row and changes no other |
| FleetTheorems.PurchaseIsAllOrNothing | apps/panel/src/lib/provisioning.ts:51-182 | no row of a purchase exists while it is between attempts or has failed; a delivered row has the size of the plan |
| FleetOrders.OrderFollowsPurchase | apps/panel/src/lib/provisioning.ts:81-92 | the order names the server from the placement on, none between attempts, and no other purchase is for it |
| FleetOrders.PurchaseWritesOrder | apps/panel/src/lib/provisioning.ts:81-182 | what each step of a purchase writes into its order: provisioned with the server at the placement, pending without one at a rollback, failed without one when all attempts are used up, nothing at a refusal or a working build; no step changes another order |
| FleetOrders.TwoForOne | apps/panel/src/lib/provisioning.ts:41-92 | two purchases of one order at once: both deliver, and the order names only the second server |
| FleetOrders.TwoForOneHappens | apps/panel/src/lib/provisioning.ts:41-92 | a fleet at rest on which that happens |
| FleetTheorems.BuildsOnDistinctNodes | apps/panel/src/lib/provisioning.ts:47-66 | a purchase builds on at most three nodes, all different |
| FleetTheorems.RunWhileDisabled | apps/panel/src/lib/migration.ts:179-181 | while a node is disabled no continuation puts a server on it |
| FleetTheorems.DrainEmpties | apps/panel/src/lib/migration.ts:178-200 | once disabled and with no migration under way to it, a node holds exactly what has not left, zero exactly when all have, amid any other operations |
| FleetDrain.OthersKeepDrain | apps/panel/src/lib/migration.ts:183-190 | no step of any other operation upsets what a drain under way knows: who is still there is to come or reported, and who is reported as moved is not there |
| FleetDrain.DrainReports | apps/panel/src/lib/migration.ts:178-200 | a drain beside any other operations: one result for each server it found, in order; a result is no error if and only if that migration took the switch; those reported as moved are gone from the node, those still there are reported with an error, and the counters are theirs, zero if there was no error |
| Calendar.NextMonth | apps/panel/src/lib/billing.ts:40-41 | setUTCMonth by one adds exactly the days of the month one is in, also when the date overflows the next month (`CalendarLaws.SetToNextMonth` says which date that is) |
| Calendar.LaterDate | apps/panel/src/lib/billing.ts:43-44 | setUTCDate past the end of the month adds whole days |
| CalendarLaws.YearStartClosed | apps/panel/src/lib/billing.ts:40-41 | the days before a year are 365 for each earlier one and one for each of these that 4 divides, less those that 100 divides, and those that 400 divides |
| CalendarLaws.FirstOfClosed | apps/panel/src/lib/billing.ts:40-41 | the day number of the first of every month, by the 153 days of any five months from March on |
| CalendarLaws.DateOfDay | apps/panel/src/lib/billing.ts:40-44 | year, month and date read off a day are its date by these closed forms |
| CalendarLaws.OneDate | apps/panel/src/lib/billing.ts:40-44 | and the only one |
| CalendarLaws.Epoch | apps/panel/src/lib/billing.ts:38-44 | 1 January 1970 is day 719528 |
| CalendarLaws.SetToNextMonth | apps/panel/src/lib/billing.ts:40-41 | setUTCMonth by one gives the same date of the next month, or as many days into the one after as the next month is too short, at the same time of day |
| Billing.EndOf | apps/panel/src/lib/billing.ts:40-41 | a period ends 28 to 31 days after its start; `Billing.EndsNextMonth` says on which date |
| Billing.EndsNextMonth | apps/panel/src/lib/billing.ts:40-41 | a period ends on the date of its start in the next month, at the same time of day, past the end of that month by as many days as it is too short |
| Billing.DueOf | apps/panel/src/lib/billing.ts:43-44 | an invoice is due the grace after its start |
| Billing.LatestUpto | apps/panel/src/lib/billing.ts:151-156 | the latest end among the invoices of a server, none exactly when there are none |
| Billing.Where | apps/panel/src/lib/billing.ts:145-152 | the rows a query returns: exactly those that satisfy it, once each, in order |
| Billing.Office.CreateInvoiceForServer | apps/panel/src/lib/billing.ts:34-59 | one invoice more, for a period from the start to that date of the next month, or none for an unknown server |
| Billing.Office.FindByRef | apps/panel/src/lib/billing.ts:65-67 | finds an invoice with the payment reference exactly when there is one |
| Billing.Office.MarkInvoicePaid | apps/panel/src/lib/billing.ts:65-87 | a known reference changes nothing; a new one pays the invoice and reactivates its server |
| Billing.Office.SuspendServer | apps/panel/src/lib/billing.ts:90-119 | suspends an active server unless the stop call ends in an error that is not the agent's; the outcome says which; nothing else changes |
| Billing.Office.ReactivateServer | apps/panel/src/lib/billing.ts:121-127 | the server is active afterwards; nothing else about it or any other server changes |
| Billing.Office.DeleteServer | apps/panel/src/lib/billing.ts:177-182 | the row goes and its invoices lose their reference |
| Billing.Office.Renew | apps/panel/src/lib/billing.ts:142-161 | one invoice for each server that is due and for no other |
| Billing.Office.SuspendOverdue | apps/panel/src/lib/billing.ts:163-173 | exactly the late open invoices become overdue; exactly the servers of those whose stop call did not break are suspended |
| Billing.Office.ReclaimAbandoned | apps/panel/src/lib/billing.ts:175-192 | exactly the servers with an invoice overdue beyond the window are deleted |
| Billing.Office.RunBillingCycle | apps/panel/src/lib/billing.ts:135-193 | the three jobs in order, with their counts and the exact tables they leave, however the stop calls end |
| BillingSafety.StartIsLatest | apps/panel/src/lib/billing.ts:153-156 | a new period starts at the latest end, or now for the first one, never before the server nor in the future |
| BillingSafety.AddingTiles | apps/panel/src/lib/billing.ts:139-158 | a new invoice continues the chain of periods |
| BillingSafety.PassKeepsTiles | apps/panel/src/lib/billing.ts:135-193 | whatever the settings, the time since the pass before and the stop calls that break, a pass continues the chain of periods |
| BillingSafety.PassBills | apps/panel/src/lib/billing.ts:145-173 | with a grace under 28 days, counting the retention if a stop call breaks, an active server has an invoice for the moment of the pass |
| BillingSafety.ReclaimSpares | apps/panel/src/lib/billing.ts:175-192 | reclaim deletes a server or leaves it as it was, with nothing overdue beyond the window |
| BillingRuns.PeriodsAreMonths | apps/panel/src/lib/billing.ts:40-41 | on every run every period ends on the date of its start in the next month, as the calendar has it |
| BillingRuns.PeriodsTileTime | apps/panel/src/lib/billing.ts:153-156 | on every run, with any settings, passes, broken stop calls and payments, each moment from the first start to the latest end is billed by exactly one invoice |
| BillingRuns.NothingRunsFree | apps/panel/src/lib/billing.ts:139-158 | on every run, with such a grace, an active server has an invoice for the moment of each pass |
| BillingRuns.StepKeepsTiles | apps/panel/src/lib/billing.ts:135-193 | every event keeps the chain of periods of every server |
| BillingNotice.PassKeepsWatched | apps/panel/src/lib/billing.ts:135-193 | for all settings, gaps and stop calls a pass keeps what the next one will need to know of a server: nothing overdue that no pass tried to suspend for, nothing open late, nothing overdue beyond the window |
| BillingNotice.StepKeepsWatched | apps/panel/src/lib/billing.ts:135-193 | so does every other event |
| BillingNotice.DeletedWasTried | apps/panel/src/lib/billing.ts:175-182 | with passes no further apart than the retention, a pass deletes only a server that an earlier pass has tried to suspend |
| BillingNotice.DeletedHadNotice | apps/panel/src/lib/billing.ts:163-182 | as long as no stop call breaks, that pass has suspended it |
| BillingNotice.DeletedWasOverdue | apps/panel/src/lib/billing.ts:175-182 | with passes no more than 28 days apart, too, the server has an invoice beyond the window that was overdue before the pass |
| BillingTheorems.DueOwesNothing | apps/panel/src/lib/billing.ts:145-152 | when grace and gap are less than 28 days, a server whose overdue invoices suspend it owes nothing when it is due for renewal |
| BillingTheorems.DebtIsReclaimed | apps/panel/src/lib/billing.ts:145-182 | when grace and retention are less than 28 days, a server renewed while it owes is deleted in the same pass |
| BillingTheorems.PassKeepsDebts | apps/panel/src/lib/billing.ts:135-193 | with settings that are tight for the gap and the stop calls, a pass leaves no server with two unpaid invoices |
| BillingTheorems.StepKeepsGood | apps/panel/src/lib/billing.ts:135-193 | arrivals, first invoices, passes, payments and cancellations keep the invariant of the whole table |
| BillingTheorems.OneUnpaid | apps/panel/src/lib/billing.ts:135-193 | on every run in order, with such settings, every server has at most one unpaid invoice, is suspended only while it is overdue, and exactly then if no stop call breaks |
| BillingTheorems.PaymentClearsIff | apps/panel/src/lib/billing.ts:65-78 | after a payment with a new reference something is owed exactly when another invoice was unpaid |
| BillingTheorems.PaymentClears | apps/panel/src/lib/billing.ts:75-78 | on such runs a customer who pays is active and owes nothing |
| BillingTheorems.ReclaimedWasSuspended | apps/panel/src/lib/billing.ts:175-182 | while no stop call breaks and with a retention no shorter than the gap, a server that a pass reclaims was suspended before it with an invoice beyond the window |
| BillingLimits.OneUnpaidExactly | apps/panel/src/lib/billing.ts:14-15 | for every setting and gap, with stop calls that may break or not: at most one unpaid invoice on every run if and only if the gap is zero, or grace and retention are less than 28 days together, or no stop call breaks and grace and gap are |
| BillingLimits.DailyPasses | apps/panel/src/lib/billing.ts:14-15 | with daily passes, if and only if grace and retention are at most 27 days, or no stop call breaks and the grace is at most 26 |
| BillingLimits.RenewedWhileUnpaid | apps/panel/src/lib/billing.ts:139-152 | with any other settings a February month is renewed while its invoice is unpaid |
| BillingLimits.DeletedUnseen | apps/panel/src/lib/billing.ts:104-108 | a run on which an active server that was never suspended is deleted: stop calls break, or the gap is longer than the retention |
| BillingLimits.NoticeExactly | apps/panel/src/lib/billing.ts:163-182 | for every setting and gap: no deletion without an earlier suspension on every run if and only if the gap is zero, or it is at most the retention and no stop call breaks |
| BillingLimits.TryExactly | apps/panel/src/lib/billing.ts:163-182 | stop calls breaking or not: no deletion before an earlier pass has tried to suspend, on every run, if and only if the gap is at most the retention |
| BillingLimits.DeletedThoughPaid | apps/panel/src/lib/billing.ts:145-182 | a run with passes more than 28 days apart on which an active server that owes nothing is deleted |
| BillingLimits.OverdueBeforeExactly | apps/panel/src/lib/billing.ts:163-182 | no deletion for an invoice that was not overdue before, on every run, if and only if the gap is at most the retention and at most 28 days |
| BillingLimits.NothingRunsFreeExactly | apps/panel/src/lib/billing.ts:139-173 | on every run every active server has an invoice for the moment of each pass, if and only if the grace, with the retention if stop calls may break, is under 28 days |
| BillingLimits.PaidTwice | apps/panel/src/lib/billing.ts:66-78 | paying a paid invoice under a new reference reactivates a server with an overdue one |
| BillingLimits.PaidTwiceHappens | apps/panel/src/lib/billing.ts:66-78 | a reachable world in which that happens |
| BillingLimits.FirstInvoiceRace | apps/panel/src/lib/provisioning.ts:133-139 | a pass between the creation of a server and its first invoice bills it twice |
| Properties.IndexOf | apps/panel/src/lib/game-settings.ts:127-129 | the first index of a character, or the length |
| Properties.Split | apps/panel/src/lib/game-settings.ts:123 | at least one line, none with a line feed in it |
| PropertyLaws.TrimParts | apps/panel/src/lib/game-settings.ts:124-129 | a text is its trimmed form with white space around it, and that form has none at its ends |
| PropertyLaws.TrimExactly | apps/panel/src/lib/game-settings.ts:124-129 | white space around a text that has none at its ends is all that is trimmed |
| PropertyLaws.EntryOfSpaced | apps/panel/src/lib/game-settings.ts:124-130 | a line reads as its key and value whatever white space is around the key, the sign and the value |
| Properties.LastKeyed | apps/panel/src/lib/game-settings.ts:121-130 | the last line with a key: the one whose value counts |
| Properties.ParseProperties | apps/panel/src/lib/game-settings.ts:121-132 | the table gives every key the value of its last line, and has no other key |
| Properties.EditLine | apps/panel/src/lib/game-settings.ts:140-151 | one line: rewritten when its key is still to change, and then no longer to change |
| Properties.RemainingValues | apps/panel/src/lib/game-settings.ts:139-151 | what remains are the changes whose key no line had, with their values |
| Properties.NextLine | apps/panel/src/lib/game-settings.ts:140-151 | a line is rewritten exactly when it is the first with a key that changes |
| Properties.EditLines | apps/panel/src/lib/game-settings.ts:140-151 | the map over the lines |
| Properties.ApplyProperties | apps/panel/src/lib/game-settings.ts:138-154 | the text is the edited lines followed by the remaining changes, joined |
| PropertyLaws.SplitJoin | apps/panel/src/lib/game-settings.ts:140-154 | splitting what was joined gives the lines back, but for carriage returns at their ends |
| PropertyLaws.LineReadsBack | apps/panel/src/lib/game-settings.ts:150 | a written line reads back as its key and its trimmed value |
| PropertyLaws.LookupAfter | apps/panel/src/lib/game-settings.ts:138-154 | the value of every key after an edit, from the rows before it |
| PropertyLaws.EditThenRead | apps/panel/src/lib/game-settings.ts:121-154 | on every text: a changed key that occurs at most once reads as its trimmed new value, every other key as before |
| PropertyLaws.EditLaw | apps/panel/src/lib/game-settings.ts:134-154 | the new text reads as the old one overridden by the changes if and only if no changed key occurs twice with another value |
| PropertyLaws.EditNotSeen | apps/panel/src/lib/game-settings.ts:121-151 | a text with a key twice whose edit the reader does not see |
| PropertyLaws.OnceStays | apps/panel/src/lib/game-settings.ts:138-154 | a key that a text has at most once is there at most once after an edit |
| PropertyLaws.EditTwice | apps/panel/src/lib/game-settings.ts:138-154 | two edits of any text: the later change of a key is the one that counts, and a key that the text has twice keeps its value |
| PropertyLaws.OtherLinesStay | apps/panel/src/lib/game-settings.ts:134-154 | every other line keeps its index and content, exactly up to a carriage return at its end |
| PropertyLaws.LinesAdded | apps/panel/src/lib/game-settings.ts:153 | a line is added for each change whose key the text lacks, and no other |
| GameSettings.Editable | apps/panel/src/lib/game-settings.ts:199 | the visible field of a key; none exactly when every field of that key is managed |
| GameSettings.IncludesExactly | apps/panel/src/lib/game-settings.ts:113-118 | the other table is for the templates that have the word somewhere in their key |
| GameSettings.TakenByTemplate | apps/panel/src/lib/game-settings.ts:113-118 | which table a template has, said of requests: pvp, cheats, a game mode and a number of players are accepted or not, and within which bounds, by the template; the port never is |
| GameSettings.RoundIsNearest | apps/panel/src/lib/game-settings.ts:235-238 | a number is rounded to the nearest integer, halves up |
| GameSettings.AcceptedSuits | apps/panel/src/lib/game-settings.ts:229-246 | an accepted value suits its field; a number is in range after rounding |
| GameSettings.AcceptedAgain | apps/panel/src/lib/game-settings.ts:229-246 | a value that suits is accepted unchanged |
| GameSettings.DecimalReadsBack | apps/panel/src/lib/game-settings.ts:238 | the digits written for a number denote it, with a sign only below zero and no zero in front |
| GameSettings.FilterChanges | apps/panel/src/lib/game-settings.ts:200-216 | accepted are exactly the entries for visible fields with a valid value, rejected exactly the others |
| GameSettings.JavaFieldsOk | apps/panel/src/lib/game-settings.ts:30-68 | every key of the table can be written back, options are one line, visible numbers have both bounds |
| GameSettings.BedrockFieldsOk | apps/panel/src/lib/game-settings.ts:70-98 | the same for the other table |
| GameSettings.TakenIsWellFormed | apps/panel/src/lib/game-settings.ts:229-246 | no accepted value starts a line of its own |
| GameSettings.NeedsRestart | apps/panel/src/lib/game-settings.ts:225 | a restart is needed exactly when an accepted field asks for one |
| GameSettings.WriteGameSettings | apps/panel/src/lib/game-settings.ts:192-227 | for every request and every file: managed, unknown and rejected keys read as before, accepted ones as accepted |
| Alerts.KeysDiffer | apps/panel/src/lib/alerts.ts:80-123 | the keys of different checks and different ids never coincide |
| Alerts.NearlyFullExactly | apps/panel/src/lib/alerts.ts:96-101 | a node is nearly full exactly when it is enabled and ten times its free megabytes are less than its total |
| Alerts.Desk.RaiseAlert | apps/panel/src/lib/alerts.ts:14-35 | an open alert is left alone; otherwise it opens and one notification is attempted |
| Alerts.Desk.ResolveAlert | apps/panel/src/lib/alerts.ts:37-41 | closes an open alert and changes nothing else |
| Alerts.Desk.CheckHost | apps/panel/src/lib/alerts.ts:78-113 | the two alerts of a node are open exactly when their conditions hold, and nothing else changes |
| Alerts.Desk.CheckHosts | apps/panel/src/lib/alerts.ts:78-114 | the same for all nodes |
| Alerts.Desk.RaiseCrashes | apps/panel/src/lib/alerts.ts:116-133 | exactly the crashed servers are raised |
| Alerts.Desk.ResolveCrashes | apps/panel/src/lib/alerts.ts:152-158 | every other open crash alert is resolved |
| Alerts.Effects | apps/panel/src/lib/alerts.ts:73-161 | checks of different keys compose |
| Alerts.PassShows | apps/panel/src/lib/alerts.ts:73-161 | after a pass, of every node: down is open exactly when it is not online, critical exactly when it has servers; capacity is open exactly when it is enabled and ten times the free memory is less than the total; of every server and of the fleet likewise |
| Alerts.Desk.EvaluateAlerts | apps/panel/src/lib/alerts.ts:73-161 | after a pass exactly the true conditions, said of the rows of nodes and servers, are open among the keys it decides about; other alerts are untouched, each newly opened key is notified once with the right severity |
| Alerts.NotifiedPerOpening | apps/panel/src/lib/alerts.ts:22-35 | on every run of passes and acknowledgements a key is notified once per opening |
| Alerts.OneNoticeWhileTrue | apps/panel/src/lib/alerts.ts:6-10 | a condition that stays true is one alert and one notice, however many passes see it |
| Alerts.DeletedNodeLingers | apps/panel/src/lib/alerts.ts:76-114 | the alerts of a deleted node stay open until acknowledged |
| Schedules.MinuteIsQuotient | apps/panel/src/lib/backups.ts:114 | hours times sixty plus minutes is the minute of the day, below 1440 |
| Schedules.MaskDays | prisma/schema.prisma:355-356 | a mask of one bit stands for one day of the week, 127 for every day |
| Schedules.MaskIsSum | apps/panel/src/lib/backups.ts:115-124 | a mask stands for exactly the days whose powers of two it is the sum of |
| Schedules.WorkingDays | apps/panel/src/lib/backups.ts:124 | 62 is Monday to Friday |
| Schedules.WeekdayFromEpoch | apps/panel/src/lib/backups.ts:115 | weekdays count on from 1 January 1970, a Thursday; Sunday is day 0 |
| Schedules.Runner.RunScheduledBackups | apps/panel/src/lib/backups.ts:112-143 | each schedule that fires is started and stamped once, failed or not, and no other is touched; the result counts those that worked |
| Schedules.SameMinute | apps/panel/src/lib/backups.ts:126-127 | the guard separates exactly the same minute of one day from that of another |
| Schedules.OnlyInItsMinute | apps/panel/src/lib/backups.ts:114-125 | a schedule fires only within the sixty seconds of its minute of a day in its mask, for a server that is not suspended |
| Schedules.NeverTwiceADay | apps/panel/src/lib/backups.ts:126-127 | never twice on a day |
| Schedules.OnceADay | apps/panel/src/lib/backups.ts:108-143 | on every run: exactly once on each day that has a pass in the minute with nothing against it, and on no other |
| Schedules.MovedTooSoon | apps/panel/src/lib/backups.ts:126-127 | a schedule moved to a minute within the guard of its last run misses the day |
| Console.SplitAppend | apps/agent/src/providers/docker.ts:245-249 | splitting a text that comes in two pieces is splitting the carry on into the second |
| Console.Tap.Push | apps/agent/src/providers/docker.ts:245-249 | every whole line is emitted stripped, the rest carried; the other stream is untouched |
| Console.Tap.Write | apps/agent/src/providers/docker.ts:252-253 | a chunk goes on where the carry of its stream ended |
| Console.Attach | apps/agent/src/providers/docker.ts:236-254 | however output is cut and interleaved, each stream emits the lines of its whole text and carries the rest |
| Console.StripThenSplit | apps/agent/src/providers/docker.ts:248 | a colour code never reaches over a line break |
| Console.CodeIsRemoved | apps/agent/src/providers/docker.ts:248 | an escape character, a bracket, any digits and semicolons and an m are removed from in front of any text |
| Console.StripKeepsExactly | apps/agent/src/providers/docker.ts:248 | a text is left as it is if and only if it has no colour code |
| Console.EscapesLeftExactly | apps/agent/src/providers/docker.ts:248 | an escape character is left in a text if and only if one in it starts no colour code |
| Console.CodeInCode | apps/agent/src/providers/docker.ts:248 | a text whose removal of colour codes leaves one |
| Console.CodesNeverShow | apps/agent/src/providers/docker.ts:245-249 | colour codes are gone from the lines even when a chunk boundary cuts them in two |

## Left out

- `Fleet` runs with an explicit migration target: their conservation is false; `Panel.Panel.MigrateServer` says exactly when.
- Failures between the switch of a migration and its completion, and overlapping operations on one server.
- Changes of node totals by an administrator, which the source writes before it checks them.
- Rows and names that carry no state here: users, audit entries, telemetry, MySQL schemas, environment variables, container ids; backup rows of a migration are part of its agent calls.
- The job status written before an agent call is folded into the step beside it in `Fleet`, and appears on its own in `Panel`.
- Transaction timeouts and connection limits; a transaction may end at any point instead.
- Billing takes a deletion as one step, so no pass sees a server that is being deleted; amounts, currencies and invoice numbers are not modelled, and the grace and retention settings are natural numbers of days.
- The first invoice that a purchase issues is an event of `BillingRuns`, not a step of `Panel`.
- Billing.Office.SuspendServer: takes how the stop call ends as a parameter; the call itself changes no table.
- BillingLimits.OverdueBeforeExactly: leaves out a grace of 28 days or more with a gap of more than 28 days that is within the retention, where the answer depends on the lengths of several months.
- FleetTheorems.PurchaseIsAllOrNothing: leaves the order row to `FleetOrders.OrderFollowsPurchase`.
- Key shares of rows that no transaction here locks otherwise (users, plans, templates, the job of a new migration), and the rows that a deleted server takes along.
- Text is a sequence of characters, where the source counts UTF-16 code units (the length limit of a text field).
- GameSettings.WriteGameSettings: takes the parsing of numbers from text as a parameter, and the file as given; reading and writing it on the node are agent calls.
- Labels and help texts of fields, and titles, details and delivery times of alerts; the number of raised alerts that a pass returns.
- Console.Attach: takes chunks that are decoded already; a character whose bytes a chunk boundary cuts is decoded in two halves by the source, and is not modelled.
- Schedules.Runner.RunScheduledBackups: does not model the backups themselves nor pruning, only that they are started and whether they succeed.
- Container status correction and orphan cleanup in the reconciler, whose alert functions `apps/panel/src/lib/alerts.ts` does not export; only the drift check is modelled.
- Metrics compaction, gateway viewers, worker lock expiry, API routes, authentication, mods and pages.
