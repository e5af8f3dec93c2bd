# Stock ledger, login limiter and migrations: a verified model

The backend tracks insulation covers: offices own them, work orders install and remove them,
and offices lend them to each other. Every change goes through a short database transaction.
This project models those transactions and proves what they keep together, and does the same
for three neighbours: the login limiter, the migration runner and the notification outbox.

## The stock ledger

`Stock` holds the tables as one value, `Ledger`: covers, work orders, installations, borrows,
borrow-cover links (released or not), the borrow audit log and the shortfall reports.
`WorkOrders` and `Borrows` give each transaction as a function from one committed ledger to the
next with a verdict: `Done` commits, `Blocked` commits but is answered with a conflict,
`Refused` rolls back. `Transactions.Step` puts all of them into one machine.

`free(o)` is the stock in stock at office `o`, minus what its scheduled orders plan, minus its
unreleased loan reservations. It may be negative.

* `Invariants` and `InvariantSteps`: the invariant, and that every transaction keeps it.
* `Transitions`: every status moves along its table.
* `Rules`, `Refusals` and `Effects`: for every transaction the exact state in which it is
  accepted, what each refusal says about the state, and the exact rows an accepted one leaves.
  All three speak of rows and counts of rows, not of the guards the transactions are made of.
* `Capacity` and `Promises`: the exact account of `free(o)`, deficits over runs, realisable
  plans, and what the loan counters count.
* `Progress`: the branches no reachable state takes, the shape of orders in each status, the
  three capacity formulas, and audit replay.
* `Undo`: what one transaction does another takes back.
* `Evidence`: attaching a photograph checks twice, with any other transactions in between.
* `Shortfalls` and `Overdues`: when a return reports a planning shortfall and when it does not,
  and when a loan becomes OVERDUE. `Witness` holds the short runs from an empty database that
  reach the surprising states.
* `Footprints`, `Stages` and `Interleaving`: transactions split into lock, check and commit
  steps that interleave arbitrarily. Every check that passed still holds at commit, so every
  interleaving is serial. The commit step writes without checking again. A return that is
  blocked stops at the cover it found installed; it takes its place in the serial order there,
  and `LateReturns` shows that its marking can be moved to its commit, past everything that does
  not lock the loan. `CommitOrder` gives the schedule in which it could not stand at its commit.
* `Database`, `WorkOrderService`, `BorrowService` and `CoverService`: the same transactions as
  classes that update the tables in place, loops included, each equal to its specification.

## The neighbours

* `SlidingWindow` and `LoginLimiter`: the bounded limiter refines one that keeps every attempt.
* `Migrations` and `Manifest`: the ledger of migrations always describes the schema.
* `Outbox`: at-least-once workers, at-most-once notifications.
* `EvidenceKeys`: the key printer and the validator agree, and a key names one relation.

`Collections` holds facts about finite sets, sums and sorting.

## What the code does not promise

* A returned loan can leave the borrower short without a report: the report compares plans with
  stock in stock and leaves out what the borrower itself has reserved for others. It happens
  exactly when, before the return of q covers, planned + q <= in stock < planned + reserved + q
  (`Shortfalls.ShortfallReported`, `Shortfalls.UnreportedExactly`); `Shortfalls.DeficitUnreported`
  is a run that gets there.
* OVERDUE does not mean that the return date has passed: a return that finds a cover still
  installed or scanned marks the loan overdue at once. Ahead of the return date that is the only
  way (`Overdues.OverdueAheadOfTime`); `Overdues.EarlyOverdue` is a run that gets there.
* A blocked return need not be blocked when it commits: the draft that stopped it can be taken
  back in between, by a session that locks only the work order. The database is then not the
  one that commit order gives (`CommitOrder.CommitOrderIsNotSerial`); it differs exactly when
  every cover is free at the commit (`Interleaving.CommitOrderOfBlockedReturn`).
* An edit that asks for no more stock can be refused for want of stock: the order's own plan is
  given back before the check, but an office that is short stays short, so even a change of dates
  is refused there until the shortage is gone (`Rules.EditRule`).
* The lender's planning lock and the users' rows are locked in different orders by different
  services, so nothing is claimed about deadlocks.

## Model

| member | source | states |
|---|---|---|
| InvariantSteps.KeepsStep | internal/application/workorder/service.go:155-1003 | every transaction of the machine keeps the whole invariant: foreign keys, row shapes, single claims, places of open installations and reservations, loan links, locations and audit chains |
| InvariantSteps.ReachableInv | internal/infrastructure/migration/check.go:75-92 | every state reached from an empty database by any run of transactions satisfies the invariant, which holds the planned-quantity, date, lifecycle, duplicate and installed-status checks |
| InvariantSteps.KeepsSubmit | internal/application/workorder/service.go:685-802 | submission keeps the invariant although it changes three tables row by row |
| InvariantSteps.KeepsRemove | internal/application/workorder/service.go:841-909 | removing a cover keeps the invariant: the cover is back in stock and claimed by nobody |
| InvariantSteps.KeepsComplete | internal/application/workorder/service.go:918-960 | completion keeps the invariant: everything is removed and photographed |
| InvariantSteps.KeepsCancelOrder | internal/application/workorder/service.go:963-1003 | cancellation keeps the invariant: a cancelled order holds no installation |
| InvariantSteps.KeepsAttach | internal/application/workorder/service.go:1044-1093 | attaching evidence keeps the order shapes although the earlier check released its locks |
| InvariantSteps.KeepsRequest | internal/application/borrow/service.go:81-199 | a loan request keeps the invariant: the reserved covers are at home, in stock and otherwise unclaimed |
| InvariantSteps.KeepsActivate | internal/application/borrow/lifecycle.go:114-205 | handing over keeps the invariant: the covers are away exactly because of this loan |
| InvariantSteps.KeepsReturn | internal/application/borrow/lifecycle.go:208-313 | a return keeps the invariant whether it brings the covers home or is blocked |
| InvariantSteps.KeepsOverdue | internal/application/borrow/lifecycle.go:317-346 | the overdue job keeps the invariant, audit chains included |
| InvariantSteps.KeepsRetire | internal/infrastructure/persistence/cover_repo.go:133-224 | retirement keeps the invariant: no claim points at a retired cover |
| InvariantSteps.KeepsRegister | internal/application/cover/service.go:110-148 | registration keeps the invariant: covers are born in stock with owner and current office equal |
| Transitions.StatusesFollowTables | internal/domain/workorder/status.go:50-69 | every transaction moves every cover, order and borrow along its transition table or not at all |
| Transitions.MovesAsListed | internal/domain/workorder/status.go:40-47 | the moves that statuses of covers, orders and borrows ever make, as lists of pairs |
| Transitions.TerminalIsFinal | internal/domain/borrow/status.go:21-29 | no run of transactions leaves a terminal status: retired, completed, cancelled, returned or rejected |
| Capacity.FreeAccount | internal/application/workorder/service.go:275-310 | the exact change of free(o) for every committed transaction and every office |
| Promises.GuardBound | internal/application/workorder/service.go:302-308 | each capacity guard lets through no more than the office has free, its own plan given back; Rules.AcceptedExactly gives the other direction |
| Promises.CheckedStaysFree | internal/infrastructure/persistence/cover_repo.go:190-202 | after a committed create, edit, submit, loan request or retirement the office it checked has no deficit |
| Promises.RefusedChangesNothing | internal/application/borrow/lifecycle.go:208-313 | a refused transaction leaves the database as it was |
| Promises.NotDoneFree | internal/application/borrow/lifecycle.go:254-264 | a refused or blocked transaction leaves free(o) alone |
| Promises.DeficitStep | internal/application/borrow/lifecycle.go:268-286 | only a completed return deepens the deficit of an office, by at most the quantity it takes back |
| Promises.DeficitOverRuns | internal/application/borrow/lifecycle.go:268-286 | over any run the deficit grows by at most the total taken back from the office |
| Promises.DeficitWithinPlans | internal/application/workorder/service.go:283-300 | a deficit never exceeds what the office has planned |
| Promises.DeficitBounded | internal/application/workorder/service.go:302-308 | from an empty database both bounds hold after every run |
| Promises.ReservedFits | internal/application/borrow/service.go:329-386 | the reservations of an office are for distinct covers in stock there, so they never outnumber its stock |
| Promises.PlannedIsSum | internal/application/workorder/service.go:283-293 | the slot count used for planned stock is the sum of planned quantities over the scheduled orders |
| Promises.PlansRealisable | internal/application/workorder/service.go:275-310 | free(o) is not negative if and only if there are disjoint sets of unreserved covers in stock, one of the planned size per scheduled order |
| Promises.LoanCounts | internal/infrastructure/persistence/cover_repo.go:283-297 | the loan-out and loan-in counters equal the requested quantities summed over outstanding borrows lent by and to the office |
| Rules.AcceptedExactly | internal/application/workorder/service.go:155-1093 | in every state of the invariant each transaction is accepted if and only if its rule allows it, told on rows: actor, statuses, dates, codes, claims, photographs, and stock against plans and promises |
| Rules.OpenRule | internal/application/workorder/service.go:155-230 | creation is accepted if and only if the plan is complete and valid, the id is new, and stock covers everything planned and promised at the office and this plan |
| Rules.EditRule | internal/application/workorder/service.go:313-416 | an edit is accepted if and only if the merged plan is valid and stock covers everything planned and promised, this order counted with its new quantity in place of its old one |
| Rules.SubmitRule | internal/application/workorder/service.go:685-802 | a submission by the field actor of a SCHEDULED order is accepted if and only if it has drafts, all are photographed, and stock covers everything planned and promised with the number of drafts in place of its own plan |
| Rules.ScanRule | internal/application/workorder/service.go:575-649 | a scan is accepted if and only if the cover is in stock at the order's office and is this order's draft already or claimed by nobody |
| Rules.RequestExactly | internal/application/borrow/service.go:81-199 | a loan request is accepted if and only if actor, names and dates are right, the lender has that many unclaimed covers of its own in stock, and its own stock covers what it has planned and promised and this request |
| Rules.AnswerRules | internal/application/borrow/lifecycle.go:30-111 | approval and rejection are done if and only if an executive of the lender decides a REQUESTED loan; cancellation if and only if the borrower's executive, or the technician there who asked, cancels a pending one |
| Rules.ActivateRule | internal/application/borrow/lifecycle.go:114-205 | a handover is done if and only if an administrator or an executive of the lender hands over an APPROVED loan |
| Rules.ReturnRule | internal/application/borrow/lifecycle.go:208-313 | a return by such an actor of a loan that is out is completed if and only if no cover of it is scanned or installed, and blocked otherwise |
| Rules.RegisterRule | internal/application/cover/service.go:110-148 | a batch is stored if and only if its items are well formed, with new ids, and no item shares an asset code, a label or an NFC id with another or with a stored cover |
| Rules.RetireRule | internal/infrastructure/persistence/cover_repo.go:133-224 | a cover is retired if and only if it is in stock at its owner, unclaimed, and not needed for what is planned and promised there |
| Rules.ReportExactly | internal/application/cover/service.go:292-340 | what each figure of the stock report counts, on rows of covers, orders and borrows |
| Rules.ShortageStep | internal/application/borrow/lifecycle.go:268-286 | how far plans and promises at an office exceed its stock never grows, except that a completed return takes its quantity from the borrower |
| Rules.NoShortageAfter | internal/application/workorder/service.go:275-310 | after an accepted plan, edit, submission, loan request or retirement its office has stock for everything planned and promised |
| Refusals.RefusalsAreTruthful | internal/application/workorder/service.go:1044-1222 | every refusal of every transaction names a reason that holds of the rows it met |
| Refusals.BlockedExactlyWhen | internal/application/borrow/lifecycle.go:254-264 | a transaction is answered with a conflict and yet commits if and only if it is a return, by an actor who may take the covers back, of a loan of which a cover is still scanned or installed |
| Effects.EffectsAreExact | internal/application/workorder/service.go:155-1093 | the exact rows that every accepted transaction writes, with their new values and audit events, and that no other row of any table changes |
| Effects.BlockedWrites | internal/application/borrow/lifecycle.go:254-264 | a blocked return marks the loan OVERDUE with its audit event if it was ON_LOAN, and writes nothing else |
| Effects.OverdueExactly | internal/application/borrow/lifecycle.go:317-346 | the overdue job, on any database: a loan is OVERDUE afterwards if and only if it was, or was ON_LOAN with a return date before now; exactly the latter gain one event, and nothing else changes |
| Progress.SingleClaim | internal/infrastructure/persistence/db.go:82-101 | a cover has at most one open installation or unreleased reservation, never both, and is INSTALLED exactly when one installation of it is live |
| Progress.WorkOrderShape | db/migrations/20260710050000_workorder_draft_integrity.sql:38-69 | what the status of an order says about all of its installations, covers and photographs |
| Progress.TriggersAgree | db/migrations/20260710030000_phase2_borrow.sql:243-288 | the deferred constraint triggers on covers, orders and borrows agree with every state that satisfies the invariant |
| Progress.SubmitProgress | internal/application/workorder/service.go:714-775 | a submission is refused only for an empty order, capacity or missing photographs: its stock-conflict branches are dead; Rules.SubmitRule says on rows when capacity refuses |
| Progress.SubmitEffect | internal/application/workorder/service.go:777-800 | an accepted submission installs exactly this order's drafts and exactly their covers and leaves all other rows alone |
| Progress.RemovalProgress | internal/application/workorder/service.go:864-903 | every installed cover of a REMOVING order can be removed; the first scan lowers the number still out by one, a repeat changes nothing |
| Progress.CompletionProgress | internal/application/workorder/service.go:938-958 | completion is accepted if and only if nothing is still out and every removal has its photograph |
| Progress.RowOrderIsImmaterial | internal/application/workorder/service.go:938-958 | whatever order the query lists the installations in, completion leaves the same database and accepts the same orders; only which of two objections it reports can differ |
| Progress.ActivationProgress | internal/application/borrow/lifecycle.go:138-178 | a pending borrow holds exactly the reservations it asked for, and an approved one can always be handed over |
| Progress.WithdrawalProgress | internal/application/borrow/lifecycle.go:462-472 | a pending borrow can always be rejected or cancelled: the reservation count always matches |
| Progress.ReturnProgress | internal/application/borrow/lifecycle.go:237-278 | a return brings every cover home when none has an open installation, else moves none and leaves the loan OVERDUE; the "not returnable" branch is dead |
| Progress.ReportedBoundIsExact | internal/application/cover/service.go:292-314 | the availability in the stock report is exactly the largest plan that creation accepts |
| Progress.BorrowableWithinReport | internal/application/borrow/service.go:292-327 | the capacity offered for loan never exceeds the availability reported for planning |
| Progress.TotalCoversHeld | internal/application/cover/service.go:315-340 | the reported total counts every cover held and not retired, and covers on loan in are among them |
| Progress.Selection | internal/application/borrow/service.go:329-345 | the covers a request selects are distinct and eligible |
| Progress.SelectionLeast | internal/application/borrow/service.go:329-345 | the selection has as many covers as there are to be had, the least by asset code then id |
| Progress.SelectionByCode | internal/application/borrow/service.go:329-345 | a cover left out has no smaller asset code than one selected, and among equal asset codes a greater id |
| Progress.SelectionProgress | internal/application/borrow/service.go:126-152 | a request is accepted if and only if it is within the borrowable capacity; the "fewer covers than requested" and "not eligible" branches are dead; Rules.RequestExactly gives that capacity on rows |
| Progress.AuditReplay | internal/application/borrow/events.go:28-55 | the audit events of a borrow form a chain of allowed moves from CREATE that ends in its current status, of at most five events |
| Progress.AuditByEvent | internal/application/borrow/events.go:28-55 | the events one by one: CREATE into REQUESTED, then each from where the last one ended by one of the eight listed moves, up to the current status |
| Progress.OverdueTwice | internal/application/borrow/lifecycle.go:317-346 | running the overdue job twice at the same time adds nothing |
| Evidence.ProbeLearnsNothing | internal/application/workorder/service.go:1059-1077 | an actor that the first check refuses in one state gets the same answer whatever storage holds and whatever commits before the second transaction, and nothing is written |
| Evidence.RemovalRecheck | internal/application/workorder/service.go:1078-1092 | after any run of other transactions, a removal photograph that passed the first check is refused only because the order was given to somebody else or is no longer REMOVING: its installation row is still there, installed and removed |
| Evidence.InstallRecheck | internal/application/workorder/service.go:1078-1092 | the same for an installation photograph: reassignment, a draft taken back, or an order no longer SCHEDULED |
| Evidence.EvidenceWritten | internal/application/workorder/service.go:1044-1093 | an attachment writes if and only if the key names its relation, the first check passes, storage holds a good image, and in the state the other transactions left the order is still the actor's, in the same status, and the draft is there |
| Evidence.EvidenceEffect | internal/application/workorder/service.go:1085-1092 | an attachment that writes changes that photograph of that installation and nothing else |
| Shortfalls.ReportsAreFinal | internal/application/discrepancy/service.go:306-337 | in every reachable state a report exists only for a RETURNED loan, so a return never finds a report of its own loan |
| Shortfalls.ShortfallReported | internal/application/discrepancy/service.go:295-351 | from the counts before a completed return: it reports if and only if the borrower's plans exceed the stock it will be left with, and leaves a deficit unreported if and only if that stock covers the plans but not the borrower's own reservations as well |
| Shortfalls.UnreportedExactly | internal/application/borrow/lifecycle.go:208-286 | an authorised return leaves an unreported deficit if and only if no cover of the loan has an open installation and the counts before the call satisfy that condition |
| Shortfalls.DeficitUnreported | internal/application/discrepancy/service.go:306-322 | a run from an empty database after which a return leaves a deficit of one and reports nothing |
| Overdues.IntoOverdue | internal/application/borrow/lifecycle.go:208-346 | a loan becomes OVERDUE if and only if the overdue job finds it past its return date or an authorised return of the loan, while out, meets an open installation; no transaction changes anything else about its row |
| Overdues.OverdueAheadOfTime | internal/application/borrow/lifecycle.go:254-264 | at a time not past the return date a transaction makes a loan OVERDUE if and only if it is such a return |
| Overdues.EarlyOverdueHasCause | internal/application/borrow/lifecycle.go:254-346 | over any run that reads no clock past the return date, a loan that ends OVERDUE had a return that met an open installation |
| Overdues.EarlyOverdue | internal/application/borrow/lifecycle.go:254-264 | a run from an empty database after which a loan that is not due is made OVERDUE by its return |
| Undo.ScanThenUnscan | internal/application/workorder/service.go:575-677 | scanning a new cover and unscanning it leaves the database as it was |
| Undo.CancelLetsGo | internal/application/workorder/service.go:980-996 | cancelling an order leaves none of its scanned covers claimed, and all of them in stock at the order's office |
| Undo.AssignedMayWork | internal/application/workorder/service.go:1204-1222 | after an assignment exactly that technician of the order's office may work on it, and nothing else has changed |
| Undo.RemovalRestores | internal/application/workorder/service.go:841-909 | removing a cover gives its row back as it was before it was installed, and no other cover changes |
| Undo.RequestThenReject | internal/application/borrow/lifecycle.go:46-61 | a rejected request leaves covers, orders, eligible covers and free stock of every office as they were |
| Undo.HandoverThenReturn | internal/application/borrow/lifecycle.go:162-286 | a loan that is handed over and comes straight back leaves the covers table as it was |
| Footprints.StepKept | internal/application/workorder/service.go:263-273 | a transaction disturbs only the rows, covers and offices it locks; at other offices stock only grows and promises only shrink |
| Stages.PartsMakeWhole | internal/application/workorder/service.go:685-802 | the checks made under row, office and cover locks together accept exactly what the atomic transaction accepts, and the writes are its writes |
| Stages.RowStays | internal/application/workorder/service.go:1247-1307 | a check made under a row lock still holds after any change outside that lock |
| Stages.CapacityStays | internal/application/borrow/service.go:388-398 | a capacity check made under the planning lock still holds after any change outside that lock |
| Stages.CoverStays | internal/application/borrow/lifecycle.go:493-516 | a check made under a cover's lock still holds after any change outside that lock |
| Interleaving.NextKeeps | internal/application/workorder/service.go:263-273 | locks stay exclusive, passed checks stay true, and the database stays the one its transactions reach in their serial order, for every event of any transaction |
| Interleaving.CommitIsAtomic | internal/application/workorder/service.go:685-802 | a commit of checks made at different times is exactly the atomic transaction at the moment of commit |
| Interleaving.CheckedCapacityIsThere | internal/application/workorder/service.go:275-310 | capacity that was checked is there at commit: no deficit is left at an office the transaction checked |
| Interleaving.NoDeficitAtCommit | internal/application/borrow/service.go:122-132 | the same after every interleaving from the start |
| Interleaving.EveryInterleavingIsSerial | internal/application/borrow/lifecycle.go:114-346 | every interleaving leaves the database that its committed transactions, each as itself, reach one after another: in commit order, but for blocked returns, which stand where they found the installed cover |
| Interleaving.BlockedReturnIsSerial | internal/application/borrow/lifecycle.go:254-264 | a return that was blocked at some point of the serial order, put in there, marks its loan overdue in the final database and changes nothing else, as long as nothing behind it has locked the loan |
| Interleaving.CommitOrderOfBlockedReturn | internal/application/borrow/lifecycle.go:245-267 | the commit of a blocked return is the return run at that moment if and only if a cover is still installed or scanned then; once none is, that return would have brought the covers home |
| CommitOrder.CommitOrderIsNotSerial | internal/application/workorder/service.go:656-677 | a schedule from the start in which an unscan commits between a return's check and its commit: the loan ends OVERDUE, while commit order would have it RETURNED |
| LateReturns.MarkCommutes | internal/application/borrow/lifecycle.go:554-571 | marking a loan overdue before or after any transaction that does not lock the loan gives the same database and the same answer |
| LateReturns.MarkCommutesRun | internal/application/borrow/lifecycle.go:554-571 | the same for any run of such transactions |
| Interleaving.AcceptedCanCommit | internal/application/workorder/service.go:685-802 | whatever the atomic machine accepts some sequence of lock, check and commit steps commits |
| Database.Database.ListInstallations | internal/application/workorder/service.go:1309-1339 | lists each installation row of an order once, in any order |
| WorkOrderService.WorkOrderService.Create | internal/application/workorder/service.go:155-230 | creation commits exactly the step that Rules.OpenRule accepts and Effects.EffectsAreExact describes, and a refusal writes nothing |
| WorkOrderService.WorkOrderService.UpdateScheduled | internal/application/workorder/service.go:313-416 | an edit commits exactly the step that Rules.EditRule accepts and Effects.EffectsAreExact describes, and a refusal writes nothing |
| WorkOrderService.WorkOrderService.Assign | internal/application/workorder/service.go:418-452 | assignment commits exactly the step whose effect AssignedMayWork gives, until the order is terminal |
| WorkOrderService.WorkOrderService.ScanInstall | internal/application/workorder/service.go:575-649 | a scan adds a draft for an unclaimed cover in stock at the order's office, or changes nothing |
| WorkOrderService.WorkOrderService.UnscanInstall | internal/application/workorder/service.go:656-677 | an unscan removes a draft and nothing else |
| WorkOrderService.WorkOrderService.SubmitInstall | internal/application/workorder/service.go:685-802 | the collect, verify, photograph and commit loops together are the specified submission: the step that Rules.SubmitRule accepts and Progress.SubmitEffect describes |
| WorkOrderService.WorkOrderService.CollectDrafts | internal/application/workorder/service.go:728-741 | the drafts' covers in lock order, each once, unless one is already committed |
| WorkOrderService.WorkOrderService.VerifyDrafts | internal/application/workorder/service.go:743-775 | accepts exactly when every cover is ready to install |
| WorkOrderService.WorkOrderService.CheckPhotos | internal/application/workorder/service.go:776-782 | accepts exactly when every draft has the photograph of its own relation |
| WorkOrderService.WorkOrderService.CommitInstall | internal/application/workorder/service.go:784-800 | once the commit loop writes, no later write misses its row |
| WorkOrderService.WorkOrderService.StartRemoval | internal/application/workorder/service.go:810-833 | removal starts only from ACTIVE or REMOVAL_DUE, by one guarded update |
| WorkOrderService.WorkOrderService.ScanRemove | internal/application/workorder/service.go:841-909 | removing one cover commits exactly the step whose progress and restoration RemovalProgress and RemovalRestores give |
| WorkOrderService.WorkOrderService.CompleteRemoval | internal/application/workorder/service.go:918-960 | the completion loop is the specified completion on the rows in whatever order the query lists them |
| WorkOrderService.WorkOrderService.CheckRemovals | internal/application/workorder/service.go:942-950 | the first row that is not removed or not photographed decides the refusal |
| WorkOrderService.WorkOrderService.Cancel | internal/application/workorder/service.go:963-1003 | cancellation drops exactly the drafts of the order |
| WorkOrderService.WorkOrderService.AttachEvidence | internal/application/workorder/service.go:1044-1093 | malformed identifiers, a key of another relation, missing storage and a refusal by the first check end the call before storage is asked; otherwise it is the specified attachment on the state that other sessions leave before the second transaction |
| WorkOrderService.WorkOrderService.PersistEvidence | internal/application/workorder/service.go:1070-1092 | the second transaction of an attachment rechecks everything in the state it finds before it writes |
| WorkOrderService.WorkOrderService.MarkRemovalDue | internal/application/workorder/cron.go:90-138 | one order's transaction of the removal-due job; a stale candidate is a no-op, and a notification that fails rolls the status back |
| WorkOrderService.WorkOrderService.CheckRemovalDue | internal/application/workorder/cron.go:66-88 | the job moves exactly the candidates that are ACTIVE past their removal date and whose notifications are stored, and reports exactly those that are still due |
| BorrowService.BorrowService.Create | internal/application/borrow/service.go:81-199 | a request reserves exactly the least eligible covers, or changes nothing; Rules.RequestExactly says on rows which of the two |
| BorrowService.BorrowService.Recheck | internal/application/borrow/service.go:347-386 | accepts exactly when every selected cover is still eligible |
| BorrowService.BorrowService.Reserve | internal/application/borrow/service.go:168-177 | inserts exactly one unreleased reservation per cover |
| BorrowService.BorrowService.ChangeSimpleState | internal/application/borrow/lifecycle.go:362-420 | one guarded status change with its audit event, or nothing |
| BorrowService.BorrowService.Approve | internal/application/borrow/lifecycle.go:30-43 | approval by the lender's executive moves REQUESTED to APPROVED with its audit event, or changes nothing |
| BorrowService.BorrowService.Reject | internal/application/borrow/lifecycle.go:46-61 | rejection releases every reservation of the borrow, or changes nothing |
| BorrowService.BorrowService.Cancel | internal/application/borrow/lifecycle.go:64-111 | cancellation by the borrower releases every reservation, or changes nothing |
| BorrowService.BorrowService.Activate | internal/application/borrow/lifecycle.go:114-205 | the verify and move loops together are the specified handover |
| BorrowService.BorrowService.VerifyHandover | internal/application/borrow/lifecycle.go:145-161 | accepts exactly when every reserved cover is at the lender and unclaimed |
| BorrowService.BorrowService.MoveCovers | internal/application/borrow/lifecycle.go:162-172 | moves exactly the given covers; no guarded update misses its row |
| BorrowService.BorrowService.Return | internal/application/borrow/lifecycle.go:208-313 | the inspection and move loops together are the specified return, blocked or not |
| BorrowService.BorrowService.VerifyReturn | internal/application/borrow/lifecycle.go:245-267 | the first cover that cannot come back decides the outcome |
| BorrowService.BorrowService.RecordCapacityShortfall | internal/application/discrepancy/service.go:295-351 | records at most one report per borrow, with the quantities compared |
| BorrowService.BorrowService.MarkOverdue | internal/application/borrow/lifecycle.go:317-346 | the loop over due loans is the specified job, whose result Effects.OverdueExactly gives on the fields of the rows |
| CoverService.CoverService.RegisterBatch | internal/application/cover/service.go:110-148 | the checking loop and the inserts together store all items or none, asset, QR and NFC codes kept unique column by column |
| CoverService.CoverService.CheckItems | internal/application/cover/service.go:118-141 | the three sets of codes seen give the same answer as comparing each item with all items before it |
| CoverService.CoverService.CreateBatch | internal/infrastructure/persistence/cover_repo.go:111-119 | stores every cover of the batch exactly when no id and no code of it is taken |
| CoverService.CoverService.Retire | internal/infrastructure/persistence/cover_repo.go:133-224 | retirement commits exactly the step that leaves no deficit and no claim on the cover |
| SlidingWindow.PruneCounts | internal/interfaces/http/handler/login_limiter.go:209-217 | pruning a time-ordered list leaves exactly the attempts inside the window |
| SlidingWindow.AdmitKeepsSpaced | internal/interfaces/http/handler/login_limiter.go:180-186 | an admitted attempt keeps any limit + 1 consecutive attempts at least one window apart |
| SlidingWindow.WindowBound | internal/interfaces/http/handler/login_limiter.go:99-118 | such a history has at most `limit` attempts in any half-open interval of one window |
| SlidingWindow.WaitIsLeast | internal/interfaces/http/handler/login_limiter.go:143-167 | the reported wait is the least one, and is zero exactly when the attempt is admitted |
| SlidingWindow.LargerWaitIsLeast | internal/interfaces/http/handler/login_limiter.go:107-113 | the larger of two waits is the least after which both windows admit |
| LoginLimiter.TracksRecorded | internal/interfaces/http/handler/login_limiter.go:169-189 | recording keeps the pruned lists answering like the whole histories |
| LoginLimiter.TracksCleaned | internal/interfaces/http/handler/login_limiter.go:200-207 | cleanup keeps the pruned lists answering like the whole histories |
| LoginLimiter.TracksForgotten | internal/interfaces/http/handler/login_limiter.go:219-231 | eviction and reset touch no other key's agreement with its history |
| LoginLimiter.AdmittedPerWindow | internal/interfaces/http/handler/login_limiter.go:99-118 | while the clock never goes back, no key is admitted more than its limit in any window, evictions and resets aside |
| LoginLimiter.PairsApart | internal/interfaces/http/handler/login_limiter.go:99-102 | two pairs of client and username never share a window, as long as no client key holds the separator |
| LoginLimiter.LoginAttemptLimiter.constructor | internal/interfaces/http/handler/login_limiter.go:52-78 | both tables start empty with the limits, widths, capacity and cleanup interval asked for, or the defaults in place of bad ones |
| LoginLimiter.WindowTable.constructor | internal/interfaces/http/handler/login_limiter.go:52-78 | bad settings are replaced, and the table starts empty |
| LoginLimiter.WindowTable.PruneFailures | internal/interfaces/http/handler/login_limiter.go:209-217 | the compaction loop computes the pruned list |
| LoginLimiter.WindowTable.RetryAfter | internal/interfaces/http/handler/login_limiter.go:143-167 | the wait comes from the pruned list; the one-second fallback for a non-positive wait is dead |
| LoginLimiter.WindowTable.RecordFailure | internal/interfaces/http/handler/login_limiter.go:169-189 | records under the key, evicting the longest-unseen key only when a new key finds the table full; the table never exceeds its capacity |
| LoginLimiter.WindowTable.EvictOldest | internal/interfaces/http/handler/login_limiter.go:219-231 | the scan removes exactly one key, seen no later than any other |
| LoginLimiter.WindowTable.Cleanup | internal/interfaces/http/handler/login_limiter.go:200-207 | prunes every window and drops exactly the empty ones |
| LoginLimiter.LoginAttemptLimiter.CleanupExpired | internal/interfaces/http/handler/login_limiter.go:191-198 | throttled cleanup changes no history and no later answer |
| LoginLimiter.LoginAttemptLimiter.BeginAttempt | internal/interfaces/http/handler/login_limiter.go:99-118 | an attempt is refused if and only if the client's attempts or those of its own pair of client and username fill their window; an admitted one is recorded for that client and that pair and for no other pair, evictions aside; a refusal's wait is the least |
| LoginLimiter.LoginAttemptLimiter.RetryAfter | internal/interfaces/http/handler/login_limiter.go:80-94 | the same answer for the same pair without recording |
| LoginLimiter.LoginAttemptLimiter.Reset | internal/interfaces/http/handler/login_limiter.go:132-141 | clears the attempts of one pair of client and username and leaves every other pair and every client window as they were |
| Migrations.PendingKeeps | internal/infrastructure/migration/runner.go:131-160 | whatever fails and wherever, the ledger still describes the schema; success applies exactly the remaining sources in order |
| Migrations.UpKeeps | internal/infrastructure/migration/runner.go:114-162 | a whole call keeps the ledger describing the schema, and success means everything is applied |
| Migrations.GateIsClean | internal/infrastructure/migration/runner.go:221-270 | on a ledger that describes the schema the identity check never objects: a call gets past its gate exactly when no row is dirty |
| Migrations.GateByRow | internal/infrastructure/migration/runner.go:204-270 | on any ledger the gate and the startup gate, told row by row: known, unaltered, without a gap, clean, and for startup complete |
| Migrations.UpSucceedsExactly | internal/infrastructure/migration/runner.go:131-160 | a call succeeds if and only if no row is dirty and every pending source goes through: checks pass if its name ends in preflight.sql, its row is stored, its statements commit |
| Migrations.UpStopsAt | internal/infrastructure/migration/runner.go:135-143 | a pending source that does not go through stops the call: no later source gets a row, and a preflight whose checks fail gets neither row nor statement itself |
| Migrations.LedgerAlwaysDescribes | internal/infrastructure/migration/runner.go:348-392 | over any sequence of deployments with growing manifests, failures and crashes: a prefix of the manifest, at most its last row dirty, and exactly the clean rows' statements applied |
| Migrations.DirtyBlocks | internal/infrastructure/migration/runner.go:256-270 | a dirty row stops every later deployment before it writes anything |
| Migrations.SecondUpIsIdle | internal/infrastructure/migration/runner.go:131-134 | after a success another call applies nothing |
| Migrations.ManifestGrows | internal/infrastructure/migration/runner.go:221-254 | appending sources keeps the ledger describing the schema |
| Migrations.CurrentMeansAll | internal/infrastructure/migration/runner.go:204-219 | passing the startup gate means the schema is exactly the manifest's |
| Migrations.Runner.ValidateLedgerIdentity | internal/infrastructure/migration/runner.go:221-254 | accepts exactly the ledgers whose rows are those of a prefix of the manifest |
| Migrations.Runner.RowsKnown | internal/infrastructure/migration/runner.go:222-242 | accepts exactly known and unaltered rows |
| Migrations.Runner.EnsureLedgerClean | internal/infrastructure/migration/runner.go:256-270 | accepts exactly ledgers without a dirty row |
| Migrations.Runner.Up | internal/infrastructure/migration/runner.go:114-162 | the loop over sources is the specified call, for every outcome of every write; it is the call that LedgerAlwaysDescribes strings together and that UpSucceedsExactly and UpStopsAt describe |
| Migrations.Runner.RequireCurrent | internal/infrastructure/migration/runner.go:204-219 | passes exactly when every source is recorded, unaltered and clean |
| Manifest.DecimalOrder | internal/infrastructure/migration/source.go:31-72 | among fourteen-digit prefixes string order is version order |
| Manifest.DecimalReads | internal/infrastructure/migration/source.go:49-52 | a version is its digits read as a decimal number |
| Manifest.NameByText | internal/infrastructure/migration/source.go:20 | which file names are migrations: fourteen digits, an underscore, a word of small letters, digits and underscores, .sql |
| Manifest.LoadSources | internal/infrastructure/migration/source.go:31-72 | loads exactly the directories with valid names, distinct versions and no empty script, in strictly increasing version order |
| Collections.StrLeqMeans | internal/infrastructure/migration/source.go:39 | the order of strings: at the first place where two differ, the smaller one ends or has the smaller character |
| Manifest.SplitStatements | internal/infrastructure/migration/source.go:74-105 | the scanning loops compute the statements between break lines, or none when a line does not fit the scanner's buffer |
| Manifest.SplitScript | internal/infrastructure/migration/source.go:74-105 | splitting a script gives back the statements it was put together from |
| Manifest.ScriptText | internal/infrastructure/migration/source.go:74-105 | the same for the text of a script: printed line by line and scanned again |
| Manifest.ScanLines | internal/infrastructure/migration/source.go:75-95 | the character loop yields the lines, carriage returns dropped, and fails exactly when a line fills the buffer |
| Manifest.SplitIsPlain | internal/infrastructure/migration/source.go:107-115 | every statement of a script can run and holds no break line |
| Manifest.BreakByText | internal/infrastructure/migration/source.go:88-93 | a line separates statements if and only if it is the break text with white space around it |
| Manifest.ExecutableByText | internal/infrastructure/migration/source.go:107-115 | a line can run if and only if something other than white space is on it and it does not start a comment |
| Manifest.TrimSplits | internal/infrastructure/migration/source.go:109-110 | trimming takes white space off both ends and leaves none there |
| Manifest.LinesFail | internal/infrastructure/migration/source.go:75-99 | scanning fails if and only if the script holds a stretch of four mebibytes without a line feed |
| Outbox.NextKeeps | internal/application/borrow/events.go:132-177 | every write and crash of any number of workers keeps: one notification per key at most, each with its outbox row, and none missing for a processed row |
| Outbox.DeliveredAtMostOnce | internal/infrastructure/persistence/notification_repo.go:26-44 | from an empty outbox, whatever is enqueued and however many workers run and crash: no two rows and no two notifications with one key, no notification without the outbox row it copies, none missing for a processed row |
| Outbox.EnqueueAdds | internal/application/borrow/events.go:96-116 | a message with a new key gets one pending row at its place, one with a known key changes nothing |
| Outbox.PassLowersPending | internal/application/borrow/events.go:141-147 | a pass lowers the pending count by exactly the smaller of its limit and the count |
| Outbox.PassByRow | internal/application/borrow/events.go:141-174 | row by row: a pass processes the pending rows of the borrow asked for with fewer than the limit of such rows before them, and leaves every other row as it was |
| Outbox.BatchByRow | internal/application/borrow/events.go:141-147 | every message a pass delivers is that of such a row |
| Outbox.PassesDrain | internal/application/borrow/events.go:120-122 | enough passes drain the outbox |
| Outbox.MarkAllDelivers | internal/application/borrow/events.go:167-174 | marking a batch row by row delivers exactly the batch |
| Outbox.Dispatcher.DispatchPending | internal/application/borrow/events.go:132-177 | one uninterrupted pass, row by row: the first hundred pending rows, of one borrow or of all, are marked and have their notifications; no other row changes and no other message is notified |
| EvidenceKeys.BuiltKeyValidates | internal/domain/evidence/evidence.go:136-159 | a key built for a relation validates for it |
| EvidenceKeys.KeyHasOneRelation | internal/domain/evidence/evidence.go:163-194 | no key validates for two relations |
| EvidenceKeys.ValidatedKeyIsBuilt | internal/domain/evidence/evidence.go:163-194 | the validator accepts exactly what the printer prints; its path-cleaning and leading-slash checks exclude nothing more |
| EvidenceKeys.KeyByText | internal/domain/evidence/evidence.go:163-194 | the validator accepts exactly evidence/v1/kind/order/cover/token.extension with a valid order, cover and token and one of three extensions |
| EvidenceKeys.RelationIsExact | internal/application/workorder/service.go:776-782 | the relation stored in place of a key is exactly the one it validates for |

## Left out

- HTTP handlers, routing, cookies, CORS, reports, dashboards and health checks: plumbing.
- Object storage, password hashing, tokens and configuration: foreign libraries. What storage answers about an object is a parameter.
- Auth sessions and refresh rotation: one conditional update.
- SQL and GORM mechanics: a transaction is atomic with rollback, a unique index is an insert guard, an advisory or row lock is a mutex. Locks may be asked for in any order, a transaction's rows or offices are granted together, and all its writes and its commit are one event, so the quantities a shortfall report records are those at commit. Nothing is claimed about deadlocks or progress under contention.
- Users and offices tables: whether an actor's account is active, an assignee is a valid technician and an office exists are parameters of the transactions, since no modelled transaction writes them.
- StartAs: sets a start time and coordinates, which nothing modelled reads.
- Which message a borrow transaction enqueues, and to whom: the outbox takes messages as they come, at the place their time stamps give them.
- UpdateNFCIdentifier: rewrites a whole cover row outside a transaction and is outside the guarded steps.
- Scanning by asset, QR or NFC code: a scan names the cover's id; which of the three columns a code is looked up in is not modelled.
- Customer names, phone numbers, notes, usage types, reasons, coordinates, white-space and Unicode normalisation: not part of the state.
- Time stamps of installation, removal and release: kept as flags. Dates are integers and the current time is a parameter.
- Assignment, removal-due and discrepancy notifications, and the audit log of discrepancies: rows that nothing modelled reads.
- WorkOrderService.WorkOrderService.CheckRemovalDue: whether a candidate's notifications can be stored is a parameter, and the notifications themselves are not modelled.
- Progress.SelectionLeast: orders text by code unit; a database collation may order asset codes differently, which changes which covers are chosen but not how many.
- LoginLimiter.LoginAttemptLimiter.BeginAttempt: the agreement with the whole history is stated while the clock has never gone back; key normalisation and the unused RecordFailure entry point are not modelled.
- Migrations.Runner.Up: the advisory lock makes calls serial; start and apply times are not modelled, and a migration's preflight checks are a parameter. Status without the lock is not modelled.
- Manifest.SplitStatements: text is a sequence of bytes, white space is ASCII, and whether a statement can run is judged on its lines before they are trimmed and joined, when the source is built.
- EvidenceKeys.ValidatedKeyIsBuilt: what counts as a token is a parameter, and image types are given already normalised. The accepted token text is that of a foreign library; section 4 of RFC 9562 describes the canonical form.
- Shortfalls.ShortfallReported: the report's discrepancy row is kept as office and quantities; its audit entry and the notifications to administrators are not modelled.
