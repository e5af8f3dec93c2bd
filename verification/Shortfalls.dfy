/** When a return reports a planning shortfall, and when it does not although stock is short. */
module Shortfalls {
  import opened Collections
  import opened Stock
  import opened WorkOrders
  import opened Borrows
  import opened Invariants
  import opened InvariantSteps
  import opened Footprints
  import opened Transactions
  import opened Transitions
  import opened Capacity
  import opened Progress
  import opened Witness

  // ----- reports are about returned loans -----

  /** A report exists only for a loan that has been returned. */
  ghost predicate ReportsFinal(s: Ledger)
  {
    forall b :: b in s.shortfalls ==> b in s.borrows && s.borrows[b].status == Returned
  }

  lemma WorkReportsNothing(s: Ledger, op: Op)
    requires op.OpenOrder? || op.EditOrder? || op.AssignOrder? || op.Scan? || op.Unscan? || op.Submit? || op.BeginRemoval?
             || op.RemoveCover? || op.Complete? || op.CancelWork? || op.Attach? || op.RemovalFallsDue?
    ensures Step(s, op).0.shortfalls == s.shortfalls
  {
    hide Available, MayWorkOn, ValidPlanning, SubmittedCovers, SubmittedInstalls, ReadyToInstall, InstallationRows;
    hide RemovalRefusal, OpenElsewhere, ReservedOn, InstalledCovers;
    hide CreateBorrow, Approve, Reject, CancelBorrow, Activate, Return, MarkOverdue, RegisterBatch, Retire;
  }

  lemma CoversReportNothing(s: Ledger, op: Op)
    requires op.Register? || op.RetireCover?
    ensures Step(s, op).0.shortfalls == s.shortfalls
  {
    hide Free, Storable, BatchRefusal, NewCovers, RetirableCover;
  }

  lemma LoansReportNothing(s: Ledger, op: Op)
    requires op.RequestLoan? || op.ApproveLoan? || op.RejectLoan? || op.CancelLoan? || op.ActivateLoan? || op.LoansFallDue?
    ensures Step(s, op).0.shortfalls == s.shortfalls
  {
    hide BorrowableCapacity, EligibleAt, NewLinks, ReleasedLinks, ActiveLinks, AvailableAtLender, Log, ValidClaims;
    hide RegisterBatch, Retire, CreateOrder, UpdateScheduled, Assign, ScanInstall, UnscanInstall, SubmitInstall, StartRemoval, ScanRemove;
    hide CompleteRemoval, CancelOrder, AttachEvidence, MarkRemovalDue;
  }

  /** Only a completed return reports, and only about the loan it closes. */
  lemma ReturnReports(s: Ledger, b: BorrowId, a: Actor, active: bool)
    ensures var (t, v) := Return(s, b, a, active);
            if v == Done then
              && b in s.borrows && t.shortfalls.Keys <= s.shortfalls.Keys + {b}
              && b in t.borrows && t.borrows[b].status == Returned
            else t.shortfalls == s.shortfalls
  {
    hide InstallationRows, InspectReturn, LinkRows, LinkedCovers, PlannedCount, InStockCount, Log, ValidClaims, MayHandOver;
  }

  /** Every report is an old one or about a loan that has just been returned. */
  lemma ReportsCome(s: Ledger, op: Op)
    ensures var t := Step(s, op).0;
            forall b :: b in t.shortfalls ==> b in s.shortfalls || (b in t.borrows && t.borrows[b].status == Returned)
  {
    if op.ReturnLoan? {
      ReturnReports(s, op.loan, op.actor, op.active);
      hide Return;
    } else if op.Register? || op.RetireCover? {
      hide Step;
      CoversReportNothing(s, op);
    } else if op.RequestLoan? || op.ApproveLoan? || op.RejectLoan? || op.CancelLoan? || op.ActivateLoan? || op.LoansFallDue? {
      hide Step;
      LoansReportNothing(s, op);
    } else {
      hide Step;
      WorkReportsNothing(s, op);
    }
  }

  /** No transaction reopens a loan that has been reported about. */
  lemma ReportsStay(s: Ledger, op: Op)
    requires ReportsFinal(s)
    ensures ReportsFinal(Step(s, op).0)
  {
    hide Step;
    ReportsCome(s, op);
    StatusesFollowTables(s, op);
  }

  lemma {:induction false} ReportsOverRuns(s: Ledger, ops: seq<Op>)
    requires ReportsFinal(s)
    ensures ReportsFinal(After(s, ops))
    decreases |ops|
  {
    hide Step, ReportsFinal;
    if ops != [] {
      ReportsStay(s, ops[0]);
      ReportsOverRuns(Step(s, ops[0]).0, ops[1..]);
    }
  }

  /** In every reachable state the table of reports speaks of returned loans only, so a return
      never finds a report of its own loan. */
  lemma ReportsAreFinal(s: Ledger)
    requires Reachable(s)
    ensures ReportsFinal(s)
  {
    var ops :| s == After(EMPTY, ops);
    ReportsOverRuns(EMPTY, ops);
  }

  // ----- what a return reports -----

  /** The counts at the borrower before and after a completed return. */
  lemma CountsAfterReturn(s: Ledger, b: BorrowId, a: Actor, active: bool)
    requires Return(s, b, a, active).1 == Done && b in s.borrows && s.borrows[b].borrower != s.borrows[b].lender
    ensures var t, o := Return(s, b, a, active).0, s.borrows[b].borrower;
            && InStockCount(t, o) == InStockCount(s, o) - s.borrows[b].qty
            && PlannedCount(t, o) == PlannedCount(s, o) && ReservedCount(t, o) == ReservedCount(s, o)
  {
    ReturnFacts(s, b, a, active);
    var t, loan, cs := Return(s, b, a, active).0, s.borrows[b], LinkedCovers(s.links, b);
    hide Return, Returnable, StillInstalled, Moved, RecordShortfall, LinkedCovers;
    RelocatedTables(s, cs, loan.lender);
    ReturnTables(s, b, Relocated(s, cs, loan.lender), t);
    LeavesBorrower(s, loan, cs);
    hide Relocated;
    SameReservations(s.borrows, t.borrows, s.links, loan.borrower);
    hide InStockSet, SlotSet, ReservationSet;
  }

  lemma LeavesBorrower(s: Ledger, loan: Borrow, cs: set<CoverId>)
    requires loan.borrower != loan.lender && forall c :: c in cs ==> Returnable(s, loan, c)
    ensures |InStockSet(Relocated(s, cs, loan.lender).covers, loan.borrower)| == |InStockSet(s.covers, loan.borrower)| - |cs|
  {
    StockMoves(s.covers, Relocated(s, cs, loan.lender).covers, cs, loan.borrower, loan.borrower);
    hide InStockSet;
  }

  lemma ReportedFrom(s: Ledger, moved: Ledger, b: BorrowId, o: OfficeId, t: Ledger)
    requires b in s.borrows && b !in s.shortfalls && moved == s.(covers := moved.covers)
    requires t == Moved(RecordShortfall(moved, b, o), b, ReturnAction, Returned)
    ensures b in t.shortfalls <==> PlannedCount(t, o) > InStockCount(t, o)
    ensures b in t.shortfalls ==> t.shortfalls[b] == Shortfall(o, PlannedCount(t, o), InStockCount(t, o))
  {
    assert t.orders == moved.orders && t.covers == moved.covers;
    assert PlannedCount(t, o) == PlannedCount(moved, o) && InStockCount(t, o) == InStockCount(moved, o);
    hide SlotSet, InStockSet;
  }

  /** What a return will report, told from the counts before it. A completed return reports a
      shortfall exactly when the borrower's plans exceed the stock it is left with. The report
      leaves out what the borrower itself has promised to lend: a deficit goes unreported exactly
      when the stock left covers the plans but not those promises as well. */
  lemma ShortfallReported(s: Ledger, b: BorrowId, a: Actor, active: bool)
    requires Inv(s) && ReportsFinal(s) && b in s.borrows && Return(s, b, a, active).1 == Done
    ensures var t, o, q := Return(s, b, a, active).0, s.borrows[b].borrower, s.borrows[b].qty;
            var stock, planned, reserved := InStockCount(s, o), PlannedCount(s, o), ReservedCount(s, o);
            && q <= stock && (b in t.shortfalls <==> stock < planned + q)
            && (b in t.shortfalls ==> t.shortfalls[b] == Shortfall(o, planned, stock - q))
            && Free(t, o) == stock - q - planned - reserved
            && (Free(t, o) < 0 && b !in t.shortfalls <==> planned + q <= stock < planned + reserved + q)
            && (b in t.shortfalls ==> Free(t, o) < 0)
  {
    hide *;
    DistinctOffices(s, b);
    FirstReport(s, b);
    ReportOf(s, b, a, active);
    CountsAfterReturn(s, b, a, active);
    FreeIs(Return(s, b, a, active).0, s.borrows[b].borrower);
  }

  lemma DistinctOffices(s: Ledger, b: BorrowId)
    requires Inv(s) && b in s.borrows
    ensures s.borrows[b].borrower != s.borrows[b].lender
  {
    Disassemble(s);
    hide Inv;
  }

  lemma FirstReport(s: Ledger, b: BorrowId)
    requires ReportsFinal(s) && b in s.borrows
    ensures Outstanding(s.borrows[b]) ==> b !in s.shortfalls
  {
  }

  lemma FreeIs(s: Ledger, o: OfficeId)
    ensures Free(s, o) == InStockCount(s, o) - PlannedCount(s, o) - ReservedCount(s, o)
  {
    hide InStockCount, PlannedCount, ReservedCount;
  }

  lemma ReportOf(s: Ledger, b: BorrowId, a: Actor, active: bool)
    requires b in s.borrows && Return(s, b, a, active).1 == Done && (Outstanding(s.borrows[b]) ==> b !in s.shortfalls)
    ensures var t, o := Return(s, b, a, active).0, s.borrows[b].borrower;
            && (b in t.shortfalls <==> PlannedCount(t, o) > InStockCount(t, o))
            && (b in t.shortfalls ==> t.shortfalls[b] == Shortfall(o, PlannedCount(t, o), InStockCount(t, o)))
  {
    ReturnFacts(s, b, a, active);
    hide *;
    var moved := Relocated(s, LinkedCovers(s.links, b), s.borrows[b].lender);
    RelocatedTables(s, LinkedCovers(s.links, b), s.borrows[b].lender);
    ReportedFrom(s, moved, b, s.borrows[b].borrower, Return(s, b, a, active).0);
  }

  /** The calls that leave a deficit nobody is told of, told from the state before the call. */
  lemma UnreportedExactly(s: Ledger, b: BorrowId, a: Actor)
    requires Inv(s) && ReportsFinal(s) && b in s.borrows && Outstanding(s.borrows[b])
    requires ValidClaims(a) && MayHandOver(a, s.borrows[b])
    ensures var (t, v) := Return(s, b, a, true);
            var o, q := s.borrows[b].borrower, s.borrows[b].qty;
            v == Done && Free(t, o) < 0 && b !in t.shortfalls <==>
            AllFree(s, b) && PlannedCount(s, o) + q <= InStockCount(s, o) < PlannedCount(s, o) + ReservedCount(s, o) + q
  {
    hide *;
    ReturnProgress(s, b, a);
    if AllFree(s, b) {
      ShortfallReported(s, b, a, true);
    }
  }

  // ----- a deficit that goes unreported -----

  lemma StockHere()
    ensures InStockCount(SHORT, HERE) == 2
  {
    assert InStockSet(SHORT.covers, HERE) == {"c", "d"};
  }

  lemma PlannedHere()
    ensures PlannedCount(SHORT, HERE) == 1
  {
    assert SlotSet(SHORT.orders, HERE, None) == {("w", 0)};
  }

  lemma ReservedHere()
    ensures ReservedCount(SHORT, HERE) == 1
  {
    assert ReservationSet(SHORT.borrows, SHORT.links, HERE) == {("e", "c")};
  }

  lemma LentHere()
    ensures "b" in SHORT.borrows && Outstanding(SHORT.borrows["b"]) && MayHandOver(LENDER, SHORT.borrows["b"])
    ensures SHORT.borrows["b"].borrower == HERE && SHORT.borrows["b"].qty == 1
    ensures ValidClaims(LENDER) && AllFree(SHORT, "b") && ReportsFinal(SHORT)
  {
  }

  /** A run after which the lender takes its cover back, HERE ends one short, and nothing is
      reported: HERE has promised its own cover before it plans for one. */
  lemma DeficitUnreported()
    ensures var s := After(EMPTY, LENT + PROMISED);
            var (t, v) := Return(s, "b", LENDER, true);
            v == Done && Free(t, HERE) == -1 && "b" !in t.shortfalls
  {
    StockHere();
    PlannedHere();
    ReservedHere();
    LentHere();
    EmptyInv();
    hide *;
    ShortReached();
    RunsKeepInv(EMPTY, LENT + PROMISED);
    ReturnProgress(SHORT, "b", LENDER);
    ShortfallReported(SHORT, "b", LENDER, true);
  }
}
