/** When a loan becomes OVERDUE, and that its return date may still lie ahead. */
module Overdues {
  import opened Collections
  import opened Stock
  import opened WorkOrders
  import opened Borrows
  import opened Invariants
  import opened InvariantSteps
  import opened Footprints
  import opened Transactions
  import opened Promises
  import opened Progress
  import opened LateReturns
  import opened Witness

  /** The clock readings a transaction makes, if it makes any. */
  predicate TakesPlaceAt(op: Op, now: int)
  {
    && (op.LoansFallDue? ==> op.now == now)
    && (op.RemovalFallsDue? ==> op.now == now)
    && (op.RequestLoan? ==> op.request.now == now)
  }

  /** The guard of the branch that keeps a loan because a cover is still installed or scanned. */
  predicate MeetsInstalled(s: Ledger, op: Op, b: BorrowId)
  {
    && op.ReturnLoan? && op.loan == b && op.active && ValidClaims(op.actor)
    && b in s.borrows && MayHandOver(op.actor, s.borrows[b]) && !AllFree(s, b)
  }

  /** What one transaction makes of the row of a loan. */
  ghost predicate Becomes(s: Ledger, t: Ledger, b: BorrowId, status: BorrowStatus)
  {
    b in s.borrows && b in t.borrows && t.borrows[b] == s.borrows[b].(status := status)
  }

  lemma StaysAsItIs(s: Ledger, b: BorrowId, op: Op)
    requires Inv(s) && b in s.borrows && BorrowRow(b) !in LockedRows(op)
    ensures Becomes(s, Step(s, op).0, b, s.borrows[b].status)
  {
    assert b in s.audit by { AuditOf(s); }
    hide Inv, Step, LockedRows;
    BorrowUntouched(s, b, op);
  }

  lemma AnswersNeverLate(s: Ledger, b: BorrowId, op: Op)
    requires b in s.borrows && (op.ApproveLoan? || op.RejectLoan? || op.CancelLoan?) && op.loan == b
    ensures var x := if op.ApproveLoan? then Approved else if op.RejectLoan? then Rejected else BorrowStatus.Cancelled;
            Becomes(s, Step(s, op).0, b, if Step(s, op).1 == Done then x else s.borrows[b].status)
  {
    hide ActiveLinks, ReleasedLinks, Log, ValidClaims, IsExecOf, MayCancel, CreateBorrow, Activate, Return, MarkOverdue;
    hide CreateOrder, UpdateScheduled, Assign, ScanInstall, UnscanInstall, SubmitInstall, StartRemoval, ScanRemove;
    hide CompleteRemoval, CancelOrder, AttachEvidence, MarkRemovalDue, RegisterBatch, Retire;
  }

  lemma HandoverNeverLate(s: Ledger, b: BorrowId, a: Actor, active: bool)
    requires b in s.borrows
    ensures var (t, v) := Activate(s, b, a, active);
            Becomes(s, t, b, if v == Done then OnLoan else s.borrows[b].status)
  {
    hide ActiveLinks, ReleasedLinks, Log, ValidClaims, MayHandOver, AvailableAtLender;
  }

  lemma RequestFindsTaken(s: Ledger, b: BorrowId, a: Actor, env: Lookups, r: Request, chosen: set<CoverId>)
    requires b in s.borrows
    ensures CreateBorrow(s, b, a, env, r, chosen).0 == s
  {
    hide BorrowableCapacity, EligibleAt, NewLinks, Log, ValidClaims;
  }

  lemma ReturnMakes(s: Ledger, b: BorrowId, a: Actor, active: bool)
    requires b in s.borrows
    ensures var (t, v) := Return(s, b, a, active);
            Becomes(s, t, b, if v == Done then Returned else if v == Blocked then Overdue else s.borrows[b].status)
    ensures Return(s, b, a, active).1 == Blocked ==> Outstanding(s.borrows[b])
  {
    hide InspectReturn, LinkRows, LinkedCovers, PlannedCount, InStockCount, Log, ValidClaims, MayHandOver;
  }

  lemma GuardedReturn(s: Ledger, b: BorrowId, a: Actor, active: bool)
    requires b in s.borrows && Return(s, b, a, active).1 == Blocked
    ensures active && ValidClaims(a) && MayHandOver(a, s.borrows[b]) && Outstanding(s.borrows[b])
  {
    hide InspectReturn, LinkRows, LinkedCovers, PlannedCount, InStockCount, Log;
  }

  /** A return is blocked exactly when an authorised actor meets an open installation. */
  lemma BlockedExactly(s: Ledger, b: BorrowId, a: Actor, active: bool)
    requires Inv(s) && b in s.borrows
    ensures Return(s, b, a, active).1 == Blocked <==> Outstanding(s.borrows[b]) && MeetsInstalled(s, ReturnLoan(b, a, active), b)
  {
    hide Inv, Return, AllFree, ValidClaims, MayHandOver;
    if Return(s, b, a, active).1 == Blocked {
      GuardedReturn(s, b, a, active);
    }
    if Outstanding(s.borrows[b]) && active && ValidClaims(a) && MayHandOver(a, s.borrows[b]) {
      ReturnProgress(s, b, a);
    }
  }

  lemma JobMakes(s: Ledger, b: BorrowId, due: set<BorrowId>, now: int)
    requires b in s.borrows
    ensures var (t, v) := MarkOverdue(s, due, now);
            && Becomes(s, t, b, if v == Done && b in due then Overdue else s.borrows[b].status)
            && (v == Done && b in due ==> IsDue(s.borrows[b], now))
  {
    hide Log;
  }

  /** The job's own way into OVERDUE. */
  predicate FoundDue(s: Ledger, op: Op, b: BorrowId)
  {
    op.LoansFallDue? && b in op.due && Step(s, op).1 == Done
  }

  lemma LoanListedBack(due: set<BorrowId>, b: BorrowId)
    ensures b in due <==> BorrowRow(b) in Loans(due)
  {
  }

  lemma OwnTransaction(s: Ledger, b: BorrowId, op: Op)
    requires Inv(s) && b in s.borrows && s.borrows[b].status != Overdue
    requires op.RequestLoan? || op.ApproveLoan? || op.RejectLoan? || op.CancelLoan? || op.ActivateLoan? || op.ReturnLoan?
    requires op.loan == b
    ensures var t := Step(s, op).0;
            && b in t.borrows && t.borrows[b] == s.borrows[b].(status := t.borrows[b].status)
            && (t.borrows[b].status == Overdue <==> s.borrows[b].status == OnLoan && MeetsInstalled(s, op, b))
  {
    hide Inv, MeetsInstalled, CreateBorrow, Approve, Reject, CancelBorrow, Activate, Return, AllFree;
    NotAReturn(s, op, b);
    match op
    case RequestLoan(_, a, env, r, chosen) => RequestFindsTaken(s, b, a, env, r, chosen);
    case ActivateLoan(_, a, active) => HandoverNeverLate(s, b, a, active);
    case ReturnLoan(_, a, active) =>
      ReturnMakes(s, b, a, active);
      BlockedExactly(s, b, a, active);
    case _ => AnswersNeverLate(s, b, op);
  }

  lemma NotAReturn(s: Ledger, op: Op, b: BorrowId)
    ensures !op.ReturnLoan? ==> !MeetsInstalled(s, op, b)
  {
  }

  /** The two ways into OVERDUE: the job finds the loan due, or a return of a loan that is out
      meets an open installation. Nothing else about a loan's row ever changes with its status. */
  lemma IntoOverdue(s: Ledger, op: Op, b: BorrowId)
    requires Inv(s) && b in s.borrows && s.borrows[b].status != Overdue
    ensures var t := Step(s, op).0;
            && b in t.borrows && t.borrows[b] == s.borrows[b].(status := t.borrows[b].status)
            && (t.borrows[b].status == Overdue <==>
                FoundDue(s, op, b) || (s.borrows[b].status == OnLoan && MeetsInstalled(s, op, b)))
    ensures FoundDue(s, op, b) ==> IsDue(s.borrows[b], op.now)
  {
    LockedRowsAre(s, op);
    hide Inv, Step, LockedRows, MeetsInstalled, IsDue;
    if op.LoansFallDue? {
      NotAReturn(s, op, b);
      LoanListedBack(op.due, b);
      DueStep(s, op);
      JobMakes(s, b, op.due, op.now);
      hide MarkOverdue;
    } else if BorrowRow(b) in LockedRows(op) {
      OwnRow(op, b);
      OwnTransaction(s, b, op);
    } else {
      StaysAsItIs(s, b, op);
      OtherReturn(s, op, b);
    }
  }

  lemma DueStep(s: Ledger, op: Op)
    requires op.LoansFallDue?
    ensures Step(s, op) == MarkOverdue(s, op.due, op.now)
  {
    hide MarkOverdue;
  }

  lemma OwnRow(op: Op, b: BorrowId)
    requires BorrowRow(b) in LockedRows(op) && !op.LoansFallDue?
    ensures op.RequestLoan? || op.ApproveLoan? || op.RejectLoan? || op.CancelLoan? || op.ActivateLoan? || op.ReturnLoan?
    ensures op.loan == b
  {
  }

  lemma OtherReturn(s: Ledger, op: Op, b: BorrowId)
    requires BorrowRow(b) !in LockedRows(op)
    ensures !MeetsInstalled(s, op, b)
  {
  }

  /** A transaction at a time not past the return date makes a loan OVERDUE if and only if it is
      an authorised return of the loan, out at the time, that meets an open installation. */
  lemma OverdueAheadOfTime(s: Ledger, op: Op, b: BorrowId, now: int)
    requires Inv(s) && b in s.borrows && s.borrows[b].status != Overdue
    requires TakesPlaceAt(op, now) && now <= s.borrows[b].returnDate
    ensures var t := Step(s, op).0;
            b in t.borrows && (t.borrows[b].status == Overdue <==> s.borrows[b].status == OnLoan && MeetsInstalled(s, op, b))
  {
    hide Inv, Step, MeetsInstalled;
    IntoOverdue(s, op, b);
  }

  /** Step i of a run makes b OVERDUE because its return met an open installation. */
  ghost predicate BlockedAt(s: Ledger, ops: seq<Op>, b: BorrowId, i: nat)
  {
    i < |ops| && MeetsInstalled(After(s, ops[..i]), ops[i], b)
  }

  /** Over a run that never reads a clock past the return date, a loan ends up OVERDUE only
      because some return of it met an open installation. */
  lemma {:induction false} EarlyOverdueHasCause(s: Ledger, ops: seq<Op>, b: BorrowId)
    requires Inv(s) && b in s.borrows && s.borrows[b].status != Overdue
    requires forall i :: 0 <= i < |ops| && ops[i].LoansFallDue? ==> ops[i].now <= s.borrows[b].returnDate
    requires b in After(s, ops).borrows && After(s, ops).borrows[b].status == Overdue
    ensures exists i: nat :: BlockedAt(s, ops, b, i)
    decreases |ops|
  {
    hide Inv, Step, MeetsInstalled;
    if ops != [] {
      IntoOverdue(s, ops[0], b);
      KeepsStep(s, ops[0]);
      var t := Step(s, ops[0]).0;
      if t.borrows[b].status == Overdue {
        assert ops[..0] == [];
        assert BlockedAt(s, ops, b, 0);
      } else {
        EarlyOverdueHasCause(t, ops[1..], b);
        var i: nat :| BlockedAt(t, ops[1..], b, i);
        assert ops[..i + 1][1..] == ops[1..][..i];
        assert BlockedAt(s, ops, b, i + 1);
      }
    }
  }

  // ----- an early OVERDUE -----

  lemma DraftedLoan()
    ensures "b" in DRAFTED.borrows && DRAFTED.borrows["b"].status == OnLoan && DRAFTED.borrows["b"].returnDate == 9
    ensures MeetsInstalled(DRAFTED, ReturnLoan("b", LENDER, true), "b") && "b" !in DueBorrows(DRAFTED, 5)
  {
    assert ("w", "d") in DRAFTED.installs && ("w", "d").1 == "d" && Open(DRAFTED.installs[("w", "d")]);
    assert OpenOn(DRAFTED.installs, "d") && "d" in LinkedCovers(DRAFTED.links, "b");
  }

  /** A run after which the loan, due at 9, is not due at 5; the lender's return then finds the
      borrower's draft on the cover, answers with a conflict and leaves the loan OVERDUE. */
  lemma EarlyOverdue()
    ensures var s := After(EMPTY, LENT + SCANNED);
            && "b" in s.borrows && s.borrows["b"].returnDate == 9 && "b" !in DueBorrows(s, 5)
            && var (t, v) := Return(s, "b", LENDER, true);
               v == Blocked && "b" in t.borrows && t.borrows["b"].status == Overdue
  {
    DraftedLoan();
    EmptyInv();
    hide *;
    DraftedReached();
    RunsKeepInv(EMPTY, LENT + SCANNED);
    OutOnLoan(DRAFTED, "b");
    BlockedExactly(DRAFTED, "b", LENDER, true);
    ReturnMakes(DRAFTED, "b", LENDER, true);
    BecomesLate(DRAFTED, Return(DRAFTED, "b", LENDER, true).0, "b");
  }

  lemma OutOnLoan(s: Ledger, b: BorrowId)
    requires b in s.borrows && s.borrows[b].status == OnLoan
    ensures Outstanding(s.borrows[b])
  {
  }

  lemma BecomesLate(s: Ledger, t: Ledger, b: BorrowId)
    requires Becomes(s, t, b, Overdue)
    ensures b in t.borrows && t.borrows[b].status == Overdue
  {
  }
}
