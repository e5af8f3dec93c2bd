/** Every transaction moves every row along its entity's transition table. */
module Transitions {
  import opened Collections
  import opened Stock
  import opened WorkOrders
  import opened Borrows
  import opened Transactions
  import opened InvariantSteps
  import opened Footprints
  import opened Promises

  predicate CoversMove(x: Covers, y: Covers)
  {
    forall c :: c in x ==> c in y && (y[c].status == x[c].status || CoverMayMove(x[c].status, y[c].status))
  }

  predicate OrdersMove(x: Orders, y: Orders)
  {
    forall w :: w in x ==> w in y && (y[w].status == x[w].status || OrderMayMove(x[w].status, y[w].status))
  }

  predicate BorrowsMove(x: Borrowings, y: Borrowings)
  {
    forall b :: b in x ==> b in y && (y[b].status == x[b].status || BorrowMayMove(x[b].status, y[b].status))
  }

  ghost predicate Moves(s: Ledger, t: Ledger)
  {
    CoversMove(s.covers, t.covers) && OrdersMove(s.orders, t.orders) && BorrowsMove(s.borrows, t.borrows)
  }

  lemma StayMoves(s: Ledger)
    ensures Moves(s, s)
  {
  }

  /** One order row rewritten or inserted. */
  lemma OrderMoves(s: Ledger, t: Ledger, w: OrderId)
    requires w in t.orders && t == s.(orders := s.orders[w := t.orders[w]], installs := t.installs)
    requires w in s.orders ==> t.orders[w].status == s.orders[w].status || OrderMayMove(s.orders[w].status, t.orders[w].status)
    ensures Moves(s, t)
  {
  }

  /** One cover row rewritten. */
  lemma CoverMoves(s: Ledger, t: Ledger, c: CoverId)
    requires c in s.covers && c in t.covers && t == s.(covers := s.covers[c := t.covers[c]], installs := t.installs)
    requires t.covers[c].status == s.covers[c].status || CoverMayMove(s.covers[c].status, t.covers[c].status)
    ensures Moves(s, t)
  {
  }

  predicate MayBecome(x: BorrowStatus, y: BorrowStatus) { x == y || BorrowMayMove(x, y) }

  /** One borrow row rewritten or inserted, covers perhaps relocated. */
  lemma BorrowMoves(s: Ledger, t: Ledger, b: BorrowId)
    requires b in t.borrows && t.orders == s.orders && t.borrows == s.borrows[b := t.borrows[b]]
    requires SameStatuses(s.covers, t.covers)
    requires b in s.borrows ==> MayBecome(s.borrows[b].status, t.borrows[b].status)
    ensures Moves(s, t)
  {
  }

  predicate SameStatuses(x: Covers, y: Covers)
  {
    forall c :: c in x ==> c in y && y[c].status == x[c].status
  }

  lemma InstallMoves(s: Ledger, t: Ledger)
    requires t == s.(installs := t.installs)
    ensures Moves(s, t)
  {
  }

  lemma PlanningMoves(s: Ledger, op: Op)
    requires op.OpenOrder? || op.EditOrder? || op.AssignOrder? || op.BeginRemoval? || op.RemovalFallsDue?
    ensures Moves(s, Step(s, op).0)
  {
    hide Moves, SubmitInstall, ScanInstall, UnscanInstall, ScanRemove, CompleteRemoval, CancelOrder;
    hide AttachEvidence, Available, MayWorkOn, ValidPlanning;
    hide Approve, Reject, CancelBorrow, MarkOverdue, CreateBorrow, Activate, Return, RegisterBatch, Retire;
    var t := Step(s, op).0;
    StayMoves(s);
    if t != s {
      OrderMoves(s, t, if op.OpenOrder? then op.id else op.order);
    }
  }

  lemma DraftMoves(s: Ledger, op: Op)
    requires op.Scan? || op.Unscan? || op.Attach?
    ensures Moves(s, Step(s, op).0)
  {
    hide Moves, SubmitInstall, CreateOrder, UpdateScheduled, Assign, StartRemoval, MarkRemovalDue, ScanRemove;
    hide CompleteRemoval, CancelOrder, OpenElsewhere, ReservedOn, MayWorkOn;
    hide Approve, Reject, CancelBorrow, MarkOverdue, CreateBorrow, Activate, Return, RegisterBatch, Retire;
    InstallMoves(s, Step(s, op).0);
  }

  lemma FieldMoves(s: Ledger, op: Op)
    requires op.RemoveCover? || op.Complete? || op.CancelWork?
    ensures Moves(s, Step(s, op).0)
  {
    hide Moves, SubmitInstall, CreateOrder, UpdateScheduled, Assign, ScanInstall, UnscanInstall, StartRemoval;
    hide MarkRemovalDue, MayWorkOn, RemovalRefusal, AttachEvidence;
    hide Approve, Reject, CancelBorrow, MarkOverdue, CreateBorrow, Activate, Return, RegisterBatch, Retire;
    hide InstallationRows, InstalledCovers;
    var t := Step(s, op).0;
    StayMoves(s);
    if t != s {
      if op.RemoveCover? {
        CoverMoves(s, t, op.cover);
      } else {
        OrderMoves(s, t, op.order);
      }
    }
  }

  lemma SubmittedMoves(s: Ledger, w: OrderId)
    requires w in s.orders && s.orders[w].status == Scheduled
    requires forall c :: c in s.covers && (w, c) in s.installs ==> s.covers[c].status == InStock
    ensures Moves(s, s.(covers := SubmittedCovers(s, w), installs := SubmittedInstalls(s, w),
          orders := s.orders[w := s.orders[w].(status := Active)]))
  {
  }

  lemma SubmitMoves(s: Ledger, a: Actor, w: OrderId)
    ensures Moves(s, SubmitInstall(s, a, w).0)
  {
    hide Moves, MayWorkOn, Available, LiveElsewhere, ReservedOn, SubmittedCovers, SubmittedInstalls;
    StayMoves(s);
    if SubmitInstall(s, a, w).1 == Done {
      forall c | c in s.covers && (w, c) in s.installs ensures s.covers[c].status == InStock {
        assert c in InstalledCovers(s.installs, w) && ReadyToInstall(s, w, c);
      }
      SubmittedMoves(s, w);
    }
  }

  lemma AnswerMoves(s: Ledger, op: Op)
    requires op.ApproveLoan? || op.RejectLoan? || op.CancelLoan?
    ensures Moves(s, Step(s, op).0)
  {
    hide Moves, SubmitInstall, CreateOrder, UpdateScheduled, Assign, ScanInstall, UnscanInstall, StartRemoval;
    hide MarkRemovalDue, ScanRemove, CompleteRemoval, CancelOrder, AttachEvidence;
    hide CreateBorrow, Activate, Return, RegisterBatch, Retire, ActiveLinks, ReleasedLinks, Log, MarkOverdue;
    StayMoves(s);
    if Step(s, op).1 == Done {
      BorrowMoves(s, Step(s, op).0, op.loan);
    }
  }

  lemma DueMoves(s: Ledger, due: set<BorrowId>, now: int)
    ensures Moves(s, MarkOverdue(s, due, now).0)
  {
    hide Log;
  }

  lemma ArriveMoves(s: Ledger, more: Covers)
    requires forall c :: c in more ==> c !in s.covers
    ensures Moves(s, s.(covers := s.covers + more))
  {
  }

  lemma RegisterMoves(s: Ledger, office: OfficeId, items: seq<Item>)
    ensures Moves(s, RegisterBatch(s, office, items).0)
  {
    hide ItemOf, BatchRefusal, Storable, NewCovers, Prepared, Moves;
    StayMoves(s);
    if RegisterBatch(s, office, items).1 == Done {
      BatchRows(s, office, items);
      ArriveMoves(s, NewCovers(office, items));
    }
  }

  lemma RetireMoves(s: Ledger, c: CoverId)
    ensures Moves(s, Retire(s, c).0)
  {
    hide Free, OpenOn, ReservedOn, Moves;
    StayMoves(s);
    if Retire(s, c).1 == Done {
      CoverMoves(s, Retire(s, c).0, c);
    }
  }

  lemma RequestMoves(s: Ledger, b: BorrowId, a: Actor, env: Lookups, r: Request, chosen: set<CoverId>)
    ensures Moves(s, CreateBorrow(s, b, a, env, r, chosen).0)
  {
    hide BorrowableCapacity, EligibleAt, Log;
  }

  lemma ActivateMoves(s: Ledger, b: BorrowId, a: Actor, active: bool)
    ensures Moves(s, Activate(s, b, a, active).0)
  {
    hide Moves;
    StayMoves(s);
    if Activate(s, b, a, active).1 == Done {
      ActivateFacts(s, b, a, active);
      hide Activate, ActiveLinks, ReleasedLinks, Log;
      BorrowMoves(s, Activate(s, b, a, active).0, b);
    }
  }

  lemma ReturnedTables(s: Ledger, b: BorrowId, t: Ledger)
    requires b in s.borrows
    requires t == Moved(RecordShortfall(Relocated(s, LinkedCovers(s.links, b), s.borrows[b].lender), b,
          s.borrows[b].borrower), b, ReturnAction, Returned)
    ensures t.orders == s.orders && SameStatuses(s.covers, t.covers)
    ensures t.borrows == s.borrows[b := s.borrows[b].(status := Returned)]
  {
    hide PlannedCount, InStockCount, LinkedCovers, Log;
  }

  lemma DoneReturnMoves(s: Ledger, b: BorrowId, a: Actor, active: bool)
    requires Return(s, b, a, active).1 == Done
    ensures Moves(s, Return(s, b, a, active).0)
  {
    ReturnFacts(s, b, a, active);
    assert BorrowMayMove(s.borrows[b].status, Returned);
    hide *;
    ReturnedTables(s, b, Return(s, b, a, active).0);
    BorrowMoves(s, Return(s, b, a, active).0, b);
  }

  lemma LateMoves(s: Ledger, b: BorrowId)
    requires b in s.borrows
    ensures Moves(s, MarkedLate(s, b))
  {
    hide Moves, Log;
    StayMoves(s);
    BorrowMoves(s, MarkedLate(s, b), b);
  }

  lemma ReturnMoves(s: Ledger, b: BorrowId, a: Actor, active: bool)
    ensures Moves(s, Return(s, b, a, active).0)
  {
    hide *;
    match Return(s, b, a, active).1
    case Done => DoneReturnMoves(s, b, a, active);
    case Blocked =>
      BlockedFacts(s, b, a, active);
      LateMoves(s, b);
    case Refused(e) =>
      RefusedReturn(s, b, a, active);
      StayMoves(s);
  }

  lemma StatusesFollowTables(s: Ledger, op: Op)
    ensures Moves(s, Step(s, op).0)
  {
    hide Moves, SubmitInstall, CreateBorrow, Activate, Return, MarkOverdue, RegisterBatch, Retire;
    match op
    case Submit(a, w) => SubmitMoves(s, a, w);
    case RequestLoan(b, a, env, r, chosen) => RequestMoves(s, b, a, env, r, chosen);
    case ActivateLoan(b, a, active) => ActivateMoves(s, b, a, active);
    case ReturnLoan(b, a, active) => ReturnMoves(s, b, a, active);
    case Register(office, items) => RegisterMoves(s, office, items);
    case RetireCover(c) => RetireMoves(s, c);
    case ApproveLoan(_, _, _) => AnswerMoves(s, op);
    case RejectLoan(_, _, _) => AnswerMoves(s, op);
    case CancelLoan(_, _, _) => AnswerMoves(s, op);
    case LoansFallDue(due, now) => DueMoves(s, due, now);
    case Scan(_, _, _) => DraftMoves(s, op);
    case Unscan(_, _, _) => DraftMoves(s, op);
    case RemoveCover(_, _, _) => FieldMoves(s, op);
    case Complete(_, _) => FieldMoves(s, op);
    case CancelWork(_) => FieldMoves(s, op);
    case Attach(_, _, _, _, _, _, _) => DraftMoves(s, op);
    case _ => PlanningMoves(s, op);
  }

  /** Every move a status ever makes, listed. */
  lemma MovesAsListed(s: Ledger, op: Op)
    ensures var t := Step(s, op).0;
            s.covers.Keys <= t.covers.Keys && s.orders.Keys <= t.orders.Keys && s.borrows.Keys <= t.borrows.Keys
    ensures var t := Step(s, op).0;
            forall c :: c in s.covers && c in t.covers && t.covers[c].status != s.covers[c].status ==>
              (s.covers[c].status, t.covers[c].status) in {(InStock, Installed), (InStock, Retired), (Installed, InStock)}
    ensures var t := Step(s, op).0;
            forall w :: w in s.orders && w in t.orders && t.orders[w].status != s.orders[w].status ==>
              (s.orders[w].status, t.orders[w].status) in
                {(Scheduled, Active), (Scheduled, OrderStatus.Cancelled), (Active, RemovalDue), (Active, Removing),
                 (RemovalDue, Removing), (Removing, Completed)}
    ensures var t := Step(s, op).0;
            forall b :: b in s.borrows && b in t.borrows && t.borrows[b].status != s.borrows[b].status ==>
              (s.borrows[b].status, t.borrows[b].status) in
                {(Requested, Approved), (Requested, Rejected), (Requested, BorrowStatus.Cancelled), (Approved, OnLoan),
                 (Approved, BorrowStatus.Cancelled), (OnLoan, Overdue), (OnLoan, Returned), (Overdue, Returned)}
  {
    hide Step;
    StatusesFollowTables(s, op);
  }

  predicate EndedCovers(x: Covers, y: Covers)
  {
    forall c :: c in x && x[c].status == Retired ==> c in y && y[c].status == Retired
  }

  predicate EndedOrders(x: Orders, y: Orders)
  {
    forall w :: w in x && (x[w].status == Completed || x[w].status == OrderStatus.Cancelled) ==>
      w in y && y[w].status == x[w].status
  }

  predicate Ended(x: BorrowStatus) { x == Returned || x == Rejected || x == BorrowStatus.Cancelled }

  predicate EndedBorrows(x: Borrowings, y: Borrowings)
  {
    forall b :: b in x && Ended(x[b].status) ==> b in y && y[b].status == x[b].status
  }

  /** A terminal status is final: no run reopens a completed or cancelled order, a retired cover
      or a closed loan. */
  lemma {:induction false} TerminalIsFinal(s: Ledger, ops: seq<Op>)
    ensures EndedCovers(s.covers, After(s, ops).covers)
    ensures EndedOrders(s.orders, After(s, ops).orders)
    ensures EndedBorrows(s.borrows, After(s, ops).borrows)
    decreases |ops|
  {
    hide Step;
    if ops != [] {
      StatusesFollowTables(s, ops[0]);
      TerminalIsFinal(Step(s, ops[0]).0, ops[1..]);
    }
  }
}
