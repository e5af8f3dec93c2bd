/** What the invariant and the accounts of free stock mean for plans, loans and reports. */
module Promises {
  import opened Collections
  import opened Stock
  import opened WorkOrders
  import opened Borrows
  import opened Transactions
  import opened Invariants
  import opened InvariantSteps
  import opened Footprints
  import opened Capacity

  // ----- deficits -----

  /** Transactions that check capacity before they commit, and where. */
  function CheckedOffices(s: Ledger, op: Op): set<OfficeId>
  {
    match op
    case OpenOrder(_, office, _, _, _) => {office}
    case EditOrder(w, _, _) => OfficeOf(s, w)
    case Submit(_, w) => OfficeOf(s, w)
    case RequestLoan(_, _, _, r, _) => {r.lender}
    case RetireCover(c) => OwnerOf(s, c)
    case _ => {}
  }

  lemma AvailableBound(s: Ledger, o: OfficeId, w: OrderId, n: nat)
    requires n >= 1 && n <= Available(s, o, Some(w))
    ensures n <= Free(s, o) + PlanAt(s, w, o)
  {
    SlotSplit(s.orders, w, o);
  }

  /** Lender stock is part of the stock at the lender. */
  lemma OwnedIsInStock(s: Ledger, o: OfficeId)
    ensures |OwnedSet(s.covers, o)| <= InStockCount(s, o)
    ensures BorrowableCapacity(s, o) <= Available(s, o, None)
  {
    SubsetSize(OwnedSet(s.covers, o), InStockSet(s.covers, o));
  }

  /** Each capacity guard lets through no more than the office has free. */
  lemma GuardBound(s: Ledger, op: Op, o: OfficeId)
    requires Step(s, op).1 == Done && o in CheckedOffices(s, op)
    ensures Free(s, o) + Delta(s, op, o) >= 0
  {
    hide ScanInstall, UnscanInstall, StartRemoval, ScanRemove, CompleteRemoval, CancelOrder, AttachEvidence;
    hide MarkRemovalDue;
    hide Approve, Reject, CancelBorrow, Activate, Return, MarkOverdue, RegisterBatch, Assign;
    match op
    case OpenOrder(id, office, plan, assignee, ok) => hide UpdateScheduled, SubmitInstall, CreateBorrow, Retire;
    case EditOrder(w, patch, ok) => EditBound(s, w, patch, ok);
    case Submit(a, w) => SubmitBound(s, a, w);
    case RequestLoan(b, a, env, r, chosen) => OwnedIsInStock(s, o);
    case RetireCover(c) => hide UpdateScheduled, SubmitInstall, CreateBorrow, CreateOrder;
    case _ =>
  }

  /** A passed capacity check leaves the office with no deficit. */
  lemma CheckedStaysFree(s: Ledger, op: Op, o: OfficeId)
    requires Inv(s) && Step(s, op).1 == Done && o in CheckedOffices(s, op)
    ensures Free(Step(s, op).0, o) >= 0
  {
    hide *;
    FreeAccount(s, op, o);
    GuardBound(s, op, o);
  }

  lemma EditBound(s: Ledger, w: OrderId, p: Patch, ok: bool)
    requires UpdateScheduled(s, w, p, ok).1 == Done
    ensures UpdateScheduled(s, w, p, ok).0.orders[w].planned <= Free(s, s.orders[w].office) + s.orders[w].planned
  {
    AvailableBound(s, s.orders[w].office, w, UpdateScheduled(s, w, p, ok).0.orders[w].planned);
  }

  lemma SubmitBound(s: Ledger, a: Actor, w: OrderId)
    requires SubmitInstall(s, a, w).1 == Done
    ensures |InstalledCovers(s.installs, w)| <= Free(s, s.orders[w].office) + s.orders[w].planned
  {
    AvailableBound(s, s.orders[w].office, w, |InstalledCovers(s.installs, w)|);
  }

  /** How much a transaction takes from borrower o without asking its plans. */
  function TakenBack(s: Ledger, op: Op, o: OfficeId): nat
  {
    if op.ReturnLoan? && Step(s, op).1 == Done && BorrowerOf(s, op.loan) == {o} then s.borrows[op.loan].qty else 0
  }

  function Deficit(s: Ledger, o: OfficeId): nat
  {
    if Free(s, o) < 0 then -Free(s, o) else 0
  }

  /** A refused transaction changes nothing. */
  lemma RefusedChangesNothing(s: Ledger, op: Op)
    requires Step(s, op).1.Refused?
    ensures Step(s, op).0 == s
  {
    hide *;
    if op.ReturnLoan? {
      ReturnStep(s, op);
      RefusedReturn(s, op.loan, op.actor, op.active);
    } else if op.RequestLoan? || op.ApproveLoan? || op.RejectLoan? || op.CancelLoan? || op.ActivateLoan? || op.LoansFallDue? || op.Register? || op.RetireCover? {
      RefusedLoan(s, op);
    } else {
      RefusedWork(s, op);
    }
  }

  lemma RefusedLoan(s: Ledger, op: Op)
    requires op.RequestLoan? || op.ApproveLoan? || op.RejectLoan? || op.CancelLoan? || op.ActivateLoan? || op.LoansFallDue? || op.Register? || op.RetireCover?
    ensures Step(s, op).1 != Blocked && (Step(s, op).1.Refused? ==> Step(s, op).0 == s)
  {
    hide *;
    if op.Register? || op.RetireCover? {
      RefusedCovers(s, op);
    } else {
      RefusedBorrow(s, op);
    }
  }

  lemma RefusedCovers(s: Ledger, op: Op)
    requires op.Register? || op.RetireCover?
    ensures Step(s, op).1 != Blocked && (Step(s, op).1.Refused? ==> Step(s, op).0 == s)
  {
    hide Free, Storable, BatchRefusal, NewCovers, RetirableCover;
  }

  lemma RefusedBorrow(s: Ledger, op: Op)
    requires op.RequestLoan? || op.ApproveLoan? || op.RejectLoan? || op.CancelLoan? || op.ActivateLoan? || op.LoansFallDue?
    ensures Step(s, op).1 != Blocked && (Step(s, op).1.Refused? ==> Step(s, op).0 == s)
  {
    hide CreateOrder, UpdateScheduled, Assign, ScanInstall, UnscanInstall, SubmitInstall, StartRemoval;
    hide ScanRemove, CompleteRemoval, CancelOrder, RegisterBatch, Retire, ValidClaims, MayHandOver, MayCancel;
    hide AttachEvidence, MarkRemovalDue, Return, Moved, Released, Relocated, NewLinks, ActiveLinks, Log;
    hide BorrowableCapacity, EligibleAt, AvailableAtLender;
  }

  lemma RefusedWork(s: Ledger, op: Op)
    requires !op.RequestLoan? && !op.ApproveLoan? && !op.RejectLoan? && !op.CancelLoan? && !op.ActivateLoan?
    requires !op.ReturnLoan?
    requires !op.LoansFallDue? && !op.Register? && !op.RetireCover?
    ensures Step(s, op).1 != Blocked && (Step(s, op).1.Refused? ==> Step(s, op).0 == s)
  {
    hide CreateBorrow, Approve, Reject, CancelBorrow, Activate, Return, MarkOverdue, RegisterBatch, Retire;
    hide Available, SubmittedCovers, SubmittedInstalls, ReadyToInstall, RemovalRefusal, InstallationRows;
    hide OpenElsewhere, ReservedOn, MayWorkOn, ValidPlanning;
  }

  lemma ReturnStep(s: Ledger, op: Op)
    requires op.ReturnLoan?
    ensures Step(s, op) == Return(s, op.loan, op.actor, op.active)
  {
  }

  lemma RefusedReturn(s: Ledger, b: BorrowId, a: Actor, active: bool)
    requires Return(s, b, a, active).1.Refused?
    ensures Return(s, b, a, active).0 == s
  {
  }

  /** A refused or blocked transaction leaves free stock alone. */
  lemma NotDoneFree(s: Ledger, op: Op, o: OfficeId)
    requires Step(s, op).1 != Done
    ensures Free(Step(s, op).0, o) == Free(s, o)
  {
    if Step(s, op).1 == Blocked {
      BlockedIsReturn(s, op);
      ReturnStep(s, op);
      hide *;
      BlockedFacts(s, op.loan, op.actor, op.active);
      LateFree(s, op.loan, o);
    } else {
      hide *;
      RefusedChangesNothing(s, op);
    }
  }

  lemma LateFree(s: Ledger, b: BorrowId, o: OfficeId)
    requires b in s.borrows
    ensures Free(MarkedLate(s, b), o) == Free(s, o)
  {
    hide Free;
    SameFree(s, MarkedLate(s, b), o);
  }

  lemma BlockedIsReturn(s: Ledger, op: Op)
    requires Step(s, op).1 == Blocked
    ensures op.ReturnLoan?
  {
    hide *;
    if op.RequestLoan? || op.ApproveLoan? || op.RejectLoan? || op.CancelLoan? || op.ActivateLoan? || op.LoansFallDue? || op.Register? || op.RetireCover? {
      RefusedLoan(s, op);
    } else if !op.ReturnLoan? {
      RefusedWork(s, op);
    }
  }

  /** Only a return deepens a deficit, and by no more than it takes back. */
  lemma DeficitStep(s: Ledger, op: Op, o: OfficeId)
    requires Inv(s)
    ensures Deficit(Step(s, op).0, o) <= Deficit(s, o) + TakenBack(s, op, o)
  {
    hide *;
    if Step(s, op).1 != Done {
      NotDoneFree(s, op, o);
      DeficitSame(s, Step(s, op).0, op, o);
    } else {
      FreeAccount(s, op, o);
      DeficitDone(s, op, o);
    }
  }

  lemma DeficitSame(s: Ledger, t: Ledger, op: Op, o: OfficeId)
    requires Free(t, o) == Free(s, o)
    ensures Deficit(t, o) <= Deficit(s, o) + TakenBack(s, op, o)
  {
  }

  lemma DeficitDone(s: Ledger, op: Op, o: OfficeId)
    requires Inv(s) && Step(s, op).1 == Done
    requires Free(Step(s, op).0, o) == Free(s, o) + Delta(s, op, o)
    ensures Deficit(Step(s, op).0, o) <= Deficit(s, o) + TakenBack(s, op, o)
  {
    hide *;
    if o in CheckedOffices(s, op) {
      CheckedStaysFree(s, op, o);
      NoDeficit(s, Step(s, op).0, op, o);
    } else {
      OnlyReturnsTake(s, op, o);
      DeficitFrom(s, Step(s, op).0, op, o);
    }
  }

  lemma NoDeficit(s: Ledger, t: Ledger, op: Op, o: OfficeId)
    requires Free(t, o) >= 0
    ensures Deficit(t, o) <= Deficit(s, o) + TakenBack(s, op, o)
  {
    hide Free, Step;
  }

  lemma DeficitFrom(s: Ledger, t: Ledger, op: Op, o: OfficeId)
    requires Step(s, op).1 == Done && Free(t, o) == Free(s, o) + Delta(s, op, o)
    requires Delta(s, op, o) >= 0 || TakesFrom(s, op, o)
    ensures Deficit(t, o) <= Deficit(s, o) + TakenBack(s, op, o)
  {
    hide Free, Step;
  }

  /** Away from the offices whose capacity a transaction checks, only a return takes stock. */
  lemma OnlyReturnsTake(s: Ledger, op: Op, o: OfficeId)
    requires o !in CheckedOffices(s, op)
    ensures Delta(s, op, o) >= 0 || TakesFrom(s, op, o)
  {
    hide InstalledCovers;
  }

  predicate TakesFrom(s: Ledger, op: Op, o: OfficeId)
  {
    op.ReturnLoan? && BorrowerOf(s, op.loan) == {o} && Delta(s, op, o) == -(s.borrows[op.loan].qty as int)
  }

  /** Total quantity returned from o over a run. */
  function TakenOver(s: Ledger, ops: seq<Op>, o: OfficeId): nat
    decreases |ops|
  {
    if ops == [] then 0 else TakenBack(s, ops[0], o) + TakenOver(Step(s, ops[0]).0, ops[1..], o)
  }

  lemma {:induction false} DeficitOverRuns(s: Ledger, ops: seq<Op>, o: OfficeId)
    requires Inv(s)
    ensures Deficit(After(s, ops), o) <= Deficit(s, o) + TakenOver(s, ops, o)
    decreases |ops|
  {
    hide Inv, Step, Deficit, TakenBack;
    if ops != [] {
      KeepsStep(s, ops[0]);
      DeficitStep(s, ops[0], o);
      DeficitOverRuns(Step(s, ops[0]).0, ops[1..], o);
    }
  }

  // ----- reservations and plans -----

  function ReservedCovers(s: Ledger, o: OfficeId): set<CoverId>
  {
    set k | k in ReservationSet(s.borrows, s.links, o) :: k.1
  }

  /** Reservations are promises of distinct covers in stock at the lender. */
  lemma ReservedFits(s: Ledger, o: OfficeId)
    requires ForeignKeys(s.covers, s.orders, s.installs, s.borrows, s.links)
    requires OneReservation(s.links) && ReservedInPlace(s.covers, s.borrows, s.links)
    ensures ReservedCovers(s, o) <= InStockSet(s.covers, o)
    ensures |ReservedCovers(s, o)| == ReservedCount(s, o)
    ensures |InStockSet(s.covers, o) - ReservedCovers(s, o)| == InStockCount(s, o) - ReservedCount(s, o)
  {
    var rs := ReservationSet(s.borrows, s.links, o);
    forall j, k | j in rs && k in rs && j.1 == k.1 ensures j == k {}
    SecondsSize(rs, ReservedCovers(s, o));
    SubsetSize(ReservedCovers(s, o), InStockSet(s.covers, o));
  }

  /** What the scheduled orders of o need. */
  ghost function Need(s: Ledger, o: OfficeId): map<OrderId, nat>
  {
    map w | w in s.orders && ScheduledAt(s.orders, o, w) :: s.orders[w].planned
  }

  /** The slot count is SUM(planned_qty). */
  lemma PlannedIsSum(s: Ledger, o: OfficeId)
    ensures PlannedCount(s, o) == Sum(Need(s, o))
  {
    var slots := SlotSet(s.orders, o, None);
    forall w | w in Need(s, o) ensures |RowOf(slots, w)| == Need(s, o)[w] {
      SlotRowSize(w, s.orders[w].planned);
      assert RowOf(slots, w) == set i | 0 <= i < s.orders[w].planned :: (w, i);
    }
    RowsSum(slots, Need(s, o));
  }

  /** Disjoint sets of unreserved covers in stock at o, one of the planned size per scheduled order. */
  ghost predicate Plan(s: Ledger, o: OfficeId, parts: map<OrderId, set<CoverId>>)
  {
    Allocation(Need(s, o), InStockSet(s.covers, o) - ReservedCovers(s, o), parts)
  }

  /** All plans of an office can be served at once exactly when its free stock is not negative. */
  lemma PlansRealisable(s: Ledger, o: OfficeId)
    requires Inv(s)
    ensures Free(s, o) >= 0 <==> exists parts :: Plan(s, o, parts)
  {
    hide *;
    Disassemble(s);
    ReservedFits(s, o);
    PlannedIsSum(s, o);
    RealisableFrom(s, o);
  }

  lemma RealisableFrom(s: Ledger, o: OfficeId)
    requires PlannedCount(s, o) == Sum(Need(s, o))
    requires |InStockSet(s.covers, o) - ReservedCovers(s, o)| == InStockCount(s, o) - ReservedCount(s, o)
    ensures Free(s, o) >= 0 <==> exists parts :: Plan(s, o, parts)
  {
    var pool := InStockSet(s.covers, o) - ReservedCovers(s, o);
    hide Need, InStockSet, ReservedCovers;
    if Free(s, o) >= 0 {
      var parts := Allocate(Need(s, o), pool);
      assert Plan(s, o, parts);
    }
    if parts :| Plan(s, o, parts) {
      AllocationFits(Need(s, o), pool, parts);
    }
  }

  /** A deficit never exceeds what is planned. */
  lemma DeficitWithinPlans(s: Ledger, o: OfficeId)
    requires Inv(s)
    ensures Deficit(s, o) <= PlannedCount(s, o)
  {
    Disassemble(s);
    hide Inv;
    ReservedFits(s, o);
  }

  /** Over any run from an empty database, the deficit at an office is bounded by the quantity
      taken back from it and by its plans. */
  lemma DeficitBounded(ops: seq<Op>, o: OfficeId)
    ensures Deficit(After(EMPTY, ops), o) <= TakenOver(EMPTY, ops, o)
    ensures Deficit(After(EMPTY, ops), o) <= PlannedCount(After(EMPTY, ops), o)
  {
    EmptyInv();
    EmptyFree(o);
    hide *;
    DeficitOverRuns(EMPTY, ops, o);
    RunsKeepInv(EMPTY, ops);
    DeficitWithinPlans(After(EMPTY, ops), o);
  }

  lemma EmptyFree(o: OfficeId)
    ensures Deficit(EMPTY, o) == 0
  {
    assert InStockSet(EMPTY.covers, o) == {} && SlotSet(EMPTY.orders, o, None) == {};
    assert ReservationSet(EMPTY.borrows, EMPTY.links, o) == {};
  }

  // ----- loans -----

  ghost function LentBy(s: Ledger, o: OfficeId): map<BorrowId, nat>
  {
    map b | b in s.borrows && Outstanding(s.borrows[b]) && s.borrows[b].lender == o :: s.borrows[b].qty
  }

  ghost function BorrowedBy(s: Ledger, o: OfficeId): map<BorrowId, nat>
  {
    map b | b in s.borrows && Outstanding(s.borrows[b]) && s.borrows[b].borrower == o :: s.borrows[b].qty
  }

  /** Links of the given borrows, counted borrow by borrow. */
  lemma LinksOf(borrows: Borrowings, links: Links, rows: map<BorrowId, nat>)
    requires LinksMatch(borrows, links)
    requires forall b :: b in rows ==> b in borrows && rows[b] == borrows[b].qty
    ensures |set k | k in links && k.0 in rows| == Sum(rows)
  {
    var pairs := set k | k in links && k.0 in rows;
    forall b | b in rows ensures |RowOf(pairs, b)| == rows[b] {
      PairsSize(b, LinkedCovers(links, b));
      forall p | p in pairs && p.0 == b ensures p in Pairs(b, LinkedCovers(links, b)) { assert p == (b, p.1); }
      assert RowOf(pairs, b) == Pairs(b, LinkedCovers(links, b));
    }
    RowsSum(pairs, rows);
  }

  /** ... and cover by cover. */
  lemma CoversOf(borrows: Borrowings, links: Links, rows: map<BorrowId, nat>, away: set<CoverId>)
    requires OneLoan(borrows, links)
    requires forall b :: b in rows ==> b in borrows && Outstanding(borrows[b])
    requires forall c :: c in away <==> exists b :: b in rows && (b, c) in links
    ensures |set k | k in links && k.0 in rows| == |away|
  {
    var pairs := set k | k in links && k.0 in rows;
    forall k | k in pairs ensures k.1 in away && OutOn(borrows, links, k.0, k.1) { assert k == (k.0, k.1); }
    forall c | c in away ensures exists k :: k in pairs && k.1 == c {
      var b :| b in rows && (b, c) in links;
      assert (b, c) in pairs && (b, c).1 == c;
    }
    SecondsSize(pairs, away);
  }

  /** The loan counters count exactly the outstanding borrows: a cover is away from home
      exactly while one of them has it. */
  lemma LoanCounts(s: Ledger, o: OfficeId)
    requires Inv(s)
    ensures CountOnLoanOut(s, o) == Sum(LentBy(s, o))
    ensures CountOnLoanIn(s, o) == Sum(BorrowedBy(s, o))
  {
    var outs := set c | c in s.covers && s.covers[c].owner == o && s.covers[c].current != o && s.covers[c].status != Retired;
    var ins := set c | c in s.covers && s.covers[c].current == o && s.covers[c].owner != o && s.covers[c].status != Retired;
    AwaySets(s, o, outs, ins);
    Disassemble(s);
    hide Inv, LinksMatch, OneLoan, Sum;
    LinksOf(s.borrows, s.links, LentBy(s, o));
    CoversOf(s.borrows, s.links, LentBy(s, o), outs);
    LinksOf(s.borrows, s.links, BorrowedBy(s, o));
    CoversOf(s.borrows, s.links, BorrowedBy(s, o), ins);
  }

  lemma AwaySets(s: Ledger, o: OfficeId, outs: set<CoverId>, ins: set<CoverId>)
    requires Inv(s)
    requires outs == set c | c in s.covers && s.covers[c].owner == o && s.covers[c].current != o && s.covers[c].status != Retired
    requires ins == set c | c in s.covers && s.covers[c].current == o && s.covers[c].owner != o && s.covers[c].status != Retired
    ensures forall c :: c in outs <==> exists b :: b in LentBy(s, o) && (b, c) in s.links
    ensures forall c :: c in ins <==> exists b :: b in BorrowedBy(s, o) && (b, c) in s.links
  {
    hide *;
    Disassemble(s);
    forall c ensures c in outs <==> exists b :: b in LentBy(s, o) && (b, c) in s.links { AwayWitness(s, o, c); }
    forall c ensures c in ins <==> exists b :: b in BorrowedBy(s, o) && (b, c) in s.links { AwayWitness(s, o, c); }
  }

  lemma AwayWitness(s: Ledger, o: OfficeId, c: CoverId)
    requires ForeignKeys(s.covers, s.orders, s.installs, s.borrows, s.links) && RowChecks(s.orders, s.borrows)
    requires OutInPlace(s.covers, s.borrows, s.links) && AwayIsOut(s.covers, s.borrows, s.links)
    ensures (c in s.covers && s.covers[c].owner == o && s.covers[c].current != o && s.covers[c].status != Retired) <==>
            exists b :: b in LentBy(s, o) && (b, c) in s.links
    ensures (c in s.covers && s.covers[c].current == o && s.covers[c].owner != o && s.covers[c].status != Retired) <==>
            exists b :: b in BorrowedBy(s, o) && (b, c) in s.links
  {
    if c in s.covers && s.covers[c].current != s.covers[c].owner {
      var b :| OutOn(s.borrows, s.links, b, c);
      assert s.covers[c].owner == s.borrows[b].lender && s.covers[c].current == s.borrows[b].borrower;
    }
    forall b | (b, c) in s.links && b in s.borrows && Outstanding(s.borrows[b])
      ensures OutOn(s.borrows, s.links, b, c) && c in s.covers
    {
      assert (b, c).1 == c;
    }
  }
}
