/** Transactions taken apart: what each checks under its row locks, its planning lock and each
    cover lock, what it then writes, and why a check that passed stays passed. */
module Stages {
  import opened Collections
  import opened Stock
  import opened WorkOrders
  import opened Borrows
  import opened Transactions
  import opened Invariants
  import opened InvariantSteps
  import opened Footprints

  /** Transactions whose checks and writes all read rows they lock. */
  predicate RowOnly(op: Op)
  {
    || op.AssignOrder? || op.Unscan? || op.BeginRemoval? || op.Complete? || op.CancelWork? || op.Attach?
    || op.RemovalFallsDue? || op.ApproveLoan? || op.RejectLoan? || op.CancelLoan? || op.LoansFallDue?
  }

  /** The checks made on the order, borrow or unique-index rows. */
  predicate RowGuard(s: Ledger, op: Op)
  {
    match op
    case OpenOrder(id, office, plan, assignee, ok) => ValidPlanning(plan) && (assignee.Some? ==> ok) && id !in s.orders
    case EditOrder(w, p, ok) =>
      && w in s.orders && s.orders[w].status == Scheduled && ValidPlanning(Merged(s.orders[w], p))
      && (p.setAssignee && p.assignee.Some? ==> ok)
    case Scan(a, w, c) => FieldRefusal(s, a, w, {Scheduled}) == None
    case Submit(a, w) => FieldRefusal(s, a, w, {Scheduled}) == None && InstalledCovers(s.installs, w) != {}
    case RemoveCover(a, w, c) => FieldRefusal(s, a, w, {Removing}) == None && (w, c) in s.installs && s.installs[(w, c)].installed
    case RequestLoan(b, a, env, r, chosen) =>
      && ValidClaims(a) && a.role != Admin && a.office.Some? && r.lender != "" && r.lender != a.office.value
      && r.qty >= 1 && r.now < r.returnDate && env == Lookups(true, true, true) && |chosen| == r.qty
      && b !in s.borrows && (forall k :: k in s.links ==> k.0 != b)
    case ActivateLoan(b, a, active) =>
      && ValidClaims(a) && active && b in s.borrows && MayHandOver(a, s.borrows[b]) && s.borrows[b].status == Approved
      && |ActiveLinks(s.links, b)| == s.borrows[b].qty
    case ReturnLoan(b, a, active) =>
      && ValidClaims(a) && active && b in s.borrows && MayHandOver(a, s.borrows[b]) && Outstanding(s.borrows[b])
      && |LinkedCovers(s.links, b)| == s.borrows[b].qty
    case Register(office, items) =>
      && items != [] && BatchRefusal(office, items, {}) == None
      && (forall i, j :: 0 <= i < j < |items| ==> items[i].id != items[j].id)
      && (forall i :: 0 <= i < |items| ==> CodesFree(s.covers, CodesOf(Prepared(office, items[i]))))
    case RetireCover(c) => c in s.covers && s.covers[c].owner != ""
    case _ => Step(s, op).1 == Done
  }

  /** The capacity check, made under the planning lock. */
  predicate CapacityGuard(s: Ledger, op: Op)
  {
    match op
    case OpenOrder(id, office, plan, assignee, ok) => plan.qty.Some? && plan.qty.value <= Available(s, office, None)
    case EditOrder(w, p, ok) => w in s.orders && Merged(s.orders[w], p).qty.value <= Available(s, s.orders[w].office, Some(w))
    case Submit(a, w) => w in s.orders && |InstalledCovers(s.installs, w)| <= Available(s, s.orders[w].office, Some(w))
    case RequestLoan(b, a, env, r, chosen) => r.qty <= BorrowableCapacity(s, r.lender)
    case RetireCover(c) => c in s.covers && Free(s, s.covers[c].owner) >= 1
    case _ => true
  }

  /** The check made on one cover, under that cover's lock. */
  predicate CoverGuard(s: Ledger, op: Op, c: CoverId)
  {
    match op
    case Scan(a, w, _) =>
      && w in s.orders && InStockAt(s.covers, s.orders[w].office, c)
      && ((w, c) in s.installs || (!OpenElsewhere(s.installs, w, c) && !ReservedOn(s.links, c)))
    case Submit(a, w) =>
      && w in s.orders && (w, c) in s.installs && !s.installs[(w, c)].installed && ReadyToInstall(s, w, c)
      && s.installs[(w, c)].installPhoto == Some(Photo(InstallPhoto, w, c))
    case RemoveCover(a, w, _) =>
      && w in s.orders && (w, c) in s.installs && c in s.covers
      && (s.installs[(w, c)].removed || (s.covers[c].status == Installed && s.covers[c].current == s.orders[w].office))
    case RequestLoan(b, a, env, r, chosen) => EligibleAt(s, r.lender, c)
    case ActivateLoan(b, a, active) => b in s.borrows && AvailableAtLender(s, s.borrows[b], c)
    case ReturnLoan(b, a, active) => b in s.borrows && !StillInstalled(s, c) && Returnable(s, s.borrows[b], c)
    case Register(office, items) => c !in s.covers
    case RetireCover(_) => c in s.covers && RetirableCover(s, c)
    case _ => true
  }

  /** What the transaction writes once its checks are behind it; it checks nothing again. */
  function Effect(s: Ledger, op: Op): Ledger
  {
    match op
    case OpenOrder(id, office, plan, assignee, ok) =>
      if !ValidPlanning(plan) then s
      else s.(orders := s.orders[id := WorkOrder(office, Scheduled, plan.qty.value, plan.installDate.value,
            plan.removalDate.value, assignee)])
    case EditOrder(w, p, ok) =>
      if w !in s.orders || !ValidPlanning(Merged(s.orders[w], p)) then s
      else
        var plan := Merged(s.orders[w], p);
        s.(orders := s.orders[w := s.orders[w].(planned := plan.qty.value, installDate := plan.installDate.value,
              removalDate := plan.removalDate.value,
                                                assignee := if p.setAssignee then p.assignee else s.orders[w].assignee)])
    case Scan(a, w, c) => if (w, c) in s.installs then s else s.(installs := s.installs[(w, c) := DRAFT])
    case Submit(a, w) =>
      if w !in s.orders then s
      else s.(covers := SubmittedCovers(s, w), installs := SubmittedInstalls(s, w),
            orders := s.orders[w := s.orders[w].(status := Active)])
    case RemoveCover(a, w, c) =>
      if (w, c) !in s.installs || s.installs[(w, c)].removed || c !in s.covers then s
      else s.(installs := s.installs[(w, c) := s.installs[(w, c)].(removed := true)],
            covers := s.covers[c := s.covers[c].(status := InStock)])
    case RequestLoan(b, a, env, r, chosen) =>
      if r.qty < 0 || a.office.None? then s
      else s.(borrows := s.borrows[b := Borrow(a.office.value, r.lender, Requested, r.qty, r.returnDate, a.id)],
              links := s.links + NewLinks(b, chosen),
              audit := s.audit[b := Log(s.audit, b) + [AuditEvent(CreateAction, None, Requested)]])
    case ActivateLoan(b, a, active) =>
      if b !in s.borrows then s
      else Moved(Released(Relocated(s, ActiveLinks(s.links, b), s.borrows[b].borrower), b), b, ActivateAction, OnLoan)
    case ReturnLoan(b, a, active) =>
      if b !in s.borrows then s
      else Moved(RecordShortfall(Relocated(s, LinkedCovers(s.links, b), s.borrows[b].lender), b,
            s.borrows[b].borrower), b, ReturnAction, Returned)
    case Register(office, items) => s.(covers := s.covers + NewCovers(office, items))
    case RetireCover(c) => if c !in s.covers then s else s.(covers := s.covers[c := s.covers[c].(status := Retired)])
    case _ => Step(s, op).0
  }

  predicate AllGuards(s: Ledger, op: Op)
  {
    RowGuard(s, op) && CapacityGuard(s, op) && forall c :: c in Locks(s, op).covers ==> CoverGuard(s, op, c)
  }

  // ----- the parts make up the whole -----

  lemma PlanningParts(s: Ledger, op: Op)
    requires op.OpenOrder? || op.EditOrder? || op.Scan? || op.RemoveCover?
    ensures AllGuards(s, op) <==> Step(s, op).1 == Done
    ensures AllGuards(s, op) ==> Effect(s, op) == Step(s, op).0
  {
    hide UnscanInstall, StartRemoval, CompleteRemoval, CancelOrder, AttachEvidence, MarkRemovalDue;
    hide SubmitInstall, Available, OpenElsewhere, ReservedOn;
    hide Approve, Reject, CancelBorrow, Activate, Return, MarkOverdue, RegisterBatch, Assign, CreateBorrow;
    hide Retire, EligibleAt, Moved, Relocated;
    assert op.Scan? || op.RemoveCover? ==> Locks(s, op).covers == {op.cover};
  }

  lemma SubmitParts(s: Ledger, a: Actor, w: OrderId)
    ensures AllGuards(s, Submit(a, w)) <==> SubmitInstall(s, a, w).1 == Done
    ensures AllGuards(s, Submit(a, w)) ==> Effect(s, Submit(a, w)) == SubmitInstall(s, a, w).0
  {
    hide SubmittedCovers, SubmittedInstalls, Available, LiveElsewhere, ReservedOn, Step, InStockAt;
    assert Locks(s, Submit(a, w)).covers == InstalledCovers(s.installs, w);
  }

  lemma RequestParts(s: Ledger, op: Op)
    requires op.RequestLoan?
    ensures AllGuards(s, op) <==> CreateBorrow(s, op.loan, op.actor, op.env, op.request, op.chosen).1 == Done
    ensures AllGuards(s, op) ==> Effect(s, op) == CreateBorrow(s, op.loan, op.actor, op.env, op.request, op.chosen).0
  {
    hide EligibleAt, BorrowableCapacity, Step;
    assert Locks(s, op).covers == op.chosen;
    assert forall c :: CoverGuard(s, op, c) <==> EligibleAt(s, op.request.lender, c);
  }

  lemma ActivateParts(s: Ledger, op: Op)
    requires op.ActivateLoan?
    ensures AllGuards(s, op) <==> Activate(s, op.loan, op.actor, op.active).1 == Done
    ensures AllGuards(s, op) ==> Effect(s, op) == Activate(s, op.loan, op.actor, op.active).0
  {
    hide AvailableAtLender, Step, Moved, Released, Relocated;
    assert Locks(s, op).covers == ActiveLinks(s.links, op.loan);
    if op.loan in s.borrows {
      assert forall c :: CoverGuard(s, op, c) <==> AvailableAtLender(s, s.borrows[op.loan], c);
    }
  }

  lemma ReturnParts(s: Ledger, op: Op)
    requires op.ReturnLoan?
    ensures AllGuards(s, op) <==> Return(s, op.loan, op.actor, op.active).1 == Done
    ensures AllGuards(s, op) ==> Effect(s, op) == Return(s, op.loan, op.actor, op.active).0
  {
    hide StillInstalled, Returnable, InspectReturn, Step, Moved, RecordShortfall, Relocated, MarkedLate;
    assert Locks(s, op).covers == LinkedCovers(s.links, op.loan);
    if op.loan in s.borrows {
      InspectedAll(s, s.borrows[op.loan], LinkRows(s, op.loan));
      assert forall c :: CoverGuard(s, op, c) <==> !StillInstalled(s, c) && Returnable(s, s.borrows[op.loan], c);
      hide CoverGuard;
    }
    hide Locks, LinkRows, LinkedCovers;
  }

  lemma RegistryParts(s: Ledger, op: Op)
    requires op.Register? || op.RetireCover?
    ensures AllGuards(s, op) <==> Step(s, op).1 == Done
    ensures AllGuards(s, op) ==> Effect(s, op) == Step(s, op).0
  {
    hide UnscanInstall, StartRemoval, CompleteRemoval, CancelOrder, AttachEvidence, MarkRemovalDue;
    hide SubmitInstall, Available, OpenOn, ReservedOn;
    hide Approve, Reject, CancelBorrow, Activate, Return, MarkOverdue, Assign, CreateBorrow, CreateOrder;
    hide UpdateScheduled, ScanInstall, ScanRemove;
    hide Free, BatchRefusal, NewCovers, CodesFree, Prepared;
    if op.Register? {
      assert forall i :: 0 <= i < |op.items| ==> op.items[i].id in ItemIds(op.items);
      assert forall c :: CoverGuard(s, op, c) <==> c !in s.covers;
      assert Locks(s, op).covers == ItemIds(op.items);
    } else {
      assert Locks(s, op).covers == {op.cover};
      assert CoverGuard(s, op, op.cover) <==> op.cover in s.covers && RetirableCover(s, op.cover);
    }
  }

  /** The checks together accept exactly what the atomic transaction accepts, and the writes are its writes. */
  lemma PartsMakeWhole(s: Ledger, op: Op)
    ensures AllGuards(s, op) <==> Step(s, op).1 == Done
    ensures AllGuards(s, op) ==> Effect(s, op) == Step(s, op).0
  {
    hide *;
    if RowOnly(op) {
      RowOnlyParts(s, op);
    } else {
      match op
      case Submit(a, w) => SubmitParts(s, a, w); StepIs(s, op);
      case RequestLoan(_, _, _, _, _) => RequestParts(s, op); StepIs(s, op);
      case ActivateLoan(_, _, _) => ActivateParts(s, op); StepIs(s, op);
      case ReturnLoan(_, _, _) => ReturnParts(s, op); StepIs(s, op);
      case Register(_, _) => RegistryParts(s, op);
      case RetireCover(_) => RegistryParts(s, op);
      case OpenOrder(_, _, _, _, _) => PlanningParts(s, op);
      case EditOrder(_, _, _) => PlanningParts(s, op);
      case Scan(_, _, _) => PlanningParts(s, op);
      case RemoveCover(_, _, _) => PlanningParts(s, op);
      case _ => RowOnlyKinds(op);
    }
  }

  lemma RowOnlyKinds(op: Op)
    requires !op.Submit? && !op.RequestLoan? && !op.ActivateLoan? && !op.ReturnLoan? && !op.Register?
    requires !op.RetireCover?
    requires !op.OpenOrder? && !op.EditOrder? && !op.Scan? && !op.RemoveCover?
    ensures RowOnly(op)
  {
  }

  lemma StepIs(s: Ledger, op: Op)
    ensures op.Submit? ==> Step(s, op) == SubmitInstall(s, op.actor, op.order)
    ensures op.RequestLoan? ==> Step(s, op) == CreateBorrow(s, op.loan, op.actor, op.env, op.request, op.chosen)
    ensures op.ActivateLoan? ==> Step(s, op) == Activate(s, op.loan, op.actor, op.active)
    ensures op.ReturnLoan? ==> Step(s, op) == Return(s, op.loan, op.actor, op.active)
  {
    hide SubmitInstall, CreateBorrow, Activate, Return;
  }

  lemma RowOnlyParts(s: Ledger, op: Op)
    requires RowOnly(op)
    ensures AllGuards(s, op) <==> Step(s, op).1 == Done
    ensures Effect(s, op) == Step(s, op).0
  {
    hide Step;
  }

  // ----- a passed check stays passed -----

  /** What f leaves alone about order w. */
  lemma SameOrder(s: Ledger, t: Ledger, f: Footprint, w: OrderId)
    requires Kept(s, t, f) && OrderRow(w) !in f.rows
    ensures w in s.orders <==> w in t.orders
    ensures w in s.orders ==> t.orders[w] == s.orders[w]
    ensures forall c :: (w, c) in s.installs <==> (w, c) in t.installs
    ensures forall c :: (w, c) in s.installs ==> s.installs[(w, c)] == t.installs[(w, c)]
    ensures InstalledCovers(s.installs, w) == InstalledCovers(t.installs, w)
  {
    assert OrdersKept(s.orders, t.orders, f.rows) && InstallsKept(s.installs, t.installs, f.rows, f.covers);
    hide Kept;
    forall c ensures (w, c) in s.installs <==> (w, c) in t.installs { assert (w, c).0 == w; }
    forall c | (w, c) in s.installs ensures s.installs[(w, c)] == t.installs[(w, c)] { assert (w, c).0 == w; }
  }

  /** What f leaves alone about borrow b. */
  lemma SameBorrow(s: Ledger, t: Ledger, f: Footprint, b: BorrowId)
    requires Kept(s, t, f) && BorrowRow(b) !in f.rows
    ensures b in s.borrows <==> b in t.borrows
    ensures b in s.borrows ==> t.borrows[b] == s.borrows[b]
    ensures (exists k :: k in s.links && k.0 == b) <==> (exists k :: k in t.links && k.0 == b)
    ensures LinkedCovers(s.links, b) == LinkedCovers(t.links, b) && ActiveLinks(s.links, b) == ActiveLinks(t.links, b)
  {
    assert BorrowsKept(s.borrows, t.borrows, f.rows) && LinksKept(s.links, t.links, f.rows, f.covers);
    hide Kept;
    forall c ensures (b, c) in s.links <==> (b, c) in t.links { assert (b, c).0 == b; }
    forall c | (b, c) in s.links ensures s.links[(b, c)] == t.links[(b, c)] { assert (b, c).0 == b; }
  }

  /** What f leaves alone about cover c. */
  lemma SameCover(s: Ledger, t: Ledger, f: Footprint, c: CoverId)
    requires Kept(s, t, f) && c !in f.covers
    ensures c in s.covers <==> c in t.covers
    ensures c in s.covers ==> t.covers[c] == s.covers[c]
    ensures OpenOn(t.installs, c) ==> OpenOn(s.installs, c)
    ensures ReservedOn(t.links, c) ==> ReservedOn(s.links, c)
    ensures forall w :: OpenElsewhere(t.installs, w, c) ==> OpenElsewhere(s.installs, w, c)
    ensures forall w :: LiveElsewhere(t.installs, w, c) ==> LiveElsewhere(s.installs, w, c)
  {
    assert CoversKept(s.covers, t.covers, f.rows, f.covers) && LinksKept(s.links, t.links, f.rows, f.covers);
    assert InstallsKept(s.installs, t.installs, f.rows, f.covers);
    hide Kept;
  }

  /** What f leaves alone for good: the office of an order, the parties of a borrow, the owner of a cover. */
  lemma SameOffices(s: Ledger, t: Ledger, f: Footprint)
    requires Kept(s, t, f)
    ensures forall w :: w in s.orders ==> w in t.orders && t.orders[w].office == s.orders[w].office
    ensures forall b :: b in s.borrows ==> b in t.borrows && t.borrows[b].lender == s.borrows[b].lender && t.borrows[b].borrower == s.borrows[b].borrower
    ensures forall c :: c in s.covers ==> c in t.covers && t.covers[c].owner == s.covers[c].owner
  {
    assert OrdersKept(s.orders, t.orders, f.rows) && BorrowsKept(s.borrows, t.borrows, f.rows);
    assert CoversKept(s.covers, t.covers, f.rows, f.covers);
    hide Kept, StockKept;
    forall b | b in s.borrows ensures b in t.borrows && t.borrows[b].lender == s.borrows[b].lender && t.borrows[b].borrower == s.borrows[b].borrower {
      assert t.borrows[b].(status := s.borrows[b].status) == s.borrows[b];
    }
  }

  /** What f leaves to an office whose planning lock it does not hold. */
  lemma MoreCapacity(s: Ledger, t: Ledger, f: Footprint, o: OfficeId, x: Option<OrderId>)
    requires Kept(s, t, f) && o !in f.offices
    ensures Free(s, o) <= Free(t, o)
    ensures Available(s, o, x) <= Available(t, o, x)
    ensures BorrowableCapacity(s, o) <= BorrowableCapacity(t, o)
  {
    hide *;
    StockSubsets(s, t, f, o, x);
    SubsetSize(InStockSet(s.covers, o), InStockSet(t.covers, o));
    SubsetSize(OwnedSet(s.covers, o), OwnedSet(t.covers, o));
    SubsetSize(EligibleSet(s, o), EligibleSet(t, o));
    SubsetSize(SlotSet(t.orders, o, x), SlotSet(s.orders, o, x));
    SubsetSize(SlotSet(t.orders, o, None), SlotSet(s.orders, o, None));
    SubsetSize(ReservationSet(t.borrows, t.links, o), ReservationSet(s.borrows, s.links, o));
    CountsDecide(s, t, o, x);
  }

  lemma CountsDecide(s: Ledger, t: Ledger, o: OfficeId, x: Option<OrderId>)
    requires |InStockSet(s.covers, o)| <= |InStockSet(t.covers, o)|
    requires |OwnedSet(s.covers, o)| <= |OwnedSet(t.covers, o)|
    requires |EligibleSet(s, o)| <= |EligibleSet(t, o)|
    requires |SlotSet(t.orders, o, x)| <= |SlotSet(s.orders, o, x)|
    requires |SlotSet(t.orders, o, None)| <= |SlotSet(s.orders, o, None)|
    requires |ReservationSet(t.borrows, t.links, o)| <= |ReservationSet(s.borrows, s.links, o)|
    ensures Free(s, o) <= Free(t, o)
    ensures Available(s, o, x) <= Available(t, o, x)
    ensures BorrowableCapacity(s, o) <= BorrowableCapacity(t, o)
  {
    hide InStockSet, OwnedSet, EligibleSet, SlotSet, ReservationSet;
  }

  lemma StockSubsets(s: Ledger, t: Ledger, f: Footprint, o: OfficeId, x: Option<OrderId>)
    requires Kept(s, t, f) && o !in f.offices
    ensures InStockSet(s.covers, o) <= InStockSet(t.covers, o) && OwnedSet(s.covers, o) <= OwnedSet(t.covers, o)
    ensures EligibleSet(s, o) <= EligibleSet(t, o)
    ensures SlotSet(t.orders, o, x) <= SlotSet(s.orders, o, x)
    ensures SlotSet(t.orders, o, None) <= SlotSet(s.orders, o, None)
    ensures ReservationSet(t.borrows, t.links, o) <= ReservationSet(s.borrows, s.links, o)
  {
    hide InStockSet, OwnedSet, EligibleSet, SlotSet, ReservationSet, OrdersKept, InstallsKept, BorrowsKept;
    hide LinksKept, CoversKept;
  }

  /** The transactions whose checks at an office or a cover need no row locked first. */
  predicate RowFree(op: Op) { op.OpenOrder? || op.RequestLoan? }

  /** The rows that tell which offices to lock exist. */
  predicate Known(s: Ledger, op: Op)
  {
    match op
    case EditOrder(w, _, _) => w in s.orders
    case Scan(_, w, _) => w in s.orders
    case Submit(_, w) => w in s.orders
    case CancelWork(w) => w in s.orders
    case RejectLoan(b, _, _) => b in s.borrows
    case CancelLoan(b, _, _) => b in s.borrows
    case ActivateLoan(b, _, _) => b in s.borrows
    case ReturnLoan(b, _, _) => b in s.borrows
    case RetireCover(c) => c in s.covers
    case _ => true
  }

  lemma WorkOfficesStay(s: Ledger, t: Ledger, op: Op)
    requires op.EditOrder? || op.Scan? || op.Submit? || op.CancelWork?
    requires forall w :: w in s.orders ==> w in t.orders && t.orders[w].office == s.orders[w].office
    requires Known(s, op)
    ensures Known(t, op) && Locks(t, op).offices == Locks(s, op).offices
  {
    hide InstalledCovers;
    assert op.order in s.orders;
  }

  lemma LoanOfficesStay(s: Ledger, t: Ledger, op: Op)
    requires op.RejectLoan? || op.CancelLoan? || op.ActivateLoan? || op.ReturnLoan?
    requires forall b :: b in s.borrows ==> b in t.borrows && t.borrows[b].lender == s.borrows[b].lender && t.borrows[b].borrower == s.borrows[b].borrower
    requires Known(s, op)
    ensures Known(t, op) && Locks(t, op).offices == Locks(s, op).offices
  {
    hide ActiveLinks, LinkedCovers;
    assert op.loan in s.borrows;
  }

  lemma OtherOfficesStay(s: Ledger, t: Ledger, op: Op)
    requires !op.EditOrder? && !op.Scan? && !op.Submit? && !op.CancelWork?
    requires !op.RejectLoan? && !op.CancelLoan? && !op.ActivateLoan? && !op.ReturnLoan?
    requires forall c :: c in s.covers ==> c in t.covers && t.covers[c].owner == s.covers[c].owner
    requires Known(s, op)
    ensures Known(t, op) && Locks(t, op).offices == Locks(s, op).offices
  {
    hide Loans, Codes, ItemIds;
  }

  lemma OfficesStay(s: Ledger, t: Ledger, f: Footprint, op: Op)
    requires Kept(s, t, f) && Known(s, op)
    ensures Known(t, op) && Locks(t, op).offices == Locks(s, op).offices
  {
    hide *;
    SameOffices(s, t, f);
    if op.EditOrder? || op.Scan? || op.Submit? || op.CancelWork? {
      WorkOfficesStay(s, t, op);
    } else if op.RejectLoan? || op.CancelLoan? || op.ActivateLoan? || op.ReturnLoan? {
      LoanOfficesStay(s, t, op);
    } else {
      OtherOfficesStay(s, t, op);
    }
  }

  lemma RowsStay(s: Ledger, t: Ledger, op: Op)
    ensures Locks(t, op).rows == Locks(s, op).rows
  {
  }

  lemma CapacityStays(s: Ledger, t: Ledger, f: Footprint, op: Op)
    requires Kept(s, t, f) && Known(s, op) && CapacityGuard(s, op)
    requires Locks(s, op).offices !! f.offices && (RowFree(op) || Locks(s, op).rows !! f.rows)
    ensures CapacityGuard(t, op)
  {
    hide Kept, Available, BorrowableCapacity, Free, InstalledCovers;
    match op
    case OpenOrder(id, office, plan, assignee, ok) => MoreCapacity(s, t, f, office, None);
    case EditOrder(w, p, ok) =>
      SameOrder(s, t, f, w);
      MoreCapacity(s, t, f, s.orders[w].office, Some(w));
    case Submit(a, w) =>
      SameOrder(s, t, f, w);
      MoreCapacity(s, t, f, s.orders[w].office, Some(w));
    case RequestLoan(b, a, env, r, chosen) => MoreCapacity(s, t, f, r.lender, None);
    case RetireCover(c) =>
      SameOffices(s, t, f);
      MoreCapacity(s, t, f, s.covers[c].owner, None);
    case _ =>
  }

  lemma OrderCoverStays(s: Ledger, t: Ledger, f: Footprint, op: Op, c: CoverId)
    requires op.Scan? || op.Submit? || op.RemoveCover?
    requires Kept(s, t, f) && CoverGuard(s, op, c) && c !in f.covers && Locks(s, op).rows !! f.rows
    ensures CoverGuard(t, op, c)
  {
    SameCover(s, t, f, c);
    SameOrder(s, t, f, op.order);
    hide Kept, ReservedOn, OpenElsewhere, LiveElsewhere;
  }

  lemma LoanCoverStays(s: Ledger, t: Ledger, f: Footprint, op: Op, c: CoverId)
    requires op.ActivateLoan? || op.ReturnLoan?
    requires Kept(s, t, f) && CoverGuard(s, op, c) && c !in f.covers && Locks(s, op).rows !! f.rows
    ensures CoverGuard(t, op, c)
  {
    SameCover(s, t, f, c);
    SameBorrow(s, t, f, op.loan);
    hide Kept, OpenOn;
  }

  lemma CoverStays(s: Ledger, t: Ledger, f: Footprint, op: Op, c: CoverId)
    requires Kept(s, t, f) && CoverGuard(s, op, c) && c !in f.covers
    requires RowFree(op) || Locks(s, op).rows !! f.rows
    ensures CoverGuard(t, op, c)
  {
    hide Kept, OpenOn, ReservedOn, OpenElsewhere, LiveElsewhere;
    if op.Scan? || op.Submit? || op.RemoveCover? {
      OrderCoverStays(s, t, f, op, c);
    } else if op.ActivateLoan? || op.ReturnLoan? {
      LoanCoverStays(s, t, f, op, c);
    } else {
      SameCover(s, t, f, c);
    }
  }

  lemma OrderRowStays(s: Ledger, t: Ledger, f: Footprint, op: Op)
    requires op.OpenOrder? || op.EditOrder? || op.Scan? || op.Submit? || op.RemoveCover?
    requires Kept(s, t, f) && RowGuard(s, op) && Locks(s, op).rows !! f.rows
    ensures RowGuard(t, op)
  {
    SameOrder(s, t, f, if op.OpenOrder? then op.id else op.order);
    hide Kept, Step;
  }

  lemma WorkRowStays(s: Ledger, t: Ledger, f: Footprint, op: Op)
    requires op.AssignOrder? || op.CancelWork? || op.RemovalFallsDue?
    requires Kept(s, t, f) && RowGuard(s, op) && Locks(s, op).rows !! f.rows
    ensures RowGuard(t, op)
  {
    SameOrder(s, t, f, op.order);
    hide Kept, CreateOrder, UpdateScheduled, ScanInstall, SubmitInstall, ScanRemove, CompleteRemoval;
    hide StartRemoval, UnscanInstall, AttachEvidence, FieldRefusal, InstalledCovers;
    hide Approve, Reject, CancelBorrow, MarkOverdue, CreateBorrow, Activate, Return, RegisterBatch, Retire;
  }

  lemma FieldRowStays(s: Ledger, t: Ledger, f: Footprint, op: Op)
    requires op.Unscan? || op.BeginRemoval? || op.Attach?
    requires Kept(s, t, f) && RowGuard(s, op) && Locks(s, op).rows !! f.rows
    ensures RowGuard(t, op)
  {
    SameOrder(s, t, f, op.order);
    hide Kept, CreateOrder, UpdateScheduled, Assign, ScanInstall, SubmitInstall, ScanRemove, CompleteRemoval;
    hide CancelOrder, MarkRemovalDue, MayWorkOn, InstalledCovers, CapacityGuard, CoverGuard;
    hide Approve, Reject, CancelBorrow, MarkOverdue, CreateBorrow, Activate, Return, RegisterBatch, Retire;
  }

  lemma CompleteRowStays(s: Ledger, t: Ledger, f: Footprint, a: Actor, w: OrderId)
    requires Kept(s, t, f) && OrderRow(w) !in f.rows && CompleteRemoval(s, a, w).1 == Done
    ensures CompleteRemoval(t, a, w).1 == Done
  {
    SameOrder(s, t, f, w);
    hide Kept;
    RemovedAll(s, w, InstallationRows(s, w));
    RemovedAll(t, w, InstallationRows(t, w));
    hide RemovalRefusal, InstallationRows, MayWorkOn, InstalledCovers;
  }

  lemma LoanRowStays(s: Ledger, t: Ledger, f: Footprint, op: Op)
    requires op.RequestLoan? || op.ActivateLoan? || op.ReturnLoan?
    requires Kept(s, t, f) && RowGuard(s, op) && Locks(s, op).rows !! f.rows
    ensures RowGuard(t, op)
  {
    SameBorrow(s, t, f, op.loan);
    hide Kept, Step, LinkedCovers, ActiveLinks;
  }

  lemma AnswersStay(s: Ledger, t: Ledger, f: Footprint, b: BorrowId, a: Actor, active: bool)
    requires Kept(s, t, f) && BorrowRow(b) !in f.rows
    ensures Approve(s, b, a, active).1 == Done ==> Approve(t, b, a, active).1 == Done
    ensures Reject(s, b, a, active).1 == Done ==> Reject(t, b, a, active).1 == Done
    ensures CancelBorrow(s, b, a, active).1 == Done ==> CancelBorrow(t, b, a, active).1 == Done
  {
    if b in s.borrows {
      SameBorrow(s, t, f, b);
    }
    hide Kept, Moved, Released, LinkedCovers, ActiveLinks, ValidClaims, IsExecOf, MayCancel;
  }

  lemma AnswerRowStays(s: Ledger, t: Ledger, f: Footprint, op: Op)
    requires op.ApproveLoan? || op.RejectLoan? || op.CancelLoan?
    requires Kept(s, t, f) && RowGuard(s, op) && Locks(s, op).rows !! f.rows
    ensures RowGuard(t, op)
  {
    AnswersStay(s, t, f, op.loan, op.actor, op.active);
    hide Kept, CreateOrder, UpdateScheduled, Assign, ScanInstall, UnscanInstall, SubmitInstall, Approve, Reject, CancelBorrow;
    hide StartRemoval, ScanRemove, CompleteRemoval, CancelOrder, AttachEvidence, MarkRemovalDue, MarkOverdue;
    hide CreateBorrow, Activate, Return, RegisterBatch, Retire;
  }

  lemma DueRowsStay(s: Ledger, t: Ledger, f: Footprint, due: set<BorrowId>, now: int)
    requires Kept(s, t, f) && Loans(due) !! f.rows && MarkOverdue(s, due, now).1 == Done
    ensures MarkOverdue(t, due, now).1 == Done
  {
    forall b | b in due ensures b in t.borrows && IsDue(t.borrows[b], now) {
      assert BorrowRow(b) in Loans(due);
      SameBorrow(s, t, f, b);
    }
  }

  lemma CodesStayFree(s: Ledger, t: Ledger, f: Footprint, codes: set<Code>)
    requires CoversKept(s.covers, t.covers, f.rows, f.covers) && CodesFree(s.covers, codes)
    requires forall k :: k in codes ==> CodeRow(k) !in f.rows
    ensures CodesFree(t.covers, codes)
  {
    hide CodesOf;
  }

  lemma RegistryRowStays(s: Ledger, t: Ledger, f: Footprint, op: Op)
    requires op.Register? || op.RetireCover?
    requires Kept(s, t, f) && RowGuard(s, op) && Locks(s, op).rows !! f.rows
    ensures RowGuard(t, op)
  {
    assert CoversKept(s.covers, t.covers, f.rows, f.covers);
    hide Kept, Step, BatchRefusal;
    if op.Register? {
      forall i | 0 <= i < |op.items| ensures CodesFree(t.covers, CodesOf(Prepared(op.office, op.items[i]))) {
        CodesStayFree(s, t, f, CodesOf(Prepared(op.office, op.items[i])));
      }
    }
  }

  lemma RowStays(s: Ledger, t: Ledger, f: Footprint, op: Op)
    requires Kept(s, t, f) && RowGuard(s, op) && Locks(s, op).rows !! f.rows
    ensures RowGuard(t, op)
  {
    hide *;
    match op
    case OpenOrder(_, _, _, _, _) => OrderRowStays(s, t, f, op);
    case EditOrder(_, _, _) => OrderRowStays(s, t, f, op);
    case Scan(_, _, _) => OrderRowStays(s, t, f, op);
    case Submit(_, _) => OrderRowStays(s, t, f, op);
    case RemoveCover(_, _, _) => OrderRowStays(s, t, f, op);
    case Complete(a, w) =>
      RowIs(s, op);
      RowIs(t, op);
      CompleteRowStays(s, t, f, a, w);
    case LoansFallDue(due, now) =>
      RowIs(s, op);
      RowIs(t, op);
      DueRowsStay(s, t, f, due, now);
    case Register(_, _) => RegistryRowStays(s, t, f, op);
    case RetireCover(_) => RegistryRowStays(s, t, f, op);
    case RequestLoan(_, _, _, _, _) => LoanRowStays(s, t, f, op);
    case ApproveLoan(_, _, _) => AnswerRowStays(s, t, f, op);
    case RejectLoan(_, _, _) => AnswerRowStays(s, t, f, op);
    case CancelLoan(_, _, _) => AnswerRowStays(s, t, f, op);
    case ActivateLoan(_, _, _) => LoanRowStays(s, t, f, op);
    case ReturnLoan(_, _, _) => LoanRowStays(s, t, f, op);
    case AssignOrder(_, _, _) => WorkRowStays(s, t, f, op);
    case CancelWork(_) => WorkRowStays(s, t, f, op);
    case RemovalFallsDue(_, _) => WorkRowStays(s, t, f, op);
    case _ => FieldRowStays(s, t, f, op);
  }

  lemma RowIs(s: Ledger, op: Op)
    requires op.Complete? || op.LoansFallDue?
    ensures op.Complete? ==> (RowGuard(s, op) <==> CompleteRemoval(s, op.actor, op.order).1 == Done) && Locks(s, op).rows == {OrderRow(op.order)}
    ensures op.LoansFallDue? ==> (RowGuard(s, op) <==> MarkOverdue(s, op.due, op.now).1 == Done) && Locks(s, op).rows == Loans(op.due)
  {
    hide CompleteRemoval, MarkOverdue;
  }
}
