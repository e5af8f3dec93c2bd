/** Who may do what, and when: the answer of every transaction, told from the rows alone. */
module Rules {
  import opened Collections
  import opened Stock
  import opened WorkOrders
  import opened Borrows
  import opened Transactions
  import opened Invariants
  import opened InvariantSteps
  import opened Capacity
  import opened Promises
  import opened Progress

  // ----- actors -----

  /** An administrator, or the technician of the order's office whom the order is assigned to. */
  predicate FieldActor(a: Actor, w: WorkOrder)
  {
    || a.role == Admin
    || (a.role == Tech && a.office == Some(w.office) && w.office != "" && w.assignee == Some(a.id) && a.id != "")
  }

  /** An executive of this office. */
  predicate Executive(a: Actor, o: OfficeId)
  {
    a.id != "" && a.role == Exec && a.office == Some(o) && o != ""
  }

  /** Hands a loan's covers over or takes them back. */
  predicate Custodian(a: Actor, b: Borrow)
  {
    (a.id != "" && a.role == Admin) || Executive(a, b.lender)
  }

  /** Takes a request back: an executive of the borrower's office, or the technician there who made it. */
  predicate Requester(a: Actor, b: Borrow)
  {
    || Executive(a, b.borrower)
    || (a.id != "" && a.role == Tech && a.office == Some(b.borrower) && b.borrower != "" && b.createdBy == a.id)
  }

  // ----- stock and the claims on it -----

  ghost function StockAt(s: Ledger, o: OfficeId): set<CoverId>
  {
    set c | c in s.covers && s.covers[c].status == InStock && s.covers[c].current == o
  }

  ghost function OwnStockAt(s: Ledger, o: OfficeId): set<CoverId>
  {
    set c | c in s.covers && s.covers[c].status == InStock && s.covers[c].current == o && s.covers[c].owner == o
  }

  /** No order has the cover scanned or installed, and no borrow has it reserved. */
  ghost predicate Unclaimed(s: Ledger, c: CoverId)
  {
    && (forall w :: (w, c) in s.installs ==> s.installs[(w, c)].removed)
    && (forall b :: (b, c) in s.links ==> s.links[(b, c)])
  }

  ghost function LendableAt(s: Ledger, o: OfficeId): set<CoverId>
  {
    set c | c in OwnStockAt(s, o) && Unclaimed(s, c)
  }

  /** What the scheduled orders of o plan. */
  ghost function Plans(s: Ledger, o: OfficeId): nat
  {
    Sum(map w | w in s.orders && s.orders[w].office == o && s.orders[w].status == Scheduled :: s.orders[w].planned)
  }

  ghost function PendingFrom(s: Ledger, o: OfficeId): map<BorrowId, nat>
  {
    map b | b in s.borrows && s.borrows[b].lender == o && s.borrows[b].status in {Requested, Approved} :: s.borrows[b].qty
  }

  /** What o has promised to lend. */
  ghost function Promised(s: Ledger, o: OfficeId): nat { Sum(PendingFrom(s, o)) }

  /** Stock at o covers what is planned and promised there and n more. */
  ghost predicate HasFor(s: Ledger, o: OfficeId, n: int)
  {
    Plans(s, o) + Promised(s, o) + n <= |StockAt(s, o)|
  }

  lemma PlansAre(s: Ledger, o: OfficeId)
    ensures Plans(s, o) == PlannedCount(s, o)
  {
    PlannedIsSum(s, o);
    assert Need(s, o) == map w | w in s.orders && s.orders[w].office == o && s.orders[w].status == Scheduled :: s.orders[w].planned;
    hide PlannedCount, Sum;
  }

  lemma StockIs(s: Ledger, o: OfficeId)
    ensures StockAt(s, o) == InStockSet(s.covers, o) && OwnStockAt(s, o) == OwnedSet(s.covers, o)
  {
  }

  lemma PendingReserved(s: Ledger, o: OfficeId)
    requires LinksMatch(s.borrows, s.links)
    ensures ReservationSet(s.borrows, s.links, o) == set k | k in s.links && k.0 in PendingFrom(s, o)
  {
    hide LinkedCovers;
  }

  /** The reservations of a lender are what its pending borrows ask for. */
  lemma PromisedIs(s: Ledger, o: OfficeId)
    requires LinksMatch(s.borrows, s.links)
    ensures Promised(s, o) == ReservedCount(s, o)
  {
    PendingReserved(s, o);
    LinksOf(s.borrows, s.links, PendingFrom(s, o));
    hide ReservationSet, Sum, LinksMatch;
  }

  lemma UnclaimedIs(s: Ledger, c: CoverId)
    ensures Unclaimed(s, c) <==> !OpenOn(s.installs, c) && !ReservedOn(s.links, c)
  {
    if Unclaimed(s, c) {
      forall k | k in s.installs && k.1 == c ensures !Open(s.installs[k]) { assert k == (k.0, c); }
      forall k | k in s.links && k.1 == c ensures s.links[k] { assert k == (k.0, c); }
    }
    if !OpenOn(s.installs, c) && !ReservedOn(s.links, c) {
      forall w | (w, c) in s.installs ensures s.installs[(w, c)].removed { assert (w, c).1 == c; }
      forall b | (b, c) in s.links ensures s.links[(b, c)] { assert (b, c).1 == c; }
    }
  }

  lemma LendableIs(s: Ledger, o: OfficeId)
    ensures LendableAt(s, o) == EligibleSet(s, o)
    ensures forall c :: c in LendableAt(s, o) <==> EligibleAt(s, o, c)
  {
    forall c ensures Unclaimed(s, c) <==> !OpenOn(s.installs, c) && !ReservedOn(s.links, c) { UnclaimedIs(s, c); }
    hide Unclaimed, OpenOn, ReservedOn;
  }

  lemma HasForIs(s: Ledger, o: OfficeId, n: int)
    requires LinksMatch(s.borrows, s.links)
    ensures HasFor(s, o, n) <==> n <= Free(s, o)
  {
    PlansAre(s, o);
    PromisedIs(s, o);
    StockIs(s, o);
    hide Plans, Promised, PlannedCount, ReservedCount, InStockSet, StockAt;
  }

  /** The planning bound, with an order's own plan given back. */
  lemma AvailableIs(s: Ledger, o: OfficeId, w: OrderId, n: int)
    requires LinksMatch(s.borrows, s.links) && n >= 1
    ensures n <= Available(s, o, None) <==> HasFor(s, o, n)
    ensures n <= Available(s, o, Some(w)) <==> HasFor(s, o, n - PlanAt(s, w, o))
  {
    HasForIs(s, o, n);
    HasForIs(s, o, n - PlanAt(s, w, o));
    SlotSplit(s.orders, w, o);
    hide HasFor, SlotSet, InStockSet, ReservationSet;
  }

  /** The lending bound: both as many lendable covers, and own stock for everything committed. */
  lemma BorrowableIs(s: Ledger, o: OfficeId, n: int)
    requires LinksMatch(s.borrows, s.links) && n >= 1
    ensures n <= BorrowableCapacity(s, o) <==>
            n <= |LendableAt(s, o)| && Plans(s, o) + Promised(s, o) + n <= |OwnStockAt(s, o)|
  {
    PlansAre(s, o);
    PromisedIs(s, o);
    StockIs(s, o);
    LendableIs(s, o);
    hide Plans, Promised, PlannedCount, ReservedCount, InStockSet, StockAt, OwnedSet, EligibleSet, LendableAt;
  }

  // ----- deficits, on the rows -----

  /** How far what is planned and promised at o exceeds the stock there. */
  ghost function Shortage(s: Ledger, o: OfficeId): nat
  {
    var wanted, stock := Plans(s, o) + Promised(s, o), |StockAt(s, o)|;
    if wanted > stock then wanted - stock else 0
  }

  lemma ShortageIs(s: Ledger, o: OfficeId)
    requires LinksMatch(s.borrows, s.links)
    ensures Shortage(s, o) == Deficit(s, o)
  {
    PlansAre(s, o);
    PromisedIs(s, o);
    StockIs(s, o);
    hide Plans, Promised, PlannedCount, ReservedCount, InStockSet, StockAt, OwnStockAt, OwnedSet, LinksMatch;
  }

  /** No transaction deepens a shortage, except that a completed return takes its quantity from the borrower. */
  lemma ShortageStep(s: Ledger, op: Op, o: OfficeId)
    requires Inv(s)
    ensures var (t, v) := Step(s, op);
            Shortage(t, o) <= Shortage(s, o) +
              if op.ReturnLoan? && v == Done && op.loan in s.borrows && s.borrows[op.loan].borrower == o
              then s.borrows[op.loan].qty else 0
  {
    hide *;
    KeepsStep(s, op);
    LinksAre(s);
    LinksAre(Step(s, op).0);
    ShortageIs(s, o);
    ShortageIs(Step(s, op).0, o);
    DeficitStep(s, op, o);
    TakenBackIs(s, op, o);
  }

  lemma TakenBackIs(s: Ledger, op: Op, o: OfficeId)
    ensures TakenBack(s, op, o) ==
              if op.ReturnLoan? && Step(s, op).1 == Done && op.loan in s.borrows && s.borrows[op.loan].borrower == o
              then s.borrows[op.loan].qty else 0
  {
    hide Step;
  }

  /** An accepted plan, edit, submission, loan request or retirement leaves its office no shortage. */
  lemma NoShortageAfter(s: Ledger, op: Op)
    requires Inv(s) && Step(s, op).1 == Done
    ensures op.OpenOrder? ==> Shortage(Step(s, op).0, op.office) == 0
    ensures (op.EditOrder? || op.Submit?) && op.order in s.orders ==> Shortage(Step(s, op).0, s.orders[op.order].office) == 0
    ensures op.RequestLoan? ==> Shortage(Step(s, op).0, op.request.lender) == 0
    ensures op.RetireCover? && op.cover in s.covers ==> Shortage(Step(s, op).0, s.covers[op.cover].owner) == 0
  {
    hide *;
    KeepsStep(s, op);
    LinksAre(Step(s, op).0);
    forall o | o in CheckedOffices(s, op) ensures Shortage(Step(s, op).0, o) == 0 {
      CheckedStaysFree(s, op, o);
      ShortageIs(Step(s, op).0, o);
      NoDeficit(Step(s, op).0, o);
    }
    CheckedAre(s, op);
  }

  lemma NoDeficit(s: Ledger, o: OfficeId)
    ensures Free(s, o) >= 0 ==> Deficit(s, o) == 0
  {
    hide Free;
  }

  lemma CheckedAre(s: Ledger, op: Op)
    ensures op.OpenOrder? ==> op.office in CheckedOffices(s, op)
    ensures (op.EditOrder? || op.Submit?) && op.order in s.orders ==> s.orders[op.order].office in CheckedOffices(s, op)
    ensures op.RequestLoan? ==> op.request.lender in CheckedOffices(s, op)
    ensures op.RetireCover? && op.cover in s.covers ==> s.covers[op.cover].owner in CheckedOffices(s, op)
  {
  }

  // ----- the stock report -----

  lemma ReportedStock(s: Ledger, o: OfficeId)
    requires LinksMatch(s.borrows, s.links)
    ensures var r, free := GetStock(s, o), |StockAt(s, o)| - Plans(s, o) - Promised(s, o);
            && r.inStock == |StockAt(s, o)| && r.reservedPlanned == Plans(s, o) && r.reservedBorrow == Promised(s, o)
            && r.availableForWorkOrder == if free < 0 then 0 else free
  {
    hide LinksMatch;
    PlansAre(s, o);
    PromisedIs(s, o);
    StockIs(s, o);
    hide Plans, Promised, PlannedCount, ReservedCount, InStockSet, StockAt, OwnStockAt, OwnedSet, CountOnLoanIn, CountOnLoanOut;
  }

  lemma ReportedCovers(s: Ledger, o: OfficeId)
    ensures GetStock(s, o).installed == |set c | c in s.covers && s.covers[c].status == Installed && s.covers[c].current == o|
    ensures GetStock(s, o).total == |set c | c in s.covers && s.covers[c].status != Retired && s.covers[c].current == o|
  {
    TotalCoversHeld(s, o);
    assert InstalledSet(s.covers, o) == set c | c in s.covers && s.covers[c].status == Installed && s.covers[c].current == o;
    assert HeldSet(s.covers, o) == set c | c in s.covers && s.covers[c].status != Retired && s.covers[c].current == o;
    hide HeldSet, InstalledSet, InStockCount, PlannedCount, ReservedCount, CountOnLoanIn, CountOnLoanOut;
  }

  lemma ReportedLoans(s: Ledger, o: OfficeId)
    requires Inv(s)
    ensures GetStock(s, o).onLoanOut == Sum(LentBy(s, o)) && GetStock(s, o).onLoanIn == Sum(BorrowedBy(s, o))
  {
    hide Inv, Sum, LentBy, BorrowedBy, InStockCount, InstalledCount, PlannedCount, ReservedCount, CountOnLoanIn, CountOnLoanOut;
    LoanCounts(s, o);
  }

  /** What every figure of an office's stock report counts. */
  lemma ReportExactly(s: Ledger, o: OfficeId)
    requires Inv(s)
    ensures var r, free := GetStock(s, o), |StockAt(s, o)| - Plans(s, o) - Promised(s, o);
            && r.inStock == |StockAt(s, o)| && r.reservedPlanned == Plans(s, o) && r.reservedBorrow == Promised(s, o)
            && r.availableForWorkOrder == (if free < 0 then 0 else free)
            && r.installed == |set c | c in s.covers && s.covers[c].status == Installed && s.covers[c].current == o|
            && r.onLoanOut == Sum(LentBy(s, o)) && r.onLoanIn == Sum(BorrowedBy(s, o))
            && r.total == |set c | c in s.covers && s.covers[c].status != Retired && s.covers[c].current == o|
  {
    hide *;
    LinksAre(s);
    ReportedStock(s, o);
    ReportedCovers(s, o);
    ReportedLoans(s, o);
  }

  // ----- the rules -----

  /** The drafts or committed installations of an order. */
  ghost function RowsOf(s: Ledger, w: OrderId): set<CoverId>
  {
    set c | c in s.covers && (w, c) in s.installs
  }

  ghost predicate AllPhotographed(s: Ledger, w: OrderId)
  {
    forall c :: (w, c) in s.installs ==> s.installs[(w, c)].installPhoto.Some?
  }

  ghost predicate AllRemoved(s: Ledger, w: OrderId)
  {
    forall c :: (w, c) in s.installs ==> s.installs[(w, c)].removed && s.installs[(w, c)].removePhoto.Some?
  }

  /** No cover of the loan is scanned or installed. */
  ghost predicate NothingOut(s: Ledger, b: BorrowId)
  {
    forall c, w :: (b, c) in s.links && (w, c) in s.installs ==> s.installs[(w, c)].removed
  }

  predicate Planned(qty: int, installDate: int, removalDate: int) { qty >= 1 && installDate <= removalDate }

  ghost predicate FieldWork(s: Ledger, a: Actor, w: OrderId, statuses: set<OrderStatus>)
  {
    w in s.orders && FieldActor(a, s.orders[w]) && s.orders[w].status in statuses
  }

  /** Transactions about one work order. */
  predicate OnOrder(op: Op)
  {
    || op.OpenOrder? || op.EditOrder? || op.AssignOrder? || op.Scan? || op.Unscan? || op.Submit? || op.BeginRemoval?
    || op.RemoveCover? || op.Complete? || op.CancelWork? || op.Attach? || op.RemovalFallsDue?
  }

  /** The state in which a work order's transaction is accepted. */
  ghost predicate WorkAllowed(s: Ledger, op: Op)
  {
    match op
    case OpenOrder(id, office, plan, assignee, ok) =>
      && id !in s.orders && (assignee.Some? ==> ok)
      && plan.qty.Some? && plan.installDate.Some? && plan.removalDate.Some?
      && Planned(plan.qty.value, plan.installDate.value, plan.removalDate.value)
      && HasFor(s, office, plan.qty.value)
    case EditOrder(w, p, ok) =>
      && w in s.orders && s.orders[w].status == Scheduled && (p.setAssignee && p.assignee.Some? ==> ok)
      && var row := s.orders[w];
         var qty := if p.qty.Some? then p.qty.value else row.planned;
         && Planned(qty, if p.installDate.Some? then p.installDate.value else row.installDate,
                    if p.removalDate.Some? then p.removalDate.value else row.removalDate)
         && HasFor(s, row.office, qty - row.planned)
    case AssignOrder(w, technician, ok) =>
      w in s.orders && s.orders[w].status !in {Completed, OrderStatus.Cancelled} && ok
    case Scan(a, w, c) =>
      && FieldWork(s, a, w, {Scheduled}) && c in StockAt(s, s.orders[w].office)
      && ((w, c) in s.installs || Unclaimed(s, c))
    case Unscan(a, w, c) => FieldWork(s, a, w, {Scheduled})
    case Submit(a, w) =>
      && FieldWork(s, a, w, {Scheduled}) && RowsOf(s, w) != {} && AllPhotographed(s, w)
      && HasFor(s, s.orders[w].office, |RowsOf(s, w)| - s.orders[w].planned)
    case BeginRemoval(a, w) => FieldWork(s, a, w, {Active, RemovalDue})
    case RemoveCover(a, w, c) => FieldWork(s, a, w, {Removing}) && (w, c) in s.installs
    case Complete(a, w) => FieldWork(s, a, w, {Removing}) && AllRemoved(s, w)
    case CancelWork(w) => w in s.orders && s.orders[w].status == Scheduled
    case Attach(a, kind, w, c, key, early, storage) =>
      && key == Some(Photo(kind, w, c)) && early == None && storage == GoodImage && (w, c) in s.installs
      && FieldWork(s, a, w, if kind == InstallPhoto then {Scheduled} else {Removing})
      && (kind == RemovePhoto ==> s.installs[(w, c)].removed)
    case _ => true
  }

  // ----- work orders follow the rules -----

  lemma ActorIs(a: Actor, w: WorkOrder)
    ensures FieldActor(a, w) <==> MayWorkOn(a, w)
  {
  }

  lemma FieldWorkIs(s: Ledger, a: Actor, w: OrderId, statuses: set<OrderStatus>)
    ensures FieldRefusal(s, a, w, statuses).None? <==> FieldWork(s, a, w, statuses)
    ensures FieldRefusal(s, a, w, statuses) == Some(NotFound) ==> w !in s.orders
    ensures FieldRefusal(s, a, w, statuses) == Some(Forbidden) ==> w in s.orders && !FieldActor(a, s.orders[w])
    ensures FieldRefusal(s, a, w, statuses) == Some(StateInvalid) ==> w in s.orders && s.orders[w].status !in statuses
    ensures FieldRefusal(s, a, w, statuses) in {None, Some(NotFound), Some(Forbidden), Some(StateInvalid)}
  {
    if w in s.orders {
      ActorIs(a, s.orders[w]);
    }
    hide FieldActor, MayWorkOn;
  }

  /** An order's rows, under the invariant: distinct covers, known ones, still drafts while the
      order is scheduled, and committed ones while it is being removed. */
  lemma RowsAre(s: Ledger, w: OrderId)
    requires Inv(s)
    ensures RowsOf(s, w) == InstalledCovers(s.installs, w)
    ensures forall c :: (w, c) in s.installs ==> c in s.covers && w in s.orders
  {
    Disassemble(s);
    hide Inv, Shapes, NonEmpty, OpenInPlace, OneOpen, InstalledHasLive, LinksMatch, AuditsMatch;
    forall c | (w, c) in s.installs ensures c in s.covers && w in s.orders { assert (w, c).0 == w && (w, c).1 == c; }
  }

  lemma LinksAre(s: Ledger)
    requires Inv(s)
    ensures LinksMatch(s.borrows, s.links)
  {
    Disassemble(s);
    hide Inv;
  }

  lemma OpenRule(s: Ledger, id: OrderId, o: OfficeId, p: Planning, assignee: Option<UserId>, ok: bool)
    requires Inv(s)
    ensures CreateOrder(s, id, o, p, assignee, ok).1 == Done <==> WorkAllowed(s, OpenOrder(id, o, p, assignee, ok))
  {
    LinksAre(s);
    if p.qty.Some? && p.qty.value >= 1 {
      AvailableIs(s, o, "", p.qty.value);
    }
    hide Inv, Available, HasFor, LinksMatch, FieldWork, Unclaimed;
  }

  lemma EditRule(s: Ledger, w: OrderId, p: Patch, ok: bool)
    requires Inv(s)
    ensures UpdateScheduled(s, w, p, ok).1 == Done <==> WorkAllowed(s, EditOrder(w, p, ok))
  {
    LinksAre(s);
    if w in s.orders {
      var row := s.orders[w];
      var qty := if p.qty.Some? then p.qty.value else row.planned;
      if qty >= 1 {
        AvailableIs(s, row.office, w, qty);
      }
    }
    hide Inv, Available, HasFor, LinksMatch, FieldWork, Unclaimed;
  }

  lemma StatusRules(s: Ledger, a: Actor, w: OrderId, c: CoverId)
    ensures StartRemoval(s, a, w).1 == Done <==> WorkAllowed(s, BeginRemoval(a, w))
    ensures UnscanInstall(s, a, w, c).1 == Done <==> WorkAllowed(s, Unscan(a, w, c))
    ensures CancelOrder(s, w).1 == Done <==> WorkAllowed(s, CancelWork(w))
  {
    FieldWorkIs(s, a, w, {Active, RemovalDue});
    FieldWorkIs(s, a, w, {Scheduled});
    hide FieldRefusal, FieldWork, HasFor, Unclaimed;
  }

  lemma AssignRule(s: Ledger, w: OrderId, technician: UserId, ok: bool)
    ensures Assign(s, w, technician, ok).1 == Done <==> WorkAllowed(s, AssignOrder(w, technician, ok))
  {
    hide HasFor, Unclaimed, FieldWork;
  }

  /** Claims of other orders on a cover that this order has not scanned are all claims on it. */
  lemma ClaimsOn(s: Ledger, w: OrderId, c: CoverId)
    requires (w, c) !in s.installs
    ensures Unclaimed(s, c) <==> !OpenElsewhere(s.installs, w, c) && !ReservedOn(s.links, c)
  {
    UnclaimedIs(s, c);
    if k :| k in s.installs && k.1 == c && Open(s.installs[k]) {
      assert k == (k.0, c) && k.0 != w;
    }
    hide Unclaimed, ReservedOn;
  }

  lemma ScanRule(s: Ledger, a: Actor, w: OrderId, c: CoverId)
    ensures ScanInstall(s, a, w, c).1 == Done <==> WorkAllowed(s, Scan(a, w, c))
  {
    FieldWorkIs(s, a, w, {Scheduled});
    if w in s.orders {
      StockIs(s, s.orders[w].office);
    }
    if (w, c) !in s.installs {
      ClaimsOn(s, w, c);
    }
    hide FieldRefusal, HasFor, Unclaimed, OpenElsewhere, ReservedOn, StockAt;
  }

  lemma SubmitNeeds(s: Ledger, a: Actor, w: OrderId)
    ensures SubmitInstall(s, a, w).1 == Done ==> FieldRefusal(s, a, w, {Scheduled}).None?
  {
    hide FieldRefusal, Available, ReadyToInstall, InstalledCovers, SubmittedCovers, SubmittedInstalls;
  }

  lemma SubmitRule(s: Ledger, a: Actor, w: OrderId)
    requires Inv(s)
    ensures SubmitInstall(s, a, w).1 == Done <==> WorkAllowed(s, Submit(a, w))
  {
    hide Inv, FieldRefusal, Available, HasFor, MayWorkOn, FieldActor, LinksMatch, InstalledCovers, RowsOf, SubmitInstall;
    LinksAre(s);
    RowsAre(s, w);
    FieldWorkIs(s, a, w, {Scheduled});
    SubmitNeeds(s, a, w);
    if FieldWork(s, a, w, {Scheduled}) {
      ActorIs(a, s.orders[w]);
      SubmitProgress(s, a, w);
      if RowsOf(s, w) != {} {
        AvailableIs(s, s.orders[w].office, w, |RowsOf(s, w)|);
      }
    }
    hide Unclaimed;
  }

  lemma RemoveNeeds(s: Ledger, a: Actor, w: OrderId, c: CoverId)
    ensures ScanRemove(s, a, w, c).1 == Done ==> FieldRefusal(s, a, w, {Removing}).None? && (w, c) in s.installs
  {
    hide FieldRefusal;
  }

  lemma RemoveRule(s: Ledger, a: Actor, w: OrderId, c: CoverId)
    requires Inv(s)
    ensures ScanRemove(s, a, w, c).1 == Done <==> WorkAllowed(s, RemoveCover(a, w, c))
  {
    hide Inv, FieldRefusal, FieldActor, MayWorkOn, Unremoved, ScanRemove;
    RemoveNeeds(s, a, w, c);
    FieldWorkIs(s, a, w, {Removing});
    if FieldWork(s, a, w, {Removing}) && (w, c) in s.installs {
      ActorIs(a, s.orders[w]);
      RemovalProgress(s, a, w, c);
    }
    hide FieldWork, HasFor, Unclaimed;
  }

  lemma RemovedAre(s: Ledger, w: OrderId)
    ensures AllRemoved(s, w) <==> Unremoved(s, w) == {} && forall c :: (w, c) in s.installs ==> s.installs[(w, c)].removePhoto.Some?
  {
    if Unremoved(s, w) == {} {
      forall c | (w, c) in s.installs ensures s.installs[(w, c)].removed { assert c !in Unremoved(s, w); }
    }
  }

  lemma CompleteNeedsField(s: Ledger, a: Actor, w: OrderId)
    ensures CompleteRemoval(s, a, w).1 == Done ==> FieldRefusal(s, a, w, {Removing}).None?
  {
    hide FieldRefusal, RemovalRefusal, InstallationRows, ListsInstallations;
  }

  lemma CompleteRule(s: Ledger, a: Actor, w: OrderId)
    requires Inv(s)
    ensures CompleteRemoval(s, a, w).1 == Done <==> WorkAllowed(s, Complete(a, w))
  {
    hide Inv, FieldRefusal, FieldActor, MayWorkOn, Unremoved, CompleteRemoval;
    FieldWorkIs(s, a, w, {Removing});
    CompleteNeedsField(s, a, w);
    RemovedAre(s, w);
    if FieldWork(s, a, w, {Removing}) {
      ActorIs(a, s.orders[w]);
      CompletionProgress(s, a, w);
    }
    hide FieldWork, HasFor, Unclaimed, AllRemoved;
  }

  lemma EvidenceIs(s: Ledger, a: Actor, kind: PhotoKind, w: OrderId, c: CoverId)
    requires Inv(s)
    ensures EvidenceRefusal(s, a, kind, w, c).None? <==>
            && FieldWork(s, a, w, if kind == InstallPhoto then {Scheduled} else {Removing})
            && (w, c) in s.installs && (kind == RemovePhoto ==> s.installs[(w, c)].removed)
  {
    if w in s.orders {
      ActorIs(a, s.orders[w]);
      ShapesAre(s, w);
    }
    hide Inv, FieldActor, MayWorkOn;
  }

  lemma ShapesAre(s: Ledger, w: OrderId)
    requires Inv(s) && w in s.orders
    ensures forall c :: (w, c) in s.installs ==> Shape(s.orders[w].status, (w, c), s.installs[(w, c)])
  {
    Disassemble(s);
    hide Inv;
    ShapeOf(s, w);
  }

  lemma AttachAllowed(s: Ledger, a: Actor, kind: PhotoKind, w: OrderId, c: CoverId, key: Option<Photo>, early: Option<Error>,
        storage: StorageAnswer)
    ensures WorkAllowed(s, Attach(a, kind, w, c, key, early, storage)) <==>
            && key == Some(Photo(kind, w, c)) && early == None && storage == GoodImage && (w, c) in s.installs
            && FieldWork(s, a, w, if kind == InstallPhoto then {Scheduled} else {Removing})
            && (kind == RemovePhoto ==> s.installs[(w, c)].removed)
  {
    hide FieldWork, HasFor, Unclaimed;
  }

  lemma AttachRule(s: Ledger, a: Actor, kind: PhotoKind, w: OrderId, c: CoverId, key: Option<Photo>, early: Option<Error>,
        storage: StorageAnswer)
    requires Inv(s)
    ensures AttachEvidence(s, a, kind, w, c, key, early, storage).1 == Done <==>
            WorkAllowed(s, Attach(a, kind, w, c, key, early, storage))
  {
    hide Inv, EvidenceRefusal, FieldWork;
    EvidenceIs(s, a, kind, w, c);
    AttachAllowed(s, a, kind, w, c, key, early, storage);
    hide WorkAllowed;
  }

  // ----- loans and covers follow the rules -----

  /** The label a new cover carries. */
  function LabelOf(office: OfficeId, item: Item): string
  {
    if item.qrCode == "" then "SCC:" + office + ":" + item.assetCode else item.qrCode
  }

  /** A new cover carries a code that the other one carries in the same column. */
  predicate SharesCode(office: OfficeId, item: Item, assetCode: string, qrCode: string, nfcId: Option<string>)
  {
    item.assetCode == assetCode || LabelOf(office, item) == qrCode || (nfcId.Some? && item.nfcId == nfcId)
  }

  /** A batch of well-formed items with new ids, and codes that are new and not shared. */
  ghost predicate BatchAllowed(s: Ledger, office: OfficeId, items: seq<Item>)
  {
    && items != [] && office != ""
    && (forall i :: 0 <= i < |items| ==> items[i].assetCode != "" && items[i].nfcId != Some("") && items[i].id !in s.covers)
    && (forall i, j :: 0 <= i < j < |items| ==>
          items[i].id != items[j].id &&
          !SharesCode(office, items[i], items[j].assetCode, LabelOf(office, items[j]), items[j].nfcId))
    && (forall i, c :: 0 <= i < |items| && c in s.covers ==>
          !SharesCode(office, items[i], s.covers[c].assetCode, s.covers[c].qrCode, s.covers[c].nfcId))
  }

  /** The state in which a loan's or a cover's transaction is accepted. */
  ghost predicate LoanAllowed(s: Ledger, op: Op)
  {
    match op
    case RequestLoan(b, a, env, r, chosen) => RequestAllowed(s, b, a, env, r, chosen)
    case ApproveLoan(b, a, active) =>
      active && b in s.borrows && Executive(a, s.borrows[b].lender) && s.borrows[b].status == Requested
    case RejectLoan(b, a, active) =>
      active && b in s.borrows && Executive(a, s.borrows[b].lender) && s.borrows[b].status == Requested
    case CancelLoan(b, a, active) =>
      active && b in s.borrows && Requester(a, s.borrows[b]) && s.borrows[b].status in {Requested, Approved}
    case ActivateLoan(b, a, active) =>
      active && b in s.borrows && Custodian(a, s.borrows[b]) && s.borrows[b].status == Approved
    case ReturnLoan(b, a, active) =>
      && active && b in s.borrows && Custodian(a, s.borrows[b]) && s.borrows[b].status in {OnLoan, Overdue}
      && NothingOut(s, b)
    case LoansFallDue(due, now) =>
      forall b :: b in due ==> b in s.borrows && s.borrows[b].status == OnLoan && s.borrows[b].returnDate < now
    case Register(office, items) => BatchAllowed(s, office, items)
    case RetireCover(c) =>
      && c in s.covers && s.covers[c].status == InStock && s.covers[c].owner != ""
      && s.covers[c].current == s.covers[c].owner && Unclaimed(s, c) && HasFor(s, s.covers[c].owner, 1)
    case _ => true
  }

  lemma ClaimsAre(a: Actor, b: Borrow)
    ensures ValidClaims(a) && IsExecOf(a, b.lender) <==> Executive(a, b.lender)
    ensures ValidClaims(a) && MayHandOver(a, b) <==> Custodian(a, b)
    ensures ValidClaims(a) && a.role != Admin && MayCancel(a, b) <==> Requester(a, b)
  {
  }

  /** A request for covers that the caller has picked. */
  ghost predicate RequestAllowed(s: Ledger, b: BorrowId, a: Actor, env: Lookups, r: Request, chosen: set<CoverId>)
  {
    && env.actorActive && env.lenderExists && env.borrowerNamed
    && a.id != "" && a.role != Admin && a.office.Some? && a.office.value != ""
    && r.lender != "" && r.lender != a.office.value && r.qty >= 1 && r.now < r.returnDate
    && b !in s.borrows && |chosen| == r.qty && chosen <= LendableAt(s, r.lender)
    && Plans(s, r.lender) + Promised(s, r.lender) + r.qty <= |OwnStockAt(s, r.lender)|
  }

  lemma RequestRule(s: Ledger, b: BorrowId, a: Actor, env: Lookups, r: Request, chosen: set<CoverId>)
    requires Inv(s)
    ensures CreateBorrow(s, b, a, env, r, chosen).1 == Done <==> RequestAllowed(s, b, a, env, r, chosen)
  {
    hide Inv, BorrowableCapacity, EligibleAt, LendableAt, Plans, Promised, OwnStockAt, LinksMatch, NewLinks, Log;
    LinksAre(s);
    LinkKeys(s);
    LendableIs(s, r.lender);
    if r.qty >= 1 {
      BorrowableIs(s, r.lender, r.qty);
      if chosen <= LendableAt(s, r.lender) {
        SubsetSize(chosen, LendableAt(s, r.lender));
      }
    }
  }

  lemma AnswerRules(s: Ledger, b: BorrowId, a: Actor, active: bool)
    requires Inv(s)
    ensures Approve(s, b, a, active).1 == Done <==>
            active && b in s.borrows && Executive(a, s.borrows[b].lender) && s.borrows[b].status == Requested
    ensures Reject(s, b, a, active).1 == Done <==>
            active && b in s.borrows && Executive(a, s.borrows[b].lender) && s.borrows[b].status == Requested
    ensures CancelBorrow(s, b, a, active).1 == Done <==>
            active && b in s.borrows && Requester(a, s.borrows[b]) && s.borrows[b].status in {Requested, Approved}
  {
    hide Inv, ValidClaims, IsExecOf, MayHandOver, MayCancel, Executive, Custodian, Requester, ActiveLinks, Moved, Released, Activate;
    if b in s.borrows {
      ClaimsAre(a, s.borrows[b]);
      if Pending(s.borrows[b]) {
        ActivationProgress(s, b, a);
      }
    }
  }

  lemma ActivateNeeds(s: Ledger, b: BorrowId, a: Actor, active: bool)
    requires Activate(s, b, a, active).1 == Done
    ensures active && ValidClaims(a) && b in s.borrows && MayHandOver(a, s.borrows[b]) && s.borrows[b].status == Approved
  {
    hide ActiveLinks, AvailableAtLender, Moved, Released, Relocated, ValidClaims, MayHandOver;
  }

  lemma ActivateRule(s: Ledger, b: BorrowId, a: Actor, active: bool)
    requires Inv(s)
    ensures Activate(s, b, a, active).1 == Done <==>
            active && b in s.borrows && Custodian(a, s.borrows[b]) && s.borrows[b].status == Approved
  {
    hide Inv, ValidClaims, MayHandOver, Custodian, Activate, ActiveLinks;
    if Activate(s, b, a, active).1 == Done {
      ActivateNeeds(s, b, a, active);
    }
    if b in s.borrows {
      ClaimsAre(a, s.borrows[b]);
      if Pending(s.borrows[b]) {
        ActivationProgress(s, b, a);
      }
    }
  }

  lemma NothingOutIs(s: Ledger, b: BorrowId)
    ensures NothingOut(s, b) <==> AllFree(s, b)
  {
    if NothingOut(s, b) {
      forall c | c in LinkedCovers(s.links, b) ensures !OpenOn(s.installs, c) {
        forall k | k in s.installs && k.1 == c ensures !Open(s.installs[k]) { assert k == (k.0, c) && (b, c) in s.links; }
      }
    }
    if AllFree(s, b) {
      forall c, w | (b, c) in s.links && (w, c) in s.installs ensures s.installs[(w, c)].removed {
        assert c in LinkedCovers(s.links, b) && (w, c).1 == c;
      }
    }
  }

  lemma ReturnNeeds(s: Ledger, b: BorrowId, a: Actor, active: bool)
    requires !Return(s, b, a, active).1.Refused?
    ensures active && ValidClaims(a) && b in s.borrows && MayHandOver(a, s.borrows[b]) && Outstanding(s.borrows[b])
  {
    hide InspectReturn, LinkRows, LinkedCovers, Moved, RecordShortfall, Relocated, ValidClaims, MayHandOver, MarkedLate;
  }

  lemma ReturnRule(s: Ledger, b: BorrowId, a: Actor, active: bool)
    requires Inv(s)
    ensures Return(s, b, a, active).1 == Done <==>
            && active && b in s.borrows && Custodian(a, s.borrows[b]) && s.borrows[b].status in {OnLoan, Overdue}
            && NothingOut(s, b)
    ensures Return(s, b, a, active).1 == Blocked <==>
            && active && b in s.borrows && Custodian(a, s.borrows[b]) && s.borrows[b].status in {OnLoan, Overdue}
            && !NothingOut(s, b)
  {
    hide Inv, ValidClaims, MayHandOver, Custodian, Return, NothingOut, AllFree, CameHome, StayedLate;
    NothingOutIs(s, b);
    if !Return(s, b, a, active).1.Refused? {
      ReturnNeeds(s, b, a, active);
    }
    if b in s.borrows {
      ClaimsAre(a, s.borrows[b]);
      if Outstanding(s.borrows[b]) && active && ValidClaims(a) && MayHandOver(a, s.borrows[b]) {
        ReturnProgress(s, b, a);
      }
    }
  }

  lemma DueRule(s: Ledger, due: set<BorrowId>, now: int)
    ensures MarkOverdue(s, due, now).1 == Done <==>
            forall b :: b in due ==> b in s.borrows && s.borrows[b].status == OnLoan && s.borrows[b].returnDate < now
  {
    hide Log, OVERDUE_EVENT;
  }

  lemma RetireRule(s: Ledger, c: CoverId)
    requires Inv(s)
    ensures Retire(s, c).1 == Done <==>
            && c in s.covers && s.covers[c].status == InStock && s.covers[c].owner != ""
            && s.covers[c].current == s.covers[c].owner && Unclaimed(s, c) && HasFor(s, s.covers[c].owner, 1)
  {
    hide Inv;
    LinksAre(s);
    UnclaimedIs(s, c);
    if c in s.covers {
      HasForIs(s, s.covers[c].owner, 1);
    }
    hide Inv, Free, HasFor, OpenOn, ReservedOn, Unclaimed, LinksMatch;
  }

  // ----- registration -----

  lemma PreparedIs(office: OfficeId, item: Item)
    ensures var row := Prepared(office, item);
            && row.status == InStock && row.owner == office && row.current == office
            && row.assetCode == item.assetCode && row.qrCode == LabelOf(office, item) && row.nfcId == item.nfcId
  {
  }

  lemma CodesApart(office: OfficeId, item: Item, x: Cover)
    ensures CodesOf(Prepared(office, item)) !! CodesOf(x) <==> !SharesCode(office, item, x.assetCode, x.qrCode, x.nfcId)
  {
    PreparedIs(office, item);
    var row := Prepared(office, item);
    hide Prepared, LabelOf;
    assert Asset(row.assetCode) in CodesOf(row) && Qr(row.qrCode) in CodesOf(row);
    assert Asset(x.assetCode) in CodesOf(x) && Qr(x.qrCode) in CodesOf(x);
    assert row.nfcId.Some? ==> Nfc(row.nfcId.value) in CodesOf(row);
    assert x.nfcId.Some? ==> Nfc(x.nfcId.value) in CodesOf(x);
  }

  ghost predicate ItemsApart(office: OfficeId, items: seq<Item>)
  {
    forall i, j :: 0 <= i < j < |items| ==> CodesOf(Prepared(office, items[i])) !! CodesOf(Prepared(office, items[j]))
  }

  /** The batch loop objects to nothing exactly when every item is well formed and no two items,
      nor an item and what was seen before, share a code. */
  lemma {:induction false} BatchRule(office: OfficeId, items: seq<Item>, seen: set<Code>)
    ensures BatchRefusal(office, items, seen).None? <==>
            && (forall i :: 0 <= i < |items| ==> WellFormed(office, items[i]) && CodesOf(Prepared(office, items[i])) !! seen)
            && ItemsApart(office, items)
  {
    hide WellFormed, CodesOf, Prepared;
    if items != [] {
      var rest := items[1..];
      BatchRule(office, rest, seen + CodesOf(Prepared(office, items[0])));
      assert forall i :: 0 < i < |items| ==> items[i] == rest[i - 1];
      assert forall i :: 0 <= i < |rest| ==> rest[i] == items[i + 1];
    }
  }

  lemma RegisterRule(s: Ledger, office: OfficeId, items: seq<Item>)
    ensures RegisterBatch(s, office, items).1 == Done <==> BatchAllowed(s, office, items)
  {
    BatchRule(office, items, {});
    forall i, j | 0 <= i < j < |items|
      ensures CodesOf(Prepared(office, items[i])) !! CodesOf(Prepared(office, items[j])) <==>
              !SharesCode(office, items[i], items[j].assetCode, LabelOf(office, items[j]), items[j].nfcId)
    {
      CodesApart(office, items[i], Prepared(office, items[j]));
      PreparedIs(office, items[j]);
    }
    forall i, c | 0 <= i < |items| && c in s.covers
      ensures CodesOf(s.covers[c]) !! CodesOf(Prepared(office, items[i])) <==>
              !SharesCode(office, items[i], s.covers[c].assetCode, s.covers[c].qrCode, s.covers[c].nfcId)
    {
      CodesApart(office, items[i], s.covers[c]);
    }
    hide CodesOf, Prepared, SharesCode, BatchRefusal, NewCovers, LabelOf;
  }

  // ----- every transaction follows the rules -----

  ghost predicate Allowed(s: Ledger, op: Op)
  {
    WorkAllowed(s, op) && LoanAllowed(s, op)
  }

  lemma WorkRule(s: Ledger, op: Op)
    requires Inv(s)
    requires OnOrder(op)
    ensures Step(s, op).1 == Done <==> WorkAllowed(s, op)
  {
    hide Inv, CreateOrder, UpdateScheduled, Assign, ScanInstall, UnscanInstall, SubmitInstall, StartRemoval, ScanRemove;
    hide CompleteRemoval, CancelOrder, AttachEvidence, MarkRemovalDue, WorkAllowed;
    match op
    case OpenOrder(id, o, p, assignee, ok) => OpenRule(s, id, o, p, assignee, ok);
    case EditOrder(w, p, ok) => EditRule(s, w, p, ok);
    case AssignOrder(w, technician, ok) => AssignRule(s, w, technician, ok);
    case Scan(a, w, c) => ScanRule(s, a, w, c);
    case Unscan(a, w, c) => StatusRules(s, a, w, c);
    case Submit(a, w) => SubmitRule(s, a, w);
    case BeginRemoval(a, w) => StatusRules(s, a, w, "");
    case RemoveCover(a, w, c) => RemoveRule(s, a, w, c);
    case Complete(a, w) => CompleteRule(s, a, w);
    case CancelWork(w) => StatusRules(s, Actor("", Admin, None), w, "");
    case Attach(a, kind, w, c, key, early, storage) => AttachRule(s, a, kind, w, c, key, early, storage);
    case RemovalFallsDue(w, now) => RemovalDueRule(s, w, now);
    case _ =>
  }

  /** The removal-due job finds nothing to object to. */
  lemma RemovalDueRule(s: Ledger, w: OrderId, now: int)
    ensures MarkRemovalDue(s, w, now).1 == Done && WorkAllowed(s, RemovalFallsDue(w, now))
  {
    hide FieldWork, HasFor, Unclaimed, Planned;
  }

  lemma LoanRule(s: Ledger, op: Op)
    requires Inv(s)
    requires !OnOrder(op)
    ensures Step(s, op).1 == Done <==> LoanAllowed(s, op)
  {
    hide Inv, CreateBorrow, Approve, Reject, CancelBorrow, Activate, Return, MarkOverdue, RegisterBatch, Retire;
    hide RequestAllowed, BatchAllowed, Executive, Requester, Custodian, NothingOut, Unclaimed, HasFor;
    match op
    case RequestLoan(b, a, env, r, chosen) => RequestRule(s, b, a, env, r, chosen);
    case ApproveLoan(b, a, active) => AnswerRules(s, b, a, active);
    case RejectLoan(b, a, active) => AnswerRules(s, b, a, active);
    case CancelLoan(b, a, active) => AnswerRules(s, b, a, active);
    case ActivateLoan(b, a, active) => ActivateRule(s, b, a, active);
    case ReturnLoan(b, a, active) => ReturnRule(s, b, a, active);
    case LoansFallDue(due, now) => DueRule(s, due, now);
    case Register(office, items) => RegisterRule(s, office, items);
    case RetireCover(c) => RetireRule(s, c);
    case _ =>
  }

  /** The other table of rules has nothing to say. */
  lemma OtherTable(s: Ledger, op: Op)
    ensures if OnOrder(op) then LoanAllowed(s, op) else WorkAllowed(s, op)
  {
    hide HasFor, Unclaimed, FieldWork, NothingOut, Planned, RequestAllowed, BatchAllowed;
  }

  /** In every state that satisfies the invariant a transaction is accepted if and only if the
      rules allow it: actor, statuses, dates, codes, claims and stock, and nothing else. */
  lemma AcceptedExactly(s: Ledger, op: Op)
    requires Inv(s)
    ensures Step(s, op).1 == Done <==> Allowed(s, op)
  {
    OtherTable(s, op);
    hide Step, Inv, WorkAllowed, LoanAllowed, OnOrder;
    if OnOrder(op) {
      WorkRule(s, op);
    } else {
      LoanRule(s, op);
    }
  }

  /** A request, on the covers the service picks for it: accepted if and only if actor, names and
      dates are right, the lender has that many lendable covers, and its own stock covers what it
      has planned and promised and this request. */
  lemma RequestExactly(s: Ledger, b: BorrowId, a: Actor, env: Lookups, r: Request)
    requires Inv(s)
    ensures CreateBorrow(s, b, a, env, r, Chosen(s, r)).1 == Done <==>
            && env.actorActive && env.lenderExists && env.borrowerNamed
            && a.id != "" && a.role != Admin && a.office.Some? && a.office.value != ""
            && r.lender != "" && r.lender != a.office.value && r.qty >= 1 && r.now < r.returnDate && b !in s.borrows
            && r.qty <= |LendableAt(s, r.lender)|
            && Plans(s, r.lender) + Promised(s, r.lender) + r.qty <= |OwnStockAt(s, r.lender)|
  {
    RequestRule(s, b, a, env, r, Chosen(s, r));
    LendableIs(s, r.lender);
    if r.qty >= 1 {
      ChosenAreEligible(s, r);
      SelectionLeast(s, r.lender, r.qty);
    }
    hide Inv, CreateBorrow, Chosen, Selection, LendableAt, EligibleAt, EligibleSet, Plans, Promised, OwnStockAt, ByCode, BorrowableCapacity;
  }
}
