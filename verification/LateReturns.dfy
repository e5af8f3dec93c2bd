/** Marking one loan overdue commutes with every transaction that does not lock that loan. */
module LateReturns {
  import opened Collections
  import opened Stock
  import opened WorkOrders
  import opened Borrows
  import opened Transactions
  import opened Invariants
  import opened InvariantSteps
  import opened Footprints
  import opened Capacity
  import opened Promises

  /** The ledger with another row and another log for borrow b. */
  function Put(s: Ledger, b: BorrowId, row: Borrow, es: seq<AuditEvent>): Ledger
  {
    s.(borrows := s.borrows[b := row], audit := s.audit[b := es])
  }

  /** A row of the same loan, in whatever status. */
  predicate SameLoan(s: Ledger, b: BorrowId, row: Borrow)
  {
    b in s.borrows && row.(status := s.borrows[b].status) == s.borrows[b]
  }

  // ----- nothing that is counted or listed looks at the status of b -----

  lemma PutCounts(s: Ledger, b: BorrowId, row: Borrow, es: seq<AuditEvent>, o: OfficeId, x: Option<OrderId>)
    requires SameLoan(s, b, row)
    ensures var f := Put(s, b, row, es);
            && Available(f, o, x) == Available(s, o, x) && Free(f, o) == Free(s, o)
            && InStockCount(f, o) == InStockCount(s, o) && PlannedCount(f, o) == PlannedCount(s, o)
            && BorrowableCapacity(f, o) == BorrowableCapacity(s, o)
  {
    var f := Put(s, b, row, es);
    assert row.lender == s.borrows[b].lender;
    SameReservations(s.borrows, f.borrows, s.links, o);
    assert EligibleSet(f, o) == EligibleSet(s, o);
    hide ReservationSet, EligibleSet, OwnedSet, SlotSet, InStockSet;
  }

  lemma {:induction false} PutRemoval(s: Ledger, b: BorrowId, row: Borrow, es: seq<AuditEvent>, w: OrderId, rows: seq<CoverId>)
    requires forall c :: c in rows ==> (w, c) in s.installs
    ensures RemovalRefusal(Put(s, b, row, es), w, rows) == RemovalRefusal(s, w, rows)
  {
    if rows != [] {
      PutRemoval(s, b, row, es, w, rows[1..]);
    }
  }

  lemma {:induction false} PutInspection(s: Ledger, b: BorrowId, row: Borrow, es: seq<AuditEvent>, loan: Borrow, rows: seq<CoverId>)
    ensures InspectReturn(Put(s, b, row, es), loan, rows) == InspectReturn(s, loan, rows)
  {
    if rows != [] {
      PutInspection(s, b, row, es, loan, rows[1..]);
    }
  }

  // ----- orders and covers -----

  /** The outcome of a transaction on the ledger with the other row, given its outcome without. */
  ghost predicate Same(u: (Ledger, Verdict), t: (Ledger, Verdict), b: BorrowId, row: Borrow, es: seq<AuditEvent>)
  {
    u.0 == Put(t.0, b, row, es) && u.1 == t.1
  }

  lemma CreateSame(s: Ledger, b: BorrowId, row: Borrow, es: seq<AuditEvent>, id: OrderId, o: OfficeId, p: Planning,
        assignee: Option<UserId>, ok: bool)
    requires SameLoan(s, b, row)
    ensures Same(CreateOrder(Put(s, b, row, es), id, o, p, assignee, ok), CreateOrder(s, id, o, p, assignee, ok), b, row, es)
  {
    PutCounts(s, b, row, es, o, None);
    hide Available, ValidPlanning;
  }

  lemma UpdateSame(s: Ledger, b: BorrowId, row: Borrow, es: seq<AuditEvent>, w: OrderId, p: Patch, ok: bool)
    requires SameLoan(s, b, row)
    ensures Same(UpdateScheduled(Put(s, b, row, es), w, p, ok), UpdateScheduled(s, w, p, ok), b, row, es)
  {
    if w in s.orders {
      PutCounts(s, b, row, es, s.orders[w].office, Some(w));
    }
    hide Available, ValidPlanning;
  }

  lemma AssignSame(s: Ledger, b: BorrowId, row: Borrow, es: seq<AuditEvent>, w: OrderId, technician: UserId, ok: bool)
    ensures Same(Assign(Put(s, b, row, es), w, technician, ok), Assign(s, w, technician, ok), b, row, es)
  {
  }

  lemma StatusSame(s: Ledger, b: BorrowId, row: Borrow, es: seq<AuditEvent>, w: OrderId, a: Actor, now: int)
    ensures Same(StartRemoval(Put(s, b, row, es), a, w), StartRemoval(s, a, w), b, row, es)
    ensures Same(MarkRemovalDue(Put(s, b, row, es), w, now), MarkRemovalDue(s, w, now), b, row, es)
  {
    hide MayWorkOn;
  }

  lemma CancelOrderSame(s: Ledger, b: BorrowId, row: Borrow, es: seq<AuditEvent>, w: OrderId)
    ensures Same(CancelOrder(Put(s, b, row, es), w), CancelOrder(s, w), b, row, es)
  {
    var u, t := CancelOrder(Put(s, b, row, es), w), CancelOrder(s, w);
    assert u.1 == t.1 && u.0.orders == t.0.orders;
    assert u.0.installs == t.0.installs;
  }

  lemma DraftSame(s: Ledger, b: BorrowId, row: Borrow, es: seq<AuditEvent>, a: Actor, w: OrderId, c: CoverId)
    ensures Same(ScanInstall(Put(s, b, row, es), a, w, c), ScanInstall(s, a, w, c), b, row, es)
    ensures Same(UnscanInstall(Put(s, b, row, es), a, w, c), UnscanInstall(s, a, w, c), b, row, es)
  {
    hide MayWorkOn, OpenElsewhere, ReservedOn;
  }

  lemma RemoveSame(s: Ledger, b: BorrowId, row: Borrow, es: seq<AuditEvent>, a: Actor, w: OrderId, c: CoverId)
    ensures Same(ScanRemove(Put(s, b, row, es), a, w, c), ScanRemove(s, a, w, c), b, row, es)
  {
    hide MayWorkOn;
  }

  lemma AttachSame(s: Ledger, b: BorrowId, row: Borrow, es: seq<AuditEvent>, a: Actor, kind: PhotoKind, w: OrderId, c: CoverId,
        key: Option<Photo>, early: Option<Error>, storage: StorageAnswer)
    ensures Same(AttachEvidence(Put(s, b, row, es), a, kind, w, c, key, early, storage),
                 AttachEvidence(s, a, kind, w, c, key, early, storage), b, row, es)
  {
    hide MayWorkOn;
  }

  lemma CompleteSame(s: Ledger, b: BorrowId, row: Borrow, es: seq<AuditEvent>, a: Actor, w: OrderId)
    ensures Same(CompleteRemoval(Put(s, b, row, es), a, w), CompleteRemoval(s, a, w), b, row, es)
  {
    var rows := InstallationRows(s, w);
    assert InstallationRows(Put(s, b, row, es), w) == rows;
    assert ListsInstallations(Put(s, b, row, es), w, rows) && ListsInstallations(s, w, rows);
    hide InstallationRows, ListsInstallations;
    CompletedSame(s, b, row, es, a, w, rows);
    hide CompletedIn;
  }

  lemma CompletedSame(s: Ledger, b: BorrowId, row: Borrow, es: seq<AuditEvent>, a: Actor, w: OrderId, rows: seq<CoverId>)
    requires ListsInstallations(Put(s, b, row, es), w, rows) && ListsInstallations(s, w, rows)
    ensures Same(CompletedIn(Put(s, b, row, es), a, w, rows), CompletedIn(s, a, w, rows), b, row, es)
  {
    PutRemoval(s, b, row, es, w, rows);
    hide MayWorkOn, RemovalRefusal;
  }

  lemma SubmitTables(s: Ledger, b: BorrowId, row: Borrow, es: seq<AuditEvent>, w: OrderId)
    ensures var f := Put(s, b, row, es);
            SubmittedCovers(f, w) == SubmittedCovers(s, w) && SubmittedInstalls(f, w) == SubmittedInstalls(s, w)
    ensures w in s.orders ==> (AllReady(Put(s, b, row, es), w) <==> AllReady(s, w))
  {
    hide LiveElsewhere, ReservedOn, InStockAt;
    if w in s.orders {
      assert forall c :: ReadyToInstall(Put(s, b, row, es), w, c) == ReadyToInstall(s, w, c);
    }
  }

  ghost predicate AllReady(s: Ledger, w: OrderId)
    requires w in s.orders
  {
    forall c :: c in InstalledCovers(s.installs, w) ==> ReadyToInstall(s, w, c)
  }

  /** Submission, with its stock checks named. */
  lemma SubmitIs(s: Ledger, a: Actor, w: OrderId)
    requires w in s.orders
    ensures var cs := InstalledCovers(s.installs, w);
            SubmitInstall(s, a, w) ==
              if FieldRefusal(s, a, w, {Scheduled}).Some? then (s, Refused(FieldRefusal(s, a, w, {Scheduled}).value))
              else if cs == {} then (s, Refused(StateInvalid))
              else if |cs| > Available(s, s.orders[w].office, Some(w)) then (s, Refused(InsufficientStock))
              else if exists c :: c in cs && s.installs[(w, c)].installed then (s, Refused(Conflict))
              else if !AllReady(s, w) then (s, Refused(Conflict))
              else if exists c :: c in cs && s.installs[(w, c)].installPhoto != Some(Photo(InstallPhoto, w, c)) then (s, Refused(EvidenceRequired))
              else (s.(covers := SubmittedCovers(s, w), installs := SubmittedInstalls(s, w),
                       orders := s.orders[w := s.orders[w].(status := Active)]), Done)
  {
    hide Available, ReadyToInstall, SubmittedCovers, SubmittedInstalls, FieldRefusal;
  }

  lemma SubmitSame(s: Ledger, b: BorrowId, row: Borrow, es: seq<AuditEvent>, a: Actor, w: OrderId)
    requires SameLoan(s, b, row)
    ensures Same(SubmitInstall(Put(s, b, row, es), a, w), SubmitInstall(s, a, w), b, row, es)
  {
    if w in s.orders {
      PutCounts(s, b, row, es, s.orders[w].office, Some(w));
    }
    SubmitTables(s, b, row, es, w);
    assert FieldRefusal(Put(s, b, row, es), a, w, {Scheduled}) == FieldRefusal(s, a, w, {Scheduled}) by { hide MayWorkOn; }
    if w in s.orders {
      SubmitIs(s, a, w);
      SubmitIs(Put(s, b, row, es), a, w);
      hide SubmitInstall, Available, FieldRefusal, AllReady, SubmittedCovers, SubmittedInstalls, SameLoan;
    }
  }

  lemma RegisterSame(s: Ledger, b: BorrowId, row: Borrow, es: seq<AuditEvent>, office: OfficeId, items: seq<Item>)
    ensures Same(RegisterBatch(Put(s, b, row, es), office, items), RegisterBatch(s, office, items), b, row, es)
  {
    assert Storable(Put(s, b, row, es), office, items) == Storable(s, office, items);
    hide Storable, BatchRefusal, NewCovers;
  }

  lemma RetireSame(s: Ledger, b: BorrowId, row: Borrow, es: seq<AuditEvent>, c: CoverId)
    requires SameLoan(s, b, row)
    ensures Same(Retire(Put(s, b, row, es), c), Retire(s, c), b, row, es)
  {
    if c in s.covers {
      PutCounts(s, b, row, es, s.covers[c].owner, None);
    }
    hide Free, OpenOn, ReservedOn;
  }

  // ----- other loans -----

  /** Two borrows' rows can be written in either order. */
  lemma PutMoved(s: Ledger, b: BorrowId, row: Borrow, es: seq<AuditEvent>, x: BorrowId, action: BorrowAction, to: BorrowStatus)
    requires x in s.borrows && x != b
    ensures Moved(Put(s, b, row, es), x, action, to) == Put(Moved(s, x, action, to), b, row, es)
  {
    var loan := s.borrows[x].(status := to);
    var log := Log(s.audit, x) + [AuditEvent(action, Some(s.borrows[x].status), to)];
    assert Put(s, b, row, es).borrows[x] == s.borrows[x] && Log(Put(s, b, row, es).audit, x) == Log(s.audit, x);
    hide Log;
    MapSwap(s.borrows, b, row, x, loan);
    MapSwap(s.audit, b, es, x, log);
  }

  lemma PutReleased(s: Ledger, b: BorrowId, row: Borrow, es: seq<AuditEvent>, x: BorrowId)
    ensures Released(Put(s, b, row, es), x) == Put(Released(s, x), b, row, es)
  {
    assert ReleasedLinks(Put(s, b, row, es), x) == ReleasedLinks(s, x);
    hide ReleasedLinks;
  }

  lemma PutRelocated(s: Ledger, b: BorrowId, row: Borrow, es: seq<AuditEvent>, cs: set<CoverId>, o: OfficeId)
    ensures Relocated(Put(s, b, row, es), cs, o) == Put(Relocated(s, cs, o), b, row, es)
  {
    assert Relocated(Put(s, b, row, es), cs, o).covers == Relocated(s, cs, o).covers;
  }

  lemma ApproveSame(s: Ledger, b: BorrowId, row: Borrow, es: seq<AuditEvent>, x: BorrowId, a: Actor, active: bool)
    requires x != b
    ensures Same(Approve(Put(s, b, row, es), x, a, active), Approve(s, x, a, active), b, row, es)
  {
    if x in s.borrows {
      PutMoved(s, b, row, es, x, ApproveAction, Approved);
    }
    hide Moved, ValidClaims;
  }

  lemma RejectSame(s: Ledger, b: BorrowId, row: Borrow, es: seq<AuditEvent>, x: BorrowId, a: Actor, active: bool)
    requires x != b
    ensures Same(Reject(Put(s, b, row, es), x, a, active), Reject(s, x, a, active), b, row, es)
  {
    if x in s.borrows {
      PutReleased(s, b, row, es, x);
      PutMoved(Released(s, x), b, row, es, x, RejectAction, Rejected);
    }
    hide Moved, ReleasedLinks, ActiveLinks, ValidClaims;
  }

  lemma CancelSame(s: Ledger, b: BorrowId, row: Borrow, es: seq<AuditEvent>, x: BorrowId, a: Actor, active: bool)
    requires x != b
    ensures Same(CancelBorrow(Put(s, b, row, es), x, a, active), CancelBorrow(s, x, a, active), b, row, es)
  {
    if x in s.borrows {
      PutReleased(s, b, row, es, x);
      PutMoved(Released(s, x), b, row, es, x, CancelAction, BorrowStatus.Cancelled);
    }
    hide Moved, ReleasedLinks, ActiveLinks, ValidClaims;
  }

  lemma PutRequested(s: Ledger, b: BorrowId, row: Borrow, es: seq<AuditEvent>, x: BorrowId, loan: Borrow, links: Links, e: AuditEvent)
    requires x != b
    ensures var f := Put(s, b, row, es);
            f.(borrows := f.borrows[x := loan], links := links, audit := f.audit[x := Log(f.audit, x) + [e]]) ==
            Put(s.(borrows := s.borrows[x := loan], links := links, audit := s.audit[x := Log(s.audit, x) + [e]]), b, row, es)
  {
    var log := Log(s.audit, x) + [e];
    assert Log(Put(s, b, row, es).audit, x) == Log(s.audit, x);
    hide Log;
    MapSwap(s.borrows, b, row, x, loan);
    MapSwap(s.audit, b, es, x, log);
  }

  ghost predicate AllEligible(s: Ledger, o: OfficeId, chosen: set<CoverId>)
  {
    forall c :: c in chosen ==> EligibleAt(s, o, c)
  }

  predicate HasLinks(links: Links, x: BorrowId)
  {
    exists k :: k in links && k.0 == x
  }

  /** The new rows of a request. */
  function Requesting(s: Ledger, x: BorrowId, loan: Borrow, chosen: set<CoverId>): Ledger
  {
    s.(borrows := s.borrows[x := loan], links := s.links + NewLinks(x, chosen),
       audit := s.audit[x := Log(s.audit, x) + [AuditEvent(CreateAction, None, Requested)]])
  }

  /** A request, with its stock checks named. */
  lemma RequestIs(s: Ledger, x: BorrowId, a: Actor, env: Lookups, r: Request, chosen: set<CoverId>)
    ensures CreateBorrow(s, x, a, env, r, chosen) ==
            if !ValidClaims(a) || a.role == Admin || a.office.None? then (s, Refused(Forbidden))
            else if r.lender == "" || r.lender == a.office.value || r.qty < 1 || r.returnDate <= r.now then (s, Refused(Validation))
            else if !env.actorActive then (s, Refused(Forbidden))
            else if !env.lenderExists then (s, Refused(Validation))
            else if r.qty > BorrowableCapacity(s, r.lender) then (s, Refused(InsufficientStock))
            else if |chosen| != r.qty then (s, Refused(InsufficientStock))
            else if !AllEligible(s, r.lender, chosen) then (s, Refused(Conflict))
            else if x in s.borrows || HasLinks(s.links, x) then (s, Refused(DuplicateKey))
            else if !env.borrowerNamed then (s, Refused(Validation))
            else (Requesting(s, x, Borrow(a.office.value, r.lender, Requested, r.qty, r.returnDate, a.id), chosen), Done)
  {
    hide EligibleAt, BorrowableCapacity, NewLinks, ValidClaims, Log;
  }

  lemma RequestSame(s: Ledger, b: BorrowId, row: Borrow, es: seq<AuditEvent>, x: BorrowId, a: Actor, env: Lookups, r: Request,
        chosen: set<CoverId>)
    requires SameLoan(s, b, row) && x != b
    ensures Same(CreateBorrow(Put(s, b, row, es), x, a, env, r, chosen), CreateBorrow(s, x, a, env, r, chosen), b, row, es)
  {
    var f := Put(s, b, row, es);
    PutCounts(s, b, row, es, r.lender, None);
    assert AllEligible(f, r.lender, chosen) <==> AllEligible(s, r.lender, chosen) by {
      assert forall c :: EligibleAt(f, r.lender, c) == EligibleAt(s, r.lender, c);
    }
    if a.office.Some? && r.qty >= 0 {
      var loan := Borrow(a.office.value, r.lender, Requested, r.qty, r.returnDate, a.id);
      PutRequested(s, b, row, es, x, loan, s.links + NewLinks(x, chosen), AuditEvent(CreateAction, None, Requested));
      assert Requesting(f, x, loan, chosen) == Put(Requesting(s, x, loan, chosen), b, row, es);
    }
    RequestIs(s, x, a, env, r, chosen);
    RequestIs(f, x, a, env, r, chosen);
    hide CreateBorrow, AllEligible, BorrowableCapacity, HasLinks, Requesting, ValidClaims, Log, SameLoan;
  }

  ghost predicate AllAvailable(s: Ledger, loan: Borrow, cs: set<CoverId>)
  {
    forall c :: c in cs ==> AvailableAtLender(s, loan, c)
  }

  function HandedOver(s: Ledger, x: BorrowId, cs: set<CoverId>): Ledger
    requires x in s.borrows
  {
    Moved(Released(Relocated(s, cs, s.borrows[x].borrower), x), x, ActivateAction, OnLoan)
  }

  /** A handover, with its stock checks named. */
  lemma ActivateIs(s: Ledger, x: BorrowId, a: Actor, active: bool)
    requires x in s.borrows
    ensures var loan, cs := s.borrows[x], ActiveLinks(s.links, x);
            Activate(s, x, a, active) ==
            if !ValidClaims(a) || !active || !MayHandOver(a, loan) then (s, Refused(Forbidden))
            else if loan.status != Approved then (s, Refused(StateInvalid))
            else if |cs| != loan.qty || !AllAvailable(s, loan, cs) then (s, Refused(Conflict))
            else (HandedOver(s, x, cs), Done)
  {
    hide Moved, Released, Relocated, AvailableAtLender, ActiveLinks, ValidClaims;
  }

  lemma PutHandedOver(s: Ledger, b: BorrowId, row: Borrow, es: seq<AuditEvent>, x: BorrowId, cs: set<CoverId>)
    requires x != b && x in s.borrows
    ensures HandedOver(Put(s, b, row, es), x, cs) == Put(HandedOver(s, x, cs), b, row, es)
  {
    var o := s.borrows[x].borrower;
    PutRelocated(s, b, row, es, cs, o);
    PutReleased(Relocated(s, cs, o), b, row, es, x);
    assert x in Released(Relocated(s, cs, o), x).borrows;
    PutMoved(Released(Relocated(s, cs, o), x), b, row, es, x, ActivateAction, OnLoan);
    hide Moved, Released, Relocated;
  }

  lemma ActivateSame(s: Ledger, b: BorrowId, row: Borrow, es: seq<AuditEvent>, x: BorrowId, a: Actor, active: bool)
    requires x != b
    ensures Same(Activate(Put(s, b, row, es), x, a, active), Activate(s, x, a, active), b, row, es)
  {
    if x in s.borrows {
      var f, loan, cs := Put(s, b, row, es), s.borrows[x], ActiveLinks(s.links, x);
      assert AllAvailable(f, loan, cs) <==> AllAvailable(s, loan, cs) by {
        assert forall c :: AvailableAtLender(f, loan, c) == AvailableAtLender(s, loan, c);
      }
      PutHandedOver(s, b, row, es, x, cs);
      ActivateIs(s, x, a, active);
      ActivateIs(f, x, a, active);
      hide Activate, HandedOver, AllAvailable, ActiveLinks, ValidClaims, MayHandOver;
    } else {
      hide ValidClaims;
    }
  }

  lemma PutShortfall(s: Ledger, b: BorrowId, row: Borrow, es: seq<AuditEvent>, x: BorrowId, o: OfficeId)
    requires SameLoan(s, b, row)
    ensures RecordShortfall(Put(s, b, row, es), x, o) == Put(RecordShortfall(s, x, o), b, row, es)
  {
    PutCounts(s, b, row, es, o, None);
    hide PlannedCount, InStockCount;
  }

  /** What a completed return leaves. */
  lemma PutReturned(s: Ledger, b: BorrowId, row: Borrow, es: seq<AuditEvent>, x: BorrowId, cs: set<CoverId>)
    requires x != b && SameLoan(s, b, row) && x in s.borrows
    ensures Moved(RecordShortfall(Relocated(Put(s, b, row, es), cs, s.borrows[x].lender), x, s.borrows[x].borrower), x, ReturnAction, Returned) ==
            Put(Moved(RecordShortfall(Relocated(s, cs, s.borrows[x].lender), x, s.borrows[x].borrower), x, ReturnAction, Returned), b, row, es)
  {
    var loan := s.borrows[x];
    var home := Relocated(s, cs, loan.lender);
    PutRelocated(s, b, row, es, cs, loan.lender);
    assert SameLoan(home, b, row);
    PutShortfall(home, b, row, es, x, loan.borrower);
    assert x in RecordShortfall(home, x, loan.borrower).borrows;
    PutMoved(RecordShortfall(home, x, loan.borrower), b, row, es, x, ReturnAction, Returned);
    hide *;
  }

  lemma LateSame(s: Ledger, b: BorrowId, row: Borrow, es: seq<AuditEvent>, x: BorrowId)
    requires x != b && x in s.borrows
    ensures MarkedLate(Put(s, b, row, es), x) == Put(MarkedLate(s, x), b, row, es)
  {
    PutMoved(s, b, row, es, x, OverdueAction, Overdue);
    hide Moved;
  }

  function CameBack(s: Ledger, x: BorrowId, cs: set<CoverId>): Ledger
    requires x in s.borrows
  {
    var loan := s.borrows[x];
    Moved(RecordShortfall(Relocated(s, cs, loan.lender), x, loan.borrower), x, ReturnAction, Returned)
  }

  lemma ReturnIs(s: Ledger, x: BorrowId, a: Actor, active: bool)
    requires x in s.borrows
    ensures var loan, cs := s.borrows[x], LinkedCovers(s.links, x);
            var v := InspectReturn(s, loan, LinkRows(s, x));
            Return(s, x, a, active) ==
            if !ValidClaims(a) || !active || !MayHandOver(a, loan) then (s, Refused(Forbidden))
            else if !Outstanding(loan) then (s, Refused(StateInvalid))
            else if |cs| != loan.qty then (s, Refused(Conflict))
            else if v == Done then (CameBack(s, x, cs), Done)
            else if v == Blocked then (MarkedLate(s, x), Blocked)
            else (s, v)
  {
    hide Moved, RecordShortfall, Relocated, InspectReturn, LinkRows, LinkedCovers, ValidClaims, MarkedLate;
  }

  lemma ReturnSame(s: Ledger, b: BorrowId, row: Borrow, es: seq<AuditEvent>, x: BorrowId, a: Actor, active: bool)
    requires x != b && SameLoan(s, b, row)
    ensures Same(Return(Put(s, b, row, es), x, a, active), Return(s, x, a, active), b, row, es)
  {
    if x in s.borrows {
      var f, loan := Put(s, b, row, es), s.borrows[x];
      assert LinkRows(f, x) == LinkRows(s, x);
      PutInspection(s, b, row, es, loan, LinkRows(s, x));
      PutReturned(s, b, row, es, x, LinkedCovers(s.links, x));
      assert CameBack(f, x, LinkedCovers(s.links, x)) == Put(CameBack(s, x, LinkedCovers(s.links, x)), b, row, es);
      LateSame(s, b, row, es, x);
      ReturnIs(s, x, a, active);
      ReturnIs(f, x, a, active);
      hide Return, CameBack, InspectReturn, LinkRows, LinkedCovers, MarkedLate, ValidClaims, MayHandOver, Outstanding, SameLoan;
    } else {
      hide ValidClaims;
    }
  }

  lemma DueBorrowsSame(s: Ledger, b: BorrowId, row: Borrow, es: seq<AuditEvent>, due: set<BorrowId>, now: int)
    requires b !in due && MarkOverdue(s, due, now).1 == Done && MarkOverdue(Put(s, b, row, es), due, now).1 == Done
    ensures MarkOverdue(Put(s, b, row, es), due, now).0.borrows == MarkOverdue(s, due, now).0.borrows[b := row]
  {
    hide Log, IsDue;
  }

  lemma DueAuditSame(s: Ledger, b: BorrowId, row: Borrow, es: seq<AuditEvent>, due: set<BorrowId>, now: int)
    requires b !in due && MarkOverdue(s, due, now).1 == Done && MarkOverdue(Put(s, b, row, es), due, now).1 == Done
    ensures MarkOverdue(Put(s, b, row, es), due, now).0.audit == MarkOverdue(s, due, now).0.audit[b := es]
  {
    assert forall x :: x in due ==> Log(s.audit, x) == Log(Put(s, b, row, es).audit, x);
    hide Log, IsDue;
  }

  lemma DueSame(s: Ledger, b: BorrowId, row: Borrow, es: seq<AuditEvent>, due: set<BorrowId>, now: int)
    requires b !in due
    ensures Same(MarkOverdue(Put(s, b, row, es), due, now), MarkOverdue(s, due, now), b, row, es)
  {
    var f := Put(s, b, row, es);
    assert MarkOverdue(f, due, now).1 == MarkOverdue(s, due, now).1;
    if MarkOverdue(s, due, now).1 == Done {
      DueBorrowsSame(s, b, row, es, due, now);
      DueAuditSame(s, b, row, es, due, now);
    }
    hide Log;
  }

  // ----- every transaction -----

  /** The rows a transaction locks do not depend on the state. */
  function LockedRows(op: Op): set<Row>
  {
    Locks(EMPTY, op).rows
  }

  lemma LockedRowsAre(s: Ledger, op: Op)
    ensures LockedRows(op) == Locks(s, op).rows
    ensures op.RequestLoan? || op.ApproveLoan? || op.RejectLoan? || op.CancelLoan? || op.ActivateLoan? || op.ReturnLoan? ==>
              LockedRows(op) == {BorrowRow(op.loan)}
    ensures op.LoansFallDue? ==> LockedRows(op) == Loans(op.due)
  {
  }

  lemma WorkSame(s: Ledger, b: BorrowId, row: Borrow, es: seq<AuditEvent>, op: Op)
    requires SameLoan(s, b, row)
    requires op.OpenOrder? || op.EditOrder? || op.AssignOrder? || op.Scan? || op.Unscan? || op.Submit? || op.BeginRemoval?
             || op.RemoveCover? || op.Complete? || op.CancelWork? || op.Attach? || op.RemovalFallsDue? || op.Register? || op.RetireCover?
    ensures Same(Step(Put(s, b, row, es), op), Step(s, op), b, row, es)
  {
    hide Same, Put, SameLoan, CreateOrder, UpdateScheduled, Assign, ScanInstall, UnscanInstall, SubmitInstall, StartRemoval, ScanRemove;
    hide CompleteRemoval, CancelOrder, AttachEvidence, MarkRemovalDue, RegisterBatch, Retire;
    match op
    case OpenOrder(id, office, plan, assignee, ok) => CreateSame(s, b, row, es, id, office, plan, assignee, ok);
    case EditOrder(w, patch, ok) => UpdateSame(s, b, row, es, w, patch, ok);
    case AssignOrder(w, technician, ok) => AssignSame(s, b, row, es, w, technician, ok);
    case Scan(a, w, c) => DraftSame(s, b, row, es, a, w, c);
    case Unscan(a, w, c) => DraftSame(s, b, row, es, a, w, c);
    case RemoveCover(a, w, c) => RemoveSame(s, b, row, es, a, w, c);
    case Submit(a, w) => SubmitSame(s, b, row, es, a, w);
    case BeginRemoval(a, w) => StatusSame(s, b, row, es, w, a, 0);
    case RemovalFallsDue(w, now) => StatusSame(s, b, row, es, w, Actor("", Admin, None), now);
    case Complete(a, w) => CompleteSame(s, b, row, es, a, w);
    case CancelWork(w) => CancelOrderSame(s, b, row, es, w);
    case Attach(a, kind, w, c, key, early, storage) => AttachSame(s, b, row, es, a, kind, w, c, key, early, storage);
    case Register(office, items) => RegisterSame(s, b, row, es, office, items);
    case RetireCover(c) => RetireSame(s, b, row, es, c);
    case _ =>
  }

  lemma LoanSame(s: Ledger, b: BorrowId, row: Borrow, es: seq<AuditEvent>, op: Op)
    requires SameLoan(s, b, row)
    requires op.RequestLoan? || op.ApproveLoan? || op.RejectLoan? || op.CancelLoan? || op.ActivateLoan? || op.ReturnLoan?
    requires op.loan != b
    ensures Same(Step(Put(s, b, row, es), op), Step(s, op), b, row, es)
  {
    hide Same, Put, SameLoan, CreateBorrow, Approve, Reject, CancelBorrow, Activate, Return;
    match op
    case RequestLoan(x, a, env, r, chosen) => RequestSame(s, b, row, es, x, a, env, r, chosen);
    case ApproveLoan(x, a, active) => ApproveSame(s, b, row, es, x, a, active);
    case RejectLoan(x, a, active) => RejectSame(s, b, row, es, x, a, active);
    case CancelLoan(x, a, active) => CancelSame(s, b, row, es, x, a, active);
    case ActivateLoan(x, a, active) => ActivateSame(s, b, row, es, x, a, active);
    case ReturnLoan(x, a, active) => ReturnSame(s, b, row, es, x, a, active);
    case _ =>
  }

  lemma DueStepSame(s: Ledger, b: BorrowId, row: Borrow, es: seq<AuditEvent>, op: Op)
    requires op.LoansFallDue? && b !in op.due
    ensures Same(Step(Put(s, b, row, es), op), Step(s, op), b, row, es)
  {
    hide Same, Put, MarkOverdue;
    DueSame(s, b, row, es, op.due, op.now);
  }

  /** A transaction that does not lock b sees neither its status nor its log, and leaves both. */
  lemma StepSame(s: Ledger, b: BorrowId, row: Borrow, es: seq<AuditEvent>, op: Op)
    requires SameLoan(s, b, row) && BorrowRow(b) !in LockedRows(op)
    ensures Same(Step(Put(s, b, row, es), op), Step(s, op), b, row, es)
  {
    LockedRowsAre(s, op);
    hide *;
    if op.RequestLoan? || op.ApproveLoan? || op.RejectLoan? || op.CancelLoan? || op.ActivateLoan? || op.ReturnLoan? {
      LoanSame(s, b, row, es, op);
    } else if op.LoansFallDue? {
      LoanListed(op.due, b);
      DueStepSame(s, b, row, es, op);
    } else {
      WorkSame(s, b, row, es, op);
    }
  }

  lemma LoanListed(due: set<BorrowId>, b: BorrowId)
    ensures b in due ==> BorrowRow(b) in Loans(due)
  {
  }

  lemma PutBack(s: Ledger, b: BorrowId)
    requires b in s.borrows && b in s.audit
    ensures Put(s, b, s.borrows[b], s.audit[b]) == s && SameLoan(s, b, s.borrows[b])
  {
    assert s.borrows[b := s.borrows[b]] == s.borrows && s.audit[b := s.audit[b]] == s.audit;
  }

  lemma PutSays(t: Ledger, b: BorrowId, row: Borrow, es: seq<AuditEvent>)
    requires t == Put(t, b, row, es)
    ensures b in t.borrows && t.borrows[b] == row && b in t.audit && t.audit[b] == es
  {
    assert b in Put(t, b, row, es).borrows && b in Put(t, b, row, es).audit;
  }

  /** A transaction that does not lock b leaves its row and its log as they are. */
  lemma BorrowUntouched(s: Ledger, b: BorrowId, op: Op)
    requires b in s.borrows && b in s.audit && BorrowRow(b) !in LockedRows(op)
    ensures b in Step(s, op).0.borrows && Step(s, op).0.borrows[b] == s.borrows[b]
    ensures b in Step(s, op).0.audit && Step(s, op).0.audit[b] == s.audit[b]
  {
    PutBack(s, b);
    StepSame(s, b, s.borrows[b], s.audit[b], op);
    hide Step, LockedRows, Put, SameLoan;
    PutSays(Step(s, op).0, b, s.borrows[b], s.audit[b]);
  }

  /** The ledger with b marked overdue, if it is out on loan. */
  function Late(s: Ledger, b: BorrowId): Ledger
  {
    if b in s.borrows then MarkedLate(s, b) else s
  }

  /** ... which is another row and another log for b. */
  lemma LateIsPut(s: Ledger, b: BorrowId)
    requires b in s.borrows && b in s.audit
    ensures var row := if s.borrows[b].status == OnLoan then s.borrows[b].(status := Overdue) else s.borrows[b];
            var es := if s.borrows[b].status == OnLoan then s.audit[b] + [OVERDUE_EVENT] else s.audit[b];
            Late(s, b) == Put(s, b, row, es) && SameLoan(s, b, row)
  {
    PutBack(s, b);
  }

  /** Marking b overdue before or after such a transaction makes no difference to either. */
  lemma MarkCommutes(s: Ledger, b: BorrowId, op: Op)
    requires b in s.borrows && b in s.audit && BorrowRow(b) !in LockedRows(op)
    ensures Step(Late(s, b), op).0 == Late(Step(s, op).0, b)
    ensures Step(Late(s, b), op).1 == Step(s, op).1
  {
    hide Step, LockedRows, Put, SameLoan, Late;
    BorrowUntouched(s, b, op);
    LateIsPut(s, b);
    LateIsPut(Step(s, op).0, b);
    var row := if s.borrows[b].status == OnLoan then s.borrows[b].(status := Overdue) else s.borrows[b];
    var es := if s.borrows[b].status == OnLoan then s.audit[b] + [OVERDUE_EVENT] else s.audit[b];
    StepSame(s, b, row, es, op);
  }

  /** None of the transactions locks b. */
  predicate Untouched(ops: seq<Op>, b: BorrowId)
  {
    forall i :: 0 <= i < |ops| ==> BorrowRow(b) !in LockedRows(ops[i])
  }

  lemma {:induction false} RunLeaves(s: Ledger, b: BorrowId, ops: seq<Op>)
    requires b in s.borrows && b in s.audit && Untouched(ops, b)
    ensures b in After(s, ops).borrows && After(s, ops).borrows[b] == s.borrows[b]
    ensures b in After(s, ops).audit && After(s, ops).audit[b] == s.audit[b]
    decreases |ops|
  {
    hide Step, LockedRows;
    if ops != [] {
      BorrowUntouched(s, b, ops[0]);
      RunLeaves(Step(s, ops[0]).0, b, ops[1..]);
    }
  }

  lemma {:induction false} MarkCommutesRun(s: Ledger, b: BorrowId, ops: seq<Op>)
    requires b in s.borrows && b in s.audit && Untouched(ops, b)
    ensures After(Late(s, b), ops) == Late(After(s, ops), b)
    decreases |ops|
  {
    hide Step, LockedRows, Late;
    if ops != [] {
      BorrowUntouched(s, b, ops[0]);
      MarkCommutes(s, b, ops[0]);
      MarkCommutesRun(Step(s, ops[0]).0, b, ops[1..]);
    }
  }
}
