/** What every accepted transaction writes, row by row, and that it writes nothing else. */
module Effects {
  import opened Collections
  import opened Stock
  import opened WorkOrders
  import opened Borrows
  import opened Transactions
  import opened Invariants
  import opened InvariantSteps
  import opened Footprints
  import opened Capacity
  import opened Promises
  import opened Progress
  import opened Rules

  /** Away from these keys the tables agree. */
  ghost predicate Only<K(!new), V(!new)>(x: map<K, V>, y: map<K, V>, keys: set<K>)
  {
    forall k :: k !in keys ==> (k in x <==> k in y) && (k in x ==> x[k] == y[k])
  }

  // ----- orders -----

  /** One order row has become this one. */
  ghost predicate OrderBecomes(s: Ledger, t: Ledger, w: OrderId, row: WorkOrder)
  {
    Only(s.orders, t.orders, {w}) && w in t.orders && t.orders[w] == row
  }

  ghost predicate WorkEffect(s: Ledger, op: Op, t: Ledger)
  {
    match op
    case OpenOrder(id, office, plan, assignee, ok) =>
      && t == s.(orders := t.orders) && plan.qty.Some? && plan.qty.value >= 0 && plan.installDate.Some? && plan.removalDate.Some?
      && OrderBecomes(s, t, id, WorkOrder(office, Scheduled, plan.qty.value, plan.installDate.value, plan.removalDate.value, assignee))
    case EditOrder(w, p, ok) =>
      && t == s.(orders := t.orders) && w in s.orders && (p.qty.Some? ==> p.qty.value >= 0)
      && var row := s.orders[w];
         OrderBecomes(s, t, w, WorkOrder(row.office, row.status, if p.qty.Some? then p.qty.value else row.planned,
                                         if p.installDate.Some? then p.installDate.value else row.installDate,
                                         if p.removalDate.Some? then p.removalDate.value else row.removalDate,
                                         if p.setAssignee then p.assignee else row.assignee))
    case AssignOrder(w, technician, ok) =>
      t == s.(orders := t.orders) && w in s.orders && OrderBecomes(s, t, w, s.orders[w].(assignee := Some(technician)))
    case Scan(a, w, c) =>
      && t == s.(installs := t.installs) && Only(s.installs, t.installs, {(w, c)}) && (w, c) in t.installs
      && t.installs[(w, c)] == if (w, c) in s.installs then s.installs[(w, c)] else Installation(false, false, None, None)
    case Unscan(a, w, c) =>
      t == s.(installs := t.installs) && Only(s.installs, t.installs, {(w, c)}) && (w, c) !in t.installs
    case Submit(a, w) =>
      && t == s.(covers := t.covers, orders := t.orders, installs := t.installs) && w in s.orders
      && OrderBecomes(s, t, w, s.orders[w].(status := Active)) && Committed(s, w, t)
    case BeginRemoval(a, w) =>
      t == s.(orders := t.orders) && w in s.orders && OrderBecomes(s, t, w, s.orders[w].(status := Removing))
    case RemoveCover(a, w, c) =>
      && (w, c) in s.installs && c in s.covers
      && if s.installs[(w, c)].removed then t == s
         else
           && t == s.(covers := t.covers, installs := t.installs)
           && Only(s.installs, t.installs, {(w, c)}) && (w, c) in t.installs
           && t.installs[(w, c)] == s.installs[(w, c)].(removed := true)
           && Only(s.covers, t.covers, {c}) && c in t.covers && t.covers[c] == s.covers[c].(status := InStock)
    case Complete(a, w) =>
      t == s.(orders := t.orders) && w in s.orders && OrderBecomes(s, t, w, s.orders[w].(status := Completed))
    case CancelWork(w) =>
      && t == s.(orders := t.orders, installs := t.installs) && w in s.orders
      && OrderBecomes(s, t, w, s.orders[w].(status := OrderStatus.Cancelled))
      && (forall k :: k in t.installs <==> k in s.installs && k.0 != w)
      && (forall k :: k in t.installs ==> t.installs[k] == s.installs[k])
    case Attach(a, kind, w, c, key, early, storage) =>
      && t == s.(installs := t.installs) && (w, c) in s.installs && (w, c) in t.installs
      && Only(s.installs, t.installs, {(w, c)})
      && t.installs[(w, c)] == if kind == InstallPhoto then s.installs[(w, c)].(installPhoto := key)
                               else s.installs[(w, c)].(removePhoto := key)
    case RemovalFallsDue(w, now) =>
      && t == s.(orders := t.orders)
      && if w in s.orders && s.orders[w].status == Active && s.orders[w].removalDate <= now
         then OrderBecomes(s, t, w, s.orders[w].(status := RemovalDue)) else t == s
    case _ => true
  }

  /** The order's drafts are installed and their covers INSTALLED; other rows stay. */
  ghost predicate Committed(s: Ledger, w: OrderId, t: Ledger)
  {
    && t.installs.Keys == s.installs.Keys && t.covers.Keys == s.covers.Keys
    && (forall k :: k in s.installs ==> t.installs[k] == if k.0 == w then s.installs[k].(installed := true) else s.installs[k])
    && (forall c :: c in s.covers ==>
          t.covers[c] == if (w, c) in s.installs then s.covers[c].(status := Installed) else s.covers[c])
  }

  lemma PlanningEffects(s: Ledger, op: Op)
    requires op.OpenOrder? || op.EditOrder? || op.AssignOrder? || op.BeginRemoval? || op.RemovalFallsDue?
    requires Step(s, op).1 == Done
    ensures WorkEffect(s, op, Step(s, op).0)
  {
    hide Available, MayWorkOn, SubmitInstall, ScanInstall, UnscanInstall, ScanRemove, CompleteRemoval, CancelOrder, AttachEvidence;
    hide CreateBorrow, Approve, Reject, CancelBorrow, Activate, Return, MarkOverdue, RegisterBatch, Retire, Committed;
  }

  lemma DraftsOnly(s: Ledger, w: OrderId)
    requires Inv(s) && w in s.orders && s.orders[w].status == Scheduled
    ensures forall c :: (w, c) in s.installs ==> !s.installs[(w, c)].installed
  {
    ShapesAre(s, w);
    hide Inv;
  }

  lemma DraftEffects(s: Ledger, a: Actor, w: OrderId, c: CoverId)
    requires Inv(s)
    ensures ScanInstall(s, a, w, c).1 == Done ==> WorkEffect(s, Scan(a, w, c), ScanInstall(s, a, w, c).0)
    ensures UnscanInstall(s, a, w, c).1 == Done ==> WorkEffect(s, Unscan(a, w, c), UnscanInstall(s, a, w, c).0)
  {
    hide Inv, MayWorkOn, OpenElsewhere, ReservedOn;
    if w in s.orders && s.orders[w].status == Scheduled {
      DraftsOnly(s, w);
    }
    hide Committed, OrderBecomes;
  }

  lemma SubmitEffects(s: Ledger, a: Actor, w: OrderId)
    requires SubmitInstall(s, a, w).1 == Done
    ensures WorkEffect(s, Submit(a, w), SubmitInstall(s, a, w).0)
  {
    hide Available, MayWorkOn, ReadyToInstall, InstalledCovers;
  }

  lemma RemovalEffects(s: Ledger, a: Actor, w: OrderId, c: CoverId)
    requires ScanRemove(s, a, w, c).1 == Done
    ensures WorkEffect(s, RemoveCover(a, w, c), ScanRemove(s, a, w, c).0)
  {
    hide MayWorkOn, Committed, OrderBecomes;
  }

  lemma CompleteEffects(s: Ledger, a: Actor, w: OrderId)
    requires CompleteRemoval(s, a, w).1 == Done
    ensures WorkEffect(s, Complete(a, w), CompleteRemoval(s, a, w).0)
  {
    hide *;
    CompleteChecks(s, a, w);
    CompletedWrites(s, a, w);
  }

  lemma CompletedWrites(s: Ledger, a: Actor, w: OrderId)
    requires w in s.orders
    ensures WorkEffect(s, Complete(a, w), s.(orders := s.orders[w := s.orders[w].(status := Completed)]))
  {
    hide Committed;
  }

  lemma CancelEffects(s: Ledger, w: OrderId)
    requires Inv(s) && CancelOrder(s, w).1 == Done
    ensures WorkEffect(s, CancelWork(w), CancelOrder(s, w).0)
  {
    hide Inv;
    DraftsOnly(s, w);
    forall k | k in s.installs && k.0 == w ensures !s.installs[k].installed { assert k == (w, k.1); }
    hide Committed;
  }

  lemma AttachEffects(s: Ledger, a: Actor, kind: PhotoKind, w: OrderId, c: CoverId, key: Option<Photo>, early: Option<Error>,
        storage: StorageAnswer)
    requires AttachEvidence(s, a, kind, w, c, key, early, storage).1 == Done
    ensures WorkEffect(s, Attach(a, kind, w, c, key, early, storage), AttachEvidence(s, a, kind, w, c, key, early, storage).0)
  {
    hide MayWorkOn, Committed, OrderBecomes;
  }

  lemma WorkEffects(s: Ledger, op: Op)
    requires Inv(s) && OnOrder(op) && Step(s, op).1 == Done
    ensures WorkEffect(s, op, Step(s, op).0)
  {
    hide Inv, SubmitInstall, ScanInstall, UnscanInstall, ScanRemove, CompleteRemoval, CancelOrder, AttachEvidence, WorkEffect;
    hide CreateOrder, UpdateScheduled, Assign, StartRemoval, MarkRemovalDue;
    match op
    case Scan(a, w, c) => DraftEffects(s, a, w, c);
    case Unscan(a, w, c) => DraftEffects(s, a, w, c);
    case Submit(a, w) => SubmitEffects(s, a, w);
    case RemoveCover(a, w, c) => RemovalEffects(s, a, w, c);
    case Complete(a, w) => CompleteEffects(s, a, w);
    case CancelWork(w) => CancelEffects(s, w);
    case Attach(a, kind, w, c, key, early, storage) => AttachEffects(s, a, kind, w, c, key, early, storage);
    case _ => PlanningEffects(s, op);
  }

  // ----- loans -----

  /** The loan's row takes this status and its log this event; no other loan is touched. */
  ghost predicate LoanMoves(s: Ledger, t: Ledger, b: BorrowId, action: BorrowAction, to: BorrowStatus)
  {
    && b in s.borrows && b in t.borrows && b in s.audit && b in t.audit
    && Only(s.borrows, t.borrows, {b}) && t.borrows[b] == s.borrows[b].(status := to)
    && Only(s.audit, t.audit, {b}) && t.audit[b] == s.audit[b] + [AuditEvent(action, Some(s.borrows[b].status), to)]
  }

  /** The loan's covers are with office o; every other cover is where it was. */
  ghost predicate CoversAt(s: Ledger, t: Ledger, b: BorrowId, o: OfficeId)
  {
    && t.covers.Keys == s.covers.Keys
    && forall c :: c in s.covers ==> t.covers[c] == if (b, c) in s.links then s.covers[c].(current := o) else s.covers[c]
  }

  /** The loan's reservations are released; every other link is as it was. */
  ghost predicate LinksReleased(s: Ledger, t: Ledger, b: BorrowId)
  {
    && t.links.Keys == s.links.Keys
    && forall k :: k in s.links ==> t.links[k] == if k.0 == b then true else s.links[k]
  }

  /** The job has marked exactly the loans it was given, each with one event. */
  ghost predicate MarkedExactly(s: Ledger, t: Ledger, due: set<BorrowId>)
  {
    && t == s.(borrows := t.borrows, audit := t.audit) && t.borrows.Keys == s.borrows.Keys
    && (forall b :: b in s.borrows ==> t.borrows[b] == if b in due then s.borrows[b].(status := Overdue) else s.borrows[b])
    && t.audit.Keys == s.audit.Keys + due
    && (forall b :: b in t.audit ==>
          t.audit[b] == (if b in s.audit then s.audit[b] else []) +
                        if b in due then [AuditEvent(OverdueAction, Some(OnLoan), Overdue)] else [])
  }

  /** A new loan, one unreleased link to each of its covers, and a log that begins. */
  ghost predicate RequestWrites(s: Ledger, b: BorrowId, a: Actor, r: Request, chosen: set<CoverId>, t: Ledger)
  {
    && t == s.(borrows := t.borrows, links := t.links, audit := t.audit) && a.office.Some? && r.qty >= 0
    && Only(s.borrows, t.borrows, {b}) && b in t.borrows
    && t.borrows[b] == Borrow(a.office.value, r.lender, Requested, r.qty, r.returnDate, a.id)
    && LinksAdded(s, t, b, chosen)
    && Only(s.audit, t.audit, {b}) && b in t.audit && t.audit[b] == [AuditEvent(CreateAction, None, Requested)]
  }

  ghost predicate LinksAdded(s: Ledger, t: Ledger, b: BorrowId, chosen: set<CoverId>)
  {
    && (forall k :: k in t.links <==> k in s.links || (k.0 == b && k.1 in chosen))
    && (forall k :: k in t.links ==> t.links[k] == if k.0 == b then false else k in s.links && s.links[k])
  }

  /** A new row for each item, with the item's codes, in stock with its owner. */
  ghost predicate BatchWrites(s: Ledger, office: OfficeId, items: seq<Item>, t: Ledger)
  {
    && t == s.(covers := t.covers)
    && (forall c :: c in s.covers ==> c in t.covers && t.covers[c] == s.covers[c])
    && (forall c :: c in t.covers && c !in s.covers ==> exists i :: 0 <= i < |items| && items[i].id == c)
    && (forall i :: 0 <= i < |items| ==>
          && items[i].id in t.covers
          && t.covers[items[i].id] == Cover(InStock, office, office, items[i].assetCode, LabelOf(office, items[i]), items[i].nfcId))
  }

  ghost predicate LoanEffect(s: Ledger, op: Op, t: Ledger)
  {
    match op
    case RequestLoan(b, a, env, r, chosen) => RequestWrites(s, b, a, r, chosen, t)
    case ApproveLoan(b, a, active) =>
      t == s.(borrows := t.borrows, audit := t.audit) && LoanMoves(s, t, b, ApproveAction, Approved)
    case RejectLoan(b, a, active) =>
      && t == s.(borrows := t.borrows, audit := t.audit, links := t.links)
      && LoanMoves(s, t, b, RejectAction, Rejected) && LinksReleased(s, t, b)
    case CancelLoan(b, a, active) =>
      && t == s.(borrows := t.borrows, audit := t.audit, links := t.links)
      && LoanMoves(s, t, b, CancelAction, BorrowStatus.Cancelled) && LinksReleased(s, t, b)
    case ActivateLoan(b, a, active) =>
      && t == s.(borrows := t.borrows, audit := t.audit, links := t.links, covers := t.covers)
      && LoanMoves(s, t, b, ActivateAction, OnLoan) && LinksReleased(s, t, b) && CoversAt(s, t, b, s.borrows[b].borrower)
    case ReturnLoan(b, a, active) =>
      && t == s.(borrows := t.borrows, audit := t.audit, covers := t.covers, shortfalls := t.shortfalls)
      && LoanMoves(s, t, b, ReturnAction, Returned) && CoversAt(s, t, b, s.borrows[b].lender)
      && Only(s.shortfalls, t.shortfalls, {b})
    case LoansFallDue(due, now) => MarkedExactly(s, t, due)
    case Register(office, items) => BatchWrites(s, office, items, t)
    case RetireCover(c) =>
      && t == s.(covers := t.covers) && c in s.covers && Only(s.covers, t.covers, {c}) && c in t.covers
      && t.covers[c] == s.covers[c].(status := Retired)
    case _ => true
  }

  /** The loan's row, its log and its tables once it has moved. */
  lemma MovedBy(s: Ledger, m: Ledger, b: BorrowId, action: BorrowAction, to: BorrowStatus)
    requires b in s.borrows && b in s.audit && m.borrows == s.borrows && m.audit == s.audit
    ensures LoanMoves(s, Moved(m, b, action, to), b, action, to)
    ensures Moved(m, b, action, to) == m.(borrows := Moved(m, b, action, to).borrows, audit := Moved(m, b, action, to).audit)
  {
  }

  lemma ReleasedBy(s: Ledger, b: BorrowId)
    ensures LinksReleased(s, Released(s, b), b) && Released(s, b) == s.(links := Released(s, b).links)
  {
  }

  lemma RelocatedBy(s: Ledger, b: BorrowId, cs: set<CoverId>, o: OfficeId)
    requires forall c :: c in cs <==> (b, c) in s.links
    ensures CoversAt(s, Relocated(s, cs, o), b, o) && Relocated(s, cs, o) == s.(covers := Relocated(s, cs, o).covers)
  {
  }

  lemma AnswersAre(s: Ledger, b: BorrowId, a: Actor, active: bool)
    ensures Approve(s, b, a, active).1 == Done ==>
              b in s.borrows && Approve(s, b, a, active).0 == Moved(s, b, ApproveAction, Approved)
    ensures Reject(s, b, a, active).1 == Done ==>
              b in s.borrows && Reject(s, b, a, active).0 == Moved(Released(s, b), b, RejectAction, Rejected)
    ensures CancelBorrow(s, b, a, active).1 == Done ==>
              b in s.borrows && CancelBorrow(s, b, a, active).0 == Moved(Released(s, b), b, CancelAction, BorrowStatus.Cancelled)
  {
    hide Moved, ActiveLinks, ReleasedLinks, ValidClaims, MayCancel, IsExecOf;
  }

  lemma AnswerEffects(s: Ledger, b: BorrowId, a: Actor, active: bool)
    requires Inv(s)
    ensures var t := Approve(s, b, a, active).0;
            Approve(s, b, a, active).1 == Done ==>
              t == s.(borrows := t.borrows, audit := t.audit) && LoanMoves(s, t, b, ApproveAction, Approved)
    ensures var t := Reject(s, b, a, active).0;
            Reject(s, b, a, active).1 == Done ==>
              && t == s.(borrows := t.borrows, audit := t.audit, links := t.links)
              && LoanMoves(s, t, b, RejectAction, Rejected) && LinksReleased(s, t, b)
    ensures var t := CancelBorrow(s, b, a, active).0;
            CancelBorrow(s, b, a, active).1 == Done ==>
              && t == s.(borrows := t.borrows, audit := t.audit, links := t.links)
              && LoanMoves(s, t, b, CancelAction, BorrowStatus.Cancelled) && LinksReleased(s, t, b)
  {
    AuditThere(s, b);
    AnswersAre(s, b, a, active);
    hide *;
    if b in s.borrows {
      ReleasedBy(s, b);
      MovedBy(s, s, b, ApproveAction, Approved);
      MovedBy(s, Released(s, b), b, RejectAction, Rejected);
      MovedBy(s, Released(s, b), b, CancelAction, BorrowStatus.Cancelled);
      SameReleased(s, Released(s, b), Moved(Released(s, b), b, RejectAction, Rejected), b);
      SameReleased(s, Released(s, b), Moved(Released(s, b), b, CancelAction, BorrowStatus.Cancelled), b);
    }
  }

  lemma AuditThere(s: Ledger, b: BorrowId)
    requires Inv(s)
    ensures b in s.borrows ==> b in s.audit
  {
    AuditOf(s);
    hide Inv;
  }

  /** These clauses look at one table each. */
  lemma SameReleased(s: Ledger, m: Ledger, t: Ledger, b: BorrowId)
    requires LinksReleased(s, m, b) && t.links == m.links
    ensures LinksReleased(s, t, b)
  {
  }

  lemma SamePlaces(s: Ledger, m: Ledger, t: Ledger, b: BorrowId, o: OfficeId)
    requires CoversAt(s, m, b, o) && t.covers == m.covers
    ensures CoversAt(s, t, b, o)
  {
  }

  /** An approved loan's links are all unreleased, so its active covers are all its covers. */
  lemma ApprovedLinks(s: Ledger, b: BorrowId)
    requires Inv(s) && b in s.borrows && s.borrows[b].status == Approved
    ensures forall c :: c in ActiveLinks(s.links, b) <==> (b, c) in s.links
  {
    LinksAre(s);
    hide Inv;
    forall c | (b, c) in s.links ensures !s.links[(b, c)] { assert (b, c).0 == b; }
  }

  lemma ActivateEffects(s: Ledger, b: BorrowId, a: Actor, active: bool)
    requires Inv(s) && Activate(s, b, a, active).1 == Done
    ensures var t := Activate(s, b, a, active).0;
            && t == s.(borrows := t.borrows, audit := t.audit, links := t.links, covers := t.covers)
            && LoanMoves(s, t, b, ActivateAction, OnLoan) && LinksReleased(s, t, b)
            && b in s.borrows && CoversAt(s, t, b, s.borrows[b].borrower)
  {
    hide *;
    ActivateNeeds(s, b, a, active);
    AuditThere(s, b);
    ApprovedLinks(s, b);
    ActivatedIs(s, b, a, active);
    var cs, o := ActiveLinks(s.links, b), s.borrows[b].borrower;
    var m := Relocated(s, cs, o);
    RelocatedBy(s, b, cs, o);
    ReleasedBy(m, b);
    var t := Moved(Released(m, b), b, ActivateAction, OnLoan);
    MovedBy(s, Released(m, b), b, ActivateAction, OnLoan);
    SameLinks(s, m, Released(m, b), b);
    SameReleased(s, Released(m, b), t, b);
    SamePlaces(s, m, t, b, o);
  }

  lemma SameLinks(s: Ledger, m: Ledger, t: Ledger, b: BorrowId)
    requires LinksReleased(m, t, b) && s.links == m.links
    ensures LinksReleased(s, t, b)
  {
  }

  lemma ActivatedIs(s: Ledger, b: BorrowId, a: Actor, active: bool)
    requires Activate(s, b, a, active).1 == Done && b in s.borrows
    ensures Activate(s, b, a, active).0 ==
            Moved(Released(Relocated(s, ActiveLinks(s.links, b), s.borrows[b].borrower), b), b, ActivateAction, OnLoan)
  {
    hide Moved, Released, Relocated, ActiveLinks, AvailableAtLender, ValidClaims, MayHandOver;
  }

  lemma ReturnEffects(s: Ledger, b: BorrowId, a: Actor, active: bool)
    requires Inv(s) && Return(s, b, a, active).1 == Done
    ensures var t := Return(s, b, a, active).0;
            && t == s.(borrows := t.borrows, audit := t.audit, covers := t.covers, shortfalls := t.shortfalls)
            && LoanMoves(s, t, b, ReturnAction, Returned) && b in s.borrows && CoversAt(s, t, b, s.borrows[b].lender)
            && Only(s.shortfalls, t.shortfalls, {b})
  {
    hide *;
    AuditThere(s, b);
    ReturnFacts(s, b, a, active);
    var loan := s.borrows[b];
    var home := Relocated(s, LinkedCovers(s.links, b), loan.lender);
    var m := RecordShortfall(home, b, loan.borrower);
    RelocatedBy(s, b, LinkedCovers(s.links, b), loan.lender);
    ReportedBy(home, b, loan.borrower);
    MovedBy(s, m, b, ReturnAction, Returned);
    SamePlaces(s, home, Moved(m, b, ReturnAction, Returned), b, loan.lender);
  }

  lemma ReportedBy(s: Ledger, b: BorrowId, o: OfficeId)
    ensures RecordShortfall(s, b, o) == s.(shortfalls := RecordShortfall(s, b, o).shortfalls)
    ensures Only(s.shortfalls, RecordShortfall(s, b, o).shortfalls, {b})
  {
    hide PlannedCount, InStockCount;
  }

  lemma RequestEffects(s: Ledger, b: BorrowId, a: Actor, env: Lookups, r: Request, chosen: set<CoverId>)
    requires Inv(s) && CreateBorrow(s, b, a, env, r, chosen).1 == Done
    ensures RequestWrites(s, b, a, r, chosen, CreateBorrow(s, b, a, env, r, chosen).0)
  {
    assert s.audit.Keys == s.borrows.Keys by { AuditOf(s); }
    hide *;
    RequestFacts(s, b, a, env, r, chosen);
    var t := CreateBorrow(s, b, a, env, r, chosen).0;
    assert [] + [AuditEvent(CreateAction, None, Requested)] == [AuditEvent(CreateAction, None, Requested)];
    OneWritten(s.borrows, b, t.borrows[b]);
    OneWritten(s.audit, b, t.audit[b]);
    LinksJoin(s, b, chosen, t);
    RequestWritesAre(s, b, a, r, chosen, t);
  }

  lemma OneWritten<K(!new), V(!new)>(x: map<K, V>, k: K, v: V)
    ensures Only(x, x[k := v], {k})
  {
  }

  lemma LinksJoin(s: Ledger, b: BorrowId, chosen: set<CoverId>, t: Ledger)
    requires t.links == s.links + NewLinks(b, chosen) && forall k :: k in s.links ==> k.0 != b
    ensures LinksAdded(s, t, b, chosen)
  {
  }

  lemma RequestWritesAre(s: Ledger, b: BorrowId, a: Actor, r: Request, chosen: set<CoverId>, t: Ledger)
    requires t == s.(borrows := t.borrows, links := t.links, audit := t.audit) && a.office.Some? && r.qty >= 0
    requires Only(s.borrows, t.borrows, {b}) && b in t.borrows
    requires t.borrows[b] == Borrow(a.office.value, r.lender, Requested, r.qty, r.returnDate, a.id)
    requires LinksAdded(s, t, b, chosen)
    requires Only(s.audit, t.audit, {b}) && b in t.audit && t.audit[b] == [AuditEvent(CreateAction, None, Requested)]
    ensures RequestWrites(s, b, a, r, chosen, t)
  {
    hide Only, LinksAdded;
  }

  lemma DueEffects(s: Ledger, due: set<BorrowId>, now: int)
    requires MarkOverdue(s, due, now).1 == Done
    ensures MarkedExactly(s, MarkOverdue(s, due, now).0, due)
  {
  }

  lemma RegisterEffects(s: Ledger, office: OfficeId, items: seq<Item>)
    requires RegisterBatch(s, office, items).1 == Done
    ensures BatchWrites(s, office, items, RegisterBatch(s, office, items).0)
  {
    hide *;
    RegisteredIs(s, office, items);
    forall i | 0 <= i < |items|
      ensures items[i].id in NewCovers(office, items)
      ensures NewCovers(office, items)[items[i].id] ==
              Cover(InStock, office, office, items[i].assetCode, LabelOf(office, items[i]), items[i].nfcId)
    {
      NewRowIs(office, items, i);
    }
    NewIds(office, items);
    BatchWritten(s, office, items, NewCovers(office, items));
  }

  lemma BatchWritten(s: Ledger, office: OfficeId, items: seq<Item>, more: Covers)
    requires forall i :: 0 <= i < |items| ==> items[i].id in more && items[i].id !in s.covers
    requires forall i :: 0 <= i < |items| ==>
               more[items[i].id] == Cover(InStock, office, office, items[i].assetCode, LabelOf(office, items[i]), items[i].nfcId)
    requires forall c :: c in more ==> exists i :: 0 <= i < |items| && items[i].id == c
    ensures BatchWrites(s, office, items, s.(covers := s.covers + more))
  {
    hide LabelOf;
  }

  lemma NewRowIs(office: OfficeId, items: seq<Item>, i: nat)
    requires i < |items| && forall j, k :: 0 <= j < k < |items| ==> items[j].id != items[k].id
    ensures items[i].id in NewCovers(office, items)
    ensures NewCovers(office, items)[items[i].id] ==
            Cover(InStock, office, office, items[i].assetCode, LabelOf(office, items[i]), items[i].nfcId)
  {
    ItemIs(items, i);
    PreparedIs(office, items[i]);
    hide ItemOf, LabelOf, Prepared, ItemIds;
  }

  lemma RegisteredIs(s: Ledger, office: OfficeId, items: seq<Item>)
    requires RegisterBatch(s, office, items).1 == Done
    ensures RegisterBatch(s, office, items).0 == s.(covers := s.covers + NewCovers(office, items))
    ensures forall i, j :: 0 <= i < j < |items| ==> items[i].id != items[j].id
    ensures forall i :: 0 <= i < |items| ==> items[i].id !in s.covers
  {
    hide BatchRefusal, NewCovers, CodesFree;
  }

  lemma NewIds(office: OfficeId, items: seq<Item>)
    ensures forall c :: c in NewCovers(office, items) ==> exists i :: 0 <= i < |items| && items[i].id == c
  {
    hide ItemOf, Prepared;
  }

  lemma ItemIs(items: seq<Item>, i: nat)
    requires i < |items| && forall j, k :: 0 <= j < k < |items| ==> items[j].id != items[k].id
    ensures items[i].id in ItemIds(items) && ItemOf(items, items[i].id) == items[i]
  {
    var r := ItemOf(items, items[i].id);
    var j :| 0 <= j < |items| && items[j] == r;
    assert i == j;
  }

  lemma RetireEffects(s: Ledger, c: CoverId)
    requires Retire(s, c).1 == Done
    ensures var t := Retire(s, c).0;
            && t == s.(covers := t.covers) && c in s.covers && Only(s.covers, t.covers, {c}) && c in t.covers
            && t.covers[c] == s.covers[c].(status := Retired)
  {
    hide Free, OpenOn, ReservedOn;
  }

  lemma LoanEffects(s: Ledger, op: Op)
    requires Inv(s) && !OnOrder(op) && Step(s, op).1 == Done
    ensures LoanEffect(s, op, Step(s, op).0)
  {
    hide Inv, CreateBorrow, Approve, Reject, CancelBorrow, Activate, Return, MarkOverdue, RegisterBatch, Retire;
    hide LoanMoves, LinksReleased, CoversAt, MarkedExactly, Only, RequestWrites, BatchWrites;
    match op
    case RequestLoan(b, a, env, r, chosen) => RequestEffects(s, b, a, env, r, chosen);
    case ApproveLoan(b, a, active) => AnswerEffects(s, b, a, active);
    case RejectLoan(b, a, active) => AnswerEffects(s, b, a, active);
    case CancelLoan(b, a, active) => AnswerEffects(s, b, a, active);
    case ActivateLoan(b, a, active) => ActivateEffects(s, b, a, active);
    case ReturnLoan(b, a, active) => ReturnEffects(s, b, a, active);
    case LoansFallDue(due, now) => DueEffects(s, due, now);
    case Register(office, items) => RegisterEffects(s, office, items);
    case RetireCover(c) => RetireEffects(s, c);
    case _ =>
  }

  // ----- every transaction -----

  ghost predicate Effect(s: Ledger, op: Op, t: Ledger)
  {
    if OnOrder(op) then WorkEffect(s, op, t) else LoanEffect(s, op, t)
  }

  /** Every accepted transaction leaves exactly the rows it is said to leave. */
  lemma EffectsAreExact(s: Ledger, op: Op)
    requires Inv(s) && Step(s, op).1 == Done
    ensures Effect(s, op, Step(s, op).0)
  {
    hide Step, Inv, WorkEffect, LoanEffect, OnOrder;
    if OnOrder(op) {
      WorkEffects(s, op);
    } else {
      LoanEffects(s, op);
    }
  }

  /** A blocked return marks the loan, if it is not marked yet, and writes nothing else. */
  lemma BlockedWrites(s: Ledger, op: Op)
    requires Inv(s) && Step(s, op).1 == Blocked
    ensures op.ReturnLoan? && op.loan in s.borrows
    ensures var t := Step(s, op).0;
            if s.borrows[op.loan].status == OnLoan
            then t == s.(borrows := t.borrows, audit := t.audit) && LoanMoves(s, t, op.loan, OverdueAction, Overdue)
            else t == s && s.borrows[op.loan].status == Overdue
  {
    BlockedIsReturn(s, op);
    ReturnStep(s, op);
    hide *;
    AuditThere(s, op.loan);
    BlockedFacts(s, op.loan, op.actor, op.active);
    MovedBy(s, s, op.loan, OverdueAction, Overdue);
    MarkedIs(s, op.loan);
  }

  lemma MarkedIs(s: Ledger, b: BorrowId)
    requires b in s.borrows && Outstanding(s.borrows[b])
    ensures MarkedLate(s, b) == if s.borrows[b].status == OnLoan then Moved(s, b, OverdueAction, Overdue) else s
    ensures s.borrows[b].status in {OnLoan, Overdue}
  {
    hide Moved;
  }

  // ----- the overdue job -----

  /** The job, run at `now` on any database: a loan ends OVERDUE exactly when it was, or was
      ON_LOAN with a return date before `now`; exactly the latter gain one event, and nothing
      else changes. */
  lemma OverdueExactly(s: Ledger, now: int)
    ensures var (t, v) := MarkOverdue(s, DueBorrows(s, now), now);
            && v == Done && t == s.(borrows := t.borrows, audit := t.audit) && t.borrows.Keys == s.borrows.Keys
            && (forall b :: b in s.borrows ==>
                  && t.borrows[b] == s.borrows[b].(status := t.borrows[b].status)
                  && (t.borrows[b].status == Overdue <==>
                      s.borrows[b].status == Overdue || (s.borrows[b].status == OnLoan && s.borrows[b].returnDate < now))
                  && (t.borrows[b].status != Overdue ==> t.borrows[b].status == s.borrows[b].status))
            && (forall b ::
                  (if b in t.audit then t.audit[b] else []) == (if b in s.audit then s.audit[b] else []) +
                  if b in s.borrows && s.borrows[b].status == OnLoan && s.borrows[b].returnDate < now
                  then [AuditEvent(OverdueAction, Some(OnLoan), Overdue)] else [])
  {
    var due := DueBorrows(s, now);
    DueRule(s, due, now);
    DueEffects(s, due, now);
    hide MarkOverdue;
    forall b ensures b in due <==> b in s.borrows && s.borrows[b].status == OnLoan && s.borrows[b].returnDate < now {}
    hide DueBorrows;
  }
}
