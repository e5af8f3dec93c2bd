/** What each transaction locks, and the promise that it disturbs nothing else. */
module Footprints {
  import opened Collections
  import opened Stock
  import opened WorkOrders
  import opened Borrows
  import opened Transactions
  import opened Invariants
  import opened InvariantSteps

  /** Rows a transaction locks or inserts; inserting a key waits on the unique index like a lock. */
  datatype Row = OrderRow(order: OrderId) | BorrowRow(loan: BorrowId) | CodeRow(code: Code)

  datatype Footprint = Footprint(rows: set<Row>, offices: set<OfficeId>, covers: set<CoverId>)

  function OfficeOf(s: Ledger, w: OrderId): set<OfficeId>
  {
    if w in s.orders then {s.orders[w].office} else {}
  }

  function LenderOf(s: Ledger, b: BorrowId): set<OfficeId>
  {
    if b in s.borrows then {s.borrows[b].lender} else {}
  }

  function BorrowerOf(s: Ledger, b: BorrowId): set<OfficeId>
  {
    if b in s.borrows then {s.borrows[b].borrower} else {}
  }

  function OwnerOf(s: Ledger, c: CoverId): set<OfficeId>
  {
    if c in s.covers then {s.covers[c].owner} else {}
  }

  function Codes(office: OfficeId, items: seq<Item>): set<Row>
  {
    set i, k | 0 <= i < |items| && k in CodesOf(Prepared(office, items[i])) :: CodeRow(k)
  }

  function Loans(due: set<BorrowId>): set<Row>
  {
    set b | b in due :: BorrowRow(b)
  }

  function Locks(s: Ledger, op: Op): Footprint
  {
    match op
    case OpenOrder(id, office, plan, assignee, ok) => Footprint({OrderRow(id)}, {office}, {})
    case EditOrder(w, patch, ok) => Footprint({OrderRow(w)}, OfficeOf(s, w), {})
    case AssignOrder(w, technician, ok) => Footprint({OrderRow(w)}, {}, {})
    case Scan(a, w, c) => Footprint({OrderRow(w)}, OfficeOf(s, w), {c})
    case Unscan(a, w, c) => Footprint({OrderRow(w)}, {}, {})
    case Submit(a, w) => Footprint({OrderRow(w)}, OfficeOf(s, w), InstalledCovers(s.installs, w))
    case BeginRemoval(a, w) => Footprint({OrderRow(w)}, {}, {})
    case RemoveCover(a, w, c) => Footprint({OrderRow(w)}, {}, {c})
    case Complete(a, w) => Footprint({OrderRow(w)}, {}, {})
    case CancelWork(w) => Footprint({OrderRow(w)}, OfficeOf(s, w), {})
    case Attach(a, kind, w, c, key, early, storage) => Footprint({OrderRow(w)}, {}, {})
    case RemovalFallsDue(w, now) => Footprint({OrderRow(w)}, {}, {})
    case RequestLoan(b, a, env, r, chosen) => Footprint({BorrowRow(b)}, {r.lender}, chosen)
    case ApproveLoan(b, a, active) => Footprint({BorrowRow(b)}, {}, {})
    case RejectLoan(b, a, active) => Footprint({BorrowRow(b)}, LenderOf(s, b), {})
    case CancelLoan(b, a, active) => Footprint({BorrowRow(b)}, LenderOf(s, b), {})
    case ActivateLoan(b, a, active) => Footprint({BorrowRow(b)}, LenderOf(s, b), ActiveLinks(s.links, b))
    case ReturnLoan(b, a, active) => Footprint({BorrowRow(b)}, BorrowerOf(s, b), LinkedCovers(s.links, b))
    case LoansFallDue(due, now) => Footprint(Loans(due), {}, {})
    case Register(office, items) => Footprint(Codes(office, items), {}, ItemIds(items))
    case RetireCover(c) => Footprint({}, OwnerOf(s, c), {c})
  }

  // ----- the promise -----

  ghost predicate OrdersKept(x: Orders, y: Orders, rows: set<Row>)
  {
    && (forall w :: w in x ==> w in y && y[w].office == x[w].office)
    && (forall w :: OrderRow(w) !in rows && w in y ==> w in x && y[w] == x[w])
  }

  ghost predicate InstallsKept(x: Installs, y: Installs, rows: set<Row>, covers: set<CoverId>)
  {
    && (forall k: (OrderId, CoverId) :: OrderRow(k.0) !in rows && k in x ==> k in y && y[k] == x[k])
    && (forall k: (OrderId, CoverId) :: OrderRow(k.0) !in rows && k in y ==> k in x)
    && (forall k :: k in y && Open(y[k]) && k.1 !in covers ==> k in x && Open(x[k]) && (Live(y[k]) ==> Live(x[k])))
  }

  ghost predicate BorrowsKept(x: Borrowings, y: Borrowings, rows: set<Row>)
  {
    && (forall b :: b in x ==> b in y && y[b].(status := x[b].status) == x[b])
    && (forall b :: BorrowRow(b) !in rows && b in y ==> b in x && y[b] == x[b])
  }

  ghost predicate LinksKept(x: Links, y: Links, rows: set<Row>, covers: set<CoverId>)
  {
    && (forall k: (BorrowId, CoverId) :: BorrowRow(k.0) !in rows && k in x ==> k in y && y[k] == x[k])
    && (forall k: (BorrowId, CoverId) :: BorrowRow(k.0) !in rows && k in y ==> k in x)
    && (forall k :: k in y && !y[k] && k.1 !in covers ==> k in x && !x[k])
  }

  ghost predicate CoversKept(x: Covers, y: Covers, rows: set<Row>, covers: set<CoverId>)
  {
    && (forall c :: c in x ==> c in y && y[c].owner == x[c].owner && CodesOf(y[c]) == CodesOf(x[c]))
    && (forall c :: c in y && c !in covers ==> c in x && y[c] == x[c])
    && (forall c, k :: c in y && c !in x && k in CodesOf(y[c]) ==> CodeRow(k) in rows)
  }

  /** At offices whose planning lock is not held, stock only grows and promises only shrink. */
  ghost predicate StockKept(s: Ledger, t: Ledger, offices: set<OfficeId>)
  {
    && (forall o :: o !in offices ==> InStockSet(s.covers, o) <= InStockSet(t.covers, o))
    && (forall o :: o !in offices ==> OwnedSet(s.covers, o) <= OwnedSet(t.covers, o))
    && (forall o :: o !in offices ==> EligibleSet(s, o) <= EligibleSet(t, o))
    && (forall o, x :: o !in offices ==> SlotSet(t.orders, o, x) <= SlotSet(s.orders, o, x))
    && (forall o :: o !in offices ==> ReservationSet(t.borrows, t.links, o) <= ReservationSet(s.borrows, s.links, o))
  }

  ghost predicate Kept(s: Ledger, t: Ledger, f: Footprint)
  {
    && OrdersKept(s.orders, t.orders, f.rows)
    && InstallsKept(s.installs, t.installs, f.rows, f.covers)
    && BorrowsKept(s.borrows, t.borrows, f.rows)
    && LinksKept(s.links, t.links, f.rows, f.covers)
    && CoversKept(s.covers, t.covers, f.rows, f.covers)
    && StockKept(s, t, f.offices)
  }

  // ----- every transaction keeps the promise -----

  lemma OrderKept(s: Ledger, t: Ledger, w: OrderId, offices: set<OfficeId>)
    requires t == s.(orders := t.orders) && w in t.orders && t.orders == s.orders[w := t.orders[w]]
    requires w in s.orders ==> t.orders[w].office == s.orders[w].office
    requires t.orders[w].office !in offices && t.orders[w].status == Scheduled ==>
               w in s.orders && s.orders[w].status == Scheduled && s.orders[w].planned == t.orders[w].planned
    ensures Kept(s, t, Footprint({OrderRow(w)}, offices, {}))
  {
  }

  lemma ScanKept(s: Ledger, t: Ledger, w: OrderId, c: CoverId)
    requires w in s.orders && InStockAt(s.covers, s.orders[w].office, c)
    requires t == s.(installs := s.installs[(w, c) := DRAFT])
    ensures Kept(s, t, Footprint({OrderRow(w)}, {s.orders[w].office}, {c}))
  {
  }

  lemma DropKept(s: Ledger, t: Ledger, w: OrderId)
    requires t == s.(installs := t.installs)
    requires forall k :: k in t.installs ==> k in s.installs && t.installs[k] == s.installs[k]
    requires forall k :: k in s.installs && k.0 != w ==> k in t.installs
    ensures Kept(s, t, Footprint({OrderRow(w)}, {}, {}))
  {
  }

  lemma AttachKept(s: Ledger, t: Ledger, k: (OrderId, CoverId), i: Installation)
    requires k in s.installs && i.installed == s.installs[k].installed && i.removed == s.installs[k].removed
    requires t == s.(installs := s.installs[k := i])
    ensures Kept(s, t, Footprint({OrderRow(k.0)}, {}, {}))
  {
  }

  lemma CancelKept(s: Ledger, t: Ledger, w: OrderId)
    requires w in s.orders
    requires t == s.(installs := t.installs, orders := s.orders[w := s.orders[w].(status := OrderStatus.Cancelled)])
    requires forall k :: k in t.installs ==> k in s.installs && t.installs[k] == s.installs[k]
    requires forall k :: k in s.installs && k.0 != w ==> k in t.installs
    ensures Kept(s, t, Footprint({OrderRow(w)}, {s.orders[w].office}, {}))
  {
  }

  lemma SubmitElsewhere(s: Ledger, w: OrderId, o: OfficeId)
    requires w in s.orders && o != s.orders[w].office
    requires forall c :: c in InstalledCovers(s.installs, w) ==> InStockAt(s.covers, s.orders[w].office, c)
    ensures InStockSet(s.covers, o) == InStockSet(SubmittedCovers(s, w), o)
    ensures OwnedSet(s.covers, o) == OwnedSet(SubmittedCovers(s, w), o)
  {
    forall c | c in s.covers && s.covers[c].current == o ensures SubmittedCovers(s, w)[c] == s.covers[c] {
      assert (w, c) in s.installs ==> c in InstalledCovers(s.installs, w);
    }
  }

  lemma SubmitStockKept(s: Ledger, t: Ledger, w: OrderId)
    requires w in s.orders && s.orders[w].status == Scheduled
    requires forall c :: c in InstalledCovers(s.installs, w) ==> InStockAt(s.covers, s.orders[w].office, c)
    requires t == s.(covers := SubmittedCovers(s, w), installs := SubmittedInstalls(s, w),
                     orders := s.orders[w := s.orders[w].(status := Active)])
    ensures StockKept(s, t, {s.orders[w].office})
  {
    hide SubmittedCovers;
    forall c ensures OpenOn(t.installs, c) == OpenOn(s.installs, c) {
      assert forall k :: k in s.installs ==> Open(t.installs[k]) == Open(s.installs[k]);
    }
    hide OpenOn, ReservedOn, SubmittedInstalls;
    forall o | o != s.orders[w].office
      ensures InStockSet(s.covers, o) <= InStockSet(t.covers, o) && OwnedSet(s.covers, o) <= OwnedSet(t.covers, o)
      ensures EligibleSet(s, o) <= EligibleSet(t, o)
    {
      SubmitElsewhere(s, w, o);
      forall c | c in EligibleSet(s, o) ensures c in EligibleSet(t, o) {
        assert c in OwnedSet(s.covers, o) && c in OwnedSet(t.covers, o);
      }
    }
  }

  lemma SubmitInstallsKept(s: Ledger, w: OrderId)
    ensures InstallsKept(s.installs, SubmittedInstalls(s, w), {OrderRow(w)}, InstalledCovers(s.installs, w))
  {
    forall k | k in s.installs && k.0 == w ensures k.1 in InstalledCovers(s.installs, w) { assert k == (w, k.1); }
    hide InstalledCovers;
  }

  lemma SubmitCoversKept(s: Ledger, w: OrderId)
    ensures CoversKept(s.covers, SubmittedCovers(s, w), {OrderRow(w)}, InstalledCovers(s.installs, w))
  {
    assert forall c :: c in s.covers ==> CodesOf(s.covers[c]) == CodesOf(s.covers[c].(status := Installed));
    hide InstalledCovers, CodesOf;
  }

  lemma RowKept(orders: Orders, w: OrderId, status: OrderStatus)
    requires w in orders
    ensures OrdersKept(orders, orders[w := orders[w].(status := status)], {OrderRow(w)})
  {
  }

  lemma LoansAlone(s: Ledger, f: Footprint)
    ensures BorrowsKept(s.borrows, s.borrows, f.rows) && LinksKept(s.links, s.links, f.rows, f.covers)
  {
  }

  lemma WorkAlone(s: Ledger, f: Footprint)
    ensures OrdersKept(s.orders, s.orders, f.rows) && InstallsKept(s.installs, s.installs, f.rows, f.covers)
  {
  }

  lemma KeptWhole(s: Ledger, t: Ledger, f: Footprint)
    requires OrdersKept(s.orders, t.orders, f.rows) && InstallsKept(s.installs, t.installs, f.rows, f.covers)
    requires BorrowsKept(s.borrows, t.borrows, f.rows) && LinksKept(s.links, t.links, f.rows, f.covers)
    requires CoversKept(s.covers, t.covers, f.rows, f.covers) && StockKept(s, t, f.offices)
    ensures Kept(s, t, f)
  {
  }

  lemma SubmitKept(s: Ledger, w: OrderId)
    requires w in s.orders && s.orders[w].status == Scheduled
    requires forall c :: c in InstalledCovers(s.installs, w) ==> InStockAt(s.covers, s.orders[w].office, c)
    ensures Kept(s, s.(covers := SubmittedCovers(s, w), installs := SubmittedInstalls(s, w),
                       orders := s.orders[w := s.orders[w].(status := Active)]),
                 Footprint({OrderRow(w)}, {s.orders[w].office}, InstalledCovers(s.installs, w)))
  {
    hide *;
    var t := s.(covers := SubmittedCovers(s, w), installs := SubmittedInstalls(s, w),
                orders := s.orders[w := s.orders[w].(status := Active)]);
    var f := Footprint({OrderRow(w)}, {s.orders[w].office}, InstalledCovers(s.installs, w));
    SubmitInstallsKept(s, w);
    SubmitCoversKept(s, w);
    SubmitStockKept(s, t, w);
    RowKept(s.orders, w, Active);
    LoansAlone(s, f);
    KeptWhole(s, t, f);
  }

  lemma RemoveKept(s: Ledger, w: OrderId, c: CoverId)
    requires c in s.covers && s.covers[c].status == Installed && (w, c) in s.installs && Live(s.installs[(w, c)])
    ensures Kept(s, s.(installs := s.installs[(w, c) := s.installs[(w, c)].(removed := true)],
                       covers := s.covers[c := s.covers[c].(status := InStock)]),
                 Footprint({OrderRow(w)}, {}, {c}))
  {
  }

  lemma RequestStockKept(s: Ledger, t: Ledger, id: BorrowId, row: Borrow, chosen: set<CoverId>)
    requires id !in s.borrows
    requires t == s.(borrows := s.borrows[id := row], links := s.links + NewLinks(id, chosen), audit := t.audit)
    requires forall k :: k in s.links ==> k.0 != id
    requires forall c :: c in chosen ==> OwnedAt(s.covers, row.lender, c)
    ensures StockKept(s, t, {row.lender})
  {
    hide OpenOn;
    forall o, c | o != row.lender && c in EligibleSet(s, o) ensures !ReservedOn(t.links, c) {}
    hide ReservedOn;
  }

  lemma RequestKept(s: Ledger, t: Ledger, id: BorrowId, row: Borrow, chosen: set<CoverId>)
    requires id !in s.borrows
    requires t == s.(borrows := s.borrows[id := row], links := s.links + NewLinks(id, chosen), audit := t.audit)
    requires forall k :: k in s.links ==> k.0 != id
    requires forall c :: c in chosen ==> OwnedAt(s.covers, row.lender, c)
    ensures Kept(s, t, Footprint({BorrowRow(id)}, {row.lender}, chosen))
  {
    hide StockKept;
    RequestStockKept(s, t, id, row, chosen);
  }

  lemma StatusKept(s: Ledger, t: Ledger, rows: set<Row>)
    requires t == s.(borrows := t.borrows, audit := t.audit) && t.borrows.Keys == s.borrows.Keys
    requires forall b :: b in s.borrows ==> t.borrows[b].(status := s.borrows[b].status) == s.borrows[b]
    requires forall b :: b in s.borrows && BorrowRow(b) !in rows ==> t.borrows[b] == s.borrows[b]
    ensures Kept(s, t, Footprint(rows, {}, {}))
  {
  }

  lemma ReleaseKept(s: Ledger, t: Ledger, b: BorrowId)
    requires b in s.borrows && b in t.borrows
    requires t == s.(borrows := s.borrows[b := s.borrows[b].(status := t.borrows[b].status)],
          links := ReleasedLinks(s, b), audit := t.audit)
    ensures Kept(s, t, Footprint({BorrowRow(b)}, {s.borrows[b].lender}, {}))
  {
    forall c | ReservedOn(t.links, c) ensures ReservedOn(s.links, c) {}
  }

  lemma ActivateStockKept(s: Ledger, t: Ledger, b: BorrowId, cs: set<CoverId>)
    requires b in s.borrows && b in t.borrows
    requires forall c :: c in cs ==> OwnedAt(s.covers, s.borrows[b].lender, c)
    requires t == Relocated(s, cs, s.borrows[b].borrower).(borrows := s.borrows[b := s.borrows[b].(status := t.borrows[b].status)], links := ReleasedLinks(s, b), audit := t.audit)
    ensures StockKept(s, t, {s.borrows[b].lender})
  {
    forall c | ReservedOn(t.links, c) ensures ReservedOn(s.links, c) {}
    forall o, c | o != s.borrows[b].lender && InStockAt(s.covers, o, c) ensures t.covers[c] == s.covers[c] {}
  }

  lemma ActivateKept(s: Ledger, t: Ledger, b: BorrowId, cs: set<CoverId>)
    requires b in s.borrows && b in t.borrows
    requires forall c :: c in cs ==> OwnedAt(s.covers, s.borrows[b].lender, c)
    requires t == Relocated(s, cs, s.borrows[b].borrower).(borrows := s.borrows[b := s.borrows[b].(status := t.borrows[b].status)], links := ReleasedLinks(s, b), audit := t.audit)
    ensures Kept(s, t, Footprint({BorrowRow(b)}, {s.borrows[b].lender}, cs))
  {
    hide StockKept;
    ActivateStockKept(s, t, b, cs);
  }

  lemma ReturnStockKept(s: Ledger, t: Ledger, b: BorrowId, cs: set<CoverId>)
    requires b in s.borrows && b in t.borrows
    requires forall c :: c in cs ==> Returnable(s, s.borrows[b], c)
    requires t == Relocated(s, cs, s.borrows[b].lender).(borrows := s.borrows[b := s.borrows[b].(status := t.borrows[b].status)], audit := t.audit, shortfalls := t.shortfalls)
    ensures StockKept(s, t, {s.borrows[b].borrower})
  {
    hide OpenOn, ReservedOn;
    forall o, c | o != s.borrows[b].borrower && InStockAt(s.covers, o, c)
      ensures InStockAt(t.covers, o, c) && t.covers[c] == s.covers[c] {}
  }

  lemma ReturnKept(s: Ledger, t: Ledger, b: BorrowId, cs: set<CoverId>)
    requires b in s.borrows && b in t.borrows
    requires forall c :: c in cs ==> Returnable(s, s.borrows[b], c)
    requires t == Relocated(s, cs, s.borrows[b].lender).(borrows := s.borrows[b := s.borrows[b].(status := t.borrows[b].status)], audit := t.audit, shortfalls := t.shortfalls)
    ensures Kept(s, t, Footprint({BorrowRow(b)}, {s.borrows[b].borrower}, cs))
  {
    hide StockKept;
    ReturnStockKept(s, t, b, cs);
  }

  /** The rows a batch inserts have listed ids and listed codes. */
  lemma BatchRows(s: Ledger, office: OfficeId, items: seq<Item>)
    requires Storable(s, office, items)
    ensures forall c :: c in NewCovers(office, items) ==> c !in s.covers && c in ItemIds(items)
    ensures forall c, k :: c in NewCovers(office, items) && k in CodesOf(NewCovers(office, items)[c]) ==> CodeRow(k) in Codes(office, items)
  {
    forall c, k | c in NewCovers(office, items) && k in CodesOf(NewCovers(office, items)[c])
      ensures CodeRow(k) in Codes(office, items)
    {
      var i :| 0 <= i < |items| && items[i] == ItemOf(items, c);
    }
  }

  lemma ArrivalStockKept(s: Ledger, more: Covers)
    requires forall c :: c in more ==> c !in s.covers
    ensures StockKept(s, s.(covers := s.covers + more), {})
  {
    hide OpenOn, ReservedOn;
  }

  lemma ArrivalCoversKept(s: Ledger, more: Covers, rows: set<Row>, ids: set<CoverId>)
    requires forall c :: c in more ==> c !in s.covers && c in ids
    requires forall c, k :: c in more && k in CodesOf(more[c]) ==> CodeRow(k) in rows
    ensures CoversKept(s.covers, s.covers + more, rows, ids)
  {
    hide CodesOf;
  }

  /** Covers that arrive disturb nothing but their own ids and codes. */
  lemma ArrivalKept(s: Ledger, more: Covers, rows: set<Row>, ids: set<CoverId>)
    requires forall c :: c in more ==> c !in s.covers && c in ids
    requires forall c, k :: c in more && k in CodesOf(more[c]) ==> CodeRow(k) in rows
    ensures Kept(s, s.(covers := s.covers + more), Footprint(rows, {}, ids))
  {
    hide *;
    var f := Footprint(rows, {}, ids);
    ArrivalStockKept(s, more);
    ArrivalCoversKept(s, more, rows, ids);
    LoansAlone(s, f);
    WorkAlone(s, f);
    KeptWhole(s, s.(covers := s.covers + more), f);
  }

  lemma RegisterKept(s: Ledger, office: OfficeId, items: seq<Item>)
    requires Storable(s, office, items)
    ensures Kept(s, s.(covers := s.covers + NewCovers(office, items)), Footprint(Codes(office, items), {}, ItemIds(items)))
  {
    hide *;
    BatchRows(s, office, items);
    ArrivalKept(s, NewCovers(office, items), Codes(office, items), ItemIds(items));
  }

  lemma RetireKept(s: Ledger, c: CoverId)
    requires c in s.covers && s.covers[c].status == InStock && s.covers[c].current == s.covers[c].owner
    ensures Kept(s, s.(covers := s.covers[c := s.covers[c].(status := Retired)]), Footprint({}, {s.covers[c].owner}, {c}))
  {
  }

  lemma SameKept(s: Ledger, f: Footprint)
    ensures Kept(s, s, f)
  {
  }

  /** Larger footprints promise less. */
  lemma MoreKept(s: Ledger, t: Ledger, f: Footprint, g: Footprint)
    requires Kept(s, t, f) && f.rows <= g.rows && f.offices <= g.offices && f.covers <= g.covers
    ensures Kept(s, t, g)
  {
  }

  /** Orders: a transaction disturbs only what it locks. */
  lemma WorkKept(s: Ledger, op: Op)
    requires op.OpenOrder? || op.EditOrder? || op.AssignOrder? || op.Scan? || op.Unscan? || op.Submit?
    ensures Kept(s, Step(s, op).0, Locks(s, op))
  {
    hide Kept, StartRemoval, ScanRemove, CompleteRemoval, CancelOrder, AttachEvidence, MarkRemovalDue;
    hide Approve, Reject, CancelBorrow, MarkOverdue, CreateBorrow, Activate, Return, RegisterBatch, Retire;
    var t := Step(s, op).0;
    if t == s {
      SameKept(s, Locks(s, op));
    } else {
      match op
      case OpenOrder(id, office, plan, assignee, ok) => OrderKept(s, t, id, {office});
      case EditOrder(w, patch, ok) => OrderKept(s, t, w, {s.orders[w].office});
      case AssignOrder(w, technician, ok) => OrderKept(s, t, w, {});
      case Scan(a, w, c) => ScanKept(s, t, w, c);
      case Unscan(a, w, c) => DropKept(s, t, w);
      case Submit(a, w) => SubmitKept(s, w);
      case _ =>
    }
  }

  lemma FieldKept(s: Ledger, op: Op)
    requires op.BeginRemoval? || op.RemoveCover? || op.Complete? || op.CancelWork? || op.Attach? || op.RemovalFallsDue?
    ensures Kept(s, Step(s, op).0, Locks(s, op))
  {
    hide Kept, CreateOrder, UpdateScheduled, Assign, ScanInstall, UnscanInstall, SubmitInstall, MayWorkOn;
    hide Approve, Reject, CancelBorrow, MarkOverdue, CreateBorrow, Activate, Return, RegisterBatch, Retire;
    hide InstallationRows, RemovalRefusal, ListsInstallations;
    var t := Step(s, op).0;
    if t == s {
      SameKept(s, Locks(s, op));
    } else {
      match op
      case BeginRemoval(a, w) => OrderKept(s, t, w, {});
      case RemoveCover(a, w, c) => RemoveKept(s, w, c);
      case Complete(a, w) => OrderKept(s, t, w, {});
      case CancelWork(w) => CancelKept(s, t, w);
      case Attach(a, kind, w, c, key, early, storage) => AttachKept(s, t, (w, c), t.installs[(w, c)]);
      case RemovalFallsDue(w, now) => OrderKept(s, t, w, {});
      case _ =>
    }
  }

  lemma RequestLoanKept(s: Ledger, b: BorrowId, a: Actor, env: Lookups, r: Request, chosen: set<CoverId>)
    ensures Kept(s, CreateBorrow(s, b, a, env, r, chosen).0, Footprint({BorrowRow(b)}, {r.lender}, chosen))
  {
    hide Kept;
    var t := CreateBorrow(s, b, a, env, r, chosen).0;
    if CreateBorrow(s, b, a, env, r, chosen).1 == Done {
      RequestKept(s, t, b, t.borrows[b], chosen);
    } else {
      SameKept(s, Footprint({BorrowRow(b)}, {r.lender}, chosen));
    }
  }

  lemma ApproveKept(s: Ledger, b: BorrowId, a: Actor, active: bool)
    requires Approve(s, b, a, active).1 == Done
    ensures Kept(s, Approve(s, b, a, active).0, Footprint({BorrowRow(b)}, {}, {}))
  {
    hide Kept, Log;
    StatusKept(s, Approve(s, b, a, active).0, {BorrowRow(b)});
  }

  lemma WithdrawKept(s: Ledger, b: BorrowId, action: BorrowAction, to: BorrowStatus)
    requires b in s.borrows
    ensures Kept(s, Moved(Released(s, b), b, action, to), Footprint({BorrowRow(b)}, LenderOf(s, b), {}))
  {
    hide Kept, Log, ReleasedLinks;
    ReleaseKept(s, Moved(Released(s, b), b, action, to), b);
  }

  lemma DueKept(s: Ledger, due: set<BorrowId>, now: int)
    requires MarkOverdue(s, due, now).1 == Done
    ensures Kept(s, MarkOverdue(s, due, now).0, Footprint(Loans(due), {}, {}))
  {
    hide Kept, Log;
    StatusKept(s, MarkOverdue(s, due, now).0, Loans(due));
  }

  lemma LoanKept(s: Ledger, op: Op)
    requires op.ApproveLoan? || op.RejectLoan? || op.CancelLoan? || op.LoansFallDue?
    ensures Kept(s, Step(s, op).0, Locks(s, op))
  {
    hide Kept, CreateOrder, UpdateScheduled, Assign, ScanInstall, UnscanInstall, SubmitInstall;
    hide StartRemoval, ScanRemove, CompleteRemoval, CancelOrder, AttachEvidence, MarkRemovalDue, CreateBorrow;
    hide Activate, Return, RegisterBatch, Retire, Moved, Released, ActiveLinks, LenderOf, Loans;
    if Step(s, op).1 != Done {
      SameKept(s, Locks(s, op));
    } else {
      match op
      case ApproveLoan(b, a, active) => ApproveKept(s, b, a, active);
      case RejectLoan(b, a, active) => WithdrawKept(s, b, RejectAction, Rejected);
      case CancelLoan(b, a, active) => WithdrawKept(s, b, CancelAction, BorrowStatus.Cancelled);
      case LoansFallDue(due, now) => DueKept(s, due, now);
      case _ =>
    }
  }

  lemma RegistryKept(s: Ledger, op: Op)
    requires op.Register? || op.RetireCover?
    ensures Kept(s, Step(s, op).0, Locks(s, op))
  {
    hide Kept, CreateOrder, UpdateScheduled, Assign, ScanInstall, UnscanInstall, SubmitInstall;
    hide StartRemoval, ScanRemove, CompleteRemoval, CancelOrder, AttachEvidence, MarkRemovalDue, Approve;
    hide Reject, CancelBorrow, MarkOverdue, CreateBorrow, Activate, Return;
    if Step(s, op).1 != Done {
      SameKept(s, Locks(s, op));
    } else {
      match op
      case Register(office, items) => RegisterKept(s, office, items);
      case RetireCover(c) => RetireKept(s, c);
      case _ =>
    }
  }

  lemma ActivateLoanKept(s: Ledger, b: BorrowId, a: Actor, active: bool)
    ensures Kept(s, Activate(s, b, a, active).0, Footprint({BorrowRow(b)}, LenderOf(s, b), ActiveLinks(s.links, b)))
  {
    hide Kept;
    var t := Activate(s, b, a, active).0;
    if Activate(s, b, a, active).1 == Done {
      ActivateFacts(s, b, a, active);
      ActivateKept(s, t, b, ActiveLinks(s.links, b));
    } else {
      SameKept(s, Footprint({BorrowRow(b)}, LenderOf(s, b), ActiveLinks(s.links, b)));
    }
  }

  lemma ReturnFacts(s: Ledger, b: BorrowId, a: Actor, active: bool)
    requires Return(s, b, a, active).1 == Done
    ensures b in s.borrows && Outstanding(s.borrows[b]) && |LinkedCovers(s.links, b)| == s.borrows[b].qty
    ensures forall c :: c in LinkedCovers(s.links, b) ==> !StillInstalled(s, c) && Returnable(s, s.borrows[b], c)
    ensures var moved := RecordShortfall(Relocated(s, LinkedCovers(s.links, b), s.borrows[b].lender), b, s.borrows[b].borrower);
            Return(s, b, a, active).0 == Moved(moved, b, ReturnAction, Returned)
  {
    InspectedAll(s, s.borrows[b], LinkRows(s, b));
  }

  lemma BlockedFacts(s: Ledger, b: BorrowId, a: Actor, active: bool)
    requires Return(s, b, a, active).1 == Blocked
    ensures b in s.borrows && Outstanding(s.borrows[b]) && Return(s, b, a, active).0 == MarkedLate(s, b)
  {
  }

  lemma DoneKept(s: Ledger, b: BorrowId, a: Actor, active: bool)
    requires Return(s, b, a, active).1 == Done
    ensures Kept(s, Return(s, b, a, active).0, Footprint({BorrowRow(b)}, BorrowerOf(s, b), LinkedCovers(s.links, b)))
  {
    hide Kept;
    ReturnFacts(s, b, a, active);
    hide Return;
    ReturnKept(s, Return(s, b, a, active).0, b, LinkedCovers(s.links, b));
  }

  lemma LateKept(s: Ledger, b: BorrowId, f: Footprint)
    requires b in s.borrows && BorrowRow(b) in f.rows
    ensures Kept(s, MarkedLate(s, b), f)
  {
    hide Kept;
    StatusKept(s, MarkedLate(s, b), {BorrowRow(b)});
    MoreKept(s, MarkedLate(s, b), Footprint({BorrowRow(b)}, {}, {}), f);
  }

  lemma ReturnLoanKept(s: Ledger, b: BorrowId, a: Actor, active: bool)
    ensures Kept(s, Return(s, b, a, active).0, Footprint({BorrowRow(b)}, BorrowerOf(s, b), LinkedCovers(s.links, b)))
  {
    hide Kept, MarkedLate;
    var f := Footprint({BorrowRow(b)}, BorrowerOf(s, b), LinkedCovers(s.links, b));
    match Return(s, b, a, active).1
    case Done => DoneKept(s, b, a, active);
    case Blocked =>
      BlockedFacts(s, b, a, active);
      hide Return;
      LateKept(s, b, f);
    case Refused(e) => SameKept(s, f);
  }

  /** A transaction disturbs only what it locks, and off its locked offices it only adds
      capacity. */
  lemma StepKept(s: Ledger, op: Op)
    ensures Kept(s, Step(s, op).0, Locks(s, op))
  {
    hide Kept, Activate, Return;
    match op
    case OpenOrder(_, _, _, _, _) => WorkKept(s, op);
    case EditOrder(_, _, _) => WorkKept(s, op);
    case AssignOrder(_, _, _) => WorkKept(s, op);
    case Scan(_, _, _) => WorkKept(s, op);
    case Unscan(_, _, _) => WorkKept(s, op);
    case Submit(_, _) => WorkKept(s, op);
    case RequestLoan(b, a, env, r, chosen) => RequestLoanKept(s, b, a, env, r, chosen);
    case ApproveLoan(_, _, _) => LoanKept(s, op);
    case RejectLoan(_, _, _) => LoanKept(s, op);
    case CancelLoan(_, _, _) => LoanKept(s, op);
    case LoansFallDue(_, _) => LoanKept(s, op);
    case Register(_, _) => RegistryKept(s, op);
    case RetireCover(_) => RegistryKept(s, op);
    case ActivateLoan(b, a, active) => ActivateLoanKept(s, b, a, active);
    case ReturnLoan(b, a, active) => ReturnLoanKept(s, b, a, active);
    case _ => FieldKept(s, op);
  }
}
