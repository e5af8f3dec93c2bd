/** How every transaction moves the free stock of every office. */
module Capacity {
  import opened Collections
  import opened Stock
  import opened WorkOrders
  import opened Borrows
  import opened Transactions
  import opened Invariants
  import opened InvariantSteps
  import opened Footprints

  // ----- counting -----

  lemma SlotSplit(orders: Orders, w: OrderId, o: OfficeId)
    ensures |SlotSet(orders, o, None)| == |SlotSet(orders, o, Some(w))| + if ScheduledAt(orders, o, w) then orders[w].planned else 0
  {
    var all, rest := SlotSet(orders, o, None), SlotSet(orders, o, Some(w));
    if ScheduledAt(orders, o, w) {
      var row := set i | 0 <= i < orders[w].planned :: (w, i);
      SlotRowSize(w, orders[w].planned);
      assert all == rest + row;
    } else {
      assert all == rest;
    }
  }

  /** Rewriting one order row. */
  lemma SlotUpdate(orders: Orders, w: OrderId, row: WorkOrder, o: OfficeId)
    ensures |SlotSet(orders[w := row], o, None)| - |SlotSet(orders, o, None)| ==
            (if row.office == o && row.status == Scheduled then row.planned else 0)
            - (if ScheduledAt(orders, o, w) then orders[w].planned else 0)
  {
    SlotSplit(orders, w, o);
    SlotSplit(orders[w := row], w, o);
    assert SlotSet(orders[w := row], o, Some(w)) == SlotSet(orders, o, Some(w));
  }

  lemma {:induction false} PairsSize(b: BorrowId, cs: set<CoverId>)
    ensures |Pairs(b, cs)| == |cs|
  {
    if cs != {} {
      var c :| c in cs;
      PairsSize(b, cs - {c});
      assert Pairs(b, cs) == Pairs(b, cs - {c}) + {(b, c)};
    }
  }

  /** Reservations appear with a request and disappear with a release. */
  lemma RequestReserves(s: Ledger, id: BorrowId, row: Borrow, chosen: set<CoverId>, o: OfficeId)
    requires id !in s.borrows && forall k :: k in s.links ==> k.0 != id
    ensures |ReservationSet(s.borrows[id := row], s.links + NewLinks(id, chosen), o)| ==
            |ReservationSet(s.borrows, s.links, o)| + if row.lender == o then |chosen| else 0
  {
    PairsSize(id, chosen);
    RequestAdds(s, id, row, chosen, o);
    hide ReservationSet, NewLinks, Pairs;
  }

  lemma RequestAdds(s: Ledger, id: BorrowId, row: Borrow, chosen: set<CoverId>, o: OfficeId)
    requires id !in s.borrows && forall k :: k in s.links ==> k.0 != id
    ensures ReservationSet(s.borrows, s.links, o) !! Pairs(id, chosen)
    ensures ReservationSet(s.borrows[id := row], s.links + NewLinks(id, chosen), o) ==
            ReservationSet(s.borrows, s.links, o) + if row.lender == o then Pairs(id, chosen) else {}
  {
    var x, y := ReservationSet(s.borrows, s.links, o), ReservationSet(s.borrows[id := row], s.links + NewLinks(id, chosen), o);
    forall k | k in y && k !in x ensures row.lender == o && k in Pairs(id, chosen) { assert k == (k.0, k.1); }
    forall k | k in Pairs(id, chosen) ensures k !in x && (row.lender == o ==> k in y) {}
    forall k | k in x ensures k in y {}
  }

  lemma ReleaseFrees(s: Ledger, b: BorrowId, row: Borrow, o: OfficeId)
    requires b in s.borrows && row.lender == s.borrows[b].lender
    ensures |ReservationSet(s.borrows[b := row], ReleasedLinks(s, b), o)| ==
            |ReservationSet(s.borrows, s.links, o)| - if row.lender == o then |ActiveLinks(s.links, b)| else 0
  {
    var x, y := ReservationSet(s.borrows, s.links, o), ReservationSet(s.borrows[b := row], ReleasedLinks(s, b), o);
    var gone := set k | k in x && k.0 == b;
    assert y == x - gone;
    SubsetSize(gone, x);
    if row.lender == o {
      ReservedPairs(s, b);
    }
  }

  lemma ReservedPairs(s: Ledger, b: BorrowId)
    requires b in s.borrows
    ensures |set k | k in ReservationSet(s.borrows, s.links, s.borrows[b].lender) && k.0 == b| == |ActiveLinks(s.links, b)|
  {
    var x := ReservationSet(s.borrows, s.links, s.borrows[b].lender);
    PairsSize(b, ActiveLinks(s.links, b));
    assert (set k | k in x && k.0 == b) == Pairs(b, ActiveLinks(s.links, b)) by {
      forall k | k in x && k.0 == b ensures k in Pairs(b, ActiveLinks(s.links, b)) { assert k == (b, k.1); }
    }
  }

  lemma SameReservations(borrows: Borrowings, borrows': Borrowings, links: Links, o: OfficeId)
    requires borrows'.Keys == borrows.Keys && forall b :: b in borrows ==> borrows'[b].lender == borrows[b].lender
    ensures ReservationSet(borrows', links, o) == ReservationSet(borrows, links, o)
  {
  }

  /** Covers that leave the stock of one office and, perhaps, join that of another. */
  lemma StockMoves(covers: Covers, covers': Covers, cs: set<CoverId>, from: OfficeId, o: OfficeId)
    requires covers'.Keys == covers.Keys
    requires forall c :: c in covers && c !in cs ==> covers'[c] == covers[c]
    requires forall c :: c in cs ==> InStockAt(covers, from, c)
    ensures (forall c :: c in cs ==> !InStockAt(covers', o, c)) ==>
              |InStockSet(covers', o)| == |InStockSet(covers, o)| - if o == from then |cs| else 0
    ensures o != from && (forall c :: c in cs ==> InStockAt(covers', o, c)) ==>
              |InStockSet(covers', o)| == |InStockSet(covers, o)| + |cs|
  {
    var x, y := InStockSet(covers, o), InStockSet(covers', o);
    if forall c :: c in cs ==> !InStockAt(covers', o, c) {
      assert y == x - cs;
      if o == from {
        SubsetSize(cs, x);
      } else {
        assert x - cs == x;
      }
    } else if o != from && (forall c :: c in cs ==> InStockAt(covers', o, c)) {
      assert y == x + cs && x !! cs;
    }
  }

  // ----- the accounts -----

  /** What a committed transaction does to the free stock of office o. */
  function Delta(s: Ledger, op: Op, o: OfficeId): int
  {
    match op
    case OpenOrder(id, office, plan, assignee, ok) => if office == o && plan.qty.Some? then -plan.qty.value else 0
    case EditOrder(w, patch, ok) =>
      if OfficeOf(s, w) == {o} && patch.qty.Some? then s.orders[w].planned as int - patch.qty.value else 0
    case Submit(a, w) => if OfficeOf(s, w) == {o} then s.orders[w].planned as int - |InstalledCovers(s.installs, w)| else 0
    case RemoveCover(a, w, c) => if OfficeOf(s, w) == {o} && (w, c) in s.installs && !s.installs[(w, c)].removed then 1 else 0
    case CancelWork(w) => if OfficeOf(s, w) == {o} then s.orders[w].planned as int else 0
    case RequestLoan(b, a, env, r, chosen) => if r.lender == o then -r.qty else 0
    case RejectLoan(b, a, active) => if LenderOf(s, b) == {o} then s.borrows[b].qty as int else 0
    case CancelLoan(b, a, active) => if LenderOf(s, b) == {o} then s.borrows[b].qty as int else 0
    case ActivateLoan(b, a, active) => if BorrowerOf(s, b) == {o} then s.borrows[b].qty as int else 0
    case ReturnLoan(b, a, active) =>
      if BorrowerOf(s, b) == {o} then -(s.borrows[b].qty as int) else if LenderOf(s, b) == {o} then s.borrows[b].qty as int else 0
    case Register(office, items) => if office == o then |items| else 0
    case RetireCover(c) => if OwnerOf(s, c) == {o} then -1 else 0
    case _ => 0
  }

  lemma OrderDelta(s: Ledger, w: OrderId, row: WorkOrder, o: OfficeId)
    ensures Free(s.(orders := s.orders[w := row]), o) == Free(s, o)
            - (if row.office == o && row.status == Scheduled then row.planned else 0)
            + (if ScheduledAt(s.orders, o, w) then s.orders[w].planned else 0)
  {
    SlotUpdate(s.orders, w, row, o);
  }

  lemma SubmitDelta(s: Ledger, w: OrderId, o: OfficeId)
    requires w in s.orders && s.orders[w].status == Scheduled
    requires forall c :: c in InstalledCovers(s.installs, w) ==> InStockAt(s.covers, s.orders[w].office, c)
    ensures Free(s.(covers := SubmittedCovers(s, w), installs := SubmittedInstalls(s, w),
                    orders := s.orders[w := s.orders[w].(status := Active)]), o) ==
            Free(s, o) + if s.orders[w].office == o then s.orders[w].planned - |InstalledCovers(s.installs, w)| else 0
  {
    SlotUpdate(s.orders, w, s.orders[w].(status := Active), o);
    StockMoves(s.covers, SubmittedCovers(s, w), InstalledCovers(s.installs, w), s.orders[w].office, o);
  }

  lemma RemoveDelta(s: Ledger, c: CoverId, o: OfficeId)
    requires c in s.covers && s.covers[c].status == Installed
    ensures |InStockSet(s.covers[c := s.covers[c].(status := InStock)], o)| ==
            |InStockSet(s.covers, o)| + if s.covers[c].current == o then 1 else 0
  {
    var x, y := InStockSet(s.covers, o), InStockSet(s.covers[c := s.covers[c].(status := InStock)], o);
    assert y == if s.covers[c].current == o then x + {c} else x;
  }

  lemma RetireDelta(s: Ledger, c: CoverId, o: OfficeId)
    requires c in s.covers && s.covers[c].status == InStock
    ensures |InStockSet(s.covers[c := s.covers[c].(status := Retired)], o)| ==
            |InStockSet(s.covers, o)| - if s.covers[c].current == o then 1 else 0
  {
    var x, y := InStockSet(s.covers, o), InStockSet(s.covers[c := s.covers[c].(status := Retired)], o);
    assert y == if s.covers[c].current == o then x - {c} else x;
  }

  lemma {:induction false} ItemsSize(items: seq<Item>)
    requires forall i, j :: 0 <= i < j < |items| ==> items[i].id != items[j].id
    ensures |ItemIds(items)| == |items|
  {
    if items != [] {
      var n := |items| - 1;
      ItemsSize(items[..n]);
      assert ItemIds(items) == ItemIds(items[..n]) + {items[n].id};
    }
  }

  /** New covers of one office, in stock there. */
  lemma ArrivalCount(covers: Covers, more: Covers, office: OfficeId, o: OfficeId)
    requires covers.Keys !! more.Keys && forall c :: c in more ==> InStockAt(more, office, c)
    ensures |InStockSet(covers + more, o)| == |InStockSet(covers, o)| + if office == o then |more.Keys| else 0
  {
    assert InStockSet(covers + more, o) == InStockSet(covers, o) + if office == o then more.Keys else {};
  }

  lemma ArrivalRows(s: Ledger, office: OfficeId, items: seq<Item>)
    requires Storable(s, office, items)
    ensures NewCovers(office, items).Keys == ItemIds(items) && s.covers.Keys !! ItemIds(items)
    ensures forall c :: c in NewCovers(office, items) ==> InStockAt(NewCovers(office, items), office, c)
    ensures forall i, j :: 0 <= i < j < |items| ==> items[i].id != items[j].id
  {
    hide ItemOf, CodesOf;
  }

  lemma RegisterDelta(s: Ledger, office: OfficeId, items: seq<Item>, o: OfficeId)
    requires Storable(s, office, items)
    ensures |InStockSet(s.covers + NewCovers(office, items), o)| == |InStockSet(s.covers, o)| + if office == o then |items| else 0
  {
    hide *;
    ArrivalRows(s, office, items);
    ItemsSize(items);
    ArrivalCount(s.covers, NewCovers(office, items), office, o);
  }

  lemma ActivateDelta(s: Ledger, b: BorrowId, row: Borrow, o: OfficeId)
    requires b in s.borrows && row.lender == s.borrows[b].lender && s.borrows[b].borrower != s.borrows[b].lender
    requires forall c :: c in ActiveLinks(s.links, b) ==> InStockAt(s.covers, s.borrows[b].lender, c)
    ensures var cs := ActiveLinks(s.links, b);
            Free(Relocated(s, cs, s.borrows[b].borrower).(borrows := s.borrows[b := row], links := ReleasedLinks(s, b)), o) ==
            Free(s, o) + if s.borrows[b].borrower == o then |cs| else 0
  {
    var cs := ActiveLinks(s.links, b);
    ReleaseFrees(s, b, row, o);
    StockMoves(s.covers, Relocated(s, cs, s.borrows[b].borrower).covers, cs, s.borrows[b].lender, o);
  }

  lemma ReturnDelta(s: Ledger, b: BorrowId, row: Borrow, o: OfficeId)
    requires b in s.borrows && row.lender == s.borrows[b].lender && s.borrows[b].borrower != s.borrows[b].lender
    requires forall c :: c in LinkedCovers(s.links, b) ==> InStockAt(s.covers, s.borrows[b].borrower, c)
    ensures var cs := LinkedCovers(s.links, b);
            Free(Relocated(s, cs, s.borrows[b].lender).(borrows := s.borrows[b := row]), o) ==
            Free(s, o) + if s.borrows[b].borrower == o then -|cs| else if s.borrows[b].lender == o then |cs| else 0
  {
    var cs := LinkedCovers(s.links, b);
    SameReservations(s.borrows, s.borrows[b := row], s.links, o);
    StockMoves(s.covers, Relocated(s, cs, s.borrows[b].lender).covers, cs, s.borrows[b].borrower, o);
  }

  /** Free stock depends on four tables only. */
  lemma SameFree(s: Ledger, t: Ledger, o: OfficeId)
    requires s.covers == t.covers && s.orders == t.orders && s.links == t.links
    requires t.borrows.Keys == s.borrows.Keys && forall b :: b in s.borrows ==> t.borrows[b].lender == s.borrows[b].lender
    ensures Free(t, o) == Free(s, o)
  {
    SameReservations(s.borrows, t.borrows, s.links, o);
  }

  /** A planned quantity before and after one order row is rewritten. */
  function PlanAt(s: Ledger, w: OrderId, o: OfficeId): nat
  {
    if ScheduledAt(s.orders, o, w) then s.orders[w].planned else 0
  }

  lemma RewriteDelta(s: Ledger, t: Ledger, w: OrderId, o: OfficeId)
    requires w in t.orders && t.orders == s.orders[w := t.orders[w]]
    requires t.covers == s.covers && t.borrows == s.borrows && t.links == s.links
    ensures Free(t, o) == Free(s, o) + PlanAt(s, w, o) - PlanAt(t, w, o)
  {
    OrderDelta(s, w, t.orders[w], o);
    SameFree(s.(orders := t.orders), t, o);
  }

  lemma PlanningDelta(s: Ledger, op: Op, o: OfficeId)
    requires op.OpenOrder? || op.EditOrder? || op.AssignOrder?
    requires Step(s, op).1 == Done
    ensures Free(Step(s, op).0, o) == Free(s, o) + Delta(s, op, o)
  {
    hide Free, StartRemoval, ScanRemove, CompleteRemoval, CancelOrder, AttachEvidence, MarkRemovalDue;
    hide ScanInstall, UnscanInstall, SubmitInstall;
    hide Approve, Reject, CancelBorrow, MarkOverdue, CreateBorrow, Activate, Return, RegisterBatch, Retire;
    var t := Step(s, op).0;
    match op
    case OpenOrder(id, office, plan, assignee, ok) => RewriteDelta(s, t, id, o);
    case EditOrder(w, patch, ok) => RewriteDelta(s, t, w, o);
    case AssignOrder(w, technician, ok) => RewriteDelta(s, t, w, o);
    case _ =>
  }

  /** Drafts and photographs do not count. */
  lemma DraftDelta(s: Ledger, op: Op, o: OfficeId)
    requires op.Scan? || op.Unscan? || op.Attach?
    ensures Free(Step(s, op).0, o) == Free(s, o)
  {
    hide Free, StartRemoval, ScanRemove, CompleteRemoval, CancelOrder, MarkRemovalDue, SubmitInstall;
    hide CreateOrder, UpdateScheduled, Assign;
    hide Approve, Reject, CancelBorrow, MarkOverdue, CreateBorrow, Activate, Return, RegisterBatch, Retire;
    SameFree(s, Step(s, op).0, o);
  }

  lemma SubmitInstallDelta(s: Ledger, a: Actor, w: OrderId, o: OfficeId)
    requires SubmitInstall(s, a, w).1 == Done
    ensures Free(SubmitInstall(s, a, w).0, o) == Free(s, o) + Delta(s, Submit(a, w), o)
  {
    hide Free;
    SubmitDelta(s, w, o);
  }

  lemma StatusDelta(s: Ledger, op: Op, o: OfficeId)
    requires op.BeginRemoval? || op.Complete? || op.RemovalFallsDue?
    requires Step(s, op).1 == Done
    ensures Free(Step(s, op).0, o) == Free(s, o)
  {
    hide Free, CreateOrder, UpdateScheduled, Assign, ScanInstall, UnscanInstall, SubmitInstall, ScanRemove;
    hide AttachEvidence, CancelOrder;
    hide Approve, Reject, CancelBorrow, MarkOverdue, CreateBorrow, Activate, Return, RegisterBatch, Retire;
    hide RemovalRefusal, InstallationRows, ListsInstallations, MayWorkOn;
    var t := Step(s, op).0;
    match op
    case BeginRemoval(a, w) => RewriteDelta(s, t, w, o);
    case Complete(a, w) => RewriteDelta(s, t, w, o);
    case RemovalFallsDue(w, now) => if t != s { RewriteDelta(s, t, w, o); }
    case _ =>
  }

  lemma CancelOrderDelta(s: Ledger, w: OrderId, o: OfficeId)
    requires CancelOrder(s, w).1 == Done
    ensures Free(CancelOrder(s, w).0, o) == Free(s, o) + Delta(s, CancelWork(w), o)
  {
    hide Free;
    RewriteDelta(s, CancelOrder(s, w).0, w, o);
  }

  lemma ScanRemoveDelta(s: Ledger, a: Actor, w: OrderId, c: CoverId, o: OfficeId)
    requires ScanRemove(s, a, w, c).1 == Done
    ensures Free(ScanRemove(s, a, w, c).0, o) == Free(s, o) + Delta(s, RemoveCover(a, w, c), o)
  {
    var t := ScanRemove(s, a, w, c).0;
    if t != s {
      RemoveDelta(s, c, o);
    }
  }

  lemma RegistryDelta(s: Ledger, op: Op, o: OfficeId)
    requires op.Register? || op.RetireCover?
    requires Step(s, op).1 == Done
    ensures Free(Step(s, op).0, o) == Free(s, o) + Delta(s, op, o)
  {
    hide CreateOrder, UpdateScheduled, Assign, ScanInstall, UnscanInstall, SubmitInstall, ScanRemove, AttachEvidence;
    hide Approve, Reject, CancelBorrow, MarkOverdue, CreateBorrow, Activate, Return, StartRemoval;
    hide CompleteRemoval, CancelOrder, MarkRemovalDue;
    match op
    case Register(office, items) => RegisterDelta(s, office, items, o);
    case RetireCover(c) => RetireDelta(s, c, o);
    case _ =>
  }

  lemma RequestDelta(s: Ledger, b: BorrowId, a: Actor, env: Lookups, r: Request, chosen: set<CoverId>, o: OfficeId)
    requires CreateBorrow(s, b, a, env, r, chosen).1 == Done
    ensures Free(CreateBorrow(s, b, a, env, r, chosen).0, o) == Free(s, o) - if r.lender == o then r.qty else 0
  {
    var t := CreateBorrow(s, b, a, env, r, chosen).0;
    RequestReserves(s, b, t.borrows[b], chosen, o);
  }

  lemma ReleasingDelta(s: Ledger, b: BorrowId, action: BorrowAction, to: BorrowStatus, o: OfficeId)
    requires b in s.borrows && |ActiveLinks(s.links, b)| == s.borrows[b].qty
    ensures Free(Moved(Released(s, b), b, action, to), o) == Free(s, o) + if s.borrows[b].lender == o then s.borrows[b].qty else 0
  {
    ReleaseFrees(s, b, s.borrows[b].(status := to), o);
  }

  lemma HandedOver(s: Ledger, b: BorrowId, t: Ledger, o: OfficeId)
    requires b in s.borrows && b in t.borrows && s.borrows[b].borrower != s.borrows[b].lender
    requires t.covers == Relocated(s, ActiveLinks(s.links, b), s.borrows[b].borrower).covers
    requires t.borrows == s.borrows[b := s.borrows[b].(status := t.borrows[b].status)]
    requires t.orders == s.orders && t.links == ReleasedLinks(s, b)
    requires forall c :: c in ActiveLinks(s.links, b) ==> InStockAt(s.covers, s.borrows[b].lender, c)
    ensures Free(t, o) == Free(s, o) + if s.borrows[b].borrower == o then |ActiveLinks(s.links, b)| else 0
  {
    hide *;
    var u := Relocated(s, ActiveLinks(s.links, b), s.borrows[b].borrower).(borrows := t.borrows, links := t.links);
    ActivateDelta(s, b, t.borrows[b], o);
    RelocatedTables(s, ActiveLinks(s.links, b), s.borrows[b].borrower);
    SameFree(u, t, o);
  }

  lemma HandedBack(s: Ledger, b: BorrowId, t: Ledger, o: OfficeId)
    requires b in s.borrows && b in t.borrows && s.borrows[b].borrower != s.borrows[b].lender
    requires t.covers == Relocated(s, LinkedCovers(s.links, b), s.borrows[b].lender).covers
    requires t.borrows == s.borrows[b := s.borrows[b].(status := t.borrows[b].status)]
    requires t.orders == s.orders && t.links == s.links
    requires forall c :: c in LinkedCovers(s.links, b) ==> InStockAt(s.covers, s.borrows[b].borrower, c)
    ensures var n := |LinkedCovers(s.links, b)|;
            Free(t, o) == Free(s, o) + if s.borrows[b].borrower == o then -n else if s.borrows[b].lender == o then n else 0
  {
    hide *;
    var u := Relocated(s, LinkedCovers(s.links, b), s.borrows[b].lender).(borrows := t.borrows);
    ReturnDelta(s, b, t.borrows[b], o);
    RelocatedTables(s, LinkedCovers(s.links, b), s.borrows[b].lender);
    SameFree(u, t, o);
  }

  lemma RelocatedTables(s: Ledger, cs: set<CoverId>, o: OfficeId)
    ensures Relocated(s, cs, o) == s.(covers := Relocated(s, cs, o).covers)
  {
  }

  lemma ActivateLoanDelta(s: Ledger, b: BorrowId, a: Actor, active: bool, o: OfficeId)
    requires Activate(s, b, a, active).1 == Done && RowChecks(s.orders, s.borrows)
    ensures Free(Activate(s, b, a, active).0, o) == Free(s, o) + Delta(s, ActivateLoan(b, a, active), o)
  {
    hide Free, OpenOn;
    ActivateFacts(s, b, a, active);
    assert |ActiveLinks(s.links, b)| == s.borrows[b].qty;
    hide Activate;
    HandedOver(s, b, Activate(s, b, a, active).0, o);
  }

  lemma ReturnLoanDelta(s: Ledger, b: BorrowId, a: Actor, active: bool, o: OfficeId)
    requires Return(s, b, a, active).1 == Done && RowChecks(s.orders, s.borrows)
    ensures Free(Return(s, b, a, active).0, o) == Free(s, o) + Delta(s, ReturnLoan(b, a, active), o)
  {
    hide Return, Free, OpenOn, PlannedCount, InStockCount;
    ReturnFacts(s, b, a, active);
    var t, moved := Return(s, b, a, active).0, Relocated(s, LinkedCovers(s.links, b), s.borrows[b].lender);
    ReturnTables(s, b, moved, t);
    hide RecordShortfall, Moved, Relocated, LinkedCovers;
    HandedBack(s, b, t, o);
  }

  /** The tables a completed return leaves. */
  lemma ReturnTables(s: Ledger, b: BorrowId, moved: Ledger, t: Ledger)
    requires b in s.borrows && moved == s.(covers := moved.covers)
    requires t == Moved(RecordShortfall(moved, b, s.borrows[b].borrower), b, ReturnAction, Returned)
    ensures t.covers == moved.covers && t.orders == s.orders && t.links == s.links
    ensures t.borrows == s.borrows[b := s.borrows[b].(status := Returned)]
  {
    hide PlannedCount, InStockCount, Log;
  }

  lemma StatusOnlyDelta(s: Ledger, op: Op, o: OfficeId)
    requires op.ApproveLoan? || op.LoansFallDue?
    ensures Free(Step(s, op).0, o) == Free(s, o)
  {
    hide Free, CreateOrder, UpdateScheduled, Assign, ScanInstall, UnscanInstall, SubmitInstall, ScanRemove;
    hide AttachEvidence;
    hide Reject, CancelBorrow, CreateBorrow, Activate, Return, StartRemoval, CompleteRemoval, CancelOrder;
    hide MarkRemovalDue, RegisterBatch, Retire;
    if Step(s, op).1 == Done {
      SameFree(s, Step(s, op).0, o);
    }
  }

  lemma ReleaseDelta(s: Ledger, op: Op, o: OfficeId)
    requires op.RejectLoan? || op.CancelLoan?
    requires Step(s, op).1 == Done
    ensures Free(Step(s, op).0, o) == Free(s, o) + Delta(s, op, o)
  {
    hide Free, CreateOrder, UpdateScheduled, Assign, ScanInstall, UnscanInstall, SubmitInstall, ScanRemove;
    hide AttachEvidence, Approve, Moved, Released;
    hide MarkOverdue, CreateBorrow, Activate, Return, StartRemoval, CompleteRemoval, CancelOrder;
    hide MarkRemovalDue, RegisterBatch, Retire;
    match op
    case RejectLoan(b, a, active) => ReleasingDelta(s, b, RejectAction, Rejected, o);
    case CancelLoan(b, a, active) => ReleasingDelta(s, b, CancelAction, BorrowStatus.Cancelled, o);
    case _ =>
  }

  /** The exact account of free stock: every committed transaction, every office. */
  lemma FreeAccount(s: Ledger, op: Op, o: OfficeId)
    requires Inv(s) && Step(s, op).1 == Done
    ensures Free(Step(s, op).0, o) == Free(s, o) + Delta(s, op, o)
  {
    hide Free, RowChecks, CreateOrder, UpdateScheduled, Assign, ScanInstall, UnscanInstall, SubmitInstall;
    hide ScanRemove, AttachEvidence, Approve;
    hide MarkOverdue, CreateBorrow, Activate, Return, StartRemoval, CompleteRemoval, CancelOrder;
    hide MarkRemovalDue, RegisterBatch, Retire, Reject, CancelBorrow;
    assert RowChecks(s.orders, s.borrows) by { Disassemble(s); }
    hide Inv;
    match op
    case RequestLoan(b, a, env, r, chosen) => RequestDelta(s, b, a, env, r, chosen, o);
    case ActivateLoan(b, a, active) => ActivateLoanDelta(s, b, a, active, o);
    case ReturnLoan(b, a, active) => ReturnLoanDelta(s, b, a, active, o);
    case Submit(a, w) => SubmitInstallDelta(s, a, w, o);
    case RemoveCover(a, w, c) => ScanRemoveDelta(s, a, w, c, o);
    case RejectLoan(_, _, _) => ReleaseDelta(s, op, o);
    case CancelLoan(_, _, _) => ReleaseDelta(s, op, o);
    case ApproveLoan(_, _, _) => StatusOnlyDelta(s, op, o);
    case LoansFallDue(_, _) => StatusOnlyDelta(s, op, o);
    case Register(_, _) => RegistryDelta(s, op, o);
    case RetireCover(_) => RegistryDelta(s, op, o);
    case Scan(_, _, _) => DraftDelta(s, op, o);
    case Unscan(_, _, _) => DraftDelta(s, op, o);
    case Attach(_, _, _, _, _, _, _) => DraftDelta(s, op, o);
    case OpenOrder(_, _, _, _, _) => PlanningDelta(s, op, o);
    case EditOrder(_, _, _) => PlanningDelta(s, op, o);
    case AssignOrder(_, _, _) => PlanningDelta(s, op, o);
    case CancelWork(w) => CancelOrderDelta(s, w, o);
    case _ => StatusDelta(s, op, o);
  }
}
