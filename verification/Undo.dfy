/** What one transaction does another takes back. */
module Undo {
  import opened Collections
  import opened Stock
  import opened WorkOrders
  import opened Borrows
  import opened Transactions
  import opened Invariants
  import opened InvariantSteps
  import opened Footprints
  import opened Capacity
  import opened Progress

  // ----- drafts -----

  /** Scanning a new cover and unscanning it leaves the database as it was. */
  lemma ScanThenUnscan(s: Ledger, a: Actor, w: OrderId, c: CoverId)
    requires (w, c) !in s.installs && ScanInstall(s, a, w, c).1 == Done
    ensures OpenOn(ScanInstall(s, a, w, c).0.installs, c)
    ensures UnscanInstall(ScanInstall(s, a, w, c).0, a, w, c) == (s, Done)
  {
    hide OpenElsewhere, ReservedOn;
    var t := ScanInstall(s, a, w, c).0;
    assert (w, c) in t.installs && (w, c).1 == c;
    assert t.installs - {(w, c)} == s.installs;
  }

  /** Cancelling an order lets go of every cover it had scanned and of what it had planned. */
  lemma CancelLetsGo(s: Ledger, w: OrderId, c: CoverId)
    requires Inv(s) && CancelOrder(s, w).1 == Done && (w, c) in s.installs
    ensures !OpenOn(CancelOrder(s, w).0.installs, c) && !ReservedOn(s.links, c)
    ensures c in s.covers && CancelOrder(s, w).0.covers == s.covers && InStockAt(s.covers, s.orders[w].office, c)
  {
    Disassemble(s);
    WorkOrderShape(s, w);
    hide Inv;
    CancelFrom(s, w, c);
  }

  lemma CancelFrom(s: Ledger, w: OrderId, c: CoverId)
    requires CancelOrder(s, w).1 == Done && (w, c) in s.installs && OrderShape(s, w)
    requires OneOpen(s.installs) && ClaimsApart(s.installs, s.links)
    ensures !OpenOn(CancelOrder(s, w).0.installs, c) && !ReservedOn(s.links, c)
    ensures c in s.covers && CancelOrder(s, w).0.covers == s.covers && InStockAt(s.covers, s.orders[w].office, c)
  {
    assert c in InstalledCovers(s.installs, w) && (w, c).1 == c;
    assert Open(s.installs[(w, c)]);
  }

  // ----- assignment -----

  /** After an assignment exactly that technician of the order's office may work on the order. */
  lemma AssignedMayWork(s: Ledger, w: OrderId, technician: UserId, a: Actor)
    requires Assign(s, w, technician, true).1 == Done && a.role == Tech && technician != ""
    requires w in s.orders && a.office == Some(s.orders[w].office) && s.orders[w].office != ""
    ensures w in Assign(s, w, technician, true).0.orders
    ensures MayWorkOn(a, Assign(s, w, technician, true).0.orders[w]) <==> a.id == technician
    ensures Assign(s, w, technician, true).0 == s.(orders := s.orders[w := s.orders[w].(assignee := Some(technician))])
  {
  }

  // ----- installation -----

  /** Removing a cover gives its row back as it was before it was installed. */
  lemma RemovalRestores(s: Ledger, a: Actor, w: OrderId, c: CoverId, t: Ledger)
    requires Inv(s) && SubmitInstall(s, a, w).1 == Done && (w, c) in s.installs
    requires t.covers == SubmitInstall(s, a, w).0.covers && t.installs == SubmitInstall(s, a, w).0.installs
    requires ScanRemove(t, a, w, c).1 == Done
    ensures c in s.covers && c in ScanRemove(t, a, w, c).0.covers && ScanRemove(t, a, w, c).0.covers[c] == s.covers[c]
    ensures forall x :: x in t.covers && x != c ==> x in ScanRemove(t, a, w, c).0.covers && ScanRemove(t, a, w, c).0.covers[x] == t.covers[x]
  {
    hide *;
    SubmitEffect(s, a, w);
    SubmittedOrder(s, a, w);
    WorkOrderShape(s, w);
    DraftRow(s, w, c);
    RemovedRow(t, a, w, c);
  }

  lemma SubmittedOrder(s: Ledger, a: Actor, w: OrderId)
    requires SubmitInstall(s, a, w).1 == Done
    ensures w in s.orders && s.orders[w].status == Scheduled
  {
    hide Available, MayWorkOn, ReadyToInstall;
  }

  lemma DraftRow(s: Ledger, w: OrderId, c: CoverId)
    requires w in s.orders && s.orders[w].status == Scheduled && OrderShape(s, w) && (w, c) in s.installs
    ensures !s.installs[(w, c)].installed && !s.installs[(w, c)].removed && c in s.covers
    ensures s.covers[c].status == InStock
  {
    assert c in InstalledCovers(s.installs, w);
  }

  lemma RemovedRow(t: Ledger, a: Actor, w: OrderId, c: CoverId)
    requires ScanRemove(t, a, w, c).1 == Done && (w, c) in t.installs && !t.installs[(w, c)].removed
    ensures c in t.covers && ScanRemove(t, a, w, c).0.covers == t.covers[c := t.covers[c].(status := InStock)]
  {
    hide MayWorkOn;
  }

  // ----- loans -----

  /** A request that is rejected leaves covers, claims and free stock as they were. */
  lemma RequestThenReject(s: Ledger, id: BorrowId, a: Actor, env: Lookups, r: Request, chosen: set<CoverId>, x: Actor, o: OfficeId)
    requires Inv(s) && CreateBorrow(s, id, a, env, r, chosen).1 == Done
    requires Reject(CreateBorrow(s, id, a, env, r, chosen).0, id, x, true).1 == Done
    ensures var t := Reject(CreateBorrow(s, id, a, env, r, chosen).0, id, x, true).0;
            && t.covers == s.covers && t.orders == s.orders && t.installs == s.installs
            && Free(t, o) == Free(s, o) && EligibleSet(t, o) == EligibleSet(s, o)
  {
    var m := CreateBorrow(s, id, a, env, r, chosen).0;
    var t := Reject(m, id, x, true).0;
    hide *;
    RequestedRow(s, id, a, env, r, chosen);
    RejectedRow(m, id, x);
    KeepsRequest(s, id, a, env, r, chosen);
    RequestStep(s, id, a, env, r, chosen);
    FreeAccount(s, RequestLoan(id, a, env, r, chosen), o);
    FreeAccount(m, RejectLoan(id, x, true), o);
    DeltasCancel(s, m, id, a, env, r, chosen, x, o);
    SameEligible(s, m, t, id, chosen, o);
  }

  lemma RequestedRow(s: Ledger, id: BorrowId, a: Actor, env: Lookups, r: Request, chosen: set<CoverId>)
    requires CreateBorrow(s, id, a, env, r, chosen).1 == Done
    ensures var m := CreateBorrow(s, id, a, env, r, chosen).0;
            && m == s.(borrows := m.borrows, links := s.links + NewLinks(id, chosen),
                  audit := m.audit) && (forall k :: k in s.links ==> k.0 != id)
            && id in m.borrows && m.borrows[id].lender == r.lender && m.borrows[id].qty == r.qty && r.qty >= 1
  {
    hide BorrowableCapacity, EligibleAt;
  }

  lemma RejectedRow(m: Ledger, id: BorrowId, x: Actor)
    requires Reject(m, id, x, true).1 == Done
    ensures var t := Reject(m, id, x, true).0;
            t == m.(borrows := t.borrows, links := ReleasedLinks(m, id), audit := t.audit)
  {
    hide ActiveLinks, ReleasedLinks;
  }

  lemma RequestStep(s: Ledger, id: BorrowId, a: Actor, env: Lookups, r: Request, chosen: set<CoverId>)
    ensures Step(s, RequestLoan(id, a, env, r, chosen)) == CreateBorrow(s, id, a, env, r, chosen)
    ensures forall m, x :: Step(m, RejectLoan(id, x, true)) == Reject(m, id, x, true)
  {
    hide CreateBorrow, Reject;
  }

  lemma DeltasCancel(s: Ledger, m: Ledger, id: BorrowId, a: Actor, env: Lookups, r: Request, chosen: set<CoverId>,
        x: Actor, o: OfficeId)
    requires id in m.borrows && m.borrows[id].lender == r.lender && m.borrows[id].qty == r.qty
    ensures Delta(s, RequestLoan(id, a, env, r, chosen), o) + Delta(m, RejectLoan(id, x, true), o) == 0
  {
  }

  lemma SameEligible(s: Ledger, m: Ledger, t: Ledger, id: BorrowId, chosen: set<CoverId>, o: OfficeId)
    requires m == s.(borrows := m.borrows, links := s.links + NewLinks(id, chosen), audit := m.audit)
    requires t == m.(borrows := t.borrows, links := ReleasedLinks(m, id), audit := t.audit)
    requires forall k :: k in s.links ==> k.0 != id
    ensures EligibleSet(t, o) == EligibleSet(s, o)
  {
    forall c ensures ReservedOn(t.links, c) <==> ReservedOn(s.links, c) {
      if ReservedOn(s.links, c) {
        var k :| k in s.links && k.1 == c && !s.links[k];
        assert k in t.links && !t.links[k];
      }
    }
    hide ReservedOn, OpenOn, ReleasedLinks, NewLinks;
  }

  /** A loan that is handed over and comes straight back leaves the covers table as it was. */
  lemma HandoverThenReturn(s: Ledger, b: BorrowId, a: Actor, x: Actor)
    requires Inv(s) && Activate(s, b, a, true).1 == Done && Return(Activate(s, b, a, true).0, b, x, true).1 == Done
    ensures Return(Activate(s, b, a, true).0, b, x, true).0.covers == s.covers
  {
    var m := Activate(s, b, a, true).0;
    ActivateFacts(s, b, a, true);
    ReturnFacts(m, b, x, true);
    PendingLinks(s, b);
    hide *;
    HandedOverTables(s, b, a);
    ReturnedCovers(m, b, x);
    ThereAndBack(s, m, b, Return(m, b, x, true).0);
  }

  lemma PendingLinks(s: Ledger, b: BorrowId)
    requires Inv(s) && b in s.borrows && s.borrows[b].status == Approved
    ensures ActiveLinks(s.links, b) == LinkedCovers(s.links, b)
  {
    Disassemble(s);
    hide Inv;
    forall c | (b, c) in s.links ensures !s.links[(b, c)] { assert (b, c).0 == b; }
  }

  lemma HandedOverTables(s: Ledger, b: BorrowId, a: Actor)
    requires Activate(s, b, a, true).1 == Done
    ensures var m := Activate(s, b, a, true).0;
            && b in s.borrows && b in m.borrows && m.borrows[b].lender == s.borrows[b].lender && s.borrows[b].status == Approved
            && m.covers == Relocated(s, ActiveLinks(s.links, b),
                  s.borrows[b].borrower).covers && LinkedCovers(m.links, b) == LinkedCovers(s.links, b)
            && forall c :: c in ActiveLinks(s.links, b) ==> InStockAt(s.covers, s.borrows[b].lender, c)
  {
    ActivateFacts(s, b, a, true);
    hide OpenOn;
  }

  lemma ReturnedCovers(m: Ledger, b: BorrowId, x: Actor)
    requires Return(m, b, x, true).1 == Done
    ensures b in m.borrows
    ensures Return(m, b, x, true).0.covers == Relocated(m, LinkedCovers(m.links, b), m.borrows[b].lender).covers
  {
    ReturnFacts(m, b, x, true);
    hide Return, PlannedCount, InStockCount;
  }

  lemma ThereAndBack(s: Ledger, m: Ledger, b: BorrowId, t: Ledger)
    requires b in s.borrows && b in m.borrows && m.borrows[b].lender == s.borrows[b].lender
    requires m.covers == Relocated(s, ActiveLinks(s.links, b), s.borrows[b].borrower).covers
    requires t.covers == Relocated(m, LinkedCovers(m.links, b), m.borrows[b].lender).covers
    requires LinkedCovers(m.links, b) == LinkedCovers(s.links, b) == ActiveLinks(s.links, b)
    requires forall c :: c in ActiveLinks(s.links, b) ==> InStockAt(s.covers, s.borrows[b].lender, c)
    ensures t.covers == s.covers
  {
  }
}
