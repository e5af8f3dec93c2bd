/** The borrow service's transactions as the code runs them, against their specification. */
module BorrowService {
  import opened Collections
  import opened Stock
  import opened Database
  import Borrows
  import Progress

  // ----- loops over covers -----

  /** Covers cs have been moved to o, all others are as they were. */
  ghost predicate MovedSoFar(s: Ledger, cs: set<CoverId>, o: OfficeId, covers: Covers)
  {
    covers.Keys == s.covers.Keys && forall c :: c in s.covers ==> covers[c] == if c in cs then s.covers[c].(current := o) else s.covers[c]
  }

  lemma MoveNext(s: Ledger, cs: set<CoverId>, o: OfficeId, covers: Covers, c: CoverId)
    requires MovedSoFar(s, cs, o, covers) && c !in cs && c in s.covers
    ensures c in covers && covers[c] == s.covers[c]
    ensures MovedSoFar(s, cs + {c}, o, covers[c := s.covers[c].(current := o)])
  {
  }

  lemma MovedAll(s: Ledger, cs: set<CoverId>, o: OfficeId, covers: Covers)
    requires MovedSoFar(s, cs, o, covers)
    ensures s.(covers := covers) == Borrows.Relocated(s, cs, o)
  {
    assert covers == Borrows.Relocated(s, cs, o).covers;
  }

  lemma NoneMoved(s: Ledger, ids: seq<CoverId>, o: OfficeId)
    ensures MovedSoFar(s, Firsts(ids, 0), o, s.covers)
  {
  }

  /** Reservations of the first covers of a new borrow have been inserted. */
  ghost predicate ReservedSoFar(s: Ledger, b: BorrowId, cs: set<CoverId>, links: Links)
  {
    && (forall k :: k in links <==> k in s.links || (k.0 == b && k.1 in cs))
    && (forall k :: k in links ==> links[k] == if k in s.links then s.links[k] else false)
  }

  lemma ReserveNext(s: Ledger, b: BorrowId, cs: set<CoverId>, links: Links, c: CoverId)
    requires ReservedSoFar(s, b, cs, links) && c !in cs && (forall k :: k in s.links ==> k.0 != b)
    ensures (b, c) !in links
    ensures ReservedSoFar(s, b, cs + {c}, links[(b, c) := false])
  {
    assert (b, c).0 == b;
    forall k: (BorrowId, CoverId) | k.0 == b && k.1 == c ensures k == (b, c) {}
  }

  lemma ReservedAll(s: Ledger, b: BorrowId, cs: set<CoverId>, links: Links)
    requires ReservedSoFar(s, b, cs, links) && (forall k :: k in s.links ==> k.0 != b)
    ensures links == s.links + Borrows.NewLinks(b, cs)
  {
  }

  /** The overdue job has marked the loans in done. */
  ghost predicate MarkedSoFar(s: Ledger, done: set<BorrowId>, borrows: Borrowings, audit: Audits)
  {
    && borrows.Keys == s.borrows.Keys && audit.Keys == s.audit.Keys + done
    && (forall b :: b in s.borrows ==> borrows[b] == if b in done then s.borrows[b].(status := Overdue) else s.borrows[b])
    && (forall b :: b in audit ==> audit[b] == if b in done then Log(s.audit, b) + [Borrows.OVERDUE_EVENT] else s.audit[b])
  }

  lemma MarkNext(s: Ledger, done: set<BorrowId>, borrows: Borrowings, audit: Audits, b: BorrowId)
    requires MarkedSoFar(s, done, borrows, audit) && b !in done && b in s.borrows
    ensures b in borrows && borrows[b] == s.borrows[b]
    ensures MarkedSoFar(s, done + {b}, borrows[b := s.borrows[b].(status := Overdue)],
          audit[b := Log(audit, b) + [Borrows.OVERDUE_EVENT]])
  {
    assert Log(audit, b) == Log(s.audit, b);
  }

  lemma MarkedAll(s: Ledger, done: set<BorrowId>, borrows: Borrowings, audit: Audits, now: int)
    requires MarkedSoFar(s, done, borrows, audit) && forall b :: b in done ==> b in s.borrows && Borrows.IsDue(s.borrows[b], now)
    ensures (s.(borrows := borrows, audit := audit), Done) == Borrows.MarkOverdue(s, done, now)
  {
    assert borrows == Borrows.MarkOverdue(s, done, now).0.borrows;
    assert audit == Borrows.MarkOverdue(s, done, now).0.audit;
  }

  lemma NoneMarked(s: Ledger, ids: seq<BorrowId>)
    ensures MarkedSoFar(s, Firsts(ids, 0), s.borrows, s.audit)
  {
    assert Firsts(ids, 0) == {};
  }

  lemma NoneReserved(s: Ledger, b: BorrowId, ids: seq<CoverId>)
    ensures ReservedSoFar(s, b, Firsts(ids, 0), s.links)
  {
    assert Firsts(ids, 0) == {};
  }

  lemma MovedFields(s: Ledger, t: Ledger, b: BorrowId, action: BorrowAction, to: BorrowStatus)
    requires b in s.borrows
    requires t == s.(borrows := s.borrows[b := s.borrows[b].(status := to)],
                     audit := s.audit[b := Log(s.audit, b) + [AuditEvent(action, Some(s.borrows[b].status), to)]])
    ensures t == Borrows.Moved(s, b, action, to)
  {
  }

  class BorrowService {
    const db: Database

    constructor (db: Database)
      ensures this.db == db
    {
      this.db := db;
    }

    // ----- requests -----

    /** Selects the least eligible covers under the lender's planning lock, rechecks each, and
        reserves exactly those. */
    method Create(id: BorrowId, a: Actor, env: Borrows.Lookups, r: Borrows.Request) returns (v: Verdict)
      modifies db
      ensures (db.View(), v) == Borrows.CreateBorrow(old(db.View()), id, a, env, r, Progress.Chosen(old(db.View()), r))
    {
      hide BorrowableCapacity, Progress.Selection, EligibleAt, Borrows.NewLinks, Borrows.ValidClaims;
      var s := db.View();
      if !Borrows.ValidClaims(a) || (a.role != Exec && a.role != Tech) || a.office.None? {
        return Refused(Forbidden);
      }
      if r.lender == "" || r.lender == a.office.value || r.qty < 1 || r.returnDate <= r.now {
        return Refused(Validation);
      }
      if !env.actorActive {
        return Refused(Forbidden);
      }
      if !env.lenderExists {
        return Refused(Validation);
      }
      if r.qty > BorrowableCapacity(s, r.lender) {
        return Refused(InsufficientStock);
      }
      var ids := Progress.Selection(s, r.lender, r.qty);
      SeqSetSize(ids);
      if |ids| != r.qty {
        return Refused(InsufficientStock);
      }
      var eligible := Recheck(ids, r.lender);
      if !eligible {
        return Refused(Conflict);
      }
      if id in db.borrows || exists k :: k in db.links && k.0 == id {
        return Refused(DuplicateKey);
      }
      db.borrows := db.borrows[id := Borrow(a.office.value, r.lender, Requested, r.qty, r.returnDate, a.id)];
      Reserve(id, ids);
      db.InsertAudit(id, AuditEvent(CreateAction, None, Requested));
      if !env.borrowerNamed {
        db.Rollback(s);
        return Refused(Validation);
      }
      FirstsAll(ids);
      assert Firsts(ids, |ids|) == Progress.Chosen(s, r);
      v := Done;
    }

    /** The exact covers the query locked, checked once more one by one. */
    method Recheck(ids: seq<CoverId>, lender: OfficeId) returns (ok: bool)
      ensures ok <==> forall c :: c in ids ==> EligibleAt(db.View(), lender, c)
    {
      for i := 0 to |ids|
        invariant forall c :: c in ids[..i] ==> EligibleAt(db.View(), lender, c)
      {
        var c := ids[i];
        if c !in db.covers || db.covers[c].status != InStock || db.covers[c].owner != lender || db.covers[c].current != lender
           || OpenOn(db.installs, c) || ReservedOn(db.links, c)
        {
          assert !EligibleAt(db.View(), lender, c);
          return false;
        }
      }
      ok := true;
    }

    /** Inserts one unreleased reservation per cover. */
    method Reserve(b: BorrowId, ids: seq<CoverId>)
      requires Distinct(ids) && forall k :: k in db.links ==> k.0 != b
      modifies db`links
      ensures db.links == old(db.links) + Borrows.NewLinks(b, Firsts(ids, |ids|))
    {
      ghost var s := db.View();
      NoneReserved(s, b, ids);
      for i := 0 to |ids|
        invariant ReservedSoFar(s, b, Firsts(ids, i), db.links)
      {
        FirstsGrow(ids, i);
        ReserveNext(s, b, Firsts(ids, i), db.links, ids[i]);
        hide *;
        db.links := db.links[(b, ids[i]) := false];
      }
      ReservedAll(s, b, Firsts(ids, |ids|), db.links);
    }

    // ----- answers -----

    /** Approval and rejection: one guarded status change by the lender's executive. */
    method ChangeSimpleState(b: BorrowId, a: Actor, active: bool, action: BorrowAction, from: BorrowStatus,
          to: BorrowStatus, release: bool) returns (v: Verdict)
      modifies db
      ensures v == if !Borrows.ValidClaims(a) || !active then Refused(Forbidden)
                   else if b !in old(db.borrows) then Refused(NotFound)
                   else if !Borrows.IsExecOf(a, old(db.borrows)[b].lender) then Refused(Forbidden)
                   else if old(db.borrows)[b].status != from || !BorrowMayMove(from, to) then Refused(StateInvalid)
                   else if release && |ActiveLinks(old(db.links), b)| != old(db.borrows)[b].qty then Refused(Conflict)
                   else Done
      ensures v == Done && release ==> db.View() == Borrows.Moved(Borrows.Released(old(db.View()), b), b, action, to)
      ensures v == Done && !release ==> db.View() == Borrows.Moved(old(db.View()), b, action, to)
      ensures v != Done ==> db.View() == old(db.View())
    {
      hide Borrows.ValidClaims, Borrows.ReleasedLinks, Borrows.Moved, Borrows.IsExecOf, BorrowMayMove, Log, ActiveLinks;
      var s := db.View();
      if !Borrows.ValidClaims(a) || !active {
        return Refused(Forbidden);
      }
      if b !in db.borrows {
        return Refused(NotFound);
      }
      var row := db.borrows[b];
      if !Borrows.IsExecOf(a, row.lender) {
        return Refused(Forbidden);
      }
      if row.status != from || !BorrowMayMove(from, to) {
        return Refused(StateInvalid);
      }
      if release {
        var released := db.ReleaseReservations(b, row.qty);
        if !released {
          db.Rollback(s);
          return Refused(Conflict);
        }
      }
      var ok := db.SetBorrowStatus(b, from, to);
      db.InsertAudit(b, AuditEvent(action, Some(from), to));
      MovedFields(if release then Borrows.Released(s, b) else s, db.View(), b, action, to);
      v := Done;
    }

    method Approve(b: BorrowId, a: Actor, active: bool) returns (v: Verdict)
      modifies db
      ensures (db.View(), v) == Borrows.Approve(old(db.View()), b, a, active)
    {
      hide Borrows.ValidClaims, Borrows.Moved, Borrows.ReleasedLinks, ActiveLinks;
      v := ChangeSimpleState(b, a, active, ApproveAction, Requested, Approved, false);
    }

    method Reject(b: BorrowId, a: Actor, active: bool) returns (v: Verdict)
      modifies db
      ensures (db.View(), v) == Borrows.Reject(old(db.View()), b, a, active)
    {
      hide Borrows.ValidClaims, Borrows.Moved, Borrows.Released, ActiveLinks;
      v := ChangeSimpleState(b, a, active, RejectAction, Requested, Rejected, true);
    }

    method Cancel(b: BorrowId, a: Actor, active: bool) returns (v: Verdict)
      modifies db
      ensures (db.View(), v) == Borrows.CancelBorrow(old(db.View()), b, a, active)
    {
      hide Borrows.ValidClaims, Borrows.ReleasedLinks, ActiveLinks;
      var s := db.View();
      if !Borrows.ValidClaims(a) || a.role == Admin || !active {
        return Refused(Forbidden);
      }
      if b !in db.borrows {
        return Refused(NotFound);
      }
      var row := db.borrows[b];
      if !Borrows.MayCancel(a, row) {
        return Refused(Forbidden);
      }
      if row.status != Requested && row.status != Approved {
        return Refused(StateInvalid);
      }
      var released := db.ReleaseReservations(b, row.qty);
      if !released {
        db.Rollback(s);
        return Refused(Conflict);
      }
      var ok := db.SetBorrowStatus(b, row.status, BorrowStatus.Cancelled);
      db.InsertAudit(b, AuditEvent(CancelAction, Some(row.status), BorrowStatus.Cancelled));
      v := Done;
    }

    // ----- handing over and back -----

    /** Moves every cover with a guarded update; no update misses its row. */
    method MoveCovers(s: Ledger, ids: seq<CoverId>, from: OfficeId, to: OfficeId)
      requires db.View() == s && Distinct(ids)
      requires forall c :: c in ids ==> InStockAt(s.covers, from, c)
      modifies db`covers
      ensures db.View() == Borrows.Relocated(s, Firsts(ids, |ids|), to)
    {
      NoneMoved(s, ids, to);
      for i := 0 to |ids|
        invariant MovedSoFar(s, Firsts(ids, i), to, db.covers)
        invariant db.View() == s.(covers := db.covers)
      {
        FirstsGrow(ids, i);
        assert InStockAt(s.covers, from, ids[i]);
        MoveNext(s, Firsts(ids, i), to, db.covers, ids[i]);
        hide MovedSoFar, Firsts, Distinct;
        var ok := db.MoveCover(ids[i], from, to);
        assert ok;
      }
      MovedAll(s, Firsts(ids, |ids|), to, db.covers);
    }

    /** All reserved covers are at the lender and unclaimed. */
    method VerifyHandover(row: Borrow, ids: seq<CoverId>) returns (ok: bool)
      ensures ok <==> forall c :: c in ids ==> Borrows.AvailableAtLender(db.View(), row, c)
    {
      for i := 0 to |ids|
        invariant forall c :: c in ids[..i] ==> Borrows.AvailableAtLender(db.View(), row, c)
      {
        var c := ids[i];
        if c !in db.covers || db.covers[c].status != InStock || db.covers[c].owner != row.lender || db.covers[c].current != row.lender
           || OpenOn(db.installs, c)
        {
          assert !Borrows.AvailableAtLender(db.View(), row, c);
          return false;
        }
      }
      ok := true;
    }

    method Activate(b: BorrowId, a: Actor, active: bool) returns (v: Verdict)
      modifies db
      ensures (db.View(), v) == Borrows.Activate(old(db.View()), b, a, active)
    {
      hide Borrows.ValidClaims, Borrows.ReleasedLinks, Borrows.AvailableAtLender, Borrows.MayHandOver;
      var s := db.View();
      if !Borrows.ValidClaims(a) || !active {
        return Refused(Forbidden);
      }
      if b !in db.borrows {
        return Refused(NotFound);
      }
      var row := db.borrows[b];
      if !Borrows.MayHandOver(a, row) {
        return Refused(Forbidden);
      }
      if row.status != Approved {
        return Refused(StateInvalid);
      }
      StrOrder();
      var ids := SortSet(ActiveLinks(db.links, b), StrLeq);
      if |ids| != row.qty {
        return Refused(Conflict);
      }
      var available := VerifyHandover(row, ids);
      if !available {
        return Refused(Conflict);
      }
      HandOver(s, b, row, ids);
      v := Done;
    }

    method HandOver(s: Ledger, b: BorrowId, row: Borrow, ids: seq<CoverId>)
      requires db.View() == s && b in s.borrows && row == s.borrows[b] && row.status == Approved && Distinct(ids)
      requires forall c :: c in ids <==> c in ActiveLinks(s.links, b)
      requires |ids| == |ActiveLinks(s.links, b)| == row.qty
      requires forall c :: c in ids ==> Borrows.AvailableAtLender(s, row, c)
      modifies db
      ensures db.View() == Borrows.Moved(Borrows.Released(Borrows.Relocated(s, ActiveLinks(s.links, b), row.borrower), b), b, ActivateAction, OnLoan)
    {
      forall c | c in ids ensures InStockAt(s.covers, row.lender, c) {}
      FirstsAll(ids);
      assert Firsts(ids, |ids|) == ActiveLinks(s.links, b);
      hide Borrows.AvailableAtLender, ActiveLinks, Firsts, Borrows.ReleasedLinks, InStockAt;
      MoveCovers(s, ids, row.lender, row.borrower);
      var released := db.ReleaseReservations(b, row.qty);
      var ok := db.SetBorrowStatus(b, Approved, OnLoan);
      db.InsertAudit(b, AuditEvent(ActivateAction, Some(Approved), OnLoan));
    }

    /** Inspects the covers in order and stops at the first that cannot come back. */
    method VerifyReturn(row: Borrow, ids: seq<CoverId>) returns (v: Verdict)
      ensures v == Borrows.InspectReturn(db.View(), row, ids)
      ensures v == Done ==> forall c :: c in ids ==> InStockAt(db.covers, row.borrower, c)
    {
      for i := 0 to |ids|
        invariant Borrows.InspectReturn(db.View(), row, ids) == Borrows.InspectReturn(db.View(), row, ids[i..])
        invariant forall c :: c in ids[..i] ==> InStockAt(db.covers, row.borrower, c)
      {
        var c := ids[i];
        if c !in db.covers {
          return Refused(Conflict);
        }
        if db.covers[c].status == Installed || OpenOn(db.installs, c) {
          return Blocked;
        }
        if db.covers[c].status != InStock || db.covers[c].owner != row.lender || db.covers[c].current != row.borrower {
          return Refused(Conflict);
        }
      }
      v := Done;
    }

    /** Brings every cover home, or, when one is still installed, moves none and marks the loan overdue. */
    method Return(b: BorrowId, a: Actor, active: bool) returns (v: Verdict)
      modifies db
      ensures (db.View(), v) == Borrows.Return(old(db.View()), b, a, active)
    {
      hide Borrows.ValidClaims, Borrows.MayHandOver, Borrows.InspectReturn, Borrows.Moved, Borrows.Relocated;
      hide Borrows.RecordShortfall, InStockAt;
      var s := db.View();
      if !Borrows.ValidClaims(a) || !active {
        return Refused(Forbidden);
      }
      if b !in db.borrows {
        return Refused(NotFound);
      }
      var row := db.borrows[b];
      if !Borrows.MayHandOver(a, row) {
        return Refused(Forbidden);
      }
      if row.status != OnLoan && row.status != Overdue {
        return Refused(StateInvalid);
      }
      var ids := Borrows.LinkRows(s, b);
      hide Borrows.LinkRows;
      if |ids| != row.qty {
        return Refused(Conflict);
      }
      v := VerifyReturn(row, ids);
      if v == Blocked {
        if row.status == OnLoan {
          MarkOneOverdue(b);
        }
      } else if v == Done {
        TakeBack(s, b, row, ids);
      }
    }

    method MarkOneOverdue(b: BorrowId)
      requires b in db.borrows && db.borrows[b].status == OnLoan
      modifies db
      ensures db.View() == Borrows.Moved(old(db.View()), b, OverdueAction, Overdue)
    {
      var ok := db.SetBorrowStatus(b, OnLoan, Overdue);
      db.InsertAudit(b, Borrows.OVERDUE_EVENT);
    }

    method TakeBack(s: Ledger, b: BorrowId, row: Borrow, ids: seq<CoverId>)
      requires db.View() == s && b in s.borrows && row == s.borrows[b] && Distinct(ids)
      requires forall c :: c in ids <==> c in LinkedCovers(s.links, b)
      requires forall c :: c in ids ==> InStockAt(s.covers, row.borrower, c)
      modifies db
      ensures db.View() == Borrows.Moved(Borrows.RecordShortfall(Borrows.Relocated(s, LinkedCovers(s.links, b), row.lender), b, row.borrower), b, ReturnAction, Returned)
    {
      FirstsAll(ids);
      assert Firsts(ids, |ids|) == LinkedCovers(s.links, b);
      hide LinkedCovers, Firsts, InStockAt, Distinct, PlannedCount, InStockCount;
      MoveCovers(s, ids, row.borrower, row.lender);
      RecordCapacityShortfall(b, row.borrower);
      var ok := db.SetBorrowStatus(b, row.status, Returned);
      db.InsertAudit(b, AuditEvent(ReturnAction, Some(row.status), Returned));
    }

    /** One report at most per borrow, when what the office still has in stock no longer covers its plans. */
    method RecordCapacityShortfall(b: BorrowId, o: OfficeId)
      modifies db`shortfalls
      ensures db.View() == Borrows.RecordShortfall(old(db.View()), b, o)
    {
      var remaining := InStockCount(db.View(), o);
      var planned := PlannedCount(db.View(), o);
      if planned <= remaining || b in db.shortfalls {
        return;
      }
      db.shortfalls := db.shortfalls[b := Shortfall(o, planned, remaining)];
    }

    // ----- the overdue job -----

    /** Marks every loan that is due; running it on any state leaves none due. */
    method MarkOverdue(now: int)
      modifies db
      ensures db.View() == Borrows.MarkOverdue(old(db.View()), Borrows.DueBorrows(old(db.View()), now), now).0
    {
      ghost var s := db.View();
      StrOrder();
      var rows := SortSet(Borrows.DueBorrows(db.View(), now), StrLeq);
      NoneMarked(s, rows);
      FirstsAll(rows);
      for i := 0 to |rows|
        invariant MarkedSoFar(s, Firsts(rows, i), db.borrows, db.audit)
        invariant db.View() == s.(borrows := db.borrows, audit := db.audit)
      {
        FirstsGrow(rows, i);
        assert rows[i] in Borrows.DueBorrows(s, now);
        MarkNext(s, Firsts(rows, i), db.borrows, db.audit, rows[i]);
        hide MarkedSoFar, Firsts, Distinct;
        MarkOneOverdue(rows[i]);
      }
      assert Firsts(rows, |rows|) == Borrows.DueBorrows(s, now);
      MarkedAll(s, Borrows.DueBorrows(s, now), db.borrows, db.audit, now);
    }
  }
}
