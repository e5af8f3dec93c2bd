/** The work-order service's transactions as the code runs them, against their specification. */
module WorkOrderService {
  import opened Collections
  import opened Stock
  import opened Database
  import opened Transactions
  import opened Evidence
  import EvidenceKeys
  import WorkOrders

  /** The covers whose commit the loop of a submission has already written. */
  ghost predicate CommittedSoFar(s: Ledger, w: OrderId, done: set<CoverId>, covers: Covers, installs: Installs)
  {
    && covers.Keys == s.covers.Keys && installs.Keys == s.installs.Keys
    && (forall c :: c in s.covers ==> covers[c] == if c in done then s.covers[c].(status := Installed) else s.covers[c])
    && (forall k :: k in s.installs ==> installs[k] == if k.0 == w && k.1 in done then s.installs[k].(installed := true) else s.installs[k])
  }

  lemma CommittedAll(s: Ledger, w: OrderId, done: set<CoverId>, covers: Covers, installs: Installs)
    requires CommittedSoFar(s, w, done, covers, installs) && done == InstalledCovers(s.installs, w)
    ensures covers == WorkOrders.SubmittedCovers(s, w) && installs == WorkOrders.SubmittedInstalls(s, w)
  {
    forall k | k in s.installs && k.0 == w ensures k.1 in done { assert k == (w, k.1); }
  }

  lemma DraftsReady(s: Ledger, w: OrderId, ids: seq<CoverId>)
    requires w in s.orders && forall c :: c in ids ==> c in InstalledCovers(s.installs, w) && WorkOrders.ReadyToInstall(s, w, c)
    ensures forall c :: c in ids ==> (w, c) in s.installs && c in s.covers && s.covers[c].status == InStock
  {
    hide WorkOrders.LiveElsewhere, ReservedOn;
  }

  lemma NothingYet(s: Ledger, w: OrderId, ids: seq<CoverId>)
    ensures CommittedSoFar(s, w, Firsts(ids, 0), s.covers, s.installs)
  {
  }

  /** The next row of the commit loop is still as the checks found it. */
  lemma CommitNext(s: Ledger, w: OrderId, done: set<CoverId>, covers: Covers, installs: Installs, c: CoverId)
    requires CommittedSoFar(s, w, done, covers, installs) && c !in done && (w, c) in s.installs && c in s.covers
    ensures (w, c) in installs && installs[(w, c)] == s.installs[(w, c)] && c in covers && covers[c] == s.covers[c]
    ensures CommittedSoFar(s, w, done + {c}, covers[c := s.covers[c].(status := Installed)],
          installs[(w, c) := s.installs[(w, c)].(installed := true)])
  {
    assert (w, c).0 == w && (w, c).1 == c;
    forall k | k in s.installs && k.0 == w && k.1 == c ensures k == (w, c) {}
  }

  predicate PastDue(orders: Orders, w: OrderId, now: int)
  {
    w in orders && orders[w].status == Active && orders[w].removalDate <= now
  }

  /** A candidate that the removal-due job finds due. */
  predicate Found(orders: Orders, ids: seq<OrderId>, w: OrderId, now: int)
  {
    w in ids && w != "" && PastDue(orders, w, now)
  }

  /** The orders once the job has tried these candidates: those found due have moved, save those
      whose notifications failed. */
  ghost predicate DueMoved(orders: Orders, ids: seq<OrderId>, unnotified: set<OrderId>, now: int, after: Orders)
  {
    && after.Keys == orders.Keys
    && forall w :: w in orders ==>
         after[w] == if Found(orders, ids, w, now) && w !in unnotified then orders[w].(status := RemovalDue) else orders[w]
  }

  lemma DueMovedNext(orders: Orders, ids: seq<OrderId>, unnotified: set<OrderId>, now: int, x: Orders, w: OrderId, y: Orders)
    requires DueMoved(orders, ids, unnotified, now, x)
    requires y == if w != "" && w !in unnotified && PastDue(x, w, now) then x[w := x[w].(status := RemovalDue)] else x
    ensures DueMoved(orders, ids + [w], unnotified, now, y)
    ensures w in unnotified ==> PastDue(x, w, now) == PastDue(orders, w, now)
  {
  }

  class WorkOrderService {
    const db: Database

    constructor (db: Database)
      ensures this.db == db
    {
      this.db := db;
    }

    // ----- planning -----

    method Create(id: OrderId, office: OfficeId, p: WorkOrders.Planning, assignee: Option<UserId>, assigneeOk: bool)
      returns (v: Verdict)
      modifies db
      ensures (db.View(), v) == WorkOrders.CreateOrder(old(db.View()), id, office, p, assignee, assigneeOk)
    {
      hide Available;
      if !WorkOrders.ValidPlanning(p) {
        return Refused(Validation);
      }
      if p.qty.value > Available(db.View(), office, None) {
        return Refused(InsufficientStock);
      }
      if assignee.Some? && !assigneeOk {
        return Refused(Validation);
      }
      if id in db.orders {
        return Refused(DuplicateKey);
      }
      db.orders := db.orders[id := WorkOrder(office, Scheduled, p.qty.value, p.installDate.value, p.removalDate.value, assignee)];
      v := Done;
    }

    method UpdateScheduled(w: OrderId, p: WorkOrders.Patch, assigneeOk: bool) returns (v: Verdict)
      modifies db
      ensures (db.View(), v) == WorkOrders.UpdateScheduled(old(db.View()), w, p, assigneeOk)
    {
      hide Available;
      if w !in db.orders {
        return Refused(NotFound);
      }
      var row := db.orders[w];
      if row.status != Scheduled {
        return Refused(StateInvalid);
      }
      var plan := WorkOrders.Merged(row, p);
      if !WorkOrders.ValidPlanning(plan) {
        return Refused(Validation);
      }
      if p.setAssignee {
        if p.assignee.Some? && !assigneeOk {
          return Refused(Validation);
        }
        row := row.(assignee := p.assignee);
      }
      if plan.qty.value > Available(db.View(), row.office, Some(w)) {
        return Refused(InsufficientStock);
      }
      row := row.(planned := plan.qty.value, installDate := plan.installDate.value, removalDate := plan.removalDate.value);
      db.orders := db.orders[w := row];
      v := Done;
    }

    method Assign(w: OrderId, technician: UserId, ok: bool) returns (v: Verdict)
      modifies db
      ensures (db.View(), v) == WorkOrders.Assign(old(db.View()), w, technician, ok)
    {
      if w !in db.orders {
        return Refused(NotFound);
      }
      if !CanAssign(db.orders[w].status) {
        return Refused(StateInvalid);
      }
      if !ok {
        return Refused(Validation);
      }
      db.orders := db.orders[w := db.orders[w].(assignee := Some(technician))];
      v := Done;
    }

    method Cancel(w: OrderId) returns (v: Verdict)
      modifies db
      ensures (db.View(), v) == WorkOrders.CancelOrder(old(db.View()), w)
    {
      if w !in db.orders {
        return Refused(NotFound);
      }
      if !OrderMayMove(db.orders[w].status, OrderStatus.Cancelled) {
        return Refused(StateInvalid);
      }
      db.installs := map k | k in db.installs && !(k.0 == w && !db.installs[k].installed) :: db.installs[k];
      var ok := db.SetOrderStatus(w, {db.orders[w].status}, OrderStatus.Cancelled);
      v := Done;
    }

    // ----- drafts -----

    method ScanInstall(a: Actor, w: OrderId, c: CoverId) returns (v: Verdict)
      modifies db
      ensures (db.View(), v) == WorkOrders.ScanInstall(old(db.View()), a, w, c)
    {
      hide WorkOrders.OpenElsewhere, ReservedOn, WorkOrders.MayWorkOn;
      var refusal := WorkOrders.FieldRefusal(db.View(), a, w, {Scheduled});
      if refusal.Some? {
        return Refused(refusal.value);
      }
      if c !in db.covers || db.covers[c].status != InStock || db.covers[c].current != db.orders[w].office {
        return Refused(Conflict);
      }
      if (w, c) in db.installs {
        return Done;
      }
      if WorkOrders.OpenElsewhere(db.installs, w, c) || ReservedOn(db.links, c) {
        return Refused(Conflict);
      }
      db.installs := db.installs[(w, c) := WorkOrders.DRAFT];
      v := Done;
    }

    method UnscanInstall(a: Actor, w: OrderId, c: CoverId) returns (v: Verdict)
      modifies db
      ensures (db.View(), v) == WorkOrders.UnscanInstall(old(db.View()), a, w, c)
    {
      hide WorkOrders.MayWorkOn;
      var refusal := WorkOrders.FieldRefusal(db.View(), a, w, {Scheduled});
      if refusal.Some? {
        return Refused(refusal.value);
      }
      if (w, c) in db.installs && !db.installs[(w, c)].installed {
        db.installs := db.installs - {(w, c)};
      }
      v := Done;
    }

    // ----- removal -----

    method StartRemoval(a: Actor, w: OrderId) returns (v: Verdict)
      modifies db
      ensures (db.View(), v) == WorkOrders.StartRemoval(old(db.View()), a, w)
    {
      hide WorkOrders.MayWorkOn;
      var refusal := WorkOrders.FieldRefusal(db.View(), a, w, {Active, RemovalDue});
      if refusal.Some? {
        return Refused(refusal.value);
      }
      var ok := db.SetOrderStatus(w, {Active, RemovalDue}, Removing);
      v := if ok then Done else Refused(StateInvalid);
    }

    method ScanRemove(a: Actor, w: OrderId, c: CoverId) returns (v: Verdict)
      modifies db
      ensures (db.View(), v) == WorkOrders.ScanRemove(old(db.View()), a, w, c)
    {
      hide WorkOrders.MayWorkOn;
      var saved := db.View();
      var refusal := WorkOrders.FieldRefusal(saved, a, w, {Removing});
      if refusal.Some? {
        return Refused(refusal.value);
      }
      if c !in db.covers || (w, c) !in db.installs || !db.installs[(w, c)].installed {
        return Refused(Conflict);
      }
      if db.installs[(w, c)].removed {
        return Done;
      }
      if db.covers[c].status != Installed || db.covers[c].current != db.orders[w].office {
        return Refused(Conflict);
      }
      db.SetInstallation((w, c), db.installs[(w, c)].(removed := true));
      var ok := db.SetCoverStatus(c, Installed, InStock);
      v := Done;
    }

    /** Completion, whatever order the query lists the rows in. */
    method CompleteRemoval(a: Actor, w: OrderId) returns (v: Verdict)
      modifies db
      ensures exists rows :: WorkOrders.ListsInstallations(old(db.View()), w, rows) &&
                             (db.View(), v) == WorkOrders.CompletedIn(old(db.View()), a, w, rows)
    {
      hide WorkOrders.MayWorkOn;
      var s := db.View();
      var refusal := WorkOrders.FieldRefusal(s, a, w, {Removing});
      if refusal.Some? {
        assert WorkOrders.ListsInstallations(s, w, WorkOrders.InstallationRows(s, w));
        return Refused(refusal.value);
      }
      var rows := db.ListInstallations(w);
      assert WorkOrders.ListsInstallations(s, w, rows);
      hide WorkOrders.ListsInstallations, WorkOrders.RemovalRefusal;
      if |rows| == 0 {
        return Refused(StateInvalid);
      }
      var objection := CheckRemovals(w, rows);
      if objection.Some? {
        return Refused(objection.value);
      }
      var ok := db.SetOrderStatus(w, {Removing}, Completed);
      v := Done;
    }

    /** The first row that is not removed or not photographed decides. */
    method CheckRemovals(w: OrderId, rows: seq<CoverId>) returns (objection: Option<Error>)
      requires forall c :: c in rows ==> (w, c) in db.installs
      ensures objection == WorkOrders.RemovalRefusal(db.View(), w, rows)
    {
      for i := 0 to |rows|
        invariant WorkOrders.RemovalRefusal(db.View(), w, rows) == WorkOrders.RemovalRefusal(db.View(), w, rows[i..])
      {
        var row := db.installs[(w, rows[i])];
        if !row.installed || !row.removed {
          return Some(StateInvalid);
        }
        if row.removePhoto != Some(Photo(RemovePhoto, w, rows[i])) {
          return Some(EvidenceRequired);
        }
      }
      objection := None;
    }

    // ----- evidence -----

    /** What other sessions commit while this one holds no lock. */
    method Meanwhile(others: seq<Op>)
      modifies db
      ensures db.View() == After(old(db.View()), others)
    {
      hide Step;
      for i := 0 to |others|
        invariant After(db.View(), others[i..]) == After(old(db.View()), others)
      {
        assert others[i..][0] == others[i] && others[i..][1..] == others[i + 1..];
        db.Rollback(Step(db.View(), others[i]).0);
      }
    }

    /** Checks in one transaction, asks storage with no locks held, while other sessions commit
        `others`, and checks again in the transaction that writes. Malformed identifiers, a key
        of another relation, missing storage and an actor that the first check refuses end the
        call before storage is asked. */
    method AttachEvidence(a: Actor, kind: PhotoKind, w: OrderId, c: CoverId, objectKey: string, isToken: string -> bool,
        configured: bool, storage: WorkOrders.StorageAnswer, others: seq<Op>)
      returns (v: Verdict)
      modifies db
      ensures var s := old(db.View());
              if !EvidenceKeys.ValidIdentifier(w) || !EvidenceKeys.ValidIdentifier(c) then db.View() == s && v == Refused(Validation)
              else if EvidenceKeys.Relation(objectKey, isToken) != Some(Photo(kind, w, c)) then db.View() == s && v == Refused(EvidenceInvalid)
              else if !configured then db.View() == s && v == Refused(EvidenceUnavailable)
              else if WorkOrders.EvidenceRefusal(s, a, kind, w, c).Some?
              then db.View() == s && v == Refused(WorkOrders.EvidenceRefusal(s, a, kind, w, c).value)
              else (db.View(), v) == Attached(s, others, a, kind, w, c, Some(Photo(kind, w, c)), storage)
    {
      hide WorkOrders.EvidenceRefusal, Step, EvidenceKeys.ValidIdentifier;
      if !EvidenceKeys.ValidIdentifier(w) || !EvidenceKeys.ValidIdentifier(c) {
        return Refused(Validation);
      }
      EvidenceKeys.RelationIsExact(objectKey, Photo(kind, w, c), isToken);
      hide EvidenceKeys.ValidateObjectKey, EvidenceKeys.Relation;
      if !EvidenceKeys.ValidateObjectKey(objectKey, Photo(kind, w, c), isToken) {
        return Refused(EvidenceInvalid);
      }
      if !configured {
        return Refused(EvidenceUnavailable);
      }
      var early := AuthorizeEvidence(a, kind, w, c);
      if early.Some? {
        return Refused(early.value);
      }
      Meanwhile(others);
      v := PersistEvidence(a, kind, w, c, Some(Photo(kind, w, c)), storage);
    }

    method AuthorizeEvidence(a: Actor, kind: PhotoKind, w: OrderId, c: CoverId) returns (refusal: Option<Error>)
      ensures refusal == WorkOrders.EvidenceRefusal(db.View(), a, kind, w, c)
    {
      if w !in db.orders {
        return Some(NotFound);
      }
      if !WorkOrders.MayWorkOn(a, db.orders[w]) {
        return Some(Forbidden);
      }
      if (w, c) !in db.installs {
        return Some(NotFound);
      }
      var status, row := db.orders[w].status, db.installs[(w, c)];
      if kind == InstallPhoto && (status != Scheduled || row.installed || row.removed) {
        return Some(StateInvalid);
      }
      if kind == RemovePhoto && (status != Removing || !row.installed || !row.removed) {
        return Some(StateInvalid);
      }
      refusal := None;
    }

    /** The second transaction, in whatever state it finds, after storage has answered. */
    method PersistEvidence(a: Actor, kind: PhotoKind, w: OrderId, c: CoverId, key: Option<Photo>,
        storage: WorkOrders.StorageAnswer)
      returns (v: Verdict)
      requires key == Some(Photo(kind, w, c))
      modifies db
      ensures (db.View(), v) == WorkOrders.AttachEvidence(old(db.View()), a, kind, w, c, key, None, storage)
    {
      if storage == WorkOrders.BadObject {
        return Refused(EvidenceInvalid);
      }
      if storage == WorkOrders.Unreachable {
        return Refused(EvidenceUnavailable);
      }
      var refusal := AuthorizeEvidence(a, kind, w, c);
      if refusal.Some? {
        return Refused(refusal.value);
      }
      var row := db.installs[(w, c)];
      if kind == InstallPhoto {
        row := row.(installPhoto := key);
      } else {
        row := row.(removePhoto := key);
      }
      db.SetInstallation((w, c), row);
      v := Done;
    }

    // ----- the removal-due job -----

    /** One order's transaction. A notification that cannot be stored rolls the status back. */
    method MarkRemovalDue(w: OrderId, now: int, notified: bool) returns (ok: bool)
      modifies db
      ensures ok == (notified || !PastDue(old(db.orders), w, now))
      ensures db.View() == if ok then WorkOrders.MarkRemovalDue(old(db.View()), w, now).0 else old(db.View())
    {
      var s := db.View();
      if w !in db.orders || db.orders[w].status != Active || db.orders[w].removalDate > now {
        return true;
      }
      ok := db.SetOrderStatus(w, {Active}, RemovalDue);
      if !notified {
        db.Rollback(s);
        ok := false;
      }
    }

    /** The job runs one transaction per candidate. Afterwards no candidate is still ACTIVE past
        its removal date except those it reports as failures, which the next pass finds again;
        nothing but due ACTIVE orders has moved. */
    method CheckRemovalDue(candidates: seq<OrderId>, now: int, unnotified: set<OrderId>) returns (failures: seq<OrderId>)
      modifies db
      ensures db.View() == old(db.View()).(orders := db.orders)
      ensures DueMoved(old(db.orders), candidates, unnotified, now, db.orders)
      ensures forall w :: w in failures <==> Found(old(db.orders), candidates, w, now) && w in unnotified
      ensures forall w :: w in failures <==> Found(db.orders, candidates, w, now)
    {
      failures := [];
      for i := 0 to |candidates|
        invariant db.View() == old(db.View()).(orders := db.orders)
        invariant DueMoved(old(db.orders), candidates[..i], unnotified, now, db.orders)
        invariant forall w :: w in failures <==> Found(old(db.orders), candidates[..i], w, now) && w in unnotified
      {
        hide DueMoved;
        var w := candidates[i];
        ghost var orders := db.orders;
        assert candidates[..i + 1] == candidates[..i] + [w];
        var ok := true;
        if w != "" {
          ok := MarkRemovalDue(w, now, w !in unnotified);
        }
        if !ok {
          failures := failures + [w];
        }
        DueMovedNext(old(db.orders), candidates[..i], unnotified, now, orders, w, db.orders);
      }
      assert candidates[..|candidates|] == candidates;
    }

    // ----- submission -----

    /** Verify, then commit: the checks read only, and once the commit loop makes its first
        write no later write fails, so either every draft is installed or nothing changes. */
    method SubmitInstall(a: Actor, w: OrderId) returns (v: Verdict)
      modifies db
      ensures (db.View(), v) == WorkOrders.SubmitInstall(old(db.View()), a, w)
    {
      hide CommittedSoFar, WorkOrders.ReadyToInstall, WorkOrders.SubmittedCovers;
      hide WorkOrders.SubmittedInstalls, Available, WorkOrders.MayWorkOn;
      var s := db.View();
      var refusal := WorkOrders.FieldRefusal(s, a, w, {Scheduled});
      if refusal.Some? {
        return Refused(refusal.value);
      }
      var rows := db.ListInstallations(w);
      RowsAre(s, w, rows);
      if |rows| == 0 {
        return Refused(StateInvalid);
      }
      if |rows| > Available(s, s.orders[w].office, Some(w)) {
        return Refused(InsufficientStock);
      }
      var ids, collected := CollectDrafts(w, rows);
      if !collected {
        return Refused(Conflict);
      }
      var verified := VerifyDrafts(w, ids);
      if !verified {
        return Refused(Conflict);
      }
      var photographed := CheckPhotos(w, ids);
      if !photographed {
        return Refused(EvidenceRequired);
      }
      v := CommitInstall(s, w, ids);
    }

    /** The covers of the drafts in lock order, unless a draft is already committed. */
    method CollectDrafts(w: OrderId, rows: seq<CoverId>) returns (ids: seq<CoverId>, ok: bool)
      requires forall c :: c in rows ==> (w, c) in db.installs
      requires forall i, j :: 0 <= i < j < |rows| ==> rows[i] != rows[j]
      ensures ok <==> forall c :: c in rows ==> !db.installs[(w, c)].installed
      ensures ok ==> forall c :: c in ids <==> c in rows
      ensures ok ==> forall i, j :: 0 <= i < j < |ids| ==> ids[i] != ids[j] && StrLeq(ids[i], ids[j])
    {
      ids := [];
      for i := 0 to |rows|
        invariant ids == rows[..i]
        invariant forall c :: c in ids ==> !db.installs[(w, c)].installed
      {
        if db.installs[(w, rows[i])].installed {
          return [], false;
        }
        assert rows[i] !in ids;
        ids := ids + [rows[i]];
      }
      StrOrder();
      ids, ok := SortSet((set c | c in ids), StrLeq), true;
    }

    /** Every cover is in stock at the order's office and nothing else claims it. */
    method VerifyDrafts(w: OrderId, ids: seq<CoverId>) returns (ok: bool)
      requires w in db.orders
      ensures ok <==> forall c :: c in ids ==> WorkOrders.ReadyToInstall(db.View(), w, c)
    {
      for i := 0 to |ids|
        invariant forall c :: c in ids[..i] ==> WorkOrders.ReadyToInstall(db.View(), w, c)
      {
        var c := ids[i];
        if c !in db.covers || db.covers[c].status != InStock || db.covers[c].current != db.orders[w].office {
          assert !WorkOrders.ReadyToInstall(db.View(), w, c);
          return false;
        }
        if WorkOrders.LiveElsewhere(db.installs, w, c) || ReservedOn(db.links, c) {
          assert !WorkOrders.ReadyToInstall(db.View(), w, c);
          return false;
        }
      }
      ok := true;
    }

    method CheckPhotos(w: OrderId, ids: seq<CoverId>) returns (ok: bool)
      requires forall c :: c in ids ==> (w, c) in db.installs
      ensures ok <==> forall c :: c in ids ==> db.installs[(w, c)].installPhoto == Some(Photo(InstallPhoto, w, c))
    {
      for i := 0 to |ids|
        invariant forall c :: c in ids[..i] ==> db.installs[(w, c)].installPhoto == Some(Photo(InstallPhoto, w, c))
      {
        if db.installs[(w, ids[i])].installPhoto != Some(Photo(InstallPhoto, w, ids[i])) {
          return false;
        }
      }
      ok := true;
    }

    /** The commit loop: no guarded update misses its row. */
    method CommitInstall(s: Ledger, w: OrderId, ids: seq<CoverId>) returns (v: Verdict)
      requires db.View() == s && w in s.orders && s.orders[w].status == Scheduled
      requires forall c :: c in ids <==> c in InstalledCovers(s.installs, w)
      requires Distinct(ids)
      requires forall c :: c in ids ==> WorkOrders.ReadyToInstall(s, w, c)
      modifies db
      ensures v == Done
      ensures db.View() == s.(covers := WorkOrders.SubmittedCovers(s, w), installs := WorkOrders.SubmittedInstalls(s, w),
                              orders := s.orders[w := s.orders[w].(status := Active)])
    {
      hide WorkOrders.SubmittedCovers, WorkOrders.SubmittedInstalls, WorkOrders.ReadyToInstall, Firsts;
      hide CommittedSoFar, InstalledCovers, Distinct;
      DraftsReady(s, w, ids);
      FirstsAll(ids);
      NothingYet(s, w, ids);
      for i := 0 to |ids|
        invariant CommittedSoFar(s, w, Firsts(ids, i), db.covers, db.installs)
        invariant db.View() == s.(covers := db.covers, installs := db.installs)
      {
        FirstsGrow(ids, i);
        var ok := CommitDraft(s, w, ids[i], Firsts(ids, i));
      }
      CommittedAll(s, w, Firsts(ids, |ids|), db.covers, db.installs);
      var ok := db.SetOrderStatus(w, {Scheduled}, Active);
      v := Done;
    }

    /** One round of the commit loop; both updates find their row. */
    method CommitDraft(s: Ledger, w: OrderId, c: CoverId, ghost done: set<CoverId>) returns (ok: bool)
      requires CommittedSoFar(s, w, done, db.covers, db.installs)
      requires db.View() == s.(covers := db.covers, installs := db.installs)
      requires c !in done && (w, c) in s.installs && c in s.covers && s.covers[c].status == InStock
      modifies db
      ensures ok
      ensures CommittedSoFar(s, w, done + {c}, db.covers, db.installs)
      ensures db.View() == s.(covers := db.covers, installs := db.installs)
    {
      CommitNext(s, w, done, db.covers, db.installs, c);
      hide CommittedSoFar;
      db.SetInstallation((w, c), db.installs[(w, c)].(installed := true));
      ok := db.SetCoverStatus(c, InStock, Installed);
    }
  }

  lemma RowsAre(s: Ledger, w: OrderId, rows: seq<CoverId>)
    requires forall c :: c in rows <==> (w, c) in s.installs
    requires forall i, j :: 0 <= i < j < |rows| ==> rows[i] != rows[j]
    ensures |rows| == |InstalledCovers(s.installs, w)|
  {
    SeqSetSize(rows);
    assert (set c | c in rows) == InstalledCovers(s.installs, w);
  }
}
