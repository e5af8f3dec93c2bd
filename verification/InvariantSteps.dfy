/** Every transaction keeps the invariant. */
module InvariantSteps {
  import opened Collections
  import opened Stock
  import opened WorkOrders
  import opened Borrows
  import opened Transactions
  import opened Invariants

  // ----- one order row -----

  /** A rewritten or new order row that fits the order's installations. */
  ghost predicate RowFits(s: Ledger, w: OrderId, row: WorkOrder)
  {
    && row.planned >= 1 && row.installDate <= row.removalDate
    && (w in s.orders ==> row.office == s.orders[w].office)
    && (w !in s.orders ==> row.status == Scheduled)
    && (w in s.orders && row.status != s.orders[w].status ==> InstalledCovers(s.installs, w) != {} || row.status == OrderStatus.Cancelled)
    && forall c :: (w, c) in s.installs ==> Shape(row.status, (w, c), s.installs[(w, c)])
  }

  lemma RowTables(s: Ledger, w: OrderId, row: WorkOrder)
    requires RowFits(s, w, row)
    requires ForeignKeys(s.covers, s.orders, s.installs, s.borrows, s.links)
    ensures ForeignKeys(s.covers, s.orders[w := row], s.installs, s.borrows, s.links)
    ensures RowChecks(s.orders, s.borrows) ==> RowChecks(s.orders[w := row], s.borrows)
    ensures Shapes(s.orders, s.installs) ==> Shapes(s.orders[w := row], s.installs)
    ensures NonEmpty(s.orders, s.installs) ==> NonEmpty(s.orders[w := row], s.installs)
    ensures OpenInPlace(s.covers, s.orders, s.installs) ==> OpenInPlace(s.covers, s.orders[w := row], s.installs)
  {
    forall k | k in s.installs && k.0 == w ensures k == (w, k.1) {}
  }

  lemma RowInv(s: Ledger, w: OrderId, row: WorkOrder)
    requires Inv(s) && RowFits(s, w, row)
    ensures Inv(s.(orders := s.orders[w := row]))
  {
    hide *;
    Disassemble(s);
    RowTables(s, w, row);
    Assemble(s.(orders := s.orders[w := row]));
  }

  /** What one installation's shape is, from the invariant. */
  lemma ShapeOf(s: Ledger, w: OrderId)
    requires w in s.orders && Shapes(s.orders, s.installs)
    ensures forall c :: (w, c) in s.installs ==> Shape(s.orders[w].status, (w, c), s.installs[(w, c)])
  {
    forall c | (w, c) in s.installs ensures Shape(s.orders[w].status, (w, c), s.installs[(w, c)]) { assert (w, c).0 == w; }
  }

  lemma NewOrderFits(s: Ledger, w: OrderId, row: WorkOrder)
    requires ForeignKeys(s.covers, s.orders, s.installs, s.borrows, s.links)
    requires w !in s.orders && row.planned >= 1 && row.installDate <= row.removalDate && row.status == Scheduled
    ensures RowFits(s, w, row)
  {
    forall c ensures (w, c) !in s.installs { assert (w, c).0 == w; }
  }

  lemma KeepsCreate(s: Ledger, id: OrderId, office: OfficeId, p: Planning, assignee: Option<UserId>, ok: bool)
    requires Inv(s)
    ensures Inv(CreateOrder(s, id, office, p, assignee, ok).0)
  {
    hide Inv;
    if CreateOrder(s, id, office, p, assignee, ok).1 == Done {
      var row := WorkOrder(office, Scheduled, p.qty.value, p.installDate.value, p.removalDate.value, assignee);
      Disassemble(s);
      NewOrderFits(s, id, row);
      RowInv(s, id, row);
    }
  }

  lemma KeepsUpdate(s: Ledger, w: OrderId, p: Patch, ok: bool)
    requires Inv(s)
    ensures Inv(UpdateScheduled(s, w, p, ok).0)
  {
    hide Inv;
    if UpdateScheduled(s, w, p, ok).1 == Done {
      Disassemble(s);
      ShapeOf(s, w);
      RowInv(s, w, UpdateScheduled(s, w, p, ok).0.orders[w]);
    }
  }

  lemma KeepsAssign(s: Ledger, w: OrderId, t: UserId, ok: bool)
    requires Inv(s)
    ensures Inv(Assign(s, w, t, ok).0)
  {
    hide Inv;
    if Assign(s, w, t, ok).1 == Done {
      Disassemble(s);
      ShapeOf(s, w);
      RowInv(s, w, s.orders[w].(assignee := Some(t)));
    }
  }

  lemma KeepsStart(s: Ledger, a: Actor, w: OrderId)
    requires Inv(s)
    ensures Inv(StartRemoval(s, a, w).0)
  {
    hide Inv;
    if StartRemoval(s, a, w).1 == Done {
      Disassemble(s);
      ShapeOf(s, w);
      RowInv(s, w, s.orders[w].(status := Removing));
    }
  }

  lemma KeepsDue(s: Ledger, w: OrderId, now: int)
    requires Inv(s)
    ensures Inv(MarkRemovalDue(s, w, now).0)
  {
    hide Inv;
    if MarkRemovalDue(s, w, now).0 != s {
      Disassemble(s);
      ShapeOf(s, w);
      RowInv(s, w, s.orders[w].(status := RemovalDue));
    }
  }

  /** A passed completion check has seen every row removed and photographed. */
  lemma {:induction false} RemovedAll(s: Ledger, w: OrderId, rows: seq<CoverId>)
    requires forall c :: c in rows ==> (w, c) in s.installs
    ensures RemovalRefusal(s, w, rows).None? <==>
            forall c :: c in rows ==> s.installs[(w, c)].installed && s.installs[(w, c)].removed
                                      && s.installs[(w, c)].removePhoto == Some(Photo(RemovePhoto, w, c))
  {
    if rows != [] {
      RemovedAll(s, w, rows[1..]);
      assert forall c :: c in rows <==> c == rows[0] || c in rows[1..];
    }
  }

  lemma CompleteFits(s: Ledger, a: Actor, w: OrderId)
    requires CompleteRemoval(s, a, w).1 == Done && RowChecks(s.orders, s.borrows) && Shapes(s.orders, s.installs)
    ensures w in s.orders && RowFits(s, w, s.orders[w].(status := Completed))
    ensures CompleteRemoval(s, a, w).0 == s.(orders := s.orders[w := s.orders[w].(status := Completed)])
  {
    CompleteChecks(s, a, w);
    ShapeOf(s, w);
    hide CompleteRemoval, Shapes, RowChecks;
  }

  /** What completion has checked. */
  lemma CompleteChecks(s: Ledger, a: Actor, w: OrderId)
    requires CompleteRemoval(s, a, w).1 == Done
    ensures w in s.orders && s.orders[w].status == Removing && InstalledCovers(s.installs, w) != {}
    ensures forall c :: (w, c) in s.installs ==> s.installs[(w, c)].installed && s.installs[(w, c)].removed
                                                 && s.installs[(w, c)].removePhoto == Some(Photo(RemovePhoto, w, c))
    ensures CompleteRemoval(s, a, w).0 == s.(orders := s.orders[w := s.orders[w].(status := Completed)])
  {
    RemovedAll(s, w, InstallationRows(s, w));
    hide RemovalRefusal, MayWorkOn;
  }

  lemma KeepsComplete(s: Ledger, a: Actor, w: OrderId)
    requires Inv(s)
    ensures Inv(CompleteRemoval(s, a, w).0)
  {
    if CompleteRemoval(s, a, w).1 == Done {
      hide *;
      Disassemble(s);
      CompleteFits(s, a, w);
      RowInv(s, w, s.orders[w].(status := Completed));
    }
  }

  // ----- drafts -----

  lemma ScanTables(covers: Covers, orders: Orders, installs: Installs, links: Links, w: OrderId, c: CoverId)
    requires w in orders && orders[w].status == Scheduled && InStockAt(covers, orders[w].office, c)
    requires (w, c) !in installs && !OpenElsewhere(installs, w, c) && !ReservedOn(links, c)
    ensures Shapes(orders, installs) ==> Shapes(orders, installs[(w, c) := DRAFT])
    ensures NonEmpty(orders, installs) ==> NonEmpty(orders, installs[(w, c) := DRAFT])
    ensures OpenInPlace(covers, orders, installs) ==> OpenInPlace(covers, orders, installs[(w, c) := DRAFT])
    ensures OneOpen(installs) ==> OneOpen(installs[(w, c) := DRAFT])
    ensures ClaimsApart(installs, links) ==> ClaimsApart(installs[(w, c) := DRAFT], links)
  {
    var m := installs[(w, c) := DRAFT];
    forall v | v in orders ensures InstalledCovers(installs, v) <= InstalledCovers(m, v) {}
  }

  /** Live installations survive any change that keeps them. */
  lemma KeepsLive(covers: Covers, installs: Installs, covers': Covers, installs': Installs)
    requires InstalledHasLive(covers, installs)
    requires forall c :: c in covers' && covers'[c].status == Installed ==> c in covers && covers[c].status == Installed
    requires forall k :: k in installs && Live(installs[k]) && k.1 in covers' && covers'[k.1].status == Installed ==> k in installs' && Live(installs'[k])
    ensures InstalledHasLive(covers', installs')
  {
    forall c | c in covers' && covers'[c].status == Installed ensures exists w :: LiveOn(installs', w, c) {
      var w :| LiveOn(installs, w, c);
      assert (w, c) in installs && (w, c).1 == c;
      assert LiveOn(installs', w, c);
    }
  }

  /** Installations of known orders on known covers keep the foreign keys. */
  lemma InstallKeys(s: Ledger, installs: Installs)
    requires ForeignKeys(s.covers, s.orders, s.installs, s.borrows, s.links)
    requires forall k :: k in installs && k !in s.installs ==> k.0 in s.orders && k.1 in s.covers
    ensures ForeignKeys(s.covers, s.orders, installs, s.borrows, s.links)
  {
  }

  lemma ScanInv(s: Ledger, w: OrderId, c: CoverId)
    requires Inv(s) && w in s.orders && s.orders[w].status == Scheduled && InStockAt(s.covers, s.orders[w].office, c)
    requires (w, c) !in s.installs && !OpenElsewhere(s.installs, w, c) && !ReservedOn(s.links, c)
    ensures Inv(s.(installs := s.installs[(w, c) := DRAFT]))
  {
    var t := s.(installs := s.installs[(w, c) := DRAFT]);
    assert c in s.covers;
    hide *;
    Disassemble(s);
    InstallKeys(s, t.installs);
    ScanTables(s.covers, s.orders, s.installs, s.links, w, c);
    DraftLive(s.covers, s.installs, (w, c));
    Assemble(t);
  }

  lemma DraftLive(covers: Covers, installs: Installs, k: (OrderId, CoverId))
    requires InstalledHasLive(covers, installs) && k !in installs
    ensures InstalledHasLive(covers, installs[k := DRAFT])
  {
    KeepsLive(covers, installs, covers, installs[k := DRAFT]);
  }

  lemma KeepsScan(s: Ledger, a: Actor, w: OrderId, c: CoverId)
    requires Inv(s)
    ensures Inv(ScanInstall(s, a, w, c).0)
  {
    hide Inv;
    if ScanInstall(s, a, w, c).0 != s {
      ScanInv(s, w, c);
    }
  }

  /** Deleting drafts of one scheduled order. */
  lemma DropTables(covers: Covers, orders: Orders, installs: Installs, links: Links, w: OrderId, m: Installs)
    requires w in orders && orders[w].status == Scheduled
    requires forall k :: k in m ==> k in installs && m[k] == installs[k]
    requires forall k :: k in installs && k.0 != w ==> k in m
    ensures Shapes(orders, installs) ==> Shapes(orders, m)
    ensures NonEmpty(orders, installs) ==> NonEmpty(orders, m)
    ensures OpenInPlace(covers, orders, installs) ==> OpenInPlace(covers, orders, m)
    ensures OneOpen(installs) ==> OneOpen(m)
    ensures Shapes(orders, installs) && InstalledHasLive(covers, installs) ==> InstalledHasLive(covers, m)
    ensures ClaimsApart(installs, links) ==> ClaimsApart(m, links)
  {
    forall v | v in orders && v != w ensures InstalledCovers(installs, v) == InstalledCovers(m, v) {
      forall c ensures (v, c) in installs <==> (v, c) in m { assert (v, c).0 == v; }
    }
    if Shapes(orders, installs) && InstalledHasLive(covers, installs) {
      KeepsLive(covers, installs, covers, m);
    }
  }

  lemma DropInv(s: Ledger, w: OrderId, m: Installs)
    requires Inv(s) && w in s.orders && s.orders[w].status == Scheduled
    requires forall k :: k in m ==> k in s.installs && m[k] == s.installs[k]
    requires forall k :: k in s.installs && k.0 != w ==> k in m
    ensures Inv(s.(installs := m))
  {
    hide *;
    Disassemble(s);
    InstallKeys(s, m);
    DropTables(s.covers, s.orders, s.installs, s.links, w, m);
    Assemble(s.(installs := m));
  }

  lemma KeepsUnscan(s: Ledger, a: Actor, w: OrderId, c: CoverId)
    requires Inv(s)
    ensures Inv(UnscanInstall(s, a, w, c).0)
  {
    hide Inv;
    if UnscanInstall(s, a, w, c).0 != s {
      DropInv(s, w, s.installs - {(w, c)});
    }
  }

  lemma CancelFits(s: Ledger, w: OrderId, m: Installs)
    requires w in s.orders && RowChecks(s.orders, s.borrows) && Shapes(s.orders, s.installs)
    requires s.orders[w].status == Scheduled && m == CancelOrder(s, w).0.installs
    ensures RowFits(s.(installs := m), w, s.orders[w].(status := OrderStatus.Cancelled))
    ensures forall k :: k in m ==> k in s.installs && m[k] == s.installs[k]
    ensures forall k :: k in s.installs && k.0 != w ==> k in m
  {
    forall c ensures (w, c) !in m { assert (w, c).0 == w; }
  }

  lemma KeepsCancelOrder(s: Ledger, w: OrderId)
    requires Inv(s)
    ensures Inv(CancelOrder(s, w).0)
  {
    hide Inv;
    if CancelOrder(s, w).1 == Done {
      var dropped := s.(installs := CancelOrder(s, w).0.installs);
      assert CancelOrder(s, w).0 == dropped.(orders := s.orders[w := s.orders[w].(status := OrderStatus.Cancelled)]);
      assert s.orders[w].status == Scheduled;
      hide *;
      Disassemble(s);
      CancelFits(s, w, dropped.installs);
      DropInv(s, w, dropped.installs);
      RowInv(dropped, w, s.orders[w].(status := OrderStatus.Cancelled));
    }
  }

  lemma AttachTables(covers: Covers, orders: Orders, installs: Installs, links: Links, k: (OrderId, CoverId), i: Installation)
    requires k in installs && i.installed == installs[k].installed && i.removed == installs[k].removed
    ensures NonEmpty(orders, installs) ==> NonEmpty(orders, installs[k := i])
    ensures OpenInPlace(covers, orders, installs) ==> OpenInPlace(covers, orders, installs[k := i])
    ensures OneOpen(installs) ==> OneOpen(installs[k := i])
    ensures InstalledHasLive(covers, installs) ==> InstalledHasLive(covers, installs[k := i])
    ensures ClaimsApart(installs, links) ==> ClaimsApart(installs[k := i], links)
  {
    forall v | v in orders ensures InstalledCovers(installs, v) == InstalledCovers(installs[k := i], v) {}
    if InstalledHasLive(covers, installs) {
      KeepsLive(covers, installs, covers, installs[k := i]);
    }
  }

  lemma AttachShapes(orders: Orders, installs: Installs, k: (OrderId, CoverId), i: Installation)
    requires k.0 in orders && Shapes(orders, installs) && Shape(orders[k.0].status, k, i)
    ensures Shapes(orders, installs[k := i])
  {
  }

  lemma AttachInv(s: Ledger, k: (OrderId, CoverId), i: Installation)
    requires Inv(s) && k in s.installs && i.installed == s.installs[k].installed && i.removed == s.installs[k].removed
    requires k.0 in s.orders && Shape(s.orders[k.0].status, k, i)
    ensures Inv(s.(installs := s.installs[k := i]))
  {
    hide *;
    Disassemble(s);
    InstallKeys(s, s.installs[k := i]);
    AttachShapes(s.orders, s.installs, k, i);
    AttachTables(s.covers, s.orders, s.installs, s.links, k, i);
    Assemble(s.(installs := s.installs[k := i]));
  }

  lemma KeepsAttach(s: Ledger, a: Actor, kind: PhotoKind, w: OrderId, c: CoverId, key: Option<Photo>,
      early: Option<Error>, storage: StorageAnswer)
    requires Inv(s)
    ensures Inv(AttachEvidence(s, a, kind, w, c, key, early, storage).0)
  {
    hide Inv;
    var t := AttachEvidence(s, a, kind, w, c, key, early, storage).0;
    if t != s {
      Disassemble(s);
      ShapeOf(s, w);
      AttachInv(s, (w, c), t.installs[(w, c)]);
    }
  }

  // ----- submission -----

  lemma SubmitShapes(orders: Orders, s: Ledger, w: OrderId)
    requires w in s.orders && s.orders[w].status == Scheduled && orders == s.orders[w := s.orders[w].(status := Active)]
    requires forall c :: c in InstalledCovers(s.installs, w) ==> s.installs[(w, c)].installPhoto.Some?
    requires Shapes(s.orders, s.installs)
    ensures Shapes(orders, SubmittedInstalls(s, w))
    ensures forall k :: k in s.installs && k.0 == w ==> !s.installs[k].installed && !s.installs[k].removed
  {
    forall k | k in s.installs && k.0 == w ensures k.1 in InstalledCovers(s.installs, w) { assert k == (w, k.1); }
  }

  lemma SubmitNonEmpty(orders: Orders, s: Ledger, w: OrderId)
    requires w in s.orders && orders == s.orders[w := s.orders[w].(status := Active)]
    requires InstalledCovers(s.installs, w) != {} && NonEmpty(s.orders, s.installs)
    ensures NonEmpty(orders, SubmittedInstalls(s, w))
  {
    forall v | v in s.orders ensures InstalledCovers(s.installs, v) == InstalledCovers(SubmittedInstalls(s, w), v) {}
  }

  lemma SubmitPlaces(orders: Orders, s: Ledger, w: OrderId)
    requires w in s.orders && orders == s.orders[w := s.orders[w].(status := Active)]
    requires forall k :: k in s.installs && k.0 == w ==> !s.installs[k].installed && !s.installs[k].removed
    requires OpenInPlace(s.covers, s.orders, s.installs) && OneOpen(s.installs)
    ensures OpenInPlace(SubmittedCovers(s, w), orders, SubmittedInstalls(s, w))
    ensures OneOpen(SubmittedInstalls(s, w))
  {
    forall k | k in s.installs && k.1 in s.covers && Open(s.installs[k]) && k.0 != w ensures (w, k.1) !in s.installs {}
    forall k | k in s.installs && k.0 == w ensures (w, k.1) in s.installs { assert k == (w, k.1); }
  }

  lemma SubmitLive(s: Ledger, w: OrderId)
    requires InstalledHasLive(s.covers, s.installs)
    requires forall c :: c in InstalledCovers(s.installs, w) ==> !s.installs[(w, c)].removed
    ensures InstalledHasLive(SubmittedCovers(s, w), SubmittedInstalls(s, w))
  {
    var covers', installs' := SubmittedCovers(s, w), SubmittedInstalls(s, w);
    forall c | c in covers' && covers'[c].status == Installed ensures exists v :: LiveOn(installs', v, c) {
      if (w, c) in s.installs {
        assert c in InstalledCovers(s.installs, w);
        assert LiveOn(installs', w, c);
      } else {
        var v :| LiveOn(s.installs, v, c);
        assert LiveOn(installs', v, c);
      }
    }
  }

  /** Stock an order installs carries no reservation and keeps its place. */
  lemma SubmitLoans(s: Ledger, w: OrderId)
    requires forall c :: c in InstalledCovers(s.installs, w) ==> !ReservedOn(s.links, c)
    ensures ReservedInPlace(s.covers, s.borrows, s.links) ==> ReservedInPlace(SubmittedCovers(s, w), s.borrows, s.links)
    ensures OutInPlace(s.covers, s.borrows, s.links) ==> OutInPlace(SubmittedCovers(s, w), s.borrows, s.links)
    ensures AwayIsOut(s.covers, s.borrows, s.links) ==> AwayIsOut(SubmittedCovers(s, w), s.borrows, s.links)
  {
    forall k | k in s.links && !s.links[k] ensures (w, k.1) !in s.installs {
      assert ReservedOn(s.links, k.1);
    }
  }

  lemma SubmitClaims(s: Ledger, w: OrderId)
    requires ClaimsApart(s.installs, s.links)
    ensures ClaimsApart(SubmittedInstalls(s, w), s.links)
  {
  }

  lemma SubmitFacts(s: Ledger, a: Actor, w: OrderId)
    requires SubmitInstall(s, a, w).1 == Done
    ensures w in s.orders && s.orders[w].status == Scheduled && InstalledCovers(s.installs, w) != {}
    ensures forall c :: c in InstalledCovers(s.installs, w) ==> !ReservedOn(s.links, c) && s.installs[(w, c)].installPhoto.Some?
    ensures SubmitInstall(s, a, w).0 == s.(covers := SubmittedCovers(s, w), installs := SubmittedInstalls(s, w),
                                           orders := s.orders[w := s.orders[w].(status := Active)])
  {
  }

  lemma SubmitInv(s: Ledger, w: OrderId)
    requires Inv(s)
    requires w in s.orders && s.orders[w].status == Scheduled && InstalledCovers(s.installs, w) != {}
    requires forall c :: c in InstalledCovers(s.installs, w) ==> !ReservedOn(s.links, c) && s.installs[(w, c)].installPhoto.Some?
    ensures Inv(s.(covers := SubmittedCovers(s, w), installs := SubmittedInstalls(s, w),
                   orders := s.orders[w := s.orders[w].(status := Active)]))
  {
    var orders := s.orders[w := s.orders[w].(status := Active)];
    var t := s.(covers := SubmittedCovers(s, w), installs := SubmittedInstalls(s, w), orders := orders);
    hide *;
    Disassemble(s);
    SubmitKeys(s, w, orders);
    SubmitShapes(orders, s, w);
    SubmitNonEmpty(orders, s, w);
    SubmitPlaces(orders, s, w);
    SubmitLive(s, w);
    SubmitLoans(s, w);
    SubmitClaims(s, w);
    Assemble(t);
  }

  lemma SubmitKeys(s: Ledger, w: OrderId, orders: Orders)
    requires w in s.orders && orders == s.orders[w := s.orders[w].(status := Active)]
    requires ForeignKeys(s.covers, s.orders, s.installs, s.borrows, s.links)
    ensures ForeignKeys(SubmittedCovers(s, w), orders, SubmittedInstalls(s, w), s.borrows, s.links)
    ensures RowChecks(s.orders, s.borrows) ==> RowChecks(orders, s.borrows)
  {
  }

  lemma KeepsSubmit(s: Ledger, a: Actor, w: OrderId)
    requires Inv(s)
    ensures Inv(SubmitInstall(s, a, w).0)
  {
    if SubmitInstall(s, a, w).1 == Done {
      hide Inv;
      SubmitFacts(s, a, w);
      SubmitInv(s, w);
    }
  }

  lemma RemoveTables(covers: Covers, orders: Orders, installs: Installs, links: Links, w: OrderId, c: CoverId)
    requires w in orders && orders[w].status == Removing && c in covers && covers[c].status == Installed
    requires (w, c) in installs && Live(installs[(w, c)])
    ensures var m := installs[(w, c) := installs[(w, c)].(removed := true)];
            var covers' := covers[c := covers[c].(status := InStock)];
            && (Shapes(orders, installs) ==> Shapes(orders, m))
            && (NonEmpty(orders, installs) ==> NonEmpty(orders, m))
            && (OpenInPlace(covers, orders, installs) && OneOpen(installs) ==> OpenInPlace(covers', orders, m))
            && (OneOpen(installs) ==> OneOpen(m))
            && (InstalledHasLive(covers, installs) ==> InstalledHasLive(covers', m))
            && (ClaimsApart(installs, links) ==> ClaimsApart(m, links))
  {
    var m := installs[(w, c) := installs[(w, c)].(removed := true)];
    forall v | v in orders ensures InstalledCovers(installs, v) == InstalledCovers(m, v) {}
    if InstalledHasLive(covers, installs) {
      KeepsLive(covers, installs, covers[c := covers[c].(status := InStock)], m);
    }
  }

  lemma RemoveLoans(covers: Covers, borrows: Borrowings, links: Links, c: CoverId)
    requires c in covers && covers[c].status == Installed && ReservedInPlace(covers, borrows, links)
    ensures ReservedInPlace(covers[c := covers[c].(status := InStock)], borrows, links)
    ensures OutInPlace(covers, borrows, links) ==> OutInPlace(covers[c := covers[c].(status := InStock)], borrows, links)
    ensures AwayIsOut(covers, borrows, links) ==> AwayIsOut(covers[c := covers[c].(status := InStock)], borrows, links)
  {
  }

  lemma RemoveKeys(s: Ledger, w: OrderId, c: CoverId)
    requires c in s.covers && (w, c) in s.installs && ForeignKeys(s.covers, s.orders, s.installs, s.borrows, s.links)
    ensures ForeignKeys(s.covers[c := s.covers[c].(status := InStock)], s.orders,
          s.installs[(w, c) := s.installs[(w, c)].(removed := true)], s.borrows, s.links)
  {
  }

  lemma RemoveInv(s: Ledger, w: OrderId, c: CoverId)
    requires Inv(s) && w in s.orders && s.orders[w].status == Removing && c in s.covers
    requires s.covers[c].status == Installed
    requires (w, c) in s.installs && Live(s.installs[(w, c)])
    ensures Inv(s.(installs := s.installs[(w, c) := s.installs[(w, c)].(removed := true)],
          covers := s.covers[c := s.covers[c].(status := InStock)]))
  {
    hide *;
    Disassemble(s);
    RemoveKeys(s, w, c);
    RemoveTables(s.covers, s.orders, s.installs, s.links, w, c);
    RemoveLoans(s.covers, s.borrows, s.links, c);
    Assemble(s.(installs := s.installs[(w, c) := s.installs[(w, c)].(removed := true)],
          covers := s.covers[c := s.covers[c].(status := InStock)]));
  }

  lemma KeepsRemove(s: Ledger, a: Actor, w: OrderId, c: CoverId)
    requires Inv(s)
    ensures Inv(ScanRemove(s, a, w, c).0)
  {
    hide Inv;
    if ScanRemove(s, a, w, c).0 != s {
      RemoveInv(s, w, c);
    }
  }

  // ----- registration and retirement -----

  /** New covers arrive in stock at home; old rows stay. */
  ghost predicate CoversArrive(covers: Covers, covers': Covers)
  {
    && (forall c :: c in covers ==> c in covers' && covers'[c] == covers[c])
    && (forall c :: c in covers' && c !in covers ==> covers'[c].status == InStock && covers'[c].current == covers'[c].owner)
  }

  lemma ArriveTables(covers: Covers, covers': Covers, orders: Orders, installs: Installs, borrows: Borrowings, links: Links)
    requires CoversArrive(covers, covers') && ForeignKeys(covers, orders, installs, borrows, links)
    ensures OpenInPlace(covers, orders, installs) ==> OpenInPlace(covers', orders, installs)
    ensures InstalledHasLive(covers, installs) ==> InstalledHasLive(covers', installs)
    ensures ReservedInPlace(covers, borrows, links) ==> ReservedInPlace(covers', borrows, links)
    ensures OutInPlace(covers, borrows, links) ==> OutInPlace(covers', borrows, links)
    ensures AwayIsOut(covers, borrows, links) ==> AwayIsOut(covers', borrows, links)
    ensures ForeignKeys(covers', orders, installs, borrows, links)
  {
  }

  lemma ArriveInv(s: Ledger, covers: Covers)
    requires Inv(s) && CoversArrive(s.covers, covers)
    ensures Inv(s.(covers := covers))
  {
    hide *;
    Disassemble(s);
    ArriveTables(s.covers, covers, s.orders, s.installs, s.borrows, s.links);
    Assemble(s.(covers := covers));
  }

  lemma NewCoversArrive(s: Ledger, office: OfficeId, items: seq<Item>)
    requires Storable(s, office, items)
    ensures CoversArrive(s.covers, s.covers + NewCovers(office, items))
  {
    hide ItemOf, CodesFree;
  }

  lemma KeepsRegister(s: Ledger, office: OfficeId, items: seq<Item>)
    requires Inv(s)
    ensures Inv(RegisterBatch(s, office, items).0)
  {
    hide Inv, ItemOf, BatchRefusal, CoversArrive;
    if RegisterBatch(s, office, items).1 == Done {
      NewCoversArrive(s, office, items);
      hide NewCovers, Storable;
      ArriveInv(s, s.covers + NewCovers(office, items));
    }
  }

  lemma RetireTables(s: Ledger, c: CoverId, covers': Covers)
    requires c in s.covers && RetirableCover(s, c) && covers' == s.covers[c := s.covers[c].(status := Retired)]
    ensures OpenInPlace(s.covers, s.orders, s.installs) ==> OpenInPlace(covers', s.orders, s.installs)
    ensures InstalledHasLive(s.covers, s.installs) ==> InstalledHasLive(covers', s.installs)
    ensures ReservedInPlace(s.covers, s.borrows, s.links) ==> ReservedInPlace(covers', s.borrows, s.links)
    ensures OutInPlace(s.covers, s.borrows, s.links) ==> OutInPlace(covers', s.borrows, s.links)
    ensures AwayIsOut(s.covers, s.borrows, s.links) ==> AwayIsOut(covers', s.borrows, s.links)
    ensures ForeignKeys(s.covers, s.orders, s.installs, s.borrows, s.links) ==> ForeignKeys(covers', s.orders,
          s.installs, s.borrows, s.links)
  {
  }

  lemma RetireInv(s: Ledger, c: CoverId)
    requires Inv(s) && c in s.covers && RetirableCover(s, c)
    ensures Inv(s.(covers := s.covers[c := s.covers[c].(status := Retired)]))
  {
    hide *;
    Disassemble(s);
    RetireTables(s, c, s.covers[c := s.covers[c].(status := Retired)]);
    Assemble(s.(covers := s.covers[c := s.covers[c].(status := Retired)]));
  }

  lemma KeepsRetire(s: Ledger, c: CoverId)
    requires Inv(s)
    ensures Inv(Retire(s, c).0)
  {
    hide Inv;
    if Retire(s, c).1 == Done {
      RetireInv(s, c);
    }
  }

  // ----- loans -----

  /** Borrow rows change only within {pending}, within {outstanding} or within the rest. */
  ghost predicate SameClass(borrows: Borrowings, borrows': Borrowings)
  {
    && borrows'.Keys == borrows.Keys
    && forall b :: b in borrows && b in borrows' ==>
         && borrows'[b].(status := borrows[b].status) == borrows[b]
         && Pending(borrows'[b]) == Pending(borrows[b])
         && Outstanding(borrows'[b]) == Outstanding(borrows[b])
  }

  lemma ClassTables(covers: Covers, borrows: Borrowings, borrows': Borrowings, links: Links)
    requires SameClass(borrows, borrows')
    ensures ReservedInPlace(covers, borrows, links) ==> ReservedInPlace(covers, borrows', links)
    ensures LinksMatch(borrows, links) ==> LinksMatch(borrows', links)
    ensures OneLoan(borrows, links) ==> OneLoan(borrows', links)
    ensures OutInPlace(covers, borrows, links) ==> OutInPlace(covers, borrows', links)
    ensures AwayIsOut(covers, borrows, links) ==> AwayIsOut(covers, borrows', links)
  {
    assert forall b, c :: OutOn(borrows, links, b, c) <==> OutOn(borrows', links, b, c);
  }

  /** A chain extended by an allowed move is a chain. */
  lemma ChainGrows(es: seq<AuditEvent>, x: BorrowStatus, e: AuditEvent)
    requires Chain(es, x) && Follows(x, e)
    ensures Chain(es + [e], e.to)
  {
    forall i | 0 < i < |es + [e]| ensures Follows((es + [e])[i - 1].to, (es + [e])[i]) {
      if i < |es| {
        assert Follows(es[i - 1].to, es[i]);
      }
    }
  }

  lemma AuditTables(s: Ledger, b: BorrowId, action: BorrowAction, to: BorrowStatus)
    requires b in s.borrows && AuditsMatch(s.borrows, s.audit)
    requires Follows(s.borrows[b].status, AuditEvent(action, Some(s.borrows[b].status), to))
    ensures AuditsMatch(Moved(s, b, action, to).borrows, Moved(s, b, action, to).audit)
  {
    hide Chain, Follows;
    ChainGrows(s.audit[b], s.borrows[b].status, AuditEvent(action, Some(s.borrows[b].status), to));
  }

  lemma ClassKeys(s: Ledger, borrows: Borrowings)
    requires SameClass(s.borrows, borrows)
    ensures ForeignKeys(s.covers, s.orders, s.installs, s.borrows, s.links) ==> ForeignKeys(s.covers, s.orders,
          s.installs, borrows, s.links)
    ensures RowChecks(s.orders, s.borrows) ==> RowChecks(s.orders, borrows)
  {
  }

  /** Status changes within one class, with their audit events. */
  lemma ClassInv(s: Ledger, borrows: Borrowings, audit: Audits)
    requires Inv(s) && SameClass(s.borrows, borrows) && AuditsMatch(borrows, audit)
    ensures Inv(s.(borrows := borrows, audit := audit))
  {
    hide *;
    Disassemble(s);
    ClassKeys(s, borrows);
    ClassTables(s.covers, s.borrows, borrows, s.links);
    Assemble(s.(borrows := borrows, audit := audit));
  }

  lemma MovedClass(s: Ledger, b: BorrowId, action: BorrowAction, to: BorrowStatus)
    requires b in s.borrows
    requires Pending(s.borrows[b]) == Pending(s.borrows[b].(status := to))
    requires Outstanding(s.borrows[b]) == Outstanding(s.borrows[b].(status := to))
    ensures var t := Moved(s, b, action, to);
            SameClass(s.borrows, t.borrows) && t == s.(borrows := t.borrows, audit := t.audit)
  {
  }

  lemma MovedInv(s: Ledger, b: BorrowId, action: BorrowAction, to: BorrowStatus)
    requires Inv(s) && b in s.borrows && Follows(s.borrows[b].status, AuditEvent(action, Some(s.borrows[b].status), to))
    requires Pending(s.borrows[b]) == Pending(s.borrows[b].(status := to))
    requires Outstanding(s.borrows[b]) == Outstanding(s.borrows[b].(status := to))
    ensures Inv(Moved(s, b, action, to))
  {
    hide *;
    MovedClass(s, b, action, to);
    Disassemble(s);
    AuditTables(s, b, action, to);
    ClassInv(s, Moved(s, b, action, to).borrows, Moved(s, b, action, to).audit);
  }

  lemma KeepsApprove(s: Ledger, b: BorrowId, a: Actor, active: bool)
    requires Inv(s)
    ensures Inv(Approve(s, b, a, active).0)
  {
    hide Inv, Moved;
    if Approve(s, b, a, active).1 == Done {
      MovedInv(s, b, ApproveAction, Approved);
    }
  }

  lemma KeepsLate(s: Ledger, b: BorrowId)
    requires Inv(s) && b in s.borrows
    ensures Inv(MarkedLate(s, b))
  {
    hide Inv, Moved;
    if s.borrows[b].status == OnLoan {
      MovedInv(s, b, OverdueAction, Overdue);
    }
  }

  lemma OverdueAudits(s: Ledger, due: set<BorrowId>, now: int)
    requires MarkOverdue(s, due, now).1 == Done && AuditsMatch(s.borrows, s.audit)
    ensures AuditsMatch(MarkOverdue(s, due, now).0.borrows, MarkOverdue(s, due, now).0.audit)
  {
    var t := MarkOverdue(s, due, now).0;
    assert Follows(OnLoan, OVERDUE_EVENT);
    hide Chain, Follows;
    forall b | b in due ensures Chain(s.audit[b] + [OVERDUE_EVENT], Overdue) {
      ChainGrows(s.audit[b], OnLoan, OVERDUE_EVENT);
    }
  }

  lemma OverdueClass(s: Ledger, due: set<BorrowId>, now: int)
    requires MarkOverdue(s, due, now).1 == Done
    ensures var t := MarkOverdue(s, due, now).0;
            SameClass(s.borrows, t.borrows) && t == s.(borrows := t.borrows, audit := t.audit)
  {
  }

  lemma KeepsOverdue(s: Ledger, due: set<BorrowId>, now: int)
    requires Inv(s)
    ensures Inv(MarkOverdue(s, due, now).0)
  {
    if MarkOverdue(s, due, now).1 == Done {
      hide *;
      var t := MarkOverdue(s, due, now).0;
      Disassemble(s);
      OverdueClass(s, due, now);
      OverdueAudits(s, due, now);
      ClassInv(s, t.borrows, t.audit);
    }
  }

  lemma RequestTables(s: Ledger, id: BorrowId, row: Borrow, chosen: set<CoverId>)
    requires id !in s.borrows && row.status == Requested && |chosen| == row.qty
    requires forall c :: c in chosen ==> EligibleAt(s, row.lender, c)
    requires forall k :: k in s.links ==> k.0 != id && k.0 in s.borrows
    ensures var borrows', links' := s.borrows[id := row], s.links + NewLinks(id, chosen);
            && (ReservedInPlace(s.covers, s.borrows, s.links) ==> ReservedInPlace(s.covers, borrows', links'))
            && (OneReservation(s.links) ==> OneReservation(links'))
            && (ClaimsApart(s.installs, s.links) ==> ClaimsApart(s.installs, links'))
  {
    forall k | k in NewLinks(id, chosen) ensures !OpenOn(s.installs, k.1) && !ReservedOn(s.links, k.1) {}
  }

  lemma RequestLoans(covers: Covers, borrows: Borrowings, links: Links, id: BorrowId, row: Borrow, chosen: set<CoverId>)
    requires id !in borrows && row.status == Requested && |chosen| == row.qty
    requires forall k :: k in links ==> k.0 != id && k.0 in borrows
    ensures var borrows', links' := borrows[id := row], links + NewLinks(id, chosen);
            && (LinksMatch(borrows, links) ==> LinksMatch(borrows', links'))
            && (OneLoan(borrows, links) ==> OneLoan(borrows', links'))
            && (OutInPlace(covers, borrows, links) ==> OutInPlace(covers, borrows', links'))
            && (AwayIsOut(covers, borrows, links) ==> AwayIsOut(covers, borrows', links'))
  {
    var borrows', links' := borrows[id := row], links + NewLinks(id, chosen);
    assert LinkedCovers(links', id) == chosen by {
      forall c ensures (id, c) in links' <==> c in chosen { assert (id, c).0 == id; }
    }
    forall b | b in borrows ensures LinkedCovers(links', b) == LinkedCovers(links, b) {
      forall c ensures (b, c) in links' <==> (b, c) in links { assert (b, c).0 == b; }
    }
    forall b, c ensures OutOn(borrows', links', b, c) <==> OutOn(borrows, links, b, c) {
      assert (b, c).0 == b;
    }
  }

  lemma RequestKeys(s: Ledger, id: BorrowId, row: Borrow, chosen: set<CoverId>)
    requires ForeignKeys(s.covers, s.orders, s.installs, s.borrows, s.links) && RowChecks(s.orders, s.borrows)
    requires row.qty >= 1 && row.borrower != row.lender
    requires forall c :: c in chosen ==> EligibleAt(s, row.lender, c)
    ensures ForeignKeys(s.covers, s.orders, s.installs, s.borrows[id := row], s.links + NewLinks(id, chosen))
    ensures RowChecks(s.orders, s.borrows[id := row])
  {
  }

  lemma RequestInv(s: Ledger, id: BorrowId, row: Borrow, chosen: set<CoverId>)
    requires Inv(s) && id !in s.borrows && row.status == Requested && |chosen| == row.qty
    requires row.qty >= 1 && row.borrower != row.lender
    requires forall c :: c in chosen ==> EligibleAt(s, row.lender, c)
    requires forall k :: k in s.links ==> k.0 != id && k.0 in s.borrows
    ensures Inv(s.(borrows := s.borrows[id := row], links := s.links + NewLinks(id, chosen),
                   audit := s.audit[id := [] + [AuditEvent(CreateAction, None, Requested)]]))
  {
    hide *;
    Disassemble(s);
    RequestKeys(s, id, row, chosen);
    RequestTables(s, id, row, chosen);
    RequestLoans(s.covers, s.borrows, s.links, id, row, chosen);
    RequestAudits(s.borrows, s.audit, id, row);
    Assemble(s.(borrows := s.borrows[id := row], links := s.links + NewLinks(id, chosen),
                audit := s.audit[id := [] + [AuditEvent(CreateAction, None, Requested)]]));
  }

  lemma KeepsRequest(s: Ledger, id: BorrowId, a: Actor, env: Lookups, r: Request, chosen: set<CoverId>)
    requires Inv(s)
    ensures Inv(CreateBorrow(s, id, a, env, r, chosen).0)
  {
    AuditOf(s);
    LinkKeys(s);
    hide Inv;
    if CreateBorrow(s, id, a, env, r, chosen).1 == Done {
      RequestFacts(s, id, a, env, r, chosen);
      hide CreateBorrow;
      RequestInv(s, id, Borrow(a.office.value, r.lender, Requested, r.qty, r.returnDate, a.id), chosen);
    } else {
      RefusedRequest(s, id, a, env, r, chosen);
    }
  }

  lemma LinkKeys(s: Ledger)
    requires Inv(s)
    ensures forall k :: k in s.links ==> k.0 in s.borrows
  {
    Disassemble(s);
    hide Inv;
  }

  lemma RefusedRequest(s: Ledger, id: BorrowId, a: Actor, env: Lookups, r: Request, chosen: set<CoverId>)
    requires CreateBorrow(s, id, a, env, r, chosen).1 != Done
    ensures CreateBorrow(s, id, a, env, r, chosen).0 == s
  {
    hide EligibleAt, BorrowableCapacity, NewLinks, ValidClaims, Log;
  }

  /** What an accepted request has checked and writes. */
  lemma RequestFacts(s: Ledger, id: BorrowId, a: Actor, env: Lookups, r: Request, chosen: set<CoverId>)
    requires CreateBorrow(s, id, a, env, r, chosen).1 == Done
    requires s.audit.Keys == s.borrows.Keys
    ensures a.office.Some? && a.office.value != r.lender && r.qty >= 1 && |chosen| == r.qty && id !in s.borrows
    ensures forall c :: c in chosen ==> EligibleAt(s, r.lender, c)
    ensures forall k :: k in s.links ==> k.0 != id
    ensures CreateBorrow(s, id, a, env, r, chosen).0 ==
            s.(borrows := s.borrows[id := Borrow(a.office.value, r.lender, Requested, r.qty, r.returnDate, a.id)],
               links := s.links + NewLinks(id, chosen), audit := s.audit[id := [] + [AuditEvent(CreateAction, None, Requested)]])
  {
    hide EligibleAt, BorrowableCapacity, NewLinks, ValidClaims;
  }

  lemma RequestAudits(borrows: Borrowings, audit: Audits, id: BorrowId, row: Borrow)
    requires AuditsMatch(borrows, audit) && id !in borrows && row.status == Requested
    ensures AuditsMatch(borrows[id := row], audit[id := [] + [AuditEvent(CreateAction, None, Requested)]])
  {
  }

  /** A pending borrow ends without handing anything over. */
  lemma ReleaseClaims(s: Ledger, b: BorrowId, borrows: Borrowings)
    requires b in s.borrows && b in borrows && borrows == s.borrows[b := s.borrows[b].(status := borrows[b].status)]
    ensures ReservedInPlace(s.covers, s.borrows, s.links) ==> ReservedInPlace(s.covers, borrows, ReleasedLinks(s, b))
    ensures OneReservation(s.links) ==> OneReservation(ReleasedLinks(s, b))
    ensures ClaimsApart(s.installs, s.links) ==> ClaimsApart(s.installs, ReleasedLinks(s, b))
    ensures !Pending(borrows[b]) && LinksMatch(s.borrows, s.links) ==> LinksMatch(borrows, ReleasedLinks(s, b))
  {
    forall x ensures LinkedCovers(ReleasedLinks(s, b), x) == LinkedCovers(s.links, x) {}
  }

  lemma ReleaseLoans(s: Ledger, b: BorrowId, borrows: Borrowings)
    requires b in s.borrows && b in borrows && borrows == s.borrows[b := s.borrows[b].(status := borrows[b].status)]
    requires !Outstanding(s.borrows[b]) && !Outstanding(borrows[b])
    ensures OneLoan(s.borrows, s.links) ==> OneLoan(borrows, ReleasedLinks(s, b))
    ensures OutInPlace(s.covers, s.borrows, s.links) ==> OutInPlace(s.covers, borrows, ReleasedLinks(s, b))
    ensures AwayIsOut(s.covers, s.borrows, s.links) ==> AwayIsOut(s.covers, borrows, ReleasedLinks(s, b))
  {
    assert forall x, c :: OutOn(borrows, ReleasedLinks(s, b), x, c) <==> OutOn(s.borrows, s.links, x, c);
  }

  lemma ReleaseInv(s: Ledger, b: BorrowId, t: Ledger)
    requires Inv(s) && b in s.borrows && b in t.borrows
    requires t == s.(borrows := s.borrows[b := s.borrows[b].(status := t.borrows[b].status)],
          links := ReleasedLinks(s, b), audit := t.audit)
    requires !Pending(t.borrows[b]) && !Outstanding(s.borrows[b]) && !Outstanding(t.borrows[b])
    requires AuditsMatch(t.borrows, t.audit)
    ensures Inv(t)
  {
    hide *;
    Disassemble(s);
    SameKeys(s, s.covers, t.borrows, t.links);
    ReleaseClaims(s, b, t.borrows);
    ReleaseLoans(s, b, t.borrows);
    Assemble(t);
  }

  lemma KeepsReleasing(s: Ledger, b: BorrowId, action: BorrowAction, to: BorrowStatus)
    requires Inv(s) && b in s.borrows && Pending(s.borrows[b]) && (to == Rejected || to == BorrowStatus.Cancelled)
    requires Follows(s.borrows[b].status, AuditEvent(action, Some(s.borrows[b].status), to))
    ensures Inv(Moved(Released(s, b), b, action, to))
  {
    hide Inv, AuditsMatch, Follows;
    var t := Moved(Released(s, b), b, action, to);
    assert t.borrows == Moved(s, b, action, to).borrows && t.audit == Moved(s, b, action, to).audit;
    AuditOf(s);
    AuditTables(s, b, action, to);
    ReleaseInv(s, b, t);
  }

  lemma AuditOf(s: Ledger)
    requires Inv(s)
    ensures AuditsMatch(s.borrows, s.audit)
  {
  }

  lemma KeepsReject(s: Ledger, b: BorrowId, a: Actor, active: bool)
    requires Inv(s)
    ensures Inv(Reject(s, b, a, active).0)
  {
    hide Inv;
    if Reject(s, b, a, active).1 == Done {
      KeepsReleasing(s, b, RejectAction, Rejected);
    }
  }

  lemma KeepsCancelBorrow(s: Ledger, b: BorrowId, a: Actor, active: bool)
    requires Inv(s)
    ensures Inv(CancelBorrow(s, b, a, active).0)
  {
    hide Inv;
    if CancelBorrow(s, b, a, active).1 == Done {
      KeepsReleasing(s, b, CancelAction, BorrowStatus.Cancelled);
    }
  }

  // ----- handing covers over -----

  /** Rewriting rows in place keeps the keys, and the checks on columns that do not change. */
  lemma SameKeys(s: Ledger, covers': Covers, borrows': Borrowings, links': Links)
    requires ForeignKeys(s.covers, s.orders, s.installs, s.borrows, s.links) && RowChecks(s.orders, s.borrows)
    requires covers'.Keys == s.covers.Keys && links'.Keys == s.links.Keys && borrows'.Keys == s.borrows.Keys
    requires forall b :: b in s.borrows ==> borrows'[b].(status := s.borrows[b].status) == s.borrows[b]
    ensures ForeignKeys(s.covers, s.orders, s.installs, s.borrows, s.links) ==> ForeignKeys(covers', s.orders,
          s.installs, borrows', links')
    ensures RowChecks(s.orders, borrows')
  {
  }

  /** Moving covers without open installations leaves the work tables in place. */
  lemma RelocateWork(s: Ledger, cs: set<CoverId>, o: OfficeId)
    requires forall c :: c in cs ==> !OpenOn(s.installs, c)
    ensures OpenInPlace(s.covers, s.orders, s.installs) ==> OpenInPlace(Relocated(s, cs, o).covers, s.orders, s.installs)
    ensures InstalledHasLive(s.covers, s.installs) ==> InstalledHasLive(Relocated(s, cs, o).covers, s.installs)
  {
  }

  lemma ActivateReserved(s: Ledger, b: BorrowId, covers': Covers, borrows': Borrowings)
    requires b in s.borrows && borrows' == s.borrows[b := s.borrows[b].(status := OnLoan)]
    requires covers' == Relocated(s, ActiveLinks(s.links, b), s.borrows[b].borrower).covers
    requires OneReservation(s.links) && ReservedInPlace(s.covers, s.borrows, s.links)
    ensures ReservedInPlace(covers', borrows', ReleasedLinks(s, b))
  {
    forall k | k in s.links && !s.links[k] && k.0 != b ensures k.1 !in ActiveLinks(s.links, b) {
      var j := (b, k.1);
      assert j.1 == k.1 && j != k;
    }
  }

  /** The covers of a pending borrow are at home, so nobody else has them out. */
  lemma PendingAtHome(s: Ledger, b: BorrowId)
    requires b in s.borrows && Pending(s.borrows[b]) && RowChecks(s.orders, s.borrows)
    requires ForeignKeys(s.covers, s.orders, s.installs, s.borrows, s.links)
    requires LinksMatch(s.borrows, s.links) && ReservedInPlace(s.covers, s.borrows, s.links)
    requires OutInPlace(s.covers, s.borrows, s.links)
    ensures LinkedCovers(s.links, b) == ActiveLinks(s.links, b)
    ensures forall x, c :: c in ActiveLinks(s.links, b) ==> !OutOn(s.borrows, s.links, x, c)
  {
    forall c | (b, c) in s.links ensures !s.links[(b, c)] { assert (b, c).0 == b; }
    forall x, c | c in ActiveLinks(s.links, b) ensures !OutOn(s.borrows, s.links, x, c) {
      assert (b, c).0 == b && (b, c).1 == c;
    }
  }

  lemma ActivateOut(s: Ledger, b: BorrowId, borrows': Borrowings)
    requires b in s.borrows && s.borrows[b].status == Approved
    requires borrows' == s.borrows[b := s.borrows[b].(status := OnLoan)]
    ensures forall x, c :: OutOn(borrows', ReleasedLinks(s, b), x, c) <==>
                             OutOn(s.borrows, s.links, x, c) || (x == b && c in LinkedCovers(s.links, b))
  {
  }

  lemma ActivateLoans(s: Ledger, b: BorrowId, covers': Covers, borrows': Borrowings)
    requires b in s.borrows && s.borrows[b].status == Approved
    requires borrows' == s.borrows[b := s.borrows[b].(status := OnLoan)]
    requires LinkedCovers(s.links, b) == ActiveLinks(s.links, b)
    requires covers' == Relocated(s, ActiveLinks(s.links, b), s.borrows[b].borrower).covers
    requires forall c :: c in ActiveLinks(s.links, b) && c in s.covers ==> s.covers[c].owner == s.borrows[b].lender && s.covers[c].status == InStock
    requires forall x, c :: c in ActiveLinks(s.links, b) ==> !OutOn(s.borrows, s.links, x, c)
    requires OutInPlace(s.covers, s.borrows, s.links)
    ensures OneLoan(s.borrows, s.links) ==> OneLoan(borrows', ReleasedLinks(s, b))
    ensures OutInPlace(covers', borrows', ReleasedLinks(s, b))
  {
    ActivateOut(s, b, borrows');
    hide OutOn, ReleasedLinks, LinkedCovers, ActiveLinks;
  }

  lemma ActivateAway(s: Ledger, b: BorrowId, covers': Covers, borrows': Borrowings)
    requires b in s.borrows && s.borrows[b].status == Approved
    requires borrows' == s.borrows[b := s.borrows[b].(status := OnLoan)]
    requires LinkedCovers(s.links, b) == ActiveLinks(s.links, b)
    requires covers' == Relocated(s, ActiveLinks(s.links, b), s.borrows[b].borrower).covers
    requires forall c :: c in ActiveLinks(s.links, b) && c in s.covers ==> s.covers[c].owner == s.borrows[b].lender && s.covers[c].status == InStock
    requires AwayIsOut(s.covers, s.borrows, s.links)
    ensures AwayIsOut(covers', borrows', ReleasedLinks(s, b))
  {
    ActivateOut(s, b, borrows');
    hide OutOn, ReleasedLinks, LinkedCovers, ActiveLinks;
    forall c | c in covers' && covers'[c].current != covers'[c].owner
      ensures covers'[c].status != Retired && exists x :: OutOn(borrows', ReleasedLinks(s, b), x, c)
    {
      if c in ActiveLinks(s.links, b) {
        assert OutOn(borrows', ReleasedLinks(s, b), b, c);
      } else {
        var x :| OutOn(s.borrows, s.links, x, c);
        assert OutOn(borrows', ReleasedLinks(s, b), x, c);
      }
    }
  }

  lemma ActivateFacts(s: Ledger, b: BorrowId, a: Actor, active: bool)
    requires Activate(s, b, a, active).1 == Done
    ensures b in s.borrows && s.borrows[b].status == Approved
    ensures forall c :: c in ActiveLinks(s.links, b) ==> AvailableAtLender(s, s.borrows[b], c)
    ensures var t := Activate(s, b, a, active).0;
            t == Moved(Released(Relocated(s, ActiveLinks(s.links, b), s.borrows[b].borrower), b), b, ActivateAction, OnLoan)
  {
  }

  lemma LenderStock(s: Ledger, b: BorrowId)
    requires b in s.borrows && forall c :: c in ActiveLinks(s.links, b) ==> AvailableAtLender(s, s.borrows[b], c)
    ensures forall c :: c in ActiveLinks(s.links, b) ==> !OpenOn(s.installs, c) && c in s.covers && s.covers[c].owner == s.borrows[b].lender && s.covers[c].status == InStock
    ensures !Pending(s.borrows[b].(status := OnLoan))
    ensures s.borrows[b].status == Approved ==> Pending(s.borrows[b]) && Follows(Approved,
          AuditEvent(ActivateAction, Some(Approved), OnLoan))
  {
  }

  lemma ActivateInv(s: Ledger, b: BorrowId, t: Ledger)
    requires Inv(s) && b in s.borrows && s.borrows[b].status == Approved
    requires forall c :: c in ActiveLinks(s.links, b) ==> AvailableAtLender(s, s.borrows[b], c)
    requires t == s.(covers := Relocated(s, ActiveLinks(s.links, b), s.borrows[b].borrower).covers, links := ReleasedLinks(s, b),
                     borrows := s.borrows[b := s.borrows[b].(status := OnLoan)], audit := t.audit)
    requires t.covers.Keys == s.covers.Keys && AuditsMatch(t.borrows, t.audit)
    ensures Inv(t)
  {
    hide *;
    Disassemble(s);
    LenderStock(s, b);
    SameKeys(s, t.covers, t.borrows, t.links);
    PendingAtHome(s, b);
    RelocateWork(s, ActiveLinks(s.links, b), s.borrows[b].borrower);
    ReleaseClaims(s, b, t.borrows);
    ActivateReserved(s, b, t.covers, t.borrows);
    ActivateLoans(s, b, t.covers, t.borrows);
    ActivateAway(s, b, t.covers, t.borrows);
    Assemble(t);
  }

  lemma KeepsActivate(s: Ledger, b: BorrowId, a: Actor, active: bool)
    requires Inv(s)
    ensures Inv(Activate(s, b, a, active).0)
  {
    hide Inv, AuditsMatch;
    if Activate(s, b, a, active).1 == Done {
      ActivateFacts(s, b, a, active);
      hide Activate;
      AuditOf(s);
      AuditTables(s, b, ActivateAction, OnLoan);
      ActivateInv(s, b, Moved(Released(Relocated(s, ActiveLinks(s.links, b), s.borrows[b].borrower), b), b,
            ActivateAction, OnLoan));
    }
  }

  /** What a completed inspection has established. */
  lemma {:induction false} InspectedAll(s: Ledger, b: Borrow, rows: seq<CoverId>)
    ensures InspectReturn(s, b, rows) == Done <==>
            forall c :: c in rows ==> !StillInstalled(s, c) && Returnable(s, b, c)
  {
    if rows != [] {
      InspectedAll(s, b, rows[1..]);
      assert forall c :: c in rows <==> c == rows[0] || c in rows[1..];
    }
  }

  lemma ReturnReserved(s: Ledger, b: BorrowId, covers': Covers, borrows': Borrowings)
    requires b in s.borrows && Outstanding(s.borrows[b])
    requires borrows' == s.borrows[b := s.borrows[b].(status := Returned)]
    requires covers' == Relocated(s, LinkedCovers(s.links, b), s.borrows[b].lender).covers
    requires forall c :: c in LinkedCovers(s.links, b) && c in s.covers ==> s.covers[c].current != s.covers[c].owner
    ensures ReservedInPlace(s.covers, s.borrows, s.links) ==> ReservedInPlace(covers', borrows', s.links)
    ensures LinksMatch(s.borrows, s.links) ==> LinksMatch(borrows', s.links)
  {
  }

  lemma ReturnLoans(s: Ledger, b: BorrowId, covers': Covers, borrows': Borrowings)
    requires b in s.borrows && Outstanding(s.borrows[b])
    requires borrows' == s.borrows[b := s.borrows[b].(status := Returned)]
    requires covers' == Relocated(s, LinkedCovers(s.links, b), s.borrows[b].lender).covers
    requires forall c :: c in LinkedCovers(s.links, b) && c in s.covers ==> s.covers[c].owner == s.borrows[b].lender
    requires OneLoan(s.borrows, s.links)
    ensures OneLoan(borrows', s.links)
    ensures OutInPlace(s.covers, s.borrows, s.links) ==> OutInPlace(covers', borrows', s.links)
    ensures AwayIsOut(s.covers, s.borrows, s.links) ==> AwayIsOut(covers', borrows', s.links)
  {
    forall x, c ensures OutOn(borrows', s.links, x, c) <==> OutOn(s.borrows, s.links, x, c) && x != b {}
    forall c | c in LinkedCovers(s.links, b) ensures OutOn(s.borrows, s.links, b, c) {}
  }

  lemma ReturnAway(s: Ledger, b: BorrowId)
    requires b in s.borrows && RowChecks(s.orders, s.borrows)
    requires forall c :: c in LinkedCovers(s.links, b) ==> Returnable(s, s.borrows[b], c)
    ensures forall c :: c in LinkedCovers(s.links, b) && c in s.covers ==> s.covers[c].current != s.covers[c].owner
    ensures forall c :: c in LinkedCovers(s.links, b) && c in s.covers ==> s.covers[c].owner == s.borrows[b].lender
  {
  }

  lemma ReturnFields(s: Ledger, b: BorrowId, moved: Ledger, t: Ledger)
    requires b in s.borrows && Outstanding(s.borrows[b])
    requires moved == Relocated(s, LinkedCovers(s.links, b), s.borrows[b].lender).(shortfalls := moved.shortfalls)
    requires t == Moved(moved, b, ReturnAction, Returned)
    ensures t.covers == Relocated(s, LinkedCovers(s.links, b), s.borrows[b].lender).covers
    ensures t.covers.Keys == s.covers.Keys
    ensures t.borrows == s.borrows[b := s.borrows[b].(status := Returned)]
    ensures t.borrows == Moved(s, b, ReturnAction, Returned).borrows
    ensures t.audit == Moved(s, b, ReturnAction, Returned).audit
    ensures t == s.(covers := t.covers, borrows := t.borrows, audit := t.audit, shortfalls := t.shortfalls)
    ensures Follows(s.borrows[b].status, AuditEvent(ReturnAction, Some(s.borrows[b].status), Returned))
  {
  }

  lemma ReturnInv(s: Ledger, b: BorrowId, moved: Ledger, t: Ledger)
    requires Inv(s) && b in s.borrows && Outstanding(s.borrows[b])
    requires forall c :: c in LinkedCovers(s.links, b) ==> !OpenOn(s.installs, c) && Returnable(s, s.borrows[b], c)
    requires moved == Relocated(s, LinkedCovers(s.links, b), s.borrows[b].lender).(shortfalls := moved.shortfalls)
    requires t == Moved(moved, b, ReturnAction, Returned)
    ensures Inv(t)
  {
    hide *;
    Disassemble(s);
    ReturnFields(s, b, moved, t);
    SameKeys(s, t.covers, t.borrows, t.links);
    RelocateWork(s, LinkedCovers(s.links, b), s.borrows[b].lender);
    ReturnAway(s, b);
    ReturnReserved(s, b, t.covers, t.borrows);
    ReturnLoans(s, b, t.covers, t.borrows);
    AuditTables(s, b, ReturnAction, Returned);
    Assemble(t);
  }

  lemma KeepsReturn(s: Ledger, b: BorrowId, a: Actor, active: bool)
    requires Inv(s)
    ensures Inv(Return(s, b, a, active).0)
  {
    hide Inv;
    var v := Return(s, b, a, active).1;
    if v == Done {
      InspectedAll(s, s.borrows[b], LinkRows(s, b));
      var moved := RecordShortfall(Relocated(s, LinkedCovers(s.links, b), s.borrows[b].lender), b, s.borrows[b].borrower);
      ReturnInv(s, b, moved, Return(s, b, a, active).0);
    } else if v == Blocked {
      KeepsLate(s, b);
    }
  }

  // ----- all runs -----

  lemma KeepsStep(s: Ledger, op: Op)
    requires Inv(s)
    ensures Inv(Step(s, op).0)
  {
    hide Inv, CreateOrder, UpdateScheduled, Assign, ScanInstall, UnscanInstall, SubmitInstall, StartRemoval, ScanRemove;
    hide CompleteRemoval, CancelOrder, AttachEvidence, MarkRemovalDue, CreateBorrow, Approve, Reject, CancelBorrow;
    hide Activate, Return, MarkOverdue, RegisterBatch, Retire;
    match op
    case OpenOrder(id, office, plan, assignee, ok) => KeepsCreate(s, id, office, plan, assignee, ok);
    case EditOrder(w, patch, ok) => KeepsUpdate(s, w, patch, ok);
    case AssignOrder(w, technician, ok) => KeepsAssign(s, w, technician, ok);
    case Scan(a, w, c) => KeepsScan(s, a, w, c);
    case Unscan(a, w, c) => KeepsUnscan(s, a, w, c);
    case Submit(a, w) => KeepsSubmit(s, a, w);
    case BeginRemoval(a, w) => KeepsStart(s, a, w);
    case RemoveCover(a, w, c) => KeepsRemove(s, a, w, c);
    case Complete(a, w) => KeepsComplete(s, a, w);
    case CancelWork(w) => KeepsCancelOrder(s, w);
    case Attach(a, kind, w, c, key, early, storage) => KeepsAttach(s, a, kind, w, c, key, early, storage);
    case RemovalFallsDue(w, now) => KeepsDue(s, w, now);
    case RequestLoan(b, a, env, r, chosen) => KeepsRequest(s, b, a, env, r, chosen);
    case ApproveLoan(b, a, active) => KeepsApprove(s, b, a, active);
    case RejectLoan(b, a, active) => KeepsReject(s, b, a, active);
    case CancelLoan(b, a, active) => KeepsCancelBorrow(s, b, a, active);
    case ActivateLoan(b, a, active) => KeepsActivate(s, b, a, active);
    case ReturnLoan(b, a, active) => KeepsReturn(s, b, a, active);
    case LoansFallDue(due, now) => KeepsOverdue(s, due, now);
    case Register(office, items) => KeepsRegister(s, office, items);
    case RetireCover(c) => KeepsRetire(s, c);
  }

  /** Every state that any run of transactions reaches satisfies the invariant. */
  lemma {:induction false} RunsKeepInv(s: Ledger, ops: seq<Op>)
    requires Inv(s)
    ensures Inv(After(s, ops))
    decreases |ops|
  {
    hide Inv, Step;
    if ops != [] {
      KeepsStep(s, ops[0]);
      RunsKeepInv(Step(s, ops[0]).0, ops[1..]);
    }
  }

  lemma ReachableInv(s: Ledger)
    requires Reachable(s)
    ensures Inv(s)
  {
    var ops :| s == After(EMPTY, ops);
    EmptyInv();
    RunsKeepInv(EMPTY, ops);
  }
}
