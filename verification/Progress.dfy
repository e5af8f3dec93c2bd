/** Branches that no reachable state takes, and what each flow is guaranteed to achieve. */
module Progress {
  import opened Collections
  import opened Stock
  import opened WorkOrders
  import opened Borrows
  import opened Transactions
  import opened Invariants
  import opened InvariantSteps
  import opened Footprints
  import opened Promises

  // ----- single claim -----

  function OpenInstalls(s: Ledger, c: CoverId): set<(OrderId, CoverId)>
  {
    set k | k in s.installs && k.1 == c && Open(s.installs[k])
  }

  function LiveInstalls(s: Ledger, c: CoverId): set<(OrderId, CoverId)>
  {
    set k | k in s.installs && k.1 == c && Live(s.installs[k])
  }

  function Reservations(s: Ledger, c: CoverId): set<(BorrowId, CoverId)>
  {
    set k | k in s.links && k.1 == c && !s.links[k]
  }

  lemma AtMostOne<T>(x: set<T>)
    requires forall j, k :: j in x && k in x ==> j == k
    ensures |x| <= 1
  {
    if x != {} {
      var j :| j in x;
      assert x == {j};
    }
  }

  /** No cover is promised twice, and INSTALLED means installed exactly once. */
  lemma SingleClaim(s: Ledger, c: CoverId)
    requires Inv(s)
    ensures |OpenInstalls(s, c)| + |Reservations(s, c)| <= 1
    ensures c in s.covers ==> (s.covers[c].status == Installed <==> |LiveInstalls(s, c)| == 1)
  {
    hide *;
    Disassemble(s);
    ClaimBound(s, c);
    LiveBound(s, c);
  }

  lemma ClaimBound(s: Ledger, c: CoverId)
    requires OneOpen(s.installs) && OneReservation(s.links) && ClaimsApart(s.installs, s.links)
    ensures |OpenInstalls(s, c)| + |Reservations(s, c)| <= 1
  {
    AtMostOne(OpenInstalls(s, c));
    AtMostOne(Reservations(s, c));
    if OpenInstalls(s, c) != {} {
      assert Reservations(s, c) == {};
    }
  }

  lemma LiveBound(s: Ledger, c: CoverId)
    requires ForeignKeys(s.covers, s.orders, s.installs, s.borrows, s.links)
    requires OneOpen(s.installs) && OpenInPlace(s.covers, s.orders, s.installs)
    requires InstalledHasLive(s.covers, s.installs)
    ensures c in s.covers ==> (s.covers[c].status == Installed <==> |LiveInstalls(s, c)| == 1)
  {
    AtMostOne(LiveInstalls(s, c));
    if c in s.covers {
      if s.covers[c].status == Installed {
        var w :| LiveOn(s.installs, w, c);
        assert (w, c).1 == c && (w, c) in LiveInstalls(s, c);
      }
      if |LiveInstalls(s, c)| == 1 {
        var k :| k in LiveInstalls(s, c);
      }
    }
  }

  // ----- work orders -----

  /** What an order's status promises about all of its installations. */
  ghost predicate OrderShape(s: Ledger, w: OrderId)
    requires w in s.orders
  {
    var rows := InstalledCovers(s.installs, w);
    var office := s.orders[w].office;
    match s.orders[w].status
    case Scheduled => forall c :: c in rows ==> !s.installs[(w, c)].installed && !s.installs[(w, c)].removed && InStockAt(s.covers, office, c)
    case Active => rows != {} && forall c :: c in rows ==> FieldShape(s, w, c) && !s.installs[(w, c)].removed
    case RemovalDue => rows != {} && forall c :: c in rows ==> FieldShape(s, w, c) && !s.installs[(w, c)].removed
    case Removing => rows != {} && forall c :: c in rows ==> FieldShape(s, w, c)
    case Completed => rows != {} && forall c :: c in rows ==> FieldShape(s, w, c) && RemovedShape(s, w, c)
    case Cancelled => rows == {}
  }

  /** Installed with its photograph; while not removed, on an INSTALLED cover at the order's office. */
  predicate FieldShape(s: Ledger, w: OrderId, c: CoverId)
    requires w in s.orders && (w, c) in s.installs
  {
    var i := s.installs[(w, c)];
    && i.installed && i.installPhoto == Some(Photo(InstallPhoto, w, c))
    && (!i.removed ==> c in s.covers && s.covers[c].status == Installed && s.covers[c].current == s.orders[w].office)
  }

  predicate RemovedShape(s: Ledger, w: OrderId, c: CoverId)
    requires (w, c) in s.installs
  {
    s.installs[(w, c)].removed && s.installs[(w, c)].removePhoto == Some(Photo(RemovePhoto, w, c))
  }

  lemma WorkOrderShape(s: Ledger, w: OrderId)
    requires Inv(s) && w in s.orders
    ensures OrderShape(s, w)
  {
    hide *;
    Disassemble(s);
    ShapeFrom(s, w);
  }

  lemma ShapeFrom(s: Ledger, w: OrderId)
    requires w in s.orders && ForeignKeys(s.covers, s.orders, s.installs, s.borrows, s.links)
    requires Shapes(s.orders, s.installs) && NonEmpty(s.orders, s.installs)
    requires OpenInPlace(s.covers, s.orders, s.installs)
    ensures OrderShape(s, w)
  {
    forall c | c in InstalledCovers(s.installs, w)
      ensures Shape(s.orders[w].status, (w, c), s.installs[(w, c)]) && c in s.covers
      ensures !s.installs[(w, c)].removed ==> s.covers[c].current == s.orders[w].office
      ensures !s.installs[(w, c)].removed ==> s.covers[c].status == if s.installs[(w, c)].installed then Installed else InStock
    {
      assert (w, c).0 == w && (w, c).1 == c;
    }
  }

  /** Under the invariant a submission is refused only for authorization, status, an empty
      order, capacity or missing photographs: its stock-conflict branches are dead. */
  lemma SubmitProgress(s: Ledger, a: Actor, w: OrderId)
    requires Inv(s) && w in s.orders && MayWorkOn(a, s.orders[w]) && s.orders[w].status == Scheduled
    ensures var cs := InstalledCovers(s.installs, w);
            SubmitInstall(s, a, w).1 ==
              if cs == {} then Refused(StateInvalid)
              else if |cs| > Available(s, s.orders[w].office, Some(w)) then Refused(InsufficientStock)
              else if exists c :: c in cs && s.installs[(w, c)].installPhoto.None? then Refused(EvidenceRequired)
              else Done
  {
    hide *;
    WorkOrderShape(s, w);
    Disassemble(s);
    SubmitFrom(s, a, w);
  }

  lemma SubmitFrom(s: Ledger, a: Actor, w: OrderId)
    requires w in s.orders && MayWorkOn(a, s.orders[w]) && s.orders[w].status == Scheduled && OrderShape(s, w)
    requires OneOpen(s.installs) && ClaimsApart(s.installs, s.links) && Shapes(s.orders, s.installs)
    ensures var cs := InstalledCovers(s.installs, w);
            SubmitInstall(s, a, w).1 ==
              if cs == {} then Refused(StateInvalid)
              else if |cs| > Available(s, s.orders[w].office, Some(w)) then Refused(InsufficientStock)
              else if exists c :: c in cs && s.installs[(w, c)].installPhoto.None? then Refused(EvidenceRequired)
              else Done
  {
    var cs := InstalledCovers(s.installs, w);
    forall c | c in cs
      ensures ReadyToInstall(s, w, c)
      ensures s.installs[(w, c)].installPhoto.Some? ==> s.installs[(w, c)].installPhoto == Some(Photo(InstallPhoto, w, c))
    {
      assert (w, c).0 == w && (w, c).1 == c;
    }
    hide Shapes, OneOpen, ClaimsApart, ReadyToInstall, OrderShape, Available;
  }

  /** Verify, then commit: an accepted submission installs exactly this order's drafts and
      exactly their covers, activates the order, and leaves every other row as it was. */
  lemma SubmitEffect(s: Ledger, a: Actor, w: OrderId)
    requires SubmitInstall(s, a, w).1 == Done
    ensures var t := SubmitInstall(s, a, w).0;
            && t == s.(covers := t.covers, orders := t.orders, installs := t.installs)
            && t.covers.Keys == s.covers.Keys && t.installs.Keys == s.installs.Keys && t.orders.Keys == s.orders.Keys
            && (forall c :: c in s.covers && (w, c) in s.installs ==> s.covers[c].status == InStock && t.covers[c] == s.covers[c].(status := Installed))
            && (forall c :: c in s.covers && (w, c) !in s.installs ==> t.covers[c] == s.covers[c])
            && (forall c :: (w, c) in s.installs ==> !s.installs[(w, c)].installed && t.installs[(w, c)] == s.installs[(w, c)].(installed := true))
            && (forall k :: k in s.installs && k.0 != w ==> t.installs[k] == s.installs[k])
            && (forall v :: v in s.orders && v != w ==> t.orders[v] == s.orders[v])
            && t.orders[w].status == Active
  {
    forall c | (w, c) in s.installs ensures c in InstalledCovers(s.installs, w) {}
  }

  function Unremoved(s: Ledger, w: OrderId): set<CoverId>
  {
    set c | c in InstalledCovers(s.installs, w) && !s.installs[(w, c)].removed
  }

  /** While an order is being removed each of its covers can be scanned out: the first scan
      lowers the number still out by one, a repeat changes nothing. */
  lemma RemovalProgress(s: Ledger, a: Actor, w: OrderId, c: CoverId)
    requires Inv(s) && w in s.orders && MayWorkOn(a, s.orders[w]) && s.orders[w].status == Removing
    requires (w, c) in s.installs
    ensures ScanRemove(s, a, w, c).1 == Done
    ensures c in Unremoved(s, w) ==> |Unremoved(ScanRemove(s, a, w, c).0, w)| == |Unremoved(s, w)| - 1
    ensures c !in Unremoved(s, w) ==> ScanRemove(s, a, w, c).0 == s
  {
    hide *;
    WorkOrderShape(s, w);
    Disassemble(s);
    RemovalFrom(s, a, w, c);
  }

  lemma RemovalFrom(s: Ledger, a: Actor, w: OrderId, c: CoverId)
    requires w in s.orders && MayWorkOn(a, s.orders[w]) && s.orders[w].status == Removing && (w, c) in s.installs
    requires OrderShape(s, w) && ForeignKeys(s.covers, s.orders, s.installs, s.borrows, s.links)
    ensures ScanRemove(s, a, w, c).1 == Done
    ensures c in Unremoved(s, w) ==> |Unremoved(ScanRemove(s, a, w, c).0, w)| == |Unremoved(s, w)| - 1
    ensures c !in Unremoved(s, w) ==> ScanRemove(s, a, w, c).0 == s
  {
    assert (w, c).1 == c && c in InstalledCovers(s.installs, w);
    if c in Unremoved(s, w) {
      assert Unremoved(ScanRemove(s, a, w, c).0, w) == Unremoved(s, w) - {c};
    }
  }

  /** Completion is accepted exactly when nothing is still out and every removal has its photograph. */
  lemma CompletionProgress(s: Ledger, a: Actor, w: OrderId)
    requires Inv(s) && w in s.orders && MayWorkOn(a, s.orders[w]) && s.orders[w].status == Removing
    ensures CompleteRemoval(s, a, w).1 == Done <==>
            Unremoved(s, w) == {} && forall c :: (w, c) in s.installs ==> s.installs[(w, c)].removePhoto.Some?
  {
    hide *;
    WorkOrderShape(s, w);
    Disassemble(s);
    ShapeOf(s, w);
    CompletionFrom(s, a, w);
  }

  lemma CompletionFrom(s: Ledger, a: Actor, w: OrderId)
    requires w in s.orders && MayWorkOn(a, s.orders[w]) && s.orders[w].status == Removing && OrderShape(s, w)
    requires forall c :: (w, c) in s.installs ==> Shape(s.orders[w].status, (w, c), s.installs[(w, c)])
    ensures CompleteRemoval(s, a, w).1 == Done <==>
            Unremoved(s, w) == {} && forall c :: (w, c) in s.installs ==> s.installs[(w, c)].removePhoto.Some?
  {
    RemovedAll(s, w, InstallationRows(s, w));
    if CompleteRemoval(s, a, w).1 != Done && Unremoved(s, w) == {} {
      var c :| (w, c) in s.installs && !(s.installs[(w, c)].installed && s.installs[(w, c)].removed
                                          && s.installs[(w, c)].removePhoto == Some(Photo(RemovePhoto, w, c)));
      assert c !in Unremoved(s, w);
    }
  }

  lemma {:induction false} TwoObjections(s: Ledger, w: OrderId, rows: seq<CoverId>)
    requires forall c :: c in rows ==> (w, c) in s.installs
    ensures RemovalRefusal(s, w, rows) in {None, Some(StateInvalid), Some(EvidenceRequired)}
  {
    if rows != [] {
      TwoObjections(s, w, rows[1..]);
    }
  }

  /** The order in which completion reads the rows decides nothing but which of two objections
      it reports. */
  lemma RowOrderIsImmaterial(s: Ledger, a: Actor, w: OrderId, rows: seq<CoverId>)
    requires ListsInstallations(s, w, rows)
    ensures CompletedIn(s, a, w, rows).0 == CompleteRemoval(s, a, w).0
    ensures CompletedIn(s, a, w, rows).1 == CompleteRemoval(s, a, w).1 ||
            {CompletedIn(s, a, w, rows).1, CompleteRemoval(s, a, w).1} == {Refused(StateInvalid), Refused(EvidenceRequired)}
  {
    var fixed := InstallationRows(s, w);
    SameObjections(s, w, rows, fixed);
    TwoObjections(s, w, rows);
    TwoObjections(s, w, fixed);
    hide RemovalRefusal, InstallationRows, ListsInstallations, MayWorkOn;
  }

  lemma SameObjections(s: Ledger, w: OrderId, rows: seq<CoverId>, fixed: seq<CoverId>)
    requires ListsInstallations(s, w, rows) && ListsInstallations(s, w, fixed)
    ensures rows == [] <==> fixed == []
    ensures RemovalRefusal(s, w, rows).None? <==> RemovalRefusal(s, w, fixed).None?
  {
    RemovedAll(s, w, rows);
    RemovedAll(s, w, fixed);
    assert forall c :: c in rows <==> c in fixed;
    if rows != [] { assert rows[0] in fixed; }
    if fixed != [] { assert fixed[0] in rows; }
    hide RemovalRefusal;
  }

  // ----- loans -----

  /** A pending borrow holds exactly the reservations it asked for, and an approved one can
      always be handed over: no stock-conflict branch of activation is taken. */
  lemma ActivationProgress(s: Ledger, b: BorrowId, a: Actor)
    requires Inv(s) && b in s.borrows && Pending(s.borrows[b])
    ensures |ActiveLinks(s.links, b)| == s.borrows[b].qty
    ensures s.borrows[b].status == Approved && ValidClaims(a) && MayHandOver(a, s.borrows[b]) ==> Activate(s, b, a, true).1 == Done
  {
    hide *;
    Disassemble(s);
    ActivationFrom(s, b, a);
  }

  lemma ActivationFrom(s: Ledger, b: BorrowId, a: Actor)
    requires b in s.borrows && Pending(s.borrows[b]) && ForeignKeys(s.covers, s.orders, s.installs, s.borrows, s.links)
    requires LinksMatch(s.borrows, s.links) && ReservedInPlace(s.covers, s.borrows, s.links)
    requires ClaimsApart(s.installs, s.links)
    ensures |ActiveLinks(s.links, b)| == s.borrows[b].qty
    ensures s.borrows[b].status == Approved && ValidClaims(a) && MayHandOver(a, s.borrows[b]) ==> Activate(s, b, a, true).1 == Done
  {
    forall c | (b, c) in s.links ensures !s.links[(b, c)] { assert (b, c).0 == b; }
    assert LinkedCovers(s.links, b) == ActiveLinks(s.links, b);
    forall c | c in ActiveLinks(s.links, b) ensures AvailableAtLender(s, s.borrows[b], c) {
      assert (b, c).0 == b && (b, c).1 == c;
    }
    hide LinksMatch, ReservedInPlace, ClaimsApart, ForeignKeys, AvailableAtLender, LinkedCovers, ActiveLinks;
  }

  /** A pending borrow can always be withdrawn. */
  lemma WithdrawalProgress(s: Ledger, b: BorrowId, a: Actor)
    requires Inv(s) && b in s.borrows && ValidClaims(a)
    ensures s.borrows[b].status == Requested && IsExecOf(a, s.borrows[b].lender) ==> Reject(s, b, a, true).1 == Done
    ensures Pending(s.borrows[b]) && MayCancel(a, s.borrows[b]) && a.role != Admin ==> CancelBorrow(s, b, a, true).1 == Done
  {
    hide Inv;
    if Pending(s.borrows[b]) {
      ActivationProgress(s, b, a);
    }
  }

  /** Nothing lent out is still installed somewhere. */
  predicate AllFree(s: Ledger, b: BorrowId)
  {
    forall c :: c in LinkedCovers(s.links, b) ==> !OpenOn(s.installs, c)
  }

  predicate AtHomeWith(x: Cover, o: OfficeId) { x.owner == o && x.current == o }

  ghost predicate CameHome(s: Ledger, b: BorrowId, t: Ledger)
  {
    && b in s.borrows && b in t.borrows && t.borrows[b].status == Returned
    && forall c :: c in LinkedCovers(s.links, b) ==> c in t.covers && AtHomeWith(t.covers[c], s.borrows[b].lender)
  }

  ghost predicate StayedLate(s: Ledger, b: BorrowId, t: Ledger)
  {
    t.covers == s.covers && b in t.borrows && t.borrows[b].status == Overdue
  }

  /** A return of an outstanding loan either brings every cover home, when none has an open
      installation, or moves none and leaves the loan overdue; it is never refused for stock. */
  lemma ReturnProgress(s: Ledger, b: BorrowId, a: Actor)
    requires Inv(s) && b in s.borrows && Outstanding(s.borrows[b]) && ValidClaims(a) && MayHandOver(a, s.borrows[b])
    ensures AllFree(s, b) ==> Return(s, b, a, true).1 == Done && CameHome(s, b, Return(s, b, a, true).0)
    ensures !AllFree(s, b) ==> Return(s, b, a, true).1 == Blocked && StayedLate(s, b, Return(s, b, a, true).0)
  {
    hide *;
    Disassemble(s);
    OutRows(s, b);
    InspectedReturn(s, b, a);
    if AllFree(s, b) {
      DoneComesHome(s, b, a);
    } else {
      BlockedStays(s, b, a);
    }
  }

  /** Covers out on b: at the borrower, owned by the lender, installed only with an open installation. */
  lemma OutRows(s: Ledger, b: BorrowId)
    requires b in s.borrows && Outstanding(s.borrows[b]) && RowChecks(s.orders, s.borrows)
    requires ForeignKeys(s.covers, s.orders, s.installs, s.borrows, s.links) && OutInPlace(s.covers, s.borrows, s.links)
    requires AwayIsOut(s.covers, s.borrows, s.links) && InstalledHasLive(s.covers, s.installs)
    requires LinksMatch(s.borrows, s.links)
    ensures |LinkedCovers(s.links, b)| == s.borrows[b].qty
    ensures forall c :: c in LinkedCovers(s.links, b) ==> StillInstalled(s, c) == OpenOn(s.installs, c)
    ensures forall c :: c in LinkedCovers(s.links, b) && !OpenOn(s.installs, c) ==> Returnable(s, s.borrows[b], c)
  {
    forall c | c in LinkedCovers(s.links, b)
      ensures StillInstalled(s, c) == OpenOn(s.installs, c)
      ensures !OpenOn(s.installs, c) ==> Returnable(s, s.borrows[b], c)
    {
      assert OutOn(s.borrows, s.links, b, c) && (b, c).1 == c;
      if s.covers[c].status == Installed {
        var w :| LiveOn(s.installs, w, c);
        assert (w, c).1 == c;
      }
    }
  }

  /** What the inspection of a loan's rows decides. */
  lemma InspectedReturn(s: Ledger, b: BorrowId, a: Actor)
    requires b in s.borrows && Outstanding(s.borrows[b]) && ValidClaims(a) && MayHandOver(a, s.borrows[b])
    requires |LinkedCovers(s.links, b)| == s.borrows[b].qty
    requires forall c :: c in LinkedCovers(s.links, b) ==> StillInstalled(s, c) == OpenOn(s.installs, c)
    requires forall c :: c in LinkedCovers(s.links, b) && !OpenOn(s.installs, c) ==> Returnable(s, s.borrows[b], c)
    ensures Return(s, b, a, true).1 == if AllFree(s, b) then Done else Blocked
  {
    InspectionVerdict(s, b, LinkRows(s, b));
    hide InspectReturn, StillInstalled, Returnable, OpenOn, Moved, RecordShortfall, Relocated, MarkedLate;
  }

  lemma DoneComesHome(s: Ledger, b: BorrowId, a: Actor)
    requires Return(s, b, a, true).1 == Done
    ensures b in s.borrows && CameHome(s, b, Return(s, b, a, true).0)
  {
    ReturnFacts(s, b, a, true);
    hide Return, OpenOn, StillInstalled, InStockCount, PlannedCount;
  }

  lemma BlockedStays(s: Ledger, b: BorrowId, a: Actor)
    requires Return(s, b, a, true).1 == Blocked
    ensures StayedLate(s, b, Return(s, b, a, true).0)
  {
    BlockedFacts(s, b, a, true);
    hide Return;
  }

  lemma {:induction false} InspectionVerdict(s: Ledger, b: BorrowId, rows: seq<CoverId>)
    requires b in s.borrows
    requires forall c :: c in rows ==> !StillInstalled(s, c) ==> Returnable(s, s.borrows[b], c)
    ensures InspectReturn(s, s.borrows[b], rows) == if forall c :: c in rows ==> !StillInstalled(s, c) then Done else Blocked
  {
    if rows != [] {
      InspectionVerdict(s, b, rows[1..]);
      assert forall c :: c in rows <==> c == rows[0] || c in rows[1..];
    }
  }

  // ----- the database's own checks -----

  /** The deferred constraint triggers on covers, work orders and borrows agree with every state
      that satisfies the invariant, so none of them ever turns a commit into an error. */
  lemma TriggersAgree(s: Ledger)
    requires Inv(s)
    ensures forall c :: c in s.covers ==> (s.covers[c].status == Installed <==> |LiveInstalls(s, c)| == 1)
    ensures forall k :: k in s.installs && s.orders[k.0].status != Scheduled ==> s.installs[k].installed
    ensures forall b :: b in s.borrows ==> |LinkedCovers(s.links, b)| == s.borrows[b].qty
    ensures forall b :: b in s.borrows ==> |ActiveLinks(s.links, b)| == if Pending(s.borrows[b]) then s.borrows[b].qty else 0
  {
    Disassemble(s);
    hide Inv, OpenInPlace, OneOpen, InstalledHasLive, NonEmpty, ReservedInPlace, OneLoan, OutInPlace;
    hide AwayIsOut, AuditsMatch, RowChecks, ClaimsApart, OneReservation;
    forall c | c in s.covers ensures s.covers[c].status == Installed <==> |LiveInstalls(s, c)| == 1 {
      SingleClaim(s, c);
    }
    hide LiveInstalls;
    forall b | b in s.borrows ensures |ActiveLinks(s.links, b)| == if Pending(s.borrows[b]) then s.borrows[b].qty else 0 {
      LinkTotals(s.borrows, s.links, b);
    }
  }

  lemma LinkTotals(borrows: Borrowings, links: Links, b: BorrowId)
    requires LinksMatch(borrows, links) && b in borrows
    ensures |ActiveLinks(links, b)| == if Pending(borrows[b]) then borrows[b].qty else 0
  {
    forall c | (b, c) in links ensures links[(b, c)] <==> !Pending(borrows[b]) { assert (b, c).0 == b; }
    if Pending(borrows[b]) {
      assert ActiveLinks(links, b) == LinkedCovers(links, b);
    } else {
      assert ActiveLinks(links, b) == {};
    }
  }

  // ----- reports and requests -----

  /** The stock report of one office. */
  datatype StockSummary = StockSummary(inStock: nat, reservedPlanned: nat, reservedBorrow: nat, availableForWorkOrder: nat,
                                       installed: nat, onLoanOut: nat, onLoanIn: nat, total: nat)

  function InstalledCount(s: Ledger, o: OfficeId): nat
  {
    |InstalledSet(s.covers, o)|
  }

  function GetStock(s: Ledger, o: OfficeId): StockSummary
  {
    var free := InStockCount(s, o) - PlannedCount(s, o) - ReservedCount(s, o);
    StockSummary(InStockCount(s, o), PlannedCount(s, o), ReservedCount(s, o), if free < 0 then 0 else free,
                 InstalledCount(s, o), CountOnLoanOut(s, o), CountOnLoanIn(s, o), InStockCount(s, o) + InstalledCount(s, o))
  }

  /** Planning accepts exactly up to the availability the stock report shows. */
  lemma ReportedBoundIsExact(s: Ledger, id: OrderId, o: OfficeId, p: Planning, assignee: Option<UserId>)
    requires ValidPlanning(p) && id !in s.orders
    ensures CreateOrder(s, id, o, p, assignee, true).1 == Done <==> p.qty.value <= GetStock(s, o).availableForWorkOrder
  {
  }

  /** What the office offers for loan it could also plan with. */
  lemma BorrowableWithinReport(s: Ledger, o: OfficeId)
    ensures BorrowableCapacity(s, o) <= GetStock(s, o).availableForWorkOrder
  {
    OwnedIsInStock(s, o);
  }

  function HeldSet(covers: Covers, o: OfficeId): set<CoverId>
  {
    set c | c in covers && covers[c].current == o && covers[c].status != Retired
  }

  function InstalledSet(covers: Covers, o: OfficeId): set<CoverId>
  {
    set c | c in covers && covers[c].current == o && covers[c].status == Installed
  }

  function GuestSet(covers: Covers, o: OfficeId): set<CoverId>
  {
    set c | c in covers && covers[c].current == o && covers[c].owner != o && covers[c].status != Retired
  }

  lemma HeldSplit(covers: Covers, o: OfficeId)
    ensures |HeldSet(covers, o)| == |InStockSet(covers, o)| + |InstalledSet(covers, o)|
    ensures |GuestSet(covers, o)| <= |HeldSet(covers, o)|
  {
    assert HeldSet(covers, o) == InStockSet(covers, o) + InstalledSet(covers, o);
    assert InStockSet(covers, o) !! InstalledSet(covers, o);
    SubsetSize(GuestSet(covers, o), HeldSet(covers, o));
  }

  /** The report's total is every cover held and not retired; loans in are among them. */
  lemma TotalCoversHeld(s: Ledger, o: OfficeId)
    ensures GetStock(s, o).total == |HeldSet(s.covers, o)|
    ensures GetStock(s, o).onLoanIn <= GetStock(s, o).total
  {
    HeldSplit(s.covers, o);
    assert CountOnLoanIn(s, o) == |GuestSet(s.covers, o)|;
    hide PlannedCount, ReservedCount, CountOnLoanOut, HeldSet, InStockSet, InstalledSet;
  }

  /** ORDER BY asset_code, id over covers. */
  function ByCode(covers: Covers): (CoverId, CoverId) -> bool
  {
    (x, y) => CodeLeq(Code(covers, x), x, Code(covers, y), y)
  }

  function Code(covers: Covers, c: CoverId): string
  {
    if c in covers then covers[c].assetCode else ""
  }

  predicate CodeLeq(a: string, x: CoverId, b: string, y: CoverId)
  {
    if a == b then StrLeq(x, y) else StrLeq(a, b)
  }

  lemma CodesCompare(a: string, x: CoverId, b: string, y: CoverId)
    ensures CodeLeq(a, x, b, y) || CodeLeq(b, y, a, x)
    ensures CodeLeq(a, x, b, y) && CodeLeq(b, y, a, x) ==> x == y
  {
    StrTotal(a, b);
    StrTotal(x, y);
    if StrLeq(a, b) && StrLeq(b, a) { StrAntisymmetric(a, b); }
    if StrLeq(x, y) && StrLeq(y, x) { StrAntisymmetric(x, y); }
    hide StrLeq;
  }

  lemma CodesChain(a: string, x: CoverId, b: string, y: CoverId, c: string, z: CoverId)
    requires CodeLeq(a, x, b, y) && CodeLeq(b, y, c, z)
    ensures CodeLeq(a, x, c, z)
  {
    if StrLeq(a, b) && StrLeq(b, c) { StrTransitive(a, b, c); }
    if StrLeq(a, b) && StrLeq(b, a) { StrAntisymmetric(a, b); }
    if StrLeq(x, y) && StrLeq(y, z) { StrTransitive(x, y, z); }
    hide StrLeq;
  }

  lemma ByCodeOrder(covers: Covers)
    ensures TotalOrder(ByCode(covers))
  {
    hide CodeLeq, Code;
    var leq := ByCode(covers);
    forall x, y ensures (leq(x, y) || leq(y, x)) && (leq(x, y) && leq(y, x) ==> x == y) {
      CodesCompare(Code(covers, x), x, Code(covers, y), y);
    }
    forall x, y, z | leq(x, y) && leq(y, z) ensures leq(x, z) {
      CodesChain(Code(covers, x), x, Code(covers, y), y, Code(covers, z), z);
    }
  }

  /** The covers the selection query locks for a request of n. */
  function Selection(s: Ledger, o: OfficeId, n: nat): (r: seq<CoverId>)
    ensures forall i, j :: 0 <= i < j < |r| ==> r[i] != r[j]
    ensures forall c :: c in r ==> EligibleAt(s, o, c)
  {
    ByCodeOrder(s.covers);
    TakeLeast(EligibleSet(s, o), ByCode(s.covers), n)
  }

  function Chosen(s: Ledger, r: Request): set<CoverId>
  {
    if r.qty < 0 then {} else set c | c in Selection(s, r.lender, r.qty)
  }

  /** The selection has as many covers as there are to be had, the least ones first. */
  lemma SelectionLeast(s: Ledger, o: OfficeId, n: nat)
    ensures |Selection(s, o, n)| == if n < |EligibleSet(s, o)| then n else |EligibleSet(s, o)|
    ensures forall x, y :: x in Selection(s, o, n) && y in EligibleSet(s, o) && y !in Selection(s, o, n) ==> ByCode(s.covers)(x, y)
  {
    ByCodeOrder(s.covers);
    hide TotalOrder, EligibleSet, ByCode;
  }

  /** ... that is, by asset code, and among equal asset codes by id. */
  lemma SelectionByCode(s: Ledger, o: OfficeId, n: nat, x: CoverId, y: CoverId)
    requires x in Selection(s, o, n) && y in EligibleSet(s, o) && y !in Selection(s, o, n)
    ensures x in s.covers && y in s.covers
    ensures StrLeq(s.covers[x].assetCode, s.covers[y].assetCode)
    ensures s.covers[x].assetCode == s.covers[y].assetCode ==> StrLeq(x, y) && x != y
  {
    SelectionLeast(s, o, n);
    assert EligibleAt(s, o, x) && ByCode(s.covers)(x, y);
    StrTotal(s.covers[x].assetCode, s.covers[x].assetCode);
    hide Selection, EligibleAt, EligibleSet, StrLeq;
  }

  lemma ChosenAreEligible(s: Ledger, r: Request)
    requires r.qty >= 1
    ensures |Chosen(s, r)| == |Selection(s, r.lender, r.qty)|
    ensures forall c :: c in Chosen(s, r) ==> EligibleAt(s, r.lender, c)
    ensures r.qty <= BorrowableCapacity(s, r.lender) ==> r.qty <= |EligibleSet(s, r.lender)|
  {
    SeqSetSize(Selection(s, r.lender, r.qty));
    hide Selection, EligibleAt, EligibleSet;
  }

  /** A request within the borrowable capacity finds exactly that many distinct eligible
      covers, the least by asset code and id, and is accepted: the "fewer covers than
      requested" and "not eligible" branches are dead. */
  lemma SelectionProgress(s: Ledger, id: BorrowId, a: Actor, r: Request)
    requires ValidClaims(a) && a.role != Admin && a.office.Some? && id !in s.borrows
    requires (forall k :: k in s.links ==> k.0 != id)
    requires r.lender != "" && r.lender != a.office.value && 1 <= r.qty && r.now < r.returnDate
    ensures r.qty <= BorrowableCapacity(s, r.lender) ==>
              && |Selection(s, r.lender, r.qty)| == r.qty
              && (forall x, y :: x in Selection(s, r.lender, r.qty) && y in EligibleSet(s, r.lender) && y !in Selection(s, r.lender, r.qty) ==>
                    ByCode(s.covers)(x, y))
    ensures CreateBorrow(s, id, a, Lookups(true, true, true), r, Chosen(s, r)).1 ==
              if r.qty <= BorrowableCapacity(s, r.lender) then Done else Refused(InsufficientStock)
  {
    SelectionLeast(s, r.lender, r.qty);
    ChosenAreEligible(s, r);
    hide Selection, Chosen, EligibleAt, EligibleSet, ByCode, BorrowableCapacity, NewLinks;
  }

  // ----- audit -----

  /** The furthest position a status can have in a chain of allowed moves. */
  function Rank(x: BorrowStatus): nat
  {
    match x
    case Requested => 1
    case Approved => 2
    case Rejected => 2
    case OnLoan => 3
    case Cancelled => 3
    case Overdue => 4
    case Returned => 5
  }

  lemma {:induction false} ChainLength(es: seq<AuditEvent>, x: BorrowStatus)
    requires Chain(es, x)
    ensures |es| <= Rank(x)
  {
    if |es| > 1 {
      var n := |es| - 1;
      assert Follows(es[n - 1].to, es[n]);
      ChainLength(es[..n], es[n - 1].to);
    }
  }

  /** Replaying a borrow's audit events gives its status, in at most five events. */
  lemma AuditReplay(s: Ledger, b: BorrowId)
    requires Inv(s) && b in s.borrows
    ensures b in s.audit && Chain(s.audit[b], s.borrows[b].status) && |s.audit[b]| <= 5
  {
    assert b in s.audit && Chain(s.audit[b], s.borrows[b].status) by { AuditOf(s); }
    hide Inv, Chain;
    ChainLength(s.audit[b], s.borrows[b].status);
  }

  /** The events of a borrow, one by one: CREATE, then moves that each start where the last one
      ended and are the ones their action names, up to the status of the borrow. */
  lemma AuditByEvent(s: Ledger, b: BorrowId)
    requires Inv(s) && b in s.borrows
    ensures b in s.audit && 1 <= |s.audit[b]| <= 5
    ensures s.audit[b][0] == AuditEvent(CreateAction, None, Requested) && s.audit[b][|s.audit[b]| - 1].to == s.borrows[b].status
    ensures forall i :: 0 < i < |s.audit[b]| ==> s.audit[b][i].from == Some(s.audit[b][i - 1].to)
    ensures forall i :: 0 < i < |s.audit[b]| ==>
              (s.audit[b][i].action, s.audit[b][i - 1].to, s.audit[b][i].to) in
                {(ApproveAction, Requested, Approved), (RejectAction, Requested, Rejected),
                 (CancelAction, Requested, BorrowStatus.Cancelled), (CancelAction, Approved, BorrowStatus.Cancelled),
                 (ActivateAction, Approved, OnLoan), (ReturnAction, OnLoan, Returned), (ReturnAction, Overdue, Returned),
                 (OverdueAction, OnLoan, Overdue)}
  {
    hide Inv;
    AuditReplay(s, b);
  }

  /** Running the overdue job again at the same time finds nothing due and adds no event. */
  lemma OverdueTwice(s: Ledger, now: int)
    ensures MarkOverdue(s, DueBorrows(s, now), now).1 == Done
    ensures var t := MarkOverdue(s, DueBorrows(s, now), now).0;
            DueBorrows(t, now) == {} && MarkOverdue(t, DueBorrows(t, now), now).0 == t
  {
    var t := MarkOverdue(s, DueBorrows(s, now), now).0;
    assert DueBorrows(t, now) == {};
    var u := MarkOverdue(t, {}, now).0;
    assert u.borrows == t.borrows && u.audit == t.audit;
  }
}
