/** Every refusal names a reason that holds, and the refusals a transaction can meet are few. */
module Refusals {
  import opened Collections
  import opened Stock
  import opened WorkOrders
  import opened Borrows
  import opened Transactions
  import opened Invariants
  import opened InvariantSteps
  import opened Promises
  import opened Progress
  import opened Rules

  /** What an error says about an order's transaction. */
  ghost predicate WorkReason(s: Ledger, op: Op, e: Error)
  {
    match op
    case OpenOrder(id, office, plan, assignee, ok) =>
      (match e
       case Validation => BadPlan(plan) || (assignee.Some? && !ok)
       case InsufficientStock => plan.qty.Some? && !HasFor(s, office, plan.qty.value)
       case DuplicateKey => id in s.orders
       case _ => false)
    case EditOrder(w, p, ok) =>
      (match e
       case NotFound => w !in s.orders
       case StateInvalid => w in s.orders && s.orders[w].status != Scheduled
       case Validation => w in s.orders && (BadEdit(s.orders[w], p) || (p.setAssignee && p.assignee.Some? && !ok))
       case InsufficientStock =>
         w in s.orders && !HasFor(s, s.orders[w].office, if p.qty.Some? then p.qty.value - s.orders[w].planned else 0)
       case _ => false)
    case AssignOrder(w, technician, ok) =>
      (match e
       case NotFound => w !in s.orders
       case StateInvalid => w in s.orders && s.orders[w].status in {Completed, OrderStatus.Cancelled}
       case Validation => !ok
       case _ => false)
    case Scan(a, w, c) =>
      || FieldReason(s, a, w, {Scheduled}, e)
      || (e == Conflict && w in s.orders && !(c in StockAt(s, s.orders[w].office) && ((w, c) in s.installs || Unclaimed(s, c))))
    case Unscan(a, w, c) => FieldReason(s, a, w, {Scheduled}, e)
    case Submit(a, w) =>
      || FieldReason(s, a, w, {Scheduled}, e)
      || (e == StateInvalid && RowsOf(s, w) == {})
      || (e == InsufficientStock && w in s.orders && !HasFor(s, s.orders[w].office, |RowsOf(s, w)| - s.orders[w].planned))
      || (e == EvidenceRequired && !AllPhotographed(s, w))
    case BeginRemoval(a, w) => FieldReason(s, a, w, {Active, RemovalDue}, e)
    case RemoveCover(a, w, c) => FieldReason(s, a, w, {Removing}, e) || (e == Conflict && (w, c) !in s.installs)
    case Complete(a, w) =>
      || FieldReason(s, a, w, {Removing}, e)
      || (e in {StateInvalid, EvidenceRequired} && !AllRemoved(s, w))
    case CancelWork(w) =>
      (match e
       case NotFound => w !in s.orders
       case StateInvalid => w in s.orders && s.orders[w].status != Scheduled
       case _ => false)
    case Attach(a, kind, w, c, key, early, storage) =>
      || early == Some(e)
      || (e == EvidenceInvalid && (key != Some(Photo(kind, w, c)) || storage == BadObject))
      || (e == EvidenceUnavailable && storage == Unreachable)
      || (e == NotFound && (w, c) !in s.installs)
      || (e == StateInvalid && kind == RemovePhoto && (w, c) in s.installs && !s.installs[(w, c)].removed)
      || FieldReason(s, a, w, if kind == InstallPhoto then {Scheduled} else {Removing}, e)
    case _ => false
  }

  /** No order, not this actor's order, or not in this status. */
  ghost predicate FieldReason(s: Ledger, a: Actor, w: OrderId, statuses: set<OrderStatus>, e: Error)
  {
    match e
    case NotFound => w !in s.orders
    case Forbidden => w in s.orders && !FieldActor(a, s.orders[w])
    case StateInvalid => w in s.orders && s.orders[w].status !in statuses
    case _ => false
  }

  predicate BadPlan(p: Planning)
  {
    p.qty.None? || p.qty.value < 1 || p.installDate.None? || p.removalDate.None? || p.installDate.value > p.removalDate.value
  }

  /** The row as edited would hold no valid plan. */
  predicate BadEdit(row: WorkOrder, p: Patch)
  {
    || (if p.qty.Some? then p.qty.value else row.planned) < 1
    || (if p.installDate.Some? then p.installDate.value else row.installDate) >
       (if p.removalDate.Some? then p.removalDate.value else row.removalDate)
  }

  lemma PlanReasons(s: Ledger, id: OrderId, o: OfficeId, p: Planning, assignee: Option<UserId>, ok: bool)
    requires Inv(s)
    ensures var v := CreateOrder(s, id, o, p, assignee, ok).1;
            v.Refused? ==> WorkReason(s, OpenOrder(id, o, p, assignee, ok), v.error)
  {
    hide Inv, Available, HasFor, LinksMatch;
    LinksAre(s);
    if p.qty.Some? && p.qty.value >= 1 {
      AvailableIs(s, o, "", p.qty.value);
    }
  }

  lemma EditReasons(s: Ledger, w: OrderId, p: Patch, ok: bool)
    requires Inv(s)
    ensures var v := UpdateScheduled(s, w, p, ok).1;
            v.Refused? ==> WorkReason(s, EditOrder(w, p, ok), v.error)
  {
    hide Inv, Available, HasFor, LinksMatch, FieldReason;
    LinksAre(s);
    if w in s.orders {
      var row := s.orders[w];
      var qty := if p.qty.Some? then p.qty.value else row.planned;
      if qty >= 1 {
        AvailableIs(s, row.office, w, qty);
      }
    }
  }

  lemma FieldReasons(s: Ledger, a: Actor, w: OrderId, statuses: set<OrderStatus>)
    ensures FieldRefusal(s, a, w, statuses).Some? ==> FieldReason(s, a, w, statuses, FieldRefusal(s, a, w, statuses).value)
  {
    FieldWorkIs(s, a, w, statuses);
    hide FieldRefusal, FieldActor, FieldWork;
  }

  lemma StatusReasons(s: Ledger, a: Actor, w: OrderId, c: CoverId)
    ensures var v := StartRemoval(s, a, w).1; v.Refused? ==> WorkReason(s, BeginRemoval(a, w), v.error)
    ensures var v := UnscanInstall(s, a, w, c).1; v.Refused? ==> WorkReason(s, Unscan(a, w, c), v.error)
    ensures var v := CancelOrder(s, w).1; v.Refused? ==> WorkReason(s, CancelWork(w), v.error)
  {
    FieldReasons(s, a, w, {Active, RemovalDue});
    FieldReasons(s, a, w, {Scheduled});
    hide FieldRefusal, FieldReason, HasFor, Unclaimed;
  }

  lemma AssignReasons(s: Ledger, w: OrderId, technician: UserId, ok: bool)
    ensures var v := Assign(s, w, technician, ok).1; v.Refused? ==> WorkReason(s, AssignOrder(w, technician, ok), v.error)
  {
    hide FieldReason, HasFor, Unclaimed;
  }

  lemma ScanReasons(s: Ledger, a: Actor, w: OrderId, c: CoverId)
    ensures var v := ScanInstall(s, a, w, c).1; v.Refused? ==> WorkReason(s, Scan(a, w, c), v.error)
  {
    FieldReasons(s, a, w, {Scheduled});
    if w in s.orders {
      StockIs(s, s.orders[w].office);
    }
    if (w, c) !in s.installs {
      ClaimsOn(s, w, c);
    }
    hide FieldRefusal, FieldReason, HasFor, Unclaimed, OpenElsewhere, ReservedOn, StockAt;
  }

  lemma SubmitReasons(s: Ledger, a: Actor, w: OrderId)
    requires Inv(s)
    ensures var v := SubmitInstall(s, a, w).1; v.Refused? ==> WorkReason(s, Submit(a, w), v.error)
  {
    hide Inv, FieldRefusal, Available, HasFor, MayWorkOn, FieldActor, LinksMatch, InstalledCovers, RowsOf, FieldReason;
    LinksAre(s);
    RowsAre(s, w);
    FieldReasons(s, a, w, {Scheduled});
    FieldWorkIs(s, a, w, {Scheduled});
    SubmitFirst(s, a, w);
    hide SubmitInstall;
    if FieldWork(s, a, w, {Scheduled}) {
      ActorIs(a, s.orders[w]);
      SubmitProgress(s, a, w);
      if RowsOf(s, w) != {} {
        AvailableIs(s, s.orders[w].office, w, |RowsOf(s, w)|);
      }
    }
    hide Unclaimed, FieldWork;
  }

  lemma SubmitFirst(s: Ledger, a: Actor, w: OrderId)
    ensures var refusal := FieldRefusal(s, a, w, {Scheduled});
            refusal.Some? ==> SubmitInstall(s, a, w).1 == Refused(refusal.value)
  {
    hide FieldRefusal, Available, ReadyToInstall, InstalledCovers, SubmittedCovers, SubmittedInstalls;
  }

  lemma RemoveReasons(s: Ledger, a: Actor, w: OrderId, c: CoverId)
    requires Inv(s)
    ensures var v := ScanRemove(s, a, w, c).1; v.Refused? ==> WorkReason(s, RemoveCover(a, w, c), v.error)
  {
    hide Inv, FieldRefusal, FieldActor, MayWorkOn, Unremoved, FieldReason;
    FieldReasons(s, a, w, {Removing});
    FieldWorkIs(s, a, w, {Removing});
    RemoveFirst(s, a, w, c);
    hide ScanRemove;
    if FieldWork(s, a, w, {Removing}) && (w, c) in s.installs {
      ActorIs(a, s.orders[w]);
      RemovalProgress(s, a, w, c);
    }
    hide FieldWork, HasFor, Unclaimed;
  }

  lemma RemoveFirst(s: Ledger, a: Actor, w: OrderId, c: CoverId)
    ensures var refusal, v := FieldRefusal(s, a, w, {Removing}), ScanRemove(s, a, w, c).1;
            v.Refused? ==> if refusal.Some? then v.error == refusal.value else v.error == Conflict
  {
    hide FieldRefusal;
  }

  lemma CompleteReasons(s: Ledger, a: Actor, w: OrderId)
    requires Inv(s)
    ensures var v := CompleteRemoval(s, a, w).1; v.Refused? ==> WorkReason(s, Complete(a, w), v.error)
  {
    hide Inv, FieldRefusal, FieldActor, MayWorkOn, Unremoved, FieldReason;
    FieldReasons(s, a, w, {Removing});
    FieldWorkIs(s, a, w, {Removing});
    RemovedAre(s, w);
    CompleteFirst(s, a, w);
    hide CompleteRemoval;
    if FieldWork(s, a, w, {Removing}) {
      ActorIs(a, s.orders[w]);
      CompletionProgress(s, a, w);
    }
    hide FieldWork, HasFor, Unclaimed, AllRemoved;
  }

  lemma CompleteFirst(s: Ledger, a: Actor, w: OrderId)
    ensures var refusal, v := FieldRefusal(s, a, w, {Removing}), CompleteRemoval(s, a, w).1;
            v.Refused? ==> if refusal.Some? then v.error == refusal.value else v.error in {StateInvalid, EvidenceRequired}
  {
    TwoObjections(s, w, InstallationRows(s, w));
    hide FieldRefusal, RemovalRefusal, InstallationRows, ListsInstallations;
  }

  lemma EvidenceReasons(s: Ledger, a: Actor, kind: PhotoKind, w: OrderId, c: CoverId)
    requires Inv(s)
    ensures var refusal := EvidenceRefusal(s, a, kind, w, c);
            refusal.Some? ==>
              || (refusal.value == NotFound && (w, c) !in s.installs)
              || (refusal.value == StateInvalid && kind == RemovePhoto && (w, c) in s.installs && !s.installs[(w, c)].removed)
              || FieldReason(s, a, w, if kind == InstallPhoto then {Scheduled} else {Removing}, refusal.value)
  {
    if w in s.orders {
      ActorIs(a, s.orders[w]);
      ShapesAre(s, w);
    }
    hide Inv, FieldActor, MayWorkOn;
  }

  lemma AttachReasons(s: Ledger, a: Actor, kind: PhotoKind, w: OrderId, c: CoverId, key: Option<Photo>, early: Option<Error>,
        storage: StorageAnswer)
    requires Inv(s)
    ensures var v := AttachEvidence(s, a, kind, w, c, key, early, storage).1;
            v.Refused? ==> WorkReason(s, Attach(a, kind, w, c, key, early, storage), v.error)
  {
    hide Inv, EvidenceRefusal, FieldReason;
    EvidenceReasons(s, a, kind, w, c);
    hide HasFor, Unclaimed;
  }

  // ----- loans and covers -----

  /** What an error says about a loan's or a cover's transaction. */
  ghost predicate LoanReason(s: Ledger, op: Op, e: Error)
  {
    match op
    case RequestLoan(b, a, env, r, chosen) =>
      (match e
       case Forbidden => a.id == "" || a.role == Admin || a.office == None || a.office == Some("") || !env.actorActive
       case Validation =>
         || r.lender == "" || a.office == Some(r.lender) || r.qty < 1 || r.returnDate <= r.now
         || !env.lenderExists || !env.borrowerNamed
       case InsufficientStock =>
         || |chosen| != r.qty || r.qty > |LendableAt(s, r.lender)|
         || Plans(s, r.lender) + Promised(s, r.lender) + r.qty > |OwnStockAt(s, r.lender)|
       case Conflict => !(chosen <= LendableAt(s, r.lender))
       case DuplicateKey => b in s.borrows
       case _ => false)
    case ApproveLoan(b, a, active) =>
      AnswerReason(s, b, b in s.borrows && active && Executive(a, s.borrows[b].lender), {Requested}, e)
    case RejectLoan(b, a, active) =>
      AnswerReason(s, b, b in s.borrows && active && Executive(a, s.borrows[b].lender), {Requested}, e)
    case CancelLoan(b, a, active) =>
      AnswerReason(s, b, b in s.borrows && active && Requester(a, s.borrows[b]), {Requested, Approved}, e)
    case ActivateLoan(b, a, active) =>
      AnswerReason(s, b, b in s.borrows && active && Custodian(a, s.borrows[b]), {Approved}, e)
    case ReturnLoan(b, a, active) =>
      AnswerReason(s, b, b in s.borrows && active && Custodian(a, s.borrows[b]), {OnLoan, Overdue}, e)
    case LoansFallDue(due, now) =>
      e == StateInvalid && exists b :: b in due && !(b in s.borrows && s.borrows[b].status == OnLoan && s.borrows[b].returnDate < now)
    case Register(office, items) =>
      (match e
       case Validation => items == [] || office == "" || exists i :: 0 <= i < |items| && (items[i].assetCode == "" || items[i].nfcId == Some(""))
       case Conflict =>
         exists i, j :: 0 <= i < j < |items| && SharesCode(office, items[i], items[j].assetCode, LabelOf(office, items[j]), items[j].nfcId)
       case DuplicateKey => Taken(s, office, items)
       case _ => false)
    case RetireCover(c) =>
      (match e
       case NotFound => c !in s.covers
       case Conflict =>
         c in s.covers && !(&& s.covers[c].status == InStock && s.covers[c].owner != "" && s.covers[c].current == s.covers[c].owner
                            && Unclaimed(s, c) && HasFor(s, s.covers[c].owner, 1))
       case _ => false)
    case _ => false
  }

  /** No such loan, not this actor's to decide, or not in this status. */
  ghost predicate AnswerReason(s: Ledger, b: BorrowId, authorised: bool, statuses: set<BorrowStatus>, e: Error)
  {
    match e
    case NotFound => b !in s.borrows
    case Forbidden => !authorised
    case StateInvalid => b in s.borrows && s.borrows[b].status !in statuses
    case _ => false
  }

  /** An id or a code of the batch is stored already, or an id comes twice. */
  ghost predicate Taken(s: Ledger, office: OfficeId, items: seq<Item>)
  {
    || (exists i, j :: 0 <= i < j < |items| && items[i].id == items[j].id)
    || (exists i :: 0 <= i < |items| && items[i].id in s.covers)
    || (exists i, c :: 0 <= i < |items| && c in s.covers &&
                       SharesCode(office, items[i], s.covers[c].assetCode, s.covers[c].qrCode, s.covers[c].nfcId))
  }

  lemma RequestReasons(s: Ledger, b: BorrowId, a: Actor, env: Lookups, r: Request, chosen: set<CoverId>)
    requires Inv(s)
    ensures var v := CreateBorrow(s, b, a, env, r, chosen).1;
            v.Refused? ==> LoanReason(s, RequestLoan(b, a, env, r, chosen), v.error)
  {
    hide Inv, BorrowableCapacity, EligibleAt, LendableAt, Plans, Promised, OwnStockAt, LinksMatch, NewLinks, Log;
    LinksAre(s);
    LinkKeys(s);
    LendableIs(s, r.lender);
    if r.qty >= 1 {
      BorrowableIs(s, r.lender, r.qty);
    }
    hide AnswerReason, Taken, SharesCode, HasFor, Unclaimed;
  }

  lemma AnswerReasons(s: Ledger, b: BorrowId, a: Actor, active: bool)
    requires Inv(s)
    ensures var v := Approve(s, b, a, active).1;
            v.Refused? ==> AnswerReason(s, b, b in s.borrows && active && Executive(a, s.borrows[b].lender), {Requested}, v.error)
    ensures var v := Reject(s, b, a, active).1;
            v.Refused? ==> AnswerReason(s, b, b in s.borrows && active && Executive(a, s.borrows[b].lender), {Requested}, v.error)
    ensures var v := CancelBorrow(s, b, a, active).1;
            v.Refused? ==> AnswerReason(s, b, b in s.borrows && active && Requester(a, s.borrows[b]), {Requested, Approved}, v.error)
  {
    hide Inv, ValidClaims, IsExecOf, MayHandOver, MayCancel, Executive, Custodian, Requester, ActiveLinks, Moved, Released, Activate;
    if b in s.borrows {
      ClaimsAre(a, s.borrows[b]);
      if Pending(s.borrows[b]) {
        ActivationProgress(s, b, a);
      }
    }
  }

  lemma ActivateReasons(s: Ledger, b: BorrowId, a: Actor, active: bool)
    requires Inv(s)
    ensures var v := Activate(s, b, a, active).1;
            v.Refused? ==> AnswerReason(s, b, b in s.borrows && active && Custodian(a, s.borrows[b]), {Approved}, v.error)
  {
    hide Inv, ValidClaims, MayHandOver, Custodian, ActiveLinks;
    ActivateErrors(s, b, a, active);
    hide Activate;
    if b in s.borrows {
      ClaimsAre(a, s.borrows[b]);
      if Pending(s.borrows[b]) {
        ActivationProgress(s, b, a);
      }
    }
  }

  lemma ActivateErrors(s: Ledger, b: BorrowId, a: Actor, active: bool)
    ensures var v := Activate(s, b, a, active).1;
            v.Refused? ==>
              match v.error
              case Forbidden => !ValidClaims(a) || !active || (b in s.borrows && !MayHandOver(a, s.borrows[b]))
              case NotFound => b !in s.borrows
              case StateInvalid => b in s.borrows && s.borrows[b].status != Approved
              case Conflict => active && ValidClaims(a) && b in s.borrows && MayHandOver(a, s.borrows[b]) && s.borrows[b].status == Approved
              case _ => false
  {
    hide ValidClaims, MayHandOver, ActiveLinks, AvailableAtLender, Moved, Released, Relocated;
  }

  lemma ReturnErrors(s: Ledger, b: BorrowId, a: Actor, active: bool)
    ensures var v := Return(s, b, a, active).1;
            v.Refused? ==>
              match v.error
              case Forbidden => !ValidClaims(a) || !active || (b in s.borrows && !MayHandOver(a, s.borrows[b]))
              case NotFound => b !in s.borrows
              case StateInvalid => b in s.borrows && !Outstanding(s.borrows[b])
              case Conflict => active && ValidClaims(a) && b in s.borrows && MayHandOver(a, s.borrows[b]) && Outstanding(s.borrows[b])
              case _ => false
  {
    if b in s.borrows {
      InspectionErrors(s, s.borrows[b], LinkRows(s, b));
    }
    hide ValidClaims, MayHandOver, InspectReturn, LinkRows, LinkedCovers, Moved, RecordShortfall, Relocated, MarkedLate;
  }

  lemma {:induction false} InspectionErrors(s: Ledger, loan: Borrow, rows: seq<CoverId>)
    ensures InspectReturn(s, loan, rows) in {Done, Blocked, Refused(Conflict)}
  {
    if rows != [] {
      InspectionErrors(s, loan, rows[1..]);
    }
  }

  lemma ReturnReasons(s: Ledger, b: BorrowId, a: Actor, active: bool)
    requires Inv(s)
    ensures var v := Return(s, b, a, active).1;
            v.Refused? ==> AnswerReason(s, b, b in s.borrows && active && Custodian(a, s.borrows[b]), {OnLoan, Overdue}, v.error)
  {
    hide Inv, ValidClaims, MayHandOver, Custodian, AllFree, CameHome, StayedLate;
    ReturnErrors(s, b, a, active);
    hide Return;
    if b in s.borrows {
      ClaimsAre(a, s.borrows[b]);
      if Outstanding(s.borrows[b]) && active && ValidClaims(a) && MayHandOver(a, s.borrows[b]) {
        ReturnProgress(s, b, a);
      }
    }
  }

  lemma DueReasons(s: Ledger, due: set<BorrowId>, now: int)
    ensures var v := MarkOverdue(s, due, now).1;
            v.Refused? ==> LoanReason(s, LoansFallDue(due, now), v.error)
  {
    hide Log, AnswerReason, Taken, SharesCode, HasFor, Unclaimed;
  }

  lemma {:induction false} BatchReasons(office: OfficeId, items: seq<Item>, seen: set<Code>)
    ensures BatchRefusal(office, items, seen) in {None, Some(Validation), Some(Conflict)}
    ensures BatchRefusal(office, items, seen) == Some(Validation) ==> exists i :: 0 <= i < |items| && !WellFormed(office, items[i])
    ensures BatchRefusal(office, items, seen) == Some(Conflict) ==>
              (exists i :: 0 <= i < |items| && !(CodesOf(Prepared(office, items[i])) !! seen)) || !ItemsApart(office, items)
  {
    hide WellFormed, CodesOf, Prepared;
    if items != [] {
      var rest := items[1..];
      BatchReasons(office, rest, seen + CodesOf(Prepared(office, items[0])));
      assert forall i :: 0 < i < |items| ==> items[i] == rest[i - 1];
      assert forall i :: 0 <= i < |rest| ==> rest[i] == items[i + 1];
    }
  }

  lemma RegisterErrors(s: Ledger, office: OfficeId, items: seq<Item>)
    ensures var v := RegisterBatch(s, office, items).1;
            v.Refused? ==>
              || (v.error == Validation && items == [])
              || BatchRefusal(office, items, {}) == Some(v.error)
              || (v.error == DuplicateKey && !Storable(s, office, items))
  {
    hide BatchRefusal, Storable, NewCovers;
  }

  lemma ClashIs(office: OfficeId, items: seq<Item>)
    ensures !ItemsApart(office, items) ==>
              exists i, j :: 0 <= i < j < |items| && SharesCode(office, items[i], items[j].assetCode, LabelOf(office, items[j]), items[j].nfcId)
  {
    forall i, j | 0 <= i < j < |items|
      ensures CodesOf(Prepared(office, items[i])) !! CodesOf(Prepared(office, items[j])) <==>
              !SharesCode(office, items[i], items[j].assetCode, LabelOf(office, items[j]), items[j].nfcId)
    {
      CodesApart(office, items[i], Prepared(office, items[j]));
      PreparedIs(office, items[j]);
    }
    hide CodesOf, Prepared, SharesCode, LabelOf;
  }

  lemma TakenIs(s: Ledger, office: OfficeId, items: seq<Item>)
    ensures !Storable(s, office, items) ==> Taken(s, office, items)
  {
    forall i, c | 0 <= i < |items| && c in s.covers
      ensures CodesOf(s.covers[c]) !! CodesOf(Prepared(office, items[i])) <==>
              !SharesCode(office, items[i], s.covers[c].assetCode, s.covers[c].qrCode, s.covers[c].nfcId)
    {
      CodesApart(office, items[i], s.covers[c]);
    }
    hide CodesOf, Prepared, SharesCode;
  }

  lemma RegisterReasons(s: Ledger, office: OfficeId, items: seq<Item>)
    ensures var v := RegisterBatch(s, office, items).1;
            v.Refused? ==> LoanReason(s, Register(office, items), v.error)
  {
    RegisterErrors(s, office, items);
    BatchReasons(office, items, {});
    ClashIs(office, items);
    TakenIs(s, office, items);
    hide RegisterBatch, Storable, CodesOf, Prepared, SharesCode, BatchRefusal, LabelOf, ItemsApart, Taken, AnswerReason, HasFor, Unclaimed;
  }

  lemma RetireReasons(s: Ledger, c: CoverId)
    requires Inv(s)
    ensures var v := Retire(s, c).1; v.Refused? ==> LoanReason(s, RetireCover(c), v.error)
  {
    RetireRule(s, c);
    RetireErrors(s, c);
    hide Retire, Inv, HasFor, Unclaimed, AnswerReason, Taken, SharesCode;
  }

  lemma RetireErrors(s: Ledger, c: CoverId)
    ensures Retire(s, c).1 in {Done, Refused(NotFound), Refused(Conflict)}
    ensures Retire(s, c).1 == Refused(NotFound) <==> c !in s.covers
  {
    hide Free, OpenOn, ReservedOn;
  }

  // ----- every refusal -----

  ghost predicate Reason(s: Ledger, op: Op, e: Error)
  {
    WorkReason(s, op, e) || LoanReason(s, op, e)
  }

  lemma WorkRefusals(s: Ledger, op: Op)
    requires Inv(s) && OnOrder(op)
    ensures Step(s, op).1.Refused? ==> WorkReason(s, op, Step(s, op).1.error)
  {
    hide Inv, CreateOrder, UpdateScheduled, Assign, ScanInstall, UnscanInstall, SubmitInstall, StartRemoval, ScanRemove;
    hide CompleteRemoval, CancelOrder, AttachEvidence, MarkRemovalDue, WorkReason;
    match op
    case OpenOrder(id, o, p, assignee, ok) => PlanReasons(s, id, o, p, assignee, ok);
    case EditOrder(w, p, ok) => EditReasons(s, w, p, ok);
    case AssignOrder(w, technician, ok) => AssignReasons(s, w, technician, ok);
    case Scan(a, w, c) => ScanReasons(s, a, w, c);
    case Unscan(a, w, c) => StatusReasons(s, a, w, c);
    case Submit(a, w) => SubmitReasons(s, a, w);
    case BeginRemoval(a, w) => StatusReasons(s, a, w, "");
    case RemoveCover(a, w, c) => RemoveReasons(s, a, w, c);
    case Complete(a, w) => CompleteReasons(s, a, w);
    case CancelWork(w) => StatusReasons(s, Actor("", Admin, None), w, "");
    case Attach(a, kind, w, c, key, early, storage) => AttachReasons(s, a, kind, w, c, key, early, storage);
    case RemovalFallsDue(w, now) => RemovalDueRule(s, w, now);
    case _ =>
  }

  lemma LoanRefusals(s: Ledger, op: Op)
    requires Inv(s) && !OnOrder(op)
    ensures Step(s, op).1.Refused? ==> LoanReason(s, op, Step(s, op).1.error)
  {
    hide Inv, CreateBorrow, Approve, Reject, CancelBorrow, Activate, Return, MarkOverdue, RegisterBatch, Retire;
    hide AnswerReason, Taken, SharesCode, HasFor, Unclaimed, Executive, Requester, Custodian, LendableAt, Plans, Promised, OwnStockAt;
    match op
    case RequestLoan(b, a, env, r, chosen) => RequestReasons(s, b, a, env, r, chosen);
    case ApproveLoan(b, a, active) => AnswerReasons(s, b, a, active);
    case RejectLoan(b, a, active) => AnswerReasons(s, b, a, active);
    case CancelLoan(b, a, active) => AnswerReasons(s, b, a, active);
    case ActivateLoan(b, a, active) => ActivateReasons(s, b, a, active);
    case ReturnLoan(b, a, active) => ReturnReasons(s, b, a, active);
    case LoansFallDue(due, now) => DueReasons(s, due, now);
    case Register(office, items) => RegisterReasons(s, office, items);
    case RetireCover(c) => RetireReasons(s, c);
    case _ =>
  }

  /** A refused caller is told a reason that holds in the state it was refused in, and no
      transaction has a reason that is not listed for it. */
  lemma RefusalsAreTruthful(s: Ledger, op: Op)
    requires Inv(s) && Step(s, op).1.Refused?
    ensures Reason(s, op, Step(s, op).1.error)
  {
    hide Step, Inv, WorkReason, LoanReason, OnOrder;
    if OnOrder(op) {
      WorkRefusals(s, op);
    } else {
      LoanRefusals(s, op);
    }
  }

  /** The one outcome that commits and is still answered with an error. */
  lemma BlockedExactlyWhen(s: Ledger, op: Op)
    requires Inv(s)
    ensures Step(s, op).1 == Blocked <==>
            && op.ReturnLoan? && op.active && op.loan in s.borrows && Custodian(op.actor, s.borrows[op.loan])
            && s.borrows[op.loan].status in {OnLoan, Overdue} && !NothingOut(s, op.loan)
  {
    if Step(s, op).1 == Blocked {
      BlockedIsReturn(s, op);
    }
    if op.ReturnLoan? {
      ReturnStep(s, op);
      hide *;
      ReturnRule(s, op.loan, op.actor, op.active);
    }
  }
}
