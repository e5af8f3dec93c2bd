/** The borrow transactions and cover registration and retirement, as functions on committed states. */
module Borrows {
  import opened Collections
  import opened Stock

  /** Lookups in tables that no modelled transaction writes: is the actor's account active with
      the claimed role and office, does the lender office exist, is the borrower office named. */
  datatype Lookups = Lookups(actorActive: bool, lenderExists: bool, borrowerNamed: bool)

  predicate ValidClaims(a: Actor)
  {
    a.id != "" && (a.role != Admin ==> a.office.Some? && a.office.value != "")
  }

  predicate IsExecOf(a: Actor, o: OfficeId)
  {
    a.role == Exec && a.office == Some(o)
  }

  predicate MayHandOver(a: Actor, b: Borrow)
  {
    a.role == Admin || IsExecOf(a, b.lender)
  }

  predicate MayCancel(a: Actor, b: Borrow)
  {
    a.office == Some(b.borrower) && (a.role == Exec || (a.role == Tech && a.id == b.createdBy))
  }

  datatype Request = Request(lender: OfficeId, qty: int, returnDate: int, now: int)

  function Pairs(b: BorrowId, chosen: set<CoverId>): set<(BorrowId, CoverId)>
  {
    set c | c in chosen :: (b, c)
  }

  function NewLinks(b: BorrowId, chosen: set<CoverId>): (m: Links)
    ensures forall k :: k in m <==> k.0 == b && k.1 in chosen
    ensures forall k :: k in m ==> !m[k]
  {
    map k | k in Pairs(b, chosen) :: false
  }

  /** Opens a loan request on the covers the selection query locked. */
  function CreateBorrow(s: Ledger, id: BorrowId, a: Actor, env: Lookups, r: Request, chosen: set<CoverId>): (Ledger, Verdict)
  {
    if !ValidClaims(a) || a.role == Admin || a.office.None? then (s, Refused(Forbidden))
    else if r.lender == "" || r.lender == a.office.value || r.qty < 1 || r.returnDate <= r.now then (s, Refused(Validation))
    else if !env.actorActive then (s, Refused(Forbidden))
    else if !env.lenderExists then (s, Refused(Validation))
    else if r.qty > BorrowableCapacity(s, r.lender) then (s, Refused(InsufficientStock))
    else if |chosen| != r.qty then (s, Refused(InsufficientStock))
    else if exists c :: c in chosen && !EligibleAt(s, r.lender, c) then (s, Refused(Conflict))
    else if id in s.borrows || (exists k :: k in s.links && k.0 == id) then (s, Refused(DuplicateKey))
    else if !env.borrowerNamed then (s, Refused(Validation))
    else
      (s.(borrows := s.borrows[id := Borrow(a.office.value, r.lender, Requested, r.qty, r.returnDate, a.id)],
          links := s.links + NewLinks(id, chosen),
          audit := s.audit[id := Log(s.audit, id) + [AuditEvent(CreateAction, None, Requested)]]), Done)
  }

  /** Sets the status of one borrow and appends its audit event. */
  function Moved(s: Ledger, b: BorrowId, action: BorrowAction, to: BorrowStatus): Ledger
    requires b in s.borrows
  {
    s.(borrows := s.borrows[b := s.borrows[b].(status := to)],
       audit := s.audit[b := Log(s.audit, b) + [AuditEvent(action, Some(s.borrows[b].status), to)]])
  }

  function ReleasedLinks(s: Ledger, b: BorrowId): (m: Links)
    ensures m.Keys == s.links.Keys
  {
    map k | k in s.links :: s.links[k] || k.0 == b
  }

  function Released(s: Ledger, b: BorrowId): Ledger
  {
    s.(links := ReleasedLinks(s, b))
  }

  function Approve(s: Ledger, b: BorrowId, a: Actor, active: bool): (Ledger, Verdict)
  {
    if !ValidClaims(a) || !active then (s, Refused(Forbidden))
    else if b !in s.borrows then (s, Refused(NotFound))
    else if !IsExecOf(a, s.borrows[b].lender) then (s, Refused(Forbidden))
    else if s.borrows[b].status != Requested then (s, Refused(StateInvalid))
    else (Moved(s, b, ApproveAction, Approved), Done)
  }

  function Reject(s: Ledger, b: BorrowId, a: Actor, active: bool): (Ledger, Verdict)
  {
    if !ValidClaims(a) || !active then (s, Refused(Forbidden))
    else if b !in s.borrows then (s, Refused(NotFound))
    else if !IsExecOf(a, s.borrows[b].lender) then (s, Refused(Forbidden))
    else if s.borrows[b].status != Requested then (s, Refused(StateInvalid))
    else if |ActiveLinks(s.links, b)| != s.borrows[b].qty then (s, Refused(Conflict))
    else (Moved(Released(s, b), b, RejectAction, Rejected), Done)
  }

  function CancelBorrow(s: Ledger, b: BorrowId, a: Actor, active: bool): (Ledger, Verdict)
  {
    if !ValidClaims(a) || a.role == Admin || !active then (s, Refused(Forbidden))
    else if b !in s.borrows then (s, Refused(NotFound))
    else if !MayCancel(a, s.borrows[b]) then (s, Refused(Forbidden))
    else if !Pending(s.borrows[b]) then (s, Refused(StateInvalid))
    else if |ActiveLinks(s.links, b)| != s.borrows[b].qty then (s, Refused(Conflict))
    else (Moved(Released(s, b), b, CancelAction, BorrowStatus.Cancelled), Done)
  }

  predicate AvailableAtLender(s: Ledger, b: Borrow, c: CoverId)
  {
    InStockAt(s.covers, b.lender, c) && s.covers[c].owner == b.lender && !OpenOn(s.installs, c)
  }

  /** All covers of cs, moved to office o. */
  function Relocated(s: Ledger, cs: set<CoverId>, o: OfficeId): Ledger
  {
    s.(covers := map c | c in s.covers :: if c in cs then s.covers[c].(current := o) else s.covers[c])
  }

  function Activate(s: Ledger, b: BorrowId, a: Actor, active: bool): (Ledger, Verdict)
  {
    if !ValidClaims(a) || !active then (s, Refused(Forbidden))
    else if b !in s.borrows then (s, Refused(NotFound))
    else
      var row := s.borrows[b];
      var cs := ActiveLinks(s.links, b);
      if !MayHandOver(a, row) then (s, Refused(Forbidden))
      else if row.status != Approved then (s, Refused(StateInvalid))
      else if |cs| != row.qty then (s, Refused(Conflict))
      else if exists c :: c in cs && !AvailableAtLender(s, row, c) then (s, Refused(Conflict))
      else (Moved(Released(Relocated(s, cs, row.borrower), b), b, ActivateAction, OnLoan), Done)
  }

  predicate StillInstalled(s: Ledger, c: CoverId)
  {
    c in s.covers && (s.covers[c].status == Installed || OpenOn(s.installs, c))
  }

  predicate Returnable(s: Ledger, b: Borrow, c: CoverId)
  {
    InStockAt(s.covers, b.borrower, c) && s.covers[c].owner == b.lender
  }

  /** What the verification loop of a return finds, cover by cover. */
  function InspectReturn(s: Ledger, b: Borrow, rows: seq<CoverId>): Verdict
  {
    if rows == [] then Done
    else if StillInstalled(s, rows[0]) then Blocked
    else if !Returnable(s, b, rows[0]) then Refused(Conflict)
    else InspectReturn(s, b, rows[1..])
  }

  function LinkRows(s: Ledger, b: BorrowId): (r: seq<CoverId>)
    ensures forall c :: c in r <==> (b, c) in s.links
    ensures |r| == |LinkedCovers(s.links, b)|
    ensures forall i, j :: 0 <= i < j < |r| ==> r[i] != r[j]
  {
    StrOrder();
    SortSet(LinkedCovers(s.links, b), StrLeq)
  }

  /** A return that finds a cover still installed keeps the loan and marks it overdue. */
  function MarkedLate(s: Ledger, b: BorrowId): Ledger
    requires b in s.borrows
  {
    if s.borrows[b].status == OnLoan then Moved(s, b, OverdueAction, Overdue) else s
  }

  /** Records, at most once per borrow, that the borrower's plans now exceed its stock. */
  function RecordShortfall(s: Ledger, b: BorrowId, o: OfficeId): Ledger
  {
    if PlannedCount(s, o) <= InStockCount(s, o) || b in s.shortfalls then s
    else s.(shortfalls := s.shortfalls[b := Shortfall(o, PlannedCount(s, o), InStockCount(s, o))])
  }

  function Return(s: Ledger, b: BorrowId, a: Actor, active: bool): (Ledger, Verdict)
  {
    if !ValidClaims(a) || !active then (s, Refused(Forbidden))
    else if b !in s.borrows then (s, Refused(NotFound))
    else
      var row := s.borrows[b];
      if !MayHandOver(a, row) then (s, Refused(Forbidden))
      else if !Outstanding(row) then (s, Refused(StateInvalid))
      else if |LinkedCovers(s.links, b)| != row.qty then (s, Refused(Conflict))
      else
        match InspectReturn(s, row, LinkRows(s, b))
        case Done =>
          var home := Relocated(s, LinkedCovers(s.links, b), row.lender);
          (Moved(RecordShortfall(home, b, row.borrower), b, ReturnAction, Returned), Done)
        case Blocked => (MarkedLate(s, b), Blocked)
        case Refused(e) => (s, Refused(e))
  }

  predicate IsDue(b: Borrow, now: int) { b.status == OnLoan && b.returnDate < now }

  function DueBorrows(s: Ledger, now: int): set<BorrowId>
  {
    set b | b in s.borrows && IsDue(s.borrows[b], now)
  }

  const OVERDUE_EVENT := AuditEvent(OverdueAction, Some(OnLoan), Overdue)

  /** The overdue job, on the due rows its query locked. */
  function MarkOverdue(s: Ledger, due: set<BorrowId>, now: int): (Ledger, Verdict)
  {
    if exists b :: b in due && !(b in s.borrows && IsDue(s.borrows[b], now)) then (s, Refused(StateInvalid))
    else
      (s.(borrows := map b | b in s.borrows :: if b in due then s.borrows[b].(status := Overdue) else s.borrows[b],
          audit := map b | b in s.audit.Keys + due :: if b in due then Log(s.audit, b) + [OVERDUE_EVENT] else s.audit[b]), Done)
  }

  // ----- registration and retirement -----

  datatype Item = Item(id: CoverId, assetCode: string, qrCode: string, nfcId: Option<string>)

  /** The label printed on a cover that comes without one. */
  function GenerateQRCode(office: OfficeId, assetCode: string): string
  {
    "SCC:" + office + ":" + assetCode
  }

  /** The row an item becomes: born in stock, owned where it is. */
  function Prepared(office: OfficeId, item: Item): Cover
  {
    Cover(InStock, office, office, item.assetCode,
          if item.qrCode == "" then GenerateQRCode(office, item.assetCode) else item.qrCode, item.nfcId)
  }

  predicate WellFormed(office: OfficeId, item: Item)
  {
    item.assetCode != "" && office != "" && item.nfcId != Some("")
  }

  /** The first item that the batch loop objects to decides the error. */
  function BatchRefusal(office: OfficeId, items: seq<Item>, seen: set<Code>): Option<Error>
  {
    if items == [] then None
    else if !WellFormed(office, items[0]) then Some(Validation)
    else if !(CodesOf(Prepared(office, items[0])) !! seen) then Some(Conflict)
    else BatchRefusal(office, items[1..], seen + CodesOf(Prepared(office, items[0])))
  }

  function ItemIds(items: seq<Item>): set<CoverId>
  {
    set i | 0 <= i < |items| :: items[i].id
  }

  function ItemOf(items: seq<Item>, c: CoverId): (r: Item)
    requires c in ItemIds(items)
    ensures r in items && r.id == c
  {
    if items[0].id == c then items[0] else
      assert c in ItemIds(items[1..]) by {
        var i :| 0 <= i < |items| && items[i].id == c;
        assert items[1..][i - 1] == items[i];
      }
      ItemOf(items[1..], c)
  }

  predicate Storable(s: Ledger, office: OfficeId, items: seq<Item>)
  {
    && (forall i, j :: 0 <= i < j < |items| ==> items[i].id != items[j].id)
    && (forall i :: 0 <= i < |items| ==> items[i].id !in s.covers)
    && (forall i :: 0 <= i < |items| ==> CodesFree(s.covers, CodesOf(Prepared(office, items[i]))))
  }

  function NewCovers(office: OfficeId, items: seq<Item>): Covers
  {
    map c | c in ItemIds(items) :: Prepared(office, ItemOf(items, c))
  }

  function RegisterBatch(s: Ledger, office: OfficeId, items: seq<Item>): (Ledger, Verdict)
  {
    if items == [] then (s, Refused(Validation))
    else
      var refusal := BatchRefusal(office, items, {});
      if refusal.Some? then (s, Refused(refusal.value))
      else if !Storable(s, office, items) then (s, Refused(DuplicateKey))
      else (s.(covers := s.covers + NewCovers(office, items)), Done)
  }

  predicate RetirableCover(s: Ledger, c: CoverId)
    requires c in s.covers
  {
    && s.covers[c].current == s.covers[c].owner && s.covers[c].status == InStock
    && !OpenOn(s.installs, c) && !ReservedOn(s.links, c)
  }

  function Retire(s: Ledger, c: CoverId): (Ledger, Verdict)
  {
    if c !in s.covers then (s, Refused(NotFound))
    else if s.covers[c].owner == "" || !RetirableCover(s, c) || Free(s, s.covers[c].owner) < 1 then (s, Refused(Conflict))
    else (s.(covers := s.covers[c := s.covers[c].(status := Retired)]), Done)
  }
}
