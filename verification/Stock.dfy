/** The tables the stock services share, and the counting queries they run on them. */
module Stock {
  import opened Collections

  type OfficeId = string
  type UserId = string
  type CoverId = string
  type OrderId = string
  type BorrowId = string

  datatype CoverStatus = InStock | Installed | Retired
  datatype OrderStatus = Scheduled | Active | RemovalDue | Removing | Completed | Cancelled
  datatype BorrowStatus = Requested | Approved | OnLoan | Overdue | Returned | Rejected | Cancelled

  predicate CoverMayMove(x: CoverStatus, y: CoverStatus)
  {
    match x
    case InStock => y == Installed || y == Retired
    case Installed => y == InStock
    case Retired => false
  }

  predicate OrderMayMove(x: OrderStatus, y: OrderStatus)
  {
    match x
    case Scheduled => y == Active || y == OrderStatus.Cancelled
    case Active => y == RemovalDue || y == Removing
    case RemovalDue => y == Removing
    case Removing => y == Completed
    case Completed => false
    case Cancelled => false
  }

  predicate BorrowMayMove(x: BorrowStatus, y: BorrowStatus)
  {
    match x
    case Requested => y == Approved || y == Rejected || y == BorrowStatus.Cancelled
    case Approved => y == OnLoan || y == BorrowStatus.Cancelled
    case OnLoan => y == Returned || y == Overdue
    case Overdue => y == Returned
    case _ => false
  }

  /** Assignment is open until an order is terminal. */
  predicate CanAssign(x: OrderStatus)
  {
    x == Scheduled || x == Active || x == RemovalDue || x == Removing
  }

  datatype Cover = Cover(status: CoverStatus, owner: OfficeId, current: OfficeId, assetCode: string, qrCode: string, nfcId: Option<string>)

  /** A code in the column that holds it; each column has a unique index of its own. */
  datatype Code = Asset(text: string) | Qr(text: string) | Nfc(text: string)

  function CodesOf(x: Cover): set<Code>
  {
    {Asset(x.assetCode), Qr(x.qrCode)} + if x.nfcId.Some? then {Nfc(x.nfcId.value)} else {}
  }

  /** What the unique indexes ask of a new row. */
  predicate CodesFree(covers: Covers, codes: set<Code>)
  {
    forall c :: c in covers ==> CodesOf(covers[c]) !! codes
  }

  datatype WorkOrder = WorkOrder(office: OfficeId, status: OrderStatus, planned: nat,
                                 installDate: int, removalDate: int, assignee: Option<UserId>)

  datatype PhotoKind = InstallPhoto | RemovePhoto

  /** The relation an evidence object key validates for; a key validates for at most one
      (see EvidenceKeys), so rows store the relation instead of the key's text. */
  datatype Photo = Photo(kind: PhotoKind, order: OrderId, cover: CoverId)

  datatype Installation = Installation(installed: bool, removed: bool,
                                       installPhoto: Option<Photo>, removePhoto: Option<Photo>)

  datatype Borrow = Borrow(borrower: OfficeId, lender: OfficeId, status: BorrowStatus, qty: nat,
                           returnDate: int, createdBy: UserId)

  datatype BorrowAction = CreateAction | ApproveAction | RejectAction | CancelAction | ActivateAction | ReturnAction | OverdueAction

  datatype AuditEvent = AuditEvent(action: BorrowAction, from: Option<BorrowStatus>, to: BorrowStatus)

  datatype Shortfall = Shortfall(office: OfficeId, expected: nat, observed: nat)

  type Covers = map<CoverId, Cover>
  type Orders = map<OrderId, WorkOrder>
  type Installs = map<(OrderId, CoverId), Installation>
  type Borrowings = map<BorrowId, Borrow>
  type Links = map<(BorrowId, CoverId), bool>
  type Audits = map<BorrowId, seq<AuditEvent>>
  type Shortfalls = map<BorrowId, Shortfall>

  /** One committed database state. Rows with a composite unique index are keyed by it:
      installations by (order, cover) and borrow covers by (borrow, cover). The value of a
      borrow-cover row tells whether the reservation has been released. */
  datatype Ledger = Ledger(covers: Covers, orders: Orders, installs: Installs, borrows: Borrowings,
                           links: Links, audit: Audits, shortfalls: Shortfalls)

  const EMPTY := Ledger(map[], map[], map[], map[], map[], map[], map[])

  datatype Error = NotFound | Forbidden | Validation | StateInvalid | Conflict | InsufficientStock
                 | EvidenceRequired | EvidenceInvalid | EvidenceUnavailable | DuplicateKey

  /** Done commits; Blocked commits too but is reported to the caller as a conflict; Refused rolls back. */
  datatype Verdict = Done | Blocked | Refused(error: Error)

  datatype Role = Admin | Exec | Tech

  datatype Actor = Actor(id: UserId, role: Role, office: Option<OfficeId>)

  // ----- row predicates -----

  predicate Open(i: Installation) { !i.removed }

  predicate Live(i: Installation) { i.installed && !i.removed }

  predicate OpenOn(installs: Installs, c: CoverId)
  {
    exists k :: k in installs && k.1 == c && Open(installs[k])
  }

  predicate ReservedOn(links: Links, c: CoverId)
  {
    exists k :: k in links && k.1 == c && !links[k]
  }

  predicate Outstanding(b: Borrow) { b.status == OnLoan || b.status == Overdue }

  predicate Pending(b: Borrow) { b.status == Requested || b.status == Approved }

  predicate InStockAt(covers: Covers, o: OfficeId, c: CoverId)
  {
    c in covers && covers[c].status == InStock && covers[c].current == o
  }

  predicate OwnedAt(covers: Covers, o: OfficeId, c: CoverId)
  {
    InStockAt(covers, o, c) && covers[c].owner == o
  }

  predicate ScheduledAt(orders: Orders, o: OfficeId, w: OrderId)
  {
    w in orders && orders[w].office == o && orders[w].status == Scheduled
  }

  /** Lender stock that may be promised: owned, at home, in stock, unclaimed. */
  predicate EligibleAt(s: Ledger, o: OfficeId, c: CoverId)
  {
    OwnedAt(s.covers, o, c) && !OpenOn(s.installs, c) && !ReservedOn(s.links, c)
  }

  // ----- counting queries -----

  function InStockSet(covers: Covers, o: OfficeId): set<CoverId>
  {
    set c | c in covers && InStockAt(covers, o, c)
  }

  function OwnedSet(covers: Covers, o: OfficeId): set<CoverId>
  {
    set c | c in covers && OwnedAt(covers, o, c)
  }

  function EligibleSet(s: Ledger, o: OfficeId): set<CoverId>
  {
    set c | c in s.covers && EligibleAt(s, o, c)
  }

  /** Unreleased reservations of covers that o lends. */
  function ReservationSet(borrows: Borrowings, links: Links, o: OfficeId): set<(BorrowId, CoverId)>
  {
    set k | k in links && !links[k] && k.0 in borrows && borrows[k.0].lender == o
  }

  /** SUM(planned_qty) over the scheduled orders of o is the size of this set of slots. */
  function SlotSet(orders: Orders, o: OfficeId, exclude: Option<OrderId>): set<(OrderId, int)>
  {
    set w, i | w in orders && ScheduledAt(orders, o, w) && exclude != Some(w) && 0 <= i < orders[w].planned :: (w, i)
  }

  function InStockCount(s: Ledger, o: OfficeId): nat { |InStockSet(s.covers, o)| }

  function PlannedCount(s: Ledger, o: OfficeId): nat { |SlotSet(s.orders, o, None)| }

  function ReservedCount(s: Ledger, o: OfficeId): nat { |ReservationSet(s.borrows, s.links, o)| }

  /** Stock of o that nothing has claimed yet; negative while plans exceed stock. */
  function Free(s: Ledger, o: OfficeId): int
  {
    InStockCount(s, o) - PlannedCount(s, o) - ReservedCount(s, o)
  }

  /** What work-order planning at o may still take, leaving out one order's own plan. */
  function Available(s: Ledger, o: OfficeId, exclude: Option<OrderId>): nat
  {
    var n := InStockCount(s, o) - |SlotSet(s.orders, o, exclude)| - ReservedCount(s, o);
    if n < 0 then 0 else n
  }

  function BorrowableCapacity(s: Ledger, o: OfficeId): nat
  {
    var formula := |OwnedSet(s.covers, o)| - PlannedCount(s, o) - ReservedCount(s, o);
    var capped := if formula < 0 then 0 else formula;
    if |EligibleSet(s, o)| < capped then |EligibleSet(s, o)| else capped
  }

  function InstalledCovers(installs: Installs, w: OrderId): (r: set<CoverId>)
    ensures forall c :: c in r <==> (w, c) in installs
  {
    var r := set k | k in installs && k.0 == w :: k.1;
    assert forall c :: (w, c) in installs ==> (w, c).1 in r;
    r
  }

  function LinkedCovers(links: Links, b: BorrowId): (r: set<CoverId>)
    ensures forall c :: c in r <==> (b, c) in links
  {
    var r := set k | k in links && k.0 == b :: k.1;
    assert forall c :: (b, c) in links ==> (b, c).1 in r;
    r
  }

  function ActiveLinks(links: Links, b: BorrowId): (r: set<CoverId>)
    ensures forall c :: c in r <==> (b, c) in links && !links[(b, c)]
  {
    var r := set k | k in links && k.0 == b && !links[k] :: k.1;
    assert forall c :: (b, c) in links && !links[(b, c)] ==> (b, c).1 in r;
    r
  }

  function CountOnLoanOut(s: Ledger, o: OfficeId): nat
  {
    |set c | c in s.covers && s.covers[c].owner == o && s.covers[c].current != o && s.covers[c].status != Retired|
  }

  function CountOnLoanIn(s: Ledger, o: OfficeId): nat
  {
    |set c | c in s.covers && s.covers[c].current == o && s.covers[c].owner != o && s.covers[c].status != Retired|
  }

  function Log(audit: Audits, b: BorrowId): seq<AuditEvent>
  {
    if b in audit then audit[b] else []
  }
}
