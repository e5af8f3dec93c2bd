/** The work-order transactions, each as a function from one committed state to the next. */
module WorkOrders {
  import opened Collections
  import opened Stock

  datatype Planning = Planning(qty: Option<int>, installDate: Option<int>, removalDate: Option<int>)

  predicate ValidPlanning(p: Planning)
  {
    && p.qty.Some? && p.qty.value >= 1
    && p.installDate.Some? && p.removalDate.Some?
    && p.installDate.value <= p.removalDate.value
  }

  /** Field actors: administrators, or the technician of the order's office it is assigned to. */
  predicate MayWorkOn(a: Actor, w: WorkOrder)
  {
    || a.role == Admin
    || (a.role == Tech && a.id != "" && a.office.Some? && a.office.value != "" && w.office == a.office.value && w.assignee == Some(a.id))
  }

  function CreateOrder(s: Ledger, id: OrderId, office: OfficeId, p: Planning, assignee: Option<UserId>,
        assigneeOk: bool): (Ledger, Verdict)
  {
    if !ValidPlanning(p) then (s, Refused(Validation))
    else if p.qty.value > Available(s, office, None) then (s, Refused(InsufficientStock))
    else if assignee.Some? && !assigneeOk then (s, Refused(Validation))
    else if id in s.orders then (s, Refused(DuplicateKey))
    else
      var row := WorkOrder(office, Scheduled, p.qty.value, p.installDate.value, p.removalDate.value, assignee);
      (s.(orders := s.orders[id := row]), Done)
  }

  datatype Patch = Patch(qty: Option<int>, installDate: Option<int>, removalDate: Option<int>, setAssignee: bool,
        assignee: Option<UserId>)

  function OrElse<T>(o: Option<T>, default: T): T
  {
    if o.Some? then o.value else default
  }

  function Merged(w: WorkOrder, p: Patch): Planning
  {
    Planning(Some(OrElse(p.qty, w.planned)), Some(OrElse(p.installDate, w.installDate)), Some(OrElse(p.removalDate, w.removalDate)))
  }

  function UpdateScheduled(s: Ledger, w: OrderId, p: Patch, assigneeOk: bool): (Ledger, Verdict)
  {
    if w !in s.orders then (s, Refused(NotFound))
    else
      var row := s.orders[w];
      var plan := Merged(row, p);
      if row.status != Scheduled then (s, Refused(StateInvalid))
      else if !ValidPlanning(plan) then (s, Refused(Validation))
      else if p.setAssignee && p.assignee.Some? && !assigneeOk then (s, Refused(Validation))
      else if plan.qty.value > Available(s, row.office, Some(w)) then (s, Refused(InsufficientStock))
      else
        (s.(orders := s.orders[w := row.(planned := plan.qty.value, installDate := plan.installDate.value,
                                         removalDate := plan.removalDate.value,
                                         assignee := if p.setAssignee then p.assignee else row.assignee)]), Done)
  }

  function Assign(s: Ledger, w: OrderId, assignee: UserId, assigneeOk: bool): (Ledger, Verdict)
  {
    if w !in s.orders then (s, Refused(NotFound))
    else if !CanAssign(s.orders[w].status) then (s, Refused(StateInvalid))
    else if !assigneeOk then (s, Refused(Validation))
    else (s.(orders := s.orders[w := s.orders[w].(assignee := Some(assignee))]), Done)
  }

  /** The checks every field action starts with, under the order's row lock. */
  function FieldRefusal(s: Ledger, a: Actor, w: OrderId, statuses: set<OrderStatus>): Option<Error>
  {
    if w !in s.orders then Some(NotFound)
    else if !MayWorkOn(a, s.orders[w]) then Some(Forbidden)
    else if s.orders[w].status !in statuses then Some(StateInvalid)
    else None
  }

  predicate OpenElsewhere(installs: Installs, w: OrderId, c: CoverId)
  {
    exists k :: k in installs && k.1 == c && k.0 != w && Open(installs[k])
  }

  predicate LiveElsewhere(installs: Installs, w: OrderId, c: CoverId)
  {
    exists k :: k in installs && k.1 == c && k.0 != w && Live(installs[k])
  }

  const DRAFT := Installation(false, false, None, None)

  function ScanInstall(s: Ledger, a: Actor, w: OrderId, c: CoverId): (Ledger, Verdict)
  {
    var refusal := FieldRefusal(s, a, w, {Scheduled});
    if refusal.Some? then (s, Refused(refusal.value))
    else if !InStockAt(s.covers, s.orders[w].office, c) then (s, Refused(Conflict))
    else if (w, c) in s.installs then (s, Done)
    else if OpenElsewhere(s.installs, w, c) || ReservedOn(s.links, c) then (s, Refused(Conflict))
    else (s.(installs := s.installs[(w, c) := DRAFT]), Done)
  }

  function UnscanInstall(s: Ledger, a: Actor, w: OrderId, c: CoverId): (Ledger, Verdict)
  {
    var refusal := FieldRefusal(s, a, w, {Scheduled});
    if refusal.Some? then (s, Refused(refusal.value))
    else if (w, c) in s.installs && !s.installs[(w, c)].installed then
      (s.(installs := s.installs - {(w, c)}), Done)
    else (s, Done)
  }

  predicate ReadyToInstall(s: Ledger, w: OrderId, c: CoverId)
    requires w in s.orders
  {
    InStockAt(s.covers, s.orders[w].office, c) && !LiveElsewhere(s.installs, w, c) && !ReservedOn(s.links, c)
  }

  function SubmittedCovers(s: Ledger, w: OrderId): Covers
  {
    map c | c in s.covers :: if (w, c) in s.installs then s.covers[c].(status := Installed) else s.covers[c]
  }

  function SubmittedInstalls(s: Ledger, w: OrderId): Installs
  {
    map k | k in s.installs :: if k.0 == w then s.installs[k].(installed := true) else s.installs[k]
  }

  function SubmitInstall(s: Ledger, a: Actor, w: OrderId): (Ledger, Verdict)
  {
    var refusal := FieldRefusal(s, a, w, {Scheduled});
    if refusal.Some? then (s, Refused(refusal.value))
    else
      var cs := InstalledCovers(s.installs, w);
      if cs == {} then (s, Refused(StateInvalid))
      else if |cs| > Available(s, s.orders[w].office, Some(w)) then (s, Refused(InsufficientStock))
      else if exists c :: c in cs && s.installs[(w, c)].installed then (s, Refused(Conflict))
      else if exists c :: c in cs && !ReadyToInstall(s, w, c) then (s, Refused(Conflict))
      else if exists c :: c in cs && s.installs[(w, c)].installPhoto != Some(Photo(InstallPhoto, w, c)) then (s, Refused(EvidenceRequired))
      else
        (s.(covers := SubmittedCovers(s, w), installs := SubmittedInstalls(s, w),
            orders := s.orders[w := s.orders[w].(status := Active)]), Done)
  }

  function StartRemoval(s: Ledger, a: Actor, w: OrderId): (Ledger, Verdict)
  {
    var refusal := FieldRefusal(s, a, w, {Active, RemovalDue});
    if refusal.Some? then (s, Refused(refusal.value))
    else (s.(orders := s.orders[w := s.orders[w].(status := Removing)]), Done)
  }

  function ScanRemove(s: Ledger, a: Actor, w: OrderId, c: CoverId): (Ledger, Verdict)
  {
    var refusal := FieldRefusal(s, a, w, {Removing});
    if refusal.Some? then (s, Refused(refusal.value))
    else if c !in s.covers then (s, Refused(Conflict))
    else if (w, c) !in s.installs || !s.installs[(w, c)].installed then (s, Refused(Conflict))
    else if s.installs[(w, c)].removed then (s, Done)
    else if s.covers[c].status != Installed || s.covers[c].current != s.orders[w].office then (s, Refused(Conflict))
    else
      (s.(installs := s.installs[(w, c) := s.installs[(w, c)].(removed := true)],
          covers := s.covers[c := s.covers[c].(status := InStock)]), Done)
  }

  /** The first installation that completion objects to, in row order, decides its error. */
  function RemovalRefusal(s: Ledger, w: OrderId, rows: seq<CoverId>): Option<Error>
    requires forall c :: c in rows ==> (w, c) in s.installs
  {
    if rows == [] then None
    else
      var i := s.installs[(w, rows[0])];
      if !i.installed || !i.removed then Some(StateInvalid)
      else if i.removePhoto != Some(Photo(RemovePhoto, w, rows[0])) then Some(EvidenceRequired)
      else RemovalRefusal(s, w, rows[1..])
  }

  /** The installation rows of w as a query lists them. */
  function InstallationRows(s: Ledger, w: OrderId): (r: seq<CoverId>)
    ensures forall c :: c in r <==> (w, c) in s.installs
    ensures |r| == |InstalledCovers(s.installs, w)|
    ensures forall i, j :: 0 <= i < j < |r| ==> r[i] != r[j]
  {
    StrOrder();
    SortSet(InstalledCovers(s.installs, w), StrLeq)
  }

  /** The rows are the installations of w, each once, in any order. */
  ghost predicate ListsInstallations(s: Ledger, w: OrderId, rows: seq<CoverId>)
  {
    && (forall c :: c in rows <==> (w, c) in s.installs)
    && (forall i, j :: 0 <= i < j < |rows| ==> rows[i] != rows[j])
  }

  /** Completion, on the installation rows in the order the query returned them. */
  function CompletedIn(s: Ledger, a: Actor, w: OrderId, rows: seq<CoverId>): (Ledger, Verdict)
    requires ListsInstallations(s, w, rows)
  {
    var refusal := FieldRefusal(s, a, w, {Removing});
    if refusal.Some? then (s, Refused(refusal.value))
    else if rows == [] then (s, Refused(StateInvalid))
    else
      var objection := RemovalRefusal(s, w, rows);
      if objection.Some? then (s, Refused(objection.value))
      else (s.(orders := s.orders[w := s.orders[w].(status := Completed)]), Done)
  }

  function CompleteRemoval(s: Ledger, a: Actor, w: OrderId): (Ledger, Verdict)
  {
    CompletedIn(s, a, w, InstallationRows(s, w))
  }

  function CancelOrder(s: Ledger, w: OrderId): (Ledger, Verdict)
  {
    if w !in s.orders then (s, Refused(NotFound))
    else if !OrderMayMove(s.orders[w].status, OrderStatus.Cancelled) then (s, Refused(StateInvalid))
    else
      (s.(installs := map k | k in s.installs && !(k.0 == w && !s.installs[k].installed) :: s.installs[k],
          orders := s.orders[w := s.orders[w].(status := OrderStatus.Cancelled)]), Done)
  }

  /** The check both evidence transactions run under the row locks. */
  function EvidenceRefusal(s: Ledger, a: Actor, kind: PhotoKind, w: OrderId, c: CoverId): Option<Error>
  {
    if w !in s.orders then Some(NotFound)
    else if !MayWorkOn(a, s.orders[w]) then Some(Forbidden)
    else if (w, c) !in s.installs then Some(NotFound)
    else
      var i := s.installs[(w, c)];
      match kind
      case InstallPhoto => if s.orders[w].status != Scheduled || i.installed || i.removed then Some(StateInvalid) else None
      case RemovePhoto => if s.orders[w].status != Removing || !i.installed || !i.removed then Some(StateInvalid) else None
  }

  /** What object storage answers about the key's object. */
  datatype StorageAnswer = GoodImage | BadObject | Unreachable

  /** Attaching evidence: `early` is what a first transaction, in an earlier state, found to
      object to; storage is asked only when it found nothing, with all locks released, and
      everything is checked again before the write. `key` is the relation the submitted object
      key validates for, if it validates for any. */
  function AttachEvidence(s: Ledger, a: Actor, kind: PhotoKind, w: OrderId, c: CoverId, key: Option<Photo>,
        early: Option<Error>, storage: StorageAnswer): (Ledger, Verdict)
  {
    if key != Some(Photo(kind, w, c)) then (s, Refused(EvidenceInvalid))
    else if early.Some? then (s, Refused(early.value))
    else if storage == BadObject then (s, Refused(EvidenceInvalid))
    else if storage == Unreachable then (s, Refused(EvidenceUnavailable))
    else
      var refusal := EvidenceRefusal(s, a, kind, w, c);
      if refusal.Some? then (s, Refused(refusal.value))
      else
        var i := s.installs[(w, c)];
        var row := if kind == InstallPhoto then i.(installPhoto := key) else i.(removePhoto := key);
        (s.(installs := s.installs[(w, c) := row]), Done)
  }

  /** The removal-due job's transaction for one order; a stale candidate is a no-op. */
  function MarkRemovalDue(s: Ledger, w: OrderId, now: int): (Ledger, Verdict)
  {
    if w !in s.orders || s.orders[w].status != Active || s.orders[w].removalDate > now then (s, Done)
    else (s.(orders := s.orders[w := s.orders[w].(status := RemovalDue)]), Done)
  }
}
