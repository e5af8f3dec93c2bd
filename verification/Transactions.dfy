/** Every transaction of the stock services as one step of a single machine. */
module Transactions {
  import opened Collections
  import opened Stock
  import opened WorkOrders
  import opened Borrows

  datatype Op =
    | OpenOrder(id: OrderId, office: OfficeId, plan: Planning, assignee: Option<UserId>, assigneeOk: bool)
    | EditOrder(order: OrderId, patch: Patch, assigneeOk: bool)
    | AssignOrder(order: OrderId, technician: UserId, assigneeOk: bool)
    | Scan(actor: Actor, order: OrderId, cover: CoverId)
    | Unscan(actor: Actor, order: OrderId, cover: CoverId)
    | Submit(actor: Actor, order: OrderId)
    | BeginRemoval(actor: Actor, order: OrderId)
    | RemoveCover(actor: Actor, order: OrderId, cover: CoverId)
    | Complete(actor: Actor, order: OrderId)
    | CancelWork(order: OrderId)
    | Attach(actor: Actor, kind: PhotoKind, order: OrderId, cover: CoverId, key: Option<Photo>,
             early: Option<Error>, storage: StorageAnswer)
    | RemovalFallsDue(order: OrderId, now: int)
    | RequestLoan(loan: BorrowId, actor: Actor, env: Lookups, request: Request, chosen: set<CoverId>)
    | ApproveLoan(loan: BorrowId, actor: Actor, active: bool)
    | RejectLoan(loan: BorrowId, actor: Actor, active: bool)
    | CancelLoan(loan: BorrowId, actor: Actor, active: bool)
    | ActivateLoan(loan: BorrowId, actor: Actor, active: bool)
    | ReturnLoan(loan: BorrowId, actor: Actor, active: bool)
    | LoansFallDue(due: set<BorrowId>, now: int)
    | Register(office: OfficeId, items: seq<Item>)
    | RetireCover(cover: CoverId)

  function Step(s: Ledger, op: Op): (Ledger, Verdict)
  {
    match op
    case OpenOrder(id, office, plan, assignee, ok) => CreateOrder(s, id, office, plan, assignee, ok)
    case EditOrder(w, patch, ok) => UpdateScheduled(s, w, patch, ok)
    case AssignOrder(w, technician, ok) => Assign(s, w, technician, ok)
    case Scan(a, w, c) => ScanInstall(s, a, w, c)
    case Unscan(a, w, c) => UnscanInstall(s, a, w, c)
    case Submit(a, w) => SubmitInstall(s, a, w)
    case BeginRemoval(a, w) => StartRemoval(s, a, w)
    case RemoveCover(a, w, c) => ScanRemove(s, a, w, c)
    case Complete(a, w) => CompleteRemoval(s, a, w)
    case CancelWork(w) => CancelOrder(s, w)
    case Attach(a, kind, w, c, key, early, storage) => AttachEvidence(s, a, kind, w, c, key, early, storage)
    case RemovalFallsDue(w, now) => MarkRemovalDue(s, w, now)
    case RequestLoan(b, a, env, r, chosen) => CreateBorrow(s, b, a, env, r, chosen)
    case ApproveLoan(b, a, active) => Approve(s, b, a, active)
    case RejectLoan(b, a, active) => Reject(s, b, a, active)
    case CancelLoan(b, a, active) => CancelBorrow(s, b, a, active)
    case ActivateLoan(b, a, active) => Activate(s, b, a, active)
    case ReturnLoan(b, a, active) => Return(s, b, a, active)
    case LoansFallDue(due, now) => MarkOverdue(s, due, now)
    case Register(office, items) => RegisterBatch(s, office, items)
    case RetireCover(c) => Retire(s, c)
  }

  /** The state after a run of transactions, refused ones included. */
  function After(s: Ledger, ops: seq<Op>): Ledger
    decreases |ops|
  {
    if ops == [] then s else After(Step(s, ops[0]).0, ops[1..])
  }

  ghost predicate Reachable(s: Ledger)
  {
    exists ops :: s == After(EMPTY, ops)
  }

  lemma {:induction false} AfterAppend(s: Ledger, ops: seq<Op>, more: seq<Op>)
    ensures After(s, ops + more) == After(After(s, ops), more)
    decreases |ops|
  {
    hide Step;
    if ops == [] {
      assert ops + more == more;
    } else {
      AfterAppend(Step(s, ops[0]).0, ops[1..], more);
      assert (ops + more)[1..] == ops[1..] + more;
    }
  }

  lemma OneStep(s: Ledger, op: Op)
    ensures After(s, [op]) == Step(s, op).0
  {
    hide Step;
    assert After(Step(s, op).0, []) == Step(s, op).0;
  }
}
