/** Attaching evidence checks twice, with other transactions in between. */
module Evidence {
  import opened Collections
  import opened Stock
  import opened WorkOrders
  import opened Borrows
  import opened Transactions
  import opened Invariants
  import opened InvariantSteps
  import opened Transitions

  /** An attachment whose first check runs in s and whose second transaction runs after `others`. */
  function Attached(s: Ledger, others: seq<Op>, a: Actor, kind: PhotoKind, w: OrderId, c: CoverId, key: Option<Photo>,
        storage: StorageAnswer): (Ledger, Verdict)
  {
    AttachEvidence(After(s, others), a, kind, w, c, key, EvidenceRefusal(s, a, kind, w, c), storage)
  }

  /** An actor that the first check refuses gets the same answer whatever storage holds and
      whatever runs meanwhile, and writes nothing. */
  lemma ProbeLearnsNothing(s: Ledger, a: Actor, kind: PhotoKind, w: OrderId, c: CoverId, key: Option<Photo>,
        others: seq<Op>, x: StorageAnswer, more: seq<Op>, y: StorageAnswer)
    requires EvidenceRefusal(s, a, kind, w, c).Some?
    ensures Attached(s, others, a, kind, w, c, key, x).1 == Attached(s, more, a, kind, w, c, key, y).1
    ensures Attached(s, others, a, kind, w, c, key, x).0 == After(s, others)
  {
    hide EvidenceRefusal, After;
  }

  // ----- what cannot change between the two checks -----

  /** A committed installation row stays, and a removed one stays removed. */
  ghost predicate RowsLast(x: Installs, y: Installs)
  {
    forall k :: k in x && x[k].installed ==> k in y && y[k].installed && (x[k].removed ==> y[k].removed)
  }

  lemma DraftsLeaveRows(s: Ledger, a: Actor, w: OrderId, c: CoverId)
    ensures RowsLast(s.installs, ScanInstall(s, a, w, c).0.installs)
    ensures RowsLast(s.installs, UnscanInstall(s, a, w, c).0.installs)
  {
    hide MayWorkOn, OpenElsewhere, ReservedOn;
  }

  lemma RemovalLeavesRows(s: Ledger, a: Actor, w: OrderId, c: CoverId)
    ensures RowsLast(s.installs, ScanRemove(s, a, w, c).0.installs)
    ensures RowsLast(s.installs, CancelOrder(s, w).0.installs)
  {
    hide MayWorkOn;
  }

  lemma PhotosLeaveRows(s: Ledger, a: Actor, kind: PhotoKind, w: OrderId, c: CoverId, key: Option<Photo>, early: Option<Error>,
        storage: StorageAnswer)
    ensures RowsLast(s.installs, AttachEvidence(s, a, kind, w, c, key, early, storage).0.installs)
  {
    hide MayWorkOn;
  }

  lemma SubmitLeavesRows(s: Ledger, a: Actor, w: OrderId)
    ensures RowsLast(s.installs, SubmitInstall(s, a, w).0.installs)
  {
    hide Available, MayWorkOn, ReadyToInstall, InstalledCovers, SubmittedCovers;
  }

  lemma OrdersLeaveRows(s: Ledger, op: Op)
    requires op.OpenOrder? || op.EditOrder? || op.AssignOrder? || op.BeginRemoval? || op.Complete? || op.RemovalFallsDue?
    ensures Step(s, op).0.installs == s.installs
  {
    hide Available, MayWorkOn, ValidPlanning, RemovalRefusal, InstallationRows, ListsInstallations, SubmitInstall;
    hide ScanInstall, UnscanInstall, AttachEvidence, ScanRemove, CancelOrder;
    hide CreateBorrow, Approve, Reject, CancelBorrow, Activate, Return, MarkOverdue, RegisterBatch, Retire;
  }

  lemma CoversLeaveRows(s: Ledger, op: Op)
    requires op.Register? || op.RetireCover?
    ensures Step(s, op).0.installs == s.installs
  {
    hide Free, Storable, BatchRefusal, NewCovers, RetirableCover;
  }

  lemma LoansLeaveRows(s: Ledger, op: Op)
    requires op.RequestLoan? || op.ApproveLoan? || op.RejectLoan? || op.CancelLoan? || op.ActivateLoan? || op.ReturnLoan? || op.LoansFallDue?
    ensures Step(s, op).0.installs == s.installs
  {
    hide BorrowableCapacity, EligibleAt, NewLinks, ReleasedLinks, ActiveLinks, LinkedCovers, AvailableAtLender, Log, RegisterBatch, Retire;
    hide ValidClaims, MayHandOver, InspectReturn, LinkRows, PlannedCount, InStockCount;
    hide CreateOrder, UpdateScheduled, Assign, ScanInstall, UnscanInstall, SubmitInstall, StartRemoval, ScanRemove;
    hide CompleteRemoval, CancelOrder, AttachEvidence, MarkRemovalDue;
  }

  lemma FieldLeavesRows(s: Ledger, op: Op)
    requires op.Scan? || op.Unscan? || op.RemoveCover? || op.CancelWork? || op.Attach? || op.Submit?
    ensures RowsLast(s.installs, Step(s, op).0.installs)
  {
    hide RowsLast, ScanInstall, UnscanInstall, ScanRemove, CancelOrder, AttachEvidence, SubmitInstall;
    match op
    case Scan(a, w, c) => DraftsLeaveRows(s, a, w, c);
    case Unscan(a, w, c) => DraftsLeaveRows(s, a, w, c);
    case Submit(a, w) => SubmitLeavesRows(s, a, w);
    case RemoveCover(a, w, c) => RemovalLeavesRows(s, a, w, c);
    case CancelWork(w) => RemovalLeavesRows(s, Actor("", Admin, None), w, "");
    case Attach(a, kind, w, c, key, early, storage) => PhotosLeaveRows(s, a, kind, w, c, key, early, storage);
    case _ =>
  }

  lemma RowsLastStep(s: Ledger, op: Op)
    ensures RowsLast(s.installs, Step(s, op).0.installs)
  {
    if op.Scan? || op.Unscan? || op.RemoveCover? || op.CancelWork? || op.Attach? || op.Submit? {
      hide *;
      FieldLeavesRows(s, op);
    } else if op.OpenOrder? || op.EditOrder? || op.AssignOrder? || op.BeginRemoval? || op.Complete? || op.RemovalFallsDue? {
      hide Step;
      OrdersLeaveRows(s, op);
    } else if op.Register? || op.RetireCover? {
      hide Step;
      CoversLeaveRows(s, op);
    } else {
      hide Step;
      LoansLeaveRows(s, op);
    }
  }

  lemma {:induction false} RowsLastRun(s: Ledger, ops: seq<Op>)
    ensures RowsLast(s.installs, After(s, ops).installs)
    ensures s.orders.Keys <= After(s, ops).orders.Keys
    decreases |ops|
  {
    hide Step;
    if ops != [] {
      RowsLastStep(s, ops[0]);
      StatusesFollowTables(s, ops[0]);
      RowsLastRun(Step(s, ops[0]).0, ops[1..]);
    }
  }

  // ----- the second check -----

  /** What can still go wrong with a removal photograph that passed the first check: the order
      has been given to somebody else, or completed. Its rows are there. */
  lemma RemovalRecheck(s: Ledger, a: Actor, w: OrderId, c: CoverId, others: seq<Op>)
    requires EvidenceRefusal(s, a, RemovePhoto, w, c).None?
    ensures var t := After(s, others);
            && w in t.orders
            && EvidenceRefusal(t, a, RemovePhoto, w, c) ==
               if !MayWorkOn(a, t.orders[w]) then Some(Forbidden)
               else if t.orders[w].status != Removing then Some(StateInvalid)
               else None
  {
    var t := After(s, others);
    PassedOnRows(s, a, RemovePhoto, w, c);
    RowsLastRun(s, others);
    hide After, MayWorkOn;
  }

  lemma PassedOnRows(s: Ledger, a: Actor, kind: PhotoKind, w: OrderId, c: CoverId)
    requires EvidenceRefusal(s, a, kind, w, c).None?
    ensures w in s.orders && (w, c) in s.installs
    ensures kind == RemovePhoto ==> s.installs[(w, c)].installed && s.installs[(w, c)].removed
  {
    hide MayWorkOn;
  }

  /** What can still go wrong with an installation photograph: the order has been given to
      somebody else, the draft taken back, or the order submitted or cancelled. */
  lemma InstallRecheck(s: Ledger, a: Actor, w: OrderId, c: CoverId, others: seq<Op>)
    requires Inv(s) && EvidenceRefusal(s, a, InstallPhoto, w, c).None?
    ensures var t := After(s, others);
            && w in t.orders
            && EvidenceRefusal(t, a, InstallPhoto, w, c) ==
               if !MayWorkOn(a, t.orders[w]) then Some(Forbidden)
               else if (w, c) !in t.installs then Some(NotFound)
               else if t.orders[w].status != Scheduled then Some(StateInvalid)
               else None
  {
    hide *;
    var t := After(s, others);
    PassedOnRows(s, a, InstallPhoto, w, c);
    RowsLastRun(s, others);
    RunsKeepInv(s, others);
    if (w, c) in t.installs && t.orders[w].status == Scheduled {
      ScheduledIsDraft(t, w, c);
    }
    DraftRefusal(t, a, w, c);
  }

  lemma DraftRefusal(t: Ledger, a: Actor, w: OrderId, c: CoverId)
    requires w in t.orders
    requires (w, c) in t.installs && t.orders[w].status == Scheduled ==> !t.installs[(w, c)].installed && !t.installs[(w, c)].removed
    ensures EvidenceRefusal(t, a, InstallPhoto, w, c) ==
            if !MayWorkOn(a, t.orders[w]) then Some(Forbidden)
            else if (w, c) !in t.installs then Some(NotFound)
            else if t.orders[w].status != Scheduled then Some(StateInvalid)
            else None
  {
    hide MayWorkOn;
  }

  lemma ScheduledIsDraft(s: Ledger, w: OrderId, c: CoverId)
    requires Inv(s) && w in s.orders && (w, c) in s.installs && s.orders[w].status == Scheduled
    ensures !s.installs[(w, c)].installed && !s.installs[(w, c)].removed
  {
    assert Shapes(s.orders, s.installs) by {
      Disassemble(s);
      hide Inv;
    }
    hide Inv;
    assert (w, c).0 == w;
  }

  /** The installation the photograph is about has not gone: no row for a draft, nothing more to
      ask for a removal. */
  predicate StillThere(t: Ledger, kind: PhotoKind, w: OrderId, c: CoverId)
  {
    kind == InstallPhoto ==> (w, c) in t.installs
  }

  /** An attachment writes if and only if the key names its relation, the first check passes, the
      stored object is a good image, and meanwhile the order was neither reassigned away from the
      actor nor moved on, nor its draft taken back. */
  lemma EvidenceWritten(s: Ledger, others: seq<Op>, a: Actor, kind: PhotoKind, w: OrderId, c: CoverId, key: Option<Photo>,
        storage: StorageAnswer)
    requires Inv(s)
    ensures var t := After(s, others);
            Attached(s, others, a, kind, w, c, key, storage).1 == Done <==>
            && key == Some(Photo(kind, w, c)) && EvidenceRefusal(s, a, kind, w, c).None? && storage == GoodImage
            && w in t.orders && MayWorkOn(a, t.orders[w]) && StillThere(t, kind, w, c)
            && t.orders[w].status == if kind == InstallPhoto then Scheduled else Removing
  {
    hide *;
    var t := After(s, others);
    DoneExactly(t, a, kind, w, c, key, EvidenceRefusal(s, a, kind, w, c), storage);
    AttachedIs(s, others, a, kind, w, c, key, storage);
    StillThereIs(t, kind, w, c);
    if EvidenceRefusal(s, a, kind, w, c).None? {
      if kind == InstallPhoto {
        InstallRecheck(s, a, w, c, others);
      } else {
        RemovalRecheck(s, a, w, c, others);
      }
    }
  }

  lemma StillThereIs(t: Ledger, kind: PhotoKind, w: OrderId, c: CoverId)
    ensures StillThere(t, kind, w, c) <==> kind == RemovePhoto || (w, c) in t.installs
  {
  }

  lemma AttachedIs(s: Ledger, others: seq<Op>, a: Actor, kind: PhotoKind, w: OrderId, c: CoverId, key: Option<Photo>,
        storage: StorageAnswer)
    ensures Attached(s, others, a, kind, w, c, key, storage) ==
            AttachEvidence(After(s, others), a, kind, w, c, key, EvidenceRefusal(s, a, kind, w, c), storage)
  {
    hide After, EvidenceRefusal, AttachEvidence;
  }

  lemma DoneExactly(t: Ledger, a: Actor, kind: PhotoKind, w: OrderId, c: CoverId, key: Option<Photo>, early: Option<Error>,
        storage: StorageAnswer)
    ensures AttachEvidence(t, a, kind, w, c, key, early, storage).1 == Done <==>
            key == Some(Photo(kind, w, c)) && early.None? && storage == GoodImage && EvidenceRefusal(t, a, kind, w, c).None?
  {
    hide MayWorkOn;
  }

  /** ... and then only that installation's photograph changes, to the submitted key. */
  lemma EvidenceEffect(s: Ledger, others: seq<Op>, a: Actor, kind: PhotoKind, w: OrderId, c: CoverId, key: Option<Photo>,
        storage: StorageAnswer)
    requires Attached(s, others, a, kind, w, c, key, storage).1 == Done
    ensures var t, u := After(s, others), Attached(s, others, a, kind, w, c, key, storage).0;
            && u == t.(installs := u.installs) && u.installs.Keys == t.installs.Keys && (w, c) in t.installs
            && (forall k :: k in t.installs && k != (w, c) ==> u.installs[k] == t.installs[k])
            && (if kind == InstallPhoto then u.installs[(w, c)] == t.installs[(w, c)].(installPhoto := key)
                else u.installs[(w, c)] == t.installs[(w, c)].(removePhoto := key))
  {
    hide After, MayWorkOn;
  }
}
