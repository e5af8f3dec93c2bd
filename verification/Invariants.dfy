/** What every committed state satisfies. Each clause names the tables it speaks about. */
module Invariants {
  import opened Collections
  import opened Stock

  /** Foreign keys and the check constraints on single rows. */
  ghost predicate ForeignKeys(covers: Covers, orders: Orders, installs: Installs, borrows: Borrowings, links: Links)
  {
    && (forall k :: k in installs ==> k.0 in orders && k.1 in covers)
    && (forall k :: k in links ==> k.0 in borrows && k.1 in covers)
  }

  ghost predicate RowChecks(orders: Orders, borrows: Borrowings)
  {
    && (forall w :: w in orders ==> orders[w].planned >= 1 && orders[w].installDate <= orders[w].removalDate)
    && (forall b :: b in borrows ==> borrows[b].qty >= 1 && borrows[b].borrower != borrows[b].lender)
  }

  /** What an order's status says about one of its installations. */
  predicate Shape(status: OrderStatus, k: (OrderId, CoverId), i: Installation)
  {
    && (i.installPhoto.Some? ==> i.installPhoto.value == Photo(InstallPhoto, k.0, k.1))
    && (i.removePhoto.Some? ==> i.removed && i.removePhoto.value == Photo(RemovePhoto, k.0, k.1))
    && (i.removed ==> i.installed)
    && (i.installed ==> i.installPhoto.Some?)
    && match status
       case Scheduled => !i.installed
       case Active => i.installed && !i.removed
       case RemovalDue => i.installed && !i.removed
       case Removing => i.installed
       case Completed => i.removed && i.removePhoto.Some?
       case Cancelled => false
  }

  ghost predicate Shapes(orders: Orders, installs: Installs)
  {
    forall k :: k in installs && k.0 in orders ==> Shape(orders[k.0].status, k, installs[k])
  }

  ghost predicate NonEmpty(orders: Orders, installs: Installs)
  {
    forall w :: w in orders && orders[w].status != Scheduled && orders[w].status != OrderStatus.Cancelled ==>
      InstalledCovers(installs, w) != {}
  }

  /** Open installations sit on covers in the right status at the order's office. */
  ghost predicate OpenInPlace(covers: Covers, orders: Orders, installs: Installs)
  {
    forall k :: k in installs && k.0 in orders && k.1 in covers && Open(installs[k]) ==>
      && covers[k.1].current == orders[k.0].office
      && covers[k.1].status == if installs[k].installed then Installed else InStock
  }

  ghost predicate OneOpen(installs: Installs)
  {
    forall j, k :: j in installs && k in installs && j.1 == k.1 && Open(installs[j]) && Open(installs[k]) ==> j == k
  }

  ghost predicate LiveOn(installs: Installs, w: OrderId, c: CoverId)
  {
    (w, c) in installs && Live(installs[(w, c)])
  }

  ghost predicate InstalledHasLive(covers: Covers, installs: Installs)
  {
    forall c :: c in covers && covers[c].status == Installed ==> exists w :: LiveOn(installs, w, c)
  }

  /** Unreleased reservations sit on covers in stock at home with the lender. */
  ghost predicate ReservedInPlace(covers: Covers, borrows: Borrowings, links: Links)
  {
    forall k :: k in links && k.0 in borrows && k.1 in covers && !links[k] ==>
      && covers[k.1].status == InStock
      && covers[k.1].owner == borrows[k.0].lender
      && covers[k.1].current == borrows[k.0].lender
  }

  ghost predicate OneReservation(links: Links)
  {
    forall j, k :: j in links && k in links && j.1 == k.1 && !links[j] && !links[k] ==> j == k
  }

  /** No cover is promised twice: an open installation excludes an unreleased reservation. */
  ghost predicate ClaimsApart(installs: Installs, links: Links)
  {
    forall j, k :: j in installs && k in links && j.1 == k.1 && Open(installs[j]) ==> links[k]
  }

  /** A borrow keeps as many cover links as it asked for, unreleased exactly while it is pending. */
  ghost predicate LinksMatch(borrows: Borrowings, links: Links)
  {
    && (forall b :: b in borrows ==> |LinkedCovers(links, b)| == borrows[b].qty)
    && (forall k :: k in links && k.0 in borrows ==> (links[k] <==> !Pending(borrows[k.0])))
  }

  /** Cover c is out on borrow b. */
  ghost predicate OutOn(borrows: Borrowings, links: Links, b: BorrowId, c: CoverId)
  {
    (b, c) in links && b in borrows && Outstanding(borrows[b])
  }

  ghost predicate OneLoan(borrows: Borrowings, links: Links)
  {
    forall a, b, c :: OutOn(borrows, links, a, c) && OutOn(borrows, links, b, c) ==> a == b
  }

  ghost predicate OutInPlace(covers: Covers, borrows: Borrowings, links: Links)
  {
    forall b, c :: OutOn(borrows, links, b, c) && c in covers ==>
      covers[c].owner == borrows[b].lender && covers[c].current == borrows[b].borrower
  }

  /** A cover away from its owner is out on a borrow, and is not retired. */
  ghost predicate AwayIsOut(covers: Covers, borrows: Borrowings, links: Links)
  {
    forall c :: c in covers && covers[c].current != covers[c].owner ==>
      covers[c].status != Retired && exists b :: OutOn(borrows, links, b, c)
  }

  /** Audit events of one borrow: CREATE, then one labelled, allowed move after another. */
  predicate Follows(x: BorrowStatus, e: AuditEvent)
  {
    && e.from == Some(x)
    && BorrowMayMove(x, e.to)
    && match e.action
       case CreateAction => false
       case ApproveAction => e.to == Approved
       case RejectAction => e.to == Rejected
       case CancelAction => e.to == BorrowStatus.Cancelled
       case ActivateAction => e.to == OnLoan
       case ReturnAction => e.to == Returned
       case OverdueAction => e.to == Overdue
  }

  ghost predicate Chain(es: seq<AuditEvent>, status: BorrowStatus)
  {
    && es != []
    && es[0] == AuditEvent(CreateAction, None, Requested)
    && (forall i :: 0 < i < |es| ==> Follows(es[i - 1].to, es[i]))
    && es[|es| - 1].to == status
  }

  ghost predicate AuditsMatch(borrows: Borrowings, audit: Audits)
  {
    && audit.Keys == borrows.Keys
    && forall b :: b in borrows && b in audit ==> Chain(audit[b], borrows[b].status)
  }

  ghost predicate WorkInv(s: Ledger)
  {
    && Shapes(s.orders, s.installs)
    && NonEmpty(s.orders, s.installs)
    && OpenInPlace(s.covers, s.orders, s.installs)
    && OneOpen(s.installs)
    && InstalledHasLive(s.covers, s.installs)
  }

  ghost predicate LoanInv(s: Ledger)
  {
    && ReservedInPlace(s.covers, s.borrows, s.links)
    && OneReservation(s.links)
    && LinksMatch(s.borrows, s.links)
    && OneLoan(s.borrows, s.links)
    && OutInPlace(s.covers, s.borrows, s.links)
    && AwayIsOut(s.covers, s.borrows, s.links)
    && AuditsMatch(s.borrows, s.audit)
  }

  ghost predicate Inv(s: Ledger)
  {
    && ForeignKeys(s.covers, s.orders, s.installs, s.borrows, s.links)
    && RowChecks(s.orders, s.borrows)
    && ClaimsApart(s.installs, s.links)
    && WorkInv(s)
    && LoanInv(s)
  }

  lemma EmptyInv()
    ensures Inv(EMPTY)
  {
  }

  /** The invariant, clause by clause; callers may hide the clauses' definitions. */
  lemma Assemble(s: Ledger)
    requires ForeignKeys(s.covers, s.orders, s.installs, s.borrows, s.links) && RowChecks(s.orders, s.borrows)
    requires ClaimsApart(s.installs, s.links) && Shapes(s.orders, s.installs) && NonEmpty(s.orders, s.installs)
    requires OpenInPlace(s.covers, s.orders, s.installs) && OneOpen(s.installs)
    requires InstalledHasLive(s.covers, s.installs)
    requires ReservedInPlace(s.covers, s.borrows, s.links) && OneReservation(s.links) && LinksMatch(s.borrows, s.links)
    requires OneLoan(s.borrows, s.links) && OutInPlace(s.covers, s.borrows, s.links)
    requires AwayIsOut(s.covers, s.borrows, s.links) && AuditsMatch(s.borrows, s.audit)
    ensures Inv(s)
  {
  }

  lemma Disassemble(s: Ledger)
    requires Inv(s)
    ensures ForeignKeys(s.covers, s.orders, s.installs, s.borrows, s.links) && RowChecks(s.orders, s.borrows)
    ensures ClaimsApart(s.installs, s.links) && Shapes(s.orders, s.installs) && NonEmpty(s.orders, s.installs)
    ensures OpenInPlace(s.covers, s.orders, s.installs) && OneOpen(s.installs) && InstalledHasLive(s.covers, s.installs)
    ensures ReservedInPlace(s.covers, s.borrows, s.links) && OneReservation(s.links) && LinksMatch(s.borrows, s.links)
    ensures OneLoan(s.borrows, s.links) && OutInPlace(s.covers, s.borrows, s.links)
    ensures AwayIsOut(s.covers, s.borrows, s.links) && AuditsMatch(s.borrows, s.audit)
  {
  }
}
