/** The tables as mutable state, with the guarded updates the services issue inside a transaction. */
module Database {
  import opened Collections
  import opened Stock
  import opened Borrows

  class Database {
    var covers: Covers
    var orders: Orders
    var installs: Installs
    var borrows: Borrowings
    var links: Links
    var audit: Audits
    var shortfalls: Shortfalls

    constructor ()
      ensures View() == EMPTY
    {
      covers, orders, installs, borrows, links, audit, shortfalls := map[], map[], map[], map[], map[], map[], map[];
    }

    function View(): Ledger
      reads this
    {
      Ledger(covers, orders, installs, borrows, links, audit, shortfalls)
    }

    /** Rolls back to the state the transaction began in. */
    method Rollback(saved: Ledger)
      modifies this
      ensures View() == saved
    {
      covers, orders, installs, borrows := saved.covers, saved.orders, saved.installs, saved.borrows;
      links, audit, shortfalls := saved.links, saved.audit, saved.shortfalls;
    }

    // ----- covers -----

    /** UPDATE covers SET status = to WHERE id = c AND status = from; ok when one row changed. */
    method SetCoverStatus(c: CoverId, from: CoverStatus, to: CoverStatus) returns (ok: bool)
      modifies `covers
      ensures ok == (c in old(covers) && old(covers)[c].status == from)
      ensures covers == if ok then old(covers)[c := old(covers)[c].(status := to)] else old(covers)
    {
      ok := c in covers && covers[c].status == from;
      if ok {
        covers := covers[c := covers[c].(status := to)];
      }
    }

    /** UPDATE covers SET current_office_id = to WHERE id = c AND current_office_id = from AND status = IN_STOCK. */
    method MoveCover(c: CoverId, from: OfficeId, to: OfficeId) returns (ok: bool)
      modifies `covers
      ensures ok == InStockAt(old(covers), from, c)
      ensures covers == if ok then old(covers)[c := old(covers)[c].(current := to)] else old(covers)
    {
      ok := InStockAt(covers, from, c);
      if ok {
        covers := covers[c := covers[c].(current := to)];
      }
    }

    method InsertCover(c: CoverId, row: Cover) returns (ok: bool)
      modifies `covers
      ensures ok == (c !in old(covers) && CodesFree(old(covers), CodesOf(row)))
      ensures covers == if ok then old(covers)[c := row] else old(covers)
    {
      ok := c !in covers && CodesFree(covers, CodesOf(row));
      if ok {
        covers := covers[c := row];
      }
    }

    // ----- work orders -----

    /** UPDATE work_orders SET status = to WHERE id = w AND status IN allowed. */
    method SetOrderStatus(w: OrderId, allowed: set<OrderStatus>, to: OrderStatus) returns (ok: bool)
      modifies `orders
      ensures ok == (w in old(orders) && old(orders)[w].status in allowed)
      ensures orders == if ok then old(orders)[w := old(orders)[w].(status := to)] else old(orders)
    {
      ok := w in orders && orders[w].status in allowed;
      if ok {
        orders := orders[w := orders[w].(status := to)];
      }
    }

    method SetInstallation(k: (OrderId, CoverId), i: Installation)
      requires k in installs
      modifies `installs
      ensures installs == old(installs)[k := i]
    {
      installs := installs[k := i];
    }

    /** The installation rows of an order, in whatever order the query returns them. */
    method ListInstallations(w: OrderId) returns (rows: seq<CoverId>)
      ensures forall c :: c in rows <==> (w, c) in installs
      ensures forall i, j :: 0 <= i < j < |rows| ==> rows[i] != rows[j]
    {
      var rest := InstalledCovers(installs, w);
      rows := [];
      while rest != {}
        invariant rest <= InstalledCovers(installs, w)
        invariant forall c :: c in rows <==> c in InstalledCovers(installs, w) - rest
        invariant forall i, j :: 0 <= i < j < |rows| ==> rows[i] != rows[j]
        decreases rest
      {
        var c :| c in rest;
        rest := rest - {c};
        rows := rows + [c];
      }
    }

    // ----- borrows -----

    /** UPDATE borrows SET status = to WHERE id = b AND status = from. */
    method SetBorrowStatus(b: BorrowId, from: BorrowStatus, to: BorrowStatus) returns (ok: bool)
      modifies `borrows
      ensures ok == (b in old(borrows) && old(borrows)[b].status == from)
      ensures borrows == if ok then old(borrows)[b := old(borrows)[b].(status := to)] else old(borrows)
    {
      ok := b in borrows && borrows[b].status == from;
      if ok {
        borrows := borrows[b := borrows[b].(status := to)];
      }
    }

    /** Sets released_at on every unreleased reservation of b; ok when exactly `expected` rows changed. */
    method ReleaseReservations(b: BorrowId, expected: nat) returns (ok: bool)
      modifies `links
      ensures ok == (|ActiveLinks(old(links), b)| == expected)
      ensures links == ReleasedLinks(old(View()), b)
    {
      ok := |ActiveLinks(links, b)| == expected;
      links := ReleasedLinks(View(), b);
    }

    method InsertAudit(b: BorrowId, e: AuditEvent)
      modifies `audit
      ensures audit == old(audit)[b := Log(old(audit), b) + [e]]
    {
      audit := audit[b := Log(audit, b) + [e]];
    }
  }
}
