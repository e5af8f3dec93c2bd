/** Cover registration and retirement as the code runs them, against their specification. */
module CoverService {
  import opened Collections
  import opened Stock
  import opened Database
  import Borrows

  // ----- the checking loop -----

  /** The codes of the first n rows. */
  ghost function AllCodes(office: OfficeId, items: seq<Borrows.Item>, n: nat): set<Code>
    requires n <= |items|
  {
    set i, k | 0 <= i < n && k in CodesOf(Borrows.Prepared(office, items[i])) :: k
  }

  /** The first n items are well formed and share no code. */
  ghost predicate CheckedSoFar(office: OfficeId, items: seq<Borrows.Item>, n: nat)
    requires n <= |items|
  {
    forall i :: 0 <= i < n ==> Checked(office, items, i)
  }

  ghost predicate Checked(office: OfficeId, items: seq<Borrows.Item>, i: nat)
    requires i < |items|
  {
    Borrows.WellFormed(office, items[i]) && CodesOf(Borrows.Prepared(office, items[i])) !! AllCodes(office, items, i)
  }

  lemma CodesGrow(office: OfficeId, items: seq<Borrows.Item>, n: nat)
    requires n < |items|
    ensures AllCodes(office, items, n + 1) == AllCodes(office, items, n) + CodesOf(Borrows.Prepared(office, items[n]))
  {
    hide CodesOf;
  }

  /** The three columns' codes, kept apart. */
  ghost predicate Columns(assetCodes: set<string>, qrCodes: set<string>, nfcIds: set<string>, codes: set<Code>)
  {
    forall t :: (t in assetCodes <==> Asset(t) in codes) && (t in qrCodes <==> Qr(t) in codes) && (t in nfcIds <==> Nfc(t) in codes)
  }

  lemma ColumnsClash(assetCodes: set<string>, qrCodes: set<string>, nfcIds: set<string>, codes: set<Code>, row: Cover)
    requires Columns(assetCodes, qrCodes, nfcIds, codes)
    ensures CodesOf(row) !! codes <==>
            row.assetCode !in assetCodes && row.qrCode !in qrCodes && !(row.nfcId.Some? && row.nfcId.value in nfcIds)
  {
    assert Asset(row.assetCode) in CodesOf(row) && Qr(row.qrCode) in CodesOf(row);
    assert row.nfcId.Some? ==> Nfc(row.nfcId.value) in CodesOf(row);
  }

  lemma ColumnsNext(assetCodes: set<string>, qrCodes: set<string>, nfcIds: set<string>, codes: set<Code>, row: Cover)
    requires Columns(assetCodes, qrCodes, nfcIds, codes)
    ensures Columns(assetCodes + {row.assetCode}, qrCodes + {row.qrCode},
                    if row.nfcId.Some? then nfcIds + {row.nfcId.value} else nfcIds, codes + CodesOf(row))
  {
  }

  /** What the loop has found so far leaves the answer to the items that remain. */
  lemma {:induction false} RefusalFrom(office: OfficeId, items: seq<Borrows.Item>, n: nat)
    requires n <= |items| && CheckedSoFar(office, items, n)
    ensures Borrows.BatchRefusal(office, items, {}) == Borrows.BatchRefusal(office, items[n..], AllCodes(office, items, n))
  {
    hide CodesOf, Borrows.WellFormed;
    if n == 0 {
      assert items[0..] == items && AllCodes(office, items, 0) == {};
    } else {
      RefusalFrom(office, items, n - 1);
      CodesGrow(office, items, n - 1);
      assert Checked(office, items, n - 1);
      hide AllCodes;
      assert items[n - 1..][1..] == items[n..] && items[n - 1..][0] == items[n - 1];
    }
  }

  // ----- the inserts -----

  /** What the rows of the first n items add to the covers table. */
  ghost predicate InsertedSoFar(s: Ledger, office: OfficeId, items: seq<Borrows.Item>, n: nat, covers: Covers)
    requires n <= |items|
  {
    && (forall c :: c in covers <==> c in s.covers || exists i :: 0 <= i < n && items[i].id == c)
    && (forall c :: c in s.covers ==> c in covers && covers[c] == s.covers[c])
    && (forall i :: 0 <= i < n ==> items[i].id in covers && covers[items[i].id] == Borrows.Prepared(office, items[i]))
  }

  /** With distinct ids an id names its own item. */
  lemma ItemAt(items: seq<Borrows.Item>, i: nat)
    requires i < |items| && forall j, k :: 0 <= j < k < |items| ==> items[j].id != items[k].id
    ensures items[i].id in Borrows.ItemIds(items) && Borrows.ItemOf(items, items[i].id) == items[i]
  {
    var r := Borrows.ItemOf(items, items[i].id);
    var j :| 0 <= j < |items| && items[j] == r;
    assert i == j;
  }

  lemma InsertedKeys(s: Ledger, office: OfficeId, items: seq<Borrows.Item>, covers: Covers)
    requires InsertedSoFar(s, office, items, |items|, covers)
    ensures covers.Keys == s.covers.Keys + Borrows.ItemIds(items)
  {
    hide Borrows.Prepared;
  }

  lemma InsertedRow(s: Ledger, office: OfficeId, items: seq<Borrows.Item>, covers: Covers, c: CoverId)
    requires InsertedSoFar(s, office, items, |items|, covers) && Fits(s, office, items, |items|) && c in Borrows.ItemIds(items)
    ensures c in covers && c !in s.covers && covers[c] == Borrows.Prepared(office, Borrows.ItemOf(items, c))
  {
    hide Borrows.Prepared, CodesFree;
    var i :| 0 <= i < |items| && items[i].id == c;
    ItemAt(items, i);
    hide Borrows.ItemOf, Borrows.ItemIds;
  }

  lemma OldRow(s: Ledger, office: OfficeId, items: seq<Borrows.Item>, covers: Covers, c: CoverId)
    requires InsertedSoFar(s, office, items, |items|, covers) && c in s.covers
    ensures c in covers && covers[c] == s.covers[c]
  {
  }

  lemma NewRow(office: OfficeId, items: seq<Borrows.Item>, c: CoverId)
    requires c in Borrows.ItemIds(items)
    ensures c in Borrows.NewCovers(office, items) && Borrows.NewCovers(office, items)[c] == Borrows.Prepared(office, Borrows.ItemOf(items, c))
  {
    hide Borrows.Prepared, Borrows.ItemOf, Borrows.ItemIds;
  }

  lemma NewKeys(office: OfficeId, items: seq<Borrows.Item>)
    ensures Borrows.NewCovers(office, items).Keys == Borrows.ItemIds(items)
  {
    hide Borrows.Prepared, Borrows.ItemOf, Borrows.ItemIds;
  }

  lemma InsertedAll(s: Ledger, office: OfficeId, items: seq<Borrows.Item>, covers: Covers)
    requires InsertedSoFar(s, office, items, |items|, covers) && Fits(s, office, items, |items|)
    ensures covers == s.covers + Borrows.NewCovers(office, items)
  {
    hide *;
    InsertedKeys(s, office, items, covers);
    NewKeys(office, items);
    forall c | c in s.covers ensures c in covers && covers[c] == s.covers[c] {
      OldRow(s, office, items, covers, c);
    }
    forall c | c in Borrows.NewCovers(office, items) ensures c !in s.covers && c in covers && covers[c] == Borrows.NewCovers(office, items)[c] {
      InsertedRow(s, office, items, covers, c);
      NewRow(office, items, c);
    }
    MapUnion(covers, s.covers, Borrows.NewCovers(office, items));
  }

  /** The first n items collide with nothing stored before the batch, nor by id among themselves. */
  ghost predicate Fits(s: Ledger, office: OfficeId, items: seq<Borrows.Item>, n: nat)
    requires n <= |items|
  {
    && (forall i, j :: 0 <= i < j < n ==> items[i].id != items[j].id)
    && (forall i :: 0 <= i < n ==> items[i].id !in s.covers)
    && (forall i :: 0 <= i < n ==> CodesFree(s.covers, CodesOf(Borrows.Prepared(office, items[i]))))
  }

  /** Row n's codes are free among the rows so far exactly when they were free before the batch. */
  lemma CodesFreeStill(s: Ledger, office: OfficeId, items: seq<Borrows.Item>, n: nat, covers: Covers)
    requires n < |items| && InsertedSoFar(s, office, items, n, covers) && Checked(office, items, n)
    ensures CodesFree(covers, CodesOf(Borrows.Prepared(office, items[n]))) <==>
            CodesFree(s.covers, CodesOf(Borrows.Prepared(office, items[n])))
  {
    hide CodesOf, Borrows.Prepared;
    var codes := CodesOf(Borrows.Prepared(office, items[n]));
    if CodesFree(s.covers, codes) {
      forall c | c in covers ensures CodesOf(covers[c]) !! codes {
        if c !in s.covers {
          var i :| 0 <= i < n && items[i].id == c;
          assert covers[c] == Borrows.Prepared(office, items[i]);
        }
      }
    }
    if CodesFree(covers, codes) {
      forall c | c in s.covers ensures CodesOf(s.covers[c]) !! codes {
        assert covers[c] == s.covers[c];
      }
    }
  }

  lemma FitsNext(s: Ledger, office: OfficeId, items: seq<Borrows.Item>, n: nat, covers: Covers)
    requires n < |items| && InsertedSoFar(s, office, items, n, covers) && Fits(s, office, items, n)
    ensures items[n].id !in covers && CodesFree(s.covers, CodesOf(Borrows.Prepared(office, items[n]))) <==>
            Fits(s, office, items, n + 1)
  {
    hide CodesFree, CodesOf, Borrows.Prepared;
  }

  lemma InsertedNext(s: Ledger, office: OfficeId, items: seq<Borrows.Item>, n: nat, covers: Covers)
    requires n < |items| && InsertedSoFar(s, office, items, n, covers) && items[n].id !in covers
    ensures InsertedSoFar(s, office, items, n + 1, covers[items[n].id := Borrows.Prepared(office, items[n])])
  {
    hide Borrows.Prepared;
  }

  /** The insert of item n succeeds exactly when it collides with nothing stored so far. */
  lemma InsertNext(s: Ledger, office: OfficeId, items: seq<Borrows.Item>, n: nat, covers: Covers)
    requires n < |items| && InsertedSoFar(s, office, items, n, covers) && Fits(s, office, items, n) && Checked(office, items, n)
    ensures (items[n].id !in covers && CodesFree(covers, CodesOf(Borrows.Prepared(office, items[n])))) <==>
            Fits(s, office, items, n + 1)
    ensures Fits(s, office, items, n + 1) ==>
              InsertedSoFar(s, office, items, n + 1, covers[items[n].id := Borrows.Prepared(office, items[n])])
  {
    hide *;
    CodesFreeStill(s, office, items, n, covers);
    FitsNext(s, office, items, n, covers);
    if items[n].id !in covers {
      InsertedNext(s, office, items, n, covers);
    }
  }

  lemma NoneInserted(s: Ledger, office: OfficeId, items: seq<Borrows.Item>)
    ensures Fits(s, office, items, 0) && InsertedSoFar(s, office, items, 0, s.covers)
  {
  }

  lemma CheckedAt(office: OfficeId, items: seq<Borrows.Item>, n: nat)
    requires n < |items| && CheckedSoFar(office, items, |items|)
    ensures Checked(office, items, n)
  {
    hide Checked;
  }

  lemma FitsWhole(s: Ledger, office: OfficeId, items: seq<Borrows.Item>, n: nat)
    requires n <= |items|
    ensures Fits(s, office, items, |items|) <==> Borrows.Storable(s, office, items)
    ensures Borrows.Storable(s, office, items) ==> Fits(s, office, items, n)
  {
    hide CodesFree, Borrows.Prepared;
  }

  class CoverService {
    const db: Database

    constructor (db: Database)
      ensures this.db == db
    {
      this.db := db;
    }

    /** Checks every item and collects its codes column by column, then stores all rows or none. */
    method RegisterBatch(office: OfficeId, items: seq<Borrows.Item>) returns (v: Verdict)
      modifies db
      ensures (db.View(), v) == Borrows.RegisterBatch(old(db.View()), office, items)
    {
      hide Borrows.Storable, Borrows.NewCovers;
      if |items| == 0 {
        return Refused(Validation);
      }
      var refusal := CheckItems(office, items);
      if refusal.Some? {
        return Refused(refusal.value);
      }
      v := CreateBatch(office, items);
    }

    method CheckItems(office: OfficeId, items: seq<Borrows.Item>) returns (refusal: Option<Error>)
      ensures refusal == Borrows.BatchRefusal(office, items, {})
      ensures refusal.None? ==> CheckedSoFar(office, items, |items|)
    {
      var assetCodes: set<string>, qrCodes: set<string>, nfcIds: set<string> := {}, {}, {};
      for n := 0 to |items|
        invariant CheckedSoFar(office, items, n)
        invariant Columns(assetCodes, qrCodes, nfcIds, AllCodes(office, items, n))
      {
        RefusalFrom(office, items, n);
        CodesGrow(office, items, n);
        hide AllCodes, CheckedSoFar, Columns, CodesOf, Borrows.Prepared;
        assert items[n..][0] == items[n];
        if !Borrows.WellFormed(office, items[n]) {
          return Some(Validation);
        }
        var row := Borrows.Prepared(office, items[n]);
        ColumnsClash(assetCodes, qrCodes, nfcIds, AllCodes(office, items, n), row);
        if row.assetCode in assetCodes || row.qrCode in qrCodes || (row.nfcId.Some? && row.nfcId.value in nfcIds) {
          return Some(Conflict);
        }
        CheckedNext(office, items, n);
        ColumnsNext(assetCodes, qrCodes, nfcIds, AllCodes(office, items, n), row);
        assetCodes := assetCodes + {row.assetCode};
        qrCodes := qrCodes + {row.qrCode};
        if row.nfcId.Some? {
          nfcIds := nfcIds + {row.nfcId.value};
        }
      }
      RefusalFrom(office, items, |items|);
      refusal := None;
    }

    method CreateBatch(office: OfficeId, items: seq<Borrows.Item>) returns (v: Verdict)
      requires CheckedSoFar(office, items, |items|)
      modifies db
      ensures v == if Borrows.Storable(old(db.View()), office, items) then Done else Refused(DuplicateKey)
      ensures v == Done ==> db.View() == old(db.View()).(covers := old(db.covers) + Borrows.NewCovers(office, items))
      ensures v != Done ==> db.View() == old(db.View())
    {
      var s := db.View();
      hide *;
      NoneInserted(s, office, items);
      for n := 0 to |items|
        invariant db.View() == s.(covers := db.covers)
        invariant Fits(s, office, items, n) && InsertedSoFar(s, office, items, n, db.covers)
      {
        CheckedAt(office, items, n);
        InsertNext(s, office, items, n, db.covers);
        var ok := db.InsertCover(items[n].id, Borrows.Prepared(office, items[n]));
        if !ok {
          FitsWhole(s, office, items, n + 1);
          db.Rollback(s);
          return Refused(DuplicateKey);
        }
      }
      FitsWhole(s, office, items, |items|);
      InsertedAll(s, office, items, db.covers);
      v := Done;
    }

    /** Retires a cover that is at home, in stock, unclaimed and not needed for any commitment. */
    method Retire(c: CoverId) returns (v: Verdict)
      modifies db
      ensures (db.View(), v) == Borrows.Retire(old(db.View()), c)
    {
      hide OpenOn, ReservedOn, InStockCount, PlannedCount, ReservedCount;
      if c !in db.covers {
        return Refused(NotFound);
      }
      var row := db.covers[c];
      if row.owner == "" || row.current != row.owner || row.status != InStock {
        return Refused(Conflict);
      }
      if OpenOn(db.installs, c) || ReservedOn(db.links, c) {
        return Refused(Conflict);
      }
      if InStockCount(db.View(), row.owner) - PlannedCount(db.View(), row.owner) - ReservedCount(db.View(), row.owner) < 1 {
        return Refused(Conflict);
      }
      var ok := db.SetCoverStatus(c, InStock, Retired);
      v := Done;
    }
  }

  lemma CheckedNext(office: OfficeId, items: seq<Borrows.Item>, n: nat)
    requires n < |items| && CheckedSoFar(office, items, n) && Borrows.WellFormed(office, items[n])
    requires CodesOf(Borrows.Prepared(office, items[n])) !! AllCodes(office, items, n)
    ensures CheckedSoFar(office, items, n + 1)
  {
    hide CodesOf, AllCodes, Borrows.Prepared;
  }
}
