/** Short runs from an empty database that reach the states in which the services promise less
    than one might expect. */
module Witness {
  import opened Collections
  import opened Stock
  import opened WorkOrders
  import opened Borrows
  import opened Transactions

  const HERE := "here"
  const THERE := "there"

  const BORROWER := Actor("h", Exec, Some(HERE))
  const LENDER := Actor("t", Exec, Some(THERE))
  const ADMINISTRATOR := Actor("r", Admin, None)

  const FOUND := Lookups(true, true, true)
  const PLAN := Planning(Some(1), Some(0), Some(1))

  // ----- one cover each, and THERE's is lent to HERE -----

  const OWN := Cover(InStock, HERE, HERE, "A", "QA", None)
  const HOME := Cover(InStock, THERE, THERE, "B", "QB", None)
  const AWAY := HOME.(current := HERE)

  const LOAN := Borrow(HERE, THERE, Requested, 1, 9, "h")
  const ASKED := AuditEvent(CreateAction, None, Requested)

  const S1 := EMPTY.(covers := map["c" := OWN])
  const S2 := S1.(covers := map["c" := OWN, "d" := HOME])
  const S3 := S2.(borrows := map["b" := LOAN], links := map[("b", "d") := false], audit := map["b" := [ASKED]])
  const S4 := S3.(borrows := map["b" := LOAN.(status := Approved)],
                  audit := map["b" := [ASKED, AuditEvent(ApproveAction, Some(Requested), Approved)]])
  const S5 := S4.(covers := map["c" := OWN, "d" := AWAY], links := map[("b", "d") := true],
                  borrows := map["b" := LOAN.(status := OnLoan)],
                  audit := map["b" := [ASKED, AuditEvent(ApproveAction, Some(Requested), Approved), AuditEvent(ActivateAction, Some(Approved), OnLoan)]])

  const LENT: seq<Op> :=
    [Register(HERE, [Item("c", "A", "QA", None)]),
     Register(THERE, [Item("d", "B", "QB", None)]),
     RequestLoan("b", BORROWER, FOUND, Request(THERE, 1, 9, 0), {"d"}),
     ApproveLoan("b", LENDER, true),
     ActivateLoan("b", LENDER, true)]

  /** A batch of one well-formed item with a new id and new codes. */
  lemma RegisterOne(s: Ledger, office: OfficeId, item: Item)
    requires WellFormed(office, item) && item.id !in s.covers && CodesFree(s.covers, CodesOf(Prepared(office, item)))
    ensures RegisterBatch(s, office, [item]) == (s.(covers := s.covers[item.id := Prepared(office, item)]), Done)
  {
    var items := [item];
    assert items[1..] == [] && items[0].id in ItemIds(items);
    assert ItemIds(items) == {item.id};
    assert BatchRefusal(office, [], {} + CodesOf(Prepared(office, item))) == None;
    assert NewCovers(office, items) == map[item.id := Prepared(office, item)];
    assert s.covers + NewCovers(office, items) == s.covers[item.id := Prepared(office, item)];
    hide NewCovers, ItemOf, ItemIds, CodesOf, Prepared, WellFormed, CodesFree;
  }

  lemma Step1()
    ensures RegisterBatch(EMPTY, HERE, [Item("c", "A", "QA", None)]) == (S1, Done)
  {
    RegisterOne(EMPTY, HERE, Item("c", "A", "QA", None));
    assert EMPTY.covers["c" := OWN] == S1.covers;
    hide RegisterBatch;
  }

  lemma Step2()
    ensures RegisterBatch(S1, THERE, [Item("d", "B", "QB", None)]) == (S2, Done)
  {
    assert CodesOf(OWN) !! CodesOf(HOME);
    RegisterOne(S1, THERE, Item("d", "B", "QB", None));
    assert S1.covers["d" := HOME] == S2.covers;
    hide RegisterBatch;
  }

  /** What an office can lend when it has one free cover of its own and no plans. */
  lemma OneToLend(s: Ledger, o: OfficeId, c: CoverId)
    requires OwnedSet(s.covers, o) == {c} && s.orders == map[] && EligibleSet(s, o) == {c}
    requires ReservationSet(s.borrows, s.links, o) == {}
    ensures BorrowableCapacity(s, o) == 1
  {
    assert SlotSet(s.orders, o, None) == {};
    hide OwnedSet, EligibleSet, ReservationSet;
  }

  /** A request for the one cover an office has to lend. */
  lemma RequestOne(s: Ledger, id: BorrowId, a: Actor, lender: OfficeId, c: CoverId)
    requires a.role == Exec && ValidClaims(a) && lender != "" && a.office != Some(lender)
    requires OwnedSet(s.covers, lender) == {c} && s.orders == map[] && EligibleSet(s, lender) == {c}
    requires ReservationSet(s.borrows, s.links, lender) == {}
    requires id !in s.borrows && id !in s.audit && forall k :: k in s.links ==> k.0 != id
    ensures CreateBorrow(s, id, a, FOUND, Request(lender, 1, 9, 0), {c}) ==
            (s.(borrows := s.borrows[id := Borrow(a.office.value, lender, Requested, 1, 9, a.id)],
                links := s.links[(id, c) := false], audit := s.audit[id := [ASKED]]), Done)
  {
    OneToLend(s, lender, c);
    assert c in EligibleSet(s, lender) && EligibleAt(s, lender, c);
    assert NewLinks(id, {c}) == map[(id, c) := false];
    assert s.links + NewLinks(id, {c}) == s.links[(id, c) := false];
    assert [] + [ASKED] == [ASKED];
    hide BorrowableCapacity, NewLinks, EligibleAt, OwnedSet, EligibleSet, ReservationSet;
  }

  lemma Step3()
    ensures CreateBorrow(S2, "b", BORROWER, FOUND, Request(THERE, 1, 9, 0), {"d"}) == (S3, Done)
  {
    assert OwnedSet(S2.covers, THERE) == {"d"} && EligibleSet(S2, THERE) == {"d"};
    assert ReservationSet(S2.borrows, S2.links, THERE) == {};
    RequestOne(S2, "b", BORROWER, THERE, "d");
    hide CreateBorrow, OwnedSet, EligibleSet, ReservationSet;
    assert S2.borrows["b" := LOAN] == S3.borrows && S2.links[("b", "d") := false] == S3.links;
    assert S2.audit["b" := [ASKED]] == S3.audit;
  }

  lemma Step4()
    ensures Approve(S3, "b", LENDER, true) == (S4, Done)
  {
    assert S3.audit["b"] + [AuditEvent(ApproveAction, Some(Requested), Approved)] == S4.audit["b"];
    assert Moved(S3, "b", ApproveAction, Approved).borrows == S4.borrows;
    assert Moved(S3, "b", ApproveAction, Approved).audit == S4.audit;
    assert Moved(S3, "b", ApproveAction, Approved) == S4;
    hide Moved;
  }

  lemma Step5()
    ensures Activate(S4, "b", LENDER, true) == (S5, Done)
  {
    assert ActiveLinks(S4.links, "b") == {"d"};
    assert AvailableAtLender(S4, S4.borrows["b"], "d");
    HandOver5();
    hide ActiveLinks, Released, Relocated, Moved, AvailableAtLender;
  }

  lemma HandOver5()
    ensures Moved(Released(Relocated(S4, {"d"}, HERE), "b"), "b", ActivateAction, OnLoan) == S5
  {
    var m := Released(Relocated(S4, {"d"}, HERE), "b");
    assert m.covers == S5.covers && m.links == S5.links && m.audit == S4.audit && m.borrows == S4.borrows;
    assert S4.audit["b"] + [AuditEvent(ActivateAction, Some(Approved), OnLoan)] == S5.audit["b"];
    hide Relocated, Released;
    assert Moved(m, "b", ActivateAction, OnLoan).borrows == S5.borrows;
    assert Moved(m, "b", ActivateAction, OnLoan).audit == S5.audit;
  }

  // ----- two ways to go on -----

  /** HERE promises its own cover to THERE and then plans for one. */
  const LOAN2 := Borrow(THERE, HERE, Requested, 1, 9, "t")
  const ORDER := WorkOrder(HERE, Scheduled, 1, 0, 1, None)

  const S6 := S5.(borrows := S5.borrows["e" := LOAN2], links := S5.links[("e", "c") := false], audit := S5.audit["e" := [ASKED]])
  const SHORT := S6.(orders := map["w" := ORDER])

  const PROMISED: seq<Op> :=
    [RequestLoan("e", LENDER, FOUND, Request(HERE, 1, 9, 0), {"c"}), OpenOrder("w", HERE, PLAN, None, true)]

  lemma ToLendHere()
    ensures OwnedSet(S5.covers, HERE) == {"c"} && EligibleSet(S5, HERE) == {"c"}
    ensures ReservationSet(S5.borrows, S5.links, HERE) == {}
  {
    assert forall k :: k in S5.links ==> S5.links[k];
  }

  lemma Step6()
    ensures CreateBorrow(S5, "e", LENDER, FOUND, Request(HERE, 1, 9, 0), {"c"}) == (S6, Done)
  {
    ToLendHere();
    hide CreateBorrow, OwnedSet, EligibleSet, ReservationSet;
    RequestOne(S5, "e", LENDER, HERE, "c");
  }

  lemma Step7()
    ensures CreateOrder(S6, "w", HERE, PLAN, None, true) == (SHORT, Done)
  {
    assert InStockSet(S6.covers, HERE) == {"c", "d"};
    assert SlotSet(S6.orders, HERE, None) == {};
    assert ReservationSet(S6.borrows, S6.links, HERE) == {("e", "c")};
    assert Available(S6, HERE, None) == 1;
    hide Available;
  }

  /** HERE plans for one and scans the cover that THERE has lent it. */
  const T6 := S5.(orders := map["w" := ORDER])
  const DRAFTED := T6.(installs := map[("w", "d") := DRAFT])

  const SCANNED: seq<Op> := [OpenOrder("w", HERE, PLAN, None, true), Scan(ADMINISTRATOR, "w", "d")]

  lemma Step6Draft()
    ensures CreateOrder(S5, "w", HERE, PLAN, None, true) == (T6, Done)
  {
    assert InStockSet(S5.covers, HERE) == {"c", "d"};
    assert SlotSet(S5.orders, HERE, None) == {};
    assert ReservationSet(S5.borrows, S5.links, HERE) == {};
    assert Available(S5, HERE, None) == 2;
    hide Available;
  }

  lemma Step7Draft()
    ensures ScanInstall(T6, ADMINISTRATOR, "w", "d") == (DRAFTED, Done)
  {
    assert !ReservedOn(T6.links, "d") && !OpenElsewhere(T6.installs, "w", "d");
    hide ReservedOn, OpenElsewhere;
  }

  // ----- the runs -----

  lemma TwoSteps(s: Ledger, x: Op, m: Ledger, y: Op, t: Ledger)
    requires Step(s, x).0 == m && Step(m, y).0 == t
    ensures After(s, [x, y]) == t
  {
    hide Step;
    assert [x, y][1..] == [y] && [y][1..] == [];
    assert After(t, []) == t;
    assert After(m, [y]) == After(t, []);
  }

  lemma LentStarts()
    ensures Step(EMPTY, LENT[0]) == (S1, Done) && Step(S1, LENT[1]) == (S2, Done)
  {
    Step1();
    Step2();
    hide RegisterBatch;
  }

  lemma LentEnds()
    ensures Step(S2, LENT[2]) == (S3, Done) && Step(S3, LENT[3]) == (S4, Done) && Step(S4, LENT[4]) == (S5, Done)
  {
    Step3();
    Step4();
    Step5();
    hide CreateBorrow, Approve, Activate;
  }

  lemma LentReached()
    ensures After(EMPTY, LENT) == S5
  {
    assert |LENT| == 5;
    hide *;
    LentStarts();
    LentEnds();
    FiveSteps(LENT, S1, S2, S3, S4, S5);
  }

  lemma FiveSteps(ops: seq<Op>, s1: Ledger, s2: Ledger, s3: Ledger, s4: Ledger, s5: Ledger)
    requires |ops| == 5 && Step(EMPTY, ops[0]).0 == s1 && Step(s1, ops[1]).0 == s2 && Step(s2, ops[2]).0 == s3
    requires Step(s3, ops[3]).0 == s4 && Step(s4, ops[4]).0 == s5
    ensures After(EMPTY, ops) == s5
  {
    hide Step;
    var a, b, c, d := ops[1..], ops[1..][1..], ops[1..][1..][1..], ops[1..][1..][1..][1..];
    assert a[0] == ops[1] && b[0] == ops[2] && c[0] == ops[3] && d[0] == ops[4] && d[1..] == [];
    assert After(s5, []) == s5;
    assert After(s4, d) == s5;
    assert After(s3, c) == s5;
    assert After(s2, b) == s5;
    assert After(s1, a) == s5;
  }

  lemma ShortReached()
    ensures After(EMPTY, LENT + PROMISED) == SHORT
  {
    Step6();
    Step7();
    assert Step(S5, PROMISED[0]).0 == S6 && Step(S6, PROMISED[1]).0 == SHORT by { hide CreateBorrow, CreateOrder; }
    hide *;
    LentReached();
    TwoSteps(S5, PROMISED[0], S6, PROMISED[1], SHORT);
    AfterAppend(EMPTY, LENT, PROMISED);
  }

  lemma ScannedEnds()
    ensures Step(S5, SCANNED[0]) == (T6, Done) && Step(T6, SCANNED[1]) == (DRAFTED, Done)
  {
    Step6Draft();
    Step7Draft();
    hide CreateOrder, ScanInstall;
  }

  lemma DraftedReached()
    ensures After(EMPTY, LENT + SCANNED) == DRAFTED
  {
    ScannedEnds();
    assert SCANNED == [SCANNED[0], SCANNED[1]];
    hide *;
    LentReached();
    TwoSteps(S5, SCANNED[0], T6, SCANNED[1], DRAFTED);
    AfterAppend(EMPTY, LENT, SCANNED);
  }
}
