/** A schedule whose commit order is not a serial order: a blocked return commits after the scan
    that blocked it has been undone. */
module CommitOrder {
  import opened Collections
  import opened Stock
  import opened WorkOrders
  import opened Borrows
  import opened Transactions
  import opened Invariants
  import opened InvariantSteps
  import opened Footprints
  import opened Promises
  import opened Stages
  import opened Progress
  import opened LateReturns
  import opened Witness
  import opened Interleaving

  const RETURN := ReturnLoan("b", LENDER, true)
  const UNSCAN := Unscan(ADMINISTRATOR, "w", "d")
  const DRAWN := DRAFTED.(installs := map[])

  // ----- one transaction after another -----

  lemma {:induction false} RunConcat(sys: System, es: seq<Event>, more: seq<Event>)
    ensures Run(sys, es + more) == Run(Run(sys, es), more)
    decreases |es|
  {
    hide Next;
    if es == [] {
      assert es + more == more;
    } else {
      RunConcat(Next(sys, es[0]), es[1..], more);
      assert (es + more)[1..] == es[1..] + more;
    }
  }

  /** A schedule that ends with nothing running can be continued by any accepted transaction. */
  lemma ThenCommits(es: seq<Event>, s: Ledger, log: seq<Op>, op: Op, t: Ledger) returns (more: seq<Event>)
    requires Run(START, es) == System(s, map[], log) && Step(s, op) == (t, Done)
    ensures Run(START, more) == System(t, map[], log + [op])
  {
    hide Step, Next;
    var last := AcceptedCanCommit(System(s, map[], log), 0, op);
    RunConcat(START, es, last);
    more := es + last;
  }

  lemma TwoCommit(es: seq<Event>, s: Ledger, log: seq<Op>, a: Op, m: Ledger, b: Op, t: Ledger) returns (more: seq<Event>)
    requires Run(START, es) == System(s, map[], log) && Step(s, a) == (m, Done) && Step(m, b) == (t, Done)
    ensures Run(START, more) == System(t, map[], log + [a, b])
  {
    hide Step, Run;
    more := ThenCommits(es, s, log, a, m);
    more := ThenCommits(more, m, log + [a], b, t);
    assert log + [a] + [b] == log + [a, b];
  }

  lemma LentSchedule() returns (es: seq<Event>)
    ensures Run(START, es) == System(S5, map[], LENT)
  {
    var a, b, c, d, e := LENT[0], LENT[1], LENT[2], LENT[3], LENT[4];
    assert LENT == [] + [a, b] + [c, d] + [e];
    hide *;
    LentStarts();
    LentEnds();
    NothingRun();
    es := TwoCommit([], EMPTY, [], a, S1, b, S2);
    es := TwoCommit(es, S2, [] + [a, b], c, S3, d, S4);
    es := ThenCommits(es, S4, [] + [a, b] + [c, d], e, S5);
  }

  lemma DraftedSchedule() returns (es: seq<Event>)
    ensures Run(START, es) == System(DRAFTED, map[], LENT + SCANNED)
  {
    assert SCANNED == [SCANNED[0], SCANNED[1]];
    hide *;
    ScannedEnds();
    es := LentSchedule();
    es := TwoCommit(es, S5, LENT, SCANNED[0], T6, SCANNED[1], DRAFTED);
  }

  lemma NothingRun()
    ensures Run(START, []) == System(EMPTY, map[], [])
  {
  }

  // ----- a return beside an unscan -----

  lemma DraftBlocks()
    ensures StillInstalled(DRAFTED, "d") && !CoverGuard(DRAFTED, RETURN, "d")
  {
    assert ("w", "d") in DRAFTED.installs && ("w", "d").1 == "d" && Open(DRAFTED.installs[("w", "d")]);
    hide OpenOn, Step;
  }

  lemma ReturnLocks()
    ensures Locks(DRAFTED, RETURN).rows == {BorrowRow("b")} && "d" in Locks(DRAFTED, RETURN).covers
    ensures RowGuard(DRAFTED, RETURN)
  {
    hide Step;
    assert LinkedCovers(DRAFTED.links, "b") == {"d"};
  }

  function Held(): Footprint { Footprint({BorrowRow("b")}, {}, {"d"}) }

  function Found(n: nat): Tx { Tx(RETURN, Held(), true, false, {}, Some(n)) }

  /** The return's transaction once its loan is locked and checked, and with the cover's lock. */
  function Returning(covers: set<CoverId>): Tx
  {
    Tx(RETURN, Footprint({BorrowRow("b")}, {}, covers), true, false, {}, None)
  }

  lemma LocksLoan(sys: System)
    requires sys.db == DRAFTED && sys.txs == map[]
    ensures Next(Next(Next(sys, Begin(0, RETURN)), LockRows(0)), CheckRows(0)) == Alone(sys, 0, Returning({}))
  {
    ReturnLocks();
    hide Locks, RowGuard, StillInstalled, Step, Effect, Lock;
    var x := Tx(RETURN, NO_LOCKS, false, false, {}, None);
    assert Next(sys, Begin(0, RETURN)) == Alone(sys, 0, x);
    SoloRows(sys, 0, x);
  }

  lemma MeetsDraft(sys: System)
    requires sys.db == DRAFTED
    ensures Next(Next(Alone(sys, 0, Returning({})), LockCover(0, "d")), CheckCover(0, "d")) == Alone(sys, 0, Found(|sys.log|))
  {
    ReturnLocks();
    DraftBlocks();
    hide Locks, RowGuard, CoverGuard, StillInstalled, RowFree, Known, Step, Effect, Lock;
    SoloLock(sys, 0, Returning({}), Footprint({}, {}, {"d"}));
    assert Joined(Returning({}).held, Footprint({}, {}, {"d"})) == Held();
    assert Next(Alone(sys, 0, Returning({})), LockCover(0, "d")) == Alone(sys, 0, Returning({"d"}));
    assert map[0 := Returning({"d"})][0 := Found(|sys.log|)] == map[0 := Found(|sys.log|)];
  }

  /** The return locks its loan and its cover, and finds the cover in a draft. */
  lemma FindsDraft(log: seq<Op>)
    ensures Run(System(DRAFTED, map[], log), [Begin(0, RETURN), LockRows(0), CheckRows(0), LockCover(0, "d"), CheckCover(0, "d")]) ==
            System(DRAFTED, map[0 := Found(|log|)], log)
  {
    var sys := System(DRAFTED, map[], log);
    assert Alone(sys, 0, Found(|log|)) == System(DRAFTED, map[0 := Found(|log|)], log);
    hide *;
    LocksLoan(sys);
    MeetsDraft(sys);
    RunFive(sys, Begin(0, RETURN), LockRows(0), CheckRows(0), LockCover(0, "d"), CheckCover(0, "d"));
  }

  lemma RunFive(sys: System, a: Event, b: Event, c: Event, d: Event, e: Event)
    ensures Run(sys, [a, b, c, d, e]) == Next(Next(Next(Next(Next(sys, a), b), c), d), e)
  {
    hide Next;
    var last := Next(Next(Next(Next(sys, a), b), c), d);
    RunOne(last, e, []);
    RunTwo(Next(Next(sys, a), b), c, d, [e]);
    RunTwo(sys, a, b, [c, d, e]);
    assert [c, d] + [e] == [c, d, e] && [a, b] + [c, d, e] == [a, b, c, d, e] && [e] + [] == [e];
  }

  lemma UnscanHere()
    ensures Step(DRAFTED, UNSCAN) == (DRAWN, Done) && Locks(DRAFTED, UNSCAN) == Footprint({OrderRow("w")}, {}, {})
    ensures RowGuard(DRAFTED, UNSCAN) && CapacityGuard(DRAFTED, UNSCAN) && Known(DRAFTED, UNSCAN)
    ensures Effect(DRAFTED, UNSCAN) == DRAWN
  {
    assert DRAFTED.installs - {("w", "d")} == map[];
  }

  /** The return's transaction and the unscan's, side by side. */
  function Beside(log: seq<Op>, x: Tx, y: Tx): System
  {
    System(DRAFTED, map[0 := x, 1 := y], log)
  }

  const DRAWING := Tx(UNSCAN, NO_LOCKS, false, false, {}, None)

  function Drawing(rowOk: bool, capacityOk: bool): Tx
  {
    Tx(UNSCAN, Footprint({OrderRow("w")}, {}, {}), rowOk, capacityOk, {}, None)
  }

  lemma LocksOrder(log: seq<Op>, x: Tx)
    requires x.held == Held()
    ensures Next(Beside(log, x, DRAWING), LockRows(1)) == Beside(log, x, Drawing(false, false))
  {
    UnscanHere();
    hide Locks, Step;
    var f := Footprint({OrderRow("w")}, {}, {});
    assert Joined(NO_LOCKS, f) == f;
    assert Grantable(Beside(log, x, DRAWING), 1, f);
    assert map[0 := x, 1 := DRAWING][1 := Drawing(false, false)] == map[0 := x, 1 := Drawing(false, false)];
    hide Grantable;
  }

  lemma ChecksOrder(log: seq<Op>, x: Tx)
    ensures Next(Beside(log, x, Drawing(false, false)), CheckRows(1)) == Beside(log, x, Drawing(true, false))
    ensures Next(Beside(log, x, Drawing(true, false)), CheckCapacity(1)) == Beside(log, x, Drawing(true, true))
  {
    UnscanHere();
    hide Locks, RowGuard, CapacityGuard, Known, Step, RowFree;
    assert map[0 := x, 1 := Drawing(false, false)][1 := Drawing(true, false)] == map[0 := x, 1 := Drawing(true, false)];
    assert map[0 := x, 1 := Drawing(true, false)][1 := Drawing(true, true)] == map[0 := x, 1 := Drawing(true, true)];
  }

  lemma CommitsDraw(log: seq<Op>, x: Tx)
    ensures Next(Beside(log, x, Drawing(true, true)), Commit(1)) == System(DRAWN, map[0 := x], log + [UNSCAN])
  {
    UnscanHere();
    hide Locks, Effect, Step;
    assert map[0 := x, 1 := Drawing(true, true)] - {1} == map[0 := x];
  }

  /** Beside it another transaction takes the draft back: it needs only the order's row. */
  lemma DraftGoes(log: seq<Op>, x: Tx)
    requires x.held == Held()
    ensures Run(System(DRAFTED, map[0 := x], log), [Begin(1, UNSCAN), LockRows(1), CheckRows(1), CheckCapacity(1), Commit(1)]) ==
            System(DRAWN, map[0 := x], log + [UNSCAN])
  {
    var sys := System(DRAFTED, map[0 := x], log);
    assert Next(sys, Begin(1, UNSCAN)) == Beside(log, x, DRAWING);
    hide *;
    LocksOrder(log, x);
    ChecksOrder(log, x);
    CommitsDraw(log, x);
    RunFive(sys, Begin(1, UNSCAN), LockRows(1), CheckRows(1), CheckCapacity(1), Commit(1));
  }

  // ----- the two orders -----

  function Overdrawn(): Ledger
  {
    Late(DRAWN, "b")
  }

  /** The return commits last and leaves the loan OVERDUE; it stands before the unscan in the
      serial order. */
  lemma CommitsLate(log: seq<Op>)
    ensures Next(System(DRAWN, map[0 := Found(|log|)], log + [UNSCAN]), Commit(0)) ==
            System(Overdrawn(), map[], log + [RETURN, UNSCAN])
  {
    var x := Found(|log|);
    assert map[0 := x] - {0} == map[];
    assert Shifted(map[], |log|) == map[];
    assert Inserted(log + [UNSCAN], |log|, RETURN) == log + [RETURN, UNSCAN];
    hide Locks, Late, Inserted, Shifted;
  }

  lemma LateDrawn()
    ensures "b" in Overdrawn().borrows && Overdrawn().borrows["b"].status == Overdue
  {
  }

  lemma NothingInTheWay()
    ensures "b" in DRAWN.borrows && Outstanding(DRAWN.borrows["b"]) && ValidClaims(LENDER) && MayHandOver(LENDER, DRAWN.borrows["b"])
    ensures AllFree(DRAWN, "b")
  {
  }

  /** In commit order the loan comes home. */
  lemma CommitOrderReturns()
    ensures var t := After(EMPTY, LENT + SCANNED + [UNSCAN] + [RETURN]);
            "b" in t.borrows && t.borrows["b"].status == Returned
  {
    UnscanHere();
    NothingInTheWay();
    EmptyInv();
    assert RETURN.ReturnLoan? && RETURN.loan == "b" && RETURN.actor == LENDER && RETURN.active;
    hide *;
    DraftedReached();
    AfterAppend(EMPTY, LENT + SCANNED, [UNSCAN]);
    OneStep(DRAFTED, UNSCAN);
    AfterAppend(EMPTY, LENT + SCANNED + [UNSCAN], [RETURN]);
    OneStep(DRAWN, RETURN);
    RunsKeepInv(EMPTY, LENT + SCANNED + [UNSCAN]);
    ReturnStep(DRAWN, RETURN);
    ReturnProgress(DRAWN, "b", LENDER);
    HomeIs(DRAWN, "b", Return(DRAWN, "b", LENDER, true).0);
  }

  lemma HomeIs(s: Ledger, b: BorrowId, t: Ledger)
    requires CameHome(s, b, t)
    ensures b in t.borrows && t.borrows[b].status == Returned
  {
  }

  /** A schedule from the start in which the unscan commits before the return that it would have
      let through: the database has the loan OVERDUE, where running the two in the order of their
      commits has it RETURNED. Its serial order has the return first. */
  lemma CommitOrderIsNotSerial() returns (es: seq<Event>)
    ensures Run(START, es).log == LENT + SCANNED + [UNSCAN]
    ensures var sys := Run(START, es + [Commit(0)]);
            && sys.txs == map[] && sys.log == LENT + SCANNED + [RETURN, UNSCAN]
            && "b" in sys.db.borrows && sys.db.borrows["b"].status == Overdue
    ensures var t := After(EMPTY, LENT + SCANNED + [UNSCAN] + [RETURN]);
            "b" in t.borrows && t.borrows["b"].status == Returned
  {
    var found := [Begin(0, RETURN), LockRows(0), CheckRows(0), LockCover(0, "d"), CheckCover(0, "d")];
    var gone := [Begin(1, UNSCAN), LockRows(1), CheckRows(1), CheckCapacity(1), Commit(1)];
    var log := LENT + SCANNED;
    FoundHeld(|log|);
    hide *;
    var drafted := DraftedSchedule();
    FindsDraft(log);
    RunConcat(START, drafted, found);
    DraftGoes(log, Found(|log|));
    RunConcat(START, drafted + found, gone);
    es := drafted + found + gone;
    CommitsLate(log);
    RunAppend(START, es, Commit(0));
    LateDrawn();
    CommitOrderReturns();
  }

  lemma FoundHeld(n: nat)
    ensures Found(n).held == Held()
  {
  }
}
