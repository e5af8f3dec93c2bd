/** Transactions split into lock, check and commit steps and interleaved arbitrarily. */
module Interleaving {
  import opened Collections
  import opened Stock
  import opened WorkOrders
  import opened Borrows
  import opened Transactions
  import opened Invariants
  import opened InvariantSteps
  import opened Footprints
  import opened Capacity
  import opened Promises
  import opened Stages
  import opened Progress
  import opened LateReturns

  type TxId = nat

  /** A running transaction: the locks it has so far and the checks that have passed. A return
      that finds a cover still installed notes in `late` how much of the serial order had been
      written by then. */
  datatype Tx = Tx(op: Op, held: Footprint, rowOk: bool, capacityOk: bool, passed: set<CoverId>, late: Option<nat>)

  /** The committed database, the running transactions, and the serial order of the committed
      ones. A transaction takes its place in that order when it commits, a blocked return the
      place where it found the installed cover. */
  datatype System = System(db: Ledger, txs: map<TxId, Tx>, log: seq<Op>)

  const NO_LOCKS := Footprint({}, {}, {})

  const START := System(EMPTY, map[], [])

  datatype Event =
    | Begin(tx: TxId, op: Op)
    | LockRows(tx: TxId)
    | LockOffices(tx: TxId)
    | LockCover(tx: TxId, cover: CoverId)
    | CheckRows(tx: TxId)
    | CheckCapacity(tx: TxId)
    | CheckCover(tx: TxId, cover: CoverId)
    | Commit(tx: TxId)
    | Abort(tx: TxId)

  predicate Apart(f: Footprint, g: Footprint)
  {
    f.rows !! g.rows && f.offices !! g.offices && f.covers !! g.covers
  }

  function Joined(f: Footprint, g: Footprint): Footprint
  {
    Footprint(f.rows + g.rows, f.offices + g.offices, f.covers + g.covers)
  }

  /** No other transaction holds any lock of f. */
  predicate Grantable(sys: System, t: TxId, f: Footprint)
  {
    forall u :: u in sys.txs && u != t ==> Apart(sys.txs[u].held, f)
  }

  /** The locks are granted all together, or the transaction keeps waiting. */
  function Lock(sys: System, t: TxId, f: Footprint): System
    requires t in sys.txs
  {
    if Grantable(sys, t, f) then sys.(txs := sys.txs[t := sys.txs[t].(held := Joined(sys.txs[t].held, f))]) else sys
  }

  /** A rollback drops the transaction, its locks and whatever it had established. */
  function Drop(sys: System, t: TxId): System
  {
    sys.(txs := sys.txs - {t})
  }

  predicate RowsHeld(s: Ledger, x: Tx) { Locks(s, x.op).rows <= x.held.rows }

  predicate OfficesHeld(s: Ledger, x: Tx) { Known(s, x.op) && Locks(s, x.op).offices <= x.held.offices }

  /** Everything has been locked and checked. */
  predicate Ready(s: Ledger, x: Tx)
  {
    x.rowOk && x.late.None? && x.capacityOk && Locks(s, x.op).covers <= x.passed
  }

  /** A return that found an installed cover commits the overdue marking and nothing else. */
  predicate LateReady(log: seq<Op>, x: Tx)
  {
    x.late.Some? && x.op.ReturnLoan? && x.late.value <= |log|
  }

  /** The serial order with op put in at place n. */
  function Inserted(log: seq<Op>, n: nat, op: Op): seq<Op>
    requires n <= |log|
  {
    log[..n] + [op] + log[n..]
  }

  /** Places behind n move up by one. */
  function Shift(x: Tx, n: nat): Tx
  {
    if x.late.Some? && x.late.value > n then x.(late := Some(x.late.value + 1)) else x
  }

  function Shifted(txs: map<TxId, Tx>, n: nat): map<TxId, Tx>
  {
    map u | u in txs :: Shift(txs[u], n)
  }

  function Next(sys: System, e: Event): System
  {
    if e.Begin? then
      if e.tx in sys.txs then sys else sys.(txs := sys.txs[e.tx := Tx(e.op, NO_LOCKS, false, false, {}, None)])
    else if e.tx !in sys.txs then sys
    else
      var x := sys.txs[e.tx];
      match e
      case Begin(_, _) => sys
      case LockRows(t) => Lock(sys, t, Footprint(Locks(sys.db, x.op).rows, {}, {}))
      case LockOffices(t) => if Known(sys.db, x.op) then Lock(sys, t, Footprint({}, Locks(sys.db, x.op).offices, {})) else sys
      case LockCover(t, c) => Lock(sys, t, Footprint({}, {}, {c}))
      case CheckRows(t) =>
        if !RowsHeld(sys.db, x) then sys
        else if RowGuard(sys.db, x.op) then sys.(txs := sys.txs[t := x.(rowOk := true)])
        else Drop(sys, t)
      case CheckCapacity(t) =>
        if !OfficesHeld(sys.db, x) || !(RowFree(x.op) || RowsHeld(sys.db, x)) then sys
        else if CapacityGuard(sys.db, x.op) then sys.(txs := sys.txs[t := x.(capacityOk := true)])
        else Drop(sys, t)
      case CheckCover(t, c) =>
        if c !in x.held.covers || c !in Locks(sys.db, x.op).covers || !(RowFree(x.op) || x.rowOk) || x.late.Some? then sys
        else if CoverGuard(sys.db, x.op, c) then sys.(txs := sys.txs[t := x.(passed := x.passed + {c})])
        else if x.op.ReturnLoan? && StillInstalled(sys.db, c) then sys.(txs := sys.txs[t := x.(late := Some(|sys.log|))])
        else Drop(sys, t)
      case Commit(t) =>
        if Ready(sys.db, x) then
          System(Effect(sys.db, x.op), sys.txs - {t}, sys.log + [x.op])
        else if LateReady(sys.log, x) then
          var n := x.late.value;
          System(Late(sys.db, x.op.loan), Shifted(sys.txs - {t}, n), Inserted(sys.log, n, x.op))
        else sys
      case Abort(t) => Drop(sys, t)
  }

  function Run(sys: System, es: seq<Event>): System
    decreases |es|
  {
    if es == [] then sys else Run(Next(sys, es[0]), es[1..])
  }

  // ----- what every interleaving keeps -----

  /** Each passed check was made under its lock and still holds. */
  ghost predicate TxOk(s: Ledger, x: Tx)
  {
    && (x.rowOk ==> RowsHeld(s, x) && RowGuard(s, x.op))
    && (x.capacityOk ==> OfficesHeld(s, x) && (RowFree(x.op) || RowsHeld(s, x)) && CapacityGuard(s, x.op))
    && (forall c :: c in x.passed ==> c in x.held.covers && (RowFree(x.op) || RowsHeld(s, x)) && CoverGuard(s, x.op, c))
  }

  ghost predicate LocksExclusive(txs: map<TxId, Tx>)
  {
    forall t, u :: t in txs && u in txs && t != u ==> Apart(txs[t].held, txs[u].held)
  }

  ghost predicate ChecksHold(s: Ledger, txs: map<TxId, Tx>)
  {
    forall t :: t in txs ==> TxOk(s, txs[t])
  }

  /** A blocked return was blocked at its place in the serial order, and nothing behind that
      place has locked its loan. */
  ghost predicate LateOk(log: seq<Op>, x: Tx)
  {
    x.late.Some? ==>
      && x.rowOk && LateReady(log, x)
      && Step(After(EMPTY, log[..x.late.value]), x.op).1 == Blocked
      && Untouched(log[x.late.value..], x.op.loan)
  }

  ghost predicate LatesHold(log: seq<Op>, txs: map<TxId, Tx>)
  {
    forall t :: t in txs ==> LateOk(log, txs[t])
  }

  ghost predicate SystemInv(sys: System)
  {
    && Inv(sys.db)
    && LocksExclusive(sys.txs)
    && ChecksHold(sys.db, sys.txs)
    && LatesHold(sys.log, sys.txs)
    && sys.db == After(EMPTY, sys.log)
  }

  /** A change inside footprint f spoils no check of a transaction that holds none of f's locks. */
  lemma ChecksSurvive(s: Ledger, t: Ledger, f: Footprint, x: Tx)
    requires Kept(s, t, f) && TxOk(s, x) && Apart(f, x.held)
    ensures TxOk(t, x)
  {
    hide Kept, Locks, RowGuard, CapacityGuard, CoverGuard, Known, RowFree;
    RowsStay(s, t, x.op);
    if x.rowOk {
      RowStays(s, t, f, x.op);
    }
    if x.capacityOk {
      OfficesStay(s, t, f, x.op);
      CapacityStays(s, t, f, x.op);
    }
    forall c | c in x.passed ensures CoverGuard(t, x.op, c) {
      CoverStays(s, t, f, x.op, c);
    }
  }

  /** Everything checked, the atomic transaction would be accepted right now. */
  lemma ReadyIsDone(s: Ledger, x: Tx)
    requires TxOk(s, x) && Ready(s, x)
    ensures Step(s, x.op) == (Effect(s, x.op), Done)
    ensures Locks(s, x.op).rows <= x.held.rows && Locks(s, x.op).offices <= x.held.offices
    ensures Locks(s, x.op).covers <= x.held.covers
  {
    hide Locks, RowGuard, CapacityGuard, CoverGuard, Step, Effect, Known, RowFree;
    PartsMakeWhole(s, x.op);
  }

  /** A commit of everything checked is exactly the atomic transaction, applied at that moment. */
  lemma CommitIsAtomic(sys: System, t: TxId)
    requires SystemInv(sys) && t in sys.txs && Ready(sys.db, sys.txs[t])
    ensures Step(sys.db, sys.txs[t].op) == (Next(sys, Commit(t)).db, Done)
  {
    hide Locks, RowGuard, CapacityGuard, CoverGuard, Step, Effect, Known, RowFree, Inv, After, Ready;
    ReadyIsDone(sys.db, sys.txs[t]);
  }

  /** The capacity a transaction has checked is still there when it commits: no deficit is left
      at an office where it made the check, whatever ran in between. */
  lemma CheckedCapacityIsThere(sys: System, t: TxId, o: OfficeId)
    requires SystemInv(sys) && t in sys.txs && Ready(sys.db, sys.txs[t]) && o in CheckedOffices(sys.db, sys.txs[t].op)
    ensures Free(Next(sys, Commit(t)).db, o) >= 0
  {
    hide *;
    CommitIsAtomic(sys, t);
    assert Inv(sys.db) by { SystemParts(sys); }
    CheckedStaysFree(sys.db, sys.txs[t].op, o);
  }

  lemma SystemParts(sys: System)
    requires SystemInv(sys)
    ensures Inv(sys.db) && LocksExclusive(sys.txs) && ChecksHold(sys.db, sys.txs) && LatesHold(sys.log, sys.txs)
    ensures sys.db == After(EMPTY, sys.log)
  {
  }

  lemma CommitKeeps(sys: System, t: TxId)
    requires SystemInv(sys) && t in sys.txs && Ready(sys.db, sys.txs[t])
    ensures SystemInv(Next(sys, Commit(t)))
  {
    var x := sys.txs[t];
    var db := Effect(sys.db, x.op);
    CommitShape(sys, t);
    hide *;
    SystemParts(sys);
    CommitIsAtomic(sys, t);
    assert TxOk(sys.db, x) by { OneOk(sys, t); }
    ReadyIsDone(sys.db, x);
    StepKept(sys.db, x.op);
    KeepsStep(sys.db, x.op);
    OthersOk(sys, t, db, Locks(sys.db, x.op));
    LatesAppend(sys, t);
    AfterAppend(EMPTY, sys.log, [x.op]);
    OneStep(sys.db, x.op);
    SystemWhole(Next(sys, Commit(t)));
  }

  lemma CommitShape(sys: System, t: TxId)
    requires t in sys.txs && Ready(sys.db, sys.txs[t])
    ensures Next(sys, Commit(t)) == System(Effect(sys.db, sys.txs[t].op), sys.txs - {t}, sys.log + [sys.txs[t].op])
  {
    hide Effect, Ready;
  }

  lemma OneOk(sys: System, t: TxId)
    requires ChecksHold(sys.db, sys.txs) && t in sys.txs
    ensures TxOk(sys.db, sys.txs[t])
  {
    hide TxOk;
  }

  lemma SystemWhole(sys: System)
    requires Inv(sys.db) && LocksExclusive(sys.txs) && ChecksHold(sys.db, sys.txs) && LatesHold(sys.log, sys.txs)
    requires sys.db == After(EMPTY, sys.log)
    ensures SystemInv(sys)
  {
  }

  /** A commit inside the locks of t leaves the others' locks and checks as they were. */
  lemma OthersOk(sys: System, t: TxId, db: Ledger, f: Footprint)
    requires LocksExclusive(sys.txs) && ChecksHold(sys.db, sys.txs) && t in sys.txs && Kept(sys.db, db, f)
    requires f.rows <= sys.txs[t].held.rows && f.offices <= sys.txs[t].held.offices
    requires f.covers <= sys.txs[t].held.covers
    ensures LocksExclusive(sys.txs - {t}) && ChecksHold(db, sys.txs - {t})
  {
    hide Kept, TxOk;
    forall u | u in sys.txs - {t} ensures TxOk(db, sys.txs[u]) {
      assert Apart(sys.txs[t].held, sys.txs[u].held);
      ChecksSurvive(sys.db, db, f, sys.txs[u]);
    }
  }

  // ----- the serial order -----

  /** A commit leaves the blocked returns of the others where they are. */
  lemma LatesAppend(sys: System, t: TxId)
    requires LocksExclusive(sys.txs) && ChecksHold(sys.db, sys.txs) && LatesHold(sys.log, sys.txs)
    requires t in sys.txs && Locks(sys.db, sys.txs[t].op).rows <= sys.txs[t].held.rows
    ensures LatesHold(sys.log + [sys.txs[t].op], sys.txs - {t})
  {
    hide *;
    forall u | u in sys.txs - {t} ensures LateOk(sys.log + [sys.txs[t].op], sys.txs[u]) {
      assert LateOk(sys.log, sys.txs[u]) by { OneLate(sys, u); }
      assert TxOk(sys.db, sys.txs[u]) by { OneOk(sys, u); }
      assert Apart(sys.txs[t].held, sys.txs[u].held) by { TwoApart(sys, t, u); }
      LateAppend(sys.db, sys.log, sys.txs[u], sys.txs[t]);
    }
    LatesWhole(sys.log + [sys.txs[t].op], sys.txs - {t});
  }

  lemma OneLate(sys: System, t: TxId)
    requires LatesHold(sys.log, sys.txs) && t in sys.txs
    ensures LateOk(sys.log, sys.txs[t])
  {
    hide LateOk;
  }

  lemma TwoApart(sys: System, t: TxId, u: TxId)
    requires LocksExclusive(sys.txs) && t in sys.txs && u in sys.txs && t != u
    ensures Apart(sys.txs[t].held, sys.txs[u].held)
  {
    hide Apart;
  }

  lemma LatesWhole(log: seq<Op>, txs: map<TxId, Tx>)
    requires forall u :: u in txs ==> LateOk(log, txs[u])
    ensures LatesHold(log, txs)
  {
  }

  lemma LateAppend(s: Ledger, log: seq<Op>, x: Tx, y: Tx)
    requires LateOk(log, x) && TxOk(s, x) && Apart(y.held, x.held) && Locks(s, y.op).rows <= y.held.rows
    ensures LateOk(log + [y.op], x)
  {
    if x.late.Some? {
      LateHeld(s, x);
      LockedRowsAre(s, y.op);
      var n := x.late.value;
      assert (log + [y.op])[..n] == log[..n] && (log + [y.op])[n..] == log[n..] + [y.op];
      hide Step, After, LockedRows, TxOk, Locks;
    }
  }

  /** Putting a blocked return in at its place marks its loan overdue in the final state, and
      changes nothing else. */
  lemma BlockedReturnIsSerial(log: seq<Op>, n: nat, op: Op)
    requires n <= |log| && op.ReturnLoan? && Step(After(EMPTY, log[..n]), op).1 == Blocked && Untouched(log[n..], op.loan)
    ensures After(EMPTY, Inserted(log, n, op)) == Late(After(EMPTY, log), op.loan)
    ensures op.loan in After(EMPTY, log).borrows && op.loan in After(EMPTY, log).audit
  {
    var s, b := After(EMPTY, log[..n]), op.loan;
    assert log[..n] + log[n..] == log;
    ReturnStep(s, op);
    BlockedFacts(s, b, op.actor, op.active);
    hide *;
    RunFromEmpty(log[..n]);
    AuditPresent(s, b);
    RunLeaves(s, b, log[n..]);
    MarkCommutesRun(s, b, log[n..]);
    AfterAppend(EMPTY, log[..n], log[n..]);
    AfterInserted(log, n, op);
    LateIs(s, b);
  }

  lemma LateIs(s: Ledger, b: BorrowId)
    requires b in s.borrows
    ensures Late(s, b) == MarkedLate(s, b)
  {
    hide MarkedLate;
  }

  lemma AfterInserted(log: seq<Op>, n: nat, op: Op)
    requires n <= |log|
    ensures After(EMPTY, Inserted(log, n, op)) == After(Step(After(EMPTY, log[..n]), op).0, log[n..])
  {
    hide Step, After;
    AfterAppend(EMPTY, log[..n], [op]);
    OneStep(After(EMPTY, log[..n]), op);
    AfterAppend(EMPTY, log[..n] + [op], log[n..]);
  }

  lemma RunFromEmpty(ops: seq<Op>)
    ensures Inv(After(EMPTY, ops))
  {
    EmptyInv();
    hide Inv, After;
    RunsKeepInv(EMPTY, ops);
  }

  lemma AuditPresent(s: Ledger, b: BorrowId)
    requires Inv(s) && b in s.borrows
    ensures b in s.audit
  {
    AuditOf(s);
    hide Inv;
  }

  /** Another blocked return keeps its place, moved up by one if it lies behind. */
  lemma LateInserted(log: seq<Op>, n: nat, op: Op, x: Tx)
    requires n <= |log| && op.ReturnLoan? && Step(After(EMPTY, log[..n]), op).1 == Blocked && Untouched(log[n..], op.loan)
    requires LateOk(log, x) && (x.late.Some? ==> x.op.ReturnLoan? && x.op.loan != op.loan)
    ensures LateOk(Inserted(log, n, op), Shift(x, n))
  {
    hide Step, After, LockedRows, Untouched, Inserted;
    if x.late.Some? {
      if x.late.value <= n {
        LateAhead(log, n, op, x.late.value, x.op);
      } else {
        LateBehind(log, n, op, x.late.value, x.op);
      }
      InsertedSize(log, n, op);
    }
  }

  lemma InsertedSize(log: seq<Op>, n: nat, op: Op)
    requires n <= |log|
    ensures |Inserted(log, n, op)| == |log| + 1
  {
  }

  lemma LateAhead(log: seq<Op>, n: nat, op: Op, m: nat, late: Op)
    requires m <= n <= |log| && op.ReturnLoan? && late.ReturnLoan? && late.loan != op.loan && Untouched(log[m..], late.loan)
    ensures Inserted(log, n, op)[..m] == log[..m] && Untouched(Inserted(log, n, op)[m..], late.loan)
  {
    LockedRowsAre(EMPTY, op);
    hide LockedRows;
    assert Inserted(log, n, op)[m..] == log[m..n] + [op] + log[n..];
    assert log[m..] == log[m..n] + log[n..];
  }

  lemma LateBehind(log: seq<Op>, n: nat, op: Op, m: nat, late: Op)
    requires n < m <= |log| && op.ReturnLoan? && Step(After(EMPTY, log[..n]), op).1 == Blocked && Untouched(log[n..], op.loan)
    requires late.ReturnLoan? && late.loan != op.loan && Step(After(EMPTY, log[..m]), late).1 == Blocked
    ensures Inserted(log, n, op)[..m + 1] == Inserted(log[..m], n, op) && Inserted(log, n, op)[m + 1..] == log[m..]
    ensures Step(After(EMPTY, Inserted(log, n, op)[..m + 1]), late).1 == Blocked
  {
    hide Step, After;
    LockedRowsAre(EMPTY, late);
    hide LockedRows;
    assert log[..m][..n] == log[..n];
    assert forall i :: 0 <= i < |log[..m][n..]| ==> log[..m][n..][i] == log[n..][i];
    BlockedReturnIsSerial(log[..m], n, op);
    MarkCommutes(After(EMPTY, log[..m]), op.loan, late);
    assert Inserted(log, n, op)[..m + 1] == Inserted(log[..m], n, op);
    assert Inserted(log, n, op)[m + 1..] == log[m..];
  }

  /** Two transactions never have blocked returns of one loan. */
  lemma LoansApart(sys: System, t: TxId, u: TxId)
    requires LocksExclusive(sys.txs) && ChecksHold(sys.db, sys.txs) && LatesHold(sys.log, sys.txs)
    requires t in sys.txs && u in sys.txs && t != u && sys.txs[t].late.Some? && sys.txs[u].late.Some?
    ensures sys.txs[t].op.ReturnLoan? && sys.txs[u].op.ReturnLoan? && sys.txs[u].op.loan != sys.txs[t].op.loan
  {
    hide *;
    OneLate(sys, t);
    OneLate(sys, u);
    OneOk(sys, t);
    OneOk(sys, u);
    TwoApart(sys, t, u);
    LateParts(sys.log, sys.txs[t]);
    LateParts(sys.log, sys.txs[u]);
    LateHeld(sys.db, sys.txs[t]);
    LateHeld(sys.db, sys.txs[u]);
    RowsApart(sys.txs[t].held, sys.txs[u].held);
  }

  lemma RowsApart(f: Footprint, g: Footprint)
    requires Apart(f, g)
    ensures f.rows !! g.rows
  {
  }

  lemma LateParts(log: seq<Op>, x: Tx)
    requires LateOk(log, x) && x.late.Some?
    ensures x.rowOk && x.op.ReturnLoan? && x.late.value <= |log|
    ensures Step(After(EMPTY, log[..x.late.value]), x.op).1 == Blocked && Untouched(log[x.late.value..], x.op.loan)
  {
    hide Step, After, Untouched;
  }

  lemma LatesInsert(sys: System, t: TxId)
    requires LocksExclusive(sys.txs) && ChecksHold(sys.db, sys.txs) && LatesHold(sys.log, sys.txs)
    requires t in sys.txs && LateReady(sys.log, sys.txs[t])
    ensures LatesHold(Inserted(sys.log, sys.txs[t].late.value, sys.txs[t].op), Shifted(sys.txs - {t}, sys.txs[t].late.value))
  {
    var x := sys.txs[t];
    var n := x.late.value;
    var log, txs := Inserted(sys.log, n, x.op), Shifted(sys.txs - {t}, n);
    hide Step, After, LateOk, Inserted, LocksExclusive, ChecksHold, Untouched;
    LateParts(sys.log, x);
    forall u | u in txs ensures LateOk(log, txs[u]) {
      OneLate(sys, u);
      if sys.txs[u].late.Some? {
        LoansApart(sys, t, u);
      }
      LateInserted(sys.log, n, x.op, sys.txs[u]);
    }
  }

  /** Committing a blocked return leaves the database its serial order leads to. */
  lemma LateKeeps(sys: System, t: TxId)
    requires SystemInv(sys) && t in sys.txs && !Ready(sys.db, sys.txs[t])
    ensures SystemInv(Next(sys, Commit(t)))
  {
    LateShape(sys, t);
    hide *;
    if LateReady(sys.log, sys.txs[t]) {
      LateCommitKeeps(sys, t, Next(sys, Commit(t)));
    }
  }

  lemma LateCommitKeeps(sys: System, t: TxId, after: System)
    requires SystemInv(sys) && t in sys.txs && LateReady(sys.log, sys.txs[t])
    requires after == System(Late(sys.db, sys.txs[t].op.loan), Shifted(sys.txs - {t}, sys.txs[t].late.value),
                             Inserted(sys.log, sys.txs[t].late.value, sys.txs[t].op))
    ensures SystemInv(after)
  {
    var x := sys.txs[t];
    var b := x.op.loan;
    hide *;
    SystemParts(sys);
    OneLate(sys, t);
    LateParts(sys.log, x);
    BlockedReturnIsSerial(sys.log, x.late.value, x.op);
    LateIs(sys.db, b);
    KeepsLate(sys.db, b);
    LateOthers(sys, t, b);
    ShiftedKeeps(after.db, sys.txs - {t}, x.late.value);
    LatesInsert(sys, t);
    SystemWhole(after);
  }

  lemma ShiftedKeeps(s: Ledger, txs: map<TxId, Tx>, n: nat)
    requires LocksExclusive(txs) && ChecksHold(s, txs)
    ensures LocksExclusive(Shifted(txs, n)) && ChecksHold(s, Shifted(txs, n))
  {
    hide Apart;
    forall u | u in txs ensures TxOk(s, Shift(txs[u], n)) {
      ShiftOk(s, txs[u], n);
    }
    hide TxOk;
  }

  lemma ShiftOk(s: Ledger, x: Tx, n: nat)
    requires TxOk(s, x)
    ensures TxOk(s, Shift(x, n)) && Shift(x, n).held == x.held
  {
    hide RowGuard, CapacityGuard, CoverGuard, Locks, Known, RowFree;
  }

  lemma LateOthers(sys: System, t: TxId, b: BorrowId)
    requires LocksExclusive(sys.txs) && ChecksHold(sys.db, sys.txs) && t in sys.txs && b in sys.db.borrows
    requires sys.txs[t].rowOk && sys.txs[t].op.ReturnLoan? && sys.txs[t].op.loan == b
    ensures LocksExclusive(sys.txs - {t}) && ChecksHold(MarkedLate(sys.db, b), sys.txs - {t})
  {
    var db, f := MarkedLate(sys.db, b), Footprint({BorrowRow(b)}, {}, {});
    hide *;
    OneOk(sys, t);
    LateHeld(sys.db, sys.txs[t]);
    LateKept(sys.db, b, f);
    OthersOk(sys, t, db, f);
  }

  lemma LateShape(sys: System, t: TxId)
    requires t in sys.txs && !Ready(sys.db, sys.txs[t])
    ensures var x := sys.txs[t];
            Next(sys, Commit(t)) ==
              if LateReady(sys.log, x) then
                System(Late(sys.db, x.op.loan), Shifted(sys.txs - {t}, x.late.value), Inserted(sys.log, x.late.value, x.op))
              else sys
  {
    hide Effect, Ready, Late, Shifted, Inserted;
  }

  /** In commit order a blocked return is the atomic return only as long as a cover is still
      installed at its commit; once none is, the atomic return would bring the covers home. */
  lemma CommitOrderOfBlockedReturn(sys: System, t: TxId)
    requires SystemInv(sys) && t in sys.txs && LateReady(sys.log, sys.txs[t])
    ensures var op, next := sys.txs[t].op, Next(sys, Commit(t)).db;
            && op.loan in sys.db.borrows && op.loan in next.borrows && next.borrows[op.loan].status == Overdue
            && (Step(sys.db, op) == (next, Blocked) <==> !AllFree(sys.db, op.loan))
            && (AllFree(sys.db, op.loan) ==> Step(sys.db, op).1 == Done && CameHome(sys.db, op.loan, Step(sys.db, op).0))
  {
    var x := sys.txs[t];
    LateNotReady(sys, t);
    LateShape(sys, t);
    hide *;
    SystemParts(sys);
    OneLate(sys, t);
    OneOk(sys, t);
    LateParts(sys.log, x);
    ReturnRow(sys.db, x);
    ReturnStep(sys.db, x.op);
    ReturnProgress(sys.db, x.op.loan, x.op.actor);
    LateIs(sys.db, x.op.loan);
    OverdueNow(sys.db, x.op.loan);
    if !AllFree(sys.db, x.op.loan) {
      BlockedFacts(sys.db, x.op.loan, x.op.actor, x.op.active);
      PairIs(Step(sys.db, x.op), Late(sys.db, x.op.loan), Blocked);
    }
  }

  lemma PairIs(p: (Ledger, Verdict), s: Ledger, v: Verdict)
    requires p.0 == s && p.1 == v
    ensures p == (s, v)
  {
  }

  lemma LateNotReady(sys: System, t: TxId)
    requires t in sys.txs && LateReady(sys.log, sys.txs[t])
    ensures !Ready(sys.db, sys.txs[t])
  {
    hide Locks;
  }

  lemma OverdueNow(s: Ledger, b: BorrowId)
    requires b in s.borrows && Outstanding(s.borrows[b])
    ensures b in MarkedLate(s, b).borrows && MarkedLate(s, b).borrows[b].status == Overdue
  {
  }

  /** What a return has established about its borrow row. */
  lemma ReturnRow(s: Ledger, x: Tx)
    requires TxOk(s, x) && x.rowOk && x.op.ReturnLoan?
    ensures x.op.loan in s.borrows && Outstanding(s.borrows[x.op.loan]) && ValidClaims(x.op.actor) && x.op.active
    ensures MayHandOver(x.op.actor, s.borrows[x.op.loan])
  {
    hide CapacityGuard, CoverGuard, Locks, Known, LinkedCovers;
  }

  /** A loaned cover that is still installed blocks the return. */
  lemma InstalledBlocks(s: Ledger, op: Op, c: CoverId)
    requires Inv(s) && op.ReturnLoan? && RowGuard(s, op) && c in Locks(s, op).covers && StillInstalled(s, c)
    ensures Step(s, op).1 == Blocked
  {
    ReturnGuard(s, op);
    hide *;
    Disassemble(s);
    OutRows(s, op.loan);
    NotAllFree(s, op.loan, c);
    ReturnStep(s, op);
    ReturnProgress(s, op.loan, op.actor);
  }

  lemma ReturnGuard(s: Ledger, op: Op)
    requires op.ReturnLoan? && RowGuard(s, op)
    ensures op.loan in s.borrows && Outstanding(s.borrows[op.loan]) && ValidClaims(op.actor) && op.active
    ensures MayHandOver(op.actor, s.borrows[op.loan]) && Locks(s, op).covers == LinkedCovers(s.links, op.loan)
  {
  }

  lemma NotAllFree(s: Ledger, b: BorrowId, c: CoverId)
    requires c in LinkedCovers(s.links, b) && OpenOn(s.installs, c)
    ensures !AllFree(s, b)
  {
    hide OpenOn, LinkedCovers;
  }

  lemma LateHeld(s: Ledger, x: Tx)
    requires TxOk(s, x) && x.rowOk && x.op.ReturnLoan?
    ensures BorrowRow(x.op.loan) in x.held.rows
  {
    hide RowGuard, CapacityGuard, CoverGuard;
  }

  // ----- the other events -----

  lemma DropKeeps(sys: System, t: TxId)
    requires SystemInv(sys)
    ensures SystemInv(Drop(sys, t))
  {
    hide Inv, TxOk, LateOk, After, Apart;
  }

  /** Rewriting one transaction, keeping its locks. */
  lemma CheckKeeps(sys: System, t: TxId, x: Tx)
    requires SystemInv(sys) && t in sys.txs && x.held == sys.txs[t].held && TxOk(sys.db, x) && LateOk(sys.log, x)
    ensures SystemInv(sys.(txs := sys.txs[t := x]))
  {
    hide Inv, TxOk, LateOk, After, Apart;
  }

  lemma MoreLocksOk(s: Ledger, x: Tx, f: Footprint)
    requires TxOk(s, x)
    ensures TxOk(s, x.(held := Joined(x.held, f)))
  {
    hide RowGuard, CapacityGuard, CoverGuard, Locks, Known, RowFree;
  }

  /** Locks and passed checks do not matter to a blocked return's place. */
  lemma LateSteady(log: seq<Op>, x: Tx, y: Tx)
    requires LateOk(log, x) && y.op == x.op && y.late == x.late && (x.rowOk ==> y.rowOk)
    ensures LateOk(log, y)
  {
    hide Step, After, Untouched;
  }

  lemma LockKeeps(sys: System, t: TxId, f: Footprint)
    requires SystemInv(sys) && t in sys.txs
    ensures SystemInv(Lock(sys, t, f))
  {
    MoreLocksOk(sys.db, sys.txs[t], f);
    LateSteady(sys.log, sys.txs[t], sys.txs[t].(held := Joined(sys.txs[t].held, f)));
    hide Inv, TxOk, LateOk, After;
  }

  lemma NewTxOk(s: Ledger, log: seq<Op>, op: Op)
    ensures TxOk(s, Tx(op, NO_LOCKS, false, false, {}, None)) && LateOk(log, Tx(op, NO_LOCKS, false, false, {}, None))
  {
    hide RowGuard, CapacityGuard, CoverGuard, Locks, Known, RowFree;
  }

  lemma BeginKeeps(sys: System, t: TxId, op: Op)
    requires SystemInv(sys)
    ensures SystemInv(Next(sys, Begin(t, op)))
  {
    NewTxOk(sys.db, sys.log, op);
    hide Inv, After, TxOk, LateOk;
  }

  lemma CheckRowsKeeps(sys: System, t: TxId)
    requires SystemInv(sys)
    ensures SystemInv(Next(sys, CheckRows(t)))
  {
    hide Inv, After, RowGuard, CapacityGuard, CoverGuard, Locks, Known, RowFree, LocksExclusive, LateOk;
    if t in sys.txs && RowsHeld(sys.db, sys.txs[t]) {
      if RowGuard(sys.db, sys.txs[t].op) {
        LateSteady(sys.log, sys.txs[t], sys.txs[t].(rowOk := true));
        CheckKeeps(sys, t, sys.txs[t].(rowOk := true));
      } else {
        DropKeeps(sys, t);
      }
    }
  }

  lemma CheckCapacityKeeps(sys: System, t: TxId)
    requires SystemInv(sys)
    ensures SystemInv(Next(sys, CheckCapacity(t)))
  {
    hide Inv, After, RowGuard, CapacityGuard, CoverGuard, Locks, Known, RowFree, LocksExclusive, LateOk;
    if t in sys.txs {
      if CapacityGuard(sys.db, sys.txs[t].op) {
        if OfficesHeld(sys.db, sys.txs[t]) && (RowFree(sys.txs[t].op) || RowsHeld(sys.db, sys.txs[t])) {
          LateSteady(sys.log, sys.txs[t], sys.txs[t].(capacityOk := true));
          CheckKeeps(sys, t, sys.txs[t].(capacityOk := true));
        }
      } else {
        DropKeeps(sys, t);
      }
    }
  }

  /** A return that has just found an installed cover takes its place at the end of the order. */
  lemma LateFound(sys: System, x: Tx, c: CoverId)
    requires Inv(sys.db) && sys.db == After(EMPTY, sys.log) && TxOk(sys.db, x) && x.rowOk && x.op.ReturnLoan?
    requires c in Locks(sys.db, x.op).covers && StillInstalled(sys.db, c)
    ensures LateOk(sys.log, x.(late := Some(|sys.log|))) && TxOk(sys.db, x.(late := Some(|sys.log|)))
  {
    hide *;
    RowPassed(sys.db, x);
    InstalledBlocks(sys.db, x.op, c);
    LateTxOk(sys.db, x, |sys.log|);
    LateAtEnd(sys.log, x);
  }

  lemma RowPassed(s: Ledger, x: Tx)
    requires TxOk(s, x) && x.rowOk
    ensures RowGuard(s, x.op)
  {
    hide RowGuard, CapacityGuard, CoverGuard, Locks, Known, RowFree;
  }

  lemma LateTxOk(s: Ledger, x: Tx, n: nat)
    requires TxOk(s, x)
    ensures TxOk(s, x.(late := Some(n)))
  {
    hide RowGuard, CapacityGuard, CoverGuard, Locks, Known, RowFree;
  }

  lemma LateAtEnd(log: seq<Op>, x: Tx)
    requires x.rowOk && x.op.ReturnLoan? && Step(After(EMPTY, log), x.op).1 == Blocked
    ensures LateOk(log, x.(late := Some(|log|)))
  {
    hide Step, After, LockedRows;
    assert log[..|log|] == log && log[|log|..] == [];
  }

  /** A passed cover check, made under the cover's lock and the rows'. */
  lemma CoverPassed(s: Ledger, x: Tx, c: CoverId)
    requires TxOk(s, x) && c in x.held.covers && (RowFree(x.op) || x.rowOk) && CoverGuard(s, x.op, c)
    ensures TxOk(s, x.(passed := x.passed + {c}))
  {
    hide RowGuard, CapacityGuard, CoverGuard, Locks, Known, RowFree;
  }

  lemma CheckCoverKeeps(sys: System, t: TxId, c: CoverId)
    requires SystemInv(sys)
    ensures SystemInv(Next(sys, CheckCover(t, c)))
  {
    hide SystemInv, RowGuard, CapacityGuard, CoverGuard, Locks, Known, RowFree, StillInstalled, TxOk, LateOk;
    if t in sys.txs {
      var x := sys.txs[t];
      SystemParts(sys);
      OneOk(sys, t);
      OneLate(sys, t);
      hide Inv, After, LocksExclusive, ChecksHold, LatesHold;
      if c in x.held.covers && c in Locks(sys.db, x.op).covers && (RowFree(x.op) || x.rowOk) && x.late.None? {
        if CoverGuard(sys.db, x.op, c) {
          LateSteady(sys.log, x, x.(passed := x.passed + {c}));
          CoverPassed(sys.db, x, c);
          CheckKeeps(sys, t, x.(passed := x.passed + {c}));
        } else if x.op.ReturnLoan? && StillInstalled(sys.db, c) {
          ReturnNotFree(x.op);
          LateFound(sys, x, c);
          CheckKeeps(sys, t, x.(late := Some(|sys.log|)));
        } else {
          DropKeeps(sys, t);
        }
      }
    }
  }

  lemma ReturnNotFree(op: Op)
    requires op.ReturnLoan?
    ensures !RowFree(op)
  {
  }

  lemma NextKeeps(sys: System, e: Event)
    requires SystemInv(sys)
    ensures SystemInv(Next(sys, e))
  {
    hide SystemInv, Ready, RowGuard, CapacityGuard, CoverGuard, Locks, Known, RowFree, RowsHeld, OfficesHeld;
    hide Effect, Late, LateReady, Inserted, Shifted, Lock, Drop;
    match e
    case Begin(t, op) => BeginKeeps(sys, t, op);
    case CheckRows(t) => CheckRowsKeeps(sys, t);
    case CheckCapacity(t) => CheckCapacityKeeps(sys, t);
    case CheckCover(t, c) => CheckCoverKeeps(sys, t, c);
    case LockRows(t) => if t in sys.txs { LockKeeps(sys, t, Footprint(Locks(sys.db, sys.txs[t].op).rows, {}, {})); }
    case LockOffices(t) => if t in sys.txs { LockKeeps(sys, t, Footprint({}, Locks(sys.db, sys.txs[t].op).offices, {})); }
    case LockCover(t, c) => if t in sys.txs { LockKeeps(sys, t, Footprint({}, {}, {c})); }
    case Abort(t) => DropKeeps(sys, t);
    case Commit(t) =>
      if t in sys.txs {
        if Ready(sys.db, sys.txs[t]) {
          CommitKeeps(sys, t);
        } else {
          LateKeeps(sys, t);
        }
      }
  }

  lemma {:induction false} RunKeeps(sys: System, es: seq<Event>)
    requires SystemInv(sys)
    ensures SystemInv(Run(sys, es))
    decreases |es|
  {
    hide SystemInv, Next;
    if es != [] {
      NextKeeps(sys, es[0]);
      RunKeeps(Next(sys, es[0]), es[1..]);
    }
  }

  lemma StartInv()
    ensures SystemInv(START)
  {
    EmptyInv();
    hide Inv;
  }

  /** Every interleaving is serial: its database is the one the committed transactions reach
      one after another, in commit order, and so satisfies the ledger's invariant. */
  lemma EveryInterleavingIsSerial(es: seq<Event>)
    ensures Run(START, es).db == After(EMPTY, Run(START, es).log)
    ensures Inv(Run(START, es).db)
  {
    hide *;
    StartInv();
    RunKeeps(START, es);
    SystemParts(Run(START, es));
  }

  /** After any interleaving, committing a transaction whose capacity check has passed leaves no
      deficit at the office it checked. */
  lemma NoDeficitAtCommit(es: seq<Event>, t: TxId, o: OfficeId)
    requires var sys := Run(START, es); t in sys.txs && Ready(sys.db, sys.txs[t]) && o in CheckedOffices(sys.db, sys.txs[t].op)
    ensures Free(Run(START, es + [Commit(t)]).db, o) >= 0
  {
    RunAppend(START, es, Commit(t));
    hide *;
    StartInv();
    RunKeeps(START, es);
    CheckedCapacityIsThere(Run(START, es), t, o);
  }

  lemma {:induction false} RunAppend(sys: System, es: seq<Event>, e: Event)
    ensures Run(sys, es + [e]) == Next(Run(sys, es), e)
    decreases |es|
  {
    hide Next;
    if es == [] {
      assert es + [e] == [e] && [e][1..] == [];
    } else {
      RunAppend(Next(sys, es[0]), es[1..], e);
      assert (es + [e])[1..] == es[1..] + [e];
    }
  }

  // ----- nothing is lost: a transaction that runs alone goes through -----

  function Alone(sys: System, t: TxId, x: Tx): System
  {
    sys.(txs := map[t := x])
  }

  lemma SoloLock(sys: System, t: TxId, x: Tx, f: Footprint)
    ensures Lock(Alone(sys, t, x), t, f) == Alone(sys, t, x.(held := Joined(x.held, f)))
  {
    hide Apart;
    assert Alone(sys, t, x).txs[t := x.(held := Joined(x.held, f))] == map[t := x.(held := Joined(x.held, f))];
  }

  lemma SoloRows(sys: System, t: TxId, x: Tx)
    requires RowGuard(sys.db, x.op) && x.held == NO_LOCKS
    ensures var y := x.(held := Footprint(Locks(sys.db, x.op).rows, {}, {}));
            Next(Next(Alone(sys, t, x), LockRows(t)), CheckRows(t)) == Alone(sys, t, y.(rowOk := true))
  {
    hide RowGuard, Locks, CapacityGuard, CoverGuard, Known, Effect, Ready, Lock;
    var f := Footprint(Locks(sys.db, x.op).rows, {}, {});
    SoloLock(sys, t, x, f);
    assert Joined(x.held, f) == f;
    assert Next(Alone(sys, t, x), LockRows(t)) == Alone(sys, t, x.(held := f));
    assert map[t := x.(held := f)][t := x.(held := f, rowOk := true)] == map[t := x.(held := f, rowOk := true)];
  }

  lemma SoloCapacity(sys: System, t: TxId, x: Tx)
    requires CapacityGuard(sys.db, x.op) && Known(sys.db, x.op) && x.held == Footprint(Locks(sys.db, x.op).rows, {}, {})
    ensures var y := x.(held := Footprint(x.held.rows, Locks(sys.db, x.op).offices, {}));
            Next(Next(Alone(sys, t, x), LockOffices(t)), CheckCapacity(t)) == Alone(sys, t, y.(capacityOk := true))
  {
    hide RowGuard, Locks, CapacityGuard, CoverGuard, Known, Effect, Ready, Lock, RowFree;
    var f := Footprint({}, Locks(sys.db, x.op).offices, {});
    SoloLock(sys, t, x, f);
    var y := x.(held := Joined(x.held, f));
    assert y.held == Footprint(x.held.rows, Locks(sys.db, x.op).offices, {});
    assert Next(Alone(sys, t, x), LockOffices(t)) == Alone(sys, t, y);
    assert map[t := y][t := y.(capacityOk := true)] == map[t := y.(capacityOk := true)];
  }

  lemma SoloCover(sys: System, t: TxId, x: Tx, c: CoverId)
    requires CoverGuard(sys.db, x.op, c) && c in Locks(sys.db, x.op).covers && x.rowOk && x.late.None?
    ensures var y := x.(held := Joined(x.held, Footprint({}, {}, {c})));
            Next(Next(Alone(sys, t, x), LockCover(t, c)), CheckCover(t, c)) == Alone(sys, t, y.(passed := x.passed + {c}))
  {
    hide RowGuard, Locks, CapacityGuard, CoverGuard, Known, Effect, Ready, Lock, RowFree, StillInstalled;
    var y := x.(held := Joined(x.held, Footprint({}, {}, {c})));
    SoloLock(sys, t, x, Footprint({}, {}, {c}));
    assert Next(Alone(sys, t, x), LockCover(t, c)) == Alone(sys, t, y);
    assert map[t := y][t := y.(passed := x.passed + {c})] == map[t := y.(passed := x.passed + {c})];
  }

  lemma {:induction false} SoloCovers(sys: System, t: TxId, x: Tx, cs: set<CoverId>) returns (es: seq<Event>, y: Tx)
    requires x.rowOk && x.late.None? && cs <= Locks(sys.db, x.op).covers
    requires forall c :: c in cs ==> CoverGuard(sys.db, x.op, c)
    ensures Run(Alone(sys, t, x), es) == Alone(sys, t, y)
    ensures y == x.(held := y.held, passed := x.passed + cs)
    decreases cs
  {
    hide Next, CoverGuard, Locks, Alone;
    if cs == {} {
      es, y := [], x;
      assert x.passed + cs == x.passed;
    } else {
      var c :| c in cs;
      SoloCover(sys, t, x, c);
      var z := x.(held := Joined(x.held, Footprint({}, {}, {c})), passed := x.passed + {c});
      var more;
      more, y := SoloCovers(sys, t, z, cs - {c});
      assert x.passed + {c} + (cs - {c}) == x.passed + cs;
      es := [LockCover(t, c), CheckCover(t, c)] + more;
      RunTwo(Alone(sys, t, x), LockCover(t, c), CheckCover(t, c), more);
    }
  }

  lemma RunTwo(sys: System, e: Event, f: Event, es: seq<Event>)
    ensures Run(sys, [e, f] + es) == Run(Next(Next(sys, e), f), es)
  {
    hide Next;
    assert ([e, f] + es)[1..] == [f] + es && ([f] + es)[1..] == es;
  }

  lemma DoneIsKnown(s: Ledger, op: Op)
    requires Step(s, op).1 == Done
    ensures Known(s, op)
  {
    hide SubmittedCovers, SubmittedInstalls, Available, Free, InspectReturn, RecordShortfall, Relocated;
    hide Moved, Released, Locks;
  }

  /** Whatever the atomic machine accepts, some interleaving commits. */
  lemma AcceptedCanCommit(sys: System, t: TxId, op: Op) returns (es: seq<Event>)
    requires sys.txs == map[] && Step(sys.db, op).1 == Done
    ensures Run(sys, es) == System(Step(sys.db, op).0, map[], sys.log + [op])
  {
    PartsMakeWhole(sys.db, op);
    DoneIsKnown(sys.db, op);
    hide RowGuard, Locks, CapacityGuard, CoverGuard, Known, Effect, Lock, Step;
    var x := Tx(op, NO_LOCKS, false, false, {}, None);
    assert Next(sys, Begin(t, op)) == Alone(sys, t, x);
    var r := x.(held := Footprint(Locks(sys.db, op).rows, {}, {}), rowOk := true);
    SoloRows(sys, t, x);
    var k := r.(held := Footprint(r.held.rows, Locks(sys.db, op).offices, {}), capacityOk := true);
    SoloCapacity(sys, t, r);
    var covers, y := SoloCovers(sys, t, k, Locks(sys.db, op).covers);
    SoloCommit(sys, t, y);
    hide *;
    RunAppend(Alone(sys, t, k), covers, Commit(t));
    RunTwo(Alone(sys, t, r), LockOffices(t), CheckCapacity(t), covers + [Commit(t)]);
    RunTwo(Alone(sys, t, x), LockRows(t), CheckRows(t), [LockOffices(t), CheckCapacity(t)] + (covers + [Commit(t)]));
    es := [Begin(t, op)] + ([LockRows(t), CheckRows(t)] + ([LockOffices(t), CheckCapacity(t)] + (covers + [Commit(t)])));
    RunOne(sys, Begin(t, op), [LockRows(t), CheckRows(t)] + ([LockOffices(t), CheckCapacity(t)] + (covers + [Commit(t)])));
  }

  lemma RunOne(sys: System, e: Event, es: seq<Event>)
    ensures Run(sys, [e] + es) == Run(Next(sys, e), es)
  {
    hide Next;
    assert ([e] + es)[1..] == es;
  }

  lemma SoloCommit(sys: System, t: TxId, y: Tx)
    requires y.rowOk && y.capacityOk && y.late.None? && Locks(sys.db, y.op).covers <= y.passed
    ensures Next(Alone(sys, t, y), Commit(t)) == System(Effect(sys.db, y.op), map[], sys.log + [y.op])
  {
    hide Locks, Effect;
    assert map[t := y] - {t} == map[];
  }
}
