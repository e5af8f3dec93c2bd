/** The borrow notification outbox: at-least-once workers, at-most-once notifications. */
module Outbox {
  import opened Collections

  datatype Message = Message(key: string, borrow: string, recipient: string, text: string)

  /** An outbox row; processed stands for processed_at IS NOT NULL. */
  datatype Row = Row(message: Message, processed: bool)

  type Rows = seq<Row>

  const LIMIT := 100

  predicate Wanted(row: Row, borrow: Option<string>)
  {
    !row.processed && (borrow.Some? ==> row.message.borrow == borrow.value)
  }

  /** The first n pending rows, of one borrow or of all, in the query's order. */
  function FirstPending(rows: Rows, borrow: Option<string>, n: nat): seq<Message>
  {
    if rows == [] || n == 0 then []
    else if Wanted(rows[0], borrow) then [rows[0].message] + FirstPending(rows[1..], borrow, n - 1)
    else FirstPending(rows[1..], borrow, n)
  }

  function PendingCount(rows: Rows, borrow: Option<string>): nat
  {
    if rows == [] then 0 else (if Wanted(rows[0], borrow) then 1 else 0) + PendingCount(rows[1..], borrow)
  }

  predicate HasRow(rows: Rows, key: string)
  {
    exists i :: 0 <= i < |rows| && rows[i].message.key == key
  }

  predicate HasNote(notes: seq<Message>, key: string)
  {
    exists i :: 0 <= i < |notes| && notes[i].key == key
  }

  /** INSERT ... ON CONFLICT (dedup_key) DO NOTHING. */
  function InsertOnce(notes: seq<Message>, m: Message): seq<Message>
  {
    if HasNote(notes, m.key) then notes else notes + [m]
  }

  /** UPDATE ... SET processed_at WHERE the row is this one and still pending. */
  function Mark(rows: Rows, key: string): (r: Rows)
    ensures |r| == |rows| && forall i :: 0 <= i < |rows| ==> r[i] == if rows[i].message.key == key then rows[i].(processed := true) else rows[i]
  {
    seq(|rows|, i requires 0 <= i < |rows| => if rows[i].message.key == key then rows[i].(processed := true) else rows[i])
  }

  // ----- any number of workers, crashing anywhere -----

  /** What a worker still has to deliver; `inserted` says the notification of the first is written. */
  datatype Worker = Worker(batch: seq<Message>, inserted: bool)

  datatype World = World(outbox: Rows, notes: seq<Message>, workers: map<nat, Worker>)

  const NOTHING := World([], [], map[])

  /** A committed borrow transaction enqueues a message (at the place its timestamp gives it);
      workers read a batch, insert, mark, and may crash between any two writes. */
  datatype Event =
    | Enqueue(message: Message, at: nat)
    | Start(worker: nat, borrow: Option<string>)
    | Insert(worker: nat)
    | MarkProcessed(worker: nat)
    | Crash(worker: nat)

  function Next(x: World, e: Event): World
  {
    match e
    case Enqueue(m, at) =>
      if HasRow(x.outbox, m.key) || at > |x.outbox| then x
      else x.(outbox := x.outbox[..at] + [Row(m, false)] + x.outbox[at..])
    case Start(w, borrow) =>
      if w in x.workers then x else x.(workers := x.workers[w := Worker(FirstPending(x.outbox, borrow, LIMIT), false)])
    case Insert(w) =>
      if w !in x.workers || x.workers[w].batch == [] || x.workers[w].inserted then x
      else x.(notes := InsertOnce(x.notes, x.workers[w].batch[0]), workers := x.workers[w := x.workers[w].(inserted := true)])
    case MarkProcessed(w) =>
      if w !in x.workers || x.workers[w].batch == [] || !x.workers[w].inserted then x
      else x.(outbox := Mark(x.outbox, x.workers[w].batch[0].key),
            workers := x.workers[w := Worker(x.workers[w].batch[1..], false)])
    case Crash(w) => x.(workers := x.workers - {w})
  }

  predicate DistinctRows(rows: Rows)
  {
    forall i, j :: 0 <= i < j < |rows| ==> rows[i].message.key != rows[j].message.key
  }

  /** Each dedup key yields at most one notification. */
  predicate DistinctNotes(notes: seq<Message>)
  {
    forall i, j :: 0 <= i < j < |notes| ==> notes[i].key != notes[j].key
  }

  ghost predicate InOutbox(rows: Rows, m: Message)
  {
    exists i :: 0 <= i < |rows| && rows[i].message == m
  }

  /** Every notification comes from an outbox row, word for word. */
  ghost predicate NotesHaveRows(rows: Rows, notes: seq<Message>)
  {
    forall i :: 0 <= i < |notes| ==> InOutbox(rows, notes[i])
  }

  /** Every processed row has its notification. */
  ghost predicate ProcessedHaveNotes(rows: Rows, notes: seq<Message>)
  {
    forall i :: 0 <= i < |rows| && rows[i].processed ==> HasNote(notes, rows[i].message.key)
  }

  ghost predicate WorkerOk(rows: Rows, notes: seq<Message>, w: Worker)
  {
    && (forall i :: 0 <= i < |w.batch| ==> InOutbox(rows, w.batch[i]))
    && (w.inserted ==> w.batch != [] && HasNote(notes, w.batch[0].key))
  }

  ghost predicate Inv(x: World)
  {
    && DistinctRows(x.outbox) && DistinctNotes(x.notes)
    && NotesHaveRows(x.outbox, x.notes) && ProcessedHaveNotes(x.outbox, x.notes)
    && forall w :: w in x.workers ==> WorkerOk(x.outbox, x.notes, x.workers[w])
  }

  lemma EnqueueKeeps(x: World, m: Message, at: nat)
    requires Inv(x) && !HasRow(x.outbox, m.key) && at <= |x.outbox|
    ensures Inv(x.(outbox := x.outbox[..at] + [Row(m, false)] + x.outbox[at..]))
  {
    var rows := x.outbox[..at] + [Row(m, false)] + x.outbox[at..];
    forall n | InOutbox(x.outbox, n) ensures InOutbox(rows, n) {
      var i :| 0 <= i < |x.outbox| && x.outbox[i].message == n;
      assert rows[if i < at then i else i + 1].message == n;
    }
    assert forall i :: 0 <= i < at ==> rows[i] == x.outbox[i];
    assert forall i :: at < i < |rows| ==> rows[i] == x.outbox[i - 1];
    hide InOutbox;
  }

  lemma {:induction false} BatchInOutbox(rows: Rows, borrow: Option<string>, n: nat)
    ensures forall i :: 0 <= i < |FirstPending(rows, borrow, n)| ==> InOutbox(rows, FirstPending(rows, borrow, n)[i])
    decreases |rows|
  {
    if rows != [] && n > 0 {
      var k := if Wanted(rows[0], borrow) then n - 1 else n;
      BatchInOutbox(rows[1..], borrow, k);
      forall m | InOutbox(rows[1..], m) ensures InOutbox(rows, m) {
        var i :| 0 <= i < |rows[1..]| && rows[1..][i].message == m;
        assert rows[i + 1].message == m;
      }
      assert InOutbox(rows, rows[0].message);
    }
  }

  lemma InsertedNotes(notes: seq<Message>, m: Message)
    ensures forall key :: HasNote(notes, key) || key == m.key ==> HasNote(InsertOnce(notes, m), key)
  {
    var r := InsertOnce(notes, m);
    forall key | HasNote(notes, key) ensures HasNote(r, key) {
      var i :| 0 <= i < |notes| && notes[i].key == key;
      assert r[i].key == key;
    }
    if !HasNote(notes, m.key) {
      assert r[|notes|].key == m.key;
    }
  }

  lemma InsertKeeps(x: World, w: nat)
    requires Inv(x) && w in x.workers && x.workers[w].batch != [] && !x.workers[w].inserted
    ensures Inv(Next(x, Insert(w)))
  {
    InsertedNotes(x.notes, x.workers[w].batch[0]);
    hide InOutbox;
  }

  lemma MarkKeeps(x: World, w: nat)
    requires Inv(x) && w in x.workers && x.workers[w].batch != [] && x.workers[w].inserted
    ensures Inv(Next(x, MarkProcessed(w)))
  {
    var rows := Mark(x.outbox, x.workers[w].batch[0].key);
    forall m | InOutbox(x.outbox, m) ensures InOutbox(rows, m) {
      var i :| 0 <= i < |x.outbox| && x.outbox[i].message == m;
      assert rows[i].message == m;
    }
    hide InOutbox, HasNote;
  }

  /** Whatever the workers do and wherever they stop. */
  lemma NextKeeps(x: World, e: Event)
    requires Inv(x)
    ensures Inv(Next(x, e))
  {
    match e
    case Enqueue(m, at) =>
      if !HasRow(x.outbox, m.key) && at <= |x.outbox| {
        EnqueueKeeps(x, m, at);
      }
    case Start(w, borrow) =>
      BatchInOutbox(x.outbox, borrow, LIMIT);
      hide FirstPending, InOutbox;
    case Insert(w) =>
      if w in x.workers && x.workers[w].batch != [] && !x.workers[w].inserted {
        InsertKeeps(x, w);
      }
    case MarkProcessed(w) =>
      if w in x.workers && x.workers[w].batch != [] && x.workers[w].inserted {
        MarkKeeps(x, w);
      }
    case Crash(w) =>
  }

  function Run(x: World, es: seq<Event>): World
    decreases |es|
  {
    if es == [] then x else Run(Next(x, es[0]), es[1..])
  }

  lemma {:induction false} RunKeeps(x: World, es: seq<Event>)
    requires Inv(x)
    ensures Inv(Run(x, es))
    decreases |es|
  {
    hide Inv, Next;
    if es != [] {
      NextKeeps(x, es[0]);
      RunKeeps(Next(x, es[0]), es[1..]);
    }
  }

  lemma StartsWell()
    ensures Inv(NOTHING)
  {
  }

  /** Whatever is enqueued, however many workers run and wherever they crash: one notification
      per key at most, none without its outbox row, and none missing for a processed row. */
  lemma DeliveredAtMostOnce(es: seq<Event>)
    ensures var x := Run(NOTHING, es);
            && (forall i, j :: 0 <= i < j < |x.outbox| ==> x.outbox[i].message.key != x.outbox[j].message.key)
            && (forall i, j :: 0 <= i < j < |x.notes| ==> x.notes[i].key != x.notes[j].key)
            && (forall n :: n in x.notes ==> exists k :: 0 <= k < |x.outbox| && x.outbox[k].message == n)
            && (forall i :: 0 <= i < |x.outbox| && x.outbox[i].processed ==>
                  exists k :: 0 <= k < |x.notes| && x.notes[k].key == x.outbox[i].message.key)
  {
    hide Run;
    StartsWell();
    RunKeeps(NOTHING, es);
    hide Inv;
    DeliveredByRow(Run(NOTHING, es));
  }

  lemma DeliveredByRow(x: World)
    requires Inv(x)
    ensures forall i, j :: 0 <= i < j < |x.outbox| ==> x.outbox[i].message.key != x.outbox[j].message.key
    ensures forall i, j :: 0 <= i < j < |x.notes| ==> x.notes[i].key != x.notes[j].key
    ensures forall n :: n in x.notes ==> exists k :: 0 <= k < |x.outbox| && x.outbox[k].message == n
    ensures forall i :: 0 <= i < |x.outbox| && x.outbox[i].processed ==>
              exists k :: 0 <= k < |x.notes| && x.notes[k].key == x.outbox[i].message.key
  {
    forall n | n in x.notes ensures exists k :: 0 <= k < |x.outbox| && x.outbox[k].message == n {
      assert InOutbox(x.outbox, n);
    }
    forall i | 0 <= i < |x.outbox| && x.outbox[i].processed
      ensures exists k :: 0 <= k < |x.notes| && x.notes[k].key == x.outbox[i].message.key
    {
      assert HasNote(x.notes, x.outbox[i].message.key);
    }
  }

  /** A message with a new key gets a pending row at its place; one with a known key changes nothing. */
  lemma EnqueueAdds(x: World, m: Message, at: nat)
    requires at <= |x.outbox|
    ensures var y := Next(x, Enqueue(m, at));
            if exists i :: 0 <= i < |x.outbox| && x.outbox[i].message.key == m.key then y == x
            else
              && y == x.(outbox := y.outbox) && |y.outbox| == |x.outbox| + 1 && y.outbox[at] == Row(m, false)
              && (forall i :: 0 <= i < at ==> y.outbox[i] == x.outbox[i])
              && (forall i :: at <= i < |x.outbox| ==> y.outbox[i + 1] == x.outbox[i])
  {
  }

  // ----- one pass, run alone -----

  /** The rows once the first n pending ones are processed. */
  function Delivered(rows: Rows, borrow: Option<string>, n: nat): Rows
  {
    if rows == [] || n == 0 then rows
    else if Wanted(rows[0], borrow) then [rows[0].(processed := true)] + Delivered(rows[1..], borrow, n - 1)
    else [rows[0]] + Delivered(rows[1..], borrow, n)
  }

  function Min(a: nat, b: nat): nat { if a < b then a else b }

  /** A pass lowers the pending count by min(n, pending), and the total by as much. */
  lemma {:induction false} PassLowersPending(rows: Rows, borrow: Option<string>, n: nat)
    ensures |FirstPending(rows, borrow, n)| == Min(n, PendingCount(rows, borrow))
    ensures PendingCount(Delivered(rows, borrow, n), borrow) == PendingCount(rows, borrow) - Min(n, PendingCount(rows, borrow))
    ensures PendingCount(Delivered(rows, borrow, n), None) == PendingCount(rows, None) - Min(n, PendingCount(rows, borrow))
    decreases |rows|
  {
    if rows != [] && n > 0 {
      var k := if Wanted(rows[0], borrow) then n - 1 else n;
      PassLowersPending(rows[1..], borrow, k);
      var d := Delivered(rows, borrow, n);
      assert d[1..] == Delivered(rows[1..], borrow, k);
    }
  }

  // ----- one pass, row by row -----

  /** How many of the rows before position i are pending, of one borrow or of all. */
  ghost function PendingBefore(rows: Rows, borrow: Option<string>, i: nat): nat
    requires i <= |rows|
  {
    if i == 0 then 0
    else PendingBefore(rows, borrow, i - 1) +
         if !rows[i - 1].processed && (borrow == None || borrow == Some(rows[i - 1].message.borrow)) then 1 else 0
  }

  /** Row i is in the batch: pending, of the borrow asked for, with fewer than n such rows before it. */
  ghost predicate InBatch(rows: Rows, borrow: Option<string>, n: nat, i: nat)
    requires i < |rows|
  {
    && !rows[i].processed && (borrow == None || borrow == Some(rows[i].message.borrow))
    && PendingBefore(rows, borrow, i) < n
  }

  lemma {:induction false} PendingBehindFirst(rows: Rows, borrow: Option<string>, i: nat)
    requires 0 < i <= |rows|
    ensures PendingBefore(rows, borrow, i) == PendingBefore(rows, borrow, 1) + PendingBefore(rows[1..], borrow, i - 1)
  {
    if i > 1 {
      PendingBehindFirst(rows, borrow, i - 1);
      assert rows[1..][i - 2] == rows[i - 1];
    }
  }

  /** A pass processes exactly the rows in its batch and leaves every other row as it was. */
  lemma {:induction false} PassByRow(rows: Rows, borrow: Option<string>, n: nat)
    ensures |Delivered(rows, borrow, n)| == |rows|
    ensures forall i :: 0 <= i < |rows| ==>
              Delivered(rows, borrow, n)[i] == if InBatch(rows, borrow, n, i) then rows[i].(processed := true) else rows[i]
    decreases |rows|
  {
    if rows != [] && n > 0 {
      var k := if Wanted(rows[0], borrow) then n - 1 else n;
      PassByRow(rows[1..], borrow, k);
      forall i | 0 < i < |rows| ensures InBatch(rows, borrow, n, i) <==> InBatch(rows[1..], borrow, k, i - 1) {
        PendingBehindFirst(rows, borrow, i);
        assert PendingBefore(rows, borrow, 1) == n - k;
      }
      assert Delivered(rows, borrow, n)[1..] == Delivered(rows[1..], borrow, k);
    }
  }

  /** The messages a pass delivers are those of the rows in its batch. */
  lemma {:induction false} BatchByRow(rows: Rows, borrow: Option<string>, n: nat, m: Message)
    requires m in FirstPending(rows, borrow, n)
    ensures exists i :: 0 <= i < |rows| && rows[i].message == m && InBatch(rows, borrow, n, i)
    decreases |rows|
  {
    var k := if Wanted(rows[0], borrow) then n - 1 else n;
    if Wanted(rows[0], borrow) && m == rows[0].message {
      assert InBatch(rows, borrow, n, 0);
    } else {
      BatchByRow(rows[1..], borrow, k, m);
      var i :| 0 <= i < |rows[1..]| && rows[1..][i].message == m && InBatch(rows[1..], borrow, k, i);
      PendingBehindFirst(rows, borrow, i + 1);
      assert PendingBefore(rows, borrow, 1) == n - k;
      assert InBatch(rows, borrow, n, i + 1);
    }
  }

  /** Enough passes drain the outbox. */
  function Passes(rows: Rows, k: nat): Rows
    decreases k
  {
    if k == 0 then rows else Passes(Delivered(rows, None, LIMIT), k - 1)
  }

  lemma {:induction false} PassesDrain(rows: Rows, k: nat)
    requires PendingCount(rows, None) <= k * LIMIT
    ensures PendingCount(Passes(rows, k), None) == 0
    decreases k
  {
    if k > 0 {
      PassLowersPending(rows, None, LIMIT);
      PassesDrain(Delivered(rows, None, LIMIT), k - 1);
    }
  }

  /** Marks every row whose message is in the batch. */
  function MarkAll(rows: Rows, batch: seq<Message>): Rows
    decreases |batch|
  {
    if batch == [] then rows else MarkAll(Mark(rows, batch[0].key), batch[1..])
  }

  lemma {:induction false} MarkAllSkips(row: Row, rest: Rows, batch: seq<Message>)
    requires forall i :: 0 <= i < |batch| ==> batch[i].key != row.message.key
    ensures MarkAll([row] + rest, batch) == [row] + MarkAll(rest, batch)
    decreases |batch|
  {
    if batch != [] {
      assert Mark([row] + rest, batch[0].key) == [row] + Mark(rest, batch[0].key);
      MarkAllSkips(row, Mark(rest, batch[0].key), batch[1..]);
    }
  }

  lemma {:induction false} BatchKeys(rows: Rows, borrow: Option<string>, n: nat)
    ensures forall i :: 0 <= i < |FirstPending(rows, borrow, n)| ==> HasRow(rows, FirstPending(rows, borrow, n)[i].key)
  {
    BatchInOutbox(rows, borrow, n);
    forall m | InOutbox(rows, m) ensures HasRow(rows, m.key) {
      var i :| 0 <= i < |rows| && rows[i].message == m;
    }
  }

  lemma HeadNotInBatch(rows: Rows, borrow: Option<string>, k: nat)
    requires DistinctRows(rows) && rows != []
    ensures forall i :: 0 <= i < |FirstPending(rows[1..], borrow, k)| ==>
              FirstPending(rows[1..], borrow, k)[i].key != rows[0].message.key
    ensures DistinctRows(rows[1..])
  {
    BatchKeys(rows[1..], borrow, k);
    hide FirstPending;
    forall i | 0 <= i < |FirstPending(rows[1..], borrow, k)|
      ensures FirstPending(rows[1..], borrow, k)[i].key != rows[0].message.key
    {
      assert HasRow(rows[1..], FirstPending(rows[1..], borrow, k)[i].key);
    }
  }

  lemma MarkHead(rows: Rows)
    requires DistinctRows(rows) && rows != []
    ensures Mark(rows, rows[0].message.key) == [rows[0].(processed := true)] + rows[1..]
  {
  }

  /** Marking a batch row by row delivers exactly the batch. */
  lemma {:induction false} MarkAllDelivers(rows: Rows, borrow: Option<string>, n: nat)
    requires DistinctRows(rows)
    ensures MarkAll(rows, FirstPending(rows, borrow, n)) == Delivered(rows, borrow, n)
    decreases |rows|
  {
    if rows != [] && n > 0 {
      var row, rest := rows[0], rows[1..];
      var k := if Wanted(row, borrow) then n - 1 else n;
      MarkAllDelivers(rest, borrow, k);
      HeadNotInBatch(rows, borrow, k);
      assert rows == [row] + rest;
      hide DistinctRows, Wanted, Mark;
      if Wanted(row, borrow) {
        MarkHead(rows);
        MarkAllSkips(row.(processed := true), rest, FirstPending(rest, borrow, k));
      } else {
        MarkAllSkips(row, rest, FirstPending(rest, borrow, k));
      }
    }
  }

  lemma ProcessedNoted(x: World)
    requires Inv(x)
    ensures forall i :: 0 <= i < |x.outbox| && x.outbox[i].processed ==> HasNote(x.notes, x.outbox[i].message.key)
  {
  }

  /** A lone worker takes the batch of a pass. */
  lemma BatchTaken(rows: Rows, notes: seq<Message>, borrow: Option<string>)
    requires Inv(World(rows, notes, map[]))
    ensures Inv(World(rows, notes, map[0 := Worker(FirstPending(rows, borrow, LIMIT), false)]))
  {
    hide FirstPending, Inv;
    NextKeeps(World(rows, notes, map[]), Start(0, borrow));
    assert Next(World(rows, notes, map[]), Start(0, borrow)).workers == map[0 := Worker(FirstPending(rows, borrow, LIMIT), false)];
  }

  /** A worker with nothing left to do may go. */
  lemma WorkerGoes(rows: Rows, notes: seq<Message>)
    requires Inv(World(rows, notes, map[0 := Worker([], false)]))
    ensures Inv(World(rows, notes, map[]))
  {
    hide Inv;
    NextKeeps(World(rows, notes, map[0 := Worker([], false)]), Crash(0));
    assert map[0 := Worker([], false)] - {0} == map[];
  }

  /** What a pass does to its rows, however it is told. */
  lemma PassTold(x: World, borrow: Option<string>)
    requires Inv(x)
    ensures var batch, r := FirstPending(x.outbox, borrow, LIMIT), Delivered(x.outbox, borrow, LIMIT);
            && MarkAll(x.outbox, batch) == r && |r| == |x.outbox|
            && (forall i :: 0 <= i < |r| ==>
                  r[i] == if InBatch(x.outbox, borrow, LIMIT, i) then x.outbox[i].(processed := true) else x.outbox[i])
            && PendingCount(r, None) == PendingCount(x.outbox, None) - Min(LIMIT, PendingCount(x.outbox, borrow))
  {
    hide MarkAll, FirstPending, Delivered, PendingCount, InBatch;
    MarkAllDelivers(x.outbox, borrow, LIMIT);
    PassLowersPending(x.outbox, borrow, LIMIT);
    PassByRow(x.outbox, borrow, LIMIT);
  }

  class Dispatcher {
    var outbox: Rows
    var notes: seq<Message>

    constructor ()
      ensures Valid() && outbox == [] && notes == []
    {
      outbox, notes := [], [];
    }

    ghost predicate Valid()
      reads this
    {
      Inv(World(outbox, notes, map[]))
    }

    /** One uninterrupted pass: the first hundred pending rows, of one borrow or of all, get their
        notifications and are marked. No other row changes and nobody else is notified. */
    method DispatchPending(borrow: Option<string>)
      requires Valid()
      modifies this
      ensures Valid() && outbox == Delivered(old(outbox), borrow, LIMIT) && |outbox| == |old(outbox)|
      ensures forall i :: 0 <= i < |outbox| ==>
                outbox[i] == if InBatch(old(outbox), borrow, 100, i) then old(outbox)[i].(processed := true) else old(outbox)[i]
      ensures forall i :: 0 <= i < |outbox| && InBatch(old(outbox), borrow, 100, i) ==> HasNote(notes, outbox[i].message.key)
      ensures old(notes) <= notes
      ensures forall m :: m in notes[|old(notes)|..] ==>
                exists i :: 0 <= i < |outbox| && outbox[i].message == m && InBatch(old(outbox), borrow, 100, i)
      ensures PendingCount(outbox, None) == PendingCount(old(outbox), None) - Min(LIMIT, PendingCount(old(outbox), borrow))
    {
      assert LIMIT == 100;
      hide *;
      var batch := FirstPending(outbox, borrow, LIMIT);
      PassTold(World(outbox, notes, map[]), borrow);
      BatchTaken(outbox, notes, borrow);
      for i := 0 to |batch|
        invariant Inv(World(outbox, notes, map[0 := Worker(batch[i..], false)]))
        invariant MarkAll(outbox, batch[i..]) == MarkAll(old(outbox), batch)
        invariant old(notes) <= notes && forall j :: |old(notes)| <= j < |notes| ==> notes[j] in batch
      {
        Deliver(batch[i..]);
        assert batch[i..][0] == batch[i] && batch[i..][1..] == batch[i + 1..];
      }
      assert batch[|batch|..] == [];
      forall m | m in notes[|old(notes)|..]
        ensures exists i :: 0 <= i < |outbox| && outbox[i].message == m && InBatch(old(outbox), borrow, LIMIT, i)
      {
        BatchByRow(old(outbox), borrow, LIMIT, m);
      }
      WorkerGoes(outbox, notes);
      ProcessedNoted(World(outbox, notes, map[]));
    }

    /** Insert once, then mark. */
    method Deliver(batch: seq<Message>)
      requires batch != [] && Inv(World(outbox, notes, map[0 := Worker(batch, false)]))
      modifies this
      ensures Inv(World(outbox, notes, map[0 := Worker(batch[1..], false)]))
      ensures outbox == Mark(old(outbox), batch[0].key) && HasNote(notes, batch[0].key)
      ensures old(notes) <= notes && forall j :: |old(notes)| <= j < |notes| ==> notes[j] == batch[0]
    {
      ghost var x := World(outbox, notes, map[0 := Worker(batch, false)]);
      NextKeeps(x, Insert(0));
      ghost var y := Next(x, Insert(0));
      assert y == World(outbox, InsertOnce(notes, batch[0]), map[0 := Worker(batch, true)]);
      NextKeeps(y, MarkProcessed(0));
      assert Next(y, MarkProcessed(0)) == World(Mark(outbox, batch[0].key), y.notes, map[0 := Worker(batch[1..], false)]);
      InsertedNotes(notes, batch[0]);
      hide Inv, Next;
      notes := InsertOnce(notes, batch[0]);
      outbox := Mark(outbox, batch[0].key);
    }
  }
}
